/** The portfolio: positions, marks, fees and funding by instrument slot, and the cash they moved. */
module Portfolio {

  // ------------------------------------------------------------------- events, orders and outcomes

  datatype Payload = Trade(price: real) | Funding(rate: real) | Kline(close: real) |
      MarkPriceKline(markClose: real) | OtherData

  datatype MarketEvent = MarketEvent(slot: nat, ts: int, payload: Payload)

  datatype Side = Buy | Sell

  datatype Order = Order(id: nat, slot: nat, side: Side, qty: real)

  datatype Fill = Fill(orderId: nat, slot: nat, side: Side, ts: int, price: real, qty: real, fee: real)

  datatype Reject = Reject(orderId: nat, slot: nat, ts: int)

  function SignedQty(side: Side, qty: real): real {
    if side.Buy? then qty else -qty
  }

  // ---------------------------------------------------------------------------- the books as a value

  datatype Books = Books(positions: seq<real>, marks: seq<real>, fundingMarks: seq<real>,
                         fees: seq<real>, paid: seq<real>, received: seq<real>, cash: real)

  predicate Shape(b: Books, n: nat) {
    |b.positions| == |b.marks| == |b.fundingMarks| == |b.fees| == |b.paid| == |b.received| == n
  }

  function Zeros(n: nat): seq<real> {
    seq(n, _ => 0.0)
  }

  function Empty(n: nat): Books {
    Books(Zeros(n), Zeros(n), Zeros(n), Zeros(n), Zeros(n), Zeros(n), 0.0)
  }

  function Filled(b: Books, f: Fill): Books
    requires Shape(b, |b.positions|) && f.slot < |b.positions|
  {
    var delta := SignedQty(f.side, f.qty);
    b.(positions := b.positions[f.slot := b.positions[f.slot] + delta],
       cash := b.cash - (delta * f.price + f.fee),
       fees := b.fees[f.slot := b.fees[f.slot] + f.fee])
  }

  function Flow(b: Books, slot: nat, rate: real): real
    requires Shape(b, |b.positions|) && slot < |b.positions|
  {
    b.positions[slot] * b.fundingMarks[slot] * rate
  }

  function Funded(b: Books, e: MarketEvent): Books
    requires Shape(b, |b.positions|) && e.slot < |b.positions|
  {
    if !e.payload.Funding? then b
    else
      var flow := Flow(b, e.slot, e.payload.rate);
      b.(cash := b.cash - flow,
         paid := b.paid[e.slot := b.paid[e.slot] + if flow > 0.0 then flow else 0.0],
         received := b.received[e.slot := b.received[e.slot] - if flow < 0.0 then flow else 0.0])
  }

  function Marked(b: Books, e: MarketEvent): Books
    requires Shape(b, |b.positions|) && e.slot < |b.positions|
  {
    match e.payload
    case Trade(price) => b.(marks := b.marks[e.slot := price])
    case Kline(close) => b.(marks := b.marks[e.slot := close])
    case MarkPriceKline(close) => b.(marks := b.marks[e.slot := close], fundingMarks := b.fundingMarks[e.slot := close])
    case _ => b
  }

  /** Fills applied in order. */
  function Drained(b: Books, fills: seq<Fill>): (r: Books)
    requires Shape(b, |b.positions|) && forall f :: f in fills ==> f.slot < |b.positions|
    ensures Shape(r, |b.positions|)
  {
    if fills == [] then b
    else Filled(Drained(b, fills[..|fills| - 1]), fills[|fills| - 1])
  }

  function Moved(fills: seq<Fill>, slot: nat): real {
    if fills == [] then 0.0
    else
      var last := fills[|fills| - 1];
      Moved(fills[..|fills| - 1], slot) + if last.slot == slot then SignedQty(last.side, last.qty) else 0.0
  }

  /** Fills move positions by their signed quantities and leave every mark alone. */
  lemma {:induction false} DrainedPositions(b: Books, fills: seq<Fill>, slot: nat)
    requires Shape(b, |b.positions|) && forall f :: f in fills ==> f.slot < |b.positions|
    requires slot < |b.positions|
    ensures Drained(b, fills).positions[slot] == b.positions[slot] + Moved(fills, slot)
    ensures Drained(b, fills).marks == b.marks && Drained(b, fills).fundingMarks == b.fundingMarks
  {
    if fills != [] {
      DrainedPositions(b, fills[..|fills| - 1], slot);
    }
  }

  // ------------------------------------------------------------------------------------ conservation

  function Sum(s: seq<real>): real {
    if s == [] then 0.0 else Sum(s[..|s| - 1]) + s[|s| - 1]
  }

  lemma {:induction false} SumUpdate(s: seq<real>, i: nat, v: real)
    requires i < |s|
    ensures Sum(s[i := v]) == Sum(s) - s[i] + v
  {
    var s' := s[i := v];
    if i == |s| - 1 {
      assert s'[..|s| - 1] == s[..|s| - 1];
    } else {
      SumUpdate(s[..|s| - 1], i, v);
      assert s'[..|s| - 1] == s[..|s| - 1][i := v];
    }
  }

  /** Something written into the books. */
  datatype Booking = FillBooked(fill: Fill) | EventBooked(event: MarketEvent)

  predicate InRange(k: Booking, n: nat) {
    if k.FillBooked? then k.fill.slot < n else k.event.slot < n
  }

  function SlotOf(k: Booking): nat {
    if k.FillBooked? then k.fill.slot else k.event.slot
  }

  function Booked(b: Books, k: Booking): (r: Books)
    requires Shape(b, |b.positions|) && InRange(k, |b.positions|)
    ensures Shape(r, |b.positions|)
  {
    if k.FillBooked? then Filled(b, k.fill) else Marked(Funded(b, k.event), k.event)
  }

  function AfterAll(n: nat, bookings: seq<Booking>): (r: Books)
    requires forall k :: k in bookings ==> InRange(k, n)
    ensures Shape(r, n)
  {
    if bookings == [] then Empty(n) else Booked(AfterAll(n, bookings[..|bookings| - 1]), bookings[|bookings| - 1])
  }

  /** Signed notional of the fills among the bookings. */
  function Traded(bookings: seq<Booking>): real {
    if bookings == [] then 0.0
    else
      var last := bookings[|bookings| - 1];
      Traded(bookings[..|bookings| - 1])
      + if last.FillBooked? then SignedQty(last.fill.side, last.fill.qty) * last.fill.price else 0.0
  }

  lemma {:induction false} ZerosSumToZero(n: nat)
    ensures Sum(Zeros(n)) == 0.0
  {
    if n > 0 {
      ZerosSumToZero(n - 1);
      assert Zeros(n)[..n - 1] == Zeros(n - 1);
    }
  }

  /** Cash with what was paid out as fees and funding put back. */
  function Balance(b: Books): real {
    b.cash + Sum(b.fees) + Sum(b.paid) - Sum(b.received)
  }

  /** No money appears or vanishes, whatever is booked and in whatever order: cash, what was traded
      for, fees and funding paid, less funding received, always balance. */
  lemma {:induction false} CashBalances(n: nat, bookings: seq<Booking>)
    requires forall k :: k in bookings ==> InRange(k, n)
    ensures Balance(AfterAll(n, bookings)) + Traded(bookings) == 0.0
  {
    if bookings == [] {
      ZerosSumToZero(n);
    } else {
      var before, last := bookings[..|bookings| - 1], bookings[|bookings| - 1];
      hide Booked, Balance, SignedQty, Traded, AfterAll;
      assert before + [last] == bookings;
      assert forall k :: k in before ==> k in bookings;
      assert last in bookings;
      OneMore(n, before, last);
      CashBalances(n, before);
      OneBookingBalances(AfterAll(n, before), last);
      OneMoreTraded(bookings);
    }
  }

  lemma OneMoreTraded(bookings: seq<Booking>)
    requires bookings != []
    ensures var last := bookings[|bookings| - 1];
            Traded(bookings) == Traded(bookings[..|bookings| - 1])
                                + if last.FillBooked? then SignedQty(last.fill.side, last.fill.qty) * last.fill.price
                                  else 0.0
  {
  }

  lemma OneBookingBalances(b: Books, k: Booking)
    requires Shape(b, |b.positions|) && InRange(k, |b.positions|)
    ensures Balance(Booked(b, k)) + (if k.FillBooked? then SignedQty(k.fill.side, k.fill.qty) * k.fill.price else 0.0)
            == Balance(b)
  {
    if k.FillBooked? {
      SumUpdate(b.fees, k.fill.slot, b.fees[k.fill.slot] + k.fill.fee);
    } else if k.event.payload.Funding? {
      var slot := k.event.slot;
      var r := Booked(b, k);
      SumUpdate(b.paid, slot, r.paid[slot]);
      SumUpdate(b.received, slot, r.received[slot]);
    }
  }

  /** Signed notional of fills. */
  function Notional(fills: seq<Fill>): real {
    if fills == [] then 0.0
    else
      var last := fills[|fills| - 1];
      Notional(fills[..|fills| - 1]) + SignedQty(last.side, last.qty) * last.price
  }

  lemma {:induction false} NotionalConcat(a: seq<Fill>, b: seq<Fill>)
    ensures Notional(a + b) == Notional(a) + Notional(b)
  {
    if b == [] {
      assert a + b == a;
    } else {
      NotionalConcat(a, b[..|b| - 1]);
      assert (a + b)[..|a + b| - 1] == a + b[..|b| - 1];
    }
  }

  lemma {:induction false} DrainBalances(b: Books, fills: seq<Fill>)
    requires Shape(b, |b.positions|) && forall f :: f in fills ==> f.slot < |b.positions|
    ensures Balance(Drained(b, fills)) + Notional(fills) == Balance(b)
  {
    if fills != [] {
      hide Balance;
      var before, last := fills[..|fills| - 1], fills[|fills| - 1];
      assert last in fills && last.slot < |b.positions|;
      DrainBalances(b, before);
      var drained := Drained(b, before);
      assert Shape(drained, |b.positions|) && |drained.positions| == |b.positions|;
      assert Drained(b, fills) == Filled(drained, last) == Booked(drained, FillBooked(last));
      OneBookingBalances(drained, FillBooked(last));
    }
  }

  /** Nothing booked for one instrument touches another's books. */
  lemma OtherSlotsUntouched(b: Books, k: Booking, i: nat)
    requires Shape(b, |b.positions|) && InRange(k, |b.positions|) && i < |b.positions| && i != SlotOf(k)
    ensures var r := Booked(b, k);
            && r.positions[i] == b.positions[i] && r.marks[i] == b.marks[i] && r.fundingMarks[i] == b.fundingMarks[i]
            && r.fees[i] == b.fees[i] && r.paid[i] == b.paid[i] && r.received[i] == b.received[i]
  {
    assert k.EventBooked? ==> Shape(Funded(b, k.event), |b.positions|);
  }

  /** What one booking adds to a slot's position and fees. */
  function PositionMove(k: Booking, slot: nat): real {
    if k.FillBooked? && k.fill.slot == slot then SignedQty(k.fill.side, k.fill.qty) else 0.0
  }

  function FeeCharged(k: Booking, slot: nat): real {
    if k.FillBooked? && k.fill.slot == slot then k.fill.fee else 0.0
  }

  function Total(bookings: seq<Booking>, slot: nat, amount: (Booking, nat) -> real): real {
    if bookings == [] then 0.0
    else Total(bookings[..|bookings| - 1], slot, amount) + amount(bookings[|bookings| - 1], slot)
  }

  /** The price of the last trade, bar or mark bar of a slot, and of its last mark bar alone. */
  function LastMark(bookings: seq<Booking>, slot: nat, markBarsOnly: bool): real {
    if bookings == [] then 0.0
    else
      var last := bookings[|bookings| - 1];
      var before := LastMark(bookings[..|bookings| - 1], slot, markBarsOnly);
      if last.FillBooked? || last.event.slot != slot then before
      else
        match last.event.payload
        case Trade(price) => if markBarsOnly then before else price
        case Kline(close) => if markBarsOnly then before else close
        case MarkPriceKline(close) => close
        case _ => before
  }

  /** This booking marks the slot at this price: a mark bar always, a trade or a bar unless only mark bars count. */
  predicate Marks(k: Booking, slot: nat, markBarsOnly: bool, price: real) {
    && k.EventBooked? && k.event.slot == slot
    && (|| k.event.payload == MarkPriceKline(price)
        || (!markBarsOnly && (k.event.payload == Trade(price) || k.event.payload == Kline(price))))
  }

  lemma {:induction false} LatestMarkCounts(bookings: seq<Booking>, slot: nat, markBarsOnly: bool, k: nat, price: real)
    requires k < |bookings| && Marks(bookings[k], slot, markBarsOnly, price)
    requires forall j, other :: k < j < |bookings| ==> !Marks(bookings[j], slot, markBarsOnly, other)
    ensures LastMark(bookings, slot, markBarsOnly) == price
  {
    var last := bookings[|bookings| - 1];
    if k < |bookings| - 1 {
      LatestMarkCounts(bookings[..|bookings| - 1], slot, markBarsOnly, k, price);
      if last.EventBooked? && last.event.slot == slot {
        match last.event.payload
        case Trade(other) => assert markBarsOnly || Marks(last, slot, markBarsOnly, other);
        case Kline(other) => assert markBarsOnly || Marks(last, slot, markBarsOnly, other);
        case MarkPriceKline(other) => assert Marks(last, slot, markBarsOnly, other);
        case _ =>
      }
    }
  }

  /** A slot's books are what its own bookings add up to, and its marks the latest it was given. */
  lemma {:induction false} BooksFollowBookings(n: nat, bookings: seq<Booking>, i: nat)
    requires (forall k :: k in bookings ==> InRange(k, n)) && i < n
    ensures var b := AfterAll(n, bookings);
            && b.positions[i] == Total(bookings, i, PositionMove) && b.fees[i] == Total(bookings, i, FeeCharged)
            && b.marks[i] == LastMark(bookings, i, false) && b.fundingMarks[i] == LastMark(bookings, i, true)
  {
    if bookings != [] {
      BooksFollowBookings(n, bookings[..|bookings| - 1], i);
    }
  }

  /** Funding moves one way: position times mark times rate leaves the cash, what is paid and what is received only
      grow, and of the two the one the flow's sign says, by its amount. */
  lemma FundingGoesOneWay(b: Books, e: MarketEvent)
    requires Shape(b, |b.positions|) && e.slot < |b.positions| && e.payload.Funding?
    ensures var flow, r := b.positions[e.slot] * b.fundingMarks[e.slot] * e.payload.rate, Funded(b, e);
            && r.cash == b.cash - flow
            && r.paid[e.slot] >= b.paid[e.slot] && r.received[e.slot] >= b.received[e.slot]
            && (r.paid[e.slot] > b.paid[e.slot] <==> flow > 0.0)
            && (r.received[e.slot] > b.received[e.slot] <==> flow < 0.0)
            && (r.paid[e.slot] - b.paid[e.slot]) - (r.received[e.slot] - b.received[e.slot]) == flow
  {
    assert Flow(b, e.slot, e.payload.rate) == b.positions[e.slot] * b.fundingMarks[e.slot] * e.payload.rate;
    hide Flow;
  }

  /** Position p, marked at m, at this rate: what is positive is paid, what is negative is received. */
  ghost predicate Charged(b: Books, r: Books, i: nat, p: real, m: real, rate: real)
    requires Shape(b, |b.positions|) && i < |b.positions|
  {
    var flow := p * m * rate;
    r == b.(cash := b.cash - flow,
            paid := b.paid[i := b.paid[i] + if flow > 0.0 then flow else 0.0],
            received := b.received[i := b.received[i] + if flow < 0.0 then -flow else 0.0])
  }

  lemma BookedFunding(b: Books, i: nat, ts: int, rate: real)
    requires Shape(b, |b.positions|) && i < |b.positions|
    ensures var r := Booked(b, EventBooked(MarketEvent(i, ts, Funding(rate))));
            Charged(b, r, i, b.positions[i], b.fundingMarks[i], rate)
  {
    assert Flow(b, i, rate) == b.positions[i] * b.fundingMarks[i] * rate;
  }

  /** One funding event after any bookings charges the position they add up to at the last mark bar's price. */
  lemma FundingCharged(n: nat, bookings: seq<Booking>, i: nat, ts: int, rate: real)
    requires (forall k :: k in bookings ==> InRange(k, n)) && i < n
    ensures var funding := EventBooked(MarketEvent(i, ts, Funding(rate)));
            && (forall k :: k in bookings + [funding] ==> InRange(k, n))
            && Charged(AfterAll(n, bookings), AfterAll(n, bookings + [funding]), i, Total(bookings, i, PositionMove),
                       LastMark(bookings, i, true), rate)
  {
    hide Charged;
    OneMore(n, bookings, EventBooked(MarketEvent(i, ts, Funding(rate))));
    BooksFollowBookings(n, bookings, i);
    BookedFunding(AfterAll(n, bookings), i, ts, rate);
  }

  lemma OneMore(n: nat, bookings: seq<Booking>, k: Booking)
    requires (forall k :: k in bookings ==> InRange(k, n)) && InRange(k, n)
    ensures forall j :: j in bookings + [k] ==> InRange(j, n)
    ensures AfterAll(n, bookings + [k]) == Booked(AfterAll(n, bookings), k)
  {
    assert (bookings + [k])[..|bookings|] == bookings;
  }

  /** What is bought is added to the position and paid for, what is sold is taken off and paid out, and the fee is
      paid either way. */
  ghost predicate PaidFor(b: Books, r: Books, f: Fill)
    requires Shape(b, |b.positions|) && f.slot < |b.positions|
  {
    r == b.(positions := b.positions[f.slot := if f.side.Buy? then b.positions[f.slot] + f.qty
                                               else b.positions[f.slot] - f.qty],
            fees := b.fees[f.slot := b.fees[f.slot] + f.fee],
            cash := (if f.side.Buy? then b.cash - f.qty * f.price else b.cash + f.qty * f.price) - f.fee)
  }

  lemma BookedFill(b: Books, f: Fill)
    requires Shape(b, |b.positions|) && f.slot < |b.positions|
    ensures PaidFor(b, Booked(b, FillBooked(f)), f)
  {
    NegatedProduct(f.qty, f.price);
  }

  lemma NegatedProduct(x: real, y: real)
    ensures (-x) * y == -(x * y)
  {
  }

  lemma FillPaidFor(n: nat, bookings: seq<Booking>, f: Fill)
    requires (forall k :: k in bookings ==> InRange(k, n)) && f.slot < n
    ensures forall k :: k in bookings + [FillBooked(f)] ==> InRange(k, n)
    ensures PaidFor(AfterAll(n, bookings), AfterAll(n, bookings + [FillBooked(f)]), f)
  {
    hide PaidFor;
    OneMore(n, bookings, FillBooked(f));
    BookedFill(AfterAll(n, bookings), f);
  }

  // ------------------------------------------------------------------------------------------ equity

  /** Positions at their marks. */
  function Exposure(positions: seq<real>, marks: seq<real>): real
    requires |positions| == |marks|
  {
    if positions == [] then 0.0
    else Exposure(positions[..|positions| - 1], marks[..|marks| - 1]) + positions[|positions| - 1] * marks[|marks| - 1]
  }

  function Equity(b: Books): real
    requires |b.positions| == |b.marks|
  {
    b.cash + Exposure(b.positions, b.marks)
  }

  lemma {:induction false} ExposureUpdate(positions: seq<real>, marks: seq<real>, i: nat, p: real, m: real)
    requires |positions| == |marks| && i < |positions|
    ensures Exposure(positions[i := p], marks[i := m]) == Exposure(positions, marks) - positions[i] * marks[i] + p * m
  {
    var n := |positions| - 1;
    if i == n {
      assert positions[i := p][..n] == positions[..n] && marks[i := m][..n] == marks[..n];
    } else {
      ExposureUpdate(positions[..n], marks[..n], i, p, m);
      assert positions[i := p][..n] == positions[..n][i := p] && marks[i := m][..n] == marks[..n][i := m];
    }
  }

  /** A fill costs its fee and the distance of its price from the mark, and nothing else. */
  lemma FillCosts(b: Books, f: Fill)
    requires Shape(b, |b.positions|) && f.slot < |b.positions|
    ensures Equity(Filled(b, f)) == Equity(b) - f.fee - SignedQty(f.side, f.qty) * (f.price - b.marks[f.slot])
  {
    var delta := SignedQty(f.side, f.qty);
    var was, mark := b.positions[f.slot], b.marks[f.slot];
    ExposureUpdate(b.positions, b.marks, f.slot, was + delta, mark);
    assert b.marks[f.slot := mark] == b.marks;
    assert (was + delta) * mark == was * mark + delta * mark;
    assert delta * (f.price - mark) == delta * f.price - delta * mark;
  }

  /** An event moves equity by the funding it charges and by the position's gain on the new mark. */
  lemma EventMovesEquity(b: Books, e: MarketEvent)
    requires Shape(b, |b.positions|) && e.slot < |b.positions|
    ensures var r := Marked(Funded(b, e), e);
            var flow := if e.payload.Funding? then b.positions[e.slot] * b.fundingMarks[e.slot] * e.payload.rate
                        else 0.0;
            && Shape(r, |b.positions|)
            && Equity(r) == Equity(b) - flow + b.positions[e.slot] * (r.marks[e.slot] - b.marks[e.slot])
  {
    hide Exposure;
    var r := Marked(Funded(b, e), e);
    var p, m := b.positions[e.slot], r.marks[e.slot];
    assert r.marks == b.marks[e.slot := m];
    Remarked(b.positions, b.marks, e.slot, m);
    Gain(p, b.marks[e.slot], m);
  }

  lemma {:induction false} Remarked(positions: seq<real>, marks: seq<real>, i: nat, m: real)
    requires |positions| == |marks| && i < |positions|
    ensures Exposure(positions, marks[i := m])
            == Exposure(positions, marks) - positions[i] * marks[i] + positions[i] * m
  {
    var n := |positions| - 1;
    if i == n {
      assert marks[i := m][..n] == marks[..n];
    } else {
      Remarked(positions[..n], marks[..n], i, m);
      assert marks[i := m][..n] == marks[..n][i := m];
    }
  }

  lemma Gain(position: real, was: real, now: real)
    ensures position * (now - was) == position * now - position * was
  {
  }

  // ----------------------------------------------------------------------------------- the portfolio

  class Portfolio {
    var positions: seq<real>
    var markPrice: seq<real>
    var fundingMarkPrice: seq<real>
    var fees: seq<real>
    var fundingPaid: seq<real>
    var fundingReceived: seq<real>
    var cash: real

    ghost function Value(): Books
      reads this
    {
      Books(positions, markPrice, fundingMarkPrice, fees, fundingPaid, fundingReceived, cash)
    }

    ghost predicate Valid(n: nat)
      reads this
    {
      Shape(Value(), n)
    }

    constructor (slots: nat)
      ensures Valid(slots) && Value() == Empty(slots)
    {
      positions, markPrice, fundingMarkPrice := Zeros(slots), Zeros(slots), Zeros(slots);
      fees, fundingPaid, fundingReceived := Zeros(slots), Zeros(slots), Zeros(slots);
      cash := 0.0;
    }

    method ApplyFill(fill: Fill)
      requires Valid(|positions|) && fill.slot < |positions|
      modifies this
      ensures Valid(old(|positions|)) && Value() == Filled(old(Value()), fill)
    {
      var delta := if fill.side.Buy? then fill.qty else -fill.qty;
      positions := positions[fill.slot := positions[fill.slot] + delta];
      cash := cash - (delta * fill.price + fill.fee);
      fees := fees[fill.slot := fees[fill.slot] + fill.fee];
    }

    method ApplyFunding(event: MarketEvent)
      requires Valid(|positions|) && event.slot < |positions|
      modifies this
      ensures Valid(old(|positions|)) && Value() == Funded(old(Value()), event)
    {
      if event.payload.Funding? {
        var flow := positions[event.slot] * fundingMarkPrice[event.slot] * event.payload.rate;
        assert flow == Flow(Value(), event.slot, event.payload.rate);
        var paid, received := if flow > 0.0 then flow else 0.0, if flow < 0.0 then flow else 0.0;
        cash := cash - flow;
        fundingPaid := fundingPaid[event.slot := fundingPaid[event.slot] + paid];
        fundingReceived := fundingReceived[event.slot := fundingReceived[event.slot] - received];
      }
    }

    method ApplyMarkPrice(event: MarketEvent)
      requires Valid(|positions|) && event.slot < |positions|
      modifies this
      ensures Valid(old(|positions|)) && Value() == Marked(old(Value()), event)
    {
      match event.payload {
        case Trade(price) => markPrice := markPrice[event.slot := price];
        case Kline(close) => markPrice := markPrice[event.slot := close];
        case MarkPriceKline(close) =>
          markPrice := markPrice[event.slot := close];
          fundingMarkPrice := fundingMarkPrice[event.slot := close];
        case _ =>
      }
    }

    method TotalEquity() returns (total: real)
      requires Valid(|positions|)
      ensures total == Equity(Value())
    {
      total := cash;
      for i := 0 to |positions|
        invariant total == cash + Exposure(positions[..i], markPrice[..i])
      {
        total := total + positions[i] * markPrice[i];
        assert positions[..i + 1][..i] == positions[..i] && markPrice[..i + 1][..i] == markPrice[..i];
      }
      assert positions[..|positions|] == positions && markPrice[..|positions|] == markPrice;
    }
  }
}
