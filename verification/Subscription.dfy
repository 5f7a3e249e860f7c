/** Subscription: instruments by exchange, market and symbol, and the slot the portfolio books each in. */
module Subscription {
  import opened Ring

  const UINT8 := 256
  const UINT16 := 65536

  datatype MarketSlice = MarketSlice(market: nat, symbols: seq<string>)

  datatype ExchangeSlice = ExchangeSlice(exchange: nat, markets: seq<MarketSlice>)

  datatype Instrument = Instrument(exchange: nat, market: nat, symbol: nat)

  /** What a subscription is asked for: an exchange is an ExchangeId of eight bits, a market has sixteen. */
  datatype Name = Name(exchange: nat, market: nat, symbol: string)

  predicate IsName(name: Name) {
    name.exchange < UINT8 && name.market < UINT16
  }

  function Wrap(n: nat): nat {
    n % UINT16
  }

  function Max(a: nat, b: nat): nat {
    if a < b then b else a
  }

  // ------------------------------------------------------------------------------- lookups and extents

  /** Where a list first has x. */
  function Find<T(==)>(s: seq<T>, x: T): (r: Option<nat>)
    ensures r.Some? ==> r.value < |s| && s[r.value] == x
  {
    if s == [] then None
    else if s[0] == x then Some(0)
    else var r := Find(s[1..], x); if r.Some? then Some(r.value + 1) else None
  }

  lemma {:induction false} FoundFirst<T>(s: seq<T>, k: nat)
    requires k < |s| && forall j :: 0 <= j < k ==> s[j] != s[k]
    ensures Find(s, s[k]) == Some(k)
  {
    if k > 0 {
      FoundFirst(s[1..], k - 1);
    }
  }

  function Exchanges(s: seq<ExchangeSlice>): seq<nat> {
    seq(|s|, i requires 0 <= i < |s| => s[i].exchange)
  }

  function Markets(s: seq<MarketSlice>): seq<nat> {
    seq(|s|, i requires 0 <= i < |s| => s[i].market)
  }

  function InMarkets(markets: seq<MarketSlice>, market: nat, symbol: string): Option<nat> {
    var m := Find(Markets(markets), market);
    if m.None? then None else Find(markets[m.value].symbols, symbol)
  }

  /** The place of a name's symbol in its market's list. */
  function Position(s: seq<ExchangeSlice>, name: Name): Option<nat> {
    var e := Find(Exchanges(s), name.exchange);
    if e.None? then None else InMarkets(s[e.value].markets, name.market, name.symbol)
  }

  /** Subscription::resolve: the place is stored in sixteen bits. */
  function Resolve(s: seq<ExchangeSlice>, name: Name): Option<Instrument> {
    var p := Position(s, name);
    if p.None? then None else Some(Instrument(name.exchange, name.market, Wrap(p.value)))
  }

  function MaxExchange(s: seq<ExchangeSlice>): nat {
    if s == [] then 0 else Max(MaxExchange(s[..|s| - 1]), Wrap(s[|s| - 1].exchange + 1))
  }

  function MarketsUpTo(s: seq<MarketSlice>): nat {
    if s == [] then 0 else Max(MarketsUpTo(s[..|s| - 1]), Wrap(s[|s| - 1].market + 1))
  }

  function SymbolsUpTo(s: seq<MarketSlice>): nat {
    if s == [] then 0 else Max(SymbolsUpTo(s[..|s| - 1]), Wrap(|s[|s| - 1].symbols|))
  }

  function MaxMarket(s: seq<ExchangeSlice>): nat {
    if s == [] then 0 else Max(MaxMarket(s[..|s| - 1]), MarketsUpTo(s[|s| - 1].markets))
  }

  function MaxSymbol(s: seq<ExchangeSlice>): nat {
    if s == [] then 0 else Max(MaxSymbol(s[..|s| - 1]), SymbolsUpTo(s[|s| - 1].markets))
  }

  function Product(a: nat, b: nat): nat {
    a * b
  }

  function TotalSlots(s: seq<ExchangeSlice>): nat {
    Product(Product(MaxExchange(s), MaxMarket(s)), MaxSymbol(s))
  }

  /** Portfolio::index. */
  function Index(s: seq<ExchangeSlice>, i: Instrument): nat {
    Product(Product(i.exchange, MaxMarket(s)), MaxSymbol(s)) + Product(i.market, MaxSymbol(s)) + i.symbol
  }

  // ---------------------------------------------------------------------------------- the extents hold

  lemma {:induction false} ExchangeBelow(s: seq<ExchangeSlice>, e: nat)
    requires e < |s|
    ensures Wrap(s[e].exchange + 1) <= MaxExchange(s)
  {
    if e < |s| - 1 {
      ExchangeBelow(s[..|s| - 1], e);
    }
  }

  lemma {:induction false} MarketBelow(s: seq<MarketSlice>, m: nat)
    requires m < |s|
    ensures Wrap(s[m].market + 1) <= MarketsUpTo(s) && Wrap(|s[m].symbols|) <= SymbolsUpTo(s)
  {
    if m < |s| - 1 {
      MarketBelow(s[..|s| - 1], m);
    }
  }

  lemma {:induction false} SliceBelow(s: seq<ExchangeSlice>, e: nat)
    requires e < |s|
    ensures MarketsUpTo(s[e].markets) <= MaxMarket(s) && SymbolsUpTo(s[e].markets) <= MaxSymbol(s)
  {
    if e < |s| - 1 {
      SliceBelow(s[..|s| - 1], e);
    }
  }

  lemma {:induction false} ExtentsBelow16(s: seq<ExchangeSlice>)
    ensures MaxExchange(s) < UINT16 && MaxMarket(s) < UINT16 && MaxSymbol(s) < UINT16
  {
    if s != [] {
      ExtentsBelow16(s[..|s| - 1]);
      MarketsBelow16(s[|s| - 1].markets);
    }
  }

  lemma {:induction false} MarketsBelow16(s: seq<MarketSlice>)
    ensures MarketsUpTo(s) < UINT16 && SymbolsUpTo(s) < UINT16
  {
    if s != [] {
      MarketsBelow16(s[..|s| - 1]);
    }
  }

  lemma WrapNext(id: nat)
    requires id < UINT16
    ensures Wrap(id + 1) == if id == UINT16 - 1 then 0 else id + 1
  {
  }

  lemma WrapBelow(p: nat, n: nat)
    requires p < n < UINT16
    ensures Wrap(p) < Wrap(n)
  {
  }

  ghost predicate InExtents(s: seq<ExchangeSlice>, i: Instrument) {
    i.exchange < MaxExchange(s) && i.market < MaxMarket(s) && i.symbol < MaxSymbol(s)
  }

  /** The symbols listed before and after a name's own in its market. */
  ghost function Listed(s: seq<ExchangeSlice>, name: Name): (symbols: seq<string>)
    requires Position(s, name).Some?
    ensures Position(s, name).value < |symbols| && symbols[Position(s, name).value] == name.symbol
  {
    var markets := s[Find(Exchanges(s), name.exchange).value].markets;
    markets[Find(Markets(markets), name.market).value].symbols
  }

  /** A resolved instrument lies within the extents exactly when its market id is not the last 16-bit value,
      whose successor wraps to zero, and its place, wrapped to sixteen bits, is below the greatest wrapped
      list length. In a list of fewer than 65536 symbols every place is; the place 65535, which a longer list
      of distinct symbols has, never is. */
  lemma WithinExtentsExactly(s: seq<ExchangeSlice>, name: Name)
    requires IsName(name) && Resolve(s, name).Some?
    ensures var p := Position(s, name).value;
            && (InExtents(s, Resolve(s, name).value) <==> name.market != UINT16 - 1 && Wrap(p) < MaxSymbol(s))
            && (|Listed(s, name)| < UINT16 ==> Wrap(p) < MaxSymbol(s))
            && (Wrap(p) == UINT16 - 1 ==> !(Wrap(p) < MaxSymbol(s)))
  {
    hide MaxExchange, MaxMarket, MaxSymbol, MarketsUpTo, SymbolsUpTo, Find, Wrap;
    var e := Find(Exchanges(s), name.exchange).value;
    var m := Find(Markets(s[e].markets), name.market).value;
    WrapNext(name.exchange);
    WrapNext(name.market);
    if |Listed(s, name)| < UINT16 {
      WrapBelow(Position(s, name).value, |Listed(s, name)|);
    }
    ExchangeBelow(s, e);
    MarketBelow(s[e].markets, m);
    SliceBelow(s, e);
    ExtentsBelow16(s);
  }

  /** A subscription to one market with the last id has room for nothing. */
  lemma LastMarketHasNoRoom(symbol: string)
    ensures var s := [ExchangeSlice(0, [MarketSlice(UINT16 - 1, [symbol])])];
            Resolve(s, Name(0, UINT16 - 1, symbol)) == Some(Instrument(0, UINT16 - 1, 0)) && TotalSlots(s) == 0
  {
    OneMarket(UINT16 - 1, [symbol]);
  }

  lemma OneMarket(market: nat, symbols: seq<string>)
    ensures var s := [ExchangeSlice(0, [MarketSlice(market, symbols)])];
            && MaxExchange(s) == 1 && MaxMarket(s) == Wrap(market + 1) && MaxSymbol(s) == Wrap(|symbols|)
            && forall y :: Position(s, Name(0, market, y)) == Find(symbols, y)
  {
    var markets := [MarketSlice(market, symbols)];
    assert markets[..0] == [];
    assert MarketsUpTo(markets) == Wrap(market + 1) && SymbolsUpTo(markets) == Wrap(|symbols|);
    var s := [ExchangeSlice(0, markets)];
    assert s[..0] == [];
  }

  /** Symbols of as many letters as the place they are listed at. */
  function Tally(k: nat): (t: string)
    ensures |t| == k
  {
    seq(k, _ => 'x')
  }

  function Tallies(n: nat): (s: seq<string>)
    ensures |s| == n && forall k :: 0 <= k < n ==> s[k] == Tally(k)
  {
    seq(n, k requires 0 <= k < n => Tally(k))
  }

  lemma TallyFound(n: nat, k: nat)
    requires k < n
    ensures Find(Tallies(n), Tally(k)) == Some(k)
  {
    hide Find;
    assert forall j :: 0 <= j < k ==> |Tallies(n)[j]| < |Tallies(n)[k]|;
    FoundFirst(Tallies(n), k);
  }

  /** 65536 symbols in one market: each resolves, and there is no slot for any. */
  lemma FullListHasNoRoom(k: nat)
    requires k < UINT16
    ensures var s := [ExchangeSlice(0, [MarketSlice(0, Tallies(UINT16))])];
            Resolve(s, Name(0, 0, Tally(k))) == Some(Instrument(0, 0, k)) && TotalSlots(s) == 0
  {
    hide Find, Tally, Tallies;
    OneMarket(0, Tallies(UINT16));
    TallyFound(UINT16, k);
  }

  /** One more, and the first and the last of them resolve to the same instrument, within the extents. */
  lemma LongListSharesASlot()
    ensures var s := [ExchangeSlice(0, [MarketSlice(0, Tallies(UINT16 + 1))])];
            && Tally(0) != Tally(UINT16)
            && Resolve(s, Name(0, 0, Tally(0))) == Some(Instrument(0, 0, 0))
            && Resolve(s, Name(0, 0, Tally(UINT16))) == Some(Instrument(0, 0, 0))
            && InExtents(s, Instrument(0, 0, 0))
  {
    hide Find, Tally, Tallies;
    OneMarket(0, Tallies(UINT16 + 1));
    TallyFound(UINT16 + 1, 0);
    TallyFound(UINT16 + 1, UINT16);
  }

  lemma MixedRadix(a: nat, b: nat, c: nat, d: nat, n: nat)
    requires b < n && d < n && a * n + b == c * n + d
    ensures a == c && b == d
  {
    if a < c {
      LowerDigit(a, b, c, d, n);
    } else if c < a {
      LowerDigit(c, d, a, b, n);
    }
  }

  lemma LowerDigit(a: nat, b: nat, c: nat, d: nat, n: nat)
    requires a < c && b < n
    ensures a * n + b < c * n + d
  {
    assert (a + 1) * n <= c * n;
  }

  /** The row of MaxSymbol slots that an instrument's slot is in: its market's own while its symbol is within
      the extents, and a later one else. */
  function Row(s: seq<ExchangeSlice>, i: Instrument): nat
    requires MaxSymbol(s) > 0
  {
    Product(i.exchange, MaxMarket(s)) + i.market + i.symbol / MaxSymbol(s)
  }

  lemma Divided(row: nat, y: nat, ys: nat)
    requires ys > 0
    ensures row * ys + y == (row + y / ys) * ys + y % ys && y % ys < ys
  {
  }

  lemma IndexByRow(s: seq<ExchangeSlice>, i: Instrument)
    requires MaxSymbol(s) > 0
    ensures Index(s, i) == Row(s, i) * MaxSymbol(s) + i.symbol % MaxSymbol(s)
  {
    hide MaxExchange, MaxMarket, MaxSymbol;
    var ms, ys := MaxMarket(s), MaxSymbol(s);
    assert i.exchange * ms * ys + i.market * ys == (i.exchange * ms + i.market) * ys;
    Divided(i.exchange * ms + i.market, i.symbol, ys);
  }

  lemma BelowProduct(row: nat, column: nat, rows: nat, columns: nat)
    requires column < columns
    ensures row * columns + column < rows * columns <==> row < rows
  {
    if row < rows {
      assert (row + 1) * columns <= rows * columns;
    } else {
      assert rows * columns <= row * columns;
    }
  }

  /** An instrument has a slot of the portfolio exactly when its row is one of the portfolio's; without a
      column none has. */
  lemma InRangeExactly(s: seq<ExchangeSlice>, i: Instrument)
    ensures Index(s, i) < TotalSlots(s)
            <==> MaxSymbol(s) > 0 && Row(s, i) < Product(MaxExchange(s), MaxMarket(s))
  {
    hide MaxExchange, MaxMarket, MaxSymbol;
    if MaxSymbol(s) > 0 {
      IndexByRow(s, i);
      BelowProduct(Row(s, i), i.symbol % MaxSymbol(s), Product(MaxExchange(s), MaxMarket(s)), MaxSymbol(s));
    }
  }

  /** Two instruments have one index exactly when their rows and their columns agree. */
  lemma SameSlotExactly(s: seq<ExchangeSlice>, i: Instrument, j: Instrument)
    requires MaxSymbol(s) > 0
    ensures Index(s, i) == Index(s, j)
            <==> Row(s, i) == Row(s, j) && i.symbol % MaxSymbol(s) == j.symbol % MaxSymbol(s)
  {
    hide MaxExchange, MaxMarket, MaxSymbol;
    IndexByRow(s, i);
    IndexByRow(s, j);
    if Index(s, i) == Index(s, j) {
      MixedRadix(Row(s, i), i.symbol % MaxSymbol(s), Row(s, j), j.symbol % MaxSymbol(s), MaxSymbol(s));
    }
  }

  /** Within the extents the index is in range ... */
  lemma IndexInRange(e: nat, m: nat, y: nat, es: nat, ms: nat, ys: nat)
    requires e < es && m < ms && y < ys
    ensures e * ms * ys + m * ys + y < es * ms * ys
  {
    BelowProduct(e, m, es, ms);
    BelowProduct(e * ms + m, y, es * ms, ys);
    assert (e * ms + m) * ys == e * ms * ys + m * ys;
  }

  /** ... and no two instruments share one. */
  lemma IndexIsInjective(e: nat, m: nat, y: nat, f: nat, k: nat, z: nat, ms: nat, ys: nat)
    requires m < ms && k < ms && y < ys && z < ys
    requires e * ms * ys + m * ys + y == f * ms * ys + k * ys + z
    ensures e == f && m == k && y == z
  {
    assert (e * ms + m) * ys + y == (f * ms + k) * ys + z by {
      assert (e * ms + m) * ys == e * ms * ys + m * ys;
      assert (f * ms + k) * ys == f * ms * ys + k * ys;
    }
    MixedRadix(e * ms + m, y, f * ms + k, z, ys);
    MixedRadix(e, m, f, k, ms);
  }

  /** The slots of two distinct subscribed names are the portfolio's and two exactly when there are columns, both
      rows are the portfolio's, and row or column differs. Within the extents both are the portfolio's, and
      they are one exactly when the names are of one market and their places agree modulo 65536, hence lie
      65536 or more apart. */
  lemma DistinctSlots(s: seq<ExchangeSlice>, a: Name, b: Name)
    requires a != b && Resolve(s, a).Some? && Resolve(s, b).Some?
    ensures var i, j, slots := Resolve(s, a).value, Resolve(s, b).value, Product(MaxExchange(s), MaxMarket(s));
            Index(s, i) < TotalSlots(s) && Index(s, j) < TotalSlots(s) && Index(s, i) != Index(s, j)
            <==> && MaxSymbol(s) > 0 && Row(s, i) < slots && Row(s, j) < slots
                 && (Row(s, i) != Row(s, j) || i.symbol % MaxSymbol(s) != j.symbol % MaxSymbol(s))
    ensures var i, j, p, q := Resolve(s, a).value, Resolve(s, b).value, Position(s, a).value, Position(s, b).value;
            InExtents(s, i) && InExtents(s, j) ==>
              && Index(s, i) < TotalSlots(s) && Index(s, j) < TotalSlots(s)
              && (Index(s, i) == Index(s, j)
                  <==> a.exchange == b.exchange && a.market == b.market && Wrap(p) == Wrap(q))
              && (Index(s, i) == Index(s, j) ==> p + UINT16 <= q || q + UINT16 <= p)
  {
    hide MaxExchange, MaxMarket, MaxSymbol, Find, Wrap, Index, TotalSlots;
    var i, j := Resolve(s, a).value, Resolve(s, b).value;
    InRangeExactly(s, i);
    InRangeExactly(s, j);
    if MaxSymbol(s) > 0 {
      SameSlotExactly(s, i, j);
    }
    if InExtents(s, i) && InExtents(s, j) {
      WithinExtentsInRange(s, i);
      WithinExtentsInRange(s, j);
      WithinExtentsApart(s, i, j);
      if Index(s, i) == Index(s, j) { WrapApart(Position(s, a).value, Position(s, b).value); }
    }
  }

  lemma WithinExtentsInRange(s: seq<ExchangeSlice>, i: Instrument)
    requires InExtents(s, i)
    ensures Index(s, i) < TotalSlots(s)
  {
    hide MaxExchange, MaxMarket, MaxSymbol;
    IndexInRange(i.exchange, i.market, i.symbol, MaxExchange(s), MaxMarket(s), MaxSymbol(s));
  }

  lemma WithinExtentsApart(s: seq<ExchangeSlice>, i: Instrument, j: Instrument)
    requires InExtents(s, i) && InExtents(s, j)
    ensures Index(s, i) == Index(s, j) <==> i == j
  {
    hide MaxExchange, MaxMarket, MaxSymbol;
    if Index(s, i) == Index(s, j) {
      IndexIsInjective(i.exchange, i.market, i.symbol, j.exchange, j.market, j.symbol, MaxMarket(s), MaxSymbol(s));
    }
  }

  lemma WrapApart(p: nat, q: nat)
    requires p != q && Wrap(p) == Wrap(q)
    ensures p + UINT16 <= q || q + UINT16 <= p
  {
  }

  /** Two distinct names resolve to one instrument exactly when they are of one market and their places agree
      modulo 65536. */
  lemma ResolvedApart(s: seq<ExchangeSlice>, a: Name, b: Name)
    requires a != b && Resolve(s, a).Some? && Resolve(s, b).Some?
    ensures var p, q := Position(s, a).value, Position(s, b).value;
            && (Resolve(s, a) == Resolve(s, b)
                <==> a.exchange == b.exchange && a.market == b.market && Wrap(p) == Wrap(q))
            && (Resolve(s, a) == Resolve(s, b) ==> p + UINT16 <= q || q + UINT16 <= p)
  {
    hide Find, Wrap;
    if Resolve(s, a) == Resolve(s, b) {
      WrapApart(Position(s, a).value, Position(s, b).value);
    }
  }

  /** A market of 65536 symbols beside one of two. */
  function LongBesideShort(market: nat): seq<ExchangeSlice> {
    [ExchangeSlice(0, [MarketSlice(0, Tallies(UINT16)), MarketSlice(market, ["a", "b"])])]
  }

  lemma LongBesideShortResolves(market: nat, k: nat)
    requires 0 < market < UINT16 - 1 && k < UINT16
    ensures var s := LongBesideShort(market);
            && MaxExchange(s) == 1 && MaxMarket(s) == market + 1 && MaxSymbol(s) == 2
            && Resolve(s, Name(0, 0, Tally(k))) == Some(Instrument(0, 0, k))
            && Resolve(s, Name(0, market, "a")) == Some(Instrument(0, market, 0))
  {
    hide Tally, Tallies;
    var long, short := MarketSlice(0, Tallies(UINT16)), MarketSlice(market, ["a", "b"]);
    var markets := [long, short];
    var s := LongBesideShort(market);
    assert [long][..0] == [] && markets[..1] == [long] && s[..0] == [];
    assert MarketsUpTo([long]) == 1 && SymbolsUpTo([long]) == 0;
    assert MarketsUpTo(markets) == market + 1 && SymbolsUpTo(markets) == 2;
    TallyFound(UINT16, k);
    FoundFirst(Markets(markets), 0);
    FoundFirst(Markets(markets), 1);
    FoundFirst(["a", "b"], 0);
  }

  /** The third symbol of the long market has the slot of the short market's first. */
  lemma SlotOfAnotherMarket()
    ensures var s := LongBesideShort(1);
            && Resolve(s, Name(0, 0, Tally(2))) == Some(Instrument(0, 0, 2))
            && Resolve(s, Name(0, 1, "a")) == Some(Instrument(0, 1, 0))
            && Index(s, Instrument(0, 0, 2)) == Index(s, Instrument(0, 1, 0)) == 2 < TotalSlots(s) == 4
            && !InExtents(s, Instrument(0, 0, 2)) && InExtents(s, Instrument(0, 1, 0))
  {
    hide Find, Tally, MaxExchange, MaxMarket, MaxSymbol;
    LongBesideShortResolves(1, 2);
  }

  /** And outside the extents a symbol may have a slot all the same. */
  lemma SlotOutsideTheExtents()
    ensures var s := LongBesideShort(9);
            && Resolve(s, Name(0, 0, Tally(5))) == Some(Instrument(0, 0, 5)) && !InExtents(s, Instrument(0, 0, 5))
            && Index(s, Instrument(0, 0, 5)) == 5 < TotalSlots(s) == 20
  {
    hide Find, Tally, MaxExchange, MaxMarket, MaxSymbol;
    LongBesideShortResolves(9, 5);
  }

  // ---------------------------------------------------------------------------------------- the builder

  lemma {:induction false} FindAppended<T>(s: seq<T>, y: T, x: T)
    ensures Find(s + [y], x) == if Find(s, x).Some? then Find(s, x) else if y == x then Some(|s|) else None
  {
    if s == [] {
      assert s + [y] == [y];
    } else {
      FindAppended(s[1..], y, x);
      assert (s + [y])[1..] == s[1..] + [y];
    }
  }

  lemma {:induction false} NotFound<T>(s: seq<T>, x: T)
    requires x !in s
    ensures Find(s, x) == None
  {
    if s != [] {
      NotFound(s[1..], x);
    }
  }

  /** What a market or exchange held before, it still holds where it was. */
  ghost predicate SymbolsStay(was: seq<MarketSlice>, markets: seq<MarketSlice>) {
    forall m, y :: InMarkets(was, m, y).Some? ==> InMarkets(markets, m, y) == InMarkets(was, m, y)
  }

  /** Adding a symbol to a market, which is made if need be. */
  method AddToMarkets(markets: seq<MarketSlice>, market: nat, symbol: string) returns (r: seq<MarketSlice>)
    ensures InMarkets(r, market, symbol).Some? && SymbolsStay(markets, r)
  {
    hide Find;
    for k := 0 to |markets|
      invariant forall j :: 0 <= j < k ==> markets[j].market != market
    {
      if markets[k].market == market {
        r := markets[k := MarketSlice(market, markets[k].symbols + [symbol])];
        assert Markets(r) == Markets(markets);
        FoundFirst(Markets(markets), k);
        FindAppended(markets[k].symbols, symbol, symbol);
        forall m, y ensures InMarkets(markets, m, y).Some? ==> InMarkets(r, m, y) == InMarkets(markets, m, y) {
          FindAppended(markets[k].symbols, symbol, y);
        }
        return;
      }
    }
    r := markets + [MarketSlice(market, [symbol])];
    assert Markets(r) == Markets(markets) + [market];
    NotFound(Markets(markets), market);
    FoundFirst([symbol], 0);
    FindAppended(Markets(markets), market, market);
    forall m, y ensures InMarkets(markets, m, y).Some? ==> InMarkets(r, m, y) == InMarkets(markets, m, y) {
      FindAppended(Markets(markets), market, m);
    }
  }

  class SubscriptionBuilder {
    var exchanges: seq<ExchangeSlice>

    constructor ()
      ensures exchanges == []
    {
      exchanges := [];
    }

    /** What is added resolves from then on, and nothing added before resolves to another place. */
    method Add(name: Name)
      modifies this
      ensures Resolve(exchanges, name).Some?
      ensures forall other :: Resolve(old(exchanges), other).Some? ==>
                Resolve(exchanges, other) == Resolve(old(exchanges), other)
    {
      hide Find, InMarkets;
      ghost var was := exchanges;
      for k := 0 to |exchanges|
        invariant exchanges == was
        invariant forall j :: 0 <= j < k ==> exchanges[j].exchange != name.exchange
      {
        if exchanges[k].exchange == name.exchange {
          var markets := AddToMarkets(exchanges[k].markets, name.market, name.symbol);
          exchanges := exchanges[k := ExchangeSlice(name.exchange, markets)];
          assert Exchanges(exchanges) == Exchanges(was);
          FoundFirst(Exchanges(was), k);
          return;
        }
      }
      var markets := AddToMarkets([], name.market, name.symbol);
      exchanges := exchanges + [ExchangeSlice(name.exchange, markets)];
      assert Exchanges(exchanges) == Exchanges(was) + [name.exchange];
      NotFound(Exchanges(was), name.exchange);
      FindAppended(Exchanges(was), name.exchange, name.exchange);
      forall other ensures Resolve(was, other).Some? ==> Resolve(exchanges, other) == Resolve(was, other) {
        FindAppended(Exchanges(was), name.exchange, other.exchange);
      }
    }
  }
}
