/** EventBook.walk: which candidate trades are taken when the book holds at most so many at once, in
    all and in one coin. */
module Walk {
  import Heap
  import opened Ring

  /** A candidate, from its entry to its exit. */
  datatype Candidate = Candidate(trade: nat, coin: string, strength: real, entry: int, exit: int)

  function Abs(x: real): real {
    if x < 0.0 then -x else x
  }

  /** By entry, stronger first at the same entry, then by trade. */
  predicate Before(a: Candidate, b: Candidate) {
    || a.entry < b.entry
    || (a.entry == b.entry && (Abs(a.strength) > Abs(b.strength)
                               || (Abs(a.strength) == Abs(b.strength) && a.trade <= b.trade)))
  }

  ghost predicate InWalkOrder(order: seq<Candidate>) {
    forall i, j :: 0 <= i < j < |order| ==> Before(order[i], order[j])
  }

  predicate Open(c: Candidate, t: int) {
    c.entry <= t < c.exit
  }

  predicate Indices(taken: seq<nat>, n: nat) {
    forall k :: 0 <= k < |taken| ==> taken[k] < n
  }

  /** A candidate of the coin asked about, or any. */
  predicate Of(c: Candidate, coin: Option<string>) {
    coin.None? || c.coin == coin.value
  }

  /** Trades among those taken, of one coin or of all, that are open at an instant. */
  function OpenAt(order: seq<Candidate>, taken: seq<nat>, coin: Option<string>, t: int): nat
    requires Indices(taken, |order|)
  {
    if taken == [] then 0
    else
      var last := order[taken[|taken| - 1]];
      OpenAt(order, taken[..|taken| - 1], coin, t) + if Of(last, coin) && Open(last, t) then 1 else 0
  }

  /** Open from the entry on and before the exit, and of this coin or any. */
  predicate Counts(c: Candidate, coin: Option<string>, t: int) {
    c.entry <= t < c.exit && (coin == None || coin == Some(c.coin))
  }

  function OpenOnes(order: seq<Candidate>, taken: seq<nat>, coin: Option<string>, t: int): set<nat>
    requires Indices(taken, |order|)
  {
    set j: nat | j < |taken| && Counts(order[taken[j]], coin, t)
  }

  lemma {:induction false} OpenIsCount(order: seq<Candidate>, taken: seq<nat>, coin: Option<string>, t: int)
    requires Indices(taken, |order|)
    ensures OpenAt(order, taken, coin, t) == |OpenOnes(order, taken, coin, t)|
  {
    if taken != [] {
      var last := |taken| - 1;
      OpenIsCount(order, taken[..last], coin, t);
      hide Counts;
      OneMoreOfThem(order, taken, coin, t);
      CountsWhenOpen(order[taken[last]], coin, t);
    }
  }

  lemma CountsWhenOpen(c: Candidate, coin: Option<string>, t: int)
    ensures Counts(c, coin, t) <==> Of(c, coin) && Open(c, t)
  {
  }

  lemma OneMoreOfThem(order: seq<Candidate>, taken: seq<nat>, coin: Option<string>, t: int)
    requires taken != [] && Indices(taken, |order|)
    ensures |OpenOnes(order, taken, coin, t)|
            == |OpenOnes(order, taken[..|taken| - 1], coin, t)|
               + if Counts(order[taken[|taken| - 1]], coin, t) then 1 else 0
  {
    hide Counts;
    var last := |taken| - 1;
    var before, ones := OpenOnes(order, taken[..last], coin, t), OpenOnes(order, taken, coin, t);
    assert ones == before + if Counts(order[taken[last]], coin, t) then {last} else {};
  }

  /** There is room for a candidate beside those taken before it. */
  predicate Fits(order: seq<Candidate>, taken: seq<nat>, k: nat, slots: int, perCoin: int)
    requires Indices(taken, |order|) && k < |order|
  {
    && OpenAt(order, taken, Some(order[k].coin), order[k].entry) < perCoin
    && OpenAt(order, taken, None, order[k].entry) < slots
  }

  /** The rule itself, with no heap: of the first k candidates, each that fits when its turn comes. */
  function Taken(order: seq<Candidate>, k: nat, slots: int, perCoin: int): (taken: seq<nat>)
    requires k <= |order|
    ensures Indices(taken, k)
  {
    if k == 0 then []
    else
      var before := Taken(order, k - 1, slots, perCoin);
      if Fits(order, before, k - 1, slots, perCoin) then before + [k - 1] else before
  }

  // ---------------------------------------------------------------------------- the overlap rules hold

  lemma {:induction false} OpenEarlier(order: seq<Candidate>, taken: seq<nat>, coin: Option<string>, t: int, u: int)
    requires Indices(taken, |order|) && t <= u
    requires forall k :: 0 <= k < |taken| ==> order[taken[k]].entry <= t
    ensures OpenAt(order, taken, coin, u) <= OpenAt(order, taken, coin, t)
  {
    if taken != [] {
      OpenEarlier(order, taken[..|taken| - 1], coin, t, u);
    }
  }

  lemma TakenBefore(order: seq<Candidate>, k: nat, slots: int, perCoin: int)
    requires k < |order| && InWalkOrder(order)
    ensures var taken := Taken(order, k, slots, perCoin);
            forall j :: 0 <= j < |taken| ==> order[taken[j]].entry <= order[k].entry
  {
  }

  /** At no instant are more than slots trades open, nor more than perCoin in one coin. */
  lemma {:induction false} NeverTooMany(order: seq<Candidate>, k: nat, slots: int, perCoin: int,
                                        coin: Option<string>, t: int)
    requires k <= |order| && InWalkOrder(order) && slots >= 0 && perCoin >= 0
    ensures OpenAt(order, Taken(order, k, slots, perCoin), coin, t) <= if coin.None? then slots else perCoin
  {
    hide Before, OpenAt;
    if k == 0 {
      NoneOpen(order, coin, t);
    } else {
      NeverTooMany(order, k - 1, slots, perCoin, coin, t);
      var before := Taken(order, k - 1, slots, perCoin);
      var last := order[k - 1];
      OneMoreOpen(order, before, k - 1, coin, t);
      if Open(last, t) {
        TakenBefore(order, k - 1, slots, perCoin);
        OpenEarlier(order, before, coin, last.entry, t);
      }
    }
  }

  lemma NoneOpen(order: seq<Candidate>, coin: Option<string>, t: int)
    ensures OpenAt(order, [], coin, t) == 0
  {
  }

  lemma OneMoreOpen(order: seq<Candidate>, taken: seq<nat>, k: nat, coin: Option<string>, t: int)
    requires Indices(taken, |order|) && k < |order|
    ensures OpenAt(order, taken + [k], coin, t)
            == OpenAt(order, taken, coin, t) + if Of(order[k], coin) && Open(order[k], t) then 1 else 0
  {
    assert (taken + [k])[..|taken|] == taken;
  }

  lemma {:induction false} TakenOnItsTurn(order: seq<Candidate>, n: nat, k: nat, slots: int, perCoin: int)
    requires k < n <= |order|
    ensures k in Taken(order, n, slots, perCoin) <==> Fits(order, Taken(order, k, slots, perCoin), k, slots, perCoin)
    ensures Taken(order, k, slots, perCoin) <= Taken(order, n, slots, perCoin)
  {
    hide Fits;
    if n > k + 1 {
      TakenOnItsTurn(order, n - 1, k, slots, perCoin);
    } else {
      assert forall j :: 0 <= j < |Taken(order, k, slots, perCoin)| ==> Taken(order, k, slots, perCoin)[j] < k;
    }
  }

  /** And none is refused without cause: a candidate is taken exactly when, among the trades taken
      before it, fewer than slots are open at its entry and fewer than perCoin of its coin. */
  lemma TakenExactlyWhenItFits(order: seq<Candidate>, n: nat, k: nat, slots: int, perCoin: int)
    requires k < n <= |order|
    ensures var before, c := Taken(order, k, slots, perCoin), order[k];
            k in Taken(order, n, slots, perCoin) <==>
              OpenAt(order, before, None, c.entry) < slots && OpenAt(order, before, Some(c.coin), c.entry) < perCoin
    ensures Taken(order, k, slots, perCoin) <= Taken(order, n, slots, perCoin)
  {
    hide Taken, OpenAt;
    TakenOnItsTurn(order, n, k, slots, perCoin);
  }

  lemma {:induction false} CountsGrow(order: seq<Candidate>, taken: seq<nat>, more: seq<nat>, coin: Option<string>,
                                      t: int)
    requires Indices(more, |order|) && taken <= more
    ensures Indices(taken, |order|) && OpenAt(order, taken, coin, t) <= OpenAt(order, more, coin, t)
  {
    if |taken| < |more| {
      CountsGrow(order, taken, more[..|more| - 1], coin, t);
    } else {
      assert taken == more;
    }
  }

  lemma Ordered(order: seq<Candidate>, i: nat, j: nat)
    requires InWalkOrder(order) && i < j < |order|
    ensures Before(order[i], order[j])
  {
  }

  lemma EarlierInOrder(order: seq<Candidate>, i: nat, j: nat)
    requires InWalkOrder(order) && i < |order| && j < |order|
    requires order[i].entry == order[j].entry && Abs(order[i].strength) > Abs(order[j].strength)
    ensures i < j
  {
    if j < i {
      Ordered(order, j, i);
    }
  }

  /** Of two candidates of one coin at the same entry the weaker is never taken in place of the stronger. */
  lemma StrongerFirst(order: seq<Candidate>, i: nat, j: nat, slots: int, perCoin: int)
    requires InWalkOrder(order) && i < |order| && j < |order|
    requires order[i].coin == order[j].coin && order[i].entry == order[j].entry
    requires Abs(order[i].strength) > Abs(order[j].strength)
    ensures j in Taken(order, |order|, slots, perCoin) ==> i in Taken(order, |order|, slots, perCoin)
  {
    EarlierInOrder(order, i, j);
    TakenExactlyWhenItFits(order, |order|, i, slots, perCoin);
    TakenExactlyWhenItFits(order, |order|, j, slots, perCoin);
    TakenExactlyWhenItFits(order, j, i, slots, perCoin);
    var early, late := Taken(order, i, slots, perCoin), Taken(order, j, slots, perCoin);
    CountsGrow(order, early, late, None, order[i].entry);
    CountsGrow(order, early, late, Some(order[i].coin), order[i].entry);
  }

  // ------------------------------------------------------------------------------- the walk with its heap

  predicate Le(a: int, b: int) {
    a <= b
  }

  lemma LeIsTotalOrder()
    ensures Heap.TotalOrder(Le)
  {
  }

  /** The exits of the trades taken, of one coin or of all. */
  function Exits(order: seq<Candidate>, taken: seq<nat>, coin: Option<string>): multiset<int>
    requires Indices(taken, |order|)
  {
    if taken == [] then multiset{}
    else
      var last := order[taken[|taken| - 1]];
      Exits(order, taken[..|taken| - 1], coin) + if Of(last, coin) then multiset{last.exit} else multiset{}
  }

  /** Of a bag, what lies after t. */
  ghost predicate After(all: multiset<int>, t: int, part: multiset<int>) {
    forall x :: part[x] == if x > t then all[x] else 0
  }

  /** A bag that may still hold entries up to t, but after t is all there. */
  ghost predicate Covers(all: multiset<int>, t: int, part: multiset<int>) {
    forall x :: x > t ==> part[x] == all[x]
  }

  lemma AfterNothing(t: int, part: multiset<int>)
    requires After(multiset{}, t, part)
    ensures |part| == 0
  {
    assert forall x :: x !in part;
  }

  lemma AfterOneLess(all: multiset<int>, exit: int, t: int, part: multiset<int>) returns (before: multiset<int>)
    requires After(all + multiset{exit}, t, part)
    ensures After(all, t, before) && |part| == |before| + if exit > t then 1 else 0
  {
    before := if exit > t then part - multiset{exit} else part;
    if exit > t {
      assert part[exit] >= 1;
      assert part == before + multiset{exit};
    }
  }

  /** The exits still ahead are as many as the trades open. */
  lemma {:induction false} OpenIsExitsAfter(order: seq<Candidate>, taken: seq<nat>, coin: Option<string>, t: int,
                                            part: multiset<int>)
    requires Indices(taken, |order|) && After(Exits(order, taken, coin), t, part)
    requires forall k :: 0 <= k < |taken| ==> order[taken[k]].entry <= t
    ensures |part| == OpenAt(order, taken, coin, t)
  {
    if taken == [] {
      AfterNothing(t, part);
    } else {
      var front, last := taken[..|taken| - 1], order[taken[|taken| - 1]];
      if Of(last, coin) {
        var before := AfterOneLess(Exits(order, front, coin), last.exit, t, part);
        OpenIsExitsAfter(order, front, coin, t, before);
      } else {
        assert Exits(order, taken, coin) == Exits(order, front, coin);
        OpenIsExitsAfter(order, front, coin, t, part);
      }
    }
  }

  /** The pops: everything that has ended by t leaves the heap. */
  method PopEnded(heap: seq<int>, t: int, ghost all: multiset<int>) returns (h: seq<int>)
    requires Heap.IsHeap(Le, heap) && Covers(all, t, multiset(heap))
    ensures Heap.IsHeap(Le, h) && After(all, t, multiset(h))
  {
    h := heap;
    while h != [] && h[0] <= t
      invariant Heap.IsHeap(Le, h) && Covers(all, t, multiset(h))
      decreases |h|
    {
      ghost var was := multiset(h);
      var top, rest := Heap.Pop(Le, h) by { LeIsTotalOrder(); }
      assert |was| == |multiset(rest)| + 1;
      RootEnded(h, top, t);
      h := rest;
    }
    if h != [] {
      forall x | x in h ensures x > t {
        LeIsTotalOrder();
        var i :| 0 <= i < |h| && h[i] == x;
        Heap.RootIsLeast(Le, h, i);
      }
    }
    assert forall x :: x in multiset(h) ==> x in h;
  }

  lemma RootEnded(h: seq<int>, top: int, t: int)
    requires h != [] && h[0] <= t && top in h && forall x :: x in h ==> Le(top, x)
    ensures top <= t
  {
    assert h[0] in h;
  }

  /** The exits of one coin still after t. */
  function Held(exits: seq<int>, t: int): seq<int> {
    if exits == [] then []
    else Held(exits[..|exits| - 1], t) + if exits[|exits| - 1] > t then [exits[|exits| - 1]] else []
  }

  lemma {:induction false} HeldIsAfter(exits: seq<int>, t: int)
    ensures After(multiset(exits), t, multiset(Held(exits, t)))
  {
    if exits != [] {
      HeldIsAfter(exits[..|exits| - 1], t);
      assert exits == exits[..|exits| - 1] + [exits[|exits| - 1]];
    }
  }

  function ExitsOf(byCoin: map<string, seq<int>>, coin: string): seq<int> {
    if coin in byCoin then byCoin[coin] else []
  }

  ghost predicate CoinsCovered(order: seq<Candidate>, taken: seq<nat>, byCoin: map<string, seq<int>>, t: int)
    requires Indices(taken, |order|)
  {
    forall coin :: Covers(Exits(order, taken, Some(coin)), t, multiset(ExitsOf(byCoin, coin)))
  }

  lemma CoverLater(all: multiset<int>, t: int, u: int, part: multiset<int>)
    requires t <= u && Covers(all, t, part)
    ensures Covers(all, u, part)
  {
  }

  /** Sorting the exits of one coin out keeps what is covered. */
  lemma HeldCovers(order: seq<Candidate>, taken: seq<nat>, byCoin: map<string, seq<int>>, coin: string, t: int, u: int)
    requires Indices(taken, |order|) && t <= u && CoinsCovered(order, taken, byCoin, t)
    ensures var held := Held(ExitsOf(byCoin, coin), u);
            && After(Exits(order, taken, Some(coin)), u, multiset(held))
            && CoinsCovered(order, taken, byCoin[coin := held], u)
  {
    var held := Held(ExitsOf(byCoin, coin), u);
    HeldIsAfter(ExitsOf(byCoin, coin), u);
    assert Covers(Exits(order, taken, Some(coin)), t, multiset(ExitsOf(byCoin, coin)));
    forall other ensures Covers(Exits(order, taken, Some(other)), u, multiset(ExitsOf(byCoin[coin := held], other))) {
      assert Covers(Exits(order, taken, Some(other)), t, multiset(ExitsOf(byCoin, other)));
    }
  }

  /** One more trade taken: its exit joins the heap ... */
  lemma OneMoreCovers(order: seq<Candidate>, taken: seq<nat>, k: nat, coin: Option<string>, t: int, part: multiset<int>)
    requires Indices(taken, |order|) && k < |order| && Covers(Exits(order, taken, coin), t, part)
    ensures Indices(taken + [k], |order|)
    ensures Covers(Exits(order, taken + [k], coin), t,
                   if Of(order[k], coin) then part + multiset{order[k].exit} else part)
  {
    assert (taken + [k])[..|taken|] == taken;
  }

  /** ... and its coin's list. */
  lemma CoinCovers(order: seq<Candidate>, taken: seq<nat>, k: nat, t: int, byCoin: map<string, seq<int>>,
                   held: seq<int>)
    requires Indices(taken, |order|) && k < |order|
    requires CoinsCovered(order, taken, byCoin, t) && ExitsOf(byCoin, order[k].coin) == held
    ensures Indices(taken + [k], |order|)
    ensures CoinsCovered(order, taken + [k], byCoin[order[k].coin := held + [order[k].exit]], t)
  {
    hide Exits, Covers;
    forall coin
      ensures Covers(Exits(order, taken + [k], Some(coin)), t,
                     multiset(ExitsOf(byCoin[order[k].coin := held + [order[k].exit]], coin)))
    {
      OneMoreCovers(order, taken, k, Some(coin), t, multiset(ExitsOf(byCoin, coin)));
    }
  }

  /** What the walk keeps: every exit still ahead, in the heap and in its coin's list. */
  ghost predicate Tracked(order: seq<Candidate>, taken: seq<nat>, openAll: seq<int>, byCoin: map<string, seq<int>>,
                          t: int) {
    && Indices(taken, |order|)
    && Heap.IsHeap(Le, openAll) && Covers(Exits(order, taken, None), t, multiset(openAll))
    && CoinsCovered(order, taken, byCoin, t)
  }

  lemma NothingTaken(order: seq<Candidate>, t: int)
    ensures Tracked(order, [], [], map[], t)
  {
    forall coin ensures Covers(Exits(order, [], Some(coin)), t, multiset(ExitsOf(map[], coin))) {
      assert Exits(order, [], Some(coin)) == multiset{};
    }
  }

  /** The body of the loop. */
  method Consider(order: seq<Candidate>, k: nat, slots: int, perCoin: int, taken0: seq<nat>, openAll0: seq<int>,
                  byCoin0: map<string, seq<int>>, ghost t: int)
      returns (taken: seq<nat>, openAll: seq<int>, byCoin: map<string, seq<int>>)
    requires k < |order| && t <= order[k].entry && Tracked(order, taken0, openAll0, byCoin0, t)
    requires forall j :: 0 <= j < |taken0| ==> order[taken0[j]].entry <= order[k].entry
    ensures Tracked(order, taken, openAll, byCoin, order[k].entry)
    ensures taken == if Fits(order, taken0, k, slots, perCoin) then taken0 + [k] else taken0
  {
    hide Exits, OpenAt, Held;
    var c := order[k];
    taken := taken0;
    CoverLater(Exits(order, taken, None), t, c.entry, multiset(openAll0));
    openAll := PopEnded(openAll0, c.entry, Exits(order, taken, None));
    var held := Held(ExitsOf(byCoin0, c.coin), c.entry);
    HeldCovers(order, taken, byCoin0, c.coin, t, c.entry);
    byCoin := byCoin0[c.coin := held];
    OpenIsExitsAfter(order, taken, None, c.entry, multiset(openAll));
    OpenIsExitsAfter(order, taken, Some(c.coin), c.entry, multiset(held));
    if |held| >= perCoin || |openAll| >= slots { return; }
    ghost var before := multiset(openAll);
    openAll := Heap.Push(Le, openAll, c.exit) by { LeIsTotalOrder(); }
    OneMoreCovers(order, taken, k, None, c.entry, before);
    CoinCovers(order, taken, k, c.entry, byCoin, held);
    byCoin := byCoin[c.coin := held + [c.exit]];
    taken := taken + [k];
  }

  lemma EntriesAscend(order: seq<Candidate>, k: nat)
    requires InWalkOrder(order) && k + 1 < |order|
    ensures order[k].entry <= order[k + 1].entry
  {
    assert Before(order[k], order[k + 1]);
  }

  /** The walk with its heap of exits and its lists of exits by coin takes what the rule takes. */
  method WalkAll(order: seq<Candidate>, slots: int, perCoin: int) returns (taken: seq<nat>)
    requires InWalkOrder(order)
    ensures taken == Taken(order, |order|, slots, perCoin)
  {
    hide Tracked, Fits, InWalkOrder, Before;
    var openAll: seq<int>, byCoin: map<string, seq<int>> := [], map[];
    taken := [];
    ghost var now := if order == [] then 0 else order[0].entry;
    NothingTaken(order, now);
    for k := 0 to |order|
      invariant taken == Taken(order, k, slots, perCoin)
      invariant k < |order| ==> now <= order[k].entry
      invariant Tracked(order, taken, openAll, byCoin, now)
    {
      TakenBefore(order, k, slots, perCoin);
      taken, openAll, byCoin := Consider(order, k, slots, perCoin, taken, openAll, byCoin, now);
      now := order[k].entry;
      if k + 1 < |order| { EntriesAscend(order, k); }
    }
  }
}
