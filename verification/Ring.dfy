/** What the fixed-capacity rings of the core share: the slot a position falls in, and the
    life of the raw storage behind one slot. */
module Ring {

  /** Bytes that hold no object, a constructed object, or an object already moved out of but
      not destroyed yet. */
  datatype Storage<+T> = Raw | Live(value: T) | MovedFrom

  datatype Option<+T> = None | Some(value: T)

  /** The slot of an absolute position. One lap up is one unfolding, see SlotIsRemainder. */
  function Slot(pos: nat, cap: nat): (slot: nat)
    requires cap > 0
    ensures slot < cap
  {
    if pos < cap then pos else Slot(pos - cap, cap)
  }

  lemma {:induction false} SlotIsRemainder(pos: nat, cap: nat)
    requires cap > 0
    ensures Slot(pos, cap) == pos % cap
  {
    if pos >= cap {
      SlotIsRemainder(pos - cap, cap);
      RemainderDown(pos, cap);
    }
  }

  lemma RemainderDown(pos: int, cap: int)
    requires 0 < cap <= pos
    ensures pos % cap == (pos - cap) % cap
  {
    var high, low := pos / cap, (pos - cap) / cap;
    assert cap * (low + 1) == cap * low + cap;
    LapsDiffer(cap, high, low + 1);
  }

  /** Different laps start at least one lap apart. */
  lemma LapsDiffer(cap: int, a: int, b: int)
    requires cap > 0
    ensures a < b ==> cap * a + cap <= cap * b
    ensures b < a ==> cap * b + cap <= cap * a
  {
    if a < b {
      LapsApart(cap, a, b);
    } else if b < a {
      LapsApart(cap, b, a);
    }
  }

  lemma {:induction false} LapsApart(cap: int, a: int, b: int)
    requires cap > 0 && a < b
    ensures cap * a + cap <= cap * b
    decreases b - a
  {
    assert cap * (b - 1) == cap * b - cap;
    if a + 1 < b {
      LapsApart(cap, a, b - 1);
    }
  }

  /** Positions less than one lap apart never share a slot. */
  lemma {:induction false} SlotApart(p: nat, q: nat, cap: nat)
    requires 0 < cap && p < q < p + cap
    ensures Slot(p, cap) != Slot(q, cap)
  {
    if p >= cap {
      SlotApart(p - cap, q - cap, cap);
    }
  }

  /** Every slot holds exactly one position of any lap-wide window. */
  lemma {:induction false} SlotCovered(lo: nat, slot: nat, cap: nat) returns (pos: nat)
    requires slot < cap
    ensures lo <= pos < lo + cap && Slot(pos, cap) == slot
  {
    if lo < cap {
      pos := if slot < lo then slot + cap else slot;
    } else {
      pos := SlotCovered(lo - cap, slot, cap);
      pos := pos + cap;
    }
  }

  /** The residue that tells a filled slot, stamped position + 1, from a free one. */
  lemma {:induction false} SlotResidue(pos: nat, slot: nat, cap: nat)
    requires cap > 1 && Slot(pos, cap) == slot
    ensures (pos - slot) % cap == 0 && (pos + 1 - slot) % cap == 1
  {
    if pos >= cap {
      SlotResidue(pos - cap, slot, cap);
      SlotAtMost(pos - cap, cap);
      RemainderDown(pos - slot, cap);
      RemainderDown(pos + 1 - slot, cap);
    }
  }

  lemma {:induction false} SlotAtMost(pos: nat, cap: nat)
    requires cap > 0
    ensures Slot(pos, cap) <= pos
  {
    if pos >= cap {
      SlotAtMost(pos - cap, cap);
    }
  }
}
