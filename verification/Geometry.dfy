/** Where an offset lives: list item, slot in the item's array, position in the quantum. */
module Geometry {

  type Key = (nat, nat)

  // The divisions and remainders of the read and write routines.
  function ItemOf(off: nat, quantum: nat, qset: nat): nat
    requires 0 < quantum && 0 < qset
  {
    Positive(quantum, qset);
    off / (quantum * qset)
  }

  function SlotOf(off: nat, quantum: nat, qset: nat): nat
    requires 0 < quantum && 0 < qset
  {
    Positive(quantum, qset);
    off % (quantum * qset) / quantum
  }

  function PosOf(off: nat, quantum: nat, qset: nat): nat
    requires 0 < quantum && 0 < qset
  {
    Positive(quantum, qset);
    off % (quantum * qset) % quantum
  }

  function KeyOf(off: nat, quantum: nat, qset: nat): Key
    requires 0 < quantum && 0 < qset
  {
    (ItemOf(off, quantum, qset), SlotOf(off, quantum, qset))
  }

  lemma Positive(a: nat, b: nat)
    requires 0 < a && 0 < b
    ensures 0 < a * b
  {
  }

  lemma Distributes(a: int, b: int, d: int)
    ensures (a - b) * d == a * d - b * d
  {
  }

  lemma AtLeastOnce(n: int, d: nat)
    requires n > 0
    ensures n * d >= d
  {
  }

  // Two multiples that differ by less than a step are the same.
  lemma SameMultiple(a: nat, b: nat, d: nat, r: nat, m: nat)
    requires a * d + r == b * d + m && r < d && m < d
    ensures a == b
  {
    if a < b {
      Distributes(b, a, d);
      AtLeastOnce(b - a, d);
    } else if b < a {
      Distributes(a, b, d);
      AtLeastOnce(a - b, d);
    }
  }

  lemma DivModUnique(x: nat, d: nat, q: nat, r: nat)
    requires 0 < d && x == q * d + r && r < d
    ensures x / d == q && x % d == r
  {
    SameMultiple(x / d, q, d, x % d, r);
  }

  lemma FewerMultiples(a: nat, b: nat, d: nat)
    requires a * d < b * d
    ensures a < b
  {
    Distributes(a, b, d);
  }

  // An offset is what its three coordinates make up.
  lemma Recompose(off: nat, quantum: nat, qset: nat)
    requires 0 < quantum && 0 < qset
    ensures SlotOf(off, quantum, qset) < qset && PosOf(off, quantum, qset) < quantum
    ensures off == ItemOf(off, quantum, qset) * (quantum * qset) + SlotOf(off, quantum, qset) * quantum
                   + PosOf(off, quantum, qset)
  {
    Positive(quantum, qset);
    var rest := off % (quantum * qset);
    var s := rest / quantum;
    assert rest == s * quantum + rest % quantum;
    FewerMultiples(s, qset, quantum);
  }

  // Every triple of coordinates in range is that of one offset.
  lemma Coordinates(off: nat, quantum: nat, qset: nat, item: nat, slot: nat, pos: nat)
    requires slot < qset && pos < quantum
    requires off == item * (quantum * qset) + slot * quantum + pos
    ensures KeyOf(off, quantum, qset) == (item, slot) && PosOf(off, quantum, qset) == pos
  {
    Positive(quantum, qset);
    var rest := slot * quantum + pos;
    assert rest < quantum * qset by {
      AtLeastOnce(qset - slot, quantum);
      Distributes(qset, slot, quantum);
    }
    DivModUnique(off, quantum * qset, item, rest);
    DivModUnique(rest, quantum, slot, pos);
  }

  // Offsets that agree in all coordinates are equal.
  lemma SameCell(a: nat, b: nat, quantum: nat, qset: nat)
    requires 0 < quantum && 0 < qset
    requires KeyOf(a, quantum, qset) == KeyOf(b, quantum, qset)
    requires PosOf(a, quantum, qset) == PosOf(b, quantum, qset)
    ensures a == b
  {
    Recompose(a, quantum, qset);
    Recompose(b, quantum, qset);
  }

  // The bytes up to the end of a quantum follow each other in it.
  lemma WithinQuantum(off: nat, k: nat, quantum: nat, qset: nat)
    requires 0 < quantum && 0 < qset && PosOf(off, quantum, qset) + k < quantum
    ensures KeyOf(off + k, quantum, qset) == KeyOf(off, quantum, qset)
    ensures PosOf(off + k, quantum, qset) == PosOf(off, quantum, qset) + k
  {
    Recompose(off, quantum, qset);
    Coordinates(off + k, quantum, qset, ItemOf(off, quantum, qset), SlotOf(off, quantum, qset),
                PosOf(off, quantum, qset) + k);
  }

  // The page number, taken apart by the size of an array, gives the same item and slot.
  lemma PageNumber(off: nat, page: nat, qset: nat)
    requires 0 < page && 0 < qset
    ensures off / page == ItemOf(off, page, qset) * qset + SlotOf(off, page, qset)
    ensures SlotOf(off, page, qset) < qset
  {
    Recompose(off, page, qset);
    var item, slot := ItemOf(off, page, qset), SlotOf(off, page, qset);
    assert item * (page * qset) == (item * qset) * page;
    assert (item * qset) * page + slot * page == (item * qset + slot) * page;
    DivModUnique(off, page, item * qset + slot, PosOf(off, page, qset));
  }
}
