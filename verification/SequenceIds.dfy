/** The ids of a sequence are distinct at its places when the list of its ids holds none
    twice, which is what `_execute` assigns or demands. */
module SequenceIds {
  import opened Sequences
  import opened Sequence
  import opened SequenceProofs

  lemma Halves(a: seq<Id>, b: seq<Id>)
    requires NoDuplicates(a + b)
    ensures NoDuplicates(a) && NoDuplicates(b) && forall id <- a :: id !in b
  {
    forall i, j | 0 <= i < |a| && 0 <= j < |b| ensures a[i] != b[j] {
      assert (a + b)[i] == a[i] && (a + b)[|a| + j] == b[j];
    }
    assert forall i | 0 <= i < |a| :: (a + b)[i] == a[i];
    assert forall i | 0 <= i < |b| :: (a + b)[|a| + i] == b[i];
  }

  lemma {:induction false} FlatDistinct(branches: seq<seq<Id>>, b: nat, k: nat, c: nat, m: nat)
    requires NoDuplicates(Flat(branches)) && b < |branches| && k < |branches[b]| && c < |branches| && m < |branches[c]|
    requires branches[b][k] == branches[c][m]
    ensures b == c && k == m
  {
    var rest := branches[1..];
    Halves(branches[0], Flat(rest));
    InFlat(rest, branches[b][k]);
    if b > 0 { assert rest[b - 1][k] == branches[b][k]; }
    if c > 0 { assert rest[c - 1][m] == branches[c][m]; }
    if b > 0 && c > 0 { FlatDistinct(rest, b - 1, k, c - 1, m); }
  }

  lemma {:induction false} PlacesDistinct(items: seq<Item>, from: nat, p: Place, q: Place)
    requires NoDuplicates(UnitsFrom(items, from)) && In(items, p) && In(items, q) && p.item >= from && q.item >= from
    requires Unit(items, p) == Unit(items, q)
    ensures p == q
    decreases |items| - from
  {
    var here := Flat(Branches(items[from]));
    Halves(here, UnitsFrom(items, from + 1));
    InFlat(Branches(items[from]), Unit(items, p));
    InUnitsFrom(items, from + 1, Unit(items, p));
    assert p.item == from ==> Branches(items[from])[p.branch][p.index] == Unit(items, p);
    assert q.item == from ==> Branches(items[from])[q.branch][q.index] == Unit(items, q);
    if p.item == from && q.item == from {
      FlatDistinct(Branches(items[from]), p.branch, p.index, q.branch, q.index);
    } else if p.item > from && q.item > from {
      PlacesDistinct(items, from + 1, p, q);
    }
  }

  /** A sequence whose list of ids holds none twice has a different id at every place. */
  lemma AdmittedIdsAreDistinct(items: seq<Item>)
    requires NoDuplicates(UnitsFrom(items, 0))
    ensures DistinctIds(items)
  {
    forall p, q | In(items, p) && In(items, q) && Unit(items, p) == Unit(items, q) ensures p == q {
      PlacesDistinct(items, 0, p, q);
    }
  }
}
