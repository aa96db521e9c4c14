/** What an execute that nothing cancels comes to, whatever the interleaving of its branches. */
module SequenceSpec {
  import opened Commands
  import opened Sequence
  import opened SequenceProofs

  /** How each command ends when it runs. */
  type Own = Id -> Status

  // -- The sequential reading ------------------------------------------------------------

  predicate PrefixOk(own: Own, branch: seq<Id>, k: nat) {
    k <= |branch| && forall i | 0 <= i < k :: own(branch[i]) == OK
  }

  predicate ItemOk(own: Own, item: Item) {
    forall b | 0 <= b < |Branches(item)| :: PrefixOk(own, Branches(item)[b], |Branches(item)[b]|)
  }

  /** A command runs when every item before its own, and every command before it in its
      branch, ended OK. */
  predicate Runs(own: Own, items: seq<Item>, p: Place)
    requires In(items, p)
  {
    (forall i | 0 <= i < p.item :: ItemOk(own, items[i])) && PrefixOk(own, Branches(items[p.item])[p.branch], p.index)
  }

  /** A command that runs ends in its own way, and one that does not ends with ABORT. */
  function Spec(own: Own, items: seq<Item>, p: Place): Status
    requires In(items, p)
  {
    if Runs(own, items, p) then own(Unit(items, p)) else ABORT
  }

  /** A step of an execute that nothing cancels: tasks end as `own` says. */
  predicate Undisturbed(own: Own, items: seq<Item>, s: State, step: Step)
    requires Enabled(items, s, step)
  {
    match step
    case EndUnit(b, status) => status == own(UnitOf(items, s, b))
    case UnitMissing(b) => own(UnitOf(items, s, b)) == ERROR
    case Cancel => false
    case _ => true
  }

  predicate UndisturbedRun(own: Own, items: seq<Item>, s: State, steps: seq<Step>)
    requires ValidRun(items, s, steps)
    decreases |steps|
  {
    steps == [] || (Undisturbed(own, items, s, steps[0]) && UndisturbedRun(own, items, Apply(items, s, steps[0]), steps[1..]))
  }

  // -- The invariant ---------------------------------------------------------------------

  ghost predicate BranchSpec(own: Own, branch: seq<Id>, phase: BranchPhase, log: seq<Event>) {
    match phase
    case At(k) => PrefixOk(own, branch, k)
    case InUnit(k) => PrefixOk(own, branch, k) && k < |branch| && Began(branch[k]) in log
    case BranchOver(ok) => ok == PrefixOk(own, branch, |branch|)
    case BranchCancelled => false
  }

  ghost predicate ControlSpec(own: Own, items: seq<Item>, s: State) {
    && !s.cancelled && s.phase != Swept
    && (s.phase != Finished ==> s.item <= |items| && forall i | 0 <= i < s.item :: ItemOk(own, items[i]))
    && (forall b | 0 <= b < |s.branches| && b < |Current(items, s)| ::
          BranchSpec(own, Current(items, s)[b], s.branches[b], s.log))
  }

  ghost predicate PlaceSpec(own: Own, items: seq<Item>, s: State, p: Place)
    requires In(items, p)
  {
    var id := Unit(items, p);
    && (id in s.ended ==> s.ended[id] == Spec(own, items, p))
    && (Began(id) in s.log ==> Runs(own, items, p))
    && (id in s.ended && Runs(own, items, p) && own(id) != ERROR ==> Began(id) in s.log)
  }

  ghost predicate SpecInv(own: Own, items: seq<Item>, s: State) {
    && Inv(items, s) && ControlSpec(own, items, s)
    && forall p | In(items, p) :: PlaceSpec(own, items, s, p)
  }

  // -- Each step keeps it ----------------------------------------------------------------

  lemma BeganGrew(s: State, n: State, id: Id)
    requires LogGrew(s, n)
    ensures Began(id) in n.log <==> Began(id) in s.log
  {
    if Began(id) in n.log {
      var i :| 0 <= i < |n.log| && n.log[i] == Began(id);
      assert i < |s.log| && s.log[i] == n.log[i];
    }
  }

  /** Skipping commands that do not run agrees with the reading. */
  lemma SkipSpec(own: Own, items: seq<Item>, s: State, ids: seq<Id>, p: Place)
    requires TableInv(s) && In(items, p) && PlaceSpec(own, items, s, p)
    requires Unit(items, p) in ids ==> !Runs(own, items, p)
    ensures PlaceSpec(own, items, Skip(s, ids), p)
  {
    SkipKeeps(s, ids);
    SkipOne(s, ids, Unit(items, p));
    BeganGrew(s, Skip(s, ids), Unit(items, p));
  }

  lemma SkipBranches(own: Own, items: seq<Item>, s: State, ids: seq<Id>, b: nat)
    requires TableInv(s) && b < |s.branches| && b < |Current(items, s)|
    requires BranchSpec(own, Current(items, s)[b], s.branches[b], s.log)
    ensures BranchSpec(own, Current(items, s)[b], s.branches[b], Skip(s, ids).log)
  {
    SkipKeeps(s, ids);
    if s.branches[b].InUnit? && s.branches[b].index < |Current(items, s)[b]| {
      BeganGrew(s, Skip(s, ids), Current(items, s)[b][s.branches[b].index]);
    }
  }

  /** A command ends as `own` says, in a branch whose commands before it ended OK. */
  lemma CompleteSpec(own: Own, items: seq<Item>, s: State, b: nat, k: nat, p: Place)
    requires SpecInv(own, items, s) && DistinctIds(items) && In(items, p)
    requires (InsideUnit(items, s, b) || BeforeUnit(items, s, b)) && s.branches[b].index == k
    requires s.branches[b].At? ==> own(UnitOf(items, s, b)) == ERROR
    ensures var id := UnitOf(items, s, b);
      PlaceSpec(own, items, Complete(SetRunning(s, id, false), id, own(id)), p)
  {
    var id := UnitOf(items, s, b);
    var here := Place(s.item, b, k);
    assert In(items, here) && Unit(items, here) == id;
    assert PlaceSpec(own, items, s, p);
    assert BranchSpec(own, Current(items, s)[b], s.branches[b], s.log);
    var m := SetRunning(s, id, false);
    CompleteLog(m, id, own(id));
    BeganGrew(m, Complete(m, id, own(id)), Unit(items, p));
    if Unit(items, p) == id { assert p == here; }
    hide Inv;
  }

  lemma CompleteLog(s: State, id: Id, status: Status)
    ensures LogGrew(s, Complete(s, id, status))
  {
  }

  /** The state after a command ended, before its branch moves on. */
  ghost predicate DoneSpec(own: Own, items: seq<Item>, s: State, b: nat, k: nat, n: State)
  {
    && b < |s.branches| && b < |Current(items, s)| && k < |Current(items, s)[b]|
    && PrefixOk(own, Current(items, s)[b], k)
    && n == s.(table := n.table, ended := n.ended, log := n.log)
    && TableInv(n) && ControlSpec(own, items, n) && s.phase == InItem && s.item < |items|
    && forall p | In(items, p) :: PlaceSpec(own, items, n, p)
  }

  lemma GoesOnSpec(own: Own, items: seq<Item>, s: State, b: nat, k: nat, n: State)
    requires DoneSpec(own, items, s, b, k, n) && own(Current(items, s)[b][k]) == OK
    ensures var r := n.(branches := n.branches[b := At(k + 1)]);
      ControlSpec(own, items, r) && forall p | In(items, p) :: PlaceSpec(own, items, r, p)
  {
    var r := n.(branches := n.branches[b := At(k + 1)]);
    forall p | In(items, p) ensures PlaceSpec(own, items, r, p) { assert PlaceSpec(own, items, n, p); }
    forall c | 0 <= c < |r.branches| && c < |Current(items, r)|
      ensures BranchSpec(own, Current(items, r)[c], r.branches[c], r.log)
    {
      assert BranchSpec(own, Current(items, n)[c], n.branches[c], n.log);
    }
  }

  lemma StopsSpec(own: Own, items: seq<Item>, s: State, b: nat, k: nat, n: State)
    requires DoneSpec(own, items, s, b, k, n) && own(Current(items, s)[b][k]) != OK && DistinctIds(items)
    ensures var r := Skip(n, Current(items, s)[b][k + 1..]).(branches := n.branches[b := BranchOver(false)]);
      ControlSpec(own, items, r) && forall p | In(items, p) :: PlaceSpec(own, items, r, p)
  {
    var rest := Current(items, s)[b][k + 1..];
    var m := Skip(n, rest);
    var r := m.(branches := n.branches[b := BranchOver(false)]);
    SkipKeeps(n, rest);
    forall p | In(items, p) ensures PlaceSpec(own, items, r, p) {
      assert PlaceSpec(own, items, n, p);
      if Unit(items, p) in rest {
        var j :| 0 <= j < |rest| && rest[j] == Unit(items, p);
        var there := Place(s.item, b, k + 1 + j);
        assert In(items, there) && Unit(items, there) == Unit(items, p);
        assert p == there;
        assert !PrefixOk(own, Current(items, s)[b], p.index);
      }
      SkipSpec(own, items, n, rest, p);
      assert PlaceSpec(own, items, m, p);
    }
    forall c | 0 <= c < |r.branches| && c < |Current(items, r)|
      ensures BranchSpec(own, Current(items, r)[c], r.branches[c], r.log)
    {
      assert BranchSpec(own, Current(items, n)[c], n.branches[c], n.log);
      SkipBranches(own, items, n, rest, c);
    }
  }

  lemma EndsBranches(own: Own, items: seq<Item>, s: State, b: nat)
    requires SpecInv(own, items, s)
    requires InsideUnit(items, s, b) || BeforeUnit(items, s, b)
    ensures var id := UnitOf(items, s, b);
      var n := Complete(SetRunning(s, id, false), id, own(id));
      && |n.branches| == |s.branches| && Current(items, n) == Current(items, s)
      && forall c | 0 <= c < |n.branches| && c < |Current(items, n)| :: BranchSpec(own, Current(items, n)[c], n.branches[c], n.log)
  {
    var id := UnitOf(items, s, b);
    var m := SetRunning(s, id, false);
    RunKeepsTable(s, id, false);
    CompleteKeeps(m, id, own(id));
    CompleteLog(m, id, own(id));
    var n := Complete(m, id, own(id));
    hide TableInv, PlaceSpec, TurnsInv, PlaceInv;
    forall c | 0 <= c < |n.branches| && c < |Current(items, n)|
      ensures BranchSpec(own, Current(items, n)[c], n.branches[c], n.log)
    {
      assert BranchSpec(own, Current(items, s)[c], s.branches[c], s.log);
    }
  }

  lemma EndsSpec(own: Own, items: seq<Item>, s: State, b: nat)
    requires SpecInv(own, items, s) && DistinctIds(items)
    requires InsideUnit(items, s, b) || BeforeUnit(items, s, b)
    requires s.branches[b].At? ==> own(UnitOf(items, s, b)) == ERROR
    ensures var id := UnitOf(items, s, b);
      DoneSpec(own, items, s, b, s.branches[b].index, Complete(SetRunning(s, id, false), id, own(id)))
  {
    var id := UnitOf(items, s, b);
    var k := s.branches[b].index;
    var m := SetRunning(s, id, false);
    var n := Complete(m, id, own(id));
    RunKeepsTable(s, id, false);
    CompleteKeeps(m, id, own(id));
    CompleteLog(m, id, own(id));
    forall p | In(items, p) ensures PlaceSpec(own, items, n, p) { CompleteSpec(own, items, s, b, k, p); }
    assert BranchSpec(own, Current(items, s)[b], s.branches[b], s.log);
    EndsBranches(own, items, s, b);
    hide TableInv, PlaceSpec, TurnsInv, PlaceInv;
  }

  lemma DoneStays(own: Own, items: seq<Item>, s: State, b: nat, k: nat, n: State)
    requires DoneSpec(own, items, s, b, k, n)
    ensures n.branches == s.branches && Current(items, n) == Current(items, s)
  {
  }

  lemma AfterSpec(own: Own, items: seq<Item>, s: State, b: nat)
    requires SpecInv(own, items, s) && DistinctIds(items)
    requires InsideUnit(items, s, b) || BeforeUnit(items, s, b)
    requires s.branches[b].At? ==> own(UnitOf(items, s, b)) == ERROR
    ensures var id := UnitOf(items, s, b);
      var r := AfterUnit(items, Complete(SetRunning(s, id, false), id, own(id)), b, s.branches[b].index, own(id));
      ControlSpec(own, items, r) && forall p | In(items, p) :: PlaceSpec(own, items, r, p)
  {
    hide SpecInv, DoneSpec, ControlSpec, PlaceSpec, DistinctIds, Complete, SetRunning, Skip;
    EndsSpec(own, items, s, b);
    var id := UnitOf(items, s, b);
    var n := Complete(SetRunning(s, id, false), id, own(id));
    DoneStays(own, items, s, b, s.branches[b].index, n);
    if own(id) == OK { GoesOnSpec(own, items, s, b, s.branches[b].index, n); }
    else { StopsSpec(own, items, s, b, s.branches[b].index, n); }
  }

  lemma BeginSpec(own: Own, items: seq<Item>, s: State, b: nat)
    requires SpecInv(own, items, s) && DistinctIds(items) && Enabled(items, s, BeginUnit(b))
    ensures var r := Apply(items, s, BeginUnit(b));
      ControlSpec(own, items, r) && forall p | In(items, p) :: PlaceSpec(own, items, r, p)
  {
    var r := Apply(items, s, BeginUnit(b));
    var id := UnitOf(items, s, b);
    var here := Place(s.item, b, s.branches[b].index);
    assert In(items, here) && Unit(items, here) == id;
    assert BranchSpec(own, Current(items, s)[b], s.branches[b], s.log);
    assert r.log[|s.log|] == Began(id);
    forall x ensures Began(x) in r.log <==> Began(x) in s.log || x == id {
    }
    forall p | In(items, p) ensures PlaceSpec(own, items, r, p) {
      assert PlaceSpec(own, items, s, p);
      if Unit(items, p) == id { assert p == here; }
    }
    forall c | 0 <= c < |r.branches| && c < |Current(items, r)|
      ensures BranchSpec(own, Current(items, r)[c], r.branches[c], r.log)
    {
      assert BranchSpec(own, Current(items, s)[c], s.branches[c], s.log);
    }
    hide Inv;
  }

  lemma GatherSpec(own: Own, items: seq<Item>, s: State)
    requires SpecInv(own, items, s) && DistinctIds(items) && Enabled(items, s, Gathered)
    ensures var r := GatherStep(items, s);
      ControlSpec(own, items, r) && forall p | In(items, p) :: PlaceSpec(own, items, r, p)
  {
    var r := GatherStep(items, s);
    var current := Current(items, s);
    forall b | 0 <= b < |s.branches| ensures BranchSpec(own, current[b], s.branches[b], s.log) {
    }
    if forall b | 0 <= b < |s.branches| :: s.branches[b] == BranchOver(true) {
      forall b | 0 <= b < |current| ensures PrefixOk(own, current[b], |current[b]|) {
        assert s.branches[b] == BranchOver(true);
      }
      assert ItemOk(own, items[s.item]);
      forall p | In(items, p) ensures PlaceSpec(own, items, r, p) { assert PlaceSpec(own, items, s, p); }
    } else {
      var b :| 0 <= b < |s.branches| && s.branches[b] != BranchOver(true);
      assert !PrefixOk(own, current[b], |current[b]|);
      assert !ItemOk(own, items[s.item]);
      var ids := UnitsFrom(items, s.item + 1);
      SkipKeeps(s, ids);
      forall p | In(items, p) ensures PlaceSpec(own, items, r, p) {
        LaterAborts(own, items, s, p);
        assert PlaceSpec(own, items, Skip(s, ids), p);
      }
    }
  }

  lemma LaterAborts(own: Own, items: seq<Item>, s: State, p: Place)
    requires TableInv(s) && DistinctIds(items) && s.item < |items| && !ItemOk(own, items[s.item])
    requires In(items, p) && PlaceSpec(own, items, s, p)
    ensures PlaceSpec(own, items, Skip(s, UnitsFrom(items, s.item + 1)), p)
  {
    var ids := UnitsFrom(items, s.item + 1);
    InUnitsFrom(items, s.item + 1, Unit(items, p));
    if Unit(items, p) in ids {
      var q :| In(items, q) && q.item >= s.item + 1 && Unit(items, q) == Unit(items, p);
      assert p == q;
    }
    SkipSpec(own, items, s, ids, p);
  }

  lemma ControlOnlySpec(own: Own, items: seq<Item>, s: State, step: Step)
    requires SpecInv(own, items, s) && Enabled(items, s, step)
    requires step.StartItem? || step.BranchEnds? || step.Forget?
    ensures var r := Apply(items, s, step);
      ControlSpec(own, items, r) && forall p | In(items, p) :: PlaceSpec(own, items, r, p)
  {
    var r := Apply(items, s, step);
    forall p | In(items, p) ensures PlaceSpec(own, items, r, p) { assert PlaceSpec(own, items, s, p); }
    forall c | 0 <= c < |r.branches| && c < |Current(items, r)|
      ensures BranchSpec(own, Current(items, r)[c], r.branches[c], r.log)
    {
      if !step.StartItem? { assert BranchSpec(own, Current(items, s)[c], s.branches[c], s.log); }
    }
    hide Inv, PlaceSpec;
  }

  lemma SpecKeeps(own: Own, items: seq<Item>, s: State, step: Step)
    requires SpecInv(own, items, s) && DistinctIds(items) && Enabled(items, s, step) && Undisturbed(own, items, s, step)
    ensures SpecInv(own, items, Apply(items, s, step))
  {
    InvKeeps(items, s, step);
    assert !s.cancelled;
    match step
    case BeginUnit(b) => BeginSpec(own, items, s, b);
    case EndUnit(b, status) => AfterSpec(own, items, s, b);
    case UnitMissing(b) => MissingSpec(own, items, s, b);
    case Gathered => GatherSpec(own, items, s);
    case StartItem => ControlOnlySpec(own, items, s, step);
    case BranchEnds(_) => ControlOnlySpec(own, items, s, step);
    case Forget(_) => ControlOnlySpec(own, items, s, step);
    case _ =>
  }

  lemma MissingSpec(own: Own, items: seq<Item>, s: State, b: nat)
    requires SpecInv(own, items, s) && DistinctIds(items) && BeforeUnit(items, s, b) && own(UnitOf(items, s, b)) == ERROR
    ensures var r := Apply(items, s, UnitMissing(b));
      ControlSpec(own, items, r) && forall p | In(items, p) :: PlaceSpec(own, items, r, p)
  {
    var id, k := UnitOf(items, s, b), s.branches[b].index;
    assert In(items, Place(s.item, b, k)) && Unit(items, Place(s.item, b, k)) == id;
    assert PlaceInv(items, s, Place(s.item, b, k));
    if id in s.table {
      assert SetRunning(s, id, false) == s by { assert s.table[id := s.table[id].(running := false)] == s.table; }
    }
    AfterSpec(own, items, s, b);
  }

  lemma {:induction false} SpecAfter(own: Own, items: seq<Item>, s: State, steps: seq<Step>)
    requires SpecInv(own, items, s) && DistinctIds(items) && ValidRun(items, s, steps) && UndisturbedRun(own, items, s, steps)
    ensures SpecInv(own, items, After(items, s, steps))
    decreases |steps|
  {
    if steps != [] {
      SpecKeeps(own, items, s, steps[0]);
      SpecAfter(own, items, Apply(items, s, steps[0]), steps[1..]);
    }
  }

  /** For every interleaving of an execute that nothing cancels: once it has finished, every
      command has ended as the sequential reading says, and a handler began for exactly the
      commands the reading runs (one that ends with ERROR may have lost its component first). */
  lemma FinishesAsSpecified(own: Own, items: seq<Item>, s: State, steps: seq<Step>, p: Place)
    requires Initial(items, s) && DistinctIds(items) && ValidRun(items, s, steps) && UndisturbedRun(own, items, s, steps)
    requires After(items, s, steps).phase == Finished && In(items, p)
    ensures var n := After(items, s, steps); var id := Unit(items, p);
      && id in n.ended && n.ended[id] == Spec(own, items, p)
      && (Began(id) in n.log ==> Runs(own, items, p))
      && (Runs(own, items, p) && own(id) != ERROR ==> Began(id) in n.log)
  {
    InitialInv(items, s);
    forall q | In(items, q) ensures PlaceSpec(own, items, s, q) {
    }
    SpecAfter(own, items, s, steps);
    var n := After(items, s, steps);
    assert PlaceInv(items, n, p) && PlaceSpec(own, items, n, p);
  }

  /** Two interleavings of the same execute end with the same statuses. */
  lemma InterleavingsAgree(own: Own, items: seq<Item>, s: State, a: seq<Step>, b: seq<Step>, p: Place)
    requires Initial(items, s) && DistinctIds(items) && In(items, p)
    requires ValidRun(items, s, a) && UndisturbedRun(own, items, s, a) && After(items, s, a).phase == Finished
    requires ValidRun(items, s, b) && UndisturbedRun(own, items, s, b) && After(items, s, b).phase == Finished
    ensures var id := Unit(items, p);
      && id in After(items, s, a).ended && id in After(items, s, b).ended
      && After(items, s, a).ended[id] == After(items, s, b).ended[id]
  {
    FinishesAsSpecified(own, items, s, a, p);
    FinishesAsSpecified(own, items, s, b, p);
  }
}
