/** Why each command of a sequence ended, and with which status, told from the steps of a run. */
module SequenceOutcomes {
  import opened Commands
  import opened Sequence
  import opened SequenceProofs

  // -- One step --------------------------------------------------------------------------

  /** A branch is in or before this command. */
  predicate Stands(items: seq<Item>, s: State, b: nat, id: Id) {
    (InsideUnit(items, s, b) || BeforeUnit(items, s, b)) && UnitOf(items, s, b) == id
  }

  /** The step ends the command a branch stands at: its task ended with the status, its entry or
      its component is gone, or its branch was cancelled in it. */
  predicate EndsIt(items: seq<Item>, s: State, step: Step, id: Id, status: Status) {
    match step
    case EndUnit(b, reported) => Stands(items, s, b, id) && status == reported
    case UnitMissing(b) => Stands(items, s, b, id) && status == ERROR
    case UnitCancelled(b) => Stands(items, s, b, id) && status == ABORT
    case _ => false
  }

  /** The command comes later in the branch. */
  ghost predicate LaterInBranch(items: seq<Item>, s: State, b: nat, id: Id) {
    exists p :: In(items, p) && Unit(items, p) == id && p.item == s.item && p.branch == b
                && b < |s.branches| && (s.branches[b].At? || s.branches[b].InUnit?) && p.index > s.branches[b].index
  }

  /** The step passes the command over: an earlier command of its branch or an earlier item
      ended other than OK, or the sequence was cancelled. */
  ghost predicate PassesOver(items: seq<Item>, s: State, step: Step, id: Id) {
    match step
    case EndUnit(b, reported) => reported != OK && LaterInBranch(items, s, b, id)
    case UnitMissing(b) => LaterInBranch(items, s, b, id)
    case Gathered =>
      && !(forall b | 0 <= b < |s.branches| :: s.branches[b] == BranchOver(true))
      && exists p :: In(items, p) && Unit(items, p) == id && p.item > s.item
    case Sweep => exists p :: In(items, p) && Unit(items, p) == id
    case _ => false
  }

  /** A step ends a command that has an entry and has not ended: with the status of what ended
      it, or with ABORT as it is passed over before it began. */
  ghost predicate Ends(items: seq<Item>, s: State, step: Step, id: Id, status: Status) {
    && id in s.table
    && (EndsIt(items, s, step, id, status)
        || (status == ABORT && PassesOver(items, s, step, id) && !s.table[id].running && forall other :: !EndsIt(items, s, step, id, other)))
  }

  /** What a step makes of a command that has not ended. */
  ghost predicate Follows(items: seq<Item>, s: State, step: Step, n: State, id: Id) {
    if id in s.ended then id in n.ended && n.ended[id] == s.ended[id]
    else forall status :: id in n.ended && n.ended[id] == status <==> Ends(items, s, step, id, status)
  }

  lemma SkipEnds(s: State, ids: seq<Id>, id: Id)
    requires TableInv(s)
    ensures var n := Skip(s, ids);
      if id in s.ended then id in n.ended && n.ended[id] == s.ended[id]
      else (id in n.ended <==> id in ids && id in s.table && !s.table[id].running) && (id in n.ended ==> n.ended[id] == ABORT)
  {
    SkipOne(s, ids, id);
  }

  lemma CompleteEnds(s: State, at: Id, status: Status, id: Id)
    requires TableInv(s)
    ensures var n := Complete(SetRunning(s, at, false), at, status);
      && (if id in s.ended then id in n.ended && n.ended[id] == s.ended[id]
          else id in n.ended <==> id == at && id in s.table)
      && (id !in s.ended && id in n.ended ==> n.ended[id] == status)
      && (id != at ==> (id in n.table <==> id in s.table) && (id in s.table ==> n.table[id] == s.table[id]))
  {
  }

  /** The commands after a place of a branch are those the rest of the branch lists. */
  lemma RestOfBranch(items: seq<Item>, s: State, b: nat, id: Id)
    requires InsideUnit(items, s, b) || BeforeUnit(items, s, b)
    ensures id in Current(items, s)[b][s.branches[b].index + 1..] <==> LaterInBranch(items, s, b, id)
  {
    var k := s.branches[b].index;
    var rest := Current(items, s)[b][k + 1..];
    if id in rest {
      var j :| 0 <= j < |rest| && rest[j] == id;
      var p := Place(s.item, b, k + 1 + j);
      assert In(items, p) && Unit(items, p) == id;
    }
    if p :| In(items, p) && Unit(items, p) == id && p.item == s.item && p.branch == b && p.index > k {
      assert rest[p.index - k - 1] == id;
    }
  }

  lemma AfterEnds(items: seq<Item>, s: State, b: nat, status: Status, id: Id)
    requires TableInv(s) && (InsideUnit(items, s, b) || BeforeUnit(items, s, b))
    ensures var at, k := UnitOf(items, s, b), s.branches[b].index;
      var m := Complete(SetRunning(s, at, false), at, status);
      && b < |m.branches| && b < |Current(items, m)| && k < |Current(items, m)[b]|
      && var n := AfterUnit(items, m, b, k, status);
         if id in s.ended then id in n.ended && n.ended[id] == s.ended[id]
         else if id == at then (id in n.ended <==> id in s.table) && (id in n.ended ==> n.ended[id] == status)
         else && (id in n.ended <==> status != OK && LaterInBranch(items, s, b, id) && id in s.table && !s.table[id].running)
              && (id in n.ended ==> n.ended[id] == ABORT)
  {
    hide TableInv, LaterInBranch, Skip;
    var at, k := UnitOf(items, s, b), s.branches[b].index;
    var m := Complete(SetRunning(s, at, false), at, status);
    CompleteEnds(s, at, status, id);
    RunKeepsTable(s, at, false);
    CompleteKeeps(SetRunning(s, at, false), at, status);
    RestOfBranch(items, s, b, id);
    SkipEnds(m, Current(items, s)[b][k + 1..], id);
  }

  lemma EndFollows(items: seq<Item>, s: State, b: nat, status: Status, id: Id)
    requires TableInv(s) && Enabled(items, s, EndUnit(b, status))
    ensures Follows(items, s, EndUnit(b, status), Apply(items, s, EndUnit(b, status)), id)
  {
    hide TableInv, LaterInBranch, AfterUnit, Complete, SetRunning;
    AfterEnds(items, s, b, status, id);
    if id == UnitOf(items, s, b) { assert EndsIt(items, s, EndUnit(b, status), id, status); }
  }

  /** A command that a branch stands before does not run. */
  lemma BeforeIsIdle(items: seq<Item>, s: State, b: nat)
    requires Inv(items, s) && BeforeUnit(items, s, b)
    ensures SetRunning(s, UnitOf(items, s, b), false) == s
  {
    var id, k := UnitOf(items, s, b), s.branches[b].index;
    assert In(items, Place(s.item, b, k)) && Unit(items, Place(s.item, b, k)) == id;
    assert PlaceInv(items, s, Place(s.item, b, k));
    if id in s.table { assert s.table[id := s.table[id].(running := false)] == s.table; }
  }

  lemma MissingFollows(items: seq<Item>, s: State, b: nat, id: Id)
    requires Inv(items, s) && Enabled(items, s, UnitMissing(b))
    ensures Follows(items, s, UnitMissing(b), Apply(items, s, UnitMissing(b)), id)
  {
    hide Inv, TableInv, LaterInBranch, AfterUnit, Complete, SetRunning;
    BeforeIsIdle(items, s, b);
    HasTable(items, s);
    AfterEnds(items, s, b, ERROR, id);
    if id == UnitOf(items, s, b) { assert EndsIt(items, s, UnitMissing(b), id, ERROR); }
  }

  lemma HasTable(items: seq<Item>, s: State)
    requires Inv(items, s)
    ensures TableInv(s)
  {
  }

  lemma CancelFollows(items: seq<Item>, s: State, b: nat, id: Id)
    requires TableInv(s) && Enabled(items, s, UnitCancelled(b))
    ensures Follows(items, s, UnitCancelled(b), Apply(items, s, UnitCancelled(b)), id)
  {
    hide TableInv, Complete, SetRunning;
    CompleteEnds(s, UnitOf(items, s, b), ABORT, id);
    if id == UnitOf(items, s, b) { assert EndsIt(items, s, UnitCancelled(b), id, ABORT); }
  }

  lemma SweepFollows(items: seq<Item>, s: State, step: Step, id: Id)
    requires TableInv(s) && Enabled(items, s, step) && (step.Gathered? || step.Sweep?)
    ensures Follows(items, s, step, Apply(items, s, step), id)
  {
    hide TableInv, UnitsFrom, Skip;
    var from := if step.Sweep? then 0 else s.item + 1;
    InUnitsFrom(items, from, id);
    SkipEnds(s, UnitsFrom(items, from), id);
  }

  lemma StepFollows(items: seq<Item>, s: State, step: Step, id: Id)
    requires Inv(items, s) && Enabled(items, s, step)
    ensures Follows(items, s, step, Apply(items, s, step), id)
  {
    hide Inv, TableInv, Follows;
    HasTable(items, s);
    match step
    case EndUnit(b, status) => EndFollows(items, s, b, status, id);
    case UnitMissing(b) => MissingFollows(items, s, b, id);
    case UnitCancelled(b) => CancelFollows(items, s, b, id);
    case Gathered => SweepFollows(items, s, step, id);
    case Sweep => SweepFollows(items, s, step, id);
    case _ => OtherFollows(items, s, step, id);
  }

  lemma OtherFollows(items: seq<Item>, s: State, step: Step, id: Id)
    requires Enabled(items, s, step)
    requires !step.EndUnit? && !step.UnitMissing? && !step.UnitCancelled? && !step.Gathered? && !step.Sweep?
    ensures Follows(items, s, step, Apply(items, s, step), id)
  {
  }

  // -- Over every run --------------------------------------------------------------------

  /** The state of a run before its i-th step. */
  function StateAt(items: seq<Item>, s: State, steps: seq<Step>, i: nat): State
    requires ValidRun(items, s, steps) && i <= |steps|
  {
    Prefix(items, s, steps, i);
    After(items, s, steps[..i])
  }

  lemma {:induction false} Prefix(items: seq<Item>, s: State, steps: seq<Step>, i: nat)
    requires ValidRun(items, s, steps) && i <= |steps|
    ensures ValidRun(items, s, steps[..i])
    ensures i < |steps| ==>
              && Enabled(items, After(items, s, steps[..i]), steps[i])
              && ValidRun(items, s, steps[..i + 1])
              && After(items, s, steps[..i + 1]) == Apply(items, After(items, s, steps[..i]), steps[i])
    decreases i
  {
    hide Enabled, Apply;
    if i < |steps| { assert steps[..i + 1][1..] == steps[1..][..i]; }
    if i > 0 {
      Prefix(items, Apply(items, s, steps[0]), steps[1..], i - 1);
      assert steps[..i][1..] == steps[1..][..i - 1];
    }
  }

  lemma StateNext(items: seq<Item>, s: State, steps: seq<Step>, i: nat)
    requires Initial(items, s) && ValidRun(items, s, steps) && DistinctIds(items) && i < |steps|
    ensures Inv(items, StateAt(items, s, steps, i)) && Enabled(items, StateAt(items, s, steps, i), steps[i])
    ensures StateAt(items, s, steps, i + 1) == Apply(items, StateAt(items, s, steps, i), steps[i])
  {
    hide Enabled, Apply, Inv, ValidRun, After, DistinctIds, Initial;
    Prefix(items, s, steps, i);
    InitialInv(items, s);
    InvAfter(items, s, steps[..i]);
  }

  ghost predicate EndedBefore(items: seq<Item>, s: State, steps: seq<Step>, id: Id, status: Status, n: nat)
    requires ValidRun(items, s, steps)
  {
    exists i: nat :: i < n && EndsAt(items, s, steps, id, status, i)
  }

  /** The i-th step of a run ends a command that has not ended. */
  ghost predicate EndsAt(items: seq<Item>, s: State, steps: seq<Step>, id: Id, status: Status, i: nat)
    requires ValidRun(items, s, steps)
  {
    && i < |steps| && id !in StateAt(items, s, steps, i).ended
    && Ends(items, StateAt(items, s, steps, i), steps[i], id, status)
  }

  lemma EndedNext(items: seq<Item>, s: State, steps: seq<Step>, id: Id, status: Status, n: nat)
    requires ValidRun(items, s, steps)
    ensures EndedBefore(items, s, steps, id, status, n + 1)
            <==> EndedBefore(items, s, steps, id, status, n) || EndsAt(items, s, steps, id, status, n)
  {
    hide EndsAt;
  }

  lemma {:induction false} StatusBy(items: seq<Item>, s: State, steps: seq<Step>, id: Id, status: Status, n: nat)
    requires Initial(items, s) && ValidRun(items, s, steps) && DistinctIds(items) && n <= |steps|
    ensures var t := StateAt(items, s, steps, n);
      id in t.ended && t.ended[id] == status <==> EndedBefore(items, s, steps, id, status, n)
    decreases n
  {
    hide Enabled, Apply, Inv, DistinctIds, StateAt, Ends, EndedBefore;
    StateStart(items, s, steps);
    if n > 0 {
      StatusBy(items, s, steps, id, status, n - 1);
      StateNext(items, s, steps, n - 1);
      StepFollows(items, StateAt(items, s, steps, n - 1), steps[n - 1], id);
      EndedNext(items, s, steps, id, status, n - 1);
    } else {
      NoneBefore(items, s, steps, id, status);
    }
  }

  lemma StateStart(items: seq<Item>, s: State, steps: seq<Step>)
    requires Initial(items, s) && ValidRun(items, s, steps)
    ensures StateAt(items, s, steps, 0).ended == map[] && StateAt(items, s, steps, |steps|) == After(items, s, steps)
  {
    assert steps[..|steps|] == steps;
  }

  lemma NoneBefore(items: seq<Item>, s: State, steps: seq<Step>, id: Id, status: Status)
    requires ValidRun(items, s, steps)
    ensures !EndedBefore(items, s, steps, id, status, 0)
  {
  }

  /** In every run a command has ended with a status exactly when some step ended it with that
      status: its own task, with what it came to; its missing entry or component, with ERROR; its
      cancellation, with ABORT; or, before it began, one that passes it over, with ABORT. */
  lemma StatusHasItsCause(items: seq<Item>, s: State, steps: seq<Step>, id: Id, status: Status)
    requires Initial(items, s) && ValidRun(items, s, steps) && DistinctIds(items)
    ensures var n := After(items, s, steps);
      id in n.ended && n.ended[id] == status <==> exists i: nat :: i < |steps| && EndsAt(items, s, steps, id, status, i)
  {
    hide StateAt, After, EndsAt, DistinctIds, Initial;
    StateStart(items, s, steps);
    StatusBy(items, s, steps, id, status, |steps|);
  }
}
