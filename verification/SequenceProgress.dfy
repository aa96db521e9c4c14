/** The sequence of an execute always comes to its end. */
module SequenceProgress {
  import opened Commands
  import opened Sequence
  import opened SequenceProofs

  /** A step of the sequence itself, not of its session or of the command table. */
  predicate Moves(step: Step) {
    !step.Cancel? && !step.Forget?
  }

  function MovesOf(steps: seq<Step>): nat {
    if steps == [] then 0 else (if Moves(steps[0]) then 1 else 0) + MovesOf(steps[1..])
  }

  // -- The steps that are left -----------------------------------------------------------

  /** How many steps a branch may still take. */
  function LeftOf(branch: seq<Id>, phase: BranchPhase): nat {
    match phase
    case At(k) => if k <= |branch| then 2 * (|branch| - k) + 1 else 0
    case InUnit(k) => if k < |branch| then 2 * (|branch| - k) else 0
    case _ => 0
  }

  function Left(branches: seq<seq<Id>>, phases: seq<BranchPhase>): nat {
    if branches == [] || phases == [] then 0
    else LeftOf(branches[0], phases[0]) + Left(branches[1..], phases[1..])
  }

  /** The steps of an item: those of its branches, its start and its end. */
  function Whole(item: Item): nat {
    Left(Branches(item), seq(|Branches(item)|, _ => At(0))) + 2
  }

  function WholeFrom(items: seq<Item>, from: nat): nat
    decreases |items| - from
  {
    if from >= |items| then 0 else Whole(items[from]) + WholeFrom(items, from + 1)
  }

  function Remaining(items: seq<Item>, s: State): nat {
    match s.phase
    case Before => WholeFrom(items, s.item) + 1
    case InItem => Left(Current(items, s), s.branches) + WholeFrom(items, s.item + 1) + 2
    case Finished => 0
    case Swept => Left(Current(items, s), s.branches)
  }

  lemma {:induction false} LeftAfter(branches: seq<seq<Id>>, phases: seq<BranchPhase>, b: nat, phase: BranchPhase)
    requires b < |branches| && b < |phases|
    ensures Left(branches, phases[b := phase]) == Left(branches, phases) - LeftOf(branches[b], phases[b]) + LeftOf(branches[b], phase)
    decreases b
  {
    if b > 0 {
      LeftAfter(branches[1..], phases[1..], b - 1, phase);
      assert phases[b := phase][1..] == phases[1..][b - 1 := phase];
    } else {
      assert phases[b := phase][1..] == phases[1..];
    }
  }

  /** Where the branches of an item can be. */
  predicate Placed(items: seq<Item>, s: State) {
    && Shape(items, s) && (s.phase == Before ==> s.item < |items|)
    && (BranchCancelled in s.branches ==> s.cancelled)
    && forall b | 0 <= b < |s.branches| && b < |Current(items, s)| ::
         match s.branches[b] {
           case At(k) => k <= |Current(items, s)[b]|
           case InUnit(k) => k < |Current(items, s)[b]|
           case _ => true
         }
  }

  /** Skipping and completing change neither phase nor branches. */
  predicate SameTasks(s: State, n: State) {
    n.phase == s.phase && n.item == s.item && n.branches == s.branches && n.cancelled == s.cancelled
  }

  lemma {:induction false} SkipIsQuiet(s: State, ids: seq<Id>)
    ensures SameTasks(s, Skip(s, ids))
    decreases |ids|
  {
    if ids != [] {
      SkipIsQuiet(if ids[0] in s.table && !s.table[ids[0]].running then Complete(s, ids[0], ABORT) else s, ids[1..]);
    }
  }

  /** What a step makes of the branches. */
  ghost predicate Advances(items: seq<Item>, s: State, n: State, b: nat) {
    && b < |s.branches| && n.phase == s.phase && n.item == s.item && n.cancelled == s.cancelled
    && exists phase :: n.branches == s.branches[b := phase] && Later(items, s, b, phase)
  }

  predicate Later(items: seq<Item>, s: State, b: nat, phase: BranchPhase)
    requires b < |s.branches|
  {
    && b < |Current(items, s)| && (phase == BranchCancelled ==> s.cancelled)
    && match s.branches[b] {
         case At(k) => k <= |Current(items, s)[b]| && (phase.BranchOver? || phase.BranchCancelled? || (phase == InUnit(k) && k < |Current(items, s)[b]|))
         case InUnit(k) => k < |Current(items, s)[b]| && (phase.BranchOver? || phase.BranchCancelled? || phase == At(k + 1))
         case _ => false
       }
  }

  lemma AfterAdvances(items: seq<Item>, s: State, m: State, b: nat, status: Status)
    requires SameTasks(s, m) && (InsideUnit(items, s, b) || (BeforeUnit(items, s, b) && status != OK))
    ensures Advances(items, s, AfterUnit(items, m, b, s.branches[b].index, status), b)
  {
    var k := s.branches[b].index;
    SkipIsQuiet(m, Current(items, m)[b][k + 1..]);
    var phase := if status == OK then At(k + 1) else BranchOver(false);
    assert Later(items, s, b, phase);
  }

  lemma StepAdvances(items: seq<Item>, s: State, step: Step, b: nat)
    requires Enabled(items, s, step)
    requires step == BranchEnds(b) || step == UnitMissing(b) || step == UnitCancelled(b) || step == SleepCancelled(b)
             || step == BeginUnit(b) || (step.EndUnit? && step.branch == b)
    requires step.SleepCancelled? ==> Placed(items, s)
    ensures Advances(items, s, Apply(items, s, step), b)
  {
    hide Skip, AfterUnit, Shape;
    match step
    case EndUnit(_, status) =>
      AfterAdvances(items, s, Complete(SetRunning(s, UnitOf(items, s, b), false), UnitOf(items, s, b), status), b, status);
    case UnitMissing(_) => AfterAdvances(items, s, Complete(s, UnitOf(items, s, b), ERROR), b, ERROR);
    case BeginUnit(_) => assert Later(items, s, b, InUnit(s.branches[b].index));
    case BranchEnds(_) => assert Later(items, s, b, BranchOver(true));
    case UnitCancelled(_) => assert Later(items, s, b, BranchCancelled);
    case SleepCancelled(_) => assert Later(items, s, b, BranchCancelled);
  }

  lemma AdvanceCounts(items: seq<Item>, s: State, n: State, b: nat)
    requires Placed(items, s) && (s.phase == InItem || s.phase == Swept) && Advances(items, s, n, b)
    ensures Placed(items, n) && Remaining(items, n) < Remaining(items, s)
  {
    var phase :| n.branches == s.branches[b := phase] && Later(items, s, b, phase);
    LeftAfter(Current(items, s), s.branches, b, phase);
    hide Left, WholeFrom;
  }

  lemma StartCounts(items: seq<Item>, s: State)
    requires Placed(items, s) && Enabled(items, s, StartItem)
    ensures var n := Apply(items, s, StartItem); Placed(items, n) && Remaining(items, n) < Remaining(items, s)
  {
    hide Left;
  }

  /** The next item begins, or the sequence is finished. */
  predicate GoesOn(items: seq<Item>, s: State, n: State) {
    n.branches == [] && ((n.phase == Before && n.item == s.item + 1 < |items|) || n.phase == Finished)
  }

  lemma GatherGoesOn(items: seq<Item>, s: State)
    ensures GoesOn(items, s, GatherStep(items, s))
  {
    hide Skip;
    SkipIsQuiet(s, UnitsFrom(items, s.item + 1));
  }

  lemma GatherCounts(items: seq<Item>, s: State)
    requires Placed(items, s) && Enabled(items, s, Gathered)
    ensures var n := Apply(items, s, Gathered); Placed(items, n) && Remaining(items, n) < Remaining(items, s)
  {
    hide Left, WholeFrom, GatherStep;
    GatherGoesOn(items, s);
  }

  lemma SweepCounts(items: seq<Item>, s: State)
    requires Placed(items, s) && Enabled(items, s, Sweep)
    ensures var n := Apply(items, s, Sweep); Placed(items, n) && Remaining(items, n) < Remaining(items, s)
  {
    SkipIsQuiet(s, UnitsFrom(items, 0));
    hide WholeFrom, Skip;
  }

  /** Each step of the sequence leaves fewer to take, and no other step leaves more. */
  lemma StepCounts(items: seq<Item>, s: State, step: Step)
    requires Placed(items, s) && Enabled(items, s, step)
    ensures var n := Apply(items, s, step); Placed(items, n) && Remaining(items, n) <= Remaining(items, s) - (if Moves(step) then 1 else 0)
  {
    hide Left, WholeFrom, Skip, Advances, AfterUnit, UnitsFrom;
    match step
    case StartItem => StartCounts(items, s);
    case Gathered => GatherCounts(items, s);
    case Sweep => SweepCounts(items, s);
    case Cancel =>
    case Forget(_) =>
    case EndUnit(b, _) => StepAdvances(items, s, step, b); AdvanceCounts(items, s, Apply(items, s, step), b);
    case BeginUnit(b) => StepAdvances(items, s, step, b); AdvanceCounts(items, s, Apply(items, s, step), b);
    case UnitMissing(b) => StepAdvances(items, s, step, b); AdvanceCounts(items, s, Apply(items, s, step), b);
    case BranchEnds(b) => StepAdvances(items, s, step, b); AdvanceCounts(items, s, Apply(items, s, step), b);
    case UnitCancelled(b) => StepAdvances(items, s, step, b); AdvanceCounts(items, s, Apply(items, s, step), b);
    case SleepCancelled(b) => StepAdvances(items, s, step, b); AdvanceCounts(items, s, Apply(items, s, step), b);
  }

  lemma {:induction false} RunCounts(items: seq<Item>, s: State, steps: seq<Step>)
    requires Placed(items, s) && ValidRun(items, s, steps)
    ensures Placed(items, After(items, s, steps)) && MovesOf(steps) + Remaining(items, After(items, s, steps)) <= Remaining(items, s)
    decreases |steps|
  {
    hide Placed, Remaining, Apply, Enabled;
    if steps != [] {
      StepCounts(items, s, steps[0]);
      RunCounts(items, Apply(items, s, steps[0]), steps[1..]);
    }
  }

  /** A step the sequence can take. A command whose entry is still there begins. */
  predicate CanTake(items: seq<Item>, s: State, step: Step) {
    Moves(step) && Enabled(items, s, step) && (step.UnitMissing? ==> UnitOf(items, s, step.branch) !in s.table)
  }

  /** While a branch is not over, it can take a step. */
  lemma BranchCanMove(items: seq<Item>, s: State, b: nat)
    requires Placed(items, s) && (s.phase == InItem || s.phase == Swept) && b < |s.branches|
    requires if s.phase == InItem then !IsOver(s.branches[b]) else s.branches[b].InUnit?
    ensures exists step :: CanTake(items, s, step)
  {
    match s.branches[b]
    case InUnit(_) => assert CanTake(items, s, EndUnit(b, OK));
    case At(k) =>
      if k == |Current(items, s)[b]| { assert CanTake(items, s, BranchEnds(b)); }
      else if Current(items, s)[b][k] in s.table { assert CanTake(items, s, BeginUnit(b)); }
      else { assert CanTake(items, s, UnitMissing(b)); }
    case _ =>
  }

  lemma CanMove(items: seq<Item>, s: State)
    requires Placed(items, s) && !TasksDone(s)
    ensures exists step :: CanTake(items, s, step)
  {
    if s.phase == Before {
      assert CanTake(items, s, StartItem);
    } else if b: nat :| b < |s.branches| && (if s.phase == InItem then !IsOver(s.branches[b]) else s.branches[b].InUnit?) {
      BranchCanMove(items, s, b);
    } else if BranchCancelled in s.branches {
      assert CanTake(items, s, Sweep);
    } else {
      assert CanTake(items, s, Gathered);
    }
  }

  /** In every run, a sequence takes at most two steps for each command, one for each branch, two
      for each item and one more. As long as its tasks are not done it can take another one, also
      while it is cancelled. */
  lemma SequenceEnds(items: seq<Item>, s: State, steps: seq<Step>)
    requires Initial(items, s) && ValidRun(items, s, steps)
    ensures MovesOf(steps) <= WholeFrom(items, 0) + 1
    ensures !TasksDone(After(items, s, steps)) ==> exists step :: CanTake(items, After(items, s, steps), step)
  {
    RunCounts(items, s, steps);
    if !TasksDone(After(items, s, steps)) { CanMove(items, After(items, s, steps)); }
  }
}
