/** What becomes of each start of a component, told from the steps of a run. */
module TurnsOutcomes {
  import opened Wrappers
  import opened Commands
  import opened Turns
  import opened TurnsInvariant
  import TurnsTheorems

  // -- The states of a run ---------------------------------------------------------------

  /** The state of a run before its i-th step. */
  function At(steps: seq<Step>, i: nat): Turns
    requires ValidRun(INIT, steps) && i <= |steps|
  {
    Prefix(INIT, steps, i);
    After(INIT, steps[..i])
  }

  lemma {:induction false} Prefix(m: Turns, steps: seq<Step>, i: nat)
    requires ValidRun(m, steps) && i <= |steps|
    ensures ValidRun(m, steps[..i]) && (i < |steps| ==> Enabled(After(m, steps[..i]), steps[i]))
    decreases i
  {
    if i > 0 {
      Prefix(Apply(m, steps[0]), steps[1..], i - 1);
      assert steps[..i][1..] == steps[1..][..i - 1];
    }
  }

  lemma AtNext(steps: seq<Step>, i: nat)
    requires ValidRun(INIT, steps) && i < |steps|
    ensures Inv(At(steps, i)) && Enabled(At(steps, i), steps[i]) && At(steps, i + 1) == Apply(At(steps, i), steps[i])
  {
    hide Inv, Enabled, Apply, ValidRun, After;
    Prefix(INIT, steps, i);
    TurnsTheorems.Next(steps, i, After(INIT, steps[..i]));
    InvOfInit();
    InvAfter(INIT, steps[..i]);
  }

  lemma InvOfInit()
    ensures Inv(INIT)
  {
  }

  // -- Marks and overtaking --------------------------------------------------------------

  /** A start that has not ended is marked exactly when it was overtaken. */
  predicate MarkedIff(m: Turns) {
    forall i: nat | i < |m.starts| && !IsOver(m.starts[i]) :: i in m.aborted <==> m.starts[i].overtaken
  }

  lemma OvertakingMarks(m: Turns, step: Step)
    requires MarkInv(m) && MarkedIff(m) && (step.Arrive? || step.StopReached?)
    ensures MarkedIff(Apply(m, step))
  {
    forall i: nat | i < |m.starts| && !IsOver(m.starts[i]) ensures i in Apply(m, step).aborted {
      assert m.start == Some(i) || i in m.aborted;
    }
    assert |m.starts| !in m.aborted;
    hide MarkInv;
  }

  lemma MarkStays(m: Turns, step: Step, i: nat)
    requires Enabled(m, step) && !step.Arrive? && !step.StopReached? && i < |m.starts| <= |Apply(m, step).starts|
    requires IsOver(m.starts[i]) || (i in m.aborted <==> m.starts[i].overtaken)
    ensures IsOver(Apply(m, step).starts[i]) || (i in Apply(m, step).aborted <==> Apply(m, step).starts[i].overtaken)
  {
    hide OvertakeAll;
  }

  lemma SameStarts(m: Turns, step: Step)
    requires Enabled(m, step) && !step.Arrive?
    ensures |Apply(m, step).starts| == |m.starts|
  {
  }

  lemma MarkedKeeps(m: Turns, step: Step)
    requires Inv(m) && MarkedIff(m) && Enabled(m, step)
    ensures MarkedIff(Apply(m, step))
  {
    hide LockInv, StartInv;
    if step.Arrive? || step.StopReached? {
      OvertakingMarks(m, step);
    } else {
      hide MarkInv, Apply, Enabled;
      SameStarts(m, step);
      forall i: nat | i < |m.starts| && !IsOver(Apply(m, step).starts[i])
        ensures i in Apply(m, step).aborted <==> Apply(m, step).starts[i].overtaken
      {
        MarkStays(m, step, i);
      }
    }
  }

  lemma {:induction false} MarkedAt(steps: seq<Step>, i: nat)
    requires ValidRun(INIT, steps) && i <= |steps|
    ensures MarkedIff(At(steps, i))
    decreases i
  {
    if i > 0 {
      hide At, Inv, MarkedIff, Apply, Enabled;
      MarkedAt(steps, i - 1);
      AtNext(steps, i - 1);
      MarkedKeeps(At(steps, i - 1), steps[i - 1]);
    }
  }

  /** The i-th step of a run is a newer start or a stop, and start `t` has not ended. */
  ghost predicate OvertakesAt(steps: seq<Step>, t: nat, i: nat)
    requires ValidRun(INIT, steps)
  {
    && i < |steps| && (steps[i].Arrive? || steps[i].StopReached?)
    && t < |At(steps, i).starts| && !At(steps, i).starts[t].phase.Over?
  }

  ghost predicate OvertakenBefore(steps: seq<Step>, t: nat, i: nat)
    requires ValidRun(INIT, steps)
  {
    exists j: nat :: j < i && OvertakesAt(steps, t, j)
  }

  lemma OvertakenNext(steps: seq<Step>, t: nat, i: nat)
    requires ValidRun(INIT, steps)
    ensures OvertakenBefore(steps, t, i + 1) <==> OvertakenBefore(steps, t, i) || OvertakesAt(steps, t, i)
  {
    hide OvertakesAt;
  }

  lemma StepOvertakes(m: Turns, step: Step, t: nat)
    requires Enabled(m, step) && t < |m.starts|
    ensures t < |Apply(m, step).starts|
    ensures Apply(m, step).starts[t].overtaken
            <==> m.starts[t].overtaken || ((step.Arrive? || step.StopReached?) && !m.starts[t].phase.Over?)
  {
  }

  lemma NewIsNotOvertaken(m: Turns, step: Step, t: nat)
    requires Enabled(m, step) && |m.starts| <= t < |Apply(m, step).starts|
    ensures !Apply(m, step).starts[t].overtaken && Apply(m, step).starts[t].handler == Unborn
    ensures Apply(m, step).starts[t].phase == Waiting && step == Arrive
  {
  }

  lemma {:induction false} StartsGrow(steps: seq<Step>, i: nat, j: nat)
    requires ValidRun(INIT, steps) && i <= j <= |steps|
    ensures |At(steps, i).starts| <= |At(steps, j).starts|
    decreases j
  {
    if i < j {
      hide At, Inv, Apply, Enabled;
      StartsGrow(steps, i, j - 1);
      AtNext(steps, j - 1);
      TurnsTheorems.StartsStay(At(steps, j - 1), steps[j - 1]);
    }
  }

  /** In every run a start counts as overtaken exactly when a newer start or a stop came while
      it had not ended. */
  lemma {:induction false} OvertakenIff(steps: seq<Step>, t: nat, i: nat)
    requires ValidRun(INIT, steps) && i <= |steps| && t < |At(steps, i).starts|
    ensures At(steps, i).starts[t].overtaken <==> OvertakenBefore(steps, t, i)
    decreases i
  {
    hide At, Inv, Apply, Enabled;
    NoStarts(steps);
    if i > 0 {
      AtNext(steps, i - 1);
      if t < |At(steps, i - 1).starts| {
        OvertakenIff(steps, t, i - 1);
        StepOvertakes(At(steps, i - 1), steps[i - 1], t);
        OvertakenNext(steps, t, i - 1);
        assert OvertakesAt(steps, t, i - 1) <==>
               (steps[i - 1].Arrive? || steps[i - 1].StopReached?) && !At(steps, i - 1).starts[t].phase.Over?;
        hide OvertakesAt, OvertakenBefore;
      } else {
        NewIsNotOvertaken(At(steps, i - 1), steps[i - 1], t);
        forall j: nat | j < i ensures !OvertakesAt(steps, t, j) { StartsGrow(steps, j, i - 1); }
      }
    }
  }

  lemma NoStarts(steps: seq<Step>)
    requires ValidRun(INIT, steps)
    ensures At(steps, 0).starts == []
  {
  }

  // -- Turns -----------------------------------------------------------------------------

  /** In every run: a start that goes on with its turn begins its handler exactly when neither a
      newer start nor a stop came since it arrived. Otherwise it ends with ABORT. */
  lemma BeginsIffNotOvertaken(steps: seq<Step>, i: nat, t: nat)
    requires ValidRun(INIT, steps) && i < |steps| && steps[i] == Begin(t)
    ensures t < |At(steps, i).starts| == |At(steps, i + 1).starts|
    ensures var s, overtaken := At(steps, i + 1).starts[t], OvertakenBefore(steps, t, i);
      && (s.handler == Live && s.phase == Running <==> !overtaken)
      && (s.phase == Over(Ended(ABORT)) && s.handler == Unborn <==> overtaken)
  {
    AtNext(steps, i);
    MarkedAt(steps, i);
    OvertakenIff(steps, t, i);
    assert StartInv(At(steps, i), t);
    hide At, LockInv, MarkInv, OvertakenBefore;
  }

  // -- Outcomes --------------------------------------------------------------------------

  /** The status of a handler that ran undisturbed: OK when it returned, the status its exception
      names, or ERROR when it names none or OK, and ABORT when it was cancelled. */
  predicate Reports(end: HandlerEnd, status: Status) {
    match end
    case Returned => status == OK
    case Raised(None) => status == ERROR
    case Raised(Some(named)) => status == if named == OK then ERROR else named
    case WasCancelled => status == ABORT
  }

  lemma EndReports(end: HandlerEnd)
    ensures Reports(end, EndStatus(end))
  {
  }

  /** How a start that began its handler ended. */
  predicate RanInv(s: Start, cancelled: bool) {
    && (cancelled ==> s.handler != Unborn && s.phase in {Unwinding, Over(Cancelled)})
    && (s.phase == Unwinding ==> cancelled)
    && (s.handler != Unborn && s.phase.Over? ==>
          && s.handler.Done?
          && if cancelled then s.phase.outcome == Cancelled
             else s.phase.outcome.Ended?
                  && if s.overtaken then s.phase.outcome.status == ABORT else Reports(s.handler.end, s.phase.outcome.status))
  }

  lemma ResumeEnds(m: Turns, t: nat)
    requires Inv(m) && MarkedIff(m) && Enabled(m, Resume(t)) && RanInv(m.starts[t], false)
    ensures t < |ResumeStep(m, t).starts| && RanInv(ResumeStep(m, t).starts[t], false)
  {
    EndReports(m.starts[t].handler.end);
    assert StartInv(m, t);
    hide LockInv, MarkInv, EndStatus, Reports;
  }

  /** The steps that name a start, and those that name another or none. */
  predicate Names(step: Step, t: nat) {
    match step
    case Begin(u) => u == t
    case GiveUp(u, _) => u == t
    case HandlerEnds(u, _) => u == t
    case Resume(u) => u == t
    case CancelSeen(u) => u == t
    case Unwound(u) => u == t
    case _ => false
  }

  lemma OthersLeave(m: Turns, step: Step, t: nat)
    requires Enabled(m, step) && t < |m.starts| && !Names(step, t)
    ensures t < |Apply(m, step).starts|
    ensures var s, r := m.starts[t], Apply(m, step).starts[t];
      r.handler == s.handler && r.phase == s.phase && (r.overtaken == s.overtaken || !s.phase.Over?)
  {
  }

  lemma StepRan(m: Turns, step: Step, t: nat, cancelled: bool)
    requires Inv(m) && MarkedIff(m) && Enabled(m, step) && t < |m.starts| && RanInv(m.starts[t], cancelled)
    ensures t < |Apply(m, step).starts|
    ensures RanInv(Apply(m, step).starts[t], cancelled || step == CancelSeen(t))
  {
    if !Names(step, t) {
      hide Inv, MarkedIff, Apply, Enabled;
      OthersLeave(m, step, t);
    } else if step.Resume? {
      hide Inv, MarkedIff, ResumeStep, Reports;
      ResumeEnds(m, t);
    } else {
      assert StartInv(m, t);
      hide LockInv, MarkInv, MarkedIff, Reports;
    }
  }

  lemma NewIsRan(m: Turns, step: Step, t: nat)
    requires Enabled(m, step) && |m.starts| <= t < |Apply(m, step).starts|
    ensures RanInv(Apply(m, step).starts[t], false) && step == Arrive
  {
    hide Apply, Enabled;
    NewIsNotOvertaken(m, step, t);
  }

  lemma CancelNames(m: Turns, t: nat)
    ensures Enabled(m, CancelSeen(t)) ==> t < |m.starts|
  {
  }

  lemma {:induction false} RanAt(steps: seq<Step>, i: nat, t: nat)
    requires ValidRun(INIT, steps) && i <= |steps|
    ensures if t < |At(steps, i).starts| then RanInv(At(steps, i).starts[t], CancelSeen(t) in steps[..i])
            else CancelSeen(t) !in steps[..i]
    decreases i
  {
    hide At, Inv, Apply, MarkedIff, RanInv, Enabled;
    NoStarts(steps);
    if i > 0 {
      RanAt(steps, i - 1, t);
      AtNext(steps, i - 1);
      MarkedAt(steps, i - 1);
      assert steps[..i] == steps[..i - 1] + [steps[i - 1]];
      var m := At(steps, i - 1);
      CancelNames(m, t);
      if t < |m.starts| {
        StepRan(m, steps[i - 1], t, CancelSeen(t) in steps[..i - 1]);
      } else if t < |At(steps, i).starts| {
        NewIsRan(m, steps[i - 1], t);
      }
    }
  }

  /** How a start that never began its handler ended. */
  predicate UnrunInv(s: Start, past: seq<Step>, t: nat) {
    s.handler == Unborn && s.phase.Over? ==>
      GiveUp(t, s.phase.outcome) in past || (s.phase.outcome == Ended(ABORT) && s.overtaken && Begin(t) in past)
  }

  lemma StepUnrun(m: Turns, step: Step, t: nat, past: seq<Step>)
    requires Inv(m) && MarkedIff(m) && Enabled(m, step) && t < |m.starts| && UnrunInv(m.starts[t], past, t)
    ensures t < |Apply(m, step).starts| && UnrunInv(Apply(m, step).starts[t], past + [step], t)
  {
    assert (past + [step])[|past|] == step && forall x <- past :: x in past + [step];
    if !Names(step, t) {
      hide Inv, MarkedIff, Apply, Enabled;
      OthersLeave(m, step, t);
    } else {
      assert StartInv(m, t);
      hide LockInv, MarkInv;
    }
  }

  lemma NewIsUnrun(m: Turns, step: Step, t: nat, past: seq<Step>)
    requires Enabled(m, step) && |m.starts| <= t < |Apply(m, step).starts|
    ensures UnrunInv(Apply(m, step).starts[t], past, t)
  {
    NewIsNotOvertaken(m, step, t);
    hide Apply, Enabled;
  }

  lemma {:induction false} UnrunAt(steps: seq<Step>, i: nat, t: nat)
    requires ValidRun(INIT, steps) && i <= |steps| && t < |At(steps, i).starts|
    ensures UnrunInv(At(steps, i).starts[t], steps[..i], t)
    decreases i
  {
    hide At, Inv, Apply, MarkedIff, UnrunInv, Enabled;
    NoStarts(steps);
    if i > 0 {
      AtNext(steps, i - 1);
      MarkedAt(steps, i - 1);
      assert steps[..i] == steps[..i - 1] + [steps[i - 1]];
      var m := At(steps, i - 1);
      if t < |m.starts| {
        UnrunAt(steps, i - 1, t);
        StepUnrun(m, steps[i - 1], t, steps[..i - 1]);
      } else {
        NewIsUnrun(m, steps[i - 1], t, steps[..i]);
      }
    }
  }

  /** In every run, of a start that has ended. If it ran, it ended cancelled when the engine
      cancelled it, else with ABORT when a newer start or a stop overtook it, and else with
      what its handler reports. If it never ran, it gave up with that very outcome, or it was
      overtaken and ended with ABORT as its turn came. */
  lemma StartOutcomes(steps: seq<Step>, t: nat)
    requires ValidRun(INIT, steps) && t < |After(INIT, steps).starts| && After(INIT, steps).starts[t].phase.Over?
    ensures var s := After(INIT, steps).starts[t];
      var outcome := s.phase.outcome;
      if s.handler == Unborn then
        GiveUp(t, outcome) in steps || (outcome == Ended(ABORT) && OvertakenBefore(steps, t, |steps|) && Begin(t) in steps)
      else
        && s.handler.Done?
        && (CancelSeen(t) in steps ==> outcome == Cancelled)
        && (CancelSeen(t) !in steps && OvertakenBefore(steps, t, |steps|) ==> outcome == Ended(ABORT))
        && (CancelSeen(t) !in steps && !OvertakenBefore(steps, t, |steps|) ==> outcome.Ended? && Reports(s.handler.end, outcome.status))
  {
    assert steps[..|steps|] == steps;
    assert At(steps, |steps|) == After(INIT, steps);
    hide At, After, ValidRun, Reports, OvertakenBefore;
    OvertakenIff(steps, t, |steps|);
    RanAt(steps, |steps|, t);
    UnrunAt(steps, |steps|, t);
  }
}
