/** What a start that gets its turn takes over, over every run of the starts. */
module TurnsTakeover {
  import opened Wrappers
  import opened Commands
  import opened Turns
  import opened TurnsInvariant
  import opened TurnsOutcomes

  // -- The start before ------------------------------------------------------------------

  predicate SamePrevious(m: Turns, n: Turns, t: nat) {
    t < |m.starts| <= |n.starts| && n.starts[t].previous == m.starts[t].previous
  }

  lemma TurnsKeepPrevious(m: Turns, u: nat, outcome: Outcome, t: nat)
    requires u < |m.starts| && t < |m.starts|
    ensures SamePrevious(m, BeginStep(m, u), t) && SamePrevious(m, GiveUpStep(m, u, outcome), t)
    ensures SamePrevious(m, Finish(m, u, outcome), t)
  {
  }

  lemma PreviousKept(m: Turns, step: Step, t: nat)
    requires Enabled(m, step) && t < |m.starts|
    ensures SamePrevious(m, Apply(m, step), t)
  {
    hide BeginStep, GiveUpStep, Finish;
    match step
    case Begin(u) => TurnsKeepPrevious(m, u, Cancelled, t);
    case GiveUp(u, outcome) => TurnsKeepPrevious(m, u, outcome, t);
    case Resume(u) => TurnsKeepPrevious(m, u, Ended(if u in m.aborted then ABORT else EndStatus(m.starts[u].handler.end)), t);
    case Unwound(u) => TurnsKeepPrevious(m, u, Cancelled, t);
    case _ =>
  }

  lemma ArriveReplaces(m: Turns)
    requires MarkInv(m)
    ensures var n, t := ArriveStep(m), |m.starts|;
      && |n.starts| == t + 1 && n.starts[t].takeover == Queued
      && n.starts[t].previous == if t > 0 && !IsOver(m.starts[t - 1]) then Some(t - 1) else None
  {
  }

  /** In every run, a start replaces the start that arrived just before it when that one has not
      ended, and none otherwise, and this never changes. */
  lemma {:induction false} ReplacesLatest(steps: seq<Step>, i: nat, j: nat)
    requires ValidRun(INIT, steps) && i < j <= |steps| && steps[i] == Arrive
    ensures var t := |At(steps, i).starts|;
      && t < |At(steps, j).starts|
      && At(steps, j).starts[t].previous == if t > 0 && !IsOver(At(steps, i).starts[t - 1]) then Some(t - 1) else None
    decreases j
  {
    hide At, Inv, Apply, Enabled;
    AtNext(steps, j - 1);
    if i + 1 < j {
      ReplacesLatest(steps, i, j - 1);
      PreviousKept(At(steps, j - 1), steps[j - 1], |At(steps, i).starts|);
    } else {
      ArriveReplacesAt(At(steps, i));
    }
  }

  lemma ArriveReplacesAt(m: Turns)
    requires Inv(m)
    ensures var n, t := Apply(m, Arrive), |m.starts|;
      && |n.starts| == t + 1
      && n.starts[t].previous == if t > 0 && !IsOver(m.starts[t - 1]) then Some(t - 1) else None
  {
    ArriveReplaces(m);
    hide ArriveStep;
  }

  // -- Handlers --------------------------------------------------------------------------

  /** A start got its turn before anything overtook it. */
  ghost predicate BeganAt(steps: seq<Step>, t: nat, j: nat)
    requires ValidRun(INIT, steps)
  {
    j < |steps| && steps[j] == Begin(t) && !OvertakenBefore(steps, t, j)
  }

  ghost predicate BeganBefore(steps: seq<Step>, t: nat, i: nat)
    requires ValidRun(INIT, steps)
  {
    exists j: nat :: j < i && BeganAt(steps, t, j)
  }

  lemma BeganNext(steps: seq<Step>, t: nat, i: nat)
    requires ValidRun(INIT, steps)
    ensures BeganBefore(steps, t, i + 1) <==> BeganBefore(steps, t, i) || BeganAt(steps, t, i)
  {
    hide BeganAt;
  }

  /** What a step makes of a handler. */
  predicate Handles(m: Turns, step: Step, n: Turns, t: nat, end: HandlerEnd) {
    && t < |m.starts| && t < |n.starts|
    && var s, r := m.starts[t], n.starts[t];
       && (r.handler != Unborn <==> s.handler != Unborn || (step == Begin(t) && t !in m.aborted))
       && (r.handler == Done(end) <==> s.handler == Done(end) || step == HandlerEnds(t, end))
  }

  lemma NamedHandles(m: Turns, step: Step, t: nat, end: HandlerEnd)
    requires Enabled(m, step) && Names(step, t) && t < |m.starts| && PhaseInv(m.starts[t])
    ensures Handles(m, step, Apply(m, step), t, end)
  {
  }

  lemma StepHandles(m: Turns, step: Step, t: nat, end: HandlerEnd)
    requires Inv(m) && Enabled(m, step) && t < |m.starts|
    ensures Handles(m, step, Apply(m, step), t, end)
  {
    hide LockInv, MarkInv, Apply, Enabled;
    assert StartInv(m, t);
    if Names(step, t) { NamedHandles(m, step, t, end); } else { OthersLeave(m, step, t); }
  }

  lemma NamedIsThere(m: Turns, step: Step, t: nat)
    requires Enabled(m, step) && Names(step, t)
    ensures t < |m.starts|
  {
  }

  lemma NotNamedYet(steps: seq<Step>, i: nat, t: nat)
    requires ValidRun(INIT, steps) && i <= |steps| && t >= |At(steps, i).starts|
    ensures !BeganBefore(steps, t, i)
    ensures forall end :: HandlerEnds(t, end) !in steps[..i]
  {
    hide At, Inv, Apply, Enabled, OvertakenBefore;
    forall j: nat | j < i ensures !Names(steps[j], t) {
      AtNext(steps, j);
      StartsGrow(steps, j, i);
      if Names(steps[j], t) { NamedIsThere(At(steps, j), steps[j], t); }
    }
  }

  /** In every run, the handler of a start began exactly when it got its turn before anything
      overtook it, and is done exactly when it ended, and how. */
  lemma {:induction false} HandlerIs(steps: seq<Step>, i: nat, t: nat, end: HandlerEnd)
    requires ValidRun(INIT, steps) && i <= |steps| && t < |At(steps, i).starts|
    ensures At(steps, i).starts[t].handler != Unborn <==> BeganBefore(steps, t, i)
    ensures At(steps, i).starts[t].handler == Done(end) <==> HandlerEnds(t, end) in steps[..i]
    decreases i
  {
    hide At, Inv, Apply, Enabled, OvertakenBefore, MarkedIff;
    NoStarts(steps);
    if i > 0 {
      AtNext(steps, i - 1);
      var m := At(steps, i - 1);
      assert steps[..i] == steps[..i - 1] + [steps[i - 1]];
      BeganNext(steps, t, i - 1);
      if t < |m.starts| {
        HandlerIs(steps, i - 1, t, end);
        StepHandles(m, steps[i - 1], t, end);
        if steps[i - 1] == Begin(t) { MarkedIsOvertaken(steps, i - 1, t); }
        hide BeganBefore;
      } else {
        NewIsNotOvertaken(m, steps[i - 1], t);
        NotNamedYet(steps, i - 1, t);
      }
    }
  }

  lemma MarkedIsOvertaken(steps: seq<Step>, i: nat, t: nat)
    requires ValidRun(INIT, steps) && i < |steps| && steps[i] == Begin(t)
    ensures t < |At(steps, i).starts| && (t in At(steps, i).aborted <==> OvertakenBefore(steps, t, i))
  {
    AtNext(steps, i);
    MarkedAt(steps, i);
    OvertakenIff(steps, t, i);
    hide At, OvertakenBefore;
  }

  // -- Turns -----------------------------------------------------------------------------

  /** A start takes the lock, as the first of those that wait for it, and takes over: it stops
      the handler of the start before it when that one runs, waits for the end of that start
      when it only ran, and has its turn at once when there is nothing to wait for. */
  predicate TakesTurn(m: Turns, n: Turns, t: nat) {
    && t < |m.starts| == |n.starts| && m.starts[t].takeover == Queued && n.holder == Some(t)
    && (forall u | 0 <= u < t :: m.starts[u].takeover != Queued)
    && (forall u | 0 <= u < |m.starts| && u != t :: n.starts[u] == m.starts[u])
    && var p := m.starts[t].previous;
       var before := if p.Some? && p.value < |m.starts| then m.starts[p.value].handler else Unborn;
       && (n.starts[t].takeover == HaltingBackend <==> before == Live)
       && (n.starts[t].takeover == AwaitingTask <==> before.Done?)
       && (n.starts[t].takeover == Taken <==> before == Unborn)
  }

  lemma AcquireTakes(m: Turns)
    requires LockInv(m) && Enabled(m, Acquire)
    ensures TakesTurn(m, AcquireStep(m), m.waiters[0])
  {
    var t := m.waiters[0];
    forall u | 0 <= u < t ensures m.starts[u].takeover != Queued {
      assert m.starts[u].takeover == Queued ==> u in m.waiters;
    }
  }

  /** In every run, the lock goes to the start that waits longest, and it stops the handler of the
      start it replaced exactly when that one runs. */
  lemma TurnIsTaken(steps: seq<Step>, i: nat)
    requires ValidRun(INIT, steps) && i < |steps| && steps[i] == Acquire
    ensures var m, n := At(steps, i), At(steps, i + 1); m.holder == None && exists t: nat :: TakesTurn(m, n, t)
  {
    AtNext(steps, i);
    hide At, TakesTurn, HolderInv, QueueInv, OrderInv, MarkInv, StartInv;
    AcquireTakes(At(steps, i));
  }
}
