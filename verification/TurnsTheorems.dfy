/** What holds in every run of the starts of a component. */
module TurnsTheorems {
  import opened Wrappers
  import opened Commands
  import opened Turns
  import opened TurnsInvariant

  // -- Turns are released once -----------------------------------------------------------

  /** In every run a turn is released at most once, exactly when it is past the lock. A turn
      that is taken always has one party left to release it: the start that waits for it, or
      the done-callback of a start that gave up, and never both. */
  lemma ReleasedOnce(steps: seq<Step>, t: nat)
    requires ValidRun(INIT, steps) && t < |After(INIT, steps).starts|
    ensures var s := After(INIT, steps).starts[t];
      && s.released == (if s.takeover == Passed || s.takeover == Failed then 1 else 0)
      && (s.takeover == Taken ==> (s.phase == Waiting) != s.abandoned)
  {
    InvAfter(INIT, steps);
    assert StartInv(After(INIT, steps), t);
  }

  // -- Overtaken starts ------------------------------------------------------------------

  /** In every run a start that a stop or a newer start overtook ends with ABORT, with TIMEOUT
      if it never ran, or by cancellation. Marks and the latest start are always starts that
      have not ended. */
  lemma OvertakenNeverOK(steps: seq<Step>, t: nat)
    requires ValidRun(INIT, steps) && t < |After(INIT, steps).starts|
    ensures var m := After(INIT, steps); var s := m.starts[t];
      && (s.overtaken && s.phase.Over? ==>
            s.phase.outcome == Ended(ABORT) || s.phase.outcome == Cancelled
            || (s.phase.outcome == Ended(TIMEOUT) && s.handler == Unborn))
      && (t in m.aborted || m.start == Some(t) ==> !s.phase.Over?)
  {
    InvAfter(INIT, steps);
    assert StartInv(After(INIT, steps), t);
    hide LockInv, PhaseInv, ReleaseInv;
  }

  // -- One handler at a time -------------------------------------------------------------

  predicate Exclusive(m: Turns) {
    forall i, j | 0 <= i < j < |m.starts| :: !(m.starts[i].handler == Live && m.starts[j].handler == Live)
  }

  /** A running start is the latest, or the start that replaced it still has to wait for it. */
  predicate Guarded(m: Turns, i: nat)
    requires i < |m.starts|
  {
    m.starts[i].phase == Running ==>
      || m.start == Some(i)
      || (i + 1 < |m.starts| && m.starts[i + 1].previous == Some(i)
          && m.starts[i + 1].takeover in {Queued, HaltingBackend, AwaitingTask})
  }

  predicate GuardInv(m: Turns) {
    forall i | 0 <= i < |m.starts| :: Guarded(m, i)
  }

  lemma GuardArrives(m: Turns, i: nat)
    requires Inv(m) && i < |m.starts| && Guarded(m, i)
    ensures Guarded(ArriveStep(m), i)
  {
  }

  lemma GuardAcquires(m: Turns, i: nat)
    requires Inv(m) && Enabled(m, Acquire) && i < |m.starts| && Guarded(m, i)
    ensures Guarded(AcquireStep(m), i)
  {
    assert StartInv(m, i);
    hide LockInv;
  }

  lemma GuardBegins(m: Turns, t: nat, i: nat)
    requires MarkInv(m) && Enabled(m, Begin(t)) && i < |m.starts| && Guarded(m, i)
    ensures Guarded(BeginStep(m, t), i)
  {
    assert m.start == Some(t) || t in m.aborted;
  }

  lemma GuardGoesOn(m: Turns, step: Step, i: nat)
    requires !step.HaltFails? && !step.Arrive? && !step.Acquire? && !step.Begin?
    requires Enabled(m, step) && i < |m.starts| && Guarded(m, i)
    ensures Guarded(Apply(m, step), i)
  {
  }

  lemma GuardStays(m: Turns, step: Step, i: nat)
    requires Inv(m) && Enabled(m, step) && !step.HaltFails? && i < |m.starts| <= |Apply(m, step).starts| && Guarded(m, i)
    ensures Guarded(Apply(m, step), i)
  {
    hide Guarded, ArriveStep, AcquireStep, BeginStep;
    if step.Arrive? { GuardArrives(m, i); }
    else if step.Acquire? { GuardAcquires(m, i); }
    else if step.Begin? { GuardBegins(m, step.turn, i); }
    else { GuardGoesOn(m, step, i); }
  }

  lemma StartsStay(m: Turns, step: Step)
    requires Enabled(m, step)
    ensures |m.starts| <= |Apply(m, step).starts|
  {
  }

  /** A start that arrives does not run. */
  lemma GuardOfNew(m: Turns, step: Step, i: nat)
    requires Enabled(m, step) && |m.starts| <= i < |Apply(m, step).starts|
    ensures Guarded(Apply(m, step), i)
  {
  }

  lemma GuardKeeps(m: Turns, step: Step)
    requires Inv(m) && GuardInv(m) && Enabled(m, step) && !step.HaltFails?
    ensures GuardInv(Apply(m, step))
  {
    hide Inv, Guarded, Enabled, Apply;
    StartsStay(m, step);
    forall i | 0 <= i < |Apply(m, step).starts| ensures Guarded(Apply(m, step), i) {
      if i < |m.starts| { GuardStays(m, step, i); } else { GuardOfNew(m, step, i); }
    }
  }

  predicate NoHaltFails(steps: seq<Step>) {
    forall i | 0 <= i < |steps| :: !steps[i].HaltFails?
  }

  lemma {:induction false} GuardAfter(m: Turns, steps: seq<Step>)
    requires Inv(m) && GuardInv(m) && ValidRun(m, steps) && NoHaltFails(steps)
    ensures Inv(After(m, steps)) && GuardInv(After(m, steps))
    decreases |steps|
  {
    if steps != [] {
      InvKeeps(m, steps[0]);
      GuardKeeps(m, steps[0]);
      GuardAfter(Apply(m, steps[0]), steps[1..]);
    }
  }

  lemma GuardedIsExclusive(m: Turns)
    requires Inv(m) && GuardInv(m)
    ensures Exclusive(m)
  {
    forall i, j | 0 <= i < j < |m.starts| ensures !(m.starts[i].handler == Live && m.starts[j].handler == Live) {
      assert StartInv(m, i) && StartInv(m, j) && Guarded(m, i);
      assert i + 1 < j ==> Rank(m.starts[i + 1].takeover) >= Rank(m.starts[j].takeover);
    }
  }

  /** The runs of a component whose stop handler may, or may not, leave by a cancellation of
      its own while a takeover runs it. */
  ghost predicate ExclusiveInEveryRun(haltMayFail: bool) {
    forall steps | ValidRun(INIT, steps) && (haltMayFail || NoHaltFails(steps)) :: Exclusive(After(INIT, steps))
  }

  lemma {:induction false} RunConcat(m: Turns, a: seq<Step>, b: seq<Step>)
    requires ValidRun(m, a) && ValidRun(After(m, a), b)
    ensures ValidRun(m, a + b) && After(m, a + b) == After(After(m, a), b)
    decreases |a|
  {
    if a == [] {
      assert a + b == b;
    } else {
      RunConcat(Apply(m, a[0]), a[1..], b);
      assert (a + b)[1..] == a[1..] + b;
    }
  }

  /** One more step of a run that is written out. */
  lemma Next(steps: seq<Step>, k: nat, m: Turns)
    requires k < |steps| && ValidRun(INIT, steps[..k]) && After(INIT, steps[..k]) == m && Enabled(m, steps[k])
    ensures ValidRun(INIT, steps[..k + 1]) && After(INIT, steps[..k + 1]) == Apply(m, steps[k])
  {
    assert [steps[k]][1..] == [];
    RunConcat(INIT, steps[..k], [steps[k]]);
    assert steps[..k] + [steps[k]] == steps[..k + 1];
  }

  /** A handler ends and its start resumes. */
  lemma NextEnds(steps: seq<Step>, k: nat, m: Turns, t: nat, end: HandlerEnd) returns (n: Turns)
    requires k + 1 < |steps| && ValidRun(INIT, steps[..k]) && After(INIT, steps[..k]) == m
    requires steps[k] == HandlerEnds(t, end) && steps[k + 1] == Resume(t)
    requires t < |m.starts| && m.starts[t].handler == Live && m.starts[t].phase == Running
    ensures ValidRun(INIT, steps[..k + 2]) && After(INIT, steps[..k + 2]) == n
    ensures n == ResumeStep(Put(m, t, m.starts[t].(handler := Done(end))), t)
  {
    hide ValidRun, After;
    Next(steps, k, m);
    var mid := Put(m, t, m.starts[t].(handler := Done(end)));
    Next(steps, k + 1, mid);
    n := ResumeStep(mid, t);
  }

  function Fresh(previous: Option<nat>): Start {
    Start(previous, Queued, Unborn, Waiting, false, 0, false)
  }

  /** The first start of a component runs. */
  lemma FirstRuns(steps: seq<Step>) returns (m: Turns)
    requires |steps| >= 3 && steps[..3] == [Arrive, Acquire, Begin(0)]
    ensures ValidRun(INIT, steps[..3]) && After(INIT, steps[..3]) == m
    ensures m == Turns([Fresh(None).(takeover := Passed, handler := Live, phase := Running, released := 1)],
                       Some(0), true, {}, None, [], [Reached(0)])
  {
    assert steps[0] == steps[..3][0] && steps[1] == steps[..3][1] && steps[2] == steps[..3][2];
    Next(steps, 0, INIT);
    var m1 := Turns([Fresh(None)], Some(0), true, {}, None, [0], [Reached(0)]);
    assert Apply(INIT, Arrive) == m1;
    Next(steps, 1, m1);
    var m2 := Turns([Fresh(None).(takeover := Taken)], Some(0), true, {}, Some(0), [], [Reached(0)]);
    assert Apply(m1, Acquire) == m2;
    Next(steps, 2, m2);
    m := Apply(m2, Begin(0));
  }

  /** Two starts, where the stop handler fails while the second takes over from the first, and
      a third: the first and the third run at the same time. Then both end. */
  const DOUBLE := [Arrive, Acquire, Begin(0), Arrive, Acquire, HaltFails(1), GiveUp(1, Cancelled), Arrive, Acquire,
                   Begin(2), HandlerEnds(2, Returned), Resume(2), HandlerEnds(0, Returned), Resume(0)]

  const RUNNING := Fresh(None).(takeover := Passed, handler := Live, phase := Running, released := 1)
  const GAVE_UP := Fresh(Some(0)).(takeover := Failed, released := 1, phase := Over(Cancelled), abandoned := true)

  const HALTING := Turns([RUNNING.(overtaken := true), Fresh(Some(0)).(takeover := HaltingBackend)], Some(1), true, {0},
                         Some(1), [], [Reached(0), Reached(1)])

  /** A second start has the lock and runs the stop handler. */
  lemma SecondHalts()
    ensures ValidRun(INIT, DOUBLE[..5]) && After(INIT, DOUBLE[..5]) == HALTING
  {
    hide ValidRun, After;
    var m := FirstRuns(DOUBLE);
    Next(DOUBLE, 3, m);
    var m4 := HALTING.(starts := [RUNNING.(overtaken := true), Fresh(Some(0))], holder := None, waiters := [1]);
    assert ArriveStep(m) == m4;
    Next(DOUBLE, 4, m4);
    assert AcquireStep(m4) == HALTING;
  }

  lemma SecondFails()
    ensures ValidRun(INIT, DOUBLE[..7])
    ensures After(INIT, DOUBLE[..7]) == Turns([RUNNING.(overtaken := true), GAVE_UP], None, false, {0}, None, [],
                                              [Reached(0), Reached(1), Finished(1, Cancelled)])
  {
    hide ValidRun, After;
    SecondHalts();
    Next(DOUBLE, 5, HALTING);
    var m6 := Release(HALTING, 1, Failed);
    assert m6.starts == [RUNNING.(overtaken := true), Fresh(Some(0)).(takeover := Failed, released := 1)];
    Next(DOUBLE, 6, m6);
    assert GiveUpStep(m6, 1, Cancelled).aborted == {0};
  }

  lemma ThirdRuns()
    ensures ValidRun(INIT, DOUBLE[..10])
    ensures After(INIT, DOUBLE[..10]) == Turns([RUNNING.(overtaken := true), GAVE_UP, RUNNING], Some(2), true, {0}, None, [],
                                               [Reached(0), Reached(1), Finished(1, Cancelled), Reached(2)])
  {
    hide ValidRun, After;
    SecondFails();
    var first := RUNNING.(overtaken := true);
    var log := [Reached(0), Reached(1), Finished(1, Cancelled)];
    var m7 := Turns([first, GAVE_UP], None, false, {0}, None, [], log);
    Next(DOUBLE, 7, m7);
    var m8 := Turns([first, GAVE_UP, Fresh(None)], Some(2), true, {0}, None, [2], log + [Reached(2)]);
    assert ArriveStep(m7) == m8;
    Next(DOUBLE, 8, m8);
    var m9 := Turns([first, GAVE_UP, Fresh(None).(takeover := Taken)], Some(2), true, {0}, Some(2), [], log + [Reached(2)]);
    assert AcquireStep(m8) == m9;
    Next(DOUBLE, 9, m9);
    assert BeginStep(m9, 2).starts == [first, GAVE_UP, RUNNING];
  }

  /** A component never has two unfinished start handlers in any run exactly when its stop
      handler never leaves a takeover by a cancellation of its own. */
  lemma ExclusiveIffHaltNeverFails(haltMayFail: bool)
    ensures ExclusiveInEveryRun(haltMayFail) <==> !haltMayFail
  {
    if haltMayFail {
      ThirdRuns();
      var m := After(INIT, DOUBLE[..10]);
      assert m.starts[0].handler == Live && m.starts[2].handler == Live;
      assert !Exclusive(m);
    } else {
      forall steps | ValidRun(INIT, steps) && NoHaltFails(steps) ensures Exclusive(After(INIT, steps)) {
        GuardAfter(INIT, steps);
        GuardedIsExclusive(After(INIT, steps));
      }
    }
  }

  // -- What started means ----------------------------------------------------------------

  /** An event that leaves a component started by `turn` as it is. */
  predicate Keeps(e: Event, turn: nat) {
    match e
    case Reached(_) => false
    case StopRan => false
    case Finished(t, outcome) => t != turn || outcome == Ended(OK)
  }

  /** A start was reached, and since then no other start, no stop, and no end of it but OK. */
  ghost predicate StartedSince(log: seq<Event>, k: nat) {
    k < |log| && log[k].Reached? && forall j | k < j < |log| :: Keeps(log[j], log[k].turn)
  }

  ghost predicate StartedByHistory(log: seq<Event>) {
    exists k: nat :: StartedSince(log, k)
  }

  /** The latest start is the last one the log says was reached. */
  ghost predicate LastReached(log: seq<Event>, k: nat, turn: nat) {
    k < |log| && log[k] == Reached(turn) && NoneReached(log, k + 1)
  }

  predicate NoneReached(log: seq<Event>, from: nat) {
    forall j | from <= j < |log| :: !IsReached(log[j])
  }

  predicate IsReached(e: Event) {
    e.Reached?
  }

  ghost predicate LogInv(m: Turns) {
    if |m.starts| == 0 then NoneReached(m.log, 0)
    else HasLast(m.log, |m.starts| - 1)
  }

  ghost predicate HasLast(log: seq<Event>, turn: nat) {
    exists k: nat :: LastReached(log, k, turn)
  }

  ghost predicate HistoryInv(m: Turns) {
    && LogInv(m)
    && (m.started <==> StartedByHistory(m.log))
    && (|m.starts| > 0 ==>
          var last := m.starts[|m.starts| - 1];
          last.phase.Over? && last.phase.outcome != Ended(OK) ==> !m.started)
  }

  lemma LogGrows(log: seq<Event>, e: Event, k: nat, turn: nat)
    requires LastReached(log, k, turn) && !e.Reached?
    ensures LastReached(log + [e], k, turn)
    ensures StartedByHistory(log + [e]) <==> StartedByHistory(log) && Keeps(e, turn)
  {
    var longer := log + [e];
    if StartedByHistory(longer) {
      var i: nat :| StartedSince(longer, i);
      assert !Keeps(longer[k], longer[i].turn) && IsReached(longer[i]);
      assert i < |log| ==> longer[i] == log[i];
      assert i == k;
      assert forall j | k < j < |log| :: longer[j] == log[j];
      assert StartedSince(log, k);
      assert Keeps(longer[|log|], turn);
    }
    if StartedByHistory(log) && Keeps(e, turn) {
      var i: nat :| StartedSince(log, i);
      assert !Keeps(log[k], log[i].turn) && IsReached(log[i]);
      assert i == k;
      assert StartedSince(longer, k);
    }
  }

  lemma HistoryArrives(m: Turns)
    requires HistoryInv(m)
    ensures HistoryInv(ArriveStep(m))
  {
    var n := ArriveStep(m);
    assert LastReached(n.log, |m.log|, |m.starts|);
    assert StartedSince(n.log, |m.log|);
  }

  lemma HistoryStops(m: Turns, n: Turns)
    requires HistoryInv(m) && n.log == m.log + [StopRan] && !n.started && |n.starts| == |m.starts|
    ensures HistoryInv(n)
  {
    if |m.starts| > 0 {
      var k: nat :| LastReached(m.log, k, |m.starts| - 1);
      LogGrows(m.log, StopRan, k, |m.starts| - 1);
    } else {
      assert forall k: nat | k < |n.log| :: !IsReached(n.log[k]);
    }
  }

  /** A start ends: it ends started exactly when it is the latest and does not end OK. */
  lemma HistoryEnds(m: Turns, n: Turns, t: nat, outcome: Outcome)
    requires HistoryInv(m) && t < |m.starts| == |n.starts| && n.log == m.log + [Finished(t, outcome)]
    requires n.started == (m.started && (t != |m.starts| - 1 || outcome == Ended(OK)))
    requires n.starts[t].phase == Over(outcome)
    requires forall i | 0 <= i < |m.starts| && i != t :: n.starts[i].phase == m.starts[i].phase
    ensures HistoryInv(n)
  {
    var k: nat :| LastReached(m.log, k, |m.starts| - 1);
    LogGrows(m.log, Finished(t, outcome), k, |m.starts| - 1);
  }

  lemma HistorySame(m: Turns, n: Turns)
    requires HistoryInv(m) && |m.starts| == |n.starts| && n.log == m.log && n.started == m.started
    requires forall i | 0 <= i < |m.starts| && IsOver(n.starts[i]) :: n.starts[i].phase == m.starts[i].phase
    ensures HistoryInv(n)
  {
  }

  /** An older start that ends other than OK finds the latest one not ended, or not run. */
  lemma OlderEnds(m: Turns, t: nat)
    requires Inv(m) && GuardInv(m) && HistoryInv(m)
    requires t < |m.starts| - 1 && m.starts[t].phase == Running && m.start == None
    ensures !m.started
  {
    var last := |m.starts| - 1;
    assert Guarded(m, t) && StartInv(m, last) && StartInv(m, t);
    assert Rank(m.starts[t + 1].takeover) <= 1;
    assert t + 1 < last ==> Rank(m.starts[t + 1].takeover) >= Rank(m.starts[last].takeover);
    assert m.starts[last].handler == Unborn;
  }

  /** No engine-side cancellation of a running start, and no stop handler that fails. */
  predicate Undisturbed(step: Step) {
    !step.HaltFails? && !step.CancelSeen?
  }

  predicate NoneUnwinds(m: Turns) {
    forall i | 0 <= i < |m.starts| :: m.starts[i].phase != Unwinding
  }

  lemma UnwindKeeps(m: Turns, step: Step)
    requires NoneUnwinds(m) && Enabled(m, step) && Undisturbed(step)
    ensures NoneUnwinds(Apply(m, step))
  {
  }

  lemma HistoryResumes(m: Turns, t: nat)
    requires Inv(m) && GuardInv(m) && HistoryInv(m) && Enabled(m, Resume(t))
    ensures HistoryInv(ResumeStep(m, t))
  {
    if t < |m.starts| - 1 && m.start == None { OlderEnds(m, t); }
    var n := ResumeStep(m, t);
    HistoryEnds(m, n, t, n.starts[t].phase.outcome);
  }

  lemma HistoryDrops(m: Turns, n: Turns, t: nat, outcome: Outcome)
    requires MarkInv(m) && HistoryInv(m) && t < |m.starts| == |n.starts| && !IsOver(m.starts[t])
    requires n.log == m.log + [Finished(t, outcome)] && outcome != Ended(OK)
    requires n.started == (m.started && m.start != Some(t))
    requires n.starts[t].phase == Over(outcome)
    requires forall i | 0 <= i < |m.starts| && i != t :: n.starts[i].phase == m.starts[i].phase
    ensures HistoryInv(n)
  {
    HistoryEnds(m, n, t, outcome);
  }

  lemma HistoryBegins(m: Turns, t: nat)
    requires MarkInv(m) && HistoryInv(m) && Enabled(m, Begin(t))
    ensures HistoryInv(BeginStep(m, t))
  {
    var n := BeginStep(m, t);
    if t in m.aborted { HistoryDrops(m, n, t, Ended(ABORT)); } else { HistorySame(m, n); }
  }

  lemma HistoryGoesOn(m: Turns, step: Step)
    requires HistoryInv(m) && Enabled(m, step) && Undisturbed(step)
    requires step.Acquire? || step.BackendHalted? || step.TaskAwaited? || step.ReleaseAfter? || step.HandlerEnds?
    ensures HistoryInv(Apply(m, step))
  {
    HistorySame(m, Apply(m, step));
  }

  lemma HistoryKeeps(m: Turns, step: Step)
    requires Inv(m) && GuardInv(m) && HistoryInv(m) && NoneUnwinds(m)
    requires Enabled(m, step) && Undisturbed(step)
    ensures HistoryInv(Apply(m, step))
  {
    assert MarkInv(m);
    hide HistoryInv, GuardInv, LockInv, StartInv, ArriveStep, BeginStep, ResumeStep;
    if step.Arrive? { HistoryArrives(m); }
    else if step.StopReached? || step.Shutdown? { HistoryStops(m, Apply(m, step)); }
    else if step.Begin? { HistoryBegins(m, step.turn); }
    else if step.GiveUp? { HistoryDrops(m, Apply(m, step), step.turn, step.outcome); }
    else if step.Resume? { HistoryResumes(m, step.turn); }
    else if !step.Unwound? { hide *; HistoryGoesOn(m, step); }
  }

  lemma {:induction false} HistoryAfter(m: Turns, steps: seq<Step>)
    requires Inv(m) && GuardInv(m) && HistoryInv(m) && NoneUnwinds(m) && ValidRun(m, steps)
    requires forall i | 0 <= i < |steps| :: Undisturbed(steps[i])
    ensures HistoryInv(After(m, steps))
    decreases |steps|
  {
    if steps != [] {
      assert Undisturbed(steps[0]);
      InvKeeps(m, steps[0]);
      GuardKeeps(m, steps[0]);
      UnwindKeeps(m, steps[0]);
      HistoryKeeps(m, steps[0]);
      HistoryAfter(Apply(m, steps[0]), steps[1..]);
    }
  }

  /** The runs of a component: with or without a start the engine cancels while it runs, and
      with or without a stop handler that fails. */
  predicate Allowed(steps: seq<Step>, cancels: bool, haltMayFail: bool) {
    forall i | 0 <= i < |steps| :: (steps[i].HaltFails? ==> haltMayFail) && (steps[i].CancelSeen? ==> cancels)
  }

  ghost predicate StartedIsHistory(cancels: bool, haltMayFail: bool) {
    forall steps | ValidRun(INIT, steps) && Allowed(steps, cancels, haltMayFail) ::
      After(INIT, steps).started <==> StartedByHistory(After(INIT, steps).log)
  }

  const NEWER_OVER := Turns([RUNNING.(overtaken := true), GAVE_UP, RUNNING.(handler := Done(Returned), phase := Over(Ended(OK)))],
                            None, true, {0}, None, [],
                            [Reached(0), Reached(1), Finished(1, Cancelled), Reached(2), Finished(2, Ended(OK))])

  lemma NewerEnds()
    ensures ValidRun(INIT, DOUBLE[..12]) && After(INIT, DOUBLE[..12]) == NEWER_OVER
  {
    ThirdRuns();
    hide ValidRun, After, Apply, Enabled;
    var m := After(INIT, DOUBLE[..10]);
    var n := NextEnds(DOUBLE, 10, m, 2, Returned);
    assert n.starts == NEWER_OVER.starts && n.aborted == {0};
  }

  /** After the double run, the newer start ends OK and the older one with ABORT. */
  lemma DoubleEnds()
    ensures ValidRun(INIT, DOUBLE) && !After(INIT, DOUBLE).started
    ensures After(INIT, DOUBLE).log == NEWER_OVER.log + [Finished(0, Ended(ABORT))]
  {
    NewerEnds();
    hide ValidRun, After, Apply, Enabled;
    var n := NextEnds(DOUBLE, 12, NEWER_OVER, 0, Returned);
    assert DOUBLE[..14] == DOUBLE;
  }

  /** A start the engine cancels while it runs is replaced and unwinds after the new start
      ended OK. */
  const UNWINDING := [Arrive, Acquire, Begin(0), HandlerEnds(0, WasCancelled), CancelSeen(0), Arrive, Acquire, TaskAwaited(1),
                      Begin(1), HandlerEnds(1, Returned), Resume(1), Unwound(0)]

  const UNWINDS := RUNNING.(handler := Done(WasCancelled), phase := Unwinding, overtaken := true)

  lemma FirstUnwinds() returns (m5: Turns)
    ensures ValidRun(INIT, UNWINDING[..5]) && After(INIT, UNWINDING[..5]) == m5
    ensures m5 == Turns([UNWINDS.(overtaken := false)], Some(0), true, {}, None, [], [Reached(0)])
  {
    hide ValidRun, After;
    var m3 := FirstRuns(UNWINDING);
    Next(UNWINDING, 3, m3);
    var m4 := Apply(m3, HandlerEnds(0, WasCancelled));
    Next(UNWINDING, 4, m4);
    m5 := Apply(m4, CancelSeen(0));
    assert m5.starts == [UNWINDS.(overtaken := false)];
  }

  lemma SecondRuns()
    ensures ValidRun(INIT, UNWINDING[..9])
    ensures After(INIT, UNWINDING[..9]) ==
            Turns([UNWINDS, RUNNING.(previous := Some(0))], Some(1), true, {0}, None, [], [Reached(0), Reached(1)])
  {
    hide ValidRun, After;
    var m5 := FirstUnwinds();
    Next(UNWINDING, 5, m5);
    var second := Fresh(Some(0));
    var m6 := Turns([UNWINDS, second], Some(1), true, {0}, None, [1], [Reached(0), Reached(1)]);
    assert ArriveStep(m5) == m6;
    SecondTakesOver(m6);
  }

  lemma SecondTakesOver(m6: Turns)
    requires m6 == Turns([UNWINDS, Fresh(Some(0))], Some(1), true, {0}, None, [1], [Reached(0), Reached(1)])
    requires ValidRun(INIT, UNWINDING[..6]) && After(INIT, UNWINDING[..6]) == m6
    ensures ValidRun(INIT, UNWINDING[..9])
    ensures After(INIT, UNWINDING[..9]) == m6.(starts := [UNWINDS, RUNNING.(previous := Some(0))], waiters := [])
  {
    hide ValidRun, After;
    Next(UNWINDING, 6, m6);
    var m7 := m6.(starts := [UNWINDS, Fresh(Some(0)).(takeover := AwaitingTask)], holder := Some(1), waiters := []);
    assert AcquireStep(m6) == m7;
    Next(UNWINDING, 7, m7);
    var m8 := m7.(starts := [UNWINDS, Fresh(Some(0)).(takeover := Taken)]);
    Next(UNWINDING, 8, m8);
    assert BeginStep(m8, 1).starts == [UNWINDS, RUNNING.(previous := Some(0))];
  }

  lemma SecondEnds()
    ensures ValidRun(INIT, UNWINDING[..11])
    ensures After(INIT, UNWINDING[..11]) ==
            Turns([UNWINDS, RUNNING.(previous := Some(0), handler := Done(Returned), phase := Over(Ended(OK)))],
                  None, true, {0}, None, [], [Reached(0), Reached(1), Finished(1, Ended(OK))])
  {
    SecondRuns();
    hide ValidRun, After, Apply, Enabled;
    var m := After(INIT, UNWINDING[..9]);
    var n := NextEnds(UNWINDING, 9, m, 1, Returned);
    assert n.aborted == {0};
  }

  lemma UnwindsLast()
    ensures ValidRun(INIT, UNWINDING) && !After(INIT, UNWINDING).started
    ensures After(INIT, UNWINDING).log == [Reached(0), Reached(1), Finished(1, Ended(OK)), Finished(0, Cancelled)]
  {
    SecondEnds();
    hide ValidRun, After;
    Next(UNWINDING, 11, After(INIT, UNWINDING[..11]));
    assert UNWINDING[..12] == UNWINDING;
  }

  lemma DoubleRefutes(cancels: bool)
    ensures !StartedIsHistory(cancels, true)
  {
    DoubleEnds();
    hide ValidRun, After;
    assert StartedSince(After(INIT, DOUBLE).log, 3);
    assert Allowed(DOUBLE, cancels, true);
  }

  lemma UnwindingRefutes(haltMayFail: bool)
    ensures !StartedIsHistory(true, haltMayFail)
  {
    UnwindsLast();
    hide ValidRun, After;
    assert StartedSince(After(INIT, UNWINDING).log, 1);
    assert Allowed(UNWINDING, true, haltMayFail);
  }

  /** `started` is its history in every run exactly when the engine cancels no running start
      and no stop handler fails: the latest start reached has no stop after it and has not
      ended other than OK, whatever older starts still unwind or time out. */
  lemma StartedIsHistoryIff(cancels: bool, haltMayFail: bool)
    ensures StartedIsHistory(cancels, haltMayFail) <==> !cancels && !haltMayFail
  {
    if haltMayFail {
      DoubleRefutes(cancels);
    } else if cancels {
      UnwindingRefutes(haltMayFail);
    } else {
      forall steps: seq<Step> | ValidRun(INIT, steps) && Allowed(steps, cancels, haltMayFail)
        ensures After(INIT, steps).started <==> StartedByHistory(After(INIT, steps).log)
      {
        forall i: nat | i < |steps| ensures Undisturbed(steps[i]) {
          assert steps[i].HaltFails? ==> haltMayFail;
        }
        HistoryAfter(INIT, steps);
      }
    }
  }
}
