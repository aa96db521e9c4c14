/** What holds in every run of a component: its suspension, the commands it holds, and what
    `TurnsTheorems` proves of its starts. */
module HoldTheorems {
  import opened Wrappers
  import opened Commands
  import opened Hold
  import T = Turns
  import TurnsInvariant
  import TurnsTheorems

  // -- The invariant ---------------------------------------------------------------------

  const CLEAN := Condition(true, false)

  /** A suspension is in force, or was lifted, once. */
  predicate SuspensionInv(h: Hosted) {
    && (h.suspension.Some? ==> h.suspension.value < |h.suspensions|)
    && (forall k: nat | k < |h.suspensions| :: LiftInv(h, k))
  }

  predicate LiftInv(h: Hosted, k: nat)
    requires k < |h.suspensions|
  {
    var s := h.suspensions[k];
    && (s.released <==> h.suspension != Some(k))
    && s.lifts == (if s.released then 1 else 0)
    && (s.aborted ==> s.released)
  }

  predicate CommandInv(h: Hosted, i: nat)
    requires i < |h.commands|
  {
    var c := h.commands[i];
    && (c.phase.Held? ==> h.roisCommon && c.phase.on < |h.suspensions| && c.began == None)
    && (c.phase.InTurn? || c.phase == Running || c.handler != Unborn ==> c.began.Some?)
    && (c.phase == Running ==> c.handler != Unborn)
    && (h.roisCommon && c.began.Some? && (c.kind == Function || c.kind == Start) ==> c.began == Some(CLEAN))
    && (c.heldAtStop ==>
          c.began == None
          && (c.phase.Held? ==> h.suspensions[c.phase.on].aborted)
          && (c.phase.Over? ==> c.phase.outcome in {Ended(ABORT), Ended(TIMEOUT), Cancelled}))
    && (c.own.Some? ==> c.own.value < |h.suspensions| && h.suspensions[c.own.value].creator == i)
  }

  predicate Inv(h: Hosted) {
    && SuspensionInv(h)
    && (forall i: nat | i < |h.commands| :: CommandInv(h, i))
    && (forall i: nat | i < |h.delivered| :: h.delivered[i] == CLEAN)
  }

  /** The suspensions only grew, and the lifted ones are as they were. */
  predicate Kept(h: Hosted, n: Hosted) {
    && |h.suspensions| <= |n.suspensions|
    && forall k: nat | k < |h.suspensions| ::
         n.suspensions[k].creator == h.suspensions[k].creator && (h.suspensions[k].released ==> n.suspensions[k] == h.suspensions[k])
  }

  lemma LiftKeeps(h: Hosted, aborted: bool)
    requires Inv(h)
    ensures Inv(Lift(h, aborted)) && Kept(h, Lift(h, aborted)) && Lift(h, aborted).suspension == None
    ensures |Lift(h, aborted).commands| == |h.commands|
  {
    var n := Lift(h, aborted);
    if h.suspension.Some? { assert LiftInv(h, h.suspension.value); }
    forall k: nat | k < |n.suspensions| ensures LiftInv(n, k) {
      assert LiftInv(h, k);
    }
    forall i: nat | i < |n.commands| ensures CommandInv(n, i) {
      assert CommandInv(h, i);
    }
  }

  /** A step that only replaces one command, by one that satisfies the invariant. */
  lemma PutKeeps(h: Hosted, c: nat, command: Command)
    requires Inv(h) && c < |h.commands| && CommandInv(Put(h, c, command), c)
    ensures Inv(Put(h, c, command))
  {
    var n := Put(h, c, command);
    forall k: nat | k < |n.suspensions| ensures LiftInv(n, k) {
      assert LiftInv(h, k);
    }
    forall i: nat | i < |n.commands| ensures CommandInv(n, i) {
      if i != c { assert CommandInv(h, i); }
    }
  }

  /** A command that has not begun, and that no stop has aborted. */
  predicate Unbegun(h: Hosted, c: nat)
    requires c < |h.commands|
  {
    h.commands[c].handler == Unborn && !h.commands[c].heldAtStop
  }

  lemma GoKeeps(h: Hosted, c: nat)
    requires Inv(h) && c < |h.commands| && Unbegun(h, c) && (h.roisCommon ==> Now(h) == CLEAN)
    ensures Inv(Go(h, c))
  {
    var command := h.commands[c];
    assert CommandInv(h, c);
    if command.kind == Start {
      PutKeeps(h, c, command.(phase := InTurn(|h.turns.starts|), began := Some(Now(h))));
      TurnsOnly(Put(h, c, command.(phase := InTurn(|h.turns.starts|), began := Some(Now(h)))), Go(h, c));
    } else {
      PutKeeps(h, c, command.(phase := Running, handler := Live, began := Some(Now(h))));
    }
  }

  /** The invariant says nothing about the starts, nor about being operable. */
  lemma TurnsOnly(h: Hosted, n: Hosted)
    requires Inv(h) && n == h.(turns := n.turns, operable := n.operable)
    ensures Inv(n)
  {
    forall k: nat | k < |n.suspensions| ensures LiftInv(n, k) { assert LiftInv(h, k); }
    forall i: nat | i < |n.commands| ensures CommandInv(n, i) { assert CommandInv(h, i); }
  }

  lemma HoldKeeps(h: Hosted, c: nat)
    requires Inv(h) && c < |h.commands| && Unbegun(h, c) && h.commands[c].began == None && h.roisCommon
    ensures Inv(HoldOrGo(h, c))
  {
    assert CommandInv(h, c);
    if h.suspension.Some? {
      PutKeeps(h, c, h.commands[c].(phase := Held(h.suspension.value)));
    } else if !h.operable {
      PutKeeps(h, c, h.commands[c].(phase := Over(Ended(ERROR))));
    } else {
      GoKeeps(h, c);
    }
  }

  lemma BeginKeeps(h: Hosted, c: nat)
    requires Inv(h) && c < |h.commands|
    requires h.roisCommon ==> h.commands[c].kind != Function && h.commands[c].kind != Start
    requires !h.commands[c].heldAtStop
    ensures Inv(Begin(h, c))
  {
    assert CommandInv(h, c);
    PutKeeps(h, c, h.commands[c].(phase := Running, handler := Live, began := Some(Now(h))));
  }

  lemma SuspendKeeps(h: Hosted, c: nat)
    requires Inv(h) && c < |h.commands| && h.commands[c].kind == Suspend && Unbegun(h, c)
    ensures Inv(SuspendHandler(h, c))
  {
    if h.suspension.Some? {
      BeginKeeps(h, c);
    } else {
      var k := |h.suspensions|;
      var n := h.(suspension := Some(k), suspensions := h.suspensions + [Suspension(false, false, 0, c)]);
      forall j: nat | j < |n.suspensions| ensures LiftInv(n, j) {
        if j < k { assert LiftInv(h, j); }
      }
      forall i: nat | i < |n.commands| ensures CommandInv(n, i) { assert CommandInv(h, i); }
      assert CommandInv(n, c);
      PutKeeps(n, c, n.commands[c].(own := Some(k)));
      var held := Put(n, c, n.commands[c].(own := Some(k)));
      BeginKeeps(held, c);
    }
  }

  lemma StopKeeps(h: Hosted, c: nat)
    requires Inv(h) && c < |h.commands| && h.commands[c].kind == Stop && Unbegun(h, c) && h.commands[c].phase.Over?
    ensures Inv(StopHandler(h, c))
  {
    var n := h.(turns := T.StopStep(h.turns));
    TurnsOnly(h, n);
    LiftKeeps(n, true);
    BeginKeeps(Lift(n, true), c);
  }

  lemma ReceiveKeeps(h: Hosted, kind: Kind)
    requires Inv(h)
    ensures Inv(ReceiveStep(h, kind))
  {
    var c := |h.commands|;
    var n := h.(commands := h.commands + [Command(kind, Over(Cancelled), Unborn, None, false, None)]);
    forall k: nat | k < |n.suspensions| ensures LiftInv(n, k) { assert LiftInv(h, k); }
    forall i: nat | i < |n.commands| ensures CommandInv(n, i) {
      if i < c { assert CommandInv(h, i); }
    }
    if !h.operable {
      PutKeeps(n, c, n.commands[c].(phase := Over(Ended(ERROR))));
    } else if h.roisCommon && kind in {Suspend, Resume, Stop} && !h.turns.started && !(kind == Stop && h.turns.start.Some?) {
      PutKeeps(n, c, n.commands[c].(phase := Over(Ended(OK))));
    } else if h.roisCommon && kind == Suspend {
      SuspendKeeps(n, c);
    } else if h.roisCommon && kind == Resume {
      BeginKeeps(n, c);
    } else if kind == Stop {
      StopKeeps(n, c);
    } else if h.roisCommon {
      HoldKeeps(n, c);
    } else {
      GoKeeps(n, c);
    }
  }

  lemma WakeKeeps(h: Hosted, c: nat)
    requires Inv(h) && Enabled(h, HeldWakes(c))
    ensures Inv(WakeStep(h, c))
  {
    assert CommandInv(h, c);
    PutKeeps(h, c, h.commands[c].(phase := Over(Ended(ABORT))));
    if !h.suspensions[h.commands[c].phase.on].aborted { HoldKeeps(h, c); }
  }

  lemma ResumeKeeps(h: Hosted, c: nat)
    requires Inv(h) && Enabled(h, Resumes(c))
    ensures Inv(ResumeStep(h, c))
  {
    assert CommandInv(h, c);
    var status := EndStatus(h.commands[c].handler.end);
    PutKeeps(h, c, h.commands[c].(phase := Over(Ended(status))));
    LiftKeeps(End(h, c, Ended(status)), false);
  }

  lemma InvKeeps(h: Hosted, step: Step)
    requires Inv(h) && Enabled(h, step)
    ensures Inv(Apply(h, step))
  {
    match step
    case Receive(kind) => ReceiveKeeps(h, kind);
    case HeldWakes(c) => WakeKeeps(h, c);
    case HeldEnds(c, outcome) => assert CommandInv(h, c); PutKeeps(h, c, h.commands[c].(phase := Over(outcome)));
    case HandlerEnds(c, end) => assert CommandInv(h, c); PutKeeps(h, c, h.commands[c].(handler := Done(end)));
    case Resumes(c) => ResumeKeeps(h, c);
    case CancelSeen(c) => assert CommandInv(h, c); PutKeeps(h, c, h.commands[c].(phase := Over(Cancelled)));
    case OfTurns(_) => TurnsOnly(h, Apply(h, step));
    case SetOperable(_) => TurnsOnly(h, Apply(h, step));
    case Publish =>
      var n := Apply(h, step);
      forall k: nat | k < |n.suspensions| ensures LiftInv(n, k) { assert LiftInv(h, k); }
      forall i: nat | i < |n.commands| ensures CommandInv(n, i) { assert CommandInv(h, i); }
    case Shutdown =>
      var n := h.(operable := false, turns := T.ShutdownStep(h.turns));
      TurnsOnly(h, n);
      LiftKeeps(n, true);
  }

  /** The invariant holds after every run. */
  lemma {:induction false} InvAfter(h: Hosted, steps: seq<Step>)
    requires Inv(h) && ValidRun(h, steps)
    ensures Inv(After(h, steps)) && After(h, steps).roisCommon == h.roisCommon
    decreases |steps|
  {
    if steps != [] {
      InvKeeps(h, steps[0]);
      InvAfter(Apply(h, steps[0]), steps[1..]);
    }
  }

  // -- Suspension ------------------------------------------------------------------------

  /** On a RoIS_Common component, in every run: a function command begins its handler, and a
      start takes its turn, only while the component is operable and not suspended. */
  lemma BeginsOnlyUnsuspended(steps: seq<Step>, c: nat)
    requires ValidRun(Init(true), steps) && c < |After(Init(true), steps).commands|
    ensures var command := After(Init(true), steps).commands[c];
      && (command.kind == Function && command.handler != Unborn ==> command.began == Some(CLEAN))
      && (command.kind == Start && command.phase.InTurn? ==> command.began == Some(CLEAN))
  {
    InvAfter(Init(true), steps);
    assert CommandInv(After(Init(true), steps), c);
  }

  /** In every run: a command waits on the suspension in force or on one already released, so
      no wake-up is lost, and one that is released lets it go on at once. */
  lemma NoLostWakeUp(roisCommon: bool, steps: seq<Step>, c: nat)
    requires ValidRun(Init(roisCommon), steps) && c < |After(Init(roisCommon), steps).commands|
    ensures var h := After(Init(roisCommon), steps);
      h.commands[c].phase.Held? ==> h.suspension == Some(h.commands[c].phase.on) || Enabled(h, HeldWakes(c))
  {
    InvAfter(Init(roisCommon), steps);
    var h := After(Init(roisCommon), steps);
    assert CommandInv(h, c);
    if h.commands[c].phase.Held? { assert LiftInv(h, h.commands[c].phase.on); }
  }

  /** In every run: a command that was held when a stop lifted its suspension never begins. It
      ends with ABORT, or TIMEOUT or its cancellation came first. */
  lemma HeldAtStopNeverBegins(roisCommon: bool, steps: seq<Step>, c: nat)
    requires ValidRun(Init(roisCommon), steps) && c < |After(Init(roisCommon), steps).commands|
    ensures var command := After(Init(roisCommon), steps).commands[c];
      command.heldAtStop ==>
        && command.handler == Unborn && !command.phase.InTurn?
        && (command.phase.Over? ==> command.phase.outcome in {Ended(ABORT), Ended(TIMEOUT), Cancelled})
  {
    InvAfter(Init(roisCommon), steps);
    assert CommandInv(After(Init(roisCommon), steps), c);
  }

  /** In every run: a suspension is in force, or was lifted exactly once. */
  lemma LiftedOnce(roisCommon: bool, steps: seq<Step>, k: nat)
    requires ValidRun(Init(roisCommon), steps) && k < |After(Init(roisCommon), steps).suspensions|
    ensures var h := After(Init(roisCommon), steps);
      h.suspensions[k].lifts == (if h.suspension == Some(k) then 0 else 1)
  {
    InvAfter(Init(roisCommon), steps);
    assert LiftInv(After(Init(roisCommon), steps), k);
  }

  /** How many events of a run were published while the component was operable and not
      suspended. */
  function PublishedClean(h: Hosted, steps: seq<Step>): nat
    requires ValidRun(h, steps)
    decreases |steps|
  {
    if steps == [] then 0
    else (if steps[0] == Publish && Now(h) == CLEAN then 1 else 0) + PublishedClean(Apply(h, steps[0]), steps[1..])
  }

  lemma StepDelivers(h: Hosted, step: Step)
    requires Enabled(h, step)
    ensures |Apply(h, step).delivered| == |h.delivered| + if step == Publish && Now(h) == CLEAN then 1 else 0
  {
    hide T.Apply, T.ArriveStep, T.StopStep, T.ShutdownStep;
  }

  lemma {:induction false} DeliveredAfter(h: Hosted, steps: seq<Step>)
    requires ValidRun(h, steps)
    ensures |After(h, steps).delivered| == |h.delivered| + PublishedClean(h, steps)
    decreases |steps|
  {
    if steps != [] {
      StepDelivers(h, steps[0]);
      hide Apply, Enabled;
      DeliveredAfter(Apply(h, steps[0]), steps[1..]);
    }
  }

  /** In every run: the events that went out are those published while the component was
      operable and not suspended, each once and no other. */
  lemma DeliveredArePublishedClean(roisCommon: bool, steps: seq<Step>)
    requires ValidRun(Init(roisCommon), steps)
    ensures var h := After(Init(roisCommon), steps);
      |h.delivered| == PublishedClean(Init(roisCommon), steps) && forall k | 0 <= k < |h.delivered| :: h.delivered[k] == CLEAN
  {
    InvAfter(Init(roisCommon), steps);
    DeliveredAfter(Init(roisCommon), steps);
  }

  /** What may lift the suspension in force: a stop that runs its handler, the end of the
      engine, a resume that ended OK, or the failure of the suspend that put it in force. */
  predicate MayLift(h: Hosted, step: Step, k: nat)
    requires k < |h.suspensions|
  {
    match step
    case Receive(kind) => kind == Stop && h.operable && (h.turns.started || h.turns.start.Some? || !h.roisCommon)
    case Shutdown => true
    case Resumes(c) =>
      && h.roisCommon && c < |h.commands| && h.commands[c].handler.Done?
      && var ok := EndStatus(h.commands[c].handler.end) == OK;
         if h.commands[c].kind == Resume then ok
         else h.commands[c].kind == Suspend && !ok && h.suspensions[k].creator == c
    case _ => false
  }

  lemma OnlyTheseLift(h: Hosted, step: Step, k: nat)
    requires Inv(h) && Enabled(h, step) && h.suspension == Some(k) && Apply(h, step).suspension != Some(k)
    ensures k < |h.suspensions| && MayLift(h, step, k)
  {
    assert LiftInv(h, k);
    if step.Resumes? { assert CommandInv(h, step.command); }
  }

  // -- Starts ----------------------------------------------------------------------------

  /** The steps of the starts that a step of the component takes. */
  function StartSteps(h: Hosted, step: Step): seq<T.Step>
    requires Enabled(h, step)
  {
    match step
    case OfTurns(s) => [s]
    case Shutdown => [T.Shutdown]
    case _ =>
      if |Apply(h, step).turns.starts| > |h.turns.starts| then [T.Arrive]
      else if Apply(h, step).turns != h.turns then [T.StopReached]
      else []
  }

  lemma StepProjects(h: Hosted, step: Step)
    requires Enabled(h, step)
    ensures T.ValidRun(h.turns, StartSteps(h, step))
    ensures T.After(h.turns, StartSteps(h, step)) == Apply(h, step).turns
  {
    var steps := StartSteps(h, step);
    if steps != [] {
      assert steps[1..] == [];
    }
  }

  /** Every run of a component is a run of its starts, so all that holds in every run of the
      starts holds of them inside the component. */
  lemma {:induction false} RunProjects(h: Hosted, steps: seq<Step>) returns (starts: seq<T.Step>)
    requires ValidRun(h, steps)
    ensures T.ValidRun(h.turns, starts) && T.After(h.turns, starts) == After(h, steps).turns
    ensures forall s <- starts :: s.HaltFails? || s.CancelSeen? ==> OfTurns(s) in steps
    decreases |steps|
  {
    if steps == [] {
      starts := [];
    } else {
      var first := StartSteps(h, steps[0]);
      StepProjects(h, steps[0]);
      var rest := RunProjects(Apply(h, steps[0]), steps[1..]);
      TurnsTheorems.RunConcat(h.turns, first, rest);
      starts := first + rest;
    }
  }

  /** In every run of a component whose stop handler does not fail a takeover, at most one
      start handler is unfinished. */
  lemma StartsAreExclusive(roisCommon: bool, steps: seq<Step>)
    requires ValidRun(Init(roisCommon), steps)
    requires forall s <- steps :: s.OfTurns? ==> !s.step.HaltFails?
    ensures TurnsTheorems.Exclusive(After(Init(roisCommon), steps).turns)
  {
    var starts := RunProjects(Init(roisCommon), steps);
    forall i: nat | i < |starts| ensures !starts[i].HaltFails? {
      assert starts[i] in starts;
    }
    TurnsTheorems.ExclusiveIffHaltNeverFails(false);
    assert TurnsTheorems.NoHaltFails(starts);
  }

  /** On such a component, with no running start cancelled by the engine, `started` is what the
      history says: a start came, and since then no other start, no stop, and no end of it but OK. */
  lemma StartedMeansStarted(roisCommon: bool, steps: seq<Step>)
    requires ValidRun(Init(roisCommon), steps)
    requires forall s <- steps :: s.OfTurns? ==> !s.step.HaltFails? && !s.step.CancelSeen?
    ensures var m := After(Init(roisCommon), steps).turns; m.started <==> TurnsTheorems.StartedByHistory(m.log)
  {
    var starts := RunProjects(Init(roisCommon), steps);
    assert TurnsTheorems.Allowed(starts, false, false) by {
      forall i: nat | i < |starts| ensures !starts[i].HaltFails? && !starts[i].CancelSeen? {
        assert starts[i] in starts;
      }
    }
    TurnsTheorems.StartedIsHistoryIff(false, false);
  }

  /** The latest start has not ended. */
  predicate StartIsOn(m: T.Turns) {
    m.starts != [] && !m.starts[|m.starts| - 1].phase.Over?
  }

  /** A command ends OK at once, and nothing else changes. */
  predicate DoesNothing(h: Hosted, kind: Kind) {
    ReceiveStep(h, kind) == h.(commands := h.commands + [Command(kind, Over(Ended(OK)), Unborn, None, false, None)])
  }

  /** So on an operable RoIS_Common component a suspend and a resume do nothing exactly when
      the history says that it is not started, and a stop when moreover no start is on. */
  lemma NoOpIffNotStarted(steps: seq<Step>, kind: Kind)
    requires ValidRun(Init(true), steps) && After(Init(true), steps).operable && kind in {Suspend, Resume, Stop}
    requires forall s <- steps :: s.OfTurns? ==> !s.step.HaltFails? && !s.step.CancelSeen?
    ensures var h := After(Init(true), steps);
      DoesNothing(h, kind) <==> !TurnsTheorems.StartedByHistory(h.turns.log) && !(kind == Stop && StartIsOn(h.turns))
  {
    StartedMeansStarted(true, steps);
    InvAfter(Init(true), steps);
    LatestIsOn(steps);
    hide ValidRun, After, Inv, T.StopStep, TurnsTheorems.StartedByHistory;
    var h := After(Init(true), steps);
    var n := ReceiveStep(h, kind);
    assert n.commands[|h.commands|].phase == Over(Ended(OK))
           <==> !h.turns.started && !(kind == Stop && h.turns.start.Some?);
  }

  lemma LatestIsOn(steps: seq<Step>)
    requires ValidRun(Init(true), steps)
    ensures After(Init(true), steps).turns.start.Some? <==> StartIsOn(After(Init(true), steps).turns)
  {
    var starts := RunProjects(Init(true), steps);
    TurnsInvariant.InvAfter(T.INIT, starts);
  }
}
