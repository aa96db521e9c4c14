/** What becomes of the commands of a component, told from the steps of a run: whether a command
    that arrives or was held begins, is held, or ends, and with which status. */
module HoldOutcomes {
  import opened Wrappers
  import opened Commands
  import opened Hold
  import opened HoldTheorems
  import opened HoldSuspensions
  import TurnsOutcomes
  import T = Turns

  // -- What lifts a suspension -----------------------------------------------------------

  lemma StepLifts(h: Hosted, step: Step, k: nat)
    requires Inv(h) && Created(h) && h.roisCommon && Enabled(h, step) && h.suspension == Some(k) && k < |h.suspensions|
    requires MayLift(h, step, k)
    ensures Apply(h, step).suspension != Some(k)
  {
    hide Inv, T.Apply, T.ArriveStep, T.StopStep, T.ShutdownStep;
  }

  /** In every run of a RoIS_Common component a step lifts the suspension in force exactly when
      it is a stop that runs its handler, the end of the engine, a resume that ended OK, or the
      failure of the suspend that put it in force. */
  lemma LiftsIff(steps: seq<Step>, i: nat, k: nat)
    requires ValidRun(Init(true), steps) && i < |steps| && At(true, steps, i).suspension == Some(k)
    ensures k < |At(true, steps, i).suspensions|
    ensures At(true, steps, i + 1).suspension != Some(k) <==> MayLift(At(true, steps, i), steps[i], k)
  {
    AtNext(true, steps, i);
    CreatedAt(steps, i);
    var h := At(true, steps, i);
    hide At, Apply, Enabled, MayLift;
    if MayLift(h, steps[i], k) { StepLifts(h, steps[i], k); }
    if At(true, steps, i + 1).suspension != Some(k) { OnlyTheseLift(h, steps[i], k); }
  }

  lemma CreatedAt(steps: seq<Step>, i: nat)
    requires ValidRun(Init(true), steps) && i <= |steps|
    ensures Created(At(true, steps, i)) && At(true, steps, i).roisCommon && Inv(At(true, steps, i))
  {
    Prefix(Init(true), steps, i);
    CreatedAfter(Init(true), steps[..i]);
    InvAfter(Init(true), steps[..i]);
  }

  /** A stop, or the end of the engine. */
  predicate ByStop(step: Step) {
    step == Receive(Stop) || step == Shutdown
  }

  lemma LiftsOnce(h: Hosted, k: nat)
    requires Inv(h) && k < |h.suspensions|
    ensures LiftInv(h, k)
  {
  }

  lemma StepAborts(h: Hosted, step: Step, k: nat)
    requires Inv(h) && Enabled(h, step) && k < |h.suspensions|
    ensures k < |Apply(h, step).suspensions|
    ensures h.suspension == Some(k) && Apply(h, step).suspension != Some(k) ==>
              (Apply(h, step).suspensions[k].aborted <==> ByStop(step))
    ensures h.suspension != Some(k) ==> Apply(h, step).suspensions[k].aborted == h.suspensions[k].aborted
    ensures Apply(h, step).suspension == Some(k) ==> !Apply(h, step).suspensions[k].aborted
  {
    hide Inv, T.Apply, T.ArriveStep, T.StopStep, T.ShutdownStep, T.Enabled, EndStatus, MarkHeld;
    LiftsOnce(h, k);
  }

  /** A stop, or the end of the engine, lifted a suspension before the i-th step of a run. */
  ghost predicate StoppedBefore(steps: seq<Step>, k: nat, i: nat)
    requires ValidRun(Init(true), steps)
  {
    exists j: nat :: j < i && LiftedAt(true, steps, k, j) && ByStop(steps[j])
  }

  lemma StoppedNext(steps: seq<Step>, k: nat, i: nat)
    requires ValidRun(Init(true), steps) && i < |steps|
    ensures StoppedBefore(steps, k, i + 1) <==> StoppedBefore(steps, k, i) || (LiftedAt(true, steps, k, i) && ByStop(steps[i]))
  {
    hide LiftedAt, ByStop;
  }

  lemma NotAbortedInForce(h: Hosted, k: nat)
    requires Inv(h) && k < |h.suspensions|
    ensures h.suspension == Some(k) ==> !h.suspensions[k].aborted
  {
    assert LiftInv(h, k);
  }

  /** A suspension was aborted exactly when a stop, or the end of the engine, lifted it. */
  lemma {:induction false} AbortedIffStopped(steps: seq<Step>, k: nat, i: nat)
    requires ValidRun(Init(true), steps) && i <= |steps| && k < |At(true, steps, i).suspensions|
    ensures At(true, steps, i).suspensions[k].aborted <==> StoppedBefore(steps, k, i)
    decreases i
  {
    hide At, LiftedAt, Apply, Enabled, Inv, ByStop;
    AtStart(true, steps);
    if i > 0 {
      AtNext(true, steps, i - 1);
      var h := At(true, steps, i - 1);
      if k < |h.suspensions| {
        AbortedIffStopped(steps, k, i - 1);
        StoppedNext(steps, k, i - 1);
        hide StoppedBefore;
        LastLifts(true, steps, k, i - 1);
        StepAborts(h, steps[i - 1], k);
        NotAbortedInForce(h, k);
      } else {
        NewIsNotLifted(true, steps, k, i);
        CreatedAt(steps, i);
        NotAbortedInForce(At(true, steps, i), k);
      }
    }
  }

  // -- The commands a suspension held ----------------------------------------------------

  /** A command begins its handler, or takes its turn if it is a start, on a component that is
      operable and not suspended. */
  predicate GoesOn(h: Hosted, n: Hosted, c: nat) {
    && c < |n.commands| && n.commands[c].began == Some(CLEAN)
    && if n.commands[c].kind == Start then
         n.commands[c].phase == InTurn(|h.turns.starts|) && |n.turns.starts| == |h.turns.starts| + 1
       else n.commands[c].phase == Running && n.commands[c].handler == Live
  }

  /** Only a wake-up, a timeout or a cancellation moves a command that is held. */
  lemma HeldStays(h: Hosted, step: Step, c: nat)
    requires Inv(h) && Enabled(h, step) && c < |h.commands| && h.commands[c].phase.Held?
    ensures c < |Apply(h, step).commands|
    ensures Apply(h, step).commands[c].phase == h.commands[c].phase || step == HeldWakes(c)
            || (step.HeldEnds? && step.command == c && Apply(h, step).commands[c].phase == Over(step.outcome))
  {
    assert CommandInv(h, c);
    hide Inv, T.Apply, T.ArriveStep, T.StopStep, T.ShutdownStep;
  }

  lemma WakeOutcome(h: Hosted, c: nat)
    requires h.roisCommon && Inv(h) && Enabled(h, HeldWakes(c))
    ensures var n, k := Apply(h, HeldWakes(c)), h.commands[c].phase.on;
      && |n.commands| == |h.commands| && n.commands[c].kind == h.commands[c].kind
      && (n.commands[c].phase == Over(Ended(ABORT)) <==> h.suspensions[k].aborted)
      && (!h.suspensions[k].aborted ==>
            && (GoesOn(h, n, c) <==> h.operable && h.suspension == None)
            && (forall j: nat :: n.commands[c].phase == Held(j) <==> h.suspension == Some(j))
            && (n.commands[c].phase == Over(Ended(ERROR)) <==> !h.operable && h.suspension == None))
  {
    assert CommandInv(h, c);
    hide Inv;
  }

  /** In every run: a command that was held and is woken ends with ABORT exactly when a stop, or
      the end of the engine, lifted the suspension it waited on. When a resume or the failure
      of the suspend did, it begins, as a start by taking its turn, exactly when the component
      is operable and not suspended again. It is held again exactly when it is suspended again,
      and ends with ERROR exactly when it is neither. */
  lemma HeldGoesOn(steps: seq<Step>, i: nat, c: nat)
    requires ValidRun(Init(true), steps) && i < |steps| && steps[i] == HeldWakes(c)
    ensures var h, n := At(true, steps, i), At(true, steps, i + 1);
      && c < |h.commands| == |n.commands| && h.commands[c].phase.Held? && n.commands[c].kind == h.commands[c].kind
      && var k := h.commands[c].phase.on;
         && (exists j: nat :: j < i && LiftedAt(true, steps, k, j))
         && (n.commands[c].phase == Over(Ended(ABORT)) <==> StoppedBefore(steps, k, i))
         && (!StoppedBefore(steps, k, i) ==>
               && (GoesOn(h, n, c) <==> h.operable && h.suspension == None)
               && (forall j: nat :: n.commands[c].phase == Held(j) <==> h.suspension == Some(j))
               && (n.commands[c].phase == Over(Ended(ERROR)) <==> !h.operable && h.suspension == None))
  {
    AtNext(true, steps, i);
    CreatedAt(steps, i);
    var h := At(true, steps, i);
    WakeReady(h, c);
    var k := h.commands[c].phase.on;
    hide At, LiftedAt, Apply, Enabled, Inv, StoppedBefore, GoesOn;
    LiftedBefore(true, steps, k, i);
    AbortedIffStopped(steps, k, i);
    WakeOutcome(h, c);
  }

  lemma WakeReady(h: Hosted, c: nat)
    requires Inv(h) && Enabled(h, HeldWakes(c))
    ensures c < |h.commands| && h.commands[c].phase.Held? && h.commands[c].phase.on < |h.suspensions|
    ensures h.suspension != Some(h.commands[c].phase.on)
  {
    assert LiftInv(h, h.commands[c].phase.on);
  }

  /** In every run: a held command ends with ABORT only when it is woken and a stop, or the end
      of the engine, lifted its suspension. */
  lemma HeldAbortsOnlyStopped(steps: seq<Step>, i: nat, c: nat)
    requires ValidRun(Init(true), steps) && i < |steps|
    requires c < |At(true, steps, i).commands| && At(true, steps, i).commands[c].phase.Held?
    requires c < |At(true, steps, i + 1).commands| && At(true, steps, i + 1).commands[c].phase == Over(Ended(ABORT))
    ensures steps[i] == HeldWakes(c) && StoppedBefore(steps, At(true, steps, i).commands[c].phase.on, i)
  {
    AtNext(true, steps, i);
    HeldStays(At(true, steps, i), steps[i], c);
    if steps[i] == HeldWakes(c) {
      hide At, StoppedBefore;
      HeldGoesOn(steps, i, c);
    }
    hide At, Inv, StoppedBefore;
  }

  // -- The commands that arrive ----------------------------------------------------------

  /** Suspend, resume and stop do nothing on a component that is not started, but a stop does
      while the latest start has not ended. */
  predicate NothingToDo(h: Hosted, kind: Kind) {
    h.roisCommon && kind in {Suspend, Resume, Stop} && !h.turns.started && !(kind == Stop && h.turns.start.Some?)
  }

  /** What a command that arrives comes to. */
  ghost predicate Answers(h: Hosted, n: Hosted, kind: Kind) {
    var c := |h.commands|;
    && |n.commands| == c + 1 && n.commands[c].kind == kind
    && (forall j | 0 <= j < c :: n.commands[j].phase == h.commands[j].phase && n.commands[j].handler == h.commands[j].handler)
    && var phase := n.commands[c].phase;
       var held := h.roisCommon && kind in {Start, Function} && h.suspension.Some?;
       var goes := h.operable && !NothingToDo(h, kind) && !held;
       && (phase == Over(Ended(ERROR)) <==> !h.operable)
       && (phase == Over(Ended(OK)) <==> h.operable && NothingToDo(h, kind))
       && (forall k: nat :: phase == Held(k) <==> h.operable && held && h.suspension == Some(k))
       && (phase == InTurn(|h.turns.starts|) && |n.turns.starts| == |h.turns.starts| + 1 <==> goes && kind == Start)
       && (phase == Running && n.commands[c].handler == Live <==> goes && kind != Start)
       && n.suspension == (if phase != Running then h.suspension
                           else if kind == Stop then None
                           else if kind == Suspend && h.roisCommon && h.suspension == None then Some(|h.suspensions|)
                           else h.suspension)
       && (if goes && kind in {Start, Stop} then Overtaking(h.turns, n.turns, kind) else n.turns == h.turns)
  }

  /** A start or a stop overtakes every start that has not ended, and the latest one is marked. A
      start is then the latest itself. */
  predicate Overtaking(m: T.Turns, n: T.Turns, kind: Kind) {
    && |m.starts| <= |n.starts|
    && (forall t | 0 <= t < |m.starts| :: n.starts[t] == m.starts[t].(overtaken := m.starts[t].overtaken || !m.starts[t].phase.Over?))
    && n.aborted == (if m.start.Some? then m.aborted + {m.start.value} else m.aborted)
    && n.started == (kind == Start) && n.start == (if kind == Start then Some(|m.starts|) else m.start)
  }

  lemma TurnsOvertake(m: T.Turns)
    ensures Overtaking(m, T.ArriveStep(m), Start) && Overtaking(m, T.StopStep(m), Stop)
  {
  }

  lemma SuspensionIsListed(h: Hosted)
    requires Inv(h)
    ensures h.suspension.Some? ==> h.suspension.value < |h.suspensions|
  {
  }

  lemma WorkAnswers(h: Hosted, kind: Kind)
    requires kind in {Start, Function} && (h.suspension.Some? ==> h.suspension.value < |h.suspensions|)
    ensures Answers(h, ReceiveStep(h, kind), kind)
  {
    hide T.StopStep, Overtaking;
    TurnsOvertake(h.turns);
    assert !NothingToDo(h, kind);
  }

  lemma ControlAnswers(h: Hosted, kind: Kind)
    requires kind !in {Start, Function} && (h.suspension.Some? ==> h.suspension.value < |h.suspensions|)
    ensures Answers(h, ReceiveStep(h, kind), kind)
  {
    hide T.StopStep, Overtaking;
    TurnsOvertake(h.turns);
  }

  lemma ReceiveAnswers(h: Hosted, kind: Kind)
    requires Inv(h)
    ensures Answers(h, ReceiveStep(h, kind), kind)
  {
    hide Inv, ReceiveStep, Answers;
    SuspensionIsListed(h);
    if kind in {Start, Function} { WorkAnswers(h, kind); } else { ControlAnswers(h, kind); }
  }

  /** In every run, of a command that arrives: it ends with ERROR exactly when the component is
      not operable, and with OK exactly when there is nothing to do. It is held exactly when it
      is a start or a function command of a component that is suspended. Otherwise a start
      takes its turn and any other command begins its handler, at once. A suspend that begins
      puts a suspension in force unless one is, and a stop that begins lifts the one in force.
      A start that takes its turn and a stop that begins overtake the starts that have not
      ended, and no other command does. */
  lemma ArrivalAnswers(roisCommon: bool, steps: seq<Step>, i: nat, kind: Kind)
    requires ValidRun(Init(roisCommon), steps) && i < |steps| && steps[i] == Receive(kind)
    ensures Answers(At(roisCommon, steps, i), At(roisCommon, steps, i + 1), kind)
  {
    AtNext(roisCommon, steps, i);
    hide At, Inv, ReceiveStep, Answers;
    ReceiveAnswers(At(roisCommon, steps, i), kind);
  }

  // -- The commands that ran -------------------------------------------------------------

  predicate ReportInv(command: Command, cancelled: bool) {
    && (cancelled ==> command.phase.Over?)
    && (command.handler != Unborn && command.phase.Over? ==>
          && command.handler.Done?
          && if cancelled then command.phase.outcome == Cancelled
             else command.phase.outcome.Ended? && TurnsOutcomes.Reports(command.handler.end, command.phase.outcome.status))
  }

  lemma ResumeReports(h: Hosted, d: nat, c: nat, cancelled: bool)
    requires Inv(h) && Enabled(h, Resumes(d)) && c < |h.commands| && ReportInv(h.commands[c], cancelled)
    ensures c < |ResumeStep(h, d).commands| && ReportInv(ResumeStep(h, d).commands[c], cancelled)
  {
    assert CommandInv(h, c);
    TurnsOutcomes.EndReports(h.commands[d].handler.end);
    hide Inv, TurnsOutcomes.Reports, EndStatus;
  }

  lemma WakeReports(h: Hosted, d: nat, c: nat, cancelled: bool)
    requires Inv(h) && Enabled(h, HeldWakes(d)) && c < |h.commands| && ReportInv(h.commands[c], cancelled)
    ensures c < |WakeStep(h, d).commands| && ReportInv(WakeStep(h, d).commands[c], cancelled)
  {
    assert CommandInv(h, c);
    hide Inv, TurnsOutcomes.Reports, T.ArriveStep;
  }

  lemma StepReports(h: Hosted, step: Step, c: nat, cancelled: bool)
    requires Inv(h) && Enabled(h, step) && c < |h.commands| && ReportInv(h.commands[c], cancelled)
    ensures c < |Apply(h, step).commands| && ReportInv(Apply(h, step).commands[c], cancelled || step == CancelSeen(c))
  {
    assert CommandInv(h, c);
    hide TurnsOutcomes.Reports, EndStatus, ReceiveStep, ResumeStep, WakeStep, T.Apply, T.ShutdownStep;
    match step
    case Receive(kind) => ReceiveAnswers(h, kind);
    case Resumes(d) => ResumeReports(h, d, c, cancelled);
    case HeldWakes(d) => WakeReports(h, d, c, cancelled);
    case _ => hide Inv;
  }

  lemma NewReports(h: Hosted, step: Step, c: nat)
    requires Inv(h) && Enabled(h, step) && |h.commands| <= c < |Apply(h, step).commands|
    ensures ReportInv(Apply(h, step).commands[c], false)
  {
    if step.Receive? { ReceiveAnswers(h, step.kind); }
    hide Inv, TurnsOutcomes.Reports, T.Apply, T.ArriveStep, T.StopStep, T.ShutdownStep;
  }

  lemma {:induction false} ReportsAt(roisCommon: bool, steps: seq<Step>, i: nat, c: nat)
    requires ValidRun(Init(roisCommon), steps) && i <= |steps|
    ensures if c < |At(roisCommon, steps, i).commands| then ReportInv(At(roisCommon, steps, i).commands[c], CancelSeen(c) in steps[..i])
            else CancelSeen(c) !in steps[..i]
    decreases i
  {
    hide At, Inv, ReportInv, Apply;
    NoCommands(roisCommon, steps);
    if i > 0 {
      ReportsAt(roisCommon, steps, i - 1, c);
      AtNext(roisCommon, steps, i - 1);
      assert steps[..i] == steps[..i - 1] + [steps[i - 1]];
      var h := At(roisCommon, steps, i - 1);
      if c < |h.commands| {
        StepReports(h, steps[i - 1], c, CancelSeen(c) in steps[..i - 1]);
      } else if c < |At(roisCommon, steps, i).commands| {
        NewReports(h, steps[i - 1], c);
      }
    }
  }

  lemma NoCommands(roisCommon: bool, steps: seq<Step>)
    requires ValidRun(Init(roisCommon), steps)
    ensures At(roisCommon, steps, 0).commands == []
  {
  }

  /** In every run: a command whose handler ran and that has ended ended with what its handler
      reports, unless the engine cancelled the command, and then it ended cancelled. */
  lemma CommandReports(roisCommon: bool, steps: seq<Step>, c: nat)
    requires ValidRun(Init(roisCommon), steps) && c < |After(Init(roisCommon), steps).commands|
    requires After(Init(roisCommon), steps).commands[c].handler != Unborn && After(Init(roisCommon), steps).commands[c].phase.Over?
    ensures var command := After(Init(roisCommon), steps).commands[c];
      && command.handler.Done?
      && (CancelSeen(c) in steps ==> command.phase.outcome == Cancelled)
      && (CancelSeen(c) !in steps ==> command.phase.outcome.Ended? && TurnsOutcomes.Reports(command.handler.end, command.phase.outcome.status))
  {
    assert steps[..|steps|] == steps;
    assert At(roisCommon, steps, |steps|) == After(Init(roisCommon), steps);
    hide At, After, ValidRun, TurnsOutcomes.Reports;
    ReportsAt(roisCommon, steps, |steps|, c);
  }

  // -- Whether the component is operable -------------------------------------------------

  predicate OperableIs(h: Hosted, step: Step, n: Hosted) {
    n.operable == match step {
      case SetOperable(operable) => operable
      case Shutdown => false
      case _ => h.operable
    }
  }

  lemma StepOperable(h: Hosted, step: Step)
    requires Enabled(h, step)
    ensures OperableIs(h, step, Apply(h, step))
  {
    hide T.Apply, T.Enabled, T.ArriveStep, T.StopStep, T.ShutdownStep, Now, MarkHeld;
  }

  /** In every run, a component is operable as it was set last, and is not once the engine
      stopped. */
  lemma OperableAsSet(roisCommon: bool, steps: seq<Step>, i: nat)
    requires ValidRun(Init(roisCommon), steps) && i < |steps|
    ensures OperableIs(At(roisCommon, steps, i), steps[i], At(roisCommon, steps, i + 1))
  {
    hide At, Inv, Apply, Enabled, OperableIs;
    AtNext(roisCommon, steps, i);
    StepOperable(At(roisCommon, steps, i), steps[i]);
  }
}
