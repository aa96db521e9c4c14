/** What a suspension in force says of the suspend that put it in force. */
module HoldSuspensions {
  import opened Wrappers
  import opened Commands
  import opened Hold
  import opened HoldTheorems
  import T = Turns

  /** A suspension in force is that of a suspend that runs, ended OK or was cancelled. */
  predicate Created(h: Hosted) {
    h.suspension.Some? ==>
      && h.suspension.value < |h.suspensions|
      && var c := h.suspensions[h.suspension.value].creator;
         && c < |h.commands| && h.commands[c].kind == Suspend && h.commands[c].own == h.suspension
         && h.commands[c].phase in {Running, Over(Ended(OK)), Over(Cancelled)}
  }

  /** A step that does not change the suspension, nor the suspend that created it. */
  lemma SameCreated(h: Hosted, n: Hosted)
    requires Created(h) && (n.suspension == None || (n.suspension == h.suspension && h.suspensions <= n.suspensions))
    requires |h.commands| <= |n.commands|
    requires forall i | 0 <= i < |h.commands| && h.commands[i].phase in {Running, Over(Ended(OK)), Over(Cancelled)} && h.commands[i].kind == Suspend ::
               n.commands[i].kind == h.commands[i].kind && n.commands[i].own == h.commands[i].own && n.commands[i].phase == h.commands[i].phase
    ensures Created(n)
  {
  }

  lemma ReceiveCreated(h: Hosted, kind: Kind)
    requires Created(h)
    ensures Created(ReceiveStep(h, kind))
  {
    var c := |h.commands|;
    var n := h.(commands := h.commands + [Command(kind, Over(Cancelled), Unborn, None, false, None)]);
    assert forall i | 0 <= i < c :: n.commands[i] == h.commands[i];
    hide T.StopStep, T.ArriveStep;
    if h.roisCommon && kind == Suspend && h.suspension == None {
    } else {
      var t := ReceiveStep(h, kind);
      assert t.suspension == None || t.suspension == h.suspension;
      forall i | 0 <= i < c && h.commands[i].phase in {Running, Over(Ended(OK)), Over(Cancelled)}
        ensures t.commands[i].kind == h.commands[i].kind && t.commands[i].own == h.commands[i].own && t.commands[i].phase == h.commands[i].phase
      {
      }
      if t.suspension.Some? { SameCreated(h, t); }
    }
  }

  lemma ResumeCreated(h: Hosted, c: nat)
    requires Inv(h) && Created(h) && c < |h.commands| && h.commands[c].handler.Done? && h.commands[c].phase == Running
    ensures h.roisCommon ==> Created(ResumeStep(h, c))
  {
    var k := h.suspension;
    if k.Some? && h.suspensions[k.value].creator == c {
      assert h.commands[c].own == k;
    }
    hide Inv;
  }

  lemma StepCreated(h: Hosted, step: Step)
    requires h.roisCommon && Inv(h) && Created(h) && Enabled(h, step)
    ensures Created(Apply(h, step))
  {
    hide Inv, ReceiveStep, ResumeStep, T.Apply, T.ShutdownStep;
    match step
    case Receive(kind) => ReceiveCreated(h, kind);
    case HeldWakes(c) => WakeCreated(h, c);
    case Resumes(c) => ResumeCreated(h, c);
    case _ =>
  }

  lemma WakeCreated(h: Hosted, c: nat)
    requires Created(h) && Enabled(h, HeldWakes(c))
    ensures Created(WakeStep(h, c))
  {
    hide T.ArriveStep;
    SameCreated(h, WakeStep(h, c));
  }

  lemma {:induction false} CreatedAfter(h: Hosted, steps: seq<Step>)
    requires h.roisCommon && Inv(h) && Created(h) && ValidRun(h, steps)
    ensures Created(After(h, steps))
    decreases |steps|
  {
    if steps != [] {
      StepCreated(h, steps[0]);
      InvKeeps(h, steps[0]);
      hide Inv, Created, Apply;
      CreatedAfter(Apply(h, steps[0]), steps[1..]);
    }
  }

  // -- Suspends that the engine cancels --------------------------------------------------

  /** A suspend is never held, and ends cancelled only when the engine cancels it. */
  predicate SuspendInv(h: Hosted, c: nat) {
    c < |h.commands| && h.commands[c].kind == Suspend ==> !h.commands[c].phase.Held?
  }

  predicate IsCancelled(h: Hosted, c: nat) {
    c < |h.commands| && h.commands[c].phase == Over(Cancelled)
  }

  predicate IsSuspend(h: Hosted, c: nat) {
    c < |h.commands| && h.commands[c].kind == Suspend
  }

  lemma ReceiveCancels(h: Hosted, kind: Kind, c: nat)
    requires h.roisCommon && SuspendInv(h, c) && IsSuspend(ReceiveStep(h, kind), c)
    ensures SuspendInv(ReceiveStep(h, kind), c)
    ensures IsCancelled(ReceiveStep(h, kind), c) <==> IsCancelled(h, c)
  {
    hide T.StopStep, T.ArriveStep;
  }

  lemma StepCancels(h: Hosted, step: Step, c: nat)
    requires h.roisCommon && SuspendInv(h, c) && Enabled(h, step) && IsSuspend(Apply(h, step), c)
    ensures SuspendInv(Apply(h, step), c)
    ensures IsCancelled(Apply(h, step), c) <==> IsCancelled(h, c) || step == CancelSeen(c)
  {
    hide T.Apply, T.ShutdownStep, T.ArriveStep, ReceiveStep;
    if step.Receive? { ReceiveCancels(h, step.kind, c); }
  }

  lemma ReceiveKind(h: Hosted, kind: Kind, c: nat)
    requires c < |h.commands|
    ensures c < |ReceiveStep(h, kind).commands| && ReceiveStep(h, kind).commands[c].kind == h.commands[c].kind
  {
    hide T.StopStep, T.ArriveStep;
  }

  /** A command keeps its kind. */
  lemma KindStays(h: Hosted, step: Step, c: nat)
    requires Enabled(h, step) && c < |h.commands|
    ensures c < |Apply(h, step).commands| && Apply(h, step).commands[c].kind == h.commands[c].kind
  {
    hide T.Apply, T.ShutdownStep, T.ArriveStep, T.StopStep, ReceiveStep;
    if step.Receive? { ReceiveKind(h, step.kind, c); }
  }

  lemma {:induction false} CancelledIff(h: Hosted, steps: seq<Step>, c: nat)
    requires h.roisCommon && SuspendInv(h, c) && ValidRun(h, steps)
    ensures var n := After(h, steps);
      && (c < |h.commands| ==> c < |n.commands| && n.commands[c].kind == h.commands[c].kind)
      && (IsSuspend(n, c) ==> (IsCancelled(n, c) <==> IsCancelled(h, c) || CancelSeen(c) in steps))
    decreases |steps|
  {
    if steps != [] {
      var n := Apply(h, steps[0]);
      if c < |h.commands| { KindStays(h, steps[0], c); }
      if IsSuspend(n, c) { StepCancels(h, steps[0], c); }
      hide Apply;
      CancelledIff(n, steps[1..], c);
    }
  }

  // -- Over every run --------------------------------------------------------------------

  /** In every run: the suspension in force is that of one suspend, which still runs, ended OK
      or was cancelled by the engine. It is backed, by a suspend that runs or ended OK,
      exactly when the engine did not cancel that suspend. */
  lemma BackedIffNotCancelled(steps: seq<Step>, k: nat)
    requires ValidRun(Init(true), steps) && After(Init(true), steps).suspension == Some(k)
    ensures var h := After(Init(true), steps);
      && k < |h.suspensions| && h.suspensions[k].creator < |h.commands|
      && var creator := h.commands[h.suspensions[k].creator];
         && creator.kind == Suspend && creator.own == Some(k)
         && (creator.phase in {Running, Over(Ended(OK))} <==> CancelSeen(h.suspensions[k].creator) !in steps)
         && (creator.phase !in {Running, Over(Ended(OK))} ==> creator.phase == Over(Cancelled))
  {
    CreatedAfter(Init(true), steps);
    var h := After(Init(true), steps);
    CancelledIff(Init(true), steps, h.suspensions[k].creator);
    hide After, ValidRun;
  }

  lemma {:induction false} RunSnoc(h: Hosted, steps: seq<Step>, step: Step)
    requires ValidRun(h, steps) && Enabled(After(h, steps), step)
    ensures ValidRun(h, steps + [step]) && After(h, steps + [step]) == Apply(After(h, steps), step)
    decreases |steps|
  {
    if steps == [] {
      assert [] + [step] == [step] && [step][1..] == [];
    } else {
      RunSnoc(Apply(h, steps[0]), steps[1..], step);
      assert (steps + [step])[1..] == steps[1..] + [step];
    }
  }

  // -- What lifts a suspension -----------------------------------------------------------

  /** The state of a run before its i-th step. */
  function At(roisCommon: bool, steps: seq<Step>, i: nat): Hosted
    requires ValidRun(Init(roisCommon), steps) && i <= |steps|
  {
    Prefix(Init(roisCommon), steps, i);
    After(Init(roisCommon), steps[..i])
  }

  lemma {:induction false} Prefix(h: Hosted, steps: seq<Step>, i: nat)
    requires ValidRun(h, steps) && i <= |steps|
    ensures ValidRun(h, steps[..i]) && (i < |steps| ==> Enabled(After(h, steps[..i]), steps[i]))
    decreases i
  {
    if i > 0 {
      Prefix(Apply(h, steps[0]), steps[1..], i - 1);
      assert steps[..i][1..] == steps[1..][..i - 1];
    }
  }

  lemma AtNext(roisCommon: bool, steps: seq<Step>, i: nat)
    requires ValidRun(Init(roisCommon), steps) && i < |steps|
    ensures Inv(At(roisCommon, steps, i)) && Enabled(At(roisCommon, steps, i), steps[i])
    ensures At(roisCommon, steps, i + 1) == Apply(At(roisCommon, steps, i), steps[i])
  {
    hide Apply, Enabled, Inv;
    Prefix(Init(roisCommon), steps, i);
    RunSnoc(Init(roisCommon), steps[..i], steps[i]);
    assert steps[..i] + [steps[i]] == steps[..i + 1];
    assert Inv(Init(roisCommon)) by { InvOfInit(roisCommon); }
    InvAfter(Init(roisCommon), steps[..i]);
  }

  lemma InvOfInit(roisCommon: bool)
    ensures Inv(Init(roisCommon))
  {
  }

  /** The i-th step of a run lifts suspension k, and is one that may. */
  ghost predicate LiftedAt(roisCommon: bool, steps: seq<Step>, k: nat, i: nat)
    requires ValidRun(Init(roisCommon), steps)
  {
    && i < |steps| && At(roisCommon, steps, i).suspension == Some(k) && At(roisCommon, steps, i + 1).suspension != Some(k)
    && k < |At(roisCommon, steps, i).suspensions| && MayLift(At(roisCommon, steps, i), steps[i], k)
  }

  /** A suspension that was lifted stays so, and a new one is in force. */
  lemma StepKeepsLifted(h: Hosted, step: Step, k: nat)
    requires Inv(h) && Enabled(h, step)
    ensures |h.suspensions| <= |Apply(h, step).suspensions|
    ensures k < |h.suspensions| && h.suspension != Some(k) ==> Apply(h, step).suspension != Some(k)
    ensures |h.suspensions| <= k < |Apply(h, step).suspensions| ==> Apply(h, step).suspension == Some(k)
  {
    hide T.Apply, T.ArriveStep, T.StopStep, T.ShutdownStep;
  }

  lemma {:induction false} SuspensionsGrow(roisCommon: bool, steps: seq<Step>, i: nat, j: nat)
    requires ValidRun(Init(roisCommon), steps) && i <= j <= |steps|
    ensures |At(roisCommon, steps, i).suspensions| <= |At(roisCommon, steps, j).suspensions|
    decreases j
  {
    hide At, Apply, Enabled, Inv;
    if i < j {
      SuspensionsGrow(roisCommon, steps, i, j - 1);
      AtNext(roisCommon, steps, j - 1);
      StepKeepsLifted(At(roisCommon, steps, j - 1), steps[j - 1], 0);
    }
  }

  lemma AtStart(roisCommon: bool, steps: seq<Step>)
    requires ValidRun(Init(roisCommon), steps)
    ensures At(roisCommon, steps, 0).suspensions == []
  {
  }

  /** Whether the last of some steps lifts a suspension that was there. */
  lemma LastLifts(roisCommon: bool, steps: seq<Step>, k: nat, i: nat)
    requires ValidRun(Init(roisCommon), steps) && i < |steps| && k < |At(roisCommon, steps, i).suspensions|
    ensures At(roisCommon, steps, i).suspension != Some(k) ==> At(roisCommon, steps, i + 1).suspension != Some(k)
    ensures LiftedAt(roisCommon, steps, k, i) <==>
              At(roisCommon, steps, i).suspension == Some(k) && At(roisCommon, steps, i + 1).suspension != Some(k)
  {
    hide At, Apply, Enabled, Inv, MayLift;
    AtNext(roisCommon, steps, i);
    var h := At(roisCommon, steps, i);
    StepKeepsLifted(h, steps[i], k);
    if h.suspension == Some(k) && At(roisCommon, steps, i + 1).suspension != Some(k) { OnlyTheseLift(h, steps[i], k); }
  }

  /** A new suspension is in force, and was not lifted. */
  lemma NewIsNotLifted(roisCommon: bool, steps: seq<Step>, k: nat, j: nat)
    requires ValidRun(Init(roisCommon), steps) && 0 < j <= |steps|
    requires |At(roisCommon, steps, j - 1).suspensions| <= k < |At(roisCommon, steps, j).suspensions|
    ensures At(roisCommon, steps, j).suspension == Some(k)
    ensures forall i: nat | i < j :: !LiftedAt(roisCommon, steps, k, i)
  {
    hide At, Apply, Enabled, Inv, MayLift;
    AtNext(roisCommon, steps, j - 1);
    StepKeepsLifted(At(roisCommon, steps, j - 1), steps[j - 1], k);
    forall i: nat | i < j ensures !LiftedAt(roisCommon, steps, k, i) { SuspensionsGrow(roisCommon, steps, i, j - 1); }
  }

  lemma {:induction false} LiftedBefore(roisCommon: bool, steps: seq<Step>, k: nat, j: nat)
    requires ValidRun(Init(roisCommon), steps) && j <= |steps| && k < |At(roisCommon, steps, j).suspensions|
    ensures At(roisCommon, steps, j).suspension != Some(k) <==> exists i: nat :: i < j && LiftedAt(roisCommon, steps, k, i)
    decreases j
  {
    AtStart(roisCommon, steps);
    hide At, LiftedAt;
    if j > 0 {
      if k < |At(roisCommon, steps, j - 1).suspensions| {
        LiftedBefore(roisCommon, steps, k, j - 1);
        LastLifts(roisCommon, steps, k, j - 1);
      } else {
        NewIsNotLifted(roisCommon, steps, k, j);
      }
    }
  }

  /** In every run a suspension was lifted, and was so by exactly one step, or it is in force.
      The step is a stop that runs its handler, the end of the engine, a resume that ended OK,
      or the failure of the suspend that put it in force. */
  lemma LiftedByOneStep(roisCommon: bool, steps: seq<Step>, k: nat)
    requires ValidRun(Init(roisCommon), steps) && k < |After(Init(roisCommon), steps).suspensions|
    ensures After(Init(roisCommon), steps).suspensions[k].released
            <==> exists i: nat :: i < |steps| && LiftedAt(roisCommon, steps, k, i)
    ensures forall i: nat, j: nat | LiftedAt(roisCommon, steps, k, i) && LiftedAt(roisCommon, steps, k, j) :: i == j
  {
    InvAfter(Init(roisCommon), steps);
    assert LiftInv(After(Init(roisCommon), steps), k);
    assert steps[..|steps|] == steps;
    assert At(roisCommon, steps, |steps|) == After(Init(roisCommon), steps);
    LiftedBefore(roisCommon, steps, k, |steps|);
    forall i: nat, j: nat | LiftedAt(roisCommon, steps, k, i) && LiftedAt(roisCommon, steps, k, j) && i < j ensures false {
      LiftedBefore(roisCommon, steps, k, j);
    }
  }

  // -- The run in which the engine cancels a suspend -------------------------------------

  /** A component is started and suspended, and the suspend handler leaves when the engine
      cancels its command. */
  const CANCELLED := [SetOperable(true), Receive(Start), Receive(Suspend), HandlerEnds(1, WasCancelled), CancelSeen(1)]

  lemma NoRun(steps: seq<Step>)
    ensures ValidRun(Init(true), steps[..0]) && After(Init(true), steps[..0]) == Init(true)
  {
  }

  /** One more step of a run that is written out. */
  lemma Next(steps: seq<Step>, k: nat, h: Hosted)
    requires k < |steps| && ValidRun(Init(true), steps[..k]) && After(Init(true), steps[..k]) == h && Enabled(h, steps[k])
    ensures ValidRun(Init(true), steps[..k + 1]) && After(Init(true), steps[..k + 1]) == Apply(h, steps[k])
  {
    RunSnoc(Init(true), steps[..k], steps[k]);
    assert steps[..k] + [steps[k]] == steps[..k + 1];
  }

  /** The component that `CANCELLED` is about, once its suspend came. */
  function Suspended(phase: Phase, handler: Handler): Hosted {
    Hosted(true, true, T.ArriveStep(T.INIT),
           [Command(Start, InTurn(0), Unborn, None, false, Some(CLEAN)),
            Command(Suspend, phase, handler, Some(0), false, Some(Condition(true, true)))],
           Some(0), [Suspension(false, false, 0, 1)], [])
  }

  lemma SuspendArrives()
    ensures ValidRun(Init(true), CANCELLED[..3]) && After(Init(true), CANCELLED[..3]) == Suspended(Running, Live)
  {
    hide ValidRun, After, T.ArriveStep;
    NoRun(CANCELLED);
    Next(CANCELLED, 0, Init(true));
    var h1 := Init(true).(operable := true);
    Next(CANCELLED, 1, h1);
    var h2 := h1.(commands := [Suspended(Running, Live).commands[0]], turns := T.ArriveStep(T.INIT));
    assert ReceiveStep(h1, Start) == h2;
    Next(CANCELLED, 2, h2);
    StartedByArrival();
    assert ReceiveStep(h2, Suspend).commands == Suspended(Running, Live).commands;
  }

  lemma StartedByArrival()
    ensures T.ArriveStep(T.INIT).started
  {
  }

  lemma SuspendIsCancelled()
    ensures ValidRun(Init(true), CANCELLED)
    ensures After(Init(true), CANCELLED) == Suspended(Over(Cancelled), Done(WasCancelled))
  {
    hide ValidRun, After, T.ArriveStep;
    SuspendArrives();
    Next(CANCELLED, 3, Suspended(Running, Live));
    Next(CANCELLED, 4, Suspended(Running, Done(WasCancelled)));
    assert CANCELLED[..5] == CANCELLED;
  }

  /** The suspend ended without OK, its suspension stays in force, and the next function
      command waits on it. */
  lemma CancelledSuspendHolds()
    ensures ValidRun(Init(true), CANCELLED)
    ensures var h := After(Init(true), CANCELLED);
      && |h.commands| == 2 && h.commands[1].phase == Over(Cancelled) && h.suspension == h.commands[1].own == Some(0)
      && var n := ReceiveStep(h, Function); |n.commands| == 3 && n.commands[2].phase == Held(0)
  {
    hide ValidRun, After, T.ArriveStep;
    SuspendIsCancelled();
  }
}
