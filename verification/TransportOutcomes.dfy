/** What settles each send and each connect() of a transport, told from the steps of a run. */
module TransportOutcomes {
  import opened Wrappers
  import opened Transport

  // -- The states of a run ---------------------------------------------------------------

  /** The state of a run before its i-th step. */
  function At(steps: seq<Step>, i: nat): Transport
    requires i <= |steps|
  {
    After(INIT, steps[..i])
  }

  lemma {:induction false} Prefix(s: Transport, steps: seq<Step>, i: nat)
    requires ValidRun(s, steps) && i < |steps|
    ensures ValidRun(s, steps[..i]) && Enabled(After(s, steps[..i]), steps[i])
    ensures After(s, steps[..i + 1]) == Apply(After(s, steps[..i]), steps[i])
    decreases i
  {
    hide Enabled, Apply;
    assert steps[..i + 1][1..] == steps[1..][..i];
    if i > 0 {
      Prefix(Apply(s, steps[0]), steps[1..], i - 1);
      assert steps[..i][1..] == steps[1..][..i - 1];
    }
  }

  lemma AtNext(steps: seq<Step>, i: nat)
    requires ValidRun(INIT, steps) && i < |steps|
    ensures Inv(At(steps, i)) && Enabled(At(steps, i), steps[i]) && At(steps, i + 1) == Apply(At(steps, i), steps[i])
  {
    hide Inv, Enabled, Apply, After, ValidRun;
    Prefix(INIT, steps, i);
    InvOfInit();
    InvAfter(INIT, steps[..i]);
  }

  lemma InvOfInit()
    ensures Inv(INIT)
  {
  }

  lemma AtEnds(steps: seq<Step>)
    ensures At(steps, 0) == INIT && At(steps, |steps|) == After(INIT, steps)
  {
    assert steps[..|steps|] == steps;
  }

  // -- Sends -----------------------------------------------------------------------------

  /** A send that was accepted and that nothing settled yet. */
  predicate Unsettled(sent: Sent) {
    sent.accepted && sent.outcomes == []
  }

  /** A step that settles a send that waits: the response with its id on its connection, its
      timer, or the end of its connection, by the other side or by a close() with arguments
      that are allowed and a socket that does not throw. */
  predicate Settles(sent: Sent, step: Step, outcome: Outcome) {
    match outcome
    case Answered => step == Receives(sent.socket, Response(sent.id))
    case TimedOut => step == RequestTimeout(sent.id)
    case Dropped => step == Closes(sent.socket) || EndsConnection(step)
  }

  predicate EndsConnection(step: Step) {
    step.CloseCall? && !step.throws && (step.code == 1000 || 3000 <= step.code <= 4999) && step.reasonBytes <= 123
  }

  /** A send that waits is pending, on the open connection. */
  lemma UnsettledWaits(s: Transport, j: nat)
    requires Inv(s) && j < |s.sends| && Unsettled(s.sends[j])
    ensures s.sends[j].id == SendId(j) && SendId(j) in s.pending && s.pending[SendId(j)] == j && SendId(j) in s.timers
    ensures s.state == CONNECTED && s.ws == Some(s.sends[j].socket) && s.wired == {s.sends[j].socket} && s.abortConnect == None
  {
    PendingIsOwn(s, j);
    hide SendId;
  }

  lemma AnswerSettles(s: Transport, j: nat)
    requires Inv(s) && j < |s.sends| && Unsettled(s.sends[j])
    ensures var sent := s.sends[j];
      var t := ReceivesStep(s, sent.socket, Response(sent.id));
      t == s.(sends := s.sends[j := sent.(outcomes := [Answered])], pending := s.pending - {sent.id}, timers := s.timers - {sent.id})
  {
    hide Inv, SendId;
    UnsettledWaits(s, j);
    assert s.sends[j].outcomes + [Answered] == [Answered];
  }

  lemma TimeoutSettles(s: Transport, j: nat)
    requires Inv(s) && j < |s.sends| && Unsettled(s.sends[j])
    ensures var sent := s.sends[j];
      var t := TimeoutStep(s, sent.id);
      t == s.(sends := s.sends[j := sent.(outcomes := [TimedOut])], pending := s.pending - {sent.id}, timers := s.timers - {sent.id})
  {
    hide Inv, SendId;
    UnsettledWaits(s, j);
    assert s.sends[j].outcomes + [TimedOut] == [TimedOut];
  }

  lemma EndSettles(s: Transport, step: Step)
    requires Inv(s) && Enabled(s, step) && s.state == CONNECTED && (EndsConnection(step) || (s.ws.Some? && step == Closes(s.ws.value)))
    ensures var t := Apply(s, step);
      && t.pending == map[] && t.state == DISCONNECTED && t.ws == None && |t.sends| == |s.sends|
      && forall j | 0 <= j < |s.sends| ::
           t.sends[j] == if Unsettled(s.sends[j]) then s.sends[j].(outcomes := [Dropped]) else s.sends[j]
  {
    hide SendId;
    forall j: nat | j < |s.sends| ensures j in s.pending.Values <==> Unsettled(s.sends[j]) { PendingIsOwn(s, j); }
    hide Inv;
  }

  /** Each settles a send that waits, and it waits no longer. */
  lemma StepSettles(s: Transport, step: Step, j: nat, outcome: Outcome)
    requires Inv(s) && Enabled(s, step) && j < |s.sends| && Unsettled(s.sends[j]) && Settles(s.sends[j], step, outcome)
    ensures j < |Apply(s, step).sends| && Apply(s, step).sends[j] == s.sends[j].(outcomes := [outcome])
    ensures s.sends[j].id !in Apply(s, step).pending && s.sends[j].id !in Apply(s, step).timers
  {
    hide Inv, SendId, RejectAll, Settle;
    UnsettledWaits(s, j);
    match outcome
    case Answered => AnswerSettles(s, j);
    case TimedOut => TimeoutSettles(s, j);
    case Dropped =>
      EndSettles(s, step);
      StepKeeps(s, step);
      NoTimers(Apply(s, step));
  }

  lemma NoTimers(s: Transport)
    requires Inv(s) && s.pending == map[]
    ensures s.timers == {}
  {
  }

  /** No other step touches a send. */
  lemma StepLeaves(s: Transport, step: Step, j: nat)
    requires Inv(s) && Enabled(s, step) && j < |s.sends|
    requires !Unsettled(s.sends[j]) || forall outcome :: !Settles(s.sends[j], step, outcome)
    ensures j < |Apply(s, step).sends| && Apply(s, step).sends[j] == s.sends[j]
  {
    PendingIsOwn(s, j);
    assert !Settles(s.sends[j], step, Answered) || !Unsettled(s.sends[j]);
    assert !Settles(s.sends[j], step, TimedOut) || !Unsettled(s.sends[j]);
    assert !Settles(s.sends[j], step, Dropped) || !Unsettled(s.sends[j]);
    hide SendId;
  }

  /** The i-th step of a run settles a send that waits. */
  ghost predicate SettledAt(steps: seq<Step>, j: nat, outcome: Outcome, i: nat) {
    i < |steps| && j < |At(steps, i).sends| && Unsettled(At(steps, i).sends[j]) && Settles(At(steps, i).sends[j], steps[i], outcome)
  }

  ghost predicate SettledBefore(steps: seq<Step>, j: nat, outcome: Outcome, n: nat) {
    exists i: nat :: i < n && SettledAt(steps, j, outcome, i)
  }

  lemma SettledNext(steps: seq<Step>, j: nat, outcome: Outcome, n: nat)
    ensures SettledBefore(steps, j, outcome, n + 1) <==> SettledBefore(steps, j, outcome, n) || SettledAt(steps, j, outcome, n)
  {
    hide SettledAt;
  }

  /** One more step settles a send exactly as `Settles` says. */
  lemma NextOutcome(steps: seq<Step>, j: nat, outcome: Outcome, i: nat)
    requires ValidRun(INIT, steps) && i < |steps| && j < |At(steps, i).sends|
    ensures j < |At(steps, i + 1).sends|
    ensures At(steps, i + 1).sends[j].outcomes == [outcome]
            <==> At(steps, i).sends[j].outcomes == [outcome] || SettledAt(steps, j, outcome, i)
  {
    hide Inv, Enabled, Apply, At, Settles;
    AtNext(steps, i);
    var s := At(steps, i);
    if other :| Unsettled(s.sends[j]) && Settles(s.sends[j], steps[i], other) {
      StepSettles(s, steps[i], j, other);
      OneOutcome(s, steps[i], j, other, outcome);
    } else {
      StepLeaves(s, steps[i], j);
    }
  }

  lemma OneOutcome(s: Transport, step: Step, j: nat, a: Outcome, b: Outcome)
    requires j < |s.sends| && Settles(s.sends[j], step, a)
    ensures Settles(s.sends[j], step, b) <==> a == b
  {
  }

  lemma NewIsUnsettled(s: Transport, step: Step, j: nat)
    requires |s.sends| <= j < |Apply(s, step).sends|
    ensures Apply(s, step).sends[j].outcomes == []
  {
    hide RequestId;
  }

  lemma SendsGrow(s: Transport, step: Step)
    ensures |s.sends| <= |Apply(s, step).sends|
  {
    hide RequestId;
  }

  lemma {:induction false} SendsStay(steps: seq<Step>, i: nat, n: nat)
    requires ValidRun(INIT, steps) && i <= n <= |steps|
    ensures |At(steps, i).sends| <= |At(steps, n).sends|
    decreases n
  {
    hide Inv, Enabled, Apply, At;
    if i < n {
      SendsStay(steps, i, n - 1);
      AtNext(steps, n - 1);
      SendsGrow(At(steps, n - 1), steps[n - 1]);
    }
  }

  lemma {:induction false} OutcomeBy(steps: seq<Step>, j: nat, outcome: Outcome, n: nat)
    requires ValidRun(INIT, steps) && n <= |steps| && j < |At(steps, n).sends|
    ensures At(steps, n).sends[j].outcomes == [outcome] <==> SettledBefore(steps, j, outcome, n)
    decreases n
  {
    hide Inv, Enabled, Apply, At, SettledBefore, SettledAt;
    AtEnds(steps);
    if n > 0 {
      AtNext(steps, n - 1);
      if j < |At(steps, n - 1).sends| {
        OutcomeBy(steps, j, outcome, n - 1);
        NextOutcome(steps, j, outcome, n - 1);
        SettledNext(steps, j, outcome, n - 1);
      } else {
        NewIsUnsettled(At(steps, n - 1), steps[n - 1], j);
        NotBefore(steps, j, outcome, n);
      }
    }
  }

  lemma NotBefore(steps: seq<Step>, j: nat, outcome: Outcome, n: nat)
    requires ValidRun(INIT, steps) && 0 < n <= |steps| && |At(steps, n - 1).sends| <= j
    ensures !SettledBefore(steps, j, outcome, n)
  {
    forall i: nat | i < n ensures !SettledAt(steps, j, outcome, i) { SendsStay(steps, i, n - 1); }
  }

  /** In every run a send that was accepted was answered exactly when the response with its id
      came on its connection while it waited. It timed out exactly when its timer fired while
      it waited, and was dropped exactly when its connection ended while it waited. */
  lemma OutcomeIff(steps: seq<Step>, j: nat, outcome: Outcome)
    requires ValidRun(INIT, steps) && j < |After(INIT, steps).sends|
    ensures After(INIT, steps).sends[j].outcomes == [outcome]
            <==> exists i: nat :: i < |steps| && SettledAt(steps, j, outcome, i)
  {
    hide After, At, ValidRun, SettledAt;
    AtEnds(steps);
    OutcomeBy(steps, j, outcome, |steps|);
  }

  /** What the step that settles send `j` does to another one. */
  predicate OtherSettles(s: Transport, t: Transport, outcome: Outcome, k: nat)
    requires k < |s.sends|
  {
    k < |t.sends| && t.sends[k] == if outcome == Dropped && Unsettled(s.sends[k]) then s.sends[k].(outcomes := [Dropped]) else s.sends[k]
  }

  lemma OtherSettled(s: Transport, step: Step, j: nat, outcome: Outcome, k: nat)
    requires Inv(s) && Enabled(s, step) && j < |s.sends| && Unsettled(s.sends[j]) && Settles(s.sends[j], step, outcome)
    requires k < |s.sends| && k != j
    ensures OtherSettles(s, Apply(s, step), outcome, k)
  {
    hide Inv, Apply, Enabled, SendId;
    UnsettledWaits(s, j);
    if outcome == Dropped {
      EndSettles(s, step);
    } else {
      OtherIds(s, k, j);
      StepLeaves(s, step, k);
    }
  }

  predicate OthersSettle(s: Transport, t: Transport, outcome: Outcome, j: nat) {
    forall k: nat :: k < |s.sends| && k != j ==> OtherSettles(s, t, outcome, k)
  }

  lemma StepSettlesOthers(s: Transport, step: Step, j: nat, outcome: Outcome)
    requires Inv(s) && Enabled(s, step) && j < |s.sends| && Unsettled(s.sends[j]) && Settles(s.sends[j], step, outcome)
    ensures OthersSettle(s, Apply(s, step), outcome, j)
  {
    hide Inv, Apply, Enabled, Settles, Unsettled, OtherSettles;
    var t := Apply(s, step);
    forall k: nat | k < |s.sends| && k != j ensures OtherSettles(s, t, outcome, k) {
      OtherSettled(s, step, j, outcome, k);
    }
  }

  /** In every run the step that settles a send also takes it from the requests that wait, with
      its timer. The other sends that wait are settled with it exactly when the connection
      ends. */
  lemma SettledWaitsNoLonger(steps: seq<Step>, j: nat, outcome: Outcome, i: nat)
    requires ValidRun(INIT, steps) && SettledAt(steps, j, outcome, i)
    ensures var t := At(steps, i + 1);
      && j < |t.sends| && t.sends[j].outcomes == [outcome]
      && t.sends[j].id !in t.pending && t.sends[j].id !in t.timers
      && OthersSettle(At(steps, i), t, outcome, j)
  {
    hide Inv, Enabled, Apply, At, Settles, Unsettled, OthersSettle;
    AtNext(steps, i);
    var s := At(steps, i);
    StepSettles(s, steps[i], j, outcome);
    StepSettlesOthers(s, steps[i], j, outcome);
  }

  lemma OtherIds(s: Transport, k: nat, j: nat)
    requires Inv(s) && k < |s.sends| && j < |s.sends| && k != j
    ensures s.sends[k].id != s.sends[j].id
  {
    if SendId(k) == SendId(j) { RequestIdInjective(k + 1, j + 1); }
  }

  /** A send on a transport that is connected is recorded, as accepted unless the socket threw,
      under an id of its own, and waits. On one that is not connected it changes nothing. */
  predicate Recorded(s: Transport, t: Transport, throws: bool) {
    if s.state != CONNECTED then t == s
    else
      && |t.sends| == |s.sends| + 1 && t.sends[..|s.sends|] == s.sends && s.ws.Some?
      && var sent := t.sends[|s.sends|];
         && sent.accepted == !throws && sent.outcomes == [] && sent.socket == s.ws.value
         && (forall k | 0 <= k < |s.sends| :: s.sends[k].id != sent.id)
         && (sent.id in t.pending <==> !throws) && (sent.id in t.timers <==> !throws)
  }

  lemma SendRecords(s: Transport, throws: bool)
    requires Inv(s)
    ensures Recorded(s, SendStep(s, throws), throws)
  {
    hide RequestId, SendId, SettledOnce, ConnectsSettled, Alternates;
    NewIdIsFree(s);
    var t := SendStep(s, throws);
    if s.state == CONNECTED { assert t.sends[..|s.sends|] == s.sends; }
  }

  lemma SendIsRecorded(steps: seq<Step>, i: nat, throws: bool)
    requires ValidRun(INIT, steps) && i < |steps| && steps[i] == Send(throws)
    ensures Recorded(At(steps, i), At(steps, i + 1), throws)
  {
    hide At, Inv, SendStep, Recorded;
    AtNext(steps, i);
    SendRecords(At(steps, i), throws);
  }

  // -- Connects --------------------------------------------------------------------------

  /** Whether a step settles the connect() that made socket k, and how: it opens, or it throws
      as it is made, fails, closes, takes too long or is closed by the client. */
  predicate SettlesConnect(s: Transport, step: Step, k: nat, ok: bool) {
    if ok then step == Opens(k) && s.state == CONNECTING && s.ws == Some(k)
    else
      || (step == Connect(true) && s.state == DISCONNECTED && k == |s.connects|)
      || (s.state == CONNECTING && s.ws == Some(k)
          && (step == Errors(k) || step == Closes(k) || step == ConnectTimeout(k)
              || (step.CloseCall? && (step.code == 1000 || 3000 <= step.code <= 4999) && step.reasonBytes <= 123)))
  }

  lemma ConnectSettles(s: Transport, k: nat, ok: bool)
    requires k < |s.connects| && s.connects[k] == []
    ensures SettleConnect(s, k, ok) == s.(connects := s.connects[k := [ok]])
  {
    assert s.connects[k] + [ok] == [ok];
  }

  lemma FailConnects(s: Transport, k: nat)
    requires k < |s.connects| && s.connects[k] == []
    ensures Fail(s, k).connects == s.connects[k := [false]]
  {
    hide SettleConnect;
    var m := Cleanup(s.(connectTimers := s.connectTimers - {k}, abortConnect := None)).(state := DISCONNECTED);
    ConnectSettles(m, k, false);
  }

  /** What a step does to how the connects were settled. */
  predicate Connects(s: Transport, step: Step, t: Transport) {
    var k := if s.ws.Some? then s.ws.value else 0;
    if step.Connect? && s.state == DISCONNECTED then t.connects == s.connects + [if step.throws then [false] else []]
    else if s.state == CONNECTING && s.ws.Some? && SettlesConnect(s, step, k, true) then k < |s.connects| && t.connects == s.connects[k := [true]]
    else if s.state == CONNECTING && s.ws.Some? && SettlesConnect(s, step, k, false) then k < |s.connects| && t.connects == s.connects[k := [false]]
    else t.connects == s.connects
  }

  lemma StepConnects(s: Transport, step: Step)
    requires Inv(s) && Enabled(s, step)
    ensures Connects(s, step, Apply(s, step))
  {
    hide Waiting, SettledOnce, Alternates, SettleConnect, Fail;
    if s.state == CONNECTING {
      var k := s.ws.value;
      FailConnects(s, k);
      if step == Opens(k) {
        ConnectSettles(s.(connectTimers := s.connectTimers - {k}, abortConnect := None, state := CONNECTED,
                          everOpened := s.everOpened + {k}, log := s.log + [Open]), k, true);
      }
    }
  }

  lemma ConnectsIff(s: Transport, step: Step, t: Transport, k: nat, ok: bool)
    requires OneConnection(s) && ConnectsSettled(s) && Connects(s, step, t)
    ensures k < |t.connects| && t.connects[k] == [ok] <==>
              (k < |s.connects| && s.connects[k] == [ok]) || SettlesConnect(s, step, k, ok)
  {
  }

  ghost predicate ConnectSettledAt(steps: seq<Step>, k: nat, ok: bool, i: nat) {
    i < |steps| && SettlesConnect(At(steps, i), steps[i], k, ok)
  }

  ghost predicate ConnectSettledBefore(steps: seq<Step>, k: nat, ok: bool, n: nat) {
    exists i: nat :: i < n && ConnectSettledAt(steps, k, ok, i)
  }

  lemma ConnectSettledNext(steps: seq<Step>, k: nat, ok: bool, n: nat)
    ensures ConnectSettledBefore(steps, k, ok, n + 1) <==> ConnectSettledBefore(steps, k, ok, n) || ConnectSettledAt(steps, k, ok, n)
  {
    hide ConnectSettledAt;
  }

  lemma ConnectsNext(s: Transport, step: Step, k: nat, ok: bool)
    requires Inv(s) && Enabled(s, step)
    ensures k < |Apply(s, step).connects| && Apply(s, step).connects[k] == [ok] <==>
              (k < |s.connects| && s.connects[k] == [ok]) || SettlesConnect(s, step, k, ok)
  {
    hide Apply, Enabled, Connects, SettlesConnect, Waiting, SettledOnce, Alternates, OneConnection, ConnectsSettled;
    StepConnects(s, step);
    ConnectsIff(s, step, Apply(s, step), k, ok);
  }

  lemma {:induction false} ConnectBy(steps: seq<Step>, k: nat, ok: bool, n: nat)
    requires ValidRun(INIT, steps) && n <= |steps|
    ensures k < |At(steps, n).connects| && At(steps, n).connects[k] == [ok] <==> ConnectSettledBefore(steps, k, ok, n)
    decreases n
  {
    hide Inv, Enabled, Apply, At, SettlesConnect, ConnectSettledBefore;
    AtEnds(steps);
    if n > 0 {
      ConnectBy(steps, k, ok, n - 1);
      AtNext(steps, n - 1);
      ConnectsNext(At(steps, n - 1), steps[n - 1], k, ok);
      ConnectSettledNext(steps, k, ok, n - 1);
    } else {
      NoneConnected(steps, k, ok);
    }
  }

  lemma NoneConnected(steps: seq<Step>, k: nat, ok: bool)
    ensures !ConnectSettledBefore(steps, k, ok, 0)
  {
  }

  /** In every run a connect() resolved exactly when its socket opened while it was in progress.
      It was rejected exactly when its socket could not be made, or failed, closed, took too
      long or was closed by the client while it was in progress. */
  lemma ConnectIff(steps: seq<Step>, k: nat, ok: bool)
    requires ValidRun(INIT, steps) && k < |After(INIT, steps).connects|
    ensures After(INIT, steps).connects[k] == [ok] <==> exists i: nat :: i < |steps| && ConnectSettledAt(steps, k, ok, i)
  {
    hide After, At, ValidRun, ConnectSettledAt;
    AtEnds(steps);
    ConnectBy(steps, k, ok, |steps|);
  }

  // -- The state -------------------------------------------------------------------------

  /** The state and the socket after a step: an attempt begins, resolves or is rejected, and a
      connection ends, exactly by the steps that settle connects and drop sends. */
  predicate Moves(s: Transport, step: Step, t: Transport) {
    var k := if s.ws.Some? then s.ws.value else 0;
    if step == Connect(false) && s.state == DISCONNECTED then t.state == CONNECTING && t.ws == Some(|s.connects|)
    else if s.state == CONNECTING && SettlesConnect(s, step, k, true) then t.state == CONNECTED && t.ws == s.ws
    else if s.state == CONNECTING && SettlesConnect(s, step, k, false) then t.state == DISCONNECTED && t.ws == None
    else if s.state == CONNECTED && (step == Closes(k) || EndsConnection(step)) then t.state == DISCONNECTED && t.ws == None
    else t.state == s.state && t.ws == s.ws
  }

  lemma StepMoves(s: Transport, step: Step)
    requires Inv(s) && Enabled(s, step)
    ensures Moves(s, step, Apply(s, step))
  {
    hide Waiting, SettledOnce, Alternates, ConnectsSettled, RequestId;
  }

  /** In every run the transport is connected exactly between the step that resolves a connect()
      and the one that ends its connection. */
  lemma StateMoves(steps: seq<Step>, i: nat)
    requires ValidRun(INIT, steps) && i < |steps|
    ensures Moves(At(steps, i), steps[i], At(steps, i + 1))
  {
    hide At, Inv, Enabled, Apply, Moves;
    AtNext(steps, i);
    StepMoves(At(steps, i), steps[i]);
  }
}
