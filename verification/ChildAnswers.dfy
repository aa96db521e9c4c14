/** What a caller of a child proxy is answered: the reply and the completion the child sent for
    it, or ERROR for one of a few named reasons. */
module ChildAnswers {
  import opened Wrappers
  import opened Sequences
  import opened Commands
  import opened Child
  import opened ChildProofs
  import opened ChildTheorems
  import opened ChildEndings

  // -- One step --------------------------------------------------------------------------

  /** A reply that grants an id the parent may not use: one that is not the child's, or that
      another subscription or parameter change of its kind has. */
  predicate Unusable(s: Proxy, kind: Kind, reply: Reply) {
    && reply.ok
    && ((kind.Subscribe? && (!Owns(s.engineIds, reply.id) || reply.id in s.deliveries))
        || (kind.SetParameter? && (!Owns(s.engineIds, reply.id) || reply.id in s.parameters)))
  }

  /** The step answers request `r`, which is pending: with the reply of the child, but for one
      that grants an unusable id, or with ERROR when the connection ends. */
  predicate Arrives(s: Proxy, step: Step, r: nat, answer: Reply) {
    && r in s.pending && r < |s.requests|
    && match step
       case HandleReply(q, reply) => q == r && answer == if Unusable(s, s.requests[r].kind, reply) then FAILED else reply
       case Detach => answer == FAILED
       case _ => false
  }

  /** The step completes what request `r` started: a completed notification of its id, or the
      end of the connection. */
  predicate Completes(s: Proxy, step: Step, r: nat, status: Status) {
    match step
    case Completed(id, reported) =>
      && reported == status
      && ((id in s.running && s.running[id] == r) || (id !in s.running && id in s.parameters && s.parameters[id] == r))
    case Detach => (r in s.running.Values || r in s.parameters.Values) && status == ERROR
    case _ => false
  }

  /** The step ends request `r`. */
  predicate EndsAs(s: Proxy, step: Step, r: nat, end: End) {
    && r < |s.requests|
    && var q := s.requests[r];
       match end
       case Replied(reply) => (step == Wake(r) && q.future == Set(reply)) || (step == SendFails(r) && reply == FAILED)
       case Followed(status) => (step == Follow(r) && q.done == Some(status)) || (step == StopFollowing(r, true) && status == ERROR)
       case TimedOut => step == Unwind(r) && q.phase == Struck(true)
       case GivenUp => (step == Unwind(r) && q.phase == Struck(false)) || step == StopFollowing(r, false)
  }

  /** What a step does to a request that was there. */
  predicate Moves(s: Proxy, step: Step, t: Proxy, r: nat)
    requires r < |s.requests| && r < |t.requests|
  {
    var q, p := s.requests[r], t.requests[r];
    && p.kind == q.kind
    && (p.future.Set? ==> q.future == p.future || Arrives(s, step, r, p.future.reply))
    && (p.done.Some? ==> q.done == p.done || Completes(s, step, r, p.done.value))
    && (p.phase.Over? ==> q.phase == p.phase || EndsAs(s, step, r, p.phase.end))
    && (p.phase.Struck? ==> q.phase == p.phase || step == Strike(r, p.phase.timeout))
    && (p.future == Withdrawn <==> q.future == Withdrawn || Withdraws(q, step, r))
  }

  /** The step strikes the caller of request `r` as it waits for a reply that has not come. */
  predicate Withdraws(q: Request, step: Step, r: nat) {
    step.Strike? && step.r == r && q.phase == Awaiting && q.future == Unset
  }

  lemma SameMoves(s: Proxy, step: Step, t: Proxy, r: nat)
    requires r < |s.requests| && r < |t.requests|
    requires var q, p := s.requests[r], t.requests[r]; p.kind == q.kind && p.future == q.future && p.done == q.done && p.phase == q.phase
    requires !Withdraws(s.requests[r], step, r)
    ensures Moves(s, step, t, r)
  {
  }

  lemma PendingMoves(s: Proxy, q: nat, reply: Reply, r: nat)
    requires q in s.pending && q < |s.requests| && r < |s.requests|
    ensures r < |PendingReply(s, q, reply).requests| && Moves(s, HandleReply(q, reply), PendingReply(s, q, reply), r)
  {
    hide Owns;
  }

  lemma LateMoves(s: Proxy, q: nat, reply: Reply, r: nat)
    requires q < |s.requests| && r < |s.requests|
    ensures r < |LateReply(s, q, reply).requests|
    ensures var a, b := s.requests[r], LateReply(s, q, reply).requests[r];
      b.kind == a.kind && b.future == a.future && b.done == a.done && b.phase == a.phase
  {
    hide Owns, EndLate, Without;
    var request := s.requests[q].(consumed := s.requests[q].consumed + 1,
                                  granted := if reply.ok then s.requests[q].granted + {reply.id} else s.requests[q].granted);
    var m := Put(s, q, request).(late := Without(s.late, q));
    if reply.ok { EndLateCounts(m, q, reply.id); }
  }

  lemma ReplyMoves(s: Proxy, q: nat, reply: Reply, r: nat)
    requires r < |s.requests|
    ensures r < |ReplyStep(s, q, reply).requests| && Moves(s, HandleReply(q, reply), ReplyStep(s, q, reply), r)
  {
    hide Moves, PendingReply, LateReply;
    if q < |s.requests| {
      if q in s.pending {
        PendingMoves(s, q, reply, r);
      } else if q in s.late {
        LateMoves(s, q, reply, r);
        SameMoves(s, HandleReply(q, reply), LateReply(s, q, reply), r);
      } else {
        SameMoves(s, HandleReply(q, reply), s, r);
      }
    } else {
      SameMoves(s, HandleReply(q, reply), s, r);
    }
  }

  lemma CallMoves(s: Proxy, step: Step, m: Proxy, kind: Kind, r: nat)
    requires r < |s.requests| && m.requests == s.requests && !step.Strike?
    ensures r < |CallStep(m, kind).requests| && Moves(s, step, CallStep(m, kind), r)
  {
    hide Moves;
    SameMoves(s, step, CallStep(m, kind), r);
  }

  lemma LeaveEnds(s: Proxy, q: nat, end: End, r: nat)
    requires q < |s.requests| && r < |s.requests|
    ensures r < |Leave(s, q, end).requests|
    ensures Leave(s, q, end).requests[r] == if r == q then s.requests[r].(phase := Over(end)) else s.requests[r]
  {
  }

  predicate SameBut(q: Request, p: Request) {
    p.kind == q.kind && p.future == q.future && p.done == q.done
  }

  lemma RememberSame(s: Proxy, r: nat)
    requires Ranges(s) && r < |s.requests| && r !in s.late
    ensures r < |Remember(s, r).requests| && SameBut(s.requests[r], Remember(s, r).requests[r])
  {
    hide Remember, Ranges;
    RememberRanges(s, r);
  }

  lemma EndLateSame(s: Proxy, r: nat, id: string)
    requires r < |s.requests|
    ensures r < |EndLate(s, r, id).requests| && SameBut(s.requests[r], EndLate(s, r, id).requests[r])
  {
    hide EndLate;
    EndLateCounts(s, r, id);
  }

  /** What an except-branch leaves of its own request. */
  lemma UnwindLeaves(s: Proxy, r: nat)
    requires Ranges(s) && r !in s.late && Enabled(s, Unwind(r))
    ensures var t := UnwindStep(s, r);
      && r < |t.requests| && SameBut(s.requests[r], t.requests[r])
      && t.requests[r].phase == Over(if s.requests[r].phase.timeout then TimedOut else GivenUp)
  {
    hide Remember, EndLate, Leave, Ranges;
    var q := s.requests[r];
    var end := if q.phase.timeout then TimedOut else GivenUp;
    RememberSame(s, r);
    LeaveEnds(Remember(s, r), r, end, r);
    LeaveEnds(s, r, end, r);
    if q.future.Set? {
      EndLateSame(s, r, q.future.reply.id);
      LeaveEnds(EndLate(s, r, q.future.reply.id), r, end, r);
    }
  }

  lemma NotLateYet(s: Proxy, r: nat)
    requires Inv(s) && Enabled(s, Unwind(r))
    ensures Ranges(s) && r !in s.late
  {
    assert Fits(s, r);
  }

  lemma UnwindMoves(s: Proxy, q: nat, r: nat)
    requires Inv(s) && Enabled(s, Unwind(q)) && r < |s.requests|
    ensures r < |UnwindStep(s, q).requests| && Moves(s, Unwind(q), UnwindStep(s, q), r)
  {
    hide Inv, UnwindStep, Completes, Arrives;
    if q == r {
      NotLateYet(s, r);
      UnwindLeaves(s, r);
    } else {
      UnwindOther(s, q, r);
    }
  }

  lemma WakeMoves(s: Proxy, q: nat, r: nat)
    requires Enabled(s, Wake(q)) && r < |s.requests|
    ensures r < |WakeStep(s, q).requests| && Moves(s, Wake(q), WakeStep(s, q), r)
  {
    hide Completes, Arrives, Leave;
    LeaveEnds(s, q, Replied(s.requests[q].future.reply), r);
  }

  lemma BackMoves(s: Proxy, step: Step, q: nat, end: End, r: nat)
    requires r < |s.requests| && q < |s.requests| && EndsAs(s, step, q, end)
    ensures r < |BackStep(s, q, end).requests| && Moves(s, step, BackStep(s, q, end), r)
  {
    hide Completes, Arrives;
  }

  lemma CompleteSets(s: Proxy, q: nat, status: Status, r: nat)
    requires r < |s.requests|
    ensures r < |Complete(s, q, status).requests|
    ensures Complete(s, q, status).requests[r]
            == if r == q && s.requests[r].done == None then s.requests[r].(done := Some(status)) else s.requests[r]
  {
  }

  lemma CompletedMoves(s: Proxy, id: string, status: Status, r: nat)
    requires r < |s.requests|
    ensures r < |CompletedStep(s, id, status).requests| && Moves(s, Completed(id, status), CompletedStep(s, id, status), r)
  {
    hide Arrives, EndsAs, Complete;
    if id in s.running { CompleteSets(s, s.running[id], status, r); }
    else if id in s.parameters { CompleteSets(s, s.parameters[id], status, r); }
  }

  lemma DetachMoves(s: Proxy, r: nat)
    requires r < |s.requests|
    ensures r < |DetachStep(s).requests| && Moves(s, Detach, DetachStep(s), r)
  {
    hide EndsAs, Owns;
    assert DetachStep(s).requests[r] == Detached(s, r);
  }

  lemma SmallMoves(s: Proxy, step: Step, r: nat)
    requires Enabled(s, step) && r < |s.requests|
    requires step.Sent? || step.SendFails? || step.Strike? || step.SetEngineIds?
    ensures r < |Apply(s, step).requests| && Moves(s, step, Apply(s, step), r)
  {
    hide Completes, Arrives, Owns;
  }

  lemma StepMoves(s: Proxy, step: Step, r: nat)
    requires Inv(s) && Enabled(s, step) && r < |s.requests|
    ensures r < |Apply(s, step).requests| && Moves(s, step, Apply(s, step), r)
  {
    hide Inv, Moves, CallStep, StrikeStep, UnwindStep, WakeStep, ReplyStep, CompletedStep, BackStep, DetachStep, Leave;
    match step
    case Call(kind) => CallMoves(s, step, s, kind, r);
    case Unwind(q) => UnwindMoves(s, q, r);
    case Wake(q) => WakeMoves(s, q, r);
    case HandleReply(q, reply) => ReplyMoves(s, q, reply, r);
    case Completed(id, status) => CompletedMoves(s, id, status, r);
    case Follow(q) => BackMoves(s, step, q, Followed(s.requests[q].done.value), r);
    case StopFollowing(q, timeout) => BackMoves(s, step, q, if timeout then Followed(ERROR) else GivenUp, r);
    case Unsubscribe(id) => CallMoves(s, step, s.(deliveries := s.deliveries - {id}), Plain, r);
    case BeginEnding(k) => BeginMoves(s, k, r);
    case Detach => DetachMoves(s, r);
    case _ => SmallMoves(s, step, r);
  }

  lemma BeginMoves(s: Proxy, k: nat, r: nat)
    requires Enabled(s, BeginEnding(k)) && r < |s.requests|
    ensures r < |Apply(s, BeginEnding(k)).requests| && Moves(s, BeginEnding(k), Apply(s, BeginEnding(k)), r)
  {
    hide Moves;
    SameMoves(s, BeginEnding(k), Apply(s, BeginEnding(k)), r);
  }

  // -- Over every run --------------------------------------------------------------------

  ghost predicate ArrivesAt(steps: seq<Step>, r: nat, answer: Reply, i: nat)
    requires ValidRun(INIT, steps)
  {
    i < |steps| && Arrives(At(steps, i), steps[i], r, answer)
  }

  ghost predicate CompletesAt(steps: seq<Step>, r: nat, status: Status, i: nat)
    requires ValidRun(INIT, steps)
  {
    i < |steps| && Completes(At(steps, i), steps[i], r, status)
  }

  ghost predicate EndsAt(steps: seq<Step>, r: nat, end: End, i: nat)
    requires ValidRun(INIT, steps)
  {
    i < |steps| && EndsAs(At(steps, i), steps[i], r, end)
  }

  /** The request was made on a connection that was closed. */
  ghost predicate MadeClosed(steps: seq<Step>, r: nat, i: nat)
    requires ValidRun(INIT, steps)
  {
    i < |steps| && !At(steps, i).open && |At(steps, i).requests| == r
  }

  /** What was set on a request was set by a step of the run. */
  ghost predicate Told(steps: seq<Step>, r: nat, q: Request, i: nat)
    requires ValidRun(INIT, steps)
  {
    && (q.future.Set? ==> exists j: nat :: j < i && ArrivesAt(steps, r, q.future.reply, j))
    && (q.done.Some? ==> exists j: nat :: j < i && CompletesAt(steps, r, q.done.value, j))
    && (q.phase.Over? ==> (exists j: nat :: j < i && EndsAt(steps, r, q.phase.end, j))
                          || (q.phase.end == Replied(FAILED) && exists j: nat :: j < i && MadeClosed(steps, r, j)))
    && (q.phase.Struck? ==> exists j: nat :: j < i && j < |steps| && steps[j] == Strike(r, q.phase.timeout))
  }

  lemma ToldNext(steps: seq<Step>, r: nat, q: Request, p: Request, i: nat)
    requires ValidRun(INIT, steps) && i < |steps| && Told(steps, r, q, i)
    requires p.future.Set? ==> q.future == p.future || ArrivesAt(steps, r, p.future.reply, i)
    requires p.done.Some? ==> q.done == p.done || CompletesAt(steps, r, p.done.value, i)
    requires p.phase.Over? ==> q.phase == p.phase || EndsAt(steps, r, p.phase.end, i)
    requires p.phase.Struck? ==> q.phase == p.phase || steps[i] == Strike(r, p.phase.timeout)
    ensures Told(steps, r, p, i + 1)
  {
    hide ArrivesAt, CompletesAt, EndsAt, MadeClosed;
  }

  /** A request that a step makes waits for its reply, or failed at once. */
  lemma NewIsTold(s: Proxy, step: Step, r: nat)
    requires Enabled(s, step) && |s.requests| <= r < |Apply(s, step).requests|
    ensures var q := Apply(s, step).requests[r];
      && r == |s.requests| && q.future == Unset && q.done == None
      && q.phase == if s.open then Sending else Over(Replied(FAILED))
  {
    hide Owns, ReplyStep, UnwindStep, Leave;
    match step
    case HandleReply(q, reply) => ReplyIsOwn(s, q, reply);
    case Unwind(q) => SameLength(s, q);
    case Wake(q) => LeaveLength(s, q, Replied(s.requests[q].future.reply));
    case SendFails(q) => LeaveLength(s, q, Replied(FAILED));
    case _ =>
  }

  lemma LeaveLength(s: Proxy, q: nat, end: End)
    requires q < |s.requests|
    ensures |Leave(s, q, end).requests| == |s.requests|
  {
  }

  lemma {:induction false} ToldAt(steps: seq<Step>, r: nat, i: nat)
    requires ValidRun(INIT, steps) && i <= |steps| && r < |At(steps, i).requests|
    ensures Told(steps, r, At(steps, i).requests[r], i)
    decreases i
  {
    hide At, Inv, Apply, Enabled, Told, ArrivesAt, CompletesAt, EndsAt, Arrives, Completes, EndsAs;
    NoRequests(steps);
    if i > 0 {
      AtNext(steps, i - 1);
      var s := At(steps, i - 1);
      if r < |s.requests| {
        ToldAt(steps, r, i - 1);
        StepMoves(s, steps[i - 1], r);
        MovesAt(steps, r, i - 1);
        ToldNext(steps, r, s.requests[r], At(steps, i).requests[r], i - 1);
      } else {
        NewIsTold(s, steps[i - 1], r);
        NewTold(steps, r, At(steps, i).requests[r], i);
      }
    }
  }

  lemma NoRequests(steps: seq<Step>)
    requires ValidRun(INIT, steps)
    ensures At(steps, 0).requests == []
  {
  }

  lemma NewTold(steps: seq<Step>, r: nat, q: Request, i: nat)
    requires ValidRun(INIT, steps) && 0 < i <= |steps| && r == |At(steps, i - 1).requests|
    requires q.future == Unset && q.done == None
    requires q.phase == if At(steps, i - 1).open then Sending else Over(Replied(FAILED))
    ensures Told(steps, r, q, i)
  {
    hide At;
    if !At(steps, i - 1).open { assert MadeClosed(steps, r, i - 1); }
  }

  lemma MovesAt(steps: seq<Step>, r: nat, i: nat)
    requires ValidRun(INIT, steps) && i < |steps| && r < |At(steps, i).requests| && r < |At(steps, i + 1).requests|
    requires Moves(At(steps, i), steps[i], At(steps, i + 1), r)
    ensures var q, p := At(steps, i).requests[r], At(steps, i + 1).requests[r];
      && (p.future.Set? ==> q.future == p.future || ArrivesAt(steps, r, p.future.reply, i))
      && (p.done.Some? ==> q.done == p.done || CompletesAt(steps, r, p.done.value, i))
      && (p.phase.Over? ==> q.phase == p.phase || EndsAt(steps, r, p.phase.end, i))
      && (p.phase.Struck? ==> q.phase == p.phase || steps[i] == Strike(r, p.phase.timeout))
  {
    hide At, Arrives, Completes, EndsAs;
  }

  /** In every run, a caller is answered with what came for its request while it was pending: the
      reply of the child, ERROR for a reply that granted an unusable id, or ERROR from the end
      of the connection. Or the answer is ERROR as its send failed, or as it was made on a
      connection already closed. */
  lemma AnswerIsTheReply(steps: seq<Step>, r: nat, answer: Reply)
    requires ValidRun(INIT, steps) && r < |After(INIT, steps).requests|
    requires After(INIT, steps).requests[r].phase == Over(Replied(answer))
    ensures || (exists i: nat :: ArrivesAt(steps, r, answer, i))
            || (answer == FAILED && SendFails(r) in steps)
            || (answer == FAILED && exists i: nat :: MadeClosed(steps, r, i))
  {
    hide At, After, Arrives;
    AtEnd(steps);
    ToldAt(steps, r, |steps|);
    if j: nat :| j < |steps| && EndsAt(steps, r, Replied(answer), j) {
      if steps[j] != SendFails(r) { ToldAt(steps, r, j); }
    }
  }

  /** In every run, a caller that waited for what it started is told the status of a completed
      notification that names it, or ERROR from the end of the connection or as the completion
      of its parameter change took too long. */
  lemma FollowedIsTheCompletion(steps: seq<Step>, r: nat, status: Status)
    requires ValidRun(INIT, steps) && r < |After(INIT, steps).requests|
    requires After(INIT, steps).requests[r].phase == Over(Followed(status))
    ensures (exists i: nat :: CompletesAt(steps, r, status, i)) || (status == ERROR && StopFollowing(r, true) in steps)
  {
    hide At, After, Completes;
    AtEnd(steps);
    ToldAt(steps, r, |steps|);
    var j: nat :| j < |steps| && EndsAt(steps, r, Followed(status), j);
    if steps[j] != StopFollowing(r, true) { ToldAt(steps, r, j); }
  }

  /** In every run, a caller is gone with TIMEOUT only when its deadline fired, and by its
      cancellation only when it was cancelled. */
  lemma GoneBecause(steps: seq<Step>, r: nat)
    requires ValidRun(INIT, steps) && r < |After(INIT, steps).requests| && Gone(After(INIT, steps).requests[r])
    ensures After(INIT, steps).requests[r].phase == Over(TimedOut) ==> Strike(r, true) in steps
    ensures After(INIT, steps).requests[r].phase == Over(GivenUp) ==> Strike(r, false) in steps || StopFollowing(r, false) in steps
  {
    hide At, After;
    AtEnd(steps);
    ToldAt(steps, r, |steps|);
    var end := After(INIT, steps).requests[r].phase.end;
    var j: nat :| j < |steps| && EndsAt(steps, r, end, j);
    if steps[j] == Unwind(r) { ToldAt(steps, r, j); }
  }

  // -- What each step gives its caller ---------------------------------------------------

  /** In every run, a reply for a pending request sets its answer, unless its caller was struck
      before, and takes it from the pending ones. A usable id of a subscription or a parameter
      change is recorded for it, and nothing else is. */
  lemma ReplyReaches(steps: seq<Step>, i: nat, r: nat, reply: Reply)
    requires ValidRun(INIT, steps) && i < |steps| && steps[i] == HandleReply(r, reply) && r in At(steps, i).pending
    ensures var s, t := At(steps, i), At(steps, i + 1);
      && r < |s.requests| && r < |t.requests| && t.pending == s.pending - {r}
      && var q := s.requests[r];
         var unusable := Unusable(s, q.kind, reply);
         && t.requests[r].future == (if q.future == Unset then Set(if unusable then FAILED else reply) else q.future)
         && t.deliveries == (if q.kind.Subscribe? && reply.ok && !unusable then s.deliveries[reply.id := r] else s.deliveries)
         && t.parameters == (if q.kind.SetParameter? && reply.ok && !unusable then s.parameters[reply.id := r] else s.parameters)
  {
    hide At, Inv, Owns;
    AtNext(steps, i);
    PendingIsThere(At(steps, i), r);
  }

  lemma PendingIsThere(s: Proxy, r: nat)
    requires Inv(s) && r in s.pending
    ensures r < |s.requests|
  {
  }

  ghost predicate WithdrawnAt(steps: seq<Step>, r: nat, i: nat)
    requires ValidRun(INIT, steps)
  {
    i < |steps| && r < |At(steps, i).requests| && Withdraws(At(steps, i).requests[r], steps[i], r)
  }

  ghost predicate WithdrawnBefore(steps: seq<Step>, r: nat, i: nat)
    requires ValidRun(INIT, steps)
  {
    exists j: nat :: j < i && WithdrawnAt(steps, r, j)
  }

  lemma WithdrawnNext(steps: seq<Step>, r: nat, i: nat)
    requires ValidRun(INIT, steps)
    ensures WithdrawnBefore(steps, r, i + 1) <==> WithdrawnBefore(steps, r, i) || WithdrawnAt(steps, r, i)
  {
    hide WithdrawnAt;
  }

  lemma {:induction false} RequestsGrow(steps: seq<Step>, i: nat, j: nat)
    requires ValidRun(INIT, steps) && i <= j <= |steps|
    ensures |At(steps, i).requests| <= |At(steps, j).requests|
    decreases j
  {
    hide At, Inv, Apply, Enabled;
    if i < j {
      RequestsGrow(steps, i, j - 1);
      AtNext(steps, j - 1);
      var s := At(steps, j - 1);
      if |s.requests| > 0 { StepMoves(s, steps[j - 1], |s.requests| - 1); }
    }
  }

  /** In every run, a caller gave up its wait exactly when it was struck while it waited for a
      reply that had not come. A reply that comes before its except-branch is not its answer
      then, as `ReplyReaches` says. */
  lemma {:induction false} WithdrawnIff(steps: seq<Step>, i: nat, r: nat)
    requires ValidRun(INIT, steps) && i <= |steps| && r < |At(steps, i).requests|
    ensures At(steps, i).requests[r].future == Withdrawn <==> WithdrawnBefore(steps, r, i)
    decreases i
  {
    hide At, Inv, Apply, Enabled, Arrives, Completes, EndsAs, WithdrawnBefore;
    NoRequests(steps);
    if i > 0 {
      AtNext(steps, i - 1);
      var s := At(steps, i - 1);
      WithdrawnNext(steps, r, i - 1);
      if r < |s.requests| {
        WithdrawnIff(steps, i - 1, r);
        StepMoves(s, steps[i - 1], r);
      } else {
        NewIsTold(s, steps[i - 1], r);
        NotWithdrawnYet(steps, r, i - 1);
      }
    }
  }

  lemma NotWithdrawnYet(steps: seq<Step>, r: nat, i: nat)
    requires ValidRun(INIT, steps) && i < |steps| && r >= |At(steps, i).requests|
    ensures !WithdrawnBefore(steps, r, i) && !WithdrawnAt(steps, r, i)
  {
    hide At, Withdraws;
    forall j: nat | j < i ensures !WithdrawnAt(steps, r, j) { RequestsGrow(steps, j, i); }
  }

  /** In every run, a caller that sees its reply has what came for it: it goes on to wait for
      the completion exactly when the answer is OK and it started something, and is back with
      that answer otherwise. */
  lemma WakeAnswers(steps: seq<Step>, i: nat, r: nat)
    requires ValidRun(INIT, steps) && i < |steps| && steps[i] == Wake(r)
    ensures var s, t := At(steps, i), At(steps, i + 1);
      && r < |s.requests| && r < |t.requests|
      && exists answer, j: nat :: j < i && ArrivesAt(steps, r, answer, j)
           && t.requests[r].phase == if answer.ok && (s.requests[r].kind.Execute? || s.requests[r].kind.SetParameter?) then Following
                                     else Over(Replied(answer))
  {
    hide At, Inv, Arrives, Leave;
    AtNext(steps, i);
    var s := At(steps, i);
    ToldAt(steps, r, i);
    var answer := s.requests[r].future.reply;
    var j: nat :| j < i && ArrivesAt(steps, r, answer, j);
    LeaveEnds(s, r, Replied(answer), r);
  }

  /** In every run, the first completion that names what a caller waits for is kept for it. */
  lemma CompletionReaches(steps: seq<Step>, i: nat, r: nat, status: Status)
    requires ValidRun(INIT, steps) && CompletesAt(steps, r, status, i)
    requires r < |At(steps, i).requests| && At(steps, i).requests[r].done == None
    ensures r < |At(steps, i + 1).requests| && At(steps, i + 1).requests[r].done == Some(status)
  {
    hide At, Inv, Complete;
    AtNext(steps, i);
    var s := At(steps, i);
    if steps[i] == Detach {
      assert DetachStep(s).requests[r] == Detached(s, r);
    } else {
      CompleteSets(s, r, status, r);
    }
  }

  /** In every run, a caller that sees its completion is back with the status that came. */
  lemma FollowAnswers(steps: seq<Step>, i: nat, r: nat)
    requires ValidRun(INIT, steps) && i < |steps| && steps[i] == Follow(r)
    ensures r < |At(steps, i + 1).requests|
    ensures exists status, j: nat :: j < i && CompletesAt(steps, r, status, j) && At(steps, i + 1).requests[r].phase == Over(Followed(status))
  {
    hide At, Inv, Completes;
    AtNext(steps, i);
    ToldAt(steps, r, i);
    var status := At(steps, i).requests[r].done.value;
    var j: nat :| j < i && CompletesAt(steps, r, status, j);
  }

  /** In every run, a caller whose except-branch runs is back with TIMEOUT when its deadline
      struck it last, and cancelled otherwise. */
  lemma UnwindAnswers(steps: seq<Step>, i: nat, r: nat)
    requires ValidRun(INIT, steps) && i < |steps| && steps[i] == Unwind(r)
    ensures r < |At(steps, i).requests| && At(steps, i).requests[r].phase.Struck? && r < |At(steps, i + 1).requests|
    ensures At(steps, i + 1).requests[r].phase == Over(if At(steps, i).requests[r].phase.timeout then TimedOut else GivenUp)
  {
    hide At, Inv, UnwindStep;
    AtNext(steps, i);
    NotLateYet(At(steps, i), r);
    UnwindLeaves(At(steps, i), r);
  }

  // -- What a completion names -----------------------------------------------------------

  /** What a step puts in the maps of a proxy. */
  predicate Maps(s: Proxy, step: Step, t: Proxy) {
    && (forall c <- t.running :: (c in s.running && t.running[c] == s.running[c])
                                 || (step == Call(Execute(c)) && t.running[c] == |s.requests| < |t.requests| && t.requests[|s.requests|].kind == Execute(c)))
    && (forall id <- t.parameters :: (id in s.parameters && t.parameters[id] == s.parameters[id])
                                     || (step == HandleReply(t.parameters[id], Reply(true, id)) && t.parameters[id] in s.pending))
  }

  /** A step that only takes from the maps. */
  predicate Fewer(s: Proxy, t: Proxy) {
    && (forall c <- t.running :: c in s.running && t.running[c] == s.running[c])
    && (forall id <- t.parameters :: id in s.parameters && t.parameters[id] == s.parameters[id])
  }

  lemma LeaveFewer(s: Proxy, q: nat, end: End)
    requires q < |s.requests|
    ensures Fewer(s, Leave(s, q, end))
  {
  }

  lemma LeaveAfter(s: Proxy, m: Proxy, q: nat, end: End)
    requires q < |m.requests| && m.running == s.running && m.parameters == s.parameters
    ensures Fewer(s, Leave(m, q, end))
  {
    hide Leave;
    LeaveFewer(m, q, end);
  }

  lemma UnwindMaps(s: Proxy, r: nat)
    requires Ranges(s) && r !in s.late && Enabled(s, Unwind(r))
    ensures Fewer(s, UnwindStep(s, r))
  {
    hide Remember, EndLate, Leave, Ranges, Fewer;
    RememberRanges(s, r);
    LeaveAfter(s, Remember(s, r), r, TimedOut);
    LeaveAfter(s, Remember(s, r), r, GivenUp);
    LeaveAfter(s, s, r, GivenUp);
    if s.requests[r].future.Set? {
      EndLateCounts(s, r, s.requests[r].future.reply.id);
      LeaveAfter(s, EndLate(s, r, s.requests[r].future.reply.id), r, GivenUp);
    }
  }

  lemma CallMaps(s: Proxy, kind: Kind)
    ensures Maps(s, Call(kind), CallStep(s, kind))
  {
  }

  lemma PlainFewer(s: Proxy)
    ensures Fewer(s, CallStep(s, Plain))
  {
  }

  lemma CompletedFewer(s: Proxy, id: string, status: Status)
    ensures Fewer(s, CompletedStep(s, id, status))
  {
  }

  lemma DetachFewer(s: Proxy)
    ensures Fewer(s, DetachStep(s))
  {
  }

  lemma SmallFewer(s: Proxy, step: Step)
    requires Enabled(s, step) && (step.Sent? || step.Strike? || step.Follow? || step.StopFollowing? || step.SetEngineIds?)
    ensures Fewer(s, Apply(s, step))
  {
  }

  lemma UnsubscribeFewer(s: Proxy, step: Step)
    requires Enabled(s, step) && (step.Unsubscribe? || step.BeginEnding?)
    ensures Fewer(s, Apply(s, step))
  {
    hide CallStep;
    PlainFewer(s.(deliveries := s.deliveries - {if step.Unsubscribe? then step.id else s.endings[step.k].id}));
  }

  lemma AnyFewer(s: Proxy, step: Step)
    requires Inv(s) && Enabled(s, step) && !step.Call? && !step.HandleReply?
    ensures Fewer(s, Apply(s, step))
  {
    hide Inv, Fewer, Leave, UnwindStep, WakeStep, CompletedStep, DetachStep;
    match step
    case SendFails(r) => LeaveFewer(s, r, Replied(FAILED));
    case Wake(r) => WakeFewer(s, r);
    case Unwind(r) => NotLateYet(s, r); UnwindMaps(s, r);
    case Completed(id, status) => CompletedFewer(s, id, status);
    case Unsubscribe(_) => UnsubscribeFewer(s, step);
    case BeginEnding(_) => UnsubscribeFewer(s, step);
    case Detach => DetachFewer(s);
    case _ => SmallFewer(s, step);
  }

  lemma WakeFewer(s: Proxy, r: nat)
    requires Enabled(s, Wake(r))
    ensures Fewer(s, WakeStep(s, r))
  {
    hide Leave;
    LeaveFewer(s, r, Replied(s.requests[r].future.reply));
  }

  lemma StepMaps(s: Proxy, step: Step)
    requires Inv(s) && Enabled(s, step)
    ensures Maps(s, step, Apply(s, step))
  {
    hide Inv, CallStep, ReplyStep, UnwindStep, WakeStep, CompletedStep, DetachStep, Leave, BackStep, StrikeStep, UnsubscribeStep;
    match step
    case Call(kind) => CallMaps(s, kind);
    case HandleReply(r, reply) => ReplyMaps(s, r, reply);
    case _ => AnyFewer(s, step);
  }

  lemma ReplyMaps(s: Proxy, r: nat, reply: Reply)
    ensures Maps(s, HandleReply(r, reply), ReplyStep(s, r, reply))
  {
    hide Owns, Without, EndLate;
    if r < |s.requests| && r !in s.pending && r in s.late && reply.ok {
      var request := s.requests[r].(consumed := s.requests[r].consumed + 1, granted := s.requests[r].granted + {reply.id});
      EndLateCounts(Put(s, r, request).(late := Without(s.late, r)), r, reply.id);
    }
  }

  /** The maps of a proxy name what the steps of the run put in them. */
  ghost predicate MapsNamed(steps: seq<Step>, i: nat)
    requires ValidRun(INIT, steps) && i <= |steps|
  {
    var s := At(steps, i);
    && (forall c <- s.running :: s.running[c] < |s.requests| && s.requests[s.running[c]].kind == Execute(c))
    && (forall id <- s.parameters :: GrantedBefore(steps, s.parameters[id], id, i))
  }

  /** The child granted an id to a request while it was pending. */
  ghost predicate GrantedBefore(steps: seq<Step>, r: nat, id: string, i: nat)
    requires ValidRun(INIT, steps)
  {
    exists j: nat :: j < i && GrantsAt(steps, r, id, j)
  }

  ghost predicate GrantsAt(steps: seq<Step>, r: nat, id: string, j: nat)
    requires ValidRun(INIT, steps)
  {
    j < |steps| && steps[j] == HandleReply(r, Reply(true, id)) && r in At(steps, j).pending
  }

  lemma KindsStay(s: Proxy, step: Step)
    requires Inv(s) && Enabled(s, step)
    ensures |s.requests| <= |Apply(s, step).requests|
    ensures forall r | 0 <= r < |s.requests| :: Apply(s, step).requests[r].kind == s.requests[r].kind
  {
    hide Inv, Apply, Enabled, Arrives, Completes, EndsAs;
    if s.requests != [] { StepMoves(s, step, |s.requests| - 1); }
    forall r: nat | r < |s.requests| ensures r < |Apply(s, step).requests| && Apply(s, step).requests[r].kind == s.requests[r].kind {
      StepMoves(s, step, r);
    }
  }

  lemma {:induction false} MapsAt(steps: seq<Step>, i: nat)
    requires ValidRun(INIT, steps) && i <= |steps|
    ensures MapsNamed(steps, i)
    decreases i
  {
    hide At, Inv, Apply, Enabled, GrantsAt;
    NoMaps(steps);
    if i > 0 {
      MapsAt(steps, i - 1);
      AtNext(steps, i - 1);
      StepMaps(At(steps, i - 1), steps[i - 1]);
      KindsStay(At(steps, i - 1), steps[i - 1]);
      MapsNext(steps, i - 1);
    }
  }

  lemma NoMaps(steps: seq<Step>)
    requires ValidRun(INIT, steps)
    ensures At(steps, 0) == INIT
  {
  }

  lemma MapsNext(steps: seq<Step>, i: nat)
    requires ValidRun(INIT, steps) && i < |steps| && MapsNamed(steps, i)
    requires var s, t := At(steps, i), At(steps, i + 1);
      && Maps(s, steps[i], t) && |s.requests| <= |t.requests|
      && forall r | 0 <= r < |s.requests| :: t.requests[r].kind == s.requests[r].kind
    ensures MapsNamed(steps, i + 1)
  {
    hide At;
    var s, t := At(steps, i), At(steps, i + 1);
    forall id <- t.parameters ensures GrantedBefore(steps, t.parameters[id], id, i + 1) {
      if id in s.parameters && t.parameters[id] == s.parameters[id] {
        assert GrantedBefore(steps, s.parameters[id], id, i);
      } else {
        assert GrantsAt(steps, t.parameters[id], id, i);
      }
    }
  }

  /** In every run, a completed notification completes a request only when it names its command,
      or the id the child granted its parameter change. */
  lemma CompletionNames(steps: seq<Step>, r: nat, status: Status, i: nat, id: string)
    requires ValidRun(INIT, steps) && CompletesAt(steps, r, status, i) && steps[i] == Completed(id, status)
    ensures (r < |At(steps, i).requests| && At(steps, i).requests[r].kind == Execute(id)) || GrantedBefore(steps, r, id, i)
  {
    hide At, GrantedBefore;
    MapsAt(steps, i);
  }

  // -- Calls and the maps ----------------------------------------------------------------

  /** In every run, a call on an open connection makes one request, which is pending, and lists an
      execute under its command. On a closed one it makes one that has failed. */
  lemma CallIsMade(steps: seq<Step>, i: nat, kind: Kind)
    requires ValidRun(INIT, steps) && i < |steps| && steps[i] == Call(kind)
    ensures var s, t := At(steps, i), At(steps, i + 1);
      var r := |s.requests|;
      && |t.requests| == r + 1 && t.requests[..r] == s.requests && t.requests[r].kind == kind
      && t.requests[r].future == Unset && t.requests[r].done == None
      && t.requests[r].phase == (if s.open then Sending else Over(Replied(FAILED)))
      && t.pending == (if s.open then s.pending + {r} else s.pending)
      && t.running == (if !kind.Execute? then s.running else if s.open then s.running[kind.command := r] else s.running - {kind.command})
  {
    hide At, Inv;
    AtNext(steps, i);
    assert At(steps, i + 1).requests[..|At(steps, i).requests|] == At(steps, i).requests;
  }

  /** In every run, an unsubscribe, of the engine or of a task that ends a late subscription,
      sends one request and ends the delivery. */
  lemma UnsubscribeIsMade(steps: seq<Step>, i: nat, id: string)
    requires ValidRun(INIT, steps) && i < |steps|
    requires steps[i] == Unsubscribe(id)
             || (steps[i].BeginEnding? && steps[i].k < |At(steps, i).endings| && At(steps, i).endings[steps[i].k].id == id)
    ensures var s, t := At(steps, i), At(steps, i + 1);
      && |t.requests| == |s.requests| + 1 && t.requests[|s.requests|].kind == Plain
      && t.deliveries == s.deliveries - {id} && t.pending == (if s.open then s.pending + {|s.requests|} else s.pending)
      && (steps[i].BeginEnding? ==> steps[i].k < |t.endings| && t.endings[steps[i].k].begun)
  {
    hide At, Inv;
    AtNext(steps, i);
  }

  /** In every run, a caller that followed a completion is listed no more as it is back. */
  lemma BackIsUnlisted(steps: seq<Step>, i: nat, r: nat)
    requires ValidRun(INIT, steps) && i < |steps| && (steps[i] == Follow(r) || (steps[i].StopFollowing? && steps[i].r == r))
    ensures var s, t := At(steps, i), At(steps, i + 1);
      && r < |s.requests|
      && var q := s.requests[r];
         && (q.kind.Execute? ==> q.kind.command !in t.running)
         && (q.kind.SetParameter? && q.future.Set? ==> q.future.reply.id !in t.parameters)
  {
    hide At, Inv;
    AtNext(steps, i);
  }

  /** Who is listed under a command is still there. */
  predicate ListedAreThere(s: Proxy) {
    forall c <- s.running :: s.running[c] < |s.requests| && s.requests[s.running[c]].kind == Execute(c)
                             && !s.requests[s.running[c]].phase.Over?
  }

  lemma LeaveUnlists(s: Proxy, q: nat, end: End, c: string)
    requires q < |s.requests| && s.requests[q].kind == Execute(c)
    ensures c !in Leave(s, q, end).running
  {
  }

  lemma UnwindUnlists(s: Proxy, r: nat, c: string)
    requires Ranges(s) && r !in s.late && Enabled(s, Unwind(r)) && s.requests[r].kind == Execute(c)
    ensures c !in UnwindStep(s, r).running
  {
    hide Remember, EndLate, Leave, Ranges;
    RememberSame(s, r);
    LeaveUnlists(Remember(s, r), r, TimedOut, c);
    LeaveUnlists(Remember(s, r), r, GivenUp, c);
    LeaveUnlists(s, r, GivenUp, c);
  }

  lemma WakeUnlists(s: Proxy, r: nat, c: string)
    requires Enabled(s, Wake(r)) && s.requests[r].kind == Execute(c) && r < |WakeStep(s, r).requests|
    ensures WakeStep(s, r).requests[r].phase.Over? ==> c !in WakeStep(s, r).running
  {
    hide Leave;
    LeaveUnlists(s, r, Replied(s.requests[r].future.reply), c);
  }

  lemma BackUnlists(s: Proxy, q: nat, end: End, c: string)
    requires q < |s.requests| && s.requests[q].kind == Execute(c)
    ensures c !in BackStep(s, q, end).running
  {
  }

  lemma EndedIsUnlisted(s: Proxy, step: Step, r: nat, c: string)
    requires Inv(s) && Enabled(s, step) && r < |s.requests| && s.requests[r].kind == Execute(c) && !s.requests[r].phase.Over?
    requires r < |Apply(s, step).requests| && Apply(s, step).requests[r].phase.Over?
    ensures c !in Apply(s, step).running
  {
    hide Inv, Leave, UnwindStep, WakeStep, BackStep, Completes, Arrives, CallStep, StrikeStep, ReplyStep, CompletedStep, DetachStep;
    StepMoves(s, step, r);
    match step
    case Wake(_) => WakeUnlists(s, r, c);
    case SendFails(_) => LeaveUnlists(s, r, Replied(FAILED), c);
    case Unwind(_) => NotLateYet(s, r); UnwindUnlists(s, r, c);
    case Follow(_) => BackUnlists(s, r, Followed(s.requests[r].done.value), c);
    case StopFollowing(_, timeout) => BackUnlists(s, r, if timeout then Followed(ERROR) else GivenUp, c);
    case _ =>
  }

  lemma ListedStay(s: Proxy, step: Step)
    requires Inv(s) && Enabled(s, step) && ListedAreThere(s)
    ensures ListedAreThere(Apply(s, step))
  {
    hide Inv, Apply, Enabled, Arrives, Completes, EndsAs;
    var t := Apply(s, step);
    StepMaps(s, step);
    KindsStay(s, step);
    forall c <- t.running
      ensures t.running[c] < |t.requests| && t.requests[t.running[c]].kind == Execute(c) && !t.requests[t.running[c]].phase.Over?
    {
      var r := t.running[c];
      if c in s.running && r == s.running[c] {
        if t.requests[r].phase.Over? { EndedIsUnlisted(s, step, r, c); }
      } else {
        NewListed(s, step, c);
      }
    }
  }

  lemma NewListed(s: Proxy, step: Step, c: string)
    requires Enabled(s, step) && step == Call(Execute(c)) && c in Apply(s, step).running && Apply(s, step).running[c] == |s.requests|
    requires |s.requests| < |Apply(s, step).requests|
    ensures Apply(s, step).requests[|s.requests|].phase == Sending
  {
  }

  /** In every run, whoever is listed under a command made an execute of it and is still there. */
  lemma {:induction false} RunningAreThere(steps: seq<Step>, i: nat)
    requires ValidRun(INIT, steps) && i <= |steps|
    ensures ListedAreThere(At(steps, i))
    decreases i
  {
    hide At, Inv, Apply, Enabled;
    NoMaps(steps);
    if i > 0 {
      RunningAreThere(steps, i - 1);
      AtNext(steps, i - 1);
      ListedStay(At(steps, i - 1), steps[i - 1]);
    }
  }

  predicate Emptied(t: Proxy) {
    && !t.open && t.pending == {} && t.late == [] && t.running == map[] && t.parameters == map[] && t.deliveries == map[]
    && forall k | 0 <= k < |t.endings| :: t.endings[k].begun
  }

  lemma DetachLeaves(s: Proxy)
    ensures Emptied(Apply(s, Detach))
  {
    hide Detached;
  }

  lemma NoneBegins(t: Proxy)
    requires Emptied(t)
    ensures forall k: nat :: !Enabled(t, BeginEnding(k))
  {
  }

  /** In every run, the end of the connection leaves nothing that could still be answered, and no
      task that could still end a subscription. */
  lemma DetachEmpties(steps: seq<Step>, i: nat)
    requires ValidRun(INIT, steps) && i < |steps| && steps[i] == Detach
    ensures Emptied(At(steps, i + 1)) && forall k: nat :: !Enabled(At(steps, i + 1), BeginEnding(k))
  {
    hide At, Inv, Apply, Enabled, Emptied;
    AtNext(steps, i);
    DetachLeaves(At(steps, i));
    NoneBegins(At(steps, i + 1));
  }

  // -- Callers go on ---------------------------------------------------------------------

  /** What is next for a caller that is not back: it is sending, a reply can still reach it, or
      it can take its own next step. */
  predicate GoesOn(s: Proxy, r: nat)
    requires r < |s.requests|
  {
    match s.requests[r].phase
    case Sending => Enabled(s, Sent(r)) && Enabled(s, SendFails(r))
    case Awaiting => Enabled(s, Wake(r)) || (r in s.pending && s.requests[r].future == Unset)
    case Struck(_) => Enabled(s, Unwind(r))
    case Following => s.requests[r].future.Set? && s.requests[r].future.reply.ok
    case Over(_) => r !in s.pending
  }

  lemma ReachableGoesOn(s: Proxy, r: nat)
    requires r < |s.requests| && Reachable(s.requests[r], r in s.pending, r in s.late, s.open)
    ensures GoesOn(s, r)
  {
  }

  lemma InvThere(steps: seq<Step>, i: nat)
    requires ValidRun(INIT, steps) && i <= |steps|
    ensures Inv(At(steps, i))
  {
    hide Inv, After, Apply, Enabled;
    Through(INIT, steps, i);
    AtEnd(steps);
    if i < |steps| { AtNext(steps, i); }
  }

  /** In every run, a caller that waits can still be reached by its reply, or it has its answer and
      can see it: none misses a reply, also one that came while it was sending. */
  lemma CallersGoOn(steps: seq<Step>, i: nat, r: nat)
    requires ValidRun(INIT, steps) && i <= |steps| && r < |At(steps, i).requests|
    ensures GoesOn(At(steps, i), r)
  {
    hide At, Reachable, Accounted, Ranges, GoesOn;
    InvThere(steps, i);
    assert Fits(At(steps, i), r);
    ReachableGoesOn(At(steps, i), r);
  }

  /** In every run, a send that returns makes its caller wait for its reply, and one that raises
      ends the request with ERROR. Neither changes another request. */
  lemma SendsReturn(steps: seq<Step>, i: nat, r: nat)
    requires ValidRun(INIT, steps) && i < |steps| && (steps[i] == Sent(r) || steps[i] == SendFails(r))
    ensures var s, t := At(steps, i), At(steps, i + 1);
      && r < |s.requests| == |t.requests|
      && t.requests[r].phase == (if steps[i] == Sent(r) then Awaiting else Over(Replied(FAILED)))
      && t.requests[r].future == s.requests[r].future
      && t.pending == (if steps[i] == Sent(r) then s.pending else s.pending - {r})
      && (forall j: nat | j < |s.requests| && j != r :: t.requests[j] == s.requests[j])
      && t.late == s.late && t.deliveries == s.deliveries && t.parameters == s.parameters
  {
    hide At, Inv;
    AtNext(steps, i);
  }
}
