/** Which subscriptions are ended because their caller is gone: exactly those the child granted
    with an id of its own that was free when the reply came. */
module ChildEndings {
  import opened Sequences
  import opened Commands
  import opened Child
  import opened ChildProofs
  import opened ChildTheorems

  // -- One step --------------------------------------------------------------------------

  /** The step takes the reply of a request. */
  predicate TakesReply(s: Proxy, step: Step, r: nat) {
    step.HandleReply? && step.r == r && (r in s.pending || r in s.late)
  }

  /** The step is the end of a caller that is gone: a late reply grants it an id of the child
      that nobody else recorded, or it is cancelled after the reply that granted it one. */
  predicate EndsNow(s: Proxy, step: Step, r: nat) {
    r < |s.requests| && match step
    case HandleReply(q, reply) =>
      && q == r && r !in s.pending && r in s.late && reply.ok && Owns(s.engineIds, reply.id)
      && (reply.id in s.deliveries ==> s.requests[r].recorded)
    case Unwind(q) =>
      && q == r && s.requests[r].phase == Struck(false) && s.requests[r].kind.Subscribe?
      && s.requests[r].future.Set? && s.requests[r].future.reply.ok && Owns(s.engineIds, s.requests[r].future.reply.id)
    case _ => false
  }

  /** What a step leaves of a request. */
  predicate Goes(s: Proxy, step: Step, t: Proxy, r: nat)
    requires r < |s.requests| && r < |t.requests|
  {
    var q, p := s.requests[r], t.requests[r];
    && p.kind == q.kind && (q.vain ==> p.vain) && (q.phase.Over? ==> p.phase == q.phase)
    && p.consumed == q.consumed + (if TakesReply(s, step, r) then 1 else 0)
    && p.ends == q.ends + (if EndsNow(s, step, r) then 1 else 0)
    && (r !in s.pending ==> r !in t.pending && p.future == q.future)
  }

  lemma SameGoes(s: Proxy, step: Step, t: Proxy, r: nat)
    requires r < |s.requests| && r < |t.requests| && !TakesReply(s, step, r) && !EndsNow(s, step, r)
    requires t.requests[r] == s.requests[r] && (r in t.pending ==> r in s.pending)
    ensures Goes(s, step, t, r)
  {
  }

  lemma PendingGoes(s: Proxy, r: nat, reply: Reply)
    requires Inv(s) && r in s.pending && r < |s.requests|
    ensures var t := PendingReply(s, r, reply); r < |t.requests| && Goes(s, HandleReply(r, reply), t, r)
  {
    assert Fits(s, r);
    hide Owns, Judge, Refuses, Accounted;
  }

  /** `end_late` counts an end exactly when the id is the child's and nobody else recorded it. */
  lemma EndLateEnds(s: Proxy, r: nat, id: string)
    requires r < |s.requests|
    ensures var t := EndLate(s, r, id);
      && |t.requests| == |s.requests| && t.pending == s.pending
      && var q, p := s.requests[r], t.requests[r];
         && p.kind == q.kind && p.vain == q.vain && p.phase == q.phase && p.consumed == q.consumed && p.future == q.future
         && p.ends == q.ends + (if Owns(s.engineIds, id) && (id in s.deliveries ==> q.recorded) then 1 else 0)
  {
    hide Owns;
  }

  lemma LateGoes(s: Proxy, r: nat, reply: Reply)
    requires r in s.late && r !in s.pending && r < |s.requests|
    ensures var t := LateReply(s, r, reply); r < |t.requests| && Goes(s, HandleReply(r, reply), t, r)
  {
    hide Owns, Without, EndLate;
    var q := s.requests[r].(consumed := s.requests[r].consumed + 1,
                            granted := if reply.ok then s.requests[r].granted + {reply.id} else s.requests[r].granted);
    var m := Put(s, r, q).(late := Without(s.late, r));
    if reply.ok { EndLateEnds(m, r, reply.id); }
  }

  lemma ReplyGoes(s: Proxy, q: nat, reply: Reply, r: nat)
    requires Inv(s) && r < |s.requests|
    ensures var t := ReplyStep(s, q, reply); r < |t.requests| && Goes(s, HandleReply(q, reply), t, r)
  {
    ReplyIsOwn(s, q, reply);
    if q == r {
      if r in s.pending { PendingGoes(s, r, reply); }
      else if r in s.late { LateGoes(s, r, reply); }
      else { SameGoes(s, HandleReply(q, reply), s, r); }
    } else {
      PendingOfOthers(s, q, reply);
      SameGoes(s, HandleReply(q, reply), ReplyStep(s, q, reply), r);
    }
    hide Goes, PendingReply, LateReply;
  }

  lemma PendingOfOthers(s: Proxy, q: nat, reply: Reply)
    ensures ReplyStep(s, q, reply).pending <= s.pending
  {
    hide Owns, Without;
  }

  /** A caller that leaves changes no other request. */
  lemma LeaveOther(s: Proxy, q: nat, end: End, r: nat)
    requires q < |s.requests| && r < |s.requests| && r != q
    ensures var t := Leave(s, q, end);
      r < |t.requests| && t.requests[r] == s.requests[r] && t.pending <= s.pending
  {
  }

  /** The except-branch of another caller. */
  lemma UnwindOther(s: Proxy, q: nat, r: nat)
    requires Inv(s) && Enabled(s, Unwind(q)) && r < |s.requests| && r != q
    ensures var t := UnwindStep(s, q);
      && r < |t.requests| && (r in t.pending ==> r in s.pending)
      && t.requests[r] == s.requests[r].(forgotten := t.requests[r].forgotten)
  {
    assert Fits(s, q);
    assert Ranges(s) && q !in s.late;
    hide Inv, Remember, EndLate, Ranges, Reachable, Accounted, Leave;
    var request := s.requests[q];
    if request.phase.timeout {
      OtherAfter(s, q, TimedOut, r);
    } else if !request.future.Set? {
      OtherAfter(s, q, GivenUp, r);
    } else if request.kind.Subscribe? && request.future.reply.ok {
      EndLateCounts(s, q, request.future.reply.id);
      LeaveOther(EndLate(s, q, request.future.reply.id), q, GivenUp, r);
    } else {
      LeaveOther(s, q, GivenUp, r);
    }
  }

  lemma RememberedGoes(s: Proxy, r: nat, end: End)
    requires Inv(s) && Enabled(s, Unwind(r)) && (s.requests[r].phase.timeout || !s.requests[r].future.Set?)
    ensures r < |Remember(s, r).requests|
    ensures var t := Leave(Remember(s, r), r, end); r < |t.requests| && Goes(s, Unwind(r), t, r)
    ensures s.requests[r].kind.Subscribe? && s.requests[r].consumed > 0 ==> Leave(Remember(s, r), r, end).requests[r].vain
  {
    assert Fits(s, r);
    assert Ranges(s) && r !in s.late && !s.requests[r].vain;
    hide Inv, Remember, Ranges, Reachable, Accounted;
    RememberSelf(s, r);
    RememberPending(s, r);
  }

  lemma EndedGoes(s: Proxy, r: nat)
    requires Inv(s) && Enabled(s, Unwind(r)) && !s.requests[r].phase.timeout && s.requests[r].future.Set?
    ensures var t := UnwindStep(s, r); r < |t.requests| && Goes(s, Unwind(r), t, r)
  {
    assert Fits(s, r);
    var q := s.requests[r];
    assert q.kind.Subscribe? && q.future.reply.ok ==> q.recorded;
    hide Inv, EndLate, Reachable, Accounted, Owns, Remember;
    if q.kind.Subscribe? && q.future.reply.ok { EndLateEnds(s, r, q.future.reply.id); }
  }

  /** The except-branch of the caller itself. */
  lemma UnwindSelf(s: Proxy, r: nat)
    requires Inv(s) && Enabled(s, Unwind(r))
    ensures var t := UnwindStep(s, r); r < |t.requests| && Goes(s, Unwind(r), t, r)
    ensures s.requests[r].kind.Subscribe? && s.requests[r].consumed > 0 && (s.requests[r].phase.timeout || !s.requests[r].future.Set?) ==>
              UnwindStep(s, r).requests[r].vain
  {
    hide Inv, Goes, Remember, Leave, EndLate;
    if s.requests[r].phase.timeout { RememberedGoes(s, r, TimedOut); }
    else if !s.requests[r].future.Set? { RememberedGoes(s, r, GivenUp); }
    else { EndedGoes(s, r); }
  }

  lemma RememberPending(s: Proxy, r: nat)
    requires r < |s.requests|
    ensures Remember(s, r).pending == s.pending
  {
  }

  lemma DetachGoes(s: Proxy, r: nat)
    requires r < |s.requests|
    ensures var t := DetachStep(s); r < |t.requests| && Goes(s, Detach, t, r)
  {
    assert DetachStep(s).requests[r] == Detached(s, r);
  }

  lemma StrikeGoes(s: Proxy, q: nat, timeout: bool, r: nat)
    requires Inv(s) && Enabled(s, Strike(q, timeout)) && r < |s.requests|
    ensures r < |StrikeStep(s, q, timeout).requests| && Goes(s, Strike(q, timeout), StrikeStep(s, q, timeout), r)
  {
    assert Fits(s, r);
    hide Ranges, Accounted;
  }

  /** A step that moves one request to another phase of its way, or completes it. */
  lemma MovedGoes(s: Proxy, step: Step, t: Proxy, q: nat, r: nat)
    requires r < |s.requests| && q < |s.requests| && !step.HandleReply? && !step.Unwind?
    requires |t.requests| == |s.requests| && t.requests == s.requests[q := t.requests[q]] && t.pending <= s.pending
    requires t.requests[q] == s.requests[q].(phase := t.requests[q].phase, done := t.requests[q].done)
    requires s.requests[q].phase.Over? ==> t.requests[q].phase == s.requests[q].phase
    ensures Goes(s, step, t, r)
  {
    Small(s, step, r);
    hide TakesReply, EndsNow;
  }

  lemma LeaveGoes(s: Proxy, step: Step, q: nat, end: End, r: nat)
    requires r < |s.requests| && q < |s.requests| && !step.HandleReply? && !step.Unwind? && !s.requests[q].phase.Over?
    ensures r < |Leave(s, q, end).requests| && Goes(s, step, Leave(s, q, end), r)
  {
    hide Goes;
    MovedGoes(s, step, Leave(s, q, end), q, r);
  }

  lemma WakeGoes(s: Proxy, q: nat, r: nat)
    requires Enabled(s, Wake(q)) && r < |s.requests|
    ensures r < |WakeStep(s, q).requests| && Goes(s, Wake(q), WakeStep(s, q), r)
  {
    hide Goes, Leave;
    var request := s.requests[q];
    LeaveGoes(s, Wake(q), q, Replied(request.future.reply), r);
    MovedGoes(s, Wake(q), Put(s, q, request.(phase := Following)).(pending := s.pending - {q}), q, r);
  }

  lemma BackGoes(s: Proxy, step: Step, q: nat, end: End, r: nat)
    requires r < |s.requests| && q < |s.requests| && !step.HandleReply? && !step.Unwind? && !s.requests[q].phase.Over?
    ensures r < |BackStep(s, q, end).requests| && Goes(s, step, BackStep(s, q, end), r)
  {
    hide Goes;
    MovedGoes(s, step, BackStep(s, q, end), q, r);
  }

  lemma Small(s: Proxy, step: Step, r: nat)
    requires !step.HandleReply? && !step.Unwind?
    ensures !EndsNow(s, step, r) && !TakesReply(s, step, r)
  {
  }

  lemma CompleteGoes(s: Proxy, step: Step, q: nat, status: Status, r: nat)
    requires r < |s.requests| && !step.HandleReply? && !step.Unwind?
    ensures var t := Complete(s, q, status); r < |t.requests| && Goes(s, step, t, r)
  {
    hide Goes;
    var t := Complete(s, q, status);
    if t == s {
      Small(s, step, r);
      SameGoes(s, step, s, r);
    } else {
      MovedGoes(s, step, t, q, r);
    }
  }

  lemma CompletedGoes(s: Proxy, id: string, status: Status, r: nat)
    requires r < |s.requests|
    ensures var t := CompletedStep(s, id, status); r < |t.requests| && Goes(s, Completed(id, status), t, r)
  {
    hide Goes, Complete;
    if id in s.running {
      CompleteGoes(s, Completed(id, status), s.running[id], status, r);
    } else if id in s.parameters {
      CompleteGoes(s, Completed(id, status), s.parameters[id], status, r);
    } else {
      Small(s, Completed(id, status), r);
      SameGoes(s, Completed(id, status), s, r);
    }
  }

  lemma CallGoes(s: Proxy, step: Step, m: Proxy, kind: Kind, r: nat)
    requires r < |s.requests| && !step.HandleReply? && !step.Unwind? && Inv(s)
    requires m.requests == s.requests && m.pending == s.pending && m.open == s.open
    ensures var t := CallStep(m, kind); r < |t.requests| && Goes(s, step, t, r)
  {
    Small(s, step, r);
    hide Inv;
    SameGoes(s, step, CallStep(m, kind), r);
  }

  /** A step ends the subscription of a request that `EndsNow` says, and no other. */
  lemma StepGoes(s: Proxy, step: Step, r: nat)
    requires Inv(s) && Enabled(s, step) && r < |s.requests|
    ensures r < |Apply(s, step).requests| && Goes(s, step, Apply(s, step), r)
  {
    hide Inv, Goes, EndsNow, TakesReply, CallStep, StrikeStep, UnwindStep, CompletedStep, DetachStep, ReplyStep, WakeStep, BackStep, Leave;
    match step
    case Call(kind) => CallGoes(s, step, s, kind, r);
    case Strike(q, timeout) => StrikeGoes(s, q, timeout, r);
    case Unwind(q) =>
      if q == r { UnwindSelf(s, r); }
      else { UnwindOther(s, q, r); OtherGoes(s, q, r); }
    case HandleReply(q, reply) => ReplyGoes(s, q, reply, r);
    case Completed(id, status) => CompletedGoes(s, id, status, r);
    case Unsubscribe(id) => CallGoes(s, step, s.(deliveries := s.deliveries - {id}), Plain, r);
    case BeginEnding(k) =>
      var m := s.(deliveries := s.deliveries - {s.endings[k].id});
      CallGoes(s, step, m, Plain, r);
      EndingGoes(s, k, r);
    case Detach => DetachGoes(s, r);
    case Sent(q) => MovedGoes(s, step, Apply(s, step), q, r);
    case SendFails(q) => LeaveGoes(s, step, q, Replied(FAILED), r);
    case Wake(q) => WakeGoes(s, q, r);
    case Follow(q) => BackGoes(s, step, q, Followed(s.requests[q].done.value), r);
    case StopFollowing(q, timeout) => BackGoes(s, step, q, if timeout then Followed(ERROR) else GivenUp, r);
    case SetEngineIds(ids) =>
      Small(s, step, r);
      SameGoes(s, step, Apply(s, step), r);
  }

  lemma OtherGoes(s: Proxy, q: nat, r: nat)
    requires Enabled(s, Unwind(q)) && r != q && r < |s.requests| && r < |UnwindStep(s, q).requests|
    requires var t := UnwindStep(s, q);
      (r in t.pending ==> r in s.pending) && t.requests[r] == s.requests[r].(forgotten := t.requests[r].forgotten)
    ensures Goes(s, Unwind(q), UnwindStep(s, q), r)
  {
    hide UnwindStep;
  }

  lemma EndingGoes(s: Proxy, k: nat, r: nat)
    requires Enabled(s, BeginEnding(k)) && r < |s.requests|
    requires var t := CallStep(s.(deliveries := s.deliveries - {s.endings[k].id}), Plain);
      r < |t.requests| && Goes(s, BeginEnding(k), t, r)
    ensures r < |Apply(s, BeginEnding(k)).requests| && Goes(s, BeginEnding(k), Apply(s, BeginEnding(k)), r)
  {
    hide CallStep, EndsNow;
  }

  // -- Over every run --------------------------------------------------------------------

  /** The state of a run before its k-th step. */
  function At(steps: seq<Step>, k: nat): Proxy
    requires ValidRun(INIT, steps) && k <= |steps|
  {
    Through(INIT, steps, k);
    After(INIT, steps[..k])
  }

  lemma AtNext(steps: seq<Step>, k: nat)
    requires ValidRun(INIT, steps) && k < |steps|
    ensures Inv(At(steps, k)) && Enabled(At(steps, k), steps[k]) && At(steps, k + 1) == Apply(At(steps, k), steps[k])
  {
    hide Apply, Enabled, Inv;
    Through(INIT, steps, k);
    StepAt(INIT, steps, k);
    InitInv();
    InvAfter(INIT, steps[..k]);
  }

  lemma AtEnd(steps: seq<Step>)
    requires ValidRun(INIT, steps)
    ensures At(steps, |steps|) == After(INIT, steps) && At(steps, 0) == INIT && Inv(After(INIT, steps))
  {
    hide Apply, Enabled, Inv;
    assert steps[..|steps|] == steps && steps[..0] == [];
    InitInv();
    InvAfter(INIT, steps);
  }

  /** A moment of a run at which the subscription of a request is ended. */
  ghost predicate Ending(steps: seq<Step>, r: nat, k: nat)
    requires ValidRun(INIT, steps)
  {
    k < |steps| && EndsNow(At(steps, k), steps[k], r)
  }

  /** What came before stays: the kind, what was consumed, whether it was in vain, and an end. */
  lemma {:induction false} Onwards(steps: seq<Step>, r: nat, j: nat, k: nat)
    requires ValidRun(INIT, steps) && j <= k <= |steps| && r < |At(steps, j).requests|
    ensures r < |At(steps, k).requests|
    ensures var q, p := At(steps, j).requests[r], At(steps, k).requests[r];
      && p.kind == q.kind && q.consumed <= p.consumed && (q.vain ==> p.vain)
      && (r !in At(steps, j).pending ==> r !in At(steps, k).pending && p.future == q.future)
    decreases k - j
  {
    if j < k {
      hide At, Inv, Apply, Enabled, EndsNow;
      Onwards(steps, r, j, k - 1);
      AtNext(steps, k - 1);
      StepGoes(At(steps, k - 1), steps[k - 1], r);
    }
  }

  lemma {:induction false} EndsBy(steps: seq<Step>, r: nat, k: nat)
    requires ValidRun(INIT, steps) && k <= |steps| && r < |At(steps, k).requests|
    ensures At(steps, k).requests[r].ends > 0 <==> exists j :: 0 <= j < k && Ending(steps, r, j)
    decreases k
  {
    hide At, Apply, Enabled, EndsNow;
    if k == 0 {
      AtEnd(steps);
    } else {
      AtNext(steps, k - 1);
      var s := At(steps, k - 1);
      if r < |s.requests| {
        hide Inv;
        EndsBy(steps, r, k - 1);
        StepGoes(s, steps[k - 1], r);
        assert Ending(steps, r, k - 1) <==> EndsNow(s, steps[k - 1], r);
      } else {
        NewEndsNothing(s, steps[k - 1], r);
        NotYet(steps, r, k);
      }
    }
  }

  lemma NewEndsNothing(s: Proxy, step: Step, r: nat)
    requires Inv(s) && Enabled(s, step) && |s.requests| <= r < |Apply(s, step).requests|
    ensures Apply(s, step).requests[r].ends == 0
  {
    StepKeeps(s, step);
    NewIsPlain(s, step, r);
  }

  lemma NewIsPlain(s: Proxy, step: Step, r: nat)
    requires Enabled(s, step) && |s.requests| <= r < |Apply(s, step).requests|
    ensures Apply(s, step).requests[r].ends == 0
  {
    hide Owns, Remember, EndLate, ReplyStep, UnwindStep;
    match step
    case HandleReply(q, reply) => ReplyIsOwn(s, q, reply);
    case Unwind(q) => SameLength(s, q);
    case _ =>
  }

  lemma RememberLength(s: Proxy, q: nat)
    requires q < |s.requests|
    ensures |Remember(s, q).requests| == |s.requests|
  {
  }

  lemma SameLength(s: Proxy, q: nat)
    requires Enabled(s, Unwind(q))
    ensures |UnwindStep(s, q).requests| == |s.requests|
  {
    hide Remember, EndLate;
    RememberLength(s, q);
    if s.requests[q].future.Set? { EndLateEnds(s, q, s.requests[q].future.reply.id); }
  }

  lemma NotYet(steps: seq<Step>, r: nat, k: nat)
    requires ValidRun(INIT, steps) && 0 < k <= |steps| && |At(steps, k - 1).requests| <= r
    ensures forall j | 0 <= j < k :: !Ending(steps, r, j)
  {
    forall j | 0 <= j < k ensures !Ending(steps, r, j) {
      if r < |At(steps, j).requests| {
        hide At, Inv;
        Onwards(steps, r, j, k - 1);
      }
    }
  }

  /** In every run, what ends the subscription of a request for a caller that is gone does so
      once, and exactly when some step of the run finds it: the id is the child's and nobody
      else recorded it. */
  lemma EndedIffFound(steps: seq<Step>, r: nat)
    requires ValidRun(INIT, steps) && r < |After(INIT, steps).requests|
    ensures var q := After(INIT, steps).requests[r];
      q.ends <= 1 && (q.ends == 1 <==> exists k :: 0 <= k < |steps| && Ending(steps, r, k))
  {
    AtEnd(steps);
    assert Fits(After(INIT, steps), r);
    hide At, Ending;
    EndsBy(steps, r, |steps|);
  }

  // -- A granted subscription ------------------------------------------------------------

  /** The k-th step of a run brings the reply that grants an id to a subscribe, whose caller is
      gone in the end. It takes no other reply, and its except-branch did not come after the
      reply with nothing of it in the future. */
  ghost predicate GrantedTo(steps: seq<Step>, r: nat, k: nat, id: string)
    requires ValidRun(INIT, steps)
  {
    && k < |steps| && steps[k] == HandleReply(r, Reply(true, id)) && r < |At(steps, k).requests|
    && (r in At(steps, k).pending || r in At(steps, k).late) && At(steps, k).requests[r].kind.Subscribe?
    && r < |After(INIT, steps).requests| && Gone(After(INIT, steps).requests[r])
    && After(INIT, steps).requests[r].consumed == 1 && !After(INIT, steps).requests[r].vain
  }

  /** The id is one of the child's, and no subscription of it was recorded. */
  predicate Free(s: Proxy, id: string) {
    Owns(s.engineIds, id) && id !in s.deliveries
  }

  /** The caller is cancelled after the reply, while the id is still one of the child's. */
  ghost predicate CancelledLater(steps: seq<Step>, r: nat, k: nat, id: string)
    requires ValidRun(INIT, steps)
  {
    exists j :: k < j < |steps| && steps[j] == Unwind(r) && Owns(At(steps, j).engineIds, id)
  }

  /** The only reply of a request. */
  lemma OneReply(steps: seq<Step>, r: nat, k: nat, id: string, j: nat)
    requires ValidRun(INIT, steps) && GrantedTo(steps, r, k, id)
    requires j < |steps| && r < |At(steps, j).requests| && TakesReply(At(steps, j), steps[j], r)
    ensures j == k && At(steps, k).requests[r].consumed == 0
  {
    hide Inv, Apply, Enabled, EndsNow;
    AtEnd(steps);
    var first, second := if j <= k then j else k, if j <= k then k else j;
    AtNext(steps, first);
    StepGoes(At(steps, first), steps[first], r);
    AtNext(steps, second);
    StepGoes(At(steps, second), steps[second], r);
    if first < second { Onwards(steps, r, first + 1, second); }
    Onwards(steps, r, second + 1, |steps|);
  }

  /** A subscribe that waits takes a free id, and turns any other into ERROR. */
  lemma PendingTakes(s: Proxy, r: nat, id: string)
    requires Inv(s) && r in s.pending && r < |s.requests| && s.requests[r].kind.Subscribe?
    ensures var t := ReplyStep(s, r, Reply(true, id));
      && r < |t.requests| && r !in t.pending
      && (t.requests[r].future.Set? && t.requests[r].future.reply.ok ==> Free(s, id))
      && (t.requests[r].future.Set? && Free(s, id) ==> t.requests[r].future.reply == Reply(true, id))
      && (t.requests[r].future.Set? && t.requests[r].future.reply.ok ==> t.requests[r].future.reply == Reply(true, id))
  {
    assert Fits(s, r);
    hide Owns, Accounted, Ranges;
  }

  /** A late grant is ended exactly when its id is free. */
  lemma LateFound(steps: seq<Step>, r: nat, k: nat, id: string, j: nat)
    requires ValidRun(INIT, steps) && GrantedTo(steps, r, k, id) && r in At(steps, k).late && j < |steps|
    ensures Ending(steps, r, j) <==> j == k && Free(At(steps, k), id)
  {
    hide At, Apply, Enabled, Owns;
    AtNext(steps, k);
    var s := At(steps, k);
    OneReply(steps, r, k, id, k);
    assert Fits(s, r);
    if j != k && Ending(steps, r, j) {
      AtNext(steps, j);
      assert Fits(At(steps, j), r);
      if steps[j].HandleReply? {
        OneReply(steps, r, k, id, j);
      } else if j < k {
        Onwards(steps, r, j, k);
      } else {
        Onwards(steps, r, k, j);
      }
    }
    hide Inv;
  }

  /** A grant that came in time is ended exactly when its id is free and its caller is cancelled
      before it passed the reply on. */
  lemma PendingFound(steps: seq<Step>, r: nat, k: nat, id: string, j: nat)
    requires ValidRun(INIT, steps) && GrantedTo(steps, r, k, id) && r in At(steps, k).pending && j < |steps|
    ensures Ending(steps, r, j) <==>
              j > k && steps[j] == Unwind(r) && Owns(At(steps, j).engineIds, id) && Free(At(steps, k), id)
  {
    hide At, Apply, Enabled, Owns;
    AtNext(steps, k);
    OneReply(steps, r, k, id, k);
    AtNext(steps, j);
    if steps[j].HandleReply? && Ending(steps, r, j) {
      OneReply(steps, r, k, id, j);
    } else if steps[j] == Unwind(r) && j < k && r < |At(steps, j).requests| {
      assert Fits(At(steps, j), r);
      Onwards(steps, r, j, k);
    } else if steps[j] == Unwind(r) && j > k {
      LaterFound(steps, r, k, id, j);
    }
    hide Inv;
  }

  /** What the future of a request tells of the reply that came while it was pending. */
  ghost predicate Told(s: Proxy, q: Request, id: string) {
    && q.kind.Subscribe? && q.consumed > 0
    && (q.future.Set? && q.future.reply.ok ==> Free(s, id) && q.future.reply == Reply(true, id))
    && (q.future.Set? && Free(s, id) ==> q.future.reply == Reply(true, id))
  }

  lemma ToldLater(steps: seq<Step>, r: nat, k: nat, id: string, j: nat)
    requires ValidRun(INIT, steps) && GrantedTo(steps, r, k, id) && r in At(steps, k).pending && k < j < |steps|
    ensures r < |At(steps, j).requests| && Told(At(steps, k), At(steps, j).requests[r], id)
  {
    hide At, Inv, Owns, Free, Apply, Enabled, EndsNow;
    AtNext(steps, k);
    ReplyApplies(At(steps, k), r, id);
    PendingTakes(At(steps, k), r, id);
    StepGoes(At(steps, k), steps[k], r);
    Onwards(steps, r, k + 1, j);
  }

  /** The except-branch of such a request finds its reply in the future. */
  lemma ReplyIsThere(steps: seq<Step>, r: nat, k: nat, id: string, j: nat)
    requires ValidRun(INIT, steps) && GrantedTo(steps, r, k, id) && r in At(steps, k).pending
    requires k < j < |steps| && steps[j] == Unwind(r)
    ensures var s := At(steps, j); r < |s.requests| && s.requests[r].phase == Struck(false) && s.requests[r].future.Set?
  {
    hide At, Inv, Apply, Free, EndsNow, UnwindStep;
    ToldLater(steps, r, k, id, j);
    AtNext(steps, j);
    StruckThere(At(steps, j), r);
    UnwindApplies(At(steps, j), r);
    UnwindSelf(At(steps, j), r);
    Onwards(steps, r, j + 1, |steps|);
    AtEnd(steps);
  }

  lemma StruckThere(s: Proxy, r: nat)
    requires Enabled(s, Unwind(r))
    ensures r < |s.requests| && s.requests[r].phase.Struck?
  {
  }

  lemma LaterFound(steps: seq<Step>, r: nat, k: nat, id: string, j: nat)
    requires ValidRun(INIT, steps) && GrantedTo(steps, r, k, id) && r in At(steps, k).pending
    requires k < j < |steps| && steps[j] == Unwind(r)
    ensures Ending(steps, r, j) <==> Owns(At(steps, j).engineIds, id) && Free(At(steps, k), id)
  {
    ToldLater(steps, r, k, id, j);
    ReplyIsThere(steps, r, k, id, j);
    hide At, Inv, Owns, Free, Apply, Enabled;
  }

  lemma ReplyApplies(s: Proxy, r: nat, id: string)
    ensures Enabled(s, HandleReply(r, Reply(true, id))) && Apply(s, HandleReply(r, Reply(true, id))) == ReplyStep(s, r, Reply(true, id))
  {
  }

  lemma UnwindApplies(s: Proxy, r: nat)
    requires Enabled(s, Unwind(r))
    ensures Apply(s, Unwind(r)) == UnwindStep(s, r)
  {
  }

  /** In every run, a subscription granted to a caller that is gone in the end is ended by one
      unsubscribe exactly when its id was the child's and free when the reply came, and the
      reply was late or its caller was cancelled before it passed the reply on. */
  lemma EndedOnceIff(steps: seq<Step>, r: nat, k: nat, id: string)
    requires ValidRun(INIT, steps) && GrantedTo(steps, r, k, id)
    ensures var q := After(INIT, steps).requests[r];
      q.ends <= 1 && (q.ends == 1 <==> Free(At(steps, k), id) && (r in At(steps, k).late || CancelledLater(steps, r, k, id)))
  {
    EndedIffFound(steps, r);
    AtNext(steps, k);
    assert Fits(At(steps, k), r);
    hide At, Inv, Free;
    forall j | 0 <= j < |steps|
      ensures Ending(steps, r, j) <==>
        if r in At(steps, k).late then j == k && Free(At(steps, k), id)
        else j > k && steps[j] == Unwind(r) && Owns(At(steps, j).engineIds, id) && Free(At(steps, k), id)
    {
      if r in At(steps, k).late { LateFound(steps, r, k, id, j); } else { PendingFound(steps, r, k, id, j); }
    }
    hide Ending, Owns;
    assert r in At(steps, k).late && Free(At(steps, k), id) ==> Ending(steps, r, k);
  }

  /** With each interruption and its except-branch in one step, and no timeout after the reply
      came, that holds of every subscription granted to a caller that is gone in the end. */
  lemma EndedOnce(steps: seq<Step>, r: nat, k: nat, id: string)
    requires ValidRun(INIT, steps) && Prompt(INIT, steps)
    requires k < |steps| && steps[k] == HandleReply(r, Reply(true, id)) && r < |At(steps, k).requests|
    requires (r in At(steps, k).pending || r in At(steps, k).late) && At(steps, k).requests[r].kind.Subscribe?
    requires r < |After(INIT, steps).requests| && Gone(After(INIT, steps).requests[r])
    ensures var q := After(INIT, steps).requests[r];
      q.ends <= 1 && (q.ends == 1 <==> Free(At(steps, k), id) && (r in At(steps, k).late || CancelledLater(steps, r, k, id)))
  {
    hide At, Inv, Prompt, Free, Apply, Enabled;
    NoneYet();
    PromptNeverVain(INIT, steps);
    ConsumedOnce(steps);
    AtNext(steps, k);
    StepGoes(At(steps, k), steps[k], r);
    Onwards(steps, r, k + 1, |steps|);
    AtEnd(steps);
    EndedOnceIff(steps, r, k, id);
  }

  lemma NoneYet()
    ensures Inv(INIT) && NoneVain(INIT) && NoneStruck(INIT)
  {
  }
}
