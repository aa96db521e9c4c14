/** Requests and replies of a child: each reply reaches one request, a late one ends the
    subscription nobody holds, and nobody waits on a child that is gone. */
module ChildProofs {
  import opened Wrappers
  import opened Sequences
  import opened Commands
  import opened Child

  /** A caller that stopped waiting. */
  predicate Gone(q: Request) {
    q.phase == Over(TimedOut) || q.phase == Over(GivenUp)
  }

  predicate Waits(q: Request) {
    q.phase == Sending || q.phase == Awaiting
  }

  /** A request as a reply finds it: `waited` when it is pending, `late` when remembered. */
  predicate Reachable(q: Request, waited: bool, late: bool, open: bool) {
    && !(waited && late)
    && (waited ==> open && q.consumed == 0 && (Waits(q) || q.phase.Struck?)
                   && (q.future == Unset || (q.future == Withdrawn && q.phase.Struck?)))
    && (Waits(q) && !waited ==> q.future.Set?)
    && (open && (Waits(q) || q.phase.Struck?) && q.consumed == 0 ==> waited)
    && (late ==> q.kind.Subscribe? && Gone(q) && q.consumed <= 1 && (q.consumed == 1 ==> q.vain))
    && (q.phase == Following ==> !q.kind.Subscribe? && q.future.Set? && q.future.reply.ok)
    && (!Gone(q) ==> !late && !q.vain && !q.forgotten)
    && q.consumed <= (if q.vain then 2 else 1)
    && (q.consumed == 0 ==> !q.vain && !(q.future.Set? && q.future.reply.ok))
  }

  /** What a request did with the subscription it was granted. */
  predicate Accounted(q: Request, late: bool, open: bool) {
    && q.ends <= 1
    && (q.consumed == 0 || !q.kind.Subscribe? ==> q.granted == {} && !q.recorded && q.ends == 0 && q.verdict == Undecided)
    && (!Gone(q) || late ==> q.ends == 0)
    && (q.kind.Subscribe? && !Gone(q) && q.consumed > 0 && q.future.Set? ==> (q.future.reply.ok <==> q.verdict == Ours))
    && (q.kind.Subscribe? && !Gone(q) && q.future.Set? && q.future.reply.ok ==> q.recorded && q.future.reply.id in q.granted)
    && (q.kind.Subscribe? && Gone(q) && q.consumed == 0 && open ==> late || q.forgotten)
    && (q.kind.Subscribe? && Gone(q) && q.consumed == 1 ==> (q.ends == 1 <==> q.verdict == Ours && !q.vain))
    && (!q.kind.Subscribe? ==> !q.vain)
  }

  ghost predicate Fits(s: Proxy, r: nat)
    requires r < |s.requests|
  {
    && Reachable(s.requests[r], r in s.pending, r in s.late, s.open)
    && Accounted(s.requests[r], r in s.late, s.open)
  }

  ghost predicate Ranges(s: Proxy) {
    && (forall r <- s.pending :: r < |s.requests|) && (forall r <- s.late :: r < |s.requests|)
    && NoDuplicates(s.late) && |s.late| <= LATE_KEPT
  }

  ghost predicate Inv(s: Proxy) {
    Ranges(s) && forall r: nat | r < |s.requests| :: Fits(s, r)
  }

  /** A step that touches one request, and what reaches it, keeps the others as they were. */
  lemma OneTouched(s: Proxy, t: Proxy, r: nat)
    requires Inv(s) && Ranges(t) && r < |s.requests| == |t.requests| && t.open == s.open
    requires forall i: nat | i < |s.requests| && i != r ::
               t.requests[i] == s.requests[i] && (i in t.pending <==> i in s.pending) && (i in t.late <==> i in s.late)
    requires Fits(t, r)
    ensures Inv(t)
  {
    hide Reachable, Accounted, Ranges;
    forall i: nat | i < |t.requests| ensures Fits(t, i) {
      if i != r { assert Fits(s, i); }
    }
  }

  lemma CallKeeps(s: Proxy, kind: Kind)
    requires Inv(s)
    ensures Inv(CallStep(s, kind))
  {
    var t := CallStep(s, kind);
    forall i: nat | i < |t.requests| ensures Fits(t, i) {
      if i < |s.requests| { assert Fits(s, i); }
    }
  }

  lemma LeaveKeeps(s: Proxy, r: nat, end: End)
    requires Inv(s) && r < |s.requests| && end.Replied? && (Waits(s.requests[r]))
    ensures Inv(Leave(s, r, end))
  {
    assert Fits(s, r);
    OneTouched(s, Leave(s, r, end), r);
  }

  lemma StrikeKeeps(s: Proxy, r: nat, timeout: bool)
    requires Inv(s) && Enabled(s, Strike(r, timeout))
    ensures Inv(StrikeStep(s, r, timeout))
  {
    assert Fits(s, r);
    OneTouched(s, StrikeStep(s, r, timeout), r);
  }

  /** A caller that goes on to wait for the end of its command. */
  lemma FollowKeeps(s: Proxy, r: nat)
    requires Inv(s) && r < |s.requests| && Waits(s.requests[r]) && !s.requests[r].kind.Subscribe?
    requires s.requests[r].future.Set? && s.requests[r].future.reply.ok
    ensures Inv(Put(s, r, s.requests[r].(phase := Following)).(pending := s.pending - {r}))
  {
    assert Fits(s, r);
    var t := Put(s, r, s.requests[r].(phase := Following)).(pending := s.pending - {r});
    SameRanges(s, t);
    hide Ranges;
    assert Fits(t, r);
    OneTouched(s, t, r);
  }

  lemma WakeKeeps(s: Proxy, r: nat)
    requires Inv(s) && Enabled(s, Wake(r))
    ensures Inv(WakeStep(s, r))
  {
    hide Inv, Leave;
    var request := s.requests[r];
    if WakeStep(s, r) == Leave(s, r, Replied(request.future.reply)) {
      LeaveKeeps(s, r, Replied(request.future.reply));
    } else {
      FollowKeeps(s, r);
    }
  }

  lemma PendingKeeps(s: Proxy, r: nat, reply: Reply)
    requires Inv(s) && r in s.pending
    ensures r < |s.requests| && Inv(PendingReply(s, r, reply))
  {
    assert Fits(s, r);
    var t := PendingReply(s, r, reply);
    assert Ranges(t);
    hide Ranges, Owns;
    assert Fits(t, r);
    OneTouched(s, t, r);
  }

  lemma ReplyKeeps(s: Proxy, r: nat, reply: Reply)
    requires Inv(s)
    ensures Inv(ReplyStep(s, r, reply))
  {
    if r < |s.requests| {
      if r in s.pending { PendingKeeps(s, r, reply); } else if r in s.late { LateKeeps(s, r, reply); }
    }
    hide Inv, PendingReply, LateReply;
  }

  lemma LateLacks(s: Proxy, r: nat)
    requires Ranges(s)
    ensures Ranges(s.(late := Without(s.late, r)))
    ensures forall i :: i in Without(s.late, r) <==> i in s.late && i != r
  {
    WithoutLacks(s.late, r);
  }

  /** `end_late` counts an unsubscribe exactly when it finds the subscription this request's. */
  lemma EndLateCounts(s: Proxy, r: nat, id: string)
    requires r < |s.requests|
    ensures var t := EndLate(s, r, id);
      && t == s.(requests := t.requests, endings := t.endings) && |t.requests| == |s.requests|
      && (forall i | 0 <= i < |s.requests| && i != r :: t.requests[i] == s.requests[i])
      && (exists ends, verdict ::
            && t.requests[r] == s.requests[r].(ends := ends, verdict := verdict) && verdict != Undecided
            && ends == s.requests[r].ends + (if verdict == Ours then 1 else 0)
            && (s.requests[r].recorded ==> verdict != Theirs))
  {
    hide Owns;
    var q := s.requests[r];
    var verdict := if !Owns(s.engineIds, id) then Foreign else if id in s.deliveries && !q.recorded then Theirs else Ours;
    var ends := q.ends + if verdict == Ours then 1 else 0;
    assert EndLate(s, r, id).requests == s.requests[r := q.(ends := ends, verdict := verdict)];
  }

  lemma LateKeeps(s: Proxy, r: nat, reply: Reply)
    requires Inv(s) && r in s.late
    ensures r < |s.requests| && Inv(LateReply(s, r, reply))
  {
    hide Ranges, NoDuplicates, Without, EndLate;
    LateLacks(s, r);
    assert r < |s.requests| by { InRange(s, r); }
    assert Fits(s, r);
    var request := s.requests[r].(consumed := s.requests[r].consumed + 1,
                                  granted := if reply.ok then s.requests[r].granted + {reply.id} else s.requests[r].granted);
    var m := Put(s, r, request).(late := Without(s.late, r));
    if reply.ok { EndLateCounts(m, r, reply.id); }
    var t := LateReply(s, r, reply);
    assert Ranges(t) by { SameRanges(s.(late := Without(s.late, r)), t); }
    OneTouched(s, t, r);
  }

  lemma InRange(s: Proxy, r: nat)
    requires Ranges(s) && (r in s.pending || r in s.late)
    ensures r < |s.requests|
  {
  }

  lemma SameRanges(s: Proxy, t: Proxy)
    requires Ranges(s) && |t.requests| >= |s.requests| && t.pending <= s.pending && t.late == s.late
    ensures Ranges(t)
  {
  }

  // -- The except-branch -----------------------------------------------------------------

  function Kept(late: seq<nat>): seq<nat> {
    if |late| > LATE_KEPT then late[1..] else late
  }

  lemma KeptAll(late: seq<nat>, r: nat)
    requires NoDuplicates(late) && |late| <= LATE_KEPT && r !in late
    ensures var all := late + [r];
      && NoDuplicates(Kept(all)) && |Kept(all)| <= LATE_KEPT && r in Kept(all)
      && forall i: nat :: i in Kept(all) <==> i == r || (i in late && (|late| == LATE_KEPT ==> i != late[0]))
  {
    var all := late + [r];
    assert all[|late|] == r && NoDuplicates(all);
    if |late| == LATE_KEPT {
      assert late == [late[0]] + late[1..] && Kept(all) == late[1..] + [r];
      assert late[0] !in late[1..];
    }
  }

  /** What `_remember_late` does to the requests: a subscribe is remembered, and the oldest one
      is forgotten when there are too many. */
  lemma RememberedRequests(s: Proxy, r: nat)
    requires Ranges(s) && r < |s.requests| && r !in s.late && s.requests[r].kind.Subscribe?
    ensures var t := Remember(s, r);
      && |t.requests| == |s.requests| && t == s.(requests := t.requests, late := Kept(s.late + [r]))
      && t.requests[r] == s.requests[r].(vain := s.requests[r].consumed > 0)
      && forall i | 0 <= i < |s.requests| && i != r ::
           t.requests[i] == if |s.late| == LATE_KEPT && i == s.late[0] then s.requests[i].(forgotten := true) else s.requests[i]
  {
    assert s.late != [] ==> s.late[0] in s.late;
    assert (s.late + [r])[0] == if s.late == [] then r else s.late[0];
    hide Ranges;
  }

  /** `_remember_late` adds the request, and forgets the oldest one when there are too many. */
  lemma RememberRanges(s: Proxy, r: nat)
    requires Ranges(s) && r < |s.requests| && r !in s.late
    ensures var t := Remember(s, r);
      && Ranges(t) && |t.requests| == |s.requests| && t == s.(requests := t.requests, late := t.late)
      && (forall i | 0 <= i < |s.requests| && i != r ::
            t.requests[i] == (if i in s.late && i !in t.late then s.requests[i].(forgotten := true) else s.requests[i]))
      && (forall i: nat | i != r :: i in t.late ==> i in s.late)
      && (s.requests[r].kind.Subscribe? ==> r in t.late)
      && (!s.requests[r].kind.Subscribe? ==> t.late == s.late)
      && t.requests[r] == if s.requests[r].kind.Subscribe? then s.requests[r].(vain := s.requests[r].consumed > 0) else s.requests[r]
  {
    if s.requests[r].kind.Subscribe? {
      KeptAll(s.late, r);
      RememberedRequests(s, r);
      hide NoDuplicates, Kept, Remember;
    }
  }

  /** A forgotten request fits as it did. */
  lemma ForgottenFits(q: Request, open: bool)
    requires Reachable(q, false, true, open) && Accounted(q, true, open)
    ensures Reachable(q.(forgotten := true), false, false, open) && Accounted(q.(forgotten := true), false, open)
  {
  }

  /** The request whose caller stops waiting before its reply fits, remembered. */
  lemma RememberedFits(s: Proxy, r: nat, end: End)
    requires Inv(s) && r < |s.requests| && s.requests[r].phase.Struck?
    requires (end == TimedOut && s.requests[r].phase.timeout) || (end == GivenUp && !s.requests[r].future.Set?)
    ensures r < |Leave(Remember(s, r), r, end).requests| && Fits(Leave(Remember(s, r), r, end), r) && r !in s.late
  {
    assert Fits(s, r);
    hide Remember;
    RememberRanges(s, r);
    hide Ranges;
  }

  lemma OtherAfter(s: Proxy, r: nat, end: End, i: nat)
    requires Ranges(s) && r < |s.requests| && i < |s.requests| && i != r && r !in s.late
    ensures var t := Leave(Remember(s, r), r, end);
      && |t.requests| == |s.requests| && t.open == s.open && (i in t.pending <==> i in s.pending) && (i in t.late ==> i in s.late)
      && t.requests[i] == if i in s.late && i !in t.late then s.requests[i].(forgotten := true) else s.requests[i]
  {
    hide Remember, Ranges;
    RememberRanges(s, r);
  }

  lemma OtherFits(s: Proxy, r: nat, end: End, i: nat)
    requires Inv(s) && r < |s.requests| && i < |s.requests| && i != r && r !in s.late
    ensures i < |Leave(Remember(s, r), r, end).requests| && Fits(Leave(Remember(s, r), r, end), i)
  {
    assert Fits(s, i);
    hide Leave, Remember, Ranges, Reachable, Accounted;
    OtherAfter(s, r, end, i);
    if i in s.late && i !in Leave(Remember(s, r), r, end).late {
      assert i !in s.pending by { LateIsNotPending(s, i); }
      ForgottenFits(s.requests[i], s.open);
    }
  }

  lemma LateIsNotPending(s: Proxy, i: nat)
    requires i < |s.requests| && Fits(s, i) && i in s.late
    ensures i !in s.pending
  {
  }

  lemma RememberKeeps(s: Proxy, r: nat, end: End)
    requires Inv(s) && r < |s.requests| && s.requests[r].phase.Struck?
    requires (end == TimedOut && s.requests[r].phase.timeout) || (end == GivenUp && !s.requests[r].future.Set?)
    ensures Inv(Leave(Remember(s, r), r, end))
  {
    hide Remember, NoDuplicates, Fits;
    RememberedFits(s, r, end);
    RememberRanges(s, r);
    var t := Leave(Remember(s, r), r, end);
    SameRanges(Remember(s, r), t);
    forall i: nat | i < |t.requests| ensures Fits(t, i) {
      if i != r { OtherFits(s, r, end, i); }
    }
  }

  /** The request whose caller leaves with its reply set aside fits. */
  lemma EndFits(s: Proxy, r: nat, m: Proxy, ends: bool)
    requires r < |s.requests| && Fits(s, r) && Enabled(s, Unwind(r))
    requires !s.requests[r].phase.timeout && s.requests[r].future.Set?
    requires ends == (s.requests[r].kind.Subscribe? && s.requests[r].future.reply.ok)
    requires m == s.(requests := m.requests, endings := m.endings) && r < |m.requests|
    requires if !ends then m.requests[r] == s.requests[r]
             else exists n, verdict :: m.requests[r] == s.requests[r].(ends := n, verdict := verdict) && verdict != Undecided
                    && n == s.requests[r].ends + (if verdict == Ours then 1 else 0) && (s.requests[r].recorded ==> verdict != Theirs)
    ensures var t := Leave(m, r, GivenUp); r < |t.requests| && Fits(t, r)
  {
  }

  lemma LeaveTouches(s: Proxy, r: nat)
    requires r < |s.requests|
    ensures var t := Leave(s, r, GivenUp);
      && |t.requests| == |s.requests| && t.open == s.open && t.late == s.late && t.pending == s.pending - {r}
      && forall i | 0 <= i < |s.requests| && i != r :: t.requests[i] == s.requests[i]
  {
  }

  /** A cancelled caller whose reply had come ends what the reply granted. */
  lemma EndKeeps(s: Proxy, r: nat)
    requires Inv(s) && Enabled(s, Unwind(r))
    requires !s.requests[r].phase.timeout && s.requests[r].future.Set?
    ensures Inv(UnwindStep(s, r))
  {
    var request := s.requests[r];
    assert Fits(s, r);
    assert Ranges(s);
    hide Inv, EndLate, Ranges;
    var ends := request.kind.Subscribe? && request.future.reply.ok;
    var m := if ends then EndLate(s, r, request.future.reply.id) else s;
    if ends { EndLateCounts(s, r, request.future.reply.id); }
    var t := Leave(m, r, GivenUp);
    EndFits(s, r, m, ends);
    SameRanges(s, t);
    hide Fits, Leave;
    LeaveTouches(m, r);
    OneTouched(s, t, r);
  }

  lemma UnwindKeeps(s: Proxy, r: nat)
    requires Inv(s) && Enabled(s, Unwind(r))
    ensures Inv(UnwindStep(s, r))
  {
    hide Inv, Remember, Leave, EndLate;
    var request := s.requests[r];
    if request.phase.timeout { RememberKeeps(s, r, TimedOut); }
    else if !request.future.Set? { RememberKeeps(s, r, GivenUp); }
    else { EndKeeps(s, r); }
  }

  // -- The other steps -------------------------------------------------------------------

  /** A step that changes no request except for what it follows, and nothing a reply finds. */
  lemma FollowersKeep(s: Proxy, t: Proxy)
    requires Inv(s) && |t.requests| == |s.requests| && t.open == s.open && t.pending == s.pending && t.late == s.late
    requires forall i: nat | i < |s.requests| ::
               t.requests[i] == s.requests[i].(done := t.requests[i].done, phase := t.requests[i].phase)
               && (t.requests[i].phase == s.requests[i].phase
                   || (s.requests[i].phase == Sending && t.requests[i].phase == Awaiting)
                   || (s.requests[i].phase == Following && t.requests[i].phase.Over? && !t.requests[i].phase.end.TimedOut?))
    ensures Inv(t)
  {
    forall i: nat | i < |t.requests| ensures Fits(t, i) { assert Fits(s, i); }
  }

  /** What the maps hold does not matter to the requests. */
  lemma MapsKeep(s: Proxy, t: Proxy)
    requires Inv(s)
    requires t == s.(running := t.running, parameters := t.parameters, deliveries := t.deliveries,
                     endings := t.endings, engineIds := t.engineIds)
    ensures Inv(t)
  {
    forall i: nat | i < |t.requests| ensures Fits(t, i) { assert Fits(s, i); }
    hide Reachable, Accounted;
  }

  lemma FollowerKeeps(s: Proxy, r: nat, q: Request)
    requires Inv(s) && r < |s.requests| && q == s.requests[r].(done := q.done, phase := q.phase)
    requires q.phase == s.requests[r].phase || (s.requests[r].phase == Sending && q.phase == Awaiting)
             || (s.requests[r].phase == Following && q.phase.Over? && !q.phase.end.TimedOut?)
    ensures Inv(Put(s, r, q))
  {
    hide Inv;
    FollowersKeep(s, Put(s, r, q));
  }

  lemma DetachKeeps(s: Proxy)
    requires Inv(s)
    ensures Inv(DetachStep(s))
  {
    var t := DetachStep(s);
    forall i: nat | i < |t.requests| ensures Fits(t, i) { assert Fits(s, i); }
  }

  lemma UnsubscribeKeeps(s: Proxy, id: string)
    requires Inv(s)
    ensures Inv(UnsubscribeStep(s, id))
  {
    var m := s.(deliveries := s.deliveries - {id});
    MapsKeep(s, m);
    CallKeeps(m, Plain);
  }

  lemma CompletedKeeps(s: Proxy, id: string, status: Status)
    requires Inv(s)
    ensures Inv(CompletedStep(s, id, status))
  {
    hide Inv;
    var t := CompletedStep(s, id, status);
    if t != s {
      var r := if id in s.running then s.running[id] else s.parameters[id];
      FollowerKeeps(s, r, s.requests[r].(done := Some(status)));
    }
  }

  lemma BackKeeps(s: Proxy, r: nat, end: End)
    requires Inv(s) && r < |s.requests| && s.requests[r].phase == Following && !end.TimedOut?
    ensures Inv(BackStep(s, r, end))
  {
    hide Inv;
    FollowerKeeps(s, r, s.requests[r].(phase := Over(end)));
    MapsKeep(Put(s, r, s.requests[r].(phase := Over(end))), BackStep(s, r, end));
  }

  lemma EndingKeeps(s: Proxy, k: nat)
    requires Inv(s) && Enabled(s, BeginEnding(k))
    ensures Inv(Apply(s, BeginEnding(k)))
  {
    hide Inv, UnsubscribeStep;
    UnsubscribeKeeps(s, s.endings[k].id);
    MapsKeep(UnsubscribeStep(s, s.endings[k].id), Apply(s, BeginEnding(k)));
  }

  /** Every step keeps the invariant. */
  lemma StepKeeps(s: Proxy, step: Step)
    requires Inv(s) && Enabled(s, step)
    ensures Inv(Apply(s, step))
  {
    hide Inv, CallStep, StrikeStep, UnwindStep, WakeStep, DetachStep, ReplyStep, UnsubscribeStep, BackStep, CompletedStep;
    match step
    case Call(kind) => CallKeeps(s, kind);
    case SendFails(r) => LeaveKeeps(s, r, Replied(FAILED));
    case Strike(r, timeout) => StrikeKeeps(s, r, timeout);
    case Unwind(r) => UnwindKeeps(s, r);
    case Wake(r) => WakeKeeps(s, r);
    case HandleReply(r, reply) => ReplyKeeps(s, r, reply);
    case Unsubscribe(id) => UnsubscribeKeeps(s, id);
    case BeginEnding(k) => EndingKeeps(s, k);
    case Detach => DetachKeeps(s);
    case Sent(r) => FollowerKeeps(s, r, s.requests[r].(phase := Awaiting));
    case Completed(id, status) => CompletedKeeps(s, id, status);
    case Follow(r) => BackKeeps(s, r, Followed(s.requests[r].done.value));
    case StopFollowing(r, timeout) => BackKeeps(s, r, if timeout then Followed(ERROR) else GivenUp);
    case SetEngineIds(ids) => MapsKeep(s, s.(engineIds := ids));
  }

  lemma {:induction false} InvAfter(s: Proxy, steps: seq<Step>)
    requires Inv(s) && ValidRun(s, steps)
    ensures Inv(After(s, steps))
    decreases |steps|
  {
    if steps != [] {
      StepKeeps(s, steps[0]);
      InvAfter(Apply(s, steps[0]), steps[1..]);
    }
  }

  // -- Runs that are written out ---------------------------------------------------------

  lemma {:induction false} RunSnoc(s: Proxy, steps: seq<Step>, step: Step)
    requires ValidRun(s, steps) && Enabled(After(s, steps), step)
    ensures ValidRun(s, steps + [step]) && After(s, steps + [step]) == Apply(After(s, steps), step)
    decreases |steps|
  {
    if steps == [] {
      assert [] + [step] == [step] && [step][1..] == [];
    } else {
      hide Apply, Enabled;
      RunSnoc(Apply(s, steps[0]), steps[1..], step);
      assert (steps + [step])[1..] == steps[1..] + [step];
    }
  }

  lemma NoRun(steps: seq<Step>)
    ensures ValidRun(INIT, steps[..0]) && After(INIT, steps[..0]) == INIT
  {
  }

  /** One more step of a run that is written out. */
  lemma Next(steps: seq<Step>, k: nat, s: Proxy)
    requires k < |steps| && ValidRun(INIT, steps[..k]) && After(INIT, steps[..k]) == s && Enabled(s, steps[k])
    ensures ValidRun(INIT, steps[..k + 1]) && After(INIT, steps[..k + 1]) == Apply(s, steps[k])
  {
    hide Apply, Enabled;
    RunSnoc(INIT, steps[..k], steps[k]);
    assert steps[..k + 1] == steps[..k] + [steps[k]];
  }

  /** A run goes through the state after any of its steps. */
  lemma {:induction false} Through(s: Proxy, steps: seq<Step>, k: nat)
    requires ValidRun(s, steps) && k <= |steps|
    ensures ValidRun(s, steps[..k])
    ensures var m := After(s, steps[..k]); ValidRun(m, steps[k..]) && After(m, steps[k..]) == After(s, steps)
    decreases |steps|
  {
    hide Apply, Enabled;
    if k == 0 {
      assert steps[..0] == [] && steps[0..] == steps;
    } else {
      Through(Apply(s, steps[0]), steps[1..], k - 1);
      assert steps[..k][1..] == steps[1..][..k - 1] && steps[1..][k - 1..] == steps[k..];
    }
  }

  /** The state after one more step of a run. */
  lemma StepAt(s: Proxy, steps: seq<Step>, k: nat)
    requires ValidRun(s, steps) && k < |steps|
    ensures ValidRun(s, steps[..k]) && Enabled(After(s, steps[..k]), steps[k])
    ensures ValidRun(s, steps[..k + 1]) && After(s, steps[..k + 1]) == Apply(After(s, steps[..k]), steps[k])
  {
    Through(s, steps, k);
    hide Apply, Enabled;
    RunSnoc(s, steps[..k], steps[k]);
    assert steps[..k + 1] == steps[..k] + [steps[k]];
  }
}
