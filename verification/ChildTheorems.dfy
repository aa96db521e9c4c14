/** What a parent can rely on of its child proxy, over every run. */
module ChildTheorems {
  import opened Sequences
  import opened Commands
  import opened Child
  import opened ChildProofs

  lemma InitInv()
    ensures Inv(INIT)
  {
  }

  // -- Each reply reaches one request ----------------------------------------------------

  lemma PendingIsOwn(s: Proxy, r: nat, reply: Reply)
    requires r < |s.requests|
    ensures var t := PendingReply(s, r, reply);
      && |t.requests| == |s.requests| && (forall i | 0 <= i < |s.requests| && i != r :: t.requests[i] == s.requests[i])
      && t.requests[r].vain == s.requests[r].vain && t.requests[r].phase == s.requests[r].phase
  {
    hide Owns, Judge, Refuses;
  }

  lemma LateIsOwn(s: Proxy, r: nat, reply: Reply)
    requires r < |s.requests|
    ensures var t := LateReply(s, r, reply);
      && |t.requests| == |s.requests| && (forall i | 0 <= i < |s.requests| && i != r :: t.requests[i] == s.requests[i])
      && t.requests[r].vain == s.requests[r].vain && t.requests[r].phase == s.requests[r].phase
  {
    hide EndLate, Without;
    var request := s.requests[r].(consumed := s.requests[r].consumed + 1,
                                  granted := if reply.ok then s.requests[r].granted + {reply.id} else s.requests[r].granted);
    var m := Put(s, r, request).(late := Without(s.late, r));
    if reply.ok { EndLateCounts(m, r, reply.id); }
  }

  /** A reply changes the request it names and no other. */
  lemma ReplyIsOwn(s: Proxy, r: nat, reply: Reply)
    ensures var t := ReplyStep(s, r, reply);
      && |t.requests| == |s.requests|
      && (forall i | 0 <= i < |s.requests| && i != r :: t.requests[i] == s.requests[i])
      && (r < |s.requests| ==> t.requests[r].vain == s.requests[r].vain && t.requests[r].phase == s.requests[r].phase)
      && (r < |s.requests| && r !in s.pending && r !in s.late ==> t == s)
  {
    hide PendingReply, LateReply;
    if r < |s.requests| {
      PendingIsOwn(s, r, reply);
      LateIsOwn(s, r, reply);
    }
  }

  /** In every run a request consumes at most one reply, and a second one only when it was
      remembered after its reply had come. Pending and late requests are apart, and at most
      1024 are late. */
  lemma ConsumedOnce(steps: seq<Step>)
    requires ValidRun(INIT, steps)
    ensures var s := After(INIT, steps);
      && (forall r | 0 <= r < |s.requests| :: s.requests[r].consumed <= 1 || (s.requests[r].vain && s.requests[r].consumed == 2))
      && (forall r <- s.late :: r !in s.pending) && |s.late| <= LATE_KEPT
  {
    InitInv();
    InvAfter(INIT, steps);
    var s := After(INIT, steps);
    forall r | 0 <= r < |s.requests|
      ensures s.requests[r].consumed <= 1 || (s.requests[r].vain && s.requests[r].consumed == 2)
      ensures r in s.late ==> r !in s.pending
    {
      assert Fits(s, r);
    }
  }

  // -- A granted subscription nobody holds is ended --------------------------------------

  /** In every run, a subscribe whose caller is gone before its reply stays remembered, unless
      1024 others came after it. */
  lemma StillRemembered(steps: seq<Step>, r: nat)
    requires ValidRun(INIT, steps) && After(INIT, steps).open && r < |After(INIT, steps).requests|
    requires var q := After(INIT, steps).requests[r]; q.kind.Subscribe? && Gone(q) && q.consumed == 0
    ensures r in After(INIT, steps).late || After(INIT, steps).requests[r].forgotten
  {
    InitInv();
    InvAfter(INIT, steps);
    assert Fits(After(INIT, steps), r);
  }

  /** The late reply that grants a free id of the child starts the one unsubscribe. */
  lemma LateGrantIsEnded(s: Proxy, r: nat, id: string)
    requires Inv(s) && r in s.late && s.requests[r].consumed == 0
    requires Owns(s.engineIds, id) && id !in s.deliveries
    ensures var t := ReplyStep(s, r, Reply(true, id));
      && r < |t.requests| && t.requests[r].ends == 1
      && t.endings == s.endings + [Ending(id, r, false)] && t.deliveries == s.deliveries
  {
    assert Fits(s, r);
    hide Without, Owns;
  }

  /** What an except-branch leaves of the flags a run is judged by. */
  ghost predicate Flags(s: Proxy, t: Proxy, r: nat) {
    && r < |t.requests| == |s.requests| && t.requests[r].phase.Over?
    && (forall i | 0 <= i < |s.requests| && i != r ::
          t.requests[i].vain == s.requests[i].vain && t.requests[i].phase == s.requests[i].phase)
    && (t.requests[r].vain <==> s.requests[r].kind.Subscribe? && s.requests[r].consumed > 0
                                && (s.requests[r].phase == Struck(true) || !s.requests[r].future.Set?))
  }

  lemma RememberSelf(s: Proxy, r: nat)
    requires Ranges(s) && r < |s.requests| && r !in s.late
    ensures var q := s.requests[r];
      && |Remember(s, r).requests| == |s.requests|
      && Remember(s, r).requests[r] == if q.kind.Subscribe? then q.(vain := q.consumed > 0) else q
  {
    hide Remember, Ranges;
    RememberRanges(s, r);
  }

  lemma RememberFlags(s: Proxy, r: nat, end: End)
    requires Inv(s) && r < |s.requests| && s.requests[r].phase.Struck?
    requires s.requests[r].phase.timeout || !s.requests[r].future.Set?
    ensures r < |Remember(s, r).requests| && Flags(s, Leave(Remember(s, r), r, end), r)
  {
    assert Fits(s, r);
    assert r !in s.late && !s.requests[r].vain;
    assert Ranges(s);
    hide Inv, Remember, Ranges, Reachable, Accounted;
    RememberSelf(s, r);
    var t := Leave(Remember(s, r), r, end);
    assert t.requests[r].vain <==> s.requests[r].kind.Subscribe? && s.requests[r].consumed > 0;
    hide Leave;
    forall i | 0 <= i < |s.requests| && i != r
      ensures t.requests[i].vain == s.requests[i].vain && t.requests[i].phase == s.requests[i].phase
    {
      OtherAfter(s, r, end, i);
    }
  }

  lemma EndFlags(s: Proxy, r: nat)
    requires Inv(s) && Enabled(s, Unwind(r)) && !s.requests[r].phase.timeout && s.requests[r].future.Set?
    ensures Flags(s, UnwindStep(s, r), r)
  {
    assert Fits(s, r);
    assert !s.requests[r].vain;
    hide EndLate, Ranges, Reachable, Accounted;
    if s.requests[r].kind.Subscribe? && s.requests[r].future.reply.ok {
      EndLateCounts(s, r, s.requests[r].future.reply.id);
    }
  }

  lemma UnwindFlags(s: Proxy, r: nat)
    requires Inv(s) && Enabled(s, Unwind(r))
    ensures Flags(s, UnwindStep(s, r), r)
  {
    hide Inv, Flags, Remember, Leave, EndLate;
    if s.requests[r].phase.timeout { RememberFlags(s, r, TimedOut); }
    else if !s.requests[r].future.Set? { RememberFlags(s, r, GivenUp); }
    else { EndFlags(s, r); }
  }

  /** Exactly when an except-branch remembers a request in vain: its reply was handled first,
      and the caller timed out or was struck before the reply came. */
  lemma VainIff(s: Proxy, r: nat)
    requires Inv(s) && Enabled(s, Unwind(r)) && s.requests[r].kind.Subscribe?
    ensures var t := UnwindStep(s, r);
      r < |t.requests|
      && (t.requests[r].vain <==> s.requests[r].consumed > 0 && (s.requests[r].phase.timeout || !s.requests[r].future.Set?))
  {
    UnwindFlags(s, r);
    hide UnwindStep, Inv;
  }

  /** Every interruption of a caller and its except-branch are one step, and a timeout finds
      its reply not yet there. */
  predicate Prompt(s: Proxy, steps: seq<Step>)
    requires ValidRun(s, steps)
    decreases |steps|
  {
    steps == [] || (
      && (steps[0].Strike? ==>
            && |steps| > 1 && steps[1] == Unwind(steps[0].r)
            && (steps[0].timeout ==> !s.requests[steps[0].r].future.Set?))
      && Prompt(Apply(s, steps[0]), steps[1..]))
  }

  predicate NoneVain(s: Proxy) {
    forall r | 0 <= r < |s.requests| :: !s.requests[r].vain
  }

  predicate NoneStruck(s: Proxy) {
    forall r | 0 <= r < |s.requests| :: !s.requests[r].phase.Struck?
  }

  /** A step other than an interruption and its except-branch strikes nobody and remembers
      nothing. */
  lemma CalmStep(s: Proxy, step: Step)
    requires Enabled(s, step) && NoneVain(s) && NoneStruck(s) && !step.Strike? && !step.Unwind?
    ensures NoneVain(Apply(s, step)) && NoneStruck(Apply(s, step))
  {
    hide ReplyStep, DetachStep, StrikeStep, UnwindStep, WakeStep, BackStep, CallStep, UnsubscribeStep, CompletedStep, Leave;
    match step
    case Call(kind) => CallIsCalm(s, kind);
    case Unsubscribe(id) => CallIsCalm(s.(deliveries := s.deliveries - {id}), Plain); UnsubscribeIs(s, id);
    case BeginEnding(k) => CallIsCalm(s.(deliveries := s.deliveries - {s.endings[k].id}), Plain); UnsubscribeIs(s, s.endings[k].id);
    case HandleReply(r, reply) => ReplyIsOwn(s, r, reply);
    case Detach => DetachIsCalm(s);
    case SendFails(r) => LeaveIsCalm(s, r, Replied(FAILED));
    case Wake(r) => WakeIsCalm(s, r);
    case Follow(r) => BackIsCalm(s, r, Followed(s.requests[r].done.value));
    case StopFollowing(r, timeout) => BackIsCalm(s, r, if timeout then Followed(ERROR) else GivenUp);
    case Completed(id, status) => CompletedIsCalm(s, id, status);
    case Sent(r) => OneIsCalm(s, Apply(s, step), r);
    case SetEngineIds(_) =>
  }

  lemma UnsubscribeIs(s: Proxy, id: string)
    ensures UnsubscribeStep(s, id) == CallStep(s.(deliveries := s.deliveries - {id}), Plain)
  {
  }

  lemma CallIsCalm(s: Proxy, kind: Kind)
    requires NoneVain(s) && NoneStruck(s)
    ensures NoneVain(CallStep(s, kind)) && NoneStruck(CallStep(s, kind))
  {
  }

  lemma OneIsCalm(s: Proxy, t: Proxy, r: nat)
    requires NoneVain(s) && NoneStruck(s) && r < |s.requests| == |t.requests|
    requires t.requests == s.requests[r := t.requests[r]] && !t.requests[r].vain && !t.requests[r].phase.Struck?
    ensures NoneVain(t) && NoneStruck(t)
  {
  }

  lemma LeaveIsCalm(s: Proxy, r: nat, end: End)
    requires NoneVain(s) && NoneStruck(s) && r < |s.requests|
    ensures NoneVain(Leave(s, r, end)) && NoneStruck(Leave(s, r, end))
  {
    assert !s.requests[r].vain;
    hide NoneVain, NoneStruck;
    OneIsCalm(s, Leave(s, r, end), r);
  }

  lemma WakeIsCalm(s: Proxy, r: nat)
    requires NoneVain(s) && NoneStruck(s) && Enabled(s, Wake(r))
    ensures NoneVain(WakeStep(s, r)) && NoneStruck(WakeStep(s, r))
  {
    var q := s.requests[r];
    LeaveIsCalm(s, r, Replied(q.future.reply));
    hide Leave;
    OneIsCalm(s, Put(s, r, q.(phase := Following)), r);
  }

  lemma BackIsCalm(s: Proxy, r: nat, end: End)
    requires NoneVain(s) && NoneStruck(s) && r < |s.requests|
    ensures NoneVain(BackStep(s, r, end)) && NoneStruck(BackStep(s, r, end))
  {
    assert !s.requests[r].vain;
    hide NoneVain, NoneStruck;
    OneIsCalm(s, BackStep(s, r, end), r);
  }

  lemma CompletedIsCalm(s: Proxy, id: string, status: Status)
    requires NoneVain(s) && NoneStruck(s)
    ensures NoneVain(CompletedStep(s, id, status)) && NoneStruck(CompletedStep(s, id, status))
  {
    if id in s.running { CompleteIsCalm(s, s.running[id], status); }
    else if id in s.parameters { CompleteIsCalm(s, s.parameters[id], status); }
    hide Complete, NoneVain, NoneStruck;
  }

  lemma CompleteIsCalm(s: Proxy, r: nat, status: Status)
    requires NoneVain(s) && NoneStruck(s)
    ensures NoneVain(Complete(s, r, status)) && NoneStruck(Complete(s, r, status))
  {
  }

  lemma DetachIsCalm(s: Proxy)
    requires NoneVain(s) && NoneStruck(s)
    ensures NoneVain(DetachStep(s)) && NoneStruck(DetachStep(s))
  {
    var t := DetachStep(s);
    forall i | 0 <= i < |t.requests| ensures !t.requests[i].vain && !t.requests[i].phase.Struck? {
      assert !s.requests[i].vain && !s.requests[i].phase.Struck?;
    }
  }

  lemma StrikeThenUnwind(s: Proxy, r: nat, timeout: bool)
    requires Inv(s) && Enabled(s, Strike(r, timeout)) && NoneVain(s) && NoneStruck(s) && (timeout ==> !s.requests[r].future.Set?)
    ensures var t := Apply(s, Strike(r, timeout));
      Inv(t) && Enabled(t, Unwind(r)) && NoneVain(UnwindStep(t, r)) && NoneStruck(UnwindStep(t, r))
  {
    var t := Apply(s, Strike(r, timeout));
    StepKeeps(s, Strike(r, timeout));
    assert Fits(s, r);
    UnwindFlags(t, r);
    hide UnwindStep, Inv;
  }

  lemma {:induction false} PromptNeverVain(s: Proxy, steps: seq<Step>)
    requires Inv(s) && NoneVain(s) && NoneStruck(s) && ValidRun(s, steps) && Prompt(s, steps)
    ensures NoneVain(After(s, steps))
    decreases |steps|
  {
    hide Inv, Apply, Enabled;
    if steps != [] {
      var t := Apply(s, steps[0]);
      StepKeeps(s, steps[0]);
      if steps[0].Strike? {
        StrikeFirst(s, steps);
        PromptNeverVain(Apply(t, steps[1]), steps[2..]);
      } else {
        UnstruckFirst(s, steps[0]);
        CalmStep(s, steps[0]);
        PromptNeverVain(t, steps[1..]);
      }
    }
  }

  lemma UnstruckFirst(s: Proxy, step: Step)
    requires NoneStruck(s) && Enabled(s, step)
    ensures !step.Unwind?
  {
  }

  lemma StrikeFirst(s: Proxy, steps: seq<Step>)
    requires Inv(s) && NoneVain(s) && NoneStruck(s) && ValidRun(s, steps) && Prompt(s, steps)
    requires steps != [] && steps[0].Strike?
    ensures |steps| > 1 && Enabled(Apply(s, steps[0]), steps[1])
    ensures var u := Apply(Apply(s, steps[0]), steps[1]);
      Inv(u) && NoneVain(u) && NoneStruck(u) && ValidRun(u, steps[2..]) && Prompt(u, steps[2..])
      && After(s, steps) == After(u, steps[2..])
  {
    StrikeThenUnwind(s, steps[0].r, steps[0].timeout);
    hide StrikeStep, UnwindStep, Inv, NoneVain, NoneStruck;
    var t := Apply(s, steps[0]);
    StepKeeps(t, steps[1]);
    assert steps[1..][1..] == steps[2..] && steps[1..][0] == steps[1];
    assert After(t, steps[1..]) == After(Apply(t, steps[1]), steps[2..]);
  }

  /** A subscribe whose timeout strikes after the reply came, before its caller saw it. */
  function LateTimeout(engineIds: set<string>, id: string): seq<Step> {
    [SetEngineIds(engineIds), Call(Subscribe), Sent(0), HandleReply(0, Reply(true, id)), Strike(0, true), Unwind(0)]
  }

  /** Such a timeout leaves a subscription that nobody holds and nothing ends, whatever id of
      its own the child grants. */
  lemma LateTimeoutLeaves(engineIds: set<string>, id: string)
    requires Owns(engineIds, id)
    ensures ValidRun(INIT, LateTimeout(engineIds, id))
    ensures var s := After(INIT, LateTimeout(engineIds, id));
      && |s.requests| == 1 && Gone(s.requests[0]) && s.requests[0].recorded && s.requests[0].vain
      && s.requests[0].ends == 0 && s.endings == [] && id in s.deliveries
  {
    hide After, ValidRun, Apply, Enabled, Owns, Asked;
    var steps := LateTimeout(engineIds, id);
    var s1 := AskedBy(engineIds);
    var s4 := AnsweredLate(engineIds, id);
    NoRun(steps);
    Next(steps, 0, INIT);
    Next(steps, 1, s1);
    Next(steps, 2, Apply(s1, steps[1]));
    Next(steps, 3, Asked(engineIds));
    Next(steps, 4, s4);
    Next(steps, 5, Apply(s4, steps[4]));
    assert steps[..6] == steps;
  }

  /** The proxy once its one request, a subscribe, is sent. */
  function Asked(engineIds: set<string>): Proxy {
    INIT.(engineIds := engineIds, requests := [NewRequest(Subscribe, Awaiting)], pending := {0})
  }

  lemma AskedBy(engineIds: set<string>) returns (s1: Proxy)
    ensures Enabled(INIT, SetEngineIds(engineIds)) && s1 == Apply(INIT, SetEngineIds(engineIds))
    ensures Enabled(s1, Call(Subscribe)) && Enabled(Apply(s1, Call(Subscribe)), Sent(0))
    ensures Apply(Apply(s1, Call(Subscribe)), Sent(0)) == Asked(engineIds)
  {
    s1 := Apply(INIT, SetEngineIds(engineIds));
    var s2 := Apply(s1, Call(Subscribe));
    assert s2.requests == [NewRequest(Subscribe, Sending)] && s2.pending == {0};
    assert Apply(s2, Sent(0)).requests == [NewRequest(Subscribe, Awaiting)];
  }

  lemma AnsweredLate(engineIds: set<string>, id: string) returns (s4: Proxy)
    requires Owns(engineIds, id)
    ensures var reply := HandleReply(0, Reply(true, id));
      Enabled(Asked(engineIds), reply) && s4 == Apply(Asked(engineIds), reply)
    ensures Enabled(s4, Strike(0, true)) && Enabled(Apply(s4, Strike(0, true)), Unwind(0))
    ensures var s := Apply(Apply(s4, Strike(0, true)), Unwind(0));
      && |s.requests| == 1 && Gone(s.requests[0]) && s.requests[0].recorded && s.requests[0].vain
      && s.requests[0].ends == 0 && s.endings == [] && id in s.deliveries
  {
    hide Owns, Remember, Leave, ReplyStep, UnwindStep;
    var s3 := Asked(engineIds);
    ReplyAnswers(s3, id);
    s4 := Apply(s3, HandleReply(0, Reply(true, id)));
    UnwindRemembers(Apply(s4, Strike(0, true)), id);
  }

  lemma ReplyAnswers(s: Proxy, id: string)
    requires |s.requests| == 1 && s.pending == {0} && s.requests[0] == NewRequest(Subscribe, Awaiting)
    requires Owns(s.engineIds, id) && id !in s.deliveries
    ensures ReplyStep(s, 0, Reply(true, id)) == s.(
      requests := [s.requests[0].(future := Set(Reply(true, id)), consumed := 1, granted := {id}, recorded := true, verdict := Ours)],
      pending := {}, deliveries := s.deliveries[id := 0])
  {
    hide Owns;
    var t := ReplyStep(s, 0, Reply(true, id));
    assert t == PendingReply(s, 0, Reply(true, id)) && Judge(s, id) == Ours;
    assert s.requests[0].granted + {id} == {id};
    assert t.requests == [Answered(s, s.requests[0], Reply(true, id))];
    assert t.pending == {};
  }

  lemma UnwindRemembers(s: Proxy, id: string)
    requires |s.requests| == 1 && s.pending == {} && s.late == [] && s.requests[0].kind == Subscribe
    requires s.requests[0].phase == Struck(true) && s.requests[0].consumed == 1
    ensures UnwindStep(s, 0) == s.(requests := [s.requests[0].(phase := Over(TimedOut), vain := true)], late := [0])
  {
    var t := UnwindStep(s, 0);
    assert t.requests == [t.requests[0]];
  }
}
