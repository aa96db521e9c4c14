/** A subscription someone holds is not ended for somebody else, and nobody waits on a child
    that is gone. */
module ChildHolding {
  import opened Sequences
  import opened Commands
  import opened Child
  import opened ChildProofs
  import opened ChildTheorems

  // -- A subscription someone holds is not ended -----------------------------------------

  /** The child grants an id to one subscribe only. */
  predicate GrantsFreshly(s: Proxy, step: Step) {
    step.HandleReply? && step.reply.ok ==>
      forall i | 0 <= i < |s.requests| && i != step.r :: step.reply.id !in s.requests[i].granted
  }

  predicate FreshGrants(s: Proxy, steps: seq<Step>)
    requires ValidRun(s, steps)
    decreases |steps|
  {
    steps == [] || (GrantsFreshly(s, steps[0]) && FreshGrants(Apply(s, steps[0]), steps[1..]))
  }

  predicate Granted(s: Proxy, r: nat, id: string) {
    r < |s.requests| && id in s.requests[r].granted
  }

  /** Each id was granted to one request, deliveries go to it, and what ends a subscription
      was started for a caller that is gone. */
  ghost predicate HeldInv(s: Proxy) {
    && (forall i: nat, j: nat, id | Granted(s, i, id) && Granted(s, j, id) :: i == j)
    && (forall id <- s.deliveries :: Granted(s, s.deliveries[id], id))
    && (forall k | 0 <= k < |s.endings| :: Granted(s, s.endings[k].request, s.endings[k].id) && Gone(s.requests[s.endings[k].request]))
  }

  /** A step that grants nothing new, brings nobody back and delivers to nobody else. */
  predicate Settles(s: Proxy, t: Proxy) {
    && |s.requests| <= |t.requests|
    && (forall i | 0 <= i < |s.requests| ::
          t.requests[i].granted == s.requests[i].granted && (Gone(s.requests[i]) ==> Gone(t.requests[i])))
    && (forall i | |s.requests| <= i < |t.requests| :: t.requests[i].granted == {})
    && (forall id <- t.deliveries :: id in s.deliveries && t.deliveries[id] == s.deliveries[id])
    && (forall k | 0 <= k < |t.endings| :: k < |s.endings| && t.endings[k].request == s.endings[k].request && t.endings[k].id == s.endings[k].id)
  }

  lemma SettledHolds(s: Proxy, t: Proxy)
    requires HeldInv(s) && Settles(s, t)
    ensures HeldInv(t)
  {
    forall i: nat, id | Granted(t, i, id) ensures Granted(s, i, id) { }
    forall id <- t.deliveries ensures Granted(t, t.deliveries[id], id) { assert Granted(s, s.deliveries[id], id); }
    forall k | 0 <= k < |t.endings|
      ensures Granted(t, t.endings[k].request, t.endings[k].id) && Gone(t.requests[t.endings[k].request])
    {
      assert Granted(s, s.endings[k].request, s.endings[k].id);
    }
  }

  lemma OneSettles(s: Proxy, t: Proxy, r: nat)
    requires r < |s.requests| == |t.requests| && t.requests == s.requests[r := t.requests[r]]
    requires t.requests[r].granted == s.requests[r].granted && (Gone(s.requests[r]) ==> Gone(t.requests[r]))
    requires t.deliveries == s.deliveries && t.endings == s.endings
    ensures Settles(s, t)
  {
  }

  lemma LeaveSettles(s: Proxy, r: nat, end: End)
    requires r < |s.requests| && (Gone(s.requests[r]) ==> end == TimedOut || end == GivenUp)
    ensures Settles(s, Leave(s, r, end))
  {
    var t := Leave(s, r, end);
    assert t.requests[r].granted == s.requests[r].granted && (Gone(s.requests[r]) ==> Gone(t.requests[r]));
    hide Settles, Gone;
    OneSettles(s, t, r);
  }

  lemma CallSettles(s: Proxy, kind: Kind)
    ensures Settles(s, CallStep(s, kind))
  {
  }

  lemma SettlesOn(s: Proxy, m: Proxy, t: Proxy)
    requires Settles(s, m) && Settles(m, t) && |m.requests| == |s.requests|
    ensures Settles(s, t)
  {
  }

  lemma UnsubscribeSettles(s: Proxy, id: string)
    ensures Settles(s, UnsubscribeStep(s, id))
  {
    var m := s.(deliveries := s.deliveries - {id});
    CallSettles(m, Plain);
    hide CallStep;
    assert Settles(s, m);
    SettlesOn(s, m, CallStep(m, Plain));
  }

  lemma EndingSettles(s: Proxy, k: nat)
    requires Enabled(s, BeginEnding(k))
    ensures Settles(s, Apply(s, BeginEnding(k)))
  {
    UnsubscribeSettles(s, s.endings[k].id);
    hide UnsubscribeStep;
  }

  lemma DetachSettles(s: Proxy)
    ensures Settles(s, DetachStep(s))
  {
    var t := DetachStep(s);
    forall i | 0 <= i < |s.requests|
      ensures t.requests[i].granted == s.requests[i].granted && (Gone(s.requests[i]) ==> Gone(t.requests[i]))
    {
      assert t.requests[i] == Detached(s, i);
    }
  }

  lemma CompletedSettles(s: Proxy, id: string, status: Status)
    ensures Settles(s, CompletedStep(s, id, status))
  {
    if id in s.running { CompleteSettles(s, s.running[id], status); }
    else if id in s.parameters { CompleteSettles(s, s.parameters[id], status); }
    else { assert Settles(s, s); }
    hide Complete, Settles;
  }

  lemma CompleteSettles(s: Proxy, r: nat, status: Status)
    ensures Settles(s, Complete(s, r, status))
  {
    if Complete(s, r, status) != s { OneSettles(s, Complete(s, r, status), r); }
  }

  lemma BackSettles(s: Proxy, r: nat, end: End)
    requires r < |s.requests| && s.requests[r].phase == Following
    ensures Settles(s, BackStep(s, r, end))
  {
    hide Settles;
    OneSettles(s, BackStep(s, r, end), r);
  }

  lemma WakeSettles(s: Proxy, r: nat)
    requires Enabled(s, Wake(r))
    ensures Settles(s, WakeStep(s, r))
  {
    var q := s.requests[r];
    LeaveSettles(s, r, Replied(q.future.reply));
    hide Leave, Settles;
    OneSettles(s, Put(s, r, q.(phase := Following)).(pending := s.pending - {r}), r);
  }

  lemma StrikeSettles(s: Proxy, r: nat, timeout: bool)
    requires Enabled(s, Strike(r, timeout))
    ensures Settles(s, StrikeStep(s, r, timeout))
  {
    hide Settles;
    OneSettles(s, StrikeStep(s, r, timeout), r);
  }

  /** Every step but a reply and the end of a cancelled caller settles. */
  lemma OtherSettles(s: Proxy, step: Step)
    requires Enabled(s, step) && !step.HandleReply? && !step.Unwind?
    ensures Settles(s, Apply(s, step))
  {
    hide CallStep, StrikeStep, WakeStep, BackStep, CompletedStep, DetachStep, UnsubscribeStep, Leave;
    match step
    case Call(kind) => CallSettles(s, kind);
    case Sent(r) => OneSettles(s, Apply(s, step), r);
    case SendFails(r) => LeaveSettles(s, r, Replied(FAILED));
    case Strike(r, timeout) => StrikeSettles(s, r, timeout);
    case Wake(r) => WakeSettles(s, r);
    case Completed(id, status) => CompletedSettles(s, id, status);
    case Follow(r) => BackSettles(s, r, Followed(s.requests[r].done.value));
    case StopFollowing(r, timeout) => BackSettles(s, r, if timeout then Followed(ERROR) else GivenUp);
    case Unsubscribe(id) => UnsubscribeSettles(s, id);
    case BeginEnding(k) => EndingSettles(s, k);
    case SetEngineIds(_) =>
    case Detach => DetachSettles(s);
  }

  /** A reply grants an id to its own request, which delivers or ends it. */
  lemma GrantHolds(s: Proxy, t: Proxy, r: nat, id: string)
    requires HeldInv(s) && r < |s.requests| == |t.requests|
    requires forall i | 0 <= i < |s.requests| && i != r :: id !in s.requests[i].granted && t.requests[i] == s.requests[i]
    requires t.requests[r].granted == s.requests[r].granted + {id} && t.requests[r].phase == s.requests[r].phase
    requires t.deliveries == s.deliveries || t.deliveries == s.deliveries[id := r]
    requires t.endings == s.endings || (Gone(t.requests[r]) && t.endings == s.endings + [Ending(id, r, false)])
    ensures HeldInv(t)
  {
    forall i: nat, other | Granted(t, i, other)
      ensures Granted(s, i, other) || (i == r && other == id)
    {
    }
    forall i: nat, j: nat, other | Granted(t, i, other) && Granted(t, j, other) ensures i == j {
      if Granted(s, i, other) && Granted(s, j, other) { }
    }
    forall other <- t.deliveries ensures Granted(t, t.deliveries[other], other) {
      if other != id || t.deliveries == s.deliveries { assert Granted(s, s.deliveries[other], other); }
    }
    forall k | 0 <= k < |t.endings|
      ensures Granted(t, t.endings[k].request, t.endings[k].id) && Gone(t.requests[t.endings[k].request])
    {
      if k < |s.endings| { assert Granted(s, s.endings[k].request, s.endings[k].id); }
    }
  }

  lemma PendingHolds(s: Proxy, r: nat, reply: Reply)
    requires Inv(s) && HeldInv(s) && r in s.pending && GrantsFreshly(s, HandleReply(r, reply))
    ensures r < |s.requests| && HeldInv(PendingReply(s, r, reply))
  {
    assert Fits(s, r);
    var t := PendingReply(s, r, reply);
    var q := s.requests[r];
    hide Owns, HeldInv, Judge, Refuses, Reachable, Accounted;
    if q.kind.Subscribe? && reply.ok {
      GrantHolds(s, t, r, reply.id);
    } else {
      OneSettles(s, t, r);
      SettledHolds(s, t);
    }
  }

  lemma LateHolds(s: Proxy, r: nat, reply: Reply)
    requires Inv(s) && HeldInv(s) && r in s.late && GrantsFreshly(s, HandleReply(r, reply))
    ensures r < |s.requests| && HeldInv(LateReply(s, r, reply))
  {
    assert Fits(s, r);
    assert Gone(s.requests[r]);
    var t := LateReply(s, r, reply);
    hide Owns, HeldInv, Reachable, Accounted, Without;
    if reply.ok {
      LateGrants(s, r, reply.id);
      GrantHolds(s, t, r, reply.id);
    } else {
      OneSettles(s, t, r);
      SettledHolds(s, t);
    }
  }

  lemma LateGrants(s: Proxy, r: nat, id: string)
    requires r < |s.requests|
    ensures var t := LateReply(s, r, Reply(true, id));
      && |t.requests| == |s.requests| && t.deliveries == s.deliveries
      && (forall i | 0 <= i < |s.requests| && i != r :: t.requests[i] == s.requests[i])
      && t.requests[r].granted == s.requests[r].granted + {id} && t.requests[r].phase == s.requests[r].phase
      && (t.endings == s.endings || t.endings == s.endings + [Ending(id, r, false)])
  {
    hide EndLate, Without;
    var m := Put(s, r, s.requests[r].(consumed := s.requests[r].consumed + 1, granted := s.requests[r].granted + {id})).(
               late := Without(s.late, r));
    EndLateCounts(m, r, id);
    EndLateEndings(m, r, id);
  }

  lemma EndLateEndings(s: Proxy, r: nat, id: string)
    requires r < |s.requests|
    ensures var t := EndLate(s, r, id);
      t.endings == s.endings || t.endings == s.endings + [Ending(id, r, false)]
  {
  }

  lemma RememberHolds(s: Proxy, r: nat, end: End)
    requires Inv(s) && HeldInv(s) && r < |s.requests| && s.requests[r].phase.Struck? && (end == TimedOut || end == GivenUp)
    ensures r < |Remember(s, r).requests| && HeldInv(Leave(Remember(s, r), r, end))
  {
    assert Fits(s, r);
    assert r !in s.late && !Gone(s.requests[r]);
    hide Remember, Reachable, Accounted, HeldInv;
    assert Ranges(s);
    RememberRanges(s, r);
    var m := Remember(s, r);
    assert Settles(s, m);
    SettledHolds(s, m);
    LeaveSettles(m, r, end);
    SettledHolds(m, Leave(m, r, end));
  }

  lemma EndHolds(s: Proxy, r: nat)
    requires Inv(s) && HeldInv(s) && Enabled(s, Unwind(r)) && !s.requests[r].phase.timeout && s.requests[r].future.Set?
    ensures HeldInv(UnwindStep(s, r))
  {
    assert Fits(s, r);
    hide EndLate, Reachable, HeldInv;
    var q := s.requests[r];
    if q.kind.Subscribe? && q.future.reply.ok {
      var id := q.future.reply.id;
      EndLateCounts(s, r, id);
      EndLateEndings(s, r, id);
      assert id in q.granted;
      EndedHolds(s, Leave(EndLate(s, r, id), r, GivenUp), r, id);
    } else {
      LeaveSettles(s, r, GivenUp);
      SettledHolds(s, Leave(s, r, GivenUp));
    }
  }

  lemma EndedHolds(s: Proxy, t: Proxy, r: nat, id: string)
    requires HeldInv(s) && r < |s.requests| == |t.requests| && id in s.requests[r].granted
    requires forall i | 0 <= i < |s.requests| && i != r :: t.requests[i] == s.requests[i]
    requires t.requests[r].granted == s.requests[r].granted && Gone(t.requests[r])
    requires t.deliveries == s.deliveries
    requires t.endings == s.endings || t.endings == s.endings + [Ending(id, r, false)]
    ensures HeldInv(t)
  {
    forall i: nat, other | Granted(t, i, other) ensures Granted(s, i, other) { }
    forall other <- t.deliveries ensures Granted(t, t.deliveries[other], other) { assert Granted(s, s.deliveries[other], other); }
    forall k | 0 <= k < |t.endings|
      ensures Granted(t, t.endings[k].request, t.endings[k].id) && Gone(t.requests[t.endings[k].request])
    {
      if k < |s.endings| { assert Granted(s, s.endings[k].request, s.endings[k].id); }
    }
  }

  lemma HeldKeeps(s: Proxy, step: Step)
    requires Inv(s) && HeldInv(s) && Enabled(s, step) && GrantsFreshly(s, step)
    ensures HeldInv(Apply(s, step))
  {
    hide Inv, HeldInv, PendingReply, LateReply, Remember, Leave, EndLate, Settles;
    match step
    case HandleReply(r, reply) =>
      if r < |s.requests| {
        if r in s.pending { PendingHolds(s, r, reply); } else if r in s.late { LateHolds(s, r, reply); }
      }
    case Unwind(r) =>
      if s.requests[r].phase.timeout { RememberHolds(s, r, TimedOut); }
      else if !s.requests[r].future.Set? { RememberHolds(s, r, GivenUp); }
      else { EndHolds(s, r); }
    case _ =>
      OtherSettles(s, step);
      SettledHolds(s, Apply(s, step));
  }

  lemma {:induction false} HeldAfter(s: Proxy, steps: seq<Step>)
    requires Inv(s) && HeldInv(s) && ValidRun(s, steps) && FreshGrants(s, steps)
    ensures HeldInv(After(s, steps))
    decreases |steps|
  {
    hide Inv, HeldInv, Apply;
    if steps != [] {
      StepKeeps(s, steps[0]);
      HeldKeeps(s, steps[0]);
      HeldAfter(Apply(s, steps[0]), steps[1..]);
    }
  }

  /** When a child grants each id once, the task that ends a subscription ends none whose
      caller still is there. */
  lemma HeldIsNotEnded(steps: seq<Step>, k: nat, id: string)
    requires ValidRun(INIT, steps) && FreshGrants(INIT, steps)
    requires Enabled(After(INIT, steps), BeginEnding(k)) && id in After(INIT, steps).deliveries
    ensures var s := After(INIT, steps);
      && s.deliveries[id] < |s.requests|
      && (!Gone(s.requests[s.deliveries[id]]) ==> id in Apply(s, BeginEnding(k)).deliveries)
  {
    var s := After(INIT, steps);
    HeldAfter(INIT, steps);
    assert Granted(s, s.deliveries[id], id);
    assert Granted(s, s.endings[k].request, s.endings[k].id);
  }

  lemma PendingGrant(s: Proxy, q: nat, id: string)
    requires Inv(s) && q in s.pending && q < |s.requests| && s.requests[q].kind.Subscribe?
    requires Owns(s.engineIds, id) && id !in s.deliveries && Waits(s.requests[q])
    ensures var t := ReplyStep(s, q, Reply(true, id));
      && |t.requests| == |s.requests| && t.requests[q].recorded && t.requests[q].future == Set(Reply(true, id))
      && t.requests[q].phase == s.requests[q].phase && t.deliveries == s.deliveries[id := q] && t.endings == s.endings
  {
    assert Fits(s, q);
    hide Owns, Inv;
  }

  /** The task of an ending drops what somebody was granted, and stays at what they were at. */
  predicate Loses(s: Proxy, k: nat, q: nat, id: string) {
    && q < |s.requests| && s.requests[q].recorded && s.requests[q].future == Set(Reply(true, id))
    && Enabled(s, BeginEnding(k))
    && var t := Apply(s, BeginEnding(k)); q < |t.requests| && t.requests[q] == s.requests[q] && id !in t.deliveries
  }

  /** A late request and one that waits are granted one id: the unsubscribe of the first ends
      what the second holds. */
  lemma SecondIsEnded(s: Proxy, r: nat, q: nat, id: string)
    requires Inv(s) && r in s.late && s.requests[r].consumed == 0
    requires q in s.pending && s.requests[q].kind.Subscribe? && Waits(s.requests[q])
    requires Owns(s.engineIds, id) && id !in s.deliveries
    ensures var s2 := ReplyStep(ReplyStep(s, r, Reply(true, id)), q, Reply(true, id));
      Loses(s2, |s.endings|, q, id) && s2.requests[q].phase == s.requests[q].phase
  {
    assert Fits(s, r);
    assert Fits(s, q);
    assert r != q;
    hide Owns, Inv, ReplyStep, UnsubscribeStep, Reachable, Accounted;
    var s1 := ReplyStep(s, r, Reply(true, id));
    LateGrantIsEnded(s, r, id);
    ReplyIsOwn(s, r, Reply(true, id));
    ReplyKeeps(s, r, Reply(true, id));
    LateKeepsPending(s, r, id);
    PendingGrant(s1, q, id);
    UnsubscribeDrops(ReplyStep(s1, q, Reply(true, id)), id);
  }

  lemma LateKeepsPending(s: Proxy, r: nat, id: string)
    requires r < |s.requests| && r in s.late && r !in s.pending
    ensures var t := ReplyStep(s, r, Reply(true, id)); t.pending == s.pending && t.engineIds == s.engineIds
  {
    hide Owns, Without;
  }

  lemma UnsubscribeDrops(s: Proxy, id: string)
    ensures var t := UnsubscribeStep(s, id);
      && t.deliveries == s.deliveries - {id} && |s.requests| <= |t.requests| && t.endings == s.endings
      && forall i | 0 <= i < |s.requests| :: t.requests[i] == s.requests[i]
  {
  }

  /** A subscribe that timed out, another one, and one id granted to both. */
  function GrantedTwice(engineIds: set<string>, id: string): seq<Step> {
    [SetEngineIds(engineIds), Call(Subscribe), Sent(0), Strike(0, true), Unwind(0), Call(Subscribe), Sent(1),
     HandleReply(0, Reply(true, id)), HandleReply(1, Reply(true, id)), BeginEnding(0)]
  }

  /** The proxy once its first subscribe timed out. */
  function LateAlone(engineIds: set<string>): Proxy {
    var q := NewRequest(Subscribe, Over(TimedOut)).(future := Withdrawn);
    INIT.(engineIds := engineIds, requests := [q], late := [0])
  }

  lemma LateBy(engineIds: set<string>) returns (s1: Proxy, s2: Proxy, s3: Proxy, s4: Proxy)
    ensures Enabled(INIT, SetEngineIds(engineIds)) && Apply(INIT, SetEngineIds(engineIds)) == s1
    ensures Enabled(s1, Call(Subscribe)) && Apply(s1, Call(Subscribe)) == s2
    ensures Enabled(s2, Sent(0)) && Apply(s2, Sent(0)) == s3
    ensures Enabled(s3, Strike(0, true)) && Apply(s3, Strike(0, true)) == s4
    ensures Enabled(s4, Unwind(0)) && Apply(s4, Unwind(0)) == LateAlone(engineIds)
  {
    hide UnwindStep;
    var q := NewRequest(Subscribe, Sending);
    s1 := INIT.(engineIds := engineIds);
    s2 := s1.(requests := [q], pending := {0});
    s3 := s2.(requests := [q.(phase := Awaiting)]);
    s4 := s3.(requests := [q.(phase := Struck(true), future := Withdrawn)]);
    UnwindsLate(s4);
  }

  lemma UnwindsLate(s: Proxy)
    requires |s.requests| == 1 && s.pending == {0} && s.late == [] && s.requests[0].kind == Subscribe
    requires s.requests[0].phase == Struck(true) && s.requests[0].consumed == 0 && !s.requests[0].vain
    ensures UnwindStep(s, 0) == s.(requests := [s.requests[0].(phase := Over(TimedOut))], pending := {}, late := [0])
  {
    var t := UnwindStep(s, 0);
    assert t.requests == [t.requests[0]] && t.pending == {};
  }

  lemma ThenWaits(engineIds: set<string>) returns (s6: Proxy, s7: Proxy)
    ensures Enabled(LateAlone(engineIds), Call(Subscribe)) && Apply(LateAlone(engineIds), Call(Subscribe)) == s6
    ensures Enabled(s6, Sent(1)) && Apply(s6, Sent(1)) == s7
    ensures s7.late == [0] && 1 in s7.pending && s7.endings == [] && s7.deliveries == map[] && s7.engineIds == engineIds
    ensures |s7.requests| == 2 && s7.requests[0].consumed == 0 && s7.requests[1].kind == Subscribe && Waits(s7.requests[1])
  {
    s6 := CallStep(LateAlone(engineIds), Subscribe);
    s7 := Put(s6, 1, s6.requests[1].(phase := Awaiting));
  }

  /** A child that grants one id to a late request and then to another has the second one,
      which someone holds, ended. */
  lemma GrantedTwiceIsEnded(engineIds: set<string>, id: string)
    requires Owns(engineIds, id)
    ensures var steps := GrantedTwice(engineIds, id);
      && ValidRun(INIT, steps)
      && var t := After(INIT, steps);
         |t.requests| > 1 && !Gone(t.requests[1]) && t.requests[1].recorded && t.requests[1].future == Set(Reply(true, id)) && id !in t.deliveries
  {
    hide After, ValidRun, Apply, Enabled, LateAlone, Owns, ReplyStep, Inv;
    var steps := GrantedTwice(engineIds, id);
    var s1, s2, s3, s4 := LateBy(engineIds);
    var s6, s7 := ThenWaits(engineIds);
    NoRun(steps);
    Next(steps, 0, INIT);
    Next(steps, 1, s1);
    Next(steps, 2, s2);
    Next(steps, 3, s3);
    Next(steps, 4, s4);
    Next(steps, 5, LateAlone(engineIds));
    Next(steps, 6, s6);
    InitInv();
    InvAfter(INIT, steps[..7]);
    var s8 := ReplyStep(s7, 0, Reply(true, id));
    var s9 := ReplyStep(s8, 1, Reply(true, id));
    SecondIsEnded(s7, 0, 1, id);
    RepliesApply(s7, 0, Reply(true, id));
    RepliesApply(s8, 1, Reply(true, id));
    Next(steps, 7, s7);
    Next(steps, 8, s8);
    Next(steps, 9, s9);
    assert steps[..10] == steps;
  }

  lemma RepliesApply(s: Proxy, r: nat, reply: Reply)
    ensures Enabled(s, HandleReply(r, reply)) && Apply(s, HandleReply(r, reply)) == ReplyStep(s, r, reply)
  {
  }
}
