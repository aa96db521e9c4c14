/** The proxy of a child engine as the object whose fields the methods of `ChildEngine` update
    in place. Each method does what the step of `Child` it is proved against says. */
module ChildEngine {
  import opened Wrappers
  import opened Sequences
  import opened Commands
  import opened Child

  /** What a hook makes of a reply. */
  function AnswerOf(s: Proxy, q: Request, reply: Reply): Reply {
    if reply.ok && q.kind.Subscribe? && Judge(s, reply.id) != Ours then FAILED
    else if reply.ok && q.kind.SetParameter? && Refuses(s, reply.id) then FAILED
    else reply
  }

  /** What a hook records. */
  function Hooked(s: Proxy, r: nat, reply: Reply): (t: Proxy)
    requires r < |s.requests|
    ensures |t.requests| == |s.requests|
  {
    var q := s.requests[r];
    if reply.ok && q.kind.Subscribe? then
      var verdict := Judge(s, reply.id);
      Put(s, r, q.(granted := q.granted + {reply.id}, verdict := verdict, recorded := verdict == Ours)).(
        deliveries := if verdict == Ours then s.deliveries[reply.id := r] else s.deliveries)
    else if reply.ok && q.kind.SetParameter? && !Refuses(s, reply.id) then s.(parameters := s.parameters[reply.id := r])
    else s
  }

  /** A reply of a pending request is counted. */
  function CountedReply(s: Proxy, r: nat): (t: Proxy)
    requires r < |s.requests|
    ensures |t.requests| == |s.requests|
  {
    Put(s, r, s.requests[r].(consumed := s.requests[r].consumed + 1)).(pending := s.pending - {r})
  }

  lemma SubscribeAnswers(s: Proxy, r: nat, reply: Reply)
    requires r < |s.requests| && reply.ok && s.requests[r].kind.Subscribe?
    ensures var m := CountedReply(s, r);
      var t := Hooked(m, r, reply);
      PendingReply(s, r, reply) == Put(t, r, Resolved(t.requests[r], AnswerOf(m, m.requests[r], reply)))
  {
    hide Owns;
    var m := CountedReply(s, r);
    var verdict := Judge(s, reply.id);
    assert Judge(m, reply.id) == verdict;
    hide Judge;
    var t := Hooked(m, r, reply);
    assert m.requests[r] == s.requests[r].(consumed := s.requests[r].consumed + 1);
    assert t.requests[r] == m.requests[r].(granted := m.requests[r].granted + {reply.id}, verdict := verdict, recorded := verdict == Ours);
    assert Resolved(t.requests[r], AnswerOf(m, m.requests[r], reply)) == Answered(s, s.requests[r], reply);
  }

  lemma OtherAnswers(s: Proxy, r: nat, reply: Reply)
    requires r < |s.requests| && !(reply.ok && s.requests[r].kind.Subscribe?)
    ensures var m := CountedReply(s, r);
      var t := Hooked(m, r, reply);
      PendingReply(s, r, reply) == Put(t, r, Resolved(t.requests[r], AnswerOf(m, m.requests[r], reply)))
  {
    hide Owns, Judge;
    var m := CountedReply(s, r);
    assert Refuses(m, reply.id) == Refuses(s, reply.id);
    hide Refuses;
    assert m.requests[r] == s.requests[r].(consumed := s.requests[r].consumed + 1);
    assert Hooked(m, r, reply).requests == m.requests;
    assert Resolved(m.requests[r], AnswerOf(m, m.requests[r], reply)) == Answered(s, s.requests[r], reply);
  }

  /** Counting a reply, running the hook and waking the caller is what the step does. */
  lemma HookedAnswers(s: Proxy, r: nat, reply: Reply)
    requires r < |s.requests|
    ensures var m := CountedReply(s, r);
      var t := Hooked(m, r, reply);
      && |m.requests| == |t.requests| == |s.requests|
      && PendingReply(s, r, reply) == Put(t, r, Resolved(t.requests[r], AnswerOf(m, m.requests[r], reply)))
  {
    hide Hooked, AnswerOf, PendingReply, Resolved, CountedReply;
    if reply.ok && s.requests[r].kind.Subscribe? { SubscribeAnswers(s, r, reply); } else { OtherAnswers(s, r, reply); }
  }

  class Connection {
    var open: bool
    var engineIds: set<string>
    var requests: seq<Request>
    var pending: set<nat>
    var late: seq<nat>
    var running: map<string, nat>
    var parameters: map<string, nat>
    var deliveries: map<string, nat>
    var endings: seq<Ending>

    ghost function State(): Proxy
      reads this
    {
      Proxy(open, engineIds, requests, pending, late, running, parameters, deliveries, endings)
    }

    constructor ()
      ensures State() == INIT
    {
      open, engineIds, requests, pending, late := true, {}, [], {}, [];
      running, parameters, deliveries, endings := map[], map[], map[], [];
    }

    // -- Requests ------------------------------------------------------------------------

    /** `_request`, up to its first await. */
    method Request(kind: Kind) returns (r: nat)
      modifies this
      ensures State() == CallStep(old(State()), kind) && r == |old(requests)|
    {
      r := |requests|;
      if !open {
        requests := requests + [NewRequest(kind, Over(Replied(FAILED)))];
        if kind.Execute? { running := running - {kind.command}; }
        return;
      }
      requests := requests + [NewRequest(kind, Sending)];
      pending := pending + {r};
      if kind.Execute? { running := running[kind.command := r]; }
    }

    /** The `finally` of `_request`, and that of `_execute`. */
    method LeaveRequest(r: nat, end: End)
      requires r < |requests|
      modifies this
      ensures State() == Leave(old(State()), r, end)
    {
      var kind := requests[r].kind;
      requests := requests[r := requests[r].(phase := Over(end))];
      pending := pending - {r};
      if kind.Execute? { running := running - {kind.command}; }
    }

    /** `_remember_late`. */
    method RememberLate(r: nat)
      requires r < |requests| && |late| <= LATE_KEPT && forall i <- late :: i < |requests|
      modifies this
      ensures State() == Remember(old(State()), r)
    {
      if !requests[r].kind.Subscribe? { return; }
      requests := requests[r := requests[r].(vain := requests[r].consumed > 0)];
      late := late + [r];
      if |late| > LATE_KEPT {
        var first := late[0];
        assert first == old(late)[0] && first in old(late);
        requests := requests[first := requests[first].(forgotten := true)];
        late := late[1..];
      }
    }

    /** `end_late`. */
    method EndLateSubscription(r: nat, id: string)
      requires r < |requests|
      modifies this
      ensures State() == EndLate(old(State()), r, id)
    {
      var q := requests[r];
      if !Owns(engineIds, id) {
        requests := requests[r := q.(verdict := Foreign)];
        return;
      }
      if id in deliveries && !q.recorded {
        requests := requests[r := q.(verdict := Theirs)];
        return;
      }
      requests := requests[r := q.(verdict := Ours, ends := q.ends + 1)];
      endings := endings + [Ending(id, r, false)];
    }

    /** The except-branches of `_request`. */
    method UnwindCaller(r: nat)
      requires r < |requests| && requests[r].phase.Struck?
      requires |late| <= LATE_KEPT && forall i <- late :: i < |requests|
      modifies this
      ensures State() == UnwindStep(old(State()), r)
    {
      var q := requests[r];
      var end := if q.phase.timeout then TimedOut else GivenUp;
      if q.phase.timeout || !q.future.Set? {
        RememberLate(r);
      } else if q.kind.Subscribe? && q.future.reply.ok {
        EndLateSubscription(r, q.future.reply.id);
      }
      LeaveRequest(r, end);
    }

    /** A caller resumes with its reply: it follows what it started, or leaves. */
    method WakeCaller(r: nat)
      requires r < |requests| && requests[r].future.Set?
      modifies this
      ensures State() == WakeStep(old(State()), r)
    {
      var q := requests[r];
      if q.future.reply.ok && (q.kind.Execute? || q.kind.SetParameter?) {
        requests := requests[r := q.(phase := Following)];
        pending := pending - {r};
      } else {
        LeaveRequest(r, Replied(q.future.reply));
      }
    }

    /** The `finally` of `_execute` or `set_parameter` after the completion. */
    method CallerBack(r: nat, end: End)
      requires r < |requests|
      modifies this
      ensures State() == BackStep(old(State()), r, end)
    {
      var q := requests[r];
      requests := requests[r := q.(phase := Over(end))];
      if q.kind.Execute? { running := running - {q.kind.command}; }
      if q.kind.SetParameter? && q.future.Set? { parameters := parameters - {q.future.reply.id}; }
    }

    // -- Messages of the child -----------------------------------------------------------

    /** `record` of subscribe: false turns the reply into ERROR. */
    method RecordSubscription(r: nat, id: string) returns (ok: bool)
      requires r < |requests|
      modifies this
      ensures ok <==> Judge(old(State()), id) == Ours
      ensures var q := old(requests)[r];
        State() == old(State()).(
          requests := old(requests)[r := q.(granted := q.granted + {id}, verdict := Judge(old(State()), id), recorded := ok)],
          deliveries := if ok then old(deliveries)[id := r] else old(deliveries))
    {
      var q := requests[r];
      if !Owns(engineIds, id) {
        requests := requests[r := q.(granted := q.granted + {id}, verdict := Foreign, recorded := false)];
        return false;
      }
      if id in deliveries {
        requests := requests[r := q.(granted := q.granted + {id}, verdict := Theirs, recorded := false)];
        return false;
      }
      requests := requests[r := q.(granted := q.granted + {id}, verdict := Ours, recorded := true)];
      deliveries := deliveries[id := r];
      ok := true;
    }

    /** `record` of set_parameter. */
    method RecordParameter(r: nat, id: string) returns (ok: bool)
      modifies this
      ensures ok <==> !Refuses(old(State()), id)
      ensures State() == old(State()).(parameters := if ok then old(parameters)[id := r] else old(parameters))
    {
      if !Owns(engineIds, id) || id in parameters { return false; }
      parameters := parameters[id := r];
      ok := true;
    }

    /** The hook of a request runs on its OK reply, and may turn the reply into ERROR. */
    method RunHook(r: nat, reply: Reply) returns (answer: Reply)
      requires r < |requests|
      modifies this
      ensures answer == AnswerOf(old(State()), old(requests)[r], reply)
      ensures State() == Hooked(old(State()), r, reply)
    {
      answer := reply;
      if reply.ok && requests[r].kind.Subscribe? {
        var ok := RecordSubscription(r, reply.id);
        if !ok { answer := FAILED; }
      } else if reply.ok && requests[r].kind.SetParameter? {
        var ok := RecordParameter(r, reply.id);
        if !ok { answer := FAILED; }
      }
      hide Owns;
    }

    /** `_handle_reply` for a pending request. */
    method AnswerPending(r: nat, reply: Reply)
      requires r < |requests| && r in pending
      modifies this
      ensures State() == PendingReply(old(State()), r, reply)
    {
      hide Hooked, AnswerOf, PendingReply, Resolved;
      HookedAnswers(State(), r, reply);
      ghost var m := CountedReply(State(), r);
      pending := pending - {r};
      requests := requests[r := requests[r].(consumed := requests[r].consumed + 1)];
      assert State() == m;
      hide CountedReply;
      var answer := RunHook(r, reply);
      Resolve(r, answer);
    }

    /** Wake the caller of a request that still waits. */
    method Resolve(r: nat, answer: Reply)
      requires r < |requests|
      modifies this
      ensures State() == old(State()).(requests := old(requests)[r := Resolved(old(requests)[r], answer)])
    {
      if requests[r].future == Unset { requests := requests[r := requests[r].(future := Set(answer))]; }
    }

    /** `_handle_reply`. */
    method HandleReply(r: nat, reply: Reply)
      requires forall i <- pending :: i < |requests|
      modifies this
      ensures State() == ReplyStep(old(State()), r, reply)
    {
      if r in pending {
        AnswerPending(r, reply);
      } else if r in late && r < |requests| {
        var q := requests[r];
        late := Without(late, r);
        requests := requests[r := q.(consumed := q.consumed + 1, granted := if reply.ok then q.granted + {reply.id} else q.granted)];
        if reply.ok { EndLateSubscription(r, reply.id); }
      }
    }

    /** `_handle_notification` for a completed. */
    method HandleCompleted(id: string, status: Status)
      requires forall c <- running :: running[c] < |requests|
      requires forall p <- parameters :: parameters[p] < |requests|
      modifies this
      ensures State() == CompletedStep(old(State()), id, status)
    {
      var r: nat;
      if id in running { r := running[id]; }
      else if id in parameters { r := parameters[id]; }
      else { return; }
      if requests[r].done == None { requests := requests[r := requests[r].(done := Some(status))]; }
    }

    /** `unsubscribe`, up to its first await. */
    method Unsubscribe(id: string) returns (r: nat)
      modifies this
      ensures State() == UnsubscribeStep(old(State()), id)
    {
      deliveries := deliveries - {id};
      r := Request(Plain);
    }

    /** The tasks that end subscriptions are cancelled. */
    method CancelEndings()
      modifies this
      ensures State() == old(State()).(
        endings := seq(|old(endings)|, i requires 0 <= i < |old(endings)| => old(endings)[i].(begun := true)))
    {
      for i := 0 to |endings|
        invariant State() == old(State()).(endings := endings) && |endings| == |old(endings)|
        invariant forall k | 0 <= k < |endings| :: endings[k] == if k < i then old(endings)[k].(begun := true) else old(endings)[k]
      {
        endings := endings[i := endings[i].(begun := true)];
      }
    }

    /** Every future a caller can wait on is resolved. */
    method WakeAll()
      modifies this
      ensures State() == old(State()).(requests := DetachStep(old(State())).requests)
    {
      ghost var s := State();
      for i := 0 to |requests|
        invariant State() == s.(requests := requests) && |requests| == |s.requests|
        invariant forall k | 0 <= k < |requests| :: requests[k] == if k < i then Detached(s, k) else s.requests[k]
      {
        var q := requests[i];
        if i in pending && q.future == Unset { q := q.(future := Set(FAILED)); }
        if (i in running.Values || i in parameters.Values) && q.done == None { q := q.(done := Some(ERROR)); }
        requests := requests[i := q];
      }
      assert requests == DetachStep(s).requests;
    }

    /** `detach`. */
    method Detach()
      modifies this
      ensures State() == DetachStep(old(State()))
    {
      WakeAll();
      open := false;
      pending, late, running, parameters, deliveries := {}, [], map[], map[], map[];
      CancelEndings();
    }
  }
}
