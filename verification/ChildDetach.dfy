/** A child that is gone keeps nobody waiting. */
module ChildDetach {
  import opened Wrappers
  import opened Sequences
  import opened Commands
  import opened Child
  import opened ChildProofs
  import Endings = ChildEndings

  /** A caller that still waits on the child, or will as soon as it sees its reply. */
  predicate Stuck(q: Request) {
    || (Waits(q) && !q.future.Set?)
    || (Needs(q) && q.done == None)
  }

  /** A caller that was told its command or its parameter change started. */
  predicate Needs(q: Request) {
    && (q.kind.Execute? || q.kind.SetParameter?)
    && (q.phase == Following || (Waits(q) && q.future.Set? && q.future.reply.ok))
  }

  ghost predicate NobodyStuck(s: Proxy) {
    forall r | 0 <= r < |s.requests| :: !Stuck(s.requests[r])
  }

  /** An execute another one displaced: its completion no longer finds it. */
  predicate Displaced(s: Proxy, r: nat)
    requires r < |s.requests|
  {
    var q := s.requests[r];
    && q.kind.Execute? && Needs(q) && q.done == None
    && !(q.kind.command in s.running && s.running[q.kind.command] == r)
  }

  /** What the maps of an open proxy name, and what a closed one has forgotten. */
  ghost predicate Listed(s: Proxy) {
    && (forall c <- s.running :: s.running[c] < |s.requests| && s.requests[s.running[c]].kind == Execute(c))
    && (forall id <- s.parameters :: s.parameters[id] < |s.requests| && s.requests[s.parameters[id]].kind == SetParameter)
    && (s.open ==> forall r: nat | r < |s.requests| && s.requests[r].kind == SetParameter && Needs(s.requests[r]) && s.requests[r].future.Set? ::
          s.requests[r].future.reply.id in s.parameters && s.parameters[s.requests[r].future.reply.id] == r)
    && (!s.open ==> s.running == map[] && s.parameters == map[])
  }

  lemma DetachWakes(s: Proxy)
    requires Inv(s) && Listed(s) && s.open
    ensures NobodyStuck(DetachStep(s)) <==> forall r: nat | r < |s.requests| :: !Displaced(s, r)
  {
    var t := DetachStep(s);
    forall r: nat | r < |s.requests| ensures Stuck(t.requests[r]) <==> Displaced(s, r) {
      assert Fits(s, r);
      assert t.requests[r] == Detached(s, r);
      DetachedIff(s, r);
    }
  }

  lemma DetachedIff(s: Proxy, r: nat)
    requires Listed(s) && s.open && r < |s.requests| && Fits(s, r)
    ensures Stuck(Detached(s, r)) <==> Displaced(s, r)
  {
    var q := s.requests[r];
    if q.kind.Execute? {
      if q.kind.command in s.running && s.running[q.kind.command] == r { assert r in s.running.Values; }
      if r in s.running.Values {
        var c :| c in s.running && s.running[c] == r;
        assert q.kind == Execute(c);
      }
      assert forall id <- s.parameters :: s.parameters[id] != r;
    } else if q.kind.SetParameter? && Needs(q) {
      assert s.parameters[q.future.reply.id] == r;
      assert r in s.parameters.Values;
    }
  }

  // -- What keeps a caller findable ------------------------------------------------------

  /** Every execute that has not ended is found under its command. */
  ghost predicate Found(s: Proxy) {
    s.open ==> forall r: nat | r < |s.requests| && s.requests[r].kind.Execute? && !s.requests[r].phase.Over? ::
      s.requests[r].kind.command in s.running && s.running[s.requests[r].kind.command] == r
  }

  /** A request moves on without starting to need anything. */
  predicate Onward(q: Request, p: Request) {
    && p.kind == q.kind && (p.phase.Over? <== q.phase.Over?)
    && (Needs(p) ==> Needs(q) && p.future == q.future)
    && (q.done.Some? ==> p.done.Some?)
    && (Waits(p) ==> Waits(q) && (q.future.Set? ==> p.future.Set?))
  }

  /** A step that moves requests on, and drops at most the command of one that ended. */
  ghost predicate Steady(s: Proxy, t: Proxy) {
    && t.open == s.open && |t.requests| == |s.requests| && t.parameters == s.parameters
    && (forall i | 0 <= i < |s.requests| :: Onward(s.requests[i], t.requests[i]))
    && (forall c <- t.running :: c in s.running && t.running[c] == s.running[c])
    && (forall c <- s.running :: c in t.running || exists i :: 0 <= i < |t.requests| && Ended(s, t, i, c))
  }

  predicate Ended(s: Proxy, t: Proxy, i: nat, c: string) {
    i < |s.requests| && i < |t.requests| && s.requests[i].kind == Execute(c) && !s.requests[i].phase.Over? && t.requests[i].phase.Over?
  }

  lemma SteadyListed(s: Proxy, t: Proxy)
    requires Listed(s) && Steady(s, t)
    ensures Listed(t)
  {
    forall c <- t.running ensures t.running[c] < |t.requests| && t.requests[t.running[c]].kind == Execute(c) {
      assert Onward(s.requests[s.running[c]], t.requests[t.running[c]]);
    }
    forall id <- t.parameters ensures t.parameters[id] < |t.requests| && t.requests[t.parameters[id]].kind == SetParameter {
      assert Onward(s.requests[s.parameters[id]], t.requests[t.parameters[id]]);
    }
    forall r: nat | t.open && r < |t.requests| && t.requests[r].kind == SetParameter && Needs(t.requests[r]) && t.requests[r].future.Set?
      ensures t.requests[r].future.reply.id in t.parameters && t.parameters[t.requests[r].future.reply.id] == r
    {
      assert Onward(s.requests[r], t.requests[r]);
    }
  }

  lemma SteadyFound(s: Proxy, t: Proxy)
    requires Found(s) && Steady(s, t)
    ensures Found(t)
  {
    forall r: nat | t.open && r < |t.requests| && t.requests[r].kind.Execute? && !t.requests[r].phase.Over?
      ensures t.requests[r].kind.command in t.running && t.running[t.requests[r].kind.command] == r
    {
      assert Onward(s.requests[r], t.requests[r]);
      var c := s.requests[r].kind.command;
      forall i | 0 <= i < |t.requests| ensures !Ended(s, t, i, c) {
        assert i != r && s.requests[i].kind == Execute(c) ==> s.requests[i].phase.Over?;
      }
    }
  }

  lemma SteadyWakes(s: Proxy, t: Proxy)
    requires NobodyStuck(s) && Steady(s, t)
    ensures NobodyStuck(t)
  {
    forall r | 0 <= r < |t.requests| ensures !Stuck(t.requests[r]) {
      assert !Stuck(s.requests[r]);
      assert Onward(s.requests[r], t.requests[r]);
    }
  }

  /** One request moves on. When it is an execute that ends, its command may go. */
  lemma OneSteady(s: Proxy, t: Proxy, r: nat)
    requires r < |s.requests| == |t.requests| && t.requests == s.requests[r := t.requests[r]]
    requires Onward(s.requests[r], t.requests[r]) && t.open == s.open && t.parameters == s.parameters
    requires t.running == s.running
             || (s.requests[r].kind.Execute? && t.running == s.running - {s.requests[r].kind.command}
                 && !s.requests[r].phase.Over? && t.requests[r].phase.Over?)
    ensures Steady(s, t)
  {
    forall c <- s.running ensures c in t.running || exists i :: 0 <= i < |t.requests| && Ended(s, t, i, c) {
      if c !in t.running { assert Ended(s, t, r, c); }
    }
    hide Needs, Waits;
  }

  lemma LeaveSteady(s: Proxy, r: nat, end: End)
    requires r < |s.requests| && !s.requests[r].phase.Over?
    ensures Steady(s, Leave(s, r, end))
  {
    hide Steady;
    OneSteady(s, Leave(s, r, end), r);
  }

  lemma WakeSteady(s: Proxy, r: nat)
    requires Enabled(s, Wake(r))
    ensures Steady(s, WakeStep(s, r))
  {
    var q := s.requests[r];
    LeaveSteady(s, r, Replied(q.future.reply));
    hide Leave, Steady;
    if q.future.reply.ok && (q.kind.Execute? || q.kind.SetParameter?) { OneSteady(s, WakeStep(s, r), r); }
  }

  lemma StrikeSteady(s: Proxy, r: nat, timeout: bool)
    requires Enabled(s, Strike(r, timeout))
    ensures Steady(s, StrikeStep(s, r, timeout))
  {
    hide Steady;
    OneSteady(s, StrikeStep(s, r, timeout), r);
  }

  lemma SentSteady(s: Proxy, r: nat)
    requires Enabled(s, Sent(r))
    ensures Steady(s, Apply(s, Sent(r)))
  {
    hide Steady;
    OneSteady(s, Apply(s, Sent(r)), r);
  }

  lemma CompleteSteady(s: Proxy, r: nat, status: Status)
    ensures Steady(s, Complete(s, r, status))
  {
    if r < |s.requests| && s.requests[r].done == None { OneSteady(s, Complete(s, r, status), r); }
  }

  lemma CompletedSteady(s: Proxy, id: string, status: Status)
    ensures Steady(s, CompletedStep(s, id, status))
  {
    if id in s.running { CompleteSteady(s, s.running[id], status); }
    else if id in s.parameters { CompleteSteady(s, s.parameters[id], status); }
    hide Complete, Onward;
  }

  lemma SteadyOnward(s: Proxy, m: Proxy, t: Proxy)
    requires Steady(s, m) && Steady(m, t)
    ensures Steady(s, t)
  {
    forall i | 0 <= i < |s.requests| ensures Onward(s.requests[i], t.requests[i]) {
      assert Onward(s.requests[i], m.requests[i]) && Onward(m.requests[i], t.requests[i]);
    }
    forall c <- s.running ensures c in t.running || exists i :: 0 <= i < |t.requests| && Ended(s, t, i, c) {
      if c !in m.running {
        var i :| 0 <= i < |m.requests| && Ended(s, m, i, c);
        assert Onward(m.requests[i], t.requests[i]) && Ended(s, t, i, c);
      } else if c !in t.running {
        var i :| 0 <= i < |t.requests| && Ended(m, t, i, c);
        assert Onward(s.requests[i], m.requests[i]) && Ended(s, t, i, c);
      }
    }
    hide Onward;
  }

  lemma RememberSteady(s: Proxy, r: nat)
    requires Inv(s) && r < |s.requests| && s.requests[r].phase.Struck?
    ensures Steady(s, Remember(s, r))
  {
    assert Fits(s, r);
    assert Ranges(s) && r !in s.late;
    hide *;
    RememberMarks(s, r);
    MarkedSteady(s, Remember(s, r));
  }

  lemma RememberMarks(s: Proxy, r: nat)
    requires Ranges(s) && r < |s.requests| && r !in s.late
    ensures var t := Remember(s, r);
      && t == s.(requests := t.requests, late := t.late) && |t.requests| == |s.requests|
      && forall i | 0 <= i < |s.requests| ::
           t.requests[i] == s.requests[i].(vain := t.requests[i].vain, forgotten := t.requests[i].forgotten)
  {
    if s.requests[r].kind.Subscribe? { RememberedRequests(s, r); }
    hide Ranges, Kept;
    if s.requests[r].kind.Subscribe? { hide Remember; }
  }

  /** Marks of a request are nothing that anybody waits for. */
  lemma MarkedSteady(s: Proxy, t: Proxy)
    requires t == s.(requests := t.requests, late := t.late) && |t.requests| == |s.requests|
    requires forall i | 0 <= i < |s.requests| ::
               t.requests[i] == s.requests[i].(vain := t.requests[i].vain, forgotten := t.requests[i].forgotten)
    ensures Steady(s, t)
  {
  }

  lemma EndLateSteady(s: Proxy, r: nat, id: string)
    requires r < |s.requests|
    ensures Steady(s, EndLate(s, r, id))
  {
    EndLateCounts(s, r, id);
    hide EndLate, Steady;
    OneSteady(s, EndLate(s, r, id), r);
  }

  lemma UnwindSteady(s: Proxy, r: nat)
    requires Inv(s) && Enabled(s, Unwind(r))
    ensures Steady(s, UnwindStep(s, r))
  {
    hide Inv, Remember, Leave, EndLate, Steady;
    var q := s.requests[r];
    var t := UnwindStep(s, r);
    if q.phase.timeout || !q.future.Set? {
      RememberSteady(s, r);
      var m := Remember(s, r);
      var end := if q.phase.timeout then TimedOut else GivenUp;
      assert |m.requests| == |s.requests| && m.requests[r].phase == q.phase by { RememberMoves(s, r); }
      LeaveSteady(m, r, end);
      SteadyOnward(s, m, t);
    } else if q.kind.Subscribe? && q.future.reply.ok {
      EndLateSteady(s, r, q.future.reply.id);
      EndLateCounts(s, r, q.future.reply.id);
      var m := EndLate(s, r, q.future.reply.id);
      LeaveSteady(m, r, GivenUp);
      SteadyOnward(s, m, t);
    } else {
      LeaveSteady(s, r, GivenUp);
    }
  }

  lemma RememberMoves(s: Proxy, r: nat)
    requires Inv(s) && r < |s.requests| && s.requests[r].phase.Struck?
    ensures |Remember(s, r).requests| == |s.requests| && Remember(s, r).requests[r].phase == s.requests[r].phase
  {
    assert Fits(s, r);
    assert Ranges(s);
    hide Remember;
    RememberRanges(s, r);
  }

  // -- Every step ------------------------------------------------------------------------

  /** No execute names a command that is still running. */
  predicate FreshCommand(s: Proxy, step: Step) {
    step.Call? && step.kind.Execute? ==> step.kind.command !in s.running
  }

  predicate FreshCommands(s: Proxy, steps: seq<Step>)
    requires ValidRun(s, steps)
    decreases |steps|
  {
    steps == [] || (FreshCommand(s, steps[0]) && FreshCommands(Apply(s, steps[0]), steps[1..]))
  }

  /** What each step keeps of the maps, and, when no execute names a command still running,
      that they find every execute and that nobody waits on a closed proxy. */
  ghost predicate Calm(s: Proxy, unshared: bool) {
    Listed(s) && (unshared ==> Found(s) && (!s.open ==> NobodyStuck(s)))
  }

  lemma SteadyCalm(s: Proxy, t: Proxy, unshared: bool)
    requires Calm(s, unshared) && Steady(s, t)
    ensures Calm(t, unshared)
  {
    SteadyListed(s, t);
    if unshared {
      SteadyFound(s, t);
      if !s.open { SteadyWakes(s, t); }
    }
    hide Listed, Found, NobodyStuck, Onward;
  }

  lemma CallCalm(s: Proxy, kind: Kind, unshared: bool)
    requires Inv(s) && Calm(s, unshared) && (unshared ==> FreshCommand(s, Call(kind)))
    ensures Calm(CallStep(s, kind), unshared)
  {
    hide Inv;
    var t := CallStep(s, kind);
    forall r: nat | r < |s.requests| ensures t.requests[r] == s.requests[r] { }
  }

  lemma AnsweredOnly(s: Proxy, r: nat, reply: Reply)
    requires Inv(s) && r in s.pending
    ensures r < |s.requests| && s.open
    ensures var t := PendingReply(s, r, reply);
      var p := t.requests[r];
      && t.open && t.running == s.running && |t.requests| == |s.requests| && t.requests == s.requests[r := p]
      && p.kind == s.requests[r].kind && p.phase == s.requests[r].phase && p.phase != Following
      && (t.parameters == s.parameters || (p.kind.SetParameter? && reply.id !in s.parameters && t.parameters == s.parameters[reply.id := r]))
      && (p.kind.SetParameter? && p.future.Set? && p.future.reply.ok ==> p.future.reply == reply && t.parameters == s.parameters[reply.id := r])
  {
    assert Fits(s, r);
    hide Owns, Judge, Accounted, Ranges;
  }

  lemma PendingCalm(s: Proxy, r: nat, reply: Reply, unshared: bool)
    requires Inv(s) && Calm(s, unshared) && r in s.pending
    ensures r < |s.requests| && Calm(PendingReply(s, r, reply), unshared)
  {
    hide Inv, PendingReply;
    AnsweredOnly(s, r, reply);
    var t := PendingReply(s, r, reply);
    assert Found(s) ==> Found(t) by {
      forall i: nat | Found(s) && i < |t.requests| && t.requests[i].kind.Execute? && !t.requests[i].phase.Over?
        ensures t.requests[i].kind.command in t.running && t.running[t.requests[i].kind.command] == i
      {
        assert t.requests[i].kind == s.requests[i].kind && t.requests[i].phase == s.requests[i].phase;
      }
    }
    hide Found;
    forall c <- t.running ensures t.running[c] < |t.requests| && t.requests[t.running[c]].kind == Execute(c) {
      assert t.requests[s.running[c]].kind == s.requests[s.running[c]].kind;
    }
    forall id <- t.parameters ensures t.parameters[id] < |t.requests| && t.requests[t.parameters[id]].kind == SetParameter {
      if id in s.parameters { assert t.requests[s.parameters[id]].kind == s.requests[s.parameters[id]].kind; }
    }
  }

  /** A late reply is counted, before what it grants is ended. */
  function Counted(s: Proxy, r: nat, reply: Reply): Proxy
    requires r < |s.requests|
  {
    var q := s.requests[r];
    Put(s, r, q.(consumed := q.consumed + 1, granted := if reply.ok then q.granted + {reply.id} else q.granted)).(
      late := Without(s.late, r))
  }

  lemma CountedSteady(s: Proxy, r: nat, reply: Reply)
    requires r < |s.requests|
    ensures Steady(s, Counted(s, r, reply))
  {
    hide Without, Steady;
    OneSteady(s, Counted(s, r, reply), r);
  }

  lemma LateCalm(s: Proxy, r: nat, reply: Reply, unshared: bool)
    requires Calm(s, unshared) && r < |s.requests|
    ensures Calm(LateReply(s, r, reply), unshared)
  {
    var m := Counted(s, r, reply);
    assert LateReply(s, r, reply) == if reply.ok then EndLate(m, r, reply.id) else m;
    hide Calm, EndLate, Without, Steady, Counted, LateReply;
    CountedSteady(s, r, reply);
    SteadyCalm(s, m, unshared);
    if reply.ok {
      EndLateSteady(m, r, reply.id);
      SteadyCalm(m, EndLate(m, r, reply.id), unshared);
    }
  }

  /** The entry of a parameter change goes once its caller is back. */
  lemma ParameterGone(s: Proxy, r: nat, id: string, unshared: bool)
    requires Calm(s, unshared) && r < |s.requests| && s.requests[r].phase.Over?
    requires id in s.parameters ==> s.parameters[id] == r
    ensures Calm(s.(parameters := s.parameters - {id}), unshared)
  {
  }

  lemma BackCalm(s: Proxy, r: nat, end: End, unshared: bool)
    requires Inv(s) && Calm(s, unshared) && r < |s.requests| && s.requests[r].phase == Following
    ensures Calm(BackStep(s, r, end), unshared)
  {
    assert Fits(s, r);
    var q := s.requests[r];
    var m := Unlist(Put(s, r, q.(phase := Over(end))), q.kind);
    assert q.kind.SetParameter? && q.future.reply.id in s.parameters ==> s.parameters[q.future.reply.id] == r;
    hide Inv, Calm, Reachable, Accounted, Steady;
    OneSteady(s, m, r);
    SteadyCalm(s, m, unshared);
    if q.kind.SetParameter? { ParameterGone(m, r, q.future.reply.id, unshared); }
  }

  lemma DetachCalm(s: Proxy, unshared: bool)
    requires Inv(s) && Calm(s, unshared)
    ensures Calm(DetachStep(s), unshared)
  {
    var t := DetachStep(s);
    if unshared && s.open {
      DetachWakes(s);
      assert forall r: nat | r < |s.requests| :: !Displaced(s, r);
    } else if unshared {
      forall r | 0 <= r < |t.requests| ensures !Stuck(t.requests[r]) {
        assert !Stuck(s.requests[r]);
        assert t.requests[r] == Detached(s, r);
      }
    }
    hide Inv;
  }

  lemma SameCalm(s: Proxy, t: Proxy, unshared: bool)
    requires Calm(s, unshared) && t == s.(deliveries := t.deliveries, endings := t.endings, engineIds := t.engineIds)
    ensures Calm(t, unshared)
  {
    assert Steady(s, t);
    SteadyCalm(s, t, unshared);
    hide Calm;
  }

  lemma UnsubscribeCalm(s: Proxy, id: string, unshared: bool)
    requires Inv(s) && Calm(s, unshared)
    ensures Calm(UnsubscribeStep(s, id), unshared)
  {
    var m := s.(deliveries := s.deliveries - {id});
    MapsKeep(s, m);
    SameCalm(s, m, unshared);
    CallCalm(m, Plain, unshared);
    hide Calm, CallStep;
  }

  lemma EndingCalm(s: Proxy, k: nat, unshared: bool)
    requires Inv(s) && Calm(s, unshared) && Enabled(s, BeginEnding(k))
    ensures Calm(Apply(s, BeginEnding(k)), unshared)
  {
    UnsubscribeCalm(s, s.endings[k].id, unshared);
    hide UnsubscribeStep, Calm;
    SameCalm(UnsubscribeStep(s, s.endings[k].id), Apply(s, BeginEnding(k)), unshared);
  }

  lemma CalmKeeps(s: Proxy, step: Step, unshared: bool)
    requires Inv(s) && Calm(s, unshared) && Enabled(s, step) && (unshared ==> FreshCommand(s, step))
    ensures Calm(Apply(s, step), unshared)
  {
    hide Inv, Calm, Steady, CallStep, StrikeStep, WakeStep, UnwindStep, BackStep, CompletedStep, DetachStep,
      UnsubscribeStep, PendingReply, LateReply, Leave;
    match step
    case Call(kind) => CallCalm(s, kind, unshared);
    case Sent(r) => SentSteady(s, r); SteadyCalm(s, Apply(s, step), unshared);
    case SendFails(r) => LeaveSteady(s, r, Replied(FAILED)); SteadyCalm(s, Apply(s, step), unshared);
    case Strike(r, timeout) => StrikeSteady(s, r, timeout); SteadyCalm(s, Apply(s, step), unshared);
    case Unwind(r) => UnwindSteady(s, r); SteadyCalm(s, Apply(s, step), unshared);
    case Wake(r) => WakeSteady(s, r); SteadyCalm(s, Apply(s, step), unshared);
    case HandleReply(r, reply) =>
      if r < |s.requests| {
        if r in s.pending { PendingCalm(s, r, reply, unshared); } else if r in s.late { LateCalm(s, r, reply, unshared); }
      }
    case Completed(id, status) => CompletedSteady(s, id, status); SteadyCalm(s, Apply(s, step), unshared);
    case Follow(r) => BackCalm(s, r, Followed(s.requests[r].done.value), unshared);
    case StopFollowing(r, timeout) => BackCalm(s, r, if timeout then Followed(ERROR) else GivenUp, unshared);
    case Unsubscribe(id) => UnsubscribeCalm(s, id, unshared);
    case BeginEnding(k) => EndingCalm(s, k, unshared);
    case SetEngineIds(ids) => SameCalm(s, Apply(s, step), unshared);
    case Detach => DetachCalm(s, unshared);
  }

  lemma {:induction false} CalmAfter(s: Proxy, steps: seq<Step>, unshared: bool)
    requires Inv(s) && Calm(s, unshared) && ValidRun(s, steps) && (unshared ==> FreshCommands(s, steps))
    ensures Calm(After(s, steps), unshared)
    decreases |steps|
  {
    hide Inv, Calm, Apply;
    if steps != [] {
      StepKeeps(s, steps[0]);
      CalmKeeps(s, steps[0], unshared);
      CalmAfter(Apply(s, steps[0]), steps[1..], unshared);
    }
  }

  /** In every run, the end of an open connection wakes every caller, of replies, commands and
      parameter changes, exactly when no execute was displaced by another of its command. */
  lemma DetachWakesIff(steps: seq<Step>)
    requires ValidRun(INIT, steps) && After(INIT, steps).open
    ensures var s := After(INIT, steps);
      NobodyStuck(DetachStep(s)) <==> forall r: nat | r < |s.requests| :: !Displaced(s, r)
  {
    InvAfter(INIT, steps);
    CalmAfter(INIT, steps, false);
    DetachWakes(After(INIT, steps));
  }

  /** In a run where no execute names a command still running, nobody waits on a child that is
      gone: every reply, completion and parameter change a caller can wait for is there. */
  lemma NobodyWaitsOnGone(steps: seq<Step>)
    requires ValidRun(INIT, steps) && FreshCommands(INIT, steps) && !After(INIT, steps).open
    ensures NobodyStuck(After(INIT, steps))
  {
    CalmAfter(INIT, steps, true);
  }

  /** On a closed connection a call is answered with ERROR at once, and no step opens it. */
  lemma StaysClosed(s: Proxy, step: Step)
    requires Enabled(s, step) && !s.open
    ensures var t := Apply(s, step);
      && !t.open && |s.requests| <= |t.requests|
      && forall r | |s.requests| <= r < |t.requests| :: t.requests[r].phase == Over(Replied(FAILED))
  {
    hide Owns, Remember, EndLate, UnwindStep, ReplyStep;
    match step
    case HandleReply(q, reply) => ReplyStarts(s, q, reply);
    case Unwind(q) => UnwindStarts(s, q);
    case _ =>
  }

  /** A step leaves the connection open or closed, and starts no request. */
  predicate StartsNone(s: Proxy, t: Proxy) {
    t.open == s.open && |t.requests| == |s.requests|
  }

  lemma EndLateStarts(s: Proxy, r: nat, id: string)
    requires r < |s.requests|
    ensures StartsNone(s, EndLate(s, r, id))
  {
    hide Owns;
  }

  lemma RememberStarts(s: Proxy, r: nat)
    requires r < |s.requests|
    ensures StartsNone(s, Remember(s, r))
  {
  }

  lemma LeaveStarts(s: Proxy, r: nat, end: End)
    requires r < |s.requests|
    ensures StartsNone(s, Leave(s, r, end))
  {
  }

  lemma ReplyStarts(s: Proxy, q: nat, reply: Reply)
    ensures StartsNone(s, ReplyStep(s, q, reply))
  {
    hide EndLate, Without, Answered, Judge, Refuses;
    if q < |s.requests| && q !in s.pending && q in s.late && reply.ok {
      var request := s.requests[q].(consumed := s.requests[q].consumed + 1, granted := s.requests[q].granted + {reply.id});
      EndLateStarts(Put(s, q, request).(late := Without(s.late, q)), q, reply.id);
    }
  }

  lemma UnwindStarts(s: Proxy, q: nat)
    requires Enabled(s, Unwind(q))
    ensures StartsNone(s, UnwindStep(s, q))
  {
    hide Remember, EndLate, Leave;
    RememberStarts(s, q);
    LeaveStarts(Remember(s, q), q, TimedOut);
    LeaveStarts(Remember(s, q), q, GivenUp);
    LeaveStarts(s, q, GivenUp);
    if s.requests[q].future.Set? {
      EndLateStarts(s, q, s.requests[q].future.reply.id);
      LeaveStarts(EndLate(s, q, s.requests[q].future.reply.id), q, GivenUp);
    }
  }

  lemma {:induction false} ClosedSince(steps: seq<Step>, k: nat, j: nat, r: nat)
    requires ValidRun(INIT, steps) && k <= j <= |steps| && !Endings.At(steps, k).open
    ensures !Endings.At(steps, j).open
    ensures |Endings.At(steps, k).requests| <= r < |Endings.At(steps, j).requests| ==>
              Endings.At(steps, j).requests[r].phase == Over(Replied(FAILED))
    decreases j
  {
    hide Endings.At, Apply, Enabled, Inv, Endings.TakesReply, Endings.EndsNow;
    if k < j {
      ClosedSince(steps, k, j - 1, r);
      Endings.AtNext(steps, j - 1);
      var s := Endings.At(steps, j - 1);
      StaysClosed(s, steps[j - 1]);
      if r < |s.requests| { Endings.StepGoes(s, steps[j - 1], r); }
    }
  }

  /** In every run, once a connection is closed it stays closed, and whoever calls then is
      answered with ERROR and never waits. */
  lemma ClosedAnswersError(steps: seq<Step>, k: nat, r: nat)
    requires ValidRun(INIT, steps) && k <= |steps| && !Endings.At(steps, k).open
    requires |Endings.At(steps, k).requests| <= r < |After(INIT, steps).requests|
    ensures !After(INIT, steps).open && After(INIT, steps).requests[r].phase == Over(Replied(FAILED))
  {
    hide Endings.At;
    ClosedSince(steps, k, |steps|, r);
    Endings.AtEnd(steps);
  }

  /** Two executes of one command, the second while the first is followed, and the end of the
      connection. */
  function SharedCommand(command: string): seq<Step> {
    [Call(Execute(command)), Sent(0), HandleReply(0, Reply(true, "")), Wake(0), Call(Execute(command)), Detach]
  }

  /** A proxy whose one caller follows a command. */
  function FollowedAlone(command: string): Proxy {
    var q := NewRequest(Execute(command), Following).(future := Set(Reply(true, "")), consumed := 1);
    INIT.(requests := [q], running := map[command := 0])
  }

  lemma FollowedBy(command: string) returns (s1: Proxy, s2: Proxy, s3: Proxy)
    ensures Enabled(INIT, Call(Execute(command))) && Apply(INIT, Call(Execute(command))) == s1
    ensures Enabled(s1, Sent(0)) && Apply(s1, Sent(0)) == s2
    ensures Enabled(s2, HandleReply(0, Reply(true, ""))) && Apply(s2, HandleReply(0, Reply(true, ""))) == s3
    ensures Enabled(s3, Wake(0)) && Apply(s3, Wake(0)) == FollowedAlone(command)
  {
    hide ReplyStep, WakeStep;
    var q := NewRequest(Execute(command), Sending);
    var answered := q.(phase := Awaiting, future := Set(Reply(true, "")), consumed := 1);
    s1 := INIT.(requests := [q], pending := {0}, running := map[command := 0]);
    s2 := s1.(requests := [q.(phase := Awaiting)]);
    s3 := s2.(requests := [answered], pending := {});
    ExecuteAnswered(s2);
    ExecuteFollows(s3);
  }

  lemma SharedAfter(command: string) returns (s5: Proxy)
    ensures Enabled(FollowedAlone(command), Call(Execute(command))) && Apply(FollowedAlone(command), Call(Execute(command))) == s5
    ensures Enabled(s5, Detach) && var t := Apply(s5, Detach); !t.open && |t.requests| == 2 && Stuck(t.requests[0])
  {
    hide DetachStep;
    s5 := CallStep(FollowedAlone(command), Execute(command));
    DisplacedStays(s5);
  }

  lemma ExecuteAnswered(s: Proxy)
    requires |s.requests| == 1 && s.pending == {0} && s.requests[0].kind.Execute? && s.requests[0].future == Unset
    ensures ReplyStep(s, 0, Reply(true, "")) == s.(
      requests := [s.requests[0].(future := Set(Reply(true, "")), consumed := s.requests[0].consumed + 1)], pending := {})
  {
    assert {0} - {0} == {};
  }

  lemma ExecuteFollows(s: Proxy)
    requires |s.requests| == 1 && s.pending == {} && s.requests[0].kind.Execute? && s.requests[0].future == Set(Reply(true, ""))
    ensures WakeStep(s, 0) == s.(requests := [s.requests[0].(phase := Following)])
  {
    assert {} - {0} == s.pending;
  }

  lemma DisplacedStays(s: Proxy)
    requires |s.requests| == 2 && s.parameters == map[] && forall c <- s.running :: s.running[c] == 1
    ensures var t := DetachStep(s);
      && !t.open && |t.requests| == 2 && t.requests[0].done == s.requests[0].done
      && t.requests[0].phase == s.requests[0].phase && t.requests[0].kind == s.requests[0].kind
  {
    assert DetachStep(s).requests[0] == Detached(s, 0);
  }

  /** An execute that names a command still running leaves the first caller waiting for ever. */
  lemma SharedCommandWaits(command: string)
    ensures var steps := SharedCommand(command);
      && ValidRun(INIT, steps)
      && var t := After(INIT, steps);
         !t.open && |t.requests| == 2 && Stuck(t.requests[0])
  {
    hide After, ValidRun, Apply, Enabled, FollowedAlone, Stuck;
    var steps := SharedCommand(command);
    var s1, s2, s3 := FollowedBy(command);
    var s5 := SharedAfter(command);
    NoRun(steps);
    Next(steps, 0, INIT);
    Next(steps, 1, s1);
    Next(steps, 2, s2);
    Next(steps, 3, s3);
    Next(steps, 4, FollowedAlone(command));
    Next(steps, 5, s5);
    assert steps[..6] == steps;
  }
}
