/** Nothing is lost on the way through a tier: every reply and every notification of the child
    goes on to the session it is for, when its turn comes. */
module OrderingDelivery {
  import opened Wrappers
  import opened Ordering

  // -- The states of a run ---------------------------------------------------------------

  /** The state of a run before its i-th step. */
  function At(steps: seq<Step>, i: nat): Tier
    requires ValidRun(INIT, steps) && i <= |steps|
  {
    Prefix(INIT, steps, i);
    After(INIT, steps[..i])
  }

  lemma {:induction false} Prefix(s: Tier, steps: seq<Step>, i: nat)
    requires ValidRun(s, steps) && i <= |steps|
    ensures ValidRun(s, steps[..i])
    ensures i < |steps| ==>
              && Enabled(After(s, steps[..i]), steps[i]) && ValidRun(s, steps[..i + 1])
              && After(s, steps[..i + 1]) == Apply(After(s, steps[..i]), steps[i])
    decreases i
  {
    hide Enabled, Apply;
    if i < |steps| { assert steps[..i + 1][1..] == steps[1..][..i]; }
    if i > 0 {
      Prefix(Apply(s, steps[0]), steps[1..], i - 1);
      assert steps[..i][1..] == steps[1..][..i - 1];
    }
  }

  lemma AtNext(steps: seq<Step>, i: nat)
    requires ValidRun(INIT, steps) && i < |steps|
    ensures Enabled(At(steps, i), steps[i]) && At(steps, i + 1) == Apply(At(steps, i), steps[i])
  {
    hide Enabled, Apply, ValidRun, After;
    Prefix(INIT, steps, i);
  }

  // -- The queue -------------------------------------------------------------------------

  /** How many jobs the event loop ran. */
  function Turns(steps: seq<Step>): nat {
    if steps == [] then 0 else Turns(steps[..|steps| - 1]) + (if steps[|steps| - 1] == RunNext then 1 else 0)
  }

  lemma PassOnIsQuiet(s: Tier, r: nat, reply: Arrived)
    requires r < |s.requests|
    ensures PassOn(s, r, reply).ready == s.ready
  {
  }

  lemma RecordIsQuiet(s: Tier, r: nat, kind: Kind, id: Id)
    ensures Record(s, r, kind, id).ready == s.ready
  {
  }

  lemma ReplyQueues(s: Tier, r: nat, id: Option<Id>)
    ensures s.ready <= ReplyStep(s, r, id).ready
  {
    hide Record;
    if r < |s.requests| && id.Some? {
      var q := s.requests[r];
      RecordIsQuiet(SetPhase(s.(ready := s.ready + [Wake(r)]), r, Granted(id.value)), r, q.kind, id.value);
      RecordIsQuiet(s.(requests := s.requests[r := q.(phase := Sending(Granting(id.value)), early := id)]), r, q.kind, id.value);
    }
  }

  lemma RunQueues(s: Tier)
    requires s.ready != []
    ensures s.ready[1..] <= RunStep(s).ready
  {
    hide PassOn;
    var m := s.(ready := s.ready[1..]);
    if s.ready[0].Wake? && s.ready[0].request < |s.requests| {
      var phase := s.requests[s.ready[0].request].phase;
      PassOnIsQuiet(m, s.ready[0].request, Refusing);
      if phase.Granted? { PassOnIsQuiet(m, s.ready[0].request, Granting(phase.id)); }
    }
  }

  /** A step puts jobs behind those that are ready, and runs at most the first one. */
  lemma StepQueues(s: Tier, step: Step)
    requires Enabled(s, step)
    ensures (if step == RunNext then s.ready[1..] else s.ready) <= Apply(s, step).ready
  {
    hide PassOn, ReplyStep, RunStep;
    match step
    case RunNext => RunQueues(s);
    case Sent(r) => if r < |s.requests| && s.requests[r].phase.Sending? { PassOnIsQuiet(s, r, s.requests[r].phase.reply); }
    case Receive(Reply(tag, id)) => ReplyQueues(s.(input := s.input + [step.message]), tag, Some(id));
    case Receive(Refusal(tag)) => ReplyQueues(s.(input := s.input + [step.message]), tag, None);
    case _ =>
  }

  /** In every run, a job that is ready runs once those before it ran: the one behind n others
      is first after n turns of the event loop. */
  lemma {:induction false} QueueIsServed(steps: seq<Step>, i: nat, j: nat, n: nat)
    requires ValidRun(INIT, steps) && i <= j <= |steps|
    requires n < |At(steps, i).ready| && Turns(steps[i..j]) <= n
    ensures var turns := Turns(steps[i..j]);
      n - turns < |At(steps, j).ready| && At(steps, j).ready[n - turns] == At(steps, i).ready[n]
    decreases j
  {
    hide At, Apply, Enabled;
    if i < j {
      assert steps[i..j][..j - i - 1] == steps[i..j - 1];
      assert steps[i..j][j - i - 1] == steps[j - 1];
      QueueIsServed(steps, i, j - 1, n);
      AtNext(steps, j - 1);
      StepQueues(At(steps, j - 1), steps[j - 1]);
    }
  }

  // -- Notifications ---------------------------------------------------------------------

  /** In every run, a notification of the child goes to the session of the request its id is
      delivered to, once, when the jobs that were ready before it have run. A notification that
      completes a parameter change wakes its caller then. One that nobody waits for is dropped. */
  lemma NoteGoesOut(steps: seq<Step>, i: nat, j: nat, id: Id)
    requires ValidRun(INIT, steps) && i < j < |steps| && steps[i] == Receive(Note(id)) && steps[j] == RunNext
    requires Turns(steps[i + 1..j]) == |At(steps, i).ready|
    ensures var s, t := At(steps, j), At(steps, j + 1);
      && s.ready != [] && s.ready[0] == Handle(id)
      && t.out == (if id in s.deliveries && s.deliveries[id] < |s.requests|
                   then s.out + [Out(s.requests[s.deliveries[id]].session, Note(id))] else s.out)
      && t.ready == (if id !in s.deliveries && id in s.parameters then s.ready[1..] + [WakeFollower(s.parameters[id])]
                     else s.ready[1..])
  {
    hide At;
    AtNext(steps, i);
    AtNext(steps, j);
    QueueIsServed(steps, i + 1, j, |At(steps, i).ready|);
  }

  // -- Replies ---------------------------------------------------------------------------

  /** The id that a reply of the child names. */
  function IdOf(message: Message): Option<Id> {
    if message.Reply? then Some(message.id) else None
  }

  /** The reply grants a request an id that no other subscription, or no other parameter change,
      has. An execute is not granted one. */
  predicate Grants(s: Tier, q: Request, message: Message) {
    match message
    case Reply(_, id) =>
      (q.kind == Subscription && id !in s.deliveries) || (q.kind == ParameterChange && id !in s.parameters)
    case _ => false
  }

  /** What a reply does to the request it names. */
  predicate Taken(s: Tier, r: nat, message: Message, t: Tier)
    requires r < |s.requests|
  {
    var q := s.requests[r];
    var grants := Grants(s, q, message);
    && |t.requests| == |s.requests| && t.out == s.out
    && (forall j | 0 <= j < |s.requests| && j != r :: t.requests[j] == s.requests[j])
    && if q.phase == Waiting || q.phase == Sending(Nothing) then
         && t.requests[r].phase == (if q.phase == Waiting then if grants then Granted(message.id) else Refused
                                    else Sending(if grants then Granting(message.id) else Refusing))
         && t.ready == (if q.phase == Waiting then s.ready + [Wake(r)] else s.ready)
         && t.deliveries == (if grants && q.kind == Subscription then s.deliveries[message.id := r] else s.deliveries)
         && t.parameters == (if grants && q.kind == ParameterChange then s.parameters[message.id := r] else s.parameters)
       else t.requests[r] == s.requests[r] && t.ready == s.ready && t.deliveries == s.deliveries && t.parameters == s.parameters
  }

  lemma GrantsIff(s: Tier, q: Request, message: Message)
    requires !message.Note?
    ensures Grants(s, q, message) <==> !Declined(s, q.kind, IdOf(message))
  {
  }

  lemma WaitingTakes(s: Tier, r: nat, id: Option<Id>)
    requires r < |s.requests| && s.requests[r].phase == Waiting
    ensures var q, t := s.requests[r], ReplyStep(s, r, id);
      && t.requests == s.requests[r := q.(phase := if Declined(s, q.kind, id) then Refused else Granted(id.value))]
      && t.ready == s.ready + [Wake(r)] && t.out == s.out
      && t.deliveries == (if !Declined(s, q.kind, id) && q.kind == Subscription then s.deliveries[id.value := r] else s.deliveries)
      && t.parameters == (if !Declined(s, q.kind, id) && q.kind != Subscription then s.parameters[id.value := r] else s.parameters)
  {
    SomeUnlessDeclined(s, s.requests[r].kind, id);
    hide Declined;
  }

  lemma SendingTakes(s: Tier, r: nat, id: Option<Id>)
    requires r < |s.requests| && s.requests[r].phase == Sending(Nothing)
    ensures var q, t := s.requests[r], ReplyStep(s, r, id);
      && |t.requests| == |s.requests| && t.ready == s.ready && t.out == s.out
      && (forall j | 0 <= j < |s.requests| && j != r :: t.requests[j] == s.requests[j])
      && t.requests[r].phase == Sending(if Declined(s, q.kind, id) then Refusing else Granting(id.value))
      && t.deliveries == (if !Declined(s, q.kind, id) && q.kind == Subscription then s.deliveries[id.value := r] else s.deliveries)
      && t.parameters == (if !Declined(s, q.kind, id) && q.kind != Subscription then s.parameters[id.value := r] else s.parameters)
  {
    SomeUnlessDeclined(s, s.requests[r].kind, id);
    hide Declined;
  }

  lemma SomeUnlessDeclined(s: Tier, kind: Kind, id: Option<Id>)
    ensures !Declined(s, kind, id) ==> id.Some? && kind != Execution
  {
  }

  lemma ReplyTakes(s: Tier, message: Message)
    requires !message.Note? && message.tag < |s.requests|
    ensures Taken(s, message.tag, message, ReplyStep(s, message.tag, IdOf(message)))
  {
    var r := message.tag;
    hide Grants, Declined, Record;
    GrantsIff(s, s.requests[r], message);
    SomeUnlessDeclined(s, s.requests[r].kind, IdOf(message));
    if s.requests[r].phase == Waiting { hide ReplyStep; WaitingTakes(s, r, IdOf(message)); }
    else if s.requests[r].phase == Sending(Nothing) { hide ReplyStep; SendingTakes(s, r, IdOf(message)); }
  }

  lemma RefusalGrantsNone(s: Tier, q: Request, message: Message)
    requires message.Refusal?
    ensures !Grants(s, q, message)
  {
  }

  lemma StepTakes(s: Tier, message: Message)
    requires !message.Note? && message.tag < |s.requests|
    ensures Taken(s, message.tag, message, ReceiveStep(s, message))
  {
    hide ReplyStep;
    var m := s.(input := s.input + [message]);
    ReplyTakes(m, message);
    assert Grants(m, m.requests[message.tag], message) == Grants(s, s.requests[message.tag], message);
    hide Grants;
  }

  /** In every run, a reply of the child is taken by the request it names while its caller sends
      or waits. A caller that waits is woken behind the jobs that are ready. The id it grants is
      recorded for it when nobody else has it, and turns the reply into a refusal otherwise. */
  lemma ReplyIsTaken(steps: seq<Step>, i: nat, message: Message)
    requires ValidRun(INIT, steps) && i < |steps| && steps[i] == Receive(message) && !message.Note?
    requires message.tag < |At(steps, i).requests|
    ensures Taken(At(steps, i), message.tag, message, At(steps, i + 1))
  {
    hide At, ReceiveStep, Taken;
    AtNext(steps, i);
    StepTakes(At(steps, i), message);
  }

  /** What a caller holds as it resumes: the id it was granted, or a refusal. */
  function Held(phase: Phase): Option<Option<Id>> {
    match phase
    case Granted(id) => Some(Some(id))
    case Refused => Some(None)
    case Sending(Granting(id)) => Some(Some(id))
    case Sending(Refusing) => Some(None)
    case _ => None
  }

  /** A caller passes on what it holds. A parameter change that was granted goes on to wait for
      its completion, and an execute is answered already. */
  predicate PassedOn(s: Tier, r: nat, t: Tier)
    requires r < |s.requests| && Held(s.requests[r].phase).Some?
  {
    var q := s.requests[r];
    && r < |t.requests|
    && match Held(q.phase).value
       case Some(id) =>
         if q.kind == ParameterChange then t.out == s.out && t.requests[r].phase == Following(id)
         else t.out == s.out + [Out(q.session, Reply(q.tag, id))] && t.requests[r].phase == Over
       case None =>
         && t.out == (if q.kind == Execution then s.out else s.out + [Out(q.session, Refusal(q.tag))])
         && t.requests[r].phase == Over
  }

  lemma PassOnPasses(s: Tier, m: Tier, r: nat)
    requires r < |s.requests| && Held(s.requests[r].phase).Some? && m == s.(ready := m.ready)
    ensures var held := Held(s.requests[r].phase).value;
      PassedOn(s, r, PassOn(m, r, if held.Some? then Granting(held.value) else Refusing))
  {
  }

  /** In every run, a caller that resumes with its reply passes it on to its own session at once,
      as its send returns or as its turn comes. */
  lemma CallerPassesOn(steps: seq<Step>, i: nat, r: nat)
    requires ValidRun(INIT, steps) && i < |steps| && r < |At(steps, i).requests|
    requires Held(At(steps, i).requests[r].phase).Some?
    requires (steps[i] == Sent(r) && At(steps, i).requests[r].phase.Sending?)
             || (steps[i] == RunNext && At(steps, i).ready != [] && At(steps, i).ready[0] == Wake(r) && !At(steps, i).requests[r].phase.Sending?)
    ensures PassedOn(At(steps, i), r, At(steps, i + 1))
  {
    hide At, PassOn, PassedOn;
    AtNext(steps, i);
    var s := At(steps, i);
    if steps[i] == Sent(r) { PassOnPasses(s, s, r); } else { PassOnPasses(s, s.(ready := s.ready[1..]), r); }
  }

  /** In every run, a parameter change whose completion came, or took too long, is answered with
      the id it was granted, and its completion follows behind the jobs that are ready. */
  lemma FollowerPassesOn(steps: seq<Step>, i: nat, r: nat, id: Id)
    requires ValidRun(INIT, steps) && i < |steps| && r < |At(steps, i).requests| && At(steps, i).requests[r].phase == Following(id)
    requires steps[i] == StopFollowing(r)
             || (steps[i] == RunNext && At(steps, i).ready != [] && At(steps, i).ready[0] == WakeFollower(r))
    ensures var s, t := At(steps, i), At(steps, i + 1);
      && t.out == s.out + [Out(s.requests[r].session, Reply(s.requests[r].tag, id))]
      && r < |t.requests| && t.requests[r].phase == Over
      && t.ready == (if steps[i] == RunNext then s.ready[1..] else s.ready) + [Complete(s.requests[r].session, id)]
      && t.parameters == s.parameters - {id} && t.deliveries == s.deliveries
  {
    hide At;
    AtNext(steps, i);
  }

  /** In every run, the completion of a parameter change goes to its session when its turn
      comes. */
  lemma CompletionGoesOut(steps: seq<Step>, i: nat, j: nat, n: nat, session: Session, id: Id)
    requires ValidRun(INIT, steps) && i <= j < |steps| && steps[j] == RunNext
    requires n < |At(steps, i).ready| && At(steps, i).ready[n] == Complete(session, id) && Turns(steps[i..j]) == n
    ensures At(steps, j + 1).out == At(steps, j).out + [Out(session, Note(id))]
  {
    hide At;
    AtNext(steps, j);
    QueueIsServed(steps, i, j, n);
  }

  /** In every run, what this engine assigns itself is answered at once: a local subscription, a
      local parameter change, whose completion follows, and an execute, whose commands end with a
      notification each. An unsubscribe ends the delivery, and a caller that gives up is silent. */
  lemma LocalGoesOut(steps: seq<Step>, i: nat)
    requires ValidRun(INIT, steps) && i < |steps|
    ensures var s, t := At(steps, i), At(steps, i + 1);
      match steps[i]
      case SubscribeLocally(session, tag, id) => t.out == s.out + [Out(session, Reply(tag, id))] && t.local == s.local[id := session]
      case SetLocally(session, tag, id) =>
        t.out == s.out + [Out(session, Reply(tag, id))] && t.ready == s.ready + [Complete(session, id)]
      case Execute(session, tag, id) => t.out == s.out + [Out(session, Reply(tag, id))] && t.commands == s.commands[id := session]
      case CommandEnds(id) =>
        t.out == (if id in s.commands then s.out + [Out(s.commands[id], Note(id))] else s.out) && id !in t.commands
      case LocalEvent(id) => t.out == if id in s.local then s.out + [Out(s.local[id], Note(id))] else s.out
      case Unsubscribe(id) => t.out == s.out && t.deliveries == s.deliveries - {id} && t.local == s.local - {id}
      case GiveUp(r) => t.out == s.out && (r < |s.requests| ==> r < |t.requests| && t.requests[r].phase == Over)
      case _ => true
  {
    hide At, SentStep, ReceiveStep, RunStep, FollowStep;
    AtNext(steps, i);
  }

  /** In every run, a request of a session becomes one that is being sent, for that session. Its
      caller waits once the send returns without a reply. */
  lemma AskIsSent(steps: seq<Step>, i: nat, r: nat)
    requires ValidRun(INIT, steps) && i < |steps|
    ensures var s, t := At(steps, i), At(steps, i + 1);
      && (steps[i].Ask? && r == |s.requests| ==>
            t == s.(requests := s.requests + [Request(steps[i].session, steps[i].tag, steps[i].kind, Sending(Nothing), None, None)]))
      && (steps[i] == Sent(r) && r < |s.requests| && s.requests[r].phase == Sending(Nothing) ==>
            t == s.(requests := s.requests[r := s.requests[r].(phase := Waiting)]))
  {
    hide At;
    AtNext(steps, i);
  }

  // -- Whose reply it is -----------------------------------------------------------------

  /** What a caller holds or follows is what the child granted its request, or some reply to
      it. */
  predicate FromChild(phase: Phase, past: seq<Step>, r: nat) {
    match phase
    case Granted(id) => Receive(Reply(r, id)) in past
    case Following(id) => Receive(Reply(r, id)) in past
    case Sending(Granting(id)) => Receive(Reply(r, id)) in past
    case Refused => exists step :: step in past && Answers(step, r)
    case Sending(Refusing) => exists step :: step in past && Answers(step, r)
    case _ => true
  }

  predicate Answers(step: Step, r: nat) {
    step.Receive? && !step.message.Note? && step.message.tag == r
  }

  lemma StaysFromChild(phase: Phase, past: seq<Step>, step: Step, r: nat)
    requires FromChild(phase, past, r)
    ensures FromChild(phase, past + [step], r)
  {
    assert forall x <- past :: x in past + [step];
  }

  lemma ReplyFromChild(s: Tier, step: Step, past: seq<Step>, r: nat)
    requires step.Receive? && !step.message.Note? && r < |s.requests| && FromChild(s.requests[r].phase, past, r)
    ensures var t := ReceiveStep(s, step.message); r < |t.requests| && FromChild(t.requests[r].phase, past + [step], r)
  {
    hide ReceiveStep, Grants;
    assert (past + [step])[|past|] == step;
    StaysFromChild(s.requests[r].phase, past, step, r);
    if step.message.tag < |s.requests| {
      StepTakes(s, step.message);
      if step.message.tag == r && step.message.Refusal? { RefusalGrantsNone(s, s.requests[r], step.message); }
      assert step.message.tag == r ==> Answers(step, r);
      if step.message.tag == r && step.message.Reply? { assert step == Receive(Reply(r, step.message.id)); }
    } else {
      UnknownIsIgnored(s, step.message);
    }
  }

  lemma UnknownIsIgnored(s: Tier, message: Message)
    requires !message.Note? && message.tag >= |s.requests|
    ensures ReceiveStep(s, message).requests == s.requests
  {
  }

  /** A caller keeps what it holds, follows it, or lets go of it. */
  predicate Settles(q: Phase, p: Phase) {
    p == q || p == Over || p == Waiting || (p.Following? && Held(q) == Some(Some(p.id)))
  }

  predicate AllSettle(s: Tier, t: Tier) {
    |t.requests| == |s.requests| && forall r | 0 <= r < |s.requests| :: Settles(s.requests[r].phase, t.requests[r].phase)
  }

  lemma PassOnSettles(s: Tier, r: nat)
    requires r < |s.requests|
    ensures var phase := s.requests[r].phase;
      && (phase.Sending? ==> AllSettle(s, PassOn(s, r, phase.reply)))
      && (phase.Granted? ==> AllSettle(s, PassOn(s, r, Granting(phase.id))))
      && AllSettle(s, PassOn(s, r, Refusing))
  {
  }

  lemma FollowSettles(s: Tier, r: nat)
    ensures AllSettle(s, FollowStep(s, r))
  {
  }

  lemma GiveUpSettles(s: Tier, r: nat)
    ensures AllSettle(s, GiveUpStep(s, r))
  {
  }

  lemma SentSettles(s: Tier, r: nat)
    ensures AllSettle(s, SentStep(s, r))
  {
    hide PassOn;
    if r < |s.requests| { PassOnSettles(s, r); }
  }

  lemma WakeSettles(s: Tier, r: nat)
    ensures AllSettle(s, WakeStep(s, r))
  {
    hide PassOn;
    if r < |s.requests| { PassOnSettles(s, r); }
  }

  lemma RunSettles(s: Tier)
    requires s.ready != []
    ensures AllSettle(s, RunStep(s))
  {
    hide WakeStep, FollowStep;
    var m := s.(ready := s.ready[1..]);
    match s.ready[0]
    case Wake(r) => WakeSettles(m, r);
    case WakeFollower(r) => FollowSettles(m, r);
    case _ =>
  }

  lemma StepSettles(s: Tier, step: Step)
    requires Enabled(s, step) && (step.Receive? ==> step.message.Note?) && !step.Ask?
    ensures AllSettle(s, Apply(s, step))
  {
    hide RunStep, SentStep, FollowStep, GiveUpStep;
    match step
    case RunNext => RunSettles(s);
    case Sent(r) => SentSettles(s, r);
    case StopFollowing(r) => FollowSettles(s, r);
    case GiveUp(r) => GiveUpSettles(s, r);
    case _ =>
  }

  lemma SettlesFromChild(q: Phase, p: Phase, past: seq<Step>, r: nat)
    requires FromChild(q, past, r) && Settles(q, p)
    ensures FromChild(p, past, r)
  {
    hide Answers;
  }

  /** The other steps leave a caller what it holds, or take it from it. */
  lemma OtherFromChild(s: Tier, step: Step, past: seq<Step>, r: nat)
    requires Enabled(s, step) && (step.Receive? ==> step.message.Note?) && r < |s.requests| && FromChild(s.requests[r].phase, past, r)
    ensures r < |Apply(s, step).requests| && FromChild(Apply(s, step).requests[r].phase, past, r)
  {
    hide FromChild, Settles, RunStep, SentStep, FollowStep, GiveUpStep, ReceiveStep;
    if !step.Ask? {
      StepSettles(s, step);
      SettlesFromChild(s.requests[r].phase, Apply(s, step).requests[r].phase, past, r);
    }
  }

  lemma StepFromChild(s: Tier, step: Step, past: seq<Step>, r: nat)
    requires Enabled(s, step) && r < |s.requests| && FromChild(s.requests[r].phase, past, r)
    ensures r < |Apply(s, step).requests| && FromChild(Apply(s, step).requests[r].phase, past + [step], r)
  {
    hide FromChild, ReceiveStep;
    if step.Receive? && !step.message.Note? {
      ReplyFromChild(s, step, past, r);
    } else {
      OtherFromChild(s, step, past, r);
      StaysFromChild(Apply(s, step).requests[r].phase, past, step, r);
    }
  }

  /** A request that a step makes is being sent. */
  lemma NewIsSending(s: Tier, step: Step, r: nat)
    requires Enabled(s, step) && |s.requests| <= r < |Apply(s, step).requests|
    ensures Apply(s, step).requests[r].phase == Sending(Nothing)
  {
    hide RunStep, SentStep, FollowStep, GiveUpStep, ReceiveStep, Settles, Taken;
    if step.Receive? && !step.message.Note? {
      SameRequests(s, step.message);
    } else if !step.Ask? {
      StepSettles(s, step);
    }
  }

  lemma SameRequests(s: Tier, message: Message)
    requires !message.Note?
    ensures |ReceiveStep(s, message).requests| == |s.requests|
  {
    hide ReceiveStep, Grants;
    if message.tag < |s.requests| { StepTakes(s, message); } else { UnknownIsIgnored(s, message); }
  }

  /** In every run, what a caller holds, or follows, is an id the child granted its request or a
      refusal of a reply to it. */
  lemma {:induction false} HeldIsTheReply(steps: seq<Step>, i: nat, r: nat)
    requires ValidRun(INIT, steps) && i <= |steps| && r < |At(steps, i).requests|
    ensures FromChild(At(steps, i).requests[r].phase, steps[..i], r)
    decreases i
  {
    hide At, Apply, Enabled, FromChild;
    NoRequests(steps);
    if i > 0 {
      AtNext(steps, i - 1);
      var s := At(steps, i - 1);
      assert steps[..i] == steps[..i - 1] + [steps[i - 1]];
      if r < |s.requests| {
        HeldIsTheReply(steps, i - 1, r);
        StepFromChild(s, steps[i - 1], steps[..i - 1], r);
      } else {
        NewIsSending(s, steps[i - 1], r);
        SendingHoldsNothing(steps[..i], r);
      }
    }
  }

  lemma SendingHoldsNothing(past: seq<Step>, r: nat)
    ensures FromChild(Sending(Nothing), past, r)
  {
  }

  lemma NoRequests(steps: seq<Step>)
    requires ValidRun(INIT, steps)
    ensures At(steps, 0).requests == []
  {
  }
}
