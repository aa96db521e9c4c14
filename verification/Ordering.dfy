/** The order of replies and notifications on the connections of an engine. A tier serves its
    clients, and one child engine below it, from one event loop. */
module Ordering {
  import opened Wrappers

  type Id = nat
  type Session = nat

  /** A message from an engine to its client: the reply that names an id, a reply that names
      none, or a notification that carries an id. `tag` is the id of the request. */
  datatype Message = Reply(tag: nat, id: Id) | Refusal(tag: nat) | Note(id: Id)

  /** A message put in the outbox of a session. */
  datatype Out = Out(session: Session, message: Message)

  /** The requests to the child whose reply a client waits for, and the execute of a command
      that the engine runs itself. */
  datatype Kind = Subscription | ParameterChange | Execution

  /** Where the caller of a request is. Until its send returns it is `Sending`, and a reply
      handled by then only resolves its future. After that a reply wakes it. */
  datatype Phase = Sending(reply: Arrived) | Waiting | Refused | Granted(id: Id) | Following(id: Id) | Over

  /** The reply that came while its request was being sent. */
  datatype Arrived = Nothing | Refusing | Granting(id: Id)

  /** A request to the child, for the request `tag` of a session. `early` is the id the child
      granted before the send returned, and `gaveUp` the one it had granted when the caller
      gave up before it saw the reply. */
  datatype Request = Request(session: Session, tag: nat, kind: Kind, phase: Phase, early: Option<Id>, gaveUp: Option<Id>)

  /** What the event loop runs next. */
  datatype Job =
    | Wake(request: nat)                       // a caller sees its reply
    | Handle(id: Id)                           // a notification of the child
    | WakeFollower(request: nat)               // a caller sees its completion
    | Complete(session: Session, id: Id)       // the completion of a parameter change

  /** `deliveries` are the requests events of the child go to, `parameters` those that follow a
      completion, `local` and `commands` the sessions of local subscriptions and of commands. */
  datatype Tier = Tier(requests: seq<Request>, deliveries: map<Id, nat>, parameters: map<Id, nat>,
                       local: map<Id, Session>, commands: map<Id, Session>, ready: seq<Job>,
                       input: seq<Message>, out: seq<Out>)

  const INIT := Tier([], map[], map[], map[], map[], [], [], [])

  // -- The steps -------------------------------------------------------------------------

  datatype Step =
    | Ask(session: Session, tag: nat, kind: Kind)
    | Sent(r: nat)                             // the send of a request returns
    | SubscribeLocally(session: Session, tag: nat, id: Id)
    | SetLocally(session: Session, tag: nat, id: Id)
    | Execute(session: Session, tag: nat, id: Id)
    | CommandEnds(id: Id)
    | LocalEvent(id: Id)
    | Receive(message: Message)
    | RunNext
    | StopFollowing(r: nat)                    // a completion took too long, or came while sending
    | GiveUp(r: nat)
    | Unsubscribe(id: Id)

  function Put(s: Tier, session: Session, message: Message): Tier {
    s.(out := s.out + [Out(session, message)])
  }

  function SetPhase(s: Tier, r: nat, phase: Phase): Tier
    requires r < |s.requests|
  {
    s.(requests := s.requests[r := s.requests[r].(phase := phase)])
  }

  /** The hook of a request turns the reply that names an id into ERROR when the id is in use.
      An execute is answered the same either way. */
  predicate Declined(s: Tier, kind: Kind, id: Option<Id>) {
    id == None || kind == Execution || (kind == Subscription && id.value in s.deliveries)
    || (kind == ParameterChange && id.value in s.parameters)
  }

  /** The hook records the id that a reply grants. */
  function Record(s: Tier, r: nat, kind: Kind, id: Id): Tier {
    if kind == Subscription then s.(deliveries := s.deliveries[id := r]) else s.(parameters := s.parameters[id := r])
  }

  /** A reply reaches its request. It wakes a caller that waits, and what follows it runs
      behind that caller. A caller that still sends is not woken. */
  function ReplyStep(s: Tier, r: nat, id: Option<Id>): Tier {
    if r >= |s.requests| then s
    else
      var q := s.requests[r];
      if q.phase == Waiting then
        var m := s.(ready := s.ready + [Wake(r)]);
        if Declined(s, q.kind, id) then SetPhase(m, r, Refused)
        else Record(SetPhase(m, r, Granted(id.value)), r, q.kind, id.value)
      else if q.phase == Sending(Nothing) then
        if Declined(s, q.kind, id) then SetPhase(s, r, Sending(Refusing))
        else Record(s.(requests := s.requests[r := q.(phase := Sending(Granting(id.value)), early := id)]), r, q.kind, id.value)
      else s
  }

  /** `handle`: a reply is handled at once, a notification waits for its turn. */
  function ReceiveStep(s: Tier, message: Message): Tier {
    var m := s.(input := s.input + [message]);
    match message
    case Reply(tag, id) => ReplyStep(m, tag, Some(id))
    case Refusal(tag) => ReplyStep(m, tag, None)
    case Note(id) => m.(ready := m.ready + [Handle(id)])
  }

  /** A caller passes its reply on in the step in which it sees it. A parameter change waits
      for its completion first. */
  function PassOn(s: Tier, r: nat, reply: Arrived): Tier
    requires r < |s.requests|
  {
    var q := s.requests[r];
    match reply
    case Granting(id) =>
      if q.kind == ParameterChange then SetPhase(s, r, Following(id))
      else Put(SetPhase(s, r, Over), q.session, Reply(q.tag, id))
    case Refusing =>
      if q.kind == Execution then SetPhase(s, r, Over) else Put(SetPhase(s, r, Over), q.session, Refusal(q.tag))
    case Nothing => SetPhase(s, r, Waiting)
  }

  /** The send of a request returns: its caller waits, or sees the reply that came already. */
  function SentStep(s: Tier, r: nat): Tier {
    if r < |s.requests| && s.requests[r].phase.Sending? then PassOn(s, r, s.requests[r].phase.reply) else s
  }

  /** A caller that waited resumes with its reply. */
  function WakeStep(s: Tier, r: nat): Tier {
    if r >= |s.requests| then s
    else
      match s.requests[r].phase
      case Granted(id) => PassOn(s, r, Granting(id))
      case Refused => PassOn(s, r, Refusing)
      case _ => s
  }

  /** A parameter change is answered, and its completion runs behind the reply. */
  function FollowStep(s: Tier, r: nat): Tier {
    if r >= |s.requests| || !s.requests[r].phase.Following? then s
    else
      var q := s.requests[r];
      var id := q.phase.id;
      Put(SetPhase(s, r, Over), q.session, Reply(q.tag, id)).(
        ready := s.ready + [Complete(q.session, id)], parameters := s.parameters - {id})
  }

  /** `_handle_notification`. */
  function HandleStep(s: Tier, id: Id): Tier {
    if id in s.deliveries then
      if s.deliveries[id] < |s.requests| then Put(s, s.requests[s.deliveries[id]].session, Note(id)) else s
    else if id in s.parameters then s.(ready := s.ready + [WakeFollower(s.parameters[id])])
    else s
  }

  function RunStep(s: Tier): Tier
    requires s.ready != []
  {
    var m := s.(ready := s.ready[1..]);
    match s.ready[0]
    case Wake(r) => WakeStep(m, r)
    case Handle(id) => HandleStep(m, id)
    case WakeFollower(r) => FollowStep(m, r)
    case Complete(session, id) => Put(m, session, Note(id))
  }

  function GiveUpStep(s: Tier, r: nat): Tier {
    if r >= |s.requests| then s
    else
      var q := s.requests[r];
      s.(requests := s.requests[r := q.(phase := Over, gaveUp := if q.phase.Granted? then Some(q.phase.id) else q.gaveUp)])
  }

  predicate Enabled(s: Tier, step: Step) {
    step == RunNext ==> s.ready != []
  }

  function Apply(s: Tier, step: Step): Tier
    requires Enabled(s, step)
  {
    match step
    case Ask(session, tag, kind) => s.(requests := s.requests + [Request(session, tag, kind, Sending(Nothing), None, None)])
    case Sent(r) => SentStep(s, r)
    case SubscribeLocally(session, tag, id) => Put(s, session, Reply(tag, id)).(local := s.local[id := session])
    case SetLocally(session, tag, id) =>
      Put(s, session, Reply(tag, id)).(ready := s.ready + [Complete(session, id)])
    case Execute(session, tag, id) => Put(s, session, Reply(tag, id)).(commands := s.commands[id := session])
    case CommandEnds(id) => if id in s.commands then Put(s, s.commands[id], Note(id)).(commands := s.commands - {id}) else s
    case LocalEvent(id) => if id in s.local then Put(s, s.local[id], Note(id)) else s
    case Receive(message) => ReceiveStep(s, message)
    case RunNext => RunStep(s)
    case StopFollowing(r) => FollowStep(s, r)
    case GiveUp(r) => GiveUpStep(s, r)
    case Unsubscribe(id) => s.(deliveries := s.deliveries - {id}, local := s.local - {id})
  }

  predicate ValidRun(s: Tier, steps: seq<Step>)
    decreases |steps|
  {
    steps == [] || (Enabled(s, steps[0]) && ValidRun(Apply(s, steps[0]), steps[1..]))
  }

  function After(s: Tier, steps: seq<Step>): Tier
    requires ValidRun(s, steps)
    decreases |steps|
  {
    if steps == [] then s else After(Apply(s, steps[0]), steps[1..])
  }

  // -- What is claimed -------------------------------------------------------------------

  /** A reply among the first k messages of a connection names an id. */
  predicate Named(messages: seq<Message>, k: nat, id: Id) {
    exists j :: 0 <= j < k && j < |messages| && messages[j].Reply? && messages[j].id == id
  }

  /** Every notification comes after the reply that names its id. */
  predicate InOrder(messages: seq<Message>) {
    forall i | 0 <= i < |messages| :: messages[i].Note? ==> Named(messages, i, messages[i].id)
  }

  /** No two replies of a connection name the same id. */
  predicate NamedOnce(messages: seq<Message>) {
    forall i, j | 0 <= i < j < |messages| :: messages[i].Reply? && messages[j].Reply? ==> messages[i].id != messages[j].id
  }

  /** The child granted an id to a request of a session before its send returned, or its caller
      gave up between the reply and its turn. */
  predicate Loose(q: Request, id: Id) {
    q.early == Some(id) || q.gaveUp == Some(id)
  }

  predicate Orphan(requests: seq<Request>, session: Session, id: Id) {
    exists r :: 0 <= r < |requests| && requests[r].session == session && Loose(requests[r], id)
  }

  predicate Replied(out: seq<Out>, k: nat, session: Session, id: Id) {
    exists j :: 0 <= j < k && j < |out| && out[j].session == session && out[j].message.Reply? && out[j].message.id == id
  }

  // -- The invariant ---------------------------------------------------------------------

  predicate Woken(ready: seq<Job>, k: nat, r: nat) {
    exists j :: 0 <= j < k && j < |ready| && ready[j] == Wake(r)
  }

  /** Whoever gets the events of an id has the reply, is about to, or gave up on it. */
  predicate Delivered(s: Tier, id: Id) {
    id in s.deliveries ==>
      && s.deliveries[id] < |s.requests| && s.requests[s.deliveries[id]].kind == Subscription
      && var q := s.requests[s.deliveries[id]];
         q.phase == Granted(id) || Loose(q, id) || Replied(s.out, |s.out|, q.session, id)
  }

  /** A notification in the queue runs behind the caller that waits for its id. */
  predicate Behind(s: Tier, k: nat) {
    k < |s.ready| && s.ready[k].Handle? && s.ready[k].id in s.deliveries
    && s.deliveries[s.ready[k].id] < |s.requests| && s.requests[s.deliveries[s.ready[k].id]].phase == Granted(s.ready[k].id)
    ==> Woken(s.ready, k, s.deliveries[s.ready[k].id])
  }

  predicate Follows(s: Tier, i: nat) {
    i < |s.out| && s.out[i].message.Note? ==>
      Replied(s.out, i, s.out[i].session, s.out[i].message.id) || Orphan(s.requests, s.out[i].session, s.out[i].message.id)
  }

  /** What is in the queue, and what the maps name, is known. */
  ghost predicate Known(s: Tier) {
    && (forall k | 0 <= k < |s.ready| :: s.ready[k].Handle? ==> Named(s.input, |s.input|, s.ready[k].id))
    && (forall k | 0 <= k < |s.ready| :: s.ready[k].Complete? ==> Replied(s.out, |s.out|, s.ready[k].session, s.ready[k].id))
    && (forall id <- s.commands :: Replied(s.out, |s.out|, s.commands[id], id))
    && (forall id <- s.local :: Replied(s.out, |s.out|, s.local[id], id))
  }

  ghost predicate Queued(s: Tier) {
    && (forall r: nat | r < |s.requests| && s.requests[r].phase.Granted? :: Woken(s.ready, |s.ready|, r))
    && (forall k: nat :: Behind(s, k))
    && (forall r | 0 <= r < |s.requests| ::
          && (s.requests[r].gaveUp.Some? ==> s.requests[r].phase == Over)
          && (s.requests[r].phase == Sending(Nothing) ==> s.requests[r].early == None))
  }

  ghost predicate Inv(s: Tier) {
    (forall id :: Delivered(s, id)) && Queued(s) && Known(s) && forall i: nat :: Follows(s, i)
  }

  // -- The pieces keep it ----------------------------------------------------------------

  lemma RepliedMore(out: seq<Out>, more: seq<Out>, k: nat, session: Session, id: Id)
    requires k <= |out| && Replied(out, k, session, id)
    ensures Replied(out + more, k, session, id) && Replied(out + more, |out + more|, session, id)
  {
    var j :| 0 <= j < k && j < |out| && out[j].session == session && out[j].message.Reply? && out[j].message.id == id;
    assert (out + more)[j] == out[j];
  }

  lemma PutKeeps(s: Tier, session: Session, message: Message)
    requires Inv(s)
    requires message.Note? ==> Replied(s.out, |s.out|, session, message.id) || Orphan(s.requests, session, message.id)
    ensures var t := Put(s, session, message);
      Inv(t) && (message.Reply? ==> Replied(t.out, |t.out|, session, message.id))
  {
    var t := Put(s, session, message);
    assert t.out[|s.out|] == Out(session, message);
    forall other: Session, id, k: nat | k <= |s.out| && Replied(s.out, k, other, id)
      ensures Replied(t.out, k, other, id) && Replied(t.out, |t.out|, other, id)
    {
      RepliedMore(s.out, [Out(session, message)], k, other, id);
    }
    forall i: nat ensures Follows(t, i) {
      if i < |s.out| {
        assert Follows(s, i) && t.out[i] == s.out[i];
      }
    }
    forall id ensures Delivered(t, id) { assert Delivered(s, id); }
    forall k: nat ensures Behind(t, k) { assert Behind(s, k); }
  }

  /** The head of the queue goes, once no caller that waits for its reply depends on it. */
  lemma PopKeeps(s: Tier)
    requires Inv(s) && s.ready != []
    requires s.ready[0].Wake? && s.ready[0].request < |s.requests| ==> !s.requests[s.ready[0].request].phase.Granted?
    ensures Inv(s.(ready := s.ready[1..]))
  {
    var t := s.(ready := s.ready[1..]);
    forall r: nat, k: nat | r < |s.requests| && s.requests[r].phase.Granted? && k + 1 <= |s.ready| && Woken(s.ready, k + 1, r)
      ensures Woken(t.ready, k, r)
    {
      var j :| 0 <= j < k + 1 && j < |s.ready| && s.ready[j] == Wake(r);
      assert j > 0;
      assert t.ready[j - 1] == Wake(r);
    }
    forall id ensures Delivered(t, id) { assert Delivered(s, id); }
    forall k: nat ensures Behind(t, k) {
      assert Behind(s, k + 1);
      if k < |t.ready| { assert t.ready[k] == s.ready[k + 1]; }
    }
    forall i: nat ensures Follows(t, i) { assert Follows(s, i); }
    forall k | 0 <= k < |t.ready| ensures t.ready[k] == s.ready[k + 1] { }
  }

  lemma EnqueueKeeps(s: Tier, job: Job)
    requires Inv(s)
    requires job.Handle? ==> Named(s.input, |s.input|, job.id)
    requires job.Complete? ==> Replied(s.out, |s.out|, job.session, job.id)
    ensures var t := s.(ready := s.ready + [job]);
      Inv(t) && (job.Wake? ==> Woken(t.ready, |t.ready|, job.request))
  {
    var t := s.(ready := s.ready + [job]);
    assert t.ready[|s.ready|] == job;
    forall r: nat, k: nat | k <= |s.ready| && Woken(s.ready, k, r) ensures Woken(t.ready, k, r) && Woken(t.ready, |t.ready|, r) {
      var j :| 0 <= j < k && j < |s.ready| && s.ready[j] == Wake(r);
      assert t.ready[j] == Wake(r);
    }
    forall id ensures Delivered(t, id) { assert Delivered(s, id); }
    forall k: nat ensures Behind(t, k) {
      assert Behind(s, k);
      if k < |s.ready| { assert t.ready[k] == s.ready[k]; }
    }
    forall i: nat ensures Follows(t, i) { assert Follows(s, i); }
    forall k | 0 <= k < |s.ready| ensures t.ready[k] == s.ready[k] { }
  }

  /** A request changes its phase, once whoever gets the events of its id has the reply. */
  lemma PhaseKeeps(s: Tier, r: nat, phase: Phase)
    requires Inv(s) && r < |s.requests| && !phase.Granted? && phase != Sending(Nothing)
    requires s.requests[r].phase == Over ==> phase == Over
    requires s.requests[r].phase.Granted? && s.requests[r].kind == Subscription ==>
               Replied(s.out, |s.out|, s.requests[r].session, s.requests[r].phase.id)
    ensures Inv(SetPhase(s, r, phase))
  {
    var t := SetPhase(s, r, phase);
    forall id ensures Delivered(t, id) { assert Delivered(s, id); }
    forall k: nat ensures Behind(t, k) { assert Behind(s, k); }
    forall session: Session, id: Id | Orphan(s.requests, session, id) ensures Orphan(t.requests, session, id) {
      var i :| 0 <= i < |s.requests| && s.requests[i].session == session && Loose(s.requests[i], id);
      assert Loose(t.requests[i], id);
    }
    forall i: nat ensures Follows(t, i) { assert Follows(s, i); }
  }

  lemma MapsKeep(s: Tier, t: Tier)
    requires Inv(s) && t == s.(deliveries := t.deliveries, parameters := t.parameters, local := t.local, commands := t.commands)
    requires forall id <- t.deliveries :: id in s.deliveries && t.deliveries[id] == s.deliveries[id]
    requires forall id <- t.local :: id in s.local && t.local[id] == s.local[id]
    requires forall id <- t.commands :: id in s.commands && t.commands[id] == s.commands[id]
    ensures Inv(t)
  {
    forall id ensures Delivered(t, id) { assert Delivered(s, id); }
    forall k: nat ensures Behind(t, k) { assert Behind(s, k); }
    forall i: nat ensures Follows(t, i) { assert Follows(s, i); }
  }

  // -- The steps keep it -----------------------------------------------------------------

  /** Passing a reply on keeps the invariant, and the caller waits for its turn no more. */
  lemma PassOnKeeps(s: Tier, r: nat, reply: Arrived)
    requires Inv(s) && r < |s.requests|
    requires match reply
             case Granting(id) => s.requests[r].phase == Granted(id) || s.requests[r].phase == Sending(reply)
             case Refusing => s.requests[r].phase == Refused || s.requests[r].phase == Sending(reply)
             case Nothing => s.requests[r].phase == Sending(reply)
    ensures var t := PassOn(s, r, reply); Inv(t) && t.ready == s.ready && r < |t.requests| && !t.requests[r].phase.Granted?
  {
    hide Inv;
    var q := s.requests[r];
    match reply
    case Granting(id) =>
      if q.kind == ParameterChange {
        PhaseKeeps(s, r, Following(id));
      } else {
        PutKeeps(s, q.session, Reply(q.tag, id));
        PhaseKeeps(Put(s, q.session, Reply(q.tag, id)), r, Over);
      }
    case Refusing =>
      PhaseKeeps(s, r, Over);
      PutKeeps(SetPhase(s, r, Over), q.session, Refusal(q.tag));
    case Nothing => PhaseKeeps(s, r, Waiting);
  }

  lemma SentKeeps(s: Tier, r: nat)
    requires Inv(s)
    ensures Inv(SentStep(s, r))
  {
    if r < |s.requests| && s.requests[r].phase.Sending? { PassOnKeeps(s, r, s.requests[r].phase.reply); }
    hide Inv;
  }

  lemma WakeKeeps(s: Tier)
    requires Inv(s) && s.ready != [] && s.ready[0].Wake?
    ensures Inv(RunStep(s))
  {
    hide Inv, PassOn;
    var r := s.ready[0].request;
    if r < |s.requests| && (s.requests[r].phase.Granted? || s.requests[r].phase.Refused?) {
      var reply := if s.requests[r].phase.Granted? then Granting(s.requests[r].phase.id) else Refusing;
      PassOnKeeps(s, r, reply);
      PopKeeps(PassOn(s, r, reply));
      PassOnPops(s, r, reply);
    } else {
      PopKeeps(s);
    }
  }

  /** A caller passes its reply on the same whatever waits in the queue. */
  lemma PassOnPops(s: Tier, r: nat, reply: Arrived)
    requires r < |s.requests| && s.ready != []
    ensures PassOn(s.(ready := s.ready[1..]), r, reply) == PassOn(s, r, reply).(ready := s.ready[1..])
  {
  }

  lemma FollowKeeps(s: Tier, r: nat)
    requires Inv(s)
    ensures Inv(FollowStep(s, r))
  {
    hide Inv;
    if r < |s.requests| && s.requests[r].phase.Following? {
      var q := s.requests[r];
      var id := q.phase.id;
      var m := Put(s, q.session, Reply(q.tag, id));
      PutKeeps(s, q.session, Reply(q.tag, id));
      PhaseKeeps(m, r, Over);
      var p := SetPhase(m, r, Over);
      EnqueueKeeps(p, Complete(q.session, id));
      MapsKeep(p.(ready := p.ready + [Complete(q.session, id)]), FollowStep(s, r));
    }
  }

  lemma HandleKeeps(s: Tier)
    requires Inv(s) && s.ready != [] && s.ready[0].Handle?
    ensures Inv(RunStep(s))
  {
    var id := s.ready[0].id;
    var m := s.(ready := s.ready[1..]);
    assert Delivered(s, id) && Behind(s, 0);
    PopKeeps(s);
    if id in s.deliveries {
      var r := s.deliveries[id];
      var q := s.requests[r];
      assert !Woken(s.ready, 0, r);
      assert Loose(q, id) ==> Orphan(s.requests, q.session, id);
      PutKeeps(m, q.session, Note(id));
    } else if id in s.parameters {
      EnqueueKeeps(m, WakeFollower(s.parameters[id]));
    }
    hide Inv;
  }

  lemma CompleteKeeps(s: Tier)
    requires Inv(s) && s.ready != [] && s.ready[0].Complete?
    ensures Inv(RunStep(s))
  {
    var m := s.(ready := s.ready[1..]);
    assert Replied(s.out, |s.out|, s.ready[0].session, s.ready[0].id);
    PopKeeps(s);
    PutKeeps(m, s.ready[0].session, Note(s.ready[0].id));
    hide Inv;
  }

  lemma RunKeeps(s: Tier)
    requires Inv(s) && s.ready != []
    ensures Inv(RunStep(s))
  {
    match s.ready[0]
    case Wake(r) => WakeKeeps(s);
    case Handle(id) => HandleKeeps(s);
    case Complete(session, id) => CompleteKeeps(s);
    case WakeFollower(r) =>
      PopKeeps(s);
      FollowKeeps(s.(ready := s.ready[1..]), r);
  }

  /** Each id is named by one reply of the child. */
  predicate FreshReply(s: Tier, message: Message) {
    message.Reply? ==> !Named(s.input, |s.input|, message.id)
  }

  lemma InputKeeps(s: Tier, message: Message)
    requires Inv(s)
    ensures var t := s.(input := s.input + [message]); Inv(t) && (message.Reply? ==> Named(t.input, |t.input|, message.id))
  {
    var t := s.(input := s.input + [message]);
    assert t.input[|s.input|] == message;
    forall id, k: nat | Named(s.input, k, id) ensures Named(t.input, |t.input|, id) {
      var j :| 0 <= j < k && j < |s.input| && s.input[j].Reply? && s.input[j].id == id;
      assert t.input[j] == s.input[j];
    }
    forall id ensures Delivered(t, id) { assert Delivered(s, id); }
    forall k: nat ensures Behind(t, k) { assert Behind(s, k); }
    forall i: nat ensures Follows(t, i) { assert Follows(s, i); }
  }

  /** A request that takes its reply: what was loose stays so, and the new id is granted to a
      caller that the queue wakes, or came early. */
  predicate Takes(s: Tier, r: nat, q: Request, id: Id)
    requires r < |s.requests|
  {
    var p := s.requests[r];
    && q.session == p.session && q.kind == p.kind && !p.phase.Granted? && q.phase != Sending(Nothing)
    && (p.early.Some? ==> q.early == p.early) && p.gaveUp == None && q.gaveUp == None
    && ((q.phase == Granted(id) && Woken(s.ready, |s.ready|, r)) || (!q.phase.Granted? && q.early == Some(id)))
  }

  lemma LooseStays(s: Tier, t: Tier, r: nat, q: Request, id: Id)
    requires r < |s.requests| && Takes(s, r, q, id) && t.requests == s.requests[r := q] && t.out == s.out
    requires forall i: nat :: Follows(s, i)
    ensures forall i: nat :: Follows(t, i)
  {
    forall session: Session, other: Id | Orphan(s.requests, session, other) ensures Orphan(t.requests, session, other) {
      var i :| 0 <= i < |s.requests| && s.requests[i].session == session && Loose(s.requests[i], other);
      assert Loose(t.requests[i], other);
    }
    forall i: nat ensures Follows(t, i) { assert Follows(s, i); }
  }

  /** A subscription is granted an id whose notifications cannot be in the queue yet. */
  lemma SubscriptionGranted(s: Tier, r: nat, q: Request, id: Id)
    requires Inv(s) && r < |s.requests| && Takes(s, r, q, id) && q.kind == Subscription
    requires forall k | 0 <= k < |s.ready| :: s.ready[k] != Handle(id)
    ensures Inv(s.(requests := s.requests[r := q], deliveries := s.deliveries[id := r]))
  {
    var t := s.(requests := s.requests[r := q], deliveries := s.deliveries[id := r]);
    LooseStays(s, t, r, q, id);
    hide Follows;
    forall other ensures Delivered(t, other) { assert Delivered(s, other); }
    forall k: nat ensures Behind(t, k) {
      assert Behind(s, k);
      if k < |s.ready| && s.ready[k].Handle? { assert Delivered(s, s.ready[k].id); }
    }
  }

  /** A parameter change is granted its id. No events follow it. */
  lemma ParameterGranted(s: Tier, r: nat, q: Request, id: Id)
    requires Inv(s) && r < |s.requests| && Takes(s, r, q, id) && q.kind == ParameterChange
    ensures Inv(s.(requests := s.requests[r := q], parameters := s.parameters[id := r]))
  {
    var t := s.(requests := s.requests[r := q], parameters := s.parameters[id := r]);
    LooseStays(s, t, r, q, id);
    hide Follows;
    forall other ensures Delivered(t, other) { assert Delivered(s, other); }
    forall k: nat ensures Behind(t, k) {
      assert Behind(s, k);
      if k < |s.ready| && s.ready[k].Handle? { assert Delivered(s, s.ready[k].id); }
    }
  }

  lemma GrantKeeps(s: Tier, r: nat, q: Request, id: Id)
    requires Inv(s) && r < |s.requests| && Takes(s, r, q, id) && q.kind != Execution
    requires forall k | 0 <= k < |s.ready| :: s.ready[k] != Handle(id)
    ensures Inv(Record(s.(requests := s.requests[r := q]), r, q.kind, id))
  {
    if q.kind == Subscription { SubscriptionGranted(s, r, q, id); } else { ParameterGranted(s, r, q, id); }
    hide Inv;
  }

  /** A request that has not been answered is loose for no id. */
  lemma UnansweredIsTight(s: Tier, r: nat)
    requires Inv(s) && r < |s.requests| && (s.requests[r].phase == Waiting || s.requests[r].phase == Sending(Nothing))
    ensures s.requests[r].gaveUp == None
    ensures s.requests[r].phase == Sending(Nothing) ==> s.requests[r].early == None
  {
  }

  lemma ReplyKeeps(s: Tier, r: nat, id: Option<Id>)
    requires Inv(s) && (id.Some? ==> forall k | 0 <= k < |s.ready| :: s.ready[k] != Handle(id.value))
    ensures Inv(ReplyStep(s, r, id))
  {
    hide Inv, Woken;
    if r < |s.requests| && s.requests[r].phase == Waiting {
      var q := s.requests[r];
      var m := s.(ready := s.ready + [Wake(r)]);
      EnqueueKeeps(s, Wake(r));
      UnansweredIsTight(s, r);
      if Declined(s, q.kind, id) { PhaseKeeps(m, r, Refused); }
      else { GrantKeeps(m, r, q.(phase := Granted(id.value)), id.value); }
    } else if r < |s.requests| && s.requests[r].phase == Sending(Nothing) {
      var q := s.requests[r];
      UnansweredIsTight(s, r);
      if Declined(s, q.kind, id) { PhaseKeeps(s, r, Sending(Refusing)); }
      else { GrantKeeps(s, r, q.(phase := Sending(Granting(id.value)), early := id), id.value); }
    }
  }

  lemma ReceiveKeeps(s: Tier, message: Message)
    requires Inv(s) && FreshReply(s, message) && (message.Note? ==> Named(s.input, |s.input|, message.id))
    ensures Inv(ReceiveStep(s, message))
  {
    var m := s.(input := s.input + [message]);
    InputKeeps(s, message);
    match message
    case Reply(tag, id) =>
      assert forall k | 0 <= k < |s.ready| :: s.ready[k] != Handle(id);
      ReplyKeeps(m, tag, Some(id));
    case Refusal(tag) => ReplyKeeps(m, tag, None);
    case Note(id) =>
      NamedMore(s.input, [message], id);
      EnqueueKeeps(m, Handle(id));
  }

  lemma NamedMore(input: seq<Message>, more: seq<Message>, id: Id)
    requires Named(input, |input|, id)
    ensures Named(input + more, |input + more|, id)
  {
    var j :| 0 <= j < |input| && input[j].Reply? && input[j].id == id;
    assert (input + more)[j] == input[j];
  }

  lemma GiveUpKeeps(s: Tier, r: nat)
    requires Inv(s)
    ensures Inv(GiveUpStep(s, r))
  {
    var t := GiveUpStep(s, r);
    if r < |s.requests| {
      forall id ensures Delivered(t, id) { assert Delivered(s, id); }
      forall k: nat ensures Behind(t, k) { assert Behind(s, k); }
      forall session: Session, id: Id | Orphan(s.requests, session, id) ensures Orphan(t.requests, session, id) {
        var i :| 0 <= i < |s.requests| && s.requests[i].session == session && Loose(s.requests[i], id);
        assert Loose(t.requests[i], id);
      }
      forall i: nat ensures Follows(t, i) { assert Follows(s, i); }
    }
  }

  lemma AskKeeps(s: Tier, session: Session, tag: nat, kind: Kind)
    requires Inv(s)
    ensures Inv(Apply(s, Ask(session, tag, kind)))
  {
    var t := Apply(s, Ask(session, tag, kind));
    forall id ensures Delivered(t, id) { assert Delivered(s, id); }
    forall k: nat ensures Behind(t, k) {
      assert Behind(s, k);
      if k < |s.ready| && s.ready[k].Handle? { assert Delivered(s, s.ready[k].id); }
    }
    forall other: Session, id: Id | Orphan(s.requests, other, id) ensures Orphan(t.requests, other, id) {
      var i :| 0 <= i < |s.requests| && s.requests[i].session == other && Loose(s.requests[i], id);
      assert Loose(t.requests[i], id);
    }
    forall i: nat ensures Follows(t, i) { assert Follows(s, i); }
  }

  /** A reply the engine gives of itself names its id in the step that lets it be used. */
  lemma NamedHere(s: Tier, session: Session, tag: nat, id: Id)
    requires Inv(s)
    ensures Inv(Put(s, session, Reply(tag, id)).(local := s.local[id := session]))
    ensures Inv(Put(s, session, Reply(tag, id)).(commands := s.commands[id := session]))
    ensures Inv(Put(s, session, Reply(tag, id)).(ready := s.ready + [Complete(session, id)]))
  {
    var m := Put(s, session, Reply(tag, id));
    PutKeeps(s, session, Reply(tag, id));
    EnqueueKeeps(m, Complete(session, id));
    AddedKeeps(m, m.(local := s.local[id := session]));
    AddedKeeps(m, m.(commands := s.commands[id := session]));
    hide Inv;
  }

  lemma AddedKeeps(s: Tier, t: Tier)
    requires Inv(s) && t == s.(local := t.local, commands := t.commands)
    requires forall id <- t.local :: Replied(s.out, |s.out|, t.local[id], id)
    requires forall id <- t.commands :: Replied(s.out, |s.out|, t.commands[id], id)
    ensures Inv(t)
  {
    forall id ensures Delivered(t, id) { assert Delivered(s, id); }
    forall k: nat ensures Behind(t, k) { assert Behind(s, k); }
    forall i: nat ensures Follows(t, i) { assert Follows(s, i); }
  }

  lemma NoteKeeps(s: Tier, session: Session, id: Id)
    requires Inv(s) && Replied(s.out, |s.out|, session, id)
    ensures Inv(Put(s, session, Note(id)))
  {
    PutKeeps(s, session, Note(id));
  }

  predicate InputAllows(s: Tier, step: Step) {
    step.Receive? ==> FreshReply(s, step.message) && (step.message.Note? ==> Named(s.input, |s.input|, step.message.id))
  }

  lemma StepKeeps(s: Tier, step: Step)
    requires Inv(s) && Enabled(s, step) && InputAllows(s, step)
    ensures Inv(Apply(s, step))
  {
    match step
    case Ask(session, tag, kind) => AskKeeps(s, session, tag, kind);
    case Sent(r) => SentKeeps(s, r);
    case SubscribeLocally(session, tag, id) => NamedHere(s, session, tag, id);
    case SetLocally(session, tag, id) => NamedHere(s, session, tag, id);
    case Execute(session, tag, id) => NamedHere(s, session, tag, id);
    case CommandEnds(id) =>
      if id in s.commands {
        NoteKeeps(s, s.commands[id], id);
        MapsKeep(Put(s, s.commands[id], Note(id)), Apply(s, step));
      }
    case LocalEvent(id) => if id in s.local { NoteKeeps(s, s.local[id], id); }
    case Receive(message) => ReceiveKeeps(s, message);
    case RunNext => RunKeeps(s);
    case StopFollowing(r) => FollowKeeps(s, r);
    case GiveUp(r) => GiveUpKeeps(s, r);
    case Unsubscribe(id) => MapsKeep(s, Apply(s, step));
    hide Delivered, Queued, Behind, Follows, ReceiveStep, RunStep, FollowStep, GiveUpStep, SentStep;
  }

  // -- Over every run --------------------------------------------------------------------

  lemma RunInput(s: Tier)
    requires s.ready != []
    ensures RunStep(s).input == s.input
  {
  }

  lemma ReceiveInput(s: Tier, message: Message)
    ensures ReceiveStep(s, message).input == s.input + [message]
  {
  }

  lemma SentInput(s: Tier, r: nat)
    ensures SentStep(s, r).input == s.input
  {
  }

  lemma StepInput(s: Tier, step: Step)
    requires Enabled(s, step)
    ensures Apply(s, step).input == if step.Receive? then s.input + [step.message] else s.input
  {
    hide RunStep, ReceiveStep, SentStep;
    match step
    case Sent(r) => SentInput(s, r);
    case Receive(message) => ReceiveInput(s, message);
    case RunNext => RunInput(s);
    case _ =>
  }

  lemma {:induction false} InputGrows(s: Tier, steps: seq<Step>)
    requires ValidRun(s, steps)
    ensures s.input <= After(s, steps).input
    decreases |steps|
  {
    if steps != [] {
      StepInput(s, steps[0]);
      InputGrows(Apply(s, steps[0]), steps[1..]);
    }
  }

  /** An ordered input stays ordered at every message of it. */
  lemma PrefixAllows(s: Tier, message: Message, input: seq<Message>)
    requires s.input + [message] <= input && InOrder(input) && NamedOnce(input)
    ensures InputAllows(s, Receive(message))
  {
    var k := |s.input|;
    assert input[k] == (s.input + [message])[k] == message;
    assert forall j | 0 <= j < k :: input[j] == (s.input + [message])[j] == s.input[j];
    if message.Note? {
      assert Named(input, k, message.id);
      var j :| 0 <= j < k && input[j].Reply? && input[j].id == message.id;
      assert s.input[j] == input[j];
    }
    if message.Reply? {
      forall j | 0 <= j < k && s.input[j].Reply? ensures s.input[j].id != message.id { assert input[j] == s.input[j]; }
    }
  }

  lemma {:induction false} InvAfter(s: Tier, steps: seq<Step>)
    requires Inv(s) && ValidRun(s, steps) && InOrder(After(s, steps).input) && NamedOnce(After(s, steps).input)
    ensures Inv(After(s, steps))
    decreases |steps|
  {
    if steps != [] {
      var t := Apply(s, steps[0]);
      StepInput(s, steps[0]);
      InputGrows(t, steps[1..]);
      if steps[0].Receive? { PrefixAllows(s, steps[0].message, After(s, steps).input); }
      StepKeeps(s, steps[0]);
      hide Inv, Apply, InOrder, NamedOnce;
      InvAfter(t, steps[1..]);
    }
  }

  /** In every run on an ordered input, each notification is put in an outbox after the reply
      that names its id to the same session, but where a request of that session got the reply
      before its send returned, or its caller gave up between the reply and its own turn. */
  lemma NotesFollowReplies(steps: seq<Step>, i: nat)
    requires ValidRun(INIT, steps)
    requires InOrder(After(INIT, steps).input) && NamedOnce(After(INIT, steps).input)
    requires i < |After(INIT, steps).out| && After(INIT, steps).out[i].message.Note?
    ensures var t := After(INIT, steps);
      var o := t.out[i];
      Replied(t.out, i, o.session, o.message.id) || Orphan(t.requests, o.session, o.message.id)
  {
    InvAfter(INIT, steps);
    assert Follows(After(INIT, steps), i);
  }

  // -- Tiers -----------------------------------------------------------------------------

  /** The messages of one session. */
  function To(out: seq<Out>, session: Session): seq<Message>
    decreases |out|
  {
    if out == [] then []
    else
      var last := out[|out| - 1];
      To(out[..|out| - 1], session) + (if last.session == session then [last.message] else [])
  }

  lemma {:induction false} RepliedIsNamed(out: seq<Out>, k: nat, session: Session, id: Id)
    requires k <= |out| && Replied(out, k, session, id)
    ensures Named(To(out[..k], session), |To(out[..k], session)|, id)
    decreases k
  {
    var j :| 0 <= j < k && out[j].session == session && out[j].message.Reply? && out[j].message.id == id;
    var before := out[..k];
    assert before[..k - 1] == out[..k - 1];
    var messages := To(before[..k - 1], session);
    if j == k - 1 {
      assert To(before, session)[|messages|] == out[j].message;
    } else {
      RepliedIsNamed(out, k - 1, session, id);
      NamedMore(messages, if before[k - 1].session == session then [before[k - 1].message] else [], id);
    }
  }

  /** What one session reads is in order when each of its notifications follows its reply. */
  lemma {:induction false} SessionInOrder(out: seq<Out>, session: Session)
    requires forall i | 0 <= i < |out| :: out[i].session == session && out[i].message.Note? ==> Replied(out, i, session, out[i].message.id)
    ensures InOrder(To(out, session))
    decreases |out|
  {
    if out != [] {
      var k := |out| - 1;
      var rest := out[..k];
      forall i | 0 <= i < |rest| && rest[i].session == session && rest[i].message.Note?
        ensures Replied(rest, i, session, rest[i].message.id)
      {
        var j :| 0 <= j < i && out[j].session == session && out[j].message.Reply? && out[j].message.id == out[i].message.id;
        assert rest[j] == out[j];
      }
      SessionInOrder(rest, session);
      var messages := To(rest, session);
      if out[k].session == session && out[k].message.Note? { RepliedIsNamed(out, k, session, out[k].message.id); }
      forall i | 0 <= i < |To(out, session)| && To(out, session)[i].Note? ensures Named(To(out, session), i, To(out, session)[i].id) {
        if i < |messages| {
          assert Named(messages, i, messages[i].id);
          var j :| 0 <= j < i && j < |messages| && messages[j].Reply? && messages[j].id == messages[i].id;
          assert To(out, session)[j] == messages[j];
        } else {
          var id := out[k].message.id;
          assert Named(messages, |messages|, id);
          var j :| 0 <= j < |messages| && messages[j].Reply? && messages[j].id == id;
          assert To(out, session)[j] == messages[j];
        }
      }
    }
  }

  lemma PrefixInOrder(a: seq<Message>, b: seq<Message>)
    requires a <= b && InOrder(b)
    ensures InOrder(a)
  {
    forall i | 0 <= i < |a| && a[i].Note? ensures Named(a, i, a[i].id) {
      assert Named(b, i, b[i].id);
      var j :| 0 <= j < i && b[j].Reply? && b[j].id == b[i].id;
      assert a[j] == b[j];
    }
  }

  /** No reply came before the send of its request returned, and no caller gave up between
      its reply and its turn. */
  predicate NoOrphans(s: Tier) {
    forall r | 0 <= r < |s.requests| :: s.requests[r].early == None && s.requests[r].gaveUp == None
  }

  /** When no reply comes before the send of its request returned, and nobody gives up between
      a reply and its turn, every session reads each reply before the notifications that carry
      its id. */
  lemma TierInOrder(steps: seq<Step>, session: Session)
    requires ValidRun(INIT, steps) && NoOrphans(After(INIT, steps))
    requires InOrder(After(INIT, steps).input) && NamedOnce(After(INIT, steps).input)
    ensures InOrder(To(After(INIT, steps).out, session))
  {
    var t := After(INIT, steps);
    forall i | 0 <= i < |t.out| && t.out[i].session == session && t.out[i].message.Note?
      ensures Replied(t.out, i, session, t.out[i].message.id)
    {
      NotesFollowReplies(steps, i);
    }
    SessionInOrder(t.out, session);
  }

  /** The tiers of a tree, the lowest first: each tier reads a prefix of what the tier below it
      wrote to one of its sessions. */
  predicate Tower(tiers: seq<seq<Step>>, sessions: seq<Session>) {
    && |sessions| == |tiers|
    && (forall k | 0 <= k < |tiers| ::
          ValidRun(INIT, tiers[k]) && NoOrphans(After(INIT, tiers[k])) && NamedOnce(After(INIT, tiers[k]).input))
    && (forall k | 0 < k < |tiers| ::
          After(INIT, tiers[k]).input <= To(After(INIT, tiers[k - 1]).out, sessions[k - 1]))
  }

  /** Through any number of tiers, whatever the schedule of each: when the input of the lowest
      tier is ordered, every session of every tier reads a reply before the notifications
      that carry its id. */
  lemma {:induction false} TowerInOrder(tiers: seq<seq<Step>>, sessions: seq<Session>, k: nat, session: Session)
    requires Tower(tiers, sessions) && k < |tiers|
    requires InOrder(After(INIT, tiers[0]).input)
    ensures InOrder(To(After(INIT, tiers[k]).out, session))
    decreases k
  {
    var t := After(INIT, tiers[k]);
    if k > 0 {
      TowerInOrder(tiers, sessions, k - 1, sessions[k - 1]);
      PrefixInOrder(t.input, To(After(INIT, tiers[k - 1]).out, sessions[k - 1]));
    }
    TierInOrder(tiers[k], session);
  }

  lemma {:induction false} RunSnoc(s: Tier, steps: seq<Step>, step: Step)
    requires ValidRun(s, steps) && Enabled(After(s, steps), step)
    ensures ValidRun(s, steps + [step]) && After(s, steps + [step]) == Apply(After(s, steps), step)
    decreases |steps|
  {
    if steps == [] {
      assert [] + [step] == [step] && [step][1..] == [];
    } else {
      RunSnoc(Apply(s, steps[0]), steps[1..], step);
      assert (steps + [step])[1..] == steps[1..] + [step];
    }
  }

  /** One more step of a run that is written out. */
  lemma Next(steps: seq<Step>, k: nat, s: Tier)
    requires k < |steps| && ValidRun(INIT, steps[..k]) && After(INIT, steps[..k]) == s && Enabled(s, steps[k])
    ensures ValidRun(INIT, steps[..k + 1]) && After(INIT, steps[..k + 1]) == Apply(s, steps[k])
  {
    RunSnoc(INIT, steps[..k], steps[k]);
    assert steps[..k + 1] == steps[..k] + [steps[k]];
  }

  /** A subscribe whose reply, and an event after it, are handled before its send returns. */
  function EarlyReply(session: Session, tag: nat, id: Id): seq<Step> {
    [Ask(session, tag, Subscription), Receive(Reply(0, id)), Receive(Note(id)), RunNext, Sent(0)]
  }

  /** A subscribe whose caller gives up after the reply came, and an event after it. */
  function GivenUp(session: Session, tag: nat, id: Id): seq<Step> {
    [Ask(session, tag, Subscription), Sent(0), Receive(Reply(0, id)), GiveUp(0), Receive(Note(id)), RunNext, RunNext]
  }

  lemma NoRun(steps: seq<Step>)
    ensures ValidRun(INIT, steps[..0]) && After(INIT, steps[..0]) == INIT
  {
  }

  lemma EarlyStates(session: Session, tag: nat, id: Id) returns (s1: Tier, s2: Tier, s3: Tier, s4: Tier)
    ensures var steps := EarlyReply(session, tag, id);
      && Enabled(INIT, steps[0]) && Apply(INIT, steps[0]) == s1 && Enabled(s1, steps[1]) && Apply(s1, steps[1]) == s2
      && Enabled(s2, steps[2]) && Apply(s2, steps[2]) == s3 && Enabled(s3, steps[3]) && Apply(s3, steps[3]) == s4
      && Enabled(s4, steps[4])
      && var t := Apply(s4, steps[4]);
         && t.input == [Reply(0, id), Note(id)] && t.out == [Out(session, Note(id)), Out(session, Reply(tag, id))]
         && |t.requests| == 1 && t.requests[0].gaveUp == None
  {
    hide WakeStep, FollowStep, GiveUpStep, Declined;
    var q := Request(session, tag, Subscription, Sending(Nothing), None, None);
    var early := q.(phase := Sending(Granting(id)), early := Some(id));
    s1 := INIT.(requests := [q]);
    s2 := s1.(input := [Reply(0, id)], requests := [early], deliveries := map[id := 0]);
    s3 := s2.(input := [Reply(0, id), Note(id)], ready := [Handle(id)]);
    s4 := s3.(ready := [], out := [Out(session, Note(id))]);
    assert Apply(s1, Receive(Reply(0, id))) == s2 by { EarlyAnswered(s1, id); }
  }

  lemma EarlyAnswered(s: Tier, id: Id)
    requires |s.requests| == 1 && s.requests[0].phase == Sending(Nothing) && s.requests[0].kind == Subscription && s.deliveries == map[]
    ensures ReceiveStep(s, Reply(0, id)) == s.(
      input := s.input + [Reply(0, id)], requests := [s.requests[0].(phase := Sending(Granting(id)), early := Some(id))],
      deliveries := map[id := 0])
  {
  }

  /** A reply that comes before the send of its request returned leaves a notification ahead of
      it, on an ordered input, though nobody gives up. */
  lemma EarlyReplyBreaksOrder(session: Session, tag: nat, id: Id)
    ensures var steps := EarlyReply(session, tag, id);
      && ValidRun(INIT, steps)
      && InOrder(After(INIT, steps).input) && NamedOnce(After(INIT, steps).input)
      && To(After(INIT, steps).out, session) == [Note(id), Reply(tag, id)]
      && forall r | 0 <= r < |After(INIT, steps).requests| :: After(INIT, steps).requests[r].gaveUp == None
  {
    hide After, ValidRun, Apply, Enabled, EarlyReply, To, InOrder, NamedOnce;
    var steps := EarlyReply(session, tag, id);
    var s1, s2, s3, s4 := EarlyStates(session, tag, id);
    assert |steps| == 5 && steps[..5] == steps by { EarlyLength(session, tag, id); }
    NoRun(steps);
    Next(steps, 0, INIT);
    Next(steps, 1, s1);
    Next(steps, 2, s2);
    Next(steps, 3, s3);
    Next(steps, 4, s4);
    OneReplyOneNote(id);
    TwoMessages(session, Note(id), Reply(tag, id));
  }

  lemma EarlyLength(session: Session, tag: nat, id: Id)
    ensures |EarlyReply(session, tag, id)| == 5 && |GivenUp(session, tag, id)| == 7
  {
  }

  lemma GivenUpStates(session: Session, tag: nat, id: Id) returns (s1: Tier, s2: Tier, s3: Tier, s4: Tier, s5: Tier, s6: Tier)
    ensures var steps := GivenUp(session, tag, id);
      && Enabled(INIT, steps[0]) && Apply(INIT, steps[0]) == s1 && Enabled(s1, steps[1]) && Apply(s1, steps[1]) == s2
      && Enabled(s2, steps[2]) && Apply(s2, steps[2]) == s3 && Enabled(s3, steps[3]) && Apply(s3, steps[3]) == s4
      && Enabled(s4, steps[4]) && Apply(s4, steps[4]) == s5 && Enabled(s5, steps[5]) && Apply(s5, steps[5]) == s6
      && Enabled(s6, steps[6])
      && var t := Apply(s6, steps[6]);
         && t.input == [Reply(0, id), Note(id)] && t.out == [Out(session, Note(id))]
         && |t.requests| == 1 && t.requests[0].early == None
  {
    hide FollowStep, Declined;
    var q := Request(session, tag, Subscription, Waiting, None, None);
    var gone := q.(phase := Over, gaveUp := Some(id));
    s1 := INIT.(requests := [q.(phase := Sending(Nothing))]);
    s2 := INIT.(requests := [q]);
    s3 := s2.(input := [Reply(0, id)], requests := [q.(phase := Granted(id))], deliveries := map[id := 0], ready := [Wake(0)]);
    s4 := s3.(requests := [gone]);
    s5 := s4.(input := [Reply(0, id), Note(id)], ready := [Wake(0), Handle(id)]);
    s6 := s5.(ready := [Handle(id)]);
    assert Apply(s2, Receive(Reply(0, id))) == s3 by { WaitingAnswered(s2, id); }
  }

  lemma WaitingAnswered(s: Tier, id: Id)
    requires |s.requests| == 1 && s.requests[0].phase == Waiting && s.requests[0].kind == Subscription && s.deliveries == map[]
    ensures ReceiveStep(s, Reply(0, id)) == s.(
      input := s.input + [Reply(0, id)], requests := [s.requests[0].(phase := Granted(id))],
      deliveries := map[id := 0], ready := s.ready + [Wake(0)])
  {
  }

  /** A caller that gives up before its turn leaves a notification without its reply, on an
      ordered input, though no reply came early. */
  lemma GivingUpBreaksOrder(session: Session, tag: nat, id: Id)
    ensures var steps := GivenUp(session, tag, id);
      && ValidRun(INIT, steps)
      && InOrder(After(INIT, steps).input) && NamedOnce(After(INIT, steps).input)
      && To(After(INIT, steps).out, session) == [Note(id)]
      && forall r | 0 <= r < |After(INIT, steps).requests| :: After(INIT, steps).requests[r].early == None
  {
    hide After, ValidRun, Apply, Enabled, GivenUp, To, InOrder, NamedOnce;
    var steps := GivenUp(session, tag, id);
    var s1, s2, s3, s4, s5, s6 := GivenUpStates(session, tag, id);
    assert |steps| == 7 && steps[..7] == steps by { EarlyLength(session, tag, id); }
    NoRun(steps);
    Next(steps, 0, INIT);
    Next(steps, 1, s1);
    Next(steps, 2, s2);
    Next(steps, 3, s3);
    Next(steps, 4, s4);
    Next(steps, 5, s5);
    Next(steps, 6, s6);
    OneReplyOneNote(id);
    OneMessage(session, Note(id));
  }

  lemma OneReplyOneNote(id: Id)
    ensures InOrder([Reply(0, id), Note(id)]) && NamedOnce([Reply(0, id), Note(id)])
  {
    assert Named([Reply(0, id), Note(id)], 1, id) by { assert [Reply(0, id), Note(id)][0] == Reply(0, id); }
  }

  lemma OneMessage(session: Session, message: Message)
    ensures To([Out(session, message)], session) == [message]
  {
    assert To([Out(session, message)][..0], session) == [];
  }

  lemma TwoMessages(session: Session, first: Message, second: Message)
    ensures To([Out(session, first), Out(session, second)], session) == [first, second]
  {
    OneMessage(session, first);
    assert [Out(session, first), Out(session, second)][..1] == [Out(session, first)];
  }
}
