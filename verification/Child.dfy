/** The proxy of a child engine as a step machine: its requests and their replies, late
    replies, the subscriptions it records, the completions it waits for, and its end.

    A request is known by its number. The code between two awaits is one step. A timeout or a
    cancellation first strikes a caller, and its except-branch runs in a later step, so a
    message of the child can arrive between the two. */
module Child {
  import opened Wrappers
  import opened Sequences
  import opened Commands
  import Engine

  /** How many requests whose caller stopped waiting are remembered for a late reply. */
  const LATE_KEPT := 1024

  /** A result the child sent: its return code is OK or not, and the id it assigns. An error
      or a result outside the catalog is not OK. */
  datatype Reply = Reply(ok: bool, id: string)

  const FAILED := Reply(false, "")

  datatype Future = Unset | Set(reply: Reply) | Withdrawn

  datatype Kind = Plain | Subscribe | Execute(command: string) | SetParameter

  datatype End = Replied(reply: Reply) | Followed(status: Status) | TimedOut | GivenUp

  /** Where a caller is: sending, waiting for its reply, struck by a timeout or a cancellation,
      waiting for the completion of what it started, or back. */
  datatype Phase = Sending | Awaiting | Struck(timeout: bool) | Following | Over(end: End)

  /** What became of a granted subscription: its id is foreign, another request recorded it,
      or it was this request's to record or to end. */
  datatype Verdict = Undecided | Foreign | Theirs | Ours

  /** `done` is the completion a caller follows. The rest is history: how many replies the
      request consumed, the ids the child granted it, whether it recorded one, how many
      unsubscribes it started because its caller was gone, whether it was remembered for a
      reply that had come already, and whether it was forgotten. */
  datatype Request = Request(kind: Kind, phase: Phase, future: Future, done: Option<Status>,
                             consumed: nat, granted: set<string>, recorded: bool, ends: nat,
                             verdict: Verdict, vain: bool, forgotten: bool)

  /** A task that ends a subscription nobody holds, for the request that was granted it.
      `begun` once it started or was cancelled. */
  datatype Ending = Ending(id: string, request: nat, begun: bool)

  /** `pending` and `late` are the requests a reply can still reach, `late` oldest first.
      `running`, `parameters` and `deliveries` name the request that waits for an id. */
  datatype Proxy = Proxy(open: bool, engineIds: set<string>, requests: seq<Request>, pending: set<nat>,
                         late: seq<nat>, running: map<string, nat>, parameters: map<string, nat>,
                         deliveries: map<string, nat>, endings: seq<Ending>)

  const INIT := Proxy(true, {}, [], {}, [], map[], map[], map[], [])

  // -- The pieces of a step --------------------------------------------------------------

  /** `_owns`. */
  predicate Owns(engineIds: set<string>, id: string) {
    var owner := Engine.OwnerPart(id);
    owner.Some? && owner.value in engineIds && |id| > |owner.value| + 1
  }

  function Put(s: Proxy, r: nat, request: Request): Proxy
    requires r < |s.requests|
  {
    s.(requests := s.requests[r := request])
  }

  /** The `finally` of `_execute`. */
  function Unlist(s: Proxy, kind: Kind): Proxy {
    if kind.Execute? then s.(running := s.running - {kind.command}) else s
  }

  function NewRequest(kind: Kind, phase: Phase): Request {
    Request(kind, phase, Unset, None, 0, {}, false, 0, Undecided, false, false)
  }

  /** The start of `_request`. A closed connection answers ERROR at once. */
  function CallStep(s: Proxy, kind: Kind): Proxy {
    var r := |s.requests|;
    if !s.open then
      Unlist(s.(requests := s.requests + [NewRequest(kind, Over(Replied(FAILED)))]), kind)
    else
      s.(requests := s.requests + [NewRequest(kind, Sending)], pending := s.pending + {r},
         running := if kind.Execute? then s.running[kind.command := r] else s.running)
  }

  /** `end_late`: end a granted subscription whose caller is gone. */
  function EndLate(s: Proxy, r: nat, id: string): Proxy
    requires r < |s.requests|
  {
    var request := s.requests[r];
    if !Owns(s.engineIds, id) then Put(s, r, request.(verdict := Foreign))
    else if id in s.deliveries && !request.recorded then Put(s, r, request.(verdict := Theirs))
    else Put(s, r, request.(verdict := Ours, ends := request.ends + 1)).(endings := s.endings + [Ending(id, r, false)])
  }

  /** `_remember_late`: the oldest entry is forgotten beyond what is kept. */
  function Remember(s: Proxy, r: nat): Proxy
    requires r < |s.requests|
  {
    if !s.requests[r].kind.Subscribe? then s
    else
      var m := Put(s, r, s.requests[r].(vain := s.requests[r].consumed > 0)).(late := s.late + [r]);
      if |m.late| > LATE_KEPT && m.late[0] < |m.requests| then
        Put(m, m.late[0], m.requests[m.late[0]].(forgotten := true)).(late := m.late[1..])
      else m
  }

  /** Leave `_request`, and `_execute` with it. */
  function Leave(s: Proxy, r: nat, end: End): Proxy
    requires r < |s.requests|
  {
    Unlist(Put(s, r, s.requests[r].(phase := Over(end))).(pending := s.pending - {r}), s.requests[r].kind)
  }

  // -- The steps -------------------------------------------------------------------------

  datatype Step =
    | Call(kind: Kind)
    | Sent(r: nat)
    | SendFails(r: nat)
    | Strike(r: nat, timeout: bool)          // a timeout or a cancellation of the caller
    | Unwind(r: nat)                         // its except-branch
    | Wake(r: nat)                           // the caller sees its reply
    | HandleReply(r: nat, reply: Reply)
    | Completed(id: string, status: Status)  // a completed notification
    | Follow(r: nat)                         // the caller sees its completion
    | StopFollowing(r: nat, timeout: bool)
    | Unsubscribe(id: string)                // the engine ends a subscription
    | BeginEnding(k: nat)                    // the task of a late unsubscribe starts
    | SetEngineIds(ids: set<string>)         // the profile of the child changed
    | Detach

  predicate Enabled(s: Proxy, step: Step) {
    match step
    case Call(_) => true
    case Sent(r) => r < |s.requests| && s.requests[r].phase == Sending
    case SendFails(r) => r < |s.requests| && s.requests[r].phase == Sending
    case Strike(r, timeout) =>
      r < |s.requests| && match s.requests[r].phase {
        case Sending => !timeout
        case Awaiting => true
        case Struck(_) => !timeout
        case _ => false
      }
    case Unwind(r) => r < |s.requests| && s.requests[r].phase.Struck?
    case Wake(r) => r < |s.requests| && s.requests[r].phase == Awaiting && s.requests[r].future.Set?
    case HandleReply(r, _) => true
    case Completed(_, _) => true
    case Follow(r) => r < |s.requests| && s.requests[r].phase == Following && s.requests[r].done.Some?
    case StopFollowing(r, timeout) =>
      r < |s.requests| && s.requests[r].phase == Following && (timeout ==> s.requests[r].kind.SetParameter?)
    case Unsubscribe(_) => true
    case BeginEnding(k) => k < |s.endings| && !s.endings[k].begun
    case SetEngineIds(_) => true
    case Detach => true
  }

  function StrikeStep(s: Proxy, r: nat, timeout: bool): Proxy
    requires r < |s.requests|
  {
    var request := s.requests[r];
    Put(s, r, request.(phase := Struck(timeout),
                       future := if request.phase == Awaiting && request.future == Unset then Withdrawn else request.future))
  }

  function UnwindStep(s: Proxy, r: nat): Proxy
    requires r < |s.requests| && s.requests[r].phase.Struck?
  {
    var request := s.requests[r];
    if request.phase.timeout then Leave(Remember(s, r), r, TimedOut)
    else if !request.future.Set? then Leave(Remember(s, r), r, GivenUp)
    else if request.kind.Subscribe? && request.future.reply.ok then
      Leave(EndLate(s, r, request.future.reply.id), r, GivenUp)
    else Leave(s, r, GivenUp)
  }

  function WakeStep(s: Proxy, r: nat): Proxy
    requires r < |s.requests| && s.requests[r].future.Set?
  {
    var request := s.requests[r];
    if request.future.reply.ok && (request.kind.Execute? || request.kind.SetParameter?) then
      Put(s, r, request.(phase := Following)).(pending := s.pending - {r})
    else Leave(s, r, Replied(request.future.reply))
  }

  /** `record` of subscribe: whose the granted id is. */
  function Judge(s: Proxy, id: string): Verdict {
    if !Owns(s.engineIds, id) then Foreign else if id in s.deliveries then Theirs else Ours
  }

  /** `record` of set_parameter refuses an id that is foreign or in use. */
  predicate Refuses(s: Proxy, id: string) {
    !Owns(s.engineIds, id) || id in s.parameters
  }

  /** A request whose reply came while its caller may still wait: its hook records what the
      reply grants, or turns it into ERROR. */
  function Answered(s: Proxy, q: Request, reply: Reply): Request {
    if q.kind.Subscribe? && reply.ok then
      var verdict := Judge(s, reply.id);
      Resolved(q, if verdict == Ours then reply else FAILED).(
        consumed := q.consumed + 1, granted := q.granted + {reply.id}, verdict := verdict, recorded := verdict == Ours)
    else if q.kind.SetParameter? && reply.ok && Refuses(s, reply.id) then
      Resolved(q, FAILED).(consumed := q.consumed + 1)
    else Resolved(q, reply).(consumed := q.consumed + 1)
  }

  /** `_handle_reply` for a pending request: it is answered and its caller woken. */
  function PendingReply(s: Proxy, r: nat, reply: Reply): Proxy
    requires r < |s.requests|
  {
    var q := s.requests[r];
    Put(s, r, Answered(s, q, reply)).(
      pending := s.pending - {r},
      deliveries := if q.kind.Subscribe? && reply.ok && Judge(s, reply.id) == Ours then s.deliveries[reply.id := r] else s.deliveries,
      parameters := if q.kind.SetParameter? && reply.ok && !Refuses(s, reply.id) then s.parameters[reply.id := r] else s.parameters)
  }

  function Resolved(request: Request, reply: Reply): Request {
    request.(future := if request.future == Unset then Set(reply) else request.future)
  }

  /** `_handle_reply` for a request whose caller stopped waiting. */
  function LateReply(s: Proxy, r: nat, reply: Reply): Proxy
    requires r < |s.requests|
  {
    var request := s.requests[r].(consumed := s.requests[r].consumed + 1,
                                  granted := if reply.ok then s.requests[r].granted + {reply.id} else s.requests[r].granted);
    var m := Put(s, r, request).(late := Without(s.late, r));
    if reply.ok then EndLate(m, r, reply.id) else m
  }

  /** `_handle_reply`: a request number nobody waits for is ignored. */
  function ReplyStep(s: Proxy, r: nat, reply: Reply): Proxy {
    if r >= |s.requests| then s
    else if r in s.pending then PendingReply(s, r, reply)
    else if r in s.late then LateReply(s, r, reply)
    else s
  }

  function Complete(s: Proxy, r: nat, status: Status): Proxy {
    if r < |s.requests| && s.requests[r].done == None then Put(s, r, s.requests[r].(done := Some(status))) else s
  }

  function CompletedStep(s: Proxy, id: string, status: Status): Proxy {
    if id in s.running then Complete(s, s.running[id], status)
    else if id in s.parameters then Complete(s, s.parameters[id], status)
    else s
  }

  /** The caller of an execute or a set_parameter is back. */
  function BackStep(s: Proxy, r: nat, end: End): Proxy
    requires r < |s.requests|
  {
    var request := s.requests[r];
    var m := Unlist(Put(s, r, request.(phase := Over(end))), request.kind);
    if request.kind.SetParameter? && request.future.Set? then
      m.(parameters := m.parameters - {request.future.reply.id})
    else m
  }

  function UnsubscribeStep(s: Proxy, id: string): Proxy {
    CallStep(s.(deliveries := s.deliveries - {id}), Plain)
  }

  /** Every caller that waits on the child is woken with ERROR, and the child is forgotten. */
  function DetachStep(s: Proxy): Proxy {
    s.(open := false, pending := {}, late := [], running := map[], parameters := map[], deliveries := map[],
       endings := seq(|s.endings|, i requires 0 <= i < |s.endings| => s.endings[i].(begun := true)),
       requests := seq(|s.requests|, i requires 0 <= i < |s.requests| => Detached(s, i)))
  }

  function Detached(s: Proxy, i: nat): Request
    requires i < |s.requests|
  {
    var woken := if i in s.pending then Resolved(s.requests[i], FAILED) else s.requests[i];
    if (i in s.running.Values || i in s.parameters.Values) && woken.done == None then woken.(done := Some(ERROR)) else woken
  }

  function Apply(s: Proxy, step: Step): Proxy
    requires Enabled(s, step)
  {
    match step
    case Call(kind) => CallStep(s, kind)
    case Sent(r) => Put(s, r, s.requests[r].(phase := Awaiting))
    case SendFails(r) => Leave(s, r, Replied(FAILED))
    case Strike(r, timeout) => StrikeStep(s, r, timeout)
    case Unwind(r) => UnwindStep(s, r)
    case Wake(r) => WakeStep(s, r)
    case HandleReply(r, reply) => ReplyStep(s, r, reply)
    case Completed(id, status) => CompletedStep(s, id, status)
    case Follow(r) => BackStep(s, r, Followed(s.requests[r].done.value))
    case StopFollowing(r, timeout) => BackStep(s, r, if timeout then Followed(ERROR) else GivenUp)
    case Unsubscribe(id) => UnsubscribeStep(s, id)
    case BeginEnding(k) => UnsubscribeStep(s, s.endings[k].id).(endings := s.endings[k := s.endings[k].(begun := true)])
    case SetEngineIds(ids) => s.(engineIds := ids)
    case Detach => DetachStep(s)
  }

  predicate ValidRun(s: Proxy, steps: seq<Step>)
    decreases |steps|
  {
    steps == [] || (Enabled(s, steps[0]) && ValidRun(Apply(s, steps[0]), steps[1..]))
  }

  function After(s: Proxy, steps: seq<Step>): Proxy
    requires ValidRun(s, steps)
    decreases |steps|
  {
    if steps == [] then s else After(Apply(s, steps[0]), steps[1..])
  }
}
