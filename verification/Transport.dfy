/** The transport of a client as a step machine: one connection at a time, and the requests
    waiting on it. Each step is one call, one event of a socket, or one timer. */
module Transport {
  import opened Wrappers
  import opened Numbers

  datatype State = DISCONNECTED | CONNECTING | CONNECTED | CLOSING

  /** What settles a send: its reply, its timer, or the end of its connection. */
  datatype Outcome = Answered | TimedOut | Dropped

  /** A send: the id of its request, whether it was accepted, as it is unless the socket threw,
      and the times its promise was settled. */
  datatype Sent = Sent(id: string, accepted: bool, socket: nat, outcomes: seq<Outcome>)

  datatype Event = Open | Close

  /** A message of the gateway: a response with an id, or anything else. */
  datatype Message = Response(id: string) | Other

  /** `wired` are the sockets whose handlers are set, and `connectTimers` and `timers` the
      timers that run, of connects and of sends. `everOpened` are the sockets that everOpened.
      `connects` is how each connect() was settled, and `log` the events listeners saw. */
  datatype Transport = Transport(state: State, ws: Option<nat>, pending: map<string, nat>, nextId: nat,
                                 abortConnect: Option<nat>, wired: set<nat>, connectTimers: set<nat>, timers: set<string>,
                                 everOpened: set<nat>, connects: seq<seq<bool>>, sends: seq<Sent>, log: seq<Event>)

  const INIT := Transport(DISCONNECTED, None, map[], 1, None, {}, {}, {}, {}, [], [], [])

  const MAX_CLOSE_REASON_BYTES := 123

  /** `generateId`. */
  function RequestId(n: nat): string {
    "req-" + Decimal(n)
  }

  /** The id of a send, by its number. */
  function SendId(i: nat): string {
    RequestId(i + 1)
  }

  // -- The pieces of a step --------------------------------------------------------------

  function Settle(s: Transport, i: nat, outcome: Outcome): Transport
    requires i < |s.sends|
  {
    s.(sends := s.sends[i := s.sends[i].(outcomes := s.sends[i].outcomes + [outcome])])
  }

  /** `rejectAllPending`. */
  function RejectAll(s: Transport): Transport {
    s.(sends := seq(|s.sends|, i requires 0 <= i < |s.sends| =>
         if i in s.pending.Values then s.sends[i].(outcomes := s.sends[i].outcomes + [Dropped]) else s.sends[i]),
       pending := map[], timers := s.timers - s.pending.Keys)
  }

  /** `cleanupSocket`. */
  function Cleanup(s: Transport): Transport {
    if s.ws.Some? then s.(wired := s.wired - {s.ws.value}, ws := None) else s
  }

  function SettleConnect(s: Transport, k: nat, ok: bool): Transport {
    if k < |s.connects| then s.(connects := s.connects[k := s.connects[k] + [ok]]) else s
  }

  /** `fail` of the connect() that made socket k. */
  function Fail(s: Transport, k: nat): Transport {
    SettleConnect(Cleanup(s.(connectTimers := s.connectTimers - {k}, abortConnect := None)).(state := DISCONNECTED), k, false)
  }

  // -- The steps -------------------------------------------------------------------------

  datatype Step =
    | Connect(throws: bool)                // the socket factory may throw
    | Opens(k: nat)
    | Errors(k: nat)
    | Closes(k: nat)
    | Receives(k: nat, message: Message)
    | ConnectTimeout(k: nat)
    | Send(throws: bool)                   // the socket may throw
    | RequestTimeout(id: string)
    | CloseCall(code: int, reasonBytes: nat, throws: bool)

  /** A timer fires while it runs, and a socket opens once. */
  predicate Enabled(s: Transport, step: Step) {
    match step
    case Opens(k) => k !in s.everOpened
    case ConnectTimeout(k) => k in s.connectTimers
    case RequestTimeout(id) => id in s.timers
    case _ => true
  }

  /** `connect`: refused unless disconnected. */
  function ConnectStep(s: Transport, throws: bool): Transport {
    var k := |s.connects|;
    if s.state != DISCONNECTED then s
    else if throws then s.(connects := s.connects + [[false]])
    else s.(state := CONNECTING, ws := Some(k), connectTimers := s.connectTimers + {k}, abortConnect := Some(k),
            wired := s.wired + {k}, connects := s.connects + [[]])
  }

  function OpensStep(s: Transport, k: nat): Transport {
    if k !in s.wired then s
    else
      SettleConnect(s.(connectTimers := s.connectTimers - {k}, abortConnect := None, state := CONNECTED,
                       everOpened := s.everOpened + {k}, log := s.log + [Open]), k, true)
  }

  function ErrorsStep(s: Transport, k: nat): Transport {
    if k in s.wired && s.state == CONNECTING then Fail(s, k) else s
  }

  /** `handleClose`. */
  function HandleClose(s: Transport): Transport {
    var wasConnected := s.state == CONNECTED;
    Cleanup(RejectAll(s)).(state := DISCONNECTED, log := if wasConnected then s.log + [Close] else s.log)
  }

  function ClosesStep(s: Transport, k: nat): Transport {
    if k !in s.wired then s else if s.state == CONNECTING then Fail(s, k) else HandleClose(s)
  }

  /** `handleResponse` and `handleErrorResponse` settle the request of their id. */
  function ReceivesStep(s: Transport, k: nat, message: Message): Transport {
    if k in s.wired && message.Response? && message.id in s.pending && s.pending[message.id] < |s.sends| then
      Settle(s, s.pending[message.id], Answered).(pending := s.pending - {message.id}, timers := s.timers - {message.id})
    else s
  }

  /** `send`: refused unless connected. */
  function SendStep(s: Transport, throws: bool): Transport {
    if s.state != CONNECTED || s.ws == None then s
    else
      var i := |s.sends|;
      var id := RequestId(s.nextId);
      var m := s.(nextId := s.nextId + 1, sends := s.sends + [Sent(id, !throws, s.ws.value, [])]);
      if throws then m else m.(pending := m.pending[id := i], timers := m.timers + {id})
  }

  function TimeoutStep(s: Transport, id: string): Transport {
    if id in s.pending && s.pending[id] < |s.sends| then
      Settle(s, s.pending[id], TimedOut).(pending := s.pending - {id}, timers := s.timers - {id})
    else s.(timers := s.timers - {id})
  }

  /** The codes and reasons a client may close with. */
  predicate MayClose(code: int, reasonBytes: nat) {
    (code == 1000 || 3000 <= code <= 4999) && reasonBytes <= MAX_CLOSE_REASON_BYTES
  }

  /** `close`. */
  function CloseStep(s: Transport, code: int, reasonBytes: nat, throws: bool): Transport {
    if !MayClose(code, reasonBytes) || s.state == DISCONNECTED || s.ws == None then s
    else if s.abortConnect.Some? then Fail(s, s.abortConnect.value)
    else if throws then s
    else Cleanup(RejectAll(s.(state := CLOSING))).(state := DISCONNECTED, log := s.log + [Close])
  }

  function Apply(s: Transport, step: Step): Transport {
    match step
    case Connect(throws) => ConnectStep(s, throws)
    case Opens(k) => OpensStep(s, k)
    case Errors(k) => ErrorsStep(s, k)
    case Closes(k) => ClosesStep(s, k)
    case Receives(k, message) => ReceivesStep(s, k, message)
    case ConnectTimeout(k) => Fail(s, k)
    case Send(throws) => SendStep(s, throws)
    case RequestTimeout(id) => TimeoutStep(s, id)
    case CloseCall(code, reasonBytes, throws) => CloseStep(s, code, reasonBytes, throws)
  }

  predicate ValidRun(s: Transport, steps: seq<Step>)
    decreases |steps|
  {
    steps == [] || (Enabled(s, steps[0]) && ValidRun(Apply(s, steps[0]), steps[1..]))
  }

  function After(s: Transport, steps: seq<Step>): Transport
    decreases |steps|
  {
    if steps == [] then s else After(Apply(s, steps[0]), steps[1..])
  }

  // -- The invariant ---------------------------------------------------------------------

  /** The events of a transport, from its first: open and close in turn. */
  predicate Alternates(log: seq<Event>) {
    forall i | 0 <= i < |log| :: log[i] == if i % 2 == 0 then Open else Close
  }

  /** The socket, its handlers, its timer and its abort all belong to the one connection. */
  predicate OneConnection(s: Transport) {
    && s.state != CLOSING
    && (s.ws.Some? <==> s.state != DISCONNECTED)
    && s.wired == (if s.ws.Some? then {s.ws.value} else {})
    && s.abortConnect == (if s.state == CONNECTING then s.ws else None)
    && s.connectTimers == (if s.abortConnect.Some? then {s.abortConnect.value} else {})
    && (s.ws.Some? ==> s.ws.value < |s.connects| && (s.state == CONNECTING ==> s.ws.value !in s.everOpened))
    && (s.state == CONNECTED ==> s.ws.value in s.everOpened)
    && (forall k <- s.everOpened :: k < |s.connects|)
  }

  /** Each connect() is settled once, but for the one in progress. */
  predicate ConnectsSettled(s: Transport) {
    forall k | 0 <= k < |s.connects| ::
      |s.connects[k]| == if s.abortConnect == Some(k) then 0 else 1
  }

  /** Each send bears the id of its own number, and the requests that wait are those of the
      connection that no outcome settled yet. */
  predicate Waiting(s: Transport) {
    && s.nextId == |s.sends| + 1 && (forall i | 0 <= i < |s.sends| :: s.sends[i].id == SendId(i))
    && (forall id <- s.pending :: s.pending[id] < |s.sends| && id == SendId(s.pending[id]))
    && s.timers == s.pending.Keys
    && (s.state != CONNECTED ==> s.pending == map[])
  }

  predicate SettledOnce(s: Transport) {
    forall i | 0 <= i < |s.sends| ::
      && |s.sends[i].outcomes| <= 1
      && (!s.sends[i].accepted ==> s.sends[i].outcomes == [])
      && (s.sends[i].accepted && s.sends[i].outcomes == [] <==> SendId(i) in s.pending)
      && (SendId(i) in s.pending ==> s.ws == Some(s.sends[i].socket))
  }

  predicate Inv(s: Transport) {
    && OneConnection(s) && ConnectsSettled(s) && Waiting(s) && SettledOnce(s)
    && Alternates(s.log) && (s.state == CONNECTED <==> |s.log| % 2 == 1)
  }

  lemma RequestIdInjective(m: nat, n: nat)
    requires RequestId(m) == RequestId(n)
    ensures m == n
  {
    var a, b := RequestId(m), RequestId(n);
    assert a[4..] == Decimal(m) && b[4..] == Decimal(n);
    DecimalInjective(m, n);
  }

  /** A pending id finds the send it was made for. */
  lemma PendingIsOwn(s: Transport, i: nat)
    requires Waiting(s) && i < |s.sends|
    ensures SendId(i) in s.pending <==> i in s.pending.Values
    ensures SendId(i) in s.pending ==> s.pending[SendId(i)] == i
  {
    if SendId(i) in s.pending { RequestIdInjective(i + 1, s.pending[SendId(i)] + 1); }
    if i in s.pending.Values {
      var id :| id in s.pending && s.pending[id] == i;
    }
  }

  lemma SettleKeeps(s: Transport, id: string, outcome: Outcome)
    requires Inv(s) && id in s.pending
    ensures s.pending[id] < |s.sends|
    ensures Inv(Settle(s, s.pending[id], outcome).(pending := s.pending - {id}, timers := s.timers - {id}))
  {
    var i := s.pending[id];
    var t := Settle(s, i, outcome).(pending := s.pending - {id}, timers := s.timers - {id});
    forall j | 0 <= j < |t.sends|
      ensures t.sends[j].accepted && t.sends[j].outcomes == [] <==> SendId(j) in t.pending
      ensures |t.sends[j].outcomes| <= 1
    {
      if j != i && SendId(j) == id { RequestIdInjective(j + 1, i + 1); }
    }
  }

  lemma RejectAllSettles(s: Transport)
    requires Waiting(s) && SettledOnce(s)
    ensures var t := RejectAll(s);
      t.pending == map[] && t.timers == {} && |t.sends| == |s.sends|
      && forall i | 0 <= i < |t.sends| ::
           && |t.sends[i].outcomes| <= 1 && t.sends[i].accepted == s.sends[i].accepted
           && (t.sends[i].accepted <==> t.sends[i].outcomes != [])
  {
    var t := RejectAll(s);
    forall i | 0 <= i < |t.sends|
      ensures |t.sends[i].outcomes| <= 1 && (t.sends[i].accepted <==> t.sends[i].outcomes != [])
    {
      PendingIsOwn(s, i);
    }
  }

  /** A new request id is not pending, and names none of the sends before it. */
  lemma NewIdIsFree(s: Transport)
    requires Waiting(s)
    ensures RequestId(s.nextId) == SendId(|s.sends|) && RequestId(s.nextId) !in s.pending
    ensures forall j: nat | j < |s.sends| :: SendId(j) != SendId(|s.sends|)
  {
    hide RequestId;
    var id := RequestId(s.nextId);
    if id in s.pending { RequestIdInjective(s.nextId, s.pending[id] + 1); }
    forall j: nat | j < |s.sends| ensures SendId(j) != SendId(|s.sends|) {
      if SendId(j) == SendId(|s.sends|) { RequestIdInjective(j + 1, |s.sends| + 1); }
    }
  }

  lemma SendSettles(s: Transport, throws: bool)
    requires Inv(s)
    ensures SettledOnce(SendStep(s, throws))
  {
    NewIdIsFree(s);
    hide RequestId, SendId, OneConnection, ConnectsSettled, Alternates;
    var t := SendStep(s, throws);
    forall j | 0 <= j < |t.sends|
      ensures |t.sends[j].outcomes| <= 1
      ensures !t.sends[j].accepted ==> t.sends[j].outcomes == []
      ensures t.sends[j].accepted && t.sends[j].outcomes == [] <==> SendId(j) in t.pending
      ensures SendId(j) in t.pending ==> t.ws == Some(t.sends[j].socket)
    {
      if j < |s.sends| { assert t.sends[j] == s.sends[j]; }
    }
  }

  lemma SendKeeps(s: Transport, throws: bool)
    requires Inv(s)
    ensures Inv(SendStep(s, throws))
  {
    SendSettles(s, throws);
    NewIdIsFree(s);
    hide RequestId, SendId, SettledOnce;
  }

  lemma FailKeeps(s: Transport, k: nat)
    requires Inv(s) && s.abortConnect == Some(k)
    ensures Inv(Fail(s, k))
  {
  }

  lemma EndKeeps(s: Transport)
    requires Inv(s) && s.state == CONNECTED
    ensures Inv(Cleanup(RejectAll(s)).(state := DISCONNECTED, log := s.log + [Close]))
  {
    RejectAllSettles(s);
  }

  lemma OpensKeeps(s: Transport, k: nat)
    requires Inv(s) && Enabled(s, Opens(k))
    ensures Inv(OpensStep(s, k))
  {
    var t := OpensStep(s, k);
    if k in s.wired {
      assert s.state == CONNECTING && s.pending == map[];
      assert t.connectTimers == {};
      assert t.sends == s.sends && t.connects[k] == [true];
      assert Alternates(t.log) && |t.log| % 2 == 1;
    }
    hide RequestId;
  }

  lemma ConnectKeeps(s: Transport, throws: bool)
    requires Inv(s)
    ensures Inv(ConnectStep(s, throws))
  {
    hide RequestId;
  }

  lemma StepKeeps(s: Transport, step: Step)
    requires Inv(s) && Enabled(s, step)
    ensures Inv(Apply(s, step))
  {
    match step
    case Connect(throws) => ConnectKeeps(s, throws);
    case Opens(k) => OpensKeeps(s, k);
    case Errors(k) => if s.abortConnect == Some(k) { FailKeeps(s, k); }
    case Closes(k) => if s.abortConnect == Some(k) { FailKeeps(s, k); } else if k in s.wired { EndKeeps(s); }
    case Receives(k, message) => if message.Response? && message.id in s.pending { SettleKeeps(s, message.id, Answered); }
    case ConnectTimeout(k) => FailKeeps(s, k);
    case Send(throws) => SendKeeps(s, throws);
    case RequestTimeout(id) => SettleKeeps(s, id, TimedOut);
    case CloseCall(code, reasonBytes, throws) =>
      if s.abortConnect.Some? { FailKeeps(s, s.abortConnect.value); }
      else if s.state == CONNECTED {
        EndKeeps(s);
        ClosingEnds(s);
      }
    hide RequestId, RejectAll, ConnectsSettled, SettledOnce, Waiting, Alternates;
  }

  /** Passing through CLOSING changes nothing that stays. */
  lemma ClosingEnds(s: Transport)
    ensures Cleanup(RejectAll(s.(state := CLOSING))).(state := DISCONNECTED, log := s.log + [Close])
            == Cleanup(RejectAll(s)).(state := DISCONNECTED, log := s.log + [Close])
  {
    assert RejectAll(s.(state := CLOSING)) == RejectAll(s).(state := CLOSING);
  }

  lemma {:induction false} InvAfter(s: Transport, steps: seq<Step>)
    requires Inv(s) && ValidRun(s, steps)
    ensures Inv(After(s, steps))
    decreases |steps|
  {
    if steps != [] {
      StepKeeps(s, steps[0]);
      hide Inv, Apply;
      InvAfter(Apply(s, steps[0]), steps[1..]);
    }
  }

  // -- Over every run --------------------------------------------------------------------

  /** In every run an accepted send is settled at most once. It waits while its connection is
      the current, open one and nothing settled it, and so never after that connection. */
  lemma SentSettlesOnce(steps: seq<Step>, i: nat)
    requires ValidRun(INIT, steps) && i < |After(INIT, steps).sends|
    ensures var s := After(INIT, steps);
      && |s.sends[i].outcomes| <= 1
      && (s.sends[i].accepted && s.sends[i].outcomes == [] ==> s.state == CONNECTED && s.ws == Some(s.sends[i].socket))
  {
    InvAfter(INIT, steps);
  }

  /** A step settles a send only by the response with its own id on its own connection, by
      its own timer, or by the end of its connection. */
  lemma SettledOnlyBy(s: Transport, step: Step, i: nat)
    requires Inv(s) && Enabled(s, step) && i < |s.sends|
    ensures var t := Apply(s, step);
      && i < |t.sends| && s.sends[i].outcomes <= t.sends[i].outcomes
      && (t.sends[i].outcomes != s.sends[i].outcomes ==>
            || (step == Receives(s.sends[i].socket, Response(SendId(i))) && t.sends[i].outcomes == [Answered])
            || (step == RequestTimeout(SendId(i)) && t.sends[i].outcomes == [TimedOut])
            || ((step == Closes(s.sends[i].socket) || step.CloseCall?) && t.state == DISCONNECTED && t.sends[i].outcomes == [Dropped]))
  {
    PendingIsOwn(s, i);
    hide RequestId;
  }

  /** In every run no two sends bear the same request id, over any number of connections. */
  lemma IdsNeverRepeat(steps: seq<Step>, i: nat, j: nat)
    requires ValidRun(INIT, steps) && i < j < |After(INIT, steps).sends|
    ensures After(INIT, steps).sends[i].id != After(INIT, steps).sends[j].id
  {
    InvAfter(INIT, steps);
    if SendId(i) == SendId(j) { RequestIdInjective(i + 1, j + 1); }
  }

  /** In every run nothing waits and no timer of a send runs unless connected, an attempt can
      be aborted exactly while connecting, only the timer of that attempt runs, and only the
      current socket has handlers. */
  lemma NothingStale(steps: seq<Step>)
    requires ValidRun(INIT, steps)
    ensures var s := After(INIT, steps);
      && (s.state != CONNECTED ==> s.pending == map[] && s.timers == {})
      && (s.abortConnect.Some? <==> s.state == CONNECTING)
      && (forall k <- s.connectTimers :: s.state == CONNECTING && s.ws == Some(k))
      && (forall k <- s.wired :: s.ws == Some(k)) && s.state != CLOSING
  {
    InvAfter(INIT, steps);
  }

  /** In every run listeners see open and close in turn, and the last was an open exactly
      while connected. */
  lemma OpenAndCloseAlternate(steps: seq<Step>)
    requires ValidRun(INIT, steps)
    ensures var s := After(INIT, steps);
      Alternates(s.log) && (s.state == CONNECTED <==> s.log != [] && s.log[|s.log| - 1] == Open)
  {
    InvAfter(INIT, steps);
  }

  /** In every run each connect() that went ahead is settled once, but for the one in
      progress. */
  lemma ConnectSettlesOnce(steps: seq<Step>, k: nat)
    requires ValidRun(INIT, steps) && k < |After(INIT, steps).connects|
    ensures var s := After(INIT, steps);
      |s.connects[k]| == if s.state == CONNECTING && s.ws == Some(k) then 0 else 1
  {
    InvAfter(INIT, steps);
  }

  // -- The transport in place ------------------------------------------------------------

  /** One of these ids is that of send `i`. */
  ghost predicate Waits(s: Transport, ids: set<string>, i: nat) {
    exists id :: id in ids && id in s.pending && s.pending[id] == i
  }

  /** The sends once those with these ids are dropped. */
  ghost function DropThose(s: Transport, ids: set<string>): (r: seq<Sent>)
    ensures |r| == |s.sends|
  {
    seq(|s.sends|, i requires 0 <= i < |s.sends| =>
      if Waits(s, ids, i) then s.sends[i].(outcomes := s.sends[i].outcomes + [Dropped]) else s.sends[i])
  }

  lemma DropNone(s: Transport)
    ensures DropThose(s, s.pending.Keys - s.pending.Keys) == s.sends
  {
  }

  lemma DropAll(s: Transport)
    ensures RejectAll(s) == s.(sends := DropThose(s, s.pending.Keys - {}), timers := s.timers - (s.pending.Keys - {}), pending := map[])
  {
    forall i: nat | i < |s.sends| ensures Waits(s, s.pending.Keys - {}, i) <==> i in s.pending.Values {
      if i in s.pending.Values { var id :| id in s.pending && s.pending[id] == i; }
    }
    assert RejectAll(s).sends == DropThose(s, s.pending.Keys - {});
  }

  /** One more of the pending ids is dropped: that of another send than those before. */
  lemma DropOne(s: Transport, rest: set<string>, id: string)
    requires id in rest && rest <= s.pending.Keys && s.pending[id] < |s.sends|
    requires forall a, b | a in s.pending && b in s.pending && a != b :: s.pending[a] != s.pending[b]
    ensures var i, before := s.pending[id], DropThose(s, s.pending.Keys - rest);
      DropThose(s, s.pending.Keys - (rest - {id})) == before[i := before[i].(outcomes := before[i].outcomes + [Dropped])]
  {
    var i := s.pending[id];
    assert !Waits(s, s.pending.Keys - rest, i);
    forall k: nat ensures Waits(s, s.pending.Keys - (rest - {id}), k) <==> Waits(s, s.pending.Keys - rest, k) || k == i {
      if Waits(s, s.pending.Keys - rest, k) {
        var other :| other in s.pending.Keys - rest && s.pending[other] == k;
        assert other in s.pending.Keys - (rest - {id});
      }
      assert id in s.pending.Keys - (rest - {id});
    }
    hide Waits;
  }

  class WebSocketTransport {
    var state: State
    var ws: Option<nat>
    var pending: map<string, nat>
    var nextId: nat
    var abortConnect: Option<nat>
    var wired: set<nat>
    var connectTimers: set<nat>
    var timers: set<string>
    var everOpened: set<nat>
    var connects: seq<seq<bool>>
    var sends: seq<Sent>
    var log: seq<Event>

    ghost function Value(): Transport
      reads this
    {
      Transport(state, ws, pending, nextId, abortConnect, wired, connectTimers, timers, everOpened, connects, sends, log)
    }

    ghost predicate Valid()
      reads this
    {
      Inv(Value())
    }

    constructor ()
      ensures Valid() && Value() == INIT
    {
      state, ws, pending, nextId, abortConnect := DISCONNECTED, None, map[], 1, None;
      wired, connectTimers, timers, everOpened, connects, sends, log := {}, {}, {}, {}, [], [], [];
    }

    method CleanupSocket()
      modifies this
      ensures Value() == Cleanup(old(Value()))
    {
      if ws.Some? {
        wired := wired - {ws.value};
        ws := None;
      }
    }

    method SettleAttempt(k: nat, ok: bool)
      modifies this
      ensures Value() == SettleConnect(old(Value()), k, ok)
    {
      if k < |connects| { connects := connects[k := connects[k] + [ok]]; }
    }

    /** `fail` of a connect(). */
    method FailConnect(k: nat)
      modifies this
      ensures Value() == Fail(old(Value()), k)
    {
      connectTimers := connectTimers - {k};
      abortConnect := None;
      CleanupSocket();
      state := DISCONNECTED;
      SettleAttempt(k, false);
    }

    /** `connect`: false is the ConnectionError, thrown or rejected at once. */
    method ConnectTo(throws: bool) returns (ok: bool)
      requires Valid()
      modifies this
      ensures Valid() && Value() == ConnectStep(old(Value()), throws)
      ensures ok <==> old(state) == DISCONNECTED && !throws
    {
      ConnectKeeps(Value(), throws);
      if state != DISCONNECTED { return false; }
      var k := |connects|;
      connects := connects + [[]];
      state := CONNECTING;
      if throws {
        state := DISCONNECTED;
        connects := connects[k := [false]];
        return false;
      }
      ws := Some(k);
      connectTimers := connectTimers + {k};
      abortConnect := Some(k);
      wired := wired + {k};
      ok := true;
    }

    /** `onopen`. */
    method OnOpen(k: nat)
      requires Valid() && k in wired && k !in everOpened
      modifies this
      ensures Valid() && Value() == OpensStep(old(Value()), k)
    {
      OpensKeeps(Value(), k);
      connectTimers := connectTimers - {k};
      abortConnect := None;
      state := CONNECTED;
      everOpened := everOpened + {k};
      log := log + [Open];
      SettleAttempt(k, true);
    }

    /** `onerror`. */
    method OnError(k: nat)
      requires Valid() && k in wired
      modifies this
      ensures Valid() && Value() == ErrorsStep(old(Value()), k)
    {
      StepKeeps(Value(), Errors(k));
      if state == CONNECTING { FailConnect(k); }
    }

    /** `onclose`. */
    method OnClose(k: nat)
      requires Valid() && k in wired
      modifies this
      ensures Valid() && Value() == ClosesStep(old(Value()), k)
    {
      StepKeeps(Value(), Closes(k));
      if state == CONNECTING {
        FailConnect(k);
        return;
      }
      var wasConnected := state == CONNECTED;
      RejectAllPending();
      CleanupSocket();
      state := DISCONNECTED;
      if wasConnected { log := log + [Close]; }
    }

    /** `rejectAllPending`. */
    method RejectAllPending()
      requires forall id <- pending :: pending[id] < |sends|
      requires forall id, other | id in pending && other in pending && id != other :: pending[id] != pending[other]
      modifies this
      ensures Value() == RejectAll(old(Value()))
    {
      ghost var s := Value();
      DropNone(s);
      hide DropThose, RejectAll;
      var rest := pending.Keys;
      while rest != {}
        invariant rest <= s.pending.Keys
        invariant Value() == s.(sends := DropThose(s, s.pending.Keys - rest), timers := s.timers - (s.pending.Keys - rest))
        decreases |rest|
      {
        var id :| id in rest;
        var i := pending[id];
        DropOne(s, rest, id);
        timers := timers - {id};
        sends := sends[i := sends[i].(outcomes := sends[i].outcomes + [Dropped])];
        rest := rest - {id};
      }
      DropAll(s);
      pending := map[];
    }

    /** The timer of a connect(). */
    method OnConnectTimeout(k: nat)
      requires Valid() && k in connectTimers
      modifies this
      ensures Valid() && Value() == Fail(old(Value()), k)
    {
      FailKeeps(Value(), k);
      FailConnect(k);
    }

    /** `send`: None is the TransportError of a transport that is not connected. */
    method SendRequest(throws: bool) returns (id: Option<string>)
      requires Valid()
      modifies this
      ensures Valid() && Value() == SendStep(old(Value()), throws)
      ensures id.Some? <==> old(state) == CONNECTED
      ensures id.Some? ==> id.value !in old(pending) && forall i | 0 <= i < |old(sends)| :: old(sends)[i].id != id.value
    {
      SendKeeps(Value(), throws);
      NewIdIsFree(Value());
      hide SettledOnce, ConnectsSettled, Alternates, RequestId;
      if state != CONNECTED || ws == None { return None; }
      id := Some(RequestId(nextId));
      nextId := nextId + 1;
      var i := |sends|;
      sends := sends + [Sent(id.value, !throws, ws.value, [])];
      if throws { return; }
      timers := timers + {id.value};
      pending := pending[id.value := i];
    }

    /** `handleResponse` and `handleErrorResponse`: false is the "error" event. */
    method OnResponse(k: nat, id: string) returns (known: bool)
      requires Valid() && k in wired
      modifies this
      ensures Valid() && Value() == ReceivesStep(old(Value()), k, Response(id)) && (known <==> id in old(pending))
    {
      StepKeeps(Value(), Receives(k, Response(id)));
      hide SettledOnce, ConnectsSettled, OneConnection, Alternates, SendId;
      if id !in pending { return false; }
      var i := pending[id];
      timers := timers - {id};
      pending := pending - {id};
      sends := sends[i := sends[i].(outcomes := sends[i].outcomes + [Answered])];
      known := true;
    }

    /** The timer of a send. */
    method OnRequestTimeout(id: string)
      requires Valid() && id in timers
      modifies this
      ensures Valid() && Value() == TimeoutStep(old(Value()), id)
    {
      SettleKeeps(Value(), id, TimedOut);
      var i := pending[id];
      pending := pending - {id};
      timers := timers - {id};
      sends := sends[i := sends[i].(outcomes := sends[i].outcomes + [TimedOut])];
    }

    /** `close`: false is the TransportError for its arguments, or what the socket threw. */
    method CloseConnection(code: int, reasonBytes: nat, throws: bool) returns (ok: bool)
      requires Valid()
      modifies this
      ensures Valid() && Value() == CloseStep(old(Value()), code, reasonBytes, throws)
      ensures ok && old(state) != DISCONNECTED ==> state == DISCONNECTED
    {
      hide ConnectsSettled, SettledOnce, Alternates;
      StepKeeps(Value(), CloseCall(code, reasonBytes, throws));
      if code != 1000 && !(3000 <= code <= 4999) { return false; }
      if reasonBytes > MAX_CLOSE_REASON_BYTES { return false; }
      if state == DISCONNECTED || ws == None { return true; }
      if abortConnect.Some? {
        FailConnect(abortConnect.value);
        return true;
      }
      if throws { return false; }
      state := CLOSING;
      RejectAllPending();
      CleanupSocket();
      state := DISCONNECTED;
      log := log + [Close];
      ok := true;
    }
  }
}
