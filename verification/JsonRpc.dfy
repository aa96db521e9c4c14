/** The framing of the method catalog: JSON-RPC 2.0, requests and notifications in section 4,
    responses in section 5. */
module JsonRpc {
  import opened Wrappers

  /** A decoded message. What arrays and nested values hold does not matter to the framing. */
  datatype Json = Null | Bool(b: bool) | Number(n: int) | Text(s: string) | Array | Object(fields: map<string, Json>)

  datatype ErrorCode = PARSE_ERROR | INVALID_REQUEST | METHOD_NOT_FOUND | INVALID_PARAMS | INTERNAL_ERROR

  function Code(code: ErrorCode): int {
    match code
    case PARSE_ERROR => -32700
    case INVALID_REQUEST => -32600
    case METHOD_NOT_FOUND => -32601
    case INVALID_PARAMS => -32602
    case INTERNAL_ERROR => -32603
  }

  /** A response. Its id is that of the request, or null. */
  datatype Response = Result(id: Json, result: Json) | Fault(id: Json, code: int)

  /** What the engine makes of a request: a result, or an exception. */
  type Handler = (string, Json) -> Option<Json>

  /** The catalog: its methods, and whether params fit the model of a method. */
  datatype Catalog = Catalog(methods: set<string>, fits: (string, Json) -> bool)

  function Has(payload: Json, name: string): bool {
    payload.Object? && name in payload.fields
  }

  function Field(payload: Json, name: string): Json
    requires Has(payload, name)
  {
    payload.fields[name]
  }

  /** `_is_id`: a string, a number or null. A boolean is none. */
  predicate IsId(value: Json) {
    value.Null? || value.Number? || value.Text?
  }

  /** `_is_request`. */
  predicate IsRequest(payload: Json) {
    && Has(payload, "jsonrpc") && Field(payload, "jsonrpc") == Text("2.0")
    && Has(payload, "method") && Field(payload, "method").Text?
    && Has(payload, "id") && IsId(Field(payload, "id"))
  }

  /** A message with a method and no id, which gets no response whatever else it holds. */
  predicate IsNotification(payload: Json) {
    Has(payload, "method") && !Has(payload, "id")
  }

  /** `_id_of`. */
  function IdOf(payload: Json): Json {
    if Has(payload, "id") && IsId(Field(payload, "id")) then Field(payload, "id") else Null
  }

  function ParamsOf(payload: Json): Json {
    if Has(payload, "params") && Field(payload, "params") != Null then Field(payload, "params") else Object(map[])
  }

  /** `answer`: None for a message that gets no response. */
  method Answer(catalog: Catalog, handler: Handler, message: Option<Json>) returns (response: Option<Response>)
    ensures response.None? <==> message.Some? && IsNotification(message.value)
    ensures response.Some? ==> response.value.id == if message.Some? then IdOf(message.value) else Null
    ensures response.Some? && response.value.Result? <==> Answered(catalog, handler, message)
    ensures response.Some? && response.value.Result? ==>
              Some(response.value.result) == handler(Field(message.value, "method").s, ParamsOf(message.value))
    ensures response.Some? && response.value.Fault? ==> response.value.code == Code(FaultOf(catalog, message))
  {
    if message.None? { return Some(Fault(Null, -32700)); }
    var payload := message.value;
    if payload.Object? && "method" in payload.fields && "id" !in payload.fields { return None; }
    if !IsRequest(payload) { return Some(Fault(IdOf(payload), -32600)); }
    var id := payload.fields["id"];
    var name := payload.fields["method"].s;
    if name !in catalog.methods { return Some(Fault(id, -32601)); }
    var params := ParamsOf(payload);
    if !catalog.fits(name, params) { return Some(Fault(id, -32602)); }
    var result := handler(name, params);
    if result.None? { return Some(Fault(id, -32603)); }
    response := Some(Result(id, result.value));
  }

  /** A request that a RoIS operation answers. */
  ghost predicate Answered(catalog: Catalog, handler: Handler, message: Option<Json>) {
    && message.Some? && IsRequest(message.value)
    && var name := Field(message.value, "method").s;
       && name in catalog.methods && catalog.fits(name, ParamsOf(message.value))
       && handler(name, ParamsOf(message.value)).Some?
  }

  /** The first thing wrong with a message that gets an error. */
  ghost function FaultOf(catalog: Catalog, message: Option<Json>): ErrorCode {
    if message.None? then PARSE_ERROR
    else if !IsRequest(message.value) then INVALID_REQUEST
    else if Field(message.value, "method").s !in catalog.methods then METHOD_NOT_FOUND
    else if !catalog.fits(Field(message.value, "method").s, ParamsOf(message.value)) then INVALID_PARAMS
    else INTERNAL_ERROR
  }

  /** The messages waiting to go out on one connection. `put` is every message that was put,
      and `taken` those the writer took. */
  class Outbox {
    var queue: seq<string>
    var sent: seq<string>
    ghost var put: seq<string>
    ghost var taken: seq<string>

    ghost predicate Valid()
      reads this
    {
      taken + queue == put && Among(sent, taken)
    }

    constructor ()
      ensures Valid() && queue == [] && sent == [] && put == []
    {
      queue, sent, put, taken := [], [], [], [];
    }

    method Put(message: string)
      requires Valid()
      modifies this
      ensures Valid() && queue == old(queue) + [message] && put == old(put) + [message] && sent == old(sent)
    {
      queue := queue + [message];
      put := put + [message];
    }

    /** One pass of the writer. A send that raises loses its message and no other. */
    method WriteNext(raises: bool)
      requires Valid() && queue != []
      modifies this
      ensures Valid() && queue == old(queue)[1..] && put == old(put)
      ensures sent == if raises then old(sent) else old(sent) + [old(queue)[0]]
    {
      var message := queue[0];
      queue := queue[1..];
      AmongMore(sent, taken, message);
      taken := taken + [message];
      if !raises { sent := sent + [message]; }
    }
  }

  /** Whether a holds some of the messages of b, in their order. */
  predicate Among(a: seq<string>, b: seq<string>)
    decreases |b|
  {
    a == [] || (b != [] && (Among(a, b[..|b| - 1]) || (a[|a| - 1] == b[|b| - 1] && Among(a[..|a| - 1], b[..|b| - 1]))))
  }

  lemma AmongMore(a: seq<string>, b: seq<string>, message: string)
    requires Among(a, b)
    ensures Among(a, b + [message]) && Among(a + [message], b + [message])
  {
    assert (b + [message])[..|b|] == b;
    assert (a + [message])[..|a|] == a;
  }

  /** Of two messages that were sent, the first one sent was put first. */
  lemma {:induction false} AmongKeepsOrder(a: seq<string>, b: seq<string>, i: nat, j: nat)
    requires Among(a, b) && i < j < |a|
    ensures exists p, q :: 0 <= p < q < |b| && b[p] == a[i] && b[q] == a[j]
    decreases |b|
  {
    var rest := b[..|b| - 1];
    if Among(a, rest) {
      AmongKeepsOrder(a, rest, i, j);
      var p, q :| 0 <= p < q < |rest| && rest[p] == a[i] && rest[q] == a[j];
      assert b[p] == a[i] && b[q] == a[j];
    } else {
      var front := a[..|a| - 1];
      if j < |front| {
        AmongKeepsOrder(front, rest, i, j);
        var p, q :| 0 <= p < q < |rest| && rest[p] == front[i] && rest[q] == front[j];
        assert b[p] == a[i] && b[q] == a[j];
      } else {
        AmongHolds(front, rest, i);
        var p :| 0 <= p < |rest| && rest[p] == front[i];
        assert b[p] == a[i] && b[|b| - 1] == a[j];
      }
    }
  }

  lemma {:induction false} AmongHolds(a: seq<string>, b: seq<string>, i: nat)
    requires Among(a, b) && i < |a|
    ensures exists p :: 0 <= p < |b| && b[p] == a[i]
    decreases |b|
  {
    var rest := b[..|b| - 1];
    if Among(a, rest) {
      AmongHolds(a, rest, i);
      var p :| 0 <= p < |rest| && rest[p] == a[i];
      assert b[p] == a[i];
    } else if i < |a| - 1 {
      AmongHolds(a[..|a| - 1], rest, i);
      var p :| 0 <= p < |rest| && rest[p] == a[..|a| - 1][i];
      assert b[p] == a[i];
    } else {
      assert b[|b| - 1] == a[i];
    }
  }
}
