/** The callbacks of futures on the event loop: those of one future run in the order they were
    registered on it. The futures are the tasks that run the handlers of starts. */
module EventLoop {

  /** The future of the handler of a start, by the turn of the start. */
  type Future = nat

  /** What waits for a handler: the end of the start that runs it, and the takeovers of the
      starts that replace that one. */
  datatype Callback = EndOf(turn: nat) | TakeoverOf(turn: nat)

  /** A callback and the future it waits for. */
  datatype Entry = Entry(future: Future, callback: Callback)

  /** `callbacks` wait for their futures, `ready` for their turn. `registered` and `ran` are
      what happened, in its order. */
  datatype Loop = Loop(callbacks: map<Future, seq<Callback>>, resolved: set<Future>, ready: seq<Entry>,
                       registered: seq<Entry>, ran: seq<Entry>)

  const INIT := Loop(map[], {}, [], [], [])

  datatype Step =
    | Register(future: Future, callback: Callback)   // `add_done_callback`, or an await
    | Resolve(future: Future)
    | RunNext

  function Waiting(l: Loop, f: Future): seq<Callback> {
    if f in l.callbacks then l.callbacks[f] else []
  }

  function Entries(f: Future, callbacks: seq<Callback>): (r: seq<Entry>)
    ensures |r| == |callbacks|
  {
    seq(|callbacks|, i requires 0 <= i < |callbacks| => Entry(f, callbacks[i]))
  }

  predicate Enabled(l: Loop, step: Step) {
    match step
    case Register(_, _) => true
    case Resolve(f) => f !in l.resolved
    case RunNext => l.ready != []
  }

  /** A callback of a resolved future is ready at once. A future that resolves readies all of
      its callbacks, first registered first. */
  function Apply(l: Loop, step: Step): Loop
    requires Enabled(l, step)
  {
    match step
    case Register(f, c) =>
      var m := l.(registered := l.registered + [Entry(f, c)]);
      if f in l.resolved then m.(ready := l.ready + [Entry(f, c)])
      else m.(callbacks := l.callbacks[f := Waiting(l, f) + [c]])
    case Resolve(f) =>
      l.(resolved := l.resolved + {f}, callbacks := l.callbacks - {f}, ready := l.ready + Entries(f, Waiting(l, f)))
    case RunNext => l.(ready := l.ready[1..], ran := l.ran + [l.ready[0]])
  }

  /** The callbacks of one future among some entries. */
  function Of(entries: seq<Entry>, f: Future): seq<Callback>
    decreases |entries|
  {
    if entries == [] then []
    else (if entries[0].future == f then [entries[0].callback] else []) + Of(entries[1..], f)
  }

  lemma {:induction false} OfAppend(a: seq<Entry>, b: seq<Entry>, f: Future)
    ensures Of(a + b, f) == Of(a, f) + Of(b, f)
    decreases |a|
  {
    if a == [] {
      assert a + b == b;
    } else {
      OfAppend(a[1..], b, f);
      assert (a + b)[1..] == a[1..] + b;
    }
  }

  lemma {:induction false} OfEntries(g: Future, callbacks: seq<Callback>, f: Future)
    ensures Of(Entries(g, callbacks), f) == if f == g then callbacks else []
    decreases |callbacks|
  {
    if callbacks != [] {
      OfEntries(g, callbacks[1..], f);
      assert Entries(g, callbacks)[1..] == Entries(g, callbacks[1..]);
    }
  }

  /** What ran, what is ready and what waits of a future, in this order, is what was
      registered on it. */
  ghost predicate Inv(l: Loop) {
    (forall f :: InOrder(l, f)) && forall e <- l.ready :: e.future in l.resolved
  }

  predicate InOrder(l: Loop, f: Future) {
    && Of(l.ran, f) + Of(l.ready, f) + Waiting(l, f) == Of(l.registered, f)
    && (f in l.resolved ==> f !in l.callbacks)
  }

  lemma OfOneMore(entries: seq<Entry>, e: Entry, f: Future)
    ensures Of(entries + [e], f) == Of(entries, f) + (if e.future == f then [e.callback] else [])
  {
    OfAppend(entries, [e], f);
    assert Of([e], f) == if e.future == f then [e.callback] else [];
  }

  lemma Regroup(a: seq<Callback>, b: seq<Callback>, c: seq<Callback>, d: seq<Callback>)
    ensures a + b + (c + d) == a + b + c + d
  {
  }

  lemma RegisterKeeps(l: Loop, g: Future, c: Callback, f: Future)
    requires InOrder(l, f)
    ensures InOrder(Apply(l, Register(g, c)), f)
  {
    hide Of;
    OfOneMore(l.registered, Entry(g, c), f);
    OfOneMore(l.ready, Entry(g, c), f);
    var ran, ready, waiting := Of(l.ran, f), Of(l.ready, f), Waiting(l, f);
    assert ready + [] == ready;
    if f == g && f in l.resolved {
      assert waiting == [] && ran + (ready + [c]) + [] == ran + ready + [] + [c];
    } else if f == g {
      Regroup(ran, ready, waiting, [c]);
    }
  }

  lemma ResolveKeeps(l: Loop, g: Future, f: Future)
    requires InOrder(l, f) && Enabled(l, Resolve(g))
    ensures InOrder(Apply(l, Resolve(g)), f)
  {
    OfAppend(l.ready, Entries(g, Waiting(l, g)), f);
    OfEntries(g, Waiting(l, g), f);
    hide Of, Entries;
  }

  lemma RunKeeps(l: Loop, f: Future)
    requires InOrder(l, f) && Enabled(l, RunNext)
    ensures InOrder(Apply(l, RunNext), f)
  {
    var e := l.ready[0];
    var first := if e.future == f then [e.callback] else [];
    assert Of(l.ready, f) == first + Of(l.ready[1..], f);
    hide Of;
    OfOneMore(l.ran, e, f);
    var ran, ready := Of(l.ran, f), Of(l.ready[1..], f);
    assert ran + (first + ready) == ran + first + ready;
  }

  lemma StepKeeps(l: Loop, step: Step)
    requires Inv(l) && Enabled(l, step)
    ensures Inv(Apply(l, step))
  {
    assert forall e <- Apply(l, step).ready :: e.future in Apply(l, step).resolved;
    hide Apply, InOrder;
    forall f ensures InOrder(Apply(l, step), f) {
      match step
      case Register(g, c) => RegisterKeeps(l, g, c, f);
      case Resolve(g) => ResolveKeeps(l, g, f);
      case RunNext => RunKeeps(l, f);
    }
  }

  /** The callback at the head of the queue is the first one registered on its future that has
      not run: every one registered on it before has run. */
  lemma NextIsNextRegistered(l: Loop)
    requires Inv(l) && l.ready != []
    ensures var e := l.ready[0];
      var ran, registered := Of(l.ran, e.future), Of(l.registered, e.future);
      && e.future in l.resolved && |ran| < |registered| && registered[|ran|] == e.callback && ran == registered[..|ran|]
  {
    var e := l.ready[0];
    assert InOrder(l, e.future);
    assert Of(l.ready, e.future)[0] == e.callback;
  }
}
