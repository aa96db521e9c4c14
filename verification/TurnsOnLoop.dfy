/** The starts of a component on the event loop. The end of a start and the takeover of the
    start that replaces it wait for the same handler, and each resumes when the loop runs its
    callback. What `Turns` asks of the order of the two is proved here. */
module TurnsOnLoop {
  import opened Wrappers
  import opened Commands
  import T = Turns
  import L = EventLoop
  import TurnsInvariant
  import TurnsTheorems

  datatype World = World(turns: T.Turns, loop: L.Loop)

  const INIT := World(T.INIT, L.INIT)

  /** What a step of the starts does on the loop. A start waits for its handler from the step
      that begins it, a takeover once it halted the backend. */
  function LoopStep(m: T.Turns, step: T.Step): Option<L.Step> {
    match step
    case Acquire => if m.waiters != [] && m.waiters[0] < |m.starts| then Awaits(m, m.waiters[0], T.TakeOver(m, m.waiters[0])) else None
    case BackendHalted(t) => if t < |m.starts| then Awaits(m, t, T.AwaitingTask) else None
    case Begin(t) => if t in m.aborted then None else Some(L.Register(t, L.EndOf(t)))
    case HandlerEnds(t, _) => Some(L.Resolve(t))
    case TaskAwaited(_) => Some(L.RunNext)
    case Resume(_) => Some(L.RunNext)
    case CancelSeen(_) => Some(L.RunNext)
    case _ => None
  }

  function Awaits(m: T.Turns, t: nat, takeover: T.Takeover): Option<L.Step>
    requires t < |m.starts|
  {
    if takeover == T.AwaitingTask && m.starts[t].previous.Some? then Some(L.Register(m.starts[t].previous.value, L.TakeoverOf(t)))
    else None
  }

  /** A step that resumes a coroutine takes the callback at the head of the queue. A takeover
      asks nothing else of the handler it waits for, nor of the start that runs it. */
  predicate Enabled(w: World, step: T.Step) {
    var m := w.turns;
    match step
    case TaskAwaited(t) =>
      && t < |m.starts| && m.starts[t].takeover == T.AwaitingTask && m.starts[t].previous.Some?
      && w.loop.ready != [] && w.loop.ready[0] == L.Entry(m.starts[t].previous.value, L.TakeoverOf(t))
    case Resume(t) => T.Enabled(m, step) && w.loop.ready != [] && w.loop.ready[0] == L.Entry(t, L.EndOf(t))
    case CancelSeen(t) => T.Enabled(m, step) && w.loop.ready != [] && w.loop.ready[0] == L.Entry(t, L.EndOf(t))
    case _ => T.Enabled(m, step)
  }

  function Apply(w: World, step: T.Step): World
    requires Enabled(w, step)
  {
    var m := if step.TaskAwaited? then T.Put(w.turns, step.turn, w.turns.starts[step.turn].(takeover := T.Taken))
             else T.Apply(w.turns, step);
    var l := LoopStep(w.turns, step);
    World(m, if l.Some? && L.Enabled(w.loop, l.value) then L.Apply(w.loop, l.value) else w.loop)
  }

  predicate ValidRun(w: World, steps: seq<T.Step>)
    decreases |steps|
  {
    steps == [] || (Enabled(w, steps[0]) && ValidRun(Apply(w, steps[0]), steps[1..]))
  }

  function After(w: World, steps: seq<T.Step>): World
    requires ValidRun(w, steps)
    decreases |steps|
  {
    if steps == [] then w else After(Apply(w, steps[0]), steps[1..])
  }

  // -- The invariant ---------------------------------------------------------------------

  /** The first to wait for a handler is the start that runs it, and while that start runs
      nobody has been told of its end. */
  predicate StartFirst(w: World, t: nat)
    requires t < |w.turns.starts|
  {
    var s := w.turns.starts[t];
    var registered := L.Of(w.loop.registered, t);
    && (s.handler == Unborn ==> registered == [])
    && (s.handler != Unborn ==> registered != [] && registered[0] == L.EndOf(t))
    && (s.phase == T.Running ==> L.Of(w.loop.ran, t) == [])
    && (s.handler.Done? <==> t in w.loop.resolved)
    && (s.phase == T.Running ==> s.handler != Unborn)
    && (s.phase == T.Waiting ==> s.handler == Unborn)
  }

  ghost predicate Inv(w: World) {
    && L.Inv(w.loop)
    && TurnsInvariant.PreviousInv(w.turns)
    && (forall t: nat | t < |w.turns.starts| :: StartFirst(w, t))
    && (forall t <- w.loop.resolved :: t < |w.turns.starts|)
    && (forall e <- w.loop.registered :: e.future < |w.turns.starts|)
  }

  /** A takeover that resumes finds the handler done, and the start that ran it no longer
      running: that start was told first. */
  lemma StartSeesFirst(w: World, step: T.Step)
    requires Inv(w) && Enabled(w, step)
    ensures T.Enabled(w.turns, step)
  {
    if step.TaskAwaited? {
      L.NextIsNextRegistered(w.loop);
      var p := w.loop.ready[0].future;
      assert StartFirst(w, p);
    }
  }

  // -- Every step keeps it ---------------------------------------------------------------

  lemma LoopKeeps(w: World, step: T.Step)
    requires Inv(w) && Enabled(w, step)
    ensures L.Inv(Apply(w, step).loop)
  {
    hide T.Apply;
    var l := LoopStep(w.turns, step);
    if l.Some? && L.Enabled(w.loop, l.value) { L.StepKeeps(w.loop, l.value); }
    hide L.Inv, L.Apply;
  }

  lemma {:induction false} OfNone(entries: seq<L.Entry>, f: nat)
    requires forall e <- entries :: e.future != f
    ensures L.Of(entries, f) == []
  {
    if entries != [] { OfNone(entries[1..], f); }
  }

  /** What ran of a future that nobody registered on. */
  lemma NoneRan(l: L.Loop, f: nat)
    requires L.Inv(l) && L.Of(l.registered, f) == []
    ensures L.Of(l.ran, f) == []
  {
    assert L.InOrder(l, f);
  }

  /** A step of the loop adds at most one registration and runs at most the head of the queue. */
  lemma LoopMoves(l: L.Loop, step: L.Step, f: nat)
    requires L.Enabled(l, step)
    ensures var n := L.Apply(l, step);
      && L.Of(n.registered, f) == L.Of(l.registered, f) + (if step.Register? && step.future == f then [step.callback] else [])
      && (L.Of(n.ran, f) == L.Of(l.ran, f) || (step == L.RunNext && l.ready[0].future == f))
      && n.resolved == (if step.Resolve? then l.resolved + {step.future} else l.resolved)
      && (step.Register? ==> n.registered == l.registered + [L.Entry(step.future, step.callback)])
      && (!step.Register? ==> n.registered == l.registered)
  {
    hide L.Of;
    match step
    case Register(g, c) => L.OfOneMore(l.registered, L.Entry(g, c), f);
    case Resolve(g) =>
    case RunNext => L.OfOneMore(l.ran, l.ready[0], f);
  }

  /** A step that does nothing on the loop, for a start that was there. */
  lemma QuietKeeps(w: World, step: T.Step, t: nat)
    requires Inv(w) && Enabled(w, step) && LoopStep(w.turns, step) == None && t < |w.turns.starts|
    ensures StartFirst(Apply(w, step), t)
  {
    assert StartFirst(w, t);
    hide L.Of, L.Inv;
  }

  lemma NewKeeps(w: World)
    requires Inv(w)
    ensures var n := Apply(w, T.Arrive); |n.turns.starts| == |w.turns.starts| + 1 && StartFirst(n, |w.turns.starts|)
  {
    var f := |w.turns.starts|;
    OfNone(w.loop.registered, f);
    hide L.Of, L.Inv;
  }

  lemma BeginKeeps(w: World, b: nat, t: nat)
    requires Inv(w) && Enabled(w, T.Begin(b)) && b !in w.turns.aborted && t < |w.turns.starts|
    ensures StartFirst(Apply(w, T.Begin(b)), t)
  {
    assert StartFirst(w, t) && StartFirst(w, b);
    NoneRan(w.loop, b);
    LoopMoves(w.loop, L.Register(b, L.EndOf(b)), t);
    hide L.Of, L.Inv, L.Apply;
  }

  /** A takeover registers on a handler that began, so behind the start that runs it. */
  lemma RegisteredBehind(w: World, n: World, p: nat, u: nat, t: nat)
    requires t < |w.turns.starts| && StartFirst(w, t) && p < |w.turns.starts| && StartFirst(w, p) && w.turns.starts[p].handler != Unborn
    requires |n.turns.starts| == |w.turns.starts|
    requires n.loop == L.Apply(w.loop, L.Register(p, L.TakeoverOf(u)))
    requires n.turns.starts[t].handler == w.turns.starts[t].handler && n.turns.starts[t].phase == w.turns.starts[t].phase
    ensures StartFirst(n, t)
  {
    LoopMoves(w.loop, L.Register(p, L.TakeoverOf(u)), t);
    RegisterRuns(w.loop, p, L.TakeoverOf(u));
    hide L.Of, L.Apply;
  }

  lemma RegisterRuns(l: L.Loop, f: nat, c: L.Callback)
    ensures L.Apply(l, L.Register(f, c)).ran == l.ran
  {
  }

  lemma AwaitKeeps(w: World, step: T.Step, t: nat)
    requires Inv(w) && Enabled(w, step) && (step.Acquire? || step.BackendHalted?) && t < |w.turns.starts|
    ensures StartFirst(Apply(w, step), t)
  {
    assert StartFirst(w, t);
    if LoopStep(w.turns, step) == None {
      QuietKeeps(w, step, t);
    } else {
      var u := if step.Acquire? then w.turns.waiters[0] else step.turn;
      var p := w.turns.starts[u].previous.value;
      assert TurnsInvariant.HasPrevious(w.turns, u);
      assert p < |w.turns.starts| && w.turns.starts[p].handler != Unborn;
      assert StartFirst(w, p);
      hide L.Of, L.Inv, L.Apply, StartFirst, TurnsInvariant.PreviousInv;
      RegisteredBehind(w, Apply(w, step), p, u, t);
    }
  }

  lemma EndsKeep(w: World, b: nat, end: HandlerEnd, t: nat)
    requires Inv(w) && Enabled(w, T.HandlerEnds(b, end)) && t < |w.turns.starts|
    ensures StartFirst(Apply(w, T.HandlerEnds(b, end)), t)
  {
    assert StartFirst(w, t) && StartFirst(w, b);
    LoopMoves(w.loop, L.Resolve(b), t);
    hide L.Of, L.Inv, L.Apply;
  }

  /** A callback runs: of the start that runs the handler, or of a takeover after it. */
  lemma RunKeeps(w: World, step: T.Step, t: nat)
    requires Inv(w) && Enabled(w, step) && (step.TaskAwaited? || step.Resume? || step.CancelSeen?) && t < |w.turns.starts|
    ensures StartFirst(Apply(w, step), t)
  {
    assert StartFirst(w, t);
    StartSeesFirst(w, step);
    LoopMoves(w.loop, L.RunNext, t);
    hide L.Of, L.Inv, L.Apply;
  }

  lemma FirstKeeps(w: World, step: T.Step, t: nat)
    requires Inv(w) && Enabled(w, step) && t < |w.turns.starts|
    ensures t < |Apply(w, step).turns.starts| && StartFirst(Apply(w, step), t)
  {
    hide Inv, StartFirst;
    match step
    case Acquire => AwaitKeeps(w, step, t);
    case BackendHalted(_) => AwaitKeeps(w, step, t);
    case Begin(b) => if b in w.turns.aborted { QuietKeeps(w, step, t); } else { BeginKeeps(w, b, t); }
    case HandlerEnds(b, end) => EndsKeep(w, b, end, t);
    case TaskAwaited(_) => RunKeeps(w, step, t);
    case Resume(_) => RunKeeps(w, step, t);
    case CancelSeen(_) => RunKeeps(w, step, t);
    case _ => QuietKeeps(w, step, t);
  }

  lemma StepKeeps(w: World, step: T.Step)
    requires Inv(w) && Enabled(w, step)
    ensures Inv(Apply(w, step))
  {
    var n := Apply(w, step);
    LoopKeeps(w, step);
    RangesKeep(w, step);
    StartSeesFirst(w, step);
    TurnsInvariant.PreviousKeeps(w.turns, step);
    if step == T.Arrive { NewKeeps(w); }
    hide L.Inv, L.Apply, T.Apply, LoopStep, StartFirst, TurnsInvariant.PreviousInv;
    forall t: nat | t < |n.turns.starts| ensures StartFirst(n, t) {
      if t < |w.turns.starts| { FirstKeeps(w, step, t); }
    }
  }

  lemma RangesKeep(w: World, step: T.Step)
    requires Inv(w) && Enabled(w, step)
    ensures var n := Apply(w, step);
      && |n.turns.starts| == |w.turns.starts| + (if step == T.Arrive then 1 else 0)
      && (forall t <- n.loop.resolved :: t < |n.turns.starts|)
      && (forall e <- n.loop.registered :: e.future < |n.turns.starts|)
  {
    var l := LoopStep(w.turns, step);
    if l.Some? && l.value.Register? && (step.Acquire? || step.BackendHalted?) {
      var u := if step.Acquire? then w.turns.waiters[0] else step.turn;
      assert TurnsInvariant.HasPrevious(w.turns, u);
    }
    if l.Some? && L.Enabled(w.loop, l.value) { LoopMoves(w.loop, l.value, 0); }
    hide L.Of, L.Inv, L.Apply;
  }

  // -- Over every run --------------------------------------------------------------------

  /** Every run on the loop is a run of the starts, with the order of the callbacks that a
      takeover relies on. */
  lemma {:induction false} LoopRunsAreRuns(w: World, steps: seq<T.Step>)
    requires Inv(w) && ValidRun(w, steps)
    ensures T.ValidRun(w.turns, steps) && T.After(w.turns, steps) == After(w, steps).turns
    decreases |steps|
  {
    if steps != [] {
      StartSeesFirst(w, steps[0]);
      StepKeeps(w, steps[0]);
      assert Apply(w, steps[0]).turns == T.Apply(w.turns, steps[0]);
      hide Inv, Apply, T.Apply, Enabled, T.Enabled;
      LoopRunsAreRuns(Apply(w, steps[0]), steps[1..]);
    }
  }

  /** On the event loop, a component whose stop handler fails no takeover never has two
      unfinished start handlers. */
  lemma ExclusiveOnLoop(steps: seq<T.Step>)
    requires ValidRun(INIT, steps) && TurnsTheorems.NoHaltFails(steps)
    ensures TurnsTheorems.Exclusive(After(INIT, steps).turns)
  {
    LoopRunsAreRuns(INIT, steps);
    TurnsTheorems.ExclusiveIffHaltNeverFails(false);
  }
}
