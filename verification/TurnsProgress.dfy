/** The takeover lock never gets stuck: from every state of every run the queue can drain. */
module TurnsProgress {
  import opened Wrappers
  import opened Commands
  import opened Turns
  import opened TurnsInvariant
  import TurnsTheorems

  predicate Sound(m: Turns) {
    Inv(m) && PreviousInv(m)
  }

  lemma {:induction false} SoundAfter(m: Turns, steps: seq<Step>)
    requires Sound(m) && ValidRun(m, steps)
    ensures Sound(After(m, steps))
    decreases |steps|
  {
    if steps != [] {
      InvKeeps(m, steps[0]);
      PreviousKeeps(m, steps[0]);
      hide Inv, PreviousInv, Apply;
      SoundAfter(Apply(m, steps[0]), steps[1..]);
    }
  }

  // -- The turn with the lock ------------------------------------------------------------

  /** The steps that carry a turn on: the stop handler ends, a handler returns, a coroutine
      that can go on does. Nobody new arrives, and nobody fails, gives up or is cancelled. */
  predicate CarriesOn(step: Step) {
    step.Acquire? || step.BackendHalted? || step.TaskAwaited? || step.Begin? || step.ReleaseAfter? || step.Resume?
    || (step.HandlerEnds? && step.end == Returned)
  }

  predicate AllCarryOn(steps: seq<Step>) {
    forall step <- steps :: CarriesOn(step)
  }

  /** How many steps the turn with the lock is away from its release. */
  function Distance(m: Turns): (d: nat)
    ensures d <= 5
  {
    if m.holder == None || m.holder.value >= |m.starts| then 0
    else
      var s := m.starts[m.holder.value];
      if s.takeover == HaltingBackend then 5
      else if s.takeover == AwaitingTask && s.previous.Some? && s.previous.value < |m.starts| then
        var p := m.starts[s.previous.value];
        if p.handler == Live then 4 else if p.phase == Running then 3 else 2
      else 1
  }

  /** What carries the turn with the lock on. */
  function NextStep(m: Turns, t: nat): Step
    requires t < |m.starts|
  {
    var s := m.starts[t];
    if s.takeover == HaltingBackend then BackendHalted(t)
    else if s.takeover == AwaitingTask && s.previous.Some? && s.previous.value < |m.starts| then
      var p := s.previous.value;
      if m.starts[p].handler == Live then HandlerEnds(p, Returned)
      else if m.starts[p].phase == Running then Resume(p) else TaskAwaited(t)
    else if s.phase == Waiting then Begin(t)
    else ReleaseAfter(t)
  }

  lemma NextIsEnabled(m: Turns, t: nat)
    requires Sound(m) && m.holder == Some(t)
    ensures t < |m.starts| && CarriesOn(NextStep(m, t)) && Enabled(m, NextStep(m, t))
  {
    LockHolds(m, t);
    assert HasPrevious(m, t);
    var s := m.starts[t];
    assert ReleaseInv(s) && PhaseInv(s) by { assert StartInv(m, t); }
    if s.takeover == AwaitingTask {
      assert PhaseInv(m.starts[s.previous.value]) by { assert StartInv(m, s.previous.value); }
    }
    hide Inv, PreviousInv;
  }

  /** The turn with the lock came nearer to its release, or was released. */
  predicate Nearer(m: Turns, n: Turns, t: nat) {
    && n.waiters == m.waiters && |n.starts| == |m.starts| && t < |m.starts|
    && if n.holder == None then n.starts[t].takeover == Passed
       else n.holder == m.holder && Distance(n) < Distance(m)
  }

  lemma PassesOn(m: Turns, step: Step, t: nat)
    requires Enabled(m, step) && (step == Begin(t) || step == ReleaseAfter(t))
    ensures Nearer(m, Apply(m, step), t)
  {
    hide Distance;
  }

  lemma TakesOver(m: Turns, step: Step, t: nat)
    requires Enabled(m, step) && m.holder == Some(t) && (step == BackendHalted(t) || step == TaskAwaited(t))
    ensures Nearer(m, Apply(m, step), t)
  {
  }

  lemma PreviousEnds(m: Turns, step: Step, t: nat)
    requires m.holder == Some(t) && t < |m.starts| && m.starts[t].takeover == AwaitingTask
    requires m.starts[t].previous.Some? && Enabled(m, step)
    requires var p := m.starts[t].previous.value;
      (step == HandlerEnds(p, Returned) && m.starts[p].phase == Running) || step == Resume(p)
    ensures Nearer(m, Apply(m, step), t)
  {
  }

  lemma NextGoesOn(m: Turns, t: nat)
    requires Sound(m) && m.holder == Some(t) && t < |m.starts| && Enabled(m, NextStep(m, t))
    ensures Nearer(m, Apply(m, NextStep(m, t)), t)
  {
    var step := NextStep(m, t);
    LockHolds(m, t);
    assert HasPrevious(m, t);
    if m.starts[t].takeover == AwaitingTask { assert StartInv(m, m.starts[t].previous.value); }
    hide Inv, PreviousInv, Apply, Nearer, Distance;
    if step.Begin? || step.ReleaseAfter? {
      PassesOn(m, step, t);
    } else if step.BackendHalted? || step.TaskAwaited? {
      TakesOver(m, step, t);
    } else {
      PreviousEnds(m, step, t);
    }
  }

  lemma StaysSound(m: Turns, step: Step)
    requires Sound(m) && Enabled(m, step)
    ensures Sound(Apply(m, step))
  {
    InvKeeps(m, step);
    PreviousKeeps(m, step);
  }

  /** The turn with the lock is released within five steps, and nobody else's turn changes. */
  lemma {:induction false} LockIsReleased(m: Turns, t: nat) returns (steps: seq<Step>)
    requires Sound(m) && m.holder == Some(t)
    ensures |steps| <= Distance(m) <= 5 && AllCarryOn(steps) && ValidRun(m, steps)
    ensures var n := After(m, steps);
      Sound(n) && n.holder == None && n.waiters == m.waiters && t < |n.starts| && n.starts[t].takeover == Passed
    decreases Distance(m)
  {
    NextIsEnabled(m, t);
    NextGoesOn(m, t);
    var step := NextStep(m, t);
    var n := Apply(m, step);
    StaysSound(m, step);
    hide Apply, Enabled, Sound, NextStep, CarriesOn;
    if n.holder == None {
      steps := [step];
      assert steps[1..] == [];
    } else {
      var rest := LockIsReleased(n, t);
      steps := [step] + rest;
      assert steps[1..] == rest;
    }
  }

  // -- The queue -------------------------------------------------------------------------

  /** Every start in the queue gets its turn: the turns before it pass on one by one. */
  lemma {:induction false} QueueDrains(m: Turns, t: nat) returns (steps: seq<Step>)
    requires Sound(m) && (t in m.waiters || m.holder == Some(t))
    ensures AllCarryOn(steps) && ValidRun(m, steps)
    ensures var n := After(m, steps); Sound(n) && t < |n.starts| && n.starts[t].takeover == Passed
    decreases |m.waiters|, m.holder.Some?
  {
    if m.holder.Some? {
      var first := LockIsReleased(m, m.holder.value);
      if m.holder == Some(t) {
        steps := first;
      } else {
        var rest := QueueDrains(After(m, first), t);
        hide Sound, CarriesOn;
        TurnsTheorems.RunConcat(m, first, rest);
        steps := first + rest;
      }
    } else {
      assert Enabled(m, Acquire);
      var n := Apply(m, Acquire);
      StaysSound(m, Acquire);
      var rest := QueueDrains(n, t);
      hide Sound;
      steps := [Acquire] + rest;
      assert steps[1..] == rest;
    }
  }

  /** In every run, a start that waits for its turn can still get it, without anybody failing,
      giving up or being cancelled: the run has a continuation after which its turn was
      released, once, and the start no longer waits. The lock is never stuck. */
  lemma TurnCanCome(run: seq<Step>, t: nat) returns (steps: seq<Step>)
    requires ValidRun(INIT, run) && t < |After(INIT, run).starts|
    requires After(INIT, run).starts[t].phase == Waiting && After(INIT, run).starts[t].takeover != Failed
    ensures AllCarryOn(steps) && ValidRun(INIT, run + steps)
    ensures var n := After(INIT, run + steps);
      t < |n.starts| && n.starts[t].released == 1 && n.starts[t].phase != Waiting
  {
    SoundAfter(INIT, run);
    var m := After(INIT, run);
    assert t in m.waiters || m.holder == Some(t) by {
      LockHolds(m, t);
      assert StartInv(m, t);
    }
    steps := QueueDrains(m, t);
    TurnsTheorems.RunConcat(INIT, run, steps);
    assert StartInv(After(m, steps), t);
  }
}
