/** What every step of the starts of a component keeps. */
module TurnsInvariant {
  import opened Wrappers
  import opened Commands
  import opened Turns

  predicate Holding(t: Takeover) {
    t == HaltingBackend || t == AwaitingTask || t == Taken
  }

  /** How far a turn is: in the queue, with the lock, or past it. */
  function Rank(t: Takeover): nat {
    if t == Queued then 0 else if Holding(t) then 1 else 2
  }

  // -- The invariant of every run --------------------------------------------------------

  /** The turn that holds the lock is the only one on its way through it. */
  predicate HolderInv(m: Turns) {
    && (m.holder.Some? ==> m.holder.value < |m.starts|)
    && (forall i | 0 <= i < |m.starts| :: Holding(m.starts[i].takeover) <==> m.holder == Some(i))
  }

  /** The waiters of the lock are the queued turns, in order. */
  predicate QueueInv(m: Turns) {
    && (forall k | 0 <= k < |m.waiters| :: m.waiters[k] < |m.starts| && m.starts[m.waiters[k]].takeover == Queued)
    && (forall j, k | 0 <= j < k < |m.waiters| :: m.waiters[j] < m.waiters[k])
    && (forall i | 0 <= i < |m.starts| && m.starts[i].takeover == Queued :: i in m.waiters)
  }

  /** No turn gets further than one before it. */
  predicate OrderInv(m: Turns) {
    forall i, j | 0 <= i < j < |m.starts| :: Rank(m.starts[i].takeover) >= Rank(m.starts[j].takeover)
  }

  predicate LockInv(m: Turns) {
    HolderInv(m) && QueueInv(m) && OrderInv(m)
  }

  /** A turn was released once when it is past the lock and never before, and one that is
      taken has exactly one party left to release it. */
  predicate ReleaseInv(s: Start) {
    && s.released == (if s.takeover == Passed || s.takeover == Failed then 1 else 0)
    && (s.abandoned <==> IsOver(s) && s.handler == Unborn && s.phase != Over(Ended(ABORT)))
    && (s.phase == Waiting ==> s.takeover != Passed)
  }

  predicate PhaseInv(s: Start) {
    && (s.handler != Unborn ==> s.takeover == Passed)
    && (s.phase == Waiting ==> s.handler == Unborn)
    && (s.phase == Running ==> s.handler != Unborn)
    && (s.phase == Unwinding ==> s.handler.Done?)
    && (s.handler == Live ==> s.phase == Running)
    && (IsOver(s) && s.handler == Unborn && !s.abandoned ==> s.takeover == Passed)
    && (IsOver(s) && s.handler == Unborn ==> s.phase.outcome != Ended(OK))
  }

  /** Every start that has not ended is the latest, or is marked to end with ABORT. */
  predicate MarkInv(m: Turns) {
    && m.start == (if |m.starts| > 0 && !IsOver(m.starts[|m.starts| - 1]) then Some(|m.starts| - 1) else None)
    && (forall t <- m.aborted :: t < |m.starts| && !IsOver(m.starts[t]))
    && (forall i | 0 <= i < |m.starts| && !IsOver(m.starts[i]) :: m.start == Some(i) || i in m.aborted)
    && (forall i | 0 <= i < |m.starts| :: m.starts[i].previous == None || m.starts[i].previous == Some(i - 1))
  }

  /** What became of a start that something overtook before it ended. */
  predicate OvertakenInv(m: Turns, i: nat)
    requires i < |m.starts|
  {
    var s := m.starts[i];
    s.overtaken ==>
      if IsOver(s) then s.phase.outcome == Ended(ABORT) || s.phase.outcome == Cancelled
                     || (s.phase.outcome == Ended(TIMEOUT) && s.handler == Unborn)
      else i in m.aborted
  }

  predicate Inv(m: Turns) {
    && LockInv(m) && MarkInv(m)
    && forall i | 0 <= i < |m.starts| :: StartInv(m, i)
  }

  // -- The lock --------------------------------------------------------------------------

  predicate SameTakeovers(m: Turns, n: Turns) {
    |m.starts| == |n.starts| && forall i | 0 <= i < |m.starts| :: m.starts[i].takeover == n.starts[i].takeover
  }

  /** Only the takeover of `t` changed. */
  predicate OneTakeover(m: Turns, n: Turns, t: nat) {
    && t < |m.starts| == |n.starts|
    && forall i | 0 <= i < |m.starts| && i != t :: m.starts[i].takeover == n.starts[i].takeover
  }

  lemma QueueSame(m: Turns, n: Turns)
    requires QueueInv(m) && |m.starts| == |n.starts| && m.waiters == n.waiters
    requires forall i | 0 <= i < |m.starts| :: m.starts[i].takeover == Queued <==> n.starts[i].takeover == Queued
    ensures QueueInv(n)
  {
    forall i | 0 <= i < |n.starts| && n.starts[i].takeover == Queued ensures i in n.waiters {
      assert m.starts[i].takeover == Queued;
    }
    forall k | 0 <= k < |n.waiters| ensures n.waiters[k] < |n.starts| && n.starts[n.waiters[k]].takeover == Queued {
      assert m.waiters[k] < |m.starts|;
    }
  }

  lemma LockSame(m: Turns, n: Turns)
    requires LockInv(m) && SameTakeovers(m, n) && m.holder == n.holder && m.waiters == n.waiters
    ensures LockInv(n)
  {
    QueueSame(m, n);
  }

  /** The turn with the lock goes on with it, or releases it. */
  lemma LockOfHolder(m: Turns, n: Turns, t: nat)
    requires LockInv(m) && OneTakeover(m, n, t) && m.waiters == n.waiters
    requires Holding(m.starts[t].takeover)
    requires n.starts[t].takeover != Queued
    requires n.holder == if Holding(n.starts[t].takeover) then m.holder else None
    ensures LockInv(n)
  {
    QueueSame(m, n);
    forall i, j | 0 <= i < j < |n.starts| ensures Rank(n.starts[i].takeover) >= Rank(n.starts[j].takeover) {
      assert Rank(m.starts[i].takeover) >= Rank(m.starts[j].takeover);
      if i != t { assert Holding(m.starts[i].takeover) <==> m.holder == Some(i); }
    }
  }

  lemma QueueAcquired(m: Turns)
    requires QueueInv(m) && Enabled(m, Acquire)
    ensures QueueInv(AcquireStep(m))
    ensures m.starts[m.waiters[0]].takeover == Queued
    ensures forall i | 0 <= i < m.waiters[0] :: m.starts[i].takeover != Queued
  {
    var t, n := m.waiters[0], AcquireStep(m);
    forall i | 0 <= i < |n.starts| && n.starts[i].takeover == Queued ensures i in n.waiters {
      assert m.starts[i].takeover == Queued;
      assert i in m.waiters;
    }
    forall i | 0 <= i < t ensures i !in m.waiters {
    }
  }

  lemma LockAcquired(m: Turns)
    requires LockInv(m) && Enabled(m, Acquire)
    ensures LockInv(AcquireStep(m))
  {
    QueueAcquired(m);
    hide QueueInv;
  }

  lemma LockArrived(m: Turns)
    requires LockInv(m)
    ensures LockInv(ArriveStep(m))
  {
    var n := ArriveStep(m);
    assert QueueInv(n) by {
      forall i | 0 <= i < |n.starts| && n.starts[i].takeover == Queued ensures i in n.waiters {
        if i < |m.starts| { assert i in m.waiters; } else { assert n.waiters[|m.waiters|] == i; }
      }
    }
    hide QueueInv;
  }

  lemma LockUntouched(m: Turns, step: Step)
    requires LockInv(m) && Enabled(m, step)
    requires step.StopReached? || step.GiveUp? || step.HandlerEnds? || step.Resume? || step.CancelSeen?
          || step.Unwound? || step.Shutdown?
    ensures LockInv(Apply(m, step))
  {
    hide LockInv;
    LockSame(m, Apply(m, step));
  }

  lemma LockGoesOn(m: Turns, step: Step)
    requires LockInv(m) && Enabled(m, step)
    requires step.BackendHalted? || step.HaltFails? || step.TaskAwaited? || step.Begin? || step.ReleaseAfter?
    ensures LockInv(Apply(m, step))
  {
    LockHolds(m, step.turn);
    hide LockInv;
    LockOfHolder(m, Apply(m, step), step.turn);
  }

  lemma LockKeeps(m: Turns, step: Step)
    requires LockInv(m) && Enabled(m, step)
    ensures LockInv(Apply(m, step))
  {
    if step.Arrive? {
      LockArrived(m);
    } else if step.Acquire? {
      LockAcquired(m);
    } else {
      hide *;
      if step.BackendHalted? || step.HaltFails? || step.TaskAwaited? || step.Begin? || step.ReleaseAfter? {
        LockGoesOn(m, step);
      } else {
        LockUntouched(m, step);
      }
    }
  }

  lemma LockHolds(m: Turns, t: nat)
    requires LockInv(m) && t < |m.starts|
    ensures Holding(m.starts[t].takeover) <==> m.holder == Some(t)
  {
  }

  // -- The marks -------------------------------------------------------------------------

  /** A start ends: it is no longer the latest, nor marked. */
  lemma MarksOfEnd(m: Turns, n: Turns, t: nat)
    requires MarkInv(m) && t < |m.starts| == |n.starts| && !IsOver(m.starts[t]) && IsOver(n.starts[t])
    requires forall i | 0 <= i < |m.starts| :: n.starts[i].previous == m.starts[i].previous
    requires forall i | 0 <= i < |m.starts| && i != t :: IsOver(n.starts[i]) == IsOver(m.starts[i])
    requires n.aborted == m.aborted - {t} && n.start == if m.start == Some(t) then None else m.start
    ensures MarkInv(n)
  {
  }

  lemma MarksSame(m: Turns, n: Turns)
    requires MarkInv(m) && |m.starts| == |n.starts|
    requires forall i | 0 <= i < |m.starts| :: n.starts[i].previous == m.starts[i].previous
    requires forall i | 0 <= i < |m.starts| :: IsOver(n.starts[i]) == IsOver(m.starts[i])
    requires n.start == m.start
    requires n.aborted == m.aborted || (m.start.Some? && n.aborted == m.aborted + {m.start.value})
    ensures MarkInv(n)
  {
  }

  lemma MarksArrived(m: Turns)
    requires MarkInv(m)
    ensures MarkInv(ArriveStep(m))
  {
  }

  lemma MarksEnd(m: Turns, step: Step)
    requires MarkInv(m) && Enabled(m, step)
    requires step.Begin? || step.GiveUp? || step.Resume? || step.Unwound?
    ensures MarkInv(Apply(m, step))
  {
    hide MarkInv;
    var n := Apply(m, step);
    if step.Begin? && step.turn !in m.aborted { MarksSame(m, n); } else { MarksOfEnd(m, n, step.turn); }
  }

  lemma MarksGoOn(m: Turns, step: Step)
    requires MarkInv(m) && Enabled(m, step)
    requires !step.Arrive? && !step.Begin? && !step.GiveUp? && !step.Resume? && !step.Unwound?
    ensures MarkInv(Apply(m, step))
  {
    hide MarkInv;
    MarksSame(m, Apply(m, step));
  }

  lemma MarksKeep(m: Turns, step: Step)
    requires MarkInv(m) && Enabled(m, step)
    ensures MarkInv(Apply(m, step))
  {
    if step.Arrive? {
      MarksArrived(m);
    } else {
      hide *;
      if step.Begin? || step.GiveUp? || step.Resume? || step.Unwound? { MarksEnd(m, step); } else { MarksGoOn(m, step); }
    }
  }

  // -- Each start ------------------------------------------------------------------------

  predicate StartInv(m: Turns, i: nat)
    requires i < |m.starts|
  {
    ReleaseInv(m.starts[i]) && PhaseInv(m.starts[i]) && OvertakenInv(m, i)
  }

  lemma StartsArrive(m: Turns, i: nat)
    requires MarkInv(m) && i <= |m.starts| && (i < |m.starts| ==> StartInv(m, i))
    ensures StartInv(ArriveStep(m), i)
  {
    if i < |m.starts| && !IsOver(m.starts[i]) { assert m.start == Some(i) || i in m.aborted; }
  }

  lemma StartsStop(m: Turns, i: nat)
    requires MarkInv(m) && i < |m.starts| && StartInv(m, i)
    ensures StartInv(StopStep(m), i)
  {
    if !IsOver(m.starts[i]) { assert m.start == Some(i) || i in m.aborted; }
  }

  lemma StartsAcquire(m: Turns, i: nat)
    requires QueueInv(m) && Enabled(m, Acquire) && i < |m.starts| && StartInv(m, i)
    ensures StartInv(AcquireStep(m), i)
  {
    QueueAcquired(m);
    hide QueueInv;
  }

  lemma StartsBegin(m: Turns, t: nat, i: nat)
    requires Enabled(m, Begin(t)) && i < |m.starts| && StartInv(m, i)
    ensures StartInv(BeginStep(m, t), i)
  {
  }

  lemma StartsEnd(m: Turns, step: Step, i: nat)
    requires step.Begin? || step.GiveUp? || step.Resume? || step.Unwound?
    requires Enabled(m, step) && i < |m.starts| && StartInv(m, i)
    ensures StartInv(Apply(m, step), i)
  {
    if step.Begin? { StartsBegin(m, step.turn, i); }
  }

  lemma StartsGoOn(m: Turns, step: Step, i: nat)
    requires step.BackendHalted? || step.HaltFails? || step.TaskAwaited? || step.ReleaseAfter?
          || step.HandlerEnds? || step.CancelSeen? || step.Shutdown?
    requires Enabled(m, step) && i < |m.starts| && StartInv(m, i)
    ensures StartInv(Apply(m, step), i)
  {
  }

  lemma StartsKeep(m: Turns, step: Step, i: nat)
    requires Inv(m) && Enabled(m, step) && i < |Apply(m, step).starts|
    ensures StartInv(Apply(m, step), i)
  {
    if step.Arrive? {
      StartsArrive(m, i);
    } else if step.StopReached? {
      StartsStop(m, i);
    } else if step.Acquire? {
      StartsAcquire(m, i);
    } else {
      assert i < |m.starts| && StartInv(m, i);
      hide *;
      if step.Begin? || step.GiveUp? || step.Resume? || step.Unwound? {
        StartsEnd(m, step, i);
      } else {
        StartsGoOn(m, step, i);
      }
    }
  }

  lemma InvKeeps(m: Turns, step: Step)
    requires Inv(m) && Enabled(m, step)
    ensures Inv(Apply(m, step))
  {
    LockKeeps(m, step);
    MarksKeep(m, step);
    forall i | 0 <= i < |Apply(m, step).starts| ensures StartInv(Apply(m, step), i) {
      StartsKeep(m, step, i);
    }
  }

  /** The invariant holds after every run. */
  lemma {:induction false} InvAfter(m: Turns, steps: seq<Step>)
    requires Inv(m) && ValidRun(m, steps)
    ensures Inv(After(m, steps))
    decreases |steps|
  {
    if steps != [] {
      InvKeeps(m, steps[0]);
      InvAfter(Apply(m, steps[0]), steps[1..]);
    }
  }

  // -- What a takeover waits for ---------------------------------------------------------

  /** A takeover that halts or awaits the previous start has one whose handler began. */
  predicate HasPrevious(m: Turns, i: nat)
    requires i < |m.starts|
  {
    m.starts[i].takeover in {HaltingBackend, AwaitingTask} ==>
      && m.starts[i].previous.Some? && m.starts[i].previous.value < |m.starts|
      && m.starts[m.starts[i].previous.value].handler != Unborn
  }

  predicate PreviousInv(m: Turns) {
    forall i | 0 <= i < |m.starts| :: HasPrevious(m, i)
  }

  lemma PreviousStays(m: Turns, step: Step, i: nat)
    requires Enabled(m, step) && !step.Arrive? && !step.Acquire? && i < |m.starts| && HasPrevious(m, i)
    ensures HasPrevious(Apply(m, step), i)
  {
  }

  lemma PreviousTaken(m: Turns, i: nat)
    requires Enabled(m, Acquire) && i < |m.starts| && HasPrevious(m, i)
    ensures HasPrevious(AcquireStep(m), i)
  {
  }

  lemma PreviousKeeps(m: Turns, step: Step)
    requires PreviousInv(m) && Enabled(m, step)
    ensures PreviousInv(Apply(m, step))
  {
    forall i | 0 <= i < |Apply(m, step).starts| ensures HasPrevious(Apply(m, step), i) {
      if i < |m.starts| {
        assert HasPrevious(m, i);
        if step.Acquire? { PreviousTaken(m, i); } else if !step.Arrive? { PreviousStays(m, step, i); }
      }
    }
  }
}
