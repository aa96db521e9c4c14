/** The starts of one local component as a step machine.

    A start is known by its turn, its position among the starts that reached `_start`. The
    code between two awaits is one step. Steps of different coroutines interleave freely,
    but for two facts of the event loop: the takeover lock serves its waiters in order, and a
    takeover that waits for a handler sees it end after the start that ran it did, because
    that start registered for the end first. */
module Turns {
  import opened Wrappers
  import opened Commands

  /** The task that takes the turn of a start. From `HaltingBackend` to `Taken` it holds the
      lock. `Passed` and `Failed` have released it. */
  datatype Takeover = Queued | HaltingBackend | AwaitingTask | Taken | Passed | Failed

  datatype Phase = Waiting | Running | Unwinding | Over(outcome: Outcome)

  /** `previous` is the start this one replaced. `released` counts the releases of the turn,
      and `overtaken` records that a newer start or a stop came before this one ended. */
  datatype Start = Start(previous: Option<nat>, takeover: Takeover, handler: Handler, phase: Phase,
                         abandoned: bool, released: nat, overtaken: bool)

  datatype Event = Reached(turn: nat) | StopRan | Finished(turn: nat, outcome: Outcome)

  datatype Turns = Turns(starts: seq<Start>, start: Option<nat>, started: bool, aborted: set<nat>,
                         holder: Option<nat>, waiters: seq<nat>, log: seq<Event>)

  const INIT := Turns([], None, false, {}, None, [], [])

  // -- The pieces of a step --------------------------------------------------------------

  predicate IsOver(s: Start) {
    s.phase.Over?
  }

  function OvertakeAll(starts: seq<Start>): (r: seq<Start>)
    ensures |r| == |starts|
  {
    seq(|starts|, i requires 0 <= i < |starts| =>
      starts[i].(overtaken := starts[i].overtaken || !IsOver(starts[i])))
  }

  function Put(m: Turns, t: nat, s: Start): Turns
    requires t < |m.starts|
  {
    m.(starts := m.starts[t := s])
  }

  /** Release the lock from a turn that holds it. */
  function Release(m: Turns, t: nat, takeover: Takeover): Turns
    requires t < |m.starts|
  {
    Put(m, t, m.starts[t].(takeover := takeover, released := m.starts[t].released + 1)).(holder := None)
  }

  /** A start that ends without having run: `_start` forgets it. */
  function Drop(m: Turns, t: nat, outcome: Outcome): Turns
    requires t < |m.starts|
  {
    var latest := m.start == Some(t);
    Put(m, t, m.starts[t].(phase := Over(outcome))).(
      aborted := m.aborted - {t},
      start := if latest then None else m.start,
      started := m.started && !latest,
      log := m.log + [Finished(t, outcome)])
  }

  /** The `finally` of `_end`: a start that ends other than OK ends started, unless a newer
      start began. */
  function Finish(m: Turns, t: nat, outcome: Outcome): Turns
    requires t < |m.starts|
  {
    var start := if m.start == Some(t) then None else m.start;
    Put(m, t, m.starts[t].(phase := Over(outcome))).(
      aborted := m.aborted - {t},
      start := start,
      started := m.started && !(outcome != Ended(OK) && start == None),
      log := m.log + [Finished(t, outcome)])
  }

  // -- The steps -------------------------------------------------------------------------

  datatype Step =
    | Arrive                                  // a start reaches `_start`
    | StopReached                             // a stop reaches `_stop`
    | Acquire                                 // the first waiter takes the lock
    | BackendHalted(turn: nat)                // the stop handler of a takeover ended
    | HaltFails(turn: nat)                    // it left by a cancellation of its own
    | TaskAwaited(turn: nat)                  // the handler of the previous start is done
    | Begin(turn: nat)                        // the start resumes with its turn
    | GiveUp(turn: nat, outcome: Outcome)     // it timed out or was cancelled instead
    | ReleaseAfter(turn: nat)                 // the done-callback of an abandoned takeover
    | HandlerEnds(turn: nat, end: HandlerEnd)
    | Resume(turn: nat)                       // `_end` resumes after the handler
    | CancelSeen(turn: nat)                   // `_end` resumes cancelled by the engine
    | Unwound(turn: nat)                      // its stop handler ended
    | Shutdown                                // the engine stops

  predicate Enabled(m: Turns, step: Step) {
    match step
    case Arrive => true
    case StopReached => true
    case Acquire => m.holder == None && m.waiters != [] && m.waiters[0] < |m.starts|
    case BackendHalted(t) => t < |m.starts| && m.starts[t].takeover == HaltingBackend
    case HaltFails(t) => t < |m.starts| && m.starts[t].takeover == HaltingBackend
    case TaskAwaited(t) =>
      && t < |m.starts| && m.starts[t].takeover == AwaitingTask
      && m.starts[t].previous.Some? && m.starts[t].previous.value < |m.starts|
      && var p := m.starts[m.starts[t].previous.value];
         p.handler.Done? && p.phase != Running
    case Begin(t) => t < |m.starts| && m.starts[t].phase == Waiting && m.starts[t].takeover == Taken
    case GiveUp(t, outcome) =>
      && t < |m.starts| && m.starts[t].phase == Waiting
      && (outcome == Cancelled || (outcome == Ended(TIMEOUT) && m.starts[t].takeover != Failed))
    case ReleaseAfter(t) => t < |m.starts| && m.starts[t].abandoned && m.starts[t].takeover == Taken
    case HandlerEnds(t, _) => t < |m.starts| && m.starts[t].handler == Live
    case Resume(t) => t < |m.starts| && m.starts[t].phase == Running && m.starts[t].handler.Done?
    case CancelSeen(t) => t < |m.starts| && m.starts[t].phase == Running && m.starts[t].handler.Done?
    case Unwound(t) => t < |m.starts| && m.starts[t].phase == Unwinding
    case Shutdown => true
  }

  /** The new start replaces the latest one at once and queues for its turn. */
  function ArriveStep(m: Turns): Turns {
    var t := |m.starts|;
    m.(starts := OvertakeAll(m.starts) + [Start(m.start, Queued, Unborn, Waiting, false, 0, false)],
       start := Some(t), started := true,
       aborted := if m.start.Some? then m.aborted + {m.start.value} else m.aborted,
       waiters := m.waiters + [t],
       log := m.log + [Reached(t)])
  }

  function StopStep(m: Turns): Turns {
    m.(starts := OvertakeAll(m.starts), started := false,
       aborted := if m.start.Some? then m.aborted + {m.start.value} else m.aborted,
       log := m.log + [StopRan])
  }

  /** What a takeover does once it has the lock: nothing to halt, a handler to halt, or one
      that is done already. */
  function TakeOver(m: Turns, t: nat): Takeover
    requires t < |m.starts|
  {
    var previous := m.starts[t].previous;
    if previous == None || previous.value >= |m.starts| || m.starts[previous.value].handler == Unborn then Taken
    else if m.starts[previous.value].handler == Live then HaltingBackend
    else AwaitingTask
  }

  function AcquireStep(m: Turns): Turns
    requires m.waiters != [] && m.waiters[0] < |m.starts|
  {
    var t := m.waiters[0];
    Put(m, t, m.starts[t].(takeover := TakeOver(m, t))).(holder := Some(t), waiters := m.waiters[1..])
  }

  /** A start with its turn ends with ABORT when it was overtaken, and runs otherwise. Either
      way the turn passes on. */
  function BeginStep(m: Turns, t: nat): Turns
    requires t < |m.starts|
  {
    if t in m.aborted then Drop(Release(m, t, Passed), t, Ended(ABORT))
    else
      var r := Release(m, t, Passed);
      Put(r, t, r.starts[t].(handler := Live, phase := Running))
  }

  function GiveUpStep(m: Turns, t: nat, outcome: Outcome): Turns
    requires t < |m.starts|
  {
    Drop(Put(m, t, m.starts[t].(abandoned := true)), t, outcome)
  }

  function ResumeStep(m: Turns, t: nat): Turns
    requires t < |m.starts| && m.starts[t].handler.Done?
  {
    Finish(m, t, Ended(if t in m.aborted then ABORT else EndStatus(m.starts[t].handler.end)))
  }

  function ShutdownStep(m: Turns): Turns {
    m.(started := false, log := m.log + [StopRan])
  }

  function Apply(m: Turns, step: Step): Turns
    requires Enabled(m, step)
  {
    match step
    case Arrive => ArriveStep(m)
    case StopReached => StopStep(m)
    case Acquire => AcquireStep(m)
    case BackendHalted(t) => Put(m, t, m.starts[t].(takeover := AwaitingTask))
    case HaltFails(t) => Release(m, t, Failed)
    case TaskAwaited(t) => Put(m, t, m.starts[t].(takeover := Taken))
    case Begin(t) => BeginStep(m, t)
    case GiveUp(t, outcome) => GiveUpStep(m, t, outcome)
    case ReleaseAfter(t) => Release(m, t, Passed)
    case HandlerEnds(t, end) => Put(m, t, m.starts[t].(handler := Done(end)))
    case Resume(t) => ResumeStep(m, t)
    case CancelSeen(t) => Put(m, t, m.starts[t].(phase := Unwinding))
    case Unwound(t) => Finish(m, t, Cancelled)
    case Shutdown => ShutdownStep(m)
  }

  /** A run: every step is enabled where it is taken. */
  predicate ValidRun(m: Turns, steps: seq<Step>)
    decreases |steps|
  {
    steps == [] || (Enabled(m, steps[0]) && ValidRun(Apply(m, steps[0]), steps[1..]))
  }

  function After(m: Turns, steps: seq<Step>): Turns
    requires ValidRun(m, steps)
    decreases |steps|
  {
    if steps == [] then m else After(Apply(m, steps[0]), steps[1..])
  }
}
