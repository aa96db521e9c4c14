/** The component an engine hosts, as the object whose fields the methods of `LocalComponents`
    update in place. Each method is the code between two awaits, and does what the step of
    `Hold` or `Turns` it is proved against says. */
module Local {
  import opened Wrappers
  import opened Commands
  import opened Hold
  import T = Turns

  class Component {
    const roisCommon: bool
    var operable: bool
    // The starts that reached `_start`, the latest one, and the marks of the others.
    var starts: seq<T.Start>
    var start: Option<nat>
    var started: bool
    var aborted: set<nat>
    // The takeover lock.
    var holder: Option<nat>
    var waiters: seq<nat>
    // The commands, and the suspension they may wait on.
    var commands: seq<Command>
    var suspension: Option<nat>
    var suspensions: seq<Suspension>
    // What happened.
    var log: seq<T.Event>
    var delivered: seq<Condition>

    ghost function TurnsState(): T.Turns
      reads this
    {
      T.Turns(starts, start, started, aborted, holder, waiters, log)
    }

    ghost function State(): Hosted
      reads this
    {
      Hosted(roisCommon, operable, TurnsState(), commands, suspension, suspensions, delivered)
    }

    constructor (roisCommon: bool)
      ensures State() == Init(roisCommon)
    {
      this.roisCommon := roisCommon;
      operable, starts, start, started, aborted := false, [], None, false, {};
      holder, waiters, commands, suspension, suspensions, log, delivered := None, [], [], None, [], [], [];
    }

    // -- Commands ------------------------------------------------------------------------

    /** `_lift`. */
    method LiftSuspension(aborting: bool)
      modifies this
      ensures State() == Lift(old(State()), aborting)
    {
      var lifted := suspension;
      suspension := None;
      if lifted.Some? && lifted.value < |suspensions| {
        var s := suspensions[lifted.value];
        suspensions := suspensions[lifted.value := s.(released := true, aborted := aborting, lifts := s.lifts + 1)];
        if aborting { commands := MarkHeld(commands, lifted.value); }
      }
    }

    /** `_begin`. */
    method BeginHandler(c: nat)
      requires c < |commands|
      modifies this
      ensures State() == Begin(old(State()), c)
    {
      commands := commands[c := commands[c].(phase := Running, handler := Live, began := Some(Condition(operable, suspension.Some?)))];
    }

    method EndCommand(c: nat, outcome: Outcome)
      requires c < |commands|
      modifies this
      ensures State() == End(old(State()), c, outcome)
    {
      commands := commands[c := commands[c].(phase := Over(outcome))];
    }

    /** `run`, up to its first await. */
    method Run(kind: Kind)
      modifies this
      ensures State() == ReceiveStep(old(State()), kind)
    {
      var c := |commands|;
      commands := commands + [Command(kind, Over(Cancelled), Unborn, None, false, None)];
      if !operable {
        EndCommand(c, Ended(ERROR));
        return;
      }
      if roisCommon {
        var unwinding := kind == Stop && start.Some?;
        if kind in {Suspend, Resume, Stop} && !started && !unwinding {
          EndCommand(c, Ended(OK));
          return;
        }
        if kind == Suspend {
          SuspendComponent(c);
          return;
        }
        if kind == Resume {
          BeginHandler(c);
          return;
        }
        if kind != Stop {
          Held(c);
          return;
        }
      }
      if kind == Start {
        StartArrives(c);
      } else if kind == Stop {
        StopComponent(c);
      } else {
        BeginHandler(c);
      }
    }

    /** A pass of the loop of `_held`, and what `run` does when it falls through. */
    method Held(c: nat)
      requires c < |commands|
      modifies this
      ensures State() == HoldOrGo(old(State()), c)
    {
      if suspension.Some? {
        commands := commands[c := commands[c].(phase := Phase.Held(suspension.value))];
      } else if !operable {
        EndCommand(c, Ended(ERROR));
      } else if commands[c].kind == Start {
        StartArrives(c);
      } else {
        BeginHandler(c);
      }
    }

    method HeldWakes(c: nat)
      requires Enabled(State(), Step.HeldWakes(c))
      modifies this
      ensures State() == Apply(old(State()), Step.HeldWakes(c))
    {
      if suspensions[commands[c].phase.on].aborted {
        EndCommand(c, Ended(ABORT));
      } else {
        Held(c);
      }
    }

    /** `_suspend`, up to its first await. */
    method SuspendComponent(c: nat)
      requires c < |commands|
      modifies this
      ensures State() == SuspendHandler(old(State()), c)
    {
      if suspension == None {
        suspension := Some(|suspensions|);
        commands := commands[c := commands[c].(own := suspension)];
        suspensions := suspensions + [Suspension(false, false, 0, c)];
      }
      BeginHandler(c);
    }

    /** `_stop`, up to its first await. */
    method StopComponent(c: nat)
      requires c < |commands|
      modifies this
      ensures State() == StopHandler(old(State()), c)
    {
      StopStarts();
      LiftSuspension(true);
      BeginHandler(c);
    }

    /** A stop clears `started` and marks the latest start. */
    method StopStarts()
      modifies this`starts, this`aborted, this`started, this`log
      ensures TurnsState() == T.StopStep(old(TurnsState()))
    {
      started := false;
      if start.Some? { aborted := aborted + {start.value}; }
      starts := T.OvertakeAll(starts);
      log := log + [T.StopRan];
    }

    /** `_end` resumes, and `_suspend` or `_resume` after it. */
    method CommandResumes(c: nat)
      requires Enabled(State(), Resumes(c))
      modifies this
      ensures State() == Apply(old(State()), Resumes(c))
    {
      var status := EndStatus(commands[c].handler.end);
      var kind, own := commands[c].kind, commands[c].own;
      EndCommand(c, Ended(status));
      if roisCommon && kind == Suspend && status != OK && own.Some? && suspension == own {
        LiftSuspension(false);
      } else if roisCommon && kind == Resume && status == OK {
        LiftSuspension(false);
      }
    }

    /** `_publish`, for an event some subscription takes. */
    method PublishEvent()
      modifies this
      ensures State() == Apply(old(State()), Publish)
    {
      if !operable || suspension.Some? { return; }
      delivered := delivered + [Condition(operable, suspension.Some?)];
    }

    /** The end of `stop` of the engine. */
    method ShutDown()
      modifies this
      ensures State() == Lift(old(State()).(operable := false, turns := T.ShutdownStep(old(TurnsState()))), true)
    {
      operable := false;
      started := false;
      log := log + [T.StopRan];
      LiftSuspension(true);
    }

    // -- Starts --------------------------------------------------------------------------

    /** `_start`, up to its first await. */
    method StartArrives(c: nat)
      requires c < |commands| && commands[c].kind == Start
      modifies this
      ensures State() == Go(old(State()), c)
    {
      commands := commands[c := commands[c].(phase := InTurn(|starts|), began := Some(Condition(operable, suspension.Some?)))];
      ReplaceLatest();
    }

    /** A new start replaces the latest one at once and queues for its turn. */
    method ReplaceLatest()
      modifies this`starts, this`start, this`started, this`aborted, this`waiters, this`log
      ensures TurnsState() == T.ArriveStep(old(TurnsState()))
    {
      var previous, t := start, |starts|;
      starts := T.OvertakeAll(starts) + [T.Start(previous, T.Queued, Unborn, T.Waiting, false, 0, false)];
      start := Some(t);
      started := true;
      if previous.Some? { aborted := aborted + {previous.value}; }
      waiters := waiters + [t];
      log := log + [T.Reached(t)];
    }

    method ReleaseLock(t: nat, takeover: T.Takeover)
      requires t < |starts|
      modifies this`starts, this`holder
      ensures TurnsState() == T.Release(old(TurnsState()), t, takeover)
    {
      holder := None;
      starts := starts[t := starts[t].(takeover := takeover, released := starts[t].released + 1)];
    }

    /** `_take_over` gets the lock. */
    method TakesLock()
      requires T.Enabled(TurnsState(), T.Acquire)
      modifies this`starts, this`holder, this`waiters
      ensures TurnsState() == T.Apply(old(TurnsState()), T.Acquire)
    {
      var t := waiters[0];
      waiters := waiters[1..];
      holder := Some(t);
      var previous := starts[t].previous;
      var next := T.Taken;
      if previous.Some? && previous.value < |starts| && starts[previous.value].handler != Unborn {
        next := if starts[previous.value].handler == Live then T.HaltingBackend else T.AwaitingTask;
      }
      starts := starts[t := starts[t].(takeover := next)];
    }

    /** A start that ends without having run is forgotten. */
    method DropStart(t: nat, outcome: Outcome)
      requires t < |starts|
      modifies this`starts, this`aborted, this`start, this`started, this`log
      ensures TurnsState() == T.Drop(old(TurnsState()), t, outcome)
    {
      aborted := aborted - {t};
      if start == Some(t) {
        start := None;
        started := false;
      }
      starts := starts[t := starts[t].(phase := T.Over(outcome))];
      log := log + [T.Finished(t, outcome)];
    }

    /** `_start` resumes with its turn. */
    method StartBegins(t: nat)
      requires T.Enabled(TurnsState(), T.Begin(t))
      modifies this`starts, this`holder, this`aborted, this`start, this`started, this`log
      ensures TurnsState() == T.Apply(old(TurnsState()), T.Begin(t))
    {
      var overtaken := t in aborted;
      ReleaseLock(t, T.Passed);
      if overtaken {
        DropStart(t, Ended(ABORT));
      } else {
        starts := starts[t := starts[t].(handler := Live, phase := T.Running)];
      }
    }

    /** `_start` times out or is cancelled while it waits for its turn. */
    method StartGivesUp(t: nat, outcome: Outcome)
      requires T.Enabled(TurnsState(), T.GiveUp(t, outcome))
      modifies this`starts, this`aborted, this`start, this`started, this`log
      ensures TurnsState() == T.Apply(old(TurnsState()), T.GiveUp(t, outcome))
    {
      starts := starts[t := starts[t].(abandoned := true)];
      DropStart(t, outcome);
    }

    /** The `finally` of `_end` for a start. */
    method FinishStart(t: nat, outcome: Outcome)
      requires t < |starts|
      modifies this`starts, this`aborted, this`start, this`started, this`log
      ensures TurnsState() == T.Finish(old(TurnsState()), t, outcome)
    {
      aborted := aborted - {t};
      if start == Some(t) { start := None; }
      if outcome != Ended(OK) && start == None { started := false; }
      starts := starts[t := starts[t].(phase := T.Over(outcome))];
      log := log + [T.Finished(t, outcome)];
    }

    /** `_end` of a start resumes after its handler. */
    method StartResumes(t: nat)
      requires T.Enabled(TurnsState(), T.Resume(t))
      modifies this`starts, this`aborted, this`start, this`started, this`log
      ensures TurnsState() == T.Apply(old(TurnsState()), T.Resume(t))
    {
      var status := EndStatus(starts[t].handler.end);
      if t in aborted { status := ABORT; }
      FinishStart(t, Ended(status));
    }
  }
}
