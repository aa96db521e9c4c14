/** One local component as a step machine: its commands, its suspension and, from `Turns`,
    its starts. `Receive` is the code of `run` up to its first await. */
module Hold {
  import opened Wrappers
  import opened Commands
  import T = Turns

  datatype Kind = Start | Stop | Suspend | Resume | Function

  /** One suspension. `lifts` counts how often it was lifted, and `creator` is the suspend
      command that put it in force. */
  datatype Suspension = Suspension(released: bool, aborted: bool, lifts: nat, creator: nat)

  datatype Phase = Held(on: nat) | InTurn(turn: nat) | Running | Over(outcome: Outcome)

  /** `own` is the suspension a suspend put in force. `heldAtStop` records that the command
      waited on a suspension when a stop lifted it, and `began` the state its handler began in. */
  datatype Command = Command(kind: Kind, phase: Phase, handler: Handler, own: Option<nat>,
                             heldAtStop: bool, began: Option<Condition>)

  /** Whether a component was operable, and whether a suspension was in force. */
  datatype Condition = Condition(operable: bool, suspended: bool)

  datatype Hosted = Hosted(roisCommon: bool, operable: bool, turns: T.Turns, commands: seq<Command>,
                           suspension: Option<nat>, suspensions: seq<Suspension>, delivered: seq<Condition>)

  function Init(roisCommon: bool): Hosted {
    Hosted(roisCommon, false, T.INIT, [], None, [], [])
  }

  datatype Step =
    | Receive(kind: Kind)
    | HeldWakes(command: nat)
    | HeldEnds(command: nat, outcome: Outcome)
    | HandlerEnds(command: nat, end: HandlerEnd)
    | Resumes(command: nat)
    | CancelSeen(command: nat)
    | OfTurns(step: T.Step)
    | SetOperable(operable: bool)
    | Publish
    | Shutdown

  // -- The pieces of a step --------------------------------------------------------------

  function Now(h: Hosted): Condition {
    Condition(h.operable, h.suspension.Some?)
  }

  function MarkHeld(commands: seq<Command>, on: nat): (r: seq<Command>)
    ensures |r| == |commands|
  {
    seq(|commands|, i requires 0 <= i < |commands| =>
      if commands[i].phase == Held(on) then commands[i].(heldAtStop := true) else commands[i])
  }

  /** End the suspension in force, releasing or aborting the commands it held. */
  function Lift(h: Hosted, aborted: bool): Hosted {
    if h.suspension == None || h.suspension.value >= |h.suspensions| then h.(suspension := None)
    else
      var k := h.suspension.value;
      var s := h.suspensions[k];
      h.(suspension := None,
         suspensions := h.suspensions[k := s.(released := true, aborted := aborted, lifts := s.lifts + 1)],
         commands := if aborted then MarkHeld(h.commands, k) else h.commands)
  }

  function Put(h: Hosted, c: nat, command: Command): Hosted
    requires c < |h.commands|
  {
    h.(commands := h.commands[c := command])
  }

  function End(h: Hosted, c: nat, outcome: Outcome): Hosted
    requires c < |h.commands|
  {
    Put(h, c, h.commands[c].(phase := Over(outcome)))
  }

  /** Start the handler of a command. */
  function Begin(h: Hosted, c: nat): Hosted
    requires c < |h.commands|
  {
    Put(h, c, h.commands[c].(phase := Running, handler := Live, began := Some(Now(h))))
  }

  /** A command that may run: a start takes its turn, any other begins its handler. */
  function Go(h: Hosted, c: nat): Hosted
    requires c < |h.commands|
  {
    if h.commands[c].kind == Start then
      Put(h, c, h.commands[c].(phase := InTurn(|h.turns.starts|), began := Some(Now(h)))).(turns := T.ArriveStep(h.turns))
    else Begin(h, c)
  }

  /** The loop of `_held`, and the check after it. */
  function HoldOrGo(h: Hosted, c: nat): Hosted
    requires c < |h.commands|
  {
    if h.suspension.Some? then Put(h, c, h.commands[c].(phase := Held(h.suspension.value)))
    else if !h.operable then End(h, c, Ended(ERROR))
    else Go(h, c)
  }

  function StopHandler(h: Hosted, c: nat): Hosted
    requires c < |h.commands|
  {
    var lifted := Lift(h.(turns := T.StopStep(h.turns)), true);
    Begin(lifted, c)
  }

  function SuspendHandler(h: Hosted, c: nat): Hosted
    requires c < |h.commands|
  {
    if h.suspension.Some? then Begin(h, c)
    else
      var k := |h.suspensions|;
      var held := Put(h, c, h.commands[c].(own := Some(k))).(
                    suspension := Some(k), suspensions := h.suspensions + [Suspension(false, false, 0, c)]);
      Begin(held, c)
  }

  /** `run`, up to its first await. */
  function ReceiveStep(h: Hosted, kind: Kind): Hosted {
    var c := |h.commands|;
    var n := h.(commands := h.commands + [Command(kind, Over(Cancelled), Unborn, None, false, None)]);
    if !h.operable then End(n, c, Ended(ERROR))
    else if h.roisCommon && kind in {Suspend, Resume, Stop} && !h.turns.started
            && !(kind == Stop && h.turns.start.Some?) then End(n, c, Ended(OK))
    else if h.roisCommon && kind == Suspend then SuspendHandler(n, c)
    else if h.roisCommon && kind == Resume then Begin(n, c)
    else if kind == Stop then StopHandler(n, c)
    else if h.roisCommon then HoldOrGo(n, c)
    else Go(n, c)
  }

  function WakeStep(h: Hosted, c: nat): Hosted
    requires c < |h.commands| && h.commands[c].phase.Held? && h.commands[c].phase.on < |h.suspensions|
  {
    if h.suspensions[h.commands[c].phase.on].aborted then End(h, c, Ended(ABORT)) else HoldOrGo(h, c)
  }

  /** `_end` resumes, and `_suspend` or `_resume` after it. */
  function ResumeStep(h: Hosted, c: nat): Hosted
    requires c < |h.commands| && h.commands[c].handler.Done?
  {
    var command := h.commands[c];
    var status := EndStatus(command.handler.end);
    var n := End(h, c, Ended(status));
    if !h.roisCommon then n
    else if command.kind == Suspend && status != OK && command.own.Some? && h.suspension == command.own then Lift(n, false)
    else if command.kind == Resume && status == OK then Lift(n, false)
    else n
  }

  // -- The steps -------------------------------------------------------------------------

  predicate Enabled(h: Hosted, step: Step) {
    match step
    case Receive(_) => true
    case HeldWakes(c) =>
      && c < |h.commands| && h.commands[c].phase.Held? && h.commands[c].phase.on < |h.suspensions|
      && h.suspensions[h.commands[c].phase.on].released
    case HeldEnds(c, outcome) =>
      c < |h.commands| && h.commands[c].phase.Held? && outcome in {Ended(TIMEOUT), Cancelled}
    case HandlerEnds(c, _) => c < |h.commands| && h.commands[c].handler == Live
    case Resumes(c) => c < |h.commands| && h.commands[c].phase == Running && h.commands[c].handler.Done?
    case CancelSeen(c) => c < |h.commands| && h.commands[c].phase == Running && h.commands[c].handler.Done?
    case OfTurns(step) => !step.Arrive? && !step.StopReached? && !step.Shutdown? && T.Enabled(h.turns, step)
    case SetOperable(_) => true
    case Publish => true
    case Shutdown => true
  }

  function Apply(h: Hosted, step: Step): Hosted
    requires Enabled(h, step)
  {
    match step
    case Receive(kind) => ReceiveStep(h, kind)
    case HeldWakes(c) => WakeStep(h, c)
    case HeldEnds(c, outcome) => End(h, c, outcome)
    case HandlerEnds(c, end) => Put(h, c, h.commands[c].(handler := Done(end)))
    case Resumes(c) => ResumeStep(h, c)
    case CancelSeen(c) => End(h, c, Cancelled)
    case OfTurns(step) => h.(turns := T.Apply(h.turns, step))
    case SetOperable(operable) => h.(operable := operable)
    case Publish => if h.operable && h.suspension == None then h.(delivered := h.delivered + [Now(h)]) else h
    case Shutdown => Lift(h.(operable := false, turns := T.ShutdownStep(h.turns)), true)
  }

  predicate ValidRun(h: Hosted, steps: seq<Step>)
    decreases |steps|
  {
    steps == [] || (Enabled(h, steps[0]) && ValidRun(Apply(h, steps[0]), steps[1..]))
  }

  function After(h: Hosted, steps: seq<Step>): Hosted
    requires ValidRun(h, steps)
    decreases |steps|
  {
    if steps == [] then h else After(Apply(h, steps[0]), steps[1..])
  }
}
