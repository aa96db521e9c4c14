/** The sequence of an `execute` as a step machine: its items in order, the branches of an
    item together, each branch in order. The code between two awaits is one step. */
module Sequence {
  import opened Wrappers
  import opened Commands

  type Id = nat

  /** A command of its own, or branches that run at the same time. */
  datatype Item = Single(unit: Id) | Concurrent(branches: seq<seq<Id>>)

  function Branches(item: Item): seq<seq<Id>> {
    match item
    case Single(unit) => [[unit]]
    case Concurrent(branches) => branches
  }

  /** The place of a command: its item, its branch there, and its position in the branch. */
  datatype Place = Place(item: nat, branch: nat, index: nat)

  predicate In(items: seq<Item>, p: Place) {
    && p.item < |items| && p.branch < |Branches(items[p.item])|
    && p.index < |Branches(items[p.item])[p.branch]|
  }

  function Unit(items: seq<Item>, p: Place): Id
    requires In(items, p)
  {
    Branches(items[p.item])[p.branch][p.index]
  }

  /** Every command of the sequence has its own id. */
  ghost predicate DistinctIds(items: seq<Item>) {
    forall p, q | In(items, p) && In(items, q) && Unit(items, p) == Unit(items, q) :: p == q
  }

  // -- The state -------------------------------------------------------------------------

  /** Where a branch is: before a command, in one, or done. */
  datatype BranchPhase = At(index: nat) | InUnit(index: nat) | BranchOver(ok: bool) | BranchCancelled

  /** Where the sequence is. `Swept` is the end of a cancelled sequence, whose branches may
      still unwind. */
  datatype Phase = Before | InItem | Finished | Swept

  /** An entry of the command table: how the command ended, and whether its task runs. */
  datatype Entry = Entry(status: Option<Status>, running: bool)

  datatype Event = Began(id: Id) | Completed(id: Id, status: Status)

  /** `ended` is how each command ended first, and `log` what the session could see: the
      handlers that began and the completed notifications. */
  datatype State = State(phase: Phase, item: nat, branches: seq<BranchPhase>, cancelled: bool,
                         table: map<Id, Entry>, ended: map<Id, Status>, log: seq<Event>)

  // -- The pieces of a step --------------------------------------------------------------

  /** `_complete`, through `_finish`: the first status of a command stays. */
  function Complete(s: State, id: Id, status: Status): State {
    if id in s.table && s.table[id].status == None then
      s.(table := s.table[id := s.table[id].(status := Some(status))],
         ended := s.ended[id := status],
         log := s.log + [Completed(id, status)])
    else s
  }

  /** `_skip`: end with ABORT the commands that have neither ended nor begun. */
  function Skip(s: State, ids: seq<Id>): State
    decreases |ids|
  {
    if ids == [] then s
    else
      var id := ids[0];
      Skip(if id in s.table && !s.table[id].running then Complete(s, id, ABORT) else s, ids[1..])
  }

  function Flat(branches: seq<seq<Id>>): seq<Id> {
    if branches == [] then [] else branches[0] + Flat(branches[1..])
  }

  /** `_units` of every item from `from` on. */
  function UnitsFrom(items: seq<Item>, from: nat): seq<Id>
    decreases |items| - from
  {
    if from >= |items| then [] else Flat(Branches(items[from])) + UnitsFrom(items, from + 1)
  }

  function SetRunning(s: State, id: Id, running: bool): State {
    if id in s.table then s.(table := s.table[id := s.table[id].(running := running)]) else s
  }

  predicate IsOver(b: BranchPhase) {
    b.BranchOver? || b.BranchCancelled?
  }

  // -- The steps -------------------------------------------------------------------------

  datatype Step =
    | StartItem                              // the delay of the item is over
    | BeginUnit(branch: nat)                 // the task of the next command starts
    | UnitMissing(branch: nat)               // its entry or its component is gone
    | EndUnit(branch: nat, status: Status)   // the task of a command ended
    | BranchEnds(branch: nat)                // a branch has no more commands
    | UnitCancelled(branch: nat)             // the branch is cancelled in a command
    | SleepCancelled(branch: nat)            // the branch is cancelled in a delay
    | Gathered                               // every branch of the item ended
    | Cancel                                 // the session went away
    | Sweep                                  // the sequence sees its cancellation
    | Forget(id: Id)                         // pruning forgets a finished command

  function Current(items: seq<Item>, s: State): seq<seq<Id>> {
    if s.item < |items| then Branches(items[s.item]) else []
  }

  predicate BranchAt(items: seq<Item>, s: State, b: nat, phase: BranchPhase) {
    && (s.phase == InItem || s.phase == Swept)
    && b < |s.branches| && b < |Current(items, s)| && s.branches[b] == phase
  }

  /** A branch of the current item, in a command of it. */
  predicate InsideUnit(items: seq<Item>, s: State, b: nat) {
    && b < |s.branches| && s.branches[b].InUnit? && BranchAt(items, s, b, s.branches[b])
    && s.branches[b].index < |Current(items, s)[b]|
  }

  /** A branch of the current item, before a command of it. */
  predicate BeforeUnit(items: seq<Item>, s: State, b: nat) {
    && b < |s.branches| && s.branches[b].At? && BranchAt(items, s, b, s.branches[b])
    && s.branches[b].index < |Current(items, s)[b]|
  }

  /** The command a branch is in or before. */
  function UnitOf(items: seq<Item>, s: State, b: nat): Id
    requires InsideUnit(items, s, b) || BeforeUnit(items, s, b)
  {
    Current(items, s)[b][s.branches[b].index]
  }

  predicate Enabled(items: seq<Item>, s: State, step: Step) {
    match step
    case StartItem => s.phase == Before && s.item < |items|
    case BeginUnit(b) => BeforeUnit(items, s, b) && UnitOf(items, s, b) in s.table
    case UnitMissing(b) => BeforeUnit(items, s, b)
    case EndUnit(b, _) => InsideUnit(items, s, b)
    case BranchEnds(b) =>
      && b < |s.branches| && s.branches[b].At? && BranchAt(items, s, b, s.branches[b])
      && s.branches[b].index == |Current(items, s)[b]|
    case UnitCancelled(b) => s.cancelled && InsideUnit(items, s, b)
    case SleepCancelled(b) =>
      s.cancelled && b < |s.branches| && s.branches[b].At? && BranchAt(items, s, b, s.branches[b])
    case Gathered => s.phase == InItem && s.item < |items| && forall b | 0 <= b < |s.branches| :: s.branches[b].BranchOver?
    case Cancel => true
    case Sweep =>
      && s.cancelled
      && ((s.phase == Before && s.item < |items|)
          || (s.phase == InItem
              && ((forall b | 0 <= b < |s.branches| :: IsOver(s.branches[b])) || BranchCancelled in s.branches)))
    case Forget(id) => id in s.table && s.table[id].status.Some? && !s.table[id].running
  }

  /** A command of a branch ended: the branch goes on, or skips what follows. */
  function AfterUnit(items: seq<Item>, s: State, b: nat, k: nat, status: Status): State
    requires b < |s.branches| && b < |Current(items, s)| && k < |Current(items, s)[b]|
  {
    if status == OK then s.(branches := s.branches[b := At(k + 1)])
    else
      var skipped := Skip(s, Current(items, s)[b][k + 1..]);
      skipped.(branches := s.branches[b := BranchOver(false)])
  }

  function EndStep(items: seq<Item>, s: State, b: nat, status: Status): State
    requires InsideUnit(items, s, b)
  {
    var id := UnitOf(items, s, b);
    AfterUnit(items, Complete(SetRunning(s, id, false), id, status), b, s.branches[b].index, status)
  }

  function GatherStep(items: seq<Item>, s: State): State {
    if forall b | 0 <= b < |s.branches| :: s.branches[b] == BranchOver(true) then
      s.(phase := if s.item + 1 < |items| then Before else Finished, item := s.item + 1, branches := [])
    else Skip(s, UnitsFrom(items, s.item + 1)).(phase := Finished, branches := [])
  }

  function Apply(items: seq<Item>, s: State, step: Step): State
    requires Enabled(items, s, step)
  {
    match step
    case StartItem => s.(phase := InItem, branches := seq(|Branches(items[s.item])|, _ => At(0)))
    case BeginUnit(b) =>
      var id := UnitOf(items, s, b);
      SetRunning(s, id, true).(branches := s.branches[b := InUnit(s.branches[b].index)], log := s.log + [Began(id)])
    case UnitMissing(b) =>
      AfterUnit(items, Complete(s, UnitOf(items, s, b), ERROR), b, s.branches[b].index, ERROR)
    case EndUnit(b, status) => EndStep(items, s, b, status)
    case BranchEnds(b) => s.(branches := s.branches[b := BranchOver(true)])
    case UnitCancelled(b) =>
      var id := UnitOf(items, s, b);
      Complete(SetRunning(s, id, false), id, ABORT).(branches := s.branches[b := BranchCancelled])
    case SleepCancelled(b) => s.(branches := s.branches[b := BranchCancelled])
    case Gathered => GatherStep(items, s)
    case Cancel => s.(cancelled := true)
    case Sweep => Skip(s, UnitsFrom(items, 0)).(phase := Swept)
    case Forget(id) => s.(table := s.table - {id})
  }

  /** The sequence `_execute` starts: an entry for each of its commands. */
  predicate Initial(items: seq<Item>, s: State) {
    && s == State(if |items| > 0 then Before else Finished, 0, [], false, s.table, map[], [])
    && s.table.Keys == (set id | id in UnitsFrom(items, 0))
    && forall id <- s.table :: s.table[id] == Entry(None, false)
  }

  predicate ValidRun(items: seq<Item>, s: State, steps: seq<Step>)
    decreases |steps|
  {
    steps == [] || (Enabled(items, s, steps[0]) && ValidRun(items, Apply(items, s, steps[0]), steps[1..]))
  }

  function After(items: seq<Item>, s: State, steps: seq<Step>): State
    requires ValidRun(items, s, steps)
    decreases |steps|
  {
    if steps == [] then s else After(items, Apply(items, s, steps[0]), steps[1..])
  }
}
