/** The command table of an engine: the ids it admits, the completions it reports, and the
    finished commands it forgets. */
module CommandTable {
  import opened Wrappers
  import opened Sequences
  import opened Commands
  import opened Numbers
  import Engine

  /** How many commands the table keeps, unfinished ones apart. */
  const COMMANDS_KEPT := 4096

  /** A `_Command`: how it ended. */
  datatype Command = Command(status: Option<Status>)

  /** A completed notification: the command, the id it names and the status. */
  datatype Note = Note(command: nat, id: string, status: Status)

  /** `order` is the insertion order of the table, `entries` its commands by id, and
      `commands` every command made so far. */
  datatype Table = Table(order: seq<string>, entries: map<string, nat>, commands: seq<Command>,
                         next: nat, log: seq<Note>)

  const INIT := Table([], map[], [], 0, [])

  predicate Finished(t: Table, id: string) {
    id in t.entries && t.entries[id] < |t.commands| && t.commands[t.entries[id]].status.Some?
  }

  /** An id in the table whose command has not ended. */
  predicate Unfinished(t: Table, id: string) {
    id in t.entries && t.entries[id] < |t.commands| && t.commands[t.entries[id]].status.None?
  }

  // -- Pruning ---------------------------------------------------------------------------

  /** The order without its first `excess` finished ids. */
  function Keep(t: Table, order: seq<string>, excess: nat): seq<string>
    decreases |order|
  {
    if order == [] then []
    else if excess > 0 && Finished(t, order[0]) then Keep(t, order[1..], excess - 1)
    else [order[0]] + Keep(t, order[1..], excess)
  }

  /** `_prune_commands`. */
  function Prune(t: Table): Table {
    var excess := |t.order| - COMMANDS_KEPT;
    if excess <= 0 then t
    else
      var kept := Keep(t, t.order, excess);
      t.(order := kept, entries := map id | id in t.entries && id in kept :: t.entries[id])
  }

  // -- Ids -------------------------------------------------------------------------------

  /** `_new_command_id`, for the n-th command. */
  function CommandId(engineId: string, n: nat): string {
    engineId + "/cmd-" + Decimal(n)
  }

  function NewIds(engineId: string, next: nat, count: nat): (ids: seq<string>)
    ensures |ids| == count
  {
    seq(count, i requires 0 <= i < count => CommandId(engineId, next + 1 + i))
  }

  /** What the trusted branch of `_execute` demands of the ids a parent names. */
  predicate Admissible(t: Table, owned: set<string>, ids: seq<string>) {
    && NoDuplicates(ids)
    && forall id <- ids :: id != "" && id !in t.entries && Unowned(owned, id)
  }

  /** `_owner_of` finds no source for an id. */
  predicate Unowned(owned: set<string>, id: string) {
    Engine.OwnerPart(id).None? || Engine.OwnerPart(id).value !in owned
  }

  // -- The steps -------------------------------------------------------------------------

  /** Put a new command under an id. An id that is there already keeps its place. */
  function Enter(t: Table, id: string): Table {
    t.(order := if id in t.entries then t.order else t.order + [id],
       entries := t.entries[id := |t.commands|],
       commands := t.commands + [Command(None)])
  }

  function EnterAll(t: Table, ids: seq<string>): Table
    decreases |ids|
  {
    if ids == [] then t else EnterAll(Enter(t, ids[0]), ids[1..])
  }

  /** `_complete`. */
  function Complete(t: Table, command: nat, id: string, status: Status, connected: bool): Table {
    if command >= |t.commands| || t.commands[command].status.Some? then t
    else t.(commands := t.commands[command := Command(Some(status))],
            log := if connected then t.log + [Note(command, id, status)] else t.log)
  }

  /** The set_parameter of an engine below made a command: it takes the id unless an
      unfinished command has it, and completes in any case. */
  function Recorded(t: Table, id: string): Table {
    if id !in t.entries || Finished(t, id) then Prune(Enter(t, id))
    else t.(commands := t.commands + [Command(None)])
  }

  datatype Step =
    | Execute(count: nat)                               // a client's commands get new ids
    | ExecuteTrusted(owned: set<string>, ids: seq<string>)  // a parent names the ids
    | SetParameter(id: string)
    | Completes(command: nat, id: string, status: Status, connected: bool)
    | Finish(id: string, status: Status, connected: bool)

  function Apply(engineId: string, t: Table, step: Step): Table {
    match step
    case Execute(count) =>
      Prune(EnterAll(t.(next := t.next + count), NewIds(engineId, t.next, count)))
    case ExecuteTrusted(owned, ids) =>
      if Admissible(t, owned, ids) then Prune(EnterAll(t, ids)) else t
    case SetParameter(id) => Recorded(t, id)
    case Completes(command, id, status, connected) => Complete(t, command, id, status, connected)
    case Finish(id, status, connected) =>
      if id in t.entries then Complete(t, t.entries[id], id, status, connected) else t
  }

  function After(engineId: string, t: Table, steps: seq<Step>): Table
    decreases |steps|
  {
    if steps == [] then t else After(engineId, Apply(engineId, t, steps[0]), steps[1..])
  }

  // -- The invariant ---------------------------------------------------------------------

  ghost predicate Consistent(t: Table) {
    && NoDuplicates(t.order)
    && (forall id :: id in t.order <==> id in t.entries)
    && forall id <- t.entries :: t.entries[id] < |t.commands|
  }

  /** Each notification is the one and only of a command, with the status it ended with. */
  predicate NotedOnce(t: Table) {
    && (forall i | 0 <= i < |t.log| ::
          t.log[i].command < |t.commands| && t.commands[t.log[i].command].status == Some(t.log[i].status))
    && forall i, j | 0 <= i < j < |t.log| :: t.log[i].command != t.log[j].command
  }

  ghost predicate Inv(t: Table) {
    Consistent(t) && NotedOnce(t)
  }

  // -- What pruning keeps ----------------------------------------------------------------

  /** Pruning forgets finished commands only, and only the oldest of them, as many as it
      must: it stops at the bound or once nothing finished is left. */
  lemma {:induction false} KeepForgets(t: Table, order: seq<string>, excess: nat)
    requires NoDuplicates(order)
    ensures var kept := Keep(t, order, excess);
      && NoDuplicates(kept)
      && (forall id <- kept :: id in order)
      && (forall id <- order :: id in kept || Finished(t, id))
      && |order| - excess <= |kept| <= |order|
      && (|kept| == |order| - excess || forall id <- kept :: !Finished(t, id))
    decreases |order|
  {
    if order != [] {
      var rest := order[1..];
      if excess > 0 && Finished(t, order[0]) {
        KeepForgets(t, rest, excess - 1);
      } else {
        KeepForgets(t, rest, excess);
      }
      assert order == [order[0]] + rest;
      assert Keep(t, order, excess) == (if excess > 0 && Finished(t, order[0]) then Keep(t, rest, excess - 1) else [order[0]] + Keep(t, rest, excess));
      assert order[0] !in rest;
    }
  }

  /** Whether a has some of the elements of b, in the order of b. */
  predicate Subsequence(a: seq<string>, b: seq<string>)
    decreases |b|
  {
    a == [] || (b != [] && if a[0] == b[0] then Subsequence(a[1..], b[1..]) else Subsequence(a, b[1..]))
  }

  /** What is kept stays in its order. */
  lemma {:induction false} KeepsOrder(t: Table, order: seq<string>, excess: nat)
    requires NoDuplicates(order)
    ensures Subsequence(Keep(t, order, excess), order)
    decreases |order|
  {
    if order != [] {
      if excess > 0 && Finished(t, order[0]) {
        KeepsOrder(t, order[1..], excess - 1);
        KeepForgets(t, order[1..], excess - 1);
        var kept := Keep(t, order[1..], excess - 1);
        assert kept != [] ==> kept[0] in kept && kept[0] in order[1..];
      } else {
        KeepsOrder(t, order[1..], excess);
        assert Keep(t, order, excess)[1..] == Keep(t, order[1..], excess);
      }
    }
  }

  /** A finished command that is kept is younger than every one that is forgotten. */
  lemma {:induction false} KeepsYoungest(t: Table, order: seq<string>, excess: nat, i: nat, j: nat)
    requires NoDuplicates(order) && i < j < |order|
    requires order[j] !in Keep(t, order, excess) && Finished(t, order[i])
    ensures order[i] !in Keep(t, order, excess)
    decreases |order|
  {
    var rest := order[1..];
    if excess > 0 && Finished(t, order[0]) {
      KeepForgets(t, rest, excess - 1);
      if i > 0 { KeepsYoungest(t, rest, excess - 1, i - 1, j - 1); }
    } else {
      KeepForgets(t, rest, excess);
      if i == 0 {
        assert excess == 0;
        KeepForgets(t, rest, 0);
        KeepsAll(t, rest);
      } else {
        KeepsYoungest(t, rest, excess, i - 1, j - 1);
      }
    }
  }

  lemma {:induction false} KeepsAll(t: Table, order: seq<string>)
    ensures Keep(t, order, 0) == order
    decreases |order|
  {
    if order != [] { KeepsAll(t, order[1..]); }
  }

  lemma PruneKeeps(t: Table)
    requires Inv(t)
    ensures Inv(Prune(t))
    ensures forall id :: Unfinished(t, id) ==> Unfinished(Prune(t), id) && Prune(t).entries[id] == t.entries[id]
    ensures |Prune(t).order| <= COMMANDS_KEPT || forall id <- Prune(t).entries :: Unfinished(Prune(t), id)
  {
    var excess := |t.order| - COMMANDS_KEPT;
    if excess > 0 { KeepForgets(t, t.order, excess); }
  }

  // -- What every step keeps -------------------------------------------------------------

  /** The commands of `t` are those of `s`, ended the same way if they had ended, and every
      unfinished command that was under an id still is. */
  predicate Remembers(s: Table, t: Table) {
    && |s.commands| <= |t.commands|
    && (forall k | 0 <= k < |s.commands| :: s.commands[k].status.Some? ==> t.commands[k] == s.commands[k])
    && (forall id <- s.entries ::
          Unfinished(s, id) && t.commands[s.entries[id]].status.None? ==> id in t.entries && t.entries[id] == s.entries[id])
    && s.log <= t.log
  }

  /** What entering new ids leaves: every command and entry that was there, the new ids
      unfinished at the end of the order. */
  ghost predicate Entered(t: Table, ids: seq<string>, r: Table) {
    && Inv(r) && r.order == t.order + ids && r.log == t.log && r.next == t.next
    && |r.commands| == |t.commands| + |ids|
    && (forall k | 0 <= k < |t.commands| :: r.commands[k] == t.commands[k])
    && (forall id <- t.entries :: id in r.entries && r.entries[id] == t.entries[id])
    && forall id <- ids :: Unfinished(r, id)
  }

  lemma EnterKeeps(t: Table, id: string)
    requires Inv(t) && id !in t.entries
    ensures Entered(t, [id], Enter(t, id))
  {
    var r := Enter(t, id);
    assert forall k | 0 <= k < |t.commands| :: r.commands[k] == t.commands[k];
  }

  lemma EnteredOnward(t: Table, ids: seq<string>, more: seq<string>, s: Table, r: Table)
    requires Inv(t) && Entered(t, ids, s) && Entered(s, more, r)
    ensures Entered(t, ids + more, r)
  {
    assert t.order + ids + more == t.order + (ids + more);
    forall id <- ids + more ensures Unfinished(r, id) {
      if id in ids { assert Unfinished(s, id); }
    }
    hide Inv;
  }

  lemma {:induction false} EnterAllKeeps(t: Table, ids: seq<string>)
    requires Inv(t) && NoDuplicates(ids) && forall id <- ids :: id !in t.entries
    ensures Entered(t, ids, EnterAll(t, ids))
    decreases |ids|
  {
    if ids != [] {
      var s := Enter(t, ids[0]);
      EnterKeeps(t, ids[0]);
      EnterAllKeeps(s, ids[1..]);
      EnteredOnward(t, [ids[0]], ids[1..], s, EnterAll(t, ids));
      assert [ids[0]] + ids[1..] == ids;
    }
  }

  // -- The ids of a client's commands ----------------------------------------------------

  lemma CommandIdInjective(engineId: string, m: nat, n: nat)
    requires CommandId(engineId, m) == CommandId(engineId, n)
    ensures m == n
  {
    var a, b := CommandId(engineId, m), CommandId(engineId, n);
    var k := |engineId + "/cmd-"|;
    assert a[k..] == Decimal(m) && b[k..] == Decimal(n);
    DecimalInjective(m, n);
  }

  /** The engine assigned every command id of its own form it has in the table. */
  ghost predicate OwnIds(engineId: string, t: Table) {
    forall n: nat :: CommandId(engineId, n) in t.entries ==> n <= t.next
  }

  /** What the sources of an engine guarantee of a step: a parent's ids are checked against
      this engine too, and the id of a set_parameter is not one of this engine's executes. */
  ghost predicate Allowed(engineId: string, step: Step) {
    match step
    case ExecuteTrusted(owned, ids) => engineId in owned
    case SetParameter(id) => forall n: nat :: id != CommandId(engineId, n)
    case _ => true
  }

  lemma OwnedIsRefused(engineId: string, owned: set<string>, n: nat)
    requires '/' !in engineId && engineId in owned
    ensures !Unowned(owned, CommandId(engineId, n))
  {
    assert CommandId(engineId, n) == engineId + "/" + ("cmd-" + Decimal(n));
    Engine.OwnerOfRef(engineId, "cmd-" + Decimal(n));
  }

  /** The ids of an execute are new: distinct, in no entry of the table, and none of the ids
      that the engine assigned before. */
  lemma NewIdsAreFresh(engineId: string, t: Table, count: nat)
    requires OwnIds(engineId, t)
    ensures var ids := NewIds(engineId, t.next, count);
      && NoDuplicates(ids) && (forall id <- ids :: id !in t.entries)
      && (forall n: nat | n <= t.next :: CommandId(engineId, n) !in ids)
  {
    var ids := NewIds(engineId, t.next, count);
    forall i, j | 0 <= i < j < |ids| ensures ids[i] != ids[j] {
      if ids[i] == ids[j] { CommandIdInjective(engineId, t.next + 1 + i, t.next + 1 + j); }
    }
    forall n: nat | n <= t.next ensures CommandId(engineId, n) !in ids {
      if i: nat :| i < |ids| && ids[i] == CommandId(engineId, n) { CommandIdInjective(engineId, n, t.next + 1 + i); }
    }
  }

  // -- Over every run --------------------------------------------------------------------

  lemma CompleteKeeps(engineId: string, t: Table, command: nat, id: string, status: Status, connected: bool)
    requires Inv(t) && OwnIds(engineId, t)
    ensures var r := Complete(t, command, id, status, connected);
      Inv(r) && OwnIds(engineId, r) && Remembers(t, r)
  {
  }

  lemma RecordedKeeps(engineId: string, t: Table, id: string)
    requires Inv(t) && OwnIds(engineId, t) && forall n: nat :: id != CommandId(engineId, n)
    ensures var r := Recorded(t, id); Inv(r) && OwnIds(engineId, r) && Remembers(t, r)
  {
    if id !in t.entries {
      EnterKeeps(t, id);
      EnteredKeeps(t, [id], Enter(t, id));
      PruneOwn(engineId, Enter(t, id));
    } else if Finished(t, id) {
      var s := Enter(t, id);
      assert forall other <- t.entries :: Unfinished(t, other) ==> Unfinished(s, other) && s.entries[other] == t.entries[other];
      PruneKeeps(s);
      PruneOwn(engineId, s);
    }
  }

  lemma PruneOwn(engineId: string, t: Table)
    requires OwnIds(engineId, t)
    ensures OwnIds(engineId, Prune(t)) && Prune(t).commands == t.commands && Prune(t).log == t.log
  {
    assert forall id <- Prune(t).entries :: id in t.entries;
  }

  lemma EnteredKeeps(t: Table, ids: seq<string>, r: Table)
    requires Inv(t) && Entered(t, ids, r)
    ensures Inv(Prune(r)) && Remembers(t, Prune(r))
  {
    assert forall id <- t.entries :: Unfinished(t, id) ==> Unfinished(r, id);
    PruneKeeps(r);
    hide Inv, Keep;
  }

  /** Counting the ids ahead changes nothing a table remembers. */
  lemma CountingOnly(t: Table, s: Table, r: Table)
    requires s == t.(next := s.next) && Remembers(s, r)
    ensures Remembers(t, r)
  {
    assert forall id <- t.entries :: Unfinished(t, id) ==> Unfinished(s, id);
  }

  lemma NewIdsOwn(engineId: string, t: Table, count: nat, r: Table)
    requires Inv(t) && OwnIds(engineId, t) && Entered(t.(next := t.next + count), NewIds(engineId, t.next, count), r)
    ensures OwnIds(engineId, r)
  {
    hide NotedOnce, Unfinished, NoDuplicates, Decimal;
    var ids := NewIds(engineId, t.next, count);
    forall n: nat | CommandId(engineId, n) in r.entries ensures n <= r.next {
      assert CommandId(engineId, n) in r.order;
      if CommandId(engineId, n) in ids {
        var i :| 0 <= i < |ids| && ids[i] == CommandId(engineId, n);
        CommandIdInjective(engineId, n, t.next + 1 + i);
      }
    }
  }

  /** The table after `_execute` entered the commands of a client, before it prunes. */
  lemma EnterNew(engineId: string, t: Table, count: nat)
    requires Inv(t) && OwnIds(engineId, t)
    ensures var s := t.(next := t.next + count);
      Inv(s) && Entered(s, NewIds(engineId, t.next, count), EnterAll(s, NewIds(engineId, t.next, count)))
  {
    hide CommandId, NewIds, EnterAll, NoDuplicates, Decimal, Entered;
    NewIdsAreFresh(engineId, t, count);
    EnterAllKeeps(t.(next := t.next + count), NewIds(engineId, t.next, count));
  }

  lemma ExecuteKeeps(engineId: string, t: Table, count: nat)
    requires Inv(t) && OwnIds(engineId, t)
    ensures var r := Apply(engineId, t, Execute(count)); Inv(r) && OwnIds(engineId, r) && Remembers(t, r)
  {
    hide CommandId, NewIds, EnterAll, Inv, Entered, OwnIds, Prune, Remembers;
    var s := t.(next := t.next + count);
    var ids := NewIds(engineId, t.next, count);
    var r := EnterAll(s, ids);
    EnterNew(engineId, t, count);
    NewIdsOwn(engineId, t, count, r);
    EnteredKeeps(s, ids, r);
    PruneOwn(engineId, r);
    CountingOnly(t, s, Prune(r));
  }

  lemma TrustedKeeps(engineId: string, t: Table, owned: set<string>, ids: seq<string>)
    requires '/' !in engineId && engineId in owned && Inv(t) && OwnIds(engineId, t) && Admissible(t, owned, ids)
    ensures var r := Prune(EnterAll(t, ids)); Inv(r) && OwnIds(engineId, r) && Remembers(t, r)
  {
    EnterAllKeeps(t, ids);
    var r := EnterAll(t, ids);
    forall n: nat | CommandId(engineId, n) in r.entries ensures n <= r.next {
      OwnedIsRefused(engineId, owned, n);
      assert CommandId(engineId, n) in r.order;
    }
    EnteredKeeps(t, ids, r);
    PruneOwn(engineId, r);
    hide Entered, Inv, CommandId;
  }

  lemma StepKeeps(engineId: string, t: Table, step: Step)
    requires '/' !in engineId && Inv(t) && OwnIds(engineId, t) && Allowed(engineId, step)
    ensures var r := Apply(engineId, t, step);
      Inv(r) && OwnIds(engineId, r) && Remembers(t, r)
  {
    hide Inv, Remembers, OwnIds, Prune, EnterAll, Recorded, Complete, Admissible;
    match step
    case Execute(count) => ExecuteKeeps(engineId, t, count);
    case ExecuteTrusted(owned, ids) =>
      if Admissible(t, owned, ids) { TrustedKeeps(engineId, t, owned, ids); } else { SameKeeps(t); }
    case SetParameter(id) => RecordedKeeps(engineId, t, id);
    case Completes(command, id, status, connected) => CompleteKeeps(engineId, t, command, id, status, connected);
    case Finish(id, status, connected) =>
      if id in t.entries { CompleteKeeps(engineId, t, t.entries[id], id, status, connected); } else { SameKeeps(t); }
  }

  lemma SameKeeps(t: Table)
    requires Inv(t)
    ensures Remembers(t, t)
  {
  }

  lemma {:induction false} RunKeeps(engineId: string, t: Table, steps: seq<Step>)
    requires '/' !in engineId && Inv(t) && OwnIds(engineId, t) && forall step <- steps :: Allowed(engineId, step)
    ensures Inv(After(engineId, t, steps)) && OwnIds(engineId, After(engineId, t, steps))
    decreases |steps|
  {
    if steps != [] {
      StepKeeps(engineId, t, steps[0]);
      RunKeeps(engineId, Apply(engineId, t, steps[0]), steps[1..]);
    }
  }

  /** In every run each command is notified at most once, with the status it ended with. */
  lemma CompletedOnce(engineId: string, steps: seq<Step>)
    requires '/' !in engineId && forall step <- steps :: Allowed(engineId, step)
    ensures NotedOnce(After(engineId, INIT, steps))
  {
    RunKeeps(engineId, INIT, steps);
  }

  /** Pruning and id reuse never forget an unfinished command: until it ends, its id leads
      to it. */
  lemma {:induction false} NeverForgotten(engineId: string, t: Table, steps: seq<Step>, id: string)
    requires '/' !in engineId && Inv(t) && OwnIds(engineId, t) && forall step <- steps :: Allowed(engineId, step)
    requires Unfinished(t, id)
    ensures var r := After(engineId, t, steps);
      && t.entries[id] < |r.commands|
      && (r.commands[t.entries[id]].status.None? ==> Unfinished(r, id) && r.entries[id] == t.entries[id])
    decreases |steps|
  {
    if steps != [] {
      var s := Apply(engineId, t, steps[0]);
      StepKeeps(engineId, t, steps[0]);
      var k := t.entries[id];
      if s.commands[k].status.None? {
        NeverForgotten(engineId, s, steps[1..], id);
      } else {
        EndedStays(engineId, s, steps[1..], k);
      }
    }
  }

  /** The status a command ended with never changes. */
  lemma {:induction false} EndedStays(engineId: string, t: Table, steps: seq<Step>, k: nat)
    requires '/' !in engineId && Inv(t) && OwnIds(engineId, t) && forall step <- steps :: Allowed(engineId, step)
    requires k < |t.commands| && t.commands[k].status.Some?
    ensures k < |After(engineId, t, steps).commands| && After(engineId, t, steps).commands[k] == t.commands[k]
    decreases |steps|
  {
    if steps != [] {
      StepKeeps(engineId, t, steps[0]);
      EndedStays(engineId, Apply(engineId, t, steps[0]), steps[1..], k);
    }
  }

  /** The table holds at most 4096 entries, or only unfinished ones. */
  ghost predicate Bounded(t: Table) {
    |t.entries| <= COMMANDS_KEPT || forall id <- t.entries :: Unfinished(t, id)
  }

  lemma PruneBounds(t: Table)
    requires Inv(t)
    ensures Bounded(Prune(t))
  {
    PruneKeeps(t);
    var r := Prune(t);
    assert r.entries.Keys == set id | id in r.order;
    SizeOfSet(r.order);
    hide Prune;
  }

  /** The table is bounded after every step that put commands in it. */
  lemma BoundAfter(engineId: string, t: Table, step: Step)
    requires '/' !in engineId && Inv(t) && OwnIds(engineId, t) && Allowed(engineId, step)
    requires step.Execute? || (step.ExecuteTrusted? && Admissible(t, step.owned, step.ids))
             || (step.SetParameter? && !Unfinished(t, step.id))
    ensures Bounded(Apply(engineId, t, step))
  {
    hide Prune, EnterAll, Entered, Bounded, OwnIds, Admissible;
    match step {
      case Execute(count) =>
        var s := t.(next := t.next + count);
        EnterNew(engineId, t, count);
        InvOfEntered(s, NewIds(engineId, t.next, count), EnterAll(s, NewIds(engineId, t.next, count)));
        PruneBounds(EnterAll(s, NewIds(engineId, t.next, count)));
      case ExecuteTrusted(owned, ids) =>
        AdmissibleIsNew(t, owned, ids);
        EnterAllKeeps(t, ids);
        InvOfEntered(t, ids, EnterAll(t, ids));
        PruneBounds(EnterAll(t, ids));
      case SetParameter(id) =>
        PruneBounds(Enter(t, id));
    }
  }

  lemma InvOfEntered(t: Table, ids: seq<string>, r: Table)
    requires Entered(t, ids, r)
    ensures Inv(r)
  {
  }

  lemma AdmissibleIsNew(t: Table, owned: set<string>, ids: seq<string>)
    requires Admissible(t, owned, ids)
    ensures NoDuplicates(ids) && forall id <- ids :: id !in t.entries
  {
  }

  lemma {:induction false} SizeOfSet(order: seq<string>)
    requires NoDuplicates(order)
    ensures |set id | id in order| == |order|
    decreases |order|
  {
    if order != [] {
      SizeOfSet(order[1..]);
      assert (set id | id in order) == {order[0]} + (set id | id in order[1..]);
    }
  }

  // -- The table in place ----------------------------------------------------------------

  function FinishedOf(t: Table, order: seq<string>): seq<string>
    decreases |order|
  {
    if order == [] then []
    else (if Finished(t, order[0]) then [order[0]] else []) + FinishedOf(t, order[1..])
  }

  lemma {:induction false} FinishedMore(t: Table, order: seq<string>, id: string)
    ensures FinishedOf(t, order + [id]) == FinishedOf(t, order) + (if Finished(t, id) then [id] else [])
    decreases |order|
  {
    if order == [] {
      assert order + [id] == [id];
    } else {
      FinishedMore(t, order[1..], id);
      assert (order + [id])[1..] == order[1..] + [id];
    }
  }

  lemma {:induction false} FinishedAreThere(t: Table, order: seq<string>)
    ensures forall id <- FinishedOf(t, order) :: id in order && Finished(t, id)
    decreases |order|
  {
    if order != [] { FinishedAreThere(t, order[1..]); }
  }

  /** Deleting one more of the oldest finished ids keeps one less. */
  lemma {:induction false} KeepNext(t: Table, order: seq<string>, k: nat)
    requires NoDuplicates(order) && k < |FinishedOf(t, order)|
    ensures var id := FinishedOf(t, order)[k];
      id in Keep(t, order, k) && Without(Keep(t, order, k), id) == Keep(t, order, k + 1)
    decreases |order|
  {
    var rest := order[1..];
    var id := FinishedOf(t, order)[k];
    FinishedAreThere(t, rest);
    KeepsAll(t, order);
    KeepsAll(t, rest);
    DistinctTail(order);
    hide NoDuplicates, Finished;
    if Finished(t, order[0]) {
      if k == 0 {
      } else {
        assert FinishedOf(t, order)[k] == FinishedOf(t, rest)[k - 1];
        KeepNext(t, rest, k - 1);
      }
    } else {
      KeepNext(t, rest, k);
      assert order[0] != id;
    }
  }

  /** Once every finished id is gone nothing more is. */
  lemma {:induction false} KeepEnds(t: Table, order: seq<string>, k: nat, more: nat)
    requires |FinishedOf(t, order)| <= k <= more
    ensures Keep(t, order, more) == Keep(t, order, k)
    decreases |order|
  {
    if order != [] {
      if Finished(t, order[0]) { KeepEnds(t, order[1..], k - 1, more - 1); } else { KeepEnds(t, order[1..], k, more); }
    }
  }

  class Register {
    const engineId: string
    var order: seq<string>
    var entries: map<string, nat>
    var commands: seq<Command>
    var nextCommand: nat
    var log: seq<Note>

    ghost function State(): Table
      reads this
    {
      Table(order, entries, commands, nextCommand, log)
    }

    ghost predicate Valid()
      reads this
    {
      '/' !in engineId && Inv(State()) && OwnIds(engineId, State())
    }

    constructor (engineId: string)
      requires Engine.ValidEngineId(engineId)
      ensures Valid() && State() == INIT && this.engineId == engineId
    {
      this.engineId := engineId;
      order, entries, commands, nextCommand, log := [], map[], [], 0, [];
    }

    /** The ids of the finished commands, oldest first. */
    method FinishedIds() returns (finished: seq<string>)
      requires Consistent(State())
      ensures finished == FinishedOf(State(), order)
    {
      hide NoDuplicates;
      finished := [];
      for i := 0 to |order|
        invariant finished == FinishedOf(State(), order[..i])
      {
        assert order[..i + 1] == order[..i] + [order[i]];
        FinishedMore(State(), order[..i], order[i]);
        if commands[entries[order[i]]].status.Some? { finished := finished + [order[i]]; }
      }
      assert order[..|order|] == order;
    }

    method Delete(id: string)
      requires Consistent(State()) && id in order
      modifies this
      ensures State() == old(State()).(order := Without(old(order), id), entries := old(entries) - {id})
      ensures Consistent(State())
    {
      WithoutLacks(order, id);
      order := Without(order, id);
      entries := entries - {id};
    }

    /** `_prune_commands`. */
    method PruneCommands()
      requires Consistent(State())
      modifies this
      ensures State() == Prune(old(State()))
    {
      var excess := |order| - COMMANDS_KEPT;
      if excess <= 0 { return; }
      ghost var t := State();
      var finished := FinishedIds();
      var bound := if excess < |finished| then excess else |finished|;
      DeleteOldest(finished, bound);
      hide Keep, FinishedOf, NoDuplicates;
      if excess > |finished| { KeepEnds(t, t.order, |finished|, excess); }
      DeletedIsPruned(t, bound);
    }

    method DeleteOldest(finished: seq<string>, count: nat)
      requires Consistent(State()) && finished == FinishedOf(State(), order) && count <= |finished|
      modifies this
      ensures Deleted(old(State()), count)
    {
      KeepsAll(State(), order);
      hide Keep, FinishedOf, Without;
      ghost var t := State();
      for k := 0 to count
        invariant Deleted(t, k)
      {
        KeepNext(t, t.order, k);
        Delete(finished[k]);
      }
    }

    /** The state once the k oldest finished ids are deleted. */
    ghost predicate Deleted(t: Table, k: nat)
      reads this
    {
      && Consistent(State())
      && State() == t.(order := Keep(t, t.order, k), entries := entries)
      && forall id <- entries :: id in t.entries && entries[id] == t.entries[id]
    }

    lemma DeletedIsPruned(t: Table, k: nat)
      requires Deleted(t, k) && Consistent(t) && |t.order| > COMMANDS_KEPT
      requires Keep(t, t.order, k) == Keep(t, t.order, |t.order| - COMMANDS_KEPT)
      ensures State() == Prune(t)
    {
      hide Keep, NoDuplicates;
      var kept := Keep(t, t.order, k);
      assert entries == map id | id in t.entries && id in kept :: t.entries[id];
    }

    method EnterCommand(id: string)
      modifies this
      ensures State() == Enter(old(State()), id)
    {
      if id !in entries { order := order + [id]; }
      entries := entries[id := |commands|];
      commands := commands + [Command(None)];
    }

    method EnterCommands(ids: seq<string>)
      modifies this
      ensures State() == EnterAll(old(State()), ids)
    {
      for i := 0 to |ids|
        invariant EnterAll(State(), ids[i..]) == EnterAll(old(State()), ids)
      {
        assert ids[i..][1..] == ids[i + 1..];
        EnterCommand(ids[i]);
      }
    }

    /** The end of `_execute`, for `count` commands of a client. */
    method Execute(count: nat) returns (ids: seq<string>)
      requires Valid()
      modifies this
      ensures Valid() && State() == Apply(engineId, old(State()), Step.Execute(count))
      ensures |ids| == count && NoDuplicates(ids)
      ensures forall id <- ids :: id !in old(entries) && Unfinished(State(), id)
    {
      hide Prune, EnterAll, OwnIds, NotedOnce;
      ghost var t := State();
      StepKeeps(engineId, t, Step.Execute(count));
      EnterNew(engineId, t, count);
      NewIdsAreFresh(engineId, t, count);
      ids := [];
      for i := 0 to count
        invariant State() == t.(next := t.next + i)
        invariant ids == NewIds(engineId, t.next, count)[..i]
      {
        nextCommand := nextCommand + 1;
        ids := ids + [CommandId(engineId, nextCommand)];
      }
      assert NewIds(engineId, t.next, count)[..count] == NewIds(engineId, t.next, count);
      PruneKeeps(EnterAll(State(), ids));
      EnterCommands(ids);
      PruneCommands();
    }

    /** The end of `_execute`, with the ids a parent names. */
    method ExecuteTrusted(owned: set<string>, ids: seq<string>) returns (ok: bool)
      requires Valid() && engineId in owned
      modifies this
      ensures Valid() && State() == Apply(engineId, old(State()), Step.ExecuteTrusted(owned, ids))
      ensures ok <==> Admissible(old(State()), owned, ids)
    {
      ghost var t := State();
      StepKeeps(engineId, t, Step.ExecuteTrusted(owned, ids));
      var seen: set<string> := {};
      for i := 0 to |ids|
        invariant State() == t
        invariant seen == set id | id in ids[..i]
        invariant forall k | 0 <= k < i :: ids[k] != "" && ids[k] !in entries && Unowned(owned, ids[k])
        invariant NoDuplicates(ids[..i])
      {
        var id := ids[i];
        assert ids[..i + 1] == ids[..i] + [id];
        var owner := Engine.OwnerPart(id);
        if id == "" || id in entries || id in seen || (owner.Some? && owner.value in owned) {
          assert id in ids;
          if id in seen { var k :| 0 <= k < i && ids[k] == id; }
          return false;
        }
        seen := seen + {id};
      }
      assert ids[..|ids|] == ids;
      EnterAllKeeps(t, ids);
      EnterCommands(ids);
      PruneCommands();
      ok := true;
    }

    /** `_set_parameter`, once the source took the values: the command to complete later. */
    method SetParameter(id: string) returns (command: nat)
      requires Valid() && Allowed(engineId, Step.SetParameter(id))
      modifies this
      ensures Valid() && State() == Apply(engineId, old(State()), Step.SetParameter(id))
      ensures command == |old(commands)|
    {
      StepKeeps(engineId, State(), Step.SetParameter(id));
      command := |commands|;
      var free := id !in entries;
      if !free { free := commands[entries[id]].status.Some?; }
      if free {
        ghost var t := State();
        EnterCommand(id);
        PruneCommands();
      } else {
        commands := commands + [Command(None)];
      }
    }

    /** `_complete`. */
    method CompleteCommand(command: nat, id: string, status: Status, connected: bool)
      requires Valid() && command < |commands|
      modifies this
      ensures Valid() && State() == Complete(old(State()), command, id, status, connected)
    {
      CompleteKeeps(engineId, State(), command, id, status, connected);
      if commands[command].status.Some? { return; }
      commands := commands[command := Command(Some(status))];
      if connected { log := log + [Note(command, id, status)]; }
    }

    /** `_finish`. */
    method FinishCommand(id: string, status: Status, connected: bool)
      requires Valid()
      modifies this
      ensures Valid() && State() == Apply(engineId, old(State()), Step.Finish(id, status, connected))
    {
      if id !in entries { return; }
      CompleteCommand(entries[id], id, status, connected);
    }
  }
}
