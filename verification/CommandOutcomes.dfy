/** How each command of the table ended and what its session was told, from the steps of a run. */
module CommandOutcomes {
  import opened Wrappers
  import opened Sequences
  import opened Commands
  import opened CommandTable

  // -- One step --------------------------------------------------------------------------

  /** The step ends a command that has not ended, known by itself or by the id that leads to
      it, and its session is told of it under that id when it is connected. */
  predicate EndsIt(t: Table, step: Step, k: nat, id: string, status: Status, connected: bool) {
    && k < |t.commands| && t.commands[k].status == None
    && (step == Completes(k, id, status, connected)
        || (step == Finish(id, status, connected) && id in t.entries && t.entries[id] == k))
  }

  lemma {:induction false} EnteredCommands(t: Table, ids: seq<string>)
    ensures EnterAll(t, ids).commands == t.commands + seq(|ids|, _ => Command(None)) && EnterAll(t, ids).log == t.log
    decreases |ids|
  {
    if ids != [] { EnteredCommands(Enter(t, ids[0]), ids[1..]); }
  }

  /** A step adds commands that have not ended, or ends one, or neither. */
  predicate Moves(t: Table, step: Step, r: Table) {
    && |t.commands| <= |r.commands|
    && (forall k | |t.commands| <= k < |r.commands| :: r.commands[k].status == None)
    && match step
       case Completes(k, id, status, connected) => Told(t, step, k, id, status, connected, r)
       case Finish(id, status, connected) =>
         if id in t.entries then Told(t, step, t.entries[id], id, status, connected, r) else r.commands == t.commands && r.log == t.log
       case _ => r.log == t.log && forall k | 0 <= k < |t.commands| :: r.commands[k] == t.commands[k]
  }

  predicate Told(t: Table, step: Step, k: nat, id: string, status: Status, connected: bool, r: Table) {
    if EndsIt(t, step, k, id, status, connected) then
      && r.commands == t.commands[k := Command(Some(status))]
      && r.log == if connected then t.log + [Note(k, id, status)] else t.log
    else r.commands == t.commands && r.log == t.log
  }

  lemma StepMoves(engineId: string, t: Table, step: Step)
    ensures Moves(t, step, Apply(engineId, t, step))
  {
    hide Keep, NewIds, Admissible, EnterAll;
    match step
    case Execute(count) => EnteredCommands(t.(next := t.next + count), NewIds(engineId, t.next, count));
    case ExecuteTrusted(_, ids) => EnteredCommands(t, ids);
    case _ =>
  }

  // -- Over every run --------------------------------------------------------------------

  /** The table before the i-th step of a run. */
  function TableAt(engineId: string, steps: seq<Step>, i: nat): Table
    requires i <= |steps|
  {
    After(engineId, INIT, steps[..i])
  }

  lemma {:induction false} Prefix(engineId: string, t: Table, steps: seq<Step>, i: nat)
    requires i < |steps|
    ensures After(engineId, t, steps[..i + 1]) == Apply(engineId, After(engineId, t, steps[..i]), steps[i])
    decreases i
  {
    hide Apply;
    assert steps[..i + 1][1..] == steps[1..][..i];
    if i > 0 {
      Prefix(engineId, Apply(engineId, t, steps[0]), steps[1..], i - 1);
      assert steps[..i][1..] == steps[1..][..i - 1];
    }
  }

  lemma TableEnds(engineId: string, steps: seq<Step>)
    ensures TableAt(engineId, steps, 0) == INIT && TableAt(engineId, steps, |steps|) == After(engineId, INIT, steps)
  {
    assert steps[..|steps|] == steps;
  }

  ghost predicate EndsAt(engineId: string, steps: seq<Step>, k: nat, id: string, status: Status, connected: bool, i: nat) {
    i < |steps| && EndsIt(TableAt(engineId, steps, i), steps[i], k, id, status, connected)
  }

  ghost predicate EndedBefore(engineId: string, steps: seq<Step>, k: nat, status: Status, n: nat) {
    exists i: nat, id, connected :: i < n && EndsAt(engineId, steps, k, id, status, connected, i)
  }

  ghost predicate ToldBefore(engineId: string, steps: seq<Step>, note: Note, n: nat) {
    exists i: nat :: i < n && EndsAt(engineId, steps, note.command, note.id, note.status, true, i)
  }

  lemma EndedNext(engineId: string, steps: seq<Step>, k: nat, status: Status, n: nat)
    ensures EndedBefore(engineId, steps, k, status, n + 1)
            <==> EndedBefore(engineId, steps, k, status, n) || exists id, connected :: EndsAt(engineId, steps, k, id, status, connected, n)
  {
    hide EndsAt;
  }

  lemma ToldNext(engineId: string, steps: seq<Step>, note: Note, n: nat)
    ensures ToldBefore(engineId, steps, note, n + 1)
            <==> ToldBefore(engineId, steps, note, n) || EndsAt(engineId, steps, note.command, note.id, note.status, true, n)
  {
    hide EndsAt;
  }

  lemma StatusNext(t: Table, step: Step, r: Table, k: nat, status: Status)
    requires Moves(t, step, r)
    ensures k < |r.commands| && r.commands[k].status == Some(status) <==>
              (k < |t.commands| && t.commands[k].status == Some(status)) || exists id, connected :: EndsIt(t, step, k, id, status, connected)
  {
    match step
    case Completes(c, id, st, connected) =>
      if EndsIt(t, step, c, id, st, connected) && c == k && st == status { assert EndsIt(t, step, k, id, status, connected); }
    case Finish(id, st, connected) =>
      if id in t.entries && EndsIt(t, step, t.entries[id], id, st, connected) && t.entries[id] == k && st == status {
        assert EndsIt(t, step, k, id, status, connected);
      }
    case _ =>
  }

  lemma NoteNext(t: Table, step: Step, r: Table, note: Note)
    requires Moves(t, step, r)
    ensures note in r.log <==> note in t.log || EndsIt(t, step, note.command, note.id, note.status, true)
  {
  }

  lemma EndsAtIs(engineId: string, steps: seq<Step>, k: nat, status: Status, i: nat)
    requires i < |steps|
    ensures (exists id, connected :: EndsAt(engineId, steps, k, id, status, connected, i))
            <==> exists id, connected :: EndsIt(TableAt(engineId, steps, i), steps[i], k, id, status, connected)
  {
    hide EndsIt, TableAt;
    forall id, connected ensures EndsAt(engineId, steps, k, id, status, connected, i)
                                 <==> EndsIt(TableAt(engineId, steps, i), steps[i], k, id, status, connected) {
    }
  }

  lemma {:induction false} EndedBy(engineId: string, steps: seq<Step>, k: nat, status: Status, note: Note, n: nat)
    requires n <= |steps|
    ensures var t := TableAt(engineId, steps, n);
      && (k < |t.commands| && t.commands[k].status == Some(status) <==> EndedBefore(engineId, steps, k, status, n))
      && (note in t.log <==> ToldBefore(engineId, steps, note, n))
    decreases n
  {
    hide Apply, TableAt, EndsIt, Moves, EndedBefore, ToldBefore;
    TableEnds(engineId, steps);
    if n > 0 {
      EndedBy(engineId, steps, k, status, note, n - 1);
      var t := TableAt(engineId, steps, n - 1);
      TableNext(engineId, steps, n - 1);
      StepMoves(engineId, t, steps[n - 1]);
      var r := TableAt(engineId, steps, n);
      StatusNext(t, steps[n - 1], r, k, status);
      NoteNext(t, steps[n - 1], r, note);
      EndedNext(engineId, steps, k, status, n - 1);
      EndsAtIs(engineId, steps, k, status, n - 1);
      ToldNext(engineId, steps, note, n - 1);
    } else {
      NoneBefore(engineId, steps, k, status, note);
    }
  }

  lemma TableNext(engineId: string, steps: seq<Step>, i: nat)
    requires i < |steps|
    ensures TableAt(engineId, steps, i + 1) == Apply(engineId, TableAt(engineId, steps, i), steps[i])
  {
    Prefix(engineId, INIT, steps, i);
  }

  lemma NoneBefore(engineId: string, steps: seq<Step>, k: nat, status: Status, note: Note)
    ensures !EndedBefore(engineId, steps, k, status, 0) && !ToldBefore(engineId, steps, note, 0)
  {
  }

  /** In every run a command has ended with a status exactly when some step ended it with that
      status before any other did. */
  lemma EndedIff(engineId: string, steps: seq<Step>, k: nat, status: Status)
    ensures var t := After(engineId, INIT, steps);
      k < |t.commands| && t.commands[k].status == Some(status)
      <==> exists i: nat, id, connected :: i < |steps| && EndsAt(engineId, steps, k, id, status, connected, i)
  {
    hide After, EndsAt, TableAt;
    TableEnds(engineId, steps);
    EndedBy(engineId, steps, k, status, Note(k, "", status), |steps|);
  }

  /** In every run a session was told of a command, under an id and with a status, exactly when
      some step ended the command so while the session was connected. */
  lemma ToldIff(engineId: string, steps: seq<Step>, note: Note)
    ensures note in After(engineId, INIT, steps).log
            <==> exists i: nat :: i < |steps| && EndsAt(engineId, steps, note.command, note.id, note.status, true, i)
  {
    hide After, EndsAt, TableAt;
    TableEnds(engineId, steps);
    EndedBy(engineId, steps, note.command, note.status, note, |steps|);
  }

  // -- Ids -------------------------------------------------------------------------------

  /** Each of some ids leads to its own new command. */
  ghost predicate Lead(t: Table, r: Table, ids: seq<string>) {
    forall i | 0 <= i < |ids| :: ids[i] in r.entries && r.entries[ids[i]] == |t.commands| + i
  }

  lemma {:induction false} EnteredLead(t: Table, ids: seq<string>)
    requires NoDuplicates(ids)
    ensures Lead(t, EnterAll(t, ids), ids)
    ensures forall id :: id !in ids ==> (id in EnterAll(t, ids).entries <==> id in t.entries)
    ensures forall id <- t.entries :: id !in ids ==> EnterAll(t, ids).entries[id] == t.entries[id]
    decreases |ids|
  {
    if ids != [] {
      var s := Enter(t, ids[0]);
      EnteredLead(s, ids[1..]);
      assert ids == [ids[0]] + ids[1..] && ids[0] !in ids[1..];
      forall i | 0 <= i < |ids| ensures ids[i] in EnterAll(t, ids).entries && EnterAll(t, ids).entries[ids[i]] == |t.commands| + i {
        if i > 0 { assert ids[i] == ids[1..][i - 1]; }
      }
    }
  }

  /** Pruning leaves each unfinished id where it leads. */
  lemma PruneLeads(t: Table, s: Table, ids: seq<string>)
    requires Inv(s) && Lead(t, s, ids) && forall id <- ids :: Unfinished(s, id)
    ensures Lead(t, Prune(s), ids)
  {
    hide Prune;
    PruneKeeps(s);
    forall i | 0 <= i < |ids| ensures ids[i] in Prune(s).entries && Prune(s).entries[ids[i]] == |t.commands| + i {
      assert ids[i] in ids && Unfinished(s, ids[i]);
    }
  }

  /** The ids of an execute lead to its commands, one each, in their order. */
  lemma ExecuteLeads(engineId: string, t: Table, count: nat)
    requires Inv(t) && OwnIds(engineId, t)
    ensures Lead(t, Apply(engineId, t, Execute(count)), NewIds(engineId, t.next, count))
  {
    hide CommandId, Inv, Prune, EnterAll, Lead, NewIds, NoDuplicates;
    var s := t.(next := t.next + count);
    var ids := NewIds(engineId, t.next, count);
    NewIdsAreFresh(engineId, t, count);
    EnterNew(engineId, t, count);
    EnteredLead(s, ids);
    InvOfEntered(s, ids, EnterAll(s, ids));
    SameLead(t, s, EnterAll(s, ids), ids);
    PruneLeads(t, EnterAll(s, ids), ids);
  }

  lemma SameLead(t: Table, s: Table, r: Table, ids: seq<string>)
    requires Lead(s, r, ids) && |s.commands| == |t.commands|
    ensures Lead(t, r, ids)
  {
  }

  /** The ids a parent names lead to its commands when they are admitted, and change nothing when
      they are not. */
  lemma TrustedLeads(engineId: string, t: Table, owned: set<string>, ids: seq<string>)
    requires Inv(t)
    ensures var r := Apply(engineId, t, ExecuteTrusted(owned, ids)); if Admissible(t, owned, ids) then Lead(t, r, ids) else r == t
  {
    hide Inv, Prune, EnterAll, Lead;
    if Admissible(t, owned, ids) {
      EnterAllKeeps(t, ids);
      EnteredLead(t, ids);
      InvOfEntered(t, ids, EnterAll(t, ids));
      PruneLeads(t, EnterAll(t, ids), ids);
    }
  }

  /** The id of a parameter change leads to its command, unless an unfinished command has it, and
      keeps it. */
  lemma ParameterLeads(engineId: string, t: Table, id: string)
    requires Inv(t)
    ensures var r := Apply(engineId, t, SetParameter(id));
      && |r.commands| == |t.commands| + 1
      && id in r.entries && r.entries[id] == if Unfinished(t, id) then t.entries[id] else |t.commands|
  {
    hide Keep;
    if !Unfinished(t, id) {
      var s := Enter(t, id);
      PruneKeeps(s);
      assert Unfinished(s, id);
    }
  }

  /** Pruning changes nothing within the bound, and keeps at least as many entries as the bound
      allows beyond it. What it keeps stays where it leads. */
  lemma PrunesNoMore(t: Table)
    requires Inv(t)
    ensures |t.entries| <= COMMANDS_KEPT ==> Prune(t) == t
    ensures |t.entries| > COMMANDS_KEPT ==> |Prune(t).entries| >= COMMANDS_KEPT
    ensures Prune(t).commands == t.commands && Prune(t).log == t.log
    ensures forall id <- Prune(t).entries :: id in t.entries && Prune(t).entries[id] == t.entries[id]
  {
    hide Keep;
    assert t.entries.Keys == set id | id in t.order;
    SizeOfSet(t.order);
    var excess := |t.order| - COMMANDS_KEPT;
    if excess > 0 {
      var kept := Keep(t, t.order, excess);
      KeepForgets(t, t.order, excess);
      assert Prune(t).entries.Keys == set id | id in kept;
      SizeOfSet(kept);
    }
  }
}
