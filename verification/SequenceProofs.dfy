/** What every run of a sequence keeps: each command ends once, none is left open, items
    take turns, and an undisturbed run comes to what one sequential reading says. */
module SequenceProofs {
  import opened Wrappers
  import opened Commands
  import opened Sequence

  // -- The table -------------------------------------------------------------------------

  /** The table, the first ends and the log agree, and no command completes twice. */
  ghost predicate TableInv(s: State) {
    && (forall id <- s.table :: s.table[id].status == if id in s.ended then Some(s.ended[id]) else None)
    && (forall i | 0 <= i < |s.log| && s.log[i].Completed? ::
          s.log[i].id in s.ended && s.ended[s.log[i].id] == s.log[i].status)
    && (forall id <- s.ended :: Completed(id, s.ended[id]) in s.log)
    && (forall i, j | 0 <= i < j < |s.log| && s.log[i].Completed? && s.log[j].Completed? :: s.log[i].id != s.log[j].id)
  }

  lemma CompleteKeeps(s: State, id: Id, status: Status)
    requires TableInv(s)
    ensures TableInv(Complete(s, id, status))
  {
    var n := Complete(s, id, status);
    if n != s {
      forall i | 0 <= i < |n.log| && n.log[i].Completed?
        ensures n.log[i].id in n.ended && n.ended[n.log[i].id] == n.log[i].status
      {
        if i < |s.log| { assert s.log[i].id in s.ended; }
      }
      assert n.log[|s.log|] == Completed(id, status);
      forall x <- n.ended ensures Completed(x, n.ended[x]) in n.log {
        if x != id { assert Completed(x, s.ended[x]) in s.log; }
      }
    }
  }

  /** Whether `_skip` ends a command. */
  predicate Skips(s: State, ids: seq<Id>, id: Id) {
    id in ids && id in s.table && !s.table[id].running && s.table[id].status == None
  }

  predicate SameFor(s: State, n: State, id: Id) {
    && (id in n.table <==> id in s.table) && (id in s.table ==> n.table[id] == s.table[id])
    && (id in n.ended <==> id in s.ended) && (id in s.ended ==> n.ended[id] == s.ended[id])
  }

  predicate AbortedFor(n: State, id: Id) {
    id in n.table && n.table[id] == Entry(Some(ABORT), false) && id in n.ended && n.ended[id] == ABORT
  }

  lemma {:induction false} SkipOne(s: State, ids: seq<Id>, id: Id)
    ensures if Skips(s, ids, id) then AbortedFor(Skip(s, ids), id) else SameFor(s, Skip(s, ids), id)
    decreases |ids|
  {
    if ids != [] {
      var first := if ids[0] in s.table && !s.table[ids[0]].running then Complete(s, ids[0], ABORT) else s;
      SkipOne(first, ids[1..], id);
      assert id in ids <==> id == ids[0] || id in ids[1..];
    }
  }

  /** The log only got completions. */
  ghost predicate LogGrew(s: State, n: State) {
    && s.log <= n.log
    && forall i | |s.log| <= i < |n.log| :: n.log[i].Completed?
  }

  /** What `_skip` does to one command. */
  lemma SkipFirst(s: State, id: Id)
    requires TableInv(s)
    ensures var first := if id in s.table && !s.table[id].running then Complete(s, id, ABORT) else s;
      TableInv(first) && LogGrew(s, first) && first == s.(table := first.table, ended := first.ended, log := first.log)
  {
    CompleteKeeps(s, id, ABORT);
    hide TableInv;
  }

  lemma {:induction false} SkipKeeps(s: State, ids: seq<Id>)
    requires TableInv(s)
    ensures TableInv(Skip(s, ids)) && LogGrew(s, Skip(s, ids))
    ensures Skip(s, ids) == s.(table := Skip(s, ids).table, ended := Skip(s, ids).ended, log := Skip(s, ids).log)
    decreases |ids|
  {
    hide TableInv, Complete;
    if ids != [] {
      SkipFirst(s, ids[0]);
      SkipKeeps(if ids[0] in s.table && !s.table[ids[0]].running then Complete(s, ids[0], ABORT) else s, ids[1..]);
    }
  }

  // -- Places ----------------------------------------------------------------------------

  lemma {:induction false} InFlat(branches: seq<seq<Id>>, id: Id)
    ensures id in Flat(branches) <==> exists b: nat, k: nat :: b < |branches| && k < |branches[b]| && branches[b][k] == id
  {
    if branches != [] {
      InFlat(branches[1..], id);
      if id in branches[0] {
        var k :| 0 <= k < |branches[0]| && branches[0][k] == id;
      }
      if b: nat, k: nat :| b < |branches[1..]| && k < |branches[1..][b]| && branches[1..][b][k] == id {
        assert branches[b + 1][k] == id;
      }
      if b: nat, k: nat :| b < |branches| && k < |branches[b]| && branches[b][k] == id {
        if b > 0 { assert branches[1..][b - 1][k] == id; }
      }
    }
  }

  /** The commands of the items from `from` on are exactly those at a place there. */
  lemma {:induction false} InUnitsFrom(items: seq<Item>, from: nat, id: Id)
    ensures id in UnitsFrom(items, from) <==> exists p :: In(items, p) && p.item >= from && Unit(items, p) == id
    decreases |items| - from
  {
    if from < |items| {
      InUnitsFrom(items, from + 1, id);
      InFlat(Branches(items[from]), id);
      if b: nat, k: nat :| b < |Branches(items[from])| && k < |Branches(items[from])[b]| && Branches(items[from])[b][k] == id {
        assert In(items, Place(from, b, k)) && Unit(items, Place(from, b, k)) == id;
      }
      if p :| In(items, p) && p.item >= from && Unit(items, p) == id {
        if p.item == from { assert Branches(items[from])[p.branch][p.index] == id; }
      }
    }
  }

  // -- Where a command may still be open -------------------------------------------------

  predicate Ahead(phase: BranchPhase, index: nat) {
    match phase
    case At(k) => k <= index
    case InUnit(k) => k <= index
    case BranchOver(_) => false
    case BranchCancelled => true
  }

  predicate OnBranch(s: State, p: Place) {
    p.item == s.item && p.branch < |s.branches|
  }

  /** A command that has not ended is one the sequence, or a branch of it, will still end. */
  predicate OpenAt(s: State, p: Place) {
    match s.phase
    case Before => p.item >= s.item
    case InItem => p.item > s.item || (OnBranch(s, p) && Ahead(s.branches[p.branch], p.index))
    case Finished => false
    case Swept => OnBranch(s, p) && s.branches[p.branch] == InUnit(p.index)
  }

  ghost predicate PlaceInv(items: seq<Item>, s: State, p: Place)
    requires In(items, p)
  {
    var id := Unit(items, p);
    && (id in s.table || id in s.ended)
    && (id in s.table && s.table[id].running ==>
          (s.phase == InItem || s.phase == Swept) && OnBranch(s, p) && s.branches[p.branch] == InUnit(p.index))
    && (id !in s.ended ==> OpenAt(s, p))
  }

  predicate Shape(items: seq<Item>, s: State) {
    && (s.phase == Before || s.phase == Finished ==> s.branches == [])
    && (s.phase == InItem ==> s.item < |items| && |s.branches| == |Current(items, s)|)
    && (s.phase == Swept ==> s.branches == [] || |s.branches| == |Current(items, s)|)
  }

  /** Every command that began did so after every command of the items before it had ended. */
  ghost predicate TurnsInv(items: seq<Item>, s: State) {
    forall n: nat, p, q | n < |s.log| && In(items, p) && In(items, q) && s.log[n] == Began(Unit(items, p)) && q.item < p.item ::
      CompletedBefore(s.log, n, Unit(items, q))
  }

  ghost predicate CompletedBefore(log: seq<Event>, n: nat, id: Id) {
    exists m: nat :: m < n && m < |log| && log[m].Completed? && log[m].id == id
  }

  ghost predicate Inv(items: seq<Item>, s: State) {
    && TableInv(s) && Shape(items, s) && TurnsInv(items, s)
    && forall p | In(items, p) :: PlaceInv(items, s, p)
  }

  lemma TurnsGrow(items: seq<Item>, s: State, n: State)
    requires TurnsInv(items, s) && LogGrew(s, n)
    ensures TurnsInv(items, n)
  {
    forall k: nat, p, q | k < |n.log| && In(items, p) && In(items, q) && n.log[k] == Began(Unit(items, p)) && q.item < p.item
      ensures CompletedBefore(n.log, k, Unit(items, q))
    {
      assert k < |s.log| && s.log[k] == n.log[k];
      var m: nat :| m < k && m < |s.log| && s.log[m].Completed? && s.log[m].id == Unit(items, q);
      assert n.log[m] == s.log[m];
    }
  }

  // -- Each step keeps the invariant -----------------------------------------------------

  lemma SkipPlace(items: seq<Item>, s: State, ids: seq<Id>, p: Place)
    requires In(items, p) && PlaceInv(items, s, p) && TableInv(s)
    ensures PlaceInv(items, Skip(s, ids), p)
    ensures Unit(items, p) in ids && (Unit(items, p) in s.table ==> !s.table[Unit(items, p)].running) ==> Unit(items, p) in Skip(s, ids).ended
  {
    SkipKeeps(s, ids);
    SkipOne(s, ids, Unit(items, p));
  }

  /** A step that leaves the table and the ends alone. */
  lemma ControlKeeps(items: seq<Item>, s: State, n: State)
    requires Inv(items, s) && n == s.(phase := n.phase, item := n.item, branches := n.branches, cancelled := n.cancelled)
    requires Shape(items, n)
    requires forall p | In(items, p) && PlaceInv(items, s, p) :: PlaceInv(items, n, p)
    ensures Inv(items, n)
  {
  }

  lemma StartKeeps(items: seq<Item>, s: State)
    requires Inv(items, s) && Enabled(items, s, StartItem)
    ensures Inv(items, Apply(items, s, StartItem))
  {
    ControlKeeps(items, s, Apply(items, s, StartItem));
  }

  lemma BranchKeeps(items: seq<Item>, s: State, step: Step)
    requires Inv(items, s) && Enabled(items, s, step) && (step.BranchEnds? || step.SleepCancelled? || step.Cancel?)
    ensures Inv(items, Apply(items, s, step))
  {
    ControlKeeps(items, s, Apply(items, s, step));
  }

  lemma ForgetKeeps(items: seq<Item>, s: State, id: Id)
    requires Inv(items, s) && Enabled(items, s, Forget(id))
    ensures Inv(items, Apply(items, s, Forget(id)))
  {
    var n := Apply(items, s, Forget(id));
    TurnsGrow(items, s, n);
    forall p | In(items, p) ensures PlaceInv(items, n, p) { assert PlaceInv(items, s, p); }
  }

  lemma RunKeepsTable(s: State, id: Id, running: bool)
    requires TableInv(s)
    ensures TableInv(SetRunning(s, id, running))
  {
  }

  lemma BeganKeepsTable(s: State, id: Id)
    requires TableInv(s)
    ensures TableInv(s.(log := s.log + [Began(id)]))
  {
    var n := s.(log := s.log + [Began(id)]);
    forall x <- n.ended ensures Completed(x, n.ended[x]) in n.log {
      assert Completed(x, s.ended[x]) in s.log;
    }
  }

  lemma BeginTurns(items: seq<Item>, s: State, b: nat)
    requires Inv(items, s) && Enabled(items, s, BeginUnit(b)) && DistinctIds(items)
    ensures TurnsInv(items, Apply(items, s, BeginUnit(b)))
  {
    var n := Apply(items, s, BeginUnit(b));
    var here := Place(s.item, b, s.branches[b].index);
    forall k: nat, p, q | k < |n.log| && In(items, p) && In(items, q) && n.log[k] == Began(Unit(items, p)) && q.item < p.item
      ensures CompletedBefore(n.log, k, Unit(items, q))
    {
      var id := Unit(items, q);
      if k < |s.log| {
        assert s.log[k] == n.log[k];
        var m: nat :| m < k && m < |s.log| && s.log[m].Completed? && s.log[m].id == id;
        assert n.log[m] == s.log[m];
      } else {
        assert In(items, here) && Unit(items, here) == Unit(items, p);
        assert p == here;
        assert PlaceInv(items, s, q) && id in s.ended;
        var m :| 0 <= m < |s.log| && s.log[m] == Completed(id, s.ended[id]);
        assert n.log[m] == s.log[m];
      }
    }
  }

  lemma BeginPlace(items: seq<Item>, s: State, b: nat, p: Place)
    requires Enabled(items, s, BeginUnit(b)) && DistinctIds(items) && In(items, p) && PlaceInv(items, s, p)
    ensures PlaceInv(items, Apply(items, s, BeginUnit(b)), p)
  {
    var here := Place(s.item, b, s.branches[b].index);
    assert In(items, here) && Unit(items, here) == UnitOf(items, s, b);
    if Unit(items, p) == UnitOf(items, s, b) { assert p == here; }
  }

  lemma BeginTable(items: seq<Item>, s: State, b: nat)
    requires TableInv(s) && Shape(items, s) && Enabled(items, s, BeginUnit(b))
    ensures var n := Apply(items, s, BeginUnit(b)); TableInv(n) && Shape(items, n)
  {
    var id := UnitOf(items, s, b);
    RunKeepsTable(s, id, true);
    BeganKeepsTable(SetRunning(s, id, true), id);
  }

  lemma BeginKeeps(items: seq<Item>, s: State, b: nat)
    requires Inv(items, s) && Enabled(items, s, BeginUnit(b)) && DistinctIds(items)
    ensures Inv(items, Apply(items, s, BeginUnit(b)))
  {
    hide Apply, Enabled, TableInv, TurnsInv, Shape, PlaceInv, DistinctIds;
    BeginTurns(items, s, b);
    BeginTable(items, s, b);
    forall p | In(items, p) ensures PlaceInv(items, Apply(items, s, BeginUnit(b)), p) { BeginPlace(items, s, b, p); }
  }

  /** The command at a place has ended, and its task with it. */
  ghost predicate Settled(items: seq<Item>, s: State, p: Place)
    requires In(items, p)
  {
    Unit(items, p) in s.ended && (Unit(items, p) in s.table ==> !s.table[Unit(items, p)].running)
  }

  /** A branch whose command `k` has ended and that has not moved on yet. */
  ghost predicate UnitDone(items: seq<Item>, s: State, b: nat, k: nat) {
    && TableInv(s) && Shape(items, s) && TurnsInv(items, s) && (s.phase == InItem || s.phase == Swept)
    && b < |s.branches| && b < |Current(items, s)| && k < |Current(items, s)[b]|
    && (s.branches[b] == InUnit(k) || s.branches[b] == At(k))
    && (forall p | In(items, p) :: PlaceInv(items, s, p))
    && (forall p | In(items, p) && p == Place(s.item, b, k) :: Settled(items, s, p))
  }

  lemma GoesOn(items: seq<Item>, s: State, b: nat, k: nat)
    requires UnitDone(items, s, b, k)
    ensures Inv(items, s.(branches := s.branches[b := At(k + 1)]))
  {
    var n := s.(branches := s.branches[b := At(k + 1)]);
    forall p | In(items, p) ensures PlaceInv(items, n, p) {
      assert PlaceInv(items, s, p);
      if p == Place(s.item, b, k) { assert Settled(items, s, p); }
    }
  }

  lemma StopsAt(items: seq<Item>, s: State, b: nat, k: nat, p: Place)
    requires UnitDone(items, s, b, k) && In(items, p)
    ensures PlaceInv(items, Skip(s, Current(items, s)[b][k + 1..]).(branches := s.branches[b := BranchOver(false)]), p)
  {
    var rest := Current(items, s)[b][k + 1..];
    assert PlaceInv(items, s, p);
    SkipPlace(items, s, rest, p);
    if p.item == s.item && p.branch == b {
      if p.index == k {
        assert Settled(items, s, p);
      } else if p.index > k {
        assert Unit(items, p) == rest[p.index - k - 1];
      }
    }
    SkipKeeps(s, rest);
    SkipOne(s, rest, Unit(items, p));
  }

  /** After a command ended: its branch goes on, or what follows is skipped. */
  lemma AfterUnitKeeps(items: seq<Item>, s: State, b: nat, k: nat, status: Status)
    requires UnitDone(items, s, b, k)
    ensures Inv(items, AfterUnit(items, s, b, k, status))
  {
    if status == OK {
      GoesOn(items, s, b, k);
    } else {
      var rest := Current(items, s)[b][k + 1..];
      var n := Skip(s, rest).(branches := s.branches[b := BranchOver(false)]);
      SkipKeeps(s, rest);
      TurnsGrow(items, s, n);
      forall p | In(items, p) ensures PlaceInv(items, n, p) { StopsAt(items, s, b, k, p); }
    }
  }

  /** What ending one command does to a place. */
  lemma CompletePlace(items: seq<Item>, s: State, id: Id, status: Status, p: Place)
    requires In(items, p) && PlaceInv(items, s, p)
    requires forall x <- s.table :: s.table[x].status == if x in s.ended then Some(s.ended[x]) else None
    ensures PlaceInv(items, Complete(SetRunning(s, id, false), id, status), p)
    ensures Unit(items, p) == id ==> Settled(items, Complete(SetRunning(s, id, false), id, status), p)
  {
  }

  /** What ending one command does to the table and the log. */
  lemma CompleteTable(items: seq<Item>, s: State, id: Id, status: Status)
    requires TableInv(s) && TurnsInv(items, s)
    ensures var n := Complete(SetRunning(s, id, false), id, status);
      TableInv(n) && TurnsInv(items, n) && n == s.(table := n.table, ended := n.ended, log := n.log)
  {
    RunKeepsTable(s, id, false);
    CompleteKeeps(SetRunning(s, id, false), id, status);
    hide TableInv;
    TurnsGrow(items, s, Complete(SetRunning(s, id, false), id, status));
    hide TurnsInv;
  }

  /** A command ends, with its task: every other place is as it was. */
  lemma CompleteDone(items: seq<Item>, s: State, b: nat, k: nat, status: Status)
    requires Inv(items, s)
    requires (InsideUnit(items, s, b) || BeforeUnit(items, s, b)) && s.branches[b].index == k
    ensures UnitDone(items, Complete(SetRunning(s, UnitOf(items, s, b), false), UnitOf(items, s, b), status), b, k)
  {
    var id := UnitOf(items, s, b);
    var n := Complete(SetRunning(s, id, false), id, status);
    CompleteTable(items, s, id, status);
    assert forall x <- s.table :: s.table[x].status == if x in s.ended then Some(s.ended[x]) else None;
    hide TableInv, TurnsInv, PlaceInv, Settled, Complete, SetRunning;
    forall p | In(items, p)
      ensures PlaceInv(items, n, p) && (p == Place(s.item, b, k) ==> Settled(items, n, p))
    {
      CompletePlace(items, s, id, status, p);
    }
  }

  lemma EndKeeps(items: seq<Item>, s: State, b: nat, status: Status)
    requires Inv(items, s) && InsideUnit(items, s, b) && DistinctIds(items)
    ensures Inv(items, EndStep(items, s, b, status))
  {
    CompleteDone(items, s, b, s.branches[b].index, status);
    hide UnitDone, Inv;
    AfterUnitKeeps(items, Complete(SetRunning(s, UnitOf(items, s, b), false), UnitOf(items, s, b), status),
                   b, s.branches[b].index, status);
  }

  lemma MissingKeeps(items: seq<Item>, s: State, b: nat)
    requires Inv(items, s) && BeforeUnit(items, s, b) && DistinctIds(items)
    ensures Inv(items, Apply(items, s, UnitMissing(b)))
  {
    var id, k := UnitOf(items, s, b), s.branches[b].index;
    assert In(items, Place(s.item, b, k)) && Unit(items, Place(s.item, b, k)) == id;
    assert PlaceInv(items, s, Place(s.item, b, k));
    if id in s.table {
      assert SetRunning(s, id, false) == s by { assert s.table[id := s.table[id].(running := false)] == s.table; }
    }
    CompleteDone(items, s, b, k, ERROR);
    AfterUnitKeeps(items, Complete(s, id, ERROR), b, k, ERROR);
  }

  lemma CancelBranch(items: seq<Item>, s: State, b: nat, k: nat)
    requires UnitDone(items, s, b, k)
    ensures Inv(items, s.(branches := s.branches[b := BranchCancelled]))
  {
    var n := s.(branches := s.branches[b := BranchCancelled]);
    forall p | In(items, p) ensures PlaceInv(items, n, p) {
      assert PlaceInv(items, s, p);
      if p == Place(s.item, b, k) { assert Settled(items, s, p); }
    }
  }

  lemma CancelledKeeps(items: seq<Item>, s: State, b: nat)
    requires Inv(items, s) && Enabled(items, s, UnitCancelled(b))
    ensures Inv(items, Apply(items, s, UnitCancelled(b)))
  {
    var k := s.branches[b].index;
    CompleteDone(items, s, b, k, ABORT);
    hide UnitDone, Inv;
    CancelBranch(items, Complete(SetRunning(s, UnitOf(items, s, b), false), UnitOf(items, s, b), ABORT), b, k);
  }

  /** Skipping every command from an item on leaves none of them open. */
  lemma SkipFrom(items: seq<Item>, s: State, from: nat, p: Place)
    requires TableInv(s) && In(items, p) && PlaceInv(items, s, p)
    ensures PlaceInv(items, Skip(s, UnitsFrom(items, from)), p)
    ensures var n, id := Skip(s, UnitsFrom(items, from)), Unit(items, p);
      && (id in n.table ==> id in s.table && n.table[id].running == s.table[id].running)
      && (id in s.ended ==> id in n.ended)
      && (p.item >= from && (id in s.table ==> !s.table[id].running) ==> id in n.ended)
  {
    var ids := UnitsFrom(items, from);
    SkipPlace(items, s, ids, p);
    SkipOne(s, ids, Unit(items, p));
    InUnitsFrom(items, from, Unit(items, p));
  }

  /** When every branch of the current item is over, only later commands are open. */
  lemma GatheredPlace(items: seq<Item>, s: State, p: Place)
    requires In(items, p) && PlaceInv(items, s, p) && Enabled(items, s, Gathered)
    ensures Unit(items, p) in s.ended || p.item >= s.item + 1
    ensures Unit(items, p) in s.table ==> !s.table[Unit(items, p)].running
  {
    if OnBranch(s, p) { assert s.branches[p.branch].BranchOver?; }
  }

  lemma GatherFailsPlace(items: seq<Item>, s: State, p: Place)
    requires TableInv(s) && In(items, p) && PlaceInv(items, s, p) && Enabled(items, s, Gathered)
    ensures PlaceInv(items, Skip(s, UnitsFrom(items, s.item + 1)).(phase := Finished, branches := []), p)
  {
    GatheredPlace(items, s, p);
    SkipFrom(items, s, s.item + 1, p);
    hide TableInv, Skip, Enabled, UnitsFrom;
  }

  lemma GatherFails(items: seq<Item>, s: State)
    requires Inv(items, s) && Enabled(items, s, Gathered)
    ensures Inv(items, Skip(s, UnitsFrom(items, s.item + 1)).(phase := Finished, branches := []))
  {
    var ids := UnitsFrom(items, s.item + 1);
    SkipKeeps(s, ids);
    TurnsGrow(items, s, Skip(s, ids).(phase := Finished, branches := []));
    forall p | In(items, p) ensures PlaceInv(items, Skip(s, ids).(phase := Finished, branches := []), p) {
      assert PlaceInv(items, s, p);
      GatherFailsPlace(items, s, p);
    }
    hide PlaceInv, TurnsInv, Skip;
  }

  lemma NextItemPlace(items: seq<Item>, s: State, p: Place)
    requires In(items, p) && PlaceInv(items, s, p) && Enabled(items, s, Gathered)
    requires forall b | 0 <= b < |s.branches| :: s.branches[b] == BranchOver(true)
    ensures PlaceInv(items, GatherStep(items, s), p)
  {
  }

  lemma GatherKeeps(items: seq<Item>, s: State)
    requires Inv(items, s) && Enabled(items, s, Gathered)
    ensures Inv(items, GatherStep(items, s))
  {
    if forall b | 0 <= b < |s.branches| :: s.branches[b] == BranchOver(true) {
      forall p | In(items, p) && PlaceInv(items, s, p) ensures PlaceInv(items, GatherStep(items, s), p) {
        NextItemPlace(items, s, p);
      }
      hide Inv, PlaceInv;
      ControlKeeps(items, s, GatherStep(items, s));
    } else {
      hide Inv, Skip, UnitsFrom;
      GatherFails(items, s);
    }
  }

  lemma SweepKeeps(items: seq<Item>, s: State)
    requires Inv(items, s) && Enabled(items, s, Sweep)
    ensures Inv(items, Apply(items, s, Sweep))
  {
    var n := Apply(items, s, Sweep);
    var ids := UnitsFrom(items, 0);
    SkipKeeps(s, ids);
    TurnsGrow(items, s, n);
    forall p | In(items, p) ensures PlaceInv(items, n, p) {
      assert PlaceInv(items, s, p);
      SkipFrom(items, s, 0, p);
      hide TableInv, TurnsInv;
    }
  }

  lemma InvKeeps(items: seq<Item>, s: State, step: Step)
    requires Inv(items, s) && Enabled(items, s, step) && DistinctIds(items)
    ensures Inv(items, Apply(items, s, step))
  {
    hide Inv, DistinctIds;
    match step
    case StartItem => StartKeeps(items, s);
    case BeginUnit(b) => BeginKeeps(items, s, b);
    case UnitMissing(b) => MissingKeeps(items, s, b);
    case EndUnit(b, status) => EndKeeps(items, s, b, status);
    case UnitCancelled(b) => CancelledKeeps(items, s, b);
    case Gathered => GatherKeeps(items, s);
    case Sweep => SweepKeeps(items, s);
    case Forget(id) => ForgetKeeps(items, s, id);
    case _ => BranchKeeps(items, s, step);
  }

  lemma InitialInv(items: seq<Item>, s: State)
    requires Initial(items, s)
    ensures Inv(items, s)
  {
    forall p | In(items, p) ensures PlaceInv(items, s, p) {
      InUnitsFrom(items, 0, Unit(items, p));
    }
  }

  lemma {:induction false} InvAfter(items: seq<Item>, s: State, steps: seq<Step>)
    requires Inv(items, s) && ValidRun(items, s, steps) && DistinctIds(items)
    ensures Inv(items, After(items, s, steps))
    decreases |steps|
  {
    if steps != [] {
      InvKeeps(items, s, steps[0]);
      InvAfter(items, Apply(items, s, steps[0]), steps[1..]);
    }
  }

  // -- The results -----------------------------------------------------------------------

  /** The tasks of a sequence are done: it finished, or it was cancelled and no branch is in
      a command any more. */
  predicate TasksDone(s: State) {
    s.phase == Finished || (s.phase == Swept && forall b | 0 <= b < |s.branches| :: !s.branches[b].InUnit?)
  }

  /** Finished, stopped by a failure or cancelled at any await: once the tasks of a sequence
      are done every command of it has ended, with the one status its only completed
      notification carries. */
  lemma EveryCommandEndsOnce(items: seq<Item>, s: State, steps: seq<Step>, p: Place)
    requires Initial(items, s) && ValidRun(items, s, steps) && DistinctIds(items)
    requires TasksDone(After(items, s, steps)) && In(items, p)
    ensures var n := After(items, s, steps); var id := Unit(items, p);
      && id in n.ended
      && exists i: nat :: i < |n.log| && n.log[i] == Completed(id, n.ended[id])
           && forall j | 0 <= j < |n.log| && j != i && n.log[j].Completed? :: n.log[j].id != id
  {
    InitialInv(items, s);
    InvAfter(items, s, steps);
    var n := After(items, s, steps);
    var id := Unit(items, p);
    assert PlaceInv(items, n, p);
    var i :| 0 <= i < |n.log| && n.log[i] == Completed(id, n.ended[id]);
    forall j | 0 <= j < |n.log| && j != i && n.log[j].Completed? ensures n.log[j].id != id {
      if j < i { assert n.log[j].id != n.log[i].id; } else { assert n.log[i].id != n.log[j].id; }
    }
  }

  /** In every run, no command of an item begins before every command of the items before it
      has ended. */
  lemma ItemsTakeTurns(items: seq<Item>, s: State, steps: seq<Step>, n: nat, p: Place, q: Place)
    requires Initial(items, s) && ValidRun(items, s, steps) && DistinctIds(items)
    requires n < |After(items, s, steps).log| && In(items, p) && In(items, q) && q.item < p.item
    requires After(items, s, steps).log[n] == Began(Unit(items, p))
    ensures CompletedBefore(After(items, s, steps).log, n, Unit(items, q))
  {
    InitialInv(items, s);
    InvAfter(items, s, steps);
  }
}
