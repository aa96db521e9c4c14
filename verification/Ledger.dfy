/** The statuses raised on the local components, their resources and the engine, and the
    errors they caused. An error is known by the number in its id. */
module Ledger {
  import opened Wrappers

  type Ref = nat

  /** Who raised a status on a component: the component itself, or one of its resources. */
  datatype Key = Itself | Resource(resource: nat)

  datatype Severity = WARNING | ERROR

  datatype Life = Uninitialized | Ready | Failed

  datatype Status = StatusReady | StatusWarning | StatusError | StatusUninitialized

  /** A status raised by one source, and the errors it caused that are still kept. */
  datatype Raised = Raised(status: Severity, message: string, errors: seq<nat>)

  /** What `error_detail` answers. */
  datatype Detail = Detail(ref: Option<Ref>, status: Severity, message: string)

  /** Where a status is raised. */
  datatype Place = OfEngine | On(ref: Ref, key: Key)

  /** What happened: an error reported for a status, or a status cleared. */
  datatype Event = Reported(id: nat, place: Place, detail: Detail) | Cleared(place: Place)

  datatype Component = Component(life: Life, raised: map<Key, Raised>)

  datatype Ledger = Ledger(hosted: map<Ref, Component>, engine: Option<Raised>, errors: map<nat, Detail>,
                           nextId: nat, log: seq<Event>)

  // -- Statuses --------------------------------------------------------------------------

  predicate Raises(raised: map<Key, Raised>, severity: Severity) {
    exists key :: key in raised && raised[key].status == severity
  }

  /** `status` of a component. */
  function StatusOf(c: Component): Status {
    if c.life == Failed || Raises(c.raised, ERROR) then StatusError
    else if Raises(c.raised, WARNING) then StatusWarning
    else if c.life == Uninitialized then StatusUninitialized
    else StatusReady
  }

  /** How strong a status is: ERROR comes above WARNING, which comes above the lifecycle. */
  function Strength(s: Status): nat {
    match s
    case StatusReady => 0
    case StatusUninitialized => 1
    case StatusWarning => 2
    case StatusError => 3
  }

  function OfLife(life: Life): Status {
    match life
    case Uninitialized => StatusUninitialized
    case Ready => StatusReady
    case Failed => StatusError
  }

  /** A status that the life of a component, or somebody who raised one on it, speaks for. */
  predicate SpeaksFor(c: Component, s: Status) {
    s == OfLife(c.life) || (s == StatusWarning && Raises(c.raised, WARNING)) || (s == StatusError && Raises(c.raised, ERROR))
  }

  ghost predicate Strongest(c: Component, s: Status) {
    SpeaksFor(c, s) && forall other :: SpeaksFor(c, other) ==> Strength(other) <= Strength(s)
  }

  /** The status of a component is the strongest that its life or a raised status speaks for. */
  lemma StatusIsStrongest(c: Component, s: Status)
    ensures s == StatusOf(c) <==> Strongest(c, s)
  {
    hide Raises;
    assert SpeaksFor(c, StatusOf(c));
  }

  // -- The operations --------------------------------------------------------------------

  function ErrorsOf(raised: Option<Raised>): seq<nat> {
    if raised.Some? then raised.value.errors else []
  }

  function At(l: Ledger, place: Place): Option<Raised> {
    match place
    case OfEngine => l.engine
    case On(ref, key) => if ref in l.hosted && key in l.hosted[ref].raised then Some(l.hosted[ref].raised[key]) else None
  }

  function Set(l: Ledger, place: Place, raised: Raised): Ledger {
    match place
    case OfEngine => l.(engine := Some(raised))
    case On(ref, key) =>
      if ref in l.hosted then
        l.(hosted := l.hosted[ref := l.hosted[ref].(raised := l.hosted[ref].raised[key := raised])])
      else l
  }

  /** Keep a new error for a status that was raised. */
  function Report(l: Ledger, place: Place, status: Severity, message: string): Ledger {
    var id := l.nextId + 1;
    var detail := Detail(if place.On? then Some(place.ref) else None, status, message);
    Set(l, place, Raised(status, message, ErrorsOf(At(l, place)) + [id])).(
      nextId := id, errors := l.errors[id := detail], log := l.log + [Reported(id, place, detail)])
  }

  /** `_raise`. */
  function Raise(l: Ledger, ref: Ref, key: Key, status: Severity, message: string): Ledger
    requires ref in l.hosted
  {
    var m := Set(l, On(ref, key), Raised(status, message, ErrorsOf(At(l, On(ref, key)))));
    if StatusOf(m.hosted[ref]) == StatusOf(l.hosted[ref]) then m else Report(m, On(ref, key), status, message)
  }

  /** `_raise_engine`. */
  function RaiseEngine(l: Ledger, status: Severity, message: string): Ledger {
    if l.engine.Some? && l.engine.value.status == status then
      l.(engine := Some(Raised(status, message, l.engine.value.errors)))
    else Report(l, OfEngine, status, message)
  }

  function Forget(errors: map<nat, Detail>, ids: seq<nat>): map<nat, Detail> {
    map id | id in errors && id !in ids :: errors[id]
  }

  /** `_clear` and `_clear_engine`. */
  function Clear(l: Ledger, place: Place): Ledger {
    var m := l.(errors := Forget(l.errors, ErrorsOf(At(l, place))), log := l.log + [Cleared(place)]);
    match place
    case OfEngine => m.(engine := None)
    case On(ref, key) =>
      if ref in l.hosted then m.(hosted := l.hosted[ref := l.hosted[ref].(raised := l.hosted[ref].raised - {key})]) else m
  }

  /** A status a resource raised reaches every component that uses it. */
  function RaiseAll(l: Ledger, refs: seq<Ref>, key: Key, status: Severity, message: string): Ledger
    requires forall ref <- refs :: ref in l.hosted
    decreases |refs|
  {
    if refs == [] then l
    else
      RaiseKeepsHosted(l, refs[0], key, status, message);
      RaiseAll(Raise(l, refs[0], key, status, message), refs[1..], key, status, message)
  }

  function ClearAll(l: Ledger, refs: seq<Ref>, key: Key): Ledger
    decreases |refs|
  {
    if refs == [] then l else ClearAll(Clear(l, On(refs[0], key)), refs[1..], key)
  }

  lemma RaiseKeepsHosted(l: Ledger, ref: Ref, key: Key, status: Severity, message: string)
    requires ref in l.hosted
    ensures Raise(l, ref, key, status, message).hosted.Keys == l.hosted.Keys
  {
  }

  datatype Step =
    | RaiseComponent(ref: Ref, status: Severity, message: string)
    | ClearComponent(ref: Ref)
    | RaiseResource(users: seq<Ref>, resource: nat, status: Severity, message: string)
    | ClearResource(users: seq<Ref>, resource: nat)
    | RaiseOnEngine(status: Severity, message: string)
    | ClearOnEngine
    | Lives(ref: Ref, life: Life)     // a component starts, fails or stops
    | OtherId                         // an id of another kind is assigned

  predicate Enabled(l: Ledger, step: Step) {
    match step
    case RaiseComponent(ref, _, _) => ref in l.hosted
    case RaiseResource(users, _, _, _) => forall ref <- users :: ref in l.hosted
    case Lives(ref, _) => ref in l.hosted
    case _ => true
  }

  function Apply(l: Ledger, step: Step): Ledger
    requires Enabled(l, step)
  {
    match step
    case RaiseComponent(ref, status, message) => Raise(l, ref, Itself, status, message)
    case ClearComponent(ref) => Clear(l, On(ref, Itself))
    case RaiseResource(users, resource, status, message) => RaiseAll(l, users, Resource(resource), status, message)
    case ClearResource(users, resource) => ClearAll(l, users, Resource(resource))
    case RaiseOnEngine(status, message) => RaiseEngine(l, status, message)
    case ClearOnEngine => Clear(l, OfEngine)
    case Lives(ref, life) => l.(hosted := l.hosted[ref := l.hosted[ref].(life := life)])
    case OtherId => l.(nextId := l.nextId + 1)
  }

  predicate ValidRun(l: Ledger, steps: seq<Step>)
    decreases |steps|
  {
    steps == [] || (Enabled(l, steps[0]) && ValidRun(Apply(l, steps[0]), steps[1..]))
  }

  function After(l: Ledger, steps: seq<Step>): Ledger
    requires ValidRun(l, steps)
    decreases |steps|
  {
    if steps == [] then l else After(Apply(l, steps[0]), steps[1..])
  }

  /** A ledger nothing was raised on. */
  predicate Fresh(l: Ledger) {
    && l.engine == None && l.errors == map[] && l.log == []
    && forall ref <- l.hosted :: l.hosted[ref].raised == map[]
  }

  // -- What the history says -------------------------------------------------------------

  /** The errors that were reported at a place and not cleared there since. */
  predicate Outstanding(log: seq<Event>, id: nat, place: Place, detail: Detail) {
    exists i :: 0 <= i < |log| && log[i] == Reported(id, place, detail) && !ClearedSince(log, i, place)
  }

  predicate ClearedSince(log: seq<Event>, i: nat, place: Place) {
    exists j :: i < j < |log| && log[j] == Cleared(place)
  }

  /** A raised status holds an error it caused. */
  predicate Holds(l: Ledger, place: Place, id: nat) {
    id in ErrorsOf(At(l, place))
  }

  /** The kept errors are the disjoint union of those the raised statuses hold, and a status
      holds exactly the outstanding ones of the history. */
  ghost predicate Inv(l: Ledger) {
    Numbered(l) && HeldIsOutstanding(l) && OutstandingIsHeld(l) && KeptIsHeld(l) && Apart(l)
  }

  ghost predicate HeldIsOutstanding(l: Ledger) {
    forall place, id :: Holds(l, place, id) ==> id in l.errors && Outstanding(l.log, id, place, l.errors[id])
  }

  ghost predicate OutstandingIsHeld(l: Ledger) {
    forall place, id, detail :: Outstanding(l.log, id, place, detail) ==>
      id in l.errors && l.errors[id] == detail && Holds(l, place, id)
  }

  ghost predicate KeptIsHeld(l: Ledger) {
    forall id <- l.errors :: exists place :: Holds(l, place, id)
  }

  ghost predicate Apart(l: Ledger) {
    forall p, q, id :: Holds(l, p, id) && Holds(l, q, id) ==> p == q
  }

  predicate Numbered(l: Ledger) {
    && (forall id <- l.errors :: id <= l.nextId)
    && (forall i | 0 <= i < |l.log| :: l.log[i].Reported? ==> l.log[i].id <= l.nextId)
  }

  lemma ReportAt(l: Ledger, place: Place, status: Severity, message: string)
    requires place.On? ==> place.ref in l.hosted
    ensures var t := Report(l, place, status, message);
      forall other, id :: Holds(t, other, id) <==> Holds(l, other, id) || (other == place && id == l.nextId + 1)
  {
  }

  lemma OutstandingMore(log: seq<Event>, event: Event, id: nat, place: Place, detail: Detail)
    ensures Outstanding(log + [event], id, place, detail) <==>
      (event == Reported(id, place, detail) || (Outstanding(log, id, place, detail) && event != Cleared(place)))
  {
    var more := log + [event];
    forall i: nat | ClearedSince(log, i, place) ensures ClearedSince(more, i, place) {
      var j :| i < j < |log| && log[j] == Cleared(place);
      assert more[j] == log[j];
    }
    if Outstanding(log, id, place, detail) && event != Cleared(place) {
      var i :| 0 <= i < |log| && log[i] == Reported(id, place, detail) && !ClearedSince(log, i, place);
      assert more[i] == log[i];
      assert !ClearedSince(more, i, place);
    }
    if event == Reported(id, place, detail) {
      assert more[|log|] == event && !ClearedSince(more, |log|, place);
    }
    if Outstanding(more, id, place, detail) {
      var i :| 0 <= i < |more| && more[i] == Reported(id, place, detail) && !ClearedSince(more, i, place);
      if i < |log| {
        assert log[i] == more[i];
        assert more[|log|] == event;
      }
    }
  }

  /** One more error at one place, and nothing else. */
  ghost predicate OneMore(l: Ledger, t: Ledger, place: Place, id: nat, detail: Detail) {
    && t.errors == l.errors[id := detail] && id !in l.errors
    && (forall p, other :: Holds(t, p, other) <==> Holds(l, p, other) || (p == place && other == id))
    && (forall p, other, d :: Outstanding(t.log, other, p, d) <==>
          Outstanding(l.log, other, p, d) || (other == id && p == place && d == detail))
  }

  /** The errors of one place go, and nothing else. */
  ghost predicate OneCleared(l: Ledger, t: Ledger, place: Place) {
    && (forall id :: id in t.errors <==> id in l.errors && !Holds(l, place, id))
    && (forall id <- t.errors :: t.errors[id] == l.errors[id])
    && (forall p, id :: Holds(t, p, id) <==> Holds(l, p, id) && p != place)
    && (forall p, id, d :: Outstanding(t.log, id, p, d) <==> Outstanding(l.log, id, p, d) && p != place)
  }

  lemma OneMoreKeeps(l: Ledger, t: Ledger, place: Place, id: nat, detail: Detail)
    requires HeldIsOutstanding(l) && OutstandingIsHeld(l) && KeptIsHeld(l) && Apart(l) && OneMore(l, t, place, id, detail)
    ensures HeldIsOutstanding(t) && OutstandingIsHeld(t) && KeptIsHeld(t) && Apart(t)
  {
    hide Holds, Outstanding;
    assert forall p :: !Holds(l, p, id);
    forall other <- t.errors ensures exists p :: Holds(t, p, other) {
      if other == id { assert Holds(t, place, id); }
      else {
        var p :| Holds(l, p, other);
        assert Holds(t, p, other);
      }
    }
  }

  lemma OneClearedKeeps(l: Ledger, t: Ledger, place: Place)
    requires HeldIsOutstanding(l) && OutstandingIsHeld(l) && KeptIsHeld(l) && Apart(l) && OneCleared(l, t, place)
    ensures HeldIsOutstanding(t) && OutstandingIsHeld(t) && KeptIsHeld(t) && Apart(t)
  {
    hide Holds, Outstanding;
    forall id <- t.errors ensures exists p :: Holds(t, p, id) {
      var p :| Holds(l, p, id);
      assert Holds(t, p, id);
    }
  }

  lemma ReportKeeps(l: Ledger, place: Place, status: Severity, message: string)
    requires Inv(l) && (place.On? ==> place.ref in l.hosted)
    ensures Inv(Report(l, place, status, message))
  {
    var t := Report(l, place, status, message);
    var id := l.nextId + 1;
    var detail := t.errors[id];
    var event := Reported(id, place, detail);
    ReportAt(l, place, status, message);
    assert t.errors == l.errors[id := detail] && t.log == l.log + [event];
    assert Numbered(t);
    hide Report, Outstanding, Holds, HeldIsOutstanding, OutstandingIsHeld, KeptIsHeld, Apart;
    forall other, p, d ensures Outstanding(t.log, other, p, d) <==>
      Outstanding(l.log, other, p, d) || (other == id && p == place && d == detail)
    {
      OutstandingMore(l.log, event, other, p, d);
    }
    OneMoreKeeps(l, t, place, id, detail);
  }

  lemma ClearAt(l: Ledger, place: Place)
    ensures var t := Clear(l, place);
      forall p, id :: Holds(t, p, id) <==> Holds(l, p, id) && p != place
  {
  }

  lemma ClearForgets(l: Ledger, place: Place)
    ensures var t := Clear(l, place);
      && t.log == l.log + [Cleared(place)] && t.nextId == l.nextId
      && (forall id :: id in t.errors <==> id in l.errors && !Holds(l, place, id))
      && (forall id <- t.errors :: t.errors[id] == l.errors[id])
  {
  }

  lemma ClearKeeps(l: Ledger, place: Place)
    requires Inv(l)
    ensures Inv(Clear(l, place))
  {
    hide Clear, Outstanding, Holds, HeldIsOutstanding, OutstandingIsHeld, KeptIsHeld, Apart;
    var t := Clear(l, place);
    ClearAt(l, place);
    ClearForgets(l, place);
    assert Numbered(t);
    hide Numbered;
    forall p, id, d ensures Outstanding(t.log, id, p, d) <==> Outstanding(l.log, id, p, d) && p != place {
      OutstandingMore(l.log, Cleared(place), id, p, d);
    }
    OneClearedKeeps(l, t, place);
  }

  /** A raise that reports nothing keeps the errors of its place. */
  lemma QuietKeeps(l: Ledger, t: Ledger)
    requires Inv(l) && t.errors == l.errors && t.log == l.log && t.nextId >= l.nextId
    requires forall p :: ErrorsOf(At(t, p)) == ErrorsOf(At(l, p))
    ensures Inv(t)
  {
    forall p, id ensures Holds(t, p, id) <==> Holds(l, p, id) { }
    assert Numbered(t);
    hide Outstanding, Holds, Numbered;
    forall id <- t.errors ensures exists p :: Holds(t, p, id) {
      var p :| Holds(l, p, id);
      assert Holds(t, p, id);
    }
  }

  lemma RaiseKeeps(l: Ledger, ref: Ref, key: Key, status: Severity, message: string)
    requires Inv(l) && ref in l.hosted
    ensures Inv(Raise(l, ref, key, status, message)) && Raise(l, ref, key, status, message).hosted.Keys == l.hosted.Keys
  {
    var m := Set(l, On(ref, key), Raised(status, message, ErrorsOf(At(l, On(ref, key)))));
    hide Inv;
    QuietKeeps(l, m);
    ReportKeeps(m, On(ref, key), status, message);
  }

  lemma RaiseEngineKeeps(l: Ledger, status: Severity, message: string)
    requires Inv(l)
    ensures Inv(RaiseEngine(l, status, message))
  {
    hide Inv;
    if l.engine.Some? && l.engine.value.status == status { QuietKeeps(l, RaiseEngine(l, status, message)); }
    else { ReportKeeps(l, OfEngine, status, message); }
  }

  lemma {:induction false} RaiseAllKeeps(l: Ledger, refs: seq<Ref>, key: Key, status: Severity, message: string)
    requires Inv(l) && forall ref <- refs :: ref in l.hosted
    ensures Inv(RaiseAll(l, refs, key, status, message)) && RaiseAll(l, refs, key, status, message).hosted.Keys == l.hosted.Keys
    decreases |refs|
  {
    if refs != [] {
      RaiseKeeps(l, refs[0], key, status, message);
      hide Inv, Raise;
      RaiseAllKeeps(Raise(l, refs[0], key, status, message), refs[1..], key, status, message);
    }
  }

  lemma {:induction false} ClearAllKeeps(l: Ledger, refs: seq<Ref>, key: Key)
    requires Inv(l)
    ensures Inv(ClearAll(l, refs, key))
    decreases |refs|
  {
    if refs != [] {
      ClearKeeps(l, On(refs[0], key));
      hide Inv, Clear;
      ClearAllKeeps(Clear(l, On(refs[0], key)), refs[1..], key);
    }
  }

  lemma StepKeeps(l: Ledger, step: Step)
    requires Inv(l) && Enabled(l, step)
    ensures Inv(Apply(l, step))
  {
    hide Inv;
    match step
    case RaiseComponent(ref, status, message) => RaiseKeeps(l, ref, Itself, status, message);
    case ClearComponent(ref) => ClearKeeps(l, On(ref, Itself));
    case RaiseResource(users, resource, status, message) => RaiseAllKeeps(l, users, Resource(resource), status, message);
    case ClearResource(users, resource) => ClearAllKeeps(l, users, Resource(resource));
    case RaiseOnEngine(status, message) => RaiseEngineKeeps(l, status, message);
    case ClearOnEngine => ClearKeeps(l, OfEngine);
    case Lives(ref, life) => QuietKeeps(l, Apply(l, step));
    case OtherId => QuietKeeps(l, Apply(l, step));
  }

  lemma {:induction false} InvAfter(l: Ledger, steps: seq<Step>)
    requires Inv(l) && ValidRun(l, steps)
    ensures Inv(After(l, steps))
    decreases |steps|
  {
    if steps != [] {
      StepKeeps(l, steps[0]);
      hide Inv, Apply;
      InvAfter(Apply(l, steps[0]), steps[1..]);
    }
  }

  // -- Over every run --------------------------------------------------------------------

  /** In every run an error has a detail exactly when it was reported and its status was not
      cleared since, and the detail is the one it was reported with. */
  lemma DetailIffOutstanding(l: Ledger, steps: seq<Step>, id: nat, detail: Detail)
    requires Fresh(l) && ValidRun(l, steps)
    ensures var t := After(l, steps);
      id in t.errors && t.errors[id] == detail <==> exists place :: Outstanding(t.log, id, place, detail)
  {
    FreshInv(l);
    InvAfter(l, steps);
    var t := After(l, steps);
    if id in t.errors && t.errors[id] == detail {
      var place :| Holds(t, place, id);
      assert Outstanding(t.log, id, place, detail);
    }
    hide Outstanding, Holds;
  }

  lemma FreshInv(l: Ledger)
    requires Fresh(l)
    ensures Inv(l)
  {
    forall place, id ensures !Holds(l, place, id) { }
  }

  /** In every run the kept errors are the disjoint union of those of the raised statuses. */
  lemma KeptAreThoseRaised(l: Ledger, steps: seq<Step>, id: nat)
    requires Fresh(l) && ValidRun(l, steps)
    ensures var t := After(l, steps);
      && (id in t.errors <==> exists place :: Holds(t, place, id))
      && forall p, q :: Holds(t, p, id) && Holds(t, q, id) ==> p == q
  {
    FreshInv(l);
    InvAfter(l, steps);
    hide Outstanding, Holds;
  }

  /** Exactly when a raise on a component reports an error: an ERROR where none was raised and
      the component had not failed, a WARNING that no ERROR of another source covers and that
      was not the status already. */
  lemma RaiseReportsIff(l: Ledger, ref: Ref, key: Key, status: Severity, message: string)
    requires ref in l.hosted
    ensures var c := l.hosted[ref];
      var covered := exists other :: other in c.raised && other != key && c.raised[other].status == ERROR;
      Raise(l, ref, key, status, message).log != l.log <==>
        && c.life != Failed
        && (if status == ERROR then !Raises(c.raised, ERROR) else !covered && StatusOf(c) != StatusWarning)
  {
    var c := l.hosted[ref];
    var m := Set(l, On(ref, key), Raised(status, message, ErrorsOf(At(l, On(ref, key))))).hosted[ref];
    assert m.raised[key].status == status;
    forall other | other in c.raised && other != key ensures other in m.raised && m.raised[other] == c.raised[other] { }
    forall other | other in m.raised && other != key ensures other in c.raised && m.raised[other] == c.raised[other] { }
    forall severity ensures Raises(m.raised, severity) <==>
      severity == status || exists other :: other in c.raised && other != key && c.raised[other].status == severity
    {
      if Raises(m.raised, severity) {
        var other :| other in m.raised && m.raised[other].status == severity;
        if other != key { assert other in c.raised && c.raised[other].status == severity; }
      }
    }
  }

  // -- The ledger in place ---------------------------------------------------------------

  class Statuses {
    var hosted: map<Ref, Component>
    var engine: Option<Raised>
    var errors: map<nat, Detail>
    var nextId: nat
    var log: seq<Event>

    ghost function State(): Ledger
      reads this
    {
      Ledger(hosted, engine, errors, nextId, log)
    }

    ghost predicate Valid()
      reads this
    {
      Inv(State())
    }

    constructor (hosted: map<Ref, Component>)
      requires forall ref <- hosted :: hosted[ref].raised == map[]
      ensures Valid() && State() == Ledger(hosted, None, map[], 0, [])
    {
      this.hosted := hosted;
      engine, errors, nextId, log := None, map[], 0, [];
      new;
      FreshInv(State());
    }

    /** `error_detail`: None is BAD_PARAMETER. */
    method ErrorDetail(id: nat) returns (detail: Option<Detail>)
      requires Valid()
      ensures detail.Some? <==> exists place :: Holds(State(), place, id)
      ensures detail.Some? ==> exists place :: Outstanding(log, id, place, detail.value)
    {
      if id !in errors { return None; }
      detail := Some(errors[id]);
      ghost var place :| Holds(State(), place, id);
      assert Outstanding(log, id, place, errors[id]);
    }

    method StatusOfComponent(ref: Ref) returns (status: Status)
      requires ref in hosted
      ensures Strongest(hosted[ref], status)
    {
      var c := hosted[ref];
      var error := exists key :: key in c.raised && c.raised[key].status == ERROR;
      var warning := exists key :: key in c.raised && c.raised[key].status == WARNING;
      StatusIsStrongest(c, StatusOf(c));
      if c.life == Failed || error { return StatusError; }
      if warning { return StatusWarning; }
      if c.life == Uninitialized { return StatusUninitialized; }
      status := StatusReady;
    }

    /** `_raise`. */
    method RaiseStatus(ref: Ref, key: Key, status: Severity, message: string)
      requires Valid() && ref in hosted
      modifies this
      ensures Valid() && State() == Raise(old(State()), ref, key, status, message) && hosted.Keys == old(hosted).Keys
    {
      RaiseKeeps(State(), ref, key, status, message);
      hide Inv, StatusOf, Strongest;
      var before := StatusOfComponent(ref);
      StatusIsStrongest(hosted[ref], before);
      var kept := if key in hosted[ref].raised then hosted[ref].raised[key].errors else [];
      Enter(ref, key, Raised(status, message, kept));
      var after := StatusOfComponent(ref);
      StatusIsStrongest(hosted[ref], after);
      if after != before { ReportError(ref, key, status, message); }
    }

    method Enter(ref: Ref, key: Key, raised: Raised)
      requires ref in hosted
      modifies this
      ensures State() == Set(old(State()), On(ref, key), raised)
    {
      hosted := hosted[ref := hosted[ref].(raised := hosted[ref].raised[key := raised])];
    }

    /** The part of `_raise` that reports. */
    method ReportError(ref: Ref, key: Key, status: Severity, message: string)
      requires ref in hosted && key in hosted[ref].raised
      modifies this
      ensures State() == Report(old(State()), On(ref, key), status, message)
    {
      nextId := nextId + 1;
      var detail := Detail(Some(ref), status, message);
      errors := errors[nextId := detail];
      Enter(ref, key, Raised(status, message, hosted[ref].raised[key].errors + [nextId]));
      log := log + [Reported(nextId, On(ref, key), detail)];
    }

    /** `raise_resource_status`, for the components that use the resource. */
    method RaiseResourceStatus(users: seq<Ref>, resource: nat, status: Severity, message: string)
      requires Valid() && forall ref <- users :: ref in hosted
      modifies this
      ensures Valid() && State() == RaiseAll(old(State()), users, Resource(resource), status, message)
    {
      hide Inv, Raise;
      for i := 0 to |users|
        invariant Valid() && hosted.Keys == old(hosted).Keys
        invariant forall ref <- users :: ref in hosted
        invariant RaiseAll(State(), users[i..], Resource(resource), status, message)
                  == RaiseAll(old(State()), users, Resource(resource), status, message)
      {
        assert users[i..][1..] == users[i + 1..];
        RaiseStatus(users[i], Resource(resource), status, message);
      }
    }

    /** `_clear`. */
    method ClearStatus(ref: Ref, key: Key)
      requires Valid()
      modifies this
      ensures Valid() && State() == Clear(old(State()), On(ref, key))
    {
      ClearKeeps(State(), On(ref, key));
      hide Inv;
      log := log + [Cleared(On(ref, key))];
      if ref !in hosted { errors := Forget(errors, []); return; }
      var ids := if key in hosted[ref].raised then hosted[ref].raised[key].errors else [];
      hosted := hosted[ref := hosted[ref].(raised := hosted[ref].raised - {key})];
      errors := Forget(errors, ids);
    }

    /** `_raise_engine`. */
    method RaiseEngineStatus(status: Severity, message: string)
      requires Valid()
      modifies this
      ensures Valid() && State() == RaiseEngine(old(State()), status, message)
    {
      RaiseEngineKeeps(State(), status, message);
      if engine.Some? && engine.value.status == status {
        engine := Some(Raised(status, message, engine.value.errors));
        return;
      }
      nextId := nextId + 1;
      errors := errors[nextId := Detail(None, status, message)];
      engine := Some(Raised(status, message, (if engine.Some? then engine.value.errors else []) + [nextId]));
      log := log + [Reported(nextId, OfEngine, Detail(None, status, message))];
    }

    /** `_clear_engine`. */
    method ClearEngineStatus()
      requires Valid()
      modifies this
      ensures Valid() && State() == Clear(old(State()), OfEngine)
    {
      ClearKeeps(State(), OfEngine);
      var ids := if engine.Some? then engine.value.errors else [];
      engine := None;
      errors := Forget(errors, ids);
      log := log + [Cleared(OfEngine)];
    }
  }
}
