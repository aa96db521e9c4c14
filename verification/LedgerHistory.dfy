/** What is raised and what was reported, told from the calls that raised and cleared. */
module LedgerHistory {
  import opened Wrappers
  import opened Ledger

  // -- One step --------------------------------------------------------------------------

  /** The step raises this status at a place. A resource raises it on each of its users. */
  predicate RaisesAt(step: Step, place: Place, status: Severity, message: string) {
    match step
    case RaiseComponent(ref, s, m) => place == On(ref, Itself) && s == status && m == message
    case RaiseResource(users, resource, s, m) =>
      place.On? && place.ref in users && place.key == Resource(resource) && s == status && m == message
    case RaiseOnEngine(s, m) => place == OfEngine && s == status && m == message
    case _ => false
  }

  /** The step withdraws what is raised at a place. */
  predicate ClearsAt(step: Step, place: Place) {
    match step
    case ClearComponent(ref) => place == On(ref, Itself)
    case ClearResource(users, resource) => place.On? && place.ref in users && place.key == Resource(resource)
    case ClearOnEngine => place == OfEngine
    case _ => false
  }

  predicate Touches(step: Step, place: Place) {
    match step
    case RaiseComponent(ref, _, _) => place == On(ref, Itself)
    case RaiseResource(users, resource, _, _) => place.On? && place.ref in users && place.key == Resource(resource)
    case RaiseOnEngine(_, _) => place == OfEngine
    case _ => ClearsAt(step, place)
  }

  predicate IsRaised(l: Ledger, place: Place, status: Severity, message: string) {
    At(l, place).Some? && At(l, place).value.status == status && At(l, place).value.message == message
  }

  /** A place of a component, raised or not, changes in no other way. */
  lemma RaiseSets(l: Ledger, ref: Ref, key: Key, status: Severity, message: string, place: Place)
    requires ref in l.hosted
    ensures var n := Raise(l, ref, key, status, message);
      if place == On(ref, key) then IsRaised(n, place, status, message) else At(n, place) == At(l, place)
  {
    hide StatusOf;
  }

  /** An error that a raise reports is for its place, with its status and message. */
  lemma RaiseReports(l: Ledger, ref: Ref, key: Key, status: Severity, message: string)
    requires ref in l.hosted
    ensures var n := Raise(l, ref, key, status, message);
      n.log == l.log || n.log == l.log + [Reported(l.nextId + 1, On(ref, key), Detail(Some(ref), status, message))]
  {
    hide StatusOf;
  }

  lemma {:induction false} RaiseAllSets(l: Ledger, refs: seq<Ref>, key: Key, status: Severity, message: string, place: Place)
    requires forall ref <- refs :: ref in l.hosted
    ensures var n := RaiseAll(l, refs, key, status, message);
      if place.On? && place.ref in refs && place.key == key then IsRaised(n, place, status, message) else At(n, place) == At(l, place)
    decreases |refs|
  {
    hide Raise;
    if refs != [] {
      RaiseKeepsHosted(l, refs[0], key, status, message);
      RaiseSets(l, refs[0], key, status, message, place);
      RaiseAllSets(Raise(l, refs[0], key, status, message), refs[1..], key, status, message, place);
      assert refs == [refs[0]] + refs[1..];
    }
  }

  /** What a step adds to the log: errors of the status it raises, where it raises it, and
      what it clears. */
  ghost predicate Logs(l: Ledger, n: Ledger, refs: seq<Ref>, key: Key, status: Severity, message: string) {
    && l.log <= n.log
    && forall i | |l.log| <= i < |n.log| ::
         n.log[i].Reported? && exists ref :: ref in refs && n.log[i].place == On(ref, key) && n.log[i].detail == Detail(Some(ref), status, message)
  }

  lemma {:induction false} RaiseAllLogs(l: Ledger, refs: seq<Ref>, key: Key, status: Severity, message: string)
    requires forall ref <- refs :: ref in l.hosted
    ensures Logs(l, RaiseAll(l, refs, key, status, message), refs, key, status, message)
    decreases |refs|
  {
    hide Raise;
    if refs != [] {
      RaiseKeepsHosted(l, refs[0], key, status, message);
      RaiseReports(l, refs[0], key, status, message);
      RaiseAllLogs(Raise(l, refs[0], key, status, message), refs[1..], key, status, message);
      assert refs == [refs[0]] + refs[1..];
    }
  }

  lemma ClearSets(l: Ledger, cleared: Place, place: Place)
    ensures At(Clear(l, cleared), place) == if place == cleared then None else At(l, place)
  {
    hide Forget;
  }

  lemma {:induction false} ClearAllSets(l: Ledger, refs: seq<Ref>, key: Key, place: Place)
    ensures At(ClearAll(l, refs, key), place) == if place.On? && place.ref in refs && place.key == key then None else At(l, place)
    decreases |refs|
  {
    hide Clear;
    if refs != [] {
      ClearSets(l, On(refs[0], key), place);
      ClearAllSets(Clear(l, On(refs[0], key)), refs[1..], key, place);
      assert refs == [refs[0]] + refs[1..];
    }
  }

  lemma {:induction false} ClearAllLogs(l: Ledger, refs: seq<Ref>, key: Key)
    ensures var n := ClearAll(l, refs, key);
      l.log <= n.log && forall i | |l.log| <= i < |n.log| :: n.log[i].Cleared?
    decreases |refs|
  {
    hide Forget;
    if refs != [] { ClearAllLogs(Clear(l, On(refs[0], key)), refs[1..], key); }
  }

  lemma EngineSets(l: Ledger, status: Severity, message: string, place: Place)
    ensures var n := RaiseEngine(l, status, message);
      && (if place == OfEngine then IsRaised(n, place, status, message) else At(n, place) == At(l, place))
      && (n.log == l.log || n.log == l.log + [Reported(l.nextId + 1, OfEngine, Detail(None, status, message))])
  {
  }

  /** After a step, what is raised at a place is what the step raised there, nothing where it
      cleared, and what was raised before elsewhere. */
  lemma StepSets(l: Ledger, step: Step, place: Place)
    requires Enabled(l, step)
    ensures var n := Apply(l, step);
      && (forall status, message | RaisesAt(step, place, status, message) :: IsRaised(n, place, status, message))
      && (ClearsAt(step, place) ==> At(n, place) == None)
      && (!Touches(step, place) ==> At(n, place) == At(l, place))
  {
    hide Raise, RaiseAll, RaiseEngine, Clear, ClearAll, IsRaised;
    match step
    case RaiseComponent(ref, status, message) => RaiseSets(l, ref, Itself, status, message, place);
    case ClearComponent(ref) => ClearSets(l, On(ref, Itself), place);
    case RaiseResource(users, resource, status, message) => RaiseAllSets(l, users, Resource(resource), status, message, place);
    case ClearResource(users, resource) => ClearAllSets(l, users, Resource(resource), place);
    case RaiseOnEngine(status, message) => EngineSets(l, status, message, place);
    case ClearOnEngine => ClearSets(l, OfEngine, place);
    case Lives(_, _) =>
    case OtherId =>
  }

  /** The detail of an error carries the status and the message that were raised. */
  predicate Carries(e: Event, step: Step) {
    e.Reported? ==>
      && RaisesAt(step, e.place, e.detail.status, e.detail.message)
      && e.detail.ref == if e.place.On? then Some(e.place.ref) else None
  }

  lemma StepLogs(l: Ledger, step: Step)
    requires Enabled(l, step)
    ensures l.log <= Apply(l, step).log
    ensures forall i | |l.log| <= i < |Apply(l, step).log| :: Carries(Apply(l, step).log[i], step)
  {
    hide Raise, RaiseAll, RaiseEngine, ClearAll, Forget;
    match step
    case RaiseComponent(ref, status, message) => RaiseReports(l, ref, Itself, status, message);
    case RaiseResource(users, resource, status, message) => RaiseAllLogs(l, users, Resource(resource), status, message);
    case ClearResource(users, resource) => ClearAllLogs(l, users, Resource(resource));
    case RaiseOnEngine(status, message) => EngineSets(l, status, message, OfEngine);
    case _ =>
  }

  // -- Over every run --------------------------------------------------------------------

  /** A step raised this status at a place, and no later one raised or cleared there. */
  ghost predicate LastRaised(steps: seq<Step>, place: Place, status: Severity, message: string, i: nat) {
    && i < |steps| && RaisesAt(steps[i], place, status, message)
    && forall j | i < j < |steps| :: !Touches(steps[j], place)
  }

  lemma LastNext(steps: seq<Step>, step: Step, place: Place, status: Severity, message: string)
    ensures (exists i: nat :: LastRaised(steps + [step], place, status, message, i))
            <==> RaisesAt(step, place, status, message)
                 || (!Touches(step, place) && exists i: nat :: LastRaised(steps, place, status, message, i))
  {
    var more := steps + [step];
    hide Touches, RaisesAt;
    if i: nat :| LastRaised(more, place, status, message, i) {
      if i < |steps| {
        assert !Touches(more[|steps|], place);
        forall j | i < j < |steps| ensures !Touches(steps[j], place) { assert more[j] == steps[j]; }
        assert LastRaised(steps, place, status, message, i);
      }
    }
    if RaisesAt(step, place, status, message) { assert LastRaised(more, place, status, message, |steps|); }
    if i: nat :| LastRaised(steps, place, status, message, i) && !Touches(step, place) {
      forall j | i < j < |more| ensures !Touches(more[j], place) { }
      assert LastRaised(more, place, status, message, i);
    }
  }

  lemma {:induction false} RunSnoc(l: Ledger, steps: seq<Step>)
    requires steps != [] && ValidRun(l, steps)
    ensures var k := |steps| - 1;
      && ValidRun(l, steps[..k]) && Enabled(After(l, steps[..k]), steps[k])
      && After(l, steps) == Apply(After(l, steps[..k]), steps[k])
    decreases |steps|
  {
    hide Enabled, Apply;
    var k := |steps| - 1;
    if k > 0 {
      RunSnoc(Apply(l, steps[0]), steps[1..]);
      assert steps[..k][1..] == steps[1..][..k - 1];
    } else {
      assert steps[1..] == [] && steps[..0] == [];
    }
  }

  /** In every run, what is raised at a place is what was raised there last, unless it was
      cleared since. */
  lemma {:induction false} RaisedIsLast(l: Ledger, steps: seq<Step>, place: Place, status: Severity, message: string)
    requires Fresh(l) && ValidRun(l, steps)
    ensures IsRaised(After(l, steps), place, status, message) <==> exists i: nat :: LastRaised(steps, place, status, message, i)
    decreases |steps|
  {
    hide Enabled, Apply, ValidRun, Fresh, LastRaised;
    if steps == [] {
      NothingRaised(l, place, status, message);
    } else {
      var k := |steps| - 1;
      RunSnoc(l, steps);
      RaisedIsLast(l, steps[..k], place, status, message);
      StepSets(After(l, steps[..k]), steps[k], place);
      LastNext(steps[..k], steps[k], place, status, message);
      assert steps[..k] + [steps[k]] == steps;
      Raising(steps[k], place);
      OneRaised(After(l, steps), place);
    }
  }

  lemma NothingRaised(l: Ledger, place: Place, status: Severity, message: string)
    requires Fresh(l)
    ensures !IsRaised(After(l, []), place, status, message) && forall i: nat :: !LastRaised([], place, status, message, i)
  {
  }

  /** A step that touches a place raises one status there, or clears it. */
  lemma Raising(step: Step, place: Place)
    ensures Touches(step, place) ==> ClearsAt(step, place) || exists status, message :: RaisesAt(step, place, status, message)
    ensures forall a, b, m, n | RaisesAt(step, place, a, m) && RaisesAt(step, place, b, n) :: a == b && m == n
    ensures forall a, m | RaisesAt(step, place, a, m) :: Touches(step, place) && !ClearsAt(step, place)
  {
    match step
    case RaiseComponent(_, s, m) => assert Touches(step, place) ==> RaisesAt(step, place, s, m);
    case RaiseResource(_, _, s, m) => assert Touches(step, place) ==> RaisesAt(step, place, s, m);
    case RaiseOnEngine(s, m) => assert Touches(step, place) ==> RaisesAt(step, place, s, m);
    case _ =>
  }

  lemma OneRaised(l: Ledger, place: Place)
    ensures forall a, b, m, n | IsRaised(l, place, a, m) && IsRaised(l, place, b, n) :: a == b && m == n
  {
  }

  /** In every run, each error was reported by a call that raised its status and message, at its
      place, and its detail names the component it was raised on. */
  lemma {:induction false} ReportsCarry(l: Ledger, steps: seq<Step>, e: Event)
    requires Fresh(l) && ValidRun(l, steps) && e in After(l, steps).log
    ensures exists step :: step in steps && Carries(e, step)
    decreases |steps|
  {
    hide Enabled, Apply, ValidRun, Carries;
    if steps != [] {
      var k := |steps| - 1;
      RunSnoc(l, steps);
      StepLogs(After(l, steps[..k]), steps[k]);
      if e in After(l, steps[..k]).log {
        ReportsCarry(l, steps[..k], e);
        var step :| step in steps[..k] && Carries(e, step);
        assert step in steps;
      } else {
        assert Carries(e, steps[k]);
      }
    }
  }

  function Lived(step: Step, ref: Ref, before: Life): Life {
    if step.Lives? && step.ref == ref then step.life else before
  }

  /** A component lives as the last step that says so, and no step adds or removes one. */
  lemma StepLives(l: Ledger, step: Step, ref: Ref)
    requires Enabled(l, step)
    ensures ref in Apply(l, step).hosted <==> ref in l.hosted
    ensures ref in l.hosted ==> Apply(l, step).hosted[ref].life == Lived(step, ref, l.hosted[ref].life)
  {
    hide StatusOf, Forget;
    match step
    case RaiseResource(users, resource, status, message) => RaiseAllLives(l, users, Resource(resource), status, message, ref);
    case ClearResource(users, resource) => ClearAllLives(l, users, Resource(resource), ref);
    case _ =>
  }

  predicate SameLife(l: Ledger, n: Ledger, ref: Ref) {
    (ref in n.hosted <==> ref in l.hosted) && (ref in l.hosted ==> n.hosted[ref].life == l.hosted[ref].life)
  }

  lemma {:induction false} RaiseAllLives(l: Ledger, refs: seq<Ref>, key: Key, status: Severity, message: string, ref: Ref)
    requires forall ref <- refs :: ref in l.hosted
    ensures SameLife(l, RaiseAll(l, refs, key, status, message), ref)
    decreases |refs|
  {
    hide StatusOf;
    if refs != [] {
      RaiseKeepsHosted(l, refs[0], key, status, message);
      RaiseAllLives(Raise(l, refs[0], key, status, message), refs[1..], key, status, message, ref);
    }
  }

  lemma {:induction false} ClearAllLives(l: Ledger, refs: seq<Ref>, key: Key, ref: Ref)
    ensures SameLife(l, ClearAll(l, refs, key), ref)
    decreases |refs|
  {
    hide Forget;
    if refs != [] { ClearAllLives(Clear(l, On(refs[0], key)), refs[1..], key, ref); }
  }

  /** The last step that says how a component lives. */
  ghost predicate LastLife(steps: seq<Step>, ref: Ref, life: Life, i: nat) {
    i < |steps| && steps[i] == Lives(ref, life) && forall j | i < j < |steps| :: !(steps[j].Lives? && steps[j].ref == ref)
  }

  /** In every run, a component lives as the last step that says so. */
  lemma {:induction false} LivesAsLast(l: Ledger, steps: seq<Step>, ref: Ref, life: Life, i: nat)
    requires ValidRun(l, steps) && LastLife(steps, ref, life, i)
    ensures ref in After(l, steps).hosted && After(l, steps).hosted[ref].life == life
    decreases |steps|
  {
    hide Apply, ValidRun;
    var k := |steps| - 1;
    RunSnoc(l, steps);
    StepLives(After(l, steps[..k]), steps[k], ref);
    if i < k {
      forall j | i < j < k ensures !(steps[..k][j].Lives? && steps[..k][j].ref == ref) { assert steps[..k][j] == steps[j]; }
      LivesAsLast(l, steps[..k], ref, life, i);
    }
  }

  /** A raise on the engine reports an error exactly when nothing, or another status, is raised
      on it. */
  lemma EngineReportsIff(l: Ledger, status: Severity, message: string)
    ensures RaiseEngine(l, status, message).log != l.log <==> l.engine == None || l.engine.value.status != status
  {
  }
}
