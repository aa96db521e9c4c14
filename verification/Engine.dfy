/** An engine and its child engines: who owns an id, and what the merged components are. */
module Engine {
  import opened Wrappers
  import opened Sequences

  // -- Ids -------------------------------------------------------------------------------

  /** The text before the first slash, or None without one. */
  function OwnerPart(id: string): (owner: Option<string>)
    ensures owner.Some? ==> '/' !in owner.value && owner.value + "/" <= id
  {
    if id == "" then None
    else if id[0] == '/' then Some("")
    else
      match OwnerPart(id[1..])
      case None => None
      case Some(rest) => Some([id[0]] + rest)
  }

  predicate ValidEngineId(id: string) {
    id != "" && '/' !in id
  }

  lemma {:induction false} OwnerOfRef(engineId: string, name: string)
    requires '/' !in engineId
    ensures OwnerPart(engineId + "/" + name) == Some(engineId)
  {
    var ref := engineId + "/" + name;
    if engineId == "" {
      assert ref[0] == '/';
    } else {
      OwnerOfRef(engineId[1..], name);
      assert ref[1..] == engineId[1..] + "/" + name;
      assert [engineId[0]] + engineId[1..] == engineId;
    }
  }

  /** The profile of an engine, with those of the engines below it. */
  datatype EngineProfile = EngineProfile(code: string, subProfiles: seq<EngineProfile>)

  /** The id of an engine and of every engine below it. */
  function EngineIds(profile: EngineProfile): seq<string>
    decreases profile, 1
  {
    [profile.code] + EngineIdsOf(profile.subProfiles)
  }

  function EngineIdsOf(profiles: seq<EngineProfile>): seq<string>
    decreases profiles, 0
  {
    if profiles == [] then [] else EngineIds(profiles[0]) + EngineIdsOf(profiles[1..])
  }

  /** A list of positions leads from a profile to an engine below it, or to its own. */
  ghost predicate LeadsTo(profile: EngineProfile, path: seq<nat>, code: string)
    decreases |path|
  {
    if path == [] then profile.code == code
    else path[0] < |profile.subProfiles| && LeadsTo(profile.subProfiles[path[0]], path[1..], code)
  }

  ghost predicate HasEngine(profile: EngineProfile, code: string) {
    exists path: seq<nat> :: LeadsTo(profile, path, code)
  }

  lemma HasEngineIff(profile: EngineProfile, code: string)
    ensures HasEngine(profile, code)
            <==> code == profile.code || exists i: nat :: i < |profile.subProfiles| && HasEngine(profile.subProfiles[i], code)
  {
    var below := profile.subProfiles;
    if path: seq<nat> :| LeadsTo(profile, path, code) {
      if path != [] { assert LeadsTo(below[path[0]], path[1..], code) && HasEngine(below[path[0]], code); }
    }
    if code == profile.code {
      assert LeadsTo(profile, [], code);
    }
    if i: nat :| i < |below| && HasEngine(below[i], code) {
      var path: seq<nat> :| LeadsTo(below[i], path, code);
      LeadsOn(profile, i, path, code);
    }
  }

  /** The ids are those of the engine and of every engine below it, at any depth. */
  lemma {:induction false} EngineIdsExact(profile: EngineProfile, code: string)
    ensures code in EngineIds(profile) <==> HasEngine(profile, code)
    decreases profile
  {
    hide HasEngine;
    var below := profile.subProfiles;
    EngineIdsOfExact(below, code);
    HasEngineIff(profile, code);
    assert code in EngineIds(profile) <==> code == profile.code || code in EngineIdsOf(below) by {
      assert EngineIds(profile) == [profile.code] + EngineIdsOf(below);
    }
    forall i: nat | i < |below| ensures code in EngineIds(below[i]) <==> HasEngine(below[i], code) {
      EngineIdsExact(below[i], code);
    }
  }

  lemma LeadsOn(profile: EngineProfile, i: nat, path: seq<nat>, code: string)
    requires i < |profile.subProfiles| && LeadsTo(profile.subProfiles[i], path, code)
    ensures LeadsTo(profile, [i] + path, code)
  {
    assert ([i] + path)[0] == i && ([i] + path)[1..] == path;
  }

  lemma {:induction false} EngineIdsOfExact(profiles: seq<EngineProfile>, code: string)
    ensures code in EngineIdsOf(profiles) <==> exists i: nat :: i < |profiles| && code in EngineIds(profiles[i])
    decreases |profiles|
  {
    if profiles != [] {
      EngineIdsOfExact(profiles[1..], code);
      if i: nat :| i < |profiles[1..]| && code in EngineIds(profiles[1..][i]) { assert code in EngineIds(profiles[i + 1]); }
      if i: nat :| i < |profiles| && code in EngineIds(profiles[i]) {
        if i > 0 { assert profiles[1..][i - 1] == profiles[i]; }
      }
    }
  }

  // -- Children --------------------------------------------------------------------------

  type Component = nat

  /** What a child answers to get_profile: its engines, its refs and their profiles. */
  datatype ProfileReply = ProfileReply(profile: EngineProfile, refs: seq<string>, profiles: map<string, Component>)

  class Child {
    var profile: Option<EngineProfile>
    var engineIds: set<string>
    var profiles: map<string, Component>

    constructor ()
      ensures profile == None && engineIds == {} && profiles == map[]
    {
      profile, engineIds, profiles := None, {}, map[];
    }

    /** Every ref starts with an engine id of the child. */
    predicate WellFormed()
      reads this
    {
      && (forall id <- engineIds :: ValidEngineId(id))
      && (forall ref <- profiles :: OwnerPart(ref).Some? && OwnerPart(ref).value in engineIds)
    }
  }

  /** What `_apply_profile` demands of a reply on its own. */
  predicate ReplyOk(reply: ProfileReply) {
    var ids := EngineIds(reply.profile);
    && (forall id <- ids :: ValidEngineId(id)) && NoDuplicates(ids)
    && (forall ref <- reply.refs ::
          OwnerPart(ref).Some? && OwnerPart(ref).value in ids && ref in reply.profiles)
  }

  lemma {:induction false} WithoutAt(children: seq<Child>, child: Child, i: nat)
    requires i < |children| && children[i] == child && forall k | 0 <= k < i :: children[k] != child
    ensures Without(children, child) == children[..i] + children[i + 1..]
  {
    if i > 0 {
      WithoutAt(children[1..], child, i - 1);
      assert children[1..][..i - 1] == children[1..i] && [children[0]] + children[1..i] == children[..i];
      assert children[1..][i..] == children[i + 1..];
    }
  }

  lemma {:induction false} WithoutNone(children: seq<Child>, child: Child)
    requires child !in children
    ensures Without(children, child) == children
  {
    if children != [] { WithoutNone(children[1..], child); }
  }

  /** Removing a child keeps the others, and the child itself only when it was added twice. */
  lemma {:induction false} WithoutKeeps(children: seq<Child>, child: Child)
    ensures forall c | c != child :: c in Without(children, child) <==> c in children
    ensures child in Without(children, child) ==> exists i, j :: 0 <= i < j < |children| && children[i] == children[j] == child
  {
    if children != [] {
      var rest := children[1..];
      WithoutKeeps(rest, child);
      assert children == [children[0]] + rest;
      if child in Without(children, child) {
        if children[0] == child {
          var j :| 0 <= j < |rest| && rest[j] == child;
          assert children[j + 1] == child;
        } else {
          var i, j :| 0 <= i < j < |rest| && rest[i] == rest[j] == child;
          assert children[i + 1] == children[j + 1] == child;
        }
      }
    }
  }

  // -- The engine ------------------------------------------------------------------------

  datatype Source = Local | Of(child: Child)

  class Engine {
    const engineId: string
    var local: map<string, Component>
    var children: seq<Child>

    constructor (engineId: string)
      requires ValidEngineId(engineId)
      ensures Valid() && this.engineId == engineId && children == [] && local == map[]
    {
      this.engineId := engineId;
      local, children := map[], [];
    }

    function IdsOf(source: Source): set<string>
      reads if source.Of? then {source.child} else {}
    {
      match source
      case Local => {engineId}
      case Of(child) => child.engineIds
    }

    function ProfilesOf(source: Source): map<string, Component>
      reads this, if source.Of? then {source.child} else {}
    {
      match source
      case Local => local
      case Of(child) => child.profiles
    }

    predicate IsSource(source: Source)
      reads this
    {
      source.Local? || source.child in children
    }

    /** The tree: sources never share an engine id, and own every ref they serve. */
    ghost predicate Valid()
      reads this, children
    {
      && ValidEngineId(engineId)
      && (forall ref <- local :: OwnerPart(ref) == Some(engineId))
      && (forall i | 0 <= i < |children| :: children[i].WellFormed() && engineId !in children[i].engineIds)
      && (forall i, j | 0 <= i < j < |children| :: children[i] == children[j] || children[i].engineIds !! children[j].engineIds)
    }

    /** In a valid tree an assigned id has at most one owner, and a ref one source. */
    lemma OneOwner(a: Source, b: Source, id: string)
      requires Valid() && IsSource(a) && IsSource(b)
      requires OwnerPart(id).Some? && OwnerPart(id).value in IdsOf(a) && OwnerPart(id).value in IdsOf(b)
      ensures a == b
    {
    }

    lemma OneSource(a: Source, b: Source, ref: string)
      requires Valid() && IsSource(a) && IsSource(b) && ref in ProfilesOf(a) && ref in ProfilesOf(b)
      ensures a == b
    {
      OneOwner(a, b, ref);
    }

    /** `add_component`. */
    method AddComponent(name: string, component: Component) returns (ok: bool)
      requires Valid()
      modifies this
      ensures Valid() && children == old(children)
      ensures ok == (name != "" && '/' !in name && engineId + "/" + name !in old(local))
      ensures local == if ok then old(local)[engineId + "/" + name := component] else old(local)
    {
      var ref := engineId + "/" + name;
      if name == "" || '/' in name || ref in local { return false; }
      OwnerOfRef(engineId, name);
      local := local[ref := component];
      ok := true;
    }

    /** The engine ids a child may not use: those of this engine and of its other children. */
    ghost predicate Taken(child: Child, id: string)
      reads this, children
    {
      id == engineId || exists i :: 0 <= i < |children| && children[i] != child && id in children[i].engineIds
    }

    /** `check_engine_ids`: false is the ValueError. */
    method CheckEngineIds(child: Child, engineIds: set<string>) returns (ok: bool)
      ensures ok <==> forall id <- engineIds :: !Taken(child, id)
    {
      var taken := {engineId};
      for i := 0 to |children|
        invariant forall id :: id in taken <==>
                    id == engineId || exists k :: 0 <= k < i && children[k] != child && id in children[k].engineIds
      {
        if children[i] != child { taken := taken + children[i].engineIds; }
      }
      assert forall id :: id in taken <==> Taken(child, id);
      ok := engineIds * taken == {};
      if ok {
        forall id <- engineIds ensures !Taken(child, id) { assert id !in engineIds * taken; }
      } else {
        var id :| id in engineIds * taken;
        assert id in engineIds && Taken(child, id);
      }
    }

    /** `add_child`. */
    method AddChild(child: Child) returns (ok: bool)
      requires Valid() && child.WellFormed()
      modifies this
      ensures Valid() && local == old(local)
      ensures ok <==> forall id <- child.engineIds :: !old(Taken(child, id))
      ensures children == if ok then old(children) + [child] else old(children)
    {
      ok := CheckEngineIds(child, child.engineIds);
      if ok {
        assert forall i | 0 <= i < |children| && children[i] != child :: forall id <- children[i].engineIds :: Taken(child, id);
        children := children + [child];
      }
    }

    /** `remove_child`: a child that was added once is gone. */
    method RemoveChild(child: Child)
      requires Valid()
      modifies this
      ensures Valid() && local == old(local) && children == Without(old(children), child)
    {
      WithoutKeeps(children, child);
      for i := 0 to |children|
        invariant forall k | 0 <= k < i :: children[k] != child
      {
        if children[i] == child {
          WithoutAt(children, child, i);
          children := children[..i] + children[i + 1..];
          return;
        }
      }
      WithoutNone(children, child);
    }

    /** The ids of a reply: none invalid, none twice. */
    static method IdsOk(ids: seq<string>) returns (ok: bool)
      ensures ok <==> (forall id <- ids :: ValidEngineId(id)) && NoDuplicates(ids)
    {
      for i := 0 to |ids|
        invariant forall k | 0 <= k < i :: ValidEngineId(ids[k]) && forall j | 0 <= j < |ids| && j != k :: ids[j] != ids[k]
      {
        if !ValidEngineId(ids[i]) { return false; }
        var twice := exists j :: 0 <= j < |ids| && j != i && ids[j] == ids[i];
        if twice { return false; }
      }
      ok := true;
    }

    /** The profiles of the refs of a reply, or None when a ref is foreign or has none. */
    static method OwnProfiles(ids: seq<string>, reply: ProfileReply) returns (profiles: Option<map<string, Component>>)
      ensures profiles.Some? <==> forall ref <- reply.refs ::
                OwnerPart(ref).Some? && OwnerPart(ref).value in ids && ref in reply.profiles
      ensures profiles.Some? ==> profiles.value == map ref | ref in reply.refs && ref in reply.profiles :: reply.profiles[ref]
    {
      var found: map<string, Component> := map[];
      for i := 0 to |reply.refs|
        invariant forall k | 0 <= k < i :: OwnerPart(reply.refs[k]).Some? && OwnerPart(reply.refs[k]).value in ids && reply.refs[k] in reply.profiles
        invariant found == map ref | ref in reply.refs[..i] && ref in reply.profiles :: reply.profiles[ref]
      {
        var ref := reply.refs[i];
        assert ref in reply.refs;
        var owner := OwnerPart(ref);
        if owner.None? || owner.value !in ids { return None; }
        if ref !in reply.profiles { return None; }
        found := found[ref := reply.profiles[ref]];
        assert reply.refs[..i + 1] == reply.refs[..i] + [ref];
      }
      assert reply.refs[..|reply.refs|] == reply.refs;
      profiles := Some(found);
    }

    /** Engine ids and profiles a child may take without breaking the tree. */
    ghost predicate Fits(child: Child, ids: set<string>, profiles: map<string, Component>)
      reads this, children
    {
      && (forall id <- ids :: ValidEngineId(id) && id != engineId)
      && (forall ref <- profiles :: OwnerPart(ref).Some? && OwnerPart(ref).value in ids)
      && forall i | 0 <= i < |children| && children[i] != child :: children[i].engineIds !! ids
    }

    /** What `_apply_profile` checks: the profiles a reply would give the child, or None for
        the ValueError that refuses it. */
    method CheckReply(child: Child, reply: ProfileReply) returns (profiles: Option<map<string, Component>>)
      ensures profiles.Some? <==> ReplyOk(reply) && forall id <- EngineIds(reply.profile) :: !Taken(child, id)
      ensures profiles.Some? ==> profiles.value == map ref | ref in reply.refs && ref in reply.profiles :: reply.profiles[ref]
      ensures profiles.Some? ==> Fits(child, (set id | id in EngineIds(reply.profile)), profiles.value)
    {
      var ids := EngineIds(reply.profile);
      var idsOk := IdsOk(ids);
      if !idsOk { return None; }
      profiles := OwnProfiles(ids, reply);
      if profiles.None? { return; }
      var engineIds := set id | id in ids;
      var free := CheckEngineIds(child, engineIds);
      assert forall id :: id in ids <==> id in engineIds;
      if !free { return None; }
      assert forall i | 0 <= i < |children| && children[i] != child :: forall id <- children[i].engineIds :: Taken(child, id);
    }

    /** `_apply_profile` of a child, in the tree or not yet: the reply is taken as a whole, or
        it is refused and the old profile stays as it was. */
    method ApplyProfile(child: Child, reply: ProfileReply) returns (ok: bool)
      requires Valid() && child.WellFormed()
      modifies child
      ensures Valid() && child.WellFormed()
      ensures ok <==> ReplyOk(reply) && forall id <- EngineIds(reply.profile) :: !old(Taken(child, id))
      ensures !ok ==> unchanged(child)
      ensures ok ==> child.profile == Some(reply.profile) && child.engineIds == (set id | id in EngineIds(reply.profile))
                     && child.profiles == (map ref | ref in reply.refs && ref in reply.profiles :: reply.profiles[ref])
    {
      var profiles := CheckReply(child, reply);
      if profiles.None? { return false; }
      child.profile := Some(reply.profile);
      child.profiles := profiles.value;
      child.engineIds := set id | id in EngineIds(reply.profile);
      ok := true;
      hide Taken, ReplyOk, EngineIds, OwnerPart, ValidEngineId;
    }

    /** `_owner_of`: the source whose engine id an assigned id starts with. */
    method OwnerOf(id: string) returns (owner: Option<Source>)
      requires Valid()
      ensures forall s | IsSource(s) ::
                OwnerPart(id).Some? && OwnerPart(id).value in IdsOf(s) <==> owner == Some(s)
      ensures owner.Some? ==> IsSource(owner.value)
    {
      var part := OwnerPart(id);
      if part.None? { return None; }
      forall a, b | IsSource(a) && IsSource(b) && part.value in IdsOf(a) && part.value in IdsOf(b) ensures a == b {
        OneOwner(a, b, id);
      }
      if part.value == engineId { return Some(Local); }
      for i := 0 to |children|
        invariant forall k | 0 <= k < i :: part.value !in children[k].engineIds
      {
        if part.value in children[i].engineIds { return Some(Of(children[i])); }
      }
      owner := None;
    }

    /** A merge holds exactly the components of this engine and of its first children. */
    ghost predicate Merged(components: map<string, (Component, Source)>, n: nat)
      requires n <= |children|
      reads this, children
    {
      && (forall ref <- components ::
            && IsSource(components[ref].1) && Serves(components[ref].1, ref, n)
            && ProfilesOf(components[ref].1)[ref] == components[ref].0)
      && (forall ref <- local :: ref in components)
      && (forall k, ref | 0 <= k < n && ref in children[k].profiles :: ref in components)
    }

    ghost predicate Serves(source: Source, ref: string, n: nat)
      requires n <= |children|
      reads this, children, if source.Of? then {source.child} else {}
    {
      (source.Local? || source.child in children[..n]) && ref in ProfilesOf(source)
    }

    /** One more child: `setdefault` keeps an entry that is there already. */
    method MergeChild(components: map<string, (Component, Source)>, n: nat) returns (merged: map<string, (Component, Source)>)
      requires Valid() && n < |children| && Merged(components, n)
      ensures Merged(merged, n + 1)
    {
      var child := children[n];
      merged := (map ref | ref in child.profiles :: (child.profiles[ref], Of(child))) + components;
      assert children[..n + 1] == children[..n] + [child];
      forall ref <- merged
        ensures IsSource(merged[ref].1) && Serves(merged[ref].1, ref, n + 1) && ProfilesOf(merged[ref].1)[ref] == merged[ref].0
      {
        if ref in components { assert Serves(components[ref].1, ref, n); }
      }
    }

    /** `_components`: every component of every source is reached through its own source, so
        the merge, which keeps the first entry of a ref, never shadows one. */
    method Components() returns (components: map<string, (Component, Source)>)
      requires Valid()
      ensures forall s, ref | IsSource(s) && ref in ProfilesOf(s) ::
                ref in components && components[ref] == (ProfilesOf(s)[ref], s)
      ensures forall ref <- components :: IsSource(components[ref].1) && ref in ProfilesOf(components[ref].1)
    {
      components := map ref | ref in local :: (local[ref], Local);
      for i := 0 to |children|
        invariant Merged(components, i)
      {
        components := MergeChild(components, i);
      }
      assert children[..|children|] == children;
      forall s, ref | IsSource(s) && ref in ProfilesOf(s)
        ensures ref in components && components[ref] == (ProfilesOf(s)[ref], s)
      {
        assert Serves(components[ref].1, ref, |children|);
        OneSource(components[ref].1, s, ref);
      }
    }
  }
}
