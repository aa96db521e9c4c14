/** What a pick comes to, told from the comparisons of the condition and the profiles of the
    components. */
module PickSpec {
  import opened Wrappers
  import opened Like
  import opened Condition
  import opened Forwarding

  // -- The meaning of a condition --------------------------------------------------------

  /** A comparison holds of a value: it equals it, or its pattern describes it. */
  predicate Compares(c: Comparison, actual: string) {
    match c.operator
    case Equals => actual == c.value
    case LikeOp => !EndsUnpaired(c.value) && Describes(c.value, actual)
  }

  /** A component has the ref and the type that every comparison on them asks for. */
  predicate Meets(cs: seq<Comparison>, ref: string, typeUrn: string) {
    forall c <- cs ::
      && (c.property == "component_ref" ==> Compares(c, ref))
      && (c.property == "component_type" ==> Compares(c, typeUrn))
  }

  predicate Selects(c: Comparison) {
    c.property == "component_ref" || c.property == "component_type"
  }

  function Listed(profile: Profile, events: bool): seq<Message> {
    if events then profile.events else profile.queries
  }

  predicate HasMessage(profile: Profile, name: string, events: bool) {
    exists m :: m in Listed(profile, events) && m.name == name
  }

  /** The message is listed once, and no other of its name. */
  predicate OnlyMessage(profile: Profile, name: string, events: bool, message: Message) {
    var list := Listed(profile, events);
    exists i :: 0 <= i < |list| && list[i] == message && message.name == name
                && forall j | 0 <= j < |list| && j != i :: list[j].name != name
  }

  /** A component that the condition asks for and that has the message. */
  predicate Candidate(components: Components, cs: seq<Comparison>, name: string, events: bool, ref: string) {
    ref in components && Meets(cs, ref, components[ref].typeUrn) && HasMessage(components[ref], name, events)
  }

  /** The properties a condition may name: the ref, the type, and every argument of the message
      in any profile. */
  predicate Nameable(components: Components, name: string, events: bool, property: string) {
    || property == "component_ref" || property == "component_type"
    || exists ref, m :: ref in components && m in Listed(components[ref], events) && m.name == name && property in m.arguments
  }

  /** The other comparisons give arguments of the message, with `=`, with values that fit, and
      none with two values. */
  predicate ArgumentsFit(cs: seq<Comparison>, message: Message, check: Check) {
    && (forall c <- cs :: !Selects(c) ==>
          c.property in message.arguments && c.operator == Equals && check(message.arguments[c.property], c.value))
    && forall c, d | c in cs && d in cs && !Selects(c) && c.property == d.property :: c.value == d.value
  }

  /** The arguments are those the condition gives, each once, with its declared type. */
  predicate ArgumentsAre(cs: seq<Comparison>, message: Message, arguments: seq<Argument>) {
    && (forall a <- arguments :: a.name in message.arguments && a.code == message.arguments[a.name]
          && exists c :: c in cs && !Selects(c) && c.property == a.name && c.value == a.value)
    && (forall c <- cs :: !Selects(c) ==> exists a :: a in arguments && a.name == c.property && a.value == c.value)
    && forall i, j | 0 <= i < j < |arguments| :: arguments[i].name != arguments[j].name
  }

  // -- The pieces of a pick --------------------------------------------------------------

  lemma {:induction false} InSelection(cs: seq<Comparison>, c: Comparison)
    ensures c in Selection(cs) <==> c in cs && Selects(c)
  {
    if cs != [] { InSelection(cs[1..], c); }
  }

  lemma {:induction false} InGiven(cs: seq<Comparison>, c: Comparison)
    ensures c in Given(cs) <==> c in cs && !Selects(c)
  {
    if cs != [] { InGiven(cs[1..], c); }
  }

  lemma SelectedIff(cs: seq<Comparison>, ref: string, profile: Profile)
    requires ValidPatterns(cs)
    ensures Selected(Selection(cs), ref, profile) <==> Meets(cs, ref, profile.typeUrn)
  {
    forall c ensures c in Selection(cs) <==> c in cs && Selects(c) { InSelection(cs, c); }
    forall c | c in cs && Selects(c)
      ensures Holds(c, if c.property == COMPONENT_REF then ref else profile.typeUrn)
              <==> Compares(c, if c.property == "component_ref" then ref else profile.typeUrn)
    {
    }
    assert "component_ref" != "component_type" by { assert |"component_ref"| != |"component_type"|; }
  }

  lemma {:induction false} InNamed(messages: seq<Message>, name: string, m: Message)
    ensures m in Named(messages, name) <==> m in messages && m.name == name
  {
    if messages != [] { InNamed(messages[1..], name, m); }
  }

  lemma {:induction false} NamedNone(messages: seq<Message>, name: string)
    requires forall j | 0 <= j < |messages| :: messages[j].name != name
    ensures Named(messages, name) == []
  {
    if messages != [] { NamedNone(messages[1..], name); }
  }

  lemma {:induction false} NamedOne(messages: seq<Message>, name: string, i: nat)
    requires i < |messages| && messages[i].name == name && forall j | 0 <= j < |messages| && j != i :: messages[j].name != name
    ensures Named(messages, name) == [messages[i]]
  {
    if i == 0 {
      NamedNone(messages[1..], name);
    } else {
      NamedOne(messages[1..], name, i - 1);
    }
  }

  lemma {:induction false} NamedIsOne(messages: seq<Message>, name: string) returns (i: nat)
    requires |Named(messages, name)| == 1
    ensures i < |messages| && messages[i].name == name && messages[i] == Named(messages, name)[0]
    ensures forall j | 0 <= j < |messages| && j != i :: messages[j].name != name
  {
    if messages[0].name == name {
      i := 0;
      forall j | 0 < j < |messages| ensures messages[j].name != name {
        assert messages[j] == messages[1..][j - 1];
        InNamed(messages[1..], name, messages[j]);
      }
    } else {
      var k := NamedIsOne(messages[1..], name);
      i := k + 1;
      forall j | 0 < j < |messages| && j != i ensures messages[j].name != name { assert messages[j] == messages[1..][j - 1]; }
    }
  }

  lemma OnlyIff(profile: Profile, name: string, events: bool)
    ensures |Messages(profile, name, events)| == 1 ==> OnlyMessage(profile, name, events, Messages(profile, name, events)[0])
    ensures forall m :: OnlyMessage(profile, name, events, m) ==> Messages(profile, name, events) == [m]
  {
    var list := Listed(profile, events);
    if |Messages(profile, name, events)| == 1 {
      var i := NamedIsOne(list, name);
    }
    forall m | OnlyMessage(profile, name, events, m) ensures Messages(profile, name, events) == [m] {
      var i :| 0 <= i < |list| && list[i] == m && m.name == name && forall j | 0 <= j < |list| && j != i :: list[j].name != name;
      NamedOne(list, name, i);
    }
  }

  lemma HasIff(profile: Profile, name: string, events: bool)
    ensures Messages(profile, name, events) != [] <==> HasMessage(profile, name, events)
  {
    var list := Listed(profile, events);
    forall m ensures m in Named(list, name) <==> m in list && m.name == name { InNamed(list, name, m); }
    if Messages(profile, name, events) != [] { assert Named(list, name)[0] in Named(list, name); }
  }

  /** The arguments given fit the message, and those collected so far. */
  predicate Extends(given: seq<Comparison>, types: map<string, string>, check: Check, arguments: seq<Argument>) {
    && (forall c <- given :: c.property in types && c.operator == Equals && check(types[c.property], c.value))
    && (forall c, a | c in given && a in arguments && a.name == c.property :: a.value == c.value)
    && (forall c, d | c in given && d in given && c.property == d.property :: c.value == d.value)
  }

  /** Whether the first argument given fits, for itself. */
  predicate FirstFits(c: Comparison, types: map<string, string>, check: Check, arguments: seq<Argument>) {
    && c.property in types && c.operator == Equals && check(types[c.property], c.value)
    && forall a <- arguments :: a.name == c.property ==> a.value == c.value
  }

  lemma ExtendsRest(given: seq<Comparison>, types: map<string, string>, check: Check, arguments: seq<Argument>)
    requires given != [] && FirstFits(given[0], types, check, arguments)
    ensures Extends(given, types, check, arguments)
            <==> Extends(given[1..], types, check, Extended(given[0], types, arguments))
  {
    var c, more := given[0], Extended(given[0], types, arguments);
    assert given == [c] + given[1..];
    assert forall a <- arguments :: a in more;
    if Find(arguments, c.property).Some? {
      assert Find(arguments, c.property).value in more;
    } else {
      assert more[|arguments|] == Argument(c.property, types[c.property], c.value);
    }
    if Extends(given[1..], types, check, more) {
      forall d <- given[1..] | d.property == c.property ensures d.value == c.value {
        var a := if Find(arguments, c.property).Some? then Find(arguments, c.property).value
                 else Argument(c.property, types[c.property], c.value);
        assert a in more && a.name == d.property && a.value == c.value;
      }
    }
  }

  lemma {:induction false} CollectIff(given: seq<Comparison>, types: map<string, string>, check: Check, arguments: seq<Argument>)
    requires WellPicked(arguments, types, check)
    ensures Collect(given, types, check, arguments).Some? <==> Extends(given, types, check, arguments)
    decreases |given|
  {
    if given != [] {
      var c := given[0];
      assert c in given;
      if FirstFits(c, types, check, arguments) {
        ExtendedPicks(c, types, check, arguments);
        CollectIff(given[1..], types, check, Extended(c, types, arguments));
        ExtendsRest(given, types, check, arguments);
      } else {
        OneOfName(arguments, types, check, c.property);
      }
    }
  }

  /** Arguments have distinct names, so the one that is found is the only one of its name. */
  lemma OneOfName(arguments: seq<Argument>, types: map<string, string>, check: Check, name: string)
    requires WellPicked(arguments, types, check)
    ensures forall a <- arguments :: a.name == name ==> Find(arguments, name) == Some(a)
  {
  }

  lemma FitIff(cs: seq<Comparison>, message: Message, check: Check)
    ensures Collect(Given(cs), message.arguments, check, []).Some? <==> ArgumentsFit(cs, message, check)
  {
    CollectIff(Given(cs), message.arguments, check, []);
    forall c ensures c in Given(cs) <==> c in cs && !Selects(c) { InGiven(cs, c); }
  }

  lemma PickedAre(cs: seq<Comparison>, message: Message, check: Check)
    requires Collect(Given(cs), message.arguments, check, []).Some?
    ensures ArgumentsAre(cs, message, Collect(Given(cs), message.arguments, check, []).value)
  {
    CollectPicks(Given(cs), message.arguments, check, []);
    forall c ensures c in Given(cs) <==> c in cs && !Selects(c) { InGiven(cs, c); }
  }

  // -- The pick --------------------------------------------------------------------------

  lemma CandidateIff(components: Components, cs: seq<Comparison>, name: string, events: bool, ref: string)
    requires ValidPatterns(cs)
    ensures ref in Candidates(components, Selection(cs), name, events) <==> Candidate(components, cs, name, events, ref)
  {
    hide Selected, Messages, Meets, HasMessage;
    if ref in components {
      SelectedIff(cs, ref, components[ref]);
      HasIff(components[ref], name, events);
    }
  }

  lemma AllowedIff(components: Components, name: string, events: bool, property: string)
    ensures property in SELECTION_PROPERTIES + ArgumentNames(components, name, events) <==> Nameable(components, name, events, property)
  {
    forall ref, m | ref in components ensures m in Messages(components[ref], name, events) <==> m in Listed(components[ref], events) && m.name == name {
      InNamed(Listed(components[ref], events), name, m);
    }
  }

  /** What one candidate comes to: its arguments when they fit, and BAD_PARAMETER otherwise. A
      profile that lists the message twice is an error of its own. */
  ghost predicate IsPickOf(components: Components, cs: seq<Comparison>, name: string, events: bool, check: Check, ref: string, p: Pick)
    requires ref in components
  {
    && (p == Crash <==> forall m :: !OnlyMessage(components[ref], name, events, m))
    && forall m :: OnlyMessage(components[ref], name, events, m) ==>
         if ArgumentsFit(cs, m, check) then p.Picked? && p.ref == ref && ArgumentsAre(cs, m, p.arguments) else p == BadParameter
  }

  lemma OneCandidate(components: Components, cs: seq<Comparison>, name: string, events: bool, check: Check, ref: string)
    requires ref in components
    ensures var p := PickOf(components, ref, Given(cs), name, events, check);
      IsPickOf(components, cs, name, events, check, ref, p)
  {
    hide Messages, Collect, ArgumentsFit, ArgumentsAre, OnlyMessage;
    OnlyIff(components[ref], name, events);
    forall m | OnlyMessage(components[ref], name, events, m)
      ensures var p := PickOf(components, ref, Given(cs), name, events, check);
        if ArgumentsFit(cs, m, check) then p.Picked? && p.ref == ref && ArgumentsAre(cs, m, p.arguments) else p == BadParameter
    {
      FitIff(cs, m, check);
      if Collect(Given(cs), m.arguments, check, []).Some? { PickedAre(cs, m, check); }
    }
  }

  predicate OnlyCandidate(components: Components, cs: seq<Comparison>, name: string, events: bool, ref: string) {
    && Candidate(components, cs, name, events, ref)
    && forall other <- components :: Candidate(components, cs, name, events, other) ==> other == ref
  }

  lemma PickIsAmong(components: Components, condition: string, name: string, events: bool, check: Check, allowed: set<string>,
                    cs: seq<Comparison>)
    requires forall property :: property in allowed <==> Nameable(components, name, events, property)
    requires Parse(PYTHON, condition, allowed) == Some(cs)
    ensures ValidPatterns(cs)
    ensures PickComponent(components, condition, name, events, check)
            == PickAmong(components, Candidates(components, Selection(cs), name, events), Given(cs), name, events, check)
  {
    hide Parse, Nameable, PickAmong, Candidates;
    forall property ensures property in allowed <==> property in SELECTION_PROPERTIES + ArgumentNames(components, name, events) {
      AllowedIff(components, name, events, property);
    }
    assert allowed == SELECTION_PROPERTIES + ArgumentNames(components, name, events);
    ParsedPatterns(condition, allowed);
  }

  lemma AmongOne(components: Components, all: set<string>, given: seq<Comparison>, name: string, events: bool, check: Check, ref: string)
    requires all == {ref} && ref in components
    ensures PickAmong(components, all, given, name, events, check) == PickOf(components, ref, given, name, events, check)
  {
    hide PickOf;
  }

  lemma AmongNone(components: Components, all: set<string>, given: seq<Comparison>, name: string, events: bool, check: Check)
    requires all <= components.Keys
    ensures PickAmong(components, all, given, name, events, check) == Unsupported <==> all == {}
  {
    hide Collect, Messages;
  }

  lemma AmongTwo(components: Components, all: set<string>, given: seq<Comparison>, name: string, events: bool, check: Check, a: string, b: string)
    requires all <= components.Keys && a in all && b in all && a != b
    ensures PickAmong(components, all, given, name, events, check) == BadParameter
  {
    hide PickOf;
    TwoAreMore(all, a, b);
  }

  /** The pick of a condition that does not parse is BAD_PARAMETER. */
  lemma UnreadIsBad(components: Components, condition: string, name: string, events: bool, check: Check, allowed: set<string>)
    requires forall property :: property in allowed <==> Nameable(components, name, events, property)
    requires Parse(PYTHON, condition, allowed) == None
    ensures PickComponent(components, condition, name, events, check) == BadParameter
  {
    hide Parse, Nameable, PickAmong, Candidates;
    forall property ensures property in allowed <==> property in SELECTION_PROPERTIES + ArgumentNames(components, name, events) {
      AllowedIff(components, name, events, property);
    }
    assert allowed == SELECTION_PROPERTIES + ArgumentNames(components, name, events);
  }

  /** The pick of a condition that parses. No component that meets the comparisons and has the
      message is UNSUPPORTED, and two are BAD_PARAMETER. The only one is picked, with exactly
      the arguments given, when they fit its message, and is BAD_PARAMETER when they do not. */
  lemma PickIff(components: Components, condition: string, name: string, events: bool, check: Check, allowed: set<string>,
                cs: seq<Comparison>)
    requires forall property :: property in allowed <==> Nameable(components, name, events, property)
    requires Parse(PYTHON, condition, allowed) == Some(cs)
    ensures var p := PickComponent(components, condition, name, events, check);
      && (p == Unsupported <==> forall ref <- components :: !Candidate(components, cs, name, events, ref))
      && (forall a, b | Candidate(components, cs, name, events, a) && Candidate(components, cs, name, events, b) && a != b ::
            p == BadParameter)
      && forall ref | OnlyCandidate(components, cs, name, events, ref) :: IsPickOf(components, cs, name, events, check, ref, p)
  {
    hide Parse, Nameable, PickComponent, PickAmong, Candidates, PickOf, IsPickOf, Meets, HasMessage;
    PickIsAmong(components, condition, name, events, check, allowed, cs);
    var all := Candidates(components, Selection(cs), name, events);
    forall ref ensures ref in all <==> Candidate(components, cs, name, events, ref) { CandidateIff(components, cs, name, events, ref); }
    AmongNone(components, all, Given(cs), name, events, check);
    forall a, b | Candidate(components, cs, name, events, a) && Candidate(components, cs, name, events, b) && a != b
      ensures PickComponent(components, condition, name, events, check) == BadParameter
    {
      AmongTwo(components, all, Given(cs), name, events, check, a, b);
    }
    forall ref | OnlyCandidate(components, cs, name, events, ref)
      ensures IsPickOf(components, cs, name, events, check, ref, PickComponent(components, condition, name, events, check))
    {
      assert all == {ref};
      AmongOne(components, all, Given(cs), name, events, check, ref);
      OneCandidate(components, cs, name, events, check, ref);
    }
  }
}
