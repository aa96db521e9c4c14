/** How an engine picks the one component a query or a subscribe names, and how it forwards
    the request to the child that owns the component. */
module Forwarding {
  import opened Wrappers
  import opened Like
  import opened Condition
  import opened ConditionProofs

  const COMPONENT_REF := "component_ref"
  const COMPONENT_TYPE := "component_type"
  const SELECTION_PROPERTIES: set<string> := {COMPONENT_REF, COMPONENT_TYPE}

  /** A query or an event of a profile: its arguments and their types. */
  datatype Message = Message(name: string, arguments: map<string, string>)

  datatype Profile = Profile(typeUrn: string, queries: seq<Message>, events: seq<Message>)

  datatype Argument = Argument(name: string, code: string, value: string)

  /** What `_pick` comes to. It fails on a profile that lists the message twice. */
  datatype Pick = BadParameter | Unsupported | Crash | Picked(ref: string, arguments: seq<Argument>)

  type Components = map<string, Profile>

  /** Whether a value fits a type, as `decode_value` says. */
  type Check = (string, string) -> bool

  // -- The pieces of a pick --------------------------------------------------------------

  function Named(messages: seq<Message>, name: string): (r: seq<Message>)
    ensures forall m <- r :: m in messages
  {
    if messages == [] then []
    else (if messages[0].name == name then [messages[0]] else []) + Named(messages[1..], name)
  }

  function Messages(profile: Profile, name: string, events: bool): seq<Message> {
    Named(if events then profile.events else profile.queries, name)
  }

  function ArgumentNames(components: Components, name: string, events: bool): set<string> {
    set ref, m, argument |
      ref in components && m in Messages(components[ref], name, events) && argument in m.arguments :: argument
  }

  predicate Holds(c: Comparison, actual: string)
    requires c.operator == LikeOp ==> !EndsUnpaired(c.value)
  {
    if c.operator == Equals then actual == c.value else Describes(c.value, actual)
  }

  predicate ValidPatterns(cs: seq<Comparison>) {
    forall c <- cs :: c.operator == LikeOp ==> !EndsUnpaired(c.value)
  }

  /** `matches` of a selection, on the properties of a component. */
  predicate Selected(selection: seq<Comparison>, ref: string, profile: Profile)
    requires ValidPatterns(selection)
  {
    forall c <- selection :: Holds(c, if c.property == COMPONENT_REF then ref else profile.typeUrn)
  }

  function Selection(cs: seq<Comparison>): (r: seq<Comparison>)
    ensures ValidPatterns(cs) ==> ValidPatterns(r)
  {
    if cs == [] then []
    else (if cs[0].property in SELECTION_PROPERTIES then [cs[0]] else []) + Selection(cs[1..])
  }

  function Given(cs: seq<Comparison>): (r: seq<Comparison>)
    ensures forall c <- r :: c in cs && c.property !in SELECTION_PROPERTIES
  {
    if cs == [] then []
    else (if cs[0].property in SELECTION_PROPERTIES then [] else [cs[0]]) + Given(cs[1..])
  }

  function Find(arguments: seq<Argument>, name: string): (r: Option<Argument>)
    ensures r.Some? ==> r.value in arguments && r.value.name == name
    ensures r.None? ==> forall a <- arguments :: a.name != name
  {
    if arguments == [] then None
    else if arguments[0].name == name then Some(arguments[0]) else Find(arguments[1..], name)
  }

  /** The loop of `_pick` over the given arguments: None is BAD_PARAMETER. A name given twice
      needs the same value. */
  function Collect(given: seq<Comparison>, types: map<string, string>, check: Check, arguments: seq<Argument>): Option<seq<Argument>>
    decreases |given|
  {
    if given == [] then Some(arguments)
    else
      var c := given[0];
      if c.property !in types || c.operator != Equals then None
      else
        var known := Find(arguments, c.property);
        if known.Some? && known.value.value != c.value then None
        else if !check(types[c.property], c.value) then None
        else
          Collect(given[1..], types, check,
                  if known.Some? then arguments else arguments + [Argument(c.property, types[c.property], c.value)])
  }

  function Candidates(components: Components, selection: seq<Comparison>, name: string, events: bool): set<string>
    requires ValidPatterns(selection)
  {
    set ref | ref in components && Selected(selection, ref, components[ref]) && Messages(components[ref], name, events) != []
  }

  /** The pick of one candidate. */
  function PickOf(components: Components, ref: string, given: seq<Comparison>, name: string, events: bool, check: Check): Pick
    requires ref in components
  {
    var messages := Messages(components[ref], name, events);
    if |messages| != 1 then Crash
    else
      match Collect(given, messages[0].arguments, check, [])
      case None => BadParameter
      case Some(arguments) => Picked(ref, arguments)
  }

  lemma ParsedPatterns(text: string, allowed: set<string>)
    requires Parse(PYTHON, text, allowed).Some?
    ensures ValidPatterns(Parse(PYTHON, text, allowed).value)
    ensures forall c <- Parse(PYTHON, text, allowed).value :: c.property in allowed
  {
    ParsedIsAllowed(Tokens(PYTHON, text).value, allowed, true);
  }

  /** The pick among the candidates: there must be one and no other. */
  ghost function PickAmong(components: Components, candidates: set<string>, given: seq<Comparison>, name: string, events: bool,
                           check: Check): Pick
    requires candidates <= components.Keys
  {
    if candidates == {} then Unsupported
    else if |candidates| > 1 then BadParameter
    else var ref :| ref in candidates; PickOf(components, ref, given, name, events, check)
  }

  /** `_pick`. */
  ghost function PickComponent(components: Components, condition: string, name: string, events: bool, check: Check): Pick {
    var allowed := SELECTION_PROPERTIES + ArgumentNames(components, name, events);
    match Parse(PYTHON, condition, allowed)
    case None => BadParameter
    case Some(parsed) =>
      ParsedPatterns(condition, allowed);
      PickAmong(components, Candidates(components, Selection(parsed), name, events), Given(parsed), name, events, check)
  }

  /** `_condition`. */
  function ForwardedCondition(ref: string, arguments: seq<Argument>): string {
    AllOf(PYTHON, [Eq(COMPONENT_REF, ref)] + seq(|arguments|, i requires 0 <= i < |arguments| => Eq(arguments[i].name, arguments[i].value)))
  }

  function Eq(property: string, value: string): string {
    Print(Comparison(property, Equals, value))
  }

  // -- What a pick returns ---------------------------------------------------------------

  /** Arguments as `_pick` returns them for one message. */
  predicate WellPicked(arguments: seq<Argument>, types: map<string, string>, check: Check) {
    && (forall a <- arguments :: a.name in types && a.code == types[a.name] && check(a.code, a.value))
    && forall i, j | 0 <= i < j < |arguments| :: arguments[i].name != arguments[j].name
  }

  /** The arguments after one more comparison. */
  function Extended(c: Comparison, types: map<string, string>, arguments: seq<Argument>): seq<Argument>
    requires c.property in types
  {
    if Find(arguments, c.property).Some? then arguments else arguments + [Argument(c.property, types[c.property], c.value)]
  }

  lemma ExtendedPicks(c: Comparison, types: map<string, string>, check: Check, arguments: seq<Argument>)
    requires WellPicked(arguments, types, check) && c.property in types && check(types[c.property], c.value)
    requires var known := Find(arguments, c.property); known.Some? ==> known.value.value == c.value
    ensures var more := Extended(c, types, arguments);
      && WellPicked(more, types, check) && arguments <= more
      && (exists a :: a in more && a.name == c.property && a.value == c.value)
      && forall a <- more :: a in arguments || (a.name == c.property && a.value == c.value)
  {
    var known := Find(arguments, c.property);
    var a := if known.Some? then known.value else Argument(c.property, types[c.property], c.value);
    assert a in Extended(c, types, arguments);
  }

  lemma {:induction false} CollectPicks(given: seq<Comparison>, types: map<string, string>, check: Check, arguments: seq<Argument>)
    requires WellPicked(arguments, types, check) && Collect(given, types, check, arguments).Some?
    ensures var r := Collect(given, types, check, arguments).value;
      && WellPicked(r, types, check) && arguments <= r
      && (forall a <- r :: a in arguments || exists c :: c in given && c.property == a.name && c.value == a.value)
      && (forall c <- given :: exists a :: a in r && a.name == c.property && a.value == c.value)
    decreases |given|
  {
    hide WellPicked, Find;
    if given != [] {
      var c := given[0];
      ExtendedPicks(c, types, check, arguments);
      var more := Extended(c, types, arguments);
      assert Collect(given, types, check, arguments) == Collect(given[1..], types, check, more);
      CollectPicks(given[1..], types, check, more);
      assert given == [c] + given[1..];
    }
  }

  function Comparisons(arguments: seq<Argument>): seq<Comparison> {
    seq(|arguments|, i requires 0 <= i < |arguments| => Comparison(arguments[i].name, Equals, arguments[i].value))
  }

  /** Collecting picked arguments again gives them back, in their order. */
  lemma {:induction false} CollectAgain(arguments: seq<Argument>, types: map<string, string>, check: Check, k: nat)
    requires WellPicked(arguments, types, check) && k <= |arguments|
    ensures Collect(Comparisons(arguments)[k..], types, check, arguments[..k]) == Some(arguments)
    decreases |arguments| - k
  {
    if k == |arguments| {
      assert arguments[..k] == arguments;
    } else {
      var a := arguments[k];
      assert a in arguments;
      assert Comparisons(arguments)[k..][1..] == Comparisons(arguments)[k + 1..];
      assert arguments[..k] + [a] == arguments[..k + 1];
      assert Argument(a.name, types[a.name], a.value) == a;
      CollectAgain(arguments, types, check, k + 1);
    }
  }

  // -- Property names are identifiers ----------------------------------------------------

  predicate WellSpelled(token: Token) {
    && (token.kind == WordKind ==> Identifier(token.text))
    && (token.kind == QuotedKind ==> |token.text| >= 2 && Identifier(token.text[1..|token.text| - 1]))
  }

  lemma {:induction false} RunIsIdentifier(text: string)
    ensures forall c <- text[..Run(text)] :: IdentChar(c)
  {
    if text != "" && IdentChar(text[0]) {
      RunIsIdentifier(text[1..]);
      assert text[..Run(text)] == [text[0]] + text[1..][..Run(text[1..])];
    }
  }

  lemma NextIsWellSpelled(text: string)
    requires text != "" && NextToken(text).Some?
    ensures WellSpelled(NextToken(text).value)
  {
    RunIsIdentifier(text);
    if text[0] == '"' {
      RunIsIdentifier(text[1..]);
      var n := Run(text[1..]);
      assert text[..n + 2][1..n + 1] == text[1..][..n];
    }
  }

  lemma {:induction false} TokensAreWellSpelled(l: Language, text: string)
    requires Tokens(l, text).Some?
    ensures forall token <- Tokens(l, text).value :: WellSpelled(token)
    decreases |text|
  {
    if !Blank(l, text) {
      if IsSpace(l, text[0]) { TokensAreWellSpelled(l, text[1..]); }
      else {
        NextIsWellSpelled(text);
        TokensAreWellSpelled(l, text[|NextToken(text).value.text|..]);
      }
    }
  }

  lemma {:induction false} ParsedNames(tokens: seq<Token>, allowed: set<string>, first: bool)
    requires (forall token <- tokens :: WellSpelled(token)) && ParseTokens(tokens, allowed, first).Some?
    ensures forall c <- ParseTokens(tokens, allowed, first).value :: Identifier(c.property)
    decreases |tokens|
  {
    if tokens != [] {
      var at := if first then 0 else 1;
      assert tokens[at] in tokens;
      ParsedNames(tokens[at + 3..], allowed, false);
    }
  }

  /** Every property of a parsed condition is an identifier. */
  lemma ParsedAreIdentifiers(text: string, allowed: set<string>)
    requires Parse(PYTHON, text, allowed).Some?
    ensures forall c <- Parse(PYTHON, text, allowed).value :: Identifier(c.property)
  {
    TokensAreWellSpelled(PYTHON, text);
    ParsedNames(Tokens(PYTHON, text).value, allowed, true);
  }

  // -- Forwarding ------------------------------------------------------------------------

  function ForwardedComparisons(ref: string, arguments: seq<Argument>): seq<Comparison> {
    [Comparison(COMPONENT_REF, Equals, ref)] + Comparisons(arguments)
  }

  lemma RefIsAName()
    ensures Identifier(COMPONENT_REF) && !Keyword(COMPONENT_REF)
  {
  }

  lemma {:induction false} AllNonBlank(texts: seq<string>)
    requires forall t <- texts :: !Blank(PYTHON, t)
    ensures NonBlank(PYTHON, texts) == texts
  {
    if texts != [] {
      AllNonBlank(texts[1..]);
      assert texts == [texts[0]] + texts[1..];
    }
  }

  /** The condition sent down is the print of its comparisons. */
  lemma ForwardedIsPrinted(ref: string, arguments: seq<Argument>)
    requires forall a <- arguments :: Identifier(a.name)
    ensures ForwardedCondition(ref, arguments) == PrintAll(ForwardedComparisons(ref, arguments))
    ensures forall c <- ForwardedComparisons(ref, arguments) :: Identifier(c.property)
  {
    RefIsAName();
    var cs := ForwardedComparisons(ref, arguments);
    forall c <- cs ensures Identifier(c.property) {
      var i :| 0 <= i < |cs| && cs[i] == c;
      if i > 0 { assert arguments[i - 1] in arguments; }
    }
    var texts := [Eq(COMPONENT_REF, ref)] + seq(|arguments|, i requires 0 <= i < |arguments| => Eq(arguments[i].name, arguments[i].value));
    var printed := seq(|cs|, i requires 0 <= i < |cs| => Print(cs[i]));
    hide Print, Identifier;
    assert texts == printed;
    forall t <- texts ensures !Blank(PYTHON, t) {
      var i :| 0 <= i < |cs| && printed[i] == t;
      PrintedParses(PYTHON, cs[i], {});
    }
    AllNonBlank(texts);
  }

  lemma {:induction false} GivenBack(arguments: seq<Argument>)
    requires forall a <- arguments :: a.name !in SELECTION_PROPERTIES
    ensures Given(Comparisons(arguments)) == Comparisons(arguments) && Selection(Comparisons(arguments)) == []
  {
    if arguments != [] {
      var cs := Comparisons(arguments);
      assert arguments[0] in arguments;
      assert cs[1..] == Comparisons(arguments[1..]);
      assert cs == [cs[0]] + cs[1..];
      GivenBack(arguments[1..]);
    }
  }

  /** What the child reads from the forwarded condition: the one ref, and the arguments. */
  lemma ForwardedSplits(ref: string, arguments: seq<Argument>)
    requires forall a <- arguments :: a.name !in SELECTION_PROPERTIES
    ensures Selection(ForwardedComparisons(ref, arguments)) == [Comparison(COMPONENT_REF, Equals, ref)]
    ensures Given(ForwardedComparisons(ref, arguments)) == Comparisons(arguments)
  {
    var cs := ForwardedComparisons(ref, arguments);
    assert cs[1..] == Comparisons(arguments);
    GivenBack(arguments);
  }

  /** Arguments that the parent of a child picked for a component. */
  ghost predicate PickedFor(arguments: seq<Argument>, profile: Profile, name: string, events: bool, check: Check) {
    var messages := Messages(profile, name, events);
    && |messages| == 1 && WellPicked(arguments, messages[0].arguments, check)
    && forall a <- arguments :: Identifier(a.name) && a.name !in SELECTION_PROPERTIES
  }

  lemma PickedIsFor(components: Components, condition: string, name: string, events: bool, check: Check)
    requires PickComponent(components, condition, name, events, check).Picked?
    ensures var p := PickComponent(components, condition, name, events, check);
      p.ref in components && PickedFor(p.arguments, components[p.ref], name, events, check)
  {
    var allowed := SELECTION_PROPERTIES + ArgumentNames(components, name, events);
    var parsed := Parse(PYTHON, condition, allowed).value;
    ParsedPatterns(condition, allowed);
    ParsedAreIdentifiers(condition, allowed);
    var p := PickComponent(components, condition, name, events, check);
    var types := Messages(components[p.ref], name, events)[0].arguments;
    CollectPicks(Given(parsed), types, check, []);
    assert forall a <- p.arguments :: exists c :: c in Given(parsed) && c.property == a.name;
  }

  lemma OnlyRef(child: Components, ref: string, name: string, events: bool)
    requires ref in child && Messages(child[ref], name, events) != []
    ensures Candidates(child, [Comparison(COMPONENT_REF, Equals, ref)], name, events) == {ref}
  {
    var selection := [Comparison(COMPONENT_REF, Equals, ref)];
    forall other ensures other in Candidates(child, selection, name, events) <==> other == ref {
      assert selection[0] in selection;
      if other in child { assert Selected(selection, other, child[other]) <==> other == ref; }
    }
  }

  /** A child that owns the component reads the condition sent down exactly when no argument
      name is a keyword, and then it picks the same component and the same arguments. */
  lemma ChildPicksSame(child: Components, ref: string, arguments: seq<Argument>, name: string, events: bool, check: Check)
    requires ref in child && PickedFor(arguments, child[ref], name, events, check)
    ensures PickComponent(child, ForwardedCondition(ref, arguments), name, events, check)
         == if exists a <- arguments :: Keyword(a.name) then BadParameter else Picked(ref, arguments)
  {
    var cs := ForwardedComparisons(ref, arguments);
    var allowed := SELECTION_PROPERTIES + ArgumentNames(child, name, events);
    var message := Messages(child[ref], name, events)[0];
    var condition := ForwardedCondition(ref, arguments);
    ForwardedIsPrinted(ref, arguments);
    RoundTrip(PYTHON, cs, allowed);
    ReadableIff(ref, arguments, allowed, message, child, name, events);
    hide Parse, PrintAll, Collect, Keyword, Identifier, WellPicked, Readable, ForwardedCondition;
    if exists a <- arguments :: Keyword(a.name) {
      assert Parse(PYTHON, condition, allowed) == None;
    } else {
      assert Parse(PYTHON, condition, allowed) == Some(cs);
      hide ForwardedComparisons, Comparisons, Candidates, Selection, Given, Messages, PickComponent;
      ForwardedSplits(ref, arguments);
      OnlyRef(child, ref, name, events);
      PickOne(child, condition, name, events, check, cs, ref);
      CollectAgain(arguments, message.arguments, check, 0);
      assert Comparisons(arguments)[0..] == Comparisons(arguments) && arguments[..0] == [];
    }
  }

  /** A pick with one candidate is the pick of that candidate. */
  lemma PickOne(components: Components, condition: string, name: string, events: bool, check: Check, parsed: seq<Comparison>, ref: string)
    requires Parse(PYTHON, condition, SELECTION_PROPERTIES + ArgumentNames(components, name, events)) == Some(parsed)
    requires ValidPatterns(Selection(parsed)) && Candidates(components, Selection(parsed), name, events) == {ref}
    ensures ref in components
    ensures PickComponent(components, condition, name, events, check) == PickOf(components, ref, Given(parsed), name, events, check)
  {
    assert ref in Candidates(components, Selection(parsed), name, events);
    hide PickOf, Parse, Messages, Selected;
  }

  lemma ReadableIff(ref: string, arguments: seq<Argument>, allowed: set<string>, message: Message,
                    child: Components, name: string, events: bool)
    requires ref in child && message in Messages(child[ref], name, events)
    requires allowed == SELECTION_PROPERTIES + ArgumentNames(child, name, events)
    requires forall a <- arguments :: a.name in message.arguments
    ensures (forall c <- ForwardedComparisons(ref, arguments) :: Readable(c, allowed)) <==> !(exists a <- arguments :: Keyword(a.name))
  {
    RefIsAName();
    hide Keyword;
    var cs := ForwardedComparisons(ref, arguments);
    forall a <- arguments ensures a.name in allowed { assert a.name in ArgumentNames(child, name, events); }
    if forall c <- cs :: Readable(c, allowed) {
      forall a <- arguments ensures !Keyword(a.name) {
        var i :| 0 <= i < |arguments| && arguments[i] == a;
        assert cs[i + 1] in cs && cs[i + 1].property == a.name;
      }
    } else {
      var c :| c in cs && !Readable(c, allowed);
      var i :| 0 <= i < |cs| && cs[i] == c;
      assert i > 0 && arguments[i - 1] in arguments;
    }
  }

  /** Forwarding is the identity: what a gateway picked, the child picks from the condition
      the gateway sends it, unless an argument is named by a keyword, and then it refuses. */
  lemma ForwardingIsIdentity(parent: Components, child: Components, condition: string, name: string, events: bool, check: Check)
    requires PickComponent(parent, condition, name, events, check).Picked?
    requires var p := PickComponent(parent, condition, name, events, check); p.ref in child && child[p.ref] == parent[p.ref]
    ensures var p := PickComponent(parent, condition, name, events, check);
      PickComponent(child, ForwardedCondition(p.ref, p.arguments), name, events, check)
      == if exists a <- p.arguments :: Keyword(a.name) then BadParameter else p
  {
    PickedIsFor(parent, condition, name, events, check);
    var p := PickComponent(parent, condition, name, events, check);
    hide PickComponent, PickedFor, Keyword, ForwardedCondition;
    ChildPicksSame(child, p.ref, p.arguments, name, events, check);
  }

  /** What the last of some tiers picks, each forwarding what it picked to the next. */
  ghost function PickThrough(tiers: seq<Components>, condition: string, name: string, events: bool, check: Check): Pick
    requires tiers != []
    decreases |tiers|
  {
    var p := PickComponent(tiers[0], condition, name, events, check);
    if |tiers| == 1 || !p.Picked? then p
    else PickThrough(tiers[1..], ForwardedCondition(p.ref, p.arguments), name, events, check)
  }

  /** Through any number of tiers that know one profile of the component, the last one picks
      what the first one picked. */
  lemma {:induction false} TiersPickSame(tiers: seq<Components>, condition: string, name: string, events: bool, check: Check)
    requires tiers != [] && PickComponent(tiers[0], condition, name, events, check).Picked?
    requires var p := PickComponent(tiers[0], condition, name, events, check);
      (forall a <- p.arguments :: !Keyword(a.name)) && forall tier <- tiers :: p.ref in tier && p.ref in tiers[0] && tier[p.ref] == tiers[0][p.ref]
    ensures PickThrough(tiers, condition, name, events, check) == PickComponent(tiers[0], condition, name, events, check)
    decreases |tiers|
  {
    if |tiers| > 1 {
      var p := PickComponent(tiers[0], condition, name, events, check);
      assert tiers[1] in tiers;
      hide PickComponent, Keyword, ForwardedCondition;
      ForwardingIsIdentity(tiers[0], tiers[1], condition, name, events, check);
      assert tiers[1..][0] == tiers[1];
      forall tier <- tiers[1..] ensures p.ref in tier && tier[p.ref] == tiers[1][p.ref] { assert tier in tiers; }
      TiersPickSame(tiers[1..], ForwardedCondition(p.ref, p.arguments), name, events, check);
    }
  }

  // -- The pick in place -----------------------------------------------------------------

  /** The loop of `_pick` over the given arguments. */
  method CollectArguments(given: seq<Comparison>, types: map<string, string>, check: Check) returns (picked: Option<seq<Argument>>)
    ensures picked == Collect(given, types, check, [])
  {
    var arguments: seq<Argument> := [];
    for i := 0 to |given|
      invariant Collect(given[i..], types, check, arguments) == Collect(given, types, check, [])
    {
      var c := given[i];
      assert given[i..][0] == c && given[i..][1..] == given[i + 1..];
      if c.property !in types || c.operator != Equals { return None; }
      var known := Find(arguments, c.property);
      if known.Some? && known.value.value != c.value { return None; }
      if !check(types[c.property], c.value) { return None; }
      if known.None? { arguments := arguments + [Argument(c.property, types[c.property], c.value)]; }
    }
    picked := Some(arguments);
  }

  /** The refs a selection matches that have the message, in the order of the merge. */
  method FindCandidates(components: Components, refs: seq<string>, selection: seq<Comparison>, name: string, events: bool)
    returns (candidates: seq<string>)
    requires ValidPatterns(selection)
    requires (forall ref :: ref in refs <==> ref in components) && forall i, j | 0 <= i < j < |refs| :: refs[i] != refs[j]
    ensures forall ref :: ref in candidates <==> ref in Candidates(components, selection, name, events)
    ensures forall j, k | 0 <= j < k < |candidates| :: candidates[j] != candidates[k]
  {
    hide Messages, Selected;
    candidates := [];
    for i := 0 to |refs|
      invariant forall ref :: ref in candidates <==> ref in refs[..i] && ref in Candidates(components, selection, name, events)
      invariant forall j, k | 0 <= j < k < |candidates| :: candidates[j] != candidates[k]
    {
      var ref := refs[i];
      assert ref in refs && ref !in refs[..i];
      assert refs[..i + 1] == refs[..i] + [ref];
      if Selected(selection, ref, components[ref]) && Messages(components[ref], name, events) != [] {
        candidates := candidates + [ref];
      }
    }
    assert refs[..|refs|] == refs;
  }

  /** `_pick`, over the components in the order of the merge. */
  method PickInOrder(components: Components, refs: seq<string>, condition: string, name: string, events: bool, check: Check)
    returns (pick: Pick)
    requires (forall ref :: ref in refs <==> ref in components) && forall i, j | 0 <= i < j < |refs| :: refs[i] != refs[j]
    ensures pick == PickComponent(components, condition, name, events, check)
  {
    hide Parse, Messages, Selected, Selection, Given, Collect;
    var allowed := SELECTION_PROPERTIES + ArgumentNames(components, name, events);
    var parsed := ParseCondition(PYTHON, condition, allowed);
    if parsed.None? { return BadParameter; }
    ParsedPatterns(condition, allowed);
    var candidates := FindCandidates(components, refs, Selection(parsed.value), name, events);
    ghost var all := Candidates(components, Selection(parsed.value), name, events);
    hide Candidates, PickAmong;
    pick := PickFirst(components, all, candidates, Given(parsed.value), name, events, check);
  }

  method PickFirst(components: Components, ghost all: set<string>, candidates: seq<string>, given: seq<Comparison>, name: string,
                   events: bool, check: Check)
    returns (pick: Pick)
    requires all <= components.Keys && forall ref :: ref in candidates <==> ref in all
    requires forall i, j | 0 <= i < j < |candidates| :: candidates[i] != candidates[j]
    ensures pick == PickAmong(components, all, given, name, events, check)
  {
    hide PickOf;
    if candidates == [] {
      assert all == {};
      return Unsupported;
    }
    assert candidates[0] in all;
    if |candidates| > 1 {
      assert candidates[1] in all;
      TwoAreMore(all, candidates[0], candidates[1]);
      return BadParameter;
    }
    assert all == {candidates[0]};
    pick := PickFound(components, candidates[0], given, name, events, check);
  }

  method PickFound(components: Components, ref: string, given: seq<Comparison>, name: string, events: bool, check: Check)
    returns (pick: Pick)
    requires ref in components
    ensures pick == PickOf(components, ref, given, name, events, check)
  {
    var messages := Messages(components[ref], name, events);
    if |messages| != 1 { return Crash; }
    var arguments := CollectArguments(given, messages[0].arguments, check);
    match arguments
    case None => pick := BadParameter;
    case Some(value) => pick := Picked(ref, value);
  }

  lemma TwoAreMore(all: set<string>, a: string, b: string)
    requires a in all && b in all && a != b
    ensures |all| > 1
  {
    assert |all - {a}| == |all| - 1 && b in all - {a};
  }
}
