/** What the condition language promises: writing and reading are inverse, and joining
    conditions only ever concatenates them. */
module ConditionProofs {
  import opened Wrappers
  import opened Like
  import opened Condition

  // -- One token is read the same before a space -----------------------------------------

  /** `text` goes on after the token it starts with, or ends there. */
  predicate SpaceFirst(text: string) {
    text == "" || text[0] == ' '
  }

  /** The literal open before `i` closes at its first single quote that is not doubled. */
  function CleanEnd(text: string, i: nat): (end: Option<nat>)
    ensures end.Some? ==> i < end.value <= |text| && StringEnd(text, i) == end
    decreases |text| - i
  {
    if i >= |text| then None
    else if text[i] != '\'' then CleanEnd(text, i + 1)
    else if i + 1 < |text| && text[i + 1] == '\'' then CleanEnd(text, i + 2)
    else Some(i + 1)
  }

  /** A doubled quote that had to be given back leaves an unterminated literal behind it. */
  lemma {:induction false} GivenBack(l: Language, text: string, i: nat)
    requires 0 < i && CleanEnd(text, i).None? && StringEnd(text, i).Some?
    ensures StringEnd(text, i).value < |text|
    ensures NextToken(text[StringEnd(text, i).value..]).None?
    ensures text[StringEnd(text, i).value] == '\''
    decreases |text| - i
  {
    if text[i] != '\'' {
      GivenBack(l, text, i + 1);
    } else if StringEnd(text, i + 2).Some? {
      GivenBack(l, text, i + 2);
    } else {
      EndShift(text, i + 1, i + 2);
    }
  }

  /** The end of a literal does not depend on where the text before it starts. */
  lemma {:induction false} EndShift(text: string, from: nat, i: nat)
    requires from <= i
    requires from <= |text|
    ensures StringEnd(text[from..], i - from).Some? <==> StringEnd(text, i).Some?
    decreases |text| - i
  {
    if i < |text| {
      if text[i] != '\'' {
        EndShift(text, from, i + 1);
      } else if i + 1 < |text| && text[i + 1] == '\'' {
        EndShift(text, from, i + 2);
      }
    }
  }

  lemma {:induction false} CleanEndAppend(a: string, b: string, i: nat)
    requires (b == "" || b[0] != '\'') && CleanEnd(a, i).Some?
    ensures CleanEnd(a + b, i) == CleanEnd(a, i)
    decreases |a| - i
  {
    if a[i] != '\'' {
      CleanEndAppend(a, b, i + 1);
    } else if i + 1 < |a| && a[i + 1] == '\'' {
      CleanEndAppend(a, b, i + 2);
    }
  }

  lemma {:induction false} RunAppend(a: string, b: string)
    requires b == "" || !IdentChar(b[0])
    ensures Run(a + b) == Run(a)
  {
    if a == "" {
      assert a + b == b;
    } else if IdentChar(a[0]) {
      assert (a + b)[1..] == a[1..] + b;
      RunAppend(a[1..], b);
    }
  }

  lemma LiteralAppend(l: Language, a: string, b: string)
    requires SpaceFirst(b) && a != "" && a[0] == '\'' && Tokens(l, a).Some?
    ensures NextToken(a + b) == NextToken(a)
  {
    TakeToken(l, a);
    if CleanEnd(a, 1).Some? {
      CleanEndAppend(a, b, 1);
      assert (a + b)[..CleanEnd(a, 1).value] == a[..CleanEnd(a, 1).value];
    } else {
      GivenBack(l, a, 1);
      TakeToken(l, a[StringEnd(a, 1).value..]);
      assert false;
    }
  }

  lemma IdentifierAppend(a: string, b: string)
    requires SpaceFirst(b) && a != "" && a[0] != '\''
    ensures NextToken(a + b) == NextToken(a)
  {
    var text := a + b;
    assert text[0] == a[0] && text[1..] == a[1..] + b;
    RunAppend(a[1..], b);
    RunAppend(a, b);
    var n := Run(a[1..]);
    assert a[0] == '"' && n + 1 < |a| ==> text[..n + 2] == a[..n + 2];
    assert text[..Run(a)] == a[..Run(a)] && text[..1] == a[..1];
  }

  /** In a text that has tokens, the first one stays when a space follows the text. */
  lemma NextTokenAppend(l: Language, a: string, b: string)
    requires SpaceFirst(b) && a != "" && Tokens(l, a).Some?
    ensures NextToken(a + b) == NextToken(a)
  {
    if a[0] == '\'' { LiteralAppend(l, a, b); } else { IdentifierAppend(a, b); }
  }

  /** The tokens of two texts are those of the first, then those of the second. */
  predicate Appends(l: Language, a: string, b: string) {
    Tokens(l, a).Some? && Tokens(l, a + b) == Prepend(Tokens(l, a).value, Tokens(l, b))
  }

  lemma SpaceAppends(l: Language, a: string, b: string)
    requires a != "" && IsSpace(l, a[0]) && Appends(l, a[1..], b)
    ensures Appends(l, a, b)
  {
    hide Tokens, IsSpace;
    SkipSpace(l, a);
    SkipSpace(l, a + b);
    assert (a + b)[1..] == a[1..] + b;
  }

  lemma TokenAppends(l: Language, a: string, b: string)
    requires SpaceFirst(b) && a != "" && !IsSpace(l, a[0]) && Tokens(l, a).Some?
    requires NextToken(a).Some? && Appends(l, a[|NextToken(a).value.text|..], b)
    ensures Appends(l, a, b)
  {
    hide Tokens, NextToken, IsSpace;
    TakeToken(l, a);
    TakeToken(l, a + b);
    NextTokenAppend(l, a, b);
    var token := NextToken(a).value;
    var rest := a[|token.text|..];
    assert (a + b)[|token.text|..] == rest + b;
    PrependTwice([token], Tokens(l, rest).value, Tokens(l, b));
  }

  /** The tokens of two texts are those of the first, then those of the second, when the
      second starts with a space. */
  lemma {:induction false} TokensAppend(l: Language, a: string, b: string)
    requires SpaceFirst(b) && Tokens(l, a).Some?
    ensures Tokens(l, a + b) == Prepend(Tokens(l, a).value, Tokens(l, b))
    decreases |a|
  {
    hide NextToken, IsSpace;
    if a == "" {
      assert a + b == b;
    } else {
      hide Tokens;
      if IsSpace(l, a[0]) {
        SkipSpace(l, a);
        TokensAppend(l, a[1..], b);
        SpaceAppends(l, a, b);
      } else {
        TakeToken(l, a);
        TokensAppend(l, a[|NextToken(a).value.text|..], b);
        TokenAppends(l, a, b);
      }
    }
  }

  // -- The tokens of a printed comparison ------------------------------------------------

  lemma {:induction false} RunIdentifier(name: string)
    requires forall c <- name :: IdentChar(c)
    ensures Run(name) == |name|
  {
    if name != "" {
      assert name[0] in name;
      assert forall c <- name[1..] :: c in name;
      RunIdentifier(name[1..]);
    }
  }

  lemma OneToken(l: Language, text: string, token: Token)
    requires text != "" && !IsSpace(l, text[0]) && NextToken(text) == Some(token) && token.text == text
    ensures Tokens(l, text) == Some([token])
  {
    TakeToken(l, text);
    assert text[|text|..] == "" && Tokens(l, "") == Some([]);
  }

  lemma WordToken(l: Language, name: string)
    requires Identifier(name)
    ensures Tokens(l, name) == Some([Token(WordKind, name)])
  {
    RunIdentifier(name);
    assert name[..|name|] == name;
    OneToken(l, name, Token(WordKind, name));
  }

  lemma {:induction false} DoubledEnd(head: string, value: string)
    ensures CleanEnd(head + Double(value) + "'", |head|) == Some(|head + Double(value)| + 1)
    decreases |value|
  {
    var text := head + Double(value) + "'";
    if value != "" {
      var unit := if value[0] == '\'' then "''" else [value[0]];
      assert text == (head + unit) + Double(value[1..]) + "'";
      DoubledEnd(head + unit, value[1..]);
      assert text[|head|] == unit[0];
      if value[0] == '\'' { assert text[|head| + 1] == '\''; }
    }
  }

  lemma QuoteToken(l: Language, value: string)
    ensures Tokens(l, Quote(value)) == Some([Token(StringKind, Quote(value))])
  {
    DoubledEnd("'", value);
    var text := Quote(value);
    assert StringEnd(text, 1) == Some(|text|);
    assert text[..|text|] == text;
    OneToken(l, text, Token(StringKind, text));
  }

  lemma {:induction false} UndoubleDouble(value: string)
    ensures Undouble(Double(value)) == value
  {
    if value != "" {
      UndoubleDouble(value[1..]);
      var unit := if value[0] == '\'' then "''" else [value[0]];
      assert (unit + Double(value[1..]))[|unit|..] == Double(value[1..]);
    }
  }

  function TokensOf(c: Comparison): seq<Token> {
    [Token(WordKind, c.property),
     if c.operator == Equals then Token(EqualsKind, "=") else Token(WordKind, "LIKE"),
     Token(StringKind, Quote(c.value))]
  }

  lemma OperatorToken(l: Language, op: Operator)
    ensures Tokens(l, OperatorText(op)) == Some([if op == Equals then Token(EqualsKind, "=") else Token(WordKind, "LIKE")])
  {
    if op == Equals {
      assert "="[..1] == "=";
      OneToken(l, "=", Token(EqualsKind, "="));
    } else {
      WordToken(l, "LIKE");
    }
  }

  /** Two texts with a space between them: the tokens of both. */
  lemma Then(l: Language, a: string, b: string)
    requires Tokens(l, a).Some?
    ensures Tokens(l, a + " " + b) == Prepend(Tokens(l, a).value, Tokens(l, b))
  {
    SkipSpace(l, " " + b);
    assert (" " + b)[1..] == b && a + " " + b == a + (" " + b);
    TokensAppend(l, a, " " + b);
  }

  lemma PrintedTokens(l: Language, c: Comparison)
    requires Identifier(c.property)
    ensures Tokens(l, Print(c)) == Some(TokensOf(c))
  {
    hide Tokens;
    var op, quoted := OperatorText(c.operator), Quote(c.value);
    WordToken(l, c.property);
    OperatorToken(l, c.operator);
    QuoteToken(l, c.value);
    Then(l, c.property, op);
    Then(l, c.property + " " + op, quoted);
    assert [TokensOf(c)[0]] + [TokensOf(c)[1]] + [TokensOf(c)[2]] == TokensOf(c);
  }

  /** The tokens of two texts joined by AND. */
  lemma ThenAnd(l: Language, a: string, b: string)
    requires Tokens(l, a).Some?
    ensures Tokens(l, a + " AND " + b) == Prepend(Tokens(l, a).value + [Token(WordKind, "AND")], Tokens(l, b))
  {
    hide Tokens;
    WordToken(l, "AND");
    Then(l, a, "AND");
    Then(l, a + " " + "AND", b);
    assert a + " AND " + b == a + " " + "AND" + " " + b;
  }

  // -- Joining -----------------------------------------------------------------------------

  lemma {:induction false} ParseAppend(a: seq<Token>, b: seq<Token>, allowed: set<string>, first: bool)
    requires a != [] && ParseTokens(a, allowed, first).Some?
    ensures ParseTokens(a + b, allowed, first)
         == Prepend(ParseTokens(a, allowed, first).value, ParseTokens(b, allowed, false))
    decreases |a|
  {
    var at := if first then 0 else 1;
    var c := ComparisonOf(a[at], a[at + 1], a[at + 2], allowed).value;
    var rest := a[at + 3..];
    assert (a + b)[at + 3..] == rest + b;
    var more := ParseTokens(rest, allowed, false).value;
    if rest == [] {
      assert rest + b == b && [c] + more == [c];
    } else {
      ParseAppend(rest, b, allowed, false);
      PrependTwice([c], more, ParseTokens(b, allowed, false));
    }
  }

  function Flatten(css: seq<seq<Comparison>>): seq<Comparison> {
    if css == [] then [] else css[0] + Flatten(css[1..])
  }

  lemma AfterAnd(tokens: seq<Token>, joiner: Token, allowed: set<string>)
    requires IsAnd(joiner) && tokens != []
    ensures ParseTokens([joiner] + tokens, allowed, false) == ParseTokens(tokens, allowed, true)
  {
    if |tokens| >= 3 { assert ([joiner] + tokens)[4..] == tokens[3..]; }
  }

  lemma HasTokens(l: Language, text: string)
    requires !Blank(l, text) && Tokens(l, text).Some?
    ensures Tokens(l, text).value != []
    decreases |text|
  {
    if IsSpace(l, text[0]) {
      SkipSpace(l, text);
      assert text == [text[0]] + text[1..];
      HasTokens(l, text[1..]);
    }
  }

  /** One condition, then another behind AND: the comparisons of both, when the first is
      valid. What the second holds cannot change how the first reads, nor the other way. */
  lemma JoinTwo(l: Language, a: string, b: string, allowed: set<string>)
    requires !Blank(l, a) && !Blank(l, b) && Parse(l, a, allowed).Some?
    ensures Parse(l, a + " AND " + b, allowed)
         == Prepend(Parse(l, a, allowed).value, Parse(l, b, allowed))
  {
    var joiner := Token(WordKind, "AND");
    SpellsItself("AND");
    ThenAnd(l, a, b);
    HasTokens(l, a);
    var ta := Tokens(l, a).value;
    if Tokens(l, b).Some? {
      HasTokens(l, b);
      var tb := Tokens(l, b).value;
      assert ta + [joiner] + tb == ta + ([joiner] + tb);
      ParseAppend(ta, [joiner] + tb, allowed, true);
      AfterAnd(tb, joiner, allowed);
    }
  }

  lemma {:induction false} JoinBlank(l: Language, texts: seq<string>)
    requires texts != [] && forall t <- texts :: !Blank(l, t)
    ensures !Blank(l, Join(texts))
  {
    if |texts| > 1 {
      assert !Blank(l, texts[0]);
      var c :| c in texts[0] && !IsSpace(l, c);
      assert c in Join(texts);
    }
  }

  /** Conditions that are not blank, joined: the comparisons of each in turn. */
  lemma {:induction false} JoinParses(l: Language, texts: seq<string>, css: seq<seq<Comparison>>, allowed: set<string>)
    requires |texts| == |css|
    requires forall i | 0 <= i < |texts| :: !Blank(l, texts[i]) && Parse(l, texts[i], allowed) == Some(css[i])
    ensures Parse(l, Join(texts), allowed) == Some(Flatten(css))
  {
    if |texts| == 1 {
      assert !Blank(l, texts[0]) && Parse(l, texts[0], allowed) == Some(css[0]);
      assert css[0] + Flatten(css[1..]) == css[0];
    } else if |texts| > 1 {
      assert !Blank(l, texts[0]) && Parse(l, texts[0], allowed) == Some(css[0]);
      assert forall i | 0 <= i < |texts[1..]| :: texts[1..][i] == texts[i + 1] && css[1..][i] == css[i + 1];
      JoinParses(l, texts[1..], css[1..], allowed);
      JoinBlank(l, texts[1..]);
      JoinTwo(l, texts[0], Join(texts[1..]), allowed);
    }
  }

  /** `allOf` of valid conditions, blank ones included, parses to the concatenation of their
      comparisons: no value in one of them can change the structure. */
  lemma {:induction false} AllOfConcatenates(l: Language, conditions: seq<string>, css: seq<seq<Comparison>>, allowed: set<string>)
    requires |conditions| == |css|
    requires forall i | 0 <= i < |css| :: Parse(l, conditions[i], allowed) == Some(css[i])
    ensures Parse(l, AllOf(l, conditions), allowed) == Some(Flatten(css))
  {
    var kept := KeepNonBlank(l, conditions, css, allowed);
    JoinParses(l, NonBlank(l, conditions), kept, allowed);
  }

  lemma {:induction false} KeepNonBlank(l: Language, conditions: seq<string>, css: seq<seq<Comparison>>, allowed: set<string>)
    returns (kept: seq<seq<Comparison>>)
    requires |conditions| == |css|
    requires forall i | 0 <= i < |css| :: Parse(l, conditions[i], allowed) == Some(css[i])
    ensures |kept| == |NonBlank(l, conditions)| && Flatten(kept) == Flatten(css)
    ensures forall i | 0 <= i < |kept| ::
              !Blank(l, NonBlank(l, conditions)[i]) && Parse(l, NonBlank(l, conditions)[i], allowed) == Some(kept[i])
  {
    if conditions == [] {
      kept := [];
    } else {
      assert Parse(l, conditions[0], allowed) == Some(css[0]);
      assert forall i | 0 <= i < |css[1..]| :: conditions[1..][i] == conditions[i + 1] && css[1..][i] == css[i + 1];
      var rest := KeepNonBlank(l, conditions[1..], css[1..], allowed);
      if Blank(l, conditions[0]) {
        assert css[0] == [] && css[0] + Flatten(css[1..]) == Flatten(css[1..]);
        kept := rest;
        assert NonBlank(l, conditions) == NonBlank(l, conditions[1..]);
      } else {
        kept := [css[0]] + rest;
        assert kept[1..] == rest;
        assert NonBlank(l, conditions) == [conditions[0]] + NonBlank(l, conditions[1..]);
      }
    }
  }

  /** The guarantee is for valid conditions: two invalid ones can join to a valid one. */
  lemma InvalidCanJoin(l: Language)
    ensures Parse(l, "p = 'x", {"p"}).None? && Parse(l, "y'", {"p"}).None?
    ensures Parse(l, AllOf(l, ["p = 'x", "y'"]), {"p"}) == Some([Comparison("p", Equals, "x AND y")])
  {
    UnterminatedInvalid(l);
    JoinedInvalid(l);
    PrintedParses(l, Comparison("p", Equals, "x AND y"), {"p"});
  }

  lemma UnterminatedInvalid(l: Language)
    ensures Tokens(l, "p = 'x").None? && Tokens(l, "y'").None?
  {
    hide Tokens, Run;
    WordToken(l, "p");
    OperatorToken(l, Equals);
    OpenSecond(l, "p", "=", "x");
    assert "p" + " " + "=" + " " + ("'" + "x") == "p = 'x";
    OpenAfterWord(l);
  }

  lemma OpenSecond(l: Language, name: string, op: string, rest: string)
    requires Tokens(l, name).Some? && Tokens(l, op).Some? && '\'' !in rest
    ensures Tokens(l, name + " " + op + " " + ("'" + rest)).None?
  {
    hide *;
    OpenQuote(l, rest);
    Then(l, name, op);
    Then(l, name + " " + op, "'" + rest);
  }

  lemma OpenAfterWord(l: Language)
    ensures Tokens(l, "y'").None?
  {
    OpenQuote(l, "");
    var text := "y'";
    assert text[1..] == "'" + "" && Run(text[1..]) == 0;
    TakeToken(l, text);
  }

  lemma OpenQuote(l: Language, rest: string)
    requires '\'' !in rest
    ensures Tokens(l, "'" + rest).None?
  {
    NoEnd("'" + rest, 1);
    TakeToken(l, "'" + rest);
  }

  lemma {:induction false} NoEnd(text: string, i: nat)
    requires forall k | i <= k < |text| :: text[k] != '\''
    ensures StringEnd(text, i).None?
    decreases |text| - i
  {
    if i < |text| { NoEnd(text, i + 1); }
  }

  lemma JoinedInvalid(l: Language)
    ensures AllOf(l, ["p = 'x", "y'"]) == Print(Comparison("p", Equals, "x AND y"))
  {
    var a, b := "p = 'x", "y'";
    hide Print;
    assert a[0] == 'p' && b[0] == 'y' && a[0] in a && b[0] in b && IdentChar('p') && IdentChar('y');
    AllOfTwo(l, a, b);
    PlainPrint("x AND y");
  }

  lemma PlainPrint(value: string)
    requires '\'' !in value
    ensures Print(Comparison("p", Equals, value)) == "p = '" + value + "'"
  {
    DoublePlain(value);
    hide Double;
    assert "p" + " " + "=" + " " + "'" == "p = '";
    assert "p" + " " + "=" + " " + ("'" + value + "'") == ("p" + " " + "=" + " " + "'") + value + "'";
  }

  lemma AllOfTwo(l: Language, a: string, b: string)
    requires !Blank(l, a) && !Blank(l, b)
    ensures AllOf(l, [a, b]) == a + " AND " + b
  {
    var none: seq<string> := [];
    assert [b][1..] == none && [a, b][1..] == [b];
    assert NonBlank(l, [b]) == [b] + NonBlank(l, none) == [b];
    assert NonBlank(l, [a, b]) == [a] + NonBlank(l, [b]) == [a, b];
    assert Join([b]) == b && Join([a, b]) == a + " AND " + Join([b]);
  }

  lemma {:induction false} DoublePlain(value: string)
    requires '\'' !in value
    ensures Double(value) == value
  {
    if value != "" { DoublePlain(value[1..]); }
  }

  // -- Round trips -------------------------------------------------------------------------

  /** What the parser asks of one comparison. */
  predicate Readable(c: Comparison, allowed: set<string>) {
    !Keyword(c.property) && c.property in allowed && (c.operator == LikeOp ==> !EndsUnpaired(c.value))
  }

  lemma SpellsItself(word: string)
    requires forall i | 0 <= i < |word| :: 'A' <= word[i] <= 'Z'
    ensures Spells(word, word)
  {
  }

  lemma TokensReadable(c: Comparison, allowed: set<string>)
    ensures ComparisonOf(TokensOf(c)[0], TokensOf(c)[1], TokensOf(c)[2], allowed)
         == if Readable(c, allowed) then Some(c) else None
  {
    hide Keyword, Spells, EndsUnpaired, Undouble, Double;
    UndoubleDouble(c.value);
    var quoted := Quote(c.value);
    assert quoted[1..|quoted| - 1] == Double(c.value);
    SpellsItself("LIKE");
    var tokens := TokensOf(c);
    assert PropertyOf(tokens[0]) == if Keyword(c.property) then None else Some(c.property);
    assert OperatorOf(tokens[1]) == Some(c.operator);
    assert LiteralOf(tokens[2]) == Some(c.value);
  }

  lemma ParseThree(c: Comparison, allowed: set<string>)
    ensures ParseTokens(TokensOf(c), allowed, true) == if Readable(c, allowed) then Some([c]) else None
  {
    TokensReadable(c, allowed);
    assert TokensOf(c)[3..] == [];
  }

  lemma PrintedParses(l: Language, c: Comparison, allowed: set<string>)
    requires Identifier(c.property)
    ensures !Blank(l, Print(c))
    ensures Parse(l, Print(c), allowed) == if Readable(c, allowed) then Some([c]) else None
  {
    PrintedTokens(l, c);
    ParseThree(c, allowed);
    assert c.property[0] in Print(c);
  }

  lemma FirstThree(c: Comparison, rest: seq<Token>, allowed: set<string>)
    requires !Readable(c, allowed)
    ensures ParseTokens(TokensOf(c) + rest, allowed, true).None?
  {
    TokensReadable(c, allowed);
  }

  /** A printed condition that starts with a comparison the parser refuses does not parse. */
  lemma FirstUnreadable(l: Language, c: Comparison, rest: string, allowed: set<string>)
    requires Identifier(c.property) && !Readable(c, allowed)
    ensures Parse(l, Print(c) + " AND " + rest, allowed).None?
  {
    hide Tokens, ParseTokens, Print, TokensOf;
    PrintedTokens(l, c);
    ThenAnd(l, Print(c), rest);
    if Tokens(l, rest).Some? {
      var more := [Token(WordKind, "AND")] + Tokens(l, rest).value;
      FirstThree(c, more, allowed);
      assert TokensOf(c) + more == TokensOf(c) + [Token(WordKind, "AND")] + Tokens(l, rest).value;
    }
  }

  /** Parsing a printed condition gives it back exactly when no property is a keyword, every
      property is one the method supports, and every LIKE pattern is valid. Otherwise the
      printed text does not parse at all. Values and patterns are arbitrary. */
  lemma {:induction false} RoundTrip(l: Language, cs: seq<Comparison>, allowed: set<string>)
    requires forall c <- cs :: Identifier(c.property)
    ensures Parse(l, PrintAll(cs), allowed) ==
            if forall c <- cs :: Readable(c, allowed) then Some(cs) else None
  {
    if |cs| == 1 {
      PrintedParses(l, cs[0], allowed);
      assert Readable(cs[0], allowed) ==> cs == [cs[0]];
      assert cs[0] in cs && forall c <- cs :: c == cs[0];
    } else if |cs| > 1 {
      assert cs == [cs[0]] + cs[1..];
      PrintRest(l, cs);
      if Readable(cs[0], allowed) {
        RoundTrip(l, cs[1..], allowed);
        PrintedParses(l, cs[0], allowed);
        JoinTwo(l, Print(cs[0]), PrintAll(cs[1..]), allowed);
      } else {
        FirstUnreadable(l, cs[0], PrintAll(cs[1..]), allowed);
        assert cs[0] in cs;
      }
    }
  }

  lemma PrintRest(l: Language, cs: seq<Comparison>)
    requires |cs| > 1 && forall c <- cs :: Identifier(c.property)
    ensures PrintAll(cs) == Print(cs[0]) + " AND " + PrintAll(cs[1..])
    ensures !Blank(l, PrintAll(cs[1..]))
  {
    var texts := seq(|cs|, i requires 0 <= i < |cs| => Print(cs[i]));
    var rest := seq(|cs[1..]|, i requires 0 <= i < |cs[1..]| => Print(cs[1..][i]));
    assert texts[1..] == rest;
    forall t <- rest ensures !Blank(l, t) {
      var i :| 0 <= i < |rest| && rest[i] == t;
      assert cs[i + 1] in cs;
      PrintedParses(l, cs[1..][i], {});
    }
    JoinBlank(l, rest);
  }

  /** What the parser returns: properties of the supported set, patterns that are valid. */
  lemma {:induction false} ParsedIsAllowed(tokens: seq<Token>, allowed: set<string>, first: bool)
    requires ParseTokens(tokens, allowed, first).Some?
    ensures forall c <- ParseTokens(tokens, allowed, first).value ::
              c.property in allowed && (c.operator == LikeOp ==> !EndsUnpaired(c.value))
    decreases |tokens|
  {
    if tokens != [] {
      var at := if first then 0 else 1;
      ParsedIsAllowed(tokens[at + 3..], allowed, false);
    }
  }
}
