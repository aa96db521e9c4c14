/** The grammar of the condition language: exactly which texts parse, and to what. */
module ConditionGrammar {
  import opened Wrappers
  import opened Like
  import opened Condition
  import opened ConditionProofs

  // -- The grammar -----------------------------------------------------------------------

  /** A word in any mixture of upper and lower case. */
  predicate Cased(text: string, upper: string, lower: string)
    requires |upper| == |lower|
  {
    |text| == |upper| && forall i | 0 <= i < |text| :: text[i] == upper[i] || text[i] == lower[i]
  }

  predicate Reserved(text: string) {
    Cased(text, "AND", "and") || Cased(text, "LIKE", "like") || Cased(text, "OR", "or") || Cased(text, "NOT", "not")
  }

  /** A property is an identifier, bare unless it is reserved, or in double quotes. */
  predicate WritesProperty(text: string, property: string) {
    Identifier(property) && (text == "\"" + property + "\"" || (text == property && !Reserved(property)))
  }

  predicate WritesOperator(text: string, operator: Operator) {
    if operator == Equals then text == "=" else Cased(text, "LIKE", "like")
  }

  /** A value stands in single quotes, with each single quote in it doubled. */
  predicate WritesValue(text: string, value: string) {
    text == "'" + Double(value) + "'"
  }

  predicate WritesOne(texts: seq<string>, c: Comparison)
    requires |texts| == 3
  {
    WritesProperty(texts[0], c.property) && WritesOperator(texts[1], c.operator) && WritesValue(texts[2], c.value)
  }

  /** The words and signs of some comparisons, with AND between them. */
  ghost predicate Writes(texts: seq<string>, cs: seq<Comparison>)
    decreases |cs|
  {
    if cs == [] then texts == []
    else
      && |texts| >= 3 && WritesOne(texts[..3], cs[0])
      && if |cs| == 1 then |texts| == 3
         else |texts| > 3 && Cased(texts[3], "AND", "and") && Writes(texts[4..], cs[1..])
  }

  /** The property is one the caller supports, and a pattern does not end in an open escape. */
  predicate Supported(c: Comparison, allowed: set<string>) {
    c.property in allowed && (c.operator == LikeOp ==> !EndsUnpaired(c.value))
  }

  /** A word or sign, and the white space before it. */
  datatype Piece = Piece(gap: string, text: string)

  function Text(pieces: seq<Piece>, tail: string): string {
    if pieces == [] then tail else pieces[0].gap + pieces[0].text + Text(pieces[1..], tail)
  }

  function Texts(pieces: seq<Piece>): (texts: seq<string>)
    ensures |texts| == |pieces|
  {
    seq(|pieces|, i requires 0 <= i < |pieces| => pieces[i].text)
  }

  /** Two texts that would read as one without white space between them. */
  predicate Glued(a: string, b: string) {
    a != "" && b != "" && ((IdentChar(a[|a| - 1]) && IdentChar(b[0])) || (a[0] == '\'' && b[0] == '\''))
  }

  predicate Spaced(l: Language, pieces: seq<Piece>, tail: string) {
    && Blank(l, tail) && (forall i | 0 <= i < |pieces| :: Blank(l, pieces[i].gap))
    && (forall i | 0 < i < |pieces| :: pieces[i].gap == "" ==> !Glued(pieces[i - 1].text, pieces[i].text))
  }

  // -- Tokens ----------------------------------------------------------------------------

  function KindOf(text: string): Kind {
    if text == "" then WordKind
    else if text[0] == '\'' then StringKind else if text[0] == '"' then QuotedKind
    else if text[0] == '=' then EqualsKind else WordKind
  }

  ghost predicate Proper(text: string) {
    text != "" && match KindOf(text)
    case StringKind => exists value :: text == Quote(value)
    case QuotedKind => exists name :: Identifier(name) && text == "\"" + name + "\""
    case EqualsKind => text == "="
    case WordKind => Identifier(text)
  }

  function TokenOf(text: string): Token {
    Token(KindOf(text), text)
  }

  lemma WordThen(name: string, b: string)
    requires Identifier(name) && (b == "" || !IdentChar(b[0]))
    ensures NextToken(name + b) == Some(Token(WordKind, name))
  {
    RunIdentifier(name);
    RunAppend(name, b);
    assert (name + b)[..|name|] == name;
  }

  lemma QuotedThen(name: string, b: string)
    requires Identifier(name)
    ensures NextToken("\"" + name + "\"" + b) == Some(Token(QuotedKind, "\"" + name + "\""))
  {
    var text := "\"" + name + "\"" + b;
    RunIdentifier(name);
    RunAppend(name, "\"" + b);
    assert text[1..] == name + ("\"" + b);
    assert text[..|name| + 2] == "\"" + name + "\"";
  }

  lemma LiteralThen(value: string, b: string)
    requires b == "" || b[0] != '\''
    ensures NextToken(Quote(value) + b) == Some(Token(StringKind, Quote(value)))
  {
    DoubledEnd("'", value);
    CleanEndAppend(Quote(value), b, 1);
    assert (Quote(value) + b)[..|Quote(value)|] == Quote(value);
  }

  /** A proper token is read as itself before anything it is not glued to. */
  lemma TokenThen(l: Language, t: string, b: string)
    requires Proper(t) && !Glued(t, b)
    ensures !IsSpace(l, t[0]) && Tokens(l, t + b) == Prepend([TokenOf(t)], Tokens(l, b))
  {
    hide Tokens, NextToken, Run, StringEnd, CleanEnd;
    match KindOf(t) {
      case StringKind =>
        var value :| t == Quote(value);
        LiteralThen(value, b);
      case QuotedKind =>
        var name :| Identifier(name) && t == "\"" + name + "\"";
        QuotedThen(name, b);
      case EqualsKind =>
        EqualsThen(b);
      case WordKind =>
        assert t[|t| - 1] in t;
        WordThen(t, b);
    }
    assert (t + b)[0] == t[0];
    TakeToken(l, t + b);
    assert (t + b)[|t|..] == b;
  }

  lemma EqualsThen(b: string)
    ensures NextToken("=" + b) == Some(Token(EqualsKind, "="))
  {
    assert ("=" + b)[..1] == "=";
  }

  lemma {:induction false} GapThen(l: Language, gap: string, b: string)
    requires Blank(l, gap)
    ensures Tokens(l, gap + b) == Tokens(l, b)
  {
    if gap == "" {
      assert gap + b == b;
    } else {
      assert gap[0] in gap && forall c <- gap[1..] :: c in gap;
      assert (gap + b)[1..] == gap[1..] + b;
      SkipSpace(l, gap + b);
      GapThen(l, gap[1..], b);
    }
  }

  function TokensOfAll(pieces: seq<Piece>): seq<Token> {
    if pieces == [] then [] else [TokenOf(pieces[0].text)] + TokensOfAll(pieces[1..])
  }

  /** What comes after a piece is not glued to it. */
  lemma RestIsFree(l: Language, pieces: seq<Piece>, tail: string)
    requires pieces != [] && Spaced(l, pieces, tail) && forall p <- pieces :: p.text != ""
    ensures !Glued(pieces[0].text, Text(pieces[1..], tail))
  {
    var rest := Text(pieces[1..], tail);
    if pieces[1..] == [] {
      if tail != "" { assert tail[0] in tail; }
    } else {
      var next := pieces[1];
      assert pieces[1..][0] == next;
      if next.gap != "" {
        assert next.gap[0] in next.gap && rest[0] == next.gap[0];
      } else {
        assert rest[0] == next.text[0];
      }
    }
  }

  lemma SpacedRest(l: Language, pieces: seq<Piece>, tail: string)
    requires pieces != [] && Spaced(l, pieces, tail)
    ensures Spaced(l, pieces[1..], tail) && Blank(l, pieces[0].gap)
  {
    forall i | 0 < i < |pieces[1..]| && pieces[1..][i].gap == ""
      ensures !Glued(pieces[1..][i - 1].text, pieces[1..][i].text)
    {
      assert pieces[1..][i] == pieces[i + 1] && pieces[1..][i - 1] == pieces[i];
    }
  }

  /** A spaced list of proper words and signs is read as itself. */
  lemma {:induction false} PiecesRead(l: Language, pieces: seq<Piece>, tail: string)
    requires Spaced(l, pieces, tail) && forall p <- pieces :: Proper(p.text)
    ensures Tokens(l, Text(pieces, tail)) == Some(TokensOfAll(pieces))
  {
    hide Spaced, Tokens, Proper, Glued;
    if pieces == [] {
      BlankHasNone(l, pieces, tail);
    } else {
      var rest := Text(pieces[1..], tail);
      assert Proper(pieces[0].text);
      AllNonEmpty(pieces);
      SpacedRest(l, pieces, tail);
      RestIsFree(l, pieces, tail);
      PiecesRead(l, pieces[1..], tail);
      TokenThen(l, pieces[0].text, rest);
      GapThen(l, pieces[0].gap, pieces[0].text + rest);
      assert pieces[0].gap + pieces[0].text + rest == pieces[0].gap + (pieces[0].text + rest);
    }
  }

  lemma AllNonEmpty(pieces: seq<Piece>)
    requires forall p <- pieces :: Proper(p.text)
    ensures forall p <- pieces :: p.text != ""
  {
  }

  lemma BlankHasNone(l: Language, pieces: seq<Piece>, tail: string)
    requires Spaced(l, pieces, tail)
    ensures Tokens(l, tail) == Some([])
  {
  }

  // -- Every text that is read is such a list --------------------------------------------

  lemma {:induction false} RunPrefix(text: string)
    ensures forall i | 0 <= i < Run(text) :: IdentChar(text[i])
    ensures Run(text) < |text| ==> !IdentChar(text[Run(text)])
  {
    if text != "" && IdentChar(text[0]) {
      RunPrefix(text[1..]);
      forall i | 0 <= i < Run(text) ensures IdentChar(text[i]) {
        if i > 0 { assert text[i] == text[1..][i - 1]; }
      }
    }
  }

  /** A literal that closes at its first quote that is not doubled holds the doubling of a
      value, and no other quote follows it. */
  lemma {:induction false} CleanIsQuoted(text: string, i: nat) returns (value: string)
    requires CleanEnd(text, i).Some?
    ensures var end := CleanEnd(text, i).value;
      text[i..end] == Double(value) + "'" && (end < |text| ==> text[end] != '\'')
    decreases |text| - i
  {
    var end := CleanEnd(text, i).value;
    if text[i] != '\'' {
      var rest := CleanIsQuoted(text, i + 1);
      value := [text[i]] + rest;
      assert value[1..] == rest && text[i..end] == [text[i]] + text[i + 1..end];
      assert Double(value) == [text[i]] + Double(rest);
    } else if i + 1 < |text| && text[i + 1] == '\'' {
      var rest := CleanIsQuoted(text, i + 2);
      value := "'" + rest;
      assert value[1..] == rest && text[i..end] == "''" + text[i + 2..end];
      assert Double(value) == "''" + Double(rest);
    } else {
      value := "";
      assert text[i..end] == "'";
    }
  }

  lemma QuotedIsProper(text: string)
    requires text != "" && text[0] == '"' && NextToken(text).Some?
    ensures var t := NextToken(text).value; Proper(t.text) && TokenOf(t.text) == t && !Glued(t.text, text[|t.text|..])
  {
    var t := NextToken(text).value;
    var n := Run(text[1..]);
    RunPrefix(text[1..]);
    var name := text[1..n + 1];
    assert t.text == "\"" + name + "\"";
    assert forall i | 0 <= i < |name| :: name[i] == text[1..][i];
    assert Identifier(name);
    assert t.text[0] == '"' && t.text[|t.text| - 1] == '"';
  }

  lemma WordIsProper(text: string)
    requires text != "" && IdentStart(text[0])
    ensures NextToken(text).Some?
    ensures var t := NextToken(text).value; Proper(t.text) && TokenOf(t.text) == t && !Glued(t.text, text[|t.text|..])
  {
    RunPrefix(text);
    var t := NextToken(text).value;
    assert forall i | 0 <= i < |t.text| :: t.text[i] == text[i];
    assert Identifier(t.text);
  }

  /** A token that is read is proper, and what follows is not glued to it. */
  lemma TokenIsProper(l: Language, text: string)
    requires text != "" && !IsSpace(l, text[0]) && Tokens(l, text).Some?
    ensures NextToken(text).Some?
    ensures var t := NextToken(text).value; Proper(t.text) && TokenOf(t.text) == t && !Glued(t.text, text[|t.text|..])
  {
    hide Tokens, Run, Glued;
    TakeToken(l, text);
    if text[0] == '\'' {
      LiteralIsProper(l, text);
    } else if text[0] == '"' {
      QuotedIsProper(text);
    } else if IdentStart(text[0]) {
      WordIsProper(text);
    } else {
      EqualsIsProper(text);
    }
  }

  lemma EqualsIsProper(text: string)
    requires text != "" && text[0] == '='
    ensures NextToken(text) == Some(Token(EqualsKind, "="))
    ensures Proper("=") && TokenOf("=") == Token(EqualsKind, "=") && !Glued("=", text[1..])
  {
    assert text[..1] == "=";
  }

  lemma LiteralIsProper(l: Language, text: string)
    requires text != "" && text[0] == '\'' && Tokens(l, text).Some?
    ensures NextToken(text).Some?
    ensures var t := NextToken(text).value; Proper(t.text) && TokenOf(t.text) == t && !Glued(t.text, text[|t.text|..])
  {
    TakeToken(l, text);
    if CleanEnd(text, 1).Some? {
      var value := CleanIsQuoted(text, 1);
      var end := CleanEnd(text, 1).value;
      assert text[..end] == "'" + text[1..end] == Quote(value);
    } else {
      GivenBack(l, text, 1);
      TakeToken(l, text[StringEnd(text, 1).value..]);
      assert false;
    }
  }

  lemma {:induction false} ReadIsPieces(l: Language, text: string) returns (pieces: seq<Piece>, tail: string)
    requires Tokens(l, text).Some?
    ensures Spaced(l, pieces, tail) && Text(pieces, tail) == text
    ensures (forall p <- pieces :: Proper(p.text)) && TokensOfAll(pieces) == Tokens(l, text).value
    decreases |text|
  {
    hide Proper, NextToken, Spaced, Glued;
    if Blank(l, text) {
      pieces, tail := [], text;
      NoPieces(l, text);
    } else if IsSpace(l, text[0]) {
      SkipSpace(l, text);
      assert text == [text[0]] + text[1..];
      pieces, tail := ReadIsPieces(l, text[1..]);
      if pieces == [] {
        NotBlank(l, text, tail);
      } else {
        pieces := WiderGap(l, pieces, tail, text[0]);
      }
    } else {
      TakeToken(l, text);
      TokenIsProper(l, text);
      var t := NextToken(text).value.text;
      var more, rest := ReadIsPieces(l, text[|t|..]);
      tail := rest;
      AllNonEmpty(more);
      pieces := FirstPiece(l, t, more, tail);
      assert text == t + text[|t|..];
    }
  }

  lemma NoPieces(l: Language, text: string)
    requires Blank(l, text)
    ensures Spaced(l, [], text) && Tokens(l, text) == Some([])
  {
  }

  lemma NotBlank(l: Language, text: string, tail: string)
    requires text != "" && IsSpace(l, text[0]) && tail == text[1..] && Spaced(l, [], tail)
    ensures Blank(l, text)
  {
    assert text == [text[0]] + text[1..];
  }

  lemma WiderGap(l: Language, pieces: seq<Piece>, tail: string, c: char) returns (wider: seq<Piece>)
    requires pieces != [] && Spaced(l, pieces, tail) && IsSpace(l, c) && forall p <- pieces :: Proper(p.text)
    ensures Spaced(l, wider, tail) && Text(wider, tail) == [c] + Text(pieces, tail)
    ensures (forall p <- wider :: Proper(p.text)) && TokensOfAll(wider) == TokensOfAll(pieces)
  {
    hide Proper, Glued;
    var first := Piece([c] + pieces[0].gap, pieces[0].text);
    wider := [first] + pieces[1..];
    assert wider[1..] == pieces[1..];
  }

  lemma FirstPiece(l: Language, t: string, more: seq<Piece>, tail: string) returns (pieces: seq<Piece>)
    requires Spaced(l, more, tail) && Proper(t) && !Glued(t, Text(more, tail)) && forall p <- more :: p.text != "" && Proper(p.text)
    ensures Spaced(l, pieces, tail) && Text(pieces, tail) == t + Text(more, tail)
    ensures (forall p <- pieces :: Proper(p.text)) && TokensOfAll(pieces) == [TokenOf(t)] + TokensOfAll(more)
  {
    hide Proper;
    pieces := [Piece("", t)] + more;
    assert pieces[1..] == more && "" + t == t;
    if more != [] && more[0].gap == "" { assert Text(more, tail)[0] == more[0].text[0]; }
    forall i | 0 < i < |pieces| && pieces[i].gap == "" ensures !Glued(pieces[i - 1].text, pieces[i].text) {
      if i > 1 { assert pieces[i] == more[i - 1] && pieces[i - 1] == more[i - 2]; }
    }
  }

  // -- The parser ------------------------------------------------------------------------

  lemma SpelledIff(text: string, upper: string, lower: string)
    requires |upper| == |lower|
    requires forall i | 0 <= i < |upper| :: 'A' <= upper[i] <= 'Z' && lower[i] == upper[i] + ' '
    ensures Spells(text, upper) <==> Cased(text, upper, lower)
  {
    if |text| == |upper| {
      forall i | 0 <= i < |upper| ensures UpperChar(text[i]) == upper[i] <==> text[i] == upper[i] || text[i] == lower[i] {
      }
    }
  }

  lemma KeywordIff(text: string)
    ensures Keyword(text) <==> Reserved(text)
  {
    hide Spells, Cased;
    SpelledIff(text, "AND", "and");
    SpelledIff(text, "LIKE", "like");
    SpelledIff(text, "OR", "or");
    SpelledIff(text, "NOT", "not");
  }

  lemma PropertyIff(text: string, property: string)
    requires Proper(text)
    ensures PropertyOf(TokenOf(text)) == Some(property) <==> WritesProperty(text, property)
  {
    hide Keyword, Reserved;
    KeywordIff(property);
    match KindOf(text) {
      case QuotedKind =>
        var name :| Identifier(name) && text == "\"" + name + "\"";
        assert text[1..|text| - 1] == name;
      case WordKind =>
        assert text[0] != '"';
      case _ =>
    }
  }

  lemma OperatorIff(text: string, operator: Operator)
    requires Proper(text)
    ensures OperatorOf(TokenOf(text)) == Some(operator) <==> WritesOperator(text, operator)
  {
    hide Spells;
    SpelledIff(text, "LIKE", "like");
  }

  lemma ValueIff(text: string, value: string)
    requires Proper(text)
    ensures LiteralOf(TokenOf(text)) == Some(value) <==> WritesValue(text, value)
  {
    hide Undouble, Double;
    UndoubleDouble(value);
    if KindOf(text) == StringKind {
      var v :| text == Quote(v);
      UndoubleDouble(v);
      assert text[1..|text| - 1] == Double(v);
    }
  }

  lemma AndIff(text: string)
    requires Proper(text)
    ensures IsAnd(TokenOf(text)) <==> Cased(text, "AND", "and")
  {
    hide Spells;
    SpelledIff(text, "AND", "and");
  }

  lemma OneIff(texts: seq<string>, allowed: set<string>, c: Comparison)
    requires |texts| == 3 && forall t <- texts :: Proper(t)
    ensures ComparisonOf(TokenOf(texts[0]), TokenOf(texts[1]), TokenOf(texts[2]), allowed) == Some(c)
            <==> WritesOne(texts, c) && Supported(c, allowed)
  {
    hide PropertyOf, OperatorOf, LiteralOf, WritesProperty, WritesOperator, WritesValue, Proper, EndsUnpaired;
    PropertyIff(texts[0], c.property);
    OperatorIff(texts[1], c.operator);
    ValueIff(texts[2], c.value);
  }

  function TokenSeq(texts: seq<string>): (tokens: seq<Token>)
    ensures |tokens| == |texts|
  {
    seq(|texts|, i requires 0 <= i < |texts| => TokenOf(texts[i]))
  }

  lemma {:induction false} TokensAreSeq(pieces: seq<Piece>)
    ensures TokensOfAll(pieces) == TokenSeq(Texts(pieces))
  {
    if pieces != [] {
      TokensAreSeq(pieces[1..]);
      assert Texts(pieces)[1..] == Texts(pieces[1..]);
    }
  }

  ghost predicate WritesAll(texts: seq<string>, cs: seq<Comparison>, allowed: set<string>) {
    Writes(texts, cs) && forall c <- cs :: Supported(c, allowed)
  }

  lemma {:induction false} TextsParse(texts: seq<string>, allowed: set<string>, cs: seq<Comparison>)
    requires forall t <- texts :: Proper(t)
    ensures ParseTokens(TokenSeq(texts), allowed, true) == Some(cs) <==> WritesAll(texts, cs, allowed)
    decreases |texts|
  {
    hide ComparisonOf, WritesOne, Supported, Proper, IsAnd, Cased;
    var tokens := TokenSeq(texts);
    if |texts| >= 3 && cs != [] {
      OneIff(texts[..3], allowed, cs[0]);
      assert cs == [cs[0]] + cs[1..];
      var rest := tokens[3..];
      if |texts| == 3 {
        assert rest == [];
      } else {
        AndIff(texts[3]);
        TextsParse(texts[4..], allowed, cs[1..]);
        assert rest[1..] == TokenSeq(texts[4..]) && rest == [rest[0]] + rest[1..];
        if rest[1..] != [] && IsAnd(rest[0]) { AfterAnd(rest[1..], rest[0], allowed); }
      }
    }
  }

  // -- Exactly the grammar ---------------------------------------------------------------

  lemma CasedIsWord(text: string, upper: string, lower: string)
    requires |upper| == |lower| && upper != "" && Cased(text, upper, lower)
    requires forall i | 0 <= i < |upper| :: 'A' <= upper[i] <= 'Z' && lower[i] == upper[i] + ' '
    ensures Proper(text)
  {
    forall c <- text ensures IdentChar(c) {
      var i :| 0 <= i < |text| && text[i] == c;
    }
  }

  lemma PropertyIsProper(text: string, property: string)
    requires WritesProperty(text, property)
    ensures Proper(text)
  {
  }

  lemma ValueIsProper(text: string, value: string)
    requires WritesValue(text, value)
    ensures Proper(text)
  {
    assert text == Quote(value);
  }

  lemma {:induction false} WrittenIsProper(texts: seq<string>, cs: seq<Comparison>)
    requires Writes(texts, cs)
    ensures forall t <- texts :: Proper(t)
    decreases |cs|
  {
    hide Proper, WritesProperty, WritesValue, Cased;
    if cs != [] {
      PropertyIsProper(texts[0], cs[0].property);
      if cs[0].operator == LikeOp { CasedIsWord(texts[1], "LIKE", "like"); } else { EqualsIsProper("="); }
      ValueIsProper(texts[2], cs[0].value);
      if |cs| > 1 {
        CasedIsWord(texts[3], "AND", "and");
        WrittenIsProper(texts[4..], cs[1..]);
        assert texts == texts[..4] + texts[4..];
      }
    }
  }

  /** A text that the grammar gives for some comparisons, all of them supported: with any white
      space around its words and signs, AND and LIKE in any mixture of cases, and properties
      bare or in double quotes. */
  ghost predicate Says(l: Language, text: string, cs: seq<Comparison>, allowed: set<string>) {
    exists pieces, tail :: Text(pieces, tail) == text && Spaced(l, pieces, tail) && WritesAll(Texts(pieces), cs, allowed)
  }

  /** A text the grammar gives parses to the comparisons it is given for. */
  lemma SaidParses(l: Language, pieces: seq<Piece>, tail: string, cs: seq<Comparison>, allowed: set<string>)
    requires Spaced(l, pieces, tail) && WritesAll(Texts(pieces), cs, allowed)
    ensures Parse(l, Text(pieces, tail), allowed) == Some(cs)
  {
    hide Proper, Tokens, Spaced, ParseTokens;
    WrittenIsProper(Texts(pieces), cs);
    forall p <- pieces ensures Proper(p.text) {
      var i :| 0 <= i < |pieces| && pieces[i] == p;
      assert Texts(pieces)[i] == p.text;
    }
    PiecesRead(l, pieces, tail);
    TokensAreSeq(pieces);
    TextsParse(Texts(pieces), allowed, cs);
  }

  /** A text parses to some comparisons exactly when the grammar gives it for them. */
  lemma ParsesIffSays(l: Language, text: string, cs: seq<Comparison>, allowed: set<string>)
    ensures Parse(l, text, allowed) == Some(cs) <==> Says(l, text, cs, allowed)
  {
    hide Proper, Tokens, Spaced, ParseTokens, WritesAll, Text;
    if Parse(l, text, allowed) == Some(cs) {
      var pieces, tail := ReadIsPieces(l, text);
      TokensAreSeq(pieces);
      forall t <- Texts(pieces) ensures Proper(t) {
        var i :| 0 <= i < |pieces| && Texts(pieces)[i] == t;
        assert pieces[i] in pieces;
      }
      TextsParse(Texts(pieces), allowed, cs);
    }
    forall pieces, tail | Text(pieces, tail) == text && Spaced(l, pieces, tail) && WritesAll(Texts(pieces), cs, allowed)
      ensures Parse(l, text, allowed) == Some(cs)
    {
      SaidParses(l, pieces, tail, cs, allowed);
    }
  }
}
