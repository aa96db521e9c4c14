/** The filter language of every `condition` parameter: tokens, parser and printer.

    The TypeScript and the Python module are one program but for the characters they count
    as white space, so every function takes those as a parameter. */
module Condition {
  import opened Wrappers
  import opened Like

  // -- White space -----------------------------------------------------------------------

  predicate IdentStart(c: char) {
    'A' <= c <= 'Z' || 'a' <= c <= 'z' || c == '_' || c == ':'
  }

  predicate IdentChar(c: char) {
    IdentStart(c) || '0' <= c <= '9' || c == '.'
  }

  /** The characters `\s` matches and `trim` or `strip` removes. The proofs only need that
      the space is one of them and that no character of a token is. */
  predicate SpaceSet(spaces: set<char>) {
    ' ' in spaces && forall c <- spaces :: !IdentChar(c) && c != '\'' && c != '"' && c != '='
  }

  datatype AnyLanguage = Language(spaces: set<char>)
  type Language = l: AnyLanguage | SpaceSet(l.spaces) witness Language({' '})

  const COMMON_SPACES: set<char> := {
    '\t', '\n', '\U{000B}', '\U{000C}', '\r', ' ', '\U{00A0}', '\U{1680}', '\U{2000}', '\U{2001}', '\U{2002}',
    '\U{2003}', '\U{2004}', '\U{2005}', '\U{2006}', '\U{2007}', '\U{2008}', '\U{2009}', '\U{200A}', '\U{2028}',
    '\U{2029}', '\U{202F}', '\U{205F}', '\U{3000}'}

  const TYPESCRIPT: Language := Language(COMMON_SPACES + {'\U{FEFF}'})
  const PYTHON: Language := Language(COMMON_SPACES + {'\U{0085}', '\U{001C}', '\U{001D}', '\U{001E}', '\U{001F}'})

  predicate IsSpace(l: Language, c: char) {
    c in l.spaces
  }

  predicate Blank(l: Language, text: string) {
    forall c <- text :: IsSpace(l, c)
  }

  // -- Tokens ----------------------------------------------------------------------------

  predicate Identifier(name: string) {
    name != "" && IdentStart(name[0]) && forall c <- name :: IdentChar(c)
  }

  datatype Kind = StringKind | QuotedKind | WordKind | EqualsKind
  datatype Token = Token(kind: Kind, text: string)

  /** How many identifier characters a text starts with. */
  function Run(text: string): (n: nat)
    ensures n <= |text|
  {
    if text != "" && IdentChar(text[0]) then 1 + Run(text[1..]) else 0
  }

  /** Where the string literal that is open before `i` ends. The pattern takes a doubled
      quote as long as it can, and gives the last one back when no closing quote follows. */
  function StringEnd(text: string, i: nat): (end: Option<nat>)
    ensures end.Some? ==> i < end.value <= |text|
    decreases |text| - i
  {
    if i >= |text| then None
    else if text[i] != '\'' then StringEnd(text, i + 1)
    else if i + 1 < |text| && text[i + 1] == '\'' then
      match StringEnd(text, i + 2)
      case Some(end) => Some(end)
      case None => Some(i + 1)
    else Some(i + 1)
  }

  /** The token a text starts with, or None where the pattern only finds a character that
      belongs to no token. */
  function NextToken(text: string): (token: Option<Token>)
    requires text != ""
    ensures token.Some? ==> 0 < |token.value.text| <= |text| && token.value.text == text[..|token.value.text|]
  {
    if text[0] == '\'' then
      match StringEnd(text, 1)
      case Some(end) => Some(Token(StringKind, text[..end]))
      case None => None
    else if text[0] == '"' then
      var n := Run(text[1..]);
      if n > 0 && IdentStart(text[1]) && n + 1 < |text| && text[n + 1] == '"'
      then Some(Token(QuotedKind, text[..n + 2])) else None
    else if IdentStart(text[0]) then Some(Token(WordKind, text[..Run(text)]))
    else if text[0] == '=' then Some(Token(EqualsKind, text[..1]))
    else None
  }

  function Tokens(l: Language, text: string): Option<seq<Token>>
    decreases |text|
  {
    if Blank(l, text) then Some([])
    else if IsSpace(l, text[0]) then Tokens(l, text[1..])
    else if NextToken(text).None? then None
    else Prepend([NextToken(text).value], Tokens(l, text[|NextToken(text).value.text|..]))
  }

  /** A text that starts with no space starts with a token, or has none. */
  lemma TakeToken(l: Language, text: string)
    requires text != "" && !IsSpace(l, text[0])
    ensures !Blank(l, text)
    ensures Tokens(l, text) == if NextToken(text).None? then None
                               else Prepend([NextToken(text).value], Tokens(l, text[|NextToken(text).value.text|..]))
  {
    assert text[0] in text;
  }

  lemma SkipSpace(l: Language, text: string)
    requires text != "" && IsSpace(l, text[0])
    ensures Tokens(l, text) == Tokens(l, text[1..])
  {
    assert text == [text[0]] + text[1..];
    assert Blank(l, text[1..]) ==> Blank(l, text);
  }

  /** The white space the pattern skips before a token. */
  method SkipSpaces(l: Language, text: string, position: nat) returns (start: nat)
    requires position < |text| && !Blank(l, text[position..])
    ensures position <= start < |text| && !IsSpace(l, text[start])
    ensures Tokens(l, text[start..]) == Tokens(l, text[position..])
  {
    start := position;
    while IsSpace(l, text[start])
      invariant position <= start < |text| && !Blank(l, text[start..])
      invariant Tokens(l, text[start..]) == Tokens(l, text[position..])
      decreases |text| - start
    {
      SkipSpace(l, text[start..]);
      assert text[start..][1..] == text[start + 1..];
      assert text[start..] == [text[start]] + text[start + 1..];
      start := start + 1;
    }
  }

  /** The loop of `tokenize`: None is the ConditionError. */
  method Tokenize(l: Language, text: string) returns (tokens: Option<seq<Token>>)
    ensures tokens == Tokens(l, text)
  {
    var found: seq<Token> := [];
    var position := 0;
    assert text[0..] == text;
    while position < |text| && !Blank(l, text[position..])
      invariant position <= |text|
      invariant Tokens(l, text) == Prepend(found, Tokens(l, text[position..]))
    {
      var start := SkipSpaces(l, text, position);
      var rest := text[start..];
      TakeToken(l, rest);
      var token := NextToken(rest);
      if token.None? { return None; }
      var after := start + |token.value.text|;
      assert rest[|token.value.text|..] == text[after..];
      PrependTwice(found, [token.value], Tokens(l, text[after..]));
      found := found + [token.value];
      position := after;
    }
    assert position == |text| ==> text[position..] == "";
    return Some(found);
  }

  // -- Comparisons -----------------------------------------------------------------------

  datatype Operator = Equals | LikeOp
  datatype Comparison = Comparison(property: string, operator: Operator, value: string)

  function UpperChar(c: char): char {
    if 'a' <= c <= 'z' then c - ' ' else c
  }

  /** A word in any case, written in upper case here. */
  predicate Spells(text: string, word: string) {
    |text| == |word| && forall i | 0 <= i < |word| :: UpperChar(text[i]) == word[i]
  }

  predicate Keyword(text: string) {
    Spells(text, "AND") || Spells(text, "LIKE") || Spells(text, "OR") || Spells(text, "NOT")
  }

  predicate IsAnd(token: Token) {
    token.kind == WordKind && Spells(token.text, "AND")
  }

  /** A literal without its quotes, each doubled quote read as one. */
  function Undouble(text: string): string {
    if text == "" then ""
    else if |text| > 1 && text[0] == '\'' && text[1] == '\'' then "'" + Undouble(text[2..])
    else [text[0]] + Undouble(text[1..])
  }

  function PropertyOf(token: Token): Option<string> {
    match token.kind
    case QuotedKind => if |token.text| >= 2 then Some(token.text[1..|token.text| - 1]) else None
    case WordKind => if Keyword(token.text) then None else Some(token.text)
    case _ => None
  }

  function OperatorOf(token: Token): Option<Operator> {
    if token.kind == EqualsKind then Some(Equals)
    else if token.kind == WordKind && Spells(token.text, "LIKE") then Some(LikeOp)
    else None
  }

  function LiteralOf(token: Token): Option<string> {
    if token.kind == StringKind && |token.text| >= 2
    then Some(Undouble(token.text[1..|token.text| - 1])) else None
  }

  function ComparisonOf(property: Token, operator: Token, literal: Token, allowed: set<string>): Option<Comparison> {
    match (PropertyOf(property), OperatorOf(operator), LiteralOf(literal))
    case (Some(name), Some(op), Some(value)) =>
      if name in allowed && (op == LikeOp ==> !EndsUnpaired(value)) then Some(Comparison(name, op, value)) else None
    case _ => None
  }

  /** The comparisons of a token list. After the first one, AND comes before each. */
  function ParseTokens(tokens: seq<Token>, allowed: set<string>, first: bool): Option<seq<Comparison>>
    decreases |tokens|
  {
    if tokens == [] then Some([])
    else if !first && !IsAnd(tokens[0]) then None
    else
      var at := if first then 0 else 1;
      if at + 3 > |tokens| then None
      else
        match ComparisonOf(tokens[at], tokens[at + 1], tokens[at + 2], allowed)
        case None => None
        case Some(comparison) => Prepend([comparison], ParseTokens(tokens[at + 3..], allowed, false))
  }

  function Parse(l: Language, text: string, allowed: set<string>): Option<seq<Comparison>> {
    match Tokens(l, text)
    case None => None
    case Some(tokens) => ParseTokens(tokens, allowed, true)
  }

  /** The loop of `parseCondition`: None is the ConditionError. */
  method ParseCondition(l: Language, text: string, allowed: set<string>) returns (condition: Option<seq<Comparison>>)
    ensures condition == Parse(l, text, allowed)
  {
    var read := Tokenize(l, text);
    if read.None? { return None; }
    var tokens := read.value;
    var comparisons: seq<Comparison> := [];
    var index := 0;
    assert tokens[0..] == tokens;
    while index < |tokens|
      invariant index <= |tokens|
      invariant ParseTokens(tokens, allowed, true) ==
                Prepend(comparisons, ParseTokens(tokens[index..], allowed, comparisons == []))
    {
      if comparisons != [] {
        if !IsAnd(tokens[index]) { return None; }
        index := index + 1;
      }
      if index + 3 > |tokens| { return None; }
      var name := PropertyOf(tokens[index]);
      if name.None? || name.value !in allowed { return None; }
      var op := OperatorOf(tokens[index + 1]);
      if op.None? { return None; }
      var value := LiteralOf(tokens[index + 2]);
      if value.None? { return None; }
      if op.value == LikeOp {
        var source := LikeRegExp(value.value);
        if source.None? { return None; }
      }
      PrependTwice(comparisons, [Comparison(name.value, op.value, value.value)],
                   ParseTokens(tokens[index + 3..], allowed, false));
      comparisons := comparisons + [Comparison(name.value, op.value, value.value)];
      index := index + 3;
    }
    assert tokens[index..] == [];
    return Some(comparisons);
  }

  // -- Writing ---------------------------------------------------------------------------

  function Double(value: string): string {
    if value == "" then ""
    else (if value[0] == '\'' then "''" else [value[0]]) + Double(value[1..])
  }

  function Quote(value: string): string {
    "'" + Double(value) + "'"
  }

  function OperatorText(op: Operator): string {
    if op == Equals then "=" else "LIKE"
  }

  function Print(c: Comparison): string {
    c.property + " " + OperatorText(c.operator) + " " + Quote(c.value)
  }

  function Join(texts: seq<string>): string {
    if texts == [] then ""
    else if |texts| == 1 then texts[0]
    else texts[0] + " AND " + Join(texts[1..])
  }

  function PrintAll(cs: seq<Comparison>): string {
    Join(seq(|cs|, i requires 0 <= i < |cs| => Print(cs[i])))
  }

  function NonBlank(l: Language, texts: seq<string>): seq<string> {
    if texts == [] then []
    else (if Blank(l, texts[0]) then [] else [texts[0]]) + NonBlank(l, texts[1..])
  }

  function AllOf(l: Language, conditions: seq<string>): string {
    Join(NonBlank(l, conditions))
  }
}
