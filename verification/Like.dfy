/** The translation of a LIKE pattern into an anchored regular expression. */
module Like {
  import opened Wrappers

  /** A list put before the list another step finds, if it finds one. */
  function Prepend<T>(s: seq<T>, more: Option<seq<T>>): (r: Option<seq<T>>)
    ensures r.None? <==> more.None?
    ensures s == [] ==> r == more
    ensures more == Some([]) ==> r == Some(s)
  {
    match more
    case None => None
    case Some(rest) =>
      assert [] + rest == rest && s + [] == s;
      Some(s + rest)
  }

  lemma PrependTwice<T>(s: seq<T>, t: seq<T>, more: Option<seq<T>>)
    ensures Prepend(s, Prepend(t, more)) == Prepend(s + t, more)
  {
    if more.Some? { assert s + (t + more.value) == (s + t) + more.value; }
  }

  // -- What a pattern describes ----------------------------------------------------------

  /** The pattern ends in a backslash that escapes nothing. */
  predicate EndsUnpaired(pattern: string) {
    if pattern == "" then false
    else if pattern[0] == '\\' then |pattern| == 1 || EndsUnpaired(pattern[2..])
    else EndsUnpaired(pattern[1..])
  }

  /** The strings a pattern describes: `%` any run, `_` one character, a backslash makes
      the next character literal, and any other character is itself. */
  predicate Describes(pattern: string, s: string)
    requires !EndsUnpaired(pattern)
    decreases |pattern|
  {
    if pattern == "" then s == ""
    else if pattern[0] == '\\' then s != "" && s[0] == pattern[1] && Describes(pattern[2..], s[1..])
    else if pattern[0] == '%' then exists k | 0 <= k <= |s| :: Describes(pattern[1..], s[k..])
    else if pattern[0] == '_' then s != "" && Describes(pattern[1..], s[1..])
    else s != "" && s[0] == pattern[0] && Describes(pattern[1..], s[1..])
  }

  // -- Regular expressions ---------------------------------------------------------------

  /** The fragment of the regular expression syntax that the translation uses. */
  datatype Atom = Literal(c: char) | AnyOne | AnyRun

  predicate IsSyntax(c: char) {
    c in {'.', '*', '+', '?', '^', '$', '{', '}', '(', ')', '|', '[', ']', '\\', '/'}
  }

  /** Read an expression of the fragment: a syntax character is literal only when it is
      escaped, and only the dot takes a star. */
  function Read(source: string): Option<seq<Atom>>
  {
    if source == "" then Some([])
    else if source[0] == '\\' then
      if |source| > 1 && IsSyntax(source[1]) then Prepend([Literal(source[1])], Read(source[2..])) else None
    else if source[0] == '.' then
      if |source| > 1 && source[1] == '*' then Prepend([AnyRun], Read(source[2..]))
      else Prepend([AnyOne], Read(source[1..]))
    else if IsSyntax(source[0]) then None
    else Prepend([Literal(source[0])], Read(source[1..]))
  }

  predicate AtomAccepts(atom: Atom, piece: string) {
    match atom
    case Literal(c) => piece == [c]
    case AnyOne => |piece| == 1
    case AnyRun => true
  }

  function Flat(pieces: seq<string>): string {
    if pieces == [] then "" else pieces[0] + Flat(pieces[1..])
  }

  /** The pieces split `s` into one match for every atom. */
  ghost predicate Splits(atoms: seq<Atom>, s: string, pieces: seq<string>) {
    && |pieces| == |atoms| && Flat(pieces) == s
    && forall i | 0 <= i < |atoms| :: AtomAccepts(atoms[i], pieces[i])
  }

  /** The anchored expression accepts exactly the strings that split into its atoms. */
  ghost predicate Accepts(atoms: seq<Atom>, s: string) {
    exists pieces :: Splits(atoms, s, pieces)
  }

  // -- The translation -------------------------------------------------------------------

  function EscapeRegExp(c: char): string {
    if IsSyntax(c) then ['\\', c] else [c]
  }

  /** What one unescaped character of a pattern becomes. */
  function Translated(c: char): string {
    if c == '%' then ".*" else if c == '_' then "." else EscapeRegExp(c)
  }

  /** The source that the rest of a pattern adds. */
  function Source(pattern: string): string
    requires !EndsUnpaired(pattern)
  {
    if pattern == "" then ""
    else if pattern[0] == '\\' then EscapeRegExp(pattern[1]) + Source(pattern[2..])
    else Translated(pattern[0]) + Source(pattern[1..])
  }

  lemma ConsumeEscaped(pattern: string, text: string)
    requires |pattern| > 1 && pattern[0] == '\\'
    ensures EndsUnpaired(pattern) == EndsUnpaired(pattern[2..])
    ensures !EndsUnpaired(pattern) ==>
              text + Source(pattern) == text + EscapeRegExp(pattern[1]) + Source(pattern[2..])
  {
  }

  lemma ConsumePlain(pattern: string, text: string)
    requires pattern != "" && pattern[0] != '\\'
    ensures EndsUnpaired(pattern) == EndsUnpaired(pattern[1..])
    ensures !EndsUnpaired(pattern) ==>
              text + Source(pattern) == text + Translated(pattern[0]) + Source(pattern[1..])
  {
  }

  /** The loop of `likeRegExp`: None is the ConditionError. */
  method LikeRegExp(pattern: string) returns (source: Option<string>)
    ensures source == if EndsUnpaired(pattern) then None else Some(Source(pattern))
  {
    var text, escaped := "", false;
    ghost var i: nat := 0;
    for n := 0 to |pattern|
      invariant i == if escaped then n - 1 else n
      invariant escaped ==> n > 0 && pattern[n - 1] == '\\'
      invariant EndsUnpaired(pattern) <==> EndsUnpaired(pattern[i..])
      invariant !EndsUnpaired(pattern) ==> Source(pattern) == text + Source(pattern[i..])
    {
      var character := pattern[n];
      if escaped {
        ConsumeEscaped(pattern[i..], text);
        assert pattern[i..][2..] == pattern[n + 1..];
        text := text + EscapeRegExp(character);
        escaped := false;
        i := n + 1;
      } else if character == '\\' {
        escaped := true;
      } else {
        ConsumePlain(pattern[i..], text);
        assert pattern[i..][1..] == pattern[n + 1..];
        if character == '%' {
          text := text + ".*";
        } else if character == '_' {
          text := text + ".";
        } else {
          text := text + EscapeRegExp(character);
        }
        i := n + 1;
      }
    }
    assert escaped ==> pattern[i..] == "\\";
    assert !escaped ==> pattern[i..] == "" && text + "" == text;
    source := if escaped then None else Some(text);
  }

  // -- The translation keeps the meaning -------------------------------------------------

  lemma ReadEscaped(c: char, rest: string)
    ensures Read(EscapeRegExp(c) + rest) == Prepend([Literal(c)], Read(rest))
  {
    assert (EscapeRegExp(c) + rest)[|EscapeRegExp(c)|..] == rest;
  }

  lemma SourceStart(pattern: string)
    requires !EndsUnpaired(pattern)
    ensures Source(pattern) != "" ==> Source(pattern)[0] != '*'
  {
  }

  /** The first atom of a pattern, with what is left of the pattern. */
  predicate FirstAtom(pattern: string, atom: Atom, rest: string) {
    if pattern == "" then false
    else if pattern[0] == '\\' then |pattern| > 1 && atom == Literal(pattern[1]) && rest == pattern[2..]
    else
      && rest == pattern[1..]
      && atom == if pattern[0] == '%' then AnyRun else if pattern[0] == '_' then AnyOne else Literal(pattern[0])
  }

  lemma ReadsFirst(pattern: string, atom: Atom, rest: string)
    requires !EndsUnpaired(pattern) && FirstAtom(pattern, atom, rest)
    ensures !EndsUnpaired(rest) && Read(Source(pattern)) == Prepend([atom], Read(Source(rest)))
  {
    if atom.Literal? {
      ReadEscaped(atom.c, Source(rest));
    } else {
      SourceStart(rest);
      assert (Translated(pattern[0]) + Source(rest))[|Translated(pattern[0])|..] == Source(rest);
    }
  }

  /** Some start of a string is a match for an atom, and the expression accepts the rest. */
  ghost predicate Takes(atom: Atom, atoms: seq<Atom>, s: string) {
    exists k: nat :: TakesAt(atom, atoms, s, k)
  }

  ghost predicate TakesAt(atom: Atom, atoms: seq<Atom>, s: string, k: nat) {
    k <= |s| && AtomAccepts(atom, s[..k]) && Accepts(atoms, s[k..])
  }

  lemma AcceptsCons(atom: Atom, atoms: seq<Atom>, s: string)
    ensures Accepts([atom] + atoms, s) <==> Takes(atom, atoms, s)
  {
    if Accepts([atom] + atoms, s) {
      var pieces :| Splits([atom] + atoms, s, pieces);
      var k := |pieces[0]|;
      assert s == pieces[0] + Flat(pieces[1..]);
      assert s[..k] == pieces[0] && s[k..] == Flat(pieces[1..]);
      assert AtomAccepts(atom, s[..k]) by { assert AtomAccepts(([atom] + atoms)[0], pieces[0]); }
      assert Splits(atoms, s[k..], pieces[1..]) by {
        forall i | 0 <= i < |atoms| ensures AtomAccepts(atoms[i], pieces[1..][i]) {
          assert AtomAccepts(([atom] + atoms)[i + 1], pieces[i + 1]);
        }
      }
      assert TakesAt(atom, atoms, s, k);
    }
    if k: nat :| TakesAt(atom, atoms, s, k) {
      var pieces :| Splits(atoms, s[k..], pieces);
      assert ([s[..k]] + pieces)[1..] == pieces;
      assert Splits([atom] + atoms, s, [s[..k]] + pieces);
    }
  }

  lemma TakesOne(atom: Atom, atoms: seq<Atom>, s: string)
    requires !atom.AnyRun?
    ensures Takes(atom, atoms, s) <==> s != "" && (atom.AnyOne? || atom == Literal(s[0])) && Accepts(atoms, s[1..])
  {
    if k: nat :| TakesAt(atom, atoms, s, k) {
      assert k == 1;
      assert s[..1] == [s[0]];
    }
    if s != "" && (atom.AnyOne? || atom == Literal(s[0])) && Accepts(atoms, s[1..]) {
      assert s[..1] == [s[0]];
      assert TakesAt(atom, atoms, s, 1);
    }
  }

  /** One atom takes from a string what the first element of the pattern describes. */
  lemma AtomDescribes(pattern: string, s: string, atom: Atom, atoms: seq<Atom>, rest: string)
    requires !EndsUnpaired(pattern) && FirstAtom(pattern, atom, rest) && !EndsUnpaired(rest)
    requires forall k: nat | k <= |s| :: Accepts(atoms, s[k..]) <==> Describes(rest, s[k..])
    ensures Describes(pattern, s) <==> Takes(atom, atoms, s)
  {
    if !atom.AnyRun? {
      TakesOne(atom, atoms, s);
    } else {
      if k: nat :| TakesAt(atom, atoms, s, k) {
        assert Describes(rest, s[k..]);
      }
      if Describes(pattern, s) {
        var k: nat :| k <= |s| && Describes(pattern[1..], s[k..]);
        assert TakesAt(atom, atoms, s, k);
      }
    }
  }

  /** The source always reads back as an expression, and it accepts exactly the strings the
      pattern describes. */
  lemma {:induction false} TranslationKeepsMeaning(pattern: string, s: string)
    requires !EndsUnpaired(pattern)
    ensures Read(Source(pattern)).Some?
    ensures Accepts(Read(Source(pattern)).value, s) <==> Describes(pattern, s)
    decreases |pattern|
  {
    if pattern == "" {
      assert Splits([], "", []);
    } else {
      var escape := pattern[0] == '\\';
      var rest := if escape then pattern[2..] else pattern[1..];
      var atom := if escape then Literal(pattern[1])
                  else if pattern[0] == '%' then AnyRun
                  else if pattern[0] == '_' then AnyOne
                  else Literal(pattern[0]);
      ReadsFirst(pattern, atom, rest);
      TranslationKeepsMeaning(rest, s);
      var atoms := Read(Source(rest)).value;
      forall k: nat | k <= |s| ensures Accepts(atoms, s[k..]) <==> Describes(rest, s[k..]) {
        TranslationKeepsMeaning(rest, s[k..]);
      }
      AcceptsCons(atom, atoms, s);
      AtomDescribes(pattern, s, atom, atoms, rest);
    }
  }

  /** A value written so that every character is literal. */
  function EscapeValue(value: string): string {
    if value == "" then "" else ['\\', value[0]] + EscapeValue(value[1..])
  }

  /** A fully escaped value is a valid pattern and matches only itself. */
  lemma {:induction false} EscapedValueMatchesItself(value: string, s: string)
    ensures !EndsUnpaired(EscapeValue(value))
    ensures Describes(EscapeValue(value), s) <==> s == value
  {
    if value != "" {
      var pattern := EscapeValue(value);
      assert pattern[2..] == EscapeValue(value[1..]);
      EscapedValueMatchesItself(value[1..], if s == "" then "" else s[1..]);
      if s != "" {
        assert s == [s[0]] + s[1..] && value == [value[0]] + value[1..];
      }
    }
  }
}
