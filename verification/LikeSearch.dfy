/** Keyword search with SQL LIKE: `escapeLike` puts a backslash before every
    wildcard, so that the pattern finds the keyword literally. */
module LikeSearch {
  import opened Texts

  // ------------------------------------------------------------------ escaping

  predicate Special(c: char) {
    c == '%' || c == '_' || c == '\\'
  }

  function EscapedChar(c: char): string {
    if Special(c) then ['\\', c] else [c]
  }

  function Escaped(s: string): string {
    if s == [] then [] else EscapedChar(s[0]) + Escaped(s[1..])
  }

  lemma {:induction false} EscapedConcat(a: string, b: string)
    ensures Escaped(a + b) == Escaped(a) + Escaped(b)
    decreases |a|
  {
    if a == [] {
      assert a + b == b;
    } else {
      assert (a + b)[1..] == a[1..] + b;
      EscapedConcat(a[1..], b);
    }
  }

  /** `escapeLike`: appends to a buffer, one character of the input at a time. */
  method EscapeLike(s: string) returns (b: string)
    ensures b == Escaped(s)
  {
    b := [];
    for i := 0 to |s|
      invariant b == Escaped(s[..i])
    {
      assert s[..i + 1] == s[..i] + [s[i]];
      EscapedConcat(s[..i], [s[i]]);
      assert Escaped([s[i]]) == EscapedChar(s[i]) + Escaped([]);
      var c := s[i];
      if c == '%' || c == '_' || c == '\\' { b := b + ['\\']; }
      b := b + [c];
    }
    assert s[..|s|] == s;
  }

  // -------------------------------------------------------- the meaning of LIKE

  /** A pattern, read from left to right with `\` as the escape character
      (section 8.5 of ISO/IEC 9075:1992). SQLite lets a pattern that ends in a
      lone escape character match nothing. */
  datatype Token = AnyString | AnyChar | Literal(c: char) | Never

  /** The escape character must be followed by itself or by a wildcard. */
  predicate ValidPattern(p: string) {
    p == [] || (if p[0] == '\\' then |p| >= 2 && Special(p[1]) && ValidPattern(p[2..]) else ValidPattern(p[1..]))
  }

  function Tokens(p: string): seq<Token> {
    if p == [] then []
    else if p[0] == '\\' then (if |p| >= 2 then [Literal(p[1])] + Tokens(p[2..]) else [Never])
    else [if p[0] == '%' then AnyString else if p[0] == '_' then AnyChar else Literal(p[0])] + Tokens(p[1..])
  }

  /** SQLite's LIKE folds the case of ASCII letters. */
  predicate SameFolded(a: string, b: string) {
    |a| == |b| && forall i :: 0 <= i < |a| ==> Fold(a[i]) == Fold(b[i])
  }

  predicate TokenMatches(t: Token, part: string) {
    match t
    case AnyString => true
    case AnyChar => |part| == 1
    case Literal(c) => |part| == 1 && Fold(part[0]) == Fold(c)
    case Never => false
  }

  function Join(parts: seq<string>): string {
    if parts == [] then [] else parts[0] + Join(parts[1..])
  }

  predicate PartitionMatches(tokens: seq<Token>, parts: seq<string>, text: string) {
    && |parts| == |tokens|
    && Join(parts) == text
    && forall i :: 0 <= i < |tokens| ==> TokenMatches(tokens[i], parts[i])
  }

  /** LIKE holds if the text can be partitioned into substrings that correspond
      to the pattern's tokens one by one. */
  ghost predicate Like(text: string, p: string) {
    exists parts :: PartitionMatches(Tokens(p), parts, text)
  }

  /** The search itself, with backtracking at every `%`. */
  predicate Matches(tokens: seq<Token>, text: string)
    decreases |tokens|, |text|
  {
    if tokens == [] then text == []
    else match tokens[0]
      case AnyString => Matches(tokens[1..], text) || (text != [] && Matches(tokens, text[1..]))
      case AnyChar => text != [] && Matches(tokens[1..], text[1..])
      case Literal(c) => text != [] && Fold(text[0]) == Fold(c) && Matches(tokens[1..], text[1..])
      case Never => false
  }

  lemma {:induction false} MatchesHasPartition(tokens: seq<Token>, text: string) returns (parts: seq<string>)
    requires Matches(tokens, text)
    ensures PartitionMatches(tokens, parts, text)
    decreases |tokens|, |text|
  {
    if tokens == [] {
      parts := [];
    } else if tokens[0] == AnyString && !Matches(tokens[1..], text) {
      var rest := MatchesHasPartition(tokens, text[1..]);
      parts := [[text[0]] + rest[0]] + rest[1..];
      assert text == [text[0]] + text[1..];
      assert parts[1..] == rest[1..];
    } else {
      var n := if tokens[0] == AnyString then 0 else 1;
      var rest := MatchesHasPartition(tokens[1..], text[n..]);
      parts := [text[..n]] + rest;
      assert parts[1..] == rest;
      assert text == text[..n] + text[n..];
    }
  }

  lemma {:induction false} PartitionIsFound(tokens: seq<Token>, parts: seq<string>, text: string)
    requires PartitionMatches(tokens, parts, text)
    ensures Matches(tokens, text)
    decreases |tokens|, |text|
  {
    if tokens != [] {
      forall i | 0 <= i < |tokens[1..]| ensures TokenMatches(tokens[1..][i], parts[1..][i]) {
        var j := i + 1;
        assert TokenMatches(tokens[j], parts[j]);
      }
      if tokens[0] == AnyString && parts[0] != [] {
        var parts' := [parts[0][1..]] + parts[1..];
        assert parts'[1..] == parts[1..];
        assert text[1..] == Join(parts');
        PartitionIsFound(tokens, parts', text[1..]);
      } else {
        assert text[|parts[0]|..] == Join(parts[1..]);
        assert text[0..] == text;
        PartitionIsFound(tokens[1..], parts[1..], text[|parts[0]|..]);
      }
    }
  }

  /** The backtracking search decides exactly the standard's partition semantics. */
  lemma SearchDecidesLike(text: string, p: string)
    ensures Like(text, p) <==> Matches(Tokens(p), text)
  {
    if Matches(Tokens(p), text) {
      var parts := MatchesHasPartition(Tokens(p), text);
    }
    if Like(text, p) {
      var parts :| PartitionMatches(Tokens(p), parts, text);
      PartitionIsFound(Tokens(p), parts, text);
    }
  }

  // ------------------------------------------------- escaped search is substring search

  function Literals(s: string): seq<Token> {
    if s == [] then [] else [Literal(s[0])] + Literals(s[1..])
  }

  lemma {:induction false} LiteralsAt(s: string)
    ensures |Literals(s)| == |s| && forall i :: 0 <= i < |s| ==> Literals(s)[i] == Literal(s[i])
  {
    if s != [] { LiteralsAt(s[1..]); }
  }

  lemma Assoc<T>(a: seq<T>, b: seq<T>, c: seq<T>)
    ensures (a + b) + c == a + (b + c)
  {}

  lemma ReadOne(c: char, tail: string)
    ensures Tokens(EscapedChar(c) + tail) == [Literal(c)] + Tokens(tail)
    ensures ValidPattern(tail) ==> ValidPattern(EscapedChar(c) + tail)
  {
    var p := EscapedChar(c) + tail;
    assert p[|EscapedChar(c)|..] == tail;
  }

  lemma {:induction false} EscapedReadsBack(s: string, rest: string)
    ensures Tokens(Escaped(s) + rest) == Literals(s) + Tokens(rest)
    decreases |s|
  {
    if s == [] {
      assert Escaped(s) + rest == rest;
      assert Literals(s) + Tokens(rest) == Tokens(rest);
    } else {
      EscapedCons(s, rest);
      ReadOne(s[0], Escaped(s[1..]) + rest);
      EscapedReadsBack(s[1..], rest);
      Assoc([Literal(s[0])], Literals(s[1..]), Tokens(rest));
    }
  }

  lemma EscapedCons(s: string, rest: string)
    requires s != []
    ensures Escaped(s) + rest == EscapedChar(s[0]) + (Escaped(s[1..]) + rest)
  {
    Assoc(EscapedChar(s[0]), Escaped(s[1..]), rest);
  }

  lemma {:induction false} EscapedIsValid(s: string, rest: string)
    requires ValidPattern(rest)
    ensures ValidPattern(Escaped(s) + rest)
    decreases |s|
  {
    if s == [] {
      assert Escaped(s) + rest == rest;
    } else {
      EscapedCons(s, rest);
      EscapedIsValid(s[1..], rest);
      ReadOne(s[0], Escaped(s[1..]) + rest);
    }
  }

  /** Reading a keyword back out of its escaped form: escaping loses nothing. */
  lemma EscapeRoundTrip(s: string)
    ensures Tokens(Escaped(s)) == Literals(s) && ValidPattern(Escaped(s))
  {
    EscapedReadsBack(s, []);
    EscapedIsValid(s, []);
    assert Escaped(s) + [] == Escaped(s);
    assert Literals(s) + [] == Literals(s);
  }

  lemma EscapeIsInjective(s: string, t: string)
    requires Escaped(s) == Escaped(t)
    ensures s == t
  {
    EscapeRoundTrip(s);
    EscapeRoundTrip(t);
    LiteralsAt(s);
    LiteralsAt(t);
    assert forall i :: 0 <= i < |s| ==> Literal(s[i]) == Literals(s)[i] == Literals(t)[i] == Literal(t[i]);
  }

  /** `"%" + escapeLike(keyword) + "%"`, the pattern of every paginated search. */
  function SearchPattern(keyword: string): string {
    "%" + Escaped(keyword) + "%"
  }

  /** The keyword occurs in the text at some position, up to ASCII case. */
  predicate OccursIn(keyword: string, text: string) {
    exists i :: 0 <= i <= |text| && OccursAt(keyword, text, i)
  }

  predicate OccursAt(keyword: string, text: string, i: nat) {
    i + |keyword| <= |text| && SameFolded(text[i..i + |keyword|], keyword)
  }

  lemma {:induction false} AnyStringMatchesAll(text: string)
    ensures Matches([AnyString], text)
    decreases |text|
  {
    if text != [] { AnyStringMatchesAll(text[1..]); } else { assert Matches([], text); }
  }

  lemma {:induction false} LiteralsMatchPrefix(keyword: string, text: string)
    ensures Matches(Literals(keyword) + [AnyString], text) <==>
            |keyword| <= |text| && SameFolded(text[..|keyword|], keyword)
    decreases |keyword|
  {
    if keyword == [] {
      AnyStringMatchesAll(text);
      assert Literals(keyword) + [AnyString] == [AnyString];
    } else {
      var tokens := Literals(keyword) + [AnyString];
      assert tokens[0] == Literal(keyword[0]);
      assert tokens[1..] == Literals(keyword[1..]) + [AnyString];
      if text != [] {
        LiteralsMatchPrefix(keyword[1..], text[1..]);
        if |keyword| <= |text| {
          assert text[1..][..|keyword| - 1] == text[..|keyword|][1..];
          assert SameFolded(text[..|keyword|], keyword) <==>
            Fold(text[0]) == Fold(keyword[0]) && SameFolded(text[..|keyword|][1..], keyword[1..]) by {
            SameFoldedCons(text[..|keyword|], keyword);
          }
        }
      }
    }
  }

  lemma SameFoldedCons(a: string, b: string)
    requires |a| == |b| > 0
    ensures SameFolded(a, b) <==> Fold(a[0]) == Fold(b[0]) && SameFolded(a[1..], b[1..])
  {
    if Fold(a[0]) == Fold(b[0]) && SameFolded(a[1..], b[1..]) {
      forall i | 0 <= i < |a| ensures Fold(a[i]) == Fold(b[i]) {
        if i > 0 { assert Fold(a[1..][i - 1]) == Fold(b[1..][i - 1]); }
      }
    }
  }

  predicate OccursFrom(keyword: string, text: string, from: nat) {
    exists i :: from <= i <= |text| && OccursAt(keyword, text, i)
  }

  lemma {:induction false} SearchFindsOccurrence(keyword: string, text: string, from: nat)
    requires from <= |text|
    ensures Matches([AnyString] + Literals(keyword) + [AnyString], text[from..]) <==> OccursFrom(keyword, text, from)
    decreases |text| - from
  {
    var tokens := [AnyString] + Literals(keyword) + [AnyString];
    var here := text[from..];
    assert tokens[0] == AnyString && tokens[1..] == Literals(keyword) + [AnyString];
    LiteralsMatchPrefix(keyword, here);
    if |keyword| <= |here| { assert here[..|keyword|] == text[from..from + |keyword|]; }
    assert Matches(tokens[1..], here) <==> OccursAt(keyword, text, from);
    if from < |text| {
      SearchFindsOccurrence(keyword, text, from + 1);
      assert here[1..] == text[from + 1..];
    }
  }

  /** Escaped search is substring search: for every keyword and text, whatever
      wildcards they contain, the pattern is valid and LIKE holds exactly when the
      keyword occurs in the text, up to ASCII case folding. */
  lemma EscapedSearchIsSubstringSearch(keyword: string, text: string)
    ensures ValidPattern(SearchPattern(keyword))
    ensures Like(text, SearchPattern(keyword)) <==> OccursIn(keyword, text)
  {
    var rest := Escaped(keyword) + "%";
    assert SearchPattern(keyword) == "%" + rest;
    assert SearchPattern(keyword)[1..] == rest;
    EscapedReadsBack(keyword, "%");
    EscapedIsValid(keyword, "%");
    assert "%"[1..] == "";
    assert Tokens("%") == [AnyString] + Tokens("");
    assert Tokens(SearchPattern(keyword)) == [AnyString] + Tokens(rest);
    assert Tokens(SearchPattern(keyword)) == [AnyString] + Literals(keyword) + [AnyString];
    SearchDecidesLike(text, SearchPattern(keyword));
    SearchFindsOccurrence(keyword, text, 0);
    assert text[0..] == text;
  }

  /** Without the escaping the law fails: the keyword "%" would find every text. */
  lemma UnescapedSearchIsNot()
    ensures Like("a", "%" + "%" + "%") && !OccursIn("%", "a")
  {
    var p := "%" + "%" + "%";
    assert p[1..] == "%%" && "%%"[1..] == "%" && "%"[1..] == "";
    assert Tokens(p) == [AnyString, AnyString, AnyString];
    assert Join(["a", "", ""]) == "a" by {
      assert ["a", "", ""][1..] == ["", ""] && ["", ""][1..] == [""] && [""][1..] == [];
    }
    assert PartitionMatches(Tokens(p), ["a", "", ""], "a");
    forall i: nat | i <= 1 ensures !OccursAt("%", "a", i) {
      if i == 0 { assert "a"[0..1][0] == 'a'; }
    }
  }
}
