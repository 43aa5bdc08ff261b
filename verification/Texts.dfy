/** Numerals and separators in text, shared by the modules that build or read
    textual keys and addresses. */
module Texts {

  /** Lower case of an ASCII letter. */
  function Fold(c: char): char {
    if 'A' <= c <= 'Z' then (c as int + 32) as char else c
  }

  // ------------------------------------------------------------------ numerals

  function DigitChar(d: nat): (c: char)
    requires d < 16
  {
    if d < 10 then '0' + d as char else 'a' + (d - 10) as char
  }

  predicate IsDigit(c: char, base: nat) {
    if '0' <= c <= '9' then c as int - '0' as int < base else 'a' <= c <= 'f' && c as int - 'a' as int + 10 < base
  }

  function DigitValue(c: char): nat
    requires IsDigit(c, 16)
  {
    if '0' <= c <= '9' then c as int - '0' as int else c as int - 'a' as int + 10
  }

  function Numeral(n: nat, base: nat): (s: string)
    requires 2 <= base <= 16
    ensures s != []
  {
    if n < base then [DigitChar(n)] else Numeral(n / base, base) + [DigitChar(n % base)]
  }

  predicate AllDigits(s: string, base: nat) {
    forall i :: 0 <= i < |s| ==> IsDigit(s[i], base)
  }

  function ValueOf(s: string, base: nat): nat
    requires base <= 16 && AllDigits(s, base)
  {
    if s == [] then 0 else ValueOf(s[..|s| - 1], base) * base + DigitValue(s[|s| - 1])
  }

  lemma DivMod(n: nat, base: nat)
    requires 2 <= base <= n
    ensures n / base * base + n % base == n && 0 <= n / base < n && 0 <= n % base < base
  {
  }

  lemma ValueOfAppend(front: string, d: nat, base: nat)
    requires d < base <= 16 && AllDigits(front, base)
    ensures AllDigits(front + [DigitChar(d)], base)
    ensures ValueOf(front + [DigitChar(d)], base) == ValueOf(front, base) * base + d
  {
    var s := front + [DigitChar(d)];
    assert s[..|s| - 1] == front;
  }

  lemma {:induction false} NumeralRoundTrip(n: nat, base: nat)
    requires 2 <= base <= 16
    ensures AllDigits(Numeral(n, base), base) && ValueOf(Numeral(n, base), base) == n
    decreases n
  {
    if n < base {
      ValueOfAppend("", n, base);
      assert "" + [DigitChar(n)] == Numeral(n, base);
    } else {
      DivMod(n, base);
      var q, d := n / base, n % base;
      NumeralRoundTrip(q, base);
      ValueOfAppend(Numeral(q, base), d, base);
      assert Numeral(n, base) == Numeral(q, base) + [DigitChar(d)];
    }
  }

  lemma NumeralUnique(m: nat, n: nat, base: nat)
    requires 2 <= base <= 16 && Numeral(m, base) == Numeral(n, base)
    ensures m == n
  {
    NumeralRoundTrip(m, base);
    NumeralRoundTrip(n, base);
  }

  /** `%d`. */
  function Decimal(i: int): (s: string)
    ensures s != []
  {
    if i < 0 then "-" + Numeral(-i, 10) else Numeral(i, 10)
  }

  // ---------------------------------------------------------------- separators

  /** The first place of `c` in `s`; the length of `s` if it has none. */
  function Find(s: string, c: char): (k: nat)
    ensures k <= |s| && (k < |s| ==> s[k] == c)
    ensures forall i :: 0 <= i < k ==> s[i] != c
  {
    if s == [] || s[0] == c then 0 else 1 + Find(s[1..], c)
  }

  /** The last place of `c` in `s`; -1 if it has none. */
  function FindLast(s: string, c: char): (k: int)
    ensures -1 <= k < |s| && (k >= 0 ==> s[k] == c)
    ensures forall i :: k < i < |s| ==> s[i] != c
  {
    if s == [] then -1 else if s[|s| - 1] == c then |s| - 1 else FindLast(s[..|s| - 1], c)
  }

  lemma FirstSplit(x: string, u: string, y: string, v: string, sep: char)
    requires sep !in x && sep !in y && x + [sep] + u == y + [sep] + v
    ensures x == y && u == v
  {
    FindInConcat(x, u, sep);
    FindInConcat(y, v, sep);
    SplitAt(x, u, y, v, sep);
  }

  lemma SplitAt(x: string, u: string, y: string, v: string, sep: char)
    requires |x| == |y| && x + [sep] + u == y + [sep] + v
    ensures x == y && u == v
  {
    assert x == (x + [sep] + u)[..|x|] && y == (y + [sep] + v)[..|y|];
    assert u == (x + [sep] + u)[|x| + 1..] && v == (y + [sep] + v)[|y| + 1..];
  }

  lemma {:induction false} FindInConcat(x: string, u: string, sep: char)
    requires sep !in x
    ensures Find(x + [sep] + u, sep) == |x|
    decreases |x|
  {
    if x != [] {
      assert (x + [sep] + u)[1..] == x[1..] + [sep] + u;
      FindInConcat(x[1..], u, sep);
    }
  }

  lemma {:induction false} FindLastInConcat(x: string, u: string, sep: char)
    requires sep !in u
    ensures FindLast(x + [sep] + u, sep) == |x|
    decreases |u|
  {
    var s := x + [sep] + u;
    if u == [] {
      assert s[|s| - 1] == sep;
    } else {
      assert s[..|s| - 1] == x + [sep] + u[..|u| - 1];
      FindLastInConcat(x, u[..|u| - 1], sep);
    }
  }

  lemma LastSplit(x: string, u: string, y: string, v: string, sep: char)
    requires sep !in u && sep !in v && x + [sep] + u == y + [sep] + v
    ensures x == y && u == v
  {
    FindLastInConcat(x, u, sep);
    FindLastInConcat(y, v, sep);
    SplitAt(x, u, y, v, sep);
  }

  /** A separator that occurs once on the left is the one on the right. */
  lemma OnlySplit(x: string, u: string, y: string, v: string, sep: char)
    requires sep !in x && sep !in u && x + [sep] + u == y + [sep] + v
    ensures x == y && u == v
  {
    FindInConcat(x, u, sep);
    FindLastInConcat(x, u, sep);
    assert (y + [sep] + v)[|y|] == sep;
    SplitAt(x, u, y, v, sep);
  }

  lemma NumeralHasNo(n: nat, base: nat, c: char)
    requires 2 <= base <= 16 && !IsDigit(c, base)
    ensures c !in Numeral(n, base)
  {
    NumeralRoundTrip(n, base);
  }

  lemma NumeralSplit(m: nat, u: string, n: nat, v: string)
    requires Numeral(m, 10) + "-" + u == Numeral(n, 10) + "-" + v
    ensures m == n && u == v
  {
    NumeralHasNo(m, 10, '-');
    NumeralHasNo(n, 10, '-');
    FirstSplit(Numeral(m, 10), u, Numeral(n, 10), v, '-');
    NumeralUnique(m, n, 10);
  }

  lemma DecimalSign(a: int, u: string)
    ensures (Decimal(a) + "-" + u)[0] == '-' <==> a < 0
  {
    if a >= 0 {
      NumeralRoundTrip(a, 10);
      assert IsDigit(Numeral(a, 10)[0], 10);
    }
  }

  lemma DropSign(a: int, u: string)
    requires a < 0
    ensures (Decimal(a) + "-" + u)[1..] == Numeral(-a, 10) + "-" + u
  {
  }

  lemma DecimalUnique(a: int, u: string, b: int, v: string)
    requires Decimal(a) + "-" + u == Decimal(b) + "-" + v
    ensures a == b && u == v
  {
    DecimalSign(a, u);
    DecimalSign(b, v);
    if a < 0 {
      DropSign(a, u);
      DropSign(b, v);
      NumeralSplit(-a, u, -b, v);
    } else {
      NumeralSplit(a, u, b, v);
    }
  }

  lemma DecimalEqual(a: int, b: int)
    requires Decimal(a) == Decimal(b)
    ensures a == b
  {
    DecimalUnique(a, "", b, "");
  }
}
