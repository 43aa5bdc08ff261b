/** The last lines of a log file, kept in a ring buffer during a single pass. */
module TailLines {

  /** The last `n` lines, or all of them if there are fewer. */
  function Tail(lines: seq<string>, n: int): seq<string> {
    if n <= 0 then [] else if |lines| <= n then lines else lines[|lines| - n..]
  }

  lemma SameResidue(a: int, b: int, n: int)
    requires n > 0 && a % n == b % n
    ensures a - b == n * (a / n - b / n)
  {
    assert a == n * (a / n) + a % n;
    assert b == n * (b / n) + b % n;
  }

  lemma MultipleIsBig(n: int, q: int)
    requires n > 0 && q != 0
    ensures n * q >= n || n * q <= -n
  {
    if q > 0 { assert n * (q - 1) >= 0; } else { assert n * (-q - 1) >= 0; }
  }

  lemma DifferentSlots(a: nat, b: nat, n: nat)
    requires n > 0 && a < b < a + n
    ensures a % n != b % n
  {
    if a % n == b % n {
      SameResidue(b, a, n);
      MultipleIsBig(n, b / n - a / n);
    }
  }

  lemma Residue(q: int, r: int, n: int)
    requires 0 <= r < n
    ensures (n * q + r) % n == r
  {
    var x := n * q + r;
    assert x == n * (x / n) + x % n;
    assert n * (x / n - q) == r - x % n;
    if x / n != q { MultipleIsBig(n, x / n - q); }
  }

  /** The i-th slot from the writing position on. */
  lemma SlotAfter(total: nat, i: nat, n: nat)
    requires n > 0 && i < n
    ensures (total % n + i) % n == (total + i) % n
  {
    var q, r := total / n, total % n;
    assert total == n * q + r;
    if r + i < n {
      Residue(q, r + i, n);
      Residue(0, r + i, n);
    } else {
      assert n * (q + 1) == n * q + n;
      Residue(q + 1, r + i - n, n);
      Residue(1, r + i - n, n);
    }
  }

  lemma OneRoundEarlier(a: nat, n: nat)
    requires 0 < n <= a
    ensures (a - n) % n == a % n
  {
    var q, r := a / n, a % n;
    assert a - n == n * (q - 1) + r;
    Residue(q - 1, r, n);
  }

  /** The slot that holds line `j` while it is among the last `n`. */
  ghost predicate Holds(ring: seq<string>, lines: seq<string>, n: nat)
    requires |ring| == n > 0
  {
    forall j :: 0 <= j < |lines| && j >= |lines| - n ==> ring[j % n] == lines[j]
  }

  method FillRing(lines: seq<string>, n: nat) returns (ring: array<string>, idx: nat)
    requires n > 0
    ensures ring.Length == n && idx == |lines| % n && Holds(ring[..], lines, n)
  {
    ring := new string[n](_ => "");
    idx := 0;
    for total := 0 to |lines|
      invariant idx == total % n && Holds(ring[..], lines[..total], n)
    {
      forall j | 0 <= j < total && j > total - n ensures j % n != total % n {
        DifferentSlots(j, total, n);
      }
      ring[idx] := lines[total];
      if n > 1 { SlotAfter(total, 1, n); }
      idx := (idx + 1) % n;
    }
    assert lines[..|lines|] == lines;
  }

  lemma TailSlot(ring: seq<string>, lines: seq<string>, limit: nat, n: nat, i: nat)
    requires limit > 0 && |ring| == limit && Holds(ring, lines, limit)
    requires n == (if |lines| < limit then |lines| else limit) && i < n
    ensures |Tail(lines, limit)| == n
    ensures ring[(|lines| - n + i) % limit] == Tail(lines, limit)[i]
  {
    var j := |lines| - n + i;
    assert ring[j % limit] == lines[j];
  }

  method SlotToRead(ghost ring: seq<string>, ghost lines: seq<string>, ghost limit: nat, n: nat, idx: nat, i: nat)
    returns (k: nat)
    requires limit > 0 && |ring| == limit && Holds(ring, lines, limit) && idx == |lines| % limit
    requires n == (if |lines| < limit then |lines| else limit) && i < n
    ensures |Tail(lines, limit)| == n && k < limit && ring[k] == Tail(lines, limit)[i]
  {
    k := (idx + i) % n;
    RingSlot(|lines|, limit, n, i);
    TailSlot(ring, lines, limit, n, i);
  }

  /** `readLastNLines`: `n` shrinks to the number of lines before the ring is read. */
  method ReadLastNLines(lines: seq<string>, limit: int) returns (out: seq<string>)
    ensures out == Tail(lines, limit)
  {
    if limit <= 0 { return []; }
    var n := limit;
    var ring, idx := FillRing(lines, n);
    var total := |lines|;
    if total < n { n := total; }
    out := [];
    ghost var kept, tail := ring[..], Tail(lines, limit);
    for i := 0 to n
      invariant ring[..] == kept && out == tail[..i]
    {
      var k := SlotToRead(kept, lines, limit, n, idx, i);
      var line := ring[k];
      assert line == kept[k];
      if line != "" || total >= n { out := out + [line]; }
    }
  }

  /** The slot read in step `i` is that of the i-th of the last lines. */
  lemma RingSlot(total: nat, limit: nat, n: nat, i: nat)
    requires limit > 0 && n == (if total < limit then total else limit) && i < n
    ensures (total % limit + i) % n < limit
    ensures (total % limit + i) % n == (total - n + i) % limit
  {
    if total < limit {
      Residue(0, total, limit);
      Residue(1, i, n);
      Residue(0, i, limit);
    } else {
      SlotAfter(total, i, n);
      OneRoundEarlier(total + i, n);
    }
  }
}
