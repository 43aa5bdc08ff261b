/** Carving /64 subnets out of a VCN's /56 block (prefix notation: section 2.3 of
    RFC 4291; text form: section 4 of RFC 5952). */
module SubnetAllocator {
  import opened Options
  import opened Sequences
  import opened Texts

  /** An IPv6 address: eight groups of 16 bits. */
  type Address = a: seq<nat> | |a| == 8 && forall i :: 0 <= i < 8 ==> a[i] < 0x1_0000
    witness [0, 0, 0, 0, 0, 0, 0, 0]

  // ----------------------------------------------------------------- text form

  /** The number of zero groups from `i` on. */
  function ZeroRun(a: seq<nat>, i: nat): (n: nat)
    requires i <= |a|
    ensures i + n <= |a| && (forall k :: i <= k < i + n ==> a[k] == 0)
    ensures i + n < |a| ==> a[i + n] != 0
    decreases |a| - i
  {
    if i < |a| && a[i] == 0 then 1 + ZeroRun(a, i + 1) else 0
  }

  /** Where the longest run of zero groups starts, from `i` on; the first of several. */
  function LongestRun(a: seq<nat>, i: nat): (k: nat)
    requires i <= |a|
    ensures i <= k <= |a|
    ensures forall j :: i <= j <= |a| ==> ZeroRun(a, j) <= ZeroRun(a, k)
    ensures forall j :: i <= j < k ==> ZeroRun(a, j) < ZeroRun(a, k)
    decreases |a| - i
  {
    if i == |a| then i
    else
      var k := LongestRun(a, i + 1);
      if ZeroRun(a, i) >= ZeroRun(a, k) then i else k
  }

  function Hex(n: nat): string {
    Numeral(n, 16)
  }

  function Joined(groups: seq<nat>): string {
    if groups == [] then "" else if |groups| == 1 then Hex(groups[0]) else Hex(groups[0]) + ":" + Joined(groups[1..])
  }

  /** The canonical text of an address: the first longest run of two or more zero
      groups is written `::`. */
  function TextOf(a: Address): string {
    var k := LongestRun(a, 0);
    var n := ZeroRun(a, k);
    if n < 2 then Joined(a) else Joined(a[..k]) + "::" + Joined(a[k + n..])
  }

  // ---------------------------------------------------------------- candidates

  predicate IsBlock56(a: Address) {
    a[3] % 256 == 0 && a[4] == a[5] == a[6] == a[7] == 0
  }

  /** The /56 that an address lies in: bits 56 to 127 are zero. */
  function Block56(ip: Address): (base: Address)
    ensures IsBlock56(base)
    ensures base[..3] == ip[..3] && base[3] / 256 == ip[3] / 256
  {
    [ip[0], ip[1], ip[2], ip[3] / 256 * 256, 0, 0, 0, 0]
  }

  /** The i-th /64 of it: byte 7 is `i`. */
  function Candidate(base: Address, i: nat): (a: Address)
    requires IsBlock56(base) && i < 256
    ensures a[..3] == base[..3] && a[3] / 256 == base[3] / 256 && a[3] % 256 == i
    ensures a[4] == a[5] == a[6] == a[7] == 0
  {
    [base[0], base[1], base[2], base[3] + i, 0, 0, 0, 0]
  }

  function Cidr(base: Address, i: nat): string
    requires IsBlock56(base) && i < 256
  {
    TextOf(Candidate(base, i)) + "/64"
  }

  /** The texts of the 256 subnets of a block. */
  function Cidrs(base: Address): (texts: seq<string>)
    requires IsBlock56(base)
    ensures |texts| == 256
  {
    seq(256, i requires 0 <= i < 256 => Cidr(base, i))
  }

  /** The first text from `from` on that is not in use; the length if there is none. */
  function FirstFree(texts: seq<string>, used: set<string>, from: nat): (i: nat)
    requires from <= |texts|
    ensures from <= i <= |texts| && (i < |texts| ==> texts[i] !in used)
    ensures forall j :: from <= j < i ==> texts[j] in used
    decreases |texts| - from
  {
    if from == |texts| || texts[from] !in used then from else FirstFree(texts, used, from + 1)
  }

  function Derived(ip: Address, used: set<string>): Option<string> {
    var texts := Cidrs(Block56(ip));
    var i := FirstFree(texts, used, 0);
    if i == |texts| then None else Some(texts[i])
  }

  function Used(list: seq<string>): set<string> {
    set c | c in list
  }

  method CollectUsed(list: seq<string>) returns (used: set<string>)
    ensures used == Used(list)
  {
    used := {};
    for i := 0 to |list|
      invariant used == Used(list[..i])
    {
      assert list[..i + 1] == list[..i] + [list[i]];
      used := used + {list[i]};
    }
    assert list[..|list|] == list;
  }

  /** `deriveSubnetIpv6`. `parsed` is the network address of the VCN's block, with
      an IPv4 one in its mapped form, or None if it does not parse. */
  method DeriveSubnet(parsed: Option<Address>, usedList: seq<string>) returns (subnet: Option<string>)
    ensures subnet == if parsed == None then None else Derived(parsed.value, Used(usedList))
  {
    if parsed == None { return None; }
    var used := CollectUsed(usedList);
    var base := Block56(parsed.value);
    ghost var texts := Cidrs(base);
    for i := 0 to 256
      invariant FirstFree(texts, used, i) == FirstFree(texts, used, 0)
    {
      var cidr := TextOf(Candidate(base, i)) + "/64";
      assert cidr == texts[i];
      if cidr !in used { return Some(cidr); }
    }
    return None;
  }

  // -------------------------------------------------------------- reading texts back

  function HexValue(word: string): nat {
    if AllDigits(word, 16) then ValueOf(word, 16) else 0
  }

  /** Hexadecimal groups separated by single colons. */
  function ReadGroups(s: string): seq<nat>
    decreases |s|
  {
    if s == "" then []
    else
      var k := Find(s, ':');
      [HexValue(s[..k])] + if k == |s| then [] else ReadGroups(s[k + 1..])
  }

  /** The place of the first `::`; the length if there is none. */
  function FindDouble(s: string): (k: nat)
    ensures k <= |s| && (k < |s| ==> k + 1 < |s| && s[k] == s[k + 1] == ':')
    ensures forall j :: 0 <= j < k && j + 1 < |s| ==> !(s[j] == s[j + 1] == ':')
    decreases |s|
  {
    if |s| < 2 then |s|
    else if s[0] == s[1] == ':' then 0
    else 1 + FindDouble(s[1..])
  }

  /** An IPv6 text as section 2.2 of RFC 4291 reads it: `::` stands for as many zero
      groups as are missing. */
  function ReadAddress(s: string): seq<nat> {
    var k := FindDouble(s);
    if k == |s| then ReadGroups(s) else Filled(ReadGroups(s[..k]), ReadGroups(s[k + 2..]))
  }

  function Zeros(n: nat): (zeros: seq<nat>)
    ensures |zeros| == n && forall i :: 0 <= i < n ==> zeros[i] == 0
  {
    seq(n, _ => 0)
  }

  function Filled(left: seq<nat>, right: seq<nat>): seq<nat> {
    left + Zeros(if |left| + |right| < 8 then 8 - |left| - |right| else 0) + right
  }

  lemma {:induction false} JoinedReadsBack(groups: seq<nat>)
    ensures ReadGroups(Joined(groups)) == groups
    decreases |groups|
  {
    if groups != [] {
      var first := Hex(groups[0]);
      HexHasNoColon(groups[0]);
      NumeralRoundTrip(groups[0], 16);
      if |groups| == 1 {
        assert Find(first, ':') == |first| && first[..|first|] == first;
      } else {
        var rest := Joined(groups[1..]);
        assert Joined(groups) == first + [':'] + rest;
        FindInConcat(first, rest, ':');
        assert Joined(groups)[..|first|] == first && Joined(groups)[|first| + 1..] == rest;
        JoinedReadsBack(groups[1..]);
      }
    }
  }

  /** No colon stands at an end or next to another. */
  predicate SingleColons(s: string) {
    && (s != "" ==> s[0] != ':' && s[|s| - 1] != ':')
    && forall j :: 0 <= j && j + 1 < |s| ==> !(s[j] == s[j + 1] == ':')
  }

  lemma {:induction false} JoinedHasSingleColons(groups: seq<nat>)
    ensures SingleColons(Joined(groups)) && (groups != [] ==> Joined(groups) != "")
    decreases |groups|
  {
    if groups != [] {
      var first := Hex(groups[0]);
      HexHasNoColon(groups[0]);
      assert forall j :: 0 <= j < |first| ==> first[j] in first;
      if |groups| > 1 {
        JoinedHasSingleColons(groups[1..]);
        var rest, s := Joined(groups[1..]), Joined(groups);
        assert s == first + ":" + rest;
        forall j | 0 <= j && j + 1 < |s| ensures !(s[j] == s[j + 1] == ':') {
          if j > |first| { assert s[j] == rest[j - |first| - 1] && s[j + 1] == rest[j - |first|]; }
        }
      }
    }
  }

  lemma DoubleIsFound(left: string, right: string)
    requires SingleColons(left)
    ensures FindDouble(left + "::" + right) == |left|
  {
    var s := left + "::" + right;
    assert s[|left|] == s[|left| + 1] == ':';
    forall j | 0 <= j < |left| ensures !(s[j] == s[j + 1] == ':') {
      assert s[j] == left[j];
      if j + 1 < |left| { assert s[j + 1] == left[j + 1]; }
    }
  }

  lemma NoDoubleIsFound(s: string)
    requires SingleColons(s)
    ensures FindDouble(s) == |s|
  {
  }

  lemma PlainReadsBack(groups: seq<nat>)
    ensures ReadAddress(Joined(groups)) == groups
  {
    JoinedHasSingleColons(groups);
    NoDoubleIsFound(Joined(groups));
    JoinedReadsBack(groups);
  }

  lemma ReadsAround(left: string, right: string)
    requires SingleColons(left)
    ensures ReadAddress(left + "::" + right) == Filled(ReadGroups(left), ReadGroups(right))
  {
    DoubleIsFound(left, right);
    CutAtDouble(left, right);
  }

  lemma DoubleReadsBack(left: seq<nat>, right: seq<nat>)
    ensures ReadAddress(Joined(left) + "::" + Joined(right)) == Filled(left, right)
  {
    JoinedHasSingleColons(left);
    ReadsAround(Joined(left), Joined(right));
    JoinedReadsBack(left);
    JoinedReadsBack(right);
  }

  lemma ZerosBetween(a: Address, k: nat, n: nat, zeros: seq<nat>)
    requires k + n <= 8 && |zeros| == n && forall i :: 0 <= i < n ==> a[k + i] == 0 == zeros[i]
    ensures a[..k] + zeros + a[k + n..] == a
  {
    var b := a[..k] + zeros + a[k + n..];
    forall i | 0 <= i < 8 ensures b[i] == a[i] {
      if k <= i < k + n { assert a[k + (i - k)] == zeros[i - k]; }
    }
  }

  /** The text of an address reads back as that address. */
  lemma TextReadsBack(a: Address)
    ensures ReadAddress(TextOf(a)) == a
  {
    var k := LongestRun(a, 0);
    var n := ZeroRun(a, k);
    if n < 2 {
      PlainReadsBack(a);
    } else {
      DoubleReadsBack(a[..k], a[k + n..]);
      ZerosBetween(a, k, n, Zeros(n));
    }
  }

  lemma CutAtDouble(left: string, right: string)
    ensures (left + "::" + right)[..|left|] == left && (left + "::" + right)[|left| + 2..] == right
  {
  }

  // ------------------------------------------------------- texts tell candidates apart

  /** The groups of a candidate before its trailing zeros. */
  function Head(a: Address): seq<nat> {
    a[..LongestRun(a, 0)]
  }

  lemma {:induction false} RunThrough(a: seq<nat>, i: nat, m: nat)
    requires i <= m <= |a| && forall k :: i <= k < m ==> a[k] == 0
    ensures ZeroRun(a, i) == m - i + ZeroRun(a, m)
    decreases m - i
  {
    if i < m { RunThrough(a, i + 1, m); }
  }

  /** In an address whose last four groups are zero the longest run ends it. */
  lemma TailIsLongest(a: Address)
    requires a[4] == a[5] == a[6] == a[7] == 0
    ensures var k := LongestRun(a, 0); k <= 4 && k + ZeroRun(a, k) == 8 && TextOf(a) == Joined(Head(a)) + "::"
  {
    var k := LongestRun(a, 0);
    RunThrough(a, 4, 8);
    assert ZeroRun(a, k) >= 4;
    if k < 4 { RunThrough(a, k, 4); }
    assert a[8..] == [];
  }

  lemma HexHasNoColon(n: nat)
    ensures ':' !in Hex(n)
  {
    NumeralHasNo(n, 16, ':');
  }

  /** What follows the first group and its colon. */
  function AfterFirst(groups: seq<nat>, end: string): string
    requires groups != [] && end != ""
  {
    if |groups| == 1 then end[1..] else Joined(groups[1..]) + end
  }

  lemma JoinedStep(groups: seq<nat>, end: string)
    requires groups != [] && end != "" && end[0] == ':'
    ensures Joined(groups) + end == Hex(groups[0]) + ":" + AfterFirst(groups, end)
  {
    if |groups| == 1 {
      assert end == ":" + end[1..];
    }
  }

  lemma JoinedStart(groups: seq<nat>, end: string)
    requires groups != []
    ensures (Joined(groups) + end)[0] != ':'
  {
    HexHasNoColon(groups[0]);
    assert (Joined(groups) + end)[0] == Hex(groups[0])[0];
    assert Hex(groups[0])[0] in Hex(groups[0]);
  }

  lemma FirstGroupUnique(a: seq<nat>, b: seq<nat>, end: string)
    requires a != [] && b != [] && |end| >= 2 && end[0] == end[1] == ':'
    requires Joined(a) + end == Joined(b) + end
    ensures a[0] == b[0] && AfterFirst(a, end) == AfterFirst(b, end)
  {
    JoinedStep(a, end);
    JoinedStep(b, end);
    HexHasNoColon(a[0]);
    HexHasNoColon(b[0]);
    FirstSplit(Hex(a[0]), AfterFirst(a, end), Hex(b[0]), AfterFirst(b, end), ':');
    NumeralUnique(a[0], b[0], 16);
  }

  /** `::` ends the list of groups before it. */
  lemma {:induction false} JoinedUnique(a: seq<nat>, b: seq<nat>, end: string)
    requires |end| >= 2 && end[0] == end[1] == ':'
    requires Joined(a) + end == Joined(b) + end
    ensures a == b
    decreases |a|
  {
    if a != [] { JoinedStart(a, end); }
    if b != [] { JoinedStart(b, end); }
    if a != [] && b != [] {
      FirstGroupUnique(a, b, end);
      if |a| > 1 { JoinedStart(a[1..], end); }
      if |b| > 1 { JoinedStart(b[1..], end); }
      if |a| > 1 && |b| > 1 { JoinedUnique(a[1..], b[1..], end); }
      assert a == [a[0]] + a[1..] && b == [b[0]] + b[1..];
    }
  }

  lemma TextTellsPrefix(a: Address, b: Address)
    requires a[4] == a[5] == a[6] == a[7] == 0 && b[4] == b[5] == b[6] == b[7] == 0
    requires TextOf(a) + "/64" == TextOf(b) + "/64"
    ensures a == b
  {
    TailIsLongest(a);
    TailIsLongest(b);
    assert Joined(Head(a)) + "::/64" == Joined(Head(a)) + "::" + "/64";
    assert Joined(Head(b)) + "::/64" == Joined(Head(b)) + "::" + "/64";
    JoinedUnique(Head(a), Head(b), "::/64");
    HeadTellsAddress(a, b);
  }

  lemma HeadTellsAddress(a: Address, b: Address)
    requires Head(a) == Head(b)
    requires LongestRun(a, 0) + ZeroRun(a, LongestRun(a, 0)) == 8 == LongestRun(b, 0) + ZeroRun(b, LongestRun(b, 0))
    ensures a == b
  {
    var k := |Head(a)|;
    forall i | 0 <= i < 8 ensures a[i] == b[i] {
      if i < k { assert a[i] == Head(a)[i] && b[i] == Head(b)[i]; }
    }
  }

  /** Different subnets have different texts, also across blocks. */
  lemma CidrUnique(base: Address, i: nat, other: Address, j: nat)
    requires IsBlock56(base) && IsBlock56(other) && i < 256 && j < 256
    requires Cidr(base, i) == Cidr(other, j)
    ensures Candidate(base, i) == Candidate(other, j) && i == j
  {
    TextTellsPrefix(Candidate(base, i), Candidate(other, j));
  }

  // ---------------------------------------------------------------- properties

  /** The addresses of the /64 that `subnet` starts. */
  predicate InSubnet(addr: Address, subnet: Address) {
    addr[..4] == subnet[..4]
  }

  /** The addresses of the /56 that `base` starts. */
  predicate InBlock(addr: Address, base: Address) {
    addr[..3] == base[..3] && addr[3] / 256 == base[3] / 256
  }

  lemma SubnetsOverlapOnlyIfSame(base: Address, i: nat, other: Address, j: nat, addr: Address)
    requires IsBlock56(base) && IsBlock56(other) && i < 256 && j < 256
    requires InSubnet(addr, Candidate(base, i)) && InSubnet(addr, Candidate(other, j))
    ensures i == j && Cidr(base, i) == Cidr(other, j)
  {
    var a, b := Candidate(base, i), Candidate(other, j);
    assert a[..4][3] == addr[..4][3] == b[..4][3];
    assert forall k :: 0 <= k < 4 ==> a[k] == addr[..4][k] == b[k];
    assert a == b;
  }

  /** A subnet that is handed out lies in the VCN's /56, is the lowest free one,
      and shares no address with any used subnet written canonically. */
  lemma DerivedIsFreeAndInside(ip: Address, used: set<string>) returns (i: nat)
    requires Derived(ip, used).Some?
    ensures i < 256 && Derived(ip, used) == Some(Cidr(Block56(ip), i))
    ensures forall addr: Address :: InSubnet(addr, Candidate(Block56(ip), i)) ==> InBlock(addr, ip)
    ensures forall j :: 0 <= j < i ==> Cidr(Block56(ip), j) in used
    ensures forall base: Address, j: nat, addr: Address ::
              IsBlock56(base) && j < 256 && Cidr(base, j) in used && InSubnet(addr, Candidate(base, j)) ==>
                !InSubnet(addr, Candidate(Block56(ip), i))
  {
    var base := Block56(ip);
    var texts := Cidrs(base);
    i := FirstFree(texts, used, 0);
    forall j | 0 <= j < i ensures Cidr(base, j) in used {
      assert texts[j] in used;
    }
    forall addr: Address | InSubnet(addr, Candidate(base, i)) ensures InBlock(addr, ip) {
      StaysInBlock(ip, i, addr);
    }
    forall other: Address, j: nat, addr: Address
      | IsBlock56(other) && j < 256 && Cidr(other, j) in used && InSubnet(addr, Candidate(other, j))
      ensures !InSubnet(addr, Candidate(base, i))
    {
      if InSubnet(addr, Candidate(base, i)) { SubnetsOverlapOnlyIfSame(other, j, base, i, addr); }
    }
  }

  lemma StaysInBlock(ip: Address, i: nat, addr: Address)
    requires i < 256 && InSubnet(addr, Candidate(Block56(ip), i))
    ensures InBlock(addr, ip)
  {
    var c := Candidate(Block56(ip), i);
    assert addr[..3] == addr[..4][..3] == c[..4][..3] == c[..3] == ip[..3];
    assert addr[3] == addr[..4][3] == c[..4][3] == c[3];
  }

  /** What is handed out is the text of a /64 whose address has the first 56 bits of the
      VCN's block, its own number in the next byte, and zeros after that. */
  lemma DerivedReadsBack(ip: Address, used: set<string>) returns (text: string, i: nat)
    requires Derived(ip, used).Some?
    ensures Derived(ip, used) == Some(text + "/64") && i < 256
    ensures ReadAddress(text) == [ip[0], ip[1], ip[2], ip[3] / 256 * 256 + i, 0, 0, 0, 0]
  {
    i := FirstFree(Cidrs(Block56(ip)), used, 0);
    var subnet := Candidate(Block56(ip), i);
    text := TextOf(subnet);
    TextReadsBack(subnet);
    assert subnet == [ip[0], ip[1], ip[2], ip[3] / 256 * 256 + i, 0, 0, 0, 0];
  }

  /** The places of the texts that are not in use. */
  function Free(texts: seq<string>, used: set<string>): set<nat> {
    set i: nat | i < |texts| && texts[i] !in used
  }

  function FreeSubnets(ip: Address, used: set<string>): set<nat> {
    Free(Cidrs(Block56(ip)), used)
  }

  lemma NoneFree(texts: seq<string>, used: set<string>)
    ensures FirstFree(texts, used, 0) == |texts| <==> Free(texts, used) == {}
  {
    var i := FirstFree(texts, used, 0);
    if i < |texts| {
      assert i in Free(texts, used);
    } else {
      assert forall j: nat :: j < |texts| ==> texts[j] in used;
    }
  }

  /** It fails exactly when all 256 subnets are used. */
  lemma FailsIffFull(ip: Address, used: set<string>)
    ensures Derived(ip, used) == None <==> forall i: nat :: i < 256 ==> Cidr(Block56(ip), i) in used
  {
    var texts := Cidrs(Block56(ip));
    NoneFree(texts, used);
    assert forall i: nat :: i < 256 ==> texts[i] == Cidr(Block56(ip), i);
    if FirstFree(texts, used, 0) < 256 { assert texts[FirstFree(texts, used, 0)] !in used; }
  }

  /** `n` allocations in a row from a list of texts, each fed back as used; shorter
      if one fails. */
  function ChainIn(texts: seq<string>, used: set<string>, n: nat): seq<string>
    decreases n
  {
    var i := FirstFree(texts, used, 0);
    if n == 0 || i == |texts| then [] else [texts[i]] + ChainIn(texts, used + {texts[i]}, n - 1)
  }

  function Chain(ip: Address, used: set<string>, n: nat): seq<string> {
    ChainIn(Cidrs(Block56(ip)), used, n)
  }

  /** A chain is what repeated calls return. */
  lemma ChainIsRepeatedDerivation(ip: Address, used: set<string>, n: nat)
    requires n > 0
    ensures Chain(ip, used, n) ==
            match Derived(ip, used)
            case None => []
            case Some(subnet) => [subnet] + Chain(ip, used + {subnet}, n - 1)
  {
  }

  lemma {:induction false} ChainIsFresh(texts: seq<string>, used: set<string>, n: nat)
    ensures Distinct(ChainIn(texts, used, n))
    ensures forall c :: c in ChainIn(texts, used, n) ==> c in texts && c !in used
    decreases n
  {
    var i := FirstFree(texts, used, 0);
    if n > 0 && i < |texts| { ChainIsFresh(texts, used + {texts[i]}, n - 1); }
  }

  lemma CidrsAreDistinct(base: Address)
    requires IsBlock56(base)
    ensures Distinct(Cidrs(base))
  {
    forall i, j | 0 <= i < j < 256 ensures Cidrs(base)[i] != Cidrs(base)[j] {
      if Cidrs(base)[i] == Cidrs(base)[j] { CidrUnique(base, i, base, j); }
    }
  }

  lemma NumberOf(base: Address, text: string) returns (i: nat)
    requires IsBlock56(base) && text in Cidrs(base)
    ensures i < 256 && Cidr(base, i) == text
  {
    i :| i < 256 && Cidrs(base)[i] == text;
  }

  /** Any two allocations of a chain are subnets without a common address. */
  lemma ChainIsDisjoint(ip: Address, used: set<string>, n: nat, k: nat, m: nat) returns (i: nat, j: nat)
    requires k < m < |Chain(ip, used, n)|
    ensures i < 256 && j < 256
    ensures Chain(ip, used, n)[k] == Cidr(Block56(ip), i) && Chain(ip, used, n)[m] == Cidr(Block56(ip), j)
    ensures forall addr: Address ::
              InSubnet(addr, Candidate(Block56(ip), i)) ==> !InSubnet(addr, Candidate(Block56(ip), j))
  {
    var base, chain := Block56(ip), Chain(ip, used, n);
    ChainIsFresh(Cidrs(base), used, n);
    assert chain[k] in chain && chain[m] in chain;
    i := NumberOf(base, chain[k]);
    j := NumberOf(base, chain[m]);
    forall addr: Address | InSubnet(addr, Candidate(base, i)) ensures !InSubnet(addr, Candidate(base, j)) {
      if InSubnet(addr, Candidate(base, j)) { SubnetsOverlapOnlyIfSame(base, i, base, j, addr); }
    }
  }

  /** One allocation uses up exactly one free place. */
  lemma OneLess(texts: seq<string>, used: set<string>, i: nat)
    requires Distinct(texts) && i < |texts| && texts[i] !in used
    ensures Free(texts, used + {texts[i]}) == Free(texts, used) - {i}
  {
  }

  lemma {:induction false} ChainLength(texts: seq<string>, used: set<string>, n: nat)
    requires Distinct(texts)
    ensures var free := |Free(texts, used)|; |ChainIn(texts, used, n)| == if n < free then n else free
    decreases n
  {
    var i := FirstFree(texts, used, 0);
    NoneFree(texts, used);
    if n > 0 && i < |texts| {
      OneLess(texts, used, i);
      assert i in Free(texts, used);
      ChainLength(texts, used + {texts[i]}, n - 1);
    }
  }

  /** A chain yields as many subnets as were asked for or are free, whichever is less. */
  lemma ChainUsesEverySubnet(ip: Address, used: set<string>, n: nat)
    ensures var free := |FreeSubnets(ip, used)|; |Chain(ip, used, n)| == if n < free then n else free
  {
    CidrsAreDistinct(Block56(ip));
    ChainLength(Cidrs(Block56(ip)), used, n);
  }
}
