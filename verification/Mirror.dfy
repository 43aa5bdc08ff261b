/** Mirroring IPv4 security rules to IPv6: each rule open to 0.0.0.0/0 gets a
    counterpart for ::/0, unless a rule with the same key is there already. */
module Mirror {
  import opened Options
  import opened Texts

  datatype PortRange = PortRange(min: Option<int>, max: Option<int>)

  /** TCP or UDP options; the destination port range may be missing. */
  datatype PortOptions = PortOptions(destination: Option<PortRange>)

  /** An ingress or an egress rule: `peer` is the source or the destination and
      `detail` stands for the fields that play no part (source ports, ICMP, ...). */
  datatype Rule = Rule(protocol: Option<string>, peer: Option<string>, peerType: string,
                       tcp: Option<PortOptions>, udp: Option<PortOptions>, detail: string)

  datatype SecurityList = SecurityList(ingress: seq<Rule>, egress: seq<Rule>)

  type Lists = map<string, SecurityList>

  const ANYWHERE_V4 := "0.0.0.0/0"
  const ANYWHERE_V6 := "::/0"

  // ---------------------------------------------------------------------- keys

  function Str(s: Option<string>): string {
    if s.Some? then s.value else ""
  }

  function Int(i: Option<int>): int {
    if i.Some? then i.value else 0
  }

  /** The destination ports a key tells apart; a missing bound reads as 0. */
  datatype Ports = AnyPorts | TcpPorts(min: int, max: int) | UdpPorts(min: int, max: int)

  function PortsOf(r: Rule): Ports {
    if r.tcp.Some? && r.tcp.value.destination.Some? then
      var p := r.tcp.value.destination.value;
      TcpPorts(Int(p.min), Int(p.max))
    else if r.udp.Some? && r.udp.value.destination.Some? then
      var p := r.udp.value.destination.value;
      UdpPorts(Int(p.min), Int(p.max))
    else AnyPorts
  }

  function PortText(p: Ports): string {
    match p
    case AnyPorts => ""
    case TcpPorts(lo, hi) => "tcp:" + Decimal(lo) + "-" + Decimal(hi)
    case UdpPorts(lo, hi) => "udp:" + Decimal(lo) + "-" + Decimal(hi)
  }

  /** `ingressRuleKey` and `egressRuleKey`. */
  function Key(r: Rule): string {
    Str(r.protocol) + "|" + Str(r.peer) + "|" + PortText(PortsOf(r))
  }

  lemma DecimalHasNoBar(i: int)
    ensures '|' !in Decimal(i)
  {
    NumeralRoundTrip(if i < 0 then -i else i, 10);
  }

  lemma PortTextHasNoBar(p: Ports)
    ensures '|' !in PortText(p)
  {
    if !p.AnyPorts? {
      DecimalHasNoBar(p.min);
      DecimalHasNoBar(p.max);
    }
  }

  lemma RangeText(p: Ports)
    requires !p.AnyPorts?
    ensures |PortText(p)| > 4 && PortText(p)[0] == (if p.TcpPorts? then 't' else 'u')
    ensures PortText(p)[4..] == Decimal(p.min) + "-" + Decimal(p.max)
  {
    assert PortText(p) == (if p.TcpPorts? then "tcp:" else "udp:") + (Decimal(p.min) + "-" + Decimal(p.max));
  }

  lemma PortTextUnique(p: Ports, q: Ports)
    requires PortText(p) == PortText(q)
    ensures p == q
  {
    if !p.AnyPorts? && !q.AnyPorts? {
      RangeText(p);
      RangeText(q);
      DecimalUnique(p.min, Decimal(p.max), q.min, Decimal(q.max));
      DecimalEqual(p.max, q.max);
    }
  }

  // ----------------------------------------------------------------- mirroring

  predicate IsV6(r: Rule) {
    r.peer.Some? && ':' in r.peer.value
  }

  predicate OpenV4(r: Rule) {
    r.peer == Some(ANYWHERE_V4)
  }

  function V6Of(r: Rule): Rule {
    r.(peer := Some(ANYWHERE_V6), peerType := "CIDR_BLOCK")
  }

  /** The keys of the rules whose peer is an IPv6 block. */
  function V6Keys(rules: seq<Rule>): set<string> {
    set r | r in rules && IsV6(r) :: Key(r)
  }

  function Added(existing: set<string>, rules: seq<Rule>): seq<Rule> {
    if rules == [] then []
    else
      var r := rules[|rules| - 1];
      Added(existing, rules[..|rules| - 1]) + if OpenV4(r) && Key(V6Of(r)) !in existing then [V6Of(r)] else []
  }

  function Mirrored(rules: seq<Rule>): seq<Rule> {
    rules + Added(V6Keys(rules), rules)
  }

  lemma V6KeysGrow(rules: seq<Rule>, i: nat)
    requires i < |rules|
    ensures V6Keys(rules[..i + 1]) == V6Keys(rules[..i]) + if IsV6(rules[i]) then {Key(rules[i])} else {}
  {
    assert rules[..i + 1] == rules[..i] + [rules[i]];
    assert forall r :: r in rules[..i + 1] <==> r in rules[..i] || r == rules[i];
  }

  lemma AddedGrows(existing: set<string>, rules: seq<Rule>, i: nat)
    requires i < |rules|
    ensures Added(existing, rules[..i + 1])
         == Added(existing, rules[..i])
            + if OpenV4(rules[i]) && Key(V6Of(rules[i])) !in existing then [V6Of(rules[i])] else []
  {
    assert rules[..i + 1][..i] == rules[..i];
  }

  method CollectV6Keys(rules: seq<Rule>) returns (existing: set<string>)
    ensures existing == V6Keys(rules)
  {
    existing := {};
    for i := 0 to |rules|
      invariant existing == V6Keys(rules[..i])
    {
      V6KeysGrow(rules, i);
      if rules[i].peer.Some? && ':' in rules[i].peer.value { existing := existing + {Key(rules[i])}; }
    }
    assert rules[..|rules|] == rules;
  }

  /** The ingress or egress half of `mirrorToIPv6` for one list. */
  method MirrorRules(rules: seq<Rule>) returns (result: seq<Rule>, added: bool)
    ensures result == Mirrored(rules) && added == (Added(V6Keys(rules), rules) != [])
  {
    var existing := CollectV6Keys(rules);
    result, added := rules, false;
    for i := 0 to |rules|
      invariant result == rules + Added(existing, rules[..i])
      invariant added == (Added(existing, rules[..i]) != [])
    {
      AddedGrows(existing, rules, i);
      var r := rules[i];
      if r.peer == None || r.peer.value != ANYWHERE_V4 { continue; }
      var v6 := r.(peer := Some(ANYWHERE_V6), peerType := "CIDR_BLOCK");
      if Key(v6) in existing { continue; }
      result := result + [v6];
      added := true;
    }
    assert rules[..|rules|] == rules;
  }

  // ----------------------------------------------------------------- properties

  predicate HasPorts(o: Option<PortOptions>) {
    o.Some? && o.value.destination.Some?
  }

  predicate SameRange(a: Option<PortOptions>, b: Option<PortOptions>)
    requires HasPorts(a) && HasPorts(b)
  {
    var p, q := a.value.destination.value, b.value.destination.value;
    Int(p.min) == Int(q.min) && Int(p.max) == Int(q.max)
  }

  /** TCP ports count before UDP ports; a missing bound reads as 0. */
  predicate SamePorts(m: Rule, r: Rule) {
    if HasPorts(r.tcp) then HasPorts(m.tcp) && SameRange(m.tcp, r.tcp)
    else
      && !HasPorts(m.tcp)
      && (HasPorts(m.udp) <==> HasPorts(r.udp)) && (HasPorts(r.udp) ==> SameRange(m.udp, r.udp))
  }

  predicate Counterpart(m: Rule, r: Rule) {
    m.peer == Some("::/0") && Str(m.protocol) == Str(r.protocol) && SamePorts(m, r)
  }

  lemma KeyUnique(m: Rule, r: Rule)
    requires OpenV4(r) && m.peer.Some? && '|' !in Str(r.protocol) && Key(m) == Key(V6Of(r))
    ensures Counterpart(m, r)
  {
    var p, q := PortText(PortsOf(r)), PortText(PortsOf(m));
    PortTextHasNoBar(PortsOf(r));
    PortTextHasNoBar(PortsOf(m));
    LastSplit(Str(r.protocol) + "|" + ANYWHERE_V6, p, Str(m.protocol) + "|" + m.peer.value, q, '|');
    OnlySplit(Str(r.protocol), ANYWHERE_V6, Str(m.protocol), m.peer.value, '|');
    PortTextUnique(PortsOf(r), PortsOf(m));
  }

  lemma {:induction false} AddedCovers(existing: set<string>, rules: seq<Rule>, r: Rule)
    requires r in rules && OpenV4(r) && Key(V6Of(r)) !in existing
    ensures V6Of(r) in Added(existing, rules)
    decreases |rules|
  {
    if r != rules[|rules| - 1] { AddedCovers(existing, rules[..|rules| - 1], r); }
  }

  lemma {:induction false} AddedAreMirrors(existing: set<string>, rules: seq<Rule>, m: Rule)
    requires m in Added(existing, rules)
    ensures exists r :: r in rules && OpenV4(r) && m == V6Of(r) && Key(m) !in existing
    decreases |rules|
  {
    var last := rules[|rules| - 1];
    if m in Added(existing, rules[..|rules| - 1]) {
      AddedAreMirrors(existing, rules[..|rules| - 1], m);
      var r :| r in rules[..|rules| - 1] && OpenV4(r) && m == V6Of(r) && Key(m) !in existing;
      assert r in rules;
    } else {
      assert m == V6Of(last);
      assert last in rules;
    }
  }

  /** Afterwards each rule open to 0.0.0.0/0 whose protocol has no '|' has a rule
      for ::/0 with the same protocol and destination ports. */
  lemma MirrorIsComplete(rules: seq<Rule>, r: Rule) returns (m: Rule)
    requires r in rules && r.peer == Some("0.0.0.0/0") && '|' !in Str(r.protocol)
    ensures m in Mirrored(rules) && Counterpart(m, r)
  {
    var v6 := V6Of(r);
    if Key(v6) in V6Keys(rules) {
      m :| m in rules && IsV6(m) && Key(m) == Key(v6);
      KeyUnique(m, r);
    } else {
      AddedCovers(V6Keys(rules), rules, r);
      m := v6;
    }
  }

  /** The condition is exact: for a protocol with a '|' there are rules whose keys
      collide, and the counterpart is missing. */
  lemma BarInProtocolHidesRules(protocol: string, bar: nat) returns (rules: seq<Rule>, r: Rule)
    requires bar < |protocol| && protocol[bar] == '|'
    ensures r in rules && OpenV4(r) && Str(r.protocol) == protocol
    ensures forall m :: m in Mirrored(rules) ==> !Counterpart(m, r)
  {
    r := Rule(Some(protocol), Some(ANYWHERE_V4), "", None, None, "");
    var other := Rule(Some(protocol[..bar]), Some(protocol[bar + 1..] + "|" + ANYWHERE_V6), "", None, None, "");
    rules := [r, other];
    CollidingKeys(protocol, bar, r, other);
    EndsInV6(protocol[bar + 1..]);
    NothingAddedForTwo(r, other);
    assert rules[0] == r;
    forall m | m in rules ensures !Counterpart(m, r) {
      if m == r { V4IsNotV6(); } else { assert |Str(m.protocol)| < |protocol|; }
    }
  }

  lemma V4IsNotV6()
    ensures ANYWHERE_V4 != ANYWHERE_V6
  {
    assert |ANYWHERE_V4| == 9 && |ANYWHERE_V6| == 4;
  }

  lemma EndsInV6(text: string)
    ensures ':' in text + "|" + ANYWHERE_V6 && text + "|" + ANYWHERE_V6 != ANYWHERE_V4
  {
    var tail := text + "|" + ANYWHERE_V6;
    assert tail[|text| + 1] == ':' && |tail| == |text| + 5;
    assert |ANYWHERE_V4| == 9 && ANYWHERE_V4[5] == '.';
  }

  lemma NothingAddedForTwo(r: Rule, other: Rule)
    requires OpenV4(r) && IsV6(other) && !OpenV4(other) && Key(other) == Key(V6Of(r))
    ensures Mirrored([r, other]) == [r, other]
  {
    var rules := [r, other];
    assert rules[1] == other;
    assert Key(other) in V6Keys(rules);
    forall x | x in rules && OpenV4(x) ensures Key(V6Of(x)) in V6Keys(rules) {
      assert x == r;
    }
    NothingToAdd(V6Keys(rules), rules);
  }

  lemma CollidingKeys(protocol: string, bar: nat, r: Rule, other: Rule)
    requires bar < |protocol| && protocol[bar] == '|'
    requires r == Rule(Some(protocol), Some(ANYWHERE_V4), "", None, None, "")
    requires other == Rule(Some(protocol[..bar]), Some(protocol[bar + 1..] + "|" + ANYWHERE_V6), "", None, None, "")
    ensures Key(other) == Key(V6Of(r))
  {
    assert protocol == protocol[..bar] + "|" + protocol[bar + 1..];
    var a, b := protocol[..bar], protocol[bar + 1..];
    assert a + "|" + (b + "|" + ANYWHERE_V6) + "|" + "" == (a + "|" + b) + "|" + ANYWHERE_V6 + "|" + "";
  }

  /** The same rule for ::/0 instead of 0.0.0.0/0, with all its other fields. */
  predicate IsCopy(m: Rule, r: Rule) {
    && r.peer == Some("0.0.0.0/0") && m.peer == Some("::/0") && m.peerType == "CIDR_BLOCK"
    && m.protocol == r.protocol && m.tcp == r.tcp && m.udp == r.udp && m.detail == r.detail
  }

  /** A rule was added if and only if it is the copy of a rule open to 0.0.0.0/0, and no
      rule for an IPv6 block had its key. */
  lemma OnlyMirrorsAreAdded(rules: seq<Rule>, m: Rule)
    ensures m in Mirrored(rules)[|rules|..] <==>
            && (exists r :: r in rules && IsCopy(m, r))
            && (forall x :: x in rules && x.peer.Some? && ':' in x.peer.value ==> Key(x) != Key(m))
  {
    var added := Added(V6Keys(rules), rules);
    assert Mirrored(rules)[|rules|..] == added;
    assert forall x :: x in rules ==> (Key(x) in V6Keys(rules) <== x.peer.Some? && ':' in x.peer.value);
    if m in added {
      AddedAreMirrors(V6Keys(rules), rules, m);
      var r :| r in rules && OpenV4(r) && m == V6Of(r) && Key(m) !in V6Keys(rules);
      assert IsCopy(m, r);
    }
    if (exists r :: r in rules && IsCopy(m, r)) && Key(m) !in V6Keys(rules) {
      var r :| r in rules && IsCopy(m, r);
      assert m == V6Of(r);
      AddedCovers(V6Keys(rules), rules, r);
    }
  }

  lemma {:induction false} NothingToAdd(existing: set<string>, rules: seq<Rule>)
    requires forall r :: r in rules && OpenV4(r) ==> Key(V6Of(r)) in existing
    ensures Added(existing, rules) == []
    decreases |rules|
  {
    if rules != [] { NothingToAdd(existing, rules[..|rules| - 1]); }
  }

  /** A second pass adds nothing, even when several IPv4 rules share a key. */
  lemma MirrorIsIdempotent(rules: seq<Rule>)
    ensures Mirrored(Mirrored(rules)) == Mirrored(rules)
  {
    MirrorAddsNothingTwice(rules);
  }

  lemma MirrorAddsNothingTwice(rules: seq<Rule>)
    ensures Added(V6Keys(Mirrored(rules)), Mirrored(rules)) == []
  {
    var all := Mirrored(rules);
    forall r | r in all && OpenV4(r) ensures Key(V6Of(r)) in V6Keys(all) {
      if r !in rules {
        AddedAreMirrors(V6Keys(rules), rules, r);
      } else if Key(V6Of(r)) in V6Keys(rules) {
        var m :| m in rules && IsV6(m) && Key(m) == Key(V6Of(r));
        assert m in all;
      } else {
        AddedCovers(V6Keys(rules), rules, r);
        assert V6Of(r) in all && IsV6(V6Of(r)) by { assert ANYWHERE_V6[0] == ':'; }
      }
    }
    NothingToAdd(V6Keys(all), all);
  }

  // -------------------------------------------------------- all the lists of a VCN

  predicate NothingMissing(l: SecurityList) {
    Added(V6Keys(l.ingress), l.ingress) == [] && Added(V6Keys(l.egress), l.egress) == []
  }

  function MirroredList(l: SecurityList): SecurityList {
    SecurityList(Mirrored(l.ingress), Mirrored(l.egress))
  }

  lemma MirroredListTwice(l: SecurityList)
    ensures NothingMissing(MirroredList(l))
  {
    MirrorAddsNothingTwice(l.ingress);
    MirrorAddsNothingTwice(l.egress);
  }

  lemma NothingMissingStays(l: SecurityList)
    requires NothingMissing(l)
    ensures MirroredList(l) == l
  {
  }

  /** The state of a pass: the lists in the cloud, how many more remote calls
      succeed, how many lists were updated, and whether a call failed. */
  datatype Run = Run(lists: Lists, calls: nat, updates: nat, failed: bool)

  function MirrorOne(run: Run, id: string): Run {
    if run.failed then run
    else if run.calls == 0 || id !in run.lists then run.(failed := true)
    else if NothingMissing(run.lists[id]) then run.(calls := run.calls - 1)
    else if run.calls == 1 then run.(calls := 0, failed := true)
    else
      Run(run.lists[id := MirroredList(run.lists[id])], run.calls - 2, run.updates + 1, false)
  }

  function MirrorAll(run: Run, ids: seq<string>): (after: Run)
    ensures after.lists.Keys == run.lists.Keys
  {
    if ids == [] then run else MirrorOne(MirrorAll(run, ids[..|ids| - 1]), ids[|ids| - 1])
  }

  class Client {
    var lists: Lists
    var calls: nat
    var updates: nat

    constructor (lists: Lists, calls: nat)
      ensures this.lists == lists && this.calls == calls && updates == 0
    {
      this.lists, this.calls, updates := lists, calls, 0;
    }

    /** One list: fetched, mirrored, and updated if a rule was added. */
    method MirrorList(id: string) returns (ok: bool)
      modifies this
      ensures Run(lists, calls, updates, !ok) == MirrorOne(Run(old(lists), old(calls), old(updates), false), id)
    {
      if calls == 0 || id !in lists { return false; }
      calls := calls - 1;
      var ingress, ingressAdded := MirrorRules(lists[id].ingress);
      var egress, egressAdded := MirrorRules(lists[id].egress);
      if !ingressAdded && !egressAdded { return true; }
      if calls == 0 { return false; }
      calls := calls - 1;
      lists := lists[id := SecurityList(ingress, egress)];
      updates := updates + 1;
      return true;
    }

    /** `mirrorToIPv6`: the lists in order; the first failed call ends it. */
    method MirrorToIPv6(ids: seq<string>) returns (ok: bool)
      modifies this
      ensures Run(lists, calls, updates, !ok) == MirrorAll(Run(old(lists), old(calls), old(updates), false), ids)
    {
      ghost var start := Run(lists, calls, updates, false);
      for i := 0 to |ids|
        invariant Run(lists, calls, updates, false) == MirrorAll(start, ids[..i])
      {
        NextList(start, ids, i);
        ok := MirrorList(ids[i]);
        if !ok {
          FailedStays(start, ids, i + 1);
          return false;
        }
      }
      assert ids[..|ids|] == ids;
      return true;
    }
  }

  lemma NextList(run: Run, ids: seq<string>, i: nat)
    requires i < |ids|
    ensures MirrorAll(run, ids[..i + 1]) == MirrorOne(MirrorAll(run, ids[..i]), ids[i])
  {
    assert ids[..i + 1][..i] == ids[..i];
  }

  lemma {:induction false} FailedStays(run: Run, ids: seq<string>, n: nat)
    requires n <= |ids| && MirrorAll(run, ids[..n]).failed
    ensures MirrorAll(run, ids) == MirrorAll(run, ids[..n])
    decreases |ids|
  {
    if n < |ids| {
      assert ids[..|ids| - 1][..n] == ids[..n];
      FailedStays(run, ids[..|ids| - 1], n);
    } else {
      assert ids[..n] == ids;
    }
  }

  predicate Grown(was: SecurityList, now: SecurityList) {
    now == was || now == MirroredList(was)
  }

  lemma GrownKeepsPrefix(was: SecurityList, now: SecurityList)
    requires Grown(was, now)
    ensures was.ingress <= now.ingress && was.egress <= now.egress
  {
  }

  lemma OneKeepsRules(run: Run, name: string, id: string, was: SecurityList)
    requires id in run.lists && Grown(was, run.lists[id])
    ensures id in MirrorOne(run, name).lists && Grown(was, MirrorOne(run, name).lists[id])
    ensures id != name ==> MirrorOne(run, name).lists[id] == run.lists[id]
  {
    if id == name && run.lists[id] != was { MirroredListTwice(was); }
  }

  /** The rules each list had stay an unchanged prefix, wherever a pass stops;
      every list is untouched or completely mirrored, and lists that were not
      named are untouched. */
  lemma {:induction false} PassKeepsRules(run: Run, ids: seq<string>, id: string)
    requires id in run.lists
    ensures var was, now := run.lists[id], MirrorAll(run, ids).lists[id];
            was.ingress <= now.ingress && was.egress <= now.egress && Grown(was, now)
    ensures id !in ids ==> MirrorAll(run, ids).lists[id] == run.lists[id]
    decreases |ids|
  {
    if ids != [] {
      PassKeepsRules(run, ids[..|ids| - 1], id);
      OneKeepsRules(MirrorAll(run, ids[..|ids| - 1]), ids[|ids| - 1], id, run.lists[id]);
      GrownKeepsPrefix(run.lists[id], MirrorAll(run, ids).lists[id]);
    }
  }

  lemma LastMirrors(run: Run, id: string, was: SecurityList)
    requires id in run.lists && Grown(was, run.lists[id]) && !MirrorOne(run, id).failed
    ensures MirrorOne(run, id).lists[id] == MirroredList(was)
  {
    if run.lists[id] != was {
      MirroredListTwice(was);
    } else if NothingMissing(was) {
      NothingMissingStays(was);
    }
  }

  lemma OneMirrors(run: Run, name: string, id: string, was: SecurityList)
    requires id in run.lists && run.lists[id] == MirroredList(was)
    ensures id in MirrorOne(run, name).lists && MirrorOne(run, name).lists[id] == MirroredList(was)
  {
    MirroredListTwice(was);
  }

  /** A pass that does not fail mirrors every list it was given. */
  lemma {:induction false} PassMirrorsAll(run: Run, ids: seq<string>, id: string)
    requires !MirrorAll(run, ids).failed && id in ids
    ensures id in run.lists && MirrorAll(run, ids).lists[id] == MirroredList(run.lists[id])
    decreases |ids|
  {
    var before, last := MirrorAll(run, ids[..|ids| - 1]), ids[|ids| - 1];
    assert !before.failed;
    if id in ids[..|ids| - 1] {
      PassMirrorsAll(run, ids[..|ids| - 1], id);
      OneMirrors(before, last, id, run.lists[id]);
    } else {
      PassKeepsRules(run, ids[..|ids| - 1], id);
      LastMirrors(before, id, run.lists[id]);
    }
  }

  /** After it, a second pass updates no list, however many of its calls fail. */
  lemma {:induction false} QuietWhenMirrored(run: Run, ids: seq<string>)
    requires forall id :: id in ids && id in run.lists ==> NothingMissing(run.lists[id])
    ensures MirrorAll(run, ids).lists == run.lists && MirrorAll(run, ids).updates == run.updates
    decreases |ids|
  {
    if ids != [] {
      QuietWhenMirrored(run, ids[..|ids| - 1]);
      assert ids[|ids| - 1] in ids;
    }
  }

  lemma SecondPassUpdatesNothing(run: Run, ids: seq<string>, again: Run)
    requires !MirrorAll(run, ids).failed && again.lists == MirrorAll(run, ids).lists
    ensures MirrorAll(again, ids).updates == again.updates && MirrorAll(again, ids).lists == again.lists
  {
    forall id | id in ids && id in again.lists ensures NothingMissing(again.lists[id]) {
      PassMirrorsAll(run, ids, id);
      MirroredListTwice(run.lists[id]);
    }
    QuietWhenMirrored(again, ids);
  }
}
