/** DNS auto-sync of explicit bindings: every enabled binding of an instance with a
    public address is made to point at that address, without touching records that
    are not the binding's own. */
module DnsReconcile {
  import opened Options
  import opened Texts

  datatype Record = Record(id: nat, rtype: string, name: string, content: string, proxied: bool, ttl: nat)

  datatype Binding = Binding(instance: string, name: string, cfgId: int, zone: string,
                             proxied: bool, ttl: nat, enabled: bool)

  datatype Instance = Instance(id: string, publicIP: string)

  datatype Account = Account(token: string, zone: string)

  datatype Settings = Settings(accounts: map<int, Account>, globalToken: string)

  type Zones = map<string, seq<Record>>

  /** How the remote calls for one binding end: the listing and two tries to write. */
  datatype Outcome = Outcome(listed: bool, first: bool, second: bool)

  /** One binding to reconcile, with the address it should have. */
  datatype Job = Job(binding: Binding, ip: string)

  // -------------------------------------------------------------------- names

  function Lower(s: string): string {
    if s == [] then [] else [Fold(s[0])] + Lower(s[1..])
  }

  function TrimDots(s: string): string
    decreases |s|
  {
    if s != [] && s[|s| - 1] == '.' then TrimDots(s[..|s| - 1]) else s
  }

  function Normalize(s: string): string {
    Lower(TrimDots(s))
  }

  lemma {:induction false} LowerIs(s: string)
    ensures |Lower(s)| == |s|
    ensures forall i :: 0 <= i < |s| ==>
              Lower(s)[i] == if 'A' <= s[i] <= 'Z' then (s[i] as int + 32) as char else s[i]
  {
    if s != [] { LowerIs(s[1..]); }
  }

  lemma {:induction false} TrimDotsIs(s: string)
    ensures TrimDots(s) <= s && (TrimDots(s) != [] ==> TrimDots(s)[|TrimDots(s)| - 1] != '.')
    ensures forall i :: |TrimDots(s)| <= i < |s| ==> s[i] == '.'
    decreases |s|
  {
    if s != [] && s[|s| - 1] == '.' { TrimDotsIs(s[..|s| - 1]); }
  }

  /** Names are compared without trailing dots and without regard to ASCII case. */
  lemma NormalizeIs(s: string) returns (n: nat)
    ensures n == |Normalize(s)| <= |s| && (n > 0 ==> s[n - 1] != '.') && forall i :: n <= i < |s| ==> s[i] == '.'
    ensures forall i :: 0 <= i < n ==>
              Normalize(s)[i] == if 'A' <= s[i] <= 'Z' then (s[i] as int + 32) as char else s[i]
  {
    TrimDotsIs(s);
    LowerIs(TrimDots(s));
    n := |TrimDots(s)|;
  }

  // ------------------------------------------------------------- which bindings

  predicate Usable(b: Binding) {
    b.enabled && b.name != ""
  }

  function UsableOnly(list: seq<Binding>): seq<Binding> {
    if list == [] then []
    else UsableOnly(list[..|list| - 1])
         + if Usable(list[|list| - 1]) then [list[|list| - 1]] else []
  }

  /** `ListInstanceDNSBindings`: an empty id selects every binding. */
  function BindingsOf(store: seq<Binding>, id: string): seq<Binding> {
    if store == [] then []
    else
      var last := store[|store| - 1];
      BindingsOf(store[..|store| - 1], id) + if id == "" || last.instance == id then [last] else []
  }

  function JobsFor(list: seq<Binding>, ip: string): (jobs: seq<Job>)
    ensures |jobs| == |list|
  {
    seq(|list|, i requires 0 <= i < |list| => Job(list[i], ip))
  }

  function JobsOf(inst: Instance, store: seq<Binding>): seq<Job> {
    if inst.publicIP == "" then [] else JobsFor(UsableOnly(BindingsOf(store, inst.id)), inst.publicIP)
  }

  function Jobs(instances: seq<Instance>, store: seq<Binding>): seq<Job> {
    if instances == [] then [] else JobsOf(instances[0], store) + Jobs(instances[1..], store)
  }

  lemma {:induction false} UsableOnlyAre(list: seq<Binding>, b: Binding)
    ensures b in UsableOnly(list) <==> b in list && b.enabled && b.name != ""
    decreases |list|
  {
    if list != [] {
      UsableOnlyAre(list[..|list| - 1], b);
      assert list == list[..|list| - 1] + [list[|list| - 1]];
    }
  }

  lemma {:induction false} BindingsOfAre(store: seq<Binding>, id: string, b: Binding)
    ensures b in BindingsOf(store, id) <==> b in store && (id == "" || b.instance == id)
    decreases |store|
  {
    if store != [] {
      BindingsOfAre(store[..|store| - 1], id, b);
      assert store == store[..|store| - 1] + [store[|store| - 1]];
    }
  }

  lemma JobsOfAre(inst: Instance, store: seq<Binding>, j: Job)
    ensures j in JobsOf(inst, store) <==>
            && inst.publicIP != "" && j.ip == inst.publicIP && j.binding in store
            && j.binding.enabled && j.binding.name != "" && (inst.id == "" || j.binding.instance == inst.id)
  {
    var own := UsableOnly(BindingsOf(store, inst.id));
    UsableOnlyAre(BindingsOf(store, inst.id), j.binding);
    BindingsOfAre(store, inst.id, j.binding);
    JobsForAre(own, inst.publicIP, j);
  }

  lemma JobsForAre(list: seq<Binding>, ip: string, j: Job)
    ensures j in JobsFor(list, ip) <==> j.binding in list && j.ip == ip
  {
    var jobs := JobsFor(list, ip);
    if j in jobs {
      var i :| 0 <= i < |jobs| && jobs[i] == j;
      assert list[i] == j.binding && j.ip == ip;
    }
    if j.binding in list && j.ip == ip {
      var i :| 0 <= i < |list| && list[i] == j.binding;
      assert jobs[i] == j;
    }
  }

  /** A pass works on exactly the enabled, named bindings of the instances that have an
      address; an instance without an id stands for every binding. */
  lemma {:induction false} JobsAre(instances: seq<Instance>, store: seq<Binding>, j: Job)
    ensures j in Jobs(instances, store) <==>
            exists i :: 0 <= i < |instances|
                        && instances[i].publicIP != "" && j.ip == instances[i].publicIP && j.binding in store
                        && j.binding.enabled && j.binding.name != ""
                        && (instances[i].id == "" || j.binding.instance == instances[i].id)
    decreases |instances|
  {
    if instances != [] {
      JobsAre(instances[1..], store, j);
      JobsOfAre(instances[0], store, j);
      assert forall i :: 0 <= i < |instances| - 1 ==> instances[1..][i] == instances[i + 1];
      if exists i :: 0 <= i < |instances| && j in JobsOf(instances[i], store) {
        var i :| 0 <= i < |instances| && j in JobsOf(instances[i], store);
        assert i > 0 ==> instances[1..][i - 1] == instances[i];
      }
    }
  }

  /** `cloudflareClientFor`: the zone to work in, if there is a token at all. The
      binding's own zone takes precedence over its account's. */
  function ZoneFor(conf: Settings, b: Binding): Option<string> {
    var token := if b.cfgId in conf.accounts && conf.accounts[b.cfgId].token != "" then conf.accounts[b.cfgId].token
                 else conf.globalToken;
    if token == "" then None
    else Some(if b.zone == "" && b.cfgId in conf.accounts then conf.accounts[b.cfgId].zone else b.zone)
  }

  // -------------------------------------------------------------- finding the record

  predicate Named(r: Record, target: string) {
    Normalize(r.name) == target
  }

  predicate IsAddress(r: Record, target: string) {
    Named(r, target) && r.rtype == "A"
  }

  /** The index of the first A record of that name; the length if there is none. */
  function FirstAddress(records: seq<Record>, target: string): (k: nat)
    ensures k <= |records|
    ensures k < |records| ==> IsAddress(records[k], target)
    ensures forall i :: 0 <= i < k ==> !IsAddress(records[i], target)
  {
    if records == [] then 0
    else
      var k := FirstAddress(records[..|records| - 1], target);
      if k < |records| - 1 then k
      else if IsAddress(records[|records| - 1], target) then |records| - 1
      else |records|
  }

  /** The type of the first record of that name that is not an A record. */
  function ConflictType(records: seq<Record>, target: string): string {
    if records == [] then ""
    else
      var before := ConflictType(records[..|records| - 1], target);
      var r := records[|records| - 1];
      if before != "" then before else if Named(r, target) && r.rtype != "A" then r.rtype else ""
  }

  /** `findBindingTarget`. */
  method FindBindingTarget(records: seq<Record>, name: string) returns (existing: Option<nat>, conflict: string)
    ensures conflict == ConflictType(records, Normalize(name))
    ensures existing == (var k := FirstAddress(records, Normalize(name));
                         if conflict != "" || k == |records| then None else Some(k))
  {
    var target := Normalize(name);
    existing, conflict := None, "";
    for i := 0 to |records|
      invariant conflict == ConflictType(records[..i], target)
      invariant existing == var k := FirstAddress(records[..i], target); if k == i then None else Some(k)
    {
      assert records[..i + 1][..i] == records[..i];
      if Normalize(records[i].name) == target {
        if records[i].rtype != "A" {
          if conflict == "" { conflict := records[i].rtype; }
        } else if existing == None {
          existing := Some(i);
        }
      }
    }
    assert records[..|records|] == records;
    if conflict != "" { existing := None; }
  }

  // ---------------------------------------------------------------- one binding

  function FreshId(records: seq<Record>): (id: nat)
    ensures forall i :: 0 <= i < |records| ==> records[i].id < id
  {
    if records == [] then 0
    else
      var rest := FreshId(records[1..]);
      if records[0].id < rest then rest else records[0].id + 1
  }

  /** What is written for a binding; a proxied record has the automatic TTL 1. */
  function Written(j: Job, id: nat): Record {
    var ttl := if j.binding.proxied then 1 else if j.binding.ttl == 0 then 120 else j.binding.ttl;
    Record(id, "A", j.binding.name, j.ip, j.binding.proxied, ttl)
  }

  datatype Plan = Nothing | Replace(at: nat) | Append

  /** What the binding needs in a zone that could be listed. */
  function PlanFor(records: seq<Record>, j: Job): (p: Plan)
    ensures p.Replace? ==> p.at < |records|
  {
    var target := Normalize(j.binding.name);
    var k := FirstAddress(records, target);
    if ConflictType(records, target) != "" then Nothing
    else if k == |records| then Append
    else if records[k].content == j.ip then Nothing
    else Replace(k)
  }

  function Execute(records: seq<Record>, p: Plan, j: Job): seq<Record>
    requires p.Replace? ==> p.at < |records|
  {
    match p
    case Nothing => records
    case Replace(k) => records[k := Written(j, records[k].id)]
    case Append => records + [Written(j, FreshId(records))]
  }

  predicate CanList(conf: Settings, zones: Zones, j: Job, o: Outcome) {
    ZoneFor(conf, j.binding).Some? && ZoneFor(conf, j.binding).value in zones && o.listed
  }

  /** The zones after `syncBindingToDNS`. */
  function Sync(conf: Settings, zones: Zones, j: Job, o: Outcome): Zones {
    if !CanList(conf, zones, j, o) || !(o.first || o.second) then zones
    else
      var z := ZoneFor(conf, j.binding).value;
      zones[z := Execute(zones[z], PlanFor(zones[z], j), j)]
  }

  /** The write calls it makes: the second try only follows a failed first one. */
  function WriteCalls(conf: Settings, zones: Zones, j: Job, o: Outcome): nat {
    if !CanList(conf, zones, j, o) || PlanFor(zones[ZoneFor(conf, j.binding).value], j) == Nothing then 0
    else if o.first then 1 else 2
  }

  function Pass(conf: Settings, zones: Zones, jobs: seq<Job>, outcomes: seq<Outcome>): (zones': Zones)
    requires |jobs| == |outcomes|
    ensures zones'.Keys == zones.Keys
    decreases |jobs|
  {
    if jobs == [] then zones
    else Pass(conf, Sync(conf, zones, jobs[0], outcomes[0]), jobs[1..], outcomes[1..])
  }

  function PassWrites(conf: Settings, zones: Zones, jobs: seq<Job>, outcomes: seq<Outcome>): nat
    requires |jobs| == |outcomes|
    decreases |jobs|
  {
    if jobs == [] then 0
    else WriteCalls(conf, zones, jobs[0], outcomes[0])
         + PassWrites(conf, Sync(conf, zones, jobs[0], outcomes[0]), jobs[1..], outcomes[1..])
  }

  // ------------------------------------------------------------------- the monitor

  class DnsMonitor {
    const settings: Settings
    var zones: Zones
    var lastIP: map<string, string>
    var writes: nat

    constructor (settings: Settings, zones: Zones)
      ensures this.settings == settings && this.zones == zones && lastIP == map[] && writes == 0
    {
      this.settings, this.zones, lastIP, writes := settings, zones, map[], 0;
    }

    /** `instanceBindings` filters the listed bindings in place. */
    static method KeepUsable(list: array<Binding>) returns (n: nat)
      modifies list
      ensures n <= list.Length && list[..n] == UsableOnly(old(list[..]))
    {
      n := 0;
      ghost var was := list[..];
      for i := 0 to list.Length
        invariant n <= i
        invariant list[..n] == UsableOnly(was[..i])
        invariant list[i..] == was[i..]
      {
        assert was[..i + 1][..i] == was[..i];
        assert list[i] == list[i..][0] == was[i];
        assert list[i + 1..] == list[i..][1..];
        var b := list[i];
        if b.enabled && b.name != "" {
          list[n] := b;
          n := n + 1;
        }
      }
      assert was[..list.Length] == was;
    }

    /** `syncBindingToDNS`, with one retry. */
    method SyncBinding(j: Job, o: Outcome)
      modifies this`zones, this`writes
      ensures zones == Sync(settings, old(zones), j, o)
      ensures writes == old(writes) + WriteCalls(settings, old(zones), j, o)
    {
      var zone := ZoneFor(settings, j.binding);
      if zone == None || zone.value !in zones || !o.listed { return; }
      var records := zones[zone.value];
      var existing, conflict := FindBindingTarget(records, j.binding.name);
      if conflict != "" { return; }
      if existing.Some? && records[existing.value].content == j.ip { return; }
      ghost var planned := Execute(records, PlanFor(records, j), j);
      var attempt, done := 1, false;
      while attempt <= 2 && !done
        invariant 1 <= attempt <= 3 && writes == old(writes) + attempt - 1
        invariant !done ==> zones == old(zones) && (attempt > 1 ==> !o.first) && (attempt > 2 ==> !o.second)
        invariant done ==> zones == old(zones)[zone.value := planned] && (o.first || o.second)
        invariant done ==> attempt == if o.first then 2 else 3
      {
        writes := writes + 1;
        done := if attempt == 1 then o.first else o.second;
        if done {
          var next := if existing.Some? then records[existing.value := Written(j, records[existing.value].id)]
                      else records + [Written(j, FreshId(records))];
          zones := zones[zone.value := next];
        }
        attempt := attempt + 1;
      }
    }

    /** The bindings of one instance, in the order they are stored. */
    method SyncInstance(inst: Instance, store: seq<Binding>, outcomes: seq<Outcome>)
      requires |outcomes| == |JobsOf(inst, store)|
      modifies this`zones, this`writes, this`lastIP
      ensures zones == Pass(settings, old(zones), JobsOf(inst, store), outcomes)
      ensures writes == old(writes) + PassWrites(settings, old(zones), JobsOf(inst, store), outcomes)
      ensures lastIP == if JobsOf(inst, store) == [] then old(lastIP) else old(lastIP)[inst.id := inst.publicIP]
    {
      if inst.publicIP == "" { return; }
      ghost var jobs := JobsOf(inst, store);
      var list := ListBindings(store, inst.id);
      var n := KeepUsable(list);
      var bindings := list[..n];
      if n == 0 { return; }
      for i := 0 to n
        invariant Pass(settings, zones, jobs[i..], outcomes[i..]) == Pass(settings, old(zones), jobs, outcomes)
        invariant writes + PassWrites(settings, zones, jobs[i..], outcomes[i..])
               == old(writes) + PassWrites(settings, old(zones), jobs, outcomes)
        invariant lastIP == old(lastIP)
      {
        assert jobs[i..][0] == Job(bindings[i], inst.publicIP);
        assert jobs[i..][1..] == jobs[i + 1..] && outcomes[i..][1..] == outcomes[i + 1..];
        SyncBinding(Job(bindings[i], inst.publicIP), outcomes[i]);
      }
      lastIP := lastIP[inst.id := inst.publicIP];
    }

    static method ListBindings(store: seq<Binding>, id: string) returns (list: array<Binding>)
      ensures fresh(list) && list[..] == BindingsOf(store, id)
    {
      var rows: seq<Binding> := [];
      for i := 0 to |store|
        invariant rows == BindingsOf(store[..i], id)
      {
        assert store[..i + 1][..i] == store[..i];
        if id == "" || store[i].instance == id { rows := rows + [store[i]]; }
      }
      assert store[..|store|] == store;
      list := new Binding[|rows|](i requires 0 <= i < |rows| => rows[i]);
      assert list[..] == rows;
    }

    /** `reconcileExplicitBindings`. */
    method Reconcile(instances: seq<Instance>, store: seq<Binding>, outcomes: seq<Outcome>)
      requires |outcomes| == |Jobs(instances, store)|
      modifies this
      ensures zones == Pass(settings, old(zones), Jobs(instances, store), outcomes)
      ensures writes == old(writes) + PassWrites(settings, old(zones), Jobs(instances, store), outcomes)
      ensures lastIP == LastIPs(old(lastIP), instances, store)
    {
      var rest := outcomes;
      for i := 0 to |instances|
        invariant |rest| == |Jobs(instances[i..], store)|
        invariant Pass(settings, zones, Jobs(instances[i..], store), rest)
               == Pass(settings, old(zones), Jobs(instances, store), outcomes)
        invariant writes + PassWrites(settings, zones, Jobs(instances[i..], store), rest)
               == old(writes) + PassWrites(settings, old(zones), Jobs(instances, store), outcomes)
        invariant LastIPs(lastIP, instances[i..], store) == LastIPs(old(lastIP), instances, store)
      {
        ghost var mine, others := JobsOf(instances[i], store), Jobs(instances[i + 1..], store);
        assert instances[i..][0] == instances[i] && instances[i..][1..] == instances[i + 1..];
        PassConcat(settings, zones, mine, others, rest);
        var n := |JobsOf(instances[i], store)|;
        SyncInstance(instances[i], store, rest[..n]);
        rest := rest[n..];
      }
      assert instances[|instances|..] == [];
    }
  }

  /** `dns_last_ip` is written for every instance with bindings, whatever the calls did. */
  function LastIPs(last: map<string, string>, instances: seq<Instance>, store: seq<Binding>): map<string, string>
    decreases |instances|
  {
    if instances == [] then last
    else
      var inst := instances[0];
      LastIPs(if JobsOf(inst, store) == [] then last else last[inst.id := inst.publicIP], instances[1..], store)
  }

  /** The instance has an address, and the store an enabled and named binding for it. */
  predicate HasBinding(inst: Instance, store: seq<Binding>) {
    inst.publicIP != "" && exists i :: 0 <= i < |store| && store[i].enabled && store[i].name != ""
                                       && (inst.id == "" || store[i].instance == inst.id)
  }

  lemma HasBindingIff(inst: Instance, store: seq<Binding>)
    ensures HasBinding(inst, store) <==> JobsOf(inst, store) != []
  {
    var jobs := JobsOf(inst, store);
    if jobs != [] {
      JobsOfAre(inst, store, jobs[0]);
      assert jobs[0] in jobs;
    }
    if HasBinding(inst, store) {
      var i :| 0 <= i < |store| && store[i].enabled && store[i].name != ""
               && (inst.id == "" || store[i].instance == inst.id);
      JobsOfAre(inst, store, Job(store[i], inst.publicIP));
    }
  }

  /** The last instance with that id that has a binding. */
  predicate IsLastBound(instances: seq<Instance>, store: seq<Binding>, id: string, k: nat)
    requires k < |instances|
  {
    && instances[k].id == id && HasBinding(instances[k], store)
    && forall m :: k < m < |instances| && instances[m].id == id ==> !HasBinding(instances[m], store)
  }

  predicate NoneBound(instances: seq<Instance>, store: seq<Binding>, id: string) {
    forall k :: 0 <= k < |instances| && instances[k].id == id ==> !HasBinding(instances[k], store)
  }

  /** After a pass the noted address of an id is that of the last instance with the id
      that has bindings, and the old one if there is none. */
  lemma {:induction false} LastIPsAre(last: map<string, string>, instances: seq<Instance>, store: seq<Binding>,
                                      id: string)
    ensures var noted := LastIPs(last, instances, store);
            NoneBound(instances, store, id) ==>
              (id in noted <==> id in last) && (id in last ==> noted[id] == last[id])
    ensures forall k :: 0 <= k < |instances| && IsLastBound(instances, store, id, k) ==>
              id in LastIPs(last, instances, store) && LastIPs(last, instances, store)[id] == instances[k].publicIP
    decreases |instances|
  {
    if instances != [] {
      var inst, rest := instances[0], instances[1..];
      HasBindingIff(inst, store);
      var next := if JobsOf(inst, store) == [] then last else last[inst.id := inst.publicIP];
      LastIPsAre(next, rest, store, id);
      assert forall k :: 0 <= k < |rest| ==> rest[k] == instances[k + 1];
      var noted := LastIPs(last, instances, store);
      forall k | 0 <= k < |instances| && IsLastBound(instances, store, id, k)
        ensures id in noted && noted[id] == instances[k].publicIP
      {
        if k > 0 {
          assert IsLastBound(rest, store, id, k - 1);
        } else {
          assert NoneBound(rest, store, id);
        }
      }
    }
  }

  lemma {:induction false} PassConcat(conf: Settings, zones: Zones, a: seq<Job>, b: seq<Job>, outcomes: seq<Outcome>)
    requires |outcomes| == |a + b|
    ensures var mid := Pass(conf, zones, a, outcomes[..|a|]);
            && Pass(conf, zones, a + b, outcomes) == Pass(conf, mid, b, outcomes[|a|..])
            && PassWrites(conf, zones, a + b, outcomes)
               == PassWrites(conf, zones, a, outcomes[..|a|]) + PassWrites(conf, mid, b, outcomes[|a|..])
    decreases |a|
  {
    if a == [] {
      assert a + b == b && outcomes[0..] == outcomes;
    } else {
      assert (a + b)[1..] == a[1..] + b;
      assert outcomes[1..][..|a| - 1] == outcomes[..|a|][1..] && outcomes[1..][|a| - 1..] == outcomes[|a|..];
      PassConcat(conf, Sync(conf, zones, a[0], outcomes[0]), a[1..], b, outcomes[1..]);
    }
  }

  // ---------------------------------------------------------- what one binding changes

  /** The content of the first A record of a name. */
  function AddressAt(records: seq<Record>, target: string): Option<string> {
    var k := FirstAddress(records, target);
    if k == |records| then None else Some(records[k].content)
  }

  lemma {:induction false} ConflictAfterUpdate(records: seq<Record>, k: nat, r: Record, target: string)
    requires k < |records| && records[k].rtype == "A" && r.rtype == "A"
    ensures ConflictType(records[k := r], target) == ConflictType(records, target)
    decreases |records|
  {
    var n := |records| - 1;
    if k < n {
      assert records[k := r][..n] == records[..n][k := r];
      ConflictAfterUpdate(records[..n], k, r, target);
    } else {
      assert records[k := r][..n] == records[..n];
    }
  }

  lemma FirstAddressIs(records: seq<Record>, target: string, k: nat)
    requires k <= |records| && (k < |records| ==> IsAddress(records[k], target))
    requires forall i :: 0 <= i < k ==> !IsAddress(records[i], target)
    ensures FirstAddress(records, target) == k
  {
    var first := FirstAddress(records, target);
    assert first < |records| ==> IsAddress(records[first], target);
  }

  lemma ReplaceChanges(records: seq<Record>, k: nat, j: Job, target: string)
    requires PlanFor(records, j) == Replace(k)
    ensures var after := Execute(records, Replace(k), j);
            && ConflictType(after, target) == ConflictType(records, target)
            && AddressAt(after, target) == if target == Normalize(j.binding.name) then Some(j.ip)
                                           else AddressAt(records, target)
  {
    var after := Execute(records, Replace(k), j);
    ConflictAfterUpdate(records, k, Written(j, records[k].id), target);
    var first := FirstAddress(records, target);
    forall i | 0 <= i < |records| ensures IsAddress(after[i], target) <==> IsAddress(records[i], target) {
      assert i != k ==> after[i] == records[i];
    }
    FirstAddressIs(after, target, first);
  }

  lemma AppendChanges(records: seq<Record>, j: Job, target: string)
    requires PlanFor(records, j) == Append
    ensures var after := Execute(records, Append, j);
            && ConflictType(after, target) == ConflictType(records, target)
            && AddressAt(after, target) == if target == Normalize(j.binding.name) then Some(j.ip)
                                           else AddressAt(records, target)
  {
    assert Execute(records, Append, j)[..|records|] == records;
  }

  lemma ExecuteChanges(records: seq<Record>, j: Job, target: string)
    ensures var after := Execute(records, PlanFor(records, j), j);
            && ConflictType(after, target) == ConflictType(records, target)
            && AddressAt(after, target) ==
               (if target == Normalize(j.binding.name) && ConflictType(records, target) == "" then Some(j.ip)
                else AddressAt(records, target))
  {
    match PlanFor(records, j)
    case Nothing =>
    case Replace(k) => ReplaceChanges(records, k, j, target);
    case Append => AppendChanges(records, j, target);
  }

  lemma SyncChanges(conf: Settings, zones: Zones, j: Job, o: Outcome, z: string, target: string)
    requires z in zones
    ensures var after := Sync(conf, zones, j, o);
            && z in after
            && ConflictType(after[z], target) == ConflictType(zones[z], target)
            && (!(ZoneFor(conf, j.binding) == Some(z) && target == Normalize(j.binding.name)) ==>
                  AddressAt(after[z], target) == AddressAt(zones[z], target))
            && (ZoneFor(conf, j.binding) == Some(z) && target == Normalize(j.binding.name)
                && o.listed && (o.first || o.second) && ConflictType(zones[z], target) == "" ==>
                  AddressAt(after[z], target) == Some(j.ip))
  {
    ExecuteChanges(zones[z], j, target);
  }

  // --------------------------------------------------------------- convergence

  /** The binding can be managed: its zone is reachable and has no other kind of
      record under its name. */
  predicate Eligible(conf: Settings, zones: Zones, j: Job) {
    && ZoneFor(conf, j.binding).Some? && ZoneFor(conf, j.binding).value in zones
    && ConflictType(zones[ZoneFor(conf, j.binding).value], Normalize(j.binding.name)) == ""
  }

  predicate SameRecord(conf: Settings, a: Job, b: Job) {
    ZoneFor(conf, a.binding) == ZoneFor(conf, b.binding) && Normalize(a.binding.name) == Normalize(b.binding.name)
  }

  predicate Agree(conf: Settings, zones: Zones, jobs: seq<Job>) {
    forall a, b :: a in jobs && b in jobs && Eligible(conf, zones, a) && SameRecord(conf, a, b) ==> a.ip == b.ip
  }

  predicate Settled(conf: Settings, zones: Zones, j: Job) {
    Eligible(conf, zones, j) ==>
      AddressAt(zones[ZoneFor(conf, j.binding).value], Normalize(j.binding.name)) == Some(j.ip)
  }

  /** No call fails for good: a retry may be needed. */
  predicate AllFine(outcomes: seq<Outcome>) {
    forall i :: 0 <= i < |outcomes| ==> outcomes[i].listed && (outcomes[i].first || outcomes[i].second)
  }

  lemma {:induction false} PassKeepsConflicts(conf: Settings, zones: Zones, jobs: seq<Job>, outcomes: seq<Outcome>,
                                              z: string, target: string)
    requires |jobs| == |outcomes| && z in zones
    ensures z in Pass(conf, zones, jobs, outcomes)
    ensures ConflictType(Pass(conf, zones, jobs, outcomes)[z], target) == ConflictType(zones[z], target)
    decreases |jobs|
  {
    if jobs != [] {
      SyncChanges(conf, zones, jobs[0], outcomes[0], z, target);
      PassKeepsConflicts(conf, Sync(conf, zones, jobs[0], outcomes[0]), jobs[1..], outcomes[1..], z, target);
    }
  }

  lemma EligibleAfter(conf: Settings, zones: Zones, jobs: seq<Job>, outcomes: seq<Outcome>, j: Job)
    requires |jobs| == |outcomes|
    ensures Eligible(conf, Pass(conf, zones, jobs, outcomes), j) == Eligible(conf, zones, j)
  {
    var z := ZoneFor(conf, j.binding);
    if z.Some? && z.value in zones {
      PassKeepsConflicts(conf, zones, jobs, outcomes, z.value, Normalize(j.binding.name));
    }
  }

  /** Once a binding had its turn, the others that share its record keep it settled. */
  lemma {:induction false} PassSettles(conf: Settings, zones: Zones, jobs: seq<Job>, outcomes: seq<Outcome>, j: Job)
    requires |jobs| == |outcomes| && AllFine(outcomes) && Eligible(conf, zones, j)
    requires j in jobs || Settled(conf, zones, j)
    requires forall b :: b in jobs && SameRecord(conf, j, b) ==> b.ip == j.ip
    ensures Settled(conf, Pass(conf, zones, jobs, outcomes), j)
    decreases |jobs|
  {
    if jobs != [] {
      var z, target := ZoneFor(conf, j.binding).value, Normalize(j.binding.name);
      SyncChanges(conf, zones, jobs[0], outcomes[0], z, target);
      PassSettles(conf, Sync(conf, zones, jobs[0], outcomes[0]), jobs[1..], outcomes[1..], j);
    }
  }

  /** One pass in which no call fails for good points every manageable binding's
      first A record at its instance's address, exactly when the bindings that
      share a record agree on the address. */
  lemma PassConverges(conf: Settings, zones: Zones, jobs: seq<Job>, outcomes: seq<Outcome>)
    requires |jobs| == |outcomes| && AllFine(outcomes)
    ensures (forall j :: j in jobs ==> Settled(conf, Pass(conf, zones, jobs, outcomes), j)) <==>
            Agree(conf, zones, jobs)
  {
    var after := Pass(conf, zones, jobs, outcomes);
    if Agree(conf, zones, jobs) {
      forall j | j in jobs ensures Settled(conf, after, j) {
        EligibleAfter(conf, zones, jobs, outcomes, j);
        if Eligible(conf, zones, j) { PassSettles(conf, zones, jobs, outcomes, j); }
      }
    }
    if forall j :: j in jobs ==> Settled(conf, after, j) {
      forall a, b | a in jobs && b in jobs && Eligible(conf, zones, a) && SameRecord(conf, a, b) ensures a.ip == b.ip {
        EligibleAfter(conf, zones, jobs, outcomes, a);
        EligibleAfter(conf, zones, jobs, outcomes, b);
        assert Settled(conf, after, a) && Settled(conf, after, b);
      }
    }
  }

  /** Convergence in the pass's own terms: if no call fails for good, every enabled and
      named binding of an instance with an address, whose zone is reachable and has only
      A records under its name, ends with the first of them at that address, provided
      that the bindings with its zone and name agree on the address. */
  lemma ReconcileConverges(conf: Settings, zones: Zones, instances: seq<Instance>, store: seq<Binding>,
                           outcomes: seq<Outcome>, inst: Instance, b: Binding, z: string)
    returns (k: nat)
    requires |outcomes| == |Jobs(instances, store)|
    requires forall i :: 0 <= i < |outcomes| ==> outcomes[i].listed && (outcomes[i].first || outcomes[i].second)
    requires inst in instances && inst.publicIP != ""
    requires b in store && b.enabled && b.name != "" && (inst.id == "" || b.instance == inst.id)
    requires conf.globalToken != "" || (b.cfgId in conf.accounts && conf.accounts[b.cfgId].token != "")
    requires z == if b.zone == "" && b.cfgId in conf.accounts then conf.accounts[b.cfgId].zone else b.zone
    requires z in zones && forall i :: 0 <= i < |zones[z]| && Normalize(zones[z][i].name) == Normalize(b.name) ==>
                             zones[z][i].rtype == "A"
    requires forall other, c :: other in instances && other.publicIP != "" && c in store && c.enabled
                                && (other.id == "" || c.instance == other.id)
                                && ZoneFor(conf, c) == Some(z) && Normalize(c.name) == Normalize(b.name) ==>
               other.publicIP == inst.publicIP
    ensures var after := Pass(conf, zones, Jobs(instances, store), outcomes);
            && z in after && k < |after[z]|
            && after[z][k].rtype == "A" && Normalize(after[z][k].name) == Normalize(b.name)
            && after[z][k].content == inst.publicIP
            && forall i :: 0 <= i < k && Normalize(after[z][i].name) == Normalize(b.name) ==> after[z][i].rtype != "A"
  {
    var jobs, j := Jobs(instances, store), Job(b, inst.publicIP);
    JobsAre(instances, store, j);
    var i :| 0 <= i < |instances| && instances[i] == inst;
    NoConflictMeans(zones[z], Normalize(b.name));
    forall a | a in jobs && SameRecord(conf, j, a) ensures a.ip == j.ip {
      JobsAre(instances, store, a);
    }
    PassSettles(conf, zones, jobs, outcomes, j);
    EligibleAfter(conf, zones, jobs, outcomes, j);
    k := FirstAddress(Pass(conf, zones, jobs, outcomes)[z], Normalize(b.name));
  }

  /** Where every binding is settled, a pass makes no write call, whatever fails. */
  lemma {:induction false} SettledPassIsQuiet(conf: Settings, zones: Zones, jobs: seq<Job>, outcomes: seq<Outcome>)
    requires |jobs| == |outcomes| && forall j :: j in jobs ==> Settled(conf, zones, j)
    ensures PassWrites(conf, zones, jobs, outcomes) == 0 && Pass(conf, zones, jobs, outcomes) == zones
    decreases |jobs|
  {
    if jobs != [] {
      assert Settled(conf, zones, jobs[0]);
      assert Sync(conf, zones, jobs[0], outcomes[0]) == zones;
      assert forall j :: j in jobs[1..] ==> j in jobs;
      SettledPassIsQuiet(conf, Sync(conf, zones, jobs[0], outcomes[0]), jobs[1..], outcomes[1..]);
    }
  }

  /** The second pass after a fine first one, over the same bindings, writes nothing. */
  lemma SecondPassWritesNothing(conf: Settings, zones: Zones, instances: seq<Instance>, store: seq<Binding>,
                                first: seq<Outcome>, second: seq<Outcome>)
    requires |first| == |second| == |Jobs(instances, store)| && AllFine(first)
    requires Agree(conf, zones, Jobs(instances, store))
    ensures var after := Pass(conf, zones, Jobs(instances, store), first);
            && PassWrites(conf, after, Jobs(instances, store), second) == 0
            && Pass(conf, after, Jobs(instances, store), second) == after
  {
    PassConverges(conf, zones, Jobs(instances, store), first);
    SettledPassIsQuiet(conf, Pass(conf, zones, Jobs(instances, store), first), Jobs(instances, store), second);
  }

  // ---------------------------------------------------------------------- frame

  /** The record is what one of the bindings asks for in that zone; a proxied record
      has the automatic TTL 1, and 120 stands for none. */
  predicate WrittenFor(conf: Settings, jobs: seq<Job>, z: string, r: Record) {
    exists i :: 0 <= i < |jobs| && WrittenForOne(conf, jobs[i], z, r)
  }

  predicate WrittenForOne(conf: Settings, j: Job, z: string, r: Record) {
    && ZoneFor(conf, j.binding) == Some(z)
    && r.rtype == "A" && r.name == j.binding.name && r.content == j.ip && r.proxied == j.binding.proxied
    && r.ttl == if j.binding.proxied then 1 else if j.binding.ttl == 0 then 120 else j.binding.ttl
  }

  predicate SameName(a: Record, b: Record) {
    Normalize(a.name) == Normalize(b.name)
  }

  /** Records only change to what a binding asks for, and only if they are the first A
      record of their name and no record of another type has it; they keep their id and
      normalized name. New records are what a binding asks for, and their name had none. */
  predicate Framed(conf: Settings, jobs: seq<Job>, z: string, was: seq<Record>, now: seq<Record>) {
    && |was| <= |now|
    && (forall i :: 0 <= i < |was| ==> RecordFramed(conf, jobs, z, was, i, now[i]))
    && (forall i :: |was| <= i < |now| ==> IsAdded(conf, jobs, z, was, now[i]))
  }

  predicate RecordFramed(conf: Settings, jobs: seq<Job>, z: string, was: seq<Record>, i: nat, r: Record)
    requires i < |was|
  {
    || r == was[i]
    || (&& WrittenFor(conf, jobs, z, r) && was[i].rtype == "A" && r.id == was[i].id && SameName(r, was[i])
        && (forall k :: 0 <= k < i && SameName(was[k], r) ==> was[k].rtype != "A")
        && (forall k :: 0 <= k < |was| && SameName(was[k], r) ==> was[k].rtype == "A" || was[k].rtype == ""))
  }

  predicate IsAdded(conf: Settings, jobs: seq<Job>, z: string, was: seq<Record>, r: Record) {
    && WrittenFor(conf, jobs, z, r)
    && (forall k :: 0 <= k < |was| && SameName(was[k], r) ==> was[k].rtype == "")
  }

  lemma {:induction false} NoConflictMeans(records: seq<Record>, target: string)
    ensures ConflictType(records, target) == "" <==>
            forall k :: 0 <= k < |records| && Normalize(records[k].name) == target ==>
              records[k].rtype == "A" || records[k].rtype == ""
    decreases |records|
  {
    if records != [] {
      NoConflictMeans(records[..|records| - 1], target);
      assert forall k :: 0 <= k < |records| - 1 ==> records[..|records| - 1][k] == records[k];
    }
  }

  lemma SyncFrame(conf: Settings, zones: Zones, j: Job, o: Outcome, z: string)
    requires z in zones
    ensures z in Sync(conf, zones, j, o) && Framed(conf, [j], z, zones[z], Sync(conf, zones, j, o)[z])
  {
    var was, now := zones[z], Sync(conf, zones, j, o)[z];
    if now != was {
      NoConflictMeans(was, Normalize(j.binding.name));
      match PlanFor(was, j)
      case Replace(k) =>
        assert WrittenForOne(conf, [j][0], z, now[k]);
        assert RecordFramed(conf, [j], z, was, k, now[k]);
      case Append =>
        assert WrittenForOne(conf, [j][0], z, now[|was|]);
        assert IsAdded(conf, [j], z, was, now[|was|]);
    }
  }

  lemma WrittenForMore(conf: Settings, head: seq<Job>, rest: seq<Job>, z: string, r: Record)
    requires WrittenFor(conf, head, z, r) || WrittenFor(conf, rest, z, r)
    ensures WrittenFor(conf, head + rest, z, r)
  {
    if WrittenFor(conf, head, z, r) {
      var i :| 0 <= i < |head| && WrittenForOne(conf, head[i], z, r);
      assert WrittenForOne(conf, (head + rest)[i], z, r);
    } else {
      var i :| 0 <= i < |rest| && WrittenForOne(conf, rest[i], z, r);
      assert WrittenForOne(conf, (head + rest)[|head| + i], z, r);
    }
  }

  /** Names and types of the old records outlast framed changes. */
  lemma FramedKeepsNames(conf: Settings, jobs: seq<Job>, z: string, was: seq<Record>, now: seq<Record>, k: nat)
    requires Framed(conf, jobs, z, was, now) && k < |was|
    ensures now[k].rtype == was[k].rtype && SameName(now[k], was[k]) && now[k].id == was[k].id
  {
    assert RecordFramed(conf, jobs, z, was, k, now[k]);
  }

  lemma FramedTrans(conf: Settings, head: seq<Job>, rest: seq<Job>, z: string,
                    a: seq<Record>, b: seq<Record>, c: seq<Record>)
    requires Framed(conf, head, z, a, b) && Framed(conf, rest, z, b, c)
    ensures Framed(conf, head + rest, z, a, c)
  {
    forall k | 0 <= k < |a| ensures b[k].rtype == a[k].rtype && SameName(b[k], a[k]) && b[k].id == a[k].id {
      FramedKeepsNames(conf, head, z, a, b, k);
    }
    forall i | 0 <= i < |a| ensures RecordFramed(conf, head + rest, z, a, i, c[i]) {
      assert RecordFramed(conf, head, z, a, i, b[i]) && RecordFramed(conf, rest, z, b, i, c[i]);
      if c[i] != a[i] { WrittenForMore(conf, head, rest, z, c[i]); }
    }
    forall i | |a| <= i < |c| ensures IsAdded(conf, head + rest, z, a, c[i]) {
      if i < |b| {
        assert IsAdded(conf, head, z, a, b[i]);
        assert RecordFramed(conf, rest, z, b, i, c[i]);
      } else {
        assert IsAdded(conf, rest, z, b, c[i]);
      }
      WrittenForMore(conf, head, rest, z, c[i]);
    }
  }

  /** The frame of a pass, whatever calls fail: records that are not A records,
      records of names no binding uses, and A records that are not the first of
      their name stay exactly as they are, at their place. */
  lemma {:induction false} PassFrame(conf: Settings, zones: Zones, jobs: seq<Job>, outcomes: seq<Outcome>, z: string)
    requires |jobs| == |outcomes| && z in zones
    ensures z in Pass(conf, zones, jobs, outcomes)
    ensures Framed(conf, jobs, z, zones[z], Pass(conf, zones, jobs, outcomes)[z])
    decreases |jobs|
  {
    if jobs != [] {
      var mid := Sync(conf, zones, jobs[0], outcomes[0]);
      SyncFrame(conf, zones, jobs[0], outcomes[0], z);
      PassFrame(conf, mid, jobs[1..], outcomes[1..], z);
      FramedTrans(conf, [jobs[0]], jobs[1..], z, zones[z], mid[z], Pass(conf, mid, jobs[1..], outcomes[1..])[z]);
      assert [jobs[0]] + jobs[1..] == jobs;
    }
  }
}
