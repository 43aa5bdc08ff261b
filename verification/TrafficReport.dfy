/** The traffic report of a tenant: regions are read concurrently, summed into
    account totals, and served with the heaviest outbound traffic first. */
module TrafficReport {
  import opened TaskPool
  import opened Traffic

  /** How reading one region ends. A goroutine that panics is recovered and leaves
      its slot as it was; `expired` tells that the time budget had run out. */
  datatype Outcome =
    | Panicked
    | Failed(failure: Failure)
    | Fetched(detail: Detail, expired: bool)

  datatype Failure = InvalidRegion | NoClient | NoInstances | NoTraffic

  function ErrorText(f: Failure): (text: string)
    ensures text != ""
  {
    match f
    case InvalidRegion => "invalid region"
    case NoClient => "client init failed"
    case NoInstances => "list instances failed"
    case NoTraffic => "fetch traffic failed"
  }

  datatype RegionStat = RegionStat(region: string, instanceCount: nat, inbound: real, outbound: real,
                                   instances: seq<InstanceStat>, error: string, partial: bool,
                                   unreadable: nat, failed: nat)

  const EMPTY_SLOT := RegionStat("", 0, 0.0, 0.0, [], "", false, 0, 0)

  datatype Message =
    | RegionError(region: string, error: string)
    | PartialData(region: string, unreadable: nat, failed: nat)

  datatype Report = Report(regions: seq<RegionStat>, regionCount: nat, instanceCount: nat,
                           inbound: real, outbound: real, partial: bool, errors: seq<Message>, exceeded: bool)

  // ------------------------------------------------------------------ one region

  function StatsInbound(stats: seq<InstanceStat>): real {
    if stats == [] then 0.0 else StatsInbound(stats[..|stats| - 1]) + stats[|stats| - 1].inbound
  }

  function StatsOutbound(stats: seq<InstanceStat>): real {
    if stats == [] then 0.0 else StatsOutbound(stats[..|stats| - 1]) + stats[|stats| - 1].outbound
  }

  /** The region's totals are sums over its instances; it is partial if a measurement
      failed, or if time ran out while there was something to measure. */
  function RegionOf(region: string, o: Outcome): RegionStat {
    match o
    case Panicked => EMPTY_SLOT
    case Failed(failure) => EMPTY_SLOT.(region := region, error := ErrorText(failure))
    case Fetched(d, expired) =>
      RegionStat(region, |d.stats|, StatsInbound(d.stats), StatsOutbound(d.stats), d.stats, "",
                 d.unreadable > 0 || d.failed > 0 || (expired && |d.stats| > 0), d.unreadable, d.failed)
  }

  /** `collectRegionTraffic`, which either returns or panics. */
  method CollectRegion(region: string, o: Outcome) returns (stat: RegionStat)
    requires !o.Panicked?
    ensures stat == RegionOf(region, o)
  {
    stat := EMPTY_SLOT.(region := region);
    if o.Failed? { return stat.(error := ErrorText(o.failure)); }
    var d := o.detail;
    var inbound, outbound := 0.0, 0.0;
    for i := 0 to |d.stats|
      invariant inbound == StatsInbound(d.stats[..i]) && outbound == StatsOutbound(d.stats[..i])
    {
      assert d.stats[..i + 1][..i] == d.stats[..i];
      inbound := inbound + d.stats[i].inbound;
      outbound := outbound + d.stats[i].outbound;
    }
    assert d.stats[..|d.stats|] == d.stats;
    stat := stat.(instanceCount := |d.stats|, instances := d.stats, unreadable := d.unreadable, failed := d.failed,
                  partial := d.unreadable > 0 || d.failed > 0 || (o.expired && |d.stats| > 0),
                  inbound := inbound, outbound := outbound);
  }

  // --------------------------------------------------------------------- totals

  datatype Totals = Totals(regions: nat, instances: nat, inbound: real, outbound: real)

  /** Sums over the regions without an error. */
  function TotalsOf(stats: seq<RegionStat>): Totals {
    if stats == [] then Totals(0, 0, 0.0, 0.0)
    else AddRegion(TotalsOf(stats[..|stats| - 1]), stats[|stats| - 1])
  }

  function AddRegion(t: Totals, r: RegionStat): Totals {
    if r.error != "" then t
    else Totals(t.regions + 1, t.instances + r.instanceCount, t.inbound + r.inbound, t.outbound + r.outbound)
  }

  function MessageFor(r: RegionStat): seq<Message> {
    if r.error != "" then [RegionError(r.region, r.error)]
    else if r.partial then [PartialData(r.region, r.unreadable, r.failed)]
    else []
  }

  function Messages(stats: seq<RegionStat>): seq<Message> {
    if stats == [] then [] else Messages(stats[..|stats| - 1]) + MessageFor(stats[|stats| - 1])
  }

  predicate AnyPartial(stats: seq<RegionStat>) {
    exists i :: 0 <= i < |stats| && stats[i].error == "" && stats[i].partial
  }

  // ------------------------------------------------------------------- the order

  /** Puts a region behind all that are at least as heavy: insertion that keeps the
      order of equals. */
  function Insert(sorted: seq<RegionStat>, r: RegionStat): seq<RegionStat> {
    if sorted == [] then [r]
    else
      var last := sorted[|sorted| - 1];
      if r.outbound > last.outbound then Insert(sorted[..|sorted| - 1], r) + [last] else sorted + [r]
  }

  /** The stable sort by outbound traffic, heaviest first. */
  function Sorted(stats: seq<RegionStat>): seq<RegionStat> {
    if stats == [] then [] else Insert(Sorted(stats[..|stats| - 1]), stats[|stats| - 1])
  }

  ghost predicate Descending(stats: seq<RegionStat>) {
    forall i, j :: 0 <= i < j < |stats| ==> stats[i].outbound >= stats[j].outbound
  }

  /** The regions of one weight, in order. */
  function OfWeight(stats: seq<RegionStat>, w: real): seq<RegionStat> {
    if stats == [] then []
    else OfWeight(stats[..|stats| - 1], w) + if stats[|stats| - 1].outbound == w then [stats[|stats| - 1]] else []
  }

  lemma {:induction false} InsertMultiset(sorted: seq<RegionStat>, r: RegionStat)
    ensures multiset(Insert(sorted, r)) == multiset(sorted) + multiset{r}
    decreases |sorted|
  {
    if sorted != [] {
      var front, last := sorted[..|sorted| - 1], sorted[|sorted| - 1];
      assert sorted == front + [last];
      if r.outbound > last.outbound { InsertMultiset(front, r); }
    }
  }

  lemma {:induction false} InsertDescending(sorted: seq<RegionStat>, r: RegionStat)
    requires Descending(sorted)
    ensures Descending(Insert(sorted, r))
    decreases |sorted|
  {
    if sorted != [] {
      var front, last := sorted[..|sorted| - 1], sorted[|sorted| - 1];
      if r.outbound > last.outbound {
        InsertDescending(front, r);
        InsertMultiset(front, r);
        var rest := Insert(front, r);
        forall i | 0 <= i < |rest| ensures rest[i].outbound >= last.outbound {
          assert rest[i] in multiset(rest);
          assert rest[i] in front || rest[i] == r;
        }
      }
    }
  }

  lemma {:induction false} InsertKeepsWeight(sorted: seq<RegionStat>, r: RegionStat, w: real)
    requires Descending(sorted)
    ensures OfWeight(Insert(sorted, r), w) == OfWeight(sorted, w) + if r.outbound == w then [r] else []
    decreases |sorted|
  {
    if sorted != [] {
      var front, last := sorted[..|sorted| - 1], sorted[|sorted| - 1];
      if r.outbound > last.outbound {
        InsertKeepsWeight(front, r, w);
        assert (Insert(front, r) + [last])[..|Insert(front, r)|] == Insert(front, r);
        if r.outbound == w {
          assert OfWeight(sorted, w) == OfWeight(front, w);
        }
      } else {
        assert (sorted + [r])[..|sorted|] == sorted;
      }
    }
  }

  /** The sort is a descending rearrangement that keeps the order of equals. */
  lemma {:induction false} SortedIsStable(stats: seq<RegionStat>, w: real)
    ensures Descending(Sorted(stats)) && multiset(Sorted(stats)) == multiset(stats)
    ensures OfWeight(Sorted(stats), w) == OfWeight(stats, w)
    decreases |stats|
  {
    if stats != [] {
      var front, last := stats[..|stats| - 1], stats[|stats| - 1];
      assert stats == front + [last];
      SortedIsStable(front, w);
      InsertMultiset(Sorted(front), last);
      InsertDescending(Sorted(front), last);
      InsertKeepsWeight(Sorted(front), last, w);
    }
  }

  lemma {:induction false} WeightMember(stats: seq<RegionStat>, r: RegionStat)
    requires r in stats
    ensures r in OfWeight(stats, r.outbound)
    decreases |stats|
  {
    if r != stats[|stats| - 1] { WeightMember(stats[..|stats| - 1], r); }
  }

  lemma {:induction false} WeightOnly(stats: seq<RegionStat>, w: real)
    ensures forall r :: r in OfWeight(stats, w) ==> r in stats && r.outbound == w
    decreases |stats|
  {
    if stats != [] { WeightOnly(stats[..|stats| - 1], w); }
  }

  lemma LastIsLightest(stats: seq<RegionStat>, other: seq<RegionStat>)
    requires stats != [] && other != [] && Descending(stats) && Descending(other)
    requires forall w: real :: SameWeight(stats, other, w)
    ensures stats[|stats| - 1].outbound >= other[|other| - 1].outbound
  {
    var last := stats[|stats| - 1];
    assert SameWeight(stats, other, last.outbound);
    WeightMember(stats, last);
    WeightOnly(other, last.outbound);
    assert last in OfWeight(other, last.outbound);
  }

  /** Any sort that is descending and keeps the order of equals gives this result. */
  lemma {:induction false} StableSortIsUnique(a: seq<RegionStat>, b: seq<RegionStat>)
    requires Descending(a) && Descending(b) && forall w: real :: SameWeight(a, b, w)
    ensures a == b
    decreases |a|
  {
    if a == [] {
      if b != [] {
        assert SameWeight(a, b, b[0].outbound);
        WeightMember(b, b[0]);
      }
    } else {
      var x := a[|a| - 1];
      assert SameWeight(a, b, x.outbound);
      WeightMember(a, x);
      WeightOnly(b, x.outbound);
      assert b != [] by { assert x in OfWeight(b, x.outbound); }
      LastIsLightest(a, b);
      SameIsSymmetric(a, b);
      LastIsLightest(b, a);
      DropLast(a, b, x.outbound);
      var a', b' := a[..|a| - 1], b[..|b| - 1];
      forall w: real ensures SameWeight(a', b', w) {
        assert SameWeight(a, b, w);
        DropLast(a, b, w);
      }
      StableSortIsUnique(a', b');
      assert a == a' + [x] && b == b' + [x];
    }
  }

  ghost predicate SameWeight(a: seq<RegionStat>, b: seq<RegionStat>, w: real) {
    OfWeight(a, w) == OfWeight(b, w)
  }

  lemma SameIsSymmetric(a: seq<RegionStat>, b: seq<RegionStat>)
    requires forall w: real :: SameWeight(a, b, w)
    ensures forall w: real :: SameWeight(b, a, w)
  {
    forall w: real ensures SameWeight(b, a, w) {
      assert SameWeight(a, b, w);
    }
  }

  lemma DropLast(a: seq<RegionStat>, b: seq<RegionStat>, w: real)
    requires a != [] && b != [] && a[|a| - 1].outbound == b[|b| - 1].outbound && SameWeight(a, b, w)
    ensures SameWeight(a[..|a| - 1], b[..|b| - 1], w)
    ensures a[|a| - 1].outbound == w ==> a[|a| - 1] == b[|b| - 1]
  {
    if a[|a| - 1].outbound == w {
      SnocUnique(OfWeight(a[..|a| - 1], w), a[|a| - 1], OfWeight(b[..|b| - 1], w), b[|b| - 1]);
    } else {
      assert OfWeight(a, w) == OfWeight(a[..|a| - 1], w) && OfWeight(b, w) == OfWeight(b[..|b| - 1], w);
    }
  }

  lemma SnocUnique(u: seq<RegionStat>, x: RegionStat, v: seq<RegionStat>, y: RegionStat)
    requires u + [x] == v + [y]
    ensures u == v && x == y
  {
    assert |u + [x]| == |v + [y]|;
    assert u == (u + [x])[..|u|] && v == (v + [y])[..|v|];
    assert x == (u + [x])[|u|] && y == (v + [y])[|v|];
  }

  // ------------------------------------------------------------------ the account

  function Slots(regions: seq<string>, outcomes: nat -> Outcome): (slots: seq<RegionStat>)
    ensures |slots| == |regions|
  {
    seq(|regions|, i requires 0 <= i < |regions| => RegionOf(regions[i], outcomes(i)))
  }

  function ReportOf(slots: seq<RegionStat>, quota: real): Report {
    var t := TotalsOf(slots);
    Report(Sorted(slots), t.regions, t.instances, t.inbound, t.outbound, AnyPartial(slots), Messages(slots),
           quota > 0.0 && t.outbound > quota)
  }

  /** `collectTrafficStats`; `order` is the order in which the goroutines end. */
  method CollectStats(regions: seq<string>, outcomes: nat -> Outcome, order: seq<nat>, quota: real)
    returns (report: Report)
    requires Permutation(order, |regions|)
    ensures report == ReportOf(Slots(regions, outcomes), quota)
  {
    var results := CollectAll(regions, outcomes, order);
    var t, partial, errors := Totals(0, 0, 0.0, 0.0), false, [];
    for i := 0 to |results|
      invariant t == TotalsOf(results[..i]) && errors == Messages(results[..i])
      invariant partial == AnyPartial(results[..i])
    {
      OneMoreRegion(results, i);
      var rs := results[i];
      if rs.error != "" {
        errors := errors + [RegionError(rs.region, rs.error)];
        continue;
      }
      t := Totals(t.regions + 1, t.instances + rs.instanceCount, t.inbound + rs.inbound, t.outbound + rs.outbound);
      if rs.partial {
        partial := true;
        errors := errors + [PartialData(rs.region, rs.unreadable, rs.failed)];
      }
    }
    assert results[..|results|] == results;
    report := Report(Sorted(results), t.regions, t.instances, t.inbound, t.outbound, partial, errors,
                     quota > 0.0 && t.outbound > quota);
  }

  method CollectAll(regions: seq<string>, outcomes: nat -> Outcome, order: seq<nat>) returns (results: seq<RegionStat>)
    requires Permutation(order, |regions|)
    ensures results == Slots(regions, outcomes)
  {
    var n := |regions|;
    var slots := new RegionStat[n](_ => EMPTY_SLOT);
    for k := 0 to n
      invariant forall i: nat :: i < n ==>
                  slots[i] == if i in order[..k] then RegionOf(regions[i], outcomes(i)) else EMPTY_SLOT
    {
      var i := order[k];
      assert order[..k + 1] == order[..k] + [i];
      if !outcomes(i).Panicked? {
        var stat := CollectRegion(regions[i], outcomes(i));
        slots[i] := stat;
      }
    }
    assert order[..n] == order;
    results := slots[..];
  }

  lemma OneMoreRegion(stats: seq<RegionStat>, i: nat)
    requires i < |stats|
    ensures TotalsOf(stats[..i + 1]) == AddRegion(TotalsOf(stats[..i]), stats[i])
    ensures Messages(stats[..i + 1]) == Messages(stats[..i]) + MessageFor(stats[i])
    ensures AnyPartial(stats[..i + 1]) <==> AnyPartial(stats[..i]) || (stats[i].error == "" && stats[i].partial)
  {
    var before, after := stats[..i], stats[..i + 1];
    assert after[..i] == before;
    if AnyPartial(before) {
      var k :| 0 <= k < i && before[k].error == "" && before[k].partial;
      assert after[k] == before[k];
    }
    if AnyPartial(after) {
      var k :| 0 <= k < i + 1 && after[k].error == "" && after[k].partial;
      assert k < i ==> before[k] == after[k];
    }
    assert after[i] == stats[i];
  }

  // ------------------------------------------------------------------ properties

  lemma {:induction false} TotalsInsert(sorted: seq<RegionStat>, r: RegionStat)
    ensures TotalsOf(Insert(sorted, r)) == AddRegion(TotalsOf(sorted), r)
    decreases |sorted|
  {
    if sorted != [] {
      var front, last := sorted[..|sorted| - 1], sorted[|sorted| - 1];
      if r.outbound > last.outbound {
        TotalsInsert(front, r);
        var rest := Insert(front, r);
        assert (rest + [last])[..|rest|] == rest;
      } else {
        assert (sorted + [r])[..|sorted|] == sorted;
      }
    }
  }

  /** Sorting changes no total: the served regions still add up to the account's. */
  lemma {:induction false} SortingKeepsTotals(stats: seq<RegionStat>)
    ensures TotalsOf(Sorted(stats)) == TotalsOf(stats)
    decreases |stats|
  {
    if stats != [] {
      SortingKeepsTotals(stats[..|stats| - 1]);
      TotalsInsert(Sorted(stats[..|stats| - 1]), stats[|stats| - 1]);
    }
  }

  /** The region was read and nothing in it is missing. */
  predicate Complete(o: Outcome) {
    o.Fetched? && o.detail.unreadable == 0 && o.detail.failed == 0 && !(o.expired && |o.detail.stats| > 0)
  }

  lemma {:induction false} MessagesEmpty(stats: seq<RegionStat>)
    ensures Messages(stats) == [] <==> forall i :: 0 <= i < |stats| ==> stats[i].error == "" && !stats[i].partial
    decreases |stats|
  {
    if stats != [] {
      MessagesEmpty(stats[..|stats| - 1]);
      assert forall i :: 0 <= i < |stats| - 1 ==> stats[..|stats| - 1][i] == stats[i];
    }
  }

  /** `Errors` is empty exactly when each region was read completely or its goroutine
      panicked: a recovered panic leaves no trace. */
  lemma ErrorsEmptyIff(regions: seq<string>, outcomes: nat -> Outcome, quota: real)
    ensures ReportOf(Slots(regions, outcomes), quota).errors == []
       <==> forall i: nat :: i < |regions| ==> outcomes(i).Panicked? || Complete(outcomes(i))
  {
    var slots := Slots(regions, outcomes);
    MessagesEmpty(slots);
    forall i: nat | i < |regions|
      ensures slots[i].error == "" && !slots[i].partial <==> outcomes(i).Panicked? || Complete(outcomes(i))
    {
      assert slots[i] == RegionOf(regions[i], outcomes(i));
    }
  }

  /** So the empty list means that everything was read exactly when no goroutine
      panics beside regions that are otherwise complete. */
  lemma ErrorsMeanCompletenessIff(regions: seq<string>, outcomes: nat -> Outcome, quota: real)
    ensures ((ReportOf(Slots(regions, outcomes), quota).errors == [])
             == (forall i: nat :: i < |regions| ==> Complete(outcomes(i))))
       <==> ((forall i: nat :: i < |regions| ==> !outcomes(i).Panicked?)
             || (exists i: nat :: i < |regions| && !outcomes(i).Panicked? && !Complete(outcomes(i))))
  {
    ErrorsEmptyIff(regions, outcomes, quota);
  }

  /** The regions without an error, panicked ones included, among the first `n`. */
  function RegionsIn(outcomes: nat -> Outcome, n: nat): nat {
    if n == 0 then 0 else RegionsIn(outcomes, n - 1) + if outcomes(n - 1).Failed? then 0 else 1
  }

  /** The instances that were found in the first `n` regions. */
  function InstancesIn(outcomes: nat -> Outcome, n: nat): nat {
    if n == 0 then 0
    else InstancesIn(outcomes, n - 1) + if outcomes(n - 1).Fetched? then |outcomes(n - 1).detail.stats| else 0
  }

  lemma {:induction false} CountedUpTo(slots: seq<RegionStat>, regions: seq<string>, outcomes: nat -> Outcome, n: nat)
    requires n <= |slots| == |regions| && forall i :: 0 <= i < |slots| ==> slots[i] == RegionOf(regions[i], outcomes(i))
    ensures TotalsOf(slots[..n]).regions == RegionsIn(outcomes, n)
    ensures TotalsOf(slots[..n]).instances == InstancesIn(outcomes, n)
  {
    if n > 0 {
      CountedUpTo(slots, regions, outcomes, n - 1);
      OneMoreRegion(slots, n - 1);
      RegionAdds(TotalsOf(slots[..n - 1]), regions[n - 1], outcomes(n - 1));
    }
  }

  lemma RegionAdds(t: Totals, region: string, o: Outcome)
    ensures var t' := AddRegion(t, RegionOf(region, o));
            && t'.regions == t.regions + (if o.Failed? then 0 else 1)
            && t'.instances == t.instances + (if o.Fetched? then |o.detail.stats| else 0)
  {
  }

  predicate IsPartial(o: Outcome) {
    && o.Fetched?
    && (o.detail.unreadable > 0 || o.detail.failed > 0 || (o.expired && o.detail.stats != []))
  }

  lemma PartialIff(regions: seq<string>, outcomes: nat -> Outcome)
    ensures AnyPartial(Slots(regions, outcomes)) <==> exists i: nat :: i < |regions| && IsPartial(outcomes(i))
  {
    var slots := Slots(regions, outcomes);
    forall i: nat | i < |regions| ensures (slots[i].error == "" && slots[i].partial) <==> IsPartial(outcomes(i)) {
      assert slots[i] == RegionOf(regions[i], outcomes(i));
    }
  }

  /** The report counts every region without an error, also those whose goroutine
      panicked, and the instances found; it is partial exactly if something in a region
      that was read is missing. */
  lemma RegionsAreCounted(regions: seq<string>, outcomes: nat -> Outcome, quota: real)
    ensures var report := ReportOf(Slots(regions, outcomes), quota);
            && report.regionCount == RegionsIn(outcomes, |regions|)
            && report.instanceCount == InstancesIn(outcomes, |regions|)
            && (report.partial <==> exists i: nat :: i < |regions| && IsPartial(outcomes(i)))
  {
    CountedUpTo(Slots(regions, outcomes), regions, outcomes, |regions|);
    PartialIff(regions, outcomes);
    assert Slots(regions, outcomes)[..|regions|] == Slots(regions, outcomes);
  }

  // ---------------------------------------------------- down to the measurements

  function VnicsOutbound(stats: seq<InstanceStat>): real {
    if stats == [] then 0.0 else VnicsOutbound(stats[..|stats| - 1]) + OutboundSum(stats[|stats| - 1].vnics)
  }

  function VnicsInbound(stats: seq<InstanceStat>): real {
    if stats == [] then 0.0 else VnicsInbound(stats[..|stats| - 1]) + InboundSum(stats[|stats| - 1].vnics)
  }

  predicate AllRolled(stats: seq<InstanceStat>) {
    forall i :: 0 <= i < |stats| ==> Rolled(stats[i])
  }

  lemma {:induction false} RolledSums(stats: seq<InstanceStat>)
    requires AllRolled(stats)
    ensures StatsInbound(stats) == VnicsInbound(stats) && StatsOutbound(stats) == VnicsOutbound(stats)
    decreases |stats|
  {
    if stats != [] { RolledSums(stats[..|stats| - 1]); }
  }

  /** What the measurements of the regions that could be read add up to. */
  function Measured(regions: seq<string>, outcomes: nat -> Outcome, n: nat): (real, real)
    requires n <= |regions|
  {
    if n == 0 then (0.0, 0.0)
    else
      var (inbound, outbound) := Measured(regions, outcomes, n - 1);
      match outcomes(n - 1)
      case Fetched(d, _) => (inbound + VnicsInbound(d.stats), outbound + VnicsOutbound(d.stats))
      case _ => (inbound, outbound)
  }

  lemma {:induction false} TotalsAreMeasured(regions: seq<string>, outcomes: nat -> Outcome, n: nat)
    requires n <= |regions|
    requires forall i: nat :: i < n && outcomes(i).Fetched? ==> AllRolled(outcomes(i).detail.stats)
    ensures var t := TotalsOf(Slots(regions, outcomes)[..n]);
            (t.inbound, t.outbound) == Measured(regions, outcomes, n)
  {
    if n > 0 {
      TotalsAreMeasured(regions, outcomes, n - 1);
      var slots := Slots(regions, outcomes);
      assert slots[..n][..n - 1] == slots[..n - 1] && slots[..n][n - 1] == RegionOf(regions[n - 1], outcomes(n - 1));
      if outcomes(n - 1).Fetched? { RolledSums(outcomes(n - 1).detail.stats); }
    }
  }

  /** A region that was fetched holds what the cloud answered. */
  predicate ReadFrom(o: Outcome, refs: seq<Ref>, region: string, a: Answers) {
    o.Fetched? ==> o.detail == DetailOf(refs, region, a)
  }

  lemma RegionsRolled(regions: seq<string>, outcomes: nat -> Outcome, refs: nat -> seq<Ref>, answers: nat -> Answers)
    requires forall i: nat :: i < |regions| ==> ReadFrom(outcomes(i), refs(i), regions[i], answers(i))
    ensures forall i: nat :: i < |regions| && outcomes(i).Fetched? ==> AllRolled(outcomes(i).detail.stats)
  {
    forall i: nat | i < |regions| && outcomes(i).Fetched? ensures AllRolled(outcomes(i).detail.stats) {
      assert ReadFrom(outcomes(i), refs(i), regions[i], answers(i));
      DetailRolled(refs(i), regions[i], answers(i));
    }
  }

  lemma SlotTotalsAreMeasured(regions: seq<string>, outcomes: nat -> Outcome)
    requires forall i: nat :: i < |regions| && outcomes(i).Fetched? ==> AllRolled(outcomes(i).detail.stats)
    ensures var t := TotalsOf(Slots(regions, outcomes));
            (t.inbound, t.outbound) == Measured(regions, outcomes, |regions|)
  {
    TotalsAreMeasured(regions, outcomes, |regions|);
    assert Slots(regions, outcomes)[..|regions|] == Slots(regions, outcomes);
  }

  /** The account's totals are the sums, over all regions that could be read, of all
      VNIC measurements in them. */
  lemma AccountTotalsRollUp(regions: seq<string>, outcomes: nat -> Outcome, quota: real,
                            refs: nat -> seq<Ref>, answers: nat -> Answers)
    requires forall i: nat :: i < |regions| ==> ReadFrom(outcomes(i), refs(i), regions[i], answers(i))
    ensures var report := ReportOf(Slots(regions, outcomes), quota);
            (report.inbound, report.outbound) == Measured(regions, outcomes, |regions|)
  {
    RegionsRolled(regions, outcomes, refs, answers);
    SlotTotalsAreMeasured(regions, outcomes);
  }

  lemma DetailRolled(refs: seq<Ref>, region: string, a: Answers)
    ensures AllRolled(DetailOf(refs, region, a).stats)
  {
    forall k: nat | k < |DetailOf(refs, region, a).stats| ensures Rolled(DetailOf(refs, region, a).stats[k]) {
      InstanceTotalsRollUp(refs, region, a, k);
    }
  }
}
