/** Traffic roll-up: measurements are read concurrently into slots of their own and
    then summed per VNIC, instance, region and account. Rounding of floating-point
    numbers is not modelled. */
module Traffic {
  import opened Options
  import opened Sequences
  import opened TaskPool

  datatype Ref = Ref(id: string, name: string)

  datatype ListedVnic = ListedVnic(id: Option<string>, name: string)

  datatype Vnic = Vnic(id: string, name: string, inbound: real, outbound: real)

  datatype InstanceStat = InstanceStat(id: string, name: string, region: string, inbound: real, outbound: real,
                                       vnics: seq<Vnic>)

  datatype Detail = Detail(stats: seq<InstanceStat>, unreadable: nat, failed: nat)

  // ------------------------------------------------------------------ one metric

  /** The datapoints of one metric stream; a value may be missing. */
  type Points = seq<Option<real>>

  function PointSum(points: Points): real {
    if points == [] then 0.0
    else PointSum(points[..|points| - 1]) + (if points[|points| - 1].Some? then points[|points| - 1].value else 0.0)
  }

  function ItemSum(items: seq<Points>): real {
    if items == [] then 0.0 else ItemSum(items[..|items| - 1]) + PointSum(items[|items| - 1])
  }

  /** A present value counts, a missing one does not, wherever it stands. */
  lemma {:induction false} PointCounts(a: Points, point: Option<real>, b: Points)
    ensures PointSum(a + [point] + b) == PointSum(a) + PointSum(b) + match point case None => 0.0 case Some(x) => x
    decreases |b|
  {
    if b == [] {
      assert a + [point] + b == a + [point] && (a + [point])[..|a|] == a;
    } else {
      var n := |b| - 1;
      assert (a + [point] + b)[..|a| + 1 + n] == a + [point] + b[..n];
      PointCounts(a, point, b[..n]);
    }
  }

  /** `sumVnicMetric`: each rate is scaled by the step; together they are the rates'
      sum times the step. */
  method SumVnicMetric(items: seq<Points>, step: real) returns (sum: real)
    ensures sum == ItemSum(items) * step
  {
    sum := 0.0;
    for i := 0 to |items|
      invariant sum == ItemSum(items[..i]) * step
    {
      assert items[..i + 1][..i] == items[..i];
      var points := items[i];
      for d := 0 to |points|
        invariant sum == (ItemSum(items[..i]) + PointSum(points[..d])) * step
      {
        assert points[..d + 1][..d] == points[..d];
        if points[d].Some? { sum := sum + points[d].value * step; }
      }
      assert points[..|points|] == points;
    }
    assert items[..|items|] == items;
  }

  // ----------------------------------------------------------------------- tasks

  /** One monitoring query: which VNIC of which instance, and the direction. */
  datatype Task = Task(inst: nat, vnic: nat, inbound: bool)

  function TasksOf(inst: nat, vnics: nat): seq<Task> {
    if vnics == 0 then []
    else TasksOf(inst, vnics - 1) + [Task(inst, vnics - 1, true), Task(inst, vnics - 1, false)]
  }

  function Tasks(resolved: seq<seq<Vnic>>): seq<Task> {
    if resolved == [] then []
    else Tasks(resolved[..|resolved| - 1]) + TasksOf(|resolved| - 1, |resolved[|resolved| - 1]|)
  }

  predicate TaskFits(t: Task, resolved: seq<seq<Vnic>>) {
    t.inst < |resolved| && t.vnic < |resolved[t.inst]|
  }

  lemma {:induction false} TasksOfAre(inst: nat, vnics: nat)
    ensures forall t :: t in TasksOf(inst, vnics) <==> t.inst == inst && t.vnic < vnics
    ensures Distinct(TasksOf(inst, vnics))
  {
    if vnics > 0 {
      TasksOfAre(inst, vnics - 1);
      var rest := TasksOf(inst, vnics - 1);
      assert forall i :: 0 <= i < |rest| ==> rest[i] in rest;
    }
  }

  /** Every direction of every VNIC is queried exactly once. */
  lemma {:induction false} TasksAre(resolved: seq<seq<Vnic>>)
    ensures forall t :: t in Tasks(resolved) <==> TaskFits(t, resolved)
    ensures Distinct(Tasks(resolved))
    decreases |resolved|
  {
    if resolved != [] {
      var front, last := resolved[..|resolved| - 1], resolved[|resolved| - 1];
      TasksAre(front);
      TasksOfAre(|front|, |last|);
      assert forall i :: 0 <= i < |Tasks(front)| ==> Tasks(front)[i] in Tasks(front);
      var own := TasksOf(|front|, |last|);
      assert forall i :: 0 <= i < |own| ==> own[i] in own;
    }
  }

  // -------------------------------------------------------------------- crediting

  function InboundSum(vnics: seq<Vnic>): real {
    if vnics == [] then 0.0 else InboundSum(vnics[..|vnics| - 1]) + vnics[|vnics| - 1].inbound
  }

  function OutboundSum(vnics: seq<Vnic>): real {
    if vnics == [] then 0.0 else OutboundSum(vnics[..|vnics| - 1]) + vnics[|vnics| - 1].outbound
  }

  /** A measurement overwrites its VNIC's value and is added to the instance's. */
  function CreditInstance(stat: InstanceStat, t: Task, x: real): InstanceStat
    requires t.vnic < |stat.vnics|
  {
    if t.inbound then
      stat.(inbound := stat.inbound + x, vnics := stat.vnics[t.vnic := stat.vnics[t.vnic].(inbound := x)])
    else
      stat.(outbound := stat.outbound + x, vnics := stat.vnics[t.vnic := stat.vnics[t.vnic].(outbound := x)])
  }

  predicate Shaped(stats: seq<InstanceStat>, resolved: seq<seq<Vnic>>) {
    |stats| == |resolved| && forall i :: 0 <= i < |stats| ==> |stats[i].vnics| == |resolved[i]|
  }

  predicate AllFit(tasks: seq<Task>, resolved: seq<seq<Vnic>>) {
    forall k :: 0 <= k < |tasks| ==> TaskFits(tasks[k], resolved)
  }

  function Credited(stats: seq<InstanceStat>, tasks: seq<Task>, sums: seq<real>, resolved: seq<seq<Vnic>>):
    (r: seq<InstanceStat>)
    requires Shaped(stats, resolved) && AllFit(tasks, resolved) && |sums| == |tasks|
    ensures Shaped(r, resolved)
  {
    if tasks == [] then stats
    else
      var n := |tasks| - 1;
      var rest := Credited(stats, tasks[..n], sums[..n], resolved);
      rest[tasks[n].inst := CreditInstance(rest[tasks[n].inst], tasks[n], sums[n])]
  }

  lemma CreditedStep(stats: seq<InstanceStat>, tasks: seq<Task>, sums: seq<real>, resolved: seq<seq<Vnic>>, k: nat)
    requires Shaped(stats, resolved) && AllFit(tasks, resolved) && k < |sums| == |tasks|
    ensures TaskFits(tasks[k], resolved)
    ensures var rest, t := Credited(stats, tasks[..k], sums[..k], resolved), tasks[k];
            Credited(stats, tasks[..k + 1], sums[..k + 1], resolved)
            == rest[t.inst := CreditInstance(rest[t.inst], t, sums[k])]
  {
    assert tasks[..k + 1][..k] == tasks[..k] && sums[..k + 1][..k] == sums[..k];
  }

  function Slot(stats: seq<InstanceStat>, t: Task): real
    requires t.inst < |stats| && t.vnic < |stats[t.inst].vnics|
  {
    var v := stats[t.inst].vnics[t.vnic];
    if t.inbound then v.inbound else v.outbound
  }

  lemma {:induction false} SumsAfterUpdate(vnics: seq<Vnic>, j: nat, v: Vnic)
    requires j < |vnics|
    ensures InboundSum(vnics[j := v]) == InboundSum(vnics) - vnics[j].inbound + v.inbound
    ensures OutboundSum(vnics[j := v]) == OutboundSum(vnics) - vnics[j].outbound + v.outbound
    decreases |vnics|
  {
    var n := |vnics| - 1;
    if j < n {
      assert vnics[j := v][..n] == vnics[..n][j := v];
      SumsAfterUpdate(vnics[..n], j, v);
    } else {
      assert vnics[j := v][..n] == vnics[..n];
    }
  }

  predicate Rolled(stat: InstanceStat) {
    stat.inbound == InboundSum(stat.vnics) && stat.outbound == OutboundSum(stat.vnics)
  }

  lemma CreditKeepsRolled(stat: InstanceStat, t: Task, x: real)
    requires Rolled(stat) && t.vnic < |stat.vnics|
    requires (if t.inbound then stat.vnics[t.vnic].inbound else stat.vnics[t.vnic].outbound) == 0.0
    ensures Rolled(CreditInstance(stat, t, x))
  {
    var v := stat.vnics[t.vnic];
    SumsAfterUpdate(stat.vnics, t.vnic, if t.inbound then v.(inbound := x) else v.(outbound := x));
  }

  lemma CreditedSlot(stats: seq<InstanceStat>, from: Task, x: real, t: Task)
    requires from.inst < |stats| && from.vnic < |stats[from.inst].vnics|
    requires t.inst < |stats| && t.vnic < |stats[t.inst].vnics|
    ensures Slot(stats[from.inst := CreditInstance(stats[from.inst], from, x)], t)
         == if t == from then x else Slot(stats, t)
  {
  }

  /** A slot holds its own measurement once that was credited, and zero before. */
  lemma {:induction false} CreditedSlots(stats: seq<InstanceStat>, tasks: seq<Task>, sums: seq<real>,
                                         resolved: seq<seq<Vnic>>, t: Task)
    requires Shaped(stats, resolved) && AllFit(tasks, resolved) && |sums| == |tasks| && Distinct(tasks)
    requires TaskFits(t, resolved) && Slot(stats, t) == 0.0
    ensures t !in tasks ==> Slot(Credited(stats, tasks, sums, resolved), t) == 0.0
    ensures forall k :: 0 <= k < |tasks| && tasks[k] == t ==> Slot(Credited(stats, tasks, sums, resolved), t) == sums[k]
    decreases |tasks|
  {
    if tasks != [] {
      var n := |tasks| - 1;
      var front, rest := tasks[..n], Credited(stats, tasks[..n], sums[..n], resolved);
      CreditedSlots(stats, front, sums[..n], resolved, t);
      CreditedSlot(rest, tasks[n], sums[n], t);
      assert Credited(stats, tasks, sums, resolved)
          == rest[tasks[n].inst := CreditInstance(rest[tasks[n].inst], tasks[n], sums[n])];
      assert forall k :: 0 <= k < n ==> front[k] == tasks[k] && sums[..n][k] == sums[k];
    }
  }

  /** Each instance total is the sum over its VNICs, after any number of tasks. */
  lemma {:induction false} CreditedRolled(stats: seq<InstanceStat>, tasks: seq<Task>, sums: seq<real>,
                                          resolved: seq<seq<Vnic>>, i: nat)
    requires Shaped(stats, resolved) && AllFit(tasks, resolved) && |sums| == |tasks| && Distinct(tasks)
    requires i < |stats| && Rolled(stats[i])
    requires forall t :: TaskFits(t, resolved) ==> Slot(stats, t) == 0.0
    ensures Rolled(Credited(stats, tasks, sums, resolved)[i])
    decreases |tasks|
  {
    if tasks != [] {
      var n := |tasks| - 1;
      CreditedRolled(stats, tasks[..n], sums[..n], resolved, i);
      var rest := Credited(stats, tasks[..n], sums[..n], resolved);
      if tasks[n].inst == i {
        assert TaskFits(tasks[n], resolved);
        CreditedSlots(stats, tasks[..n], sums[..n], resolved, tasks[n]);
        CreditKeepsRolled(rest[i], tasks[n], sums[n]);
      }
    }
  }

  // ------------------------------------------------------ one region's measurements

  /** What the cloud answers: the VNICs of the i-th instance, and the sum for the
      k-th query; None is an error. */
  datatype Answers = Answers(vnics: nat -> Option<seq<ListedVnic>>, sums: nat -> Option<real>)

  function Known(listed: seq<ListedVnic>): seq<Vnic> {
    if listed == [] then []
    else
      var v := listed[|listed| - 1];
      Known(listed[..|listed| - 1]) + if v.id.Some? then [Vnic(v.id.value, v.name, 0.0, 0.0)] else []
  }

  function VnicsOf(a: Answers, i: nat): seq<Vnic> {
    if a.vnics(i).Some? then Known(a.vnics(i).value) else []
  }

  function SumOf(a: Answers, k: nat): real {
    if a.sums(k).Some? then a.sums(k).value else 0.0
  }

  function Resolved(a: Answers, n: nat): (r: seq<seq<Vnic>>)
    ensures |r| == n
  {
    seq(n, i requires 0 <= i < n => VnicsOf(a, i))
  }

  function Sums(a: Answers, n: nat): (r: seq<real>)
    ensures |r| == n
  {
    seq(n, k requires 0 <= k < n => SumOf(a, k))
  }

  function Initial(refs: seq<Ref>, region: string, resolved: seq<seq<Vnic>>): (stats: seq<InstanceStat>)
    requires |resolved| == |refs|
    ensures Shaped(stats, resolved)
  {
    seq(|refs|, i requires 0 <= i < |refs| => InstanceStat(refs[i].id, refs[i].name, region, 0.0, 0.0, resolved[i]))
  }

  function CountNone<T>(answers: nat -> Option<T>, n: nat): nat {
    if n == 0 then 0 else CountNone(answers, n - 1) + if answers(n - 1) == None then 1 else 0
  }

  function QueryCount(refs: seq<Ref>, a: Answers): nat {
    |Tasks(Resolved(a, |refs|))|
  }

  function DetailOf(refs: seq<Ref>, region: string, a: Answers): Detail {
    var resolved := Resolved(a, |refs|);
    var tasks := Tasks(resolved);
    TasksFit(resolved);
    Detail(Credited(Initial(refs, region, resolved), tasks, Sums(a, |tasks|), resolved),
           CountNone(a.vnics, |refs|), CountNone(a.sums, |tasks|))
  }

  lemma TasksFit(resolved: seq<seq<Vnic>>)
    ensures AllFit(Tasks(resolved), resolved)
  {
    TasksAre(resolved);
    assert forall k :: 0 <= k < |Tasks(resolved)| ==> Tasks(resolved)[k] in Tasks(resolved);
  }

  method KnownVnics(listed: seq<ListedVnic>) returns (vnics: seq<Vnic>)
    ensures vnics == Known(listed)
  {
    vnics := [];
    for i := 0 to |listed|
      invariant vnics == Known(listed[..i])
    {
      assert listed[..i + 1][..i] == listed[..i];
      if listed[i].id == None { continue; }
      vnics := vnics + [Vnic(listed[i].id.value, listed[i].name, 0.0, 0.0)];
    }
    assert listed[..|listed|] == listed;
  }

  /** The first phase; the goroutines finish in the given order. */
  method ResolveVnics(n: nat, a: Answers, order: seq<nat>) returns (resolved: array<seq<Vnic>>, unreadable: array<bool>)
    requires Permutation(order, n)
    ensures resolved[..] == Resolved(a, n)
    ensures unreadable.Length == n && forall i :: 0 <= i < n ==> unreadable[i] == (a.vnics(i) == None)
  {
    resolved := new seq<Vnic>[n](_ => []);
    unreadable := new bool[n](_ => false);
    for k := 0 to n
      invariant forall i: nat :: i < n ==> resolved[i] == if i in order[..k] then VnicsOf(a, i) else []
      invariant forall i: nat :: i < n ==> unreadable[i] == (i in order[..k] && a.vnics(i) == None)
    {
      var i := order[k];
      assert order[..k + 1] == order[..k] + [i];
      if a.vnics(i) == None {
        unreadable[i] := true;
      } else {
        var vnics := KnownVnics(a.vnics(i).value);
        resolved[i] := vnics;
      }
    }
    assert order[..n] == order;
  }

  /** The second phase, again in any order. */
  method MeasureAll(n: nat, a: Answers, order: seq<nat>) returns (sums: array<real>, failed: array<bool>)
    requires Permutation(order, n)
    ensures sums[..] == Sums(a, n)
    ensures failed.Length == n && forall k :: 0 <= k < n ==> failed[k] == (a.sums(k) == None)
  {
    sums := new real[n](_ => 0.0);
    failed := new bool[n](_ => false);
    for d := 0 to n
      invariant forall k: nat :: k < n ==> sums[k] == if k in order[..d] then SumOf(a, k) else 0.0
      invariant forall k: nat :: k < n ==> failed[k] == (k in order[..d] && a.sums(k) == None)
    {
      var k := order[d];
      assert order[..d + 1] == order[..d] + [k];
      if a.sums(k) == None {
        failed[k] := true;
      } else {
        sums[k] := a.sums(k).value;
      }
    }
    assert order[..n] == order;
  }

  method ListTasks(resolved: seq<seq<Vnic>>) returns (tasks: seq<Task>)
    ensures tasks == Tasks(resolved)
  {
    tasks := [];
    for i := 0 to |resolved|
      invariant tasks == Tasks(resolved[..i])
    {
      assert resolved[..i + 1][..i] == resolved[..i];
      for j := 0 to |resolved[i]|
        invariant tasks == Tasks(resolved[..i]) + TasksOf(i, j)
      {
        tasks := tasks + [Task(i, j, true), Task(i, j, false)];
      }
    }
    assert resolved[..|resolved|] == resolved;
  }

  /** The final loop: every measurement is credited, failures are counted. */
  method CreditAll(start: seq<InstanceStat>, tasks: seq<Task>, sums: array<real>, failed: array<bool>, a: Answers,
                   ghost resolved: seq<seq<Vnic>>)
    returns (stats: seq<InstanceStat>, bad: nat)
    requires Shaped(start, resolved) && AllFit(tasks, resolved) && sums.Length == failed.Length == |tasks|
    requires forall k :: 0 <= k < |tasks| ==> failed[k] == (a.sums(k) == None)
    ensures stats == Credited(start, tasks, sums[..], resolved) && bad == CountNone(a.sums, |tasks|)
  {
    stats, bad := start, 0;
    for k := 0 to |tasks|
      invariant stats == Credited(start, tasks[..k], sums[..][..k], resolved) && bad == CountNone(a.sums, k)
    {
      var t := tasks[k];
      CreditedStep(start, tasks, sums[..], resolved, k);
      if failed[k] { bad := bad + 1; }
      stats := stats[t.inst := CreditInstance(stats[t.inst], t, sums[k])];
    }
    assert tasks[..|tasks|] == tasks && sums[..][..|tasks|] == sums[..];
  }

  method CountTrue(flags: array<bool>, answers: nat -> Option<seq<ListedVnic>>) returns (n: nat)
    requires forall i :: 0 <= i < flags.Length ==> flags[i] == (answers(i) == None)
    ensures n == CountNone(answers, flags.Length)
  {
    n := 0;
    for i := 0 to flags.Length
      invariant n == CountNone(answers, i)
    {
      if flags[i] { n := n + 1; }
    }
  }

  /** `FetchInstancesTrafficDetail`: whatever the orders of completion, the result
      is the same. */
  method FetchDetail(refs: seq<Ref>, region: string, a: Answers, first: seq<nat>, second: seq<nat>)
    returns (detail: Detail)
    requires Permutation(first, |refs|) && Permutation(second, QueryCount(refs, a))
    ensures detail == DetailOf(refs, region, a)
  {
    var vnics, unreadable := ResolveVnics(|refs|, a, first);
    var resolved := vnics[..];
    var tasks := ListTasks(resolved);
    TasksFit(resolved);
    var start := Initial(refs, region, resolved);
    var sums, failed := MeasureAll(|tasks|, a, second);
    var lost := CountTrue(unreadable, a.vnics);
    var stats, bad := CreditAll(start, tasks, sums, failed, a, resolved);
    detail := Detail(stats, lost, bad);
  }

  lemma InitialIsZero(refs: seq<Ref>, region: string, a: Answers)
    ensures var resolved := Resolved(a, |refs|); var stats := Initial(refs, region, resolved);
            && (forall i :: 0 <= i < |stats| ==> Rolled(stats[i]))
            && (forall t :: TaskFits(t, resolved) ==> Slot(stats, t) == 0.0)
  {
    forall i: nat | i < |refs| ensures ZeroVnics(VnicsOf(a, i)) {
      if a.vnics(i).Some? { KnownAreZero(a.vnics(i).value); }
      ZeroSums(VnicsOf(a, i));
    }
  }

  predicate ZeroVnics(vnics: seq<Vnic>) {
    InboundSum(vnics) == 0.0 && OutboundSum(vnics) == 0.0
    && forall v :: v in vnics ==> v.inbound == 0.0 && v.outbound == 0.0
  }

  lemma {:induction false} KnownAreZero(listed: seq<ListedVnic>)
    ensures forall v :: v in Known(listed) ==> v.inbound == 0.0 && v.outbound == 0.0
  {
    if listed != [] { KnownAreZero(listed[..|listed| - 1]); }
  }

  lemma {:induction false} ZeroSums(vnics: seq<Vnic>)
    requires forall v :: v in vnics ==> v.inbound == 0.0 && v.outbound == 0.0
    ensures InboundSum(vnics) == 0.0 && OutboundSum(vnics) == 0.0
  {
    if vnics != [] { ZeroSums(vnics[..|vnics| - 1]); }
  }

  /** Each instance's totals are the sums over its VNICs. */
  lemma InstanceTotalsRollUp(refs: seq<Ref>, region: string, a: Answers, i: nat)
    requires i < |refs|
    ensures |DetailOf(refs, region, a).stats| == |refs| && Rolled(DetailOf(refs, region, a).stats[i])
  {
    var resolved := Resolved(a, |refs|);
    TasksAre(resolved);
    TasksFit(resolved);
    InitialIsZero(refs, region, a);
    CreditedRolled(Initial(refs, region, resolved), Tasks(resolved), Sums(a, |Tasks(resolved)|), resolved, i);
  }

  /** Each VNIC holds exactly the sum of its own query, and every readable VNIC has
      one query per direction. */
  lemma EveryMeasurementLands(refs: seq<Ref>, region: string, a: Answers, t: Task) returns (k: nat)
    requires TaskFits(t, Resolved(a, |refs|))
    ensures k < QueryCount(refs, a) && Tasks(Resolved(a, |refs|))[k] == t
    ensures Shaped(DetailOf(refs, region, a).stats, Resolved(a, |refs|))
    ensures Slot(DetailOf(refs, region, a).stats, t) == SumOf(a, k)
  {
    var resolved := Resolved(a, |refs|);
    var tasks := Tasks(resolved);
    TasksAre(resolved);
    TasksFit(resolved);
    InitialIsZero(refs, region, a);
    assert t in tasks;
    k :| k < |tasks| && tasks[k] == t;
    CreditedSlots(Initial(refs, region, resolved), tasks, Sums(a, |tasks|), resolved, t);
  }

  /** The failure counts are zero exactly when everything was read. */
  lemma {:induction false} NoneMissing<T>(answers: nat -> Option<T>, n: nat)
    ensures CountNone(answers, n) == 0 <==> forall i: nat :: i < n ==> answers(i).Some?
  {
    if n > 0 { NoneMissing(answers, n - 1); }
  }

  // ------------------------------------------------- from the listing to the report

  /** How many of the first `p` entries have an id. */
  function IdsBefore(listed: seq<ListedVnic>, p: nat): nat
    requires p <= |listed|
  {
    if p == 0 then 0 else IdsBefore(listed, p - 1) + if listed[p - 1].id.Some? then 1 else 0
  }

  /** The VNICs are the entries with an id, in their order. */
  predicate AreListed(vnics: seq<Vnic>, listed: seq<ListedVnic>) {
    && |vnics| == IdsBefore(listed, |listed|)
    && forall p :: 0 <= p < |listed| && listed[p].id.Some? ==> IsEntry(vnics, listed, p)
  }

  predicate IsEntry(vnics: seq<Vnic>, listed: seq<ListedVnic>, p: nat)
    requires p < |listed| && listed[p].id.Some?
  {
    var x := IdsBefore(listed, p);
    x < |vnics| && vnics[x].id == listed[p].id.value && vnics[x].name == listed[p].name
  }

  lemma {:induction false} SameIds(listed: seq<ListedVnic>, n: nat, p: nat)
    requires p <= n <= |listed|
    ensures IdsBefore(listed[..n], p) == IdsBefore(listed, p)
  {
    if p > 0 { SameIds(listed, n, p - 1); }
  }

  lemma {:induction false} KnownAreListed(listed: seq<ListedVnic>)
    ensures AreListed(Known(listed), listed)
    decreases |listed|
  {
    if listed != [] {
      var n := |listed| - 1;
      KnownAreListed(listed[..n]);
      SameIds(listed, n, n);
      forall p | 0 <= p < |listed| && listed[p].id.Some? ensures IsEntry(Known(listed), listed, p) {
        if p < n {
          SameIds(listed, n, p);
          assert IsEntry(Known(listed[..n]), listed[..n], p);
        }
      }
    }
  }

  function VnicsBefore(resolved: seq<seq<Vnic>>, i: nat): nat
    requires i <= |resolved|
  {
    if i == 0 then 0 else VnicsBefore(resolved, i - 1) + |resolved[i - 1]|
  }

  lemma {:induction false} TasksOfAt(inst: nat, vnics: nat, x: nat)
    requires x < vnics
    ensures |TasksOf(inst, vnics)| == 2 * vnics
    ensures TasksOf(inst, vnics)[2 * x] == Task(inst, x, true)
    ensures TasksOf(inst, vnics)[2 * x + 1] == Task(inst, x, false)
  {
    if vnics == 1 {
      assert TasksOf(inst, 0) == [];
    } else if x < vnics - 1 {
      TasksOfAt(inst, vnics - 1, x);
    } else {
      TasksOfAt(inst, vnics - 1, 0);
    }
  }

  lemma {:induction false} TaskCount(resolved: seq<seq<Vnic>>)
    ensures |Tasks(resolved)| == 2 * VnicsBefore(resolved, |resolved|)
    decreases |resolved|
  {
    if resolved != [] {
      var n := |resolved| - 1;
      TaskCount(resolved[..n]);
      SameBefore(resolved, n, n);
      if resolved[n] != [] { TasksOfAt(n, |resolved[n]|, 0); }
    }
  }

  lemma {:induction false} SameBefore(resolved: seq<seq<Vnic>>, n: nat, i: nat)
    requires i <= n <= |resolved|
    ensures VnicsBefore(resolved[..n], i) == VnicsBefore(resolved, i)
  {
    if i > 0 { SameBefore(resolved, n, i - 1); }
  }

  /** The queries go through the instances and their VNICs in order, inbound first. */
  lemma {:induction false} TaskAt(resolved: seq<seq<Vnic>>, i: nat, x: nat)
    requires i < |resolved| && x < |resolved[i]|
    ensures var k := 2 * (VnicsBefore(resolved, i) + x);
            && k + 1 < |Tasks(resolved)|
            && Tasks(resolved)[k] == Task(i, x, true) && Tasks(resolved)[k + 1] == Task(i, x, false)
    decreases |resolved|
  {
    var n := |resolved| - 1;
    SameBefore(resolved, n, i);
    if i < n {
      TaskAt(resolved[..n], i, x);
    } else {
      TaskCount(resolved[..n]);
      TasksOfAt(n, |resolved[n]|, x);
    }
  }

  predicate SameNames(a: InstanceStat, b: InstanceStat) {
    && a.id == b.id && a.name == b.name && a.region == b.region && |a.vnics| == |b.vnics|
    && forall x :: 0 <= x < |a.vnics| ==> a.vnics[x].id == b.vnics[x].id && a.vnics[x].name == b.vnics[x].name
  }

  lemma {:induction false} CreditingKeepsNames(stats: seq<InstanceStat>, tasks: seq<Task>, sums: seq<real>,
                                               resolved: seq<seq<Vnic>>, i: nat)
    requires Shaped(stats, resolved) && AllFit(tasks, resolved) && |sums| == |tasks| && i < |stats|
    ensures SameNames(Credited(stats, tasks, sums, resolved)[i], stats[i])
    decreases |tasks|
  {
    if tasks != [] { CreditingKeepsNames(stats, tasks[..|tasks| - 1], sums[..|tasks| - 1], resolved, i); }
  }

  lemma DetailIsShaped(refs: seq<Ref>, region: string, a: Answers)
    ensures Shaped(DetailOf(refs, region, a).stats, Resolved(a, |refs|))
  {
    TasksFit(Resolved(a, |refs|));
  }

  /** The value of a slot, by the number of its query. */
  lemma SlotIsItsQuery(refs: seq<Ref>, region: string, a: Answers, t: Task, k: nat)
    requires TaskFits(t, Resolved(a, |refs|)) && k < QueryCount(refs, a) && Tasks(Resolved(a, |refs|))[k] == t
    ensures Shaped(DetailOf(refs, region, a).stats, Resolved(a, |refs|))
    ensures Slot(DetailOf(refs, region, a).stats, t) == match a.sums(k) case None => 0.0 case Some(sum) => sum
  {
    var resolved := Resolved(a, |refs|);
    TasksAre(resolved);
    TasksFit(resolved);
    InitialIsZero(refs, region, a);
    CreditedSlots(Initial(refs, region, resolved), Tasks(resolved), Sums(a, QueryCount(refs, a)), resolved, t);
  }

  /** An instance has, in the order of the listing, exactly the VNICs that have an id,
      with their ids and names; none if the listing failed. */
  lemma VnicsAreListed(refs: seq<Ref>, region: string, a: Answers, i: nat)
    requires i < |refs|
    ensures |DetailOf(refs, region, a).stats| == |refs|
    ensures var stat := DetailOf(refs, region, a).stats[i];
            && stat.id == refs[i].id && stat.name == refs[i].name && stat.region == region
            && match a.vnics(i)
               case None => stat.vnics == []
               case Some(listed) => AreListed(stat.vnics, listed)
  {
    var resolved := Resolved(a, |refs|);
    TasksFit(resolved);
    CreditingKeepsNames(Initial(refs, region, resolved), Tasks(resolved), Sums(a, |Tasks(resolved)|), resolved, i);
    if a.vnics(i).Some? {
      KnownAreListed(a.vnics(i).value);
      SameEntries(DetailOf(refs, region, a).stats[i].vnics, Known(a.vnics(i).value), a.vnics(i).value);
    }
  }

  lemma SameEntries(vnics: seq<Vnic>, known: seq<Vnic>, listed: seq<ListedVnic>)
    requires AreListed(known, listed) && |vnics| == |known|
    requires forall x :: 0 <= x < |known| ==> vnics[x].id == known[x].id && vnics[x].name == known[x].name
    ensures AreListed(vnics, listed)
  {
    forall p | 0 <= p < |listed| && listed[p].id.Some? ensures IsEntry(vnics, listed, p) {
      assert IsEntry(known, listed, p);
    }
  }

  /** Each VNIC holds what its own two queries measured, zero for one that failed. The
      queries are numbered through the instances and their VNICs in order. */
  lemma VnicIsMeasured(refs: seq<Ref>, region: string, a: Answers, i: nat, x: nat) returns (k: nat)
    requires i < |refs|
    requires |DetailOf(refs, region, a).stats| == |refs| && x < |DetailOf(refs, region, a).stats[i].vnics|
    ensures k == 2 * (StatsBefore(DetailOf(refs, region, a).stats, i) + x)
    ensures var vnic := DetailOf(refs, region, a).stats[i].vnics[x];
            && vnic.inbound == (match a.sums(k) case None => 0.0 case Some(sum) => sum)
            && vnic.outbound == (match a.sums(k + 1) case None => 0.0 case Some(sum) => sum)
  {
    var resolved := Resolved(a, |refs|);
    DetailIsShaped(refs, region, a);
    SameCount(DetailOf(refs, region, a).stats, resolved, i);
    TaskAt(resolved, i, x);
    k := 2 * (VnicsBefore(resolved, i) + x);
    SlotIsItsQuery(refs, region, a, Task(i, x, true), k);
    SlotIsItsQuery(refs, region, a, Task(i, x, false), k + 1);
  }

  function StatsBefore(stats: seq<InstanceStat>, i: nat): nat
    requires i <= |stats|
  {
    if i == 0 then 0 else StatsBefore(stats, i - 1) + |stats[i - 1].vnics|
  }

  lemma {:induction false} SameCount(stats: seq<InstanceStat>, resolved: seq<seq<Vnic>>, i: nat)
    requires Shaped(stats, resolved) && i <= |stats|
    ensures StatsBefore(stats, i) == VnicsBefore(resolved, i)
  {
    if i > 0 { SameCount(stats, resolved, i - 1); }
  }

  /** The failure counts are the numbers of failed listings and failed queries. */
  lemma {:induction false} CountNoneIs<T>(answers: nat -> Option<T>, n: nat)
    ensures CountNone(answers, n) == |set i: nat | i < n && answers(i) == None|
  {
    if n > 0 {
      CountNoneIs(answers, n - 1);
      var before, now := set i: nat | i < n - 1 && answers(i) == None, set i: nat | i < n && answers(i) == None;
      if answers(n - 1) == None {
        assert now == before + {n - 1} && n - 1 !in before;
      } else {
        assert now == before;
      }
    } else {
      assert (set i: nat | i < n && answers(i) == None) == {};
    }
  }
}
