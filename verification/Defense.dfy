/** Defense mode: enabling filters the ingress rules of every security list of a
    VCN and saves the originals, disabling puts the originals back. Every remote
    update may fail, which ends the attempt. */
module Defense {
  import opened Options
  import opened Sequences

  type ListId = string

  /** An ingress rule; `detail` stands for its ports, ICMP options and so on. */
  datatype Rule = Rule(protocol: Option<string>, source: Option<string>, detail: string)

  /** A Go slice of rules: nil is not the same as empty. */
  datatype RuleList = NilRules | Rules(rules: seq<Rule>)

  /** What the cloud does with an update that carries a nil slice. */
  datatype NilPolicy = KeepsList | ClearsList

  /** The lists of one VCN and the configuration keys that belong to it. */
  datatype Vcn = Vcn(ingress: map<ListId, RuleList>, saved: map<ListId, RuleList>, enabled: bool, cidrs: seq<string>)

  const ALLOW_ALL := Rule(Some("all"), Some("0.0.0.0/0"), "")

  /** One call of `enableDefense` or `disableDefense`: the order in which the cloud
      returned the lists, and how many updates succeed before one fails. */
  datatype Attempt =
    | Enable(order: seq<ListId>, updates: nat, blacklist: seq<string>)
    | Disable(order: seq<ListId>, updates: nat)

  // ------------------------------------------------------------------- rules

  predicate Blacklisted(r: Rule, blacklist: seq<string>) {
    r.source.Some? && r.source.value in blacklist
  }

  function Kept(rules: seq<Rule>, blacklist: seq<string>): seq<Rule> {
    if rules == [] then []
    else (if Blacklisted(rules[0], blacklist) then [] else [rules[0]]) + Kept(rules[1..], blacklist)
  }

  function RulesOf(list: RuleList): seq<Rule> {
    if list.NilRules? then [] else list.rules
  }

  /** Appending to a nil slice leaves it nil when nothing is appended. */
  function Slice(rules: seq<Rule>): RuleList {
    if rules == [] then NilRules else Rules(rules)
  }

  function Filtered(list: RuleList, blacklist: seq<string>): RuleList {
    Slice(Kept(RulesOf(list), blacklist))
  }

  predicate AllowsAll(r: Rule) {
    r.protocol == Some("all") && r.source == Some("0.0.0.0/0")
  }

  predicate HasAllowAll(list: RuleList) {
    exists r :: r in RulesOf(list) && AllowsAll(r)
  }

  /** What disable writes when it has no usable originals. */
  function Fallback(list: RuleList): RuleList {
    if HasAllowAll(list) then list else Rules(RulesOf(list) + [ALLOW_ALL])
  }

  function Updated(policy: NilPolicy, was: RuleList, update: RuleList): RuleList {
    if update.Rules? then update else if policy.KeepsList? then was else Rules([])
  }

  // ---------------------------------------------------------------- operations

  function EnableOne(policy: NilPolicy, v: Vcn, id: ListId, blacklist: seq<string>): Vcn
    requires id in v.ingress
  {
    v.(ingress := v.ingress[id := Updated(policy, v.ingress[id], Filtered(v.ingress[id], blacklist))],
       saved := if id in v.saved then v.saved else v.saved[id := v.ingress[id]])
  }

  function Restored(v: Vcn, id: ListId): RuleList
    requires id in v.ingress
  {
    if id in v.saved && v.saved[id].Rules? then v.saved[id] else Fallback(v.ingress[id])
  }

  function DisableOne(policy: NilPolicy, v: Vcn, id: ListId): Vcn
    requires id in v.ingress
  {
    v.(ingress := v.ingress[id := Updated(policy, v.ingress[id], Restored(v, id))])
  }

  /** An answer of the cloud: every list of the VCN once. */
  ghost predicate Listing(v: Vcn, order: seq<ListId>) {
    && (forall id :: id in order <==> id in v.ingress)
    && Distinct(order)
  }

  function EnableAll(policy: NilPolicy, v: Vcn, order: seq<ListId>, blacklist: seq<string>): (v': Vcn)
    requires forall id :: id in order ==> id in v.ingress
    ensures v'.ingress.Keys == v.ingress.Keys
  {
    if order == [] then v
    else
      var n := |order| - 1;
      EnableOne(policy, EnableAll(policy, v, order[..n], blacklist), order[n], blacklist)
  }

  function DisableAll(policy: NilPolicy, v: Vcn, order: seq<ListId>): (v': Vcn)
    requires forall id :: id in order ==> id in v.ingress
    ensures v'.ingress.Keys == v.ingress.Keys && v'.saved == v.saved
  {
    if order == [] then v
    else
      var n := |order| - 1;
      DisableOne(policy, DisableAll(policy, v, order[..n]), order[n])
  }

  predicate Succeeds(a: Attempt) {
    a.order != [] && a.updates >= |a.order|
  }

  function Visited(a: Attempt): (order: seq<ListId>)
    ensures forall id :: id in order ==> id in a.order
  {
    if a.updates < |a.order| then a.order[..a.updates] else a.order
  }

  lemma VisitedIsTake(a: Attempt)
    ensures var n := if a.updates < |a.order| then a.updates else |a.order|;
            Visited(a) == a.order[..n] && |Visited(a)| == n
  {
    assert a.order[..|a.order|] == a.order;
  }

  function Forget(saved: map<ListId, RuleList>, order: seq<ListId>): map<ListId, RuleList> {
    map id | id in saved && id !in order :: saved[id]
  }

  function Perform(policy: NilPolicy, v: Vcn, a: Attempt): (v': Vcn)
    requires Listing(v, a.order)
    ensures v'.ingress.Keys == v.ingress.Keys
  {
    match a
    case Enable(_, _, blacklist) =>
      var done := EnableAll(policy, v, Visited(a), blacklist);
      if Succeeds(a) then done.(enabled := true, cidrs := blacklist) else done
    case Disable(order, _) =>
      var done := DisableAll(policy, v, Visited(a));
      if Succeeds(a) then done.(saved := Forget(done.saved, order), enabled := false, cidrs := []) else done
  }

  ghost predicate AllList(v: Vcn, attempts: seq<Attempt>) {
    forall i :: 0 <= i < |attempts| ==> Listing(v, attempts[i].order)
  }

  function PerformAll(policy: NilPolicy, v: Vcn, attempts: seq<Attempt>): (v': Vcn)
    requires AllList(v, attempts)
    ensures v'.ingress.Keys == v.ingress.Keys
    decreases |attempts|
  {
    if attempts == [] then v
    else
      assert forall i :: 0 <= i < |attempts[1..]| ==> attempts[1..][i] == attempts[i + 1];
      PerformAll(policy, Perform(policy, v, attempts[0]), attempts[1..])
  }

  // ------------------------------------------------------------------- the service

  class DefenseService {
    const policy: NilPolicy
    var ingress: map<ListId, RuleList>
    var saved: map<ListId, RuleList>
    var enabled: bool
    var cidrs: seq<string>

    function Contents(): Vcn
      reads this
    {
      Vcn(ingress, saved, enabled, cidrs)
    }

    constructor (policy: NilPolicy, ingress: map<ListId, RuleList>)
      ensures this.policy == policy && Contents() == Vcn(ingress, map[], false, [])
    {
      this.policy, this.ingress := policy, ingress;
      saved, enabled, cidrs := map[], false, [];
    }

    method IsBlacklisted(r: Rule, blacklist: seq<string>) returns (remove: bool)
      ensures remove == Blacklisted(r, blacklist)
    {
      for c := 0 to |blacklist|
        invariant r.source.Some? ==> r.source.value !in blacklist[..c]
      {
        if r.source.Some? && r.source.value == blacklist[c] { return true; }
      }
      return false;
    }

    /** The loop over one list's rules. */
    method FilterRules(rules: seq<Rule>, blacklist: seq<string>) returns (filtered: seq<Rule>)
      ensures filtered == Kept(rules, blacklist)
    {
      filtered := [];
      assert rules[0..] == rules;
      for i := 0 to |rules|
        invariant Kept(rules, blacklist) == filtered + Kept(rules[i..], blacklist)
      {
        KeptStep(filtered, rules, blacklist, i);
        var remove := IsBlacklisted(rules[i], blacklist);
        if !remove { filtered := filtered + [rules[i]]; }
      }
    }

    method EnableList(id: ListId, current: RuleList, blacklist: seq<string>)
      requires id in ingress && current == ingress[id]
      modifies this`ingress, this`saved
      ensures Contents() == EnableOne(policy, old(Contents()), id, blacklist)
    {
      var filtered := FilterRules(RulesOf(current), blacklist);
      ingress := ingress[id := Updated(policy, current, Slice(filtered))];
      if id !in saved { saved := saved[id := current]; }
    }

    /** `enableDefense`; the update of list number `updates` fails, if there is one. */
    method EnableDefense(order: seq<ListId>, updates: nat, blacklist: seq<string>) returns (ok: bool, blocked: nat)
      requires Listing(Contents(), order)
      modifies this
      ensures Contents() == Perform(policy, old(Contents()), Enable(order, updates, blacklist))
      ensures ok == Succeeds(Enable(order, updates, blacklist)) && (ok ==> blocked == |blacklist|)
    {
      var reached := FilterLists(order, updates, blacklist);
      if order == [] || reached < |order| { return false, 0; }
      enabled, cidrs := true, blacklist;
      return true, |blacklist|;
    }

    /** One round of that loop: list number `k`, as it was listed. */
    method FilterNext(order: seq<ListId>, k: nat, snapshot: map<ListId, RuleList>, blacklist: seq<string>,
                      ghost was: Vcn)
      requires Listing(was, order) && k < |order| && snapshot == was.ingress
      requires Contents() == EnableAll(policy, was, order[..k], blacklist)
      modifies this`ingress, this`saved
      ensures Contents() == EnableAll(policy, was, order[..k + 1], blacklist)
    {
      NextEnable(policy, was, order, blacklist, k);
      EnableList(order[k], snapshot[order[k]], blacklist);
    }

    /** The loop over the lists, up to the update that fails. */
    method FilterLists(order: seq<ListId>, updates: nat, blacklist: seq<string>) returns (reached: nat)
      requires Listing(Contents(), order)
      modifies this`ingress, this`saved
      ensures reached == |Visited(Enable(order, updates, blacklist))|
      ensures Contents() == EnableAll(policy, old(Contents()), Visited(Enable(order, updates, blacklist)), blacklist)
    {
      var snapshot := ingress;
      ghost var was := Contents();
      reached := 0;
      while reached < |order| && reached < updates
        invariant reached <= |order| && reached <= updates
        invariant Contents() == EnableAll(policy, was, order[..reached], blacklist)
      {
        FilterNext(order, reached, snapshot, blacklist, was);
        reached := reached + 1;
      }
      VisitedIsTake(Enable(order, updates, blacklist));
    }

    /** The rules to restore: the saved ones, or the list's own made to allow all. */
    method RulesToRestore(id: ListId, current: RuleList) returns (restored: RuleList)
      requires id in ingress && current == ingress[id]
      ensures restored == Restored(Contents(), id)
    {
      restored := NilRules;
      if id in saved { restored := saved[id]; }
      if restored == NilRules {
        var hasAllowAll := false;
        var rules := RulesOf(current);
        for x := 0 to |rules|
          invariant hasAllowAll == exists y :: 0 <= y < x && AllowsAll(rules[y])
        {
          if AllowsAll(rules[x]) { hasAllowAll := true; }
        }
        restored := current;
        if !hasAllowAll { restored := Rules(rules + [ALLOW_ALL]); }
      }
    }

    method DisableList(id: ListId, current: RuleList)
      requires id in ingress && current == ingress[id]
      modifies this`ingress
      ensures Contents() == DisableOne(policy, old(Contents()), id)
    {
      var restored := RulesToRestore(id, current);
      ingress := ingress[id := Updated(policy, current, restored)];
    }

    method ClearSaved(order: seq<ListId>)
      modifies this`saved
      ensures saved == Forget(old(saved), order)
    {
      for i := 0 to |order|
        invariant saved == Forget(old(saved), order[..i])
      {
        saved := saved - {order[i]};
      }
      assert order[..|order|] == order;
    }

    /** `disableDefense`, likewise. The saved originals go only when every list is
        restored. */
    method DisableDefense(order: seq<ListId>, updates: nat) returns (ok: bool)
      requires Listing(Contents(), order)
      modifies this
      ensures Contents() == Perform(policy, old(Contents()), Disable(order, updates))
      ensures ok == Succeeds(Disable(order, updates))
    {
      var reached := RestoreLists(order, updates);
      if order == [] || reached < |order| { return false; }
      enabled, cidrs := false, [];
      ClearSaved(order);
      return true;
    }

    /** One round of that loop: list number `k`, as it was listed. */
    method RestoreNext(order: seq<ListId>, k: nat, snapshot: map<ListId, RuleList>, ghost was: Vcn)
      requires Listing(was, order) && k < |order| && snapshot == was.ingress
      requires Contents() == DisableAll(policy, was, order[..k])
      modifies this`ingress
      ensures Contents() == DisableAll(policy, was, order[..k + 1])
    {
      NextDisable(policy, was, order, k);
      DisableList(order[k], snapshot[order[k]]);
    }

    /** The loop over the lists, up to the update that fails. */
    method RestoreLists(order: seq<ListId>, updates: nat) returns (reached: nat)
      requires Listing(Contents(), order)
      modifies this`ingress
      ensures reached == |Visited(Disable(order, updates))|
      ensures Contents() == DisableAll(policy, old(Contents()), Visited(Disable(order, updates)))
    {
      var snapshot := ingress;
      ghost var was := Contents();
      reached := 0;
      while reached < |order| && reached < updates
        invariant reached <= |order| && reached <= updates
        invariant Contents() == DisableAll(policy, was, order[..reached])
      {
        RestoreNext(order, reached, snapshot, was);
        reached := reached + 1;
      }
      VisitedIsTake(Disable(order, updates));
    }
  }

  // ----------------------------------------------------------- what one attempt does

  lemma {:induction false} EnableAllAt(policy: NilPolicy, v: Vcn, order: seq<ListId>,
                                       blacklist: seq<string>, id: ListId)
    requires id in v.ingress && forall x :: x in order ==> x in v.ingress
    requires Distinct(order)
    ensures var v' := EnableAll(policy, v, order, blacklist);
            && v'.ingress[id] == (if id in order then Updated(policy, v.ingress[id], Filtered(v.ingress[id], blacklist))
                                  else v.ingress[id])
            && (id in v'.saved <==> id in v.saved || id in order)
            && (id in v.saved ==> v'.saved[id] == v.saved[id])
            && (id !in v.saved && id in order ==> v'.saved[id] == v.ingress[id])
    decreases |order|
  {
    if order != [] {
      var n := |order| - 1;
      assert order == order[..n] + [order[n]];
      EnableAllAt(policy, v, order[..n], blacklist, id);
      EnableAllAt(policy, v, order[..n], blacklist, order[n]);
    }
  }

  lemma {:induction false} DisableAllAt(policy: NilPolicy, v: Vcn, order: seq<ListId>, id: ListId)
    requires id in v.ingress && forall x :: x in order ==> x in v.ingress
    requires Distinct(order)
    ensures DisableAll(policy, v, order).ingress[id] ==
            (if id in order then Updated(policy, v.ingress[id], Restored(v, id)) else v.ingress[id])
    decreases |order|
  {
    if order != [] {
      var n := |order| - 1;
      assert order == order[..n] + [order[n]];
      DisableAllAt(policy, v, order[..n], id);
    }
  }

  /** The next list of an enable is still as it was at the start. */
  lemma NextEnable(policy: NilPolicy, v: Vcn, order: seq<ListId>, blacklist: seq<string>, k: nat)
    requires Listing(v, order) && k < |order|
    ensures EnableAll(policy, v, order[..k], blacklist).ingress[order[k]] == v.ingress[order[k]]
    ensures EnableAll(policy, v, order[..k + 1], blacklist)
         == EnableOne(policy, EnableAll(policy, v, order[..k], blacklist), order[k], blacklist)
  {
    assert order[..k + 1][..k] == order[..k];
    EnableAllAt(policy, v, order[..k], blacklist, order[k]);
  }

  lemma NextDisable(policy: NilPolicy, v: Vcn, order: seq<ListId>, k: nat)
    requires Listing(v, order) && k < |order|
    ensures DisableAll(policy, v, order[..k]).ingress[order[k]] == v.ingress[order[k]]
    ensures DisableAll(policy, v, order[..k + 1]) == DisableOne(policy, DisableAll(policy, v, order[..k]), order[k])
  {
    assert order[..k + 1][..k] == order[..k];
    DisableAllAt(policy, v, order[..k], order[k]);
  }

  lemma KeptStep(filtered: seq<Rule>, rules: seq<Rule>, blacklist: seq<string>, i: nat)
    requires i < |rules|
    ensures filtered + Kept(rules[i..], blacklist)
         == (if Blacklisted(rules[i], blacklist) then filtered else filtered + [rules[i]])
            + Kept(rules[i + 1..], blacklist)
  {
    assert rules[i..][1..] == rules[i + 1..];
  }

  lemma {:induction false} KeptIsFilter(rules: seq<Rule>, blacklist: seq<string>)
    ensures forall r :: r in Kept(rules, blacklist) <==> r in rules && !Blacklisted(r, blacklist)
    ensures forall r ::
              multiset(Kept(rules, blacklist))[r] == if Blacklisted(r, blacklist) then 0 else multiset(rules)[r]
  {
    if rules != [] {
      KeptIsFilter(rules[1..], blacklist);
      assert rules == [rules[0]] + rules[1..];
    }
  }

  /** A successful enable takes out of every list exactly the rules whose source is an
      entry of the blacklist; only where that is all of them, and the cloud ignores an
      empty update, the list stays as it was. */
  lemma EnableBlocksExactly(policy: NilPolicy, v: Vcn, a: Attempt, id: ListId, r: Rule)
    requires a.Enable? && Listing(v, a.order) && a.order != [] && a.updates >= |a.order| && id in v.ingress
    ensures var was, now := RulesOf(v.ingress[id]), RulesOf(Perform(policy, v, a).ingress[id]);
            var blocked := exists k :: 0 <= k < |a.blacklist| && r.source == Some(a.blacklist[k]);
            var ignored := policy.KeepsList? &&
              forall x :: x in was ==> exists k :: 0 <= k < |a.blacklist| && x.source == Some(a.blacklist[k]);
            multiset(now)[r] == if blocked && !ignored then 0 else multiset(was)[r]
  {
    EnableAllAt(policy, v, a.order, a.blacklist, id);
    var was := RulesOf(v.ingress[id]);
    var kept := Kept(was, a.blacklist);
    KeptIsFilter(was, a.blacklist);
    if kept != [] {
      assert kept[0] in was && !Blacklisted(kept[0], a.blacklist);
    } else {
      assert forall x :: x in was ==> Blacklisted(x, a.blacklist);
    }
  }

  // -------------------------------------------------------------- undoing

  /** While only enables have run: a list is either as it was and unsaved, or its
      original is saved. */
  predicate Recoverable(v: Vcn, originals: map<ListId, RuleList>) {
    && v.ingress.Keys == originals.Keys
    && forall id :: id in originals ==>
         if id in v.saved then v.saved[id] == originals[id] else v.ingress[id] == originals[id]
  }

  predicate AllSaved(v: Vcn, originals: map<ListId, RuleList>) {
    && v.ingress.Keys == originals.Keys
    && forall id :: id in originals ==> id in v.saved && v.saved[id] == originals[id]
  }

  lemma VisitedDistinct(v: Vcn, a: Attempt)
    requires Listing(v, a.order)
    ensures forall i, j :: 0 <= i < j < |Visited(a)| ==> Visited(a)[i] != Visited(a)[j]
  {}

  lemma EnableKeepsRecoverable(policy: NilPolicy, v: Vcn, a: Attempt, originals: map<ListId, RuleList>)
    requires a.Enable? && Listing(v, a.order) && Recoverable(v, originals)
    ensures Recoverable(Perform(policy, v, a), originals)
    ensures Succeeds(a) ==> AllSaved(Perform(policy, v, a), originals)
  {
    VisitedDistinct(v, a);
    forall id | id in originals
      ensures var v' := Perform(policy, v, a);
              && (if id in v'.saved then v'.saved[id] == originals[id] else v'.ingress[id] == originals[id])
              && (Succeeds(a) ==> id in v'.saved)
    {
      EnableAllAt(policy, v, Visited(a), a.blacklist, id);
    }
  }

  lemma AttemptKeepsSaved(policy: NilPolicy, v: Vcn, a: Attempt, originals: map<ListId, RuleList>)
    requires Listing(v, a.order) && AllSaved(v, originals) && !(a.Disable? && Succeeds(a))
    ensures AllSaved(Perform(policy, v, a), originals)
  {
    VisitedDistinct(v, a);
    if a.Enable? {
      forall id | id in originals
        ensures id in Perform(policy, v, a).saved && Perform(policy, v, a).saved[id] == originals[id]
      {
        EnableAllAt(policy, v, Visited(a), a.blacklist, id);
      }
    }
  }

  lemma {:induction false} EnablesKeepRecoverable(policy: NilPolicy, v: Vcn, attempts: seq<Attempt>,
                                                  originals: map<ListId, RuleList>)
    requires AllList(v, attempts) && Recoverable(v, originals)
    requires OnlyEnables(attempts)
    ensures Recoverable(PerformAll(policy, v, attempts), originals)
    decreases |attempts|
  {
    if attempts != [] {
      assert forall i :: 0 <= i < |attempts[1..]| ==> attempts[1..][i] == attempts[i + 1];
      EnableKeepsRecoverable(policy, v, attempts[0], originals);
      EnablesKeepRecoverable(policy, Perform(policy, v, attempts[0]), attempts[1..], originals);
    }
  }

  lemma {:induction false} AttemptsKeepSaved(policy: NilPolicy, v: Vcn, attempts: seq<Attempt>,
                                             originals: map<ListId, RuleList>)
    requires AllList(v, attempts) && AllSaved(v, originals)
    requires NoFinishedDisable(attempts)
    ensures AllSaved(PerformAll(policy, v, attempts), originals)
    decreases |attempts|
  {
    if attempts != [] {
      assert forall i :: 0 <= i < |attempts[1..]| ==> attempts[1..][i] == attempts[i + 1];
      AttemptKeepsSaved(policy, v, attempts[0], originals);
      AttemptsKeepSaved(policy, Perform(policy, v, attempts[0]), attempts[1..], originals);
    }
  }

  /** Exactly when a successful disable restores a list that was only ever enabled:
      its original is saved and was not nil, or it was never touched and already
      allows everything. */
  lemma DisableRestoresIff(policy: NilPolicy, v: Vcn, a: Attempt, originals: map<ListId, RuleList>, id: ListId)
    requires a.Disable? && Listing(v, a.order) && Succeeds(a) && Recoverable(v, originals) && id in originals
    ensures Perform(policy, v, a).ingress[id] == originals[id] <==>
            if id in v.saved then originals[id].Rules?
            else exists r :: r in RulesOf(originals[id]) && r.protocol == Some("all") && r.source == Some("0.0.0.0/0")
  {
    DisableAllAt(policy, v, a.order, id);
    var was := v.ingress[id];
    if id !in v.saved && !HasAllowAll(was) {
      assert |Fallback(was).rules| == |RulesOf(was)| + 1;
    }
  }

  /** Every list is as it was if and only if it was not a nil slice, and nothing is
      saved any more. */
  ghost predicate Undone(was: map<ListId, RuleList>, v: Vcn) {
    && v.ingress.Keys == was.Keys
    && (forall id :: id in was ==> (v.ingress[id] == was[id] <==> was[id].Rules?))
    && (forall id :: id in was ==> id !in v.saved)
  }

  predicate OnlyEnables(attempts: seq<Attempt>) {
    forall i :: 0 <= i < |attempts| ==> attempts[i].Enable?
  }

  predicate NoFinishedDisable(attempts: seq<Attempt>) {
    forall i :: 0 <= i < |attempts| ==> !(attempts[i].Disable? && Succeeds(attempts[i]))
  }

  /** Defense can always be undone. Start with nothing saved; after any number of
      enables that may fail halfway, one that succeeds, and any attempts of either
      kind that are not a successful disable, the originals are still saved, and the
      next successful disable gives every list exactly its rules from before the
      first enable, if and only if those were not a nil slice; and it leaves nothing
      saved, so that the next round starts as the first one did. */
  lemma DefenseCanBeUndone(policy: NilPolicy, v: Vcn, before: seq<Attempt>, full: Attempt,
                           between: seq<Attempt>, last: Attempt)
    returns (enabled: Vcn, later: Vcn)
    requires forall id :: id in v.ingress ==> id !in v.saved
    requires AllList(v, before) && Listing(v, full.order) && AllList(v, between) && Listing(v, last.order)
    requires OnlyEnables(before) && full.Enable? && Succeeds(full)
    requires NoFinishedDisable(between) && last.Disable? && Succeeds(last)
    ensures enabled == Perform(policy, PerformAll(policy, v, before), full)
    ensures AllList(enabled, between) && later == PerformAll(policy, enabled, between)
    ensures Listing(later, last.order) && AllSaved(later, v.ingress) && Undone(v.ingress, Perform(policy, later, last))
  {
    EnablesSave(policy, v, before, full);
    enabled := Perform(policy, PerformAll(policy, v, before), full);
    AttemptsKeepSaved(policy, enabled, between, v.ingress);
    later := PerformAll(policy, enabled, between);
    LastDisableRestores(policy, later, last, v.ingress);
  }

  lemma EnablesSave(policy: NilPolicy, v: Vcn, before: seq<Attempt>, full: Attempt)
    requires forall id :: id in v.ingress ==> id !in v.saved
    requires AllList(v, before) && Listing(v, full.order)
    requires OnlyEnables(before) && full.Enable? && Succeeds(full)
    ensures AllSaved(Perform(policy, PerformAll(policy, v, before), full), v.ingress)
  {
    EnablesKeepRecoverable(policy, v, before, v.ingress);
    EnableKeepsRecoverable(policy, PerformAll(policy, v, before), full, v.ingress);
  }

  lemma LastDisableRestores(policy: NilPolicy, v: Vcn, last: Attempt, originals: map<ListId, RuleList>)
    requires AllSaved(v, originals) && Listing(v, last.order) && last.Disable? && Succeeds(last)
    ensures Undone(originals, Perform(policy, v, last))
  {
    forall id | id in originals
      ensures Perform(policy, v, last).ingress[id] == originals[id] <==> originals[id].Rules?
    {
      DisableRestoresIff(policy, v, last, originals, id);
    }
  }

  lemma {:induction false} EnableKeepsFlags(policy: NilPolicy, v: Vcn, order: seq<ListId>, blacklist: seq<string>)
    requires forall id :: id in order ==> id in v.ingress
    ensures var v' := EnableAll(policy, v, order, blacklist); v'.enabled == v.enabled && v'.cidrs == v.cidrs
    decreases |order|
  {
    if order != [] { EnableKeepsFlags(policy, v, order[..|order| - 1], blacklist); }
  }

  lemma {:induction false} DisableKeepsFlags(policy: NilPolicy, v: Vcn, order: seq<ListId>)
    requires forall id :: id in order ==> id in v.ingress
    ensures var v' := DisableAll(policy, v, order); v'.enabled == v.enabled && v'.cidrs == v.cidrs
    decreases |order|
  {
    if order != [] { DisableKeepsFlags(policy, v, order[..|order| - 1]); }
  }

  lemma {:induction false} FlagsStay(policy: NilPolicy, v: Vcn, after: seq<Attempt>)
    requires AllList(v, after) && forall i :: 0 <= i < |after| ==> !Succeeds(after[i])
    ensures var now := PerformAll(policy, v, after); now.enabled == v.enabled && now.cidrs == v.cidrs
    decreases |after|
  {
    if after != [] {
      assert forall i :: 0 <= i < |after[1..]| ==> after[1..][i] == after[i + 1];
      var a := after[0];
      if a.Enable? {
        EnableKeepsFlags(policy, v, Visited(a), a.blacklist);
      } else {
        DisableKeepsFlags(policy, v, Visited(a));
      }
      FlagsStay(policy, Perform(policy, v, a), after[1..]);
    }
  }

  /** The stored flag and blacklist are those of the last attempt that succeeded. */
  lemma FlagsTellLastSuccess(policy: NilPolicy, v: Vcn, a: Attempt, after: seq<Attempt>)
    requires AllList(v, [a] + after) && a.order != [] && a.updates >= |a.order|
    requires forall i :: 0 <= i < |after| ==> after[i].order == [] || after[i].updates < |after[i].order|
    ensures var now := PerformAll(policy, v, [a] + after);
            now.enabled == a.Enable? && now.cidrs == if a.Enable? then a.blacklist else []
  {
    assert ([a] + after)[0] == a && ([a] + after)[1..] == after;
    assert forall i :: 0 <= i < |after| ==> ([a] + after)[i + 1] == after[i];
    FlagsStay(policy, Perform(policy, v, a), after);
  }

  /** Why the first enable must have succeeded: after one that failed before its
      second list, a disable opens that list to everybody. */
  lemma EarlyDisableOpensUntouchedLists(policy: NilPolicy, v: Vcn, first: ListId, second: ListId,
                                        blacklist: seq<string>)
    requires v.ingress.Keys == {first, second} && first != second && v.saved == map[]
    requires v.ingress[second].Rules?
    requires forall r :: r in v.ingress[second].rules ==> r.protocol != Some("all") || r.source != Some("0.0.0.0/0")
    ensures var v' := Perform(policy, Perform(policy, v, Enable([first, second], 1, blacklist)),
                              Disable([first, second], 2));
            v'.ingress[second] == Rules(v.ingress[second].rules + [Rule(Some("all"), Some("0.0.0.0/0"), "")])
  {
    var enable := Enable([first, second], 1, blacklist);
    assert Visited(enable) == [first];
    EnableAllAt(policy, v, [first], blacklist, second);
    DisableAllAt(policy, Perform(policy, v, enable), [first, second], second);
  }
}
