/** The login rate limiter: failures are counted per address in windows that open
    with the first failure, and an address that reaches the limit is blocked. The
    clock is a parameter. */
module RateLimit {

  type Ip = string

  datatype Config = Config(window: nat, blockTTL: nat, maxHits: nat)

  /** The limits of the server, in seconds. */
  const SERVER := Config(900, 86400, 5)

  datatype Entry = Entry(count: nat, start: int)

  datatype State = State(entries: map<Ip, Entry>, blocked: map<Ip, int>)

  predicate Expired(c: Config, e: Entry, now: int) {
    now - e.start > c.window
  }

  /** `allow`: counts a failure, and says whether the address may go on. */
  function Allow(c: Config, s: State, ip: Ip, now: int): (State, bool) {
    if ip !in s.entries || Expired(c, s.entries[ip], now) then
      (s.(entries := s.entries[ip := Entry(1, now)]), true)
    else
      var e := s.entries[ip].(count := s.entries[ip].count + 1);
      var counted := s.(entries := s.entries[ip := e]);
      if e.count >= c.maxHits then (counted.(blocked := s.blocked[ip := now]), false) else (counted, true)
  }

  predicate IsBlocked(c: Config, s: State, ip: Ip, now: int) {
    || ip in s.blocked
    || (ip in s.entries && !Expired(c, s.entries[ip], now) && s.entries[ip].count >= c.maxHits)
  }

  function Reset(s: State, ip: Ip): State {
    s.(entries := s.entries - {ip})
  }

  /** `clearBlockedIP`: the empty address stands for all of them. */
  function ClearBlocked(s: State, ip: Ip): State {
    s.(blocked := if ip == "" then map[] else s.blocked - {ip})
  }

  function PruneEntries(c: Config, s: State, now: int): State {
    s.(entries := map ip | ip in s.entries && !Expired(c, s.entries[ip], now) :: s.entries[ip])
  }

  function PruneBlocked(c: Config, s: State, now: int): State {
    s.(blocked := map ip | ip in s.blocked && now - s.blocked[ip] <= c.blockTTL :: s.blocked[ip])
  }

  class LoginRateLimiter {
    const config: Config
    var entries: map<Ip, Entry>
    var blockedIPs: map<Ip, int>

    function Contents(): State
      reads this
    {
      State(entries, blockedIPs)
    }

    constructor (config: Config)
      ensures this.config == config && Contents() == State(map[], map[])
    {
      this.config := config;
      entries, blockedIPs := map[], map[];
    }

    method AllowFailure(ip: Ip, now: int) returns (allowed: bool)
      modifies this
      ensures (Contents(), allowed) == Allow(config, old(Contents()), ip, now)
    {
      if ip !in entries || now - entries[ip].start > config.window {
        entries := entries[ip := Entry(1, now)];
        return true;
      }
      var entry := entries[ip];
      entry := entry.(count := entry.count + 1);
      entries := entries[ip := entry];
      if entry.count >= config.maxHits {
        blockedIPs := blockedIPs[ip := now];
        return false;
      }
      return true;
    }

    method CheckBlocked(ip: Ip, now: int) returns (isBlocked: bool)
      ensures isBlocked == IsBlocked(config, Contents(), ip, now)
    {
      if ip in blockedIPs { return true; }
      if ip in entries && now - entries[ip].start <= config.window && entries[ip].count >= config.maxHits {
        return true;
      }
      return false;
    }

    method ResetEntry(ip: Ip)
      modifies this`entries
      ensures Contents() == Reset(old(Contents()), ip)
    {
      entries := entries - {ip};
    }

    method ClearBlockedIP(ip: Ip) returns (existed: bool)
      modifies this`blockedIPs
      ensures Contents() == ClearBlocked(old(Contents()), ip)
      ensures existed == (ip == "" || ip in old(blockedIPs))
    {
      if ip == "" {
        blockedIPs := map[];
        return true;
      }
      existed := ip in blockedIPs;
      blockedIPs := blockedIPs - {ip};
    }

    /** One tick of `cleanupLoop`, in whatever order the maps are ranged over. */
    method Cleanup(now: int)
      modifies this
      ensures Contents() == PruneBlocked(config, PruneEntries(config, old(Contents()), now), now)
      ensures forall ip :: ip in entries <==> ip in old(entries) && now - old(entries)[ip].start <= config.window
      ensures forall ip :: ip in blockedIPs <==> ip in old(blockedIPs) && now - old(blockedIPs)[ip] <= config.blockTTL
    {
      var todo := entries.Keys;
      while todo != {}
        invariant blockedIPs == old(blockedIPs) && todo <= old(entries).Keys
        invariant entries == map ip | ip in old(entries)
                    && (ip in todo || !Expired(config, old(entries)[ip], now)) :: old(entries)[ip]
      {
        var ip :| ip in todo;
        if now - entries[ip].start > config.window { entries := entries - {ip}; }
        todo := todo - {ip};
      }
      todo := blockedIPs.Keys;
      while todo != {}
        invariant entries == PruneEntries(config, old(Contents()), now).entries && todo <= old(blockedIPs).Keys
        invariant blockedIPs == map ip | ip in old(blockedIPs)
                    && (ip in todo || now - old(blockedIPs)[ip] <= config.blockTTL) :: old(blockedIPs)[ip]
      {
        var ip :| ip in todo;
        if now - blockedIPs[ip] > config.blockTTL { blockedIPs := blockedIPs - {ip}; }
        todo := todo - {ip};
      }
    }
  }

  // -------------------------------------------------------------- failure bound

  datatype Op = Failure(ip: Ip) | Success(ip: Ip) | AdminClear(ip: Ip) | CleanupTick

  /** A step of the login handler (the blocked check and the count in one) or of
      its surroundings, at a time. */
  datatype Event = At(now: int, op: Op)

  predicate Monotone(events: seq<Event>, from: int)
    decreases |events|
  {
    events == [] || (from <= events[0].now && Monotone(events[1..], events[0].now))
  }

  /** No success of `ip` and no admin clear that concerns it. */
  predicate Undisturbed(events: seq<Event>, ip: Ip) {
    forall i :: 0 <= i < |events| ==>
      events[i].op != Success(ip) && events[i].op != AdminClear(ip) && events[i].op != AdminClear("")
  }

  function Handle(c: Config, s: State, e: Event): State {
    match e.op
    case Failure(ip) => if IsBlocked(c, s, ip, e.now) then s else Allow(c, s, ip, e.now).0
    case Success(ip) => if IsBlocked(c, s, ip, e.now) then s else Reset(s, ip)
    case AdminClear(ip) => ClearBlocked(s, ip)
    case CleanupTick => PruneBlocked(c, PruneEntries(c, s, e.now), e.now)
  }

  predicate Processes(c: Config, s: State, e: Event, ip: Ip) {
    e.op == Failure(ip) && !IsBlocked(c, s, ip, e.now)
  }

  /** When the failures of `ip` that got past the blocked check happened. */
  function ProcessedFailures(c: Config, s: State, events: seq<Event>, ip: Ip): seq<int>
    decreases |events|
  {
    if events == [] then []
    else (if Processes(c, s, events[0], ip) then [events[0].now] else [])
         + ProcessedFailures(c, Handle(c, s, events[0]), events[1..], ip)
  }

  function CountWithin(times: seq<int>, lo: int, hi: int): nat {
    if times == [] then 0
    else CountWithin(times[..|times| - 1], lo, hi) + if lo <= times[|times| - 1] <= hi then 1 else 0
  }

  /** The processed failures of one address so far, each with the index of the
      failure that opened its window. */
  datatype Trace = Trace(times: seq<int>, first: seq<nat>)

  function Extend(c: Config, s: State, tr: Trace, e: Event, ip: Ip): Trace {
    if !Processes(c, s, e, ip) then tr
    else
      var opens := ip !in s.entries || Expired(c, s.entries[ip], e.now) || tr.first == [];
      Trace(tr.times + [e.now], tr.first + [if opens then |tr.times| else tr.first[|tr.first| - 1]])
  }

  predicate Ascending(times: seq<int>) {
    forall i, j :: 0 <= i < j < |times| ==> times[i] <= times[j]
  }

  /** What one failure knows about its window and the failure before it. */
  predicate LinkOk(c: Config, tr: Trace, k: nat)
    requires |tr.first| == |tr.times| && k < |tr.times|
  {
    && tr.first[k] <= k
    && k - tr.first[k] < c.maxHits
    && tr.times[k] <= tr.times[tr.first[k]] + c.window
    && tr.first[tr.first[k]] == tr.first[k]
    && (k > 0 ==> tr.first[k - 1] <= k - 1 && (tr.first[k] == tr.first[k - 1] || tr.first[k] == k))
    && (k > 0 && tr.first[k] == k ==>
          && tr.times[tr.first[k - 1]] + c.window < tr.times[k]
          && (k - tr.first[k - 1] == c.maxHits ==> tr.times[k - 1] + c.window < tr.times[k]))
  }

  predicate WellGrouped(c: Config, tr: Trace) {
    && |tr.first| == |tr.times|
    && Ascending(tr.times)
    && forall k :: 0 <= k < |tr.times| ==> LinkOk(c, tr, k)
  }

  /** How the limiter's maps reflect the history of `ip`. */
  predicate Reflects(c: Config, s: State, tr: Trace, ip: Ip, now: int)
    requires WellGrouped(c, tr)
  {
    var n := |tr.times|;
    if n == 0 then ip !in s.entries
    else
      assert LinkOk(c, tr, n - 1);
      var g := tr.first[n - 1];
      && tr.times[n - 1] <= now
      && (if ip in s.entries then s.entries[ip] == Entry(n - g, tr.times[g]) else now > tr.times[g] + c.window)
      && (n - g == c.maxHits ==>
            (ip in s.blocked && s.blocked[ip] == tr.times[n - 1]) || now > tr.times[n - 1] + c.blockTTL)
  }

  predicate Sensible(c: Config) {
    c.maxHits >= 2 && c.blockTTL >= c.window
  }

  lemma OldLinkStays(c: Config, tr: Trace, tr': Trace, k: nat)
    requires WellGrouped(c, tr) && k < |tr.times| && |tr'.first| == |tr'.times|
    requires tr.times <= tr'.times && tr.first <= tr'.first
    ensures LinkOk(c, tr', k)
  {
    assert LinkOk(c, tr, k);
    if k > 0 { assert LinkOk(c, tr, k - 1); }
  }

  /** Adding one failure to the history, in the open window or opening one. */
  lemma ExtendKeepsGroups(c: Config, tr: Trace, now: int, opens: bool, tr': Trace)
    requires c.maxHits >= 2 && WellGrouped(c, tr)
    requires var n := |tr.times|;
             && tr' == Trace(tr.times + [now], tr.first + [if opens || n == 0 then n else tr.first[n - 1]])
             && (n > 0 ==>
                   && LinkOk(c, tr, n - 1) && tr.times[n - 1] <= now
                   && var g := tr.first[n - 1];
                   && (!opens ==> n - g < c.maxHits && now <= tr.times[g] + c.window)
                   && (opens ==> tr.times[g] + c.window < now
                                 && (n - g == c.maxHits ==> tr.times[n - 1] + c.window < now)))
    ensures WellGrouped(c, tr')
  {
    var n := |tr.times|;
    forall k | 0 <= k < |tr'.times| ensures LinkOk(c, tr', k) {
      if k < n {
        OldLinkStays(c, tr, tr', k);
      } else if n > 0 {
        assert LinkOk(c, tr, n - 1);
        assert LinkOk(c, tr, tr.first[n - 1]);
      }
    }
  }

  lemma FailureKeepsReflects(c: Config, s: State, tr: Trace, e: Event, ip: Ip, last: int)
    requires Sensible(c) && WellGrouped(c, tr) && Reflects(c, s, tr, ip, last) && last <= e.now
    requires Processes(c, s, e, ip)
    ensures var tr' := Extend(c, s, tr, e, ip);
            WellGrouped(c, tr') && Reflects(c, Handle(c, s, e), tr', ip, e.now)
  {
    var n := |tr.times|;
    if n > 0 { assert LinkOk(c, tr, n - 1); }
    var opens := ip !in s.entries || Expired(c, s.entries[ip], e.now);
    ExtendKeepsGroups(c, tr, e.now, opens, Extend(c, s, tr, e, ip));
    assert LinkOk(c, Extend(c, s, tr, e, ip), n);
  }

  lemma OtherKeepsReflects(c: Config, s: State, tr: Trace, e: Event, ip: Ip, last: int)
    requires Sensible(c) && WellGrouped(c, tr) && Reflects(c, s, tr, ip, last) && last <= e.now
    requires !Processes(c, s, e, ip) && e.op != Success(ip) && e.op != AdminClear(ip) && e.op != AdminClear("")
    ensures Reflects(c, Handle(c, s, e), tr, ip, e.now)
  {
    if |tr.times| > 0 { assert LinkOk(c, tr, |tr.times| - 1); }
  }

  /** The trace after a run, with the times `ProcessedFailures` lists at its end. */
  lemma {:induction false} RunIsGrouped(c: Config, s: State, tr: Trace, events: seq<Event>, ip: Ip, last: int)
    returns (tr': Trace)
    requires Sensible(c) && WellGrouped(c, tr) && Reflects(c, s, tr, ip, last)
    requires Monotone(events, last) && Undisturbed(events, ip)
    ensures WellGrouped(c, tr') && tr'.times == tr.times + ProcessedFailures(c, s, events, ip)
    decreases |events|
  {
    if events == [] {
      tr' := tr;
    } else {
      var e := events[0];
      if Processes(c, s, e, ip) {
        FailureKeepsReflects(c, s, tr, e, ip, last);
      } else {
        OtherKeepsReflects(c, s, tr, e, ip, last);
      }
      tr' := RunIsGrouped(c, Handle(c, s, e), Extend(c, s, tr, e, ip), events[1..], ip, e.now);
    }
  }

  lemma {:induction false} SameGroup(c: Config, tr: Trace, k: nat, m: nat)
    requires WellGrouped(c, tr) && k <= m < |tr.times| && tr.first[m] <= k
    ensures tr.first[k] == tr.first[m]
    decreases m
  {
    if k < m {
      assert LinkOk(c, tr, m);
      SameGroup(c, tr, k, m - 1);
    }
  }

  /** Any 2 * maxHits - 1 consecutive failures span more than one window length. */
  lemma SpanExceedsWindow(c: Config, tr: Trace, k: nat, m: nat)
    requires Sensible(c) && WellGrouped(c, tr) && m == k + 2 * c.maxHits - 2 && m < |tr.times|
    ensures tr.times[k] + c.window < tr.times[m]
  {
    assert LinkOk(c, tr, m);
    var g := tr.first[m];
    assert LinkOk(c, tr, g);
    assert g > k;
    var h := tr.first[g - 1];
    assert LinkOk(c, tr, g - 1);
    assert tr.times[g] <= tr.times[m];
    if h > k {
      assert LinkOk(c, tr, h);
      assert tr.times[k] <= tr.times[h];
    } else {
      SameGroup(c, tr, k, g - 1);
      assert tr.times[k] <= tr.times[g - 1];
    }
  }

  lemma {:induction false} CountIsBounded(times: seq<int>, lo: int, hi: int, bound: nat)
    requires Ascending(times) && bound > 0
    requires forall k :: 0 <= k < |times| - bound ==> times[k] + (hi - lo) < times[k + bound]
    ensures CountWithin(times, lo, hi) <= bound
    ensures |times| > 0 && times[|times| - 1] <= hi && CountWithin(times, lo, hi) > 0 ==>
              CountWithin(times, lo, hi) <= |times| && times[|times| - CountWithin(times, lo, hi)] >= lo
    decreases |times|
  {
    if times != [] {
      var n := |times| - 1;
      var front := times[..n];
      assert forall k :: 0 <= k < |front| - bound ==> front[k] + (hi - lo) < front[k + bound];
      CountIsBounded(front, lo, hi, bound);
    }
  }

  function Repeat(now: int, n: nat): (times: seq<int>)
    ensures |times| == n
  {
    seq(n, _ => now)
  }

  lemma {:induction false} CountConcat(a: seq<int>, b: seq<int>, lo: int, hi: int)
    ensures CountWithin(a + b, lo, hi) == CountWithin(a, lo, hi) + CountWithin(b, lo, hi)
    decreases |b|
  {
    if b == [] {
      assert a + b == a;
    } else {
      assert (a + b)[..|a + b| - 1] == a + b[..|b| - 1];
      CountConcat(a, b[..|b| - 1], lo, hi);
    }
  }

  /** What holds of an address's entry in every reachable state. */
  predicate Plausible(s: State, ip: Ip, now: int) {
    ip in s.entries ==> s.entries[ip].count >= 1 && s.entries[ip].start <= now
  }

  /** The limiter after a run of any events. */
  function After(c: Config, s: State, events: seq<Event>): State
    decreases |events|
  {
    if events == [] then s else After(c, Handle(c, s, events[0]), events[1..])
  }

  function LastTime(events: seq<Event>, from: int): int {
    if events == [] then from else events[|events| - 1].now
  }

  lemma {:induction false} RunIsPlausible(c: Config, s: State, events: seq<Event>, ip: Ip, from: int)
    requires Monotone(events, from) && Plausible(s, ip, from)
    ensures from <= LastTime(events, from) && Plausible(After(c, s, events), ip, LastTime(events, from))
    decreases |events|
  {
    if events != [] {
      var e := events[0];
      RunIsPlausible(c, Handle(c, s, e), events[1..], ip, e.now);
      assert LastTime(events[1..], e.now) == LastTime(events, from);
    }
  }

  /** An open window as a history: `count` failures at its start. */
  lemma WindowIsGrouped(c: Config, s: State, ip: Ip, now: int)
    requires Sensible(c) && Plausible(s, ip, now) && ip in s.entries && s.entries[ip].count < c.maxHits
    ensures var e := s.entries[ip];
            var tr := Trace(Repeat(e.start, e.count), seq(e.count, _ => 0));
            WellGrouped(c, tr) && Reflects(c, s, tr, ip, now)
  {
    var e := s.entries[ip];
    var tr := Trace(Repeat(e.start, e.count), seq(e.count, _ => 0));
    forall k | 0 <= k < |tr.times| ensures LinkOk(c, tr, k) {
      assert tr.first[k] == 0 && tr.times[k] == e.start;
    }
  }

  /** An expired entry counts as none. */
  lemma ExpiredCountsAsNone(c: Config, s: State, events: seq<Event>, ip: Ip)
    requires events != [] && ip in s.entries && Expired(c, s.entries[ip], events[0].now)
    requires Processes(c, s, events[0], ip)
    ensures ProcessedFailures(c, s, events, ip) == ProcessedFailures(c, Reset(s, ip), events, ip)
  {
    assert Handle(c, s, events[0]) == Handle(c, Reset(s, ip), events[0]) by {
      var now := events[0].now;
      assert s.entries[ip := Entry(1, now)] == (s.entries - {ip})[ip := Entry(1, now)];
    }
  }

  /** The bound from any state of the limiter. */
  lemma {:induction false} FailureBoundFrom(c: Config, s: State, events: seq<Event>, ip: Ip, from: int, lo: int)
    requires Sensible(c) && Plausible(s, ip, from) && Monotone(events, from) && Undisturbed(events, ip)
    ensures CountWithin(ProcessedFailures(c, s, events, ip), lo, lo + c.window) <= 2 * c.maxHits - 2
    decreases |events|
  {
    if events != [] {
      var e := events[0];
      if !Processes(c, s, e, ip) {
        var rest := ProcessedFailures(c, Handle(c, s, e), events[1..], ip);
        assert ProcessedFailures(c, s, events, ip) == [] + rest == rest;
        FailureBoundFrom(c, Handle(c, s, e), events[1..], ip, e.now, lo);
      } else if ip in s.entries && !Expired(c, s.entries[ip], e.now) {
        OpenWindowBound(c, s, events, ip, from, lo);
      } else {
        if ip in s.entries { ExpiredCountsAsNone(c, s, events, ip); }
        var none := if ip in s.entries then Reset(s, ip) else s;
        var tr := RunIsGrouped(c, none, Trace([], []), events, ip, from);
        assert tr.times == ProcessedFailures(c, none, events, ip);
        GroupedIsBounded(c, tr, lo);
      }
    }
  }

  lemma OpenWindowBound(c: Config, s: State, events: seq<Event>, ip: Ip, from: int, lo: int)
    requires Sensible(c) && Plausible(s, ip, from) && Monotone(events, from) && Undisturbed(events, ip)
    requires ip in s.entries && s.entries[ip].count < c.maxHits
    ensures CountWithin(ProcessedFailures(c, s, events, ip), lo, lo + c.window) <= 2 * c.maxHits - 2
  {
    var e := s.entries[ip];
    WindowIsGrouped(c, s, ip, from);
    var earlier := Repeat(e.start, e.count);
    var tr := RunIsGrouped(c, s, Trace(earlier, seq(e.count, _ => 0)), events, ip, from);
    GroupedIsBounded(c, tr, lo);
    CountConcat(earlier, ProcessedFailures(c, s, events, ip), lo, lo + c.window);
  }

  /** The failure bound. Whatever happened before, while an address neither succeeds
      nor is cleared by an admin, any closed interval of one window length holds at
      most 2 * maxHits - 2 processed failures of it, wherever cleanups fall. */
  lemma FailureBound(c: Config, before: seq<Event>, events: seq<Event>, ip: Ip, from: int, lo: int)
    requires Sensible(c) && Monotone(before, from)
    requires Monotone(events, LastTime(before, from)) && Undisturbed(events, ip)
    ensures var times := ProcessedFailures(c, After(c, State(map[], map[]), before), events, ip);
            CountWithin(times, lo, lo + c.window) <= 2 * c.maxHits - 2
  {
    RunIsPlausible(c, State(map[], map[]), before, ip, from);
    FailureBoundFrom(c, After(c, State(map[], map[]), before), events, ip, LastTime(before, from), lo);
  }

  /** With the server's limits: eight failures in any quarter of an hour. */
  lemma ServerFailureBound(before: seq<Event>, events: seq<Event>, ip: Ip, from: int, lo: int)
    requires Monotone(before, from) && Monotone(events, LastTime(before, from)) && Undisturbed(events, ip)
    ensures Sensible(SERVER)
    ensures var times := ProcessedFailures(SERVER, After(SERVER, State(map[], map[]), before), events, ip);
            CountWithin(times, lo, lo + 900) <= 8
  {
    FailureBound(SERVER, before, events, ip, from, lo);
  }

  lemma GroupedIsBounded(c: Config, tr: Trace, lo: int)
    requires Sensible(c) && WellGrouped(c, tr)
    ensures CountWithin(tr.times, lo, lo + c.window) <= 2 * c.maxHits - 2
  {
    var bound := 2 * c.maxHits - 2;
    forall k | 0 <= k < |tr.times| - bound ensures tr.times[k] + c.window < tr.times[k + bound] {
      SpanExceedsWindow(c, tr, k, k + bound);
    }
    CountIsBounded(tr.times, lo, lo + c.window, bound);
  }

  // ------------------------------------------------------------- the bound is tight

  function Burst(ip: Ip, now: int, n: nat): (events: seq<Event>)
    ensures |events| == n
  {
    seq(n, _ => At(now, Failure(ip)))
  }

  lemma {:induction false} CountRepeat(now: int, n: nat, lo: int, hi: int)
    ensures CountWithin(Repeat(now, n), lo, hi) == if lo <= now <= hi then n else 0
  {
    if n > 0 {
      assert Repeat(now, n)[..n - 1] == Repeat(now, n - 1);
      CountRepeat(now, n - 1, lo, hi);
    }
  }

  lemma {:induction false} MonotoneBurst(ip: Ip, now: int, n: nat, rest: seq<Event>, from: int)
    requires Monotone(rest, now) && from <= now
    ensures Monotone(Burst(ip, now, n) + rest, from)
    decreases n
  {
    if n == 0 {
      assert Burst(ip, now, n) + rest == rest;
    } else {
      assert (Burst(ip, now, n) + rest)[1..] == Burst(ip, now, n - 1) + rest;
      MonotoneBurst(ip, now, n - 1, rest, now);
    }
  }

  lemma FirstEvent(c: Config, s: State, e: Event, rest: seq<Event>, ip: Ip)
    ensures ProcessedFailures(c, s, [e] + rest, ip)
         == (if Processes(c, s, e, ip) then [e.now] else []) + ProcessedFailures(c, Handle(c, s, e), rest, ip)
  {
    var events := [e] + rest;
    assert events[0] == e && events[1..] == rest;
  }

  lemma FailureCounts(c: Config, s: State, ip: Ip, now: int)
    requires ip in s.entries && !Expired(c, s.entries[ip], now) && ip !in s.blocked
    requires s.entries[ip].count + 1 < c.maxHits
    ensures var e := s.entries[ip];
            && Processes(c, s, At(now, Failure(ip)), ip)
            && Handle(c, s, At(now, Failure(ip))) == s.(entries := s.entries[ip := e.(count := e.count + 1)])
  {
  }

  /** A burst inside an open window that stays below the limit is all processed. */
  lemma {:induction false} BurstBelowLimit(c: Config, s: State, ip: Ip, now: int, n: nat, rest: seq<Event>)
    requires ip in s.entries && !Expired(c, s.entries[ip], now) && ip !in s.blocked
    requires s.entries[ip].count + n < c.maxHits
    ensures var e := s.entries[ip];
            ProcessedFailures(c, s, Burst(ip, now, n) + rest, ip)
            == Repeat(now, n)
               + ProcessedFailures(c, s.(entries := s.entries[ip := e.(count := e.count + n)]), rest, ip)
    decreases n
  {
    var e := s.entries[ip];
    var events := Burst(ip, now, n) + rest;
    if n == 0 {
      assert events == rest && Repeat(now, 0) == [];
      assert s.entries[ip := e] == s.entries;
    } else {
      var s' := s.(entries := s.entries[ip := e.(count := e.count + 1)]);
      assert events == [At(now, Failure(ip))] + (Burst(ip, now, n - 1) + rest);
      FailureCounts(c, s, ip, now);
      FirstEvent(c, s, At(now, Failure(ip)), Burst(ip, now, n - 1) + rest, ip);
      BurstBelowLimit(c, s', ip, now, n - 1, rest);
      assert s'.entries[ip := e.(count := e.count + n)] == s.entries[ip := e.(count := e.count + n)];
      assert Repeat(now, n) == [now] + Repeat(now, n - 1);
    }
  }

  function OneFailure(ip: Ip, now: int): seq<Event> { [At(now, Failure(ip))] }

  /** The first failure of a window is processed and opens it. */
  lemma FailureOpens(c: Config, s: State, ip: Ip, now: int, rest: seq<Event>)
    requires ip !in s.blocked && (ip in s.entries ==> Expired(c, s.entries[ip], now))
    ensures ProcessedFailures(c, s, OneFailure(ip, now) + rest, ip)
         == [now] + ProcessedFailures(c, s.(entries := s.entries[ip := Entry(1, now)]), rest, ip)
  {
    assert (OneFailure(ip, now) + rest)[1..] == rest;
  }

  /** One failure at second 0, all but one of the others at the end of the window,
      and a full window right after. */
  function TightRun(c: Config, ip: Ip): seq<Event>
    requires Sensible(c)
  {
    OneFailure(ip, 0) + (Burst(ip, c.window, c.maxHits - 2) + NextWindow(c, ip))
  }

  function NextWindow(c: Config, ip: Ip): seq<Event>
    requires Sensible(c)
  {
    OneFailure(ip, c.window + 1) + (Burst(ip, c.window + 1, c.maxHits - 2) + OneFailure(ip, c.window + 1))
  }

  lemma TightRunIsMonotone(c: Config, ip: Ip)
    requires Sensible(c)
    ensures Monotone(TightRun(c, ip), 0) && Undisturbed(TightRun(c, ip), ip)
  {
    var w, m := c.window, c.maxHits;
    assert OneFailure(ip, 0) == Burst(ip, 0, 1);
    assert OneFailure(ip, w + 1) == Burst(ip, w + 1, 1) == Burst(ip, w + 1, 1) + [];
    MonotoneBurst(ip, w + 1, 1, [], w + 1);
    MonotoneBurst(ip, w + 1, m - 2, OneFailure(ip, w + 1), w + 1);
    MonotoneBurst(ip, w + 1, 1, Burst(ip, w + 1, m - 2) + OneFailure(ip, w + 1), w);
    MonotoneBurst(ip, w, m - 2, NextWindow(c, ip), 0);
    MonotoneBurst(ip, 0, 1, Burst(ip, w, m - 2) + NextWindow(c, ip), 0);
  }

  lemma NextWindowIsProcessed(c: Config, s: State, ip: Ip)
    requires Sensible(c) && s == State(map[ip := Entry(c.maxHits - 1, 0)], map[])
    ensures ProcessedFailures(c, s, NextWindow(c, ip), ip) == Repeat(c.window + 1, c.maxHits)
  {
    var w, m := c.window, c.maxHits;
    var last := OneFailure(ip, w + 1);
    FailureOpens(c, s, ip, w + 1, Burst(ip, w + 1, m - 2) + last);
    var s1 := s.(entries := s.entries[ip := Entry(1, w + 1)]);
    BurstBelowLimit(c, s1, ip, w + 1, m - 2, last);
    var s2 := s1.(entries := s1.entries[ip := Entry(m - 1, w + 1)]);
    assert last[1..] == [];
    assert ProcessedFailures(c, s2, last, ip) == [w + 1] + ProcessedFailures(c, Handle(c, s2, last[0]), [], ip);
    assert [w + 1] + (Repeat(w + 1, m - 2) + [w + 1]) == Repeat(w + 1, m);
  }

  lemma TightRunIsProcessed(c: Config, ip: Ip)
    requires Sensible(c)
    ensures ProcessedFailures(c, State(map[], map[]), TightRun(c, ip), ip)
         == [0] + (Repeat(c.window, c.maxHits - 2) + Repeat(c.window + 1, c.maxHits))
  {
    var w, m := c.window, c.maxHits;
    var s0 := State(map[], map[]);
    var s1 := s0.(entries := s0.entries[ip := Entry(1, 0)]);
    FailureOpens(c, s0, ip, 0, Burst(ip, w, m - 2) + NextWindow(c, ip));
    BurstBelowLimit(c, s1, ip, w, m - 2, NextWindow(c, ip));
    NextWindowIsProcessed(c, s1.(entries := s1.entries[ip := Entry(m - 1, 0)]), ip);
  }

  /** The bound is reached, whatever the limits are. */
  lemma FailureBoundIsTight(c: Config, ip: Ip)
    requires Sensible(c) && c.window > 0
    ensures Monotone(TightRun(c, ip), 0) && Undisturbed(TightRun(c, ip), ip)
    ensures var times := ProcessedFailures(c, State(map[], map[]), TightRun(c, ip), ip);
            CountWithin(times, c.window, c.window + c.window) == 2 * c.maxHits - 2
  {
    var w, m := c.window, c.maxHits;
    TightRunIsMonotone(c, ip);
    TightRunIsProcessed(c, ip);
    CountRepeat(w + 1, m, w, w + w);
    CountRepeat(w, m - 2, w, w + w);
    CountConcat(Repeat(w, m - 2), Repeat(w + 1, m), w, w + w);
    assert [0] == Repeat(0, 1);
    CountRepeat(0, 1, w, w + w);
    CountConcat([0], Repeat(w, m - 2) + Repeat(w + 1, m), w, w + w);
  }

  // ------------------------------------------------- pruning never changes a verdict

  datatype Call = CallAllow(ip: Ip) | CallIsBlocked(ip: Ip) | CallReset(ip: Ip) | CallClear(ip: Ip)
                | DropEntries | DropBlocked

  datatype TimedCall = TimedCall(now: int, call: Call)

  datatype Verdict = Allowed(b: bool) | Blocked(b: bool)

  predicate InOrder(calls: seq<TimedCall>, from: int)
    decreases |calls|
  {
    calls == [] || (from <= calls[0].now && InOrder(calls[1..], calls[0].now))
  }

  function Apply(c: Config, s: State, k: TimedCall): State {
    match k.call
    case CallAllow(ip) => Allow(c, s, ip, k.now).0
    case CallIsBlocked(_) => s
    case CallReset(ip) => Reset(s, ip)
    case CallClear(ip) => ClearBlocked(s, ip)
    case DropEntries => PruneEntries(c, s, k.now)
    case DropBlocked => PruneBlocked(c, s, k.now)
  }

  function VerdictOf(c: Config, s: State, k: TimedCall): seq<Verdict> {
    match k.call
    case CallAllow(ip) => [Allowed(Allow(c, s, ip, k.now).1)]
    case CallIsBlocked(ip) => [Blocked(IsBlocked(c, s, ip, k.now))]
    case _ => []
  }

  function Verdicts(c: Config, s: State, calls: seq<TimedCall>): seq<Verdict>
    decreases |calls|
  {
    if calls == [] then [] else VerdictOf(c, s, calls[0]) + Verdicts(c, Apply(c, s, calls[0]), calls[1..])
  }

  function AllowVerdicts(c: Config, s: State, calls: seq<TimedCall>): seq<Verdict>
    decreases |calls|
  {
    if calls == [] then []
    else (if calls[0].call.CallAllow? then VerdictOf(c, s, calls[0]) else [])
         + AllowVerdicts(c, Apply(c, s, calls[0]), calls[1..])
  }

  function WithoutEntryDrops(calls: seq<TimedCall>): seq<TimedCall> {
    if calls == [] then []
    else (if calls[0].call.DropEntries? then [] else [calls[0]]) + WithoutEntryDrops(calls[1..])
  }

  function WithoutDrops(calls: seq<TimedCall>): seq<TimedCall> {
    if calls == [] then []
    else (if calls[0].call.DropEntries? || calls[0].call.DropBlocked? then [] else [calls[0]])
         + WithoutDrops(calls[1..])
  }

  /** `pruned` is `s` without some entries that have expired by `now`. */
  predicate PrunedFrom(c: Config, pruned: State, s: State, now: int) {
    && (forall ip :: ip in pruned.entries ==> ip in s.entries && pruned.entries[ip] == s.entries[ip])
    && (forall ip :: ip in s.entries && ip !in pruned.entries ==> Expired(c, s.entries[ip], now))
  }

  lemma CallKeepsPruned(c: Config, pruned: State, s: State, k: TimedCall, now: int)
    requires PrunedFrom(c, pruned, s, now) && now <= k.now
    ensures PrunedFrom(c, Apply(c, pruned, k), Apply(c, s, k), k.now)
    ensures k.call.DropEntries? || k.call.DropBlocked? ==> PrunedFrom(c, Apply(c, pruned, k), s, k.now)
  {}

  lemma CallAnswersAlike(c: Config, pruned: State, s: State, k: TimedCall, now: int)
    requires PrunedFrom(c, pruned, s, now) && now <= k.now
    ensures k.call.CallAllow? ==> VerdictOf(c, pruned, k) == VerdictOf(c, s, k)
    ensures pruned.blocked == s.blocked ==>
              && VerdictOf(c, pruned, k) == VerdictOf(c, s, k)
              && Apply(c, pruned, k).blocked == Apply(c, s, k).blocked
              && (k.call.DropEntries? ==> Apply(c, pruned, k).blocked == s.blocked)
  {}

  lemma {:induction false} AllowSeesNoPruning(c: Config, pruned: State, s: State, calls: seq<TimedCall>, now: int)
    requires InOrder(calls, now) && PrunedFrom(c, pruned, s, now)
    ensures AllowVerdicts(c, pruned, calls) == AllowVerdicts(c, s, WithoutDrops(calls))
    decreases |calls|
  {
    if calls != [] {
      var k, rest := calls[0], calls[1..];
      CallKeepsPruned(c, pruned, s, k, now);
      CallAnswersAlike(c, pruned, s, k, now);
      if k.call.DropEntries? || k.call.DropBlocked? {
        assert WithoutDrops(calls) == WithoutDrops(rest);
        AllowSeesNoPruning(c, Apply(c, pruned, k), s, rest, k.now);
      } else {
        assert WithoutDrops(calls)[1..] == WithoutDrops(rest);
        AllowSeesNoPruning(c, Apply(c, pruned, k), Apply(c, s, k), rest, k.now);
      }
    }
  }

  lemma {:induction false} NobodySeesEntryDrops(c: Config, pruned: State, s: State, calls: seq<TimedCall>, now: int)
    requires InOrder(calls, now) && PrunedFrom(c, pruned, s, now) && pruned.blocked == s.blocked
    ensures Verdicts(c, pruned, calls) == Verdicts(c, s, WithoutEntryDrops(calls))
    decreases |calls|
  {
    if calls != [] {
      var k, rest := calls[0], calls[1..];
      CallKeepsPruned(c, pruned, s, k, now);
      CallAnswersAlike(c, pruned, s, k, now);
      if k.call.DropEntries? {
        assert WithoutEntryDrops(calls) == WithoutEntryDrops(rest);
        NobodySeesEntryDrops(c, Apply(c, pruned, k), s, rest, k.now);
      } else {
        assert WithoutEntryDrops(calls)[1..] == WithoutEntryDrops(rest);
        NobodySeesEntryDrops(c, Apply(c, pruned, k), Apply(c, s, k), rest, k.now);
      }
    }
  }

  /** Cleanups, wherever they fall, never change a verdict of `allow`; and dropping
      expired entries alone never changes a verdict of `isBlocked` either. */
  lemma CleanupNeverChangesVerdicts(c: Config, s: State, calls: seq<TimedCall>, from: int)
    requires InOrder(calls, from)
    ensures AllowVerdicts(c, s, calls) == AllowVerdicts(c, s, WithoutDrops(calls))
    ensures Verdicts(c, s, calls) == Verdicts(c, s, WithoutEntryDrops(calls))
  {
    AllowSeesNoPruning(c, s, s, calls, from);
    NobodySeesEntryDrops(c, s, s, calls, from);
  }
}
