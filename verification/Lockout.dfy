/** How long the login rate limiter keeps an address out, and what lets it in again. */
module Lockout {
  import opened RateLimit

  lemma {:induction false} AfterConcat(c: Config, s: State, a: seq<Event>, b: seq<Event>)
    ensures After(c, s, a + b) == After(c, After(c, s, a), b)
    decreases |a|
  {
    if a == [] {
      assert a + b == b;
    } else {
      assert (a + b)[0] == a[0] && (a + b)[1..] == a[1..] + b;
      AfterConcat(c, Handle(c, s, a[0]), a[1..], b);
    }
  }

  // ----------------------------------------------------------------- while it is blocked

  /** No admin clears the address, and no cleanup comes more than the block's lifetime
      after `since`. */
  predicate LeavesBlock(c: Config, e: Event, ip: Ip, since: int) {
    && e.op != AdminClear(ip) && e.op != AdminClear("")
    && (e.op.CleanupTick? ==> e.now - since <= c.blockTTL)
  }

  /** A blocked address stays out, and nothing it tries is checked, until an admin clears
      it or a cleanup comes more than the block's lifetime later. */
  lemma {:induction false} BlockHolds(c: Config, s: State, events: seq<Event>, ip: Ip)
    requires ip in s.blocked && forall k :: 0 <= k < |events| ==> LeavesBlock(c, events[k], ip, s.blocked[ip])
    ensures var s' := After(c, s, events);
            && ip in s'.blocked && s'.blocked[ip] == s.blocked[ip] && ProcessedFailures(c, s, events, ip) == []
            && (ip in s'.entries ==> ip in s.entries && s'.entries[ip] == s.entries[ip])
    decreases |events|
  {
    if events != [] {
      assert LeavesBlock(c, events[0], ip, s.blocked[ip]);
      BlockStepHolds(c, s, events[0], ip);
      BlockHolds(c, Handle(c, s, events[0]), events[1..], ip);
    }
  }

  lemma BlockStepHolds(c: Config, s: State, e: Event, ip: Ip)
    requires ip in s.blocked && LeavesBlock(c, e, ip, s.blocked[ip])
    ensures var s' := Handle(c, s, e);
            && ip in s'.blocked && s'.blocked[ip] == s.blocked[ip] && !Processes(c, s, e, ip)
            && (ip in s'.entries ==> ip in s.entries && s'.entries[ip] == s.entries[ip])
  {
  }

  // ---------------------------------------------------------------- when the block ends

  /** The block is not older than the window it was earned in. */
  predicate EarnedInWindow(s: State, ip: Ip) {
    ip in s.blocked && ip in s.entries ==> s.entries[ip].start <= s.blocked[ip]
  }

  lemma {:induction false} RunKeepsEarned(c: Config, s: State, events: seq<Event>, ip: Ip, from: int)
    requires Monotone(events, from) && Plausible(s, ip, from) && EarnedInWindow(s, ip)
    ensures EarnedInWindow(After(c, s, events), ip)
    decreases |events|
  {
    if events != [] {
      RunIsPlausible(c, s, events[..1], ip, from);
      assert After(c, s, events[..1]) == Handle(c, s, events[0]) by {
        assert events[..1][1..] == [];
      }
      RunKeepsEarned(c, Handle(c, s, events[0]), events[1..], ip, events[0].now);
    }
  }

  /** The first cleanup more than the block's lifetime later lets the address in again:
      its window is over as well. */
  lemma CleanupEndsBlock(c: Config, before: seq<Event>, between: seq<Event>, ip: Ip, from: int, t: int, now: int)
    returns (s: State)
    requires c.blockTTL >= c.window && Monotone(before, from)
    requires ip in After(c, State(map[], map[]), before).blocked
    requires var since := After(c, State(map[], map[]), before).blocked[ip];
             && (forall k :: 0 <= k < |between| ==> LeavesBlock(c, between[k], ip, since))
             && t - since > c.blockTTL && t <= now
    ensures s == After(c, State(map[], map[]), before + between + [At(t, CleanupTick)])
    ensures !IsBlocked(c, s, ip, now)
  {
    var empty := State(map[], map[]);
    var blocked := After(c, empty, before);
    RunKeepsEarned(c, empty, before, ip, from);
    BlockHolds(c, blocked, between, ip);
    var waited := After(c, blocked, between);
    var tick := At(t, CleanupTick);
    AfterConcat(c, empty, before, between);
    AfterConcat(c, empty, before + between, [tick]);
    assert [tick][1..] == [];
    s := After(c, waited, [tick]);
    assert s == Handle(c, waited, tick);
  }

  // ------------------------------------------------------------------ an admin's clear

  /** A cleared address is let in again exactly unless its window is still open and has
      reached the limit: the clear removes the block, not the count. */
  lemma ClearedIsAdmittedIff(c: Config, s: State, ip: Ip, target: Ip, t: int, now: int)
    requires target == ip || target == ""
    ensures IsBlocked(c, Handle(c, s, At(t, AdminClear(target))), ip, now) <==>
            ip in s.entries && now - s.entries[ip].start <= c.window && s.entries[ip].count >= c.maxHits
  {
  }

  /** A burst that reaches the limit, after the first failure. */
  lemma BurstBlocks(c: Config, s: State, ip: Ip, now: int)
    requires c.maxHits >= 2 && ip !in s.blocked && ip !in s.entries
    ensures var s' := After(c, s, Burst(ip, now, c.maxHits));
            && ip in s'.entries && s'.entries[ip] == Entry(c.maxHits, now)
            && ip in s'.blocked && s'.blocked[ip] == now
    ensures ProcessedFailures(c, s, Burst(ip, now, c.maxHits), ip) == Repeat(now, c.maxHits)
  {
    var first := s.(entries := s.entries[ip := Entry(1, now)]);
    assert Burst(ip, now, c.maxHits) == [At(now, Failure(ip))] + Burst(ip, now, c.maxHits - 1);
    FirstEvent(c, s, At(now, Failure(ip)), Burst(ip, now, c.maxHits - 1), ip);
    assert Handle(c, s, At(now, Failure(ip))) == first;
    assert Burst(ip, now, c.maxHits)[1..] == Burst(ip, now, c.maxHits - 1);
    BurstFills(c, first, ip, now, c.maxHits - 1);
    assert Repeat(now, c.maxHits) == [now] + Repeat(now, c.maxHits - 1);
  }

  lemma {:induction false} BurstFills(c: Config, s: State, ip: Ip, now: int, n: nat)
    requires ip !in s.blocked && ip in s.entries && s.entries[ip].start == now
    requires n > 0 && s.entries[ip].count + n == c.maxHits
    ensures var s' := After(c, s, Burst(ip, now, n));
            && ip in s'.entries && s'.entries[ip] == Entry(c.maxHits, now)
            && ip in s'.blocked && s'.blocked[ip] == now
    ensures ProcessedFailures(c, s, Burst(ip, now, n), ip) == Repeat(now, n)
    decreases n
  {
    var e, rest := At(now, Failure(ip)), Burst(ip, now, n - 1);
    assert Burst(ip, now, n) == [e] + rest && Burst(ip, now, n)[1..] == rest;
    FirstEvent(c, s, e, rest, ip);
    assert Processes(c, s, e, ip);
    assert Repeat(now, n) == [now] + Repeat(now, n - 1);
    if n > 1 {
      BurstFills(c, Handle(c, s, e), ip, now, n - 1);
    } else {
      assert rest == [] && Repeat(now, 0) == [];
    }
  }

  /** So an address that was blocked by a burst and cleared is still refused until the
      window of the burst is over, and let in from then on. */
  lemma ClearWaitsForWindow(c: Config, s: State, ip: Ip, t: int, cleared: int, now: int)
    requires c.maxHits >= 2 && ip !in s.blocked && ip !in s.entries && t <= cleared <= now
    ensures var s' := After(c, s, Burst(ip, t, c.maxHits) + [At(cleared, AdminClear(ip))]);
            IsBlocked(c, s', ip, now) <==> now - t <= c.window
  {
    var clear := At(cleared, AdminClear(ip));
    BurstBlocks(c, s, ip, t);
    AfterConcat(c, s, Burst(ip, t, c.maxHits), [clear]);
    var full := After(c, s, Burst(ip, t, c.maxHits));
    assert [clear][1..] == [];
    assert After(c, full, [clear]) == Handle(c, full, clear);
    ClearedIsAdmittedIff(c, full, ip, ip, cleared, now);
  }

  // --------------------------------------------------------------------- a success

  /** A success forgets the failures: after it an address can fail as often as a new one
      before it is blocked. */
  lemma SuccessStartsAfresh(c: Config, s: State, ip: Ip, t: int, now: int, more: nat)
    requires c.maxHits >= 2 && !IsBlocked(c, s, ip, t)
    ensures var s' := Handle(c, s, At(t, Success(ip)));
            && !IsBlocked(c, s', ip, now)
            && ProcessedFailures(c, s', Burst(ip, now, c.maxHits + more), ip) == Repeat(now, c.maxHits)
  {
    var s' := Handle(c, s, At(t, Success(ip)));
    BurstBlocks(c, s', ip, now);
    assert Burst(ip, now, c.maxHits + more) == Burst(ip, now, c.maxHits) + Burst(ip, now, more);
    ProcessedConcat(c, s', Burst(ip, now, c.maxHits), Burst(ip, now, more), ip);
    BlockHolds(c, After(c, s', Burst(ip, now, c.maxHits)), Burst(ip, now, more), ip);
    assert Repeat(now, c.maxHits) + [] == Repeat(now, c.maxHits);
  }

  lemma {:induction false} ProcessedConcat(c: Config, s: State, a: seq<Event>, b: seq<Event>, ip: Ip)
    ensures ProcessedFailures(c, s, a + b, ip)
         == ProcessedFailures(c, s, a, ip) + ProcessedFailures(c, After(c, s, a), b, ip)
    decreases |a|
  {
    if a == [] {
      assert a + b == b;
    } else {
      assert a + b == [a[0]] + (a[1..] + b) && a == [a[0]] + a[1..];
      FirstEvent(c, s, a[0], a[1..] + b, ip);
      FirstEvent(c, s, a[0], a[1..], ip);
      ProcessedConcat(c, Handle(c, s, a[0]), a[1..], b, ip);
    }
  }
}
