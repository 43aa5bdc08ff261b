/** One run of a recurring creation schedule: it goes through the availability
    domains and tries to launch as many instances as the schedule still asks for. */
module CreateRun {

  // ---------------------------------------------------------- the launch loops

  /** How a launch call ends. `Denied` is an HTTP 401 or 403. */
  datatype Answer = Launched | Failed | Denied

  datatype Tally = Tally(success: nat, remaining: int, attempts: nat, denied: bool)

  /** The answer to the n-th launch call of a run. */
  type Oracle = nat -> Answer

  function Count(t: Tally, a: Answer): Tally {
    match a
    case Launched => Tally(t.success + 1, t.remaining - 1, t.attempts + 1, t.denied)
    case Failed => t.(attempts := t.attempts + 1)
    case Denied => t.(attempts := t.attempts + 1, denied := true)
  }

  /** The tries in one availability domain, from the i-th on. The bound of the loop
      shrinks with every success. */
  function Pass(t: Tally, i: nat, answer: Oracle): Tally
    decreases t.remaining - i
  {
    if i >= t.remaining then t
    else
      var a := answer(t.attempts);
      if a.Denied? then Count(t, a) else Pass(Count(t, a), i + 1, answer)
  }

  /** All availability domains; `ads[k]` tells whether the k-th one has a name. A
      denial ends a pass, not the run. */
  function Passes(t: Tally, ads: seq<bool>, answer: Oracle): Tally
    decreases |ads|
  {
    if ads == [] then t
    else Passes(if !ads[0] || t.remaining <= 0 then t else Pass(t, 0, answer), ads[1..], answer)
  }

  method LaunchAll(createNumbers: int, ads: seq<bool>, answer: Oracle) returns (t: Tally)
    ensures t == Passes(Tally(0, createNumbers, 0, false), ads, answer)
  {
    var success, remaining, attempts, authFailure := 0, createNumbers, 0, false;
    for k := 0 to |ads|
      invariant Passes(Tally(success, remaining, attempts, authFailure), ads[k..], answer)
             == Passes(Tally(0, createNumbers, 0, false), ads, answer)
    {
      ghost var before := Tally(success, remaining, attempts, authFailure);
      assert ads[k..][1..] == ads[k + 1..];
      if !ads[k] || remaining <= 0 { continue; }
      var i, broken := 0, false;
      while i < remaining && !broken
        invariant (if broken then Tally(success, remaining, attempts, authFailure)
                   else Pass(Tally(success, remaining, attempts, authFailure), i, answer)) == Pass(before, 0, answer)
        decreases !broken, remaining - i
      {
        var a := answer(attempts);
        attempts := attempts + 1;
        if a.Denied? {
          authFailure := true;
          broken := true;
        } else {
          if a.Launched? {
            success := success + 1;
            remaining := remaining - 1;
          }
          i := i + 1;
        }
      }
    }
    t := Tally(success, remaining, attempts, authFailure);
  }

  lemma {:induction false} PassConserves(t: Tally, i: nat, answer: Oracle)
    ensures var u := Pass(t, i, answer); u.success + u.remaining == t.success + t.remaining && u.success >= t.success
    ensures t.remaining >= 0 ==> Pass(t, i, answer).remaining >= 0
    decreases t.remaining - i
  {
    if i < t.remaining && !answer(t.attempts).Denied? { PassConserves(Count(t, answer(t.attempts)), i + 1, answer); }
  }

  /** Success and remaining always add up to what was asked for, and no more is
      launched than that. */
  lemma {:induction false} LaunchesConserve(t: Tally, ads: seq<bool>, answer: Oracle)
    ensures var u := Passes(t, ads, answer);
            u.success + u.remaining == t.success + t.remaining && (t.remaining >= 0 ==> u.remaining >= 0)
    decreases |ads|
  {
    if ads != [] {
      PassConserves(t, 0, answer);
      LaunchesConserve(if !ads[0] || t.remaining <= 0 then t else Pass(t, 0, answer), ads[1..], answer);
    }
  }

  /** From the i-th try on, tries and successes add up to what is left of the bound,
      or to one more if the last try succeeded. */
  lemma {:induction false} PassArithmetic(t: Tally, i: nat, answer: Oracle)
    requires i <= t.remaining && !t.denied && !Pass(t, i, answer).denied
    ensures var u := Pass(t, i, answer);
            var tries, successes := u.attempts - t.attempts, u.success - t.success;
            && 0 <= successes <= tries
            && (tries + successes == t.remaining - i || (successes > 0 && tries + successes == t.remaining - i + 1))
    decreases t.remaining - i
  {
    if i < t.remaining {
      var next := Count(t, answer(t.attempts));
      if i + 1 <= next.remaining { PassArithmetic(next, i + 1, answer); }
    }
  }

  /** A pass entered with r remaining and not denied makes between ceil(r/2) and r
      tries; tries and successes add up to r or r + 1. */
  lemma PassBounds(t: Tally, answer: Oracle)
    requires t.remaining > 0 && !t.denied && !Pass(t, 0, answer).denied
    ensures var u := Pass(t, 0, answer);
            var tries, successes := u.attempts - t.attempts, u.success - t.success;
            && (tries + successes == t.remaining || tries + successes == t.remaining + 1)
            && (t.remaining + 1) / 2 <= tries <= t.remaining
  {
    PassArithmetic(t, 0, answer);
  }

  /** The lower bound is met when every launch succeeds: one availability domain
      then gets only half of the instances, and the rest stays for the next run. */
  lemma {:induction false} AllSucceedStopsHalfway(t: Tally, i: nat, answer: Oracle)
    requires forall n :: answer(n) == Launched
    requires i <= t.remaining
    ensures Pass(t, i, answer).success == t.success + (t.remaining - i + 1) / 2
    decreases t.remaining - i
  {
    if i < t.remaining {
      var next := Count(t, Launched);
      if i + 1 <= next.remaining { AllSucceedStopsHalfway(next, i + 1, answer); }
    }
  }

  /** The answers of one kind among the launch calls from number `lo` to before `hi`. */
  function CountAnswers(answer: Oracle, kind: Answer, lo: nat, hi: nat): nat
    decreases hi - lo
  {
    if lo >= hi then 0 else CountAnswers(answer, kind, lo, hi - 1) + if answer(hi - 1) == kind then 1 else 0
  }

  lemma {:induction false} AnswersAddUp(answer: Oracle, kind: Answer, lo: nat, mid: nat, hi: nat)
    requires lo <= mid <= hi
    ensures CountAnswers(answer, kind, lo, hi)
         == CountAnswers(answer, kind, lo, mid) + CountAnswers(answer, kind, mid, hi)
    decreases hi - mid
  {
    if mid < hi { AnswersAddUp(answer, kind, lo, mid, hi - 1); }
  }

  /** What a tally says about the calls between it and an earlier one. */
  predicate Counts(t: Tally, u: Tally, answer: Oracle) {
    && t.attempts <= u.attempts
    && u.success == t.success + CountAnswers(answer, Launched, t.attempts, u.attempts)
    && (u.denied <==> t.denied || CountAnswers(answer, Denied, t.attempts, u.attempts) > 0)
  }

  lemma CountsTrans(t: Tally, u: Tally, v: Tally, answer: Oracle)
    requires Counts(t, u, answer) && Counts(u, v, answer)
    ensures Counts(t, v, answer)
  {
    AnswersAddUp(answer, Launched, t.attempts, u.attempts, v.attempts);
    AnswersAddUp(answer, Denied, t.attempts, u.attempts, v.attempts);
  }

  /** A pass that was denied made no call after the denial. */
  lemma {:induction false} PassCounts(t: Tally, i: nat, answer: Oracle)
    ensures Counts(t, Pass(t, i, answer), answer)
    ensures CountAnswers(answer, Denied, t.attempts, Pass(t, i, answer).attempts) <= 1
    ensures var u := Pass(t, i, answer);
            CountAnswers(answer, Denied, t.attempts, u.attempts) == 1 ==> answer(u.attempts - 1) == Denied
    decreases t.remaining - i
  {
    if i < t.remaining {
      var k := t.attempts;
      var next := Count(t, answer(k));
      assert CountAnswers(answer, Launched, k, k + 1) == if answer(k) == Launched then 1 else 0;
      assert CountAnswers(answer, Denied, k, k + 1) == if answer(k) == Denied then 1 else 0;
      if !answer(t.attempts).Denied? {
        PassCounts(next, i + 1, answer);
        CountsTrans(t, next, Pass(t, i, answer), answer);
        AnswersAddUp(answer, Denied, t.attempts, next.attempts, Pass(t, i, answer).attempts);
      }
    }
  }

  /** The result of a run: it has launched as many instances as calls were answered by a
      launch, and is denied exactly if a call was; domains without a name make no call. */
  lemma {:induction false} RunCounts(t: Tally, ads: seq<bool>, answer: Oracle)
    ensures Counts(t, Passes(t, ads, answer), answer)
    ensures (forall k :: 0 <= k < |ads| ==> !ads[k]) ==> Passes(t, ads, answer) == t
    decreases |ads|
  {
    if ads != [] {
      var next := if !ads[0] || t.remaining <= 0 then t else Pass(t, 0, answer);
      PassCounts(t, 0, answer);
      RunCounts(next, ads[1..], answer);
      CountsTrans(t, next, Passes(t, ads, answer), answer);
    }
  }

  // -------------------------------------------------- the same, one call at a time

  /** Where a run stands: the availability domains from the current one on. */
  datatype Cursor = Cursor(ads: seq<bool>, i: nat, tally: Tally)

  predicate Settled(c: Cursor) {
    c.ads == [] || (c.ads[0] && c.i < c.tally.remaining)
  }

  /** Skips domains without a name and passes that are over. */
  function Settle(c: Cursor): (s: Cursor)
    ensures s.tally == c.tally && |s.ads| <= |c.ads| && Settled(s)
    ensures |s.ads| == |c.ads| ==> s == c
    decreases |c.ads|
  {
    if Settled(c) then c else Settle(Cursor(c.ads[1..], 0, c.tally))
  }

  function Attempt(c: Cursor, a: Answer): (next: Cursor)
    requires c.ads != []
    ensures Settled(next)
  {
    Settle(if a.Denied? then Cursor(c.ads[1..], 0, Count(c.tally, a)) else Cursor(c.ads, c.i + 1, Count(c.tally, a)))
  }

  function Begin(requested: int, ads: seq<bool>): Cursor {
    Settle(Cursor(ads, 0, Tally(0, requested, 0, false)))
  }

  function Bound(c: Cursor): int {
    if c.ads == [] then 0 else c.tally.remaining - c.i
  }

  function RunToEnd(c: Cursor, answer: Oracle): Tally
    requires Settled(c)
    decreases |c.ads|, Bound(c)
  {
    if c.ads == [] then c.tally
    else
      var next := Attempt(c, answer(c.tally.attempts));
      RunToEnd(next, answer)
  }

  lemma {:induction false} SettledPasses(c: Cursor, answer: Oracle)
    requires c.i == 0
    ensures Settle(c).i == 0
    ensures Passes(Settle(c).tally, Settle(c).ads, answer) == Passes(c.tally, c.ads, answer)
    decreases |c.ads|
  {
    if !Settled(c) { SettledPasses(Cursor(c.ads[1..], 0, c.tally), answer); }
  }

  /** Taking the launch calls one at a time gives what the nested loops give. */
  lemma {:induction false} CallsFollowLoops(c: Cursor, answer: Oracle)
    requires Settled(c)
    ensures RunToEnd(c, answer)
         == if c.ads == [] then c.tally else Passes(Pass(c.tally, c.i, answer), c.ads[1..], answer)
    decreases |c.ads|, Bound(c)
  {
    if c.ads != [] {
      var a := answer(c.tally.attempts);
      var next := Attempt(c, a);
      var over := Cursor(c.ads[1..], 0, Count(c.tally, a));
      CallsFollowLoops(next, answer);
      SettledPasses(over, answer);
    }
  }

  lemma RunFollowsLoops(requested: int, ads: seq<bool>, answer: Oracle)
    ensures RunToEnd(Begin(requested, ads), answer) == Passes(Tally(0, requested, 0, false), ads, answer)
  {
    var start := Cursor(ads, 0, Tally(0, requested, 0, false));
    SettledPasses(start, answer);
    CallsFollowLoops(Begin(requested, ads), answer);
  }
}
