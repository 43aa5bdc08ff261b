/** Bounded fan-out: a loop starts one goroutine per index, never more than `limit`
    at a time, and waits for all of them; they finish in any order. */
module TaskPool {
  import opened Sequences

  datatype Pool = Pool(started: nat, flight: set<nat>, done: seq<nat>)

  datatype Event = Spawn | Complete(i: nat)

  predicate Enabled(p: Pool, e: Event, total: nat, limit: nat) {
    match e
    case Spawn => p.started < total && |p.flight| < limit
    case Complete(i) => i in p.flight
  }

  function Step(p: Pool, e: Event, total: nat, limit: nat): Pool {
    if !Enabled(p, e, total, limit) then p
    else
      match e
      case Spawn => Pool(p.started + 1, p.flight + {p.started}, p.done)
      case Complete(i) => Pool(p.started, p.flight - {i}, p.done + [i])
  }

  function Run(events: seq<Event>, total: nat, limit: nat): Pool {
    if events == [] then Pool(0, {}, [])
    else Step(Run(events[..|events| - 1], total, limit), events[|events| - 1], total, limit)
  }

  /** All goroutines were started and have finished. */
  predicate Over(p: Pool, total: nat) {
    p.started == total && p.flight == {}
  }

  ghost predicate Permutation(order: seq<nat>, n: nat) {
    && |order| == n && Distinct(order)
    && (forall k :: 0 <= k < |order| ==> order[k] < n) && (forall i: nat :: i < n ==> i in order)
  }

  ghost predicate Valid(p: Pool, total: nat, limit: nat) {
    && p.started <= total && |p.flight| <= limit && Distinct(p.done) && |p.flight| + |p.done| == p.started
    && (forall i: nat :: i < p.started <==> i in p.flight || i in p.done)
    && (forall i: nat :: !(i in p.flight && i in p.done))
  }

  lemma StepKeepsValid(p: Pool, e: Event, total: nat, limit: nat)
    requires Valid(p, total, limit)
    ensures Valid(Step(p, e, total, limit), total, limit)
  {
    if e.Complete? && e.i in p.flight {
      var q := Step(p, e, total, limit);
      assert e.i !in p.done;
      assert forall i: nat :: i in q.done <==> i in p.done || i == e.i;
    }
  }

  lemma {:induction false} AlwaysValid(events: seq<Event>, total: nat, limit: nat)
    ensures Valid(Run(events, total, limit), total, limit)
  {
    if events != [] {
      AlwaysValid(events[..|events| - 1], total, limit);
      StepKeepsValid(Run(events[..|events| - 1], total, limit), events[|events| - 1], total, limit);
    }
  }

  /** At most `limit` run at a time; when the wait is over each index has completed
      exactly once; and until then something can always go on. */
  lemma PoolCompletesAll(events: seq<Event>, total: nat, limit: nat)
    requires limit > 0
    ensures var p := Run(events, total, limit);
            && |p.flight| <= limit
            && (Over(p, total) ==> Permutation(p.done, total))
            && (!Over(p, total) ==> exists e :: Enabled(p, e, total, limit))
  {
    AlwaysValid(events, total, limit);
    var p := Run(events, total, limit);
    assert forall k :: 0 <= k < |p.done| ==> p.done[k] in p.done;
    if !Over(p, total) {
      if p.flight == {} {
        assert Enabled(p, Spawn, total, limit);
      } else {
        var i :| i in p.flight;
        assert Enabled(p, Complete(i), total, limit);
      }
    }
  }
}
