/** What holds in every reachable state of the batch worker, under any interleaving
    of runners, operators, resets, panics and crashes. */
module WorkerSafety {
  import opened BatchWorker

  /** Every index below `n` was launched. */
  predicate Covered(launches: seq<nat>, n: nat) {
    forall k :: 0 <= k < n ==> k in launches
  }

  function InsideCount(runners: seq<Runner>): nat {
    if runners == [] then 0
    else InsideCount(runners[..|runners| - 1]) + if runners[|runners| - 1].phase.Inside() then 1 else 0
  }

  predicate RowSafe(row: Row, h: History) {
    && Covered(h.launches, row.checkpoint)
    && (row.status == Completed && row.kind.HasRunner() ==> Covered(h.launches, row.total))
    && (forall k :: k in h.launches ==> k < row.total)
  }

  predicate RunnerSafe(me: Runner, row: Row, h: History) {
    && row.kind.HasRunner()
    && Covered(h.launches, me.index)
    && (me.phase.InBody() ==> me.index < row.total)
    && (me.phase.InWindow() ==> me.index in h.launches)
    && (me.phase.WritingCompleted? ==> me.index >= row.total)
  }

  predicate RowsSafe(s: State) requires Wf(s) {
    forall t :: 0 <= t < |s.rows| ==> RowSafe(s.rows[t], s.history[t])
  }

  predicate RunnersSafe(s: State) requires Wf(s) {
    forall r :: 0 <= r < |s.runners| ==>
      RunnerSafe(s.runners[r], s.rows[s.runners[r].task], s.history[s.runners[r].task])
  }

  predicate PollerSafe(s: State) requires Wf(s) {
    && (forall i :: 0 <= i < |s.batch| ==>
          Covered(s.history[s.batch[i].task].launches, s.batch[i].checkpoint))
    && (s.poller.Marking? ==> !s.rows[s.poller.task].kind.HasRunner())
  }

  /** What holds in every reachable state, whatever the interleaving. */
  predicate Safe(s: State) {
    && Wf(s)
    && RowsSafe(s)
    && RunnersSafe(s)
    && PollerSafe(s)
    && s.slots == InsideCount(s.runners) <= MAX_SLOTS
  }

  /** The rows keep their payload's kind and total, the histories only grow. */
  predicate Extends(s: State, s': State)
    requires Wf(s) && Wf(s')
  {
    && |s.rows| <= |s'.rows|
    && (forall t :: 0 <= t < |s.rows| ==> RowExtends(s.rows[t], s.history[t], s'.rows[t], s'.history[t]))
  }

  predicate RowExtends(row: Row, h: History, row': Row, h': History) {
    row'.kind == row.kind && row'.total == row.total && h.launches <= h'.launches
  }

  lemma RunnerSafeExtends(me: Runner, row: Row, h: History, row': Row, h': History)
    requires RunnerSafe(me, row, h) && RowExtends(row, h, row', h')
    ensures RunnerSafe(me, row', h')
  {
    forall k | k in h.launches ensures k in h'.launches {}
  }

  lemma CoveredExtends(a: seq<nat>, b: seq<nat>, n: nat)
    requires Covered(a, n) && a <= b
    ensures Covered(b, n)
  {
    forall k | k in a ensures k in b {}
  }

  lemma {:induction false} InsideCountUpdate(runners: seq<Runner>, r: nat, x: Runner)
    requires r < |runners|
    ensures InsideCount(runners[r := x]) + (if runners[r].phase.Inside() then 1 else 0)
         == InsideCount(runners) + (if x.phase.Inside() then 1 else 0)
    decreases |runners|
  {
    var n := |runners| - 1;
    if r == n {
      assert runners[r := x][..n] == runners[..n];
    } else {
      assert runners[r := x][..n] == runners[..n][r := x];
      InsideCountUpdate(runners[..n], r, x);
    }
  }

  lemma InsideCountAppend(runners: seq<Runner>, x: Runner)
    ensures InsideCount(runners + [x]) == InsideCount(runners) + (if x.phase.Inside() then 1 else 0)
  {
    assert (runners + [x])[..|runners|] == runners;
  }

  lemma {:induction false} InsideCountZero(runners: seq<Runner>)
    requires forall r :: 0 <= r < |runners| ==> !runners[r].phase.Inside()
    ensures InsideCount(runners) == 0
    decreases |runners|
  {
    if runners != [] { InsideCountZero(runners[..|runners| - 1]); }
  }

  lemma InsideCountPositive(runners: seq<Runner>, r: nat)
    requires r < |runners| && runners[r].phase.Inside()
    ensures InsideCount(runners) > 0
  {
    InsideCountUpdate(runners, r, runners[r].(phase := Gone));
  }

  lemma AdvanceLocalKeepsSafe(l: Local, free: bool, stopping: bool, ok: bool)
    requires RunnerSafe(l.me, l.row, l.h) && RowSafe(l.row, l.h)
    ensures var l' := AdvanceLocal(l, free, stopping, ok);
            && RunnerSafe(l'.me, l'.row, l'.h) && RowSafe(l'.row, l'.h) && RowExtends(l.row, l.h, l'.row, l'.h)
            && l'.me.task == l.me.task && (l'.me.phase.Inside() ==> l.me.phase.Inside() || free)
  {
    if l.me.phase.Launching? {
      LaunchKeepsSafe(l, ok);
    } else {
      assert AdvanceLocal(l, free, stopping, ok).h == l.h;
    }
  }

  lemma LaunchKeepsSafe(l: Local, ok: bool)
    requires RunnerSafe(l.me, l.row, l.h) && RowSafe(l.row, l.h) && l.me.phase.Launching?
    ensures var l' := AdvanceLocal(l, true, true, ok);
            RunnerSafe(l'.me, l'.row, l'.h) && RowSafe(l'.row, l'.h) && RowExtends(l.row, l.h, l'.row, l'.h)
  {
    var was, now := l.h.launches, l.h.launches + [l.me.index];
    CoveredExtends(was, now, l.me.index);
    CoveredExtends(was, now, l.row.checkpoint);
    if Covered(was, l.row.total) { CoveredExtends(was, now, l.row.total); }
    assert now[|was|] == l.me.index;
  }

  lemma PutKeepsSafe(s: State, r: nat, l: Local)
    requires Safe(s) && r < |s.runners| && l.me.task == s.runners[r].task
    requires RunnerSafe(l.me, l.row, l.h) && RowSafe(l.row, l.h)
    requires RowExtends(s.rows[l.me.task], s.history[l.me.task], l.row, l.h)
    requires s.runners[r].phase.Inside() || !l.me.phase.Inside() || s.slots < MAX_SLOTS
    ensures Safe(Put(s, r, l))
  {
    var s' := Put(s, r, l);
    InsideCountUpdate(s.runners, r, l.me);
    if s.runners[r].phase.Inside() { InsideCountPositive(s.runners, r); }
    forall q | 0 <= q < |s'.runners|
      ensures RunnerSafe(s'.runners[q], s'.rows[s'.runners[q].task], s'.history[s'.runners[q].task])
    {
      if q != r {
        var t := s.runners[q].task;
        RunnerSafeExtends(s.runners[q], s.rows[t], s.history[t], s'.rows[t], s'.history[t]);
      }
    }
    ListedExtends(s, s');
  }

  lemma ListedExtends(s: State, s': State)
    requires Wf(s) && Wf(s') && PollerSafe(s) && Extends(s, s') && s'.batch == s.batch && s'.poller == s.poller
    ensures PollerSafe(s')
  {
    forall i | 0 <= i < |s.batch|
      ensures Covered(s'.history[s.batch[i].task].launches, s.batch[i].checkpoint)
    {
      var snap := s.batch[i];
      CoveredExtends(s.history[snap.task].launches, s'.history[snap.task].launches, snap.checkpoint);
    }
  }

  predicate StatusOnly(row: Row, row': Row) {
    && row' == row.(status := row'.status)
    && (row'.status == Completed ==> row.status == Completed || !row.kind.HasRunner())
  }

  /** A step that writes statuses only, besides adding rows. */
  lemma StatusWriteKeepsSafe(s: State, s': State)
    requires Safe(s) && Wf(s') && PollerSafe(s')
    requires s'.runners == s.runners && s'.slots == s.slots && |s.rows| <= |s'.rows|
    requires forall t :: 0 <= t < |s.rows| ==> StatusOnly(s.rows[t], s'.rows[t]) && s'.history[t] == s.history[t]
    requires forall t :: |s.rows| <= t < |s'.rows| ==> RowSafe(s'.rows[t], s'.history[t])
    ensures Safe(s')
  {
    forall t | 0 <= t < |s'.rows| ensures RowSafe(s'.rows[t], s'.history[t]) {
      if t < |s.rows| { assert RowSafe(s.rows[t], s.history[t]); }
    }
    forall r | 0 <= r < |s'.runners|
      ensures RunnerSafe(s'.runners[r], s'.rows[s'.runners[r].task], s'.history[s'.runners[r].task])
    {
      var t := s.runners[r].task;
      RunnerSafeExtends(s.runners[r], s.rows[t], s.history[t], s'.rows[t], s'.history[t]);
    }
  }

  lemma DropKeepsSafe(s: State, s': State)
    requires Safe(s) && Wf(s')
    requires s'.rows == s.rows && s'.history == s.history && s'.runners == s.runners && s'.slots == s.slots
    requires s'.batch == s.batch || (s.batch != [] && s'.batch == s.batch[1..])
    requires s'.poller.Marking? ==> !s.rows[s'.poller.task].kind.HasRunner()
    ensures Safe(s')
  {
    assert RowsSafe(s');
    assert RunnersSafe(s');
  }

  lemma ClaimWriteKeepsSafe(s: State)
    requires Safe(s) && s.batch != []
    ensures var head := s.batch[0];
            && Safe(s.(rows := SetStatus(s.rows, head.task, Running), batch := s.batch[1..]))
            && Covered(s.history[head.task].launches, head.checkpoint)
  {
    StatusWriteKeepsSafe(s, s.(rows := SetStatus(s.rows, s.batch[0].task, Running), batch := s.batch[1..]));
  }

  lemma SpawnKeepsSafe(s: State, me: Runner)
    requires Safe(s) && me.task < |s.rows| && me.phase.AwaitSlot?
    requires RunnerSafe(me, s.rows[me.task], s.history[me.task])
    ensures Safe(s.(runners := s.runners + [me]))
  {
    InsideCountAppend(s.runners, me);
  }

  lemma CrashKeepsSafe(s: State)
    requires Safe(s)
    ensures Safe(CrashAll(s))
  {
    var s' := CrashAll(s);
    InsideCountZero(s'.runners);
    forall t | 0 <= t < |s.rows| ensures RowSafe(s'.rows[t], s'.history[t]) {
      assert RowSafe(s.rows[t], s.history[t]);
    }
    forall r | 0 <= r < |s.runners|
      ensures RunnerSafe(s'.runners[r], s'.rows[s'.runners[r].task], s'.history[s'.runners[r].task])
    {
      assert RunnerSafe(s.runners[r], s.rows[s.runners[r].task], s.history[s.runners[r].task]);
    }
  }

  lemma PanicKeepsSafe(s: State, r: nat)
    requires Safe(s) && r < |s.runners|
    ensures Safe(PanicRunner(s, r))
  {
    PutKeepsSafe(s, r, PanicLocal(LocalOf(s, r)));
  }

  lemma RunnerStepKeepsSafe(s: State, r: nat, ok: bool)
    requires Safe(s)
    ensures Safe(Step(s, Advance(r, ok)))
  {
    if r < |s.runners| {
      var l := LocalOf(s, r);
      AdvanceLocalKeepsSafe(l, s.slots < MAX_SLOTS, s.stopping, ok);
      PutKeepsSafe(s, r, AdvanceLocal(l, s.slots < MAX_SLOTS, s.stopping, ok));
    }
  }

  lemma MarkKeepsSafe(s: State)
    requires Safe(s)
    ensures Safe(Step(s, Mark))
  {
    if s.poller.Marking? {
      SetTaskKeepsSafe(s, s.poller.task, s.poller.mark);
      ControlKeepsSafe(SetTask(s, s.poller.task, s.poller.mark), Step(s, Mark));
    }
  }

  lemma ResetAndControlKeepSafe(s: State, e: Event)
    requires Safe(s) && (e.BootReset? || e.ShutdownReset? || e.SeeStop? || e.CloseStop? || e.PollerPanic?)
    ensures Safe(Step(s, e))
  {
    var s' := Step(s, e);
    if s'.rows != s.rows {
      ResetKeepsSafe(s);
      ControlKeepsSafe(s.(rows := ResetRunning(s.rows)), s');
    } else {
      ControlKeepsSafe(s, s');
    }
  }

  lemma ControlKeepsSafe(s: State, s': State)
    requires Safe(s)
    requires s'.rows == s.rows && s'.history == s.history && s'.runners == s.runners && s'.slots == s.slots
    requires (s'.batch == s.batch || s'.batch == []) && (s'.poller == s.poller || !s'.poller.Marking?)
    ensures Safe(s')
  {
    assert RowsSafe(s');
    assert RunnersSafe(s');
  }

  lemma PollKeepsSafe(s: State)
    requires Safe(s)
    ensures Safe(s.(poller := Claiming, batch := PendingFrom(s.rows, 0, POLL_LIMIT)))
  {
    var s' := s.(poller := Claiming, batch := PendingFrom(s.rows, 0, POLL_LIMIT));
    forall i | 0 <= i < |s'.batch| ensures Covered(s'.history[s'.batch[i].task].launches, s'.batch[i].checkpoint) {
      var snap := s'.batch[i];
      assert IsListed(s.rows, 0, snap);
      assert RowSafe(s.rows[snap.task], s.history[snap.task]);
    }
  }

  lemma SetTaskKeepsSafe(s: State, t: nat, status: Status)
    requires Safe(s) && (status == Completed ==> t < |s.rows| && !s.rows[t].kind.HasRunner())
    ensures Safe(SetTask(s, t, status))
  {
    StatusWriteKeepsSafe(s, SetTask(s, t, status));
  }

  lemma ResetKeepsSafe(s: State)
    requires Safe(s)
    ensures Safe(s.(rows := ResetRunning(s.rows)))
  {
    StatusWriteKeepsSafe(s, s.(rows := ResetRunning(s.rows)));
  }

  lemma SubmitKeepsSafe(s: State, kind: Kind, total: nat)
    requires Safe(s)
    ensures Safe(Step(s, SubmitTask(kind, total)))
  {
    StatusWriteKeepsSafe(s, Step(s, SubmitTask(kind, total)));
  }

  lemma ClaimKeepsSafe(s: State)
    requires Safe(s) && s.poller.Claiming?
    ensures Safe(ClaimNext(s))
  {
    if s.batch == [] || s.rows[s.batch[0].task].status != Pending {
      DropKeepsSafe(s, ClaimNext(s));
    } else {
      ClaimWriteKeepsSafe(s);
      var head := s.batch[0];
      var claimed := s.(rows := SetStatus(s.rows, head.task, Running), batch := s.batch[1..]);
      if s.rows[head.task].kind.HasRunner() {
        var me := Runner(head.task, head.checkpoint, AwaitSlot);
        SpawnKeepsSafe(claimed, me);
        assert ClaimNext(s) == claimed.(runners := claimed.runners + [me]);
      } else {
        DropKeepsSafe(claimed, ClaimNext(s));
      }
    }
  }

  lemma StepKeepsSafe(s: State, e: Event)
    requires Safe(s)
    ensures Safe(Step(s, e))
  {
    match e
    case Advance(r, ok) => RunnerStepKeepsSafe(s, r, ok);
    case RunnerPanic(r) => if r < |s.runners| { PanicKeepsSafe(s, r); }
    case Claim => if s.poller.Claiming? { ClaimKeepsSafe(s); }
    case Crash => CrashKeepsSafe(s);
    case Poll => PollKeepsSafe(s);
    case Mark => MarkKeepsSafe(s);
    case SubmitTask(kind, total) => SubmitKeepsSafe(s, kind, total);
    case StopTask(t) => SetTaskKeepsSafe(s, t, Cancelled);
    case PauseTask(t) => SetTaskKeepsSafe(s, t, Paused);
    case ResumeTask(t) => SetTaskKeepsSafe(s, t, Pending);
    case _ => ResetAndControlKeepSafe(s, e);
  }

  lemma {:induction false} RunKeepsSafe(s: State, events: seq<Event>)
    requires Safe(s)
    ensures Safe(Run(s, events))
    decreases |events|
  {
    if events != [] {
      StepKeepsSafe(s, events[0]);
      RunKeepsSafe(Step(s, events[0]), events[1..]);
    }
  }

  /** An event of the rest of the system that lets this runner live. */
  predicate Foreign(e: Event, r: nat) {
    !e.Crash? && !(e.Advance? && e.runner == r) && !(e.RunnerPanic? && e.runner == r)
  }

  predicate AllForeign(events: seq<Event>, r: nat) {
    forall k :: 0 <= k < |events| ==> Foreign(events[k], r)
  }

  /** What the runner relies on: itself and the fixed part of its row. */
  predicate SameRunner(s: State, s': State, r: nat)
    requires Wf(s) && Wf(s') && r < |s.runners|
  {
    var t := s.runners[r].task;
    && r < |s'.runners| && s'.runners[r] == s.runners[r]
    && s'.rows[t].kind == s.rows[t].kind && s'.rows[t].total == s.rows[t].total
  }

  lemma ForeignStepKeepsRunner(s: State, e: Event, r: nat)
    requires Wf(s) && r < |s.runners| && Foreign(e, r)
    ensures SameRunner(s, Step(s, e), r)
  {
  }

  lemma {:induction false} ForeignRunKeepsRunner(s: State, events: seq<Event>, r: nat)
    requires Wf(s) && r < |s.runners| && AllForeign(events, r)
    ensures SameRunner(s, Run(s, events), r)
    decreases |events|
  {
    if events != [] {
      ForeignStepKeepsRunner(s, events[0], r);
      ForeignRunKeepsRunner(Step(s, events[0]), events[1..], r);
    }
  }

  lemma {:induction false} RunAppend(s: State, a: seq<Event>, b: seq<Event>)
    requires Wf(s)
    ensures Run(s, a + b) == Run(Run(s, a), b)
    decreases |a|
  {
    if a == [] {
      assert a + b == b;
    } else {
      assert (a + b)[1..] == a[1..] + b;
      RunAppend(Step(s, a[0]), a[1..], b);
    }
  }
}
