/** Bounded re-execution of the batch worker: one live runner per task, whose row
    counts its launches; kept by every step except a claim that is no longer fresh. */
module WorkerSteady {
  import opened BatchWorker
  import opened WorkerSafety

  predicate OneRunnerPerTask(s: State) {
    forall r, q :: 0 <= r < q < |s.runners| && s.runners[r].phase.Active() && s.runners[q].phase.Active() ==>
      s.runners[r].task != s.runners[q].task
  }

  /** What a listed task should still be when its turn to be claimed comes. */
  predicate Fresh(s: State, snap: Snapshot) requires Wf(s) && snap.task < |s.rows| {
    !ActiveOn(s, snap.task) && s.rows[snap.task].checkpoint == snap.checkpoint
  }

  predicate Claims(s: State, e: Event) requires Wf(s) {
    && e.Claim? && s.poller.Claiming? && s.batch != []
    && s.rows[s.batch[0].task].status == Pending && s.rows[s.batch[0].task].kind.HasRunner()
  }

  /** The guard: a claim that starts a runner finds no live one, and the checkpoint
      it was listed with. Nothing is asked of operators, resets, panics or crashes. */
  predicate FreshClaim(s: State, e: Event) requires Wf(s) {
    Claims(s, e) ==> Fresh(s, s.batch[0])
  }

  predicate RunnerSynced(me: Runner, row: Row) {
    me.phase.Synced() ==> row.checkpoint == me.index
  }

  predicate RunnersSynced(s: State) requires Wf(s) {
    forall r :: 0 <= r < |s.runners| ==> RunnerSynced(s.runners[r], s.rows[s.runners[r].task])
  }

  /** Conservation: every launch is either behind the checkpoint, or was lost to
      a hit before its checkpoint, or is the one under way. */
  predicate RowBalanced(row: Row, h: History, underWay: bool) {
    && |h.launches| == row.checkpoint + h.lost + (if underWay then 1 else 0)
    && h.lost <= h.hits
    && row.checkpoint <= row.total
    && (row.kind.HasRunner() && row.status == Completed ==> row.checkpoint == row.total)
  }

  predicate Balanced(s: State) requires Wf(s) {
    forall t :: 0 <= t < |s.rows| ==> RowBalanced(s.rows[t], s.history[t], InWindowOn(s, t))
  }

  predicate Steady(s: State) {
    Safe(s) && OneRunnerPerTask(s) && RunnersSynced(s) && Balanced(s)
  }

  lemma AdvanceLocalKeepsBalance(l: Local, free: bool, stopping: bool, ok: bool)
    requires RunnerSafe(l.me, l.row, l.h) && RunnerSynced(l.me, l.row) && l.me.phase.Active()
    requires RowBalanced(l.row, l.h, l.me.phase.InWindow())
    ensures var l' := AdvanceLocal(l, free, stopping, ok);
            RunnerSynced(l'.me, l'.row) && RowBalanced(l'.row, l'.h, l'.me.phase.InWindow())
  {}

  /** Moving a live runner: the other tasks do not notice. */
  lemma PutKeepsSteady(s: State, r: nat, l: Local)
    requires Steady(s) && r < |s.runners| && l.me.task == s.runners[r].task && s.runners[r].phase.Active()
    requires Safe(Put(s, r, l))
    requires RunnerSynced(l.me, l.row) && RowBalanced(l.row, l.h, l.me.phase.InWindow())
    ensures Steady(Put(s, r, l))
  {
    var s' := Put(s, r, l);
    forall t | 0 <= t < |s'.rows| ensures RowBalanced(s'.rows[t], s'.history[t], InWindowOn(s', t)) {
      if t == l.me.task {
        assert s'.runners[r] == l.me;
        assert InWindowOn(s', t) == l.me.phase.InWindow();
      } else {
        OtherTaskUnmoved(s, r, l, t);
      }
    }
  }

  lemma OtherTaskUnmoved(s: State, r: nat, l: Local, t: nat)
    requires Wf(s) && r < |s.runners| && l.me.task == s.runners[r].task && t != l.me.task
    ensures ActiveOn(Put(s, r, l), t) == ActiveOn(s, t) && InWindowOn(Put(s, r, l), t) == InWindowOn(s, t)
  {
    var s' := Put(s, r, l);
    if ActiveOn(s, t) {
      var q :| 0 <= q < |s.runners| && s.runners[q].task == t && s.runners[q].phase.Active();
      assert s'.runners[q] == s.runners[q];
    }
    if InWindowOn(s, t) {
      var q :| 0 <= q < |s.runners| && s.runners[q].task == t && s.runners[q].phase.InWindow();
      assert s'.runners[q] == s.runners[q];
    }
  }

  predicate IsNew(row: Row, h: History) {
    row.checkpoint == 0 && row.status != Completed && h == History([], 0, 0)
  }

  /** Statuses written from outside the runners, new rows, and moves of the poll loop. */
  predicate Outside(s: State, s': State)
    requires Wf(s) && Wf(s')
  {
    && s'.runners == s.runners && |s.rows| <= |s'.rows|
    && (forall t :: 0 <= t < |s.rows| ==> StatusOnly(s.rows[t], s'.rows[t]) && s'.history[t] == s.history[t])
    && (forall t :: |s.rows| <= t < |s'.rows| ==> IsNew(s'.rows[t], s'.history[t]))
  }

  lemma StatusWriteKeepsSteady(s: State, s': State)
    requires Steady(s) && Safe(s') && Outside(s, s')
    ensures Steady(s')
  {
    forall t | 0 <= t < |s'.rows| ensures RowBalanced(s'.rows[t], s'.history[t], InWindowOn(s', t)) {
      if t < |s.rows| {
        assert RowBalanced(s.rows[t], s.history[t], InWindowOn(s, t));
        assert InWindowOn(s', t) == InWindowOn(s, t);
      }
    }
    forall r | 0 <= r < |s'.runners| ensures RunnerSynced(s'.runners[r], s'.rows[s'.runners[r].task]) {
      assert RunnerSynced(s.runners[r], s.rows[s.runners[r].task]);
    }
  }

  lemma ClaimKeepsSteady(s: State)
    requires Steady(s) && s.poller.Claiming? && FreshClaim(s, Claim) && Safe(ClaimNext(s))
    ensures Steady(ClaimNext(s))
  {
    if Claims(s, Claim) {
      var head := s.batch[0];
      var claimed := s.(rows := SetStatus(s.rows, head.task, Running), batch := s.batch[1..]);
      ClaimWriteKeepsSafe(s);
      StatusWriteKeepsSteady(s, claimed);
      assert ClaimNext(s) == claimed.(runners := claimed.runners + [Runner(head.task, head.checkpoint, AwaitSlot)]);
      SpawnKeepsSteady(claimed, Runner(head.task, head.checkpoint, AwaitSlot));
    } else {
      RunnerlessClaim(s);
      StatusWriteKeepsSteady(s, ClaimNext(s));
    }
  }

  lemma RunnerlessClaim(s: State)
    requires Safe(s) && s.poller.Claiming? && !Claims(s, Claim)
    ensures Outside(s, ClaimNext(s))
  {
    var s' := ClaimNext(s);
    assert forall t :: 0 <= t < |s.rows| ==> s'.rows[t] == s.rows[t] || s'.rows[t] == s.rows[t].(status := Running);
  }

  lemma SpawnKeepsSteady(s: State, me: Runner)
    requires Steady(s) && me.task < |s.rows| && me.phase.AwaitSlot?
    requires !ActiveOn(s, me.task) && s.rows[me.task].checkpoint == me.index
    requires Safe(s.(runners := s.runners + [me]))
    ensures Steady(s.(runners := s.runners + [me]))
  {
    var s' := s.(runners := s.runners + [me]);
    SpawnedIsSynced(s, me);
    forall t | 0 <= t < |s'.rows| ensures RowBalanced(s'.rows[t], s'.history[t], InWindowOn(s', t)) {
      SpawnUnnoticed(s, me, t);
      assert RowBalanced(s.rows[t], s.history[t], InWindowOn(s, t));
    }
  }

  lemma SpawnedIsSynced(s: State, me: Runner)
    requires Wf(s) && OneRunnerPerTask(s) && RunnersSynced(s)
    requires me.task < |s.rows| && !ActiveOn(s, me.task) && s.rows[me.task].checkpoint == me.index
    ensures var s' := s.(runners := s.runners + [me]); Wf(s') && OneRunnerPerTask(s') && RunnersSynced(s')
  {
    var s' := s.(runners := s.runners + [me]);
    forall r | 0 <= r < |s'.runners| ensures RunnerSynced(s'.runners[r], s'.rows[s'.runners[r].task]) {
      if r < |s.runners| { assert RunnerSynced(s.runners[r], s.rows[s.runners[r].task]); }
    }
  }

  lemma SpawnUnnoticed(s: State, me: Runner, t: nat)
    requires Wf(s) && me.task < |s.rows| && me.phase.AwaitSlot?
    ensures var s' := s.(runners := s.runners + [me]);
            InWindowOn(s', t) == InWindowOn(s, t) && (t != me.task ==> ActiveOn(s', t) == ActiveOn(s, t))
  {
    var s' := s.(runners := s.runners + [me]);
    if InWindowOn(s, t) {
      var q :| 0 <= q < |s.runners| && s.runners[q].task == t && s.runners[q].phase.InWindow();
      assert s'.runners[q] == s.runners[q];
    }
    if ActiveOn(s, t) {
      var q :| 0 <= q < |s.runners| && s.runners[q].task == t && s.runners[q].phase.Active();
      assert s'.runners[q] == s.runners[q];
    }
  }

  lemma CrashKeepsSteady(s: State)
    requires Steady(s)
    ensures Steady(CrashAll(s))
  {
    CrashKeepsSafe(s);
    var s' := CrashAll(s);
    forall t | 0 <= t < |s'.rows| ensures RowBalanced(s'.rows[t], s'.history[t], InWindowOn(s', t)) {
      assert RowBalanced(s.rows[t], s.history[t], InWindowOn(s, t));
      assert InWindowOn(s, t) ==> ActiveOn(s, t);
    }
  }

  lemma LiveRunnerBalanced(s: State, r: nat)
    requires Steady(s) && r < |s.runners| && s.runners[r].phase.Active()
    ensures var l := LocalOf(s, r);
            && RowBalanced(l.row, l.h, l.me.phase.InWindow()) && RunnerSynced(l.me, l.row)
            && RunnerSafe(l.me, l.row, l.h)
  {
    var l := LocalOf(s, r);
    assert RowBalanced(l.row, l.h, InWindowOn(s, l.me.task));
    assert InWindowOn(s, l.me.task) == l.me.phase.InWindow();
  }

  lemma RunnerMoveKeepsSteady(s: State, r: nat, ok: bool)
    requires Steady(s) && r < |s.runners| && Safe(AdvanceRunner(s, r, ok))
    ensures Steady(AdvanceRunner(s, r, ok))
  {
    if s.runners[r].phase.Active() {
      LiveMoveKeepsSteady(s, r, AdvanceLocal(LocalOf(s, r), s.slots < MAX_SLOTS, s.stopping, ok), ok);
    } else {
      IdleMoveKeepsSteady(s, r, ok);
    }
  }

  lemma IdleMoveKeepsSteady(s: State, r: nat, ok: bool)
    requires Steady(s) && r < |s.runners| && !s.runners[r].phase.Active() && Safe(AdvanceRunner(s, r, ok))
    ensures Steady(AdvanceRunner(s, r, ok))
  {
    var l := LocalOf(s, r);
    assert AdvanceLocal(l, s.slots < MAX_SLOTS, s.stopping, ok) == Goto(l, Gone);
    IdlePutKeepsSteady(s, r, Goto(l, Gone));
  }

  lemma LiveMoveKeepsSteady(s: State, r: nat, l: Local, ok: bool)
    requires Steady(s) && r < |s.runners| && s.runners[r].phase.Active()
    requires l == AdvanceLocal(LocalOf(s, r), s.slots < MAX_SLOTS, s.stopping, ok) && Safe(Put(s, r, l))
    ensures Steady(Put(s, r, l))
  {
    LiveRunnerBalanced(s, r);
    AdvanceLocalKeepsBalance(LocalOf(s, r), s.slots < MAX_SLOTS, s.stopping, ok);
    PutKeepsSteady(s, r, l);
  }

  lemma RunnerPanicKeepsSteady(s: State, r: nat)
    requires Steady(s) && r < |s.runners| && Safe(PanicRunner(s, r))
    ensures Steady(PanicRunner(s, r))
  {
    if s.runners[r].phase.Active() {
      LiveRunnerBalanced(s, r);
      PutKeepsSteady(s, r, PanicLocal(LocalOf(s, r)));
    } else {
      IdlePutKeepsSteady(s, r, LocalOf(s, r));
    }
  }

  /** A runner that is done with its row only gives its slot back. */
  lemma IdlePutKeepsSteady(s: State, r: nat, l: Local)
    requires Steady(s) && r < |s.runners| && l.me.task == s.runners[r].task
    requires !s.runners[r].phase.Active() && !l.me.phase.Active()
    requires l.row == s.rows[l.me.task] && l.h == s.history[l.me.task] && Safe(Put(s, r, l))
    ensures Steady(Put(s, r, l))
  {
    var s' := Put(s, r, l);
    assert s'.rows == s.rows && s'.history == s.history;
    assert forall q :: 0 <= q < |s.runners| && q != r ==> s'.runners[q] == s.runners[q];
    forall t | 0 <= t < |s'.rows| ensures RowBalanced(s'.rows[t], s'.history[t], InWindowOn(s', t)) {
      IdlePutUnnoticed(s, r, l, t);
      assert RowBalanced(s.rows[t], s.history[t], InWindowOn(s, t));
    }
  }

  lemma IdlePutUnnoticed(s: State, r: nat, l: Local, t: nat)
    requires Wf(s) && r < |s.runners| && l.me.task == s.runners[r].task
    requires !s.runners[r].phase.Active() && !l.me.phase.Active()
    ensures ActiveOn(Put(s, r, l), t) == ActiveOn(s, t) && InWindowOn(Put(s, r, l), t) == InWindowOn(s, t)
  {
    var s' := Put(s, r, l);
    if ActiveOn(s, t) {
      var q :| 0 <= q < |s.runners| && s.runners[q].task == t && s.runners[q].phase.Active();
      assert s'.runners[q] == s.runners[q];
    }
    if InWindowOn(s, t) {
      var q :| 0 <= q < |s.runners| && s.runners[q].task == t && s.runners[q].phase.InWindow();
      assert s'.runners[q] == s.runners[q];
    }
  }

  lemma SetTaskIsOutside(s: State, t: nat, status: Status)
    requires Safe(s) && status != Completed
    ensures Outside(s, SetTask(s, t, status))
  {
  }

  lemma SubmitIsOutside(s: State, kind: Kind, total: nat)
    requires Safe(s)
    ensures Outside(s, Step(s, SubmitTask(kind, total)))
  {
  }

  lemma OthersWriteStatuses(s: State, e: Event)
    requires Safe(s) && !e.Advance? && !e.RunnerPanic? && !e.Claim? && !e.Crash?
    ensures Outside(s, Step(s, e))
  {
    match e
    case SubmitTask(kind, total) => SubmitIsOutside(s, kind, total);
    case StopTask(t) => SetTaskIsOutside(s, t, Cancelled);
    case PauseTask(t) => SetTaskIsOutside(s, t, Paused);
    case ResumeTask(t) => SetTaskIsOutside(s, t, Pending);
    case _ =>
  }

  lemma StepKeepsSteady(s: State, e: Event)
    requires Steady(s) && FreshClaim(s, e)
    ensures Steady(Step(s, e))
  {
    StepKeepsSafe(s, e);
    match e
    case Advance(r, ok) => if r < |s.runners| { RunnerMoveKeepsSteady(s, r, ok); }
    case RunnerPanic(r) => if r < |s.runners| { RunnerPanicKeepsSteady(s, r); }
    case Claim => if s.poller.Claiming? { ClaimKeepsSteady(s); }
    case Crash => CrashKeepsSteady(s);
    case _ =>
      OthersWriteStatuses(s, e);
      StatusWriteKeepsSteady(s, Step(s, e));
  }

  /** A claim that is not fresh starts a second live runner, or one from an outdated
      checkpoint. */
  lemma StaleClaimIsUnsteady(s: State)
    requires Steady(s) && Claims(s, Claim) && !Fresh(s, s.batch[0])
    ensures !OneRunnerPerTask(ClaimNext(s)) || !RunnersSynced(ClaimNext(s))
  {
    var s', n, head := ClaimNext(s), |s.runners|, s.batch[0];
    assert s'.runners[n] == Runner(head.task, head.checkpoint, AwaitSlot);
    if ActiveOn(s, head.task) {
      var r :| 0 <= r < n && s.runners[r].task == head.task && s.runners[r].phase.Active();
      assert s'.runners[r] == s.runners[r];
    } else {
      assert !RunnerSynced(s'.runners[n], s'.rows[head.task]);
    }
  }

  /** A run in which every claim is fresh. */
  predicate FreshRun(s: State, events: seq<Event>)
    requires Wf(s)
    decreases |events|
  {
    events == [] || (FreshClaim(s, events[0]) && FreshRun(Step(s, events[0]), events[1..]))
  }

  lemma {:induction false} FreshRunKeepsSteady(s: State, events: seq<Event>)
    requires Steady(s) && FreshRun(s, events)
    ensures Steady(Run(s, events))
    decreases |events|
  {
    if events != [] {
      StepKeepsSteady(s, events[0]);
      FreshRunKeepsSteady(Step(s, events[0]), events[1..]);
    }
  }

  predicate Progress(s: State, s': State, t: nat)
    requires Wf(s) && Wf(s') && t < |s.rows|
  {
    && |s.rows| <= |s'.rows|
    && s'.rows[t].total == s.rows[t].total && s'.rows[t].kind == s.rows[t].kind
    && s.rows[t].checkpoint <= s'.rows[t].checkpoint
    && s.history[t].launches <= s'.history[t].launches
    && (s.rows[t].checkpoint == s.rows[t].total ==> s'.history[t].launches == s.history[t].launches)
  }

  predicate LocalProgress(l: Local, l': Local) {
    && l'.me.task == l.me.task
    && l'.row.total == l.row.total && l'.row.kind == l.row.kind
    && l.row.checkpoint <= l'.row.checkpoint
    && l.h.launches <= l'.h.launches
    && (l.row.checkpoint == l.row.total ==> l'.h.launches == l.h.launches)
  }

  lemma AdvanceMakesLocalProgress(l: Local, free: bool, stopping: bool, ok: bool)
    requires l.me.phase.Active() ==> RunnerSafe(l.me, l.row, l.h) && RunnerSynced(l.me, l.row)
    ensures LocalProgress(l, AdvanceLocal(l, free, stopping, ok))
  {}

  lemma RunnerMoveMakesProgress(s: State, r: nat, l: Local, t: nat)
    requires Wf(s) && r < |s.runners| && t < |s.rows|
    requires LocalProgress(LocalOf(s, r), l)
    ensures Progress(s, Put(s, r, l), t)
  {}

  lemma StepMakesProgress(s: State, e: Event, t: nat)
    requires Steady(s) && t < |s.rows|
    ensures Progress(s, Step(s, e), t)
  {
    match e
    case Advance(r, ok) =>
      if r < |s.runners| {
        var l := LocalOf(s, r);
        if l.me.phase.Active() { LiveRunnerBalanced(s, r); }
        AdvanceMakesLocalProgress(l, s.slots < MAX_SLOTS, s.stopping, ok);
        RunnerMoveMakesProgress(s, r, AdvanceLocal(l, s.slots < MAX_SLOTS, s.stopping, ok), t);
      }
    case Claim => if s.poller.Claiming? { ClaimMakesProgress(s, t); }
    case RunnerPanic(r) => if r < |s.runners| { RunnerMoveMakesProgress(s, r, PanicLocal(LocalOf(s, r)), t); }
    case _ => OtherStepMakesProgress(s, e, t);
  }

  lemma OtherStepMakesProgress(s: State, e: Event, t: nat)
    requires Wf(s) && t < |s.rows| && !e.Advance? && !e.Claim? && !e.RunnerPanic?
    ensures Progress(s, Step(s, e), t)
  {}

  lemma ClaimMakesProgress(s: State, t: nat)
    requires Wf(s) && s.poller.Claiming? && t < |s.rows|
    ensures Progress(s, ClaimNext(s), t)
  {}
}
