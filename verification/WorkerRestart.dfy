/** What restarting and polling can bring back: an unfinished task that is pending or
    running goes on at its checkpoint, and hence a stop is final only if no live
    runner reopens the task. */
module WorkerRestart {
  import opened BatchWorker
  import opened WorkerSafety
  import opened WorkerSteady
  import opened WorkerStop

  // ------------------------------------------------------------------ continuations

  /** A run with fresh claims that nobody resumes the task in. */
  predicate Leads(s: State, events: seq<Event>, t: nat, s': State) {
    Wf(s) && FreshRun(s, events) && NoResume(events, t) && Run(s, events) == s'
  }

  lemma {:induction false} FreshRunAppend(s: State, a: seq<Event>, b: seq<Event>)
    requires Wf(s) && FreshRun(s, a) && FreshRun(Run(s, a), b)
    ensures FreshRun(s, a + b)
    decreases |a|
  {
    if a == [] {
      assert a + b == b;
    } else {
      assert (a + b)[0] == a[0] && (a + b)[1..] == a[1..] + b;
      FreshRunAppend(Step(s, a[0]), a[1..], b);
    }
  }

  lemma Then(s: State, a: seq<Event>, t: nat, mid: State, b: seq<Event>, s': State)
    requires Leads(s, a, t, mid) && Leads(mid, b, t, s')
    ensures Leads(s, a + b, t, s')
  {
    FreshRunAppend(s, a, b);
    RunAppend(s, a, b);
  }

  lemma OneStep(s: State, e: Event, t: nat)
    requires Wf(s) && FreshClaim(s, e) && e != ResumeTask(t)
    ensures Leads(s, [e], t, Step(s, e))
  {
    assert [e][1..] == [];
    assert Run(Step(s, e), []) == Step(s, e);
  }

  /** The run so far, and one step more. */
  lemma Add(s: State, a: seq<Event>, t: nat, mid: State, e: Event) returns (events: seq<Event>, s': State)
    requires Steady(s) && Leads(s, a, t, mid) && FreshClaim(mid, e) && e != ResumeTask(t)
    ensures events == a + [e] && s' == Step(mid, e) && Leads(s, events, t, s') && Steady(s')
  {
    events, s' := a + [e], Step(mid, e);
    OneStep(mid, e, t);
    Then(s, a, t, mid, [e], s');
    FreshRunKeepsSteady(s, events);
  }

  // ------------------------------------------------------------------ a fresh process

  /** Every task before `n`, except `t`, is stopped by an operator. */
  lemma {:induction false} StopOthers(s: State, a: seq<Event>, t: nat, mid: State, n: nat)
    returns (events: seq<Event>, s': State)
    requires Steady(s) && Leads(s, a, t, mid) && t < |mid.rows| && n <= |mid.rows|
    ensures Leads(s, events, t, s') && Steady(s') && |s'.rows| == |mid.rows|
    ensures s' == mid.(rows := s'.rows) && s'.rows[t] == mid.rows[t]
    ensures forall k :: 0 <= k < n && k != t ==> s'.rows[k].status == Cancelled
  {
    if n == 0 {
      events, s' := a, mid;
      FreshRunKeepsSteady(s, a);
    } else {
      var before, st := StopOthers(s, a, t, mid, n - 1);
      if n - 1 == t {
        events, s' := before, st;
      } else {
        events, s' := Add(s, before, t, st, StopTask(n - 1));
      }
    }
  }

  lemma OnlyListed(s: State, t: nat)
    requires t < |s.rows| && s.rows[t].status == Pending
    requires forall k :: 0 <= k < |s.rows| && k != t ==> s.rows[k].status == Cancelled
    ensures var list := PendingFrom(s.rows, 0, POLL_LIMIT); list != [] && list[0] == Snapshot(t, s.rows[t].checkpoint)
  {
    FirstPendingAreListed(s.rows, 0, POLL_LIMIT, t);
    NonePending(s.rows, 0, t);
    var list := PendingFrom(s.rows, 0, POLL_LIMIT);
    assert IsListed(s.rows, 0, list[0]);
  }

  lemma {:induction false} NonePending(rows: seq<Row>, t: nat, k: nat)
    requires k <= |rows| && forall x :: 0 <= x < k ==> rows[x].status != Pending
    ensures PendingBetween(rows, t, k) == 0
    decreases k - t
  {
    if t < k { NonePending(rows, t + 1, k); }
  }

  /** The process dies and comes up again with only this task pending. */
  lemma ComesUp(s: State, t: nat) returns (events: seq<Event>, s': State)
    requires Steady(s) && t < |s.rows| && (s.rows[t].status == Pending || s.rows[t].status == Running)
    ensures Leads(s, events, t, s') && Steady(s')
    ensures t < |s'.rows| && s'.rows[t] == s.rows[t].(status := Pending) && LaunchesOf(s', t) == LaunchesOf(s, t)
    ensures s'.poller.Idle? && s'.slots == 0 && !s'.stopping && !ActiveOn(s', t)
    ensures forall k :: 0 <= k < |s'.rows| && k != t ==> s'.rows[k].status == Cancelled
  {
    OneStep(s, Crash, t);
    CrashLeavesNobody(s, t);
    var boot, booted := Add(s, [Crash], t, CrashAll(s), BootReset);
    BootedUp(CrashAll(s), t);
    events, s' := StopOthers(s, boot, t, booted, |booted.rows|);
  }

  lemma BootedUp(s: State, t: nat)
    requires Wf(s) && s.poller.Booting? && t < |s.rows| && (s.rows[t].status == Pending || s.rows[t].status == Running)
    ensures var s' := Step(s, BootReset);
            && s' == s.(rows := s'.rows, poller := Idle) && |s'.rows| == |s.rows|
            && s'.rows[t] == s.rows[t].(status := Pending)
  {
  }

  lemma IsPolled(s: State, a: seq<Event>, t: nat, mid: State) returns (events: seq<Event>, s': State)
    requires Steady(s) && Leads(s, a, t, mid) && t < |mid.rows| && mid.rows[t].status == Pending && mid.poller.Idle?
    requires forall k :: 0 <= k < |mid.rows| && k != t ==> mid.rows[k].status == Cancelled
    ensures Leads(s, events, t, s') && Steady(s') && s' == mid.(poller := Claiming, batch := s'.batch)
    ensures s'.batch != [] && s'.batch[0] == Snapshot(t, mid.rows[t].checkpoint)
  {
    OnlyListed(mid, t);
    events, s' := Add(s, a, t, mid, Poll);
  }

  lemma ClaimStarts(s: State, t: nat)
    requires Wf(s) && s.poller.Claiming? && t < |s.rows| && s.rows[t].status == Pending && s.rows[t].kind.HasRunner()
    requires s.batch != [] && s.batch[0] == Snapshot(t, s.rows[t].checkpoint) && !ActiveOn(s, t)
    ensures FreshClaim(s, Claim)
    ensures Step(s, Claim) == s.(rows := SetStatus(s.rows, t, Running), batch := s.batch[1..],
                                 runners := s.runners + [Runner(t, s.rows[t].checkpoint, AwaitSlot)])
  {
  }

  /** The task is polled and claimed, and its runner about to launch. */
  lemma IsClaimed(s: State, a: seq<Event>, t: nat, mid: State) returns (events: seq<Event>, s': State)
    requires Steady(s) && Leads(s, a, t, mid) && t < |mid.rows|
    requires mid.rows[t].status == Pending && mid.rows[t].kind.HasRunner() && mid.rows[t].checkpoint < mid.rows[t].total
    requires mid.poller.Idle? && mid.slots == 0 && !mid.stopping && !ActiveOn(mid, t)
    requires forall k :: 0 <= k < |mid.rows| && k != t ==> mid.rows[k].status == Cancelled
    ensures Leads(s, events, t, s') && Wf(s') && LaunchesOf(s', t) == LaunchesOf(mid, t)
    ensures var r := |mid.runners|;
            && |s'.runners| == r + 1 && s'.runners[r] == Runner(t, mid.rows[t].checkpoint, AwaitSlot)
            && WouldLaunch(s', r)
  {
    var e1, polled := IsPolled(s, a, t, mid);
    ClaimStarts(polled, t);
    events, s' := Add(s, e1, t, polled, Claim);
  }

  /** An interrupted or resumed task goes on where its checkpoint says: there is a run
      in which the process dies, comes up again and launches exactly that index, with
      nobody resuming the task. */
  lemma InterruptedTaskGoesOn(s: State, t: nat) returns (events: seq<Event>)
    requires Steady(s) && t < |s.rows| && s.rows[t].kind.HasRunner() && s.rows[t].checkpoint < s.rows[t].total
    requires s.rows[t].status == Pending || s.rows[t].status == Running
    ensures FreshRun(s, events) && NoResume(events, t)
    ensures LaunchesOf(Run(s, events), t) == LaunchesOf(s, t) + [s.rows[t].checkpoint]
  {
    var e1, up := ComesUp(s, t);
    var e2, claimed := IsClaimed(s, e1, t, up);
    events := Driven(s, e2, t, claimed, |up.runners|);
  }

  lemma Driven(s: State, a: seq<Event>, t: nat, mid: State, r: nat) returns (events: seq<Event>)
    requires Leads(s, a, t, mid) && Wf(mid) && r < |mid.runners| && mid.runners[r].task == t && WouldLaunch(mid, r)
    ensures FreshRun(s, events) && NoResume(events, t)
    ensures LaunchesOf(Run(s, events), t) == LaunchesOf(mid, t) + [NextIndex(mid.runners[r])]
  {
    var more := Drive(mid, r);
    assert NoResume(more, t);
    events := a + more;
    Then(s, a, t, mid, more, Run(mid, more));
  }

  // -------------------------------------------------------- when a stop is not final

  /** Left alone, the runner sees the halted row and writes "pending" over it. */
  predicate WouldReopen(s: State, r: nat) requires Wf(s) && r < |s.runners| {
    var me := s.runners[r];
    var row := s.rows[me.task];
    match me.phase
    case WritingPending => row.checkpoint < row.total
    case SavingInterrupted => me.index < row.total
    case CheckingStatus => Halted(row) && me.index < row.total
    case LoopTop => Halted(row) && me.index < row.total
    case Sleeping => Halted(row) && me.index < row.total
    case Saving(_) => Halted(row) && me.index + 1 < row.total
    case Reporting(_) => Halted(row) && !Overwrites(me, row) && me.index + 1 < row.total
    case SettingUp => Halted(row) && me.index < row.total
    case AwaitSlot => Halted(row) && me.index < row.total && s.slots < MAX_SLOTS
    case _ => false
  }

  function StepsLeft(phase: Phase): nat {
    match phase
    case WritingPending => 0
    case SavingInterrupted => 1
    case CheckingStatus => 2
    case LoopTop => 3
    case Sleeping => 4
    case Saving(_) => 5
    case Reporting(_) => 6
    case SettingUp => 7
    case _ => 8
  }

  lemma ReopensOneStep(s: State, r: nat)
    requires Wf(s) && r < |s.runners| && WouldReopen(s, r)
    ensures var s', t := Step(s, Advance(r, true)), s.runners[r].task;
            && r < |s'.runners| && s'.runners[r].task == t && LaunchesOf(s', t) == LaunchesOf(s, t)
            && s'.rows[t].kind == s.rows[t].kind
            && (if s.runners[r].phase.WritingPending?
                then s'.rows[t].status == Pending && s'.rows[t].checkpoint < s'.rows[t].total
                else WouldReopen(s', r) && StepsLeft(s'.runners[r].phase) < StepsLeft(s.runners[r].phase))
  {
  }

  lemma {:induction false} Reopens(s: State, a: seq<Event>, t: nat, mid: State, r: nat)
    returns (events: seq<Event>, s': State)
    requires Steady(s) && Leads(s, a, t, mid) && Wf(mid) && r < |mid.runners| && mid.runners[r].task == t
    requires WouldReopen(mid, r)
    ensures Leads(s, events, t, s') && Steady(s') && t < |s'.rows| && LaunchesOf(s', t) == LaunchesOf(mid, t)
    ensures s'.rows[t].status == Pending && s'.rows[t].checkpoint < s'.rows[t].total
    ensures s'.rows[t].kind == mid.rows[t].kind
    decreases StepsLeft(mid.runners[r].phase)
  {
    ReopensOneStep(mid, r);
    events, s' := Add(s, a, t, mid, Advance(r, true));
    if !mid.runners[r].phase.WritingPending? { events, s' := Reopens(s, events, t, s', r); }
  }

  lemma {:induction false} SomeoneIsInside(runners: seq<Runner>) returns (q: nat)
    requires InsideCount(runners) > 0
    ensures q < |runners| && runners[q].phase.Inside()
  {
    var n := |runners| - 1;
    if runners[n].phase.Inside() { q := n; } else { q := SomeoneIsInside(runners[..n]); }
  }

  function ExitSteps(phase: Phase): nat {
    if phase.Gone? then 0 else if phase.Releasing? then 1 else if phase.WritingFailed? then 2 else 3
  }

  /** A step towards leaving the semaphore, unnoticed by a waiting runner. */
  predicate Exits(s: State, s': State, q: nat, r: nat)
    requires Wf(s) && Wf(s') && q < |s.runners| == |s'.runners| && r < |s.runners|
  {
    var t := s.runners[r].task;
    && s'.runners[r] == s.runners[r]
    && t < |s'.rows| && s'.rows[t] == s.rows[t] && LaunchesOf(s', t) == LaunchesOf(s, t)
    && ExitSteps(s'.runners[q].phase) < ExitSteps(s.runners[q].phase)
    && (s'.runners[q].phase.Inside() || s'.slots < MAX_SLOTS)
  }

  lemma PanicExits(s: State, q: nat, r: nat)
    requires Steady(s) && Live(s, r) && q < |s.runners| && q != r && s.runners[q].phase.Inside()
    requires s.runners[q].phase.Active() && !s.runners[q].phase.WritingFailed?
    ensures Exits(s, PanicRunner(s, q), q, r)
  {
    OtherRunnerMoves(s, q, PanicLocal(LocalOf(s, q)), r);
  }

  lemma EndExits(s: State, q: nat, r: nat)
    requires Steady(s) && Live(s, r) && q < |s.runners| && q != r
    requires s.runners[q].phase.WritingFailed? || s.runners[q].phase.Releasing?
    ensures Exits(s, AdvanceRunner(s, q, true), q, r)
  {
    InsideCountPositive(s.runners, q);
    OtherRunnerMoves(s, q, AdvanceLocal(LocalOf(s, q), s.slots < MAX_SLOTS, s.stopping, true), r);
  }

  /** Another runner leaves the semaphore, by a panic if it must. */
  lemma ExitOneStep(s: State, q: nat, r: nat) returns (e: Event)
    requires Steady(s) && Live(s, r) && s.runners[r].phase.AwaitSlot? && q < |s.runners| && s.runners[q].phase.Inside()
    ensures FreshClaim(s, e) && !e.ResumeTask? && |Step(s, e).runners| == |s.runners| && Exits(s, Step(s, e), q, r)
  {
    if s.runners[q].phase.Active() && !s.runners[q].phase.WritingFailed? {
      e := RunnerPanic(q);
      PanicExits(s, q, r);
    } else {
      e := Advance(q, true);
      EndExits(s, q, r);
    }
  }

  lemma {:induction false} FreeASlot(s: State, a: seq<Event>, t: nat, mid: State, r: nat, q: nat)
    returns (events: seq<Event>, s': State)
    requires Steady(s) && Leads(s, a, t, mid) && Steady(mid) && Live(mid, r) && mid.runners[r].task == t
    requires mid.runners[r].phase.AwaitSlot? && q < |mid.runners| && mid.runners[q].phase.Inside()
    ensures Leads(s, events, t, s') && Steady(s') && r < |s'.runners| && s'.runners[r] == mid.runners[r]
    ensures s'.rows[t] == mid.rows[t] && LaunchesOf(s', t) == LaunchesOf(mid, t) && s'.slots < MAX_SLOTS
    decreases ExitSteps(mid.runners[q].phase)
  {
    var e := ExitOneStep(mid, q, r);
    events, s' := Add(s, a, t, mid, e);
    if s'.runners[q].phase.Inside() { events, s' := FreeASlot(s, events, t, s', r, q); }
  }

  // ------------------------------------------------------------ when a stop is final

  /** A runner that changes nothing any more: it is about to mark the task failed, or
      to record the last launch. */
  predicate Harmless(me: Runner, row: Row) {
    me.phase.WritingFailed? || (me.phase.InWindow() && me.index + 1 >= row.total && !Overwrites(me, row))
  }

  predicate Sealed(s: State, t: nat) requires Wf(s) && t < |s.rows| {
    || s.rows[t].checkpoint >= s.rows[t].total
    || (&& Halted(s.rows[t])
        && forall r :: 0 <= r < |s.runners| && s.runners[r].task == t && s.runners[r].phase.Active() ==>
             Harmless(s.runners[r], s.rows[t]))
  }

  lemma HarmlessMove(l: Local, l': Local)
    requires RunnerSafe(l.me, l.row, l.h) && RunnerSynced(l.me, l.row) && Halted(l.row) && Harmless(l.me, l.row)
    requires (exists free, stopping, ok :: l' == AdvanceLocal(l, free, stopping, ok)) || l' == PanicLocal(l)
    ensures l'.h.launches == l.h.launches && l'.row.total == l.row.total
    ensures || l'.row.checkpoint >= l'.row.total
            || (Halted(l'.row) && (l'.me.phase.Active() ==> Harmless(l'.me, l'.row)))
  {
  }

  lemma RunnerKeepsSealed(s: State, q: nat, l: Local, t: nat)
    requires Steady(s) && q < |s.runners| && t < |s.rows| && Sealed(s, t) && s.rows[t].checkpoint < s.rows[t].total
    requires l == PanicLocal(LocalOf(s, q)) ||
             exists free, stopping, ok :: l == AdvanceLocal(LocalOf(s, q), free, stopping, ok)
    ensures Sealed(Put(s, q, l), t) && LaunchesOf(Put(s, q, l), t) == LaunchesOf(s, t)
  {
    var s' := Put(s, q, l);
    if s.runners[q].task == t && s.runners[q].phase.Active() {
      LiveRunnerBalanced(s, q);
      HarmlessMove(LocalOf(s, q), l);
      assert forall r :: 0 <= r < |s.runners| && r != q ==> s'.runners[r] == s.runners[r];
    } else {
      assert s'.rows[t] == s.rows[t] && s'.history[t] == s.history[t];
      forall r | 0 <= r < |s'.runners| && s'.runners[r].task == t && s'.runners[r].phase.Active()
        ensures Harmless(s'.runners[r], s'.rows[t])
      {
        assert s'.runners[r] == s.runners[r];
      }
    }
  }

  lemma OutsideKeepsSealed(s: State, e: Event, t: nat)
    requires Steady(s) && FromOutside(e) && e != ResumeTask(t)
    requires t < |s.rows| && s.rows[t].kind.HasRunner() && Sealed(s, t) && s.rows[t].checkpoint < s.rows[t].total
    ensures t < |Step(s, e).rows| && Sealed(Step(s, e), t) && LaunchesOf(Step(s, e), t) == LaunchesOf(s, t)
  {
    OutsideEvent(s, e, t);
    HaltedRowStays(s, e, t);
    SameRunnersOf(s, e, t);
  }

  lemma StepKeepsSealed(s: State, e: Event, t: nat)
    requires Steady(s) && t < |s.rows| && s.rows[t].kind.HasRunner() && Sealed(s, t) && e != ResumeTask(t)
    ensures var s' := Step(s, e);
            && t < |s'.rows| && s'.rows[t].kind.HasRunner() && Sealed(s', t)
            && LaunchesOf(s', t) == LaunchesOf(s, t)
  {
    StepMakesProgress(s, e, t);
    if s.rows[t].checkpoint >= s.rows[t].total {
      assert RowBalanced(s.rows[t], s.history[t], InWindowOn(s, t));
    } else {
      match e
      case Advance(q, ok) =>
        if q < |s.runners| {
          RunnerKeepsSealed(s, q, AdvanceLocal(LocalOf(s, q), s.slots < MAX_SLOTS, s.stopping, ok), t);
        }
      case RunnerPanic(q) => if q < |s.runners| { RunnerKeepsSealed(s, q, PanicLocal(LocalOf(s, q)), t); }
      case Crash => CrashLeavesNobody(s, t);
      case _ => OutsideKeepsSealed(s, e, t);
    }
  }

  lemma {:induction false} SealedLaunchesNothing(s: State, events: seq<Event>, t: nat)
    requires Steady(s) && FreshRun(s, events) && NoResume(events, t)
    requires t < |s.rows| && s.rows[t].kind.HasRunner() && Sealed(s, t)
    ensures LaunchesOf(Run(s, events), t) == LaunchesOf(s, t)
    decreases |events|
  {
    if events != [] {
      assert events[0] != ResumeTask(t) && forall k :: 0 <= k < |events| - 1 ==> events[1..][k] == events[k + 1];
      StepKeepsSealed(s, events[0], t);
      StepKeepsSteady(s, events[0]);
      SealedLaunchesNothing(Step(s, events[0]), events[1..], t);
    }
  }

  // -------------------------------------------------------------------- both together

  /** Until the task is resumed nothing of it is launched, also by later runners and
      later processes. */
  ghost predicate StaysQuiet(s: State, t: nat) requires Wf(s) {
    forall events: seq<Event> :: FreshRun(s, events) && NoResume(events, t) ==>
      LaunchesOf(Run(s, events), t) == LaunchesOf(s, t)
  }

  lemma StaysNotQuiet(s: State, events: seq<Event>, t: nat)
    requires Wf(s) && FreshRun(s, events) && NoResume(events, t)
    requires |LaunchesOf(Run(s, events), t)| > |LaunchesOf(s, t)|
    ensures !StaysQuiet(s, t)
  {
  }

  /** A halted task with a live runner that is neither harmless nor at its end. */
  lemma LiveRunnerReopens(s: State, t: nat, r: nat)
    requires Steady(s) && Live(s, r) && s.runners[r].task == t && s.rows[t].kind.HasRunner() && Halted(s.rows[t])
    requires s.rows[t].checkpoint < s.rows[t].total && !Harmless(s.runners[r], s.rows[t])
    ensures !StaysQuiet(s, t)
  {
    var me, row := s.runners[r], s.rows[t];
    LiveRunnerBalanced(s, r);
    var a, mid := [], s;
    assert Run(s, []) == s;
    if me.phase.AwaitSlot? && s.slots == MAX_SLOTS {
      var q := SomeoneIsInside(s.runners);
      a, mid := FreeASlot(s, a, t, mid, r, q);
    }
    if WouldLaunch(mid, r) {
      var events := Driven(s, a, t, mid, r);
      StaysNotQuiet(s, events, t);
    } else if Overwrites(me, row) {
      a, mid := Add(s, a, t, mid, Advance(r, true));
      GoesOnAfter(s, a, t, mid);
    } else {
      a, mid := Reopens(s, a, t, mid, r);
      GoesOnAfter(s, a, t, mid);
    }
  }

  lemma GoesOnAfter(s: State, a: seq<Event>, t: nat, mid: State)
    requires Steady(s) && Leads(s, a, t, mid) && Steady(mid) && t < |mid.rows|
    requires mid.rows[t].kind.HasRunner() && mid.rows[t].checkpoint < mid.rows[t].total
    requires mid.rows[t].status == Pending || mid.rows[t].status == Running
    requires LaunchesOf(mid, t) == LaunchesOf(s, t)
    ensures !StaysQuiet(s, t)
  {
    var more := InterruptedTaskGoesOn(mid, t);
    Then(s, a, t, mid, more, Run(mid, more));
    StaysNotQuiet(s, a + more, t);
  }

  /** A stop or pause is final, until the task is resumed, exactly if everything is
      launched and recorded, or no live runner is left that will do more than mark the
      task failed or record its last launch. Otherwise the runner itself writes
      "pending" or "running" over the operator's word, and the task goes on. */
  lemma HaltIsFinalIff(s: State, halt: Event, t: nat)
    requires Steady(s) && t < |s.rows| && s.rows[t].kind.HasRunner() && IsHalt(halt, t)
    ensures Steady(Step(s, halt))
    ensures StaysQuiet(Step(s, halt), t) <==>
            || s.rows[t].checkpoint == s.rows[t].total
            || forall r :: 0 <= r < |s.runners| && s.runners[r].task == t && s.runners[r].phase.Active() ==>
                 Harmless(s.runners[r], s.rows[t])
  {
    StepKeepsSteady(s, halt);
    var s' := Step(s, halt);
    HaltStep(s, halt, t);
    assert RowBalanced(s.rows[t], s.history[t], InWindowOn(s, t));
    if Sealed(s', t) {
      SealedStaysQuiet(s', t);
    } else {
      var r :| 0 <= r < |s'.runners| && s'.runners[r].task == t && s'.runners[r].phase.Active()
               && !Harmless(s'.runners[r], s'.rows[t]);
      LiveRunnerReopens(s', t, r);
    }
  }

  lemma SealedStaysQuiet(s: State, t: nat)
    requires Steady(s) && t < |s.rows| && s.rows[t].kind.HasRunner() && Sealed(s, t)
    ensures StaysQuiet(s, t)
  {
    forall events: seq<Event> | FreshRun(s, events) && NoResume(events, t)
      ensures LaunchesOf(Run(s, events), t) == LaunchesOf(s, t)
    {
      SealedLaunchesNothing(s, events, t);
    }
  }

  lemma HaltStep(s: State, halt: Event, t: nat)
    requires Wf(s) && t < |s.rows| && IsHalt(halt, t)
    ensures var s' := Step(s, halt);
            && s'.runners == s.runners && |s'.rows| == |s.rows| && Halted(s'.rows[t])
            && s'.rows[t] == s.rows[t].(status := s'.rows[t].status) && LaunchesOf(s', t) == LaunchesOf(s, t)
  {
  }
}
