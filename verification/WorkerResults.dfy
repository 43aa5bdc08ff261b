/** What the batch worker promises over all runs, and where the promises end. */
module WorkerResults {
  import opened BatchWorker
  import opened WorkerOrder
  import opened WorkerRestart
  import opened WorkerSafety
  import opened WorkerSteady
  import opened WorkerStop

  /** No index is ever skipped: whatever the interleaving, every index below a
      stored checkpoint was launched, and a task is recorded as completed only
      once every index below its total was. */
  lemma NoIndexSkipped(events: seq<Event>, t: nat, k: nat)
    requires t < |Run(INITIAL, events).rows|
    ensures var s := Run(INITIAL, events);
            && (k < s.rows[t].checkpoint ==> k in s.history[t].launches)
            && (s.rows[t].kind.HasRunner() && s.rows[t].status == Completed && k < s.rows[t].total ==>
                  k in s.history[t].launches)
            && (k in s.history[t].launches ==> k < s.rows[t].total)
  {
    RunKeepsSafe(INITIAL, events);
    var s := Run(INITIAL, events);
    assert RowSafe(s.rows[t], s.history[t]);
  }

  /** A runner about to write "completed" has all indices of its task behind it. */
  lemma CompletesOnlyWhenAllLaunched(events: seq<Event>, r: nat, k: nat)
    requires r < |Run(INITIAL, events).runners|
    ensures var s := Run(INITIAL, events);
            var me := s.runners[r];
            me.phase.WritingCompleted? && k < s.rows[me.task].total ==> k in s.history[me.task].launches
  {
    RunKeepsSafe(INITIAL, events);
    var s := Run(INITIAL, events);
    var me := s.runners[r];
    assert RunnerSafe(me, s.rows[me.task], s.history[me.task]);
  }

  /** The semaphore counts exactly the runners inside it, never more than five;
      once every runner is gone all five slots are free again. */
  lemma SemaphoreCountsRunners(events: seq<Event>)
    ensures var s := Run(INITIAL, events);
            && s.slots == InsideCount(s.runners) <= 5
            && ((forall r :: 0 <= r < |s.runners| ==> s.runners[r].phase.Gone?) ==> s.slots == 0)
  {
    RunKeepsSafe(INITIAL, events);
    var s := Run(INITIAL, events);
    if forall r :: 0 <= r < |s.runners| ==> s.runners[r].phase.Gone? { InsideCountZero(s.runners); }
  }

  /** A panic does not leak the slot, whatever the others do in between: the runner's
      next step marks the task failed, and the one after that returns the slot. */
  lemma PanicReturnsSlot(events: seq<Event>, r: nat, first: seq<Event>, a: bool, second: seq<Event>, b: bool)
    returns (panicked: State, marked: State, waiting: State, gone: State)
    requires r < |Run(INITIAL, events).runners| && AllForeign(first, r) && AllForeign(second, r)
    requires Run(INITIAL, events).runners[r].phase.Inside() && Run(INITIAL, events).runners[r].phase.Active()
    ensures panicked == Run(Step(Run(INITIAL, events), RunnerPanic(r)), first)
    ensures Wf(panicked) && marked == Step(panicked, Advance(r, a))
    ensures Wf(marked) && waiting == Run(marked, second)
    ensures Wf(waiting) && gone == Step(waiting, Advance(r, b))
    ensures r < |marked.runners| && marked.rows[marked.runners[r].task].status == Failed
    ensures r < |gone.runners| && gone.runners[r].phase == Gone && gone.slots == waiting.slots - 1
  {
    RunKeepsSafe(INITIAL, events);
    var hit := PanicStep(Run(INITIAL, events), r);
    panicked := Undisturbed(hit, r, first);
    marked := FailStep(panicked, r, a);
    waiting := Undisturbed(marked, r, second);
    gone := LeaveStep(waiting, r, b);
  }

  lemma Undisturbed(s: State, r: nat, events: seq<Event>) returns (s': State)
    requires Safe(s) && r < |s.runners| && AllForeign(events, r)
    ensures s' == Run(s, events) && Safe(s') && r < |s'.runners| && s'.runners[r] == s.runners[r]
  {
    s' := Run(s, events);
    RunKeepsSafe(s, events);
    ForeignRunKeepsRunner(s, events, r);
  }

  lemma PanicStep(s: State, r: nat) returns (s': State)
    requires Safe(s) && r < |s.runners| && s.runners[r].phase.Inside() && s.runners[r].phase.Active()
    ensures s' == Step(s, RunnerPanic(r)) && Safe(s')
    ensures r < |s'.runners| && s'.runners[r].phase == WritingFailed
  {
    s' := PanicRunner(s, r);
    PanicKeepsSafe(s, r);
  }

  lemma FailStep(s: State, r: nat, ok: bool) returns (s': State)
    requires Safe(s) && r < |s.runners| && s.runners[r].phase == WritingFailed
    ensures s' == Step(s, Advance(r, ok)) && Safe(s')
    ensures r < |s'.runners| && s'.runners[r].phase == Releasing && s'.rows[s'.runners[r].task].status == Failed
  {
    s' := AdvanceRunner(s, r, ok);
    RunnerStepKeepsSafe(s, r, ok);
  }

  lemma LeaveStep(s: State, r: nat, ok: bool) returns (s': State)
    requires Safe(s) && r < |s.runners| && s.runners[r].phase == Releasing
    ensures s' == Step(s, Advance(r, ok)) && r < |s'.runners|
    ensures s'.runners[r].phase == Gone && s'.slots == s.slots - 1
  {
    s' := AdvanceRunner(s, r, ok);
    InsideCountPositive(s.runners, r);
  }

  /** With careful steps only, a task never has two live runners, a task with a
      live runner is never pending, and neither is it about to be claimed. */
  lemma OneRunnerPerTaskAlways(events: seq<Event>, r: nat, q: nat)
    requires CarefulRun(INITIAL, events)
    requires r < |Run(INITIAL, events).runners| && Run(INITIAL, events).runners[r].phase.Active()
    ensures var s := Run(INITIAL, events);
            var t := s.runners[r].task;
            && s.rows[t].status != Pending
            && (q < |s.runners| && q != r && s.runners[q].phase.Active() ==> s.runners[q].task != t)
            && (forall i :: 0 <= i < |s.batch| ==> s.batch[i].task != t)
  {
    CarefulRunKeepsOrderly(INITIAL, events);
    var s := Run(INITIAL, events);
    var t := s.runners[r].task;
    forall i | 0 <= i < |s.batch| ensures s.batch[i].task != t {
      assert Fresh(s, s.batch[i]);
    }
  }

  /** The guard on operators and resets is exact for what it protects: from an orderly
      state, a step leaves no task both pending and with a live runner if and only if
      it is careful. */
  lemma CarefulIsExact(s: State, e: Event)
    requires Orderly(s)
    ensures NoLivePending(Step(s, e)) <==> Careful(s, e)
  {
    if Careful(s, e) {
      StepKeepsOrderly(s, e);
    } else {
      var s' := Step(s, e);
      if e.ResumeTask? {
        var r :| 0 <= r < |s.runners| && s.runners[r].task == e.task && s.runners[r].phase.Active();
        assert s'.runners[r] == s.runners[r];
      } else {
        var r :| 0 <= r < |s.runners| && s.runners[r].phase.Active() && s.rows[s.runners[r].task].status == Running;
        assert s'.runners[r] == s.runners[r];
      }
    }
  }

  /** The exact condition for one live runner per task whose row counts its launches:
      a step keeps it if and only if a claim that starts a runner finds no live one
      and the checkpoint it was listed with. */
  lemma FreshClaimIsExact(s: State, e: Event)
    requires Steady(s)
    ensures Steady(Step(s, e)) <==> FreshClaim(s, e)
  {
    if FreshClaim(s, e) { StepKeepsSteady(s, e); } else { StaleClaimIsUnsteady(s); }
  }

  /** Conservation of launches while claims are fresh, over operators, resets, shutdowns,
      panics and crashes: the launches of a task are its checkpoint, plus one per hit
      between a launch and its checkpoint, plus the one under way; so there are at most
      `total` plus the hits on live runners. And no task has two live runners. */
  lemma LaunchesAreBounded(events: seq<Event>, t: nat)
    requires FreshRun(INITIAL, events) && t < |Run(INITIAL, events).rows|
    ensures var s := Run(INITIAL, events);
            var h := s.history[t];
            && OneRunnerPerTask(s)
            && |h.launches| == s.rows[t].checkpoint + h.lost + (if InWindowOn(s, t) then 1 else 0)
            && h.lost <= h.hits
            && |h.launches| <= s.rows[t].total + h.hits
            && (s.rows[t].kind.HasRunner() && s.rows[t].status == Completed ==> s.rows[t].checkpoint == s.rows[t].total)
  {
    FreshRunKeepsSteady(INITIAL, events);
    var s := Run(INITIAL, events);
    assert RowBalanced(s.rows[t], s.history[t], InWindowOn(s, t));
    if InWindowOn(s, t) {
      var r :| 0 <= r < |s.runners| && s.runners[r].task == t && s.runners[r].phase.InWindow();
      assert RunnerSafe(s.runners[r], s.rows[t], s.history[t]);
      assert RunnerSynced(s.runners[r], s.rows[t]);
    }
  }

  /** The same for every run of careful operators and resets. */
  lemma CarefulLaunchesAreBounded(events: seq<Event>, t: nat)
    requires CarefulRun(INITIAL, events) && t < |Run(INITIAL, events).rows|
    ensures FreshRun(INITIAL, events)
    ensures var s := Run(INITIAL, events); |s.history[t].launches| <= s.rows[t].total + s.history[t].hits
  {
    CarefulRunsAreFresh(INITIAL, events);
    LaunchesAreBounded(events, t);
  }

  /** While claims are fresh the stored checkpoint never decreases, and a task whose
      checkpoint has reached its total, resumed or not, launches nothing any more. */
  lemma {:induction false} CheckpointNeverDecreases(s: State, events: seq<Event>, t: nat)
    requires Steady(s) && FreshRun(s, events) && t < |s.rows|
    ensures Progress(s, Run(s, events), t)
    decreases |events|
  {
    if events != [] {
      StepMakesProgress(s, events[0], t);
      StepKeepsSteady(s, events[0]);
      CheckpointNeverDecreases(Step(s, events[0]), events[1..], t);
    }
  }

  lemma {:induction false} RunSnoc(s: State, events: seq<Event>, e: Event)
    requires Wf(s)
    ensures Run(s, events + [e]) == Step(Run(s, events), e)
    decreases |events|
  {
    if events == [] {
      assert Run(Step(s, e), []) == Step(s, e);
      assert ([] + [e])[1..] == [];
    } else {
      assert (events + [e])[1..] == events[1..] + [e];
      RunSnoc(Step(s, events[0]), events[1..], e);
    }
  }

  /** Without the guard the bound fails. A task of one instance is resumed while
      its runner is about to launch: the next poll starts a second runner and the
      instance is launched twice, although nothing crashed. */
  lemma ResumeOfLiveTaskLaunchesTwice() returns (events: seq<Event>)
    ensures var s := Run(INITIAL, events);
            |s.rows| == 1 && s.rows[0].total == 1 && s.history == [History([0, 0], 0, 0)]
  {
    var head := [SubmitTask(BatchCreate, 1), BootReset, Poll, Claim];
    var s0 := State([Row(BatchCreate, 1, Running, 0)], [History([], 0, 0)], [Runner(0, 0, AwaitSlot)],
                    0, false, false, Claiming, []);
    FirstRunnerStarts(head, s0);
    var e1, s1 := DriveToLaunch(head, s0, 0);
    var e2, s2 := SecondRunnerStarts(e1, s1);
    events := BothLaunch(e2, s2);
  }

  /** A stop need not last. A task of one instance is stopped when its runner has just
      been started: the runner finds the row cancelled and writes "pending" over it, and
      the instance is launched later although nobody resumes the task. */
  lemma StoppedTaskGoesOn() returns (s: State, after: seq<Event>)
    ensures s == Run(INITIAL, [SubmitTask(BatchCreate, 1), BootReset, Poll, Claim])
    ensures s.rows == [Row(BatchCreate, 1, Running, 0)] && LaunchesOf(s, 0) == []
    ensures Steady(s) && FreshRun(Step(s, StopTask(0)), after) && NoResume(after, 0)
    ensures LaunchesOf(Run(Step(s, StopTask(0)), after), 0) != []
  {
    s := State([Row(BatchCreate, 1, Running, 0)], [History([], 0, 0)], [Runner(0, 0, AwaitSlot)],
               0, false, false, Claiming, []);
    FirstRunnerStarts([SubmitTask(BatchCreate, 1), BootReset, Poll, Claim], s);
    OnlyJustStarted(s);
    after := LaunchesAfterHalt(s, StopTask(0), 0, 0);
  }

  lemma LaunchesAfterHalt(s: State, halt: Event, t: nat, r: nat) returns (after: seq<Event>)
    requires Steady(s) && t < |s.rows| && s.rows[t].kind.HasRunner() && IsHalt(halt, t)
    requires s.rows[t].checkpoint < s.rows[t].total && Live(s, r) && s.runners[r].task == t
    requires !Harmless(s.runners[r], s.rows[t])
    ensures Steady(Step(s, halt)) && FreshRun(Step(s, halt), after) && NoResume(after, t)
    ensures LaunchesOf(Run(Step(s, halt), after), t) != LaunchesOf(s, t)
  {
    HaltStep(s, halt, t);
    HaltIsFinalIff(s, halt, t);
    assert !StaysQuiet(Step(s, halt), t);
    after :| FreshRun(Step(s, halt), after) && NoResume(after, t)
             && LaunchesOf(Run(Step(s, halt), after), t) != LaunchesOf(Step(s, halt), t);
  }

  lemma OnlyJustStarted(s: State)
    requires s == State([Row(BatchCreate, 1, Running, 0)], [History([], 0, 0)], [Runner(0, 0, AwaitSlot)],
                        0, false, false, Claiming, [])
    ensures Steady(s)
  {
    assert InsideCount(s.runners[..0]) == 0;
    assert s.runners[..0] == [];
  }

  lemma BothLaunch(events: seq<Event>, s: State) returns (events': seq<Event>)
    requires s == State([Row(BatchCreate, 1, Running, 0)], [History([], 0, 0)],
                        [Runner(0, 0, Launching), Runner(0, 0, AwaitSlot)], 1, false, false, Claiming, [])
    requires s == Run(INITIAL, events)
    ensures Run(INITIAL, events').rows == s.rows && Run(INITIAL, events').history == [History([0, 0], 0, 0)]
  {
    var e1, s1 := LaunchStep(events, s, 0);
    assert [] + [0] == [0];
    assert s1.runners == [Runner(0, 0, Reporting(true)), Runner(0, 0, AwaitSlot)];
    assert s1.history == [History([0], 0, 0)];
    var e2, s2 := DriveToLaunch(e1, s1, 1);
    var e3, s3 := LaunchStep(e2, s2, 1);
    assert [0] + [0] == [0, 0];
    events' := e3;
  }

  lemma LaunchStep(events: seq<Event>, s: State, r: nat) returns (events': seq<Event>, s': State)
    requires s == Run(INITIAL, events) && Wf(s) && r < |s.runners| && s.runners[r] == Runner(0, 0, Launching)
    ensures s' == Run(INITIAL, events') && s'.rows == s.rows
    ensures s' == s.(runners := s.runners[r := Runner(0, 0, Reporting(true))],
                     history := s.history[0 := s.history[0].(launches := s.history[0].launches + [0])])
  {
    events', s' := AppendStep(events, s, Advance(r, true));
    assert s'.rows == s.rows;
  }

  lemma SecondRunnerStarts(events: seq<Event>, s: State) returns (events': seq<Event>, s': State)
    requires s == State([Row(BatchCreate, 1, Running, 0)], [History([], 0, 0)], [Runner(0, 0, Launching)],
                        1, false, false, Claiming, [])
    requires s == Run(INITIAL, events)
    ensures s' == Run(INITIAL, events')
    ensures s' == s.(runners := [Runner(0, 0, Launching), Runner(0, 0, AwaitSlot)])
  {
    var e1, s1 := AppendStep(events, s, ResumeTask(0));
    assert s1.rows == [Row(BatchCreate, 1, Pending, 0)];
    var e2, s2 := AppendStep(e1, s1, Claim);
    var e3, s3 := AppendStep(e2, s2, Poll);
    assert s3.batch == [Snapshot(0, 0)] by { assert PendingFrom(s2.rows, 1, 49) == []; }
    var e4, s4 := AppendStep(e3, s3, Claim);
    assert s4.batch == [] && s4.rows == s.rows;
    events', s' := e4, s4;
  }

  lemma FirstRunnerStarts(head: seq<Event>, s0: State)
    requires head == [SubmitTask(BatchCreate, 1), BootReset, Poll, Claim]
    requires s0 == State([Row(BatchCreate, 1, Running, 0)], [History([], 0, 0)], [Runner(0, 0, AwaitSlot)],
                         0, false, false, Claiming, [])
    ensures Run(INITIAL, head) == s0
  {
    var e1, s1 := AppendStep([], INITIAL, SubmitTask(BatchCreate, 1));
    var e2, s2 := AppendStep(e1, s1, BootReset);
    assert s2.rows == [Row(BatchCreate, 1, Pending, 0)];
    var e3, s3 := AppendStep(e2, s2, Poll);
    assert s3.batch == [Snapshot(0, 0)] by { assert PendingFrom(s2.rows, 1, 49) == []; }
    var e4, s4 := AppendStep(e3, s3, Claim);
    assert e4 == head;
    assert s4.batch == [];
  }

  lemma AppendStep(events: seq<Event>, s: State, e: Event) returns (events': seq<Event>, s': State)
    requires s == Run(INITIAL, events)
    ensures events' == events + [e] && Wf(s) && s' == Step(s, e) == Run(INITIAL, events')
  {
    events', s' := events + [e], Step(s, e);
    RunSnoc(INITIAL, events, e);
  }

  /** From its start to the launch a runner needs five steps if nobody interferes. */
  lemma DriveToLaunch(events: seq<Event>, s: State, r: nat) returns (events': seq<Event>, s': State)
    requires s == Run(INITIAL, events) && Wf(s) && r < |s.runners| && s.runners[r] == Runner(0, 0, AwaitSlot)
    requires s.slots < MAX_SLOTS && !s.stopping && s.rows[0].total > 0 && s.rows[0].status == Running
    ensures Wf(s) && s' == Run(INITIAL, events')
    ensures s' == s.(runners := s.runners[r := Runner(0, 0, Launching)], slots := s.slots + 1)
  {
    var e1, s1 := DriveToLoop(events, s, r);
    events', s' := DriveFromLoop(e1, s1, r);
    assert s'.runners == s.runners[r := Runner(0, 0, Launching)];
  }

  lemma DriveFromLoop(events: seq<Event>, s: State, r: nat) returns (events': seq<Event>, s': State)
    requires s == Run(INITIAL, events) && Wf(s) && r < |s.runners| && s.runners[r] == Runner(0, 0, LoopTop)
    requires !s.stopping && s.rows[0].total > 0 && s.rows[0].status == Running
    ensures Wf(s) && s' == Run(INITIAL, events')
    ensures s' == s.(runners := s.runners[r := Runner(0, 0, Launching)])
  {
    var e1, s1 := QuietStep(events, s, r, CheckingStatus);
    var e2, s2 := QuietStep(e1, s1, r, MarkingRunning);
    events', s' := QuietStep(e2, s2, r, Launching);
    assert s'.runners == s.runners[r := Runner(0, 0, Launching)];
  }

  lemma DriveToLoop(events: seq<Event>, s: State, r: nat) returns (events': seq<Event>, s': State)
    requires s == Run(INITIAL, events) && Wf(s) && r < |s.runners| && s.runners[r] == Runner(0, 0, AwaitSlot)
    requires s.slots < MAX_SLOTS
    ensures Wf(s) && s' == Run(INITIAL, events')
    ensures s' == s.(runners := s.runners[r := Runner(0, 0, LoopTop)], slots := s.slots + 1)
  {
    var e1, s1 := QuietStep(events, s, r, SettingUp);
    events', s' := QuietStep(e1, s1, r, LoopTop);
    assert s'.runners == s.runners[r := Runner(0, 0, LoopTop)];
  }

  /** A step of a runner that changes its phase and nothing else. */
  lemma QuietStep(events: seq<Event>, s: State, r: nat, next: Phase) returns (events': seq<Event>, s': State)
    requires s == Run(INITIAL, events) && Wf(s) && r < |s.runners|
    requires var l := LocalOf(s, r); AdvanceLocal(l, s.slots < MAX_SLOTS, s.stopping, true) == Goto(l, next)
    ensures s' == Run(INITIAL, events')
    ensures s' == s.(runners := s.runners[r := s.runners[r].(phase := next)],
                     slots := SlotsAfter(s.slots, s.runners[r].phase, next))
  {
    events', s' := AppendStep(events, s, Advance(r, true));
    assert s'.rows == s.rows && s'.history == s.history;
  }
}
