/** What an operator's stop or pause means to a live runner, and what closing the
    stop channel means to all of them. */
module WorkerStop {
  import opened BatchWorker
  import opened WorkerSafety
  import opened WorkerSteady

  predicate NoResume(events: seq<Event>, t: nat) {
    forall k :: 0 <= k < |events| ==> events[k] != ResumeTask(t)
  }

  /** Nobody works on the task, or whoever does is to leave it. */
  predicate Halted(row: Row) {
    row.status == Cancelled || row.status == Paused || row.status == Failed
  }

  predicate Live(s: State, r: nat) {
    r < |s.runners| && s.runners[r].phase.Active()
  }

  function LaunchesOf(s: State, t: nat): seq<nat> {
    if t < |s.history| then s.history[t].launches else []
  }

  // ------------------------------------------------------- a task without a runner

  predicate IsHalt(e: Event, t: nat) {
    e == StopTask(t) || e == PauseTask(t)
  }

  /** An event that is neither a runner's nor a crash. */
  predicate FromOutside(e: Event) {
    !e.Advance? && !e.RunnerPanic? && !e.Crash?
  }

  /** A halted row is left alone by everybody but operators and its own runner. */
  lemma HaltedRowStays(s: State, e: Event, t: nat)
    requires Safe(s) && t < |s.rows| && s.rows[t].kind.HasRunner() && e != ResumeTask(t) && FromOutside(e)
    requires Halted(s.rows[t])
    ensures t < |Step(s, e).rows| && Halted(Step(s, e).rows[t])
    ensures !IsHalt(e, t) ==> Step(s, e).rows[t].status == s.rows[t].status
  {
    if e.Claim? && s.poller.Claiming? { ClaimTouchesPending(s, t); }
  }

  lemma ClaimTouchesPending(s: State, t: nat)
    requires Wf(s) && s.poller.Claiming? && t < |s.rows| && s.rows[t].status != Pending
    ensures ClaimNext(s).rows[t] == s.rows[t]
    ensures forall r :: |s.runners| <= r < |ClaimNext(s).runners| ==> ClaimNext(s).runners[r].task != t
  {
  }

  /** What an outside event may do to a task: write its status, and start a runner by
      a claim. */
  lemma OutsideEvent(s: State, e: Event, t: nat)
    requires Safe(s) && FromOutside(e) && t < |s.rows|
    ensures var s' := Step(s, e);
            && t < |s'.rows| && s'.rows[t] == s.rows[t].(status := s'.rows[t].status) && s'.history[t] == s.history[t]
            && s.runners <= s'.runners && (|s'.runners| == |s.runners| || Claims(s, e)) && (s.stopping ==> s'.stopping)
  {
    if e.Claim? {
      if s.poller.Claiming? && !Claims(s, e) { RunnerlessClaim(s); }
    } else {
      OthersWriteStatuses(s, e);
    }
  }

  /** The task is still halted and without a runner, and nothing of it was launched. */
  predicate IdleAfter(s: State, s': State, t: nat, sameStatus: bool) requires t < |s.rows| {
    && t < |s'.rows| && s'.rows[t].kind == s.rows[t].kind && Halted(s'.rows[t]) && !ActiveOn(s', t)
    && LaunchesOf(s', t) == LaunchesOf(s, t)
    && (sameStatus ==> s'.rows[t].status == s.rows[t].status)
  }

  lemma HaltedIdleStep(s: State, e: Event, t: nat)
    requires Safe(s) && t < |s.rows| && s.rows[t].kind.HasRunner() && e != ResumeTask(t)
    requires Halted(s.rows[t]) && !ActiveOn(s, t)
    ensures IdleAfter(s, Step(s, e), t, !IsHalt(e, t))
  {
    match e
    case Advance(q, ok) => if q < |s.runners| { IdleAdvance(s, q, ok, t); }
    case RunnerPanic(q) => if q < |s.runners| { IdlePanic(s, q, t); }
    case Crash => CrashLeavesNobody(s, t);
    case _ => IdleOutside(s, e, t);
  }

  lemma IdleOutside(s: State, e: Event, t: nat)
    requires Safe(s) && t < |s.rows| && s.rows[t].kind.HasRunner() && e != ResumeTask(t) && FromOutside(e)
    requires Halted(s.rows[t]) && !ActiveOn(s, t)
    ensures IdleAfter(s, Step(s, e), t, !IsHalt(e, t))
  {
    HaltedRowStays(s, e, t);
    OutsideEvent(s, e, t);
    SameRunnersOf(s, e, t);
  }

  lemma CrashLeavesNobody(s: State, t: nat)
    requires Wf(s) && t < |s.rows|
    ensures var s' := CrashAll(s);
            s'.rows == s.rows && LaunchesOf(s', t) == LaunchesOf(s, t) && forall r: nat :: !Live(s', r)
    ensures !ActiveOn(CrashAll(s), t)
  {
  }

  lemma IdlePanic(s: State, q: nat, t: nat)
    requires Wf(s) && q < |s.runners| && t < |s.rows| && Halted(s.rows[t]) && !ActiveOn(s, t)
    ensures IdleAfter(s, PanicRunner(s, q), t, true)
  {
    IdleTaskUnmoved(s, q, PanicLocal(LocalOf(s, q)), t);
  }

  lemma IdleAdvance(s: State, q: nat, ok: bool, t: nat)
    requires Wf(s) && q < |s.runners| && t < |s.rows| && Halted(s.rows[t]) && !ActiveOn(s, t)
    ensures IdleAfter(s, AdvanceRunner(s, q, ok), t, true)
  {
    IdleTaskUnmoved(s, q, AdvanceLocal(LocalOf(s, q), s.slots < MAX_SLOTS, s.stopping, ok), t);
  }

  lemma SameRunnersOf(s: State, e: Event, t: nat)
    requires Safe(s) && FromOutside(e) && t < |s.rows| && s.rows[t].status != Pending
    ensures var s' := Step(s, e);
            forall r :: 0 <= r < |s'.runners| && s'.runners[r].task == t ==>
              r < |s.runners| && s'.runners[r] == s.runners[r]
  {
    OutsideEvent(s, e, t);
    if e.Claim? && s.poller.Claiming? { ClaimTouchesPending(s, t); }
  }

  lemma IdleTaskUnmoved(s: State, q: nat, l: Local, t: nat)
    requires Wf(s) && q < |s.runners| && t < |s.rows| && !ActiveOn(s, t)
    requires l.me.task == s.runners[q].task && (!s.runners[q].phase.Active() ==> !l.me.phase.Active())
    requires !s.runners[q].phase.Active() ==> l.row == s.rows[l.me.task] && l.h == s.history[l.me.task]
    ensures var s' := Put(s, q, l); s'.rows[t] == s.rows[t] && s'.history[t] == s.history[t] && !ActiveOn(s', t)
  {
    var s' := Put(s, q, l);
    forall r | 0 <= r < |s'.runners| && s'.runners[r].task == t ensures !s'.runners[r].phase.Active() {
      if r != q { assert s'.runners[r] == s.runners[r]; }
    }
  }

  /** A stop or pause of a task without a live runner is final: until the task is
      resumed nothing of it is launched, and its status stays what the operator wrote. */
  lemma {:induction false} IdleStopIsFinal(s: State, events: seq<Event>, t: nat)
    requires Safe(s) && t < |s.rows| && s.rows[t].kind.HasRunner() && NoResume(events, t)
    requires Halted(s.rows[t]) && !ActiveOn(s, t)
    ensures var s' := Run(s, events);
            && t < |s'.rows| && Halted(s'.rows[t]) && !ActiveOn(s', t) && LaunchesOf(s', t) == LaunchesOf(s, t)
            && (StopTask(t) !in events && PauseTask(t) !in events ==> s'.rows[t].status == s.rows[t].status)
    decreases |events|
  {
    if events != [] {
      assert events[0] != ResumeTask(t) && forall k :: 0 <= k < |events| - 1 ==> events[1..][k] == events[k + 1];
      StepKeepsSafe(s, events[0]);
      HaltedIdleStep(s, events[0], t);
      IdleStopIsFinal(Step(s, events[0]), events[1..], t);
    }
  }

  // ------------------------------------------------------- a task with a live runner

  /** The runner's next write overwrites the status with "running". */
  predicate Overwrites(me: Runner, row: Row) {
    me.phase.Reporting? && !(me.phase.launched && row.kind == BatchStart)
  }

  /** The runner launches nothing before it sees that its row is halted, or it is at
      its end anyway. */
  predicate Obeys(me: Runner, row: Row, stopping: bool) {
    match me.phase
    case MarkingRunning => false
    case Launching => false
    case CheckingStatus => Halted(row)
    case Reporting(_) => (Halted(row) && !Overwrites(me, row)) || me.index + 1 >= row.total || stopping
    case Saving(_) => Halted(row) || me.index + 1 >= row.total || stopping
    case AwaitSlot => Halted(row) || me.index >= row.total || stopping
    case SettingUp => Halted(row) || me.index >= row.total || stopping
    case LoopTop => Halted(row) || me.index >= row.total || stopping
    case Sleeping => Halted(row) || me.index >= row.total || stopping
    case _ => true
  }

  predicate ObeysIn(s: State, r: nat) requires Wf(s) && r < |s.runners| {
    Obeys(s.runners[r], s.rows[s.runners[r].task], s.stopping)
  }

  lemma OwnMoveObeys(l: Local, free: bool, stopping: bool, ok: bool)
    requires RunnerSafe(l.me, l.row, l.h) && l.me.phase.Active() && Obeys(l.me, l.row, stopping)
    ensures var l' := AdvanceLocal(l, free, stopping, ok);
            l'.h == l.h && (l'.me.phase.Active() ==> Obeys(l'.me, l'.row, stopping))
  {
  }

  lemma OtherRunnerMoves(s: State, q: nat, l: Local, r: nat)
    requires Steady(s) && Live(s, r) && q < |s.runners| && q != r && l.me.task == s.runners[q].task
    requires !s.runners[q].phase.Active() ==> l.row == s.rows[l.me.task] && l.h == s.history[l.me.task]
    ensures var s', t := Put(s, q, l), s.runners[r].task;
            s'.runners[r] == s.runners[r] && s'.rows[t] == s.rows[t] && s'.history[t] == s.history[t]
            && s'.stopping == s.stopping
  {
    if s.runners[q].phase.Active() { assert s.runners[q].task != s.runners[r].task; }
  }

  lemma OthersLetObey(s: State, e: Event, r: nat)
    requires Steady(s) && FreshClaim(s, e) && Live(s, r) && ObeysIn(s, r)
    requires e != ResumeTask(s.runners[r].task) && FromOutside(e)
    ensures var s', t := Step(s, e), s.runners[r].task;
            && LaunchesOf(s', t) == LaunchesOf(s, t)
            && r < |s'.runners| && s'.runners[r] == s.runners[r] && ObeysIn(s', r)
  {
    var t := s.runners[r].task;
    assert RunnerSafe(s.runners[r], s.rows[t], s.history[t]);
    OutsideEvent(s, e, t);
    if Halted(s.rows[t]) { HaltedRowStays(s, e, t); }
  }

  lemma StepObeys(s: State, e: Event, r: nat)
    requires Steady(s) && FreshClaim(s, e) && Live(s, r) && ObeysIn(s, r) && e != ResumeTask(s.runners[r].task)
    ensures var s', t := Step(s, e), s.runners[r].task;
            && LaunchesOf(s', t) == LaunchesOf(s, t)
            && r < |s'.runners| && s'.runners[r].task == t && (Live(s', r) ==> ObeysIn(s', r))
  {
    match e
    case Advance(q, ok) => RunnerLetsObey(s, q, ok, r);
    case RunnerPanic(q) => PanicLetsObey(s, q, r);
    case Crash =>
    case _ => OthersLetObey(s, e, r);
  }

  lemma RunnerLetsObey(s: State, q: nat, ok: bool, r: nat)
    requires Steady(s) && Live(s, r) && ObeysIn(s, r)
    ensures var s', t := Step(s, Advance(q, ok)), s.runners[r].task;
            && LaunchesOf(s', t) == LaunchesOf(s, t)
            && r < |s'.runners| && s'.runners[r].task == t && (Live(s', r) ==> ObeysIn(s', r))
  {
    if q == r {
      OwnAdvanceObeys(s, r, ok);
    } else if q < |s.runners| {
      OtherRunnerMoves(s, q, AdvanceLocal(LocalOf(s, q), s.slots < MAX_SLOTS, s.stopping, ok), r);
    }
  }

  lemma OwnAdvanceObeys(s: State, r: nat, ok: bool)
    requires Steady(s) && Live(s, r) && ObeysIn(s, r)
    ensures var s', t := AdvanceRunner(s, r, ok), s.runners[r].task;
            && LaunchesOf(s', t) == LaunchesOf(s, t) && s'.runners[r].task == t && (Live(s', r) ==> ObeysIn(s', r))
  {
    LiveRunnerBalanced(s, r);
    OwnMoveObeys(LocalOf(s, r), s.slots < MAX_SLOTS, s.stopping, ok);
  }

  lemma PanicLetsObey(s: State, q: nat, r: nat)
    requires Steady(s) && Live(s, r) && ObeysIn(s, r)
    ensures var s', t := Step(s, RunnerPanic(q)), s.runners[r].task;
            && LaunchesOf(s', t) == LaunchesOf(s, t)
            && r < |s'.runners| && s'.runners[r].task == t && (Live(s', r) ==> ObeysIn(s', r))
  {
    if q < |s.runners| && q != r { OtherRunnerMoves(s, q, PanicLocal(LocalOf(s, q)), r); }
  }

  lemma EndedStays(s: State, e: Event, r: nat)
    requires Wf(s) && r < |s.runners| && !s.runners[r].phase.Active()
    ensures var s' := Step(s, e); r < |s'.runners| && s'.runners[r].task == s.runners[r].task && !Live(s', r)
  {
  }

  lemma {:induction false} RunObeys(s: State, events: seq<Event>, r: nat)
    requires Steady(s) && FreshRun(s, events) && r < |s.runners| && (Live(s, r) ==> ObeysIn(s, r))
    requires NoResume(events, s.runners[r].task)
    ensures Live(Run(s, events), r) ==>
              LaunchesOf(Run(s, events), s.runners[r].task) == LaunchesOf(s, s.runners[r].task)
    decreases |events|
  {
    if events != [] {
      assert events[0] != ResumeTask(s.runners[r].task);
      assert forall k :: 0 <= k < |events| - 1 ==> events[1..][k] == events[k + 1];
      if Live(s, r) { StepObeys(s, events[0], r); } else { EndedStays(s, events[0], r); }
      StepKeepsSteady(s, events[0]);
      RunObeys(Step(s, events[0]), events[1..], r);
      if !Live(s, r) { NeverLiveAgain(Step(s, events[0]), events[1..], r); }
    }
  }

  lemma {:induction false} NeverLiveAgain(s: State, events: seq<Event>, r: nat)
    requires Wf(s) && r < |s.runners| && !Live(s, r)
    ensures !Live(Run(s, events), r)
    decreases |events|
  {
    if events != [] {
      EndedStays(s, events[0], r);
      NeverLiveAgain(Step(s, events[0]), events[1..], r);
    }
  }

  // ----------------------------------------------------------------- driving a runner

  function NextIndex(me: Runner): nat {
    if me.phase.InWindow() then me.index + 1 else me.index
  }

  /** Left alone, the runner launches its next index. */
  predicate WouldLaunch(s: State, r: nat) requires Wf(s) && r < |s.runners| {
    var me := s.runners[r];
    var row := s.rows[me.task];
    var goesOn := NextIndex(me) < row.total && !s.stopping;
    match me.phase
    case Launching => true
    case MarkingRunning => true
    case CheckingStatus => row.status == Running
    case LoopTop => goesOn && row.status == Running
    case Sleeping => goesOn && row.status == Running
    case SettingUp => goesOn && row.status == Running
    case AwaitSlot => goesOn && row.status == Running && s.slots < MAX_SLOTS
    case Saving(_) => goesOn && row.status == Running
    case Reporting(_) => goesOn && (Overwrites(me, row) || row.status == Running)
    case _ => false
  }

  function Distance(phase: Phase): nat {
    match phase
    case Launching => 0
    case MarkingRunning => 1
    case CheckingStatus => 2
    case LoopTop => 3
    case Sleeping => 4
    case Saving(_) => 5
    case Reporting(_) => 6
    case SettingUp => 7
    case _ => 8
  }

  lemma DriveOneStep(s: State, r: nat)
    requires Wf(s) && r < |s.runners| && WouldLaunch(s, r)
    ensures var s', t := Step(s, Advance(r, true)), s.runners[r].task;
            && r < |s'.runners| && s'.runners[r].task == t
            && (if s.runners[r].phase.Launching?
                then s'.runners[r].phase.Reporting? && LaunchesOf(s', t) == LaunchesOf(s, t) + [s.runners[r].index]
                else WouldLaunch(s', r) && LaunchesOf(s', t) == LaunchesOf(s, t)
                     && NextIndex(s'.runners[r]) == NextIndex(s.runners[r])
                     && Distance(s'.runners[r].phase) < Distance(s.runners[r].phase))
  {
  }

  predicate OnlyDrives(events: seq<Event>, r: nat) {
    forall k :: 0 <= k < |events| ==> events[k] == Advance(r, true)
  }

  lemma {:induction false} Drive(s: State, r: nat) returns (events: seq<Event>)
    requires Wf(s) && r < |s.runners| && WouldLaunch(s, r)
    ensures OnlyDrives(events, r) && FreshRun(s, events) && Live(Run(s, events), r)
    ensures var me := s.runners[r]; LaunchesOf(Run(s, events), me.task) == LaunchesOf(s, me.task) + [NextIndex(me)]
    decreases Distance(s.runners[r].phase)
  {
    var e := Advance(r, true);
    DriveOneStep(s, r);
    var rest := [];
    if !s.runners[r].phase.Launching? { rest := Drive(Step(s, e), r); }
    events := [e] + rest;
    assert events[1..] == rest;
  }

  function Range(lo: nat, hi: nat): seq<nat>
    decreases hi - lo
  {
    if lo >= hi then [] else [lo] + Range(lo + 1, hi)
  }

  /** A runner nobody has told to stop. */
  predicate OnItsWay(s: State, r: nat) requires Wf(s) && r < |s.runners| {
    var me := s.runners[r];
    var row := s.rows[me.task];
    && row.status == Running && !s.stopping
    && match me.phase
       case AwaitSlot => s.slots < MAX_SLOTS
       case CheckingStatus => me.index < row.total
       case MarkingRunning => me.index < row.total
       case Launching => me.index < row.total
       case WritingCompleted => me.index >= row.total
       case _ => me.phase.SettingUp? || me.phase.LoopTop? || me.phase.Sleeping? || me.phase.InWindow()
  }

  /** The steps until the task is completed, at most. */
  function WayLeft(s: State, r: nat): nat requires Wf(s) && r < |s.runners| {
    var me := s.runners[r];
    var row := s.rows[me.task];
    var launches := if NextIndex(me) < row.total then row.total - NextIndex(me) else 0;
    if me.phase.WritingCompleted? then 0 else 1 + 10 * launches + Distance(me.phase)
  }

  lemma WayGoesOn(s: State, r: nat)
    requires Wf(s) && r < |s.runners| && OnItsWay(s, r) && !s.runners[r].phase.WritingCompleted?
    ensures var s' := Step(s, Advance(r, true));
            && r < |s'.runners| && s'.runners[r].task == s.runners[r].task
            && OnItsWay(s', r) && WayLeft(s', r) < WayLeft(s, r)
  {
  }

  lemma WayEnds(s: State, r: nat)
    requires Wf(s) && r < |s.runners| && OnItsWay(s, r) && s.runners[r].phase.WritingCompleted?
    ensures var s', t := Step(s, Advance(r, true)), s.runners[r].task;
            s'.rows[t].status == Completed && LaunchesOf(s', t) == LaunchesOf(s, t)
  {
  }

  /** What the runner still launches, after `before`. */
  predicate Launches(before: seq<nat>, me: Runner, total: nat, after: seq<nat>) {
    after == before + Range(NextIndex(me), total)
  }

  lemma WayLaunches(s: State, r: nat, after: seq<nat>)
    requires Wf(s) && r < |s.runners| && OnItsWay(s, r) && !s.runners[r].phase.WritingCompleted?
    requires var s', t := Step(s, Advance(r, true)), s.runners[r].task;
             && r < |s'.runners| && t < |s'.rows|
             && Launches(LaunchesOf(s', t), s'.runners[r], s'.rows[t].total, after)
    ensures Launches(LaunchesOf(s, s.runners[r].task), s.runners[r], s.rows[s.runners[r].task].total, after)
  {
  }

  lemma DriveFirst(s: State, r: nat, rest: seq<Event>)
    requires Wf(s) && OnlyDrives(rest, r)
    ensures OnlyDrives([Advance(r, true)] + rest, r)
    ensures Run(s, [Advance(r, true)] + rest) == Run(Step(s, Advance(r, true)), rest)
  {
    assert ([Advance(r, true)] + rest)[1..] == rest;
  }

  /** Left alone, a runner launches exactly the rest of its indices, each once and in
      order, and records the task as completed. */
  lemma {:induction false} LeftAloneCompletes(s: State, r: nat) returns (events: seq<Event>, s': State)
    requires Wf(s) && r < |s.runners| && OnItsWay(s, r)
    ensures OnlyDrives(events, r) && s' == Run(s, events)
    ensures var me := s.runners[r];
            && me.task < |s'.rows| && s'.rows[me.task].status == Completed
            && Launches(LaunchesOf(s, me.task), me, s.rows[me.task].total, LaunchesOf(s', me.task))
    decreases WayLeft(s, r)
  {
    var me, next := s.runners[r], Step(s, Advance(r, true));
    var rest := [];
    if me.phase.WritingCompleted? {
      s' := next;
      WayEnds(s, r);
      assert Run(next, rest) == next;
    } else {
      WayGoesOn(s, r);
      rest, s' := LeftAloneCompletes(next, r);
      WayLaunches(s, r, LaunchesOf(s', me.task));
    }
    events := [Advance(r, true)] + rest;
    DriveFirst(s, r, rest);
  }

  // ------------------------------------------------------------- an operator's order

  /** While the runner lives nothing more of its task is launched. */
  ghost predicate LaunchesNoMore(s: State, r: nat) requires Steady(s) && r < |s.runners| {
    forall events: seq<Event> ::
      FreshRun(s, events) && NoResume(events, s.runners[r].task) && Live(Run(s, events), r) ==>
      LaunchesOf(Run(s, events), s.runners[r].task) == LaunchesOf(s, s.runners[r].task)
  }

  /** A stop or pause of a task with a live runner is heeded by that runner exactly if
      it does not fall between the runner's status test and its last write of
      "running" for that instance, or that instance was the last one. */
  lemma HaltIsHeededIff(s: State, halt: Event, r: nat)
    requires Steady(s) && Live(s, r) && IsHalt(halt, s.runners[r].task)
    ensures Steady(Step(s, halt)) && r < |Step(s, halt).runners|
    ensures var me := s.runners[r];
            var row := s.rows[me.task];
            LaunchesNoMore(Step(s, halt), r) <==>
            && !me.phase.MarkingRunning? && !me.phase.Launching?
            && (me.phase.Reporting? && !(me.phase.launched && row.kind == BatchStart) ==>
                  me.index + 1 >= row.total || s.stopping)
  {
    StepKeepsSteady(s, halt);
    var s', t := Step(s, halt), s.runners[r].task;
    if ObeysIn(s', r) {
      forall events: seq<Event> | FreshRun(s', events) && NoResume(events, t) && Live(Run(s', events), r)
        ensures LaunchesOf(Run(s', events), t) == LaunchesOf(s', t)
      {
        RunObeys(s', events, r);
      }
    } else {
      var events := Drive(s', r);
      assert NoResume(events, t);
      assert |LaunchesOf(Run(s', events), t)| == |LaunchesOf(s', t)| + 1;
    }
  }

  // -------------------------------------------------------------- closing the channel

  predicate PastTheTest(phase: Phase) {
    phase.CheckingStatus? || phase.MarkingRunning? || phase.Launching?
  }

  /** One launch is due on a task with a runner past its test of the stop channel. */
  function Due(s: State, t: nat): nat {
    if exists r :: 0 <= r < |s.runners| && s.runners[r].task == t && PastTheTest(s.runners[r].phase) then 1 else 0
  }

  lemma OwnMoveWhileStopping(l: Local, free: bool, ok: bool)
    ensures var l' := AdvanceLocal(l, free, true, ok);
            && (PastTheTest(l'.me.phase) ==> PastTheTest(l.me.phase))
            && (l'.h.launches == l.h.launches
                || (PastTheTest(l.me.phase) && !PastTheTest(l'.me.phase) && |l'.h.launches| == |l.h.launches| + 1))
  {
  }

  lemma PutWhileStopping(s: State, q: nat, l: Local, t: nat)
    requires Steady(s) && q < |s.runners| && t < |s.rows| && l.me.task == s.runners[q].task
    requires PastTheTest(l.me.phase) ==> PastTheTest(s.runners[q].phase)
    requires var h := s.history[l.me.task];
             || l.h.launches == h.launches
             || (PastTheTest(s.runners[q].phase) && !PastTheTest(l.me.phase) && |l.h.launches| == |h.launches| + 1)
    ensures |LaunchesOf(Put(s, q, l), t)| + Due(Put(s, q, l), t) <= |LaunchesOf(s, t)| + Due(s, t)
  {
    var s' := Put(s, q, l);
    if Due(s', t) == 1 {
      var r :| 0 <= r < |s'.runners| && s'.runners[r].task == t && PastTheTest(s'.runners[r].phase);
      assert s.runners[r].task == t && PastTheTest(s.runners[r].phase);
      assert r != q && l.me.task == t ==> !s.runners[q].phase.Active();
    }
    if l.me.task == t && PastTheTest(s.runners[q].phase) { assert Due(s, t) == 1; }
  }

  lemma StepWhileStopping(s: State, e: Event, t: nat)
    requires Steady(s) && FreshClaim(s, e) && s.stopping && !e.Crash? && t < |s.rows|
    ensures var s' := Step(s, e);
            s'.stopping && t < |s'.rows| && |LaunchesOf(s', t)| + Due(s', t) <= |LaunchesOf(s, t)| + Due(s, t)
  {
    match e
    case Advance(q, ok) => if q < |s.runners| { AdvanceWhileStopping(s, q, ok, t); }
    case RunnerPanic(q) => if q < |s.runners| { PutWhileStopping(s, q, PanicLocal(LocalOf(s, q)), t); }
    case _ => OutsideWhileStopping(s, e, t);
  }

  lemma OutsideWhileStopping(s: State, e: Event, t: nat)
    requires Safe(s) && FromOutside(e) && s.stopping && t < |s.rows|
    ensures var s' := Step(s, e);
            s'.stopping && t < |s'.rows| && |LaunchesOf(s', t)| + Due(s', t) <= |LaunchesOf(s, t)| + Due(s, t)
  {
    OutsideEvent(s, e, t);
    NewRunnersWait(s, e, t);
  }

  lemma AdvanceWhileStopping(s: State, q: nat, ok: bool, t: nat)
    requires Steady(s) && s.stopping && q < |s.runners| && t < |s.rows|
    ensures var s' := AdvanceRunner(s, q, ok);
            |LaunchesOf(s', t)| + Due(s', t) <= |LaunchesOf(s, t)| + Due(s, t)
  {
    var l := LocalOf(s, q);
    OwnMoveWhileStopping(l, s.slots < MAX_SLOTS, ok);
    PutWhileStopping(s, q, AdvanceLocal(l, s.slots < MAX_SLOTS, true, ok), t);
  }

  lemma NewRunnersWait(s: State, e: Event, t: nat)
    requires Safe(s) && FromOutside(e) && t < |s.rows|
    ensures Due(Step(s, e), t) <= Due(s, t)
  {
    OutsideEvent(s, e, t);
    var s' := Step(s, e);
    forall r | 0 <= r < |s'.runners| && PastTheTest(s'.runners[r].phase)
      ensures r < |s.runners| && s.runners[r] == s'.runners[r]
    {
    }
  }

  /** A shutdown is graceful: from the moment the stop channel is closed a task launches
      at most one more instance in this process, and none unless a runner has already
      passed its test of the channel for that instance. */
  lemma ShutdownLetsOneLaunchPass(s: State, events: seq<Event>, t: nat)
    requires Steady(s) && t < |s.rows| && forall k :: 0 <= k < |events| ==> !events[k].Crash?
    requires FreshRun(Step(s, CloseStop), events)
    ensures |LaunchesOf(Run(Step(s, CloseStop), events), t)| <= |LaunchesOf(s, t)| + 1
    ensures (forall r :: 0 <= r < |s.runners| && s.runners[r].task == t ==>
               !s.runners[r].phase.CheckingStatus? && !s.runners[r].phase.MarkingRunning?
               && !s.runners[r].phase.Launching?) ==>
            |LaunchesOf(Run(Step(s, CloseStop), events), t)| <= |LaunchesOf(s, t)|
  {
    StepKeepsSteady(s, CloseStop);
    LaunchesAndDue(Step(s, CloseStop), events, t);
  }

  lemma {:induction false} LaunchesAndDue(s: State, events: seq<Event>, t: nat)
    requires Steady(s) && s.stopping && FreshRun(s, events) && t < |s.rows|
    requires forall k :: 0 <= k < |events| ==> !events[k].Crash?
    ensures |LaunchesOf(Run(s, events), t)| <= |LaunchesOf(s, t)| + Due(s, t)
    decreases |events|
  {
    if events != [] {
      StepWhileStopping(s, events[0], t);
      StepKeepsSteady(s, events[0]);
      LaunchesAndDue(Step(s, events[0]), events[1..], t);
    }
  }
}
