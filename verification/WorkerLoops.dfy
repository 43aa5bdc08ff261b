/** The runner loops of the worker in their own form: each store access, signal test
    and remote call is followed by whatever the rest of the system does. The methods
    are shown to take only steps of the machine in `BatchWorker`, so all that holds
    of its runs holds of them. */
module WorkerLoops {
  import opened BatchWorker
  import opened WorkerSafety

  // ------------------------------------------------------------------ the runner

  /** The statuses a runner writes, and where it goes on. */
  predicate WritesStatus(phase: Phase, status: Status, next: Phase) {
    match phase
    case MarkingRunning => status == Running && next == Launching
    case Reporting(launched) => status == Running && next == Saving(launched)
    case WritingPending => status == Pending && next == Releasing
    case WritingCompleted => status == Completed && next == Releasing
    case WritingFailed => status == Failed && next == Releasing
    case _ => false
  }

  /** Where a checkpoint is saved, which one, and where the runner goes on. */
  predicate SavesCheckpoint(phase: Phase, kind: Kind, i: nat, index: nat, next: Phase) {
    match phase
    case Saving(launched) => index == i + 1 && next == if launched && kind == BatchCreate then Sleeping else LoopTop
    case SavingInterrupted => index == i && next == WritingPending
    case _ => false
  }

  /** A runner of the worker with the world around it. */
  class Worker {
    var s: State
    ghost var trace: seq<Event>
    ghost const start: State
    const r: nat
    const total: nat
    const kind: Kind
    /** What the rest of the system does before each step, and what the cloud answers. */
    const env: nat -> seq<Event>
    const answer: nat -> bool
    var clock: nat

    constructor (s: State, r: nat, env: nat -> seq<Event>, answer: nat -> bool)
      requires Wf(s) && r < |s.runners| && forall n :: AllForeign(env(n), r)
      ensures Valid() && this.s == s && start == s && trace == [] && this.r == r && clock == 0
      ensures this.env == env && this.answer == answer
    {
      this.s, start, trace, this.r, this.env, this.answer, clock := s, s, [], r, env, answer, 0;
      total, kind := s.rows[s.runners[r].task].total, s.rows[s.runners[r].task].kind;
    }

    /** The state was reached by the recorded events: steps of this runner, and
        events of the rest of the system. */
    ghost predicate Valid()
      reads this
    {
      && Wf(start) && Wf(s) && s == Run(start, trace)
      && (forall k :: 0 <= k < |trace| ==> Foreign(trace[k], r) || (trace[k].Advance? && trace[k].runner == r))
      && r < |s.runners| && s.rows[s.runners[r].task].total == total && s.rows[s.runners[r].task].kind == kind
      && forall n :: AllForeign(env(n), r)
    }

    /** The runner has index `i` and is at `phase`. */
    ghost predicate At(i: nat, phase: Phase)
      reads this
    {
      Valid() && s.runners[r].index == i && s.runners[r].phase == phase
    }

    function Now(): Local
      reads this
      requires Wf(s) && r < |s.runners|
    {
      LocalOf(s, r)
    }

    /** The rest of the system moves. */
    method Others()
      requires Valid()
      modifies this`s, this`trace, this`clock
      ensures Valid() && s.runners[r] == old(s.runners[r]) && trace == old(trace) + env(old(clock))
    {
      var events := env(clock);
      ForeignRunKeepsRunner(s, events, r);
      RunAppend(start, trace, events);
      s := Run(s, events);
      trace := trace + events;
      clock := clock + 1;
    }

    /** The runner moves by one step of the machine. */
    method Move(l: Local, ok: bool)
      requires Valid() && l == AdvanceLocal(Now(), s.slots < MAX_SLOTS, s.stopping, ok)
      modifies this`s, this`trace
      ensures Valid() && s == Put(old(s), r, l) && s.runners[r] == l.me && trace == old(trace) + [Advance(r, ok)]
    {
      RunAppend(start, trace, [Advance(r, ok)]);
      assert Run(s, [Advance(r, ok)]) == Step(s, Advance(r, ok));
      s := Put(s, r, l);
      trace := trace + [Advance(r, ok)];
    }

    method UpdateTaskStatus(i: nat, status: Status, next: Phase)
      requires Valid() && At(i, s.runners[r].phase) && WritesStatus(s.runners[r].phase, status, next)
      requires s.runners[r].phase.Reporting? ==> !(s.runners[r].phase.launched && kind == BatchStart)
      modifies this`s, this`trace
      ensures At(i, next) && s.rows[s.runners[r].task].status == status
    {
      Move(WriteStatus(Now(), status, next), false);
    }

    method SaveCheckpoint(i: nat, index: nat, next: Phase)
      requires Valid() && At(i, s.runners[r].phase) && SavesCheckpoint(s.runners[r].phase, kind, i, index, next)
      modifies this`s, this`trace
      ensures At(index, next) && s.rows[s.runners[r].task].checkpoint == index
    {
      Move(BatchWorker.SaveCheckpoint(Now(), index, next), false);
    }

    /** `<-w.stop`, without waiting. */
    method StopSignalled(i: nat) returns (stop: bool)
      requires At(i, LoopTop) && i < total
      modifies this`s, this`trace
      ensures stop == old(s.stopping) && At(i, if stop then SavingInterrupted else CheckingStatus)
    {
      stop := s.stopping;
      Move(Goto(Now(), if stop then SavingInterrupted else CheckingStatus), false);
    }

    method TaskIsActive(i: nat) returns (active: bool)
      requires At(i, CheckingStatus)
      modifies this`s, this`trace
      ensures active == (old(s.rows[s.runners[r].task].status) == Running)
      ensures At(i, if active then MarkingRunning else SavingInterrupted)
    {
      active := Now().row.status == Running;
      Move(Goto(Now(), if active then MarkingRunning else SavingInterrupted), false);
    }

    /** The remote calls for index `i`; the launch is on record whether or not it succeeds. */
    method Launch(i: nat) returns (ok: bool)
      requires At(i, Launching)
      modifies this`s, this`trace
      ensures At(i, Reporting(ok))
      ensures s.history[s.runners[r].task].launches == old(s.history[s.runners[r].task].launches) + [i]
    {
      ok := answer(clock);
      var l := Now();
      Move(Goto(l, Reporting(ok)).(h := l.h.(launches := l.h.launches + [i])), ok);
    }

    /** Goes on without touching the store. */
    method Skip(i: nat, ok: bool, next: Phase)
      requires Valid() && At(i, s.runners[r].phase)
      requires Goto(Now(), next) == AdvanceLocal(Now(), s.slots < MAX_SLOTS, s.stopping, ok)
      modifies this`s, this`trace
      ensures At(i, next)
    {
      Move(Goto(Now(), next), ok);
    }

    /** Saves the checkpoint and gives the task back. */
    method Interrupt(i: nat)
      requires At(i, SavingInterrupted)
      modifies this`s, this`trace, this`clock
      ensures At(i, Releasing)
    {
      Others();
      SaveCheckpoint(i, i, WritingPending);
      Others();
      UpdateTaskStatus(i, Pending, Releasing);
    }

    /** Checks that end the loop early, and the note that index `i` is under way. */
    method Begin(i: nat) returns (go: bool)
      requires At(i, LoopTop) && i < total
      modifies this`s, this`trace, this`clock
      ensures At(i, if go then Launching else Releasing)
    {
      Others();
      var stop := StopSignalled(i);
      if stop {
        Interrupt(i);
        return false;
      }
      Others();
      var active := TaskIsActive(i);
      if !active {
        Interrupt(i);
        return false;
      }
      Others();
      UpdateTaskStatus(i, Running, Launching);
      return true;
    }

    /** Reads tenant and client; a failure fails the task. */
    method SetUp(i: nat) returns (ok: bool)
      requires At(i, SettingUp)
      modifies this`s, this`trace, this`clock
      ensures At(i, if ok then LoopTop else Releasing)
    {
      Others();
      ok := answer(clock);
      Skip(i, ok, if ok then LoopTop else WritingFailed);
      if !ok {
        Others();
        UpdateTaskStatus(i, Failed, Releasing);
      }
    }

    method Complete(i: nat)
      requires At(i, LoopTop) && i >= total
      modifies this`s, this`trace, this`clock
      ensures At(i, Releasing)
    {
      Others();
      Skip(i, false, WritingCompleted);
      Others();
      UpdateTaskStatus(i, Completed, Releasing);
    }

    /** `runBatchStart`, from the checkpoint the task was claimed with. */
    method RunBatchStart(from: nat)
      requires At(from, SettingUp) && kind == BatchStart
      modifies this`s, this`trace, this`clock
      ensures Valid() && s.runners[r].phase == Releasing
    {
      var ready := SetUp(from);
      if !ready { return; }
      var i := from;
      while i < total
        invariant At(i, LoopTop)
        decreases total - i
      {
        var go := Begin(i);
        if !go { return; }
        Others();
        var ok := Launch(i);
        Others();
        if !ok {
          UpdateTaskStatus(i, Running, Saving(false));
        } else {
          Skip(i, false, Saving(true));
        }
        Others();
        SaveCheckpoint(i, i + 1, LoopTop);
        i := i + 1;
      }
      Complete(i);
    }

    /** Two seconds, unless the worker is stopped. */
    method Sleep(i: nat) returns (woken: bool)
      requires At(i, Sleeping)
      modifies this`s, this`trace, this`clock
      ensures At(i, if woken then LoopTop else Releasing)
    {
      Others();
      var timer := answer(clock);
      woken := !s.stopping || timer;
      Skip(i, timer, if woken then LoopTop else SavingInterrupted);
      if !woken { Interrupt(i); }
    }

    /** `runBatchCreate`: it reports successes too, and sleeps after them. */
    method RunBatchCreate(from: nat)
      requires At(from, SettingUp) && kind == BatchCreate
      modifies this`s, this`trace, this`clock
      ensures Valid() && s.runners[r].phase == Releasing
    {
      var ready := SetUp(from);
      if !ready { return; }
      var i := from;
      while i < total
        invariant At(i, LoopTop)
        decreases total - i
      {
        var go := Begin(i);
        if !go { return; }
        Others();
        var ok := Launch(i);
        Others();
        UpdateTaskStatus(i, Running, Saving(ok));
        Others();
        SaveCheckpoint(i, i + 1, if ok then Sleeping else LoopTop);
        i := i + 1;
        if !ok { continue; }
        var woken := Sleep(i);
        if !woken { return; }
      }
      Complete(i);
    }

    /** Waits until a slot is free, for as many rounds of the others as given. */
    method AcquireSlot(from: nat, rounds: nat) returns (acquired: bool)
      requires At(from, AwaitSlot)
      modifies this`s, this`trace, this`clock
      ensures At(from, if acquired then SettingUp else AwaitSlot)
    {
      var n := 0;
      while s.slots >= MAX_SLOTS && n < rounds
        invariant At(from, AwaitSlot)
        decreases rounds - n
      {
        Others();
        n := n + 1;
      }
      acquired := s.slots < MAX_SLOTS;
      if acquired { Skip(from, false, SettingUp); }
    }

    /** `runWithSem`: waits for a slot, runs the task, returns the slot; a runner that
        gets no slot while it is observed still waits. What holds in every run of the
        machine holds here. */
    method RunWithSem(from: nat, rounds: nat) returns (ran: bool)
      requires At(from, AwaitSlot) && kind.HasRunner()
      modifies this`s, this`trace, this`clock
      ensures Valid() && s.runners[r].phase == if ran then Gone else AwaitSlot
      ensures Safe(start) ==> Safe(s)
    {
      ran := AcquireSlot(from, rounds);
      if ran {
        if kind == BatchStart { RunBatchStart(from); } else { RunBatchCreate(from); }
        Others();
        Skip(s.runners[r].index, false, Gone);
      }
      if Safe(start) { RunKeepsSafe(start, trace); }
    }
  }

  // ------------------------------------------------------------------ the poll loop

  /** An event that is not the poll loop's own. */
  predicate NotPolling(e: Event) {
    !(e.BootReset? || e.Poll? || e.Claim? || e.Mark? || e.SeeStop? || e.PollerPanic? || e.Crash?)
  }

  /** The steps of `processNext`. */
  predicate OfPass(e: Event) {
    e.Poll? || e.Claim? || e.Mark?
  }

  predicate NonePolling(events: seq<Event>) {
    forall k :: 0 <= k < |events| ==> NotPolling(events[k])
  }

  lemma OtherStepKeepsPoller(s: State, e: Event)
    requires Wf(s) && NotPolling(e)
    ensures Step(s, e).poller == s.poller && Step(s, e).batch == s.batch && |Step(s, e).rows| >= |s.rows|
  {
  }

  lemma {:induction false} OthersKeepPoller(s: State, events: seq<Event>)
    requires Wf(s) && NonePolling(events)
    ensures Run(s, events).poller == s.poller && Run(s, events).batch == s.batch
    ensures |Run(s, events).rows| >= |s.rows|
    decreases |events|
  {
    if events != [] {
      OtherStepKeepsPoller(s, events[0]);
      OthersKeepPoller(Step(s, events[0]), events[1..]);
    }
  }

  class PollLoop {
    var s: State
    ghost var trace: seq<Event>
    ghost const start: State
    const env: nat -> seq<Event>
    var clock: nat

    constructor (s: State, env: nat -> seq<Event>)
      requires Wf(s) && forall n :: NonePolling(env(n))
      ensures Valid() && this.s == s && start == s && trace == [] && this.env == env && clock == 0
    {
      this.s, start, trace, this.env, clock := s, s, [], env, 0;
    }

    /** The state was reached by the recorded events: polls, claims and marks of this
        loop, and events of the rest of the system. */
    ghost predicate Valid()
      reads this
    {
      && Wf(start) && Wf(s) && s == Run(start, trace)
      && (forall k :: 0 <= k < |trace| ==> NotPolling(trace[k]) || OfPass(trace[k]))
      && forall n :: NonePolling(env(n))
    }

    method Others()
      requires Valid()
      modifies this
      ensures Valid() && s.poller == old(s.poller) && s.batch == old(s.batch)
    {
      OthersKeepPoller(s, env(clock));
      RunAppend(start, trace, env(clock));
      trace := trace + env(clock);
      s := Run(s, env(clock));
      clock := clock + 1;
    }

    method Do(e: Event)
      requires Valid() && OfPass(e)
      modifies this
      ensures Valid() && s == Step(old(s), e)
    {
      RunAppend(start, trace, [e]);
      assert Run(s, [e]) == Step(s, e);
      trace := trace + [e];
      s := Step(s, e);
    }

    method ListPendingTasks() returns (tasks: seq<Snapshot>)
      requires Valid() && s.poller == Idle
      modifies this
      ensures Valid() && s.poller == Claiming && s.batch == tasks && tasks == PendingFrom(old(s.rows), 0, POLL_LIMIT)
      ensures forall k :: 0 <= k < |old(s.rows)| && old(s.rows)[k].status == Pending ==>
                (Snapshot(k, old(s.rows)[k].checkpoint) in tasks <==> PendingBetween(old(s.rows), 0, k) < 50)
    {
      forall k | 0 <= k < |s.rows| && s.rows[k].status == Pending
        ensures Snapshot(k, s.rows[k].checkpoint) in PendingFrom(s.rows, 0, POLL_LIMIT)
                <==> PendingBetween(s.rows, 0, k) < POLL_LIMIT
      {
        FirstPendingAreListed(s.rows, 0, POLL_LIMIT, k);
      }
      tasks := PendingFrom(s.rows, 0, POLL_LIMIT);
      Do(Poll);
    }

    /** `ClaimTask`, and the goroutine that is started for a claimed task. */
    method ClaimAndStart(t: Snapshot, ghost rest: seq<Snapshot>) returns (claimed: bool)
      requires Valid() && s.poller == Claiming && s.batch == [t] + rest && t.task < |s.rows|
      modifies this
      ensures Valid() && claimed == (old(s.rows)[t.task].status == Pending) && s.batch == rest
      ensures !claimed ==> s.poller == Claiming && s.runners == old(s.runners)
      ensures claimed ==> s.rows == SetStatus(old(s.rows), t.task, Running)
      ensures claimed && old(s.rows)[t.task].kind.HasRunner() ==>
                s.poller == Claiming && s.runners == old(s.runners) + [Runner(t.task, t.checkpoint, AwaitSlot)]
      ensures claimed && old(s.rows)[t.task].kind == BatchCreateMulti ==> s.poller == Marking(t.task, Running)
      ensures claimed && old(s.rows)[t.task].kind == UnknownKind ==> s.poller == Marking(t.task, Failed)
    {
      claimed := s.rows[t.task].status == Pending;
      assert s.batch[0] == t && s.batch[1..] == rest;
      Do(Claim);
    }

    /** `processNext`. */
    method ProcessNext()
      requires Valid() && s.poller == Idle
      modifies this
      ensures Valid() && s.poller == Idle && s.batch == []
      ensures Safe(start) ==> Safe(s)
    {
      var tasks := ListPendingTasks();
      HandleAll(tasks);
      Do(Claim);
      if Safe(start) { RunKeepsSafe(start, trace); }
    }

    method HandleAll(tasks: seq<Snapshot>)
      requires Valid() && s.poller == Claiming && s.batch == tasks
      modifies this
      ensures Valid() && s.poller == Claiming && s.batch == []
    {
      for i := 0 to |tasks|
        invariant Valid() && s.poller == Claiming && s.batch == tasks[i..]
      {
        Others();
        assert tasks[i..] == [tasks[i]] + tasks[i + 1..];
        Handle(tasks[i], tasks[i + 1..]);
      }
    }

    method Handle(t: Snapshot, ghost rest: seq<Snapshot>)
      requires Valid() && s.poller == Claiming && s.batch == [t] + rest
      modifies this
      ensures Valid() && s.poller == Claiming && s.batch == rest
    {
      assert s.batch[0] == t;
      var claimed := ClaimAndStart(t, rest);
      if s.poller.Marking? {
        Others();
        Do(Mark);
      }
    }
  }
}
