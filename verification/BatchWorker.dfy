/** The batch worker: pending task rows, the poll loop that claims them and the
    runner goroutines that work through them with a checkpoint in the row.

    Every store access and every remote call is one atomic step, so a run of the
    system is a sequence of events in any order. An event that is not enabled
    leaves the state alone, hence every `seq<Event>` is a run. */
module BatchWorker {

  datatype Kind = BatchStart | BatchCreate | BatchCreateMulti | UnknownKind {
    predicate HasRunner() { BatchStart? || BatchCreate? }
  }

  datatype Status = Pending | Running | Paused | Cancelled | Completed | Failed

  /** A task row. `total` and `checkpoint` live in the JSON payload. */
  datatype Row = Row(kind: Kind, total: nat, status: Status, checkpoint: nat)

  /** What happened to a task so far: the indices launched, how often a crash or
      a panic hit a live runner of it, and how many of those hits fell between a
      launch and the checkpoint that records it. */
  datatype History = History(launches: seq<nat>, hits: nat, lost: nat)

  /** The program counter of a runner. */
  datatype Phase =
    | AwaitSlot | SettingUp | LoopTop | CheckingStatus | MarkingRunning | Launching
    | Reporting(launched: bool) | Saving(launched: bool) | Sleeping
    | SavingInterrupted | WritingPending | WritingCompleted | WritingFailed
    | Releasing | Gone
  {
    /** The runner may still touch its row. */
    predicate Active() { !Releasing? && !Gone? }
    /** The runner holds one of the semaphore's slots. */
    predicate Inside() { !AwaitSlot? && !Gone? }
    /** The launch happened, its checkpoint is not written yet. */
    predicate InWindow() { Reporting? || Saving? }
    /** The loop index is known to be below the total. */
    predicate InBody() { CheckingStatus? || MarkingRunning? || Launching? || InWindow() }
    /** The row still carries the checkpoint the runner works from. */
    predicate Synced() { Active() && !WritingPending? && !WritingFailed? }
  }

  datatype Runner = Runner(task: nat, index: nat, phase: Phase)

  /** A row as `ListPendingTasks` read it: the payload is not read again later. */
  datatype Snapshot = Snapshot(task: nat, checkpoint: nat)

  /** Where the poll loop is; while it claims it also has a batch to work off. */
  datatype Poller = Booting | Idle | Claiming | Marking(task: nat, mark: Status) | Stopped

  datatype State = State(
    rows: seq<Row>, history: seq<History>, runners: seq<Runner>,
    slots: nat, stopping: bool, resetDue: bool,
    poller: Poller, batch: seq<Snapshot>)

  datatype Event =
    | SubmitTask(kind: Kind, total: nat)
    | StopTask(task: nat)
    | PauseTask(task: nat)
    | ResumeTask(task: nat)
    | BootReset
    | Poll
    | Claim
    | Mark
    | SeeStop
    | PollerPanic
    | Advance(runner: nat, ok: bool)
    | RunnerPanic(runner: nat)
    | CloseStop
    | ShutdownReset
    | Crash

  const MAX_SLOTS: nat := 5
  const POLL_LIMIT: nat := 50

  const INITIAL := State([], [], [], 0, false, false, Booting, [])

  predicate Wf(s: State) {
    && |s.history| == |s.rows|
    && (forall r :: 0 <= r < |s.runners| ==> s.runners[r].task < |s.rows|)
    && (forall i :: 0 <= i < |s.batch| ==> s.batch[i].task < |s.rows|)
    && (s.poller.Marking? ==> s.poller.task < |s.rows|)
  }

  // ---------------------------------------------------------------- store

  function SetStatus(rows: seq<Row>, t: nat, status: Status): seq<Row>
    requires t < |rows|
  {
    rows[t := rows[t].(status := status)]
  }

  function ResetRow(row: Row): Row {
    if row.status == Running then row.(status := Pending) else row
  }

  /** `ResetRunningTasks`: every running row becomes pending again. */
  function ResetRunning(rows: seq<Row>): (r: seq<Row>)
    ensures |r| == |rows|
    ensures forall t :: 0 <= t < |rows| ==> r[t] == ResetRow(rows[t])
  {
    seq(|rows|, t requires 0 <= t < |rows| => ResetRow(rows[t]))
  }

  /** `ListPendingTasks`: the first `limit` pending rows by id, from id `t` on. */
  function PendingFrom(rows: seq<Row>, t: nat, limit: nat): (list: seq<Snapshot>)
    requires t <= |rows|
    ensures forall i :: 0 <= i < |list| ==> IsListed(rows, t, list[i])
    decreases |rows| - t
  {
    if t == |rows| || limit == 0 then []
    else if rows[t].status == Pending then [Snapshot(t, rows[t].checkpoint)] + PendingFrom(rows, t + 1, limit - 1)
    else PendingFrom(rows, t + 1, limit)
  }

  predicate IsListed(rows: seq<Row>, t: nat, snap: Snapshot) {
    && t <= snap.task < |rows|
    && rows[snap.task].status == Pending
    && snap.checkpoint == rows[snap.task].checkpoint
  }

  /** The pending rows from `t` up to but not including `k`. */
  function PendingBetween(rows: seq<Row>, t: nat, k: nat): nat
    requires k <= |rows|
    decreases k - t
  {
    if t >= k then 0 else (if rows[t].status == Pending then 1 else 0) + PendingBetween(rows, t + 1, k)
  }

  /** The list holds exactly the first `limit` pending rows: a pending row is on it if
      and only if fewer than `limit` pending rows come before it. */
  lemma {:induction false} FirstPendingAreListed(rows: seq<Row>, t: nat, limit: nat, k: nat)
    requires t <= k < |rows| && rows[k].status == Pending
    ensures Snapshot(k, rows[k].checkpoint) in PendingFrom(rows, t, limit) <==> PendingBetween(rows, t, k) < limit
    decreases k - t
  {
    if t < k {
      FirstPendingAreListed(rows, t + 1, if rows[t].status == Pending && limit > 0 then limit - 1 else limit, k);
    } else if limit > 0 {
      assert PendingFrom(rows, t, limit)[0] == Snapshot(k, rows[k].checkpoint);
    }
  }

  // ---------------------------------------------------------------- steps

  /** `processNext` takes the next listed task and tries to claim it. */
  function ClaimNext(s: State): (s': State)
    requires Wf(s) && s.poller.Claiming?
    ensures Wf(s')
  {
    if s.batch == [] then s.(poller := Idle)
    else
      var head, rest := s.batch[0], s.batch[1..];
      if s.rows[head.task].status != Pending then s.(batch := rest)
      else
        var claimed := s.(rows := SetStatus(s.rows, head.task, Running), batch := rest);
        match s.rows[head.task].kind
        case BatchCreateMulti => claimed.(poller := Marking(head.task, Running))
        case UnknownKind => claimed.(poller := Marking(head.task, Failed))
        case _ => claimed.(runners := s.runners + [Runner(head.task, head.checkpoint, AwaitSlot)])
  }

  /** A runner together with the row and the history it works on. */
  datatype Local = Local(me: Runner, row: Row, h: History)

  function Goto(l: Local, phase: Phase): Local {
    l.(me := l.me.(phase := phase))
  }

  /** `UpdateTaskStatus` by a runner, which then moves on. */
  function WriteStatus(l: Local, status: Status, next: Phase): Local {
    Goto(l, next).(row := l.row.(status := status))
  }

  /** `saveCheckpoint(task, &payload, index)` by a runner, which then moves on. */
  function SaveCheckpoint(l: Local, index: nat, next: Phase): Local {
    l.(me := Runner(l.me.task, index, next), row := l.row.(checkpoint := index))
  }

  /** One step of a runner on its own data. `free` tells whether the semaphore has
      a free slot; `ok` is the answer of the outside world where the step asks for
      one: the set-up, the launch, the interruptible sleep. */
  function AdvanceLocal(l: Local, free: bool, stopping: bool, ok: bool): Local {
    match l.me.phase
    case AwaitSlot => if free then Goto(l, SettingUp) else l
    case SettingUp => Goto(l, if ok then LoopTop else WritingFailed)
    case LoopTop =>
      Goto(l, if l.me.index >= l.row.total then WritingCompleted
              else if stopping then SavingInterrupted else CheckingStatus)
    case CheckingStatus => Goto(l, if l.row.status == Running then MarkingRunning else SavingInterrupted)
    case MarkingRunning => WriteStatus(l, Running, Launching)
    case Launching => Goto(l, Reporting(ok)).(h := l.h.(launches := l.h.launches + [l.me.index]))
    case Reporting(launched) =>
      if launched && l.row.kind == BatchStart then Goto(l, Saving(launched))
      else WriteStatus(l, Running, Saving(launched))
    case Saving(launched) =>
      SaveCheckpoint(l, l.me.index + 1, if launched && l.row.kind == BatchCreate then Sleeping else LoopTop)
    case Sleeping => Goto(l, if stopping && !ok then SavingInterrupted else LoopTop)
    case SavingInterrupted => SaveCheckpoint(l, l.me.index, WritingPending)
    case WritingPending => WriteStatus(l, Pending, Releasing)
    case WritingCompleted => WriteStatus(l, Completed, Releasing)
    case WritingFailed => WriteStatus(l, Failed, Releasing)
    case Releasing => Goto(l, Gone)
    case Gone => l
  }

  /** A panic inside the runner: `runWithSem` recovers and marks the task failed. */
  function PanicLocal(l: Local): Local {
    if l.me.phase.Active() && l.me.phase.Inside() then
      Goto(l, WritingFailed).(
        h := l.h.(hits := l.h.hits + 1, lost := l.h.lost + if l.me.phase.InWindow() then 1 else 0))
    else l
  }

  function LocalOf(s: State, r: nat): Local
    requires Wf(s) && r < |s.runners|
  {
    var me := s.runners[r];
    Local(me, s.rows[me.task], s.history[me.task])
  }

  /** The semaphore after a runner went from one phase to another. */
  function SlotsAfter(slots: nat, was: Phase, now: Phase): nat {
    if !was.Inside() && now.Inside() then slots + 1
    else if was.Inside() && !now.Inside() && slots > 0 then slots - 1
    else slots
  }

  function Put(s: State, r: nat, l: Local): (s': State)
    requires Wf(s) && r < |s.runners| && l.me.task == s.runners[r].task
    ensures Wf(s')
  {
    var t := l.me.task;
    s.(rows := s.rows[t := l.row], history := s.history[t := l.h], runners := s.runners[r := l.me],
       slots := SlotsAfter(s.slots, s.runners[r].phase, l.me.phase))
  }

  function AdvanceRunner(s: State, r: nat, ok: bool): (s': State)
    requires Wf(s) && r < |s.runners|
    ensures Wf(s')
  {
    Put(s, r, AdvanceLocal(LocalOf(s, r), s.slots < MAX_SLOTS, s.stopping, ok))
  }

  function PanicRunner(s: State, r: nat): (s': State)
    requires Wf(s) && r < |s.runners|
    ensures Wf(s')
  {
    Put(s, r, PanicLocal(LocalOf(s, r)))
  }

  predicate ActiveOn(s: State, t: nat) {
    exists r :: 0 <= r < |s.runners| && s.runners[r].task == t && s.runners[r].phase.Active()
  }

  predicate InWindowOn(s: State, t: nat) {
    exists r :: 0 <= r < |s.runners| && s.runners[r].task == t && s.runners[r].phase.InWindow()
  }

  function CrashHistory(s: State, t: nat): History
    requires Wf(s) && t < |s.rows|
  {
    var h := s.history[t];
    h.(hits := h.hits + if ActiveOn(s, t) then 1 else 0, lost := h.lost + if InWindowOn(s, t) then 1 else 0)
  }

  /** The process dies: the rows survive, every goroutine and the semaphore do
      not. The next process starts at once, before its first reset. */
  function CrashAll(s: State): (s': State)
    requires Wf(s)
    ensures Wf(s')
  {
    State(s.rows,
          seq(|s.rows|, t requires 0 <= t < |s.rows| => CrashHistory(s, t)),
          seq(|s.runners|, r requires 0 <= r < |s.runners| => s.runners[r].(phase := Gone)),
          0, false, false, Booting, [])
  }

  function SetTask(s: State, t: nat, status: Status): (s': State)
    requires Wf(s)
    ensures Wf(s')
  {
    if t < |s.rows| then s.(rows := SetStatus(s.rows, t, status)) else s
  }

  function Step(s: State, e: Event): (s': State)
    requires Wf(s)
    ensures Wf(s')
  {
    match e
    case SubmitTask(kind, total) =>
      var status := if kind == BatchCreateMulti then Running else Pending;
      s.(rows := s.rows + [Row(kind, total, status, 0)], history := s.history + [History([], 0, 0)])
    case StopTask(t) => SetTask(s, t, Cancelled)
    case PauseTask(t) => SetTask(s, t, Paused)
    case ResumeTask(t) => SetTask(s, t, Pending)
    case BootReset => if s.poller.Booting? then s.(rows := ResetRunning(s.rows), poller := Idle) else s
    case Poll => if s.poller.Idle? then s.(poller := Claiming, batch := PendingFrom(s.rows, 0, POLL_LIMIT)) else s
    case Claim => if s.poller.Claiming? then ClaimNext(s) else s
    case Mark =>
      if s.poller.Marking? then s.(rows := SetStatus(s.rows, s.poller.task, s.poller.mark), poller := Claiming) else s
    case SeeStop => if s.poller.Idle? && s.stopping then s.(poller := Stopped) else s
    case PollerPanic => if s.poller.Stopped? then s else s.(poller := Booting, batch := [])
    case Advance(r, ok) => if r < |s.runners| then AdvanceRunner(s, r, ok) else s
    case RunnerPanic(r) => if r < |s.runners| then PanicRunner(s, r) else s
    case CloseStop => if s.stopping then s else s.(stopping := true, resetDue := true)
    case ShutdownReset => if s.resetDue then s.(rows := ResetRunning(s.rows), resetDue := false) else s
    case Crash => CrashAll(s)
  }

  /** The state after a whole run. */
  function Run(s: State, events: seq<Event>): (s': State)
    requires Wf(s)
    ensures Wf(s')
    decreases |events|
  {
    if events == [] then s else Run(Step(s, events[0]), events[1..])
  }
}
