/** The guard on operators and resets under which a task with a live runner is never
    pending and never listed, so that every claim is fresh. */
module WorkerOrder {
  import opened BatchWorker
  import opened WorkerSafety
  import opened WorkerSteady

  /** Nobody turns the row of a task with a live runner back to pending. */
  predicate Careful(s: State, e: Event)
    requires Wf(s)
  {
    match e
    case ResumeTask(t) => !ActiveOn(s, t)
    case BootReset => s.poller.Booting? ==> NoLiveRunning(s)
    case ShutdownReset => s.resetDue ==> NoLiveRunning(s)
    case _ => true
  }

  predicate NoLiveRunning(s: State) requires Wf(s) {
    forall r :: 0 <= r < |s.runners| && s.runners[r].phase.Active() ==> s.rows[s.runners[r].task].status != Running
  }

  predicate NoLivePending(s: State) requires Wf(s) {
    forall r :: 0 <= r < |s.runners| && s.runners[r].phase.Active() ==> s.rows[s.runners[r].task].status != Pending
  }

  predicate BatchFresh(s: State) requires Wf(s) {
    && (forall i :: 0 <= i < |s.batch| ==> Fresh(s, s.batch[i]))
    && (forall i, j :: 0 <= i < j < |s.batch| ==> s.batch[i].task != s.batch[j].task)
  }

  predicate Orderly(s: State) {
    Steady(s) && NoLivePending(s) && BatchFresh(s)
  }

  lemma OrderlyClaimsAreFresh(s: State, e: Event)
    requires Orderly(s)
    ensures FreshClaim(s, e)
  {}

  /** Moving a live runner: the other tasks do not notice. */
  lemma PutKeepsApart(s: State, r: nat, l: Local)
    requires Orderly(s) && r < |s.runners| && l.me.task == s.runners[r].task && s.runners[r].phase.Active()
    requires l.me.phase.Active() ==> l.row.status != Pending
    ensures NoLivePending(Put(s, r, l)) && BatchFresh(Put(s, r, l))
  {
    var s' := Put(s, r, l);
    forall i | 0 <= i < |s'.batch| ensures Fresh(s', s'.batch[i]) {
      assert Fresh(s, s.batch[i]);
      assert ActiveOn(s, l.me.task);
      OtherTaskUnmoved(s, r, l, s.batch[i].task);
    }
  }

  lemma AdvanceLocalStaysClaimed(l: Local, free: bool, stopping: bool, ok: bool)
    requires l.me.phase.Active() && l.row.status != Pending
    ensures var l' := AdvanceLocal(l, free, stopping, ok);
            l'.me.task == l.me.task && (l'.me.phase.Active() ==> l'.row.status != Pending)
  {}

  lemma IdlePutKeepsApart(s: State, r: nat, l: Local)
    requires Orderly(s) && r < |s.runners| && l.me.task == s.runners[r].task
    requires !s.runners[r].phase.Active() && !l.me.phase.Active() && l.row == s.rows[l.me.task]
    ensures NoLivePending(Put(s, r, l)) && BatchFresh(Put(s, r, l))
  {
    var s' := Put(s, r, l);
    assert s'.rows == s.rows;
    forall i | 0 <= i < |s'.batch| ensures Fresh(s', s'.batch[i]) {
      IdlePutUnnoticed(s, r, l, s.batch[i].task);
      assert Fresh(s, s.batch[i]);
    }
  }

  lemma RunnerMoveKeepsApart(s: State, r: nat, ok: bool)
    requires Orderly(s) && r < |s.runners|
    ensures NoLivePending(AdvanceRunner(s, r, ok)) && BatchFresh(AdvanceRunner(s, r, ok))
  {
    var l := LocalOf(s, r);
    if l.me.phase.Active() {
      AdvanceLocalStaysClaimed(l, s.slots < MAX_SLOTS, s.stopping, ok);
      PutKeepsApart(s, r, AdvanceLocal(l, s.slots < MAX_SLOTS, s.stopping, ok));
    } else {
      assert AdvanceLocal(l, s.slots < MAX_SLOTS, s.stopping, ok) == Goto(l, Gone);
      IdlePutKeepsApart(s, r, Goto(l, Gone));
    }
  }

  lemma RunnerPanicKeepsApart(s: State, r: nat)
    requires Orderly(s) && r < |s.runners|
    ensures NoLivePending(PanicRunner(s, r)) && BatchFresh(PanicRunner(s, r))
  {
    if s.runners[r].phase.Active() {
      PutKeepsApart(s, r, PanicLocal(LocalOf(s, r)));
    } else {
      IdlePutKeepsApart(s, r, LocalOf(s, r));
    }
  }

  /** Statuses written from outside the runners, or new rows. */
  lemma StatusWriteKeepsApart(s: State, s': State)
    requires Orderly(s) && Wf(s') && Outside(s, s') && (s'.batch == s.batch || s'.batch == [])
    requires NoLivePending(s')
    ensures BatchFresh(s')
  {
    forall i | 0 <= i < |s'.batch| ensures Fresh(s', s'.batch[i]) {
      assert Fresh(s, s.batch[i]);
    }
  }

  lemma {:induction false} PendingFromAscends(rows: seq<Row>, t: nat, limit: nat, i: nat, j: nat)
    requires t <= |rows| && i < j < |PendingFrom(rows, t, limit)|
    ensures PendingFrom(rows, t, limit)[i].task < PendingFrom(rows, t, limit)[j].task
    decreases |rows| - t
  {
    if rows[t].status != Pending {
      PendingFromAscends(rows, t + 1, limit, i, j);
    } else if i > 0 {
      PendingFromAscends(rows, t + 1, limit - 1, i - 1, j - 1);
    } else {
      assert IsListed(rows, t + 1, PendingFrom(rows, t + 1, limit - 1)[j - 1]);
    }
  }

  lemma PollKeepsApart(s: State)
    requires Orderly(s)
    ensures BatchFresh(s.(poller := Claiming, batch := PendingFrom(s.rows, 0, POLL_LIMIT)))
  {
    var s' := s.(poller := Claiming, batch := PendingFrom(s.rows, 0, POLL_LIMIT));
    forall i | 0 <= i < |s'.batch| ensures Fresh(s', s'.batch[i]) {
      assert IsListed(s.rows, 0, s'.batch[i]);
    }
    forall i, j | 0 <= i < j < |s'.batch| ensures s'.batch[i].task != s'.batch[j].task {
      PendingFromAscends(s.rows, 0, POLL_LIMIT, i, j);
    }
  }

  lemma ClaimKeepsApart(s: State)
    requires Orderly(s) && s.poller.Claiming?
    ensures NoLivePending(ClaimNext(s)) && BatchFresh(ClaimNext(s))
  {
    if s.batch != [] {
      var s', head, rest := ClaimNext(s), s.batch[0], s.batch[1..];
      assert Fresh(s, head) && s'.batch == rest;
      assert forall i :: 0 <= i < |rest| ==> rest[i] == s.batch[i + 1];
      forall i | 0 <= i < |rest| ensures Fresh(s', rest[i]) {
        assert Fresh(s, s.batch[i + 1]);
        if Claims(s, Claim) { SpawnUnnoticed(s, Runner(head.task, head.checkpoint, AwaitSlot), rest[i].task); }
      }
    }
  }

  lemma OutsideKeepsPendingApart(s: State, e: Event)
    requires Orderly(s) && Careful(s, e)
    requires !e.Advance? && !e.RunnerPanic? && !e.Claim? && !e.Crash?
    ensures NoLivePending(Step(s, e))
  {
    var s' := Step(s, e);
    assert s'.runners == s.runners;
  }

  lemma StepKeepsOrderly(s: State, e: Event)
    requires Orderly(s) && Careful(s, e)
    ensures Orderly(Step(s, e))
  {
    OrderlyClaimsAreFresh(s, e);
    StepKeepsSteady(s, e);
    StepKeepsApart(s, e);
  }

  lemma StepKeepsApart(s: State, e: Event)
    requires Orderly(s) && Careful(s, e)
    ensures NoLivePending(Step(s, e)) && BatchFresh(Step(s, e))
  {
    match e
    case Advance(r, ok) => if r < |s.runners| { RunnerMoveKeepsApart(s, r, ok); }
    case RunnerPanic(r) => if r < |s.runners| { RunnerPanicKeepsApart(s, r); }
    case Claim => if s.poller.Claiming? { ClaimKeepsApart(s); }
    case Poll => PollKeepsApart(s);
    case Crash =>
    case _ =>
      OutsideKeepsPendingApart(s, e);
      OthersWriteStatuses(s, e);
      StatusWriteKeepsApart(s, Step(s, e));
  }

  /** A run every step of which is careful. */
  predicate CarefulRun(s: State, events: seq<Event>)
    requires Wf(s)
    decreases |events|
  {
    events == [] || (Careful(s, events[0]) && CarefulRun(Step(s, events[0]), events[1..]))
  }

  lemma {:induction false} CarefulRunKeepsOrderly(s: State, events: seq<Event>)
    requires Orderly(s) && CarefulRun(s, events)
    ensures Orderly(Run(s, events))
    decreases |events|
  {
    if events != [] {
      StepKeepsOrderly(s, events[0]);
      CarefulRunKeepsOrderly(Step(s, events[0]), events[1..]);
    }
  }

  /** Careful runs are runs in which every claim is fresh. */
  lemma {:induction false} CarefulRunsAreFresh(s: State, events: seq<Event>)
    requires Orderly(s) && CarefulRun(s, events)
    ensures FreshRun(s, events)
    decreases |events|
  {
    if events != [] {
      OrderlyClaimsAreFresh(s, events[0]);
      StepKeepsOrderly(s, events[0]);
      CarefulRunsAreFresh(Step(s, events[0]), events[1..]);
    }
  }

  /** A restart of the process brings back order, whatever went before. */
  lemma RestartIsOrderly(s: State)
    requires Steady(s)
    ensures Orderly(Step(s, Crash))
  {
    CrashKeepsSteady(s);
  }

  /** Once the poll loop has stopped nothing is claimed until the process ends, so a
      shutdown asks for no guard: resets, resumes and saved checkpoints included. */
  lemma {:induction false} StoppedPollerIsFresh(s: State, events: seq<Event>)
    requires Wf(s) && s.poller.Stopped? && forall k :: 0 <= k < |events| ==> !events[k].Crash?
    ensures FreshRun(s, events)
    decreases |events|
  {
    if events != [] {
      assert Step(s, events[0]).poller.Stopped?;
      StoppedPollerIsFresh(Step(s, events[0]), events[1..]);
    }
  }
}
