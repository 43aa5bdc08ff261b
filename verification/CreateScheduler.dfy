/** The scheduler of recurring creations: a single pump polls the stored schedules
    and starts a run for each one that is due; a run stores what remains to be
    launched when it ends. Operators, runs and the pump interleave freely. */
module CreateScheduler {
  import opened CreateRun
  import opened Options

  datatype Row = Row(count: int, paused: bool, interval: int, lastRun: Option<int>)

  datatype Phase = Preparing | Launching(cursor: Cursor) | Ended

  /** A run in flight, with the count of the row it was started from. */
  datatype Run = Run(id: nat, requested: int, phase: Phase)

  /** A row as it was when the pump listed it. */
  datatype Entry = Entry(id: nat, row: Row)

  /** `launched` and `asked` are kept for the properties: how many instances were
      launched for a schedule, and how many its operator wants in all. */
  datatype State = State(now: int, nextId: nat, rows: map<nat, Row>, running: set<nat>, runs: seq<Run>,
                         listed: seq<Entry>, pumpAt: int, launched: map<nat, int>, asked: map<nat, int>)

  datatype Event =
    | Tick(seconds: nat)
    | Create(count: int, interval: int)
    | Edit(id: nat, row: Row)
    | SetPaused(id: nat, paused: bool)
    | Delete(id: nat)
    | List
    | Consider
    | GiveUp(k: nat, deletes: bool)
    | Prepared(k: nat, ads: seq<bool>)
    | Answered(k: nat, answer: Answer)
    | Finish(k: nat)
    | Leave(k: nat)
    | Panic(k: nat)
    | Crash

  function Start(now: int): State {
    State(now, 1, map[], {}, [], [], now, map[], map[])
  }

  // --------------------------------------------------------------------- steps

  /** `ListActiveCreateTasks`, in the order of the ids. */
  function ActiveRows(rows: map<nat, Row>, from: nat, end: nat): seq<Entry>
    decreases end - from
  {
    if from >= end then []
    else (if from in rows && !rows[from].paused && rows[from].count > 0 then [Entry(from, rows[from])] else [])
         + ActiveRows(rows, from + 1, end)
  }

  function WithoutRun(st: State, k: nat): State
    requires k < |st.runs|
  {
    st.(runs := st.runs[..k] + st.runs[k + 1..], running := st.running - {st.runs[k].id})
  }

  function WithPhase(st: State, k: nat, phase: Phase): State
    requires k < |st.runs|
  {
    st.(runs := st.runs[k := st.runs[k].(phase := phase)])
  }

  /** The pump starts a run for the listed row, unless one is in flight or the
      interval has not passed. */
  predicate Due(st: State, entry: Entry) {
    entry.id !in st.running && (entry.row.lastRun.Some? ==> st.pumpAt - entry.row.lastRun.value >= entry.row.interval)
  }

  function StartRun(st: State, entry: Entry): State {
    st.(running := st.running + {entry.id},
        rows := if entry.id !in st.rows then st.rows
                else st.rows[entry.id := st.rows[entry.id].(lastRun := Some(st.now))],
        runs := st.runs + [Run(entry.id, entry.row.count, Preparing)])
  }

  function ConsiderNext(st: State): State
    requires st.listed != []
  {
    var entry, rest := st.listed[0], st.(listed := st.listed[1..]);
    if Due(st, entry) then StartRun(rest, entry) else rest
  }

  /** What a finished run does to its row. */
  function Closed(st: State, id: nat, t: Tally): State {
    if t.denied || t.remaining <= 0 then st.(rows := st.rows - {id})
    else if id in st.rows then st.(rows := st.rows[id := st.rows[id].(count := t.remaining)])
    else st
  }

  function AnswerRun(st: State, k: nat, answer: Answer): State
    requires k < |st.runs| && st.runs[k].phase.Launching? && st.runs[k].phase.cursor.ads != []
  {
    var id, c := st.runs[k].id, st.runs[k].phase.cursor;
    var next := WithPhase(st, k, Launching(Attempt(c, answer)));
    if answer.Launched? && id in st.launched then next.(launched := st.launched[id := st.launched[id] + 1]) else next
  }

  /** Events that cannot happen in a state leave it as it is. */
  function Step(st: State, e: Event): State {
    match e
    case Tick(seconds) => st.(now := st.now + seconds)
    case Create(count, interval) =>
      st.(nextId := st.nextId + 1, rows := st.rows[st.nextId := Row(count, false, interval, None)],
          launched := st.launched[st.nextId := 0], asked := st.asked[st.nextId := count])
    case Edit(id, row) =>
      if id !in st.rows || id !in st.launched then st
      else st.(rows := st.rows[id := row.(lastRun := st.rows[id].lastRun)],
               asked := st.asked[id := st.launched[id] + row.count])
    case SetPaused(id, paused) =>
      if id !in st.rows then st else st.(rows := st.rows[id := st.rows[id].(paused := paused)])
    case Delete(id) => st.(rows := st.rows - {id})
    case List =>
      if st.listed != [] then st else st.(listed := ActiveRows(st.rows, 0, st.nextId), pumpAt := st.now)
    case Consider => if st.listed == [] then st else ConsiderNext(st)
    case GiveUp(k, deletes) =>
      if k >= |st.runs| || !st.runs[k].phase.Preparing? then st
      else
        var ended := WithPhase(st, k, Ended);
        if deletes then ended.(rows := ended.rows - {st.runs[k].id}) else ended
    case Prepared(k, ads) =>
      if k >= |st.runs| || !st.runs[k].phase.Preparing? || ads == [] then st
      else WithPhase(st, k, Launching(Begin(st.runs[k].requested, ads)))
    case Answered(k, answer) =>
      if k >= |st.runs| || !st.runs[k].phase.Launching? || st.runs[k].phase.cursor.ads == [] then st
      else AnswerRun(st, k, answer)
    case Finish(k) =>
      if k >= |st.runs| || !st.runs[k].phase.Launching? || st.runs[k].phase.cursor.ads != [] then st
      else Closed(WithPhase(st, k, Ended), st.runs[k].id, st.runs[k].phase.cursor.tally)
    case Leave(k) =>
      if k >= |st.runs| || !st.runs[k].phase.Ended? then st else WithoutRun(st, k)
    case Panic(k) =>
      if k >= |st.runs| then st else WithoutRun(st, k)
    case Crash => st.(running := {}, runs := [], listed := [])
  }

  function Reach(st: State, events: seq<Event>): State
    decreases |events|
  {
    if events == [] then st else Step(Reach(st, events[..|events| - 1]), events[|events| - 1])
  }

  // ------------------------------------------------------------- the scheduler

  /** Considers the first `n` listed schedules. */
  function Considered(st: State, n: nat): (st': State)
    requires n <= |st.listed|
    ensures st'.listed == st.listed[n..]
  {
    if n == 0 then st else ConsiderNext(Considered(st, n - 1))
  }

  /** A whole pass of the pump. */
  function Pumped(st: State): State {
    var listing := Step(st, List);
    Considered(listing, |listing.listed|)
  }

  /** What may fall between the checks of a pass. */
  predicate Foreign(e: Event) {
    !e.List? && !e.Consider? && !e.Crash?
  }

  /** A pass over `n` listed schedules with `others(i)` before check number `i`. */
  function PassEvents(n: nat, others: nat -> seq<Event>): seq<Event> {
    if n == 0 then [List] else PassEvents(n - 1, others) + others(n - 1) + [Consider]
  }

  lemma {:induction false} ReachConcat(st: State, a: seq<Event>, b: seq<Event>)
    ensures Reach(st, a + b) == Reach(Reach(st, a), b)
    decreases |b|
  {
    if b == [] {
      assert a + b == a;
    } else {
      assert (a + b)[..|a + b| - 1] == a + b[..|b| - 1];
      ReachConcat(st, a, b[..|b| - 1]);
    }
  }

  lemma {:induction false} ForeignKeepsList(st: State, events: seq<Event>)
    requires forall e :: e in events ==> Foreign(e)
    ensures Reach(st, events).listed == st.listed
    decreases |events|
  {
    if events != [] {
      ForeignKeepsList(st, events[..|events| - 1]);
      assert Foreign(events[|events| - 1]);
    }
  }

  lemma PassBegins(st: State, others: nat -> seq<Event>) returns (next: State)
    ensures next == Reach(st, PassEvents(0, others)) == Step(st, List)
  {
    next := Step(st, List);
    assert [List][..0] == [];
    assert Reach(st, []) == st;
  }

  lemma PassGoesOn(st: State, n: nat, others: nat -> seq<Event>, reached: State) returns (next: State)
    requires reached == Reach(st, PassEvents(n, others))
    ensures next == Reach(st, PassEvents(n + 1, others)) == Step(Reach(reached, others(n)), Consider)
  {
    next := Reach(st, PassEvents(n + 1, others));
    var before := PassEvents(n, others) + others(n);
    ReachConcat(st, PassEvents(n, others), others(n));
    assert (before + [Consider])[..|before|] == before;
  }

  class Scheduler {
    var now: int
    var nextId: nat
    var rows: map<nat, Row>
    var running: set<nat>
    var runs: seq<Run>
    var pumpAt: int
    var launched: map<nat, int>
    var asked: map<nat, int>

    constructor (now: int)
      ensures Snapshot([]) == Start(now)
    {
      this.now, nextId, rows, running, runs, pumpAt, launched, asked := now, 1, map[], {}, [], now, map[], map[];
    }

    function Snapshot(listed: seq<Entry>): State
      reads this
    {
      State(now, nextId, rows, running, runs, listed, pumpAt, launched, asked)
    }

    method ListActive() returns (list: seq<Entry>)
      ensures list == ActiveRows(rows, 0, nextId)
    {
      list := [];
      for id := 0 to nextId
        invariant list + ActiveRows(rows, id, nextId) == ActiveRows(rows, 0, nextId)
      {
        if id in rows && !rows[id].paused && rows[id].count > 0 { list := list + [Entry(id, rows[id])]; }
      }
    }

    /** What operators, runs and the clock do between two checks of the pump. */
    method Meanwhile(rest: seq<Entry>, events: seq<Event>)
      requires forall e :: e in events ==> Foreign(e)
      modifies this
      ensures Snapshot(rest) == Reach(old(Snapshot(rest)), events)
    {
      ForeignKeepsList(Snapshot(rest), events);
      var st := Reach(Snapshot(rest), events);
      now, nextId, rows, running := st.now, st.nextId, st.rows, st.running;
      runs, pumpAt, launched, asked := st.runs, st.pumpAt, st.launched, st.asked;
    }

    method CheckNext(tasks: seq<Entry>, i: nat, events: seq<Event>)
      requires i < |tasks| && forall e :: e in events ==> Foreign(e)
      modifies this
      ensures Snapshot(tasks[i + 1..]) == Step(Reach(old(Snapshot(tasks[i..])), events), Consider)
    {
      Meanwhile(tasks[i..], events);
      assert tasks[i..] == [tasks[i]] + tasks[i + 1..];
      StartIfDue(tasks[i], tasks[i + 1..]);
    }

    /** The listing of a pass. */
    method BeginPass() returns (tasks: seq<Entry>)
      modifies this`pumpAt
      ensures tasks == ActiveRows(rows, 0, nextId) && Snapshot(tasks) == Step(old(Snapshot([])), List)
    {
      tasks := ListActive();
      pumpAt := now;
    }

    /** `pumpCreateTasks`; `others(i)` happens before the check of task number `i`. */
    method PumpCreateTasks(others: nat -> seq<Event>) returns (tasks: seq<Entry>)
      requires forall i: nat, e :: e in others(i) ==> Foreign(e)
      modifies this
      ensures tasks == ActiveRows(old(rows), 0, old(nextId))
      ensures Snapshot([]) == Reach(old(Snapshot([])), PassEvents(|tasks|, others))
    {
      ghost var was := Snapshot([]);
      tasks := BeginPass();
      ghost var reached := PassBegins(was, others);
      assert tasks[0..] == tasks;
      for i := 0 to |tasks|
        invariant Snapshot(tasks[i..]) == reached
        invariant reached == Reach(was, PassEvents(i, others))
      {
        reached := PassGoesOn(was, i, others, reached);
        CheckNext(tasks, i, others(i));
      }
      assert tasks[|tasks|..] == [];
    }

    method StartIfDue(t: Entry, ghost rest: seq<Entry>)
      modifies this`running, this`rows, this`runs
      ensures Snapshot(rest) == ConsiderNext(old(Snapshot([t] + rest)))
    {
      assert ([t] + rest)[1..] == rest;
      if t.id in running { return; }
      if t.row.lastRun.Some? && pumpAt - t.row.lastRun.value < t.row.interval { return; }
      running := running + {t.id};
      if t.id in rows { rows := rows[t.id := rows[t.id].(lastRun := Some(now))]; }
      runs := runs + [Run(t.id, t.row.count, Preparing)];
    }

    /** The end of `runCreateTask`, after the launch loops. */
    method FinishRun(k: nat)
      requires k < |runs| && runs[k].phase.Launching? && runs[k].phase.cursor.ads == []
      modifies this
      ensures Snapshot([]) == Step(old(Snapshot([])), Finish(k))
    {
      var id, t := runs[k].id, runs[k].phase.cursor.tally;
      runs := runs[k := runs[k].(phase := Ended)];
      if t.denied {
        rows := rows - {id};
        return;
      }
      if t.remaining <= 0 {
        rows := rows - {id};
        return;
      }
      if id in rows { rows := rows[id := rows[id].(count := t.remaining)]; }
    }
  }

  // ------------------------------------------ in flight at most once, and not too often

  ghost predicate OneRunEach(st: State) {
    && (forall i, j :: 0 <= i < j < |st.runs| ==> st.runs[i].id != st.runs[j].id)
    && (forall i :: 0 <= i < |st.runs| ==> st.runs[i].id in st.running)
  }

  ghost predicate KnownIds(st: State) {
    && (forall id :: id in st.rows ==> id < st.nextId && id in st.launched && id in st.asked)
    && (forall id :: id in st.launched || id in st.asked ==> id < st.nextId)
    && (forall i :: 0 <= i < |st.runs| ==> st.runs[i].id < st.nextId)
    && (forall i :: 0 <= i < |st.listed| ==> st.listed[i].id < st.nextId)
  }

  ghost predicate DistinctEntries(list: seq<Entry>) {
    forall i, j :: 0 <= i < j < |list| ==> list[i].id != list[j].id
  }

  /** What the pump has listed is still true of the last runs. */
  ghost predicate ListedOnce(st: State) {
    && DistinctEntries(st.listed)
    && (forall i :: 0 <= i < |st.listed| && st.listed[i].id in st.rows ==>
          st.rows[st.listed[i].id].lastRun == st.listed[i].row.lastRun)
    && st.pumpAt <= st.now
  }

  /** The tally of each run adds up to what it was asked for. */
  ghost predicate TalliesAddUp(st: State) {
    forall i :: 0 <= i < |st.runs| && st.runs[i].phase.Launching? ==>
      var t := st.runs[i].phase.cursor.tally; t.success + t.remaining == st.runs[i].requested
  }

  ghost predicate Sound(st: State) {
    OneRunEach(st) && KnownIds(st) && ListedOnce(st) && TalliesAddUp(st)
  }

  lemma {:induction false} ActiveRowsAre(rows: map<nat, Row>, from: nat, end: nat)
    ensures forall e :: e in ActiveRows(rows, from, end) ==> from <= e.id < end && e.id in rows && e.row == rows[e.id]
    ensures forall e :: e in ActiveRows(rows, from, end) ==> !e.row.paused && e.row.count > 0
    ensures DistinctEntries(ActiveRows(rows, from, end))
    decreases end - from
  {
    if from < end {
      ActiveRowsAre(rows, from + 1, end);
      var tail := ActiveRows(rows, from + 1, end);
      assert forall i :: 0 <= i < |tail| ==> tail[i] in tail;
    }
  }

  /** The listing holds exactly the schedules that are not paused and ask for more. */
  lemma {:induction false} ActiveRowsAreAll(rows: map<nat, Row>, from: nat, end: nat, id: nat, row: Row)
    ensures Entry(id, row) in ActiveRows(rows, from, end) <==>
            from <= id < end && id in rows && row == rows[id] && !row.paused && row.count > 0
    decreases end - from
  {
    if from < end { ActiveRowsAreAll(rows, from + 1, end, id, row); }
  }

  lemma ConsiderKeepsSound(st: State)
    requires Sound(st) && st.listed != []
    ensures Sound(ConsiderNext(st))
  {
    var entry, rest := st.listed[0], st.(listed := st.listed[1..]);
    assert forall i :: 0 <= i < |rest.listed| ==> rest.listed[i] == st.listed[i + 1];
  }

  lemma RemovalKeepsSound(st: State, k: nat)
    requires Sound(st) && k < |st.runs|
    ensures Sound(WithoutRun(st, k))
  {
    var st' := WithoutRun(st, k);
    assert forall i :: 0 <= i < |st'.runs| ==> st'.runs[i] == st.runs[if i < k then i else i + 1];
  }

  lemma AttemptAddsUp(c: Cursor, a: Answer)
    requires c.ads != []
    ensures Attempt(c, a).tally == Count(c.tally, a)
  {
  }

  lemma AnswerKeepsSound(st: State, k: nat, answer: Answer)
    requires Sound(st) && k < |st.runs| && st.runs[k].phase.Launching? && st.runs[k].phase.cursor.ads != []
    ensures Sound(AnswerRun(st, k, answer))
  {
    AttemptAddsUp(st.runs[k].phase.cursor, answer);
  }

  lemma ListKeepsSound(st: State)
    requires Sound(st)
    ensures Sound(Step(st, List))
  {
    ActiveRowsAre(st.rows, 0, st.nextId);
    var list := ActiveRows(st.rows, 0, st.nextId);
    assert forall i :: 0 <= i < |list| ==> list[i] in list;
  }

  lemma OperatorKeepsSound(st: State, e: Event)
    requires Sound(st) && (e.Tick? || e.Create? || e.Edit? || e.SetPaused? || e.Delete? || e.Crash?)
    ensures Sound(Step(st, e))
  {
  }

  lemma PhaseKeepsSound(st: State, k: nat, phase: Phase)
    requires Sound(st) && k < |st.runs|
    requires phase.Launching? ==>
               phase.cursor.tally.success + phase.cursor.tally.remaining == st.runs[k].requested
    ensures Sound(WithPhase(st, k, phase))
  {
  }

  lemma CloseKeepsSound(st: State, id: nat, t: Tally)
    requires Sound(st)
    ensures Sound(Closed(st, id, t))
  {
  }

  lemma RunEventKeepsSound(st: State, e: Event)
    requires Sound(st) && (e.GiveUp? || e.Prepared? || e.Finish?)
    ensures Sound(Step(st, e))
  {
    if e.k < |st.runs| {
      PhaseKeepsSound(st, e.k, Ended);
      var ended := WithPhase(st, e.k, Ended);
      match e
      case GiveUp(k, _) => CloseKeepsSound(ended, st.runs[k].id, Tally(0, 0, 0, true));
      case Prepared(k, ads) => PhaseKeepsSound(st, k, Launching(Begin(st.runs[k].requested, ads)));
      case Finish(k) =>
        if st.runs[k].phase.Launching? { CloseKeepsSound(ended, st.runs[k].id, st.runs[k].phase.cursor.tally); }
    }
  }

  lemma StepKeepsSound(st: State, e: Event)
    requires Sound(st)
    ensures Sound(Step(st, e))
  {
    match e
    case List => ListKeepsSound(st);
    case Consider => if st.listed != [] { ConsiderKeepsSound(st); }
    case Answered(k, answer) =>
      if k < |st.runs| && st.runs[k].phase.Launching? && st.runs[k].phase.cursor.ads != [] {
        AnswerKeepsSound(st, k, answer);
      }
    case Leave(k) => if k < |st.runs| { RemovalKeepsSound(st, k); }
    case Panic(k) => if k < |st.runs| { RemovalKeepsSound(st, k); }
    case GiveUp(_, _) => RunEventKeepsSound(st, e);
    case Prepared(_, _) => RunEventKeepsSound(st, e);
    case Finish(_) => RunEventKeepsSound(st, e);
    case _ => OperatorKeepsSound(st, e);
  }

  lemma {:induction false} AlwaysSound(now: int, events: seq<Event>)
    ensures Sound(Reach(Start(now), events))
    decreases |events|
  {
    if events != [] {
      AlwaysSound(now, events[..|events| - 1]);
      StepKeepsSound(Reach(Start(now), events[..|events| - 1]), events[|events| - 1]);
    }
  }

  /** At most one run per schedule is in flight, whatever operators, stale listings,
      panics and restarts do. */
  lemma AtMostOneRun(now: int, events: seq<Event>, i: nat, j: nat)
    requires var runs := Reach(Start(now), events).runs; i < j < |runs|
    ensures var runs := Reach(Start(now), events).runs; runs[i].id != runs[j].id
  {
    AlwaysSound(now, events);
  }

  /** At every point of a run, success and remaining add up to the count it was
      started with. */
  lemma RunConservesCount(now: int, events: seq<Event>, k: nat)
    requires var runs := Reach(Start(now), events).runs; k < |runs| && runs[k].phase.Launching?
    ensures var run := Reach(Start(now), events).runs[k];
            run.phase.cursor.tally.success + run.phase.cursor.tally.remaining == run.requested
  {
    AlwaysSound(now, events);
  }

  /** A run is only started from a row that was listed unpaused with a positive
      count, and not before the listed interval has passed since the last start. */
  lemma StartsAreSpaced(now: int, events: seq<Event>)
    requires var st := Reach(Start(now), events);
             st.listed != [] && st.listed[0].id in st.rows && st.rows[st.listed[0].id].lastRun.Some?
    requires var st := Reach(Start(now), events); Step(st, Consider).runs != st.runs
    ensures var st := Reach(Start(now), events);
            st.now - st.rows[st.listed[0].id].lastRun.value >= st.listed[0].row.interval
  {
    AlwaysSound(now, events);
  }

  // ------------------------------------------------- what a pass of the pump starts

  ghost predicate InFlight(st: State, id: nat) {
    exists k :: 0 <= k < |st.runs| && st.runs[k].id == id
  }

  /** The running map holds exactly the ids of the runs. */
  ghost predicate RunningIsExact(st: State) {
    forall id :: id in st.running <==> InFlight(st, id)
  }

  lemma SameIdsInFlight(st: State, st': State)
    requires |st'.runs| == |st.runs| && forall k :: 0 <= k < |st.runs| ==> st'.runs[k].id == st.runs[k].id
    ensures forall id :: InFlight(st', id) <==> InFlight(st, id)
  {
    forall id ensures InFlight(st', id) <==> InFlight(st, id) {
      if InFlight(st, id) {
        var k :| 0 <= k < |st.runs| && st.runs[k].id == id;
        assert st'.runs[k].id == id;
      }
    }
  }

  lemma StartFlies(st: State, entry: Entry, id: nat)
    ensures InFlight(StartRun(st, entry), id) <==> InFlight(st, id) || id == entry.id
  {
    var st' := StartRun(st, entry);
    if InFlight(st, id) {
      var k :| 0 <= k < |st.runs| && st.runs[k].id == id;
      assert st'.runs[k].id == id;
    }
    assert st'.runs[|st.runs|].id == entry.id;
  }

  lemma RemovalLands(st: State, k: nat, id: nat)
    requires Sound(st) && k < |st.runs|
    ensures InFlight(WithoutRun(st, k), id) <==> InFlight(st, id) && id != st.runs[k].id
  {
    var st' := WithoutRun(st, k);
    assert forall i :: 0 <= i < |st'.runs| ==> st'.runs[i] == st.runs[if i < k then i else i + 1];
    if InFlight(st, id) && id != st.runs[k].id {
      var i :| 0 <= i < |st.runs| && st.runs[i].id == id;
      assert st'.runs[if i < k then i else i - 1].id == id;
    }
  }

  lemma ConsiderKeepsRunningExact(st: State)
    requires RunningIsExact(st) && st.listed != []
    ensures RunningIsExact(ConsiderNext(st))
  {
    var rest := st.(listed := st.listed[1..]);
    SameIdsInFlight(st, rest);
    forall id ensures id in ConsiderNext(st).running <==> InFlight(ConsiderNext(st), id) {
      assert id in st.running <==> InFlight(st, id);
      StartFlies(rest, st.listed[0], id);
    }
  }

  lemma RemovalKeepsRunningExact(st: State, k: nat)
    requires Sound(st) && RunningIsExact(st) && k < |st.runs|
    ensures RunningIsExact(WithoutRun(st, k))
  {
    forall id ensures id in WithoutRun(st, k).running <==> InFlight(WithoutRun(st, k), id) {
      assert id in st.running <==> InFlight(st, id);
      RemovalLands(st, k, id);
    }
  }

  ghost predicate SameRunIds(st: State, st': State) {
    && st'.running == st.running && |st'.runs| == |st.runs|
    && forall k :: 0 <= k < |st.runs| ==> st'.runs[k].id == st.runs[k].id
  }

  lemma PhaseKeepsIds(st: State, k: nat, phase: Phase)
    requires k < |st.runs|
    ensures SameRunIds(st, WithPhase(st, k, phase))
  {
  }

  lemma OthersKeepIds(st: State, e: Event)
    requires !e.Consider? && !e.Leave? && !e.Panic? && !e.Crash?
    ensures SameRunIds(st, Step(st, e))
  {
    match e
    case GiveUp(k, _) => if k < |st.runs| { PhaseKeepsIds(st, k, Ended); }
    case Prepared(k, ads) => if k < |st.runs| { PhaseKeepsIds(st, k, Launching(Begin(st.runs[k].requested, ads))); }
    case Answered(k, a) =>
      if k < |st.runs| && st.runs[k].phase.Launching? && st.runs[k].phase.cursor.ads != [] {
        PhaseKeepsIds(st, k, Launching(Attempt(st.runs[k].phase.cursor, a)));
      }
    case Finish(k) => if k < |st.runs| { PhaseKeepsIds(st, k, Ended); }
    case _ =>
  }

  lemma StepKeepsRunningExact(st: State, e: Event)
    requires Sound(st) && RunningIsExact(st)
    ensures RunningIsExact(Step(st, e))
  {
    match e
    case Consider => if st.listed != [] { ConsiderKeepsRunningExact(st); }
    case Leave(k) => if k < |st.runs| { RemovalKeepsRunningExact(st, k); }
    case Panic(k) => if k < |st.runs| { RemovalKeepsRunningExact(st, k); }
    case Crash =>
    case _ =>
      OthersKeepIds(st, e);
      SameIdsInFlight(st, Step(st, e));
  }

  lemma {:induction false} AlwaysRunningExact(now: int, events: seq<Event>)
    ensures RunningIsExact(Reach(Start(now), events))
    decreases |events|
  {
    if events != [] {
      AlwaysSound(now, events[..|events| - 1]);
      AlwaysRunningExact(now, events[..|events| - 1]);
      StepKeepsRunningExact(Reach(Start(now), events[..|events| - 1]), events[|events| - 1]);
    }
  }

  /** The entry is due when the pass begins; entries of a listing do not get in each
      other's way. */
  ghost predicate Starts(st: State, n: nat, id: nat) {
    exists i :: 0 <= i < n && i < |st.listed| && st.listed[i].id == id && Due(st, st.listed[i])
  }

  lemma {:induction false} ConsideredStarts(st: State, n: nat, id: nat)
    requires DistinctEntries(st.listed) && n <= |st.listed|
    ensures InFlight(Considered(st, n), id) <==> InFlight(st, id) || Starts(st, n, id)
    ensures id in Considered(st, n).running <==> id in st.running || Starts(st, n, id)
    ensures Considered(st, n).pumpAt == st.pumpAt && Considered(st, n).now == st.now
    decreases n
  {
    if n > 0 {
      ConsideredStarts(st, n - 1, id);
      var entry := st.listed[n - 1];
      ConsideredStarts(st, n - 1, entry.id);
      var before := Considered(st, n - 1);
      assert before.listed[0] == entry;
      assert !Starts(st, n - 1, entry.id);
      assert Due(before, entry) <==> Due(st, entry);
      StartFlies(before.(listed := before.listed[1..]), entry, id);
      SameIdsInFlight(before, before.(listed := before.listed[1..]));
      StartsOneMore(st, n, id);
    }
  }

  lemma StartsOneMore(st: State, n: nat, id: nat)
    requires 0 < n <= |st.listed|
    ensures Starts(st, n, id) <==>
            Starts(st, n - 1, id) || (st.listed[n - 1].id == id && Due(st, st.listed[n - 1]))
  {
    if Starts(st, n - 1, id) {
      var i :| 0 <= i < n - 1 && i < |st.listed| && st.listed[i].id == id && Due(st, st.listed[i]);
    }
  }

  /** What a pass starts: afterwards a run of a schedule is in flight if and only if one
      was before, or the schedule is stored, not paused, asks for a positive count, and
      has never run or last ran at least its interval ago. */
  lemma PassStartsExactlyDue(now: int, events: seq<Event>, id: nat)
    requires Reach(Start(now), events).listed == []
    ensures var st := Reach(Start(now), events);
            (exists k :: 0 <= k < |Pumped(st).runs| && Pumped(st).runs[k].id == id) <==>
            || (exists k :: 0 <= k < |st.runs| && st.runs[k].id == id)
            || (&& id in st.rows && !st.rows[id].paused && st.rows[id].count > 0
                && (st.rows[id].lastRun.Some? ==> st.now - st.rows[id].lastRun.value >= st.rows[id].interval))
  {
    var st := Reach(Start(now), events);
    AlwaysSound(now, events);
    AlwaysRunningExact(now, events);
    var listing := Step(st, List);
    PassStarts(st, listing, id);
  }

  lemma PassStarts(st: State, listing: State, id: nat)
    requires Sound(st) && RunningIsExact(st) && st.listed == [] && listing == Step(st, List)
    ensures InFlight(Pumped(st), id) <==>
            || InFlight(st, id)
            || (&& id in st.rows && !st.rows[id].paused && st.rows[id].count > 0
                && (st.rows[id].lastRun.Some? ==> st.now - st.rows[id].lastRun.value >= st.rows[id].interval))
  {
    var n := |listing.listed|;
    ActiveRowsAre(st.rows, 0, st.nextId);
    ConsideredStarts(listing, n, id);
    SameIdsInFlight(st, listing);
    assert id in st.running <==> InFlight(st, id);
    if id in st.rows {
      ActiveRowsAreAll(st.rows, 0, st.nextId, id, st.rows[id]);
      if Entry(id, st.rows[id]) in listing.listed {
        var i :| 0 <= i < n && listing.listed[i] == Entry(id, st.rows[id]);
        assert Due(listing, listing.listed[i]) ==> Starts(listing, n, id);
      }
    }
    if Starts(listing, n, id) {
      var i :| 0 <= i < n && i < |listing.listed| && listing.listed[i].id == id && Due(listing, listing.listed[i]);
      assert listing.listed[i] in listing.listed;
    }
  }

  /** A new run, with what its start leaves in the row. */
  ghost predicate JustStarted(run: Run, was: State, now: State) {
    && run.phase == Preparing && run.id in was.rows && run.requested == was.rows[run.id].count
    && run.id in now.rows && now.rows[run.id] == was.rows[run.id].(lastRun := Some(was.now))
  }

  /** Runs and rows after some checks. */
  ghost predicate PassedFrom(st: State, now: State) {
    && st.runs <= now.runs && now.rows.Keys == st.rows.Keys && now.now == st.now && st.running <= now.running
    && (forall k :: |st.runs| <= k < |now.runs| ==>
          JustStarted(now.runs[k], st, now) && now.runs[k].id in now.running)
    && (forall id :: id in st.rows && now.rows[id] != st.rows[id] ==> id in now.running && id !in st.running)
  }

  lemma {:induction false} ConsideredPasses(st: State, n: nat)
    requires DistinctEntries(st.listed) && n <= |st.listed|
    requires forall i :: 0 <= i < |st.listed| ==>
               st.listed[i].id in st.rows && st.listed[i].row == st.rows[st.listed[i].id]
    ensures PassedFrom(st, Considered(st, n))
    decreases n
  {
    if n > 0 {
      ConsideredPasses(st, n - 1);
      var before, entry := Considered(st, n - 1), st.listed[n - 1];
      assert before.listed[0] == entry;
      if Due(before, entry) {
        assert before.rows[entry.id] == st.rows[entry.id];
        var after := Considered(st, n);
        assert after.runs[|before.runs|] == Run(entry.id, entry.row.count, Preparing);
        forall k | |st.runs| <= k < |after.runs|
          ensures JustStarted(after.runs[k], st, after) && after.runs[k].id in after.running
        {
          if k < |before.runs| {
            assert after.runs[k] == before.runs[k];
            assert before.runs[k].id != entry.id;
          }
        }
      }
    }
  }

  /** A run that a pass starts is asked for the stored count, and its row remembers the
      moment of the start. */
  lemma StartedRunsAreMarked(now: int, events: seq<Event>, k: nat)
    requires Reach(Start(now), events).listed == []
    requires var st := Reach(Start(now), events); |st.runs| <= k < |Pumped(st).runs|
    ensures var st := Reach(Start(now), events);
            && st.runs <= Pumped(st).runs
            && JustStarted(Pumped(st).runs[k], st, Pumped(st))
  {
    var st := Reach(Start(now), events);
    AlwaysSound(now, events);
    PassRows(st);
    assert JustStarted(Pumped(st).runs[k], Step(st, List), Pumped(st));
  }

  // ------------------------------------------------------------- conservation

  /** What a run is still going to launch. */
  function Outstanding(run: Run): int {
    if run.phase.Launching? then run.phase.cursor.tally.remaining else run.requested
  }

  predicate Live(run: Run) {
    !run.phase.Ended?
  }

  /** A run of the schedule is launching: its row still holds the count from before. */
  ghost predicate Midway(st: State, id: nat) {
    exists i :: 0 <= i < |st.runs| && st.runs[i].id == id && st.runs[i].phase.Launching?
  }

  ghost predicate RunBalanced(st: State, i: nat)
    requires i < |st.runs|
  {
    var run := st.runs[i];
    Live(run) && run.id in st.rows ==>
      run.id in st.launched && run.id in st.asked && st.launched[run.id] + Outstanding(run) == st.asked[run.id]
  }

  ghost predicate RowBalanced(st: State, id: nat) {
    id in st.rows ==> id in st.launched && id in st.asked && st.launched[id] + st.rows[id].count == st.asked[id]
  }

  /** What was launched and what is left add up to what was asked for. */
  ghost predicate Balanced(st: State) {
    && (forall i :: 0 <= i < |st.runs| ==> RunBalanced(st, i))
    && (forall id :: id in st.rows && !Midway(st, id) ==> RowBalanced(st, id))
  }

  /** Stopping the run now loses no launch. */
  ghost predicate Recorded(st: State, k: nat)
    requires k < |st.runs|
  {
    var run := st.runs[k];
    run.phase.Launching? && run.id in st.rows ==> st.rows[run.id].count == Outstanding(run)
  }

  /** The steps that keep the count: a listed count is used only while it is still
      stored; an edit does not contradict a run in flight; a panic or a restart
      hits no run with launches that its row does not know of. */
  ghost predicate Careful(st: State, e: Event) {
    match e
    case Consider =>
      st.listed != [] && Due(st, st.listed[0]) && st.listed[0].id in st.rows ==>
        st.rows[st.listed[0].id].count == st.listed[0].row.count
    case Edit(id, row) =>
      id in st.rows ==>
        forall i :: 0 <= i < |st.runs| && st.runs[i].id == id && Live(st.runs[i]) ==>
          Outstanding(st.runs[i]) == row.count
    case Panic(k) => k < |st.runs| ==> Recorded(st, k)
    case Crash => forall k :: 0 <= k < |st.runs| ==> Recorded(st, k)
    case _ => true
  }

  ghost predicate CarefulRun(st: State, events: seq<Event>)
    decreases |events|
  {
    events != [] ==>
      CarefulRun(st, events[..|events| - 1]) && Careful(Reach(st, events[..|events| - 1]), events[|events| - 1])
  }

  lemma IdleIsNotMidway(st: State, id: nat)
    requires Sound(st) && id !in st.running
    ensures !Midway(st, id)
  {
  }

  lemma OnlyRunOf(st: State, k: nat)
    requires Sound(st) && k < |st.runs|
    ensures Midway(st, st.runs[k].id) <==> st.runs[k].phase.Launching?
  {
  }

  lemma ConsiderExact(st: State)
    requires Sound(st) && Balanced(st)
    ensures Balanced(Step(st, Consider)) <==> Careful(st, Consider)
  {
    if st.listed != [] && Due(st, st.listed[0]) {
      var entry, st' := st.listed[0], Step(st, Consider);
      var n := |st.runs|;
      IdleIsNotMidway(st, entry.id);
      assert forall i :: 0 <= i < n ==> st'.runs[i] == st.runs[i] && (RunBalanced(st', i) <==> RunBalanced(st, i));
      forall id ensures Midway(st', id) <==> Midway(st, id) {
        if Midway(st, id) {
          var i :| 0 <= i < n && st.runs[i].id == id && st.runs[i].phase.Launching?;
          assert st'.runs[i] == st.runs[i];
        }
      }
      assert forall id :: id in st.rows ==> (RowBalanced(st', id) <==> RowBalanced(st, id));
      assert RunBalanced(st', n) <==> Careful(st, Consider) by {
        assert entry.id in st.rows ==> RowBalanced(st, entry.id);
      }
    } else {
      var st' := Step(st, Consider);
      assert st'.runs == st.runs;
      assert forall i :: 0 <= i < |st.runs| ==> (RunBalanced(st', i) <==> RunBalanced(st, i));
      assert forall id :: Midway(st', id) <==> Midway(st, id);
      assert forall id :: RowBalanced(st', id) <==> RowBalanced(st, id);
    }
  }

  /** A step of one run does not change which other schedules are midway. */
  lemma OthersMidway(st: State, k: nat, phase: Phase, id: nat)
    requires k < |st.runs| && st.runs[k].id != id
    ensures Midway(WithPhase(st, k, phase), id) <==> Midway(st, id)
  {
    if Midway(st, id) {
      var i :| 0 <= i < |st.runs| && st.runs[i].id == id && st.runs[i].phase.Launching?;
      assert WithPhase(st, k, phase).runs[i] == st.runs[i];
    }
  }

  lemma SameMidway(a: State, b: State)
    requires a.runs == b.runs
    ensures forall id :: Midway(a, id) <==> Midway(b, id)
  {
  }

  lemma OwnMidway(st: State, k: nat, phase: Phase)
    requires Sound(st) && k < |st.runs|
    ensures Midway(WithPhase(st, k, phase), st.runs[k].id) <==> phase.Launching?
  {
    assert WithPhase(st, k, phase).runs[k].id == st.runs[k].id;
  }

  /** Changing a run's phase, when the row of its schedule is settled elsewhere. */
  lemma PhaseBalance(st: State, k: nat, phase: Phase)
    requires Sound(st) && Balanced(st) && k < |st.runs| && !st.runs[k].phase.Ended?
    requires phase.Launching? ==> phase.cursor.tally.remaining == Outstanding(st.runs[k])
    requires !phase.Launching? ==> st.runs[k].phase.Preparing? && phase.Ended?
    ensures Balanced(WithPhase(st, k, phase))
  {
    var st' := WithPhase(st, k, phase);
    assert RunBalanced(st, k);
    forall i | 0 <= i < |st'.runs| ensures RunBalanced(st', i) {
      assert RunBalanced(st, i);
    }
    OwnMidway(st, k, phase);
    OnlyRunOf(st, k);
    forall id | id in st'.rows && !Midway(st', id) ensures RowBalanced(st', id) {
      if id != st.runs[k].id { OthersMidway(st, k, phase, id); }
      assert RowBalanced(st, id);
    }
  }

  lemma DeleteKeepsBalance(st: State, id: nat)
    requires Balanced(st)
    ensures Balanced(st.(rows := st.rows - {id}))
  {
    var st' := st.(rows := st.rows - {id});
    assert forall i :: 0 <= i < |st.runs| && RunBalanced(st, i) ==> RunBalanced(st', i);
    assert forall other :: Midway(st', other) <==> Midway(st, other);
    assert forall other :: RowBalanced(st, other) ==> RowBalanced(st', other);
  }

  lemma AnswerKeepsBalance(st: State, k: nat, answer: Answer)
    requires Sound(st) && Balanced(st) && k < |st.runs|
    requires st.runs[k].phase.Launching? && st.runs[k].phase.cursor.ads != []
    ensures Balanced(AnswerRun(st, k, answer))
  {
    var st', id := AnswerRun(st, k, answer), st.runs[k].id;
    AttemptAddsUp(st.runs[k].phase.cursor, answer);
    assert RunBalanced(st, k);
    forall i | 0 <= i < |st'.runs| ensures RunBalanced(st', i) {
      assert RunBalanced(st, i);
    }
    var phase := Launching(Attempt(st.runs[k].phase.cursor, answer));
    OwnMidway(st, k, phase);
    SameMidway(st', WithPhase(st, k, phase));
    forall other | other in st'.rows && !Midway(st', other) ensures RowBalanced(st', other) {
      OthersMidway(st, k, phase, other);
      assert RowBalanced(st, other);
    }
  }

  /** Storing what remains settles the row. */
  lemma FinishKeepsBalance(st: State, k: nat)
    requires Sound(st) && Balanced(st) && k < |st.runs|
    requires st.runs[k].phase.Launching? && st.runs[k].phase.cursor.ads == []
    ensures Balanced(Step(st, Finish(k)))
  {
    var st', id := Step(st, Finish(k)), st.runs[k].id;
    assert RunBalanced(st, k);
    forall i | 0 <= i < |st'.runs| ensures RunBalanced(st', i) {
      assert RunBalanced(st, i);
    }
    forall other | other in st'.rows && !Midway(st', other) ensures RowBalanced(st', other) {
      SameMidway(st', WithPhase(st, k, Ended));
      if other != id {
        OthersMidway(st, k, Ended, other);
        assert RowBalanced(st, other);
      }
    }
  }

  lemma RemovalMidway(st: State, k: nat, id: nat)
    requires Sound(st) && k < |st.runs|
    ensures Midway(WithoutRun(st, k), id) <==> Midway(st, id) && id != st.runs[k].id
  {
    var st' := WithoutRun(st, k);
    assert forall i :: 0 <= i < |st'.runs| ==> st'.runs[i] == st.runs[if i < k then i else i + 1];
    if Midway(st, id) && id != st.runs[k].id {
      var i :| 0 <= i < |st.runs| && st.runs[i].id == id && st.runs[i].phase.Launching?;
      assert st'.runs[if i < k then i else i - 1] == st.runs[i];
    }
  }

  /** Removing a run keeps the balance exactly when its launches are recorded. */
  lemma RemovalExact(st: State, k: nat)
    requires Sound(st) && Balanced(st) && k < |st.runs|
    ensures Balanced(WithoutRun(st, k)) <==> Recorded(st, k)
  {
    var st', id := WithoutRun(st, k), st.runs[k].id;
    forall i | 0 <= i < |st'.runs| ensures RunBalanced(st', i) {
      assert RunBalanced(st, if i < k then i else i + 1);
    }
    forall other ensures Midway(st', other) <==> Midway(st, other) && other != id {
      RemovalMidway(st, k, other);
    }
    assert forall other :: RowBalanced(st', other) <==> RowBalanced(st, other);
    assert RunBalanced(st, k);
    OnlyRunOf(st, k);
  }

  lemma CrashExact(st: State)
    requires Sound(st) && Balanced(st)
    ensures Balanced(Step(st, Crash)) <==> Careful(st, Crash)
  {
    var st' := Step(st, Crash);
    assert forall id :: !Midway(st', id);
    assert forall id :: RowBalanced(st', id) <==> RowBalanced(st, id);
    if Careful(st, Crash) {
      forall id | id in st.rows ensures RowBalanced(st, id) {
        if Midway(st, id) {
          var i :| 0 <= i < |st.runs| && st.runs[i].id == id && st.runs[i].phase.Launching?;
          assert RunBalanced(st, i) && Recorded(st, i);
        }
      }
    }
    if Balanced(st') {
      forall k | 0 <= k < |st.runs| ensures Recorded(st, k) {
        assert RunBalanced(st, k);
        assert RowBalanced(st', st.runs[k].id);
      }
    }
  }

  lemma EditExact(st: State, id: nat, row: Row)
    requires Sound(st) && Balanced(st)
    ensures Balanced(Step(st, Edit(id, row))) <==> Careful(st, Edit(id, row))
  {
    var st' := Step(st, Edit(id, row));
    if id in st.rows {
      assert forall other :: Midway(st', other) <==> Midway(st, other);
      assert RowBalanced(st', id);
      assert forall other :: other != id ==> (RowBalanced(st', other) <==> RowBalanced(st, other));
      forall i | 0 <= i < |st.runs|
        ensures RunBalanced(st', i) <==>
                (st.runs[i].id == id && Live(st.runs[i]) ==> Outstanding(st.runs[i]) == row.count)
      {
        assert RunBalanced(st, i);
      }
    }
  }

  lemma OperatorKeepsBalance(st: State, e: Event)
    requires Sound(st) && Balanced(st) && (e.Tick? || e.Create? || e.SetPaused? || e.List?)
    ensures Balanced(Step(st, e))
  {
    var st' := Step(st, e);
    assert forall id :: Midway(st', id) <==> Midway(st, id);
    forall i | 0 <= i < |st'.runs| ensures RunBalanced(st', i) {
      assert RunBalanced(st, i);
    }
    forall id | id in st'.rows && !Midway(st', id) ensures RowBalanced(st', id) {
      assert id in st.rows ==> RowBalanced(st, id);
    }
  }

  /** A step keeps the count exactly when it is careful. */
  lemma CarefulIsExact(st: State, e: Event)
    requires Sound(st) && Balanced(st)
    ensures Balanced(Step(st, e)) <==> Careful(st, e)
  {
    match e
    case Consider => ConsiderExact(st);
    case Edit(id, row) => EditExact(st, id, row);
    case Delete(id) => DeleteKeepsBalance(st, id);
    case Crash => CrashExact(st);
    case GiveUp(k, _) =>
      if k < |st.runs| && st.runs[k].phase.Preparing? {
        PhaseBalance(st, k, Ended);
        DeleteKeepsBalance(WithPhase(st, k, Ended), st.runs[k].id);
      }
    case Prepared(k, ads) =>
      if k < |st.runs| && st.runs[k].phase.Preparing? {
        PhaseBalance(st, k, Launching(Begin(st.runs[k].requested, ads)));
      }
    case Answered(k, answer) =>
      if k < |st.runs| && st.runs[k].phase.Launching? && st.runs[k].phase.cursor.ads != [] {
        AnswerKeepsBalance(st, k, answer);
      }
    case Finish(k) =>
      if k < |st.runs| && st.runs[k].phase.Launching? && st.runs[k].phase.cursor.ads == [] {
        FinishKeepsBalance(st, k);
      }
    case Leave(k) => if k < |st.runs| { RemovalExact(st, k); }
    case Panic(k) => if k < |st.runs| { RemovalExact(st, k); }
    case _ => OperatorKeepsBalance(st, e);
  }

  /** The listed counts are the stored ones. */
  ghost predicate ListedCountsHold(st: State) {
    forall i :: 0 <= i < |st.listed| && st.listed[i].id in st.rows ==>
      st.rows[st.listed[i].id].count == st.listed[i].row.count
  }

  lemma {:induction false} ConsideredKeepsBalance(st: State, n: nat)
    requires Sound(st) && Balanced(st) && ListedCountsHold(st) && n <= |st.listed|
    ensures Sound(Considered(st, n)) && Balanced(Considered(st, n)) && ListedCountsHold(Considered(st, n))
  {
    if n > 0 {
      ConsideredKeepsBalance(st, n - 1);
      var before := Considered(st, n - 1);
      assert Step(before, Consider) == ConsiderNext(before);
      ConsiderKeepsSound(before);
      ConsiderExact(before);
      CountsStillHold(before);
    }
  }

  lemma CountsStillHold(st: State)
    requires ListedCountsHold(st) && st.listed != []
    ensures ListedCountsHold(ConsiderNext(st))
  {
    var next := ConsiderNext(st);
    assert forall i :: 0 <= i < |next.listed| ==> next.listed[i] == st.listed[i + 1];
  }

  lemma QuietCheck(st: State)
    requires st.listed != []
    ensures Step(Reach(st, []), Consider) == ConsiderNext(st)
  {
  }

  /** A pass that nothing interrupts. */
  lemma {:induction false} QuietPass(st: State, n: nat)
    requires st.listed == [] && n <= |Step(st, List).listed|
    ensures Reach(st, PassEvents(n, _ => [])) == Considered(Step(st, List), n)
  {
    var none: nat -> seq<Event> := _ => [];
    if n == 0 {
      var begun := PassBegins(st, none);
    } else {
      QuietPass(st, n - 1);
      var before := Considered(Step(st, List), n - 1);
      QuietCheck(before);
      var next := PassGoesOn(st, n - 1, none, before);
    }
  }

  /** When listing and checking are one step, a whole pass of the pump keeps the count. */
  lemma PumpKeepsBalance(st: State)
    requires Sound(st) && Balanced(st) && st.listed == []
    ensures Sound(Pumped(st)) && Balanced(Pumped(st))
  {
    ListKeepsSound(st);
    OperatorKeepsBalance(st, List);
    ActiveRowsAre(st.rows, 0, st.nextId);
    var list := ActiveRows(st.rows, 0, st.nextId);
    assert forall i :: 0 <= i < |list| ==> list[i] in list;
    ConsideredKeepsBalance(Step(st, List), |list|);
  }

  /** How a schedule goes: deleted by an operator, given up by its run, or at the end of
      its run if a launch was denied or everything that was asked for is launched. */
  lemma RowLeavesIff(st: State, e: Event, id: nat)
    requires Sound(st) && Balanced(st) && id in st.rows
    ensures id in st.launched && id in st.asked
    ensures id !in Step(st, e).rows <==>
            || e == Delete(id)
            || (e.GiveUp? && e.deletes && e.k < |st.runs| && st.runs[e.k].id == id && st.runs[e.k].phase.Preparing?)
            || (&& e.Finish? && e.k < |st.runs| && st.runs[e.k].id == id && st.runs[e.k].phase.Launching?
                && st.runs[e.k].phase.cursor.ads == []
                && (st.runs[e.k].phase.cursor.tally.denied || st.launched[id] >= st.asked[id]))
  {
    if e.Finish? && e.k < |st.runs| { assert RunBalanced(st, e.k); }
  }

  lemma {:induction false} AlwaysBalanced(now: int, events: seq<Event>)
    requires CarefulRun(Start(now), events)
    ensures Balanced(Reach(Start(now), events))
    decreases |events|
  {
    if events != [] {
      AlwaysBalanced(now, events[..|events| - 1]);
      AlwaysSound(now, events[..|events| - 1]);
      CarefulIsExact(Reach(Start(now), events[..|events| - 1]), events[|events| - 1]);
    }
  }

  /** In a careful run, whenever no run of a schedule is in flight and its row is
      kept, what was launched and what is stored add up to what was asked for. */
  lemma CountIsConserved(now: int, events: seq<Event>, id: nat)
    requires CarefulRun(Start(now), events) && id in Reach(Start(now), events).rows
    requires forall run :: run in Reach(Start(now), events).runs && run.id == id ==> run.phase.Ended?
    ensures var st := Reach(Start(now), events);
            id in st.launched && id in st.asked && st.launched[id] + st.rows[id].count == st.asked[id]
  {
    AlwaysBalanced(now, events);
    assert !Midway(Reach(Start(now), events), id);
  }

  // ------------------------------------------ runs with uninterrupted pump passes

  /** One step of a system in which nothing falls between the pump's listing and its
      checks: a whole pass, or any other event. */
  datatype Act = WholePass | Single(event: Event)

  function Perform(st: State, a: Act): State {
    match a
    case WholePass => Pumped(st)
    case Single(e) => Step(st, e)
  }

  function Performed(st: State, acts: seq<Act>): State
    decreases |acts|
  {
    if acts == [] then st else Perform(Performed(st, acts[..|acts| - 1]), acts[|acts| - 1])
  }

  /** Nothing but edits, panics and crashes is restricted, by the guards they have. */
  ghost predicate GuardedActs(st: State, acts: seq<Act>)
    decreases |acts|
  {
    acts != [] ==>
      var before, a := acts[..|acts| - 1], acts[|acts| - 1];
      && GuardedActs(st, before)
      && (a.Single? ==> !a.event.List? && !a.event.Consider? && Careful(Performed(st, before), a.event))
  }

  /** Operators create, pause, resume and delete; runs go their way; the pump passes. */
  predicate Undisturbed(a: Act) {
    a.Single? ==> !(a.event.List? || a.event.Consider? || a.event.Edit? || a.event.Panic? || a.event.Crash?)
  }

  lemma {:induction false} ConsideringIsCareful(now: int, events: seq<Event>, n: nat) returns (longer: seq<Event>)
    requires CarefulRun(Start(now), events) && ListedCountsHold(Reach(Start(now), events))
    requires n <= |Reach(Start(now), events).listed|
    ensures CarefulRun(Start(now), longer) && Reach(Start(now), longer) == Considered(Reach(Start(now), events), n)
  {
    if n == 0 {
      longer := events;
    } else {
      var st := Reach(Start(now), events);
      var shorter := ConsideringIsCareful(now, events, n - 1);
      AlwaysSound(now, events);
      AlwaysBalanced(now, events);
      ConsideredKeepsBalance(st, n - 1);
      var next := Grow(Start(now), shorter, Consider);
      longer := shorter + [Consider];
    }
  }

  /** A whole pass of the pump is a run of careful steps. */
  lemma PassIsCareful(now: int, events: seq<Event>) returns (longer: seq<Event>)
    requires CarefulRun(Start(now), events) && Reach(Start(now), events).listed == []
    ensures CarefulRun(Start(now), longer) && Reach(Start(now), longer) == Pumped(Reach(Start(now), events))
  {
    var st := Reach(Start(now), events);
    var listing := Grow(Start(now), events, List);
    ActiveRowsAre(st.rows, 0, st.nextId);
    assert forall i :: 0 <= i < |listing.listed| ==> listing.listed[i] in listing.listed;
    longer := ConsideringIsCareful(now, events + [List], |listing.listed|);
  }

  lemma ListingStaysDone(st: State, a: Act)
    requires st.listed == [] && (a.Single? ==> !a.event.List?)
    ensures Perform(st, a).listed == []
  {
  }

  lemma ActIsCareful(now: int, events: seq<Event>, a: Act) returns (longer: seq<Event>)
    requires CarefulRun(Start(now), events) && Reach(Start(now), events).listed == []
    requires a.Single? ==> Careful(Reach(Start(now), events), a.event)
    ensures CarefulRun(Start(now), longer) && Reach(Start(now), longer) == Perform(Reach(Start(now), events), a)
  {
    match a
    case WholePass => longer := PassIsCareful(now, events);
    case Single(e) =>
      var next := Grow(Start(now), events, e);
      longer := events + [e];
  }

  /** Every run with uninterrupted passes is a careful run of the machine. */
  lemma {:induction false} WholePassesAreCareful(now: int, acts: seq<Act>) returns (events: seq<Event>)
    requires GuardedActs(Start(now), acts)
    ensures CarefulRun(Start(now), events) && Reach(Start(now), events) == Performed(Start(now), acts)
    ensures Performed(Start(now), acts).listed == []
    decreases |acts|
  {
    if acts == [] {
      events := [];
    } else {
      var before, a := acts[..|acts| - 1], acts[|acts| - 1];
      var shorter := WholePassesAreCareful(now, before);
      events := ActIsCareful(now, shorter, a);
      ListingStaysDone(Performed(Start(now), before), a);
    }
  }

  lemma {:induction false} UndisturbedIsGuarded(st: State, acts: seq<Act>)
    requires forall a :: a in acts ==> Undisturbed(a)
    ensures GuardedActs(st, acts)
    decreases |acts|
  {
    if acts != [] {
      UndisturbedIsGuarded(st, acts[..|acts| - 1]);
      assert Undisturbed(acts[|acts| - 1]);
    }
  }

  /** Without edits, panics and crashes, and with listing and checking taken as one
      step, the count of every schedule is conserved in every run. */
  lemma UndisturbedRunsConserve(now: int, acts: seq<Act>, id: nat)
    requires forall a :: a in acts ==> Undisturbed(a)
    requires var st := Performed(Start(now), acts);
             id in st.rows && forall run :: run in st.runs && run.id == id ==> run.phase.Ended?
    ensures var st := Performed(Start(now), acts);
            id in st.launched && id in st.asked && st.launched[id] + st.rows[id].count == st.asked[id]
  {
    UndisturbedIsGuarded(Start(now), acts);
    var events := WholePassesAreCareful(now, acts);
    CountIsConserved(now, events, id);
  }

  // ------------------------------------------------------------- pausing a schedule

  /** An act that neither lists nor checks outside a whole pass, and does not take the
      schedule out of its pause. */
  predicate LeavesPaused(a: Act, id: nat) {
    a.Single? ==>
      && !a.event.List? && !a.event.Consider?
      && !(a.event.Edit? && a.event.id == id) && a.event != SetPaused(id, false)
  }

  lemma {:induction false} ActsAreReached(now: int, events: seq<Event>, later: seq<Act>) returns (all: seq<Event>)
    requires Reach(Start(now), events).listed == []
    requires forall k :: 0 <= k < |later| ==> later[k].Single? ==> !later[k].event.List?
    ensures Reach(Start(now), all) == Performed(Reach(Start(now), events), later)
    ensures Performed(Reach(Start(now), events), later).listed == []
    decreases |later|
  {
    if later == [] {
      all := events;
    } else {
      var n := |later| - 1;
      var before := ActsAreReached(now, events, later[..n]);
      var st := Reach(Start(now), before);
      ListingStaysDone(st, later[n]);
      match later[n]
      case WholePass =>
        var m := |Step(st, List).listed|;
        QuietPass(st, m);
        all := before + PassEvents(m, _ => []);
        ReachConcat(Start(now), before, PassEvents(m, _ => []));
      case Single(e) =>
        var next := Grow(Start(now), before, e);
        all := before + [e];
    }
  }

  /** The schedule is known, paused if it is stored, and no run of it is in flight. */
  ghost predicate RestsPaused(st: State, id: nat) {
    id < st.nextId && (id in st.rows ==> st.rows[id].paused) && !InFlight(st, id)
  }

  lemma EventKeepsPaused(st: State, e: Event, id: nat)
    requires Sound(st) && RestsPaused(st, id) && LeavesPaused(Single(e), id)
    ensures RestsPaused(Step(st, e), id)
  {
    match e
    case Leave(k) => if k < |st.runs| { RemovalLands(st, k, id); }
    case Panic(k) => if k < |st.runs| { RemovalLands(st, k, id); }
    case Crash =>
    case _ =>
      OthersKeepIds(st, e);
      SameIdsInFlight(st, Step(st, e));
  }

  lemma {:induction false} ConsideredKeepsNextId(st: State, n: nat)
    requires n <= |st.listed|
    ensures Considered(st, n).nextId == st.nextId
  {
    if n > 0 { ConsideredKeepsNextId(st, n - 1); }
  }

  lemma PassRows(st: State)
    requires Sound(st) && st.listed == []
    ensures PassedFrom(Step(st, List), Pumped(st)) && Pumped(st).nextId == st.nextId
  {
    var listing := Step(st, List);
    ActiveRowsAre(st.rows, 0, st.nextId);
    assert forall i :: 0 <= i < |listing.listed| ==> listing.listed[i] in listing.listed;
    ConsideredPasses(listing, |listing.listed|);
    ConsideredKeepsNextId(listing, |listing.listed|);
  }

  lemma PassKeepsPaused(st: State, id: nat)
    requires Sound(st) && RunningIsExact(st) && RunningIsExact(Pumped(st)) && st.listed == [] && RestsPaused(st, id)
    ensures RestsPaused(Pumped(st), id)
  {
    PassStarts(st, Step(st, List), id);
    PassRows(st);
    assert id in Pumped(st).running <==> InFlight(Pumped(st), id);
  }

  /** A schedule that is paused while no run of it is in flight is not started by any
      later pass, until it is resumed or edited. */
  lemma PausedIsNotStarted(now: int, events: seq<Event>, id: nat, later: seq<Act>)
    requires var st := Reach(Start(now), events); st.listed == [] && id in st.rows && !InFlight(st, id)
    requires forall k :: 0 <= k < |later| ==> LeavesPaused(later[k], id)
    ensures !InFlight(Performed(Step(Reach(Start(now), events), SetPaused(id, true)), later), id)
  {
    AlwaysSound(now, events);
    var st := Reach(Start(now), events);
    var paused := Grow(Start(now), events, SetPaused(id, true));
    SameIdsInFlight(st, paused);
    StaysPaused(now, events + [SetPaused(id, true)], id, later);
  }

  /** A schedule that is resumed when its interval has passed is started by the next pass. */
  lemma ResumedIsStarted(now: int, events: seq<Event>, id: nat)
    requires var st := Reach(Start(now), events);
             && st.listed == [] && id in st.rows && st.rows[id].count > 0
             && (st.rows[id].lastRun.Some? ==> st.now - st.rows[id].lastRun.value >= st.rows[id].interval)
    ensures InFlight(Pumped(Step(Reach(Start(now), events), SetPaused(id, false))), id)
  {
    var resumed := Grow(Start(now), events, SetPaused(id, false));
    PassStartsExactlyDue(now, events + [SetPaused(id, false)], id);
  }

  /** A new schedule that asks for something is started by the next pass. */
  lemma CreatedIsStarted(now: int, events: seq<Event>, count: int, interval: int)
    requires Reach(Start(now), events).listed == [] && count > 0
    ensures var st := Reach(Start(now), events); InFlight(Pumped(Step(st, Create(count, interval))), st.nextId)
  {
    var st := Reach(Start(now), events);
    var created := Grow(Start(now), events, Create(count, interval));
    PassStartsExactlyDue(now, events + [Create(count, interval)], st.nextId);
  }

  lemma {:induction false} StaysPaused(now: int, events: seq<Event>, id: nat, later: seq<Act>)
    requires Reach(Start(now), events).listed == [] && RestsPaused(Reach(Start(now), events), id)
    requires forall k :: 0 <= k < |later| ==> LeavesPaused(later[k], id)
    ensures RestsPaused(Performed(Reach(Start(now), events), later), id)
    decreases |later|
  {
    if later != [] {
      var n := |later| - 1;
      StaysPaused(now, events, id, later[..n]);
      forall k | 0 <= k < |later| ensures later[k].Single? ==> !later[k].event.List? {
        assert LeavesPaused(later[k], id);
      }
      var before := ActsAreReached(now, events, later[..n]);
      var after := ActsAreReached(now, events, later);
      AlwaysSound(now, before);
      AlwaysRunningExact(now, before);
      AlwaysRunningExact(now, after);
      match later[n]
      case WholePass => PassKeepsPaused(Reach(Start(now), before), id);
      case Single(e) => EventKeepsPaused(Reach(Start(now), before), e, id);
    }
  }

  // ------------------------------------------------- what was asked, and stale starts

  lemma StepKeepsAsked(st: State, e: Event, id: nat)
    requires KnownIds(st) && id in st.asked && !(e.Edit? && e.id == id)
    ensures id in Step(st, e).asked && Step(st, e).asked[id] == st.asked[id]
  {
  }

  /** Only an edit changes what was asked for. */
  lemma {:induction false} AskedStays(now: int, before: seq<Event>, after: seq<Event>, id: nat)
    requires id in Reach(Start(now), before).asked && forall e :: e in after && e.Edit? ==> e.id != id
    ensures id in Reach(Start(now), before + after).asked
    ensures Reach(Start(now), before + after).asked[id] == Reach(Start(now), before).asked[id]
    decreases |after|
  {
    if after == [] {
      assert before + after == before;
    } else {
      var n := |after| - 1;
      AskedStays(now, before, after[..n], id);
      AlwaysSound(now, before + after[..n]);
      assert before + after == (before + after[..n]) + [after[n]];
      assert after[n] in after;
      StepKeepsAsked(Reach(Start(now), before + after[..n]), after[n], id);
      var next := Grow(Start(now), before + after[..n], after[n]);
    }
  }

  /** What a careless start leads to: if the listed count is no longer the stored
      one, a run that launches nothing ends with the old count written back. */
  lemma StaleStartLosesTheCount(st: State)
    requires Sound(st) && Balanced(st) && !Careful(st, Consider) && st.listed[0].row.count > 0
    ensures var k, id := |st.runs|, st.listed[0].id;
            var after := Step(Step(Step(st, Consider), Prepared(k, [false])), Finish(k));
            && id in after.rows && id in after.launched && id in after.asked
            && after.launched[id] + after.rows[id].count != after.asked[id]
  {
    var entry := st.listed[0];
    IdleIsNotMidway(st, entry.id);
    assert RowBalanced(st, entry.id);
    assert Settle(Cursor([false], 0, Tally(0, entry.row.count, 0, false))).ads == [];
  }

  lemma Grow(st: State, events: seq<Event>, e: Event) returns (next: State)
    ensures next == Reach(st, events + [e]) == Step(Reach(st, events), e)
    ensures CarefulRun(st, events) && Careful(Reach(st, events), e) ==> CarefulRun(st, events + [e])
  {
    assert (events + [e])[..|events|] == events;
    next := Reach(st, events + [e]);
  }

  function Example(count: int, now: int, runs: seq<Run>, listed: seq<Entry>, pumpAt: int, launched: int): State {
    State(now, 2, map[1 := Row(count, false, 30, Some(0))], if runs == [] then {} else {1}, runs, listed, pumpAt,
          map[1 := launched], map[1 := 2])
  }

  lemma ExampleStarts() returns (events: seq<Event>)
    ensures CarefulRun(Start(0), events)
    ensures Reach(Start(0), events) == Example(2, 0, [Run(1, 2, Preparing)], [], 0, 0)
  {
    var s1 := Grow(Start(0), [], Create(2, 30));
    var s2 := Grow(Start(0), [Create(2, 30)], List);
    assert ActiveRows(s1.rows, 1, 2) == [Entry(1, Row(2, false, 30, None))];
    assert ActiveRows(s1.rows, 0, 2) == [Entry(1, Row(2, false, 30, None))];
    var s3 := Grow(Start(0), [Create(2, 30)] + [List], Consider);
    events := [Create(2, 30)] + [List] + [Consider];
  }

  lemma ExampleIsListed() returns (events: seq<Event>)
    ensures CarefulRun(Start(0), events)
    ensures Reach(Start(0), events)
         == Example(2, 60, [Run(1, 2, Preparing)], [Entry(1, Row(2, false, 30, Some(0)))], 60, 0)
  {
    events := ExampleStarts();
    var s4 := Grow(Start(0), events, Tick(60));
    assert s4 == Example(2, 60, [Run(1, 2, Preparing)], [], 0, 0);
    assert ActiveRows(s4.rows, 1, 2) == [Entry(1, Row(2, false, 30, Some(0)))];
    assert ActiveRows(s4.rows, 0, 2) == [Entry(1, Row(2, false, 30, Some(0)))];
    var s5 := Grow(Start(0), events + [Tick(60)], List);
    events := events + [Tick(60)] + [List];
  }

  lemma ExampleHasLaunched() returns (events: seq<Event>)
    ensures CarefulRun(Start(0), events)
    ensures Reach(Start(0), events)
         == Example(2, 60, [Run(1, 2, Launching(Cursor([], 0, Tally(1, 1, 1, false))))],
                    [Entry(1, Row(2, false, 30, Some(0)))], 60, 1)
  {
    events := ExampleIsListed();
    var s6 := Grow(Start(0), events, Prepared(0, [true]));
    assert s6 == Example(2, 60, [Run(1, 2, Launching(Cursor([true], 0, Tally(0, 2, 0, false))))],
                         [Entry(1, Row(2, false, 30, Some(0)))], 60, 0);
    var s7 := Grow(Start(0), events + [Prepared(0, [true])], Answered(0, Launched));
    events := events + [Prepared(0, [true])] + [Answered(0, Launched)];
  }

  lemma ExampleIsStored() returns (events: seq<Event>)
    ensures CarefulRun(Start(0), events)
    ensures Reach(Start(0), events)
         == Example(1, 60, [Run(1, 2, Ended)], [Entry(1, Row(2, false, 30, Some(0)))], 60, 1)
  {
    var prefix := ExampleHasLaunched();
    var s8 := Grow(Start(0), prefix, Finish(0));
    events := prefix + [Finish(0)];
  }

  /** Such a start happens: a run that outlasts the interval and ends between the
      pump's listing and its check. */
  lemma StaleStartIsReachable() returns (events: seq<Event>)
    ensures CarefulRun(Start(0), events)
    ensures var st := Reach(Start(0), events); st.listed != [] && st.listed[0].row.count > 0 && !Careful(st, Consider)
  {
    var prefix := ExampleIsStored();
    var s9 := Grow(Start(0), prefix, Leave(0));
    events := prefix + [Leave(0)];
    assert s9 == Example(1, 60, [], [Entry(1, Row(2, false, 30, Some(0)))], 60, 1);
  }
}
