/** Schema migrations on an auto-committing SQLite store: `runMigrations` executes
    the statements of the pending migrations one by one and records a version row
    after each batch. A crash may fall between any two statements; recovery is by
    running again. */
module Migrations {
  import opened Sequences

  type Name = string

  datatype Ddl =
    | CreateTable(table: Name, columns: seq<Name>)       // CREATE TABLE IF NOT EXISTS
    | AddColumn(table: Name, column: Name)               // ALTER TABLE ADD COLUMN
    | CreateIndex(index: Name, table: Name, column: Name) // CREATE INDEX IF NOT EXISTS

  datatype Migration = Migration(version: int, name: string, ddls: seq<Ddl>)

  datatype VersionRow = VersionRow(version: int, name: string)

  /** The schema part of a database: tables with their columns in order, indexes
      with what they index, and the rows of `schema_version` in insertion order. */
  datatype Db = Db(tables: map<Name, seq<Name>>, indexes: map<Name, (Name, Name)>, versions: seq<VersionRow>)

  const EMPTY := Db(map[], map[], [])

  datatype Outcome = Done | DuplicateColumn | Fatal

  datatype Stmt = Define(ddl: Ddl) | Record(row: VersionRow)

  datatype Run = Run(db: Db, ok: bool)

  const VERSION_TABLE := Define(CreateTable("schema_version", ["version", "name", "applied_at"]))

  // ------------------------------------------------------------- statements

  /** What SQLite does with one DDL statement. Tables and indexes share one name
      space. */
  function Exec(db: Db, ddl: Ddl): (Db, Outcome) {
    match ddl
    case CreateTable(t, columns) =>
      if t in db.tables then (db, Done)
      else if t in db.indexes then (db, Fatal)
      else if !Distinct(columns) then (db, DuplicateColumn)
      else (db.(tables := db.tables[t := columns]), Done)
    case AddColumn(t, c) =>
      if t !in db.tables then (db, Fatal)
      else if c in db.tables[t] then (db, DuplicateColumn)
      else (db.(tables := db.tables[t := db.tables[t] + [c]]), Done)
    case CreateIndex(i, t, c) =>
      if t !in db.tables || i in db.tables then (db, Fatal)
      else if i in db.indexes then (db, Done)
      else if c !in db.tables[t] then (db, Fatal)
      else (db.(indexes := db.indexes[i := (t, c)]), Done)
  }

  predicate HasVersion(rows: seq<VersionRow>, v: int) {
    exists i :: 0 <= i < |rows| && rows[i].version == v
  }

  /** One statement as `runMigrations` treats it: a duplicate column is skipped,
      any other error ends the run. */
  function ExecStmt(db: Db, s: Stmt): Run {
    match s
    case Define(ddl) => var (db', outcome) := Exec(db, ddl); Run(db', outcome != Fatal)
    case Record(row) =>
      if HasVersion(db.versions, row.version) then Run(db, false)
      else Run(db.(versions := db.versions + [row]), true)
  }

  function RunStmts(db: Db, stmts: seq<Stmt>): Run
    decreases |stmts|
  {
    if stmts == [] then Run(db, true)
    else
      var first := ExecStmt(db, stmts[0]);
      if first.ok then RunStmts(first.db, stmts[1..]) else first
  }

  function Definitions(ddls: seq<Ddl>): (stmts: seq<Stmt>)
    ensures |stmts| == |ddls|
  {
    seq(|ddls|, i requires 0 <= i < |ddls| => Define(ddls[i]))
  }

  /** A migration's statements: its batch, then its version row. */
  function Block(m: Migration): seq<Stmt> {
    Definitions(m.ddls) + [Record(VersionRow(m.version, m.name))]
  }

  function Blocks(ms: seq<Migration>): seq<Stmt> {
    if ms == [] then [] else Block(ms[0]) + Blocks(ms[1..])
  }

  /** `SELECT COALESCE(MAX(version), 0)`. */
  function MaxVersion(rows: seq<VersionRow>): int {
    if rows == [] then 0
    else if |rows| == 1 then rows[0].version
    else
      var rest := MaxVersion(rows[..|rows| - 1]);
      if rows[|rows| - 1].version > rest then rows[|rows| - 1].version else rest
  }

  /** The statements of the migrations above the current version. */
  function Pending(ms: seq<Migration>, current: int): seq<Stmt> {
    if ms == [] then []
    else (if ms[0].version <= current then [] else Block(ms[0])) + Pending(ms[1..], current)
  }

  /** All statements of one start of the server with the list `ms`. */
  function Program(db: Db, ms: seq<Migration>): seq<Stmt> {
    [VERSION_TABLE] + Pending(ms, MaxVersion(db.versions))
  }

  function Prefix(stmts: seq<Stmt>, n: nat): seq<Stmt> {
    if n < |stmts| then stmts[..n] else stmts
  }

  /** One start of the server: the length of its migration list and the number of
      statements it gets to execute. */
  datatype Attempt = Attempt(listed: nat, statements: nat)

  function ListOf(ms: seq<Migration>, a: Attempt): seq<Migration> {
    if a.listed < |ms| then ms[..a.listed] else ms
  }

  function AfterAttempt(db: Db, ms: seq<Migration>, a: Attempt): Db {
    RunStmts(db, Prefix(Program(db, ListOf(ms, a)), a.statements)).db
  }

  function AfterAttempts(db: Db, ms: seq<Migration>, attempts: seq<Attempt>): Db
    decreases |attempts|
  {
    if attempts == [] then db else AfterAttempts(AfterAttempt(db, ms, attempts[0]), ms, attempts[1..])
  }

  /** The one uninterrupted first run. */
  function Line(ms: seq<Migration>): seq<Stmt> {
    [VERSION_TABLE] + Blocks(ms)
  }

  predicate Ascending(ms: seq<Migration>) {
    && (forall i :: 0 <= i < |ms| ==> ms[i].version > 0)
    && (forall i, j :: 0 <= i < j < |ms| ==> ms[i].version < ms[j].version)
  }

  /** An index that takes the name of a table whose creation is skipped, because it
      repeats a column, makes that creation fail the next time. */
  predicate Clashes(later: Ddl, ddl: Ddl) {
    ddl.CreateTable? && !Distinct(ddl.columns) && later.CreateIndex? && later.index == ddl.table
  }

  predicate Apart(ddls: seq<Ddl>) {
    forall x, y :: x in ddls && y in ddls ==> !Clashes(x, y)
  }

  predicate ApartBatches(ms: seq<Migration>) {
    forall j :: 0 <= j < |ms| ==> Apart(ms[j].ddls)
  }

  /** The list migrates an empty store. */
  predicate Migrates(ms: seq<Migration>) {
    Ascending(ms) && RunStmts(EMPTY, Line(ms)).ok
  }

  predicate WellFormed(ms: seq<Migration>) {
    Migrates(ms) && ApartBatches(ms)
  }

  // ----------------------------------------------- statements run twice are harmless

  /** Executing `ddl` again would change nothing. */
  predicate Applied(db: Db, ddl: Ddl) {
    match ddl
    case CreateTable(t, columns) => t in db.tables || (!Distinct(columns) && t !in db.indexes)
    case AddColumn(t, c) => t in db.tables && c in db.tables[t]
    case CreateIndex(i, t, _) => t in db.tables && i in db.indexes && i !in db.tables
  }

  lemma AppliedIsNoOp(db: Db, ddl: Ddl)
    requires Applied(db, ddl)
    ensures ExecStmt(db, Define(ddl)) == Run(db, true)
  {}

  lemma ExecApplies(db: Db, ddl: Ddl, db': Db)
    requires ExecStmt(db, Define(ddl)) == Run(db', true)
    requires forall i :: i in db.indexes ==> i !in db.tables
    ensures Applied(db', ddl)
  {}

  lemma AppliedStays(db: Db, ddl: Ddl, s: Stmt)
    requires Applied(db, ddl) && ExecStmt(db, s).ok && (s.Define? ==> !Clashes(s.ddl, ddl))
    ensures Applied(ExecStmt(db, s).db, ddl)
  {}

  /** Tables and indexes never share a name. */
  predicate Disjoint(db: Db) {
    forall i :: i in db.indexes ==> i !in db.tables
  }

  lemma {:induction false} RunKeepsDisjoint(db: Db, stmts: seq<Stmt>)
    requires Disjoint(db) && RunStmts(db, stmts).ok
    ensures Disjoint(RunStmts(db, stmts).db)
    decreases |stmts|
  {
    if stmts != [] { RunKeepsDisjoint(ExecStmt(db, stmts[0]).db, stmts[1..]); }
  }

  lemma {:induction false} RunConcat(db: Db, a: seq<Stmt>, b: seq<Stmt>)
    ensures RunStmts(db, a + b) == (if RunStmts(db, a).ok then RunStmts(RunStmts(db, a).db, b) else RunStmts(db, a))
    decreases |a|
  {
    if a == [] {
      assert a + b == b;
    } else {
      assert (a + b)[1..] == a[1..] + b;
      RunConcat(ExecStmt(db, a[0]).db, a[1..], b);
    }
  }

  lemma {:induction false} AppliedStaysOverRun(db: Db, ddl: Ddl, stmts: seq<Stmt>)
    requires Applied(db, ddl) && RunStmts(db, stmts).ok
    requires forall s :: s in stmts && s.Define? ==> !Clashes(s.ddl, ddl)
    ensures Applied(RunStmts(db, stmts).db, ddl)
    decreases |stmts|
  {
    if stmts != [] {
      AppliedStays(db, ddl, stmts[0]);
      AppliedStaysOverRun(ExecStmt(db, stmts[0]).db, ddl, stmts[1..]);
    }
  }

  /** A batch of definitions that ran is entirely applied. */
  lemma {:induction false} BatchApplied(db: Db, stmts: seq<Stmt>, i: nat)
    requires Disjoint(db) && RunStmts(db, stmts).ok && i < |stmts| && stmts[i].Define?
    requires forall s :: s in stmts && s.Define? ==> !Clashes(s.ddl, stmts[i].ddl)
    ensures Applied(RunStmts(db, stmts).db, stmts[i].ddl)
    decreases |stmts|
  {
    var first := ExecStmt(db, stmts[0]).db;
    if i == 0 {
      ExecApplies(db, stmts[0].ddl, first);
      AppliedStaysOverRun(first, stmts[0].ddl, stmts[1..]);
    } else {
      RunKeepsDisjoint(db, [stmts[0]]);
      assert RunStmts(db, [stmts[0]]).db == first by { assert RunStmts(first, []) == Run(first, true); }
      BatchApplied(first, stmts[1..], i - 1);
    }
  }

  lemma {:induction false} AppliedBatchIsNoOp(db: Db, stmts: seq<Stmt>)
    requires forall i :: 0 <= i < |stmts| ==> stmts[i].Define? && Applied(db, stmts[i].ddl)
    ensures RunStmts(db, stmts) == Run(db, true)
    decreases |stmts|
  {
    if stmts != [] {
      AppliedIsNoOp(db, stmts[0].ddl);
      AppliedBatchIsNoOp(db, stmts[1..]);
    }
  }

  /** Re-running from the start of a batch of which `q` is already done: the state
      is that of the longer of the two prefixes. */
  lemma Absorb(db: Db, q: seq<Stmt>, r: seq<Stmt>)
    requires Disjoint(db) && RunStmts(db, q).ok
    requires forall i :: 0 <= i < |q| ==> q[i].Define?
    requires forall x, y :: x in q && y in q && x.Define? && y.Define? ==> !Clashes(x.ddl, y.ddl)
    requires q <= r || r <= q
    ensures RunStmts(RunStmts(db, q).db, r) ==
            (if q <= r then RunStmts(db, r) else Run(RunStmts(db, q).db, true))
  {
    var after := RunStmts(db, q).db;
    forall i | 0 <= i < |q| ensures Applied(after, q[i].ddl) {
      BatchApplied(db, q, i);
    }
    if q <= r {
      assert r == q + r[|q|..];
      AppliedBatchIsNoOp(after, q);
      RunConcat(after, q, r[|q|..]);
      RunConcat(db, q, r[|q|..]);
    } else {
      AppliedBatchIsNoOp(after, r);
    }
  }

  // ------------------------------------------------ the states crashes can leave

  /** The first `j` migrations recorded, plus `i` statements of the next batch. */
  function UpTo(ms: seq<Migration>, j: nat, i: nat): seq<Stmt>
    requires j <= |ms|
  {
    [VERSION_TABLE] + Blocks(ms[..j]) + Started(ms, j, i)
  }

  function Started(ms: seq<Migration>, j: nat, i: nat): seq<Stmt>
    requires j <= |ms|
  {
    if j < |ms| then Prefix(Definitions(ms[j].ddls), i) else []
  }

  predicate StoppedAt(ms: seq<Migration>, db: Db, j: nat, i: nat)
    requires j <= |ms|
  {
    db == RunStmts(EMPTY, UpTo(ms, j, i)).db
  }

  ghost predicate Reached(ms: seq<Migration>, db: Db) {
    db == EMPTY || exists j: nat, i: nat :: j <= |ms| && StoppedAt(ms, db, j, i)
  }

  lemma {:induction false} BlocksConcat(a: seq<Migration>, b: seq<Migration>)
    ensures Blocks(a + b) == Blocks(a) + Blocks(b)
    decreases |a|
  {
    if a == [] {
      assert a + b == b;
    } else {
      assert (a + b)[1..] == a[1..] + b;
      BlocksConcat(a[1..], b);
    }
  }

  lemma LineSplit(ms: seq<Migration>, j: nat)
    requires j <= |ms|
    ensures Line(ms) == [VERSION_TABLE] + Blocks(ms[..j]) + Blocks(ms[j..])
  {
    assert ms == ms[..j] + ms[j..];
    BlocksConcat(ms[..j], ms[j..]);
  }

  lemma BlockSplit(ms: seq<Migration>, j: nat)
    requires j < |ms|
    ensures Blocks(ms[j..]) == Block(ms[j]) + Blocks(ms[j + 1..])
    ensures Blocks(ms[..j + 1]) == Blocks(ms[..j]) + Block(ms[j])
  {
    assert ms[..j + 1] == ms[..j] + [ms[j]];
    BlocksConcat(ms[..j], [ms[j]]);
    assert Blocks([ms[j]]) == Block(ms[j]) + Blocks([]);
  }

  lemma PrefixOk(db: Db, a: seq<Stmt>, b: seq<Stmt>)
    requires a <= b && RunStmts(db, b).ok
    ensures RunStmts(db, a).ok
  {
    assert b == a + b[|a|..];
    RunConcat(db, a, b[|a|..]);
  }

  /** Any part of the line of statements stops in one of the described states. */
  lemma {:induction false} PrefixStops(ms: seq<Migration>, j: nat, r: seq<Stmt>) returns (j': nat, i: nat)
    requires j <= |ms| && r <= Blocks(ms[j..])
    ensures j' <= |ms| && Blocks(ms[..j]) + r == Blocks(ms[..j']) + Started(ms, j', i)
    decreases |ms| - j
  {
    if j == |ms| {
      j', i := j, 0;
    } else {
      BlockSplit(ms, j);
      var block := Block(ms[j]);
      if |r| < |block| {
        j', i := j, |r|;
        assert r == block[..|r|] == Prefix(Definitions(ms[j].ddls), |r|);
      } else {
        var rest := r[|block|..];
        assert r == block + rest;
        assert Blocks(ms[..j]) + r == Blocks(ms[..j + 1]) + rest;
        j', i := PrefixStops(ms, j + 1, rest);
      }
    }
  }

  lemma StopsSomewhere(ms: seq<Migration>, j: nat, r: seq<Stmt>)
    requires j <= |ms| && r <= Blocks(ms[j..])
    ensures Reached(ms, RunStmts(EMPTY, [VERSION_TABLE] + Blocks(ms[..j]) + r).db)
  {
    var j', i := PrefixStops(ms, j, r);
    assert [VERSION_TABLE] + Blocks(ms[..j]) + r == [VERSION_TABLE] + (Blocks(ms[..j]) + r) == UpTo(ms, j', i);
    assert StoppedAt(ms, RunStmts(EMPTY, [VERSION_TABLE] + Blocks(ms[..j]) + r).db, j', i);
  }

  lemma UpToIsPrefix(ms: seq<Migration>, j: nat, i: nat)
    requires j <= |ms|
    ensures UpTo(ms, j, i) <= Line(ms)
    ensures Started(ms, j, i) <= Blocks(ms[j..])
  {
    LineSplit(ms, j);
    if j < |ms| {
      BlockSplit(ms, j);
      assert Started(ms, j, i) <= Block(ms[j]);
    }
  }

  function VersionRows(ms: seq<Migration>): (rows: seq<VersionRow>)
    ensures |rows| == |ms|
  {
    seq(|ms|, i requires 0 <= i < |ms| => VersionRow(ms[i].version, ms[i].name))
  }

  lemma {:induction false} DefinitionsKeepVersions(db: Db, stmts: seq<Stmt>)
    requires forall i :: 0 <= i < |stmts| ==> stmts[i].Define?
    ensures RunStmts(db, stmts).db.versions == db.versions
    decreases |stmts|
  {
    if stmts != [] { DefinitionsKeepVersions(ExecStmt(db, stmts[0]).db, stmts[1..]); }
  }

  lemma BlockRecords(db: Db, m: Migration)
    requires RunStmts(db, Block(m)).ok
    ensures RunStmts(db, Block(m)).db.versions == db.versions + [VersionRow(m.version, m.name)]
  {
    var record := Record(VersionRow(m.version, m.name));
    RunConcat(db, Definitions(m.ddls), [record]);
    DefinitionsKeepVersions(db, Definitions(m.ddls));
    var mid := RunStmts(db, Definitions(m.ddls)).db;
    assert RunStmts(mid, [record]) == RunStmts(ExecStmt(mid, record).db, []);
  }

  lemma {:induction false} BlocksRecord(db: Db, ms: seq<Migration>)
    requires RunStmts(db, Blocks(ms)).ok
    ensures RunStmts(db, Blocks(ms)).db.versions == db.versions + VersionRows(ms)
    decreases |ms|
  {
    if ms == [] {
      assert db.versions + VersionRows(ms) == db.versions;
    } else {
      RunConcat(db, Block(ms[0]), Blocks(ms[1..]));
      BlockRecords(db, ms[0]);
      BlocksRecord(RunStmts(db, Block(ms[0])).db, ms[1..]);
      assert VersionRows(ms) == [VersionRow(ms[0].version, ms[0].name)] + VersionRows(ms[1..]);
    }
  }

  lemma {:induction false} MaxOfAscending(ms: seq<Migration>)
    requires Ascending(ms)
    ensures MaxVersion(VersionRows(ms)) == (if ms == [] then 0 else ms[|ms| - 1].version)
    decreases |ms|
  {
    if |ms| > 1 {
      var front := ms[..|ms| - 1];
      assert VersionRows(ms)[..|ms| - 1] == VersionRows(front);
      MaxOfAscending(front);
    }
  }

  lemma {:induction false} PendingIsRest(ms: seq<Migration>, current: int, j: nat)
    requires j <= |ms|
    requires forall x :: 0 <= x < j ==> ms[x].version <= current
    requires forall x :: j <= x < |ms| ==> ms[x].version > current
    ensures Pending(ms, current) == Blocks(ms[j..])
    decreases |ms|
  {
    if ms != [] {
      if j == 0 {
        PendingIsRest(ms[1..], current, 0);
        assert ms[1..][0..] == ms[1..];
        assert ms[0..] == ms;
      } else {
        PendingIsRest(ms[1..], current, j - 1);
        assert ms[1..][j - 1..] == ms[j..];
      }
    }
  }

  lemma VersionsAt(ms: seq<Migration>, db: Db, j: nat, i: nat)
    requires Migrates(ms) && j <= |ms| && StoppedAt(ms, db, j, i)
    ensures db.versions == VersionRows(ms[..j])
  {
    UpToIsPrefix(ms, j, i);
    var head, started := [VERSION_TABLE] + Blocks(ms[..j]), Started(ms, j, i);
    PrefixOk(EMPTY, UpTo(ms, j, i), Line(ms));
    assert UpTo(ms, j, i) == head + started;
    RunConcat(EMPTY, head, started);
    DefinitionsKeepVersions(RunStmts(EMPTY, head).db, started);
    HeadRecords(ms[..j]);
  }

  lemma HeadRecords(ms: seq<Migration>)
    requires RunStmts(EMPTY, Line(ms)).ok
    ensures RunStmts(EMPTY, Line(ms)).db.versions == VersionRows(ms)
  {
    RunConcat(EMPTY, [VERSION_TABLE], Blocks(ms));
    DefinitionsKeepVersions(EMPTY, [VERSION_TABLE]);
    BlocksRecord(RunStmts(EMPTY, [VERSION_TABLE]).db, ms);
    assert [] + VersionRows(ms) == VersionRows(ms);
  }

  /** What a start of the server with the first `k` migrations of the list finds
      to do in a store that stopped in the batch of migration `j`. */
  lemma ProgramFrom(ms: seq<Migration>, db: Db, j: nat, i: nat, k: nat)
    requires Migrates(ms) && j <= |ms| && k <= |ms| && StoppedAt(ms, db, j, i)
    ensures Program(db, ms[..k]) == [VERSION_TABLE] + (if k <= j then [] else Blocks(ms[j..k]))
  {
    VersionsAt(ms, db, j, i);
    MaxOfAscending(ms[..j]);
    var done := if k <= j then k else j;
    PendingIsRest(ms[..k], MaxVersion(db.versions), done);
    assert ms[..k][done..] == (if k <= j then [] else ms[j..k]);
  }

  /** Any start, crashed anywhere, leads from one of the described states to
      another one; a complete start with the whole list ends the line. */
  lemma AttemptFrom(ms: seq<Migration>, db: Db, j: nat, i: nat, a: Attempt)
    requires WellFormed(ms) && j <= |ms| && StoppedAt(ms, db, j, i)
    ensures Reached(ms, AfterAttempt(db, ms, a))
  {
    var k := if a.listed < |ms| then a.listed else |ms|;
    assert ms[..k] == ListOf(ms, a);
    ProgramFrom(ms, db, j, i, k);
    if a.statements == 0 {
      assert Prefix(Program(db, ListOf(ms, a)), 0) == [];
    } else {
      var todo := if k <= j then [] else Blocks(ms[j..k]);
      var r := Prefix(todo, a.statements - 1);
      assert Prefix([VERSION_TABLE] + todo, a.statements) == [VERSION_TABLE] + r;
      PartOfRest(ms, j, k, todo, r);
      ResumeFrom(ms, db, j, i, r);
    }
  }

  lemma PartOfRest(ms: seq<Migration>, j: nat, k: nat, todo: seq<Stmt>, r: seq<Stmt>)
    requires j <= |ms| && k <= |ms| && todo == (if k <= j then [] else Blocks(ms[j..k])) && r <= todo
    ensures r <= Blocks(ms[j..])
  {
    if k > j {
      assert ms[j..] == ms[j..k] + ms[k..];
      BlocksConcat(ms[j..k], ms[k..]);
    }
  }

  lemma CompleteRunFrom(ms: seq<Migration>, db: Db, j: nat, i: nat)
    requires WellFormed(ms) && j <= |ms| && StoppedAt(ms, db, j, i)
    ensures RunStmts(db, Program(db, ms)) == RunStmts(EMPTY, Line(ms))
  {
    ProgramFrom(ms, db, j, i, |ms|);
    assert ms[..|ms|] == ms;
    assert (if |ms| <= j then [] else Blocks(ms[j..|ms|])) == Blocks(ms[j..]);
    LineSplit(ms, j);
    UpToIsPrefix(ms, j, i);
    ResumeFrom(ms, db, j, i, Blocks(ms[j..]));
  }

  lemma ResumeFrom(ms: seq<Migration>, db: Db, j: nat, i: nat, r: seq<Stmt>)
    requires WellFormed(ms) && j <= |ms| && StoppedAt(ms, db, j, i) && r <= Blocks(ms[j..])
    ensures var q := Started(ms, j, i);
            RunStmts(db, [VERSION_TABLE] + r) ==
            (if q <= r then RunStmts(EMPTY, [VERSION_TABLE] + Blocks(ms[..j]) + r) else Run(db, true))
    ensures Reached(ms, RunStmts(db, [VERSION_TABLE] + r).db)
  {
    var head, q := [VERSION_TABLE] + Blocks(ms[..j]), Started(ms, j, i);
    UpToIsPrefix(ms, j, i);
    LineSplit(ms, j);
    PrefixOk(EMPTY, UpTo(ms, j, i), Line(ms));
    assert UpTo(ms, j, i) == head + q;
    RunConcat(EMPTY, head, q);
    var base := RunStmts(EMPTY, head).db;
    RunKeepsDisjoint(EMPTY, head);
    VersionColumnsDiffer();
    BatchApplied(EMPTY, head, 0);
    AppliedStaysOverRun(base, VERSION_TABLE.ddl, q);
    AppliedIsNoOp(db, VERSION_TABLE.ddl);
    StartedIsApart(ms, j, i);
    assert RunStmts(db, [VERSION_TABLE] + r) == RunStmts(db, r) by { assert ([VERSION_TABLE] + r)[1..] == r; }
    Absorb(base, q, r);
    RunConcat(EMPTY, head, r);
    StopsSomewhere(ms, j, r);
  }

  lemma VersionColumnsDiffer()
    ensures Distinct(VERSION_TABLE.ddl.columns)
  {
    assert |"version"| == 7 && |"name"| == 4 && |"applied_at"| == 10;
  }

  lemma StartedIsApart(ms: seq<Migration>, j: nat, i: nat)
    requires WellFormed(ms) && j <= |ms|
    ensures forall x, y :: x in Started(ms, j, i) && y in Started(ms, j, i) && x.Define? && y.Define? ==>
              !Clashes(x.ddl, y.ddl)
  {
    if j < |ms| {
      forall x | x in Started(ms, j, i) ensures x.Define? && x.ddl in ms[j].ddls {
        var k :| 0 <= k < |Started(ms, j, i)| && Started(ms, j, i)[k] == x;
        assert x == Definitions(ms[j].ddls)[k] == Define(ms[j].ddls[k]);
      }
    }
  }

  lemma ProgramFromEmpty(ms: seq<Migration>)
    requires Ascending(ms)
    ensures Program(EMPTY, ms) == Line(ms)
  {
    PendingIsRest(ms, 0, 0);
    assert ms[0..] == ms;
  }

  lemma AttemptFromEmpty(ms: seq<Migration>, a: Attempt)
    requires WellFormed(ms)
    ensures Reached(ms, AfterAttempt(EMPTY, ms, a))
  {
    var k := if a.listed < |ms| then a.listed else |ms|;
    var list := ms[..k];
    assert list == ListOf(ms, a);
    ProgramFromEmpty(list);
    if a.statements == 0 {
      assert Prefix(Program(EMPTY, list), 0) == [];
    } else {
      assert ms == list + ms[k..];
      BlocksConcat(list, ms[k..]);
      var r := Prefix(Blocks(list), a.statements - 1);
      assert Prefix(Line(list), a.statements) == [VERSION_TABLE] + r;
      StopsFromEmpty(ms, r);
    }
  }

  lemma StopsFromEmpty(ms: seq<Migration>, r: seq<Stmt>)
    requires r <= Blocks(ms)
    ensures Reached(ms, RunStmts(EMPTY, [VERSION_TABLE] + r).db)
  {
    assert ms[0..] == ms;
    StopsSomewhere(ms, 0, r);
    assert [VERSION_TABLE] + Blocks(ms[..0]) + r == [VERSION_TABLE] + r;
  }

  lemma {:induction false} AttemptsReach(ms: seq<Migration>, db: Db, attempts: seq<Attempt>)
    requires WellFormed(ms) && Reached(ms, db)
    ensures Reached(ms, AfterAttempts(db, ms, attempts))
    decreases |attempts|
  {
    if attempts != [] {
      if db == EMPTY {
        AttemptFromEmpty(ms, attempts[0]);
      } else {
        var j: nat, i: nat :| j <= |ms| && StoppedAt(ms, db, j, i);
        AttemptFrom(ms, db, j, i, attempts[0]);
      }
      AttemptsReach(ms, AfterAttempt(db, ms, attempts[0]), attempts[1..]);
    }
  }

  // -------------------------------------------------------------- main results

  /** Migrations survive any crashes and any upgrade path: whatever starts came
      before (of this or of an older server, each cut off after any statement),
      the next complete run succeeds with exactly the schema, column order, indexes
      and version rows of one uninterrupted run on an empty store. */
  lemma MigrationsSurviveCrashes(ms: seq<Migration>, attempts: seq<Attempt>)
    requires WellFormed(ms)
    ensures var db := AfterAttempts(EMPTY, ms, attempts);
            RunStmts(db, Program(db, ms)) == RunStmts(EMPTY, Line(ms))
    ensures RunStmts(EMPTY, Line(ms)).ok && RunStmts(EMPTY, Line(ms)).db.versions == VersionRows(ms)
  {
    var db := AfterAttempts(EMPTY, ms, attempts);
    AttemptsReach(ms, EMPTY, attempts);
    if db == EMPTY {
      ProgramFromEmpty(ms);
    } else {
      var j: nat, i: nat :| j <= |ms| && StoppedAt(ms, db, j, i);
      CompleteRunFrom(ms, db, j, i);
    }
    HeadRecords(ms);
  }

  /** A run on a migrated store finds nothing pending and changes nothing. */
  lemma SecondRunIsNoOp(ms: seq<Migration>)
    requires WellFormed(ms)
    ensures var db := RunStmts(EMPTY, Line(ms)).db;
            Program(db, ms) == [VERSION_TABLE] && RunStmts(db, Program(db, ms)) == Run(db, true)
  {
    var db := RunStmts(EMPTY, Line(ms)).db;
    LineSplit(ms, |ms|);
    assert UpTo(ms, |ms|, 0) == Line(ms) by { assert ms[..|ms|] == ms; }
    assert StoppedAt(ms, db, |ms|, 0);
    ProgramFrom(ms, db, |ms|, 0, |ms|);
    assert ms[..|ms|] == ms;
    ResumeFrom(ms, db, |ms|, 0, []);
    assert [VERSION_TABLE] + [] == [VERSION_TABLE];
    assert [VERSION_TABLE] + Blocks(ms[..|ms|]) + [] == Line(ms);
  }

  lemma PrefixIsWellFormed(ms: seq<Migration>, k: nat)
    requires WellFormed(ms) && k <= |ms|
    ensures WellFormed(ms[..k])
  {
    assert ms == ms[..k] + ms[k..];
    BlocksConcat(ms[..k], ms[k..]);
    assert Line(ms[..k]) <= Line(ms);
    PrefixOk(EMPTY, Line(ms[..k]), Line(ms));
    assert forall j :: 0 <= j < k ==> ms[..k][j] == ms[j];
  }

  /** Upgrading a store that an older server with the first `k` migrations had
      completely migrated gives the same result as migrating an empty store. */
  lemma UpgradeFromPrefix(ms: seq<Migration>, k: nat)
    requires WellFormed(ms) && k <= |ms|
    ensures WellFormed(ms[..k])
    ensures var older := RunStmts(EMPTY, Line(ms[..k])).db;
            RunStmts(older, Program(older, ms)) == RunStmts(EMPTY, Line(ms))
  {
    PrefixIsWellFormed(ms, k);
    var older := RunStmts(EMPTY, Line(ms[..k])).db;
    assert UpTo(ms, k, 0) == Line(ms[..k]);
    assert StoppedAt(ms, older, k, 0);
    CompleteRunFrom(ms, older, k, 0);
  }

  // ------------------------------------- why no batch may clash with itself

  /** An index keeps its name from a table that does not exist yet. */
  lemma {:induction false} IndexBlocksTable(db: Db, stmts: seq<Stmt>, t: Name, columns: seq<Name>)
    requires Disjoint(db) && t in db.indexes && Define(CreateTable(t, columns)) in stmts
    ensures !RunStmts(db, stmts).ok
    decreases |stmts|
  {
    if stmts[0] != Define(CreateTable(t, columns)) && ExecStmt(db, stmts[0]).ok {
      IndexBlocksTable(ExecStmt(db, stmts[0]).db, stmts[1..], t, columns);
    }
  }

  lemma {:induction false} IndexIsLeft(db: Db, stmts: seq<Stmt>, d: Ddl)
    requires RunStmts(db, stmts).ok && d.CreateIndex?
    requires Define(d) in stmts || d.index in db.indexes
    ensures d.index in RunStmts(db, stmts).db.indexes
    decreases |stmts|
  {
    if stmts != [] { IndexIsLeft(ExecStmt(db, stmts[0]).db, stmts[1..], d); }
  }

  lemma DefinitionsHave(ddls: seq<Ddl>, d: Ddl)
    requires d in ddls
    ensures Define(d) in Definitions(ddls)
  {
    var k :| 0 <= k < |ddls| && ddls[k] == d;
    assert Definitions(ddls)[k] == Define(d);
  }

  /** The crash that falls just before the version row of batch `j`. */
  function BeforeRow(ms: seq<Migration>, j: nat): Attempt
    requires j < |ms|
  {
    Attempt(|ms|, |UpTo(ms, j, |ms[j].ddls|)|)
  }

  lemma StopsBeforeRow(ms: seq<Migration>, j: nat)
    requires Ascending(ms) && j < |ms|
    ensures UpTo(ms, j, |ms[j].ddls|) == [VERSION_TABLE] + Blocks(ms[..j]) + Definitions(ms[j].ddls)
    ensures StoppedAt(ms, AfterAttempt(EMPTY, ms, BeforeRow(ms, j)), j, |ms[j].ddls|)
  {
    ProgramFromEmpty(ms);
    UpToIsPrefix(ms, j, |ms[j].ddls|);
    assert Prefix(Line(ms), |UpTo(ms, j, |ms[j].ddls|)|) == UpTo(ms, j, |ms[j].ddls|);
  }

  /** A batch that clashes with itself is stuck for good if the process dies between
      its statements and its version row. */
  lemma ClashIsFatal(ms: seq<Migration>, j: nat, later: Ddl, ddl: Ddl)
    requires Migrates(ms) && j < |ms| && later in ms[j].ddls && ddl in ms[j].ddls && Clashes(later, ddl)
    ensures var db := AfterAttempt(EMPTY, ms, BeforeRow(ms, j)); !RunStmts(db, Program(db, ms)).ok
  {
    var db, done := AfterAttempt(EMPTY, ms, BeforeRow(ms, j)), UpTo(ms, j, |ms[j].ddls|);
    StopsBeforeRow(ms, j);
    UpToIsPrefix(ms, j, |ms[j].ddls|);
    PrefixOk(EMPTY, done, Line(ms));
    RunKeepsDisjoint(EMPTY, done);
    DefinitionsHave(ms[j].ddls, later);
    DefinitionsHave(ms[j].ddls, ddl);
    IndexIsLeft(EMPTY, done, later);
    ProgramFrom(ms, db, j, |ms[j].ddls|, |ms|);
    BlockSplit(ms, j);
    assert ms[..|ms|] == ms && ms[j..|ms|] == ms[j..];
    IndexBlocksTable(db, Program(db, ms), ddl.table, ddl.columns);
  }

  /** The next start succeeds, whatever starts came before. */
  ghost predicate Recovers(ms: seq<Migration>) {
    forall attempts: seq<Attempt> ::
      var db := AfterAttempts(EMPTY, ms, attempts); RunStmts(db, Program(db, ms)).ok
  }

  /** A list that migrates an empty store recovers from every crash exactly if no batch
      clashes with itself. */
  lemma {:induction false} RecoversIffApart(ms: seq<Migration>)
    requires Migrates(ms)
    ensures Recovers(ms) <==> ApartBatches(ms)
  {
    if ApartBatches(ms) {
      forall attempts: seq<Attempt>
        ensures var db := AfterAttempts(EMPTY, ms, attempts); RunStmts(db, Program(db, ms)).ok
      {
        MigrationsSurviveCrashes(ms, attempts);
      }
    } else {
      var j :| 0 <= j < |ms| && !Apart(ms[j].ddls);
      var later, ddl :| later in ms[j].ddls && ddl in ms[j].ddls && Clashes(later, ddl);
      ClashIsFatal(ms, j, later, ddl);
      var attempts := [BeforeRow(ms, j)];
      assert AfterAttempts(EMPTY, ms, attempts) == AfterAttempt(EMPTY, ms, attempts[0]);
    }
  }

  // ------------------------------------------------------------------ the store

  datatype RunStatus = Finished | Failed | Crashed

  /** A run that is cut off after `budget` statements. */
  function StatusOf(db: Db, program: seq<Stmt>, budget: nat): RunStatus {
    if !RunStmts(db, Prefix(program, budget)).ok then Failed
    else if budget < |program| then Crashed
    else Finished
  }

  lemma RunSnoc(db: Db, done: seq<Stmt>, s: Stmt)
    requires RunStmts(db, done).ok
    ensures RunStmts(db, done + [s]) == ExecStmt(RunStmts(db, done).db, s)
  {
    RunConcat(db, done, [s]);
    var first := ExecStmt(RunStmts(db, done).db, s);
    if first.ok { assert RunStmts(first.db, []) == Run(first.db, true); }
  }

  /** How a program ends is decided by its first part, or else by the rest. */
  lemma PartThenRest(db: Db, part: seq<Stmt>, rest: seq<Stmt>, budget: nat)
    ensures StatusOf(db, part, budget) != Finished ==>
              && RunStmts(db, Prefix(part + rest, budget)) == RunStmts(db, Prefix(part, budget))
              && StatusOf(db, part + rest, budget) == StatusOf(db, part, budget)
    ensures StatusOf(db, part, budget) == Finished ==>
              && RunStmts(db, part).ok && |part| <= budget
              && var mid, left := RunStmts(db, part).db, budget - |part|;
              && RunStmts(db, Prefix(part + rest, budget)) == RunStmts(mid, Prefix(rest, left))
              && StatusOf(db, part + rest, budget) == StatusOf(mid, rest, left)
  {
    var cut := Prefix(part + rest, budget);
    if budget < |part| {
      assert cut == Prefix(part, budget);
    } else {
      assert cut == part + Prefix(rest, budget - |part|);
      RunConcat(db, part, Prefix(rest, budget - |part|));
    }
  }

  lemma PendingStep(ms: seq<Migration>, m: nat, current: int)
    requires m < |ms|
    ensures Pending(ms[m..], current) ==
            (if ms[m].version <= current then Pending(ms[m + 1..], current)
             else Block(ms[m]) + Pending(ms[m + 1..], current))
  {
    assert ms[m..][0] == ms[m] && ms[m..][1..] == ms[m + 1..];
    assert [] + Pending(ms[m + 1..], current) == Pending(ms[m + 1..], current);
  }

  class Store {
    var tables: map<Name, seq<Name>>
    var indexes: map<Name, (Name, Name)>
    var versions: seq<VersionRow>

    function Schema(): Db
      reads this
    {
      Db(tables, indexes, versions)
    }

    constructor ()
      ensures Schema() == EMPTY
    {
      tables, indexes, versions := map[], map[], [];
    }

    method Execute(ddl: Ddl) returns (outcome: Outcome)
      modifies this
      ensures (Schema(), outcome) == Exec(old(Schema()), ddl)
    {
      match ddl
      case CreateTable(t, columns) =>
        if t in tables { return Done; }
        if t in indexes { return Fatal; }
        var repeats := RepeatsColumn(columns);
        if repeats { return DuplicateColumn; }
        tables := tables[t := columns];
        return Done;
      case AddColumn(t, c) =>
        if t !in tables { return Fatal; }
        if c in tables[t] { return DuplicateColumn; }
        tables := tables[t := tables[t] + [c]];
        return Done;
      case CreateIndex(i, t, c) =>
        if t !in tables || i in tables { return Fatal; }
        if i in indexes { return Done; }
        if c !in tables[t] { return Fatal; }
        indexes := indexes[i := (t, c)];
        return Done;
    }

    static method RepeatsColumn(columns: seq<Name>) returns (repeats: bool)
      ensures repeats == !Distinct(columns)
    {
      for j := 0 to |columns|
        invariant forall x, y :: 0 <= x < y < j ==> columns[x] != columns[y]
      {
        for i := 0 to j
          invariant forall x :: 0 <= x < i ==> columns[x] != columns[j]
        {
          if columns[i] == columns[j] { return true; }
        }
      }
      return false;
    }

    method InsertVersion(row: VersionRow) returns (ok: bool)
      modifies this`versions
      ensures Run(Schema(), ok) == ExecStmt(old(Schema()), Record(row))
    {
      for i := 0 to |versions|
        invariant forall x :: 0 <= x < i ==> versions[x].version != row.version
      {
        if versions[i].version == row.version { return false; }
      }
      versions := versions + [row];
      return true;
    }

    method CurrentVersion() returns (current: int)
      ensures current == MaxVersion(versions)
      ensures forall i :: 0 <= i < |versions| ==> versions[i].version <= current
    {
      current := 0;
      for i := 0 to |versions|
        invariant current == MaxVersion(versions[..i])
        invariant forall x :: 0 <= x < i ==> versions[x].version <= current
      {
        assert versions[..i + 1][..i] == versions[..i];
        if i == 0 || versions[i].version > current { current := versions[i].version; }
      }
      assert versions[..|versions|] == versions;
    }

    /** The batch of one migration and its version row. */
    method RunMigration(m: Migration, budget: nat) returns (status: RunStatus, left: nat)
      modifies this
      ensures Schema() == RunStmts(old(Schema()), Prefix(Block(m), budget)).db
      ensures status == StatusOf(old(Schema()), Block(m), budget)
      ensures status == Finished ==> left == budget - |Block(m)|
    {
      ghost var db, record := Schema(), Record(VersionRow(m.version, m.name));
      left := budget;
      for d := 0 to |m.ddls|
        invariant left == budget - d
        invariant RunStmts(db, Block(m)[..d]) == Run(Schema(), true)
      {
        if left == 0 { return Crashed, 0; }
        left := left - 1;
        var outcome := Execute(m.ddls[d]);
        assert Block(m)[..d + 1] == Block(m)[..d] + [Define(m.ddls[d])];
        RunSnoc(db, Block(m)[..d], Define(m.ddls[d]));
        if outcome == Fatal {
          FailedPrefix(db, Block(m), d + 1, budget);
          return Failed, left;
        }
      }
      if left == 0 { return Crashed, 0; }
      left := left - 1;
      var ok := InsertVersion(VersionRow(m.version, m.name));
      assert Block(m) == Block(m)[..|m.ddls|] + [record];
      RunSnoc(db, Block(m)[..|m.ddls|], record);
      status := if ok then Finished else Failed;
    }

    /** The loop over the migrations above the current version. */
    method RunPending(ms: seq<Migration>, current: int, budget: nat) returns (status: RunStatus)
      modifies this
      ensures Schema() == RunStmts(old(Schema()), Prefix(Pending(ms, current), budget)).db
      ensures status == StatusOf(old(Schema()), Pending(ms, current), budget)
    {
      ghost var db, program := Schema(), Pending(ms, current);
      var left := budget;
      assert ms[0..] == ms;
      for m := 0 to |ms|
        invariant RunStmts(Schema(), Prefix(Pending(ms[m..], current), left)) == RunStmts(db, Prefix(program, budget))
        invariant StatusOf(Schema(), Pending(ms[m..], current), left) == StatusOf(db, program, budget)
      {
        PendingStep(ms, m, current);
        if ms[m].version <= current { continue; }
        PartThenRest(Schema(), Block(ms[m]), Pending(ms[m + 1..], current), left);
        status, left := RunMigration(ms[m], left);
        if status != Finished { return; }
      }
      assert ms[|ms|..] == [];
      status := Finished;
    }

    /** `runMigrations`; the process dies after `budget` statements. */
    method RunMigrations(ms: seq<Migration>, budget: nat) returns (status: RunStatus)
      modifies this
      ensures var program := Program(old(Schema()), ms);
              && Schema() == RunStmts(old(Schema()), Prefix(program, budget)).db
              && status == StatusOf(old(Schema()), program, budget)
    {
      ghost var db := Schema();
      if budget == 0 { assert Prefix(Program(db, ms), 0) == []; return Crashed; }
      PartThenRest(db, [VERSION_TABLE], Pending(ms, MaxVersion(db.versions)), budget);
      VersionTableFirst(db, budget);
      var outcome := Execute(VERSION_TABLE.ddl);
      if outcome == Fatal { return Failed; }
      var current := CurrentVersion();
      status := RunPending(ms, current, budget - 1);
    }
  }

  lemma VersionTableFirst(db: Db, budget: nat)
    requires budget > 0
    ensures RunStmts(db, Prefix([VERSION_TABLE], budget)) == RunStmts(db, [VERSION_TABLE])
    ensures RunStmts(db, [VERSION_TABLE]) == ExecStmt(db, VERSION_TABLE)
  {
    RunSnoc(db, [], VERSION_TABLE);
    assert [] + [VERSION_TABLE] == [VERSION_TABLE];
    assert Prefix([VERSION_TABLE], budget) == [VERSION_TABLE];
  }

  /** Once a prefix has failed, executing more of the program changes nothing. */
  lemma FailedPrefix(db: Db, program: seq<Stmt>, n: nat, budget: nat)
    requires n <= |program| && n <= budget && !RunStmts(db, program[..n]).ok
    ensures RunStmts(db, Prefix(program, budget)) == RunStmts(db, program[..n])
  {
    var cut := Prefix(program, budget);
    assert cut == program[..n] + cut[n..];
    RunConcat(db, program[..n], cut[n..]);
  }
}
