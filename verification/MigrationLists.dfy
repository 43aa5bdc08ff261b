/** A criterion that can be read off a list of migrations: each statement only alters
    or indexes what an earlier one created. Such a list migrates an empty store, so
    the results about crashes and upgrades apply to it. */
module MigrationLists {
  import opened Migrations
  import opened Sequences

  predicate IsIndexName(n: Name) {
    |n| >= 4 && n[0] == 'i' && n[1] == 'd' && n[2] == 'x' && n[3] == '_'
  }

  /** The statement cannot fail after those in `before`: tables are created with one
      list of distinct columns, and what is altered or indexed was created earlier. */
  predicate Legal(shape: Name -> seq<Name>, before: set<Ddl>, d: Ddl) {
    match d
    case CreateTable(t, columns) => !IsIndexName(t) && columns == shape(t) && Distinct(columns)
    case AddColumn(t, _) => CreateTable(t, shape(t)) in before
    case CreateIndex(i, t, c) =>
      IsIndexName(i) && CreateTable(t, shape(t)) in before && (c in shape(t) || AddColumn(t, c) in before)
  }

  predicate LegalBatch(shape: Name -> seq<Name>, before: set<Ddl>, ddls: seq<Ddl>)
    decreases |ddls|
  {
    ddls != [] ==> Legal(shape, before, ddls[0]) && LegalBatch(shape, before + {ddls[0]}, ddls[1..])
  }

  function With(before: set<Ddl>, ddls: seq<Ddl>): set<Ddl>
    decreases |ddls|
  {
    if ddls == [] then before else With(before + {ddls[0]}, ddls[1..])
  }

  predicate LegalList(shape: Name -> seq<Name>, before: set<Ddl>, ms: seq<Migration>)
    decreases |ms|
  {
    ms != [] ==> LegalBatch(shape, before, ms[0].ddls) && LegalList(shape, With(before, ms[0].ddls), ms[1..])
  }

  /** What the statements in `before` have left in the store: their tables, columns and
      indexes, and nothing else. */
  ghost predicate Shows(shape: Name -> seq<Name>, before: set<Ddl>, db: Db) {
    && (forall i :: i in db.indexes ==> IsIndexName(i))
    && (forall t :: t in db.tables ==> !IsIndexName(t) && TableShows(shape, before, t, db.tables[t]))
    && (forall d :: d in before ==> Applies(d, db))
    && (forall i :: i in db.indexes ==> CreateIndex(i, db.indexes[i].0, db.indexes[i].1) in before)
  }

  ghost predicate TableShows(shape: Name -> seq<Name>, before: set<Ddl>, t: Name, columns: seq<Name>) {
    && CreateTable(t, shape(t)) in before && shape(t) <= columns && Distinct(columns)
    && forall c :: c in columns ==> c in shape(t) || AddColumn(t, c) in before
  }

  predicate Applies(d: Ddl, db: Db) {
    match d
    case CreateTable(t, _) => t in db.tables
    case AddColumn(t, c) => t in db.tables && c in db.tables[t]
    case CreateIndex(i, _, _) => i in db.indexes
  }

  lemma LegalRuns(shape: Name -> seq<Name>, before: set<Ddl>, db: Db, d: Ddl)
    requires Shows(shape, before, db) && Legal(shape, before, d)
    ensures ExecStmt(db, Define(d)).ok && Shows(shape, before + {d}, ExecStmt(db, Define(d)).db)
  {
    match d
    case CreateTable(t, columns) =>
    case AddColumn(t, c) => AddingRuns(shape, before, db, t, c);
    case CreateIndex(i, t, c) =>
      assert Applies(CreateTable(t, shape(t)), db);
      if c in shape(t) {
        var k :| 0 <= k < |shape(t)| && shape(t)[k] == c;
        assert db.tables[t][k] == c;
      } else {
        assert Applies(AddColumn(t, c), db);
      }
  }

  lemma AddingRuns(shape: Name -> seq<Name>, before: set<Ddl>, db: Db, t: Name, c: Name)
    requires Shows(shape, before, db) && Legal(shape, before, AddColumn(t, c))
    ensures var run := ExecStmt(db, Define(AddColumn(t, c)));
            run.ok && Shows(shape, before + {AddColumn(t, c)}, run.db)
  {
    var after := ExecStmt(db, Define(AddColumn(t, c))).db;
    assert Applies(CreateTable(t, shape(t)), db);
    if c !in db.tables[t] {
      assert after.tables[t] == db.tables[t] + [c];
      assert after.tables[t][|db.tables[t]|] == c;
      forall i | 0 <= i < |db.tables[t]| ensures after.tables[t][i] in db.tables[t] {}
      forall d | d in before ensures Applies(d, after) { assert Applies(d, db); }
    }
  }

  lemma {:induction false} BatchRuns(shape: Name -> seq<Name>, before: set<Ddl>, db: Db, ddls: seq<Ddl>)
    requires Shows(shape, before, db) && LegalBatch(shape, before, ddls)
    ensures RunStmts(db, Definitions(ddls)).ok && Shows(shape, With(before, ddls), RunStmts(db, Definitions(ddls)).db)
    decreases |ddls|
  {
    if ddls == [] {
      assert Definitions(ddls) == [];
    } else {
      LegalRuns(shape, before, db, ddls[0]);
      BatchRuns(shape, before + {ddls[0]}, ExecStmt(db, Define(ddls[0])).db, ddls[1..]);
      BatchUnfolds(db, ddls);
    }
  }

  lemma BatchUnfolds(db: Db, ddls: seq<Ddl>)
    requires ddls != [] && ExecStmt(db, Define(ddls[0])).ok
    ensures RunStmts(db, Definitions(ddls)) == RunStmts(ExecStmt(db, Define(ddls[0])).db, Definitions(ddls[1..]))
  {
    assert Definitions(ddls)[1..] == Definitions(ddls[1..]);
  }

  /** All statements so far, and those of the list. */
  function Everything(before: set<Ddl>, ms: seq<Migration>): set<Ddl>
    decreases |ms|
  {
    if ms == [] then before else Everything(With(before, ms[0].ddls), ms[1..])
  }

  lemma {:induction false} WithHas(before: set<Ddl>, ddls: seq<Ddl>, d: Ddl)
    ensures d in With(before, ddls) <==> d in before || d in ddls
    decreases |ddls|
  {
    if ddls != [] { WithHas(before + {ddls[0]}, ddls[1..], d); }
  }

  lemma {:induction false} EverythingHas(before: set<Ddl>, ms: seq<Migration>, d: Ddl)
    ensures d in Everything(before, ms) <==> d in before || exists j :: 0 <= j < |ms| && d in ms[j].ddls
    decreases |ms|
  {
    if ms != [] {
      EverythingHas(With(before, ms[0].ddls), ms[1..], d);
      WithHas(before, ms[0].ddls, d);
      assert forall j :: 0 <= j < |ms| - 1 ==> ms[1..][j] == ms[j + 1];
      if exists j :: 0 <= j < |ms| && d in ms[j].ddls {
        var j :| 0 <= j < |ms| && d in ms[j].ddls;
        assert j > 0 ==> d in ms[1..][j - 1].ddls;
      }
    }
  }

  lemma VersionsDoNotShow(shape: Name -> seq<Name>, before: set<Ddl>, db: Db, versions: seq<VersionRow>)
    requires Shows(shape, before, db)
    ensures Shows(shape, before, db.(versions := versions))
  {
    forall d | d in before ensures Applies(d, db.(versions := versions)) { assert Applies(d, db); }
  }

  lemma {:induction false} ListRuns(shape: Name -> seq<Name>, before: set<Ddl>, db: Db, ms: seq<Migration>)
    requires Shows(shape, before, db) && LegalList(shape, before, ms) && Ascending(ms)
    requires forall row :: row in db.versions && ms != [] ==> row.version < ms[0].version
    ensures RunStmts(db, Blocks(ms)).ok && Shows(shape, Everything(before, ms), RunStmts(db, Blocks(ms)).db)
    decreases |ms|
  {
    if ms != [] {
      var m := ms[0];
      BatchRuns(shape, before, db, m.ddls);
      var mid := RunStmts(db, Definitions(m.ddls)).db;
      DefinitionsKeepVersions(db, Definitions(m.ddls));
      var record := Record(VersionRow(m.version, m.name));
      assert forall i :: 0 <= i < |mid.versions| ==> mid.versions[i] in db.versions;
      assert !HasVersion(mid.versions, m.version);
      var next := mid.(versions := mid.versions + [record.row]);
      assert RunStmts(mid, [record]) == Run(next, true) by { assert RunStmts(next, []) == Run(next, true); }
      RunConcat(db, Definitions(m.ddls), [record]);
      RunConcat(db, Block(m), Blocks(ms[1..]));
      if |ms| > 1 { assert ms[1..][0] == ms[1]; }
      VersionsDoNotShow(shape, With(before, m.ddls), mid, next.versions);
      ListRuns(shape, With(before, m.ddls), next, ms[1..]);
    }
  }

  lemma {:induction false} LegalBatchIsApart(shape: Name -> seq<Name>, before: set<Ddl>, ddls: seq<Ddl>)
    requires LegalBatch(shape, before, ddls)
    ensures forall d :: d in ddls && d.CreateTable? ==> Distinct(d.columns)
    ensures Apart(ddls)
    decreases |ddls|
  {
    if ddls != [] { LegalBatchIsApart(shape, before + {ddls[0]}, ddls[1..]); }
  }

  lemma {:induction false} LegalListIsApart(shape: Name -> seq<Name>, before: set<Ddl>, ms: seq<Migration>, j: nat)
    requires LegalList(shape, before, ms) && j < |ms|
    ensures Apart(ms[j].ddls)
    decreases |ms|
  {
    if j == 0 {
      LegalBatchIsApart(shape, before, ms[0].ddls);
    } else {
      LegalListIsApart(shape, With(before, ms[0].ddls), ms[1..], j - 1);
    }
  }

  /** A list with ascending versions and legal statements migrates an empty store. */
  lemma LegalIsWellFormed(shape: Name -> seq<Name>, ms: seq<Migration>)
    requires Ascending(ms) && Legal(shape, {}, VERSION_TABLE.ddl) && LegalList(shape, {VERSION_TABLE.ddl}, ms)
    ensures WellFormed(ms)
  {
    LineShows(shape, ms);
    forall j | 0 <= j < |ms| ensures Apart(ms[j].ddls) {
      LegalListIsApart(shape, {VERSION_TABLE.ddl}, ms, j);
    }
  }

  /** The statement is the one for the version table, or in the list. */
  predicate IsStatement(ms: seq<Migration>, d: Ddl) {
    d == CreateTable("schema_version", ["version", "name", "applied_at"])
    || exists j :: 0 <= j < |ms| && d in ms[j].ddls
  }

  /** The schema such a list leads to: exactly the tables it creates, beside the version
      table; each with its declared columns first, then those it adds, none twice; and
      exactly the indexes it creates, each on a table and column it is created on. */
  lemma MigratedSchemaIs(shape: Name -> seq<Name>, ms: seq<Migration>, t: Name, c: Name, i: Name)
    requires Ascending(ms) && Legal(shape, {}, VERSION_TABLE.ddl) && LegalList(shape, {VERSION_TABLE.ddl}, ms)
    ensures var db := RunStmts(EMPTY, Line(ms)).db;
            && (t in db.tables <==> IsStatement(ms, CreateTable(t, shape(t))))
            && (t in db.tables ==>
                  && shape(t) <= db.tables[t] && Distinct(db.tables[t])
                  && (c in db.tables[t] <==> c in shape(t) || IsStatement(ms, AddColumn(t, c))))
            && (IsStatement(ms, CreateIndex(i, t, c)) ==> i in db.indexes)
            && (i in db.indexes ==> IsStatement(ms, CreateIndex(i, db.indexes[i].0, db.indexes[i].1)))
  {
    var db := RunStmts(EMPTY, Line(ms)).db;
    var all := Everything({VERSION_TABLE.ddl}, ms);
    LineShows(shape, ms);
    EverythingHas({VERSION_TABLE.ddl}, ms, CreateTable(t, shape(t)));
    EverythingHas({VERSION_TABLE.ddl}, ms, AddColumn(t, c));
    EverythingHas({VERSION_TABLE.ddl}, ms, CreateIndex(i, t, c));
    if i in db.indexes { EverythingHas({VERSION_TABLE.ddl}, ms, CreateIndex(i, db.indexes[i].0, db.indexes[i].1)); }
    assert CreateTable(t, shape(t)) in all ==> Applies(CreateTable(t, shape(t)), db);
    assert AddColumn(t, c) in all ==> Applies(AddColumn(t, c), db);
    assert CreateIndex(i, t, c) in all ==> Applies(CreateIndex(i, t, c), db);
    if t in db.tables {
      assert TableShows(shape, all, t, db.tables[t]);
      forall k | 0 <= k < |shape(t)| ensures shape(t)[k] == db.tables[t][k] {}
    }
  }

  lemma LineShows(shape: Name -> seq<Name>, ms: seq<Migration>)
    requires Ascending(ms) && Legal(shape, {}, VERSION_TABLE.ddl) && LegalList(shape, {VERSION_TABLE.ddl}, ms)
    ensures RunStmts(EMPTY, Line(ms)).ok
    ensures Shows(shape, Everything({VERSION_TABLE.ddl}, ms), RunStmts(EMPTY, Line(ms)).db)
  {
    LegalRuns(shape, {}, EMPTY, VERSION_TABLE.ddl);
    var db := ExecStmt(EMPTY, VERSION_TABLE).db;
    assert {} + {VERSION_TABLE.ddl} == {VERSION_TABLE.ddl};
    ListRuns(shape, {VERSION_TABLE.ddl}, db, ms);
    RunConcat(EMPTY, [VERSION_TABLE], Blocks(ms));
    assert RunStmts(EMPTY, [VERSION_TABLE]) == Run(db, true) by { assert RunStmts(db, []) == Run(db, true); }
  }
}
