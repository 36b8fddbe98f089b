/** The store: the statements the program sends to the database, run one
    after another and stopped at the first error. A failed statement ends the
    program; here that end is a `Fatal` value naming the operation. */
module DbStore {
  import opened Wrappers
  import opened DbSchema
  import opened DbRows

  /** A statement, by what it does rather than by its SQL text. */
  datatype Statement =
    | DropTableIfExists(table: Table)
    | CreateTable(table: Table, schema: seq<ColumnDef>)
    | InsertInto(table: Table, columns: seq<Column>, values: seq<SqlValue>)

  /** The database's answer to a statement, given the statements sent before
      it: `None` when it succeeds, the error message otherwise (an error of
      the query itself or one met while reading its result rows). */
  type Driver = (seq<Statement>, Statement) -> Option<string>

  /** The end of the program: the operation that failed and the cause. */
  datatype Fatal = Fatal(operation: string, cause: string)

  /** A failed statement ends the program in `operation`; success does not. */
  function FatalIn(operation: string, err: Option<string>): Option<Fatal>
  {
    match err
    case None => None
    case Some(cause) => Some(Fatal(operation, cause))
  }

  // ---------------------------------------------------------------------
  // The statements of each operation
  // ---------------------------------------------------------------------

  function InsertEventStatement(e: IssueEvent, s: IssueState): Statement
  {
    InsertInto(JiraIssuesEvents, EventInsertColumns(), EventParams(e, s))
  }

  function InsertStateStatement(s: IssueState): Statement
  {
    InsertInto(JiraIssuesStates, StateInsertColumns(), StateParams(s))
  }

  /** Drops and recreates the events table. */
  function ResetTableJiraIssuesEvents(): seq<Statement>
  {
    [DropTableIfExists(JiraIssuesEvents), CreateTable(JiraIssuesEvents, EventsSchema())]
  }

  /** Drops and recreates the states table. */
  function ResetTableJiraIssuesStates(): seq<Statement>
  {
    [DropTableIfExists(JiraIssuesStates), CreateTable(JiraIssuesStates, StatesSchema())]
  }

  /** The statements of a reset: the events table first, then the states table. */
  function ResetQueries(): seq<Statement>
  {
    ResetTableJiraIssuesEvents() + ResetTableJiraIssuesStates()
  }

  function DropQueries(): seq<Statement>
  {
    [DropTableIfExists(JiraIssuesEvents), DropTableIfExists(JiraIssuesStates)]
  }

  // ---------------------------------------------------------------------
  // Running a list of statements
  // ---------------------------------------------------------------------

  /** Sends `queries` in order after `history`, stopping at the first one the
      database rejects; gives every statement sent, the rejected one
      included, and the error that stopped the run. */
  function RunQueries(history: seq<Statement>, queries: seq<Statement>, driver: Driver): (seq<Statement>, Option<string>)
    decreases |queries|
  {
    if queries == [] then (history, None)
    else
      var err := driver(history, queries[0]);
      if err.Some? then (history + [queries[0]], err)
      else RunQueries(history + [queries[0]], queries[1..], driver)
  }

  /** Every one of `queries` succeeds when sent after `history` and the
      queries before it. */
  predicate AllSucceed(history: seq<Statement>, queries: seq<Statement>, driver: Driver)
  {
    forall i :: 0 <= i < |queries| ==> driver(history + queries[..i], queries[i]) == None
  }

  lemma {:induction false} AllSucceedCons(history: seq<Statement>, q: Statement, rest: seq<Statement>, driver: Driver)
    ensures AllSucceed(history, [q] + rest, driver) <==>
      driver(history, q) == None && AllSucceed(history + [q], rest, driver)
  {
    var qs := [q] + rest;
    assert qs[0] == q && history + qs[..0] == history;
    forall i | 0 <= i < |rest|
      ensures history + qs[..i + 1] == (history + [q]) + rest[..i] && qs[i + 1] == rest[i]
    {
      assert qs[..i + 1] == [q] + rest[..i];
    }
  }

  /** A run sends a prefix of the queries, each after the ones before it; it
      ends without error only once all are sent, and otherwise with the error
      of the last statement it sent. */
  lemma {:induction false} RunQueriesSendsPrefix(history: seq<Statement>, queries: seq<Statement>, driver: Driver)
    ensures var n := |RunQueries(history, queries, driver).0| - |history|;
      0 <= n <= |queries| && RunQueries(history, queries, driver).0 == history + queries[..n]
      && (RunQueries(history, queries, driver).1.None? ==> n == |queries|)
      && (RunQueries(history, queries, driver).1.Some? ==>
            1 <= n && RunQueries(history, queries, driver).1 == driver(history + queries[..n - 1], queries[n - 1]))
    decreases |queries|
  {
    if queries != [] {
      var q, rest := queries[0], queries[1..];
      var h := history + [q];
      if driver(history, q).None? {
        RunQueriesSendsPrefix(h, rest, driver);
        var n := |RunQueries(h, rest, driver).0| - |h|;
        assert queries[..n + 1] == [q] + rest[..n];
        assert h + rest[..n] == history + queries[..n + 1];
        if n >= 1 {
          assert queries[..n] == [q] + rest[..n - 1];
          assert h + rest[..n - 1] == history + queries[..n];
        }
      } else {
        assert queries[..1] == [q];
        assert history + queries[..0] == history;
      }
    }
  }

  /** Every statement a run sent before the last one succeeded, and the last
      one too when the run ends without error. */
  lemma {:induction false} RunQueriesPrefixSucceeded(history: seq<Statement>, queries: seq<Statement>, driver: Driver)
    ensures var r := RunQueries(history, queries, driver);
      var n := |r.0| - |history|;
      0 <= (if r.1.Some? then n - 1 else n) <= |queries|
      && AllSucceed(history, queries[..if r.1.Some? then n - 1 else n], driver)
    decreases |queries|
  {
    RunQueriesSendsPrefix(history, queries, driver);
    if queries != [] {
      var q, rest := queries[0], queries[1..];
      var h := history + [q];
      if driver(history, q).None? {
        RunQueriesPrefixSucceeded(h, rest, driver);
        var r := RunQueries(h, rest, driver);
        var m := if r.1.Some? then |r.0| - |h| - 1 else |r.0| - |h|;
        AllSucceedCons(history, q, rest[..m], driver);
        assert queries[..m + 1] == [q] + rest[..m];
      } else {
        assert queries[..0] == [];
      }
    }
  }

  /** A run ends without error exactly when every query succeeds. */
  lemma {:induction false} RunQueriesSucceedsIffAll(history: seq<Statement>, queries: seq<Statement>, driver: Driver)
    ensures RunQueries(history, queries, driver).1.None? <==> AllSucceed(history, queries, driver)
    decreases |queries|
  {
    if queries != [] {
      var q, rest := queries[0], queries[1..];
      assert queries == [q] + rest;
      AllSucceedCons(history, q, rest, driver);
      if driver(history, q).None? {
        RunQueriesSucceedsIffAll(history + [q], rest, driver);
      }
    }
  }

  // ---------------------------------------------------------------------
  // What the statement lists do to the tables
  // ---------------------------------------------------------------------

  /** The tables a database holds, with the columns each declares. */
  type Catalogue = map<Table, seq<ColumnDef>>

  /** A statement's effect on the tables: dropping removes the table if it is
      there; creating fails on a table that already exists; inserting needs
      the table and leaves the tables as they are. */
  function ApplyStatement(tables: Catalogue, q: Statement): Option<Catalogue>
  {
    match q
    case DropTableIfExists(t) => Some(tables - {t})
    case CreateTable(t, schema) => if t in tables then None else Some(tables[t := schema])
    case InsertInto(t, _, _) => if t in tables then Some(tables) else None
  }

  function ApplyAll(tables: Catalogue, queries: seq<Statement>): Option<Catalogue>
    decreases |queries|
  {
    if queries == [] then Some(tables)
    else match ApplyStatement(tables, queries[0])
      case None => None
      case Some(next) => ApplyAll(next, queries[1..])
  }

  /** Whatever tables the database holds, a reset never meets a table that
      already exists, and leaves both tables defined by their schemas and
      every other table untouched. */
  lemma ResetDefinesBothTables(tables: Catalogue)
    ensures ApplyAll(tables, ResetQueries()) ==
      Some(tables[JiraIssuesEvents := EventsSchema()][JiraIssuesStates := StatesSchema()])
  {
    var t1 := tables - {JiraIssuesEvents};
    var t2 := t1[JiraIssuesEvents := EventsSchema()];
    var t3 := t2 - {JiraIssuesStates};
    var t4 := t3[JiraIssuesStates := StatesSchema()];
    var qs := ResetQueries();
    assert ApplyAll(t4, qs[4..]) == Some(t4);
    assert ApplyAll(t3, qs[3..]) == Some(t4);
    assert ApplyAll(t2, qs[2..]) == Some(t4);
    assert ApplyAll(t1, qs[1..]) == Some(t4);
    assert t4 == tables[JiraIssuesEvents := EventsSchema()][JiraIssuesStates := StatesSchema()];
  }

  /** Dropping the tables removes both and nothing else. */
  lemma DropRemovesBothTables(tables: Catalogue)
    ensures ApplyAll(tables, DropQueries()) == Some(tables - {JiraIssuesEvents, JiraIssuesStates})
  {
    var qs := DropQueries();
    var t1 := tables - {JiraIssuesEvents};
    var t2 := t1 - {JiraIssuesStates};
    assert ApplyAll(t2, qs[2..]) == Some(t2);
    assert ApplyAll(t1, qs[1..]) == Some(t2);
    assert t2 == tables - {JiraIssuesEvents, JiraIssuesStates};
  }

  // ---------------------------------------------------------------------
  // The connection
  // ---------------------------------------------------------------------

  class DB {
    /** Every statement sent so far, in order. */
    var history: seq<Statement>
    const driver: Driver

    constructor (driver: Driver)
      ensures history == [] && this.driver == driver
    {
      history := [];
      this.driver := driver;
    }

    /** Sends one statement and gives the database's error, if any. */
    method Query(q: Statement) returns (err: Option<string>)
      modifies this
      ensures history == old(history) + [q]
      ensures err == driver(old(history), q)
    {
      err := driver(history, q);
      history := history + [q];
    }

    /** Sends the queries in order and returns the first error. */
    method DoQueries(queries: seq<Statement>) returns (err: Option<string>)
      modifies this
      ensures (history, err) == RunQueries(old(history), queries, driver)
    {
      var i := 0;
      while i < |queries|
        invariant 0 <= i <= |queries|
        invariant RunQueries(old(history), queries, driver) == RunQueries(history, queries[i..], driver)
      {
        assert queries[i..][1..] == queries[i + 1..];
        err := Query(queries[i]);
        if err.Some? {
          return;
        }
        i := i + 1;
      }
      return None;
    }

    /** Records one event of an issue together with the issue's snapshot. */
    method InsertIssueEvent(e: IssueEvent, s: IssueState) returns (fatal: Option<Fatal>)
      modifies this
      ensures history == old(history) + [InsertEventStatement(e, s)]
      ensures fatal == FatalIn("InsertIssueEvent", driver(old(history), InsertEventStatement(e, s)))
    {
      var err := Query(InsertEventStatement(e, s));
      fatal := FatalIn("InsertIssueEvent", err);
    }

    /** Records one snapshot of an issue. */
    method InsertIssueState(s: IssueState) returns (fatal: Option<Fatal>)
      modifies this
      ensures history == old(history) + [InsertStateStatement(s)]
      ensures fatal == FatalIn("InsertIssueState", driver(old(history), InsertStateStatement(s)))
    {
      var err := Query(InsertStateStatement(s));
      fatal := FatalIn("InsertIssueState", err);
    }

    /** Drops and recreates both tables, the events table first. */
    method Reset() returns (fatal: Option<Fatal>)
      modifies this
      ensures history == RunQueries(old(history), ResetQueries(), driver).0
      ensures fatal == FatalIn("Reset", RunQueries(old(history), ResetQueries(), driver).1)
    {
      var queries: seq<Statement> := [];
      queries := queries + ResetTableJiraIssuesEvents();
      queries := queries + ResetTableJiraIssuesStates();
      var err := DoQueries(queries);
      fatal := FatalIn("Reset", err);
    }

    /** Drops both tables. */
    method DropDBTables() returns (fatal: Option<Fatal>)
      modifies this
      ensures history == RunQueries(old(history), DropQueries(), driver).0
      ensures fatal == FatalIn("dropDBTables", RunQueries(old(history), DropQueries(), driver).1)
    {
      var err := DoQueries(DropQueries());
      fatal := FatalIn("dropDBTables", err);
    }
  }

  /** A database that accepts every statement: the reset sends the drop and
      the create of the events table, then those of the states table, and
      does not end the program. */
  method ResetOnAcceptingDatabase() returns (fatal: Option<Fatal>, sent: seq<Statement>)
    ensures fatal == None
    ensures sent == [ DropTableIfExists(JiraIssuesEvents), CreateTable(JiraIssuesEvents, EventsSchema()),
                      DropTableIfExists(JiraIssuesStates), CreateTable(JiraIssuesStates, StatesSchema()) ]
  {
    var db := new DB((h: seq<Statement>, q: Statement) => None);
    RunQueriesSucceedsIffAll([], ResetQueries(), db.driver);
    RunQueriesSendsPrefix([], ResetQueries(), db.driver);
    fatal := db.Reset();
    sent := db.history;
  }

  /** A database that rejects every table creation: the reset sends the drop
      and the create of the events table, stops there, and ends the program. */
  method ResetStopsAtFailedCreate(cause: string) returns (fatal: Option<Fatal>, sent: seq<Statement>)
    ensures fatal == Some(Fatal("Reset", cause))
    ensures sent == [DropTableIfExists(JiraIssuesEvents), CreateTable(JiraIssuesEvents, EventsSchema())]
  {
    var db := new DB((h: seq<Statement>, q: Statement) => if q.CreateTable? then Some(cause) else None);
    fatal := db.Reset();
    sent := db.history;
  }

  /** Two snapshots that differ at most in the key and the reporter. */
  predicate SameExceptKeyAndReporter(s: IssueState, t: IssueState)
  {
    s.createdAt == t.createdAt && s.updatedAt == t.updatedAt
    && s.project == t.project && s.status == t.status && s.resolvedAt == t.resolvedAt
    && s.priority == t.priority && s.summary == t.summary && s.description == t.description
    && s.issueType == t.issueType && s.labels == t.labels && s.assignee == t.assignee
    && s.developerBackend == t.developerBackend && s.developerFrontend == t.developerFrontend
    && s.reviewer == t.reviewer && s.productOwner == t.productOwner && s.bugCause == t.bugCause
    && s.epic == t.epic && s.tribe == t.tribe && s.components == t.components
    && s.fixVersions == t.fixVersions
  }

  /** Neither insert binds the reporter, and the events insert takes the issue
      key from the event, not from the snapshot. */
  lemma InsertsIgnoreReporterAndSnapshotKey(e: IssueEvent, s: IssueState, t: IssueState)
    requires SameExceptKeyAndReporter(s, t)
    ensures InsertEventStatement(e, s) == InsertEventStatement(e, t)
    ensures s.key == t.key ==> InsertStateStatement(s) == InsertStateStatement(t)
  {
  }
}
