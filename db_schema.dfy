/** The two tables of the store as their `CREATE TABLE` statements declare
    them, and the column lists the two inserts name. */
module DbSchema {

  /** The columns of the two tables, each named after its SQL column. */
  datatype Column =
    | Id | InsertedAt
    | EventTime | EventKind | EventAuthor
    | CommentBody | StatusChangeFrom | StatusChangeTo
    | IssueKey | IssueCreatedAt | IssueUpdatedAt
    | IssueProject | IssueStatus | IssueResolvedAt | IssuePriority | IssueSummary
    | IssueDescription | IssueType | IssueLabels | IssueAssignee
    | IssueDeveloperBackend | IssueDeveloperFrontend | IssueReviewer | IssueProductOwner
    | IssueBugCause | IssueEpic | IssueTribe | IssueComponents | IssueFixVersions

  /** `jira_issues_events` and `jira_issues_states`. */
  datatype Table = JiraIssuesEvents | JiraIssuesStates

  // ---------------------------------------------------------------------
  // Column declarations
  // ---------------------------------------------------------------------

  datatype SqlType = SerialType | TimestampType | Timestamp6Type | TextType

  /** What the database fills in when an insert leaves the column out. */
  datatype ColumnDefault = NoDefault | SerialKey | StatementTimestamp

  datatype ColumnDef = ColumnDef(column: Column, sqlType: SqlType, notNull: bool, default: ColumnDefault)

  /** How a column is declared. Both tables declare every column they share
      with the same type and the same NULL constraint, so one declaration per
      column serves both. `id` is a serial primary key; `inserted_at` is a
      microsecond timestamp stamped with the statement time; the event time,
      kind and author, the issue key and timestamps, and the issue's project,
      status, priority, summary and type may not be NULL. */
  function Declaration(c: Column): (d: ColumnDef)
    ensures d.column == c
  {
    match c
    case Id => ColumnDef(c, SerialType, true, SerialKey)
    case InsertedAt => ColumnDef(c, Timestamp6Type, true, StatementTimestamp)
    case EventTime => ColumnDef(c, TimestampType, true, NoDefault)
    case IssueCreatedAt => ColumnDef(c, TimestampType, true, NoDefault)
    case IssueUpdatedAt => ColumnDef(c, TimestampType, true, NoDefault)
    case IssueResolvedAt => ColumnDef(c, TimestampType, false, NoDefault)
    case EventKind => ColumnDef(c, TextType, true, NoDefault)
    case EventAuthor => ColumnDef(c, TextType, true, NoDefault)
    case IssueKey => ColumnDef(c, TextType, true, NoDefault)
    case IssueProject => ColumnDef(c, TextType, true, NoDefault)
    case IssueStatus => ColumnDef(c, TextType, true, NoDefault)
    case IssuePriority => ColumnDef(c, TextType, true, NoDefault)
    case IssueSummary => ColumnDef(c, TextType, true, NoDefault)
    case IssueType => ColumnDef(c, TextType, true, NoDefault)
    case _ => ColumnDef(c, TextType, false, NoDefault)
  }

  /** Only `id` and `inserted_at` have a value the database supplies. */
  lemma DefaultsOnlyForKeyAndStamp(c: Column)
    ensures Declaration(c).default != NoDefault <==> c == Id || c == InsertedAt
  {
  }

  // ---------------------------------------------------------------------
  // Column blocks, and the two tables and two inserts built from them
  // ---------------------------------------------------------------------

  /** The columns that describe the event itself. */
  function EventColumns(): seq<Column>
  {
    [EventTime, EventKind, EventAuthor]
  }

  /** The columns of a comment or a status change; NULL for other events. */
  function ChangeColumns(): seq<Column>
  {
    [CommentBody, StatusChangeFrom, StatusChangeTo]
  }

  /** The issue's timestamps and key, in the order the tables declare them. */
  function StampColumns(): seq<Column>
  {
    [IssueCreatedAt, IssueUpdatedAt, IssueKey]
  }

  /** The issue's own fields: project, status, resolution time, priority,
      summary, description, type and labels. */
  function CoreFieldColumns(): seq<Column>
  {
    [ IssueProject, IssueStatus, IssueResolvedAt, IssuePriority, IssueSummary,
      IssueDescription, IssueType, IssueLabels ]
  }

  /** The people assigned to the issue. */
  function PeopleColumns(): seq<Column>
  {
    [IssueAssignee, IssueDeveloperBackend, IssueDeveloperFrontend, IssueReviewer, IssueProductOwner]
  }

  /** How the issue is tracked: bug cause, epic, tribe, components and fix
      versions. */
  function TrackingColumns(): seq<Column>
  {
    [IssueBugCause, IssueEpic, IssueTribe, IssueComponents, IssueFixVersions]
  }

  /** The issue's descriptive fields, in the order both tables and both
      inserts list them. */
  function IssueFieldColumns(): seq<Column>
  {
    CoreFieldColumns() + PeopleColumns() + TrackingColumns()
  }

  /** Declares each column of a list. */
  function Declare(cols: seq<Column>): (schema: seq<ColumnDef>)
    ensures |schema| == |cols|
    ensures forall k :: 0 <= k < |cols| ==> schema[k] == Declaration(cols[k])
  {
    seq(|cols|, k requires 0 <= k < |cols| => Declaration(cols[k]))
  }

  /** The columns of the events table, in declared order. */
  function EventsSchema(): seq<ColumnDef>
  {
    Declare([Id, InsertedAt] + EventColumns() + StampColumns() + IssueFieldColumns() + ChangeColumns())
  }

  /** The columns of the states table, in declared order. */
  function StatesSchema(): seq<ColumnDef>
  {
    Declare([Id, InsertedAt] + StampColumns() + IssueFieldColumns())
  }

  /** The column names of a schema, in declared order. */
  function SchemaColumns(schema: seq<ColumnDef>): seq<Column>
  {
    seq(|schema|, k requires 0 <= k < |schema| => schema[k].column)
  }

  /** The column list of the events insert, in the order it names them:
      the event, the change, then the key before the timestamps, then the
      issue fields. */
  function EventInsertColumns(): seq<Column>
  {
    EventColumns() + ChangeColumns() + [IssueKey, IssueCreatedAt, IssueUpdatedAt] + IssueFieldColumns()
  }

  /** The column list of the states insert, in the order it names them. */
  function StateInsertColumns(): seq<Column>
  {
    StampColumns() + IssueFieldColumns()
  }

  // ---------------------------------------------------------------------
  // Insert columns against the schemas
  // ---------------------------------------------------------------------

  lemma {:induction false} DeclaredColumns(cols: seq<Column>)
    ensures SchemaColumns(Declare(cols)) == cols
  {
    var schema := Declare(cols);
    assert |SchemaColumns(schema)| == |cols|;
    forall k | 0 <= k < |cols| ensures SchemaColumns(schema)[k] == cols[k] {
      assert schema[k] == Declaration(cols[k]);
    }
  }

  /** No column of `cols` is one the database fills in itself. */
  predicate NoDefaults(cols: seq<Column>)
  {
    forall k :: 0 <= k < |cols| ==> Declaration(cols[k]).default == NoDefault
  }

  lemma {:induction false} NoDefaultsAppend(a: seq<Column>, b: seq<Column>)
    requires NoDefaults(a) && NoDefaults(b)
    ensures NoDefaults(a + b)
  {
    forall k | 0 <= k < |a + b| ensures Declaration((a + b)[k]).default == NoDefault {
      if k < |a| {
        assert (a + b)[k] == a[k];
      } else {
        assert (a + b)[k] == b[k - |a|];
      }
    }
  }

  lemma IssueFieldsHaveNoDefaults()
    ensures NoDefaults(IssueFieldColumns())
  {
    var cols := IssueFieldColumns();
    forall k | 0 <= k < |cols| ensures Declaration(cols[k]).default == NoDefault {
      DefaultsOnlyForKeyAndStamp(cols[k]);
      assert cols[k] != Id && cols[k] != InsertedAt;
    }
  }

  /** The states insert names exactly the columns of the states table after
      `id` and `inserted_at`, in the table's order, and none of the columns it
      names is one the database fills in itself. */
  lemma StateColumnsMatchSchema()
    ensures SchemaColumns(StatesSchema()) == [Id, InsertedAt] + StateInsertColumns()
    ensures NoDefaults(StateInsertColumns())
  {
    DeclaredColumns([Id, InsertedAt] + StampColumns() + IssueFieldColumns());
    IssueFieldsHaveNoDefaults();
    NoDefaultsAppend(StampColumns(), IssueFieldColumns());
  }

  /** Two sequences made of the same blocks, two of them swapped and one
      rearranged within itself, hold the same elements. */
  lemma PermutedBlocks<T>(declared: seq<T>, inserted: seq<T>, a: seq<T>, c1: seq<T>, d: seq<T>, b: seq<T>, c2: seq<T>)
    requires declared == a + c1 + d + b && inserted == a + b + c2 + d
    requires multiset(c1) == multiset(c2)
    ensures multiset(declared) == multiset(inserted)
  {
  }

  lemma EventsDeclaredOrder()
    ensures SchemaColumns(EventsSchema()) ==
      [Id, InsertedAt] + (EventColumns() + StampColumns() + IssueFieldColumns() + ChangeColumns())
  {
    DeclaredColumns([Id, InsertedAt] + (EventColumns() + StampColumns() + IssueFieldColumns() + ChangeColumns()));
    assert [Id, InsertedAt] + EventColumns() + StampColumns() + IssueFieldColumns() + ChangeColumns()
      == [Id, InsertedAt] + (EventColumns() + StampColumns() + IssueFieldColumns() + ChangeColumns());
  }

  lemma KeyReordered()
    ensures multiset(StampColumns()) == multiset([IssueKey, IssueCreatedAt, IssueUpdatedAt])
  {
  }

  lemma EventInsertNoDefaults()
    ensures NoDefaults(EventInsertColumns())
  {
    var key := [IssueKey, IssueCreatedAt, IssueUpdatedAt];
    IssueFieldsHaveNoDefaults();
    NoDefaultsAppend(EventColumns(), ChangeColumns());
    NoDefaultsAppend(EventColumns() + ChangeColumns(), key);
    NoDefaultsAppend(EventColumns() + ChangeColumns() + key, IssueFieldColumns());
  }

  /** The events insert names every column of the events table after `id`
      and `inserted_at`, each as often as the table declares it, in a
      different order; none of the columns it names is one the database
      fills in itself. */
  lemma EventColumnsMatchSchema()
    ensures SchemaColumns(EventsSchema())[..2] == [Id, InsertedAt]
    ensures multiset(SchemaColumns(EventsSchema())[2..]) == multiset(EventInsertColumns())
    ensures SchemaColumns(EventsSchema())[2..] != EventInsertColumns()
    ensures NoDefaults(EventInsertColumns())
  {
    var rest := EventColumns() + StampColumns() + IssueFieldColumns() + ChangeColumns();
    EventsDeclaredOrder();
    assert SchemaColumns(EventsSchema())[2..] == rest;
    assert rest[3] == IssueCreatedAt && EventInsertColumns()[3] == CommentBody;
    KeyReordered();
    PermutedBlocks(rest, EventInsertColumns(), EventColumns(), StampColumns(), IssueFieldColumns(), ChangeColumns(),
                   [IssueKey, IssueCreatedAt, IssueUpdatedAt]);
    EventInsertNoDefaults();
  }

  // ---------------------------------------------------------------------
  // The insert column lists as the statements write them out
  // ---------------------------------------------------------------------

  /** The events insert's column list, one by one as the statement names
      them, is the list built from the column blocks. */
  lemma EventInsertColumnsAsWritten()
    ensures EventInsertColumns() ==
      [ EventTime, EventKind, EventAuthor, CommentBody, StatusChangeFrom, StatusChangeTo,
        IssueKey, IssueCreatedAt, IssueUpdatedAt,
        IssueProject, IssueStatus, IssueResolvedAt, IssuePriority, IssueSummary,
        IssueDescription, IssueType, IssueLabels,
        IssueAssignee, IssueDeveloperBackend, IssueDeveloperFrontend, IssueReviewer, IssueProductOwner,
        IssueBugCause, IssueEpic, IssueTribe, IssueComponents, IssueFixVersions ]
  {
  }

  /** The states insert's column list, one by one as the statement names
      them, is the list built from the column blocks. */
  lemma StateInsertColumnsAsWritten()
    ensures StateInsertColumns() ==
      [ IssueCreatedAt, IssueUpdatedAt, IssueKey,
        IssueProject, IssueStatus, IssueResolvedAt, IssuePriority, IssueSummary,
        IssueDescription, IssueType, IssueLabels,
        IssueAssignee, IssueDeveloperBackend, IssueDeveloperFrontend, IssueReviewer, IssueProductOwner,
        IssueBugCause, IssueEpic, IssueTribe, IssueComponents, IssueFixVersions ]
  {
  }
}
