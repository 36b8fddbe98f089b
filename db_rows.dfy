/** The rows the two inserts write: the value bound to each placeholder,
    taken from an issue event and a snapshot of the issue's state. A nil
    pointer field binds SQL NULL. */
module DbRows {
  import opened Wrappers
  import opened DbSchema

  /** A point in time; its representation plays no part here. */
  type Time(==)

  /** One change in an issue's history. */
  datatype IssueEvent = IssueEvent(
    eventTime: Time,
    eventKind: string,
    eventAuthor: string,
    issueKey: string,
    commentBody: Option<string>,
    statusChangeFrom: Option<string>,
    statusChangeTo: Option<string>)

  /** A snapshot of an issue's fields at one point in time. */
  datatype IssueState = IssueState(
    createdAt: Time,
    updatedAt: Time,
    key: string,
    project: Option<string>,
    status: Option<string>,
    resolvedAt: Option<Time>,
    priority: Option<string>,
    summary: Option<string>,
    description: Option<string>,
    issueType: Option<string>,
    labels: Option<string>,
    reporter: Option<string>,
    assignee: Option<string>,
    developerBackend: Option<string>,
    developerFrontend: Option<string>,
    reviewer: Option<string>,
    productOwner: Option<string>,
    bugCause: Option<string>,
    epic: Option<string>,
    tribe: Option<string>,
    components: Option<string>,
    fixVersions: Option<string>)

  /** A value bound to a placeholder. */
  datatype SqlValue = Null | Text(text: string) | Timestamp(time: Time)

  /** A string pointer as bound: NULL for nil, the text otherwise. */
  function OptText(p: Option<string>): SqlValue
  {
    match p
    case None => Null
    case Some(v) => Text(v)
  }

  /** A time pointer as bound: NULL for nil, the timestamp otherwise. */
  function OptTimestamp(p: Option<Time>): SqlValue
  {
    match p
    case None => Null
    case Some(t) => Timestamp(t)
  }

  /** A text column read back into a string pointer. */
  function ScanText(v: SqlValue): Option<string>
  {
    match v
    case Text(t) => Some(t)
    case _ => None
  }

  /** A timestamp column read back into a time pointer. */
  function ScanTimestamp(v: SqlValue): Option<Time>
  {
    match v
    case Timestamp(t) => Some(t)
    case _ => None
  }

  /** Binding a pointer and reading the column back gives the pointer's value,
      and NULL is bound exactly for nil. */
  lemma PointerRoundTrip(p: Option<string>, t: Option<Time>)
    ensures ScanText(OptText(p)) == p && (OptText(p) == Null <==> p == None)
    ensures ScanTimestamp(OptTimestamp(t)) == t && (OptTimestamp(t) == Null <==> t == None)
  {
  }

  // ---------------------------------------------------------------------
  // The parameter rows, block by block in the order of the column blocks
  // ---------------------------------------------------------------------

  function EventValues(e: IssueEvent): seq<SqlValue>
  {
    [Timestamp(e.eventTime), Text(e.eventKind), Text(e.eventAuthor)]
  }

  function ChangeValues(e: IssueEvent): seq<SqlValue>
  {
    [OptText(e.commentBody), OptText(e.statusChangeFrom), OptText(e.statusChangeTo)]
  }

  function CoreFieldValues(s: IssueState): seq<SqlValue>
  {
    [ OptText(s.project), OptText(s.status), OptTimestamp(s.resolvedAt), OptText(s.priority),
      OptText(s.summary), OptText(s.description), OptText(s.issueType), OptText(s.labels) ]
  }

  function PeopleValues(s: IssueState): seq<SqlValue>
  {
    [ OptText(s.assignee), OptText(s.developerBackend), OptText(s.developerFrontend),
      OptText(s.reviewer), OptText(s.productOwner) ]
  }

  function TrackingValues(s: IssueState): seq<SqlValue>
  {
    [OptText(s.bugCause), OptText(s.epic), OptText(s.tribe), OptText(s.components), OptText(s.fixVersions)]
  }

  /** The issue's descriptive fields; the reporter is not among them. */
  function IssueFieldValues(s: IssueState): seq<SqlValue>
  {
    CoreFieldValues(s) + PeopleValues(s) + TrackingValues(s)
  }

  /** The 27 parameters of the events insert. The issue key is the event's;
      the snapshot supplies the timestamps and the issue fields. */
  function EventParams(e: IssueEvent, s: IssueState): seq<SqlValue>
  {
    EventValues(e) + ChangeValues(e) + [Text(e.issueKey), Timestamp(s.createdAt), Timestamp(s.updatedAt)]
      + IssueFieldValues(s)
  }

  /** The 21 parameters of the states insert. */
  function StateParams(s: IssueState): seq<SqlValue>
  {
    [Timestamp(s.createdAt), Timestamp(s.updatedAt), Text(s.key)] + IssueFieldValues(s)
  }

  // ---------------------------------------------------------------------
  // Which field each column holds, stated column by column
  // ---------------------------------------------------------------------

  /** The value a states row written from `s` holds in column `c`; `None` for
      a column the insert does not write. */
  function StateColumnValue(c: Column, s: IssueState): Option<SqlValue>
  {
    match c
    case IssueCreatedAt => Some(Timestamp(s.createdAt))
    case IssueUpdatedAt => Some(Timestamp(s.updatedAt))
    case IssueKey => Some(Text(s.key))
    case IssueProject => Some(OptText(s.project))
    case IssueStatus => Some(OptText(s.status))
    case IssueResolvedAt => Some(OptTimestamp(s.resolvedAt))
    case IssuePriority => Some(OptText(s.priority))
    case IssueSummary => Some(OptText(s.summary))
    case IssueDescription => Some(OptText(s.description))
    case IssueType => Some(OptText(s.issueType))
    case IssueLabels => Some(OptText(s.labels))
    case IssueAssignee => Some(OptText(s.assignee))
    case IssueDeveloperBackend => Some(OptText(s.developerBackend))
    case IssueDeveloperFrontend => Some(OptText(s.developerFrontend))
    case IssueReviewer => Some(OptText(s.reviewer))
    case IssueProductOwner => Some(OptText(s.productOwner))
    case IssueBugCause => Some(OptText(s.bugCause))
    case IssueEpic => Some(OptText(s.epic))
    case IssueTribe => Some(OptText(s.tribe))
    case IssueComponents => Some(OptText(s.components))
    case IssueFixVersions => Some(OptText(s.fixVersions))
    case _ => None
  }

  /** The value an events row written from `e` and `s` holds in column `c`:
      the event's own columns and the issue key come from the event, the
      rest of the issue columns from the snapshot. */
  function EventColumnValue(c: Column, e: IssueEvent, s: IssueState): Option<SqlValue>
  {
    match c
    case Id => None
    case InsertedAt => None
    case EventTime => Some(Timestamp(e.eventTime))
    case EventKind => Some(Text(e.eventKind))
    case EventAuthor => Some(Text(e.eventAuthor))
    case CommentBody => Some(OptText(e.commentBody))
    case StatusChangeFrom => Some(OptText(e.statusChangeFrom))
    case StatusChangeTo => Some(OptText(e.statusChangeTo))
    case IssueKey => Some(Text(e.issueKey))
    case _ => StateColumnValue(c, s)
  }

  predicate StateAligned(cols: seq<Column>, row: seq<SqlValue>, s: IssueState)
  {
    |cols| == |row| && forall i :: 0 <= i < |cols| ==> StateColumnValue(cols[i], s) == Some(row[i])
  }

  predicate EventAligned(cols: seq<Column>, row: seq<SqlValue>, e: IssueEvent, s: IssueState)
  {
    |cols| == |row| && forall i :: 0 <= i < |cols| ==> EventColumnValue(cols[i], e, s) == Some(row[i])
  }

  lemma {:induction false} StateAlignedAppend(a: seq<Column>, ra: seq<SqlValue>, b: seq<Column>, rb: seq<SqlValue>, s: IssueState)
    requires StateAligned(a, ra, s) && StateAligned(b, rb, s)
    ensures StateAligned(a + b, ra + rb, s)
  {
    forall i | 0 <= i < |a + b| ensures StateColumnValue((a + b)[i], s) == Some((ra + rb)[i]) {
      if i < |a| {
        assert (a + b)[i] == a[i] && (ra + rb)[i] == ra[i];
      } else {
        assert (a + b)[i] == b[i - |a|] && (ra + rb)[i] == rb[i - |a|];
      }
    }
  }

  lemma {:induction false} EventAlignedAppend(a: seq<Column>, ra: seq<SqlValue>, b: seq<Column>, rb: seq<SqlValue>,
                                               e: IssueEvent, s: IssueState)
    requires EventAligned(a, ra, e, s) && EventAligned(b, rb, e, s)
    ensures EventAligned(a + b, ra + rb, e, s)
  {
    forall i | 0 <= i < |a + b| ensures EventColumnValue((a + b)[i], e, s) == Some((ra + rb)[i]) {
      if i < |a| {
        assert (a + b)[i] == a[i] && (ra + rb)[i] == ra[i];
      } else {
        assert (a + b)[i] == b[i - |a|] && (ra + rb)[i] == rb[i - |a|];
      }
    }
  }

  lemma CoreFieldsAligned(s: IssueState)
    ensures StateAligned(CoreFieldColumns(), CoreFieldValues(s), s)
  {
    var cols, row := CoreFieldColumns(), CoreFieldValues(s);
    forall i | 0 <= i < |cols| ensures StateColumnValue(cols[i], s) == Some(row[i]) {
      if i == 0 {} else if i == 1 {} else if i == 2 {} else if i == 3 {}
      else if i == 4 {} else if i == 5 {} else if i == 6 {} else {}
    }
  }

  lemma PeopleAligned(s: IssueState)
    ensures StateAligned(PeopleColumns(), PeopleValues(s), s)
  {
    var cols, row := PeopleColumns(), PeopleValues(s);
    forall i | 0 <= i < |cols| ensures StateColumnValue(cols[i], s) == Some(row[i]) {
      if i == 0 {} else if i == 1 {} else if i == 2 {} else if i == 3 {} else {}
    }
  }

  lemma TrackingAligned(s: IssueState)
    ensures StateAligned(TrackingColumns(), TrackingValues(s), s)
  {
    var cols, row := TrackingColumns(), TrackingValues(s);
    forall i | 0 <= i < |cols| ensures StateColumnValue(cols[i], s) == Some(row[i]) {
      if i == 0 {} else if i == 1 {} else if i == 2 {} else if i == 3 {} else {}
    }
  }

  /** Each issue-field placeholder binds the snapshot field its column is
      named after. */
  lemma IssueFieldsAligned(s: IssueState)
    ensures StateAligned(IssueFieldColumns(), IssueFieldValues(s), s)
  {
    CoreFieldsAligned(s);
    PeopleAligned(s);
    TrackingAligned(s);
    StateAlignedAppend(CoreFieldColumns(), CoreFieldValues(s), PeopleColumns(), PeopleValues(s), s);
    StateAlignedAppend(CoreFieldColumns() + PeopleColumns(), CoreFieldValues(s) + PeopleValues(s),
                       TrackingColumns(), TrackingValues(s), s);
  }

  /** Each placeholder of the states insert binds the field of the snapshot
      that its column is named after. */
  lemma StateRowAligned(s: IssueState)
    ensures |StateParams(s)| == |StateInsertColumns()| == 21
    ensures forall i :: 0 <= i < 21 ==> StateColumnValue(StateInsertColumns()[i], s) == Some(StateParams(s)[i])
  {
    var stamps := [Timestamp(s.createdAt), Timestamp(s.updatedAt), Text(s.key)];
    assert StateAligned(StampColumns(), stamps, s);
    IssueFieldsAligned(s);
    StateAlignedAppend(StampColumns(), stamps, IssueFieldColumns(), IssueFieldValues(s), s);
  }

  /** Each placeholder of the events insert binds the field, of the event or
      of the snapshot, that its column is named after. */
  lemma EventRowAligned(e: IssueEvent, s: IssueState)
    ensures |EventParams(e, s)| == |EventInsertColumns()| == 27
    ensures forall i :: 0 <= i < 27 ==> EventColumnValue(EventInsertColumns()[i], e, s) == Some(EventParams(e, s)[i])
  {
    var key := [IssueKey, IssueCreatedAt, IssueUpdatedAt];
    var keyValues := [Text(e.issueKey), Timestamp(s.createdAt), Timestamp(s.updatedAt)];
    assert EventAligned(EventColumns(), EventValues(e), e, s);
    assert EventAligned(ChangeColumns(), ChangeValues(e), e, s);
    assert EventAligned(key, keyValues, e, s);
    IssueFieldsAligned(s);
    assert EventAligned(IssueFieldColumns(), IssueFieldValues(s), e, s) by {
      forall i | 0 <= i < 18 ensures EventColumnValue(IssueFieldColumns()[i], e, s) == Some(IssueFieldValues(s)[i]) {
        var c := IssueFieldColumns()[i];
        assert c != Id && c != InsertedAt && c != IssueKey;
        assert c != EventTime && c != EventKind && c != EventAuthor;
        assert c != CommentBody && c != StatusChangeFrom && c != StatusChangeTo;
      }
    }
    EventAlignedAppend(EventColumns(), EventValues(e), ChangeColumns(), ChangeValues(e), e, s);
    EventAlignedAppend(EventColumns() + ChangeColumns(), EventValues(e) + ChangeValues(e), key, keyValues, e, s);
    EventAlignedAppend(EventColumns() + ChangeColumns() + key, EventValues(e) + ChangeValues(e) + keyValues,
                       IssueFieldColumns(), IssueFieldValues(s), e, s);
  }

  // ---------------------------------------------------------------------
  // NOT NULL constraints
  // ---------------------------------------------------------------------

  /** The snapshot fields whose columns are declared NOT NULL but whose
      pointers may be nil. */
  predicate RequiredFieldsSet(s: IssueState)
  {
    s.project.Some? && s.status.Some? && s.priority.Some? && s.summary.Some? && s.issueType.Some?
  }

  /** No NOT NULL column of `cols` is bound to NULL. */
  predicate FitsNotNull(cols: seq<Column>, row: seq<SqlValue>)
  {
    |cols| == |row| && forall i :: 0 <= i < |cols| && Declaration(cols[i]).notNull ==> row[i] != Null
  }

  lemma {:induction false} FitsNotNullAppend(a: seq<Column>, ra: seq<SqlValue>, b: seq<Column>, rb: seq<SqlValue>)
    requires |a| == |ra| && |b| == |rb|
    ensures FitsNotNull(a + b, ra + rb) <==> FitsNotNull(a, ra) && FitsNotNull(b, rb)
  {
    if FitsNotNull(a, ra) && FitsNotNull(b, rb) {
      forall i | 0 <= i < |a + b| && Declaration((a + b)[i]).notNull ensures (ra + rb)[i] != Null {
        if i < |a| {
          assert (a + b)[i] == a[i] && (ra + rb)[i] == ra[i];
        } else {
          assert (a + b)[i] == b[i - |a|] && (ra + rb)[i] == rb[i - |a|];
        }
      }
    }
    if FitsNotNull(a + b, ra + rb) {
      forall i | 0 <= i < |a| && Declaration(a[i]).notNull ensures ra[i] != Null {
        assert (a + b)[i] == a[i] && (ra + rb)[i] == ra[i];
      }
      forall i | 0 <= i < |b| && Declaration(b[i]).notNull ensures rb[i] != Null {
        assert (a + b)[|a| + i] == b[i] && (ra + rb)[|a| + i] == rb[i];
      }
    }
  }

  /** Every column of the people and tracking groups is nullable, so any
      values fit them. */
  lemma OptionalGroupsFitNotNull(s: IssueState)
    ensures FitsNotNull(PeopleColumns(), PeopleValues(s))
    ensures FitsNotNull(TrackingColumns(), TrackingValues(s))
  {
    var people, tracking := PeopleColumns(), TrackingColumns();
    forall i | 0 <= i < |people| ensures !Declaration(people[i]).notNull {
      if i == 0 {} else if i == 1 {} else if i == 2 {} else if i == 3 {} else {}
    }
    forall i | 0 <= i < |tracking| ensures !Declaration(tracking[i]).notNull {
      if i == 0 {} else if i == 1 {} else if i == 2 {} else if i == 3 {} else {}
    }
  }

  /** Column by column: with the required fields set, no NOT NULL column of
      a states row holds NULL. */
  lemma RequiredColumnHoldsValue(c: Column, s: IssueState)
    requires RequiredFieldsSet(s) && Declaration(c).notNull && StateColumnValue(c, s).Some?
    ensures StateColumnValue(c, s).value != Null
  {
  }

  /** The issue's own fields fit their NOT NULL constraints exactly when the
      project, status, priority, summary and type are set. */
  lemma CoreFieldsFitNotNull(s: IssueState)
    ensures FitsNotNull(CoreFieldColumns(), CoreFieldValues(s)) <==> RequiredFieldsSet(s)
  {
    var cols, row := CoreFieldColumns(), CoreFieldValues(s);
    CoreFieldsAligned(s);
    if RequiredFieldsSet(s) {
      forall i | 0 <= i < |cols| && Declaration(cols[i]).notNull ensures row[i] != Null {
        RequiredColumnHoldsValue(cols[i], s);
      }
    } else {
      assert cols[0] == IssueProject && cols[1] == IssueStatus && cols[3] == IssuePriority;
      assert cols[4] == IssueSummary && cols[6] == IssueType;
    }
  }

  /** The issue fields fit their NOT NULL constraints exactly when the
      project, status, priority, summary and type are set. */
  lemma IssueFieldsFitNotNull(s: IssueState)
    ensures FitsNotNull(IssueFieldColumns(), IssueFieldValues(s)) <==> RequiredFieldsSet(s)
  {
    CoreFieldsFitNotNull(s);
    OptionalGroupsFitNotNull(s);
    FitsNotNullAppend(CoreFieldColumns(), CoreFieldValues(s), PeopleColumns(), PeopleValues(s));
    FitsNotNullAppend(CoreFieldColumns() + PeopleColumns(), CoreFieldValues(s) + PeopleValues(s),
                      TrackingColumns(), TrackingValues(s));
  }

  /** A states row satisfies the table's NOT NULL constraints exactly when the
      snapshot's project, status, priority, summary and type are all set; a
      nil one among them makes the insert fail. */
  lemma StateRowFitsNotNull(s: IssueState)
    ensures FitsNotNull(StateInsertColumns(), StateParams(s)) <==> RequiredFieldsSet(s)
  {
    var stamps := [Timestamp(s.createdAt), Timestamp(s.updatedAt), Text(s.key)];
    assert FitsNotNull(StampColumns(), stamps);
    IssueFieldsFitNotNull(s);
    FitsNotNullAppend(StampColumns(), stamps, IssueFieldColumns(), IssueFieldValues(s));
  }

  /** An events row satisfies the table's NOT NULL constraints exactly when
      the snapshot's project, status, priority, summary and type are all set;
      the event's own fields never bind NULL to a NOT NULL column. */
  lemma EventRowFitsNotNull(e: IssueEvent, s: IssueState)
    ensures FitsNotNull(EventInsertColumns(), EventParams(e, s)) <==> RequiredFieldsSet(s)
  {
    var key := [IssueKey, IssueCreatedAt, IssueUpdatedAt];
    var keyValues := [Text(e.issueKey), Timestamp(s.createdAt), Timestamp(s.updatedAt)];
    assert FitsNotNull(EventColumns(), EventValues(e));
    assert FitsNotNull(ChangeColumns(), ChangeValues(e));
    assert FitsNotNull(key, keyValues);
    IssueFieldsFitNotNull(s);
    FitsNotNullAppend(EventColumns(), EventValues(e), ChangeColumns(), ChangeValues(e));
    FitsNotNullAppend(EventColumns() + ChangeColumns(), EventValues(e) + ChangeValues(e), key, keyValues);
    FitsNotNullAppend(EventColumns() + ChangeColumns() + key, EventValues(e) + ChangeValues(e) + keyValues,
                      IssueFieldColumns(), IssueFieldValues(s));
  }
}
