# Jira history collector: mock client queue and persistence rows

This project models two parts of a Go service that collects the history of
Jira issues and stores it in PostgreSQL.

- **The mock Jira client** (`JiraMock`, file `jira_mock.dfy`). Tests use it in
  place of the real API client. A test declares, in order, the calls it expects:
  searches with the issue keys they answer, and lookups by issue key with the
  issue they answer.
  - A search is answered strictly from the head of the queue.
  - A lookup takes out the first lookup expectation for its key, wherever it
    sits, and keeps every other entry in its order.
  - The client is a class over a `seq` of expectations.
  - Each expectation is a small class, because the test keeps a handle on it and
    sets its answer after declaring it.
- **The persistence layer** (`DbSchema`, `DbRows`, `DbStore`; files
  `db_schema.dfy`, `db_rows.dfy`, `db_store.dfy`):
  - the two tables, `jira_issues_events` and `jira_issues_states`, as their
    `CREATE TABLE` statements declare them;
  - the column lists of the two inserts;
  - the 27 and 21 parameters the inserts bind from an issue event and an issue
    snapshot (a nil pointer binds NULL);
  - the statement lists of a reset and of a drop;
  - the loop that runs a list of statements and stops at the first error.

  The database is a class holding every statement sent so far. Its answers come
  from a driver function supplied from outside.

`wrappers.dfy` holds the `Option` and `Result` types. A nil pointer is `None`.
A call that ends the program (`log.Fatalln`) or reports a test failure becomes
an error value.

Some columns (project, status, priority, summary and type) are NOT NULL in
both tables, but their snapshot fields are pointers and may be nil. The model
proves that an insert fits the NOT NULL constraints exactly when those five
fields are set.

Both tables declare each column they share in the same way. So the model
gives each column one declaration (`DbSchema.Declaration`). Each table is its
column order, written as the same named groups of columns that the inserts
use.

## Model

| member | source | states |
|---|---|---|
| JiraMock.MockClient.constructor | jira/client/mockclient.go:31-36 | a new client has an empty queue |
| JiraMock.MockClient.ExpectSearchIssues | jira/client/mockclient.go:87-91 | the queue becomes the old queue plus one new search expectation at the tail; the expectation has the query and no keys, and a fresh handle is returned |
| JiraMock.ExpectedSearchIssues.WillRespondWithIssueKeys | jira/client/mockclient.go:101-103 | the expectation now answers with exactly the given keys |
| JiraMock.MockClient.ExpectGetIssue | jira/client/mockclient.go:117-121 | the queue becomes the old queue plus one new lookup expectation at the tail; the expectation has the key and a nil issue |
| JiraMock.ExpectedGetIssue.WillRespondWithIssue | jira/client/mockclient.go:125-127 | the expectation now answers with the given issue |
| JiraMock.MockClient.PopExpectation | jira/client/mockclient.go:137-146 | an empty queue gives nil and stays empty; otherwise the head is returned and the queue becomes its tail |
| JiraMock.FirstGetIssue | jira/client/mockclient.go:154-156 | the index found holds a lookup expectation for the key, and no earlier entry does; none is found exactly when no entry matches |
| JiraMock.RemoveAt | jira/client/mockclient.go:157-163 | the queue loses exactly entry `i`: one shorter, entries before `i` in place, entries after `i` shifted down by one |
| JiraMock.MockClient.PopExpectedGetIssue | jira/client/mockclient.go:148-170 | without a matching lookup expectation (the empty queue included), nil and an unchanged queue; otherwise the first match is returned and the queue is the old queue without that entry, whichever of the head, tail or middle branches runs |
| JiraMock.RemoveGetIssueKeepsSearches | jira/client/mockclient.go:154-164 | taking out a lookup expectation leaves the search expectations, and their order, exactly as they were |
| JiraMock.RemoveAtMultiset | jira/client/mockclient.go:157-163 | the entries left are the old entries minus exactly the one taken out |
| JiraMock.MockClient.SearchIssues | jira/client/mockclient.go:43-57 | the head is consumed in every case. Empty queue: a "no expectation" failure. Head not a search: an "unexpected call" failure naming it. In both, nothing is sent and the channel stays open. Search head: exactly its keys are sent, in order, and the channel is closed. The call succeeds exactly when the query matches the declared pattern; otherwise it reports a query mismatch |
| JiraMock.MockClient.GetIssue | jira/client/mockclient.go:61-68 | with no matching lookup expectation: a "no matching expectation" error, queue unchanged. Otherwise: the issue of the first match, with that entry taken out of the queue |
| JiraMock.LookupOvertakesSearch | jira/client/mockclient.go:43-68 | a lookup declared after a search is still served first, from behind the search; the search then answers its keys and closes, and the queue ends empty |
| JiraMock.UnmatchedLookupFails | jira/client/mockclient.go:61-66 | a lookup for a key nobody declared fails with a "no matching expectation" error, and the queue still holds exactly the one lookup expectation, for `A-1` |
| DbSchema.Declaration | db/db.go:242-272 | the declaration found for a column is a declaration of that column: its SQL type, its NOT NULL constraint and its default, shared by both tables; DefaultsOnlyForKeyAndStamp and the NOT NULL lemmas state its properties |
| DbSchema.EventsSchema | db/db.go:242-272 | no contract of its own: the events table's columns in declared order, each with its one declaration; EventColumnsMatchSchema, DefaultsOnlyForKeyAndStamp and EventRowFitsNotNull state its properties |
| DbSchema.StatesSchema | db/db.go:279-303 | no contract of its own: the states table's columns in declared order, each with its one declaration; StateColumnsMatchSchema and StateRowFitsNotNull state its properties |
| DbSchema.EventInsertColumns | db/db.go:66-94 | no contract of its own: the columns the events insert names, in its order; EventInsertColumnsAsWritten, EventColumnsMatchSchema and EventRowAligned state its properties |
| DbSchema.StateInsertColumns | db/db.go:136-158 | no contract of its own: the columns the states insert names, in its order; StateInsertColumnsAsWritten, StateColumnsMatchSchema and StateRowAligned state its properties |
| DbSchema.EventInsertColumnsAsWritten | db/db.go:66-94 | the events insert's column list, built from the column groups, is the 27 columns one by one in the order the statement writes them |
| DbSchema.StateInsertColumnsAsWritten | db/db.go:136-158 | the states insert's column list, built from the column groups, is the 21 columns one by one in the order the statement writes them |
| DbSchema.DefaultsOnlyForKeyAndStamp | db/db.go:243-244 | only `id` (serial key) and `inserted_at` (statement timestamp) have a value the database supplies |
| DbSchema.StateColumnsMatchSchema | db/db.go:134-159 | the states insert names exactly the states table's columns after `id` and `inserted_at`, in the table's order, and none of them has a default |
| DbSchema.EventColumnsMatchSchema | db/db.go:64-95 | the events table begins with `id`, `inserted_at`; its remaining columns are those the events insert names, each equally often, but not in the same order; the insert names no column with a default |
| DbRows.EventParams | db/db.go:98-127 | no contract of its own: the 27 values bound, in placeholder order; EventRowAligned, EventRowFitsNotNull and InsertsIgnoreReporterAndSnapshotKey state its properties |
| DbRows.StateParams | db/db.go:161-184 | no contract of its own: the 21 values bound, in placeholder order; StateRowAligned, StateRowFitsNotNull and InsertsIgnoreReporterAndSnapshotKey state its properties |
| DbRows.PointerRoundTrip | db/db.go:29-62 | a pointer field binds NULL exactly when it is nil, and reading the column back gives the pointer's value, so no nil turns into an empty string |
| DbRows.IssueFieldsAligned | db/db.go:140-157 | each of the 18 issue-field parameters binds the snapshot field its column is named after |
| DbRows.StateRowAligned | db/db.go:134-184 | the states row has 21 values, one per listed column; each binds the snapshot field the column is named after, the key from the snapshot |
| DbRows.EventRowAligned | db/db.go:64-127 | the events row has 27 values, one per listed column. Each binds the field its column is named after: the event's own fields and the issue key from the event, the timestamps and issue fields from the snapshot |
| DbRows.CoreFieldsFitNotNull | db/db.go:285-292 | the issue's own fields fit their NOT NULL constraints exactly when project, status, priority, summary and type are set |
| DbRows.StateRowFitsNotNull | db/db.go:279-303 | a states row breaks no NOT NULL constraint exactly when the snapshot's project, status, priority, summary and type are set |
| DbRows.EventRowFitsNotNull | db/db.go:242-272 | an events row breaks no NOT NULL constraint exactly when those five snapshot fields are set; the event's own fields never bind NULL to a NOT NULL column |
| DbStore.ResetTableJiraIssuesEvents | db/db.go:239-274 | no contract of its own: drop the events table if it exists, then create it with its schema; ResetDefinesBothTables states what the statements do |
| DbStore.ResetTableJiraIssuesStates | db/db.go:276-305 | no contract of its own: drop the states table if it exists, then create it with its schema; ResetDefinesBothTables states what the statements do |
| DbStore.ResetQueries | db/db.go:202-204 | no contract of its own: the events statements followed by the states statements; ResetDefinesBothTables, ResetOnAcceptingDatabase and ResetStopsAtFailedCreate state its properties |
| DbStore.DropQueries | db/db.go:212-215 | no contract of its own: drop the events table, then the states table, each if it exists; DropRemovesBothTables states what they do |
| DbStore.RunQueries | db/db.go:225-237 | no contract of its own: the run of a statement list, sending each in turn and stopping at the first error; RunQueriesSendsPrefix, RunQueriesPrefixSucceeded and RunQueriesSucceedsIffAll state its properties, and DB.DoQueries is proved equal to it |
| DbStore.RunQueriesSendsPrefix | db/db.go:225-237 | a run sends a prefix of the queries, in order. It ends without error only after sending all of them; otherwise its error is the error of the last statement it sent |
| DbStore.RunQueriesPrefixSucceeded | db/db.go:226-234 | every statement sent before the failing one succeeded, so no statement after the first error is sent |
| DbStore.RunQueriesSucceedsIffAll | db/db.go:225-237 | a run ends without error exactly when every query succeeds |
| DbStore.DB.Query | db/db.go:227-234 | the statement is appended to what the database has received, and the result is the database's answer to it |
| DbStore.DB.DoQueries | db/db.go:225-237 | the loop sends the statements and returns the error that the run specification gives |
| DbStore.DB.InsertIssueEvent | db/db.go:64-132 | one insert into the events table, binding the event row; a rejected insert ends the program in `InsertIssueEvent` |
| DbStore.DB.InsertIssueState | db/db.go:134-189 | one insert into the states table, binding the states row; a rejected insert ends the program in `InsertIssueState` |
| DbStore.DB.Reset | db/db.go:201-209 | runs drop events, create events, drop states, create states, in that order, stopping at the first error; an error ends the program in `Reset` |
| DbStore.DB.DropDBTables | db/db.go:211-220 | runs drop events then drop states, stopping at the first error; an error ends the program in `dropDBTables` |
| DbStore.ResetDefinesBothTables | db/db.go:239-305 | read as table operations, a reset never creates a table that already exists. Afterwards both tables are defined by their schemas and every other table is untouched |
| DbStore.DropRemovesBothTables | db/db.go:211-215 | read as table operations, the drop removes both tables and nothing else |
| DbStore.ResetOnAcceptingDatabase | db/db.go:201-209 | against a database that accepts everything, a reset sends the four statements in order and does not end the program |
| DbStore.ResetStopsAtFailedCreate | db/db.go:201-237 | against a database that rejects table creation, a reset sends only the events drop and create, then ends the program in `Reset` with the database's error |
| DbStore.InsertsIgnoreReporterAndSnapshotKey | db/db.go:98-126 | neither insert binds the reporter. The events insert takes the issue key from the event: two snapshots differing only in key and reporter give the same events insert, and the same states insert if their keys agree |

## Left out

- Query matching. The search query is checked by a regular-expression matcher from an outside library, which is not part of this model. It is the parameter `queryMatches(pattern, query)`. The doc comments around the search say the query is ignored, or matched exactly; the model follows the code, which matches the declared query as a pattern.
- JiraMock.MockClient.SearchIssues: the model assumes the outside matcher reports a query mismatch as a test failure (like `Errorf`) and returns. So after a mismatch the declared keys are still sent and the channel is closed. A matcher that stopped the test instead would send no keys; that case is not modelled.
- JiraMock.ExpectedSearchIssues.WillRespondWithIssueKeys: the keys are copied as a value when they are declared. The source keeps the caller's slice, so a test that changes that slice afterwards changes the keys sent; that aliasing is not modelled.
- JiraMock.MockClient.SearchIssues: on an empty queue, or a head that is not a search expectation, the source reports the failure and then reaches a nil value (`Describe` on a nil expectation, the query of a nil search expectation). The model ends the call at the reported failure instead.
- Failure reporting. The testing handle, the text of the `Describe` messages and the debug line printed when a lookup finds nothing are output only. The unexpected-call failure carries the expectation itself rather than its description.
- The mutex around the queue and the blocking channel are concurrency. The methods are sequential. The keys sent are a returned sequence plus a "closed" flag.
- JiraMock.MockClient.GetIssue: `log.Fatalln` ends the process; here it is an `Err` value. The same holds for every `Fatal` in `DbStore`.
- The contents of a Jira issue and of a time value are opaque types (`Issue`, `Time`).
- Opening the database: `sql.Open`, the `DB_URL` lookup and the connection pool size are I/O. The database is a `DB` object with a driver function that answers each statement given the statements before it.
- A statement is a datatype: a drop, a create with its column declarations, or an insert with its columns and values. Its SQL text and whitespace are not modelled.
- DbStore.DB.DoQueries: the error met while reading a statement's result rows is folded into the driver's answer. Closing the result rows is not modelled.
- What PostgreSQL does with the schema (enforcing NOT NULL, filling defaults, serial keys) is not modelled. The NOT NULL lemmas compare a row with the declared constraints. The table lemmas read the drop and create statements as operations on a map of tables.
- The `Close` and `NewDB` wrappers around the connection are plumbing with no logic of their own.
