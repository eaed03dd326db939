# solr-jdbc statement and result materialiser, modelled in Dafny

This project models two sequential pieces of a JDBC driver that runs SQL over
a Solr search engine.

- **The result materialiser**: the constructor of `DefaultResultSetImpl`.
  It takes the engine's document list (`SolrDocumentList`) and fixes it up
  in place so that COUNT pseudo-columns behave as in SQL. When a count column
  is asked for over an empty answer, it adds one empty document. It then
  writes the engine's total-match count (`numFound`) into every document
  under each count column's result name.
- **The statement**: `StatementImpl`. It holds the batch list, the fetch
  size and row limit, the closed flag, the connection, and the current result
  set and update count. The model covers how `addBatch`, `clearBatch`,
  `executeBatch`, `execute`, `executeQuery`, `executeUpdate`,
  `setFetchSize`, `setMaxRows`, `getMoreResults` and `close` change that
  state.

Files:

- `solr_types.dfy` (module `SolrTypes`): field values, documents
  (`map<string, Value>`), `Option`, `Result` and the driver's failures.
- `result_sets.dfy` (module `ResultSets`):
  - `DocumentList`, a class that stands for the engine's list object. The
    result set writes to the caller's own list, so that sharing is kept.
  - `DefaultResultSet`, whose constructor is the materialiser. Its two nested
    loops are `DocumentList.StampAll` (over documents) and
    `DocumentList.SetFieldsAt` (over count columns).
  - `Materialized`, the function those loops are proved against, plus
    lemmas about it.
- `statements.dfy` (module `Statements`): the `Statement` class and the
  functions its batch execution is proved against.

Parsing SQL into a command, and running that command, happen in classes that
are not part of this model. A statement is therefore built with a `Parser`
oracle. It maps the SQL text either to a failure or to a `Command`. A
`Command` records whether it is a query, what its `executeQuery()` returns,
and what its `executeUpdate()` returns.

Behaviours of the source that the model keeps:

- `checkClosed` builds the OBJECT_CLOSED error but never raises it. Calls on
  a closed statement therefore go ahead.
- `close()` sets the connection to null. After that, `executeUpdate` and
  the update path of `execute` fail with a null dereference (`NullConnection`)
  once the command has succeeded. `execute` stores the update count before
  that failure. As a result, every entry of a closed statement's batch fails.
- `getMaxRows` always answers 0.
- A rejected `setFetchSize` is silent: the error is converted and dropped.
  `setFetchSize(0)` restores 10000 even when that exceeds the row limit.
- `execute` answers true for updates as well as queries.

## Model

| member | source | states |
|---|---|---|
| `ResultSets.DefaultResultSet.constructor` | src/main/java/net/unit8/solr/jdbc/impl/DefaultResultSetImpl.java:12-27 | the result set keeps the caller's own list object; afterwards that list equals `Materialized` of its old contents, and `numFound` is unchanged |
| `ResultSets.DocumentList.AddEmpty` | src/main/java/net/unit8/solr/jdbc/impl/DefaultResultSetImpl.java:18-20 | appends one empty document at the end; the earlier documents and `numFound` are unchanged |
| `ResultSets.DocumentList.StampAll` | src/main/java/net/unit8/solr/jdbc/impl/DefaultResultSetImpl.java:21-25 | the outer loop: the length is unchanged, and every document becomes its old self with each count column set |
| `ResultSets.DocumentList.SetFieldsAt` | src/main/java/net/unit8/solr/jdbc/impl/DefaultResultSetImpl.java:22-24 | the inner loop: only document `i` changes, and it gains each count column in turn |
| `ResultSets.SetFields` | src/main/java/net/unit8/solr/jdbc/impl/DefaultResultSetImpl.java:22-24 | setting the fields one by one gives exactly the old keys plus the count names; each count name maps to the stamped value; every other field keeps its value |
| `ResultSets.RowCount` | src/main/java/net/unit8/solr/jdbc/impl/DefaultResultSetImpl.java:16-20 | the list gains exactly one row when a count column is asked for over an empty answer, and otherwise keeps its length; so it holds at least one row whenever there is a count column |
| `ResultSets.NoCountColumnsNoChange` | src/main/java/net/unit8/solr/jdbc/impl/DefaultResultSetImpl.java:16 | without count columns, the list is left exactly as it was |
| `ResultSets.EveryRowCarriesNumFound` | src/main/java/net/unit8/solr/jdbc/impl/DefaultResultSetImpl.java:21-25 | every row holds every count column, set to the engine's total-match count |
| `ResultSets.RowsAgreeOnCounts` | src/main/java/net/unit8/solr/jdbc/impl/DefaultResultSetImpl.java:21-25 | any two rows carry the same value in each count column |
| `ResultSets.OtherFieldsUnchanged` | src/main/java/net/unit8/solr/jdbc/impl/DefaultResultSetImpl.java:21-25 | document order is kept; in each original document, a field that is not a count column keeps its presence and its value |
| `ResultSets.PaddingRowHoldsOnlyCounts` | src/main/java/net/unit8/solr/jdbc/impl/DefaultResultSetImpl.java:18-24 | over an empty answer, the only row maps the count columns to `numFound` and has no other field |
| `ResultSets.CountOverNoMatches` | src/main/java/net/unit8/solr/jdbc/impl/DefaultResultSetImpl.java:16-25 | `COUNT(*) AS n` over zero matches gives exactly one row, with n = 0 |
| `ResultSets.CountOverPartialPage` | src/main/java/net/unit8/solr/jdbc/impl/DefaultResultSetImpl.java:21-25 | three returned documents out of seven matches give three rows; each has n = 7 (the match count, not the row count) and keeps its own field `a` |
| `Statements.Statement.constructor` | src/main/java/net/unit8/solr/jdbc/impl/StatementImpl.java:20-40 | a new statement is open and connected, with fetch size 10000, row limit 0, no batch and no result set |
| `Statements.Statement.CheckClosed` | src/main/java/net/unit8/solr/jdbc/impl/StatementImpl.java:385-389 | never raises, even on a closed statement |
| `Statements.Statement.AddBatch` | src/main/java/net/unit8/solr/jdbc/impl/StatementImpl.java:56-64 | the batch list now exists and equals the old batch with the SQL appended at the end |
| `Statements.Statement.ClearBatch` | src/main/java/net/unit8/solr/jdbc/impl/StatementImpl.java:70-74 | the batch list is dropped, so the batch is empty |
| `Statements.Statement.Close` | src/main/java/net/unit8/solr/jdbc/impl/StatementImpl.java:82-86 | the connection is dropped and the statement is marked closed; nothing else changes |
| `Statements.Statement.IsClosed` | src/main/java/net/unit8/solr/jdbc/impl/StatementImpl.java:263-266 | answers the closed flag, which holds exactly when the connection has been dropped |
| `Statements.Statement.Execute` | src/main/java/net/unit8/solr/jdbc/impl/StatementImpl.java:88-107 | a parse failure changes nothing. A query stores a fresh open result set on success and keeps the old one on failure. An update stores its count and marks the transaction, or fails with `NullConnection` after storing the count when the connection is gone. Success always answers true |
| `Statements.Statement.ExecuteQuery` | src/main/java/net/unit8/solr/jdbc/impl/StatementImpl.java:155-164 | answers the parse failure or the command's query result; the statement's state is unchanged |
| `Statements.Statement.ExecuteUpdate` | src/main/java/net/unit8/solr/jdbc/impl/StatementImpl.java:166-177 | answers the parse failure, the command's failure, `NullConnection` when the connection is gone, or the command's count; the transaction is marked exactly when it succeeds |
| `Statements.Statement.ExecuteBatch` | src/main/java/net/unit8/solr/jdbc/impl/StatementImpl.java:129-153 | returns a fresh array as long as the batch. Entry i is statement i's count or EXECUTE_FAILED. It keeps going after failures, always drops the batch, and raises exactly when some statement failed |
| `Statements.Statement.GetMoreResults` | src/main/java/net/unit8/solr/jdbc/impl/StatementImpl.java:213-229 | CLOSE_CURRENT_RESULT and CLOSE_ALL_RESULTS close the held result set if there is one. KEEP_CURRENT_RESULT changes nothing. Any other value fails with INVALID_VALUE. The answer is false whenever there is no failure |
| `Statements.Statement.GetMoreResultsDefault` | src/main/java/net/unit8/solr/jdbc/impl/StatementImpl.java:207-211 | answers false and closes the held result set, if any |
| `Statements.Statement.GetResultSet` | src/main/java/net/unit8/solr/jdbc/impl/StatementImpl.java:231-235 | answers the held result set |
| `Statements.Statement.GetUpdateCount` | src/main/java/net/unit8/solr/jdbc/impl/StatementImpl.java:252-256 | answers the stored update count |
| `Statements.Statement.SetFetchSize` | src/main/java/net/unit8/solr/jdbc/impl/StatementImpl.java:311-328 | 0 restores 10000. A positive size within a positive row limit (or with no limit) is taken. A negative size, or one above a positive limit, leaves the fetch size as it was and raises nothing. The fetch size stays positive |
| `Statements.Statement.GetFetchSize` | src/main/java/net/unit8/solr/jdbc/impl/StatementImpl.java:305-309 | answers the fetch size, which is always positive |
| `Statements.Statement.SetMaxRows` | src/main/java/net/unit8/solr/jdbc/impl/StatementImpl.java:353-356 | stores the limit as given |
| `Statements.Statement.GetMaxRows` | src/main/java/net/unit8/solr/jdbc/impl/StatementImpl.java:347-351 | answers 0, whatever limit was stored |
| `Statements.BatchCountsMarkFailures` | src/main/java/net/unit8/solr/jdbc/impl/StatementImpl.java:135-151 | the batch array is as long as the batch; a succeeding entry holds its count and a failing entry holds EXECUTE_FAILED; so a failing batch's array contains EXECUTE_FAILED |
| `Statements.ClosedBatchAllFail` | src/main/java/net/unit8/solr/jdbc/impl/StatementImpl.java:166-177 | without a connection, every batched update fails, so the whole array is EXECUTE_FAILED |
| `Statements.FetchSizeScenario` | src/main/java/net/unit8/solr/jdbc/impl/StatementImpl.java:311-356 | with a row limit of 50: 100 is rejected (10000 stays), 20 is taken, and 0 brings back 10000 above the limit; getMaxRows answers 0 |

## Left out

- src/main/java/net/unit8/solr/jdbc/impl/CommonsHttpConnectionImpl.java is not part of this model. It only builds the HTTP client and passes timeouts to the engine's client library.
- SQL parsing (JSqlParser), `CommandFactory` and `Command` are not part of this model. They become the `Parser` oracle, which is a fixed function of the SQL text. The model does not capture:
  - an earlier statement changing the outcome of a later one;
  - what a command does when its connection is null;
  - what a query command does in `executeUpdate`, or an update command in `executeQuery`. The oracle decides each of these.
- Error conversion (`DbException`, `logAndConvert`, `getSQLException`) becomes the `Failure` datatype. Error messages and SQL states are not modelled.
- `ResultSetMetaDataImpl`, `AbstractResultSet` and `Expression` are not part of this model:
  - the count columns are passed in as their result names;
  - closing a result set is modelled as setting a `closed` flag on the held value, so sharing of the result set object is not captured.
- Turning documents into column values (the result-set accessors in `AbstractResultSet`) is not modelled; `DefaultResultSetImpl`'s constructor only pads the list and stamps the count columns.
- Document field order: Solr documents keep insertion order, but the model's documents are maps, so that order is not captured. Each document is a value inside the list, so another holder of one document object would not see the stamping. The sharing of the list object itself is kept.
- The transaction flag on the connection (`setUpdatedInTx`) is recorded only as the ghost field `markedUpdatedInTx`.
- Java `int` width: counts, fetch sizes and row limits are unbounded integers. The modelled code does no arithmetic on them, so no wrap-around can arise.
- Stubs with no logic are not modelled:
  - `cancel`, warnings, holdability, fetch direction, poolable, close-on-completion, cursor name, escape processing, max field size;
  - `isWrapperFor`/`unwrap`, `getGeneratedKeys`, `getConnection`, `getResultSetType`/`getResultSetConcurrency`;
  - query timeout delegation;
  - `getObject(..., Class)`, which returns null.
- The `execute` and `executeUpdate` overloads that take generated-key arguments only delegate, so they are modelled once.
- Dispatch through subclasses that override `executeUpdate` is not modelled.
