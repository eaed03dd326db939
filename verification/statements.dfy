/** StatementImpl: the state a JDBC statement keeps between calls (the batch,
    the fetch size and row limit, the closed flag, the current result set and
    update count) and how each call changes it. Parsing SQL into a command and
    running the command happen in code this model does not contain: they are
    supplied as a `Parser` oracle. */
module Statements {
  import opened SolrTypes

  /** Paging default and the value setFetchSize(0) restores. */
  const MAX_FETCH_SIZE: int := 10000

  /** java.sql.Statement constants. */
  const CLOSE_CURRENT_RESULT: int := 1
  const KEEP_CURRENT_RESULT: int := 2
  const CLOSE_ALL_RESULTS: int := 3
  const EXECUTE_FAILED: int := -3

  /** A parsed command, by what its two entry points would do: whether it is a
      query, what executeQuery() yields and what executeUpdate() yields. */
  datatype Command = Command(
    isQuery: bool,
    queryOutcome: Result<seq<Document>, Failure>,
    updateOutcome: Result<int, Failure>)

  /** parseSQL: SQL text to a parsed command, or the failure it raises. */
  type Parser = string -> Result<Command, Failure>

  /** A result set the statement holds: its rows and whether it was closed. */
  datatype HeldResultSet = HeldResultSet(rows: seq<Document>, closed: bool)

  /** What executeQuery(sql) returns: the command's query result, or the
      failure of parsing or of the command. */
  function QueryOutcome(parse: Parser, sql: string): (r: Result<seq<Document>, Failure>)
  {
    match parse(sql)
    case Failure(e) => Failure(e)
    case Success(cmd) => cmd.queryOutcome
  }

  /** What executeUpdate(sql) returns: the command's update count, unless
      parsing or the command fails, or the connection (null once the statement
      is closed) is dereferenced after a successful update. */
  function UpdateOutcome(parse: Parser, sql: string, connected: bool): (r: Result<int, Failure>)
  {
    match parse(sql)
    case Failure(e) => Failure(e)
    case Success(cmd) =>
      match cmd.updateOutcome
      case Failure(e) => Failure(e)
      case Success(n) => if connected then Success(n) else Failure(NullConnection)
  }

  /** One entry of executeBatch's array. */
  function BatchEntry(outcome: Result<int, Failure>): (r: int)
  {
    match outcome
    case Success(n) => n
    case Failure(_) => EXECUTE_FAILED
  }

  /** executeBatch's array for a batch, entry by entry. */
  function BatchCounts(parse: Parser, batch: seq<string>, connected: bool): (r: seq<int>)
  {
    seq(|batch|, i requires 0 <= i < |batch| => BatchEntry(UpdateOutcome(parse, batch[i], connected)))
  }

  /** Whether statement `i` of the batch fails. */
  predicate FailsAt(parse: Parser, batch: seq<string>, connected: bool, i: int)
    requires 0 <= i < |batch|
  {
    UpdateOutcome(parse, batch[i], connected).Failure?
  }

  class Statement {
    const parse: Parser
    const resultSetType: int
    const resultSetConcurrency: int

    /** conn != null; close() sets conn to null. */
    var connected: bool
    /** Whether this statement has called conn.setUpdatedInTx(true). */
    ghost var markedUpdatedInTx: bool
    var resultSet: Option<HeldResultSet>
    var updateCount: int
    /** null until the first addBatch, and again after clearBatch or executeBatch. */
    var batchCommands: Option<seq<string>>
    var closed: bool
    var maxRows: int
    var fetchSize: int

    ghost predicate Valid()
      reads this
    {
      fetchSize > 0 && (closed <==> !connected)
    }

    /** The batched SQL strings, an absent list read as empty. */
    ghost function Batch(): (r: seq<string>)
      reads this
    {
      if batchCommands.Some? then batchCommands.value else []
    }

    constructor (parse: Parser, resultSetType: int, resultSetConcurrency: int)
      ensures Valid()
      ensures this.parse == parse && this.resultSetType == resultSetType
      ensures this.resultSetConcurrency == resultSetConcurrency
      ensures connected && !closed && !markedUpdatedInTx
      ensures fetchSize == MAX_FETCH_SIZE && maxRows == 0 && updateCount == 0
      ensures batchCommands == None && resultSet == None
    {
      this.parse := parse;
      this.resultSetType := resultSetType;
      this.resultSetConcurrency := resultSetConcurrency;
      connected := true;
      markedUpdatedInTx := false;
      resultSet := None;
      updateCount := 0;
      batchCommands := None;
      closed := false;
      maxRows := 0;
      fetchSize := MAX_FETCH_SIZE;
    }

    /** Builds the OBJECT_CLOSED error when the statement is closed but never
        raises it, so every caller goes on as if the statement were open. */
    method CheckClosed() returns (raised: bool)
      ensures !raised
    {
      raised := false;
    }

    method AddBatch(sql: string)
      requires Valid()
      modifies this`batchCommands
      ensures Valid()
      ensures batchCommands.Some?
      ensures Batch() == old(Batch()) + [sql]
    {
      var _ := CheckClosed();
      if batchCommands.None? {
        batchCommands := Some([]);
      }
      batchCommands := Some(batchCommands.value + [sql]);
    }

    method ClearBatch()
      requires Valid()
      modifies this`batchCommands
      ensures Valid()
      ensures batchCommands == None && Batch() == []
    {
      var _ := CheckClosed();
      batchCommands := None;
    }

    /** Drops the connection and marks the statement closed; the current
        result set is left open. */
    method Close()
      requires Valid()
      modifies this`connected, this`closed
      ensures Valid()
      ensures !connected && closed
    {
      connected := false;
      closed := true;
    }

    method IsClosed() returns (r: bool)
      requires Valid()
      ensures r <==> closed
      ensures r <==> !connected
    {
      r := closed;
    }

    /** executeInternal (and execute, which only adds checkClosed): a query
        replaces the current result set, an update records its count and
        marks the connection's transaction as updated. Success always
        answers true, for updates too. */
    method Execute(sql: string) returns (r: Result<bool, Failure>)
      requires Valid()
      modifies this`resultSet, this`updateCount, this`markedUpdatedInTx
      ensures Valid()
      ensures r.Success? ==> r.value
      ensures parse(sql).Failure? ==> r == Failure(parse(sql).error) && unchanged(this)
      ensures parse(sql).Success? && parse(sql).value.isQuery ==>
        && updateCount == old(updateCount)
        && markedUpdatedInTx == old(markedUpdatedInTx)
        && match parse(sql).value.queryOutcome
           case Success(rows) => r == Success(true) && resultSet == Some(HeldResultSet(rows, false))
           case Failure(e) => r == Failure(e) && resultSet == old(resultSet)
      ensures parse(sql).Success? && !parse(sql).value.isQuery ==>
        && resultSet == old(resultSet)
        && match parse(sql).value.updateOutcome
           case Success(n) =>
             && updateCount == n
             && r == (if connected then Success(true) else Failure(NullConnection))
             && markedUpdatedInTx == (old(markedUpdatedInTx) || connected)
           case Failure(e) =>
             r == Failure(e) && updateCount == old(updateCount) && markedUpdatedInTx == old(markedUpdatedInTx)
    {
      var _ := CheckClosed();
      var parsed := parse(sql);
      if parsed.Failure? {
        return Failure(parsed.error);
      }
      var command := parsed.value;
      if command.isQuery {
        match command.queryOutcome
        case Failure(e) =>
          return Failure(e);
        case Success(rows) =>
          resultSet := Some(HeldResultSet(rows, false));
      } else {
        match command.updateOutcome
        case Failure(e) =>
          return Failure(e);
        case Success(n) =>
          updateCount := n;
          if !connected {
            return Failure(NullConnection);
          }
          markedUpdatedInTx := true;
      }
      r := Success(true);
    }

    /** executeQuery: the command's result set, handed to the caller and not
        kept by the statement. */
    method ExecuteQuery(sql: string) returns (r: Result<seq<Document>, Failure>)
      ensures r == QueryOutcome(parse, sql)
    {
      var _ := CheckClosed();
      var parsed := parse(sql);
      if parsed.Failure? {
        return Failure(parsed.error);
      }
      r := parsed.value.queryOutcome;
    }

    /** executeUpdate: the command's update count; the statement's own
        updateCount is not touched. */
    method ExecuteUpdate(sql: string) returns (r: Result<int, Failure>)
      modifies this`markedUpdatedInTx
      ensures r == UpdateOutcome(parse, sql, connected)
      ensures markedUpdatedInTx == (old(markedUpdatedInTx) || r.Success?)
    {
      var _ := CheckClosed();
      var parsed := parse(sql);
      if parsed.Failure? {
        return Failure(parsed.error);
      }
      r := parsed.value.updateOutcome;
      if r.Success? {
        if !connected {
          return Failure(NullConnection);
        }
        markedUpdatedInTx := true;
      }
    }

    /** Runs every batched statement through executeUpdate, recording its
        count or EXECUTE_FAILED and carrying on past failures; then empties
        the batch. `failed` is true when the call ends by raising
        BatchUpdateException carrying `counts`. */
    method ExecuteBatch() returns (counts: array<int>, failed: bool)
      requires Valid()
      modifies this`batchCommands, this`markedUpdatedInTx
      ensures Valid()
      ensures fresh(counts)
      ensures counts[..] == BatchCounts(parse, old(Batch()), connected)
      ensures failed <==> exists i :: 0 <= i < |old(Batch())| && FailsAt(parse, old(Batch()), connected, i)
      ensures batchCommands == None
      ensures markedUpdatedInTx <==>
        old(markedUpdatedInTx) || exists i :: 0 <= i < |old(Batch())| && !FailsAt(parse, old(Batch()), connected, i)
    {
      var _ := CheckClosed();
      if batchCommands.None? {
        batchCommands := Some([]);
      }
      var batch := batchCommands.value;
      counts := new int[|batch|];
      failed := false;
      for i := 0 to |batch|
        invariant batchCommands == Some(batch)
        invariant forall k :: 0 <= k < i ==> counts[k] == BatchEntry(UpdateOutcome(parse, batch[k], connected))
        invariant failed <==> exists k :: 0 <= k < i && FailsAt(parse, batch, connected, k)
        invariant markedUpdatedInTx <==>
          old(markedUpdatedInTx) || exists k :: 0 <= k < i && !FailsAt(parse, batch, connected, k)
      {
        var outcome := ExecuteUpdate(batch[i]);
        assert FailsAt(parse, batch, connected, i) <==> outcome.Failure?;
        match outcome
        case Success(n) =>
          counts[i] := n;
        case Failure(_) =>
          counts[i] := EXECUTE_FAILED;
          failed := true;
      }
      batchCommands := None;
    }

    /** getMoreResults(current): there is never a further result, so the
        answer is false; the current result set is closed or kept as asked,
        and any other value is rejected. */
    method GetMoreResults(current: int) returns (r: Result<bool, Failure>)
      requires Valid()
      modifies this`resultSet
      ensures Valid()
      ensures r.Success? ==> !r.value
      ensures current == CLOSE_CURRENT_RESULT || current == CLOSE_ALL_RESULTS ==>
        r == Success(false) &&
        resultSet == if old(resultSet).Some? then Some(old(resultSet).value.(closed := true)) else None
      ensures current == KEEP_CURRENT_RESULT ==> r == Success(false) && resultSet == old(resultSet)
      ensures current !in {CLOSE_CURRENT_RESULT, KEEP_CURRENT_RESULT, CLOSE_ALL_RESULTS} ==>
        r == Failure(InvalidValue("current")) && resultSet == old(resultSet)
    {
      if current == CLOSE_CURRENT_RESULT || current == CLOSE_ALL_RESULTS {
        if resultSet.Some? {
          resultSet := Some(resultSet.value.(closed := true));
        }
      } else if current != KEEP_CURRENT_RESULT {
        return Failure(InvalidValue("current"));
      }
      r := Success(false);
    }

    /** getMoreResults(): the same with CLOSE_CURRENT_RESULT. */
    method GetMoreResultsDefault() returns (r: Result<bool, Failure>)
      requires Valid()
      modifies this`resultSet
      ensures Valid()
      ensures r == Success(false)
      ensures resultSet == if old(resultSet).Some? then Some(old(resultSet).value.(closed := true)) else None
    {
      var _ := CheckClosed();
      r := GetMoreResults(CLOSE_CURRENT_RESULT);
    }

    method GetResultSet() returns (r: Option<HeldResultSet>)
      ensures r == resultSet
    {
      var _ := CheckClosed();
      r := resultSet;
    }

    method GetUpdateCount() returns (r: int)
      ensures r == updateCount
    {
      var _ := CheckClosed();
      r := updateCount;
    }

    /** A negative size, or a positive one above a positive row limit, is
        rejected: the error is converted and swallowed, and the fetch size
        stays. Zero restores the default, even above the row limit. */
    method SetFetchSize(rows: int)
      requires Valid()
      modifies this`fetchSize
      ensures Valid()
      ensures rows == 0 ==> fetchSize == MAX_FETCH_SIZE
      ensures rows > 0 && (maxRows <= 0 || rows <= maxRows) ==> fetchSize == rows
      ensures rows < 0 || (rows > 0 && maxRows > 0 && rows > maxRows) ==> fetchSize == old(fetchSize)
    {
      var _ := CheckClosed();
      if rows < 0 || (rows > 0 && maxRows > 0 && rows > maxRows) {
        // DbException.getInvalidValueException, caught and dropped by logAndConvert
        return;
      }
      var size := rows;
      if size == 0 {
        size := MAX_FETCH_SIZE;
      }
      fetchSize := size;
    }

    method GetFetchSize() returns (r: int)
      requires Valid()
      ensures r == fetchSize && r > 0
    {
      var _ := CheckClosed();
      r := fetchSize;
    }

    /** Stores the limit, with no check of the value or of the closed flag. */
    method SetMaxRows(max: int)
      requires Valid()
      modifies this`maxRows
      ensures Valid()
      ensures maxRows == max
    {
      maxRows := max;
    }

    /** Answers 0 whatever setMaxRows stored. */
    method GetMaxRows() returns (r: int)
      ensures r == 0
    {
      var _ := CheckClosed();
      r := 0;
    }
  }

  /** Each entry of executeBatch's array is the statement's update count when
      it succeeded and EXECUTE_FAILED when it failed, and a failing batch's
      array shows EXECUTE_FAILED at least once. */
  lemma BatchCountsMarkFailures(parse: Parser, batch: seq<string>, connected: bool)
    ensures |BatchCounts(parse, batch, connected)| == |batch|
    ensures forall i :: 0 <= i < |batch| && !FailsAt(parse, batch, connected, i) ==>
      BatchCounts(parse, batch, connected)[i] == UpdateOutcome(parse, batch[i], connected).value
    ensures forall i :: 0 <= i < |batch| && FailsAt(parse, batch, connected, i) ==>
      BatchCounts(parse, batch, connected)[i] == EXECUTE_FAILED
    ensures (exists i :: 0 <= i < |batch| && FailsAt(parse, batch, connected, i)) ==>
      EXECUTE_FAILED in BatchCounts(parse, batch, connected)
  {
  }

  /** On a closed statement every batched update fails: the command may run,
      but dereferencing the dropped connection afterwards raises. */
  lemma ClosedBatchAllFail(parse: Parser, batch: seq<string>)
    ensures BatchCounts(parse, batch, false) == seq(|batch|, _ => EXECUTE_FAILED)
    ensures forall i :: 0 <= i < |batch| ==> FailsAt(parse, batch, false, i)
  {
  }

  /** The fetch-size rules played out on a fresh statement with a row limit
      of 50: 100 is rejected, 20 is taken, and 0 restores 10000 although that
      exceeds the limit; getMaxRows still answers 0. */
  method FetchSizeScenario(parse: Parser) returns (sizes: seq<int>, reportedMaxRows: int)
    ensures sizes == [MAX_FETCH_SIZE, 20, MAX_FETCH_SIZE]
    ensures reportedMaxRows == 0
  {
    var s := new Statement(parse, 0, 0);
    s.SetMaxRows(50);
    s.SetFetchSize(100);
    var a := s.GetFetchSize();
    s.SetFetchSize(20);
    var b := s.GetFetchSize();
    s.SetFetchSize(0);
    var c := s.GetFetchSize();
    sizes := [a, b, c];
    reportedMaxRows := s.GetMaxRows();
  }
}
