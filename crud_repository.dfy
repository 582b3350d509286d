/**
 * `crudRepository`: the generic executor every repository goes through. The
 * database pool is a handle numbered by the connection that produced it, and
 * every driver call is appended to `trace`. The driver's answers come in as
 * parameters (a script per call); each method is proved to append exactly the
 * events, and to return exactly the result, that `CrudSpec` gives for them.
 */
module CrudRepository {
  import opened Wrappers
  import opened GoInt
  import opened Response
  import opened CommonUtility
  import opened PaginationUtil
  import opened CrudSpec

  /** A connection pool, identified by the number of the `ConnectDB` call that opened it. */
  datatype Handle = Handle(generation: nat)

  /** A transaction started on a pool. */
  datatype Tx = Tx(handle: Handle)

  class CrudRepository {
    var db: Option<Handle>
    var lock: bool
    var trace: seq<Event>
    /** How many times `ConnectDB` has been called; the newest handle carries this number. */
    var connections: nat

    /**
     * Between calls no reset is in progress, and every handle was produced
     * by one of the connections made so far.
     */
    ghost predicate Valid()
      reads this
    {
      && !lock
      && (db.Some? ==> db.value.generation <= connections)
      && connections == Tally(trace, ConnectStep)
    }

    /**
     * The connection health check ran with the given ping answer: the old
     * handle is kept when it existed and answered the ping, otherwise the
     * repository holds the handle of its newest connection.
     */
    twostate predicate HealthChecked(pingOk: bool)
      reads this
    {
      && connections == old(connections) + HealthConnects(old(db).Some?, pingOk)
      && db == (if old(db).Some? && pingOk then old(db) else Some(Handle(connections)))
    }

    /** `NewCRUDRepository(db)`, with a pool or with `nil`. */
    constructor (hasPool: bool)
      ensures Valid()
      ensures db == (if hasPool then Some(Handle(0)) else None)
      ensures trace == []
    {
      db := if hasPool then Some(Handle(0)) else None;
      lock := false;
      trace := [];
      connections := 0;
    }

    /** `config.ConnectDB()`: opens a new pool, newer than every earlier one. */
    method ConnectDB() returns (h: Handle)
      requires connections == Tally(trace, ConnectStep)
      modifies this`trace, this`connections
      ensures trace == old(trace) + [Connect]
      ensures connections == old(connections) + 1 == Tally(trace, ConnectStep)
      ensures h == Handle(connections)
    {
      TallyConcat(trace, [Connect], ConnectStep);
      TallySingle(Connect, ConnectStep);
      trace := trace + [Connect];
      connections := connections + 1;
      h := Handle(connections);
    }

    /**
     * `CheckAndResetDBConnection`. The `for crud.lock {}` wait never spins in a
     * sequential run: `Valid()` keeps `lock` false between calls.
     */
    method CheckAndResetDBConnection(pingOk: bool)
      requires Valid()
      modifies this
      ensures Valid() && db.Some?
      ensures HealthChecked(pingOk)
      ensures trace == old(trace) + HealthEvents(old(db).Some?, pingOk)
    {
      if db.None? {
        lock := true;
        var h := ConnectDB();
        db := Some(h);
        lock := false;
      }
      TallyConcat(trace, [Ping(pingOk)], ConnectStep);
      TallySingle(Ping(pingOk), ConnectStep);
      trace := trace + [Ping(pingOk)];
      if !pingOk {
        lock := true;
        var h := ConnectDB();
        db := Some(h);
        lock := false;
      }
    }

    /** `BeginTransaction`: the health check, then `db.Begin`. */
    method BeginTransaction(pingOk: bool, beginOk: bool) returns (tx: Option<Tx>, err: Option<ErrorMessage>)
      requires Valid()
      modifies this
      ensures Valid() && HealthChecked(pingOk)
      ensures trace == old(trace) + HealthEvents(old(db).Some?, pingOk) + [Begin(beginOk)]
      ensures beginOk ==> tx == Some(Tx(db.value)) && err == None
      ensures !beginOk ==> tx == None && err == Some(BeginError())
    {
      CheckAndResetDBConnection(pingOk);
      TallyConcat(trace, [Begin(beginOk)], ConnectStep);
      TallySingle(Begin(beginOk), ConnectStep);
      trace := trace + [Begin(beginOk)];
      if !beginOk {
        return None, Some(BeginError());
      }
      return Some(Tx(db.value)), None;
    }

    /** `CommitTransaction`: `nil` when the commit succeeds, a 500 `COMMIT_FAILED` otherwise. */
    method CommitTransaction(tx: Tx, kind: string, commitOk: bool) returns (err: Option<ErrorMessage>)
      requires Valid()
      modifies this`trace
      ensures Valid()
      ensures trace == old(trace) + [Commit(commitOk)]
      ensures err == CommitOutcome(kind, commitOk)
    {
      TallyConcat(trace, [Commit(commitOk)], ConnectStep);
      TallySingle(Commit(commitOk), ConnectStep);
      trace := trace + [Commit(commitOk)];
      if !commitOk {
        return Some(CommitError(kind));
      }
      return None;
    }

    /** `RollBackTransaction`: a 500 `FAILED_TO_UPDATE_OBJ` error whether or not the rollback succeeds. */
    method RollBackTransaction(tx: Tx, kind: string, rollbackOk: bool) returns (err: Option<ErrorMessage>)
      requires Valid()
      modifies this`trace
      ensures Valid()
      ensures trace == old(trace) + [Rollback(rollbackOk)]
      ensures err == Some(RollbackError(kind))
    {
      TallyConcat(trace, [Rollback(rollbackOk)], ConnectStep);
      TallySingle(Rollback(rollbackOk), ConnectStep);
      trace := trace + [Rollback(rollbackOk)];
      return Some(RollbackError(kind));
    }

    /** Appends a driver call that is not a connection; the invariant is kept. */
    method Record(es: seq<Event>)
      requires Valid() && Tally(es, ConnectStep) == 0
      modifies this`trace
      ensures Valid() && trace == old(trace) + es
    {
      TallyConcat(trace, es, ConnectStep);
      trace := trace + es;
    }

    method Delete(sql: string, kind: string, args: seq<Arg>, s: TxScript) returns (err: Option<ErrorMessage>)
      requires Valid()
      modifies this
      ensures Valid() && HealthChecked(s.pingOk)
      ensures trace == old(trace) + HealthEvents(old(db).Some?, s.pingOk) + DeleteRun(sql, kind, args, s).events
      ensures err == DeleteRun(sql, kind, args, s).err
    {
      var tx, txErr := BeginTransaction(s.pingOk, s.beginOk);
      if txErr.Some? {
        return txErr;
      }
      TallySingle(Exec(sql, args), ConnectStep);
      Record([Exec(sql, args)]);
      match s.exec {
        case ExecError =>
          err := RollBackTransaction(tx.value, kind, s.rollbackOk);
        case Affected(n) =>
          if n == 0 {
            return None;
          }
          err := CommitTransaction(tx.value, kind, s.commitOk);
      }
    }

    method Update(sql: string, kind: string, args: seq<Arg>, s: TxScript) returns (err: Option<ErrorMessage>)
      requires Valid()
      modifies this
      ensures Valid() && HealthChecked(s.pingOk)
      ensures trace == old(trace) + HealthEvents(old(db).Some?, s.pingOk) + UpdateRun(sql, kind, args, s).events
      ensures err == UpdateRun(sql, kind, args, s).err
    {
      var tx, txErr := BeginTransaction(s.pingOk, s.beginOk);
      if txErr.Some? {
        return txErr;
      }
      TallySingle(Exec(sql, args), ConnectStep);
      Record([Exec(sql, args)]);
      match s.exec {
        case ExecError =>
          err := RollBackTransaction(tx.value, kind, s.rollbackOk);
        case Affected(n) =>
          if n == 0 {
            return Some(NoRowsError(kind));
          }
          err := CommitTransaction(tx.value, kind, s.commitOk);
      }
    }

    method Create(sql: string, kind: string, args: seq<Arg>, s: CreateScript) returns (id: Any, err: Option<ErrorMessage>)
      requires Valid()
      modifies this
      ensures Valid() && HealthChecked(s.pingOk)
      ensures trace == old(trace) + HealthEvents(old(db).Some?, s.pingOk) + CreateOutcome(sql, kind, args, s).events
      ensures id == CreateOutcome(sql, kind, args, s).id
      ensures err == CreateOutcome(sql, kind, args, s).err
    {
      var tx, txErr := BeginTransaction(s.pingOk, s.beginOk);
      if txErr.Some? {
        return FailedId, txErr;
      }
      TallySingle(QueryRow(sql, args), ConnectStep);
      Record([QueryRow(sql, args)]);
      if s.scan.ScanError? {
        var _ := RollBackTransaction(tx.value, kind, s.rollbackOk);
        return FailedId, Some(CreateError(kind));
      }
      var cErr := CommitTransaction(tx.value, kind, s.commitOk);
      if cErr.Some? {
        err := RollBackTransaction(tx.value, kind, s.rollbackOk);
        return FailedId, err;
      }
      return s.scan.id, None;
    }

    /** `GetOne`: the health check, `db.QueryRow`, then the mapper on that row. */
    method GetOne<R, T>(sql: string, kind: string, mapper: R -> MapResult<T>, args: seq<Arg>, pingOk: bool, row: R)
      returns (item: Option<T>, err: Option<ErrorMessage>)
      requires Valid()
      modifies this
      ensures Valid() && HealthChecked(pingOk)
      ensures trace == old(trace) + HealthEvents(old(db).Some?, pingOk) + GetOneRun(sql, kind, args, mapper, row).events
      ensures item == GetOneRun(sql, kind, args, mapper, row).value
      ensures err == GetOneRun(sql, kind, args, mapper, row).err
    {
      CheckAndResetDBConnection(pingOk);
      TallyPair(QueryRow(sql, args), Map, ConnectStep);
      Record([QueryRow(sql, args), Map]);
      var m := mapper(row);
      match m {
        case Mapped(x) => return Some(x), None;
        case ErrNoRows => return None, Some(NotFoundError(kind));
        case ErrOther => return None, Some(FailedScanError());
      }
    }

    /**
     * The `for rows.Next()` loop shared by `Get` and `GetWithPagination`:
     * maps the rows in order and stops at the first row the mapper rejects.
     */
    method MapAll<R, T>(mapper: R -> MapResult<T>, rows: seq<R>) returns (o: MapOutcome<T>)
      requires Valid()
      modifies this`trace
      ensures Valid()
      ensures o == MapRows(mapper, rows)
      ensures trace == old(trace) + MapTrace(MappedCount(o, |rows|))
    {
      var results: seq<T> := [];
      var i := 0;
      while i < |rows|
        invariant 0 <= i <= |rows| && |results| == i
        invariant forall j :: 0 <= j < i ==> mapper(rows[j]) == Mapped(results[j])
        invariant Valid() && trace == old(trace) + MapTrace(i)
      {
        var m := mapper(rows[i]);
        MapTraceTally(1, ConnectStep);
        Record(MapTrace(1));
        assert MapTrace(i) + MapTrace(1) == MapTrace(i + 1);
        if !m.Mapped? {
          MapRowsFailsAt(mapper, rows, i);
          return FailedAt(i);
        }
        results := results + [m.item];
        i := i + 1;
      }
      MapRowsAllMapped(mapper, rows, results);
      return AllMapped(results);
    }

    /** `Get`: the health check, `db.Query`, and every row through the mapper. */
    method Get<R, T>(sql: string, kind: string, mapper: R -> MapResult<T>, args: seq<Arg>, pingOk: bool, answer: RowsAnswer<R>)
      returns (items: Option<seq<T>>, err: Option<ErrorMessage>)
      requires Valid()
      modifies this
      ensures Valid() && HealthChecked(pingOk)
      ensures trace == old(trace) + HealthEvents(old(db).Some?, pingOk) + GetRun(sql, args, mapper, answer).events
      ensures items == GetRun(sql, args, mapper, answer).value
      ensures err == GetRun(sql, args, mapper, answer).err
    {
      CheckAndResetDBConnection(pingOk);
      TallySingle(Query(sql, args), ConnectStep);
      Record([Query(sql, args)]);
      if answer.QueryError? {
        return None, Some(QueryFailedError());
      }
      var o := MapAll(mapper, answer.rows);
      if o.FailedAt? {
        return None, Some(ScanRowError());
      }
      return Some(o.items), None;
    }

    /**
     * `GetWithPagination`: on success the pagination receives the rows, the
     * count and the page count, and is returned; on any failure it is untouched.
     */
    method GetWithPagination<R, T>(countSql: string, kind: string, finalSql: string, mapper: R -> MapResult<T>,
                                   p: Pagination<T>, args: seq<Arg>, pingOk: bool,
                                   answer: RowsAnswer<R>, count: Option<Int64>)
      returns (r: Option<Pagination<T>>, err: Option<ErrorMessage>)
      requires Valid()
      modifies this, p
      ensures Valid() && HealthChecked(pingOk)
      ensures trace == old(trace) + HealthEvents(old(db).Some?, pingOk)
                       + PagedRun(countSql, finalSql, args, mapper, answer, count).events
      ensures err == PagedRun(countSql, finalSql, args, mapper, answer, count).err
      ensures err.Some? ==> r == None && unchanged(p)
      ensures err == None ==> r == Some(p)
      ensures err == None ==> PagedRun(countSql, finalSql, args, mapper, answer, count).value == Some((p.rows, p.totalRows))
      ensures err == None ==> p.limit == ResolvedLimit(old(p.limit)) && p.totalPages == CeilDiv(p.totalRows, p.limit)
      ensures err == None ==> p.page == old(p.page) && p.sort == old(p.sort)
    {
      ghost var run := PagedRun(countSql, finalSql, args, mapper, answer, count);
      CheckAndResetDBConnection(pingOk);
      ghost var checked := trace;
      TallySingle(Query(finalSql, args), ConnectStep);
      Record([Query(finalSql, args)]);
      if answer.QueryError? {
        assert trace == checked + run.events;
        return None, Some(QueryFailedError());
      }
      var o := MapAll(mapper, answer.rows);
      if o.FailedAt? {
        assert run.events == [Query(finalSql, args)] + MapTrace(o.index + 1);
        assert trace == checked + run.events;
        return None, Some(FailedScanError());
      }
      TallySingle(QueryRow(countSql, []), ConnectStep);
      Record([QueryRow(countSql, [])]);
      assert run.events == [Query(finalSql, args)] + MapTrace(|answer.rows|) + [QueryRow(countSql, [])];
      assert trace == checked + run.events;
      if count.None? {
        return None, Some(CountError());
      }
      assert run.value == Some((o.items, count.value));
      StorePage(p, count.value, o.items);
      return Some(p), None;
    }

    /** The last assignments of `GetWithPagination`: the count, the page count (through `GetLimit`), the rows. */
    static method StorePage<T>(p: Pagination<T>, totalRows: Int64, items: seq<T>)
      modifies p
      ensures p.rows == items && p.totalRows == totalRows
      ensures p.limit == ResolvedLimit(old(p.limit)) && p.totalPages == CeilDiv(totalRows, p.limit)
      ensures p.page == old(p.page) && p.sort == old(p.sort)
    {
      p.totalRows := totalRows;
      var limit := p.GetLimit();
      p.totalPages := CeilDiv(totalRows, limit);
      p.rows := items;
    }
  }
}
