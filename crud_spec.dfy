/**
 * What `crudRepository` does in terms of the database's answers: the driver is
 * replaced by a script of outcomes (ping, begin, exec, scan, commit, rollback,
 * the rows a query yields and what the caller's mapper makes of each row), and
 * every driver call is recorded as an event. Each operation's outcome after the
 * connection health check is a function of its script; the class in
 * `CrudRepository` is proved to produce exactly these outcomes.
 */
module CrudSpec {
  import opened Wrappers
  import opened GoInt
  import opened Response
  import opened CommonUtility
  import Constants

  /** A query argument as the repositories pass them. */
  datatype Arg = Text(text: string) | Number(n: int) | Timestamp(t: int)

  /** One call into the database driver, in the order the executor makes them. */
  datatype Event =
    | Connect
    | Ping(ok: bool)
    | Begin(ok: bool)
    | Exec(sql: string, args: seq<Arg>)
    | QueryRow(sql: string, args: seq<Arg>)
    | Query(sql: string, args: seq<Arg>)
    | Map
    | Commit(ok: bool)
    | Rollback(ok: bool)

  datatype Step = ConnectStep | PingStep | BeginStep | ExecStep | QueryRowStep | QueryStep | MapStep | CommitStep | RollbackStep

  function StepOf(e: Event): Step
  {
    match e
    case Connect => ConnectStep
    case Ping(_) => PingStep
    case Begin(_) => BeginStep
    case Exec(_, _) => ExecStep
    case QueryRow(_, _) => QueryRowStep
    case Query(_, _) => QueryStep
    case Map => MapStep
    case Commit(_) => CommitStep
    case Rollback(_) => RollbackStep
  }

  /** How many events of the given kind a trace holds. */
  function Tally(es: seq<Event>, k: Step): nat
  {
    if es == [] then 0 else (if StepOf(es[0]) == k then 1 else 0) + Tally(es[1..], k)
  }

  lemma TallySingle(e: Event, k: Step)
    ensures Tally([e], k) == if StepOf(e) == k then 1 else 0
  {
    assert [e][1..] == [];
  }

  lemma TallyPair(a: Event, b: Event, k: Step)
    ensures Tally([a, b], k) == (if StepOf(a) == k then 1 else 0) + (if StepOf(b) == k then 1 else 0)
  {
    assert [a, b][1..] == [b];
    TallySingle(b, k);
  }

  lemma {:induction false} TallyConcat(a: seq<Event>, b: seq<Event>, k: Step)
    ensures Tally(a + b, k) == Tally(a, k) + Tally(b, k)
  {
    if a == [] {
      assert a + b == b;
    } else {
      assert (a + b)[1..] == a[1..] + b;
      TallyConcat(a[1..], b, k);
    }
  }

  // ------------------------------------------------------------ driver answers

  /** What `tx.Exec` answers: an error, or the command tag's `RowsAffected()`. */
  datatype ExecAnswer = ExecError | Affected(rows: Int64)

  /** What `tx.QueryRow(...).Scan(&id)` answers: an error, or the returned id as a dynamic value. */
  datatype ScanAnswer = ScanError | Scanned(id: Any)

  /** What a caller-supplied row mapper returns: a value, `pgx.ErrNoRows`, or any other error. */
  datatype MapResult<T> = Mapped(item: T) | ErrNoRows | ErrOther

  /** What `db.Query` answers: an error, or the rows `rows.Next()` goes through. */
  datatype RowsAnswer<R> = QueryError | Rows(rows: seq<R>)

  /** The answers one `Delete` or `Update` call gets. */
  datatype TxScript = TxScript(pingOk: bool, beginOk: bool, exec: ExecAnswer, commitOk: bool, rollbackOk: bool)

  /** The answers one `Create` call gets. */
  datatype CreateScript = CreateScript(pingOk: bool, beginOk: bool, scan: ScanAnswer, commitOk: bool, rollbackOk: bool)

  // ------------------------------------------------------------ error values

  function BeginError(): ErrorMessage { ErrorMessage(StatusInternalServerError, Constants.FAILED_BEGIN_TRANSACTION) }
  function RollbackError(kind: string): ErrorMessage { ErrorMessage(StatusInternalServerError, Constants.FailedToUpdateObj(kind)) }
  function CommitError(kind: string): ErrorMessage { ErrorMessage(StatusInternalServerError, Constants.CommitFailed(kind)) }
  function NoRowsError(kind: string): ErrorMessage { ErrorMessage(StatusNotFound, Constants.NoRowsAffected(kind)) }
  function CreateError(kind: string): ErrorMessage { ErrorMessage(StatusInternalServerError, Constants.FailedToCreateObj(kind)) }
  function QueryFailedError(): ErrorMessage { ErrorMessage(StatusInternalServerError, "Failed to execute query") }
  function ScanRowError(): ErrorMessage { ErrorMessage(StatusInternalServerError, "Failed to scan row") }
  function FailedScanError(): ErrorMessage { ErrorMessage(StatusInternalServerError, Constants.FAILED_SCAN) }
  function CountError(): ErrorMessage { ErrorMessage(StatusInternalServerError, "Failed to count total rows") }
  function NotFoundError(kind: string): ErrorMessage { ErrorMessage(StatusNotFound, "No " + kind + " found with the given criteria") }

  /** The id `Create` returns on every failure: Go's untyped `-1`, which becomes an `int`. */
  const FailedId: Any := AnyInt(-1)

  // ------------------------------------------------------------ health check

  function HealthConnects(hadHandle: bool, pingOk: bool): nat
  {
    (if hadHandle then 0 else 1) + (if pingOk then 0 else 1)
  }

  /**
   * `CheckAndResetDBConnection`: connect when there is no handle, ping the
   * handle (old or new) once, and connect again when the ping fails.
   */
  function HealthEvents(hadHandle: bool, pingOk: bool): (es: seq<Event>)
    ensures Tally(es, PingStep) == 1
    ensures Tally(es, ConnectStep) == HealthConnects(hadHandle, pingOk) <= 2
    ensures Tally(es, ConnectStep) == 0 <==> hadHandle && pingOk
    ensures forall k :: k != PingStep && k != ConnectStep ==> Tally(es, k) == 0
  {
    var before: seq<Event> := if hadHandle then [] else [Connect];
    var after: seq<Event> := if pingOk then [] else [Connect];
    forall k ensures Tally(before + [Ping(pingOk)] + after, k)
                     == (if hadHandle || k != ConnectStep then 0 else 1) + (if k == PingStep then 1 else 0)
                        + (if pingOk || k != ConnectStep then 0 else 1) {
      TallyConcat(before, [Ping(pingOk)], k);
      TallyConcat(before + [Ping(pingOk)], after, k);
      TallySingle(Ping(pingOk), k);
      TallySingle(Connect, k);
    }
    before + [Ping(pingOk)] + after
  }

  // ------------------------------------------------------------ transactions

  /** Outcome of `Delete` or `Update` after the health check. */
  datatype TxRun = TxRun(err: Option<ErrorMessage>, events: seq<Event>)

  /** `CommitTransaction`'s result. */
  function CommitOutcome(kind: string, commitOk: bool): (r: Option<ErrorMessage>)
    ensures r == None <==> commitOk
    ensures r.Some? ==> r.value == CommitError(kind)
  {
    if commitOk then None else Some(CommitError(kind))
  }

  /**
   * `Delete`: zero affected rows is success without a commit; a failed exec is
   * rolled back and reported as a failed update, whatever the rollback answers.
   */
  function DeleteRun(sql: string, kind: string, args: seq<Arg>, s: TxScript): (r: TxRun)
    ensures !s.beginOk ==> r == TxRun(Some(BeginError()), [Begin(false)])
    ensures s.beginOk ==> |r.events| >= 2 && r.events[..2] == [Begin(true), Exec(sql, args)]
    ensures s.beginOk && s.exec.ExecError? ==>
      r == TxRun(Some(RollbackError(kind)), [Begin(true), Exec(sql, args), Rollback(s.rollbackOk)])
    ensures s.beginOk && s.exec == Affected(0) ==> r == TxRun(None, [Begin(true), Exec(sql, args)])
    ensures s.beginOk && s.exec.Affected? && s.exec.rows != 0 ==>
      r == TxRun(CommitOutcome(kind, s.commitOk), [Begin(true), Exec(sql, args), Commit(s.commitOk)])
    ensures r.err.Some? ==> r.err.value.statusCode == StatusInternalServerError
    ensures r.err == None <==> s.beginOk && s.exec.Affected? && (s.exec.rows == 0 || s.commitOk)
  {
    if !s.beginOk then TxRun(Some(BeginError()), [Begin(false)])
    else
      var started := [Begin(true), Exec(sql, args)];
      match s.exec
      case ExecError => TxRun(Some(RollbackError(kind)), started + [Rollback(s.rollbackOk)])
      case Affected(n) =>
        if n == 0 then TxRun(None, started)
        else TxRun(CommitOutcome(kind, s.commitOk), started + [Commit(s.commitOk)])
  }

  /** `Update`: as `Delete`, except that zero affected rows is a 404 `NO_ROWS_AFFECTED`. */
  function UpdateRun(sql: string, kind: string, args: seq<Arg>, s: TxScript): (r: TxRun)
    ensures !s.beginOk ==> r == TxRun(Some(BeginError()), [Begin(false)])
    ensures s.beginOk ==> |r.events| >= 2 && r.events[..2] == [Begin(true), Exec(sql, args)]
    ensures s.beginOk && s.exec.ExecError? ==>
      r == TxRun(Some(RollbackError(kind)), [Begin(true), Exec(sql, args), Rollback(s.rollbackOk)])
    ensures s.beginOk && s.exec == Affected(0) ==> r == TxRun(Some(NoRowsError(kind)), [Begin(true), Exec(sql, args)])
    ensures s.beginOk && s.exec.Affected? && s.exec.rows != 0 ==>
      r == TxRun(CommitOutcome(kind, s.commitOk), [Begin(true), Exec(sql, args), Commit(s.commitOk)])
    ensures r.err == None <==> s.beginOk && s.exec.Affected? && s.exec.rows != 0 && s.commitOk
  {
    if !s.beginOk then TxRun(Some(BeginError()), [Begin(false)])
    else
      var started := [Begin(true), Exec(sql, args)];
      match s.exec
      case ExecError => TxRun(Some(RollbackError(kind)), started + [Rollback(s.rollbackOk)])
      case Affected(n) =>
        if n == 0 then TxRun(Some(NoRowsError(kind)), started)
        else TxRun(CommitOutcome(kind, s.commitOk), started + [Commit(s.commitOk)])
  }

  /** Outcome of `Create` after the health check: the id returned, the error, the driver calls. */
  datatype CreateRun = CreateRun(id: Any, err: Option<ErrorMessage>, events: seq<Event>)

  /**
   * `Create`: a failed scan is rolled back and reported as a failed create; a
   * failed commit is followed by a rollback whose failed-update error is returned.
   */
  function CreateOutcome(sql: string, kind: string, args: seq<Arg>, s: CreateScript): (r: CreateRun)
    ensures !s.beginOk ==> r == CreateRun(FailedId, Some(BeginError()), [Begin(false)])
    ensures s.beginOk && s.scan.ScanError? ==>
      r == CreateRun(FailedId, Some(CreateError(kind)), [Begin(true), QueryRow(sql, args), Rollback(s.rollbackOk)])
    ensures s.beginOk && s.scan.Scanned? && !s.commitOk ==>
      r == CreateRun(FailedId, Some(RollbackError(kind)), [Begin(true), QueryRow(sql, args), Commit(false), Rollback(s.rollbackOk)])
    ensures s.beginOk && s.scan.Scanned? && s.commitOk ==>
      r == CreateRun(s.scan.id, None, [Begin(true), QueryRow(sql, args), Commit(true)])
    ensures r.err.Some? ==> r.id == FailedId && r.err.value.statusCode == StatusInternalServerError
  {
    if !s.beginOk then CreateRun(FailedId, Some(BeginError()), [Begin(false)])
    else
      var started := [Begin(true), QueryRow(sql, args)];
      match s.scan
      case ScanError => CreateRun(FailedId, Some(CreateError(kind)), started + [Rollback(s.rollbackOk)])
      case Scanned(id) =>
        if s.commitOk then CreateRun(id, None, started + [Commit(true)])
        else CreateRun(FailedId, Some(RollbackError(kind)), started + [Commit(false), Rollback(s.rollbackOk)])
  }

  /** `Delete` and `Update` end their transaction at most once: never both a commit and a rollback. */
  lemma TransactionEndsAtMostOnce(sql: string, kind: string, args: seq<Arg>, s: TxScript)
    ensures Tally(DeleteRun(sql, kind, args, s).events, CommitStep) + Tally(DeleteRun(sql, kind, args, s).events, RollbackStep) <= 1
    ensures Tally(UpdateRun(sql, kind, args, s).events, CommitStep) + Tally(UpdateRun(sql, kind, args, s).events, RollbackStep) <= 1
    ensures Tally(DeleteRun(sql, kind, args, s).events, RollbackStep) == 1 <==> s.beginOk && s.exec.ExecError?
    ensures Tally(DeleteRun(sql, kind, args, s).events, CommitStep) == 1 <==> s.beginOk && s.exec.Affected? && s.exec.rows != 0
    ensures Tally(UpdateRun(sql, kind, args, s).events, RollbackStep) == 1 <==> s.beginOk && s.exec.ExecError?
    ensures Tally(UpdateRun(sql, kind, args, s).events, CommitStep) == 1 <==> s.beginOk && s.exec.Affected? && s.exec.rows != 0
    ensures Tally(DeleteRun(sql, kind, args, s).events, ExecStep) == Tally(UpdateRun(sql, kind, args, s).events, ExecStep)
            == if s.beginOk then 1 else 0
  {
    TallySingle(Begin(false), ExecStep);
    TallyPair(Begin(true), Exec(sql, args), ExecStep);
    TallyConcat([Begin(true), Exec(sql, args)], [Rollback(s.rollbackOk)], ExecStep);
    TallyConcat([Begin(true), Exec(sql, args)], [Commit(s.commitOk)], ExecStep);
    var started := [Begin(true), Exec(sql, args)];
    TallyPair(Begin(true), Exec(sql, args), CommitStep);
    TallyPair(Begin(true), Exec(sql, args), RollbackStep);
    TallyConcat(started, [Rollback(s.rollbackOk)], CommitStep);
    TallyConcat(started, [Rollback(s.rollbackOk)], RollbackStep);
    TallyConcat(started, [Commit(s.commitOk)], CommitStep);
    TallyConcat(started, [Commit(s.commitOk)], RollbackStep);
  }

  /**
   * `Create` is the one operation that may commit and then roll back: exactly
   * when the commit fails. It rolls back at most once.
   */
  lemma CreateCommitThenRollback(sql: string, kind: string, args: seq<Arg>, s: CreateScript)
    ensures var es := CreateOutcome(sql, kind, args, s).events;
            && Tally(es, RollbackStep) <= 1 && Tally(es, CommitStep) <= 1
            && (Tally(es, CommitStep) + Tally(es, RollbackStep) == 2 <==> s.beginOk && s.scan.Scanned? && !s.commitOk)
  {
    var started := [Begin(true), QueryRow(sql, args)];
    TallyPair(Begin(true), QueryRow(sql, args), CommitStep);
    TallyPair(Begin(true), QueryRow(sql, args), RollbackStep);
    TallyConcat(started, [Rollback(s.rollbackOk)], CommitStep);
    TallyConcat(started, [Rollback(s.rollbackOk)], RollbackStep);
    TallyConcat(started, [Commit(true)], CommitStep);
    TallyConcat(started, [Commit(true)], RollbackStep);
    TallyConcat(started, [Commit(false), Rollback(s.rollbackOk)], CommitStep);
    TallyConcat(started, [Commit(false), Rollback(s.rollbackOk)], RollbackStep);
  }

  /** The deliberate asymmetry: on zero affected rows `Delete` succeeds and `Update` is a 404, with the same driver calls. */
  lemma ZeroRowsAsymmetry(sql: string, kind: string, args: seq<Arg>, s: TxScript)
    requires s.beginOk && s.exec == Affected(0)
    ensures DeleteRun(sql, kind, args, s).err == None
    ensures UpdateRun(sql, kind, args, s).err == Some(NoRowsError(kind))
    ensures DeleteRun(sql, kind, args, s).events == UpdateRun(sql, kind, args, s).events
  {
  }

  /** Apart from their zero-row answer, `Delete` and `Update` behave identically. */
  lemma DeleteUpdateAgree(sql: string, kind: string, args: seq<Arg>, s: TxScript)
    requires !(s.beginOk && s.exec == Affected(0))
    ensures DeleteRun(sql, kind, args, s) == UpdateRun(sql, kind, args, s)
  {
  }

  // ------------------------------------------------------------ reads

  /** Mapping rows in query order: all of them, or the index of the first one the mapper rejects. */
  datatype MapOutcome<T> = AllMapped(items: seq<T>) | FailedAt(index: nat)

  function MapRows<R, T>(mapper: R -> MapResult<T>, rows: seq<R>): (r: MapOutcome<T>)
    ensures r.AllMapped? ==>
      |r.items| == |rows| && forall i :: 0 <= i < |rows| ==> mapper(rows[i]) == Mapped(r.items[i])
    ensures r.FailedAt? ==>
      && r.index < |rows| && !mapper(rows[r.index]).Mapped?
      && forall i :: 0 <= i < r.index ==> mapper(rows[i]).Mapped?
    decreases |rows|
  {
    if rows == [] then AllMapped([])
    else
      match mapper(rows[0])
      case Mapped(x) =>
        (match MapRows(mapper, rows[1..])
         case AllMapped(xs) => AllMapped([x] + xs)
         case FailedAt(k) => FailedAt(k + 1))
      case _ => FailedAt(0)
  }

  /** The mapping outcome is determined: the first rejected row, or every row mapped. */
  lemma MapRowsFailsAt<R, T>(mapper: R -> MapResult<T>, rows: seq<R>, i: nat)
    requires i < |rows| && !mapper(rows[i]).Mapped?
    requires forall j :: 0 <= j < i ==> mapper(rows[j]).Mapped?
    ensures MapRows(mapper, rows) == FailedAt(i)
  {
  }

  lemma MapRowsAllMapped<R, T>(mapper: R -> MapResult<T>, rows: seq<R>, items: seq<T>)
    requires |items| == |rows|
    requires forall j :: 0 <= j < |rows| ==> mapper(rows[j]) == Mapped(items[j])
    ensures MapRows(mapper, rows) == AllMapped(items)
  {
    var r := MapRows(mapper, rows);
    forall j | 0 <= j < |rows| ensures r.items[j] == items[j] {
      assert mapper(rows[j]) == Mapped(r.items[j]);
    }
  }

  /** `n` calls of the mapper. */
  function MapTrace(n: nat): (es: seq<Event>)
    ensures |es| == n && forall i :: 0 <= i < n ==> es[i] == Map
  {
    seq(n, _ => Map)
  }

  /** How many rows the mapper is applied to: all of them, or up to and including the first rejected one. */
  function MappedCount<T>(o: MapOutcome<T>, n: nat): nat
  {
    match o
    case AllMapped(_) => n
    case FailedAt(k) => k + 1
  }

  /** Outcome of a read after the health check. */
  datatype ReadRun<V> = ReadRun(value: Option<V>, err: Option<ErrorMessage>, events: seq<Event>)

  /** `Get`: the mapped rows in query order, or the first failure; no row after a rejected one is mapped. */
  function GetRun<R, T>(sql: string, args: seq<Arg>, mapper: R -> MapResult<T>, answer: RowsAnswer<R>): (r: ReadRun<seq<T>>)
    ensures answer.QueryError? ==> r == ReadRun(None, Some(QueryFailedError()), [Query(sql, args)])
    ensures answer.Rows? ==> r.events == [Query(sql, args)] + MapTrace(MappedCount(MapRows(mapper, answer.rows), |answer.rows|))
    ensures r.value.Some? <==> r.err == None
    ensures r.value.Some? ==>
      answer.Rows? && |r.value.value| == |answer.rows|
      && forall i :: 0 <= i < |answer.rows| ==> mapper(answer.rows[i]) == Mapped(r.value.value[i])
    ensures answer.Rows? && MapRows(mapper, answer.rows).AllMapped? ==>
      r.value == Some(MapRows(mapper, answer.rows).items) && r.err == None
    ensures answer.Rows? && MapRows(mapper, answer.rows).FailedAt? ==>
      r.value == None && r.err == Some(ScanRowError())
  {
    match answer
    case QueryError => ReadRun(None, Some(QueryFailedError()), [Query(sql, args)])
    case Rows(rows) =>
      var o := MapRows(mapper, rows);
      var es := [Query(sql, args)] + MapTrace(MappedCount(o, |rows|));
      match o
      case AllMapped(items) => ReadRun(Some(items), None, es)
      case FailedAt(_) => ReadRun(None, Some(ScanRowError()), es)
  }

  /** A query whose every row maps returns exactly those items, in query order, with no error. */
  lemma GetReturnsMappedRows<R, T>(sql: string, args: seq<Arg>, mapper: R -> MapResult<T>, rows: seq<R>, items: seq<T>)
    requires |items| == |rows|
    requires forall j :: 0 <= j < |rows| ==> mapper(rows[j]) == Mapped(items[j])
    ensures GetRun(sql, args, mapper, Rows(rows)) == ReadRun(Some(items), None, [Query(sql, args)] + MapTrace(|rows|))
  {
    MapRowsAllMapped(mapper, rows, items);
  }

  /** `GetOne`: the mapper runs once on the row; `ErrNoRows` is a 404 and any other error a 500 `FAILED_SCAN`. */
  function GetOneRun<R, T>(sql: string, kind: string, args: seq<Arg>, mapper: R -> MapResult<T>, row: R): (r: ReadRun<T>)
    ensures r.events == [QueryRow(sql, args), Map]
    ensures r.value.Some? <==> r.err == None
    ensures r.value.Some? ==> mapper(row) == Mapped(r.value.value)
    ensures mapper(row).Mapped? ==> r.value == Some(mapper(row).item) && r.err == None
    ensures mapper(row) == ErrNoRows ==> r.err == Some(NotFoundError(kind))
    ensures mapper(row) == ErrOther ==> r.err == Some(FailedScanError())
  {
    var es := [QueryRow(sql, args), Map];
    match mapper(row)
    case Mapped(x) => ReadRun(Some(x), None, es)
    case ErrNoRows => ReadRun(None, Some(NotFoundError(kind)), es)
    case ErrOther => ReadRun(None, Some(FailedScanError()), es)
  }

  /**
   * `GetWithPagination` before it writes into the pagination: the mapped rows
   * and the row count, or the first failure. The count query runs only after
   * every row was mapped.
   */
  function PagedRun<R, T>(countSql: string, finalSql: string, args: seq<Arg>, mapper: R -> MapResult<T>,
                          answer: RowsAnswer<R>, count: Option<Int64>): (r: ReadRun<(seq<T>, Int64)>)
    ensures answer.QueryError? ==> r == ReadRun(None, Some(QueryFailedError()), [Query(finalSql, args)])
    ensures answer.Rows? && MapRows(mapper, answer.rows).FailedAt? ==>
      r == ReadRun(None, Some(FailedScanError()), [Query(finalSql, args)] + MapTrace(MapRows(mapper, answer.rows).index + 1))
    ensures answer.Rows? && MapRows(mapper, answer.rows).AllMapped? ==>
      r.events == [Query(finalSql, args)] + MapTrace(|answer.rows|) + [QueryRow(countSql, [])]
    ensures answer.Rows? && MapRows(mapper, answer.rows).AllMapped? && count.None? ==>
      r.value == None && r.err == Some(CountError())
    ensures answer.Rows? && MapRows(mapper, answer.rows).AllMapped? && count.Some? ==>
      r.value == Some((MapRows(mapper, answer.rows).items, count.value)) && r.err == None
    ensures r.value.Some? <==> r.err == None
  {
    match answer
    case QueryError => ReadRun(None, Some(QueryFailedError()), [Query(finalSql, args)])
    case Rows(rows) =>
      match MapRows(mapper, rows)
      case FailedAt(k) => ReadRun(None, Some(FailedScanError()), [Query(finalSql, args)] + MapTrace(k + 1))
      case AllMapped(items) =>
        var es := [Query(finalSql, args)] + MapTrace(|rows|) + [QueryRow(countSql, [])];
        match count
        case None => ReadRun(None, Some(CountError()), es)
        case Some(total) => ReadRun(Some((items, total)), None, es)
  }

  /** A failure of the data query or of the mapping returns before the count query runs. */
  lemma PagedFailureSkipsCount<R, T>(countSql: string, finalSql: string, args: seq<Arg>, mapper: R -> MapResult<T>,
                                     answer: RowsAnswer<R>, count: Option<Int64>)
    requires answer.QueryError? || MapRows(mapper, answer.rows).FailedAt?
    ensures Tally(PagedRun(countSql, finalSql, args, mapper, answer, count).events, QueryRowStep) == 0
  {
    var es := PagedRun(countSql, finalSql, args, mapper, answer, count).events;
    if answer.Rows? {
      var n := MapRows(mapper, answer.rows).index + 1;
      MapTraceTally(n, QueryRowStep);
      TallyConcat([Query(finalSql, args)], MapTrace(n), QueryRowStep);
    }
  }

  lemma {:induction false} MapTraceTally(n: nat, k: Step)
    ensures Tally(MapTrace(n), k) == if k == MapStep then n else 0
  {
    if n > 0 {
      assert MapTrace(n) == [Map] + MapTrace(n - 1);
      TallyConcat([Map], MapTrace(n - 1), k);
      MapTraceTally(n - 1, k);
    }
  }
}
