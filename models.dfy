/**
 * The stored tables: three append-only raw tables (one per source), the
 * unified table, the checkpoints and the run history.
 *
 * The unified table is a map keyed by (source, external_id) and the
 * checkpoint table a map keyed by source, so the two unique constraints
 * hold of every stored state by construction; what can break the first is
 * a batch of pending inserts, which the session checks when it flushes.
 */
module Models {
  import opened Wrappers

  /** A point in time (a timezone-aware datetime), in microseconds. */
  datatype Instant = Instant(micros: int)

  /** A scalar JSON value of a remote-API record. */
  datatype Json =
    | JNull
    | JBool(b: bool)
    | JInt(i: int)
    /** A JSON float, exactly `mantissa / 10^exp10`. */
    | JFloat(mantissa: int, exp10: nat)
    | JStr(s: string)

  /** One entity of the remote API's response (a JSON object). */
  type ApiRecord = map<string, Json>

  /** One row of a delimited file, from column name to cell text. */
  type CsvRow = map<string, string>

  /** A row of a raw table: the provenance id and the payload kept verbatim. */
  datatype RawRecord<P> = RawRecord(externalId: int, payload: P)

  /** The unique key of the unified table. */
  datatype Key = Key(source: string, externalId: string)

  /** The non-key columns of a unified row; name and value may be null. */
  datatype UnifiedRow = UnifiedRow(name: Option<string>, value: Option<int>, timestamp: Instant)

  /** A checkpoint row; its watermark may be null. */
  datatype Checkpoint = Checkpoint(lastExternalId: Option<int>, lastRunAt: Instant)

  datatype RunStatus = Running | Success | Failure

  /** A row of the run history. */
  datatype EtlRun = EtlRun(
    source: string,
    status: RunStatus,
    recordsProcessed: int,
    errorMessage: Option<string>,
    startedAt: Instant,
    finishedAt: Option<Instant>)

  /** The whole store. A run's index in `runs` stands for its primary key. */
  datatype Tables = Tables(
    rawApi: seq<RawRecord<ApiRecord>>,
    rawCsv1: seq<RawRecord<CsvRow>>,
    rawCsv2: seq<RawRecord<CsvRow>>,
    unified: map<Key, UnifiedRow>,
    checkpoints: map<string, Checkpoint>,
    runs: seq<EtlRun>)

  /**
   * A new run row as the run tracker adds it: the column defaults give a
   * processed count of 0 and no error message or finish time yet.
   */
  function NewRun(source: string, startedAt: Instant): (r: EtlRun)
    ensures r.source == source && r.status == Running
    ensures r.recordsProcessed == 0 && r.errorMessage.None? && r.finishedAt.None?
  {
    EtlRun(source, Running, 0, None, startedAt, None)
  }

  /** The empty store, as `create_all` leaves it. */
  function EmptyTables(): Tables {
    Tables([], [], [], map[], map[], [])
  }
}
