/**
 * The ingestion runner. For one source it records a RUNNING run and commits
 * it, reads the source's watermark, captures the raw rows, maps them to
 * drafts, loads the drafts into the unified table, moves the watermark to
 * the largest captured id, marks the run SUCCESS and commits. Any error on
 * the way rolls the session back, marks the run FAILURE with the error's
 * text, commits that and is re-raised. `main` runs the three sources in a
 * fixed order and stops at the first one that fails.
 */
module EtlRunner {
  import opened Wrappers
  import opened Errors
  import opened Models
  import opened Unified
  import opened Store
  import opened Upsert
  import opened CsvCommon
  import ApiSource
  import CsvSource1
  import CsvSource2

  /** The sources `main` runs, in order. */
  const Sources: seq<string> := ["api", "csv1", "csv2"]

  // ---------------------------------------------------------------- checkpoints

  /** `get_checkpoint`: the source's stored watermark, or None without a checkpoint row. */
  function GetCheckpoint(t: Tables, source: string): (r: Option<int>)
    ensures source !in t.checkpoints ==> r.None?
    ensures source in t.checkpoints ==> r == t.checkpoints[source].lastExternalId
  {
    if source in t.checkpoints then t.checkpoints[source].lastExternalId else None
  }

  /** The store with the source's checkpoint holding `last`, stamped `now`. */
  function WithCheckpoint(t: Tables, source: string, last: Option<int>, now: Instant): (r: Tables)
    ensures r.checkpoints.Keys == t.checkpoints.Keys + {source}
    ensures r.checkpoints[source] == Checkpoint(last, now)
    ensures forall other :: other in t.checkpoints && other != source ==> r.checkpoints[other] == t.checkpoints[other]
    ensures GetCheckpoint(r, source) == last
    ensures forall other :: other != source ==> GetCheckpoint(r, other) == GetCheckpoint(t, other)
    ensures r == t.(checkpoints := r.checkpoints)
  {
    t.(checkpoints := t.checkpoints[source := Checkpoint(last, now)])
  }

  /** A source gains a checkpoint row on its first update only. */
  lemma CheckpointRowCount(t: Tables, source: string, last: Option<int>, now: Instant)
    ensures |WithCheckpoint(t, source, last, now).checkpoints| == |t.checkpoints| + (if source in t.checkpoints then 0 else 1)
  {
  }

  /**
   * `update_checkpoint`: adds the checkpoint row when there is none,
   * otherwise overwrites its watermark and run time in place.
   */
  method UpdateCheckpoint(db: Session, source: string, last: Option<int>, now: Instant)
    modifies db
    ensures db.work == WithCheckpoint(old(db.work), source, last, now)
    ensures db.committed == old(db.committed) && db.inserts == old(db.inserts) && db.history == old(db.history)
  {
    if source !in db.work.checkpoints {
      db.work := db.work.(checkpoints := db.work.checkpoints[source := Checkpoint(last, now)]);
    } else {
      var cp := db.work.checkpoints[source];
      cp := cp.(lastExternalId := last, lastRunAt := now);
      db.work := db.work.(checkpoints := db.work.checkpoints[source := cp]);
    }
  }

  // ---------------------------------------------------------------- unified load

  /**
   * `upsert_unified_records`: each draft whose key the session's view
   * holds overwrites that row in place; any other draft is added as a new
   * row, left pending until the flush.
   */
  method UpsertUnifiedRecords(db: Session, drafts: seq<Draft>)
    modifies db
    ensures db.work == old(db.work).(unified := Updated(old(db.work.unified), drafts))
    ensures db.inserts == old(db.inserts) + NewInserts(old(db.work.unified), drafts)
    ensures db.committed == old(db.committed) && db.history == old(db.history)
  {
    ghost var t := db.work.unified;
    for i := 0 to |drafts|
      invariant db.work == old(db.work).(unified := Updated(t, drafts[..i]))
      invariant db.inserts == old(db.inserts) + NewInserts(t, drafts[..i])
      invariant db.committed == old(db.committed) && db.history == old(db.history)
    {
      assert drafts[..i + 1][..i] == drafts[..i];
      var rec := drafts[i];
      var key := Key(rec.source, rec.externalId);
      if key in db.work.unified {
        db.work := db.work.(unified := db.work.unified[key := UnifiedRow(rec.name, rec.value, rec.timestamp)]);
      } else {
        db.inserts := db.inserts + [(key, UnifiedRow(rec.name, rec.value, rec.timestamp))];
      }
    }
    assert drafts[..|drafts|] == drafts;
  }

  // ---------------------------------------------------------------- watermark

  /** `max(ids)`. */
  function Max(ids: seq<int>): (m: int)
    requires ids != []
    ensures m in ids
    ensures forall i :: 0 <= i < |ids| ==> ids[i] <= m
  {
    if |ids| == 1 then ids[0]
    else
      var rest := Max(ids[1..]);
      assert forall i :: 1 <= i < |ids| ==> ids[i] == ids[1..][i - 1];
      if ids[0] >= rest then ids[0] else rest
  }

  /** The new watermark: the largest captured id, or the old watermark when nothing was captured. */
  function NewCheckpoint(rawIds: seq<int>, last: Option<int>): (r: Option<int>)
    ensures rawIds == [] ==> r == last
    ensures rawIds != [] ==> r.Some? && r.value in rawIds && forall i :: 0 <= i < |rawIds| ==> rawIds[i] <= r.value
  {
    if rawIds != [] then Some(Max(rawIds)) else last
  }

  /** Over ids all above the old watermark, the watermark only moves up, and strictly when anything was captured. */
  lemma CheckpointAdvances(rawIds: seq<int>, w: int)
    requires forall id :: id in rawIds ==> id > w
    ensures NewCheckpoint(rawIds, Some(w)).Some?
    ensures NewCheckpoint(rawIds, Some(w)).value >= w
    ensures rawIds != [] ==> NewCheckpoint(rawIds, Some(w)).value > w
  {
  }

  // ---------------------------------------------------------------- one source

  /**
   * What a run sees of the outside world: the API's response or the error
   * the request raised, each delimited file's rows (None when the file does
   * not exist), the interpreter's `hash`, the timestamp parser and the
   * current time.
   */
  datatype Environment = Environment(
    apiResponse: Result<seq<ApiRecord>, Error>,
    csv1File: Option<seq<CsvRow>>,
    csv2File: Option<seq<CsvRow>>,
    hash: Json -> int,
    fromIso: string -> Option<Instant>,
    now: Instant)

  /** What a source's adapter produces: the raw rows captured per table, their ids, and the drafts. */
  datatype Batch = Batch(
    rawApi: seq<RawRecord<ApiRecord>>,
    rawCsv1: seq<RawRecord<CsvRow>>,
    rawCsv2: seq<RawRecord<CsvRow>>,
    rawIds: seq<int>,
    drafts: seq<Draft>)

  /**
   * The adapter stage of a run: fetch or read above the watermark, capture,
   * map. An unknown source name raises.
   */
  function Extract(source: string, last: Option<int>, env: Environment): (r: Result<Batch, Error>)
    ensures source !in Sources ==> r == Err(ValueError("Unknown source " + source))
    ensures r.Ok? && source == "api" ==> r.value.rawCsv1 == [] && r.value.rawCsv2 == []
    ensures r.Ok? && source == "csv1" ==> r.value.rawApi == [] && r.value.rawCsv2 == []
    ensures r.Ok? && source == "csv2" ==> r.value.rawApi == [] && r.value.rawCsv1 == []
  {
    if source == "api" then
      var data :- ApiSource.FetchApiData(env.apiResponse, last);
      Ok(Batch(ApiSource.ApiRaws(data, env.hash), [], [], ApiSource.ProvenanceIds(data, env.hash),
               ApiSource.TransformApi(data, env.fromIso, env.now)))
    else if source == "csv1" then
      var rows :- ReadRows(FileRows(env.csv1File), CsvSource1.IdField, last);
      var stored := StoreRows(rows, CsvSource1.IdField);
      var ids :- stored.ids;
      var drafts :- CsvSource1.TransformCsv1(rows, env.fromIso);
      Ok(Batch([], stored.raws, [], ids, drafts))
    else if source == "csv2" then
      var rows :- ReadRows(FileRows(env.csv2File), CsvSource2.IdField, last);
      var stored := StoreRows(rows, CsvSource2.IdField);
      var ids :- stored.ids;
      var drafts :- CsvSource2.TransformCsv2(rows, env.fromIso);
      Ok(Batch([], [], stored.raws, ids, drafts))
    else
      Err(ValueError("Unknown source " + source))
  }

  /** The store with the batch's raw rows appended. */
  function Captured(t: Tables, b: Batch): Tables {
    t.(rawApi := t.rawApi + b.rawApi, rawCsv1 := t.rawCsv1 + b.rawCsv1, rawCsv2 := t.rawCsv2 + b.rawCsv2)
  }

  /** The store with a new RUNNING run row for the source appended. */
  function Started(t: Tables, source: string, now: Instant): (r: Tables)
    ensures r.runs == t.runs + [NewRun(source, now)]
    ensures r == t.(runs := r.runs)
  {
    t.(runs := t.runs + [NewRun(source, now)])
  }

  /**
   * The session's view once the batch is staged: raw rows appended, stored
   * unified rows overwritten, the checkpoint moved and run `idx` marked
   * SUCCESS with the number of drafts; the new unified rows stay pending.
   */
  function Staged(t: Tables, source: string, b: Batch, idx: nat, now: Instant): (r: Tables)
    requires idx < |t.runs|
    ensures |r.runs| == |t.runs|
  {
    var loaded := Captured(t, b).(unified := Updated(t.unified, b.drafts));
    var moved := WithCheckpoint(loaded, source, NewCheckpoint(b.rawIds, GetCheckpoint(t, source)), now);
    moved.(runs := moved.runs[idx := moved.runs[idx].(status := Success, recordsProcessed := |b.drafts|, finishedAt := Some(now))])
  }

  /** Run `idx` marked FAILURE with the error's text; the processed count is the stored 0. */
  function FailedRuns(runs: seq<EtlRun>, idx: nat, e: Error, now: Instant): (r: seq<EtlRun>)
    requires idx < |runs|
    ensures |r| == |runs|
  {
    runs[idx := runs[idx].(status := Failure, errorMessage := Some(Message(e)), finishedAt := Some(now))]
  }

  /**
   * The committed store and the outcome of `run_for_source` on store `t`:
   * the run row is committed first; then either the staged batch commits
   * (its pending new rows flushed) or, on any error including the flush's
   * own, only the run row's failure is committed on top of it.
   */
  function RunOutcome(t: Tables, source: string, env: Environment): (Tables, Outcome<Error>) {
    var t1 := Started(t, source, env.now);
    var idx := |t.runs|;
    var last := GetCheckpoint(t1, source);
    match Extract(source, last, env)
    case Err(e) => (t1.(runs := FailedRuns(t1.runs, idx, e, env.now)), Fail(e))
    case Ok(b) =>
      var w := Staged(t1, source, b, idx, env.now);
      var ins := NewInserts(t1.unified, b.drafts);
      if InsertsOk(w.unified, ins) then (w.(unified := Flush(w.unified, ins)), Pass)
      else (t1.(runs := FailedRuns(t1.runs, idx, IntegrityError, env.now)), Fail(IntegrityError))
  }

  /**
   * The adapter calls of one branch of `run_for_source`: fetch or read,
   * capture the raw rows into the session, map. The session's view gains
   * exactly the batch's raw rows; the ids and drafts are returned.
   */
  method Capture(db: Session, source: string, last: Option<int>, env: Environment) returns (res: Result<(seq<int>, seq<Draft>), Error>)
    modifies db
    ensures db.committed == old(db.committed) && db.inserts == old(db.inserts) && db.history == old(db.history)
    ensures match Extract(source, last, env)
      case Err(e) => res == Err(e)
      case Ok(b) => res == Ok((b.rawIds, b.drafts)) && db.work == Captured(old(db.work), b)
  {
    if source == "api" {
      res := CaptureApi(db, last, env);
    } else if source == "csv1" {
      res := CaptureCsv1(db, last, env);
    } else if source == "csv2" {
      res := CaptureCsv2(db, last, env);
    } else {
      res := Err(ValueError("Unknown source " + source));
    }
  }

  method CaptureApi(db: Session, last: Option<int>, env: Environment) returns (res: Result<(seq<int>, seq<Draft>), Error>)
    modifies db
    ensures db.committed == old(db.committed) && db.inserts == old(db.inserts) && db.history == old(db.history)
    ensures match Extract("api", last, env)
      case Err(e) => res == Err(e)
      case Ok(b) => res == Ok((b.rawIds, b.drafts)) && db.work == Captured(old(db.work), b)
  {
    var data := ApiSource.FetchApiData(env.apiResponse, last);
    if data.Err? {
      return Err(data.error);
    }
    var rawIds := ApiSource.StoreRawApi(db, data.value, env.hash);
    var unified := ApiSource.TransformApi(data.value, env.fromIso, env.now);
    assert old(db.work).rawCsv1 + [] == old(db.work).rawCsv1 && old(db.work).rawCsv2 + [] == old(db.work).rawCsv2;
    res := Ok((rawIds, unified));
  }

  method CaptureCsv1(db: Session, last: Option<int>, env: Environment) returns (res: Result<(seq<int>, seq<Draft>), Error>)
    modifies db
    ensures db.committed == old(db.committed) && db.inserts == old(db.inserts) && db.history == old(db.history)
    ensures match Extract("csv1", last, env)
      case Err(e) => res == Err(e)
      case Ok(b) => res == Ok((b.rawIds, b.drafts)) && db.work == Captured(old(db.work), b)
  {
    var rows := CsvSource1.ReadCsv1(env.csv1File, last);
    if rows.Err? {
      return Err(rows.error);
    }
    var ids := CsvSource1.StoreRawCsv1(db, rows.value);
    if ids.Err? {
      return Err(ids.error);
    }
    var drafts := CsvSource1.TransformCsv1(rows.value, env.fromIso);
    if drafts.Err? {
      return Err(drafts.error);
    }
    assert old(db.work).rawApi + [] == old(db.work).rawApi && old(db.work).rawCsv2 + [] == old(db.work).rawCsv2;
    res := Ok((ids.value, drafts.value));
  }

  method CaptureCsv2(db: Session, last: Option<int>, env: Environment) returns (res: Result<(seq<int>, seq<Draft>), Error>)
    modifies db
    ensures db.committed == old(db.committed) && db.inserts == old(db.inserts) && db.history == old(db.history)
    ensures match Extract("csv2", last, env)
      case Err(e) => res == Err(e)
      case Ok(b) => res == Ok((b.rawIds, b.drafts)) && db.work == Captured(old(db.work), b)
  {
    var rows := CsvSource2.ReadCsv2(env.csv2File, last);
    if rows.Err? {
      return Err(rows.error);
    }
    var ids := CsvSource2.StoreRawCsv2(db, rows.value);
    if ids.Err? {
      return Err(ids.error);
    }
    var drafts := CsvSource2.TransformCsv2(rows.value, env.fromIso);
    if drafts.Err? {
      return Err(drafts.error);
    }
    assert old(db.work).rawApi + [] == old(db.work).rawApi && old(db.work).rawCsv1 + [] == old(db.work).rawCsv1;
    res := Ok((ids.value, drafts.value));
  }

  /**
   * The body of the `try` in `run_for_source`: stage the batch and commit.
   * On success the session is clean and the staged view is committed; on
   * failure nothing new is committed (the pending writes are left for the
   * caller to roll back).
   */
  method Attempt(db: Session, source: string, env: Environment, idx: nat) returns (r: Outcome<Error>)
    requires db.Clean() && idx < |db.work.runs|
    modifies db
    ensures var t := old(db.committed);
      match Extract(source, GetCheckpoint(t, source), env)
      case Err(e) => r == Fail(e) && db.committed == t && db.history == old(db.history)
      case Ok(b) =>
        var w := Staged(t, source, b, idx, env.now);
        var ins := NewInserts(t.unified, b.drafts);
        if InsertsOk(w.unified, ins) then
          r == Pass && db.Clean() && db.committed == w.(unified := Flush(w.unified, ins))
          && db.history == old(db.history) + [db.committed]
        else
          r == Fail(IntegrityError) && db.committed == t && db.history == old(db.history)
  {
    ghost var t := db.committed;
    var last := GetCheckpoint(db.work, source);
    var captured := Capture(db, source, last, env);
    if captured.Err? {
      return Fail(captured.error);
    }
    var (rawIds, unified) := captured.value;
    ghost var b := Extract(source, last, env).value;
    assert rawIds == b.rawIds && unified == b.drafts;
    UpsertUnifiedRecords(db, unified);
    assert [] + NewInserts(t.unified, unified) == NewInserts(t.unified, unified);
    var newLastId := NewCheckpoint(rawIds, last);
    UpdateCheckpoint(db, source, newLastId, env.now);
    var run := db.work.runs[idx];
    run := run.(status := Success, recordsProcessed := |unified|, finishedAt := Some(env.now));
    db.work := db.work.(runs := db.work.runs[idx := run]);
    ghost var w := Staged(t, source, b, idx, env.now);
    ghost var ins := NewInserts(t.unified, b.drafts);
    assert db.work == w && db.inserts == ins;
    r := db.Commit();
    if InsertsOk(w.unified, ins) {
      assert r == Pass && db.committed == w.(unified := Flush(w.unified, ins));
    } else {
      assert r == Fail(IntegrityError) && db.committed == t;
    }
  }

  /**
   * `run_for_source`: commits a RUNNING run row, then attempts the source;
   * on failure rolls back, marks the run FAILURE with the error's text,
   * commits that and passes the error on.
   */
  method RunForSource(db: Session, source: string, env: Environment) returns (r: Outcome<Error>)
    requires db.Clean()
    modifies db
    ensures db.Clean()
    ensures (db.committed, r) == RunOutcome(old(db.committed), source, env)
    ensures db.history == old(db.history) + [Started(old(db.committed), source, env.now), db.committed]
  {
    ghost var t := db.committed;
    var run := NewRun(source, env.now);
    var idx := |db.work.runs|;
    db.work := db.work.(runs := db.work.runs + [run]);
    var started := db.Commit();
    assert db.committed == Started(t, source, env.now);
    r := Attempt(db, source, env, idx);
    if r.Fail? {
      db.Rollback();
      run := db.work.runs[idx];
      run := run.(status := Failure, errorMessage := Some(Message(r.error)), finishedAt := Some(env.now));
      db.work := db.work.(runs := db.work.runs[idx := run]);
      var recorded := db.Commit();
    }
  }

  // ---------------------------------------------------------------- run properties

  /**
   * Every run leaves exactly one new run row, after the existing ones: it
   * names the source, started and finished now, is SUCCESS exactly when
   * the run passed and FAILURE exactly when it failed, and a failed row
   * carries the error's text and a processed count of 0.
   */
  lemma RunRecorded(t: Tables, source: string, env: Environment)
    ensures var (t2, r) := RunOutcome(t, source, env);
      && |t2.runs| == |t.runs| + 1
      && t2.runs[..|t.runs|] == t.runs
      && t2.runs[|t.runs|].source == source
      && t2.runs[|t.runs|].startedAt == env.now
      && t2.runs[|t.runs|].finishedAt == Some(env.now)
      && (t2.runs[|t.runs|].status == Success <==> r == Pass)
      && (t2.runs[|t.runs|].status == Failure <==> r.Fail?)
      && (r.Fail? ==> t2.runs[|t.runs|].errorMessage == Some(Message(r.error)) && t2.runs[|t.runs|].recordsProcessed == 0)
  {
    var t1 := Started(t, source, env.now);
    assert t1.runs[..|t.runs|] == t.runs;
    match Extract(source, GetCheckpoint(t1, source), env)
    case Err(e) =>
    case Ok(b) =>
      var w := Staged(t1, source, b, |t.runs|, env.now);
      assert w.runs[..|t.runs|] == t.runs;
  }

  /** A failed run changes nothing but the run history: raw rows, unified rows and checkpoints are as before. */
  lemma FailureKeepsData(t: Tables, source: string, env: Environment)
    ensures RunOutcome(t, source, env).1.Fail? ==> RunOutcome(t, source, env).0.(runs := t.runs) == t
  {
  }

  /**
   * A run passes exactly when its adapter succeeds and no two of its
   * drafts share a key that is not yet stored; it then commits the raw
   * rows, the intended upsert of every draft, the checkpoint at the new
   * watermark and one SUCCESS row counting the drafts.
   */
  lemma SuccessIsMerge(t: Tables, source: string, env: Environment)
    ensures var e := Extract(source, GetCheckpoint(t, source), env);
      RunOutcome(t, source, env).1 == Pass <==> e.Ok? && NoNewDuplicates(t.unified, e.value.drafts)
    ensures var e := Extract(source, GetCheckpoint(t, source), env);
      RunOutcome(t, source, env).1 == Pass ==>
        RunOutcome(t, source, env).0 == Captured(t, e.value).(
          unified := Merge(t.unified, e.value.drafts),
          checkpoints := t.checkpoints[source := Checkpoint(NewCheckpoint(e.value.rawIds, GetCheckpoint(t, source)), env.now)],
          runs := t.runs + [EtlRun(source, Success, |e.value.drafts|, None, env.now, Some(env.now))])
  {
    var t1 := Started(t, source, env.now);
    assert GetCheckpoint(t1, source) == GetCheckpoint(t, source);
    var e := Extract(source, GetCheckpoint(t, source), env);
    if e.Ok? {
      var b := e.value;
      var w := Staged(t1, source, b, |t.runs|, env.now);
      var ins := NewInserts(t1.unified, b.drafts);
      assert w.unified == Updated(t.unified, b.drafts);
      CommitSucceedsIff(t.unified, b.drafts);
      if InsertsOk(w.unified, ins) {
        FlushIsMerge(t.unified, b.drafts);
      }
    }
  }

  /**
   * The delimited-file sources only move their watermark up: a run that
   * passes leaves a watermark no lower than the stored one, and strictly
   * higher when it captured any row.
   */
  lemma CsvCheckpointAdvances(t: Tables, source: string, env: Environment, w: int)
    requires source == "csv1" || source == "csv2"
    requires GetCheckpoint(t, source) == Some(w)
    requires RunOutcome(t, source, env).1 == Pass
    ensures GetCheckpoint(RunOutcome(t, source, env).0, source).Some?
    ensures GetCheckpoint(RunOutcome(t, source, env).0, source).value >= w
    ensures Extract(source, Some(w), env).value.rawIds != [] ==>
      GetCheckpoint(RunOutcome(t, source, env).0, source).value > w
  {
    SuccessIsMerge(t, source, env);
    var b := Extract(source, Some(w), env).value;
    var field := if source == "csv1" then CsvSource1.IdField else CsvSource2.IdField;
    var file := if source == "csv1" then env.csv1File else env.csv2File;
    ReadRowsIsKept(FileRows(file), field, Some(w));
    CapturedIdsAboveWatermark(FileRows(file), field, w);
    CheckpointAdvances(b.rawIds, w);
  }

  /** An unknown source name fails the run with the error "Unknown source <name>" and changes nothing else. */
  lemma UnknownSourceFails(t: Tables, source: string, env: Environment)
    requires source !in Sources
    ensures RunOutcome(t, source, env).1 == Fail(ValueError("Unknown source " + source))
    ensures RunOutcome(t, source, env).0.runs[|t.runs|].status == Failure
    ensures RunOutcome(t, source, env).0.runs[|t.runs|].errorMessage == Some("Unknown source " + source)
    ensures RunOutcome(t, source, env).0.(runs := t.runs) == t
  {
    RunRecorded(t, source, env);
  }

  /**
   * Two drafts of a batch that share a key not yet stored make the run
   * fail with the integrity error, leaving the unified table as it was.
   */
  lemma NewDuplicateFailsRun(t: Tables, source: string, env: Environment, i: nat, j: nat)
    requires Extract(source, GetCheckpoint(t, source), env).Ok?
    requires var ds := Extract(source, GetCheckpoint(t, source), env).value.drafts;
      i < j < |ds| && KeyOf(ds[i]) == KeyOf(ds[j]) && KeyOf(ds[i]) !in t.unified
    ensures RunOutcome(t, source, env).1 == Fail(IntegrityError)
    ensures RunOutcome(t, source, env).0.unified == t.unified
  {
    var ds := Extract(source, GetCheckpoint(t, source), env).value.drafts;
    SuccessIsMerge(t, source, env);
    assert !NoNewDuplicates(t.unified, ds);
  }

  // ---------------------------------------------------------------- all sources

  /** The store and outcome after running `sources` in order with `step`, stopping at the first failure. */
  function RunEach(t: Tables, sources: seq<string>, step: (Tables, string) -> (Tables, Outcome<Error>)): (Tables, Outcome<Error>)
    decreases |sources|
  {
    if sources == [] then (t, Pass)
    else
      var (t1, r) := step(t, sources[0]);
      if r.Fail? then (t1, r) else RunEach(t1, sources[1..], step)
  }

  /** The store and outcome after running `sources` in order, stopping at the first failure. */
  function RunSeq(t: Tables, sources: seq<string>, env: Environment): (Tables, Outcome<Error>) {
    RunEach(t, sources, (t1: Tables, source: string) => RunOutcome(t1, source, env))
  }

  /** `main`: runs every source in order; the first failure is raised and ends the loop. */
  method RunAll(db: Session, env: Environment) returns (r: Outcome<Error>)
    requires db.Clean()
    modifies db
    ensures db.Clean()
    ensures (db.committed, r) == RunSeq(old(db.committed), Sources, env)
  {
    for i := 0 to |Sources|
      invariant db.Clean()
      invariant RunSeq(old(db.committed), Sources, env) == RunSeq(db.committed, Sources[i..], env)
    {
      assert Sources[i..][1..] == Sources[i + 1..];
      r := RunForSource(db, Sources[i], env);
      if r.Fail? {
        return;
      }
    }
    r := Pass;
  }

  /** What the sequence lemma needs of one run: its single new run row and its status. */
  predicate RowAdded(t: Tables, t1: Tables, r: Outcome<Error>, source: string) {
    && |t1.runs| == |t.runs| + 1
    && t1.runs[..|t.runs|] == t.runs
    && t1.runs[|t.runs|].source == source
    && (t1.runs[|t.runs|].status == Success <==> r == Pass)
    && (t1.runs[|t.runs|].status == Failure <==> r.Fail?)
  }

  /** The run rows a sequence of runs leaves, as `RunSeqRuns` states them. */
  predicate RowsAdded(t: Tables, t2: Tables, r: Outcome<Error>, sources: seq<string>) {
    && |t.runs| <= |t2.runs| <= |t.runs| + |sources|
    && t2.runs[..|t.runs|] == t.runs
    && (forall k :: |t.runs| <= k < |t2.runs| ==> t2.runs[k].source == sources[k - |t.runs|])
    && (r == Pass ==> |t2.runs| == |t.runs| + |sources|
                      && forall k :: |t.runs| <= k < |t2.runs| ==> t2.runs[k].status == Success)
    && (r.Fail? ==> |t2.runs| > |t.runs|
                    && t2.runs[|t2.runs| - 1].status == Failure
                    && forall k :: |t.runs| <= k < |t2.runs| - 1 ==> t2.runs[k].status == Success)
  }

  /** A passing run followed by a sequence of runs adds its row in front of theirs. */
  lemma RowsAddedCons(t: Tables, t1: Tables, t2: Tables, r: Outcome<Error>, source: string, rest: seq<string>)
    requires RowAdded(t, t1, Pass, source) && RowsAdded(t1, t2, r, rest)
    ensures RowsAdded(t, t2, r, [source] + rest)
  {
    var n := |t.runs|;
    assert t2.runs[..n] == t2.runs[..n + 1][..n];
    assert t2.runs[n] == t2.runs[..n + 1][n];
  }

  /** Any step that adds one row per run adds, over a sequence, the rows `RowsAdded` describes. */
  lemma {:induction false} RunEachRuns(t: Tables, sources: seq<string>, step: (Tables, string) -> (Tables, Outcome<Error>))
    requires forall t1, source :: RowAdded(t1, step(t1, source).0, step(t1, source).1, source)
    ensures RowsAdded(t, RunEach(t, sources, step).0, RunEach(t, sources, step).1, sources)
    decreases |sources|
  {
    if sources != [] {
      var (t1, r1) := step(t, sources[0]);
      assert RowAdded(t, t1, r1, sources[0]);
      if r1 == Pass {
        RunEachRuns(t1, sources[1..], step);
        RowsAddedCons(t, t1, RunEach(t1, sources[1..], step).0, RunEach(t1, sources[1..], step).1, sources[0], sources[1..]);
        assert [sources[0]] + sources[1..] == sources;
      }
    }
  }

  /**
   * Running sources in order adds one run row per source attempted, in
   * order: all of them SUCCESS when the sequence passes; otherwise every
   * row but the last is SUCCESS and the last, the failing source's, is
   * FAILURE, and the sources after it are not run.
   */
  lemma RunSeqRuns(t: Tables, sources: seq<string>, env: Environment)
    ensures RowsAdded(t, RunSeq(t, sources, env).0, RunSeq(t, sources, env).1, sources)
  {
    var step := (t1: Tables, source: string) => RunOutcome(t1, source, env);
    forall t1, source ensures RowAdded(t1, step(t1, source).0, step(t1, source).1, source) {
      RunRecorded(t1, source, env);
    }
    RunEachRuns(t, sources, step);
  }

  /**
   * The API source's watermark can move backwards: its ids come from a
   * hash reduced modulo 10^8, not from the order of the data, and a run
   * stores whatever the largest of them is.
   */
  lemma ApiCheckpointCanRegress()
    ensures var t := EmptyTables().(checkpoints := map["api" := Checkpoint(Some(99999999), Instant(0))]);
      var env := Environment(Ok([map["id" := JStr("bitcoin")]]), None, None, (j: Json) => 5, (s: string) => None, Instant(1));
      && RunOutcome(t, "api", env).1 == Pass
      && GetCheckpoint(RunOutcome(t, "api", env).0, "api") == Some(5)
  {
    var t := EmptyTables().(checkpoints := map["api" := Checkpoint(Some(99999999), Instant(0))]);
    var rec: ApiRecord := map["id" := JStr("bitcoin")];
    var env := Environment(Ok([rec]), None, None, (j: Json) => 5, (s: string) => None, Instant(1));
    var b := Extract("api", GetCheckpoint(t, "api"), env).value;
    assert b.rawIds == [5];
    assert |b.drafts| <= 1;
    SuccessIsMerge(t, "api", env);
    assert NoNewDuplicates(t.unified, b.drafts);
  }
}
