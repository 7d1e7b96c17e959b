/**
 * The second delimited-file adapter: rows carry their id in column
 * `record_id`, with `full_name`, `score` and `created_at` columns.
 */
module CsvSource2 {
  import opened Wrappers
  import opened Errors
  import opened Text
  import opened Models
  import opened Unified
  import opened Store
  import opened CsvCommon

  const IdField: string := "record_id"
  const SourceTag: string := "csv2"

  /**
   * `read_csv2`: the rows of the file whose id lies strictly above the
   * watermark, in file order; no rows when the file is absent.
   */
  method ReadCsv2(file: Option<seq<CsvRow>>, lastExternalId: Option<int>) returns (r: Result<seq<CsvRow>, Error>)
    ensures r == ReadRows(FileRows(file), IdField, lastExternalId)
  {
    if file.None? {
      return Ok([]);
    }
    var rows := file.value;
    var kept: seq<CsvRow> := [];
    for i := 0 to |rows|
      invariant ReadRows(rows[..i], IdField, lastExternalId) == Ok(kept)
    {
      assert rows[..i + 1][..i] == rows[..i];
      var extId := RowId(rows[i], IdField);
      if extId.Err? {
        ReadStopsAtError(rows, IdField, lastExternalId, i + 1);
        return Err(extId.error);
      }
      if lastExternalId.None? || extId.value > lastExternalId.value {
        kept := kept + [rows[i]];
      }
    }
    assert rows[..|rows|] == rows;
    r := Ok(kept);
  }

  /**
   * `store_raw_csv2`: appends one raw row per input row, its parsed id as
   * provenance id and the row as payload, and returns those ids in order.
   */
  method StoreRawCsv2(db: Session, rows: seq<CsvRow>) returns (ids: Result<seq<int>, Error>)
    modifies db
    ensures ids == StoreRows(rows, IdField).ids
    ensures db.work == old(db.work).(rawCsv2 := old(db.work.rawCsv2) + StoreRows(rows, IdField).raws)
    ensures db.committed == old(db.committed) && db.inserts == old(db.inserts) && db.history == old(db.history)
  {
    var acc: seq<int> := [];
    ghost var start := db.work.rawCsv2;
    for i := 0 to |rows|
      invariant |db.work.rawCsv2| >= |start| && db.work.rawCsv2[..|start|] == start
      invariant StoreRows(rows[..i], IdField) == Stored(db.work.rawCsv2[|start|..], Ok(acc))
      invariant db.work == old(db.work).(rawCsv2 := db.work.rawCsv2)
      invariant db.committed == old(db.committed) && db.inserts == old(db.inserts) && db.history == old(db.history)
    {
      assert rows[..i + 1][..i] == rows[..i];
      var extId := RowId(rows[i], IdField);
      if extId.Err? {
        assert StoreRows(rows, IdField) == StoreRows(rows[..i + 1], IdField) by {
          StoreStopsAtError(rows, IdField, i + 1);
        }
        return Err(extId.error);
      }
      db.work := db.work.(rawCsv2 := db.work.rawCsv2 + [RawRecord(extId.value, rows[i])]);
      acc := acc + [extId.value];
    }
    assert rows[..|rows|] == rows;
    ids := Ok(acc);
  }

  /** One row as a draft: missing `record_id` or `created_at` raises, as do a bad `score` or timestamp;
   * the score is read as a decimal number and truncated toward zero. */
  function Csv2Draft(row: CsvRow, fromIso: string -> Option<Instant>): (r: Result<Draft, Error>)
    ensures r.Ok? <==>
      && "record_id" in row
      && ("score" in row ==> ParseFloatTrunc(row["score"]).Some?)
      && "created_at" in row && fromIso(row["created_at"]).Some?
    ensures "record_id" !in row ==> r == Err(KeyError("record_id"))
    ensures r.Ok? ==>
      && r.value.source == SourceTag
      && r.value.externalId == row["record_id"]
      && r.value.name == Some(if "full_name" in row then row["full_name"] else "")
      && r.value.value == Some(if "score" in row then ParseFloatTrunc(row["score"]).value else 0)
      && r.value.timestamp == fromIso(row["created_at"]).value
  {
    if "record_id" !in row then Err(KeyError("record_id"))
    else
      var externalId := row["record_id"];
      var name := if "full_name" in row then row["full_name"] else "";
      var value :- if "score" !in row then Ok(0)
        else if ParseFloatTrunc(row["score"]).Some? then Ok(ParseFloatTrunc(row["score"]).value)
        else Err(FloatLiteralError(row["score"]));
      var stamp :- if "created_at" !in row then Err(KeyError("created_at")) else Ok(row["created_at"]);
      var timestamp :- if fromIso(stamp).Some? then Ok(fromIso(stamp).value) else Err(IsoFormatError(stamp));
      Ok(MakeDraft(SourceTag, externalId, Some(name), Some(value), timestamp))
  }

  /**
   * `transform_csv2_to_unified`: one draft per row, in order; the first row
   * that raises aborts the whole batch with its error.
   */
  function TransformCsv2(rows: seq<CsvRow>, fromIso: string -> Option<Instant>): (r: Result<seq<Draft>, Error>)
    ensures r.Ok? <==> forall i :: 0 <= i < |rows| ==> Csv2Draft(rows[i], fromIso).Ok?
    ensures r.Ok? ==> |r.value| == |rows| && forall i :: 0 <= i < |rows| ==> Csv2Draft(rows[i], fromIso) == Ok(r.value[i])
    ensures r.Err? ==> exists i :: 0 <= i < |rows| && Csv2Draft(rows[i], fromIso) == Err(r.error)
    ensures (exists i :: 0 <= i < |rows| && "record_id" !in rows[i]) ==> r.Err?
  {
    MapRows(rows, row => Csv2Draft(row, fromIso))
  }

  /** A fractional score is truncated toward zero, for negative scores too. */
  lemma ScoreTruncatesTowardZero(fromIso: string -> Option<Instant>, stamp: Instant)
    requires fromIso("2024-01-01") == Some(stamp)
    ensures Csv2Draft(map["record_id" := "3", "score" := "-2.75", "created_at" := "2024-01-01"], fromIso)
      == Ok(Draft("csv2", "3", Some(""), Some(-2), stamp))
  {
    ParseFloatTruncDropsFraction("2", "75");
    assert "-2.75" == "-" + "2" + "." + "75";
    assert ParseInt("-2") == Some(-2) by {
      assert SignOf("-2").1 == "2";
    }
    LowerOfLower("csv2");
  }
}
