/**
 * The first delimited-file adapter: rows carry their id in column `id`,
 * with `name`, `value` and `timestamp` columns.
 */
module CsvSource1 {
  import opened Wrappers
  import opened Errors
  import opened Text
  import opened Models
  import opened Unified
  import opened Store
  import opened CsvCommon

  const IdField: string := "id"
  const SourceTag: string := "csv1"

  /**
   * `read_csv1`: the rows of the file whose id lies strictly above the
   * watermark, in file order; no rows when the file is absent.
   */
  method ReadCsv1(file: Option<seq<CsvRow>>, lastExternalId: Option<int>) returns (r: Result<seq<CsvRow>, Error>)
    ensures r == ReadRows(FileRows(file), IdField, lastExternalId)
  {
    if file.None? {
      return Ok([]);
    }
    var rows := file.value;
    var kept: seq<CsvRow> := [];
    for i := 0 to |rows|
      invariant ReadRows(rows[..i], IdField, lastExternalId) == Ok(kept)
    {
      assert rows[..i + 1][..i] == rows[..i];
      var extId := RowId(rows[i], IdField);
      if extId.Err? {
        ReadStopsAtError(rows, IdField, lastExternalId, i + 1);
        return Err(extId.error);
      }
      if lastExternalId.None? || extId.value > lastExternalId.value {
        kept := kept + [rows[i]];
      }
    }
    assert rows[..|rows|] == rows;
    r := Ok(kept);
  }

  /**
   * `store_raw_csv1`: appends one raw row per input row, its parsed id as
   * provenance id and the row as payload, and returns those ids in order.
   */
  method StoreRawCsv1(db: Session, rows: seq<CsvRow>) returns (ids: Result<seq<int>, Error>)
    modifies db
    ensures ids == StoreRows(rows, IdField).ids
    ensures db.work == old(db.work).(rawCsv1 := old(db.work.rawCsv1) + StoreRows(rows, IdField).raws)
    ensures db.committed == old(db.committed) && db.inserts == old(db.inserts) && db.history == old(db.history)
  {
    var acc: seq<int> := [];
    ghost var start := db.work.rawCsv1;
    for i := 0 to |rows|
      invariant |db.work.rawCsv1| >= |start| && db.work.rawCsv1[..|start|] == start
      invariant StoreRows(rows[..i], IdField) == Stored(db.work.rawCsv1[|start|..], Ok(acc))
      invariant db.work == old(db.work).(rawCsv1 := db.work.rawCsv1)
      invariant db.committed == old(db.committed) && db.inserts == old(db.inserts) && db.history == old(db.history)
    {
      assert rows[..i + 1][..i] == rows[..i];
      var extId := RowId(rows[i], IdField);
      if extId.Err? {
        assert StoreRows(rows, IdField) == StoreRows(rows[..i + 1], IdField) by {
          StoreStopsAtError(rows, IdField, i + 1);
        }
        return Err(extId.error);
      }
      db.work := db.work.(rawCsv1 := db.work.rawCsv1 + [RawRecord(extId.value, rows[i])]);
      acc := acc + [extId.value];
    }
    assert rows[..|rows|] == rows;
    ids := Ok(acc);
  }

  /** One row as a draft: missing `id` or `timestamp` raises, as do a bad `value` or timestamp. */
  function Csv1Draft(row: CsvRow, fromIso: string -> Option<Instant>): (r: Result<Draft, Error>)
    ensures r.Ok? <==>
      && "id" in row
      && ("value" in row ==> ParseInt(row["value"]).Some?)
      && "timestamp" in row && fromIso(row["timestamp"]).Some?
    ensures "id" !in row ==> r == Err(KeyError("id"))
    ensures r.Ok? ==>
      && r.value.source == SourceTag
      && r.value.externalId == row["id"]
      && r.value.name == Some(if "name" in row then row["name"] else "")
      && r.value.value == Some(if "value" in row then ParseInt(row["value"]).value else 0)
      && r.value.timestamp == fromIso(row["timestamp"]).value
  {
    if "id" !in row then Err(KeyError("id"))
    else
      var externalId := row["id"];
      var name := if "name" in row then row["name"] else "";
      var value :- if "value" !in row then Ok(0)
        else if ParseInt(row["value"]).Some? then Ok(ParseInt(row["value"]).value)
        else Err(IntLiteralError(row["value"]));
      var stamp :- if "timestamp" !in row then Err(KeyError("timestamp")) else Ok(row["timestamp"]);
      var timestamp :- if fromIso(stamp).Some? then Ok(fromIso(stamp).value) else Err(IsoFormatError(stamp));
      Ok(MakeDraft(SourceTag, externalId, Some(name), Some(value), timestamp))
  }

  /**
   * `transform_csv1_to_unified`: one draft per row, in order; the first row
   * that raises aborts the whole batch with its error.
   */
  function TransformCsv1(rows: seq<CsvRow>, fromIso: string -> Option<Instant>): (r: Result<seq<Draft>, Error>)
    ensures r.Ok? <==> forall i :: 0 <= i < |rows| ==> Csv1Draft(rows[i], fromIso).Ok?
    ensures r.Ok? ==> |r.value| == |rows| && forall i :: 0 <= i < |rows| ==> Csv1Draft(rows[i], fromIso) == Ok(r.value[i])
    ensures r.Err? ==> exists i :: 0 <= i < |rows| && Csv1Draft(rows[i], fromIso) == Err(r.error)
    ensures (exists i :: 0 <= i < |rows| && "id" !in rows[i]) ==> r.Err?
  {
    MapRows(rows, row => Csv1Draft(row, fromIso))
  }

  /**
   * The draft keeps the id as written while raw capture keeps it as a
   * number: the written id parses back to the provenance id.
   */
  lemma DraftKeyParsesToProvenanceId(row: CsvRow, fromIso: string -> Option<Instant>)
    requires Csv1Draft(row, fromIso).Ok? && RowId(row, IdField).Ok?
    ensures ParseInt(Csv1Draft(row, fromIso).value.externalId) == Some(RowId(row, IdField).value)
  {
  }

  /** "007" and "7" are two unified keys but one provenance id (and one watermark value). */
  lemma LeadingZerosSplitKeys()
    ensures RowId(map["id" := "007"], IdField) == RowId(map["id" := "7"], IdField) == Ok(7)
    ensures "007" != "7"
  {
    assert DigitsValue("007") == 7 by {
      assert "007"[..2] == "00" && "00"[..1] == "0";
    }
  }
}
