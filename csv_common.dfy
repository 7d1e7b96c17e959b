/**
 * What the two delimited-file adapters share: reading the native id of a
 * row, the watermark filter of the reader, what raw capture appends, and
 * the row-by-row transformation that stops at the first row that raises.
 */
module CsvCommon {
  import opened Wrappers
  import opened Errors
  import opened Text
  import opened Models
  import opened Unified

  /** The error `int(s)` raises on a string that is not an integer numeral. */
  function IntLiteralError(s: string): Error {
    ValueError("invalid literal for int() with base 10: '" + s + "'")
  }

  /** The error `float(s)` raises on a string that is not a decimal numeral. */
  function FloatLiteralError(s: string): Error {
    ValueError("could not convert string to float: '" + s + "'")
  }

  /** The error `datetime.fromisoformat(s)` raises on a malformed string. */
  function IsoFormatError(s: string): Error {
    ValueError("Invalid isoformat string: '" + s + "'")
  }

  /** `int(row[field])`: a missing column raises KeyError, a bad numeral ValueError. */
  function RowId(row: CsvRow, field: string): (r: Result<int, Error>)
    ensures r.Ok? <==> field in row && ParseInt(row[field]).Some?
    ensures r.Ok? ==> r.value == ParseInt(row[field]).value
    ensures field !in row ==> r == Err(KeyError(field))
  {
    if field !in row then Err(KeyError(field))
    else match ParseInt(row[field])
      case None => Err(IntLiteralError(row[field]))
      case Some(n) => Ok(n)
  }

  /** The rows of the data file; an absent file reads as no rows. */
  function FileRows(file: Option<seq<CsvRow>>): seq<CsvRow> {
    if file.None? then [] else file.value
  }

  /** A row the reader keeps: its id parses and lies strictly above the watermark, if any. */
  predicate Passes(row: CsvRow, field: string, watermark: Option<int>) {
    RowId(row, field).Ok? && (watermark.None? || RowId(row, field).value > watermark.value)
  }

  /** The rows that pass, in file order. */
  function Kept(rows: seq<CsvRow>, field: string, watermark: Option<int>): seq<CsvRow> {
    if rows == [] then []
    else
      var front := Kept(rows[..|rows| - 1], field, watermark);
      if Passes(rows[|rows| - 1], field, watermark) then front + [rows[|rows| - 1]] else front
  }

  /** Every id in the file parses. */
  predicate AllIdsParse(rows: seq<CsvRow>, field: string) {
    forall i :: 0 <= i < |rows| ==> RowId(rows[i], field).Ok?
  }

  /**
   * The reader's loop: each row's id is parsed (raising on the first bad
   * one) and the row kept when above the watermark.
   */
  function ReadRows(rows: seq<CsvRow>, field: string, watermark: Option<int>): Result<seq<CsvRow>, Error> {
    if rows == [] then Ok([])
    else
      var kept :- ReadRows(rows[..|rows| - 1], field, watermark);
      var id :- RowId(rows[|rows| - 1], field);
      Ok(if watermark.None? || id > watermark.value then kept + [rows[|rows| - 1]] else kept)
  }

  /**
   * The reader returns exactly the rows above the watermark when every id
   * parses; otherwise it raises the error of the first row whose id does not.
   */
  lemma {:induction false} ReadRowsIsKept(rows: seq<CsvRow>, field: string, watermark: Option<int>)
    ensures ReadRows(rows, field, watermark).Ok? <==> AllIdsParse(rows, field)
    ensures ReadRows(rows, field, watermark).Ok? ==> ReadRows(rows, field, watermark).value == Kept(rows, field, watermark)
    ensures ReadRows(rows, field, watermark).Err? ==>
      exists i :: 0 <= i < |rows| && AllIdsParse(rows[..i], field)
        && RowId(rows[i], field) == Err(ReadRows(rows, field, watermark).error)
  {
    if rows != [] {
      var front, last := rows[..|rows| - 1], rows[|rows| - 1];
      ReadRowsIsKept(front, field, watermark);
      assert AllIdsParse(rows, field) <==> AllIdsParse(front, field) && RowId(last, field).Ok? by {
        assert forall i :: 0 <= i < |front| ==> front[i] == rows[i];
      }
      if ReadRows(front, field, watermark).Err? {
        var i :| 0 <= i < |front| && AllIdsParse(front[..i], field)
          && RowId(front[i], field) == Err(ReadRows(front, field, watermark).error);
        assert front[..i] == rows[..i];
        assert ReadRows(rows, field, watermark) == ReadRows(front, field, watermark).PropagateFailure();
      } else if RowId(last, field).Err? {
        assert ReadRows(rows, field, watermark) == Err(RowId(last, field).error);
        assert AllIdsParse(rows[..|rows| - 1], field);
      } else {
        assert ReadRows(rows, field, watermark).Ok?;
      }
    }
  }

  /** Once an id fails to parse, the later rows change nothing. */
  lemma {:induction false} ReadStopsAtError(rows: seq<CsvRow>, field: string, watermark: Option<int>, n: nat)
    requires n <= |rows|
    requires ReadRows(rows[..n], field, watermark).Err?
    ensures ReadRows(rows, field, watermark) == ReadRows(rows[..n], field, watermark)
    decreases |rows|
  {
    if n == |rows| {
      assert rows[..n] == rows;
    } else {
      var front := rows[..|rows| - 1];
      assert front[..n] == rows[..n];
      ReadStopsAtError(front, field, watermark, n);
    }
  }

  /** Every kept row is above the watermark. */
  lemma {:induction false} KeptAboveWatermark(rows: seq<CsvRow>, field: string, watermark: Option<int>)
    ensures forall i :: 0 <= i < |Kept(rows, field, watermark)| ==> Passes(Kept(rows, field, watermark)[i], field, watermark)
  {
    if rows != [] {
      KeptAboveWatermark(rows[..|rows| - 1], field, watermark);
    }
  }

  /** A row is left out only because it fails the watermark test. */
  lemma {:induction false} KeptComplete(rows: seq<CsvRow>, field: string, watermark: Option<int>)
    ensures forall i :: 0 <= i < |rows| && Passes(rows[i], field, watermark) ==> rows[i] in Kept(rows, field, watermark)
  {
    if rows != [] {
      var front := rows[..|rows| - 1];
      KeptComplete(front, field, watermark);
      assert forall i :: 0 <= i < |front| ==> rows[i] == front[i];
    }
  }

  /** The filter keeps file order: it distributes over concatenation. */
  lemma {:induction false} KeptConcat(a: seq<CsvRow>, b: seq<CsvRow>, field: string, watermark: Option<int>)
    ensures Kept(a + b, field, watermark) == Kept(a, field, watermark) + Kept(b, field, watermark)
  {
    if b == [] {
      assert a + b == a;
    } else {
      var front := b[..|b| - 1];
      KeptConcat(a, front, field, watermark);
      assert (a + b)[..|a + b| - 1] == a + front;
    }
  }

  /** Without a watermark, every row of a well-formed file is kept. */
  lemma {:induction false} KeptWithoutWatermark(rows: seq<CsvRow>, field: string)
    requires AllIdsParse(rows, field)
    ensures Kept(rows, field, None) == rows
  {
    if rows != [] {
      var front := rows[..|rows| - 1];
      assert AllIdsParse(front, field);
      KeptWithoutWatermark(front, field);
    }
  }

  /** What raw capture appended, and the ids it returned or the error it raised. */
  datatype Stored = Stored(raws: seq<RawRecord<CsvRow>>, ids: Result<seq<int>, Error>)

  /** Raw capture's loop: one raw row per input row, until an id fails to parse. */
  function StoreRows(rows: seq<CsvRow>, field: string): Stored {
    if rows == [] then Stored([], Ok([]))
    else
      var s := StoreRows(rows[..|rows| - 1], field);
      if s.ids.Err? then s
      else match RowId(rows[|rows| - 1], field)
        case Err(e) => Stored(s.raws, Err(e))
        case Ok(id) => Stored(s.raws + [RawRecord(id, rows[|rows| - 1])], Ok(s.ids.value + [id]))
  }

  /** Once an id fails to parse, the later rows change nothing. */
  lemma {:induction false} StoreStopsAtError(rows: seq<CsvRow>, field: string, n: nat)
    requires n <= |rows|
    requires StoreRows(rows[..n], field).ids.Err?
    ensures StoreRows(rows, field) == StoreRows(rows[..n], field)
    decreases |rows|
  {
    if n == |rows| {
      assert rows[..n] == rows;
    } else {
      var front := rows[..|rows| - 1];
      assert front[..n] == rows[..n];
      StoreStopsAtError(front, field, n);
    }
  }

  /**
   * On rows whose ids parse, raw capture returns one id per row, in order,
   * each the row's parsed id, and appends one raw row per row carrying it
   * as payload.
   */
  lemma {:induction false} StoreRowsWellFormed(rows: seq<CsvRow>, field: string)
    requires AllIdsParse(rows, field)
    ensures StoreRows(rows, field).ids.Ok?
    ensures |StoreRows(rows, field).ids.value| == |StoreRows(rows, field).raws| == |rows|
    ensures forall i :: 0 <= i < |rows| ==>
      && StoreRows(rows, field).ids.value[i] == RowId(rows[i], field).value
      && StoreRows(rows, field).raws[i] == RawRecord(RowId(rows[i], field).value, rows[i])
  {
    if rows != [] {
      var front := rows[..|rows| - 1];
      assert AllIdsParse(front, field);
      StoreRowsWellFormed(front, field);
      assert forall i :: 0 <= i < |front| ==> rows[i] == front[i];
    }
  }

  /** Every id captured from the reader's output lies strictly above the watermark. */
  lemma CapturedIdsAboveWatermark(rows: seq<CsvRow>, field: string, w: int)
    ensures StoreRows(Kept(rows, field, Some(w)), field).ids.Ok?
    ensures forall id :: id in StoreRows(Kept(rows, field, Some(w)), field).ids.value ==> id > w
  {
    var kept := Kept(rows, field, Some(w));
    KeptAboveWatermark(rows, field, Some(w));
    StoreRowsWellFormed(kept, field);
  }

  /** Applying a per-row mapping that may raise; the first row that raises stops the batch. */
  function MapRows(rows: seq<CsvRow>, f: CsvRow -> Result<Draft, Error>): (r: Result<seq<Draft>, Error>)
    ensures r.Ok? <==> forall i :: 0 <= i < |rows| ==> f(rows[i]).Ok?
    ensures r.Ok? ==> |r.value| == |rows| && forall i :: 0 <= i < |rows| ==> f(rows[i]) == Ok(r.value[i])
    ensures r.Err? ==>
      exists i :: 0 <= i < |rows| && f(rows[i]) == Err(r.error) && forall j :: 0 <= j < i ==> f(rows[j]).Ok?
  {
    if rows == [] then Ok([])
    else
      var d :- f(rows[0]);
      var rest :- MapRows(rows[1..], f);
      Ok([d] + rest)
  }
}
