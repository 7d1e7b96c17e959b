# Ingestion pipeline model

A Dafny model of the ingestion core of a small ETL service. The service pulls
cryptocurrency market data from a remote API and rows from two delimited
files, keeps every fetched item as a raw record, maps the items onto one
unified schema keyed by (source, external id), and loads them into a unified
table. A per-source checkpoint (watermark) and a run history track the
ingestion.

The model follows the program's structure:

- `models.dfy` (module `Models`): the stored rows (raw records, unified rows,
  checkpoints, runs) and the whole store as a `Tables` value. The unified
  table is a map keyed by `Key(source, externalId)`, so the unique constraint
  on that pair holds by construction. The checkpoint table is a map keyed by
  source name, so there is one checkpoint per source.
- `unified.dfy` (module `Unified`): the draft record with its lower-casing
  `source` validator.
- `session.dfy` (module `Store`): the database session as a class.
  - It holds the committed store, the session's working view, and the
    pending inserts of new unified rows.
  - The session does not flush before a query, so a lookup never sees a row
    added earlier in the same transaction.
  - `Commit` flushes the pending inserts, or fails with the integrity error
    when they break the unique constraint.
  - `Rollback` discards all pending writes.
- `upsert.dfy` (module `Upsert`): what one pass of the unified loader does
  (`Updated`, `NewInserts`), next to what an upsert is expected to do (`Merge`),
  with the lemmas that say when the two agree.
- `csv_common.dfy`, `csv_source1.dfy`, `csv_source2.dfy`: the two
  delimited-file adapters. Each has a watermark reader, raw capture and a
  per-row mapping. In that mapping a missing id or timestamp column raises,
  and so does a malformed value or score. A missing name falls back to "",
  and a missing value or score falls back to 0.
- `api_source.dfy`: the remote-API adapter.
  - Raw capture uses hash-derived provenance ids.
  - The mapping uses name and value defaults and skips any record whose
    mapping raises.
- `etl_runner.dfy` (module `EtlRunner`): checkpoint read and write, the
  unified loader, one run per source (`RunForSource`, specified by
  `RunOutcome`), and the driver over the three sources (`RunAll`, specified
  by `RunSeq`).
- `text.dfy`, `errors.dfy`, `wrappers.dfy`: the string operations the
  adapters use (`lower`, `upper`, `replace`, `int(...)`, `int(float(...))`),
  the error values with their messages, and `Option`/`Result`/`Outcome`.

Raised exceptions become `Err`/`Fail` values.

**Duplicate keys in one batch.** An upsert is expected to let the last
duplicate in a batch win. The code does this only when the key is already
stored. The loader's lookup does not see rows added earlier in the same
batch, so two drafts with the same new key become two inserts. The flush
then rejects them, and the whole run is recorded as FAILURE. The model
follows the code:
- `Upsert.CommitSucceedsIff` and `EtlRunner.SuccessIsMerge` state exactly
  when a run commits.
- `EtlRunner.NewDuplicateFailsRun` states the failure.

## Model

| member | source | states |
|---|---|---|
| EtlRunner.GetCheckpoint | app/ingestion/etl_runner.py:16-18 | the source's stored watermark when it has a checkpoint row, and None when it has none |
| EtlRunner.WithCheckpoint | app/ingestion/etl_runner.py:21-29 | the source's row holds the written watermark and is stamped with the current time; every other source's row, watermark and last run time included, is kept; no other table changes; the source's row exists afterwards |
| EtlRunner.CheckpointRowCount | app/ingestion/etl_runner.py:22-29 | the checkpoint table gains exactly one row when the source had none, and none otherwise |
| EtlRunner.UpdateCheckpoint | app/ingestion/etl_runner.py:21-29 | both branches (add a row, overwrite in place) leave the session's view equal to `WithCheckpoint` and change nothing else |
| EtlRunner.UpsertUnifiedRecords | app/ingestion/etl_runner.py:32-52 | the loop overwrites stored keys in place (`Updated`) and queues one insert per draft whose key is not stored (`NewInserts`); committed state untouched |
| Upsert.Updated | app/ingestion/etl_runner.py:39-42 | in-place overwrites never add a key |
| Upsert.NewInserts | app/ingestion/etl_runner.py:43-52 | at most one insert per draft, each with a key absent from the table |
| Upsert.NewInsertsKeys | app/ingestion/etl_runner.py:43-52 | the queued inserts use exactly the batch's keys that are not stored |
| Upsert.CommitSucceedsIff | app/ingestion/etl_runner.py:32-52 | the flush accepts the loader's inserts exactly when no two drafts share a key that is not already stored |
| Upsert.DistinctWithoutNewDuplicates | app/ingestion/etl_runner.py:43-52 | without duplicate new keys the queued inserts are pairwise distinct |
| Upsert.NewDuplicateBreaksInserts | app/db/models.py:43-45 | two drafts with the same unstored key give two inserts with that key |
| Upsert.FlushIsMerge | app/ingestion/etl_runner.py:32-52 | when the flush succeeds, the loaded table is the intended upsert `Merge` |
| Upsert.UpsertDistinctKeys | app/ingestion/etl_runner.py:32-52 | with distinct draft keys the commit succeeds; the table holds the old keys plus the batch's; each draft's key holds that draft's name, value and timestamp; other rows are untouched |
| Upsert.StoredDuplicateLastWins | app/ingestion/etl_runner.py:39-42 | among drafts sharing a key, the last one's row is what the table holds |
| Upsert.UpsertIdempotent | app/ingestion/etl_runner.py:32-52 | loading the same batch again queues no inserts, commits, and leaves the table unchanged |
| Upsert.UpsertRowCount | app/ingestion/etl_runner.py:39-52 | the row count grows by exactly the number of batch keys not already stored |
| Upsert.MergeKeys | app/ingestion/etl_runner.py:32-52 | the intended upsert's keys are the old keys plus the batch's |
| Upsert.MergeOther | app/ingestion/etl_runner.py:32-52 | keys outside the batch keep their rows |
| Upsert.MergeLastWins | app/ingestion/etl_runner.py:32-52 | a draft with no later draft under its key is the row left under that key |
| Upsert.MergeOverride | app/ingestion/etl_runner.py:32-52 | a later write to a key overrides earlier writes to it |
| Upsert.MergeIdempotent | app/ingestion/etl_runner.py:32-52 | applying the intended upsert twice is applying it once |
| Upsert.UpdatedIsMergeWhenStored | app/ingestion/etl_runner.py:39-42 | when every batch key is stored, the in-place updates are the whole upsert and nothing is queued |
| Upsert.DraftKeys | app/ingestion/etl_runner.py:34-38 | a key is in the batch's key set exactly when some draft has it |
| Store.Session.Commit | app/db/models.py:43-45 | if the pending inserts respect the unique constraint, everything pending is written and the session is clean; otherwise the integrity error, with nothing written |
| Store.Session.Rollback | app/ingestion/etl_runner.py:86-87 | all pending writes are dropped; the committed store is unchanged |
| Store.FlushSize | app/db/models.py:43-45 | a flush that respects the constraint adds exactly one row per insert |
| Store.FlushKeys | app/db/models.py:43-45 | the flushed table's keys are the old keys plus the inserted ones |
| Store.DistinctSnoc | app/db/models.py:43-45 | one more insert keeps the batch distinct exactly when its key is new to the batch |
| Store.FlushUpdateCommutes | app/ingestion/etl_runner.py:39-52 | an in-place write to a key no insert uses commutes with the flush |
| EtlRunner.Max | app/ingestion/etl_runner.py:79 | `max` returns an element that no element exceeds |
| EtlRunner.NewCheckpoint | app/ingestion/etl_runner.py:79-80 | the largest captured id when any id was captured, otherwise the previous watermark unchanged, None included |
| EtlRunner.CheckpointAdvances | app/ingestion/etl_runner.py:79 | over ids all above the old watermark, the new watermark is no lower, and strictly higher when any id was captured |
| EtlRunner.Extract | app/ingestion/etl_runner.py:62-76 | an unknown source name raises `Unknown source <name>`; each source's adapter only captures into that source's raw table |
| EtlRunner.Capture | app/ingestion/etl_runner.py:62-76 | the branch taken for the source returns the batch's ids and drafts (or its error), and the session's view gains exactly the batch's raw rows |
| EtlRunner.CaptureApi | app/ingestion/etl_runner.py:63-66 | fetch, capture and map for the API agree with `Extract` |
| EtlRunner.CaptureCsv1 | app/ingestion/etl_runner.py:67-70 | read, capture and map for the first file agree with `Extract` |
| EtlRunner.CaptureCsv2 | app/ingestion/etl_runner.py:71-74 | read, capture and map for the second file agree with `Extract` |
| EtlRunner.Attempt | app/ingestion/etl_runner.py:61-85 | an adapter error fails with nothing committed; otherwise the staged view commits when the flush accepts it, and fails with the integrity error when not |
| EtlRunner.RunForSource | app/ingestion/etl_runner.py:55-92 | the committed store and outcome are `RunOutcome`'s; the session ends clean; the history records the RUNNING commit and then the final one |
| EtlRunner.RunRecorded | app/ingestion/etl_runner.py:56-59 | a run adds exactly one run row after the existing ones: source, start and finish times set; SUCCESS exactly when the run passes and FAILURE exactly when it fails; on failure the error's text and a count of 0 |
| EtlRunner.FailureKeepsData | app/ingestion/etl_runner.py:86-91 | a failed run leaves raw rows, unified rows and checkpoints as they were; only the run row persists |
| EtlRunner.SuccessIsMerge | app/ingestion/etl_runner.py:55-85 | a run passes exactly when its adapter succeeds and it has no duplicate new keys; it then commits the raw rows, the intended upsert, the new watermark, and a SUCCESS row counting the drafts (not the raw rows) |
| EtlRunner.CsvCheckpointAdvances | app/ingestion/csv_source1.py:22-31 | a passing run of a file source never lowers its watermark, and strictly raises it when any row was captured |
| EtlRunner.UnknownSourceFails | app/ingestion/etl_runner.py:75-76 | an unknown source name still commits a FAILURE run with the error text `Unknown source <name>`, and nothing else changes |
| EtlRunner.NewDuplicateFailsRun | app/ingestion/etl_runner.py:78-92 | two drafts sharing an unstored key fail the run with the integrity error, and the unified table is unchanged |
| EtlRunner.RunAll | app/ingestion/etl_runner.py:95-102 | the committed store and outcome are those of running the three sources in order, stopping at the first failure |
| EtlRunner.RunSeqRuns | app/ingestion/etl_runner.py:99-100 | one run row per source attempted, in order: all SUCCESS when every source passes; otherwise only the last row is FAILURE and later sources are not run |
| EtlRunner.RunEachRuns | app/ingestion/etl_runner.py:99-100 | for any per-source step that adds one run row per run, the loop over sources adds one row per source attempted, all SUCCESS but a failing last one |
| EtlRunner.ApiCheckpointCanRegress | app/ingestion/api_source.py:52 | with a stored watermark of 99999999, an API run whose record hashes to 5 moves the watermark down to 5 |
| CsvSource1.ReadCsv1 | app/ingestion/csv_source1.py:14-25 | the loop returns `ReadRows` of the file's rows, with no rows when the file is absent |
| CsvCommon.ReadRowsIsKept | app/ingestion/csv_source1.py:19-24 | the read succeeds exactly when every id parses; it then returns the rows passing the watermark, in file order; otherwise it returns the first row's error |
| CsvCommon.KeptAboveWatermark | app/ingestion/csv_source1.py:22-23 | every returned row's id lies strictly above the watermark |
| CsvCommon.KeptComplete | app/ingestion/csv_source1.py:20-24 | every row passing the watermark test is returned: a row is dropped only by that test |
| CsvCommon.KeptConcat | app/ingestion/csv_source1.py:20-24 | filtering keeps file order (it distributes over concatenation) |
| CsvCommon.KeptWithoutWatermark | app/ingestion/csv_source1.py:22 | with no watermark every row is returned |
| CsvCommon.ReadStopsAtError | app/ingestion/csv_source1.py:21 | once an id fails to parse, the read raises that error whatever follows |
| CsvCommon.RowId | app/ingestion/csv_source1.py:21 | `int(row[field])`: ok exactly when the column exists and parses; a missing column is a key error |
| CsvSource1.StoreRawCsv1 | app/ingestion/csv_source1.py:28-35 | the loop returns `StoreRows`'s ids and appends its raw rows to the session's view, nothing else |
| CsvCommon.StoreRowsWellFormed | app/ingestion/csv_source1.py:28-35 | on rows that parse: one id per row, in order, each the row's `int(id)`, and one raw record per row with the row as payload |
| CsvCommon.StoreStopsAtError | app/ingestion/csv_source1.py:31 | once an id fails to parse, later rows are not captured |
| CsvCommon.CapturedIdsAboveWatermark | app/ingestion/csv_source1.py:22-31 | every id captured from the reader's output lies above the watermark |
| CsvCommon.MapRows | app/ingestion/csv_source1.py:38-50 | ok exactly when every row maps, one draft per row in order; otherwise the error of some row |
| CsvSource1.Csv1Draft | app/ingestion/csv_source1.py:41-48 | source "csv1"; external id is the id text as written; name defaults to ""; value `int(value)` defaults to 0; missing "id" or "timestamp" raises |
| CsvSource1.TransformCsv1 | app/ingestion/csv_source1.py:38-50 | one draft per row in order, or the error of a raising row; a row without "id" makes the batch raise |
| CsvSource1.DraftKeyParsesToProvenanceId | app/ingestion/csv_source1.py:31-44 | a draft's external id parses back to the row's provenance id |
| CsvSource1.LeadingZerosSplitKeys | app/ingestion/csv_source1.py:31-44 | ids "007" and "7" share provenance id 7 but are different draft keys |
| CsvSource2.ReadCsv2 | app/ingestion/csv_source2.py:14-25 | the loop returns `ReadRows` over "record_id", with no rows when the file is absent |
| CsvSource2.StoreRawCsv2 | app/ingestion/csv_source2.py:28-35 | the loop returns `StoreRows`'s ids over "record_id" and appends its raw rows, nothing else |
| CsvSource2.Csv2Draft | app/ingestion/csv_source2.py:41-48 | source "csv2"; external id is the record id text; name from "full_name" defaulting to ""; value `int(float(score))` defaulting to 0; missing "record_id" or "created_at" raises |
| CsvSource2.TransformCsv2 | app/ingestion/csv_source2.py:38-50 | one draft per row in order, or the error of a raising row; a row without "record_id" makes the batch raise |
| CsvSource2.ScoreTruncatesTowardZero | app/ingestion/csv_source2.py:46 | a score of "-2.75" gives value -2 |
| ApiSource.FetchIgnoresWatermark | app/ingestion/api_source.py:42-45 | the fetched data does not depend on the watermark |
| ApiSource.ProvenanceId | app/ingestion/api_source.py:52 | `hash(id) % 10**8` lies in [0, 10^8) |
| ApiSource.StoreRawApi | app/ingestion/api_source.py:48-56 | one id per record in order, each in [0, 10^8); one raw record per record, with the record as payload, appended and nothing else |
| ApiSource.ApiRaws | app/ingestion/api_source.py:51-54 | one raw record per record, with the record as payload and an id in range |
| ApiSource.ApiExternalId | app/ingestion/api_source.py:71 | `str(id).lower()` for any present id: the lower-cased text of a textual id, "none" for a null id, the decimal digits of an integer id; "unknown" only when the key is absent |
| ApiSource.ApiSymbol | app/ingestion/api_source.py:73 | an absent or falsy symbol reads as ""; a textual symbol is upper-cased; a truthy symbol that is not text raises |
| ApiSource.ApiName | app/ingestion/api_source.py:73-75 | with a non-empty textual symbol: "{name} ({SYMBOL})" with the symbol upper-cased and "Unknown" for an absent or falsy name; without one: the bare textual name, or "Unknown"; a non-text symbol or bare name raises |
| ApiSource.ApiValue | app/ingestion/api_source.py:78-95 | an absent or falsy price (null, 0, 0.0, "", false) gives 0; an integer is kept; a float is truncated toward zero; true gives 1; text is read with `int()` |
| ApiSource.ApiTimestamp | app/ingestion/api_source.py:81-88 | an absent or falsy `last_updated` gives the current time; text with "Z" replaced by "+00:00" is parsed, and a parse failure gives the current time; a truthy non-text value raises |
| ApiSource.ApiDraft | app/ingestion/api_source.py:68-98 | a record maps exactly when its name, value and timestamp do; the draft has source "coingecko_api", the lower-cased id, and those fields |
| ApiSource.TransformApi | app/ingestion/api_source.py:59-104 | at most one draft per record, all tagged "coingecko_api"; when every record maps, exactly their drafts in order |
| ApiSource.TransformApiConcat | app/ingestion/api_source.py:67-69 | the mapping keeps record order (it distributes over concatenation) |
| ApiSource.SkipsFailingRecord | app/ingestion/api_source.py:99-102 | a record whose mapping raises is dropped; the records around it are unaffected |
| ApiSource.MissingPriceIsZero | app/ingestion/api_source.py:78-95 | a record whose price is absent or falsy maps exactly when its name and timestamp do, and then has value 0 |
| ApiSource.NoSymbolBareName | app/ingestion/api_source.py:73-75 | with an absent or falsy symbol the name is the bare textual name, or "Unknown" when the name is absent or falsy too |
| ApiSource.SymbolNameFormat | app/ingestion/api_source.py:73-75 | with a non-empty textual symbol the name is "{name} ({SYMBOL})", the symbol upper-cased, with "Unknown" for an absent or falsy name |
| ApiSource.MissingTimestampIsNow | app/ingestion/api_source.py:81-88 | a record whose `last_updated` is absent, falsy or unparsable is stamped with the current time |
| ApiSource.PriceTruncated | app/ingestion/api_source.py:71-95 | a price of -64.99 becomes -64; the missing name becomes "Unknown"; id "BTC" becomes "btc" |
| ApiSource.MissingIdsCollide | app/ingestion/api_source.py:71 | two records without an id both get key "unknown" |
| ApiSource.TruncFloat | app/ingestion/api_source.py:95 | `int(price)` truncates toward zero: the magnitude is the integer part, with the sign kept |
| Unified.MakeDraft | app/schemas/unified.py:12-14 | the draft's source is `Lower` of the input, so it is lower-case and as long; an already lower-case source is kept as is; the other fields are copied |
| Unified.RebuildIsIdentity | app/schemas/unified.py:12-14 | rebuilding a draft from its own fields gives the same draft |
| Models.NewRun | app/db/models.py:57-66 | a new run row has a count of 0 and no error message or finish time |
| Text.Lower | app/schemas/unified.py:14 | `str.lower`: same length; each letter A-Z becomes its lower-case letter (code point + 32); every other character is kept |
| Text.LowerIdempotent | app/schemas/unified.py:14 | lower-casing twice is lower-casing once |
| Text.LowerOfLower | app/schemas/unified.py:14 | a lower-case string is its own lower-case form |
| Text.Upper | app/ingestion/api_source.py:73 | `str.upper`: same length; each letter a-z becomes its upper-case letter (code point - 32); every other character is kept |
| Text.ReplaceChar | app/ingestion/api_source.py:84 | the empty string is unchanged; the character alone becomes the replacement; any other single character is kept; the character is gone unless the replacement contains it |
| Text.ReplaceCharConcat | app/ingestion/api_source.py:84 | replacing distributes over concatenation, so with the single-character cases the result is fixed on every string |
| Text.ParseInt | app/ingestion/csv_source1.py:21 | `int(text)` succeeds exactly on an optional sign followed by decimal digits |
| Text.IntToStringRoundTrip | app/ingestion/api_source.py:71 | `int(str(n)) == n` |
| Text.NatToStringValue | app/ingestion/api_source.py:71 | the decimal digits of n denote n |
| Text.ParseFloatTruncOnIntegers | app/ingestion/csv_source2.py:46 | `int(float(s))` equals `int(s)` on integer text |
| Text.ParseFloatTruncDropsFraction | app/ingestion/csv_source2.py:46 | `int(float(s))` drops the fraction of a decimal numeral, for both signs |

## Left out

- Network access in `fetch_api_data` (HTTP request, headers, timeout) is left out. The response is an input (`Environment.apiResponse`), either the record list or the error the request raised.
- File access and CSV parsing are left out. Each file is an input list of rows (maps from column to text), or None when the file does not exist. Columns missing from a short row are absent from its map; `csv.DictReader` would give them None instead.
- Python's `hash` is salted per process. It is a parameter `hash: Json -> int`; only the bound of `hash(id) % 10**8` is proved.
- `datetime.fromisoformat` is a parameter `fromIso`.
- Every `datetime.utcnow()` of one run is the same `Environment.now`. The column defaults `started_at` and `received_at` are not modelled apart from that.
- `Text.ParseInt` does not accept surrounding whitespace, digit-group underscores or non-ASCII Unicode decimal digits, all of which Python's `int()` does.
- EtlRunner.SuccessIsMerge: the range of the database's `Integer` columns (external ids, values, watermarks, counts) is not modelled; integers are unbounded. In the program an id or value outside that range makes the commit raise (an overflow in the driver, or the column's limit), so the run fails where the model commits it; `Upsert.CommitSucceedsIff` and `EtlRunner.SuccessIsMerge` state their "exactly when" only for in-range values.
- `Text.ParseFloatTrunc` covers decimal numerals only: no exponent, `inf` or `nan`.
- CsvSource2.Csv2Draft: `int(float(score))` is modelled on exact decimals, so binary rounding of long numerals is not captured. Scores with surrounding whitespace, digit-group underscores or exponent forms, which Python's `float()` accepts, are treated as raising.
- ApiSource.TransformApi: the warning printed for each skipped record is left out; the model only skips the record.
- JSON numbers are exact decimals (`JFloat(mantissa, exp10)`), so binary floating-point rounding is not modelled. `str()` of a float gives the exact decimal rather than Python's shortest representation. It is used for a non-text API id, and for a non-text name in `ApiName` when a symbol is present.
- Nested JSON values (lists, objects) in API records are not modelled.
- Lower- and upper-casing change ASCII letters only; Unicode case mapping is left out.
- The text of the integrity error is a fixed "UNIQUE constraint failed: …" message. The real text depends on the database driver.
- Surrogate primary keys are not modelled. A run row's position in the run list stands for its id.
- `db.refresh(run)` is left out: it reloads what was just committed.
- Concurrent runs are left out, and so is `db.close()`.
- EtlRunner.Attempt: on failure its contract leaves the session's pending writes unspecified, because `RunForSource` rolls them back at once.
- The read-side HTTP routes, application wiring, configuration, engine setup, the repository self-check script and the tests are not part of this model.
