/**
 * The remote-API adapter: the fetched entities (the response is an input
 * here), raw capture under a hash-derived provenance id, and the mapping to
 * drafts that skips any entity whose mapping raises.
 */
module ApiSource {
  import opened Wrappers
  import opened Errors
  import opened Text
  import opened Models
  import opened Unified
  import opened Store

  const SourceTag: string := "coingecko_api"

  /** Provenance ids are reduced into [0, IdRange). */
  const IdRange: int := 100000000

  /**
   * `fetch_api_data`: the response of the HTTP request (or the error it
   * raised). The watermark is accepted and not used.
   */
  function FetchApiData(response: Result<seq<ApiRecord>, Error>, lastExternalId: Option<int>): Result<seq<ApiRecord>, Error> {
    response
  }

  /** Whatever the watermark, the same response comes back. */
  lemma FetchIgnoresWatermark(response: Result<seq<ApiRecord>, Error>, a: Option<int>, b: Option<int>)
    ensures FetchApiData(response, a) == FetchApiData(response, b) == FetchApiData(response, None)
  {
  }

  /** `rec.get(key, default)`. */
  function Get(rec: ApiRecord, key: string, default: Json): Json {
    if key in rec then rec[key] else default
  }

  /** Python truthiness of a scalar. */
  predicate Truthy(v: Json) {
    match v
    case JNull => false
    case JBool(b) => b
    case JInt(i) => i != 0
    case JFloat(m, _) => m != 0
    case JStr(s) => s != ""
  }

  function Pow10(e: nat): (p: nat)
    ensures p >= 1
  {
    if e == 0 then 1 else 10 * Pow10(e - 1)
  }

  /** `s` padded on the left with zeros to at least `n` characters. */
  function PadZeros(s: string, n: nat): (r: string)
    ensures |r| >= n && |r| >= |s|
    decreases n - |s|
  {
    if |s| >= n then s else PadZeros("0" + s, n)
  }

  function Abs(x: int): nat {
    if x < 0 then -x else x
  }

  /** `str(v)` of a float, written as its exact decimal digits. */
  function FloatText(mantissa: int, exp10: nat): string {
    var sign := if mantissa < 0 then "-" else "";
    var (whole, rest) := DivMod(Abs(mantissa), Pow10(exp10));
    var fraction := if exp10 == 0 then "0" else PadZeros(NatToString(rest), exp10);
    sign + NatToString(whole) + "." + fraction
  }

  /** Quotient and remainder of a natural number by a positive one. */
  function DivMod(a: nat, p: nat): (r: (nat, nat))
    requires p >= 1
    ensures r.0 * p + r.1 == a && r.1 < p
  {
    (a / p, a % p)
  }

  /** `str(v)`. */
  function PyStr(v: Json): string {
    match v
    case JNull => "None"
    case JBool(b) => if b then "True" else "False"
    case JInt(i) => IntToString(i)
    case JFloat(m, e) => FloatText(m, e)
    case JStr(s) => s
  }

  /** `int(x)` of a float: the fractional part is dropped, rounding toward zero. */
  function TruncFloat(mantissa: int, exp10: nat): (r: int)
    ensures Abs(r) * Pow10(exp10) <= Abs(mantissa) < (Abs(r) + 1) * Pow10(exp10)
    ensures mantissa >= 0 ==> r >= 0
    ensures mantissa <= 0 ==> r <= 0
  {
    var p := Pow10(exp10);
    var whole := DivMod(Abs(mantissa), p).0;
    assert (whole + 1) * p == whole * p + p;
    var r: int := if mantissa >= 0 then whole else -(whole as int);
    assert Abs(r) == whole;
    r
  }

  /** `hash(rec.get("id", "")) % 10**8`: never negative, below the range. */
  function ProvenanceId(rec: ApiRecord, hash: Json -> int): (id: int)
    ensures 0 <= id < IdRange
  {
    hash(Get(rec, "id", JStr(""))) % IdRange
  }

  /** The provenance ids of a batch, in order. */
  function ProvenanceIds(records: seq<ApiRecord>, hash: Json -> int): seq<int> {
    seq(|records|, i requires 0 <= i < |records| => ProvenanceId(records[i], hash))
  }

  /** The raw rows capture appends: one per record, in order, the record as payload. */
  function ApiRaws(records: seq<ApiRecord>, hash: Json -> int): (r: seq<RawRecord<ApiRecord>>)
    ensures |r| == |records|
    ensures forall i :: 0 <= i < |r| ==> r[i].payload == records[i] && 0 <= r[i].externalId < IdRange
  {
    seq(|records|, i requires 0 <= i < |records| => RawRecord(ProvenanceId(records[i], hash), records[i]))
  }

  /**
   * `store_raw_api`: appends one raw row per record, with the record as
   * payload, and returns their provenance ids, one per record in order,
   * each in [0, 10^8).
   */
  method StoreRawApi(db: Session, records: seq<ApiRecord>, hash: Json -> int) returns (ids: seq<int>)
    modifies db
    ensures ids == ProvenanceIds(records, hash)
    ensures forall i :: 0 <= i < |ids| ==> 0 <= ids[i] < IdRange
    ensures db.work == old(db.work).(rawApi := old(db.work.rawApi) + ApiRaws(records, hash))
    ensures db.committed == old(db.committed) && db.inserts == old(db.inserts) && db.history == old(db.history)
  {
    ids := [];
    ghost var start := db.work.rawApi;
    for i := 0 to |records|
      invariant |ids| == i
      invariant forall j :: 0 <= j < i ==> ids[j] == ProvenanceId(records[j], hash)
      invariant db.work == old(db.work).(rawApi := start + ApiRaws(records, hash)[..i])
      invariant db.committed == old(db.committed) && db.inserts == old(db.inserts) && db.history == old(db.history)
    {
      var externalId := ProvenanceId(records[i], hash);
      db.work := db.work.(rawApi := db.work.rawApi + [RawRecord(externalId, records[i])]);
      assert ApiRaws(records, hash)[..i + 1] == ApiRaws(records, hash)[..i] + [RawRecord(externalId, records[i])];
      ids := ids + [externalId];
    }
    assert ApiRaws(records, hash)[..|records|] == ApiRaws(records, hash);
  }

  /**
   * The draft key: `str` of the record's id, lower-cased, or "unknown" when
   * it has none; a null id reads "none" and an integer id its decimal digits.
   */
  function ApiExternalId(rec: ApiRecord): (r: string)
    ensures IsLower(r)
    ensures "id" !in rec ==> r == "unknown"
    ensures "id" in rec ==> r == Lower(PyStr(rec["id"]))
    ensures "id" in rec && rec["id"].JStr? ==> r == Lower(rec["id"].s)
    ensures "id" in rec && rec["id"].JNull? ==> r == "none"
    ensures "id" in rec && rec["id"].JInt? ==> r == IntToString(rec["id"].i)
  {
    LowerOfLower("unknown");
    LowerOfLower("none");
    IntToStringIsLower(if "id" in rec && rec["id"].JInt? then rec["id"].i else 0);
    Lower(PyStr(Get(rec, "id", JStr("unknown"))))
  }

  /** The decimal text of an integer has no upper-case letter. */
  lemma IntToStringIsLower(n: int)
    ensures IsLower(IntToString(n))
  {
    var digits := NatToString(if n < 0 then -n else n);
    assert forall i :: 0 <= i < |digits| ==> !IsUpperAscii(digits[i]) by {
      forall i | 0 <= i < |digits| ensures !IsUpperAscii(digits[i]) {
        assert IsDigit(digits[i]);
      }
    }
  }

  /** `(rec.get("symbol") or "").upper()`; a truthy symbol that is not text raises (None). */
  function ApiSymbol(rec: ApiRecord): (r: Option<string>)
    ensures !Truthy(Get(rec, "symbol", JNull)) ==> r == Some("")
    ensures Get(rec, "symbol", JNull).JStr? ==> r == Some(Upper(Get(rec, "symbol", JNull).s))
    ensures Truthy(Get(rec, "symbol", JNull)) && !Get(rec, "symbol", JNull).JStr? ==> r.None?
  {
    var v := Get(rec, "symbol", JNull);
    if !Truthy(v) then Some("")
    else if v.JStr? then Some(Upper(v.s))
    else None
  }

  /**
   * The display name: "name (SYMBOL)" when the symbol is non-empty, else the
   * bare name; a missing or falsy name reads "Unknown". A bare name that is
   * not text fails validation of the draft's string field (None).
   */
  function ApiName(rec: ApiRecord): (r: Option<string>)
    ensures var sym, nm := Get(rec, "symbol", JNull), Get(rec, "name", JNull);
      && (sym.JStr? && sym.s != "" && Truthy(nm) ==> r == Some(PyStr(nm) + " (" + Upper(sym.s) + ")"))
      && (sym.JStr? && sym.s != "" && !Truthy(nm) ==> r == Some("Unknown (" + Upper(sym.s) + ")"))
      && (!Truthy(sym) && nm.JStr? && nm.s != "" ==> r == Some(nm.s))
      && (!Truthy(sym) && !Truthy(nm) ==> r == Some("Unknown"))
      && (!Truthy(sym) && Truthy(nm) && !nm.JStr? ==> r.None?)
      && (Truthy(sym) && !sym.JStr? ==> r.None?)
  {
    var nameV := if Truthy(Get(rec, "name", JNull)) then rec["name"] else JStr("Unknown");
    assert PyStr(JStr("Unknown")) + " (" == "Unknown (";
    match ApiSymbol(rec)
    case None => None
    case Some(symbol) =>
      if symbol != "" then Some(PyStr(nameV) + " (" + symbol + ")")
      else if nameV.JStr? then Some(nameV.s)
      else None
  }

  /** `int(price) if price else 0` for `price = rec.get("current_price") or 0`; a bad numeral raises. */
  function ApiValue(rec: ApiRecord): (r: Option<int>)
    ensures var price := Get(rec, "current_price", JNull);
      && (!Truthy(price) ==> r == Some(0))
      && (price.JInt? ==> r == Some(price.i))
      && (price.JFloat? ==> r == Some(TruncFloat(price.mantissa, price.exp10)))
      && (price.JBool? ==> r == Some(if price.b then 1 else 0))
      && (price.JStr? && price.s != "" ==> r == ParseInt(price.s))
  {
    var price := Get(rec, "current_price", JNull);
    if !Truthy(price) then Some(0)
    else match price
      case JBool(_) => Some(1)
      case JInt(i) => Some(i)
      case JFloat(m, e) => Some(TruncFloat(m, e))
      case JStr(s) => ParseInt(s)
      case JNull => Some(0)
  }

  /**
   * The record's `last_updated` time with a trailing "Z" read as UTC, or the
   * current time when it is absent, falsy or malformed; a truthy value that
   * is not text raises (None).
   */
  function ApiTimestamp(rec: ApiRecord, fromIso: string -> Option<Instant>, now: Instant): (r: Option<Instant>)
    ensures var lu := Get(rec, "last_updated", JNull);
      && (!Truthy(lu) ==> r == Some(now))
      && (Truthy(lu) && !lu.JStr? ==> r.None?)
      && (lu.JStr? && lu.s != "" && fromIso(ReplaceChar(lu.s, 'Z', "+00:00")).Some? ==>
            r == fromIso(ReplaceChar(lu.s, 'Z', "+00:00")))
      && (lu.JStr? && lu.s != "" && fromIso(ReplaceChar(lu.s, 'Z', "+00:00")).None? ==> r == Some(now))
  {
    var lastUpdated := Get(rec, "last_updated", JNull);
    if !Truthy(lastUpdated) then Some(now)
    else if !lastUpdated.JStr? then None
    else match fromIso(ReplaceChar(lastUpdated.s, 'Z', "+00:00"))
      case None => Some(now)
      case Some(t) => Some(t)
  }

  /** One record as a draft, or None when its mapping raises. */
  function ApiDraft(rec: ApiRecord, fromIso: string -> Option<Instant>, now: Instant): (r: Option<Draft>)
    ensures r.Some? <==> ApiName(rec).Some? && ApiValue(rec).Some? && ApiTimestamp(rec, fromIso, now).Some?
    ensures r.Some? ==>
      && r.value.source == SourceTag
      && r.value.externalId == ApiExternalId(rec)
      && r.value.name == ApiName(rec)
      && r.value.value == ApiValue(rec)
      && r.value.timestamp == ApiTimestamp(rec, fromIso, now).value
  {
    LowerOfLower(SourceTag);
    var name := ApiName(rec);
    var value := ApiValue(rec);
    var timestamp := ApiTimestamp(rec, fromIso, now);
    if name.Some? && value.Some? && timestamp.Some?
    then Some(MakeDraft(SourceTag, ApiExternalId(rec), Some(name.value), Some(value.value), timestamp.value))
    else None
  }

  /** The values present in `xs`, in order: what a loop that skips failures collects. */
  function Present<T>(xs: seq<Option<T>>): (r: seq<T>)
    ensures |r| <= |xs|
    ensures forall i :: 0 <= i < |r| ==> Some(r[i]) in xs
    ensures (forall j :: 0 <= j < |xs| ==> xs[j].Some?) ==>
      |r| == |xs| && forall j :: 0 <= j < |xs| ==> xs[j] == Some(r[j])
  {
    if xs == [] then []
    else
      var rest := Present(xs[1..]);
      assert forall i :: 0 <= i < |rest| ==> Some(rest[i]) in xs by {
        forall i | 0 <= i < |rest| ensures Some(rest[i]) in xs {
          var k :| 0 <= k < |xs[1..]| && xs[1..][k] == Some(rest[i]);
          assert xs[k + 1] == Some(rest[i]);
        }
      }
      match xs[0]
      case None => rest
      case Some(x) => [x] + rest
  }

  /** Collecting distributes over concatenation. */
  lemma {:induction false} PresentConcat<T>(a: seq<Option<T>>, b: seq<Option<T>>)
    ensures Present(a + b) == Present(a) + Present(b)
  {
    if a == [] {
      assert a + b == b;
    } else {
      assert (a + b)[1..] == a[1..] + b;
      PresentConcat(a[1..], b);
    }
  }

  /** Each record's draft, or None where its mapping raises. */
  function ApiDrafts(records: seq<ApiRecord>, fromIso: string -> Option<Instant>, now: Instant): seq<Option<Draft>> {
    seq(|records|, i requires 0 <= i < |records| => ApiDraft(records[i], fromIso, now))
  }

  /**
   * `transform_api_to_unified`: the drafts of the records that map, in
   * order; a record whose mapping raises is skipped.
   */
  function TransformApi(records: seq<ApiRecord>, fromIso: string -> Option<Instant>, now: Instant): (r: seq<Draft>)
    ensures |r| <= |records|
    ensures forall i :: 0 <= i < |r| ==> r[i].source == SourceTag
    ensures (forall j :: 0 <= j < |records| ==> ApiDraft(records[j], fromIso, now).Some?) ==>
      |r| == |records| && forall j :: 0 <= j < |records| ==> ApiDraft(records[j], fromIso, now) == Some(r[j])
  {
    var drafts := ApiDrafts(records, fromIso, now);
    var r := Present(drafts);
    assert forall i :: 0 <= i < |r| ==> r[i].source == SourceTag by {
      forall i | 0 <= i < |r| ensures r[i].source == SourceTag {
        var k :| 0 <= k < |drafts| && drafts[k] == Some(r[i]);
        assert ApiDraft(records[k], fromIso, now) == Some(r[i]);
      }
    }
    r
  }

  /** The mapping distributes over concatenation: it keeps the records' order. */
  lemma TransformApiConcat(a: seq<ApiRecord>, b: seq<ApiRecord>, fromIso: string -> Option<Instant>, now: Instant)
    ensures TransformApi(a + b, fromIso, now) == TransformApi(a, fromIso, now) + TransformApi(b, fromIso, now)
  {
    var da, db, dab := ApiDrafts(a, fromIso, now), ApiDrafts(b, fromIso, now), ApiDrafts(a + b, fromIso, now);
    forall i | 0 <= i < |dab| ensures dab[i] == (da + db)[i] {
      if i < |a| {
        assert (a + b)[i] == a[i];
      } else {
        assert (a + b)[i] == b[i - |a|];
      }
    }
    assert dab == da + db;
    PresentConcat(ApiDrafts(a, fromIso, now), ApiDrafts(b, fromIso, now));
  }

  /** A record whose mapping raises is dropped and the records around it are unaffected. */
  lemma SkipsFailingRecord(a: seq<ApiRecord>, bad: ApiRecord, b: seq<ApiRecord>, fromIso: string -> Option<Instant>, now: Instant)
    requires ApiDraft(bad, fromIso, now).None?
    ensures TransformApi(a + [bad] + b, fromIso, now) == TransformApi(a, fromIso, now) + TransformApi(b, fromIso, now)
  {
    TransformApiConcat(a + [bad], b, fromIso, now);
    TransformApiConcat(a, [bad], fromIso, now);
    assert ApiDrafts([bad], fromIso, now) == [None];
    var ta := TransformApi(a, fromIso, now);
    assert ta + [] == ta;
  }

  /**
   * A record whose price is absent or falsy (null, 0, 0.0, "", false) has
   * value 0, and its draft is built when its name and timestamp are.
   */
  lemma MissingPriceIsZero(rec: ApiRecord, fromIso: string -> Option<Instant>, now: Instant)
    requires !Truthy(Get(rec, "current_price", JNull))
    ensures ApiDraft(rec, fromIso, now).Some? <==> ApiName(rec).Some? && ApiTimestamp(rec, fromIso, now).Some?
    ensures ApiDraft(rec, fromIso, now).Some? ==> ApiDraft(rec, fromIso, now).value.value == Some(0)
  {
  }

  /**
   * A record whose symbol is absent or falsy keeps the bare name, or
   * "Unknown" when the name is absent or falsy as well.
   */
  lemma NoSymbolBareName(rec: ApiRecord, fromIso: string -> Option<Instant>, now: Instant)
    requires !Truthy(Get(rec, "symbol", JNull))
    requires ApiDraft(rec, fromIso, now).Some?
    ensures Get(rec, "name", JNull).JStr? && Get(rec, "name", JNull).s != "" ==>
      ApiDraft(rec, fromIso, now).value.name == Some(rec["name"].s)
    ensures !Truthy(Get(rec, "name", JNull)) ==> ApiDraft(rec, fromIso, now).value.name == Some("Unknown")
  {
  }

  /**
   * A textual, non-empty symbol is upper-cased into "name (SYMBOL)", with
   * "Unknown" standing in for an absent or falsy name.
   */
  lemma SymbolNameFormat(rec: ApiRecord, sym: string, fromIso: string -> Option<Instant>, now: Instant)
    requires Get(rec, "symbol", JNull) == JStr(sym) && sym != ""
    requires ApiDraft(rec, fromIso, now).Some?
    ensures Get(rec, "name", JNull).JStr? && Get(rec, "name", JNull).s != "" ==>
      ApiDraft(rec, fromIso, now).value.name == Some(rec["name"].s + " (" + Upper(sym) + ")")
    ensures !Truthy(Get(rec, "name", JNull)) ==>
      ApiDraft(rec, fromIso, now).value.name == Some("Unknown (" + Upper(sym) + ")")
  {
  }

  /** A record without a usable `last_updated` is stamped with the current time. */
  lemma MissingTimestampIsNow(rec: ApiRecord, fromIso: string -> Option<Instant>, now: Instant)
    requires !Truthy(Get(rec, "last_updated", JNull))
      || (Get(rec, "last_updated", JNull).JStr? && fromIso(ReplaceChar(Get(rec, "last_updated", JNull).s, 'Z', "+00:00")).None?)
    requires ApiDraft(rec, fromIso, now).Some?
    ensures ApiDraft(rec, fromIso, now).value.timestamp == now
  {
  }

  /** A fractional price is truncated toward zero. */
  lemma PriceTruncated(fromIso: string -> Option<Instant>, now: Instant)
    ensures ApiDraft(map["id" := JStr("BTC"), "current_price" := JFloat(-6499, 2)], fromIso, now)
      == Some(Draft(SourceTag, "btc", Some("Unknown"), Some(-64), now))
  {
    var rec := map["id" := JStr("BTC"), "current_price" := JFloat(-6499, 2)];
    assert Pow10(2) == 100;
    assert TruncFloat(-6499, 2) == -64;
    assert ApiExternalId(rec) == "btc";
  }

  /** Records without an id all share the key "unknown". */
  lemma MissingIdsCollide(a: ApiRecord, b: ApiRecord, fromIso: string -> Option<Instant>, now: Instant)
    requires "id" !in a && "id" !in b
    requires ApiDraft(a, fromIso, now).Some? && ApiDraft(b, fromIso, now).Some?
    ensures ApiDraft(a, fromIso, now).value.source == ApiDraft(b, fromIso, now).value.source
    ensures ApiDraft(a, fromIso, now).value.externalId == ApiDraft(b, fromIso, now).value.externalId == "unknown"
  {
  }
}
