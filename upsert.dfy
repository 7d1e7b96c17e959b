/**
 * What one pass of the unified loader does to the session. For each draft,
 * in order, it looks the key up in the session's view of the unified table:
 * a hit overwrites name, value and timestamp in place, a miss adds a new
 * row. New rows are pending inserts that later lookups do not see, so two
 * drafts with the same new key give two inserts, which the flush at commit
 * rejects. `Merge` is what an upsert is expected to do (every
 * draft lands under its key, the last one winning); the lemmas say when
 * the loader's effect, once flushed, is exactly `Merge`.
 */
module Upsert {
  import opened Models
  import opened Unified
  import opened Store

  function KeyOf(d: Draft): Key {
    Key(d.source, d.externalId)
  }

  function RowOf(d: Draft): UnifiedRow {
    UnifiedRow(d.name, d.value, d.timestamp)
  }

  /** The keys a batch of drafts uses. */
  function DraftKeys(ds: seq<Draft>): (ks: set<Key>)
    ensures forall i :: 0 <= i < |ds| ==> KeyOf(ds[i]) in ks
    ensures forall k :: k in ks ==> exists i :: 0 <= i < |ds| && KeyOf(ds[i]) == k
  {
    if ds == [] then {} else DraftKeys(ds[..|ds| - 1]) + {KeyOf(ds[|ds| - 1])}
  }

  /** The keys of a batch that are not yet in the table. */
  function NewKeys(t: map<Key, UnifiedRow>, ds: seq<Draft>): set<Key> {
    DraftKeys(ds) - t.Keys
  }

  /** No two drafts of the batch share a key. */
  predicate DistinctKeys(ds: seq<Draft>) {
    forall i, j :: 0 <= i < j < |ds| ==> KeyOf(ds[i]) != KeyOf(ds[j])
  }

  /** Two drafts of the batch share a key only when that key is already stored. */
  predicate NoNewDuplicates(t: map<Key, UnifiedRow>, ds: seq<Draft>) {
    forall i, j :: 0 <= i < j < |ds| && KeyOf(ds[i]) == KeyOf(ds[j]) ==> KeyOf(ds[i]) in t
  }

  /** The session's view of the unified table after the loader's in-place updates. */
  function Updated(t: map<Key, UnifiedRow>, ds: seq<Draft>): (r: map<Key, UnifiedRow>)
    ensures r.Keys == t.Keys
  {
    if ds == [] then t
    else
      var u := Updated(t, ds[..|ds| - 1]);
      var d := ds[|ds| - 1];
      if KeyOf(d) in u then u[KeyOf(d) := RowOf(d)] else u
  }

  /** The inserts the loader leaves pending: one per draft whose key is not stored. */
  function NewInserts(t: map<Key, UnifiedRow>, ds: seq<Draft>): (r: seq<Insert>)
    ensures |r| <= |ds|
    ensures forall i :: 0 <= i < |r| ==> r[i].0 !in t
  {
    if ds == [] then []
    else
      var d := ds[|ds| - 1];
      NewInserts(t, ds[..|ds| - 1]) + if KeyOf(d) in t then [] else [(KeyOf(d), RowOf(d))]
  }

  /** The intended upsert: each draft written under its key in turn. */
  function Merge(t: map<Key, UnifiedRow>, ds: seq<Draft>): map<Key, UnifiedRow> {
    if ds == [] then t
    else
      var d := ds[|ds| - 1];
      Merge(t, ds[..|ds| - 1])[KeyOf(d) := RowOf(d)]
  }

  /** The pending inserts use exactly the batch's new keys. */
  lemma {:induction false} NewInsertsKeys(t: map<Key, UnifiedRow>, ds: seq<Draft>)
    ensures InsertKeys(NewInserts(t, ds)) == NewKeys(t, ds)
  {
    if ds != [] {
      var front := ds[..|ds| - 1];
      NewInsertsKeys(t, front);
      var d := ds[|ds| - 1];
      if KeyOf(d) in t {
        assert NewInserts(t, ds) == NewInserts(t, front);
      } else {
        var n := NewInserts(t, front);
        var x := (KeyOf(d), RowOf(d));
        assert NewInserts(t, ds) == n + [x];
        assert (n + [x])[..|n + [x]| - 1] == n;
      }
    }
  }

  /** Merging keeps the stored keys and adds the batch's keys. */
  lemma {:induction false} MergeKeys(t: map<Key, UnifiedRow>, ds: seq<Draft>)
    ensures Merge(t, ds).Keys == t.Keys + DraftKeys(ds)
  {
    if ds != [] {
      MergeKeys(t, ds[..|ds| - 1]);
    }
  }

  /** A key the batch does not use keeps its stored row (or stays absent). */
  lemma {:induction false} MergeOther(t: map<Key, UnifiedRow>, ds: seq<Draft>, k: Key)
    requires k !in DraftKeys(ds)
    ensures k in Merge(t, ds) <==> k in t
    ensures k in t ==> Merge(t, ds)[k] == t[k]
  {
    if ds != [] {
      MergeOther(t, ds[..|ds| - 1], k);
    }
  }

  /** The last draft with a given key is the one whose row is kept. */
  lemma {:induction false} MergeLastWins(t: map<Key, UnifiedRow>, ds: seq<Draft>, i: nat)
    requires i < |ds|
    requires forall j :: i < j < |ds| ==> KeyOf(ds[j]) != KeyOf(ds[i])
    ensures KeyOf(ds[i]) in Merge(t, ds) && Merge(t, ds)[KeyOf(ds[i])] == RowOf(ds[i])
  {
    if i < |ds| - 1 {
      MergeLastWins(t, ds[..|ds| - 1], i);
    }
  }

  /** A final write under `k` hides an earlier one made before the same batch. */
  lemma {:induction false} MergeOverride(m: map<Key, UnifiedRow>, ds: seq<Draft>, k: Key, row: UnifiedRow)
    ensures Merge(m[k := row], ds)[k := row] == Merge(m, ds)[k := row]
  {
    if ds != [] {
      var front := ds[..|ds| - 1];
      var d := ds[|ds| - 1];
      MergeOverride(m, front, k, row);
      var a, b := Merge(m[k := row], front), Merge(m, front);
      assert a[k := row] == b[k := row];
      if KeyOf(d) != k {
        assert a[KeyOf(d) := RowOf(d)][k := row] == a[k := row][KeyOf(d) := RowOf(d)];
        assert b[KeyOf(d) := RowOf(d)][k := row] == b[k := row][KeyOf(d) := RowOf(d)];
      } else {
        assert a[KeyOf(d) := RowOf(d)][k := row] == a[k := row];
        assert b[KeyOf(d) := RowOf(d)][k := row] == b[k := row];
      }
    }
  }

  /** Upserting the same batch twice is the same as upserting it once. */
  lemma {:induction false} MergeIdempotent(t: map<Key, UnifiedRow>, ds: seq<Draft>)
    ensures Merge(Merge(t, ds), ds) == Merge(t, ds)
  {
    if ds != [] {
      var front := ds[..|ds| - 1];
      var d := ds[|ds| - 1];
      MergeIdempotent(t, front);
      MergeOverride(Merge(t, front), front, KeyOf(d), RowOf(d));
    }
  }

  /** When every key of the batch is stored, the loader only updates, and that is `Merge`. */
  lemma {:induction false} UpdatedIsMergeWhenStored(t: map<Key, UnifiedRow>, ds: seq<Draft>)
    requires DraftKeys(ds) <= t.Keys
    ensures Updated(t, ds) == Merge(t, ds)
    ensures NewInserts(t, ds) == []
  {
    if ds != [] {
      UpdatedIsMergeWhenStored(t, ds[..|ds| - 1]);
    }
  }

  /** Without a repeated new key, the pending inserts are pairwise distinct. */
  lemma {:induction false} DistinctWithoutNewDuplicates(t: map<Key, UnifiedRow>, ds: seq<Draft>)
    requires NoNewDuplicates(t, ds)
    ensures DistinctInserts(NewInserts(t, ds))
  {
    if ds != [] {
      var front := ds[..|ds| - 1];
      var d := ds[|ds| - 1];
      var k := KeyOf(d);
      assert NoNewDuplicates(t, front) by {
        forall i, j | 0 <= i < j < |front| ensures ds[i] == front[i] && ds[j] == front[j] { }
      }
      DistinctWithoutNewDuplicates(t, front);
      var n := NewInserts(t, front);
      if k !in t {
        NewInsertsKeys(t, front);
        DistinctSnoc(n, (k, RowOf(d)));
      }
    }
  }

  /** Two drafts with the same new key leave two inserts with that key. */
  lemma {:induction false} NewDuplicateBreaksInserts(t: map<Key, UnifiedRow>, ds: seq<Draft>, i: nat, j: nat)
    requires i < j < |ds| && KeyOf(ds[i]) == KeyOf(ds[j]) && KeyOf(ds[i]) !in t
    ensures !DistinctInserts(NewInserts(t, ds))
  {
    var front := ds[..|ds| - 1];
    var d := ds[|ds| - 1];
    var n := NewInserts(t, front);
    var x := (KeyOf(d), RowOf(d));
    assert front[i] == ds[i];
    if j < |ds| - 1 {
      assert front[j] == ds[j];
      NewDuplicateBreaksInserts(t, front, i, j);
      if KeyOf(d) !in t {
        assert NewInserts(t, ds) == n + [x];
        DistinctSnoc(n, x);
      } else {
        assert NewInserts(t, ds) == n;
      }
    } else {
      assert NewInserts(t, ds) == n + [x];
      NewInsertsKeys(t, front);
      assert KeyOf(front[i]) in NewKeys(t, front);
      DistinctSnoc(n, x);
    }
  }

  /**
   * The flush at commit succeeds exactly when no two drafts of the batch
   * share a key that is not already stored.
   */
  lemma CommitSucceedsIff(t: map<Key, UnifiedRow>, ds: seq<Draft>)
    ensures InsertsOk(Updated(t, ds), NewInserts(t, ds)) <==> NoNewDuplicates(t, ds)
  {
    if NoNewDuplicates(t, ds) {
      DistinctWithoutNewDuplicates(t, ds);
    } else {
      var i, j :| 0 <= i < j < |ds| && KeyOf(ds[i]) == KeyOf(ds[j]) && KeyOf(ds[i]) !in t;
      NewDuplicateBreaksInserts(t, ds, i, j);
    }
  }

  /** Once the flush succeeds, the loader's effect is exactly the intended upsert. */
  lemma {:induction false} FlushIsMerge(t: map<Key, UnifiedRow>, ds: seq<Draft>)
    requires InsertsOk(Updated(t, ds), NewInserts(t, ds))
    ensures Flush(Updated(t, ds), NewInserts(t, ds)) == Merge(t, ds)
  {
    if ds != [] {
      var front := ds[..|ds| - 1];
      var d := ds[|ds| - 1];
      var k := KeyOf(d);
      var u, n := Updated(t, front), NewInserts(t, front);
      assert Merge(t, ds) == Merge(t, front)[k := RowOf(d)];
      if k in t {
        assert Updated(t, ds) == u[k := RowOf(d)];
        assert NewInserts(t, ds) == n;
        assert InsertsOk(u, n);
        FlushIsMerge(t, front);
        FlushUpdateCommutes(u, n, k, RowOf(d));
      } else {
        var x := (k, RowOf(d));
        assert Updated(t, ds) == u;
        assert NewInserts(t, ds) == n + [x];
        assert (n + [x])[..|n + [x]| - 1] == n;
        assert Flush(u, n + [x]) == Flush(u, n)[k := RowOf(d)];
        assert InsertsOk(u, n);
        FlushIsMerge(t, front);
      }
    }
  }

  /** The committed unified table after one loader pass and a successful flush. */
  function Loaded(t: map<Key, UnifiedRow>, ds: seq<Draft>): map<Key, UnifiedRow> {
    Flush(Updated(t, ds), NewInserts(t, ds))
  }

  /**
   * With pairwise distinct keys the commit succeeds, each draft's key holds
   * exactly that draft's name, value and timestamp, and every other row is
   * as it was.
   */
  lemma UpsertDistinctKeys(t: map<Key, UnifiedRow>, ds: seq<Draft>)
    requires DistinctKeys(ds)
    ensures InsertsOk(Updated(t, ds), NewInserts(t, ds))
    ensures Loaded(t, ds).Keys == t.Keys + DraftKeys(ds)
    ensures forall i :: 0 <= i < |ds| ==> Loaded(t, ds)[KeyOf(ds[i])] == RowOf(ds[i])
    ensures forall k :: k in t && k !in DraftKeys(ds) ==> Loaded(t, ds)[k] == t[k]
  {
    CommitSucceedsIff(t, ds);
    FlushIsMerge(t, ds);
    MergeKeys(t, ds);
    forall i | 0 <= i < |ds| ensures Merge(t, ds)[KeyOf(ds[i])] == RowOf(ds[i]) {
      MergeLastWins(t, ds, i);
    }
    forall k | k in t && k !in DraftKeys(ds) ensures Merge(t, ds)[k] == t[k] {
      MergeOther(t, ds, k);
    }
  }

  /**
   * A key the batch repeats and that is already stored ends up with the
   * row of its last draft, as an upsert is expected to do for any
   * repeated key.
   */
  lemma StoredDuplicateLastWins(t: map<Key, UnifiedRow>, ds: seq<Draft>, i: nat)
    requires NoNewDuplicates(t, ds)
    requires i < |ds| && forall j :: i < j < |ds| ==> KeyOf(ds[j]) != KeyOf(ds[i])
    ensures KeyOf(ds[i]) in Loaded(t, ds) && Loaded(t, ds)[KeyOf(ds[i])] == RowOf(ds[i])
  {
    CommitSucceedsIff(t, ds);
    FlushIsMerge(t, ds);
    MergeLastWins(t, ds, i);
  }

  /**
   * After a successful load, loading the same batch again adds no insert,
   * commits, and leaves every row (and so the row count) as it was.
   */
  lemma UpsertIdempotent(t: map<Key, UnifiedRow>, ds: seq<Draft>)
    requires NoNewDuplicates(t, ds)
    ensures NewInserts(Loaded(t, ds), ds) == []
    ensures InsertsOk(Updated(Loaded(t, ds), ds), [])
    ensures Loaded(Loaded(t, ds), ds) == Loaded(t, ds)
  {
    CommitSucceedsIff(t, ds);
    FlushIsMerge(t, ds);
    var t2 := Merge(t, ds);
    MergeKeys(t, ds);
    UpdatedIsMergeWhenStored(t2, ds);
    MergeIdempotent(t, ds);
  }

  /** A successful load grows the table by the number of new keys in the batch. */
  lemma UpsertRowCount(t: map<Key, UnifiedRow>, ds: seq<Draft>)
    requires NoNewDuplicates(t, ds)
    ensures |Loaded(t, ds)| == |t| + |NewKeys(t, ds)|
  {
    var m := Merge(t, ds);
    assert Loaded(t, ds) == m by {
      CommitSucceedsIff(t, ds);
      FlushIsMerge(t, ds);
    }
    assert m.Keys == t.Keys + NewKeys(t, ds) by {
      MergeKeys(t, ds);
    }
    assert |m.Keys| == |t.Keys| + |NewKeys(t, ds)| by {
      assert t.Keys !! NewKeys(t, ds);
    }
  }
}
