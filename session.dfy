/**
 * The database session the ingestion code writes through. It keeps the
 * committed store, the session's working copy of it (raw rows added, rows
 * changed in place, the run row) and, separately, the unified rows added as
 * new: the session does not flush before a query, so a lookup by key never
 * sees a row added earlier in the same transaction. Commit flushes the
 * pending inserts, and the unique constraint on (source, external_id)
 * rejects the whole flush if two of them, or one of them and a stored row,
 * share a key.
 */
module Store {
  import opened Wrappers
  import opened Errors
  import opened Models

  type Insert = (Key, UnifiedRow)

  /** The pending inserts respect the unique constraint against `t` and among themselves. */
  predicate InsertsOk(t: map<Key, UnifiedRow>, ins: seq<Insert>) {
    && (forall i :: 0 <= i < |ins| ==> ins[i].0 !in t)
    && DistinctInserts(ins)
  }

  /** No two pending inserts share a key. */
  predicate DistinctInserts(ins: seq<Insert>) {
    forall i, j :: 0 <= i < j < |ins| ==> ins[i].0 != ins[j].0
  }

  /** The unified table once the pending inserts are written into it. */
  function Flush(t: map<Key, UnifiedRow>, ins: seq<Insert>): (r: map<Key, UnifiedRow>)
    ensures forall k :: k in t ==> k in r
    ensures forall i :: 0 <= i < |ins| ==> ins[i].0 in r
  {
    if ins == [] then t
    else
      var last := ins[|ins| - 1];
      Flush(t, ins[..|ins| - 1])[last.0 := last.1]
  }

  /** The keys the pending inserts use. */
  function InsertKeys(ins: seq<Insert>): (ks: set<Key>)
    ensures forall i :: 0 <= i < |ins| ==> ins[i].0 in ks
    ensures forall k :: k in ks ==> exists i :: 0 <= i < |ins| && ins[i].0 == k
  {
    if ins == [] then {} else InsertKeys(ins[..|ins| - 1]) + {ins[|ins| - 1].0}
  }

  /** One more insert keeps the batch distinct exactly when its key is new to the batch. */
  lemma DistinctSnoc(ins: seq<Insert>, x: Insert)
    ensures DistinctInserts(ins + [x]) <==> DistinctInserts(ins) && x.0 !in InsertKeys(ins)
  {
    var n := ins + [x];
    if DistinctInserts(n) {
      assert forall i, j :: 0 <= i < j < |ins| ==> ins[i] == n[i] && ins[j] == n[j];
      forall m | 0 <= m < |ins| ensures ins[m].0 != x.0 {
        assert n[m] == ins[m] && n[|ins|] == x;
      }
    }
  }

  /** The flushed table holds the old keys and the inserted ones. */
  lemma {:induction false} FlushKeys(t: map<Key, UnifiedRow>, ins: seq<Insert>)
    ensures Flush(t, ins).Keys == t.Keys + InsertKeys(ins)
  {
    if ins != [] {
      FlushKeys(t, ins[..|ins| - 1]);
    }
  }

  /** A flush that respects the constraint adds exactly one row per insert. */
  lemma {:induction false} FlushSize(t: map<Key, UnifiedRow>, ins: seq<Insert>)
    requires InsertsOk(t, ins)
    ensures |Flush(t, ins)| == |t| + |ins|
  {
    if ins != [] {
      var front := ins[..|ins| - 1];
      var last := ins[|ins| - 1];
      assert InsertsOk(t, front);
      FlushSize(t, front);
      FlushKeys(t, front);
      var f := Flush(t, front);
      assert last.0 !in f.Keys;
      assert Flush(t, ins) == f[last.0 := last.1];
      assert |f[last.0 := last.1]| == |f| + 1;
    }
  }

  /** Writing a row under a key no insert uses commutes with the flush. */
  lemma {:induction false} FlushUpdateCommutes(t: map<Key, UnifiedRow>, ins: seq<Insert>, k: Key, row: UnifiedRow)
    requires forall i :: 0 <= i < |ins| ==> ins[i].0 != k
    ensures Flush(t[k := row], ins) == Flush(t, ins)[k := row]
  {
    if ins != [] {
      FlushUpdateCommutes(t, ins[..|ins| - 1], k, row);
    }
  }

  class Session {
    /** What other sessions see. */
    var committed: Tables
    /** This session's view: the committed store plus its own pending writes, inserts excepted. */
    var work: Tables
    /** Unified rows added as new and not yet flushed. */
    var inserts: seq<Insert>
    /** Every store this session has committed, oldest first. */
    ghost var history: seq<Tables>

    constructor (t: Tables)
      ensures committed == t && work == t && inserts == [] && history == []
    {
      committed, work, inserts := t, t, [];
      history := [];
    }

    /** No pending writes. */
    predicate Clean()
      reads this
    {
      work == committed && inserts == []
    }

    /**
     * `commit()`: the pending inserts are flushed with the other pending
     * writes; if they break the unique constraint nothing is written and
     * the integrity error is raised, the pending writes staying as they were.
     */
    method Commit() returns (r: Outcome<Error>)
      modifies this
      ensures InsertsOk(old(work.unified), old(inserts)) ==>
        && r == Pass
        && committed == old(work).(unified := Flush(old(work.unified), old(inserts)))
        && work == committed && inserts == []
        && history == old(history) + [committed]
      ensures !InsertsOk(old(work.unified), old(inserts)) ==>
        && r == Fail(IntegrityError)
        && committed == old(committed) && work == old(work) && inserts == old(inserts)
        && history == old(history)
    {
      if InsertsOk(work.unified, inserts) {
        committed := work.(unified := Flush(work.unified, inserts));
        work, inserts := committed, [];
        history := history + [committed];
        r := Pass;
      } else {
        r := Fail(IntegrityError);
      }
    }

    /** `rollback()`: every pending write is discarded. */
    method Rollback()
      modifies this
      ensures Clean() && committed == old(committed) && history == old(history)
    {
      work, inserts := committed, [];
    }
  }
}
