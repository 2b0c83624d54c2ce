/**
 * The two list updates the map applies to `savedMarkers`: dropping every
 * record with a marker id (`filter`) and rewriting every record with a marker
 * id (`map` with a conditional spread).
 */
module MarkerList {
  import opened MarkerData

  /** Number of records carrying `id`. */
  function CountId(saved: seq<MarkerRecord>, id: MarkerId): nat {
    if saved == [] then 0 else (if saved[0].markerId == id then 1 else 0) + CountId(saved[1..], id)
  }

  /** The marker ids of the records, in list order. */
  function Ids(saved: seq<MarkerRecord>): (ids: seq<MarkerId>)
    ensures |ids| == |saved|
    ensures forall i :: 0 <= i < |saved| ==> ids[i] == saved[i].markerId
  {
    if saved == [] then [] else [saved[0].markerId] + Ids(saved[1..])
  }

  /** `prev.filter((m) => m.marker_id !== id)`. */
  function WithoutId(saved: seq<MarkerRecord>, id: MarkerId): (r: seq<MarkerRecord>)
    ensures |r| == |saved| - CountId(saved, id)
    ensures forall m :: m in r ==> m.markerId != id
  {
    if saved == [] then []
    else
      var rest := WithoutId(saved[1..], id);
      if saved[0].markerId == id then rest else [saved[0]] + rest
  }

  /** Every record without the id survives the filter as often as it occurs in the list. */
  lemma {:induction false} WithoutIdKeepsOthers(saved: seq<MarkerRecord>, id: MarkerId)
    ensures forall m: MarkerRecord | m.markerId != id :: multiset(WithoutId(saved, id))[m] == multiset(saved)[m]
  {
    if saved != [] {
      WithoutIdKeepsOthers(saved[1..], id);
      assert saved == [saved[0]] + saved[1..];
    }
  }

  /** A single record survives the filter exactly when it does not carry `id`. */
  lemma WithoutIdSingle(m: MarkerRecord, id: MarkerId)
    ensures WithoutId([m], id) == if m.markerId == id then [] else [m]
  {
    assert [m][1..] == [];
  }

  /** The filter keeps the list order: filtering a concatenation concatenates the filtered parts. */
  lemma {:induction false} WithoutIdConcat(a: seq<MarkerRecord>, b: seq<MarkerRecord>, id: MarkerId)
    ensures WithoutId(a + b, id) == WithoutId(a, id) + WithoutId(b, id)
  {
    if a == [] {
      assert a + b == b;
    } else {
      WithoutIdConcat(a[1..], b, id);
      WithoutIdConcatStep(a, b, id);
    }
  }

  /** The inductive step of `WithoutIdConcat`: what holds for the tail of `a` holds for `a`. */
  lemma WithoutIdConcatStep(a: seq<MarkerRecord>, b: seq<MarkerRecord>, id: MarkerId)
    requires a != []
    requires WithoutId(a[1..] + b, id) == WithoutId(a[1..], id) + WithoutId(b, id)
    ensures WithoutId(a + b, id) == WithoutId(a, id) + WithoutId(b, id)
  {
    var ab := a + b;
    assert ab[0] == a[0] && ab[1..] == a[1..] + b;
    WithoutIdStep(ab, id);
    WithoutIdStep(a, id);
    var head := if a[0].markerId == id then [] else [a[0]];
    Regroup(head, WithoutId(a[1..], id), WithoutId(b, id), WithoutId(ab, id), WithoutId(a, id), WithoutId(ab[1..], id));
  }

  /** `h + (x + y)` regrouped as `(h + x) + y`, for named parts. */
  lemma Regroup(h: seq<MarkerRecord>, x: seq<MarkerRecord>, y: seq<MarkerRecord>, p: seq<MarkerRecord>, q: seq<MarkerRecord>, r: seq<MarkerRecord>)
    requires p == h + r && r == x + y && q == h + x
    ensures p == q + y
  {
  }

  /** One step of the filter: the head's fate, then the rest. */
  lemma WithoutIdStep(saved: seq<MarkerRecord>, id: MarkerId)
    requires saved != []
    ensures WithoutId(saved, id) == (if saved[0].markerId == id then [] else [saved[0]]) + WithoutId(saved[1..], id)
  {
  }

  /** `prev.map((m) => m.marker_id === id ? f(m) : m)`. */
  function UpdateWhere(saved: seq<MarkerRecord>, id: MarkerId, f: MarkerRecord -> MarkerRecord): seq<MarkerRecord> {
    if saved == [] then [] else [if saved[0].markerId == id then f(saved[0]) else saved[0]] + UpdateWhere(saved[1..], id, f)
  }

  /** The rewrite keeps the list's length and position order, and touches only the records carrying `id`. */
  lemma {:induction false} UpdateWhereOnlyMatching(saved: seq<MarkerRecord>, id: MarkerId, f: MarkerRecord -> MarkerRecord)
    ensures |UpdateWhere(saved, id, f)| == |saved|
    ensures forall i :: 0 <= i < |saved| && saved[i].markerId != id ==> UpdateWhere(saved, id, f)[i] == saved[i]
    ensures forall i :: 0 <= i < |saved| && saved[i].markerId == id ==> UpdateWhere(saved, id, f)[i] == f(saved[i])
  {
    if saved != [] {
      UpdateWhereOnlyMatching(saved[1..], id, f);
    }
  }

  /** A rewrite that keeps each record's own id keeps the list of ids. */
  lemma UpdateWhereKeepsIds(saved: seq<MarkerRecord>, id: MarkerId, f: MarkerRecord -> MarkerRecord)
    requires forall m :: f(m).markerId == m.markerId
    ensures Ids(UpdateWhere(saved, id, f)) == Ids(saved)
  {
    UpdateWhereOnlyMatching(saved, id, f);
  }

  /** With no record carrying `id`, the rewrite changes nothing. */
  lemma UpdateWhereAbsent(saved: seq<MarkerRecord>, id: MarkerId, f: MarkerRecord -> MarkerRecord)
    requires CountId(saved, id) == 0
    ensures UpdateWhere(saved, id, f) == saved
  {
    UpdateWhereOnlyMatching(saved, id, f);
    CountZeroMeansAbsent(saved, id);
  }

  /** A count of zero means no record carries the id. */
  lemma {:induction false} CountZeroMeansAbsent(saved: seq<MarkerRecord>, id: MarkerId)
    ensures CountId(saved, id) == 0 <==> forall i :: 0 <= i < |saved| ==> saved[i].markerId != id
  {
    if saved != [] {
      CountZeroMeansAbsent(saved[1..], id);
      assert forall i :: 1 <= i < |saved| ==> saved[i] == saved[1..][i - 1];
    }
  }

  /** Filtering out an id that no record carries changes nothing. */
  lemma {:induction false} WithoutAbsentId(saved: seq<MarkerRecord>, id: MarkerId)
    requires forall i :: 0 <= i < |saved| ==> saved[i].markerId != id
    ensures WithoutId(saved, id) == saved
  {
    if saved != [] {
      WithoutAbsentId(saved[1..], id);
    }
  }

  /**
   * Deleting undoes a create: a record appended under an id no other record
   * carries is removed again by filtering on that id, and nothing else is.
   */
  lemma {:induction false} DeleteUndoesAppend(saved: seq<MarkerRecord>, rec: MarkerRecord)
    requires forall i :: 0 <= i < |saved| ==> saved[i].markerId != rec.markerId
    ensures WithoutId(saved + [rec], rec.markerId) == saved
  {
    if saved == [] {
      assert [rec][1..] == [];
    } else {
      assert (saved + [rec])[1..] == saved[1..] + [rec];
      DeleteUndoesAppend(saved[1..], rec);
    }
  }
}
