/**
 * The three ORM queries the core uses, over a table held as a sequence of
 * rows in primary-key order: `filter`, `filter(...).exists()` and `get`.
 */
module Queries {

  /** `Model.objects.filter(p)`: the positions of the matching rows, in order. */
  function Filter<T>(rows: seq<T>, p: T -> bool): (ids: seq<nat>)
    ensures forall k :: 0 <= k < |ids| ==> ids[k] < |rows| && p(rows[ids[k]])
    ensures forall i :: 0 <= i < |rows| && p(rows[i]) ==> i in ids
    ensures forall k, l :: 0 <= k < l < |ids| ==> ids[k] < ids[l]
  {
    if |rows| == 0 then []
    else
      var rest := Filter(rows[..|rows| - 1], p);
      if p(rows[|rows| - 1]) then rest + [|rows| - 1] else rest
  }

  /** `Model.objects.filter(p).exists()`. */
  predicate Exists<T>(rows: seq<T>, p: T -> bool) {
    exists i :: 0 <= i < |rows| && p(rows[i])
  }

  /** What `Model.objects.get(p)` does: raise, return the one row, or raise. */
  datatype Lookup = DoesNotExist | Found(index: nat) | MultipleObjectsReturned

  /** `Model.objects.get(p)`. */
  function Get<T>(rows: seq<T>, p: T -> bool): (r: Lookup)
    ensures r.DoesNotExist? <==> !Exists(rows, p)
    ensures r.Found? ==> r.index < |rows| && p(rows[r.index])
    ensures r.Found? ==> forall j :: 0 <= j < |rows| && j != r.index ==> !p(rows[j])
    ensures r.MultipleObjectsReturned? <==>
              exists i, j :: 0 <= i < j < |rows| && p(rows[i]) && p(rows[j])
  {
    var ids := Filter(rows, p);
    if |ids| == 0 then DoesNotExist
    else if |ids| == 1 then Found(ids[0])
    else
      assert ids[0] < ids[1];
      MultipleObjectsReturned
  }
}
