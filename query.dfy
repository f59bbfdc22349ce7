/**
 * The two ways the core reads a table: every row satisfying a predicate (`getResultList`)
 * and at most one row satisfying it (`uniqueResult`, which throws when two rows match).
 */
module Query {

  /** The outcome of `uniqueResult()`: no row (`null`), its one row, or `NonUniqueResultException`. */
  datatype Lookup = Absent | Unique(index: nat) | NonUnique

  /** The indices of the rows satisfying `p`, in table order. */
  function Hits<T>(rows: seq<T>, p: T -> bool): (r: seq<nat>)
    ensures forall k :: 0 <= k < |r| ==> r[k] < |rows| && p(rows[r[k]])
    ensures forall i :: 0 <= i < |rows| && p(rows[i]) ==> i in r
    ensures forall k, l :: 0 <= k < l < |r| ==> r[k] < r[l]
    decreases |rows|
  {
    if rows == [] then []
    else
      var rest := Hits(rows[..|rows| - 1], p);
      if p(rows[|rows| - 1]) then rest + [|rows| - 1] else rest
  }

  /** `uniqueResult()` of the query selecting the rows that satisfy `p`. */
  function UniqueResult<T>(rows: seq<T>, p: T -> bool): (r: Lookup)
    ensures r.Absent? <==> forall i :: 0 <= i < |rows| ==> !p(rows[i])
    ensures r.Unique? ==> r.index < |rows| && p(rows[r.index])
    ensures r.Unique? ==> forall i :: 0 <= i < |rows| && p(rows[i]) ==> i == r.index
    ensures r.NonUnique? <==> exists i, j :: 0 <= i < j < |rows| && p(rows[i]) && p(rows[j])
  {
    var hits := Hits(rows, p);
    if |hits| == 0 then Absent
    else if |hits| == 1 then Unique(hits[0])
    else
      assert p(rows[hits[0]]) && p(rows[hits[1]]);
      NonUnique
  }
}
