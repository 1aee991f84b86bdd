/**
 * The shapes.txt collection (class Shapes) and its existence query. A shape
 * is not a record of its own: it is the set of points sharing a shape_id.
 */
module ShapesCollection {

  /**
   * One shapes.txt point. Only the identifying column is modelled; the other
   * columns play no part in the lookup. Shape ids are strings compared with
   * plain string equality (PHP's loose == is not modelled).
   */
  datatype ShapePoint = ShapePoint(shape_id: string)

  /** Some point of the collection belongs to the shape id, i.e. the shape has one or more points. */
  predicate HasShape(items: seq<ShapePoint>, id: string) {
    exists i :: 0 <= i < |items| && items[i].shape_id == id
  }

  /** The collection of shape points, kept in insertion order. */
  class Shapes {
    var items: seq<ShapePoint>

    constructor (points: seq<ShapePoint>)
      ensures items == points
    {
      items := points;
    }

    /**
     * existsByID: scans items in order and answers true at the first point
     * whose shape_id equals id, false once the scan is exhausted. `at` is
     * the position where the scan stopped.
     */
    method ExistsById(id: string) returns (found: bool, ghost at: nat)
      ensures found <==> HasShape(items, id)
      ensures found ==> at < |items| && items[at].shape_id == id
      ensures !found ==> at == |items|
      ensures forall j :: 0 <= j < at ==> items[j].shape_id != id
    {
      var i := 0;
      while i < |items|
        invariant 0 <= i <= |items|
        invariant forall j :: 0 <= j < i ==> items[j].shape_id != id
      {
        if items[i].shape_id == id {
          return true, i;
        }
        i := i + 1;
      }
      return false, i;
    }
  }

  /** An empty collection has no shape at all. */
  lemma EmptyHasNoShape(id: string)
    ensures !HasShape([], id)
  {
  }

  /** Appending points never makes a present shape disappear. */
  lemma HasShapeMonotonic(items: seq<ShapePoint>, more: seq<ShapePoint>, id: string)
    requires HasShape(items, id)
    ensures HasShape(items + more, id)
  {
    var i :| 0 <= i < |items| && items[i].shape_id == id;
    assert (items + more)[i] == items[i];
  }
}
