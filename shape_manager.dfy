/**
 * The shape registry: a dictionary from generated shape IDs to shape records.
 * IDs are "shape_1", "shape_2", ... taken from a counter that only grows, and
 * the registry keeps Python's dictionary order, which is insertion order.
 */
module Shapes {
  import opened Wrappers
  import Decimal
  import opened Canvas

  /**
   * One registered shape. `kind` is the record's "type" entry; `closed` is
   * present only for polylines, which are the only records with that entry.
   */
  datatype Shape = Shape(kind: string, points: seq<Point>, items: seq<ItemId>, closed: Option<bool>)

  const IdPrefix := "shape_"

  /** The ID issued when the counter reaches `n`. */
  function ShapeId(n: nat): (id: string)
    ensures |id| > |IdPrefix| && id[..|IdPrefix|] == IdPrefix
  {
    IdPrefix + Decimal.NatToString(n)
  }

  /** Two counter values give the same ID only if they are equal. */
  lemma ShapeIdInjective(a: nat, b: nat)
    ensures ShapeId(a) == ShapeId(b) <==> a == b
  {
    if ShapeId(a) == ShapeId(b) {
      assert ShapeId(a)[|IdPrefix|..] == Decimal.NatToString(a);
      assert ShapeId(b)[|IdPrefix|..] == Decimal.NatToString(b);
      Decimal.NatToStringInjective(a, b);
    }
  }

  /** The shapes of `s` whose type is `t`, in the order of `s`. */
  function FilterByKind(s: seq<Shape>, t: string): (r: seq<Shape>)
    ensures |r| <= |s|
    ensures forall x :: x in r <==> x in s && x.kind == t
  {
    if s == [] then []
    else (if s[0].kind == t then [s[0]] else []) + FilterByKind(s[1..], t)
  }

  /** Filtering distributes over concatenation, so it keeps the relative order of the shapes. */
  lemma {:induction false} FilterByKindAppend(a: seq<Shape>, b: seq<Shape>, t: string)
    ensures FilterByKind(a + b, t) == FilterByKind(a, t) + FilterByKind(b, t)
  {
    if a == [] {
      assert a + b == b;
    } else {
      assert (a + b)[0] == a[0];
      assert (a + b)[1..] == a[1..] + b;
      FilterByKindAppend(a[1..], b, t);
    }
  }

  class ShapeManager {
    var shapes: map<string, Shape>
    var order: seq<string>
    var counter: nat

    /** The registry holds exactly the IDs shape_1 .. shape_counter, in that order. */
    ghost predicate Valid()
      reads this
    {
      && |order| == counter
      && (forall k :: 1 <= k <= |order| ==> order[k - 1] == ShapeId(k) && ShapeId(k) in shapes)
      && (forall id :: id in shapes ==> id in order)
    }

    constructor ()
      ensures Valid()
      ensures shapes == map[] && order == [] && counter == 0
    {
      shapes := map[];
      order := [];
      counter := 0;
    }

    /** Advances the counter and returns the ID for its new value, which no stored shape has. */
    method NewShapeId() returns (id: string)
      requires Valid()
      modifies this`counter
      ensures counter == old(counter) + 1
      ensures id == ShapeId(counter)
      ensures id !in shapes && id !in order
    {
      counter := counter + 1;
      id := ShapeId(counter);
      forall i | 0 <= i < |order|
        ensures order[i] != id
      {
        ShapeIdInjective(i + 1, counter);
      }
    }

    /** Stores `s` under a fresh ID; shared by the three add operations. */
    method Register(s: Shape) returns (id: string)
      requires Valid()
      modifies this
      ensures Valid()
      ensures counter == old(counter) + 1 && id == ShapeId(counter)
      ensures id !in old(shapes)
      ensures shapes == old(shapes)[id := s]
      ensures GetAllShapes() == old(GetAllShapes()) + [s]
      ensures forall t :: GetShapesByType(t) == old(GetShapesByType(t)) + FilterByKind([s], t)
    {
      ghost var before := GetAllShapes();
      id := NewShapeId();
      shapes := shapes[id := s];
      order := order + [id];
      assert GetAllShapes() == before + [s];
      forall t
        ensures GetShapesByType(t) == FilterByKind(before, t) + FilterByKind([s], t)
      {
        FilterByKindAppend(before, [s], t);
      }
    }

    method AddLine(points: seq<Point>, itemIds: seq<ItemId>) returns (id: string)
      requires Valid()
      modifies this
      ensures Valid()
      ensures counter == old(counter) + 1 && id == ShapeId(counter)
      ensures id !in old(shapes)
      ensures shapes == old(shapes)[id := Shape("line", points, itemIds, None)]
      ensures GetAllShapes() == old(GetAllShapes()) + [Shape("line", points, itemIds, None)]
    {
      id := Register(Shape("line", points, itemIds, None));
    }

    method AddPolyline(points: seq<Point>, itemIds: seq<ItemId>, closed: bool := false) returns (id: string)
      requires Valid()
      modifies this
      ensures Valid()
      ensures counter == old(counter) + 1 && id == ShapeId(counter)
      ensures id !in old(shapes)
      ensures shapes == old(shapes)[id := Shape("polyline", points, itemIds, Some(closed))]
      ensures GetAllShapes() == old(GetAllShapes()) + [Shape("polyline", points, itemIds, Some(closed))]
    {
      id := Register(Shape("polyline", points, itemIds, Some(closed)));
    }

    method AddPolygon(points: seq<Point>, itemIds: seq<ItemId>) returns (id: string)
      requires Valid()
      modifies this
      ensures Valid()
      ensures counter == old(counter) + 1 && id == ShapeId(counter)
      ensures id !in old(shapes)
      ensures shapes == old(shapes)[id := Shape("polygon", points, itemIds, None)]
      ensures GetAllShapes() == old(GetAllShapes()) + [Shape("polygon", points, itemIds, None)]
    {
      id := Register(Shape("polygon", points, itemIds, None));
    }

    /** The stored record for a registered ID; None for an ID never issued. */
    function GetShape(id: string): (r: Option<Shape>)
      reads this
      requires Valid()
      ensures r.Some? <==> exists k :: 1 <= k <= counter && id == ShapeId(k)
      ensures r.Some? ==> id in shapes && r.value == shapes[id]
    {
      if id in shapes then
        assert id in order ==> order[ShapeIdIndex(id)] == id && id == ShapeId(ShapeIdIndex(id) + 1);
        Some(shapes[id])
      else
        assert forall k :: 1 <= k <= counter ==> order[k - 1] == ShapeId(k);
        None
    }

    /** The position of a stored ID in the insertion order. */
    ghost function ShapeIdIndex(id: string): (i: nat)
      reads this
      requires id in order
      ensures i < |order| && order[i] == id
    {
      var i :| 0 <= i < |order| && order[i] == id; i
    }

    /** All records in insertion order, which is also the order of their IDs. */
    function GetAllShapes(): (r: seq<Shape>)
      reads this
      requires Valid()
      ensures |r| == counter
      ensures forall k :: 1 <= k <= |r| ==> ShapeId(k) in shapes && r[k - 1] == shapes[ShapeId(k)]
    {
      var m, n := shapes, counter;
      seq(n, i requires 0 <= i < n && ShapeId(i + 1) in m => m[ShapeId(i + 1)])
    }

    /** The stored records of type `t`, in insertion order. */
    function GetShapesByType(t: string): (r: seq<Shape>)
      reads this
      requires Valid()
      ensures forall s :: s in r <==> s in shapes.Values && s.kind == t
    {
      var all := GetAllShapes();
      assert forall s :: s in all <==> s in shapes.Values by {
        forall s | s in shapes.Values ensures s in all {
          var id :| id in shapes && shapes[id] == s;
          var i := ShapeIdIndex(id);
          assert order[i] == ShapeId(i + 1);
          assert all[i] == s;
        }
      }
      FilterByKind(all, t)
    }
  }
}
