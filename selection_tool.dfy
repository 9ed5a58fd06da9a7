/**
 * The rectangle-selection tool. Two clicks give the corners of an inclusive,
 * axis-aligned box; a registered shape is selected when all of its points lie
 * in the box, and the selection is the concatenation of the canvas items of
 * the selected shapes, in registry order.
 */
module Selection {
  import opened Wrappers
  import opened Canvas
  import opened Shapes
  import Theme

  /** The normalised selection rectangle; bounds are inclusive. */
  datatype Box = Box(minX: int, maxX: int, minY: int, maxY: int)

  function Min(a: int, b: int): int {
    if a <= b then a else b
  }

  function Max(a: int, b: int): int {
    if a <= b then b else a
  }

  /** The box spanned by two click positions, whichever corners they are. */
  function BoxOf(a: Point, b: Point): (r: Box)
    ensures r.minX <= r.maxX && r.minY <= r.maxY
    ensures (r.minX, r.maxX) == (a.x, b.x) || (r.minX, r.maxX) == (b.x, a.x)
    ensures (r.minY, r.maxY) == (a.y, b.y) || (r.minY, r.maxY) == (b.y, a.y)
  {
    Box(Min(a.x, b.x), Max(a.x, b.x), Min(a.y, b.y), Max(a.y, b.y))
  }

  /** Swapping the two corners gives the same box. */
  lemma BoxOfSymmetric(a: Point, b: Point)
    ensures BoxOf(a, b) == BoxOf(b, a)
  {
  }

  predicate InBox(p: Point, box: Box) {
    box.minX <= p.x <= box.maxX && box.minY <= p.y <= box.maxY
  }

  /** `v` lies between `u` and `w`, ends included, in either order. */
  predicate Between(v: int, u: int, w: int) {
    (u <= v <= w) || (w <= v <= u)
  }

  /** A point is in the box of two corners iff each coordinate lies between the corners' coordinates. */
  lemma InBoxOfIffBetween(p: Point, a: Point, b: Point)
    ensures InBox(p, BoxOf(a, b)) <==> Between(p.x, a.x, b.x) && Between(p.y, a.y, b.y)
  {
  }

  /** Every point lies in the box; vacuously true for no points. */
  predicate AllInBox(points: seq<Point>, box: Box) {
    forall i :: 0 <= i < |points| ==> InBox(points[i], box)
  }

  /** The containment test: scan the points and stop at the first one outside the box. */
  method IsInside(points: seq<Point>, box: Box) returns (inside: bool)
    ensures inside <==> AllInBox(points, box)
  {
    inside := true;
    var i := 0;
    while i < |points|
      invariant 0 <= i <= |points|
      invariant inside
      invariant forall j :: 0 <= j < i ==> InBox(points[j], box)
    {
      if !InBox(points[i], box) {
        inside := false;
        break;
      }
      i := i + 1;
    }
  }

  /** The items of the shapes that lie in the box, concatenated in the order of `shapes`. */
  function SelectedItems(shapes: seq<Shape>, box: Box): seq<ItemId> {
    if shapes == [] then []
    else
      var last := shapes[|shapes| - 1];
      SelectedItems(shapes[..|shapes| - 1], box) + (if AllInBox(last.points, box) then last.items else [])
  }

  /** Selection distributes over concatenation: it follows the order of the shapes. */
  lemma {:induction false} SelectedItemsAppend(a: seq<Shape>, b: seq<Shape>, box: Box)
    ensures SelectedItems(a + b, box) == SelectedItems(a, box) + SelectedItems(b, box)
  {
    if b == [] {
      assert a + b == a;
    } else {
      var last := b[|b| - 1];
      assert (a + b)[..|a + b| - 1] == a + b[..|b| - 1];
      assert (a + b)[|a + b| - 1] == last;
      SelectedItemsAppend(a, b[..|b| - 1], box);
    }
  }

  /** An item is selected iff some shape that lies in the box has it. */
  lemma {:induction false} SelectedItemsMember(shapes: seq<Shape>, box: Box, x: ItemId)
    ensures x in SelectedItems(shapes, box) <==>
      exists i :: 0 <= i < |shapes| && AllInBox(shapes[i].points, box) && x in shapes[i].items
  {
    if shapes != [] {
      var init := shapes[..|shapes| - 1];
      SelectedItemsMember(init, box, x);
      if x in SelectedItems(shapes, box) && x !in SelectedItems(init, box) {
        assert AllInBox(shapes[|shapes| - 1].points, box) && x in shapes[|shapes| - 1].items;
      }
      if exists i :: 0 <= i < |shapes| && AllInBox(shapes[i].points, box) && x in shapes[i].items {
        var i :| 0 <= i < |shapes| && AllInBox(shapes[i].points, box) && x in shapes[i].items;
        if i < |init| {
          assert init[i] == shapes[i];
        }
      }
    }
  }

  /** Swapping the two click positions selects the same items. */
  lemma SelectionSymmetric(shapes: seq<Shape>, a: Point, b: Point)
    ensures SelectedItems(shapes, BoxOf(a, b)) == SelectedItems(shapes, BoxOf(b, a))
  {
    BoxOfSymmetric(a, b);
  }

  /** A shape without points counts as inside every box, so all of its items are selected. */
  lemma PointlessShapeSelected(s: Shape, box: Box)
    requires s.points == []
    ensures SelectedItems([s], box) == s.items
  {
    assert [s][..0] == [];
  }

  /** One fill command per item, all in the same colour, in item order. */
  function FillAll(items: seq<ItemId>, color: Color): (r: seq<Fill>)
    ensures |r| == |items|
    ensures forall j :: 0 <= j < |items| ==> r[j] == Fill(items[j], color)
  {
    seq(|items|, j requires 0 <= j < |items| => Fill(items[j], color))
  }

  /** The total number of canvas items of the shapes. */
  function ItemCount(shapes: seq<Shape>): nat {
    if shapes == [] then 0 else ItemCount(shapes[..|shapes| - 1]) + |shapes[|shapes| - 1].items|
  }

  /**
   * The fill commands of a drag preview: shape by shape, each item in the
   * preview colour when its shape lies in the box, else in the shape's own colour.
   */
  function DragFills(shapes: seq<Shape>, box: Box, preview: Color, original: Shape -> Color): seq<Fill> {
    if shapes == [] then []
    else
      var last := shapes[|shapes| - 1];
      DragFills(shapes[..|shapes| - 1], box, preview, original)
        + FillAll(last.items, if AllInBox(last.points, box) then preview else original(last))
  }

  /** The colour a drag preview gives to the items of `s`. */
  function DragColor(s: Shape, box: Box, preview: Color, original: Shape -> Color): Color {
    if AllInBox(s.points, box) then preview else original(s)
  }

  /**
   * A drag preview issues exactly one fill per item of every shape: the fill at
   * the item's position is that item with its shape's drag colour.
   */
  lemma {:induction false} DragFillsAt(shapes: seq<Shape>, box: Box, preview: Color, original: Shape -> Color, i: nat, j: nat)
    requires i < |shapes| && j < |shapes[i].items|
    ensures |DragFills(shapes, box, preview, original)| == ItemCount(shapes)
    ensures ItemCount(shapes[..i]) + j < ItemCount(shapes)
    ensures DragFills(shapes, box, preview, original)[ItemCount(shapes[..i]) + j]
         == Fill(shapes[i].items[j], DragColor(shapes[i], box, preview, original))
  {
    var init := shapes[..|shapes| - 1];
    DragFillsLength(init, box, preview, original);
    if i < |shapes| - 1 {
      assert init[..i] == shapes[..i];
      assert init[i] == shapes[i];
      DragFillsAt(init, box, preview, original, i, j);
    } else {
      assert shapes[..i] == init;
    }
  }

  lemma {:induction false} DragFillsLength(shapes: seq<Shape>, box: Box, preview: Color, original: Shape -> Color)
    ensures |DragFills(shapes, box, preview, original)| == ItemCount(shapes)
  {
    if shapes != [] {
      DragFillsLength(shapes[..|shapes| - 1], box, preview, original);
    }
  }

  /** Fills each of `items`, in order, with `color`. */
  method FillItems(canvas: Canvas, items: seq<ItemId>, color: Color)
    modifies canvas
    ensures canvas.fills == old(canvas.fills) + FillAll(items, color)
    ensures canvas.lines == old(canvas.lines) && canvas.nextId == old(canvas.nextId)
  {
    var j := 0;
    while j < |items|
      invariant 0 <= j <= |items|
      invariant canvas.fills == old(canvas.fills) + FillAll(items[..j], color)
      invariant canvas.lines == old(canvas.lines) && canvas.nextId == old(canvas.nextId)
    {
      canvas.SetFill(items[j], color);
      assert FillAll(items[..j + 1], color) == FillAll(items[..j], color) + [Fill(items[j], color)];
      j := j + 1;
    }
    assert items[..j] == items;
  }

  /** The selection loop: collects the items of every shape inside the box, shape by shape. */
  method SelectInside(all: seq<Shape>, box: Box) returns (ids: seq<ItemId>)
    ensures ids == SelectedItems(all, box)
  {
    ids := [];
    var i := 0;
    while i < |all|
      invariant 0 <= i <= |all|
      invariant ids == SelectedItems(all[..i], box)
    {
      var inside := IsInside(all[i].points, box);
      if inside {
        ids := ids + all[i].items;
      }
      assert all[..i + 1][..i] == all[..i];
      i := i + 1;
    }
    assert all[..i] == all;
  }

  /** The recolouring loop of a drag preview over the registered shapes `all`. */
  method PaintPreview(canvas: Canvas, all: seq<Shape>, box: Box, preview: Color, original: Shape -> Color)
    modifies canvas
    ensures canvas.fills == old(canvas.fills) + DragFills(all, box, preview, original)
    ensures canvas.lines == old(canvas.lines) && canvas.nextId == old(canvas.nextId)
  {
    var i := 0;
    while i < |all|
      invariant 0 <= i <= |all|
      invariant canvas.fills == old(canvas.fills) + DragFills(all[..i], box, preview, original)
      invariant canvas.lines == old(canvas.lines) && canvas.nextId == old(canvas.nextId)
    {
      var shape := all[i];
      var inside := IsInside(shape.points, box);
      var color := if inside then preview else original(shape);
      ghost var done := DragFills(all[..i], box, preview, original);
      FillItems(canvas, shape.items, color);
      assert all[..i + 1][..i] == all[..i] && all[..i + 1][i] == shape;
      assert DragFills(all[..i + 1], box, preview, original) == done + FillAll(shape.items, color);
      i := i + 1;
    }
    assert all[..i] == all;
  }

  class SelectionTool {
    const canvas: Canvas
    const manager: ShapeManager
    const category: string
    var startPoint: Option<Point>
    var selectedItemIds: seq<ItemId>

    constructor (canvas: Canvas, manager: ShapeManager, category: string)
      ensures this.canvas == canvas && this.manager == manager && this.category == category
      ensures startPoint == None && selectedItemIds == []
    {
      this.canvas := canvas;
      this.manager := manager;
      this.category := category;
      startPoint := None;
      selectedItemIds := [];
    }

    /** Anchors the first corner; selection then begins. */
    method OnFirstClick(p: Point) returns (r: bool)
      modifies this`startPoint
      ensures startPoint == Some(p) && r
    {
      startPoint := Some(p);
      r := true;
    }

    /**
     * Recolours every item of every registered shape for the current box:
     * the preview colour for shapes inside it, the shape's own colour
     * (`original`) otherwise. Without a first corner nothing happens.
     */
    method OnDrag(p: Point, theme: Theme.ThemeManager, original: Shape -> Color)
      requires manager.Valid() && theme.Valid()
      modifies canvas
      ensures startPoint.None? ==> canvas.fills == old(canvas.fills)
      ensures startPoint.Some? ==>
        canvas.fills == old(canvas.fills) + DragFills(manager.GetAllShapes(), BoxOf(startPoint.value, p),
                                                      theme.GetColor("selection_preview_color"), original)
      ensures canvas.lines == old(canvas.lines) && canvas.nextId == old(canvas.nextId)
    {
      if startPoint == None {
        return;
      }
      var preview := theme.GetColor("selection_preview_color");
      PaintPreview(canvas, manager.GetAllShapes(), BoxOf(startPoint.value, p), preview, original);
    }

    /**
     * Completes the selection: the selected IDs become exactly the items of the
     * shapes inside the box, in registry order, and each is filled with the
     * selection colour. Always reports that selection is over.
     */
    method OnSecondClick(p: Point, theme: Theme.ThemeManager) returns (r: bool)
      requires startPoint.Some?
      requires manager.Valid() && theme.Valid()
      modifies this`selectedItemIds, canvas
      ensures !r
      ensures selectedItemIds == SelectedItems(manager.GetAllShapes(), BoxOf(startPoint.value, p))
      ensures canvas.fills == old(canvas.fills) + FillAll(selectedItemIds, theme.GetColor("selection_color"))
      ensures canvas.lines == old(canvas.lines) && canvas.nextId == old(canvas.nextId)
    {
      var selectionColor := theme.GetColor("selection_color");
      selectedItemIds := SelectInside(manager.GetAllShapes(), BoxOf(startPoint.value, p));
      FillItems(canvas, selectedItemIds, selectionColor);
      r := false;
    }

    /**
     * Escape abandons the selection (forgets the first corner) and reports that
     * the tool is done; every other key leaves the state alone and reports that
     * the tool stays active.
     */
    method OnKeyboard(key: string) returns (r: bool)
      requires !(key == "Return" && selectedItemIds != [])
      modifies this`startPoint
      ensures key == "Escape" ==> startPoint == None && !r
      ensures key != "Escape" ==> startPoint == old(startPoint) && r
    {
      if key == "Escape" {
        startPoint := None;
        return false;
      }
      return true;
    }
  }
}
