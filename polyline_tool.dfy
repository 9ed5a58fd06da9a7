/**
 * The polyline tool: clicks add points (each click after the first also draws
 * the segment to the new point), Return finishes the polyline, and 'c' closes
 * it back to its first point when it has more than two points. A finished
 * polyline is registered with copies of its points and segment item IDs, and
 * the tool starts over with empty lists.
 */
module Polyline {
  import opened Wrappers
  import opened Canvas
  import Theme

  /** One `add_shape` call made when a polyline is finished. */
  datatype Registration = Registration(
    shapeType: string,
    points: seq<Point>,
    itemIds: seq<ItemId>,
    color: Color,
    width: int,
    closed: bool)

  /**
   * The receiver of `add_shape` calls. The shape registry offers no operation
   * of that name, so registration is modelled as a log of the calls made.
   */
  class ShapeSink {
    var registered: seq<Registration>

    constructor ()
      ensures registered == []
    {
      registered := [];
    }

    method AddShape(r: Registration)
      modifies this
      ensures registered == old(registered) + [r]
    {
      registered := registered + [r];
    }
  }

  /** Keys that finish the polyline. */
  predicate Finishes(key: string) {
    key == "Return" || key == "c"
  }

  /** A key press closes the polyline when it is 'c' and there are more than two points. */
  predicate Closes(key: string, pointCount: nat) {
    key == "c" && pointCount > 2
  }

  /** The points a polyline is registered with: the first point re-appended when the key closes it. */
  function FinishedPoints(points: seq<Point>, key: string): seq<Point>
    requires points != []
  {
    if Closes(key, |points|) then points + [points[0]] else points
  }

  /**
   * A closed polyline ends where it starts and has one more point than was
   * clicked; an open one keeps exactly the clicked points.
   */
  lemma FinishedPointsShape(points: seq<Point>, key: string)
    requires points != []
    ensures var f := FinishedPoints(points, key);
      && f[..|points|] == points
      && (Closes(key, |points|) ==> |f| == |points| + 1 && f[|f| - 1] == f[0])
      && (!Closes(key, |points|) ==> f == points)
  {
  }

  class PolylineTool {
    const canvas: Canvas
    const sink: ShapeSink
    const defaultColor: Color
    const previewColor: Color
    const lineWidth: int
    var points: seq<Point>
    var lineIds: seq<ItemId>

    /** One segment item between each pair of consecutive points, and none without points. */
    ghost predicate Balanced()
      reads this
    {
      if points == [] then lineIds == [] else |lineIds| == |points| - 1
    }

    constructor (canvas: Canvas, sink: ShapeSink, theme: Theme.ThemeManager)
      requires theme.Valid()
      ensures this.canvas == canvas && this.sink == sink
      ensures defaultColor == theme.GetColor("drawing_default")
      ensures previewColor == theme.GetColor("drawing_secondary")
      ensures lineWidth == 2
      ensures points == [] && lineIds == [] && Balanced()
    {
      this.canvas := canvas;
      this.sink := sink;
      defaultColor := theme.GetColor("drawing_default");
      previewColor := theme.GetColor("drawing_secondary");
      lineWidth := 2;
      points := [];
      lineIds := [];
    }

    /** Appends the clicked point, and nothing else. */
    method OnFirstClick(p: Point) returns (r: bool)
      modifies this`points
      ensures points == old(points) + [p]
      ensures lineIds == old(lineIds)
      ensures old(points) == [] && old(Balanced()) ==> Balanced()
      ensures r
    {
      points := points + [p];
      r := true;
    }

    /**
     * Without points, nothing changes and None is returned. Otherwise a segment
     * from the last point to `p` is drawn, its fresh item ID is appended to the
     * line IDs and `p` to the points, and True is returned.
     */
    method OnSecondClick(p: Point) returns (r: Option<bool>)
      requires canvas.Valid()
      modifies this`points, this`lineIds, canvas
      ensures canvas.Valid() && canvas.fills == old(canvas.fills)
      ensures old(points) == [] ==>
        && r == None
        && points == old(points) && lineIds == old(lineIds) && canvas.lines == old(canvas.lines)
      ensures old(points) != [] ==>
        && r == Some(true)
        && points == old(points) + [p]
        && |lineIds| == |old(lineIds)| + 1
        && lineIds == old(lineIds) + [lineIds[|lineIds| - 1]]
        && lineIds[|lineIds| - 1] !in old(canvas.lines)
        && canvas.lines == old(canvas.lines)[lineIds[|lineIds| - 1] := Segment(old(points)[|old(points)| - 1], p)]
      ensures old(Balanced()) ==> Balanced()
    {
      if points == [] {
        return None;
      }
      var last := points[|points| - 1];
      var lineId := canvas.CreateLine(last, p);
      lineIds := lineIds + [lineId];
      points := points + [p];
      return Some(true);
    }

    /**
     * With no points, or a key other than Return and 'c', nothing changes.
     * Return, or 'c' with at most two points, registers the points as an open
     * polyline. 'c' with more than two points first draws the closing segment
     * from the last point to the first, appends its ID and a copy of the first
     * point, and registers a closed polyline. Always returns False.
     */
    method OnKeyboard(key: string) returns (r: bool)
      requires canvas.Valid()
      modifies this`points, this`lineIds, canvas, sink
      ensures canvas.Valid() && canvas.fills == old(canvas.fills)
      ensures !r
      ensures old(points) == [] || !Finishes(key) ==>
        && points == old(points) && lineIds == old(lineIds)
        && canvas.lines == old(canvas.lines) && sink.registered == old(sink.registered)
      ensures old(points) != [] && Finishes(key) && !Closes(key, |old(points)|) ==>
        && points == [] && lineIds == []
        && canvas.lines == old(canvas.lines)
        && sink.registered == old(sink.registered)
             + [Registration("polyline", old(points), old(lineIds), defaultColor, lineWidth, false)]
      ensures old(points) != [] && Closes(key, |old(points)|) ==>
        && points == [] && lineIds == []
        && |sink.registered| == |old(sink.registered)| + 1
        && var reg := sink.registered[|sink.registered| - 1];
        && |reg.itemIds| == |old(lineIds)| + 1
        && var closing := reg.itemIds[|reg.itemIds| - 1];
        && sink.registered == old(sink.registered) + [reg]
        && reg == Registration("polyline", FinishedPoints(old(points), key), old(lineIds) + [closing],
                               defaultColor, lineWidth, true)
        && closing !in old(canvas.lines)
        && canvas.lines == old(canvas.lines)[closing := Segment(old(points)[|old(points)| - 1], old(points)[0])]
      ensures old(points) != [] && Finishes(key) && old(Balanced()) ==>
        var reg := sink.registered[|sink.registered| - 1];
        |reg.itemIds| == |reg.points| - 1
    {
      if points == [] {
        return false;
      }
      if Finishes(key) {
        var close := false;
        if Closes(key, |points|) {
          close := true;
          var finalLine := canvas.CreateLine(points[|points| - 1], points[0]);
          lineIds := lineIds + [finalLine];
          points := points + [points[0]];
        }
        FinishPolyline(close);
      }
      return false;
    }

    /** Registers copies of the current points and line IDs, then empties both lists. */
    method FinishPolyline(close: bool)
      modifies this`points, this`lineIds, sink
      ensures sink.registered == old(sink.registered)
        + [Registration("polyline", old(points), old(lineIds), defaultColor, lineWidth, close)]
      ensures points == [] && lineIds == []
    {
      sink.AddShape(Registration("polyline", points, lineIds, defaultColor, lineWidth, close));
      points := [];
      lineIds := [];
    }
  }
}
