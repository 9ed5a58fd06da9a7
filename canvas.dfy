/**
 * The part of a Tk canvas the tools rely on: `create_line` hands out a fresh
 * integer item ID, and `itemconfig(item, fill=...)` changes an item's colour.
 * Drawing itself is not modelled; the canvas only remembers which segment each
 * line item joins and the order in which fill colours were applied.
 */
module Canvas {

  datatype Point = Point(x: int, y: int)

  type ItemId = int

  type Color = string

  datatype Segment = Segment(from: Point, to: Point)

  /** One `itemconfig(item, fill=color)` call. */
  datatype Fill = Fill(item: ItemId, color: Color)

  class Canvas {
    var nextId: ItemId
    var lines: map<ItemId, Segment>
    var fills: seq<Fill>

    /** Every item handed out so far has an ID below the next one. */
    ghost predicate Valid()
      reads this
    {
      forall id :: id in lines ==> id < nextId
    }

    constructor ()
      ensures Valid()
      ensures lines == map[] && fills == []
    {
      nextId := 1;
      lines := map[];
      fills := [];
    }

    method CreateLine(from: Point, to: Point) returns (id: ItemId)
      requires Valid()
      modifies this
      ensures Valid()
      ensures id !in old(lines)
      ensures lines == old(lines)[id := Segment(from, to)]
      ensures fills == old(fills)
    {
      id := nextId;
      nextId := nextId + 1;
      lines := lines[id := Segment(from, to)];
    }

    method SetFill(item: ItemId, color: Color)
      modifies this
      ensures fills == old(fills) + [Fill(item, color)]
      ensures nextId == old(nextId) && lines == old(lines)
    {
      fills := fills + [Fill(item, color)];
    }
  }
}
