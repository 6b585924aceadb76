/**
 The host's 2D sketch, reduced to what the tab generator does with it: it
 adds lines by two points, asks for a fillet arc between two lines, and
 deletes a line. Coordinates are sketch coordinates.
 */
module Sketching {

  /** A sketch-space point. */
  datatype Point = Point(x: real, y: real)

  datatype Segment = Line(start: Point, end: Point) | Arc(start: Point, end: Point)

  /** One edit of the sketch, in the order it was made. */
  datatype SketchOp =
    | AddLine(line: Segment)
    | AddFilletArc(arc: Segment, radius: real)
    | DeleteCurve(curve: Segment)

  /**
   What the host's fillet engine answers for a fillet between a first line
   (ending at the corner) and a second line (starting at it): the arc's two
   endpoints, the new end of the first line and the new start of the second.
   */
  datatype FilletAnswer = FilletAnswer(arcStart: Point, arcEnd: Point, firstEnd: Point, secondStart: Point)

  class Sketch {
    /** The curves now in the sketch; a curve's handle is its index. */
    var curves: seq<Segment>
    /** Every edit made so far. */
    var log: seq<SketchOp>

    constructor ()
      ensures curves == [] && log == []
    {
      curves, log := [], [];
    }

    /** Adds the line p-q and returns its handle. */
    method AddByTwoPoints(p: Point, q: Point) returns (h: nat)
      modifies this
      ensures h == |old(curves)|
      ensures curves == old(curves) + [Line(p, q)]
      ensures log == old(log) + [AddLine(Line(p, q))]
    {
      h := |curves|;
      curves := curves + [Line(p, q)];
      log := log + [AddLine(Line(p, q))];
    }

    /**
     Fillets the corner between lines `first` and `second` with the given
     radius: trims both to the tangent points the host chose and adds the
     arc, returning its handle.
     */
    method AddFillet(first: nat, second: nat, radius: real, answer: FilletAnswer) returns (h: nat)
      requires first < |curves| && second < |curves| && first != second
      modifies this
      ensures h == |old(curves)|
      ensures |curves| == |old(curves)| + 1
      ensures curves[first] == Line(old(curves)[first].start, answer.firstEnd)
      ensures curves[second] == Line(answer.secondStart, old(curves)[second].end)
      ensures curves[h] == Arc(answer.arcStart, answer.arcEnd)
      ensures forall i :: 0 <= i < |old(curves)| && i != first && i != second ==> curves[i] == old(curves)[i]
      ensures log == old(log) + [AddFilletArc(Arc(answer.arcStart, answer.arcEnd), radius)]
    {
      h := |curves|;
      var a := curves[first];
      var b := curves[second];
      curves := curves[first := Line(a.start, answer.firstEnd)];
      curves := curves[second := Line(answer.secondStart, b.end)];
      curves := curves + [Arc(answer.arcStart, answer.arcEnd)];
      log := log + [AddFilletArc(Arc(answer.arcStart, answer.arcEnd), radius)];
    }

    /** Deletes curve h; later handles move down by one. */
    method DeleteMe(h: nat)
      requires h < |curves|
      modifies this
      ensures curves == old(curves)[..h] + old(curves)[h + 1..]
      ensures log == old(log) + [DeleteCurve(old(curves)[h])]
    {
      log := log + [DeleteCurve(curves[h])];
      curves := curves[..h] + curves[h + 1..];
    }
  }

  /**
   A loop whose segments are chained head to tail: every segment ends where
   the next begins, and the last ends where the first begins.
   */
  ghost predicate ClosedChain(s: seq<Segment>)
  {
    |s| > 0 && forall i :: 0 <= i < |s| ==> s[i].end == s[(i + 1) % |s|].start
  }

  /** The same curve traversed the other way. */
  function Reversed(c: Segment): (r: Segment)
    ensures r.start == c.end && r.end == c.start && r.Arc? == c.Arc?
  {
    match c
    case Line(p, q) => Line(q, p)
    case Arc(p, q) => Arc(q, p)
  }
}
