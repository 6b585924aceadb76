/**
 The tab's cross-section: its corner points and the closed loop of sketch
 curves drawn through them, in dimensions mode (sharp or filleted back
 corner) and in angle mode (a triangle).
 */
module TabProfile {
  import opened Results
  import opened TabInput
  import opened Sketching

  /** A fillet radius at or below this disables that fillet. */
  const FILLET_THRESHOLD: real := 0.001
  /** How far the temporary wall line is shifted into the tab. */
  const WALL_EPSILON: real := 0.0001
  /** math.radians(90) as the double the source computes. */
  const RIGHT_ANGLE: real := 1.5707963267948966

  /**
   The sketch plane is parallel to the model's YZ plane: sketch x is model
   y and sketch y is model z.
   */
  function ToSketch(p: Point3D): (q: Point)
    ensures q.x == p.y && q.y == p.z
  {
    Point(p.y, p.z)
  }

  /** On the sketch plane (one model x) the mapping loses nothing: distinct points stay distinct. */
  lemma SketchPlaneInjective(p: Point3D, q: Point3D)
    requires p.x == q.x
    ensures ToSketch(p) == ToSketch(q) <==> p == q
  {
  }

  datatype Corners = Corners(topBack: Point3D, topFront: Point3D, botFront: Point3D, botBack: Point3D)

  /**
   The four corners of a dimensions-mode tab: the back corners sit on the
   wall plane y = origin.y, the front corners `width` in front of it; the
   top edge is level at `topClearance` below the origin, the front edge is
   `tipThickness` tall and the back edge `rootThickness` tall.
   */
  function DimensionCorners(origin: Point3D, topClearance: real, width: real,
                            rootThickness: real, tipThickness: real): (c: Corners)
    ensures c.topBack.x == c.topFront.x == c.botFront.x == c.botBack.x == origin.x
    ensures c.topBack.y == c.botBack.y == origin.y
    ensures c.topFront.y == c.botFront.y == origin.y - width
    ensures c.topBack.z == c.topFront.z == origin.z - topClearance
    ensures c.topFront.z - c.botFront.z == tipThickness
    ensures c.topBack.z - c.botBack.z == rootThickness
  {
    var tabTopEdgeHeight := origin.z - topClearance;
    var yBack := origin.y;
    var yFront := origin.y - width;
    var zTop := tabTopEdgeHeight;
    var zRootBottom := tabTopEdgeHeight - rootThickness;
    var zTipBottom := tabTopEdgeHeight - tipThickness;
    Corners(Point3D(origin.x, yBack, zTop), Point3D(origin.x, yFront, zTop),
            Point3D(origin.x, yFront, zTipBottom), Point3D(origin.x, yBack, zRootBottom))
  }

  /**
   Of the fillet arc's two endpoints, the one on the wall: the one with the
   larger sketch x, the arc's end point on a tie.
   */
  function WallTangent(a: FilletAnswer): (p: Point)
    ensures p == a.arcStart || p == a.arcEnd
    ensures p.x >= a.arcStart.x && p.x >= a.arcEnd.x
    ensures a.arcStart.x == a.arcEnd.x ==> p == a.arcEnd
  {
    if a.arcStart.x > a.arcEnd.x then a.arcStart else a.arcEnd
  }

  /** The other endpoint of the arc: where it meets the bottom edge. */
  function BottomTangent(a: FilletAnswer): (p: Point)
    ensures {p, WallTangent(a)} == {a.arcStart, a.arcEnd}
  {
    if a.arcStart.x > a.arcEnd.x then a.arcEnd else a.arcStart
  }

  /**
   The far end of the temporary wall line: shifted WALL_EPSILON into the
   tab and ten radii plus one unit below the bottom-back corner.
   */
  function WallLow(c: Corners, filletBack: real): (p: Point3D)
    ensures p.x == c.botBack.x && c.botBack.y - p.y == WALL_EPSILON
    ensures c.botBack.z - p.z == 10.0 * filletBack + 1.0
    ensures filletBack > FILLET_THRESHOLD ==> p.z < c.botBack.z
  {
    Point3D(c.botBack.x, c.botBack.y - WALL_EPSILON, c.botBack.z - filletBack * 10.0 - 1.0)
  }

  /** The curves a dimensions-mode profile leaves in the sketch, in order. */
  function DimensionsProfile(c: Corners, filletBack: real, a: FilletAnswer): (r: seq<Segment>)
    ensures |r| == if filletBack > FILLET_THRESHOLD then 5 else 4
    ensures r[0] == Line(ToSketch(c.topBack), ToSketch(c.topFront))
    ensures r[1] == Line(ToSketch(c.topFront), ToSketch(c.botFront))
    ensures r[2].Line? && r[2].start == ToSketch(c.botFront)
    ensures filletBack <= FILLET_THRESHOLD ==>
              r[2].end == ToSketch(c.botBack) && r[3] == Line(ToSketch(c.botBack), ToSketch(c.topBack))
    ensures filletBack > FILLET_THRESHOLD ==>
              r[3] == Arc(a.arcStart, a.arcEnd) && r[4] == Line(WallTangent(a), ToSketch(c.topBack))
  {
    var top := Line(ToSketch(c.topBack), ToSketch(c.topFront));
    var front := Line(ToSketch(c.topFront), ToSketch(c.botFront));
    if filletBack > FILLET_THRESHOLD then
      [top, front, Line(ToSketch(c.botFront), a.firstEnd), Arc(a.arcStart, a.arcEnd),
       Line(WallTangent(a), ToSketch(c.topBack))]
    else
      [top, front, Line(ToSketch(c.botFront), ToSketch(c.botBack)),
       Line(ToSketch(c.botBack), ToSketch(c.topBack))]
  }

  /** The edits a dimensions-mode profile makes to the sketch, in order. */
  function DimensionsLog(c: Corners, filletBack: real, a: FilletAnswer): seq<SketchOp>
  {
    var top := Line(ToSketch(c.topBack), ToSketch(c.topFront));
    var front := Line(ToSketch(c.topFront), ToSketch(c.botFront));
    var bot := Line(ToSketch(c.botFront), ToSketch(c.botBack));
    if filletBack > FILLET_THRESHOLD then
      var low := ToSketch(WallLow(c, filletBack));
      [AddLine(top), AddLine(front), AddLine(bot), AddLine(Line(ToSketch(c.botBack), low)),
       AddFilletArc(Arc(a.arcStart, a.arcEnd), filletBack), DeleteCurve(Line(a.secondStart, low)),
       AddLine(Line(WallTangent(a), ToSketch(c.topBack)))]
    else
      [AddLine(top), AddLine(front), AddLine(bot), AddLine(Line(ToSketch(c.botBack), ToSketch(c.topBack)))]
  }

  /**
   Draws the dimensions-mode profile: top, front and bottom lines, then
   either the straight back line or the back-fillet construction (temporary
   wall line, fillet, delete the temporary line, back line from the arc's
   wall endpoint to the top-back corner).
   */
  method DrawDimensionsProfile(sk: Sketch, c: Corners, filletBack: real, a: FilletAnswer)
    modifies sk
    ensures sk.curves == old(sk.curves) + DimensionsProfile(c, filletBack, a)
    ensures sk.log == old(sk.log) + DimensionsLog(c, filletBack, a)
  {
    var lTop := sk.AddByTwoPoints(ToSketch(c.topBack), ToSketch(c.topFront));
    var lFront := sk.AddByTwoPoints(ToSketch(c.topFront), ToSketch(c.botFront));
    var lBot := sk.AddByTwoPoints(ToSketch(c.botFront), ToSketch(c.botBack));
    if filletBack > FILLET_THRESHOLD {
      var pWallLow := WallLow(c, filletBack);
      var lWallTemp := sk.AddByTwoPoints(ToSketch(c.botBack), ToSketch(pWallLow));
      var arc := sk.AddFillet(lBot, lWallTemp, filletBack, a);
      var pWallTan := WallTangent(a);
      sk.DeleteMe(lWallTemp);
      var lBack := sk.AddByTwoPoints(pWallTan, ToSketch(c.topBack));
    } else {
      var lBack := sk.AddByTwoPoints(ToSketch(c.botBack), ToSketch(c.topBack));
    }
  }

  /** With a back fillet at or below the threshold the four lines close up. */
  lemma SharpLoopClosed(c: Corners, filletBack: real, a: FilletAnswer)
    requires filletBack <= FILLET_THRESHOLD
    ensures ClosedChain(DimensionsProfile(c, filletBack, a))
  {
    var r := DimensionsProfile(c, filletBack, a);
    assert (3 + 1) % 4 == 0;
  }

  /**
   With a back fillet, if the host trims the bottom line to the arc's
   non-wall endpoint, then top, front, bottom, the arc (walked from the
   bottom line to the wall) and the back line close up.
   */
  lemma FilletLoopClosed(c: Corners, filletBack: real, a: FilletAnswer)
    requires filletBack > FILLET_THRESHOLD
    requires a.firstEnd == BottomTangent(a)
    ensures var r := DimensionsProfile(c, filletBack, a);
            var arc := if r[3].start == a.firstEnd then r[3] else Reversed(r[3]);
            ClosedChain([r[0], r[1], r[2], arc, r[4]])
  {
    var r := DimensionsProfile(c, filletBack, a);
    var arc := if r[3].start == a.firstEnd then r[3] else Reversed(r[3]);
    var s := [r[0], r[1], r[2], arc, r[4]];
    assert arc.start == a.firstEnd && arc.end == WallTangent(a);
    forall i | 0 <= i < 5
      ensures s[i].end == s[(i + 1) % 5].start
    {
      if i == 4 { assert (i + 1) % 5 == 0; } else { assert (i + 1) % 5 == i + 1; }
    }
  }

  /**
   The back-fillet construction: the temporary wall line starts at the
   bottom-back corner and runs strictly below it, shifted into the tab; the
   arc between it and the bottom line is asked for with radius filletBack;
   the temporary line is deleted before the back line is added, and nothing
   else is deleted; the back line runs from the arc's wall endpoint to the
   top-back corner.
   */
  lemma FilletConstruction(c: Corners, filletBack: real, a: FilletAnswer)
    requires filletBack > FILLET_THRESHOLD
    ensures var log := DimensionsLog(c, filletBack, a);
            var low := ToSketch(WallLow(c, filletBack));
            |log| == 7 &&
            log[3] == AddLine(Line(ToSketch(c.botBack), low)) &&
            low.y < ToSketch(c.botBack).y && low.x == ToSketch(c.botBack).x - WALL_EPSILON &&
            log[4] == AddFilletArc(Arc(a.arcStart, a.arcEnd), filletBack) &&
            log[5] == DeleteCurve(Line(a.secondStart, low)) &&
            log[6] == AddLine(Line(WallTangent(a), ToSketch(c.topBack))) &&
            forall k :: 0 <= k < |log| && log[k].DeleteCurve? ==> k == 5
  {
  }

  /**
   The angle-mode extents: the width grown so the tip's edge fillet of
   radius `edgeRadius` keeps the nominal width, and the height that gives
   the overhang angle. The source's math.tan is the parameter `tan`; a zero
   tangent raises ZeroDivision.
   */
  function AngleExtents(width: real, edgeRadius: real, overhangAngle: real, tan: real -> real)
    : (r: Result<(real, real), TabError>)
    ensures r.Ok? <==> tan((RIGHT_ANGLE - overhangAngle) / 2.0) != 0.0 && tan(overhangAngle) != 0.0
    ensures r.Err? ==> r.error == ZeroDivision
    ensures r.Ok? ==> (r.value.0 - width) * tan((RIGHT_ANGLE - overhangAngle) / 2.0) == edgeRadius
    ensures r.Ok? ==> r.value.1 * tan(overhangAngle) == r.value.0
  {
    var halfTan := tan((RIGHT_ANGLE - overhangAngle) / 2.0);
    if halfTan == 0.0 then Err(ZeroDivision)
    else
      var actualTabWidth := width + edgeRadius / halfTan;
      var overhangTan := tan(overhangAngle);
      if overhangTan == 0.0 then Err(ZeroDivision)
      else Ok((actualTabWidth, actualTabWidth / overhangTan))
  }

  /**
   The angle-mode triangle: line1 runs down the wall by `height`, line2
   runs forward along the top by `width`, and line3 joins line1's foot to
   line2's tip. Walked line1, line3, then line2 backwards, it is closed.
   */
  function AngleTriangle(origin: Point3D, tabTopEdgeHeight: real, width: real, height: real)
    : (r: seq<Segment>)
    ensures |r| == 3 && r[0].Line? && r[1].Line? && r[2].Line?
    ensures r[0].start == r[1].start == ToSketch(Point3D(origin.x, origin.y, tabTopEdgeHeight))
    ensures r[1].end == r[2].end && r[0].end == r[2].start
    ensures r[0].start.x == r[0].end.x && r[0].start.y - r[0].end.y == height
    ensures r[1].start.y == r[1].end.y && r[1].start.x - r[1].end.x == width
    ensures ClosedChain([r[0], r[2], Reversed(r[1])])
  {
    var top := Point3D(origin.x, origin.y, tabTopEdgeHeight);
    var foot := Point3D(origin.x, origin.y, tabTopEdgeHeight - height);
    var tip := Point3D(origin.x, origin.y - width, tabTopEdgeHeight);
    var r := [Line(ToSketch(top), ToSketch(foot)), Line(ToSketch(top), ToSketch(tip)),
              Line(ToSketch(foot), ToSketch(tip))];
    assert (2 + 1) % 3 == 0;
    r
  }

  /** Draws the angle-mode triangle's three lines. */
  method DrawAngleProfile(sk: Sketch, origin: Point3D, tabTopEdgeHeight: real, width: real, height: real)
    modifies sk
    ensures sk.curves == old(sk.curves) + AngleTriangle(origin, tabTopEdgeHeight, width, height)
    ensures sk.log == old(sk.log) + seq(3, i requires 0 <= i < 3 =>
                        AddLine(AngleTriangle(origin, tabTopEdgeHeight, width, height)[i]))
  {
    var line1 := sk.AddByTwoPoints(
      ToSketch(Point3D(origin.x, origin.y, tabTopEdgeHeight)),
      ToSketch(Point3D(origin.x, origin.y, tabTopEdgeHeight - height)));
    var line2 := sk.AddByTwoPoints(
      ToSketch(Point3D(origin.x, origin.y, tabTopEdgeHeight)),
      ToSketch(Point3D(origin.x, origin.y - width, tabTopEdgeHeight)));
    var line3 := sk.AddByTwoPoints(
      ToSketch(Point3D(origin.x, origin.y, tabTopEdgeHeight - height)),
      ToSketch(Point3D(origin.x, origin.y - width, tabTopEdgeHeight)));
  }
}
