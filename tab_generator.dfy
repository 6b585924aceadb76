/**
 The label-tab generator's entry point: read the parameter record, draw
 the profile, hand the extruded body to the host, and issue the tip
 fillets.
 */
module TabGenerator {
  import opened Results
  import opened TabInput
  import opened Sketching
  import opened TabProfile
  import opened EdgeSelection

  /** What the generator hands to the extrusion: the profile and the distance. */
  datatype TabBody = TabBody(profile: seq<Segment>, extrudeDistance: real)

  /**
   The profile the generator draws for the record's current values, or the
   first error it raises on the way: an unset origin, top clearance or
   width, or (angle mode) a zero tangent.
   */
  function Profile(p: TabParams, k: TabConstants, tan: real -> real, a: FilletAnswer)
    : (r: Result<seq<Segment>, TabError>)
    ensures r.Ok? <==> p.origin.Some? && p.topClearance.Some? && p.width.Some? &&
                       (p.tabMethod != k.methodDimensions ==>
                          AngleExtents(p.width.value, k.edgeFilletRadius, p.overhangAngle, tan).Ok?)
    ensures p.origin.None? ==> r == Err(Unset("origin"))
    ensures p.origin.Some? && p.topClearance.None? ==> r == Err(Unset("topClearance"))
    ensures p.origin.Some? && p.topClearance.Some? && p.width.None? ==> r == Err(Unset("width"))
    ensures r == Err(ZeroDivision) ==> p.tabMethod != k.methodDimensions
    ensures p.origin.Some? && p.topClearance.Some? && p.width.Some? && r.Err? ==> r == Err(ZeroDivision)
    ensures r.Ok? ==>
              |r.value| >= 3 &&
              r.value[0].start == Point(p.origin.value.y, p.origin.value.z - p.topClearance.value)
    ensures r.Ok? && p.tabMethod == k.methodDimensions ==>
              (|r.value| == 5 <==> p.tabFilletBack > FILLET_THRESHOLD) &&
              (p.tabFilletBack <= FILLET_THRESHOLD ==> ClosedChain(r.value))
    ensures r.Ok? && p.tabMethod != k.methodDimensions ==>
              |r.value| == 3 && ClosedChain([r.value[0], r.value[2], Reversed(r.value[1])])
  {
    if p.origin.None? then Err(Unset("origin"))
    else if p.topClearance.None? then Err(Unset("topClearance"))
    else
      var origin := p.origin.value;
      var tabTopEdgeHeight := origin.z - p.topClearance.value;
      if p.tabMethod == k.methodDimensions then
        if p.width.None? then Err(Unset("width"))
        else
          var c := DimensionCorners(origin, p.topClearance.value, p.width.value, p.rootThickness, p.tipThickness);
          var s := DimensionsProfile(c, p.tabFilletBack, a);
          assert p.tabFilletBack <= FILLET_THRESHOLD ==> ClosedChain(s) by {
            if p.tabFilletBack <= FILLET_THRESHOLD { SharpLoopClosed(c, p.tabFilletBack, a); }
          }
          Ok(s)
      else if p.width.None? then Err(Unset("width"))
      else
        match AngleExtents(p.width.value, k.edgeFilletRadius, p.overhangAngle, tan)
        case Err(e) => Err(e)
        case Ok(extents) => Ok(AngleTriangle(origin, tabTopEdgeHeight, extents.0, extents.1))
  }

  /**
   The tab the generator builds from the record's current values: the
   profile and the length, or the first error raised, an unset length
   coming after every profile error.
   */
  function Generate(p: TabParams, k: TabConstants, tan: real -> real, a: FilletAnswer): (r: Result<TabBody, TabError>)
    ensures r.Ok? <==> Profile(p, k, tan, a).Ok? && p.length.Some?
    ensures Profile(p, k, tan, a).Err? ==> r == Err(Profile(p, k, tan, a).error)
    ensures Profile(p, k, tan, a).Ok? && p.length.None? ==> r == Err(Unset("length"))
    ensures r.Ok? ==> r.value.extrudeDistance == p.length.value && r.value.profile == Profile(p, k, tan, a).value
  {
    match Profile(p, k, tan, a)
    case Err(e) => Err(e)
    case Ok(s) => if p.length.None? then Err(Unset("length")) else Ok(TabBody(s, p.length.value))
  }

  /**
   Draws the profile for the record in the sketch, reading the record's
   properties in the source's order.
   */
  method DrawProfile(sk: Sketch, input: BinBodyTabGeneratorInput, k: TabConstants, tan: real -> real, a: FilletAnswer)
    returns (r: Result<seq<Segment>, TabError>)
    requires sk.curves == []
    modifies sk
    ensures r == Profile(input.Params(), k, tan, a)
    ensures r.Ok? ==> sk.curves == r.value
    ensures r.Err? ==> sk.curves == old(sk.curves) && sk.log == old(sk.log)
    ensures r.Ok? && input.tabMethod == k.methodDimensions ==>
              sk.log == old(sk.log) + DimensionsLog(DimensionCorners(input.origin.value, input.topClearance.value,
                                                                      input.baseWidth.value, input.rootThickness,
                                                                      input.tipThickness),
                                                    input.tabFilletBack, a)
    ensures r.Ok? && input.tabMethod != k.methodDimensions ==>
              sk.log == old(sk.log) + seq(3, i requires 0 <= i < 3 => AddLine(r.value[i]))
  {
    if input.origin.None? {
      return Err(Unset("origin"));
    }
    var origin := input.origin.value;
    if input.topClearance.None? {
      return Err(Unset("topClearance"));
    }
    var tabTopEdgeHeight := origin.z - input.topClearance.value;
    if input.tabMethod == k.methodDimensions {
      var rootThickness := input.rootThickness;
      var tipThickness := input.tipThickness;
      if input.baseWidth.None? {
        return Err(Unset("width"));
      }
      var c := DimensionCorners(origin, input.topClearance.value, input.baseWidth.value, rootThickness, tipThickness);
      DrawDimensionsProfile(sk, c, input.tabFilletBack, a);
      assert sk.curves == DimensionsProfile(c, input.tabFilletBack, a);
    } else {
      if input.baseWidth.None? {
        return Err(Unset("width"));
      }
      var extents := AngleExtents(input.baseWidth.value, k.edgeFilletRadius, input.tabOverhangAngle, tan);
      if extents.Err? {
        return Err(extents.error);
      }
      DrawAngleProfile(sk, origin, tabTopEdgeHeight, extents.value.0, extents.value.1);
      assert sk.curves == AngleTriangle(origin, tabTopEdgeHeight, extents.value.0, extents.value.1);
    }
    r := Ok(sk.curves);
  }

  /**
   Builds the tab from the record: draws the profile in a new sketch,
   extrudes it by the length, and on the host's extruded body issues the
   fillets for the tip edges in the target component. `tan` is the math
   library's tangent, `a` the fillet engine's answer for the back fillet
   and `bodyEdges` the extruded body's edges.
   */
  method CreateTab(input: BinBodyTabGeneratorInput, k: TabConstants, tan: real -> real, a: FilletAnswer,
                   bodyEdges: seq<BodyEdge>, target: Component)
    returns (r: Result<TabBody, TabError>)
    modifies target
    ensures r == Generate(input.Params(), k, tan, a)
    ensures target.features ==
              old(target.features) + if r.Ok? then FilletPlan(bodyEdges, input.tabFilletTop, input.tabFilletBottom) else []
  {
    var sk := new Sketch();
    var profile := DrawProfile(sk, input, k, tan, a);
    if profile.Err? {
      return Err(profile.error);
    }
    if input.baseLength.None? {
      return Err(Unset("length"));
    }
    r := Ok(TabBody(sk.curves, input.baseLength.value));
    var xEdges := XEdges(bodyEdges);
    if |xEdges| > 0 {
      var frontEdges := FrontEdges(xEdges);
      DispatchFillets(target, frontEdges, input.tabFilletTop, input.tabFilletBottom);
    }
  }
}
