/**
 The parameter record of the label-tab generator: a mutable property bag
 whose setters overwrite private backing fields.
 */
module TabInput {
  import opened Results

  /** A model-space point (the host's Point3D). */
  datatype Point3D = Point3D(x: real, y: real, z: real)

  /**
   The values the record takes from the project's constants module. That
   module is not part of this model, so its values are a parameter.
   */
  datatype TabConstants = TabConstants(
    overhangAngle: real,
    labelAngle: real,
    methodAngle: string,
    methodDimensions: string,
    defaultRootThickness: real,
    defaultTipThickness: real,
    defaultFilletBack: real,
    edgeFilletRadius: real)

  /** The errors the generator raises. */
  datatype TabError =
    | Unset(attribute: string)  // a property read before its setter ran
    | ZeroDivision              // a tangent of zero in the angle-mode division
    | EmptySequence             // `min`/`max` over an empty list

  /**
   Everything a getter can observe, one field per property. `None` is an
   attribute that was never assigned: reading it raises.
   */
  datatype TabParams = TabParams(
    topClearance: Option<real>,
    width: Option<real>,
    length: Option<real>,
    origin: Option<Point3D>,
    overhangAngle: real,
    labelAngle: real,
    position: int,
    tabMethod: string,
    rootThickness: real,
    tipThickness: real,
    tabFilletTop: real,
    tabFilletBottom: real,
    tabFilletBack: real)

  class BinBodyTabGeneratorInput {
    // Backing fields, named after the source's private attributes.
    var topClearance: Option<real>
    var baseWidth: Option<real>
    var baseLength: Option<real>
    var origin: Option<Point3D>
    var tabOverhangAngle: real
    var tablabelAngle: real
    var position: int
    var tabMethod: string
    var rootThickness: real
    var tipThickness: real
    var tabFilletTop: real
    var tabFilletBottom: real
    var tabFilletBack: real

    /** What the property getters return, all at once. */
    function Params(): (r: TabParams)
      reads this
      ensures r.topClearance == topClearance && r.width == baseWidth && r.length == baseLength
      ensures r.origin == origin && r.overhangAngle == tabOverhangAngle && r.labelAngle == tablabelAngle
      ensures r.position == position && r.tabMethod == tabMethod
      ensures r.rootThickness == rootThickness && r.tipThickness == tipThickness
      ensures r.tabFilletTop == tabFilletTop && r.tabFilletBottom == tabFilletBottom && r.tabFilletBack == tabFilletBack
    {
      TabParams(topClearance, baseWidth, baseLength, origin, tabOverhangAngle,
                tablabelAngle, position, tabMethod, rootThickness, tipThickness,
                tabFilletTop, tabFilletBottom, tabFilletBack)
    }

    /**
     A new record: the angle method, the default thicknesses and back
     fillet, top and bottom fillets at half the default tip thickness,
     position 0, the angles set through their setters, and no top
     clearance, width, length or origin yet.
     */
    constructor (k: TabConstants)
      ensures Params() == TabParams(
        None, None, None, None, k.overhangAngle, k.labelAngle, 0, k.methodAngle,
        k.defaultRootThickness, k.defaultTipThickness,
        k.defaultTipThickness / 2.0, k.defaultTipThickness / 2.0, k.defaultFilletBack)
    {
      topClearance, baseWidth, baseLength, origin := None, None, None, None;
      tabOverhangAngle := k.overhangAngle;
      tablabelAngle := k.labelAngle;
      position := 0;
      tabMethod := k.methodAngle;
      rootThickness := k.defaultRootThickness;
      tipThickness := k.defaultTipThickness;
      tabFilletTop := k.defaultTipThickness / 2.0;
      tabFilletBottom := k.defaultTipThickness / 2.0;
      tabFilletBack := k.defaultFilletBack;
    }

    // Setters: none validates its argument, each writes its own field only.

    method SetTopClearance(v: real)
      modifies this
      ensures Params() == old(Params()).(topClearance := Some(v))
    {
      topClearance := Some(v);
    }

    method SetWidth(v: real)
      modifies this
      ensures Params() == old(Params()).(width := Some(v))
    {
      baseWidth := Some(v);
    }

    method SetLength(v: real)
      modifies this
      ensures Params() == old(Params()).(length := Some(v))
    {
      baseLength := Some(v);
    }

    method SetOrigin(v: Point3D)
      modifies this
      ensures Params() == old(Params()).(origin := Some(v))
    {
      origin := Some(v);
    }

    method SetOverhangAngle(v: real)
      modifies this
      ensures Params() == old(Params()).(overhangAngle := v)
    {
      tabOverhangAngle := v;
    }

    method SetLabelAngle(v: real)
      modifies this
      ensures Params() == old(Params()).(labelAngle := v)
    {
      tablabelAngle := v;
    }

    method SetTabMethod(v: string)
      modifies this
      ensures Params() == old(Params()).(tabMethod := v)
    {
      tabMethod := v;
    }

    method SetRootThickness(v: real)
      modifies this
      ensures Params() == old(Params()).(rootThickness := v)
    {
      rootThickness := v;
    }

    method SetTipThickness(v: real)
      modifies this
      ensures Params() == old(Params()).(tipThickness := v)
    {
      tipThickness := v;
    }

    method SetTabFilletTop(v: real)
      modifies this
      ensures Params() == old(Params()).(tabFilletTop := v)
    {
      tabFilletTop := v;
    }

    method SetTabFilletBottom(v: real)
      modifies this
      ensures Params() == old(Params()).(tabFilletBottom := v)
    {
      tabFilletBottom := v;
    }

    method SetTabFilletBack(v: real)
      modifies this
      ensures Params() == old(Params()).(tabFilletBack := v)
    {
      tabFilletBack := v;
    }
  }
}
