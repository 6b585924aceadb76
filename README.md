# Label-tab generator of a Gridfinity bin, modelled in Dafny

This project models the label-tab generator of a Fusion 360 Gridfinity bin
generator. The tab is a small ledge on the inside of a bin wall that holds a
printed label. The generator reads a mutable parameter record. It draws the
tab's cross-section as a closed loop of sketch curves. In dimensions mode the
loop is a quadrilateral from root and tip thickness, with either a sharp or a
filleted back corner. In angle mode it is a triangle. The host extrudes the
loop. The generator then picks the tip edges of the extruded body and asks
for fillets on them. A helper picks the scoop face of a bin's inner cutout.

Coordinates are `real`. The sketch plane is parallel to the model's YZ
plane. The model assumes that sketch x is model y and sketch y is model z
(`TabProfile.ToSketch`), as the comments at
lib/gridfinityUtils/binBodyTabGenerator.py:62-64 and :132-133 say. The host's
`modelToSketchSpace` is not part of this model, and other lines of the source
point the other way (see "## Left out").
The host sketch is a class whose `curves` sequence the generator appends to
and deletes from, with a log of every edit. The host component is a class
whose `features` sequence records the fillet features asked for.

Modules:
- `Results`: `Option` and `Result`.
- `TabInput`: the parameter record `BinBodyTabGeneratorInput`, its constants and errors.
- `Sketching`: the host sketch (add line, fillet two lines, delete a curve) and closed chains of curves.
- `TabProfile`: corner derivation, loop assembly in both modes, the back-fillet construction.
- `EdgeSelection`: front-edge selection, the stable sort by height, fillet dispatch, scoop-face selection.
- `TabGenerator`: the whole generator, as specification functions and as imperative methods.

Facts about the code that the model keeps:
- The code validates no parameter. Reading an unset origin, top clearance, width or length raises. The angle-mode divisions are the only failure caused by a parameter's value: a zero tangent raises a division error (`TabProfile.AngleExtents`).
- With a single front edge, the code uses `tabFilletTop` in both modes, not a fixed cosmetic radius.
- The code runs the tip-fillet dispatch in angle mode as well.

## Model

| member | source | states |
|---|---|---|
| TabInput.BinBodyTabGeneratorInput.Params | lib/gridfinityUtils/binBodyTabGeneratorInput.py:17-111 | Each property getter returns its own backing attribute: `width` returns `baseWidth`, `length` returns `baseLength`, `labelAngle` returns `tablabelAngle`, and so on for all thirteen. |
| TabInput.BinBodyTabGeneratorInput.constructor | lib/gridfinityUtils/binBodyTabGeneratorInput.py:6-15 | A new record has the angle method, the default root and tip thickness and back fillet, and top and bottom fillets at half the default tip thickness. Its position is 0 and its overhang and label angles are the constants. Top clearance, width, length and origin are unset, so reading them fails. |
| TabInput.BinBodyTabGeneratorInput.SetTopClearance | lib/gridfinityUtils/binBodyTabGeneratorInput.py:17-23 | After the call the getter returns the value given, unvalidated; every other property is unchanged. |
| TabInput.BinBodyTabGeneratorInput.SetWidth | lib/gridfinityUtils/binBodyTabGeneratorInput.py:25-31 | The width getter returns the value given, unvalidated; every other property is unchanged. |
| TabInput.BinBodyTabGeneratorInput.SetLength | lib/gridfinityUtils/binBodyTabGeneratorInput.py:33-39 | The length getter returns the value given; every other property is unchanged. |
| TabInput.BinBodyTabGeneratorInput.SetOrigin | lib/gridfinityUtils/binBodyTabGeneratorInput.py:41-47 | The origin getter returns the point given; every other property is unchanged. |
| TabInput.BinBodyTabGeneratorInput.SetOverhangAngle | lib/gridfinityUtils/binBodyTabGeneratorInput.py:49-55 | The overhang-angle getter returns the value given; every other property is unchanged. |
| TabInput.BinBodyTabGeneratorInput.SetLabelAngle | lib/gridfinityUtils/binBodyTabGeneratorInput.py:57-63 | The label-angle getter returns the value given; every other property is unchanged. |
| TabInput.BinBodyTabGeneratorInput.SetTabMethod | lib/gridfinityUtils/binBodyTabGeneratorInput.py:65-71 | The method getter returns the string given; every other property is unchanged. |
| TabInput.BinBodyTabGeneratorInput.SetRootThickness | lib/gridfinityUtils/binBodyTabGeneratorInput.py:73-79 | The root-thickness getter returns the value given, zero or negative included; every other property is unchanged. |
| TabInput.BinBodyTabGeneratorInput.SetTipThickness | lib/gridfinityUtils/binBodyTabGeneratorInput.py:81-87 | The tip-thickness getter returns the value given, unvalidated; every other property is unchanged. |
| TabInput.BinBodyTabGeneratorInput.SetTabFilletTop | lib/gridfinityUtils/binBodyTabGeneratorInput.py:89-95 | The top-fillet getter returns the radius given, unvalidated; every other property is unchanged. |
| TabInput.BinBodyTabGeneratorInput.SetTabFilletBottom | lib/gridfinityUtils/binBodyTabGeneratorInput.py:97-103 | The bottom-fillet getter returns the radius given, unvalidated; every other property is unchanged. |
| TabInput.BinBodyTabGeneratorInput.SetTabFilletBack | lib/gridfinityUtils/binBodyTabGeneratorInput.py:105-111 | The back-fillet getter returns the radius given, unvalidated; every other property is unchanged. |
| Sketching.Sketch.AddByTwoPoints | lib/gridfinityUtils/binBodyTabGenerator.py:99-101 | Appends the line between the two points, returns its handle and logs the edit. |
| Sketching.Sketch.AddFillet | lib/gridfinityUtils/binBodyTabGenerator.py:120 | Trims the two lines to the host's tangent points, appends the host's arc and logs it with the radius asked for. No other curve changes. |
| Sketching.Sketch.DeleteMe | lib/gridfinityUtils/binBodyTabGenerator.py:143 | Removes exactly the curve with that handle and logs the deletion. |
| TabProfile.ToSketch | lib/gridfinityUtils/binBodyTabGenerator.py:62-64 | Under the assumed plane mapping, the sketch point's x is the model point's y and its y is the model point's z. |
| TabProfile.SketchPlaneInjective | lib/gridfinityUtils/binBodyTabGenerator.py:62-64 | On the sketch plane (one model x), two model points map to the same sketch point exactly when they are equal. |
| TabProfile.DimensionCorners | lib/gridfinityUtils/binBodyTabGenerator.py:49-97 | The back corners lie on the wall plane y = origin.y and the front corners lie `width` in front of it. The top edge is level at `topClearance` below origin.z. The front edge is `tipThickness` tall and the back edge `rootThickness` tall. |
| TabProfile.WallTangent | lib/gridfinityUtils/binBodyTabGenerator.py:136-139 | The chosen arc endpoint is one of the two endpoints and has the larger sketch x. On a tie it is the arc's end point. |
| TabProfile.WallLow | lib/gridfinityUtils/binBodyTabGenerator.py:110-114 | The temporary wall line's low end lies 0.0001 in front of the bottom-back corner and `10 * tabFilletBack + 1` below it. When the back fillet is drawn, the point is strictly below the corner, so the temporary line runs down the wall. |
| TabProfile.DimensionsProfile | lib/gridfinityUtils/binBodyTabGenerator.py:99-168 | The profile is top, front, bottom and back. It has four curves when `tabFilletBack` is at most 0.001. It has five curves, an arc fourth, exactly when `tabFilletBack` is above 0.001. The back line then runs from the arc's wall endpoint to the top-back corner. |
| TabProfile.DrawDimensionsProfile | lib/gridfinityUtils/binBodyTabGenerator.py:99-163 | The sketch ends up holding the dimensions profile after what it held before. Its log holds the edits in the order the source makes them. |
| TabProfile.SharpLoopClosed | lib/gridfinityUtils/binBodyTabGenerator.py:162-168 | In the sharp-corner branch the four lines form a closed chain. Each ends where the next begins, and the back line ends where the top line begins. |
| TabProfile.FilletLoopClosed | lib/gridfinityUtils/binBodyTabGenerator.py:117-160 | In the back-fillet branch the five curves form a closed chain: top, front, bottom, the arc walked from the bottom line to the wall, then the back line. This holds when the host trims the bottom line to the arc endpoint the code did not pick. |
| TabProfile.FilletConstruction | lib/gridfinityUtils/binBodyTabGenerator.py:110-149 | The temporary wall line starts at bottom-back and ends strictly below it, 0.0001 into the tab. The fillet between the bottom line and it is asked for with radius `tabFilletBack`. It is the only curve deleted, and it is deleted before the back line is added. The back line runs from the arc's wall endpoint to top-back. |
| TabProfile.AngleExtents | lib/gridfinityUtils/binBodyTabGenerator.py:191-192 | The result succeeds exactly when both tangents are non-zero; otherwise it is a division error. The actual width exceeds the nominal width by the edge radius over tan((90° − angle)/2). The actual height times tan(angle) is the actual width. |
| TabProfile.AngleTriangle | lib/gridfinityUtils/binBodyTabGenerator.py:193-211 | line1 and line2 start at the top-back point. line2 and line3 end at the tip, and line1's end is line3's start. line1 runs down by the height and line2 forward by the width. Walked line1, line3, then line2 reversed, the three lines are a closed chain. |
| TabProfile.DrawAngleProfile | lib/gridfinityUtils/binBodyTabGenerator.py:193-204 | The sketch gains the three triangle lines in order. |
| EdgeSelection.Filter | lib/gridfinityUtils/binBodyTabGenerator.py:258 | A comprehension keeps exactly the elements that satisfy the condition, each as many times as the input holds it, and drops every other. It is no longer than its input. |
| EdgeSelection.FilterPrefix | lib/gridfinityUtils/binBodyTabGenerator.py:23-24 | The k-th kept element sits at some index of the input. If every kept element before the k-th has a property, so does every kept element of the input before that index. |
| EdgeSelection.XEdges | lib/gridfinityUtils/binBodyTabGenerator.py:258 | The X-collinear edges are exactly the body's edges that are collinear with X, each with its multiplicity in the body's edge list. |
| EdgeSelection.MinY | lib/gridfinityUtils/binBodyTabGenerator.py:261-262 | Given at least one edge, the smallest minY is attained by an edge of the list and bounds every edge's minY from below. |
| EdgeSelection.FrontEdges | lib/gridfinityUtils/binBodyTabGenerator.py:261-264 | With no X-collinear edge there are no front edges. Otherwise an edge is a front edge exactly when it is X-collinear and its minY is less than 0.001 above the smallest. Each front edge appears as many times as in the X-collinear list, so the number of front edges is fixed. |
| EdgeSelection.ArgMin | lib/gridfinityUtils/binBodyTabGenerator.py:262 | `min` with a key returns an element with the smallest key. It is the first such element. |
| EdgeSelection.ArgMax | lib/gridfinityUtils/binBodyTabGenerator.py:24 | `max` with a key returns an element with the largest key. It is the first such element. |
| EdgeSelection.MinYIsSmallest | lib/gridfinityUtils/binBodyTabGenerator.py:261-262 | Given at least one X-collinear edge, the `min` by minY finds the smallest minY of the list. |
| EdgeSelection.FrontEdgesIncludeTip | lib/gridfinityUtils/binBodyTabGenerator.py:258-264 | Given at least one X-collinear edge, every edge attaining the smallest minY is a front edge, so the front edges are non-empty. |
| EdgeSelection.FrontEdgesNearTip | lib/gridfinityUtils/binBodyTabGenerator.py:258-264 | An edge is a front edge exactly when it is an X-collinear edge within 0.001 of the smallest minY, and no front edge lies below that minimum. |
| EdgeSelection.InsertByZ | lib/gridfinityUtils/binBodyTabGenerator.py:268 | Inserting an edge adds exactly that edge to the list's multiset. |
| EdgeSelection.InsertKeepsDescending | lib/gridfinityUtils/binBodyTabGenerator.py:268 | Inserting into a list sorted by minZ descending keeps it sorted. |
| EdgeSelection.SortByZDesc | lib/gridfinityUtils/binBodyTabGenerator.py:268 | The sorted list is a permutation of its input, ordered by minZ, greatest first. |
| EdgeSelection.TopEdgeHighest | lib/gridfinityUtils/binBodyTabGenerator.py:266-269 | The top edge, first of the sorted list, is a front edge with the greatest minZ. |
| EdgeSelection.BottomEdgeNextHighest | lib/gridfinityUtils/binBodyTabGenerator.py:266-270 | With two or more front edges, the bottom edge is another of the front edges. It has the greatest minZ once the top edge is set aside. |
| EdgeSelection.FilletRequests | lib/gridfinityUtils/binBodyTabGenerator.py:266-302 | With two or more front edges, a top fillet of `tabFilletTop` is requested exactly when it is above 0.001. Independently, a bottom fillet of `tabFilletBottom` is requested exactly when it is above 0.001. With one front edge, a single `tabFilletTop` fillet is requested exactly when it is above 0.001. With none, nothing is requested. Each request is issued at most once: the count is exactly the number of radii above the threshold. The top request comes first and the bottom request last. |
| EdgeSelection.FilletPlan | lib/gridfinityUtils/binBodyTabGenerator.py:258-302 | A body with no X-collinear edge gets no fillet request, and at most two are ever requested. |
| EdgeSelection.Component.CreateFillet | lib/gridfinityUtils/binBodyTabGenerator.py:274-280 | The component gains one named fillet feature on the given edges. |
| EdgeSelection.DispatchFillets | lib/gridfinityUtils/binBodyTabGenerator.py:272-302 | The component gains exactly the planned fillet features, in the source's order. |
| EdgeSelection.InnerCutoutScoopFace | lib/gridfinityUtils/binBodyTabGenerator.py:19-25 | The result is an error exactly when no face is Y-normal. Otherwise the scoop face is a Y-normal face with the smallest minY and the opposite face one with the largest, both drawn from the input faces. On a tie each is the first such face in the input: every Y-normal face before it has a strictly larger minY (strictly smaller for the opposite face). |
| TabGenerator.Profile | lib/gridfinityUtils/binBodyTabGenerator.py:27-242 | A profile is drawn exactly when origin, top clearance and width are set and, in angle mode, both tangents are non-zero. The first failure follows the source's read order: origin, top clearance, width, then the division. Once those three are set, any failure is a division error. A zero tangent can only fail in angle mode. The profile starts at the top-back point. A dimensions profile has the arc branch exactly when `tabFilletBack` is above 0.001 and is a closed chain otherwise. An angle profile is a closed triangle. |
| TabGenerator.Generate | lib/gridfinityUtils/binBodyTabGenerator.py:244-253 | The tab is built exactly when the profile is drawn and the length is set. A profile error comes before an unset length. The body extrudes that profile by the length. |
| TabGenerator.DrawProfile | lib/gridfinityUtils/binBodyTabGenerator.py:27-242 | Reading the record's properties in the source's order, the method returns what `Profile` specifies. On success the fresh sketch holds exactly that profile. Its log gains the edits in source order: in dimensions mode the dimensions log, including the deletion of the temporary line before the back line is added; in angle mode the three line additions. On an error the sketch's curves and log are unchanged, since every error is raised before the first line is drawn. |
| TabGenerator.CreateTab | lib/gridfinityUtils/binBodyTabGenerator.py:27-304 | The imperative generator returns what `Generate` specifies for the record's current values. It adds the planned tip fillets to the component only on success. |

## Left out

- The Fusion 360 host is not modelled. This covers construction planes, sketch creation, extrusion and the body it yields. `CreateTab` takes the extruded body's edges and the fillet engine's answer as inputs.
- Sketch constraints and dimensions (coincident, tangent, horizontal, vertical, distance, angle) are left out. Under the assumed plane mapping the coincident constraints hold of the computed points (`SharpLoopClosed`, `AngleTriangle`), but the model does not check whether the horizontal, vertical and tangent constraints would make the host move any point.
- The sketch plane mapping is an assumption, and the source is not consistent about it. The comment at binBodyTabGenerator.py:55 says sketch x is height (model z). Line 207 makes `line1` horizontal, yet `line1` varies only in model z. Line 208 makes `line2` vertical, yet `line2` varies only in model y. Those two constraints fit the line-55 reading, not the one modelled. The tangent constraint at line 157 is not met exactly by the computed back line either, which has a slight slope. If sketch x were model z, the larger-x test at line 139 (`TabProfile.WallTangent`) would compare the arc endpoints' heights rather than their distance from the wall. It could then pick the arc's other endpoint, and the back line would start away from the wall.
- `math.tan` and `math.radians` are not computed. The tangent is the function parameter `tan`, and radians(90) is the double constant `RIGHT_ANGLE`.
- `geometryUtils.isCollinearToX` and `faceUtils.isYNormal` are not part of this model. Their answers are the flags `collinearToX` and `yNormal`.
- The values of the constants module (default thicknesses, angles, method strings, edge fillet radius) are not part of this model. They enter as a `TabConstants` record.
- Host floating point is modelled as exact reals. Results that differ only by rounding are not distinguished.
- Logging calls and the module-level application and UI handles are left out, being I/O and ambient host state.
- `AddFillet` trims the temporary wall line, but only the trimmed line's coordinates are recorded, since it is deleted right after.
- `FilletLoopClosed` assumes the host trims the bottom line to the arc endpoint the code did not pick. Without that host fact the fillet loop is not closed.
- `position` has no setter in the source. It is a plain field of the record and the generator never reads it.
- `SortByZDesc`: the implementation inserts before equal keys, as Python's stable reverse sort does. Its contract does not state stability, only order and permutation.
- `InsertByZ`: states the multiset only; order preservation is `InsertKeepsDescending`.
- `Filter`: states membership and multiplicity, not that the kept elements stay in input order. `FilterPrefix` states the part of the order that `min` and `max` need.
- The setting of feature and sketch names other than the fillet names is left out. So is the tab body's name.
- The test script that builds a whole bin is not part of this model. It drives a generator outside the tab core.
