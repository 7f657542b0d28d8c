# SimpleWall, modelled in Dafny

This project models the `SimpleWall` element of the clay BIM library. A wall is a straight
segment between a start point and an end point. It has a height and an extruded rectangular
body. The body's depth is the wall height, its profile is the wall length by the width of the
wall's shared type, and it carries an ordered list of half-space subtractions that miter its
corners. The model covers:

- the derived quantities `length`, `midPoint` and `direction`, and the recomputation done by
  `update`;
- the opening bindings. Each bound opening is stored under its id with a signed distance along
  the wall axis; `setOpening`/`addOpening` bind it, `removeOpening` unbinds it, and
  `updateAllOpenings` puts it back on the axis;
- the geometry-id swap done when a wall's mesh has been regenerated;
- corner resolution between two walls: `extend` casts a ray from one wall's end point onto the
  other wall's axis plane, and `addCorner` adds one mitering half-space to each body.

Files:

- `values.dfy`: `Option` (JavaScript `null`/`undefined`) and `Number` (a real, or NaN/Infinity
  after a division by zero).
- `vectors.dfy`: 3D vectors, planes and rays. It also defines `Math`, a record of the
  floating-point primitives the wall calls: square root, `atan2`, `asin`, `sin`, pi, the
  projection onto a plane and the ray–plane intersection. These are left uninterpreted except
  for the laws the code relies on (`Math.Lawful`).
- `registry.dfy`: the map operations of the geometry-id swap.
- `openings.dfy`: the wall plane, the signed distance and the placement rule for openings.
- `corners.dfy`: the axis-convention conversions, the ray cast of `extend`, `angle2`, the
  corner sign and the two half-spaces of `addCorner`.
- `simple_wall.dfy`: the classes `WallType`, `Opening` and `SimpleWall`. The wall's methods
  update its fields in place.

The model follows the code literally, including these behaviours:

- Openings take the yaw the wall had before `update` recomputes it, not the new yaw.
- Both half-spaces of `addCorner` use this wall's width.
- `extend` at the start point casts from the start point mirrored in `y`. So even parallel
  walls can meet there: the start point mirrored in `y` is returned when it lies on the other
  wall's axis (`Corners.ParallelStartExample`).
- The stored opening distance is a 3D distance. Binding an opening and re-placing it without
  moving the wall returns it to its position when it lies on the wall's axis line, horizontal or
  sloped (`Openings.PlacementRoundTrip`). On a horizontal wall, that holds only when the opening
  stands at the wall's height; openings at other heights drift along the wall
  (`Openings.PlacementIgnoresHeight`).
- The geometry-id callback moves only the first geometry id's entries in the type's maps to
  the new id. Any further ids leave the wall's list but stay in both type maps
  (`Walls.SimpleWall.SwapGeometryID`).
- `update` is idempotent only once the openings already carry the wall's yaw. A call that
  changes the yaw leaves the openings one yaw behind until the next call.

## Model

| member | source | states |
|---|---|---|
| Vectors.MidPoint | src/elements/Walls/SimpleWall/src/index.ts:35-41 | the midpoint is as far from the start point as the end point is from it, component by component |
| Vectors.LengthFacts | src/elements/Walls/SimpleWall/src/index.ts:31-33 | a length is a non-negative root of the squared length and is zero only for the zero vector |
| Vectors.DistanceFacts | src/elements/Walls/SimpleWall/src/index.ts:31-33 | `length` (distanceTo) is non-negative, squares to the squared difference, and is zero exactly when the end points coincide |
| Vectors.NormalizeFacts | src/elements/Walls/SimpleWall/src/index.ts:43-48 | for end points that differ, `direction` is the difference divided by its positive length; it has unit length and scales back to the difference |
| Vectors.NormalizeOrigin | src/elements/Walls/SimpleWall/src/index.ts:43-48 | when the end points coincide, `direction` is the zero vector (normalize divides by 1 instead of 0) |
| Vectors.PlaneThrough | src/elements/Walls/SimpleWall/src/index.ts:119-122 | the plane built from a normal and a coplanar point has that normal and contains that point |
| Vectors.PlaneFromCoplanarPoints | src/elements/Walls/SimpleWall/src/index.ts:225-229 | the plane built from three points contains all three |
| Registry.Lookup | src/elements/Walls/SimpleWall/src/index.ts:275 | `get` yields a value exactly for a key that is present, and then the stored value |
| Registry.Delete | src/elements/Walls/SimpleWall/src/index.ts:276 | `delete` removes the key, if there is one, and keeps every other entry unchanged |
| Registry.Rekey | src/elements/Walls/SimpleWall/src/index.ts:275-281 | after get/delete/set, the new id holds what the old id held (or undefined), the old id is gone, and every other key and value is unchanged |
| Registry.RekeyKeepsSize | src/elements/Walls/SimpleWall/src/index.ts:275-281 | when the old id was present and the new id absent, the map keeps its number of entries |
| Registry.RekeyBack | src/elements/Walls/SimpleWall/src/index.ts:275-281 | swapping back to the old id restores the original map |
| Openings.WallPlane | src/elements/Walls/SimpleWall/src/index.ts:225-229 | the plane setOpening projects onto contains the start point, the end point and the point one unit above the start, and its normal is horizontal |
| Openings.WallPlaneNormal | src/elements/Walls/SimpleWall/src/index.ts:225-229 | for a wall whose end points differ and are at one height, that plane's normal is the normalised horizontal perpendicular of the axis, of unit length |
| Openings.OnWallPlane | src/elements/Walls/SimpleWall/src/index.ts:229-231 | a point of that plane at the wall's height lies, in plan, on the wall's axis line |
| Openings.SignedDistanceSign | src/elements/Walls/SimpleWall/src/index.ts:238-242 | the stored distance has the magnitude of the distance from the start point; it is positive exactly when the dot product with the direction is positive, and negative exactly when that product is 0 or less at a point other than the start |
| Openings.HorizontalDirection | src/elements/Walls/SimpleWall/src/index.ts:43-48 | the direction of a wall with both end points at one height is a horizontal unit vector |
| Openings.PlacementRoundTrip | src/elements/Walls/SimpleWall/src/index.ts:249-262 | an opening on the axis of a wall, horizontal or sloped, is placed back exactly where it was by its signed distance |
| Openings.AxisPoint | src/elements/Walls/SimpleWall/src/index.ts:253 | a point at the wall's height on its axis line is start + direction * (its offset projected on the direction) |
| Openings.BindThenPlace | src/elements/Walls/SimpleWall/src/index.ts:224-262 | setOpening then updateAllOpenings, with the wall unchanged, leaves an opening at the start point's height exactly at its projected position |
| Openings.PlacementIgnoresHeight | src/elements/Walls/SimpleWall/src/index.ts:238-256 | an opening off the start point's height is re-placed further along the wall: (x, 0, h) comes back at x' with x'^2 = x^2 + h^2 and x' > x |
| Corners.ConversionRoundTrip | src/elements/Walls/SimpleWall/src/index.ts:152-156 | the back-conversion (a, -c, b) inverts the conversion (x, z, -y) of lines 114-118, and vice versa |
| Corners.ToThreeIsRotation | src/elements/Walls/SimpleWall/src/index.ts:108-118 | the axis conversion keeps dot products, and the back-conversion is linear |
| Corners.ReferencePlaneLine | src/elements/Walls/SimpleWall/src/index.ts:104-123 | a converted point lies on the plane built from the other wall exactly when the point lies on that wall's axis line |
| Corners.RayOrigin | src/elements/Walls/SimpleWall/src/index.ts:135-142 | the ray origin converts back to the end point at the end, but to the start point mirrored in y at the start; it matches the plane's conversion only at the end or when y is 0 |
| Corners.RayDirection | src/elements/Walls/SimpleWall/src/index.ts:125-133 | the ray direction converts back to the plan direction outwards at the end and backwards at the start, with z mirrored; it equals the converted direction exactly for horizontal walls |
| Corners.CastPointIsRayPoint | src/elements/Walls/SimpleWall/src/index.ts:144-156 | the converted-back point of the cast ray at t is the chosen end point moved along the corrected direction by t |
| Corners.IntersectionOnOtherWall | src/elements/Walls/SimpleWall/src/index.ts:144-156 | a point extend returns lies on the other wall's axis line, at a non-negative ray parameter |
| Corners.IntersectionMisses | src/elements/Walls/SimpleWall/src/index.ts:144-170 | extend returns null exactly when no point of the ray ahead of its origin reaches the other wall's axis line |
| Corners.IntersectionAtEndOnLine | src/elements/Walls/SimpleWall/src/index.ts:135-156 | an end point already on the other wall's axis line is returned unchanged |
| Corners.IntersectionAtMirroredStartOnLine | src/elements/Walls/SimpleWall/src/index.ts:135-156 | at the start point, a start point whose mirror in y lies on the other wall's axis line is extended to that mirrored point, whatever the directions |
| Corners.HitsOnce | src/elements/Walls/SimpleWall/src/index.ts:144-156 | a ray that reaches the other axis line at exactly one parameter t0 >= 0 yields the point at t0 |
| Corners.CornerExample | src/elements/Walls/SimpleWall/src/index.ts:144-156 | walls (0,0,0)-(5,0,0) and the axis x = 5 meet at (5,0,0) |
| Corners.ExtendEndExample | src/elements/Walls/SimpleWall/src/index.ts:144-156 | extending the end of (0,0,0)-(4,0,0) to the axis x = 5 gives (5,0,0) |
| Corners.ExtendStartExample | src/elements/Walls/SimpleWall/src/index.ts:135-156 | extending the start of (0,2,0)-(4,2,0) to the axis x = -1 gives (-1,-2,0), off the wall's own axis |
| Corners.ParallelExample | src/elements/Walls/SimpleWall/src/index.ts:144-170 | extending the end point of (0,0,0)-(5,0,0) towards the distinct parallel axis y = 3 returns null |
| Corners.ParallelStartExample | src/elements/Walls/SimpleWall/src/index.ts:125-170 | extending the start point of (0,2,0)-(4,2,0) towards the parallel axis y = -2 returns (0,-2,0), the mirrored start point |
| Corners.Angle2Defined | src/elements/Walls/SimpleWall/src/index.ts:179-182 | angle2 is a number exactly when neither direction is zero; otherwise the division gives NaN or Infinity |
| Corners.Angle2OfUnits | src/elements/Walls/SimpleWall/src/index.ts:179-182 | for unit directions angle2 is the arcsine of their dot product |
| Corners.CornerSign | src/elements/Walls/SimpleWall/src/index.ts:184-187 | the sign is 1 or -1 |
| Corners.CornerSignRule | src/elements/Walls/SimpleWall/src/index.ts:184-187 | the sign is -1 exactly when angle2 < 0 at an end point or angle2 > 0 at a start point; the two ends give opposite signs exactly when angle2 is a non-zero number |
| Corners.MiterOffsetSolves | src/elements/Walls/SimpleWall/src/index.ts:195 | the offset width / (2 sin(angle)) is a number exactly when sin(angle) is not 0, and then 2 sin(angle) * offset = width |
| Corners.FirstHalfSpaceSolves | src/elements/Walls/SimpleWall/src/index.ts:194-198 | the first half-space sits width / (2 sin(angle)) before distance1 when sin(angle) is not 0, and is turned by angle and by pi/2 |
| Corners.SecondHalfSpaceSolves | src/elements/Walls/SimpleWall/src/index.ts:200-204 | the second half-space sits width / (2 sin(angle)) beyond sign * distance2 when sin(angle) is not 0, and is turned by angle and by -pi/2 |
| Corners.RightAngleCuts | src/elements/Walls/SimpleWall/src/index.ts:194-204 | at a right angle the cuts sit at distance1 - width/2 and sign * distance2 + width/2 |
| Walls.SimpleWall.FirstGeometry | src/elements/Walls/SimpleWall/src/index.ts:270 | the first geometry id exists exactly when the set is non-empty, and is then the first id inserted |
| Walls.SimpleWall.constructor | src/elements/Walls/SimpleWall/src/index.ts:50-78 | a new wall, given a fresh body without subtractions, has height 3, runs from (0,0,0) to (1,0,0), yaw 0 and position at the origin, has no openings, and has its body's id as its only geometry id, registered in the type's geometry map |
| Walls.SimpleWall.Update | src/elements/Walls/SimpleWall/src/index.ts:80-101 | the profile becomes (length, width), the depth becomes the height, the yaw becomes atan2 of the direction and the position the midpoint; openings are re-placed and take the previous yaw; a synced, aligned wall is left unchanged |
| Walls.SimpleWall.UpdateAllOpenings | src/elements/Walls/SimpleWall/src/index.ts:249-262 | every bound opening gets x and y from start + direction * distance, keeps its z, and takes the wall's current yaw |
| Walls.SimpleWall.SetOpening | src/elements/Walls/SimpleWall/src/index.ts:224-247 | the opening moves to its projection on the wall plane and is bound under its id with its signed distance, replacing only that id's binding |
| Walls.SimpleWall.AddOpening | src/elements/Walls/SimpleWall/src/index.ts:212-216 | binds the opening exactly as setOpening does |
| Walls.SimpleWall.RemoveOpening | src/elements/Walls/SimpleWall/src/index.ts:218-222 | removes only the binding of the opening's id and does not touch the opening |
| Walls.SimpleWall.SwapGeometryID | src/elements/Walls/SimpleWall/src/index.ts:267-282 | the wall's geometry ids become exactly the new id, and both type maps move the entry of the first old id to the new id |
| Walls.SimpleWall.Extend | src/elements/Walls/SimpleWall/src/index.ts:103-171 | returns the intersection of the cast ray with the other wall's plane; on null nothing changes; otherwise the chosen end point moves there, both walls are synced, and no subtraction and no body id changes |
| Walls.SimpleWall.AddCorner | src/elements/Walls/SimpleWall/src/index.ts:173-210 | on a miss nothing changes; on a hit the chosen end point moves to the hit and the other stays, both walls are synced, both bodies keep their ids, and each body gains exactly its half-space, computed from the walls after the extension (one body gains both when the walls are the same) |
| Walls.SimpleWall.CutCorner | src/elements/Walls/SimpleWall/src/index.ts:177-209 | two synced walls stay synced, keep their body ids, and gain the two half-spaces of the corner at the given point |
| Walls.SimpleWall.AppendCuts | src/elements/Walls/SimpleWall/src/index.ts:177-207 | this body gains the first half-space and the other wall's body the second, and nothing else in the bodies changes |
| Walls.SimpleWall.AddSubtraction | src/elements/Walls/SimpleWall/src/index.ts:206-207 | the body gains the half-space at the end of its subtraction list |
| Walls.SimpleWall.UpdateWith | src/elements/Walls/SimpleWall/src/index.ts:163-164 | updating one wall and then another leaves both synced and keeps their subtractions and body ids |

## Left out

- The entity store (`model.get`/`model.set`), the IFC records (`IfcWall`, `IfcUtils`) and
  `uuidv4` are foreign calls. The model keeps no IFC attributes. The body's id stands for its
  express id.
- Mesh regeneration (`StreamMeshes`) is asynchronous. `update`, `addOpening` and
  `removeOpening` only request it, so the model omits that request. Its completion callback is
  `Walls.SimpleWall.SwapGeometryID`, which takes the new geometry id as a parameter.
- The superclass calls (`super.update`, `super.addOpening`, `super.removeOpening`) and the
  `update()` calls of the profile, body, opening and half-space objects belong to classes that
  are not part of this model.
- Replacing the representation's item list in `update` (lines 95-98) goes through the entity
  store and is not modelled.
- The `console.log` in `extend` is output only.
- Floating point: every quantity is a real number. Square root, `atan2`, `asin`, `sin`, pi,
  plane projection and ray–plane intersection are uninterpreted functions with only the laws
  in `Math.Lawful`. Rounding, and `asin` of a value outside [-1, 1], are not modelled.
- The primitives form a `Math` value stored in each wall; two walls used together must share it.
- The `Element` base class is not part of this model. A new wall's yaw and position start at
  zero and its geometry id set starts empty before the body is added.
- Default arguments become explicit parameters: `isEnd = true` of `extend` (line 103) and
  `atTheEndPoint = true` of `addCorner` (line 173) are always passed. The unused
  `updateGeometry` parameter of `update` (line 80) is dropped.
- `src/base/clay-object.ts` holds no logic and is not part of this model.
- Walls.SimpleWall.UpdateAllOpenings: the JavaScript map is visited in insertion order; the
  model visits its keys in an arbitrary order. No opening is bound twice, so the result is the
  same.
- Walls.SimpleWall.Extend: does not state where the openings of either wall end up, only that
  both walls are synced.
- Walls.SimpleWall.AddCorner: does not state where the openings of either wall end up, only
  that both walls are synced.
- Walls.SimpleWall.CutCorner: does not state where the openings end up.
- Walls.SimpleWall.UpdateWith: does not state where the openings end up.
