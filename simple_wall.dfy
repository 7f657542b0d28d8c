/** The SimpleWall element: a straight wall between two points, its extruded rectangular body,
    the openings bound to it by a signed distance along its axis, the geometry-id bookkeeping it
    shares with its wall type, and the corner joints it makes with other walls. */
module Walls {
  import opened Values
  import opened Vectors
  import opened Registry
  import opened Openings
  import opened Corners

  /** The wall type shared by many walls: their width, and the two maps from geometry id to
      fragment and to geometry that every wall of the type rewires when its mesh changes. */
  class WallType {
    var width: real
    var fragments: Slots
    var geometries: Slots

    constructor (width: real, fragments: Slots, geometries: Slots)
      ensures this.width == width && this.fragments == fragments && this.geometries == geometries
    {
      this.width := width;
      this.fragments := fragments;
      this.geometries := geometries;
    }
  }

  /** An opening element: its identifier and the placement fields a wall writes. */
  class Opening {
    const expressID: int
    var position: Vec3
    var rotationZ: real

    constructor (expressID: int, position: Vec3, rotationZ: real)
      ensures this.expressID == expressID && this.position == position && this.rotationZ == rotationZ
    {
      this.expressID := expressID;
      this.position := position;
      this.rotationZ := rotationZ;
    }
  }

  lemma NonEmpty(s: set<int>)
    requires s != {}
    ensures exists x :: x in s
  {
    if forall x :: x !in s {
      assert false;
    }
  }

  datatype RectangleProfile = RectangleProfile(dimensionX: real, dimensionY: real)

  /** The wall's body: a rectangle profile extruded by depth, minus the half-spaces of its
      corners, in the order they were added. */
  datatype Extrusion = Extrusion(expressID: int, profile: RectangleProfile, depth: real, subtractions: seq<HalfSpace>)

  /** An entry of the opening map: the opening and its signed distance from the start point. */
  datatype Binding = Binding(opening: Opening, distance: real)

  class SimpleWall {
    const math: Math
    const wallType: WallType
    var body: Extrusion
    var height: real
    var startPoint: Vec3
    var endPoint: Vec3
    var rotationZ: real
    var position: Vec3
    /** The wall's set of geometry ids, in insertion order. */
    var geometries: seq<int>
    var openings: map<int, Binding>

    /** Every binding is filed under its opening's id, and the geometry ids form a set. */
    ghost predicate Valid()
      reads this`openings, this`geometries
    {
      && (forall id :: id in openings ==> openings[id].opening.expressID == id)
      && (forall i, j :: 0 <= i < j < |geometries| ==> geometries[i] != geometries[j])
    }

    /** The openings bound to the wall. */
    ghost function OpeningObjects(): set<Opening>
      reads this`openings
    {
      set id | id in openings :: openings[id].opening
    }

    /** length: the distance between the end points. */
    function Length(): real
      reads this`startPoint, this`endPoint
    {
      Distance(math, startPoint, endPoint)
    }

    /** midPoint. */
    function MidPoint(): Vec3
      reads this`startPoint, this`endPoint
    {
      Vectors.MidPoint(startPoint, endPoint)
    }

    /** direction: end - start, normalised. */
    function Direction(): Vec3
      reads this`startPoint, this`endPoint
    {
      Normalize(math, Sub(endPoint, startPoint))
    }

    /** The yaw update derives from the direction. */
    function Yaw(): real
      reads this`startPoint, this`endPoint
    {
      math.atan2(Direction().y, Direction().x)
    }

    /** The first geometry id, or undefined when there is none. */
    function FirstGeometry(): (r: Option<int>)
      reads this`geometries
      ensures r.Some? <==> |geometries| > 0
      ensures r.Some? ==> r.value == geometries[0]
    {
      if |geometries| == 0 then None else Some(geometries[0])
    }

    /** The body, yaw and position are the ones the current end points, height and width give. */
    ghost predicate Synced()
      reads this`body, this`height, this`rotationZ, this`position, this`startPoint, this`endPoint, wallType`width
    {
      && body.profile == RectangleProfile(Length(), wallType.width)
      && body.depth == height
      && rotationZ == Yaw()
      && position == MidPoint()
    }

    /** Every bound opening stands where its distance puts it and has the wall's yaw. */
    ghost predicate OpeningsAligned()
      reads this`openings, this`startPoint, this`endPoint, this`rotationZ, OpeningObjects()
    {
      forall id :: id in openings ==>
        && openings[id].opening.position == PlaceOpening(openings[id].opening.position, startPoint, Direction(), openings[id].distance)
        && openings[id].opening.rotationZ == rotationZ
    }

    /** A new wall of height 3 from (0, 0, 0) to (1, 0, 0), whose body is registered in the
        type's geometry map and is its only geometry. */
    constructor (math: Math, wallType: WallType, body: Extrusion)
      requires body.subtractions == []
      modifies wallType`geometries
      ensures this.math == math && this.wallType == wallType && this.body == body
      ensures height == 3.0 && startPoint == Origin && endPoint == Vec3(1.0, 0.0, 0.0)
      ensures rotationZ == 0.0 && position == Origin
      ensures openings == map[] && geometries == [body.expressID]
      ensures wallType.geometries == old(wallType.geometries)[body.expressID := Some(Ref(body.expressID))]
      ensures Valid()
    {
      this.math := math;
      this.wallType := wallType;
      this.body := body;
      height := 3.0;
      startPoint := Origin;
      endPoint := Vec3(1.0, 0.0, 0.0);
      rotationZ := 0.0;
      position := Origin;
      geometries := [];
      openings := map[];
      new;
      var id := body.expressID;
      wallType.geometries := wallType.geometries[id := Some(Ref(id))];
      geometries := geometries + [id];
    }

    /** update: re-place the openings (with the yaw the wall had before this call), then size
        the profile to (length, width), set the depth to the height, and derive yaw and position.
        Afterwards the wall is synced; a wall that was already synced and aligned is unchanged. */
    method Update()
      requires Valid()
      modifies this`body, this`rotationZ, this`position, OpeningObjects()
      ensures Valid()
      ensures body == old(body).(profile := RectangleProfile(Length(), wallType.width), depth := height)
      ensures rotationZ == Yaw() && position == MidPoint()
      ensures forall id :: id in openings ==>
                && openings[id].opening.position == PlaceOpening(old(openings[id].opening.position), startPoint, Direction(), openings[id].distance)
                && openings[id].opening.rotationZ == old(rotationZ)
      ensures Synced()
      ensures old(rotationZ) == rotationZ ==> OpeningsAligned()
      ensures old(Synced() && OpeningsAligned()) ==>
                && body == old(body) && rotationZ == old(rotationZ) && position == old(position)
                && forall id :: id in openings ==>
                     && openings[id].opening.position == old(openings[id].opening.position)
                     && openings[id].opening.rotationZ == old(openings[id].opening.rotationZ)
    {
      UpdateAllOpenings();
      var profile := body.profile.(dimensionX := Length(), dimensionY := wallType.width);
      body := body.(profile := profile);
      body := body.(depth := height);
      var dir := Direction();
      rotationZ := math.atan2(dir.y, dir.x);
      position := MidPoint();
    }

    /** updateAllOpenings: each bound opening gets x and y from start + direction * distance,
        keeps its z, and takes the wall's current yaw. */
    method UpdateAllOpenings()
      requires Valid()
      modifies OpeningObjects()
      ensures forall id :: id in openings ==>
                && openings[id].opening.position == PlaceOpening(old(openings[id].opening.position), startPoint, Direction(), openings[id].distance)
                && openings[id].opening.rotationZ == rotationZ
    {
      var start := startPoint;
      var dir := Direction();
      var todo := openings.Keys;
      while todo != {}
        invariant todo <= openings.Keys
        invariant forall id :: id in openings && id !in todo ==>
                    && openings[id].opening.position == PlaceOpening(old(openings[id].opening.position), start, dir, openings[id].distance)
                    && openings[id].opening.rotationZ == rotationZ
        invariant forall id :: id in todo ==> openings[id].opening.position == old(openings[id].opening.position)
        decreases |todo|
      {
        assert exists id :: id in todo by { NonEmpty(todo); }
        var id :| id in todo;
        var binding := openings[id];
        var pos := Add(Scale(dir, binding.distance), start);
        binding.opening.position := Vec3(pos.x, pos.y, binding.opening.position.z);
        binding.opening.rotationZ := rotationZ;
        todo := todo - {id};
      }
    }

    /** setOpening: project the opening onto the wall's vertical plane, move it there, and bind
        it under its id with its signed distance from the start point, replacing any earlier
        binding of that id and keeping all others. */
    method SetOpening(opening: Opening)
      requires Valid()
      modifies this`openings, opening`position
      ensures Valid()
      ensures opening.position == math.projectPoint(WallPlane(math, startPoint, endPoint), old(opening.position))
      ensures openings == old(openings)[opening.expressID := Binding(opening, SignedDistance(math, startPoint, Direction(), opening.position))]
    {
      var wallPlane := WallPlane(math, startPoint, endPoint);
      var newPosition := math.projectPoint(wallPlane, opening.position);
      opening.position := newPosition;
      var distance := Distance(math, newPosition, startPoint);
      var vector := Sub(newPosition, startPoint);
      var dotProduct := Dot(vector, Direction());
      distance := distance * (if dotProduct > 0.0 then 1.0 else -1.0);
      var id := opening.expressID;
      openings := openings[id := Binding(opening, distance)];
    }

    /** addOpening: bind the opening as setOpening does. */
    method AddOpening(opening: Opening)
      requires Valid()
      modifies this`openings, opening`position
      ensures Valid()
      ensures opening.position == math.projectPoint(WallPlane(math, startPoint, endPoint), old(opening.position))
      ensures openings == old(openings)[opening.expressID := Binding(opening, SignedDistance(math, startPoint, Direction(), opening.position))]
    {
      SetOpening(opening);
    }

    /** removeOpening: drop the binding of the opening's id, and nothing else; the opening keeps
        its position. */
    method RemoveOpening(opening: Opening)
      requires Valid()
      modifies this`openings
      ensures Valid()
      ensures openings == old(openings) - {opening.expressID}
    {
      openings := openings - {opening.expressID};
    }

    /** The updateGeometryID callback, given the id of the regenerated mesh's geometry: the new
        id becomes the wall's only geometry id, and in both type maps the entry of the first old
        id moves to the new id. */
    method SwapGeometryID(newGeomID: int)
      requires Valid()
      modifies this`geometries, wallType`fragments, wallType`geometries
      ensures Valid()
      ensures geometries == [newGeomID]
      ensures wallType.fragments == Rekey(old(wallType.fragments), old(FirstGeometry()), newGeomID)
      ensures wallType.geometries == Rekey(old(wallType.geometries), old(FirstGeometry()), newGeomID)
    {
      var oldGeomID := FirstGeometry();
      geometries := [];
      geometries := geometries + [newGeomID];
      var frag := Lookup(wallType.fragments, oldGeomID);
      wallType.fragments := Delete(wallType.fragments, oldGeomID);
      wallType.fragments := wallType.fragments[newGeomID := frag];
      var geometry := Lookup(wallType.geometries, oldGeomID);
      wallType.geometries := Delete(wallType.geometries, oldGeomID);
      wallType.geometries := wallType.geometries[newGeomID := geometry];
    }

    /** extend: cast a ray from the chosen end point towards the other wall's axis. On a miss
        return None and change nothing; on a hit move the chosen end point there, update this wall
        and then the other, and return the point. */
    method Extend(wall: SimpleWall, isEnd: bool) returns (r: Option<Vec3>)
      requires Valid() && wall.Valid() && wall.math == math
      modifies this`startPoint, this`endPoint, this`body, this`rotationZ, this`position, OpeningObjects()
      modifies wall`body, wall`rotationZ, wall`position, wall.OpeningObjects()
      ensures Valid() && wall.Valid()
      ensures r == Intersection(math, old(startPoint), old(endPoint), old(Direction()), old(wall.startPoint), old(wall.Direction()), isEnd)
      ensures r.None? ==> unchanged(this, wall) && unchanged(OpeningObjects(), wall.OpeningObjects())
      ensures r.Some? ==> if isEnd then endPoint == r.value && startPoint == old(startPoint)
                          else startPoint == r.value && endPoint == old(endPoint)
      ensures r.Some? ==> Synced() && wall.Synced()
      ensures body.subtractions == old(body.subtractions) && wall.body.subtractions == old(wall.body.subtractions)
      ensures body.expressID == old(body.expressID) && wall.body.expressID == old(wall.body.expressID)
    {
      var normalVector := Cross(wall.Direction(), Up);
      var plane := PlaneThrough(ToThree(normalVector), ToThree(wall.startPoint));
      var correctDirection := RayDirection(Direction(), isEnd);
      var origin := if isEnd then endPoint else startPoint;
      var ray := Ray(RayOrigin(origin, isEnd), correctDirection);
      var t := math.distanceToPlane(ray, plane);
      if t.None? {
        return None;
      }
      var intersectionPoint := FromThree(At(ray, t.value));
      CastPointIsRayPoint(startPoint, endPoint, Direction(), isEnd, t.value);
      if isEnd {
        endPoint := intersectionPoint;
      } else {
        startPoint := intersectionPoint;
      }
      UpdateWith(wall);
      r := Some(intersectionPoint);
    }

    /** addCorner: extend this wall to the other; on a miss nothing changes; on a hit each body
        gains its half-space (this wall's first, the other wall's second; one body gains both
        when the walls are the same) and both walls are synced. */
    method AddCorner(wall: SimpleWall, atEnd: bool)
      requires Valid() && wall.Valid() && wall.math == math
      modifies this`startPoint, this`endPoint, this`body, this`rotationZ, this`position, OpeningObjects()
      modifies wall`body, wall`rotationZ, wall`position, wall.OpeningObjects()
      ensures Valid() && wall.Valid()
      ensures Intersection(math, old(startPoint), old(endPoint), old(Direction()), old(wall.startPoint), old(wall.Direction()), atEnd).None? ==>
                unchanged(this, wall) && unchanged(OpeningObjects(), wall.OpeningObjects())
      ensures Intersection(math, old(startPoint), old(endPoint), old(Direction()), old(wall.startPoint), old(wall.Direction()), atEnd).Some? ==>
                Synced() && wall.Synced()
      ensures var hit := Intersection(math, old(startPoint), old(endPoint), old(Direction()), old(wall.startPoint), old(wall.Direction()), atEnd);
              hit.Some? ==> if atEnd then endPoint == hit.value && startPoint == old(startPoint)
                            else startPoint == hit.value && endPoint == old(endPoint)
      ensures body.expressID == old(body.expressID) && wall.body.expressID == old(wall.body.expressID)
      ensures var hit := Intersection(math, old(startPoint), old(endPoint), old(Direction()), old(wall.startPoint), old(wall.Direction()), atEnd);
              (hit.Some? ==>
                    var cuts := CornerCuts(math, atEnd, hit.value, startPoint, endPoint, Yaw(),
                                              wall.startPoint, wall.endPoint, wall.Yaw(), wallType.width);
                       if wall == this then body.subtractions == old(body.subtractions) + [cuts.0, cuts.1]
                       else body.subtractions == old(body.subtractions) + [cuts.0]
                            && wall.body.subtractions == old(wall.body.subtractions) + [cuts.1])
    {
      var intersectionPoint := Extend(wall, atEnd);
      if intersectionPoint.None? {
        return;
      }
      CutCorner(wall, atEnd, intersectionPoint.value);
    }

    /** The end of addCorner, once the walls meet at point ip: append the two half-spaces,
        then update the other wall and this one. Two synced walls stay synced. */
    method CutCorner(wall: SimpleWall, atEnd: bool, ip: Vec3)
      requires Valid() && wall.Valid() && Synced() && wall.Synced()
      modifies this`body, this`rotationZ, this`position, OpeningObjects()
      modifies wall`body, wall`rotationZ, wall`position, wall.OpeningObjects()
      ensures Valid() && wall.Valid() && Synced() && wall.Synced()
      ensures body.expressID == old(body.expressID) && wall.body.expressID == old(wall.body.expressID)
      ensures var cuts := CornerCuts(math, atEnd, ip, startPoint, endPoint, Yaw(),
                                     wall.startPoint, wall.endPoint, wall.Yaw(), wallType.width);
              if wall == this then body.subtractions == old(body.subtractions) + [cuts.0, cuts.1]
              else body.subtractions == old(body.subtractions) + [cuts.0]
                   && wall.body.subtractions == old(wall.body.subtractions) + [cuts.1]
    {
      AppendCuts(wall, atEnd, ip);
      wall.UpdateWith(this);
    }

    /** The half-spaces of addCorner, built from the walls as they are (this wall's end points
        and yaw, the other wall's, and this wall's width for both): the first is appended to
        this body and the second to the other wall's. */
    method AppendCuts(wall: SimpleWall, atEnd: bool, ip: Vec3)
      modifies this`body, wall`body
      ensures var cuts := CornerCuts(math, atEnd, ip, startPoint, endPoint, rotationZ,
                                     wall.startPoint, wall.endPoint, wall.rotationZ, wallType.width);
              if wall == this then body == old(body).(subtractions := old(body.subtractions) + [cuts.0, cuts.1])
              else body == old(body).(subtractions := old(body.subtractions) + [cuts.0])
                   && wall.body == old(wall.body).(subtractions := old(wall.body.subtractions) + [cuts.1])
    {
      var cuts := CornerCuts(math, atEnd, ip, startPoint, endPoint, rotationZ,
                             wall.startPoint, wall.endPoint, wall.rotationZ, wallType.width);
      AddSubtraction(cuts.0);
      wall.AddSubtraction(cuts.1);
    }

    /** body.addSubtraction(halfSpace): the body gains the half-space at the end of its list. */
    method AddSubtraction(halfSpace: HalfSpace)
      modifies this`body
      ensures body == old(body).(subtractions := old(body.subtractions) + [halfSpace])
    {
      body := body.(subtractions := body.subtractions + [halfSpace]);
    }

    /** this.update(true) followed by other.update(true): both walls end up synced and no
        subtraction changes. */
    method UpdateWith(other: SimpleWall)
      requires Valid() && other.Valid()
      modifies this`body, this`rotationZ, this`position, OpeningObjects()
      modifies other`body, other`rotationZ, other`position, other.OpeningObjects()
      ensures Valid() && other.Valid() && Synced() && other.Synced()
      ensures body.subtractions == old(body.subtractions) && other.body.subtractions == old(other.body.subtractions)
      ensures body.expressID == old(body.expressID) && other.body.expressID == old(other.body.expressID)
    {
      Update();
      other.Update();
    }
  }
}
