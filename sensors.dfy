/** SensorPoint: one probe of the robot's ring, with the list of objects it
    detected during the current tick. */
module Sensors {
  import opened VectorMath
  import opened WorldObjects

  /** `{ object, distance }`, one entry of a detection list. */
  datatype Detection = Detection(obj: WorldObject, distance: real)

  /** The distance SensorPoint.detect measures from a sensor at p: to the
      segment for a wall, to the centre for every other kind. */
  function SensedDistance(m: Numerics, p: Vec, s: Shape): real {
    if s.Wall? then DistanceToPoint(m, s.Segment(), p)
    else Magnitude(m, Vec(s.x - p.x, s.y - p.y))
  }

  /** What one call of detect appends: the object with its distance when
      that distance is strictly less than the sensor range, else nothing. */
  function Sensed(m: Numerics, range: real, p: Vec, o: WorldObject): seq<Detection> {
    var d := SensedDistance(m, p, o.shape);
    if d < range then [Detection(o, d)] else []
  }

  /** Kinds the sensors are tested against: everything but homebases and
      the start marker, which are goals and markers, not obstacles. */
  predicate Sensable(s: Shape) {
    !s.Homebase? && !s.Start?
  }

  /** The detections one sensor at p collects when it is tested against every
      sensable object of the list, in list order. */
  function Scan(m: Numerics, range: real, p: Vec, objs: seq<WorldObject>): (r: seq<Detection>)
    ensures |r| <= |objs|
    ensures forall d :: d in r ==>
              d.obj in objs && (d.obj.shape.Wall? || d.obj.shape.Obstacle?)
              && d.distance == SensedDistance(m, p, d.obj.shape) && d.distance < range
    ensures forall o :: o in objs && Sensable(o.shape) && SensedDistance(m, p, o.shape) < range ==>
              Detection(o, SensedDistance(m, p, o.shape)) in r
  {
    if objs == [] then []
    else
      var rest := objs[..|objs| - 1];
      var last := objs[|objs| - 1];
      assert forall o :: o in objs ==> o in rest || o == last;
      Scan(m, range, p, rest) + (if Sensable(last.shape) then Sensed(m, range, p, last) else [])
  }

  class SensorPoint {
    var position: Vec
    var detected: seq<Detection>

    constructor (x: real, y: real)
      ensures position == Vec(x, y) && detected == []
    {
      position := Vec(x, y);
      detected := [];
    }

    /** Moves the sensor and clears its detection list. */
    method Update(x: real, y: real)
      modifies this
      ensures position == Vec(x, y) && detected == []
    {
      position := Vec(x, y);
      detected := [];
    }

    /** Tests one object against the sensor range and appends it when it is
      closer; the list is not cleared here. */
    method Detect(obj: WorldObject, m: Numerics, range: real)
      modifies this`detected
      ensures detected == old(detected) + Sensed(m, range, position, obj)
    {
      if obj.shape.Wall? {
        var dist := DistanceToPoint(m, obj.shape.Segment(), position);
        if dist < range {
          detected := detected + [Detection(obj, dist)];
        }
      } else {
        var dist := Magnitude(m, Vec(obj.shape.x - position.x, obj.shape.y - position.y));
        if dist < range {
          detected := detected + [Detection(obj, dist)];
        }
      }
    }
  }

  /** The detection lists of a ring of sensors, sensor by sensor. */
  function DetectionLists(sps: seq<SensorPoint>): (r: seq<seq<Detection>>)
    reads sps
    ensures |r| == |sps|
  {
    seq(|sps|, i reads sps requires 0 <= i < |sps| => sps[i].detected)
  }
}
