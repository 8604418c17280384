/** The robot: its state, its sensor ring, the potential-field forces of one
    tick (calculateForces), the integration step (update) and the collision
    test (detectCollisions). */
module Robots {
  import opened Options
  import opened VectorMath
  import opened WorldObjects
  import opened Sensors
  import Registry

  // ---------------------------------------------------------------- targets

  function Abs(n: int): int { if n < 0 then -n else n }

  /** The host's `%`: the remainder truncated towards zero, which takes the
      sign of the dividend (Dafny's own `%` is Euclidean). */
  function JsRem(a: int, b: int): (r: int)
    requires b != 0
    ensures 0 <= a ==> 0 <= r < Abs(b)
    ensures a < 0 ==> -Abs(b) < r <= 0
    ensures exists q :: a == q * b + r
  {
    if a >= 0 then
      assert a == (a / b) * b + a % b;
      a % b
    else
      assert -a == ((-a) / b) * b + (-a) % b;
      assert a == (-((-a) / b)) * b + -((-a) % b);
      -((-a) % b)
  }

  /** The homebase number aimed at once the current target `t` is reached,
      with `c` homebases counted: `(t % c) + 1`. From a valid target it
      stays in 1..c, steps to the next number, and wraps from c to 1. */
  function NextTarget(t: int, c: int): (r: int)
    requires c != 0
    ensures 1 <= t && 1 <= c ==> 1 <= r <= c
    ensures 1 <= t < c ==> r == t + 1
    ensures 1 <= c && t == c ==> r == 1
  {
    JsRem(t, c) + 1
  }

  /** The target after reaching `k` targets in a row, starting from 1. */
  function TargetAfter(c: int, k: nat): int
    requires c >= 1
  {
    if k == 0 then 1 else NextTarget(TargetAfter(c, k - 1), c)
  }

  /** Reaching targets one after the other visits the homebases in
      ascending order: the k-th target, for k below the count, is k + 1. */
  lemma {:induction false} TargetsAscend(c: int, k: nat)
    requires k < c
    ensures TargetAfter(c, k) == k + 1
  {
    if k > 0 {
      TargetsAscend(c, k - 1);
    }
  }

  /** After c targets the robot aims at where it started: the visits
      repeat with period c, so the order is 1, 2, …, c, 1, 2, … */
  lemma {:induction false} TargetPeriod(c: int, k: nat)
    requires c >= 1
    ensures TargetAfter(c, k + c) == TargetAfter(c, k)
  {
    if k == 0 {
      TargetsAscend(c, c - 1);
    } else {
      TargetPeriod(c, k - 1);
    }
  }

  /** `objects.find(obj => obj is a HOMEBASE && obj.number === n)`: the
      first homebase carrying number n, if there is one. */
  function FindHomebase(objs: seq<WorldObject>, n: int): (r: Option<WorldObject>)
    reads objs
    ensures r.Some? ==> r.value.shape.Homebase? && r.value.number == n
  {
    if objs == [] then None
    else if objs[0].shape.Homebase? && objs[0].number == n then Some(objs[0])
    else FindHomebase(objs[1..], n)
  }

  /** FindHomebase finds the first homebase numbered n, and finds nothing
      exactly when no homebase of the list carries n. */
  lemma {:induction false} FindHomebaseFirst(objs: seq<WorldObject>, n: int)
    ensures FindHomebase(objs, n).Some? ==>
              exists i :: 0 <= i < |objs| && objs[i] == FindHomebase(objs, n).value
                && forall j :: 0 <= j < i ==> !(objs[j].shape.Homebase? && objs[j].number == n)
    ensures FindHomebase(objs, n).None? <==>
              forall i :: 0 <= i < |objs| ==> !(objs[i].shape.Homebase? && objs[i].number == n)
  {
    if objs != [] && !(objs[0].shape.Homebase? && objs[0].number == n) {
      FindHomebaseFirst(objs[1..], n);
      assert forall i :: 1 <= i < |objs| ==> objs[i] == objs[1..][i - 1];
      if FindHomebase(objs, n).Some? {
        var i :| 0 <= i < |objs[1..]| && objs[1..][i] == FindHomebase(objs, n).value
                 && forall j :: 0 <= j < i ==> !(objs[1..][j].shape.Homebase? && objs[1..][j].number == n);
        assert objs[i + 1] == FindHomebase(objs, n).value;
        assert forall j :: 0 <= j < i + 1 ==> !(objs[j].shape.Homebase? && objs[j].number == n);
      }
    }
  }

  /** A found target means there is a homebase, so the counter, which
      counts the homebases, is at least 1: the advance never divides by 0. */
  lemma FoundTargetCounted(objs: seq<WorldObject>, n: int)
    requires FindHomebase(objs, n).Some?
    ensures Registry.HomebaseCount(Snapshot(objs)) >= 1
  {
    FindHomebaseFirst(objs, n);
    var i :| 0 <= i < |objs| && objs[i] == FindHomebase(objs, n).value;
    if Registry.HomebaseCount(Snapshot(objs)) == 0 {
      Registry.NoHomebaseIn(Snapshot(objs), i);
      assert false;
    }
  }

  function ShapeOf(o: Option<WorldObject>): (r: Option<Shape>)
    ensures r.Some? <==> o.Some?
    ensures o.Some? ==> r.value == o.value.shape
  {
    if o.Some? then Some(o.value.shape) else None
  }

  // ----------------------------------------------------------------- forces

  /** The band along each canvas edge in which the boundary force acts. */
  const Margin: real := 50.0

  /** `a / b`, with 0 for a zero divisor. */
  function Quotient(a: real, b: real): real {
    if b == 0.0 then 0.0 else a / b
  }

  /** The point a detected object repels from: the midpoint of a wall,
      the centre of anything else. */
  function RepulsionSource(s: Shape): Vec {
    if s.Wall? then Vec(s.start.x + (s.end.x - s.start.x) / 2.0, s.start.y + (s.end.y - s.start.y) / 2.0)
    else s.Center()
  }

  /** The strength of the push of a detection at distance d: it falls
      linearly from repulsiveForce at distance 0 to 0 at the sensor range. */
  function RepulsionStrength(cfg: Config, d: real): real {
    (1.0 - Quotient(d, cfg.sensorRange)) * cfg.repulsiveForce
  }

  /** The push of one detection on a robot at p: away from the object's
      reference point. */
  function Repulsion(m: Numerics, cfg: Config, p: Vec, d: Detection): Vec {
    Normalize(m, p.Subtract(RepulsionSource(d.obj.shape))).Multiply(RepulsionStrength(cfg, d.distance))
  }

  /** Nearer detections push harder, and every detection inside the range
      pushes with a positive strength. */
  lemma RepulsionStrengthDecreasing(cfg: Config, d1: real, d2: real)
    requires 0.0 < cfg.sensorRange && 0.0 < cfg.repulsiveForce
    requires d1 < d2 < cfg.sensorRange
    ensures RepulsionStrength(cfg, d1) > RepulsionStrength(cfg, d2) > 0.0
  {
    var q1, q2 := d1 / cfg.sensorRange, d2 / cfg.sensorRange;
    assert q1 < q2 < 1.0 by {
      assert q1 * cfg.sensorRange == d1 && q2 * cfg.sensorRange == d2;
    }
    assert (1.0 - q1) * cfg.repulsiveForce - (1.0 - q2) * cfg.repulsiveForce == (q2 - q1) * cfg.repulsiveForce;
  }

  /** `acc` plus the pushes of the detections of one list, in list order. */
  function RepulsionFold(m: Numerics, cfg: Config, p: Vec, acc: Vec, ds: seq<Detection>): Vec {
    if ds == [] then acc
    else RepulsionFold(m, cfg, p, acc, ds[..|ds| - 1]).Add(Repulsion(m, cfg, p, ds[|ds| - 1]))
  }

  /** `acc` plus the pushes of all the sensors' lists, sensor by sensor. */
  function RepulsionFoldFrom(m: Numerics, cfg: Config, p: Vec, acc: Vec, lists: seq<seq<Detection>>): Vec {
    if lists == [] then acc
    else RepulsionFold(m, cfg, p, RepulsionFoldFrom(m, cfg, p, acc, lists[..|lists| - 1]), lists[|lists| - 1])
  }

  /** The pushes of all the sensors' lists, from zero. */
  function RepulsionTotal(m: Numerics, cfg: Config, p: Vec, lists: seq<seq<Detection>>): Vec {
    RepulsionFoldFrom(m, cfg, p, Zero, lists)
  }

  /** A robot whose sensors detected nothing is not pushed at all. */
  lemma {:induction false} NothingDetectedNoRepulsion(m: Numerics, cfg: Config, p: Vec, lists: seq<seq<Detection>>)
    requires forall k :: 0 <= k < |lists| ==> lists[k] == []
    ensures RepulsionTotal(m, cfg, p, lists) == Zero
  {
    if lists != [] {
      NothingDetectedNoRepulsion(m, cfg, p, lists[..|lists| - 1]);
      assert RepulsionFoldFrom(m, cfg, p, Zero, lists) == RepulsionFoldFrom(m, cfg, p, Zero, lists[..|lists| - 1]);
    }
  }

  /** Whether a robot at p with radius cr has reached a homebase: its
      centre is closer than the two radii together. */
  predicate Reached(m: Numerics, p: Vec, cr: real, target: Shape)
    requires target.Homebase?
  {
    Magnitude(m, p.Subtract(target.Center())) < target.radius + cr
  }

  /** The pull towards a homebase, of strength attractiveForce. */
  function Attraction(m: Numerics, cfg: Config, p: Vec, target: Shape): Vec
    requires target.Homebase?
  {
    Normalize(m, target.Center().Subtract(p)).Multiply(cfg.attractiveForce)
  }

  /** The noise force for two random draws in [0, 1): each component is
      the draw mapped to [−1, 1) and scaled by noiseGain. */
  function Noise(cfg: Config, r1: real, r2: real): Vec {
    Vec((r1 * 2.0 - 1.0) * cfg.noiseGain, (r2 * 2.0 - 1.0) * cfg.noiseGain)
  }

  /** The noise is bounded: each component lies within ±noiseGain. */
  lemma NoiseBounded(cfg: Config, r1: real, r2: real)
    requires 0.0 <= cfg.noiseGain && 0.0 <= r1 < 1.0 && 0.0 <= r2 < 1.0
    ensures -cfg.noiseGain <= Noise(cfg, r1, r2).x <= cfg.noiseGain
    ensures -cfg.noiseGain <= Noise(cfg, r1, r2).y <= cfg.noiseGain
  {
    var u1, u2 := r1 * 2.0 - 1.0, r2 * 2.0 - 1.0;
    ScaledUnit(u1, cfg.noiseGain);
    ScaledUnit(u2, cfg.noiseGain);
    assert Noise(cfg, r1, r2) == Vec(u1 * cfg.noiseGain, u2 * cfg.noiseGain);
  }

  lemma ScaledUnit(u: real, g: real)
    requires 0.0 <= g && -1.0 <= u <= 1.0
    ensures -g <= u * g <= g
  {
    assert (1.0 - u) * g >= 0.0;
    assert (u + 1.0) * g >= 0.0;
  }

  /** One component of the boundary force: inside the margin at the low
      edge it grows linearly towards the edge, inside the margin at the high
      edge likewise with the opposite sign, and elsewhere it is 0. */
  function EdgeForce(cfg: Config, c: real, extent: real): real {
    if c < Margin then (Margin - c) * (cfg.boundaryForce / Margin)
    else if c > extent - Margin then (extent - Margin - c) * (cfg.boundaryForce / Margin)
    else 0.0
  }

  /** With a positive boundaryForce, the edge force always points back into
      the canvas: positive near the low edge, negative near the high edge
      (when the two margins do not overlap), zero between the margins. */
  lemma EdgeForceInward(cfg: Config, c: real, extent: real)
    requires 0.0 < cfg.boundaryForce
    ensures c < Margin ==> EdgeForce(cfg, c, extent) > 0.0
    ensures Margin <= c && extent - Margin < c ==> EdgeForce(cfg, c, extent) < 0.0
    ensures Margin <= c <= extent - Margin ==> EdgeForce(cfg, c, extent) == 0.0
  {
    var k := cfg.boundaryForce / Margin;
    assert k > 0.0;
    if c < Margin {
      assert (Margin - c) * k > 0.0;
    } else if extent - Margin < c {
      assert (c - (extent - Margin)) * k > 0.0;
      assert (extent - Margin - c) * k == -((c - (extent - Margin)) * k);
    }
  }

  function BoundaryForce(cfg: Config, p: Vec, width: real, height: real): Vec {
    Vec(EdgeForce(cfg, p.x, width), EdgeForce(cfg, p.y, height))
  }

  /** `acc` plus the pull of the target, unless there is none or it is reached. */
  function Attracted(m: Numerics, cfg: Config, p: Vec, cr: real, target: Option<Shape>, acc: Vec): (r: Vec)
    requires target.Some? ==> target.value.Homebase?
    ensures target.None? ==> r == acc
    ensures target.Some? && Reached(m, p, cr, target.value) ==> r == acc
    ensures target.Some? && !Reached(m, p, cr, target.value) ==> r == acc.Add(Attraction(m, cfg, p, target.value))
  {
    if target.Some? && !Reached(m, p, cr, target.value) then acc.Add(Attraction(m, cfg, p, target.value)) else acc
  }

  /** The acceleration calculateForces accumulates, in its order: the pushes
      of the detections, the pull of the target unless it is reached, the
      noise, and the boundary force when it is enabled. */
  function Acceleration(m: Numerics, cfg: Config, p: Vec, cr: real, lists: seq<seq<Detection>>,
                        target: Option<Shape>, r1: real, r2: real, width: real, height: real): (r: Vec)
    requires target.Some? ==> target.value.Homebase?
    ensures (forall k :: 0 <= k < |lists| ==> lists[k] == [])
            && (target.None? || Reached(m, p, cr, target.value)) && !cfg.enableBoundary
            ==> r == Noise(cfg, r1, r2)
  {
    assert (forall k :: 0 <= k < |lists| ==> lists[k] == []) ==> RepulsionTotal(m, cfg, p, lists) == Zero by {
      if forall k :: 0 <= k < |lists| ==> lists[k] == [] {
        NothingDetectedNoRepulsion(m, cfg, p, lists);
      }
    }
    var attracted := Attracted(m, cfg, p, cr, target, RepulsionTotal(m, cfg, p, lists));
    var noisy := attracted.Add(Noise(cfg, r1, r2));
    if cfg.enableBoundary then noisy.Add(BoundaryForce(cfg, p, width, height)) else noisy
  }

  /** The target number after one tick: advanced when the target exists and
      is reached, otherwise unchanged (also when no homebase carries it). */
  function TargetAfterTick(m: Numerics, p: Vec, cr: real, target: Option<Shape>, t: int, counter: int): (r: int)
    requires target.Some? ==> target.value.Homebase?
    requires target.Some? ==> counter >= 1
    ensures target.None? ==> r == t
    ensures target.Some? && !Reached(m, p, cr, target.value) ==> r == t
    ensures target.Some? && Reached(m, p, cr, target.value) && 1 <= t <= counter ==> 1 <= r <= counter
    ensures target.Some? && Reached(m, p, cr, target.value) && t == counter ==> r == 1
    ensures target.Some? && Reached(m, p, cr, target.value) && 1 <= t < counter ==> r == t + 1
  {
    if target.Some? && Reached(m, p, cr, target.value) then NextTarget(t, counter) else t
  }

  // ------------------------------------------------------------- collisions

  /** Whether a robot at p with radius cr touches an object: a wall closer
      than cr plus half the wall thickness, an obstacle closer than the two
      radii together. Homebases and the start marker never collide. */
  predicate Collides(m: Numerics, cfg: Config, p: Vec, cr: real, s: Shape)
    ensures Collides(m, cfg, p, cr, s) ==> s.Wall? || s.Obstacle?
  {
    match s
    case Wall(_, _) => DistanceToPoint(m, s.Segment(), p) < cr + cfg.wallThickness / 2.0
    case Obstacle(x, y, radius) => Magnitude(m, Vec(x - p.x, y - p.y)) < cr + radius
    case _ => false
  }

  /** Whether a robot at p with radius cr touches any object of the list. */
  predicate AnyCollision(m: Numerics, cfg: Config, p: Vec, cr: real, os: seq<WorldObject>) {
    exists i :: 0 <= i < |os| && Collides(m, cfg, p, cr, os[i].shape)
  }

  // ---------------------------------------------------------------- sensors

  /** The angle of sensor i of n around the robot: i·π·2 / n. */
  function SensorAngle(m: Numerics, cfg: Config, i: nat): real
    requires i < cfg.numSensorPoints
  {
    (i as real * m.pi * 2.0) / (cfg.numSensorPoints as real)
  }

  /** Where sensor i sits for a robot at c: sensorRange away along its angle. */
  function SensorPosition(m: Numerics, cfg: Config, c: Vec, i: nat): Vec
    requires i < cfg.numSensorPoints
  {
    var a := SensorAngle(m, cfg, i);
    Vec(c.x + m.cos(a) * cfg.sensorRange, c.y + m.sin(a) * cfg.sensorRange)
  }

  /** The hard clamp of the robot's centre into the canvas, x first and
      then y: each coordinate is kept at least cr from both edges when the
      canvas is wide (high) enough, and a coordinate already inside is kept. */
  function Confine(cr: real, width: real, height: real, p: Vec): (q: Vec)
    ensures 2.0 * cr <= width ==> cr <= q.x <= width - cr
    ensures 2.0 * cr <= height ==> cr <= q.y <= height - cr
    ensures cr <= p.x <= width - cr ==> q.x == p.x
    ensures cr <= p.y <= height - cr ==> q.y == p.y
    ensures p.x < cr ==> q.x == cr
    ensures p.y < cr ==> q.y == cr
  {
    Vec(Clamp(cr, width - cr, p.x), Clamp(cr, height - cr, p.y))
  }

  /** The heading after a move with velocity v: the velocity's direction
      when it is faster than 0.01, otherwise the previous heading. */
  function Heading(m: Numerics, v: Vec, previous: real): (r: real)
    ensures Magnitude(m, v) <= 0.01 ==> r == previous
    ensures Magnitude(m, v) > 0.01 ==> r == m.atan2(v.y, v.x)
  {
    if Magnitude(m, v) > 0.01 then m.atan2(v.y, v.x) else previous
  }

  class Robot {
    var position: Vec
    var velocity: Vec
    var acceleration: Vec
    var angle: real
    var sensorPoints: seq<SensorPoint>
    var targetNumber: int
    var collisionRadius: real

    /** The sensors are distinct objects and the target is a homebase
        number (numbers start at 1). */
    ghost predicate Valid()
      reads this
    {
      Distinct(sensorPoints) && 1 <= targetNumber
    }

    /** Every sensor sits at its place around the robot's position, with an
        empty detection list, and there are numSensorPoints of them. */
    ghost predicate SensorsPlaced(m: Numerics, cfg: Config)
      reads this, sensorPoints
    {
      |sensorPoints| == cfg.numSensorPoints
      && forall k :: 0 <= k < |sensorPoints| ==>
           sensorPoints[k].position == SensorPosition(m, cfg, position, k) && sensorPoints[k].detected == []
    }

    /** The numSensorPoints sensors sit at their places around c, each with
        an empty detection list. Only the sensors are read, so moving the
        robot does not change it. */
    ghost predicate RingAround(m: Numerics, cfg: Config, c: Vec)
      reads this`sensorPoints, sensorPoints
    {
      |sensorPoints| == cfg.numSensorPoints
      && forall k :: 0 <= k < |sensorPoints| ==>
           sensorPoints[k].position == SensorPosition(m, cfg, c, k) && sensorPoints[k].detected == []
    }

    constructor (x: real, y: real, cfg: Config, m: Numerics)
      ensures Valid() && SensorsPlaced(m, cfg)
      ensures position == Vec(x, y) && velocity == Zero && acceleration == Zero && angle == 0.0
      ensures targetNumber == 1 && collisionRadius == cfg.robotSize / 2.0
      ensures forall k :: 0 <= k < |sensorPoints| ==> fresh(sensorPoints[k])
    {
      position := Vec(x, y);
      velocity := Zero;
      acceleration := Zero;
      angle := 0.0;
      sensorPoints := [];
      targetNumber := 1;
      collisionRadius := cfg.robotSize / 2.0;
      new;
      InitializeSensorPoints(cfg, m);
    }

    /** Builds a new ring of numSensorPoints sensors around the position. */
    method InitializeSensorPoints(cfg: Config, m: Numerics)
      modifies this`sensorPoints
      ensures SensorsPlaced(m, cfg) && Distinct(sensorPoints)
      ensures forall k :: 0 <= k < |sensorPoints| ==> fresh(sensorPoints[k])
    {
      sensorPoints := [];
      for i := 0 to cfg.numSensorPoints
        invariant |sensorPoints| == i
        invariant forall k :: 0 <= k < i ==>
                    fresh(sensorPoints[k]) && sensorPoints[k].position == SensorPosition(m, cfg, position, k)
                    && sensorPoints[k].detected == []
        invariant Distinct(sensorPoints)
      {
        var a := SensorAngle(m, cfg, i);
        var sensor := new SensorPoint(position.x + m.cos(a) * cfg.sensorRange, position.y + m.sin(a) * cfg.sensorRange);
        sensorPoints := sensorPoints + [sensor];
      }
    }

    /** Moves every sensor to its place around the current position and
        clears its detections. */
    method UpdateSensorPoints(cfg: Config, m: Numerics)
      requires Distinct(sensorPoints) && |sensorPoints| == cfg.numSensorPoints
      modifies sensorPoints
      ensures SensorsPlaced(m, cfg)
    {
      for i := 0 to |sensorPoints|
        invariant forall k :: 0 <= k < i ==>
                    sensorPoints[k].position == SensorPosition(m, cfg, position, k) && sensorPoints[k].detected == []
      {
        var a := SensorAngle(m, cfg, i);
        sensorPoints[i].Update(position.x + m.cos(a) * cfg.sensorRange, position.y + m.sin(a) * cfg.sensorRange);
      }
    }

    method ApplyForce(force: Vec)
      modifies this`acceleration
      ensures acceleration == old(acceleration).Add(force)
    {
      acceleration := acceleration.Add(force);
    }

    /** Whether the robot touches any object of the list; nothing changes. */
    method DetectCollisions(objs: seq<WorldObject>, cfg: Config, m: Numerics) returns (collision: bool)
      ensures collision == AnyCollision(m, cfg, position, collisionRadius, objs)
    {
      collision := false;
      for i := 0 to |objs|
        invariant collision <==> exists k :: 0 <= k < i && Collides(m, cfg, position, collisionRadius, objs[k].shape)
      {
        var s := objs[i].shape;
        if s.Wall? {
          var dist := DistanceToPoint(m, s.Segment(), position);
          if dist < collisionRadius + cfg.wallThickness / 2.0 {
            collision := true;
          }
        } else if s.Obstacle? {
          var dist := Magnitude(m, Vec(s.x - position.x, s.y - position.y));
          if dist < collisionRadius + s.radius {
            collision := true;
          }
        }
      }
    }

    /** One sensor of calculateForces tested against every object that is
        neither a homebase nor a start, in list order. */
    static method SenseEach(sensor: SensorPoint, objs: seq<WorldObject>, range: real, m: Numerics)
      modifies sensor`detected
      ensures sensor.detected == old(sensor.detected) + Scan(m, range, sensor.position, objs)
    {
      for j := 0 to |objs|
        invariant sensor.detected == old(sensor.detected) + Scan(m, range, sensor.position, objs[..j])
      {
        assert objs[..j + 1][..j] == objs[..j];
        if Sensable(objs[j].shape) {
          sensor.Detect(objs[j], m, range);
        }
      }
      assert objs[..|objs|] == objs;
    }

    /** Tests every sensor against every sensable object of the list, in
        list order; the lists are appended to, not cleared. */
    method SenseObjects(objs: seq<WorldObject>, cfg: Config, m: Numerics)
      requires Distinct(sensorPoints)
      modifies sensorPoints
      ensures forall k :: 0 <= k < |sensorPoints| ==>
                sensorPoints[k].position == old(sensorPoints[k].position)
                && sensorPoints[k].detected == old(sensorPoints[k].detected) + Scan(m, cfg.sensorRange, sensorPoints[k].position, objs)
    {
      for i := 0 to |sensorPoints|
        invariant forall k :: 0 <= k < |sensorPoints| ==> sensorPoints[k].position == old(sensorPoints[k].position)
        invariant forall k :: 0 <= k < i ==>
                    sensorPoints[k].detected == old(sensorPoints[k].detected) + Scan(m, cfg.sensorRange, sensorPoints[k].position, objs)
        invariant forall k :: i <= k < |sensorPoints| ==> sensorPoints[k].detected == old(sensorPoints[k].detected)
      {
        SenseEach(sensorPoints[i], objs, cfg.sensorRange, m);
      }
    }

    /** Adds the push of every detection of every sensor, sensor by sensor. */
    method ApplyRepulsion(cfg: Config, m: Numerics)
      modifies this`acceleration
      ensures acceleration == RepulsionFoldFrom(m, cfg, position, old(acceleration), DetectionLists(sensorPoints))
    {
      ghost var lists := DetectionLists(sensorPoints);
      ghost var start := acceleration;
      for i := 0 to |sensorPoints|
        invariant acceleration == RepulsionFoldFrom(m, cfg, position, start, lists[..i])
      {
        assert lists[..i + 1][..i] == lists[..i];
        var detections := sensorPoints[i].detected;
        for j := 0 to |detections|
          invariant acceleration == RepulsionFold(m, cfg, position, RepulsionFoldFrom(m, cfg, position, start, lists[..i]), detections[..j])
        {
          assert detections[..j + 1][..j] == detections[..j];
          ApplyForce(Repulsion(m, cfg, position, detections[j]));
        }
        assert detections[..|detections|] == detections;
      }
      assert lists[..|sensorPoints|] == lists;
    }

    /** Looks up the homebase carrying the target number; when it is
        reached the target advances, otherwise the robot is pulled to it. */
    method SeekTarget(objs: seq<WorldObject>, counter: int, cfg: Config, m: Numerics)
      requires Valid()
      requires counter == Registry.HomebaseCount(Snapshot(objs))
      modifies this`acceleration, this`targetNumber
      ensures Valid()
      ensures FindHomebase(objs, old(targetNumber)).Some? ==> counter >= 1
      ensures targetNumber == TargetAfterTick(m, position, collisionRadius,
                                              ShapeOf(FindHomebase(objs, old(targetNumber))), old(targetNumber), counter)
      ensures acceleration == Attracted(m, cfg, position, collisionRadius, ShapeOf(FindHomebase(objs, old(targetNumber))), old(acceleration))
    {
      var target := FindHomebase(objs, targetNumber);
      if target.Some? {
        FoundTargetCounted(objs, targetNumber);
        var home := target.value.shape;
        if Reached(m, position, collisionRadius, home) {
          targetNumber := NextTarget(targetNumber, counter);
        } else {
          ApplyForce(Attraction(m, cfg, position, home));
        }
      }
    }

    /** Adds the noise force for the two random draws r1, r2. */
    method ApplyNoise(cfg: Config, r1: real, r2: real)
      modifies this`acceleration
      ensures acceleration == old(acceleration).Add(Noise(cfg, r1, r2))
    {
      var noise := Noise(cfg, r1, r2);
      ApplyForce(noise);
    }

    /** Adds the boundary force for a canvas of the given size. */
    method ApplyBoundary(cfg: Config, width: real, height: real)
      modifies this`acceleration
      ensures acceleration == old(acceleration).Add(BoundaryForce(cfg, position, width, height))
    {
      var fx, fy := 0.0, 0.0;
      if position.x < Margin {
        fx := (Margin - position.x) * (cfg.boundaryForce / Margin);
      } else if position.x > width - Margin {
        fx := (width - Margin - position.x) * (cfg.boundaryForce / Margin);
      }
      if position.y < Margin {
        fy := (Margin - position.y) * (cfg.boundaryForce / Margin);
      } else if position.y > height - Margin {
        fy := (height - Margin - position.y) * (cfg.boundaryForce / Margin);
      }
      var boundaryForce := Vec(fx, fy);
      assert boundaryForce == BoundaryForce(cfg, position, width, height);
      ApplyForce(boundaryForce);
    }

    /** The forces of one tick once the sensors have detected: the pushes
        of the detections, the target (pull or advance), the noise and the
        boundary force, added to the acceleration in that order. */
    method AccumulateForces(objs: seq<WorldObject>, counter: int, cfg: Config, m: Numerics,
                            width: real, height: real, r1: real, r2: real)
      requires Valid() && acceleration == Zero
      requires counter == Registry.HomebaseCount(Snapshot(objs))
      modifies this`acceleration, this`targetNumber
      ensures Valid()
      ensures FindHomebase(objs, old(targetNumber)).Some? ==> counter >= 1
      ensures acceleration == Acceleration(m, cfg, position, collisionRadius, DetectionLists(sensorPoints),
                                           ShapeOf(FindHomebase(objs, old(targetNumber))), r1, r2, width, height)
      ensures targetNumber == TargetAfterTick(m, position, collisionRadius,
                                              ShapeOf(FindHomebase(objs, old(targetNumber))), old(targetNumber), counter)
    {
      ghost var target := ShapeOf(FindHomebase(objs, targetNumber));
      ghost var lists := DetectionLists(sensorPoints);
      ApplyRepulsion(cfg, m);
      ghost var repelled := acceleration;
      assert repelled == RepulsionTotal(m, cfg, position, lists);
      SeekTarget(objs, counter, cfg, m);
      ghost var attracted := acceleration;
      assert attracted == Attracted(m, cfg, position, collisionRadius, target, repelled);
      ApplyNoise(cfg, r1, r2);
      assert acceleration == attracted.Add(Noise(cfg, r1, r2));
      if cfg.enableBoundary {
        ApplyBoundary(cfg, width, height);
      }
      assert DetectionLists(sensorPoints) == lists;
    }

    /** One tick of the controller: every sensor is tested against every
        sensable object, the acceleration is rebuilt from zero, and the target
        advances when it is reached. `counter` is the homebase counter and
        r1, r2 are the two random draws of the noise. */
    method CalculateForces(objs: seq<WorldObject>, counter: int, cfg: Config, m: Numerics,
                           width: real, height: real, r1: real, r2: real)
      requires Valid()
      requires counter == Registry.HomebaseCount(Snapshot(objs))
      modifies this, sensorPoints
      ensures Valid()
      ensures sensorPoints == old(sensorPoints)
      ensures position == old(position) && velocity == old(velocity) && angle == old(angle)
      ensures collisionRadius == old(collisionRadius)
      ensures forall k :: 0 <= k < |sensorPoints| ==>
                sensorPoints[k].position == old(sensorPoints[k].position)
                && sensorPoints[k].detected == old(sensorPoints[k].detected) + Scan(m, cfg.sensorRange, sensorPoints[k].position, objs)
      ensures FindHomebase(objs, old(targetNumber)).Some? ==> counter >= 1
      ensures acceleration == Acceleration(m, cfg, position, collisionRadius, DetectionLists(sensorPoints),
                                           ShapeOf(FindHomebase(objs, old(targetNumber))), r1, r2, width, height)
      ensures targetNumber == TargetAfterTick(m, position, collisionRadius,
                                              ShapeOf(FindHomebase(objs, old(targetNumber))), old(targetNumber), counter)
    {
      acceleration := Zero;
      SenseObjects(objs, cfg, m);
      AccumulateForces(objs, counter, cfg, m, width, height, r1, r2);
    }

    /** Velocity gains the acceleration and is limited to robotSpeed, the
        position moves by it and is confined to the canvas, and the heading
        follows a moving robot. */
    method Move(cfg: Config, m: Numerics, width: real, height: real)
      modifies this`velocity, this`position, this`angle
      ensures velocity == Limit(m, old(velocity).Add(acceleration), cfg.robotSpeed)
      ensures position == Confine(collisionRadius, width, height, old(position).Add(velocity))
      ensures angle == Heading(m, velocity, old(angle))
    {
      velocity := velocity.Add(acceleration);
      velocity := Limit(m, velocity, cfg.robotSpeed);
      position := position.Add(velocity);
      position := position.(x := Clamp(collisionRadius, width - collisionRadius, position.x));
      position := position.(y := Clamp(collisionRadius, height - collisionRadius, position.y));
      if Magnitude(m, velocity) > 0.01 {
        angle := m.atan2(velocity.y, velocity.x);
      }
    }

    /** The integration step: the robot moves (see Move), the sensors are
        placed afresh around the new position and the acceleration is
        cleared. */
    method Update(cfg: Config, m: Numerics, width: real, height: real)
      requires Valid() && |sensorPoints| == cfg.numSensorPoints
      modifies this, sensorPoints
      ensures Valid() && SensorsPlaced(m, cfg)
      ensures sensorPoints == old(sensorPoints)
      ensures targetNumber == old(targetNumber) && collisionRadius == old(collisionRadius)
      ensures velocity == Limit(m, old(velocity).Add(old(acceleration)), cfg.robotSpeed)
      ensures position == Confine(collisionRadius, width, height, old(position).Add(velocity))
      ensures angle == Heading(m, velocity, old(angle))
      ensures acceleration == Zero
    {
      Move(cfg, m, width, height);
      UpdateSensorPoints(cfg, m);
      acceleration := Zero;
    }
  }
}
