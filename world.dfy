/** The World of the simulator: the list of placed objects with the homebase
    counter, the robot, the simulation state and the tunables. Every
    operation is proved against the value-level registry (Registry) and the
    document codec (Codec). */
module Worlds {
  import opened Options
  import opened VectorMath
  import opened WorldObjects
  import opened Sensors
  import opened Robots
  import Registry
  import Codec

  /** `Array.prototype.indexOf` on the object list: the first position of
      `o`, or -1 when it is not there. */
  function IndexOf(os: seq<WorldObject>, o: WorldObject): (r: int)
    ensures -1 <= r < |os|
    ensures r == -1 <==> o !in os
    ensures 0 <= r ==> os[r] == o && o !in os[..r]
  {
    if os == [] then -1
    else if os[0] == o then 0
    else
      var r := IndexOf(os[1..], o);
      assert os == [os[0]] + os[1..];
      if r == -1 then -1
      else
        assert os[..r + 1] == [os[0]] + os[1..][..r];
        r + 1
  }

  /** The geometry of the first START of the list (`objects.find`), if any. */
  function FirstStart(os: seq<WorldObject>): (r: Option<Shape>)
    ensures r.Some? ==> r.value.Start?
    ensures r.Some? ==> exists i :: 0 <= i < |os| && os[i].shape == r.value
                          && forall j :: 0 <= j < i ==> !os[j].shape.Start?
    ensures r.None? <==> forall i :: 0 <= i < |os| ==> !os[i].shape.Start?
  {
    if os == [] then None
    else if os[0].shape.Start? then Some(os[0].shape)
    else
      var r := FirstStart(os[1..]);
      assert forall i :: 1 <= i < |os| ==> os[i] == os[1..][i - 1];
      r
  }

  /** Whether the list holds a START. */
  ghost predicate HasStart(os: seq<WorldObject>) {
    exists i :: 0 <= i < |os| && os[i].shape.Start?
  }

  lemma HasStartAppend(os: seq<WorldObject>, o: WorldObject)
    ensures HasStart(os + [o]) <==> HasStart(os) || o.shape.Start?
  {
    if o.shape.Start? {
      assert (os + [o])[|os|] == o;
    }
    if HasStart(os) {
      var i :| 0 <= i < |os| && os[i].shape.Start?;
      assert (os + [o])[i] == os[i];
    }
    if HasStart(os + [o]) && !o.shape.Start? {
      var i :| 0 <= i < |os + [o]| && (os + [o])[i].shape.Start?;
      assert i < |os| && os[i] == (os + [o])[i];
    }
  }

  /** Appending keeps the first START, or supplies one if there was none. */
  lemma {:induction false} FirstStartAppend(os: seq<WorldObject>, o: WorldObject)
    ensures FirstStart(os + [o]) ==
              if FirstStart(os).Some? then FirstStart(os) else if o.shape.Start? then Some(o.shape) else None
  {
    if os == [] {
      assert os + [o] == [o];
    } else {
      assert (os + [o])[0] == os[0];
      assert (os + [o])[1..] == os[1..] + [o];
      FirstStartAppend(os[1..], o);
    }
  }

  /** The detection lists of the sensors once each has been tested against
      the objects of the list. */
  ghost function SensedLists(m: Numerics, range: real, sps: seq<SensorPoint>, os: seq<WorldObject>): (r: seq<seq<Detection>>)
    reads sps
    ensures |r| == |sps|
  {
    seq(|sps|, k reads sps requires 0 <= k < |sps| => sps[k].detected + Scan(m, range, sps[k].position, os))
  }

  /** The velocity a tick gives a robot that starts at p0 with velocity v0,
      aiming at `target`, its sensors holding `lists` once they have sensed:
      the velocity plus the acceleration, limited to robotSpeed. */
  ghost function TickVelocity(m: Numerics, cfg: Config, width: real, height: real, r1: real, r2: real,
                              target: Option<Shape>, p0: Vec, v0: Vec, lists: seq<seq<Detection>>, cr: real): Vec
    requires target.Some? ==> target.value.Homebase?
  {
    Limit(m, v0.Add(Acceleration(m, cfg, p0, cr, lists, target, r1, r2, width, height)), cfg.robotSpeed)
  }

  /** Where the move of that tick takes the robot: p0 moved by the new
      velocity and confined to the canvas. */
  ghost function TickPosition(m: Numerics, cfg: Config, width: real, height: real, r1: real, r2: real,
                              target: Option<Shape>, p0: Vec, v0: Vec, lists: seq<seq<Detection>>, cr: real): Vec
    requires target.Some? ==> target.value.Homebase?
  {
    Confine(cr, width, height, p0.Add(TickVelocity(m, cfg, width, height, r1, r2, target, p0, v0, lists, cr)))
  }

  /** The robot's state after one tick that started at position p0 with
      velocity v0 and heading h0, aiming at `target` (the homebase numbered
      t0, if any), the sensors holding `lists` once they have sensed: the
      acceleration is used up, the target advances when it is reached, and
      the robot ends where the move takes it unless it touches a wall or an
      obstacle there, in which case it is back at p0 at rest. The heading h
      is the one the move set: a rollback leaves it. */
  ghost predicate Ticked(m: Numerics, cfg: Config, width: real, height: real, objs: seq<WorldObject>, counter: int,
                         r1: real, r2: real, target: Option<Shape>, p0: Vec, v0: Vec, h0: real, t0: int,
                         lists: seq<seq<Detection>>, p: Vec, v: Vec, a: Vec, h: real, t: int, cr: real)
  {
    (target.Some? ==> target.value.Homebase? && counter >= 1)
    && var v1 := TickVelocity(m, cfg, width, height, r1, r2, target, p0, v0, lists, cr);
    var p1 := TickPosition(m, cfg, width, height, r1, r2, target, p0, v0, lists, cr);
    a == Zero
    && t == TargetAfterTick(m, p0, cr, target, t0, counter)
    && (AnyCollision(m, cfg, p1, cr, objs) ==> p == p0 && v == Zero)
    && (!AnyCollision(m, cfg, p1, cr, objs) ==> p == p1 && v == v1)
    && h == Heading(m, v1, h0)
  }

  /** The forces and the move of one tick, before the collision test:
      calculateForces, then Robot.update. */
  method Advance(robot: Robot, objs: seq<WorldObject>, counter: int, cfg: Config, m: Numerics,
                 width: real, height: real, r1: real, r2: real)
    requires robot.Valid() && |robot.sensorPoints| == cfg.numSensorPoints
    requires counter == Registry.HomebaseCount(Snapshot(objs))
    modifies robot, robot.sensorPoints
    ensures robot.Valid() && robot.SensorsPlaced(m, cfg) && robot.sensorPoints == old(robot.sensorPoints)
    ensures robot.collisionRadius == old(robot.collisionRadius)
    ensures old(FindHomebase(objs, robot.targetNumber)).Some? ==> counter >= 1
    ensures robot.velocity == TickVelocity(m, cfg, width, height, r1, r2, old(ShapeOf(FindHomebase(objs, robot.targetNumber))),
                                           old(robot.position), old(robot.velocity),
                                           old(SensedLists(m, cfg.sensorRange, robot.sensorPoints, objs)), robot.collisionRadius)
    ensures robot.position == Confine(robot.collisionRadius, width, height, old(robot.position).Add(robot.velocity))
    ensures robot.angle == Heading(m, robot.velocity, old(robot.angle))
    ensures robot.acceleration == Zero
    ensures robot.targetNumber == TargetAfterTick(m, old(robot.position), robot.collisionRadius,
                                                  old(ShapeOf(FindHomebase(objs, robot.targetNumber))), old(robot.targetNumber), counter)
  {
    ghost var t0 := robot.targetNumber;
    ghost var v0 := robot.velocity;
    ghost var target := ShapeOf(FindHomebase(objs, t0));
    ghost var lists := SensedLists(m, cfg.sensorRange, robot.sensorPoints, objs);
    ghost var p0 := robot.position;
    robot.CalculateForces(objs, counter, cfg, m, width, height, r1, r2);
    assert ShapeOf(FindHomebase(objs, t0)) == target;
    assert DetectionLists(robot.sensorPoints) == lists;
    ghost var force := robot.acceleration;
    assert force == Acceleration(m, cfg, p0, robot.collisionRadius, lists, target, r1, r2, width, height);
    robot.Update(cfg, m, width, height);
  }

  /** The body of World.update for a present robot: the forces are
      computed, the robot moves, and on a collision the position taken
      before the tick is put back and the velocity cleared. The sensor ring
      stays where the move placed it, around the position the move reached,
      even when that position is rolled back. */
  method Tick(robot: Robot, objs: seq<WorldObject>, counter: int, cfg: Config, m: Numerics,
              width: real, height: real, r1: real, r2: real)
    requires robot.Valid() && |robot.sensorPoints| == cfg.numSensorPoints
    requires counter == Registry.HomebaseCount(Snapshot(objs))
    modifies robot, robot.sensorPoints
    ensures robot.Valid() && robot.sensorPoints == old(robot.sensorPoints)
    ensures robot.collisionRadius == old(robot.collisionRadius)
    ensures Ticked(m, cfg, width, height, objs, counter, r1, r2, old(ShapeOf(FindHomebase(objs, robot.targetNumber))),
                   old(robot.position), old(robot.velocity), old(robot.angle), old(robot.targetNumber),
                   old(SensedLists(m, cfg.sensorRange, robot.sensorPoints, objs)),
                   robot.position, robot.velocity, robot.acceleration, robot.angle, robot.targetNumber, robot.collisionRadius)
    ensures robot.RingAround(m, cfg, TickPosition(m, cfg, width, height, r1, r2, old(ShapeOf(FindHomebase(objs, robot.targetNumber))),
                                                  old(robot.position), old(robot.velocity),
                                                  old(SensedLists(m, cfg.sensorRange, robot.sensorPoints, objs)), robot.collisionRadius))
  {
    ghost var v0 := robot.velocity;
    ghost var target := ShapeOf(FindHomebase(objs, robot.targetNumber));
    ghost var lists := SensedLists(m, cfg.sensorRange, robot.sensorPoints, objs);
    var previousPosition := robot.position;
    Advance(robot, objs, counter, cfg, m, width, height, r1, r2);
    ghost var p1 := robot.position;
    assert p1 == TickPosition(m, cfg, width, height, r1, r2, target, previousPosition, v0, lists, robot.collisionRadius);
    assert robot.RingAround(m, cfg, p1);
    var collision := robot.DetectCollisions(objs, cfg, m);
    if collision {
      robot.position := previousPosition;
      robot.velocity := Zero;
    }
  }

  class World {
    var objects: seq<WorldObject>
    var robot: Robot?
    var state: SimState
    var homeBaseCounter: int
    var config: Config
    /** The host maths library and the canvas size. */
    const math: Numerics
    const width: real
    const height: real

    /** Each object is listed once, the counter counts the homebases, and
        a robot has one sensor per numSensorPoints. */
    ghost predicate Valid()
      reads this, objects, robot
    {
      Distinct(objects)
      && Registry.Consistent(Abstract())
      && (robot != null ==> robot.Valid() && |robot.sensorPoints| == config.numSensorPoints)
    }

    /** The registry value of the object list: the objects' kinds and
        numbers in list order, with the homebase counter. */
    ghost function Abstract(): Registry.Listing
      reads this, objects
    {
      Registry.Listing(Snapshot(objects), homeBaseCounter)
    }

    /** A robot still as the constructor built it for the first START:
        there, at rest, heading 0, aiming at homebase 1, with its ring. */
    ghost predicate RobotAsBuilt()
      reads this, objects, robot, RobotSensors()
    {
      robot != null ==>
        FirstStart(objects).Some?
        && robot.position == Vec(FirstStart(objects).value.x, FirstStart(objects).value.y)
        && robot.velocity == Zero && robot.acceleration == Zero && robot.angle == 0.0
        && robot.targetNumber == 1 && robot.collisionRadius == config.robotSize / 2.0
        && robot.SensorsPlaced(math, config)
    }

    /** The robot's sensors, which a tick updates. */
    ghost function RobotSensors(): seq<SensorPoint>
      reads this, robot
    {
      if robot == null then [] else robot.sensorPoints
    }

    /** `new World()` with the tunables in force: nothing placed, no robot,
        EDITING. */
    constructor (cfg: Config, m: Numerics, w: real, h: real)
      ensures Valid() && objects == [] && robot == null && homeBaseCounter == 0
      ensures state == Editing && config == cfg && math == m && width == w && height == h
    {
      objects := [];
      robot := null;
      state := Editing;
      homeBaseCounter := 0;
      config := cfg;
      math := m;
      width := w;
      height := h;
    }

    /** World.addObject: a START creates the robot at its point when there
        is none yet, a homebase is stamped with the incremented counter, and
        the object is appended. */
    method AddObject(obj: WorldObject)
      requires Valid() && obj !in objects
      modifies this, obj
      ensures Valid()
      ensures objects == old(objects) + [obj]
      ensures Abstract() == Registry.Add(old(Abstract()), obj.shape, old(obj.number))
      ensures state == old(state) && config == old(config)
      ensures obj.shape.Start? && old(robot) == null ==>
                robot != null && fresh(robot) && robot.position == Vec(obj.shape.x, obj.shape.y)
                && robot.velocity == Zero && robot.acceleration == Zero && robot.targetNumber == 1
                && robot.angle == 0.0 && robot.collisionRadius == config.robotSize / 2.0
                && robot.SensorsPlaced(math, config)
      ensures !(obj.shape.Start? && old(robot) == null) ==> robot == old(robot)
    {
      if obj.shape.Start? && robot == null {
        robot := new Robot(obj.shape.x, obj.shape.y, config, math);
      }
      Append(obj);
    }

    /** The list and counter half of addObject: a homebase takes the
        incremented counter as its number, then the object is appended. */
    method Append(obj: WorldObject)
      requires Distinct(objects) && Registry.Consistent(Abstract()) && obj !in objects
      modifies this`objects, this`homeBaseCounter, obj
      ensures Distinct(objects) && Registry.Consistent(Abstract())
      ensures objects == old(objects) + [obj]
      ensures Abstract() == Registry.Add(old(Abstract()), obj.shape, old(obj.number))
    {
      ghost var r := Abstract();
      if obj.shape.Homebase? {
        homeBaseCounter := homeBaseCounter + 1;
        obj.number := homeBaseCounter;
      }
      assert Snapshot(objects) == r.items;
      objects := objects + [obj];
      assert Snapshot(objects) == r.items + [Item(obj.shape, obj.number)];
      assert Registry.Consistent(Abstract()) by {
        Registry.AddConsistent(r, obj.shape, old(obj.number));
      }
    }

    /** The renumbering loop of removeObject: a running number, starting at
        1, is given to every homebase of the list in turn. */
    method RenumberHomebases()
      requires Distinct(objects)
      modifies objects`number
      ensures Snapshot(objects) == Registry.Renumbered(old(Snapshot(objects)))
    {
      ghost var before := Snapshot(objects);
      var currentNumber := 1;
      for k := 0 to |objects|
        invariant currentNumber == Registry.HomebaseCount(before[..k]) + 1
        invariant forall j :: 0 <= j < k ==> objects[j].number == Registry.Renumbered(before)[j].number
        invariant forall j :: k <= j < |objects| ==> objects[j].number == before[j].number
      {
        Registry.CountStep(before, k);
        if objects[k].shape.Homebase? {
          objects[k].number := currentNumber;
          currentNumber := currentNumber + 1;
        }
      }
      assert Snapshot(objects) == Registry.Renumbered(before);
    }

    /** World.removeObject: nothing happens to an object that is not
        listed; otherwise a homebase first decrements the counter and
        renumbers the homebases of the list, the removed one included, and
        then the object is spliced out. */
    method RemoveObject(obj: WorldObject)
      requires Valid()
      modifies this, objects
      ensures Valid()
      ensures robot == old(robot) && state == old(state) && config == old(config)
      ensures obj !in old(objects) ==> objects == old(objects) && Abstract() == old(Abstract())
      ensures obj in old(objects) ==>
                var i := IndexOf(old(objects), obj);
                objects == old(objects)[..i] + old(objects)[i + 1..]
                && Abstract() == Registry.RemoveAsWritten(old(Abstract()), i)
    {
      var index := IndexOf(objects, obj);
      if index > -1 {
        RemoveAtAsWritten(index);
      }
    }

    /** The list and counter half of RemoveObject. */
    method RemoveAtAsWritten(index: int)
      requires Distinct(objects) && Registry.Consistent(Abstract()) && 0 <= index < |objects|
      modifies this`objects, this`homeBaseCounter, objects`number
      ensures Distinct(objects) && Registry.Consistent(Abstract())
      ensures objects == old(objects)[..index] + old(objects)[index + 1..]
      ensures Abstract() == Registry.RemoveAsWritten(old(Abstract()), index)
    {
      ghost var r := Abstract();
      if objects[index].shape.Homebase? {
        homeBaseCounter := homeBaseCounter - 1;
        RenumberHomebases();
      }
      SpliceOut(index);
      assert Abstract() == Registry.RemoveAsWritten(r, index);
      assert Registry.Consistent(Abstract()) by {
        Registry.RemoveConsistent(r, index);
      }
    }

    /** removeObject as its comment intends (renumber the remaining
        homebases): the object is spliced out first and only the homebases
        that remain are renumbered, so they stay numbered 1..n. */
    method RemoveObjectIntended(obj: WorldObject)
      requires Valid()
      modifies this, objects
      ensures Valid()
      ensures robot == old(robot) && state == old(state) && config == old(config)
      ensures obj !in old(objects) ==> objects == old(objects) && Abstract() == old(Abstract())
      ensures obj in old(objects) ==>
                var i := IndexOf(old(objects), obj);
                objects == old(objects)[..i] + old(objects)[i + 1..]
                && Abstract() == Registry.RemoveIntended(old(Abstract()), i)
      ensures Registry.Numbered(old(Abstract())) ==> Registry.Numbered(Abstract())
    {
      var index := IndexOf(objects, obj);
      if index > -1 {
        RemoveAtIntended(index);
      }
    }

    /** The list and counter half of RemoveObjectIntended. */
    method RemoveAtIntended(index: int)
      requires Distinct(objects) && Registry.Consistent(Abstract()) && 0 <= index < |objects|
      modifies this`objects, this`homeBaseCounter, objects`number
      ensures Distinct(objects) && Registry.Consistent(Abstract())
      ensures objects == old(objects)[..index] + old(objects)[index + 1..]
      ensures Abstract() == Registry.RemoveIntended(old(Abstract()), index)
      ensures Registry.Numbered(old(Abstract())) ==> Registry.Numbered(Abstract())
    {
      ghost var r := Abstract();
      var homebase := objects[index].shape.Homebase?;
      if homebase {
        homeBaseCounter := homeBaseCounter - 1;
      }
      SpliceOut(index);
      if homebase {
        RenumberHomebases();
      }
      assert Abstract() == Registry.RemoveIntended(r, index);
      assert Registry.Consistent(Abstract()) by {
        Registry.RemoveConsistent(r, index);
      }
      assert Registry.Numbered(r) ==> Registry.Numbered(Abstract()) by {
        if Registry.Numbered(r) {
          Registry.RemoveIntendedNumbered(r, index);
        }
      }
    }

    /** `objects.splice(index, 1)`. */
    method SpliceOut(index: int)
      requires Distinct(objects) && 0 <= index < |objects|
      modifies this`objects
      ensures objects == old(objects)[..index] + old(objects)[index + 1..]
      ensures Distinct(objects)
      ensures Snapshot(objects) == Registry.RemoveAt(old(Snapshot(objects)), index)
    {
      ghost var before := objects;
      objects := objects[..index] + objects[index + 1..];
      assert forall a :: 0 <= a < |objects| ==> objects[a] == before[if a < index then a else a + 1];
    }

    /** World.update: one tick, only while RUNNING with a robot (see
        Tick). The draws r1, r2 are the two Math.random values of the
        noise. */
    method Update(r1: real, r2: real)
      requires Valid()
      modifies robot, RobotSensors()
      ensures Valid()
      ensures robot == old(robot)
      ensures !(old(state) == Running && old(robot) != null) && old(robot) != null ==>
                unchanged(old(robot)) && unchanged(old(robot.sensorPoints))
      ensures old(state) == Running && old(robot) != null ==>
                robot.sensorPoints == old(robot.sensorPoints) && robot.collisionRadius == old(robot.collisionRadius)
                && Ticked(math, config, width, height, objects, homeBaseCounter, r1, r2,
                          old(ShapeOf(FindHomebase(objects, robot.targetNumber))), old(robot.position), old(robot.velocity),
                          old(robot.angle), old(robot.targetNumber),
                          old(SensedLists(math, config.sensorRange, robot.sensorPoints, objects)),
                          robot.position, robot.velocity, robot.acceleration, robot.angle, robot.targetNumber, robot.collisionRadius)
                && robot.RingAround(math, config, TickPosition(math, config, width, height, r1, r2,
                                                               old(ShapeOf(FindHomebase(objects, robot.targetNumber))),
                                                               old(robot.position), old(robot.velocity),
                                                               old(SensedLists(math, config.sensorRange, robot.sensorPoints, objects)),
                                                               robot.collisionRadius))
    {
      if state == Running && robot != null {
        assert Registry.Consistent(Abstract());
        Tick(robot, objects, homeBaseCounter, config, math, width, height, r1, r2);
      }
    }

    /** World.clear: no objects, no robot, counter 0. */
    method Clear()
      modifies this
      ensures Valid()
      ensures objects == [] && robot == null && homeBaseCounter == 0
      ensures state == old(state) && config == old(config)
    {
      objects := [];
      robot := null;
      homeBaseCounter := 0;
    }

    /** World.reset: a robot goes back to the first START, at rest and
        aiming at homebase 1, when there is a START; the state becomes
        EDITING. */
    method Reset()
      requires Valid()
      modifies this, robot
      ensures Valid()
      ensures state == Editing
      ensures objects == old(objects) && robot == old(robot) && config == old(config)
      ensures homeBaseCounter == old(homeBaseCounter)
      ensures robot != null && FirstStart(objects).Some? ==>
                robot.position == Vec(FirstStart(objects).value.x, FirstStart(objects).value.y)
                && robot.velocity == Zero && robot.acceleration == Zero && robot.targetNumber == 1
                && robot.sensorPoints == old(robot.sensorPoints) && robot.angle == old(robot.angle)
                && robot.collisionRadius == old(robot.collisionRadius)
      ensures robot != null && FirstStart(objects).None? ==> unchanged(robot)
      ensures old(RobotAsBuilt()) ==> RobotAsBuilt()
    {
      if robot != null {
        var startPoint := FirstStart(objects);
        if startPoint.Some? {
          robot.position := Vec(startPoint.value.x, startPoint.value.y);
          robot.velocity := Zero;
          robot.acceleration := Zero;
          robot.targetNumber := 1;
        }
      }
      state := Editing;
    }

    /** World.serialize, before the text encoding: one record per object in
        list order, and the counter with seven of the tunables. */
    function Serialize(): (d: Codec.Document)
      reads this, objects
      ensures d.objects == Some(Codec.SerializeItems(Snapshot(objects)))
      ensures d.config.Some? && Codec.ApplyConfig(config, d.config.value) == config
    {
      Codec.Document(Some(Codec.SerializeItems(Snapshot(objects))), Some(Codec.SerializeConfig(config, homeBaseCounter)))
    }

    /** Adds a new object for each record, in order, as deserialize does. */
    method AddRecords(recs: seq<Codec.Record>)
      requires Valid() && (robot != null <==> HasStart(objects)) && RobotAsBuilt()
      modifies this
      ensures Valid() && (robot != null <==> HasStart(objects)) && RobotAsBuilt()
      ensures Abstract() == Codec.AddRecords(old(Abstract()), recs)
      ensures state == old(state) && config == old(config)
      ensures old(robot) != null ==> robot == old(robot)
      ensures robot != null && robot != old(robot) ==> fresh(robot)
    {
      ghost var start := Abstract();
      for i := 0 to |recs|
        invariant Valid()
        invariant Codec.AddRecords(start, recs) == Codec.AddRecords(Abstract(), recs[i..])
        invariant state == old(state) && config == old(config)
        invariant old(robot) != null ==> robot == old(robot)
        invariant robot != null && robot != old(robot) ==> fresh(robot)
        invariant robot != null <==> HasStart(objects)
        invariant RobotAsBuilt()
      {
        AddRecord(recs[i]);
        assert recs[i..][1..] == recs[i + 1..];
      }
    }

    /** One step of that loop: a new object for the record, added. */
    method AddRecord(rec: Codec.Record)
      requires Valid() && (robot != null <==> HasStart(objects)) && RobotAsBuilt()
      modifies this
      ensures Valid() && (robot != null <==> HasStart(objects)) && RobotAsBuilt()
      ensures Abstract() == Registry.Add(old(Abstract()), rec.shape, 0)
      ensures state == old(state) && config == old(config)
      ensures old(robot) != null ==> robot == old(robot)
      ensures robot != null && robot != old(robot) ==> fresh(robot)
    {
      var obj := new WorldObject(rec.shape);
      HasStartAppend(objects, obj);
      FirstStartAppend(objects, obj);
      AddObject(obj);
    }

    /** World.deserialize over the parsed document. Text that is not JSON
        changes nothing; otherwise the world is cleared first, so a document
        without an `objects` array fails with an empty world. A good
        document applies its tunables (never its counter), adds the other
        objects in document order and then the homebases sorted by number,
        and resets. */
    method Deserialize(input: Codec.Input) returns (ok: bool)
      requires Valid()
      modifies this
      ensures Valid()
      ensures input.Malformed? ==>
                !ok && objects == old(objects) && robot == old(robot) && homeBaseCounter == old(homeBaseCounter)
                && state == old(state) && config == old(config)
      ensures input.Parsed? && input.doc.objects.None? ==>
                !ok && objects == [] && robot == null && homeBaseCounter == 0
                && state == old(state) && config == old(config)
      ensures input.Parsed? && input.doc.objects.Some? ==>
                ok && Abstract() == Codec.Load(input.doc.objects.value) && Registry.Numbered(Abstract())
                && state == Editing
                && config == (if input.doc.config.Some? then Codec.ApplyConfig(old(config), input.doc.config.value) else old(config))
                && (robot != null <==> FirstStart(objects).Some?)
                && (robot != null ==> fresh(robot) && robot.position == Vec(FirstStart(objects).value.x, FirstStart(objects).value.y)
                                      && robot.velocity == Zero && robot.acceleration == Zero && robot.targetNumber == 1
                                      && robot.angle == 0.0 && robot.collisionRadius == config.robotSize / 2.0
                                      && robot.SensorsPlaced(math, config))
    {
      if input.Malformed? {
        return false;
      }
      Clear();
      var doc := input.doc;
      if doc.objects.None? {
        return false;
      }
      if doc.config.Some? {
        config := Codec.ApplyConfig(config, doc.config.value);
      }
      LoadObjects(doc.objects.value);
      Reset();
      ok := true;
    }

    /** The two loops of deserialize on a cleared world: the other records
        in document order, then the homebase records sorted by number. */
    method LoadObjects(rs: seq<Codec.Record>)
      requires Valid() && objects == [] && robot == null && homeBaseCounter == 0
      modifies this
      ensures Valid() && (robot != null <==> HasStart(objects)) && RobotAsBuilt()
      ensures Abstract() == Codec.Load(rs) && Registry.Numbered(Abstract())
      ensures state == old(state) && config == old(config)
      ensures robot != null ==> fresh(robot)
    {
      var others := Codec.Filter(rs, Codec.OtherRecord);
      AddRecords(others);
      var homebases := Codec.SortByNumber(Codec.Filter(rs, Codec.HomeRecord));
      AddRecords(homebases);
      assert Abstract() == Codec.Load(rs);
      Codec.LoadNumbered(rs);
    }
  }
}
