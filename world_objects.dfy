/** The placed objects of the world (OBJECT_TYPES), the tunables (`config`)
    and the simulation states (STATES). */
module WorldObjects {
  import opened VectorMath

  /** The four object kinds, each with its geometry. */
  datatype Shape =
    | Wall(start: Vec, end: Vec)
    | Homebase(x: real, y: real, radius: real)
    | Obstacle(x: real, y: real, radius: real)
    | Start(x: real, y: real, radius: real)
  {
    /** The centre of a circular object. */
    function Center(): Vec
      requires !Wall?
    {
      Vec(x, y)
    }

    /** The segment of a wall. */
    function Segment(): Line
      requires Wall?
    {
      Line(start, end)
    }
  }

  /** A placed object. Its kind and geometry are fixed; `number` is the
      homebase number the registry assigns and rewrites. Objects that are
      not homebases never have it set, which the model writes as 0. */
  class WorldObject {
    const shape: Shape
    var number: int

    constructor (shape: Shape)
      ensures this.shape == shape && number == 0
    {
      this.shape := shape;
      number := 0;
    }
  }

  /** The value of one object at one moment: its shape and its number. */
  datatype Item = Item(shape: Shape, number: int)

  /** The values of a list of objects, in list order. */
  function Snapshot(os: seq<WorldObject>): seq<Item>
    reads os
  {
    seq(|os|, i reads os requires 0 <= i < |os| => Item(os[i].shape, os[i].number))
  }

  /** No object occurs twice in a list. */
  ghost predicate Distinct<T>(os: seq<T>) {
    forall i, j :: 0 <= i < j < |os| ==> os[i] != os[j]
  }

  /** The tunables of `config`, except `homeBaseCounter`, which the world
      keeps as its own field. */
  datatype Config = Config(
    robotSize: real,
    robotSpeed: real,
    repulsiveForce: real,
    attractiveForce: real,
    noiseGain: real,
    sensorRange: real,
    boundaryForce: real,
    numSensorPoints: nat,
    sensorPointSpacing: real,
    enableBoundary: bool,
    wallThickness: real,
    minWallLength: real)

  /** The values `config` starts with. */
  const DefaultConfig: Config := Config(20.0, 1.5, 150.0, 120.0, 2.0, 40.0, 100.0, 24, 5.0, true, 10.0, 40.0)

  datatype SimState = Editing | Running | Paused
}
