/** Vector2D and Line of the simulator: plain value arithmetic over `real`.
    The host's Math.sqrt, Math.cos, Math.sin and Math.atan2 are not defined
    here: they reach the model as the fields of a `Numerics` value. */
module VectorMath {

  /** Vector2D: an (x, y) pair; every operation returns a new value. */
  datatype Vec = Vec(x: real, y: real) {
    function Add(v: Vec): Vec { Vec(x + v.x, y + v.y) }
    function Subtract(v: Vec): Vec { Vec(x - v.x, y - v.y) }
    function Multiply(s: real): Vec { Vec(x * s, y * s) }
    function Dot(v: Vec): real { x * v.x + y * v.y }
  }

  /** `new Vector2D()` */
  const Zero: Vec := Vec(0.0, 0.0)

  /** The host maths library: Math.sqrt, Math.cos, Math.sin, Math.atan2, Math.PI. */
  datatype Numerics = Numerics(
    sqrt: real -> real,
    cos: real -> real,
    sin: real -> real,
    atan2: (real, real) -> real,
    pi: real)

  function Min(a: real, b: real): real { if a <= b then a else b }
  function Max(a: real, b: real): real { if a >= b then a else b }

  /** `Math.max(lo, Math.min(hi, v))`, the clamp used for the segment
      parameter and for the robot's position. When the interval is empty
      (lo > hi) the outer max wins and the result is lo. */
  function Clamp(lo: real, hi: real, v: real): (r: real)
    ensures lo <= hi ==> lo <= r <= hi
    ensures lo <= v <= hi ==> r == v
    ensures v < lo ==> r == lo
    ensures lo <= hi && hi < v ==> r == hi
    ensures hi < lo ==> r == lo
  {
    Max(lo, Min(hi, v))
  }

  function SquaredLength(v: Vec): real { v.x * v.x + v.y * v.y }

  /** Vector2D.magnitude: Math.sqrt(x·x + y·y). */
  function Magnitude(m: Numerics, v: Vec): real {
    m.sqrt(SquaredLength(v))
  }

  /** The zero vector normalises to the zero vector rather than dividing by zero. */
  function Normalize(m: Numerics, v: Vec): (r: Vec)
    ensures Magnitude(m, v) == 0.0 ==> r == Zero
  {
    var mag := Magnitude(m, v);
    if mag == 0.0 then Zero else v.Multiply(1.0 / mag)
  }

  /** A vector whose magnitude exceeds `max` is rescaled to it; any other is returned as it is. */
  function Limit(m: Numerics, v: Vec, max: real): (r: Vec)
    ensures Magnitude(m, v) <= max ==> r == v
  {
    if Magnitude(m, v) > max then Normalize(m, v).Multiply(max) else v
  }

  lemma ProductZero(x: real, y: real)
    requires x * y == 0.0 && y != 0.0
    ensures x == 0.0
  {
    assert x == (x * y) / y;
  }

  /** Line: a segment from `start` to `end`. */
  datatype Line = Line(start: Vec, end: Vec)

  /** The projection ratio of `p` onto the segment, before clamping:
      (p − start)·(end − start) / len², where len is the segment's length. */
  function ProjectionRatio(m: Numerics, l: Line, p: Vec): real
    requires Magnitude(m, l.end.Subtract(l.start)) != 0.0
  {
    var d := l.end.Subtract(l.start);
    var len := Magnitude(m, d);
    assert len * len != 0.0 by { if len * len == 0.0 { ProductZero(len, len); } }
    p.Subtract(l.start).Dot(d) / (len * len)
  }

  /** The clamped parameter t ∈ [0, 1] of the projection of `p` onto a
      non-degenerate segment: the raw projection ratio when it lies in
      [0, 1], otherwise the nearer end of the interval. */
  function ProjectionParameter(m: Numerics, l: Line, p: Vec): (t: real)
    requires Magnitude(m, l.end.Subtract(l.start)) != 0.0
    ensures 0.0 <= t <= 1.0
    ensures 0.0 <= ProjectionRatio(m, l, p) <= 1.0 ==> t == ProjectionRatio(m, l, p)
    ensures ProjectionRatio(m, l, p) < 0.0 ==> t == 0.0
    ensures 1.0 < ProjectionRatio(m, l, p) ==> t == 1.0
  {
    Clamp(0.0, 1.0, ProjectionRatio(m, l, p))
  }

  /** The point of the segment that `distanceToPoint` measures to: the start
      itself for a zero-length segment, otherwise start + t·(end − start)
      for the clamped parameter t, so always a point of the segment. */
  function ClosestPoint(m: Numerics, l: Line, p: Vec): (q: Vec)
    ensures exists t :: 0.0 <= t <= 1.0 && q == l.start.Add(l.end.Subtract(l.start).Multiply(t))
    ensures Magnitude(m, l.end.Subtract(l.start)) == 0.0 ==> q == l.start
    ensures Magnitude(m, l.end.Subtract(l.start)) != 0.0 ==>
              q == l.start.Add(l.end.Subtract(l.start).Multiply(ProjectionParameter(m, l, p)))
  {
    var d := l.end.Subtract(l.start);
    if Magnitude(m, d) == 0.0 then
      assert l.start == l.start.Add(d.Multiply(0.0));
      l.start
    else
      l.start.Add(d.Multiply(ProjectionParameter(m, l, p)))
  }

  /** Line.distanceToPoint: the distance from p to a point of the segment,
      its start when the segment has length zero. */
  function DistanceToPoint(m: Numerics, l: Line, p: Vec): (r: real)
    ensures exists t :: 0.0 <= t <= 1.0
              && r == Magnitude(m, p.Subtract(l.start.Add(l.end.Subtract(l.start).Multiply(t))))
    ensures Magnitude(m, l.end.Subtract(l.start)) == 0.0 ==> r == Magnitude(m, p.Subtract(l.start))
  {
    Magnitude(m, p.Subtract(ClosestPoint(m, l, p)))
  }
}
