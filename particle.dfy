/** One particle of the MP4 physics demo: Euler steps for position and
    velocity inside the box `[-1, 1]^3`, with walls that clamp the position
    and reflect and damp the velocity. */
module Particles {
  import opened Geometry

  /** The time step of every Euler update. */
  const Step: real := 0.08
  /** Start values of the slider-controlled globals; the methods below take
      the current values as parameters. */
  const Gravity: real := 9.8
  const Drag: real := 0.1
  const Bouncing: real := 0.95

  /** The acceleration every particle gets from gravity. */
  function GravityAccel(gravity: real): Vec3 {
    Vec3(0.0, -0.1 * gravity, 0.0)
  }

  predicate InBox(p: Vec3) {
    -1.0 <= p.x <= 1.0 && -1.0 <= p.y <= 1.0 && -1.0 <= p.z <= 1.0
  }

  /** The nearest point of `[-1, 1]`. */
  function Clamp(q: real): real {
    if q < -1.0 then -1.0 else if q > 1.0 then 1.0 else q
  }

  /** The two wall checks of `updatePosition` on one axis, in source order:
      `q` is the moved coordinate, `w` the velocity component. The result
      is clamped, and the velocity is reflected and damped at most once. */
  function Bounce(q: real, w: real, bouncing: real): (r: (real, real))
    ensures r.0 == Clamp(q) && -1.0 <= r.0 <= 1.0
    ensures r.1 == if -1.0 <= q <= 1.0 then w else -w * bouncing
  {
    var (q1, w1) := if q < -1.0 then (-1.0, -w * bouncing) else (q, w);
    if q1 > 1.0 then (1.0, -w1 * bouncing) else (q1, w1)
  }

  /** The wall checks on all three axes. */
  function Bounced(q: Vec3, w: Vec3, bouncing: real): (r: (Vec3, Vec3))
    ensures InBox(r.0)
    ensures forall i :: 0 <= i < 3 ==> Get(r.0, i) == Bounce(Get(q, i), Get(w, i), bouncing).0
    ensures forall i :: 0 <= i < 3 ==> Get(r.1, i) == Bounce(Get(q, i), Get(w, i), bouncing).1
  {
    var (x, vx) := Bounce(q.x, w.x, bouncing);
    var (y, vy) := Bounce(q.y, w.y, bouncing);
    var (z, vz) := Bounce(q.z, w.z, bouncing);
    (Vec3(x, y, z), Vec3(vx, vy, vz))
  }

  /** A move that stays inside the box is plain Euler integration. */
  lemma InsideNoBounce(q: Vec3, w: Vec3, bouncing: real)
    requires InBox(q)
    ensures Bounced(q, w, bouncing) == (q, w)
  {
  }

  /** The walls only ever change the axes that left the box. */
  lemma OnlyOutsideAxesBounce(q: Vec3, w: Vec3, bouncing: real, i: nat)
    requires i < 3 && -1.0 <= Get(q, i) <= 1.0
    ensures Get(Bounced(q, w, bouncing).0, i) == Get(q, i)
    ensures Get(Bounced(q, w, bouncing).1, i) == Get(w, i)
  {
  }

  lemma SquareAtMostOne(c: real)
    requires c * c <= 1.0
    ensures -1.0 <= c <= 1.0
  {
    assert c * c - 1.0 == (c - 1.0) * (c + 1.0);
  }

  /** `vec3.random` gives a unit vector, and a unit vector lies in the box;
      so a new particle starts inside it. */
  lemma UnitInBox(a: Vec3)
    requires Len2(a) == 1.0
    ensures InBox(a)
  {
    assert a.x * a.x >= 0.0 && a.y * a.y >= 0.0 && a.z * a.z >= 0.0;
    SquareAtMostOne(a.x);
    SquareAtMostOne(a.y);
    SquareAtMostOne(a.z);
  }

  lemma Vec3Ext(a: Vec3, b: Vec3)
    requires forall i :: 0 <= i < 3 ==> Get(a, i) == Get(b, i)
    ensures a == b
  {
    assert Get(a, 0) == Get(b, 0) && Get(a, 1) == Get(b, 1) && Get(a, 2) == Get(b, 2);
  }

  /** The state one frame of the simulation changes. */
  datatype Kinematics = Kinematics(p: Vec3, v: Vec3, a: Vec3)

  /** The state one frame of the simulation leaves alone. */
  datatype Appearance = Appearance(r: real, R: real, G: real, B: real)

  /** One frame of `updateParticles` for one particle: velocity first (with
      the old acceleration), then position (with the new velocity), then
      acceleration. `k` is the drag factor `Math.pow(1 - drag, step)`. */
  function Stepped(s: Kinematics, k: real, bouncing: real, gravity: real): (r: Kinematics)
    ensures InBox(r.p) && r.a == GravityAccel(gravity)
  {
    var v1 := Add(Scale(s.v, k), Scale(s.a, Step));
    var (p2, v2) := Bounced(Add(s.p, Scale(v1, Step)), v1, bouncing);
    Kinematics(p2, v2, GravityAccel(gravity))
  }

  /** A frame that does not reach a wall is semi-implicit Euler integration
      with drag. */
  lemma SteppedInside(s: Kinematics, k: real, bouncing: real, gravity: real)
    requires InBox(Add(s.p, Scale(Add(Scale(s.v, k), Scale(s.a, Step)), Step)))
    ensures Stepped(s, k, bouncing, gravity).v == Add(Scale(s.v, k), Scale(s.a, Step))
    ensures Stepped(s, k, bouncing, gravity).p == Add(s.p, Scale(Stepped(s, k, bouncing, gravity).v, Step))
  {
    var v1 := Add(Scale(s.v, k), Scale(s.a, Step));
    InsideNoBounce(Add(s.p, Scale(v1, Step)), v1, bouncing);
  }

  /** One pass of the axis loop of `updatePosition`: below -1 clamps to
      -1 and reflects the velocity, then above 1 clamps to 1 and reflects
      it. */
  method BounceAxis(q: Vec3, w: Vec3, i: nat, bouncing: real) returns (q': Vec3, w': Vec3)
    requires i < 3
    ensures Get(q', i) == Bounce(Get(q, i), Get(w, i), bouncing).0
    ensures Get(w', i) == Bounce(Get(q, i), Get(w, i), bouncing).1
    ensures forall k :: 0 <= k < 3 && k != i ==> Get(q', k) == Get(q, k) && Get(w', k) == Get(w, k)
  {
    q', w' := q, w;
    if Get(q', i) < -1.0 {
      q' := With(q', i, -1.0);
      w' := With(w', i, -Get(w', i) * bouncing);
    }
    if Get(q', i) > 1.0 {
      q' := With(q', i, 1.0);
      w' := With(w', i, -Get(w', i) * bouncing);
    }
  }

  class Particle {
    /** Position, velocity and acceleration. */
    var p: Vec3
    var v: Vec3
    var a: Vec3
    /** Radius and colour. */
    var r: real
    var R: real
    var G: real
    var B: real

    function Kin(): Kinematics
      reads this
    {
      Kinematics(p, v, a)
    }

    /** What only `draw` reads: the radius and the colour. */
    function Looks(): Appearance
      reads this
    {
      Appearance(r, R, G, B)
    }

    /** `pDir` and `vDir` are the two `vec3.random` draws, `u`, `uR`, `uG`,
        `uB` the four `Math.random` draws. */
    constructor (pDir: Vec3, vDir: Vec3, gravity: real, u: real, uR: real, uG: real, uB: real)
      requires 0.0 <= u < 1.0 && 0.0 <= uR < 1.0 && 0.0 <= uG < 1.0 && 0.0 <= uB < 1.0
      ensures p == pDir && v == vDir && a == GravityAccel(gravity)
      ensures r == 0.05 + u * 0.05 && 0.05 <= r < 0.10
      ensures R == uR && G == uG && B == uB
      ensures 0.0 <= R < 1.0 && 0.0 <= G < 1.0 && 0.0 <= B < 1.0
    {
      p := pDir;
      v := vDir;
      a := GravityAccel(gravity);
      r := 0.05 + u * 0.05;
      R, G, B := uR, uG, uB;
    }

    /** `p += v * step`, then per axis: below -1 clamps to -1 and reflects
        the velocity, above 1 clamps to 1 and reflects it. */
    method UpdatePosition(bouncing: real)
      modifies this`p, this`v
      ensures (p, v) == Bounced(Add(old(p), Scale(old(v), Step)), old(v), bouncing)
      ensures InBox(p)
    {
      var velocity := v;
      var increment := Scale(velocity, Step);
      var moved := Add(p, increment);
      var q, w := moved, velocity;
      for i := 0 to 3
        invariant forall k :: 0 <= k < i ==> Get(q, k) == Bounce(Get(moved, k), Get(velocity, k), bouncing).0
        invariant forall k :: 0 <= k < i ==> Get(w, k) == Bounce(Get(moved, k), Get(velocity, k), bouncing).1
        invariant forall k :: i <= k < 3 ==> Get(q, k) == Get(moved, k) && Get(w, k) == Get(velocity, k)
      {
        q, w := BounceAxis(q, w, i, bouncing);
      }
      ghost var b := Bounced(moved, velocity, bouncing);
      Vec3Ext(q, b.0);
      Vec3Ext(w, b.1);
      p, v := q, w;
    }

    /** `v = v * k + a * step`, where `k` is `Math.pow(1 - drag, step)`. */
    method UpdateVelocity(k: real)
      modifies this`v
      ensures v == Add(Scale(old(v), k), Scale(a, Step))
    {
      v := Scale(v, k);
      var increment := Scale(a, Step);
      v := Add(v, increment);
    }

    /** `a = (0, -0.1 * gravity, 0)`, whatever it was. */
    method UpdateAcceleration(gravity: real)
      modifies this`a
      ensures a == GravityAccel(gravity)
    {
      a := GravityAccel(gravity);
    }
  }
}
