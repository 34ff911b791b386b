/** MP1: the Illinois logo (animation 1) and the bouncing ball (animation 2).
    The state is the page's globals: the chosen animation, the frame
    counter, the wall flag and the frame it was last cleared, the ball's
    direction, and the position and colour buffers. */
module LogoBall {
  import opened Geometry

  const Logo: string := "animation1"
  const Ball: string := "animation2"

  /** Animation 1 restarts after this frame. */
  const LastFrame: int := 820
  /** The ball moves this far per frame. */
  const BallSpeed: real := 0.02
  /** Points on the ball's rim, and the rim's radius. */
  const RimPoints: nat := 100
  const Radius: real := 0.25

  // ---------------------------------------------------------------------
  // Animation 1: the logo mesh and its colours

  /** The 42 vertices of the logo's orange inside. */
  const ContentVertices: seq<real> := [
      -0.36, 0.34, 0.0,
      -0.16, 0.34, 0.0,
      -0.36, 0.56, 0.0,
      -0.16, 0.34, 0.0,
      -0.36, 0.56, 0.0,
      -0.16, 0.56, 0.0,
      0.36, 0.34, 0.0,
      0.16, 0.34, 0.0,
      0.36, 0.56, 0.0,
      0.16, 0.34, 0.0,
      0.36, 0.56, 0.0,
      0.16, 0.56, 0.0,
      -0.16, 0.34, 0.0,
      -0.16, 0.56, 0.0,
      0.16, 0.34, 0.0,
      0.16, 0.34, 0.0,
      -0.16, 0.56, 0.0,
      0.16, 0.56, 0.0,
      -0.36, -0.34, 0.0,
      -0.16, -0.34, 0.0,
      -0.36, -0.56, 0.0,
      -0.16, -0.34, 0.0,
      -0.36, -0.56, 0.0,
      -0.16, -0.56, 0.0,
      0.36, -0.34, 0.0,
      0.16, -0.34, 0.0,
      0.36, -0.56, 0.0,
      0.16, -0.34, 0.0,
      0.36, -0.56, 0.0,
      0.16, -0.56, 0.0,
      -0.16, -0.34, 0.0,
      -0.16, -0.56, 0.0,
      0.16, -0.34, 0.0,
      0.16, -0.34, 0.0,
      -0.16, -0.56, 0.0,
      0.16, -0.56, 0.0,
      -0.16, -0.34, 0.0,
      -0.16, 0.34, 0.0,
      0.16, -0.34, 0.0,
      -0.16, 0.34, 0.0,
      0.16, -0.34, 0.0,
      0.16, 0.34, 0.0
    ]

  /** The 72 vertices of the logo's blue outline. */
  const EdgeVertices: seq<real> := [
      -0.4, 0.6, 0.0,
      -0.4, 0.56, 0.0,
      0.4, 0.6, 0.0,
      -0.4, 0.56, 0.0,
      0.4, 0.6, 0.0,
      0.4, 0.56, 0.0,
      -0.4, 0.56, 0.0,
      -0.36, 0.56, 0.0,
      -0.4, 0.34, 0.0,
      -0.4, 0.34, 0.0,
      -0.36, 0.34, 0.0,
      -0.36, 0.56, 0.0,
      0.4, 0.56, 0.0,
      0.36, 0.56, 0.0,
      0.4, 0.34, 0.0,
      0.4, 0.34, 0.0,
      0.36, 0.34, 0.0,
      0.36, 0.56, 0.0,
      -0.4, 0.34, 0.0,
      -0.4, 0.3, 0.0,
      -0.16, 0.3, 0.0,
      -0.16, 0.3, 0.0,
      -0.16, 0.34, 0.0,
      -0.4, 0.34, 0.0,
      0.4, 0.34, 0.0,
      0.4, 0.3, 0.0,
      0.16, 0.3, 0.0,
      0.16, 0.3, 0.0,
      0.16, 0.34, 0.0,
      0.4, 0.34, 0.0,
      -0.2, 0.3, 0.0,
      -0.2, -0.34, 0.0,
      -0.16, -0.34, 0.0,
      -0.2, 0.3, 0.0,
      -0.16, -0.34, 0.0,
      -0.16, 0.34, 0.0,
      0.2, 0.3, 0.0,
      0.2, -0.34, 0.0,
      0.16, -0.34, 0.0,
      0.2, 0.3, 0.0,
      0.16, -0.34, 0.0,
      0.16, 0.34, 0.0,
      -0.4, -0.6, 0.0,
      -0.4, -0.56, 0.0,
      0.4, -0.6, 0.0,
      -0.4, -0.56, 0.0,
      0.4, -0.6, 0.0,
      0.4, -0.56, 0.0,
      -0.4, -0.56, 0.0,
      -0.36, -0.56, 0.0,
      -0.4, -0.34, 0.0,
      -0.4, -0.34, 0.0,
      -0.36, -0.34, 0.0,
      -0.36, -0.56, 0.0,
      0.4, -0.56, 0.0,
      0.36, -0.56, 0.0,
      0.4, -0.34, 0.0,
      0.4, -0.34, 0.0,
      0.36, -0.34, 0.0,
      0.36, -0.56, 0.0,
      -0.4, -0.34, 0.0,
      -0.4, -0.3, 0.0,
      -0.16, -0.3, 0.0,
      -0.16, -0.3, 0.0,
      -0.16, -0.34, 0.0,
      -0.4, -0.34, 0.0,
      0.4, -0.34, 0.0,
      0.4, -0.3, 0.0,
      0.16, -0.3, 0.0,
      0.16, -0.3, 0.0,
      0.16, -0.34, 0.0,
      0.4, -0.34, 0.0
    ]

  /** `getVertexPositions` for animation 1: the inside, then the outline. */
  function LogoPositions(): (r: seq<real>)
    ensures |r| == 3 * (42 + 72)
  {
    ContentVertices + EdgeVertices
  }

  const Orange: seq<real> := [0.909, 0.290, 0.152, 1.0]
  const Blue: seq<real> := [0.074, 0.160, 0.294, 1.0]

  /** `n` copies of the colour `c`. */
  function Repeat(c: seq<real>, n: nat): (r: seq<real>)
    ensures |r| == n * |c|
  {
    if n == 0 then [] else Repeat(c, n - 1) + c
  }

  /** Every entry of `Repeat(c, n)` is the matching entry of `c`. */
  lemma {:induction false} RepeatAt(c: seq<real>, n: nat, k: nat, m: nat)
    requires k < n && m < |c|
    ensures k * |c| + m < |Repeat(c, n)| && Repeat(c, n)[k * |c| + m] == c[m]
  {
    if k < n - 1 {
      RepeatAt(c, n - 1, k, m);
      assert Repeat(c, n) == Repeat(c, n - 1) + c;
    } else {
      assert Repeat(c, n) == Repeat(c, n - 1) + c;
      assert |Repeat(c, n - 1)| == k * |c|;
    }
  }

  /** `getVertexColors` for animation 1: one orange colour per inside
      vertex, then one blue colour per outline vertex. */
  function LogoColors(): (r: seq<real>)
    ensures |r| == 4 * (42 + 72)
  {
    Repeat(Orange, 42) + Repeat(Blue, 72)
  }

  // ---------------------------------------------------------------------
  // Animation 2: the ball mesh and its colours

  /** Rim point `i`; `rim(i)` stands for the cosine and sine of
      `i * 2 * Math.PI / numVertices`. */
  function RimPoint(rim: int -> (real, real), i: int): (r: seq<real>)
    ensures |r| == 3 && r[2] == 0.0
  {
    [Radius * rim(i).0, Radius * rim(i).1, 0.0]
  }

  /** The first `n` rim points. */
  function Rim(rim: int -> (real, real), n: nat): (r: seq<real>)
    ensures |r| == 3 * n
  {
    if n == 0 then [] else Rim(rim, n - 1) + RimPoint(rim, n - 1)
  }

  /** Rim point `i` is the triple at `3 * i` of every longer rim. */
  lemma {:induction false} RimAt(rim: int -> (real, real), n: nat, i: nat)
    requires i < n
    ensures Rim(rim, n)[3 * i .. 3 * i + 3] == RimPoint(rim, i)
  {
    if i < n - 1 {
      RimAt(rim, n - 1, i);
      assert Rim(rim, n) == Rim(rim, n - 1) + RimPoint(rim, n - 1);
    } else {
      assert Rim(rim, n) == Rim(rim, n - 1) + RimPoint(rim, n - 1);
    }
  }

  /** `getVertexPositions` for animation 2: the centre of the fan, then the
      rim points `0..numVertices`, the last one closing the circle. */
  function BallPositions(rim: int -> (real, real)): (r: seq<real>)
    ensures |r| == 3 * (RimPoints + 2)
  {
    [0.08, 0.08, 0.0] + Rim(rim, RimPoints + 1)
  }

  /** Vertex 0 of the ball is the fan's centre `(0.08, 0.08, 0)`, and
      vertex `1 + i` is rim point `i`: `Radius` times the cosine and sine of
      its angle, in the plane `z = 0`. */
  lemma BallPositionAt(rim: int -> (real, real), i: nat)
    requires i <= RimPoints
    ensures VecAt(BallPositions(rim), 0) == Vec3(0.08, 0.08, 0.0)
    ensures VecAt(BallPositions(rim), 1 + i) == Vec3(Radius * rim(i).0, Radius * rim(i).1, 0.0)
  {
    var vp := BallPositions(rim);
    RimAt(rim, RimPoints + 1, i);
    assert vp[3 + 3 * i .. 6 + 3 * i] == Rim(rim, RimPoints + 1)[3 * i .. 3 * i + 3];
    assert vp[3 + 3 * i .. 6 + 3 * i][0] == vp[3 * (1 + i)];
    assert vp[3 + 3 * i .. 6 + 3 * i][1] == vp[3 * (1 + i) + 1];
    assert vp[3 + 3 * i .. 6 + 3 * i][2] == vp[3 * (1 + i) + 2];
  }

  function Abs(q: real): real {
    if q < 0.0 then -q else q
  }

  /** The red part of rim point `i`: its distance from the middle index,
      relative to half the rim. */
  function RimRed(i: int): real {
    Abs((i as real - RimPoints as real / 2.0) / (RimPoints as real / 2.0))
  }

  /** Red and blue are in `[0, 1]` at every rim point. */
  lemma RimRedInRange(i: int)
    requires 0 <= i <= RimPoints
    ensures 0.0 <= RimRed(i) <= 1.0 && 0.0 <= 1.0 - RimRed(i) <= 1.0
  {
  }

  function Shade(g: real, i: int): (r: seq<real>)
    ensures |r| == 4 && r[1] == g && r[3] == 1.0 && r[0] + r[2] == 1.0
  {
    [RimRed(i), g, 1.0 - RimRed(i), 1.0]
  }

  function Shades(g: real, n: nat): (r: seq<real>)
    ensures |r| == 4 * n
  {
    if n == 0 then [] else Shades(g, n - 1) + Shade(g, n - 1)
  }

  /** Shade `i` is the colour at `4 * i` of every longer gradient. */
  lemma {:induction false} ShadesAt(g: real, n: nat, i: nat)
    requires i < n
    ensures Shades(g, n)[4 * i .. 4 * i + 4] == Shade(g, i)
  {
    if i < n - 1 {
      ShadesAt(g, n - 1, i);
      assert Shades(g, n) == Shades(g, n - 1) + Shade(g, n - 1);
    } else {
      assert Shades(g, n) == Shades(g, n - 1) + Shade(g, n - 1);
    }
  }

  /** `getVertexColors` for animation 2: white at the centre, then a red to
      blue gradient round the rim with one random green. */
  function BallColors(g: real): (r: seq<real>)
    ensures |r| == 4 * (RimPoints + 2)
  {
    [1.0, 1.0, 1.0, 1.0] + Shades(g, RimPoints + 1)
  }

  /** The centre is opaque white, and the colour of rim point `i` is
      `Shade(g, i)`: red and blue in `[0, 1]` adding up to 1, green `g`,
      alpha 1. */
  lemma BallColorAt(g: real, i: nat)
    requires i <= RimPoints
    ensures BallColors(g)[..4] == [1.0, 1.0, 1.0, 1.0]
    ensures BallColors(g)[4 + 4 * i .. 8 + 4 * i] == Shade(g, i)
    ensures var c := BallColors(g)[4 + 4 * i .. 8 + 4 * i];
      0.0 <= c[0] <= 1.0 && c[2] == 1.0 - c[0] && c[1] == g && c[3] == 1.0
  {
    var cs := BallColors(g);
    ShadesAt(g, RimPoints + 1, i);
    assert cs[4 + 4 * i .. 8 + 4 * i] == Shades(g, RimPoints + 1)[4 * i .. 4 * i + 4];
    RimRedInRange(i);
  }

  /** Every vertex gets a colour: as many RGBA colours as position triples,
      in both animations. */
  lemma CountsAgree(rim: int -> (real, real), g: real)
    ensures |LogoPositions()| / 3 == |LogoColors()| / 4 == 42 + 72
    ensures |BallPositions(rim)| / 3 == |BallColors(g)| / 4 == RimPoints + 2
  {
  }

  // ---------------------------------------------------------------------
  // Animation 2: the wall test and the move

  /** A coordinate at or beyond a wall. */
  predicate Hits(q: real) {
    q >= 1.0 || q <= -1.0
  }

  /** The flag the detection loop leaves, scanning the vertices from
      position `i`: 2 when the first vertex that would hit a wall hits it
      in x, 1 when it hits it only in y, 0 when none would. */
  function FirstHit(vp: seq<real>, xs: real, ys: real, i: nat): (r: int)
    requires |vp| % 3 == 0 && i % 3 == 0
    ensures 0 <= r <= 2
    decreases |vp| - i
  {
    if i >= |vp| then 0
    else if Hits(vp[i] + xs) then 2
    else if Hits(vp[i + 1] + ys) then 1
    else FirstHit(vp, xs, ys, i + 3)
  }

  /** No flag from position `i` on means no vertex from there on would
      reach a wall. */
  lemma {:induction false} NoHitFrom(vp: seq<real>, xs: real, ys: real, i: nat)
    requires |vp| % 3 == 0 && i % 3 == 0 && FirstHit(vp, xs, ys, i) == 0
    ensures forall j :: i <= j < |vp| && j % 3 == 0 ==> !Hits(vp[j] + xs) && !Hits(vp[j + 1] + ys)
    decreases |vp| - i
  {
    if i < |vp| {
      NoHitFrom(vp, xs, ys, i + 3);
    }
  }

  /** Neither the next x nor the next y of the vertex at position `k`
      reaches a wall. */
  predicate Clear(vp: seq<real>, xs: real, ys: real, k: nat)
    requires k + 1 < |vp|
  {
    !Hits(vp[k] + xs) && !Hits(vp[k + 1] + ys)
  }

  /** The vertex at position `j` is the first one from position `i` on
      that would reach a wall. */
  predicate FirstHitting(vp: seq<real>, xs: real, ys: real, i: nat, j: nat)
  {
    && i <= j && j + 2 < |vp| && j % 3 == 0 && !Clear(vp, xs, ys, j)
    && forall k :: i <= k < j && k % 3 == 0 ==> Clear(vp, xs, ys, k)
  }

  /** A raised flag names a vertex: the first one from position `i` on that
      would reach a wall. The flag is 2 exactly when that vertex reaches it
      in x (x is tested first), and 1 when it reaches it only in y. */
  lemma {:induction false} FirstHitAt(vp: seq<real>, xs: real, ys: real, i: nat)
    requires |vp| % 3 == 0 && i % 3 == 0 && FirstHit(vp, xs, ys, i) != 0
    ensures exists j: nat :: FirstHitting(vp, xs, ys, i, j) && (FirstHit(vp, xs, ys, i) == 2 <==> Hits(vp[j] + xs))
    decreases |vp| - i
  {
    assert i + 2 < |vp|;
    if Clear(vp, xs, ys, i) {
      FirstHitAt(vp, xs, ys, i + 3);
      var j: nat :| FirstHitting(vp, xs, ys, i + 3, j) && (FirstHit(vp, xs, ys, i + 3) == 2 <==> Hits(vp[j] + xs));
      forall k | i <= k < j && k % 3 == 0
        ensures Clear(vp, xs, ys, k)
      {
        assert k == i || i + 3 <= k;
      }
      assert FirstHitting(vp, xs, ys, i, j);
    } else {
      assert FirstHitting(vp, xs, ys, i, i);
    }
  }

  /** Every vertex moved by the speed. */
  function Shifted(vp: seq<real>, xs: real, ys: real): (r: seq<real>)
    requires |vp| % 3 == 0
    ensures |r| == |vp|
  {
    seq(|vp|, j requires 0 <= j < |vp| => if j % 3 == 0 then vp[j] + xs else if j % 3 == 1 then vp[j] + ys else vp[j])
  }

  /** Every vertex's x and y lie strictly between the walls. */
  predicate BallInside(vp: seq<real>)
    requires |vp| % 3 == 0
  {
    forall j :: 0 <= j < |vp| && j % 3 == 0 ==> -1.0 < vp[j] < 1.0 && -1.0 < vp[j + 1] < 1.0
  }

  /** After a move, which happens only when no flag was raised, every
      vertex lies strictly inside the walls. */
  lemma MoveStaysInside(vp: seq<real>, xs: real, ys: real)
    requires |vp| % 3 == 0 && FirstHit(vp, xs, ys, 0) == 0
    ensures BallInside(Shifted(vp, xs, ys))
  {
    NoHitFrom(vp, xs, ys, 0);
    var r := Shifted(vp, xs, ys);
    forall j | 0 <= j < |r| && j % 3 == 0
      ensures -1.0 < r[j] < 1.0 && -1.0 < r[j + 1] < 1.0
    {
      assert (j + 1) % 3 == 1;
      assert r[j] == vp[j] + xs && r[j + 1] == vp[j + 1] + ys;
    }
  }

  /** The bounce factor `0.95 + 0.1 * Math.random()`. */
  function Damping(u: real): (r: real)
    requires 0.0 <= u < 1.0
    ensures 0.95 <= r < 1.05
  {
    0.95 + 0.1 * u
  }

  /** The direction after the flag handling at the start of a frame:
      flag 1 reverses and damps y, flag 2 reverses and damps x. */
  function Rebounded(x: real, y: real, flag: int, u: real): (real, real)
    requires 0.0 <= u < 1.0
  {
    if flag == 1 then (x, -y * Damping(u))
    else if flag == 2 then (-x * Damping(u), y)
    else (x, y)
  }

  /** Turning round on one axis: the component changes sign (it stays 0
      only when it was 0) and keeps between 95% and 105% of its size. */
  predicate TurnedRound(before: real, after: real) {
    after * before <= 0.0 && (before != 0.0 ==> after * before < 0.0)
    && 0.95 * Abs(before) <= Abs(after) <= 1.05 * Abs(before)
  }

  lemma DampedTurn(w: real, u: real)
    requires 0.0 <= u < 1.0
    ensures TurnedRound(w, -w * Damping(u))
  {
    var d := Damping(u);
    assert -w * d * w == -(d * (w * w));
    if w != 0.0 {
      assert w * w > 0.0;
    }
    if w < 0.0 {
      assert Abs(-w * d) == d * -w;
    } else {
      assert Abs(-w * d) == d * w;
    }
  }

  /** A wall hit in y (flag 1) turns the ball round in y and keeps its x;
      a hit in x (flag 2) turns it round in x and keeps its y; with no flag
      the direction stays. So after a hit the ball heads back from the
      wall. */
  lemma ReboundTurnsRound(x: real, y: real, flag: int, u: real)
    requires 0.0 <= u < 1.0
    ensures var r := Rebounded(x, y, flag, u);
      (flag == 1 ==> r.0 == x && TurnedRound(y, r.1))
      && (flag == 2 ==> TurnedRound(x, r.0) && r.1 == y)
      && (flag != 1 && flag != 2 ==> r == (x, y))
  {
    if flag == 1 {
      DampedTurn(y, u);
    } else if flag == 2 {
      DampedTurn(x, u);
    }
  }

  /** The per-frame step: the direction scaled to length `BallSpeed`;
      `invSqrt` stands for one over `** 0.5`. */
  function BallVelocity(x: real, y: real, invSqrt: real -> real): (r: (real, real))
  {
    (x * invSqrt(x * x + y * y) * BallSpeed, y * invSqrt(x * x + y * y) * BallSpeed)
  }

  /** When `invSqrt` is exact, the step has length `BallSpeed` whatever
      the direction (a zero direction aside). */
  lemma BallVelocityLength(x: real, y: real, invSqrt: real -> real)
    requires x * x + y * y > 0.0 && IsInvSqrtAt(invSqrt, x * x + y * y)
    ensures var v := BallVelocity(x, y, invSqrt);
      v.0 * v.0 + v.1 * v.1 == BallSpeed * BallSpeed
  {
    var k := invSqrt(x * x + y * y);
    var v := BallVelocity(x, y, invSqrt);
    assert v.0 * v.0 + v.1 * v.1 == (k * k * (x * x + y * y)) * (BallSpeed * BallSpeed);
  }

  /** The warps bend vertices but never add or drop any. */
  ghost predicate KeepsLength(warp: (int, seq<real>) -> seq<real>) {
    forall f, vp :: |warp(f, vp)| == |vp|
  }

  /** The frames in which animation 1 bends the logo's top half. */
  predicate InWarp(frame: int) {
    (230 < frame <= 350) || (360 < frame <= 440) || (450 < frame <= 530)
  }

  /** The frame counter of animation 1 after a frame: past the last frame
      it restarts at 0. */
  function NextLogoFrame(frame: int): (r: int)
    ensures 0 <= frame <= LastFrame ==> 0 <= r <= LastFrame
  {
    if frame >= LastFrame then 0 else frame + 1
  }

  // ---------------------------------------------------------------------
  // The page state

  /** The animation 2 branch of `getVertexPositions`: the centre, then
      one point per rim index `0..numVertices`. */
  method BallBuffer(rim: int -> (real, real), numVertices: nat) returns (vp: seq<real>)
    requires numVertices == RimPoints
    ensures vp == BallPositions(rim)
  {
    vp := [0.08, 0.08, 0.0];
    var i := 0;
    while i <= numVertices
      invariant 0 <= i <= numVertices + 1
      invariant vp == [0.08, 0.08, 0.0] + Rim(rim, i)
    {
      var angle := rim(i);
      var x := Radius * angle.0;
      var y := Radius * angle.1;
      var z := 0.0;
      ghost var before := vp;
      vp := vp + [x];
      vp := vp + [y];
      vp := vp + [z];
      assert vp == before + RimPoint(rim, i);
      AppendAssoc([0.08, 0.08, 0.0], Rim(rim, i), RimPoint(rim, i));
      i := i + 1;
    }
  }

  class Page {
    var animation: string
    var frame: int
    var wallFlag: int
    var wallFrame: int
    var xDirection: real
    var yDirection: real
    var numVertices: int
    var vertexPositions: seq<real>
    var vertexColors: seq<real>

    /** The buffers hold whole vertices, the flag is one of its three
        values, and animation 1 keeps its frame counter in range. */
    ghost predicate Valid()
      reads this
    {
      |vertexPositions| % 3 == 0 && 0 <= wallFlag <= 2
      && (animation == Logo ==> 0 <= frame <= LastFrame)
      && (animation == Ball ==> numVertices == RimPoints)
    }

    /** Page load: the globals' initial values (the directions from two
        `Math.random` draws `ux`, `uy`), then `main`: both logo buffers are
        built and the first `tick()` runs one animation 1 frame, after which
        the counter is 1. */
    constructor (ux: real, uy: real, rim: int -> (real, real), g: real,
                 warp: (int, seq<real>) -> seq<real>, u: real, g2: real, invSqrt: real -> real)
      requires 0.0 <= ux < 1.0 && 0.0 <= uy < 1.0 && 0.0 <= u < 1.0
      requires KeepsLength(warp)
      ensures Valid()
      ensures animation == Logo && frame == 1 && wallFlag == 0 && wallFrame == 0
      ensures xDirection == -1.0 + 2.0 * ux && yDirection == -1.0 + 2.0 * uy
      ensures -1.0 <= xDirection < 1.0 && -1.0 <= yDirection < 1.0
      ensures vertexPositions == LogoPositions() && vertexColors == LogoColors()
    {
      animation := Logo;
      frame := 0;
      wallFlag := 0;
      wallFrame := 0;
      xDirection := -1.0 + 2.0 * ux;
      yDirection := -1.0 + 2.0 * uy;
      numVertices := 0;
      vertexPositions := [];
      vertexColors := [];
      new;
      Start(rim, g, warp, u, g2, invSqrt);
    }

    /** `getVertexPositions`: rebuilds the position buffer of the current
        animation (and, for the ball, sets `numVertices`). */
    method GetVertexPositions(rim: int -> (real, real))
      modifies this`vertexPositions, this`numVertices
      ensures animation == Logo ==> vertexPositions == LogoPositions() && numVertices == old(numVertices)
      ensures animation == Ball ==> vertexPositions == BallPositions(rim) && numVertices == RimPoints
      ensures animation != Logo && animation != Ball ==>
        vertexPositions == old(vertexPositions) && numVertices == old(numVertices)
    {
      if animation == Logo {
        vertexPositions := ContentVertices + EdgeVertices;
      }
      if animation == Ball {
        numVertices := RimPoints;
        vertexPositions := BallBuffer(rim, numVertices);
      }
    }

    /** `getVertexColors`: rebuilds the colour buffer of the current
        animation; `g` is the `Math.random` draw for the ball's green. */
    method GetVertexColors(g: real)
      requires animation == Ball ==> numVertices == RimPoints
      modifies this`vertexColors
      ensures animation == Logo ==> vertexColors == LogoColors()
      ensures animation == Ball ==> vertexColors == BallColors(g)
      ensures animation != Logo && animation != Ball ==> vertexColors == old(vertexColors)
    {
      if animation == Logo {
        vertexColors := [];
        for i := 0 to 42
          invariant vertexColors == Repeat(Orange, i)
        {
          vertexColors := vertexColors + Orange;
        }
        for i := 0 to 72
          invariant vertexColors == Repeat(Orange, 42) + Repeat(Blue, i)
        {
          AppendAssoc(Repeat(Orange, 42), Repeat(Blue, i), Blue);
          vertexColors := vertexColors + Blue;
        }
      }
      if animation == Ball {
        vertexColors := [1.0, 1.0, 1.0, 1.0];
        var a := 1.0;
        var halfV := numVertices as real / 2.0;
        for i := 0 to numVertices + 1
          invariant vertexColors == [1.0, 1.0, 1.0, 1.0] + Shades(g, i)
        {
          var r := Abs((i as real - halfV) / halfV);
          var b := 1.0 - r;
          ghost var before := vertexColors;
          vertexColors := vertexColors + [r, g, b, a];
          assert vertexColors == before + Shade(g, i);
          AppendAssoc([1.0, 1.0, 1.0, 1.0], Shades(g, i), Shade(g, i));
        }
      }
    }

    /** Animation 1 part of `animate`: fresh positions, bent in the warp
        frames by `warp` (the sine and cosine loops), and the counter set
        to -1 after the last frame. The matrix changes are not part of this
        model. */
    method AnimateLogo(rim: int -> (real, real), warp: (int, seq<real>) -> seq<real>)
      requires animation == Logo
      modifies this`vertexPositions, this`numVertices, this`frame
      ensures vertexPositions == if InWarp(old(frame)) then warp(old(frame), LogoPositions()) else LogoPositions()
      ensures frame == if old(frame) >= LastFrame then -1 else old(frame)
      ensures numVertices == old(numVertices)
    {
      GetVertexPositions(rim);
      if InWarp(frame) {
        vertexPositions := warp(frame, vertexPositions);
      }
      if frame >= LastFrame {
        frame := -1;
      }
    }

    /** The flag handling at the start of an animation 2 frame: a raised
        flag turns the ball round on its axis, recolours it, clears the
        flag and remembers the frame. */
    method Rebound(u: real, g: real)
      requires 0.0 <= u < 1.0 && animation == Ball && numVertices == RimPoints
      modifies this`xDirection, this`yDirection, this`vertexColors, this`wallFlag, this`wallFrame
      ensures (xDirection, yDirection) == Rebounded(old(xDirection), old(yDirection), old(wallFlag), u)
      ensures wallFlag == if old(wallFlag) == 1 || old(wallFlag) == 2 then 0 else old(wallFlag)
      ensures wallFrame == if old(wallFlag) == 1 || old(wallFlag) == 2 then frame else old(wallFrame)
      ensures vertexColors == if old(wallFlag) == 1 || old(wallFlag) == 2 then BallColors(g) else old(vertexColors)
    {
      if wallFlag == 1 {
        yDirection := -yDirection * Damping(u);
        GetVertexColors(g);
        wallFlag := 0;
        wallFrame := frame;
        assert (xDirection, yDirection) == Rebounded(old(xDirection), old(yDirection), 1, u);
      }
      if wallFlag == 2 {
        xDirection := -xDirection * Damping(u);
        GetVertexColors(g);
        wallFlag := 0;
        wallFrame := frame;
        assert Rebounded(old(xDirection), old(yDirection), 2, u).1 == yDirection;
        assert Rebounded(old(xDirection), old(yDirection), 2, u).0 == xDirection;
      }
    }

    /** The wall test: scan the vertices in order, stop at the first one
        whose next x or next y would reach a wall. */
    method DetectWall(xSpeed: real, ySpeed: real)
      requires |vertexPositions| % 3 == 0 && wallFlag == 0
      modifies this`wallFlag
      ensures wallFlag == FirstHit(vertexPositions, xSpeed, ySpeed, 0)
    {
      var i := 0;
      while i < |vertexPositions|
        invariant 0 <= i && i % 3 == 0 && wallFlag == 0
        invariant FirstHit(vertexPositions, xSpeed, ySpeed, i) == FirstHit(vertexPositions, xSpeed, ySpeed, 0)
        decreases |vertexPositions| - i
      {
        var nextX := vertexPositions[i] + xSpeed;
        var nextY := vertexPositions[i + 1] + ySpeed;
        if nextX >= 1.0 || nextX <= -1.0 {
          wallFlag := 2;
          break;
        }
        if nextY >= 1.0 || nextY <= -1.0 {
          wallFlag := 1;
          break;
        }
        i := i + 3;
      }
    }

    /** The move: every vertex's x and y advance by the step. */
    method MoveBall(xSpeed: real, ySpeed: real)
      requires |vertexPositions| % 3 == 0
      modifies this`vertexPositions
      ensures vertexPositions == Shifted(old(vertexPositions), xSpeed, ySpeed)
    {
      ghost var target := Shifted(vertexPositions, xSpeed, ySpeed);
      var i := 0;
      while i < |vertexPositions|
        invariant 0 <= i <= |vertexPositions| + 2 && i % 3 == 0
        invariant |vertexPositions| == |target|
        invariant forall j :: 0 <= j < |target| ==> vertexPositions[j] == if j < i then target[j] else old(vertexPositions)[j]
        decreases |vertexPositions| - i
      {
        vertexPositions := vertexPositions[i := vertexPositions[i] + xSpeed];
        vertexPositions := vertexPositions[i + 1 := vertexPositions[i + 1] + ySpeed];
        i := i + 3;
      }
    }

    /** Animation 2 part of `animate`. */
    method AnimateBall(u: real, g: real, invSqrt: real -> real)
      requires Valid() && animation == Ball && 0.0 <= u < 1.0
      modifies this`xDirection, this`yDirection, this`vertexColors, this`wallFlag, this`wallFrame, this`vertexPositions
      ensures (xDirection, yDirection) == Rebounded(old(xDirection), old(yDirection), old(wallFlag), u)
      ensures var v := BallVelocity(xDirection, yDirection, invSqrt);
        wallFlag == FirstHit(old(vertexPositions), v.0, v.1, 0)
        && vertexPositions == if wallFlag == 0 then Shifted(old(vertexPositions), v.0, v.1) else old(vertexPositions)
      ensures wallFrame == if old(wallFlag) != 0 then frame else old(wallFrame)
      ensures vertexColors == if old(wallFlag) != 0 then BallColors(g) else old(vertexColors)
      ensures Valid()
      ensures wallFlag == 0 ==> BallInside(vertexPositions)
    {
      Rebound(u, g);
      var xSpeed := xDirection * invSqrt(xDirection * xDirection + yDirection * yDirection) * BallSpeed;
      var ySpeed := yDirection * invSqrt(xDirection * xDirection + yDirection * yDirection) * BallSpeed;
      DetectWall(xSpeed, ySpeed);
      if wallFlag == 0 {
        MoveStaysInside(vertexPositions, xSpeed, ySpeed);
        MoveBall(xSpeed, ySpeed);
      }
    }

    /** `animate`: the current animation's step, then the frame counter
        goes up by one. Animation 1 leaves the ball's state alone and
        animation 2 the logo's; any other animation only counts the frame. */
    method Animate(rim: int -> (real, real), warp: (int, seq<real>) -> seq<real>, u: real, g: real, invSqrt: real -> real)
      requires Valid() && 0.0 <= u < 1.0
      requires KeepsLength(warp)
      modifies this`vertexPositions, this`numVertices, this`frame, this`vertexColors,
               this`xDirection, this`yDirection, this`wallFlag, this`wallFrame
      ensures Valid() && numVertices == old(numVertices)
      ensures old(animation) == Logo ==>
        && frame == NextLogoFrame(old(frame))
        && vertexPositions == (if InWarp(old(frame)) then warp(old(frame), LogoPositions()) else LogoPositions())
        && vertexColors == old(vertexColors) && wallFlag == old(wallFlag) && wallFrame == old(wallFrame)
        && xDirection == old(xDirection) && yDirection == old(yDirection)
      ensures old(animation) == Ball ==>
        && frame == old(frame) + 1
        && (xDirection, yDirection) == Rebounded(old(xDirection), old(yDirection), old(wallFlag), u)
        && wallFrame == (if old(wallFlag) != 0 then old(frame) else old(wallFrame))
        && vertexColors == (if old(wallFlag) != 0 then BallColors(g) else old(vertexColors))
      ensures old(animation) == Ball ==>
        var v := BallVelocity(xDirection, yDirection, invSqrt);
        wallFlag == FirstHit(old(vertexPositions), v.0, v.1, 0)
        && vertexPositions == if wallFlag == 0 then Shifted(old(vertexPositions), v.0, v.1) else old(vertexPositions)
      ensures old(animation) == Ball && wallFlag == 0 ==> BallInside(vertexPositions)
      ensures old(animation) != Logo && old(animation) != Ball ==>
        && frame == old(frame) + 1
        && vertexPositions == old(vertexPositions) && vertexColors == old(vertexColors)
        && wallFlag == old(wallFlag) && wallFrame == old(wallFrame)
        && xDirection == old(xDirection) && yDirection == old(yDirection)
    {
      if animation == Logo {
        AnimateLogo(rim, warp);
      }
      if animation == Ball {
        AnimateBall(u, g, invSqrt);
      }
      frame := frame + 1;
    }

    /** `main` without the GL set-up: `setupBuffers("initial")` rebuilds
        both buffers of the current animation (`g` is the green of the new
        ball colours), then the first `tick()` runs one `animate()` (`u`
        and `g2` are its draws should the ball rebound). */
    method Start(rim: int -> (real, real), g: real, warp: (int, seq<real>) -> seq<real>, u: real, g2: real, invSqrt: real -> real)
      requires |vertexPositions| % 3 == 0 && 0 <= wallFlag <= 2
      requires animation == Logo ==> 0 <= frame <= LastFrame
      requires 0.0 <= u < 1.0 && KeepsLength(warp)
      modifies this`vertexPositions, this`numVertices, this`frame, this`vertexColors,
               this`xDirection, this`yDirection, this`wallFlag, this`wallFrame
      ensures Valid()
      ensures old(animation) == Logo ==>
        && frame == NextLogoFrame(old(frame))
        && vertexPositions == (if InWarp(old(frame)) then warp(old(frame), LogoPositions()) else LogoPositions())
        && vertexColors == LogoColors() && numVertices == old(numVertices)
        && wallFlag == old(wallFlag) && wallFrame == old(wallFrame)
        && xDirection == old(xDirection) && yDirection == old(yDirection)
      ensures old(animation) == Ball ==>
        && numVertices == RimPoints && frame == old(frame) + 1
        && (xDirection, yDirection) == Rebounded(old(xDirection), old(yDirection), old(wallFlag), u)
        && wallFrame == (if old(wallFlag) != 0 then old(frame) else old(wallFrame))
        && vertexColors == BallColors(if old(wallFlag) != 0 then g2 else g)
      ensures old(animation) == Ball ==>
        var v := BallVelocity(xDirection, yDirection, invSqrt);
        wallFlag == FirstHit(BallPositions(rim), v.0, v.1, 0)
        && vertexPositions == if wallFlag == 0 then Shifted(BallPositions(rim), v.0, v.1) else BallPositions(rim)
      ensures old(animation) == Ball && wallFlag == 0 ==> BallInside(vertexPositions)
      ensures old(animation) != Logo && old(animation) != Ball ==>
        && frame == old(frame) + 1 && numVertices == old(numVertices)
        && vertexPositions == old(vertexPositions) && vertexColors == old(vertexColors)
        && wallFlag == old(wallFlag) && wallFrame == old(wallFrame)
        && xDirection == old(xDirection) && yDirection == old(yDirection)
    {
      GetVertexPositions(rim);
      GetVertexColors(g);
      Animate(rim, warp, u, g2, invSqrt);
    }

    /** `switchAnimation`: nothing happens when the animation is already
        the current one; otherwise the animation changes, the frame counter
        restarts and `main` rebuilds both buffers and runs the first frame,
        so the counter is 1 on return. The wall flag is not reset: a flag
        left by the ball is handled by the ball's next first frame. */
    method SwitchAnimation(currAnimation: string, rim: int -> (real, real), g: real,
                           warp: (int, seq<real>) -> seq<real>, u: real, g2: real, invSqrt: real -> real)
      requires Valid() && 0.0 <= u < 1.0
      requires KeepsLength(warp)
      modifies this
      ensures Valid()
      ensures old(animation) == currAnimation ==> unchanged(this)
      ensures old(animation) != currAnimation ==> animation == currAnimation && frame == 1
      ensures old(animation) != currAnimation && currAnimation == Logo ==>
        && vertexPositions == LogoPositions() && vertexColors == LogoColors() && numVertices == old(numVertices)
        && wallFlag == old(wallFlag) && wallFrame == old(wallFrame)
        && xDirection == old(xDirection) && yDirection == old(yDirection)
      ensures old(animation) != currAnimation && currAnimation != Logo && currAnimation != Ball ==>
        && vertexPositions == old(vertexPositions) && vertexColors == old(vertexColors) && numVertices == old(numVertices)
        && wallFlag == old(wallFlag) && wallFrame == old(wallFrame)
        && xDirection == old(xDirection) && yDirection == old(yDirection)
      ensures old(animation) != currAnimation && currAnimation == Ball ==>
        && (xDirection, yDirection) == Rebounded(old(xDirection), old(yDirection), old(wallFlag), u)
        && vertexColors == BallColors(if old(wallFlag) != 0 then g2 else g)
        && wallFrame == (if old(wallFlag) != 0 then 0 else old(wallFrame))
      ensures old(animation) != currAnimation && currAnimation == Ball ==>
        var v := BallVelocity(xDirection, yDirection, invSqrt);
        wallFlag == FirstHit(BallPositions(rim), v.0, v.1, 0)
        && vertexPositions == if wallFlag == 0 then Shifted(BallPositions(rim), v.0, v.1) else BallPositions(rim)
    {
      if animation != currAnimation {
        animation := currAnimation;
        frame := 0;
        Start(rim, g, warp, u, g2, invSqrt);
      }
    }
  }
}
