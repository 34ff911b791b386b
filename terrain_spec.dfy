/** What the terrain generator of MP2 builds, as functions of its inputs:
    the vertex grid, the fault-plane height passes, the two triangles per
    grid cell, the area-weighted vertex normals and the wireframe edge list,
    with the properties each of them has. */
module TerrainSpec {
  import opened Geometry

  /** Number of fault-plane passes and the height step of each pass. */
  const Iterations: nat := 200
  const Delta: real := 0.0035

  /** Coordinate `k` steps of `delta` from `start`. */
  function Coord(start: real, delta: real, k: nat): real {
    start + delta * (k as real)
  }

  /** The constructor arguments: `div` cells along each axis over the
      rectangle `[minX, maxX] x [minY, maxY]`. */
  datatype Domain = Domain(div: nat, minX: real, maxX: real, minY: real, maxY: real) {
    /** Vertices per row and per column. */
    function Width(): nat { div + 1 }

    function DeltaX(): real
      requires div > 0
    {
      (maxX - minX) / (div as real)
    }

    function DeltaY(): real
      requires div > 0
    {
      (maxY - minY) / (div as real)
    }

    /** The position grid vertex `(i, j)` is created at. */
    function GridPoint(i: nat, j: nat): Vec3
      requires div > 0
    {
      Vec3(Coord(minX, DeltaX(), j), Coord(minY, DeltaY(), i), 0.0)
    }
  }

  // ---------------------------------------------------------------------
  // Index arithmetic of a row-major grid of width w

  lemma RowStart(ii: nat, jj: nat, i: nat, w: nat)
    requires ii < i && jj < w
    ensures ii * w + jj < i * w
    ensures (ii + 1) * w <= i * w
  {
    var k := i - ii - 1;
    assert i * w == ii * w + w + k * w;
  }

  lemma RowNext(i: nat, w: nat)
    ensures (i + 1) * w == i * w + w
  {
  }

  lemma GridIndexBound(i: nat, j: nat, w: nat)
    requires i < w && j < w
    ensures i * w + j < w * w
  {
    RowStart(i, j, w, w);
  }

  // ---------------------------------------------------------------------
  // The vertex grid (MP2/Terrain.js:160-173)

  /** The first `j` vertices of row `i`, as the inner grid loop pushes them. */
  function GridRow(d: Domain, i: nat, j: nat): (r: seq<real>)
    requires d.div > 0
    ensures |r| == 3 * j
  {
    if j == 0 then []
    else GridRow(d, i, j - 1) + [Coord(d.minX, d.DeltaX(), j - 1), Coord(d.minY, d.DeltaY(), i), 0.0]
  }

  lemma GridRowStep(d: Domain, i: nat, j: nat)
    requires d.div > 0
    ensures GridRow(d, i, j + 1) == GridRow(d, i, j) + [Coord(d.minX, d.DeltaX(), j), Coord(d.minY, d.DeltaY(), i), 0.0]
  {
  }

  /** The first `i` complete rows. */
  function GridRows(d: Domain, i: nat): (r: seq<real>)
    requires d.div > 0
    ensures |r| == 3 * (i * d.Width())
  {
    if i == 0 then [] else GridRows(d, i - 1) + GridRow(d, i - 1, d.Width())
  }

  function GridVertices(d: Domain): (r: seq<real>)
    requires d.div > 0
    ensures |r| == 3 * (d.Width() * d.Width())
  {
    GridRows(d, d.Width())
  }

  lemma {:induction false} GridRowAt(d: Domain, i: nat, j: nat, jj: nat)
    requires d.div > 0 && jj < j
    ensures VecAt(GridRow(d, i, j), jj) == d.GridPoint(i, jj)
  {
    var prev := GridRow(d, i, j - 1);
    var last := [Coord(d.minX, d.DeltaX(), j - 1), Coord(d.minY, d.DeltaY(), i), 0.0];
    if jj < j - 1 {
      GridRowAt(d, i, j - 1, jj);
      VecAtPrefix(prev, last, jj);
    } else {
      VecAtSuffix(prev, last, j - 1, 0);
    }
  }

  lemma {:induction false} GridRowsAt(d: Domain, i: nat, ii: nat, jj: nat)
    requires d.div > 0 && ii < i && jj < d.Width()
    ensures HasVertex(GridRows(d, i), ii * d.Width() + jj)
    ensures VecAt(GridRows(d, i), ii * d.Width() + jj) == d.GridPoint(ii, jj)
  {
    var w := d.Width();
    var prev := GridRows(d, i - 1);
    var row := GridRow(d, i - 1, w);
    if ii < i - 1 {
      GridRowsAt(d, i - 1, ii, jj);
      VecAtPrefix(prev, row, ii * w + jj);
    } else {
      GridRowAt(d, i - 1, w, jj);
      VecAtSuffix(prev, row, (i - 1) * w, jj);
    }
  }

  /** The grid has `(div+1)^2` vertices, vertex `i*(div+1)+j` sits at
      `(minX + deltaX*j, minY + deltaY*i, 0)`. */
  lemma GridVertexAt(d: Domain, i: nat, j: nat)
    requires d.div > 0 && i <= d.div && j <= d.div
    ensures |GridVertices(d)| == 3 * (d.Width() * d.Width())
    ensures HasVertex(GridVertices(d), i * d.Width() + j)
    ensures VecAt(GridVertices(d), i * d.Width() + j) == d.GridPoint(i, j)
  {
    GridRowsAt(d, d.Width(), i, j);
  }

  // ---------------------------------------------------------------------
  // Fault-plane displacement (MP2/Terrain.js:201-220)

  /** The random inputs of one pass: the two `Math.random()` samples that
      place the point `p` in the domain, and the `vec2.random` direction `n`. */
  datatype FaultCut = FaultCut(rx: real, ry: real, nx: real, ny: real)

  function CutPoint(d: Domain, c: FaultCut): (real, real) {
    (c.rx * (d.maxX - d.minX) + d.minX, c.ry * (d.maxY - d.minY) + d.minY)
  }

  /** A vertex at `(px, py)` lies strictly on the positive side of the cut. */
  predicate Raises(d: Domain, c: FaultCut, px: real, py: real) {
    var p := CutPoint(d, c);
    (px - p.0) * c.nx + (py - p.1) * c.ny > 0.0
  }

  /** The first `j` vertices of one pass, in the order the inner loop visits
      them: each height moves up by `Delta` on the positive side of the cut
      and down by `Delta` otherwise (a dot product of 0 included). */
  function PassPrefix(d: Domain, c: FaultCut, buf: seq<real>, j: nat): (r: seq<real>)
    requires 3 * j <= |buf|
    ensures |r| == |buf|
  {
    if j == 0 then buf
    else
      var prev := PassPrefix(d, c, buf, j - 1);
      var z := 3 * (j - 1) + 2;
      prev[z := if Raises(d, c, prev[z - 2], prev[z - 1]) then prev[z] + Delta else prev[z] - Delta]
  }

  lemma PassPrefixNext(d: Domain, c: FaultCut, buf: seq<real>, j: nat)
    requires 3 * j + 3 <= |buf|
    ensures var prev := PassPrefix(d, c, buf, j);
            PassPrefix(d, c, buf, j + 1) ==
              prev[3 * j + 2 := if Raises(d, c, prev[3 * j], prev[3 * j + 1]) then prev[3 * j + 2] + Delta else prev[3 * j + 2] - Delta]
  {
  }

  /** Height `z` after the pass when the vertex lies at `(x, y)`. */
  function Moved(d: Domain, c: FaultCut, v: Vec3): Vec3 {
    Vec3(v.x, v.y, if Raises(d, c, v.x, v.y) then v.z + Delta else v.z - Delta)
  }

  lemma {:induction false} PassPrefixAt(d: Domain, c: FaultCut, buf: seq<real>, j: nat, m: nat)
    requires 3 * j <= |buf| && HasVertex(buf, m)
    ensures VecAt(PassPrefix(d, c, buf, j), m) == if m < j then Moved(d, c, VecAt(buf, m)) else VecAt(buf, m)
  {
    if j > 0 {
      PassPrefixAt(d, c, buf, j - 1, m);
      if m == j - 1 {
        PassPrefixAt(d, c, buf, j - 1, j - 1);
      }
    }
  }

  /** One whole pass. */
  function Displaced(d: Domain, c: FaultCut, buf: seq<real>): (r: seq<real>)
    requires |buf| % 3 == 0
    ensures |r| == |buf|
  {
    PassPrefix(d, c, buf, |buf| / 3)
  }

  /** A whole pass moves every vertex up or down by `Delta` and nothing else. */
  lemma DisplacedAt(d: Domain, c: FaultCut, buf: seq<real>, m: nat)
    requires |buf| % 3 == 0 && HasVertex(buf, m)
    ensures VecAt(Displaced(d, c, buf), m) == Moved(d, c, VecAt(buf, m))
  {
    PassPrefixAt(d, c, buf, |buf| / 3, m);
  }

  /** The passes applied in order, the last cut last. */
  function DisplacedAll(d: Domain, cuts: seq<FaultCut>, buf: seq<real>): (r: seq<real>)
    requires |buf| % 3 == 0
    ensures |r| == |buf|
    decreases |cuts|
  {
    if cuts == [] then buf
    else Displaced(d, cuts[|cuts| - 1], DisplacedAll(d, cuts[..|cuts| - 1], buf))
  }

  /** The passes change only heights, and after `n` passes each height is
      within `n * Delta` of where it started. */
  lemma {:induction false} DisplacedAllAt(d: Domain, cuts: seq<FaultCut>, buf: seq<real>, m: nat)
    requires |buf| % 3 == 0 && HasVertex(buf, m)
    ensures var v, v0 := VecAt(DisplacedAll(d, cuts, buf), m), VecAt(buf, m);
            v.x == v0.x && v.y == v0.y &&
            v0.z - (|cuts| as real) * Delta <= v.z <= v0.z + (|cuts| as real) * Delta
    decreases |cuts|
  {
    if cuts != [] {
      var prefix := cuts[..|cuts| - 1];
      DisplacedAllAt(d, prefix, buf, m);
      DisplacedAt(d, cuts[|cuts| - 1], DisplacedAll(d, prefix, buf), m);
    }
  }

  // ---------------------------------------------------------------------
  // Triangles of a flat index buffer

  datatype Tri = Tri(a: int, b: int, c: int)

  function TriAt(f: seq<int>, t: nat): Tri
    requires 3 * t + 2 < |f|
  {
    Tri(f[3 * t], f[3 * t + 1], f[3 * t + 2])
  }

  predicate Distinct(t: Tri) {
    t.a != t.b && t.b != t.c && t.a != t.c
  }

  /** No triangle names the same vertex twice. */
  ghost predicate TrianglesDistinct(f: seq<int>) {
    forall t: nat :: 3 * t + 2 < |f| ==> Distinct(TriAt(f, t))
  }

  /** Every index names a vertex of the flat vertex buffer `v`. */
  ghost predicate IndicesIn(f: seq<int>, v: seq<real>) {
    forall k :: 0 <= k < |f| ==> HasVertex(v, f[k])
  }

  lemma TriAtPrefix(a: seq<int>, b: seq<int>, t: nat)
    requires 3 * t + 2 < |a|
    ensures TriAt(a + b, t) == TriAt(a, t)
  {
  }

  lemma TriAtSuffix(a: seq<int>, b: seq<int>, m: nat, t: nat)
    requires |a| == 3 * m && 3 * t + 2 < |b|
    ensures TriAt(a + b, m + t) == TriAt(b, t)
  {
  }

  lemma TrianglesDistinctConcat(a: seq<int>, b: seq<int>, m: nat)
    requires |a| == 3 * m && TrianglesDistinct(a) && TrianglesDistinct(b)
    ensures TrianglesDistinct(a + b)
  {
    forall t: nat | 3 * t + 2 < |a + b|
      ensures Distinct(TriAt(a + b, t))
    {
      if t < m {
        TriAtPrefix(a, b, t);
      } else {
        TriAtSuffix(a, b, m, t - m);
      }
    }
  }

  // ---------------------------------------------------------------------
  // Two triangles per grid cell (MP2/Terrain.js:179-190)

  /** The six indices cell `(i, j)` emits, `vid = i*(div+1)+j`. */
  function Cell(div: nat, i: nat, j: nat): seq<int> {
    var w := div + 1;
    var vid := i * w + j;
    [vid, vid + 1, vid + w, vid + 1, vid + 1 + w, vid + w]
  }

  /** The first `j` cells of cell row `i`. */
  function FaceRow(div: nat, i: nat, j: nat): (r: seq<int>)
    ensures |r| == 6 * j
  {
    if j == 0 then [] else FaceRow(div, i, j - 1) + Cell(div, i, j - 1)
  }

  /** The number of cells in the first `i` rows, kept free of products so
      that the proofs below stay linear. */
  function Cells(div: nat, i: nat): nat {
    if i == 0 then 0 else Cells(div, i - 1) + div
  }

  lemma {:induction false} CellsIsProduct(div: nat, i: nat)
    ensures Cells(div, i) == i * div
  {
    if i > 0 {
      CellsIsProduct(div, i - 1);
      RowNext(i - 1, div);
    }
  }

  /** The first `i` complete cell rows. */
  function FaceRows(div: nat, i: nat): (r: seq<int>)
    ensures |r| == 6 * Cells(div, i)
  {
    if i == 0 then [] else FaceRows(div, i - 1) + FaceRow(div, i - 1, div)
  }

  function GridFaces(div: nat): (r: seq<int>)
    ensures |r| == 6 * (div * div)
  {
    CellsIsProduct(div, div);
    FaceRows(div, div)
  }

  lemma CellInRange(div: nat, i: nat, j: nat)
    requires i < div && j < div
    ensures forall k :: 0 <= k < 6 ==> 0 <= Cell(div, i, j)[k] < (div + 1) * (div + 1)
  {
    var w := div + 1;
    RowStart(i, j + 1, div, w);
    assert (div + 1) * w == div * w + w;
  }

  lemma {:induction false} FaceRowInRange(div: nat, i: nat, j: nat)
    requires i < div && j <= div
    ensures forall k :: 0 <= k < |FaceRow(div, i, j)| ==> 0 <= FaceRow(div, i, j)[k] < (div + 1) * (div + 1)
    ensures TrianglesDistinct(FaceRow(div, i, j))
  {
    if j > 0 {
      FaceRowInRange(div, i, j - 1);
      CellInRange(div, i, j - 1);
      var c := Cell(div, i, j - 1);
      assert TrianglesDistinct(c) by {
        forall t: nat | 3 * t + 2 < |c| ensures Distinct(TriAt(c, t)) {
          assert t == 0 || t == 1;
        }
      }
      TrianglesDistinctConcat(FaceRow(div, i, j - 1), c, 2 * (j - 1));
    }
  }

  lemma {:induction false} FaceRowsInRange(div: nat, i: nat)
    requires i <= div
    ensures forall k :: 0 <= k < |FaceRows(div, i)| ==> 0 <= FaceRows(div, i)[k] < (div + 1) * (div + 1)
    ensures TrianglesDistinct(FaceRows(div, i))
  {
    if i > 0 {
      FaceRowsInRange(div, i - 1);
      FaceRowInRange(div, i - 1, div);
      TrianglesDistinctConcat(FaceRows(div, i - 1), FaceRow(div, i - 1, div), 2 * Cells(div, i - 1));
    }
  }

  /** Every index of the face buffer is below `(div+1)^2`, the vertex count,
      and no triangle repeats a vertex. */
  lemma GridFacesWellFormed(div: nat)
    ensures forall k :: 0 <= k < |GridFaces(div)| ==> 0 <= GridFaces(div)[k] < (div + 1) * (div + 1)
    ensures TrianglesDistinct(GridFaces(div))
  {
    FaceRowsInRange(div, div);
  }

  /** Entries `6c` to `6c+5`: the six indices of one cell. */
  function Block(s: seq<int>, c: nat): (r: seq<int>)
    requires 6 * c + 6 <= |s|
    ensures |r| == 6
  {
    s[6 * c..6 * c + 6]
  }

  lemma BlockPrefix(a: seq<int>, b: seq<int>, c: nat)
    requires 6 * c + 6 <= |a|
    ensures Block(a + b, c) == Block(a, c)
  {
    assert (a + b)[6 * c..6 * c + 6] == a[6 * c..6 * c + 6];
  }

  lemma BlockLast(a: seq<int>, b: seq<int>, c: nat)
    requires |a| == 6 * c && |b| == 6
    ensures Block(a + b, c) == b
  {
    assert (a + b)[6 * c..6 * c + 6] == b;
  }

  /** Block `jj` of cell row `i` is cell `(i, jj)`. */
  lemma {:induction false} FaceRowBlock(div: nat, i: nat, j: nat, jj: nat)
    requires jj < j
    ensures 6 * jj + 6 <= |FaceRow(div, i, j)| && Block(FaceRow(div, i, j), jj) == Cell(div, i, jj)
  {
    var prev, c := FaceRow(div, i, j - 1), Cell(div, i, j - 1);
    if jj < j - 1 {
      FaceRowBlock(div, i, j - 1, jj);
      BlockPrefix(prev, c, jj);
    } else {
      BlockLast(prev, c, jj);
    }
  }

  /** Block `Cells(div, ii) + jj` of the first `i` rows is cell `(ii, jj)`. */
  lemma {:induction false} FaceRowsBlock(div: nat, i: nat, ii: nat, jj: nat)
    requires ii < i && jj < div
    ensures 6 * (Cells(div, ii) + jj) + 6 <= |FaceRows(div, i)|
    ensures Block(FaceRows(div, i), Cells(div, ii) + jj) == Cell(div, ii, jj)
  {
    var prev, row := FaceRows(div, i - 1), FaceRow(div, i - 1, div);
    if ii < i - 1 {
      FaceRowsBlock(div, i - 1, ii, jj);
      BlockPrefix(prev, row, Cells(div, ii) + jj);
    } else {
      FaceRowBlock(div, ii, div, jj);
      BlockSuffix(prev, row, Cells(div, ii), jj);
    }
  }

  lemma BlockSuffix(a: seq<int>, b: seq<int>, m: nat, c: nat)
    requires |a| == 6 * m && 6 * c + 6 <= |b|
    ensures Block(a + b, m + c) == Block(b, c)
  {
    assert (a + b)[6 * (m + c)..6 * (m + c) + 6] == b[6 * c..6 * c + 6];
  }

  /** Triangles `2c` and `2c+1` are the two halves of block `c`. */
  lemma TriAtBlock(s: seq<int>, c: nat)
    requires 6 * c + 6 <= |s|
    ensures TriAt(s, 2 * c) == TriAt(Block(s, c), 0) && TriAt(s, 2 * c + 1) == TriAt(Block(s, c), 1)
  {
  }

  /** Cell `(i, j)` fills entries `6c` to `6c+5`, `c = i*div+j`, with the
      triangles `(vid, vid+1, vid+div+1)` and `(vid+1, vid+div+2, vid+div+1)`,
      `vid = i*(div+1)+j`; they are triangles `2c` and `2c+1`. */
  lemma GridFaceCell(div: nat, i: nat, j: nat)
    requires i < div && j < div
    ensures 6 * (i * div + j) + 6 <= |GridFaces(div)|
    ensures var vid := i * (div + 1) + j;
            Block(GridFaces(div), i * div + j) == [vid, vid + 1, vid + div + 1, vid + 1, vid + div + 2, vid + div + 1]
  {
    FaceRowsBlock(div, div, i, j);
    CellsIsProduct(div, i);
  }

  // ---------------------------------------------------------------------
  // Vertex normals (MP2/Terrain.js:226-261)

  ghost predicate MeshOk(v: seq<real>, f: seq<int>) {
    |v| % 3 == 0 && IndicesIn(f, v)
  }

  lemma IndicesBelow(f: seq<int>, v: seq<real>, n: nat)
    requires |v| == 3 * n
    requires forall k :: 0 <= k < |f| ==> 0 <= f[k] < n
    ensures MeshOk(v, f)
  {
  }

  /** The grid faces index the grid vertices, whatever the heights. */
  lemma GridMeshOk(div: nat, v: seq<real>)
    requires |v| == 3 * ((div + 1) * (div + 1))
    ensures MeshOk(v, GridFaces(div)) && TrianglesDistinct(GridFaces(div))
  {
    GridFacesWellFormed(div);
    IndicesBelow(GridFaces(div), v, (div + 1) * (div + 1));
  }

  /** Faces that index `v0`, followed by the grid's faces, index any
      buffer that extends `v0` by a grid's worth of vertices. */
  lemma AppendedMeshOk(v0: seq<real>, f0: seq<int>, div: nat, v: seq<real>)
    requires MeshOk(v0, f0) && |v| == |v0| + 3 * ((div + 1) * (div + 1))
    ensures MeshOk(v, f0 + GridFaces(div))
  {
    GridFacesWellFormed(div);
    var f := f0 + GridFaces(div);
    forall k | 0 <= k < |f|
      ensures HasVertex(v, f[k])
    {
      if k < |f0| {
        assert HasVertex(v0, f0[k]);
      } else {
        assert f[k] == GridFaces(div)[k - |f0|];
      }
    }
  }

  /** `cross(v2 - v1, v3 - v1)` of triangle `t`, not normalised: its length
      is twice the triangle's area. */
  function FaceNormal(v: seq<real>, f: seq<int>, t: nat): Vec3
    requires MeshOk(v, f) && 3 * t + 2 < |f|
  {
    var tri := TriAt(f, t);
    Cross(Sub(VecAt(v, tri.b), VecAt(v, tri.a)), Sub(VecAt(v, tri.c), VecAt(v, tri.a)))
  }

  /** Adds `x` to the accumulators of the three corners of `tri`, reading
      all three before writing any, then writing them in the order a, b, c. */
  function AddAtCorners(n: seq<real>, tri: Tri, x: Vec3): (r: seq<real>)
    requires HasVertex(n, tri.a) && HasVertex(n, tri.b) && HasVertex(n, tri.c)
    ensures |r| == |n|
  {
    var n1, n2, n3 := Add(VecAt(n, tri.a), x), Add(VecAt(n, tri.b), x), Add(VecAt(n, tri.c), x);
    WithVec(WithVec(WithVec(n, tri.a, n1), tri.b, n2), tri.c, n3)
  }

  /** With distinct corners, each corner gains `x` exactly once and every
      other vertex is unchanged. */
  lemma AddAtCornersAt(n: seq<real>, tri: Tri, x: Vec3, w: int)
    requires HasVertex(n, tri.a) && HasVertex(n, tri.b) && HasVertex(n, tri.c)
    requires Distinct(tri) && HasVertex(n, w)
    ensures VecAt(AddAtCorners(n, tri, x), w) == Add(VecAt(n, w), if Incident(tri, w) then x else Zero)
  {
    var n1, n2, n3 := Add(VecAt(n, tri.a), x), Add(VecAt(n, tri.b), x), Add(VecAt(n, tri.c), x);
    var s1 := WithVec(n, tri.a, n1);
    var s2 := WithVec(s1, tri.b, n2);
    WithVecAt(n, tri.a, n1, w);
    WithVecAt(s1, tri.b, n2, w);
    WithVecAt(s2, tri.c, n3, w);
  }

  /** One iteration of the face loop. */
  function AddFace(n: seq<real>, v: seq<real>, f: seq<int>, t: nat): (r: seq<real>)
    requires MeshOk(v, f) && |n| == |v| && 3 * t + 2 < |f|
    ensures |r| == |n|
  {
    AddAtCorners(n, TriAt(f, t), FaceNormal(v, f, t))
  }

  /** The accumulators after the first `t` faces. */
  function Accumulated(n: seq<real>, v: seq<real>, f: seq<int>, t: nat): (r: seq<real>)
    requires MeshOk(v, f) && |n| == |v| && 3 * t <= |f|
    ensures |r| == |n|
  {
    if t == 0 then n else AddFace(Accumulated(n, v, f, t - 1), v, f, t - 1)
  }

  predicate Incident(tri: Tri, w: int) {
    tri.a == w || tri.b == w || tri.c == w
  }

  /** Sum of the face normals of the first `t` faces that contain vertex `w`. */
  ghost function IncidentSum(v: seq<real>, f: seq<int>, t: nat, w: int): Vec3
    requires MeshOk(v, f) && 3 * t <= |f|
  {
    if t == 0 then Zero
    else Add(IncidentSum(v, f, t - 1, w), if Incident(TriAt(f, t - 1), w) then FaceNormal(v, f, t - 1) else Zero)
  }

  /** Before normalisation, the accumulator of each vertex is its starting
      value plus the un-normalised normals of exactly the faces that contain it. */
  lemma {:induction false} AccumulatedIsIncidentSum(n: seq<real>, v: seq<real>, f: seq<int>, t: nat, w: int)
    requires MeshOk(v, f) && TrianglesDistinct(f) && |n| == |v| && 3 * t <= |f| && HasVertex(v, w)
    ensures VecAt(Accumulated(n, v, f, t), w) == Add(VecAt(n, w), IncidentSum(v, f, t, w))
    decreases t
  {
    if t > 0 {
      AccumulatedIsIncidentSum(n, v, f, t - 1, w);
      AccumulatedStep(n, v, f, t, w);
      AddAssoc(VecAt(n, w), IncidentSum(v, f, t - 1, w), if Incident(TriAt(f, t - 1), w) then FaceNormal(v, f, t - 1) else Zero);
    }
  }

  lemma AddAssoc(a: Vec3, b: Vec3, c: Vec3)
    ensures Add(Add(a, b), c) == Add(a, Add(b, c))
  {
  }

  lemma AccumulatedStep(n: seq<real>, v: seq<real>, f: seq<int>, t: nat, w: int)
    requires t > 0 && MeshOk(v, f) && TrianglesDistinct(f) && |n| == |v| && 3 * t <= |f| && HasVertex(v, w)
    ensures VecAt(Accumulated(n, v, f, t), w)
         == Add(VecAt(Accumulated(n, v, f, t - 1), w), if Incident(TriAt(f, t - 1), w) then FaceNormal(v, f, t - 1) else Zero)
  {
    var tri := TriAt(f, t - 1);
    assert Distinct(tri);
    assert HasVertex(v, tri.a) && HasVertex(v, tri.b) && HasVertex(v, tri.c);
    AddAtCornersAt(Accumulated(n, v, f, t - 1), tri, FaceNormal(v, f, t - 1), w);
  }

  /** The normalisation pass over the first `i` vertices. */
  function NormalizedUpTo(n: seq<real>, invSqrt: real -> real, i: nat): (r: seq<real>)
    requires 3 * i <= |n|
    ensures |r| == |n|
  {
    if i == 0 then n else WithVec(NormalizedUpTo(n, invSqrt, i - 1), i - 1, Normalize(VecAt(n, i - 1), invSqrt))
  }

  /** Vertices below `i` are normalised exactly once; the others are as
      accumulated. */
  lemma {:induction false} NormalizedAt(n: seq<real>, invSqrt: real -> real, i: nat, w: nat)
    requires 3 * i <= |n| && HasVertex(n, w)
    ensures VecAt(NormalizedUpTo(n, invSqrt, i), w) == if w < i then Normalize(VecAt(n, w), invSqrt) else VecAt(n, w)
  {
    if i > 0 {
      NormalizedAt(n, invSqrt, i - 1, w);
      WithVecAt(NormalizedUpTo(n, invSqrt, i - 1), i - 1, Normalize(VecAt(n, i - 1), invSqrt), w);
    }
  }

  /** What `updateNormals` leaves in `nBuffer` when it starts from zeros. */
  function VertexNormals(v: seq<real>, f: seq<int>, invSqrt: real -> real): (r: seq<real>)
    requires MeshOk(v, f) && |f| % 3 == 0
    ensures |r| == |v|
  {
    NormalizedUpTo(Accumulated(Zeros(|v|), v, f, |f| / 3), invSqrt, |v| / 3)
  }

  /** `VertexNormals` with the vertex and face counts spelled out. */
  lemma VertexNormalsFrom(v: seq<real>, f: seq<int>, invSqrt: real -> real, numVertices: nat, numFaces: nat)
    requires MeshOk(v, f) && |v| == 3 * numVertices && |f| == 3 * numFaces
    ensures VertexNormals(v, f, invSqrt) == NormalizedUpTo(Accumulated(Zeros(|v|), v, f, numFaces), invSqrt, numVertices)
  {
    assert |f| / 3 == numFaces && |v| / 3 == numVertices;
  }

  /** Each vertex normal is the normalised sum of the area-weighted normals of
      the faces around it. */
  lemma VertexNormalAt(v: seq<real>, f: seq<int>, invSqrt: real -> real, w: nat)
    requires MeshOk(v, f) && |f| % 3 == 0 && TrianglesDistinct(f) && HasVertex(v, w)
    ensures VecAt(VertexNormals(v, f, invSqrt), w) == Normalize(IncidentSum(v, f, |f| / 3, w), invSqrt)
  {
    AccumulatedIsIncidentSum(Zeros(|v|), v, f, |f| / 3, w);
    assert VecAt(Zeros(|v|), w) == Zero;
    NormalizedAt(Accumulated(Zeros(|v|), v, f, |f| / 3), invSqrt, |v| / 3, w);
  }

  // ---------------------------------------------------------------------
  // Wireframe edges (MP2/Terrain.js:295-308)

  /** The edge pairs of the first `t` triangles: `(a,b), (b,c), (c,a)` each. */
  function Edges(f: seq<int>, t: nat): (r: seq<int>)
    requires 3 * t <= |f|
    ensures |r| == 6 * t
  {
    if t == 0 then []
    else
      var tri := TriAt(f, t - 1);
      Edges(f, t - 1) + [tri.a, tri.b, tri.b, tri.c, tri.c, tri.a]
  }

  /** Pairs `3s`, `3s+1`, `3s+2` of the edge list are the three sides of
      triangle `s`, duplicates kept. */
  lemma {:induction false} EdgesAt(f: seq<int>, t: nat, s: nat)
    requires 3 * t <= |f| && s < t
    ensures var tri := TriAt(f, s);
            6 * s + 6 <= |Edges(f, t)| && Block(Edges(f, t), s) == [tri.a, tri.b, tri.b, tri.c, tri.c, tri.a]
  {
    var tri := TriAt(f, t - 1);
    var sides := [tri.a, tri.b, tri.b, tri.c, tri.c, tri.a];
    if s < t - 1 {
      EdgesAt(f, t - 1, s);
      BlockPrefix(Edges(f, t - 1), sides, s);
    } else {
      BlockLast(Edges(f, t - 1), sides, s);
    }
  }

  /** Every edge endpoint is a vertex index when every face index is. */
  lemma {:induction false} EdgesInRange(f: seq<int>, t: nat, n: int)
    requires 3 * t <= |f|
    requires forall k :: 0 <= k < |f| ==> 0 <= f[k] < n
    ensures forall k :: 0 <= k < |Edges(f, t)| ==> 0 <= Edges(f, t)[k] < n
  {
    if t > 0 {
      EdgesInRange(f, t - 1, n);
    }
  }
  // ---------------------------------------------------------------------
  // The whole generated terrain (MP2/Terrain.js:17-45)

  /** The four buffers of a terrain: positions, faces, normals, edges. */
  datatype TerrainBuffers = TerrainBuffers(v: seq<real>, f: seq<int>, n: seq<real>, e: seq<int>)

  /** What the terrain constructor leaves: the grid displaced by every fault
      pass, two triangles per cell, the normalised vertex normals of those
      triangles, and the three sides of every triangle as line pairs. */
  function Generated(d: Domain, cuts: seq<FaultCut>, invSqrt: real -> real): (r: TerrainBuffers)
    requires d.div > 0
  {
    var g := GridVertices(d);
    Triples(|g|, d.Width() * d.Width());
    var v := DisplacedAll(d, cuts, g);
    var f := GridFaces(d.div);
    var nf := 2 * (d.div * d.div);
    Triples(|f|, nf);
    GridMeshOk(d.div, v);
    TerrainBuffers(v, f, VertexNormals(v, f, invSqrt), Edges(f, nf))
  }

  /** From empty buffers, the appending generation steps leave exactly the
      buffers of `Generated`, with the counts of a `div` by `div` grid. */
  lemma GeneratedFromEmpty(d: Domain, cuts: seq<FaultCut>, invSqrt: real -> real,
                           v: seq<real>, f: seq<int>, n: seq<real>, e: seq<int>, numVertices: nat, numFaces: nat)
    requires d.div > 0
    requires |v| == 3 * numVertices && |f| == 3 * numFaces
    requires v == DisplacedAll(d, cuts, [] + GridVertices(d)) && f == [] + GridFaces(d.div)
    requires MeshOk(v, f)
    requires n == NormalizedUpTo(Accumulated([] + Zeros(|GridVertices(d)|), v, f, numFaces), invSqrt, numVertices)
    requires e == [] + Edges(f, numFaces)
    ensures TerrainBuffers(v, f, n, e) == Generated(d, cuts, invSqrt)
    ensures numVertices == (d.div + 1) * (d.div + 1) && numFaces == 2 * (d.div * d.div) && |e| == 2 * |f|
  {
    assert [] + GridFaces(d.div) == GridFaces(d.div);
    assert numFaces == 2 * (d.div * d.div);
    assert [] + GridVertices(d) == GridVertices(d);
    assert [] + Zeros(|GridVertices(d)|) == Zeros(|v|);
    VertexNormalsFrom(v, f, invSqrt, numVertices, numFaces);
    assert [] + Edges(f, numFaces) == Edges(f, numFaces);
  }

  /** The vertices of a generated terrain keep the grid's x and y: vertex
      `(i, j)` lies at `(minX + deltaX*j, minY + deltaY*i)`, and its height is
      within `|cuts| * Delta` of 0. */
  lemma GeneratedVertex(d: Domain, cuts: seq<FaultCut>, i: nat, j: nat)
    requires d.div > 0 && i <= d.div && j <= d.div
    ensures var v := DisplacedAll(d, cuts, GridVertices(d));
            var id := i * d.Width() + j;
            HasVertex(v, id) &&
            VecAt(v, id).x == d.GridPoint(i, j).x && VecAt(v, id).y == d.GridPoint(i, j).y &&
            -((|cuts| as real) * Delta) <= VecAt(v, id).z <= (|cuts| as real) * Delta
  {
    var g := GridVertices(d);
    var id := i * d.Width() + j;
    GridVertexAt(d, i, j);
    DisplacedAllAt(d, cuts, g, id);
    var v0, v := VecAt(g, id), VecAt(DisplacedAll(d, cuts, g), id);
    assert v0 == d.GridPoint(i, j) && v0.z == 0.0;
    assert v.x == v0.x && v.y == v0.y;
  }

  /** The edge list of a generated terrain holds two indices per face index,
      and every one of them names a vertex. */
  lemma GeneratedEdges(div: nat)
    ensures |Edges(GridFaces(div), 2 * (div * div))| == 2 * |GridFaces(div)|
    ensures forall k :: 0 <= k < |Edges(GridFaces(div), 2 * (div * div))| ==>
              0 <= Edges(GridFaces(div), 2 * (div * div))[k] < (div + 1) * (div + 1)
  {
    var f := GridFaces(div);
    var m := div * div;
    assert |f| == 3 * (2 * m);
    GridFacesWellFormed(div);
    EdgesInRange(f, 2 * m, (div + 1) * (div + 1));
  }

  /** Each normal of a generated terrain is the normalised sum of the
      area-weighted normals of the grid faces around its vertex, computed
      from the displaced heights. */
  lemma GeneratedNormal(d: Domain, cuts: seq<FaultCut>, invSqrt: real -> real, w: nat)
    requires d.div > 0 && w < (d.div + 1) * (d.div + 1)
    ensures var v, f := DisplacedAll(d, cuts, GridVertices(d)), GridFaces(d.div);
            MeshOk(v, f) && |f| == 3 * (2 * (d.div * d.div)) && HasVertex(v, w) &&
            VecAt(VertexNormals(v, f, invSqrt), w) == Normalize(IncidentSum(v, f, 2 * (d.div * d.div), w), invSqrt)
  {
    var g := GridVertices(d);
    Triples(|g|, d.Width() * d.Width());
    var v, f := DisplacedAll(d, cuts, g), GridFaces(d.div);
    GridMeshOk(d.div, v);
    Triples(|f|, 2 * (d.div * d.div));
    VertexNormalAt(v, f, invSqrt, w);
  }
}
