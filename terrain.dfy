/** The MP2 `Terrain` object: its buffers are filled step by step by the
    constructor and the generation methods, each proved to leave exactly
    what the functions of `TerrainSpec` describe. */
module TerrainMesh {
  import opened Geometry
  import opened TerrainSpec

  class Terrain {
    const div: nat
    const minX: real
    const maxX: real
    const minY: real
    const maxY: real

    /** Flat vertex positions, three per vertex. */
    var vBuffer: seq<real>
    /** Flat triangle indices, three per face. */
    var fBuffer: seq<int>
    /** Flat vertex normals, three per vertex. */
    var nBuffer: seq<real>
    /** Flat line indices, two per edge. */
    var eBuffer: seq<int>
    var numVertices: nat
    var numFaces: nat

    function Dom(): Domain {
      Domain(div, minX, maxX, minY, maxY)
    }

    function Contents(): TerrainBuffers
      reads this
    {
      TerrainBuffers(vBuffer, fBuffer, nBuffer, eBuffer)
    }

    /** The shape every generated terrain has: the vertex, normal, face and
        edge counts of a `div` by `div` grid. */
    ghost predicate Valid()
      reads this
    {
      div > 0 &&
      numVertices == (div + 1) * (div + 1) && |vBuffer| == 3 * numVertices && |nBuffer| == |vBuffer| &&
      numFaces == 2 * (div * div) && |fBuffer| == 3 * numFaces && |eBuffer| == 2 * |fBuffer|
    }

    /** Builds the grid, runs the fault passes given by `cuts` (the random
        draws of `updateVertices`), builds the faces and normals, then the
        edge list. */
    constructor (div: nat, minX: real, maxX: real, minY: real, maxY: real, cuts: seq<FaultCut>, invSqrt: real -> real)
      requires div > 0 && |cuts| == Iterations
      ensures this.div == div && this.minX == minX && this.maxX == maxX && this.minY == minY && this.maxY == maxY
      ensures Valid() && Contents() == Generated(Dom(), cuts, invSqrt)
    {
      this.div := div;
      this.minX := minX;
      this.maxX := maxX;
      this.minY := minY;
      this.maxY := maxY;
      vBuffer := [];
      fBuffer := [];
      nBuffer := [];
      eBuffer := [];
      numVertices := 0;
      numFaces := 0;
      new;
      GenerateTriangles(cuts, invSqrt);
      ghost var vs, fs, ns := vBuffer, fBuffer, nBuffer;
      GenerateLines();
      assert vBuffer == vs && fBuffer == fs && nBuffer == ns;
      GeneratedFromEmpty(Dom(), cuts, invSqrt, vs, fs, ns, eBuffer, numVertices, numFaces);
    }

    /** Writes the three coordinates of grid vertex `(i, j)`. */
    method SetVertex(v: Vec3, i: nat, j: nat)
      requires Valid() && i <= div && j <= div
      modifies this`vBuffer
      ensures HasVertex(old(vBuffer), i * (div + 1) + j)
      ensures vBuffer == WithVec(old(vBuffer), i * (div + 1) + j, v)
      ensures Valid()
    {
      GridIndexBound(i, j, div + 1);
      vBuffer := WithVec(vBuffer, i * (div + 1) + j, v);
    }

    /** Reads the three coordinates of grid vertex `(i, j)`. */
    method GetVertex(i: nat, j: nat) returns (v: Vec3)
      requires Valid() && i <= div && j <= div
      ensures HasVertex(vBuffer, i * (div + 1) + j)
      ensures v == VecAt(vBuffer, i * (div + 1) + j)
    {
      GridIndexBound(i, j, div + 1);
      var vid := (i * (div + 1) + j) * 3;
      v := Vec3(vBuffer[vid], vBuffer[vid + 1], vBuffer[vid + 2]);
    }

    /** Pushes the vertex grid onto the position and normal buffers, runs
        the fault passes over every vertex, pushes the grid's faces onto the
        face buffer and recomputes the normals over the whole buffers. The
        counts are taken from the buffer lengths. */
    method GenerateTriangles(cuts: seq<FaultCut>, invSqrt: real -> real)
      requires div > 0 && |cuts| == Iterations
      requires |vBuffer| % 3 == 0 && |nBuffer| == |vBuffer| && |fBuffer| % 3 == 0 && MeshOk(vBuffer, fBuffer)
      modifies this`vBuffer, this`fBuffer, this`nBuffer, this`numVertices, this`numFaces
      ensures numVertices == |old(vBuffer)| / 3 + (div + 1) * (div + 1)
      ensures |vBuffer| == 3 * numVertices && |nBuffer| == |vBuffer|
      ensures numFaces == |old(fBuffer)| / 3 + 2 * (div * div) && |fBuffer| == 3 * numFaces
      ensures vBuffer == DisplacedAll(Dom(), cuts, old(vBuffer) + GridVertices(Dom()))
      ensures fBuffer == old(fBuffer) + GridFaces(div)
      ensures MeshOk(vBuffer, fBuffer)
      ensures nBuffer == NormalizedUpTo(Accumulated(old(nBuffer) + Zeros(|GridVertices(Dom())|), vBuffer, fBuffer, numFaces), invSqrt, numVertices)
    {
      var vs, ns := GridBuffers(Dom(), vBuffer, nBuffer);
      vBuffer, nBuffer := vs, ns;
      numVertices := |vBuffer| / 3;
      assert numVertices == |old(vBuffer)| / 3 + (div + 1) * (div + 1);
      UpdateVertices(cuts);
      var fs := GridFaceBuffer(div, fBuffer);
      fBuffer := fs;
      numFaces := |fBuffer| / 3;
      assert numFaces == |old(fBuffer)| / 3 + 2 * (div * div);
      AppendedMeshOk(old(vBuffer), old(fBuffer), div, vBuffer);
      UpdateNormals(invSqrt);
    }

    /** The fault-plane passes, one per element of `cuts`. */
    method UpdateVertices(cuts: seq<FaultCut>)
      requires |vBuffer| == 3 * numVertices && |cuts| == Iterations
      modifies this`vBuffer
      ensures vBuffer == DisplacedAll(Dom(), cuts, old(vBuffer))
    {
      var it := 0;
      while it < Iterations
        invariant 0 <= it <= Iterations && |vBuffer| == 3 * numVertices
        invariant vBuffer == DisplacedAll(Dom(), cuts[..it], old(vBuffer))
      {
        ApplyCut(cuts[it]);
        assert cuts[..it + 1][..it] == cuts[..it];
        it := it + 1;
      }
      assert cuts[..Iterations] == cuts;
    }

    /** One pass of `updateVertices`: the random point `p` in the domain and
        the direction `n` of `c` split the plane; every vertex with
        `(b - p) . n > 0` rises by `Delta`, every other one sinks by `Delta`. */
    method ApplyCut(c: FaultCut)
      requires |vBuffer| == 3 * numVertices
      modifies this`vBuffer
      ensures vBuffer == Displaced(Dom(), c, old(vBuffer))
    {
      var p := (c.rx * (maxX - minX) + minX, c.ry * (maxY - minY) + minY);
      ghost var d := Dom();
      assert p.0 == CutPoint(d, c).0 && p.1 == CutPoint(d, c).1;
      var j := 0;
      while j < numVertices
        invariant 0 <= j <= numVertices
        invariant vBuffer == PassPrefix(d, c, old(vBuffer), j)
      {
        PassPrefixNext(d, c, old(vBuffer), j);
        var b := (vBuffer[j * 3], vBuffer[j * 3 + 1]);
        if (b.0 - p.0) * c.nx + (b.1 - p.1) * c.ny > 0.0 {
          vBuffer := vBuffer[j * 3 + 2 := vBuffer[j * 3 + 2] + Delta];
        } else {
          vBuffer := vBuffer[j * 3 + 2 := vBuffer[j * 3 + 2] - Delta];
        }
        j := j + 1;
      }
      assert |old(vBuffer)| / 3 == numVertices;
    }

    /** Accumulates the face normals into the vertices, then normalises. */
    method UpdateNormals(invSqrt: real -> real)
      requires MeshOk(vBuffer, fBuffer) && |nBuffer| == |vBuffer|
      requires |vBuffer| == 3 * numVertices && |fBuffer| == 3 * numFaces
      modifies this`nBuffer
      ensures nBuffer == NormalizedUpTo(Accumulated(old(nBuffer), vBuffer, fBuffer, numFaces), invSqrt, numVertices)
    {
      var ns := AccumulateFaceNormals(vBuffer, fBuffer, nBuffer, numFaces);
      ns := NormalizeVertices(ns, invSqrt, numVertices);
      nBuffer := ns;
    }

    /** Appends the three sides of every triangle to the edge list. */
    method GenerateLines()
      requires |fBuffer| == 3 * numFaces
      modifies this`eBuffer
      ensures eBuffer == old(eBuffer) + Edges(fBuffer, numFaces)
    {
      var numTris := |fBuffer| / 3;
      assert numTris == numFaces;
      var f := 0;
      while f < numTris
        invariant 0 <= f <= numTris
        invariant eBuffer == old(eBuffer) + Edges(fBuffer, f)
      {
        var fid := f * 3;
        ghost var tri, before := TriAt(fBuffer, f), eBuffer;
        eBuffer := eBuffer + [fBuffer[fid], fBuffer[fid + 1]];
        eBuffer := eBuffer + [fBuffer[fid + 1], fBuffer[fid + 2]];
        eBuffer := eBuffer + [fBuffer[fid + 2], fBuffer[fid]];
        assert eBuffer == before + [tri.a, tri.b, tri.b, tri.c, tri.c, tri.a];
        AppendAssoc(old(eBuffer), Edges(fBuffer, f), [tri.a, tri.b, tri.b, tri.c, tri.c, tri.a]);
        f := f + 1;
      }
    }
  }

  /** The vertex loops of `generateTriangles`: row `i`, column `j` is the
      point `(minX + deltaX*j, minY + deltaY*i, 0)`, pushed after the
      entries already there, with a zero normal. */
  method GridBuffers(d: Domain, vs0: seq<real>, ns0: seq<real>) returns (vs: seq<real>, ns: seq<real>)
    requires d.div > 0
    ensures vs == vs0 + GridVertices(d) && |vs| == |vs0| + 3 * ((d.div + 1) * (d.div + 1))
    ensures ns == ns0 + Zeros(|GridVertices(d)|)
  {
    vs, ns := vs0, ns0;
    var i := 0;
    while i <= d.div
      invariant 0 <= i <= d.div + 1
      invariant vs == vs0 + GridRows(d, i) && ns == ns0 + Zeros(|GridRows(d, i)|)
    {
      ZerosConcat(|GridRows(d, i)|, 3 * d.Width());
      AppendAssoc(vs0, GridRows(d, i), GridRow(d, i, d.Width()));
      AppendAssoc(ns0, Zeros(|GridRows(d, i)|), Zeros(3 * d.Width()));
      vs, ns := AppendGridRow(d, i, vs, ns);
      i := i + 1;
    }
  }

  /** One pass of the inner vertex loop: appends row `i` of the grid to the
      positions and as many zero triples to the normals. */
  method AppendGridRow(d: Domain, i: nat, vs0: seq<real>, ns0: seq<real>) returns (vs: seq<real>, ns: seq<real>)
    requires d.div > 0
    ensures vs == vs0 + GridRow(d, i, d.Width())
    ensures ns == ns0 + Zeros(3 * d.Width())
  {
    var deltaX := (d.maxX - d.minX) / (d.div as real);
    var deltaY := (d.maxY - d.minY) / (d.div as real);
    vs, ns := vs0, ns0;
    var j := 0;
    while j <= d.div
      invariant 0 <= j <= d.div + 1
      invariant vs == vs0 + GridRow(d, i, j)
      invariant ns == ns0 + Zeros(3 * j)
    {
      var p := [Coord(d.minX, deltaX, j), Coord(d.minY, deltaY, i), 0.0];
      GridRowStep(d, i, j);
      AppendAssoc(vs0, GridRow(d, i, j), p);
      ZerosConcat(3 * j, 3);
      AppendAssoc(ns0, Zeros(3 * j), Zeros(3));
      vs := vs + p;
      ns := ns + [0.0, 0.0, 0.0];
      j := j + 1;
    }
  }

  /** The face loops of `generateTriangles`: two triangles per grid cell,
      row by row, pushed after the faces already there. */
  method GridFaceBuffer(div: nat, fs0: seq<int>) returns (fs: seq<int>)
    ensures fs == fs0 + GridFaces(div)
  {
    fs := fs0;
    var i := 0;
    while i < div
      invariant 0 <= i <= div
      invariant fs == fs0 + FaceRows(div, i)
    {
      var j := 0;
      while j < div
        invariant 0 <= j <= div
        invariant fs == fs0 + FaceRows(div, i) + FaceRow(div, i, j)
      {
        var vid := i * (div + 1) + j;
        var lower, upper := [vid, vid + 1, vid + div + 1], [vid + 1, vid + 1 + div + 1, vid + div + 1];
        assert lower + upper == Cell(div, i, j);
        AppendAssoc(fs, lower, upper);
        AppendAssoc(fs0 + FaceRows(div, i), FaceRow(div, i, j), Cell(div, i, j));
        fs := fs + lower;
        fs := fs + upper;
        j := j + 1;
      }
      AppendAssoc(fs0, FaceRows(div, i), FaceRow(div, i, div));
      i := i + 1;
    }
  }

  /** The face loop of `updateNormals`: adds the cross product of each
      triangle's two edges from its first corner to the accumulators of its
      three corners, reading all three before writing any. */
  method AccumulateFaceNormals(vs: seq<real>, fs: seq<int>, n0: seq<real>, numFaces: nat) returns (ns: seq<real>)
    requires MeshOk(vs, fs) && |n0| == |vs| && |fs| == 3 * numFaces
    ensures ns == Accumulated(n0, vs, fs, numFaces)
  {
    ns := n0;
    var i := 0;
    while i < numFaces
      invariant 0 <= i <= numFaces
      invariant ns == Accumulated(n0, vs, fs, i)
    {
      assert Accumulated(n0, vs, fs, i + 1) == AddFace(Accumulated(n0, vs, fs, i), vs, fs, i);
      ns := AddFace(ns, vs, fs, i);
      i := i + 1;
    }
  }

  /** The normalisation loop of `updateNormals`. */
  method NormalizeVertices(n0: seq<real>, invSqrt: real -> real, numVertices: nat) returns (ns: seq<real>)
    requires |n0| == 3 * numVertices
    ensures ns == NormalizedUpTo(n0, invSqrt, numVertices)
  {
    ns := n0;
    var i := 0;
    while i < numVertices
      invariant 0 <= i <= numVertices
      invariant ns == NormalizedUpTo(n0, invSqrt, i)
    {
      NormalizedAt(n0, invSqrt, i, i);
      var n := VecAt(ns, i);
      n := Normalize(n, invSqrt);
      ns := WithVec(ns, i, n);
      i := i + 1;
    }
  }
}
