/** The cube mesh drawn around the scene of the skybox demo: eight corners at
    `±width` and six faces of two triangles each, listed as corner indices. */
module Skybox {
  import opened Geometry

  /** One entry of the face table: six corner indices (two triangles) and
      the face's outward normal. */
  datatype Face = Face(f: seq<int>, n: Vec3)

  /** The face table, in declaration order. */
  const Faces: seq<Face> := [
    Face([0, 1, 2, 0, 3, 2], Vec3(0.0, 0.0, 1.0)),
    Face([4, 5, 6, 4, 7, 6], Vec3(0.0, 0.0, -1.0)),
    Face([3, 2, 6, 3, 7, 6], Vec3(0.0, 1.0, 0.0)),
    Face([0, 1, 5, 0, 4, 5], Vec3(0.0, -1.0, 0.0)),
    Face([2, 1, 5, 2, 6, 5], Vec3(1.0, 0.0, 0.0)),
    Face([4, 0, 3, 4, 7, 3], Vec3(-1.0, 0.0, 0.0))
  ]

  /** The eight corners as a flat buffer: the `z = w` square first, then
      the `z = -w` square, each counter-clockwise from `(-w, -w)`. */
  function Corners(w: real): (r: seq<real>)
    ensures |r| == 24
    ensures forall k :: 0 <= k < 24 ==> r[k] == w || r[k] == -w
  {
    [ -w, -w, w,
      w, -w, w,
      w, w, w,
      -w, w, w,
      -w, -w, -w,
      w, -w, -w,
      w, w, -w,
      -w, w, -w ]
  }

  /** The index lists of `faces` one after the other. */
  function Flatten(faces: seq<Face>): (r: seq<int>)
  {
    if faces == [] then [] else Flatten(faces[..|faces| - 1]) + faces[|faces| - 1].f
  }

  lemma FlattenSnoc(faces: seq<Face>, i: nat)
    requires i < |faces|
    ensures Flatten(faces[..i + 1]) == Flatten(faces[..i]) + faces[i].f
  {
    assert faces[..i + 1][..i] == faces[..i];
  }

  /** Flattening adds up the lengths of the index lists. */
  lemma {:induction false} FlattenLength(faces: seq<Face>, each: nat)
    requires forall k :: 0 <= k < |faces| ==> |faces[k].f| == each
    ensures |Flatten(faces)| == each * |faces|
  {
    if faces != [] {
      var n := |faces| - 1;
      FlattenLength(faces[..n], each);
      assert each * |faces| == each * n + each;
    }
  }

  /** Every flattened index comes from some face. */
  lemma {:induction false} FlattenFrom(faces: seq<Face>, m: int)
    requires m in Flatten(faces)
    ensures exists k :: 0 <= k < |faces| && m in faces[k].f
  {
    var last := |faces| - 1;
    if m in faces[last].f {
    } else {
      FlattenFrom(faces[..last], m);
      var k :| 0 <= k < last && m in faces[..last][k].f;
      assert m in faces[k].f;
    }
  }

  /** The corner with index `m` of the buffer `Corners(w)`. */
  function Corner(w: real, m: int): Vec3
    requires 0 <= m < 8
  {
    VecAt(Corners(w), m)
  }

  /** Corner `m` of face `face` lies in the plane of the face: its dot
      product with the face's outward normal is `w`. */
  predicate OnPlane(w: real, face: Face, j: int)
    requires 0 <= j < |face.f|
  {
    0 <= face.f[j] < 8 && Dot(Corner(w, face.f[j]), face.n) == w
  }

  lemma FaceOnItsPlane(w: real, k: int)
    requires 0 <= k < |Faces|
    ensures forall j :: 0 <= j < |Faces[k].f| ==> OnPlane(w, Faces[k], j)
  {
    var face := Faces[k];
    forall j | 0 <= j < |face.f|
      ensures OnPlane(w, face, j)
    {
      assert j in {0, 1, 2, 3, 4, 5};
    }
  }

  /** Each face's corners lie in the face's plane, so every face table
      entry names corners of one side of the cube and its normal points
      away from the centre. */
  lemma FacesOnTheirPlanes(w: real)
    ensures forall k, j :: 0 <= k < |Faces| && 0 <= j < |Faces[k].f| ==> OnPlane(w, Faces[k], j)
  {
    forall k | 0 <= k < |Faces| {
      FaceOnItsPlane(w, k);
    }
  }

  /** The index buffer of the skybox: 36 indices, twelve triangles, every
      index naming one of the eight corners. */
  lemma SkyIndices()
    ensures |Flatten(Faces)| == 36 && |Flatten(Faces)| / 3 == 12
    ensures forall m :: m in Flatten(Faces) ==> 0 <= m < 8
  {
    FlattenLength(Faces, 6);
    forall m | m in Flatten(Faces)
      ensures 0 <= m < 8
    {
      FlattenFrom(Faces, m);
      var k :| 0 <= k < |Faces| && m in Faces[k].f;
      FacesOnTheirPlanes(0.0);
    }
  }

  class SkyBox {
    var isLoaded: bool
    var width: real
    var numFaces: int
    var numVertices: int
    var vBuffer: seq<real>
    var fBuffer: seq<int>
    var nBuffer: seq<real>

    /** The buffers as the constructor leaves them. */
    ghost predicate Valid()
      reads this
    {
      isLoaded && vBuffer == Corners(width) && fBuffer == Flatten(Faces)
      && numFaces == |fBuffer| / 3 && numVertices == |vBuffer|
    }

    /** `constructor`: empty buffers and `isLoaded` false, then
        `createMesh` fills them. */
    constructor()
      ensures Valid() && Loaded() && width == 15.0 && numFaces == 12 && numVertices == 24
      ensures |fBuffer| == 36 && forall m :: m in fBuffer ==> 0 <= m < 8
      ensures nBuffer == []
    {
      isLoaded := false;
      width := 15.0;
      numFaces := 0;
      numVertices := 0;
      vBuffer := [];
      fBuffer := [];
      nBuffer := [];
      new;
      CreateMesh();
      SkyIndices();
    }

    /** `loaded`: whether the mesh has been built. */
    function Loaded(): bool
      reads this
    {
      isLoaded
    }

    /** `createMesh`: the corner buffer is replaced, the face table's index
        lists are appended to the index buffer, the counts are set to 24
        and 12, and the mesh is marked loaded. */
    method CreateMesh()
      modifies this`vBuffer, this`fBuffer, this`numVertices, this`numFaces, this`isLoaded
      ensures vBuffer == Corners(width)
      ensures fBuffer == old(fBuffer) + Flatten(Faces)
      ensures numVertices == 24 && numFaces == 12 && isLoaded
    {
      var w := width;
      vBuffer := Corners(w);
      numVertices := 24;
      var faces := Faces;
      for i := 0 to |faces|
        invariant fBuffer == old(fBuffer) + Flatten(faces[..i])
        invariant vBuffer == Corners(w) && numVertices == 24
      {
        PushAll(faces[i].f);
        FlattenSnoc(faces, i);
      }
      assert faces[..|faces|] == faces;
      numFaces := 12;
      isLoaded := true;
    }

    /** The inner loop of `createMesh`: push each index of one face. */
    method PushAll(face: seq<int>)
      modifies this`fBuffer
      ensures fBuffer == old(fBuffer) + face
    {
      for j := 0 to |face|
        invariant fBuffer == old(fBuffer) + face[..j]
      {
        assert face[..j + 1] == face[..j] + [face[j]];
        fBuffer := fBuffer + [face[j]];
      }
      assert face[..|face|] == face;
    }
  }
}
