/**
 * The cube every point light is drawn with (`MeshData::cube`): 24 corners,
 * four per face so that each face has its own vertices, and two triangles per
 * face. The corners are integers, so every fact below is exact.
 */
module CubeGeometry {
  import opened Gpu

  /** A point with integer coordinates. */
  datatype IVec3 = IVec3(x: int, y: int, z: int)

  function ISub(a: IVec3, b: IVec3): IVec3 { IVec3(a.x - b.x, a.y - b.y, a.z - b.z) }

  function IScale(a: IVec3, k: int): IVec3 { IVec3(a.x * k, a.y * k, a.z * k) }

  function ICross(a: IVec3, b: IVec3): IVec3 {
    IVec3(a.y * b.z - a.z * b.y, a.z * b.x - a.x * b.z, a.x * b.y - a.y * b.x)
  }

  /** The corners, four per face: front, back, top, bottom, right, left. */
  const CUBE_POSITIONS: seq<IVec3> := [
    IVec3(-1, -1, 1), IVec3(1, -1, 1), IVec3(1, 1, 1), IVec3(-1, 1, 1),
    IVec3(-1, -1, -1), IVec3(-1, 1, -1), IVec3(1, 1, -1), IVec3(1, -1, -1),
    IVec3(-1, 1, -1), IVec3(-1, 1, 1), IVec3(1, 1, 1), IVec3(1, 1, -1),
    IVec3(-1, -1, -1), IVec3(1, -1, -1), IVec3(1, -1, 1), IVec3(-1, -1, 1),
    IVec3(1, -1, -1), IVec3(1, 1, -1), IVec3(1, 1, 1), IVec3(1, -1, 1),
    IVec3(-1, -1, -1), IVec3(-1, -1, 1), IVec3(-1, 1, 1), IVec3(-1, 1, -1)
  ]

  /** Two triangles per face, in the same face order. */
  const CUBE_INDICES: seq<U16> := [
    0, 1, 2, 0, 2, 3,
    4, 5, 6, 4, 6, 7,
    8, 9, 10, 8, 10, 11,
    12, 13, 14, 12, 14, 15,
    16, 17, 18, 16, 18, 19,
    20, 21, 22, 20, 22, 23
  ]

  predicate AllBelow(indices: seq<U16>, n: nat) {
    forall i | 0 <= i < |indices| :: indices[i] < n
  }

  /** The outward unit normal of face `f`, in the order the faces are listed. */
  function FaceNormal(f: nat): IVec3
    requires f < 6
  {
    if f == 0 then IVec3(0, 0, 1) else if f == 1 then IVec3(0, 0, -1)
    else if f == 2 then IVec3(0, 1, 0) else if f == 3 then IVec3(0, -1, 0)
    else if f == 4 then IVec3(1, 0, 0) else IVec3(-1, 0, 0)
  }

  /** The coordinate of `p` along the outward normal of face `f`. */
  function AlongNormal(p: IVec3, f: nat): int
    requires f < 6
  {
    if f == 0 then p.z else if f == 1 then -p.z
    else if f == 2 then p.y else if f == 3 then -p.y
    else if f == 4 then p.x else -p.x
  }

  predicate IsUnitCoordinate(c: int) { c == 1 || c == -1 }

  /** Corner `i` has only ±1 coordinates and lies on the plane of face `f`. */
  predicate OnFace(i: nat, f: nat)
    requires i < |CUBE_POSITIONS| && f < 6
  {
    var p := CUBE_POSITIONS[i];
    IsUnitCoordinate(p.x) && IsUnitCoordinate(p.y) && IsUnitCoordinate(p.z) && AlongNormal(p, f) == 1
  }

  /** The four corners of face `f` lie on that face. */
  predicate FacePlanes(f: nat)
    requires f < 6
  {
    OnFace(4 * f, f) && OnFace(4 * f + 1, f) && OnFace(4 * f + 2, f) && OnFace(4 * f + 3, f)
  }

  /** The six indices of face `f` are the triangles (4f, 4f+1, 4f+2) and (4f, 4f+2, 4f+3). */
  predicate FaceTriangles(f: nat)
    requires f < 6
  {
    CUBE_INDICES[6 * f] == 4 * f && CUBE_INDICES[6 * f + 1] == 4 * f + 1 &&
    CUBE_INDICES[6 * f + 2] == 4 * f + 2 && CUBE_INDICES[6 * f + 3] == 4 * f &&
    CUBE_INDICES[6 * f + 4] == 4 * f + 2 && CUBE_INDICES[6 * f + 5] == 4 * f + 3
  }

  /**
   * The triangle of corners (a, b, c) is wound counter-clockwise seen from
   * outside face `f`: the cross product of its edges, over integers, is four
   * times the face's outward normal.
   */
  predicate WoundOutward(a: nat, b: nat, c: nat, f: nat)
    requires a < |CUBE_POSITIONS| && b < |CUBE_POSITIONS| && c < |CUBE_POSITIONS| && f < 6
  {
    var p0, p1, p2, n := CUBE_POSITIONS[a], CUBE_POSITIONS[b], CUBE_POSITIONS[c], FaceNormal(f);
    ICross(ISub(p1, p0), ISub(p2, p0)) == IScale(n, 4)
  }

  /** The cube has 24 corners and 36 indices, and every index names a corner. */
  lemma CubeSizes()
    ensures |CUBE_POSITIONS| == 24 && |CUBE_INDICES| == 36
    ensures AllBelow(CUBE_INDICES, |CUBE_POSITIONS|)
  {
  }

  // One small lemma per face and per triangle: each is a separate computation
  // on literal data, and the lemmas after them dispatch on the face or
  // triangle number.

  lemma FrontFace()
    ensures FaceTriangles(0) && FacePlanes(0)
  {
    var p, c := CUBE_POSITIONS, CUBE_INDICES;
    assert p[0] == IVec3(-1, -1, 1) && p[1] == IVec3(1, -1, 1) && p[2] == IVec3(1, 1, 1) && p[3] == IVec3(-1, 1, 1);
    assert c[0] == 0 && c[1] == 1 && c[2] == 2 && c[3] == 0 && c[4] == 2 && c[5] == 3;
  }

  lemma BackFace()
    ensures FaceTriangles(1) && FacePlanes(1)
  {
    var p, c := CUBE_POSITIONS, CUBE_INDICES;
    assert p[4] == IVec3(-1, -1, -1) && p[5] == IVec3(-1, 1, -1) && p[6] == IVec3(1, 1, -1) && p[7] == IVec3(1, -1, -1);
    assert c[6] == 4 && c[7] == 5 && c[8] == 6 && c[9] == 4 && c[10] == 6 && c[11] == 7;
  }

  lemma TopFace()
    ensures FaceTriangles(2) && FacePlanes(2)
  {
    var p, c := CUBE_POSITIONS, CUBE_INDICES;
    assert p[8] == IVec3(-1, 1, -1) && p[9] == IVec3(-1, 1, 1) && p[10] == IVec3(1, 1, 1) && p[11] == IVec3(1, 1, -1);
    assert c[12] == 8 && c[13] == 9 && c[14] == 10 && c[15] == 8 && c[16] == 10 && c[17] == 11;
  }

  lemma BottomFace()
    ensures FaceTriangles(3) && FacePlanes(3)
  {
    var p, c := CUBE_POSITIONS, CUBE_INDICES;
    assert p[12] == IVec3(-1, -1, -1) && p[13] == IVec3(1, -1, -1) && p[14] == IVec3(1, -1, 1) && p[15] == IVec3(-1, -1, 1);
    assert c[18] == 12 && c[19] == 13 && c[20] == 14 && c[21] == 12 && c[22] == 14 && c[23] == 15;
  }

  lemma RightFace()
    ensures FaceTriangles(4) && FacePlanes(4)
  {
    var p, c := CUBE_POSITIONS, CUBE_INDICES;
    assert p[16] == IVec3(1, -1, -1) && p[17] == IVec3(1, 1, -1) && p[18] == IVec3(1, 1, 1) && p[19] == IVec3(1, -1, 1);
    assert c[24] == 16 && c[25] == 17 && c[26] == 18 && c[27] == 16 && c[28] == 18 && c[29] == 19;
  }

  lemma LeftFace()
    ensures FaceTriangles(5) && FacePlanes(5)
  {
    var p, c := CUBE_POSITIONS, CUBE_INDICES;
    assert p[20] == IVec3(-1, -1, -1) && p[21] == IVec3(-1, -1, 1) && p[22] == IVec3(-1, 1, 1) && p[23] == IVec3(-1, 1, -1);
    assert c[30] == 20 && c[31] == 21 && c[32] == 22 && c[33] == 20 && c[34] == 22 && c[35] == 23;
  }

  lemma Triangle0Wound()
    ensures WoundOutward(0, 1, 2, 0)
  {
    var p := CUBE_POSITIONS;
    assert p[0] == IVec3(-1, -1, 1) && p[1] == IVec3(1, -1, 1) && p[2] == IVec3(1, 1, 1);
  }

  lemma Triangle1Wound()
    ensures WoundOutward(0, 2, 3, 0)
  {
    var p := CUBE_POSITIONS;
    assert p[0] == IVec3(-1, -1, 1) && p[2] == IVec3(1, 1, 1) && p[3] == IVec3(-1, 1, 1);
  }

  lemma Triangle2Wound()
    ensures WoundOutward(4, 5, 6, 1)
  {
    var p := CUBE_POSITIONS;
    assert p[4] == IVec3(-1, -1, -1) && p[5] == IVec3(-1, 1, -1) && p[6] == IVec3(1, 1, -1);
  }

  lemma Triangle3Wound()
    ensures WoundOutward(4, 6, 7, 1)
  {
    var p := CUBE_POSITIONS;
    assert p[4] == IVec3(-1, -1, -1) && p[6] == IVec3(1, 1, -1) && p[7] == IVec3(1, -1, -1);
  }

  lemma Triangle4Wound()
    ensures WoundOutward(8, 9, 10, 2)
  {
    var p := CUBE_POSITIONS;
    assert p[8] == IVec3(-1, 1, -1) && p[9] == IVec3(-1, 1, 1) && p[10] == IVec3(1, 1, 1);
  }

  lemma Triangle5Wound()
    ensures WoundOutward(8, 10, 11, 2)
  {
    var p := CUBE_POSITIONS;
    assert p[8] == IVec3(-1, 1, -1) && p[10] == IVec3(1, 1, 1) && p[11] == IVec3(1, 1, -1);
  }

  lemma Triangle6Wound()
    ensures WoundOutward(12, 13, 14, 3)
  {
    var p := CUBE_POSITIONS;
    assert p[12] == IVec3(-1, -1, -1) && p[13] == IVec3(1, -1, -1) && p[14] == IVec3(1, -1, 1);
  }

  lemma Triangle7Wound()
    ensures WoundOutward(12, 14, 15, 3)
  {
    var p := CUBE_POSITIONS;
    assert p[12] == IVec3(-1, -1, -1) && p[14] == IVec3(1, -1, 1) && p[15] == IVec3(-1, -1, 1);
  }

  lemma Triangle8Wound()
    ensures WoundOutward(16, 17, 18, 4)
  {
    var p := CUBE_POSITIONS;
    assert p[16] == IVec3(1, -1, -1) && p[17] == IVec3(1, 1, -1) && p[18] == IVec3(1, 1, 1);
  }

  lemma Triangle9Wound()
    ensures WoundOutward(16, 18, 19, 4)
  {
    var p := CUBE_POSITIONS;
    assert p[16] == IVec3(1, -1, -1) && p[18] == IVec3(1, 1, 1) && p[19] == IVec3(1, -1, 1);
  }

  lemma Triangle10Wound()
    ensures WoundOutward(20, 21, 22, 5)
  {
    var p := CUBE_POSITIONS;
    assert p[20] == IVec3(-1, -1, -1) && p[21] == IVec3(-1, -1, 1) && p[22] == IVec3(-1, 1, 1);
  }

  lemma Triangle11Wound()
    ensures WoundOutward(20, 22, 23, 5)
  {
    var p := CUBE_POSITIONS;
    assert p[20] == IVec3(-1, -1, -1) && p[22] == IVec3(-1, 1, 1) && p[23] == IVec3(-1, 1, -1);
  }

  /** The triangles of face f are (4f, 4f+1, 4f+2) and (4f, 4f+2, 4f+3). */
  lemma CubeFaceTriangles(f: nat)
    requires f < 6
    ensures FaceTriangles(f)
  {
    if f == 0 {
      FrontFace();
    } else if f == 1 {
      BackFace();
    } else if f == 2 {
      TopFace();
    } else if f == 3 {
      BottomFace();
    } else if f == 4 {
      RightFace();
    } else if f == 5 {
      LeftFace();
    }
  }

  /**
   * Every coordinate is ±1 and the four corners of each face lie on it:
   * front z = 1, back z = -1, top y = 1, bottom y = -1, right x = 1,
   * left x = -1.
   */
  lemma CubeFacePlanes(f: nat)
    requires f < 6
    ensures FacePlanes(f)
  {
    if f == 0 {
      FrontFace();
    } else if f == 1 {
      BackFace();
    } else if f == 2 {
      TopFace();
    } else if f == 3 {
      BottomFace();
    } else if f == 4 {
      RightFace();
    } else if f == 5 {
      LeftFace();
    }
  }

  /**
   * Both triangles of face f, (4f, 4f+1, 4f+2) and (4f, 4f+2, 4f+3), point
   * out of it; `CubeFaceTriangles` shows these are the triangles the index
   * list gives face f.
   */
  lemma CubeWindingOutward(f: nat)
    requires f < 6
    ensures WoundOutward(4 * f, 4 * f + 1, 4 * f + 2, f) && WoundOutward(4 * f, 4 * f + 2, 4 * f + 3, f)
  {
    if f == 0 {
      Triangle0Wound();
      Triangle1Wound();
    } else if f == 1 {
      Triangle2Wound();
      Triangle3Wound();
    } else if f == 2 {
      Triangle4Wound();
      Triangle5Wound();
    } else if f == 3 {
      Triangle6Wound();
      Triangle7Wound();
    } else if f == 4 {
      Triangle8Wound();
      Triangle9Wound();
    } else if f == 5 {
      Triangle10Wound();
      Triangle11Wound();
    }
  }
}
