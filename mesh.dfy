/**
 * The mesh loader of Sample3DSceneRenderer: ObjMesh_LoadMesh hands back a
 * freshly allocated copy of a fixed unit cube, whatever file it is given, and
 * ObjMesh_Unload releases both arrays and nulls the caller's references.
 */
module Mesh {

  /** An `unsigned short` index. */
  newtype u16 = x: int | 0 <= x < 0x1_0000

  datatype Float3 = Float3(x: real, y: real, z: real)

  /** One vertex: a position and a colour. */
  datatype VertexPositionColor = VertexPositionColor(pos: Float3, color: Float3)

  const CubeVertexCount: nat := 8
  const CubeIndexCount: nat := 36

  /** The cube's eight corners at ±0.5 on each axis, each with its own colour. */
  function CubeVertices(): seq<VertexPositionColor> {
    [ VertexPositionColor(Float3(-0.5, -0.5, -0.5), Float3(0.0, 0.0, 0.0)),
      VertexPositionColor(Float3(-0.5, -0.5, 0.5), Float3(0.0, 0.0, 1.0)),
      VertexPositionColor(Float3(-0.5, 0.5, -0.5), Float3(0.0, 1.0, 0.0)),
      VertexPositionColor(Float3(-0.5, 0.5, 0.5), Float3(0.0, 1.0, 1.0)),
      VertexPositionColor(Float3(0.5, -0.5, -0.5), Float3(1.0, 0.0, 0.0)),
      VertexPositionColor(Float3(0.5, -0.5, 0.5), Float3(1.0, 0.0, 1.0)),
      VertexPositionColor(Float3(0.5, 0.5, -0.5), Float3(1.0, 1.0, 0.0)),
      VertexPositionColor(Float3(0.5, 0.5, 0.5), Float3(1.0, 1.0, 1.0)) ]
  }

  /** The cube's twelve triangles, two per face, each as its three vertex numbers in drawing order. */
  function CubeTriangle(t: nat): (u16, u16, u16)
    requires t < 12
  {
    match t
    case 0 => (0, 1, 2)
    case 1 => (1, 3, 2)

    case 2 => (4, 6, 5)
    case 3 => (5, 6, 7)

    case 4 => (0, 5, 1)
    case 5 => (0, 4, 5)

    case 6 => (2, 7, 6)
    case 7 => (2, 3, 7)

    case 8 => (0, 6, 4)
    case 9 => (0, 2, 6)

    case 10 => (1, 7, 3)
    case _ => (1, 5, 7)
  }

  /** One corner of a triangle: 0, 1 or 2. */
  function Corner(tri: (u16, u16, u16), c: nat): u16 {
    if c == 0 then tri.0 else if c == 1 then tri.1 else tri.2
  }

  /** The index table: the twelve triangles one after another, as a triangle list. */
  function CubeIndices(): seq<u16> {
    seq(CubeIndexCount, k requires 0 <= k < CubeIndexCount => Corner(CubeTriangle(k / 3), k % 3))
  }

  /**
   * ObjMesh_LoadMesh: the file is opened and closed without being read, and the
   * outputs are always a fresh copy of the cube.
   */
  method LoadMesh(filepath: string)
    returns (outVertices: array<VertexPositionColor>, outIndices: array<u16>, outNumVertices: nat, outNumIndices: nat)
    ensures fresh(outVertices) && fresh(outIndices)
    ensures outNumVertices == CubeVertexCount && outNumIndices == CubeIndexCount
    ensures outVertices.Length == outNumVertices && outIndices.Length == outNumIndices
    ensures outVertices[..] == CubeVertices() && outIndices[..] == CubeIndices()
  {
    var tempVertices := CubeVertices();
    var tempIndices := CubeIndices();
    outNumVertices := 8;
    outNumIndices := 36;
    outVertices := new VertexPositionColor[outNumVertices];
    outIndices := new u16[outNumIndices];
    // The two memcpy_s copies.
    forall i | 0 <= i < outNumVertices {
      outVertices[i] := tempVertices[i];
    }
    forall i | 0 <= i < outNumIndices {
      outIndices[i] := tempIndices[i];
    }
  }

  /** ObjMesh_Unload: frees both arrays; the caller's two references come back null. */
  method Unload(vertices: array?<VertexPositionColor>, indices: array?<u16>)
    returns (vertices': array?<VertexPositionColor>, indices': array?<u16>)
    ensures vertices' == null && indices' == null
  {
    vertices', indices' := null, null;
  }

  // ---------------------------------------------------------------------------
  // The cube's geometry

  /** The tables' sizes, and every index names one of the eight vertices. */
  lemma CubeTablesWellFormed()
    ensures |CubeVertices()| == CubeVertexCount
    ensures |CubeIndices()| == CubeIndexCount == 3 * 12
    ensures forall k | 0 <= k < CubeIndexCount :: CubeIndices()[k] as int < CubeVertexCount
  {
  }

  /** The eight corners are distinct, and each corner's colour is its position shifted by 0.5. */
  lemma CubeCornersColoured()
    ensures forall i, j | 0 <= i < j < CubeVertexCount :: CubeVertices()[i].pos != CubeVertices()[j].pos
    ensures forall i | 0 <= i < CubeVertexCount ::
              var v := CubeVertices()[i];
              v.color == Float3(v.pos.x + 0.5, v.pos.y + 0.5, v.pos.z + 0.5)
  {
  }

  /** Every one of the eight corners is used by some triangle. */
  lemma CubeUsesEveryVertex(v: nat)
    requires v < CubeVertexCount
    ensures exists k | 0 <= k < CubeIndexCount :: CubeIndices()[k] as int == v
  {
    var ix := CubeIndices();
    if v == 0 { assert ix[0] == 0; }
    else if v == 1 { assert ix[1] == 1; }
    else if v == 2 { assert ix[2] == 2; }
    else if v == 3 { assert ix[4] == 3; }
    else if v == 4 { assert ix[6] == 4; }
    else if v == 5 { assert ix[8] == 5; }
    else if v == 6 { assert ix[7] == 6; }
    else { assert ix[11] == 7; }
  }

  /** The three corners of each triangle are distinct: no triangle is degenerate. */
  lemma CubeTrianglesProper(t: nat)
    requires t < 12
    ensures CubeIndices()[3 * t] != CubeIndices()[3 * t + 1]
    ensures CubeIndices()[3 * t + 1] != CubeIndices()[3 * t + 2]
    ensures CubeIndices()[3 * t] != CubeIndices()[3 * t + 2]
  {
  }
}
