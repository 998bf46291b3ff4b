/** The buffer layout of the water mesh (water/WaterRenderer.java): one rectangle per pair
    of neighbouring springs, four vertices of seven floats each, and six `short` indices
    that split the rectangle into two triangles. */
module WaterRendering {
  import opened Springs

  datatype Color = Color(r: real, g: real, b: real, a: real)

  const TOP_WATER_COLOR: Color := Color(0.0, 1.0, 0.8, 0.7)
  const BOTTOM_WATER_COLOR: Color := Color(0.0, 0.0, 0.4, 1.0)

  /** Three position components and four unpacked colour components. */
  const VALUES_PER_VERTEX: int := 7

  /** The y of the bottom edge of the water. */
  const WATER_BOTTOM: real := -1.0

  /** Java's `(short)` cast: keeps the low 16 bits as a signed value. */
  function ToShort(v: int): (s: int)
    ensures -32768 <= s <= 32767
    ensures (s - v) % 65536 == 0
    ensures -32768 <= v <= 32767 ==> s == v
  {
    (v + 32768) % 65536 - 32768
  }

  /** The seven slots of one vertex. */
  function VertexValues(x: real, y: real, c: Color): (v: seq<real>)
    ensures |v| == VALUES_PER_VERTEX
  {
    [x, y, 0.0, c.r, c.g, c.b, c.a]
  }

  /** The 28 slots of one rectangle: right bottom, right top, left top, left bottom. */
  function RectangleValues(leftX: real, leftHeight: real, rightX: real, rightHeight: real): (v: seq<real>)
    ensures |v| == 4 * VALUES_PER_VERTEX
  {
    VertexValues(rightX, WATER_BOTTOM, BOTTOM_WATER_COLOR)
    + VertexValues(rightX, rightHeight, TOP_WATER_COLOR)
    + VertexValues(leftX, leftHeight, TOP_WATER_COLOR)
    + VertexValues(leftX, WATER_BOTTOM, BOTTOM_WATER_COLOR)
  }

  /** The position in the vertex buffer of slot `j` of rectangle `r`. */
  function Slot(r: int, j: int): int
  {
    4 * VALUES_PER_VERTEX * r + j
  }

  /** The buffers of the mesh; the GL mesh object itself is not modelled. */
  datatype MeshAndBuffers = MeshAndBuffers(valuesPerVertex: int, vertexIndices: array<int>, verticesWithColor: array<real>)

  /** The six indices of rectangle `i`: its corners `4i + [0, 1, 2, 2, 3, 0]`, each cast to
      short. */
  function RectangleIndices(i: int): (indices: seq<int>)
    ensures |indices| == 6
  {
    [ToShort(4 * i + 0), ToShort(4 * i + 1), ToShort(4 * i + 2),
     ToShort(4 * i + 2), ToShort(4 * i + 3), ToShort(4 * i + 0)]
  }

  /** The whole index buffer for `rectCount` rectangles. */
  function IndexPattern(rectCount: nat): (indices: seq<int>)
    ensures |indices| == 6 * rectCount
  {
    if rectCount == 0 then [] else IndexPattern(rectCount - 1) + RectangleIndices(rectCount - 1)
  }

  /** `createWaterMeshAndBuffers`: a zeroed vertex buffer of `4 * rectCount` vertices and
      the index buffer of `6 * rectCount` shorts. */
  method CreateWaterMeshAndBuffers(rectCount: nat) returns (buffers: MeshAndBuffers)
    ensures fresh(buffers.vertexIndices) && fresh(buffers.verticesWithColor)
    ensures buffers.valuesPerVertex == VALUES_PER_VERTEX
    ensures buffers.verticesWithColor.Length == 4 * rectCount * VALUES_PER_VERTEX
    ensures buffers.vertexIndices[..] == IndexPattern(rectCount)
  {
    var verticesCount := 4 * rectCount;
    var indicesCount := 6 * rectCount;
    var valuesPerVertex := 3 + 4;
    var waterVertexIndices := new int[indicesCount];
    var waterVerticesWithColor := new real[verticesCount * valuesPerVertex];
    var i := 0;
    while i < rectCount
      invariant 0 <= i <= rectCount
      invariant waterVertexIndices[..6 * i] == IndexPattern(i)
    {
      ghost var before := waterVertexIndices[..6 * i];
      WriteRectangleIndices(waterVertexIndices, i);
      assert waterVertexIndices[..6 * i] == before;
      assert waterVertexIndices[..6 * (i + 1)] == waterVertexIndices[..6 * i] + waterVertexIndices[6 * i..6 * i + 6];
      i := i + 1;
    }
    assert waterVertexIndices[..] == waterVertexIndices[..6 * rectCount];
    buffers := MeshAndBuffers(valuesPerVertex, waterVertexIndices, waterVerticesWithColor);
  }

  /** One iteration of the index loop of `createWaterMeshAndBuffers`. */
  method WriteRectangleIndices(waterVertexIndices: array<int>, i: int)
    requires 0 <= i && 6 * i + 6 <= waterVertexIndices.Length
    modifies waterVertexIndices
    ensures waterVertexIndices[6 * i..6 * i + 6] == RectangleIndices(i)
    ensures forall m :: 0 <= m < waterVertexIndices.Length && !(6 * i <= m < 6 * i + 6) ==>
      waterVertexIndices[m] == old(waterVertexIndices[m])
  {
    waterVertexIndices[i * 6 + 0] := ToShort(i * 4 + 0);
    waterVertexIndices[i * 6 + 1] := ToShort(i * 4 + 1);
    waterVertexIndices[i * 6 + 2] := ToShort(i * 4 + 2);
    waterVertexIndices[i * 6 + 3] := ToShort(i * 4 + 2);
    waterVertexIndices[i * 6 + 4] := ToShort(i * 4 + 3);
    waterVertexIndices[i * 6 + 5] := ToShort(i * 4 + 0);
  }

  /** Rectangle `i`'s six entries of the index buffer are `RectangleIndices(i)`. */
  lemma {:induction false} IndexPatternAt(rectCount: nat, i: int)
    requires 0 <= i < rectCount
    ensures IndexPattern(rectCount)[6 * i..6 * i + 6] == RectangleIndices(i)
    decreases rectCount
  {
    var prefix := IndexPattern(rectCount - 1);
    if i < rectCount - 1 {
      IndexPatternAt(rectCount - 1, i);
      assert IndexPattern(rectCount)[6 * i..6 * i + 6] == prefix[6 * i..6 * i + 6];
    } else {
      assert IndexPattern(rectCount)[6 * i..6 * i + 6] == IndexPattern(rectCount)[|prefix|..];
    }
  }

  /** While every vertex number fits in a short, the six indices of rectangle `i` name only
      vertices of that rectangle, all four of its corners, and stay below the vertex count. */
  lemma IndicesStayInTheirRectangle(rectCount: nat, i: int)
    requires 4 * rectCount <= 32768 && 0 <= i < rectCount
    ensures forall k :: 6 * i <= k < 6 * i + 6 ==>
      0 <= IndexPattern(rectCount)[k] < 4 * rectCount && IndexPattern(rectCount)[k] / 4 == i
    ensures (set k | 6 * i <= k < 6 * i + 6 :: IndexPattern(rectCount)[k]) == {4 * i, 4 * i + 1, 4 * i + 2, 4 * i + 3}
  {
    IndexPatternAt(rectCount, i);
    assert RectangleIndices(i) == [4 * i, 4 * i + 1, 4 * i + 2, 4 * i + 2, 4 * i + 3, 4 * i];
    SixCorners(IndexPattern(rectCount), i);
  }

  /** A buffer whose six entries from `6 i` are the corners `4i + [0, 1, 2, 2, 3, 0]` names
      exactly the four corners of rectangle `i` there. */
  lemma SixCorners(p: seq<int>, i: int)
    requires 0 <= i && 6 * i + 6 <= |p|
    requires p[6 * i..6 * i + 6] == [4 * i, 4 * i + 1, 4 * i + 2, 4 * i + 2, 4 * i + 3, 4 * i]
    ensures forall k :: 6 * i <= k < 6 * i + 6 ==> 4 * i <= p[k] <= 4 * i + 3 && p[k] / 4 == i
    ensures (set k | 6 * i <= k < 6 * i + 6 :: p[k]) == {4 * i, 4 * i + 1, 4 * i + 2, 4 * i + 3}
  {
    var w := p[6 * i..6 * i + 6];
    forall k | 6 * i <= k < 6 * i + 6
      ensures p[k] == w[k - 6 * i]
    {
    }
    var corners := set k | 6 * i <= k < 6 * i + 6 :: p[k];
    assert p[6 * i] in corners && p[6 * i + 1] in corners && p[6 * i + 2] in corners && p[6 * i + 4] in corners;
  }

  /** Past 8192 rectangles the cast wraps: the first vertex of rectangle 8192 is indexed as
      -32768. */
  lemma IndicesWrapPastShortRange()
    ensures IndexPattern(8193)[6 * 8192] == -32768
  {
    IndexPatternAt(8193, 8192);
    assert IndexPattern(8193)[6 * 8192] == IndexPattern(8193)[6 * 8192..6 * 8192 + 6][0];
  }

  /** `fillVertexArray`: writes the seven slots of one vertex at `offset` and nothing else. */
  method FillVertexArray(vertexArray: array<real>, color: Color, x: real, y: real, offset: int)
    requires 0 <= offset && offset + VALUES_PER_VERTEX <= vertexArray.Length
    modifies vertexArray
    ensures vertexArray[offset..offset + VALUES_PER_VERTEX] == VertexValues(x, y, color)
    ensures forall m :: 0 <= m < vertexArray.Length && !(offset <= m < offset + VALUES_PER_VERTEX) ==>
      vertexArray[m] == old(vertexArray[m])
  {
    vertexArray[offset] := x;
    vertexArray[offset + 1] := y;
    vertexArray[offset + 2] := 0.0;
    vertexArray[offset + 3] := color.r;
    vertexArray[offset + 4] := color.g;
    vertexArray[offset + 5] := color.b;
    vertexArray[offset + 6] := color.a;
  }

  /** `generateWaterMesh`: rectangle `i`, between springs `i` and `i + 1`, fills the 28 slots
      from `28 i`; the slots of rectangles with no springs keep their values. The vertex
      buffer must have room for `springs.size() - 1` rectangles. */
  method GenerateWaterMesh(buffers: MeshAndBuffers, springs: seq<Spring>)
    requires buffers.valuesPerVertex == VALUES_PER_VERTEX
    requires (|springs| - 1) * 4 * VALUES_PER_VERTEX <= buffers.verticesWithColor.Length
    modifies buffers.verticesWithColor
    ensures forall r, j :: 0 <= r < |springs| - 1 && 0 <= j < 4 * VALUES_PER_VERTEX ==>
      buffers.verticesWithColor[Slot(r, j)]
        == RectangleValues(springs[r].x, springs[r].height, springs[r + 1].x, springs[r + 1].height)[j]
    ensures forall m :: 0 <= m < buffers.verticesWithColor.Length && 28 * (|springs| - 1) <= m ==>
      buffers.verticesWithColor[m] == old(buffers.verticesWithColor[m])
  {
    var verticesWithColor := buffers.verticesWithColor;
    var valuesPerVertex := buffers.valuesPerVertex;
    var i := 0;
    while i < |springs| - 1
      invariant 0 <= i && (i <= |springs| - 1 || i == 0)
      invariant forall r, j :: 0 <= r < i && 0 <= j < 28 ==>
        verticesWithColor[Slot(r, j)]
          == RectangleValues(springs[r].x, springs[r].height, springs[r + 1].x, springs[r + 1].height)[j]
      invariant forall m :: 28 * i <= m < verticesWithColor.Length ==> verticesWithColor[m] == old(verticesWithColor[m])
    {
      var leftSpring := springs[i];
      var rightSpring := springs[i + 1];
      var rectangleOffsetInArray := i * valuesPerVertex * 4;
      FillRectangle(verticesWithColor, leftSpring.GetX(), leftSpring.GetHeight(), rightSpring.GetX(), rightSpring.GetHeight(), rectangleOffsetInArray);
      i := i + 1;
    }
  }

  /** The four `fillVertexArray` calls of one rectangle. */
  method FillRectangle(verticesWithColor: array<real>, leftX: real, leftHeight: real, rightX: real, rightHeight: real, offset: int)
    requires 0 <= offset && offset + 28 <= verticesWithColor.Length
    modifies verticesWithColor
    ensures forall j :: 0 <= j < 28 ==> verticesWithColor[offset + j] == RectangleValues(leftX, leftHeight, rightX, rightHeight)[j]
    ensures forall m :: 0 <= m < verticesWithColor.Length && !(offset <= m < offset + 28) ==>
      verticesWithColor[m] == old(verticesWithColor[m])
  {
    var valuesPerVertex := VALUES_PER_VERTEX;
    FillVertexArray(verticesWithColor, BOTTOM_WATER_COLOR, rightX, WATER_BOTTOM, offset);
    FillVertexArray(verticesWithColor, TOP_WATER_COLOR, rightX, rightHeight, offset + valuesPerVertex);
    assert verticesWithColor[offset..offset + 7] == VertexValues(rightX, WATER_BOTTOM, BOTTOM_WATER_COLOR);
    FillVertexArray(verticesWithColor, TOP_WATER_COLOR, leftX, leftHeight, offset + valuesPerVertex * 2);
    assert verticesWithColor[offset..offset + 14] == RectangleValues(leftX, leftHeight, rightX, rightHeight)[..14];
    FillVertexArray(verticesWithColor, BOTTOM_WATER_COLOR, leftX, WATER_BOTTOM, offset + valuesPerVertex * 3);
    assert verticesWithColor[offset..offset + 21] == RectangleValues(leftX, leftHeight, rightX, rightHeight)[..21];
    assert verticesWithColor[offset..offset + 28] == RectangleValues(leftX, leftHeight, rightX, rightHeight);
    forall j | 0 <= j < 28
      ensures verticesWithColor[offset + j] == RectangleValues(leftX, leftHeight, rightX, rightHeight)[j]
    {
      assert verticesWithColor[offset + j] == verticesWithColor[offset..offset + 28][j];
    }
  }

  /** The corners of a rectangle: bottom vertices take the bottom colour at y = -1, top
      vertices the top colour at the spring heights. */
  lemma RectangleCorners(leftX: real, leftHeight: real, rightX: real, rightHeight: real)
    ensures var v := RectangleValues(leftX, leftHeight, rightX, rightHeight);
      v[0..7] == [rightX, -1.0, 0.0, 0.0, 0.0, 0.4, 1.0]
      && v[7..14] == [rightX, rightHeight, 0.0, 0.0, 1.0, 0.8, 0.7]
      && v[14..21] == [leftX, leftHeight, 0.0, 0.0, 1.0, 0.8, 0.7]
      && v[21..28] == [leftX, -1.0, 0.0, 0.0, 0.0, 0.4, 1.0]
  {
  }
}
