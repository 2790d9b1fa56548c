/** The shape builders of src/geometry.cpp: a shape is a fill mesh, an outline
    and a thicker highlight outline, each uploaded to its own vertex buffer;
    make_shape_set builds the fourteen shapes of the game. */
module ShapeBuilder {
  import opened Vectors
  import opened Meshes
  import opened Geometry
  import opened GlHelper
  import opened Permutations

  /** A GL_TRIANGLES mesh on the GPU and the colour it is drawn in. */
  datatype ShapePrimitive = ShapePrimitive(vertexBuffer: VertexBuffer, color: Vec4)

  datatype Shape = Shape(bbox: BBox, rotationDirection: real,
                         line: ShapePrimitive, lineHighlight: ShapePrimitive, fill: ShapePrimitive,
                         trans: Vec2, scale: real, theta: real)

  /** What make_fill returns for vert. */
  function FillMesh(vert: seq<Vec2>): VertexIndex
  {
    VertexIndex(vert + [ORIGIN], FillIndices(|vert|, |vert|))
  }

  /** What make_line returns for vert. */
  function LineMesh(m: RealMath, vert: seq<Vec2>, thickness: real): VertexIndex
    requires LineReady(m, vert)
  {
    VertexIndex(LinePoints(m, vert, thickness), LineIndices(|vert|))
  }

  /** The buffer holds the mesh as make_vertex_buffer uploads it. */
  predicate Uploads(b: VertexBuffer, mesh: VertexIndex)
    reads b
  {
    b.vertexData == Flatten2(mesh.vertex) && b.indexData == mesh.index && b.indexCount == |mesh.index|
  }

  /** shape is what make_shape builds from the outline vert. */
  predicate ShapeOf(shape: Shape, m: RealMath, vert: seq<Vec2>, thickness: real, lineColor: Vec4, fillColor: Vec4)
    reads shape.fill.vertexBuffer, shape.line.vertexBuffer, shape.lineHighlight.vertexBuffer
  {
    && LineReady(m, vert)
    && Uploads(shape.fill.vertexBuffer, FillMesh(vert)) && shape.fill.color == fillColor
    && Uploads(shape.line.vertexBuffer, LineMesh(m, vert, thickness)) && shape.line.color == lineColor
    && Uploads(shape.lineHighlight.vertexBuffer, LineMesh(m, vert, thickness * 2.0))
    && shape.lineHighlight.color == lineColor
    && shape.bbox == BBox(Vec2(-1.0, -1.0), Vec2(1.0, 1.0))
    && shape.rotationDirection == 1.0 && shape.trans == Vec2(0.0, 0.0) && shape.scale == 1.0 && shape.theta == 0.0
  }

  /** A shape built from an n-gon outline draws 3n fill indices over n + 1
      vertices and 18n outline indices over 12n vertices, every index in range. */
  lemma ShapeSizes(shape: Shape, m: RealMath, vert: seq<Vec2>, thickness: real, lineColor: Vec4, fillColor: Vec4)
    requires ShapeOf(shape, m, vert, thickness, lineColor, fillColor)
    ensures shape.fill.vertexBuffer.indexCount == 3 * |vert|
    ensures |shape.fill.vertexBuffer.vertexData| == 2 * (|vert| + 1)
    ensures Triangles(shape.fill.vertexBuffer.indexData, |vert| + 1)
    ensures shape.line.vertexBuffer.indexCount == 18 * |vert|
    ensures |shape.line.vertexBuffer.vertexData| == 24 * |vert|
    ensures Triangles(shape.line.vertexBuffer.indexData, 12 * |vert|)
    ensures shape.lineHighlight.vertexBuffer.indexCount == 18 * |vert|
  {
    FillIndicesLength(|vert|, |vert|);
    FillIndicesBound(|vert|, |vert|);
    Flatten2Length(vert + [ORIGIN]);
    LineMeshShape(m, vert, thickness);
    LineMeshShape(m, vert, thickness * 2.0);
    Flatten2Length(LinePoints(m, vert, thickness));
  }

  /** make_shape: fill, outline, and an outline of twice the thickness for highlighting. */
  method MakeShape(m: RealMath, vert: seq<Vec2>, lineThickness: real, lineColor: Vec4, fillColor: Vec4)
    returns (shape: Shape)
    requires LineReady(m, vert)
    ensures fresh(shape.fill.vertexBuffer) && fresh(shape.line.vertexBuffer) && fresh(shape.lineHighlight.vertexBuffer)
    ensures ShapeOf(shape, m, vert, lineThickness, lineColor, fillColor)
  {
    var fillMesh := MakeFill(vert);
    var fillBuffer := MakeVertexBuffer2(fillMesh.vertex, fillMesh.index);
    var lineMesh := MakeLine(m, vert, lineThickness);
    var lineBuffer := MakeVertexBuffer2(lineMesh.vertex, lineMesh.index);
    var highlightMesh := MakeLine(m, vert, lineThickness * 2.0);
    var highlightBuffer := MakeVertexBuffer2(highlightMesh.vertex, highlightMesh.index);
    shape := Shape(BBox(Vec2(-1.0, -1.0), Vec2(1.0, 1.0)), 1.0,
                   ShapePrimitive(lineBuffer, lineColor), ShapePrimitive(highlightBuffer, lineColor),
                   ShapePrimitive(fillBuffer, fillColor), Vec2(0.0, 0.0), 1.0, 0.0);
  }

  /** make_shape_polygon: make_shape on make_polygon's vertices. */
  method MakeShapePolygon(m: RealMath, sides: int, radius: seq<real>, lineThickness: real, lineColor: Vec4, fillColor: Vec4)
    returns (shape: Shape)
    requires sides > 0 ==> |radius| > 0
    requires LineReady(m, Polygon(m, sides, radius))
    ensures fresh(shape.fill.vertexBuffer) && fresh(shape.line.vertexBuffer) && fresh(shape.lineHighlight.vertexBuffer)
    ensures ShapeOf(shape, m, Polygon(m, sides, radius), lineThickness, lineColor, fillColor)
  {
    var vert := MakePolygon(m, sides, radius);
    shape := MakeShape(m, vert, lineThickness, lineColor, fillColor);
  }

  /** make_oval always uses 36 vertices. */
  const OVAL_SIDES: nat := 36

  /** Vertex i of the oval: the circle of the given radius squashed to half height. */
  function OvalVertex(m: RealMath, radius: real, i: nat): Vec2
  {
    var theta := Theta(OVAL_SIDES, i);
    Vec2(radius * m.cos(theta), radius * m.sin(theta) * 0.5)
  }

  /** The first k oval vertices, in the order make_oval pushes them. */
  function OvalPrefix(m: RealMath, radius: real, k: nat): seq<Vec2>
  {
    if k == 0 then [] else OvalPrefix(m, radius, k - 1) + [OvalVertex(m, radius, k - 1)]
  }

  /** The outline make_oval builds. */
  function Oval(m: RealMath, radius: real): seq<Vec2>
  {
    OvalPrefix(m, radius, OVAL_SIDES)
  }

  /** Entry i of any prefix holding it is vertex i. */
  lemma {:induction false} OvalPrefixAt(m: RealMath, radius: real, k: nat, i: nat)
    requires i < k
    ensures |OvalPrefix(m, radius, k)| == k
    ensures OvalPrefix(m, radius, k)[i] == OvalVertex(m, radius, i)
  {
    if i < k - 1 {
      OvalPrefixAt(m, radius, k - 1, i);
    } else if k > 1 {
      OvalPrefixAt(m, radius, k - 1, 0);
    }
  }

  /** The oval has 36 vertices and each lies on the ellipse with semi-axes
      radius and radius / 2. */
  lemma OvalOnEllipse(m: RealMath, radius: real, i: nat)
    requires Lawful(m) && i < OVAL_SIDES
    ensures |Oval(m, radius)| == OVAL_SIDES
    ensures var v := Oval(m, radius)[i];
            v.x * v.x + 4.0 * (v.y * v.y) == radius * radius
  {
    OvalPrefixAt(m, radius, OVAL_SIDES, i);
    var theta := Theta(OVAL_SIDES, i);
    var c, s := m.cos(theta), m.sin(theta);
    assert c * c + s * s == 1.0;
    calc {
      (radius * c) * (radius * c) + 4.0 * ((radius * s * 0.5) * (radius * s * 0.5));
      radius * radius * (c * c + s * s);
      radius * radius;
    }
  }

  /** make_oval: 36 vertices of a half-height ellipse, then make_shape. */
  method MakeOval(m: RealMath, radius: real, lineThickness: real, lineColor: Vec4, fillColor: Vec4)
    returns (shape: Shape)
    requires LineReady(m, Oval(m, radius))
    ensures fresh(shape.fill.vertexBuffer) && fresh(shape.line.vertexBuffer) && fresh(shape.lineHighlight.vertexBuffer)
    ensures ShapeOf(shape, m, Oval(m, radius), lineThickness, lineColor, fillColor)
  {
    var vert: seq<Vec2> := [];
    var sides := OVAL_SIDES;
    for i := 0 to sides
      invariant vert == OvalPrefix(m, radius, i)
    {
      var theta := Theta(sides, i);
      var x := radius * m.cos(theta);
      var y := radius * m.sin(theta) * 0.5;
      assert Vec2(x, y) == OvalVertex(m, radius, i);
      vert := vert + [Vec2(x, y)];
    }
    shape := MakeShape(m, vert, lineThickness, lineColor, fillColor);
  }

  // ---------------------------------------------------------------------------
  // make_shape_set

  /** Outline width of every shape in the set, in normalised units. */
  const LINE_THICKNESS: real := 0.1

  /** Number of shapes make_shape_set builds. */
  const SET_SIZE: nat := 14

  /** The outline of shape k of the set: triangle to nonagon, a 36-gon circle,
      the oval, stars with 8, 10, 12 and 14 points, and the rhombus. */
  function SetOutline(m: RealMath, k: nat): seq<Vec2>
    requires k < SET_SIZE
  {
    if k < 7 then Polygon(m, k + 3, [1.0])
    else if k == 7 then Polygon(m, 36, [1.0])
    else if k == 8 then Oval(m, 1.0)
    else if k < 13 then Polygon(m, 8 + (k - 9) * 2, [1.0, 0.5])
    else Polygon(m, 4, [1.0, 0.8])
  }

  /** Outline k of the set can be built as a ribbon under m. */
  predicate OutlineReady(m: RealMath, k: nat)
  {
    k < SET_SIZE && LineReady(m, SetOutline(m, k))
  }

  /** Every outline of the set can be built as a ribbon under m. */
  predicate SetReady(m: RealMath)
  {
    forall k :: 0 <= k < SET_SIZE ==> OutlineReady(m, k)
  }

  /** The value of next_color's counter after `calls` calls: it starts at 0 and
      steps to the next palette slot, cyclically, before each read. */
  function ColorCounter(n: nat, calls: nat): (r: nat)
    requires n > 0
    ensures r < n
  {
    if calls == 0 then 0 else Next(n, ColorCounter(n, calls - 1))
  }

  lemma MulAtLeast(d: int, n: int)
    requires d >= 1 && n > 0
    ensures d * n >= n
  {
  }

  /** A multiple of n is 0 or at least n away from 0. */
  lemma MulTrichotomy(d: int, n: int)
    requires n > 0
    ensures d == 0 || d * n >= n || d * n <= -n
  {
    if d >= 1 {
      MulAtLeast(d, n);
    } else if d <= -1 {
      MulAtLeast(-d, n);
      assert (-d) * n == -(d * n);
    }
  }

  /** The remainder is determined by any quotient-remainder split. */
  lemma ModUnique(a: int, n: int, q: int, r: int)
    requires n > 0 && 0 <= r < n && a == q * n + r
    ensures a % n == r
  {
    var q1, r1 := a / n, a % n;
    assert a == q1 * n + r1;
    assert (q - q1) * n == r1 - r;
    MulTrichotomy(q - q1, n);
  }

  lemma ModSucc(c: nat, n: nat)
    requires n > 0
    ensures (c + 1) % n == if c % n + 1 < n then c % n + 1 else 0
  {
    var q, r := c / n, c % n;
    assert c == q * n + r;
    if r + 1 < n {
      ModUnique(c + 1, n, q, r + 1);
    } else {
      assert c + 1 == (q + 1) * n;
      ModUnique(c + 1, n, q + 1, 0);
    }
  }

  /** After k calls next_color's counter is k mod |palette|, so shape k (the
      (k + 1)-th call) gets colour (k + 1) mod |palette|. */
  lemma {:induction false} ColorCounterIsModulus(n: nat, calls: nat)
    requires n > 0
    ensures ColorCounter(n, calls) == calls % n
  {
    if calls > 0 {
      ColorCounterIsModulus(n, calls - 1);
      ModSucc(calls - 1, n);
    }
  }

  /** The fourteen outlines of the set, in order. */
  function SetOutlines(m: RealMath): (r: seq<seq<Vec2>>)
    ensures |r| == SET_SIZE
  {
    seq(SET_SIZE, k requires 0 <= k < SET_SIZE => SetOutline(m, k))
  }

  /** The fill colours of the set: shape k takes the colour read by call
      k + 1 of next_color. */
  function SetFills(color: seq<Vec4>): (r: seq<Vec4>)
    requires |color| > 0
    ensures |r| == SET_SIZE
  {
    seq(SET_SIZE, k requires 0 <= k < SET_SIZE => color[ColorCounter(|color|, k + 1)])
  }

  /** The colour next_color hands out for shape k when its counter stands at
      idx, and the counter it leaves behind. */
  lemma ColorStep(color: seq<Vec4>, k: nat, idx: nat)
    requires |color| > 0 && k < SET_SIZE && idx == ColorCounter(|color|, k)
    ensures ColorCounter(|color|, k + 1) == (idx + 1) % |color|
    ensures SetFills(color)[k] == color[(idx + 1) % |color|]
  {
    NextIsModulus(|color|, idx);
  }

  /** Shapes 0 .. 6 are the regular polygons with 3 .. 9 sides. */
  lemma RegularOutline(m: RealMath, k: nat, sides: int)
    requires SetReady(m) && k < 7 && sides == k + 3
    ensures SetOutlines(m)[k] == Polygon(m, sides, [1.0]) && LineReady(m, Polygon(m, sides, [1.0]))
  {
    assert OutlineReady(m, k);
    assert SetOutlines(m)[k] == SetOutline(m, k);
  }

  /** Shape 7 is the 36-gon circle. */
  lemma CircleOutline(m: RealMath, k: nat)
    requires SetReady(m) && k == 7
    ensures SetOutlines(m)[k] == Polygon(m, 36, [1.0]) && LineReady(m, Polygon(m, 36, [1.0]))
  {
    assert OutlineReady(m, k);
    assert SetOutlines(m)[k] == SetOutline(m, k);
  }

  /** Shape 8 is the oval. */
  lemma OvalOutline(m: RealMath, k: nat)
    requires SetReady(m) && k == 8
    ensures SetOutlines(m)[k] == Oval(m, 1.0) && LineReady(m, Oval(m, 1.0))
  {
    assert OutlineReady(m, k);
    assert SetOutlines(m)[k] == SetOutline(m, k);
  }

  /** Shapes 9 .. 12 are the stars with 8, 10, 12 and 14 points. */
  lemma StarOutline(m: RealMath, k: nat, i: nat)
    requires SetReady(m) && i < 4 && k == 9 + i
    ensures SetOutlines(m)[k] == Polygon(m, 8 + i * 2, [1.0, 0.5])
    ensures LineReady(m, Polygon(m, 8 + i * 2, [1.0, 0.5]))
  {
    assert OutlineReady(m, k);
    assert SetOutlines(m)[k] == SetOutline(m, k);
    assert 8 + (k - 9) * 2 == 8 + i * 2;
  }

  /** Shape 13 is the rhombus. */
  lemma RhombusOutline(m: RealMath, k: nat)
    requires SetReady(m) && k == 13
    ensures SetOutlines(m)[k] == Polygon(m, 4, [1.0, 0.8]) && LineReady(m, Polygon(m, 4, [1.0, 0.8]))
  {
    assert OutlineReady(m, k);
    assert SetOutlines(m)[k] == SetOutline(m, k);
  }

  /** The first |ret| shapes are built from the first |ret| outlines in the first |ret| fill colours. */
  predicate Built(ret: seq<Shape>, m: RealMath, lineColor: Vec4, outlines: seq<seq<Vec2>>, fills: seq<Vec4>)
    reads set k | 0 <= k < |ret| :: ret[k].fill.vertexBuffer
    reads set k | 0 <= k < |ret| :: ret[k].line.vertexBuffer
    reads set k | 0 <= k < |ret| :: ret[k].lineHighlight.vertexBuffer
  {
    && |ret| <= |outlines| && |ret| <= |fills|
    && forall k {:trigger ret[k]} :: 0 <= k < |ret| ==> ShapeOf(ret[k], m, outlines[k], LINE_THICKNESS, lineColor, fills[k])
  }

  lemma BuiltSnoc(ret: seq<Shape>, m: RealMath, lineColor: Vec4, outlines: seq<seq<Vec2>>, fills: seq<Vec4>,
                  s: Shape, vert: seq<Vec2>, c: Vec4)
    requires Built(ret, m, lineColor, outlines, fills) && |ret| < |outlines| && |ret| < |fills|
    requires outlines[|ret|] == vert && fills[|ret|] == c
    requires ShapeOf(s, m, vert, LINE_THICKNESS, lineColor, c)
    ensures Built(ret + [s], m, lineColor, outlines, fills)
  {
  }

  /** Shapes fresh from make_shape are unrotated and turn in direction +1. */
  lemma BuiltAtRest(ret: seq<Shape>, m: RealMath, lineColor: Vec4, outlines: seq<seq<Vec2>>, fills: seq<Vec4>)
    requires Built(ret, m, lineColor, outlines, fills)
    ensures forall k :: 0 <= k < |ret| ==> ret[k].theta == 0.0 && ret[k].rotationDirection == 1.0
  {
    forall k | 0 <= k < |ret|
      ensures ret[k].theta == 0.0 && ret[k].rotationDirection == 1.0
    {
      assert ShapeOf(ret[k], m, outlines[k], LINE_THICKNESS, lineColor, fills[k]);
    }
  }

  /** next_color: step the counter cyclically, then read that colour. */
  method NextColor(color: seq<Vec4>, idx: nat) returns (next: nat, c: Vec4)
    requires |color| > 0
    ensures next == (idx + 1) % |color| && next < |color| && c == color[next]
  {
    next := (idx + 1) % |color|;
    c := color[next];
  }

  /** One `ret.push_back(make_shape_polygon(sides, radius, ..., next_color()))`
      of make_shape_set: the new shape is built from the next outline in the
      next colour, and the shapes already built keep their buffers. */
  method PushPolygon(m: RealMath, lineColor: Vec4, color: seq<Vec4>, ret: seq<Shape>, idx: nat,
                     sides: int, radius: seq<real>, ghost outlines: seq<seq<Vec2>>, ghost fills: seq<Vec4>)
    returns (ret': seq<Shape>, idx': nat)
    requires Built(ret, m, lineColor, outlines, fills) && |ret| < |outlines| && |ret| < |fills|
    requires |color| > 0 && (sides > 0 ==> |radius| > 0) && LineReady(m, Polygon(m, sides, radius))
    requires outlines[|ret|] == Polygon(m, sides, radius) && fills[|ret|] == color[(idx + 1) % |color|]
    ensures |ret'| == |ret| + 1 && idx' == (idx + 1) % |color|
    ensures Built(ret', m, lineColor, outlines, fills)
  {
    var c;
    idx', c := NextColor(color, idx);
    var s := MakeShapePolygon(m, sides, radius, LINE_THICKNESS, lineColor, c);
    BuiltSnoc(ret, m, lineColor, outlines, fills, s, Polygon(m, sides, radius), c);
    ret' := ret + [s];
  }

  /** `ret.push_back(make_oval(1, ..., next_color()))`. */
  method PushOval(m: RealMath, lineColor: Vec4, color: seq<Vec4>, ret: seq<Shape>, idx: nat,
                  ghost outlines: seq<seq<Vec2>>, ghost fills: seq<Vec4>)
    returns (ret': seq<Shape>, idx': nat)
    requires Built(ret, m, lineColor, outlines, fills) && |ret| < |outlines| && |ret| < |fills|
    requires |color| > 0 && LineReady(m, Oval(m, 1.0))
    requires outlines[|ret|] == Oval(m, 1.0) && fills[|ret|] == color[(idx + 1) % |color|]
    ensures |ret'| == |ret| + 1 && idx' == (idx + 1) % |color|
    ensures Built(ret', m, lineColor, outlines, fills)
  {
    var c;
    idx', c := NextColor(color, idx);
    var s := MakeOval(m, 1.0, LINE_THICKNESS, lineColor, c);
    BuiltSnoc(ret, m, lineColor, outlines, fills, s, Oval(m, 1.0), c);
    ret' := ret + [s];
  }

  /** The colour list of make_shape_set: the palette's colours in map order,
      then std::shuffle, whose random choice is the permutation `shuffle`. */
  method ShuffledPalette(palette: seq<Vec4>, shuffle: seq<nat>) returns (color: seq<Vec4>)
    requires IsPermutation(shuffle, |palette|)
    ensures Indexes(shuffle, palette) && color == Permute(palette, shuffle)
    ensures |color| == |palette| && multiset(color) == multiset(palette)
  {
    color := [];
    for i := 0 to |palette|
      invariant color == palette[..i]
    {
      color := color + [palette[i]];
    }
    assert color == palette;
    PermuteMultiset(palette, shuffle);
    color := Permute(color, shuffle);
  }

  /** make_shape_set: the palette's colours in the order the shuffle chose, and
      the fourteen shapes, each taking the next colour of that list. */
  method MakeShapeSet(m: RealMath, lineColor: Vec4, palette: seq<Vec4>, shuffle: seq<nat>)
    returns (ret: seq<Shape>)
    requires |palette| > 0 && IsPermutation(shuffle, |palette|)
    requires SetReady(m)
    ensures |ret| == SET_SIZE
    ensures Indexes(shuffle, palette)
    ensures Built(ret, m, lineColor, SetOutlines(m), SetFills(Permute(palette, shuffle)))
  {
    var color := ShuffledPalette(palette, shuffle);
    ghost var outlines, fills := SetOutlines(m), SetFills(color);

    ret := [];
    var idx := 0;
    for sides := 3 to 10
      invariant |ret| == sides - 3 && idx == ColorCounter(|color|, |ret|)
      invariant Built(ret, m, lineColor, outlines, fills)
    {
      ColorStep(color, |ret|, idx);
      RegularOutline(m, |ret|, sides);
      ret, idx := PushPolygon(m, lineColor, color, ret, idx, sides, [1.0], outlines, fills);
    }
    ColorStep(color, |ret|, idx);
    CircleOutline(m, |ret|);
    ret, idx := PushPolygon(m, lineColor, color, ret, idx, 36, [1.0], outlines, fills);
    ColorStep(color, |ret|, idx);
    OvalOutline(m, |ret|);
    ret, idx := PushOval(m, lineColor, color, ret, idx, outlines, fills);
    for i := 0 to 4
      invariant |ret| == 9 + i && idx == ColorCounter(|color|, |ret|)
      invariant Built(ret, m, lineColor, outlines, fills)
    {
      ColorStep(color, |ret|, idx);
      StarOutline(m, |ret|, i);
      ret, idx := PushPolygon(m, lineColor, color, ret, idx, 8 + i * 2, [1.0, 0.5], outlines, fills);
    }
    ColorStep(color, |ret|, idx);
    RhombusOutline(m, |ret|);
    ret, idx := PushPolygon(m, lineColor, color, ret, idx, 4, [1.0, 0.8], outlines, fills);
  }

  /** The shuffled colour list is the palette reordered: every shape's fill
      colour is one of the palette's, and the list has one entry per colour. */
  lemma ShuffledColors(palette: seq<Vec4>, shuffle: seq<nat>)
    requires |palette| > 0 && IsPermutation(shuffle, |palette|)
    ensures Indexes(shuffle, palette) && |Permute(palette, shuffle)| == |palette|
    ensures multiset(Permute(palette, shuffle)) == multiset(palette)
    ensures forall k :: 0 <= k < |palette| ==> Permute(palette, shuffle)[k] in palette
  {
    PermuteMultiset(palette, shuffle);
    forall k | 0 <= k < |palette|
      ensures Permute(palette, shuffle)[k] in palette
    {
      assert Permute(palette, shuffle)[k] in multiset(Permute(palette, shuffle));
    }
  }

  /** Stars and the rhombus alternate between their two radii: even vertices lie
      on the outer circle, odd ones on the inner. */
  lemma TwoRadiusVertex(m: RealMath, sides: int, outer: real, inner: real, i: nat)
    requires Lawful(m) && sides > 0 && i < sides
    ensures |Polygon(m, sides, [outer, inner])| == sides
    ensures NormSq(Polygon(m, sides, [outer, inner])[i]) == if i % 2 == 0 then outer * outer else inner * inner
  {
    PolygonVertexOnCircle(m, sides, [outer, inner], i);
  }
}
