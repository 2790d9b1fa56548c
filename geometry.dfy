/** The procedural polygon tessellator of src/geometry.cpp: polygon vertices on a
    circle, a fan fill around the origin, and a mitred outline ribbon, plus the
    conversions between normalised and screen positions.  Floats are reals. */
module Geometry {
  import opened Vectors
  import opened Meshes

  // ---------------------------------------------------------------------------
  // make_polygon

  /** Angle of vertex i of a `sides`-gon: i * 2 * M_PI / sides. */
  function Theta(sides: int, i: int): real
    requires sides != 0
  {
    (i * 2) as real * PI / (sides as real)
  }

  /** Vertex i: radius[i mod |radius|] at angle Theta(sides, i). */
  function PolygonVertex(m: RealMath, sides: int, radius: seq<real>, i: nat): Vec2
    requires sides > 0 && |radius| > 0
  {
    var theta := Theta(sides, i);
    var r := radius[i % |radius|];
    Vec2(r * m.cos(theta), r * m.sin(theta))
  }

  /** The vertex list make_polygon builds; a non-positive side count builds none. */
  function Polygon(m: RealMath, sides: int, radius: seq<real>): seq<Vec2>
    requires sides > 0 ==> |radius| > 0
  {
    if sides <= 0 then []
    else seq(sides, i requires 0 <= i < sides => PolygonVertex(m, sides, radius, i))
  }

  method MakePolygon(m: RealMath, sides: int, radius: seq<real>) returns (vert: seq<Vec2>)
    requires sides > 0 ==> |radius| > 0
    ensures |vert| == if sides > 0 then sides else 0
    ensures vert == Polygon(m, sides, radius)
  {
    vert := [];
    var i := 0;
    while i < sides
      invariant 0 <= i <= if sides > 0 then sides else 0
      invariant |vert| == i
      invariant forall k :: 0 <= k < i ==> vert[k] == PolygonVertex(m, sides, radius, k)
    {
      var theta := Theta(sides, i);
      var r := radius[i % |radius|];
      var x := r * m.cos(theta);
      var y := r * m.sin(theta);
      vert := vert + [Vec2(x, y)];
      i := i + 1;
    }
  }

  /** Every vertex lies on the circle of the radius it was given. */
  lemma PolygonVertexOnCircle(m: RealMath, sides: int, radius: seq<real>, i: nat)
    requires Lawful(m) && sides > 0 && |radius| > 0 && i < sides
    ensures |Polygon(m, sides, radius)| == sides
    ensures var r := radius[i % |radius|];
            NormSq(Polygon(m, sides, radius)[i]) == r * r
  {
    var theta, r := Theta(sides, i), radius[i % |radius|];
    var c, s := m.cos(theta), m.sin(theta);
    assert c * c + s * s == 1.0;
    calc {
      (r * c) * (r * c) + (r * s) * (r * s);
      r * r * (c * c + s * s);
      r * r;
    }
  }

  // ---------------------------------------------------------------------------
  // make_fill

  /** Centre vertex appended by make_fill. */
  const ORIGIN: Vec2 := Vec2(0.0, 0.0)

  /** The first k fan triangles of an n-gon: triangle i is (i, (i + 1) mod n, n). */
  function FillIndices(n: nat, k: nat): seq<nat>
    requires k <= n
  {
    if k == 0 then []
    else
      var i := k - 1;
      FillIndices(n, i) + [i, (i + 1) % n, n]
  }

  lemma {:induction false} FillIndicesLength(n: nat, k: nat)
    requires k <= n
    ensures |FillIndices(n, k)| == 3 * k
  {
    if k > 0 {
      FillIndicesLength(n, k - 1);
    }
  }

  /** Triangle i of the fill joins boundary vertices i and i + 1 (cyclically) to the centre n. */
  lemma {:induction false} FillTriangleAt(n: nat, k: nat, i: nat)
    requires i < k <= n
    ensures |FillIndices(n, k)| == 3 * k
    ensures FillIndices(n, k)[3 * i] == i
    ensures FillIndices(n, k)[3 * i + 1] == (i + 1) % n
    ensures FillIndices(n, k)[3 * i + 2] == n
  {
    FillIndicesLength(n, k);
    FillIndicesLength(n, k - 1);
    if i < k - 1 {
      FillTriangleAt(n, k - 1, i);
    }
  }

  lemma {:induction false} FillIndicesBound(n: nat, k: nat)
    requires k <= n
    ensures Triangles(FillIndices(n, k), n + 1)
  {
    FillIndicesLength(n, k);
    if k > 0 {
      FillIndicesBound(n, k - 1);
      FillIndicesLength(n, k - 1);
    }
  }

  method MakeFill(vert: seq<Vec2>) returns (fill: VertexIndex)
    ensures fill.vertex == vert + [ORIGIN]
    ensures fill.index == FillIndices(|vert|, |vert|)
    ensures |fill.index| == 3 * |vert|
    ensures Triangles(fill.index, |fill.vertex|)
  {
    var fillVert := vert + [ORIGIN];
    var fillIdx: seq<nat> := [];
    for i := 0 to |vert|
      invariant fillIdx == FillIndices(|vert|, i)
    {
      var j := (i + 1) % |vert|;
      fillIdx := fillIdx + [i, j, |fillVert| - 1];
    }
    FillIndicesLength(|vert|, |vert|);
    FillIndicesBound(|vert|, |vert|);
    fill := VertexIndex(fillVert, fillIdx);
  }

  // ---------------------------------------------------------------------------
  // make_line, phase A: one quad per edge

  /** The vertex after i around the closed outline, (i + 1) mod n, written
      without the modulus so that proofs need no division. */
  function Next(n: nat, i: nat): nat
    requires i < n
  {
    if i + 1 < n then i + 1 else 0
  }

  lemma NextIsModulus(n: nat, i: nat)
    requires i < n
    ensures Next(n, i) == (i + 1) % n && Next(n, i) < n
  {
  }

  /** Edge i runs from vertex i to vertex (i + 1) mod N. */
  function Edge(vert: seq<Vec2>, i: nat): Vec2
    requires i < |vert|
  {
    Sub(vert[Next(|vert|, i)], vert[i])
  }

  /** Cross product of edge i with the edge after it. */
  function Turn(vert: seq<Vec2>, i: nat): real
    requires i < |vert|
  {
    Cross(Edge(vert, i), Edge(vert, Next(|vert|, i)))
  }

  /** Edge i has non-zero length (its direction can be normalised) and is not
      parallel to the edge after it (the miter determinant there is non-zero). */
  predicate ProperCorner(m: RealMath, vert: seq<Vec2>, i: nat)
    requires i < |vert|
  {
    Length(m, Edge(vert, i)) != 0.0 && Turn(vert, i) != 0.0
  }

  /** The outline can be built: every corner is proper. */
  predicate LineReady(m: RealMath, vert: seq<Vec2>)
  {
    forall i :: 0 <= i < |vert| ==> ProperCorner(m, vert, i)
  }

  lemma CornerFacts(m: RealMath, vert: seq<Vec2>, i: nat)
    requires LineReady(m, vert) && i < |vert|
    ensures Length(m, Edge(vert, i)) != 0.0 && Turn(vert, i) != 0.0
  {
    assert ProperCorner(m, vert, i);
  }

  /** With a lawful square root, a vector of non-zero squared norm has non-zero length. */
  lemma LengthNonZero(m: RealMath, v: Vec2)
    requires Lawful(m) && NormSq(v) != 0.0
    ensures Length(m, v) != 0.0
  {
    NormSqNonNegative(v);
  }

  /** v / glm::length(v). */
  function Direction(m: RealMath, v: Vec2): Vec2
    requires Length(m, v) != 0.0
  {
    Vec2(v.x / Length(m, v), v.y / Length(m, v))
  }

  /** The left-hand normal (-d.y, d.x). */
  function Normal(d: Vec2): Vec2 { Vec2(-d.y, d.x) }

  /** n * thickness * 0.5: edge i's normal scaled to half the ribbon width. */
  function HalfWidth(m: RealMath, vert: seq<Vec2>, t: real, i: nat): Vec2
    requires LineReady(m, vert) && i < |vert|
  {
    CornerFacts(m, vert, i);
    Scale(Scale(Normal(Direction(m, Edge(vert, i))), t), 0.5)
  }

  /** The two offset lines of an edge; on each, Start and End are the order in
      which make_line pushes the pair into `outer` or `inner`. */
  datatype Side = Inner | Outer

  function SideStart(m: RealMath, vert: seq<Vec2>, t: real, side: Side, i: nat): Vec2
    requires LineReady(m, vert) && i < |vert|
  {
    var h := HalfWidth(m, vert, t, i);
    if side == Outer then Add(vert[i], h) else Sub(vert[Next(|vert|, i)], h)
  }

  function SideEnd(m: RealMath, vert: seq<Vec2>, t: real, side: Side, i: nat): Vec2
    requires LineReady(m, vert) && i < |vert|
  {
    var h := HalfWidth(m, vert, t, i);
    if side == Outer then Add(vert[Next(|vert|, i)], h) else Sub(vert[i], h)
  }

  /** Quad of edge i: vert[i] + h, vert[j] + h, vert[j] - h, vert[i] - h. */
  function EdgeQuad(m: RealMath, vert: seq<Vec2>, t: real, i: nat): seq<Vec2>
    requires LineReady(m, vert) && i < |vert|
  {
    [SideStart(m, vert, t, Outer, i), SideEnd(m, vert, t, Outer, i),
     SideStart(m, vert, t, Inner, i), SideEnd(m, vert, t, Inner, i)]
  }

  function EdgePoints(m: RealMath, vert: seq<Vec2>, t: real, k: nat): seq<Vec2>
    requires LineReady(m, vert) && k <= |vert|
  {
    if k == 0 then [] else EdgePoints(m, vert, t, k - 1) + EdgeQuad(m, vert, t, k - 1)
  }

  /** The `outer` or `inner` list after k edges: two points per edge. */
  function SideList(m: RealMath, vert: seq<Vec2>, t: real, side: Side, k: nat): seq<Vec2>
    requires LineReady(m, vert) && k <= |vert|
  {
    if k == 0 then []
    else SideList(m, vert, t, side, k - 1) + [SideStart(m, vert, t, side, k - 1), SideEnd(m, vert, t, side, k - 1)]
  }

  lemma {:induction false} EdgePointsLength(m: RealMath, vert: seq<Vec2>, t: real, k: nat)
    requires LineReady(m, vert) && k <= |vert|
    ensures |EdgePoints(m, vert, t, k)| == 4 * k
  {
    if k > 0 {
      EdgePointsLength(m, vert, t, k - 1);
    }
  }

  lemma {:induction false} EdgePointsAt(m: RealMath, vert: seq<Vec2>, t: real, k: nat, i: nat, c: nat)
    requires LineReady(m, vert) && i < k <= |vert| && c < 4
    ensures |EdgePoints(m, vert, t, k)| == 4 * k
    ensures EdgePoints(m, vert, t, k)[4 * i + c] == EdgeQuad(m, vert, t, i)[c]
  {
    EdgePointsLength(m, vert, t, k);
    EdgePointsLength(m, vert, t, k - 1);
    if i < k - 1 {
      EdgePointsAt(m, vert, t, k - 1, i, c);
    }
  }

  lemma {:induction false} SideListAt(m: RealMath, vert: seq<Vec2>, t: real, side: Side, k: nat, i: nat)
    requires LineReady(m, vert) && i < k <= |vert|
    ensures |SideList(m, vert, t, side, k)| == 2 * k
    ensures SideList(m, vert, t, side, k)[2 * i] == SideStart(m, vert, t, side, i)
    ensures SideList(m, vert, t, side, k)[2 * i + 1] == SideEnd(m, vert, t, side, i)
  {
    if i < k - 1 {
      SideListAt(m, vert, t, side, k - 1, i);
    } else if k > 1 {
      SideListAt(m, vert, t, side, k - 1, 0);
    }
  }

  /** The direction normalised from a non-zero edge has unit length and is
      parallel to the edge; its normal is a unit vector perpendicular to it. */
  lemma DirectionIsUnit(m: RealMath, v: Vec2)
    requires Lawful(m) && Length(m, v) != 0.0
    ensures NormSq(Direction(m, v)) == 1.0
    ensures Cross(Direction(m, v), v) == 0.0
    ensures Dot(Normal(Direction(m, v)), Direction(m, v)) == 0.0
    ensures NormSq(Normal(Direction(m, v))) == 1.0
  {
    var s := NormSq(v);
    var len := Length(m, v);
    NormSqNonNegative(v);
    assert len != 0.0 && len * len == s;
    var d := Direction(m, v);
    assert d.x * len == v.x && d.y * len == v.y;
    calc {
      (d.x * d.x + d.y * d.y) * (len * len);
      (d.x * len) * (d.x * len) + (d.y * len) * (d.y * len);
      s;
      1.0 * (len * len);
    }
    assert d.x * v.y - d.y * v.x == d.x * (d.y * len) - d.y * (d.x * len);
  }

  /** Edge i's offset h is perpendicular to the edge and has length t / 2, so the
      quad of edge i is a ribbon of width t centred on the edge. */
  lemma HalfWidthGeometry(m: RealMath, vert: seq<Vec2>, t: real, i: nat)
    requires Lawful(m) && LineReady(m, vert) && i < |vert|
    ensures Dot(HalfWidth(m, vert, t, i), Edge(vert, i)) == 0.0
    ensures NormSq(HalfWidth(m, vert, t, i)) == t * t / 4.0
  {
    var e := Edge(vert, i);
    CornerFacts(m, vert, i);
    var d := Direction(m, e);
    DirectionIsUnit(m, e);
    var len := Length(m, e);
    assert d.x * len == e.x && d.y * len == e.y;
    HalfNormalGeometry(d, e, len, t);
  }

  /** A unit vector d along e = d * len, turned a quarter and scaled by t / 2, is
      perpendicular to e and t / 2 long. */
  lemma HalfNormalGeometry(d: Vec2, e: Vec2, len: real, t: real)
    requires NormSq(d) == 1.0 && d.x * len == e.x && d.y * len == e.y
    ensures Dot(Scale(Scale(Normal(d), t), 0.5), e) == 0.0
    ensures NormSq(Scale(Scale(Normal(d), t), 0.5)) == t * t / 4.0
  {
    var n := Normal(d);
    var h := Scale(Scale(n, t), 0.5);
    assert h == Vec2(n.x * t * 0.5, n.y * t * 0.5);
    calc {
      Dot(h, e);
      (n.x * t * 0.5) * (d.x * len) + (n.y * t * 0.5) * (d.y * len);
      (t * 0.5 * len) * (n.x * d.x + n.y * d.y);
      0.0;
    }
    calc {
      NormSq(h);
      (n.x * t * 0.5) * (n.x * t * 0.5) + (n.y * t * 0.5) * (n.y * t * 0.5);
      (t * t / 4.0) * (n.x * n.x + n.y * n.y);
      t * t / 4.0;
    }
  }

  // ---------------------------------------------------------------------------
  // make_line, phase B: miter quads at every corner

  /** Determinant of the 2x2 matrix [v0 | -v1] (for c0, b takes v0's place). */
  function Determinant(v0: Vec2, v1: Vec2): real
  {
    v0.x * (-v1.y) - (-v1.x * v0.y)
  }

  /** Intersection of line p0 p1 with line p2 p3 by Cramer's rule:
      t0 = c0 / det and pp = p0 + (p1 - p0) * t0. */
  function MiterPoint(p0: Vec2, p1: Vec2, p2: Vec2, p3: Vec2): Vec2
    requires Determinant(Sub(p1, p0), Sub(p3, p2)) != 0.0
  {
    var v0 := Sub(p1, p0);
    var v1 := Sub(p3, p2);
    var b := Sub(p2, p0);
    var det := Determinant(v0, v1);
    var c0 := Determinant(b, v1);
    var t0 := c0 / det;
    Add(p0, Scale(v0, t0))
  }

  /** The miter point lies on both lines (over the reals, when det is non-zero). */
  lemma MiterPointOnBothLines(p0: Vec2, p1: Vec2, p2: Vec2, p3: Vec2)
    requires Determinant(Sub(p1, p0), Sub(p3, p2)) != 0.0
    ensures Cross(Sub(MiterPoint(p0, p1, p2, p3), p0), Sub(p1, p0)) == 0.0
    ensures Cross(Sub(MiterPoint(p0, p1, p2, p3), p2), Sub(p3, p2)) == 0.0
  {
    var v0, v1, b := Sub(p1, p0), Sub(p3, p2), Sub(p2, p0);
    var det, c0 := Determinant(v0, v1), Determinant(b, v1);
    var t0 := c0 / det;
    assert t0 * det == c0;
    var pp := MiterPoint(p0, p1, p2, p3);
    assert Sub(pp, p0) == Vec2(v0.x * t0, v0.y * t0);
    assert (v0.x * t0) * v0.y - (v0.y * t0) * v0.x == 0.0;
    assert Sub(pp, p2) == Vec2(v0.x * t0 - b.x, v0.y * t0 - b.y);
    calc {
      (v0.x * t0 - b.x) * v1.y - (v0.y * t0 - b.y) * v1.x;
      t0 * (v0.x * v1.y - v0.y * v1.x) - (b.x * v1.y - b.y * v1.x);
      { assert v0.x * v1.y - v0.y * v1.x == -det; assert b.x * v1.y - b.y * v1.x == -c0; }
      c0 - t0 * det;
      0.0;
    }
  }

  /** On either side, the offset segment of an edge points along the edge (outer)
      or against it (inner). */
  lemma SideSegment(m: RealMath, vert: seq<Vec2>, t: real, side: Side, i: nat)
    requires LineReady(m, vert) && i < |vert|
    ensures Sub(SideEnd(m, vert, t, side, i), SideStart(m, vert, t, side, i))
            == if side == Outer then Edge(vert, i) else Scale(Edge(vert, i), -1.0)
  {
  }

  /** The determinant of every miter computation is -Cross(edge i, edge i + 1), non-zero. */
  lemma CornerDeterminant(m: RealMath, vert: seq<Vec2>, t: real, side: Side, i: nat)
    requires LineReady(m, vert) && i < |vert|
    ensures var j := Next(|vert|, i);
            Determinant(Sub(SideEnd(m, vert, t, side, i), SideStart(m, vert, t, side, i)),
                        Sub(SideEnd(m, vert, t, side, j), SideStart(m, vert, t, side, j)))
            == -Cross(Edge(vert, i), Edge(vert, j))
    ensures var j := Next(|vert|, i);
            Determinant(Sub(SideEnd(m, vert, t, side, i), SideStart(m, vert, t, side, i)),
                        Sub(SideEnd(m, vert, t, side, j), SideStart(m, vert, t, side, j))) != 0.0
  {
    var j := Next(|vert|, i);
    var u := Sub(SideEnd(m, vert, t, side, i), SideStart(m, vert, t, side, i));
    var w := Sub(SideEnd(m, vert, t, side, j), SideStart(m, vert, t, side, j));
    SideSegment(m, vert, t, side, i);
    SideSegment(m, vert, t, side, j);
    CornerFacts(m, vert, i);
    DeterminantOfEdges(Edge(vert, i), Edge(vert, j), side == Inner);
  }

  lemma DeterminantOfEdges(a: Vec2, b: Vec2, flip: bool)
    ensures var u, w := if flip then Scale(a, -1.0) else a, if flip then Scale(b, -1.0) else b;
            Determinant(u, w) == -Cross(a, b)
  {
  }

  /** make_line's second loop visits the inner list first, then the outer one. */
  function SideOf(s: nat): Side
  {
    if s == 0 then Inner else Outer
  }

  /** The lists `inner` and `outer` that the first loop leaves, in visiting order. */
  function SideLists(m: RealMath, vert: seq<Vec2>, t: real): seq<seq<Vec2>>
    requires LineReady(m, vert)
  {
    [SideList(m, vert, t, Inner, |vert|), SideList(m, vert, t, Outer, |vert|)]
  }

  /** At corner i, a side list holds two points per edge and the lines through
      p0 p1 and p2 p3 cross, so the miter point can be computed. */
  predicate MiterDefined(n: nat, pts: seq<Vec2>, i: nat)
  {
    i < n && |pts| == 2 * n &&
    var j := Next(n, i);
    Determinant(Sub(pts[2 * i + 1], pts[2 * i]), Sub(pts[2 * j + 1], pts[2 * j])) != 0.0
  }

  /** The miter quad at corner j = i + 1 on one side, read off that side's list the
      way make_line reads it (p0, p1, p2, p3 at 2i, 2i + 1, 2j, 2j + 1): the shared
      vertex, the intersection of the two offset lines, and p1 and p2. */
  function MiterQuad(vert: seq<Vec2>, pts: seq<Vec2>, i: nat): seq<Vec2>
    requires MiterDefined(|vert|, pts, i)
  {
    var j := Next(|vert|, i);
    var p0, p1, p2, p3 := pts[2 * i], pts[2 * i + 1], pts[2 * j], pts[2 * j + 1];
    [vert[j], MiterPoint(p0, p1, p2, p3), p1, p2]
  }

  /** The side lists read at corner i: p0 p1 is the offset segment of edge i and
      p2 p3 that of edge j, and their lines cross. */
  lemma SideListsAtCorner(m: RealMath, vert: seq<Vec2>, t: real, i: nat, s: nat)
    requires LineReady(m, vert) && i < |vert| && s < 2
    ensures |SideLists(m, vert, t)| == 2
    ensures var pts, side, j := SideLists(m, vert, t)[s], SideOf(s), Next(|vert|, i);
            && MiterDefined(|vert|, pts, i)
            && pts[2 * i] == SideStart(m, vert, t, side, i)
            && pts[2 * i + 1] == SideEnd(m, vert, t, side, i)
            && pts[2 * j] == SideStart(m, vert, t, side, j)
            && pts[2 * j + 1] == SideEnd(m, vert, t, side, j)
  {
    var side, j := SideOf(s), Next(|vert|, i);
    SideListAt(m, vert, t, side, |vert|, i);
    SideListAt(m, vert, t, side, |vert|, j);
    CornerDeterminant(m, vert, t, side, i);
  }

  /** Every corner's miter point can be computed from every side list. */
  predicate MitersDefined(n: nat, sides: seq<seq<Vec2>>)
  {
    forall i, q :: 0 <= i < n && 0 <= q < |sides| ==> MiterDefined(n, sides[q], i)
  }

  lemma SideListsMitersDefined(m: RealMath, vert: seq<Vec2>, t: real)
    requires LineReady(m, vert)
    ensures |SideLists(m, vert, t)| == 2
    ensures MitersDefined(|vert|, SideLists(m, vert, t))
  {
    forall i, q | 0 <= i < |vert| && 0 <= q < 2
      ensures MiterDefined(|vert|, SideLists(m, vert, t)[q], i)
    {
      SideListsAtCorner(m, vert, t, i, q);
    }
  }

  /** Loop position of make_line's second loop: corner i, side list s next. */
  predicate MiterProgress(n: nat, i: nat, s: nat)
  {
    s <= 2 && (i < n || (i == n && s == 0))
  }

  /** The miter quads appended before position (i, s), in the order make_line
      appends them: every side list of corners 0 .. i - 1, then the first s side
      lists of corner i. */
  function MiterPoints(vert: seq<Vec2>, sides: seq<seq<Vec2>>, i: nat, s: nat): seq<Vec2>
    requires MiterProgress(|vert|, i, s) && |sides| == 2 && MitersDefined(|vert|, sides)
    decreases i, s
  {
    if s > 0 then MiterPoints(vert, sides, i, s - 1) + MiterQuad(vert, sides[s - 1], i)
    else if i == 0 then []
    else MiterPoints(vert, sides, i - 1, 2)
  }

  lemma {:induction false} MiterPointsLength(vert: seq<Vec2>, sides: seq<seq<Vec2>>, i: nat, s: nat)
    requires MiterProgress(|vert|, i, s) && |sides| == 2 && MitersDefined(|vert|, sides)
    ensures |MiterPoints(vert, sides, i, s)| == 8 * i + 4 * s
    decreases i, s
  {
    if s > 0 {
      MiterPointsLength(vert, sides, i, s - 1);
    } else if i > 0 {
      MiterPointsLength(vert, sides, i - 1, 2);
    }
  }

  /** Quad c of side s at corner i sits at 8i + 4s + c once position (i, s) is passed. */
  lemma {:induction false} MiterPointsAt(vert: seq<Vec2>, sides: seq<seq<Vec2>>, k: nat, t: nat,
                                         i: nat, s: nat, c: nat)
    requires MiterProgress(|vert|, k, t) && |sides| == 2 && MitersDefined(|vert|, sides)
    requires s < 2 && c < 4 && (i < k || (i == k && s < t))
    ensures |MiterPoints(vert, sides, k, t)| == 8 * k + 4 * t
    ensures MiterPoints(vert, sides, k, t)[8 * i + 4 * s + c] == MiterQuad(vert, sides[s], i)[c]
    decreases k, t
  {
    MiterPointsLength(vert, sides, k, t);
    if t > 0 {
      MiterPointsLength(vert, sides, k, t - 1);
      var prev, last := MiterPoints(vert, sides, k, t - 1), MiterQuad(vert, sides[t - 1], k);
      AppendAt(prev, last, 8 * i + 4 * s + c);
      if i < k || s < t - 1 {
        MiterPointsAt(vert, sides, k, t - 1, i, s, c);
      }
    } else {
      MiterPointsAt(vert, sides, k - 1, 2, i, s, c);
    }
  }

  /** Every point of the ribbon: 4N edge-quad points, then 8N miter-quad points. */
  function LinePoints(m: RealMath, vert: seq<Vec2>, t: real): seq<Vec2>
    requires LineReady(m, vert)
  {
    SideListsMitersDefined(m, vert, t);
    EdgePoints(m, vert, t, |vert|) + MiterPoints(vert, SideLists(m, vert, t), |vert|, 0)
  }

  /** Miter quads fan from the shared vertex: (0, 1, 2) and (0, 1, 3). */
  const MITER: seq<nat> := [0, 1, 2, 0, 1, 3]

  /** The 6N edge-quad indices, then the 12N miter-quad indices, which start at
      vertex 4N. */
  function LineIndices(n: nat): seq<nat>
  {
    QuadIndices(QUAD, 0, n) + QuadIndices(MITER, 4 * n, 2 * n)
  }

  lemma LineIndexBound(n: nat, p: nat)
    requires p < 18 * n
    ensures |LineIndices(n)| == 18 * n && LineIndices(n)[p] < 12 * n
  {
    QuadIndicesLength(QUAD, 0, n);
    QuadIndicesLength(MITER, 4 * n, 2 * n);
    AppendAt(QuadIndices(QUAD, 0, n), QuadIndices(MITER, 4 * n, 2 * n), p);
    if p < 6 * n {
      QuadIndicesRange(QUAD, 0, n, p);
    } else {
      QuadIndicesRange(MITER, 4 * n, 2 * n, p - 6 * n);
    }
  }

  /** The 18n indices of an n-vertex ribbon form triangles over its 12n points. */
  lemma LineIndicesBound(n: nat)
    ensures |LineIndices(n)| == 18 * n
    ensures Triangles(LineIndices(n), 12 * n)
  {
    QuadIndicesLength(QUAD, 0, n);
    QuadIndicesLength(MITER, 4 * n, 2 * n);
    forall p | 0 <= p < 18 * n
      ensures LineIndices(n)[p] < 12 * n
    {
      LineIndexBound(n, p);
    }
  }

  lemma LinePointsLength(m: RealMath, vert: seq<Vec2>, t: real)
    requires LineReady(m, vert)
    ensures |LinePoints(m, vert, t)| == 12 * |vert|
  {
    EdgePointsLength(m, vert, t, |vert|);
    SideListsMitersDefined(m, vert, t);
    MiterPointsLength(vert, SideLists(m, vert, t), |vert|, 0);
  }

  /** 12N points and 18N indices, grouped in triangles that stay inside the points. */
  lemma LineMeshShape(m: RealMath, vert: seq<Vec2>, t: real)
    requires LineReady(m, vert)
    ensures |LinePoints(m, vert, t)| == 12 * |vert|
    ensures |LineIndices(|vert|)| == 18 * |vert|
    ensures Triangles(LineIndices(|vert|), |LinePoints(m, vert, t)|)
  {
    LinePointsLength(m, vert, t);
    LineIndicesBound(|vert|);
  }

  /** Edge i's points are 4i .. 4i + 3 of the ribbon and its indices are
      6i .. 6i + 5, with the pattern 4i + {0, 1, 2, 0, 2, 3}. */
  lemma LineEdgeQuad(m: RealMath, vert: seq<Vec2>, t: real, i: nat, c: nat)
    requires LineReady(m, vert) && i < |vert| && c < 6
    ensures |LinePoints(m, vert, t)| == 12 * |vert| && |LineIndices(|vert|)| == 18 * |vert|
    ensures var h, j := HalfWidth(m, vert, t, i), Next(|vert|, i);
            var pts := LinePoints(m, vert, t);
            && pts[4 * i] == Add(vert[i], h)
            && pts[4 * i + 1] == Add(vert[j], h)
            && pts[4 * i + 2] == Sub(vert[j], h)
            && pts[4 * i + 3] == Sub(vert[i], h)
    ensures LineIndices(|vert|)[6 * i + c] == 4 * i + QUAD[c]
  {
    var n := |vert|;
    LineMeshShape(m, vert, t);
    EdgePointsLength(m, vert, t, n);
    EdgePointsAt(m, vert, t, n, i, 0);
    EdgePointsAt(m, vert, t, n, i, 1);
    EdgePointsAt(m, vert, t, n, i, 2);
    EdgePointsAt(m, vert, t, n, i, 3);
    QuadIndicesAt(QUAD, 0, n, i, c);
  }

  /** Point c of the miter quad of corner i + 1 on side s sits after the 4N edge
      points and the eight points of each earlier corner. */
  lemma LineMiterPointAt(m: RealMath, vert: seq<Vec2>, t: real, s: nat, i: nat, c: nat)
    requires LineReady(m, vert) && i < |vert| && s < 2 && c < 4
    ensures |LinePoints(m, vert, t)| == 12 * |vert|
    ensures |SideLists(m, vert, t)| == 2 && MitersDefined(|vert|, SideLists(m, vert, t))
    ensures LinePoints(m, vert, t)[4 * |vert| + 8 * i + 4 * s + c]
            == MiterQuad(vert, SideLists(m, vert, t)[s], i)[c]
  {
    var n, sides := |vert|, SideLists(m, vert, t);
    SideListsMitersDefined(m, vert, t);
    LinePointsLength(m, vert, t);
    EdgePointsLength(m, vert, t, n);
    MiterPointsAt(vert, sides, n, 0, i, s, c);
    var e, mp := EdgePoints(m, vert, t, n), MiterPoints(vert, sides, n, 0);
    assert LinePoints(m, vert, t) == e + mp;
    assert (e + mp)[4 * n + 8 * i + 4 * s + c] == mp[8 * i + 4 * s + c];
  }

  /** Index c of that quad's six is base + {0, 1, 2, 0, 1, 3}[c], after the 6N
      indices of the edge quads. */
  lemma LineMiterIndexAt(n: nat, s: nat, i: nat, c: nat)
    requires i < n && s < 2 && c < 6
    ensures |LineIndices(n)| == 18 * n
    ensures LineIndices(n)[6 * n + 12 * i + 6 * s + c] == 4 * n + 8 * i + 4 * s + MITER[c]
  {
    LineIndicesBound(n);
    QuadIndicesLength(QUAD, 0, n);
    QuadIndicesAt(MITER, 4 * n, 2 * n, 2 * i + s, c);
    AppendAt(QuadIndices(QUAD, 0, n), QuadIndices(MITER, 4 * n, 2 * n), 6 * n + 12 * i + 6 * s + c);
  }

  /** The second point of a miter quad lies on the line through p0 p1 and on the
      line through p2 p3 of the side list it was read from. */
  lemma MiterQuadOnLines(vert: seq<Vec2>, pts: seq<Vec2>, i: nat)
    requires MiterDefined(|vert|, pts, i)
    ensures var j, quad := Next(|vert|, i), MiterQuad(vert, pts, i);
            && Cross(Sub(quad[1], pts[2 * i]), Sub(pts[2 * i + 1], pts[2 * i])) == 0.0
            && Cross(Sub(quad[1], pts[2 * j]), Sub(pts[2 * j + 1], pts[2 * j])) == 0.0
  {
    var j := Next(|vert|, i);
    MiterPointOnBothLines(pts[2 * i], pts[2 * i + 1], pts[2 * j], pts[2 * j + 1]);
  }

  /** The miter quad of corner j = i + 1 on side s (0 inner, 1 outer) is the four
      points (vert[j], pp, p1, p2) right after the edge quads and the earlier
      corners, indexed base + {0, 1, 2, 0, 1, 3}; pp lies on both of that side's
      offset lines, the one through p0 p1 (edge i) and the one through p2 p3 (edge j). */
  lemma LineMiterQuad(m: RealMath, vert: seq<Vec2>, t: real, s: nat, i: nat, c: nat)
    requires LineReady(m, vert) && i < |vert| && s < 2 && c < 6
    ensures |LinePoints(m, vert, t)| == 12 * |vert| && |LineIndices(|vert|)| == 18 * |vert|
    ensures var n, side := |vert|, SideOf(s);
            var j := Next(n, i);
            var base := 4 * n + 8 * i + 4 * s;
            var pts := LinePoints(m, vert, t);
            var p0, p1 := SideStart(m, vert, t, side, i), SideEnd(m, vert, t, side, i);
            var p2, p3 := SideStart(m, vert, t, side, j), SideEnd(m, vert, t, side, j);
            && pts[base] == vert[j]
            && pts[base + 2] == p1
            && pts[base + 3] == p2
            && Cross(Sub(pts[base + 1], p0), Sub(p1, p0)) == 0.0
            && Cross(Sub(pts[base + 1], p2), Sub(p3, p2)) == 0.0
            && LineIndices(n)[6 * n + 12 * i + 6 * s + c] == base + MITER[c]
  {
    var n, side := |vert|, SideOf(s);
    var j := Next(n, i);
    LineMiterPointAt(m, vert, t, s, i, 0);
    LineMiterPointAt(m, vert, t, s, i, 1);
    LineMiterPointAt(m, vert, t, s, i, 2);
    LineMiterPointAt(m, vert, t, s, i, 3);
    LineMiterIndexAt(n, s, i, c);
    SideListsAtCorner(m, vert, t, i, s);
    MiterQuadOnLines(vert, SideLists(m, vert, t)[s], i);
  }

  /** make_line: the edge quads, then the miter quads, as one indexed mesh. */
  method MakeLine(m: RealMath, vert: seq<Vec2>, thickness: real) returns (line: VertexIndex)
    requires LineReady(m, vert)
    ensures line.vertex == LinePoints(m, vert, thickness)
    ensures line.index == LineIndices(|vert|)
    ensures |line.vertex| == 12 * |vert| && |line.index| == 18 * |vert|
    ensures Triangles(line.index, |line.vertex|)
  {
    var triPts, triIdx, inner, outer := EdgeQuads(m, vert, thickness);
    SideListsMitersDefined(m, vert, thickness);
    triPts, triIdx := MiterQuads(vert, triPts, triIdx, inner, outer);
    line := VertexIndex(triPts, triIdx);
    LineMeshShape(m, vert, thickness);
  }

  /** make_line's first loop: one quad per edge, and the offset points of every
      edge collected in `outer` and `inner`. */
  method EdgeQuads(m: RealMath, vert: seq<Vec2>, thickness: real)
    returns (triPts: seq<Vec2>, triIdx: seq<nat>, inner: seq<Vec2>, outer: seq<Vec2>)
    requires LineReady(m, vert)
    ensures triPts == EdgePoints(m, vert, thickness, |vert|) && |triPts| == 4 * |vert|
    ensures triIdx == QuadIndices(QUAD, 0, |vert|)
    ensures inner == SideList(m, vert, thickness, Inner, |vert|)
    ensures outer == SideList(m, vert, thickness, Outer, |vert|)
  {
    var n := |vert|;
    triPts, triIdx := [], [];
    inner, outer := [], [];
    for i := 0 to n
      invariant triPts == EdgePoints(m, vert, thickness, i) && |triPts| == 4 * i
      invariant triIdx == QuadIndices(QUAD, 0, i)
      invariant inner == SideList(m, vert, thickness, Inner, i)
      invariant outer == SideList(m, vert, thickness, Outer, i)
    {
      var j := (i + 1) % n;
      NextIsModulus(n, i);
      CornerFacts(m, vert, i);
      var v := Direction(m, Sub(vert[j], vert[i]));
      var nrm := Normal(v);
      var h := Scale(Scale(nrm, thickness), 0.5);
      assert h == HalfWidth(m, vert, thickness, i);

      var idx := |triPts|;
      triIdx := triIdx + Shift(QUAD, idx);
      triPts := triPts + [Add(vert[i], h), Add(vert[j], h), Sub(vert[j], h), Sub(vert[i], h)];

      outer := outer + [Add(vert[i], h), Add(vert[j], h)];
      inner := inner + [Sub(vert[j], h), Sub(vert[i], h)];
    }
  }

  /** make_line's second loop: at every corner, for `inner` then `outer`, the
      miter point and its quad are appended. */
  method MiterQuads(vert: seq<Vec2>, edgePts: seq<Vec2>, edgeIdx: seq<nat>, inner: seq<Vec2>, outer: seq<Vec2>)
    returns (triPts: seq<Vec2>, triIdx: seq<nat>)
    requires MitersDefined(|vert|, [inner, outer]) && |edgePts| == 4 * |vert|
    ensures triPts == edgePts + MiterPoints(vert, [inner, outer], |vert|, 0)
    ensures triIdx == edgeIdx + QuadIndices(MITER, 4 * |vert|, 2 * |vert|)
  {
    var n := |vert|;
    var sides := [inner, outer];
    triPts, triIdx := edgePts, edgeIdx;
    MiterQuadsStart(vert, sides, edgePts, edgeIdx);
    for i := 0 to n
      invariant MiterLoop(vert, sides, edgePts, edgeIdx, i, 0, triPts, triIdx)
    {
      for s := 0 to 2
        invariant MiterLoop(vert, sides, edgePts, edgeIdx, i, s, triPts, triIdx)
      {
        ghost var oldPts, oldIdx := triPts, triIdx;
        triPts, triIdx := AppendMiterQuad(vert, sides[s], i, triPts, triIdx);
        MiterQuadsStep(vert, sides, edgePts, edgeIdx, i, s, oldPts, oldIdx, triPts, triIdx);
      }
      MiterQuadsCorner(vert, sides, edgePts, edgeIdx, i, triPts, triIdx);
    }
  }

  /** The invariant of make_line's second loop at position (i, s): what has been
      appended after the edge quads is exactly the miter quads before (i, s) and
      their indices. */
  predicate MiterLoop(vert: seq<Vec2>, sides: seq<seq<Vec2>>, edgePts: seq<Vec2>, edgeIdx: seq<nat>,
                      i: nat, s: nat, triPts: seq<Vec2>, triIdx: seq<nat>)
  {
    && MiterProgress(|vert|, i, s) && |sides| == 2 && MitersDefined(|vert|, sides)
    && |edgePts| == 4 * |vert|
    && triPts == edgePts + MiterPoints(vert, sides, i, s)
    && triIdx == edgeIdx + QuadIndices(MITER, 4 * |vert|, 2 * i + s)
  }

  lemma MiterQuadsStart(vert: seq<Vec2>, sides: seq<seq<Vec2>>, edgePts: seq<Vec2>, edgeIdx: seq<nat>)
    requires |sides| == 2 && MitersDefined(|vert|, sides) && |edgePts| == 4 * |vert|
    ensures MiterLoop(vert, sides, edgePts, edgeIdx, 0, 0, edgePts, edgeIdx)
  {
    AppendEmpty(edgePts);
    AppendEmpty(edgeIdx);
  }

  /** The inner loop's invariant survives appending side s of corner i. */
  lemma MiterQuadsStep(vert: seq<Vec2>, sides: seq<seq<Vec2>>, edgePts: seq<Vec2>, edgeIdx: seq<nat>,
                       i: nat, s: nat, triPts: seq<Vec2>, triIdx: seq<nat>, newPts: seq<Vec2>, newIdx: seq<nat>)
    requires MiterLoop(vert, sides, edgePts, edgeIdx, i, s, triPts, triIdx) && i < |vert| && s < 2
    requires newPts == triPts + MiterQuad(vert, sides[s], i)
    requires newIdx == triIdx + Shift(MITER, |triPts|)
    ensures MiterLoop(vert, sides, edgePts, edgeIdx, i, s + 1, newPts, newIdx)
  {
    MiterPointsLength(vert, sides, i, s);
    QuadIndicesSnoc(MITER, 4 * |vert|, 2 * i + s, 2 * i + (s + 1), |triPts|);
    AppendAssoc(edgePts, MiterPoints(vert, sides, i, s), MiterQuad(vert, sides[s], i));
    AppendAssoc(edgeIdx, QuadIndices(MITER, 4 * |vert|, 2 * i + s), Shift(MITER, |triPts|));
  }

  /** After both side lists of corner i, the outer loop's invariant holds for i + 1. */
  lemma MiterQuadsCorner(vert: seq<Vec2>, sides: seq<seq<Vec2>>, edgePts: seq<Vec2>, edgeIdx: seq<nat>,
                         i: nat, triPts: seq<Vec2>, triIdx: seq<nat>)
    requires MiterLoop(vert, sides, edgePts, edgeIdx, i, 2, triPts, triIdx)
    ensures MiterLoop(vert, sides, edgePts, edgeIdx, i + 1, 0, triPts, triIdx)
  {
    assert 2 * i + 2 == 2 * (i + 1);
  }

  /** One pass of make_line's innermost loop: corner j = i + 1 on one side list,
      p0 p1 and p2 p3 read at 2i and 2j, and the miter quad (vert[j], pp, p1, p2)
      appended with its six indices. */
  method AppendMiterQuad(vert: seq<Vec2>, pts: seq<Vec2>, i: nat, triPts: seq<Vec2>, triIdx: seq<nat>)
    returns (newPts: seq<Vec2>, newIdx: seq<nat>)
    requires MiterDefined(|vert|, pts, i)
    ensures newPts == triPts + MiterQuad(vert, pts, i)
    ensures newIdx == triIdx + Shift(MITER, |triPts|)
  {
    var j := (i + 1) % |vert|;
    NextIsModulus(|vert|, i);
    var p0 := pts[i * 2];
    var p1 := pts[i * 2 + 1];
    var p2 := pts[j * 2];
    var p3 := pts[j * 2 + 1];
    var pp := MiterPoint(p0, p1, p2, p3);

    var idx := |triPts|;
    newIdx := triIdx + Shift(MITER, idx);
    newPts := triPts + [vert[j], pp, p1, p2];
  }

  // ---------------------------------------------------------------------------
  // Normalised units <-> screen pixels

  /** The shape shader's uniforms that place normalised units on the screen. */
  datatype ShapeShader = ShapeShader(screenScale: real, drawingAreaOffset: Vec2)

  function NormalizePosToScreenPos(shader: ShapeShader, pos: Vec2): Vec2
  {
    Add(shader.drawingAreaOffset, Scale(pos, shader.screenScale))
  }

  function ScreenPosToNormalizePos(shader: ShapeShader, pos: Vec2): Vec2
    requires shader.screenScale != 0.0
  {
    var d := Sub(pos, shader.drawingAreaOffset);
    Vec2(d.x / shader.screenScale, d.y / shader.screenScale)
  }

  /** The two conversions are inverse to each other whenever the scale is non-zero. */
  lemma ScreenPosRoundTrip(shader: ShapeShader, pos: Vec2)
    requires shader.screenScale != 0.0
    ensures ScreenPosToNormalizePos(shader, NormalizePosToScreenPos(shader, pos)) == pos
    ensures NormalizePosToScreenPos(shader, ScreenPosToNormalizePos(shader, pos)) == pos
  {
    var s := shader.screenScale;
    assert (pos.x * s) / s == pos.x && (pos.y * s) / s == pos.y;
  }
}
