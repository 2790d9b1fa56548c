/** The older, single-file version of the game (the root main.cpp): its
    polygon builder with a starting angle, shape creation, the seven-shape
    set, and the game state driven by the mouse.  Its make_fill and make_line
    are the ones of src/geometry.cpp (the same loops over the same indices)
    and are used from Geometry. */
module Legacy {
  import opened Wrappers
  import opened Vectors
  import opened Meshes
  import opened Geometry
  import opened Permutations
  import Game

  const NUM_SHAPES: nat := 5
  const LINE_COLOR: Vec4 := Vec4(1.0, 1.0, 1.0, 1.0)
  const FILL_COLOR: Vec4 := Vec4(0.2, 0.8, 0.2, 1.0)
  const LINE_THICKNESS: real := 0.1
  const ASPECT_RATIO: real := 4.0 / 3.0

  // ---------------------------------------------------------------------------
  // make_polygon with a starting angle

  /** Vertex i: radius[i mod |radius|] at angle i * 2 * M_PI / sides + thetaOffset. */
  function OffsetVertex(m: RealMath, sides: int, radius: seq<real>, thetaOffset: real, i: nat): Vec2
    requires sides > 0 && |radius| > 0
  {
    var theta := Theta(sides, i) + thetaOffset;
    var r := radius[i % |radius|];
    Vec2(r * m.cos(theta), r * m.sin(theta))
  }

  function OffsetPolygon(m: RealMath, sides: int, radius: seq<real>, thetaOffset: real): seq<Vec2>
    requires sides > 0 ==> |radius| > 0
  {
    if sides <= 0 then []
    else seq(sides, i requires 0 <= i < sides => OffsetVertex(m, sides, radius, thetaOffset, i))
  }

  /** make_polygon(sides, radius, theta_offset): `sides` vertices (none for a
      non-positive count), the polygon of src/geometry.cpp when the offset is 0. */
  method MakePolygon(m: RealMath, sides: int, radius: seq<real>, thetaOffset: real) returns (vert: seq<Vec2>)
    requires sides > 0 ==> |radius| > 0
    ensures |vert| == if sides > 0 then sides else 0
    ensures vert == OffsetPolygon(m, sides, radius, thetaOffset)
    ensures thetaOffset == 0.0 ==> vert == Polygon(m, sides, radius)
  {
    vert := [];
    var i := 0;
    while i < sides
      invariant 0 <= i <= if sides > 0 then sides else 0
      invariant |vert| == i
      invariant forall k :: 0 <= k < i ==> vert[k] == OffsetVertex(m, sides, radius, thetaOffset, k)
    {
      var theta := Theta(sides, i) + thetaOffset;
      var r := radius[i % |radius|];
      var x := r * m.cos(theta);
      var y := r * m.sin(theta);
      vert := vert + [Vec2(x, y)];
      i := i + 1;
    }
    if thetaOffset == 0.0 && sides > 0 {
      assert forall k :: 0 <= k < sides ==> vert[k] == PolygonVertex(m, sides, radius, k);
    }
  }

  /** Turning the polygon does not move its vertices off their circles. */
  lemma OffsetVertexOnCircle(m: RealMath, sides: int, radius: seq<real>, thetaOffset: real, i: nat)
    requires Lawful(m) && sides > 0 && |radius| > 0 && i < sides
    ensures |OffsetPolygon(m, sides, radius, thetaOffset)| == sides
    ensures var r := radius[i % |radius|];
            NormSq(OffsetPolygon(m, sides, radius, thetaOffset)[i]) == r * r
  {
    var theta, r := Theta(sides, i) + thetaOffset, radius[i % |radius|];
    var c, s := m.cos(theta), m.sin(theta);
    assert c * c + s * s == 1.0;
    calc {
      (r * c) * (r * c) + (r * s) * (r * s);
      r * r * (c * c + s * s);
      r * r;
    }
  }

  // ---------------------------------------------------------------------------
  // GLPrimitive, create_shape, create_shape_set

  /** A drawable: what it draws is kept only as its index count; colour,
      translation and scale are the uniforms it is drawn with. */
  datatype GLPrimitive = GLPrimitive(indexCount: nat, color: Vec4, trans: Vec2, scale: real)

  /** make_gl_primitive: every index is drawn, at the origin, at scale 1. */
  function MakeGLPrimitive(vi: VertexIndex, color: Vec4): (p: GLPrimitive)
    ensures p.indexCount == |vi.index| && p.color == color && p.trans == ORIGIN && p.scale == 1.0
    ensures Triangles(vi.index, |vi.vertex|) ==> p.indexCount % 3 == 0
  {
    GLPrimitive(|vi.index|, color, ORIGIN, 1.0)
  }

  /** The fields of Shape that create_shape sets; sides, center and
      line_thickness are never written and never read. */
  datatype LegacyShape = LegacyShape(radius: real, line: GLPrimitive, fill: GLPrimitive)

  /** *std::max_element: the largest entry (compared with <, the first of equals). */
  function MaxElement(s: seq<real>): (r: real)
    requires |s| > 0
    ensures forall k :: 0 <= k < |s| ==> s[k] <= r
    ensures exists k :: 0 <= k < |s| && s[k] == r
  {
    if |s| == 1 then s[0]
    else
      var front := s[..|s| - 1];
      var best := MaxElement(front);
      assert forall k :: 0 <= k < |front| ==> s[k] == front[k];
      if best < s[|s| - 1] then s[|s| - 1] else best
  }

  /** The shape create_shape makes from a `sides`-gon: bounding radius, an
      outline of 18 indices per vertex and a fan fill of 3 per vertex. */
  function CreatedShape(sides: int, radius: seq<real>, lineColor: Vec4, fillColor: Vec4): LegacyShape
    requires |radius| > 0
  {
    var n := if sides > 0 then sides else 0;
    LegacyShape(MaxElement(radius), GLPrimitive(18 * n, lineColor, ORIGIN, 1.0), GLPrimitive(3 * n, fillColor, ORIGIN, 1.0))
  }

  /** create_shape: max_element dereferences its result, so the radius list
      must not be empty; the outline needs proper corners. */
  method CreateShape(m: RealMath, sides: int, radius: seq<real>, lineThickness: real,
                     lineColor: Vec4, fillColor: Vec4, thetaOffset: real) returns (shape: LegacyShape)
    requires |radius| > 0
    requires LineReady(m, OffsetPolygon(m, sides, radius, thetaOffset))
    ensures shape == CreatedShape(sides, radius, lineColor, fillColor)
    ensures forall k :: 0 <= k < |radius| ==> radius[k] <= shape.radius
    ensures shape.line.indexCount == 6 * shape.fill.indexCount
  {
    var r := MaxElement(radius);
    var vert := MakePolygon(m, sides, radius, thetaOffset);
    var fill := MakeFill(vert);
    var line := MakeLine(m, vert, lineThickness);
    shape := LegacyShape(r, MakeGLPrimitive(line, lineColor), MakeGLPrimitive(fill, fillColor));
  }

  /** The side count of shape k of the set: 3, 4, 5, 6, a 36-gon circle, a
      10-point star and a rhombus. */
  function SetSides(k: nat): int
  {
    if k < 4 then 3 + k else if k == 4 then 36 else if k == 5 then 10 else 4
  }

  /** The radius list of shape k: one radius, or 1 and 0.5 alternating. */
  function SetRadius(k: nat): (r: seq<real>)
    ensures |r| > 0
  {
    if k < 5 then [1.0] else [1.0, 0.5]
  }

  /** The starting angle of shape k: the circle has none, the others take
      the dice values in the order they are drawn. */
  function SetOffset(dice: seq<real>, k: nat): real
    requires |dice| == 6 && k < 7
  {
    if k < 4 then dice[k] else if k == 4 then 0.0 else dice[k - 1]
  }

  function SetOutline(m: RealMath, dice: seq<real>, k: nat): seq<Vec2>
    requires |dice| == 6 && k < 7
  {
    OffsetPolygon(m, SetSides(k), SetRadius(k), SetOffset(dice, k))
  }

  predicate OutlineReady(m: RealMath, dice: seq<real>, k: nat)
    requires |dice| == 6 && k < 7
  {
    LineReady(m, SetOutline(m, dice, k))
  }

  /** Every outline of the set has proper corners. */
  predicate SetReady(m: RealMath, dice: seq<real>)
    requires |dice| == 6
  {
    forall k :: 0 <= k < 7 ==> OutlineReady(m, dice, k)
  }

  /** The set create_shape_set returns, in order. */
  function ShapeSet(): (r: seq<LegacyShape>)
    ensures |r| == 7 && NUM_SHAPES <= |r|
    ensures forall k :: 0 <= k < 7 ==> r[k].radius == 1.0
    ensures forall k :: 0 <= k < 7 ==> r[k].fill.indexCount == 3 * SetSides(k) && r[k].line.indexCount == 18 * SetSides(k)
  {
    seq(7, k requires 0 <= k < 7 => CreatedShape(SetSides(k), SetRadius(k), LINE_COLOR, FILL_COLOR))
  }

  /** create_shape_set: the seven shapes in their fixed order; the six random
      starting angles are `dice`. */
  method CreateShapeSet(m: RealMath, dice: seq<real>) returns (ret: seq<LegacyShape>)
    requires |dice| == 6 && SetReady(m, dice)
    ensures ret == ShapeSet()
  {
    ret := [];
    for sides := 3 to 7
      invariant |ret| == sides - 3
      invariant forall k :: 0 <= k < |ret| ==> ret[k] == ShapeSet()[k]
    {
      assert OutlineReady(m, dice, sides - 3);
      var s := CreateShape(m, sides, [1.0], LINE_THICKNESS, LINE_COLOR, FILL_COLOR, dice[sides - 3]);
      ret := ret + [s];
    }
    assert OutlineReady(m, dice, 4);
    var circle := CreateShape(m, 36, [1.0], LINE_THICKNESS, LINE_COLOR, FILL_COLOR, 0.0);
    ret := ret + [circle];
    assert OutlineReady(m, dice, 5);
    var star := CreateShape(m, 10, [1.0, 0.5], LINE_THICKNESS, LINE_COLOR, FILL_COLOR, dice[4]);
    ret := ret + [star];
    assert OutlineReady(m, dice, 6);
    var rhombus := CreateShape(m, 4, [1.0, 0.5], LINE_THICKNESS, LINE_COLOR, FILL_COLOR, dice[5]);
    ret := ret + [rhombus];
  }

  /** A shape after update_gl_primitives: outline and fill drawn at `scale`. */
  function Scaled(s: LegacyShape, scale: real): (r: LegacyShape)
    ensures r.line.scale == scale && r.fill.scale == scale
    ensures r.(line := s.line, fill := s.fill) == s
    ensures r.line.(scale := s.line.scale) == s.line && r.fill.(scale := s.fill.scale) == s.fill
  {
    s.(line := s.line.(scale := scale), fill := s.fill.(scale := scale))
  }

  /** Rescaling forgets the scale before: only the last one drawn counts. */
  lemma ScaledLast(s: LegacyShape, a: real, b: real)
    ensures Scaled(Scaled(s, a), b) == Scaled(s, b)
  {
  }

  /** The drawing area in window pixels: offset and size. */
  datatype Area = Area(xoff: real, yoff: real, w: real, h: real)

  /** recalc_drawing_area's placement: a 4:3 area centred in the window, as
      high as the window when the window is wider than high, and as wide as
      it otherwise. */
  function LetterBox(winW: int, winH: int): (a: Area)
    ensures a.w == a.h * ASPECT_RATIO
    ensures 2.0 * a.xoff + a.w == winW as real && 2.0 * a.yoff + a.h == winH as real
    ensures if winW > winH then a.h == winH as real else a.w == winW as real
  {
    if winW > winH then
      var w := winH as real * ASPECT_RATIO;
      Area((winW as real - w) / 2.0, 0.0, w, winH as real)
    else
      var h := winW as real / ASPECT_RATIO;
      Area(0.0, (winH as real - h) / 2.0, winW as real, h)
  }

  /** The area lies inside the window exactly when the window is at most as
      wide as high or at least 4:3.  A window wider than high but narrower
      than 4:3 (1000 by 900, say) gets an area wider than itself, whose sides
      lie outside it. */
  lemma LetterBoxInside(winW: nat, winH: nat)
    ensures var a := LetterBox(winW, winH);
            (0.0 <= a.xoff && 0.0 <= a.yoff) <==> (winW <= winH || 3 * winW >= 4 * winH)
    ensures var a := LetterBox(winW, winH);
            0.0 <= a.xoff ==> a.xoff + a.w <= winW as real
  {
  }

  /** How far from its centre a shape can be picked up: its radius at the
      scale it is drawn with. */
  function Reach(s: LegacyShape): real
  {
    s.radius * s.line.scale
  }

  /** -1 for no shape, as find_selected_shape and selected_shape use it. */
  function AsOption(i: int): (r: Option<nat>)
    ensures r.None? <==> i < 0
    ensures r.Some? ==> r.value == i
  {
    if i < 0 then None else Some(i)
  }

  // ---------------------------------------------------------------------------
  // The game state

  class AppState {
    /** The drawing area: offset and the column and row spacing
        recalc_drawing_area derives from the window size. */
    var xoff: real
    var yoff: real
    var w: real
    var h: real
    var xdiv: real
    var ydiv: real
    /** The first frame has set up the drawing area. */
    var init: bool

    var allShape: seq<LegacyShape>
    var selectedShape: int
    const shape: array<LegacyShape>
    const shapeDst: array<nat>
    const shapeDone: array<bool>

    /** The fixed-size arrays have NUM_SHAPES entries. */
    predicate Sized()
    {
      shape.Length == NUM_SHAPES && shapeDst.Length == NUM_SHAPES && shapeDone.Length == NUM_SHAPES
    }

    /** ... and the selection is -1 or a slot. */
    predicate Ready()
      reads this`selectedShape
    {
      Sized() && -1 <= selectedShape < NUM_SHAPES
    }

    /** The state between two events: every slot has a destination, the
        destinations are a permutation of the slots, and a selected shape is
        not done. */
    ghost predicate Valid()
      reads this, shapeDst, shapeDone
    {
      && Ready()
      && NUM_SHAPES <= |allShape|
      && IsPermutation(shapeDst[..], NUM_SHAPES)
      && (selectedShape >= 0 ==> !shapeDone[selectedShape])
    }

    /** `new AppState()`: value-initialised, so the drawing area is all zero
        and every primitive's colour is zero, and the first frame has not run;
        no round dealt yet, nothing selected. */
    constructor ()
      ensures Ready() && selectedShape == -1 && allShape == [] && !init
      ensures xoff == 0.0 && yoff == 0.0 && w == 0.0 && h == 0.0 && xdiv == 0.0 && ydiv == 0.0
      ensures fresh(shape) && fresh(shapeDst) && fresh(shapeDone)
    {
      xoff, yoff, w, h, xdiv, ydiv := 0.0, 0.0, 0.0, 0.0, 0.0, 0.0;
      init := false;
      allShape := [];
      selectedShape := -1;
      var none := GLPrimitive(0, Vec4(0.0, 0.0, 0.0, 0.0), ORIGIN, 1.0);
      shape := new LegacyShape[NUM_SHAPES](_ => LegacyShape(0.0, none, none));
      shapeDst := new nat[NUM_SHAPES](i => 0);
      shapeDone := new bool[NUM_SHAPES](i => false);
    }

    /** shape_index_to_src_pos and shape_index_to_dst_pos: column i + 1 of the
        drawing area, on row 1 (sources) or row 3 (destinations). */
    function SlotPos(i: nat, dst: bool): Vec2
      reads this`xoff, this`yoff, this`xdiv, this`ydiv
    {
      Vec2(xoff + (i + 1) as real * xdiv, if dst then yoff + ydiv * 3.0 else yoff + ydiv)
    }

    /** With positive spacing, every slot centre lies inside the drawing area
        of NUM_SHAPES + 1 columns and four rows, between the first and the
        last column, the sources in the upper half and the destinations in
        the lower. */
    lemma SlotInArea(i: nat, dst: bool)
      requires i < NUM_SHAPES && xdiv > 0.0 && ydiv > 0.0
      ensures xoff + xdiv <= SlotPos(i, dst).x <= xoff + xdiv * NUM_SHAPES as real
      ensures yoff < SlotPos(i, dst).y < yoff + ydiv * 4.0
      ensures SlotPos(i, dst).y < yoff + ydiv * 2.0 <==> !dst
    {
      if i == 0 {
      } else if i == 1 {
      } else if i == 2 {
      } else if i == 3 {
      } else {
        assert i == 4;
      }
    }

    /** Shape i is under the pointer: within radius * scale of its slot's
        centre, and, for a source slot, not done. */
    predicate Hit(m: RealMath, cursor: Vec2, dst: bool, i: nat)
      reads this`xoff, this`yoff, this`xdiv, this`ydiv, shape, shapeDone
      requires Sized() && i < NUM_SHAPES
    {
      && (dst || !shapeDone[i])
      && Length(m, Sub(SlotPos(i, dst), cursor)) < Reach(shape[i])
    }

    /** The first slot from i on with a hit, or -1. */
    function PickFrom(m: RealMath, cursor: Vec2, dst: bool, i: nat): (r: int)
      reads this`xoff, this`yoff, this`xdiv, this`ydiv, shape, shapeDone
      requires Sized() && i <= NUM_SHAPES
      ensures -1 <= r < NUM_SHAPES
      ensures r >= 0 ==> i <= r && Hit(m, cursor, dst, r) && forall j :: i <= j < r ==> !Hit(m, cursor, dst, j)
      ensures r == -1 <==> forall j :: i <= j < NUM_SHAPES ==> !Hit(m, cursor, dst, j)
      decreases NUM_SHAPES - i
    {
      if i == NUM_SHAPES then -1
      else if Hit(m, cursor, dst, i) then i
      else PickFrom(m, cursor, dst, i + 1)
    }

    function Pick(m: RealMath, cursor: Vec2, dst: bool): int
      reads this`xoff, this`yoff, this`xdiv, this`ydiv, shape, shapeDone
      requires Sized()
    {
      PickFrom(m, cursor, dst, 0)
    }

    /** find_selected_shape with the pointer at `cursor`: the first slot whose
        shape is under it (skipping done sources), or -1. */
    method FindSelectedShape(m: RealMath, cursor: Vec2, dst: bool) returns (selected: int)
      requires Sized()
      ensures selected == Pick(m, cursor, dst)
      ensures selected >= 0 ==> selected < NUM_SHAPES && Hit(m, cursor, dst, selected) &&
                                forall j :: 0 <= j < selected ==> !Hit(m, cursor, dst, j)
      ensures selected == -1 <==> forall j :: 0 <= j < NUM_SHAPES ==> !Hit(m, cursor, dst, j)
    {
      selected := -1;
      for i := 0 to NUM_SHAPES
        invariant selected == -1 && PickFrom(m, cursor, dst, i) == Pick(m, cursor, dst)
      {
        var pos;
        if dst {
          pos := SlotPos(i, true);
        } else {
          if shapeDone[i] {
            assert !Hit(m, cursor, dst, i);
            continue;
          }
          pos := SlotPos(i, false);
        }
        assert pos == SlotPos(i, dst);
        var s := shape[i];
        var hit := Length(m, Sub(pos, cursor)) < Reach(s);
        assert hit == Hit(m, cursor, dst, i);
        if hit {
          selected := i;
          break;
        }
      }
    }

    /** update_gl_primitives: every shape in play is drawn at 0.4 of a column. */
    method UpdateGlPrimitives()
      requires Ready()
      modifies shape
      ensures forall i :: 0 <= i < NUM_SHAPES ==> shape[i] == Scaled(old(shape[i]), xdiv * 0.4)
    {
      var scale := xdiv * 0.4;
      for i := 0 to NUM_SHAPES
        invariant forall k :: 0 <= k < i ==> shape[k] == Scaled(old(shape[k]), scale)
        invariant forall k :: i <= k < NUM_SHAPES ==> shape[k] == old(shape[k])
      {
        var s := shape[i];
        s := s.(line := s.line.(scale := scale));
        s := s.(fill := s.fill.(scale := scale));
        shape[i] := s;
      }
    }

    /** recalc_drawing_area, with the window size SDL_GetWindowSize reported
        (None when it failed, and then nothing changes): the 4:3 area
        LetterBox places in the window, six columns and four rows of it. */
    method RecalcDrawingArea(winSize: Option<(int, int)>) returns (ok: bool)
      modifies this`xoff, this`yoff, this`w, this`h, this`xdiv, this`ydiv
      ensures ok <==> winSize.Some?
      ensures !ok ==> xoff == old(xoff) && yoff == old(yoff) && w == old(w) && h == old(h) &&
                      xdiv == old(xdiv) && ydiv == old(ydiv)
      ensures ok ==> LetterBox(winSize.value.0, winSize.value.1) == Area(xoff, yoff, w, h)
      ensures ok ==> xdiv * (NUM_SHAPES + 1) as real == w && ydiv * 4.0 == h
    {
      if winSize.None? {
        return false;
      }
      var (winW, winH) := winSize.value;
      if winW > winH {
        h := winH as real;
        w := winH as real * ASPECT_RATIO;
        xoff := (winW as real - w) / 2.0;
        yoff := 0.0;
      } else {
        w := winW as real;
        h := winW as real / ASPECT_RATIO;
        xoff := 0.0;
        yoff := (winH as real - h) / 2.0;
      }
      xdiv := w * 1.0 / (NUM_SHAPES + 1) as real;
      ydiv := h / 4.0;
      ok := true;
    }

    /** The drawing-area part of SDL_AppIterate: on the first frame only, the
        area is recalculated and every shape in play redrawn at its scale;
        a failed size query still redraws, at the old area. */
    method FirstFrame(winSize: Option<(int, int)>)
      requires Ready()
      modifies this`xoff, this`yoff, this`w, this`h, this`xdiv, this`ydiv, this`init, shape
      ensures init
      ensures old(init) || winSize.None? ==>
                xoff == old(xoff) && yoff == old(yoff) && w == old(w) && h == old(h) && xdiv == old(xdiv) && ydiv == old(ydiv)
      ensures old(init) ==> shape[..] == old(shape[..])
      ensures !old(init) && winSize.Some? ==> LetterBox(winSize.value.0, winSize.value.1) == Area(xoff, yoff, w, h)
      ensures !old(init) && winSize.Some? ==> xdiv * (NUM_SHAPES + 1) as real == w && ydiv * 4.0 == h
      ensures !old(init) ==> forall i :: 0 <= i < NUM_SHAPES ==> shape[i] == Scaled(old(shape[i]), xdiv * 0.4)
    {
      if !init {
        var _ := RecalcDrawingArea(winSize);
        UpdateGlPrimitives();
        init := true;
      }
    }

    /** The SDL_EVENT_WINDOW_RESIZED case: the area recalculated, then every
        shape in play redrawn at its scale. */
    method Resized(winSize: Option<(int, int)>)
      requires Ready()
      modifies this`xoff, this`yoff, this`w, this`h, this`xdiv, this`ydiv, shape
      ensures winSize.Some? ==> LetterBox(winSize.value.0, winSize.value.1) == Area(xoff, yoff, w, h)
      ensures winSize.Some? ==> xdiv * (NUM_SHAPES + 1) as real == w && ydiv * 4.0 == h
      ensures winSize.None? ==>
                xoff == old(xoff) && yoff == old(yoff) && w == old(w) && h == old(h) && xdiv == old(xdiv) && ydiv == old(ydiv)
      ensures forall i :: 0 <= i < NUM_SHAPES ==> shape[i] == Scaled(old(shape[i]), xdiv * 0.4)
    {
      var _ := RecalcDrawingArea(winSize);
      UpdateGlPrimitives();
    }

    /** init_game: a fresh shape set shuffled by `shuffle`, its first
        NUM_SHAPES shapes put in play at the current scale, destinations
        shuffled by `dstShuffle`, nothing done.  The selection is left as it was. */
    method InitGame(m: RealMath, dice: seq<real>, shuffle: seq<nat>, dstShuffle: seq<nat>)
      requires Ready() && |dice| == 6 && SetReady(m, dice)
      requires IsPermutation(shuffle, 7) && IsPermutation(dstShuffle, NUM_SHAPES)
      modifies this`allShape, shape, shapeDst, shapeDone
      ensures Valid()
      ensures Indexes(shuffle, ShapeSet()) && allShape == Permute(ShapeSet(), shuffle)
      ensures multiset(allShape) == multiset(ShapeSet())
      ensures forall i :: 0 <= i < NUM_SHAPES ==> shape[i] == Scaled(allShape[i], xdiv * 0.4)
      ensures shapeDst[..] == dstShuffle
      ensures forall i :: 0 <= i < NUM_SHAPES ==> !shapeDone[i]
    {
      var shapes := CreateShapeSet(m, dice);
      PermuteMultiset(shapes, shuffle);
      allShape := Permute(shapes, shuffle);
      for i := 0 to NUM_SHAPES
        invariant forall k :: 0 <= k < i ==> shape[k] == allShape[k] && shapeDst[k] == k
        modifies shape, shapeDst
      {
        shape[i] := allShape[i];
        shapeDst[i] := i;
      }
      ShuffleDestinations(dstShuffle);
      for i := 0 to NUM_SHAPES
        invariant forall k :: 0 <= k < i ==> !shapeDone[k]
        modifies shapeDone
      {
        shapeDone[i] := false;
      }
      UpdateGlPrimitives();
      assert shapeDst[..] == dstShuffle;
    }

    /** std::shuffle of the destinations, which hold 0 .. NUM_SHAPES - 1. */
    method ShuffleDestinations(dstShuffle: seq<nat>)
      requires Ready() && IsPermutation(dstShuffle, NUM_SHAPES)
      requires forall k :: 0 <= k < NUM_SHAPES ==> shapeDst[k] == k
      modifies shapeDst
      ensures shapeDst[..] == dstShuffle
    {
      var identity := shapeDst[..];
      PermutationBounds(dstShuffle, NUM_SHAPES);
      forall k | 0 <= k < NUM_SHAPES {
        shapeDst[k] := identity[dstShuffle[k]];
      }
      assert shapeDst[..] == dstShuffle;
    }

    /** SDL_EVENT_MOUSE_BUTTON_DOWN: select the first unfinished shape under
        the pointer, or -1. */
    method ButtonDown(m: RealMath, cursor: Vec2)
      requires Valid()
      modifies this`selectedShape
      ensures Valid()
      ensures selectedShape == Pick(m, cursor, false)
    {
      selectedShape := FindSelectedShape(m, cursor, false);
    }

    /** The drop: the selected shape is done when the destination under the
        pointer is its own, and the selection is cleared. */
    method Drop(m: RealMath, cursor: Vec2)
      requires Valid()
      modifies this`selectedShape, shapeDone
      ensures Valid() && selectedShape == -1
      ensures shapeDone[..] == Game.Released(old(shapeDone[..]), AsOption(old(selectedShape)), shapeDst[..],
                                             AsOption(old(Pick(m, cursor, true))))
    {
      ghost var done := Game.Released(shapeDone[..], AsOption(selectedShape), shapeDst[..], AsOption(Pick(m, cursor, true)));
      if selectedShape != -1 {
        var dstIdx := FindSelectedShape(m, cursor, true);
        if shapeDst[selectedShape] == dstIdx {
          shapeDone[selectedShape] := true;
        }
      }
      selectedShape := -1;
      assert shapeDone[..] == done;
    }

    /** The counting loop of the button-up handler. */
    method CountDone() returns (done: nat)
      requires Ready()
      ensures done == Game.DoneCount(shapeDone[..])
    {
      done := 0;
      for i := 0 to NUM_SHAPES
        invariant done == Game.DoneCount(shapeDone[..i])
      {
        assert shapeDone[..i + 1][..i] == shapeDone[..i];
        if shapeDone[i] {
          done := done + 1;
        }
      }
      assert shapeDone[..NUM_SHAPES] == shapeDone[..];
    }

    /** SDL_EVENT_MOUSE_BUTTON_UP: the drop, then a new round once the count
        of done shapes reaches NUM_SHAPES.  There is no score in this version. */
    method ButtonUp(m: RealMath, cursor: Vec2, dice: seq<real>, shuffle: seq<nat>, dstShuffle: seq<nat>)
      requires Valid() && |dice| == 6 && SetReady(m, dice)
      requires IsPermutation(shuffle, 7) && IsPermutation(dstShuffle, NUM_SHAPES)
      modifies this`selectedShape, this`allShape, shape, shapeDst, shapeDone
      ensures Valid() && selectedShape == -1
      ensures var done := Game.Released(old(shapeDone[..]), AsOption(old(selectedShape)), old(shapeDst[..]),
                                        AsOption(old(Pick(m, cursor, true))));
              if Game.AllDone(done) then
                && Indexes(shuffle, ShapeSet()) && allShape == Permute(ShapeSet(), shuffle)
                && (forall i :: 0 <= i < NUM_SHAPES ==> shape[i] == Scaled(allShape[i], xdiv * 0.4))
                && shapeDst[..] == dstShuffle
                && forall i :: 0 <= i < NUM_SHAPES ==> !shapeDone[i]
              else
                && allShape == old(allShape) && shape[..] == old(shape[..])
                && shapeDst[..] == old(shapeDst[..]) && shapeDone[..] == done
    {
      Drop(m, cursor);
      var done := CountDone();
      Game.DoneCountAll(shapeDone[..]);
      if done == NUM_SHAPES {
        InitGame(m, dice, shuffle, dstShuffle);
      }
    }
  }

  /** SDL_AppInit's part in the game: a default state over the given drawing
      area, then the first round. */
  method AppInit(m: RealMath, dice: seq<real>, shuffle: seq<nat>, dstShuffle: seq<nat>) returns (app: AppState)
    requires |dice| == 6 && SetReady(m, dice)
    requires IsPermutation(shuffle, 7) && IsPermutation(dstShuffle, NUM_SHAPES)
    ensures fresh(app) && app.Valid() && app.selectedShape == -1 && !app.init
    ensures app.xoff == 0.0 && app.yoff == 0.0 && app.w == 0.0 && app.h == 0.0 && app.xdiv == 0.0 && app.ydiv == 0.0
    ensures Indexes(shuffle, ShapeSet()) && app.allShape == Permute(ShapeSet(), shuffle)
    ensures forall i :: 0 <= i < NUM_SHAPES ==> app.shape[i] == Scaled(app.allShape[i], 0.0)
    ensures app.shapeDst[..] == dstShuffle
    ensures forall i :: 0 <= i < NUM_SHAPES ==> !app.shapeDone[i]
  {
    app := new AppState();
    app.InitGame(m, dice, shuffle, dstShuffle);
  }
}
