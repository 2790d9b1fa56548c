/** FontAtlas of src/font.cpp: loading the atlas text into the glyph map, and
    building the textured quads of a string from it.  The texture itself is
    only its size; loading files and GL uploads are not modelled. */
module Font {
  import opened Wrappers
  import opened Vectors
  import opened Meshes
  import opened GlHelper
  import opened AtlasText

  /** The atlas image make_texture produced: only its size matters here. */
  datatype Texture = Texture(width: nat, height: nat)

  /** A `char` of a std::string, as static_cast<int> reads it: one byte,
      signed as on x86, so a code in [-128, 128).  Text outside ASCII arrives
      as the bytes of its UTF-8 encoding, one char per byte. */
  type SignedChar = c: int | -128 <= c < 128

  /** The char that a byte of the string's storage reads as: the same value
      modulo 256, negative exactly for the bytes 128 and above. */
  function CharOfByte(b: nat): (c: SignedChar)
    requires b < 256
    ensures c % 256 == b
    ensures c < 0 <==> b >= 128
  {
    if b < 128 then b else b - 256
  }

  /** The texture coordinates of a glyph box: start is its top-left corner as
      drawn, end its bottom-right. */
  datatype Uv = Uv(start: Vec2, end: Vec2)

  /** std::abs on a float. */
  function Abs(x: real): (r: real)
    ensures r >= 0.0 && (r == x || r == -x)
  {
    if x < 0.0 then -x else x
  }

  /** The `normalize` step of make_text_vertex: position divided by the grid
      width, texture coordinates kept. */
  function Normalized(v: Vec4, gridWidth: int): (r: Vec4)
    requires gridWidth != 0
    ensures r.x * gridWidth as real == v.x && r.y * gridWidth as real == v.y
    ensures r.z == v.z && r.w == v.w
  {
    Vec4(v.x / gridWidth as real, v.y / gridWidth as real, v.z, v.w)
  }

  lemma DivideOrder(a: real, b: real, w: real)
    requires w > 0.0 && a <= b
    ensures a / w <= b / w
  {
    assert b / w - a / w == (b - a) / w;
  }

  class FontAtlas {
    var tex: Option<Texture>
    var distanceRange: int
    var emSize: real
    var gridWidth: int
    var gridHeight: int
    var glyph: map<int, Glyph>

    /** A default-constructed FontAtlas: no texture and no glyphs. */
    constructor ()
      ensures tex == None && glyph == map[]
    {
      tex := None;
      distanceRange, emSize, gridWidth, gridHeight := 0, 0.0, 0, 0;
      glyph := map[];
    }

    /** load, with the texture make_texture made (None when it failed) and the
        file contents SDL_LoadFile returned (None when it failed).  It fails
        without reading when either is missing; otherwise the text up to its
        first NUL is parsed as ParseAtlas says, every record is stored over
        what the map held, and it succeeds exactly when the parse does. */
    method Load(texture: Option<Texture>, data: Option<string>) returns (ok: bool)
      modifies this
      ensures tex == texture
      ensures texture.None? || data.None? ==>
                !ok && glyph == old(glyph) && distanceRange == old(distanceRange) && emSize == old(emSize) &&
                gridWidth == old(gridWidth) && gridHeight == old(gridHeight)
      ensures texture.Some? && data.Some? ==> (ok <==> ParseAtlas(UpToNul(data.value)).Ok?)
      ensures texture.Some? && data.Some? && ok ==>
                var a := ParseAtlas(UpToNul(data.value)).value;
                     && Header(distanceRange, emSize, gridWidth, gridHeight) == a.header
                     && glyph == Insert(old(glyph), a.records)
    {
      tex := texture;
      if texture.None? {
        return false;
      }
      if data.None? {
        return false;
      }
      var str := UpToNul(data.value);
      var t := Tokens(str);
      var open := EndsOpen(str);
      var header := ReadHeader(t);
      if header.None? {
        return false;
      }
      distanceRange := header.value.distanceRange;
      emSize := header.value.emSize;
      gridWidth := header.value.gridWidth;
      gridHeight := header.value.gridHeight;
      var more;
      ghost var records;
      more, records := ReadRecords(t[HEADER_TOKENS..], open);
      if !more {
        return false;
      }
      ok := true;
    }

    /** The label and value reads of the header, in file order. */
    static method ReadHeader(t: seq<string>) returns (h: Option<Header>)
      ensures h == ParseHeader(t)
    {
      if |t| < HEADER_TOKENS || t[0] != DISTANCE_RANGE {
        return None;
      }
      var distanceRange := ParseInt(t[1]);
      if t[2] != EM_SIZE {
        return None;
      }
      var emSize := ParseReal(t[3]);
      if t[4] != GRID_WIDTH {
        return None;
      }
      var gridWidth := ParseInt(t[5]);
      if t[6] != GRID_HEIGHT {
        return None;
      }
      var gridHeight := ParseInt(t[7]);
      if t[8] != UNICODE {
        return None;
      }
      if distanceRange.None? || emSize.None? || gridWidth.None? || gridHeight.None? {
        return None;
      }
      h := Some(Header(distanceRange.value, emSize.value, gridWidth.value, gridHeight.value));
    }

    /** The record loop: read a code, stop at the end of the stream, read the
        nine numbers, store the glyph.  `more` is false when the loop would
        not finish normally. */
    method ReadRecords(t: seq<string>, open: bool) returns (more: bool, ghost records: seq<Record>)
      modifies this`glyph
      ensures more <==> ParseRecords(t, open).Ok?
      ensures more ==> records == ParseRecords(t, open).value && glyph == Insert(old(glyph), records)
    {
      var pos := 0;
      records := [];
      assert t[0..] == t;
      PrependNothing(ParseRecords(t, open));
      while pos < |t|
        invariant pos <= |t|
        invariant glyph == Insert(old(glyph), records)
        invariant ParseRecords(t, open) == Prepend(records, ParseRecords(t[pos..], open))
        decreases |t| - pos
      {
        var rest := t[pos..];
        RecordsStep(rest, open);
        var unicode := ParseInt(t[pos]);
        if unicode.None? {
          return false, records;
        }
        if pos + 1 == |t| && open {
          PrependOnEnd(records);
          return true, records;
        }
        if pos + 10 > |t| {
          return false, records;
        }
        assert rest[1..10] == t[pos + 1..pos + 10] && rest[10..] == t[pos + 10..];
        var values := ParseReals(t[pos + 1..pos + 10]);
        if values.Err? {
          return false, records;
        }
        var g := GlyphOfReals(values.value);
        InsertSnoc(old(glyph), records, Record(unicode.value, g));
        PrependAppend(records, [Record(unicode.value, g)], ParseRecords(t[pos + 10..], open));
        glyph := glyph[unicode.value := g];
        records := records + [Record(unicode.value, g)];
        pos := pos + 10;
      }
      assert t[pos..] == [];
      PrependOnEnd(records);
      more := true;
    }

    /** glyph[code]: the stored glyph, or a zero one for a code never loaded. */
    function GlyphOf(code: int): (g: Glyph)
      reads this`glyph
      ensures code in glyph ==> g == glyph[code]
      ensures code !in glyph ==> g == ZERO_GLYPH
    {
      if code in glyph then glyph[code] else ZERO_GLYPH
    }

    /** A texture was loaded and has a size to divide by. */
    predicate HasTexture()
      reads this`tex
    {
      tex.Some? && tex.value.width > 0 && tex.value.height > 0
    }

    /** get_char_uv: the glyph's atlas box divided by the texture size, with v
        measured from the top. */
    function GetCharUv(ch: SignedChar): (r: Uv)
      reads this`tex, this`glyph
      requires HasTexture()
      ensures var g, w, h := GlyphOf(ch as int), tex.value.width as real, tex.value.height as real;
              && r.start.x * w == g.atlasLeft && (1.0 - r.start.y) * h == g.atlasBottom
              && r.end.x * w == g.atlasRight && (1.0 - r.end.y) * h == g.atlasTop
    {
      var g := GlyphOf(ch as int);
      var w, h := tex.value.width as real, tex.value.height as real;
      Uv(Vec2(g.atlasLeft / w, 1.0 - g.atlasBottom / h), Vec2(g.atlasRight / w, 1.0 - g.atlasTop / h))
    }

    /** A glyph box inside the texture has texture coordinates in the unit
        square, with end to the right of and above start. */
    lemma UvInUnitSquare(ch: SignedChar)
      requires HasTexture()
      requires var g := GlyphOf(ch as int);
               0.0 <= g.atlasLeft <= g.atlasRight <= tex.value.width as real &&
               0.0 <= g.atlasBottom <= g.atlasTop <= tex.value.height as real
      ensures var r := GetCharUv(ch);
              0.0 <= r.start.x <= r.end.x <= 1.0 && 0.0 <= r.end.y <= r.start.y <= 1.0
    {
      var g, w, h := GlyphOf(ch as int), tex.value.width as real, tex.value.height as real;
      var r := GetCharUv(ch);
      assert r.start.x == g.atlasLeft / w && r.end.x == g.atlasRight / w;
      assert r.start.y == 1.0 - g.atlasBottom / h && r.end.y == 1.0 - g.atlasTop / h;
      DivideOrder(0.0, g.atlasLeft, w);
      DivideOrder(g.atlasLeft, g.atlasRight, w);
      DivideOrder(g.atlasRight, w, w);
      assert w / w == 1.0;
      DivideOrder(0.0, g.atlasBottom, h);
      DivideOrder(g.atlasBottom, g.atlasTop, h);
      DivideOrder(g.atlasTop, h, h);
      assert h / h == 1.0;
    }

    /** make_letter: the quad of a glyph with the pen at (x, y), moved right by
        its left bearing and down by its descent; corners top-left, top-right,
        bottom-right, bottom-left, each with the matching texture coordinates. */
    function MakeLetter(x: real, y: real, ch: SignedChar): (r: seq<Vec4>)
      reads this`tex, this`glyph, this`emSize
      requires HasTexture()
      ensures |r| == 4
      ensures var g, uv := GlyphOf(ch as int), GetCharUv(ch);
              var left, top := x + g.planeLeft * emSize, y + Abs(g.planeBottom) * emSize;
              && r[0].x == left && r[3].x == left && r[1].x == r[2].x && r[1].x - left == g.atlasRight - g.atlasLeft
              && r[0].y == top && r[1].y == top && r[2].y == r[3].y && top - r[2].y == g.atlasTop - g.atlasBottom
              && r[0].z == uv.start.x && r[3].z == uv.start.x && r[1].z == uv.end.x && r[2].z == uv.end.x
              && r[0].w == uv.start.y && r[1].w == uv.start.y && r[2].w == uv.end.y && r[3].w == uv.end.y
    {
      var uv := GetCharUv(ch);
      var g := GlyphOf(ch as int);
      var w := g.atlasRight - g.atlasLeft;
      var h := g.atlasTop - g.atlasBottom;
      var x' := x + g.planeLeft * emSize;
      var y' := y + Abs(g.planeBottom) * emSize;
      [Vec4(x', y', uv.start.x, uv.start.y),
       Vec4(x' + w, y', uv.end.x, uv.start.y),
       Vec4(x' + w, y' - h, uv.end.x, uv.end.y),
       Vec4(x', y' - h, uv.start.x, uv.end.y)]
    }

    /** The pen position before character k: the scaled advances of the
        characters before it, added up as the loop adds them. */
    function Pen(str: seq<SignedChar>, k: nat): real
      reads this`glyph, this`emSize
      requires k <= |str|
    {
      if k == 0 then 0.0 else Pen(str, k - 1) + GlyphOf(str[k - 1] as int).advance * emSize
    }

    lemma PenStep(str: seq<SignedChar>, k: nat)
      requires k < |str|
      ensures Pen(str, k + 1) == Pen(str, k) + GlyphOf(str[k] as int).advance * emSize
    {
    }

    /** The sum of the advances of the first k characters, in em units. */
    function AdvanceSum(str: seq<SignedChar>, k: nat): real
      reads this`glyph
      requires k <= |str|
    {
      if k == 0 then 0.0 else AdvanceSum(str, k - 1) + GlyphOf(str[k - 1] as int).advance
    }

    /** The pen of character k is em_size times the advances before it. */
    lemma {:induction false} PenIsScaledAdvance(str: seq<SignedChar>, k: nat)
      requires k <= |str|
      ensures Pen(str, k) == emSize * AdvanceSum(str, k)
    {
      if k > 0 {
        PenIsScaledAdvance(str, k - 1);
        var a := GlyphOf(str[k - 1] as int).advance;
        assert emSize * AdvanceSum(str, k) == emSize * AdvanceSum(str, k - 1) + emSize * a;
      }
    }

    /** The quad of character k as make_text_vertex emits it. */
    function Letter(str: seq<SignedChar>, normalize: bool, k: nat): (r: seq<Vec4>)
      reads this`tex, this`glyph, this`emSize, this`gridWidth
      requires HasTexture() && (normalize ==> gridWidth != 0) && k < |str|
      ensures |r| == 4
    {
      var v := MakeLetter(Pen(str, k), 0.0, str[k]);
      if normalize then [Normalized(v[0], gridWidth), Normalized(v[1], gridWidth),
                         Normalized(v[2], gridWidth), Normalized(v[3], gridWidth)]
      else v
    }

    /** The quads of the first k characters, in order. */
    function TextVertices(str: seq<SignedChar>, normalize: bool, k: nat): seq<Vec4>
      reads this`tex, this`glyph, this`emSize, this`gridWidth
      requires HasTexture() && (normalize ==> gridWidth != 0) && k <= |str|
    {
      if k == 0 then [] else TextVertices(str, normalize, k - 1) + Letter(str, normalize, k - 1)
    }

    lemma {:induction false} TextVerticesLength(str: seq<SignedChar>, normalize: bool, k: nat)
      requires HasTexture() && (normalize ==> gridWidth != 0) && k <= |str|
      ensures |TextVertices(str, normalize, k)| == 4 * k
    {
      if k > 0 {
        TextVerticesLength(str, normalize, k - 1);
      }
    }

    /** Vertex c of character k's quad sits at 4k + c. */
    lemma {:induction false} TextVertexAt(str: seq<SignedChar>, normalize: bool, k: nat, n: nat, c: nat)
      requires HasTexture() && (normalize ==> gridWidth != 0) && k < n <= |str| && c < 4
      ensures |TextVertices(str, normalize, n)| == 4 * n
      ensures TextVertices(str, normalize, n)[4 * k + c] == Letter(str, normalize, k)[c]
    {
      TextVerticesLength(str, normalize, n);
      TextVerticesLength(str, normalize, n - 1);
      AppendAt(TextVertices(str, normalize, n - 1), Letter(str, normalize, n - 1), 4 * k + c);
      if k < n - 1 {
        TextVertexAt(str, normalize, k, n - 1, c);
      }
    }

    /** Normalising moves only positions: every vertex keeps the texture
        coordinates of the unnormalised quad, and its position is that quad's
        divided by the grid width. */
    lemma NormalizeKeepsUv(str: seq<SignedChar>, k: nat, c: nat)
      requires HasTexture() && gridWidth != 0 && k < |str| && c < 4
      ensures var v, u := Letter(str, true, k)[c], Letter(str, false, k)[c];
              v.z == u.z && v.w == u.w && v.x * gridWidth as real == u.x && v.y * gridWidth as real == u.y
    {
      var v := MakeLetter(Pen(str, k), 0.0, str[k]);
      assert Letter(str, true, k)[c] == Normalized(v[c], gridWidth);
    }

    /** The body of the character loop that builds one quad: make_letter at
        the pen, then each corner divided by the grid width when asked. */
    method EmitLetter(str: seq<SignedChar>, normalize: bool, k: nat, xpos: real) returns (v: seq<Vec4>)
      requires HasTexture() && (normalize ==> gridWidth != 0) && k < |str|
      requires xpos == Pen(str, k)
      ensures v == Letter(str, normalize, k)
    {
      var quad := MakeLetter(xpos, 0.0, str[k]);
      v := quad;
      if normalize {
        for c := 0 to 4
          invariant |v| == 4
          invariant forall j :: 0 <= j < c ==> v[j] == Normalized(quad[j], gridWidth)
          invariant forall j :: c <= j < 4 ==> v[j] == quad[j]
        {
          v := v[c := v[c].(x := v[c].x / gridWidth as real, y := v[c].y / gridWidth as real)];
        }
      }
    }

    /** One turn of the character loop: the quad at the pen, the pen moved
        by the scaled advance, the six indices of the quad. */
    method EmitCharacter(str: seq<SignedChar>, normalize: bool, k: nat, xpos: real, vertexUv: seq<Vec4>, index: seq<nat>)
      returns (xpos': real, vertexUv': seq<Vec4>, index': seq<nat>)
      requires HasTexture() && (normalize ==> gridWidth != 0) && k < |str|
      requires xpos == Pen(str, k)
      requires vertexUv == TextVertices(str, normalize, k)
      requires index == QuadIndices(QUAD, 0, k)
      ensures xpos' == Pen(str, k + 1)
      ensures vertexUv' == TextVertices(str, normalize, k + 1)
      ensures index' == QuadIndices(QUAD, 0, k + 1)
    {
      var v := EmitLetter(str, normalize, k, xpos);
      vertexUv' := vertexUv + v;
      PenStep(str, k);
      xpos' := xpos + GlyphOf(str[k] as int).advance * emSize;
      var idx := ShiftQuad(4 * k);
      QuadIndicesSnoc(QUAD, 0, k, k + 1, 4 * k);
      index' := index + idx;
    }

    /** make_text_vertex: four vertices and one quad of indices per character,
        character k's quad at the pen as the advances before it place it;
        an empty string gives nothing. */
    method MakeTextVertex(str: seq<SignedChar>, normalize: bool) returns (vertexUv: seq<Vec4>, index: seq<nat>)
      requires HasTexture() && (normalize ==> gridWidth != 0)
      ensures vertexUv == TextVertices(str, normalize, |str|)
      ensures index == QuadIndices(QUAD, 0, |str|)
      ensures |vertexUv| == 4 * |str| && |index| == 6 * |str|
      ensures Triangles(index, |vertexUv|)
    {
      var xpos := 0.0;
      vertexUv, index := [], [];
      var vertexCount: nat := 0;
      for k := 0 to |str|
        invariant xpos == Pen(str, k) && vertexCount == 4 * k
        invariant vertexUv == TextVertices(str, normalize, k)
        invariant index == QuadIndices(QUAD, 0, k)
      {
        xpos, vertexUv, index := EmitCharacter(str, normalize, k, xpos, vertexUv, index);
        vertexCount := vertexCount + 4;
      }
      TextVerticesLength(str, normalize, |str|);
      QuadIndicesBound(QUAD, 0, |str|);
    }

    /** make_text: the quads of make_text_vertex uploaded to a fresh buffer
        that draws all of their indices. */
    method MakeText(str: seq<SignedChar>, normalize: bool) returns (buffer: VertexBuffer)
      requires HasTexture() && (normalize ==> gridWidth != 0)
      ensures fresh(buffer)
      ensures buffer.vertexData == Flatten4(TextVertices(str, normalize, |str|))
      ensures buffer.indexData == QuadIndices(QUAD, 0, |str|) && buffer.indexCount == 6 * |str|
    {
      var vertexUv, index := MakeTextVertex(str, normalize);
      buffer := MakeVertexBuffer4(vertexUv, index);
    }
  }

  /** The index loop of make_text_vertex: the six entries of QUAD moved past
      the vertices already emitted. */
  method ShiftQuad(vertexCount: nat) returns (idx: seq<nat>)
    ensures idx == Shift(QUAD, vertexCount)
  {
    idx := QUAD;
    for c := 0 to 6
      invariant |idx| == 6
      invariant forall j :: 0 <= j < c ==> idx[j] == QUAD[j] + vertexCount
      invariant forall j :: c <= j < 6 ==> idx[j] == QUAD[j]
    {
      idx := idx[c := idx[c] + vertexCount];
    }
  }
}
