/** scripts/font_json_to_txt.py: the converter from the JSON of
    msdf-atlas-gen to the atlas text FontAtlas::load reads.  The JSON is
    taken as already decoded into the values below (reading and decoding the
    file are not modelled); numbers are kept as the decimal numerals Python
    prints for them, so that what the script writes can be parsed back. */
module AtlasWriter {
  import opened Wrappers
  import opened AtlasText
  import opened Meshes

  // ---------------------------------------------------------------------------
  // Decoded JSON

  /** A JSON number as Python prints it: an optional minus sign, the whole
      part and the digits after the point.  An int has no point
      (`fraction == []`); a float has at least one digit after it. */
  datatype Num = Num(negative: bool, whole: nat, fraction: seq<nat>)

  predicate ValidNum(n: Num)
  {
    forall k :: 0 <= k < |n.fraction| ==> n.fraction[k] < 10
  }

  /** A number json.load turns into a Python int. */
  predicate Integral(n: Num)
  {
    |n.fraction| == 0
  }

  datatype Bounds = Bounds(left: Num, bottom: Num, right: Num, top: Num)

  /** One entry of "glyphs"; a glyph without a drawing (a space) has no
      bounds at all. */
  datatype JsonGlyph = JsonGlyph(unicode: int, advance: Num, planeBounds: Option<Bounds>, atlasBounds: Option<Bounds>)

  /** The fields of "atlas" the script reads: distanceRange, size and
      grid.cellWidth / grid.cellHeight. */
  datatype JsonAtlas = JsonAtlas(distanceRange: Num, size: Num, cellWidth: Num, cellHeight: Num)

  predicate ValidBounds(b: Bounds)
  {
    ValidNum(b.left) && ValidNum(b.bottom) && ValidNum(b.right) && ValidNum(b.top)
  }

  predicate ValidGlyph(g: JsonGlyph)
  {
    ValidNum(g.advance) &&
    (g.planeBounds.Some? ==> ValidBounds(g.planeBounds.value)) &&
    (g.atlasBounds.Some? ==> ValidBounds(g.atlasBounds.value))
  }

  predicate ValidAtlas(a: JsonAtlas)
  {
    ValidNum(a.distanceRange) && ValidNum(a.size) && ValidNum(a.cellWidth) && ValidNum(a.cellHeight)
  }

  /** The script can print the whole glyph: the atlas bounds are only looked
      up when there are plane bounds. */
  predicate Complete(g: JsonGlyph)
  {
    g.planeBounds.Some? ==> g.atlasBounds.Some?
  }

  /** No character of s is NUL: std::string(data) keeps all of it. */
  predicate NoNul(s: string)
  {
    forall k :: 0 <= k < |s| ==> s[k] != '\0'
  }

  // ---------------------------------------------------------------------------
  // Values of the numbers

  /** The value of the digits after a decimal point, first digit first. */
  function FractionOf(ds: seq<nat>): real
  {
    if |ds| == 0 then 0.0 else (ds[0] as real + FractionOf(ds[1..])) / 10.0
  }

  function Value(n: Num): real
  {
    var v := n.whole as real + FractionOf(n.fraction);
    if n.negative then -v else v
  }

  function IntValue(n: Num): int
  {
    if n.negative then -(n.whole as int) else n.whole
  }

  // ---------------------------------------------------------------------------
  // What str() and print write

  function DigitChar(d: nat): (c: char)
    requires d < 10
    ensures IsDigit(c) && DigitValue(c) == d
  {
    (('0' as int) + d) as char
  }

  /** str() of a non-negative int: its decimal digits, no leading zero. */
  function NatText(n: nat): string
    decreases n
  {
    if n < 10 then [DigitChar(n)] else NatText(n / 10) + [DigitChar(n % 10)]
  }

  function FractionText(ds: seq<nat>): string
    requires forall k :: 0 <= k < |ds| ==> ds[k] < 10
  {
    if |ds| == 0 then "" else [DigitChar(ds[0])] + FractionText(ds[1..])
  }

  /** str() of a Python int. */
  function IntText(i: int): string
  {
    if i < 0 then "-" + NatText(-i) else NatText(i)
  }

  /** str() of a JSON number. */
  function NumText(n: Num): string
    requires ValidNum(n)
  {
    (if n.negative then "-" else "") + NatText(n.whole) +
    (if |n.fraction| == 0 then "" else "." + FractionText(n.fraction))
  }

  /** The five header lines, each print ending in a newline. */
  function HeaderText(a: JsonAtlas): string
    requires ValidAtlas(a)
  {
    DISTANCE_RANGE + " " + NumText(a.distanceRange) + "\n" +
    EM_SIZE + " " + NumText(a.size) + "\n" +
    GRID_WIDTH + " " + NumText(a.cellWidth) + "\n" +
    GRID_HEIGHT + " " + NumText(a.cellHeight) + "\n" +
    UNICODE + "\n"
  }

  // The glyph lines are written onto what is already printed, one print at
  // a time, as the script's loop writes them.

  /** The code and the advance, each printed with end=" ". */
  function PrintHead(out: string, g: JsonGlyph): string
    requires ValidGlyph(g)
  {
    out + IntText(g.unicode) + " " + NumText(g.advance) + " "
  }

  /** Four bounds, each printed with end=" ". */
  function PrintBounds(out: string, b: Bounds): string
    requires ValidBounds(b)
  {
    out + NumText(b.left) + " " + NumText(b.bottom) + " " + NumText(b.right) + " " + NumText(b.top) + " "
  }

  /** print("0 0 0 0 0 0 0 0"), for a glyph without plane bounds. */
  function PrintZeros(out: string): string
  {
    out + "0" + " " + "0" + " " + "0" + " " + "0" + " " + "0" + " " + "0" + " " + "0" + " " + "0" + "\n"
  }

  /** The line of one glyph: the code, the advance, then either eight zeros
      or the plane and atlas bounds followed by the newline of print(""). */
  function PrintGlyph(out: string, g: JsonGlyph): string
    requires ValidGlyph(g) && Complete(g)
  {
    if g.planeBounds.None? then PrintZeros(PrintHead(out, g))
    else PrintBounds(PrintBounds(PrintHead(out, g), g.planeBounds.value), g.atlasBounds.value) + "\n"
  }

  /** Everything the script writes for a file whose glyphs are all complete. */
  function AtlasTextOf(a: JsonAtlas, gs: seq<JsonGlyph>): string
    requires ValidAtlas(a)
    requires forall k :: 0 <= k < |gs| ==> ValidGlyph(gs[k]) && Complete(gs[k])
  {
    if |gs| == 0 then HeaderText(a) else PrintGlyph(AtlasTextOf(a, gs[..|gs| - 1]), gs[|gs| - 1])
  }

  /** The first glyph with plane bounds but no atlas bounds. */
  function FirstIncomplete(gs: seq<JsonGlyph>): (i: nat)
    requires exists k :: 0 <= k < |gs| && !Complete(gs[k])
    ensures i < |gs| && !Complete(gs[i])
    ensures forall k :: 0 <= k < i ==> Complete(gs[k])
  {
    if !Complete(gs[0]) then 0
    else
      assert exists k :: 0 <= k < |gs[1..]| && !Complete(gs[1..][k]) by {
        var k :| 0 <= k < |gs| && !Complete(gs[k]);
        assert gs[1..][k - 1] == gs[k];
      }
      1 + FirstIncomplete(gs[1..])
  }

  const MISSING_JSON: string := "missing json"

  /** The KeyError the script stops with at a glyph that has no atlas bounds. */
  const MISSING_ATLAS_BOUNDS: string := "atlasBounds"

  /** The script: `out` is what it writes to standard output, `exit` the
      message it stops with, if any.  argv is sys.argv, so it holds at least
      the script's own name; the decoded file stands in for argv[1]. */
  method Convert(argv: seq<string>, atlas: JsonAtlas, glyphs: seq<JsonGlyph>) returns (out: string, exit: Option<string>)
    requires |argv| >= 1
    requires ValidAtlas(atlas) && forall k :: 0 <= k < |glyphs| ==> ValidGlyph(glyphs[k])
    ensures |argv| == 1 ==> out == "" && exit == Some(MISSING_JSON)
    ensures |argv| > 1 && (forall k :: 0 <= k < |glyphs| ==> Complete(glyphs[k])) ==>
              exit.None? && out == AtlasTextOf(atlas, glyphs)
    ensures |argv| > 1 && (exists k :: 0 <= k < |glyphs| && !Complete(glyphs[k])) ==>
              var i := FirstIncomplete(glyphs);
              exit == Some(MISSING_ATLAS_BOUNDS) &&
              out == PrintBounds(PrintHead(AtlasTextOf(atlas, glyphs[..i]), glyphs[i]), glyphs[i].planeBounds.value)
  {
    if |argv| == 1 {
      return "", Some(MISSING_JSON);
    }
    out := HeaderText(atlas);
    for i := 0 to |glyphs|
      invariant forall k :: 0 <= k < i ==> Complete(glyphs[k])
      invariant out == AtlasTextOf(atlas, glyphs[..i])
    {
      var missing;
      out, missing := WriteGlyph(out, glyphs[i]);
      if missing {
        FirstIncompleteAt(glyphs, i);
        return out, Some(MISSING_ATLAS_BOUNDS);
      }
      AtlasTextOfSnoc(atlas, glyphs, i);
    }
    assert glyphs[..|glyphs|] == glyphs;
    exit := None;
  }

  /** The prints of one pass of the glyph loop; `missing` when the lookup of
      atlasBounds fails after the plane bounds are printed. */
  method WriteGlyph(out: string, g: JsonGlyph) returns (out': string, missing: bool)
    requires ValidGlyph(g)
    ensures missing <==> !Complete(g)
    ensures !missing ==> out' == PrintGlyph(out, g)
    ensures missing ==> out' == PrintBounds(PrintHead(out, g), g.planeBounds.value)
  {
    out' := out + IntText(g.unicode) + " ";
    out' := out' + NumText(g.advance) + " ";
    if g.planeBounds.None? {
      out' := out' + "0" + " " + "0" + " " + "0" + " " + "0" + " " + "0" + " " + "0" + " " + "0" + " " + "0" + "\n";
      return out', false;
    }
    var plane := g.planeBounds.value;
    out' := out' + NumText(plane.left) + " ";
    out' := out' + NumText(plane.bottom) + " ";
    out' := out' + NumText(plane.right) + " ";
    out' := out' + NumText(plane.top) + " ";
    if g.atlasBounds.None? {
      return out', true;
    }
    var box := g.atlasBounds.value;
    out' := out' + NumText(box.left) + " ";
    out' := out' + NumText(box.bottom) + " ";
    out' := out' + NumText(box.right) + " ";
    out' := out' + NumText(box.top) + " ";
    out' := out' + "\n";
    missing := false;
  }

  lemma AtlasTextOfSnoc(a: JsonAtlas, gs: seq<JsonGlyph>, i: nat)
    requires ValidAtlas(a) && i < |gs|
    requires forall k :: 0 <= k <= i ==> ValidGlyph(gs[k]) && Complete(gs[k])
    ensures AtlasTextOf(a, gs[..i + 1]) == PrintGlyph(AtlasTextOf(a, gs[..i]), gs[i])
  {
    assert gs[..i + 1][..i] == gs[..i];
  }

  lemma {:induction false} FirstIncompleteAt(gs: seq<JsonGlyph>, i: nat)
    requires i < |gs| && !Complete(gs[i]) && forall k :: 0 <= k < i ==> Complete(gs[k])
    ensures FirstIncomplete(gs) == i
  {
    if i > 0 {
      assert forall k :: 0 <= k < i - 1 ==> gs[1..][k] == gs[k + 1];
      FirstIncompleteAt(gs[1..], i - 1);
    }
  }

  // ---------------------------------------------------------------------------
  // Reading the numerals back

  lemma {:induction false} NatTextValue(n: nat)
    ensures |NatText(n)| > 0 && AllDigits(NatText(n))
    ensures DigitsValue(NatText(n)) == n
    decreases n
  {
    var s := NatText(n);
    if n >= 10 {
      NatTextValue(n / 10);
      assert s[..|s| - 1] == NatText(n / 10);
    } else {
      assert s[..|s| - 1] == [];
    }
  }

  lemma {:induction false} FractionTextValue(ds: seq<nat>)
    requires forall k :: 0 <= k < |ds| ==> ds[k] < 10
    ensures |FractionText(ds)| == |ds| && AllDigits(FractionText(ds))
    ensures FractionValue(FractionText(ds)) == FractionOf(ds)
  {
    if |ds| > 0 {
      FractionTextValue(ds[1..]);
      assert FractionText(ds)[1..] == FractionText(ds[1..]);
    }
  }

  /** A run of digits followed by something that is not a digit is read as
      the whole run. */
  lemma {:induction false} DigitRunOf(d: string, rest: string)
    requires AllDigits(d) && (|rest| == 0 || !IsDigit(rest[0]))
    ensures DigitRun(d + rest) == |d|
  {
    if |d| > 0 {
      assert (d + rest)[1..] == d[1..] + rest;
      DigitRunOf(d[1..], rest);
    } else {
      assert d + rest == rest;
    }
  }

  /** The digits and the rest of str() of a number, sign taken off. */
  lemma NumTextParts(n: Num)
    requires ValidNum(n)
    ensures var body := NatText(n.whole) + (if |n.fraction| == 0 then "" else "." + FractionText(n.fraction));
            Unsigned(NumText(n)) == (n.negative, body)
  {
    var body := NatText(n.whole) + (if |n.fraction| == 0 then "" else "." + FractionText(n.fraction));
    NatTextValue(n.whole);
    if n.negative {
      assert NumText(n) == "-" + body;
      assert NumText(n)[1..] == body;
    } else {
      assert NumText(n) == body;
    }
  }

  /** `ss >> float` reads back the value of every number the script prints. */
  lemma ParseRealOfNum(n: Num)
    requires ValidNum(n)
    ensures ParseReal(NumText(n)) == Some(Value(n))
  {
    var digits := NatText(n.whole);
    var rest := if |n.fraction| == 0 then "" else "." + FractionText(n.fraction);
    var body := digits + rest;
    NumTextParts(n);
    NatTextValue(n.whole);
    DigitRunOf(digits, rest);
    assert body[..|digits|] == digits && body[|digits|..] == rest;
    if |n.fraction| > 0 {
      FractionTextValue(n.fraction);
      assert rest[1..] == FractionText(n.fraction);
    }
  }

  /** `ss >> int` reads back exactly the numbers printed without a point. */
  lemma ParseIntOfNum(n: Num)
    requires ValidNum(n)
    ensures Integral(n) ==> ParseInt(NumText(n)) == Some(IntValue(n))
    ensures !Integral(n) ==> ParseInt(NumText(n)).None?
  {
    var digits := NatText(n.whole);
    NumTextParts(n);
    NatTextValue(n.whole);
    if !Integral(n) {
      var body := digits + ("." + FractionText(n.fraction));
      assert body[|digits|] == '.';
      assert !AllDigits(body);
    } else {
      assert digits + "" == digits;
    }
  }

  lemma ParseIntOfInt(i: int)
    ensures ParseInt(IntText(i)) == Some(i)
  {
    NatTextValue(if i < 0 then -i else i);
    if i < 0 {
      assert IntText(i)[1..] == NatText(-i);
    }
  }

  lemma NumTextWord(n: Num)
    requires ValidNum(n)
    ensures Word(NumText(n)) && NoNul(NumText(n))
  {
    NatTextValue(n.whole);
    if |n.fraction| > 0 {
      FractionTextValue(n.fraction);
    }
    var s := NumText(n);
    forall k | 0 <= k < |s|
      ensures IsDigit(s[k]) || s[k] == '-' || s[k] == '.'
    {
    }
  }

  lemma IntTextWord(i: int)
    ensures Word(IntText(i)) && NoNul(IntText(i))
  {
    NatTextValue(if i < 0 then -i else i);
    var s := IntText(i);
    forall k | 0 <= k < |s|
      ensures IsDigit(s[k]) || s[k] == '-'
    {
    }
  }

  // ---------------------------------------------------------------------------
  // Reading the text back, token by token

  /** The tokens of the header. */
  function HeaderWords(a: JsonAtlas): seq<string>
    requires ValidAtlas(a)
  {
    [DISTANCE_RANGE, NumText(a.distanceRange), EM_SIZE, NumText(a.size),
     GRID_WIDTH, NumText(a.cellWidth), GRID_HEIGHT, NumText(a.cellHeight), UNICODE]
  }

  function BoundsWords(b: Bounds): seq<string>
    requires ValidBounds(b)
  {
    [NumText(b.left), NumText(b.bottom), NumText(b.right), NumText(b.top)]
  }

  const ZERO_WORDS: seq<string> := ["0", "0", "0", "0", "0", "0", "0", "0"]

  /** The ten tokens of a glyph line. */
  function LineWords(g: JsonGlyph): seq<string>
    requires ValidGlyph(g) && Complete(g)
  {
    [IntText(g.unicode), NumText(g.advance)] +
    (if g.planeBounds.None? then ZERO_WORDS
     else BoundsWords(g.planeBounds.value) + BoundsWords(g.atlasBounds.value))
  }

  function GlyphsWords(gs: seq<JsonGlyph>): seq<string>
    requires forall k :: 0 <= k < |gs| ==> ValidGlyph(gs[k]) && Complete(gs[k])
  {
    if |gs| == 0 then [] else GlyphsWords(gs[..|gs| - 1]) + LineWords(gs[|gs| - 1])
  }

  /** One print of a token and its end: the token is read back, and the text
      still ends in whitespace. */
  lemma TokensPrint(out: string, w: string, end: string)
    requires EndsSpaced(out) && NoNul(out) && Word(w) && NoNul(w)
    requires end == " " || end == "\n"
    ensures Tokens(out + w + end) == Tokens(out) + [w]
    ensures EndsSpaced(out + w + end) && NoNul(out + w + end)
  {
    assert Tokens(end) == [] by {
      assert Tokens(end) == Tokens(end[1..]);
      assert end[1..] == [];
    }
    assert Tokens(out + (w + end)) == Tokens(out) + [w] by {
      TokensConcat(out, w + end);
      TokensOfWord(w, end);
    }
    assert out + w + end == out + (w + end);
  }

  /** A label and a value printed as one line. */
  lemma TokensField(out: string, name: string, value: string)
    requires EndsSpaced(out) && NoNul(out) && Word(name) && NoNul(name) && Word(value) && NoNul(value)
    ensures Tokens(out + name + " " + value + "\n") == Tokens(out) + [name, value]
    ensures EndsSpaced(out + name + " " + value + "\n") && NoNul(out + name + " " + value + "\n")
  {
    TokensPrint(out, name, " ");
    TokensPrint(out + name + " ", value, "\n");
  }

  lemma LabelsAreWords()
    ensures Word(DISTANCE_RANGE) && Word(EM_SIZE) && Word(GRID_WIDTH) && Word(GRID_HEIGHT) && Word(UNICODE)
    ensures NoNul(DISTANCE_RANGE) && NoNul(EM_SIZE) && NoNul(GRID_WIDTH) && NoNul(GRID_HEIGHT) && NoNul(UNICODE)
  {
  }

  lemma HeaderTokens(a: JsonAtlas)
    requires ValidAtlas(a)
    ensures Tokens(HeaderText(a)) == HeaderWords(a)
    ensures EndsSpaced(HeaderText(a)) && NoNul(HeaderText(a))
  {
    NumTextWord(a.distanceRange);
    NumTextWord(a.size);
    NumTextWord(a.cellWidth);
    NumTextWord(a.cellHeight);
    LabelsAreWords();
    HeaderTokensOf(DISTANCE_RANGE, NumText(a.distanceRange), EM_SIZE, NumText(a.size),
                   GRID_WIDTH, NumText(a.cellWidth), GRID_HEIGHT, NumText(a.cellHeight), UNICODE);
  }

  /** The header with its words kept abstract, so that no literal is taken
      apart character by character. */
  lemma HeaderTokensOf(l1: string, v1: string, l2: string, v2: string, l3: string, v3: string,
                       l4: string, v4: string, l5: string)
    requires Word(l1) && Word(v1) && Word(l2) && Word(v2) && Word(l3) && Word(v3) && Word(l4) && Word(v4) && Word(l5)
    requires NoNul(l1) && NoNul(v1) && NoNul(l2) && NoNul(v2) && NoNul(l3) && NoNul(v3) && NoNul(l4) && NoNul(v4) && NoNul(l5)
    ensures var s := l1 + " " + v1 + "\n" + l2 + " " + v2 + "\n" + l3 + " " + v3 + "\n" + l4 + " " + v4 + "\n" + l5 + "\n";
            Tokens(s) == [l1, v1, l2, v2, l3, v3, l4, v4, l5] && EndsSpaced(s) && NoNul(s)
  {
    assert "" + l1 == l1;
    TokensField("", l1, v1);
    var s := l1 + " " + v1 + "\n";
    TokensField(s, l2, v2);
    s := s + l2 + " " + v2 + "\n";
    TokensField(s, l3, v3);
    s := s + l3 + " " + v3 + "\n";
    TokensField(s, l4, v4);
    s := s + l4 + " " + v4 + "\n";
    TokensPrint(s, l5, "\n");
  }

  lemma TokensOfBounds(out: string, b: Bounds)
    requires ValidBounds(b) && EndsSpaced(out) && NoNul(out)
    ensures Tokens(PrintBounds(out, b)) == Tokens(out) + BoundsWords(b)
    ensures EndsSpaced(PrintBounds(out, b)) && NoNul(PrintBounds(out, b))
  {
    NumTextWord(b.left);
    NumTextWord(b.bottom);
    NumTextWord(b.right);
    NumTextWord(b.top);
    TokensPrintFour(out, NumText(b.left), NumText(b.bottom), NumText(b.right), NumText(b.top));
  }

  lemma TokensPrintFour(out: string, w1: string, w2: string, w3: string, w4: string)
    requires EndsSpaced(out) && NoNul(out)
    requires Word(w1) && Word(w2) && Word(w3) && Word(w4) && NoNul(w1) && NoNul(w2) && NoNul(w3) && NoNul(w4)
    ensures var s := out + w1 + " " + w2 + " " + w3 + " " + w4 + " ";
            Tokens(s) == Tokens(out) + [w1, w2, w3, w4] && EndsSpaced(s) && NoNul(s)
  {
    TokensPrint(out, w1, " ");
    var s := out + w1 + " ";
    TokensPrint(s, w2, " ");
    s := s + w2 + " ";
    TokensPrint(s, w3, " ");
    s := s + w3 + " ";
    TokensPrint(s, w4, " ");
  }

  lemma TokensOfHead(out: string, g: JsonGlyph)
    requires ValidGlyph(g) && EndsSpaced(out) && NoNul(out)
    ensures Tokens(PrintHead(out, g)) == Tokens(out) + [IntText(g.unicode), NumText(g.advance)]
    ensures EndsSpaced(PrintHead(out, g)) && NoNul(PrintHead(out, g))
  {
    IntTextWord(g.unicode);
    NumTextWord(g.advance);
    TokensPrintTwo(out, IntText(g.unicode), NumText(g.advance));
  }

  lemma TokensPrintTwo(out: string, w1: string, w2: string)
    requires EndsSpaced(out) && NoNul(out) && Word(w1) && Word(w2) && NoNul(w1) && NoNul(w2)
    ensures var s := out + w1 + " " + w2 + " ";
            Tokens(s) == Tokens(out) + [w1, w2] && EndsSpaced(s) && NoNul(s)
  {
    TokensPrint(out, w1, " ");
    TokensPrint(out + w1 + " ", w2, " ");
  }

  lemma TokensOfZeros(out: string)
    requires EndsSpaced(out) && NoNul(out)
    ensures Tokens(PrintZeros(out)) == Tokens(out) + ZERO_WORDS
    ensures EndsSpaced(PrintZeros(out)) && NoNul(PrintZeros(out))
  {
    assert Word("0") && NoNul("0");
    TokensRepeated(out, "0");
  }

  /** A word printed eight times, the last time with a newline; the word is
      kept abstract so that no literal is taken apart. */
  lemma TokensRepeated(out: string, w: string)
    requires EndsSpaced(out) && NoNul(out) && Word(w) && NoNul(w)
    ensures var s := out + w + " " + w + " " + w + " " + w + " " + w + " " + w + " " + w + " " + w + "\n";
            Tokens(s) == Tokens(out) + [w, w, w, w, w, w, w, w] && EndsSpaced(s) && NoNul(s)
  {
    TokensPrintFour(out, w, w, w, w);
    var s := out + w + " " + w + " " + w + " " + w + " ";
    TokensPrintTwo(s, w, w);
    s := s + w + " " + w + " ";
    TokensPrint(s, w, " ");
    s := s + w + " ";
    TokensPrint(s, w, "\n");
  }

  lemma TokensOfNewline(out: string)
    requires EndsSpaced(out) && NoNul(out)
    ensures Tokens(out + "\n") == Tokens(out) && EndsSpaced(out + "\n") && NoNul(out + "\n")
  {
    TokensConcat(out, "\n");
    assert Tokens("\n") == Tokens("\n"[1..]);
    assert "\n"[1..] == [];
    assert Tokens(out) + [] == Tokens(out);
  }

  /** A glyph line is read back as its ten words. */
  lemma TokensOfGlyph(out: string, g: JsonGlyph)
    requires ValidGlyph(g) && Complete(g) && EndsSpaced(out) && NoNul(out)
    ensures Tokens(PrintGlyph(out, g)) == Tokens(out) + LineWords(g)
    ensures EndsSpaced(PrintGlyph(out, g)) && NoNul(PrintGlyph(out, g))
  {
    if g.planeBounds.None? {
      TokensOfBlankGlyph(out, g);
    } else {
      TokensOfDrawnGlyph(out, g);
    }
  }

  lemma TokensOfBlankGlyph(out: string, g: JsonGlyph)
    requires ValidGlyph(g) && g.planeBounds.None? && EndsSpaced(out) && NoNul(out)
    ensures Tokens(PrintZeros(PrintHead(out, g))) == Tokens(out) + LineWords(g)
    ensures EndsSpaced(PrintZeros(PrintHead(out, g))) && NoNul(PrintZeros(PrintHead(out, g)))
  {
    var head := [IntText(g.unicode), NumText(g.advance)];
    var h := PrintHead(out, g);
    TokensOfHead(out, g);
    TokensOfZeros(h);
    AppendAssoc(Tokens(out), head, ZERO_WORDS);
  }

  lemma TokensOfDrawnGlyph(out: string, g: JsonGlyph)
    requires ValidGlyph(g) && g.planeBounds.Some? && g.atlasBounds.Some? && EndsSpaced(out) && NoNul(out)
    ensures var s := PrintBounds(PrintBounds(PrintHead(out, g), g.planeBounds.value), g.atlasBounds.value) + "\n";
            Tokens(s) == Tokens(out) + LineWords(g) && EndsSpaced(s) && NoNul(s)
  {
    var head := [IntText(g.unicode), NumText(g.advance)];
    var p, q := g.planeBounds.value, g.atlasBounds.value;
    var h := PrintHead(out, g);
    TokensOfHead(out, g);
    TokensOfBounds(h, p);
    TokensOfBounds(PrintBounds(h, p), q);
    TokensOfNewline(PrintBounds(PrintBounds(h, p), q));
    AppendAssoc(Tokens(out), head, BoundsWords(p));
    AppendAssoc(Tokens(out), head + BoundsWords(p), BoundsWords(q));
    AppendAssoc(head, BoundsWords(p), BoundsWords(q));
  }

  /** The script's output is read back as the header's words and then the
      ten words of each glyph line. */
  lemma {:induction false} TokensOfText(a: JsonAtlas, gs: seq<JsonGlyph>)
    requires ValidAtlas(a)
    requires forall k :: 0 <= k < |gs| ==> ValidGlyph(gs[k]) && Complete(gs[k])
    ensures Tokens(AtlasTextOf(a, gs)) == HeaderWords(a) + GlyphsWords(gs)
    ensures EndsSpaced(AtlasTextOf(a, gs)) && NoNul(AtlasTextOf(a, gs)) && |AtlasTextOf(a, gs)| > 0
  {
    if |gs| == 0 {
      HeaderTokens(a);
      assert HeaderWords(a) + [] == HeaderWords(a);
    } else {
      var front, last := gs[..|gs| - 1], gs[|gs| - 1];
      TokensOfText(a, front);
      TokensOfGlyph(AtlasTextOf(a, front), last);
      AppendAssoc(HeaderWords(a), GlyphsWords(front), LineWords(last));
    }
  }

  // ---------------------------------------------------------------------------
  // The round trip: what FontAtlas::load makes of the script's output

  /** The glyph load stores for a JSON glyph: all bounds zero without plane
      bounds, whatever the atlas bounds say. */
  function GlyphOf(g: JsonGlyph): Glyph
    requires Complete(g)
  {
    if g.planeBounds.None? then Glyph(Value(g.advance), 0.0, 0.0, 0.0, 0.0, 0.0, 0.0, 0.0, 0.0)
    else
      var p, q := g.planeBounds.value, g.atlasBounds.value;
      Glyph(Value(g.advance), Value(p.left), Value(p.bottom), Value(p.right), Value(p.top),
            Value(q.left), Value(q.bottom), Value(q.right), Value(q.top))
  }

  function RecordsOf(gs: seq<JsonGlyph>): seq<Record>
    requires forall k :: 0 <= k < |gs| ==> Complete(gs[k])
  {
    if |gs| == 0 then [] else RecordsOf(gs[..|gs| - 1]) + [Record(gs[|gs| - 1].unicode, GlyphOf(gs[|gs| - 1]))]
  }

  /** The header load reads from a JSON atlas whose grid and range are ints. */
  function HeaderOf(a: JsonAtlas): Header
  {
    Header(IntValue(a.distanceRange), Value(a.size), IntValue(a.cellWidth), IntValue(a.cellHeight))
  }

  lemma {:induction false} ParseRealsOk(t: seq<string>, vs: seq<real>)
    requires |t| == |vs| && forall k :: 0 <= k < |t| ==> ParseReal(t[k]) == Some(vs[k])
    ensures ParseReals(t) == Ok(vs)
  {
    if |t| > 0 {
      assert forall k :: 0 <= k < |t| - 1 ==> t[1..][k] == t[k + 1] && vs[1..][k] == vs[k + 1];
      ParseRealsOk(t[1..], vs[1..]);
      assert vs == [vs[0]] + vs[1..];
    }
  }

  /** A code and nine numbers are read as one record. */
  lemma RecordOfWords(u: int, values: seq<string>, vs: seq<real>, rest: seq<string>, open: bool)
    requires |values| == 9 && |vs| == 9
    requires forall k :: 0 <= k < 9 ==> ParseReal(values[k]) == Some(vs[k])
    ensures ParseRecords([IntText(u)] + values + rest, open) ==
            Prepend([Record(u, GlyphOfReals(vs))], ParseRecords(rest, open))
  {
    var t := [IntText(u)] + values + rest;
    RecordsStep(t, open);
    ParseIntOfInt(u);
    assert t[1..10] == values && t[10..] == rest;
    ParseRealsOk(values, vs);
  }

  const ZERO_NUM: Num := Num(false, 0, [])

  /** The nine numbers of a glyph line after its code. */
  function LineNums(g: JsonGlyph): (ns: seq<Num>)
    requires ValidGlyph(g) && Complete(g)
    ensures |ns| == 9 && forall k :: 0 <= k < 9 ==> ValidNum(ns[k])
  {
    if g.planeBounds.None? then [g.advance, ZERO_NUM, ZERO_NUM, ZERO_NUM, ZERO_NUM, ZERO_NUM, ZERO_NUM, ZERO_NUM, ZERO_NUM]
    else
      var p, q := g.planeBounds.value, g.atlasBounds.value;
      [g.advance, p.left, p.bottom, p.right, p.top, q.left, q.bottom, q.right, q.top]
  }

  function NumTexts(ns: seq<Num>): (r: seq<string>)
    requires forall k :: 0 <= k < |ns| ==> ValidNum(ns[k])
    ensures |r| == |ns| && forall k :: 0 <= k < |ns| ==> r[k] == NumText(ns[k])
  {
    seq(|ns|, k requires 0 <= k < |ns| => NumText(ns[k]))
  }

  function Values(ns: seq<Num>): (r: seq<real>)
    ensures |r| == |ns| && forall k :: 0 <= k < |ns| ==> r[k] == Value(ns[k])
  {
    seq(|ns|, k requires 0 <= k < |ns| => Value(ns[k]))
  }

  lemma ParseNumTexts(ns: seq<Num>)
    requires forall k :: 0 <= k < |ns| ==> ValidNum(ns[k])
    ensures forall k :: 0 <= k < |ns| ==> ParseReal(NumTexts(ns)[k]) == Some(Values(ns)[k])
  {
    forall k | 0 <= k < |ns|
      ensures ParseReal(NumTexts(ns)[k]) == Some(Values(ns)[k])
    {
      ParseRealOfNum(ns[k]);
    }
  }

  /** The words after the code are the numerals of the line's numbers; a
      missing bound is the numeral of zero. */
  lemma LineWordsOfNums(g: JsonGlyph)
    requires ValidGlyph(g) && Complete(g)
    ensures LineWords(g) == [IntText(g.unicode)] + NumTexts(LineNums(g))
  {
    var ns := LineNums(g);
    var r := NumTexts(ns);
    assert r == [r[0], r[1], r[2], r[3], r[4], r[5], r[6], r[7], r[8]];
    if g.planeBounds.None? {
      assert NumText(ZERO_NUM) == "0";
    }
  }

  /** The ten words of a glyph line are read as one record. */
  lemma RecordOfLine(g: JsonGlyph, rest: seq<string>, open: bool)
    requires ValidGlyph(g) && Complete(g)
    ensures ParseRecords(LineWords(g) + rest, open) ==
            Prepend([Record(g.unicode, GlyphOf(g))], ParseRecords(rest, open))
  {
    var ns := LineNums(g);
    LineWordsOfNums(g);
    ParseNumTexts(ns);
    assert Value(ZERO_NUM) == 0.0;
    assert GlyphOfReals(Values(ns)) == GlyphOf(g);
    RecordOfWords(g.unicode, NumTexts(ns), Values(ns), rest, open);
  }

  /** The glyph lines are read as one record each, in order. */
  lemma {:induction false} RecordsOfLines(gs: seq<JsonGlyph>, rest: seq<string>, open: bool)
    requires forall k :: 0 <= k < |gs| ==> ValidGlyph(gs[k]) && Complete(gs[k])
    ensures ParseRecords(GlyphsWords(gs) + rest, open) == Prepend(RecordsOf(gs), ParseRecords(rest, open))
  {
    if |gs| == 0 {
      assert GlyphsWords(gs) + rest == rest;
      PrependNothing(ParseRecords(rest, open));
    } else {
      var front, last := gs[..|gs| - 1], gs[|gs| - 1];
      AppendAssoc(GlyphsWords(front), LineWords(last), rest);
      RecordsOfLines(front, LineWords(last) + rest, open);
      RecordOfLine(last, rest, open);
      PrependAppend(RecordsOf(front), [Record(last.unicode, GlyphOf(last))], ParseRecords(rest, open));
    }
  }

  lemma {:induction false} UpToNulKeeps(s: string)
    requires NoNul(s)
    ensures UpToNul(s) == s && UpToNul(s + "\0") == s
  {
    if |s| > 0 {
      assert (s + "\0")[1..] == s[1..] + "\0";
      UpToNulKeeps(s[1..]);
    } else {
      assert s + "\0" == "\0";
    }
  }

  /** The header words are read as the JSON's header when the range and
      the grid cells are ints. */
  lemma HeaderOfWords(a: JsonAtlas, rest: seq<string>)
    requires ValidAtlas(a)
    ensures ParseHeader(HeaderWords(a) + rest) ==
            if Integral(a.distanceRange) && Integral(a.cellWidth) && Integral(a.cellHeight)
            then Some(HeaderOf(a)) else None
  {
    var t := HeaderWords(a) + rest;
    ParseIntOfNum(a.distanceRange);
    ParseRealOfNum(a.size);
    ParseIntOfNum(a.cellWidth);
    ParseIntOfNum(a.cellHeight);
    assert t[0] == DISTANCE_RANGE && t[1] == NumText(a.distanceRange) && t[2] == EM_SIZE && t[3] == NumText(a.size);
    assert t[4] == GRID_WIDTH && t[5] == NumText(a.cellWidth) && t[6] == GRID_HEIGHT && t[7] == NumText(a.cellHeight);
    assert t[8] == UNICODE;
  }

  /** What the script writes, loaded back, whether the buffer ends at the
      text or at the NUL SDL_LoadFile puts after it: the header of the JSON
      and one record per glyph, in the order of "glyphs", when the range and
      the grid cells are ints; a header error when one of them is a float. */
  lemma RoundTrip(a: JsonAtlas, gs: seq<JsonGlyph>)
    requires ValidAtlas(a)
    requires forall k :: 0 <= k < |gs| ==> ValidGlyph(gs[k]) && Complete(gs[k])
    ensures var text := AtlasTextOf(a, gs);
            var expected := if Integral(a.distanceRange) && Integral(a.cellWidth) && Integral(a.cellHeight)
                            then Ok(Atlas(HeaderOf(a), RecordsOf(gs))) else Err(BadHeader);
            ParseAtlas(UpToNul(text)) == expected && ParseAtlas(UpToNul(text + "\0")) == expected
  {
    var text := AtlasTextOf(a, gs);
    TokensOfText(a, gs);
    UpToNulKeeps(text);
    var t := Tokens(text);
    assert !EndsOpen(text);
    HeaderOfWords(a, GlyphsWords(gs));
    assert t[HEADER_TOKENS..] == GlyphsWords(gs);
    RecordsOfLines(gs, [], false);
    assert GlyphsWords(gs) + [] == GlyphsWords(gs);
    PrependOnEnd(RecordsOf(gs));
  }
}
