/** The text format of a font atlas, as FontAtlas::load in src/font.cpp reads
    it with a std::stringstream: whitespace-separated tokens, a header of four
    labelled numbers and the label `unicode`, then one record of ten numbers
    per glyph.  This module states what a successful parse yields and which
    inputs fail. */
module AtlasText {
  import opened Wrappers

  // ---------------------------------------------------------------------------
  // Tokens

  /** std::isspace in the C locale. */
  predicate IsSpace(c: char)
  {
    c == ' ' || c == '\t' || c == '\n' || c == '\r' || c == '\U{000B}' || c == '\U{000C}'
  }

  /** A token: what `operator>>` reads between whitespace. */
  predicate Word(t: string)
  {
    |t| > 0 && forall k :: 0 <= k < |t| ==> !IsSpace(t[k])
  }

  /** The length of the run of non-space characters s starts with. */
  function WordLength(s: string): (n: nat)
    ensures n <= |s|
    ensures forall k :: 0 <= k < n ==> !IsSpace(s[k])
    ensures n < |s| ==> IsSpace(s[n])
  {
    if |s| == 0 || IsSpace(s[0]) then 0 else 1 + WordLength(s[1..])
  }

  /** The tokens of s, in order. */
  function Tokens(s: string): seq<string>
    decreases |s|
  {
    if |s| == 0 then []
    else if IsSpace(s[0]) then Tokens(s[1..])
    else
      var n := WordLength(s);
      [s[..n]] + Tokens(s[n..])
  }

  /** Every token is a word: non-empty, with no whitespace in it. */
  lemma {:induction false} TokensAreWords(s: string)
    ensures forall k :: 0 <= k < |Tokens(s)| ==> Word(Tokens(s)[k])
    decreases |s|
  {
    if |s| > 0 {
      if IsSpace(s[0]) {
        TokensAreWords(s[1..]);
      } else {
        var n := WordLength(s);
        TokensAreWords(s[n..]);
      }
    }
  }

  lemma {:induction false} WordLengthOfWord(w: string, rest: string)
    requires Word(w) && (|rest| == 0 || IsSpace(rest[0]))
    ensures WordLength(w + rest) == |w|
    decreases |w|
  {
    assert (w + rest)[0] == w[0];
    if |w| > 1 {
      assert (w + rest)[1..] == w[1..] + rest;
      WordLengthOfWord(w[1..], rest);
    } else {
      assert (w + rest)[1..] == rest;
    }
  }

  /** A word followed by whitespace (or by nothing) is read as one token. */
  lemma TokensOfWord(w: string, rest: string)
    requires Word(w) && (|rest| == 0 || IsSpace(rest[0]))
    ensures Tokens(w + rest) == [w] + Tokens(rest)
  {
    WordLengthOfWord(w, rest);
    assert (w + rest)[..|w|] == w;
    assert (w + rest)[|w|..] == rest;
  }

  /** Leading whitespace is skipped. */
  lemma {:induction false} TokensOfSpaces(sp: string, rest: string)
    requires forall k :: 0 <= k < |sp| ==> IsSpace(sp[k])
    ensures Tokens(sp + rest) == Tokens(rest)
    decreases |sp|
  {
    if |sp| > 0 {
      var s := sp + rest;
      assert s[0] == sp[0] && IsSpace(s[0]);
      assert s[1..] == sp[1..] + rest;
      assert Tokens(s) == Tokens(s[1..]);
      TokensOfSpaces(sp[1..], rest);
    } else {
      assert sp + rest == rest;
    }
  }

  /** s is empty or ends in whitespace: the token before it is complete. */
  predicate EndsSpaced(s: string)
  {
    |s| == 0 || IsSpace(s[|s| - 1])
  }

  lemma {:induction false} WordLengthPrefix(a: string, b: string)
    requires WordLength(a) < |a|
    ensures WordLength(a + b) == WordLength(a)
    decreases |a|
  {
    assert (a + b)[0] == a[0];
    if !IsSpace(a[0]) {
      assert (a + b)[1..] == a[1..] + b;
      WordLengthPrefix(a[1..], b);
    }
  }

  /** Text that ends in whitespace is read token by token on its own: the
      tokens of a + b are those of a followed by those of b. */
  lemma {:induction false} TokensConcat(a: string, b: string)
    requires EndsSpaced(a)
    ensures Tokens(a + b) == Tokens(a) + Tokens(b)
    decreases |a|
  {
    if |a| == 0 {
      assert a + b == b;
    } else if IsSpace(a[0]) {
      assert (a + b)[0] == a[0];
      assert (a + b)[1..] == a[1..] + b;
      TokensConcat(a[1..], b);
    } else {
      var n := WordLength(a);
      assert (a + b)[0] == a[0];
      WordLengthPrefix(a, b);
      assert (a + b)[..n] == a[..n];
      assert (a + b)[n..] == a[n..] + b;
      TokensConcat(a[n..], b);
    }
  }

  /** std::string(data) on a NUL-terminated buffer: the characters before the
      first NUL. */
  function UpToNul(data: string): (r: string)
    ensures |r| <= |data| && r == data[..|r|]
    ensures forall k :: 0 <= k < |r| ==> r[k] != '\0'
    ensures |r| < |data| ==> data[|r|] == '\0'
  {
    if |data| == 0 || data[0] == '\0' then "" else [data[0]] + UpToNul(data[1..])
  }

  // ---------------------------------------------------------------------------
  // Numerals

  predicate IsDigit(c: char)
  {
    '0' <= c <= '9'
  }

  predicate AllDigits(s: string)
  {
    forall k :: 0 <= k < |s| ==> IsDigit(s[k])
  }

  function DigitValue(c: char): (d: nat)
    requires IsDigit(c)
    ensures d < 10
  {
    (c as int) - ('0' as int)
  }

  /** The value of a run of decimal digits, most significant first. */
  function DigitsValue(s: string): nat
    requires AllDigits(s)
  {
    if |s| == 0 then 0 else DigitsValue(s[..|s| - 1]) * 10 + DigitValue(s[|s| - 1])
  }

  /** The value of the digits after a decimal point. */
  function FractionValue(s: string): real
    requires AllDigits(s)
  {
    if |s| == 0 then 0.0 else (DigitValue(s[0]) as real + FractionValue(s[1..])) / 10.0
  }

  /** The length of the run of digits s starts with. */
  function DigitRun(s: string): (n: nat)
    ensures n <= |s| && AllDigits(s[..n])
    ensures n < |s| ==> !IsDigit(s[n])
  {
    if |s| == 0 || !IsDigit(s[0]) then 0
    else
      var n := 1 + DigitRun(s[1..]);
      assert s[..n] == [s[0]] + s[1..][..n - 1];
      n
  }

  /** An optional sign: whether the numeral is negative, and the rest. */
  function Unsigned(t: string): (r: (bool, string))
    ensures |r.1| <= |t|
  {
    if |t| > 0 && (t[0] == '-' || t[0] == '+') then (t[0] == '-', t[1..]) else (false, t)
  }

  /** `ss >> int` on a whole token: a sign, then one or more digits. */
  function ParseInt(t: string): (r: Option<int>)
    ensures r.Some? ==> |t| > 0
  {
    var (negative, body) := Unsigned(t);
    if |body| > 0 && AllDigits(body) then
      var v: int := DigitsValue(body);
      Some(if negative then -v else v)
    else None
  }

  /** `ss >> float` on a whole token: a sign, digits, and an optional point
      followed by more digits, with at least one digit in all.  Exponents are
      not part of this model. */
  function ParseReal(t: string): (r: Option<real>)
    ensures r.Some? ==> |t| > 0
  {
    var (negative, body) := Unsigned(t);
    var n := DigitRun(body);
    var whole := DigitsValue(body[..n]) as real;
    var rest := body[n..];
    if |rest| == 0 then
      if n > 0 then Some(if negative then -whole else whole) else None
    else if rest[0] == '.' && AllDigits(rest[1..]) && (n > 0 || |rest| > 1) then
      var v := whole + FractionValue(rest[1..]);
      Some(if negative then -v else v)
    else None
  }

  // ---------------------------------------------------------------------------
  // The atlas

  /** One glyph: advance and plane bounds in em units, atlas bounds in pixels. */
  datatype Glyph = Glyph(advance: real,
                         planeLeft: real, planeBottom: real, planeRight: real, planeTop: real,
                         atlasLeft: real, atlasBottom: real, atlasRight: real, atlasTop: real)

  /** A value-initialised Glyph, what std::map::operator[] stores for a missing code. */
  const ZERO_GLYPH: Glyph := Glyph(0.0, 0.0, 0.0, 0.0, 0.0, 0.0, 0.0, 0.0, 0.0)

  datatype Record = Record(unicode: int, glyph: Glyph)

  datatype Header = Header(distanceRange: int, emSize: real, gridWidth: int, gridHeight: int)

  /** What a successful load reads: the header values and the glyph records in
      file order. */
  datatype Atlas = Atlas(header: Header, records: seq<Record>)

  /** Why a load fails.  In the source a header mismatch trips an assert, a
      malformed number makes the record loop spin without reaching the end
      of the stream, and a cut-off record stores fields that were never read. */
  datatype ParseError = BadHeader | BadNumber(token: string) | Truncated

  /** The header labels, in the order they must appear. */
  const DISTANCE_RANGE: string := "distance_range"
  const EM_SIZE: string := "em_size"
  const GRID_WIDTH: string := "grid_width"
  const GRID_HEIGHT: string := "grid_height"
  const UNICODE: string := "unicode"

  /** The number of header tokens: four labels with their values, then `unicode`. */
  const HEADER_TOKENS: nat := 9

  /** The header: each label in its place, each value a number of the field's type. */
  function ParseHeader(t: seq<string>): (r: Option<Header>)
    ensures r.Some? ==> |t| >= HEADER_TOKENS && t[0] == DISTANCE_RANGE && t[2] == EM_SIZE &&
                        t[4] == GRID_WIDTH && t[6] == GRID_HEIGHT && t[8] == UNICODE
    ensures r.Some? ==> ParseInt(t[1]) == Some(r.value.distanceRange) && ParseReal(t[3]) == Some(r.value.emSize) &&
                        ParseInt(t[5]) == Some(r.value.gridWidth) && ParseInt(t[7]) == Some(r.value.gridHeight)
  {
    if |t| < HEADER_TOKENS || t[0] != DISTANCE_RANGE || t[2] != EM_SIZE || t[4] != GRID_WIDTH ||
       t[6] != GRID_HEIGHT || t[8] != UNICODE then None
    else
      match (ParseInt(t[1]), ParseReal(t[3]), ParseInt(t[5]), ParseInt(t[7]))
      case (Some(dr), Some(em), Some(gw), Some(gh)) => Some(Header(dr, em, gw, gh))
      case _ => None
  }

  /** The nine numbers after a glyph's code, or the first token that is not one. */
  function ParseReals(t: seq<string>): (r: Result<seq<real>, ParseError>)
    ensures r.Ok? ==> |r.value| == |t| && forall k :: 0 <= k < |t| ==> ParseReal(t[k]) == Some(r.value[k])
    ensures r.Err? ==> r.error.BadNumber? && exists k :: 0 <= k < |t| && ParseReal(t[k]).None?
  {
    if |t| == 0 then Ok([])
    else
      match ParseReal(t[0])
      case None => Err(BadNumber(t[0]))
      case Some(v) =>
        match ParseReals(t[1..])
        case Err(e) => Err(e)
        case Ok(vs) =>
          assert forall k :: 1 <= k < |t| ==> t[k] == t[1..][k - 1];
          Ok([v] + vs)
  }

  function GlyphOfReals(v: seq<real>): Glyph
    requires |v| == 9
  {
    Glyph(v[0], v[1], v[2], v[3], v[4], v[5], v[6], v[7], v[8])
  }

  /** The records after the header.  The loop stops when reading a code meets
      the end of the stream: when no token is left, or when the last token is
      a code that ends the text (`open`, no whitespace after it). */
  function ParseRecords(t: seq<string>, open: bool): Result<seq<Record>, ParseError>
    decreases |t|
  {
    if |t| == 0 then Ok([])
    else
      match ParseInt(t[0])
      case None => Err(BadNumber(t[0]))
      case Some(u) =>
        if |t| == 1 && open then Ok([])
        else if |t| < 10 then Err(Truncated)
        else
          match ParseReals(t[1..10])
          case Err(e) => Err(e)
          case Ok(v) =>
            match ParseRecords(t[10..], open)
            case Err(e) => Err(e)
            case Ok(rest) => Ok([Record(u, GlyphOfReals(v))] + rest)
  }

  /** The records parsed so far, put in front of the result for the rest. */
  function Prepend(done: seq<Record>, r: Result<seq<Record>, ParseError>): Result<seq<Record>, ParseError>
  {
    match r
    case Ok(rest) => Ok(done + rest)
    case Err(e) => Err(e)
  }

  /** One turn of the record loop, read off ParseRecords: how the result for
      t follows from its first token, its next nine and the result for the
      tokens after them. */
  lemma RecordsStep(t: seq<string>, open: bool)
    requires |t| > 0
    ensures ParseInt(t[0]).None? ==> ParseRecords(t, open).Err?
    ensures ParseInt(t[0]).Some? && |t| == 1 && open ==> ParseRecords(t, open) == Ok([])
    ensures ParseInt(t[0]).Some? && !(|t| == 1 && open) && |t| < 10 ==> ParseRecords(t, open).Err?
    ensures ParseInt(t[0]).Some? && |t| >= 10 && ParseReals(t[1..10]).Err? ==> ParseRecords(t, open).Err?
    ensures ParseInt(t[0]).Some? && |t| >= 10 && ParseReals(t[1..10]).Ok? ==>
              var g := GlyphOfReals(ParseReals(t[1..10]).value);
              ParseRecords(t, open) == Prepend([Record(ParseInt(t[0]).value, g)], ParseRecords(t[10..], open))
  {
  }

  lemma PrependNothing(r: Result<seq<Record>, ParseError>)
    ensures Prepend([], r) == r
  {
    if r.Ok? {
      assert [] + r.value == r.value;
    }
  }

  lemma PrependOnEnd(done: seq<Record>)
    ensures Prepend(done, Ok([])) == Ok(done)
  {
    assert done + [] == done;
  }

  lemma PrependAppend(a: seq<Record>, b: seq<Record>, r: Result<seq<Record>, ParseError>)
    ensures Prepend(a, Prepend(b, r)) == Prepend(a + b, r)
  {
    if r.Ok? {
      assert a + (b + r.value) == (a + b) + r.value;
    }
  }

  /** The last character of the text is not whitespace, so reading the last
      token meets the end of the stream. */
  function EndsOpen(s: string): bool
  {
    |s| > 0 && !IsSpace(s[|s| - 1])
  }

  /** The parse of the loaded text, from the token list on. */
  function ParseTokens(t: seq<string>, open: bool): Result<Atlas, ParseError>
  {
    match ParseHeader(t)
    case None => Err(BadHeader)
    case Some(h) =>
      match ParseRecords(t[HEADER_TOKENS..], open)
      case Err(e) => Err(e)
      case Ok(rs) => Ok(Atlas(h, rs))
  }

  /** The parse of the text of a loaded atlas file. */
  function ParseAtlas(text: string): Result<Atlas, ParseError>
  {
    ParseTokens(Tokens(text), EndsOpen(text))
  }

  /** `glyph[unicode] = g` for each record in order. */
  function Insert(m: map<int, Glyph>, rs: seq<Record>): map<int, Glyph>
    decreases |rs|
  {
    if |rs| == 0 then m else Insert(m[rs[0].unicode := rs[0].glyph], rs[1..])
  }

  lemma {:induction false} InsertSnoc(m: map<int, Glyph>, rs: seq<Record>, r: Record)
    ensures Insert(m, rs + [r]) == Insert(m, rs)[r.unicode := r.glyph]
    decreases |rs|
  {
    if |rs| > 0 {
      assert (rs + [r])[1..] == rs[1..] + [r];
      InsertSnoc(m[rs[0].unicode := rs[0].glyph], rs[1..], r);
    }
  }

  /** A code the records do not mention keeps what the map held for it. */
  lemma {:induction false} InsertAbsent(m: map<int, Glyph>, rs: seq<Record>, u: int)
    requires forall k :: 0 <= k < |rs| ==> rs[k].unicode != u
    ensures u in Insert(m, rs) <==> u in m
    ensures u in m ==> Insert(m, rs)[u] == m[u]
    decreases |rs|
  {
    if |rs| > 0 {
      assert forall k :: 0 <= k < |rs[1..]| ==> rs[1..][k] == rs[k + 1];
      InsertAbsent(m[rs[0].unicode := rs[0].glyph], rs[1..], u);
    }
  }

  /** A later record for the same code overwrites the earlier: the map holds
      the last record of every code the records mention. */
  lemma {:induction false} InsertLast(m: map<int, Glyph>, rs: seq<Record>, k: nat)
    requires k < |rs| && forall j :: k < j < |rs| ==> rs[j].unicode != rs[k].unicode
    ensures rs[k].unicode in Insert(m, rs) && Insert(m, rs)[rs[k].unicode] == rs[k].glyph
    decreases |rs|
  {
    assert forall j :: 0 <= j < |rs[1..]| ==> rs[1..][j] == rs[j + 1];
    if k == 0 {
      InsertAbsent(m[rs[0].unicode := rs[0].glyph], rs[1..], rs[0].unicode);
    } else {
      InsertLast(m[rs[0].unicode := rs[0].glyph], rs[1..], k - 1);
    }
  }
}
