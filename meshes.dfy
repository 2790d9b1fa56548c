/** Indexed triangle meshes (the VertexIndex struct) and the index pattern of a
    quad made of two triangles, which both the outline ribbon and the text
    builder emit once per quad. */
module Meshes {
  import opened Vectors

  /** A vertex list and a GL_TRIANGLES index list into it. */
  datatype VertexIndex = VertexIndex(vertex: seq<Vec2>, index: seq<nat>)

  /** Every three indices name one triangle and every index names a vertex. */
  predicate Triangles(index: seq<nat>, vertexCount: nat)
  {
    |index| % 3 == 0 && forall p :: 0 <= p < |index| ==> index[p] < vertexCount
  }

  /** Two triangles fanned from corner 0: (0, 1, 2) and (0, 2, 3). */
  const QUAD: seq<nat> := [0, 1, 2, 0, 2, 3]

  /** A six-entry index pattern with `base` added to every entry. */
  function Shift(pattern: seq<nat>, base: nat): seq<nat>
    requires |pattern| == 6
  {
    [base + pattern[0], base + pattern[1], base + pattern[2],
     base + pattern[3], base + pattern[4], base + pattern[5]]
  }

  /** Concatenation is associative; stated once for any element type, so that
      proofs about long point lists need not compare them element by element. */
  lemma AppendAssoc<T>(a: seq<T>, b: seq<T>, c: seq<T>)
    ensures (a + b) + c == a + (b + c)
  {
  }

  lemma AppendEmpty<T>(a: seq<T>)
    ensures a + [] == a
  {
  }

  /** Reading a concatenation, stated once for any element type. */
  lemma AppendAt<T>(a: seq<T>, b: seq<T>, p: nat)
    requires p < |a| + |b|
    ensures (a + b)[p] == if p < |a| then a[p] else b[p - |a|]
  {
  }

  lemma ShiftAt(pattern: seq<nat>, base: nat, c: nat)
    requires |pattern| == 6 && c < 6
    ensures |Shift(pattern, base)| == 6 && Shift(pattern, base)[c] == base + pattern[c]
  {
  }

  /** The indices of k consecutive quads, each the six-entry `pattern` over its
      own four vertices: quad r owns vertices first + 4r .. first + 4r + 3. */
  function QuadIndices(pattern: seq<nat>, first: nat, k: nat): seq<nat>
    requires |pattern| == 6
  {
    if k == 0 then [] else QuadIndices(pattern, first, k - 1) + Shift(pattern, first + 4 * (k - 1))
  }

  /** One more quad, its first vertex `base`; `next` and `base` are passed in so
      that callers can name k + 1 and first + 4k however their context writes them. */
  lemma QuadIndicesSnoc(pattern: seq<nat>, first: nat, k: nat, next: nat, base: nat)
    requires |pattern| == 6 && next == k + 1 && base == first + 4 * k
    ensures QuadIndices(pattern, first, next) == QuadIndices(pattern, first, k) + Shift(pattern, base)
  {
  }

  lemma {:induction false} QuadIndicesLength(pattern: seq<nat>, first: nat, k: nat)
    requires |pattern| == 6
    ensures |QuadIndices(pattern, first, k)| == 6 * k
  {
    if k > 0 {
      QuadIndicesLength(pattern, first, k - 1);
    }
  }

  /** Quad r's six indices are first + 4r + pattern. */
  lemma {:induction false} QuadIndicesAt(pattern: seq<nat>, first: nat, k: nat, r: nat, c: nat)
    requires |pattern| == 6 && r < k && c < 6
    ensures |QuadIndices(pattern, first, k)| == 6 * k
    ensures QuadIndices(pattern, first, k)[6 * r + c] == first + 4 * r + pattern[c]
  {
    QuadIndicesLength(pattern, first, k);
    QuadIndicesLength(pattern, first, k - 1);
    var prev, last := QuadIndices(pattern, first, k - 1), Shift(pattern, first + 4 * (k - 1));
    AppendAt(prev, last, 6 * r + c);
    if r < k - 1 {
      QuadIndicesAt(pattern, first, k - 1, r, c);
    } else {
      ShiftAt(pattern, first + 4 * r, c);
    }
  }

  /** A pattern that names only the quad's own four corners. */
  predicate QuadPattern(pattern: seq<nat>)
  {
    |pattern| == 6 && forall c :: 0 <= c < 6 ==> pattern[c] < 4
  }

  /** Every index of k quads lies among their own 4k vertices. */
  lemma QuadIndicesRange(pattern: seq<nat>, first: nat, k: nat, p: nat)
    requires QuadPattern(pattern) && p < 6 * k
    ensures |QuadIndices(pattern, first, k)| == 6 * k
    ensures first <= QuadIndices(pattern, first, k)[p] < first + 4 * k
  {
    QuadIndicesAt(pattern, first, k, p / 6, p % 6);
  }

  lemma QuadIndicesBound(pattern: seq<nat>, first: nat, k: nat)
    requires QuadPattern(pattern)
    ensures |QuadIndices(pattern, first, k)| == 6 * k
    ensures Triangles(QuadIndices(pattern, first, k), first + 4 * k)
  {
    QuadIndicesLength(pattern, first, k);
    forall p | 0 <= p < 6 * k
      ensures QuadIndices(pattern, first, k)[p] < first + 4 * k
    {
      QuadIndicesRange(pattern, first, k, p);
    }
  }
}
