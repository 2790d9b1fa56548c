/** The bookkeeping half of src/gl_helper.cpp: what a vertex buffer holds after
    it is made or updated, its index count, and the bounding box of a vertex
    list.  Buffer names, bindings and drawing are GL calls and are not modelled. */
module GlHelper {
  import opened Vectors

  /** The floats of a glm::vec2 array as they lie in memory: x then y per vertex. */
  function Flatten2(v: seq<Vec2>): seq<real>
  {
    if |v| == 0 then [] else [v[0].x, v[0].y] + Flatten2(v[1..])
  }

  /** The floats of a glm::vec4 array as they lie in memory: x, y, z, w per vertex. */
  function Flatten4(v: seq<Vec4>): seq<real>
  {
    if |v| == 0 then [] else [v[0].x, v[0].y, v[0].z, v[0].w] + Flatten4(v[1..])
  }

  /** Vertex i of a vec2 array occupies floats 2i and 2i + 1. */
  lemma {:induction false} Flatten2At(v: seq<Vec2>, i: nat)
    requires i < |v|
    ensures |Flatten2(v)| == 2 * |v|
    ensures Flatten2(v)[2 * i] == v[i].x && Flatten2(v)[2 * i + 1] == v[i].y
  {
    if i > 0 {
      Flatten2At(v[1..], i - 1);
    } else if |v| > 1 {
      Flatten2At(v[1..], 0);
    }
  }

  lemma {:induction false} Flatten2Length(v: seq<Vec2>)
    ensures |Flatten2(v)| == 2 * |v|
  {
    if |v| > 0 {
      Flatten2Length(v[1..]);
    }
  }

  /** Vertex i of a vec4 array occupies floats 4i .. 4i + 3. */
  lemma {:induction false} Flatten4At(v: seq<Vec4>, i: nat)
    requires i < |v|
    ensures |Flatten4(v)| == 4 * |v|
    ensures Flatten4(v)[4 * i] == v[i].x && Flatten4(v)[4 * i + 1] == v[i].y
    ensures Flatten4(v)[4 * i + 2] == v[i].z && Flatten4(v)[4 * i + 3] == v[i].w
  {
    if i > 0 {
      Flatten4At(v[1..], i - 1);
    } else if |v| > 1 {
      Flatten4At(v[1..], 0);
    }
  }

  lemma {:induction false} Flatten4Length(v: seq<Vec4>)
    ensures |Flatten4(v)| == 4 * |v|
  {
    if |v| > 0 {
      Flatten4Length(v[1..]);
    }
  }

  /** A GL vertex buffer and its index buffer: their contents as glBufferData
      stored them, and the index count that glDrawElements is given. */
  class VertexBuffer {
    var vertexData: seq<real>
    var indexData: seq<nat>
    var indexCount: nat

    constructor (vertexData: seq<real>, indexData: seq<nat>)
      ensures this.vertexData == vertexData && this.indexData == indexData
      ensures indexCount == |indexData|
    {
      this.vertexData := vertexData;
      this.indexData := indexData;
      indexCount := |indexData|;
    }

    /** update_vertex for vec4 data.  glBufferSubData at offset 0 overwrites the
        front of a buffer and leaves it alone when the data would not fit; the
        index buffer and the index count change only when an index list is given. */
    method UpdateVertex(v: seq<Vec4>, optionalIdx: seq<nat>)
      modifies this
      ensures vertexData == Overwrite(old(vertexData), Flatten4(v))
      ensures indexData == if |optionalIdx| > 0 then Overwrite(old(indexData), optionalIdx) else old(indexData)
      ensures indexCount == if |optionalIdx| > 0 then |optionalIdx| else old(indexCount)
    {
      vertexData := Overwrite(vertexData, Flatten4(v));
      if |optionalIdx| > 0 {
        indexData := Overwrite(indexData, optionalIdx);
        indexCount := |optionalIdx|;
      }
    }
  }

  /** glBufferSubData(target, 0, |data|, data) on a buffer holding `buffer`. */
  function Overwrite<T>(buffer: seq<T>, data: seq<T>): (r: seq<T>)
    ensures |r| == |buffer|
    ensures |data| <= |buffer| ==> r[..|data|] == data && r[|data|..] == buffer[|data|..]
    ensures |data| > |buffer| ==> r == buffer
  {
    if |data| <= |buffer| then data + buffer[|data|..] else buffer
  }

  /** make_vertex_buffer(const float *, int, index): the first vertexCount floats
      and all of the indices are uploaded, and every index is drawn. */
  method MakeVertexBuffer(vertex: seq<real>, vertexCount: nat, index: seq<nat>) returns (v: VertexBuffer)
    requires vertexCount <= |vertex|
    ensures fresh(v)
    ensures v.vertexData == vertex[..vertexCount] && v.indexData == index && v.indexCount == |index|
  {
    v := new VertexBuffer(vertex[..vertexCount], index);
  }

  /** make_vertex_buffer for vec2 vertices: 2n floats, which are exactly the n vertices. */
  method MakeVertexBuffer2(vertex: seq<Vec2>, index: seq<nat>) returns (v: VertexBuffer)
    ensures fresh(v)
    ensures |v.vertexData| == 2 * |vertex| && v.vertexData == Flatten2(vertex)
    ensures v.indexData == index && v.indexCount == |index|
  {
    Flatten2Length(vertex);
    v := MakeVertexBuffer(Flatten2(vertex), 2 * |vertex|, index);
  }

  /** make_vertex_buffer for vec4 vertices: 4n floats, which are exactly the n vertices. */
  method MakeVertexBuffer4(vertex: seq<Vec4>, index: seq<nat>) returns (v: VertexBuffer)
    ensures fresh(v)
    ensures |v.vertexData| == 4 * |vertex| && v.vertexData == Flatten4(vertex)
    ensures v.indexData == index && v.indexCount == |index|
  {
    Flatten4Length(vertex);
    v := MakeVertexBuffer(Flatten4(vertex), 4 * |vertex|, index);
  }

  /** An axis-aligned box, start being the minimum corner. */
  datatype BBox = BBox(start: Vec2, end: Vec2)

  /** std::min and std::max: the first argument wins a tie. */
  function Min(a: real, b: real): (r: real)
    ensures r <= a && r <= b && (r == a || r == b)
  {
    if b < a then b else a
  }

  function Max(a: real, b: real): (r: real)
    ensures a <= r && b <= r && (r == a || r == b)
  {
    if a < b then b else a
  }

  /** bbox: the smallest box holding the (x, y) of every vertex.  The scan
      starts from vertex 0, so the list must not be empty. */
  method BoundingBox(vertex: seq<Vec4>) returns (box: BBox)
    requires |vertex| > 0
    ensures forall k :: 0 <= k < |vertex| ==>
              box.start.x <= vertex[k].x <= box.end.x && box.start.y <= vertex[k].y <= box.end.y
    ensures exists k :: 0 <= k < |vertex| && box.start.x == vertex[k].x
    ensures exists k :: 0 <= k < |vertex| && box.start.y == vertex[k].y
    ensures exists k :: 0 <= k < |vertex| && box.end.x == vertex[k].x
    ensures exists k :: 0 <= k < |vertex| && box.end.y == vertex[k].y
    ensures |vertex| == 1 ==> box == BBox(Vec2(vertex[0].x, vertex[0].y), Vec2(vertex[0].x, vertex[0].y))
  {
    var x0, x1 := vertex[0].x, vertex[0].x;
    var y0, y1 := vertex[0].y, vertex[0].y;
    for i := 0 to |vertex|
      invariant forall k :: 0 <= k < i ==> x0 <= vertex[k].x <= x1 && y0 <= vertex[k].y <= y1
      invariant exists k :: 0 <= k < |vertex| && x0 == vertex[k].x
      invariant exists k :: 0 <= k < |vertex| && x1 == vertex[k].x
      invariant exists k :: 0 <= k < |vertex| && y0 == vertex[k].y
      invariant exists k :: 0 <= k < |vertex| && y1 == vertex[k].y
    {
      var v := vertex[i];
      x0 := Min(x0, v.x);
      x1 := Max(x1, v.x);
      y0 := Min(y0, v.y);
      y1 := Max(y1, v.y);
    }
    box := BBox(Vec2(x0, y0), Vec2(x1, y1));
  }
}
