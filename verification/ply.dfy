/** ply_export: the same pool as wavefront_export, with coloured vertex records, written as an
    ASCII PLY file: a 13-line header declaring the vertex and face elements, then one line
    per vertex record and one per face record. Normal records are pooled but not written. */
module Ply {
  import opened Records
  import opened Buckets
  import opened RecordPool
  import opened Export

  /** One line of the .ply file. Numbers are kept as the values printed (`%g` and `%d`). */
  datatype PlyLine =
    | Magic                                 // "ply"
    | Format                                // "format ascii 1.0"
    | Comment                               // "comment Generated from Goxel <version>"
    | ElementVertex(count: int)             // "element vertex <count>"
    | Property(kind: string, name: string)  // "property <kind> <name>"
    | ElementFace(count: int)               // "element face <count>"
    | PropertyList                          // "property list uchar int vertex_index"
    | EndHeader                             // "end_header"
    | VertexData(pos: Vec3, color: Rgb)     // "x y z red green blue"
    | FaceData(idx: Index4)                 // "4 a b c d"

  /** The number of header lines before the first data line. */
  const HeaderSize: nat := 13

  /** The header, declaring nv vertices (x, y, z, red, green, blue) and nf faces. */
  function PlyHeader(nv: int, nf: int): (h: seq<PlyLine>)
    ensures |h| == HeaderSize && h[3] == ElementVertex(nv) && h[10] == ElementFace(nf)
  {
    [Magic, Format, Comment,
     ElementVertex(nv),
     Property("float", "x"), Property("float", "y"), Property("float", "z"),
     Property("uchar", "red"), Property("uchar", "green"), Property("uchar", "blue"),
     ElementFace(nf),
     PropertyList,
     EndHeader]
  }

  /** The 1-based vertex ordinals of a face record as PLY's 0-based vertex indices. */
  function ZeroBased(vs: Index4): (idx: Index4)
    ensures forall j :: 0 <= j < 4 ==> idx[j] + 1 == vs[j]
  {
    [vs[0] - 1, vs[1] - 1, vs[2] - 1, vs[3] - 1]
  }

  /** What the writer loop prints for one record: nothing for a normal. */
  function PlyLinesOf(l: Line): (r: seq<PlyLine>)
    ensures |r| == if TagOf(l) == VN then 0 else 1
  {
    match l
    case Vertex(p, c) => [VertexData(p, c)]
    case Normal(_) => []
    case Face(vs, _) => [FaceData(ZeroBased(vs))]
  }

  /** The data lines written for the records of s, in order. */
  function PlyBody(s: seq<Line>): (r: seq<PlyLine>)
    ensures |r| <= |s|
  {
    if s == [] then [] else PlyBody(s[..|s| - 1]) + PlyLinesOf(s[|s| - 1])
  }

  lemma {:induction false} PlyBodyAppend(a: seq<Line>, b: seq<Line>)
    ensures PlyBody(a + b) == PlyBody(a) + PlyBody(b)
    decreases |b|
  {
    if b == [] {
      assert a + b == a;
    } else {
      var init, last := b[..|b| - 1], b[|b| - 1];
      assert (a + b)[..|a + b| - 1] == a + init && (a + b)[|a + b| - 1] == last;
      PlyBodyAppend(a, init);
    }
  }

  /** Vertex or face records are written one line each, in order. */
  lemma {:induction false} PlyOneEach(b: seq<Line>)
    requires forall k :: 0 <= k < |b| ==> TagOf(b[k]) != VN
    ensures |PlyBody(b)| == |b|
    ensures forall k :: 0 <= k < |b| ==> [PlyBody(b)[k]] == PlyLinesOf(b[k])
  {
    if b != [] {
      PlyOneEach(b[..|b| - 1]);
    }
  }

  /** Normal records write nothing. */
  lemma {:induction false} PlyNormals(b: seq<Line>)
    requires forall k :: 0 <= k < |b| ==> TagOf(b[k]) == VN
    ensures PlyBody(b) == []
  {
    if b != [] {
      PlyNormals(b[..|b| - 1]);
    }
  }

  lemma BucketTags(s: seq<Line>, t: Tag)
    ensures forall k :: 0 <= k < |Bucket(s, t)| ==> TagOf(Bucket(s, t)[k]) == t
  {
    BucketMembers(s, t);
    forall k | 0 <= k < |Bucket(s, t)|
      ensures TagOf(Bucket(s, t)[k]) == t
    {
      assert Bucket(s, t)[k] in Bucket(s, t);
    }
  }

  /** The vertex count the header declares (0 when there is no such line). */
  function DeclaredVertices(out: seq<PlyLine>): int
  {
    if |out| > 3 && out[3].ElementVertex? then out[3].count else 0
  }

  /** The face count the header declares (0 when there is no such line). */
  function DeclaredFaces(out: seq<PlyLine>): int
  {
    if |out| > 10 && out[10].ElementFace? then out[10].count else 0
  }

  /** The header declares exactly the data lines that follow it: its vertex count of vertex
      lines, then its face count of face lines. */
  ghost predicate PlyConsistent(out: seq<PlyLine>)
  {
    var nv, nf := DeclaredVertices(out), DeclaredFaces(out);
    0 <= nv && 0 <= nf && |out| == HeaderSize + nv + nf &&
    out[..HeaderSize] == PlyHeader(nv, nf) &&
    (forall i :: HeaderSize <= i < HeaderSize + nv ==> out[i].VertexData?) &&
    (forall i :: HeaderSize + nv <= i < |out| ==> out[i].FaceData?)
  }

  /** The 0-based indices idx, read the PLY way (the idx[j]-th line of the vertex element),
      name the world positions and colours of the four corners of q. */
  ghost predicate PlyNames(out: seq<PlyLine>, idx: Index4, world: (Offset, Vec3) -> Vec3, pos: Offset, q: Quad)
  {
    forall j :: 0 <= j < 4 ==>
      0 <= idx[j] < DeclaredVertices(out) && HeaderSize + idx[j] < |out| &&
      out[HeaderSize + idx[j]] == VertexData(world(pos, q[j].pos), q[j].color)
  }

  /** Every quad of the input is drawn by a face line naming its corners. */
  ghost predicate PlyCovers(out: seq<PlyLine>, blocks: seq<Block>, world: (Offset, Vec3) -> Vec3)
  {
    forall b, q :: b in blocks && q in b.quads ==>
      exists idx :: FaceData(idx) in out && PlyNames(out, idx, world, b.pos, q)
  }

  /** Where one line comes from: a data line from a corner or a quad of the input. */
  ghost predicate PlyLineFrom(o: PlyLine, out: seq<PlyLine>, blocks: seq<Block>, world: (Offset, Vec3) -> Vec3)
  {
    match o
    case VertexData(p, c) =>
      exists b: Block, q: Quad, j: int :: b in blocks && q in b.quads && 0 <= j < 4 && p == world(b.pos, q[j].pos) && c == q[j].color
    case FaceData(idx) =>
      exists b: Block, q: Quad :: b in blocks && q in b.quads && PlyNames(out, idx, world, b.pos, q)
    case _ => true
  }

  /** Nothing is written that the input does not account for. */
  ghost predicate PlySound(out: seq<PlyLine>, blocks: seq<Block>, world: (Offset, Vec3) -> Vec3)
  {
    forall o :: o in out ==> PlyLineFrom(o, out, blocks, world)
  }

  /** The writer: the header with lines_count of "v " and "f ", then the data lines. */
  method WritePly(pool: Pool) returns (out: seq<PlyLine>)
    ensures out == PlyHeader(|Bucket(pool.lines, V)|, |Bucket(pool.lines, F)|) + PlyBody(pool.lines)
  {
    var nv := pool.Count(V);
    var nf := pool.Count(F);
    var s := pool.lines;
    var body := [];
    var i := 0;
    while i < |s|
      invariant 0 <= i <= |s|
      invariant body == PlyBody(s[..i])
    {
      var l := s[i];
      assert PlyBody(s[..i + 1]) == body + PlyLinesOf(l) by {
        assert s[..i + 1][..i] == s[..i];
      }
      if l.Vertex? {
        body := body + [VertexData(l.pos, l.color)];
      }
      if l.Face? {
        body := body + [FaceData([l.vs[0] - 1, l.vs[1] - 1, l.vs[2] - 1, l.vs[3] - 1])];
      }
      i := i + 1;
    }
    assert s[..i] == s;
    out := PlyHeader(nv, nf) + body;
  }

  /** Written from the grouped pool, the data lines are those of the vertex records, then
      those of the face records, each in insertion order; normals write nothing. */
  lemma PlyBodyGrouped(s: seq<Line>)
    ensures PlyBody(Grouped(s)) == PlyBody(Bucket(s, V)) + PlyBody(Bucket(s, F))
    ensures |PlyBody(Bucket(s, V))| == |Bucket(s, V)| && |PlyBody(Bucket(s, F))| == |Bucket(s, F)|
  {
    var bv, bvn, bf := Bucket(s, V), Bucket(s, VN), Bucket(s, F);
    assert PlyBody(bvn) == [] by {
      BucketTags(s, VN);
      PlyNormals(bvn);
    }
    assert |PlyBody(bv)| == |bv| by {
      BucketTags(s, V);
      PlyOneEach(bv);
    }
    assert |PlyBody(bf)| == |bf| by {
      BucketTags(s, F);
      PlyOneEach(bf);
    }
    assert PlyBody(bv + bvn) == PlyBody(bv) by {
      PlyBodyAppend(bv, bvn);
    }
    assert Grouped(s) == (bv + bvn) + bf;
    PlyBodyAppend(bv + bvn, bf);
  }

  /** out holds, after a header declaring them, the lines of the records of bv, then those
      of the records of bf. */
  ghost predicate Shaped(out: seq<PlyLine>, bv: seq<Line>, bf: seq<Line>)
  {
    |out| == HeaderSize + |bv| + |bf| && DeclaredVertices(out) == |bv| && DeclaredFaces(out) == |bf| &&
    out[HeaderSize..] == PlyBody(bv) + PlyBody(bf)
  }

  /** The line of the k-th vertex record of s is the k-th line after the header. */
  lemma VertexLineAt(s: seq<Line>, out: seq<PlyLine>, k: int)
    requires Shaped(out, Bucket(s, V), Bucket(s, F)) && 0 <= k < |Bucket(s, V)|
    ensures [out[HeaderSize + k]] == PlyLinesOf(Bucket(s, V)[k])
  {
    var bv, bf := Bucket(s, V), Bucket(s, F);
    BucketTags(s, V);
    PlyOneEach(bv);
    assert out[HeaderSize + k] == out[HeaderSize..][k];
  }

  /** The line of the k-th face record of s follows the lines of all the vertex records. */
  lemma FaceLineAt(s: seq<Line>, out: seq<PlyLine>, k: int)
    requires Shaped(out, Bucket(s, V), Bucket(s, F)) && 0 <= k < |Bucket(s, F)|
    ensures [out[HeaderSize + |Bucket(s, V)| + k]] == PlyLinesOf(Bucket(s, F)[k])
  {
    var bv, bf := Bucket(s, V), Bucket(s, F);
    BucketTags(s, V);
    BucketTags(s, F);
    PlyOneEach(bv);
    PlyOneEach(bf);
    assert out[HeaderSize + |bv| + k] == out[HeaderSize..][|bv| + k];
  }

  /** The lines of vertex records, then those of face records: one vertex line each, then
      one face line each. */
  lemma BodyKinds(bv: seq<Line>, bf: seq<Line>)
    requires forall k :: 0 <= k < |bv| ==> TagOf(bv[k]) == V
    requires forall k :: 0 <= k < |bf| ==> TagOf(bf[k]) == F
    ensures |PlyBody(bv) + PlyBody(bf)| == |bv| + |bf|
    ensures forall i :: 0 <= i < |bv| ==> (PlyBody(bv) + PlyBody(bf))[i].VertexData?
    ensures forall i :: |bv| <= i < |bv| + |bf| ==> (PlyBody(bv) + PlyBody(bf))[i].FaceData?
  {
    PlyOneEach(bv);
    PlyOneEach(bf);
    var body := PlyBody(bv) + PlyBody(bf);
    forall i | 0 <= i < |bv|
      ensures body[i].VertexData?
    {
      assert [PlyBody(bv)[i]] == PlyLinesOf(bv[i]);
    }
    forall i | |bv| <= i < |bv| + |bf|
      ensures body[i].FaceData?
    {
      assert body[i] == PlyBody(bf)[i - |bv|];
      assert [PlyBody(bf)[i - |bv|]] == PlyLinesOf(bf[i - |bv|]);
    }
  }

  /** A file made of a header h declaring bv and bf, then their lines, is consistent and
      shaped. */
  lemma LayoutOf(h: seq<PlyLine>, bv: seq<Line>, bf: seq<Line>, out: seq<PlyLine>)
    requires h == PlyHeader(|bv|, |bf|) && out == h + (PlyBody(bv) + PlyBody(bf))
    requires forall k :: 0 <= k < |bv| ==> TagOf(bv[k]) == V
    requires forall k :: 0 <= k < |bf| ==> TagOf(bf[k]) == F
    ensures PlyConsistent(out) && Shaped(out, bv, bf)
  {
    var body := PlyBody(bv) + PlyBody(bf);
    BodyKinds(bv, bf);
    assert out[..HeaderSize] == h;
    assert out[HeaderSize..] == body;
    forall i | HeaderSize <= i < |out|
      ensures out[i] == body[i - HeaderSize]
    {
    }
  }

  /** The file written from the grouped pool: the header declaring the vertex and face
      records, then their lines. */
  lemma PlyShape(s: seq<Line>, out: seq<PlyLine>)
    requires out == PlyHeader(|Bucket(Grouped(s), V)|, |Bucket(Grouped(s), F)|) + PlyBody(Grouped(s))
    ensures PlyConsistent(out) && Shaped(out, Bucket(s, V), Bucket(s, F))
  {
    var bv, bf := Bucket(s, V), Bucket(s, F);
    var h := PlyHeader(|bv|, |bf|);
    assert out == h + (PlyBody(bv) + PlyBody(bf)) by {
      GroupedStable(s, V);
      GroupedStable(s, F);
      PlyBodyGrouped(s);
    }
    BucketTags(s, V);
    BucketTags(s, F);
    LayoutOf(h, bv, bf, out);
  }

  /** A face whose vertex ordinals name quad q's vertex records names, once written, q's
      corners through 0-based indices. */
  lemma VerticesWritten(s: seq<Line>, out: seq<PlyLine>, vs: Index4, world: (Offset, Vec3) -> Vec3, pos: Offset, q: Quad)
    requires RefersVertices(s, vs, Style(true, world), pos, q)
    requires Shaped(out, Bucket(s, V), Bucket(s, F))
    ensures PlyNames(out, ZeroBased(vs), world, pos, q)
  {
    var idx := ZeroBased(vs);
    forall j | 0 <= j < 4
      ensures 0 <= idx[j] < DeclaredVertices(out) && HeaderSize + idx[j] < |out|
      ensures out[HeaderSize + idx[j]] == VertexData(world(pos, q[j].pos), q[j].color)
    {
      assert idx[j] == vs[j] - 1;
      VertexLineAt(s, out, idx[j]);
    }
  }

  lemma PlyCoversOf(s: seq<Line>, out: seq<PlyLine>, world: (Offset, Vec3) -> Vec3, blocks: seq<Block>)
    requires Shaped(out, Bucket(s, V), Bucket(s, F))
    requires forall b, q :: b in blocks && q in b.quads ==> Drawn(s, Style(true, world), b.pos, q)
    ensures PlyCovers(out, blocks, world)
  {
    var bv, bf := Bucket(s, V), Bucket(s, F);
    BucketMembers(s, F);
    forall b, q | b in blocks && q in b.quads
      ensures exists idx :: FaceData(idx) in out && PlyNames(out, idx, world, b.pos, q)
    {
      var vs, vns :| Face(vs, vns) in s && Refers(s, vs, vns, Style(true, world), b.pos, q);
      assert Face(vs, vns) in bf;
      var k :| 0 <= k < |bf| && bf[k] == Face(vs, vns);
      FaceLineAt(s, out, k);
      VerticesWritten(s, out, vs, world, b.pos, q);
    }
  }

  /** The line written for a vertex record comes from a corner of the input. */
  lemma VertexLineFrom(s: seq<Line>, l: Line, o: PlyLine, out: seq<PlyLine>, world: (Offset, Vec3) -> Vec3, blocks: seq<Block>)
    requires l.Vertex? && Origin(s, l, Style(true, world), blocks) && [o] == PlyLinesOf(l)
    ensures PlyLineFrom(o, out, blocks, world)
  {
    var b: Block, q: Quad, j: int :| b in blocks && q in b.quads && 0 <= j < 4 && l == VertexRec(Style(true, world), b.pos, q, j);
    assert o == VertexData(world(b.pos, q[j].pos), q[j].color);
  }

  /** The line written for a face record names the corners of a quad of the input. */
  lemma FaceLineFrom(s: seq<Line>, l: Line, o: PlyLine, out: seq<PlyLine>, world: (Offset, Vec3) -> Vec3, blocks: seq<Block>)
    requires l.Face? && Origin(s, l, Style(true, world), blocks) && [o] == PlyLinesOf(l)
    requires Shaped(out, Bucket(s, V), Bucket(s, F))
    ensures PlyLineFrom(o, out, blocks, world)
  {
    var b, q :| b in blocks && q in b.quads && Refers(s, l.vs, l.vns, Style(true, world), b.pos, q);
    VerticesWritten(s, out, l.vs, world, b.pos, q);
    assert o == FaceData(ZeroBased(l.vs));
  }

  /** A header line comes from nowhere in particular. */
  lemma HeaderLineFrom(out: seq<PlyLine>, i: int, world: (Offset, Vec3) -> Vec3, blocks: seq<Block>)
    requires PlyConsistent(out) && 0 <= i < HeaderSize
    ensures PlyLineFrom(out[i], out, blocks, world)
  {
    assert out[i] == out[..HeaderSize][i];
  }

  /** The k-th line after the header comes from a corner of the input. */
  lemma VertexLineSound(s: seq<Line>, out: seq<PlyLine>, k: int, world: (Offset, Vec3) -> Vec3, blocks: seq<Block>)
    requires FromBlocks(s, Style(true, world), blocks) && Shaped(out, Bucket(s, V), Bucket(s, F))
    requires 0 <= k < |Bucket(s, V)|
    ensures PlyLineFrom(out[HeaderSize + k], out, blocks, world)
  {
    var l := Bucket(s, V)[k];
    assert l.Vertex? && Origin(s, l, Style(true, world), blocks) by {
      assert l in Bucket(s, V);
      BucketMembers(s, V);
    }
    VertexLineAt(s, out, k);
    VertexLineFrom(s, l, out[HeaderSize + k], out, world, blocks);
  }

  /** The line after the header and the vertex lines, k further on, names the corners of a
      quad of the input. */
  lemma FaceLineSound(s: seq<Line>, out: seq<PlyLine>, k: int, world: (Offset, Vec3) -> Vec3, blocks: seq<Block>)
    requires FromBlocks(s, Style(true, world), blocks) && Shaped(out, Bucket(s, V), Bucket(s, F))
    requires 0 <= k < |Bucket(s, F)|
    ensures PlyLineFrom(out[HeaderSize + |Bucket(s, V)| + k], out, blocks, world)
  {
    var l := Bucket(s, F)[k];
    assert l.Face? && Origin(s, l, Style(true, world), blocks) by {
      assert l in Bucket(s, F);
      BucketMembers(s, F);
    }
    FaceLineAt(s, out, k);
    FaceLineFrom(s, l, out[HeaderSize + |Bucket(s, V)| + k], out, world, blocks);
  }

  lemma PlySoundOf(s: seq<Line>, out: seq<PlyLine>, world: (Offset, Vec3) -> Vec3, blocks: seq<Block>)
    requires FromBlocks(s, Style(true, world), blocks)
    requires PlyConsistent(out) && Shaped(out, Bucket(s, V), Bucket(s, F))
    ensures PlySound(out, blocks, world)
  {
    var nv := |Bucket(s, V)|;
    forall o | o in out
      ensures PlyLineFrom(o, out, blocks, world)
    {
      var i :| 0 <= i < |out| && out[i] == o;
      if i < HeaderSize {
        HeaderLineFrom(out, i, world, blocks);
      } else if i < HeaderSize + nv {
        VertexLineSound(s, out, i - HeaderSize, world, blocks);
      } else {
        FaceLineSound(s, out, i - HeaderSize - nv, world, blocks);
      }
    }
  }

  /** The pool holds each record once and a vertex line carries every field of its record,
      so no vertex line is written twice. */
  lemma PlyVertexDistinct(s: seq<Line>, out: seq<PlyLine>)
    requires NoDup(s) && Shaped(out, Bucket(s, V), Bucket(s, F))
    ensures forall i, j :: HeaderSize <= i < j < HeaderSize + DeclaredVertices(out) ==> out[i] != out[j]
  {
    var bv := Bucket(s, V);
    BucketNoDup(s, V);
    BucketTags(s, V);
    forall i, j | HeaderSize <= i < j < HeaderSize + DeclaredVertices(out)
      ensures out[i] != out[j]
    {
      var a, b := i - HeaderSize, j - HeaderSize;
      VertexLineAt(s, out, a);
      VertexLineAt(s, out, b);
      assert bv[a] != bv[b];
      assert bv[a].Vertex? && bv[b].Vertex?;
    }
  }

  /** ply_export, from the blocks' quads to the lines of the file. */
  method PlyExport(blocks: seq<Block>, world: (Offset, Vec3) -> Vec3) returns (out: seq<PlyLine>)
    ensures PlyConsistent(out)
    ensures PlyCovers(out, blocks, world)
    ensures PlySound(out, blocks, world)
    ensures (forall b :: b in blocks ==> b.quads == []) ==> out == PlyHeader(0, 0)
    ensures forall i, j :: HeaderSize <= i < j < HeaderSize + DeclaredVertices(out) ==> out[i] != out[j]
    ensures var g := Grouped(FillSeq([], Style(true, world), blocks));
      out == PlyHeader(|Bucket(g, V)|, |Bucket(g, F)|) + PlyBody(g)
  {
    var st := Style(true, world);
    var pool := Fill(blocks, st);
    ghost var s := pool.lines;
    pool.Group();
    out := WritePly(pool);
    PlyShape(s, out);
    PlyCoversOf(s, out, world, blocks);
    PlySoundOf(s, out, world, blocks);
    PlyVertexDistinct(s, out);
    RecordsNeedQuads(s, st, blocks);
  }
}
