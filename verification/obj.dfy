/** wavefront_export: the pool is filled, grouped, then written as Wavefront OBJ statements,
    one per record, after a comment line. */
module Wavefront {
  import opened Records
  import opened Buckets
  import opened RecordPool
  import opened Export

  /** One line of the .obj file. Numbers are kept as the values printed (`%g` and `%d`). */
  datatype ObjLine =
    | Header                          // "# Goxel <version>"
    | VLine(pos: Vec3)                // "v x y z"
    | VnLine(dir: Vec3)               // "vn x y z"
    | FLine(vs: Index4, vns: Index4)  // "f v//vn v//vn v//vn v//vn"

  /** The statement the writer loop prints for one record; a vertex's colour is not written. */
  function ObjLineOf(l: Line): (o: ObjLine)
    ensures Is(o, TagOf(l)) && Rank(o) == Score(l)
  {
    match l
    case Vertex(p, _) => VLine(p)
    case Normal(d) => VnLine(d)
    case Face(vs, vns) => FLine(vs, vns)
  }

  /** Whether o is a statement of kind t ("v", "vn" or "f"); the comment is none of them. */
  predicate Is(o: ObjLine, t: Tag)
  {
    match o
    case Header => false
    case VLine(_) => t == V
    case VnLine(_) => t == VN
    case FLine(_, _) => t == F
  }

  /** The place of a line in the file layout: the comment, then v, vn and f statements. */
  function Rank(o: ObjLine): int
  {
    match o
    case Header => -1
    case VLine(_) => 0
    case VnLine(_) => 1
    case FLine(_, _) => 2
  }

  /** The statements written for the records of s, in order. */
  function ObjBody(s: seq<Line>): (out: seq<ObjLine>)
    ensures |out| == |s|
  {
    if s == [] then [] else ObjBody(s[..|s| - 1]) + [ObjLineOf(s[|s| - 1])]
  }

  lemma {:induction false} ObjBodyAt(s: seq<Line>, i: int)
    requires 0 <= i < |s|
    ensures ObjBody(s)[i] == ObjLineOf(s[i])
  {
    if i < |s| - 1 {
      ObjBodyAt(s[..|s| - 1], i);
    }
  }

  lemma ObjBodySnoc(s: seq<Line>, x: Line)
    ensures ObjBody(s + [x]) == ObjBody(s) + [ObjLineOf(x)]
  {
    assert (s + [x])[..|s|] == s;
  }

  /** The statements of kind t in file order: OBJ numbers each kind from 1 in this order. */
  function Statements(out: seq<ObjLine>, t: Tag): (r: seq<ObjLine>)
    ensures |r| <= |out|
  {
    if out == [] then [] else Statements(out[..|out| - 1], t) + (if Is(out[|out| - 1], t) then [out[|out| - 1]] else [])
  }

  lemma {:induction false} StatementsAppend(a: seq<ObjLine>, b: seq<ObjLine>, t: Tag)
    ensures Statements(a + b, t) == Statements(a, t) + Statements(b, t)
    decreases |b|
  {
    if b == [] {
      assert a + b == a;
    } else {
      var init, last := b[..|b| - 1], b[|b| - 1];
      assert (a + b)[..|a + b| - 1] == a + init && (a + b)[|a + b| - 1] == last;
      StatementsAppend(a, init, t);
    }
  }

  /** Writing commutes with picking one kind: the t statements of the body are the statements
      of the t records, in pool order. */
  lemma {:induction false} StatementsOfBody(s: seq<Line>, t: Tag)
    ensures Statements(ObjBody(s), t) == ObjBody(Bucket(s, t))
  {
    if s != [] {
      var init, last := s[..|s| - 1], s[|s| - 1];
      StatementsOfBody(init, t);
      assert ObjBody(s) == ObjBody(init) + [ObjLineOf(last)];
      StatementsAppend(ObjBody(init), [ObjLineOf(last)], t);
      assert [ObjLineOf(last)][..0] == [];
      assert Is(ObjLineOf(last), t) <==> TagOf(last) == t;
      if TagOf(last) == t {
        assert Bucket(s, t) == Bucket(init, t) + [last];
        ObjBodySnoc(Bucket(init, t), last);
      } else {
        assert Bucket(s, t) == Bucket(init, t);
      }
    }
  }

  /** The comment first, then statements by kind: v, vn, f. */
  ghost predicate ObjLayout(out: seq<ObjLine>)
  {
    |out| >= 1 && out[0] == Header &&
    (forall i :: 1 <= i < |out| ==> Rank(out[i]) >= 0) &&
    (forall i, j :: 1 <= i < j < |out| ==> Rank(out[i]) <= Rank(out[j]))
  }

  /** Face indices vs/vns, read the OBJ way (the k-th "v" and k-th "vn" statements, counting
      from 1), name the world positions and the normals of the four corners of q. */
  ghost predicate Names(out: seq<ObjLine>, vs: Index4, vns: Index4, world: (Offset, Vec3) -> Vec3, pos: Offset, q: Quad)
  {
    forall j :: 0 <= j < 4 ==>
      1 <= vs[j] <= |Statements(out, V)| && Statements(out, V)[vs[j] - 1] == VLine(world(pos, q[j].pos)) &&
      1 <= vns[j] <= |Statements(out, VN)| && Statements(out, VN)[vns[j] - 1] == VnLine(q[j].normal)
  }

  /** Every quad of the input is drawn by an "f" statement naming its corners. */
  ghost predicate ObjCovers(out: seq<ObjLine>, blocks: seq<Block>, world: (Offset, Vec3) -> Vec3)
  {
    forall b, q :: b in blocks && q in b.quads ==>
      exists vs, vns :: FLine(vs, vns) in out && Names(out, vs, vns, world, b.pos, q)
  }

  /** Where one statement comes from: a corner position or normal of some quad of the input,
      or, for a face, some quad whose corners it names. */
  ghost predicate LineFrom(o: ObjLine, out: seq<ObjLine>, blocks: seq<Block>, world: (Offset, Vec3) -> Vec3)
  {
    match o
    case Header => true
    case VLine(p) => exists b: Block, q: Quad, j: int :: b in blocks && q in b.quads && 0 <= j < 4 && p == world(b.pos, q[j].pos)
    case VnLine(d) => exists b: Block, q: Quad, j: int :: b in blocks && q in b.quads && 0 <= j < 4 && d == q[j].normal
    case FLine(vs, vns) => exists b, q :: b in blocks && q in b.quads && Names(out, vs, vns, world, b.pos, q)
  }

  /** Nothing is written that the input does not account for. */
  ghost predicate ObjSound(out: seq<ObjLine>, blocks: seq<Block>, world: (Offset, Vec3) -> Vec3)
  {
    forall o :: o in out ==> LineFrom(o, out, blocks, world)
  }

  /** The writer loop: the comment, then one statement per record in pool order. */
  method WriteObj(pool: Pool) returns (out: seq<ObjLine>)
    ensures out == [Header] + ObjBody(pool.lines)
  {
    var s := pool.lines;
    out := [Header];
    var i := 0;
    while i < |s|
      invariant 0 <= i <= |s|
      invariant out == [Header] + ObjBody(s[..i])
    {
      var l := s[i];
      assert s[..i + 1] == s[..i] + [l];
      ObjBodySnoc(s[..i], l);
      if l.Vertex? {
        out := out + [VLine(l.pos)];
      }
      if l.Normal? {
        out := out + [VnLine(l.dir)];
      }
      if l.Face? {
        out := out + [FLine(l.vs, l.vns)];
      }
      i := i + 1;
    }
    assert s[..i] == s;
  }

  /** The statements of each kind in the file are those of the records of that kind, in
      insertion order: grouping keeps each kind's order. */
  lemma ObjStatements(s: seq<Line>, t: Tag)
    ensures Statements([Header] + ObjBody(Grouped(s)), t) == ObjBody(Bucket(s, t))
  {
    StatementsAppend([Header], ObjBody(Grouped(s)), t);
    assert [Header][..0] == [];
    StatementsOfBody(Grouped(s), t);
    GroupedStable(s, t);
  }

  lemma ObjLayoutOf(g: seq<Line>)
    requires SortedByCmp(g)
    ensures ObjLayout([Header] + ObjBody(g))
  {
    var out := [Header] + ObjBody(g);
    forall i | 1 <= i < |out|
      ensures out[i] == ObjLineOf(g[i - 1]) && Rank(out[i]) == Score(g[i - 1])
    {
      ObjBodyAt(g, i - 1);
    }
  }

  /** A face whose ordinals name quad q's records names, once written, q's corners. */
  lemma RefersNames(s: seq<Line>, out: seq<ObjLine>, vs: Index4, vns: Index4, world: (Offset, Vec3) -> Vec3, pos: Offset, q: Quad)
    requires Refers(s, vs, vns, Style(false, world), pos, q)
    requires Statements(out, V) == ObjBody(Bucket(s, V)) && Statements(out, VN) == ObjBody(Bucket(s, VN))
    ensures Names(out, vs, vns, world, pos, q)
  {
    forall j | 0 <= j < 4
      ensures Statements(out, V)[vs[j] - 1] == VLine(world(pos, q[j].pos))
      ensures Statements(out, VN)[vns[j] - 1] == VnLine(q[j].normal)
    {
      ObjBodyAt(Bucket(s, V), vs[j] - 1);
      ObjBodyAt(Bucket(s, VN), vns[j] - 1);
    }
  }

  lemma InBody(g: seq<Line>, o: ObjLine) returns (l: Line)
    requires o in ObjBody(g)
    ensures l in g && ObjLineOf(l) == o
  {
    var i :| 0 <= i < |ObjBody(g)| && ObjBody(g)[i] == o;
    ObjBodyAt(g, i);
    l := g[i];
  }

  /** Every record of the pool is written, whatever its place after grouping. */
  lemma Written(s: seq<Line>, l: Line)
    requires l in s
    ensures ObjLineOf(l) in [Header] + ObjBody(Grouped(s))
  {
    assert l in Grouped(s) by {
      BucketMembers(s, TagOf(l));
    }
    var i :| 0 <= i < |Grouped(s)| && Grouped(s)[i] == l;
    ObjBodyAt(Grouped(s), i);
    assert ([Header] + ObjBody(Grouped(s)))[i + 1] == ObjLineOf(l);
  }

  lemma ObjCoversOf(s: seq<Line>, world: (Offset, Vec3) -> Vec3, blocks: seq<Block>)
    requires forall b, q :: b in blocks && q in b.quads ==> Drawn(s, Style(false, world), b.pos, q)
    ensures ObjCovers([Header] + ObjBody(Grouped(s)), blocks, world)
  {
    var out := [Header] + ObjBody(Grouped(s));
    ObjStatements(s, V);
    ObjStatements(s, VN);
    forall b, q | b in blocks && q in b.quads
      ensures exists vs, vns :: FLine(vs, vns) in out && Names(out, vs, vns, world, b.pos, q)
    {
      var vs, vns :| Face(vs, vns) in s && Refers(s, vs, vns, Style(false, world), b.pos, q);
      Written(s, Face(vs, vns));
      RefersNames(s, out, vs, vns, world, b.pos, q);
    }
  }

  lemma ObjSoundOf(s: seq<Line>, world: (Offset, Vec3) -> Vec3, blocks: seq<Block>)
    requires FromBlocks(s, Style(false, world), blocks)
    ensures ObjSound([Header] + ObjBody(Grouped(s)), blocks, world)
  {
    var out := [Header] + ObjBody(Grouped(s));
    ObjStatements(s, V);
    ObjStatements(s, VN);
    GroupedPermutation(s);
    forall o | o in out
      ensures LineFrom(o, out, blocks, world)
    {
      if o != Header {
        assert o in ObjBody(Grouped(s));
        var l := InBody(Grouped(s), o);
        assert l in multiset(s);
        assert Origin(s, l, Style(false, world), blocks);
        if l.Face? {
          var b, q :| b in blocks && q in b.quads && Refers(s, l.vs, l.vns, Style(false, world), b.pos, q);
          RefersNames(s, out, l.vs, l.vns, world, b.pos, q);
        }
      }
    }
  }

  /** No statement appears twice. */
  ghost predicate Distinct(xs: seq<ObjLine>)
  {
    forall i, j :: 0 <= i < j < |xs| ==> xs[i] != xs[j]
  }

  /** Two uncoloured records that print the same statement are the same record. */
  lemma SameStatement(a: Line, b: Line)
    requires a.Vertex? ==> a.color == Black
    requires b.Vertex? ==> b.color == Black
    requires ObjLineOf(a) == ObjLineOf(b)
    ensures a == b
  {
  }

  /** The pool holds each record once, and OBJ vertex records carry no colour, so each
      statement of a kind is written once. */
  lemma ObjDistinct(s: seq<Line>, world: (Offset, Vec3) -> Vec3, blocks: seq<Block>, t: Tag)
    requires NoDup(s) && FromBlocks(s, Style(false, world), blocks)
    ensures Distinct(ObjBody(Bucket(s, t)))
  {
    var b := Bucket(s, t);
    BucketNoDup(s, t);
    BucketMembers(s, t);
    forall i, j | 0 <= i < j < |b|
      ensures ObjBody(b)[i] != ObjBody(b)[j]
    {
      ObjBodyAt(b, i);
      ObjBodyAt(b, j);
      assert Origin(s, b[i], Style(false, world), blocks) && Origin(s, b[j], Style(false, world), blocks);
      if ObjLineOf(b[i]) == ObjLineOf(b[j]) {
        SameStatement(b[i], b[j]);
      }
    }
  }

  /** wavefront_export, from the blocks' quads to the lines of the file. */
  method WavefrontExport(blocks: seq<Block>, world: (Offset, Vec3) -> Vec3) returns (out: seq<ObjLine>)
    ensures ObjLayout(out)
    ensures ObjCovers(out, blocks, world)
    ensures ObjSound(out, blocks, world)
    ensures forall t :: Distinct(Statements(out, t))
    ensures (forall b :: b in blocks ==> b.quads == []) ==> out == [Header]
    ensures out == [Header] + ObjBody(Grouped(FillSeq([], Style(false, world), blocks)))
  {
    var st := Style(false, world);
    var pool := Fill(blocks, st);
    ghost var s := pool.lines;
    pool.Group();
    out := WriteObj(pool);
    GroupedFacts(s);
    ObjLayoutOf(pool.lines);
    ObjCoversOf(s, world, blocks);
    ObjSoundOf(s, world, blocks);
    RecordsNeedQuads(s, st, blocks);
    forall t | true
      ensures Distinct(Statements(out, t))
    {
      ObjStatements(s, t);
      ObjDistinct(s, world, blocks, t);
    }
  }
}
