/** The pool-building loop that wavefront_export and ply_export share: for every block and
    every quad of it, four vertex records, four normal records, then one face record holding
    the eight ordinals those insertions returned. */
module Export {
  import opened Records
  import opened Buckets
  import opened RecordPool

  /** The integer voxel-grid position of a block (`block->pos`). */
  datatype Offset = Offset(x: int, y: int, z: int)

  /** One corner as the voxel mesher writes it: block-local position, normal and colour. */
  datatype Corner = Corner(pos: Vec3, normal: Vec3, color: Rgb)

  const NoCorner: Corner := Corner(Vec3(0, 0, 0), Vec3(0, 0, 0), Black)

  /** The four corners of one visible voxel face. */
  type Quad = q: seq<Corner> | |q| == 4 witness [NoCorner, NoCorner, NoCorner, NoCorner]

  /** A block with the quads the mesher produced for it. */
  datatype Block = Block(pos: Offset, quads: seq<Quad>)

  /** What distinguishes the two exporters: whether vertex records carry the corner colour
      (ply_export) or are left uncoloured (wavefront_export), and the block-to-world transform
      both apply to corner positions. */
  datatype Style = Style(colored: bool, world: (Offset, Vec3) -> Vec3)

  /** The vertex record built for corner j of quad q in the block at pos. */
  function VertexRec(st: Style, pos: Offset, q: Quad, j: nat): (r: Line)
    requires j < 4
    ensures TagOf(r) == V && r.pos == st.world(pos, q[j].pos)
    ensures !st.colored ==> r.color == Black
  {
    Vertex(st.world(pos, q[j].pos), if st.colored then q[j].color else Black)
  }

  /** The normal record built for corner j of q; normals are not transformed. */
  function NormalRec(q: Quad, j: nat): (r: Line)
    requires j < 4
    ensures TagOf(r) == VN && r.dir == q[j].normal
  {
    Normal(q[j].normal)
  }

  /** The face indices vs name, through the vertex ordinals of s, the four vertex records of
      quad q. */
  ghost predicate RefersVertices(s: seq<Line>, vs: Index4, st: Style, pos: Offset, q: Quad)
  {
    forall j :: 0 <= j < 4 ==>
      1 <= vs[j] <= |Bucket(s, V)| && Bucket(s, V)[vs[j] - 1] == VertexRec(st, pos, q, j)
  }

  /** The face indices vns name, through the normal ordinals of s, the four normal records
      of quad q. */
  ghost predicate RefersNormals(s: seq<Line>, vns: Index4, q: Quad)
  {
    forall j :: 0 <= j < 4 ==>
      1 <= vns[j] <= |Bucket(s, VN)| && Bucket(s, VN)[vns[j] - 1] == NormalRec(q, j)
  }

  /** A face record Face(vs, vns) names exactly the eight corner records of quad q. */
  ghost predicate Refers(s: seq<Line>, vs: Index4, vns: Index4, st: Style, pos: Offset, q: Quad)
  {
    RefersVertices(s, vs, st, pos, q) && RefersNormals(s, vns, q)
  }

  /** Where a pool record comes from: a vertex or normal from some corner of some quad of the
      input, a face from some quad whose corner records it names. */
  ghost predicate Origin(s: seq<Line>, l: Line, st: Style, blocks: seq<Block>)
  {
    match l
    case Vertex(_, _) =>
      exists b, q, j :: b in blocks && q in b.quads && 0 <= j < 4 && l == VertexRec(st, b.pos, q, j)
    case Normal(_) =>
      exists b, q, j :: b in blocks && q in b.quads && 0 <= j < 4 && l == NormalRec(q, j)
    case Face(vs, vns) =>
      exists b, q :: b in blocks && q in b.quads && Refers(s, vs, vns, st, b.pos, q)
  }

  /** Every record of the pool comes from the input. */
  ghost predicate FromBlocks(s: seq<Line>, st: Style, blocks: seq<Block>)
  {
    forall l :: l in s ==> Origin(s, l, st, blocks)
  }

  /** The pool holds a face record for quad q that names q's corner records. */
  ghost predicate Drawn(s: seq<Line>, st: Style, pos: Offset, q: Quad)
  {
    exists vs, vns :: Face(vs, vns) in s && Refers(s, vs, vns, st, pos, q)
  }

  /** A quad placed in the world: the block offset it was meshed at, and its corners. */
  datatype Placed = Placed(pos: Offset, quad: Quad)

  /** The invariant of the export loop, given the quads done so far. */
  ghost predicate Filling(s: seq<Line>, st: Style, blocks: seq<Block>, done: seq<Placed>)
  {
    FromBlocks(s, st, blocks) && forall p :: p in done ==> Drawn(s, st, p.pos, p.quad)
  }

  /** Inserting a record only extends the per-tag buckets, so references stay valid. */
  lemma RefersInsert(s: seq<Line>, x: Line, vs: Index4, vns: Index4, st: Style, pos: Offset, q: Quad)
    requires Refers(s, vs, vns, st, pos, q)
    ensures Refers(Insert(s, x), vs, vns, st, pos, q)
  {
    InsertBuckets(s, x, V);
    InsertBuckets(s, x, VN);
  }

  lemma OriginInsert(s: seq<Line>, x: Line, l: Line, st: Style, blocks: seq<Block>)
    requires Origin(s, l, st, blocks)
    ensures Origin(Insert(s, x), l, st, blocks)
  {
    if l.Face? {
      var b, q :| b in blocks && q in b.quads && Refers(s, l.vs, l.vns, st, b.pos, q);
      RefersInsert(s, x, l.vs, l.vns, st, b.pos, q);
    }
  }

  lemma DrawnInsert(s: seq<Line>, x: Line, st: Style, pos: Offset, q: Quad)
    requires Drawn(s, st, pos, q)
    ensures Drawn(Insert(s, x), st, pos, q)
  {
    var vs, vns :| Face(vs, vns) in s && Refers(s, vs, vns, st, pos, q);
    RefersInsert(s, x, vs, vns, st, pos, q);
    assert Face(vs, vns) in Insert(s, x);
  }

  /** Adding a record that comes from the input keeps the loop invariant. */
  lemma FillingInsert(s: seq<Line>, x: Line, st: Style, blocks: seq<Block>, done: seq<Placed>)
    requires Filling(s, st, blocks, done) && Origin(s, x, st, blocks)
    ensures Filling(Insert(s, x), st, blocks, done)
  {
    forall l | l in Insert(s, x)
      ensures Origin(Insert(s, x), l, st, blocks)
    {
      OriginInsert(s, x, l, st, blocks);
    }
    forall p | p in done
      ensures Drawn(Insert(s, x), st, p.pos, p.quad)
    {
      DrawnInsert(s, x, st, p.pos, p.quad);
    }
  }

  /** The pool after lines_add of each record of xs in turn. */
  function InsertAll(s: seq<Line>, xs: seq<Line>): seq<Line>
    decreases |xs|
  {
    if xs == [] then s else Insert(InsertAll(s, xs[..|xs| - 1]), xs[|xs| - 1])
  }

  /** Further insertions keep every record already present, and its ordinal. */
  lemma {:induction false} InsertAllKeeps(s: seq<Line>, xs: seq<Line>, y: Line)
    requires y in s
    ensures y in InsertAll(s, xs) && Lookup(InsertAll(s, xs), y) == Lookup(s, y)
    decreases |xs|
  {
    if xs != [] {
      var init, last := xs[..|xs| - 1], xs[|xs| - 1];
      InsertAllKeeps(s, init, y);
      InsertKeepsLookup(InsertAll(s, init), last, y);
    }
  }

  lemma ResolvedKept(s: seq<Line>, xs: seq<Line>, recs: seq<Line>, rs: seq<int>)
    requires |rs| == |recs| && Resolved(s, recs, rs, |recs|)
    ensures Resolved(InsertAll(s, xs), recs, rs, |recs|)
  {
    forall k | 0 <= k < |recs|
      ensures recs[k] in InsertAll(s, xs) && rs[k] == Lookup(InsertAll(s, xs), recs[k])
    {
      InsertAllKeeps(s, xs, recs[k]);
    }
  }

  /** Inserting vertex and normal records that come from the input keeps the loop invariant. */
  lemma {:induction false} FillingInsertAll(s: seq<Line>, xs: seq<Line>, st: Style, blocks: seq<Block>, done: seq<Placed>)
    requires Filling(s, st, blocks, done)
    requires forall k :: 0 <= k < |xs| ==> !xs[k].Face? && Origin(s, xs[k], st, blocks)
    ensures Filling(InsertAll(s, xs), st, blocks, done)
    decreases |xs|
  {
    if xs != [] {
      var init, last := xs[..|xs| - 1], xs[|xs| - 1];
      FillingInsertAll(s, init, st, blocks, done);
      assert Origin(InsertAll(s, init), last, st, blocks);
      FillingInsert(InsertAll(s, init), last, st, blocks, done);
    }
  }

  /** The first n records of recs are in s and rs holds their ordinals. */
  ghost predicate Resolved(s: seq<Line>, recs: seq<Line>, rs: seq<int>, n: nat)
    requires n <= |recs| && n <= |rs|
  {
    forall k :: 0 <= k < n ==> recs[k] in s && rs[k] == Lookup(s, recs[k])
  }

  /** One step of a corner loop: adding record j and keeping its ordinal r extends both the
      insertions done and the ordinals held, and leaves the ordinals already held valid. */
  lemma CornerStep(s0: seq<Line>, s: seq<Line>, recs: seq<Line>, rs: seq<int>, j: nat, r: int)
    requires j < |recs| && |rs| == |recs|
    requires s == InsertAll(s0, recs[..j]) && Resolved(s, recs, rs, j)
    requires r == Lookup(Insert(s, recs[j]), recs[j])
    ensures Insert(s, recs[j]) == InsertAll(s0, recs[..j + 1])
    ensures Resolved(Insert(s, recs[j]), recs, rs[j := r], j + 1)
  {
    assert recs[..j + 1][..j] == recs[..j];
    forall k | 0 <= k < j
      ensures rs[k] == Lookup(Insert(s, recs[j]), recs[k])
    {
      InsertKeepsLookup(s, recs[j], recs[k]);
    }
  }

  /** One corner loop of the quad body ("Put the vertices", "Put the normals"): lines_add
      each of the four records in turn and keep the ordinal it returns. */
  method PutCorners(pool: Pool, recs: seq<Line>) returns (rs: Index4)
    requires |recs| == 4 && pool.Valid()
    modifies pool
    ensures pool.Valid() && pool.lines == InsertAll(old(pool.lines), recs)
    ensures Resolved(pool.lines, recs, rs, 4)
  {
    ghost var s0 := pool.lines;
    rs := [0, 0, 0, 0];
    for j := 0 to 4
      invariant pool.Valid() && pool.lines == InsertAll(s0, recs[..j])
      invariant Resolved(pool.lines, recs, rs, j)
    {
      ghost var s := pool.lines;
      var r := pool.Add(recs[j]);
      CornerStep(s0, s, recs, rs, j, r);
      rs := rs[j := r];
    }
    assert recs[..4] == recs;
  }

  /** The four vertex records of q, corner by corner. */
  function VertexRecs(st: Style, pos: Offset, q: Quad): (r: seq<Line>)
    ensures |r| == 4 && forall k :: 0 <= k < 4 ==> r[k] == VertexRec(st, pos, q, k)
  {
    [VertexRec(st, pos, q, 0), VertexRec(st, pos, q, 1), VertexRec(st, pos, q, 2), VertexRec(st, pos, q, 3)]
  }

  /** The four normal records of q, corner by corner. */
  function NormalRecs(q: Quad): (r: seq<Line>)
    ensures |r| == 4 && forall k :: 0 <= k < 4 ==> r[k] == NormalRec(q, k)
  {
    [NormalRec(q, 0), NormalRec(q, 1), NormalRec(q, 2), NormalRec(q, 3)]
  }

  lemma CornerOrigins(s: seq<Line>, st: Style, b: Block, q: Quad, blocks: seq<Block>)
    requires b in blocks && q in b.quads
    ensures forall k :: 0 <= k < 4 ==> !VertexRecs(st, b.pos, q)[k].Face? && Origin(s, VertexRecs(st, b.pos, q)[k], st, blocks)
    ensures forall k :: 0 <= k < 4 ==> !NormalRecs(q)[k].Face? && Origin(s, NormalRecs(q)[k], st, blocks)
  {
  }

  /** A record present in the pool is found at its ordinal in its tag's bucket. */
  lemma LookupResolves(s: seq<Line>, x: Line)
    requires x in s
    ensures 1 <= Lookup(s, x) <= |Bucket(s, TagOf(x))| && Bucket(s, TagOf(x))[Lookup(s, x) - 1] == x
  {
  }

  /** Once the four vertex records are in, their ordinals name them. */
  lemma VerticesRefer(s: seq<Line>, st: Style, pos: Offset, q: Quad, vs: Index4)
    requires Resolved(s, VertexRecs(st, pos, q), vs, 4)
    ensures RefersVertices(s, vs, st, pos, q)
  {
    forall j | 0 <= j < 4
      ensures 1 <= vs[j] <= |Bucket(s, V)| && Bucket(s, V)[vs[j] - 1] == VertexRec(st, pos, q, j)
    {
      assert VertexRecs(st, pos, q)[j] == VertexRec(st, pos, q, j);
      LookupResolves(s, VertexRec(st, pos, q, j));
    }
  }

  /** Once the four normal records are in, their ordinals name them. */
  lemma NormalsRefer(s: seq<Line>, q: Quad, vns: Index4)
    requires Resolved(s, NormalRecs(q), vns, 4)
    ensures RefersNormals(s, vns, q)
  {
    forall j | 0 <= j < 4
      ensures 1 <= vns[j] <= |Bucket(s, VN)| && Bucket(s, VN)[vns[j] - 1] == NormalRec(q, j)
    {
      assert NormalRecs(q)[j] == NormalRec(q, j);
      LookupResolves(s, NormalRec(q, j));
    }
  }

  /** The ordinals the four records recs have in s, in corner order. */
  function Ordinals(s: seq<Line>, recs: seq<Line>): (rs: Index4)
    requires |recs| == 4
    ensures forall k :: 0 <= k < 4 ==> rs[k] == Lookup(s, recs[k])
  {
    [Lookup(s, recs[0]), Lookup(s, recs[1]), Lookup(s, recs[2]), Lookup(s, recs[3])]
  }

  /** The face record built for q once its corner records are in s. */
  function FaceRec(s: seq<Line>, st: Style, pos: Offset, q: Quad): Line
  {
    Face(Ordinals(s, VertexRecs(st, pos, q)), Ordinals(s, NormalRecs(q)))
  }

  /** The pool after the body of the quad loop for q: its four vertex records, its four normal
      records, then the face naming them. */
  function QuadStep(s: seq<Line>, st: Style, pos: Offset, q: Quad): seq<Line>
  {
    var s2 := InsertAll(InsertAll(s, VertexRecs(st, pos, q)), NormalRecs(q));
    Insert(s2, FaceRec(s2, st, pos, q))
  }

  /** The pool after the quad loop over qs, for a block at pos. */
  function FillQuads(s: seq<Line>, st: Style, pos: Offset, qs: seq<Quad>): seq<Line>
    decreases |qs|
  {
    if qs == [] then s else QuadStep(FillQuads(s, st, pos, qs[..|qs| - 1]), st, pos, qs[|qs| - 1])
  }

  /** The pool after the block loop over blocks, in list order. */
  function FillSeq(s: seq<Line>, st: Style, blocks: seq<Block>): seq<Line>
    decreases |blocks|
  {
    if blocks == [] then s
    else
      var b := blocks[|blocks| - 1];
      FillQuads(FillSeq(s, st, blocks[..|blocks| - 1]), st, b.pos, b.quads)
  }

  /** Ordinals held for the four corner records are the ones the face record is built from. */
  lemma ResolvedFace(s: seq<Line>, st: Style, pos: Offset, q: Quad, vs: Index4, vns: Index4)
    requires Resolved(s, VertexRecs(st, pos, q), vs, 4) && Resolved(s, NormalRecs(q), vns, 4)
    ensures Face(vs, vns) == FaceRec(s, st, pos, q)
  {
    assert vs == Ordinals(s, VertexRecs(st, pos, q));
    assert vns == Ordinals(s, NormalRecs(q));
  }

  /** The face for q is in, so q joins the quads done. */
  lemma FillingDone(s: seq<Line>, st: Style, blocks: seq<Block>, done: seq<Placed>, q: Quad, pos: Offset, vs: Index4, vns: Index4)
    requires Filling(s, st, blocks, done)
    requires Face(vs, vns) in s && Refers(s, vs, vns, st, pos, q)
    ensures Filling(s, st, blocks, done + [Placed(pos, q)])
  {
    assert Drawn(s, st, pos, q);
  }

  /** The body of the quad loop: the vertices, the normals, then the face naming them. */
  method PutQuad(pool: Pool, st: Style, block: Block, quad: Quad, ghost blocks: seq<Block>, ghost done: seq<Placed>)
    requires pool.Valid() && Filling(pool.lines, st, blocks, done)
    requires block in blocks && quad in block.quads
    modifies pool
    ensures pool.Valid() && Filling(pool.lines, st, blocks, done + [Placed(block.pos, quad)])
    ensures pool.lines == QuadStep(old(pool.lines), st, block.pos, quad)
  {
    ghost var s0 := pool.lines;
    var vs := PutCorners(pool, VertexRecs(st, block.pos, quad));
    ghost var s1 := pool.lines;
    var vns := PutCorners(pool, NormalRecs(quad));
    ghost var s2 := pool.lines;
    CornerOrigins(s0, st, block, quad, blocks);
    FillingInsertAll(s0, VertexRecs(st, block.pos, quad), st, blocks, done);
    CornerOrigins(s1, st, block, quad, blocks);
    FillingInsertAll(s1, NormalRecs(quad), st, blocks, done);
    ResolvedKept(s1, NormalRecs(quad), VertexRecs(st, block.pos, quad), vs);
    VerticesRefer(s2, st, block.pos, quad, vs);
    NormalsRefer(s2, quad, vns);
    var face := Face(vs, vns);
    ResolvedFace(s2, st, block.pos, quad, vs, vns);
    assert Origin(s2, face, st, blocks);
    FillingInsert(s2, face, st, blocks, done);
    RefersInsert(s2, face, vs, vns, st, block.pos, quad);
    var _ := pool.Add(face);
    FillingDone(pool.lines, st, blocks, done, quad, block.pos, vs, vns);
  }

  /** One more quad: the quad loop over the first i + 1 quads is one QuadStep after the loop
      over the first i. */
  lemma FillQuadsStep(s: seq<Line>, st: Style, pos: Offset, qs: seq<Quad>, i: nat)
    requires i < |qs|
    ensures FillQuads(s, st, pos, qs[..i + 1]) == QuadStep(FillQuads(s, st, pos, qs[..i]), st, pos, qs[i])
  {
    assert qs[..i + 1][..i] == qs[..i];
  }

  /** The quad loop for one block: every quad the mesher produced for it, in order. */
  method PutBlock(pool: Pool, st: Style, block: Block, ghost blocks: seq<Block>, ghost done: seq<Placed>)
      returns (ghost done': seq<Placed>)
    requires pool.Valid() && Filling(pool.lines, st, blocks, done) && block in blocks
    modifies pool
    ensures pool.Valid() && Filling(pool.lines, st, blocks, done')
    ensures forall p :: p in done ==> p in done'
    ensures forall q :: q in block.quads ==> Placed(block.pos, q) in done'
    ensures pool.lines == FillQuads(old(pool.lines), st, block.pos, block.quads)
  {
    ghost var s0 := pool.lines;
    done' := done;
    for i := 0 to |block.quads|
      invariant pool.Valid() && Filling(pool.lines, st, blocks, done')
      invariant forall p :: p in done ==> p in done'
      invariant forall k :: 0 <= k < i ==> Placed(block.pos, block.quads[k]) in done'
      invariant pool.lines == FillQuads(s0, st, block.pos, block.quads[..i])
    {
      var quad := block.quads[i];
      ghost var s := pool.lines;
      ghost var next := done' + [Placed(block.pos, quad)];
      assert forall k :: 0 <= k < i + 1 ==> Placed(block.pos, block.quads[k]) in next;
      assert forall p :: p in done ==> p in next;
      assert FillQuads(s0, st, block.pos, block.quads[..i + 1]) == QuadStep(s, st, block.pos, quad) by {
        FillQuadsStep(s0, st, block.pos, block.quads, i);
      }
      PutQuad(pool, st, block, quad, blocks, done');
      done' := next;
    }
    assert block.quads[..|block.quads|] == block.quads;
  }

  /** One more block: the block loop over the first i + 1 blocks is that block's quad loop
      after the loop over the first i. */
  lemma FillSeqStep(s: seq<Line>, st: Style, blocks: seq<Block>, i: nat)
    requires i < |blocks|
    ensures FillSeq(s, st, blocks[..i + 1]) == FillQuads(FillSeq(s, st, blocks[..i]), st, blocks[i].pos, blocks[i].quads)
  {
    assert blocks[..i + 1][..i] == blocks[..i];
  }

  /** The loops of wavefront_export and ply_export up to the sort: every block, every quad. */
  method Fill(blocks: seq<Block>, st: Style) returns (pool: Pool)
    ensures fresh(pool) && pool.Valid()
    ensures FromBlocks(pool.lines, st, blocks)
    ensures forall b, q :: b in blocks && q in b.quads ==> Drawn(pool.lines, st, b.pos, q)
    ensures pool.lines == FillSeq([], st, blocks)
  {
    pool := new Pool();
    ghost var done: seq<Placed> := [];
    for bi := 0 to |blocks|
      invariant fresh(pool) && pool.Valid() && Filling(pool.lines, st, blocks, done)
      invariant forall k, q :: 0 <= k < bi && q in blocks[k].quads ==> Placed(blocks[k].pos, q) in done
      invariant pool.lines == FillSeq([], st, blocks[..bi])
    {
      var block := blocks[bi];
      FillSeqStep([], st, blocks, bi);
      done := PutBlock(pool, st, block, blocks, done);
    }
    assert blocks[..|blocks|] == blocks;
  }

  /** Every record comes from some quad, so a pool holding anything means the input has a
      quad: an input without quads leaves the pool empty. */
  lemma RecordsNeedQuads(s: seq<Line>, st: Style, blocks: seq<Block>)
    requires FromBlocks(s, st, blocks)
    ensures s != [] ==> exists b :: b in blocks && b.quads != []
  {
    if s != [] {
      assert Origin(s, s[0], st, blocks);
    }
  }

  /** Further insertions keep the pool as a prefix. */
  lemma {:induction false} InsertAllPrefix(s: seq<Line>, xs: seq<Line>)
    ensures |s| <= |InsertAll(s, xs)| && InsertAll(s, xs)[..|s|] == s
    decreases |xs|
  {
    if xs != [] {
      var s1 := InsertAll(s, xs[..|xs| - 1]);
      InsertAllPrefix(s, xs[..|xs| - 1]);
      assert Insert(s1, xs[|xs| - 1])[..|s1|] == s1;
      assert InsertAll(s, xs)[..|s|] == s1[..|s|];
    }
  }

  /** Inserting four records into an empty pool: two different first records come first. */
  lemma InsertAllFirstTwo(r: seq<Line>)
    requires |r| == 4 && r[0] != r[1]
    ensures |InsertAll([], r)| >= 2 && InsertAll([], r)[..2] == [r[0], r[1]]
  {
    var x1, x2, x3 := InsertAll([], r[..1]), InsertAll([], r[..2]), InsertAll([], r[..3]);
    assert x1 == [r[0]] by {
      assert r[..1][..0] == [] && r[..1][0] == r[0];
      assert InsertAll([], r[..1][..0]) == [];
      assert Insert([], r[0]) == [r[0]];
    }
    assert x2 == [r[0], r[1]] by {
      assert r[..2][..1] == r[..1] && r[..2][1] == r[1];
      assert [r[0]] + [r[1]] == [r[0], r[1]];
    }
    assert x3 == Insert(x2, r[2]) by {
      assert r[..3][..2] == r[..2] && r[..3][2] == r[2];
    }
    assert InsertAll([], r) == Insert(x3, r[3]) by {
      assert r[..3] == r[..|r| - 1];
    }
  }

  /** The quad loop for one quad, on an empty pool: two different first corner records are the
      first two records. */
  lemma FirstQuadVertices(st: Style, pos: Offset, q: Quad)
    requires VertexRec(st, pos, q, 0) != VertexRec(st, pos, q, 1)
    ensures var s := QuadStep([], st, pos, q);
      |s| >= 2 && s[0] == VertexRec(st, pos, q, 0) && s[1] == VertexRec(st, pos, q, 1)
  {
    var r := VertexRecs(st, pos, q);
    InsertAllFirstTwo(r);
    var s1 := InsertAll([], r);
    var s2 := InsertAll(s1, NormalRecs(q));
    InsertAllPrefix(s1, NormalRecs(q));
    assert s2[..2] == s1[..2];
    assert QuadStep([], st, pos, q)[..|s2|] == s2;
  }

  /** The block loop over one block with one quad is the quad loop body for it. */
  lemma FillOneQuad(st: Style, pos: Offset, q: Quad)
    ensures FillSeq([], st, [Block(pos, [q])]) == QuadStep([], st, pos, q)
  {
    assert [Block(pos, [q])][..0] == [] && [q][..0] == [];
    assert FillSeq([], st, []) == [];
    assert FillQuads([], st, pos, []) == [];
    assert FillSeq([], st, [Block(pos, [q])]) == FillQuads([], st, pos, [q]);
  }

  /** The misresolution of the unstable sort, on the pool s the export loops build for one
      block with one quad whose first two corners differ. qsort may return the grouped pool
      with those two vertex records swapped, and the ordinal 1 the face holds for corner 0
      then names the record of corner 1. */
  lemma OneQuadMisresolves(st: Style, pos: Offset, q: Quad, s: seq<Line>)
    requires s == FillSeq([], st, [Block(pos, [q])])
    requires VertexRec(st, pos, q, 0) != VertexRec(st, pos, q, 1)
    ensures var p := SwapFront(Grouped(s));
      QsortOutcome(s, p) && Lookup(s, VertexRec(st, pos, q, 0)) == 1 &&
      |Bucket(p, V)| >= 2 && Bucket(p, V)[0] == VertexRec(st, pos, q, 1)
  {
    FillOneQuad(st, pos, q);
    FirstQuadVertices(st, pos, q);
    PoolMisresolves(s);
  }
}
