/** Specification of the record pool: per-tag buckets, the ordinal a lookup returns, what an
    insertion does, and the grouping of the pool by category before it is written. */
module Buckets {
  import opened Records

  /** The records of tag t in s, in insertion order. */
  function Bucket(s: seq<Line>, t: Tag): (b: seq<Line>)
    ensures |b| <= |s|
  {
    if s == [] then []
    else
      var init, last := s[..|s| - 1], s[|s| - 1];
      Bucket(init, t) + (if TagOf(last) == t then [last] else [])
  }

  /** The bucket of t holds exactly the records of s that carry tag t. */
  lemma {:induction false} BucketMembers(s: seq<Line>, t: Tag)
    ensures forall l :: l in Bucket(s, t) <==> l in s && TagOf(l) == t
  {
    if s != [] {
      var init, last := s[..|s| - 1], s[|s| - 1];
      assert s == init + [last];
      BucketMembers(init, t);
    }
  }

  lemma {:induction false} BucketAppend(a: seq<Line>, b: seq<Line>, t: Tag)
    ensures Bucket(a + b, t) == Bucket(a, t) + Bucket(b, t)
    decreases |b|
  {
    if b == [] {
      assert a + b == a;
    } else {
      var init := b[..|b| - 1];
      assert (a + b)[..|a + b| - 1] == a + init;
      BucketAppend(a, init, t);
    }
  }

  lemma BucketSnoc(s: seq<Line>, x: Line, t: Tag)
    ensures Bucket(s + [x], t) == Bucket(s, t) + (if TagOf(x) == t then [x] else [])
  {
    assert (s + [x])[..|s + [x]| - 1] == s;
  }

  /** A sequence whose records all carry tag t is its own bucket. */
  lemma {:induction false} BucketOfUniform(b: seq<Line>, t: Tag)
    requires forall l :: l in b ==> TagOf(l) == t
    ensures Bucket(b, t) == b
  {
    if b != [] {
      var init := b[..|b| - 1];
      assert b == init + [b[|b| - 1]];
      BucketOfUniform(init, t);
    }
  }

  /** A sequence with no record of tag t has an empty bucket for it. */
  lemma {:induction false} BucketOfNone(b: seq<Line>, t: Tag)
    requires forall l :: l in b ==> TagOf(l) != t
    ensures Bucket(b, t) == []
  {
    if b != [] {
      var init, last := b[..|b| - 1], b[|b| - 1];
      assert b == init + [last];
      BucketOfNone(init, t);
    }
  }

  /** Position of the first x in b, or |b| when b holds none. */
  function IndexOf(b: seq<Line>, x: Line): (k: nat)
    ensures k <= |b|
    ensures k < |b| ==> b[k] == x
    ensures x !in b[..k]
    ensures k == |b| <==> x !in b
  {
    if b == [] then 0
    else if b[0] == x then 0
    else
      var k := 1 + IndexOf(b[1..], x);
      assert b[..k] == [b[0]] + b[1..][..k - 1];
      k
  }

  /** If x is absent from b, its first occurrence in b + [x] + c is right after b. */
  lemma IndexOfAfter(b: seq<Line>, x: Line, c: seq<Line>)
    requires x !in b
    ensures IndexOf(b + [x] + c, x) == |b|
  {
    var s := b + [x] + c;
    var k := IndexOf(s, x);
    assert s[|b|] == x;
  }

  /** Appending never moves the first occurrence of a record already present. */
  lemma IndexOfPrefix(b: seq<Line>, c: seq<Line>, x: Line)
    requires x in b
    ensures IndexOf(b + c, x) == IndexOf(b, x)
  {
    var k, k' := IndexOf(b, x), IndexOf(b + c, x);
    assert (b + c)[k] == x;
  }

  /** lines_find: the 1-based ordinal, among the records of x's tag, of the first record equal
      to x; 0 when s holds no such record. */
  function Lookup(s: seq<Line>, x: Line): (r: nat)
    ensures r == 0 <==> x !in s
    ensures r != 0 ==> r <= |Bucket(s, TagOf(x))| && Bucket(s, TagOf(x))[r - 1] == x
    ensures r != 0 ==> x !in Bucket(s, TagOf(x))[..r - 1]
  {
    if x !in s then 0
    else
      BucketMembers(s, TagOf(x));
      IndexOf(Bucket(s, TagOf(x)), x) + 1
  }

  /** lines_add on the sequence of records: append x unless an equal record is present. */
  function Insert(s: seq<Line>, x: Line): (r: seq<Line>)
    ensures |r| == if x in s then |s| else |s| + 1
    ensures x in r && r[..|s|] == s
  {
    if x in s then s else s + [x]
  }

  /** What lines_add returns: the old ordinal of a record already present, or one more than
      the old count of its tag for a new one; in both cases an ordinal within the new count.
      Adding the same record again changes nothing. */
  lemma InsertLookup(s: seq<Line>, x: Line)
    ensures x in s ==> Lookup(Insert(s, x), x) == Lookup(s, x)
    ensures x !in s ==> Lookup(Insert(s, x), x) == |Bucket(s, TagOf(x))| + 1
    ensures 1 <= Lookup(Insert(s, x), x) <= |Bucket(Insert(s, x), TagOf(x))|
    ensures Insert(Insert(s, x), x) == Insert(s, x)
  {
    var t := TagOf(x);
    if x in s {
      assert Insert(s, x) == s;
    } else {
      var b := Bucket(s, t);
      assert Insert(s, x) == s + [x];
      assert x in s + [x];
      assert Bucket(s + [x], t) == b + [x] by {
        BucketSnoc(s, x, t);
      }
      assert x !in b by {
        BucketMembers(s, t);
      }
      assert IndexOf(b + [x], x) == |b| by {
        IndexOfAfter(b, x, []);
        assert b + [x] + [] == b + [x];
      }
    }
  }

  /** Insertion leaves the bucket of every other tag as it was, and only extends the bucket of
      the inserted record's tag. */
  lemma InsertBuckets(s: seq<Line>, x: Line, t: Tag)
    ensures t != TagOf(x) ==> Bucket(Insert(s, x), t) == Bucket(s, t)
    ensures Bucket(Insert(s, x), t) == Bucket(s, t) + Bucket(Insert(s, x), t)[|Bucket(s, t)|..]
  {
    if x !in s {
      BucketAppend(s, [x], t);
      assert [x][..0] == [];
    }
  }

  /** Ordinals, once assigned, are stable: inserting any record keeps the ordinal of every
      record already present. */
  lemma {:induction false} InsertKeepsLookup(s: seq<Line>, x: Line, y: Line)
    requires y in s
    ensures Lookup(Insert(s, x), y) == Lookup(s, y)
  {
    if x !in s {
      var t := TagOf(y);
      var b := Bucket(s, t);
      BucketAppend(s, [x], t);
      BucketMembers(s, t);
      IndexOfPrefix(b, Bucket([x], t), y);
    }
  }

  /** Dedup discrimination: two different records of one tag never share an ordinal. */
  lemma LookupDistinct(s: seq<Line>, x: Line, y: Line)
    requires x in s && y in s && TagOf(x) == TagOf(y) && x != y
    ensures Lookup(s, x) != Lookup(s, y)
  {
  }

  /** The pool holds each record at most once. */
  ghost predicate NoDup(s: seq<Line>)
  {
    forall i, j :: 0 <= i < j < |s| ==> s[i] != s[j]
  }

  lemma InsertNoDup(s: seq<Line>, x: Line)
    requires NoDup(s)
    ensures NoDup(Insert(s, x))
  {
  }

  lemma {:induction false} BucketNoDup(s: seq<Line>, t: Tag)
    requires NoDup(s)
    ensures NoDup(Bucket(s, t))
  {
    if s != [] {
      var init, last := s[..|s| - 1], s[|s| - 1];
      assert s == init + [last];
      assert last !in init;
      BucketMembers(init, t);
      BucketNoDup(init, t);
    }
  }

  /** The pool after it has been grouped for writing: all vertices, then all normals, then
      all faces, each category in its insertion order (a stable partition). */
  function Grouped(s: seq<Line>): (g: seq<Line>)
    ensures forall l :: l in g <==> l in s
  {
    BucketMembers(s, V);
    BucketMembers(s, VN);
    BucketMembers(s, F);
    Bucket(s, V) + Bucket(s, VN) + Bucket(s, F)
  }

  lemma BucketOfBucket(s: seq<Line>, t: Tag, u: Tag)
    ensures Bucket(Bucket(s, t), u) == if t == u then Bucket(s, t) else []
  {
    BucketMembers(s, t);
    if t == u {
      BucketOfUniform(Bucket(s, t), t);
    } else {
      BucketOfNone(Bucket(s, t), u);
    }
  }

  /** Grouping keeps every category in insertion order. */
  lemma GroupedStable(s: seq<Line>, t: Tag)
    ensures Bucket(Grouped(s), t) == Bucket(s, t)
  {
    var bv, bn, bf := Bucket(s, V), Bucket(s, VN), Bucket(s, F);
    assert Bucket(Grouped(s), t) == Bucket(bv, t) + Bucket(bn, t) + Bucket(bf, t) by {
      BucketAppend(bv + bn, bf, t);
      BucketAppend(bv, bn, t);
    }
    assert Bucket(bv, t) == if t == V then bv else [] by { BucketOfBucket(s, V, t); }
    assert Bucket(bn, t) == if t == VN then bn else [] by { BucketOfBucket(s, VN, t); }
    assert Bucket(bf, t) == if t == F then bf else [] by { BucketOfBucket(s, F, t); }
  }

  /** Hence every ordinal handed out while the pool was filled still names the same record
      after grouping. */
  lemma GroupedKeepsLookup(s: seq<Line>, x: Line)
    ensures Lookup(Grouped(s), x) == Lookup(s, x)
  {
    GroupedStable(s, TagOf(x));
    GroupedPermutation(s);
    assert x in s <==> x in multiset(s);
    assert x in Grouped(s) <==> x in multiset(Grouped(s));
  }

  /** Where a position of the grouped pool falls: in the vertex, normal or face section. */
  lemma GroupedAt(s: seq<Line>, i: int)
    requires 0 <= i < |Grouped(s)|
    ensures var nv, nn := |Bucket(s, V)|, |Bucket(s, VN)|;
      if i < nv then Grouped(s)[i] == Bucket(s, V)[i] && Score(Grouped(s)[i]) == 0
      else if i < nv + nn then Grouped(s)[i] == Bucket(s, VN)[i - nv] && Score(Grouped(s)[i]) == 1
      else Grouped(s)[i] == Bucket(s, F)[i - nv - nn] && Score(Grouped(s)[i]) == 2
  {
    var nv, nn := |Bucket(s, V)|, |Bucket(s, VN)|;
    BucketMembers(s, V);
    BucketMembers(s, VN);
    BucketMembers(s, F);
    if i < nv {
      assert Bucket(s, V)[i] in Bucket(s, V);
    } else if i < nv + nn {
      assert Bucket(s, VN)[i - nv] in Bucket(s, VN);
    } else {
      assert Bucket(s, F)[i - nv - nn] in Bucket(s, F);
    }
  }

  /** The grouped pool is ordered by line_cmp. */
  lemma GroupedSorted(s: seq<Line>)
    ensures SortedByCmp(Grouped(s))
  {
    var g := Grouped(s);
    forall i, j | 0 <= i < j < |g|
      ensures Cmp(g[i], g[j]) <= 0
    {
      GroupedAt(s, i);
      GroupedAt(s, j);
    }
  }

  lemma {:induction false} MultisetBuckets(s: seq<Line>)
    ensures multiset(Bucket(s, V)) + multiset(Bucket(s, VN)) + multiset(Bucket(s, F)) == multiset(s)
  {
    if s != [] {
      var init, last := s[..|s| - 1], s[|s| - 1];
      assert s == init + [last];
      MultisetBuckets(init);
    }
  }

  /** Grouping neither loses nor duplicates a record, and keeps a duplicate-free pool so. */
  lemma GroupedPermutation(s: seq<Line>)
    ensures multiset(Grouped(s)) == multiset(s)
    ensures NoDup(s) ==> NoDup(Grouped(s))
  {
    MultisetBuckets(s);
    if NoDup(s) {
      BucketNoDup(s, V);
      BucketNoDup(s, VN);
      BucketNoDup(s, F);
      var g := Grouped(s);
      var nv, nn := |Bucket(s, V)|, |Bucket(s, VN)|;
      forall i, j | 0 <= i < j < |g|
        ensures g[i] != g[j]
      {
        if j < nv {
          assert g[i] == Bucket(s, V)[i] && g[j] == Bucket(s, V)[j];
        } else if i >= nv + nn {
          assert g[i] == Bucket(s, F)[i - nv - nn] && g[j] == Bucket(s, F)[j - nv - nn];
        } else if i >= nv && j < nv + nn {
          assert g[i] == Bucket(s, VN)[i - nv] && g[j] == Bucket(s, VN)[j - nv];
        } else {
          GroupedAt(s, i);
          GroupedAt(s, j);
        }
      }
    }
  }

  /** p is ordered by line_cmp. */
  predicate SortedByCmp(p: seq<Line>)
  {
    forall i, j :: 0 <= i < j < |p| ==> Cmp(p[i], p[j]) <= 0
  }

  /** What `utarray_sort(lines, line_cmp)` promises: some permutation of the pool ordered by
      line_cmp. qsort is not stable, so records of one tag may end up in any order. */
  predicate QsortOutcome(s: seq<Line>, p: seq<Line>)
    ensures QsortOutcome(s, p) ==> |p| == |s|
  {
    assert |multiset(p)| == |p| && |multiset(s)| == |s|;
    multiset(p) == multiset(s) && SortedByCmp(p)
  }

  /** A sequence already ordered by line_cmp is its own grouping. */
  lemma {:induction false} SortedIsGrouped(p: seq<Line>)
    requires SortedByCmp(p)
    ensures Grouped(p) == p
  {
    if p != [] {
      var init, last := p[..|p| - 1], p[|p| - 1];
      assert p == init + [last];
      assert SortedByCmp(init) by {
        forall i, j | 0 <= i < j < |init|
          ensures Cmp(init[i], init[j]) <= 0
        {
          assert init[i] == p[i] && init[j] == p[j];
        }
      }
      SortedIsGrouped(init);
      SortedBeforeLast(p);
      GroupedSnoc(init, last);
    }
  }

  /** Appending a record of the highest category so far appends it to the grouping. */
  lemma GroupedSnoc(init: seq<Line>, last: Line)
    requires forall l :: l in init ==> Score(l) <= Score(last)
    ensures Grouped(init + [last]) == Grouped(init) + [last]
  {
    var p := init + [last];
    var bv, bn, bf := Bucket(init, V), Bucket(init, VN), Bucket(init, F);
    if TagOf(last) == F {
      assert Bucket(p, V) == bv by { BucketSnoc(init, last, V); }
      assert Bucket(p, VN) == bn by { BucketSnoc(init, last, VN); }
      assert Bucket(p, F) == bf + [last] by { BucketSnoc(init, last, F); }
    } else if TagOf(last) == VN {
      assert Bucket(p, V) == bv by { BucketSnoc(init, last, V); }
      assert Bucket(p, VN) == bn + [last] by { BucketSnoc(init, last, VN); }
      assert bf == [] by { BucketOfNone(init, F); }
      assert Bucket(p, F) == [] by { BucketSnoc(init, last, F); }
    } else {
      assert Bucket(p, V) == bv + [last] by { BucketSnoc(init, last, V); }
      assert bn == [] by { BucketOfNone(init, VN); }
      assert Bucket(p, VN) == [] by { BucketSnoc(init, last, VN); }
      assert bf == [] by { BucketOfNone(init, F); }
      assert Bucket(p, F) == [] by { BucketSnoc(init, last, F); }
    }
  }

  lemma SortedBeforeLast(p: seq<Line>)
    requires SortedByCmp(p) && p != []
    ensures forall l :: l in p[..|p| - 1] ==> Score(l) <= Score(p[|p| - 1])
  {
    forall l | l in p[..|p| - 1]
      ensures Score(l) <= Score(p[|p| - 1])
    {
      var i :| 0 <= i < |p| - 1 && p[..|p| - 1][i] == l;
      assert Cmp(p[i], p[|p| - 1]) <= 0;
    }
  }

  /** Among the outcomes qsort may produce, exactly one keeps each category in insertion
      order, and it is the stable grouping. */
  lemma StableOutcomeIsGrouped(s: seq<Line>, p: seq<Line>)
    requires QsortOutcome(s, p)
    requires forall t :: Bucket(p, t) == Bucket(s, t)
    ensures p == Grouped(s)
  {
    SortedIsGrouped(p);
  }

  /** The grouping is one of the outcomes qsort may produce. */
  lemma GroupedIsQsortOutcome(s: seq<Line>)
    ensures QsortOutcome(s, Grouped(s))
  {
    GroupedPermutation(s);
    GroupedSorted(s);
  }

  lemma BucketSingle(a: Line)
    ensures Bucket([a], TagOf(a)) == [a]
  {
    BucketSnoc([], a, TagOf(a));
    assert [] + [a] == [a];
  }

  /** The vertex bucket of a pool holding the vertices a and b and then a face. */
  lemma BucketTwoVertices(a: Line, b: Line, f: Line)
    requires TagOf(a) == V && TagOf(b) == V && TagOf(f) == F
    ensures Bucket([a, b, f], V) == [a, b]
  {
    BucketSingle(a);
    assert Bucket([a, b], V) == [a, b] by {
      BucketSnoc([a], b, V);
      assert [a] + [b] == [a, b];
    }
    BucketSnoc([a, b], f, V);
    assert [a, b] + [f] == [a, b, f];
  }

  /** Swapping two vertices that precede a face yields a sequence qsort may return. */
  lemma SwapIsQsortOutcome(a: Line, b: Line, f: Line)
    requires TagOf(a) == V && TagOf(b) == V && TagOf(f) == F
    ensures QsortOutcome([a, b, f], [b, a, f])
  {
    var p := [b, a, f];
    assert multiset(p) == multiset([a, b, f]);
    forall i, j | 0 <= i < j < 3
      ensures Cmp(p[i], p[j]) <= 0
    {
      assert Score(p[i]) <= Score(p[j]);
    }
  }

  /** qsort may return the pool [a, b, f] as [b, a, f]: ordered by line_cmp and a permutation,
      but vertex ordinal 1, which a face built before the sort uses for a, now names b. */
  lemma UnstableOutcomeMisresolves(a: Line, b: Line, f: Line)
    requires TagOf(a) == V && TagOf(b) == V && TagOf(f) == F && a != b
    ensures QsortOutcome([a, b, f], [b, a, f])
    ensures Lookup([a, b, f], a) == 1
    ensures Bucket([b, a, f], V) == [b, a]
    ensures Bucket([b, a, f], V)[Lookup([a, b, f], a) - 1] == b != a
  {
    SwapIsQsortOutcome(a, b, f);
    BucketTwoVertices(a, b, f);
    BucketTwoVertices(b, a, f);
    assert IndexOf([a, b], a) == 0;
  }

  /** The first two records exchanged; sequences shorter than two are left as they are. */
  function SwapFront(g: seq<Line>): (p: seq<Line>)
    ensures |p| == |g|
    ensures |g| >= 2 ==> p[0] == g[1] && p[1] == g[0] && p[2..] == g[2..]
  {
    if |g| < 2 then g else [g[1], g[0]] + g[2..]
  }

  /** Swapping the first two records of an ordered sequence, when they share a tag, keeps it
      ordered and a permutation. */
  lemma SwapFrontSorted(g: seq<Line>)
    requires |g| >= 2 && SortedByCmp(g) && TagOf(g[0]) == TagOf(g[1])
    ensures SortedByCmp(SwapFront(g)) && multiset(SwapFront(g)) == multiset(g)
  {
    var p := SwapFront(g);
    forall i, j | 0 <= i < j < |p|
      ensures Cmp(p[i], p[j]) <= 0
    {
      assert Score(p[i]) == Score(g[i]) && Score(p[j]) == Score(g[j]);
      assert Cmp(g[i], g[j]) <= 0;
    }
    assert g == [g[0], g[1]] + g[2..];
    assert p == [g[1], g[0]] + g[2..];
    assert multiset([g[1], g[0]]) == multiset([g[0], g[1]]);
  }

  /** Swapping the first two vertex records of the grouping gives an outcome qsort may
      produce. */
  lemma SwapGroupedIsQsortOutcome(s: seq<Line>)
    requires |Bucket(s, V)| >= 2
    ensures QsortOutcome(s, SwapFront(Grouped(s)))
  {
    GroupedAt(s, 0);
    GroupedAt(s, 1);
    GroupedPermutation(s);
    GroupedSorted(s);
    SwapFrontSorted(Grouped(s));
  }

  /** The first record of a tag has ordinal 1. */
  lemma FirstOrdinal(s: seq<Line>, t: Tag)
    requires |Bucket(s, t)| >= 1
    ensures Lookup(s, Bucket(s, t)[0]) == 1
  {
    BucketMembers(s, t);
  }

  /** Two vertex records make up their own vertex bucket. */
  lemma BucketPair(a: Line, b: Line)
    requires TagOf(a) == V && TagOf(b) == V
    ensures Bucket([a, b], V) == [a, b]
  {
    BucketSingle(a);
    BucketSnoc([a], b, V);
    assert [a] + [b] == [a, b];
  }

  /** The vertex records of two vertex records followed by rest. */
  lemma BucketAfterPair(a: Line, b: Line, rest: seq<Line>)
    requires TagOf(a) == V && TagOf(b) == V
    ensures Bucket([a, b] + rest, V) == [a, b] + Bucket(rest, V)
  {
    BucketAppend([a, b], rest, V);
    BucketPair(a, b);
  }

  /** Swapping two leading vertex records swaps the first two vertex records. */
  lemma SwapFrontBucket(g: seq<Line>)
    requires |g| >= 2 && TagOf(g[0]) == V && TagOf(g[1]) == V
    ensures |Bucket(g, V)| >= 2 && Bucket(g, V)[0] == g[0] && Bucket(g, V)[1] == g[1]
    ensures Bucket(SwapFront(g), V) == [g[1], g[0]] + Bucket(g, V)[2..]
  {
    var a, b, rest := g[0], g[1], g[2..];
    assert g == [a, b] + rest;
    BucketAfterPair(b, a, rest);
    BucketAfterPair(a, b, rest);
  }

  /** The vertex records of the grouping with its first two vertex records swapped. */
  lemma SwappedBucket(s: seq<Line>)
    requires |Bucket(s, V)| >= 2
    ensures var bv := Bucket(s, V);
      Bucket(SwapFront(Grouped(s)), V) == [bv[1], bv[0]] + bv[2..]
  {
    GroupedAt(s, 0);
    GroupedAt(s, 1);
    GroupedStable(s, V);
    SwapFrontBucket(Grouped(s));
  }

  /** The misresolution on any pool whose first two vertex records differ: qsort may return
      its grouping with those two swapped, and ordinal 1, handed to the first, then names the
      second. */
  lemma UnstableGroupingMisresolves(s: seq<Line>)
    requires |Bucket(s, V)| >= 2 && Bucket(s, V)[0] != Bucket(s, V)[1]
    ensures var p := SwapFront(Grouped(s));
      QsortOutcome(s, p) && Lookup(s, Bucket(s, V)[0]) == 1 &&
      |Bucket(p, V)| >= 2 && Bucket(p, V)[0] == Bucket(s, V)[1] != Bucket(s, V)[0]
  {
    SwapGroupedIsQsortOutcome(s);
    FirstOrdinal(s, V);
    SwappedBucket(s);
  }

  /** The misresolution on a pool that starts with two different vertex records. */
  lemma PoolMisresolves(s: seq<Line>)
    requires |s| >= 2 && s[0] != s[1] && TagOf(s[0]) == V && TagOf(s[1]) == V
    ensures var p := SwapFront(Grouped(s));
      QsortOutcome(s, p) && Lookup(s, s[0]) == 1 &&
      |Bucket(p, V)| >= 2 && Bucket(p, V)[0] == s[1]
  {
    assert s == [s[0], s[1]] + s[2..];
    BucketAfterPair(s[0], s[1], s[2..]);
    UnstableGroupingMisresolves(s);
  }
}
