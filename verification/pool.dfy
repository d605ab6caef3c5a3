/** The record pool of src/wavefront.c: the growable array of `line_t` that wavefront_export
    and ply_export fill with deduplicated records and then group and write. */
module RecordPool {
  import opened Records
  import opened Buckets

  class Pool {
    /** The records in insertion order (the UT_array). */
    var lines: seq<Line>

    /** Every record is stored once: lines_add appends only what lines_find did not find. */
    ghost predicate Valid()
      reads this
    {
      NoDup(lines)
    }

    /** utarray_new: an empty pool. */
    constructor ()
      ensures Valid() && lines == []
    {
      lines := [];
    }

    /** lines_find: walks the pool, counting the records of line's tag, and returns that count
        at the first record equal to line; 0 when there is none. */
    method Find(line: Line) returns (r: nat)
      ensures r == Lookup(lines, line)
      ensures r == 0 <==> line !in lines
      ensures r != 0 ==> Bucket(lines, TagOf(line))[r - 1] == line
    {
      var t := TagOf(line);
      r := 0;
      var i := 0;
      while i < |lines|
        invariant 0 <= i <= |lines|
        invariant r == |Bucket(lines[..i], t)|
        invariant line !in lines[..i]
      {
        var l := lines[i];
        assert lines[..i + 1] == lines[..i] + [l];
        BucketSnoc(lines[..i], l, t);
        if TagOf(l) == t {
          r := r + 1;
          if l == line {
            FoundAt(lines, i, line);
            return;
          }
        }
        i := i + 1;
      }
      assert lines[..i] == lines;
      r := 0;
    }

    /** lines_add: returns the ordinal of an equal record already in the pool, or appends line
        and returns its new ordinal. */
    method Add(line: Line) returns (r: nat)
      requires Valid()
      modifies this
      ensures Valid()
      ensures lines == Insert(old(lines), line)
      ensures r == Lookup(lines, line)
      ensures line in old(lines) ==> lines == old(lines) && r == Lookup(old(lines), line)
      ensures line !in old(lines) ==> lines == old(lines) + [line] && r == |Bucket(old(lines), TagOf(line))| + 1
      ensures 1 <= r <= |Bucket(lines, TagOf(line))|
      ensures forall t :: t != TagOf(line) ==> Bucket(lines, t) == Bucket(old(lines), t)
    {
      InsertLookup(lines, line);
      InsertNoDup(lines, line);
      forall t | t != TagOf(line)
        ensures Bucket(Insert(lines, line), t) == Bucket(lines, t)
      {
        InsertBuckets(lines, line, t);
      }
      r := Find(line);
      if r != 0 {
        return;
      }
      lines := lines + [line];
      r := Find(line);
    }

    /** lines_count: the number of records of tag t. */
    method Count(t: Tag) returns (n: nat)
      ensures n == |Bucket(lines, t)|
    {
      n := 0;
      var i := 0;
      while i < |lines|
        invariant 0 <= i <= |lines|
        invariant n == |Bucket(lines[..i], t)|
      {
        assert lines[..i + 1] == lines[..i] + [lines[i]];
        BucketSnoc(lines[..i], lines[i], t);
        if TagOf(lines[i]) == t {
          n := n + 1;
        }
        i := i + 1;
      }
      assert lines[..i] == lines;
    }

    /** The reordering before the pool is written (`utarray_sort(lines, line_cmp)`), done as a
        stable partition: vertices, then normals, then faces, each in insertion order. */
    method Group()
      requires Valid()
      modifies this
      ensures Valid()
      ensures lines == Grouped(old(lines))
      ensures SortedByCmp(lines) && multiset(lines) == multiset(old(lines))
      ensures forall t :: Bucket(lines, t) == Bucket(old(lines), t)
    {
      var s := lines;
      var vs, vns, fs := [], [], [];
      var i := 0;
      while i < |s|
        invariant 0 <= i <= |s|
        invariant vs == Bucket(s[..i], V)
        invariant vns == Bucket(s[..i], VN)
        invariant fs == Bucket(s[..i], F)
      {
        var l := s[i];
        assert s[..i + 1] == s[..i] + [l];
        BucketSnoc(s[..i], l, V);
        BucketSnoc(s[..i], l, VN);
        BucketSnoc(s[..i], l, F);
        match TagOf(l) {
          case V => vs := vs + [l];
          case VN => vns := vns + [l];
          case F => fs := fs + [l];
        }
        i := i + 1;
      }
      assert s[..i] == s;
      GroupedFacts(s);
      lines := vs + vns + fs;
    }
  }

  lemma GroupedFacts(s: seq<Line>)
    ensures NoDup(s) ==> NoDup(Grouped(s))
    ensures SortedByCmp(Grouped(s)) && multiset(Grouped(s)) == multiset(s)
    ensures forall t :: Bucket(Grouped(s), t) == Bucket(s, t)
  {
    GroupedIsQsortOutcome(s);
    GroupedPermutation(s);
    forall t | true
      ensures Bucket(Grouped(s), t) == Bucket(s, t)
    {
      GroupedStable(s, t);
    }
  }

  /** When the scan of lines_find meets line at position i, having seen no equal record before,
      the count so far plus one is line's ordinal. */
  lemma FoundAt(s: seq<Line>, i: nat, line: Line)
    requires i < |s| && s[i] == line && line !in s[..i]
    ensures Lookup(s, line) == |Bucket(s[..i], TagOf(line))| + 1
  {
    var t := TagOf(line);
    var pre, post := s[..i], s[i + 1..];
    assert s == pre + [line] + post;
    BucketAppend(pre + [line], post, t);
    BucketSnoc(pre, line, t);
    BucketMembers(pre, t);
    IndexOfAfter(Bucket(pre, t), line, Bucket(post, t));
  }
}
