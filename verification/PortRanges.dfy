/** Sets of ports as sorted, merged ranges. */
module PortRanges {
  import opened Prelude

  type Port = x: nat | x < 0x1_0000

  datatype Range = Range(start: Port, finish: Port)

  predicate Before(a: Range, b: Range) {
    a.start < b.start || (a.start == b.start && a.finish <= b.finish)
  }

  predicate Sorted(rs: seq<Range>) {
    forall i, j | 0 <= i < j < |rs| :: Before(rs[i], rs[j])
  }

  predicate In(r: Range, port: Port) {
    r.start <= port <= r.finish
  }

  /** Some range holds the port; a range that ends before it starts holds none. */
  predicate Covered(rs: seq<Range>, port: Port) {
    exists i | 0 <= i < |rs| :: In(rs[i], port)
  }

  /** Sorted, disjoint and not even touching. */
  predicate Canonical(rs: seq<Range>) {
    && (forall i | 0 <= i < |rs| :: rs[i].start <= rs[i].finish)
    && (forall i, j | 0 <= i < j < |rs| :: rs[i].finish + 1 < rs[j].start)
  }

  // ---- Sorting ----

  function Insert(rs: seq<Range>, r: Range): seq<Range> {
    if rs == [] || Before(rs[|rs| - 1], r) then rs + [r]
    else Insert(rs[..|rs| - 1], r) + [rs[|rs| - 1]]
  }

  lemma {:induction false} InsertKeeps(rs: seq<Range>, r: Range)
    requires Sorted(rs)
    ensures Sorted(Insert(rs, r)) && multiset(Insert(rs, r)) == multiset(rs) + multiset{r}
  {
    if rs == [] || Before(rs[|rs| - 1], r) {
      SortedMore(rs, r);
    } else {
      var front, last := rs[..|rs| - 1], rs[|rs| - 1];
      assert rs == front + [last];
      InsertKeeps(front, r);
      forall x | x in Insert(front, r) ensures Before(x, last) {
        InsertMembers(front, r, x);
      }
      SortedMore(Insert(front, r), last);
    }
  }

  lemma {:induction false} InsertMembers(rs: seq<Range>, r: Range, x: Range)
    ensures x in Insert(rs, r) <==> x in rs || x == r
  {
    if rs != [] && !Before(rs[|rs| - 1], r) {
      InsertMembers(rs[..|rs| - 1], r, x);
      assert rs == rs[..|rs| - 1] + [rs[|rs| - 1]];
    }
  }

  lemma SortedMore(rs: seq<Range>, last: Range)
    requires Sorted(rs) && (rs == [] || Before(rs[|rs| - 1], last) || forall x | x in rs :: Before(x, last))
    ensures Sorted(rs + [last])
  {
  }

  /** What `std::ranges::sort` does to the ranges. */
  method Sort(rs: seq<Range>) returns (s: seq<Range>)
    ensures Sorted(s) && multiset(s) == multiset(rs)
  {
    s := [];
    for i := 0 to |rs|
      invariant Sorted(s) && multiset(s) == multiset(rs[..i])
    {
      InsertKeeps(s, rs[i]);
      assert rs[..i + 1] == rs[..i] + [rs[i]];
      s := Insert(s, rs[i]);
    }
    assert rs[..|rs|] == rs;
  }

  lemma SameCover(a: seq<Range>, b: seq<Range>, port: Port)
    requires multiset(a) == multiset(b)
    ensures Covered(a, port) <==> Covered(b, port)
  {
    if Covered(a, port) {
      var i :| 0 <= i < |a| && In(a[i], port);
      assert a[i] in multiset(b);
    }
    if Covered(b, port) {
      var i :| 0 <= i < |b| && In(b[i], port);
      assert b[i] in multiset(a);
    }
  }

  // ---- Merging ----

  /** One turn of the merging loop. */
  function Merge(m: seq<Range>, r: Range): seq<Range> {
    if r.start > r.finish then m
    else if m == [] || r.start > m[|m| - 1].finish + 1 then m + [r]
    else m[|m| - 1 := Range(m[|m| - 1].start, Max(m[|m| - 1].finish, r.finish))]
  }

  lemma MergeKeeps(m: seq<Range>, r: Range)
    requires Canonical(m) && (m != [] ==> m[|m| - 1].start <= r.start)
    ensures Canonical(Merge(m, r))
    ensures Merge(m, r) != [] ==> Merge(m, r)[|Merge(m, r)| - 1].start <= r.start
  {
  }

  lemma MergeCovers(m: seq<Range>, r: Range, port: Port)
    requires Canonical(m) && (m != [] ==> m[|m| - 1].start <= r.start)
    ensures Covered(Merge(m, r), port) <==> Covered(m, port) || In(r, port)
  {
    var d := Merge(m, r);
    if Covered(m, port) {
      var i :| 0 <= i < |m| && In(m[i], port);
      assert In(d[i], port);
    }
    if In(r, port) {
      assert In(d[|d| - 1], port);
    }
    if Covered(d, port) {
      var i :| 0 <= i < |d| && In(d[i], port);
      if i < |m| {
        assert In(m[i], port) || In(r, port);
      }
    }
  }

  lemma CoveredSnoc(rs: seq<Range>, r: Range, port: Port)
    ensures Covered(rs + [r], port) <==> Covered(rs, port) || In(r, port)
  {
    if Covered(rs, port) {
      var i :| 0 <= i < |rs| && In(rs[i], port);
      assert (rs + [r])[i] == rs[i];
    }
    assert (rs + [r])[|rs|] == r;
    if Covered(rs + [r], port) {
      var i :| 0 <= i < |rs| + 1 && In((rs + [r])[i], port);
      assert i < |rs| ==> (rs + [r])[i] == rs[i];
    }
  }

  /** There is only one canonical list for a set of ports. */
  lemma {:induction false} CanonicalIsUnique(a: seq<Range>, b: seq<Range>)
    requires Canonical(a) && Canonical(b) && forall port: Port :: Covered(a, port) <==> Covered(b, port)
    ensures a == b
    decreases |a|
  {
    if a == [] {
      FirstCovered(b);
    } else {
      assert In(a[0], a[0].start) && Covered(a, a[0].start) && Covered(b, a[0].start);
      FirstIsSame(a, b);
      FirstIsSame(b, a);
      var x, y := a[1..], b[1..];
      forall port: Port ensures Covered(x, port) <==> Covered(y, port) {
        TailCovers(a, port);
        TailCovers(b, port);
      }
      CanonicalIsUnique(x, y);
      assert a == [a[0]] + x && b == [b[0]] + y;
    }
  }

  lemma FirstCovered(rs: seq<Range>)
    requires Canonical(rs)
    ensures rs != [] ==> Covered(rs, rs[0].start)
  {
    if rs != [] {
      assert In(rs[0], rs[0].start);
    }
  }

  lemma FirstIsSame(a: seq<Range>, b: seq<Range>)
    requires a != [] && b != [] && Canonical(a) && Canonical(b) && forall port: Port :: Covered(a, port) ==> Covered(b, port)
    ensures b[0].start <= a[0].start
    ensures a[0].start == b[0].start ==> a[0].finish <= b[0].finish
  {
    assert In(a[0], a[0].start) && Covered(a, a[0].start);
    var i :| 0 <= i < |b| && In(b[i], a[0].start);
    if a[0].start == b[0].start && b[0].finish < a[0].finish {
      GapShows(a, b);
    }
  }

  lemma GapShows(a: seq<Range>, b: seq<Range>)
    requires a != [] && b != [] && Canonical(b) && a[0].start == b[0].start && b[0].finish < a[0].finish
    requires b[0].start <= b[0].finish
    ensures exists port: Port :: Covered(a, port) && !Covered(b, port)
  {
    GapIsFree(b);
    assert In(a[0], b[0].finish + 1);
    assert Covered(a, b[0].finish + 1);
  }

  lemma GapIsFree(b: seq<Range>)
    requires b != [] && Canonical(b)
    ensures b[0].finish + 1 < 0x1_0000 ==> !Covered(b, b[0].finish + 1)
  {
  }

  lemma TailCovers(a: seq<Range>, port: Port)
    requires a != [] && Canonical(a)
    ensures Covered(a[1..], port) <==> Covered(a, port) && !In(a[0], port)
  {
    if Covered(a[1..], port) {
      var i :| 0 <= i < |a[1..]| && In(a[1..][i], port);
      assert In(a[i + 1], port);
    }
    if Covered(a, port) && !In(a[0], port) {
      var i :| 0 <= i < |a| && In(a[i], port);
      assert a[1..][i - 1] == a[i];
    }
  }

  ghost predicate SamePorts(a: seq<Range>, b: seq<Range>) {
    forall port: Port :: Covered(a, port) <==> Covered(b, port)
  }

  class PortRangeSet {
    var ranges: seq<Range>

    /** The constructor: sorted, merged, and holding the ports of the given ranges. */
    constructor (given: seq<Range>)
      ensures Canonical(ranges) && forall port: Port :: Covered(ranges, port) <==> Covered(given, port)
    {
      ranges := [];
      new;
      var sorted := Sort(given);
      var i := 0;
      while i < |sorted|
        modifies this`ranges
        invariant 0 <= i <= |sorted| && Canonical(ranges)
        invariant ranges != [] && i < |sorted| ==> ranges[|ranges| - 1].start <= sorted[i].start
        invariant SamePorts(ranges, sorted[..i])
      {
        MergeStep(ranges, sorted, i);
        MergeIn(sorted[i]);
        i := i + 1;
      }
      assert sorted[..i] == sorted;
      forall port: Port ensures Covered(ranges, port) <==> Covered(given, port) {
        SameCover(sorted, given, port);
      }
    }

    /** One turn of the merging loop. */
    method MergeIn(r: Range)
      modifies this`ranges
      ensures ranges == Merge(old(ranges), r)
    {
      if r.start <= r.finish {
        if ranges == [] || r.start > ranges[|ranges| - 1].finish + 1 {
          ranges := ranges + [r];
        } else {
          var last := ranges[|ranges| - 1];
          ranges := ranges[..|ranges| - 1] + [Range(last.start, Max(last.finish, r.finish))];
        }
      }
    }

    /** `contains`: a binary search for the last range that starts no later than the port. */
    method Contains(port: Port) returns (r: bool)
      requires Canonical(ranges)
      ensures r == Covered(ranges, port)
    {
      var lo, hi := 0, |ranges|;
      while lo < hi
        invariant 0 <= lo <= hi <= |ranges|
        invariant forall k | 0 <= k < lo :: ranges[k].start <= port
        invariant forall k | hi <= k < |ranges| :: port < ranges[k].start
      {
        var mid := (lo + hi) / 2;
        if port < ranges[mid].start {
          hi := mid;
        } else {
          lo := mid + 1;
        }
      }
      if lo == 0 {
        return false;
      }
      r := port <= ranges[lo - 1].finish;
      if r {
        assert In(ranges[lo - 1], port);
      } else {
        assert forall k | 0 <= k < |ranges| :: !In(ranges[k], port);
      }
    }
  }

  lemma MergeStep(m: seq<Range>, sorted: seq<Range>, i: nat)
    requires i < |sorted| && Sorted(sorted) && Canonical(m) && (m != [] ==> m[|m| - 1].start <= sorted[i].start)
    requires SamePorts(m, sorted[..i])
    ensures var d := Merge(m, sorted[i]);
      && Canonical(d) && (d != [] && i + 1 < |sorted| ==> d[|d| - 1].start <= sorted[i + 1].start)
      && SamePorts(d, sorted[..i + 1])
  {
    var r := sorted[i];
    MergeKeeps(m, r);
    assert i + 1 < |sorted| ==> Before(r, sorted[i + 1]);
    forall port: Port ensures Covered(Merge(m, r), port) <==> Covered(sorted[..i + 1], port) {
      MergeCovers(m, r, port);
      CoveredSnoc(sorted[..i], r, port);
      assert sorted[..i + 1] == sorted[..i] + [r];
    }
  }

  /** Every list of ranges and every port: the set answers as the list itself would. */
  method Query(given: seq<Range>, port: Port) returns (r: bool)
    ensures r <==> exists i | 0 <= i < |given| :: given[i].start <= port <= given[i].finish
  {
    var ports := new PortRangeSet(given);
    r := ports.Contains(port);
    assert Covered(given, port) <==> exists i | 0 <= i < |given| :: given[i].start <= port <= given[i].finish;
  }
}
