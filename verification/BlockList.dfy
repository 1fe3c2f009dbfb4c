/** The block allocator (BlockList.cpp): a sorted vector of ranges that denotes a finite set of indices. */
module BlockLists {

  datatype Range = Range(min: int, max: int)

  /** Non-empty ranges of naturals, sorted, with a gap between any two. */
  predicate WellFormed(rs: seq<Range>) {
    rs == [] ||
    (&& 0 <= rs[0].min <= rs[0].max
     && (|rs| > 1 ==> rs[0].max + 1 < rs[1].min)
     && WellFormed(rs[1..]))
  }

  predicate Between(lo: int, i: int, hi: int) { lo <= i <= hi }

  function Interval(lo: int, hi: int): set<int> { set i: int | lo <= i <= hi && Between(lo, i, hi) }

  lemma {:induction false} IntervalSize(lo: int, hi: int)
    requires lo <= hi + 1
    ensures |Interval(lo, hi)| == hi - lo + 1
    decreases hi - lo + 1
  {
    if lo <= hi {
      IntervalSize(lo, hi - 1);
      assert Interval(lo, hi) == Interval(lo, hi - 1) + {hi};
    }
  }

  /** The set of indices a range list stands for. */
  function Indices(rs: seq<Range>): set<int> {
    if rs == [] then {} else Interval(rs[0].min, rs[0].max) + Indices(rs[1..])
  }

  lemma {:induction false} IndicesConcat(a: seq<Range>, b: seq<Range>)
    ensures Indices(a + b) == Indices(a) + Indices(b)
  {
    if a == [] {
      assert a + b == b;
    } else {
      assert (a + b)[1..] == a[1..] + b;
      IndicesConcat(a[1..], b);
    }
  }

  lemma IndicesOne(r: Range)
    ensures Indices([r]) == Interval(r.min, r.max)
  {
    assert [r][1..] == [];
  }

  lemma IndicesConcat3(a: seq<Range>, b: seq<Range>, c: seq<Range>)
    ensures Indices(a + b + c) == Indices(a) + Indices(b) + Indices(c)
  {
    IndicesConcat(a + b, c);
    IndicesConcat(a, b);
  }

  lemma {:induction false} InBounds(rs: seq<Range>)
    requires WellFormed(rs)
    ensures forall i :: i in Indices(rs) ==> rs != [] && rs[0].min <= i <= rs[|rs| - 1].max
  {
    if |rs| == 1 {
      IndicesOne(rs[0]);
      assert rs == [rs[0]];
    } else if |rs| > 1 {
      InBounds(rs[1..]);
      assert rs[1..][|rs| - 2] == rs[|rs| - 1];
      assert rs[1..][0] == rs[1];
      assert rs[1].min in Indices(rs[1..]);
    }
  }

  lemma {:induction false} WellFormedConcat(a: seq<Range>, b: seq<Range>)
    ensures WellFormed(a + b) <==>
            WellFormed(a) && WellFormed(b) && (a != [] && b != [] ==> a[|a| - 1].max + 1 < b[0].min)
  {
    if a == [] {
      assert a + b == b;
    } else {
      assert (a + b)[1..] == a[1..] + b;
      WellFormedConcat(a[1..], b);
    }
  }

  lemma WellFormedConcat3(a: seq<Range>, b: seq<Range>, c: seq<Range>)
    requires b != []
    ensures WellFormed(a + b + c) <==>
            && WellFormed(a) && WellFormed(b) && WellFormed(c)
            && (a != [] ==> a[|a| - 1].max + 1 < b[0].min)
            && (c != [] ==> b[|b| - 1].max + 1 < c[0].min)
  {
    WellFormedConcat(a + b, c);
    WellFormedConcat(a, b);
  }

  /** Replacing neighbouring ranges by one range that covers them and `idx` adds exactly `idx`. */
  lemma Grown(left: seq<Range>, x: seq<Range>, right: seq<Range>, r: Range, idx: int)
    requires WellFormed(left) && WellFormed(right) && 0 <= r.min <= idx <= r.max
    requires idx !in Indices(x) && Interval(r.min, r.max) == Indices(x) + {idx}
    requires left != [] ==> left[|left| - 1].max + 1 < r.min
    requires right != [] ==> r.max + 1 < right[0].min
    ensures WellFormed(left + [r] + right)
    ensures idx !in Indices(left + x + right)
    ensures Indices(left + [r] + right) == Indices(left + x + right) + {idx}
  {
    IndicesConcat3(left, x, right);
    IndicesConcat3(left, [r], right);
    IndicesOne(r);
    InBounds(left);
    InBounds(right);
    WellFormedConcat3(left, [r], right);
  }

  /** The opposite replacement takes `idx` out. */
  lemma Shrunk(left: seq<Range>, r: Range, right: seq<Range>, y: seq<Range>, idx: int)
    requires WellFormed(left + [r] + right) && WellFormed(y) && r.min <= idx <= r.max
    requires idx !in Indices(y) && Interval(r.min, r.max) == Indices(y) + {idx}
    requires y != [] ==> r.min <= y[0].min && y[|y| - 1].max <= r.max
    ensures WellFormed(left + y + right)
    ensures idx in Indices(left + [r] + right)
    ensures Indices(left + y + right) == Indices(left + [r] + right) - {idx}
  {
    WellFormedConcat3(left, [r], right);
    IndicesConcat3(left, [r], right);
    IndicesConcat3(left, y, right);
    IndicesOne(r);
    InBounds(left);
    InBounds(right);
    if y == [] {
      assert left + y == left;
      WellFormedConcat(left, right);
    } else {
      WellFormedConcat3(left, y, right);
    }
  }

  /** The binary search. It finds the last range whose `min` is at most `idx`; the source's comment says "max". */
  function Search(rs: seq<Range>, idx: int, start: int, end: int): (r: int)
    requires 0 <= start <= end + 1 <= |rs|
    requires start > 0 ==> start < |rs| && rs[start].min <= idx
    requires end + 1 < |rs| ==> idx < rs[end + 1].min
    ensures -1 <= r < |rs|
    ensures r >= 0 ==> rs[r].min <= idx
    ensures r + 1 < |rs| ==> idx < rs[r + 1].min
    decreases end - start + 1
  {
    if start > end then -1
    else
      var mid := (start + end) / 2;
      var next := mid + 1;
      if idx >= rs[mid].min && (next >= |rs| || idx < rs[next].min) then mid
      else if idx < rs[mid].min then Search(rs, idx, start, mid - 1)
      else Search(rs, idx, mid + 1, end)
  }

  function Find(rs: seq<Range>, idx: int): (r: int)
    ensures -1 <= r < |rs|
    ensures r >= 0 ==> rs[r].min <= idx
    ensures r + 1 < |rs| ==> idx < rs[r + 1].min
  {
    Search(rs, idx, 0, |rs| - 1)
  }

  lemma FindDecides(rs: seq<Range>, idx: int)
    requires WellFormed(rs)
    ensures var r := Find(rs, idx); idx in Indices(rs) <==> r >= 0 && idx <= rs[r].max
  {
    var r := Find(rs, idx);
    if r < 0 {
      InBounds(rs);
    } else {
      var left, right := rs[..r], rs[r + 1..];
      assert rs == left + [rs[r]] + right;
      WellFormedConcat3(left, [rs[r]], right);
      IndicesConcat3(left, [rs[r]], right);
      IndicesOne(rs[r]);
      InBounds(left);
      InBounds(right);
    }
  }

  class BlockList {
    var ranges: seq<Range>

    ghost predicate Valid() reads this { WellFormed(ranges) }

    ghost function Allocated(): set<int> reads this { Indices(ranges) }

    constructor ()
      ensures Valid() && Allocated() == {}
    {
      ranges := [];
    }

    /** Takes the lowest free index. The "list corrupted" exception is unreachable. */
    method Alloc() returns (idx: int)
      requires Valid()
      modifies this
      ensures Valid()
      ensures 0 <= idx && idx !in old(Allocated())
      ensures forall j :: 0 <= j < idx ==> j in old(Allocated())
      ensures Allocated() == old(Allocated()) + {idx}
    {
      AllocGrows(ranges);
      if |ranges| == 0 || ranges[0].min > 1 {
        ranges := [Range(0, 0)] + ranges;
        return 0;
      }
      var range, rest := ranges[0], ranges[1..];
      if range.min == 1 {
        ranges := [Range(0, range.max)] + rest;
        return 0;
      }
      idx := range.max + 1;
      if |rest| > 0 {
        if idx >= rest[0].min {
          assert false;
        }
        if idx == rest[0].min - 1 {
          ranges := [Range(range.min, rest[0].max)] + rest[1..];
          return;
        }
      }
      ranges := [Range(range.min, idx)] + rest;
    }

    /** Gives an index back, or throws (`ok == false`) when it is not allocated.
        The source reads `Ranges[-1]` when no range starts at or below `idx`; callers must rule that out. */
    method Free(idx: int) returns (ok: bool)
      requires Valid() && 0 <= idx
      requires exists j :: 0 <= j <= idx && j in Allocated()
      modifies this
      ensures Valid()
      ensures ok <==> idx in old(Allocated())
      ensures Allocated() == old(Allocated()) - {idx}
    {
      var k := Find(ranges, idx);
      FindDecides(ranges, idx);
      InBounds(ranges);
      var range := ranges[k];
      if k < 0 || range.max < idx {
        return false;
      }
      FreeShrinks(ranges, k, idx);
      ok := true;
      var next := [];
      if range.min == idx {
        range := Range(idx + 1, range.max);
      } else if range.max == idx {
        range := Range(range.min, idx - 1);
      } else {
        next := [Range(idx + 1, range.max)];
        range := Range(range.min, idx - 1);
      }
      var kept := if range.min > range.max then [] else [range] + next;
      assert kept == Without(ranges[k], idx);
      ranges := ranges[..k] + kept + ranges[k + 1..];
    }

    method IsAllocated(idx: int) returns (b: bool)
      requires Valid() && 0 <= idx
      ensures b <==> idx in Allocated()
    {
      var k := Find(ranges, idx);
      FindDecides(ranges, idx);
      if k < 0 {
        return false;
      }
      return ranges[k].max >= idx;
    }

    /** Adds an index, or throws (`ok == false`) when it is already there. */
    method MarkAllocated(idx: int) returns (ok: bool)
      requires Valid() && 0 <= idx
      modifies this
      ensures Valid()
      ensures ok <==> idx !in old(Allocated())
      ensures Allocated() == old(Allocated()) + {idx}
    {
      var k := Find(ranges, idx);
      FindDecides(ranges, idx);
      if k >= 0 && ranges[k].max >= idx {
        return false;
      }
      MarkGrows(ranges, k, idx);
      ok := true;
      var range, left := Range(idx, idx), k + 1;
      if k >= 0 && idx == ranges[k].max + 1 {
        range, left := Range(ranges[k].min, idx), k;
      }
      var right := k + 1;
      if right < |ranges| && ranges[right].min == range.max + 1 {
        range, right := Range(range.min, ranges[right].max), right + 1;
      }
      ranges := ranges[..left] + [range] + ranges[right..];
    }

    method CountAllocated() returns (total: int)
      requires Valid()
      ensures total == |Allocated()|
    {
      total := 0;
      for i := 0 to |ranges|
        invariant total == |Indices(ranges[..i])|
      {
        total := total + ranges[i].max - ranges[i].min + 1;
        CountNext(ranges, i);
      }
      assert ranges[..|ranges|] == ranges;
    }
  }

  lemma CountNext(rs: seq<Range>, i: int)
    requires WellFormed(rs) && 0 <= i < |rs|
    ensures |Indices(rs[..i + 1])| == |Indices(rs[..i])| + rs[i].max - rs[i].min + 1
  {
    var left := rs[..i];
    assert rs == left + [rs[i]] + rs[i + 1..];
    WellFormedConcat3(left, [rs[i]], rs[i + 1..]);
    assert rs[..i + 1] == left + [rs[i]];
    IndicesConcat(left, [rs[i]]);
    IndicesOne(rs[i]);
    InBounds(left);
    IntervalSize(rs[i].min, rs[i].max);
    assert Indices(left) !! Interval(rs[i].min, rs[i].max);
  }

  /** The outcome `idx`, `after` of taking the lowest free index of `rs`. */
  ghost predicate Takes(rs: seq<Range>, idx: int, after: seq<Range>) {
    && WellFormed(after)
    && 0 <= idx && idx !in Indices(rs)
    && (forall j :: 0 <= j < idx ==> j in Indices(rs))
    && Indices(after) == Indices(rs) + {idx}
  }

  lemma AllocFirst(rs: seq<Range>)
    requires WellFormed(rs) && (rs == [] || rs[0].min > 1)
    ensures Takes(rs, 0, [Range(0, 0)] + rs)
  {
    Grown([], [], rs, Range(0, 0), 0);
    assert [] + [] + rs == rs && [] + [Range(0, 0)] + rs == [Range(0, 0)] + rs;
  }

  lemma AllocBelow(rs: seq<Range>)
    requires WellFormed(rs) && rs != [] && rs[0].min == 1
    ensures Takes(rs, 0, [Range(0, rs[0].max)] + rs[1..])
  {
    var r, rest := rs[0], rs[1..];
    IndicesOne(r);
    Grown([], [r], rest, Range(0, r.max), 0);
    assert [] + [r] + rest == rs && [] + [Range(0, r.max)] + rest == [Range(0, r.max)] + rest;
  }

  lemma AllocAbove(rs: seq<Range>)
    requires WellFormed(rs) && rs != [] && rs[0].min == 0
    requires |rs| > 1 ==> rs[0].max + 1 != rs[1].min - 1
    ensures Takes(rs, rs[0].max + 1, [Range(0, rs[0].max + 1)] + rs[1..])
  {
    var r, rest, idx := rs[0], rs[1..], rs[0].max + 1;
    GrowsAbove(r, rest);
    HeadIsLeastRun(rs);
    assert forall j :: 0 <= j < idx ==> Between(0, j, rs[0].max);
  }

  lemma GrowsAbove(r: Range, rest: seq<Range>)
    requires WellFormed([r] + rest) && (rest != [] ==> r.max + 2 < rest[0].min)
    ensures WellFormed([Range(r.min, r.max + 1)] + rest)
    ensures r.max + 1 !in Indices([r] + rest)
    ensures Indices([Range(r.min, r.max + 1)] + rest) == Indices([r] + rest) + {r.max + 1}
  {
    var idx := r.max + 1;
    WellFormedConcat([r], rest);
    IndicesOne(r);
    Grown([], [r], rest, Range(r.min, idx), idx);
    assert [] + [r] == [r] && [] + [Range(r.min, idx)] == [Range(r.min, idx)];
  }

  lemma AllocMerging(rs: seq<Range>)
    requires WellFormed(rs) && |rs| > 1 && rs[0].min == 0 && rs[0].max + 1 == rs[1].min - 1
    ensures Takes(rs, rs[0].max + 1, [Range(0, rs[1].max)] + rs[1..][1..])
  {
    var rest := rs[1..][1..];
    assert [] + [rs[0], rs[1]] + rest == rs;
    assert [] + [Range(0, rs[1].max)] + rest == [Range(0, rs[1].max)] + rest;
    Merged([], rs[0], rs[1], rest, rs[0].max + 1);
    assert Indices(rs) == Interval(0, rs[0].max) + Indices(rs[1..]);
  }

  /** The four ways `Alloc` rewrites the head of the list. */
  lemma AllocGrows(rs: seq<Range>)
    requires WellFormed(rs)
    ensures rs == [] || rs[0].min > 1 ==> Takes(rs, 0, [Range(0, 0)] + rs)
    ensures rs != [] && rs[0].min == 1 ==> Takes(rs, 0, [Range(0, rs[0].max)] + rs[1..])
    ensures rs != [] && rs[0].min == 0 ==>
              var idx := rs[0].max + 1;
              if |rs| > 1 && idx == rs[1].min - 1
              then Takes(rs, idx, [Range(0, rs[1].max)] + rs[1..][1..])
              else Takes(rs, idx, [Range(0, idx)] + rs[1..])
  {
    if rs == [] || rs[0].min > 1 {
      AllocFirst(rs);
    } else if rs[0].min == 1 {
      AllocBelow(rs);
    } else if |rs| > 1 && rs[0].max + 1 == rs[1].min - 1 {
      AllocMerging(rs);
    } else {
      AllocAbove(rs);
    }
  }

  lemma FreeShrinks(rs: seq<Range>, k: int, idx: int)
    requires WellFormed(rs) && 0 <= k < |rs| && rs[k].min <= idx <= rs[k].max
    ensures var after := rs[..k] + Without(rs[k], idx) + rs[k + 1..];
            WellFormed(after) && Indices(after) == Indices(rs) - {idx}
  {
    var left, r, right := rs[..k], rs[k], rs[k + 1..];
    assert rs == left + [r] + right;
    if r.min == r.max {
      Shrunk(left, r, right, [], idx);
    } else {
      SplitAt(left, r, right, idx);
    }
  }

  /** The four ways `MarkAllocated` rewrites the ranges around its place `k`. */
  lemma MarkGrows(rs: seq<Range>, k: int, idx: int)
    requires WellFormed(rs) && -1 <= k < |rs| && 0 <= idx
    requires k >= 0 ==> rs[k].max < idx
    requires k + 1 < |rs| ==> idx < rs[k + 1].min
    ensures var joinsLeft := k >= 0 && idx == rs[k].max + 1;
            var joinsRight := k + 1 < |rs| && rs[k + 1].min == idx + 1;
            && (joinsLeft && joinsRight ==> Adds(rs, k, k + 2, Range(rs[k].min, rs[k + 1].max), idx))
            && (joinsLeft && !joinsRight ==> Adds(rs, k, k + 1, Range(rs[k].min, idx), idx))
            && (!joinsLeft && joinsRight ==> Adds(rs, k + 1, k + 2, Range(idx, rs[k + 1].max), idx))
            && (!joinsLeft && !joinsRight ==> Adds(rs, k + 1, k + 1, Range(idx, idx), idx))
  {
    var joinsLeft := k >= 0 && idx == rs[k].max + 1;
    var joinsRight := k + 1 < |rs| && rs[k + 1].min == idx + 1;
    if joinsLeft && joinsRight {
      MarkBoth(rs, k, idx);
    } else if joinsLeft {
      MarkLeft(rs, k, idx);
    } else if joinsRight {
      MarkRight(rs, k, idx);
    } else {
      MarkAlone(rs, k, idx);
    }
  }

  lemma EmptySlice(rs: seq<Range>, i: nat)
    requires i <= |rs|
    ensures rs[i..i] == [] && Indices(rs[i..i]) == {}
  {
  }

  lemma OneIndex(idx: int)
    ensures Interval(idx, idx) == {idx}
  {
  }

  lemma MarkAlone(rs: seq<Range>, k: int, idx: int)
    requires WellFormed(rs) && 0 <= k + 1 <= |rs| && 0 <= idx
    requires k >= 0 ==> rs[k].max + 1 < idx
    requires k + 1 < |rs| ==> idx + 1 < rs[k + 1].min
    ensures Adds(rs, k + 1, k + 1, Range(idx, idx), idx)
  {
    EmptySlice(rs, k + 1);
    OneIndex(idx);
    GrownAt(rs, k + 1, k + 1, Range(idx, idx), idx);
  }

  lemma MarkLeft(rs: seq<Range>, k: int, idx: int)
    requires WellFormed(rs) && 0 <= k < |rs| && idx == rs[k].max + 1
    requires k + 1 < |rs| ==> idx + 1 < rs[k + 1].min
    ensures Adds(rs, k, k + 1, Range(rs[k].min, idx), idx)
  {
    Ordered(rs, k);
    SmallIndices(rs[k..k + 1]);
    GrownAt(rs, k, k + 1, Range(rs[k].min, idx), idx);
  }

  lemma MarkRight(rs: seq<Range>, k: int, idx: int)
    requires WellFormed(rs) && 0 <= k + 1 < |rs| && idx + 1 == rs[k + 1].min && 0 <= idx
    requires k >= 0 ==> rs[k].max + 1 < idx
    ensures Adds(rs, k + 1, k + 2, Range(idx, rs[k + 1].max), idx)
  {
    Ordered(rs, k + 1);
    SmallIndices(rs[k + 1..k + 2]);
    GrownAt(rs, k + 1, k + 2, Range(idx, rs[k + 1].max), idx);
  }

  lemma MarkBoth(rs: seq<Range>, k: int, idx: int)
    requires WellFormed(rs) && 0 <= k < |rs| - 1 && rs[k].max + 1 == idx == rs[k + 1].min - 1
    ensures Adds(rs, k, k + 2, Range(rs[k].min, rs[k + 1].max), idx)
  {
    Ordered(rs, k);
    Ordered(rs, k + 1);
    SmallIndices(rs[k..k + 2]);
    GrownAt(rs, k, k + 2, Range(rs[k].min, rs[k + 1].max), idx);
  }

  /** Putting `r` in the place of `rs[i..j]` adds exactly `idx`. */
  ghost predicate Adds(rs: seq<Range>, i: int, j: int, r: Range, idx: int)
    requires 0 <= i <= j <= |rs|
  {
    var after := rs[..i] + [r] + rs[j..];
    WellFormed(after) && Indices(after) == Indices(rs) + {idx}
  }

  lemma GrownAt(rs: seq<Range>, i: int, j: int, r: Range, idx: int)
    requires WellFormed(rs) && 0 <= i <= j <= |rs| && 0 <= r.min <= idx <= r.max
    requires idx !in Indices(rs[i..j]) && Interval(r.min, r.max) == Indices(rs[i..j]) + {idx}
    requires 0 < i ==> rs[i - 1].max + 1 < r.min
    requires j < |rs| ==> r.max + 1 < rs[j].min
    ensures Adds(rs, i, j, r, idx)
  {
    Cut(rs, i);
    Cut(rs, j);
    ThreeParts(rs, i, j);
    Grown(rs[..i], rs[i..j], rs[j..], r, idx);
  }

  lemma ThreeParts(rs: seq<Range>, i: int, j: int)
    requires 0 <= i <= j <= |rs|
    ensures rs[..i] + rs[i..j] + rs[j..] == rs
  {
  }

  lemma Ordered(rs: seq<Range>, k: int)
    requires WellFormed(rs) && 0 <= k < |rs|
    ensures 0 <= rs[k].min <= rs[k].max
    ensures k > 0 ==> rs[k - 1].max + 1 < rs[k].min
    ensures k + 1 < |rs| ==> rs[k].max + 1 < rs[k + 1].min
  {
    Cut(rs, k);
    Cut(rs, k + 1);
  }

  lemma SmallIndices(x: seq<Range>)
    requires |x| <= 2
    ensures x == [] ==> Indices(x) == {}
    ensures |x| == 1 ==> Indices(x) == Interval(x[0].min, x[0].max)
    ensures |x| == 2 ==> Indices(x) == Interval(x[0].min, x[0].max) + Interval(x[1].min, x[1].max)
  {
    if |x| > 0 {
      IndicesOne(x[|x| - 1]);
      assert x[|x| - 1..] == [x[|x| - 1]];
    }
  }

  lemma Cut(rs: seq<Range>, i: int)
    requires WellFormed(rs) && 0 <= i <= |rs|
    ensures WellFormed(rs[..i]) && WellFormed(rs[i..])
    ensures 0 < i < |rs| ==> rs[i - 1].max + 1 < rs[i].min
  {
    assert rs == rs[..i] + rs[i..];
    WellFormedConcat(rs[..i], rs[i..]);
  }

  lemma Merged(left: seq<Range>, a: Range, b: Range, right: seq<Range>, idx: int)
    requires WellFormed(left + [a, b] + right)
    requires idx == a.max + 1 == b.min - 1
    ensures WellFormed(left + [Range(a.min, b.max)] + right)
    ensures idx !in Indices(left + [a, b] + right)
    ensures Indices(left + [Range(a.min, b.max)] + right) == Indices(left + [a, b] + right) + {idx}
  {
    WellFormedConcat3(left, [a, b], right);
    IndicesConcat([a], [b]);
    IndicesOne(a);
    IndicesOne(b);
    assert [a] + [b] == [a, b];
    Grown(left, [a, b], right, Range(a.min, b.max), idx);
  }

  /** What is left of one range when `idx` is taken out. */
  ghost function Without(r: Range, idx: int): seq<Range> {
    if r.min == r.max then []
    else if r.min == idx then [Range(idx + 1, r.max)]
    else if r.max == idx then [Range(r.min, idx - 1)]
    else [Range(r.min, idx - 1), Range(idx + 1, r.max)]
  }

  lemma SplitAt(left: seq<Range>, r: Range, right: seq<Range>, idx: int)
    requires WellFormed(left + [r] + right) && r.min <= idx <= r.max && r.min < r.max
    ensures WellFormed(left + Without(r, idx) + right)
    ensures Indices(left + Without(r, idx) + right) == Indices(left + [r] + right) - {idx}
  {
    var y := Without(r, idx);
    WellFormedConcat3(left, [r], right);
    assert 0 <= [r][0].min;
    IndicesOne(y[0]);
    if |y| == 2 {
      IndicesConcat([y[0]], [y[1]]);
      IndicesOne(y[1]);
      assert [y[0]] + [y[1]] == y;
    }
    Shrunk(left, r, right, y, idx);
  }

  /** The range list is a canonical form of its set. */
  lemma {:induction false} Canonical(a: seq<Range>, b: seq<Range>)
    requires WellFormed(a) && WellFormed(b) && Indices(a) == Indices(b)
    ensures a == b
    decreases |a|
  {
    if a != [] { HeadIsLeastRun(a); }
    if b != [] { HeadIsLeastRun(b); }
    if a != [] && b != [] {
      assert a[0].min == b[0].min;
      assert Between(b[0].min, a[0].max + 1, b[0].max) <==> a[0].max < b[0].max;
      assert Between(a[0].min, b[0].max + 1, a[0].max) <==> b[0].max < a[0].max;
      Canonical(a[1..], b[1..]);
      assert a == [a[0]] + a[1..] && b == [b[0]] + b[1..];
    }
  }

  lemma HeadIsLeastRun(rs: seq<Range>)
    requires WellFormed(rs) && rs != []
    ensures rs[0].min in Indices(rs) && forall i :: i in Indices(rs) ==> rs[0].min <= i
    ensures forall i :: Between(rs[0].min, i, rs[0].max) ==> i in Indices(rs)
    ensures rs[0].max + 1 !in Indices(rs)
    ensures Indices(rs[1..]) == Indices(rs) - Interval(rs[0].min, rs[0].max)
  {
    InBounds(rs);
    InBounds(rs[1..]);
  }
}
