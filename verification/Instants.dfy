/** Intervals of integer ticks and the set of instants they stand for.  Tick t is the
    half-open unit [t, t + 1), so an interval covers the ticks start <= t < end. */
module Instants {
  import opened Common
  import opened Sorting

  datatype Interval = Interval(start: int, end: int)

  function Clip(iv: Interval, w: Interval): Interval {
    Interval(Max(w.start, iv.start), Min(w.end, iv.end))
  }

  ghost predicate Has(iv: Interval, t: int) { iv.start <= t < iv.end }

  ghost function Span(iv: Interval): set<int> {
    set t | iv.start <= t < iv.end && Has(iv, t)
  }

  ghost function Cover(s: seq<Interval>): set<int> {
    set iv, t | iv in s && iv.start <= t < iv.end && Has(iv, t) :: t
  }

  lemma {:induction false} SpanSize(iv: Interval)
    ensures |Span(iv)| == if iv.start <= iv.end then iv.end - iv.start else 0
    decreases iv.end - iv.start
  {
    if iv.start < iv.end {
      var rest := Interval(iv.start, iv.end - 1);
      SpanSize(rest);
      assert Span(iv) == Span(rest) + {iv.end - 1};
    } else {
      assert Span(iv) == {};
    }
  }

  lemma CoverNone()
    ensures Cover([]) == {}
  {}

  lemma CoverSingle(iv: Interval)
    ensures Cover([iv]) == Span(iv)
  {
    forall t | t in Span(iv) ensures t in Cover([iv]) {
      assert iv in [iv] && Has(iv, t);
    }
  }

  lemma CoverPush(s: seq<Interval>, iv: Interval)
    ensures Cover(s + [iv]) == Cover(s) + Span(iv)
  {
    forall t ensures t in Cover(s + [iv]) <==> t in Cover(s) + Span(iv) {
      if t in Cover(s) {
        var x :| x in s && Has(x, t);
        assert x in s + [iv];
      }
      if t in Span(iv) {
        assert iv in s + [iv];
      }
    }
  }

  lemma CoverConcat(a: seq<Interval>, b: seq<Interval>)
    ensures Cover(a + b) == Cover(a) + Cover(b)
  {
    forall t ensures t in Cover(a + b) <==> t in Cover(a) + Cover(b) {
      if t in Cover(a) {
        var x :| x in a && Has(x, t);
        assert x in a + b;
      }
      if t in Cover(b) {
        var x :| x in b && Has(x, t);
        assert x in a + b;
      }
    }
  }

  // The tuple order of Python's sorted() on (start, end) pairs.
  predicate IntervalLeq(a: Interval, b: Interval) {
    a.start < b.start || (a.start == b.start && a.end <= b.end)
  }

  function Ordered(s: seq<Interval>): seq<Interval> { Sort(s, IntervalLeq) }

  lemma OrderedFacts(s: seq<Interval>)
    ensures SortedBy(Ordered(s), IntervalLeq)
    ensures forall x :: x in Ordered(s) <==> x in s
    ensures Cover(Ordered(s)) == Cover(s)
  {
    SortSorted(s, IntervalLeq);
    SortElements(s, IntervalLeq);
  }

  // The intervals of non-negative length, in their original order.
  function Kept(s: seq<Interval>): seq<Interval> {
    if s == [] then []
    else (if s[0].end >= s[0].start then [s[0]] else []) + Kept(s[1..])
  }

  lemma KeptElements(s: seq<Interval>)
    ensures forall x :: x in Kept(s) <==> x in s && x.start <= x.end
  {}

  lemma KeptCover(s: seq<Interval>)
    ensures Cover(Kept(s)) == Cover(s)
  {
    KeptElements(s);
  }

  // What the merge consumes: the intervals that do not run backwards, in tuple order.
  function MergeInput(intervals: seq<Interval>): seq<Interval> { Ordered(Kept(intervals)) }

  lemma MergeInputFacts(intervals: seq<Interval>)
    ensures var r := MergeInput(intervals);
            && (forall i | 0 <= i < |r| :: r[i].start <= r[i].end)
            && (forall i | 0 < i < |r| :: r[i - 1].start <= r[i].start)
            && Cover(r) == Cover(intervals)
  {
    OrderedFacts(Kept(intervals));
    KeptCover(intervals);
    KeptElements(intervals);
    var r := MergeInput(intervals);
    forall i | 0 <= i < |r| ensures r[i].start <= r[i].end {
      assert r[i] in r;
    }
    forall i | 0 < i < |r| ensures r[i - 1].start <= r[i].start {
      assert IntervalLeq(r[i - 1], r[i]);
    }
  }

  // What the merge knows after a prefix: the open run, and the instants before it, counted.
  ghost predicate Merged(prefix: seq<Interval>, total: int, run: Interval) {
    && run.start <= run.end
    && Span(run) <= Cover(prefix)
    && total == |Cover(prefix) - Span(run)|
    && forall t | t in Cover(prefix) :: t < run.end
  }

  lemma MergeStarts(first: Interval)
    requires first.start <= first.end
    ensures Merged([first], 0, first)
  {
    CoverSingle(first);
    assert Cover([first]) - Span(first) == {};
  }

  lemma MergeExtends(prefix: seq<Interval>, total: int, run: Interval, next: Interval)
    requires Merged(prefix, total, run)
    requires run.start <= next.start <= run.end
    ensures Merged(prefix + [next], total, Interval(run.start, Max(run.end, next.end)))
  {
    var longer := Interval(run.start, Max(run.end, next.end));
    var before, after := Cover(prefix), Cover(prefix + [next]);
    CoverPush(prefix, next);
    forall t ensures t in Span(longer) <==> t in Span(run) || t in Span(next) {}
    assert after - Span(longer) == before - Span(run);
  }

  lemma MergeCloses(prefix: seq<Interval>, total: int, run: Interval, next: Interval)
    requires Merged(prefix, total, run)
    requires run.end < next.start <= next.end
    ensures Merged(prefix + [next], total + run.end - run.start, next)
  {
    CoverPush(prefix, next);
    MergeTotal(prefix, total, run);
    assert Cover(prefix + [next]) - Span(next) == Cover(prefix);
  }

  lemma MergeTotal(prefix: seq<Interval>, total: int, run: Interval)
    requires Merged(prefix, total, run)
    ensures |Cover(prefix)| == total + run.end - run.start
  {
    SpanSize(run);
    assert Cover(prefix) == (Cover(prefix) - Span(run)) + Span(run);
  }

  /** Sort, then merge: the length returned is the number of instants in the union, for
      every input, overlapping, touching, repeated, empty or inverted. */
  method UnionDuration(intervals: seq<Interval>) returns (total: int)
    ensures total == |Cover(intervals)|
  {
    hide *;
    var ordered := MergeInput(intervals);
    MergeInputFacts(intervals);
    if ordered == [] {
      CoverNone();
      return 0;
    }
    total := 0;
    var currentStart, currentEnd := ordered[0].start, ordered[0].end;
    MergeStarts(ordered[0]);
    assert ordered[..1] == [ordered[0]];
    for i := 1 to |ordered|
      invariant currentStart <= ordered[i - 1].start
      invariant Merged(ordered[..i], total, Interval(currentStart, currentEnd))
    {
      var start, end := ordered[i].start, ordered[i].end;
      assert ordered[..i + 1] == ordered[..i] + [ordered[i]];
      if start <= currentEnd {
        MergeExtends(ordered[..i], total, Interval(currentStart, currentEnd), ordered[i]);
        currentEnd := Max(currentEnd, end);
        continue;
      }
      MergeCloses(ordered[..i], total, Interval(currentStart, currentEnd), ordered[i]);
      total := total + currentEnd - currentStart;
      currentStart, currentEnd := start, end;
    }
    assert ordered[..|ordered|] == ordered;
    MergeTotal(ordered, total, Interval(currentStart, currentEnd));
    total := total + currentEnd - currentStart;
  }

  // Every interval of s clipped to w.
  function Clipped(s: seq<Interval>, w: Interval): seq<Interval> {
    if s == [] then [] else [Clip(s[0], w)] + Clipped(s[1..], w)
  }

  lemma {:induction false} ClippedCover(s: seq<Interval>, w: Interval)
    ensures Cover(Clipped(s, w)) == Cover(s) * Span(w)
  {
    if s == [] {
      assert Cover(s) == {};
    } else {
      ClippedCover(s[1..], w);
      CoverConcat([Clip(s[0], w)], Clipped(s[1..], w));
      CoverConcat([s[0]], s[1..]);
      assert s == [s[0]] + s[1..];
      CoverSingle(s[0]);
      CoverSingle(Clip(s[0], w));
      assert Span(Clip(s[0], w)) == Span(s[0]) * Span(w) by {
        forall t ensures Has(Clip(s[0], w), t) <==> Has(s[0], t) && Has(w, t) {}
      }
    }
  }

  /** The overlap of one interval with a family is the size of the intersection. */
  method DirectIntervalOverlap(iv: Interval, others: seq<Interval>) returns (overlap: int)
    ensures overlap == |Span(iv) * Cover(others)|
  {
    ClippedCover(others, iv);
    assert Cover(others) * Span(iv) == Span(iv) * Cover(others);
    overlap := UnionDuration(Clipped(others, iv));
  }
}
