/** The boundary sweep: how long each exact set of stages was active in a window, against the
    instant-by-instant meaning of "the set of active stages". */
module Sweep {
  import opened Common
  import opened Sorting
  import opened Instants

  datatype Stage =
    | Request | RolloutOrchestration | RolloutAdmissionWait | RolloutQueue | Generation
    | Evaluation | TurnJudge | Reward | Transfer | DataWait | Training | WeightGateWait
    | WeightUpdate | WeightValidation

  datatype Event = Event(name: string, stage: Stage, start: int, end: int, step: Option<int>, pid: int)

  // A label is the set of stages it joins; the empty set stands for "no_observed_span".
  type Label = set<Stage>

  datatype Boundary = Boundary(time: int, delta: int, stage: Stage)

  ghost predicate Active(e: Event, t: int) { e.start <= t < e.end }

  ghost function ActiveStages(events: seq<Event>, t: int): Label {
    set e | e in events && Active(e, t) :: e.stage
  }

  // The instants of the window whose active set is exactly the given one.
  ghost function Labelled(events: seq<Event>, w: Interval, mix: Label): set<int> {
    set t | t in Span(w) && ActiveStages(events, t) == mix
  }

  // What a table of durations must be: one positive entry per label that occurs.
  ghost predicate Classifies(d: map<Label, int>, events: seq<Event>, w: Interval) {
    && (forall mix :: mix in d <==> Labelled(events, w, mix) != {})
    && (forall mix | mix in d :: d[mix] == |Labelled(events, w, mix)|)
  }

  function Edges(e: Event, w: Interval): seq<Boundary> {
    var start, end := Max(w.start, e.start), Min(w.end, e.end);
    if end <= start then [] else [Boundary(start, 1, e.stage), Boundary(end, -1, e.stage)]
  }

  function Boundaries(events: seq<Event>, w: Interval): seq<Boundary> {
    if events == [] then []
    else Boundaries(events[..|events| - 1], w) + Edges(events[|events| - 1], w)
  }

  predicate TimeLeq(a: Boundary, b: Boundary) { a.time <= b.time }

  // Counter lookup: a missing key counts 0.
  function Count(active: map<Stage, int>, s: Stage): int { if s in active then active[s] else 0 }

  function LabelOf(active: map<Stage, int>): Label { set s: Stage | Count(active, s) > 0 }

  function AddDuration(d: map<Label, int>, mix: Label, duration: int): map<Label, int> {
    d[mix := (if mix in d then d[mix] else 0) + duration]
  }

  // ----- counting boundaries -----

  // Sum of the deltas of one stage over the boundaries at or before t.
  ghost function Net(bs: seq<Boundary>, s: Stage, t: int): int {
    if bs == [] then 0
    else (if bs[0].stage == s && bs[0].time <= t then bs[0].delta else 0) + Net(bs[1..], s, t)
  }

  lemma {:induction false} NetConcat(a: seq<Boundary>, b: seq<Boundary>, s: Stage, t: int)
    ensures Net(a + b, s, t) == Net(a, s, t) + Net(b, s, t)
  {
    if a == [] {
      assert a + b == b;
    } else {
      assert (a + b)[1..] == a[1..] + b;
      NetConcat(a[1..], b, s, t);
    }
  }

  lemma {:induction false} NetInsert(x: Boundary, bs: seq<Boundary>, s: Stage, t: int)
    ensures Net(Insert(x, bs, TimeLeq), s, t) == Net([x], s, t) + Net(bs, s, t)
  {
    if bs == [] || TimeLeq(x, bs[0]) {
      NetConcat([x], bs, s, t);
    } else {
      NetInsert(x, bs[1..], s, t);
    }
  }

  lemma {:induction false} NetSort(bs: seq<Boundary>, s: Stage, t: int)
    ensures Net(Sort(bs, TimeLeq), s, t) == Net(bs, s, t)
  {
    if bs != [] {
      NetSort(bs[1..], s, t);
      NetInsert(bs[0], Sort(bs[1..], TimeLeq), s, t);
    }
  }

  lemma {:induction false} NetAfter(bs: seq<Boundary>, s: Stage, t: int)
    requires forall b | b in bs :: b.time > t
    ensures Net(bs, s, t) == 0
  {
    if bs != [] {
      assert bs[0] in bs;
      NetAfter(bs[1..], s, t);
    }
  }

  // With every boundary of the prefix behind both instants, the prefix counts the same at each.
  lemma {:induction false} NetSettled(bs: seq<Boundary>, s: Stage, t: int, t': int)
    requires forall b | b in bs :: b.time <= t && b.time <= t'
    ensures Net(bs, s, t) == Net(bs, s, t')
  {
    if bs != [] {
      assert bs[0] in bs;
      NetSettled(bs[1..], s, t, t');
    }
  }

  ghost function ActiveCount(events: seq<Event>, s: Stage, t: int): nat {
    if events == [] then 0
    else ActiveCount(events[..|events| - 1], s, t)
         + (var e := events[|events| - 1]; if e.stage == s && Active(e, t) then 1 else 0)
  }

  lemma {:induction false} NetCountsActive(events: seq<Event>, w: Interval, s: Stage, t: int)
    requires w.start <= t < w.end
    ensures Net(Boundaries(events, w), s, t) == ActiveCount(events, s, t)
  {
    if events != [] {
      var init, e := events[..|events| - 1], events[|events| - 1];
      NetCountsActive(init, w, s, t);
      NetConcat(Boundaries(init, w), Edges(e, w), s, t);
      EdgesCount(e, w, s, t);
    }
  }

  lemma EdgesCount(e: Event, w: Interval, s: Stage, t: int)
    requires w.start <= t < w.end
    ensures Net(Edges(e, w), s, t) == if e.stage == s && Active(e, t) then 1 else 0
  {
    var start, end := Max(w.start, e.start), Min(w.end, e.end);
    if end > start {
      var edges, last := Edges(e, w), [Boundary(end, -1, e.stage)];
      assert edges[1..] == last && last[1..] == [];
      assert Net(last, s, t) == if e.stage == s && end <= t then -1 else 0;
    }
  }

  lemma {:induction false} CountIsMembership(events: seq<Event>, s: Stage, t: int)
    ensures ActiveCount(events, s, t) > 0 <==> s in ActiveStages(events, t)
  {
    if events != [] {
      var init, last := events[..|events| - 1], events[|events| - 1];
      assert events == init + [last];
      CountIsMembership(init, s, t);
      if s in ActiveStages(init, t) {
        var e :| e in init && Active(e, t) && e.stage == s;
        assert e in events;
      }
      if last.stage == s && Active(last, t) {
        assert last in events;
      }
    }
  }

  // ----- one step of the sweep -----

  // The counters after a prefix of the sorted boundaries.
  ghost predicate Counts(active: map<Stage, int>, prefix: seq<Boundary>, time: int) {
    && (forall b | b in prefix :: b.time <= time)
    && (forall s: Stage :: Count(active, s) == Net(prefix, s, time))
  }

  // Between the last boundary processed and the next one, the counters name the active set.
  lemma ActiveBetween(events: seq<Event>, w: Interval, bs: seq<Boundary>, index: nat,
                      active: map<Stage, int>, previous: int, t: int)
    requires bs == Sort(Boundaries(events, w), TimeLeq) && index <= |bs|
    requires Counts(active, bs[..index], previous)
    requires forall b | b in bs[index..] :: b.time > t
    requires w.start <= t < w.end && previous <= t
    ensures ActiveStages(events, t) == LabelOf(active)
  {
    forall s: Stage ensures s in ActiveStages(events, t) <==> Count(active, s) > 0 {
      CountIsMembership(events, s, t);
      NetCountsActive(events, w, s, t);
      NetSort(Boundaries(events, w), s, t);
      assert bs == bs[..index] + bs[index..];
      NetConcat(bs[..index], bs[index..], s, t);
      NetAfter(bs[index..], s, t);
      NetSettled(bs[..index], s, previous, t);
    }
  }

  lemma LabelledExtends(events: seq<Event>, start: int, mid: int, end: int, now: Label, mix: Label)
    requires start <= mid < end
    requires forall t | mid <= t < end :: ActiveStages(events, t) == now
    ensures Labelled(events, Interval(start, end), mix)
         == Labelled(events, Interval(start, mid), mix)
            + (if mix == now then Span(Interval(mid, end)) else {})
  {
    forall t ensures Has(Interval(start, end), t) <==> Has(Interval(start, mid), t) || Has(Interval(mid, end), t) {}
    forall t ensures t in Span(Interval(mid, end)) ==> ActiveStages(events, t) == now {
      if t in Span(Interval(mid, end)) { assert Has(Interval(mid, end), t); }
    }
  }

  lemma ClassifiesExtends(d: map<Label, int>, events: seq<Event>, start: int, mid: int, end: int, now: Label)
    requires start <= mid < end && Classifies(d, events, Interval(start, mid))
    requires forall t | mid <= t < end :: ActiveStages(events, t) == now
    ensures Classifies(AddDuration(d, now, end - mid), events, Interval(start, end))
  {
    hide Labelled, Span;
    var before, after := Interval(start, mid), Interval(start, end);
    forall mix | mix != now ensures Labelled(events, after, mix) == Labelled(events, before, mix) {
      LabelledExtends(events, start, mid, end, now, mix);
    }
    LabelledGrows(events, start, mid, end, now);
  }

  lemma LabelledGrows(events: seq<Event>, start: int, mid: int, end: int, now: Label)
    requires start <= mid < end
    requires forall t | mid <= t < end :: ActiveStages(events, t) == now
    ensures Labelled(events, Interval(start, end), now) != {}
    ensures |Labelled(events, Interval(start, end), now)|
         == |Labelled(events, Interval(start, mid), now)| + (end - mid)
  {
    var before, step := Labelled(events, Interval(start, mid), now), Span(Interval(mid, end));
    LabelledExtends(events, start, mid, end, now, now);
    SpanSize(Interval(mid, end));
    forall t ensures !(t in before && t in step) {}
    assert before !! step;
  }

  lemma ClassifiesNothing(events: seq<Event>, w: Interval)
    requires w.end <= w.start
    ensures Classifies(map[], events, w)
  {
    SpanSize(w);
    assert Span(w) == {};
  }

  lemma {:induction false} BoundariesInWindow(events: seq<Event>, w: Interval)
    ensures forall b | b in Boundaries(events, w) :: w.start <= b.time <= w.end
  {
    if events != [] {
      BoundariesInWindow(events[..|events| - 1], w);
    }
  }

  lemma SortedBoundaries(events: seq<Event>, w: Interval, bs: seq<Boundary>)
    requires bs == Sort(Boundaries(events, w), TimeLeq)
    ensures forall i | 0 <= i < |bs| :: w.start <= bs[i].time <= w.end
    ensures forall i, j | 0 <= i < j < |bs| :: bs[i].time <= bs[j].time
  {
    var raw := Boundaries(events, w);
    SortSorted(raw, TimeLeq);
    SortElements(raw, TimeLeq);
    BoundariesInWindow(events, w);
    forall i | 0 <= i < |bs| ensures w.start <= bs[i].time <= w.end {
      assert bs[i] in bs;
    }
    forall i, j | 0 <= i < j < |bs| ensures bs[i].time <= bs[j].time {
      assert TimeLeq(bs[i], bs[j]);
    }
  }

  lemma CountsPush(active: map<Stage, int>, bs: seq<Boundary>, index: nat, time: int)
    requires index < |bs| && bs[index].time == time && Counts(active, bs[..index], time)
    ensures var b := bs[index];
            Counts(active[b.stage := Count(active, b.stage) + b.delta], bs[..index + 1], time)
  {
    var b := bs[index];
    var active' := active[b.stage := Count(active, b.stage) + b.delta];
    assert bs[..index + 1] == bs[..index] + [b];
    forall s: Stage ensures Count(active', s) == Net(bs[..index + 1], s, time) {
      NetConcat(bs[..index], [b], s, time);
      assert [b][1..] == [];
    }
  }

  lemma CountsLater(active: map<Stage, int>, prefix: seq<Boundary>, time: int, later: int)
    requires Counts(active, prefix, time) && time <= later
    ensures Counts(active, prefix, later)
  {
    forall s: Stage ensures Count(active, s) == Net(prefix, s, later) {
      NetSettled(prefix, s, time, later);
    }
  }

  /** One sweep over the sorted boundaries classifies every instant of the window by its exact
      set of active stages: an entry exists iff the label occurs, and it counts the instants. */
  method ActiveSetDurations(events: seq<Event>, w: Interval) returns (durations: map<Label, int>)
    ensures Classifies(durations, events, w)
  {
    hide Sort, Net, Counts, Classifies, ActiveStages, LabelOf;
    var boundaries := [];
    for i := 0 to |events|
      invariant boundaries == Boundaries(events[..i], w)
    {
      assert events[..i + 1][..i] == events[..i];
      var start, end := Max(w.start, events[i].start), Min(w.end, events[i].end);
      if end <= start {
        continue;
      }
      boundaries := boundaries + [Boundary(start, 1, events[i].stage), Boundary(end, -1, events[i].stage)];
    }
    assert events[..|events|] == events;
    var sorted := Sort(boundaries, TimeLeq);
    SortedBoundaries(events, w, sorted);
    var active: map<Stage, int> := map[];
    durations := map[];
    var previous := w.start;
    var index := 0;
    NothingCounted(sorted, previous);
    ClassifiesNothing(events, Interval(w.start, w.start));
    while index < |sorted|
      invariant 0 <= index <= |sorted|
      invariant w.start <= previous && (previous <= w.end || previous == w.start)
      invariant forall i | index <= i < |sorted| :: previous <= sorted[i].time
      invariant Counts(active, sorted[..index], previous)
      invariant Classifies(durations, events, Interval(w.start, previous))
    {
      var timestamp := sorted[index].time;
      if timestamp > previous {
        ActiveThrough(events, w, sorted, index, active, previous, timestamp);
        ClassifiesExtends(durations, events, w.start, previous, timestamp, LabelOf(active));
        durations := AddDuration(durations, LabelOf(active), timestamp - previous);
      }
      CountsLater(active, sorted[..index], previous, timestamp);
      ghost var first := index;
      while index < |sorted| && sorted[index].time == timestamp
        invariant first <= index <= |sorted|
        invariant Counts(active, sorted[..index], timestamp)
      {
        CountsPush(active, sorted, index, timestamp);
        var b := sorted[index];
        active := active[b.stage := Count(active, b.stage) + b.delta];
        index := index + 1;
      }
      previous := timestamp;
    }
    if w.end > previous {
      ActiveThrough(events, w, sorted, index, active, previous, w.end);
      ClassifiesExtends(durations, events, w.start, previous, w.end, LabelOf(active));
      durations := AddDuration(durations, LabelOf(active), w.end - previous);
    } else {
      WindowSpent(durations, events, w, previous);
    }
  }

  lemma NothingCounted(bs: seq<Boundary>, time: int)
    ensures Counts(map[], bs[..0], time)
  {}

  lemma ActiveThrough(events: seq<Event>, w: Interval, bs: seq<Boundary>, index: nat,
                      active: map<Stage, int>, previous: int, until: int)
    requires bs == Sort(Boundaries(events, w), TimeLeq) && index <= |bs|
    requires Counts(active, bs[..index], previous)
    requires forall i | index <= i < |bs| :: until <= bs[i].time
    requires w.start <= previous <= until <= w.end
    ensures forall t | previous <= t < until :: ActiveStages(events, t) == LabelOf(active)
  {
    forall t | previous <= t < until ensures ActiveStages(events, t) == LabelOf(active) {
      ActiveBetween(events, w, bs, index, active, previous, t);
    }
  }

  lemma WindowSpent(d: map<Label, int>, events: seq<Event>, w: Interval, previous: int)
    requires w.start <= previous && w.end <= previous
    requires previous <= w.end || previous == w.start
    requires Classifies(d, events, Interval(w.start, previous))
    ensures Classifies(d, events, w)
  {
    if previous == w.end {
      assert Interval(w.start, previous) == w;
    } else {
      SpanSize(w);
      SpanSize(Interval(w.start, previous));
      assert Span(w) == {} && Span(Interval(w.start, previous)) == {};
      forall mix ensures Labelled(events, w, mix) == Labelled(events, Interval(w.start, previous), mix) {}
    }
  }
}
