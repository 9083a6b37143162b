/** Stage occupancy and the equal-split view of one measurement window.  Two independent
    algorithms, the interval merge and the boundary sweep, must agree on every stage. */
module Attribution {
  import opened Instants
  import opened Sweep

  const STAGE_ORDER: seq<Stage> := [
    Request, RolloutOrchestration, RolloutAdmissionWait, RolloutQueue, Generation, Evaluation,
    TurnJudge, Reward, Transfer, DataWait, Training, WeightGateWait, WeightUpdate, WeightValidation
  ]

  function OrderIndex(s: Stage): (i: nat)
    ensures i < |STAGE_ORDER| && STAGE_ORDER[i] == s
    ensures forall j | 0 <= j < |STAGE_ORDER| && STAGE_ORDER[j] == s :: j == i
  {
    match s
    case Request => 0 case RolloutOrchestration => 1 case RolloutAdmissionWait => 2
    case RolloutQueue => 3 case Generation => 4 case Evaluation => 5 case TurnJudge => 6
    case Reward => 7 case Transfer => 8 case DataWait => 9 case Training => 10
    case WeightGateWait => 11 case WeightUpdate => 12 case WeightValidation => 13
  }

  // ----- occupancy of one stage -----

  ghost function StageTicks(events: seq<Event>, w: Interval, s: Stage): set<int> {
    set t | t in Span(w) && s in ActiveStages(events, t)
  }

  function StageSpans(events: seq<Event>, w: Interval, s: Stage): seq<Interval> {
    if events == [] then []
    else
      var e := events[|events| - 1];
      StageSpans(events[..|events| - 1], w, s)
      + if e.stage == s then [Clip(Interval(e.start, e.end), w)] else []
  }

  lemma {:induction false} StageSpansCover(events: seq<Event>, w: Interval, s: Stage)
    ensures Cover(StageSpans(events, w, s)) == StageTicks(events, w, s)
  {
    if events == [] {
      assert StageTicks(events, w, s) == {};
    } else {
      var init, e := events[..|events| - 1], events[|events| - 1];
      assert events == init + [e];
      StageSpansCover(init, w, s);
      CoverPush(StageSpans(init, w, s), Clip(Interval(e.start, e.end), w));
      StageTicksPush(init, e, w, s);
    }
  }

  lemma ActiveStagesPush(init: seq<Event>, e: Event, t: int)
    ensures ActiveStages(init + [e], t) == ActiveStages(init, t) + if Active(e, t) then {e.stage} else {}
  {
    assert e in init + [e];
    forall x | x in init ensures x in init + [e] {}
  }

  lemma StageTicksPush(init: seq<Event>, e: Event, w: Interval, s: Stage)
    ensures StageTicks(init + [e], w, s)
         == StageTicks(init, w, s) + if e.stage == s then Span(Clip(Interval(e.start, e.end), w)) else {}
  {
    forall t
      ensures t in StageTicks(init + [e], w, s)
         <==> t in StageTicks(init, w, s) + if e.stage == s then Span(Clip(Interval(e.start, e.end), w)) else {}
    {
      ActiveStagesPush(init, e, t);
      assert Has(Clip(Interval(e.start, e.end), w), t) <==> Has(w, t) && Active(e, t);
    }
  }

  // Events that touch the window; the others cannot be active inside it.
  function Overlapping(events: seq<Event>, w: Interval): seq<Event> {
    if events == [] then []
    else
      var e := events[|events| - 1];
      Overlapping(events[..|events| - 1], w) + if e.end >= w.start && e.start <= w.end then [e] else []
  }

  lemma {:induction false} OverlappingSameActive(events: seq<Event>, w: Interval, t: int)
    requires t in Span(w)
    ensures ActiveStages(Overlapping(events, w), t) == ActiveStages(events, t)
  {
    if events != [] {
      var init, e := events[..|events| - 1], events[|events| - 1];
      assert events == init + [e];
      OverlappingSameActive(init, w, t);
      ActiveStagesPush(init, e, t);
      ActiveStagesPush(Overlapping(init, w), e, t);
      assert Has(w, t);
    }
  }

  method StageOccupancy(events: seq<Event>, w: Interval) returns (occupancy: map<Stage, int>)
    ensures forall s: Stage :: s in occupancy && occupancy[s] == |StageTicks(events, w, s)|
  {
    occupancy := map[];
    for k := 0 to |STAGE_ORDER|
      invariant forall j | 0 <= j < k ::
          STAGE_ORDER[j] in occupancy && occupancy[STAGE_ORDER[j]] == |StageTicks(events, w, STAGE_ORDER[j])|
    {
      var s := STAGE_ORDER[k];
      var spans := [];
      for i := 0 to |events|
        invariant spans == StageSpans(events[..i], w, s)
      {
        assert events[..i + 1][..i] == events[..i];
        if events[i].stage == s {
          spans := spans + [Clip(Interval(events[i].start, events[i].end), w)];
        }
      }
      assert events[..|events|] == events;
      StageSpansCover(events, w, s);
      var length := UnionDuration(spans);
      occupancy := occupancy[s := length];
    }
    forall s: Stage ensures s in occupancy && occupancy[s] == |StageTicks(events, w, s)| {
      assert STAGE_ORDER[OrderIndex(s)] == s;
    }
  }

  // ----- the sweep table summed over labels -----

  ghost function Pick(mixes: set<Label>): (mix: Label)
    requires mixes != {}
    ensures mix in mixes
  {
    var mix :| mix in mixes;
    mix
  }

  ghost function SumOver(d: map<Label, int>, mixes: set<Label>): int
    requires mixes <= d.Keys
    decreases |mixes|
  {
    if mixes == {} then 0 else d[Pick(mixes)] + SumOver(d, mixes - {Pick(mixes)})
  }

  ghost function TicksLabelledIn(events: seq<Event>, w: Interval, mixes: set<Label>): set<int> {
    set t | t in Span(w) && ActiveStages(events, t) in mixes
  }

  lemma {:induction false} SumOverIsMeasure(d: map<Label, int>, events: seq<Event>, w: Interval, mixes: set<Label>)
    requires Classifies(d, events, w) && mixes <= d.Keys
    ensures SumOver(d, mixes) == |TicksLabelledIn(events, w, mixes)|
    decreases |mixes|
  {
    if mixes == {} {
      assert TicksLabelledIn(events, w, mixes) == {};
    } else {
      var mix := Pick(mixes);
      SumOverIsMeasure(d, events, w, mixes - {mix});
      assert TicksLabelledIn(events, w, mixes)
          == Labelled(events, w, mix) + TicksLabelledIn(events, w, mixes - {mix});
      assert mix in d;
    }
  }

  lemma LabelOccurs(d: map<Label, int>, events: seq<Event>, w: Interval, t: int)
    requires Classifies(d, events, w) && t in Span(w)
    ensures ActiveStages(events, t) in d
  {
    assert t in Labelled(events, w, ActiveStages(events, t));
  }

  /** The durations sum to the length of the window. */
  lemma DurationsSumToWindow(d: map<Label, int>, events: seq<Event>, w: Interval)
    requires Classifies(d, events, w)
    ensures SumOver(d, d.Keys) == if w.start <= w.end then w.end - w.start else 0
  {
    SumOverIsMeasure(d, events, w, d.Keys);
    forall t | t in Span(w) ensures ActiveStages(events, t) in d.Keys {
      LabelOccurs(d, events, w, t);
    }
    assert TicksLabelledIn(events, w, d.Keys) == Span(w);
    SpanSize(w);
  }

  ghost function LabelsWith(d: map<Label, int>, s: Stage): set<Label> { set mix | mix in d && s in mix }

  /** Merge and sweep agree: the occupancy of a stage is the sum over the labels naming it. */
  lemma SweepAgreesWithMerge(d: map<Label, int>, events: seq<Event>, w: Interval, s: Stage)
    requires Classifies(d, events, w)
    ensures SumOver(d, LabelsWith(d, s)) == |Cover(StageSpans(events, w, s))|
  {
    StageSpansCover(events, w, s);
    SumOverIsMeasure(d, events, w, LabelsWith(d, s));
    forall t | t in Span(w) ensures ActiveStages(events, t) in d {
      LabelOccurs(d, events, w, t);
    }
    assert TicksLabelledIn(events, w, LabelsWith(d, s)) == StageTicks(events, w, s);
  }

  // ----- equal split -----

  // What one instant with the given active set gives to a stage.
  ghost function Share(mix: Label, s: Stage): real {
    if s in mix then 1.0 / |mix| as real else 0.0
  }

  // The share of a stage over the instants lo <= t < hi whose label is among the given ones.
  ghost function ShareIn(events: seq<Event>, mixes: set<Label>, s: Stage, lo: int, hi: int): real
    decreases hi - lo
  {
    if hi <= lo then 0.0
    else
      var mix := ActiveStages(events, hi - 1);
      ShareIn(events, mixes, s, lo, hi - 1) + if mix in mixes then Share(mix, s) else 0.0
  }

  // The share of a stage over all instants lo <= t < hi.
  ghost function ShareOver(events: seq<Event>, s: Stage, lo: int, hi: int): real
    decreases hi - lo
  {
    if hi <= lo then 0.0
    else ShareOver(events, s, lo, hi - 1) + Share(ActiveStages(events, hi - 1), s)
  }

  function Got(split: map<Stage, real>, s: Stage): real { if s in split then split[s] else 0.0 }

  lemma LabelledShrinks(events: seq<Event>, lo: int, hi: int, mix: Label)
    requires lo < hi
    ensures |Labelled(events, Interval(lo, hi), mix)|
         == |Labelled(events, Interval(lo, hi - 1), mix)| + if ActiveStages(events, hi - 1) == mix then 1 else 0
  {
    LabelledExtends(events, lo, hi - 1, hi, ActiveStages(events, hi - 1), mix);
    SpanSize(Interval(hi - 1, hi));
    assert Has(Interval(hi - 1, hi), hi - 1);
    assert Span(Interval(hi - 1, hi)) == {hi - 1};
    assert !Has(Interval(lo, hi - 1), hi - 1);
  }

  lemma {:induction false} ShareInAdds(events: seq<Event>, mixes: set<Label>, mix: Label, s: Stage, lo: int, hi: int)
    requires mix !in mixes
    ensures ShareIn(events, mixes + {mix}, s, lo, hi)
         == ShareIn(events, mixes, s, lo, hi) + |Labelled(events, Interval(lo, hi), mix)| as real * Share(mix, s)
    decreases hi - lo
  {
    if hi <= lo {
      SpanSize(Interval(lo, hi));
      assert Labelled(events, Interval(lo, hi), mix) == {};
    } else {
      ShareInAdds(events, mixes, mix, s, lo, hi - 1);
      LabelledShrinks(events, lo, hi, mix);
      var n := |Labelled(events, Interval(lo, hi - 1), mix)|;
      assert (n + 1) as real * Share(mix, s) == n as real * Share(mix, s) + Share(mix, s);
    }
  }

  lemma {:induction false} ShareInNothing(events: seq<Event>, s: Stage, lo: int, hi: int)
    ensures ShareIn(events, {}, s, lo, hi) == 0.0
    decreases hi - lo
  {
    if lo < hi { ShareInNothing(events, s, lo, hi - 1); }
  }

  lemma {:induction false} ShareInEverything(events: seq<Event>, mixes: set<Label>, s: Stage, lo: int, hi: int)
    requires forall t | lo <= t < hi :: ActiveStages(events, t) != {} ==> ActiveStages(events, t) in mixes
    ensures ShareIn(events, mixes, s, lo, hi) == ShareOver(events, s, lo, hi)
    decreases hi - lo
  {
    if lo < hi { ShareInEverything(events, mixes, s, lo, hi - 1); }
  }

  lemma SplitStep(duration: int, mix: Label, s: Stage)
    requires s in mix
    ensures duration as real / |mix| as real == duration as real * Share(mix, s)
  {
    var n := |mix| as real;
    assert n > 0.0 by { assert |mix| > 0; }
    assert duration as real * (1.0 / n) == duration as real / n;
  }

  /** Equal-split attribution: each stage receives, over the instants of the window, one over
      the number of stages active at that instant; unobserved time is kept apart. */
  method EqualSplit(d: map<Label, int>, ghost events: seq<Event>, ghost w: Interval)
    returns (split: map<Stage, real>, unobserved: real)
    requires Classifies(d, events, w)
    ensures forall s: Stage :: Got(split, s) == ShareOver(events, s, w.start, w.end)
    ensures unobserved == |Labelled(events, w, {})| as real
  {
    hide ActiveStages, Labelled;
    split, unobserved := map[], 0.0;
    var todo := d.Keys;
    ghost var done: set<Label> := {};
    forall s: Stage ensures ShareIn(events, done, s, w.start, w.end) == 0.0 {
      ShareInNothing(events, s, w.start, w.end);
    }
    while todo != {}
      invariant todo <= d.Keys && done !! todo
      invariant forall mix | mix in d :: mix in todo || mix in done || mix == {}
      invariant forall s: Stage :: Got(split, s) == ShareIn(events, done, s, w.start, w.end)
      invariant unobserved == if {} in d && {} !in todo then d[{}] as real else 0.0
      decreases |todo|
    {
      var mix :| mix in todo;
      todo := todo - {mix};
      if mix == {} {
        unobserved := unobserved + d[mix] as real;
        continue;
      }
      split := AddShares(split, mix, d[mix]);
      forall s: Stage ensures Got(split, s) == ShareIn(events, done + {mix}, s, w.start, w.end) {
        ShareInAdds(events, done, mix, s, w.start, w.end);
        assert Interval(w.start, w.end) == w;
      }
      done := done + {mix};
    }
    AllLabelsDone(d, events, w, done);
    forall s: Stage ensures Got(split, s) == ShareOver(events, s, w.start, w.end) {
      ShareInEverything(events, done, s, w.start, w.end);
    }
  }

  lemma AllLabelsDone(d: map<Label, int>, events: seq<Event>, w: Interval, done: set<Label>)
    requires Classifies(d, events, w)
    requires forall mix | mix in d :: mix in done || mix == {}
    ensures forall t | w.start <= t < w.end :: ActiveStages(events, t) != {} ==> ActiveStages(events, t) in done
  {
    forall t | w.start <= t < w.end ensures ActiveStages(events, t) in d {
      assert Has(w, t);
      LabelOccurs(d, events, w, t);
    }
  }

  // The inner loop: every stage of one label receives an equal part of its duration.
  method AddShares(split: map<Stage, real>, mix: Label, duration: int) returns (split': map<Stage, real>)
    ensures forall s: Stage :: Got(split', s) == Got(split, s) + duration as real * Share(mix, s)
  {
    split' := split;
    var left := mix;
    while left != {}
      invariant left <= mix
      invariant forall s: Stage ::
          Got(split', s) == Got(split, s) + if s in left then 0.0 else duration as real * Share(mix, s)
      decreases |left|
    {
      var s :| s in left;
      SplitStep(duration, mix, s);
      split' := split'[s := Got(split', s) + duration as real / |mix| as real];
      left := left - {s};
    }
  }

  // ----- the split is additive and bounded -----

  ghost function StageSum(f: Stage -> real, n: nat): real
    requires n <= |STAGE_ORDER|
  {
    if n == 0 then 0.0 else StageSum(f, n - 1) + f(STAGE_ORDER[n - 1])
  }

  ghost function Firsts(n: nat): set<Stage>
    requires n <= |STAGE_ORDER|
  {
    set s: Stage | OrderIndex(s) < n
  }

  lemma FirstsStep(n: nat)
    requires 0 < n <= |STAGE_ORDER|
    ensures STAGE_ORDER[n - 1] !in Firsts(n - 1)
    ensures Firsts(n) == Firsts(n - 1) + {STAGE_ORDER[n - 1]}
  {
    assert OrderIndex(STAGE_ORDER[n - 1]) == n - 1;
  }

  lemma OneMoreShare(mix: Label, part: set<Stage>, s: Stage)
    requires s in mix && s !in part
    ensures |part + {s}| as real / |mix| as real == |part| as real / |mix| as real + Share(mix, s)
  {
    var m := |mix| as real;
    assert m > 0.0 by { assert |mix| > 0; }
    assert (|part| + 1) as real / m == |part| as real / m + 1.0 / m;
  }

  ghost function FirstShares(mix: Label, n: nat): real
    requires n <= |STAGE_ORDER| && mix != {}
  {
    |mix * Firsts(n)| as real / |mix| as real
  }

  lemma FirstSharesStep(mix: Label, n: nat)
    requires 0 < n <= |STAGE_ORDER| && mix != {}
    ensures FirstShares(mix, n) == FirstShares(mix, n - 1) + Share(mix, STAGE_ORDER[n - 1])
  {
    hide Firsts, Share;
    FirstsStep(n);
    var s, part := STAGE_ORDER[n - 1], mix * Firsts(n - 1);
    if s in mix {
      assert mix * Firsts(n) == part + {s};
      OneMoreShare(mix, part, s);
    } else {
      assert mix * Firsts(n) == part;
      NoShare(mix, s);
    }
  }

  lemma NoShare(mix: Label, s: Stage)
    requires s !in mix
    ensures Share(mix, s) == 0.0
  {}

  lemma FirstSharesEnds(mix: Label)
    requires mix != {}
    ensures FirstShares(mix, 0) == 0.0
    ensures FirstShares(mix, |STAGE_ORDER|) == 1.0
  {
    assert mix * Firsts(0) == {};
    assert mix * Firsts(|STAGE_ORDER|) == mix;
    assert |mix| > 0;
  }

  lemma {:induction false} SharesOfOneInstant(mix: Label, n: nat)
    requires n <= |STAGE_ORDER| && mix != {}
    ensures StageSum(s => Share(mix, s), n) == FirstShares(mix, n)
  {
    hide FirstShares;
    FirstSharesEnds(mix);
    if n > 0 {
      SharesOfOneInstant(mix, n - 1);
      FirstSharesStep(mix, n);
    }
  }

  lemma WholeInstant(mix: Label)
    ensures StageSum(s => Share(mix, s), |STAGE_ORDER|) == if mix == {} then 0.0 else 1.0
  {
    if mix == {} {
      NoShares(|STAGE_ORDER|);
    } else {
      SharesOfOneInstant(mix, |STAGE_ORDER|);
      FirstSharesEnds(mix);
    }
  }

  lemma {:induction false} NoShares(n: nat)
    requires n <= |STAGE_ORDER|
    ensures StageSum(s => Share({}, s), n) == 0.0
  {
    if n > 0 { NoShares(n - 1); }
  }

  lemma {:induction false} SharesSplitInstant(events: seq<Event>, lo: int, hi: int, n: nat)
    requires n <= |STAGE_ORDER| && lo < hi
    ensures StageSum(s => ShareOver(events, s, lo, hi), n)
         == StageSum(s => ShareOver(events, s, lo, hi - 1), n)
            + StageSum(s => Share(ActiveStages(events, hi - 1), s), n)
  {
    if n > 0 { SharesSplitInstant(events, lo, hi, n - 1); }
  }

  lemma {:induction false} SharesOfEmptyWindow(events: seq<Event>, lo: int, hi: int, n: nat)
    requires n <= |STAGE_ORDER| && hi <= lo
    ensures StageSum(s => ShareOver(events, s, lo, hi), n) == 0.0
  {
    if n > 0 { SharesOfEmptyWindow(events, lo, hi, n - 1); }
  }

  /** Split shares plus unobserved time add up to the window, for every event list. */
  lemma {:induction false} SplitSumsToWindow(events: seq<Event>, lo: int, hi: int)
    requires lo <= hi
    ensures StageSum(s => ShareOver(events, s, lo, hi), |STAGE_ORDER|)
            + |Labelled(events, Interval(lo, hi), {})| as real
         == (hi - lo) as real
    decreases hi - lo
  {
    if lo == hi {
      SharesOfEmptyWindow(events, lo, hi, |STAGE_ORDER|);
      SpanSize(Interval(lo, hi));
      assert Labelled(events, Interval(lo, hi), {}) == {};
    } else {
      SplitSumsToWindow(events, lo, hi - 1);
      SharesSplitInstant(events, lo, hi, |STAGE_ORDER|);
      WholeInstant(ActiveStages(events, hi - 1));
      LabelledShrinks(events, lo, hi, {});
    }
  }

  lemma StageTicksShrinks(events: seq<Event>, lo: int, hi: int, s: Stage)
    requires lo < hi
    ensures |StageTicks(events, Interval(lo, hi), s)|
         == |StageTicks(events, Interval(lo, hi - 1), s)| + if s in ActiveStages(events, hi - 1) then 1 else 0
  {
    var before, after := Interval(lo, hi - 1), Interval(lo, hi);
    forall t ensures Has(after, t) <==> Has(before, t) || t == hi - 1 {}
    assert !Has(before, hi - 1);
    assert StageTicks(events, after, s)
        == StageTicks(events, before, s) + if s in ActiveStages(events, hi - 1) then {hi - 1} else {};
  }

  /** No stage is attributed more than it occupied. */
  lemma {:induction false} ShareWithinOccupancy(events: seq<Event>, s: Stage, lo: int, hi: int)
    ensures 0.0 <= ShareOver(events, s, lo, hi) <= |StageTicks(events, Interval(lo, hi), s)| as real
    decreases hi - lo
  {
    if lo < hi {
      ShareWithinOccupancy(events, s, lo, hi - 1);
      StageTicksShrinks(events, lo, hi, s);
      ShareAtMostOne(ActiveStages(events, hi - 1), s);
    }
  }

  lemma ShareAtMostOne(mix: Label, s: Stage)
    ensures 0.0 <= Share(mix, s) <= if s in mix then 1.0 else 0.0
  {
    if s in mix {
      assert |mix| >= 1;
    }
  }

  /** The window report: occupancy, active-set table and equal split of the events that touch
      the window, each with its meaning over all the events given. */
  method AnalyzeWindow(events: seq<Event>, w: Interval)
    returns (occupancy: map<Stage, int>, activeSet: map<Label, int>, split: map<Stage, real>, unobserved: real)
    ensures forall s: Stage :: s in occupancy && occupancy[s] == |StageTicks(events, w, s)|
    ensures Classifies(activeSet, events, w)
    ensures forall s: Stage :: Got(split, s) == ShareOver(events, s, w.start, w.end)
    ensures unobserved == |Labelled(events, w, {})| as real
  {
    hide ActiveStages, Classifies;
    var kept := [];
    for i := 0 to |events|
      invariant kept == Overlapping(events[..i], w)
    {
      assert events[..i + 1][..i] == events[..i];
      if events[i].end >= w.start && events[i].start <= w.end {
        kept := kept + [events[i]];
      }
    }
    assert events[..|events|] == events;
    occupancy := StageOccupancy(kept, w);
    activeSet := ActiveSetDurations(kept, w);
    forall t | t in Span(w) ensures ActiveStages(kept, t) == ActiveStages(events, t) {
      OverlappingSameActive(events, w, t);
    }
    forall s: Stage ensures StageTicks(kept, w, s) == StageTicks(events, w, s) {}
    ClassifiesSame(activeSet, kept, events, w);
    split, unobserved := EqualSplit(activeSet, events, w);
  }

  lemma ClassifiesSame(d: map<Label, int>, events: seq<Event>, events': seq<Event>, w: Interval)
    requires Classifies(d, events, w)
    requires forall t | t in Span(w) :: ActiveStages(events, t) == ActiveStages(events', t)
    ensures Classifies(d, events', w)
  {
    forall mix ensures Labelled(events, w, mix) == Labelled(events', w, mix) {}
  }
}
