/** Serving-ready boundaries, the fixed-K window they select, and the additivity of what is
    measured over the adjacent ready-to-ready intervals of that window. */
module ReadyWindows {
  import opened Common
  import opened Sorting
  import opened Instants
  import opened Sweep
  import opened Attribution

  const SERVING_READY := "critical_path.weight_serving_ready"

  datatype WindowError =
    | NoWarmup | NoMeasurement | BadStride | Incomplete | NotContiguous | MissingStep | NonPositiveInterval

  datatype Result<T> = Ok(value: T) | Err(error: WindowError)

  // ----- ready boundaries -----

  predicate IsReady(e: Event) { e.name == SERVING_READY && e.step.Some? }

  function ReadyBoundaries(events: seq<Event>): map<int, int> {
    if events == [] then map[]
    else
      var e := events[|events| - 1];
      var b := ReadyBoundaries(events[..|events| - 1]);
      if !IsReady(e) then b
      else b[e.step.value := if e.step.value in b then Max(b[e.step.value], e.end) else e.end]
  }

  // The keys of that table in insertion order.
  function ReadySteps(events: seq<Event>): seq<int> {
    if events == [] then []
    else
      var e := events[|events| - 1];
      var steps := ReadySteps(events[..|events| - 1]);
      if IsReady(e) && e.step.value !in steps then steps + [e.step.value] else steps
  }

  method BuildReadyBoundaries(events: seq<Event>) returns (boundaries: map<int, int>, steps: seq<int>)
    ensures boundaries == ReadyBoundaries(events)
    ensures steps == ReadySteps(events)
  {
    boundaries, steps := map[], [];
    for i := 0 to |events|
      invariant boundaries == ReadyBoundaries(events[..i])
      invariant steps == ReadySteps(events[..i])
    {
      assert events[..i + 1][..i] == events[..i];
      var e := events[i];
      if e.name == SERVING_READY && e.step.Some? {
        var step := e.step.value;
        if step !in steps {
          steps := steps + [step];
        }
        boundaries := boundaries[step := if step in boundaries then Max(boundaries[step], e.end) else e.end];
      }
    }
    assert events[..|events|] == events;
  }

  ghost predicate ReadyAt(events: seq<Event>, step: int, end: int) {
    exists e | e in events :: IsReady(e) && e.step.value == step && e.end == end
  }

  /** A step has a boundary iff it has a ready event, and the boundary is its latest end. */
  lemma {:induction false} ReadyIsLatest(events: seq<Event>, step: int)
    ensures step in ReadyBoundaries(events) <==> exists e | e in events :: IsReady(e) && e.step.value == step
    ensures step in ReadyBoundaries(events) ==> ReadyAt(events, step, ReadyBoundaries(events)[step])
    ensures step in ReadyBoundaries(events) ==>
        forall e | e in events && IsReady(e) && e.step.value == step :: e.end <= ReadyBoundaries(events)[step]
  {
    if events != [] {
      var init, last := events[..|events| - 1], events[|events| - 1];
      assert events == init + [last];
      ReadyIsLatest(init, step);
      assert forall e | e in init :: e in events;
      assert last in events;
    }
  }

  // ----- the fixed-K window -----

  ghost predicate HasAll(b: map<int, int>, steps: seq<int>) {
    forall i | 0 <= i < |steps| :: steps[i] in b
  }

  ghost function Gap(b: map<int, int>, steps: seq<int>, k: nat): int
    requires HasAll(b, steps) && k + 1 < |steps|
  {
    b[steps[k + 1]] - b[steps[k]]
  }

  ghost predicate Increasing(s: seq<int>) { forall i, j | 0 <= i < j < |s| :: s[i] < s[j] }

  // The keys of the table in ascending order: what sorted() returns.
  ghost predicate Enumerates(s: seq<int>, keys: set<int>) {
    Increasing(s) && forall x :: x in s <==> x in keys
  }

  predicate AtMost(a: int, b: int) { a <= b }

  // sorted(boundaries): the ready steps in ascending order.
  function OrderedSteps(events: seq<Event>): seq<int> { Sort(ReadySteps(events), AtMost) }

  ghost predicate Distinct(s: seq<int>) { forall i, j | 0 <= i < j < |s| :: s[i] != s[j] }

  lemma {:induction false} ReadyStepsFacts(events: seq<Event>)
    ensures Distinct(ReadySteps(events))
    ensures forall x :: x in ReadySteps(events) <==> x in ReadyBoundaries(events)
  {
    if events != [] {
      ReadyStepsFacts(events[..|events| - 1]);
    }
  }

  lemma {:induction false} InsertDistinct(x: int, s: seq<int>)
    requires Distinct(s) && x !in s
    ensures Distinct(Insert(x, s, AtMost))
  {
    if s != [] && !AtMost(x, s[0]) {
      assert x !in s[1..];
      InsertDistinct(x, s[1..]);
      InsertElements(x, s[1..], AtMost);
      var r := Insert(x, s[1..], AtMost);
      forall j | 0 <= j < |r| ensures r[j] != s[0] {
        assert r[j] in multiset(r);
        assert r[j] == x || r[j] in s[1..];
      }
    }
  }

  lemma {:induction false} SortDistinct(s: seq<int>)
    requires Distinct(s)
    ensures Distinct(Sort(s, AtMost))
  {
    if s != [] {
      SortDistinct(s[1..]);
      SortElements(s[1..], AtMost);
      assert s[0] !in s[1..];
      InsertDistinct(s[0], Sort(s[1..], AtMost));
    }
  }

  lemma OrderedStepsEnumerate(events: seq<Event>)
    ensures Enumerates(OrderedSteps(events), ReadyBoundaries(events).Keys)
    ensures HasAll(ReadyBoundaries(events), OrderedSteps(events))
  {
    ReadyStepsFacts(events);
    SortDistinct(ReadySteps(events));
    SortSorted(ReadySteps(events), AtMost);
    SortElements(ReadySteps(events), AtMost);
    var s := OrderedSteps(events);
    forall i, j | 0 <= i < j < |s| ensures s[i] < s[j] {
      assert AtMost(s[i], s[j]);
    }
    forall i | 0 <= i < |s| ensures s[i] in ReadyBoundaries(events) {
      assert s[i] in s;
    }
  }

  predicate Contiguous(s: seq<int>, stride: int) { forall i | 0 < i < |s| :: s[i] - s[i - 1] == stride }

  datatype Window = Window(span: Interval, measured: seq<int>, boundary: int)

  function FixedK(ordered: seq<int>, b: map<int, int>, warmup: int, measure: int, stride: int): Result<Window>
    requires HasAll(b, ordered)
  {
    if warmup < 1 then Err(NoWarmup)
    else if measure < 1 then Err(NoMeasurement)
    else if stride < 1 then Err(BadStride)
    else if |ordered| < warmup + measure then Err(Incomplete)
    else if !Contiguous(ordered[..warmup + measure], stride) then Err(NotContiguous)
    else
      var measured := ordered[warmup..warmup + measure];
      assert measured[|measured| - 1] == ordered[warmup + measure - 1];
      Ok(Window(Interval(b[ordered[warmup - 1]], b[measured[|measured| - 1]]), measured, ordered[warmup - 1]))
  }

  method CheckContiguous(selected: seq<int>, stride: int) returns (regular: bool)
    ensures regular <==> Contiguous(selected, stride)
  {
    var i := 1;
    while i < |selected|
      invariant 1 <= i && forall j | 0 < j < i && j < |selected| :: selected[j] - selected[j - 1] == stride
    {
      if selected[i] - selected[i - 1] != stride {
        return false;
      }
      i := i + 1;
    }
    return true;
  }

  method FixedKWindow(events: seq<Event>, warmup: int, measure: int, stride: int) returns (r: Result<Window>)
    ensures HasAll(ReadyBoundaries(events), OrderedSteps(events))
    ensures r == FixedK(OrderedSteps(events), ReadyBoundaries(events), warmup, measure, stride)
  {
    hide Sort, ReadySteps, ReadyBoundaries, Enumerates;
    OrderedStepsEnumerate(events);
    if warmup < 1 { return Err(NoWarmup); }
    if measure < 1 { return Err(NoMeasurement); }
    if stride < 1 { return Err(BadStride); }
    var boundaries, steps := BuildReadyBoundaries(events);
    var ordered := Sort(steps, AtMost);
    var required := warmup + measure;
    if |ordered| < required {
      return Err(Incomplete);
    }
    var regular := CheckContiguous(ordered[..required], stride);
    if !regular {
      return Err(NotContiguous);
    }
    var measured := ordered[warmup..required];
    var window := Interval(boundaries[ordered[warmup - 1]], boundaries[measured[measure - 1]]);
    r := Ok(Window(window, measured, ordered[warmup - 1]));
  }

  lemma {:induction false} ContiguousSteps(s: seq<int>, stride: int, i: nat, j: nat)
    requires Contiguous(s, stride) && i <= j < |s|
    ensures s[j] == s[i] + (j - i) * stride
    decreases j - i
  {
    if i < j {
      ContiguousSteps(s, stride, i, j - 1);
      assert (j - i) * stride == (j - 1 - i) * stride + stride;
    }
  }

  // The k-th ready step counted from the boundary step, backwards into the warmup if k < 0.
  lemma StepAt(s: seq<int>, warmup: int, measure: int, stride: int, k: int)
    requires warmup >= 1 && measure >= 1 && |s| == warmup + measure && Contiguous(s, stride)
    requires -warmup < k <= measure
    ensures s[warmup - 1 + k] == s[warmup - 1] + k * stride
  {
    if k >= 0 {
      ContiguousSteps(s, stride, warmup - 1, warmup - 1 + k);
    } else {
      ContiguousSteps(s, stride, warmup - 1 + k, warmup - 1);
      assert (-k) * stride == -(k * stride);
    }
  }

  lemma WindowOf(ordered: seq<int>, b: map<int, int>, warmup: int, measure: int, stride: int)
    requires HasAll(b, ordered)
    requires FixedK(ordered, b, warmup, measure, stride).Ok?
    ensures warmup >= 1 && measure >= 1 && |ordered| >= warmup + measure
    ensures Contiguous(ordered[..warmup + measure], stride)
    ensures FixedK(ordered, b, warmup, measure, stride).value
         == Window(Interval(b[ordered[warmup - 1]], b[ordered[warmup + measure - 1]]),
                   ordered[warmup..warmup + measure], ordered[warmup - 1])
  {}

  // Why a selection that does not succeed is refused: the first of these that holds.
  function FirstObstacle(boundaries: nat, warmup: int, measure: int, stride: int): WindowError {
    if warmup < 1 then NoWarmup
    else if measure < 1 then NoMeasurement
    else if stride < 1 then BadStride
    else if boundaries < warmup + measure then Incomplete
    else NotContiguous
  }

  /** The selection succeeds exactly when the three sizes are positive, there are enough boundaries,
      and the first of them follow one another at the stride. */
  lemma FixedKSucceedsIff(ordered: seq<int>, b: map<int, int>, warmup: int, measure: int, stride: int)
    requires HasAll(b, ordered)
    ensures FixedK(ordered, b, warmup, measure, stride).Ok? <==>
      && warmup >= 1 && measure >= 1 && stride >= 1 && |ordered| >= warmup + measure
      && forall k | 0 <= k < warmup + measure :: ordered[k] == ordered[0] + k * stride
    ensures FixedK(ordered, b, warmup, measure, stride).Err? ==>
      FixedK(ordered, b, warmup, measure, stride).error == FirstObstacle(|ordered|, warmup, measure, stride)
  {
    if warmup >= 1 && measure >= 1 && stride >= 1 && |ordered| >= warmup + measure {
      var s := ordered[..warmup + measure];
      if Contiguous(s, stride) {
        forall k | 0 <= k < warmup + measure ensures ordered[k] == ordered[0] + k * stride {
          ContiguousSteps(s, stride, 0, k);
          assert s[k] == ordered[k];
        }
      } else {
        var i :| 0 < i < |s| && s[i] - s[i - 1] != stride;
        assert i * stride == (i - 1) * stride + stride;
        assert ordered[i] == s[i] && ordered[i - 1] == s[i - 1];
      }
    }
  }

  /** The window selected starts at the warmup-th ready step and measures the next steps at the
      stride: a step up to its end is ready iff it is one of these or of the warmup's. */
  lemma FixedKSelection(ordered: seq<int>, b: map<int, int>, warmup: int, measure: int, stride: int)
    requires Enumerates(ordered, b.Keys) && HasAll(b, ordered)
    requires FixedK(ordered, b, warmup, measure, stride).Ok?
    ensures var w := FixedK(ordered, b, warmup, measure, stride).value;
            && |w.measured| == measure && w.boundary in b && w.measured[measure - 1] in b
            && w.span == Interval(b[w.boundary], b[w.measured[measure - 1]])
            && (forall i | 0 <= i < measure :: w.measured[i] == w.boundary + (i + 1) * stride)
            && (forall x | x in b && x <= w.measured[measure - 1] :: InWarmupOrWindow(w, warmup, measure, stride, x))
            && (forall x | InWarmupOrWindow(w, warmup, measure, stride, x) :: x in b)
  {
    WindowOf(ordered, b, warmup, measure, stride);
    hide FixedK;
    var s := ordered[..warmup + measure];
    var w := FixedK(ordered, b, warmup, measure, stride).value;
    forall i | 0 <= i < measure ensures w.measured[i] == w.boundary + (i + 1) * stride {
      StepAt(s, warmup, measure, stride, i + 1);
    }
    forall x | x in b && x <= w.measured[measure - 1] ensures InWarmupOrWindow(w, warmup, measure, stride, x) {
      assert x in ordered;
      var i :| 0 <= i < |ordered| && ordered[i] == x;
      assert i < warmup + measure;
      StepAt(s, warmup, measure, stride, i - (warmup - 1));
    }
    forall x | InWarmupOrWindow(w, warmup, measure, stride, x) ensures x in b {
      var k :| -warmup < k <= measure && x == w.boundary + k * stride;
      StepAt(s, warmup, measure, stride, k);
      assert s[warmup - 1 + k] == ordered[warmup - 1 + k];
    }
  }

  ghost predicate InWarmupOrWindow(w: Window, warmup: int, measure: int, stride: int, x: int) {
    exists k | -warmup < k <= measure :: x == w.boundary + k * stride
  }

  // ----- ready-to-ready intervals -----

  datatype PerUpdate = PerUpdate(durations: seq<int>, percent: map<Stage, seq<real>>)

  function Between(b: map<int, int>, previous: int, step: int): Interval
    requires previous in b && step in b
  {
    Interval(b[previous], b[step])
  }

  // Every step has a boundary and each boundary lies after the one before it.
  ghost predicate Chained(b: map<int, int>, steps: seq<int>) {
    && HasAll(b, steps)
    && (forall i | 0 < i < |steps| :: b[steps[i - 1]] < b[steps[i]])
  }

  function Column(percent: map<Stage, seq<real>>, s: Stage): seq<real> {
    if s in percent then percent[s] else []
  }

  ghost predicate Measures(u: PerUpdate, events: seq<Event>, b: map<int, int>, steps: seq<int>)
    requires Chained(b, steps) && steps != []
  {
    && |u.durations| == |steps| - 1
    && (forall k | 0 <= k < |steps| - 1 :: u.durations[k] == Gap(b, steps, k))
    && (forall s: Stage :: |Column(u.percent, s)| == |steps| - 1)
    && (forall s: Stage, k | 0 <= k < |steps| - 1 ::
          Column(u.percent, s)[k] == Percentage(events, Between(b, steps[k], steps[k + 1]), s))
  }

  ghost function Percentage(events: seq<Event>, w: Interval, s: Stage): real
    requires w.start < w.end
  {
    100.0 * |StageTicks(events, w, s)| as real / (w.end - w.start) as real
  }

  lemma MeasuresStart(events: seq<Event>, b: map<int, int>, boundary: int)
    requires boundary in b
    ensures Chained(b, [boundary]) && Measures(PerUpdate([], map[]), events, b, [boundary])
  {}

  lemma MeasuresPush(u: PerUpdate, events: seq<Event>, b: map<int, int>, steps: seq<int>, step: int, u': PerUpdate)
    requires steps != [] && Chained(b, steps) && Measures(u, events, b, steps)
    requires step in b && b[steps[|steps| - 1]] < b[step]
    requires u'.durations == u.durations + [b[step] - b[steps[|steps| - 1]]]
    requires forall s: Stage ::
        Column(u'.percent, s) == Column(u.percent, s) + [Percentage(events, Between(b, steps[|steps| - 1], step), s)]
    ensures Chained(b, steps + [step]) && Measures(u', events, b, steps + [step])
  {
    hide StageTicks, Percentage;
    var steps' := steps + [step];
    forall k | 0 <= k < |steps| ensures u'.durations[k] == Gap(b, steps', k) {
      assert k < |steps| - 1 ==> Gap(b, steps', k) == Gap(b, steps, k);
    }
  }

  method PerUpdateStages(events: seq<Event>, boundaryStep: int, measured: seq<int>) returns (r: Result<PerUpdate>)
    ensures measured == [] ==> r == Ok(PerUpdate([], map[]))
    ensures measured != [] ==> (r.Ok? <==> Chained(ReadyBoundaries(events), [boundaryStep] + measured))
    ensures measured != [] && r.Ok? ==> Measures(r.value, events, ReadyBoundaries(events), [boundaryStep] + measured)
  {
    hide ReadyBoundaries, StageTicks, Measures;
    var boundaries, _ := BuildReadyBoundaries(events);
    ghost var steps := [boundaryStep] + measured;
    var u := PerUpdate([], map[]);
    var previous := boundaryStep;
    for k := 0 to |measured|
      invariant previous == steps[k]
      invariant k == 0 ==> u == PerUpdate([], map[])
      invariant k > 0 ==> Chained(boundaries, steps[..k + 1]) && Measures(u, events, boundaries, steps[..k + 1])
    {
      assert steps[..k + 2] == steps[..k + 1] + [measured[k]];
      var step := measured[k];
      assert steps[k] == previous && steps[k + 1] == step;
      if previous !in boundaries || step !in boundaries {
        return Err(MissingStep);
      }
      var w := Interval(boundaries[previous], boundaries[step]);
      var duration := w.end - w.start;
      if duration <= 0 {
        return Err(NonPositiveInterval);
      }
      if k == 0 {
        MeasuresStart(events, boundaries, boundaryStep);
        assert steps[..1] == [boundaryStep];
      }
      var occupancy := StageOccupancy(events, w);
      var u' := PerUpdate(
        u.durations + [duration],
        map s | s in occupancy :: Column(u.percent, s) + [100.0 * occupancy[s] as real / duration as real]);
      MeasuresPush(u, events, boundaries, steps[..k + 1], step, u');
      u := u';
      previous := step;
    }
    assert steps[..|measured| + 1] == steps;
    r := Ok(u);
  }

  ghost function Sum(s: seq<int>): int {
    if s == [] then 0 else Sum(s[..|s| - 1]) + s[|s| - 1]
  }

  lemma TicksSplit(events: seq<Event>, a: int, m: int, c: int, s: Stage)
    requires a <= m <= c
    ensures |StageTicks(events, Interval(a, c), s)|
         == |StageTicks(events, Interval(a, m), s)| + |StageTicks(events, Interval(m, c), s)|
  {
    forall t ensures Has(Interval(a, c), t) <==> Has(Interval(a, m), t) || Has(Interval(m, c), t) {}
    var left, right := StageTicks(events, Interval(a, m), s), StageTicks(events, Interval(m, c), s);
    assert left !! right by { forall t ensures !(Has(Interval(a, m), t) && Has(Interval(m, c), t)) {} }
    assert StageTicks(events, Interval(a, c), s) == left + right;
  }

  /** The ready-to-ready intervals add up to the makespan of the window. */
  lemma {:induction false} IntervalsSumToMakespan(b: map<int, int>, steps: seq<int>, durations: seq<int>)
    requires Chained(b, steps) && steps != [] && |durations| == |steps| - 1
    requires forall k | 0 <= k < |durations| :: durations[k] == Gap(b, steps, k)
    ensures Sum(durations) == b[steps[|steps| - 1]] - b[steps[0]]
  {
    if |steps| > 1 {
      IntervalsSumToMakespan(b, steps[..|steps| - 1], durations[..|durations| - 1]);
    }
  }

  // The first n percentages, each times the interval it refers to.
  ghost function WeightedPercent(column: seq<real>, durations: seq<int>, n: nat): real
    requires n <= |column| && n <= |durations|
  {
    if n == 0 then 0.0
    else WeightedPercent(column, durations, n - 1) + column[n - 1] * durations[n - 1] as real
  }

  lemma PercentOfDuration(events: seq<Event>, w: Interval, s: Stage)
    requires w.start < w.end
    ensures Percentage(events, w, s) * (w.end - w.start) as real == 100.0 * |StageTicks(events, w, s)| as real
  {
    hide StageTicks;
    var x, d := 100.0 * |StageTicks(events, w, s)| as real, (w.end - w.start) as real;
    assert d > 0.0;
    assert x / d * d == x;
  }

  lemma {:induction false} PercentagesGiveBackOccupancy(
      u: PerUpdate, events: seq<Event>, b: map<int, int>, steps: seq<int>, s: Stage, n: nat)
    requires Chained(b, steps) && n < |steps| && Measures(u, events, b, steps)
    ensures b[steps[0]] <= b[steps[n]]
    ensures WeightedPercent(Column(u.percent, s), u.durations, n)
         == 100.0 * |StageTicks(events, Between(b, steps[0], steps[n]), s)| as real
  {
    hide Percentage, StageTicks;
    if n == 0 {
      NoTicks(events, Between(b, steps[0], steps[0]), s);
    } else {
      PercentagesGiveBackOccupancy(u, events, b, steps, s, n - 1);
      PercentOfDuration(events, Between(b, steps[n - 1], steps[n]), s);
      TicksSplit(events, b[steps[0]], b[steps[n - 1]], b[steps[n]], s);
      assert u.durations[n - 1] == Gap(b, steps, n - 1);
    }
  }

  lemma NoTicks(events: seq<Event>, w: Interval, s: Stage)
    requires w.end <= w.start
    ensures |StageTicks(events, w, s)| == 0
  {
    SpanSize(w);
    assert StageTicks(events, w, s) == {};
  }

  /** The reported percentages, weighted by their intervals, give back the occupancy of the whole
      fixed-K window, and the intervals its makespan: nothing is lost or counted twice. */
  lemma ReportGivesBackOccupancy(u: PerUpdate, events: seq<Event>, b: map<int, int>, steps: seq<int>, s: Stage)
    requires Chained(b, steps) && steps != [] && Measures(u, events, b, steps)
    ensures WeightedPercent(Column(u.percent, s), u.durations, |steps| - 1)
         == 100.0 * |StageTicks(events, Between(b, steps[0], steps[|steps| - 1]), s)| as real
    ensures Sum(u.durations) == b[steps[|steps| - 1]] - b[steps[0]]
  {
    PercentagesGiveBackOccupancy(u, events, b, steps, s, |steps| - 1);
    IntervalsSumToMakespan(b, steps, u.durations);
  }

  // ----- paired makespan delta -----

  method PerStepDeltas(base: map<int, int>, candidate: map<int, int>, steps: seq<int>) returns (deltas: seq<int>)
    requires steps != [] && HasAll(base, steps) && HasAll(candidate, steps)
    ensures |deltas| == |steps| - 1
    ensures forall k | 0 <= k < |deltas| ::
        deltas[k] == Gap(candidate, steps, k) - Gap(base, steps, k)
  {
    deltas := [];
    for k := 1 to |steps|
      invariant |deltas| == k - 1
      invariant forall j | 0 <= j < |deltas| ::
          deltas[j] == Gap(candidate, steps, j) - Gap(base, steps, j)
    {
      var baseInterval := base[steps[k]] - base[steps[k - 1]];
      var candidateInterval := candidate[steps[k]] - candidate[steps[k - 1]];
      deltas := deltas + [candidateInterval - baseInterval];
    }
  }

  /** Per-step deltas telescope to the difference of the two makespans. */
  lemma {:induction false} DeltasTelescope(base: map<int, int>, candidate: map<int, int>, steps: seq<int>,
                                           deltas: seq<int>)
    requires steps != [] && HasAll(base, steps) && HasAll(candidate, steps)
    requires |deltas| == |steps| - 1
    requires forall k | 0 <= k < |deltas| ::
        deltas[k] == Gap(candidate, steps, k) - Gap(base, steps, k)
    ensures var first, last := steps[0], steps[|steps| - 1];
            Sum(deltas) == (candidate[last] - candidate[first]) - (base[last] - base[first])
  {
    if |steps| > 1 {
      DeltasTelescope(base, candidate, steps[..|steps| - 1], deltas[..|deltas| - 1]);
    }
  }
}
