/** The trainer's split of one batch's data wait: time under reward closure (inclusive), and the
    reward segments inside the wait split into time shared with other blockers and time not. */
module RewardWait {
  import opened Common
  import opened Instants
  import opened Subtraction

  // ----- what the three totals mean, one term for each reward -----

  // The instants of the wait during which a reward was open.
  ghost function During(wait: Interval, reward: Interval): set<int> { Span(wait) * Span(reward) }

  ghost function SharedPart(wait: Interval, reward: Interval, other: seq<Interval>): int {
    |Span(wait) * Span(reward) * Cover(other)|
  }

  ghost function AlonePart(wait: Interval, reward: Interval, other: seq<Interval>): int {
    |Span(wait) * Span(reward) - Cover(other)|
  }

  ghost function SharedSum(wait: Interval, rewards: seq<Interval>, other: seq<Interval>): int {
    if rewards == [] then 0
    else SharedSum(wait, rewards[..|rewards| - 1], other)
         + SharedPart(wait, rewards[|rewards| - 1], other)
  }

  ghost function AloneSum(wait: Interval, rewards: seq<Interval>, other: seq<Interval>): int {
    if rewards == [] then 0
    else AloneSum(wait, rewards[..|rewards| - 1], other)
         + AlonePart(wait, rewards[|rewards| - 1], other)
  }

  ghost function InsideSum(wait: Interval, rewards: seq<Interval>): int {
    if rewards == [] then 0
    else InsideSum(wait, rewards[..|rewards| - 1]) + |During(wait, rewards[|rewards| - 1])|
  }

  // Rewards clipped to the wait, those of positive length only.
  function Segments(wait: Interval, rewards: seq<Interval>): seq<Interval> {
    if rewards == [] then []
    else Segments(wait, rewards[..|rewards| - 1]) + SegmentOf(wait, rewards[|rewards| - 1])
  }

  function SegmentOf(wait: Interval, reward: Interval): seq<Interval> {
    var s := Clip(reward, wait);
    if s.end > s.start then [s] else []
  }

  ghost function SharedTicks(s: Interval, other: seq<Interval>): int { |Span(s) * Cover(other)| }

  ghost function AloneTicks(s: Interval, other: seq<Interval>): int { |Span(s) - Cover(other)| }

  // The sums over a list of segments.
  ghost function SharedTotal(s: seq<Interval>, other: seq<Interval>): int {
    if s == [] then 0 else SharedTotal(s[..|s| - 1], other) + SharedTicks(s[|s| - 1], other)
  }

  ghost function AloneTotal(s: seq<Interval>, other: seq<Interval>): int {
    if s == [] then 0 else AloneTotal(s[..|s| - 1], other) + AloneTicks(s[|s| - 1], other)
  }

  lemma TotalsPush(s: seq<Interval>, iv: Interval, other: seq<Interval>)
    ensures SharedTotal(s + [iv], other) == SharedTotal(s, other) + SharedTicks(iv, other)
    ensures AloneTotal(s + [iv], other) == AloneTotal(s, other) + AloneTicks(iv, other)
  {
    assert (s + [iv])[..|s|] == s;
    hide SharedTicks, AloneTicks;
  }

  lemma ClipSpan(iv: Interval, w: Interval)
    ensures Span(Clip(iv, w)) == Span(w) * Span(iv)
  {
    forall t ensures Has(Clip(iv, w), t) <==> Has(w, t) && Has(iv, t) {}
  }

  // What one reward adds is what its segment adds: nothing, if it lies outside the wait.
  lemma TermOf(wait: Interval, reward: Interval, other: seq<Interval>)
    ensures SharedPart(wait, reward, other) ==
      if SegmentOf(wait, reward) == [] then 0 else SharedTicks(SegmentOf(wait, reward)[0], other)
    ensures AlonePart(wait, reward, other) ==
      if SegmentOf(wait, reward) == [] then 0 else AloneTicks(SegmentOf(wait, reward)[0], other)
  {
    ClipSpan(reward, wait);
    SpanSize(Clip(reward, wait));
    hide Cover, Span;
    if SegmentOf(wait, reward) == [] {
      assert Span(wait) * Span(reward) == {};
      assert Span(wait) * Span(reward) * Cover(other) == {} && Span(wait) * Span(reward) - Cover(other) == {};
    }
  }

  lemma SumsPush(wait: Interval, init: seq<Interval>, last: Interval, other: seq<Interval>)
    ensures SharedSum(wait, init + [last], other) == SharedSum(wait, init, other) + SharedPart(wait, last, other)
    ensures AloneSum(wait, init + [last], other) == AloneSum(wait, init, other) + AlonePart(wait, last, other)
    ensures Segments(wait, init + [last]) == Segments(wait, init) + SegmentOf(wait, last)
    ensures |SegmentOf(wait, last)| <= 1
  {
    assert (init + [last])[..|init|] == init;
    hide SharedPart, AlonePart;
  }

  // So leaving such rewards out loses nothing.
  lemma {:induction false} SegmentsTotals(wait: Interval, rewards: seq<Interval>, other: seq<Interval>)
    ensures SharedTotal(Segments(wait, rewards), other) == SharedSum(wait, rewards, other)
    ensures AloneTotal(Segments(wait, rewards), other) == AloneSum(wait, rewards, other)
  {
    hide *;
    if rewards == [] {
      NoTotals(wait, other);
    } else {
      var init, last := rewards[..|rewards| - 1], rewards[|rewards| - 1];
      var segments, mine := Segments(wait, init), SegmentOf(wait, last);
      assert rewards == init + [last];
      SegmentsTotals(wait, init, other);
      SumsPush(wait, init, last, other);
      TermOf(wait, last, other);
      if mine == [] {
        assert segments + mine == segments;
      } else {
        assert mine == [mine[0]];
        TotalsPush(segments, mine[0], other);
      }
    }
  }

  lemma NoTotals(wait: Interval, other: seq<Interval>)
    ensures SharedTotal(Segments(wait, []), other) == 0 == SharedSum(wait, [], other)
    ensures AloneTotal(Segments(wait, []), other) == 0 == AloneSum(wait, [], other)
  {}

  method WaitAccounting(wait: Interval, rewards: seq<Interval>, other: seq<Interval>)
    returns (inclusive: int, plusOther: int, exclusive: int)
    ensures inclusive == |Span(wait) * Cover(rewards)|
    ensures plusOther == SharedSum(wait, rewards, other)
    ensures exclusive == AloneSum(wait, rewards, other)
  {
    hide Subtracted, Cover, Span;
    inclusive := DirectIntervalOverlap(wait, rewards);
    var segments := [];
    for i := 0 to |rewards|
      invariant segments == Segments(wait, rewards[..i])
    {
      assert rewards[..i + 1][..i] == rewards[..i];
      var s := Clip(rewards[i], wait);
      if s.end > s.start {
        segments := segments + [s];
      }
    }
    assert rewards[..|rewards|] == rewards;
    plusOther, exclusive := 0, 0;
    for i := 0 to |segments|
      invariant plusOther == SharedTotal(segments[..i], other)
      invariant exclusive == AloneTotal(segments[..i], other)
    {
      assert segments[..i + 1][..i] == segments[..i];
      var shared := DirectIntervalOverlap(segments[i], other);
      var pieces := SubtractIntervals(segments[i], other);
      SubtractionIsDifference(segments[i], other);
      var alone := UnionDuration(pieces);
      plusOther := plusOther + shared;
      exclusive := exclusive + alone;
    }
    assert segments[..|segments|] == segments;
    SegmentsTotals(wait, rewards, other);
  }

  // ----- the split against the inclusive wait -----

  /** Reward by reward, every instant inside the wait is either shared or exclusive. */
  lemma {:induction false} SplitConserves(wait: Interval, rewards: seq<Interval>, other: seq<Interval>)
    ensures AloneSum(wait, rewards, other) + SharedSum(wait, rewards, other) == InsideSum(wait, rewards)
  {
    if rewards != [] {
      var last := Span(wait) * Span(rewards[|rewards| - 1]);
      SplitConserves(wait, rewards[..|rewards| - 1], other);
      assert last == (last - Cover(other)) + (last * Cover(other));
      hide Span, Cover;
    }
  }

  // No instant of the wait lies in two rewards.
  ghost predicate ApartInside(wait: Interval, rewards: seq<Interval>) {
    forall i, j | 0 <= i < j < |rewards| :: During(wait, rewards[i]) !! During(wait, rewards[j])
  }

  lemma ApartPush(wait: Interval, init: seq<Interval>, last: Interval)
    ensures ApartInside(wait, init + [last]) <==>
      ApartInside(wait, init) && forall i | 0 <= i < |init| :: During(wait, init[i]) !! During(wait, last)
  {
    var s := init + [last];
    hide During;
    if ApartInside(wait, s) {
      assert forall i, j | 0 <= i < j < |init| :: init[i] == s[i] && init[j] == s[j];
      forall i | 0 <= i < |init| ensures During(wait, init[i]) !! During(wait, last) {
        assert s[i] == init[i] && s[|init|] == last;
      }
    }
  }

  lemma ApartFromCover(wait: Interval, init: seq<Interval>, last: Interval)
    ensures Span(wait) * Cover(init) !! During(wait, last) <==>
      forall i | 0 <= i < |init| :: During(wait, init[i]) !! During(wait, last)
  {
    if forall i | 0 <= i < |init| :: During(wait, init[i]) !! During(wait, last) {
      forall t | t in Span(wait) * Cover(init) ensures t !in During(wait, last) {
        var i :| 0 <= i < |init| && Has(init[i], t);
        assert Has(init[i], t);
        assert t in Span(init[i]);
        assert t in During(wait, init[i]);
      }
    }
    forall i, t | 0 <= i < |init| && t in During(wait, init[i]) ensures t in Cover(init) {
      assert Has(init[i], t);
    }
  }

  lemma UnionSize(a: set<int>, b: set<int>)
    ensures |a + b| <= |a| + |b|
    ensures |a + b| == |a| + |b| <==> a !! b
  {
    assert |a + b| == |a| + |b| - |a * b|;
  }

  lemma {:induction false} SumVersusUnion(wait: Interval, rewards: seq<Interval>)
    ensures InsideSum(wait, rewards) >= |Span(wait) * Cover(rewards)|
    ensures InsideSum(wait, rewards) == |Span(wait) * Cover(rewards)| <==> ApartInside(wait, rewards)
  {
    if rewards == [] {
      assert Span(wait) * Cover(rewards) == {};
    } else {
      var init, last := rewards[..|rewards| - 1], rewards[|rewards| - 1];
      assert rewards == init + [last];
      SumVersusUnion(wait, init);
      CoverPush(init, last);
      ApartFromCover(wait, init, last);
      ApartPush(wait, init, last);
      UnionSize(Span(wait) * Cover(init), During(wait, last));
      hide ApartInside, Span, Cover;
      assert Span(wait) * (Cover(init) + Span(last)) == Span(wait) * Cover(init) + Span(wait) * Span(last);
    }
  }

  /** The split never falls short of the inclusive wait, and adds up to it exactly when no two
      rewards overlap inside the wait. */
  lemma SplitVersusInclusive(wait: Interval, rewards: seq<Interval>, other: seq<Interval>)
    ensures var split := AloneSum(wait, rewards, other) + SharedSum(wait, rewards, other);
            && split >= |Span(wait) * Cover(rewards)|
            && (split == |Span(wait) * Cover(rewards)| <==> ApartInside(wait, rewards))
  {
    SplitConserves(wait, rewards, other);
    SumVersusUnion(wait, rewards);
    hide ApartInside;
  }

  /** Two overlapping rewards and no other blocker: the common ticks are counted twice. */
  lemma OverlappingRewardsCountTwice()
    ensures var wait, rewards := Interval(0, 10), [Interval(0, 6), Interval(4, 10)];
            AloneSum(wait, rewards, []) + SharedSum(wait, rewards, []) > |Span(wait) * Cover(rewards)|
  {
    var wait, rewards := Interval(0, 10), [Interval(0, 6), Interval(4, 10)];
    assert Has(wait, 5) && Has(rewards[0], 5) && Has(rewards[1], 5);
    assert 5 in During(wait, rewards[0]) * During(wait, rewards[1]);
    SplitVersusInclusive(wait, rewards, []);
  }
}
