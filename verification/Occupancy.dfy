/** The occupancy accumulators of the judge service are exact integrals over every run, and the
    admission ledger and the drain hold over every run; metrics reads disturb nothing. */
module Occupancy {
  import opened GenRM
  import opened Instants

  // ----- occupancy -----

  // When a request is in flight, as known at a time.
  function SpanAt(r: Request, now: int): Interval {
    if r.phase == Serving then Interval(r.span.start, now) else r.span
  }

  function SpansAt(rs: seq<Request>, now: int): seq<Interval> {
    if rs == [] then [] else [SpanAt(rs[0], now)] + SpansAt(rs[1..], now)
  }

  function Total(spans: seq<Interval>): int {
    if spans == [] then 0 else spans[0].end - spans[0].start + Total(spans[1..])
  }

  ghost predicate Dated(r: Request, now: int) {
    && r.span.start <= r.span.end
    && (r.span.start < r.span.end ==> r.span.end <= now)
    && (r.phase == Serving ==> r.span.start == r.span.end <= now)
    && (r.phase == Waiting || r.phase == Handed || r.phase == Holding ==> r.span.start == r.span.end)
  }

  ghost predicate AllDated(rs: seq<Request>, now: int) {
    forall i | 0 <= i < |rs| :: Dated(rs[i], now)
  }

  lemma OneElapses(r: Request, anchor: int, now: int)
    requires Dated(r, anchor) && anchor <= now
    ensures Span(SpanAt(r, now)) ==
      Span(SpanAt(r, anchor)) + if r.phase == Serving then Span(Interval(anchor, now)) else {}
    ensures forall t | t in Span(SpanAt(r, anchor)) :: t < anchor
  {
    forall t ensures t in Span(SpanAt(r, now)) <==>
      t in Span(SpanAt(r, anchor)) || (r.phase == Serving && t in Span(Interval(anchor, now)))
    {}
  }

  // While time passes, each request in flight is so for all of it.
  lemma {:induction false} ElapseTotal(rs: seq<Request>, anchor: int, now: int)
    ensures Total(SpansAt(rs, now)) == Total(SpansAt(rs, anchor)) + Count(rs, Serving) * (now - anchor)
  {
    if rs != [] {
      ElapseTotal(rs[1..], anchor, now);
      var n, d := Count(rs[1..], Serving), now - anchor;
      assert (1 + n) * d == d + n * d;
    }
  }

  lemma {:induction false} ElapseCover(rs: seq<Request>, anchor: int, now: int)
    requires AllDated(rs, anchor) && anchor <= now
    ensures Cover(SpansAt(rs, now)) ==
      Cover(SpansAt(rs, anchor)) + (if Count(rs, Serving) > 0 then Span(Interval(anchor, now)) else {})
    ensures forall t | t in Cover(SpansAt(rs, anchor)) :: t < anchor
  {
    if rs == [] {
      CoverNone();
    } else {
      ElapseCover(rs[1..], anchor, now);
      var before, after := SpanAt(rs[0], anchor), SpanAt(rs[0], now);
      CoverConcat([before], SpansAt(rs[1..], anchor));
      CoverConcat([after], SpansAt(rs[1..], now));
      CoverSingle(before);
      CoverSingle(after);
      OneElapses(rs[0], anchor, now);
      hide Cover, SpanAt, Span, Dated;
    }
  }

  // Requests that were in flight over the same times give the same occupancy.
  ghost predicate SameSpans(rs: seq<Request>, rs': seq<Request>, now: int) {
    && |rs| == |rs'|
    && forall i | 0 <= i < |rs| :: SameSpan(SpanAt(rs[i], now), SpanAt(rs'[i], now))
  }

  ghost predicate SameSpan(a: Interval, b: Interval) {
    a == b || (a.start == a.end && b.start == b.end)
  }

  lemma {:induction false} SameOccupancy(rs: seq<Request>, rs': seq<Request>, now: int)
    requires SameSpans(rs, rs', now)
    ensures Total(SpansAt(rs, now)) == Total(SpansAt(rs', now))
    ensures Cover(SpansAt(rs, now)) == Cover(SpansAt(rs', now))
  {
    if rs != [] {
      assert SameSpan(SpanAt(rs[0], now), SpanAt(rs'[0], now));
      assert forall i | 0 <= i < |rs| - 1 :: rs[1..][i] == rs[i + 1] && rs'[1..][i] == rs'[i + 1];
      SameOccupancy(rs[1..], rs'[1..], now);
      CoverConcat([SpanAt(rs[0], now)], SpansAt(rs[1..], now));
      CoverConcat([SpanAt(rs'[0], now)], SpansAt(rs'[1..], now));
      CoverSingle(SpanAt(rs[0], now));
      CoverSingle(SpanAt(rs'[0], now));
    }
  }

  lemma {:induction false} NewcomerAddsNothing(rs: seq<Request>, r: Request, now: int)
    requires r.span.start == r.span.end && r.phase != Serving
    ensures Total(SpansAt(rs + [r], now)) == Total(SpansAt(rs, now))
    ensures Cover(SpansAt(rs + [r], now)) == Cover(SpansAt(rs, now))
  {
    if rs == [] {
      CoverSingle(r.span);
      CoverNone();
      assert SpansAt([r], now) == [r.span];
    } else {
      assert (rs + [r])[1..] == rs[1..] + [r];
      NewcomerAddsNothing(rs[1..], r, now);
      CoverConcat([SpanAt(rs[0], now)], SpansAt(rs[1..], now));
      CoverConcat([SpanAt(rs[0], now)], SpansAt(rs[1..] + [r], now));
    }
  }

  /** The accumulators are exact: the integral is the sum of the times in flight, the busy time the
      number of instants with someone in flight. */
  ghost predicate Exact(s: Server) {
    && AllDated(s.requests, s.anchor)
    && s.integral == Total(SpansAt(s.requests, s.anchor))
    && s.busy == |Cover(SpansAt(s.requests, s.anchor))|
  }

  // Busy time and integral bound each other.
  ghost predicate Bounded(s: Server) {
    && s.busy <= s.integral
    && (s.limit.AtMost? ==> s.integral <= s.limit.n * s.busy)
  }

  lemma InflightWithinLimit(s: Server, loose: nat)
    requires Admission(s, loose)
    ensures s.inflight >= 0 && (s.limit.AtMost? ==> s.inflight <= s.limit.n)
  {}

  lemma AdvanceIsExact(s: Server, now: int)
    requires Admission(s, 0) && Exact(s) && s.anchor <= now
    ensures Exact(Advance(s, now))
  {
    hide Cover, Span, SpansAt, Total, AllDated, Count;
    DatedLater(s.requests, s.anchor, now);
    ElapseTotal(s.requests, s.anchor, now);
    ElapseCover(s.requests, s.anchor, now);
    PastEndsHere(s.requests, s.anchor, now);
    var before, more := Cover(SpansAt(s.requests, s.anchor)), Span(Interval(s.anchor, now));
    SpanSize(Interval(s.anchor, now));
    DisjointSizes(before, more);
    assert s.inflight == Count(s.requests, Serving);
    hide Admission;
  }

  lemma PastEndsHere(rs: seq<Request>, anchor: int, now: int)
    requires AllDated(rs, anchor) && anchor <= now
    ensures Cover(SpansAt(rs, anchor)) !! Span(Interval(anchor, now))
  {
    ElapseCover(rs, anchor, now);
    hide Cover, SpansAt;
  }

  lemma DatedLater(rs: seq<Request>, anchor: int, now: int)
    requires AllDated(rs, anchor) && anchor <= now
    ensures AllDated(rs, now)
  {}

  lemma DisjointSizes(a: set<int>, b: set<int>)
    requires a !! b
    ensures |a + b| == |a| + |b|
  {}

  lemma AdvanceIsBounded(s: Server, now: int)
    requires Admission(s, 0) && Bounded(s) && s.anchor <= now
    ensures Bounded(Advance(s, now))
  {
    InflightWithinLimit(s, 0);
    hide Admission;
    var k, d := s.inflight, now - s.anchor;
    if k > 0 {
      assert d <= k * d;
      if s.limit.AtMost? {
        assert k * d <= s.limit.n * d;
        assert s.limit.n * (s.busy + d) == s.limit.n * s.busy + s.limit.n * d;
      }
    } else {
      assert k * d == 0;
    }
  }

  ghost predicate Metered(s: Server) { Exact(s) && Bounded(s) }

  // A transition at the anchor changes no occupancy: it moves requests at zero elapsed time.
  lemma TransitionIsMetered(s: Server, s': Server)
    requires Metered(s) && AllDated(s'.requests, s.anchor)
    requires SameSpans(s.requests, s'.requests, s.anchor)
    requires s'.anchor == s.anchor && s'.integral == s.integral && s'.busy == s.busy && s'.limit == s.limit
    ensures Metered(s')
  {
    SameOccupancy(s.requests, s'.requests, s.anchor);
    hide SpansAt, Total, Cover, SameSpans, AllDated;
  }

  lemma HandedOverIsMetered(s: Server, s': Server)
    requires Metered(s) && HandedOver(s, s')
    ensures Metered(s')
  {
    TransitionIsMetered(s, s');
  }

  lemma EnterIsMetered(s: Server, id: nat, now: int)
    requires Admission(s, 0) && Metered(s) && IsAt(s, id, Holding) && s.anchor <= now
    ensures Metered(Enter(s, id, now))
  {
    AdvanceIsExact(s, now);
    AdvanceIsBounded(s, now);
    hide Admission, Exact, Bounded;
    assert AllDated(s.requests, s.anchor) by { MeteredIsDated(s); }
    DatedLater(s.requests, s.anchor, now);
    TransitionIsMetered(Advance(s, now), Enter(s, id, now));
  }

  lemma MeteredIsDated(s: Server)
    requires Metered(s)
    ensures AllDated(s.requests, s.anchor)
  {}

  lemma LeaveIsMetered(s: Server, id: nat, now: int, outcome: Outcome)
    requires Admission(s, 0) && Metered(s) && IsAt(s, id, Serving) && s.anchor <= now
    ensures Metered(Leave(s, id, now, outcome))
  {
    AdvanceIsExact(s, now);
    AdvanceIsBounded(s, now);
    MeteredIsDated(s);
    hide Admission, Exact, Bounded;
    DatedLater(s.requests, s.anchor, now);
    TransitionIsMetered(Advance(s, now), Departed(s, id, now, outcome));
    ReleaseIsMetered(Departed(s, id, now, outcome));
  }

  lemma ReleaseIsMetered(s: Server)
    requires Metered(s)
    ensures Metered(Release(s))
  {
    HandedOverIsMetered(s, Release(s));
  }

  lemma ProceedIsMetered(s: Server, id: nat, e: Entry)
    requires Admission(s, 0) && NoneStranded(s) && Metered(s) && IsAt(s, id, Holding)
    requires s.anchor <= e.now <= e.later
    ensures Metered(Proceed(s, id, e))
  {
    if s.stopping {
      MeteredIsDated(s);
      var gone := s.(requests := s.requests[id := s.requests[id].(phase := Over(Stopping))]);
      TransitionIsMetered(s, gone);
      ReleaseIsMetered(gone);
    } else {
      EnterAdmits(s, id, e.now);
      EnterIsMetered(s, id, e.now);
      if e.badMedia {
        LeaveIsMetered(Enter(s, id, e.now), id, e.later, InvalidMedia);
      }
    }
    hide Metered, Admission, Leave, Release;
  }

  lemma ArrivedIsMetered(s: Server, e: Entry)
    requires Settled(s) && Metered(s) && s.anchor <= e.now <= e.later
    ensures Metered(Arrived(s, e))
  {
    var r := Request(if Locked(s) then Waiting else Holding, NEVER);
    NewcomerAddsNothing(s.requests, r, s.anchor);
    forall p ensures Count(s.requests + [r], p) == Count(s.requests, p) + if r.phase == p then 1 else 0 {
      CountPush(s.requests, r, p);
    }
    hide Count, Proceed, SpansAt, Total, Cover;
    if !Locked(s) {
      var t := s.(permits := if s.limit.AtMost? then s.permits - 1 else s.permits, requests := s.requests + [r]);
      ProceedIsMetered(t, |s.requests|, e);
    }
  }

  lemma ResumedIsMetered(s: Server, id: nat, e: Entry)
    requires Settled(s) && Metered(s) && IsAt(s, id, Handed) && s.anchor <= e.now <= e.later
    ensures Metered(Resumed(s, id, e))
  {
    var past := Past(s, id, Holding);
    MeteredIsDated(s);
    TransitionIsMetered(s, past);
    CountUpdates(s.requests, id, s.requests[id].(phase := Holding));
    CountAny(s.requests, Handed, id);
    hide Count, Metered, Proceed;
    HandOverAllAdmits(past);
    HandedOverIsMetered(past, HandOverAll(past));
    ProceedIsMetered(HandOverAll(past), id, e);
  }

  lemma CancelledIsMetered(s: Server, id: nat)
    requires Metered(s) && (IsAt(s, id, Waiting) || IsAt(s, id, Handed))
    ensures Metered(CancelledWaiting(s, id))
  {
    MeteredIsDated(s);
    var gone := Past(s, id, Over(Cancelled));
    var back := if s.requests[id].phase == Handed then gone.(permits := s.permits + 1) else gone;
    TransitionIsMetered(s, back);
    HandedOverIsMetered(back, HandOverAll(back));
  }

  lemma NextIsMetered(s: Server, last: int, a: Action)
    requires Settled(s) && Metered(s) && s.anchor <= last && Timely(last, a)
    ensures Metered(Next(s, a)) && Next(s, a).anchor <= Clock(last, a)
  {
    hide Metered, Settled;
    match a
    case Arrive(e) => ArrivedIsMetered(s, e);
    case Resume(id, e) => if IsAt(s, id, Handed) { ResumedIsMetered(s, id, e); }
    case CancelWaiting(id) =>
      if IsAt(s, id, Waiting) || IsAt(s, id, Handed) { CancelledIsMetered(s, id); }
    case Complete(id, now, outcome) =>
      if IsAt(s, id, Serving) && outcome in {Served, Failed, Cancelled} {
        SettledAdmits(s);
        LeaveIsMetered(s, id, now, outcome);
      }
    case Poll(now) =>
      SettledAdmits(s);
      assert Metered(Advance(s, now)) by { AdvanceIsMetered(s, now); }
    case StopService => assert Metered(s.(stopping := true)) by { TransitionKeeps(s); }
  }

  lemma TransitionKeeps(s: Server)
    requires Metered(s)
    ensures Metered(s.(stopping := true))
  {}

  lemma AdvanceIsMetered(s: Server, now: int)
    requires Admission(s, 0) && Metered(s) && s.anchor <= now
    ensures Metered(Advance(s, now))
  {
    AdvanceIsExact(s, now);
    AdvanceIsBounded(s, now);
    hide Exact, Bounded;
  }

  lemma SettledAdmits(s: Server)
    requires Settled(s)
    ensures Admission(s, 0)
  {}

  // ----- whole runs -----

  // Some run leads there, timely or not.
  ghost predicate Reachable(limit: Limit, epoch: int, s: Server) {
    exists actions :: s == Run(Init(limit, epoch), actions)
  }

  predicate Configured(limit: Limit) { limit.AtMost? ==> limit.n > 0 }

  lemma InitHolds(limit: Limit, epoch: int)
    requires Configured(limit)
    ensures Settled(Init(limit, epoch)) && Metered(Init(limit, epoch))
  {
    CoverNone();
  }

  lemma {:induction false} RunHolds(limit: Limit, epoch: int, actions: seq<Action>)
    requires Configured(limit) && AllTimely(epoch, actions)
    ensures var s := Run(Init(limit, epoch), actions);
            Settled(s) && Metered(s) && s.anchor <= Clocks(epoch, actions) && s.limit == limit
  {
    var init := Init(limit, epoch);
    InitHolds(limit, epoch);
    if actions != [] {
      RunHolds(limit, epoch, Front(actions));
      var s := Run(init, Front(actions));
      NextAdmits(s, Last(actions));
      NextIsMetered(s, Clocks(epoch, Front(actions)), Last(actions));
      NextKeepsLimit(s, Last(actions));
    }
    hide Settled, Metered, Next, Init;
  }

  lemma NextKeepsLimit(s: Server, a: Action)
    ensures Next(s, a).limit == s.limit
  {}

  /** Occupancy is an exact integral: whatever a run admitted, rejected, cancelled and polled, a
      metrics read at any later time returns the sum over requests of their time in flight so far
      and the number of instants with at least one in flight, and the two bound each other. */
  lemma {:induction false} OccupancyIsExact(limit: Limit, epoch: int, actions: seq<Action>, now: int)
    requires Configured(limit) && AllTimely(epoch, actions) && Clocks(epoch, actions) <= now
    ensures var s := Run(Init(limit, epoch), actions);
            var read := Next(s, Poll(now));
            && read.integral == Total(SpansAt(s.requests, now))
            && read.busy == |Cover(SpansAt(s.requests, now))|
            && read.busy <= read.integral
            && (limit.AtMost? ==> read.integral <= limit.n * read.busy)
  {
    RunHolds(limit, epoch, actions);
    var s := Run(Init(limit, epoch), actions);
    NextIsMetered(s, Clocks(epoch, actions), Poll(now));
    hide Run, SpansAt, Cover, Total;
  }

  /** No permit is leaked or released twice: in every run the permits left and the requests holding
      one make up the limit, the in-flight count never exceeds it, the drain event is set exactly
      when nobody is in flight, and while a request waits some other one holds a permit. */
  lemma {:induction false} PermitsAreConserved(limit: Limit, epoch: int, s: Server)
    requires Configured(limit) && Reachable(limit, epoch, s)
    ensures && (limit.AtMost? ==>
                  s.permits + Count(s.requests, Handed) + Count(s.requests, Serving) == limit.n)
            && s.inflight == Count(s.requests, Serving) && (limit.AtMost? ==> s.inflight <= limit.n)
            && s.queued == Count(s.requests, Waiting) + Count(s.requests, Handed)
            && (s.drained <==> s.inflight == 0)
            && (Count(s.requests, Waiting) > 0 ==> Count(s.requests, Handed) + Count(s.requests, Serving) > 0)
  {
    var actions :| s == Run(Init(limit, epoch), actions);
    InitHolds(limit, epoch);
    RunAdmits(Init(limit, epoch), actions);
    RunKeepsLimit(Init(limit, epoch), actions);
    hide Run, Count;
  }

  lemma {:induction false} RunKeepsLimit(s: Server, actions: seq<Action>)
    ensures Run(s, actions).limit == s.limit
  {
    if actions != [] {
      RunKeepsLimit(s, Front(actions));
      NextKeepsLimit(Run(s, Front(actions)), Last(actions));
    }
  }

  // Once stopping and drained, a server stays so.
  lemma DrainStays(limit: Limit, epoch: int, before: seq<Action>, after: seq<Action>)
    requires Configured(limit)
    requires Run(Init(limit, epoch), before).stopping && Run(Init(limit, epoch), before).drained
    ensures var s := Run(Run(Init(limit, epoch), before), after); s.inflight == 0 && s.drained && s.stopping
  {
    InitHolds(limit, epoch);
    RunAdmits(Init(limit, epoch), before);
    var s := Run(Init(limit, epoch), before);
    RunAdmits(s, after);
    SettledMeansDrained(s);
    SettledMeansDrained(Run(s, after));
    hide Run, Settled;
  }

  lemma SettledMeansDrained(s: Server)
    requires Settled(s)
    ensures s.inflight >= 0 && (s.drained <==> s.inflight == 0)
  {}

  // ----- polling is transparent -----

  // The two servers differ at most in how recently they folded, so they will read the same.
  ghost predicate SameReadings(s: Server, s': Server, clock: int) {
    Advance(s, clock) == Advance(s', clock)
  }

  /** Folding in two steps is folding in one. */
  lemma AdvanceTwice(s: Server, middle: int, now: int)
    requires s.anchor <= middle <= now
    ensures Advance(Advance(s, middle), now) == Advance(s, now)
  {
    assert s.inflight * (middle - s.anchor) + s.inflight * (now - middle) == s.inflight * (now - s.anchor);
  }

  lemma SameReadingsLater(s: Server, s': Server, clock: int, now: int)
    requires SameReadings(s, s', clock) && s.anchor <= clock && s'.anchor <= clock <= now
    ensures SameReadings(s, s', now)
  {
    AdvanceTwice(s, clock, now);
    AdvanceTwice(s', clock, now);
  }

  lemma {:induction false} HandOverAllIgnoresClock(s: Server, now: int)
    ensures Advance(HandOverAll(s), now) == HandOverAll(Advance(s, now))
    decreases s.permits
  {
    if s.permits != 0 && FirstWaiting(s.requests) != |s.requests| {
      HandOverAllIgnoresClock(HandOver(s), now);
      assert HandOver(Advance(s, now)) == Advance(HandOver(s), now);
    }
  }

  lemma ReleaseIgnoresClock(s: Server, now: int)
    ensures Advance(Release(s), now) == Release(Advance(s, now))
  {}

  // What does not read the clock commutes with folding; what does starts by folding.
  lemma ProceedReadsTheSame(s: Server, s': Server, id: nat, e: Entry, clock: int)
    requires SameReadings(s, s', clock) && s.anchor <= clock && s'.anchor <= clock
    requires clock <= e.now <= e.later && id < |s.requests|
    ensures id < |s'.requests| && SameReadings(Proceed(s, id, e), Proceed(s', id, e), e.later)
  {
    SameReadingsLater(s, s', clock, e.now);
    SameReadingsLater(s, s', clock, e.later);
    assert Advance(s, clock).requests == Advance(s', clock).requests;
    if s.stopping {
      ReleaseIgnoresClock(s.(requests := s.requests[id := s.requests[id].(phase := Over(Stopping))]), e.later);
      ReleaseIgnoresClock(s'.(requests := s'.requests[id := s'.requests[id].(phase := Over(Stopping))]), e.later);
    } else {
      assert Enter(s, id, e.now) == Enter(s', id, e.now);
    }
    hide Release, Leave, Enter;
  }

  lemma LeaveReadsTheSame(s: Server, s': Server, id: nat, now: int, outcome: Outcome, clock: int)
    requires SameReadings(s, s', clock) && s.anchor <= clock && s'.anchor <= clock <= now
    requires id < |s.requests|
    ensures id < |s'.requests| && Leave(s, id, now, outcome) == Leave(s', id, now, outcome)
  {
    SameReadingsLater(s, s', clock, now);
    assert Advance(s, clock).requests == Advance(s', clock).requests;
    assert Departed(s, id, now, outcome) == Departed(s', id, now, outcome);
  }

  lemma ResumedReadsTheSame(s: Server, s': Server, id: nat, e: Entry, clock: int)
    requires SameReadings(s, s', clock) && s.anchor <= clock && s'.anchor <= clock <= e.now <= e.later
    requires id < |s.requests|
    ensures id < |s'.requests| && SameReadings(Resumed(s, id, e), Resumed(s', id, e), e.later)
  {
    assert Advance(s, clock).requests == Advance(s', clock).requests;
    HandOverAllIgnoresClock(Past(s, id, Holding), clock);
    HandOverAllIgnoresClock(Past(s', id, Holding), clock);
    assert Advance(Past(s, id, Holding), clock) == Advance(Past(s', id, Holding), clock);
    hide Proceed;
    ProceedReadsTheSame(HandOverAll(Past(s, id, Holding)), HandOverAll(Past(s', id, Holding)), id, e, clock);
  }

  lemma CancelledReadsTheSame(s: Server, s': Server, id: nat, clock: int)
    requires SameReadings(s, s', clock) && id < |s.requests|
    ensures id < |s'.requests| && SameReadings(CancelledWaiting(s, id), CancelledWaiting(s', id), clock)
  {
    assert Advance(s, clock).requests == Advance(s', clock).requests;
    var gone, gone' := Past(s, id, Over(Cancelled)), Past(s', id, Over(Cancelled));
    var handed := s.requests[id].phase == Handed;
    var back := if handed then gone.(permits := s.permits + 1) else gone;
    var back' := if handed then gone'.(permits := s'.permits + 1) else gone';
    assert Advance(back, clock) == Advance(back', clock);
    HandOverAllIgnoresClock(back, clock);
    HandOverAllIgnoresClock(back', clock);
  }

  lemma SameQueue(s: Server, s': Server, clock: int)
    requires SameReadings(s, s', clock)
    ensures s'.limit == s.limit && s'.permits == s.permits && s'.queued == s.queued && s'.requests == s.requests
    ensures s'.inflight == s.inflight
  {
    var a, a' := Advance(s, clock), Advance(s', clock);
    assert a.limit == a'.limit && a.permits == a'.permits && a.queued == a'.queued && a.requests == a'.requests
        && a.inflight == a'.inflight;
  }

  // Changing what the clock does not enter into changes both alike.
  lemma ChangesTheSame(s: Server, s': Server, clock: int, permits: nat, queued: int, requests: seq<Request>)
    requires SameReadings(s, s', clock)
    ensures SameReadings(s.(permits := permits, queued := queued, requests := requests),
                         s'.(permits := permits, queued := queued, requests := requests), clock)
  {
    assert Advance(s.(permits := permits, queued := queued, requests := requests), clock)
        == Advance(s, clock).(permits := permits, queued := queued, requests := requests);
    assert Advance(s'.(permits := permits, queued := queued, requests := requests), clock)
        == Advance(s', clock).(permits := permits, queued := queued, requests := requests);
  }

  lemma ArrivedReadsTheSame(s: Server, s': Server, e: Entry, clock: int)
    requires SameReadings(s, s', clock) && s.anchor <= clock && s'.anchor <= clock <= e.now <= e.later
    ensures SameReadings(Arrived(s, e), Arrived(s', e), e.later)
  {
    SameQueue(s, s', clock);
    assert Locked(s) == Locked(s');
    var n := |s.requests|;
    if Locked(s) {
      var queue := s.requests + [Request(Waiting, NEVER)];
      ChangesTheSame(s, s', clock, s.permits, s.queued + 1, queue);
      hide SameReadings, Locked;
      SameReadingsLater(s.(permits := s.permits, queued := s.queued + 1, requests := queue),
                        s'.(permits := s.permits, queued := s.queued + 1, requests := queue), clock, e.later);
    } else {
      var permits := if s.limit.AtMost? then s.permits - 1 else s.permits;
      var more := s.requests + [Request(Holding, NEVER)];
      ChangesTheSame(s, s', clock, permits, s.queued, more);
      hide SameReadings, Proceed, Locked;
      ProceedReadsTheSame(s.(permits := permits, queued := s.queued, requests := more),
                          s'.(permits := permits, queued := s.queued, requests := more), n, e, clock);
    }
  }

  lemma StoppingReadsTheSame(s: Server, s': Server, clock: int)
    requires SameReadings(s, s', clock)
    ensures SameReadings(s.(stopping := true), s'.(stopping := true), clock)
  {
    assert Advance(s.(stopping := true), clock) == Advance(s, clock).(stopping := true);
    assert Advance(s'.(stopping := true), clock) == Advance(s', clock).(stopping := true);
  }

  lemma NextReadsTheSame(s: Server, s': Server, clock: int, a: Action)
    requires SameReadings(s, s', clock) && s.anchor <= clock && s'.anchor <= clock && Timely(clock, a)
    ensures SameReadings(Next(s, a), Next(s', a), Clock(clock, a))
  {
    SameReadingsLater(s, s', clock, Clock(clock, a));
    SameQueue(s, s', clock);
    hide Arrived, Resumed, CancelledWaiting, Leave;
    match a
    case Arrive(e) => ArrivedReadsTheSame(s, s', e, clock);
    case Resume(id, e) => if IsAt(s, id, Handed) { ResumedReadsTheSame(s, s', id, e, clock); }
    case CancelWaiting(id) =>
      if IsAt(s, id, Waiting) || IsAt(s, id, Handed) { CancelledReadsTheSame(s, s', id, clock); }
    case Complete(id, now, outcome) =>
      if IsAt(s, id, Serving) { LeaveReadsTheSame(s, s', id, now, outcome, clock); }
    case Poll(now) =>
    case StopService => StoppingReadsTheSame(s, s', clock);
  }

  lemma PollReadsTheSame(s: Server, s': Server, clock: int, now: int)
    requires SameReadings(s, s', clock) && s.anchor <= clock && s'.anchor <= clock <= now
    ensures SameReadings(Next(s, Poll(now)), s', now)
  {
    SameReadingsLater(s, s', clock, now);
    AdvanceTwice(s, now, now);
  }

  // The run with its metrics reads taken out.
  function Unpolled(actions: seq<Action>): seq<Action> {
    if actions == [] then []
    else Unpolled(Front(actions)) + if Last(actions).Poll? then [] else [Last(actions)]
  }

  lemma {:induction false} UnpolledReadsTheSame(limit: Limit, epoch: int, actions: seq<Action>)
    requires Configured(limit) && AllTimely(epoch, actions)
    ensures var s, s' := Run(Init(limit, epoch), actions), Run(Init(limit, epoch), Unpolled(actions));
            && SameReadings(s, s', Clocks(epoch, actions))
            && s.anchor <= Clocks(epoch, actions) && s'.anchor <= Clocks(epoch, actions)
  {
    hide Next, SameReadings, Timely, Clock;
    if actions != [] {
      var init, a := Front(actions), Last(actions);
      UnpolledReadsTheSame(limit, epoch, init);
      var clock := Clocks(epoch, init);
      var s, s' := Run(Init(limit, epoch), init), Run(Init(limit, epoch), Unpolled(init));
      AnchorFollowsClock(s, clock, a);
      AnchorFollowsClock(s', clock, a);
      if a.Poll? {
        PollIsOnTime(clock, a);
        assert Unpolled(actions) == Unpolled(init);
        PollReadsTheSame(s, s', clock, a.now);
      } else {
        NextReadsTheSame(s, s', clock, a);
        assert Front(Unpolled(actions)) == Unpolled(init);
      }
    } else {
      StartsTheSame(limit, epoch);
    }
  }

  lemma StartsTheSame(limit: Limit, epoch: int)
    ensures SameReadings(Init(limit, epoch), Init(limit, epoch), epoch)
  {}

  lemma PollIsOnTime(clock: int, a: Action)
    requires a.Poll? && Timely(clock, a)
    ensures clock <= a.now == Clock(clock, a)
  {}

  lemma AnchorFollowsClock(s: Server, clock: int, a: Action)
    requires s.anchor <= clock && Timely(clock, a)
    ensures Next(s, a).anchor <= Clock(clock, a) && clock <= Clock(clock, a)
  {}

  /** Several pollers can read at any cadence without disturbing each other: taking every metrics
      read out of a run changes no later reading, and nothing else either. */
  lemma {:induction false} PollingIsTransparent(limit: Limit, epoch: int, actions: seq<Action>, now: int)
    requires Configured(limit) && AllTimely(epoch, actions) && Clocks(epoch, actions) <= now
    ensures Next(Run(Init(limit, epoch), actions), Poll(now))
         == Next(Run(Init(limit, epoch), Unpolled(actions)), Poll(now))
  {
    UnpolledReadsTheSame(limit, epoch, actions);
    var s, s' := Run(Init(limit, epoch), actions), Run(Init(limit, epoch), Unpolled(actions));
    SameReadingsLater(s, s', Clocks(epoch, actions), now);
    hide Run;
  }
}
