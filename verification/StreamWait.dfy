/** Rank-local cleaning: training-schedule envelopes lose the data waits of their own pid. */
module StreamWait {
  import opened Instants
  import opened Subtraction
  import opened Sweep

  const TRAINING_SCHEDULE := "critical_path.training_schedule"
  const TRAINING_COMPUTE := "critical_path.training_compute_and_orchestration"

  function WaitsOf(events: seq<Event>, pid: int): seq<Interval> {
    if events == [] then []
    else
      var e := events[|events| - 1];
      WaitsOf(events[..|events| - 1], pid)
      + if e.stage == DataWait && e.pid == pid then [Interval(e.start, e.end)] else []
  }

  function Rebuilt(e: Event, pieces: seq<Interval>): seq<Event> {
    if pieces == [] then []
    else
      var p := pieces[|pieces| - 1];
      Rebuilt(e, pieces[..|pieces| - 1]) + [e.(name := TRAINING_COMPUTE, start := p.start, end := p.end)]
  }

  function Expanded(e: Event, all: seq<Event>): seq<Event> {
    if e.name != TRAINING_SCHEDULE then [e]
    else Rebuilt(e, Subtracted(Interval(e.start, e.end), WaitsOf(all, e.pid)))
  }

  function Cleaned(events: seq<Event>, all: seq<Event>): seq<Event> {
    if events == [] then []
    else Cleaned(events[..|events| - 1], all) + Expanded(events[|events| - 1], all)
  }

  function WaitsFor(waitsByPid: map<int, seq<Interval>>, pid: int): seq<Interval> {
    if pid in waitsByPid then waitsByPid[pid] else []
  }

  method GroupWaits(events: seq<Event>) returns (waitsByPid: map<int, seq<Interval>>)
    ensures forall pid :: WaitsFor(waitsByPid, pid) == WaitsOf(events, pid)
  {
    waitsByPid := map[];
    for i := 0 to |events|
      invariant forall pid :: WaitsFor(waitsByPid, pid) == WaitsOf(events[..i], pid)
    {
      assert events[..i + 1][..i] == events[..i];
      var e := events[i];
      if e.stage == DataWait {
        waitsByPid := waitsByPid[e.pid := WaitsFor(waitsByPid, e.pid) + [Interval(e.start, e.end)]];
      }
    }
    assert events[..|events|] == events;
  }

  method RebuildSpans(e: Event, pieces: seq<Interval>) returns (spans: seq<Event>)
    ensures spans == Rebuilt(e, pieces)
  {
    spans := [];
    for k := 0 to |pieces|
      invariant spans == Rebuilt(e, pieces[..k])
    {
      assert pieces[..k + 1][..k] == pieces[..k];
      spans := spans + [e.(name := TRAINING_COMPUTE, start := pieces[k].start, end := pieces[k].end)];
    }
    assert pieces[..|pieces|] == pieces;
  }

  method RemoveStreamWaitFromTraining(events: seq<Event>) returns (output: seq<Event>)
    ensures output == Cleaned(events, events)
  {
    hide Subtracted, WaitsOf, Rebuilt;
    var waitsByPid := GroupWaits(events);
    output := [];
    for i := 0 to |events|
      invariant output == Cleaned(events[..i], events)
    {
      assert events[..i + 1][..i] == events[..i];
      var e := events[i];
      if e.name != TRAINING_SCHEDULE {
        output := output + [e];
        continue;
      }
      var pieces := SubtractIntervals(Interval(e.start, e.end), WaitsFor(waitsByPid, e.pid));
      var spans := RebuildSpans(e, pieces);
      output := output + spans;
    }
    assert events[..|events|] == events;
  }

  // ----- what every other event sees -----

  // The events that are neither envelopes nor the spans that replace them.
  function Others(events: seq<Event>): seq<Event> {
    if events == [] then []
    else
      var e := events[|events| - 1];
      Others(events[..|events| - 1]) + if e.name != TRAINING_SCHEDULE && e.name != TRAINING_COMPUTE then [e] else []
  }

  lemma {:induction false} OthersConcat(a: seq<Event>, b: seq<Event>)
    ensures Others(a + b) == Others(a) + Others(b)
  {
    if b == [] {
      assert a + b == a;
    } else {
      var init := b[..|b| - 1];
      assert (a + b)[..|a + b| - 1] == a + init;
      OthersConcat(a, init);
    }
  }

  lemma {:induction false} RebuiltHasNoOthers(e: Event, pieces: seq<Interval>)
    ensures Others(Rebuilt(e, pieces)) == []
  {
    if pieces != [] {
      RebuiltHasNoOthers(e, pieces[..|pieces| - 1]);
    }
  }

  /** Every other event is kept unchanged and in order. */
  lemma {:induction false} OthersUnchanged(events: seq<Event>, all: seq<Event>)
    ensures Others(Cleaned(events, all)) == Others(events)
  {
    if events != [] {
      var init, e := events[..|events| - 1], events[|events| - 1];
      OthersUnchanged(init, all);
      OthersConcat(Cleaned(init, all), Expanded(e, all));
      if e.name == TRAINING_SCHEDULE {
        RebuiltHasNoOthers(e, Subtracted(Interval(e.start, e.end), WaitsOf(all, e.pid)));
      } else {
        assert Expanded(e, all)[..0] == [];
      }
    }
  }

  // The events that are no training envelope, whatever they are named.
  function Kept(events: seq<Event>): seq<Event> {
    if events == [] then []
    else
      var e := events[|events| - 1];
      Kept(events[..|events| - 1]) + if e.name != TRAINING_SCHEDULE then [e] else []
  }

  // The output events marked as pieces, or those not marked.
  function Marked(output: seq<Event>, piece: seq<bool>, which: bool): seq<Event>
    requires |output| == |piece|
  {
    if output == [] then []
    else
      var n := |output| - 1;
      Marked(output[..n], piece[..n], which) + if piece[n] == which then [output[n]] else []
  }

  lemma {:induction false} MarkedConcat(a: seq<Event>, b: seq<Event>, p: seq<bool>, q: seq<bool>, which: bool)
    requires |a| == |p| && |b| == |q|
    ensures Marked(a + b, p + q, which) == Marked(a, p, which) + Marked(b, q, which)
  {
    if b == [] {
      assert a + b == a && p + q == p;
    } else {
      var n := |b| - 1;
      assert (a + b)[..|a + b| - 1] == a + b[..n] && (p + q)[..|p + q| - 1] == p + q[..n];
      MarkedConcat(a, b[..n], p, q[..n], which);
    }
  }

  lemma {:induction false} MarkedAll(s: seq<Event>, p: seq<bool>, which: bool)
    requires |s| == |p| && forall i | 0 <= i < |p| :: p[i] == which
    ensures Marked(s, p, which) == s && Marked(s, p, !which) == []
  {
    if s != [] {
      var n := |s| - 1;
      MarkedAll(s[..n], p[..n], which);
      assert s == s[..n] + [s[n]];
    }
  }

  ghost predicate CutFromSome(span: Event, events: seq<Event>) { exists e | e in events :: CutFrom(span, e) }

  // What is marked as a piece was cut from one of the envelopes.
  ghost predicate PiecesOf(output: seq<Event>, piece: seq<bool>, events: seq<Event>) {
    |output| == |piece| && forall i | 0 <= i < |piece| && piece[i] :: CutFromSome(output[i], events)
  }

  lemma PiecesOfConcat(a: seq<Event>, b: seq<Event>, p: seq<bool>, q: seq<bool>, init: seq<Event>, e: Event)
    requires PiecesOf(a, p, init) && PiecesOf(b, q, [e])
    ensures PiecesOf(a + b, p + q, init + [e])
  {
    forall i | 0 <= i < |p + q| && (p + q)[i] ensures CutFromSome((a + b)[i], init + [e]) {
      if i < |p| {
        var d :| d in init && CutFrom(a[i], d);
        assert d in init + [e];
      } else {
        assert CutFromSome(b[i - |p|], [e]);
        assert e in init + [e];
      }
    }
    hide CutFrom;
  }

  lemma ExpandedPieces(e: Event, all: seq<Event>) returns (now: seq<bool>)
    ensures |now| == |Expanded(e, all)| && PiecesOf(Expanded(e, all), now, [e])
    ensures Marked(Expanded(e, all), now, false) == if e.name != TRAINING_SCHEDULE then [e] else []
  {
    var more, replaced := Expanded(e, all), e.name == TRAINING_SCHEDULE;
    now := seq(|more|, _ => replaced);
    MarkedAll(more, now, replaced);
    if replaced {
      PiecesWithin(Interval(e.start, e.end), WaitsOf(all, e.pid));
      RebuiltFrom(e, Subtracted(Interval(e.start, e.end), WaitsOf(all, e.pid)));
      assert forall i | 0 <= i < |more| :: more[i] in more;
      assert e in [e];
    }
    hide Marked, CutFrom;
  }

  lemma OneMoreCleaned(init: seq<Event>, e: Event, all: seq<Event>)
    ensures Cleaned(init + [e], all) == Cleaned(init, all) + Expanded(e, all)
    ensures Kept(init + [e]) == Kept(init) + if e.name != TRAINING_SCHEDULE then [e] else []
  {
    assert (init + [e])[..|init|] == init;
    hide Expanded;
  }

  // What is claimed of a cleaned list: its marked events are pieces, the others are the kept ones.
  ghost predicate Told(events: seq<Event>, all: seq<Event>, piece: seq<bool>) {
    && PiecesOf(Cleaned(events, all), piece, events)
    && Marked(Cleaned(events, all), piece, false) == Kept(events)
  }

  lemma OneMoreTold(init: seq<Event>, e: Event, all: seq<Event>, earlier: seq<bool>, now: seq<bool>)
    requires Told(init, all, earlier) && PiecesOf(Expanded(e, all), now, [e])
    requires Marked(Expanded(e, all), now, false) == if e.name != TRAINING_SCHEDULE then [e] else []
    ensures Told(init + [e], all, earlier + now)
  {
    OneMoreCleaned(init, e, all);
    hide Marked, CutFromSome, Expanded, Cleaned, Kept;
    MarkedConcat(Cleaned(init, all), Expanded(e, all), earlier, now, false);
    PiecesOfConcat(Cleaned(init, all), Expanded(e, all), earlier, now, init, e);
  }

  /** Cleaning only takes the training envelopes out and puts pieces of them in: with the pieces
      left out again, the output is every other event, unchanged and in order, those already named
      like a piece included. */
  lemma {:induction false} OnlyEnvelopesReplaced(events: seq<Event>, all: seq<Event>) returns (piece: seq<bool>)
    ensures PiecesOf(Cleaned(events, all), piece, events)
    ensures Marked(Cleaned(events, all), piece, false) == Kept(events)
  {
    hide Marked, CutFromSome, Expanded;
    if events == [] {
      piece := [];
      assert Marked([], [], false) == [] by { MarkedAll([], [], false); }
    } else {
      var init, e := events[..|events| - 1], events[|events| - 1];
      var earlier := OnlyEnvelopesReplaced(init, all);
      var now := ExpandedPieces(e, all);
      OneMoreTold(init, e, all, earlier, now);
      piece := earlier + now;
      assert events == init + [e];
      hide Cleaned, Kept;
    }
  }

  // ----- what each instant of each rank sees -----

  ghost predicate NamedAt(events: seq<Event>, name: string, pid: int, t: int) {
    exists e | e in events :: e.name == name && e.pid == pid && Active(e, t)
  }

  ghost predicate WaitingAt(events: seq<Event>, pid: int, t: int) {
    exists e | e in events :: e.stage == DataWait && e.pid == pid && Active(e, t)
  }

  lemma {:induction false} WaitsOfCover(events: seq<Event>, pid: int, t: int)
    ensures t in Cover(WaitsOf(events, pid)) <==> WaitingAt(events, pid, t)
  {
    if events == [] {
      CoverNone();
    } else {
      var init, e := events[..|events| - 1], events[|events| - 1];
      assert events == init + [e];
      WaitsOfCover(init, pid, t);
      CoverPush(WaitsOf(init, pid), Interval(e.start, e.end));
      assert Has(Interval(e.start, e.end), t) <==> Active(e, t);
      if WaitingAt(init, pid, t) {
        var x :| x in init && x.stage == DataWait && x.pid == pid && Active(x, t);
        assert x in events;
      }
      if e.stage == DataWait && e.pid == pid && Active(e, t) {
        assert e in events;
      }
    }
  }

  lemma {:induction false} RebuiltAt(e: Event, pieces: seq<Interval>, pid: int, t: int)
    ensures NamedAt(Rebuilt(e, pieces), TRAINING_COMPUTE, pid, t) <==> e.pid == pid && t in Cover(pieces)
  {
    if pieces == [] {
      CoverNone();
    } else {
      var init, p := pieces[..|pieces| - 1], pieces[|pieces| - 1];
      assert pieces == init + [p];
      RebuiltAt(e, init, pid, t);
      CoverPush(init, p);
      NamedAtConcat(Rebuilt(e, init), [e.(name := TRAINING_COMPUTE, start := p.start, end := p.end)],
                    TRAINING_COMPUTE, pid, t);
      var last := e.(name := TRAINING_COMPUTE, start := p.start, end := p.end);
      assert Has(p, t) <==> Active(last, t);
      NamedAtSingle(last, TRAINING_COMPUTE, pid, t);
    }
  }

  lemma NamedAtSingle(e: Event, name: string, pid: int, t: int)
    ensures NamedAt([e], name, pid, t) <==> e.name == name && e.pid == pid && Active(e, t)
  {
    assert e in [e];
  }

  lemma NamedAtConcat(a: seq<Event>, b: seq<Event>, name: string, pid: int, t: int)
    ensures NamedAt(a + b, name, pid, t) <==> NamedAt(a, name, pid, t) || NamedAt(b, name, pid, t)
  {
    assert forall e :: e in a + b <==> e in a || e in b;
  }

  lemma ExpandedAt(e: Event, all: seq<Event>, pid: int, t: int)
    ensures NamedAt(Expanded(e, all), TRAINING_COMPUTE, pid, t)
       <==> NamedAt([e], TRAINING_COMPUTE, pid, t)
            || (NamedAt([e], TRAINING_SCHEDULE, pid, t) && !WaitingAt(all, pid, t))
  {
    NamedAtSingle(e, TRAINING_COMPUTE, pid, t);
    NamedAtSingle(e, TRAINING_SCHEDULE, pid, t);
    if e.name == TRAINING_SCHEDULE {
      var iv, waits := Interval(e.start, e.end), WaitsOf(all, e.pid);
      RebuiltAt(e, Subtracted(iv, waits), pid, t);
      SubtractionIsDifference(iv, waits);
      WaitsOfCover(all, e.pid, t);
      assert Has(iv, t) <==> Active(e, t);
    }
  }

  lemma {:induction false} CleanedAt(events: seq<Event>, all: seq<Event>, pid: int, t: int)
    ensures NamedAt(Cleaned(events, all), TRAINING_COMPUTE, pid, t)
       <==> NamedAt(events, TRAINING_COMPUTE, pid, t)
            || (NamedAt(events, TRAINING_SCHEDULE, pid, t) && !WaitingAt(all, pid, t))
  {
    if events != [] {
      var init, e := events[..|events| - 1], events[|events| - 1];
      assert events == init + [e];
      CleanedAt(init, all, pid, t);
      ExpandedAt(e, all, pid, t);
      NamedAtConcat(Cleaned(init, all), Expanded(e, all), TRAINING_COMPUTE, pid, t);
      NamedAtConcat(init, [e], TRAINING_COMPUTE, pid, t);
      NamedAtConcat(init, [e], TRAINING_SCHEDULE, pid, t);
    }
  }

  /** After cleaning, an instant is in a compute span of a rank iff it was in one already, or in
      one of that rank's envelopes and in none of that rank's data waits. */
  lemma CleaningIsRankLocal(events: seq<Event>, pid: int, t: int)
    ensures NamedAt(Cleaned(events, events), TRAINING_COMPUTE, pid, t)
       <==> NamedAt(events, TRAINING_COMPUTE, pid, t)
            || (NamedAt(events, TRAINING_SCHEDULE, pid, t) && !WaitingAt(events, pid, t))
  {
    CleanedAt(events, events, pid, t);
  }

  // A span cut out of an envelope keeps every field of it but its name and its ends.
  ghost predicate CutFrom(span: Event, e: Event) {
    && e.name == TRAINING_SCHEDULE
    && span == e.(name := TRAINING_COMPUTE, start := span.start, end := span.end)
    && e.start <= span.start < span.end <= e.end
  }

  lemma {:induction false} RebuiltFrom(e: Event, pieces: seq<Interval>)
    requires e.name == TRAINING_SCHEDULE
    requires forall p | p in pieces :: e.start <= p.start < p.end <= e.end
    ensures forall x | x in Rebuilt(e, pieces) :: CutFrom(x, e)
  {
    if pieces != [] {
      assert pieces == pieces[..|pieces| - 1] + [pieces[|pieces| - 1]];
      RebuiltFrom(e, pieces[..|pieces| - 1]);
    }
  }

  lemma PiecesWithin(iv: Interval, cuts: seq<Interval>)
    ensures forall p | p in Subtracted(iv, cuts) :: iv.start <= p.start < p.end <= iv.end
  {
    SubtractionIsDifference(iv, cuts);
    var r := Subtracted(iv, cuts);
    forall p | p in r ensures iv.start <= p.start < p.end <= iv.end {
      assert Has(p, p.start) && Has(p, p.end - 1);
      assert p.start in Cover(r) && p.end - 1 in Cover(r);
      assert Has(iv, p.start) && Has(iv, p.end - 1);
    }
  }

  /** Nothing appears out of nowhere: each output event is an input event or a positive-length
      span cut from an envelope with all its other fields. */
  lemma {:induction false} CleanedProvenance(events: seq<Event>, all: seq<Event>)
    ensures forall x | x in Cleaned(events, all) ::
        x.name != TRAINING_SCHEDULE && (x in events || exists e | e in events :: CutFrom(x, e))
  {
    if events != [] {
      var init, e := events[..|events| - 1], events[|events| - 1];
      assert events == init + [e];
      CleanedProvenance(init, all);
      PiecesWithin(Interval(e.start, e.end), WaitsOf(all, e.pid));
      if e.name == TRAINING_SCHEDULE {
        RebuiltFrom(e, Subtracted(Interval(e.start, e.end), WaitsOf(all, e.pid)));
      }
      forall x | x in Cleaned(events, all)
        ensures x.name != TRAINING_SCHEDULE && (x in events || exists e | e in events :: CutFrom(x, e))
      {
        if x in Cleaned(init, all) {
          if x !in init {
            var d :| d in init && CutFrom(x, d);
            assert d in events;
          }
        } else {
          assert x in Expanded(e, all) && e in events;
        }
      }
    }
  }

  // ----- where the pieces stand -----

  function Spans(events: seq<Event>): seq<Interval> {
    seq(|events|, i requires 0 <= i < |events| => Interval(events[i].start, events[i].end))
  }

  predicate WaitsWith(w: Event, e: Event) { w.stage == DataWait && w.pid == e.pid }

  // One of the data waits of the envelope's process has these ends.
  ghost predicate IsWait(all: seq<Event>, e: Event, c: Interval) {
    exists w | w in all :: WaitsWith(w, e) && c == Interval(w.start, w.end)
  }

  // An inverted data wait strictly inside the envelope that no proper wait starting earlier shields.
  ghost predicate HarmfulWait(all: seq<Event>, e: Event, w: Event) {
    && w in all && WaitsWith(w, e) && e.start < w.end < w.start < e.end
    && forall d | d in all && WaitsWith(d, e) && d.start <= d.end && d.start < w.start :: d.end < w.end
  }

  lemma {:induction false} WaitsOfElements(all: seq<Event>, e: Event)
    ensures forall c :: c in WaitsOf(all, e.pid) <==> IsWait(all, e, c)
  {
    if all != [] {
      var init, last := all[..|all| - 1], all[|all| - 1];
      assert all == init + [last];
      WaitsOfElements(init, e);
      forall c ensures c in WaitsOf(all, e.pid) <==> IsWait(all, e, c) {
        if w :| w in init && WaitsWith(w, e) && c == Interval(w.start, w.end) {
          assert w in all;
        }
        if WaitsWith(last, e) && c == Interval(last.start, last.end) {
          assert last in all;
        }
      }
    }
  }

  lemma {:induction false} RebuiltSpans(e: Event, pieces: seq<Interval>)
    ensures Spans(Rebuilt(e, pieces)) == pieces
  {
    if pieces != [] {
      RebuiltSpans(e, pieces[..|pieces| - 1]);
      assert pieces == pieces[..|pieces| - 1] + [pieces[|pieces| - 1]];
    }
  }

  /** An envelope's pieces follow one another without overlap, so none is there twice, exactly when no
      data wait of its own process is harmful; so always when every wait ends no earlier than it
      starts. */
  lemma PiecesFollowOneAnother(e: Event, all: seq<Event>)
    requires e.name == TRAINING_SCHEDULE
    ensures Disjoint(Spans(Expanded(e, all))) <==> forall w | w in all :: !HarmfulWait(all, e, w)
  {
    var iv, waits := Interval(e.start, e.end), WaitsOf(all, e.pid);
    RebuiltSpans(e, Subtracted(iv, waits));
    DisjointIffHarmless(iv, waits);
    WaitsOfElements(all, e);
    hide Subtracted, Rebuilt, WaitsOf, Disjoint;
    HarmfulIsHarmfulWait(e, all, waits);
  }

  lemma HarmfulIsHarmfulWait(e: Event, all: seq<Event>, waits: seq<Interval>)
    requires forall c :: c in waits <==> IsWait(all, e, c)
    ensures (exists c | c in waits :: Harmful(Interval(e.start, e.end), waits, c)) <==>
      (exists w | w in all :: HarmfulWait(all, e, w))
  {
    if c :| c in waits && Harmful(Interval(e.start, e.end), waits, c) {
      var w :| w in all && WaitsWith(w, e) && c == Interval(w.start, w.end);
      forall d | d in all && WaitsWith(d, e) && d.start <= d.end && d.start < w.start ensures d.end < w.end {
        assert IsWait(all, e, Interval(d.start, d.end));
      }
      assert HarmfulWait(all, e, w);
    }
    if w :| w in all && HarmfulWait(all, e, w) {
      var c := Interval(w.start, w.end);
      assert IsWait(all, e, c);
      assert Harmful(Interval(e.start, e.end), waits, c);
    }
  }

  /** Each event is replaced where it stands: what comes before and after it is cleaned as if it were not
      there. */
  lemma {:induction false} CleanedInPlace(a: seq<Event>, e: Event, b: seq<Event>, all: seq<Event>)
    ensures Cleaned(a + [e] + b, all) == Cleaned(a, all) + Cleaned([e], all) + Cleaned(b, all)
    ensures Cleaned([e], all) == Expanded(e, all)
  {
    hide Expanded;
    assert [e][..0] == [];
    if b == [] {
      assert a + [e] + b == a + [e];
      OneMoreCleaned(a, e, all);
    } else {
      var init, last := b[..|b| - 1], b[|b| - 1];
      assert a + [e] + b == (a + [e] + init) + [last];
      CleanedInPlace(a, e, init, all);
      OneMoreCleaned(a + [e] + init, last, all);
    }
  }
}
