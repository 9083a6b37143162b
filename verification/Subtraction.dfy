/** Interval subtraction: one interval minus a family of cuts, the exact condition under which
    the pieces come out disjoint, and the trainer's split of reward wait built on it. */
module Subtraction {
  import opened Common
  import opened Sorting
  import opened Instants

  // What one cut leaves of one piece.
  function CutPiece(piece: Interval, cut: Interval): seq<Interval> {
    if cut.end <= piece.start || cut.start >= piece.end then [piece]
    else
      (if cut.start > piece.start then [Interval(piece.start, Min(cut.start, piece.end))] else [])
      + (if cut.end < piece.end then [Interval(Max(cut.end, piece.start), piece.end)] else [])
  }

  function CutPieces(pieces: seq<Interval>, cut: Interval): seq<Interval> {
    if pieces == [] then []
    else CutPieces(pieces[..|pieces| - 1], cut) + CutPiece(pieces[|pieces| - 1], cut)
  }

  function CutAll(pieces: seq<Interval>, cuts: seq<Interval>): seq<Interval> {
    if cuts == [] then pieces
    else CutPieces(CutAll(pieces, cuts[..|cuts| - 1]), cuts[|cuts| - 1])
  }

  function Positive(pieces: seq<Interval>): seq<Interval> {
    if pieces == [] then []
    else Positive(pieces[..|pieces| - 1])
         + (var p := pieces[|pieces| - 1]; if p.end > p.start then [p] else [])
  }

  function Subtracted(iv: Interval, cuts: seq<Interval>): seq<Interval> {
    Positive(CutAll([iv], Ordered(cuts)))
  }

  lemma CutNothing(iv: Interval, cuts: seq<Interval>)
    ensures CutAll([iv], cuts[..0]) == [iv]
    ensures forall c, pieces: seq<Interval> :: CutPieces(pieces[..0], c) == []
    ensures forall pieces: seq<Interval> :: Positive(pieces[..0]) == []
  {}

  lemma CutPiecesPush(pieces: seq<Interval>, i: nat, cut: Interval)
    requires i < |pieces|
    ensures CutPieces(pieces[..i + 1], cut) == CutPieces(pieces[..i], cut) + CutPiece(pieces[i], cut)
  {
    assert pieces[..i + 1][..i] == pieces[..i];
  }

  lemma CutAllPush(pieces: seq<Interval>, cuts: seq<Interval>, k: nat)
    requires k < |cuts|
    ensures CutAll(pieces, cuts[..k + 1]) == CutPieces(CutAll(pieces, cuts[..k]), cuts[k])
  {
    assert cuts[..k + 1][..k] == cuts[..k];
  }

  lemma PositivePush(pieces: seq<Interval>, i: nat)
    requires i < |pieces|
    ensures Positive(pieces[..i + 1])
         == Positive(pieces[..i]) + if pieces[i].end > pieces[i].start then [pieces[i]] else []
  {
    assert pieces[..i + 1][..i] == pieces[..i];
  }

  method SubtractIntervals(iv: Interval, cuts: seq<Interval>) returns (pieces: seq<Interval>)
    ensures pieces == Subtracted(iv, cuts)
  {
    hide Ordered, CutPieces, CutAll, Positive;
    var remaining := [iv];
    var ordered := Ordered(cuts);
    CutNothing(iv, ordered);
    for k := 0 to |ordered|
      invariant remaining == CutAll([iv], ordered[..k])
    {
      var cut := ordered[k];
      var nextRemaining := [];
      for i := 0 to |remaining|
        invariant nextRemaining == CutPieces(remaining[..i], cut)
      {
        var start, end := remaining[i].start, remaining[i].end;
        CutPiecesPush(remaining, i, cut);
        if cut.end <= start || cut.start >= end {
          nextRemaining := nextRemaining + [Interval(start, end)];
          continue;
        }
        var kept := [];
        if cut.start > start {
          kept := kept + [Interval(start, Min(cut.start, end))];
        }
        if cut.end < end {
          kept := kept + [Interval(Max(cut.end, start), end)];
        }
        nextRemaining := nextRemaining + kept;
      }
      assert remaining[..|remaining|] == remaining;
      CutAllPush([iv], ordered, k);
      remaining := nextRemaining;
    }
    assert ordered[..|ordered|] == ordered;
    pieces := [];
    for i := 0 to |remaining|
      invariant pieces == Positive(remaining[..i])
    {
      PositivePush(remaining, i);
      if remaining[i].end > remaining[i].start {
        pieces := pieces + [remaining[i]];
      }
    }
    assert remaining[..|remaining|] == remaining;
  }

  // ----- what is covered -----

  lemma CutPieceCover(piece: Interval, cut: Interval)
    ensures Cover(CutPiece(piece, cut)) == Span(piece) - Span(cut)
  {
    forall t ensures t in Cover(CutPiece(piece, cut)) <==> Has(piece, t) && !Has(cut, t) {
      if Has(piece, t) && !Has(cut, t) {
        var left := Interval(piece.start, Min(cut.start, piece.end));
        var right := Interval(Max(cut.end, piece.start), piece.end);
        if piece in CutPiece(piece, cut) {
        } else if t < cut.start {
          assert left in CutPiece(piece, cut) && Has(left, t);
        } else {
          assert right in CutPiece(piece, cut) && Has(right, t);
        }
      }
    }
  }

  lemma {:induction false} CutPiecesCover(pieces: seq<Interval>, cut: Interval)
    ensures Cover(CutPieces(pieces, cut)) == Cover(pieces) - Span(cut)
  {
    if pieces == [] {
      assert Cover(pieces) == {};
    } else {
      var init, last := pieces[..|pieces| - 1], pieces[|pieces| - 1];
      assert pieces == init + [last];
      CutPiecesCover(init, cut);
      CutPieceCover(last, cut);
      CoverConcat(CutPieces(init, cut), CutPiece(last, cut));
      CoverPush(init, last);
    }
  }

  lemma {:induction false} CutAllCover(pieces: seq<Interval>, cuts: seq<Interval>)
    ensures Cover(CutAll(pieces, cuts)) == Cover(pieces) - Cover(cuts)
  {
    if cuts == [] {
      assert Cover(cuts) == {};
    } else {
      var init, last := cuts[..|cuts| - 1], cuts[|cuts| - 1];
      assert cuts == init + [last];
      CutAllCover(pieces, init);
      CutPiecesCover(CutAll(pieces, init), last);
      CoverPush(init, last);
    }
  }

  lemma {:induction false} PositiveFacts(pieces: seq<Interval>)
    ensures forall p :: p in Positive(pieces) <==> p in pieces && p.start < p.end
  {
    if pieces != [] {
      PositiveFacts(pieces[..|pieces| - 1]);
      assert pieces == pieces[..|pieces| - 1] + [pieces[|pieces| - 1]];
    }
  }

  lemma PositiveCover(pieces: seq<Interval>)
    ensures Cover(Positive(pieces)) == Cover(pieces)
  {
    PositiveFacts(pieces);
    forall t | t in Cover(pieces) ensures t in Cover(Positive(pieces)) {
      var p :| p in pieces && Has(p, t);
      assert Has(p, t);
      assert p in Positive(pieces);
    }
  }

  /** For every interval and every family of cuts, inverted ones included: the pieces have
      positive length and cover exactly the instants of the interval outside every cut. */
  lemma SubtractionIsDifference(iv: Interval, cuts: seq<Interval>)
    ensures Cover(Subtracted(iv, cuts)) == Span(iv) - Cover(cuts)
    ensures forall p | p in Subtracted(iv, cuts) :: p.start < p.end
  {
    hide Ordered;
    OrderedFacts(cuts);
    CutAllCover([iv], Ordered(cuts));
    CoverSingle(iv);
    PositiveFacts(CutAll([iv], Ordered(cuts)));
    PositiveCover(CutAll([iv], Ordered(cuts)));
  }

  /** Length left plus length overlapped is the length of the interval, for every input. */
  lemma SubtractionConserves(iv: Interval, cuts: seq<Interval>)
    ensures |Cover(Subtracted(iv, cuts))| + |Span(iv) * Cover(cuts)| == |Span(iv)|
  {
    SubtractionIsDifference(iv, cuts);
    assert Span(iv) == (Span(iv) - Cover(cuts)) + (Span(iv) * Cover(cuts));
  }

  // ----- when the pieces are disjoint -----

  ghost predicate Disjoint(s: seq<Interval>) {
    forall i, j | 0 <= i < j < |s| :: s[i].end <= s[j].start
  }

  // An inverted cut strictly inside the interval that no proper cut starting earlier shields.
  ghost predicate Harmful(iv: Interval, cuts: seq<Interval>, c: Interval) {
    && c in cuts
    && iv.start < c.end < c.start < iv.end
    && forall d | d in cuts && d.start <= d.end && d.start < c.start :: d.end < c.end
  }

  // Between cuts: pieces ordered, non-empty and inside the interval...
  ghost predicate Tidy(iv: Interval, pieces: seq<Interval>) {
    && Disjoint(pieces)
    && forall p | p in pieces :: iv.start <= p.start < p.end <= iv.end
  }

  // ... and clear of every proper cut applied so far.
  ghost predicate ClearOf(pieces: seq<Interval>, cuts: seq<Interval>) {
    forall p, d | p in pieces && d in cuts && d.start <= d.end :: d.end <= p.start || d.start >= p.end
  }

  ghost predicate Inside(q: Interval, pieces: seq<Interval>) {
    exists p | p in pieces :: p.start <= q.start && q.end <= p.end
  }

  lemma CutPieceShrinks(piece: Interval, cut: Interval)
    requires cut.start <= cut.end && piece.start < piece.end
    ensures forall q | q in CutPiece(piece, cut) :: piece.start <= q.start < q.end <= piece.end
    ensures ClearOf(CutPiece(piece, cut), [cut])
  {}

  lemma {:induction false} CutPiecesShrink(pieces: seq<Interval>, cut: Interval)
    requires cut.start <= cut.end
    requires forall p | p in pieces :: p.start < p.end
    ensures forall q | q in CutPieces(pieces, cut) :: q.start < q.end && Inside(q, pieces)
    ensures ClearOf(CutPieces(pieces, cut), [cut])
  {
    hide CutPiece;
    if pieces != [] {
      var init, last := pieces[..|pieces| - 1], pieces[|pieces| - 1];
      assert pieces == init + [last];
      assert last in pieces;
      CutPiecesShrink(init, cut);
      CutPieceShrinks(last, cut);
      forall q | q in CutPieces(pieces, cut) ensures q.start < q.end && Inside(q, pieces) {
        if q in CutPieces(init, cut) {
          var p :| p in init && p.start <= q.start && q.end <= p.end;
          assert p in pieces;
        }
      }
    }
  }

  lemma CutPieceOrdered(piece: Interval, cut: Interval)
    requires cut.start <= cut.end && piece.start < piece.end
    ensures Disjoint(CutPiece(piece, cut))
    ensures forall q | q in CutPiece(piece, cut) :: piece.start <= q.start
  {}

  lemma {:induction false} CutPiecesTidy(iv: Interval, pieces: seq<Interval>, cut: Interval)
    requires cut.start <= cut.end && Tidy(iv, pieces)
    ensures Disjoint(CutPieces(pieces, cut))
  {
    if pieces != [] {
      var init, last := pieces[..|pieces| - 1], pieces[|pieces| - 1];
      assert pieces == init + [last];
      assert forall p | p in init :: p in pieces && p.end <= last.start;
      CutPiecesTidy(iv, init, cut);
      CutPiecesShrink(init, cut);
      assert last in pieces;
      CutPieceOrdered(last, cut);
      DisjointJoin(CutPieces(init, cut), CutPiece(last, cut), last.start);
    }
  }

  lemma DisjointJoin(a: seq<Interval>, b: seq<Interval>, at: int)
    requires Disjoint(a) && Disjoint(b)
    requires forall q | q in a :: q.end <= at
    requires forall q | q in b :: at <= q.start
    ensures Disjoint(a + b)
  {
    var s := a + b;
    forall i, j | 0 <= i < j < |s| ensures s[i].end <= s[j].start {
      if i < |a| <= j {
        assert s[i] in a && s[j] in b;
      }
    }
  }

  // An inverted cut that meets a piece would be harmful; one that meets none changes nothing.
  lemma {:induction false} CutPiecesSkips(pieces: seq<Interval>, cut: Interval)
    requires forall p | p in pieces :: cut.end <= p.start || cut.start >= p.end
    ensures CutPieces(pieces, cut) == pieces
  {
    if pieces != [] {
      assert pieces == pieces[..|pieces| - 1] + [pieces[|pieces| - 1]];
      CutPiecesSkips(pieces[..|pieces| - 1], cut);
    }
  }

  // An inverted cut that meets a piece clear of the cuts sorted before it is harmful.
  lemma MeetingIsHarmful(iv: Interval, cuts: seq<Interval>, k: nat, p: Interval)
    requires SortedBy(cuts, IntervalLeq) && k < |cuts| && cuts[k].end < cuts[k].start
    requires iv.start <= p.start && p.end <= iv.end && ClearOf([p], cuts[..k])
    ensures p.start < cuts[k].end && cuts[k].start < p.end ==> Harmful(iv, cuts, cuts[k])
  {
    var c := cuts[k];
    assert p in [p];
    if !(p.start < c.end && c.start < p.end) { return; }
    forall d | d in cuts && d.start <= d.end && d.start < c.start ensures d.end < c.end {
      var j :| 0 <= j < |cuts| && cuts[j] == d;
      assert j > k ==> IntervalLeq(cuts[k], cuts[j]);
      assert cuts[..k][j] == d;
    }
  }

  lemma HarmlessSkips(iv: Interval, cuts: seq<Interval>, k: nat, pieces: seq<Interval>)
    requires SortedBy(cuts, IntervalLeq) && k < |cuts| && cuts[k].end < cuts[k].start
    requires !Harmful(iv, cuts, cuts[k])
    requires Tidy(iv, pieces) && ClearOf(pieces, cuts[..k])
    ensures CutPieces(pieces, cuts[k]) == pieces
  {
    hide Harmful;
    var c := cuts[k];
    forall p | p in pieces ensures p.start < c.end && c.start < p.end ==> Harmful(iv, cuts, c) {
      MeetingIsHarmful(iv, cuts, k, p);
    }
    CutPiecesSkips(pieces, c);
  }

  lemma ProperCutStaysClean(iv: Interval, cuts: seq<Interval>, k: nat, pieces: seq<Interval>)
    requires k < |cuts| && cuts[k].start <= cuts[k].end
    requires Tidy(iv, pieces) && ClearOf(pieces, cuts[..k])
    ensures Tidy(iv, CutPieces(pieces, cuts[k])) && ClearOf(CutPieces(pieces, cuts[k]), cuts[..k + 1])
  {
    var after := CutPieces(pieces, cuts[k]);
    CutPiecesShrink(pieces, cuts[k]);
    CutPiecesTidy(iv, pieces, cuts[k]);
    forall q | q in after ensures iv.start <= q.start < q.end <= iv.end {
      var p :| p in pieces && p.start <= q.start && q.end <= p.end;
    }
    forall q, d | q in after && d in cuts[..k + 1] && d.start <= d.end
      ensures d.end <= q.start || d.start >= q.end
    {
      var p :| p in pieces && p.start <= q.start && q.end <= p.end;
      if d in cuts[..k] {
      } else {
        assert d in [cuts[k]];
      }
    }
  }

  lemma HarmlessStart(iv: Interval)
    requires iv.start < iv.end
    ensures Tidy(iv, [iv]) && ClearOf([iv], []) && CutAll([iv], []) == [iv]
  {}

  lemma ClearOfInverted(pieces: seq<Interval>, cuts: seq<Interval>, k: nat)
    requires k < |cuts| && cuts[k].end < cuts[k].start && ClearOf(pieces, cuts[..k])
    ensures ClearOf(pieces, cuts[..k + 1])
  {
    assert cuts[..k + 1] == cuts[..k] + [cuts[k]];
  }

  lemma {:induction false} HarmlessStaysClean(iv: Interval, cuts: seq<Interval>, k: nat)
    requires iv.start < iv.end && SortedBy(cuts, IntervalLeq) && k <= |cuts|
    requires forall c | c in cuts :: !Harmful(iv, cuts, c)
    ensures Tidy(iv, CutAll([iv], cuts[..k])) && ClearOf(CutAll([iv], cuts[..k]), cuts[..k])
  {
    hide Harmful, ClearOf, Tidy, CutPieces;
    if k == 0 {
      HarmlessStart(iv);
      assert cuts[..0] == [];
    } else {
      HarmlessStaysClean(iv, cuts, k - 1);
      var pieces := CutAll([iv], cuts[..k - 1]);
      CutAllPush([iv], cuts, k - 1);
      if cuts[k - 1].start <= cuts[k - 1].end {
        ProperCutStaysClean(iv, cuts, k - 1, pieces);
      } else {
        HarmlessSkips(iv, cuts, k - 1, pieces);
        ClearOfInverted(pieces, cuts, k - 1);
      }
    }
  }

  // Two pieces that overlap, both ending no later than the cuts still to come can reach.
  ghost predicate Clash(pieces: seq<Interval>, reach: int) {
    exists p, q | p in pieces && q in pieces :: p.start < q.start < p.end <= q.end && p.end <= reach
  }

  lemma CutPiecesMember(pieces: seq<Interval>, cut: Interval, p: Interval, q: Interval)
    requires p in pieces && q in CutPiece(p, cut)
    ensures q in CutPieces(pieces, cut)
  {
    if pieces[|pieces| - 1] != p {
      assert pieces == pieces[..|pieces| - 1] + [pieces[|pieces| - 1]];
      CutPiecesMember(pieces[..|pieces| - 1], cut, p, q);
    }
  }

  lemma ClashPersists(pieces: seq<Interval>, cut: Interval)
    requires Clash(pieces, cut.start)
    ensures Clash(CutPieces(pieces, cut), cut.start)
  {
    var p, q :| p in pieces && q in pieces && p.start < q.start < p.end <= q.end && p.end <= cut.start;
    CutPiecesMember(pieces, cut, p, p);
    var q' := if cut.end <= q.start || cut.start >= q.end then q else Interval(q.start, Min(cut.start, q.end));
    CutPiecesMember(pieces, cut, q, q');
  }

  lemma InvertedCutClashes(pieces: seq<Interval>, c: Interval)
    requires c.end < c.start
    requires exists p | p in pieces :: p.start < c.end && c.start < p.end
    ensures Clash(CutPieces(pieces, c), c.start)
  {
    var p :| p in pieces && p.start < c.end && c.start < p.end;
    CutPiecesMember(pieces, c, p, Interval(p.start, c.start));
    CutPiecesMember(pieces, c, p, Interval(c.end, p.end));
  }

  // Some piece holds both ends of the inverted cut c in its interior.
  ghost predicate Holds(pieces: seq<Interval>, c: Interval) {
    exists p | p in pieces :: p.start < c.end && c.start < p.end
  }

  // An earlier cut that does not shield c leaves the piece holding it, or makes two pieces clash.
  lemma EarlierCutLeaves(pieces: seq<Interval>, d: Interval, c: Interval)
    requires c.end < c.start && IntervalLeq(d, c) && Holds(pieces, c)
    requires d.start <= d.end && d.start < c.start ==> d.end < c.end
    ensures Clash(CutPieces(pieces, d), d.start) || Holds(CutPieces(pieces, d), c)
  {
    hide CutPieces;
    var p :| p in pieces && p.start < c.end && c.start < p.end;
    if d.end <= p.start || d.start >= p.end {
      CutPiecesMember(pieces, d, p, p);
    } else if d.start <= d.end {
      CutPiecesMember(pieces, d, p, Interval(Max(d.end, p.start), p.end));
    } else {
      InvertedCutClashes(pieces, d);
    }
  }

  // Up to a harmful cut, either two pieces already clash or one piece holds the cut's ends.
  lemma {:induction false} HarmfulFindsItsPiece(iv: Interval, cuts: seq<Interval>, h: nat, k: nat)
    requires SortedBy(cuts, IntervalLeq) && k <= h < |cuts| && Harmful(iv, cuts, cuts[h])
    ensures Clash(CutAll([iv], cuts[..k]), cuts[k].start) || Holds(CutAll([iv], cuts[..k]), cuts[h])
  {
    hide CutPieces;
    if k == 0 {
      assert cuts[..0] == [];
      assert iv in CutAll([iv], cuts[..0]);
    } else {
      HarmfulFindsItsPiece(iv, cuts, h, k - 1);
      CutAllPush([iv], cuts, k - 1);
      var d, pieces := cuts[k - 1], CutAll([iv], cuts[..k - 1]);
      assert IntervalLeq(d, cuts[h]) && IntervalLeq(d, cuts[k]) && d in cuts;
      if Clash(pieces, d.start) {
        ClashPersists(pieces, d);
      } else {
        EarlierCutLeaves(pieces, d, cuts[h]);
      }
    }
  }

  lemma {:induction false} HarmfulClashes(iv: Interval, cuts: seq<Interval>, h: nat, k: nat)
    requires SortedBy(cuts, IntervalLeq) && h < k <= |cuts| && Harmful(iv, cuts, cuts[h])
    ensures Clash(CutAll([iv], cuts[..k]), cuts[k - 1].start)
    decreases k
  {
    hide CutPieces;
    var c, pieces := cuts[k - 1], CutAll([iv], cuts[..k - 1]);
    assert cuts[..k][..k - 1] == cuts[..k - 1];
    if k == h + 1 {
      HarmfulFindsItsPiece(iv, cuts, h, h);
      if Clash(pieces, c.start) {
        ClashPersists(pieces, c);
      } else {
        InvertedCutClashes(pieces, c);
      }
    } else {
      HarmfulClashes(iv, cuts, h, k - 1);
      assert IntervalLeq(cuts[k - 2], cuts[k - 1]);
      ClashPersists(pieces, c);
    }
  }

  lemma ClashIsNotDisjoint(pieces: seq<Interval>, reach: int)
    requires Clash(pieces, reach)
    ensures !Disjoint(Positive(pieces))
  {
    var p, q :| p in pieces && q in pieces && p.start < q.start < p.end <= q.end && p.end <= reach;
    PositiveFacts(pieces);
    OverlapIsNotDisjoint(Positive(pieces), p, q);
  }

  lemma OverlapIsNotDisjoint(s: seq<Interval>, p: Interval, q: Interval)
    requires p in s && q in s && p.start < q.start < p.end <= q.end
    ensures !Disjoint(s)
  {
    var i :| 0 <= i < |s| && s[i] == p;
    var j :| 0 <= j < |s| && s[j] == q;
    assert i < j || j < i;
  }

  lemma {:induction false} PositiveKeepsAll(pieces: seq<Interval>)
    requires forall p | p in pieces :: p.start < p.end
    ensures Positive(pieces) == pieces
  {
    if pieces != [] {
      assert pieces == pieces[..|pieces| - 1] + [pieces[|pieces| - 1]];
      PositiveKeepsAll(pieces[..|pieces| - 1]);
    }
  }

  lemma PositivePiecesCover(pieces: seq<Interval>)
    requires pieces != [] && forall p | p in pieces :: p.start < p.end
    ensures pieces[0].start in Cover(pieces)
  {
    assert pieces[0] in pieces && Has(pieces[0], pieces[0].start);
  }

  lemma NothingLeftOfEmpty(iv: Interval, cuts: seq<Interval>)
    requires iv.end <= iv.start
    ensures Subtracted(iv, cuts) == []
  {
    SubtractionIsDifference(iv, cuts);
    var r := Subtracted(iv, cuts);
    assert Cover(r) == {};
    if r != [] {
      PositivePiecesCover(r);
      assert false;
    }
  }

  /** The pieces are ordered and pairwise disjoint exactly when no cut is harmful.  In
      particular they always are when every cut has start <= end. */
  lemma DisjointIffHarmless(iv: Interval, cuts: seq<Interval>)
    ensures Disjoint(Subtracted(iv, cuts)) <==> forall c | c in cuts :: !Harmful(iv, cuts, c)
  {
    var sorted := Ordered(cuts);
    OrderedFacts(cuts);
    assert forall c :: Harmful(iv, cuts, c) <==> Harmful(iv, sorted, c);
    assert sorted[..|sorted|] == sorted;
    if c :| c in sorted && Harmful(iv, sorted, c) {
      var h :| 0 <= h < |sorted| && sorted[h] == c;
      HarmfulClashes(iv, sorted, h, |sorted|);
      ClashIsNotDisjoint(CutAll([iv], sorted), sorted[|sorted| - 1].start);
    } else if iv.start < iv.end {
      HarmlessStaysClean(iv, sorted, |sorted|);
      PositiveKeepsAll(CutAll([iv], sorted));
    } else {
      NothingLeftOfEmpty(iv, cuts);
    }
  }

  /** A concrete inverted cut that makes the pieces overlap. */
  lemma InvertedCutOverlaps()
    ensures !Disjoint(Subtracted(Interval(0, 10), [Interval(7, 3)]))
  {
    var cuts := [Interval(7, 3)];
    assert cuts[0] in cuts && Harmful(Interval(0, 10), cuts, cuts[0]);
    DisjointIffHarmless(Interval(0, 10), cuts);
  }
}
