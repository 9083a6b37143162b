/** In which order samples are leased: every epoch hands them out in the order it was shuffled into when
    the one before it ended. */
module LeasedOrder {
  import opened Leasing

  // The k-th session made the last lease of the epoch before e, so its shuffle is epoch e's order.
  ghost predicate Turns(order: seq<int>, asks: seq<Ask>, b: Book, e: nat, k: nat, now: seq<int>) {
    && k < |asks| == |b.calls| && e > 0
    && b.calls[k].lease == e * |order| - 1 && now == asks[k].shuffled
    && forall j | 0 <= j < k :: b.calls[j].lease != e * |order| - 1
  }

  // The first epoch has the order the mode began with, a later one the shuffle that made it.
  ghost predicate OrderOf(order: seq<int>, asks: seq<Ask>, b: Book, e: nat, now: seq<int>) {
    if e == 0 then now == order else exists k :: Turns(order, asks, b, e, k, now)
  }

  ghost predicate InOrder(order: seq<int>, asks: seq<Ask>, b: Book) {
    && |asks| == |b.calls| && (forall c | c in b.calls :: c.lease < |b.leases|)
    && OrderOf(order, asks, b, b.mode.epoch, b.mode.order)
    && forall e: nat | e < b.mode.epoch :: EpochInOrder(order, asks, b, e)
  }

  // All the leases of a finished epoch, in its order.
  ghost predicate EpochInOrder(order: seq<int>, asks: seq<Ask>, b: Book, e: nat) {
    && e * |order| <= (e + 1) * |order| <= |b.leases|
    && OrderOf(order, asks, b, e, b.leases[e * |order|..(e + 1) * |order|])
  }

  // A session more leaves what is known of the epochs so far.
  lemma OrderStays(order: seq<int>, asks: seq<Ask>, ask: Ask, b: Book, b': Book, e: nat, now: seq<int>)
    requires OrderOf(order, asks, b, e, now) && |asks| == |b.calls|
    requires |b'.calls| == |b.calls| + 1 && b'.calls[..|b.calls|] == b.calls
    ensures OrderOf(order, asks + [ask], b', e, now)
  {
    if e > 0 {
      var k: nat :| Turns(order, asks, b, e, k, now);
      assert forall j | 0 <= j < |b.calls| :: b'.calls[j] == b'.calls[..|b.calls|][j];
      assert Turns(order, asks + [ask], b', e, k, now);
    }
  }

  lemma EpochStays(order: seq<int>, asks: seq<Ask>, ask: Ask, b: Book, b': Book, e: nat)
    requires EpochInOrder(order, asks, b, e) && |asks| == |b.calls| && b.leases <= b'.leases
    requires |b'.calls| == |b.calls| + 1 && b'.calls[..|b.calls|] == b.calls
    ensures EpochInOrder(order, asks + [ask], b', e)
  {
    var lo, hi := e * |order|, (e + 1) * |order|;
    assert 0 <= lo;
    assert b'.leases[lo..hi] == b.leases[lo..hi];
    hide OrderOf;
    OrderStays(order, asks, ask, b, b', e, b.leases[lo..hi]);
  }

  // A session sharing its group's lease: nothing is leased.
  lemma SharingKeepsOrder(order: seq<int>, asks: seq<Ask>, ask: Ask, b: Book, b': Book)
    requires InOrder(order, asks, b) && |b'.calls| == |b.calls| + 1 && b'.calls[..|b.calls|] == b.calls
    requires b'.leases == b.leases && b'.mode == b.mode.(cache := b'.mode.cache)
    requires b'.calls[|b.calls|].lease < |b.leases|
    ensures InOrder(order, asks + [ask], b')
  {
    assert b'.calls == b.calls + [b'.calls[|b.calls|]];
    OrderStays(order, asks, ask, b, b', b.mode.epoch, b.mode.order);
    forall e: nat | e < b'.mode.epoch ensures EpochInOrder(order, asks + [ask], b', e) {
      EpochStays(order, asks, ask, b, b', e);
    }
    hide OrderOf, EpochInOrder;
  }

  // A session with a lease of its own; the last of an epoch makes the next one's order.
  lemma LeasingKeepsOrder(order: seq<int>, asks: seq<Ask>, ask: Ask, b: Book, b': Book)
    requires InOrder(order, asks, b) && Epochs(order, b.mode, b.leases) && Epochs(order, b'.mode, b'.leases)
    requires |b'.calls| == |b.calls| + 1 && b'.calls[..|b.calls|] == b.calls
    requires b'.leases == b.leases + [b.mode.order[b.mode.nextIdx]]
    requires b'.mode == Leased(b.mode, ask.shuffled).(cache := b'.mode.cache)
    requires b'.calls[|b.calls|].lease == |b.leases|
    ensures InOrder(order, asks + [ask], b')
  {
    var more, ended := asks + [ask], b.mode.epoch;
    assert b'.calls == b.calls + [b'.calls[|b.calls|]];
    OrderStays(order, asks, ask, b, b', ended, b.mode.order);
    forall e: nat | e < ended ensures EpochInOrder(order, more, b', e) {
      EpochStays(order, asks, ask, b, b', e);
    }
    hide OrderOf, EpochInOrder, Epochs;
    if b.mode.nextIdx + 1 >= |b.mode.order| {
      EpochEnds(order, asks, ask, b, b');
    }
  }

  lemma EpochEnds(order: seq<int>, asks: seq<Ask>, ask: Ask, b: Book, b': Book)
    requires InOrder(order, asks, b) && Epochs(order, b.mode, b.leases) && b.mode.nextIdx + 1 >= |b.mode.order|
    requires |b'.calls| == |b.calls| + 1 && b'.calls[..|b.calls|] == b.calls
    requires b'.leases == b.leases + [b.mode.order[b.mode.nextIdx]]
    requires b'.calls[|b.calls|].lease == |b.leases|
    requires OrderOf(order, asks + [ask], b', b.mode.epoch, b.mode.order)
    ensures EpochInOrder(order, asks + [ask], b', b.mode.epoch)
    ensures OrderOf(order, asks + [ask], b', b.mode.epoch + 1, ask.shuffled)
  {
    var n, more, ended := |order|, asks + [ask], b.mode.epoch;
    assert forall j | 0 <= j < |b.calls| :: b'.calls[j] == b'.calls[..|b.calls|][j];
    hide OrderOf, EpochComplete;
    assert (ended + 1) * n == ended * n + n == |b'.leases|;
    assert b'.leases[ended * n..(ended + 1) * n] == b.mode.order;
    assert EpochInOrder(order, more, b', ended);
    assert Turns(order, more, b', ended + 1, |b.calls|, ask.shuffled);
    OrderIsTurned(order, more, b', ended + 1, |b.calls|, ask.shuffled);
  }

  lemma OrderIsTurned(order: seq<int>, asks: seq<Ask>, b: Book, e: nat, k: nat, now: seq<int>)
    requires Turns(order, asks, b, e, k, now)
    ensures OrderOf(order, asks, b, e, now)
  {}

  // Open blocks belong to groups that have had sessions.
  lemma CachedHaveSessions(order: seq<int>, samples: int, asks: seq<Ask>, b: Book, group: string)
    requires order != [] && Reaches(order, samples, asks, b) && group in b.mode.cache
    ensures Of(b.calls, group) != []
  {
    hide Reaches;
    if samples > 0 {
      LeasesInBlocksAndEpochs(order, samples, asks, b);
      OpenBlocksAreSessions(b, group);
    } else {
      NeverReleased(order, samples, asks, b);
    }
  }

  lemma StepKeepsOrder(order: seq<int>, asks: seq<Ask>, ask: Ask, b: Book)
    requires InOrder(order, asks, b) && Epochs(order, b.mode, b.leases) && Shuffles(b.mode, ask)
    requires b.mode.nextIdx < |b.mode.order| && Epochs(order, Step(b, ask).mode, Step(b, ask).leases)
    requires ask.group in b.mode.cache ==> Of(b.calls, ask.group) != []
    ensures InOrder(order, asks + [ask], Step(b, ask))
  {
    var mine, b' := Of(b.calls, ask.group), Step(b, ask);
    OfIsWithin(b.calls, ask.group);
    assert b'.calls[..|b.calls|] == b.calls;
    if ask.group in b.mode.cache {
      assert mine[|mine| - 1] in b.calls;
      hide InOrder, Of, Leased;
      SharingKeepsOrder(order, asks, ask, b, b') by {
        BoundedLeases(order, asks, b);
      }
    } else {
      hide InOrder, Of, Leased, Epochs;
      LeasingKeepsOrder(order, asks, ask, b, b');
    }
  }

  lemma BoundedLeases(order: seq<int>, asks: seq<Ask>, b: Book)
    requires InOrder(order, asks, b)
    ensures forall c | c in b.calls :: c.lease < |b.leases|
  {
    hide OrderOf, EpochInOrder;
  }

  lemma StartsInOrder(order: seq<int>, samples: int)
    ensures InOrder(order, [], Init(order, samples))
  {}

  /** For any interleaving of groups and any samples: the leases of every finished epoch are, in order, the
      indices as they were first listed or, from the second epoch on, as the session that made the last
      lease of the epoch before shuffled them; and so is the order of the epoch under way. */
  lemma {:induction false} LeasesFollowTheShuffles(order: seq<int>, samples: int, asks: seq<Ask>, b: Book)
    requires order != [] && Reaches(order, samples, asks, b)
    ensures InOrder(order, asks, b)
  {
    hide InOrder, Epochs, Of, Step, Shuffles, Init;
    if asks == [] {
      StartsInOrder(order, samples);
    } else {
      var init, ask := asks[..|asks| - 1], asks[|asks| - 1];
      var b0 :| && Reaches(order, samples, init, b0)
                && b0.mode.nextIdx < |b0.mode.order| && Shuffles(b0.mode, ask)
                && b == Step(b0, ask);
      hide Reaches;
      assert asks == init + [ask];
      LeasesFollowTheShuffles(order, samples, init, b0);
      EpochsForAnySamples(order, samples, init, b0);
      EpochsForAnySamples(order, samples, asks, b);
      if ask.group in b0.mode.cache {
        CachedHaveSessions(order, samples, init, b0, ask.group);
      }
      StepKeepsOrder(order, init, ask, b0);
    }
  }
}
