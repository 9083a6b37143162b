/** Sample leasing of the agent server: each epoch hands every usable index out once, and a group
    keeps one lease for as many sessions as the mode asks samples for. */
module Leasing {

  // A group's current index and how many more of its sessions share it.
  datatype Entry = Entry(index: int, remaining: int)

  datatype Mode = Mode(
    order: seq<int>, nextIdx: nat, epoch: nat, samples: int, cache: map<string, Entry>)

  // One session asking for a sample, and the order the next epoch would be shuffled into.
  datatype Ask = Ask(group: string, shuffled: seq<int>)

  // What a session was given, and which lease that was.
  datatype Call = Call(group: string, index: int, lease: int)

  datatype Book = Book(mode: Mode, leases: seq<int>, calls: seq<Call>)

  function Init(order: seq<int>, samples: int): Book { Book(Mode(order, 0, 0, samples, map[]), [], []) }

  // ----- one lease, one session -----

  function Leased(m: Mode, shuffled: seq<int>): Mode {
    if m.nextIdx + 1 >= |m.order| then m.(nextIdx := 0, epoch := m.epoch + 1, order := shuffled)
    else m.(nextIdx := m.nextIdx + 1)
  }

  // The group's entry after one more session on an index with that many left.
  function Spent(m: Mode, group: string, index: int, remaining: int): Mode {
    m.(cache := if remaining - 1 != 0 then m.cache[group := Entry(index, remaining - 1)] else m.cache - {group})
  }

  function Given(m: Mode, ask: Ask): int
    requires m.nextIdx < |m.order|
  {
    if ask.group in m.cache then m.cache[ask.group].index else m.order[m.nextIdx]
  }

  function Sampled(m: Mode, ask: Ask): Mode
    requires m.nextIdx < |m.order|
  {
    if ask.group in m.cache then
      Spent(m, ask.group, m.cache[ask.group].index, m.cache[ask.group].remaining)
    else Spent(Leased(m, ask.shuffled), ask.group, m.order[m.nextIdx], m.samples)
  }

  // ----- runs, with every lease and every session written down -----

  function Of(calls: seq<Call>, group: string): seq<Call> {
    if calls == [] then []
    else
      var last := calls[|calls| - 1];
      Of(calls[..|calls| - 1], group) + if last.group == group then [last] else []
  }

  function Step(b: Book, ask: Ask): Book
    requires b.mode.nextIdx < |b.mode.order|
  {
    var given, mine := Given(b.mode, ask), Of(b.calls, ask.group);
    if ask.group in b.mode.cache && mine != [] then
      Book(Sampled(b.mode, ask), b.leases, b.calls + [Call(ask.group, given, mine[|mine| - 1].lease)])
    else
      Book(Sampled(b.mode, ask), b.leases + [given], b.calls + [Call(ask.group, given, |b.leases|)])
  }

  ghost predicate Shuffles(m: Mode, ask: Ask) { multiset(ask.shuffled) == multiset(m.order) }

  // A run from the given indices in which every shuffle is a permutation.
  ghost predicate Reaches(order: seq<int>, samples: int, asks: seq<Ask>, b: Book) {
    if asks == [] then b == Init(order, samples)
    else
      exists b0 ::
        && Reaches(order, samples, asks[..|asks| - 1], b0)
        && b0.mode.nextIdx < |b0.mode.order| && Shuffles(b0.mode, asks[|asks| - 1])
        && b == Step(b0, asks[|asks| - 1])
  }

  // ----- epochs -----

  ghost predicate Epochs(order: seq<int>, m: Mode, leases: seq<int>) {
    var n := |order|;
    && |m.order| == n > m.nextIdx && multiset(m.order) == multiset(order)
    && |leases| == m.epoch * n + m.nextIdx
    && leases[m.epoch * n..] == m.order[..m.nextIdx]
    && forall e | 0 <= e < m.epoch :: EpochComplete(order, leases, e)
  }

  /** Epoch e of the leases visited every usable index exactly as often as it is listed. */
  ghost predicate EpochComplete(order: seq<int>, leases: seq<int>, e: nat) {
    && (e + 1) * |order| <= |leases|
    && e * |order| <= (e + 1) * |order|
    && multiset(leases[e * |order|..(e + 1) * |order|]) == multiset(order)
  }

  lemma LeaseKeepsEpochs(order: seq<int>, m: Mode, leases: seq<int>, shuffled: seq<int>)
    requires Epochs(order, m, leases) && multiset(shuffled) == multiset(m.order)
    ensures Epochs(order, Leased(m, shuffled), leases + [m.order[m.nextIdx]])
  {
    var n, m' := |order|, Leased(m, shuffled);
    var leases' := leases + [m.order[m.nextIdx]];
    SameLength(shuffled, m.order);
    assert m.epoch * n >= 0;
    EarlierEpochs(order, leases, leases', m.epoch);
    assert leases'[m.epoch * n..] == m.order[..m.nextIdx + 1];
    if m.nextIdx + 1 >= n {
      assert (m.epoch + 1) * n == m.epoch * n + n == |leases'|;
      assert leases'[m.epoch * n..(m.epoch + 1) * n] == m.order;
      assert EpochComplete(order, leases', m.epoch);
    }
  }

  lemma EarlierEpochs(order: seq<int>, leases: seq<int>, leases': seq<int>, epochs: nat)
    requires leases <= leases' && forall e | 0 <= e < epochs :: EpochComplete(order, leases, e)
    ensures forall e | 0 <= e < epochs :: EpochComplete(order, leases', e)
  {
    forall e | 0 <= e < epochs ensures EpochComplete(order, leases', e) {
      assert EpochComplete(order, leases, e);
      var lo, hi := e * |order|, (e + 1) * |order|;
      assert 0 <= lo;
      assert leases'[lo..hi] == leases[lo..hi];
    }
  }

  lemma SameLength(a: seq<int>, b: seq<int>)
    requires multiset(a) == multiset(b)
    ensures |a| == |b|
  {
    assert |multiset(a)| == |a| && |multiset(b)| == |b|;
  }

  // ----- groups -----

  // Every session got the index of its lease.
  ghost predicate Honoured(b: Book) {
    forall k | 0 <= k < |b.calls| ::
      0 <= b.calls[k].lease < |b.leases| && b.calls[k].index == b.leases[b.calls[k].lease]
  }

  /** Consecutive sessions of a group share a lease in blocks of the given size and in no other
      way: two of them have the same lease exactly when they fall in the same block. */
  ghost predicate InBlocks(mine: seq<Call>, size: int)
    requires size > 0
  {
    forall i, j | 0 <= i < |mine| && 0 <= j < |mine| ::
      mine[i].lease == mine[j].lease <==> i / size == j / size
  }

  // No lease serves two groups.
  ghost predicate Separate(calls: seq<Call>) {
    forall i, j | 0 <= i < |calls| && 0 <= j < |calls| ::
      calls[i].lease == calls[j].lease ==> calls[i].group == calls[j].group
  }

  // The cache holds the open blocks.
  ghost predicate Cached(m: Mode, mine: seq<Call>, group: string)
    requires m.samples > 0
  {
    && (group in m.cache <==> |mine| % m.samples != 0)
    && (group in m.cache ==> m.cache[group] == Entry(mine[|mine| - 1].index, m.samples - |mine| % m.samples))
  }

  ghost predicate Grouped(b: Book)
    requires b.mode.samples > 0
  {
    && Honoured(b) && Separate(b.calls)
    && forall group :: InBlocks(Of(b.calls, group), b.mode.samples) && Cached(b.mode, Of(b.calls, group), group)
  }

  lemma {:induction false} OfIsWithin(calls: seq<Call>, group: string)
    ensures forall c | c in Of(calls, group) :: c in calls && c.group == group
  {
    if calls != [] {
      OfIsWithin(calls[..|calls| - 1], group);
    }
  }

  lemma OfPush(calls: seq<Call>, c: Call, group: string)
    ensures Of(calls + [c], group) == Of(calls, group) + if c.group == group then [c] else []
  {
    assert (calls + [c])[..|calls + [c]| - 1] == calls;
  }

  lemma NextInBlock(n: nat, size: int)
    requires size > 0
    ensures (n + 1) % size == if n % size + 1 == size then 0 else n % size + 1
    ensures n % size == 0 ==> forall i | 0 <= i < n :: i / size != n / size
    ensures n > 0 && n % size != 0 ==> (n - 1) / size == n / size
  {
    var q, r := n / size, n % size;
    if r + 1 == size {
      Divides(n + 1, size, q + 1, 0);
    } else {
      Divides(n + 1, size, q, r + 1);
    }
    if r == 0 {
      forall i | 0 <= i < n ensures i / size != q {
        EarlierBlocks(i, q, size);
      }
    } else {
      Divides(n - 1, size, q, r - 1);
    }
  }

  lemma Divides(n: int, size: int, q: int, r: int)
    requires size > 0 && n == q * size + r && 0 <= r < size
    ensures n / size == q && n % size == r
  {
    NotAMultiple(n / size - q, size, r - n % size);
  }

  lemma AtLeastOne(k: int, size: int)
    requires size > 0
    ensures k >= 1 ==> k * size >= size
  {}

  // The difference of two remainders is no multiple of the size, but for zero.
  lemma NotAMultiple(k: int, size: int, d: int)
    requires k * size == d && -size < d < size
    ensures k == 0 && d == 0
  {
    AtLeastOne(k, size);
    AtLeastOne(-k, size);
  }

  lemma EarlierBlocks(i: nat, q: nat, size: int)
    requires size > 0 && i < q * size
    ensures i / size < q
  {
    AtLeastOne(i / size - q + 1, size);
  }

  lemma OpensBlock(mine: seq<Call>, c: Call, size: int)
    requires size > 0 && InBlocks(mine, size) && |mine| % size == 0
    requires forall i | 0 <= i < |mine| :: mine[i].lease != c.lease
    ensures InBlocks(mine + [c], size)
  {
    NextInBlock(|mine|, size);
  }

  lemma StaysInBlock(mine: seq<Call>, c: Call, size: int)
    requires size > 0 && InBlocks(mine, size) && |mine| % size != 0
    requires c.lease == mine[|mine| - 1].lease
    ensures InBlocks(mine + [c], size)
  {
    NextInBlock(|mine|, size);
  }

  lemma StepFresh(b: Book, ask: Ask, lease: int)
    requires b.mode.samples > 0 && Grouped(b) && lease == |b.leases|
    ensures forall c | c in b.calls :: c.lease != lease
  {}

  // The other groups' sessions and cache entries are untouched.
  lemma OthersUntouched(b: Book, ask: Ask, group: string)
    requires b.mode.samples > 0 && Grouped(b) && b.mode.nextIdx < |b.mode.order| && group != ask.group
    ensures var b' := Step(b, ask);
            && InBlocks(Of(b'.calls, group), b.mode.samples) && Cached(b'.mode, Of(b'.calls, group), group)
  {
    OfPush(b.calls, Step(b, ask).calls[|b.calls|], group);
    assert Cached(b.mode, Of(b.calls, group), group);
    hide Grouped, Of, InBlocks;
    assert InBlocks(Of(b.calls, group), b.mode.samples) by { GroupIsInBlocks(b, group); }
  }

  lemma GroupIsInBlocks(b: Book, group: string)
    requires b.mode.samples > 0 && Grouped(b)
    ensures InBlocks(Of(b.calls, group), b.mode.samples) && Cached(b.mode, Of(b.calls, group), group)
  {}

  // The call the asking group gets, and what its cache entry becomes.
  lemma AskerGets(b: Book, ask: Ask)
    requires b.mode.samples > 0 && b.mode.nextIdx < |b.mode.order|
    requires Cached(b.mode, Of(b.calls, ask.group), ask.group)
    requires ask.group in b.mode.cache ==> Of(b.calls, ask.group) != []
    ensures var mine, b' := Of(b.calls, ask.group), Step(b, ask);
            var c := b'.calls[|b.calls|];
            var left := if ask.group in b.mode.cache then b.mode.cache[ask.group].remaining else b.mode.samples;
            && b'.calls == b.calls + [c] && c.group == ask.group && b'.mode.samples == b.mode.samples
            && (ask.group in b.mode.cache ==> c.lease == mine[|mine| - 1].lease)
            && (ask.group !in b.mode.cache ==> c.lease == |b.leases|)
            && (ask.group in b'.mode.cache <==> left != 1)
            && (left != 1 ==> b'.mode.cache[ask.group] == Entry(c.index, left - 1))
  {
    hide Of;
  }

  // The asking group opens a block with a fresh lease, or goes on with its open block.
  lemma AskerServed(b: Book, ask: Ask)
    requires b.mode.samples > 0 && Grouped(b) && b.mode.nextIdx < |b.mode.order|
    ensures var b' := Step(b, ask);
            && InBlocks(Of(b'.calls, ask.group), b.mode.samples)
            && Cached(b'.mode, Of(b'.calls, ask.group), ask.group)
  {
    var b', mine, size := Step(b, ask), Of(b.calls, ask.group), b.mode.samples;
    var c := b'.calls[|b.calls|];
    GroupIsInBlocks(b, ask.group);
    OpenBlocksAreSessions(b, ask.group);
    AskerGets(b, ask);
    OfPush(b.calls, c, ask.group);
    NextInBlock(|mine|, size);
    if |mine| % size == 0 {
      OfIsWithin(b.calls, ask.group);
      StepFresh(b, ask, c.lease);
      hide Grouped, Of, Step;
      OpensBlock(mine, c, size);
    } else {
      hide Grouped, Of, Step;
      StaysInBlock(mine, c, size);
    }
    hide InBlocks, Step;
  }

  lemma StepHonours(b: Book, ask: Ask)
    requires b.mode.samples > 0 && Grouped(b) && b.mode.nextIdx < |b.mode.order|
    ensures Honoured(Step(b, ask)) && Separate(Step(b, ask).calls)
  {
    var mine := Of(b.calls, ask.group);
    OfIsWithin(b.calls, ask.group);
    GroupIsInBlocks(b, ask.group);
    StepFresh(b, ask, |b.leases|);
    if mine != [] {
      assert mine[|mine| - 1] in b.calls;
    }
    hide Of, InBlocks;
  }

  lemma StepGroups(b: Book, ask: Ask)
    requires b.mode.samples > 0 && Grouped(b) && b.mode.nextIdx < |b.mode.order|
    ensures Step(b, ask).mode.samples == b.mode.samples && Grouped(Step(b, ask))
  {
    StepHonours(b, ask);
    AskerServed(b, ask);
    forall group | group != ask.group
      ensures InBlocks(Of(Step(b, ask).calls, group), b.mode.samples)
      ensures Cached(Step(b, ask).mode, Of(Step(b, ask).calls, group), group)
    {
      OthersUntouched(b, ask, group);
    }
    hide Of, InBlocks, Cached, Honoured, Separate;
  }

  /** For any interleaving of groups: every session gets the index of its lease, the sessions of a
      group share a lease exactly in consecutive blocks of samples, no lease serves two groups, and
      every finished epoch of leases visits every usable index exactly once. */
  lemma {:induction false} LeasesInBlocksAndEpochs(order: seq<int>, samples: int, asks: seq<Ask>, b: Book)
    requires samples > 0 && order != [] && Reaches(order, samples, asks, b)
    ensures b.mode.samples == samples && Grouped(b) && Epochs(order, b.mode, b.leases)
    ensures |b.calls| == |asks|
  {
    if asks != [] {
      var init, ask := asks[..|asks| - 1], asks[|asks| - 1];
      var b0 :| && Reaches(order, samples, init, b0)
                && b0.mode.nextIdx < |b0.mode.order| && Shuffles(b0.mode, ask)
                && b == Step(b0, ask);
      LeasesInBlocksAndEpochs(order, samples, init, b0);
      StepGroups(b0, ask);
      hide Grouped, Reaches, Epochs, Step;
      StepEpochs(order, b0, ask);
    }
  }

  lemma StepEpochs(order: seq<int>, b: Book, ask: Ask)
    requires b.mode.samples > 0 && Grouped(b) && Epochs(order, b.mode, b.leases) && Shuffles(b.mode, ask)
    ensures b.mode.nextIdx < |b.mode.order| && Epochs(order, Step(b, ask).mode, Step(b, ask).leases)
  {
    OpenBlocksAreSessions(b, ask.group);
    hide Grouped, Of;
    StepKeepsEpochs(order, b, ask);
  }

  // Leases only ever come from the order, whatever the cache holds.
  lemma StepKeepsEpochs(order: seq<int>, b: Book, ask: Ask)
    requires Epochs(order, b.mode, b.leases) && Shuffles(b.mode, ask)
    requires ask.group in b.mode.cache ==> Of(b.calls, ask.group) != []
    ensures b.mode.nextIdx < |b.mode.order| && Epochs(order, Step(b, ask).mode, Step(b, ask).leases)
  {
    LeaseKeepsEpochs(order, b.mode, b.leases, ask.shuffled);
    hide EpochComplete, Of;
    if ask.group in b.mode.cache {
      assert Step(b, ask).leases == b.leases && Step(b, ask).mode == b.mode.(cache := Step(b, ask).mode.cache);
    } else {
      var leased := Leased(b.mode, ask.shuffled);
      assert Step(b, ask).leases == b.leases + [b.mode.order[b.mode.nextIdx]];
      assert Step(b, ask).mode == leased.(cache := Step(b, ask).mode.cache);
      hide Leased;
    }
  }

  lemma OpenBlocksAreSessions(b: Book, group: string)
    requires b.mode.samples > 0 && Grouped(b)
    ensures group in b.mode.cache ==> Of(b.calls, group) != []
  {
    GroupIsInBlocks(b, group);
    hide Grouped, InBlocks;
    if Of(b.calls, group) == [] {
      assert 0 % b.mode.samples == 0;
    }
    hide Of;
  }

  // Whoever has had a session is in the cache with a count below zero and the index it began with.
  ghost predicate Stuck(b: Book, group: string) {
    Of(b.calls, group) != [] ==>
      && group in b.mode.cache && b.mode.cache[group].remaining < 0
      && forall c | c in Of(b.calls, group) :: c.index == b.mode.cache[group].index
  }

  lemma StepStaysStuck(b: Book, ask: Ask, group: string)
    requires b.mode.samples <= 0 && b.mode.nextIdx < |b.mode.order|
    requires Stuck(b, ask.group) && Stuck(b, group)
    requires ask.group in b.mode.cache ==> Of(b.calls, ask.group) != []
    ensures Stuck(Step(b, ask), group)
    ensures ask.group in Step(b, ask).mode.cache ==> Of(Step(b, ask).calls, ask.group) != []
  {
    OfPush(b.calls, Step(b, ask).calls[|b.calls|], group);
    OfPush(b.calls, Step(b, ask).calls[|b.calls|], ask.group);
    hide Of, Leased;
  }

  /** With samples at most zero the count never reaches zero again: the first lease of a group
      serves it for ever.  So blocks end if and only if samples is positive. */
  lemma {:induction false} NeverReleased(order: seq<int>, samples: int, asks: seq<Ask>, b: Book)
    requires samples <= 0 && order != [] && Reaches(order, samples, asks, b)
    ensures b.mode.samples == samples
    ensures forall group :: Stuck(b, group) && (group in b.mode.cache ==> Of(b.calls, group) != [])
  {
    if asks != [] {
      var init, ask := asks[..|asks| - 1], asks[|asks| - 1];
      var b0 :| && Reaches(order, samples, init, b0)
                && b0.mode.nextIdx < |b0.mode.order| && Shuffles(b0.mode, ask)
                && b == Step(b0, ask);
      NeverReleased(order, samples, init, b0);
      forall group ensures Stuck(b, group) && (group in b.mode.cache ==> Of(b.calls, group) != []) {
        StepStaysStuck(b0, ask, group);
        OfPush(b0.calls, b.calls[|b0.calls|], group);
      }
      hide Reaches, Of, Stuck;
    }
  }

  /** Whatever samples is: every finished epoch of leases visits every usable index exactly as often
      as it is listed. */
  lemma {:induction false} EpochsForAnySamples(order: seq<int>, samples: int, asks: seq<Ask>, b: Book)
    requires order != [] && Reaches(order, samples, asks, b)
    ensures Epochs(order, b.mode, b.leases)
  {
    if samples > 0 {
      LeasesInBlocksAndEpochs(order, samples, asks, b);
    } else if asks != [] {
      var init, ask := asks[..|asks| - 1], asks[|asks| - 1];
      var b0 :| && Reaches(order, samples, init, b0)
                && b0.mode.nextIdx < |b0.mode.order| && Shuffles(b0.mode, ask)
                && b == Step(b0, ask);
      EpochsForAnySamples(order, samples, init, b0);
      NeverReleased(order, samples, init, b0);
      hide Reaches, Stuck;
      StepKeepsEpochs(order, b0, ask);
    }
  }

  /** A group that has had sessions is out of the cache, its lease used up, exactly when samples is
      positive and its number of sessions a multiple of it. */
  lemma ReleasedIff(order: seq<int>, samples: int, asks: seq<Ask>, b: Book, group: string)
    requires order != [] && Reaches(order, samples, asks, b) && Of(b.calls, group) != []
    ensures group !in b.mode.cache <==> samples > 0 && |Of(b.calls, group)| % samples == 0
  {
    if samples > 0 {
      LeasesInBlocksAndEpochs(order, samples, asks, b);
      GroupIsInBlocks(b, group);
    } else {
      NeverReleased(order, samples, asks, b);
    }
    hide Reaches, Of, Grouped;
  }

  // Two sessions of one group, in a mode that never counts down to zero.
  ghost predicate SharesFirstLease(order: seq<int>, samples: int, asks: seq<Ask>, b: Book) {
    && Reaches(order, samples, asks, b) && |b.leases| == 1 && |b.calls| == 2
    && b.calls[0].lease == b.calls[1].lease && b.calls[1].group in b.mode.cache
  }

  // After its first session the group holds lease 0, one below zero.
  ghost predicate HoldsFirst(b: Book, order: seq<int>, ask: Ask) {
    && |b.leases| == 1 && |b.calls| == 1 && b.calls[0].group == ask.group && b.calls[0].lease == 0
    && ask.group in b.mode.cache && b.mode.cache[ask.group].remaining < 0
    && b.mode.nextIdx < |b.mode.order| && multiset(b.mode.order) == multiset(order)
  }

  lemma FirstSession(order: seq<int>, samples: int, ask: Ask)
    requires samples <= 0 && order != [] && multiset(ask.shuffled) == multiset(order)
    ensures HoldsFirst(Step(Init(order, samples), ask), order, ask)
  {
    SameLength(ask.shuffled, order);
  }

  lemma SecondSession(b: Book, order: seq<int>, ask: Ask)
    requires HoldsFirst(b, order, ask)
    ensures var b' := Step(b, ask);
            && b'.leases == b.leases && |b'.calls| == 2 && b'.calls[0] == b.calls[0] && b'.calls[1].lease == 0
            && b'.calls[1].group == ask.group && ask.group in b'.mode.cache
  {
    assert b.calls == [] + [b.calls[0]];
    OfPush([], b.calls[0], ask.group);
    hide Of;
  }

  lemma SecondSessionShares(order: seq<int>, samples: int, ask: Ask) returns (b: Book)
    requires samples <= 0 && order != [] && multiset(ask.shuffled) == multiset(order)
    ensures SharesFirstLease(order, samples, [ask] + [ask], b) && b.calls[1].group == ask.group
  {
    var start, asks := Init(order, samples), [ask] + [ask];
    assert asks[..0] == [] && asks[..2] == asks && asks[0] == ask == asks[1];
    assert Reaches(order, samples, asks[..0], start);
    FirstSession(order, samples, ask);
    var once := Step(start, ask);
    assert Shuffles(start.mode, ask) && Shuffles(once.mode, ask);
    SecondSession(once, order, ask);
    b := Step(once, ask);
    hide Reaches, Step, Init;
    ReachesOneMore(order, samples, asks, 0, start);
    ReachesOneMore(order, samples, asks, 1, once);
  }

  /** A concrete mode with samples zero: the second session of a group gets the first one's lease,
      which stays cached. */
  lemma NoSamplesKeepsTheLease() returns (b: Book)
    ensures SharesFirstLease([7, 8], 0, [Ask("g", [7, 8])] + [Ask("g", [7, 8])], b) && b.calls[1].group == "g"
  {
    hide *;
    b := SecondSessionShares([7, 8], 0, Ask("g", [7, 8]));
  }

  // The calls written down are the sessions asking and what they were given.
  ghost predicate Recorded(asks: seq<Ask>, given: seq<int>, calls: seq<Call>) {
    && |given| == |asks| == |calls|
    && forall k | 0 <= k < |asks| :: given[k] == calls[k].index && calls[k].group == asks[k].group
  }

  lemma RecordsOneMore(asks: seq<Ask>, i: nat, given: seq<int>, b: Book)
    requires i < |asks| && Recorded(asks[..i], given, b.calls) && b.mode.nextIdx < |b.mode.order|
    ensures Recorded(asks[..i + 1], given + [Given(b.mode, asks[i])], Step(b, asks[i]).calls)
  {
    hide Sampled, Of;
    assert asks[..i + 1] == asks[..i] + [asks[i]];
  }

  lemma ReachesOneMore(order: seq<int>, samples: int, asks: seq<Ask>, i: nat, b: Book)
    requires i < |asks| && Reaches(order, samples, asks[..i], b)
    requires b.mode.nextIdx < |b.mode.order| && Shuffles(b.mode, asks[i])
    ensures var b' := Step(b, asks[i]);
            && Reaches(order, samples, asks[..i + 1], b') && Shuffles(b.mode, asks[i])
            && b'.mode == Sampled(b.mode, asks[i])
  {
    assert asks[..i + 1][..|asks[..i + 1]| - 1] == asks[..i];
  }

  /** The state the server keeps for a mode; shuffling is a permutation it is handed. */
  class ModeState {
    const samples: int
    var order: seq<int>
    var nextIdx: nat
    var count: nat
    var epoch: nat
    var cache: map<string, Entry>

    ghost function View(): Mode
      reads this
    {
      Mode(order, nextIdx, epoch, samples, cache)
    }

    ghost predicate Valid()
      reads this
    {
      nextIdx < |order| == count
    }

    constructor (indices: seq<int>, samples: int)
      requires indices != []
      ensures Valid() && View() == Init(indices, samples).mode
    {
      this.samples, order, nextIdx, count, epoch, cache := samples, indices, 0, |indices|, 0, map[];
    }

    method Lease(shuffled: seq<int>) returns (index: int)
      requires Valid() && multiset(shuffled) == multiset(order)
      modifies this`order, this`nextIdx, this`epoch
      ensures Valid() && View() == Leased(old(View()), shuffled)
      ensures index == old(order[nextIdx])
    {
      SameLength(shuffled, order);
      index := order[nextIdx];
      nextIdx := nextIdx + 1;
      if nextIdx >= count {
        nextIdx := 0;
        epoch := epoch + 1;
        order := shuffled;
      }
    }

    method LeaseSample(ask: Ask) returns (index: int)
      requires Valid() && Shuffles(View(), ask)
      modifies this
      ensures Valid() && View() == Sampled(old(View()), ask)
      ensures forall other :: Shuffles(old(View()), other) ==> Shuffles(View(), other)
      ensures index == Given(old(View()), ask)
    {
      var remaining;
      if ask.group in cache {
        index, remaining := cache[ask.group].index, cache[ask.group].remaining;
      } else {
        index := Lease(ask.shuffled);
        remaining := samples;
      }
      remaining := remaining - 1;
      if remaining != 0 {
        cache := cache[ask.group := Entry(index, remaining)];
      } else {
        cache := cache - {ask.group};
      }
    }

    /** Sessions asking one after the other are given the indices of a run of the model. */
    method LeaseSamples(asks: seq<Ask>, ghost start: Book) returns (given: seq<int>, ghost end: Book)
      requires Valid() && start == Init(order, samples) && View() == start.mode
      requires forall k | 0 <= k < |asks| :: Shuffles(View(), asks[k])
      modifies this
      ensures Reaches(old(order), samples, asks, end) && View() == end.mode
      ensures Recorded(asks, given, end.calls)
    {
      given, end := [], start;
      var i := 0;
      assert Reaches(old(order), samples, asks[..0], end) && Recorded(asks[..0], [], end.calls);
      hide *;
      while i < |asks|
        invariant 0 <= i <= |asks| && Valid() && View() == end.mode
        invariant forall k | 0 <= k < |asks| :: Shuffles(View(), asks[k])
        invariant Reaches(old(order), samples, asks[..i], end)
        invariant Recorded(asks[..i], given, end.calls)
      {
        Ready(end);
        ReachesOneMore(old(order), samples, asks, i, end);
        RecordsOneMore(asks, i, given, end);
        var index := LeaseSample(asks[i]);
        given := given + [index];
        end := Step(end, asks[i]);
        i := i + 1;
      }
      assert asks[..i] == asks;
    }

    lemma HasNext()
      requires Valid()
      ensures View().nextIdx < |View().order|
    {}

    lemma Ready(b: Book)
      requires Valid() && View() == b.mode
      ensures b.mode.nextIdx < |b.mode.order| && b.mode.order == order
    {}
  }
}
