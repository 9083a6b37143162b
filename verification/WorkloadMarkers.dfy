/** Mergeable workload evidence: what the trainer writes per fragment, and what the analyzer makes
    of all the fragments of a round.  The result depends only on the collection of samples, not on
    how they were split into fragments nor on the order these were written in. */
module WorkloadMarkers {
  import opened Common

  const MODULUS: nat := 0x1_0000000000000000_0000000000000000_0000000000000000_0000000000000000

  type Residue = n: nat | n < MODULUS witness 0

  // A counter; a missing key counts nothing.
  type Counter<K> = map<K, nat>

  datatype Group = Group(index: int)

  // One sample of the workload: its digest as a number and as the set of its one bits, its group if
  // its identity is valid, and what it says of its judgement.
  datatype Item = Item(
    digest: Residue, bits: set<nat>, group: Option<Group>, rewardHashMissing: bool, terminal: bool,
    mode: string, outcome: string, branches: string)

  // What one marker line holds.
  datatype Fragment = Fragment(
    step: int, invariantHash: string, count: nat, sum: Residue, xor: set<nat>,
    invalid: nat, missingHashes: nat, terminals: nat,
    groups: seq<(Group, nat)>, outcomes: Counter<string>, modes: Counter<string>, branches: Counter<string>)

  datatype Totals = Totals(
    count: nat, sum: Residue, xor: set<nat>, invalid: nat, missingHashes: nat, terminals: nat,
    groups: Counter<Group>, outcomes: Counter<string>, modes: Counter<string>, branches: Counter<string>)

  // What a round is asked to show.
  datatype Expected = Expected(
    invariantHash: string, mode: string, outcome: string, branches: string,
    cardinality: Option<(nat, nat)>)          // groups per round and samples per group

  datatype Signature = Signature(count: nat, sum: Residue, xor: set<nat>, groups: Counter<Group>)

  // ----- sequences -----

  function Map<A, B>(f: A -> B, s: seq<A>): seq<B> { seq(|s|, i requires 0 <= i < |s| => f(s[i])) }

  lemma MapConcat<A, B>(f: A -> B, a: seq<A>, b: seq<A>)
    ensures Map(f, a + b) == Map(f, a) + Map(f, b)
  {}

  lemma SameWithout<T>(init: seq<T>, b: seq<T>, i: nat)
    requires i < |b| && multiset(init + [b[i]]) == multiset(b)
    ensures multiset(b[..i] + b[i + 1..]) == multiset(init)
  {
    assert b == b[..i] + [b[i]] + b[i + 1..];
    assert multiset(b) == multiset(b[..i] + b[i + 1..]) + multiset{b[i]};
    assert multiset(init + [b[i]]) == multiset(init) + multiset{b[i]};
    assert multiset(init) == multiset(b) - multiset{b[i]};
  }

  // Where the last of a is among a permutation of it.
  lemma Where<T>(a: seq<T>, b: seq<T>) returns (i: nat)
    requires a != [] && multiset(a) == multiset(b)
    ensures i < |b| && b[i] == a[|a| - 1]
  {
    var last := a[|a| - 1];
    assert last in multiset(a);
    assert last in multiset(b);
    i :| 0 <= i < |b| && b[i] == last;
  }

  lemma MapMoves<A, B>(f: A -> B, left: seq<A>, x: A, right: seq<A>, init: seq<A>)
    requires multiset(Map(f, init)) == multiset(Map(f, left + right))
    ensures multiset(Map(f, init + [x])) == multiset(Map(f, left + [x] + right))
  {
    MapConcat(f, init, [x]);
    MapConcat(f, left + [x], right);
    MapConcat(f, left, [x]);
    MapConcat(f, left, right);
    hide *;
  }

  lemma {:induction false} MapPermutes<A, B>(f: A -> B, a: seq<A>, b: seq<A>)
    requires multiset(a) == multiset(b)
    ensures multiset(Map(f, a)) == multiset(Map(f, b))
  {
    if a == [] {
      assert |multiset(b)| == 0;
    } else {
      hide *;
      var init, last := a[..|a| - 1], a[|a| - 1];
      assert a == init + [last];
      var i := Where(a, b);
      var left, right := b[..i], b[i + 1..];
      assert b == left + [last] + right;
      SameWithout(init, b, i);
      MapPermutes(f, init, left + right);
      MapMoves(f, left, last, right, init);
    }
  }

  // ----- sums of counters and of totals -----

  function At<K>(c: Counter<K>, k: K): nat { if k in c then c[k] else 0 }

  function Merged<K>(a: Counter<K>, b: Counter<K>): Counter<K> {
    map k | k in a.Keys + b.Keys :: At(a, k) + At(b, k)
  }

  function SymmetricDifference(a: set<nat>, b: set<nat>): set<nat> { (a - b) + (b - a) }

  const NOTHING := Totals(0, 0, {}, 0, 0, 0, map[], map[], map[], map[])

  function Plus(a: Totals, b: Totals): Totals {
    Totals(a.count + b.count, (a.sum + b.sum) % MODULUS, SymmetricDifference(a.xor, b.xor),
           a.invalid + b.invalid, a.missingHashes + b.missingHashes, a.terminals + b.terminals,
           Merged(a.groups, b.groups), Merged(a.outcomes, b.outcomes), Merged(a.modes, b.modes),
           Merged(a.branches, b.branches))
  }

  function Sum(ts: seq<Totals>): Totals {
    if ts == [] then NOTHING else Plus(Sum(ts[..|ts| - 1]), ts[|ts| - 1])
  }

  lemma MergedAt<K>(a: Counter<K>, b: Counter<K>, k: K)
    ensures At(Merged(a, b), k) == At(a, k) + At(b, k)
  {}

  lemma MergedCommutes<K>(a: Counter<K>, b: Counter<K>)
    ensures Merged(a, b) == Merged(b, a) && Merged(map[], a) == a
  {
    assert Merged(map[], a).Keys == a.Keys;
  }

  lemma MergedAssociates<K>(a: Counter<K>, b: Counter<K>, c: Counter<K>)
    ensures Merged(Merged(a, b), c) == Merged(a, Merged(b, c))
  {
    var left, right := Merged(Merged(a, b), c), Merged(a, Merged(b, c));
    assert left.Keys == a.Keys + b.Keys + c.Keys == right.Keys;
    forall k | k in left.Keys ensures left[k] == right[k] {
      assert At(Merged(a, b), k) == At(a, k) + At(b, k) && At(Merged(b, c), k) == At(b, k) + At(c, k);
    }
  }

  lemma XorLaws(a: set<nat>, b: set<nat>, c: set<nat>)
    ensures SymmetricDifference(a, b) == SymmetricDifference(b, a)
    ensures SymmetricDifference(SymmetricDifference(a, b), c) == SymmetricDifference(a, SymmetricDifference(b, c))
    ensures SymmetricDifference({}, a) == a
  {}

  lemma ModularLaws(a: Residue, b: Residue, c: Residue)
    ensures ((a + b) % MODULUS + c) % MODULUS == (a + (b + c) % MODULUS) % MODULUS
  {}

  lemma PlusCommutes(a: Totals, b: Totals)
    ensures Plus(a, b) == Plus(b, a) && Plus(NOTHING, a) == a
  {
    MergedCommutes(a.groups, b.groups);
    MergedCommutes(a.outcomes, b.outcomes);
    MergedCommutes(a.modes, b.modes);
    MergedCommutes(a.branches, b.branches);
    XorLaws(a.xor, b.xor, {});
    hide Merged, SymmetricDifference;
  }

  lemma PlusAssociates(a: Totals, b: Totals, c: Totals)
    ensures Plus(Plus(a, b), c) == Plus(a, Plus(b, c))
  {
    MergedAssociates(a.groups, b.groups, c.groups);
    MergedAssociates(a.outcomes, b.outcomes, c.outcomes);
    MergedAssociates(a.modes, b.modes, c.modes);
    MergedAssociates(a.branches, b.branches, c.branches);
    XorLaws(a.xor, b.xor, c.xor);
    ModularLaws(a.sum, b.sum, c.sum);
    hide Merged, SymmetricDifference;
  }

  lemma {:induction false} SumConcat(a: seq<Totals>, b: seq<Totals>)
    ensures Sum(a + b) == Plus(Sum(a), Sum(b))
  {
    if b == [] {
      assert a + b == a;
      PlusCommutes(Sum(a), NOTHING);
    } else {
      var init, last := b[..|b| - 1], b[|b| - 1];
      assert (a + b)[..|a + b| - 1] == a + init;
      SumConcat(a, init);
      PlusAssociates(Sum(a), Sum(init), last);
    }
    hide Plus;
  }

  lemma SumLast(ts: seq<Totals>)
    requires ts != []
    ensures Sum(ts) == Plus(Sum(ts[..|ts| - 1]), ts[|ts| - 1])
  {
    hide Plus;
  }

  lemma SumSnoc(ts: seq<Totals>, t: Totals)
    ensures Sum(ts + [t]) == Plus(Sum(ts), t)
  {
    assert (ts + [t])[..|ts + [t]| - 1] == ts;
    hide Plus;
  }

  lemma PlusRotates(x: Totals, t: Totals, y: Totals)
    ensures Plus(Plus(x, t), y) == Plus(Plus(x, y), t)
  {
    hide Plus;
    PlusAssociates(x, t, y);
    PlusCommutes(t, y);
    PlusAssociates(x, y, t);
  }

  // Taking one out of the middle and adding it again at the end.
  lemma SumPullOut(ts: seq<Totals>, i: nat)
    requires i < |ts|
    ensures Sum(ts) == Plus(Sum(ts[..i] + ts[i + 1..]), ts[i])
  {
    hide *;
    var a, b := ts[..i], ts[i + 1..];
    assert ts == (a + [ts[i]]) + b;
    SumConcat(a + [ts[i]], b);
    SumSnoc(a, ts[i]);
    SumConcat(a, b);
    PlusRotates(Sum(a), ts[i], Sum(b));
  }

  /** The order of addition does not matter. */
  lemma {:induction false} SumIgnoresOrder(a: seq<Totals>, b: seq<Totals>)
    requires multiset(a) == multiset(b)
    ensures Sum(a) == Sum(b)
  {
    if a == [] {
      assert |multiset(b)| == 0;
    } else {
      hide *;
      var init, last := a[..|a| - 1], a[|a| - 1];
      assert a == init + [last];
      var i := Where(a, b);
      SameWithout(init, b, i);
      SumIgnoresOrder(init, b[..i] + b[i + 1..]);
      SumPullOut(b, i);
      SumLast(a);
    }
  }

  // ----- the writer -----

  function Bit(b: bool): nat { if b then 1 else 0 }

  function OneItem(it: Item): Totals {
    Totals(1, it.digest, it.bits, Bit(it.group.None?), Bit(it.rewardHashMissing), Bit(it.terminal),
           if it.group.Some? then map[it.group.value := 1] else map[],
           map[it.outcome := 1], map[it.mode := 1], map[it.branches := 1])
  }

  function ItemTotals(items: seq<Item>): Totals { Sum(Map(OneItem, items)) }

  lemma ItemsOneMore(items: seq<Item>, i: nat)
    requires i < |items|
    ensures ItemTotals(items[..i + 1]) == Plus(ItemTotals(items[..i]), OneItem(items[i]))
  {
    assert items[..i + 1] == items[..i] + [items[i]];
    MapConcat(OneItem, items[..i], [items[i]]);
    assert Map(OneItem, [items[i]]) == [OneItem(items[i])];
    SumSnoc(Map(OneItem, items[..i]), OneItem(items[i]));
    hide *;
  }

  // The pairs of a group list, added up.
  function Pairs(groups: seq<(Group, nat)>): Counter<Group> {
    if groups == [] then map[]
    else Merged(Pairs(groups[..|groups| - 1]), map[groups[|groups| - 1].0 := groups[|groups| - 1].1])
  }

  function Read(f: Fragment): Totals {
    Totals(f.count, f.sum, f.xor, f.invalid, f.missingHashes, f.terminals,
           Pairs(f.groups), f.outcomes, f.modes, f.branches)
  }

  /** Writing the evidence of some samples: one fragment that reads back as their totals. */
  method WriteFragment(step: int, invariantHash: string, items: seq<Item>) returns (f: Fragment)
    ensures f.step == step && f.invariantHash == invariantHash && Read(f) == ItemTotals(items)
  {
    var t := NOTHING;
    assert Map(OneItem, items[..0]) == [];
    for i := 0 to |items|
      invariant t == ItemTotals(items[..i])
    {
      hide *;
      ItemsOneMore(items, i);
      t := AddItem(t, items[i]);
    }
    assert items[..|items|] == items;
    hide ItemTotals;
    var groups := ListGroups(t.groups);
    f := Fragment(step, invariantHash, t.count, t.sum, t.xor, t.invalid, t.missingHashes, t.terminals,
                  groups, t.outcomes, t.modes, t.branches);
  }

  method AddItem(t: Totals, it: Item) returns (t': Totals)
    ensures t' == Plus(t, OneItem(it))
  {
    hide Merged, SymmetricDifference;
    var groups, invalid := t.groups, t.invalid;
    if it.group.Some? {
      groups := Merged(groups, map[it.group.value := 1]);
    } else {
      assert Merged(groups, map[]) == groups by { MergedCommutes(groups, map[]); }
      invalid := invalid + 1;
    }
    t' := Totals(
      t.count + 1, (t.sum + it.digest) % MODULUS, SymmetricDifference(t.xor, it.bits),
      invalid, t.missingHashes + Bit(it.rewardHashMissing), t.terminals + Bit(it.terminal), groups,
      Merged(t.outcomes, map[it.outcome := 1]), Merged(t.modes, map[it.mode := 1]),
      Merged(t.branches, map[it.branches := 1]));
  }

  method ListGroups(counts: Counter<Group>) returns (groups: seq<(Group, nat)>)
    ensures Pairs(groups) == counts
  {
    groups := [];
    var rest := counts.Keys;
    while rest != {}
      invariant rest <= counts.Keys
      invariant Pairs(groups) == map g | g in counts.Keys - rest :: counts[g]
      decreases |rest|
    {
      var g :| g in rest;
      assert (groups + [(g, counts[g])])[..|groups|] == groups;
      groups := groups + [(g, counts[g])];
      rest := rest - {g};
    }
  }

  // ----- the reader -----

  function ReadAll(fs: seq<Fragment>): Totals { Sum(Map(Read, fs)) }

  // Counters compare with missing keys as zero.
  ghost predicate SameCounter<K(!new)>(a: Counter<K>, b: Counter<K>) { forall k :: At(a, k) == At(b, k) }

  predicate CountsOnly(c: Counter<string>, k: string, n: nat) {
    At(c, k) == n && forall other | other in c :: other == k || c[other] == 0
  }

  lemma CountsOnlyIsSame(c: Counter<string>, k: string, n: nat)
    ensures CountsOnly(c, k, n) <==> SameCounter(c, map[k := n])
  {
    if SameCounter(c, map[k := n]) {
      assert At(c, k) == At(map[k := n], k);
      forall other | other in c ensures other == k || c[other] == 0 {
        assert At(c, other) == At(map[k := n], other);
      }
    }
  }

  predicate CardinalityOk(e: Expected, t: Totals) {
    e.cardinality.Some? ==>
      && |t.groups| == e.cardinality.value.0
      && (forall g | g in t.groups :: t.groups[g] == e.cardinality.value.1)
      && t.count == e.cardinality.value.0 * e.cardinality.value.1
  }

  predicate Accepts(e: Expected, t: Totals) {
    && t.invalid == 0 && t.missingHashes == 0 && t.terminals == 0
    && CountsOnly(t.modes, e.mode, t.count) && CountsOnly(t.outcomes, e.outcome, t.count)
    && CountsOnly(t.branches, e.branches, t.count) && CardinalityOk(e, t)
  }

  function Round(e: Expected, fs: seq<Fragment>): Option<Signature> {
    var t := ReadAll(fs);
    if fs == [] || (exists f | f in fs :: f.invariantHash != e.invariantHash) || !Accepts(e, t) then None
    else Some(Signature(t.count, t.sum, t.xor, t.groups))
  }

  // ----- what the evidence depends on -----

  /** The order of the marker lines does not matter. */
  lemma RoundIgnoresOrder(e: Expected, fs: seq<Fragment>, fs': seq<Fragment>)
    requires multiset(fs) == multiset(fs')
    ensures Round(e, fs) == Round(e, fs')
  {
    MapPermutes(Read, fs, fs');
    SumIgnoresOrder(Map(Read, fs), Map(Read, fs'));
    assert |multiset(fs)| == |multiset(fs')|;
    assert forall f :: f in fs <==> f in multiset(fs);
    assert forall f :: f in fs' <==> f in multiset(fs');
    hide Accepts, Sum, Map;
  }

  function Flatten(parts: seq<seq<Item>>): seq<Item> {
    if parts == [] then [] else Flatten(parts[..|parts| - 1]) + parts[|parts| - 1]
  }

  ghost predicate ReadsBack(parts: seq<seq<Item>>, fs: seq<Fragment>) {
    |fs| == |parts| && forall k | 0 <= k < |fs| :: Read(fs[k]) == ItemTotals(parts[k])
  }

  lemma NothingAddsUp()
    ensures ReadAll([]) == ItemTotals(Flatten([]))
  {
    assert Map(Read, []) == [] && Map(OneItem, []) == [];
  }

  lemma OneMoreAddsUp(parts: seq<seq<Item>>, part: seq<Item>, fs: seq<Fragment>, f: Fragment)
    requires ReadAll(fs) == ItemTotals(Flatten(parts)) && Read(f) == ItemTotals(part)
    ensures ReadAll(fs + [f]) == ItemTotals(Flatten(parts + [part]))
  {
    hide *;
    FlattenSnoc(parts, part);
    ReadAllSnoc(fs, f);
    ItemTotalsConcat(Flatten(parts), part);
  }

  lemma ReadsBackInit(parts: seq<seq<Item>>, part: seq<Item>, fs: seq<Fragment>, f: Fragment)
    requires ReadsBack(parts + [part], fs + [f])
    ensures ReadsBack(parts, fs) && Read(f) == ItemTotals(part)
  {
    hide Read, ItemTotals;
    assert (fs + [f])[|fs|] == f && (parts + [part])[|fs|] == part;
    forall k | 0 <= k < |fs| ensures Read(fs[k]) == ItemTotals(parts[k]) {
      assert (fs + [f])[k] == fs[k] && (parts + [part])[k] == parts[k];
    }
  }

  lemma {:induction false} FragmentsAddUp(parts: seq<seq<Item>>, fs: seq<Fragment>)
    requires |fs| == |parts| && ReadsBack(parts, fs)
    ensures ReadAll(fs) == ItemTotals(Flatten(parts))
    decreases |fs|
  {
    hide *;
    if fs == [] {
      NothingAddsUp();
    } else {
      var ps, p, gs, g := parts[..|parts| - 1], parts[|parts| - 1], fs[..|fs| - 1], fs[|fs| - 1];
      assert parts == ps + [p] && fs == gs + [g];
      ReadsBackInit(ps, p, gs, g);
      FragmentsAddUp(ps, gs);
      OneMoreAddsUp(ps, p, gs, g);
    }
  }

  lemma FlattenSnoc(parts: seq<seq<Item>>, part: seq<Item>)
    ensures Flatten(parts + [part]) == Flatten(parts) + part
  {
    assert (parts + [part])[..|parts + [part]| - 1] == parts;
  }

  lemma ReadAllSnoc(fs: seq<Fragment>, f: Fragment)
    ensures ReadAll(fs + [f]) == Plus(ReadAll(fs), Read(f))
  {
    MapConcat(Read, fs, [f]);
    assert Map(Read, [f]) == [Read(f)];
    SumSnoc(Map(Read, fs), Read(f));
    hide Map, Sum, Plus;
  }

  lemma ItemTotalsConcat(a: seq<Item>, b: seq<Item>)
    ensures ItemTotals(a + b) == Plus(ItemTotals(a), ItemTotals(b))
  {
    MapConcat(OneItem, a, b);
    SumConcat(Map(OneItem, a), Map(OneItem, b));
    hide Map, Sum, Plus;
  }

  // Fragments written for these parts of the workload, under one benchmark hash.
  ghost predicate Written(e: Expected, parts: seq<seq<Item>>, fs: seq<Fragment>) {
    fs != [] && |fs| == |parts| && ReadsBack(parts, fs) && forall f | f in fs :: f.invariantHash == e.invariantHash
  }

  /** Neither does how the samples were split into fragments: two ways of writing the same
      collection of samples are judged alike and leave the same signature. */
  lemma {:induction false} RoundIgnoresFragmentation(e: Expected, parts: seq<seq<Item>>, fs: seq<Fragment>,
                                  parts': seq<seq<Item>>, fs': seq<Fragment>)
    requires Written(e, parts, fs) && Written(e, parts', fs')
    requires multiset(Flatten(parts)) == multiset(Flatten(parts'))
    ensures Round(e, fs) == Round(e, fs')
  {
    FragmentsAddUp(parts, fs);
    FragmentsAddUp(parts', fs');
    MapPermutes(OneItem, Flatten(parts), Flatten(parts'));
    SumIgnoresOrder(Map(OneItem, Flatten(parts)), Map(OneItem, Flatten(parts')));
    hide Accepts, Sum, Map, Read, Flatten;
  }

  // ----- when the evidence is accepted -----

  predicate Proper(e: Expected, it: Item) {
    && it.group.Some? && !it.rewardHashMissing && !it.terminal
    && it.mode == e.mode && it.outcome == e.outcome && it.branches == e.branches
  }

  function InGroup(items: seq<Item>, g: Group): nat {
    if items == [] then 0
    else InGroup(items[..|items| - 1], g) + Bit(items[|items| - 1].group == Some(g))
  }

  function WithBit(items: seq<Item>, b: nat): nat {
    if items == [] then 0 else WithBit(items[..|items| - 1], b) + Bit(b in items[|items| - 1].bits)
  }

  function DigestSum(items: seq<Item>): nat {
    if items == [] then 0 else DigestSum(items[..|items| - 1]) + items[|items| - 1].digest
  }

  function GroupsOf(items: seq<Item>): set<Group> {
    set it | it in items && it.group.Some? :: it.group.value
  }

  // What the totals of some samples say of them.
  ghost predicate TellsGroups(items: seq<Item>, t: Totals) {
    && t.count == |items|
    && forall g :: At(t.groups, g) == InGroup(items, g)
  }

  ghost predicate TellsBits(items: seq<Item>, t: Totals) {
    forall b :: b in t.xor <==> WithBit(items, b) % 2 == 1
  }

  ghost predicate TellsSum(items: seq<Item>, t: Totals) {
    t.sum == DigestSum(items) % MODULUS && t.groups.Keys == GroupsOf(items)
  }

  ghost predicate TellsClean(e: Expected, items: seq<Item>, t: Totals) {
    && t.count == |items|
    && At(t.modes, e.mode) <= |items| && At(t.outcomes, e.outcome) <= |items| && At(t.branches, e.branches) <= |items|
    && (Clean(e, t) <==> forall it | it in items :: Proper(e, it))
  }

  ghost predicate Tells(e: Expected, items: seq<Item>, t: Totals) {
    TellsGroups(items, t) && TellsBits(items, t) && TellsSum(items, t) && TellsClean(e, items, t)
  }

  predicate Clean(e: Expected, t: Totals) {
    && t.invalid == 0 && t.missingHashes == 0 && t.terminals == 0
    && CountsOnly(t.modes, e.mode, t.count) && CountsOnly(t.outcomes, e.outcome, t.count)
    && CountsOnly(t.branches, e.branches, t.count)
  }

  lemma CountsOnlyAdds(c: Counter<string>, k: string, n: nat, one: string)
    requires At(c, k) <= n
    ensures var c' := Merged(c, map[one := 1]);
            At(c', k) <= n + 1 && (CountsOnly(c', k, n + 1) <==> CountsOnly(c, k, n) && one == k)
  {
    var c' := Merged(c, map[one := 1]);
    assert forall other | other in c' :: c'[other] == At(c, other) + if other == one then 1 else 0;
    assert one in c';
    if CountsOnly(c', k, n + 1) {
      forall other | other in c ensures other == k || c[other] == 0 {
        assert other in c';
      }
    }
  }

  lemma GroupsOneMore(items: seq<Item>, t: Totals, it: Item)
    requires TellsGroups(items, t)
    ensures TellsGroups(items + [it], Plus(t, OneItem(it)))
  {
    var t', more := Plus(t, OneItem(it)), items + [it];
    assert more[..|more| - 1] == items;
    forall g ensures At(t'.groups, g) == InGroup(more, g) {
      assert InGroup(more, g) == InGroup(items, g) + Bit(it.group == Some(g));
      MergedAt(t.groups, OneItem(it).groups, g);
    }
    hide Merged, SymmetricDifference;
  }

  lemma BitsOneMore(items: seq<Item>, t: Totals, it: Item)
    requires TellsBits(items, t)
    ensures TellsBits(items + [it], Plus(t, OneItem(it)))
  {
    var more := items + [it];
    assert more[..|more| - 1] == items;
    forall b ensures b in Plus(t, OneItem(it)).xor <==> WithBit(more, b) % 2 == 1 {
      assert WithBit(more, b) == WithBit(items, b) + Bit(b in it.bits);
    }
  }

  lemma GroupsOfMore(items: seq<Item>, it: Item)
    ensures GroupsOf(items + [it]) == GroupsOf(items) + if it.group.Some? then {it.group.value} else {}
  {
    assert forall x :: x in items + [it] <==> x in items || x == it;
  }

  lemma DigestSumMore(items: seq<Item>, it: Item)
    ensures DigestSum(items + [it]) % MODULUS == (DigestSum(items) % MODULUS + it.digest) % MODULUS
  {
    assert (items + [it])[..|items + [it]| - 1] == items;
  }

  lemma SumOneMore(items: seq<Item>, t: Totals, it: Item)
    requires TellsSum(items, t)
    ensures TellsSum(items + [it], Plus(t, OneItem(it)))
  {
    GroupsOfMore(items, it);
    DigestSumMore(items, it);
    hide GroupsOf, DigestSum, SymmetricDifference, At;
    assert Plus(t, OneItem(it)).groups.Keys == t.groups.Keys + OneItem(it).groups.Keys;
  }

  lemma ProperOneMore(e: Expected, items: seq<Item>, it: Item)
    ensures (forall x | x in items + [it] :: Proper(e, x)) <==> (forall x | x in items :: Proper(e, x)) && Proper(e, it)
  {
    hide *;
    assert forall x :: x in items + [it] <==> x in items || x == it;
  }

  lemma CleanOneMore(e: Expected, items: seq<Item>, t: Totals, it: Item)
    requires TellsClean(e, items, t)
    ensures TellsClean(e, items + [it], Plus(t, OneItem(it)))
  {
    ProperOneMore(e, items, it);
    CountsOnlyAdds(t.modes, e.mode, t.count, it.mode);
    CountsOnlyAdds(t.outcomes, e.outcome, t.count, it.outcome);
    CountsOnlyAdds(t.branches, e.branches, t.count, it.branches);
    hide CountsOnly, Merged, At, SymmetricDifference;
    assert Clean(e, Plus(t, OneItem(it))) <==> Clean(e, t) && Proper(e, it);
    hide Clean, Proper;
  }

  lemma TellsOneMore(e: Expected, items: seq<Item>, it: Item)
    requires Tells(e, items, ItemTotals(items))
    ensures Tells(e, items + [it], ItemTotals(items + [it]))
  {
    var t := ItemTotals(items);
    assert ItemTotals(items + [it]) == Plus(t, OneItem(it)) by {
      ItemTotalsConcat(items, [it]);
      ItemTotalsOne(it);
    }
    GroupsOneMore(items, t, it);
    BitsOneMore(items, t, it);
    SumOneMore(items, t, it);
    CleanOneMore(e, items, t, it);
    hide ItemTotals, OneItem, Plus, TellsGroups, TellsBits, TellsSum, TellsClean;
  }

  lemma ItemTotalsOne(it: Item)
    ensures ItemTotals([it]) == OneItem(it)
  {
    assert Map(OneItem, [it]) == [] + [OneItem(it)];
    SumSnoc([], OneItem(it));
    PlusCommutes(OneItem(it), OneItem(it));
    hide Plus, OneItem;
  }

  lemma NothingTells(e: Expected)
    ensures Tells(e, [], ItemTotals([]))
  {
    assert Map(OneItem, []) == [];
  }

  lemma {:induction false} TotalsTell(e: Expected, items: seq<Item>)
    ensures Tells(e, items, ItemTotals(items))
  {
    hide *;
    if items == [] {
      NothingTells(e);
    } else {
      var init, last := items[..|items| - 1], items[|items| - 1];
      assert items == init + [last];
      TotalsTell(e, init);
      TellsOneMore(e, init, last);
    }
  }

  // As many groups as asked for, and in each as many samples as asked for.
  ghost predicate RightSize(e: Expected, items: seq<Item>) {
    e.cardinality.Some? ==>
      var (groups, samples) := e.cardinality.value;
      && |GroupsOf(items)| == groups && |items| == groups * samples
      && forall g | g in GroupsOf(items) :: InGroup(items, g) == samples
  }

  lemma CardinalityIsRightSize(e: Expected, items: seq<Item>, t: Totals)
    requires TellsGroups(items, t) && TellsSum(items, t)
    ensures CardinalityOk(e, t) <==> RightSize(e, items)
  {
    assert |t.groups| == |t.groups.Keys| == |GroupsOf(items)|;
    assert forall g | g in t.groups :: t.groups[g] == At(t.groups, g) == InGroup(items, g);
    hide InGroup, GroupsOf, DigestSum;
  }

  /** A written round is accepted if and only if every sample is proper, and, where a cardinality is
      asked for, there are that many groups of that many samples.  Its signature then counts the
      samples, and those of each group, adds the digests up modulo 2^256, and holds the bits an odd
      number of them have. */
  lemma AcceptedIff(e: Expected, parts: seq<seq<Item>>, fs: seq<Fragment>)
    requires Written(e, parts, fs)
    ensures var items, r := Flatten(parts), Round(e, fs);
            && (r.Some? <==> (forall it | it in items :: Proper(e, it)) && RightSize(e, items))
            && (r.Some? ==>
                  && r.value.count == |items| && r.value.sum == DigestSum(items) % MODULUS
                  && r.value.groups.Keys == GroupsOf(items)
                  && (forall g :: At(r.value.groups, g) == InGroup(items, g))
                  && forall b :: b in r.value.xor <==> WithBit(items, b) % 2 == 1)
  {
    var items := Flatten(parts);
    FragmentsAddUp(parts, fs);
    TotalsTell(e, items);
    CardinalityIsRightSize(e, items, ReadAll(fs));
    assert Accepts(e, ReadAll(fs)) <==> Clean(e, ReadAll(fs)) && CardinalityOk(e, ReadAll(fs));
    assert forall f | f in fs :: f.invariantHash == e.invariantHash;
    hide Accepts, CardinalityOk, Clean, Flatten, ItemTotals, ReadAll, InGroup, WithBit, Proper, RightSize, DigestSum,
      GroupsOf;
  }

  // ----- all the measured rounds -----

  function ForStep(records: seq<Fragment>, step: int): seq<Fragment> {
    if records == [] then []
    else
      ForStep(records[..|records| - 1], step)
      + if records[|records| - 1].step == step then [records[|records| - 1]] else []
  }

  // One signature per round, or nothing if any round is missing or refused.
  function Rounds(e: Expected, records: seq<Fragment>, steps: seq<int>): Option<map<int, Signature>> {
    if steps == [] then Some(map[])
    else
      var earlier := Rounds(e, records, steps[..|steps| - 1]);
      var last := Round(e, ForStep(records, steps[|steps| - 1]));
      if earlier.None? || last.None? then None else Some(earlier.value[steps[|steps| - 1] := last.value])
  }

  // One refused round refuses them all.
  lemma {:induction false} RefusalStays(e: Expected, records: seq<Fragment>, steps: seq<int>, j: nat)
    requires j <= |steps| && Rounds(e, records, steps[..j]).None?
    ensures Rounds(e, records, steps).None?
    decreases |steps|
  {
    if j < |steps| {
      assert steps[..|steps| - 1][..j] == steps[..j];
      RefusalStays(e, records, steps[..|steps| - 1], j);
    } else {
      assert steps[..j] == steps;
    }
    hide Round, ForStep;
  }

  predicate AnyTerminal(records: seq<Fragment>) { exists r | r in records :: r.terminals > 0 }

  /** A terminal failure recorded anywhere, measured or not, refuses everything. */
  function Aggregated(e: Expected, records: seq<Fragment>, steps: seq<int>): Option<map<int, Signature>> {
    if AnyTerminal(records) then None else Rounds(e, records, steps)
  }

  lemma MergedSingleton<K>(c: Counter<K>, k: K, n: nat)
    ensures Merged(c, map[k := n]) == c[k := At(c, k) + n]
  {
    assert Merged(c, map[k := n]).Keys == c[k := At(c, k) + n].Keys;
  }

  // Adding one more entry of a counter.
  lemma MergedOneMore<K>(c: Counter<K>, done: Counter<K>, k: K, n: nat)
    requires k !in done
    ensures Merged(c, done[k := n]) == Merged(c, done)[k := At(Merged(c, done), k) + n]
  {
    assert done[k := n] == Merged(done, map[k := n]) by { MergedSingleton(done, k, n); }
    MergedAssociates(c, done, map[k := n]);
    MergedSingleton(Merged(c, done), k, n);
  }

  method MergeIntCounter(target: Counter<string>, value: Counter<string>) returns (merged: Counter<string>)
    ensures merged == Merged(target, value)
  {
    merged := target;
    var rest := value.Keys;
    ghost var done: Counter<string> := map[];
    assert Merged(target, done) == target by { MergedCommutes(done, target); MergedCommutes(target, done); }
    hide Merged;
    while rest != {}
      invariant rest <= value.Keys && done.Keys == value.Keys - rest
      invariant forall k | k in done :: done[k] == value[k]
      invariant merged == Merged(target, done)
      decreases |rest|
    {
      var key :| key in rest;
      MergedOneMore(target, done, key, value[key]);
      merged := merged[key := At(merged, key) + value[key]];
      done := done[key := value[key]];
      rest := rest - {key};
    }
    assert done == value;
  }

  lemma PairsOneMore(groups: seq<(Group, nat)>, i: nat)
    requires i < |groups|
    ensures Pairs(groups[..i + 1]) == Merged(Pairs(groups[..i]), map[groups[i].0 := groups[i].1])
  {
    assert groups[..i + 1][..i] == groups[..i];
    hide Merged;
  }

  method AddGroups(counts: Counter<Group>, groups: seq<(Group, nat)>) returns (added: Counter<Group>)
    ensures added == Merged(counts, Pairs(groups))
  {
    added := counts;
    assert Merged(counts, map[]) == counts by { MergedCommutes(map[], counts); MergedCommutes(counts, map[]); }
    assert Pairs(groups[..0]) == map[];
    hide Merged, Pairs;
    for i := 0 to |groups|
      invariant added == Merged(counts, Pairs(groups[..i]))
    {
      PairsOneMore(groups, i);
      MergedAssociates(counts, Pairs(groups[..i]), map[groups[i].0 := groups[i].1]);
      MergedSingleton(added, groups[i].0, groups[i].1);
      added := added[groups[i].0 := At(added, groups[i].0) + groups[i].1];
    }
    assert groups[..|groups|] == groups;
  }

  /** The evidence of one round, fragment by fragment. */
  method AggregateRound(e: Expected, fragments: seq<Fragment>) returns (r: Option<Signature>)
    ensures r == Round(e, fragments)
  {
    var t := NOTHING;
    assert t == ReadAll(fragments[..0]) by { assert Map(Read, fragments[..0]) == []; }
    hide ReadAll, Accepts;
    for i := 0 to |fragments|
      invariant t == ReadAll(fragments[..i])
      invariant forall k | 0 <= k < i :: fragments[k].invariantHash == e.invariantHash
    {
      var f := fragments[i];
      if f.invariantHash != e.invariantHash {
        return None;
      }
      assert fragments[..i + 1] == fragments[..i] + [f];
      ReadAllSnoc(fragments[..i], f);
      hide *;
      t := AddFragment(t, f);
    }
    assert fragments[..|fragments|] == fragments;
    if fragments == [] || !Accepts(e, t) {
      return None;
    }
    return Some(Signature(t.count, t.sum, t.xor, t.groups));
  }

  method AddFragment(t: Totals, f: Fragment) returns (t': Totals)
    ensures t' == Plus(t, Read(f))
  {
    var groups := AddGroups(t.groups, f.groups);
    var outcomes := MergeIntCounter(t.outcomes, f.outcomes);
    var modes := MergeIntCounter(t.modes, f.modes);
    var branches := MergeIntCounter(t.branches, f.branches);
    hide Merged, Pairs, SymmetricDifference;
    t' := Totals(
      t.count + f.count, (t.sum + f.sum) % MODULUS, SymmetricDifference(t.xor, f.xor), t.invalid + f.invalid,
      t.missingHashes + f.missingHashes, t.terminals + f.terminals, groups, outcomes, modes, branches);
  }

  lemma ForStepOneMore(records: seq<Fragment>, i: nat, step: int)
    requires i < |records|
    ensures ForStep(records[..i + 1], step)
         == ForStep(records[..i], step) + if records[i].step == step then [records[i]] else []
  {
    assert records[..i + 1][..i] == records[..i];
  }

  // The measured fragments by round, unless a terminal failure is recorded.
  method GroupByStep(records: seq<Fragment>, measuredSteps: seq<int>)
    returns (clean: bool, fragmentsByStep: map<int, seq<Fragment>>)
    ensures clean <==> forall r | r in records :: r.terminals == 0
    ensures clean ==> forall step | step in measuredSteps ::
      step in fragmentsByStep && fragmentsByStep[step] == ForStep(records, step)
  {
    fragmentsByStep := map step | step in measuredSteps :: [];
    for i := 0 to |records|
      invariant forall r | r in records[..i] :: r.terminals == 0
      invariant forall step | step in measuredSteps ::
        step in fragmentsByStep && fragmentsByStep[step] == ForStep(records[..i], step)
      invariant forall step | step in fragmentsByStep :: step in measuredSteps
    {
      var record := records[i];
      if record.terminals > 0 {
        assert record in records;
        return false, fragmentsByStep;
      }
      forall step { ForStepOneMore(records, i, step); }
      hide ForStep;
      if record.step in measuredSteps {
        fragmentsByStep := fragmentsByStep[record.step := fragmentsByStep[record.step] + [record]];
      }
      assert records[..i + 1] == records[..i] + [record];
    }
    assert records[..|records|] == records;
    clean := true;
  }

  method AggregateWorkloadMarkers(e: Expected, records: seq<Fragment>, measuredSteps: seq<int>)
    returns (output: Option<map<int, Signature>>)
    ensures output == Aggregated(e, records, measuredSteps)
  {
    var clean, fragmentsByStep := GroupByStep(records, measuredSteps);
    if !clean {
      return None;
    }
    assert !AnyTerminal(records);
    hide Round, ForStep, AnyTerminal;
    var signatures: map<int, Signature> := map[];
    for j := 0 to |measuredSteps|
      invariant Rounds(e, records, measuredSteps[..j]) == Some(signatures)
    {
      var step := measuredSteps[j];
      assert measuredSteps[..j + 1][..j] == measuredSteps[..j];
      var signature := AggregateRound(e, fragmentsByStep[step]);
      if signature.None? {
        RefusalStays(e, records, measuredSteps, j + 1);
        return None;
      }
      signatures := signatures[step := signature.value];
    }
    assert measuredSteps[..|measuredSteps|] == measuredSteps;
    output := Some(signatures);
  }

  lemma {:induction false} ForStepConcat(a: seq<Fragment>, b: seq<Fragment>, step: int)
    ensures ForStep(a + b, step) == ForStep(a, step) + ForStep(b, step)
  {
    if b == [] {
      assert a + b == a;
    } else {
      assert (a + b)[..|a + b| - 1] == a + b[..|b| - 1];
      ForStepConcat(a, b[..|b| - 1], step);
    }
  }

  lemma ForStepMoves(left: seq<Fragment>, f: Fragment, right: seq<Fragment>, init: seq<Fragment>, step: int)
    requires multiset(ForStep(init, step)) == multiset(ForStep(left + right, step))
    ensures multiset(ForStep(init + [f], step)) == multiset(ForStep(left + [f] + right, step))
  {
    ForStepConcat(init, [f], step);
    ForStepConcat(left + [f], right, step);
    ForStepConcat(left, [f], step);
    ForStepConcat(left, right, step);
    hide *;
  }

  lemma {:induction false} ForStepPermutes(a: seq<Fragment>, b: seq<Fragment>, step: int)
    requires multiset(a) == multiset(b)
    ensures multiset(ForStep(a, step)) == multiset(ForStep(b, step))
  {
    if a == [] {
      assert |multiset(b)| == 0;
    } else {
      hide *;
      var init, last := a[..|a| - 1], a[|a| - 1];
      assert a == init + [last];
      var i := Where(a, b);
      var left, right := b[..i], b[i + 1..];
      assert b == left + [last] + right;
      SameWithout(init, b, i);
      ForStepPermutes(init, left + right, step);
      ForStepMoves(left, last, right, init, step);
    }
  }

  lemma {:induction false} RoundsIgnoreOrder(e: Expected, records: seq<Fragment>, records': seq<Fragment>,
                                             steps: seq<int>)
    requires multiset(records) == multiset(records')
    ensures Rounds(e, records, steps) == Rounds(e, records', steps)
  {
    hide Round, ForStep;
    if steps != [] {
      var last := steps[|steps| - 1];
      RoundsIgnoreOrder(e, records, records', steps[..|steps| - 1]);
      ForStepPermutes(records, records', last);
      RoundIgnoresOrder(e, ForStep(records, last), ForStep(records', last));
    }
  }

  /** The whole analysis depends on the collection of marker lines, not on their order. */
  lemma AggregationIgnoresOrder(e: Expected, records: seq<Fragment>, records': seq<Fragment>, steps: seq<int>)
    requires multiset(records) == multiset(records')
    ensures Aggregated(e, records, steps) == Aggregated(e, records', steps)
  {
    assert forall r :: r in records <==> r in multiset(records);
    assert forall r :: r in records' <==> r in multiset(records');
    RoundsIgnoreOrder(e, records, records', steps);
    hide Rounds;
  }
}
