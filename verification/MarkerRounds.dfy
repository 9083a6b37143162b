/** Which marker lines decide which round, and when the whole of them is refused. */
module MarkerRounds {
  import opened Common
  import opened WorkloadMarkers

  /** A round's fragments are the marker lines of that step: each as often as it was written, and no
      other. */
  lemma {:induction false} RoundHasItsFragments(records: seq<Fragment>, step: int, f: Fragment)
    ensures multiset(ForStep(records, step))[f] == if f.step == step then multiset(records)[f] else 0
  {
    if records != [] {
      var init, last := records[..|records| - 1], records[|records| - 1];
      assert records == init + [last];
      RoundHasItsFragments(init, step, f);
    }
  }

  lemma RoundElements(records: seq<Fragment>, step: int)
    ensures forall f :: f in ForStep(records, step) <==> f in records && f.step == step
  {
    forall f ensures f in ForStep(records, step) <==> f in records && f.step == step {
      RoundHasItsFragments(records, step, f);
      assert f in ForStep(records, step) <==> multiset(ForStep(records, step))[f] > 0;
      assert f in records <==> multiset(records)[f] > 0;
    }
  }

  lemma RoundNeedsItsHash(e: Expected, fs: seq<Fragment>)
    requires Round(e, fs).Some?
    ensures fs != [] && forall f | f in fs :: f.invariantHash == e.invariantHash
  {
    hide Accepts;
  }

  /** All rounds are accepted together or refused together; each signature is that of its own step's
      marker lines. */
  lemma {:induction false} RoundsAreTheirSteps(e: Expected, records: seq<Fragment>, steps: seq<int>)
    ensures Rounds(e, records, steps).Some? <==> forall step | step in steps :: Round(e, ForStep(records, step)).Some?
    ensures Rounds(e, records, steps).Some? ==>
      var signatures := Rounds(e, records, steps).value;
      && (forall step :: step in signatures <==> step in steps)
      && forall step | step in steps :: Round(e, ForStep(records, step)) == Some(signatures[step])
  {
    hide Round, ForStep;
    if steps != [] {
      var init, last := steps[..|steps| - 1], steps[|steps| - 1];
      assert steps == init + [last];
      assert forall step :: step in steps <==> step in init || step == last;
      RoundsAreTheirSteps(e, records, init);
    }
  }

  /** The analysis is refused as soon as a terminal failure is recorded anywhere, or a measured round has
      no marker line, or one written under another benchmark hash. */
  lemma RefusedFor(e: Expected, records: seq<Fragment>, steps: seq<int>, step: int)
    requires
      || (exists f | f in records :: f.terminals > 0)
      || (step in steps && forall f | f in records :: f.step != step)
      || (step in steps && exists f | f in records :: f.step == step && f.invariantHash != e.invariantHash)
    ensures Aggregated(e, records, steps).None?
  {
    RoundsAreTheirSteps(e, records, steps);
    RoundElements(records, step);
    if Round(e, ForStep(records, step)).Some? {
      RoundNeedsItsHash(e, ForStep(records, step));
      assert ForStep(records, step)[0] in ForStep(records, step);
    }
    hide Round, ForStep, Rounds;
  }

  // The marker lines of every measured round were written for these parts of its workload.
  ghost predicate AllWritten(e: Expected, records: seq<Fragment>, steps: seq<int>, parts: map<int, seq<seq<Item>>>) {
    forall step | step in steps :: step in parts && Written(e, parts[step], ForStep(records, step))
  }

  ghost predicate ProperRound(e: Expected, items: seq<Item>) {
    (forall it | it in items :: Proper(e, it)) && RightSize(e, items)
  }

  // What a signature says of the samples of its round.
  ghost predicate Signs(signature: Signature, items: seq<Item>) {
    && signature.count == |items| && signature.sum == DigestSum(items) % MODULUS
    && signature.groups.Keys == GroupsOf(items)
    && (forall g :: At(signature.groups, g) == InGroup(items, g))
    && forall b :: b in signature.xor <==> WithBit(items, b) % 2 == 1
  }

  /** From the samples to the evidence: with the marker lines of every measured round written for its
      samples, the analysis succeeds if and only if no line records a terminal failure and the samples of
      every round are proper and of the size asked for; and it signs each round for its own samples. */
  lemma EvidenceOfTheSamples(e: Expected, records: seq<Fragment>, steps: seq<int>, parts: map<int, seq<seq<Item>>>)
    requires AllWritten(e, records, steps, parts)
    ensures var r := Aggregated(e, records, steps);
            && (r.Some? <==>
                  && (forall f | f in records :: f.terminals == 0)
                  && forall step | step in steps :: ProperRound(e, Flatten(parts[step])))
            && (r.Some? ==>
                  && (forall step :: step in r.value <==> step in steps)
                  && forall step | step in steps :: Signs(r.value[step], Flatten(parts[step])))
  {
    RoundsAreTheirSteps(e, records, steps);
    forall step | step in steps
      ensures Round(e, ForStep(records, step)).Some? <==> ProperRound(e, Flatten(parts[step]))
      ensures Round(e, ForStep(records, step)).Some? ==>
        Signs(Round(e, ForStep(records, step)).value, Flatten(parts[step]))
    {
      OneRound(e, parts[step], ForStep(records, step));
    }
    hide Round, ForStep, Rounds, Flatten, ProperRound, Signs;
  }

  lemma OneRound(e: Expected, parts: seq<seq<Item>>, fs: seq<Fragment>)
    requires Written(e, parts, fs)
    ensures Round(e, fs).Some? <==> ProperRound(e, Flatten(parts))
    ensures Round(e, fs).Some? ==> Signs(Round(e, fs).value, Flatten(parts))
  {
    hide Written, Round, Flatten, At, MODULUS, Proper, RightSize, DigestSum, GroupsOf, InGroup, WithBit;
    AcceptedIff(e, parts, fs);
  }
}
