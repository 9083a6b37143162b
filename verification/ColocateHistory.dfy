/** What the loops of the colocate protocol have really done: every generate and every training of
    a run, found in the schedule that made it. */
module ColocateHistory {
  import opened Colocate

  // The loop is at its work on round k: generating it, or training on it.
  predicate AtWork(s: World, role: Role, k: nat) {
    match role
    case Rollout => s.rPc == RGenerating && s.rStep == k
    case Critic => s.cPc == CTraining && s.cStep == k
    case Actor => s.aPc == ATraining && s.aStep == k
  }

  // Step n of the schedule is that work.
  ghost predicate WorksAt(cfg: Config, schedule: seq<Role>, role: Role, k: nat, n: nat) {
    n < |schedule| && schedule[n] == role && AtWork(Run(cfg, Init(), schedule[..n]), role, k)
  }

  // The loop stands where it can only be once its work on round k is over, or was not due.
  predicate Past(s: World, role: Role, k: nat) {
    match role
    case Rollout => s.rStep > k || (s.rStep == k && s.rPc != RStart && s.rPc != RGenerating && s.rPc != RDone)
    case Critic => s.cStep > k || (s.cStep == k && (s.cPc == CClear || s.cPc == CAdvance))
    case Actor =>
      || s.aStep > k
      || (s.aStep == k && (Publishing(s) || s.aPc == AClear || s.aPc == AAdvance))
  }

  // Actor does not train in critic-only warmup.
  predicate Due(cfg: Config, role: Role, k: nat) { role == Actor ==> k >= cfg.criticOnly }

  // No step passes a round's work but the work itself.
  lemma PassesByWorking(cfg: Config, s: World, role: Role, k: nat, moves: Role)
    requires Inv(cfg, s) && Due(cfg, role, k)
    ensures Past(Next(cfg, s, moves), role, k) <==> Past(s, role, k) || (moves == role && AtWork(s, role, k))
    ensures Past(s, role, k) ==> !AtWork(s, role, k)
  {
    hide Inv, SatisfyStaleness, Without;
    match moves {
      case Rollout => RolloutPasses(cfg, s, role, k);
      case Critic => CriticPasses(cfg, s, role, k);
      case Actor => ActorPasses(cfg, s, role, k);
    }
    hide RolloutNext, CriticNext, ActorNext;
  }

  lemma RolloutPasses(cfg: Config, s: World, role: Role, k: nat)
    ensures Past(RolloutNext(cfg, s), role, k) <==> Past(s, role, k) || (role == Rollout && AtWork(s, role, k))
  {
    hide SatisfyStaleness;
  }

  lemma CriticPasses(cfg: Config, s: World, role: Role, k: nat)
    ensures Past(CriticNext(cfg, s), role, k) <==> Past(s, role, k) || (role == Critic && AtWork(s, role, k))
  {
    hide Without;
  }

  lemma ActorPasses(cfg: Config, s: World, role: Role, k: nat)
    requires Due(cfg, role, k)
    ensures Past(ActorNext(cfg, s), role, k) <==> Past(s, role, k) || (role == Actor && AtWork(s, role, k))
  {
    hide Without;
  }

  lemma WorkIsDue(cfg: Config, s: World, role: Role, k: nat)
    requires Inv(cfg, s) && AtWork(s, role, k)
    ensures Due(cfg, role, k) && k < cfg.numRollout && s.version == k
    ensures role == Actor ==> Past(s, Critic, k)
    ensures role == Critic ==> Past(s, Rollout, k)
    ensures role == Rollout && k > 0 ==> Past(s, Critic, k - 1) && Past(s, Actor, k - 1)
  {
    hide LogAt;
  }

  // Some step of the schedule is the loop's work on round k.
  ghost predicate Worked(cfg: Config, schedule: seq<Role>, role: Role, k: nat) {
    exists n :: WorksAt(cfg, schedule, role, k, n)
  }

  lemma WorkedPush(cfg: Config, init: seq<Role>, moves: Role, role: Role, k: nat)
    ensures Worked(cfg, init + [moves], role, k) <==>
      Worked(cfg, init, role, k) || (moves == role && AtWork(Run(cfg, Init(), init), role, k))
  {
    var schedule := init + [moves];
    assert schedule[..|init|] == init;
    hide AtWork, Run;
    forall n: nat | n < |init| ensures WorksAt(cfg, schedule, role, k, n) <==> WorksAt(cfg, init, role, k, n) {
      assert schedule[..n] == init[..n];
    }
    assert WorksAt(cfg, schedule, role, k, |init|) <==> moves == role && AtWork(Run(cfg, Init(), init), role, k);
    if n: nat :| WorksAt(cfg, schedule, role, k, n) && n != |init| {
      assert WorksAt(cfg, init, role, k, n);
    }
    if n :| WorksAt(cfg, init, role, k, n) {
      assert WorksAt(cfg, schedule, role, k, n);
    }
  }

  /** In every interleaving: a loop stands past round k if and only if the schedule holds its generate
      or its training of that round. */
  lemma {:induction false} PastIffWorked(cfg: Config, schedule: seq<Role>, role: Role, k: nat)
    requires Due(cfg, role, k)
    ensures Past(Run(cfg, Init(), schedule), role, k) <==> Worked(cfg, schedule, role, k)
  {
    hide Next, Inv, AtWork, Past, Due;
    if schedule == [] {
      NothingPast(role, k);
    } else {
      var init, moves := schedule[..|schedule| - 1], schedule[|schedule| - 1];
      assert schedule == init + [moves];
      PastIffWorked(cfg, init, role, k);
      ReachableInv(cfg, init);
      PassesByWorking(cfg, Run(cfg, Init(), init), role, k, moves);
      hide Worked;
      WorkedPush(cfg, init, moves, role, k);
    }
  }

  lemma NothingPast(role: Role, k: nat)
    ensures !Past(Init(), role, k)
  {}

  // ----- what the log and the weights say -----

  lemma ReturnedOnlyIn(cfg: Config, s: World, moves: Role, role: Role, k: nat)
    requires Inv(cfg, s) && Returned(role, k) in Next(cfg, s, moves).log && Returned(role, k) !in s.log
    ensures role != Rollout && Due(cfg, role, k) && Past(Next(cfg, s, moves), role, k)
  {
    hide Inv;
  }

  lemma {:induction false} ReturnedIsPast(cfg: Config, schedule: seq<Role>, role: Role, k: nat)
    requires Returned(role, k) in Run(cfg, Init(), schedule).log
    ensures role != Rollout && Due(cfg, role, k) && Past(Run(cfg, Init(), schedule), role, k)
  {
    hide Next, Inv, Past, Due;
    if schedule != [] {
      var init, moves := schedule[..|schedule| - 1], schedule[|schedule| - 1];
      var s := Run(cfg, Init(), init);
      ReachableInv(cfg, init);
      if Returned(role, k) in s.log {
        ReturnedIsPast(cfg, init, role, k);
        PassesByWorking(cfg, s, role, k, moves);
      } else {
        ReturnedOnlyIn(cfg, s, moves, role, k);
      }
    }
  }

  /** A training that the log reports as returned is in the schedule, at a moment when the SGLang
      weights carried exactly the rounds before it: so before the broadcast of its own. */
  lemma ReturnedMeansTrained(cfg: Config, schedule: seq<Role>, role: Role, k: nat) returns (n: nat)
    requires Returned(role, k) in Run(cfg, Init(), schedule).log
    ensures role != Rollout && WorksAt(cfg, schedule, role, k, n)
    ensures Run(cfg, Init(), schedule[..n]).version == k
  {
    ReturnedIsPast(cfg, schedule, role, k);
    PastIffWorked(cfg, schedule, role, k);
    hide Past, Inv, AtWork;
    n :| WorksAt(cfg, schedule, role, k, n);
    ReachableInv(cfg, schedule[..n]);
    WorkIsDue(cfg, Run(cfg, Init(), schedule[..n]), role, k);
  }

  lemma VersionIsPast(cfg: Config, s: World, k: nat)
    requires Inv(cfg, s) && s.version > k
    ensures Past(s, Actor, k) && Past(s, Critic, k)
  {
    hide LogAt;
  }

  /** SGLang carries the updates of round k only if critic trained on it, and, outside critic-only
      warmup, actor did. */
  lemma PublishedMeansTrained(cfg: Config, schedule: seq<Role>, k: nat)
    requires Run(cfg, Init(), schedule).version > k
    ensures Worked(cfg, schedule, Critic, k) && (k >= cfg.criticOnly ==> Worked(cfg, schedule, Actor, k))
  {
    ReachableInv(cfg, schedule);
    VersionIsPast(cfg, Run(cfg, Init(), schedule), k);
    PastIffWorked(cfg, schedule, Critic, k);
    if k >= cfg.criticOnly {
      PastIffWorked(cfg, schedule, Actor, k);
    }
    hide Worked, Inv, Past;
  }

  // ----- once each, and in order -----

  lemma {:induction false} StaysPast(cfg: Config, schedule: seq<Role>, role: Role, k: nat, n: nat)
    requires Due(cfg, role, k) && n <= |schedule| && Past(Run(cfg, Init(), schedule[..n]), role, k)
    ensures Past(Run(cfg, Init(), schedule), role, k)
  {
    hide Next, Inv, Past, Due;
    if n == |schedule| {
      assert schedule[..n] == schedule;
    } else {
      var init := schedule[..|schedule| - 1];
      assert init[..n] == schedule[..n];
      StaysPast(cfg, init, role, k, n);
      ReachableInv(cfg, init);
      PassesByWorking(cfg, Run(cfg, Init(), init), role, k, schedule[|schedule| - 1]);
    }
  }

  lemma PastAfterwards(cfg: Config, schedule: seq<Role>, role: Role, k: nat, n: nat)
    requires WorksAt(cfg, schedule, role, k, n)
    ensures Past(Run(cfg, Init(), schedule[..n + 1]), role, k) && Due(cfg, role, k)
  {
    hide Next, Inv, Past, AtWork, Due;
    ReachableInv(cfg, schedule[..n]);
    WorkIsDue(cfg, Run(cfg, Init(), schedule[..n]), role, k);
    PassesByWorking(cfg, Run(cfg, Init(), schedule[..n]), role, k, role);
    assert schedule[..n + 1][..n] == schedule[..n];
  }

  /** No round is generated or trained on twice. */
  lemma WorkedOnce(cfg: Config, schedule: seq<Role>, role: Role, k: nat, n: nat, m: nat)
    requires WorksAt(cfg, schedule, role, k, n) && WorksAt(cfg, schedule, role, k, m)
    ensures n == m
  {
    if n != m {
      var first, second := if n < m then n else m, if n < m then m else n;
      PastAfterwards(cfg, schedule, role, k, first);
      ReachableInv(cfg, schedule[..second]);
      assert schedule[..second][..first + 1] == schedule[..first + 1];
      hide Past, AtWork, Inv, Run, Due;
      StaysPast(cfg, schedule[..second], role, k, first + 1);
      PassesByWorking(cfg, Run(cfg, Init(), schedule[..second]), role, k, role);
    }
  }

  // The work on a round that must come first.
  ghost predicate AfterItsInputs(cfg: Config, before: seq<Role>, role: Role, k: nat) {
    match role
    case Actor => Worked(cfg, before, Critic, k)
    case Critic => Worked(cfg, before, Rollout, k)
    case Rollout =>
      k > 0 ==> Worked(cfg, before, Critic, k - 1) && (k - 1 >= cfg.criticOnly ==> Worked(cfg, before, Actor, k - 1))
  }

  /** Every work comes after what it needs: actor trains on a round after critic has, critic after it
      was generated, and a round is generated after both have trained on the one before; and actor
      trains outside critic-only warmup only. */
  lemma WorkInOrder(cfg: Config, schedule: seq<Role>, role: Role, k: nat, n: nat)
    requires WorksAt(cfg, schedule, role, k, n)
    ensures Due(cfg, role, k) && k < cfg.numRollout && AfterItsInputs(cfg, schedule[..n], role, k)
  {
    InputsWorked(cfg, schedule[..n], role, k);
    hide AtWork, AfterItsInputs, Due, Run;
  }

  lemma InputsWorked(cfg: Config, before: seq<Role>, role: Role, k: nat)
    requires AtWork(Run(cfg, Init(), before), role, k)
    ensures Due(cfg, role, k) && k < cfg.numRollout && AfterItsInputs(cfg, before, role, k)
  {
    ReachableInv(cfg, before);
    WorkIsDue(cfg, Run(cfg, Init(), before), role, k);
    hide Worked, WorksAt, Inv, Past, AtWork, Run;
    match role
    case Actor => PastIffWorked(cfg, before, Critic, k);
    case Critic => PastIffWorked(cfg, before, Rollout, k);
    case Rollout =>
      if k > 0 {
        PastIffWorked(cfg, before, Critic, k - 1);
        if k - 1 >= cfg.criticOnly {
          PastIffWorked(cfg, before, Actor, k - 1);
        }
      }
  }

  /** Once all loops are done every round was generated and trained on by critic, and every round
      outside critic-only warmup by actor. */
  lemma DoneMeansAllWorked(cfg: Config, schedule: seq<Role>, role: Role, k: nat)
    requires AllDone(Run(cfg, Init(), schedule)) && k < cfg.numRollout && Due(cfg, role, k)
    ensures Worked(cfg, schedule, role, k)
  {
    ReachableInv(cfg, schedule);
    DoneIsPast(cfg, Run(cfg, Init(), schedule), role, k);
    PastIffWorked(cfg, schedule, role, k);
    hide Worked, Inv, Past;
  }

  lemma DoneIsPast(cfg: Config, s: World, role: Role, k: nat)
    requires Inv(cfg, s) && AllDone(s) && k < cfg.numRollout
    ensures Past(s, role, k)
  {
    hide LogAt;
  }

  // ----- the staleness gate -----

  // Step n of the schedule reads the partition list for round k and finds none too old.
  ghost predicate GatePassedAt(cfg: Config, schedule: seq<Role>, k: nat, n: nat) {
    && n < |schedule| && schedule[n] == Rollout
    && var s := Run(cfg, Init(), schedule[..n]);
       s.rPc == RReadPartitions && s.rStep == k && forall p | p in s.partitions :: k + 1 - p <= cfg.maxStaleness
  }

  ghost predicate GatePassed(cfg: Config, schedule: seq<Role>, k: nat) {
    exists n :: GatePassedAt(cfg, schedule, k, n)
  }

  // Rollout has looked at the partitions of round k and gone on to its peers.
  predicate BeyondGate(s: World, k: nat) {
    s.rStep > k || (s.rStep == k && (s.rPc == RReadActor || s.rPc.RReadCritic? || s.rPc == RAdvance))
  }

  lemma BeyondOnlyThrough(cfg: Config, s: World, k: nat, moves: Role)
    requires Inv(cfg, s) && k + 1 < cfg.numRollout && BeyondGate(Next(cfg, s, moves), k) && !BeyondGate(s, k)
    ensures moves == Rollout && s.rPc == RReadPartitions && s.rStep == k
    ensures forall p | p in s.partitions :: k + 1 - p <= cfg.maxStaleness
  {
    hide Inv;
  }

  /** No round after the first is begun before a read of the partition list at the end of the one
      before it found every partition fresh enough. */
  lemma {:induction false} StalenessGateHolds(cfg: Config, schedule: seq<Role>, k: nat)
    requires k + 1 < cfg.numRollout && BeyondGate(Run(cfg, Init(), schedule), k)
    ensures GatePassed(cfg, schedule, k)
  {
    hide Inv, Next;
    if schedule != [] {
      var n := |schedule| - 1;
      var init := schedule[..n];
      ReachableInv(cfg, init);
      if BeyondGate(Run(cfg, Init(), init), k) {
        StalenessGateHolds(cfg, init, k);
        hide Run, BeyondGate;
        var m: nat :| GatePassedAt(cfg, init, k, m);
        assert init[..m] == schedule[..m];
        assert GatePassedAt(cfg, schedule, k, m);
      } else {
        BeyondOnlyThrough(cfg, Run(cfg, Init(), init), k, schedule[n]);
        assert GatePassedAt(cfg, schedule, k, n);
      }
    }
  }
}
