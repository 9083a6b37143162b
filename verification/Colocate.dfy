/** Three loops sharing the same GPUs in PPO colocate mode with rollout offload: rollout
    (SGLang), critic and actor.  Nothing but polling orders them: each reads the partition
    list, the SGLang status or one peer's step at a time, and any interleaving may happen in
    between.  A step of this machine is one such read, or one action between two reads. */
module Colocate {
  datatype Config = Config(numRollout: nat, criticOnly: nat, maxStaleness: nat)

  datatype Role = Rollout | Critic | Actor

  datatype Status = Onload | Offload

  datatype RolloutPc =
    | RStart | RGenerating | RGenerated | ROffload
    | RReadPartitions | RReadActor | RReadCritic(pending: bool) | RAdvance | RDone

  datatype CriticPc = CStart | CReadPartitions | CReadStatus | CTraining | CClear | CAdvance | CDone

  datatype ActorPc =
    | AStart | AReadPartitions | AReadStatus | AWaitCritic | ATraining
    | AOnloadWeights | ABroadcast | AOnloadKv | AClear | AAdvance | ADone

  // What happened to a round's data: a training returned, or the partition was cleared.
  datatype Event = Returned(role: Role, round: nat) | Cleared(role: Role, round: nat)

  datatype World = World(
    rStep: nat, rPc: RolloutPc,
    cStep: nat, cPc: CriticPc,
    aStep: nat, aPc: ActorPc,
    partitions: seq<nat>,   // the train_N partitions listed by the data system
    status: Status,         // what get_status() reports
    weights: bool,          // SGLang weight memory mapped
    kv: bool,               // SGLang KV pool mapped
    version: nat,           // how many rounds of updates the SGLang weights carry
    log: seq<Event>)

  // The controller pushes the initial weights before any loop starts.
  function Init(): World {
    World(0, RStart, 0, CStart, 0, AStart, [], Onload, true, true, 0, [])
  }

  function Without(partitions: seq<nat>, id: nat): seq<nat> {
    if partitions == [] then []
    else if partitions[0] == id then partitions[1..]
    else [partitions[0]] + Without(partitions[1..], id)
  }

  function Minimum(ids: seq<nat>): (m: nat)
    requires ids != []
    ensures m in ids && forall p | p in ids :: m <= p
  {
    if |ids| == 1 then ids[0]
    else
      var m := Minimum(ids[1..]);
      assert ids == [ids[0]] + ids[1..];
      if ids[0] <= m then ids[0] else m
  }

  /** The gate compares only the oldest partition, which decides for all of them. */
  predicate SatisfyStaleness(partitions: seq<nat>, current: nat, maxStaleness: nat): (ok: bool)
    ensures ok <==> forall p | p in partitions :: current + 1 - p <= maxStaleness
  {
    partitions == [] || current + 1 - Minimum(partitions) <= maxStaleness
  }

  function RolloutNext(cfg: Config, s: World): World {
    match s.rPc
    case RStart => s.(rPc := if s.rStep < cfg.numRollout then RGenerating else RDone)
    // The data system lists the partition as soon as it is put, while generate still runs.
    case RGenerating => s.(partitions := s.partitions + [s.rStep], rPc := RGenerated)
    case RGenerated => s.(rPc := ROffload)
    case ROffload => s.(status := Offload, weights := false, kv := false, rPc := RReadPartitions)
    case RReadPartitions =>
      if s.rStep + 1 >= cfg.numRollout then s.(rPc := RAdvance)
      else if SatisfyStaleness(s.partitions, s.rStep, cfg.maxStaleness) then s.(rPc := RReadActor)
      else s
    case RReadActor => s.(rPc := RReadCritic(s.aStep <= s.rStep))
    case RReadCritic(pending) => s.(rPc := if pending || s.cStep <= s.rStep then RReadPartitions else RAdvance)
    case RAdvance => s.(rStep := s.rStep + 1, rPc := RStart)
    case RDone => s
  }

  function CriticNext(cfg: Config, s: World): World {
    match s.cPc
    case CStart => s.(cPc := if s.cStep < cfg.numRollout then CReadPartitions else CDone)
    case CReadPartitions => if s.cStep in s.partitions then s.(cPc := CReadStatus) else s
    case CReadStatus => if s.status == Onload then s else s.(cPc := CTraining)
    case CTraining =>
      s.(log := s.log + [Returned(Critic, s.cStep)], cPc := if s.cStep < cfg.criticOnly then CClear else CAdvance)
    case CClear =>
      s.(partitions := Without(s.partitions, s.cStep), log := s.log + [Cleared(Critic, s.cStep)], cPc := CAdvance)
    case CAdvance => s.(cStep := s.cStep + 1, cPc := CStart)
    case CDone => s
  }

  function ActorNext(cfg: Config, s: World): World {
    match s.aPc
    case AStart => s.(aPc := if s.aStep < cfg.numRollout then AReadPartitions else ADone)
    case AReadPartitions => s.(aPc := if s.aStep in s.partitions then AReadStatus else AStart)
    case AReadStatus => if s.status == Onload then s else s.(aPc := AWaitCritic)
    case AWaitCritic =>
      if s.cStep <= s.aStep then s
      else s.(aPc := if s.aStep < cfg.criticOnly then AOnloadWeights else ATraining)
    case ATraining => s.(aPc := AOnloadWeights)
    case AOnloadWeights => s.(weights := true, aPc := ABroadcast)
    case ABroadcast => s.(version := s.aStep + 1, aPc := AOnloadKv)
    case AOnloadKv =>
      if s.aStep < cfg.criticOnly then s.(kv := true, status := Onload, aPc := AAdvance)
      else s.(kv := true, status := Onload, log := s.log + [Returned(Actor, s.aStep)], aPc := AClear)
    case AClear =>
      s.(partitions := Without(s.partitions, s.aStep), log := s.log + [Cleared(Actor, s.aStep)], aPc := AAdvance)
    case AAdvance => s.(aStep := s.aStep + 1, aPc := AStart)
    case ADone => s
  }

  function Next(cfg: Config, s: World, role: Role): World {
    match role
    case Rollout => RolloutNext(cfg, s)
    case Critic => CriticNext(cfg, s)
    case Actor => ActorNext(cfg, s)
  }

  // Any interleaving: the loop that moves at each step is arbitrary.
  function Run(cfg: Config, s: World, schedule: seq<Role>): World {
    if schedule == [] then s
    else Next(cfg, Run(cfg, s, schedule[..|schedule| - 1]), schedule[|schedule| - 1])
  }

  // ----- what every round leaves in the log -----

  function RoundLog(cfg: Config, k: nat): seq<Event> {
    if k < cfg.criticOnly then [Returned(Critic, k), Cleared(Critic, k)]
    else [Returned(Critic, k), Returned(Actor, k), Cleared(Actor, k)]
  }

  function RoundsLog(cfg: Config, n: nat): seq<Event> {
    if n == 0 then [] else RoundsLog(cfg, n - 1) + RoundLog(cfg, n - 1)
  }

  // The log once n rounds are over and the first m marks of the next one are made.
  function LogAt(cfg: Config, n: nat, m: nat): seq<Event>
    requires m <= |RoundLog(cfg, n)|
  {
    RoundsLog(cfg, n) + RoundLog(cfg, n)[..m]
  }

  lemma LogGrows(cfg: Config, k: nat)
    ensures LogAt(cfg, k, 1) == LogAt(cfg, k, 0) + [Returned(Critic, k)]
    ensures k < cfg.criticOnly ==> LogAt(cfg, k, 2) == LogAt(cfg, k, 1) + [Cleared(Critic, k)]
    ensures k < cfg.criticOnly ==> LogAt(cfg, k, 2) == LogAt(cfg, k + 1, 0)
    ensures k >= cfg.criticOnly ==> LogAt(cfg, k, 2) == LogAt(cfg, k, 1) + [Returned(Actor, k)]
    ensures k >= cfg.criticOnly ==> LogAt(cfg, k, 3) == LogAt(cfg, k, 2) + [Cleared(Actor, k)]
    ensures k >= cfg.criticOnly ==> LogAt(cfg, k, 3) == LogAt(cfg, k + 1, 0)
  {}

  // ----- the inductive invariant -----

  ghost predicate SglangOn(s: World, version: int) {
    s.status == Onload && s.weights && s.kv && s.version == version
  }

  ghost predicate SglangOff(s: World, version: int) {
    s.status == Offload && !s.weights && !s.kv && s.version == version
  }

  ghost predicate CriticIdle(cfg: Config, s: World) {
    || s.cPc == CStart
    || (s.cPc == CReadPartitions && s.cStep < cfg.numRollout)
    || (s.cPc == CDone && s.cStep == cfg.numRollout)
  }

  ghost predicate ActorIdle(cfg: Config, s: World) {
    || s.aPc == AStart
    || (s.aPc == AReadPartitions && s.aStep < cfg.numRollout)
    || (s.aPc == ADone && s.aStep == cfg.numRollout)
  }

  ghost predicate Opening(cfg: Config, s: World) {
    s.rStep < cfg.numRollout && (s.rPc == RStart || s.rPc == RGenerating || s.rPc == RGenerated || s.rPc == ROffload)
  }

  // Rollout owns the GPUs: everyone else is waiting for this round's partition.
  ghost predicate OpeningInv(cfg: Config, s: World) {
    var put := s.rPc == RGenerated || s.rPc == ROffload;
    && s.aStep == s.rStep == s.cStep
    && SglangOn(s, s.rStep)
    && s.partitions == (if put then [s.rStep] else [])
    && (CriticIdle(cfg, s) || (put && s.cPc == CReadStatus))
    && (ActorIdle(cfg, s) || (put && s.aPc == AReadStatus))
    && s.log == LogAt(cfg, s.rStep, 0)
  }

  // The round being trained once rollout has offloaded (-1 if there is no round at all).
  ghost function Round(cfg: Config, s: World): int {
    if s.rStep == cfg.numRollout then cfg.numRollout - 1 else s.rStep
  }

  ghost predicate CriticTurn(cfg: Config, s: World, k: nat) {
    && s.cStep == k == s.aStep && k < cfg.numRollout
    && s.cPc != CDone
    && (s.cPc == CClear ==> k < cfg.criticOnly)
    && SglangOff(s, k)
    && (ActorIdle(cfg, s) || s.aPc == AReadStatus || s.aPc == AWaitCritic)
    && s.partitions == (if s.cPc == CAdvance && k < cfg.criticOnly then [] else [k])
    && s.log == LogAt(cfg, k, CriticMarks(cfg, s, k))
  }

  ghost function CriticMarks(cfg: Config, s: World, k: nat): nat {
    if s.cPc == CAdvance && k < cfg.criticOnly then 2 else if s.cPc == CClear || s.cPc == CAdvance then 1 else 0
  }

  ghost predicate ActorTurn(cfg: Config, s: World, k: nat) {
    && s.cStep == k + 1 && s.aStep == k && k < cfg.numRollout
    && CriticIdle(cfg, s)
    && s.aPc != ADone
    && (s.aPc == ATraining || s.aPc == AClear ==> k >= cfg.criticOnly)
    && ActorSglang(s, k)
    && s.partitions == (if k < cfg.criticOnly || s.aPc == AAdvance then [] else [k])
    && s.log == LogAt(cfg, k, ActorMarks(cfg, s, k))
  }

  ghost predicate ActorSglang(s: World, k: nat) {
    match s.aPc
    case ABroadcast => s.status == Offload && s.weights && !s.kv && s.version == k
    case AOnloadKv => s.status == Offload && s.weights && !s.kv && s.version == k + 1
    case AClear => SglangOn(s, k + 1)
    case AAdvance => SglangOn(s, k + 1)
    case _ => SglangOff(s, k)
  }

  ghost function ActorMarks(cfg: Config, s: World, k: nat): nat {
    if k < cfg.criticOnly then 2 else if s.aPc == AAdvance then 3 else if s.aPc == AClear then 2 else 1
  }

  ghost predicate RoundOver(cfg: Config, s: World, k: int) {
    && s.cStep == k + 1 == s.aStep && k < cfg.numRollout
    && CriticIdle(cfg, s) && ActorIdle(cfg, s)
    && SglangOn(s, k + 1)
    && s.partitions == []
    && s.log == LogAt(cfg, s.aStep, 0)
  }

  ghost predicate TrainingInv(cfg: Config, s: World) {
    var k := Round(cfg, s);
    && (s.rStep == cfg.numRollout ==> s.rPc == RStart || s.rPc == RDone)
    && (s.rStep < cfg.numRollout ==> s.rPc != RDone)
    && (s.rPc == RReadActor || s.rPc.RReadCritic? ==> s.rStep + 1 < cfg.numRollout)
    && (s.rPc == RReadCritic(false) ==> s.aStep == k + 1)
    && (s.rPc == RAdvance && k + 1 < cfg.numRollout ==> s.aStep == k + 1)
    && ((k >= 0 && CriticTurn(cfg, s, k)) || (k >= 0 && ActorTurn(cfg, s, k)) || RoundOver(cfg, s, k))
  }

  ghost predicate Inv(cfg: Config, s: World) {
    && s.rStep <= cfg.numRollout
    && if Opening(cfg, s) then OpeningInv(cfg, s) else TrainingInv(cfg, s)
  }

  lemma InitInv(cfg: Config)
    ensures Inv(cfg, Init())
  {}

  // Only rollout's own position and step change.
  lemma {:induction false} RolloutKeepsInv(cfg: Config, s: World)
    requires Inv(cfg, s)
    ensures Inv(cfg, RolloutNext(cfg, s))
  {
    hide LogAt;
    if !Opening(cfg, s) {
      RolloutWaits(cfg, s);
    } else if s.rPc == ROffload {
      assert CriticTurn(cfg, RolloutNext(cfg, s), s.rStep);
    }
  }

  lemma RolloutWaits(cfg: Config, s: World)
    requires Inv(cfg, s) && !Opening(cfg, s)
    ensures Inv(cfg, RolloutNext(cfg, s))
  {
    var s', k := RolloutNext(cfg, s), Round(cfg, s);
    if s.rPc == RAdvance && s'.rStep < cfg.numRollout {
      assert RoundOver(cfg, s, k);
    } else {
      SameTurn(cfg, s, s', k);
      hide CriticTurn, ActorTurn, RoundOver;
      assert Round(cfg, s') == k;
    }
  }

  // Whose turn it is does not depend on rollout's position.
  lemma SameTurn(cfg: Config, s: World, s': World, k: int)
    requires s' == s.(rStep := s'.rStep, rPc := s'.rPc)
    ensures k >= 0 ==> (CriticTurn(cfg, s, k) <==> CriticTurn(cfg, s', k))
    ensures k >= 0 ==> (ActorTurn(cfg, s, k) <==> ActorTurn(cfg, s', k))
    ensures RoundOver(cfg, s, k) <==> RoundOver(cfg, s', k)
  {}

  lemma CriticInOwnTurn(cfg: Config, s: World, k: nat)
    requires CriticTurn(cfg, s, k)
    ensures var s' := CriticNext(cfg, s); CriticTurn(cfg, s', k) || ActorTurn(cfg, s', k)
  {
    LogGrows(cfg, k);
    hide LogAt;
  }

  lemma CriticElsewhere(cfg: Config, s: World, k: int)
    requires (k >= 0 && ActorTurn(cfg, s, k)) || RoundOver(cfg, s, k)
    ensures var s' := CriticNext(cfg, s);
            (k >= 0 && ActorTurn(cfg, s, k) && ActorTurn(cfg, s', k)) || (RoundOver(cfg, s, k) && RoundOver(cfg, s', k))
  {
    var s' := CriticNext(cfg, s);
    if RoundOver(cfg, s, k) {
      assert RoundOver(cfg, s', k);
    } else {
      assert ActorTurn(cfg, s', k);
    }
  }

  lemma CriticKeepsInv(cfg: Config, s: World)
    requires Inv(cfg, s)
    ensures Inv(cfg, CriticNext(cfg, s))
  {
    hide LogAt;
    if !Opening(cfg, s) {
      hide ActorTurn, CriticTurn, RoundOver;
      var k := Round(cfg, s);
      if k >= 0 && CriticTurn(cfg, s, k) {
        CriticInOwnTurn(cfg, s, k);
      } else {
        CriticElsewhere(cfg, s, k);
      }
      TrainingCarriesOver(cfg, s, CriticNext(cfg, s));
    }
  }

  // What the training phase asks besides whose turn it is.
  lemma TrainingCarriesOver(cfg: Config, s: World, s': World)
    requires Inv(cfg, s) && !Opening(cfg, s)
    requires s'.rStep == s.rStep && s'.rPc == s.rPc
    requires var k := Round(cfg, s);
             (k >= 0 && CriticTurn(cfg, s', k)) || (k >= 0 && ActorTurn(cfg, s', k)) || RoundOver(cfg, s', k)
    requires s.aStep == Round(cfg, s) + 1 ==> s'.aStep == Round(cfg, s) + 1
    ensures Inv(cfg, s')
  {
    hide ActorTurn, CriticTurn, RoundOver;
  }

  lemma ActorInOwnTurn(cfg: Config, s: World, k: nat)
    requires ActorTurn(cfg, s, k)
    ensures var s' := ActorNext(cfg, s); ActorTurn(cfg, s', k) || RoundOver(cfg, s', k)
  {
    LogGrows(cfg, k);
    hide LogAt;
  }

  lemma ActorElsewhere(cfg: Config, s: World, k: int)
    requires (k >= 0 && CriticTurn(cfg, s, k)) || RoundOver(cfg, s, k)
    ensures var s' := ActorNext(cfg, s);
            && s'.aStep == s.aStep
            && ((k >= 0 && CriticTurn(cfg, s, k) && CriticTurn(cfg, s', k))
                || (RoundOver(cfg, s, k) && RoundOver(cfg, s', k)))
  {
    var s' := ActorNext(cfg, s);
    if RoundOver(cfg, s, k) {
      assert RoundOver(cfg, s', k);
    } else {
      assert CriticTurn(cfg, s', k);
    }
  }

  lemma ActorKeepsInv(cfg: Config, s: World)
    requires Inv(cfg, s)
    ensures Inv(cfg, ActorNext(cfg, s))
  {
    hide LogAt;
    if !Opening(cfg, s) {
      var k := Round(cfg, s);
      if k >= 0 && ActorTurn(cfg, s, k) {
        ActorInOwnTurn(cfg, s, k);
      } else {
        ActorElsewhere(cfg, s, k);
      }
      TrainingCarriesOver(cfg, s, ActorNext(cfg, s));
    }
  }

  lemma NextKeepsInv(cfg: Config, s: World, role: Role)
    requires Inv(cfg, s)
    ensures Inv(cfg, Next(cfg, s, role))
  {
    match role
    case Rollout => RolloutKeepsInv(cfg, s);
    case Critic => CriticKeepsInv(cfg, s);
    case Actor => ActorKeepsInv(cfg, s);
  }

  lemma {:induction false} ReachableInv(cfg: Config, schedule: seq<Role>)
    ensures Inv(cfg, Run(cfg, Init(), schedule))
  {
    if schedule == [] {
      InitInv(cfg);
    } else {
      ReachableInv(cfg, schedule[..|schedule| - 1]);
      NextKeepsInv(cfg, Run(cfg, Init(), schedule[..|schedule| - 1]), schedule[|schedule| - 1]);
    }
  }

  // Some interleaving leads there.
  ghost predicate Reachable(cfg: Config, s: World) { exists schedule :: s == Run(cfg, Init(), schedule) }

  // ----- who holds the GPUs -----

  predicate Generating(s: World) { s.rPc == RGenerating || s.rPc == RGenerated }

  predicate CriticAwake(s: World) { s.cPc == CTraining }

  predicate ActorAwake(s: World) { s.aPc == ATraining }

  predicate Publishing(s: World) { s.aPc == AOnloadWeights || s.aPc == ABroadcast || s.aPc == AOnloadKv }

  predicate SglangAbsent(s: World) { s.status == Offload && !s.weights && !s.kv }

  /** In every interleaving: while critic trains, SGLang holds nothing and actor sleeps; while
      actor trains, SGLang holds nothing and critic has finished that round; weights are pushed
      only while both sleep; and every instant of every generate finds SGLang fully onloaded
      with exactly the updates of the rounds before it. */
  lemma {:induction false} GpuMutualExclusion(cfg: Config, s: World)
    requires Reachable(cfg, s)
    ensures && (CriticAwake(s) ==> SglangAbsent(s) && !ActorAwake(s) && !Publishing(s) && !Generating(s))
            && (ActorAwake(s) ==> SglangAbsent(s) && s.cStep == s.aStep + 1 && !CriticAwake(s) && !Generating(s))
            && (Publishing(s) ==> s.cStep == s.aStep + 1 && !CriticAwake(s) && !Generating(s))
            && (Generating(s) ==> SglangOn(s, s.rStep) && !CriticAwake(s) && !ActorAwake(s) && !Publishing(s))
  {
    var schedule :| s == Run(cfg, Init(), schedule);
    ReachableInv(cfg, schedule);
  }

  // ----- who clears a partition, and when -----

  lemma {:induction false} RoundsLogPrefix(cfg: Config, n: nat, total: nat)
    requires n <= total
    ensures RoundsLog(cfg, n) <= RoundsLog(cfg, total)
    decreases total - n
  {
    if n < total {
      RoundsLogPrefix(cfg, n + 1, total);
    }
  }

  lemma LogOfWorld(cfg: Config, s: World) returns (m: nat)
    requires Inv(cfg, s)
    ensures s.aStep <= cfg.numRollout && (s.aStep == cfg.numRollout ==> m == 0)
    ensures m <= |RoundLog(cfg, s.aStep)| && s.log == LogAt(cfg, s.aStep, m)
  {
    hide LogAt;
    var k := Round(cfg, s);
    if !Opening(cfg, s) && k >= 0 && CriticTurn(cfg, s, k) {
      m := CriticMarks(cfg, s, k);
    } else if !Opening(cfg, s) && k >= 0 && ActorTurn(cfg, s, k) {
      m := ActorMarks(cfg, s, k);
    } else {
      m := 0;
    }
  }

  lemma LogIsCanonicalPrefix(cfg: Config, schedule: seq<Role>)
    ensures Run(cfg, Init(), schedule).log <= RoundsLog(cfg, cfg.numRollout)
  {
    ReachableInv(cfg, schedule);
    var s := Run(cfg, Init(), schedule);
    hide Run, Inv;
    var m := LogOfWorld(cfg, s);
    if s.aStep < cfg.numRollout {
      RoundsLogPrefix(cfg, s.aStep + 1, cfg.numRollout);
      assert RoundLog(cfg, s.aStep)[..m] <= RoundLog(cfg, s.aStep);
    } else {
      assert s.log == RoundsLog(cfg, s.aStep);
    }
  }

  function Owner(cfg: Config, k: nat): Role { if k < cfg.criticOnly then Critic else Actor }

  lemma {:induction false} CanonicalClears(cfg: Config, n: nat, i: nat)
    requires i < |RoundsLog(cfg, n)| && RoundsLog(cfg, n)[i].Cleared?
    ensures var log := RoundsLog(cfg, n);
            var k := log[i].round;
            && k < n && log[i].role == Owner(cfg, k)
            && Returned(Critic, k) in log[..i]
            && (k >= cfg.criticOnly ==> Returned(Actor, k) in log[..i])
            && forall j | 0 <= j < |log| && log[j].Cleared? && log[j].round == k :: j == i
  {
    if n > 0 {
      var before, now := RoundsLog(cfg, n - 1), RoundLog(cfg, n - 1);
      var log := RoundsLog(cfg, n);
      forall j | 0 <= j < |before| && before[j].Cleared? ensures before[j].round < n - 1 {
        CanonicalClears(cfg, n - 1, j);
      }
      if i < |before| {
        CanonicalClears(cfg, n - 1, i);
        assert log[..i] == before[..i];
      } else {
        assert log[..i] == before + now[..i - |before|];
        assert now[0] in now[..i - |before|];
        if n - 1 >= cfg.criticOnly {
          assert now[1] in now[..i - |before|];
        }
      }
    }
  }

  /** Every round's partition is cleared at most once, by critic during critic-only warmup and by
      actor afterwards, and only after critic's training on it (and, outside warmup, actor's)
      has returned. */
  lemma OneCleanupOwner(cfg: Config, schedule: seq<Role>, i: nat)
    requires var log := Run(cfg, Init(), schedule).log; i < |log| && log[i].Cleared?
    ensures var log := Run(cfg, Init(), schedule).log;
            var k := log[i].round;
            && log[i].role == Owner(cfg, k)
            && Returned(Critic, k) in log[..i]
            && (k >= cfg.criticOnly ==> Returned(Actor, k) in log[..i])
            && forall j | 0 <= j < |log| && log[j].Cleared? && log[j].round == k :: j == i
  {
    var log, all := Run(cfg, Init(), schedule).log, RoundsLog(cfg, cfg.numRollout);
    LogIsCanonicalPrefix(cfg, schedule);
    assert forall j | 0 <= j < |log| :: log[j] == all[j];
    CanonicalClears(cfg, cfg.numRollout, i);
    assert log[..i] == all[..i];
  }

  // ----- progress -----

  predicate AllDone(s: World) { s.rPc == RDone && s.cPc == CDone && s.aPc == ADone }

  function RolloutRank(pc: RolloutPc): nat {
    match pc
    case RStart => 6 case RGenerating => 5 case RGenerated => 4 case ROffload => 3
    case RReadPartitions => 2 case RReadActor => 2 case RReadCritic(_) => 2 case RAdvance => 1 case RDone => 0
  }

  function CriticRank(pc: CriticPc): nat {
    match pc
    case CStart => 6 case CReadPartitions => 5 case CReadStatus => 4 case CTraining => 3
    case CClear => 2 case CAdvance => 1 case CDone => 0
  }

  function ActorRank(pc: ActorPc): nat {
    match pc
    case AStart => 9 case AReadPartitions => 9 case AReadStatus => 8 case AWaitCritic => 7 case ATraining => 6
    case AOnloadWeights => 5 case ABroadcast => 4 case AOnloadKv => 3 case AClear => 2 case AAdvance => 1
    case ADone => 0
  }

  function RolloutLeft(rounds: int, pc: RolloutPc): int { rounds * 7 + RolloutRank(pc) }

  function CriticLeft(rounds: int, pc: CriticPc): int { rounds * 7 + CriticRank(pc) }

  function ActorLeft(rounds: int, pc: ActorPc): int { rounds * 10 + ActorRank(pc) }

  // Rounds and phases still ahead of the three loops.
  function Remaining(cfg: Config, s: World): int {
    RolloutLeft(cfg.numRollout - s.rStep, s.rPc)
    + CriticLeft(cfg.numRollout - s.cStep, s.cPc)
    + ActorLeft(cfg.numRollout - s.aStep, s.aPc)
  }

  // The loop whose turn it is, and how many of its own steps away its next advance is.
  ghost function Ready(cfg: Config, s: World): Role {
    if Opening(cfg, s) then Rollout
    else if s.cStep <= Round(cfg, s) then Critic
    else if s.aStep <= Round(cfg, s) then Actor
    else if s.rPc != RDone then Rollout
    else if s.cPc != CDone then Critic
    else Actor
  }

  ghost function Distance(cfg: Config, s: World): nat {
    match Ready(cfg, s)
    case Rollout =>
      if s.rPc == RReadCritic(true) then 4
      else if s.rPc == RReadPartitions && s.rStep + 1 < cfg.numRollout then 3
      else if s.rPc == RReadActor then 2
      else 1
    case Critic => 1
    case Actor => if s.aPc == AStart && s.aStep < cfg.numRollout then 2 else 1
  }

  // A rollout step advances rollout, or moves within the polls of the wait loop.
  lemma RolloutRemaining(cfg: Config, s: World)
    ensures var s' := RolloutNext(cfg, s);
            && s' == s.(rStep := s'.rStep, rPc := s'.rPc, partitions := s'.partitions, status := s'.status,
                        weights := s'.weights, kv := s'.kv)
            && (RolloutLeft(cfg.numRollout - s'.rStep, s'.rPc) < RolloutLeft(cfg.numRollout - s.rStep, s.rPc)
                || (s' == s.(rPc := s'.rPc) && RolloutRank(s'.rPc) == RolloutRank(s.rPc)))
  {
    hide SatisfyStaleness;
  }

  // A critic step advances critic, or changes nothing.
  lemma CriticRemaining(cfg: Config, s: World)
    ensures var s' := CriticNext(cfg, s);
            && s' == s.(cStep := s'.cStep, cPc := s'.cPc, partitions := s'.partitions, log := s'.log)
            && (CriticLeft(cfg.numRollout - s'.cStep, s'.cPc) < CriticLeft(cfg.numRollout - s.cStep, s.cPc) || s' == s)
  {
    hide Without;
  }

  // An actor step advances actor, or moves between its first two positions, or changes nothing.
  lemma ActorRemaining(cfg: Config, s: World)
    ensures var s' := ActorNext(cfg, s);
            && s' == s.(aStep := s'.aStep, aPc := s'.aPc, partitions := s'.partitions, status := s'.status,
                        weights := s'.weights, kv := s'.kv, version := s'.version, log := s'.log)
            && (ActorLeft(cfg.numRollout - s'.aStep, s'.aPc) < ActorLeft(cfg.numRollout - s.aStep, s.aPc)
                || (s' == s.(aPc := s'.aPc) && ActorRank(s'.aPc) == ActorRank(s.aPc)))
  {
    hide Without;
  }

  lemma StepsWithin(cfg: Config, s: World)
    requires Inv(cfg, s)
    ensures s.rStep <= cfg.numRollout && s.cStep <= cfg.numRollout && s.aStep <= cfg.numRollout
  {
    hide LogAt, RoundLog;
  }

  /** No step ever undoes progress. */
  lemma {:induction false} RemainingNeverGrows(cfg: Config, s: World, role: Role)
    requires Inv(cfg, s)
    ensures 0 <= Remaining(cfg, Next(cfg, s, role)) <= Remaining(cfg, s)
  {
    NextKeepsInv(cfg, s, role);
    StepsWithin(cfg, Next(cfg, s, role));
    hide Inv, RolloutNext, CriticNext, ActorNext;
    match role
    case Rollout => RolloutRemaining(cfg, s);
    case Critic => CriticRemaining(cfg, s);
    case Actor => ActorRemaining(cfg, s);
  }

  lemma {:induction false} RemainingRun(cfg: Config, s: World, schedule: seq<Role>)
    requires Inv(cfg, s)
    ensures Inv(cfg, Run(cfg, s, schedule))
    ensures 0 <= Remaining(cfg, Run(cfg, s, schedule)) <= Remaining(cfg, s)
  {
    if schedule == [] {
      RemainingNeverGrows(cfg, s, Rollout);
    } else {
      hide Inv, Remaining;
      var last := Run(cfg, s, schedule[..|schedule| - 1]);
      RemainingRun(cfg, s, schedule[..|schedule| - 1]);
      RemainingNeverGrows(cfg, last, schedule[|schedule| - 1]);
      NextKeepsInv(cfg, last, schedule[|schedule| - 1]);
    }
  }

  // A step advances, or it is a poll; a poll of another loop leaves the ready loop as near as
  // it was, and a poll of the ready loop brings it nearer.
  ghost predicate AdvancesOrNears(cfg: Config, s: World, s': World, role: Role) {
    || Remaining(cfg, s') < Remaining(cfg, s)
    || (&& Ready(cfg, s') == Ready(cfg, s) && !AllDone(s')
        && Distance(cfg, s) == Distance(cfg, s') + (if role == Ready(cfg, s) then 1 else 0)
        && Distance(cfg, s') >= 1)
  }

  // What the ready loop finds when it looks.
  lemma ReadyFinds(cfg: Config, s: World)
    requires Inv(cfg, s) && cfg.criticOnly == 0 && !AllDone(s)
    ensures Ready(cfg, s) == Critic ==>
        && s.cPc != CDone
        && (s.cPc == CReadPartitions ==> s.cStep in s.partitions)
        && (s.cPc == CReadStatus ==> s.status == Offload)
    ensures Ready(cfg, s) == Actor ==>
        && s.aPc != ADone
        && (s.aPc == AReadPartitions ==> s.aStep in s.partitions)
        && (s.aPc == AReadStatus ==> s.status == Offload)
        && (s.aPc == AWaitCritic ==> s.cStep > s.aStep)
    ensures Ready(cfg, s) == Rollout ==>
        && s.rPc != RDone
        && (s.rPc == RReadPartitions ==> s.partitions == [])
        && (s.rPc == RReadActor || s.rPc.RReadCritic? ==>
              s.aStep > s.rStep && s.cStep > s.rStep && s.rStep + 1 < cfg.numRollout)
  {
    hide LogAt, RoundLog;
  }

  lemma RolloutStep(cfg: Config, s: World)
    requires Inv(cfg, s) && cfg.criticOnly == 0 && !AllDone(s)
    ensures AdvancesOrNears(cfg, s, RolloutNext(cfg, s), Rollout)
  {
    RolloutRemaining(cfg, s);
    ReadyFinds(cfg, s);
    hide Inv;
  }

  lemma CriticStep(cfg: Config, s: World)
    requires Inv(cfg, s) && cfg.criticOnly == 0 && !AllDone(s)
    ensures AdvancesOrNears(cfg, s, CriticNext(cfg, s), Critic)
  {
    CriticRemaining(cfg, s);
    ReadyFinds(cfg, s);
    hide Inv;
  }

  lemma ActorStep(cfg: Config, s: World)
    requires Inv(cfg, s) && cfg.criticOnly == 0 && !AllDone(s)
    ensures AdvancesOrNears(cfg, s, ActorNext(cfg, s), Actor)
  {
    ActorRemaining(cfg, s);
    ReadyFinds(cfg, s);
    hide Inv;
  }

  function Count(schedule: seq<Role>, role: Role): nat {
    if schedule == [] then 0
    else Count(schedule[..|schedule| - 1], role) + if schedule[|schedule| - 1] == role then 1 else 0
  }

  lemma {:induction false} RunAdvancesOrNears(cfg: Config, s: World, schedule: seq<Role>)
    requires Inv(cfg, s) && cfg.criticOnly == 0 && !AllDone(s)
    ensures var s' := Run(cfg, s, schedule);
            || Remaining(cfg, s') < Remaining(cfg, s)
            || (&& Ready(cfg, s') == Ready(cfg, s) && !AllDone(s')
                && Distance(cfg, s) == Distance(cfg, s') + Count(schedule, Ready(cfg, s))
                && Distance(cfg, s') >= 1)
  {
    hide Inv, Remaining, Ready;
    if schedule == [] {
    } else {
      var init, role := schedule[..|schedule| - 1], schedule[|schedule| - 1];
      var mid := Run(cfg, s, init);
      RunAdvancesOrNears(cfg, s, init);
      RemainingRun(cfg, s, init);
      RemainingNeverGrows(cfg, mid, role);
      hide Distance;
      if !(Remaining(cfg, mid) < Remaining(cfg, s)) {
        match role {
          case Rollout => RolloutStep(cfg, mid);
          case Critic => CriticStep(cfg, mid);
          case Actor => ActorStep(cfg, mid);
        }
      }
    }
  }

  // A stretch of schedule in which no loop is starved: each moves at least four times.
  predicate Fair(schedule: seq<Role>) { forall role: Role :: Count(schedule, role) >= 4 }

  /** Without critic-only warmup, any fair stretch, however interleaved, makes progress. */
  lemma {:induction false} FairStretchAdvances(cfg: Config, s: World, schedule: seq<Role>)
    requires Inv(cfg, s) && cfg.criticOnly == 0 && !AllDone(s) && Fair(schedule)
    ensures Remaining(cfg, Run(cfg, s, schedule)) < Remaining(cfg, s)
  {
    RunAdvancesOrNears(cfg, s, schedule);
    hide Inv, Remaining, Run, Ready;
  }

  lemma {:induction false} RunConcat(cfg: Config, s: World, a: seq<Role>, b: seq<Role>)
    ensures Run(cfg, s, a + b) == Run(cfg, Run(cfg, s, a), b)
  {
    hide Next;
    if b == [] {
      assert a + b == a;
    } else {
      RunConcat(cfg, s, a, b[..|b| - 1]);
      assert (a + b)[..|a + b| - 1] == a + b[..|b| - 1];
    }
  }

  function Joined(stretches: seq<seq<Role>>): seq<Role> {
    if stretches == [] then [] else Joined(stretches[..|stretches| - 1]) + stretches[|stretches| - 1]
  }

  lemma DoneStays(cfg: Config, s: World, schedule: seq<Role>)
    requires AllDone(s)
    ensures Run(cfg, s, schedule) == s
  {
    if schedule != [] {
      DoneStays(cfg, s, schedule[..|schedule| - 1]);
    }
  }

  lemma NothingLeft(cfg: Config, s: World)
    requires Inv(cfg, s)
    ensures Remaining(cfg, s) >= 0
    ensures Remaining(cfg, s) == 0 ==> AllDone(s)
  {
    StepsWithin(cfg, s);
    hide Inv;
  }

  lemma {:induction false} FairRunCompletes(cfg: Config, s: World, stretches: seq<seq<Role>>)
    requires Inv(cfg, s) && cfg.criticOnly == 0
    requires forall x | x in stretches :: Fair(x)
    ensures var s' := Run(cfg, s, Joined(stretches));
            Inv(cfg, s') && (AllDone(s') || Remaining(cfg, s') <= Remaining(cfg, s) - |stretches|)
  {
    hide Inv, Remaining, AllDone;
    RemainingRun(cfg, s, Joined(stretches));
    if stretches != [] {
      var init, last := stretches[..|stretches| - 1], stretches[|stretches| - 1];
      assert stretches == init + [last];
      assert last in stretches;
      FairRunCompletes(cfg, s, init);
      var mid := Run(cfg, s, Joined(init));
      RunConcat(cfg, s, Joined(init), last);
      if AllDone(mid) {
        DoneStays(cfg, mid, last);
      } else {
        FairStretchAdvances(cfg, mid, last);
      }
    }
  }

  /** Without critic-only warmup, every schedule made of 24 N + 21 fair stretches brings all
      three loops to num_rollout = N, whatever max_staleness is. */
  lemma FairSchedulesFinish(cfg: Config, stretches: seq<seq<Role>>)
    requires cfg.criticOnly == 0
    requires forall x | x in stretches :: Fair(x)
    requires |stretches| >= 24 * cfg.numRollout + 21
    ensures AllDone(Run(cfg, Init(), Joined(stretches)))
  {
    InitInv(cfg);
    FairRunCompletes(cfg, Init(), stretches);
    var s' := Run(cfg, Init(), Joined(stretches));
    assert Remaining(cfg, Init()) == 24 * cfg.numRollout + 21;
    hide Run, Inv, Remaining;
    NothingLeft(cfg, s');
  }

  // ----- exactly when the loops cannot get stuck -----

  ghost predicate CanFinish(cfg: Config, s: World) {
    exists rest :: AllDone(Run(cfg, s, rest))
  }

  ghost predicate NeverStuck(cfg: Config) {
    forall schedule :: CanFinish(cfg, Run(cfg, Init(), schedule))
  }

  lemma {:induction false} CountConcat(a: seq<Role>, b: seq<Role>, role: Role)
    ensures Count(a + b, role) == Count(a, role) + Count(b, role)
  {
    if b == [] {
      assert a + b == a;
    } else {
      CountConcat(a, b[..|b| - 1], role);
      assert (a + b)[..|a + b| - 1] == a + b[..|b| - 1];
    }
  }

  lemma CountOnce(role: Role)
    ensures Count([Rollout, Critic, Actor], role) == 1
  {
    CountConcat([Rollout], [Critic], role);
    CountConcat([Rollout, Critic], [Actor], role);
    assert [Rollout] + [Critic] == [Rollout, Critic] && [Rollout, Critic] + [Actor] == [Rollout, Critic, Actor];
    forall x: Role ensures Count([x], role) == if x == role then 1 else 0 {
      assert [x][..0] == [];
    }
  }

  function RoundRobin(): seq<Role> {
    var once := [Rollout, Critic, Actor];
    (once + once) + (once + once)
  }

  lemma RoundRobinIsFair()
    ensures Fair(RoundRobin())
  {
    var once := [Rollout, Critic, Actor];
    forall role: Role ensures Count(RoundRobin(), role) >= 4 {
      CountOnce(role);
      CountConcat(once, once, role);
      CountConcat(once + once, once + once, role);
    }
  }

  lemma NoWarmupCanFinish(cfg: Config, s: World)
    requires Inv(cfg, s) && cfg.criticOnly == 0
    ensures CanFinish(cfg, s)
  {
    RoundRobinIsFair();
    NothingLeft(cfg, s);
    var n: nat := Remaining(cfg, s);
    var stretches := seq(n, _ => RoundRobin());
    FairRunCompletes(cfg, s, stretches);
    hide Inv, Remaining, Run;
    NothingLeft(cfg, Run(cfg, s, Joined(stretches)));
    assert AllDone(Run(cfg, s, Joined(stretches)));
  }

  lemma NoRoundsCanFinish(cfg: Config, s: World)
    requires Inv(cfg, s) && cfg.numRollout == 0
    ensures CanFinish(cfg, s)
  {
    var s1 := Next(cfg, s, Rollout);
    var s2 := Next(cfg, s1, Critic);
    var s3 := Next(cfg, s2, Actor);
    assert AllDone(s3);
    var rest := [Rollout, Critic, Actor];
    assert rest[..2] == [Rollout, Critic] && rest[..2][..1] == [Rollout] && rest[..2][..1][..0] == [];
    assert Run(cfg, s, rest[..2][..1]) == s1;
    assert Run(cfg, s, rest[..2]) == s2;
    assert Run(cfg, s, rest) == s3;
  }

  // Critic cleared round 0 before actor ever saw it listed, and nothing lists it again.
  ghost predicate ActorMissedIt(cfg: Config, s: World) {
    && s.aStep == 0 && (s.aPc == AStart || s.aPc == AReadPartitions) && cfg.numRollout >= 1
    && s.partitions == []
    && (s.cPc == CAdvance || s.cPc == CStart || s.cPc == CReadPartitions || s.cPc == CDone)
    && (|| (s.rStep == 0 && (s.rPc == RReadPartitions || s.rPc == RReadActor || s.rPc == RReadCritic(true)))
        || (cfg.numRollout == 1 && s.rStep == 0 && s.rPc == RAdvance)
        || (cfg.numRollout == 1 && s.rStep == 1 && (s.rPc == RStart || s.rPc == RDone)))
  }

  lemma {:induction false} MissedForever(cfg: Config, s: World, schedule: seq<Role>)
    requires ActorMissedIt(cfg, s)
    ensures ActorMissedIt(cfg, Run(cfg, s, schedule))
  {
    if schedule != [] {
      MissedForever(cfg, s, schedule[..|schedule| - 1]);
      hide ActorMissedIt, Next;
      MissedStep(cfg, Run(cfg, s, schedule[..|schedule| - 1]), schedule[|schedule| - 1]);
    }
  }

  lemma MissedStep(cfg: Config, s: World, role: Role)
    requires ActorMissedIt(cfg, s)
    ensures ActorMissedIt(cfg, Next(cfg, s, role))
  {
    match role
    case Rollout =>
    case Critic =>
    case Actor =>
  }

  // Round 0 is generated and offloaded.
  function Offloaded(): World {
    Init().(rPc := RReadPartitions, partitions := [0], status := Offload, weights := false, kv := false)
  }

  // Critic has trained on round 0 and is about to clear it.
  function CriticReturned(): World { Offloaded().(cPc := CClear, log := [Returned(Critic, 0)]) }

  function Unlucky(): seq<Role> {
    [Rollout, Rollout, Rollout, Rollout] + [Critic, Critic, Critic, Critic] + [Critic]
  }

  lemma FourSteps(cfg: Config, s: World, role: Role)
    ensures Run(cfg, s, [role, role, role, role])
         == Next(cfg, Next(cfg, Next(cfg, Next(cfg, s, role), role), role), role)
  {
    hide Next;
    OneStep(cfg, s, role);
    RunConcat(cfg, s, [role], [role]);
    OneStep(cfg, Next(cfg, s, role), role);
    var s2 := Next(cfg, Next(cfg, s, role), role);
    assert [role] + [role] == [role, role];
    RunConcat(cfg, s, [role, role], [role]);
    OneStep(cfg, s2, role);
    assert [role, role] + [role] == [role, role, role];
    RunConcat(cfg, s, [role, role, role], [role]);
    OneStep(cfg, Next(cfg, s2, role), role);
    assert [role, role, role] + [role] == [role, role, role, role];
  }

  lemma OneStep(cfg: Config, s: World, role: Role)
    ensures Run(cfg, s, [role]) == Next(cfg, s, role)
  {
    assert [role][..0] == [];
    assert Run(cfg, s, []) == s;
  }

  lemma GeneratesAndOffloads(cfg: Config)
    requires cfg.numRollout >= 1
    ensures Next(cfg, Next(cfg, Next(cfg, Next(cfg, Init(), Rollout), Rollout), Rollout), Rollout) == Offloaded()
  {
    assert [] + [0] == [0];
  }

  lemma CriticTrains(cfg: Config)
    requires cfg.numRollout >= 1 && cfg.criticOnly >= 1
    ensures Next(cfg, Next(cfg, Next(cfg, Next(cfg, Offloaded(), Critic), Critic), Critic), Critic) == CriticReturned()
  {}

  lemma WarmupCanMiss(cfg: Config)
    requires cfg.numRollout >= 1 && cfg.criticOnly >= 1
    ensures ActorMissedIt(cfg, Run(cfg, Init(), Unlucky()))
  {
    GeneratesAndOffloads(cfg);
    CriticTrains(cfg);
    FourSteps(cfg, Init(), Rollout);
    FourSteps(cfg, Offloaded(), Critic);
    OneStep(cfg, CriticReturned(), Critic);
    assert ActorMissedIt(cfg, Next(cfg, CriticReturned(), Critic));
    hide Next, Run, ActorMissedIt, Init, Offloaded, CriticReturned;
    var generate, train := [Rollout, Rollout, Rollout, Rollout], [Critic, Critic, Critic, Critic];
    RunConcat(cfg, Init(), generate, train);
    RunConcat(cfg, Init(), generate + train, [Critic]);
  }

  /** From every reachable state the three loops can still finish, for every max_staleness,
      exactly when there is no critic-only warmup (or nothing to do at all). */
  lemma NeverStuckIffNoWarmup(cfg: Config)
    ensures NeverStuck(cfg) <==> cfg.numRollout == 0 || cfg.criticOnly == 0
  {
    if cfg.numRollout == 0 || cfg.criticOnly == 0 {
      forall schedule ensures CanFinish(cfg, Run(cfg, Init(), schedule)) {
        ReachableInv(cfg, schedule);
        if cfg.criticOnly == 0 {
          NoWarmupCanFinish(cfg, Run(cfg, Init(), schedule));
        } else {
          NoRoundsCanFinish(cfg, Run(cfg, Init(), schedule));
        }
      }
    } else {
      WarmupCanMiss(cfg);
      var s := Run(cfg, Init(), Unlucky());
      forall rest ensures !AllDone(Run(cfg, s, rest)) {
        MissedForever(cfg, s, rest);
      }
      assert !CanFinish(cfg, s);
    }
  }
}
