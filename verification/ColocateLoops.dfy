/** The objects behind the colocate protocol, updated in place: the data system's partition
    list, the rollout manager, the peer barrier, and the three loops, one atomic step per call.
    Each step is proved to be the corresponding transition of the Colocate machine. */
module ColocateLoops {
  import opened Colocate

  class DataSystem {
    var partitions: seq<nat>
    ghost var log: seq<Event>

    constructor ()
      ensures partitions == [] && log == []
    {
      partitions, log := [], [];
    }

    method Put(id: nat)
      modifies this
      ensures partitions == old(partitions) + [id] && log == old(log)
    {
      partitions := partitions + [id];
    }

    method ClearPartition(id: nat, ghost owner: Role)
      modifies this
      ensures partitions == Without(old(partitions), id) && log == old(log) + [Cleared(owner, id)]
    {
      var i := 0;
      while i < |partitions| && partitions[i] != id
        invariant 0 <= i <= |partitions| && partitions == old(partitions)
        invariant Without(partitions, id) == partitions[..i] + Without(partitions[i..], id)
      {
        i := i + 1;
      }
      if i < |partitions| {
        partitions := partitions[..i] + partitions[i + 1..];
      }
      log := log + [Cleared(owner, id)];
    }
  }

  class RolloutManager {
    var status: Status
    var weights: bool
    var kv: bool
    var version: nat

    // The state the initial update_weights leaves behind.
    constructor ()
      ensures status == Onload && weights && kv && version == 0
    {
      status, weights, kv, version := Onload, true, true, 0;
    }

    method OffloadAll()
      modifies this
      ensures status == Offload && version == old(version)
      ensures old(status) != Offload ==> !weights && !kv
      ensures old(status) == Offload ==> weights == old(weights) && kv == old(kv)
    {
      if status == Offload { return; }
      weights, kv := false, false;
      status := Offload;
    }

    // Per-tag onload: the status is left to the KV call.
    method OnloadWeights()
      modifies this`weights
      ensures weights
    {
      weights := true;
    }

    method OnloadKv()
      modifies this`kv, this`status
      ensures kv && status == Onload
    {
      kv := true;
      status := Onload;
    }
  }

  class CriticLoop {
    var step: nat
    var pc: CriticPc

    constructor ()
      ensures step == 0 && pc == CStart
    {
      step, pc := 0, CStart;
    }

    method Tick(cfg: Config, r: RolloutLoop, a: ActorLoop, data: DataSystem, manager: RolloutManager)
      modifies this, data
      ensures Snapshot(r, this, a, data, manager) == CriticNext(cfg, old(Snapshot(r, this, a, data, manager)))
    {
      match pc {
        case CStart => pc := if step < cfg.numRollout then CReadPartitions else CDone;
        case CReadPartitions => if step in data.partitions { pc := CReadStatus; }
        case CReadStatus => if manager.status != Onload { pc := CTraining; }
        case CTraining =>
          data.log := data.log + [Returned(Critic, step)];
          pc := if step < cfg.criticOnly then CClear else CAdvance;
        case CClear =>
          data.ClearPartition(step, Critic);
          pc := CAdvance;
        case CAdvance =>
          step := step + 1;
          pc := CStart;
        case CDone =>
      }
    }
  }

  class ActorLoop {
    var step: nat
    var pc: ActorPc

    constructor ()
      ensures step == 0 && pc == AStart
    {
      step, pc := 0, AStart;
    }

    method Tick(cfg: Config, r: RolloutLoop, c: CriticLoop, data: DataSystem, manager: RolloutManager)
      modifies this, data, manager
      ensures Snapshot(r, c, this, data, manager) == ActorNext(cfg, old(Snapshot(r, c, this, data, manager)))
    {
      match pc {
        case AStart => pc := if step < cfg.numRollout then AReadPartitions else ADone;
        case AReadPartitions => pc := if step in data.partitions then AReadStatus else AStart;
        case AReadStatus => if manager.status != Onload { pc := AWaitCritic; }
        case AWaitCritic =>
          if c.step > step { pc := if step < cfg.criticOnly then AOnloadWeights else ATraining; }
        case ATraining => pc := AOnloadWeights;
        case AOnloadWeights =>
          manager.OnloadWeights();
          pc := ABroadcast;
        case ABroadcast =>
          manager.version := step + 1;
          pc := AOnloadKv;
        case AOnloadKv =>
          manager.OnloadKv();
          if step < cfg.criticOnly {
            pc := AAdvance;
          } else {
            data.log := data.log + [Returned(Actor, step)];
            pc := AClear;
          }
        case AClear =>
          data.ClearPartition(step, Actor);
          pc := AAdvance;
        case AAdvance =>
          step := step + 1;
          pc := AStart;
        case ADone =>
      }
    }
  }

  class RolloutLoop {
    var step: nat
    var pc: RolloutPc

    constructor ()
      ensures step == 0 && pc == RStart
    {
      step, pc := 0, RStart;
    }

    // Offloading twice is a no-op, so the status must be the only thing an offload can find wrong.
    method Tick(cfg: Config, c: CriticLoop, a: ActorLoop, data: DataSystem, manager: RolloutManager)
      requires Inv(cfg, Snapshot(this, c, a, data, manager))
      modifies this, data, manager
      ensures Snapshot(this, c, a, data, manager) == RolloutNext(cfg, old(Snapshot(this, c, a, data, manager)))
    {
      match pc {
        case RStart => pc := if step < cfg.numRollout then RGenerating else RDone;
        case RGenerating =>
          data.Put(step);
          pc := RGenerated;
        case RGenerated => pc := ROffload;
        case ROffload =>
          OffloadFindsOnload(cfg, Snapshot(this, c, a, data, manager));
          manager.OffloadAll();
          pc := RReadPartitions;
        case RReadPartitions =>
          if step + 1 >= cfg.numRollout {
            pc := RAdvance;
          } else if SatisfyStaleness(data.partitions, step, cfg.maxStaleness) {
            pc := RReadActor;
          }
        case RReadActor => pc := RReadCritic(a.step <= step);
        case RReadCritic(pending) => pc := if pending || c.step <= step then RReadPartitions else RAdvance;
        case RAdvance =>
          step := step + 1;
          pc := RStart;
        case RDone =>
      }
    }
  }

  lemma OffloadFindsOnload(cfg: Config, s: World)
    requires Inv(cfg, s) && s.rPc == ROffload
    ensures s.status == Onload
  {}

  ghost function Snapshot(r: RolloutLoop, c: CriticLoop, a: ActorLoop, data: DataSystem, manager: RolloutManager): World
    reads r, c, a, data, manager
  {
    World(r.step, r.pc, c.step, c.pc, a.step, a.pc, data.partitions,
          manager.status, manager.weights, manager.kv, manager.version, data.log)
  }

  /** Any interleaving of the three loops over the shared objects keeps the machine's invariant,
      and ends where the machine's run of the same schedule ends. */
  method Drive(cfg: Config, schedule: seq<Role>)
    returns (r: RolloutLoop, c: CriticLoop, a: ActorLoop, data: DataSystem, manager: RolloutManager)
    ensures Snapshot(r, c, a, data, manager) == Run(cfg, Init(), schedule)
    ensures Inv(cfg, Snapshot(r, c, a, data, manager))
  {
    hide Inv, RolloutNext, CriticNext, ActorNext;
    r := new RolloutLoop();
    c := new CriticLoop();
    a := new ActorLoop();
    data := new DataSystem();
    manager := new RolloutManager();
    InitInv(cfg);
    for i := 0 to |schedule|
      invariant fresh(r) && fresh(c) && fresh(a) && fresh(data) && fresh(manager)
      invariant Snapshot(r, c, a, data, manager) == Run(cfg, Init(), schedule[..i])
      invariant Inv(cfg, Snapshot(r, c, a, data, manager))
    {
      assert schedule[..i + 1][..i] == schedule[..i];
      NextKeepsInv(cfg, Snapshot(r, c, a, data, manager), schedule[i]);
      match schedule[i] {
        case Rollout => r.Tick(cfg, c, a, data, manager);
        case Critic => c.Tick(cfg, r, a, data, manager);
        case Actor => a.Tick(cfg, r, c, data, manager);
      }
    }
    assert schedule[..|schedule|] == schedule;
  }

  /** One pass of the peer barrier: peers are read one by one, each at its own moment. */
  class PeerStepBarrier {
    const peers: seq<Role>

    constructor (peers: seq<Role>)
      ensures this.peers == peers
    {
      this.peers := peers;
    }

    // answers[i] is what peer i answered; the pass reports the peers still at or before the round.
    method ListPending(answers: seq<nat>, roundId: nat) returns (pending: seq<(Role, nat)>)
      requires |answers| == |peers|
      ensures pending == [] <==> forall i | 0 <= i < |peers| :: answers[i] > roundId
      ensures forall x | x in pending ::
        exists i | 0 <= i < |peers| :: x == (peers[i], answers[i]) && answers[i] <= roundId
      ensures forall i | 0 <= i < |peers| && answers[i] <= roundId :: (peers[i], answers[i]) in pending
    {
      pending := [];
      for i := 0 to |peers|
        invariant pending == [] <==> forall k | 0 <= k < i :: answers[k] > roundId
        invariant forall x | x in pending ::
          exists k | 0 <= k < i :: x == (peers[k], answers[k]) && answers[k] <= roundId
        invariant forall k | 0 <= k < i && answers[k] <= roundId :: (peers[k], answers[k]) in pending
      {
        if answers[i] <= roundId {
          pending := pending + [(peers[i], answers[i])];
        }
      }
    }
  }

  // history[m][p] is the step of peer p at moment m; steps only grow.
  ghost predicate Grew(history: seq<seq<nat>>, m: nat, peers: nat)
    requires 0 < m < |history| && |history[m - 1]| == |history[m]| == peers
  {
    forall p | 0 <= p < peers :: history[m - 1][p] <= history[m][p]
  }

  ghost predicate StepsGrow(history: seq<seq<nat>>, peers: nat) {
    && (forall m | 0 <= m < |history| :: |history[m]| == peers)
    && (forall m | 0 < m < |history| :: Grew(history, m, peers))
  }

  lemma {:induction false} StepsGrowFrom(history: seq<seq<nat>>, peers: nat, first: nat, last: nat, p: nat)
    requires StepsGrow(history, peers) && first <= last < |history| && p < peers
    ensures history[first][p] <= history[last][p]
    decreases last - first
  {
    if first < last {
      StepsGrowFrom(history, peers, first, last - 1, p);
      assert Grew(history, last, peers);
    }
  }

  /** Although no two peers are read at the same moment, an empty pass proves that all of them
      are past the round at its end, because steps never go back. */
  lemma EmptyPassMeansAllPassed(history: seq<seq<nat>>, peers: nat, moments: seq<nat>, roundId: nat)
    requires StepsGrow(history, peers) && |moments| == peers && history != []
    requires forall p | 0 <= p < peers :: moments[p] < |history| && history[moments[p]][p] > roundId
    ensures var end := history[|history| - 1]; forall p | 0 <= p < peers :: end[p] > roundId
  {
    var end := history[|history| - 1];
    forall p | 0 <= p < peers ensures end[p] > roundId {
      StepsGrowFrom(history, peers, moments[p], |history| - 1, p);
    }
  }

  // The steps of rollout's peers, in the order they are read, at every moment of a run.
  function PeerSteps(s: World): seq<nat> { [s.aStep, s.cStep] }

  function PeerHistory(cfg: Config, schedule: seq<Role>): (history: seq<seq<nat>>)
    ensures |history| == |schedule| + 1
  {
    seq(|schedule| + 1, m requires 0 <= m <= |schedule| => PeerSteps(Run(cfg, Init(), schedule[..m])))
  }

  lemma StepsNeverFall(cfg: Config, s: World, role: Role)
    ensures Next(cfg, s, role).aStep >= s.aStep && Next(cfg, s, role).cStep >= s.cStep
  {}

  lemma PeerStepsGrow(cfg: Config, schedule: seq<Role>)
    ensures StepsGrow(PeerHistory(cfg, schedule), 2)
  {
    var history := PeerHistory(cfg, schedule);
    forall m | 0 < m < |history| ensures Grew(history, m, 2) {
      var before := Run(cfg, Init(), schedule[..m - 1]);
      assert schedule[..m][..m - 1] == schedule[..m - 1];
      StepsNeverFall(cfg, before, schedule[m - 1]);
      hide Next;
    }
  }

  /** In every interleaving: if rollout reads actor at one moment and critic at another and finds
      neither pending for the round, both are past it from then on, whatever ran in between. */
  lemma {:induction false} EmptyPassInRun(cfg: Config, schedule: seq<Role>, actorRead: nat, criticRead: nat,
                                          roundId: nat)
    requires actorRead <= |schedule| && criticRead <= |schedule|
    requires Run(cfg, Init(), schedule[..actorRead]).aStep > roundId
    requires Run(cfg, Init(), schedule[..criticRead]).cStep > roundId
    ensures var s := Run(cfg, Init(), schedule); s.aStep > roundId && s.cStep > roundId
  {
    var history, moments := PeerHistory(cfg, schedule), [actorRead, criticRead];
    PeerStepsGrow(cfg, schedule);
    hide Run;
    EmptyPassMeansAllPassed(history, 2, moments, roundId);
    assert schedule[..|schedule|] == schedule;
    assert history[|history| - 1][0] > roundId && history[|history| - 1][1] > roundId;
  }
}
