/** The resident pipeline's own fields and its transfer stage, stepping exactly as the group
    ledger does, and what every training partition ends up receiving. */
module ResidentPipeline {
  import opened Common
  import opened DebtCoverage
  import opened ResidentLedger
  import opened Transfer

  // What the domains offer in one tick; the ledger only sees how many groups there are.
  datatype Arrival = Arrival(admit: nat, finished: seq<Group>, drop: nat)

  function EnvOf(a: Arrival): Env { Env(a.admit, |a.finished|, a.drop) }

  function EnvsOf(arrivals: seq<Arrival>): (envs: seq<Env>)
    ensures |envs| == |arrivals|
  {
    seq(|arrivals|, i requires 0 <= i < |arrivals| => EnvOf(arrivals[i]))
  }

  // ----- the pump -----

  /** A tick in which the domains offer nothing leaves nothing for another one to do, so the
      pump may stop there. */
  lemma {:induction false} QuietTickSettles(cfg: Config, s: Ledger)
    requires s.error == None
    ensures var s' := Tick(cfg, s, NOTHING);
            Tick(cfg, s', NOTHING).(error := s'.error) == s'
  {
    var s' := Tick(cfg, s, NOTHING);
    var admitted := Admit(cfg, s, 0);
    if admitted.error == None {
      assert Move(admitted, NOTHING) == admitted;
      DispatchSettles(admitted);
      assert Move(s', NOTHING) == s';
      hide Dispatch, Commit, Move, CheckCounts;
      assert s'.error == None;
      assert Admit(cfg, s', 0).error == None ==> Admit(cfg, s', 0) == s';
    }
  }

  lemma DispatchSettles(s: Ledger)
    ensures var s' := Commit(Dispatch(s)); Commit(Dispatch(s')) == s' && s'.error == s.error
  {
    var d := Dispatch(s);
    var s' := Commit(d);
    assert Dispatch(s') == s';
    if !d.windowClosed && d.ready != 0 {
      assert ToPrevious(s') == 0 && ToCurrent(s') == 0;
      assert Add(s'.fill, s'.steps - 2, 0) == s'.fill;
      assert Add(s'.fill, s'.steps - 1, 0) == s'.fill;
    }
  }

  // ----- deliveries against the fill of each partition -----

  function Share(b: Books, k: int): nat {
    if k == b.id then b.committedCurrent else if k == b.id - 1 then b.committedPrevious else 0
  }

  // What each partition had received before this step, against what it has been committed.
  ghost predicate Delivering(batch: nat, fill: seq<nat>, b: Books) {
    && |fill| == b.id + 1 && Unflagged(b)
    && (forall k | 0 <= k < |fill| :: |Sent(b.before, k)| + Share(b, k) == fill[k])
    && (forall k | k >= |fill| :: Sent(b.before, k) == [] && Marks(b.before, k) == 0)
    && (forall k | 0 <= k < b.id && (k == b.id - 1 ==> b.previousQuota == 0) ::
          Marks(b.before, k) == if fill[k] == batch > 0 then 1 else 0)
  }

  // Once nothing waits, every partition has received all its groups, and its flag if it is full.
  ghost predicate Delivered(batch: nat, fill: seq<nat>, sent: seq<Delivery>) {
    && NothingAfterMark(sent)
    && (forall k | 0 <= k < |fill| :: |Sent(sent, k)| == fill[k])
    && (forall k | 0 <= k < |fill| :: Marks(sent, k) == if fill[k] == batch > 0 then 1 else 0)
    && (forall k | k >= |fill| :: Sent(sent, k) == [] && Marks(sent, k) == 0)
  }

  ghost predicate Mirrors(s: Ledger, b: Books) {
    && b.id == s.steps - 1 && b.previousQuota == s.previousQuota && b.currentQuota == s.currentQuota
    && b.committedPrevious == s.committedPrevious && b.committedCurrent == s.committedCurrent
  }

  // What the ledger's invariant says of the two partitions the step fills.
  lemma StepFills(cfg: Config, s: Ledger, b: Books)
    requires Inv(cfg, s) && Mirrors(s, b)
    ensures |s.fill| == b.id + 1
    ensures b.id >= 0 ==> s.fill[b.id] == b.committedCurrent
    ensures b.id >= 1 ==> s.fill[b.id - 1] + b.previousQuota - b.committedPrevious == cfg.rolloutBatch
    ensures b.currentQuota == cfg.rolloutBatch || b.currentQuota == 0
  {}

  // What one partition has received once nothing waits.
  lemma PartitionIsDelivered(batch: nat, fill: seq<nat>, b: Books, k: int)
    requires Balanced(b) && Flagged(b) && Delivering(batch, fill, b) && b.buffer == [] && 0 <= k < |fill|
    requires b.id >= 0 ==> fill[b.id] == b.committedCurrent
    requires b.id >= 1 ==> fill[b.id - 1] + b.previousQuota - b.committedPrevious == batch
    requires b.currentQuota == batch || b.currentQuota == 0
    ensures |Sent(b.sent, k)| == fill[k]
    ensures Marks(b.sent, k) == if fill[k] == batch > 0 then 1 else 0
  {
    assert Elsewhere(b.before, b.sent, b.id);
    assert |Sent(b.before, k)| + Share(b, k) == fill[k];
    hide Sent, Marks, NothingAfterMark;
    if k < b.id - 1 {
      assert Sent(b.sent, k) == Sent(b.before, k);
    }
    hide Elsewhere, Delivering;
  }

  lemma DrainedIsDelivered(cfg: Config, s: Ledger, b: Books)
    requires Inv(cfg, s) && Good(b) && Delivering(cfg.rolloutBatch, s.fill, b) && b.buffer == []
    requires Mirrors(s, b)
    ensures Delivered(cfg.rolloutBatch, s.fill, b.sent)
  {
    StepFills(cfg, s, b);
    hide Sent, Marks, Inv, Mirrors, NothingAfterMark;
    forall k | 0 <= k < |s.fill|
      ensures |Sent(b.sent, k)| == s.fill[k]
      ensures Marks(b.sent, k) == if s.fill[k] == cfg.rolloutBatch > 0 then 1 else 0
    {
      PartitionIsDelivered(cfg.rolloutBatch, s.fill, b, k);
    }
    assert forall k | k >= |s.fill| :: Sent(b.sent, k) == [] && Marks(b.sent, k) == 0 by {
      NothingBeyond(cfg.rolloutBatch, s.fill, b);
    }
    assert NothingAfterMark(b.sent);
    hide Good, Delivering, Balanced, Flagged;
  }

  lemma NothingBeyond(batch: nat, fill: seq<nat>, b: Books)
    requires Balanced(b) && Delivering(batch, fill, b)
    ensures forall k | k >= |fill| :: Sent(b.sent, k) == [] && Marks(b.sent, k) == 0
  {
    hide Sent, Marks;
    assert Elsewhere(b.before, b.sent, b.id);
  }

  lemma DeliveredIsDelivering(batch: nat, fill: seq<nat>, b: Books, previous: nat, current: nat)
    requires Delivered(batch, fill, b.sent) && (previous > 0 ==> Marks(b.sent, |fill| - 1) == 0)
    ensures Delivering(batch, fill + [0], Rebound(b, |fill|, previous, current))
  {
    hide Sent, Marks;
  }

  lemma ReboundTwice(b: Books, id: int, quota: nat, previous: nat, current: nat)
    ensures Rebound(Rebound(b, id, 0, quota), id, previous, current) == Rebound(b, id, previous, current)
  {}

  // That is the ledger's commit...
  lemma DrainIsCommit(cfg: Config, s: Ledger, b: Books, b': Books, n: nat)
    requires Inv(cfg, s) && Mirrors(s, b) && Drained(b, b', s.windowClosed, s.ready, n)
    ensures n <= s.ready
    ensures Commit(s) == s.(ready := s.ready - n, committedPrevious := b'.committedPrevious,
                            committedCurrent := b'.committedCurrent,
                            fill := Filled(s.fill, b.id, b'.committedPrevious - b.committedPrevious,
                                           b'.committedCurrent - b.committedCurrent))
  {
    QuotasRespected(cfg, s);
    hide Inv;
    if s.windowClosed || s.ready == 0 {
      assert Filled(s.fill, b.id, 0, 0) == s.fill;
    }
  }

  // ...and deliveries still agree with the fill.
  lemma DrainKeepsDelivering(cfg: Config, s: Ledger, b: Books, b': Books, n: nat)
    requires Inv(cfg, s) && Mirrors(s, b) && Drained(b, b', s.windowClosed, s.ready, n)
    requires Delivering(cfg.rolloutBatch, s.fill, b)
    ensures Delivering(cfg.rolloutBatch, Commit(s).fill, b')
  {
    DrainIsCommit(cfg, s, b, b', n);
    QuotasRespected(cfg, s);
    FirstStepHasNoDebt(cfg, s);
    hide Inv, Delivering, Commit, Filled;
    CommittingKeepsDelivering(cfg.rolloutBatch, s.fill, b, b');
  }

  // Between steps there is nothing to drain.
  lemma BetweenStepsNothingDrains(cfg: Config, s: Ledger)
    requires Inv(cfg, s)
    ensures s.phase == Sealing || s.phase == Idle || s.phase == Down ==> s.windowClosed || s.ready == 0
  {}

  lemma FirstStepHasNoDebt(cfg: Config, s: Ledger)
    requires Inv(cfg, s)
    ensures s.steps <= 1 ==> s.previousQuota == 0
  {}

  function Filled(fill: seq<nat>, id: int, previous: nat, current: nat): seq<nat> {
    Add(Add(fill, id - 1, previous), id, current)
  }

  lemma CommittingKeepsDelivering(batch: nat, fill: seq<nat>, b: Books, b': Books)
    requires Delivering(batch, fill, b) && Counts(b')
    requires b'.id == b.id && b'.before == b.before && b'.previousQuota == b.previousQuota
    requires b.committedPrevious <= b'.committedPrevious && b.committedCurrent <= b'.committedCurrent
    requires b.id <= 0 ==> b'.previousQuota == 0
    ensures Delivering(batch, Filled(fill, b.id, b'.committedPrevious - b.committedPrevious,
                                     b'.committedCurrent - b.committedCurrent), b')
  {
    hide Sent, Marks;
  }

  lemma OpeningKeeps(cfg: Config, s: Ledger)
    requires Inv(cfg, s) && s.error == None && MayOpen(cfg, s)
    ensures Inv(cfg, Opened(cfg, s))
  {}

  // A partition left short has not been flagged yet.
  lemma DeficitIsUnmarked(cfg: Config, s: Ledger, sent: seq<Delivery>)
    requires Inv(cfg, s) && s.phase == Idle && Delivered(cfg.rolloutBatch, s.fill, sent)
    ensures s.deficit > 0 ==> Marks(sent, s.steps - 1) == 0
    ensures Marks(sent, s.steps) == 0
  {
    hide Marks, Sent;
  }

  // The boundary steps, field by field.
  lemma RecordingKeeps(cfg: Config, s: Ledger)
    requires Inv(cfg, s) && s.error.None? && s.phase == Closing
    ensures Inv(cfg, Next(cfg, s, Record))
    ensures Next(cfg, s, Record) == Recorded(s).(phase := Closing).(phase := Sealing)
  {}

  lemma FinishingKeeps(cfg: Config, s: Ledger)
    requires Inv(cfg, s) && s.error.None? && s.phase == Sealing
    ensures var tail := if LifecycleTerminal(cfg, s) || !(cfg.partialRollout || cfg.fullyAsync)
                        then s.(working := 0, completed := 0, ready := 0) else s;
            var s' := tail.(phase := if LifecycleTerminal(cfg, s) then Down else Idle);
            && Inv(cfg, s') && Inv(cfg, Next(cfg, s, Finish))
            && Next(cfg, s, Finish) == s'.(error := CheckCounts(cfg, s'))
  {}

  lemma DispatchKeepsDelivering(batch: nat, fill: seq<nat>, b: Books, b': Books)
    requires Delivering(batch, fill, b)
    requires b'.id == b.id && b'.before == b.before && b'.previousQuota == b.previousQuota
    requires b'.committedPrevious == b.committedPrevious && b'.committedCurrent == b.committedCurrent
    ensures Delivering(batch, fill, b')
  {
    hide Sent, Marks;
  }

  lemma TicksOnce(cfg: Config, s: Ledger, envs: seq<Env>, i: nat)
    requires i < |envs| && s.error.None?
    ensures Ticks(cfg, s, envs[i..]) == Ticks(cfg, Tick(cfg, s, envs[i]), envs[i + 1..])
  {
    assert envs[i..][1..] == envs[i + 1..];
    hide Tick;
  }

  lemma TickStages(cfg: Config, s: Ledger, env: Env)
    requires Inv(cfg, s)
    ensures var a := Admit(cfg, s, env.admit);
            Inv(cfg, a) && (a.error == None ==>
              Inv(cfg, Move(a, env)) && Inv(cfg, Dispatch(Move(a, env))) && Inv(cfg, Tick(cfg, s, env)))
  {
    hide Inv, Admit, Move, Dispatch, Commit;
    AdmitKeeps(cfg, s, env.admit);
    var a := Admit(cfg, s, env.admit);
    MoveKeeps(cfg, a, env);
    DispatchKeeps(cfg, Move(a, env));
    CommitKeeps(cfg, Dispatch(Move(a, env)));
  }

  class AgenticResidentPipeline {
    const cfg: Config
    const transfer: TransferDomain
    var phase: Phase
    var steps: nat
    var runtimeGroups: nat              // held by the runtime, or by reward and not yet done
    var rewardReady: seq<Group>         // completed, in the order reward finished them
    var stepAdmissionClosed: bool
    var lastStepCurrentDeficit: nat
    var residentDataflowError: Option<Error>
    ghost var interrupted: nat
    ghost var fill: seq<nat>

    ghost function View(): Ledger
      reads this, transfer
    {
      Ledger(phase, steps, runtimeGroups, |rewardReady|, |transfer.readyGroupBuffer|,
             transfer.previousQuota, transfer.currentQuota,
             transfer.committedPrevious, transfer.committedCurrent,
             stepAdmissionClosed, transfer.outputWindowClosed,
             lastStepCurrentDeficit, interrupted, fill, residentDataflowError)
    }

    // What the transfer stage has done agrees with the ledger.
    ghost predicate Delivery()
      reads this, transfer
    {
      && transfer.Valid()
      && transfer.rolloutId == steps - 1 && transfer.rolloutBatchSize == cfg.rolloutBatch
      && Delivering(cfg.rolloutBatch, fill, transfer.View())
      && (phase == Sealing || phase == Idle || phase == Down ==> transfer.transferBuffer == [])
    }

    ghost predicate Valid()
      reads this, transfer
    {
      Inv(cfg, View()) && Delivery()
    }

    constructor (cfg: Config, transferBatchGroupCount: int)
      ensures Valid() && View() == Init(cfg) && this.cfg == cfg && fresh(transfer)
    {
      this.cfg := cfg;
      transfer := new TransferDomain(cfg.rolloutBatch, transferBatchGroupCount);
      phase, steps, runtimeGroups, rewardReady := Idle, 0, 0, [];
      stepAdmissionClosed, lastStepCurrentDeficit, residentDataflowError := true, 0, None;
      interrupted, fill := 0, [];
      new;
      assert Inv(cfg, View());
    }

    // ----- the pump -----

    /** The admission counts of the current window, or the error they raise. */
    method CurrentWindowAdmissionCounts() returns (error: Option<Error>, slack: int)
      requires Valid()
      ensures error == CheckCounts(cfg, View())
      ensures error.None? ==> slack == Slack(cfg, View()) >= 0
    {
      slack := 0;
      var resident := runtimeGroups + |rewardReady| + |transfer.readyGroupBuffer|;
      var debt := transfer.previousQuota - transfer.committedPrevious;
      if debt < 0 {
        return Some(PreviousOvercommitted), slack;
      }
      if resident < debt {
        return Some(DebtUncovered), slack;
      }
      slack := cfg.overSampling - (transfer.committedCurrent + (resident - debt));
      if slack < 0 {
        return Some(OverAdmitted), slack;
      }
      return None, slack;
    }

    method PumpAdmission(offered: nat)
      requires Valid()
      modifies this`runtimeGroups, this`residentDataflowError
      ensures Delivery() && View() == Admit(cfg, old(View()), offered)
    {
      if !stepAdmissionClosed {
        var error, slack := CurrentWindowAdmissionCounts();
        if error.Some? {
          residentDataflowError := error;
        } else {
          runtimeGroups := runtimeGroups + Min(offered, Min(cfg.overSampling, slack));
        }
      }
    }

    method PumpRuntimeToReward(arrival: Arrival)
      requires Delivery()
      modifies this`runtimeGroups, this`rewardReady
      ensures Delivery() && View() == Move(old(View()), EnvOf(arrival))
      ensures rewardReady == old(rewardReady) +
        arrival.finished[..Min(|arrival.finished|, old(runtimeGroups))]
    {
      var n := Min(|arrival.finished|, runtimeGroups);
      rewardReady := rewardReady + arrival.finished[..n];
      runtimeGroups := runtimeGroups - n;
      runtimeGroups := runtimeGroups - Min(arrival.drop, runtimeGroups);
    }

    method PumpRewardToTransfer()
      requires Delivery()
      modifies this`rewardReady, transfer`readyGroupBuffer
      ensures Delivery() && View() == Dispatch(old(View()))
      ensures old(transfer.readyGroupBuffer) + old(rewardReady) == transfer.readyGroupBuffer + rewardReady
    {
      hide Good, Delivering;
      var capacity := transfer.RemainingReadyCapacity();
      var n := Min(|rewardReady|, Max(capacity, 0));
      transfer.EnqueueReadyGroups(rewardReady[..n]);
      rewardReady := rewardReady[n..];
    }

    method PumpTransfer()
      requires Valid()
      modifies this`fill, transfer
      ensures Delivery() && View() == Commit(old(View()))
    {
      ghost var s, b := View(), transfer.View();
      BeforeDraining();
      hide *;
      var released := Drain();
      fill := Commit(s).fill;
      AfterDraining(s, b, |released|);
    }

    // Draining the transfer domain changes the ledger's counts only.
    method Drain() returns (released: seq<Group>)
      requires transfer.Valid()
      modifies transfer
      ensures transfer.Valid() && View() == old(View()).(
        ready := |transfer.readyGroupBuffer|, committedPrevious := transfer.committedPrevious,
        committedCurrent := transfer.committedCurrent)
      ensures Drained(old(transfer.View()), transfer.View(), transfer.outputWindowClosed,
                      |old(transfer.readyGroupBuffer)|, |released|)
      ensures |transfer.readyGroupBuffer| == |old(transfer.readyGroupBuffer)| - |released|
      ensures transfer.outputWindowClosed || old(transfer.readyGroupBuffer) == [] ==>
        transfer.transferBuffer == old(transfer.transferBuffer)
    {
      hide Good, Counts;
      released := transfer.DrainReadyGroupPayloads();
    }

    // Draining moved nothing but counts and the fill, and those as the ledger commits.
    lemma AfterDraining(s: Ledger, b: Books, n: nat)
      requires Inv(cfg, s) && Mirrors(s, b) && Delivering(cfg.rolloutBatch, s.fill, b)
      requires transfer.Valid() && Drained(b, transfer.View(), s.windowClosed, s.ready, n)
      requires |transfer.readyGroupBuffer| == s.ready - n && fill == Commit(s).fill
      requires View() == s.(ready := |transfer.readyGroupBuffer|, committedPrevious := transfer.committedPrevious,
                            committedCurrent := transfer.committedCurrent, fill := fill)
      requires transfer.rolloutBatchSize == cfg.rolloutBatch && transfer.rolloutId == steps - 1
      requires s.phase == Sealing || s.phase == Idle || s.phase == Down ==> transfer.transferBuffer == []
      ensures Delivery() && View() == Commit(s)
    {
      DrainIsCommit(cfg, s, b, transfer.View(), n);
      DrainKeepsDelivering(cfg, s, b, transfer.View(), n);
      hide Inv, Delivering, Good, Commit, Mirrors, Drained;
    }

    lemma BeforeDraining()
      requires Valid()
      ensures Mirrors(View(), transfer.View()) && Delivering(cfg.rolloutBatch, View().fill, transfer.View())
      ensures phase == Sealing || phase == Idle || phase == Down ==>
        transfer.outputWindowClosed || transfer.readyGroupBuffer == []
      ensures transfer.Valid() && transfer.rolloutBatchSize == cfg.rolloutBatch && transfer.rolloutId == steps - 1
      ensures phase == Sealing || phase == Idle || phase == Down ==> transfer.transferBuffer == []
    {
      BetweenStepsNothingDrains(cfg, View());
      hide Inv, Delivering, Good;
    }

    // One tick of every stage; an error raised by the admission stage ends it.
    method PumpTick(arrival: Arrival)
      requires Valid() && residentDataflowError.None?
      modifies this, transfer
      ensures Valid() && View() == Tick(cfg, old(View()), EnvOf(arrival))
    {
      ghost var s, env := View(), EnvOf(arrival);
      TickStages(cfg, s, env);
      hide Inv, Delivering, Good, Admit, Move, Dispatch, Commit, Delivery;
      PumpAdmission(arrival.admit);
      if residentDataflowError.None? {
        PumpRuntimeToReward(arrival);
        PumpRewardToTransfer();
        PumpTransfer();
      }
    }

    /** The pump holds its lock until a tick moves nothing. */
    method PumpOnce(arrivals: seq<Arrival>)
      requires Valid() && residentDataflowError.None?
      modifies this, transfer
      ensures Valid() && View() == ResidentLedger.PumpOnce(cfg, old(View()), EnvsOf(arrivals))
    {
      var i := 0;
      ghost var envs := EnvsOf(arrivals) + [NOTHING];
      while i <= |arrivals| && residentDataflowError.None?
        invariant 0 <= i <= |arrivals| + 1 && Valid()
        invariant Ticks(cfg, View(), envs[i..]) == Ticks(cfg, old(View()), envs)
        decreases |envs| - i
      {
        var arrival := if i < |arrivals| then arrivals[i] else Arrival(0, [], 0);
        TicksOnce(cfg, View(), envs, i);
        assert envs[i] == EnvOf(arrival);
        hide *;
        PumpTick(arrival);
        i := i + 1;
      }
      assert envs[|envs|..] == [];
    }

    // ----- the step boundary -----

    /** Opening the next step, when rollout asks for one. */
    method OpenStep()
      requires Valid() && residentDataflowError.None?
      modifies this, transfer
      ensures Valid() && View() == Next(cfg, old(View()), ResidentLedger.OpenStep)
    {
      ghost var s := View();
      NextKeeps(cfg, s, ResidentLedger.OpenStep);
      if phase == Idle && (steps < cfg.numRollout || (steps == cfg.numRollout && cfg.fullyAsync)) {
        OpeningKeeps(cfg, s);
        var finalBackfillStep := cfg.fullyAsync && steps >= cfg.numRollout;
        var current := if finalBackfillStep then 0 else cfg.rolloutBatch;
        var previous := if cfg.fullyAsync then lastStepCurrentDeficit else 0;
        OpenTransfer(previous, current);
        hide Inv, Delivery, CheckCounts;
        CompactAccountingSnapshot();
      }
    }

    /** Every accounting snapshot makes the admission checks again. */
    method CompactAccountingSnapshot()
      requires Valid()
      modifies this`residentDataflowError
      ensures Delivery() && View() == old(View()).(error := CheckCounts(cfg, old(View())))
    {
      hide Inv, CheckCounts, Delivering, Good;
      var error, _ := CurrentWindowAdmissionCounts();
      residentDataflowError := error;
    }

    // Rebinds the transfer stage, which by then has nothing pending, and opens admission.
    method OpenTransfer(previous: nat, current: nat)
      requires Valid() && phase == Idle && (previous > 0 ==> previous == lastStepCurrentDeficit)
      modifies this, transfer
      ensures Delivery()
      ensures View() == old(View()).(phase := Open, steps := old(steps) + 1, previousQuota := previous,
        currentQuota := current, committedPrevious := 0, committedCurrent := 0,
        admissionClosed := false, windowClosed := false, fill := old(fill) + [0])
    {
      hide Good, Delivering, Inv, Sent, Marks;
      RebindTransfer(previous, current);
      assert transfer.rolloutId == steps && transfer.previousQuota == previous && transfer.currentQuota == current
          && transfer.committedPrevious == transfer.committedCurrent == 0 && transfer.transferBuffer == [];
      hide Rebound;
      stepAdmissionClosed, phase, steps := false, Open, steps + 1;
      fill := fill + [0];
    }

    method RebindTransfer(previous: nat, current: nat)
      requires Valid() && phase == Idle && (previous > 0 ==> previous == lastStepCurrentDeficit)
      modifies transfer
      ensures transfer.Valid() && Delivering(cfg.rolloutBatch, fill + [0], transfer.View())
      ensures transfer.View() == Rebound(old(transfer.View()), steps, previous, current)
      ensures !transfer.outputWindowClosed && transfer.readyGroupBuffer == old(transfer.readyGroupBuffer)
    {
      IdleIsDelivered();
      ghost var b := transfer.View();
      hide *;
      DeliveredIsDelivering(cfg.rolloutBatch, fill, b, previous, current);
      ReboundTwice(b, steps, cfg.rolloutBatch, previous, current);
      ViewIsOfFields();
      var ok := transfer.RebindStep(steps);
      RebindKeepsMarks(b);
      transfer.ConfigureTransferQuota(previous, current);
    }

    lemma ViewIsOfFields()
      ensures transfer.View().sent == transfer.sent
    {}

    lemma IdleIsDelivered()
      requires Valid() && phase == Idle
      ensures |fill| == steps && transfer.transferBuffer == [] && transfer.rolloutBatchSize == cfg.rolloutBatch
      ensures transfer.Valid() && Delivered(cfg.rolloutBatch, fill, transfer.sent)
      ensures lastStepCurrentDeficit > 0 ==> Marks(transfer.sent, steps - 1) == 0
      ensures Marks(transfer.sent, steps) == 0
    {
      hide Good, Sent, Marks, Delivering, Delivered;
      FullyDelivered();
      DeficitIsUnmarked(cfg, View(), transfer.sent);
    }

    lemma RebindKeepsMarks(b: Books)
      requires transfer.View() == Rebound(b, steps, 0, cfg.rolloutBatch)
      ensures transfer.sent == b.sent
    {}

    /** Why the step may not close yet, if it may not; otherwise admission closes with it. */
    method CheckCloseStatus(interruptedGroups: nat) returns (mayClose: bool)
      requires Valid() && residentDataflowError.None? && phase == Open && interruptedGroups <= runtimeGroups
      modifies this`phase, this`stepAdmissionClosed, this`interrupted
      ensures Valid() && View() == Next(cfg, old(View()), CheckClose(interruptedGroups))
      ensures mayClose == (phase == Closing)
    {
      ghost var s := View();
      NextKeeps(cfg, s, CheckClose(interruptedGroups));
      hide Inv, Delivering, Good;
      if cfg.fullyAsync && steps > cfg.numRollout {
        mayClose := transfer.committedPrevious >= transfer.previousQuota;
      } else if cfg.fullyAsync {
        mayClose := transfer.committedPrevious + transfer.committedCurrent + interruptedGroups
                    >= transfer.previousQuota + transfer.currentQuota;
      } else {
        mayClose := transfer.committedPrevious >= transfer.previousQuota
                    && transfer.committedCurrent >= transfer.currentQuota;
      }
      if mayClose {
        phase, stepAdmissionClosed, interrupted := Closing, true, interruptedGroups;
      }
    }

    /** Closing a step: its deficit is recorded, and every partition has then received exactly the
        groups committed to it, and its completion flag if and only if it is full. */
    method RecordStep()
      requires Valid() && residentDataflowError.None? && phase == Closing
      modifies this, transfer
      ensures Valid() && View() == Next(cfg, old(View()), Record)
      ensures Delivered(cfg.rolloutBatch, fill, transfer.sent)
    {
      RecordingKeeps(cfg, View());
      hide *;
      CloseWindow();
      DrainTransfers();
      EndWindow();
      FullyDelivered();
    }

    method CloseWindow()
      requires Delivery() && phase == Closing
      modifies this`lastStepCurrentDeficit, this`rewardReady, transfer`outputWindowClosed
      ensures Delivery() && View() == Recorded(old(View())).(phase := Closing)
    {
      hide Delivering, Good;
      transfer.CloseOutputWindow();
      lastStepCurrentDeficit := Max(transfer.currentQuota - transfer.committedCurrent, 0);
      rewardReady := [];
    }

    method EndWindow()
      requires Delivery() && transfer.transferBuffer == []
      modifies this`phase
      ensures Delivery() && View() == old(View()).(phase := Sealing)
    {
      hide Delivering, Good;
      phase := Sealing;
    }

    lemma RunIsSafe()
      requires Valid()
      ensures residentDataflowError != Some(OverAdmitted) && residentDataflowError != Some(PreviousOvercommitted)
      ensures forall k | 0 <= k < |fill| :: fill[k] <= cfg.rolloutBatch
      ensures phase == Idle || phase == Down ==> transfer.transferBuffer == []
    {}

    lemma FullyDelivered()
      requires Valid() && transfer.transferBuffer == []
      ensures Delivered(cfg.rolloutBatch, fill, transfer.sent)
    {
      hide Inv, Delivering, Good, Sent, Marks, Delivered;
      DrainedIsDelivered(cfg, View(), transfer.View());
    }

    method DrainTransfers()
      requires Delivery()
      modifies transfer`transferBuffer, transfer`dispatchedPrevious, transfer`dispatchedCurrent, transfer`sent
      ensures Delivery() && View() == old(View()) && transfer.transferBuffer == []
    {
      ghost var b := transfer.View();
      hide Good;
      var ok := transfer.WaitForPendingTransfers();
      DispatchKeepsDelivering(cfg.rolloutBatch, fill, b, transfer.View());
      hide Delivering;
    }

    /** The end of the step: a terminal or non-carrying step discards what is resident. */
    method FinishStep()
      requires Valid() && residentDataflowError.None? && phase == Sealing
      modifies this, transfer
      ensures Valid() && View() == Next(cfg, old(View()), Finish)
    {
      ghost var s := View();
      FinishingKeeps(cfg, s);
      var lifecycleTerminal := steps >= cfg.numRollout && lastStepCurrentDeficit <= 0;
      assert lifecycleTerminal == LifecycleTerminal(cfg, s);
      hide *;
      if lifecycleTerminal || !(cfg.partialRollout || cfg.fullyAsync) {
        DiscardResidentTail();
      }
      EndStep(lifecycleTerminal);
      CompactAccountingSnapshot();
    }

    method EndStep(lifecycleTerminal: bool)
      requires Delivery() && phase == Sealing
      modifies this`phase
      ensures Delivery() && View() == old(View()).(phase := if lifecycleTerminal then Down else Idle)
    {
      hide Delivering, Good;
      phase := if lifecycleTerminal then Down else Idle;
    }

    method DiscardResidentTail()
      requires Delivery()
      modifies this`runtimeGroups, this`rewardReady, transfer`readyGroupBuffer
      ensures Delivery() && View() == old(View()).(working := 0, completed := 0, ready := 0)
    {
      hide Delivering, Good;
      runtimeGroups, rewardReady := 0, [];
      var _ := transfer.DropReadyGroups();
    }
  }

  // ----- whole runs -----

  datatype Command =
    | OpenNext
    | PumpWith(arrivals: seq<Arrival>)
    | TryClose(interrupted: nat)
    | CloseWindow
    | EndStep
    | Snapshot

  function ActionOf(c: Command): Action {
    match c
    case OpenNext => ResidentLedger.OpenStep
    case PumpWith(arrivals) => Pump(EnvsOf(arrivals))
    case TryClose(n) => CheckClose(n)
    case CloseWindow => Record
    case EndStep => Finish
    case Snapshot => Heartbeat
  }

  function ActionsOf(commands: seq<Command>): (actions: seq<Action>)
    ensures |actions| == |commands|
  {
    seq(|commands|, i requires 0 <= i < |commands| => ActionOf(commands[i]))
  }

  /** One command on the object is one action of the ledger, out of turn or not. */
  method Perform(p: AgenticResidentPipeline, c: Command)
    requires p.Valid()
    modifies p, p.transfer
    ensures p.Valid() && p.View() == Next(p.cfg, old(p.View()), ActionOf(c))
  {
    hide Inv, AgenticResidentPipeline.Delivery, ResidentLedger.PumpOnce, CheckCounts, Opened, Recorded, Finished;
    if p.residentDataflowError.None? {
      match c
      case OpenNext => p.OpenStep();
      case PumpWith(arrivals) => if p.phase != Down { p.PumpOnce(arrivals); }
      case TryClose(n) => if p.phase == Open && n <= p.runtimeGroups { var _ := p.CheckCloseStatus(n); }
      case CloseWindow => if p.phase == Closing { p.RecordStep(); }
      case EndStep => if p.phase == Sealing { p.FinishStep(); }
      case Snapshot => if p.phase == Open { NextKeeps(p.cfg, p.View(), Heartbeat); p.CompactAccountingSnapshot(); }
    }
  }

  /** Every sequence of commands drives the object through a run of the ledger, so what every
      run keeps holds of the object's own fields. */
  method Drive(cfg: Config, transferBatchGroupCount: int, commands: seq<Command>)
    returns (p: AgenticResidentPipeline)
    ensures p.Valid() && p.cfg == cfg && p.View() == Run(cfg, ActionsOf(commands))
    ensures p.residentDataflowError != Some(OverAdmitted)
    ensures p.residentDataflowError != Some(PreviousOvercommitted)
    ensures forall k | 0 <= k < |p.fill| :: p.fill[k] <= cfg.rolloutBatch
    ensures (forall c | c in commands :: LosesNothing(c)) ==> p.residentDataflowError.None?
    ensures p.phase == Idle || p.phase == Down ==> Delivered(cfg.rolloutBatch, p.fill, p.transfer.sent)
    ensures p.phase == Down && cfg.numRollout > 0 ==>
      cfg.numRollout <= |p.fill| && p.fill[cfg.numRollout - 1] == cfg.rolloutBatch
  {
    p := new AgenticResidentPipeline(cfg, transferBatchGroupCount);
    var i := 0;
    while i < |commands|
      invariant 0 <= i <= |commands| && p.Valid() && p.cfg == cfg && fresh(p) && fresh(p.transfer)
      invariant p.View() == Run(cfg, ActionsOf(commands[..i]))
    {
      RunOneMore(cfg, commands, i);
      hide *;
      Perform(p, commands[i]);
      i := i + 1;
    }
    assert commands[..i] == commands;
    p.RunIsSafe();
    RunOutcome(cfg, commands);
    assert p.fill == Run(cfg, ActionsOf(commands)).fill && p.phase == Run(cfg, ActionsOf(commands)).phase;
    hide *;
    if p.phase == Idle || p.phase == Down {
      p.FullyDelivered();
    }
  }

  predicate LosesNothing(c: Command) {
    c.PumpWith? ==> forall a | a in c.arrivals :: a.drop == 0
  }

  lemma RunOutcome(cfg: Config, commands: seq<Command>)
    ensures var s := Run(cfg, ActionsOf(commands));
            && ((forall c | c in commands :: LosesNothing(c)) ==> s.error.None?)
            && (s.phase == Down && cfg.numRollout > 0 ==>
                  cfg.numRollout <= |s.fill| && s.fill[cfg.numRollout - 1] == cfg.rolloutBatch)
  {
    var actions := ActionsOf(commands);
    if forall c | c in commands :: LosesNothing(c) {
      forall a | a in actions ensures DropsNothing(a) {
        var i :| 0 <= i < |actions| && actions[i] == a;
        assert commands[i] in commands;
      }
      DebtIsAlwaysCovered(cfg, actions);
    }
    hide Run;
    if Run(cfg, actions).phase == Down && cfg.numRollout > 0 {
      TerminalMeansComplete(cfg, actions);
    }
  }

  lemma RunOneMore(cfg: Config, commands: seq<Command>, i: nat)
    requires i < |commands|
    ensures Run(cfg, ActionsOf(commands[..i + 1]))
         == Next(cfg, Run(cfg, ActionsOf(commands[..i])), ActionOf(commands[i]))
  {
    var actions := ActionsOf(commands[..i + 1]);
    assert actions[..|actions| - 1] == ActionsOf(commands[..i]);
    hide Next;
  }
}
