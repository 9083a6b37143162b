/** What a soft close can lose: a step that closes before it has backfilled its predecessor leaves that
    partition short for ever, and exactly which configurations are exposed to that. */
module ShortPartitions {
  import opened Common
  import opened ResidentLedger
  import opened DebtCoverage
  import opened DroppedDebt

  // No step commits to partition k any more: the step after it has closed its window.
  predicate Frozen(s: Ledger, k: nat) { s.steps > k + 2 || (s.steps == k + 2 && s.windowClosed) }

  lemma TickLeavesFrozen(cfg: Config, s: Ledger, env: Env, k: nat)
    requires Inv(cfg, s) && Frozen(s, k)
    ensures var s' := Tick(cfg, s, env); Frozen(s', k) && k < |s'.fill| && s'.fill[k] == s.fill[k]
  {
    hide Quotas, Phases, CheckCounts, Slack;
  }

  lemma {:induction false} TicksLeaveFrozen(cfg: Config, s: Ledger, envs: seq<Env>, k: nat)
    requires Inv(cfg, s) && Frozen(s, k)
    ensures var s' := Ticks(cfg, s, envs); Frozen(s', k) && k < |s'.fill| && s'.fill[k] == s.fill[k]
    decreases |envs|
  {
    if envs != [] && s.error == None {
      TickLeavesFrozen(cfg, s, envs[0], k);
      TickKeeps(cfg, s, envs[0]);
      hide Inv, Tick, Frozen;
      TicksLeaveFrozen(cfg, Tick(cfg, s, envs[0]), envs[1..], k);
    }
  }

  lemma NextLeavesFrozen(cfg: Config, s: Ledger, a: Action, k: nat)
    requires Inv(cfg, s) && Frozen(s, k)
    ensures var s' := Next(cfg, s, a); Frozen(s', k) && k < |s'.fill| && s'.fill[k] == s.fill[k]
  {
    if a.Pump? {
      TicksLeaveFrozen(cfg, s, a.ticks + [NOTHING], k);
      hide Ticks;
    }
    hide Quotas, CheckCounts;
  }

  /** Once the step after it has closed, a partition's contents never change again, in any
      continuation. */
  lemma {:induction false} FrozenForEver(cfg: Config, actions: seq<Action>, more: seq<Action>, k: nat)
    requires Frozen(Run(cfg, actions), k)
    ensures Frozen(Run(cfg, actions + more), k)
    ensures k < |Run(cfg, actions).fill| && k < |Run(cfg, actions + more).fill|
    ensures Run(cfg, actions + more).fill[k] == Run(cfg, actions).fill[k]
  {
    RunKeeps(cfg, actions);
    hide Inv, Frozen, Next;
    if more == [] {
      assert actions + more == actions;
      FrozenExists(cfg, Run(cfg, actions), k);
    } else {
      var init, a := more[..|more| - 1], more[|more| - 1];
      assert actions + more == (actions + init) + [a];
      FrozenForEver(cfg, actions, init, k);
      RunKeeps(cfg, actions + init);
      RunOneMore(cfg, actions + init, a);
      NextLeavesFrozen(cfg, Run(cfg, actions + init), a, k);
    }
  }

  lemma FrozenExists(cfg: Config, s: Ledger, k: nat)
    requires Inv(cfg, s) && Frozen(s, k)
    ensures k < |s.fill|
  {}

  /** A partition is full for good if and only if the step after it had backfilled it when its window
      closed. */
  lemma FullIffBackfilled(cfg: Config, actions: seq<Action>, more: seq<Action>)
    requires Run(cfg, actions).steps >= 2 && Run(cfg, actions).windowClosed
    ensures var s, k := Run(cfg, actions), Run(cfg, actions).steps - 2;
            && k < |Run(cfg, actions + more).fill|
            && (Run(cfg, actions + more).fill[k] == cfg.rolloutBatch <==> s.committedPrevious == s.previousQuota)
  {
    var s := Run(cfg, actions);
    RunKeeps(cfg, actions);
    FrozenForEver(cfg, actions, more, s.steps - 2);
    hide Run;
  }

  // ----- a partition left short -----

  // In a run that raised no error partition k holds less than a batch, and will for ever.
  ghost predicate ShortForEver(cfg: Config, actions: seq<Action>, k: nat) {
    && Run(cfg, actions).error == None
    && forall more :: k < |Run(cfg, actions + more).fill| && Run(cfg, actions + more).fill[k] < cfg.rolloutBatch
  }

  // A second step that may close softly, owing all of the first one's batch.
  predicate CanCloseOwing(cfg: Config) { CanCarryDebt(cfg) && cfg.numRollout >= 2 }

  function SecondOpen(cfg: Config, working: nat): Ledger {
    var b := cfg.rolloutBatch;
    Ledger(Open, 2, working, 0, 0, b, b, 0, 0, false, false, b, b, [0, 0], None)
  }

  function SecondPause(cfg: Config): Ledger {
    var b := cfg.rolloutBatch;
    Ledger(Idle, 2, 2 * b, 0, 0, b, b, 0, 0, true, true, b, 2 * b, [0, 0], None)
  }

  lemma OpensSecond(cfg: Config)
    requires CanCloseOwing(cfg)
    ensures Next(cfg, FirstPause(cfg, cfg.rolloutBatch), OpenStep) == SecondOpen(cfg, cfg.rolloutBatch)
  {
    assert [0] + [0] == [0, 0];
  }

  lemma SecondAdmits(cfg: Config, w: nat, n: nat)
    requires CanCloseOwing(cfg) && cfg.rolloutBatch <= w && w + n <= 2 * cfg.rolloutBatch
    ensures Tick(cfg, SecondOpen(cfg, w), Env(n, 0, 0)) == SecondOpen(cfg, w + n)
  {}

  lemma SecondPumps(cfg: Config)
    requires CanCloseOwing(cfg)
    ensures var b := cfg.rolloutBatch;
            Next(cfg, SecondOpen(cfg, b), Pump([Env(b, 0, 0)])) == SecondOpen(cfg, 2 * b)
  {
    var b := cfg.rolloutBatch;
    SecondAdmits(cfg, b, b);
    SecondAdmits(cfg, 2 * b, 0);
    OneTick(cfg, SecondOpen(cfg, b), Env(b, 0, 0));
    hide Tick, PumpOnce;
  }

  lemma SecondCloses(cfg: Config)
    requires CanCloseOwing(cfg)
    ensures var closing := Next(cfg, SecondOpen(cfg, 2 * cfg.rolloutBatch), CheckClose(2 * cfg.rolloutBatch));
            Next(cfg, Next(cfg, closing, Record), Finish) == SecondPause(cfg)
  {}

  // Both steps admit a batch, have all of it interrupted, and close.
  function TwiceSoft(b: nat): seq<Action> {
    ClosedSoft(b) + [OpenStep] + [Pump([Env(b, 0, 0)])] + [CheckClose(2 * b)] + [Record] + [Finish]
  }

  lemma TwiceSoftOwes(cfg: Config)
    requires CanCloseOwing(cfg)
    ensures Run(cfg, TwiceSoft(cfg.rolloutBatch)) == SecondPause(cfg)
  {
    ClosesSoft(cfg);
    OpensSecond(cfg);
    SecondPumps(cfg);
    SecondCloses(cfg);
    var b := cfg.rolloutBatch;
    var soft, pump, check := ClosedSoft(b), Pump([Env(b, 0, 0)]), CheckClose(2 * b);
    assert TwiceSoft(b) == soft + [OpenStep] + [pump] + [check] + [Record] + [Finish];
    hide *;
    RunOneMore(cfg, soft, OpenStep);
    RunOneMore(cfg, soft + [OpenStep], pump);
    RunOneMore(cfg, soft + [OpenStep] + [pump], check);
    RunOneMore(cfg, soft + [OpenStep] + [pump] + [check], Record);
    RunOneMore(cfg, soft + [OpenStep] + [pump] + [check] + [Record], Finish);
  }

  /** Nothing is dropped and nothing is raised, and yet partition 0 stays empty: the second step closed on
      interrupted groups before it had backfilled the first, and the third backfills only the second. */
  lemma SoftCloseForgetsDebt(cfg: Config)
    requires CanCloseOwing(cfg)
    ensures ShortForEver(cfg, TwiceSoft(cfg.rolloutBatch), 0)
  {
    TwiceSoftOwes(cfg);
    var actions := TwiceSoft(cfg.rolloutBatch);
    assert Frozen(SecondPause(cfg), 0) && SecondPause(cfg).fill[0] == 0 < cfg.rolloutBatch;
    hide Run, TwiceSoft, Frozen, SecondPause;
    forall more ensures
      && 0 < |Run(cfg, actions + more).fill| && Run(cfg, actions + more).fill[0] < cfg.rolloutBatch
    {
      FrozenForEver(cfg, actions, more, 0);
    }
  }

  // Every partition closed for good is full, unless some second step can close owing.
  ghost predicate FrozenAreFull(cfg: Config, s: Ledger) {
    forall k: nat | k < |s.fill| && Frozen(s, k) :: s.fill[k] == cfg.rolloutBatch
  }

  lemma NextKeepsFull(cfg: Config, s: Ledger, a: Action)
    requires Inv(cfg, s) && FrozenAreFull(cfg, s) && !CanCloseOwing(cfg)
    ensures FrozenAreFull(cfg, Next(cfg, s, a))
  {
    var s' := Next(cfg, s, a);
    NextKeeps(cfg, s, a);
    forall k: nat | k < |s'.fill| && Frozen(s', k) ensures s'.fill[k] == cfg.rolloutBatch {
      if Frozen(s, k) {
        FrozenExists(cfg, s, k);
        NextLeavesFrozen(cfg, s, a, k);
      } else {
        NewlyFrozen(cfg, s, a, k);
      }
    }
  }

  lemma NewlyFrozen(cfg: Config, s: Ledger, a: Action, k: nat)
    requires Inv(cfg, s) && Inv(cfg, Next(cfg, s, a)) && !CanCloseOwing(cfg)
    requires !Frozen(s, k) && Frozen(Next(cfg, s, a), k)
    ensures k < |Next(cfg, s, a).fill| && Next(cfg, s, a).fill[k] == cfg.rolloutBatch
  {
    if a.Pump? {
      TicksAdvance(cfg, s, a.ticks + [NOTHING]);
      hide Ticks;
    }
  }

  lemma {:induction false} RunKeepsFull(cfg: Config, actions: seq<Action>)
    requires !CanCloseOwing(cfg)
    ensures FrozenAreFull(cfg, Run(cfg, actions))
  {
    if actions != [] {
      var init, a := actions[..|actions| - 1], actions[|actions| - 1];
      RunKeepsFull(cfg, init);
      RunKeeps(cfg, init);
      hide Inv, FrozenAreFull, Next;
      NextKeepsFull(cfg, Run(cfg, init), a);
    }
  }

  // A partition closed for good that is not full.
  ghost predicate LeftShort(cfg: Config, actions: seq<Action>, k: nat) {
    var s := Run(cfg, actions);
    s.error == None && Frozen(s, k) && k < |s.fill| && s.fill[k] < cfg.rolloutBatch
  }

  /** Some run without drops and without errors closes the step after a partition while that partition is
      short, exactly if the run is fully async with at least two rollouts and a positive batch no larger
      than the admission quota; everywhere else every partition so closed is full. */
  lemma PartitionLeftShortIff(cfg: Config)
    ensures (exists actions, k: nat :: NothingDropped(actions) && LeftShort(cfg, actions, k)) <==> CanCloseOwing(cfg)
  {
    if CanCloseOwing(cfg) {
      TwiceSoftOwes(cfg);
      TwiceSoftDropsNothing(cfg.rolloutBatch);
      assert LeftShort(cfg, TwiceSoft(cfg.rolloutBatch), 0);
    } else {
      forall actions, k: nat ensures !LeftShort(cfg, actions, k) {
        RunKeepsFull(cfg, actions);
      }
    }
    hide Run, TwiceSoft, NothingDropped, LeftShort;
  }

  lemma TwiceSoftDropsNothing(b: nat)
    ensures NothingDropped(TwiceSoft(b))
  {}
}
