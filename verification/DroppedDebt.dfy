/** What dropped groups do to the resident pipeline's ledger: the debt carried to the next step may
    no longer be covered, and exactly which configurations are exposed to that. */
module DroppedDebt {
  import opened Common
  import opened ResidentLedger

  // A batch of groups is admitted and counted as interrupted, and the step closes...
  function ClosedSoft(b: nat): seq<Action> {
    [] + [OpenStep] + [Pump([Env(b, 0, 0)])] + [CheckClose(b)] + [Record] + [Finish]
  }

  // ...and all of it is dropped before the next step opens.
  function Dropped(b: nat): seq<Action> { ClosedSoft(b) + [Pump([Env(0, 0, b)])] + [OpenStep] }

  predicate CanCarryDebt(cfg: Config) {
    cfg.fullyAsync && 0 < cfg.rolloutBatch <= cfg.overSampling && cfg.numRollout > 0
  }

  lemma RunOneMore(cfg: Config, actions: seq<Action>, a: Action)
    ensures Run(cfg, actions + [a]) == Next(cfg, Run(cfg, actions), a)
  {
    assert (actions + [a])[..|actions + [a]| - 1] == actions;
    hide Next;
  }

  lemma OneTick(cfg: Config, s: Ledger, env: Env)
    requires s.error == None && Tick(cfg, s, env).error == None
    ensures PumpOnce(cfg, s, [env]) == Tick(cfg, Tick(cfg, s, env), NOTHING)
  {
    assert [env] + [NOTHING] == [env, NOTHING] && [env, NOTHING][1..] == [NOTHING];
    assert Ticks(cfg, Tick(cfg, s, env), [NOTHING]) == Ticks(cfg, Tick(cfg, Tick(cfg, s, env), NOTHING), []);
    hide Tick;
  }

  // The states of that run: the first step open, and the pause after it.
  function FirstOpen(cfg: Config, working: nat): Ledger {
    Ledger(Open, 1, working, 0, 0, 0, cfg.rolloutBatch, 0, 0, false, false, 0, 0, [0], None)
  }

  function FirstPause(cfg: Config, working: nat): Ledger {
    Ledger(Idle, 1, working, 0, 0, 0, cfg.rolloutBatch, 0, 0, true, true, cfg.rolloutBatch, cfg.rolloutBatch, [0], None)
  }

  lemma TickAdmits(cfg: Config, w: nat, n: nat)
    requires CanCarryDebt(cfg) && w + n <= cfg.rolloutBatch
    ensures Tick(cfg, FirstOpen(cfg, w), Env(n, 0, 0)) == FirstOpen(cfg, w + n)
  {}

  lemma TickDrops(cfg: Config, w: nat, n: nat)
    requires CanCarryDebt(cfg) && n <= w
    ensures Tick(cfg, FirstPause(cfg, w), Env(0, 0, n)) == FirstPause(cfg, w - n)
  {}

  lemma AdmitsBatch(cfg: Config)
    requires CanCarryDebt(cfg)
    ensures Next(cfg, FirstOpen(cfg, 0), Pump([Env(cfg.rolloutBatch, 0, 0)])) == FirstOpen(cfg, cfg.rolloutBatch)
  {
    TickAdmits(cfg, 0, cfg.rolloutBatch);
    TickAdmits(cfg, cfg.rolloutBatch, 0);
    OneTick(cfg, FirstOpen(cfg, 0), Env(cfg.rolloutBatch, 0, 0));
    hide Tick, PumpOnce;
  }

  lemma DropsBatch(cfg: Config)
    requires CanCarryDebt(cfg)
    ensures Next(cfg, FirstPause(cfg, cfg.rolloutBatch), Pump([Env(0, 0, cfg.rolloutBatch)])) == FirstPause(cfg, 0)
  {
    TickDrops(cfg, cfg.rolloutBatch, cfg.rolloutBatch);
    TickDrops(cfg, 0, 0);
    OneTick(cfg, FirstPause(cfg, cfg.rolloutBatch), Env(0, 0, cfg.rolloutBatch));
    hide Tick, PumpOnce;
  }

  lemma Closes(cfg: Config)
    requires CanCarryDebt(cfg)
    ensures var closing := Next(cfg, FirstOpen(cfg, cfg.rolloutBatch), CheckClose(cfg.rolloutBatch));
            Next(cfg, Next(cfg, closing, Record), Finish) == FirstPause(cfg, cfg.rolloutBatch)
  {}

  lemma Opens(cfg: Config)
    requires CanCarryDebt(cfg)
    ensures Next(cfg, Init(cfg), OpenStep) == FirstOpen(cfg, 0)
    ensures Next(cfg, FirstPause(cfg, 0), OpenStep).error == Some(DebtUncovered)
  {}

  lemma ClosesSoft(cfg: Config)
    requires CanCarryDebt(cfg)
    ensures Run(cfg, ClosedSoft(cfg.rolloutBatch)) == FirstPause(cfg, cfg.rolloutBatch)
  {
    Opens(cfg);
    AdmitsBatch(cfg);
    Closes(cfg);
    assert Run(cfg, []) == Init(cfg);
    var b, pump := cfg.rolloutBatch, Pump([Env(cfg.rolloutBatch, 0, 0)]);
    assert ClosedSoft(b) == [] + [OpenStep] + [pump] + [CheckClose(b)] + [Record] + [Finish];
    hide *;
    RunOneMore(cfg, [], OpenStep);
    RunOneMore(cfg, [] + [OpenStep], pump);
    RunOneMore(cfg, [] + [OpenStep] + [pump], CheckClose(b));
    RunOneMore(cfg, [] + [OpenStep] + [pump] + [CheckClose(b)], Record);
    RunOneMore(cfg, [] + [OpenStep] + [pump] + [CheckClose(b)] + [Record], Finish);
  }

  lemma DropsUncoverTheDebt(cfg: Config)
    requires CanCarryDebt(cfg)
    ensures Run(cfg, Dropped(cfg.rolloutBatch)).error == Some(DebtUncovered)
  {
    Opens(cfg);
    ClosesSoft(cfg);
    DropsBatch(cfg);
    var soft, drop := ClosedSoft(cfg.rolloutBatch), Pump([Env(0, 0, cfg.rolloutBatch)]);
    assert Dropped(cfg.rolloutBatch) == soft + [drop] + [OpenStep];
    hide *;
    RunOneMore(cfg, soft, drop);
    RunOneMore(cfg, soft + [drop], OpenStep);
  }

  /** Once groups may be dropped, some run opens a step owing groups that are no longer there,
      exactly under the configurations that can carry a debt at all. */
  lemma {:induction false} DebtCanBeUncoveredIff(cfg: Config)
    ensures (exists actions :: Run(cfg, actions).error == Some(DebtUncovered)) <==> CanCarryDebt(cfg)
  {
    if CanCarryDebt(cfg) {
      DropsUncoverTheDebt(cfg);
    } else {
      forall actions ensures Run(cfg, actions).error != Some(DebtUncovered) {
        RunKeeps(cfg, actions);
        OnlyThenIsThereDebt(cfg, Run(cfg, actions));
      }
    }
    hide Run, Dropped;
  }

  lemma OnlyThenIsThereDebt(cfg: Config, s: Ledger)
    requires Inv(cfg, s) && !CanCarryDebt(cfg)
    ensures s.error != Some(DebtUncovered)
  {}
}
