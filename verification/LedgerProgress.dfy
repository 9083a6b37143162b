/** The resident pipeline can always go on: when a step may close, that it can always be brought there,
    and exactly under which admission quota a run can be completed from wherever it is. */
module LedgerProgress {
  import opened Common
  import opened ResidentLedger
  import opened DebtCoverage

  // ----- when a step closes -----

  // How many groups a closing check forgives: the interrupted ones, but in the backfill step none.
  function Forgiven(cfg: Config, s: Ledger, interrupted: nat): nat {
    if cfg.fullyAsync && !Final(cfg, s) then interrupted else 0
  }

  /** In every run an open step passes its closing check if and only if what it still owes to its two
      partitions together is at most what is forgiven: so always once its quotas are met, and, without
      full asynchrony or in the backfill step, never before. */
  lemma ClosesIffSettled(cfg: Config, actions: seq<Action>, interrupted: nat)
    requires var s := Run(cfg, actions); s.error == None && s.phase == Open && interrupted <= s.working
    ensures var s := Run(cfg, actions);
            Run(cfg, actions + [CheckClose(interrupted)]).phase ==
              if Owed(s) <= Forgiven(cfg, s, interrupted) then Closing else Open
  {
    RunKeeps(cfg, actions);
    RunPush(cfg, actions, CheckClose(interrupted));
    hide Run;
  }

  lemma RunPush(cfg: Config, actions: seq<Action>, a: Action)
    ensures Run(cfg, actions + [a]) == Next(cfg, Run(cfg, actions), a)
  {
    assert (actions + [a])[..|actions|] == actions;
    hide Next;
  }

  // ----- one pump settles a step -----

  // A tick that offers all the quota admits, and finishes whatever the domains then hold.
  function Generous(cfg: Config, s: Ledger): Env { Env(cfg.overSampling, s.working + cfg.overSampling, 0) }

  // Enough is admitted to cover what the step owes.
  lemma AdmitCovers(cfg: Config, s: Ledger)
    requires Inv(cfg, s) && s.error == None && s.phase == Open && Debt(s) <= Resident(s)
    requires cfg.rolloutBatch <= cfg.overSampling
    ensures var s' := Admit(cfg, s, cfg.overSampling);
            && s' == s.(working := s'.working) && s'.working <= s.working + cfg.overSampling
            && Resident(s') >= Owed(s')
  {}

  lemma CommitSettles(s: Ledger)
    requires s.committedPrevious <= s.previousQuota && s.committedCurrent <= s.currentQuota
    requires !s.windowClosed && s.completed + s.ready >= Owed(s)
    ensures Owed(Commit(Dispatch(s))) == 0
  {
    assert Dispatch(s).ready >= Owed(s) && Owed(Dispatch(s)) == Owed(s);
    hide Dispatch;
  }

  lemma TickSettles(cfg: Config, s: Ledger)
    requires Inv(cfg, s) && s.error == None && s.phase == Open && Debt(s) <= Resident(s)
    requires cfg.rolloutBatch <= cfg.overSampling
    ensures Owed(Tick(cfg, s, Generous(cfg, s))) == 0
  {
    QuotasRespected(cfg, s);
    AdmitCovers(cfg, s);
    assert !s.windowClosed;
    var admitted := Admit(cfg, s, cfg.overSampling);
    var moved := Move(admitted, Generous(cfg, s));
    assert moved == admitted.(working := 0, completed := admitted.completed + admitted.working);
    hide Inv, Admit, Move;
    CommitSettles(moved);
    hide Dispatch, Commit;
  }

  // Nothing more is owed, whatever a further tick does.
  lemma TickStaysSettled(cfg: Config, s: Ledger, env: Env)
    requires Inv(cfg, s) && Owed(s) == 0
    ensures Owed(Tick(cfg, s, env)) == 0
  {
    QuotasRespected(cfg, s);
    hide Inv, CheckCounts, Slack;
  }

  lemma PumpSettles(cfg: Config, s: Ledger)
    requires Inv(cfg, s) && s.error == None && s.phase == Open && Debt(s) <= Resident(s)
    requires cfg.rolloutBatch <= cfg.overSampling
    ensures var s' := Next(cfg, s, Pump([Generous(cfg, s)]));
            s'.error == None && s'.phase == Open && s'.steps == s.steps && Owed(s') == 0
  {
    var env := Generous(cfg, s);
    var envs, once := [env] + [NOTHING], Tick(cfg, s, env);
    assert envs[1..] == [NOTHING] && [NOTHING][1..] == [] && envs[0] == env;
    TickSettles(cfg, s);
    TickKeeps(cfg, s, env);
    TickStaysCovered(cfg, s, env);
    TickStaysSettled(cfg, once, NOTHING);
    TickStaysCovered(cfg, once, NOTHING);
    TickKeeps(cfg, once, NOTHING);
    TickAdvances(cfg, s, env);
    TickAdvances(cfg, once, NOTHING);
    hide Inv, Tick;
    assert Ticks(cfg, once, [NOTHING]) == Ticks(cfg, Tick(cfg, once, NOTHING), []);
  }

  // ----- to the end from anywhere -----

  // How far a run is from its end, in steps of the cycle of phases.
  function Ahead(cfg: Config, s: Ledger): int {
    4 * (cfg.numRollout + 1 - s.steps)
    + match s.phase case Open => 3 case Closing => 2 case Sealing => 1 case Idle => 0 case Down => -1
  }

  lemma SomethingToOpen(cfg: Config, s: Ledger)
    requires Inv(cfg, s) && s.phase == Idle && cfg.numRollout >= 1
    ensures MayOpen(cfg, s)
  {}

  lemma BoundaryGoesOn(cfg: Config, s: Ledger, a: Action)
    requires Inv(cfg, s) && s.error == None && a == BoundaryAction(s) && s.phase != Down && s.phase != Open
    requires s.phase == Idle ==> MayOpen(cfg, s)
    ensures var s' := Next(cfg, s, a); Ahead(cfg, s') < Ahead(cfg, s)
  {
    hide CheckCounts;
  }

  function BoundaryAction(s: Ledger): Action {
    match s.phase case Closing => Record case Sealing => Finish case _ => OpenStep
  }

  lemma AheadIsNatural(cfg: Config, s: Ledger)
    requires Inv(cfg, s)
    ensures Ahead(cfg, s) >= -1
  {}

  lemma MoreDropsNothing(actions: seq<Action>, more: seq<Action>)
    requires NothingDropped(actions) && NothingDropped(more)
    ensures NothingDropped(actions + more)
  {
    hide DropsNothing;
  }

  // From wherever a run without drops is, one or two more actions bring it nearer to its end.
  lemma GoesOn(cfg: Config, actions: seq<Action>) returns (next: seq<Action>)
    requires NothingDropped(actions) && cfg.numRollout >= 1 && cfg.rolloutBatch <= cfg.overSampling
    requires Run(cfg, actions).phase != Down
    ensures NothingDropped(next) && Ahead(cfg, Run(cfg, actions + next)) < Ahead(cfg, Run(cfg, actions))
  {
    var s := Run(cfg, actions);
    RunKeeps(cfg, actions);
    DebtIsAlwaysCovered(cfg, actions);
    if s.phase == Open {
      var pump := Pump([Generous(cfg, s)]);
      PumpSettles(cfg, s);
      RunPush(cfg, actions, pump);
      ClosesIffSettled(cfg, actions + [pump], 0);
      SameStep(cfg, actions + [pump]);
      next := [pump] + [CheckClose(0)];
      assert actions + next == actions + [pump] + [CheckClose(0)];
      hide Run, Inv, Next, Owed, Debt, Resident;
    } else {
      if s.phase == Idle {
        SomethingToOpen(cfg, s);
      }
      BoundaryGoesOn(cfg, s, BoundaryAction(s));
      RunPush(cfg, actions, BoundaryAction(s));
      next := [BoundaryAction(s)];
      hide Run, Inv, Next, Ahead, Debt, Resident;
    }
  }

  lemma SameStep(cfg: Config, actions: seq<Action>)
    ensures Run(cfg, actions + [CheckClose(0)]).steps == Run(cfg, actions).steps
  {
    RunPush(cfg, actions, CheckClose(0));
    hide Run;
  }

  /** From every state a run without drops can be in, some continuation without drops completes it: every
      step opened, settled and closed, the last partition full, and no error on the way. */
  lemma {:induction false} CanAlwaysComplete(cfg: Config, actions: seq<Action>) returns (more: seq<Action>)
    requires NothingDropped(actions) && cfg.numRollout >= 1 && cfg.rolloutBatch <= cfg.overSampling
    ensures NothingDropped(more)
    ensures var s := Run(cfg, actions + more);
            && s.phase == Down && s.error == None && cfg.numRollout - 1 < |s.fill|
            && s.fill[cfg.numRollout - 1] == cfg.rolloutBatch
    decreases Ahead(cfg, Run(cfg, actions)) + 1
  {
    RunKeeps(cfg, actions);
    AheadIsNatural(cfg, Run(cfg, actions));
    if Run(cfg, actions).phase == Down {
      more := [];
      assert actions + more == actions;
      DebtIsAlwaysCovered(cfg, actions);
      TerminalMeansComplete(cfg, actions);
    } else {
      hide Inv, Run, Ahead;
      var next := GoesOn(cfg, actions);
      MoreDropsNothing(actions, next);
      var rest := CanAlwaysComplete(cfg, actions + next);
      MoreDropsNothing(next, rest);
      more := next + rest;
      assert actions + next + rest == actions + more;
    }
  }

  ghost predicate CanComplete(cfg: Config, actions: seq<Action>) {
    exists more :: Run(cfg, actions + more).phase == Down
  }

  lemma NeverLeavesFirstStep(cfg: Config, s: Ledger)
    requires Inv(cfg, s) && cfg.overSampling < cfg.rolloutBatch && cfg.numRollout > 0
    ensures s.phase != Down
  {}

  /** A run without drops can be completed from wherever it is if and only if the admission quota is at
      least the rollout batch. */
  lemma CanCompleteIffQuotaSuffices(cfg: Config)
    requires cfg.numRollout >= 1
    ensures (forall actions | NothingDropped(actions) :: CanComplete(cfg, actions)) <==>
      cfg.rolloutBatch <= cfg.overSampling
  {
    if cfg.rolloutBatch <= cfg.overSampling {
      forall actions | NothingDropped(actions) ensures CanComplete(cfg, actions) {
        var more := CanAlwaysComplete(cfg, actions);
      }
    } else {
      assert NothingDropped([]);
      forall more ensures Run(cfg, [] + more).phase != Down {
        RunKeeps(cfg, [] + more);
        NeverLeavesFirstStep(cfg, Run(cfg, [] + more));
      }
      assert !CanComplete(cfg, []);
    }
    hide NothingDropped, Run;
  }

  // ----- what is carried over -----

  predicate Carries(cfg: Config) { cfg.partialRollout || cfg.fullyAsync }

  // Between steps nothing is resident where nothing is carried, and nothing at all once a run is over.
  ghost predicate TailGone(cfg: Config, s: Ledger) {
    s.phase == Down || (s.phase == Idle && !Carries(cfg)) ==> Resident(s) == 0
  }

  lemma {:induction false} TicksKeepEmpty(cfg: Config, s: Ledger, envs: seq<Env>)
    requires Inv(cfg, s) && s.phase != Open && Resident(s) == 0
    ensures Resident(Ticks(cfg, s, envs)) == 0
    decreases |envs|
  {
    if envs != [] && s.error == None {
      TickKeepsEmpty(cfg, s, envs[0]);
      TickKeeps(cfg, s, envs[0]);
      hide Inv, Tick;
      TicksKeepEmpty(cfg, Tick(cfg, s, envs[0]), envs[1..]);
    }
  }

  lemma TickKeepsEmpty(cfg: Config, s: Ledger, env: Env)
    requires Inv(cfg, s) && s.phase != Open && Resident(s) == 0
    ensures Resident(Tick(cfg, s, env)) == 0
  {
    assert s.admissionClosed;
    hide Inv, CheckCounts;
  }

  lemma NextKeepsTailGone(cfg: Config, s: Ledger, a: Action)
    requires Inv(cfg, s) && TailGone(cfg, s)
    ensures TailGone(cfg, Next(cfg, s, a))
  {
    if a.Pump? {
      TicksKeep(cfg, s, a.ticks + [NOTHING]);
      if s.phase == Idle && !Carries(cfg) {
        TicksKeepEmpty(cfg, s, a.ticks + [NOTHING]);
      }
      hide Inv, Ticks;
    }
  }

  /** In every run, drops included: where neither partial rollout nor full asynchrony carries groups over,
      none is resident between two steps; and none is once the pipeline is shut down. */
  lemma {:induction false} NothingIsLeftOver(cfg: Config, actions: seq<Action>)
    ensures TailGone(cfg, Run(cfg, actions))
  {
    if actions != [] {
      var init := actions[..|actions| - 1];
      NothingIsLeftOver(cfg, init);
      RunKeeps(cfg, init);
      hide Inv, TailGone, Next;
      NextKeepsTailGone(cfg, Run(cfg, init), actions[|actions| - 1]);
    }
  }

  /** Otherwise recording and sealing a step lose exactly the groups whose reward is done but which no
      partition took, and carry all others. */
  lemma TheRestIsCarried(cfg: Config, actions: seq<Action>)
    requires var s := Run(cfg, actions); s.error == None && s.phase == Closing && Carries(cfg)
    ensures var s, s' := Run(cfg, actions), Run(cfg, actions + [Record] + [Finish]);
            s'.phase != Down ==>
              Resident(s') == Resident(s) - s.completed && s'.working == s.working && s'.ready == s.ready
  {
    RunPush(cfg, actions, Record);
    RunPush(cfg, actions + [Record], Finish);
    hide Run, CheckCounts;
  }
}
