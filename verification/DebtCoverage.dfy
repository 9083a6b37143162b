/** Runs in which the domains drop nothing keep the debt to the previous partition covered by
    resident groups, through every close and into the next step. */
module DebtCoverage {
  import opened Common
  import opened ResidentLedger

  predicate DropsNothing(a: Action) {
    a.Pump? ==> forall env | env in a.ticks :: env.drop == 0
  }

  predicate NothingDropped(actions: seq<Action>) { forall a | a in actions :: DropsNothing(a) }

  ghost predicate Covered(cfg: Config, s: Ledger) {
    && s.error == None
    && Debt(s) <= Resident(s)
    && (cfg.fullyAsync && s.phase == Closing ==> Owed(s) <= s.working && Owed(s) <= s.interrupted)
    && (cfg.fullyAsync && (s.phase == Sealing || s.phase == Idle) && s.steps > 0 ==>
          s.deficit + Debt(s) <= Resident(s) && s.deficit <= s.interrupted)
  }

  // What a pump cannot change while admission is closed and nothing is dropped.
  ghost predicate Conserved(s: Ledger, s': Ledger) {
    && s'.error == s.error && s'.phase == s.phase && s'.steps == s.steps
    && s'.previousQuota == s.previousQuota && s'.currentQuota == s.currentQuota
    && s'.admissionClosed == s.admissionClosed && s'.windowClosed == s.windowClosed
    && s'.deficit == s.deficit && s'.interrupted == s.interrupted
    && s'.committedPrevious >= s.committedPrevious && s'.committedCurrent >= s.committedCurrent
    && (s.windowClosed ==> Owed(s') == Owed(s) && Debt(s') == Debt(s))
  }

  lemma MoveConserves(s: Ledger, env: Env)
    requires env.drop == 0
    ensures Conserved(s, Move(s, env)) && Resident(Move(s, env)) - Owed(Move(s, env)) == Resident(s) - Owed(s)
  {}

  lemma DispatchConserves(s: Ledger)
    ensures Conserved(s, Dispatch(s)) && Resident(Dispatch(s)) - Owed(Dispatch(s)) == Resident(s) - Owed(s)
    ensures Dispatch(s).working == s.working
    ensures Dispatch(s).completed > 0 ==> Capacity(Dispatch(s)) <= 0
  {}

  lemma CommitConserves(s: Ledger)
    requires s.committedPrevious <= s.previousQuota && s.committedCurrent <= s.currentQuota
    ensures Conserved(s, Commit(s)) && Resident(Commit(s)) - Owed(Commit(s)) == Resident(s) - Owed(s)
    ensures Commit(s).working == s.working && Commit(s).completed == s.completed
    ensures !s.windowClosed && Commit(s).ready > 0 ==> Owed(Commit(s)) == 0
    ensures Resident(s) >= Debt(s) ==> Resident(Commit(s)) >= Debt(Commit(s))
  {}

  // A tick that admits nothing (closed, or none offered) conserves residents against the debt.
  lemma TickConserves(cfg: Config, s: Ledger, env: Env)
    requires Inv(cfg, s) && s.error == None && env.drop == 0
    requires s.admissionClosed
    ensures var s' := Tick(cfg, s, env);
            && Conserved(s, s') && Resident(s') - Owed(s') == Resident(s) - Owed(s)
            && (Debt(s) <= Resident(s) ==> Debt(s') <= Resident(s'))
            && (env == NOTHING && !s.windowClosed && s'.completed > 0 ==> Owed(s') == 0)
            && (!s.windowClosed && s'.ready > 0 ==> Owed(s') == 0)
  {
    hide Inv;
    var moved := Move(s, env);
    MoveConserves(s, env);
    DispatchConserves(moved);
    QuotasRespected(cfg, s);
    CommitConserves(Dispatch(moved));
    CapacityFull(Dispatch(moved));
    hide Move, Dispatch, Commit, Capacity;
    assert Tick(cfg, s, env) == Commit(Dispatch(moved));
  }

  lemma QuotasRespected(cfg: Config, s: Ledger)
    requires Inv(cfg, s)
    ensures s.committedPrevious <= s.previousQuota && s.committedCurrent <= s.currentQuota
  {}

  // Once the transfer buffer covers what is owed, committing settles all of it.
  lemma CapacityFull(s: Ledger)
    requires s.committedPrevious <= s.previousQuota && s.committedCurrent <= s.currentQuota
    ensures !s.windowClosed && Capacity(s) <= 0 ==> Owed(Commit(s)) == 0
  {}

  lemma {:induction false} TicksConserve(cfg: Config, s: Ledger, envs: seq<Env>)
    requires Inv(cfg, s) && s.error == None && s.admissionClosed
    requires forall env | env in envs :: env.drop == 0
    ensures var s' := Ticks(cfg, s, envs);
            && Conserved(s, s') && Resident(s') - Owed(s') == Resident(s) - Owed(s)
            && (Debt(s) <= Resident(s) ==> Debt(s') <= Resident(s'))
            && (envs != [] && envs[|envs| - 1] == NOTHING && !s.windowClosed ==>
                  (s'.completed > 0 || s'.ready > 0 ==> Owed(s') == 0))
    decreases |envs|
  {
    if envs != [] {
      TickConserves(cfg, s, envs[0]);
      TickKeeps(cfg, s, envs[0]);
      hide Inv, Tick;
      TicksConserve(cfg, Tick(cfg, s, envs[0]), envs[1..]);
    }
  }

  // With admission open the debt only needs to stay below the residents.
  lemma TickStaysCovered(cfg: Config, s: Ledger, env: Env)
    requires Inv(cfg, s) && s.error == None && env.drop == 0 && Debt(s) <= Resident(s)
    ensures var s' := Tick(cfg, s, env); s'.error == None && Debt(s') <= Resident(s')
  {
    QuotasRespected(cfg, s);
    var admitted := Admit(cfg, s, env.admit);
    assert admitted.error == None && Debt(admitted) <= Resident(admitted);
    var moved := Move(admitted, env);
    MoveConserves(admitted, env);
    DispatchConserves(moved);
    CommitConserves(Dispatch(moved));
    hide Inv, Admit, Move, Dispatch, Commit;
  }

  lemma {:induction false} TicksStayCovered(cfg: Config, s: Ledger, envs: seq<Env>)
    requires Inv(cfg, s) && s.error == None && Debt(s) <= Resident(s)
    requires forall env | env in envs :: env.drop == 0
    ensures var s' := Ticks(cfg, s, envs); s'.error == None && Debt(s') <= Resident(s')
    decreases |envs|
  {
    if envs != [] {
      TickStaysCovered(cfg, s, envs[0]);
      TickKeeps(cfg, s, envs[0]);
      hide Inv, Tick;
      TicksStayCovered(cfg, Tick(cfg, s, envs[0]), envs[1..]);
    }
  }

  lemma PumpStaysCovered(cfg: Config, s: Ledger, ticks: seq<Env>)
    requires Inv(cfg, s) && Covered(cfg, s)
    requires forall env | env in ticks :: env.drop == 0
    ensures Covered(cfg, PumpOnce(cfg, s, ticks))
  {
    var envs := ticks + [NOTHING];
    TicksKeep(cfg, s, envs);
    TicksStayCovered(cfg, s, envs);
    if s.phase != Open {
      assert s.admissionClosed;
      assert s.phase == Closing ==> !s.windowClosed;
      assert s.steps > 0 && (s.phase == Sealing || s.phase == Idle) ==> s.windowClosed;
      TicksConserve(cfg, s, envs);
      hide Inv, Ticks;
    }
  }

  lemma NextStaysCovered(cfg: Config, s: Ledger, a: Action)
    requires Inv(cfg, s) && Covered(cfg, s) && DropsNothing(a)
    ensures Covered(cfg, Next(cfg, s, a))
  {
    NextKeeps(cfg, s, a);
    match a
    case OpenStep =>
    case Pump(ticks) => PumpStaysCovered(cfg, s, ticks);
    case CheckClose(_) =>
    case Record =>
    case Finish =>
    case Heartbeat =>
  }

  lemma {:induction false} RunStaysCovered(cfg: Config, actions: seq<Action>)
    requires NothingDropped(actions)
    ensures Covered(cfg, Run(cfg, actions))
  {
    if actions != [] {
      var init, last := actions[..|actions| - 1], actions[|actions| - 1];
      assert last in actions;
      RunStaysCovered(cfg, init);
      RunKeeps(cfg, init);
      NextStaysCovered(cfg, Run(cfg, init), last);
    }
  }

  /** In every run without dropped groups the previous partition's debt stays covered by the
      resident groups, so no accounting error is ever raised. */
  lemma {:induction false} DebtIsAlwaysCovered(cfg: Config, actions: seq<Action>)
    requires NothingDropped(actions)
    ensures var s := Run(cfg, actions); s.error == None && Debt(s) <= Resident(s)
  {
    RunStaysCovered(cfg, actions);
  }

  /** At every fully-async close without drops the recorded deficit is still resident, and stays so
      until the next step opens. */
  lemma {:induction false} DeficitIsResident(cfg: Config, actions: seq<Action>)
    requires cfg.fullyAsync && NothingDropped(actions)
    ensures var s := Run(cfg, actions);
            s.steps > 0 && (s.phase == Sealing || s.phase == Idle) ==>
              s.deficit <= s.interrupted && s.deficit <= Resident(s)
  {
    RunStaysCovered(cfg, actions);
    RunKeeps(cfg, actions);
  }

  // ----- what holds at a close whatever was dropped -----

  // A pump leaves the step, its quota, its records and its window alone, and never takes back a
  // commit.
  ghost predicate Advances(s: Ledger, s': Ledger) {
    && s'.phase == s.phase && s'.steps == s.steps && s'.currentQuota == s.currentQuota
    && s'.deficit == s.deficit && s'.interrupted == s.interrupted && s'.windowClosed == s.windowClosed
    && s'.committedCurrent >= s.committedCurrent
  }

  lemma TickAdvances(cfg: Config, s: Ledger, env: Env)
    requires Inv(cfg, s)
    ensures Advances(s, Tick(cfg, s, env))
  {
    QuotasRespected(cfg, s);
    hide Inv, CheckCounts, Slack;
  }

  lemma {:induction false} TicksAdvance(cfg: Config, s: Ledger, envs: seq<Env>)
    requires Inv(cfg, s)
    ensures Advances(s, Ticks(cfg, s, envs))
    decreases |envs|
  {
    if envs != [] && s.error == None {
      TickAdvances(cfg, s, envs[0]);
      TickKeeps(cfg, s, envs[0]);
      hide Inv, Tick;
      TicksAdvance(cfg, Tick(cfg, s, envs[0]), envs[1..]);
    }
  }

  // From the check that closes a step on, what it is short of was interrupted then.
  ghost predicate ClosedSoftly(cfg: Config, s: Ledger) {
    cfg.fullyAsync && s.steps > 0 ==>
      && (s.phase == Closing ==> s.currentQuota - s.committedCurrent <= s.interrupted)
      && (s.phase == Sealing || s.phase == Idle || s.phase == Down ==> s.deficit <= s.interrupted)
  }

  lemma NextClosesSoftly(cfg: Config, s: Ledger, a: Action)
    requires Inv(cfg, s) && ClosedSoftly(cfg, s)
    ensures ClosedSoftly(cfg, Next(cfg, s, a))
  {
    QuotasRespected(cfg, s);
    match a
    case Pump(ticks) =>
      TicksAdvance(cfg, s, ticks + [NOTHING]);
      hide Ticks, Inv;
    case _ =>
  }

  /** At every fully-async close, whatever was dropped before or since, the recorded deficit is at
      most the interrupted groups counted by the check that closed the step. */
  lemma {:induction false} DeficitWithinInterrupted(cfg: Config, actions: seq<Action>)
    requires cfg.fullyAsync
    ensures var s := Run(cfg, actions);
            s.steps > 0 && (s.phase == Sealing || s.phase == Idle || s.phase == Down) ==>
              s.deficit == s.currentQuota - s.committedCurrent && s.deficit <= s.interrupted
  {
    RunKeeps(cfg, actions);
    RunClosesSoftly(cfg, actions);
  }

  lemma {:induction false} RunClosesSoftly(cfg: Config, actions: seq<Action>)
    ensures ClosedSoftly(cfg, Run(cfg, actions))
  {
    if actions != [] {
      var init := actions[..|actions| - 1];
      RunClosesSoftly(cfg, init);
      RunKeeps(cfg, init);
      NextClosesSoftly(cfg, Run(cfg, init), actions[|actions| - 1]);
      hide Next, Inv;
    }
  }
}
