/** The group ledger of the resident agentic pipeline over whole runs: admission against the
    over-sampling quota, FIFO commits into the previous and the current partition, soft close,
    and the deficit carried to the next step.  Groups are counted by the domain holding them:
    working (runtime, or reward not yet done), completed (reward done), ready (transfer buffer).
    What the domains do in between is arbitrary within what they own. */
module ResidentLedger {
  import opened Common

  datatype Config = Config(
    rolloutBatch: nat, overSampling: nat, numRollout: nat, fullyAsync: bool, partialRollout: bool)

  datatype Phase = Idle | Open | Closing | Sealing | Down

  datatype Error = PreviousOvercommitted | DebtUncovered | OverAdmitted

  datatype Ledger = Ledger(
    phase: Phase,
    steps: nat,               // steps opened so far; the active one is steps - 1
    working: nat, completed: nat, ready: nat,
    previousQuota: nat, currentQuota: nat, committedPrevious: nat, committedCurrent: nat,
    admissionClosed: bool, windowClosed: bool,
    deficit: nat,             // what the last recorded step left short of its target
    interrupted: nat,         // interrupted groups counted by the check that closed the step
    fill: seq<nat>,           // groups committed to each partition
    error: Option<Error>)

  // One tick of the pump: how many groups the domains happen to admit, finish and drop.
  datatype Env = Env(admit: nat, finish: nat, drop: nat)

  datatype Action =
    | OpenStep
    | Pump(ticks: seq<Env>)
    | CheckClose(interrupted: nat)
    | Record
    | Finish
    | Heartbeat

  function Init(cfg: Config): Ledger {
    Ledger(Idle, 0, 0, 0, 0, 0, cfg.rolloutBatch, 0, 0, true, false, 0, 0, [], None)
  }

  function Resident(s: Ledger): nat { s.working + s.completed + s.ready }

  function Debt(s: Ledger): int { s.previousQuota - s.committedPrevious }

  // Groups the step still owes to its two partitions.
  function Owed(s: Ledger): int { Debt(s) + s.currentQuota - s.committedCurrent }

  function Slack(cfg: Config, s: Ledger): int {
    cfg.overSampling - (s.committedCurrent + Resident(s) - Debt(s))
  }

  // The checks that raise, in the order they are made.
  function CheckCounts(cfg: Config, s: Ledger): Option<Error> {
    if Debt(s) < 0 then Some(PreviousOvercommitted)
    else if Resident(s) < Debt(s) then Some(DebtUncovered)
    else if Slack(cfg, s) < 0 then Some(OverAdmitted)
    else None
  }

  predicate Final(cfg: Config, s: Ledger) { cfg.fullyAsync && s.steps > cfg.numRollout }

  predicate Terminal(cfg: Config, s: Ledger) { s.steps >= cfg.numRollout }

  // ----- one tick of the pump -----

  function Admit(cfg: Config, s: Ledger, n: nat): Ledger {
    if s.admissionClosed then s
    else if CheckCounts(cfg, s).Some? then s.(error := CheckCounts(cfg, s))
    else s.(working := s.working + Min(n, Min(cfg.overSampling, Slack(cfg, s))))
  }

  function Move(s: Ledger, env: Env): Ledger {
    var finished := Min(env.finish, s.working);
    var dropped := Min(env.drop, s.working - finished);
    s.(working := s.working - finished - dropped, completed := s.completed + finished)
  }

  function Capacity(s: Ledger): int {
    s.previousQuota + s.currentQuota - (s.committedPrevious + s.committedCurrent) - s.ready
  }

  function Dispatch(s: Ledger): Ledger {
    var n := Min(s.completed, Max(Capacity(s), 0));
    s.(completed := s.completed - n, ready := s.ready + n)
  }

  function ToPrevious(s: Ledger): nat { Min(s.ready, Max(Debt(s), 0)) }

  function ToCurrent(s: Ledger): nat {
    Min(s.ready - ToPrevious(s), Max(s.currentQuota - s.committedCurrent, 0))
  }

  function Add(fill: seq<nat>, k: int, n: nat): seq<nat> {
    if 0 <= k < |fill| then fill[k := fill[k] + n] else fill
  }

  function Commit(s: Ledger): Ledger {
    if s.windowClosed || s.ready == 0 then s
    else
      var p, c := ToPrevious(s), ToCurrent(s);
      s.(ready := s.ready - p - c,
         committedPrevious := s.committedPrevious + p,
         committedCurrent := s.committedCurrent + c,
         fill := Add(Add(s.fill, s.steps - 2, p), s.steps - 1, c))
  }

  function Tick(cfg: Config, s: Ledger, env: Env): Ledger {
    var admitted := Admit(cfg, s, env.admit);
    if admitted.error.Some? then admitted else Commit(Dispatch(Move(admitted, env)))
  }

  function Ticks(cfg: Config, s: Ledger, envs: seq<Env>): Ledger
    decreases |envs|
  {
    if envs == [] || s.error.Some? then s else Ticks(cfg, Tick(cfg, s, envs[0]), envs[1..])
  }

  const NOTHING := Env(0, 0, 0)

  // The pump holds the lock until a tick moves nothing.
  function PumpOnce(cfg: Config, s: Ledger, envs: seq<Env>): Ledger {
    Ticks(cfg, s, envs + [NOTHING])
  }

  // ----- the step boundary -----

  function Opened(cfg: Config, s: Ledger): Ledger {
    s.(phase := Open,
       steps := s.steps + 1,
       previousQuota := if cfg.fullyAsync then s.deficit else 0,
       currentQuota := if cfg.fullyAsync && s.steps >= cfg.numRollout then 0 else cfg.rolloutBatch,
       committedPrevious := 0, committedCurrent := 0,
       admissionClosed := false, windowClosed := false,
       fill := s.fill + [0])
  }

  predicate MayClose(cfg: Config, s: Ledger, interrupted: nat) {
    if Final(cfg, s) then s.committedPrevious >= s.previousQuota
    else if cfg.fullyAsync then
      s.committedPrevious + s.committedCurrent + interrupted >= s.previousQuota + s.currentQuota
    else s.committedPrevious >= s.previousQuota && s.committedCurrent >= s.currentQuota
  }

  function Recorded(s: Ledger): Ledger {
    s.(phase := Sealing, windowClosed := true, completed := 0,
       deficit := Max(s.currentQuota - s.committedCurrent, 0))
  }

  predicate LifecycleTerminal(cfg: Config, s: Ledger) { Terminal(cfg, s) && s.deficit == 0 }

  function Finished(cfg: Config, s: Ledger): Ledger {
    var tail := if LifecycleTerminal(cfg, s) || !(cfg.partialRollout || cfg.fullyAsync)
                then s.(working := 0, completed := 0, ready := 0) else s;
    tail.(phase := if LifecycleTerminal(cfg, s) then Down else Idle, error := CheckCounts(cfg, tail))
  }

  // Whether rollout asks for another step: all of them, then at most one backfill step.
  predicate MayOpen(cfg: Config, s: Ledger) {
    s.phase == Idle && (s.steps < cfg.numRollout || (s.steps == cfg.numRollout && cfg.fullyAsync))
  }

  // An error ends the run; an action out of turn changes nothing.
  function Next(cfg: Config, s: Ledger, a: Action): Ledger {
    if s.error.Some? then s
    else match a
      case OpenStep =>
        if MayOpen(cfg, s) then Opened(cfg, s).(error := CheckCounts(cfg, Opened(cfg, s))) else s
      case Pump(ticks) => if s.phase == Down then s else PumpOnce(cfg, s, ticks)
      case CheckClose(interrupted) =>
        if s.phase == Open && interrupted <= s.working && MayClose(cfg, s, interrupted)
        then s.(phase := Closing, admissionClosed := true, interrupted := interrupted) else s
      case Record => if s.phase == Closing then Recorded(s) else s
      case Finish => if s.phase == Sealing then Finished(cfg, s) else s
      case Heartbeat => if s.phase == Open then s.(error := CheckCounts(cfg, s)) else s
  }

  function Run(cfg: Config, actions: seq<Action>): Ledger {
    if actions == [] then Init(cfg)
    else Next(cfg, Run(cfg, actions[..|actions| - 1]), actions[|actions| - 1])
  }

  // ----- what every run keeps, drops included -----

  ghost predicate Quotas(cfg: Config, s: Ledger) {
    && s.committedPrevious <= s.previousQuota <= cfg.rolloutBatch
    && s.committedCurrent <= s.currentQuota
    && s.currentQuota == (if Final(cfg, s) then 0 else cfg.rolloutBatch)
    && (s.committedCurrent > 0 ==> s.committedPrevious == s.previousQuota)
    && (!cfg.fullyAsync ==> s.previousQuota == 0)
    && Slack(cfg, s) >= 0
    && s.error != Some(PreviousOvercommitted) && s.error != Some(OverAdmitted)
    && (s.error == Some(DebtUncovered) ==> s.previousQuota > 0)
  }

  ghost predicate Fills(cfg: Config, s: Ledger) {
    && |s.fill| == s.steps
    && (forall k | 0 <= k < |s.fill| :: s.fill[k] <= cfg.rolloutBatch)
    && (s.steps >= 1 ==> s.fill[s.steps - 1] == s.committedCurrent)
    && (s.steps >= 2 ==> s.fill[s.steps - 2] + Debt(s) == cfg.rolloutBatch)
  }

  // With too small an admission quota the first step can never close.
  ghost predicate StaysInFirstStep(s: Ledger) {
    s.steps <= 1 && if s.steps == 0 then s.phase == Idle else s.phase == Open
  }

  ghost predicate Phases(cfg: Config, s: Ledger) {
    && (s.phase == Open ==> !s.admissionClosed)
    && (s.phase != Open ==> s.admissionClosed)
    && (s.steps == 0 ==> s.phase == Idle && Resident(s) == 0 && s.deficit == 0 && s.previousQuota == 0)
    && (s.phase == Open || s.phase == Closing ==> !s.windowClosed)
    && (s.steps > 0 && (s.phase == Sealing || s.phase == Idle || s.phase == Down) ==>
          s.windowClosed && s.deficit == s.currentQuota - s.committedCurrent)
    && (s.phase != Open && Final(cfg, s) ==> s.committedPrevious == s.previousQuota)
    && (s.phase != Open && s.steps > 0 && !cfg.fullyAsync ==> s.committedCurrent == s.currentQuota)
    && (s.steps > 0 && s.phase == Idle ==> !LifecycleTerminal(cfg, s))
    && (s.phase == Down ==> LifecycleTerminal(cfg, s))
    && (s.steps <= 1 ==> s.previousQuota == 0)
    && (cfg.overSampling < cfg.rolloutBatch && cfg.numRollout > 0 ==> StaysInFirstStep(s))
    && s.steps <= cfg.numRollout + 1
    && (!cfg.fullyAsync ==> s.steps <= cfg.numRollout)
  }

  ghost predicate Inv(cfg: Config, s: Ledger) { Quotas(cfg, s) && Fills(cfg, s) && Phases(cfg, s) }

  lemma AdmitKeeps(cfg: Config, s: Ledger, n: nat)
    requires Inv(cfg, s)
    ensures Inv(cfg, Admit(cfg, s, n)) && Admit(cfg, s, n).phase == s.phase
  {}

  lemma MoveKeeps(cfg: Config, s: Ledger, env: Env)
    requires Inv(cfg, s)
    ensures Inv(cfg, Move(s, env)) && Move(s, env).phase == s.phase
  {}

  lemma DispatchKeeps(cfg: Config, s: Ledger)
    requires Inv(cfg, s)
    ensures Inv(cfg, Dispatch(s)) && Dispatch(s).phase == s.phase
  {}

  lemma CommitKeeps(cfg: Config, s: Ledger)
    requires Inv(cfg, s)
    ensures Inv(cfg, Commit(s)) && Commit(s).phase == s.phase
  {}

  lemma {:induction false} TickKeeps(cfg: Config, s: Ledger, env: Env)
    requires Inv(cfg, s)
    ensures Inv(cfg, Tick(cfg, s, env))
    ensures Tick(cfg, s, env).phase == s.phase
  {
    hide Inv, Admit, Move, Dispatch, Commit;
    AdmitKeeps(cfg, s, env.admit);
    var admitted := Admit(cfg, s, env.admit);
    MoveKeeps(cfg, admitted, env);
    DispatchKeeps(cfg, Move(admitted, env));
    CommitKeeps(cfg, Dispatch(Move(admitted, env)));
  }

  lemma {:induction false} TicksKeep(cfg: Config, s: Ledger, envs: seq<Env>)
    requires Inv(cfg, s)
    ensures Inv(cfg, Ticks(cfg, s, envs))
    ensures Ticks(cfg, s, envs).phase == s.phase
    decreases |envs|
  {
    if envs != [] && s.error == None {
      TickKeeps(cfg, s, envs[0]);
      TicksKeep(cfg, Tick(cfg, s, envs[0]), envs[1..]);
    }
  }

  lemma OpenKeeps(cfg: Config, s: Ledger)
    requires Inv(cfg, s) && s.error == None && MayOpen(cfg, s)
    ensures Inv(cfg, Next(cfg, s, OpenStep))
  {}

  lemma NextKeeps(cfg: Config, s: Ledger, a: Action)
    requires Inv(cfg, s)
    ensures Inv(cfg, Next(cfg, s, a))
  {
    match a
    case OpenStep => if s.error == None && MayOpen(cfg, s) { OpenKeeps(cfg, s); }
    case Pump(ticks) => TicksKeep(cfg, s, ticks + [NOTHING]);
    case CheckClose(_) =>
    case Record =>
    case Finish =>
    case Heartbeat =>
  }

  lemma {:induction false} RunKeeps(cfg: Config, actions: seq<Action>)
    ensures Inv(cfg, Run(cfg, actions))
  {
    if actions != [] {
      RunKeeps(cfg, actions[..|actions| - 1]);
      NextKeeps(cfg, Run(cfg, actions[..|actions| - 1]), actions[|actions| - 1]);
    }
  }

  // ----- no run oversubscribes, no partition overflows -----

  /** In every run, drops included: current-window slack stays non-negative and neither the
      over-admission error nor the previous-accounting error is ever raised. */
  lemma {:induction false} AdmissionNeverOversubscribes(cfg: Config, actions: seq<Action>)
    ensures var s := Run(cfg, actions);
            && Slack(cfg, s) >= 0 && Debt(s) >= 0
            && s.error != Some(OverAdmitted) && s.error != Some(PreviousOvercommitted)
  {
    RunKeeps(cfg, actions);
  }

  /** In every run, a partition's own commits plus the next step's backfill never exceed the
      rollout batch, and a pipeline shut down as terminal leaves the last partition full. */
  lemma {:induction false} PartitionFill(cfg: Config, actions: seq<Action>, k: nat)
    requires k < |Run(cfg, actions).fill|
    ensures Run(cfg, actions).fill[k] <= cfg.rolloutBatch
  {
    RunKeeps(cfg, actions);
  }

  lemma {:induction false} TerminalMeansComplete(cfg: Config, actions: seq<Action>)
    requires cfg.numRollout >= 1 && Run(cfg, actions).phase == Down
    ensures var s := Run(cfg, actions);
            && cfg.numRollout - 1 < |s.fill|
            && s.fill[cfg.numRollout - 1] == cfg.rolloutBatch
  {
    RunKeeps(cfg, actions);
  }
}
