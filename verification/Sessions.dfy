/** The life of an agent session under every interleaving of creating, running, cancelling and
    sweeping.  A step is what one thread does inside one lock section, or between two. */
module Sessions {
  import opened Common

  datatype Status = Queued | Running | Completed | Failed | Cancelled

  // What a finished agent reports.
  datatype Info = Info(exitStatus: string, submission: string, reward: int, nCalls: int)

  datatype Record = Record(
    status: Status, exitCode: Option<int>, error: string, result: Option<Info>,
    env: bool,                   // a sandbox is bound
    cancelEvent: bool, finishedAt: Option<int>)

  const FRESH := Record(Queued, None, "", None, false, false, None)

  predicate Terminal(s: Status) { s == Completed || s == Failed || s == Cancelled }

  // ----- what the lock sections do to a record -----

  function CancelledAt(r: Record, now: int): Record {
    r.(status := Cancelled, exitCode := Some(143),
       error := if r.error == "" then "session cancelled" else r.error, finishedAt := Some(now))
  }

  // A cancellation request; only a queued record is cancelled by it.
  function Requested(r: Record, now: int): Record {
    var asked := r.(cancelEvent := true);
    if r.status == Queued then CancelledAt(asked, now) else asked
  }

  function Begun(r: Record): Record {
    if r.status == Cancelled then r else r.(status := Running)
  }

  function FinishedAt(r: Record, info: Info, error: string, now: int): Record {
    if r.cancelEvent then CancelledAt(if error != "" then r.(error := error) else r, now)
    else if error != "" then
      r.(status := Failed, exitCode := Some(1), error := error, finishedAt := Some(now))
    else r.(status := Completed, exitCode := Some(0), result := Some(info), finishedAt := Some(now))
  }

  // A record the sweeper may evict.
  predicate Stale(r: Record, cutoff: int) {
    Terminal(r.status) && r.finishedAt.Some? && r.finishedAt.value < cutoff
  }

  // ----- one session: its record, the thread running it, its sandbox -----

  datatype Worker =
    | Waiting                    // submitted to the executor
    | Preparing                  // marked running; loading the row, making the directory
    | Building                   // constructing the sandbox
    | Built                      // constructed, not yet bound
    | Working                    // the agent runs
    | Unwinding(error: string, info: Info)
    | Cleaned(error: string, info: Info)
    | Gone
    | Crashed                    // either failed: nothing catches that

  datatype Session = Session(
    record: Record, kept: bool, worker: Worker, sandboxUp: bool,
    // history
    cancelledLive: bool,         // a cancellation arrived before the record was terminal
    cancelledUnbound: bool,      // one arrived before the agent started, finding no sandbox bound
    sawSandbox: bool,            // a canceller found a sandbox bound and will clean it up
    agentRan: bool, cleanupFailed: bool)

  const NEW_SESSION := Session(FRESH, true, Waiting, false, false, false, false, false, false)
  const NO_INFO := Info("", "", 0, 0)
  const REFUSED := "RuntimeError: session cancelled"

  datatype Action =
    | Create
    | Cancel(sid: nat, now: int)
    | CancelFuture(sid: nat)
    | CancellerCleansUp(sid: nat)
    | Begin(sid: nat)
    | SetupFails(sid: nat)
    | CheckCancel(sid: nat)
    | SandboxStarts(sid: nat)
    | BuildEnds(sid: nat, error: string)
    | Bind(sid: nat)
    | AgentEnds(sid: nat, error: string, info: Info)
    | CleanUp(sid: nat, failure: string)
    | Finish(sid: nat, now: int)
    | Sweep(cutoff: int)

  // What has happened to a session is not forgotten.
  ghost predicate Remembers(s: Session, s': Session) {
    && (s.cancelledLive ==> s'.cancelledLive) && (s.cancelledUnbound ==> s'.cancelledUnbound)
    && (s.sawSandbox ==> s'.sawSandbox) && (s.agentRan ==> s'.agentRan)
    && (s.cleanupFailed ==> s'.cleanupFailed)
  }

  function AfterCancel(s: Session, now: int): (s': Session)
    ensures Remembers(s, s') && s'.kept == s.kept
  {
    if !s.kept then s
    else
      s.(record := Requested(s.record, now),
         cancelledLive := s.cancelledLive || !Terminal(s.record.status),
         cancelledUnbound := s.cancelledUnbound || (!s.record.env && !s.agentRan),
         sawSandbox := s.sawSandbox || s.record.env)
  }

  // The start of the run: a session cancelled or evicted meanwhile is not run.
  function AfterBegin(s: Session): (s': Session)
    ensures Remembers(s, s') && s'.kept == s.kept
  {
    if !s.kept || s.record.status == Cancelled then s.(worker := Gone)
    else s.(record := Begun(s.record), worker := Preparing)
  }

  // Binding the sandbox and looking at the cancel event again, under the lock.
  function AfterBind(s: Session): (s': Session)
    ensures Remembers(s, s') && s'.kept == s.kept
  {
    var bound := s.(record := s.record.(env := true));
    if s.record.cancelEvent then bound.(worker := Unwinding(REFUSED, NO_INFO))
    else bound.(worker := Working, agentRan := true)
  }

  function AfterCleanUp(s: Session, failure: string): (s': Session)
    requires s.worker.Unwinding?
    ensures Remembers(s, s') && s'.kept == s.kept
  {
    if failure != "" then
      var error := (if s.worker.error == "" then "" else s.worker.error + "\n") + "cleanup failed: " + failure;
      s.(worker := Cleaned(error, s.worker.info), cleanupFailed := true)
    else s.(worker := Cleaned(s.worker.error, s.worker.info), sandboxUp := false)
  }

  // The last lock section.  A missing record would raise; OutcomeIsAlwaysRecorded shows it cannot.
  function AfterFinish(s: Session, now: int): (s': Session)
    requires s.worker.Cleaned?
    ensures Remembers(s, s') && s'.kept == s.kept
  {
    if !s.kept then s.(worker := Crashed)
    else s.(record := FinishedAt(s.record.(env := false), s.worker.info, s.worker.error, now), worker := Gone)
  }

  function NextOne(s: Session, a: Action): (s': Session)
    ensures Remembers(s, s') && (!a.Sweep? ==> s'.kept == s.kept)
  {
    match a
    case Create => s
    case Cancel(_, now) => AfterCancel(s, now)
    case CancelFuture(_) => if s.record.cancelEvent && s.worker.Waiting? then s.(worker := Gone) else s
    case CancellerCleansUp(_) => if s.sawSandbox then s.(sandboxUp := false) else s
    case Begin(_) => if s.worker.Waiting? then AfterBegin(s) else s
    case SetupFails(_) => if s.worker.Preparing? then s.(worker := Crashed) else s
    case CheckCancel(_) =>
      if !s.worker.Preparing? then s
      else if s.record.cancelEvent then s.(worker := Unwinding(REFUSED, NO_INFO))
      else s.(worker := Building)
    case SandboxStarts(_) => if s.worker.Building? then s.(sandboxUp := true) else s
    case BuildEnds(_, error) =>
      if !s.worker.Building? then s
      else if error != "" then s.(worker := Unwinding(error, NO_INFO))
      else s.(worker := Built, sandboxUp := true)
    case Bind(_) => if s.worker.Built? then AfterBind(s) else s
    case AgentEnds(_, error, info) =>
      if s.worker.Working? then s.(worker := Unwinding(error, info)) else s
    case CleanUp(_, failure) => if s.worker.Unwinding? then AfterCleanUp(s, failure) else s
    case Finish(_, now) => if s.worker.Cleaned? then AfterFinish(s, now) else s
    case Sweep(cutoff) => if Stale(s.record, cutoff) then s.(kept := false) else s
  }

  // ----- the server -----

  function Next(ss: seq<Session>, a: Action): seq<Session> {
    match a
    case Create => ss + [NEW_SESSION]
    case Sweep(_) => seq(|ss|, i requires 0 <= i < |ss| => NextOne(ss[i], a))
    case _ => if a.sid < |ss| then ss[a.sid := NextOne(ss[a.sid], a)] else ss
  }

  function Run(ss: seq<Session>, actions: seq<Action>): seq<Session> {
    if actions == [] then ss else Next(Run(ss, actions[..|actions| - 1]), actions[|actions| - 1])
  }

  // ----- what every session keeps -----

  predicate Live(w: Worker) { !w.Waiting? && !w.Gone? && !w.Crashed? }

  ghost predicate Inv(s: Session) {
    var r := s.record;
    && (Terminal(r.status) <==> r.finishedAt.Some?)
    && (Live(s.worker) || s.worker.Crashed? ==> s.kept && r.status == Running)
    && (s.worker.Waiting? ==> r.status == Cancelled || (r.status == Queued && s.kept && !r.cancelEvent))
    && (s.worker.Gone? ==> Terminal(r.status))
    && (!s.kept ==> Terminal(r.status))
    && r.exitCode == (match r.status case Completed => Some(0) case Failed => Some(1)
                      case Cancelled => Some(143) case _ => None)
    && (r.result.Some? <==> r.status == Completed)
    && (Terminal(r.status) ==> (r.status == Cancelled <==> s.cancelledLive))
    && (s.cancelledLive ==> r.cancelEvent)
    && (!Terminal(r.status) ==> (s.cancelledLive <==> r.cancelEvent))
    && (r.env ==> s.worker.Working? || s.worker.Unwinding? || s.worker.Cleaned?)
    && (s.worker.Working? ==> r.env && s.agentRan)
    && (s.cancelledUnbound ==> r.cancelEvent && !s.agentRan)
    && (s.agentRan ==> !s.worker.Waiting? && !s.worker.Preparing? && !s.worker.Building? && !s.worker.Built?)
    && (s.worker.Working? && r.cancelEvent ==> s.sawSandbox)
    && (s.sandboxUp && !Live(s.worker) ==> s.cleanupFailed)
    && (s.sandboxUp && s.worker.Cleaned? ==> s.cleanupFailed)
    && (s.sandboxUp ==> !s.worker.Waiting? && !s.worker.Preparing?)
  }

  lemma CancelKeeps(s: Session, now: int)
    requires Inv(s)
    ensures Inv(AfterCancel(s, now))
  {}

  lemma FinishKeeps(s: Session, now: int)
    requires Inv(s) && s.worker.Cleaned?
    ensures Inv(AfterFinish(s, now))
  {}

  lemma BindKeeps(s: Session)
    requires Inv(s) && s.worker.Built?
    ensures Inv(AfterBind(s))
  {}

  lemma BeginKeeps(s: Session)
    requires Inv(s) && s.worker.Waiting?
    ensures Inv(AfterBegin(s))
  {}

  lemma CleanUpKeeps(s: Session, failure: string)
    requires Inv(s) && s.worker.Unwinding?
    ensures Inv(AfterCleanUp(s, failure))
  {}

  lemma NextOneKeeps(s: Session, a: Action)
    requires Inv(s)
    ensures Inv(NextOne(s, a))
  {
    match a
    case Cancel(_, now) => CancelKeeps(s, now);
    case Begin(_) => if s.worker.Waiting? { BeginKeeps(s); }
    case Bind(_) => if s.worker.Built? { BindKeeps(s); }
    case CleanUp(_, failure) => if s.worker.Unwinding? { CleanUpKeeps(s, failure); }
    case Finish(_, now) => if s.worker.Cleaned? { FinishKeeps(s, now); }
    case _ =>
    hide AfterCancel, AfterBegin, AfterBind, AfterCleanUp, AfterFinish;
  }

  // A session moves by its own steps and sweeps, or stays put.
  lemma OneMoves(ss: seq<Session>, a: Action, sid: nat)
    requires sid < |ss|
    ensures sid < |Next(ss, a)|
    ensures Next(ss, a)[sid] == ss[sid] || Next(ss, a)[sid] == NextOne(ss[sid], a)
  {
    hide NextOne;
  }

  ghost predicate AllInv(ss: seq<Session>) { forall sid | 0 <= sid < |ss| :: Inv(ss[sid]) }

  lemma {:induction false} RunKeeps(ss: seq<Session>, actions: seq<Action>)
    requires AllInv(ss)
    ensures |ss| <= |Run(ss, actions)| && AllInv(Run(ss, actions))
  {
    if actions != [] {
      var before, a := Run(ss, actions[..|actions| - 1]), actions[|actions| - 1];
      RunKeeps(ss, actions[..|actions| - 1]);
      forall sid | 0 <= sid < |Next(before, a)| ensures Inv(Next(before, a)[sid]) {
        if sid < |before| {
          OneMoves(before, a, sid);
          NextOneKeeps(before[sid], a);
        }
      }
      hide Inv, NextOne;
    }
  }

  // ----- every interleaving -----

  /** The last lookup of a running session never misses its record, whatever the sweeper did; a
      session whose thread is gone is terminal unless the thread crashed in its setup; and a
      record is terminal exactly when it has a finish time. */
  lemma OutcomeIsAlwaysRecorded(actions: seq<Action>, sid: nat)
    requires sid < |Run([], actions)|
    ensures var s := Run([], actions)[sid];
            && (s.worker.Cleaned? ==> s.kept)
            && (s.worker.Gone? || s.worker.Crashed? ==> (Terminal(s.record.status) <==> s.worker.Gone?))
            && (Terminal(s.record.status) <==> s.record.finishedAt.Some?)
            && (!s.kept ==> Terminal(s.record.status))
            && (s.record.status == Completed ==> s.record.exitCode == Some(0) && s.record.result.Some?)
  {
    RunKeeps([], actions);
  }

  /** A sandbox left running once its thread is done means its clean-up failed. */
  lemma SandboxesAreCleanedUp(actions: seq<Action>, sid: nat)
    requires sid < |Run([], actions)|
    ensures var s := Run([], actions)[sid];
            s.worker.Gone? && s.sandboxUp ==> s.cleanupFailed
  {
    RunKeeps([], actions);
  }

  // What a client can see of an outcome.
  function Outcome(r: Record): Record { r.(cancelEvent := true) }

  /** Terminal statuses are absorbing: whatever is requested or swept later, status, exit code,
      error, result and finish time stay as they are. */
  lemma {:induction false} TerminalIsAbsorbing(ss: seq<Session>, actions: seq<Action>, sid: nat)
    requires AllInv(ss) && sid < |ss| && Terminal(ss[sid].record.status)
    ensures sid < |Run(ss, actions)| && Outcome(Run(ss, actions)[sid].record) == Outcome(ss[sid].record)
  {
    if actions != [] {
      var init := actions[..|actions| - 1];
      TerminalIsAbsorbing(ss, init, sid);
      RunKeeps(ss, init);
      OneMoves(Run(ss, init), actions[|actions| - 1], sid);
    }
  }

  /** A cancellation that arrives before the session is terminal decides its outcome: in every
      continuation it is cancelled or not yet terminal, never completed and never failed. */
  lemma {:induction false} CancelledNeverCompletes(ss: seq<Session>, sid: nat, now: int, actions: seq<Action>)
    requires AllInv(ss) && sid < |ss| && ss[sid].kept && !Terminal(ss[sid].record.status)
    ensures var after := Run(Next(ss, Cancel(sid, now)), actions);
            && sid < |after| && after[sid].cancelledLive
            && (Terminal(after[sid].record.status) ==> after[sid].record.status == Cancelled)
  {
    var start := Next(ss, Cancel(sid, now));
    OneMoves(ss, Cancel(sid, now), sid);
    assert AllInv(start) by { RunKeeps(ss, [Cancel(sid, now)]); OneStep(ss, Cancel(sid, now)); }
    RunKeeps(start, actions);
    HistoryStays(start, actions, sid);
  }

  /** A cancellation before the agent has started either leaves it never to run, in every
      continuation, or it found the sandbox bound and will clean it up. */
  lemma {:induction false} CancelStopsTheAgent(ss: seq<Session>, sid: nat, now: int, actions: seq<Action>)
    requires AllInv(ss) && sid < |ss| && ss[sid].kept && !ss[sid].agentRan
    ensures var after := Run(Next(ss, Cancel(sid, now)), actions);
            sid < |after| && (!after[sid].agentRan || after[sid].sawSandbox)
    ensures var after := Run(Next(ss, Cancel(sid, now)), actions);
            !ss[sid].record.env ==> sid < |after| && !after[sid].agentRan
  {
    var start := Next(ss, Cancel(sid, now));
    OneMoves(ss, Cancel(sid, now), sid);
    assert AllInv(start) by { RunKeeps(ss, [Cancel(sid, now)]); OneStep(ss, Cancel(sid, now)); }
    RunKeeps(start, actions);
    HistoryStays(start, actions, sid);
  }

  /** A cancellation while the agent runs always finds the sandbox bound. */
  lemma CancelFindsTheSandbox(ss: seq<Session>, sid: nat, now: int)
    requires AllInv(ss) && sid < |ss| && ss[sid].worker.Working?
    ensures Next(ss, Cancel(sid, now))[sid].sawSandbox
  {}

  lemma OneStep(ss: seq<Session>, a: Action)
    ensures Run(ss, [a]) == Next(ss, a)
  {
    assert [a][..0] == [];
    hide Next;
  }

  lemma {:induction false} HistoryStays(ss: seq<Session>, actions: seq<Action>, sid: nat)
    requires sid < |ss|
    ensures sid < |Run(ss, actions)|
    ensures ss[sid].cancelledLive ==> Run(ss, actions)[sid].cancelledLive
    ensures ss[sid].cancelledUnbound ==> Run(ss, actions)[sid].cancelledUnbound
    ensures ss[sid].sawSandbox ==> Run(ss, actions)[sid].sawSandbox
  {
    if actions != [] {
      var before, a := Run(ss, actions[..|actions| - 1]), actions[|actions| - 1];
      HistoryStays(ss, actions[..|actions| - 1], sid);
      OneMoves(before, a, sid);
      hide NextOne, Next;
    }
  }

  // ----- who is evicted -----

  // The i-th action is a sweep that finds the session ended, and finished before its cut-off.
  ghost predicate SweptStale(actions: seq<Action>, sid: nat, i: nat) {
    && i < |actions| && actions[i].Sweep? && sid < |Run([], actions[..i])|
    && var r := Run([], actions[..i])[sid].record;
       && (r.status == Completed || r.status == Failed || r.status == Cancelled)
       && r.finishedAt.Some? && r.finishedAt.value < actions[i].cutoff
  }

  // Nothing but a sweep evicts, nothing brings a record back, and a sweep touches nothing else.
  lemma OnlySweepsEvict(ss: seq<Session>, a: Action, sid: nat)
    requires sid < |ss|
    ensures sid < |Next(ss, a)|
    ensures Next(ss, a)[sid].kept <==> ss[sid].kept && !(a.Sweep? && Stale(ss[sid].record, a.cutoff))
    ensures a.Sweep? ==> Next(ss, a)[sid] == ss[sid].(kept := Next(ss, a)[sid].kept)
  {
    if !a.Sweep? {
      OneMoves(ss, a, sid);
      hide NextOne, Next;
    }
  }

  /** In every interleaving a record is gone if and only if some sweep of the run found it terminal and
      finished before that sweep's cut-off: nothing else evicts, no live record is ever evicted, and
      nothing is ever brought back. */
  lemma {:induction false} EvictedIffSweptStale(actions: seq<Action>, sid: nat)
    requires sid < |Run([], actions)|
    ensures !Run([], actions)[sid].kept <==> exists i :: SweptStale(actions, sid, i)
  {
    if actions != [] {
      var n := |actions| - 1;
      var init, before := actions[..n], Run([], actions[..n]);
      forall i: nat | i < n ensures SweptStale(actions, sid, i) <==> SweptStale(init, sid, i) {
        assert init[..i] == actions[..i];
      }
      assert SweptStale(actions, sid, n) <==>
        actions[n].Sweep? && sid < |before| && Stale(before[sid].record, actions[n].cutoff);
      if sid < |before| {
        EvictedIffSweptStale(init, sid);
        OnlySweepsEvict(before, actions[n], sid);
        hide Next;
        LastOrEarlier(actions, sid, n);
      } else {
        NewcomerIsKept(before, actions[n], sid);
        forall i: nat ensures !SweptStale(actions, sid, i) {
          if i < n {
            GrowsTo(init, i);
          }
        }
      }
    }
  }

  lemma LastOrEarlier(actions: seq<Action>, sid: nat, n: nat)
    requires |actions| == n + 1
    requires forall i: nat | i < n :: SweptStale(actions, sid, i) <==> SweptStale(actions[..n], sid, i)
    ensures (exists i :: SweptStale(actions, sid, i)) <==>
      (exists i :: SweptStale(actions[..n], sid, i)) || SweptStale(actions, sid, n)
  {
    hide Run;
    if i :| SweptStale(actions, sid, i) && i != n {
      assert SweptStale(actions[..n], sid, i);
    }
    if i :| SweptStale(actions[..n], sid, i) {
      assert SweptStale(actions, sid, i);
    }
  }

  lemma NewcomerIsKept(ss: seq<Session>, a: Action, sid: nat)
    requires |ss| <= sid < |Next(ss, a)|
    ensures Next(ss, a)[sid] == NEW_SESSION
  {}

  lemma {:induction false} GrowsTo(actions: seq<Action>, i: nat)
    requires i <= |actions|
    ensures |Run([], actions[..i])| <= |Run([], actions)|
    decreases |actions|
  {
    hide Next;
    if i == |actions| {
      assert actions[..i] == actions;
    } else {
      var n := |actions| - 1;
      assert actions[..n][..i] == actions[..i];
      GrowsTo(actions[..n], i);
      NeverFewer(Run([], actions[..n]), actions[n]);
    }
  }

  lemma NeverFewer(ss: seq<Session>, a: Action)
    ensures |ss| <= |Next(ss, a)|
  {}

  // ----- who never ends -----

  /** A session whose thread failed before its try block runs for ever: no step ends it, no sweep
      evicts it. */
  lemma {:induction false} CrashedRunsForEver(ss: seq<Session>, actions: seq<Action>, sid: nat)
    requires AllInv(ss) && sid < |ss| && ss[sid].worker.Crashed?
    ensures sid < |Run(ss, actions)|
    ensures var s := Run(ss, actions)[sid]; s.worker.Crashed? && s.kept && s.record.status == Running
  {
    if actions != [] {
      var init := actions[..|actions| - 1];
      CrashedRunsForEver(ss, init, sid);
      OneMoves(Run(ss, init), actions[|actions| - 1], sid);
    }
  }

  /** A concrete run that leaves a session so: created, begun, and its row not found. */
  lemma FailedSetupLeavesItRunning()
    ensures var ss := Run([], [Create, Begin(0), SetupFails(0)]);
            |ss| == 1 && ss[0].worker.Crashed? && ss[0].kept && ss[0].record.status == Running
  {
    var actions := [Create, Begin(0), SetupFails(0)];
    assert actions[..2] == [Create, Begin(0)] && [Create, Begin(0)][..1] == [Create] && [Create][..0] == [];
    assert Run([], [Create]) == [NEW_SESSION];
    assert Run([], [Create, Begin(0)]) == [AfterBegin(NEW_SESSION)];
  }

  // The i-th action is the failure of the session's setup: after it was marked running and before
  // the try block that would record it.
  ghost predicate FailsAt(actions: seq<Action>, sid: nat, i: nat) {
    && i < |actions| && actions[i] == SetupFails(sid) && sid < |Run([], actions[..i])|
    && Run([], actions[..i])[sid].worker.Preparing?
  }

  lemma CrashesOnlyIn(ss: seq<Session>, a: Action, sid: nat)
    requires AllInv(ss) && sid < |ss|
    ensures sid < |Next(ss, a)|
    ensures Next(ss, a)[sid].worker.Crashed? <==>
      ss[sid].worker.Crashed? || (a == SetupFails(sid) && ss[sid].worker.Preparing?)
  {
    OneMoves(ss, a, sid);
    assert Inv(ss[sid]);
    CrashesOneIn(ss[sid], a);
    hide Inv, NextOne;
    if a.Create? || a.Sweep? || a.sid != sid {
      OthersStayPut(ss, a, sid);
    }
  }

  lemma CrashesOneIn(s: Session, a: Action)
    requires Inv(s)
    ensures NextOne(s, a).worker.Crashed? <==> s.worker.Crashed? || (a.SetupFails? && s.worker.Preparing?)
  {
    hide Requested, Begun, FinishedAt, Stale;
  }

  // Actions for other sessions, and sweeps, leave a session's thread alone.
  lemma OthersStayPut(ss: seq<Session>, a: Action, sid: nat)
    requires sid < |ss| && (a.Create? || a.Sweep? || a.sid != sid)
    ensures sid < |Next(ss, a)| && Next(ss, a)[sid].worker == ss[sid].worker
  {
    if a.Sweep? {
      OnlySweepsEvict(ss, a, sid);
    }
    hide NextOne;
  }

  /** A session is in that state if and only if its setup failed at some point of the run. */
  lemma {:induction false} CrashedIffSetupFailed(actions: seq<Action>, sid: nat)
    requires sid < |Run([], actions)|
    ensures Run([], actions)[sid].worker.Crashed? <==> exists i :: FailsAt(actions, sid, i)
  {
    if actions != [] {
      var n := |actions| - 1;
      var init, before := actions[..n], Run([], actions[..n]);
      forall i: nat | i < n ensures FailsAt(actions, sid, i) <==> FailsAt(init, sid, i) {
        assert init[..i] == actions[..i];
      }
      RunKeeps([], init);
      if sid < |before| {
        CrashedIffSetupFailed(init, sid);
        CrashesOnlyIn(before, actions[n], sid);
        FailsLast(actions, sid, n);
        hide *;
        FailedLastOrEarlier(actions, sid, n);
      } else {
        NewcomerIsKept(before, actions[n], sid);
        forall i: nat ensures !FailsAt(actions, sid, i) {
          if i < n {
            GrowsTo(init, i);
          }
        }
        hide Next;
      }
    }
  }

  lemma FailsLast(actions: seq<Action>, sid: nat, n: nat)
    requires |actions| == n + 1 && sid < |Run([], actions[..n])|
    ensures FailsAt(actions, sid, n) <==>
      actions[n] == SetupFails(sid) && Run([], actions[..n])[sid].worker.Preparing?
    ensures Run([], actions) == Next(Run([], actions[..n]), actions[n])
  {
    hide Next;
  }

  lemma FailedLastOrEarlier(actions: seq<Action>, sid: nat, n: nat)
    requires |actions| == n + 1
    requires forall i: nat | i < n :: FailsAt(actions, sid, i) <==> FailsAt(actions[..n], sid, i)
    ensures (exists i :: FailsAt(actions, sid, i)) <==>
      (exists i :: FailsAt(actions[..n], sid, i)) || FailsAt(actions, sid, n)
  {
    hide Run;
    if i :| FailsAt(actions, sid, i) && i != n {
      assert FailsAt(actions[..n], sid, i);
    }
    if i :| FailsAt(actions[..n], sid, i) {
      assert FailsAt(actions, sid, i);
    }
  }

  // ----- who still can -----

  function StepsLeft(w: Worker): nat {
    match w
    case Waiting => 7 case Preparing => 6 case Building => 5 case Built => 4 case Working => 3
    case Unwinding(_, _) => 2 case Cleaned(_, _) => 1 case _ => 0
  }

  // A step of its own thread that takes a session nearer to its end.
  function Onward(w: Worker, sid: nat): Action {
    match w
    case Waiting => Begin(sid)
    case Preparing => CheckCancel(sid)
    case Building => BuildEnds(sid, "")
    case Built => Bind(sid)
    case Working => AgentEnds(sid, "", NO_INFO)
    case Unwinding(_, _) => CleanUp(sid, "")
    case _ => Finish(sid, 0)
  }

  lemma OnwardGains(ss: seq<Session>, sid: nat)
    requires AllInv(ss) && sid < |ss| && !ss[sid].worker.Crashed? && !Terminal(ss[sid].record.status)
    ensures var ss' := Next(ss, Onward(ss[sid].worker, sid));
            && sid < |ss'| && !ss'[sid].worker.Crashed?
            && StepsLeft(ss'[sid].worker) < StepsLeft(ss[sid].worker)
  {
    assert Inv(ss[sid]);
    OneGains(ss[sid], sid);
    hide Inv, NextOne, StepsLeft;
  }

  lemma OneGains(s: Session, sid: nat)
    requires Inv(s) && !s.worker.Crashed? && !Terminal(s.record.status)
    ensures var s', a := NextOne(s, Onward(s.worker, sid)), Onward(s.worker, sid);
            !s'.worker.Crashed? && StepsLeft(s'.worker) < StepsLeft(s.worker) && !a.Create? && !a.Sweep? && a.sid == sid
  {
    hide Requested, Begun, FinishedAt;
  }

  lemma {:induction false} RunFrom(ss: seq<Session>, a: Action, rest: seq<Action>)
    ensures Run(ss, [a] + rest) == Run(Next(ss, a), rest)
  {
    hide Next;
    if rest == [] {
      assert ([a] + rest)[..0] == [] && [a] + rest == [a];
    } else {
      var n := |rest| - 1;
      assert ([a] + rest)[..n + 1] == [a] + rest[..n];
      RunFrom(ss, a, rest[..n]);
    }
  }

  lemma {:induction false} WaysToEnd(ss: seq<Session>, sid: nat) returns (more: seq<Action>)
    requires AllInv(ss) && sid < |ss| && !ss[sid].worker.Crashed?
    ensures sid < |Run(ss, more)| && Terminal(Run(ss, more)[sid].record.status)
    decreases StepsLeft(ss[sid].worker)
  {
    if Terminal(ss[sid].record.status) {
      more := [];
    } else {
      var a := Onward(ss[sid].worker, sid);
      OnwardGains(ss, sid);
      RunKeeps(ss, [a]);
      OneStep(ss, a);
      hide Inv, Next;
      var rest := WaysToEnd(Next(ss, a), sid);
      RunFrom(ss, a, rest);
      more := [a] + rest;
    }
  }

  ghost predicate CanEnd(ss: seq<Session>, sid: nat) {
    exists more :: sid < |Run(ss, more)| && Terminal(Run(ss, more)[sid].record.status)
  }

  /** From every reachable state some continuation brings a session to a terminal status if and only
      if its setup has not failed. */
  lemma {:induction false} CanEndIffSetupHeld(actions: seq<Action>, sid: nat)
    requires sid < |Run([], actions)|
    ensures CanEnd(Run([], actions), sid) <==> !exists i :: FailsAt(actions, sid, i)
  {
    var ss := Run([], actions);
    CrashedIffSetupFailed(actions, sid);
    RunKeeps([], actions);
    if ss[sid].worker.Crashed? {
      forall more ensures !(sid < |Run(ss, more)| && Terminal(Run(ss, more)[sid].record.status)) {
        CrashedRunsForEver(ss, more, sid);
      }
    } else {
      var more := WaysToEnd(ss, sid);
    }
    hide Run, FailsAt, AllInv;
  }
}
