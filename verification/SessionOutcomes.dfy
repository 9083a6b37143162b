/** How a session came by its outcome: the steps of the run that reported it, cleaned up after it and
    recorded it, and the cancellations it met. */
module SessionOutcomes {
  import opened Common
  import opened Sessions

  // ----- the steps a session has taken -----

  // The i-th action is one for this session.
  ghost predicate Taken(actions: seq<Action>, sid: nat, i: nat) {
    && i < |actions| && !actions[i].Create? && !actions[i].Sweep? && actions[i].sid == sid
    && sid < |Run([], actions[..i])|
  }

  // The session when the i-th action was taken.
  ghost function When(actions: seq<Action>, sid: nat, i: nat): Session
    requires Taken(actions, sid, i)
  {
    Run([], actions[..i])[sid]
  }

  // A cancellation of a session that is still in the table and has not ended.
  ghost predicate CancelsLive(s: Session, a: Action) { a.Cancel? && s.kept && !Terminal(s.record.status) }

  ghost predicate LiveCancelAt(actions: seq<Action>, sid: nat, i: nat) {
    Taken(actions, sid, i) && CancelsLive(When(actions, sid, i), actions[i])
  }

  ghost predicate CancelledWhileLive(actions: seq<Action>, sid: nat) {
    exists i :: LiveCancelAt(actions, sid, i)
  }

  // What the thread unwinds with: the agent's own end, a sandbox that could not be built, or a refusal.
  ghost predicate Reports(s: Session, a: Action, error: string, info: Info) {
    match a
    case AgentEnds(_, e, i) => s.worker.Working? && error == e && info == i
    case BuildEnds(_, e) => s.worker.Building? && error == e != "" && info == NO_INFO
    case CheckCancel(_) =>
      s.worker.Preparing? && s.record.cancelEvent && error == "RuntimeError: session cancelled" && info == NO_INFO
    case Bind(_) =>
      s.worker.Built? && s.record.cancelEvent && error == "RuntimeError: session cancelled" && info == NO_INFO
    case _ => false
  }

  ghost predicate ReportsAt(actions: seq<Action>, sid: nat, i: nat, error: string, info: Info) {
    Taken(actions, sid, i) && Reports(When(actions, sid, i), actions[i], error, info)
  }

  ghost predicate CleansAt(actions: seq<Action>, sid: nat, i: nat, failure: string) {
    Taken(actions, sid, i) && When(actions, sid, i).worker.Unwinding? && actions[i] == CleanUp(sid, failure)
  }

  ghost predicate FinishesAt(actions: seq<Action>, sid: nat, i: nat, now: int) {
    Taken(actions, sid, i) && When(actions, sid, i).worker.Cleaned? && actions[i] == Finish(sid, now)
  }

  ghost predicate CancelsQueuedAt(actions: seq<Action>, sid: nat, i: nat, now: int) {
    && Taken(actions, sid, i) && actions[i] == Cancel(sid, now)
    && When(actions, sid, i).kept && When(actions, sid, i).record.status == Queued
  }

  // The thread looked at the cancel event before building, or on binding, and found it unset.
  ghost predicate PassesCheckAt(actions: seq<Action>, sid: nat, i: nat) {
    && Taken(actions, sid, i) && actions[i] == CheckCancel(sid)
    && When(actions, sid, i).worker.Preparing? && !CancelledWhileLive(actions[..i], sid)
  }

  ghost predicate BindsAt(actions: seq<Action>, sid: nat, i: nat) {
    && Taken(actions, sid, i) && actions[i] == Bind(sid)
    && When(actions, sid, i).worker.Built? && !CancelledWhileLive(actions[..i], sid)
  }

  // An error and a failed clean-up in one text.
  function Text(error: string, failure: string): string {
    if failure == "" then error
    else if error == "" then "cleanup failed: " + failure
    else error + "\n" + "cleanup failed: " + failure
  }

  // ----- the cause of an outcome -----

  datatype Cause =
    | CancelledInQueue(at: nat, now: int)
    | RanToItsEnd(reported: nat, cleaned: nat, finished: nat, error: string, failure: string, info: Info, now: int)

  ghost predicate Through(actions: seq<Action>, sid: nat, c: Cause)
    requires c.RanToItsEnd?
  {
    && c.reported < c.cleaned < c.finished
    && ReportsAt(actions, sid, c.reported, c.error, c.info)
    && CleansAt(actions, sid, c.cleaned, c.failure)
    && FinishesAt(actions, sid, c.finished, c.now)
  }

  ghost predicate Explains(actions: seq<Action>, sid: nat, c: Cause, r: Record) {
    && r.finishedAt == Some(c.now)
    && match c
       case CancelledInQueue(at, now) =>
         && CancelsQueuedAt(actions, sid, at, now)
         && r.status == Cancelled && r.exitCode == Some(143) && r.error == "session cancelled" && r.result == None
       case RanToItsEnd(_, _, finished, error, failure, info, _) =>
         && Through(actions, sid, c)
         && var text := Text(error, failure);
            if CancelledWhileLive(actions[..finished], sid) then
              && r.status == Cancelled && r.exitCode == Some(143) && r.result == None
              && r.error == (if text == "" then "session cancelled" else text)
            else if text != "" then
              r.status == Failed && r.exitCode == Some(1) && r.error == text && r.result == None
            else
              r.status == Completed && r.exitCode == Some(0) && r.error == "" && r.result == Some(info)
  }

  // ----- one step of one session -----

  // A thread that has been through a report and a clean-up, but is not recorded yet.
  ghost predicate Carries(actions: seq<Action>, sid: nat, w: Worker) {
    match w
    case Unwinding(error, info) => exists i :: ReportsAt(actions, sid, i, error, info)
    case Cleaned(error, info) =>
      exists i, j, e, failure :: CarriedBy(actions, sid, i, j, e, failure, info) && error == Text(e, failure)
    case Building => exists i :: PassesCheckAt(actions, sid, i)
    case Built => exists i :: PassesCheckAt(actions, sid, i)
    case Working => exists i :: BindsAt(actions, sid, i)
    case _ => true
  }

  ghost predicate CarriedBy(actions: seq<Action>, sid: nat, i: nat, j: nat, e: string, failure: string, info: Info) {
    i < j && ReportsAt(actions, sid, i, e, info) && CleansAt(actions, sid, j, failure)
  }

  // What is known of a session from the actions so far.
  ghost predicate Known(actions: seq<Action>, sid: nat, s: Session) {
    && (s.cancelledLive <==> CancelledWhileLive(actions, sid))
    && Carries(actions, sid, s.worker)
    && (s.agentRan ==> exists i :: BindsAt(actions, sid, i))
    && if Terminal(s.record.status) then exists c :: Explains(actions, sid, c, s.record) else s.record.error == ""
  }

  // Where a thread can have come from, and which step brought it there.
  ghost predicate CameFrom(s: Session, a: Action, s': Session) {
    && (s'.cancelledLive <==> s.cancelledLive || CancelsLive(s, a))
    && (s'.worker.Unwinding? ==> s'.worker == s.worker || Reports(s, a, s'.worker.error, s'.worker.info))
    && (s'.worker.Cleaned? && s'.worker != s.worker ==>
          && a.CleanUp? && s.worker.Unwinding? && s'.worker.info == s.worker.info
          && s'.worker.error == Text(s.worker.error, a.failure))
    && (s'.worker.Building? && !s.worker.Building? ==>
          a.CheckCancel? && s.worker.Preparing? && !s.record.cancelEvent)
    && (s'.worker.Built? && !s.worker.Built? ==> s.worker.Building?)
    && ((s'.worker.Working? && !s.worker.Working?) || (s'.agentRan && !s.agentRan) ==>
          a.Bind? && s.worker.Built? && !s.record.cancelEvent)
  }

  // What a step may change, and how far the thread may get.
  ghost predicate Turned(s: Session, s': Session, worker: Worker) {
    s' == s.(worker := worker, record := s'.record, sandboxUp := s'.sandboxUp, cleanupFailed := s'.cleanupFailed)
  }

  lemma QuietTurn(s: Session, a: Action)
    requires a.CancelFuture? || a.CancellerCleansUp? || a.SetupFails? || a.SandboxStarts?
    ensures var s' := NextOne(s, a);
            && Turned(s, s', s'.worker)
            && (s'.worker == s.worker || s'.worker.Gone? || s'.worker.Crashed?)
  {
    hide Remembers, Stale;
  }

  lemma BeginTurn(s: Session, a: Action)
    requires a.Begin?
    ensures var s' := NextOne(s, a);
            && Turned(s, s', s'.worker)
            && (s'.worker == s.worker || s'.worker.Gone? || s'.worker.Preparing?)
  {
    hide Remembers, Stale, Begun;
  }

  lemma CheckTurn(s: Session, a: Action)
    requires a.CheckCancel?
    ensures Turned(s, NextOne(s, a),
      if !s.worker.Preparing? then s.worker
      else if s.record.cancelEvent then Unwinding("RuntimeError: session cancelled", NO_INFO) else Building)
  {
    hide Remembers, Stale;
  }

  lemma EndTurn(s: Session, a: Action)
    requires a.BuildEnds? || a.AgentEnds?
    ensures a.BuildEnds? ==> Turned(s, NextOne(s, a),
      if !s.worker.Building? then s.worker else if a.error != "" then Unwinding(a.error, NO_INFO) else Built)
    ensures a.AgentEnds? ==> Turned(s, NextOne(s, a),
      if s.worker.Working? then Unwinding(a.error, a.info) else s.worker)
  {
    hide Remembers, Stale;
  }

  lemma CleanTurn(s: Session, a: Action)
    requires a.CleanUp?
    ensures Turned(s, NextOne(s, a),
      if s.worker.Unwinding? then Cleaned(Text(s.worker.error, a.failure), s.worker.info) else s.worker)
  {
    hide Remembers, Stale;
    assert "" + "cleanup failed: " == "cleanup failed: ";
  }

  lemma FinishTurn(s: Session, a: Action)
    requires a.Finish?
    ensures var s' := NextOne(s, a);
            && Turned(s, s', s'.worker)
            && (s'.worker == s.worker || s'.worker.Gone? || s'.worker.Crashed?)
  {
    hide Remembers, Stale, FinishedAt;
  }

  lemma OwnSteps(s: Session, a: Action)
    requires !a.Create? && !a.Sweep? && !a.Cancel? && !a.Bind?
    ensures CameFrom(s, a, NextOne(s, a))
  {
    if a.CheckCancel? {
      CheckTurn(s, a);
    } else if a.BuildEnds? || a.AgentEnds? {
      EndTurn(s, a);
    } else if a.CleanUp? {
      CleanTurn(s, a);
    } else if a.Finish? {
      FinishTurn(s, a);
    } else if a.Begin? {
      BeginTurn(s, a);
    } else {
      QuietTurn(s, a);
    }
    hide NextOne, Text;
  }

  lemma CancelOrBind(s: Session, a: Action)
    requires a.Cancel? || a.Bind?
    ensures CameFrom(s, a, NextOne(s, a))
  {
    hide AfterBegin, AfterCleanUp, AfterFinish, Remembers, Stale, Requested, Text;
  }

  lemma ComesFrom(s: Session, a: Action)
    requires !a.Create? && !a.Sweep?
    ensures CameFrom(s, a, NextOne(s, a))
  {
    hide *;
    if a.Cancel? || a.Bind? {
      CancelOrBind(s, a);
    } else {
      OwnSteps(s, a);
    }
  }

  // How a record comes to its end.
  ghost predicate EndsIn(s: Session, a: Action, r: Record) {
    || (&& a.Cancel? && s.kept && s.record.status == Queued && r.finishedAt == Some(a.now)
        && r.status == Cancelled && r.exitCode == Some(143) && r.error == "session cancelled" && r.result == None)
    || (&& a.Finish? && s.worker.Cleaned? && r.finishedAt == Some(a.now)
        && if s.cancelledLive then
             && r.status == Cancelled && r.exitCode == Some(143) && r.result == None
             && r.error == (if s.worker.error == "" then "session cancelled" else s.worker.error)
           else if s.worker.error != "" then
             r.status == Failed && r.exitCode == Some(1) && r.error == s.worker.error && r.result == None
           else r.status == Completed && r.exitCode == Some(0) && r.error == "" && r.result == Some(s.worker.info))
  }

  lemma EndsByStep(s: Session, a: Action)
    requires Inv(s) && !a.Create? && !a.Sweep? && !Terminal(s.record.status) && s.record.error == ""
    ensures var r := NextOne(s, a).record; if Terminal(r.status) then EndsIn(s, a, r) else r.error == ""
  {
    if a.Cancel? {
      EndsByCancel(s, a.now);
    } else if a.Finish? && s.worker.Cleaned? {
      EndsByFinish(s, a.now);
    } else {
      GoesOn(s, a);
    }
    hide Inv, NextOne, AfterCancel, AfterFinish;
    assert a.Cancel? ==> NextOne(s, a) == AfterCancel(s, a.now) by { CancelOrFinish(s, a); }
    assert a.Finish? && s.worker.Cleaned? ==> NextOne(s, a) == AfterFinish(s, a.now) by { CancelOrFinish(s, a); }
  }

  lemma CancelOrFinish(s: Session, a: Action)
    ensures a.Cancel? ==> NextOne(s, a) == AfterCancel(s, a.now)
    ensures a.Finish? && s.worker.Cleaned? ==> NextOne(s, a) == AfterFinish(s, a.now)
  {
    hide AfterCancel, AfterFinish, Remembers;
  }

  lemma EndsByCancel(s: Session, now: int)
    requires Inv(s) && !Terminal(s.record.status) && s.record.error == ""
    ensures var r := AfterCancel(s, now).record;
            if Terminal(r.status) then
              && s.kept && s.record.status == Queued && r.finishedAt == Some(now)
              && r.status == Cancelled && r.exitCode == Some(143) && r.error == "session cancelled" && r.result == None
            else r.error == ""
  {
    hide Remembers;
  }

  lemma EndsByFinish(s: Session, now: int)
    requires Inv(s) && s.worker.Cleaned? && s.record.error == ""
    ensures EndsIn(s, Finish(0, now), AfterFinish(s, now).record) && Terminal(AfterFinish(s, now).record.status)
  {
    hide Remembers;
  }

  lemma GoesOn(s: Session, a: Action)
    requires !a.Create? && !a.Sweep? && !a.Cancel? && !(a.Finish? && s.worker.Cleaned?)
    requires !Terminal(s.record.status)
    ensures var r := NextOne(s, a).record; !Terminal(r.status) && r.error == s.record.error
  {
    if a.CleanUp? && s.worker.Unwinding? {
      CleanUpOnly(s, a.failure);
    }
    if a.Begin? || a.Bind? {
      GoesOnRunning(s, a);
      hide NextOne;
    } else {
      hide Remembers, Stale, AfterCancel, AfterBegin, AfterBind, AfterFinish, AfterCleanUp;
    }
  }

  lemma GoesOnRunning(s: Session, a: Action)
    requires (a.Begin? || a.Bind?) && !Terminal(s.record.status)
    ensures var r := NextOne(s, a).record; !Terminal(r.status) && r.error == s.record.error
  {
    hide Remembers, Stale;
  }

  lemma CleanUpOnly(s: Session, failure: string)
    requires s.worker.Unwinding?
    ensures AfterCleanUp(s, failure).record == s.record
  {}

  lemma EndedStays(s: Session, a: Action)
    requires Inv(s) && Terminal(s.record.status)
    ensures Outcome(NextOne(s, a).record).(env := false) == Outcome(s.record).(env := false)
  {
    hide Remembers, Stale;
  }

  // ----- what is known of a session, over the whole run -----

  lemma TakenBefore(init: seq<Action>, a: Action, sid: nat, i: nat)
    requires i < |init|
    ensures Taken(init + [a], sid, i) <==> Taken(init, sid, i)
    ensures Taken(init, sid, i) ==> When(init + [a], sid, i) == When(init, sid, i)
    ensures (init + [a])[i] == init[i] && (init + [a])[..i] == init[..i]
  {
    assert (init + [a])[..i] == init[..i];
    hide Run;
  }

  lemma TakenNow(init: seq<Action>, a: Action, sid: nat)
    requires sid < |Run([], init)| && !a.Create? && !a.Sweep? && a.sid == sid
    ensures Taken(init + [a], sid, |init|) && When(init + [a], sid, |init|) == Run([], init)[sid]
    ensures (init + [a])[|init|] == a && (init + [a])[..|init|] == init
  {
    assert (init + [a])[..|init|] == init;
    hide Run;
  }

  lemma LiveCancelsPush(init: seq<Action>, a: Action, sid: nat)
    requires sid < |Run([], init)|
    ensures CancelledWhileLive(init + [a], sid) <==>
      || CancelledWhileLive(init, sid)
      || (!a.Create? && !a.Sweep? && a.sid == sid && CancelsLive(Run([], init)[sid], a))
  {
    var actions, n := init + [a], |init|;
    forall i: nat | i < n ensures LiveCancelAt(actions, sid, i) <==> LiveCancelAt(init, sid, i) {
      TakenBefore(init, a, sid, i);
    }
    if !a.Create? && !a.Sweep? && a.sid == sid {
      TakenNow(init, a, sid);
    }
    hide Run, CancelsLive, When;
    if i: nat :| LiveCancelAt(actions, sid, i) && i != n {
      assert LiveCancelAt(init, sid, i);
    }
    if i: nat :| LiveCancelAt(init, sid, i) {
      assert LiveCancelAt(actions, sid, i);
    }
    assert LiveCancelAt(actions, sid, n) <==>
      !a.Create? && !a.Sweep? && a.sid == sid && CancelsLive(Run([], init)[sid], a);
  }

  // Steps once taken stay taken.
  ghost predicate StepStays(init: seq<Action>, a: Action, sid: nat, i: nat) {
    && (forall e, info | ReportsAt(init, sid, i, e, info) :: ReportsAt(init + [a], sid, i, e, info))
    && (forall failure | CleansAt(init, sid, i, failure) :: CleansAt(init + [a], sid, i, failure))
    && (forall now | FinishesAt(init, sid, i, now) :: FinishesAt(init + [a], sid, i, now))
    && (forall now | CancelsQueuedAt(init, sid, i, now) :: CancelsQueuedAt(init + [a], sid, i, now))
    && (PassesCheckAt(init, sid, i) ==> PassesCheckAt(init + [a], sid, i))
    && (BindsAt(init, sid, i) ==> BindsAt(init + [a], sid, i))
  }

  lemma StepsStay(init: seq<Action>, a: Action, sid: nat, i: nat)
    requires Taken(init, sid, i)
    ensures StepStays(init, a, sid, i)
  {
    TakenBefore(init, a, sid, i);
    hide Run, Taken, When, Reports, CancelledWhileLive;
  }

  lemma CarriesStays(init: seq<Action>, a: Action, sid: nat, w: Worker)
    requires Carries(init, sid, w)
    ensures Carries(init + [a], sid, w)
  {
    forall i: nat | Taken(init, sid, i) ensures StepStays(init, a, sid, i) {
      StepsStay(init, a, sid, i);
    }
    hide Taken, When, Reports, CancelledWhileLive, Run;
    match w {
      case Unwinding(error, info) =>
        var i: nat :| ReportsAt(init, sid, i, error, info);
        assert StepStays(init, a, sid, i);
      case Cleaned(error, info) =>
        var i: nat, j: nat, e, failure :| CarriedBy(init, sid, i, j, e, failure, info) && error == Text(e, failure);
        assert StepStays(init, a, sid, i) && StepStays(init, a, sid, j);
        assert CarriedBy(init + [a], sid, i, j, e, failure, info);
      case Building =>
        var i: nat :| PassesCheckAt(init, sid, i);
        assert StepStays(init, a, sid, i);
      case Built =>
        var i: nat :| PassesCheckAt(init, sid, i);
        assert StepStays(init, a, sid, i);
      case Working =>
        var i: nat :| BindsAt(init, sid, i);
        assert StepStays(init, a, sid, i);
      case _ =>
    }
  }

  lemma ExplainsStays(init: seq<Action>, a: Action, sid: nat, c: Cause, r: Record, r': Record)
    requires Explains(init, sid, c, r) && Outcome(r').(env := false) == Outcome(r).(env := false)
    ensures Explains(init + [a], sid, c, r')
  {
    hide Run, When, Reports, CancelledWhileLive, Taken;
    match c
    case CancelledInQueue(at, now) =>
      TakenSince(init, a, sid, at);
    case RanToItsEnd(i, j, f, error, failure, info, now) =>
      TakenSince(init, a, sid, i);
      TakenSince(init, a, sid, j);
      TakenSince(init, a, sid, f);
      assert Through(init + [a], sid, c);
  }

  lemma TakenSince(init: seq<Action>, a: Action, sid: nat, i: nat)
    ensures Taken(init, sid, i) ==> StepStays(init, a, sid, i) && (init + [a])[..i] == init[..i]
  {
    if Taken(init, sid, i) {
      StepsStay(init, a, sid, i);
      TakenBefore(init, a, sid, i);
    }
    hide StepStays;
  }

  // What a step of the session itself adds.
  lemma CarriesNew(init: seq<Action>, a: Action, sid: nat)
    requires sid < |Run([], init)| && !a.Create? && !a.Sweep? && a.sid == sid
    requires Inv(Run([], init)[sid]) && Known(init, sid, Run([], init)[sid])
    ensures Carries(init + [a], sid, NextOne(Run([], init)[sid], a).worker)
    ensures NextOne(Run([], init)[sid], a).agentRan ==> exists i :: BindsAt(init + [a], sid, i)
  {
    var s, s', n := Run([], init)[sid], NextOne(Run([], init)[sid], a), |init|;
    ComesFrom(s, a);
    TakenNow(init, a, sid);
    assert !s.record.cancelEvent && (s.worker.Preparing? || s.worker.Built?) ==> !CancelledWhileLive(init, sid);
    CarriesStays(init, a, sid, s.worker);
    hide NextOne, Run, Inv, Reports, CancelledWhileLive, Text, Explains;
    assert a.CheckCancel? && s.worker.Preparing? && !s.record.cancelEvent ==> PassesCheckAt(init + [a], sid, n);
    assert a.Bind? && s.worker.Built? && !s.record.cancelEvent ==> BindsAt(init + [a], sid, n);
    assert a.CleanUp? && s.worker.Unwinding? ==> CleansAt(init + [a], sid, n, a.failure);
    if s'.worker.Unwinding? && s'.worker != s.worker {
      assert ReportsAt(init + [a], sid, n, s'.worker.error, s'.worker.info);
    }
    if s'.worker.Cleaned? && s'.worker != s.worker {
      var i: nat :| ReportsAt(init, sid, i, s.worker.error, s.worker.info);
      TakenSince(init, a, sid, i);
      assert CarriedBy(init + [a], sid, i, n, s.worker.error, a.failure, s.worker.info);
    }
    if s'.agentRan && s.agentRan {
      var i: nat :| BindsAt(init, sid, i);
      TakenSince(init, a, sid, i);
    }
  }

  lemma EndsNew(init: seq<Action>, a: Action, sid: nat, r: Record) returns (c: Cause)
    requires sid < |Run([], init)| && !a.Create? && !a.Sweep? && a.sid == sid
    requires var s := Run([], init)[sid]; Known(init, sid, s) && EndsIn(s, a, r)
    ensures Explains(init + [a], sid, c, r)
  {
    var s, n := Run([], init)[sid], |init|;
    TakenNow(init, a, sid);
    hide Run, Inv, Reports, CancelledWhileLive;
    if a.Cancel? {
      c := CancelledInQueue(n, a.now);
    } else {
      var i: nat, j: nat, e, failure :|
        CarriedBy(init, sid, i, j, e, failure, s.worker.info) && s.worker.error == Text(e, failure);
      TakenSince(init, a, sid, i);
      TakenSince(init, a, sid, j);
      c := RanToItsEnd(i, j, n, e, failure, s.worker.info, a.now);
      assert FinishesAt(init + [a], sid, n, a.now);
      hide Text, ReportsAt, CleansAt, FinishesAt, Taken, Explains;
      assert Through(init + [a], sid, c);
      RecordedAs(init + [a], sid, c, s, r, init);
    }
  }

  lemma RecordedAs(actions: seq<Action>, sid: nat, c: Cause, s: Session, r: Record, before: seq<Action>)
    requires c.RanToItsEnd? && Through(actions, sid, c) && c.finished < |actions|
    requires actions[..c.finished] == before && (s.cancelledLive <==> CancelledWhileLive(before, sid))
    requires s.worker == Cleaned(Text(c.error, c.failure), c.info) && EndsIn(s, Finish(sid, c.now), r)
    ensures Explains(actions, sid, c, r)
  {
    hide Text, Through, CancelledWhileLive;
  }

  // A session no action is about keeps what is known of it.
  lemma KnownStays(init: seq<Action>, a: Action, sid: nat, s: Session, s': Session)
    requires Known(init, sid, s) && s' == s.(kept := s'.kept)
    requires CancelledWhileLive(init + [a], sid) <==> CancelledWhileLive(init, sid)
    ensures Known(init + [a], sid, s')
  {
    CarriesStays(init, a, sid, s.worker);
    if i: nat :| BindsAt(init, sid, i) {
      TakenSince(init, a, sid, i);
    }
    hide Run, Carries, CancelledWhileLive, Taken;
    if Terminal(s.record.status) {
      var c :| Explains(init, sid, c, s.record);
      ExplainsStays(init, a, sid, c, s.record, s.record);
    }
  }

  lemma KnownNext(init: seq<Action>, a: Action, sid: nat)
    requires sid < |Run([], init)| && !a.Create? && !a.Sweep? && a.sid == sid
    requires Inv(Run([], init)[sid]) && Known(init, sid, Run([], init)[sid])
    ensures Known(init + [a], sid, NextOne(Run([], init)[sid], a))
  {
    var s, s' := Run([], init)[sid], NextOne(Run([], init)[sid], a);
    CarriesNew(init, a, sid);
    LiveCancelsPush(init, a, sid);
    ComesFrom(s, a);
    EndNext(init, a, sid);
    hide Run, NextOne, Carries, CancelledWhileLive, Inv, Explains, BindsAt;
  }

  lemma EndNext(init: seq<Action>, a: Action, sid: nat)
    requires sid < |Run([], init)| && !a.Create? && !a.Sweep? && a.sid == sid
    requires Inv(Run([], init)[sid]) && Known(init, sid, Run([], init)[sid])
    ensures var r := NextOne(Run([], init)[sid], a).record;
            if Terminal(r.status) then exists c :: Explains(init + [a], sid, c, r) else r.error == ""
  {
    var s, r := Run([], init)[sid], NextOne(Run([], init)[sid], a).record;
    if Terminal(s.record.status) {
      EndedStays(s, a);
      var c :| Explains(init, sid, c, s.record);
      hide *;
      ExplainsStays(init, a, sid, c, s.record, r);
      StaysTerminal(s.record, r);
    } else {
      EndsByStep(s, a);
      hide Run, NextOne, Known, Inv, EndsIn, Explains;
      if Terminal(r.status) {
        var c := EndsNew(init, a, sid, r);
      }
    }
  }

  lemma StaysTerminal(r: Record, r': Record)
    requires Terminal(r.status) && Outcome(r').(env := false) == Outcome(r).(env := false)
    ensures Terminal(r'.status)
  {
    assert Outcome(r).(env := false).status == r.status && Outcome(r').(env := false).status == r'.status;
  }

  lemma KnownAtFirst(init: seq<Action>, a: Action, sid: nat)
    requires |Run([], init)| <= sid < |Next(Run([], init), a)|
    ensures Known(init + [a], sid, NEW_SESSION)
  {
    forall i: nat ensures !Taken(init + [a], sid, i) {
      if i < |init| {
        GrowsTo(init, i);
        assert (init + [a])[..i] == init[..i];
      } else if i == |init| {
        assert (init + [a])[..i] == init;
      }
    }
    hide Run, Next;
  }

  lemma {:induction false} AllKnown(actions: seq<Action>, sid: nat)
    requires sid < |Run([], actions)|
    ensures Known(actions, sid, Run([], actions)[sid])
  {
    if actions != [] {
      var n := |actions| - 1;
      var init, a, before := actions[..n], actions[n], Run([], actions[..n]);
      assert actions == init + [a];
      RunKeeps([], init);
      if sid < |before| {
        AllKnown(init, sid);
        assert Inv(before[sid]);
        hide Known, Inv, NextOne;
        if a.Create? || a.Sweep? || a.sid != sid {
          OthersOnlyEvict(before, a, sid);
          LiveCancelsPush(init, a, sid);
          KnownStays(init, a, sid, before[sid], Next(before, a)[sid]);
        } else {
          KnownNext(init, a, sid);
        }
      } else {
        NewcomerIsKept(before, a, sid);
        KnownAtFirst(init, a, sid);
      }
    }
  }

  lemma OthersOnlyEvict(ss: seq<Session>, a: Action, sid: nat)
    requires sid < |ss| && (a.Create? || a.Sweep? || a.sid != sid)
    ensures sid < |Next(ss, a)| && Next(ss, a)[sid] == ss[sid].(kept := Next(ss, a)[sid].kept)
  {
    hide Remembers;
  }

  // ----- what a client may conclude -----

  /** Every session that has ended did so for a cause in the run: a cancellation while it was queued, or
      a report of its thread, a clean-up and the last lock section, in this order.  Which of the three
      outcomes it has, its error text, its result and its finish time follow from those steps and from
      whether a cancellation came while it was live. */
  lemma OutcomeHasItsCause(actions: seq<Action>, sid: nat) returns (c: Cause)
    requires sid < |Run([], actions)| && Terminal(Run([], actions)[sid].record.status)
    ensures Explains(actions, sid, c, Run([], actions)[sid].record)
  {
    AllKnown(actions, sid);
    hide Run, Explains, Carries, CancelledWhileLive;
    c :| Explains(actions, sid, c, Run([], actions)[sid].record);
  }

  /** A completed session: its agent ended without error and reported the recorded result, nothing
      failed in the clean-up after it, and no cancellation ever came while it was live. */
  lemma CompletedMeansItsAgentEnded(actions: seq<Action>, sid: nat) returns (c: Cause)
    requires sid < |Run([], actions)| && Run([], actions)[sid].record.status == Completed
    ensures c.RanToItsEnd? && c.error == "" && c.failure == "" && Through(actions, sid, c)
    ensures actions[c.reported] == AgentEnds(sid, "", c.info)
    ensures Run([], actions)[sid].record.result == Some(c.info)
    ensures Run([], actions)[sid].record.finishedAt == Some(c.now)
    ensures !CancelledWhileLive(actions, sid)
  {
    c := OutcomeHasItsCause(actions, sid);
    AllKnown(actions, sid);
    RunKeeps([], actions);
    assert Inv(Run([], actions)[sid]);
    assert Text(c.error, c.failure) == "";
    hide Run, CancelledWhileLive;
  }

  /** A failed session: some step of its thread reported an error, or the clean-up failed; its error is
      that text, and no cancellation ever came while it was live. */
  lemma FailedMeansAnErrorWasReported(actions: seq<Action>, sid: nat) returns (c: Cause)
    requires sid < |Run([], actions)| && Run([], actions)[sid].record.status == Failed
    ensures c.RanToItsEnd? && (c.error != "" || c.failure != "") && Through(actions, sid, c)
    ensures Run([], actions)[sid].record.error == Text(c.error, c.failure)
    ensures Run([], actions)[sid].record.finishedAt == Some(c.now)
    ensures !CancelledWhileLive(actions, sid)
  {
    c := OutcomeHasItsCause(actions, sid);
    AllKnown(actions, sid);
    RunKeeps([], actions);
    assert Inv(Run([], actions)[sid]);
    hide Run, CancelledWhileLive, Through;
  }

  /** A session that has ended is cancelled if and only if a cancellation came while it was live. */
  lemma CancelledIffCancelledLive(actions: seq<Action>, sid: nat)
    requires sid < |Run([], actions)| && Terminal(Run([], actions)[sid].record.status)
    ensures Run([], actions)[sid].record.status == Cancelled <==> CancelledWhileLive(actions, sid)
  {
    AllKnown(actions, sid);
    RunKeeps([], actions);
    assert Inv(Run([], actions)[sid]);
    hide Run, CancelledWhileLive, Explains;
  }

  /** A sandbox is built only after the thread found no cancellation, and an agent runs only after it
      found none again on binding it. */
  lemma WorkOnlyUncancelled(actions: seq<Action>, sid: nat)
    requires sid < |Run([], actions)|
    ensures var s := Run([], actions)[sid];
            && (s.worker.Building? || s.worker.Built? ==> exists i :: PassesCheckAt(actions, sid, i))
            && (s.agentRan ==> exists i :: BindsAt(actions, sid, i))
  {
    AllKnown(actions, sid);
    hide Run, BindsAt, PassesCheckAt;
  }
}
