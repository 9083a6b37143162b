/** What the steps of a run of the judge service did to each request: who was let in, refused or
    turned away, by which step, and in what order. */
module GenRMHistory {
  import opened GenRM
  import opened Instants
  import opened Occupancy

  // ----- stopping -----

  /** The service is stopping if and only if somebody has asked for it. */
  lemma {:induction false} StoppingIffAsked(limit: Limit, epoch: int, actions: seq<Action>)
    ensures Run(Init(limit, epoch), actions).stopping <==> StopService in actions
  {
    if actions != [] {
      var s := Run(Init(limit, epoch), Front(actions));
      StoppingIffAsked(limit, epoch, Front(actions));
      StopsBy(s, Last(actions));
      assert actions == Front(actions) + [Last(actions)];
      hide Next, Init, Front, Last;
    }
  }

  lemma StopsBy(s: Server, a: Action)
    ensures Next(s, a).stopping <==> s.stopping || a == StopService
  {}

  // ----- one step of one request -----

  // What becomes of a request once it is past the semaphore.
  ghost predicate Lands(stopping: bool, e: Entry, r: Request) {
    if stopping then r.phase == Over(Stopping)
    else if e.badMedia then r == Request(Over(InvalidMedia), Interval(e.now, e.later))
    else r == Request(Serving, Interval(e.now, e.now))
  }

  // How a step may change a request that was there.
  ghost predicate Moved(stopping: bool, a: Action, id: nat, r: Request, r': Request) {
    || r' == r
    || (r.phase == Waiting && r' == r.(phase := Handed))
    || ((r.phase == Waiting || r.phase == Handed) && a == CancelWaiting(id) && r' == r.(phase := Over(Cancelled)))
    || (r.phase == Handed && a.Resume? && a.id == id && Lands(stopping, a.entry, r'))
    || (&& r.phase == Serving && a.Complete? && a.id == id && a.outcome in {Served, Failed, Cancelled}
        && r' == Request(Over(a.outcome), Interval(r.span.start, a.now)))
  }

  // What every request of s' was in s, or how it came.
  ghost predicate AllMoved(s: Server, a: Action, s': Server) {
    && |s.requests| <= |s'.requests|
    && (forall id: nat | id < |s.requests| ::
          Moved(s.stopping, a, id, s.requests[id], s'.requests[id]))
    && (|s'.requests| > |s.requests| ==>
          && |s'.requests| == |s.requests| + 1 && a.Arrive?
          && if Locked(s) then s'.requests[|s.requests|] == Request(Waiting, NEVER)
             else Lands(s.stopping, a.entry, s'.requests[|s.requests|]))
  }

  // Past the semaphore only the request itself lands; others can only be handed a permit.
  lemma ProceedLands(s: Server, id: nat, e: Entry)
    requires IsAt(s, id, Holding)
    ensures var s' := Proceed(s, id, e);
            && |s'.requests| == |s.requests| && Lands(s.stopping, e, s'.requests[id])
            && forall j: nat | j < |s.requests| && j != id ::
                 s'.requests[j] == s.requests[j]
                 || (s.requests[j].phase == Waiting && s'.requests[j] == s.requests[j].(phase := Handed))
  {
    hide HandOver;
  }

  lemma ArrivedMoves(s: Server, e: Entry)
    ensures AllMoved(s, Arrive(e), Arrived(s, e))
  {
    if !Locked(s) {
      var t := s.(permits := if s.limit.AtMost? then s.permits - 1 else s.permits,
                  requests := s.requests + [Request(Holding, NEVER)]);
      ProceedLands(t, |s.requests|, e);
    }
    hide Proceed, Lands, Locked;
  }

  lemma ResumedMoves(s: Server, id: nat, e: Entry)
    requires IsAt(s, id, Handed)
    ensures AllMoved(s, Resume(id, e), Resumed(s, id, e))
  {
    var past := Past(s, id, Holding);
    ProceedLands(HandOverAll(past), id, e);
    hide Proceed, Lands, HandOverAll;
  }

  lemma CancelledMoves(s: Server, id: nat)
    requires IsAt(s, id, Waiting) || IsAt(s, id, Handed)
    ensures AllMoved(s, CancelWaiting(id), CancelledWaiting(s, id))
  {
    hide HandOverAll;
  }

  lemma LeaveMoves(s: Server, id: nat, now: int, outcome: Outcome)
    requires IsAt(s, id, Serving) && outcome in {Served, Failed, Cancelled}
    ensures AllMoved(s, Complete(id, now, outcome), Leave(s, id, now, outcome))
  {
    hide HandOver;
  }

  lemma NextMoves(s: Server, a: Action)
    ensures AllMoved(s, a, Next(s, a))
  {
    match a {
      case Arrive(e) => ArrivedMoves(s, e);
      case Resume(id, e) => if IsAt(s, id, Handed) { ResumedMoves(s, id, e); }
      case CancelWaiting(id) => if IsAt(s, id, Waiting) || IsAt(s, id, Handed) { CancelledMoves(s, id); }
      case Complete(id, now, outcome) =>
        if IsAt(s, id, Serving) && outcome in {Served, Failed, Cancelled} { LeaveMoves(s, id, now, outcome); }
      case Poll(now) =>
      case StopService =>
    }
    hide Arrived, Resumed, CancelledWaiting, Leave, Lands;
  }

  // ----- after stopping, nobody gets in -----

  // A request that was in flight, or was not, when the service began to stop.
  ghost predicate NoneLetIn(s: Server, s': Server) {
    |s.requests| <= |s'.requests| && forall id: nat | id < |s'.requests| :: OneNotLetIn(s, id, s'.requests[id])
  }

  ghost predicate OneNotLetIn(s: Server, id: nat, r: Request) {
    if id < |s.requests| then
      && (r.phase == Serving ==> r == s.requests[id])
      && (s.requests[id].phase != Serving ==>
            || r == s.requests[id]
            || (s.requests[id].phase in {Waiting, Handed} && TurnedAway(r.phase)))
    else TurnedAway(r.phase)
  }

  // Still in the queue, refused because the service stops, or gone by its own will.
  predicate TurnedAway(p: Phase) { p in {Waiting, Handed, Over(Stopping), Over(Cancelled)} }

  lemma NoneLetInStep(s: Server, t: Server, a: Action)
    requires NoneLetIn(s, t) && t.stopping
    ensures NoneLetIn(s, Next(t, a))
  {
    NextMoves(t, a);
    var t' := Next(t, a);
    hide Next, Locked;
    forall id: nat | id < |t'.requests| ensures OneNotLetIn(s, id, t'.requests[id]) {
      if id < |t.requests| {
        assert OneNotLetIn(s, id, t.requests[id]);
        assert Moved(true, a, id, t.requests[id], t'.requests[id]);
      }
    }
  }

  lemma {:induction false} NoneLetInRun(s: Server, after: seq<Action>)
    requires s.stopping
    ensures NoneLetIn(s, Run(s, after)) && Run(s, after).stopping
  {
    if after != [] {
      NoneLetInRun(s, Front(after));
      var t := Run(s, Front(after));
      StopsBy(t, Last(after));
      hide NoneLetIn, Next;
      NoneLetInStep(s, t, Last(after));
    }
  }

  /** From the moment somebody asked the service to stop, whatever arrives, resumes or is cancelled:
      no request is in flight that was not in flight then, and every request that leaves the semaphore
      is refused with the answer that the service is stopping. */
  lemma NobodyEntersOnceStopped(limit: Limit, epoch: int, before: seq<Action>, after: seq<Action>)
    requires StopService in before
    ensures NoneLetIn(Run(Init(limit, epoch), before), Run(Run(Init(limit, epoch), before), after))
  {
    StoppingIffAsked(limit, epoch, before);
    hide Run, NoneLetIn;
    NoneLetInRun(Run(Init(limit, epoch), before), after);
  }

  /** A drain seen once somebody asked the service to stop is final: nothing is in flight then, nor ever
      after. */
  lemma DrainIsFinal(limit: Limit, epoch: int, before: seq<Action>, after: seq<Action>)
    requires Configured(limit) && StopService in before && Run(Init(limit, epoch), before).drained
    ensures var s := Run(Run(Init(limit, epoch), before), after); s.inflight == 0 && s.drained && s.stopping
  {
    StoppingIffAsked(limit, epoch, before);
    hide Run;
    DrainStays(limit, epoch, before, after);
  }

  // ----- nobody overtakes -----

  // Who came after a request that still waits, waits too or has given up.
  ghost predicate InLine(rs: seq<Request>) {
    forall i: nat, j: nat | i < j < |rs| && rs[i].phase == Waiting :: rs[j].phase in {Waiting, Over(Cancelled)}
  }

  lemma HandOverKeepsLine(s: Server)
    requires InLine(s.requests)
    ensures InLine(HandOver(s).requests)
  {}

  lemma {:induction false} HandOverAllKeepsLine(s: Server)
    requires InLine(s.requests)
    ensures InLine(HandOverAll(s).requests)
    decreases s.permits
  {
    if s.permits != 0 && FirstWaiting(s.requests) != |s.requests| {
      HandOverKeepsLine(s);
      hide InLine;
      HandOverAllKeepsLine(HandOver(s));
    }
  }

  // Changing a request that does not wait, or cancelling one that does, leaves the line.
  lemma UpdateKeepsLine(rs: seq<Request>, id: nat, r: Request)
    requires InLine(rs) && id < |rs| && r.phase != Waiting
    requires rs[id].phase in {Waiting, Over(Cancelled)} ==> r.phase == Over(Cancelled)
    ensures InLine(rs[id := r])
  {}

  lemma ReleaseKeepsLine(s: Server)
    requires InLine(s.requests)
    ensures InLine(Release(s).requests)
  {
    HandOverKeepsLine(s.(permits := s.permits + 1));
    hide HandOver, InLine;
  }

  lemma LeaveKeepsLine(s: Server, id: nat, now: int, outcome: Outcome)
    requires InLine(s.requests) && IsAt(s, id, Serving)
    ensures InLine(Leave(s, id, now, outcome).requests)
  {
    var r := Request(Over(outcome), Interval(s.requests[id].span.start, now));
    UpdateKeepsLine(s.requests, id, r);
    ReleaseKeepsLine(Departed(s, id, now, outcome));
    hide InLine, Release;
  }

  lemma ProceedKeepsLine(s: Server, id: nat, e: Entry)
    requires InLine(s.requests) && IsAt(s, id, Holding)
    ensures InLine(Proceed(s, id, e).requests)
  {
    if s.stopping {
      var r := s.requests[id].(phase := Over(Stopping));
      UpdateKeepsLine(s.requests, id, r);
      ReleaseKeepsLine(s.(requests := s.requests[id := r]));
    } else {
      UpdateKeepsLine(s.requests, id, Request(Serving, Interval(e.now, e.now)));
      if e.badMedia {
        hide InLine;
        LeaveKeepsLine(Enter(s, id, e.now), id, e.later, InvalidMedia);
      }
    }
    hide InLine, Release;
  }

  lemma ArrivedKeepsLine(s: Server, e: Entry)
    requires InLine(s.requests) && Admission(s, 0)
    ensures InLine(Arrived(s, e).requests)
  {
    forall i: nat | i < |s.requests| && s.requests[i].phase == Waiting ensures Locked(s) {
      CountAny(s.requests, Waiting, i);
    }
    if !Locked(s) {
      var t := s.(permits := if s.limit.AtMost? then s.permits - 1 else s.permits,
                  requests := s.requests + [Request(Holding, NEVER)]);
      assert InLine(t.requests);
      ProceedKeepsLine(t, |s.requests|, e);
    }
    hide Proceed, Admission;
  }

  lemma NextKeepsLine(s: Server, a: Action)
    requires InLine(s.requests) && Admission(s, 0)
    ensures InLine(Next(s, a).requests)
  {
    match a {
      case Arrive(e) => ArrivedKeepsLine(s, e);
      case Resume(id, e) =>
        if IsAt(s, id, Handed) {
          var past := Past(s, id, Holding);
          UpdateKeepsLine(s.requests, id, s.requests[id].(phase := Holding));
          HandOverAllKeepsLine(past);
          ProceedKeepsLine(HandOverAll(past), id, e);
        }
      case CancelWaiting(id) =>
        if IsAt(s, id, Waiting) || IsAt(s, id, Handed) {
          var gone := Past(s, id, Over(Cancelled));
          UpdateKeepsLine(s.requests, id, s.requests[id].(phase := Over(Cancelled)));
          HandOverAllKeepsLine(if s.requests[id].phase == Handed then gone.(permits := s.permits + 1) else gone);
        }
      case Complete(id, now, outcome) =>
        if IsAt(s, id, Serving) { LeaveKeepsLine(s, id, now, outcome); }
      case Poll(now) =>
      case StopService =>
    }
    hide InLine, Arrived, Proceed, HandOverAll, Leave, Admission;
  }

  /** First come, first served: in every run, whoever arrived after a request that still waits for a
      permit waits as well, or has given up. */
  lemma {:induction false} NobodyOvertakes(limit: Limit, epoch: int, actions: seq<Action>)
    requires Configured(limit)
    ensures InLine(Run(Init(limit, epoch), actions).requests)
  {
    if actions != [] {
      NobodyOvertakes(limit, epoch, Front(actions));
      InitHolds(limit, epoch);
      RunAdmits(Init(limit, epoch), Front(actions));
      hide InLine, Next, Admission;
      NextKeepsLine(Run(Init(limit, epoch), Front(actions)), Last(actions));
    }
  }

  // ----- what each outcome was caused by -----

  // The server when the i-th action was taken.
  ghost function When(limit: Limit, epoch: int, actions: seq<Action>, i: nat): Server
    requires i <= |actions|
  {
    Run(Init(limit, epoch), actions[..i])
  }

  // The i-th action takes the request past the semaphore: it arrives at a free one, or resumes with the
  // permit it was handed.
  ghost predicate PastAt(limit: Limit, epoch: int, actions: seq<Action>, id: nat, i: nat, e: Entry) {
    && i < |actions|
    && var s := When(limit, epoch, actions, i);
       || (actions[i] == Arrive(e) && id == |s.requests| && !Locked(s))
       || (actions[i] == Resume(id, e) && IsAt(s, id, Handed))
  }

  ghost predicate GivesUpAt(limit: Limit, epoch: int, actions: seq<Action>, id: nat, i: nat) {
    && i < |actions| && actions[i] == CancelWaiting(id)
    && var s := When(limit, epoch, actions, i); IsAt(s, id, Waiting) || IsAt(s, id, Handed)
  }

  ghost predicate CompletesAt(limit: Limit, epoch: int, actions: seq<Action>, id: nat, j: nat, now: int, o: Outcome) {
    && j < |actions| && actions[j] == Complete(id, now, o) && IsAt(When(limit, epoch, actions, j), id, Serving)
  }

  // The step that brought a request where it is, and the one that let it in.
  datatype Cause =
    | NotYet
    | LetIn(i: nat, entry: Entry)
    | GaveUp(i: nat)
    | Ran(i: nat, entry: Entry, j: nat, now: int)

  ghost predicate Explains(limit: Limit, epoch: int, actions: seq<Action>, id: nat, c: Cause, r: Request) {
    match c
    case NotYet => r == Request(Waiting, NEVER) || r == Request(Handed, NEVER)
    case LetIn(i, e) =>
      && PastAt(limit, epoch, actions, id, i, e)
      && if StopService in actions[..i] then r.phase == Over(Stopping)
         else if e.badMedia then r == Request(Over(InvalidMedia), Interval(e.now, e.later))
         else r == Request(Serving, Interval(e.now, e.now))
    case GaveUp(i) => GivesUpAt(limit, epoch, actions, id, i) && r.phase == Over(Cancelled)
    case Ran(i, e, j, now) =>
      && i < j && PastAt(limit, epoch, actions, id, i, e) && StopService !in actions[..i] && !e.badMedia
      && r.phase.Over? && r.phase.outcome in {Served, Failed, Cancelled}
      && CompletesAt(limit, epoch, actions, id, j, now, r.phase.outcome)
      && r.span == Interval(e.now, now)
  }

  lemma WhenBefore(limit: Limit, epoch: int, init: seq<Action>, a: Action, i: nat)
    requires i <= |init|
    ensures When(limit, epoch, init + [a], i) == When(limit, epoch, init, i)
    ensures (init + [a])[..i] == init[..i] && (i < |init| ==> (init + [a])[i] == init[i])
  {
    assert (init + [a])[..i] == init[..i];
  }

  lemma ExplainsStays(limit: Limit, epoch: int, init: seq<Action>, a: Action, id: nat, c: Cause, r: Request)
    requires Explains(limit, epoch, init, id, c, r)
    ensures Explains(limit, epoch, init + [a], id, c, r)
  {
    hide When, Locked;
    match c
    case NotYet =>
    case LetIn(i, e) => WhenBefore(limit, epoch, init, a, i);
    case GaveUp(i) => WhenBefore(limit, epoch, init, a, i);
    case Ran(i, e, j, now) =>
      WhenBefore(limit, epoch, init, a, i);
      WhenBefore(limit, epoch, init, a, j);
  }

  // What the last step did to one request.
  lemma ExplainsNext(limit: Limit, epoch: int, init: seq<Action>, a: Action, id: nat, c: Cause, r: Request, r': Request)
    returns (c': Cause)
    requires Explains(limit, epoch, init, id, c, r)
    requires IsAt(When(limit, epoch, init, |init|), id, r.phase)
    requires Moved(StopService in init, a, id, r, r')
    ensures Explains(limit, epoch, init + [a], id, c', r')
  {
    var n := |init|;
    WhenBefore(limit, epoch, init, a, n);
    assert (init + [a])[n] == a && init[..n] == init;
    ExplainsStays(limit, epoch, init, a, id, c, r);
    hide When, Locked;
    if r' == r {
      c' := c;
    } else if r'.phase == Handed {
      c' := NotYet;
    } else if a.CancelWaiting? {
      c' := GaveUp(n);
    } else if a.Resume? {
      c' := LetIn(n, a.entry);
    } else {
      c' := Ran(c.i, c.entry, n, a.now);
    }
  }

  lemma ExplainsArrival(limit: Limit, epoch: int, init: seq<Action>, e: Entry, r: Request) returns (c: Cause)
    requires var s := When(limit, epoch, init, |init|);
             if Locked(s) then r == Request(Waiting, NEVER) else Lands(StopService in init, e, r)
    ensures Explains(limit, epoch, init + [Arrive(e)], |When(limit, epoch, init, |init|).requests|, c, r)
  {
    var n := |init|;
    WhenBefore(limit, epoch, init, Arrive(e), n);
    assert (init + [Arrive(e)])[n] == Arrive(e) && init[..n] == init;
    c := if Locked(When(limit, epoch, init, n)) then NotYet else LetIn(n, e);
    hide When, Locked;
  }

  /** Every request is where the steps of the run brought it: in the queue; in flight since the step that
      let it in before anyone asked the service to stop; refused by that step for its media, or because
      the service was stopping; gone by its own will; or over with the outcome its engine call reported,
      in flight from the one step to the other. */
  lemma {:induction false} OutcomeHasItsCause(limit: Limit, epoch: int, actions: seq<Action>, id: nat)
    returns (c: Cause)
    requires id < |Run(Init(limit, epoch), actions).requests|
    ensures Explains(limit, epoch, actions, id, c, Run(Init(limit, epoch), actions).requests[id])
  {
    if actions == [] {
      c := NotYet;
    } else {
      var init, a := Front(actions), Last(actions);
      var s := Run(Init(limit, epoch), init);
      assert actions == init + [a] && init[..|init|] == init && s == When(limit, epoch, init, |init|);
      NextMoves(s, a);
      StoppingIffAsked(limit, epoch, init);
      var r' := Run(Init(limit, epoch), actions).requests[id];
      hide Next, Explains, Init, When, Moved, Lands, Locked;
      if id < |s.requests| {
        var earlier := OutcomeHasItsCause(limit, epoch, init, id);
        c := ExplainsNext(limit, epoch, init, a, id, earlier, s.requests[id], r');
      } else {
        c := ExplainsArrival(limit, epoch, init, a.entry, r');
      }
    }
  }
}
