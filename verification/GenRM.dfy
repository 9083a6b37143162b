/** Admission, drain and occupancy accounting of the judge service, as the steps its coroutines
    take between await points.  Times are integer nanoseconds of the monotonic clock. */
module GenRM {
  import opened Instants

  datatype Limit = Unlimited | AtMost(n: nat)

  datatype Outcome = Served | Failed | Cancelled | Stopping | InvalidMedia

  // Waiting for a permit; handed one by a release but not yet resumed; past the semaphore;
  // in flight; gone.
  datatype Phase = Waiting | Handed | Holding | Serving | Over(outcome: Outcome)

  // The interval a request is in flight; it has no length until the request is admitted, and
  // its end means nothing while the request is in flight.
  datatype Request = Request(phase: Phase, span: Interval)

  datatype Server = Server(
    limit: Limit,
    permits: nat,                // what the semaphore has left
    requests: seq<Request>,      // in order of arrival
    inflight: int, queued: int, served: nat,
    drained: bool, stopping: bool,
    anchor: int, integral: int, busy: int)

  // What a request meets once it is past the semaphore: the clock when it is admitted, the clock
  // after its media was examined, and whether the media is refused.
  datatype Entry = Entry(now: int, later: int, badMedia: bool)

  datatype Action =
    | Arrive(entry: Entry)
    | Resume(id: nat, entry: Entry)
    | CancelWaiting(id: nat)
    | Complete(id: nat, now: int, outcome: Outcome)
    | Poll(now: int)
    | StopService

  function Init(limit: Limit, epoch: int): Server {
    Server(limit, if limit.AtMost? then limit.n else 0, [], 0, 0, 0, true, false, epoch, 0, 0)
  }

  // ----- the steps -----

  function Advance(s: Server, now: int): Server {
    s.(anchor := now,
       integral := s.integral + s.inflight * (now - s.anchor),
       busy := s.busy + if s.inflight > 0 then now - s.anchor else 0)
  }

  function FirstWaiting(rs: seq<Request>): (i: nat)
    ensures i <= |rs|
    ensures i < |rs| ==> rs[i].phase == Waiting
    ensures forall j | 0 <= j < i :: rs[j].phase != Waiting
  {
    if rs == [] || rs[0].phase == Waiting then 0 else 1 + FirstWaiting(rs[1..])
  }

  // Only permits moved, from the semaphore to waiting requests.
  ghost predicate HandedOver(s: Server, s': Server) {
    && s' == s.(permits := s'.permits, requests := s'.requests) && |s'.requests| == |s.requests|
    && forall j | 0 <= j < |s.requests| ::
         s'.requests[j] == s.requests[j]
         || (s.requests[j].phase == Waiting && s'.requests[j] == s.requests[j].(phase := Handed))
  }

  // A free permit goes to the first waiter, if there is one.
  function HandOver(s: Server): (s': Server)
    ensures HandedOver(s, s')
  {
    var i := FirstWaiting(s.requests);
    if s.permits == 0 || i == |s.requests| then s
    else s.(permits := s.permits - 1, requests := s.requests[i := s.requests[i].(phase := Handed)])
  }

  function Release(s: Server): (s': Server)
    ensures HandedOver(s, s')
  {
    if s.limit.Unlimited? then s else HandOver(s.(permits := s.permits + 1))
  }

  // A waiter that wakes passes on what became free while it was about to.
  function HandOverAll(s: Server): (s': Server)
    ensures HandedOver(s, s')
    decreases s.permits
  {
    if s.permits == 0 || FirstWaiting(s.requests) == |s.requests| then s else HandOverAll(HandOver(s))
  }

  function Enter(s: Server, id: nat, now: int): Server
    requires id < |s.requests|
  {
    var a := Advance(s, now);
    a.(inflight := s.inflight + 1, drained := false,
       requests := s.requests[id := Request(Serving, Interval(now, now))])
  }

  function Departed(s: Server, id: nat, now: int, outcome: Outcome): Server
    requires id < |s.requests|
  {
    var a := Advance(s, now);
    a.(inflight := s.inflight - 1,
       drained := s.inflight - 1 == 0 || s.drained,
       served := s.served + if outcome == Served then 1 else 0,
       requests := s.requests[id := Request(Over(outcome), Interval(s.requests[id].span.start, now))])
  }

  function Leave(s: Server, id: nat, now: int, outcome: Outcome): Server
    requires id < |s.requests|
  {
    Release(Departed(s, id, now, outcome))
  }

  // Everything a request does from the semaphore to its first await.
  function Proceed(s: Server, id: nat, e: Entry): Server
    requires id < |s.requests|
  {
    if s.stopping then
      Release(s.(requests := s.requests[id := s.requests[id].(phase := Over(Stopping))]))
    else if e.badMedia then Leave(Enter(s, id, e.now), id, e.later, InvalidMedia)
    else Enter(s, id, e.now)
  }

  const NEVER := Interval(0, 0)

  // A free permit is taken at once, unless others already wait or are about to resume.
  predicate Locked(s: Server) {
    s.limit.AtMost? && (s.permits == 0 || s.queued > 0)
  }

  function Arrived(s: Server, e: Entry): Server {
    var id := |s.requests|;
    if Locked(s) then s.(queued := s.queued + 1, requests := s.requests + [Request(Waiting, NEVER)])
    else
      Proceed(s.(permits := if s.limit.AtMost? then s.permits - 1 else s.permits,
                 requests := s.requests + [Request(Holding, NEVER)]), id, e)
  }

  function Past(s: Server, id: nat, p: Phase): Server
    requires id < |s.requests|
  {
    s.(queued := s.queued - 1, requests := s.requests[id := s.requests[id].(phase := p)])
  }

  function Resumed(s: Server, id: nat, e: Entry): Server
    requires id < |s.requests|
  {
    Proceed(HandOverAll(Past(s, id, Holding)), id, e)
  }

  function CancelledWaiting(s: Server, id: nat): Server
    requires id < |s.requests|
  {
    var gone := Past(s, id, Over(Cancelled));
    HandOverAll(if s.requests[id].phase == Handed then gone.(permits := s.permits + 1) else gone)
  }

  predicate IsAt(s: Server, id: nat, p: Phase) { id < |s.requests| && s.requests[id].phase == p }

  // An action out of turn changes nothing.
  function Next(s: Server, a: Action): Server {
    match a
    case Arrive(e) => Arrived(s, e)
    case Resume(id, e) => if IsAt(s, id, Handed) then Resumed(s, id, e) else s
    case CancelWaiting(id) =>
      if IsAt(s, id, Waiting) || IsAt(s, id, Handed) then CancelledWaiting(s, id) else s
    case Complete(id, now, outcome) =>
      if IsAt(s, id, Serving) && outcome in {Served, Failed, Cancelled}
      then Leave(s, id, now, outcome) else s
    case Poll(now) => Advance(s, now)
    case StopService => s.(stopping := true)
  }

  // The clock readings of an action, given the last one: they never go back.
  predicate Timely(last: int, a: Action) {
    match a
    case Arrive(e) => last <= e.now <= e.later
    case Resume(_, e) => last <= e.now <= e.later
    case Complete(_, now, _) => last <= now
    case Poll(now) => last <= now
    case _ => true
  }

  function Clock(last: int, a: Action): int {
    match a
    case Arrive(e) => e.later
    case Resume(_, e) => e.later
    case Complete(_, now, _) => now
    case Poll(now) => now
    case _ => last
  }

  function Clocks(epoch: int, actions: seq<Action>): int {
    if actions == [] then epoch else Clock(Clocks(epoch, Front(actions)), Last(actions))
  }

  ghost predicate AllTimely(epoch: int, actions: seq<Action>) {
    actions != [] ==>
      AllTimely(epoch, Front(actions)) && Timely(Clocks(epoch, Front(actions)), Last(actions))
  }

  function Front<T>(s: seq<T>): seq<T>
    requires s != []
  {
    s[..|s| - 1]
  }

  function Last<T>(s: seq<T>): T
    requires s != []
  {
    s[|s| - 1]
  }

  function Run(s: Server, actions: seq<Action>): Server {
    if actions == [] then s else Next(Run(s, Front(actions)), Last(actions))
  }

  // ----- counting requests -----

  function Count(rs: seq<Request>, p: Phase): nat {
    if rs == [] then 0 else (if rs[0].phase == p then 1 else 0) + Count(rs[1..], p)
  }

  lemma {:induction false} CountUpdate(rs: seq<Request>, i: nat, r: Request, p: Phase)
    requires i < |rs|
    ensures Count(rs[i := r], p) ==
      Count(rs, p) - (if rs[i].phase == p then 1 else 0) + (if r.phase == p then 1 else 0)
  {
    if i == 0 {
      assert rs[i := r][1..] == rs[1..];
    } else {
      assert rs[i := r][1..] == rs[1..][i - 1 := r];
      CountUpdate(rs[1..], i - 1, r, p);
    }
  }

  lemma {:induction false} CountPush(rs: seq<Request>, r: Request, p: Phase)
    ensures Count(rs + [r], p) == Count(rs, p) + if r.phase == p then 1 else 0
  {
    if rs != [] {
      assert (rs + [r])[1..] == rs[1..] + [r];
      CountPush(rs[1..], r, p);
    }
  }

  lemma {:induction false} CountAny(rs: seq<Request>, p: Phase, i: nat)
    requires i < |rs| && rs[i].phase == p
    ensures Count(rs, p) > 0
  {
    if i > 0 {
      CountAny(rs[1..], p, i - 1);
    }
  }

  lemma {:induction false} CountNone(rs: seq<Request>, p: Phase)
    requires forall i | 0 <= i < |rs| :: rs[i].phase != p
    ensures Count(rs, p) == 0
  {
    if rs != [] {
      CountNone(rs[1..], p);
    }
  }

  // ----- admission -----

  function Held(rs: seq<Request>): nat { Count(rs, Handed) + Count(rs, Holding) + Count(rs, Serving) }

  // Every permit is free or held by exactly one request; loose is one just given up.  The
  // counters count, and the drain event means no one in flight.
  ghost predicate Admission(s: Server, loose: nat) {
    && (s.limit.AtMost? ==> s.limit.n > 0 && s.permits + Held(s.requests) + loose == s.limit.n)
    && (s.limit.Unlimited? ==> Count(s.requests, Waiting) == 0 && Count(s.requests, Handed) == 0)
    && s.inflight == Count(s.requests, Serving)
    && s.queued == Count(s.requests, Waiting) + Count(s.requests, Handed)
    && s.served == Count(s.requests, Over(Served))
    && s.drained == (s.inflight == 0)
  }

  lemma CountUpdates(rs: seq<Request>, i: nat, r: Request)
    requires i < |rs|
    ensures forall p ::
      Count(rs[i := r], p) == Count(rs, p) - (if rs[i].phase == p then 1 else 0) + (if r.phase == p then 1 else 0)
  {
    forall p
      ensures Count(rs[i := r], p) ==
        Count(rs, p) - (if rs[i].phase == p then 1 else 0) + (if r.phase == p then 1 else 0)
    {
      CountUpdate(rs, i, r, p);
    }
  }

  // Nobody waits beside a free permit unless another is about to resume and pass it on.
  ghost predicate NoneStranded(s: Server) {
    s.permits > 0 && Count(s.requests, Waiting) > 0 ==> Count(s.requests, Handed) > 0
  }

  lemma HandOverAdmits(s: Server)
    requires Admission(s, 0)
    ensures Admission(HandOver(s), 0)
    ensures Count(HandOver(s).requests, Holding) == Count(s.requests, Holding)
    ensures NoneStranded(s) || s.permits > 0 ==> NoneStranded(HandOver(s))
  {
    hide Count;
    var rs := s.requests;
    var i := FirstWaiting(rs);
    if i < |rs| {
      CountUpdates(rs, i, rs[i].(phase := Handed));
      CountAny(rs, Waiting, i);
    } else {
      CountNone(rs, Waiting);
    }
  }

  lemma ReleaseAdmits(s: Server)
    requires Admission(s, 1) && NoneStranded(s)
    ensures Admission(Release(s), 0) && NoneStranded(Release(s))
    ensures Count(Release(s).requests, Holding) == Count(s.requests, Holding)
  {
    hide Count;
    if s.limit.AtMost? {
      HandOverAdmits(s.(permits := s.permits + 1));
    }
  }

  lemma {:induction false} HandOverAllAdmits(s: Server)
    requires Admission(s, 0)
    ensures var s' := HandOverAll(s);
            Admission(s', 0) && NoneStranded(s') && Count(s'.requests, Holding) == Count(s.requests, Holding)
    decreases s.permits
  {
    hide Count;
    if s.permits == 0 {
    } else if FirstWaiting(s.requests) == |s.requests| {
      CountNone(s.requests, Waiting);
    } else {
      HandOverAdmits(s);
      hide Admission;
      HandOverAllAdmits(HandOver(s));
    }
  }

  lemma EnterAdmits(s: Server, id: nat, now: int)
    requires Admission(s, 0) && NoneStranded(s) && IsAt(s, id, Holding)
    ensures var s' := Enter(s, id, now);
            && Admission(s', 0) && NoneStranded(s') && IsAt(s', id, Serving)
            && s'.inflight == s.inflight + 1
            && Count(s'.requests, Holding) == Count(s.requests, Holding) - 1
  {
    hide Count;
    CountUpdates(s.requests, id, Request(Serving, Interval(now, now)));
  }

  lemma LeaveAdmits(s: Server, id: nat, now: int, outcome: Outcome)
    requires Admission(s, 0) && NoneStranded(s) && IsAt(s, id, Serving)
    ensures var s' := Leave(s, id, now, outcome);
            && Admission(s', 0) && NoneStranded(s') && s'.inflight == s.inflight - 1
            && Count(s'.requests, Holding) == Count(s.requests, Holding)
  {
    hide Count;
    var r := Request(Over(outcome), Interval(s.requests[id].span.start, now));
    CountUpdates(s.requests, id, r);
    CountAny(s.requests, Serving, id);
    var left := Departed(s, id, now, outcome);
    assert Admission(left, 1) && NoneStranded(left);
    hide Admission, NoneStranded;
    ReleaseAdmits(left);
  }

  lemma ProceedAdmits(s: Server, id: nat, e: Entry)
    requires Admission(s, 0) && NoneStranded(s) && IsAt(s, id, Holding)
    ensures var s' := Proceed(s, id, e);
            && Admission(s', 0) && NoneStranded(s')
            && Count(s'.requests, Holding) == Count(s.requests, Holding) - 1
            && s'.inflight == (if s.stopping || e.badMedia then s.inflight else s.inflight + 1)
  {
    hide Count;
    if s.stopping {
      var r := s.requests[id].(phase := Over(Stopping));
      CountUpdates(s.requests, id, r);
      assert Admission(s.(requests := s.requests[id := r]), 1);
      ReleaseAdmits(s.(requests := s.requests[id := r]));
    } else {
      EnterAdmits(s, id, e.now);
      if e.badMedia {
        LeaveAdmits(Enter(s, id, e.now), id, e.later, InvalidMedia);
      }
    }
    hide Admission, NoneStranded, Release, Leave, Enter;
  }

  ghost predicate Settled(s: Server) {
    Admission(s, 0) && NoneStranded(s) && Count(s.requests, Holding) == 0
  }

  lemma ArrivedAdmits(s: Server, e: Entry)
    requires Settled(s)
    ensures Settled(Arrived(s, e))
    ensures s.stopping ==> Arrived(s, e).inflight == s.inflight
  {
    var phase := if Locked(s) then Waiting else Holding;
    forall p
      ensures Count(s.requests + [Request(phase, NEVER)], p) == Count(s.requests, p) + if phase == p then 1 else 0
    {
      CountPush(s.requests, Request(phase, NEVER), p);
    }
    hide Count, Proceed;
    if !Locked(s) {
      var t := s.(permits := if s.limit.AtMost? then s.permits - 1 else s.permits,
                  requests := s.requests + [Request(Holding, NEVER)]);
      ProceedAdmits(t, |s.requests|, e);
    }
  }

  lemma ResumedAdmits(s: Server, id: nat, e: Entry)
    requires Settled(s) && IsAt(s, id, Handed)
    ensures Settled(Resumed(s, id, e))
    ensures s.stopping ==> Resumed(s, id, e).inflight == s.inflight
  {
    CountUpdates(s.requests, id, s.requests[id].(phase := Holding));
    CountAny(s.requests, Handed, id);
    hide Count;
    var past := Past(s, id, Holding);
    HandOverAllAdmits(past);
    hide Proceed;
    ProceedAdmits(HandOverAll(past), id, e);
  }

  lemma CancelledAdmits(s: Server, id: nat)
    requires Settled(s) && (IsAt(s, id, Waiting) || IsAt(s, id, Handed))
    ensures Settled(CancelledWaiting(s, id))
    ensures CancelledWaiting(s, id).inflight == s.inflight
  {
    CountUpdates(s.requests, id, s.requests[id].(phase := Over(Cancelled)));
    CountAny(s.requests, s.requests[id].phase, id);
    hide Count;
    var gone := Past(s, id, Over(Cancelled));
    HandOverAllAdmits(if s.requests[id].phase == Handed then gone.(permits := s.permits + 1) else gone);
  }

  /** Every step keeps the admission ledger, and none admits a request once stopping is set. */
  lemma NextAdmits(s: Server, a: Action)
    requires Settled(s)
    ensures Settled(Next(s, a))
    ensures s.stopping ==> Next(s, a).stopping && Next(s, a).inflight <= s.inflight
  {
    match a
    case Arrive(e) => ArrivedAdmits(s, e);
    case Resume(id, e) => if IsAt(s, id, Handed) { ResumedAdmits(s, id, e); }
    case CancelWaiting(id) =>
      if IsAt(s, id, Waiting) || IsAt(s, id, Handed) { CancelledAdmits(s, id); }
    case Complete(id, now, outcome) =>
      if IsAt(s, id, Serving) && outcome in {Served, Failed, Cancelled} { LeaveAdmits(s, id, now, outcome); }
    case Poll(_) =>
    case StopService =>
  }

  lemma {:induction false} RunAdmits(s: Server, actions: seq<Action>)
    requires Settled(s)
    ensures Settled(Run(s, actions))
    ensures s.stopping ==> Run(s, actions).stopping && Run(s, actions).inflight <= s.inflight
  {
    if actions != [] {
      RunAdmits(s, Front(actions));
      NextAdmits(Run(s, Front(actions)), Last(actions));
    }
  }
}
