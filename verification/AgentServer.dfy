/** The agent server's own records and the threads that run its sessions.  A method is one lock
    section, or what a thread does between two; every sequence of them is a run of the session
    model, on the samples the leasing model hands out. */
module AgentServer {
  import opened Common
  import opened Leasing
  import opened Sessions

  // The server's names for sessions are unique; here they are numbers, in order of creation.
  datatype SessionId = SessionId(number: nat)

  class SessionRecord {
    const sampleIdx: int
    var status: Status
    var exitCode: Option<int>
    var error: string
    var result: Option<Info>
    var env: bool
    var cancelEvent: bool
    var finishedAt: Option<int>

    function View(): Record
      reads this
    {
      Record(status, exitCode, error, result, env, cancelEvent, finishedAt)
    }

    constructor (sampleIdx: int)
      ensures View() == FRESH && this.sampleIdx == sampleIdx
    {
      this.sampleIdx := sampleIdx;
      status, exitCode, error, result := Queued, None, "", None;
      env, cancelEvent, finishedAt := false, false, None;
    }

    method Cancel(now: int)
      modifies this
      ensures View() == CancelledAt(old(View()), now)
    {
      status, exitCode := Cancelled, Some(143);
      if error == "" {
        error := "session cancelled";
      }
      finishedAt := Some(now);
    }

    method Finish(info: Info, failure: string, now: int)
      modifies this
      ensures View() == FinishedAt(old(View()), info, failure, now)
      ensures finishedAt == Some(now)
      ensures old(cancelEvent) ==> status == Cancelled && exitCode == Some(143) && result == old(result)
      ensures !old(cancelEvent) && failure != "" ==>
        status == Failed && exitCode == Some(1) && error == failure && result == old(result)
      ensures !old(cancelEvent) && failure == "" ==>
        status == Completed && exitCode == Some(0) && error == old(error) && result == Some(info)
    {
      if cancelEvent {
        if failure != "" {
          error := failure;
        }
        Cancel(now);
        return;
      }
      if failure != "" {
        status, exitCode, error, finishedAt := Failed, Some(1), failure, Some(now);
        return;
      }
      status, exitCode, result, finishedAt := Completed, Some(0), Some(info), Some(now);
    }
  }

  // A submitted call of the session's run: the record it works on, how far it is, its sandbox, and
  // whether a canceller holds that sandbox.
  datatype Thread = Thread(record: SessionRecord, worker: Worker, sandboxUp: bool, held: bool)

  // Threads work on records of their own, and the table holds only those.
  ghost predicate Separated(threads: seq<Thread>, records: map<SessionId, SessionRecord>) {
    && (forall m, n | 0 <= m < n < |threads| :: threads[m].record != threads[n].record)
    && (forall sid | sid in records ::
          sid.number < |threads| && records[sid] == threads[sid.number].record)
  }

  ghost function RecordsOf(threads: seq<Thread>): set<SessionRecord> {
    set n | 0 <= n < |threads| :: threads[n].record
  }

  ghost function ViewsOf(threads: seq<Thread>): (views: seq<Record>)
    reads RecordsOf(threads)
    ensures |views| == |threads| && forall n | 0 <= n < |threads| :: views[n] == threads[n].record.View()
  {
    seq(|threads|, n requires 0 <= n < |threads| reads RecordsOf(threads) => threads[n].record.View())
  }

  // A thread with a record of its own joins.
  lemma OneJoins(threads: seq<Thread>, records: map<SessionId, SessionRecord>, thread: Thread)
    requires Separated(threads, records) && thread.record !in RecordsOf(threads)
    ensures Separated(threads + [thread], records[SessionId(|threads|) := thread.record])
    ensures ViewsOf(threads + [thread]) == ViewsOf(threads) + [thread.record.View()]
  {
    assert forall n | 0 <= n < |threads| :: threads[n].record in RecordsOf(threads);
    hide SessionRecord.View;
  }

  // The table, the threads and their records show these sessions.
  ghost predicate Shows(ss: seq<Session>, threads: seq<Thread>, views: seq<Record>, names: set<SessionId>) {
    && |ss| == |threads| == |views|
    && (forall sid | sid in names :: sid.number < |ss|)
    && forall n | 0 <= n < |ss| :: ShowsAt(ss[n], threads[n], views[n], SessionId(n) in names)
  }

  ghost predicate ShowsAt(s: Session, thread: Thread, view: Record, kept: bool) {
    && s.record == view && s.worker == thread.worker && s.sandboxUp == thread.sandboxUp
    && s.sawSandbox == thread.held && s.kept == kept
  }

  // One thread moved, as its session did.
  lemma OneMoved(ss: seq<Session>, threads: seq<Thread>, views: seq<Record>, names: set<SessionId>,
                 n: nat, a: Action, thread: Thread, view: Record)
    requires Shows(ss, threads, views, names) && AllInv(ss) && n < |ss|
    requires !a.Create? && !a.Sweep? && a.sid == n
    requires ShowsAt(NextOne(ss[n], a), thread, view, SessionId(n) in names)
    ensures Shows(Next(ss, a), threads[n := thread], views[n := view], names) && AllInv(Next(ss, a))
  {
    NextKeepsAll(ss, a);
    hide NextOne, ShowsAt, AllInv;
  }

  // As many threads as sessions.
  lemma SameCount(ss: seq<Session>, threads: seq<Thread>, views: seq<Record>, names: set<SessionId>)
    requires Shows(ss, threads, views, names)
    ensures |threads| == |ss|
  {}

  // A queued session joins.
  lemma NewcomerShows(ss: seq<Session>, threads: seq<Thread>, views: seq<Record>, names: set<SessionId>,
                      record: SessionRecord)
    requires Shows(ss, threads, views, names)
    ensures Shows(ss + [NEW_SESSION], threads + [Thread(record, Waiting, false, false)], views + [FRESH],
                  names + {SessionId(|ss|)})
  {
    hide AllInv;
  }

  // A sweep took the stale records out of the table and left the rest.
  lemma SweptShows(ss: seq<Session>, threads: seq<Thread>, views: seq<Record>, names: set<SessionId>,
                   stale: set<SessionId>, cutoff: int)
    requires Shows(ss, threads, views, names)
    requires forall sid | sid in names :: sid in stale <==> Stale(views[sid.number], cutoff)
    ensures Shows(Next(ss, Sweep(cutoff)), threads, views, names - stale)
  {
    var after := Next(ss, Sweep(cutoff));
    forall n | 0 <= n < |ss| ensures ShowsAt(after[n], threads[n], views[n], SessionId(n) in names - stale) {
      OnlySweepsEvict(ss, Sweep(cutoff), n);
    }
    hide Stale;
  }

  lemma SizeWithout(records: map<SessionId, SessionRecord>, stale: set<SessionId>)
    requires stale <= records.Keys
    ensures |records - stale| == |records| - |stale| && (records - stale).Keys == records.Keys - stale
  {}

  lemma NextKeepsAll(ss: seq<Session>, a: Action)
    requires AllInv(ss)
    ensures AllInv(Next(ss, a))
  {
    RunKeeps(ss, [a]);
    OneStep(ss, a);
    hide *;
  }

  // ----- between two lock sections -----

  predicate Unlocked(a: Action) {
    a.CancelFuture? || a.CancellerCleansUp? || a.SetupFails? || a.CheckCancel? || a.SandboxStarts?
    || a.BuildEnds? || a.AgentEnds? || a.CleanUp?
  }

  // Where such a step leaves the thread.
  function Proceeded(t: Thread, cancelled: bool, a: Action): Thread
    requires Unlocked(a)
  {
    match a
    case CancelFuture(_) => if cancelled && t.worker.Waiting? then t.(worker := Gone) else t
    case CancellerCleansUp(_) => if t.held then t.(sandboxUp := false) else t
    case SetupFails(_) => if t.worker.Preparing? then t.(worker := Crashed) else t
    case CheckCancel(_) =>
      if !t.worker.Preparing? then t
      else if cancelled then t.(worker := Unwinding(REFUSED, NO_INFO))
      else t.(worker := Building)
    case SandboxStarts(_) => if t.worker.Building? then t.(sandboxUp := true) else t
    case BuildEnds(_, error) =>
      if !t.worker.Building? then t
      else if error != "" then t.(worker := Unwinding(error, NO_INFO))
      else t.(worker := Built, sandboxUp := true)
    case AgentEnds(_, error, info) => if t.worker.Working? then t.(worker := Unwinding(error, info)) else t
    case CleanUp(_, failure) =>
      if !t.worker.Unwinding? then t
      else if failure == "" then t.(worker := Cleaned(t.worker.error, t.worker.info), sandboxUp := false)
      else
        var soFar := if t.worker.error == "" then "" else t.worker.error + "\n";
        t.(worker := Cleaned(soFar + "cleanup failed: " + failure, t.worker.info))
  }

  lemma ProceedsAs(s: Session, t: Thread, view: Record, kept: bool, a: Action)
    requires Unlocked(a) && ShowsAt(s, t, view, kept)
    ensures ShowsAt(NextOne(s, a), Proceeded(t, view.cancelEvent, a), view, kept)
    ensures Proceeded(t, view.cancelEvent, a).record == t.record
  {
    hide NextOne, Proceeded, ShowsAt;
    if a.CleanUp? {
      CleansUpAs(s, t, view, kept, a);
    } else if a.SandboxStarts? || a.BuildEnds? || a.AgentEnds? {
      LateStepsAs(s, t, view, kept, a);
    } else {
      EarlyStepsAs(s, t, view, kept, a);
    }
  }

  lemma EarlyStepsAs(s: Session, t: Thread, view: Record, kept: bool, a: Action)
    requires a.CancelFuture? || a.CancellerCleansUp? || a.SetupFails? || a.CheckCancel?
    requires ShowsAt(s, t, view, kept)
    ensures ShowsAt(NextOne(s, a), Proceeded(t, view.cancelEvent, a), view, kept)
    ensures Proceeded(t, view.cancelEvent, a).record == t.record
  {
    hide AfterCancel, AfterBegin, AfterBind, AfterFinish, AfterCleanUp, Stale, Remembers;
  }

  lemma LateStepsAs(s: Session, t: Thread, view: Record, kept: bool, a: Action)
    requires a.SandboxStarts? || a.BuildEnds? || a.AgentEnds?
    requires ShowsAt(s, t, view, kept)
    ensures ShowsAt(NextOne(s, a), Proceeded(t, view.cancelEvent, a), view, kept)
    ensures Proceeded(t, view.cancelEvent, a).record == t.record
  {
    hide AfterCancel, AfterBegin, AfterBind, AfterFinish, Stale, Remembers;
  }

  lemma CleansUpAs(s: Session, t: Thread, view: Record, kept: bool, a: Action)
    requires a.CleanUp? && ShowsAt(s, t, view, kept)
    ensures ShowsAt(NextOne(s, a), Proceeded(t, view.cancelEvent, a), view, kept)
    ensures Proceeded(t, view.cancelEvent, a).record == t.record
  {
    hide AfterCancel, AfterBegin, AfterBind, AfterFinish, Stale;
  }

  class Server {
    var records: map<SessionId, SessionRecord>
    var threads: seq<Thread>
    ghost var sessions: seq<Session>

    ghost predicate Apart()
      reads this
    {
      Separated(threads, records)
    }

    ghost function Owned(): set<SessionRecord>
      reads this
    {
      RecordsOf(threads)
    }

    ghost function Views(): seq<Record>
      reads this, Owned()
    {
      ViewsOf(threads)
    }

    /** The fields show sessions, in a state sessions can be in. */
    ghost predicate Valid()
      reads this, Owned()
    {
      Apart() && AllInv(sessions) && Shows(sessions, threads, Views(), records.Keys)
    }

    constructor ()
      ensures Valid() && records == map[] && threads == [] && sessions == []
    {
      records, threads, sessions := map[], [], [];
    }

    /** A session leases its sample and is queued in the same lock section. */
    method CreateSession(mode: ModeState, ask: Ask)
      requires Valid() && mode.Valid() && Shuffles(mode.View(), ask)
      modifies this, mode
      ensures Valid() && sessions == Next(old(sessions), Create)
      ensures mode.Valid() && mode.View() == Sampled(old(mode.View()), ask)
      ensures forall other :: Shuffles(old(mode.View()), other) ==> Shuffles(mode.View(), other)
      ensures |threads| == |old(threads)| + 1 && threads[..|old(threads)|] == old(threads)
      ensures fresh(threads[|old(threads)|].record)
      ensures threads[|old(threads)|].record.sampleIdx == Given(old(mode.View()), ask)
    {
      var sampleIdx := mode.LeaseSample(ask);
      assert Valid();
      hide AllInv, Inv, Shows, Separated, ViewsOf, Shuffles, Sampled, Given, ModeState.View;
      var record := new SessionRecord(sampleIdx);
      Submit(record);
    }

    // The new record enters the table and its run is submitted to the executor.
    method Submit(record: SessionRecord)
      requires Valid() && record !in Owned() && record.View() == FRESH
      modifies this
      ensures Valid() && sessions == Next(old(sessions), Create)
      ensures threads == old(threads) + [Thread(record, Waiting, false, false)]
    {
      ghost var ss, views := sessions, Views();
      var thread := Thread(record, Waiting, false, false);
      NextKeepsAll(ss, Create);
      NewcomerShows(ss, threads, views, records.Keys, record);
      SameCount(ss, threads, views, records.Keys);
      OneJoins(threads, records, thread);
      hide AllInv, SessionRecord.View, Shows, Separated, ViewsOf;
      records := records[SessionId(|threads|) := record];
      threads := threads + [thread];
      sessions := ss + [NEW_SESSION];
    }

    // The threads still work on the records they did.
    ghost predicate SameRecords(before: seq<Thread>)
      reads this
    {
      |threads| == |before| && forall n | 0 <= n < |threads| :: threads[n].record == before[n].record
    }

    // Writing down that a session moved, once its record and its thread have.
    method Moved(n: nat, thread: Thread, ghost a: Action, ghost ss: seq<Session>, ghost views: seq<Record>)
      requires Apart() && AllInv(ss) && Shows(ss, threads, views, records.Keys)
      requires n < |ss| && !a.Create? && !a.Sweep? && a.sid == n
      requires thread.record == threads[n].record && Views() == views[n := thread.record.View()]
      requires ShowsAt(NextOne(ss[n], a), thread, thread.record.View(), SessionId(n) in records)
      modifies this`threads, this`sessions
      ensures Valid() && sessions == Next(ss, a) && SameRecords(old(threads))
    {
      hide AllInv, NextOne, ShowsAt, SessionRecord.View, Next;
      OneMoved(ss, threads, views, records.Keys, n, a, thread, thread.record.View());
      threads := threads[n := thread];
      sessions := Next(ss, a);
      hide Shows;
      assert Views() == views[n := thread.record.View()];
    }

    // So does a step of a thread that is not at the point where it takes it.
    lemma OutOfTurn(a: Action)
      requires Valid() && (a.Begin? || a.Bind? || a.Finish? || (Unlocked(a) && a.sid >= |threads|))
      requires a.sid < |threads| && a.Begin? ==> !threads[a.sid].worker.Waiting?
      requires a.sid < |threads| && a.Bind? ==> !threads[a.sid].worker.Built?
      requires a.sid < |threads| && a.Finish? ==> !threads[a.sid].worker.Cleaned?
      ensures sessions == Next(sessions, a)
    {
      assert a.sid < |sessions| ==>
        ShowsAt(sessions[a.sid], threads[a.sid], Views()[a.sid], SessionId(a.sid) in records);
      hide AllInv, AfterBegin, AfterBind, AfterFinish;
      StaysPut(a);
    }

    // An action on a session the table does not have, or out of turn, changes nothing.
    lemma StaysPut(a: Action)
      requires Valid() && !a.Create? && !a.Sweep?
      requires a.sid < |sessions| ==> NextOne(sessions[a.sid], a) == sessions[a.sid]
      ensures sessions == Next(sessions, a)
    {
      hide NextOne, AllInv;
    }

    /** Requesting a cancellation: the answer says whether a sandbox is there to clean up. */
    method CancelSession(n: nat, now: int) returns (found: bool, sandbox: bool)
      requires Valid()
      modifies this`threads, this`sessions, if n < |threads| then {threads[n].record} else {}
      ensures Valid() && sessions == Next(old(sessions), Action.Cancel(n, now))
      ensures found == (SessionId(n) in records) && (found ==> sandbox == old(records[SessionId(n)].env))
      ensures SameRecords(old(threads))
    {
      ghost var a, ss, views := Action.Cancel(n, now), sessions, Views();
      hide AllInv, Inv;
      assert n < |ss| ==> ShowsAt(ss[n], threads[n], views[n], SessionId(n) in records);
      if SessionId(n) !in records {
        StaysPut(a);
        return false, false;
      }
      var record := records[SessionId(n)];
      sandbox := record.env;
      record.cancelEvent := true;
      if record.status == Queued {
        record.Cancel(now);
      }
      hide Shows;
      Moved(n, threads[n].(held := threads[n].held || sandbox), a, ss, views);
      return true, sandbox;
    }

    /** The start of a run: a session cancelled or evicted meanwhile is not run. */
    method BeginRun(n: nat) returns (proceed: bool)
      requires Valid() && n < |threads| && threads[n].worker.Waiting?
      modifies this`threads, this`sessions, threads[n].record
      ensures Valid() && sessions == Next(old(sessions), Begin(n)) && SameRecords(old(threads))
      ensures proceed == (SessionId(n) in records && old(threads[n].record.status) != Cancelled)
    {
      ghost var a, ss, views := Begin(n), sessions, Views();
      hide AllInv, Inv;
      assert ShowsAt(ss[n], threads[n], views[n], SessionId(n) in records);
      if SessionId(n) !in records || records[SessionId(n)].status == Cancelled {
        Moved(n, threads[n].(worker := Gone), a, ss, views);
        return false;
      }
      records[SessionId(n)].status := Running;
      hide Shows;
      Moved(n, threads[n].(worker := Preparing), a, ss, views);
      return true;
    }

    /** Binding the sandbox and then looking at the cancel event, in one lock section. */
    method BindSandbox(n: nat) returns (cancelled: bool)
      requires Valid() && n < |threads| && threads[n].worker.Built?
      modifies this`threads, this`sessions, threads[n].record
      ensures Valid() && sessions == Next(old(sessions), Bind(n)) && SameRecords(old(threads))
      ensures cancelled == old(threads[n].record.cancelEvent) && threads[n].record.env
      ensures cancelled <==> !threads[n].worker.Working?
    {
      ghost var a, ss, views := Bind(n), sessions, Views();
      hide AllInv, Inv;
      assert ShowsAt(ss[n], threads[n], views[n], SessionId(n) in records);
      var record := threads[n].record;
      record.env := true;
      cancelled := record.cancelEvent;
      var worker := if cancelled then Unwinding(REFUSED, NO_INFO) else Working;
      hide Shows;
      Moved(n, threads[n].(worker := worker), a, ss, views);
    }

    /** The last lock section of a run: its lookup always finds the record. */
    method FinishRun(n: nat, now: int) returns (found: bool)
      requires Valid() && n < |threads| && threads[n].worker.Cleaned?
      modifies this`threads, this`sessions, threads[n].record
      ensures Valid() && sessions == Next(old(sessions), Finish(n, now)) && SameRecords(old(threads))
      ensures found && threads[n].record.finishedAt == Some(now)
      ensures var r, w := threads[n].record, old(threads[n].worker);
        if old(r.cancelEvent) then r.status == Cancelled
        else if w.error != "" then r.status == Failed && r.error == w.error
        else r.status == Completed && r.result == Some(w.info)
    {
      ghost var a, ss, views := Finish(n, now), sessions, Views();
      assert ShowsAt(ss[n], threads[n], views[n], SessionId(n) in records);
      assert Inv(ss[n]);
      hide AllInv, Inv;
      found := SessionId(n) in records;
      if found {
        var record := records[SessionId(n)];
        record.env := false;
        record.Finish(threads[n].worker.info, threads[n].worker.error, now);
        hide Shows;
        Moved(n, threads[n].(worker := Gone), a, ss, views);
      }
    }

    // ----- what threads do between lock sections -----

    // A thread, or the canceller holding its sandbox, goes on without the lock.
    method Proceed(n: nat, a: Action)
      requires Valid() && n < |threads| && Unlocked(a) && a.sid == n
      modifies this`threads, this`sessions
      ensures Valid() && sessions == Next(old(sessions), a) && SameRecords(old(threads))
    {
      ghost var ss, views := sessions, Views();
      assert ShowsAt(ss[n], threads[n], views[n], SessionId(n) in records);
      var thread := Proceeded(threads[n], threads[n].record.cancelEvent, a);
      ProceedsAs(ss[n], threads[n], views[n], SessionId(n) in records, a);
      hide AllInv, Inv, Shows, Proceeded, NextOne, ShowsAt;
      Moved(n, thread, a, ss, views);
    }

    function StaleNames(cutoff: int): (stale: set<SessionId>)
      reads this, records.Values
      ensures forall sid :: sid in stale <==> sid in records && Stale(records[sid].View(), cutoff)
      ensures forall sid :: sid in stale <==>
        && sid in records && records[sid].status in {Completed, Failed, Cancelled}
        && records[sid].finishedAt.Some? && records[sid].finishedAt.value < cutoff
    {
      set sid | sid in records && Stale(records[sid].View(), cutoff)
    }

    /** The sweeper: the stale records leave the table, the others stay untouched. */
    method ReapTerminalRecords(now: int, ttl: int) returns (count: nat)
      requires Valid()
      modifies this`records, this`sessions
      ensures Valid() && sessions == Next(old(sessions), Sweep(now - ttl))
      ensures records == old(records) - old(StaleNames(now - ttl))
      ensures count == |old(records)| - |records|
    {
      hide *;
      SweepMatches(now - ttl);
      var stale := StaleNames(now - ttl);
      Evict(stale, Next(sessions, Sweep(now - ttl)));
      count := |stale|;
    }

    // Without the given records the object would show these sessions.
    ghost predicate MayEvict(stale: set<SessionId>, after: seq<Session>)
      reads this, Owned()
    {
      Separated(threads, records - stale) && AllInv(after) && Shows(after, threads, Views(), (records - stale).Keys)
    }

    // The given records leave the table.
    method Evict(stale: set<SessionId>, ghost after: seq<Session>)
      requires MayEvict(stale, after)
      modifies this`records, this`sessions
      ensures Valid() && sessions == after && records == old(records) - stale
    {
      ghost var views := Views();
      hide AllInv, Shows, Separated, SessionRecord.View;
      records := records - stale;
      sessions := after;
      assert Views() == views;
    }

    lemma SweepMatches(cutoff: int)
      requires Valid()
      ensures MayEvict(StaleNames(cutoff), Next(sessions, Sweep(cutoff)))
      ensures |records - StaleNames(cutoff)| == |records| - |StaleNames(cutoff)|
    {
      var stale := StaleNames(cutoff);
      NextKeepsAll(sessions, Sweep(cutoff));
      SizeWithout(records, stale);
      hide Stale, AllInv, SessionRecord.View, Next, Shows;
      forall sid | sid in records ensures sid in stale <==> Stale(Views()[sid.number], cutoff) {
        assert records[sid].View() == Views()[sid.number];
      }
      SameCount(sessions, threads, Views(), records.Keys);
      hide *;
      SweptShows(sessions, threads, Views(), records.Keys, stale, cutoff);
    }
  }

  // ----- any number of sessions, under any schedule -----

  // A client opens a session, or anything else happens.
  datatype Event = Opens(ask: Ask) | Happens(action: Action)

  // Shuffling permutes the usable indices, and sessions are created by opening them.
  ghost predicate Proper(e: Event, indices: seq<int>) {
    match e
    case Opens(ask) => multiset(ask.shuffled) == multiset(indices)
    case Happens(a) => !a.Create?
  }

  function ActionOf(e: Event): Action { if e.Opens? then Create else e.action }

  function ActionsOf(events: seq<Event>): seq<Action> {
    seq(|events|, i requires 0 <= i < |events| => ActionOf(events[i]))
  }

  function AsksOf(events: seq<Event>): seq<Ask> {
    if events == [] then []
    else
      var last := events[|events| - 1];
      AsksOf(events[..|events| - 1]) + if last.Opens? then [last.ask] else []
  }

  function SamplesOf(threads: seq<Thread>): seq<int> {
    seq(|threads|, n requires 0 <= n < |threads| => threads[n].record.sampleIdx)
  }

  // What holds after some events: the sessions, the samples given out and the mode are those of runs
  // of the two models.
  ghost predicate Follows(indices: seq<int>, samples: int, events: seq<Event>, sessions: seq<Session>,
                          given: seq<int>, mode: Mode, book: Book) {
    && sessions == Run([], ActionsOf(events)) && mode == book.mode
    && Reaches(indices, samples, AsksOf(events), book) && Recorded(AsksOf(events), given, book.calls)
  }

  lemma StartFollows(indices: seq<int>, samples: int)
    ensures Follows(indices, samples, [], [], [], Init(indices, samples).mode, Init(indices, samples))
  {}

  lemma OpenFollows(indices: seq<int>, samples: int, events: seq<Event>, ask: Ask, ss: seq<Session>,
                    given: seq<int>, m: Mode, book: Book)
    requires Follows(indices, samples, events, ss, given, m, book)
    requires m.nextIdx < |m.order| && Shuffles(m, ask)
    ensures Follows(indices, samples, events + [Opens(ask)], Next(ss, Create), given + [Given(m, ask)],
                    Leasing.Sampled(m, ask), Step(book, ask))
  {
    OneMoreEvent(events, Opens(ask));
    hide Run, Next, ActionsOf, AsksOf, Reaches, Recorded, Given, Step, Leasing.Sampled;
    OneMoreSample(indices, samples, AsksOf(events), ask, book, given);
  }

  lemma HappeningFollows(indices: seq<int>, samples: int, events: seq<Event>, a: Action, ss: seq<Session>,
                         given: seq<int>, m: Mode, book: Book)
    requires Follows(indices, samples, events, ss, given, m, book)
    ensures Follows(indices, samples, events + [Happens(a)], Next(ss, a), given, m, book)
  {
    OneMoreEvent(events, Happens(a));
    assert AsksOf(events) + [] == AsksOf(events);
    hide Run, Next, ActionsOf, AsksOf, Reaches, Recorded;
  }

  lemma OneMoreEvent(events: seq<Event>, e: Event)
    ensures Run([], ActionsOf(events + [e])) == Next(Run([], ActionsOf(events)), ActionOf(e))
    ensures AsksOf(events + [e]) == AsksOf(events) + if e.Opens? then [e.ask] else []
  {
    assert ActionsOf(events + [e])[..|events|] == ActionsOf(events);
    assert (events + [e])[..|events|] == events;
    hide Next, ActionOf;
  }

  // What a session opened next is given is what the leasing model gives.
  lemma OneMoreSample(order: seq<int>, samples: int, asks: seq<Ask>, ask: Ask, b: Book, given: seq<int>)
    requires Reaches(order, samples, asks, b) && Recorded(asks, given, b.calls)
    requires b.mode.nextIdx < |b.mode.order| && Shuffles(b.mode, ask)
    ensures var b' := Step(b, ask);
            && Reaches(order, samples, asks + [ask], b') && b'.mode == Leasing.Sampled(b.mode, ask)
            && Recorded(asks + [ask], given + [Given(b.mode, ask)], b'.calls)
  {
    var more := asks + [ask];
    assert more[..|asks|] == asks && more[..|asks| + 1] == more && more[|asks|] == ask;
    hide *;
    ReachesOneMore(order, samples, more, |asks|, b);
    RecordsOneMore(more, |asks|, given, b);
  }

  lemma SameSamples(threads: seq<Thread>, server: Server)
    requires server.SameRecords(threads)
    ensures SamplesOf(server.threads) == SamplesOf(threads) && server.Owned() == RecordsOf(threads)
  {
    forall r ensures r in RecordsOf(server.threads) <==> r in RecordsOf(threads) {}
  }

  lemma OneMoreThread(threads: seq<Thread>, server: Server)
    requires |server.threads| == |threads| + 1 && server.threads[..|threads|] == threads
    ensures SamplesOf(server.threads) == SamplesOf(threads) + [server.threads[|threads|].record.sampleIdx]
    ensures server.Owned() == RecordsOf(threads) + {server.threads[|threads|].record}
  {
    var threads' := server.threads;
    assert forall n | 0 <= n < |threads| :: threads'[n] == threads'[..|threads|][n];
    forall r ensures r in RecordsOf(threads') <==> r in RecordsOf(threads) || r == threads'[|threads|].record {}
  }

  // The thread's next lock section, or what it does without the lock; out of turn, nothing.
  method Turn(server: Server, a: Action) returns (recorded: bool)
    requires server.Valid() && !a.Create? && !a.Sweep? && !a.Cancel?
    modifies server, server.Owned()
    ensures server.Valid() && server.sessions == Next(old(server.sessions), a)
    ensures server.SameRecords(old(server.threads)) && recorded
  {
    hide Separated, ViewsOf, AllInv, Shows, Next, SessionRecord.View;
    var n := a.sid;
    recorded := true;
    if n < |server.threads| && Unlocked(a) {
      server.Proceed(n, a);
    } else if n < |server.threads| && a.Begin? && server.threads[n].worker.Waiting? {
      var _ := server.BeginRun(n);
    } else if n < |server.threads| && a.Bind? && server.threads[n].worker.Built? {
      var _ := server.BindSandbox(n);
    } else if n < |server.threads| && a.Finish? && server.threads[n].worker.Cleaned? {
      recorded := server.FinishRun(n, a.now);
    } else {
      server.OutOfTurn(a);
    }
  }

  // Anything but the opening of a session.
  method Happen(server: Server, a: Action) returns (recorded: bool)
    requires server.Valid() && !a.Create?
    modifies server, server.Owned()
    ensures server.Valid() && server.sessions == Next(old(server.sessions), a)
    ensures server.SameRecords(old(server.threads)) && recorded
  {
    hide Separated, ViewsOf, AllInv, Shows, Next, SessionRecord.View;
    recorded := true;
    if a.Sweep? {
      var _ := server.ReapTerminalRecords(a.cutoff, 0);
    } else if a.Cancel? {
      var _, _ := server.CancelSession(a.sid, a.now);
    } else {
      recorded := Turn(server, a);
    }
  }

  lemma ShuffledBack(mode: ModeState, indices: seq<int>)
    requires Shuffles(mode.View(), Ask("", indices))
    ensures multiset(mode.View().order) == multiset(indices)
  {}

  // A session is opened: the object goes on following the two models.
  method OpenOne(server: Server, mode: ModeState, ask: Ask, indices: seq<int>,
                 ghost done: seq<Event>, ghost book: Book)
    returns (ghost book': Book)
    requires server.Valid() && mode.Valid() && Proper(Opens(ask), indices)
    requires multiset(mode.View().order) == multiset(indices)
    requires Follows(indices, mode.samples, done, server.sessions, SamplesOf(server.threads), mode.View(), book)
    modifies server, mode
    ensures server.Valid() && mode.Valid() && multiset(mode.View().order) == multiset(indices)
    ensures Follows(indices, mode.samples, done + [Opens(ask)], server.sessions, SamplesOf(server.threads),
                    mode.View(), book')
    ensures fresh(server.Owned() - old(server.Owned()))
  {
    ghost var threads, m := server.threads, mode.View();
    hide Follows, AllInv, Shows, Separated, ViewsOf;
    mode.HasNext();
    assert Shuffles(m, Ask("", indices)) && Shuffles(m, ask);
    OpenFollows(indices, mode.samples, done, ask, server.sessions, SamplesOf(threads), m, book);
    hide *;
    server.CreateSession(mode, ask);
    OneMoreThread(threads, server);
    assert multiset(mode.View().order) == multiset(indices) by { ShuffledBack(mode, indices); }
    book' := Step(book, ask);
  }

  // One event, of either kind.
  method OneEvent(server: Server, mode: ModeState, e: Event, indices: seq<int>,
                  ghost done: seq<Event>, ghost book: Book)
    returns (recorded: bool, ghost book': Book)
    requires server.Valid() && mode.Valid() && Proper(e, indices)
    requires multiset(mode.View().order) == multiset(indices)
    requires Follows(indices, mode.samples, done, server.sessions, SamplesOf(server.threads), mode.View(), book)
    modifies server, server.Owned(), mode
    ensures server.Valid() && mode.Valid() && recorded
    ensures multiset(mode.View().order) == multiset(indices)
    ensures Follows(indices, mode.samples, done + [e], server.sessions, SamplesOf(server.threads), mode.View(), book')
    ensures fresh(server.Owned() - old(server.Owned()))
  {
    ghost var threads := server.threads;
    recorded, book' := true, book;
    hide Follows, AllInv, Shows, Separated, ViewsOf;
    if e.Opens? {
      hide *;
      book' := OpenOne(server, mode, e.ask, indices, done, book);
    } else {
      HappeningFollows(indices, mode.samples, done, e.action, server.sessions, SamplesOf(threads), mode.View(), book);
      hide *;
      recorded := Happen(server, e.action);
      SameSamples(threads, server);
    }
  }

  // An empty server and a mode nobody has asked.
  method Start(indices: seq<int>, samples: int) returns (server: Server, mode: ModeState, ghost book: Book)
    requires indices != []
    ensures server.Valid() && mode.Valid() && fresh(server) && fresh(mode) && fresh(server.Owned())
    ensures mode.samples == samples && mode.View().order == indices
    ensures Follows(indices, samples, [], server.sessions, SamplesOf(server.threads), mode.View(), book)
  {
    mode := new ModeState(indices, samples);
    book := Init(indices, samples);
    StartFollows(indices, samples);
    assert SamplesOf([]) == [] && mode.samples == samples;
    hide Follows, Reaches, Recorded, AllInv, Shows, Separated, ViewsOf;
    server := new Server();
  }

  // The events one after the other.
  method DriveOn(indices: seq<int>, samples: int, events: seq<Event>)
    returns (server: Server, mode: ModeState, recorded: bool, ghost book: Book)
    requires indices != [] && forall e | e in events :: Proper(e, indices)
    ensures server.Valid() && recorded
    ensures Follows(indices, samples, events, server.sessions, SamplesOf(server.threads), mode.View(), book)
  {
    hide AllInv, Shows, Separated, ViewsOf, Follows, Proper, SamplesOf, ModeState.View, ModeState.Valid;
    server, mode, book := Start(indices, samples);
    recorded := true;
    assert events[..0] == [];
    for i := 0 to |events|
      invariant recorded && server.Valid() && mode.Valid() && fresh(server) && fresh(mode) && fresh(server.Owned())
      invariant multiset(mode.View().order) == multiset(indices) && mode.samples == samples
      invariant Follows(indices, samples, events[..i], server.sessions, SamplesOf(server.threads), mode.View(), book)
    {
      assert events[..i + 1] == events[..i] + [events[i]] && events[i] in events;
      var found;
      found, book := OneEvent(server, mode, events[i], indices, events[..i], book);
      recorded := recorded && found;
    }
    assert events[..|events|] == events;
  }

  /** Whatever is requested, in whatever order the threads move: the object runs the session model,
      a run always finds its record to finish, and the k-th session works on the sample that the
      leasing model hands to the k-th one. */
  method Drive(indices: seq<int>, samples: int, events: seq<Event>)
    returns (server: Server, recorded: bool, ghost book: Book)
    requires indices != [] && forall e | e in events :: Proper(e, indices)
    ensures server.Valid() && server.sessions == Run([], ActionsOf(events)) && recorded
    ensures Reaches(indices, samples, AsksOf(events), book)
    ensures Recorded(AsksOf(events), SamplesOf(server.threads), book.calls)
  {
    var mode;
    server, mode, recorded, book := DriveOn(indices, samples, events);
    Unfolded(indices, samples, events, server.sessions, SamplesOf(server.threads), mode.View(), book);
    hide *;
  }

  lemma Unfolded(indices: seq<int>, samples: int, events: seq<Event>, ss: seq<Session>, given: seq<int>,
                 m: Mode, book: Book)
    requires Follows(indices, samples, events, ss, given, m, book)
    ensures ss == Run([], ActionsOf(events)) && Reaches(indices, samples, AsksOf(events), book)
    ensures Recorded(AsksOf(events), given, book.calls)
  {
    hide Run, ActionsOf, AsksOf, Reaches, Recorded;
  }
}
