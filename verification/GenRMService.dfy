/** The judge service's own fields, stepping exactly as the server model does.  Coroutines are
    cut at their await points: what each method does runs without interruption. */
module GenRMService {
  import opened GenRM
  import opened GenRMHistory
  import opened Instants
  import opened Occupancy

  class Service {
    const maxConcurrency: Limit
    var permits: nat                    // of the semaphore, if there is one
    var requests: seq<Request>          // the coroutines of generate, in order of arrival
    var inflightRequests: int
    var queuedRequests: int
    var servedRequests: nat
    var drained: bool
    var stopping: bool
    var occupancyAnchor: int
    var inflightIntegral: int
    var busyWall: int

    ghost function View(): Server
      reads this
    {
      Server(maxConcurrency, permits, requests, inflightRequests, queuedRequests, servedRequests,
             drained, stopping, occupancyAnchor, inflightIntegral, busyWall)
    }

    constructor (limit: Limit, now: int)
      requires Configured(limit)
      ensures View() == Init(limit, now)
    {
      maxConcurrency := limit;
      permits := if limit.AtMost? then limit.n else 0;
      requests, inflightRequests, queuedRequests, servedRequests := [], 0, 0, 0;
      drained, stopping := true, false;
      occupancyAnchor, inflightIntegral, busyWall := now, 0, 0;
    }

    method AdvanceOccupancy(now: int)
      modifies this`occupancyAnchor, this`inflightIntegral, this`busyWall
      ensures View() == Advance(old(View()), now)
    {
      var delta := now - occupancyAnchor;
      occupancyAnchor := now;
      inflightIntegral := inflightIntegral + inflightRequests * delta;
      if inflightRequests > 0 {
        busyWall := busyWall + delta;
      }
    }

    // ----- the semaphore -----

    // Hands one free permit to the first waiter, if there are both.
    method WakeUpNext() returns (woken: bool)
      modifies this`permits, this`requests
      ensures View() == HandOver(old(View()))
      ensures woken == (old(permits) > 0 && FirstWaiting(old(requests)) < |old(requests)|)
    {
      woken := false;
      if permits > 0 {
        var i := 0;
        while i < |requests| && requests[i].phase != Waiting
          invariant 0 <= i <= |requests| && forall j | 0 <= j < i :: requests[j].phase != Waiting
        {
          i := i + 1;
        }
        if i < |requests| {
          permits, requests := permits - 1, requests[i := requests[i].(phase := Handed)];
          woken := true;
        }
      }
    }

    method ReleasePermit()
      modifies this`permits, this`requests
      ensures View() == Release(old(View()))
    {
      if maxConcurrency.AtMost? {
        permits := permits + 1;
        var _ := WakeUpNext();
      }
    }

    // A waiter leaving the queue wakes as many others as permits allow.
    method WakeUpAll()
      modifies this`permits, this`requests
      ensures View() == HandOverAll(old(View()))
    {
      var more := permits > 0;
      while more
        invariant HandOverAll(View()) == HandOverAll(old(View()))
        invariant !more ==> permits == 0 || FirstWaiting(requests) == |requests|
        decreases permits, more
      {
        more := WakeUpNext();
      }
    }

    // ----- generate -----

    // From the semaphore to the first await on the engine.
    method Admit(id: nat, e: Entry)
      requires id < |requests|
      modifies this
      ensures View() == Proceed(old(View()), id, e)
    {
      if stopping {
        requests := requests[id := requests[id].(phase := Over(Stopping))];
        ReleasePermit();
      } else {
        AdvanceOccupancy(e.now);
        inflightRequests := inflightRequests + 1;
        requests := requests[id := Request(Serving, Interval(e.now, e.now))];
        drained := false;
        if e.badMedia {
          EndRequest(id, e.later, InvalidMedia);
        }
      }
    }

    // The finally block of an admitted request, whatever ended it.
    method EndRequest(id: nat, now: int, outcome: Outcome)
      requires id < |requests|
      modifies this
      ensures View() == Leave(old(View()), id, now, outcome)
    {
      if outcome == Served {
        servedRequests := servedRequests + 1;
      }
      AdvanceOccupancy(now);
      inflightRequests := inflightRequests - 1;
      requests := requests[id := Request(Over(outcome), Interval(requests[id].span.start, now))];
      if inflightRequests == 0 {
        drained := true;
      }
      assert View() == Departed(old(View()), id, now, outcome);
      hide Departed, Release, View;
      ReleasePermit();
    }

    method Generate(e: Entry)
      modifies this
      ensures View() == Arrived(old(View()), e)
    {
      hide Proceed;
      var id := |requests|;
      if maxConcurrency.AtMost? {
        if permits == 0 || queuedRequests > 0 {
          queuedRequests := queuedRequests + 1;
          requests := requests + [Request(Waiting, NEVER)];
          return;
        }
        permits := permits - 1;
      }
      requests := requests + [Request(Holding, NEVER)];
      Admit(id, e);
    }

    method AcquireResumed(id: nat, e: Entry)
      requires id < |requests|
      modifies this
      ensures View() == Resumed(old(View()), id, e)
    {
      queuedRequests := queuedRequests - 1;
      requests := requests[id := requests[id].(phase := Holding)];
      WakeUpAll();
      Admit(id, e);
    }

    method AcquireCancelled(id: nat)
      requires id < |requests|
      modifies this
      ensures View() == CancelledWaiting(old(View()), id)
    {
      if requests[id].phase == Handed {
        permits := permits + 1;
      }
      queuedRequests := queuedRequests - 1;
      requests := requests[id := requests[id].(phase := Over(Cancelled))];
      WakeUpAll();
    }

    // ----- the other endpoints -----

    /** A metrics read returns the exact integrals up to now. */
    method Metrics(now: int) returns (busy: int, integral: int, served: nat, current: int, queued: int)
      requires Admission(View(), 0) && Metered(View()) && occupancyAnchor <= now
      modifies this`occupancyAnchor, this`inflightIntegral, this`busyWall
      ensures View() == Next(old(View()), Poll(now))
      ensures integral == Total(SpansAt(requests, now)) && busy == |Cover(SpansAt(requests, now))|
      ensures served == Count(requests, Over(Served)) && current == Count(requests, Serving)
      ensures queued == Count(requests, Waiting) + Count(requests, Handed)
    {
      AdvanceIsMetered(View(), now);
      hide Cover, Total, SpansAt, Count, AllDated;
      AdvanceOccupancy(now);
      return busyWall, inflightIntegral, servedRequests, inflightRequests, queuedRequests;
    }

    /** Stopping once; whoever asks again is told at once. */
    method StopService() returns (already: bool)
      modifies this`stopping
      ensures View() == Next(old(View()), Action.StopService) && already == old(stopping) && stopping
    {
      already := stopping;
      stopping := true;
    }
  }

  /** One action on the object is one step of the server model, out of turn or not. */
  method Perform(g: Service, a: Action)
    modifies g
    ensures g.View() == Next(old(g.View()), a)
  {
    match a
    case Arrive(e) => g.Generate(e);
    case Resume(id, e) => if id < |g.requests| && g.requests[id].phase == Handed { g.AcquireResumed(id, e); }
    case CancelWaiting(id) =>
      if id < |g.requests| && (g.requests[id].phase == Waiting || g.requests[id].phase == Handed) {
        g.AcquireCancelled(id);
      }
    case Complete(id, now, outcome) =>
      if id < |g.requests| && g.requests[id].phase == Serving && outcome in {Served, Failed, Cancelled} {
        g.EndRequest(id, now, outcome);
      }
    case Poll(now) => g.AdvanceOccupancy(now);
    case StopService => var _ := g.StopService();
  }

  /** Every timely sequence of actions leaves the object's accumulators exact and its permits
      accounted for. */
  method Drive(limit: Limit, epoch: int, actions: seq<Action>) returns (g: Service)
    requires Configured(limit) && AllTimely(epoch, actions)
    ensures g.View() == Run(Init(limit, epoch), actions)
    ensures Settled(g.View()) && Metered(g.View()) && (g.stopping <==> StopService in actions)
  {
    g := new Service(limit, epoch);
    var i := 0;
    while i < |actions|
      invariant 0 <= i <= |actions| && fresh(g)
      invariant g.View() == Run(Init(limit, epoch), actions[..i])
    {
      assert Front(actions[..i + 1]) == actions[..i];
      hide Next, Service.View;
      Perform(g, actions[i]);
      i := i + 1;
    }
    assert actions[..i] == actions;
    RunHolds(limit, epoch, actions);
    StoppingIffAsked(limit, epoch, actions);
    hide Next, Settled, Metered;
  }
}
