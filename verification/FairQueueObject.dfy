/** The mutable queue object of `serving_platform/scheduling/fair_queue.py`. */
module FairQueueObject {
  import opened Arithmetic
  import opened Wrappers
  import opened Sequences
  import opened RequestLifecycle
  import opened FairQueue
  import opened FairQueueLedger

  class WeightedFairRequestQueue {
    const order: seq<string>
    const weights: map<string, nat>
    const baseQuantum: nat
    const aging: real
    var queues: map<string, seq<Request>>
    var deficits: map<string, nat>
    var active: seq<string>

    ghost function Cfg(): Config {
      Config(order, map t | t in weights :: baseQuantum * weights[t], aging)
    }

    ghost function View(): State
      reads this
    {
      State(queues, deficits, active)
    }

    ghost predicate Valid()
      reads this
    {
      Inv(Cfg(), View())
    }

    constructor (order: seq<string>, weights: map<string, nat>, baseQuantum: nat, aging: real)
      requires baseQuantum > 0 && aging > 0.0
      requires (forall t :: t in order <==> t in weights) && forall t :: t in weights ==> weights[t] > 0
      ensures Valid() && active == [] && forall t :: t in queues ==> queues[t] == [] && deficits[t] == 0
      ensures this.order == order && this.weights == weights
      ensures this.baseQuantum == baseQuantum && this.aging == aging && Cfg().order == order && Cfg().aging == aging
      ensures forall t :: t in weights ==> t in Cfg().credit && Cfg().credit[t] == baseQuantum * weights[t]
    {
      this.order, this.weights, this.baseQuantum, this.aging := order, weights, baseQuantum, aging;
      queues := map t | t in weights :: [];
      deficits := map t | t in weights :: 0;
      active := [];
      new;
      forall t | t in weights
        ensures baseQuantum * weights[t] > 0
      {
        MulPositive(baseQuantum, weights[t]);
      }
    }

    /** Appends an admitted or retried request to its tenant, or changes nothing. A retried request keeps
        its queue time; a tenant without requests enters the ring at its end. */
    method Enqueue(request: Request, now: real) returns (r: Result<(), QueueError>)
      requires Valid()
      modifies this
      ensures Valid()
      ensures var refused := EnqueueError(old(View()), request);
              if refused.Some? then r == Failure(refused.value) && View() == old(View())
              else r == Success(()) && View() == FairQueue.Enqueue(old(View()), request, now)
      ensures r == Failure(UnknownTenant) <==> request.tenant !in old(queues)
      ensures r == Failure(WrongState) <==> request.tenant in old(queues) && request.status !in {Admitted, Queued}
      ensures r == Failure(DuplicateRequest) <==>
                && request.tenant in old(queues) && request.status in {Admitted, Queued}
                && exists q :: q in old(queues)[request.tenant] && q.id == request.id
      ensures r.Success? ==>
                var t := request.tenant;
                && t in queues && queues == old(queues)[t := queues[t]] && deficits == old(deficits)
                && |queues[t]| == |old(queues)[t]| + 1 && old(queues)[t] <= queues[t]
                && queues[t][|old(queues)[t]|] == (if request.status == Queued then request
                                                   else request.(status := Queued, queuedAt := now))
                && active == old(active) + if t in old(active) then [] else [t]
    {
      hide Tidy;
      if request.tenant !in queues {
        return Failure(UnknownTenant);
      }
      if request.status !in {Admitted, Queued} {
        return Failure(WrongState);
      }
      var queue := queues[request.tenant];
      if exists existing :: existing in queue && existing.id == request.id {
        return Failure(DuplicateRequest);
      }
      EnqueueKeepsInv(Cfg(), View(), request, now);
      var entry := request;
      if request.status == Admitted {
        entry := request.(status := Queued, queuedAt := now);
      }
      queues := queues[request.tenant := queue + [entry]];
      if request.tenant !in active {
        active := active + [request.tenant];
      }
      r := Success(());
    }

    /** The preferred request of a queue; the clock is read here, and does not matter. */
    method NextForTenant(queue: seq<Request>) returns (i: nat)
      requires queue != [] && aging > 0.0
      ensures i < |queue| && i == Best(queue, 0.0, aging)
    {
      var now: real := *;
      i := 0;
      for k := 1 to |queue|
        invariant i < k && i == Best(queue[..k], now, aging)
      {
        assert queue[..k + 1][..k] == queue[..k];
        if Beats(queue[k], queue[i], now, aging) {
          i := k;
        }
      }
      assert queue[..|queue|] == queue;
      BestIsTimeless(queue, now, aging);
    }

    method DropTerminal(queue: seq<Request>) returns (live: seq<Request>)
      ensures live == Live(queue)
    {
      live := [];
      for k := 0 to |queue|
        invariant live == Live(queue[..k])
      {
        assert queue[..k + 1][..k] == queue[..k];
        if !Terminal(queue[k].status) {
          live := live + [queue[k]];
        }
      }
      assert queue[..|queue|] == queue;
    }

    method HeadTenant() returns (tenant: string)
      requires Valid() && active != []
      ensures tenant == active[0] && tenant in queues && tenant in deficits
      ensures tenant in weights && tenant in Cfg().credit && aging == Cfg().aging > 0.0
    {
      tenant := active[0];
    }

    function Credit(tenant: string): (credit: nat)
      requires tenant in weights
      ensures tenant in Cfg().credit && credit == Cfg().credit[tenant]
    {
      baseQuantum * weights[tenant]
    }

    /** Visits the tenant at the head of the ring. */
    method VisitNext() returns (visit: Visit)
      requires Valid() && active != []
      modifies this
      ensures Valid()
      ensures (View(), visit) == VisitHead(Cfg(), old(View()))
      ensures visit.tenant == old(active)[0] && visit.tenant in old(queues) && visit.tenant in deficits
      ensures visit.Emptied? <==> forall q :: q in old(queues)[visit.tenant] ==> Terminal(q.status)
      ensures visit.Emptied? ==> deficits[visit.tenant] == 0 && active == old(active)[1..]
    {
      hide Cfg, Inv, VisitHead;
      EmptiedResets(Cfg(), View());
      visit := VisitOnce();
    }

    method VisitOnce() returns (visit: Visit)
      requires Valid() && active != []
      modifies this
      ensures Valid()
      ensures (View(), visit) == VisitHead(Cfg(), old(View()))
    {
      hide Cfg, Inv, Credit, Live, FairQueue.Settle;
      VisitKeepsInv(Cfg(), View());
      var tenant := HeadTenant();
      active := active[1..];
      var queue := DropTerminal(queues[tenant]);
      if queue == [] {
        queues := queues[tenant := queue];
        deficits := deficits[tenant := 0];
        return Emptied(tenant);
      }
      visit := Settle(tenant, queue, deficits[tenant] + Credit(tenant));
    }

    method Settle(tenant: string, queue: seq<Request>, deficit: nat) returns (visit: Visit)
      requires queue != [] && aging > 0.0
      modifies this
      ensures (View(), visit) == FairQueue.Settle(old(View()), tenant, queue, deficit, Best(queue, 0.0, aging))
    {
      var i := NextForTenant(queue);
      var request := queue[i];
      if request.cost <= deficit {
        var left := RemoveAt(queue, i);
        queues := queues[tenant := left];
        deficits := deficits[tenant := deficit - request.cost];
        if left != [] {
          active := active + [tenant];
        }
        return Served(tenant, request);
      }
      queues := queues[tenant := queue];
      deficits := deficits[tenant := deficit];
      active := active + [tenant];
      visit := Passed(tenant);
    }

    /** Visits tenants around the ring until one can be served or each was visited once. */
    method Pop() returns (r: Option<Request>, ghost visits: seq<Visit>)
      requires Valid()
      modifies this
      ensures Valid()
      ensures PopResult(View(), r, visits) == FairQueue.Pop(Cfg(), old(View()))
      ensures |visits| <= |old(active)| && forall k :: 0 <= k < |visits| ==> visits[k].tenant == old(active)[k]
      ensures Popped(Cfg(), old(View()), |old(active)|, PopResult(View(), r, visits))
    {
      hide Cfg, Inv, VisitHead, Popped;
      var visitsRemaining: nat := |active|;
      ghost var goal := FairQueue.Pop(Cfg(), View());
      PopVisitsOnce(Cfg(), View(), |active|);
      PopIsExact(Cfg(), View(), |active|);
      visits := [];
      while active != [] && visitsRemaining > 0
        invariant Valid()
        invariant var rest := PopFrom(Cfg(), View(), visitsRemaining);
                  rest.state == goal.state && rest.popped == goal.popped && visits + rest.visits == goal.visits
        decreases visitsRemaining
      {
        ghost var before := View();
        var visit := VisitNext();
        visits := visits + [visit];
        if visit.Served? {
          return Some(visit.request), visits;
        }
        visitsRemaining := visitsRemaining - 1;
      }
      r := None;
    }

    /** Removes the first queued request with this id and cancels it. */
    method Cancel(id: string) returns (outcome: CancelOutcome)
      requires Valid()
      modifies this
      ensures Valid()
      ensures (View(), outcome) == CancelAmong(old(View()), order, id)
    {
      hide Tidy;
      CancelKeepsInv(Cfg(), View(), order, id);
      ghost var goal := CancelAmong(View(), order, id);
      for k := 0 to |order|
        invariant View() == old(View())
        invariant CancelAmong(View(), order[k..], id) == goal
      {
        assert order[k..][0] == order[k] && order[k..][1..] == order[k + 1..];
        var queue := queues[order[k]];
        var i := FindId(queue, id);
        if i < |queue| {
          queues := queues[order[k] := RemoveAt(queue, i)];
          if Cancelled in Allowed(queue[i].status) {
            return DidCancel(queue[i].(status := Cancelled));
          }
          return AlreadyTerminal(queue[i]);
        }
      }
      outcome := NotQueued;
    }

    method FindId(queue: seq<Request>, id: string) returns (i: nat)
      ensures i == IndexOf(queue, id)
    {
      i := 0;
      while i < |queue| && queue[i].id != id
        invariant i <= |queue| && i + IndexOf(queue[i..], id) == IndexOf(queue, id)
      {
        i := i + 1;
      }
    }
  }
}
