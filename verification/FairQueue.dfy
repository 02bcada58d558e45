/**
 The global request queue of `serving_platform/scheduling/fair_queue.py`: token-cost deficit
 round robin over tenants, with priority aging inside each tenant. This file holds the values
 and the meaning of the operations; `FairQueueObject` holds the mutable queue, and
 `FairQueueRuns` what holds over whole runs.
 */
module FairQueue {
  import opened Wrappers
  import opened Sequences
  import opened RequestLifecycle

  datatype Request = Request(
    id: string, tenant: string, cost: nat, priority: int, createdAt: real,
    status: RequestState, queuedAt: real)

  /** Per-visit credit of every configured tenant (quantum times weight), in dictionary order. */
  datatype Config = Config(order: seq<string>, credit: map<string, nat>, aging: real) {
    ghost predicate Valid() {
      && aging > 0.0
      && (forall t :: t in order <==> t in credit)
      && (forall t :: t in credit ==> credit[t] > 0)
    }
  }

  datatype State = State(queues: map<string, seq<Request>>, deficits: map<string, nat>, active: seq<string>)

  // ---------------------------------------------------------------- order inside one tenant

  function Score(r: Request, now: real, aging: real): real
    requires aging > 0.0
  {
    r.priority as real + (now - r.queuedAt) / aging
  }

  /** `a` is strictly preferred to `b` at time `now`; older creation breaks ties. */
  predicate Beats(a: Request, b: Request, now: real, aging: real)
    requires aging > 0.0
  {
    Score(a, now, aging) > Score(b, now, aging)
    || (Score(a, now, aging) == Score(b, now, aging) && a.createdAt < b.createdAt)
  }

  /** The index of the first most preferred request. */
  function Best(queue: seq<Request>, now: real, aging: real): (i: nat)
    requires queue != [] && aging > 0.0
    ensures i < |queue|
  {
    if |queue| == 1 then 0
    else
      var last := |queue| - 1;
      var i := Best(queue[..last], now, aging);
      if Beats(queue[last], queue[i], now, aging) then last else i
  }

  /** Nothing in the queue is preferred to the choice, and everything before it is worse. */
  lemma {:induction false} BestIsPreferred(queue: seq<Request>, now: real, aging: real)
    requires queue != [] && aging > 0.0
    ensures forall j :: 0 <= j < |queue| ==> !Beats(queue[j], queue[Best(queue, now, aging)], now, aging)
    ensures forall j :: 0 <= j < Best(queue, now, aging) ==>
              Beats(queue[Best(queue, now, aging)], queue[j], now, aging)
  {
    if |queue| > 1 {
      BestIsPreferred(queue[..|queue| - 1], now, aging);
    }
  }

  lemma DivideDifference(x: real, y: real, g: real)
    requires g > 0.0
    ensures (x - y) / g == x / g - y / g
  {
    var d := x / g - y / g;
    assert g * d == g * (x / g) - g * (y / g) == x - y;
    assert (g * d) / g == d;
  }

  /** Ageing is the same for everybody: who is preferred does not depend on when one asks, and
      one point of priority is worth exactly `aging` seconds of waiting. */
  lemma PreferenceIsTimeless(a: Request, b: Request, now: real, aging: real)
    requires aging > 0.0
    ensures Score(a, now, aging) - Score(b, now, aging)
         == a.priority as real - b.priority as real + (b.queuedAt - a.queuedAt) / aging
    ensures Beats(a, b, now, aging) <==> Beats(a, b, 0.0, aging)
  {
    DivideDifference(now, a.queuedAt, aging);
    DivideDifference(now, b.queuedAt, aging);
    DivideDifference(0.0, a.queuedAt, aging);
    DivideDifference(0.0, b.queuedAt, aging);
    DivideDifference(b.queuedAt, a.queuedAt, aging);
  }

  lemma {:induction false} BestIsTimeless(queue: seq<Request>, now: real, aging: real)
    requires queue != [] && aging > 0.0
    ensures Best(queue, now, aging) == Best(queue, 0.0, aging)
  {
    if |queue| > 1 {
      var last := |queue| - 1;
      BestIsTimeless(queue[..last], now, aging);
      PreferenceIsTimeless(queue[last], queue[Best(queue[..last], now, aging)], now, aging);
    }
  }

  /** A request can be preferred to `waiting` only if it was queued at most `aging` seconds later
      per point of extra priority. */
  lemma ChoiceIsBounded(queue: seq<Request>, waiting: Request, aging: real)
    requires waiting in queue && aging > 0.0
    ensures var chosen := queue[Best(queue, 0.0, aging)];
            chosen.queuedAt <= waiting.queuedAt + aging * (chosen.priority - waiting.priority) as real
  {
    var chosen := queue[Best(queue, 0.0, aging)];
    BestIsPreferred(queue, 0.0, aging);
    assert !Beats(waiting, chosen, 0.0, aging);
    PreferenceIsTimeless(chosen, waiting, 0.0, aging);
    PriorityBuysTime((chosen.priority - waiting.priority) as real, waiting.queuedAt - chosen.queuedAt, aging);
  }

  lemma PriorityBuysTime(points: real, seconds: real, aging: real)
    requires aging > 0.0 && points + seconds / aging >= 0.0
    ensures -seconds <= aging * points
  {
    var waited := seconds / aging;
    assert aging * waited == seconds;
    assert aging * (points + waited) >= 0.0;
  }

  // ---------------------------------------------------------------- one visit, one pop

  /** The requests that are not terminal, in order. */
  function Live(queue: seq<Request>): seq<Request> {
    if queue == [] then []
    else
      var last := queue[|queue| - 1];
      Live(queue[..|queue| - 1]) + (if Terminal(last.status) then [] else [last])
  }

  lemma {:induction false} LiveMembers(queue: seq<Request>)
    ensures forall r :: r in Live(queue) <==> r in queue && !Terminal(r.status)
    ensures |Live(queue)| <= |queue|
  {
    if queue != [] {
      LiveMembers(queue[..|queue| - 1]);
      assert queue == queue[..|queue| - 1] + [queue[|queue| - 1]];
    }
  }

  /** What a visit to the tenant at the head of the ring did. */
  datatype Visit = Emptied(tenant: string) | Passed(tenant: string) | Served(tenant: string, request: Request)

  /** A tenant's queue holds its own requests, no two with the same identifier. */
  ghost predicate Tidy(t: string, queue: seq<Request>) {
    && (forall r :: r in queue ==> r.tenant == t)
    && forall i, j :: 0 <= i < j < |queue| ==> queue[i].id != queue[j].id
  }

  ghost predicate Inv(cfg: Config, s: State) {
    && cfg.Valid()
    && s.queues.Keys == s.deficits.Keys == cfg.credit.Keys
    && NoDuplicates(s.active)
    && (forall t :: t in s.active ==> t in s.queues)
    && (forall t :: t in s.queues && s.queues[t] != [] ==> t in s.active)
    && (forall t :: t in s.queues ==> Tidy(t, s.queues[t]))
  }

  lemma {:induction false} LiveIsTidy(t: string, queue: seq<Request>)
    requires Tidy(t, queue)
    ensures Tidy(t, Live(queue))
  {
    if queue != [] {
      var init, last := queue[..|queue| - 1], queue[|queue| - 1];
      assert queue == init + [last];
      LiveIsTidy(t, init);
      LiveMembers(init);
      if !Terminal(last.status) {
        JoinIsTidy(t, Live(init), last);
      }
    }
  }

  lemma JoinIsTidy(t: string, queue: seq<Request>, r: Request)
    requires Tidy(t, queue) && r.tenant == t && forall q :: q in queue ==> q.id != r.id
    ensures Tidy(t, queue + [r])
  {}

  lemma RemoveIsTidy(t: string, queue: seq<Request>, i: nat)
    requires Tidy(t, queue) && i < |queue|
    ensures Tidy(t, RemoveAt(queue, i))
  {
    RemoveAtTakesOne(queue, i);
  }

  /** The tenant at the head of the ring is visited: dropped if it has no live request,
      otherwise credited and, if its preferred request is affordable, served. */
  function VisitHead(cfg: Config, s: State): (State, Visit)
    requires Inv(cfg, s) && s.active != []
  {
    var t, rest := s.active[0], s.active[1..];
    var live := Live(s.queues[t]);
    if live == [] then
      (State(s.queues[t := []], s.deficits[t := 0], rest), Emptied(t))
    else
      Settle(s.(active := rest), t, live, s.deficits[t] + cfg.credit[t], Best(live, 0.0, cfg.aging))
  }

  /** Serves the chosen request if the credited deficit affords it, and requeues the tenant
      behind the others while it has requests left. */
  function Settle(s: State, t: string, live: seq<Request>, deficit: nat, i: nat): (State, Visit)
    requires i < |live|
  {
    if live[i].cost <= deficit then
      var left := RemoveAt(live, i);
      (State(s.queues[t := left], s.deficits[t := deficit - live[i].cost],
             if left == [] then s.active else s.active + [t]),
       Served(t, live[i]))
    else
      (State(s.queues[t := live], s.deficits[t := deficit], s.active + [t]), Passed(t))
  }

  lemma VisitKeepsInv(cfg: Config, s: State)
    requires Inv(cfg, s) && s.active != []
    ensures Inv(cfg, VisitHead(cfg, s).0)
  {
    hide Tidy, Live, Best, RemoveAt;
    var t, rest := s.active[0], s.active[1..];
    assert s.active == [t] + rest;
    assert forall u :: u in s.active <==> u == t || u in rest;
    assert t !in rest;
    VisitKeepsTidy(cfg, s);
  }

  lemma VisitKeepsTidy(cfg: Config, s: State)
    requires Inv(cfg, s) && s.active != []
    ensures forall u :: u in VisitHead(cfg, s).0.queues ==> Tidy(u, VisitHead(cfg, s).0.queues[u])
  {
    hide Tidy, Live, Best, RemoveAt;
    var t := s.active[0];
    var live := Live(s.queues[t]);
    NoneIsTidy(t);
    LiveIsTidy(t, s.queues[t]);
    if live != [] {
      RemoveIsTidy(t, live, Best(live, 0.0, cfg.aging));
    }
  }

  lemma NoneIsTidy(t: string)
    ensures Tidy(t, [])
  {}

  datatype PopResult = PopResult(state: State, popped: Option<Request>, visits: seq<Visit>)

  /** At most `remaining` visits, ending at the first that serves a request. */
  function PopFrom(cfg: Config, s: State, remaining: nat): (r: PopResult)
    requires Inv(cfg, s)
    ensures Inv(cfg, r.state)
    decreases remaining
  {
    if s.active == [] || remaining == 0 then PopResult(s, None, [])
    else
      VisitKeepsInv(cfg, s);
      var (next, visit) := VisitHead(cfg, s);
      if visit.Served? then PopResult(next, Some(visit.request), [visit])
      else
        var r := PopFrom(cfg, next, remaining - 1);
        r.(visits := [visit] + r.visits)
  }

  function Pop(cfg: Config, s: State): PopResult
    requires Inv(cfg, s)
  {
    PopFrom(cfg, s, |s.active|)
  }

  /** Within one pop the tenants are visited in ring order, each at most once. */
  lemma {:induction false} PopVisitsOnce(cfg: Config, s: State, n: nat)
    requires Inv(cfg, s) && n <= |s.active|
    ensures var visits := PopFrom(cfg, s, n).visits;
            && |visits| <= n
            && (forall k :: 0 <= k < |visits| ==> visits[k].tenant == s.active[k])
            && forall j, k :: 0 <= j < k < |visits| ==> visits[j].tenant != visits[k].tenant
    decreases n
  {
    hide VisitHead, Inv;
    if n > 0 {
      VisitKeepsInv(cfg, s);
      RingIsDistinct(cfg, s);
      RingTurns(cfg, s);
      var (next, v) := VisitHead(cfg, s);
      if !v.Served? {
        PopVisitsOnce(cfg, next, n - 1);
        var later := PopFrom(cfg, next, n - 1).visits;
        assert forall k :: 0 <= k < |later| ==> ([v] + later)[k + 1].tenant == next.active[k] == s.active[k + 1];
      }
    }
  }

  /** A visit takes the head off the ring, and may put it at the end. */
  lemma RingTurns(cfg: Config, s: State)
    requires Inv(cfg, s) && s.active != []
    ensures VisitHead(cfg, s).1.tenant == s.active[0] && s.active[1..] <= VisitHead(cfg, s).0.active
  {
    hide Live, Best, Tidy;
  }

  lemma RingIsDistinct(cfg: Config, s: State)
    requires Inv(cfg, s)
    ensures NoDuplicates(s.active)
  {}

  // ---------------------------------------------------------------- enqueue and cancel

  datatype QueueError = UnknownTenant | WrongState | DuplicateRequest

  function EnqueueError(s: State, r: Request): Option<QueueError> {
    if r.tenant !in s.queues then Some(UnknownTenant)
    else if r.status !in {Admitted, Queued} then Some(WrongState)
    else if exists q :: q in s.queues[r.tenant] && q.id == r.id then Some(DuplicateRequest)
    else None
  }

  /** The record that enters the queue; a retried request keeps its earlier queue time. */
  function Entry(r: Request, now: real): Request {
    if r.status == Admitted then r.(status := Queued, queuedAt := now) else r
  }

  function Enqueue(s: State, r: Request, now: real): State
    requires EnqueueError(s, r).None?
  {
    State(s.queues[r.tenant := s.queues[r.tenant] + [Entry(r, now)]], s.deficits,
          if r.tenant in s.active then s.active else s.active + [r.tenant])
  }

  datatype CancelOutcome = NotQueued | DidCancel(request: Request) | AlreadyTerminal(request: Request)

  function IndexOf(queue: seq<Request>, id: string): (i: nat)
    ensures i <= |queue|
    ensures i < |queue| ==> queue[i].id == id
    ensures forall j :: 0 <= j < i ==> queue[j].id != id
  {
    if queue == [] then 0 else if queue[0].id == id then 0 else 1 + IndexOf(queue[1..], id)
  }

  /** Scans the tenants in order for the first queued request with this id; it leaves its queue
      even when the transition to Cancelled is then refused. */
  function CancelAmong(s: State, tenants: seq<string>, id: string): (State, CancelOutcome)
    requires forall t :: t in tenants ==> t in s.queues
  {
    if tenants == [] then (s, NotQueued)
    else
      var queue := s.queues[tenants[0]];
      var i := IndexOf(queue, id);
      if i == |queue| then CancelAmong(s, tenants[1..], id)
      else
        (s.(queues := s.queues[tenants[0] := RemoveAt(queue, i)]),
         if Cancelled in Allowed(queue[i].status) then DidCancel(queue[i].(status := Cancelled))
         else AlreadyTerminal(queue[i]))
  }

  lemma EnqueueKeepsInv(cfg: Config, s: State, r: Request, now: real)
    requires Inv(cfg, s) && EnqueueError(s, r).None?
    ensures Inv(cfg, Enqueue(s, r, now))
  {
    hide Tidy;
    JoinIsTidy(r.tenant, s.queues[r.tenant], Entry(r, now));
  }

  lemma {:induction false} CancelKeepsInv(cfg: Config, s: State, tenants: seq<string>, id: string)
    requires Inv(cfg, s) && forall t :: t in tenants ==> t in s.queues
    ensures Inv(cfg, CancelAmong(s, tenants, id).0)
    ensures CancelAmong(s, tenants, id).0.deficits == s.deficits
    ensures CancelAmong(s, tenants, id).0.active == s.active
  {
    hide Tidy;
    if tenants != [] {
      var i := IndexOf(s.queues[tenants[0]], id);
      if i == |s.queues[tenants[0]]| {
        CancelKeepsInv(cfg, s, tenants[1..], id);
      } else {
        RemoveIsTidy(tenants[0], s.queues[tenants[0]], i);
      }
    }
  }
}
