/**
 Pops of the queue of `fair_queue.py` told from outside: what each visit of a pop did, from the queues
 and deficits before the pop, and the ledger of a tenant's deficit over whole runs.
 */
module FairQueueLedger {
  import opened Wrappers
  import opened Sequences
  import opened RequestLifecycle
  import opened FairQueue
  import opened FairQueueRuns

  // ---------------------------------------------------------------- which request is due

  /** How far `a` is ahead of `b`: a point of priority is worth `aging` seconds of waiting. */
  ghost function Ahead(a: Request, b: Request, aging: real): real
    requires aging > 0.0
  {
    (a.priority - b.priority) as real + (b.queuedAt - a.queuedAt) / aging
  }

  /** Request `i` is not terminal and no other live request is ahead of it; of those that are not behind
      either, it was created first, and of these it is the first in the queue. */
  ghost predicate Chosen(queue: seq<Request>, i: nat, aging: real)
    requires aging > 0.0
  {
    && i < |queue| && !Terminal(queue[i].status)
    && forall j :: 0 <= j < |queue| && !Terminal(queue[j].status) ==>
         && Ahead(queue[i], queue[j], aging) >= 0.0
         && (Ahead(queue[i], queue[j], aging) == 0.0 ==>
               && queue[i].createdAt <= queue[j].createdAt
               && (j < i ==> queue[i].createdAt < queue[j].createdAt))
  }

  /** Dropping terminal requests keeps the others in order. */
  lemma {:induction false} LiveInOrder(a: seq<Request>, b: seq<Request>)
    ensures Live(a + b) == Live(a) + Live(b)
  {
    hide Live;
    if b == [] {
      assert a + b == a;
      LiveNone();
    } else {
      var init, last := b[..|b| - 1], b[|b| - 1];
      LiveInOrder(a, init);
      LiveLast(a + init, last);
      LiveLast(init, last);
      assert b == init + [last] && a + b == (a + init) + [last];
    }
  }

  lemma LiveLast(queue: seq<Request>, r: Request)
    ensures Live(queue + [r]) == Live(queue) + if Terminal(r.status) then [] else [r]
  {
    assert (queue + [r])[..|queue|] == queue;
  }

  lemma LiveNone()
    ensures Live([]) == []
  {}

  /** Where the `k`-th live request is in the queue. */
  lemma {:induction false} LiveAt(queue: seq<Request>, k: nat) returns (i: nat)
    requires k < |Live(queue)|
    ensures i < |queue| && queue[i] == Live(queue)[k] && !Terminal(queue[i].status)
    ensures Live(queue[..i]) == Live(queue)[..k]
  {
    var init := queue[..|queue| - 1];
    if k < |Live(init)| {
      i := LiveAt(init, k);
      assert init[..i] == queue[..i] && Live(queue)[..k] == Live(init)[..k];
    } else {
      i := |queue| - 1;
      assert Live(queue)[..k] == Live(init);
    }
  }

  lemma BeatsMeans(a: Request, b: Request, aging: real)
    requires aging > 0.0
    ensures Beats(a, b, 0.0, aging) <==>
            Ahead(a, b, aging) > 0.0 || (Ahead(a, b, aging) == 0.0 && a.createdAt < b.createdAt)
    ensures Ahead(a, b, aging) == 0.0 - Ahead(b, a, aging)
  {
    PreferenceIsTimeless(a, b, 0.0, aging);
    PreferenceIsTimeless(b, a, 0.0, aging);
  }

  /** The request the queue picks is the one that is due. */
  lemma BestIsChosen(queue: seq<Request>, aging: real) returns (i: nat)
    requires Live(queue) != [] && aging > 0.0
    ensures Chosen(queue, i, aging) && i < |queue| && queue[i] == Live(queue)[Best(Live(queue), 0.0, aging)]
  {
    hide Beats, Ahead, Live, Best;
    var live := Live(queue);
    var k := Best(live, 0.0, aging);
    i := LiveAt(queue, k);
    BestIsPreferred(live, 0.0, aging);
    LiveMembers(queue);
    LiveMembers(queue[..i]);
    forall j | 0 <= j < |queue| && !Terminal(queue[j].status)
      ensures Ahead(queue[i], queue[j], aging) >= 0.0
      ensures Ahead(queue[i], queue[j], aging) == 0.0 ==>
                && queue[i].createdAt <= queue[j].createdAt
                && (j < i ==> queue[i].createdAt < queue[j].createdAt)
    {
      BeatsMeans(queue[i], queue[j], aging);
      BeatsMeans(queue[j], queue[i], aging);
      assert queue[j] in live;
      if j < i {
        assert queue[j] == queue[..i][j];
        assert queue[j] in live[..k];
      }
    }
  }

  // ---------------------------------------------------------------- one visit

  /** What a visit to `t` has to be, from its queue and deficit: without a live request it finds the
      tenant empty; otherwise the chosen request is served exactly if deficit and credit pay for it. */
  ghost predicate Due(cfg: Config, s: State, t: string, v: Visit)
    requires cfg.aging > 0.0 && t in s.queues && t in s.deficits && t in cfg.credit
  {
    var queue, funds := s.queues[t], s.deficits[t] + cfg.credit[t];
    && v.tenant == t
    && (v.Emptied? <==> forall r :: r in queue ==> Terminal(r.status))
    && (v.Served? <==> exists i: nat :: Chosen(queue, i, cfg.aging) && queue[i].cost <= funds)
    && (v.Served? ==> exists i: nat :: Chosen(queue, i, cfg.aging) && queue[i] == v.request && queue[i].cost <= funds)
  }

  /** The deficit after a visit: nothing if the tenant was empty, otherwise credit in and service out. */
  ghost function Settled(credit: nat, before: int, v: Visit): int {
    match v
    case Emptied(_) => 0
    case Passed(_) => before + credit
    case Served(_, request) => before + credit - request.cost
  }

  /** The live requests stay, less the one served. */
  ghost predicate Keeps(before: seq<Request>, after: seq<Request>, v: Visit) {
    var live := Live(before);
    if v.Served? then exists k :: 0 <= k < |live| && live[k] == v.request && after == RemoveAt(live, k)
    else after == live
  }

  /** Those of the ring that still have requests, in order. */
  ghost function Remaining(ring: seq<string>, queues: map<string, seq<Request>>): seq<string> {
    if ring == [] then []
    else
      var last := ring[|ring| - 1];
      Remaining(ring[..|ring| - 1], queues) + if last in queues && queues[last] != [] then [last] else []
  }

  lemma {:induction false} RemainingJoins(a: seq<string>, b: seq<string>, queues: map<string, seq<Request>>)
    ensures Remaining(a + b, queues) == Remaining(a, queues) + Remaining(b, queues)
  {
    if b == [] {
      assert a + b == a;
    } else {
      RemainingJoins(a, b[..|b| - 1], queues);
      assert (a + b)[..|a + b| - 1] == a + b[..|b| - 1];
    }
  }

  lemma RemainingOne(t: string, queues: map<string, seq<Request>>)
    ensures Remaining([t], queues) == if t in queues && queues[t] != [] then [t] else []
  {
    assert [t][..0] == [];
  }

  lemma ChosenIsUnique(queue: seq<Request>, i: nat, j: nat, aging: real)
    requires aging > 0.0 && Chosen(queue, i, aging) && Chosen(queue, j, aging)
    ensures i == j
  {
    hide Ahead;
    BeatsMeans(queue[i], queue[j], aging);
    BeatsMeans(queue[j], queue[i], aging);
  }

  lemma VisitIsExact(cfg: Config, s: State)
    requires Inv(cfg, s) && s.active != []
    ensures var (n, v), t := VisitHead(cfg, s), s.active[0];
            && t in s.queues && t in s.deficits && t in cfg.credit && cfg.aging > 0.0 && Due(cfg, s, t, v)
            && t in n.queues && n.queues == s.queues[t := n.queues[t]] && Keeps(s.queues[t], n.queues[t], v)
            && Settled(cfg.credit[t], s.deficits[t], v) >= 0
            && n.deficits == s.deficits[t := Settled(cfg.credit[t], s.deficits[t], v)]
            && n.active == s.active[1..] + Remaining([t], n.queues)
  {
    hide VisitHead, Inv, Due, Live, Settled, Remaining, Keeps;
    var t := s.active[0];
    HeadKnown(cfg, s);
    RemainingOne(t, VisitHead(cfg, s).0.queues);
    if Live(s.queues[t]) == [] {
      VisitEmpties(cfg, s);
      EmptyIsDue(cfg, s, t);
    } else {
      VisitSettles(cfg, s);
      ChosenIsDue(cfg, s, t);
    }
  }

  /** A visit finds a tenant empty exactly when all its requests are terminal, and then its deficit is gone
      and the tenant is out of the ring. */
  lemma EmptiedResets(cfg: Config, s: State)
    requires Inv(cfg, s) && s.active != []
    ensures var (n, v), t := VisitHead(cfg, s), s.active[0];
            && v.tenant == t && t in s.queues && t in n.deficits
            && (v.Emptied? <==> forall r :: r in s.queues[t] ==> Terminal(r.status))
            && (v.Emptied? ==> n.deficits[t] == 0 && n.active == s.active[1..] && t !in n.active)
  {
    hide VisitHead, Inv, Remaining, Chosen;
    VisitIsExact(cfg, s);
    RingIsDistinct(cfg, s);
    RemainingOne(s.active[0], VisitHead(cfg, s).0.queues);
    if VisitHead(cfg, s).1.Emptied? {
      EmptyKeepsNothing(cfg, s);
    }
  }

  lemma EmptyKeepsNothing(cfg: Config, s: State)
    requires Inv(cfg, s) && s.active != [] && VisitHead(cfg, s).1.Emptied?
    ensures VisitHead(cfg, s).0.queues[s.active[0]] == []
  {
    hide Best, Tidy, Live;
  }

  lemma HeadKnown(cfg: Config, s: State)
    requires Inv(cfg, s) && s.active != []
    ensures var t := s.active[0];
            && t in s.queues && t in s.deficits && t in cfg.credit && cfg.aging > 0.0
            && s.queues.Keys == s.deficits.Keys
  {}

  lemma EmptyIsDue(cfg: Config, s: State, t: string)
    requires cfg.aging > 0.0 && t in s.queues && t in s.deficits && t in cfg.credit && Live(s.queues[t]) == []
    ensures Due(cfg, s, t, Emptied(t)) && Settled(cfg.credit[t], s.deficits[t], Emptied(t)) == 0
    ensures Keeps(s.queues[t], [], Emptied(t))
  {
    hide Live, Ahead;
    LiveMembers(s.queues[t]);
  }

  lemma ChosenIsDue(cfg: Config, s: State, t: string)
    requires cfg.aging > 0.0 && t in s.queues && t in s.deficits && t in cfg.credit && Live(s.queues[t]) != []
    ensures var live, funds := Live(s.queues[t]), s.deficits[t] + cfg.credit[t];
            var k := Best(live, 0.0, cfg.aging);
            if live[k].cost <= funds then
              && Due(cfg, s, t, Served(t, live[k])) && Keeps(s.queues[t], RemoveAt(live, k), Served(t, live[k]))
              && Settled(cfg.credit[t], s.deficits[t], Served(t, live[k])) == funds - live[k].cost
            else
              && Due(cfg, s, t, Passed(t)) && Keeps(s.queues[t], live, Passed(t))
              && Settled(cfg.credit[t], s.deficits[t], Passed(t)) == funds
  {
    hide Best, Live, Chosen;
    var queue := s.queues[t];
    LiveMembers(queue);
    var i := BestIsChosen(queue, cfg.aging);
    assert Live(queue)[Best(Live(queue), 0.0, cfg.aging)] in Live(queue);
    forall j: nat | Chosen(queue, j, cfg.aging)
      ensures j == i
    {
      ChosenIsUnique(queue, i, j, cfg.aging);
    }
    assert queue[i] in queue && !Terminal(queue[i].status);
  }

  lemma VisitSettles(cfg: Config, s: State)
    requires Inv(cfg, s) && s.active != [] && Live(s.queues[s.active[0]]) != []
    ensures var (n, v), t := VisitHead(cfg, s), s.active[0];
            var live, funds := Live(s.queues[t]), s.deficits[t] + cfg.credit[t];
            var k := Best(live, 0.0, cfg.aging);
            if live[k].cost <= funds then
              && v == Served(t, live[k]) && n.queues == s.queues[t := RemoveAt(live, k)]
              && n.deficits == s.deficits[t := funds - live[k].cost]
              && n.active == s.active[1..] + if RemoveAt(live, k) == [] then [] else [t]
            else
              && v == Passed(t) && n.queues == s.queues[t := live] && n.deficits == s.deficits[t := funds]
              && n.active == s.active[1..] + [t]
  {
    hide Live, Best, Tidy, RemoveAt;
  }

  lemma VisitEmpties(cfg: Config, s: State)
    requires Inv(cfg, s) && s.active != [] && Live(s.queues[s.active[0]]) == []
    ensures var (n, v), t := VisitHead(cfg, s), s.active[0];
            && v == Emptied(t) && n == State(s.queues[t := []], s.deficits[t := 0], s.active[1..])
  {
    hide Best, Tidy;
    LiveMembers(s.queues[s.active[0]]);
  }

  // ---------------------------------------------------------------- one pop

  /** What a pop of at most `n` visits is, told from the state before it: the tenants at the head of the
      ring are visited in order, once each, until one is served; each visit is the one that is due; the
      deficit of each visited tenant is settled, and is nothing if it was found empty; each keeps its live
      requests, less the one served; and those visited go behind the others if they have requests left,
      and out of the ring if not. */
  ghost predicate Popped(cfg: Config, s: State, n: nat, r: PopResult)
    requires Inv(cfg, s) && n <= |s.active|
  {
    var m := |r.visits|;
    && Stops(n, r)
    && r.state.queues.Keys == s.queues.Keys && r.state.deficits.Keys == s.deficits.Keys
    && (forall k :: 0 <= k < m ==> Visited(cfg, s, s.active[k], r.visits[k], r.state))
    && (forall t :: t in s.queues && t !in s.active[..m] ==>
          r.state.queues[t] == s.queues[t] && r.state.deficits[t] == s.deficits[t])
    && r.state.active == s.active[m..] + Remaining(s.active[..m], r.state.queues)
  }

  /** Only the last visit serves somebody, and without that all `n` are made. */
  ghost predicate Stops(n: nat, r: PopResult) {
    var m := |r.visits|;
    && m <= n && (m < n ==> r.popped.Some?)
    && r.popped == (if m > 0 && r.visits[m - 1].Served? then Some(r.visits[m - 1].request) else None)
    && forall k :: 0 <= k < m - 1 ==> !r.visits[k].Served?
  }

  lemma StopsLater(n: nat, v: Visit, later: PopResult)
    requires n > 0 && Stops(n - 1, later) && !v.Served?
    ensures Stops(n, later.(visits := [v] + later.visits))
  {}

  /** The visit that was due, and its effect on the tenant. */
  ghost predicate Visited(cfg: Config, s: State, t: string, v: Visit, after: State)
    requires cfg.aging > 0.0 && after.queues.Keys == s.queues.Keys && after.deficits.Keys == s.deficits.Keys
  {
    && t in s.queues && t in s.deficits && t in cfg.credit && Due(cfg, s, t, v)
    && after.deficits[t] == Settled(cfg.credit[t], s.deficits[t], v)
    && Keeps(s.queues[t], after.queues[t], v)
  }

  lemma VisitedSame(cfg: Config, s: State, next: State, t: string, v: Visit, mid: State, after: State)
    requires cfg.aging > 0.0 && s.queues.Keys == next.queues.Keys == mid.queues.Keys == after.queues.Keys
    requires s.deficits.Keys == next.deficits.Keys == mid.deficits.Keys == after.deficits.Keys
    requires Visited(cfg, next, t, v, mid)
    requires t in s.queues ==> s.queues[t] == next.queues[t] && mid.queues[t] == after.queues[t]
    requires t in s.deficits ==> s.deficits[t] == next.deficits[t] && mid.deficits[t] == after.deficits[t]
    ensures Visited(cfg, s, t, v, after)
  {
    hide Chosen;
  }

  lemma {:induction false} PopIsExact(cfg: Config, s: State, n: nat)
    requires Inv(cfg, s) && n <= |s.active|
    ensures Popped(cfg, s, n, PopFrom(cfg, s, n))
    decreases n
  {
    hide VisitHead, Inv, Visited, Popped;
    if n == 0 {
      NothingPopped(cfg, s);
    } else {
      VisitKeepsInv(cfg, s);
      RingTurns(cfg, s);
      var (next, v) := VisitHead(cfg, s);
      if v.Served? {
        PopEnds(cfg, s, n);
      } else {
        PopIsExact(cfg, next, n - 1);
        PopGoesOn(cfg, s, n, PopFrom(cfg, next, n - 1));
      }
    }
  }

  lemma NothingPopped(cfg: Config, s: State)
    requires Inv(cfg, s)
    ensures Popped(cfg, s, 0, PopResult(s, None, []))
  {
    hide Visited;
    assert s.active[0..] == s.active && s.active[..0] == [];
    assert Remaining([], s.queues) == [];
    assert s.active + [] == s.active;
  }

  lemma HeadVisited(cfg: Config, s: State)
    requires Inv(cfg, s) && s.active != []
    ensures var (n, v) := VisitHead(cfg, s);
            && cfg.aging > 0.0 && n.queues.Keys == s.queues.Keys && n.deficits.Keys == s.deficits.Keys
            && Visited(cfg, s, s.active[0], v, n)
  {
    hide VisitHead, Inv, Due, Keeps;
    HeadKnown(cfg, s);
    VisitIsExact(cfg, s);
  }

  lemma PopEnds(cfg: Config, s: State, n: nat)
    requires Inv(cfg, s) && 0 < n <= |s.active| && VisitHead(cfg, s).1.Served?
    ensures var (next, v) := VisitHead(cfg, s);
            Popped(cfg, s, n, PopResult(next, Some(v.request), [v]))
  {
    hide VisitHead, Inv, Visited, Due, Keeps, Remaining;
    HeadKnown(cfg, s);
    VisitIsExact(cfg, s);
    HeadVisited(cfg, s);
    assert s.active[..1] == [s.active[0]];
  }

  lemma PopGoesOn(cfg: Config, s: State, n: nat, later: PopResult)
    requires Inv(cfg, s) && 0 < n <= |s.active| && !VisitHead(cfg, s).1.Served?
    requires var next := VisitHead(cfg, s).0;
             Inv(cfg, next) && s.active[1..] <= next.active && n - 1 <= |next.active| && Popped(cfg, next, n - 1, later)
    ensures Popped(cfg, s, n, later.(visits := [VisitHead(cfg, s).1] + later.visits))
  {
    hide VisitHead, Inv, Visited, Due, Keeps, Remaining, Popped;
    HeadKnown(cfg, s);
    VisitIsExact(cfg, s);
    HeadVisited(cfg, s);
    RingIsDistinct(cfg, s);
    PopAssembles(cfg, s, VisitHead(cfg, s).0, VisitHead(cfg, s).1, n, later);
  }

  lemma PopAssembles(cfg: Config, s: State, next: State, v: Visit, n: nat, later: PopResult)
    requires Inv(cfg, s) && Inv(cfg, next) && 0 < n <= |s.active| && cfg.aging > 0.0 && NoDuplicates(s.active)
    requires s.active[1..] <= next.active && n - 1 <= |next.active| && Popped(cfg, next, n - 1, later) && !v.Served?
    requires s.queues.Keys == next.queues.Keys && s.deficits.Keys == next.deficits.Keys == s.queues.Keys
    requires Visited(cfg, s, s.active[0], v, next)
    requires forall u :: u in s.queues && u != s.active[0] ==>
               next.queues[u] == s.queues[u] && next.deficits[u] == s.deficits[u]
    requires next.active == s.active[1..] + Remaining([s.active[0]], next.queues)
    ensures Popped(cfg, s, n, later.(visits := [v] + later.visits))
  {
    hide Inv, Visited, Remaining, Stops, Popped;
    PoppedKnown(cfg, next, n - 1, later);
    StopsLater(n, v, later);
    LaterVisits(cfg, s, next, v, n, later);
    PopRing(s.active, next, later.state.queues, s.active[0], |later.visits|);
    IsPopped(cfg, s, n, later.(visits := [v] + later.visits));
  }

  lemma PoppedKnown(cfg: Config, s: State, n: nat, r: PopResult)
    requires Inv(cfg, s) && n <= |s.active| && Popped(cfg, s, n, r)
    ensures Stops(n, r) && |r.visits| <= n
    ensures r.state.queues.Keys == s.queues.Keys && r.state.deficits.Keys == s.deficits.Keys
    ensures r.state.active == s.active[|r.visits|..] + Remaining(s.active[..|r.visits|], r.state.queues)
  {
    hide Inv, Visited, Remaining;
  }

  lemma IsPopped(cfg: Config, s: State, n: nat, r: PopResult)
    requires Inv(cfg, s) && n <= |s.active| && cfg.aging > 0.0 && s.queues.Keys == s.deficits.Keys
    requires Stops(n, r) && |r.visits| <= n
    requires r.state.queues.Keys == s.queues.Keys && r.state.deficits.Keys == s.deficits.Keys
    requires forall k :: 0 <= k < |r.visits| ==> Visited(cfg, s, s.active[k], r.visits[k], r.state)
    requires forall t :: t in s.queues && t !in s.active[..|r.visits|] ==>
               r.state.queues[t] == s.queues[t] && r.state.deficits[t] == s.deficits[t]
    requires r.state.active == s.active[|r.visits|..] + Remaining(s.active[..|r.visits|], r.state.queues)
    ensures Popped(cfg, s, n, r)
  {
    hide Inv, Visited, Remaining, Stops;
  }

  /** The visits of the rest of a pop, and whom they leave alone, seen from before the first visit. */
  lemma LaterVisits(cfg: Config, s: State, next: State, v: Visit, n: nat, later: PopResult)
    requires Inv(cfg, s) && Inv(cfg, next) && 0 < n <= |s.active| && cfg.aging > 0.0 && NoDuplicates(s.active)
    requires s.active[1..] <= next.active && n - 1 <= |next.active| && Popped(cfg, next, n - 1, later)
    requires s.queues.Keys == next.queues.Keys && s.deficits.Keys == next.deficits.Keys
    requires Visited(cfg, s, s.active[0], v, next)
    requires forall u :: u in s.queues && u != s.active[0] ==>
               next.queues[u] == s.queues[u] && u in s.deficits && next.deficits[u] == s.deficits[u]
    ensures var m := |later.visits|;
            && m <= n - 1
            && (forall k :: 0 <= k < m + 1 ==> Visited(cfg, s, s.active[k], ([v] + later.visits)[k], later.state))
            && s.active[0] in later.state.queues && s.active[0] in next.queues
            && later.state.queues[s.active[0]] == next.queues[s.active[0]]
            && forall u :: u in s.queues && u !in s.active[..m + 1] ==>
                 later.state.queues[u] == s.queues[u] && later.state.deficits[u] == s.deficits[u]
  {
    hide Inv, Visited, Remaining, Popped;
    VisitedKnown(cfg, s, s.active[0], v, next);
    LaterOthers(cfg, s, next, n, later);
    HeadStays(cfg, s, next, s.active[0], v, later.state);
    forall k | 0 <= k < |later.visits| + 1
      ensures Visited(cfg, s, s.active[k], ([v] + later.visits)[k], later.state)
    {
      if k > 0 {
        LaterVisit(cfg, s, next, n, later, k - 1);
      }
    }
  }

  /** Who is not visited again is left alone. */
  lemma LaterOthers(cfg: Config, s: State, next: State, n: nat, later: PopResult)
    requires Inv(cfg, s) && Inv(cfg, next) && 0 < n <= |s.active| && cfg.aging > 0.0 && NoDuplicates(s.active)
    requires s.active[1..] <= next.active && n - 1 <= |next.active| && Popped(cfg, next, n - 1, later)
    requires s.queues.Keys == next.queues.Keys && s.deficits.Keys == next.deficits.Keys && s.active[0] in s.queues
    requires forall u :: u in s.queues && u != s.active[0] ==>
               next.queues[u] == s.queues[u] && u in s.deficits && next.deficits[u] == s.deficits[u]
    ensures |later.visits| <= n - 1
    ensures s.active[|later.visits| + 1..] == s.active[1..][|later.visits|..]
    ensures later.state.queues.Keys == s.queues.Keys && later.state.deficits.Keys == s.deficits.Keys
    ensures var t := s.active[0];
            later.state.queues[t] == next.queues[t] && (t in s.deficits ==> later.state.deficits[t] == next.deficits[t])
    ensures forall u :: u in s.queues && u !in s.active[..|later.visits| + 1] ==>
              later.state.queues[u] == s.queues[u] && later.state.deficits[u] == s.deficits[u]
  {
    hide Inv, Visited, Remaining;
    var t, m, rest := s.active[0], |later.visits|, s.active[1..];
    assert s.active == [t] + rest && t !in rest;
    assert next.active[..m] == rest[..m];
    assert s.active[..m + 1] == [t] + rest[..m];
  }

  lemma LaterVisit(cfg: Config, s: State, next: State, n: nat, later: PopResult, k: nat)
    requires Inv(cfg, s) && Inv(cfg, next) && 0 < n <= |s.active| && cfg.aging > 0.0 && NoDuplicates(s.active)
    requires s.active[1..] <= next.active && n - 1 <= |next.active| && Popped(cfg, next, n - 1, later)
    requires s.queues.Keys == next.queues.Keys && s.deficits.Keys == next.deficits.Keys
    requires forall u :: u in s.queues && u != s.active[0] ==>
               next.queues[u] == s.queues[u] && u in s.deficits && next.deficits[u] == s.deficits[u]
    requires k < |later.visits| <= n - 1
    ensures later.state.queues.Keys == s.queues.Keys && later.state.deficits.Keys == s.deficits.Keys
    ensures Visited(cfg, s, s.active[k + 1], later.visits[k], later.state)
  {
    hide Inv, Visited, Remaining;
    assert next.active[k] == s.active[1..][k] == s.active[k + 1];
    VisitedKnown(cfg, next, s.active[k + 1], later.visits[k], later.state);
    VisitedSame(cfg, s, next, s.active[k + 1], later.visits[k], later.state, later.state);
  }

  lemma HeadStays(cfg: Config, s: State, next: State, t: string, v: Visit, after: State)
    requires cfg.aging > 0.0 && s.queues.Keys == next.queues.Keys == after.queues.Keys
    requires s.deficits.Keys == next.deficits.Keys == after.deficits.Keys
    requires Visited(cfg, s, t, v, next)
    requires t in next.queues && t in next.deficits ==>
               after.queues[t] == next.queues[t] && after.deficits[t] == next.deficits[t]
    ensures Visited(cfg, s, t, v, after) && t in s.queues && t in s.deficits
  {}

  lemma VisitedKnown(cfg: Config, s: State, t: string, v: Visit, after: State)
    requires cfg.aging > 0.0 && after.queues.Keys == s.queues.Keys && after.deficits.Keys == s.deficits.Keys
    requires Visited(cfg, s, t, v, after)
    ensures t in s.queues && t in s.deficits
  {}

  /** The ring after a visit and then a pop of `m` visits. */
  lemma PopRing(ring: seq<string>, next: State, queues: map<string, seq<Request>>, t: string, m: nat)
    requires ring != [] && ring[0] == t && m <= |ring| - 1 && next.active == ring[1..] + Remaining([t], next.queues)
    requires t in next.queues && t in queues && queues[t] == next.queues[t]
    ensures next.active[m..] + Remaining(next.active[..m], queues)
         == ring[m + 1..] + Remaining(ring[..m + 1], queues)
  {
    hide Remaining;
    var rest := ring[1..];
    RemainingOne(t, next.queues);
    RemainingOne(t, queues);
    RemainingJoins([t], rest[..m], queues);
    assert next.active[m..] == ring[m + 1..] + Remaining([t], queues);
    assert next.active[..m] == rest[..m];
    assert ring[..m + 1] == [t] + rest[..m];
  }

  // ---------------------------------------------------------------- the ledger of a run

  /** A tenant's deficit after a series of visits: set to nothing whenever it was found empty, otherwise
      credit in and service out. */
  ghost function Balance(credit: nat, start: int, visits: seq<Visit>, t: string): int
    decreases visits
  {
    if visits == [] then start
    else Balance(credit, if visits[0].tenant == t then Settled(credit, start, visits[0]) else start, visits[1..], t)
  }

  /** The balance is never negative on the way. */
  ghost predicate Solvent(credit: nat, start: int, visits: seq<Visit>, t: string)
    decreases visits
  {
    && start >= 0
    && (visits == [] ||
        Solvent(credit, if visits[0].tenant == t then Settled(credit, start, visits[0]) else start, visits[1..], t))
  }

  lemma {:induction false} LedgersJoin(credit: nat, start: int, first: seq<Visit>, second: seq<Visit>, t: string)
    ensures Balance(credit, start, first + second, t) == Balance(credit, Balance(credit, start, first, t), second, t)
    ensures Solvent(credit, start, first + second, t) <==>
              Solvent(credit, start, first, t) && Solvent(credit, Balance(credit, start, first, t), second, t)
    decreases first
  {
    hide Settled;
    if first == [] {
      assert first + second == second;
    } else {
      var next := if first[0].tenant == t then Settled(credit, start, first[0]) else start;
      LedgersJoin(credit, next, first[1..], second, t);
      assert (first + second)[1..] == first[1..] + second;
    }
  }

  /** The deficit after the visits is what the ledger says. */
  ghost predicate Booked(cfg: Config, s: State, visits: seq<Visit>, after: State, t: string)
    requires t in cfg.credit
  {
    && t in s.deficits && t in after.deficits
    && Solvent(cfg.credit[t], s.deficits[t], visits, t)
    && after.deficits[t] == Balance(cfg.credit[t], s.deficits[t], visits, t)
  }

  lemma NothingBooked(cfg: Config, s: State, t: string)
    requires t in cfg.credit && t in s.deficits
    ensures Booked(cfg, s, [], s, t)
  {}

  lemma BooksJoin(cfg: Config, a: State, first: seq<Visit>, b: State, second: seq<Visit>, c: State, t: string)
    requires t in cfg.credit && Booked(cfg, a, first, b, t) && Booked(cfg, b, second, c, t)
    ensures Booked(cfg, a, first + second, c, t)
  {
    LedgersJoin(cfg.credit[t], a.deficits[t], first, second, t);
  }

  lemma VisitBooked(cfg: Config, s: State, t: string)
    requires Inv(cfg, s) && s.active != [] && t in cfg.credit && t in s.deficits
    ensures Booked(cfg, s, [VisitHead(cfg, s).1], VisitHead(cfg, s).0, t)
  {
    hide VisitHead, Inv, Due, Keeps, Remaining, Settled;
    VisitIsExact(cfg, s);
    VisitOfHead(cfg, s);
    OneVisit(cfg.credit[t], s.deficits[t], VisitHead(cfg, s).1, t);
  }

  lemma OneVisit(credit: nat, start: nat, v: Visit, t: string)
    ensures var end := if v.tenant == t then Settled(credit, start, v) else start;
            && Balance(credit, start, [v], t) == end
            && (Solvent(credit, start, [v], t) <==> end >= 0)
  {
    assert [v][1..] == [];
  }

  lemma VisitOfHead(cfg: Config, s: State)
    requires Inv(cfg, s) && s.active != []
    ensures VisitHead(cfg, s).1.tenant == s.active[0]
  {
    RingTurns(cfg, s);
  }

  lemma {:induction false} PopBooked(cfg: Config, s: State, n: nat, t: string)
    requires Inv(cfg, s) && t in cfg.credit && t in s.deficits
    ensures Booked(cfg, s, PopFrom(cfg, s, n).visits, PopFrom(cfg, s, n).state, t)
    decreases n
  {
    hide VisitHead, Inv, Booked;
    if s.active == [] || n == 0 {
      NothingBooked(cfg, s, t);
    } else {
      VisitKeepsInv(cfg, s);
      VisitBooked(cfg, s, t);
      var (next, v) := VisitHead(cfg, s);
      if !v.Served? {
        DeficitsKnown(cfg, next, t);
        PopBooked(cfg, next, n - 1, t);
        BooksJoin(cfg, s, [v], next, PopFrom(cfg, next, n - 1).visits, PopFrom(cfg, next, n - 1).state, t);
      }
    }
  }

  lemma DeficitsKnown(cfg: Config, s: State, t: string)
    requires Inv(cfg, s) && t in cfg.credit
    ensures t in s.deficits
  {}

  /** Only visits change deficits. */
  lemma StepBooked(cfg: Config, s: State, op: Op, t: string)
    requires Inv(cfg, s) && t in cfg.credit
    ensures Booked(cfg, s, Step(cfg, s, op).visits, Step(cfg, s, op).state, t)
  {
    hide Inv, Booked, PopFrom;
    DeficitsKnown(cfg, s, t);
    NothingBooked(cfg, s, t);
    match op
    case Arrive(request, now) => SameBooked(cfg, s, Step(cfg, s, op).state, t);
    case Next => PopBooked(cfg, s, |s.active|, t);
    case Withdraw(id) =>
      OrderKnown(cfg, s);
      CancelKeepsInv(cfg, s, cfg.order, id);
      SameBooked(cfg, s, Step(cfg, s, op).state, t);
    case Elsewhere(u, i, status) => SameBooked(cfg, s, Step(cfg, s, op).state, t);
  }

  lemma OrderKnown(cfg: Config, s: State)
    requires Inv(cfg, s)
    ensures forall t :: t in cfg.order ==> t in s.queues
  {}

  lemma SameBooked(cfg: Config, s: State, after: State, t: string)
    requires t in cfg.credit && t in s.deficits && after.deficits == s.deficits
    ensures Booked(cfg, s, [], after, t)
  {}

  /** Over any run, with arrivals, cancellations and changes by other holders, the deficit of every tenant,
      backlogged or not, is what the ledger of its visits says. */
  lemma {:induction false} RunIsBooked(cfg: Config, s: State, ops: seq<Op>, t: string)
    requires Inv(cfg, s) && t in cfg.credit
    ensures Booked(cfg, s, Run(cfg, s, ops).visits, Run(cfg, s, ops).state, t)
    decreases ops
  {
    hide Inv, Booked, Step;
    if ops == [] {
      DeficitsKnown(cfg, s, t);
      NothingBooked(cfg, s, t);
    } else {
      var first := Step(cfg, s, ops[0]);
      var rest := Run(cfg, first.state, ops[1..]);
      StepBooked(cfg, s, ops[0], t);
      RunIsBooked(cfg, first.state, ops[1..], t);
      BooksJoin(cfg, s, first.visits, first.state, rest.visits, rest.state, t);
    }
  }

  /** Credit for the visits pays for all service, and what was lost when the tenant was empty is lost. */
  lemma {:induction false} CreditCovers(credit: nat, start: int, visits: seq<Visit>, t: string)
    requires Solvent(credit, start, visits, t)
    ensures Tokens(visits, t) + Balance(credit, start, visits, t) <= start + Credited(credit, visits, t)
    ensures Balance(credit, start, visits, t) >= 0
    decreases visits
  {
    if visits != [] {
      CreditCovers(credit, if visits[0].tenant == t then Settled(credit, start, visits[0]) else start, visits[1..], t);
    }
  }

  /** A tenant cannot save up credit while it has nothing to run: after a visit that found it without a
      live request, the tokens served to it are at most its credit times the visits since. */
  lemma IdleBanksNothing(cfg: Config, s: State, ops: seq<Op>, t: string, k: nat)
    requires Inv(cfg, s) && t in cfg.credit
    requires k < |Run(cfg, s, ops).visits| && Run(cfg, s, ops).visits[k] == Emptied(t)
    ensures var r := Run(cfg, s, ops);
            && t in r.state.deficits
            && Tokens(r.visits[k + 1..], t) + r.state.deficits[t] <= cfg.credit[t] * Count(r.visits[k + 1..], t)
  {
    hide Run, Inv;
    var r, credit := Run(cfg, s, ops), cfg.credit[t];
    RunIsBooked(cfg, s, ops, t);
    var first, second := r.visits[..k + 1], r.visits[k + 1..];
    assert r.visits == first + second && first == r.visits[..k] + [Emptied(t)];
    LedgersJoin(credit, s.deficits[t], first, second, t);
    LedgersJoin(credit, s.deficits[t], r.visits[..k], [Emptied(t)], t);
    assert [Emptied(t)][1..] == [];
    CreditCovers(credit, 0, second, t);
    CreditedIs(credit, second, t);
  }
}
