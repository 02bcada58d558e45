/** What weighted fairness means over whole runs of the queue of `fair_queue.py`. */
module FairQueueRuns {
  import opened Arithmetic
  import opened Wrappers
  import opened Sequences
  import opened RequestLifecycle
  import opened FairQueue

  /** One event of a run. `Elsewhere` is a request record changed by another holder while queued. */
  datatype Op =
    | Arrive(request: Request, now: real)
    | Next
    | Withdraw(id: string)
    | Elsewhere(tenant: string, index: nat, status: RequestState)

  ghost function Step(cfg: Config, s: State, op: Op): (r: PopResult)
    requires Inv(cfg, s)
    ensures Inv(cfg, r.state)
  {
    match op
    case Arrive(request, now) =>
      if EnqueueError(s, request).Some? then PopResult(s, None, [])
      else
        EnqueueKeepsInv(cfg, s, request, now);
        PopResult(Enqueue(s, request, now), None, [])
    case Next => Pop(cfg, s)
    case Withdraw(id) =>
      CancelKeepsInv(cfg, s, cfg.order, id);
      PopResult(CancelAmong(s, cfg.order, id).0, None, [])
    case Elsewhere(t, i, status) =>
      if t !in s.queues || i >= |s.queues[t]| then PopResult(s, None, [])
      else PopResult(s.(queues := s.queues[t := s.queues[t][i := s.queues[t][i].(status := status)]]), None, [])
  }

  datatype Outcome = Outcome(state: State, visits: seq<Visit>)

  /** The final state of a run and every visit made during it. */
  ghost function Run(cfg: Config, s: State, ops: seq<Op>): (r: Outcome)
    requires Inv(cfg, s)
    ensures Inv(cfg, r.state)
    decreases ops
  {
    if ops == [] then Outcome(s, [])
    else
      var first := Step(cfg, s, ops[0]);
      var rest := Run(cfg, first.state, ops[1..]);
      Outcome(rest.state, first.visits + rest.visits)
  }

  /** Tenant `t` has live requests, all costing between `lo` and `hi`. */
  ghost predicate Waiting(s: State, t: string, lo: nat, hi: nat) {
    t in s.queues && Live(s.queues[t]) != []
    && forall r :: r in Live(s.queues[t]) ==> lo <= r.cost <= hi
  }

  /** `Waiting` holds in every state of the run. */
  ghost predicate Backlogged(cfg: Config, s: State, ops: seq<Op>, t: string, lo: nat, hi: nat)
    requires Inv(cfg, s)
    decreases ops
  {
    Waiting(s, t, lo, hi) && (ops == [] || Backlogged(cfg, Step(cfg, s, ops[0]).state, ops[1..], t, lo, hi))
  }

  // ---------------------------------------------------------------- reading a log of visits

  ghost function Count(visits: seq<Visit>, t: string): nat {
    if visits == [] then 0 else (if visits[0].tenant == t then 1 else 0) + Count(visits[1..], t)
  }

  /** Tokens served to `t`. */
  ghost function Tokens(visits: seq<Visit>, t: string): nat {
    if visits == [] then 0
    else (if visits[0].Served? && visits[0].tenant == t then visits[0].request.cost else 0) + Tokens(visits[1..], t)
  }

  /** Credit granted to `t`: its per-visit credit once per visit. */
  ghost function Credited(credit: nat, visits: seq<Visit>, t: string): nat {
    if visits == [] then 0 else (if visits[0].tenant == t then credit else 0) + Credited(credit, visits[1..], t)
  }

  ghost predicate Serves(visits: seq<Visit>, t: string) {
    visits != [] && ((visits[0].Served? && visits[0].tenant == t) || Serves(visits[1..], t))
  }

  lemma {:induction false} LogsJoin(credit: nat, first: seq<Visit>, second: seq<Visit>, t: string)
    ensures Count(first + second, t) == Count(first, t) + Count(second, t)
    ensures Tokens(first + second, t) == Tokens(first, t) + Tokens(second, t)
    ensures Credited(credit, first + second, t) == Credited(credit, first, t) + Credited(credit, second, t)
    ensures Serves(first + second, t) <==> Serves(first, t) || Serves(second, t)
  {
    if first == [] {
      assert first + second == second;
    } else {
      LogsJoin(credit, first[1..], second, t);
      assert (first + second)[1..] == first[1..] + second;
    }
  }

  lemma {:induction false} CreditedIs(credit: nat, visits: seq<Visit>, t: string)
    ensures Credited(credit, visits, t) == credit * Count(visits, t)
  {
    if visits != [] {
      CreditedIs(credit, visits[1..], t);
    }
  }

  // ---------------------------------------------------------------- one visit

  lemma {:induction false} LiveTwice(queue: seq<Request>)
    ensures Live(Live(queue)) == Live(queue)
  {
    if queue != [] {
      var init, last := queue[..|queue| - 1], queue[|queue| - 1];
      LiveTwice(init);
      if !Terminal(last.status) {
        assert Live(queue)[..|Live(queue)| - 1] == Live(init);
      } else {
        assert Live(queue) == Live(init);
      }
    }
  }

  /** A visit and a tenant that is waiting: credit in, at most one request out, nothing lost. */
  lemma VisitAccounts(cfg: Config, s: State, t: string, lo: nat, hi: nat)
    requires Inv(cfg, s) && s.active != [] && Waiting(s, t, lo, hi)
    ensures var (n, v) := VisitHead(cfg, s);
            && v.tenant == s.active[0]
            && (v.tenant != t ==> n.queues[t] == s.queues[t] && n.deficits[t] == s.deficits[t])
            && (v.tenant == t && v.Served? ==>
                  n.deficits[t] + v.request.cost == s.deficits[t] + cfg.credit[t] && lo <= v.request.cost <= hi)
            && (v.tenant == t && !v.Served? ==>
                  n.deficits[t] == s.deficits[t] + cfg.credit[t] < hi && Live(n.queues[t]) == Live(s.queues[t]))
            && ((v.Served? && v.tenant == t) || Waiting(n, t, lo, hi))
  {
    hide Live, Best, Tidy;
    LiveTwice(s.queues[t]);
    var live := Live(s.queues[t]);
    assert live[Best(live, 0.0, cfg.aging)] in live;
  }

  /** `a` is visited before `b` in the ring. */
  ghost predicate Before(ring: seq<string>, a: string, b: string) {
    ring != [] && (ring[0] == a || (ring[0] != b && Before(ring[1..], a, b)))
  }

  lemma {:induction false} BeforeAppend(ring: seq<string>, a: string, b: string, x: string)
    requires a in ring || b in ring
    ensures Before(ring + [x], a, b) == Before(ring, a, b)
  {
    assert (ring + [x])[0] == ring[0];
    if ring[0] != a && ring[0] != b {
      assert (ring + [x])[1..] == ring[1..] + [x];
      assert ring == [ring[0]] + ring[1..];
      BeforeAppend(ring[1..], a, b, x);
    }
  }

  lemma {:induction false} AloneBefore(ring: seq<string>, a: string, b: string)
    requires a != b && !(a in ring && b in ring) && (a in ring || b in ring)
    ensures Before(ring, a, b) <==> a in ring
  {
    if ring[0] != a && ring[0] != b {
      assert ring == [ring[0]] + ring[1..];
      AloneBefore(ring[1..], a, b);
    }
  }

  ghost function Lead(ring: seq<string>, a: string, b: string): nat {
    if Before(ring, a, b) then 1 else 0
  }

  /** Two tenants that stay in the ring change places only by being visited. */
  lemma VisitAlternates(cfg: Config, s: State, a: string, b: string)
    requires Inv(cfg, s) && s.active != [] && a != b && a in s.active && b in s.active
    requires a in VisitHead(cfg, s).0.active && b in VisitHead(cfg, s).0.active
    ensures var (n, v) := VisitHead(cfg, s);
            Lead(n.active, a, b) == Lead(s.active, a, b) - (if v.tenant == a then 1 else 0)
                                                         + (if v.tenant == b then 1 else 0)
  {
    hide Tidy;
    var t, rest := s.active[0], s.active[1..];
    assert s.active == [t] + rest;
    assert t !in rest;
    var n := VisitHead(cfg, s).0;
    assert n.active == rest || n.active == rest + [t];
    if t == a || t == b {
      AloneBefore(rest, a, b);
      BeforeAppend(rest, a, b, t);
    } else if n.active == rest + [t] {
      BeforeAppend(rest, a, b, t);
    }
  }

  // ---------------------------------------------------------------- one pop

  /** The log of a pop is its first visit followed by the log of the rest. */
  lemma FirstVisit(credit: nat, v: Visit, later: seq<Visit>, t: string)
    ensures var log := [v] + later;
            && Count(log, t) == (if v.tenant == t then 1 else 0) + Count(later, t)
            && Tokens(log, t) == (if v.Served? && v.tenant == t then v.request.cost else 0) + Tokens(later, t)
            && Credited(credit, log, t) == (if v.tenant == t then credit else 0) + Credited(credit, later, t)
            && (Serves(log, t) <==> (v.Served? && v.tenant == t) || Serves(later, t))
  {
    assert ([v] + later)[1..] == later;
  }

  /** What a stretch of visits does to a tenant that is waiting before and after it: its deficit
      changes by credit minus service, and stays below `hi` once the costs are high enough. */
  ghost predicate Accounts(cfg: Config, s: State, visits: seq<Visit>, after: State, t: string, lo: nat, hi: nat)
    requires t in s.deficits && t in after.deficits && t in cfg.credit
  {
    && after.deficits[t] + Tokens(visits, t) == s.deficits[t] + Credited(cfg.credit[t], visits, t)
    && (s.deficits[t] < hi && cfg.credit[t] <= lo ==> after.deficits[t] < hi)
    && (!Serves(visits, t) ==> Tokens(visits, t) == 0)
    && (!Serves(visits, t) ==> Count(visits, t) == 0 || after.deficits[t] < hi)
  }

  lemma AccountsJoin(cfg: Config, s: State, first: seq<Visit>, mid: State, second: seq<Visit>, after: State,
                     t: string, lo: nat, hi: nat)
    requires t in s.deficits && t in mid.deficits && t in after.deficits && t in cfg.credit
    requires Accounts(cfg, s, first, mid, t, lo, hi) && Accounts(cfg, mid, second, after, t, lo, hi)
    ensures Accounts(cfg, s, first + second, after, t, lo, hi)
  {
    LogsJoin(cfg.credit[t], first, second, t);
    if !Serves(first + second, t) && Count(second, t) == 0 {
      UnvisitedUncredited(cfg.credit[t], second, t);
    }
  }

  lemma {:induction false} UnvisitedUncredited(credit: nat, visits: seq<Visit>, t: string)
    requires Count(visits, t) == 0
    ensures Credited(credit, visits, t) == 0
  {
    if visits != [] {
      UnvisitedUncredited(credit, visits[1..], t);
    }
  }

  lemma VisitIsAccounted(cfg: Config, s: State, t: string, lo: nat, hi: nat)
    requires Inv(cfg, s) && s.active != [] && Waiting(s, t, lo, hi)
    ensures Inv(cfg, VisitHead(cfg, s).0)
    ensures Accounts(cfg, s, [VisitHead(cfg, s).1], VisitHead(cfg, s).0, t, lo, hi)
  {
    VisitKeepsInv(cfg, s);
    VisitAccounts(cfg, s, t, lo, hi);
    FirstVisit(cfg.credit[t], VisitHead(cfg, s).1, [], t);
    assert [VisitHead(cfg, s).1] + [] == [VisitHead(cfg, s).1];
  }

  lemma {:induction false} PopAccounts(cfg: Config, s: State, n: nat, t: string, lo: nat, hi: nat)
    requires Inv(cfg, s) && Waiting(s, t, lo, hi) && Waiting(PopFrom(cfg, s, n).state, t, lo, hi)
    ensures Accounts(cfg, s, PopFrom(cfg, s, n).visits, PopFrom(cfg, s, n).state, t, lo, hi)
    decreases n
  {
    hide VisitHead, Live, Accounts, Inv, Waiting;
    Configured(cfg, s, t, lo, hi);
    if s.active == [] || n == 0 {
      NoVisits(cfg, s, t, lo, hi);
    } else {
      VisitIsAccounted(cfg, s, t, lo, hi);
      VisitAccounts(cfg, s, t, lo, hi);
      var (next, v) := VisitHead(cfg, s);
      if !v.Served? {
        PopAccounts(cfg, next, n - 1, t, lo, hi);
        var later := PopFrom(cfg, next, n - 1);
        Configured(cfg, next, t, lo, hi);
        Configured(cfg, later.state, t, lo, hi);
        AccountsJoin(cfg, s, [v], next, later.visits, later.state, t, lo, hi);
      }
    }
  }

  lemma Configured(cfg: Config, s: State, t: string, lo: nat, hi: nat)
    requires Inv(cfg, s) && Waiting(s, t, lo, hi)
    ensures t in s.deficits && t in cfg.credit && t in s.active
  {}

  lemma NoVisits(cfg: Config, s: State, t: string, lo: nat, hi: nat)
    requires t in s.deficits && t in cfg.credit
    ensures Accounts(cfg, s, [], s, t, lo, hi)
  {}

  // ---------------------------------------------------------------- whole runs

  /** Steps other than a pop make no visits and leave every deficit alone. */
  lemma StepAccounts(cfg: Config, s: State, op: Op, t: string, lo: nat, hi: nat)
    requires Inv(cfg, s) && Waiting(s, t, lo, hi) && Waiting(Step(cfg, s, op).state, t, lo, hi)
    ensures Accounts(cfg, s, Step(cfg, s, op).visits, Step(cfg, s, op).state, t, lo, hi)
  {
    hide Tidy;
    match op
    case Arrive(request, now) => NoVisits(cfg, s, t, lo, hi);
    case Next => PopAccounts(cfg, s, |s.active|, t, lo, hi);
    case Withdraw(id) =>
      CancelKeepsInv(cfg, s, cfg.order, id);
      NoVisits(cfg, s, t, lo, hi);
    case Elsewhere(u, i, status) => NoVisits(cfg, s, t, lo, hi);
  }

  lemma {:induction false} RunAccounts(cfg: Config, s: State, ops: seq<Op>, t: string, lo: nat, hi: nat)
    requires Inv(cfg, s) && Backlogged(cfg, s, ops, t, lo, hi)
    ensures Accounts(cfg, s, Run(cfg, s, ops).visits, Run(cfg, s, ops).state, t, lo, hi)
    decreases ops
  {
    hide Accounts, Step;
    if ops == [] {
      NoVisits(cfg, s, t, lo, hi);
    } else {
      var first := Step(cfg, s, ops[0]);
      var rest := Run(cfg, first.state, ops[1..]);
      StepAccounts(cfg, s, ops[0], t, lo, hi);
      RunAccounts(cfg, first.state, ops[1..], t, lo, hi);
      AccountsJoin(cfg, s, first.visits, first.state, rest.visits, rest.state, t, lo, hi);
    }
  }

  /** Between two tenants that keep waiting, the lead in the ring and the visit counts balance. */
  ghost predicate Alternates(s: State, visits: seq<Visit>, after: State, a: string, b: string) {
    Count(visits, a) + Lead(after.active, a, b) == Count(visits, b) + Lead(s.active, a, b)
  }

  lemma {:induction false} PopAlternates(cfg: Config, s: State, n: nat, a: string, b: string, la: nat, lb: nat, hi: nat)
    requires Inv(cfg, s) && a != b && Waiting(s, a, la, hi) && Waiting(s, b, lb, hi)
    requires Waiting(PopFrom(cfg, s, n).state, a, la, hi) && Waiting(PopFrom(cfg, s, n).state, b, lb, hi)
    ensures Alternates(s, PopFrom(cfg, s, n).visits, PopFrom(cfg, s, n).state, a, b)
    decreases n
  {
    hide VisitHead, Live, Inv, Waiting, Lead;
    if s.active != [] && n > 0 {
      VisitKeepsInv(cfg, s);
      VisitAccounts(cfg, s, a, la, hi);
      VisitAccounts(cfg, s, b, lb, hi);
      var (next, v) := VisitHead(cfg, s);
      var later := PopFrom(cfg, next, n - 1);
      Configured(cfg, s, a, la, hi);
      Configured(cfg, s, b, lb, hi);
      if v.Served? {
        Configured(cfg, next, a, la, hi);
        Configured(cfg, next, b, lb, hi);
        VisitAlternates(cfg, s, a, b);
        FirstVisit(0, v, [], a);
        FirstVisit(0, v, [], b);
        assert [v] + [] == [v];
      } else {
        Configured(cfg, next, a, la, hi);
        Configured(cfg, next, b, lb, hi);
        VisitAlternates(cfg, s, a, b);
        PopAlternates(cfg, next, n - 1, a, b, la, lb, hi);
        FirstVisit(0, v, later.visits, a);
        FirstVisit(0, v, later.visits, b);
      }
    }
  }

  lemma StepAlternates(cfg: Config, s: State, op: Op, a: string, b: string, la: nat, lb: nat, hi: nat)
    requires Inv(cfg, s) && a != b && Waiting(s, a, la, hi) && Waiting(s, b, lb, hi)
    requires Waiting(Step(cfg, s, op).state, a, la, hi) && Waiting(Step(cfg, s, op).state, b, lb, hi)
    ensures Alternates(s, Step(cfg, s, op).visits, Step(cfg, s, op).state, a, b)
  {
    hide Waiting, Live, Lead;
    Configured(cfg, s, a, la, hi);
    Configured(cfg, s, b, lb, hi);
    if op.Next? {
      PopAlternates(cfg, s, |s.active|, a, b, la, lb, hi);
    } else {
      OtherStepsKeepLead(cfg, s, op, a, b);
    }
  }

  lemma OtherStepsKeepLead(cfg: Config, s: State, op: Op, a: string, b: string)
    requires Inv(cfg, s) && a in s.active && b in s.active && !op.Next?
    ensures Step(cfg, s, op).visits == [] && Lead(Step(cfg, s, op).state.active, a, b) == Lead(s.active, a, b)
  {
    hide Live, Tidy;
    match op
    case Arrive(request, now) => BeforeAppend(s.active, a, b, request.tenant);
    case Withdraw(id) => CancelKeepsInv(cfg, s, cfg.order, id);
    case Elsewhere(u, i, status) =>
  }

  lemma {:induction false} RunAlternates(cfg: Config, s: State, ops: seq<Op>, a: string, b: string,
                                         la: nat, lb: nat, hi: nat)
    requires Inv(cfg, s) && a != b && Backlogged(cfg, s, ops, a, la, hi) && Backlogged(cfg, s, ops, b, lb, hi)
    ensures Alternates(s, Run(cfg, s, ops).visits, Run(cfg, s, ops).state, a, b)
    decreases ops
  {
    hide Step, Lead;
    if ops != [] {
      var first := Step(cfg, s, ops[0]);
      var rest := Run(cfg, first.state, ops[1..]);
      StepAlternates(cfg, s, ops[0], a, b, la, lb, hi);
      RunAlternates(cfg, first.state, ops[1..], a, b, la, lb, hi);
      LogsJoin(0, first.visits, rest.visits, a);
      LogsJoin(0, first.visits, rest.visits, b);
    }
  }

  /** Token fairness. Two tenants that stay backlogged, start below the bound `M` and have
      every request cost between their own per-visit credit and `M`, are visited equally often
      up to one, and served in proportion to their weights up to a constant: the second clause
      is `served(a)/wa - served(b)/wb` being less than `quantum + M/wa + M/wb` either way. */
  lemma WeightedFairness(cfg: Config, s: State, ops: seq<Op>, a: string, b: string, M: nat,
                         quantum: nat, wa: nat, wb: nat)
    requires Inv(cfg, s) && a != b && a in cfg.credit && b in cfg.credit
    requires cfg.credit[a] == quantum * wa && cfg.credit[b] == quantum * wb && wa > 0 && wb > 0
    requires s.deficits[a] < M && s.deficits[b] < M
    requires Backlogged(cfg, s, ops, a, cfg.credit[a], M) && Backlogged(cfg, s, ops, b, cfg.credit[b], M)
    ensures var visits := Run(cfg, s, ops).visits;
            && -1 <= Count(visits, a) - Count(visits, b) <= 1
            && var gap := Tokens(visits, a) * wb - Tokens(visits, b) * wa;
               -(quantum * wa * wb + M * wb + M * wa) < gap < quantum * wa * wb + M * wb + M * wa
  {
    hide Run, Backlogged, Inv, Count, Tokens;
    RunAlternates(cfg, s, ops, a, b, cfg.credit[a], cfg.credit[b], M);
    RunTokens(cfg, s, ops, a, cfg.credit[a], M);
    RunTokens(cfg, s, ops, b, cfg.credit[b], M);
    var r := Run(cfg, s, ops);
    var va: int, vb: int := Count(r.visits, a), Count(r.visits, b);
    var startA: int, startB: int := s.deficits[a], s.deficits[b];
    var endA: int, endB: int := r.state.deficits[a], r.state.deficits[b];
    GapBound(quantum, wa, wb, M, va, vb, startA - endA, startB - endB);
  }

  /** Conservation over a run: everything credited was either served or is still in the deficit. */
  lemma RunTokens(cfg: Config, s: State, ops: seq<Op>, t: string, lo: nat, hi: nat)
    requires Inv(cfg, s) && Backlogged(cfg, s, ops, t, lo, hi)
    ensures t in cfg.credit && t in s.deficits && t in Run(cfg, s, ops).state.deficits
    ensures var r := Run(cfg, s, ops);
            && r.state.deficits[t] + Tokens(r.visits, t) == s.deficits[t] + cfg.credit[t] * Count(r.visits, t)
            && (s.deficits[t] < hi && cfg.credit[t] <= lo ==> r.state.deficits[t] < hi)
  {
    RunAccounts(cfg, s, ops, t, lo, hi);
    CreditedIs(cfg.credit[t], Run(cfg, s, ops).visits, t);
  }

  lemma GapBound(quantum: nat, wa: nat, wb: nat, M: nat, va: nat, vb: nat, da: int, db: int)
    requires wa > 0 && wb > 0 && -1 <= va - vb <= 1 && 0 - M < da < M && 0 - M < db < M
    ensures var gap := (quantum * wa * va + da) * wb - (quantum * wb * vb + db) * wa;
            -(quantum * wa * wb + M * wb + M * wa) < gap < quantum * wa * wb + M * wb + M * wa
  {
    var unit := quantum * wa * wb;
    ScaledBound(da, M, wb);
    ScaledBound(db, M, wa);
    Distribute(quantum * wa * va, da, wb);
    Distribute(quantum * wb * vb, db, wa);
    Rearrange(quantum, wa, wb, va);
    Rearrange(quantum, wb, wa, vb);
    assert quantum * wb * wa == unit;
    OneUnit(unit, va, vb);
  }

  lemma Rearrange(q: int, x: int, y: int, v: int)
    ensures q * x * v * y == v * (q * x * y)
  {
    assert q * x * v * y == (q * x) * (v * y);
  }

  lemma OneUnit(unit: nat, va: nat, vb: nat)
    requires -1 <= va - vb <= 1
    ensures 0 - unit <= va * unit - vb * unit <= unit
  {
    if va > vb {
      Distribute(vb, 1, unit);
    } else if va < vb {
      Distribute(va, 1, unit);
    }
  }

  // ---------------------------------------------------------------- starvation

  ghost function Pops(ops: seq<Op>): nat {
    if ops == [] then 0 else (if ops[0].Next? then 1 else 0) + Pops(ops[1..])
  }

  /** How many tenants are ahead of `t` in the ring. */
  ghost function Pos(ring: seq<string>, t: string): nat
    requires t in ring
  {
    if ring[0] == t then 0
    else
      assert ring == [ring[0]] + ring[1..];
      1 + Pos(ring[1..], t)
  }

  lemma {:induction false} PosAppend(ring: seq<string>, t: string, x: string)
    requires t in ring
    ensures Pos(ring + [x], t) == Pos(ring, t) < |ring|
  {
    assert (ring + [x])[0] == ring[0];
    if ring[0] != t {
      assert (ring + [x])[1..] == ring[1..] + [x];
      assert ring == [ring[0]] + ring[1..];
      PosAppend(ring[1..], t, x);
    }
  }

  lemma {:induction false} PosAtEnd(ring: seq<string>, t: string)
    requires t !in ring
    ensures Pos(ring + [t], t) == |ring|
  {
    if ring != [] {
      assert (ring + [t])[1..] == ring[1..] + [t];
      PosAtEnd(ring[1..], t);
    }
  }

  lemma RingSize(cfg: Config, s: State)
    requires Inv(cfg, s)
    ensures |s.active| <= |cfg.credit|
  {
    DistinctCount(s.active);
    SubsetNoLarger(Elements(s.active), cfg.credit.Keys);
  }

  /** A stretch of visits is paid for by the tenant's distance in the ring, refilled by one
      full round per visit to it. */
  ghost predicate Budget(cfg: Config, s: State, visits: seq<Visit>, after: State, t: string)
    requires t in s.active && t in after.active
  {
    |visits| + Pos(after.active, t) <= Pos(s.active, t) + Credited(|cfg.credit|, visits, t)
  }

  lemma VisitBudget(cfg: Config, s: State, t: string)
    requires Inv(cfg, s) && s.active != [] && t in s.active && t in VisitHead(cfg, s).0.active
    ensures Budget(cfg, s, [VisitHead(cfg, s).1], VisitHead(cfg, s).0, t)
    ensures Pos(s.active, t) == 0 <==> VisitHead(cfg, s).1.tenant == t
    ensures Pos(s.active, t) > 0 ==> Pos(VisitHead(cfg, s).0.active, t) == Pos(s.active, t) - 1
  {
    hide Tidy, Live, Best;
    var u, rest := s.active[0], s.active[1..];
    assert s.active == [u] + rest && u !in rest;
    RingSize(cfg, s);
    var n := VisitHead(cfg, s).0;
    assert n.active == rest || n.active == rest + [u];
    if t == u {
      PosAtEnd(rest, t);
    } else {
      PosAppend(rest, t, u);
    }
    assert [VisitHead(cfg, s).1] + [] == [VisitHead(cfg, s).1];
    FirstVisit(|cfg.credit|, VisitHead(cfg, s).1, [], t);
  }

  lemma {:induction false} PopBudget(cfg: Config, s: State, n: nat, t: string, hi: nat)
    requires Inv(cfg, s) && Waiting(s, t, 0, hi) && Waiting(PopFrom(cfg, s, n).state, t, 0, hi)
    ensures t in s.active && t in PopFrom(cfg, s, n).state.active
    ensures Budget(cfg, s, PopFrom(cfg, s, n).visits, PopFrom(cfg, s, n).state, t)
    ensures n > 0 ==> |PopFrom(cfg, s, n).visits| > 0
    ensures PopFrom(cfg, s, n).popped.None? && Pos(s.active, t) < n ==> Count(PopFrom(cfg, s, n).visits, t) > 0
    ensures PopFrom(cfg, s, n).popped.None? ==> !Serves(PopFrom(cfg, s, n).visits, t)
    decreases n
  {
    hide VisitHead, Live, Inv, Waiting, Pos;
    Configured(cfg, s, t, 0, hi);
    if n > 0 {
      assert s.active != [];
      VisitKeepsInv(cfg, s);
      VisitAccounts(cfg, s, t, 0, hi);
      var (next, v) := VisitHead(cfg, s);
      Configured(cfg, next, t, 0, hi);
      VisitBudget(cfg, s, t);
      if !v.Served? {
        PopBudget(cfg, next, n - 1, t, hi);
        var later := PopFrom(cfg, next, n - 1);
        FirstVisit(|cfg.credit|, v, later.visits, t);
        FirstVisit(|cfg.credit|, v, [], t);
        assert [v] + [] == [v];
      }
    }
  }

  lemma StepBudget(cfg: Config, s: State, op: Op, t: string, hi: nat)
    requires Inv(cfg, s) && Waiting(s, t, 0, hi) && Waiting(Step(cfg, s, op).state, t, 0, hi)
    ensures t in s.active && t in Step(cfg, s, op).state.active
    ensures Budget(cfg, s, Step(cfg, s, op).visits, Step(cfg, s, op).state, t)
    ensures op.Next? ==> |Step(cfg, s, op).visits| > 0
    ensures op.Next? && Step(cfg, s, op).popped.None? ==>
              Count(Step(cfg, s, op).visits, t) > 0 && !Serves(Step(cfg, s, op).visits, t)
    ensures !op.Next? ==> Step(cfg, s, op).visits == []
  {
    hide Tidy, Live, Best;
    Configured(cfg, s, t, 0, hi);
    match op
    case Arrive(request, now) => ArrivalBudget(cfg, s, request, now, t, hi);
    case Next =>
      Configured(cfg, Step(cfg, s, op).state, t, 0, hi);
      PosAppend(s.active, t, t);
      PopBudget(cfg, s, |s.active|, t, hi);
    case Withdraw(id) => CancelKeepsInv(cfg, s, cfg.order, id);
    case Elsewhere(u, i, status) =>
  }

  /** An arrival joins the ring behind those that wait, or not at all. */
  lemma ArrivalBudget(cfg: Config, s: State, request: Request, now: real, t: string, hi: nat)
    requires Inv(cfg, s) && Waiting(s, t, 0, hi) && Waiting(Step(cfg, s, Arrive(request, now)).state, t, 0, hi)
    ensures var step := Step(cfg, s, Arrive(request, now));
            && t in s.active && t in step.state.active && step.visits == []
            && Budget(cfg, s, step.visits, step.state, t)
  {
    hide Tidy, Live, Best;
    Configured(cfg, s, t, 0, hi);
    PosAppend(s.active, t, request.tenant);
  }

  lemma {:induction false} RunBudget(cfg: Config, s: State, ops: seq<Op>, t: string, hi: nat)
    requires Inv(cfg, s) && Backlogged(cfg, s, ops, t, 0, hi)
    ensures t in s.active && t in Run(cfg, s, ops).state.active
    ensures Budget(cfg, s, Run(cfg, s, ops).visits, Run(cfg, s, ops).state, t)
    ensures Pops(ops) <= |Run(cfg, s, ops).visits|
    decreases ops
  {
    hide Step, Pos, Inv, Waiting;
    Configured(cfg, s, t, 0, hi);
    if ops != [] {
      var first := Step(cfg, s, ops[0]);
      var rest := Run(cfg, first.state, ops[1..]);
      StepBudget(cfg, s, ops[0], t, hi);
      RunBudget(cfg, first.state, ops[1..], t, hi);
      LogsJoin(|cfg.credit|, first.visits, rest.visits, t);
    }
  }

  /** No starvation. While a tenant keeps live requests costing at most `hi`, any run that pops
      `tenants * rounds` times, with `rounds` visits' credit covering `hi`, serves it, whatever
      the other tenants send, cancel or weigh. */
  lemma NoStarvation(cfg: Config, s: State, ops: seq<Op>, t: string, hi: nat, rounds: nat)
    requires Inv(cfg, s) && t in cfg.credit && Backlogged(cfg, s, ops, t, 0, hi)
    requires rounds > 0 && rounds * cfg.credit[t] >= hi
    requires Pops(ops) >= |cfg.credit| * rounds
    ensures Serves(Run(cfg, s, ops).visits, t)
  {
    var visits := Run(cfg, s, ops).visits;
    if !Serves(visits, t) {
      RunAccounts(cfg, s, ops, t, 0, hi);
      RunBudget(cfg, s, ops, t, hi);
      CreditedIs(cfg.credit[t], visits, t);
      CreditedIs(|cfg.credit|, visits, t);
      RingSize(cfg, s);
      PosAppend(s.active, t, t);
      UnservedIsShort(|cfg.credit|, cfg.credit[t], Count(visits, t), rounds, hi);
    }
  }

  lemma UnservedIsShort(tenants: nat, credit: nat, visited: nat, rounds: nat, hi: nat)
    requires rounds > 0 && rounds * credit >= hi && (visited == 0 || credit * visited < hi)
    ensures tenants + tenants * visited <= tenants * rounds
  {
    if visited >= rounds {
      MulMonotone(rounds, visited, credit);
    } else {
      MulMonotone(visited + 1, rounds, tenants);
      Distribute(visited, 1, tenants);
    }
  }

  /** Every pop of the run came back empty-handed. */
  ghost predicate Quiet(cfg: Config, s: State, ops: seq<Op>)
    requires Inv(cfg, s)
    decreases ops
  {
    ops == [] || (Step(cfg, s, ops[0]).popped.None? && Quiet(cfg, Step(cfg, s, ops[0]).state, ops[1..]))
  }

  lemma {:induction false} QuietVisits(cfg: Config, s: State, ops: seq<Op>, t: string, hi: nat)
    requires Inv(cfg, s) && Backlogged(cfg, s, ops, t, 0, hi) && Quiet(cfg, s, ops)
    ensures Pops(ops) <= Count(Run(cfg, s, ops).visits, t)
    ensures !Serves(Run(cfg, s, ops).visits, t)
    decreases ops
  {
    hide Step, Inv, Waiting;
    if ops != [] {
      var first := Step(cfg, s, ops[0]);
      StepBudget(cfg, s, ops[0], t, hi);
      QuietVisits(cfg, first.state, ops[1..], t, hi);
      LogsJoin(0, first.visits, Run(cfg, first.state, ops[1..]).visits, t);
    }
  }

  /** Bounded retrying: while a tenant keeps live requests costing at most `hi`, fewer than
      `hi / credit` pops in a row (so at most its ceiling minus one) return nothing. */
  lemma IdlePopsAreBounded(cfg: Config, s: State, ops: seq<Op>, t: string, hi: nat)
    requires Inv(cfg, s) && t in cfg.credit && Backlogged(cfg, s, ops, t, 0, hi) && Quiet(cfg, s, ops)
    ensures Pops(ops) == 0 || cfg.credit[t] * Pops(ops) < hi
  {
    QuietVisits(cfg, s, ops, t, hi);
    RunAccounts(cfg, s, ops, t, 0, hi);
    var visits := Run(cfg, s, ops).visits;
    CreditedIs(cfg.credit[t], visits, t);
    MulMonotone(Pops(ops), Count(visits, t), cfg.credit[t]);
  }

  // ---------------------------------------------------------------- nothing lost, nothing doubled

  lemma {:induction false} LiveOfLive(queue: seq<Request>)
    requires forall r :: r in queue ==> !Terminal(r.status)
    ensures Live(queue) == queue
  {
    if queue != [] {
      var init, last := queue[..|queue| - 1], queue[|queue| - 1];
      assert queue == init + [last] && last in queue;
      assert forall r :: r in init ==> r in queue;
      LiveOfLive(init);
    }
  }

  /** What a log says was taken out of tenant `t`'s queue. */
  ghost function Taken(visits: seq<Visit>, t: string): multiset<Request> {
    if visits == [] then multiset{}
    else
      (if visits[0].Served? && visits[0].tenant == t then multiset{visits[0].request} else multiset{})
      + Taken(visits[1..], t)
  }

  /** The queue of the visited tenant keeps its live requests, less the one served. */
  lemma VisitedQueue(cfg: Config, s: State)
    requires Inv(cfg, s) && s.active != []
    ensures var (n, v) := VisitHead(cfg, s);
            var u := s.active[0];
            var live := Live(s.queues[u]);
            && v.tenant == u && n.queues.Keys == s.queues.Keys
            && (forall t :: t in s.queues && t != u ==> n.queues[t] == s.queues[t])
            && (if v.Served? then v.request in live && multiset(live) == multiset(n.queues[u]) + multiset{v.request}
                else n.queues[u] == live)
            && forall r :: r in n.queues[u] ==> r in live
  {
    hide Live, Best, Tidy;
    var live := Live(s.queues[s.active[0]]);
    if live != [] {
      RemoveAtTakesOne(live, Best(live, 0.0, cfg.aging));
    }
  }

  lemma VisitConserves(cfg: Config, s: State, t: string)
    requires Inv(cfg, s) && s.active != [] && t in s.queues
    ensures var (n, v) := VisitHead(cfg, s);
            && t in n.queues
            && multiset(Live(s.queues[t])) == multiset(Live(n.queues[t])) + Taken([v], t)
            && (v.Served? ==> v.tenant in s.queues && v.request in Live(s.queues[v.tenant]))
  {
    hide Live, VisitHead;
    var (n, v) := VisitHead(cfg, s);
    var u := s.active[0];
    VisitedQueue(cfg, s);
    LiveMembers(s.queues[u]);
    LiveOfLive(n.queues[u]);
    FirstTaken(v, [], t);
    assert [v] + [] == [v];
  }

  lemma FirstTaken(v: Visit, later: seq<Visit>, t: string)
    ensures Taken([v] + later, t)
         == (if v.Served? && v.tenant == t then multiset{v.request} else multiset{}) + Taken(later, t)
  {
    assert ([v] + later)[1..] == later;
  }

  /** A pop takes exactly the request it returns, from its own tenant, and leaves every other live
      request of every tenant in place. */
  lemma {:induction false} PopConserves(cfg: Config, s: State, n: nat, t: string)
    requires Inv(cfg, s) && t in s.queues
    ensures var r := PopFrom(cfg, s, n);
            && t in r.state.queues
            && multiset(Live(s.queues[t])) == multiset(Live(r.state.queues[t])) + Taken(r.visits, t)
            && Taken(r.visits, t) == if r.popped.Some? && r.popped.value.tenant == t then multiset{r.popped.value}
                                     else multiset{}
    decreases n
  {
    hide VisitHead, Live, Inv, Taken;
    if s.active == [] || n == 0 {
      NothingTaken(t);
    } else {
      VisitKeepsInv(cfg, s);
      VisitConserves(cfg, s, t);
      ServedIsOwn(cfg, s);
      var (next, v) := VisitHead(cfg, s);
      OneTaken(v, t);
      if !v.Served? {
        PopConserves(cfg, next, n - 1, t);
        FirstTaken(v, PopFrom(cfg, next, n - 1).visits, t);
      }
    }
  }

  /** A served request belongs to the visited tenant. */
  lemma ServedIsOwn(cfg: Config, s: State)
    requires Inv(cfg, s) && s.active != []
    ensures var v := VisitHead(cfg, s).1;
            v.Served? ==> v.request.tenant == v.tenant == s.active[0]
  {
    hide Live, Best;
    LiveMembers(s.queues[s.active[0]]);
  }

  /** Bounded overtaking: a popped request was queued at most `aging` seconds later, per point of
      extra priority, than any live request of its tenant that was waiting when the pop began. */
  lemma {:induction false} OvertakingIsBounded(cfg: Config, s: State, n: nat, waiting: Request)
    requires Inv(cfg, s) && PopFrom(cfg, s, n).popped.Some?
    requires var x := PopFrom(cfg, s, n).popped.value;
             x.tenant in s.queues && waiting in Live(s.queues[x.tenant])
    ensures var x := PopFrom(cfg, s, n).popped.value;
            && x.queuedAt <= waiting.queuedAt + cfg.aging * (x.priority - waiting.priority) as real
            && (x.priority <= 100 && waiting.priority >= 0 ==> x.queuedAt <= waiting.queuedAt + 100.0 * cfg.aging)
    decreases n
  {
    hide VisitHead, Live, Inv, Tidy;
    VisitKeepsInv(cfg, s);
    ServedIsOwn(cfg, s);
    var (next, v) := VisitHead(cfg, s);
    if v.Served? {
      ServedOvertakes(cfg, s, waiting);
      FullScale(cfg.aging, v.request, waiting);
    } else {
      var x := PopFrom(cfg, next, n - 1).popped.value;
      StillWaiting(cfg, s, x.tenant, waiting);
      OvertakingIsBounded(cfg, next, n - 1, waiting);
    }
  }

  lemma ServedOvertakes(cfg: Config, s: State, waiting: Request)
    requires Inv(cfg, s) && s.active != [] && VisitHead(cfg, s).1.Served?
    requires s.active[0] in s.queues && waiting in Live(s.queues[s.active[0]])
    ensures cfg.aging > 0.0
    ensures var x := VisitHead(cfg, s).1.request;
            x.queuedAt <= waiting.queuedAt + cfg.aging * (x.priority - waiting.priority) as real
  {
    hide Live, Best, Inv, VisitHead;
    ServedIsBest(cfg, s);
    ChoiceIsBounded(Live(s.queues[s.active[0]]), waiting, cfg.aging);
  }

  lemma ServedIsBest(cfg: Config, s: State)
    requires Inv(cfg, s) && s.active != [] && VisitHead(cfg, s).1.Served?
    ensures cfg.aging > 0.0 && s.active[0] in s.queues && Live(s.queues[s.active[0]]) != []
    ensures var live := Live(s.queues[s.active[0]]);
            VisitHead(cfg, s).1.request == live[Best(live, 0.0, cfg.aging)]
  {
    hide Live, Best, Tidy;
  }

  lemma FullScale(aging: real, x: Request, waiting: Request)
    requires aging > 0.0 && x.queuedAt <= waiting.queuedAt + aging * (x.priority - waiting.priority) as real
    ensures x.priority <= 100 && waiting.priority >= 0 ==> x.queuedAt <= waiting.queuedAt + 100.0 * aging
  {
    var points := (x.priority - waiting.priority) as real;
    if x.priority <= 100 && waiting.priority >= 0 {
      assert aging * (100.0 - points) >= 0.0;
    }
  }

  /** A visit that serves nobody leaves every live request of every tenant in place. */
  lemma StillWaiting(cfg: Config, s: State, u: string, r: Request)
    requires Inv(cfg, s) && s.active != [] && !VisitHead(cfg, s).1.Served?
    requires u in s.queues && r in Live(s.queues[u])
    ensures u in VisitHead(cfg, s).0.queues && r in Live(VisitHead(cfg, s).0.queues[u])
  {
    hide VisitHead, Live, Inv, Taken;
    VisitConserves(cfg, s, u);
    OneTaken(VisitHead(cfg, s).1, u);
    assert r in multiset(Live(s.queues[u]));
    assert r in multiset(Live(VisitHead(cfg, s).0.queues[u]));
  }

  lemma NothingTaken(t: string)
    ensures Taken([], t) == multiset{}
  {}

  lemma OneTaken(v: Visit, t: string)
    ensures Taken([v], t) == if v.Served? && v.tenant == t then multiset{v.request} else multiset{}
  {
    FirstTaken(v, [], t);
    assert [v] + [] == [v];
  }

  /** What a pop returns was live and queued when the pop began. */
  lemma {:induction false} PopReturnsQueued(cfg: Config, s: State, n: nat)
    requires Inv(cfg, s) && PopFrom(cfg, s, n).popped.Some?
    ensures exists u :: u in s.queues && PopFrom(cfg, s, n).popped.value in Live(s.queues[u])
    decreases n
  {
    hide VisitHead, Live, Inv;
    HeadIsKnown(cfg, s);
    VisitKeepsInv(cfg, s);
    VisitConserves(cfg, s, s.active[0]);
    var (next, v) := VisitHead(cfg, s);
    if !v.Served? {
      PopReturnsQueued(cfg, next, n - 1);
      var r := PopFrom(cfg, next, n - 1).popped.value;
      var u :| u in next.queues && r in Live(next.queues[u]);
      StillLive(cfg, s, u, r);
    }
  }

  lemma HeadIsKnown(cfg: Config, s: State)
    requires Inv(cfg, s)
    ensures s.active != [] ==> s.active[0] in s.queues
  {}

  lemma StillLive(cfg: Config, s: State, u: string, r: Request)
    requires Inv(cfg, s) && s.active != [] && u in VisitHead(cfg, s).0.queues
    requires r in Live(VisitHead(cfg, s).0.queues[u])
    ensures u in s.queues && r in Live(s.queues[u])
  {
    hide VisitHead, Live;
    VisitedQueue(cfg, s);
    VisitConserves(cfg, s, u);
    assert r in multiset(Live(VisitHead(cfg, s).0.queues[u]));
    assert r in multiset(Live(s.queues[u]));
  }

  lemma {:induction false} LiveAppend(queue: seq<Request>, r: Request)
    ensures Live(queue + [r]) == Live(queue) + (if Terminal(r.status) then [] else [r])
  {
    assert (queue + [r])[..|queue|] == queue;
  }

  /** An accepted request joins the back of its tenant's queue, live; nobody else is affected. */
  lemma ArrivalIsQueued(cfg: Config, s: State, r: Request, now: real, t: string)
    requires Inv(cfg, s) && EnqueueError(s, r).None? && t in s.queues
    ensures var after := Enqueue(s, r, now);
            && (t != r.tenant ==> after.queues[t] == s.queues[t])
            && (t == r.tenant ==> Live(after.queues[t]) == Live(s.queues[t]) + [Entry(r, now)])
            && r.tenant in after.active && Entry(r, now).status == Queued
  {
    hide Tidy;
    LiveAppend(s.queues[r.tenant], Entry(r, now));
  }

  /** The first request with this id: in the `k`-th tenant's queue at `i`, and nowhere before. */
  ghost predicate FirstWith(s: State, tenants: seq<string>, id: string, k: nat, i: nat)
    requires forall t :: t in tenants ==> t in s.queues
  {
    && k < |tenants| && i < |s.queues[tenants[k]]| && s.queues[tenants[k]][i].id == id
    && (forall h :: 0 <= h < i ==> s.queues[tenants[k]][h].id != id)
    && forall j, r :: 0 <= j < k && r in s.queues[tenants[j]] ==> r.id != id
  }

  /** A cancellation takes out the first request with that id, whatever its state, and cancels it unless
      it is terminal; it changes nothing if there is none. */
  lemma {:induction false} CancelTakesOne(s: State, tenants: seq<string>, id: string) returns (k: nat, i: nat)
    requires forall t :: t in tenants ==> t in s.queues
    ensures var (after, outcome) := CancelAmong(s, tenants, id);
            && after.deficits == s.deficits && after.active == s.active
            && (outcome.NotQueued? <==> forall t, r :: t in tenants && r in s.queues[t] ==> r.id != id)
            && (outcome.NotQueued? ==> after == s)
            && (!outcome.NotQueued? ==>
                  && FirstWith(s, tenants, id, k, i)
                  && var t := tenants[k];
                     && after.queues == s.queues[t := s.queues[t][..i] + s.queues[t][i + 1..]]
                     && (outcome.DidCancel? <==> !Terminal(s.queues[t][i].status))
                     && outcome.request == if outcome.DidCancel? then s.queues[t][i].(status := Cancelled)
                                           else s.queues[t][i])
  {
    k, i := 0, 0;
    if tenants != [] {
      var queue := s.queues[tenants[0]];
      i := IndexOf(queue, id);
      if i == |queue| {
        k, i := CancelTakesOne(s, tenants[1..], id);
        k := k + 1;
        assert forall r :: r in queue ==> r.id != id;
      } else {
        assert queue[i] in queue && tenants[0] in tenants;
        AllowedByTarget(queue[i].status);
      }
    }
  }

  // ---------------------------------------------------------------- why fairness needs the cost floor

  /** A different identifier for every number. */
  function Name(n: nat): (name: string)
    ensures |name| == n
  {
    seq(n, _ => 'x')
  }

  /** Requests that differ in nothing but their identifiers, numbered `from` to `to`. */
  function Numbered(r: Request, from: nat, till: nat): (queue: seq<Request>)
    requires from <= till
    ensures |queue| == till - from
    ensures forall k :: 0 <= k < till - from ==> queue[k] == r.(id := Name(from + k))
  {
    seq(till - from, k requires 0 <= k < till - from => r.(id := Name(from + k)))
  }

  lemma NumberedAppend(r: Request, from: nat, till: nat)
    requires from <= till
    ensures Numbered(r, from, till + 1) == Numbered(r, from, till) + [r.(id := Name(till))]
  {}

  lemma NumberedIsTidy(r: Request, from: nat, till: nat)
    requires from <= till
    ensures Tidy(r.tenant, Numbered(r, from, till))
  {
    var queue := Numbered(r, from, till);
    forall i, j | 0 <= i < j < |queue|
      ensures queue[i].id != queue[j].id
    {
      assert |queue[i].id| == from + i && |queue[j].id| == from + j;
    }
  }

  lemma {:induction false} NumberedIsLive(r: Request, from: nat, till: nat)
    requires from <= till && !Terminal(r.status)
    ensures Live(Numbered(r, from, till)) == Numbered(r, from, till)
  {
    LiveOfLive(Numbered(r, from, till));
  }

  /** Nothing distinguishes the requests, so the oldest is served. */
  lemma {:induction false} FirstNumberedIsBest(r: Request, from: nat, till: nat, aging: real)
    requires from < till && aging > 0.0
    ensures Best(Numbered(r, from, till), 0.0, aging) == 0
    ensures RemoveAt(Numbered(r, from, till), 0) == Numbered(r, from + 1, till)
    ensures Numbered(r, from, till)[0] == r.(id := Name(from))
    decreases till - from
  {
    hide Name;
    var queue := Numbered(r, from, till);
    var i := Best(queue, 0.0, aging);
    BestIsPreferred(queue, 0.0, aging);
    assert !Beats(queue[i], queue[0], 0.0, aging);
  }

  /** Two tenants that send requests of one kind each. */
  datatype Pair = Pair(a: Request, b: Request, creditA: nat, creditB: nat) {
    ghost predicate Valid() {
      && a.tenant != b.tenant && a.status == b.status == Queued && a.queuedAt == b.queuedAt == 0.0
      && 0 < a.cost < creditA && b.cost == creditB > 0
    }

    ghost function Cfg(): Config {
      Config([a.tenant, b.tenant], map[a.tenant := creditA, b.tenant := creditB], 1.0)
    }

    /** `outA` and `outB` requests have been served, and all up to `inA` and `inB` have arrived. */
    ghost function At(outA: nat, inA: nat, outB: nat, inB: nat, deficitA: nat, ring: seq<string>): State
      requires outA <= inA && outB <= inB
    {
      State(map[a.tenant := Numbered(a, outA, inA), b.tenant := Numbered(b, outB, inB)],
            map[a.tenant := deficitA, b.tenant := 0], ring)
    }

    ghost function Fresh(): State {
      State(map[a.tenant := [], b.tenant := []], map[a.tenant := 0, b.tenant := 0], [])
    }

    /** The `k`-th arrival of both tenants. */
    ghost function Arrival(k: nat): seq<Op> {
      [Arrive(a.(id := Name(k), status := Admitted), 0.0)] + [Arrive(b.(id := Name(k), status := Admitted), 0.0)]
    }

    ghost function Arrivals(from: nat, till: nat): seq<Op>
      requires from <= till
      decreases till - from
    {
      if from == till then [] else Arrival(from) + Arrivals(from + 1, till)
    }
  }

  lemma PairInv(p: Pair, outA: nat, inA: nat, outB: nat, inB: nat, deficitA: nat, ring: seq<string>)
    requires p.Valid() && outA < inA && outB < inB
    requires ring == [p.a.tenant, p.b.tenant] || ring == [p.b.tenant, p.a.tenant]
    ensures var s := p.At(outA, inA, outB, inB, deficitA, ring);
            && Inv(p.Cfg(), s)
            && Waiting(s, p.a.tenant, p.a.cost, p.a.cost) && Waiting(s, p.b.tenant, p.b.cost, p.b.cost)
  {
    hide Waiting, Numbered, Tidy;
    var s := p.At(outA, inA, outB, inB, deficitA, ring);
    NumberedIsTidy(p.a, outA, inA);
    NumberedIsTidy(p.b, outB, inB);
    NumberedWaits(s, p.a, outA, inA);
    NumberedWaits(s, p.b, outB, inB);
    assert p.a.tenant in ring && p.b.tenant in ring;
  }

  lemma NumberedWaits(s: State, r: Request, from: nat, till: nat)
    requires from < till && r.tenant in s.queues && s.queues[r.tenant] == Numbered(r, from, till) && !Terminal(r.status)
    ensures Waiting(s, r.tenant, r.cost, r.cost)
  {
    hide Live;
    NumberedIsLive(r, from, till);
  }

  // ---------------------------------------------------------------- the arrivals

  lemma FreshInv(p: Pair)
    requires p.Valid()
    ensures Inv(p.Cfg(), p.Fresh())
  {
    assert forall t :: t in p.Fresh().queues ==> p.Fresh().queues[t] == [];
  }

  /** An arrival numbered higher than all before it is accepted. */
  lemma OneArrives(cfg: Config, s: State, r: Request, from: nat, till: nat)
    requires Inv(cfg, s) && from <= till && r.tenant in s.queues && s.queues[r.tenant] == Numbered(r, from, till)
    requires r.status == Queued && r.queuedAt == 0.0
    ensures Step(cfg, s, Arrive(r.(id := Name(till), status := Admitted), 0.0)) == PopResult(
              State(s.queues[r.tenant := Numbered(r, from, till + 1)], s.deficits,
                    if r.tenant in s.active then s.active else s.active + [r.tenant]),
              None, [])
  {
    hide Inv, Name;
    NumberedAppend(r, from, till);
    var sent := r.(id := Name(till), status := Admitted);
    assert forall q :: q in s.queues[r.tenant] ==> |q.id| < till;
    assert EnqueueError(s, sent).None?;
    assert FairQueue.Entry(sent, 0.0) == r.(id := Name(till));
  }

  /** Both tenants have `k` requests queued. */
  ghost function Sent(p: Pair, k: nat): State {
    if k == 0 then p.Fresh() else p.At(0, k, 0, k, 0, [p.a.tenant, p.b.tenant])
  }

  lemma SentInv(p: Pair, k: nat)
    requires p.Valid()
    ensures Inv(p.Cfg(), Sent(p, k))
    ensures Sent(p, k).queues == map[p.a.tenant := Numbered(p.a, 0, k), p.b.tenant := Numbered(p.b, 0, k)]
    ensures Sent(p, k).deficits == map[p.a.tenant := 0, p.b.tenant := 0]
  {
    hide Inv, Numbered;
    if k == 0 {
      FreshInv(p);
      NoneNumbered(p.a);
      NoneNumbered(p.b);
    } else {
      PairInv(p, 0, k, 0, k, 0, [p.a.tenant, p.b.tenant]);
    }
  }

  /** Tenant `a` has sent one request more than tenant `b`. */
  ghost function HalfSent(p: Pair, k: nat): State {
    State(map[p.a.tenant := Numbered(p.a, 0, k + 1), p.b.tenant := Numbered(p.b, 0, k)],
          map[p.a.tenant := 0, p.b.tenant := 0], if k == 0 then [p.a.tenant] else [p.a.tenant, p.b.tenant])
  }

  lemma FirstArrives(p: Pair, k: nat)
    requires p.Valid()
    ensures Inv(p.Cfg(), Sent(p, k))
    ensures Step(p.Cfg(), Sent(p, k), p.Arrival(k)[0]) == PopResult(HalfSent(p, k), None, [])
  {
    hide Inv, Step, Numbered;
    SentInv(p, k);
    OneArrives(p.Cfg(), Sent(p, k), p.a, 0, k);
    assert Sent(p, k).queues[p.a.tenant := Numbered(p.a, 0, k + 1)] == HalfSent(p, k).queues;
  }

  lemma SecondArrives(p: Pair, k: nat)
    requires p.Valid() && Inv(p.Cfg(), HalfSent(p, k))
    ensures Step(p.Cfg(), HalfSent(p, k), p.Arrival(k)[1]) == PopResult(Sent(p, k + 1), None, [])
  {
    hide Inv, Step, Numbered;
    SentInv(p, k + 1);
    OneArrives(p.Cfg(), HalfSent(p, k), p.b, 0, k);
    assert HalfSent(p, k).queues[p.b.tenant := Numbered(p.b, 0, k + 1)] == Sent(p, k + 1).queues;
    assert [p.a.tenant] + [p.b.tenant] == [p.a.tenant, p.b.tenant];
  }

  /** One arrival of each tenant at the backs of their queues. */
  lemma BothArrive(p: Pair, k: nat, ops: seq<Op>)
    requires p.Valid()
    ensures Inv(p.Cfg(), Sent(p, k)) && Inv(p.Cfg(), Sent(p, k + 1))
    ensures Run(p.Cfg(), Sent(p, k), p.Arrival(k) + ops) == Run(p.Cfg(), Sent(p, k + 1), ops)
  {
    hide Inv, Step, Run, Sent, HalfSent;
    var first, second := p.Arrival(k)[0], p.Arrival(k)[1];
    FirstArrives(p, k);
    SecondArrives(p, k);
    TwoQuietSteps(p.Cfg(), Sent(p, k), first, second, ops);
    assert p.Arrival(k) + ops == [first] + ([second] + ops);
  }

  lemma NoneNumbered(r: Request)
    ensures Numbered(r, 0, 0) == []
  {}

  lemma TwoQuietSteps(cfg: Config, s: State, first: Op, second: Op, ops: seq<Op>)
    requires Inv(cfg, s) && Step(cfg, s, first).visits == []
    requires Step(cfg, Step(cfg, s, first).state, second).visits == []
    ensures Run(cfg, s, [first] + ([second] + ops)) == Run(cfg, Step(cfg, Step(cfg, s, first).state, second).state, ops)
  {
    hide Step, Inv;
    assert ([second] + ops)[1..] == ops;
    assert ([first] + ([second] + ops))[1..] == [second] + ops;
  }

  /** The arrivals alone lead to both tenants having `n` requests queued. */
  lemma {:induction false} ArrivalsRun(p: Pair, k: nat, n: nat)
    requires p.Valid() && k <= n
    ensures Inv(p.Cfg(), Sent(p, k))
    ensures Run(p.Cfg(), Sent(p, k), p.Arrivals(k, n)) == Outcome(Sent(p, n), [])
    decreases n - k
  {
    hide Inv, Step, Sent;
    SentInv(p, k);
    if k < n {
      BothArrive(p, k, p.Arrivals(k + 1, n));
      ArrivalsRun(p, k + 1, n);
    }
  }

  // ---------------------------------------------------------------- the rounds

  /** A pop that serves at its first visit. */
  lemma PopServesNumbered(cfg: Config, s: State, r: Request, from: nat, till: nat)
    requires Inv(cfg, s) && from + 1 < till && s.active != [] && s.active[0] == r.tenant
    requires s.queues[r.tenant] == Numbered(r, from, till)
    requires !Terminal(r.status) && r.cost <= s.deficits[r.tenant] + cfg.credit[r.tenant]
    ensures Step(cfg, s, Next) == PopResult(
              State(s.queues[r.tenant := Numbered(r, from + 1, till)],
                    s.deficits[r.tenant := s.deficits[r.tenant] + cfg.credit[r.tenant] - r.cost],
                    s.active[1..] + [r.tenant]),
              Some(r.(id := Name(from))), [Served(r.tenant, r.(id := Name(from)))])
  {
    VisitServesNumbered(cfg, s, r, from, till);
    hide VisitHead, Inv, Numbered;
    assert PopFrom(cfg, s, |s.active|).visits == [VisitHead(cfg, s).1];
  }

  lemma VisitServesNumbered(cfg: Config, s: State, r: Request, from: nat, till: nat)
    requires Inv(cfg, s) && from + 1 < till && s.active != [] && s.active[0] == r.tenant
    requires s.queues[r.tenant] == Numbered(r, from, till)
    requires !Terminal(r.status) && r.cost <= s.deficits[r.tenant] + cfg.credit[r.tenant]
    ensures VisitHead(cfg, s) == (
              State(s.queues[r.tenant := Numbered(r, from + 1, till)],
                    s.deficits[r.tenant := s.deficits[r.tenant] + cfg.credit[r.tenant] - r.cost],
                    s.active[1..] + [r.tenant]),
              Served(r.tenant, r.(id := Name(from))))
  {
    hide Live, Best, RemoveAt, Tidy, Name;
    NumberedIsLive(r, from, till);
    FirstNumberedIsBest(r, from, till, cfg.aging);
    assert |Numbered(r, from + 1, till)| > 0;
  }

  /** The first half of a round: tenant `a` is served and keeps what its request did not use up. */
  lemma FirstHalf(p: Pair, k: nat, n: nat, deficitA: nat)
    requires p.Valid() && k + 1 < n
    ensures var (x, y) := (p.a.tenant, p.b.tenant);
            var start := p.At(k, n, k, n, deficitA, [x, y]);
            && Inv(p.Cfg(), start)
            && Step(p.Cfg(), start, Next)
            == PopResult(p.At(k + 1, n, k, n, deficitA + p.creditA - p.a.cost, [y, x]),
                         Some(p.a.(id := Name(k))), [Served(x, p.a.(id := Name(k)))])
  {
    hide Inv, Step, Waiting, Numbered, Name;
    var x, y := p.a.tenant, p.b.tenant;
    var start := p.At(k, n, k, n, deficitA, [x, y]);
    PairInv(p, k, n, k, n, deficitA, [x, y]);
    PopServesNumbered(p.Cfg(), start, p.a, k, n);
    assert [x, y][1..] + [x] == [y, x];
    var end := p.At(k + 1, n, k, n, deficitA + p.creditA - p.a.cost, [y, x]);
    assert start.queues[x := Numbered(p.a, k + 1, n)] == end.queues;
    assert start.deficits[x := deficitA + p.creditA - p.a.cost] == end.deficits;
  }

  /** The second half: tenant `b` is served and uses up its credit. */
  lemma SecondHalf(p: Pair, k: nat, n: nat, deficitA: nat)
    requires p.Valid() && k + 1 < n
    ensures var (x, y) := (p.a.tenant, p.b.tenant);
            var middle := p.At(k + 1, n, k, n, deficitA, [y, x]);
            && Inv(p.Cfg(), middle)
            && Step(p.Cfg(), middle, Next)
            == PopResult(p.At(k + 1, n, k + 1, n, deficitA, [x, y]),
                         Some(p.b.(id := Name(k))), [Served(y, p.b.(id := Name(k)))])
  {
    hide Inv, Step, Waiting, Numbered, Name;
    var x, y := p.a.tenant, p.b.tenant;
    var middle := p.At(k + 1, n, k, n, deficitA, [y, x]);
    PairInv(p, k + 1, n, k, n, deficitA, [y, x]);
    PopServesNumbered(p.Cfg(), middle, p.b, k, n);
    assert [y, x][1..] + [y] == [x, y];
    var end := p.At(k + 1, n, k + 1, n, deficitA, [x, y]);
    assert middle.queues[y := Numbered(p.b, k + 1, n)] == end.queues;
    assert middle.deficits[y := 0] == end.deficits;
  }

  ghost function Rounds(k: nat): seq<Op> {
    if k == 0 then [] else [Next] + ([Next] + Rounds(k - 1))
  }

  /** Unfolds the first two steps of a run. */
  lemma TwoSteps(cfg: Config, s: State, ops: seq<Op>, x: PopResult, y: PopResult, t: string, lo: nat, hi: nat)
    requires Inv(cfg, s) && Step(cfg, s, Next) == x && Step(cfg, x.state, Next) == y
    ensures var all := [Next] + ([Next] + ops);
            && Run(cfg, s, all).visits == x.visits + (y.visits + Run(cfg, y.state, ops).visits)
            && (Backlogged(cfg, s, all, t, lo, hi) <==>
                  Waiting(s, t, lo, hi) && Waiting(x.state, t, lo, hi) && Backlogged(cfg, y.state, ops, t, lo, hi))
  {
    hide Step, Inv, Waiting;
    assert ([Next] + ops)[1..] == ops;
    assert ([Next] + ([Next] + ops))[1..] == [Next] + ops;
  }

  lemma {:induction false} PairRun(p: Pair, k: nat, n: nat, deficitA: nat, rounds: nat, r: Request)
    requires p.Valid() && k + rounds < n && r in {p.a, p.b}
    ensures var s := p.At(k, n, k, n, deficitA, [p.a.tenant, p.b.tenant]);
            && Inv(p.Cfg(), s)
            && Backlogged(p.Cfg(), s, Rounds(rounds), r.tenant, r.cost, r.cost)
            && Tokens(Run(p.Cfg(), s, Rounds(rounds)).visits, r.tenant) == rounds * r.cost
    decreases rounds
  {
    hide Step, Inv, Waiting, Numbered, Run, Backlogged, Name;
    var x, y := p.a.tenant, p.b.tenant;
    var s := p.At(k, n, k, n, deficitA, [x, y]);
    PairInv(p, k, n, k, n, deficitA, [x, y]);
    if rounds == 0 {
      RunOfNothing(p.Cfg(), s, r.tenant, r.cost, r.cost);
    } else {
      var next := deficitA + p.creditA - p.a.cost;
      FirstHalf(p, k, n, deficitA);
      SecondHalf(p, k, n, next);
      PairInv(p, k + 1, n, k, n, next, [y, x]);
      PairRun(p, k + 1, n, next, rounds - 1, r);
      TwoSteps(p.Cfg(), s, Rounds(rounds - 1), Step(p.Cfg(), s, Next),
               Step(p.Cfg(), p.At(k + 1, n, k, n, next, [y, x]), Next), r.tenant, r.cost, r.cost);
      var rest := Run(p.Cfg(), p.At(k + 1, n, k + 1, n, next, [x, y]), Rounds(rounds - 1)).visits;
      FirstVisit(0, Served(x, p.a.(id := Name(k))), [Served(y, p.b.(id := Name(k)))] + rest, r.tenant);
      FirstVisit(0, Served(y, p.b.(id := Name(k))), rest, r.tenant);
      Distribute(rounds - 1, 1, r.cost);
    }
  }

  lemma RunOfNothing(cfg: Config, s: State, t: string, lo: nat, hi: nat)
    requires Inv(cfg, s)
    ensures Run(cfg, s, []).visits == [] && (Backlogged(cfg, s, [], t, lo, hi) <==> Waiting(s, t, lo, hi))
  {}

  /** Two tenants without deficits stay backlogged throughout, `a` with requests of `costA` tokens and
      `b` of `costB`, and yet the tokens served, each weighed by the other's weight, end up more than
      `limit` apart. */
  ghost predicate FallsBehind(cfg: Config, s: State, pops: seq<Op>, a: string, wa: nat, costA: nat,
                              b: string, wb: nat, costB: nat, limit: nat)
    requires Inv(cfg, s)
  {
    && s.deficits == map[a := 0, b := 0]
    && Backlogged(cfg, s, pops, a, costA, costA) && Backlogged(cfg, s, pops, b, costB, costB)
    && var visits := Run(cfg, s, pops).visits;
       Tokens(visits, b) * wa - Tokens(visits, a) * wb > limit
  }

  /** The lower bound on costs in `WeightedFairness` cannot be dropped: a visit serves at most
      one request, so a tenant whose requests cost less than its credit falls behind its share
      without limit, even though it is always backlogged. The run starts from a fresh queue: first
      both tenants send their requests, and then the queue is popped. */
  lemma FairnessNeedsCostFloor(a: string, b: string, quantum: nat, wa: nat, wb: nat, cost: nat, limit: nat)
    returns (cfg: Config, start: State, arrivals: seq<Op>, pops: seq<Op>)
    requires a != b && quantum > 0 && wa > 0 && wb > 0 && 0 < cost < quantum * wa
    ensures cfg.credit == map[a := quantum * wa, b := quantum * wb]
    ensures Inv(cfg, start) && start == State(map[a := [], b := []], map[a := 0, b := 0], [])
    ensures Run(cfg, start, arrivals).visits == [] && (forall op :: op in pops ==> op == Next)
    ensures FallsBehind(cfg, Run(cfg, start, arrivals).state, pops, a, wa, cost, b, wb, quantum * wb, limit)
  {
    hide Inv, Backlogged, Run, Tokens, Rounds, Rivals, Live, Pair.Valid, Pair.Cfg, Pair.Fresh, Pair.Arrivals;
    var p := Rivals(a, b, cost, quantum * wa, quantum * wb);
    MulPositive(quantum, wb);
    RivalsKnown(a, b, cost, quantum * wa, quantum * wb);
    var k := limit + 1;
    cfg, start, arrivals, pops := p.Cfg(), p.Fresh(), p.Arrivals(0, k + 1), Rounds(k);
    PairFromScratch(p, k);
    var visits := Run(cfg, Run(cfg, start, arrivals).state, pops).visits;
    GapOf(quantum, wa, wb, cost, k, Tokens(visits, a), Tokens(visits, b));
  }

  /** Tenant `a` sends requests cheaper than its credit, tenant `b` ones that just use it up. */
  ghost function Rivals(a: string, b: string, cost: nat, creditA: nat, creditB: nat): Pair {
    Pair(Request("", a, cost, 0, 0.0, Queued, 0.0), Request("", b, creditB, 0, 0.0, Queued, 0.0), creditA, creditB)
  }

  lemma RivalsKnown(a: string, b: string, cost: nat, creditA: nat, creditB: nat)
    requires a != b && 0 < cost < creditA && creditB > 0
    ensures var p := Rivals(a, b, cost, creditA, creditB);
            && p.Valid() && p.a.tenant == a && p.b.tenant == b && p.a.cost == cost && p.b.cost == creditB
            && p.Cfg().credit == map[a := creditA, b := creditB]
            && p.Fresh() == State(map[a := [], b := []], map[a := 0, b := 0], [])
  {}

  lemma GapOf(quantum: nat, wa: nat, wb: nat, cost: nat, k: nat, tokensA: nat, tokensB: nat)
    requires wb > 0 && cost < quantum * wa && tokensA == k * cost && tokensB == k * (quantum * wb)
    ensures tokensB * wa - tokensA * wb >= k
  {
    GapGrows(quantum, wa, wb, cost, k);
  }

  lemma PairFromScratch(p: Pair, k: nat)
    requires p.Valid()
    ensures Inv(p.Cfg(), p.Fresh()) && Run(p.Cfg(), p.Fresh(), p.Arrivals(0, k + 1)).visits == []
    ensures forall op :: op in Rounds(k) ==> op == Next
    ensures var s := Run(p.Cfg(), p.Fresh(), p.Arrivals(0, k + 1)).state;
            var visits := Run(p.Cfg(), s, Rounds(k)).visits;
            && s.deficits == map[p.a.tenant := 0, p.b.tenant := 0]
            && Backlogged(p.Cfg(), s, Rounds(k), p.a.tenant, p.a.cost, p.a.cost)
            && Backlogged(p.Cfg(), s, Rounds(k), p.b.tenant, p.b.cost, p.b.cost)
            && Tokens(visits, p.a.tenant) == k * p.a.cost && Tokens(visits, p.b.tenant) == k * p.b.cost
  {
    hide Inv, Backlogged, Run, Tokens, Numbered;
    RoundsArePops(k);
    FreshInv(p);
    ArrivalsRun(p, 0, k + 1);
    PairRun(p, 0, k + 1, 0, k, p.a);
    PairRun(p, 0, k + 1, 0, k, p.b);
  }

  lemma {:induction false} RoundsArePops(k: nat)
    ensures forall op :: op in Rounds(k) ==> op == Next
  {
    if k > 0 {
      RoundsArePops(k - 1);
    }
  }

  lemma GapGrows(quantum: nat, wa: nat, wb: nat, cost: nat, k: nat)
    requires wb > 0 && cost < quantum * wa
    ensures (k * (quantum * wb)) * wa - (k * cost) * wb >= k
  {
    var short := quantum * wa - cost;
    assert (k * (quantum * wb)) * wa == (k * wb) * (quantum * wa);
    assert (k * cost) * wb == (k * wb) * cost;
    assert (k * wb) * (quantum * wa) - (k * wb) * cost == (k * wb) * short;
    MulMonotone(1, wb, k);
    MulMonotone(1, short, k * wb);
  }
}
