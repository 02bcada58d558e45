/**
 Tenant admission: the in-memory controller of `serving_platform/admission/controller.py` and the
 shared-hash scripts of `serving_platform/admission/redis_controller.py`, which simulate it.
 */
module Admission {
  import opened Wrappers
  import opened Sums

  datatype Limits = Limits(concurrent: nat, queued: nat, quota: nat)

  datatype Config = Config(tenants: map<string, Limits>, globalQueue: nat)

  datatype Booking = Booking(tenant: string, tokens: nat, running: bool)

  datatype WorkerHealth = WorkerHealth(healthy: bool, draining: bool)

  /** Everything a decision looks at; `context` is the model's context window, if registered. */
  datatype Request = Request(
    id: string, tenant: string, tokens: nat, deadline: real, context: Option<nat>, now: real,
    workers: seq<WorkerHealth>)

  datatype Code =
    | UnknownTenant | UnsupportedModel | ContextExceeded | DeadlineExceeded | NoHealthyCapacity
    | AlreadyAdmitted | GlobalQueueFull | TenantQueueFull | TenantConcurrencyLimit | TenantTokenQuota
    | Admitted | Missing | Running | AlreadyRunning | Released | NothingToRelease

  // ---------------------------------------------------------------- bookings and their sums

  type Bookings = map<string, Booking>

  /** What a counter measures: a per-tenant count or token sum, or all waiting requests. */
  datatype Kind = Queued | InFlight | Tokens

  datatype Measure = Of(kind: Kind, tenant: string) | Waiting

  ghost function Weigh(m: Measure, b: Booking): nat {
    match m
    case Of(kind, t) =>
      if b.tenant != t then 0
      else (match kind
            case Queued => if b.running then 0 else 1
            case InFlight => if b.running then 1 else 0
            case Tokens => b.tokens)
    case Waiting => if b.running then 0 else 1
  }

  ghost function Weights(b: Bookings, m: Measure): map<string, int> {
    map id | id in b :: Weigh(m, b[id])
  }

  ghost function Total(b: Bookings, m: Measure): int {
    Sum(Weights(b, m))
  }

  lemma TotalChanges(b: Bookings, m: Measure, id: string, booking: Booking)
    ensures id !in b ==> Total(b[id := booking], m) == Total(b, m) + Weigh(m, booking)
    ensures id in b ==> Total(b[id := booking], m) == Total(b, m) - Weigh(m, b[id]) + Weigh(m, booking)
    ensures id in b ==> Total(b - {id}, m) == Total(b, m) - Weigh(m, b[id])
    ensures id in b ==> Total(b, m) >= Weigh(m, b[id])
  {
    hide Weigh;
    var w := Weights(b, m);
    assert Weights(b[id := booking], m) == w[id := Weigh(m, booking)];
    if id in b {
      SumUpdate(w, id, Weigh(m, booking));
      SumRemove(w, id);
      SumNonNegative(w - {id});
      assert Weights(b - {id}, m) == w - {id};
    } else {
      SumInsert(w, id, Weigh(m, booking));
    }
  }

  // ---------------------------------------------------------------- the in-memory controller

  datatype State = State(
    queued: map<string, int>, running: map<string, int>, tokens: map<string, int>, reserved: Bookings)

  /** A counter's value; absent means zero. */
  function At(counter: map<string, int>, t: string): int {
    if t in counter then counter[t] else 0
  }

  /** The checks made before any counter is looked at, in order. */
  function PreCheck(cfg: Config, r: Request): Option<Code> {
    if r.tenant !in cfg.tenants then Some(UnknownTenant)
    else if r.context.None? then Some(UnsupportedModel)
    else if r.tokens > r.context.value then Some(ContextExceeded)
    else if r.deadline <= r.now then Some(DeadlineExceeded)
    else if !exists w :: w in r.workers && w.healthy && !w.draining then Some(NoHealthyCapacity)
    else None
  }

  /** The limits, in order, against the given counter values. */
  function LimitCheck(cfg: Config, r: Request, global: int, queued: int, running: int, tokens: int): Option<Code>
    requires r.tenant in cfg.tenants
  {
    var limits := cfg.tenants[r.tenant];
    if global >= cfg.globalQueue then Some(GlobalQueueFull)
    else if queued >= limits.queued then Some(TenantQueueFull)
    else if running >= limits.concurrent then Some(TenantConcurrencyLimit)
    else if tokens + r.tokens > limits.quota then Some(TenantTokenQuota)
    else None
  }

  ghost function Decide(cfg: Config, s: State, r: Request): (State, Code) {
    if r.id in s.reserved then (s, AlreadyAdmitted)
    else if PreCheck(cfg, r).Some? then (s, PreCheck(cfg, r).value)
    else
      var refused := LimitCheck(
        cfg, r, Sum(s.queued), At(s.queued, r.tenant), At(s.running, r.tenant), At(s.tokens, r.tenant));
      if refused.Some? then (s, refused.value)
      else
        (State(s.queued[r.tenant := At(s.queued, r.tenant) + 1], s.running,
               s.tokens[r.tenant := At(s.tokens, r.tenant) + r.tokens],
               s.reserved[r.id := Booking(r.tenant, r.tokens, false)]), Admitted)
  }

  ghost function MarkRunning(cfg: Config, s: State, id: string): (State, Code)
    requires forall i :: i in s.reserved ==> s.reserved[i].tenant in cfg.tenants
  {
    if id !in s.reserved then (s, Missing)
    else
      var b := s.reserved[id];
      if b.running then (s, AlreadyRunning)
      else if At(s.running, b.tenant) >= cfg.tenants[b.tenant].concurrent then (s, TenantConcurrencyLimit)
      else
        (s.(queued := if At(s.queued, b.tenant) > 0 then s.queued[b.tenant := At(s.queued, b.tenant) - 1] else s.queued,
            running := s.running[b.tenant := At(s.running, b.tenant) + 1],
            reserved := s.reserved[id := b.(running := true)]), Running)
  }

  ghost function Release(s: State, id: string): (State, Code) {
    if id !in s.reserved then (s, NothingToRelease)
    else
      var b := s.reserved[id];
      (State(if b.running then s.queued else s.queued[b.tenant := At(s.queued, b.tenant) - 1],
             if b.running then s.running[b.tenant := At(s.running, b.tenant) - 1] else s.running,
             s.tokens[b.tenant := At(s.tokens, b.tenant) - b.tokens],
             s.reserved - {id}), Released)
  }

  datatype Op = DecideOp(request: Request) | MarkRunningOp(id: string) | ReleaseOp(id: string)

  ghost function Step(cfg: Config, s: State, op: Op): (State, Code)
    requires Consistent(cfg, s)
  {
    match op
    case DecideOp(r) => Decide(cfg, s, r)
    case MarkRunningOp(id) => MarkRunning(cfg, s, id)
    case ReleaseOp(id) => Release(s, id)
  }

  /** The counter shows, for every tenant, the sum over the bookings. */
  ghost predicate Tracks(counter: map<string, int>, b: Bookings, kind: Kind) {
    forall t {:trigger At(counter, t)} :: At(counter, t) == Total(b, Of(kind, t))
  }

  ghost predicate WithinLimits(cfg: Config, s: State) {
    && Sum(s.queued) <= cfg.globalQueue
    && (forall t :: t in cfg.tenants ==>
          && At(s.queued, t) <= cfg.tenants[t].queued
          && At(s.running, t) <= cfg.tenants[t].concurrent
          && At(s.tokens, t) <= cfg.tenants[t].quota)
  }

  /** Every counter is the sum over live reservations, and no limit is exceeded. */
  ghost predicate Consistent(cfg: Config, s: State) {
    && (forall id :: id in s.reserved ==> s.reserved[id].tenant in cfg.tenants)
    && Tracks(s.queued, s.reserved, Queued) && Tracks(s.running, s.reserved, InFlight)
    && Tracks(s.tokens, s.reserved, Tokens)
    && Sum(s.queued) == Total(s.reserved, Waiting)
    && WithinLimits(cfg, s)
  }

  lemma CounterChanges(counter: map<string, int>, t: string, v: int)
    ensures Sum(counter[t := v]) == Sum(counter) - At(counter, t) + v
  {
    if t in counter {
      SumUpdate(counter, t, v);
    } else {
      SumInsert(counter, t, v);
    }
  }

  /** A tenant's counter moved by what one booking's weight changed by. */
  lemma TracksMove(counter: map<string, int>, b: Bookings, after: Bookings, kind: Kind, tenant: string, delta: int)
    requires Tracks(counter, b, kind)
    requires forall t {:trigger Total(after, Of(kind, t))} ::
               Total(after, Of(kind, t)) == Total(b, Of(kind, t)) + if t == tenant then delta else 0
    ensures Tracks(counter[tenant := At(counter, tenant) + delta], after, kind)
    ensures delta == 0 ==> Tracks(counter, after, kind)
  {
    hide Total;
    forall t
      ensures At(counter[tenant := At(counter, tenant) + delta], t) == Total(after, Of(kind, t))
      ensures delta == 0 ==> At(counter, t) == Total(after, Of(kind, t))
    {
      assert At(counter, t) == Total(b, Of(kind, t));
    }
  }

  lemma AddTracks(counter: map<string, int>, b: Bookings, kind: Kind, id: string, x: Booking)
    requires Tracks(counter, b, kind) && id !in b
    ensures var delta := Weigh(Of(kind, x.tenant), x);
            && Tracks(counter[x.tenant := At(counter, x.tenant) + delta], b[id := x], kind)
            && (delta == 0 ==> Tracks(counter, b[id := x], kind))
  {
    hide Total;
    forall t
      ensures Total(b[id := x], Of(kind, t))
           == Total(b, Of(kind, t)) + if t == x.tenant then Weigh(Of(kind, x.tenant), x) else 0
    {
      TotalChanges(b, Of(kind, t), id, x);
    }
    TracksMove(counter, b, b[id := x], kind, x.tenant, Weigh(Of(kind, x.tenant), x));
  }

  lemma RemoveTracks(counter: map<string, int>, b: Bookings, kind: Kind, id: string)
    requires Tracks(counter, b, kind) && id in b
    ensures var x := b[id];
            var delta := Weigh(Of(kind, x.tenant), x);
            && Tracks(counter[x.tenant := At(counter, x.tenant) - delta], b - {id}, kind)
            && (delta == 0 ==> Tracks(counter, b - {id}, kind))
  {
    hide Total;
    var x := b[id];
    forall t
      ensures Total(b - {id}, Of(kind, t))
           == Total(b, Of(kind, t)) + if t == x.tenant then 0 - Weigh(Of(kind, x.tenant), x) else 0
    {
      TotalChanges(b, Of(kind, t), id, x);
    }
    TracksMove(counter, b, b - {id}, kind, x.tenant, 0 - Weigh(Of(kind, x.tenant), x));
  }

  lemma StartTracks(counter: map<string, int>, b: Bookings, kind: Kind, id: string)
    requires Tracks(counter, b, kind) && id in b && !b[id].running
    ensures var x := b[id].(running := true);
            var delta := Weigh(Of(kind, x.tenant), x) - Weigh(Of(kind, x.tenant), b[id]);
            && Tracks(counter[x.tenant := At(counter, x.tenant) + delta], b[id := x], kind)
            && (delta == 0 ==> Tracks(counter, b[id := x], kind))
    ensures At(counter, b[id].tenant) >= Weigh(Of(kind, b[id].tenant), b[id])
  {
    hide Total;
    var x := b[id].(running := true);
    var delta := Weigh(Of(kind, x.tenant), x) - Weigh(Of(kind, x.tenant), b[id]);
    forall t
      ensures Total(b[id := x], Of(kind, t)) == Total(b, Of(kind, t)) + if t == x.tenant then delta else 0
    {
      TotalChanges(b, Of(kind, t), id, x);
    }
    TotalChanges(b, Of(kind, x.tenant), id, x);
    TracksMove(counter, b, b[id := x], kind, x.tenant, delta);
  }

  lemma DecideKeepsConsistent(cfg: Config, s: State, r: Request)
    requires Consistent(cfg, s)
    ensures Consistent(cfg, Decide(cfg, s, r).0)
  {
    hide Total, Tracks;
    if Decide(cfg, s, r).1 == Admitted {
      var x := Booking(r.tenant, r.tokens, false);
      AddTracks(s.queued, s.reserved, Queued, r.id, x);
      AddTracks(s.running, s.reserved, InFlight, r.id, x);
      AddTracks(s.tokens, s.reserved, Tokens, r.id, x);
      TotalChanges(s.reserved, Waiting, r.id, x);
      CounterChanges(s.queued, r.tenant, At(s.queued, r.tenant) + 1);
    }
  }

  lemma MarkRunningKeepsConsistent(cfg: Config, s: State, id: string)
    requires Consistent(cfg, s)
    ensures Consistent(cfg, MarkRunning(cfg, s, id).0)
  {
    hide Total, Tracks;
    if MarkRunning(cfg, s, id).1 == Running {
      var t := s.reserved[id].tenant;
      StartTracks(s.queued, s.reserved, Queued, id);
      StartTracks(s.running, s.reserved, InFlight, id);
      StartTracks(s.tokens, s.reserved, Tokens, id);
      TotalChanges(s.reserved, Waiting, id, s.reserved[id].(running := true));
      CounterChanges(s.queued, t, At(s.queued, t) - 1);
    }
  }

  lemma ReleaseKeepsConsistent(cfg: Config, s: State, id: string)
    requires Consistent(cfg, s)
    ensures Consistent(cfg, Release(s, id).0)
  {
    hide Total, Tracks;
    if id in s.reserved {
      var b := s.reserved[id];
      RemoveTracks(s.queued, s.reserved, Queued, id);
      RemoveTracks(s.running, s.reserved, InFlight, id);
      RemoveTracks(s.tokens, s.reserved, Tokens, id);
      TotalChanges(s.reserved, Waiting, id, b);
      CounterChanges(s.queued, b.tenant, At(s.queued, b.tenant) - 1);
    }
  }

  /** Counters stay equal to the sums over reservations, and limits hold, through every step. */
  lemma StepKeepsConsistent(cfg: Config, s: State, op: Op)
    requires Consistent(cfg, s)
    ensures Consistent(cfg, Step(cfg, s, op).0)
  {
    hide Consistent;
    match op
    case DecideOp(r) => DecideKeepsConsistent(cfg, s, r);
    case MarkRunningOp(id) => MarkRunningKeepsConsistent(cfg, s, id);
    case ReleaseOp(id) => ReleaseKeepsConsistent(cfg, s, id);
  }

  // ---------------------------------------------------------------- decisions by the reservations alone

  /** The reservations that wait, of one tenant or of all, and those of one tenant that run. */
  ghost function WaitingOf(b: Bookings, t: string): set<string> {
    set id | id in b && b[id].tenant == t && !b[id].running
  }

  ghost function AllWaiting(b: Bookings): set<string> {
    set id | id in b && !b[id].running
  }

  ghost function RunningOf(b: Bookings, t: string): set<string> {
    set id | id in b && b[id].tenant == t && b[id].running
  }

  ghost function TokensOf(b: Bookings, t: string): int {
    Sum(map id | id in b && b[id].tenant == t :: b[id].tokens)
  }

  /** A sum of zeros and ones counts the ones. */
  lemma {:induction false} SumCounts(weights: map<string, int>, ones: set<string>)
    requires ones <= weights.Keys && forall id :: id in weights ==> weights[id] == if id in ones then 1 else 0
    ensures Sum(weights) == |ones|
    decreases |weights|
  {
    if weights == map[] {
      assert ones == {};
    } else {
      var id :| id in weights;
      SumRemove(weights, id);
      SumCounts(weights - {id}, ones - {id});
    }
  }

  /** Keys that weigh nothing do not matter. */
  lemma {:induction false} SumSkipsZeros(weights: map<string, int>, part: map<string, int>)
    requires part.Keys <= weights.Keys
    requires forall id :: id in weights ==> weights[id] == if id in part then part[id] else 0
    ensures Sum(weights) == Sum(part)
    decreases |weights|
  {
    if weights == map[] {
      assert part == map[];
    } else {
      var id :| id in weights;
      SumRemove(weights, id);
      if id in part {
        SumRemove(part, id);
      } else {
        assert part - {id} == part;
      }
      SumSkipsZeros(weights - {id}, part - {id});
    }
  }

  /** What the measures mean, as numbers of reservations and of their tokens. */
  lemma TotalsCount(b: Bookings, t: string)
    ensures Total(b, Of(Queued, t)) == |WaitingOf(b, t)|
    ensures Total(b, Of(InFlight, t)) == |RunningOf(b, t)|
    ensures Total(b, Waiting) == |AllWaiting(b)|
    ensures Total(b, Of(Tokens, t)) == TokensOf(b, t)
  {
    hide Sum;
    SumCounts(Weights(b, Of(Queued, t)), WaitingOf(b, t));
    SumCounts(Weights(b, Of(InFlight, t)), RunningOf(b, t));
    SumCounts(Weights(b, Waiting), AllWaiting(b));
    SumSkipsZeros(Weights(b, Of(Tokens, t)), map id | id in b && b[id].tenant == t :: b[id].tokens);
  }

  /** What the counters show: how many reservations wait and run, and how many tokens they hold. */
  lemma CountersCount(cfg: Config, s: State, t: string)
    requires Consistent(cfg, s)
    ensures At(s.queued, t) == |WaitingOf(s.reserved, t)| && At(s.running, t) == |RunningOf(s.reserved, t)|
    ensures At(s.tokens, t) == TokensOf(s.reserved, t) && Sum(s.queued) == |AllWaiting(s.reserved)|
  {
    hide Total, Sum, At, WaitingOf, RunningOf, AllWaiting, TokensOf, WithinLimits;
    TotalsCount(s.reserved, t);
  }

  /** What a request is told: the first thing that stands in its way, or that it is admitted. */
  ghost predicate RightAnswer(cfg: Config, b: Bookings, r: Request, code: Code) {
    var isNew := r.id !in b;
    var known := isNew && r.tenant in cfg.tenants;
    var served := known && r.context.Some?;
    var fits := served && r.tokens <= r.context.value;
    var inTime := fits && r.now < r.deadline;
    var backed := inTime && exists w :: w in r.workers && w.healthy && !w.draining;
    var spaced := backed && |AllWaiting(b)| < cfg.globalQueue;
    var queueable := spaced && |WaitingOf(b, r.tenant)| < cfg.tenants[r.tenant].queued;
    var runnable := queueable && |RunningOf(b, r.tenant)| < cfg.tenants[r.tenant].concurrent;
    var paid := runnable && TokensOf(b, r.tenant) + r.tokens <= cfg.tenants[r.tenant].quota;
    && (code == AlreadyAdmitted <==> !isNew) && (code == UnknownTenant <==> isNew && !known)
    && (code == UnsupportedModel <==> known && !served) && (code == ContextExceeded <==> served && !fits)
    && (code == DeadlineExceeded <==> fits && !inTime) && (code == NoHealthyCapacity <==> inTime && !backed)
    && (code == GlobalQueueFull <==> backed && !spaced) && (code == TenantQueueFull <==> spaced && !queueable)
    && (code == TenantConcurrencyLimit <==> queueable && !runnable)
    && (code == TenantTokenQuota <==> runnable && !paid) && (code == Admitted <==> paid)
  }

  /** A decision depends on the reservations only, which gain the request exactly if it is admitted;
      a refusal changes nothing. */
  lemma DecideIsExact(cfg: Config, s: State, r: Request)
    requires Consistent(cfg, s)
    ensures RightAnswer(cfg, s.reserved, r, Decide(cfg, s, r).1)
    ensures Decide(cfg, s, r).1 == Admitted ==>
              Decide(cfg, s, r).0.reserved == s.reserved[r.id := Booking(r.tenant, r.tokens, false)]
    ensures Decide(cfg, s, r).1 != Admitted ==> Decide(cfg, s, r).0 == s
  {
    hide Consistent;
    CountersCount(cfg, s, r.tenant);
  }

  /** A waiting reservation starts running exactly if fewer of its tenant run than may. */
  lemma MarkRunningIsExact(cfg: Config, s: State, id: string)
    requires Consistent(cfg, s)
    ensures var (after, code) := MarkRunning(cfg, s, id);
            var b := s.reserved;
            && (code == Missing <==> id !in b) && (code == AlreadyRunning <==> id in b && b[id].running)
            && (code == Running <==> id in b && !b[id].running
                                     && |RunningOf(b, b[id].tenant)| < cfg.tenants[b[id].tenant].concurrent)
            && code in {Missing, AlreadyRunning, Running, TenantConcurrencyLimit}
            && (code == Running ==> after.reserved == b[id := Booking(b[id].tenant, b[id].tokens, true)])
            && (code != Running ==> after == s)
  {
    hide Tracks, WithinLimits, Total, RunningOf, WaitingOf, AllWaiting, TokensOf, At;
    if id in s.reserved {
      CountersCount(cfg, s, s.reserved[id].tenant);
    }
  }

  /** A release takes the one reservation out, waiting or running, and without one changes nothing. */
  lemma ReleaseIsExact(s: State, id: string)
    ensures var (after, code) := Release(s, id);
            && (code == Released <==> id in s.reserved) && code in {Released, NothingToRelease}
            && after.reserved == s.reserved - {id}
            && (id !in s.reserved ==> after == s)
  {}

  /** With nothing reserved every counter reads zero. */
  lemma DrainedIsZero(cfg: Config, s: State, t: string)
    requires Consistent(cfg, s) && s.reserved == map[]
    ensures At(s.queued, t) == At(s.running, t) == At(s.tokens, t) == Sum(s.queued) == 0
  {
    assert Weights(s.reserved, Of(Queued, t)) == Weights(s.reserved, Of(InFlight, t))
        == Weights(s.reserved, Of(Tokens, t)) == Weights(s.reserved, Waiting) == map[];
  }
}
