/**
 The Redis scripts of `serving_platform/admission/redis_controller.py` over one shared hash, and
 why every process that runs them sees the in-memory controller of `Admission`.
 */
module RedisAdmission {
  import opened Sums
  import opened Admission

  /** The hash's fields, and what they hold: a counter, or an encoded reservation. */
  datatype Field = GlobalQueued | Count(kind: Kind, tenant: string) | Reservation(id: string)

  datatype Value = Number(n: int) | Encoded(booking: Booking, concurrencyLimit: int)

  type Hash = map<Field, Value>

  // ---------------------------------------------------------------- field names

  function Suffix(kind: Kind): string {
    match kind
    case Queued => ":queued"
    case InFlight => ":running"
    case Tokens => ":tokens"
  }

  /** The name a field has in Redis. */
  function Name(f: Field): string {
    match f
    case GlobalQueued => "global:queued"
    case Count(kind, tenant) => "tenant:" + tenant + Suffix(kind)
    case Reservation(id) => "reservation:" + id
  }

  /** No two counters or reservations share a name, whatever the identifiers contain, so the hash
      can be read by field. */
  lemma NamesAreDistinct(f: Field, g: Field)
    requires Name(f) == Name(g)
    ensures f == g
  {
    NameBegins(f);
    NameBegins(g);
    if f.Reservation? {
      hide Suffix;
      assert Name(f)[12..] == f.id && Name(g)[12..] == g.id;
    } else if f.Count? {
      NameEnds(f);
      NameEnds(g);
    }
  }

  lemma NameBegins(f: Field)
    ensures Name(f) != []
    ensures Name(f)[0] == (match f case GlobalQueued => 'g' case Count(_, _) => 't' case Reservation(_) => 'r')
  {}

  /** The last letter tells the counters of a tenant apart, and the tenant is in between. */
  lemma NameEnds(f: Field)
    requires f.Count?
    ensures |Name(f)| >= 7 + |Suffix(f.kind)| && |Suffix(f.kind)| > 0
    ensures Name(f)[|Name(f)| - 1] == Suffix(f.kind)[|Suffix(f.kind)| - 1]
    ensures Name(f)[7..|Name(f)| - |Suffix(f.kind)|] == f.tenant
  {}

  // ---------------------------------------------------------------- the scripts

  function Get(hash: Hash, key: Field): int {
    if key in hash && hash[key].Number? then hash[key].n else 0
  }

  function IncrBy(hash: Hash, key: Field, n: int): Hash {
    hash[key := Number(Get(hash, key) + n)]
  }

  function Reserve(hash: Hash, r: Request, limits: Limits, globalLimit: int): (Hash, Code) {
    var tenant := r.tenant;
    if Reservation(r.id) in hash then (hash, AlreadyAdmitted)
    else if Get(hash, GlobalQueued) >= globalLimit then (hash, GlobalQueueFull)
    else if Get(hash, Count(Queued, tenant)) >= limits.queued then (hash, TenantQueueFull)
    else if Get(hash, Count(InFlight, tenant)) >= limits.concurrent then (hash, TenantConcurrencyLimit)
    else if Get(hash, Count(Tokens, tenant)) + r.tokens > limits.quota then (hash, TenantTokenQuota)
    else
      var counted := IncrBy(IncrBy(IncrBy(hash, GlobalQueued, 1), Count(Queued, tenant), 1),
                            Count(Tokens, tenant), r.tokens);
      (counted[Reservation(r.id) := Encoded(Booking(tenant, r.tokens, false), limits.concurrent)], Admitted)
  }

  function MarkRunningScript(hash: Hash, id: string): (Hash, Code) {
    var key := Reservation(id);
    if key !in hash || !hash[key].Encoded? then (hash, Missing)
    else
      var reservation := hash[key];
      var tenant := reservation.booking.tenant;
      if reservation.booking.running then (hash, AlreadyRunning)
      else if Get(hash, Count(InFlight, tenant)) >= reservation.concurrencyLimit then (hash, TenantConcurrencyLimit)
      else
        var counted := IncrBy(IncrBy(IncrBy(hash, GlobalQueued, -1), Count(Queued, tenant), -1),
                              Count(InFlight, tenant), 1);
        (counted[key := reservation.(booking := reservation.booking.(running := true))], Running)
  }

  function ReleaseScript(hash: Hash, id: string): (Hash, Code) {
    var key := Reservation(id);
    if key !in hash || !hash[key].Encoded? then (hash, NothingToRelease)
    else
      var b := hash[key].booking;
      var counted :=
        if b.running then IncrBy(hash, Count(InFlight, b.tenant), -1)
        else IncrBy(IncrBy(hash, GlobalQueued, -1), Count(Queued, b.tenant), -1);
      (IncrBy(counted, Count(Tokens, b.tenant), 0 - b.tokens) - {key}, Released)
  }

  /** The Python side of a decision: checks first, then the script. */
  function DecideShared(cfg: Config, hash: Hash, r: Request): (Hash, Code) {
    var refused := PreCheck(cfg, r);
    if refused.Some? then (hash, refused.value)
    else Reserve(hash, r, cfg.tenants[r.tenant], cfg.globalQueue)
  }

  function SharedStep(cfg: Config, hash: Hash, op: Op): (Hash, Code) {
    match op
    case DecideOp(r) => DecideShared(cfg, hash, r)
    case MarkRunningOp(id) => MarkRunningScript(hash, id)
    case ReleaseOp(id) => ReleaseScript(hash, id)
  }

  // ---------------------------------------------------------------- simulation

  /** The controller's state with the global queue count kept separately, as the hash keeps it. */
  datatype Mirror = Mirror(global: int, state: State) {
    function Counter(kind: Kind): map<string, int> {
      match kind
      case Queued => state.queued
      case InFlight => state.running
      case Tokens => state.tokens
    }

    function With(kind: Kind, t: string, n: int): Mirror {
      var counter := Counter(kind)[t := At(Counter(kind), t) + n];
      match kind
      case Queued => this.(state := state.(queued := counter))
      case InFlight => this.(state := state.(running := counter))
      case Tokens => this.(state := state.(tokens := counter))
    }
  }

  /** The hash holds the mirror, field by field. */
  ghost predicate Holds(cfg: Config, m: Mirror, hash: Hash) {
    && Get(hash, GlobalQueued) == m.global
    && (forall kind, t {:trigger Count(kind, t)} :: Get(hash, Count(kind, t)) == At(m.Counter(kind), t))
    && (forall id :: id in m.state.reserved ==> m.state.reserved[id].tenant in cfg.tenants)
    && (forall id {:trigger Reservation(id)} ::
          if id in m.state.reserved then
            var b := m.state.reserved[id];
            Reservation(id) in hash && hash[Reservation(id)] == Encoded(b, cfg.tenants[b.tenant].concurrent)
          else Reservation(id) !in hash)
  }

  ghost predicate Related(cfg: Config, s: State, hash: Hash) {
    Holds(cfg, Mirror(Sum(s.queued), s), hash)
  }

  lemma GlobalMoves(cfg: Config, m: Mirror, hash: Hash, n: int)
    requires Holds(cfg, m, hash)
    ensures Holds(cfg, m.(global := m.global + n), IncrBy(hash, GlobalQueued, n))
  {}

  lemma CounterMoves(cfg: Config, m: Mirror, hash: Hash, kind: Kind, t: string, n: int)
    requires Holds(cfg, m, hash)
    ensures Holds(cfg, m.With(kind, t, n), IncrBy(hash, Count(kind, t), n))
  {
    var after, mirror := IncrBy(hash, Count(kind, t), n), m.With(kind, t, n);
    forall k, u
      ensures Get(after, Count(k, u)) == At(mirror.Counter(k), u)
    {
      assert Get(hash, Count(k, u)) == At(m.Counter(k), u);
    }
  }

  lemma ReservationWritten(cfg: Config, m: Mirror, hash: Hash, id: string, b: Booking)
    requires Holds(cfg, m, hash) && b.tenant in cfg.tenants
    ensures Holds(cfg, m.(state := m.state.(reserved := m.state.reserved[id := b])),
                  hash[Reservation(id) := Encoded(b, cfg.tenants[b.tenant].concurrent)])
  {}

  lemma ReservationDeleted(cfg: Config, m: Mirror, hash: Hash, id: string)
    requires Holds(cfg, m, hash)
    ensures Holds(cfg, m.(state := m.state.(reserved := m.state.reserved - {id})), hash - {Reservation(id)})
  {}

  lemma WhatScriptsRead(cfg: Config, m: Mirror, hash: Hash, id: string, t: string)
    requires Holds(cfg, m, hash)
    ensures Get(hash, GlobalQueued) == m.global
    ensures Get(hash, Count(Queued, t)) == At(m.state.queued, t)
    ensures Get(hash, Count(InFlight, t)) == At(m.state.running, t)
    ensures Get(hash, Count(Tokens, t)) == At(m.state.tokens, t)
    ensures Reservation(id) in hash <==> id in m.state.reserved
    ensures id in m.state.reserved ==>
              var b := m.state.reserved[id];
              b.tenant in cfg.tenants && hash[Reservation(id)] == Encoded(b, cfg.tenants[b.tenant].concurrent)
  {}

  lemma ReserveSimulates(cfg: Config, s: State, hash: Hash, r: Request)
    requires Related(cfg, s, hash) && PreCheck(cfg, r).None?
    ensures Reserve(hash, r, cfg.tenants[r.tenant], cfg.globalQueue).1 == Decide(cfg, s, r).1
    ensures Related(cfg, Decide(cfg, s, r).0, Reserve(hash, r, cfg.tenants[r.tenant], cfg.globalQueue).0)
  {
    hide Holds, Get, IncrBy;
    var m := Mirror(Sum(s.queued), s);
    WhatScriptsRead(cfg, m, hash, r.id, r.tenant);
    if Decide(cfg, s, r).1 == Admitted {
      CounterChanges(s.queued, r.tenant, At(s.queued, r.tenant) + 1);
      GlobalMoves(cfg, m, hash, 1);
      var m1, h1 := m.(global := m.global + 1), IncrBy(hash, GlobalQueued, 1);
      CounterMoves(cfg, m1, h1, Queued, r.tenant, 1);
      var m2, h2 := m1.With(Queued, r.tenant, 1), IncrBy(h1, Count(Queued, r.tenant), 1);
      CounterMoves(cfg, m2, h2, Tokens, r.tenant, r.tokens);
      var m3, h3 := m2.With(Tokens, r.tenant, r.tokens), IncrBy(h2, Count(Tokens, r.tenant), r.tokens);
      ReservationWritten(cfg, m3, h3, r.id, Booking(r.tenant, r.tokens, false));
    }
  }

  lemma MarkRunningSimulates(cfg: Config, s: State, hash: Hash, id: string)
    requires Related(cfg, s, hash) && Consistent(cfg, s)
    ensures MarkRunningScript(hash, id).1 == MarkRunning(cfg, s, id).1
    ensures Related(cfg, MarkRunning(cfg, s, id).0, MarkRunningScript(hash, id).0)
  {
    hide Holds, Get, IncrBy, Tracks, WithinLimits;
    var m := Mirror(Sum(s.queued), s);
    WhatScriptsRead(cfg, m, hash, id, if id in s.reserved then s.reserved[id].tenant else "");
    if MarkRunning(cfg, s, id).1 == Running {
      WaitingIsCounted(cfg, s, id);
      var b := s.reserved[id];
      var t := b.tenant;
      CounterChanges(s.queued, t, At(s.queued, t) - 1);
      GlobalMoves(cfg, m, hash, -1);
      var m1, h1 := m.(global := m.global - 1), IncrBy(hash, GlobalQueued, -1);
      CounterMoves(cfg, m1, h1, Queued, t, -1);
      var m2, h2 := m1.With(Queued, t, -1), IncrBy(h1, Count(Queued, t), -1);
      CounterMoves(cfg, m2, h2, InFlight, t, 1);
      var m3, h3 := m2.With(InFlight, t, 1), IncrBy(h2, Count(InFlight, t), 1);
      ReservationWritten(cfg, m3, h3, id, b.(running := true));
    }
  }

  lemma WaitingIsCounted(cfg: Config, s: State, id: string)
    requires Consistent(cfg, s) && id in s.reserved && !s.reserved[id].running
    ensures At(s.queued, s.reserved[id].tenant) > 0
  {
    StartTracks(s.queued, s.reserved, Queued, id);
  }

  lemma ReleaseSimulates(cfg: Config, s: State, hash: Hash, id: string)
    requires Related(cfg, s, hash)
    ensures ReleaseScript(hash, id).1 == Release(s, id).1
    ensures Related(cfg, Release(s, id).0, ReleaseScript(hash, id).0)
  {
    hide Holds, Get, IncrBy;
    var m := Mirror(Sum(s.queued), s);
    WhatScriptsRead(cfg, m, hash, id, if id in s.reserved then s.reserved[id].tenant else "");
    if id in s.reserved {
      var b := s.reserved[id];
      var t := b.tenant;
      var m2, h2;
      if b.running {
        CounterMoves(cfg, m, hash, InFlight, t, -1);
        m2, h2 := m.With(InFlight, t, -1), IncrBy(hash, Count(InFlight, t), -1);
      } else {
        CounterChanges(s.queued, t, At(s.queued, t) - 1);
        GlobalMoves(cfg, m, hash, -1);
        var m1, h1 := m.(global := m.global - 1), IncrBy(hash, GlobalQueued, -1);
        CounterMoves(cfg, m1, h1, Queued, t, -1);
        m2, h2 := m1.With(Queued, t, -1), IncrBy(h1, Count(Queued, t), -1);
      }
      CounterMoves(cfg, m2, h2, Tokens, t, 0 - b.tokens);
      ReservationDeleted(cfg, m2.With(Tokens, t, 0 - b.tokens), IncrBy(h2, Count(Tokens, t), 0 - b.tokens), id);
    }
  }

  lemma DecideSimulates(cfg: Config, s: State, hash: Hash, r: Request)
    requires Related(cfg, s, hash)
    ensures Related(cfg, Decide(cfg, s, r).0, DecideShared(cfg, hash, r).0)
    ensures DecideShared(cfg, hash, r).1 == Decide(cfg, s, r).1 <==> !(r.id in s.reserved && PreCheck(cfg, r).Some?)
  {
    hide Holds, Reserve, LimitCheck;
    if PreCheck(cfg, r).None? {
      ReserveSimulates(cfg, s, hash, r);
    }
  }

  /** One step: the states stay related, and the result codes differ exactly when a request that
      is already reserved is decided again and one of the checks before the script now fails. */
  lemma StepSimulates(cfg: Config, s: State, hash: Hash, op: Op)
    requires Related(cfg, s, hash) && Consistent(cfg, s)
    ensures Related(cfg, Step(cfg, s, op).0, SharedStep(cfg, hash, op).0)
    ensures SharedStep(cfg, hash, op).1 == Step(cfg, s, op).1 <==>
              !(op.DecideOp? && op.request.id in s.reserved && PreCheck(cfg, op.request).Some?)
  {
    hide Related, Consistent, Decide, DecideShared, MarkRunning, MarkRunningScript, Release, ReleaseScript;
    match op
    case DecideOp(r) => DecideSimulates(cfg, s, hash, r);
    case MarkRunningOp(id) =>
      MarkRunningSimulates(cfg, s, hash, id);
    case ReleaseOp(id) =>
      ReleaseSimulates(cfg, s, hash, id);
  }

  // ---------------------------------------------------------------- whole runs

  ghost function RunLocal(cfg: Config, s: State, ops: seq<Op>): (State, seq<Code>)
    requires Consistent(cfg, s)
    decreases ops
  {
    if ops == [] then (s, [])
    else
      StepKeepsConsistent(cfg, s, ops[0]);
      var (next, code) := Step(cfg, s, ops[0]);
      var (final, codes) := RunLocal(cfg, next, ops[1..]);
      (final, [code] + codes)
  }

  ghost function RunShared(cfg: Config, hash: Hash, ops: seq<Op>): (Hash, seq<Code>)
    decreases ops
  {
    if ops == [] then (hash, [])
    else
      var (next, code) := SharedStep(cfg, hash, ops[0]);
      var (final, codes) := RunShared(cfg, next, ops[1..]);
      (final, [code] + codes)
  }

  /** Somewhere in the run a reserved request is decided again while its checks fail. */
  ghost predicate Redecides(cfg: Config, s: State, ops: seq<Op>)
    requires Consistent(cfg, s)
    decreases ops
  {
    StepKeepsFirst(cfg, s, ops);
    ops != [] && (
      (ops[0].DecideOp? && ops[0].request.id in s.reserved && PreCheck(cfg, ops[0].request).Some?)
      || Redecides(cfg, Step(cfg, s, ops[0]).0, ops[1..]))
  }

  lemma StepKeepsFirst(cfg: Config, s: State, ops: seq<Op>)
    requires Consistent(cfg, s)
    ensures ops != [] ==> Consistent(cfg, Step(cfg, s, ops[0]).0)
  {
    if ops != [] {
      StepKeepsConsistent(cfg, s, ops[0]);
    }
  }

  /** Over any run the shared hash stays a faithful copy of the in-memory controller: its
      counters are the sums over live reservations, no tenant or global limit is exceeded, and
      the two report the same codes unless a reserved request is decided again badly. */
  lemma {:induction false} SharedRunsSimulate(cfg: Config, s: State, hash: Hash, ops: seq<Op>)
    requires Related(cfg, s, hash) && Consistent(cfg, s)
    ensures Related(cfg, RunLocal(cfg, s, ops).0, RunShared(cfg, hash, ops).0)
    ensures Consistent(cfg, RunLocal(cfg, s, ops).0)
    ensures RunLocal(cfg, s, ops).1 == RunShared(cfg, hash, ops).1 <==> !Redecides(cfg, s, ops)
    decreases ops
  {
    hide Holds, Consistent, Step, SharedStep, PreCheck;
    if ops != [] {
      StepKeepsConsistent(cfg, s, ops[0]);
      StepSimulates(cfg, s, hash, ops[0]);
      var (next, code) := Step(cfg, s, ops[0]);
      var (other, shared) := SharedStep(cfg, hash, ops[0]);
      SharedRunsSimulate(cfg, next, other, ops[1..]);
      ConsEqual(code, RunLocal(cfg, next, ops[1..]).1, shared, RunShared(cfg, other, ops[1..]).1);
    }
  }

  lemma ConsEqual(x: Code, xs: seq<Code>, y: Code, ys: seq<Code>)
    ensures [x] + xs == [y] + ys <==> x == y && xs == ys
  {
    assert ([x] + xs)[0] == x && ([x] + xs)[1..] == xs;
    assert ([y] + ys)[0] == y && ([y] + ys)[1..] == ys;
  }

  /** An empty hash is a fresh controller. */
  lemma FreshIsRelated(cfg: Config)
    ensures Related(cfg, State(map[], map[], map[], map[]), map[])
    ensures Consistent(cfg, State(map[], map[], map[], map[]))
  {
    forall m
      ensures Total(map[], m) == 0
    {
      assert Weights(map[], m) == map[];
    }
  }
}
