/**
 The recovery lease of `serving_platform/coordination/lease.py`, one Redis key with an expiry, and
 the supervisors of `apps/control_plane/reliability.py` that run recovery passes under it.
 */
module Lease {
  import opened Wrappers

  // ---------------------------------------------------------------- one key with an expiry

  /** The key's value and the time, in milliseconds, at which Redis drops it. */
  datatype Entry = Entry(owner: string, expires: int)

  /** What a read at `now` returns. */
  function Current(key: Option<Entry>, now: int): Option<string> {
    if key.Some? && now < key.value.expires then Some(key.value.owner) else None
  }

  function SetIfAbsent(key: Option<Entry>, now: int, owner: string, ttl: nat): (Option<Entry>, bool) {
    if Current(key, now).Some? then (key, false) else (Some(Entry(owner, now + ttl)), true)
  }

  function RenewIfOwner(key: Option<Entry>, now: int, owner: string, ttl: nat): (Option<Entry>, bool) {
    if Current(key, now) != Some(owner) then (key, false) else (Some(Entry(owner, now + ttl)), true)
  }

  function DeleteIfOwner(key: Option<Entry>, now: int, owner: string): (Option<Entry>, bool) {
    if Current(key, now) != Some(owner) then (key, false) else (None, true)
  }

  /** What the three scripts do, told by who holds the key: a lease that has not run out belongs to its
      owner alone, who can extend or give it up; otherwise the key is free for anybody to take and for
      nobody to extend or delete. */
  lemma ScriptsByHolder(key: Option<Entry>, now: int, owner: string, ttl: nat)
    ensures var mine, free := key.Some? && key.value.owner == owner && now < key.value.expires,
                              key == None || key.value.expires <= now;
            && (Current(key, now) == Some(owner) <==> mine) && (Current(key, now) == None <==> free)
            && SetIfAbsent(key, now, owner, ttl) == (if free then Some(Entry(owner, now + ttl)) else key, free)
            && RenewIfOwner(key, now, owner, ttl) == (if mine then Some(Entry(owner, now + ttl)) else key, mine)
            && DeleteIfOwner(key, now, owner) == (if mine then None else key, mine)
  {
    assert Current(key, now).Some? ==> key.Some?;
  }

  /** The Redis server: one key and its clock. */
  class Server {
    var key: Option<Entry>
    var now: int

    constructor ()
      ensures key == None && now == 0
    {
      key, now := None, 0;
    }
  }

  class RedisLease {
    const server: Server
    const owner: string
    const ttl: nat

    constructor (server: Server, owner: string, ttl: nat)
      requires owner != "" && ttl > 0
      ensures this.server == server && this.owner == owner && this.ttl == ttl
    {
      this.server, this.owner, this.ttl := server, owner, ttl;
    }

    method Acquire() returns (owned: bool)
      modifies server`key
      ensures (server.key, owned) == SetIfAbsent(old(server.key), server.now, owner, ttl)
    {
      owned := !(server.key.Some? && server.now < server.key.value.expires);
      if owned {
        server.key := Some(Entry(owner, server.now + ttl));
      }
    }

    method Renew() returns (owned: bool)
      modifies server`key
      ensures (server.key, owned) == RenewIfOwner(old(server.key), server.now, owner, ttl)
    {
      owned := IsOwner();
      if owned {
        server.key := Some(Entry(owner, server.now + ttl));
      }
    }

    method Release() returns (released: bool)
      modifies server`key
      ensures (server.key, released) == DeleteIfOwner(old(server.key), server.now, owner)
    {
      released := IsOwner();
      if released {
        server.key := None;
      }
    }

    method IsOwner() returns (owned: bool)
      ensures owned <==> Current(server.key, server.now) == Some(owner)
    {
      owned := Current(server.key, server.now) == Some(owner);
    }
  }

  // ---------------------------------------------------------------- supervisors sharing the key

  /** Where a supervisor is. `Owned` and `Unowned` are between the ownership check and the renewal
      or acquisition that follows it; `Recovering` carries the time its grant runs out. */
  datatype Phase = Sleeping | Owned | Unowned | Recovering(deadline: int) | Leaving | Releasing | Stopped

  /** Supervisors are told apart by their owner tokens. */
  datatype State = State(now: int, key: Option<Entry>, supervisors: map<string, Phase>)

  datatype Step =
    | Tick(elapsed: nat)
    | Wake(who: string)
    | Grant(who: string)
    | EndPass(who: string)
    | Fail(who: string)
    | Stop(who: string)
    | CheckOnExit(who: string)
    | ReleaseOnExit(who: string)

  ghost predicate Enabled(s: State, step: Step) {
    step.Tick? || (step.who in s.supervisors &&
      var phase := s.supervisors[step.who];
      match step
      case Wake(_) => phase.Sleeping?
      case Grant(_) => phase.Owned? || phase.Unowned?
      case EndPass(_) => phase.Recovering?
      case Fail(_) => phase.Recovering? || phase.Owned? || phase.Unowned?
      case Stop(_) => phase.Sleeping?
      case CheckOnExit(_) => phase.Leaving?
      case ReleaseOnExit(_) => phase.Releasing?)
  }

  ghost function MoveTo(s: State, who: string, phase: Phase): State {
    s.(supervisors := s.supervisors[who := phase])
  }

  /** The renewal or acquisition; a refused one goes back to sleep. */
  ghost function Granted(s: State, who: string, ttl: nat): State
    requires who in s.supervisors
  {
    var (key, owned) :=
      if s.supervisors[who].Owned? then RenewIfOwner(s.key, s.now, who, ttl) else SetIfAbsent(s.key, s.now, who, ttl);
    MoveTo(s.(key := key), who, if owned then Recovering(s.now + ttl) else Sleeping)
  }

  ghost function Apply(ttl: string -> nat, s: State, step: Step): State
    requires Enabled(s, step)
  {
    match step
    case Tick(elapsed) => s.(now := s.now + elapsed)
    case Wake(o) => MoveTo(s, o, if Current(s.key, s.now) == Some(o) then Owned else Unowned)
    case Grant(o) => Granted(s, o, ttl(o))
    case EndPass(o) => MoveTo(s, o, Sleeping)
    case Fail(o) => MoveTo(s, o, Leaving)
    case Stop(o) => MoveTo(s, o, Leaving)
    case CheckOnExit(o) => MoveTo(s, o, if Current(s.key, s.now) == Some(o) then Releasing else Stopped)
    case ReleaseOnExit(o) => MoveTo(s.(key := DeleteIfOwner(s.key, s.now, o).0), o, Stopped)
  }

  ghost predicate InPass(s: State, o: string) {
    o in s.supervisors && s.supervisors[o].Recovering?
  }

  /** Until its grant runs out, a supervisor in a recovery pass owns the key. */
  ghost predicate GrantsHold(s: State) {
    forall o :: InPass(s, o) && s.now < s.supervisors[o].deadline ==>
      s.key == Some(Entry(o, s.supervisors[o].deadline))
  }

  /** Every recovery pass in progress is within the time-to-live of its grant. */
  ghost predicate Timely(s: State) {
    forall o :: InPass(s, o) ==> s.now < s.supervisors[o].deadline
  }

  ghost predicate Alone(s: State) {
    forall o, p :: InPass(s, o) && InPass(s, p) ==> o == p
  }

  lemma StepKeepsGrants(ttl: string -> nat, s: State, step: Step)
    requires GrantsHold(s) && Enabled(s, step)
    ensures GrantsHold(Apply(ttl, s, step))
  {
    var t := Apply(ttl, s, step);
    forall o | InPass(t, o) && t.now < t.supervisors[o].deadline
      ensures t.key == Some(Entry(o, t.supervisors[o].deadline))
    {
      if step.Tick? || step.who != o {
        assert s.supervisors[o] == t.supervisors[o];
      }
    }
  }

  ghost predicate Possible(ttl: string -> nat, s: State, steps: seq<Step>)
    decreases steps
  {
    steps == [] || (Enabled(s, steps[0]) && Possible(ttl, Apply(ttl, s, steps[0]), steps[1..]))
  }

  ghost function After(ttl: string -> nat, s: State, steps: seq<Step>): State
    requires Possible(ttl, s, steps)
    decreases steps
  {
    if steps == [] then s else After(ttl, Apply(ttl, s, steps[0]), steps[1..])
  }

  lemma {:induction false} RunKeepsGrants(ttl: string -> nat, s: State, steps: seq<Step>)
    requires GrantsHold(s) && Possible(ttl, s, steps)
    ensures GrantsHold(After(ttl, s, steps))
    decreases steps
  {
    if steps != [] {
      StepKeepsGrants(ttl, s, steps[0]);
      RunKeepsGrants(ttl, Apply(ttl, s, steps[0]), steps[1..]);
    }
  }

  lemma {:induction false} TimeMovesForward(ttl: string -> nat, s: State, steps: seq<Step>)
    requires Possible(ttl, s, steps)
    ensures s.now <= After(ttl, s, steps).now
    decreases steps
  {
    if steps != [] {
      TimeMovesForward(ttl, Apply(ttl, s, steps[0]), steps[1..]);
    }
  }

  /** A former owner is harmless: until a lease runs out, nothing the other supervisors do, their
      late renewals and releases included, changes it or lets one of them in. */
  lemma {:induction false} OthersCannotTouch(ttl: string -> nat, s: State, steps: seq<Step>, holder: string)
    requires Possible(ttl, s, steps) && s.key.Some? && s.key.value.owner == holder
    requires forall step :: step in steps ==> step.Tick? || step.who != holder
    requires After(ttl, s, steps).now < s.key.value.expires
    ensures After(ttl, s, steps).key == s.key
    ensures forall o :: o != holder && InPass(After(ttl, s, steps), o) ==> InPass(s, o)
    decreases steps
  {
    if steps != [] {
      var t := Apply(ttl, s, steps[0]);
      TimeMovesForward(ttl, t, steps[1..]);
      assert steps[0] in steps;
      assert t.key == s.key && forall o :: o != holder && InPass(t, o) ==> InPass(s, o);
      OthersCannotTouch(ttl, t, steps[1..], holder);
    }
  }

  /** Mutual exclusion: with distinct owner tokens, in every interleaving and whatever fails, two
      supervisors are in recovery at once only if a pass has outlived its grant. */
  lemma OverlapNeedsOverrun(ttl: string -> nat, s: State, steps: seq<Step>)
    requires GrantsHold(s) && Possible(ttl, s, steps)
    ensures Timely(After(ttl, s, steps)) ==> Alone(After(ttl, s, steps))
  {
    RunKeepsGrants(ttl, s, steps);
  }

  /** A supervisor whose lease has not run out renews it and goes on with the next pass. */
  lemma OwnerGoesOn(ttl: string -> nat, s: State, o: string)
    requires o in s.supervisors && s.supervisors[o].Sleeping?
    requires s.key.Some? && s.key.value.owner == o && s.now < s.key.value.expires
    ensures Possible(ttl, s, [Wake(o), Grant(o)])
    ensures var t := After(ttl, s, [Wake(o), Grant(o)]);
            && o in t.supervisors && t.supervisors[o] == Recovering(s.now + ttl(o))
            && t.key == Some(Entry(o, s.now + ttl(o)))
  {
    TwoSteps(ttl, s, Wake(o), Grant(o));
  }

  /** A supervisor that leaves with an unexpired lease gives it up, and the next one to wake up gets
      in at once; one whose lease has passed to another leaves that one alone. */
  lemma LeavingFrees(ttl: string -> nat, s: State, o: string, p: string)
    requires o in s.supervisors && s.supervisors[o].Leaving? && s.key.Some? && s.now < s.key.value.expires
    requires p in s.supervisors && p != o && s.supervisors[p].Sleeping? && ttl(p) > 0
    ensures s.key.value.owner == o ==>
              && Possible(ttl, s, [CheckOnExit(o), ReleaseOnExit(o)])
              && var t := After(ttl, s, [CheckOnExit(o), ReleaseOnExit(o)]);
                 && t.key == None && t.supervisors == s.supervisors[o := Stopped]
                 && Possible(ttl, t, [Wake(p), Grant(p)]) && InPass(After(ttl, t, [Wake(p), Grant(p)]), p)
    ensures s.key.value.owner != o ==>
              && Possible(ttl, s, [CheckOnExit(o)])
              && After(ttl, s, [CheckOnExit(o)]) == s.(supervisors := s.supervisors[o := Stopped])
  {
    if s.key.value.owner == o {
      TwoSteps(ttl, s, CheckOnExit(o), ReleaseOnExit(o));
      TwoSteps(ttl, After(ttl, s, [CheckOnExit(o), ReleaseOnExit(o)]), Wake(p), Grant(p));
    } else {
      assert [CheckOnExit(o)][1..] == [];
      assert Possible(ttl, Apply(ttl, s, CheckOnExit(o)), []);
    }
  }

  lemma TwoSteps(ttl: string -> nat, s: State, first: Step, second: Step)
    requires Enabled(s, first) && Enabled(Apply(ttl, s, first), second)
    ensures Possible(ttl, s, [first, second])
    ensures After(ttl, s, [first, second]) == Apply(ttl, Apply(ttl, s, first), second)
  {
    var steps := [first, second];
    assert steps[1..] == [second] && steps[1..][1..] == [];
    var t := Apply(ttl, s, first);
    assert Possible(ttl, Apply(ttl, t, second), []);
    assert Possible(ttl, t, [second]);
    assert After(ttl, t, [second]) == Apply(ttl, t, second);
  }

  /** The time-to-live is exactly what is needed: while one supervisor's pass goes on and no third
      one holds the key, another that wakes up now gets in if and only if the pass has outlived
      its grant. */
  lemma OverrunAllowsOverlap(ttl: string -> nat, s: State, o: string, p: string)
    requires GrantsHold(s) && InPass(s, o) && p in s.supervisors && o != p && s.supervisors[p].Sleeping?
    requires s.key.Some? ==> s.key.value == Entry(o, s.supervisors[o].deadline)
    ensures Possible(ttl, s, [Wake(p), Grant(p)])
    ensures var t := After(ttl, s, [Wake(p), Grant(p)]);
            InPass(t, o) && (InPass(t, p) <==> s.now >= s.supervisors[o].deadline)
  {
    TwoSteps(ttl, s, Wake(p), Grant(p));
  }
}
