/** The two admission controllers as objects: counters in memory, and the shared hash in Redis. */
module AdmissionObjects {
  import opened Sums
  import opened Admission
  import opened RedisAdmission

  class TenantAdmissionController {
    const cfg: Config
    var queued: map<string, int>
    var running: map<string, int>
    var tokens: map<string, int>
    var reserved: Bookings

    ghost function View(): State
      reads this
    {
      State(queued, running, tokens, reserved)
    }

    ghost predicate Valid()
      reads this
    {
      Consistent(cfg, View())
    }

    constructor (cfg: Config)
      requires cfg.globalQueue > 0
      ensures Valid() && this.cfg == cfg && reserved == map[]
    {
      this.cfg := cfg;
      queued, running, tokens, reserved := map[], map[], map[], map[];
      new;
      FreshIsRelated(cfg);
    }

    method SumOf(counter: map<string, int>) returns (sum: int)
      ensures sum == Sum(counter)
    {
      sum := 0;
      var rest := counter.Keys;
      assert counter - rest == map[];
      while rest != {}
        invariant rest <= counter.Keys && sum == Sum(counter - rest)
        decreases |rest|
      {
        var t :| t in rest;
        SumInsert(counter - rest, t, counter[t]);
        assert counter - (rest - {t}) == (counter - rest)[t := counter[t]];
        sum := sum + counter[t];
        rest := rest - {t};
      }
      assert counter - rest == counter;
    }

    /** Reserves queue space and tokens for a request, or says why not; all under one lock. */
    method Decide(r: Request) returns (code: Code)
      requires Valid()
      modifies this
      ensures Valid() && (View(), code) == Admission.Decide(cfg, old(View()), r)
      ensures RightAnswer(cfg, old(reserved), r, code)
      ensures reserved == if code == Admitted then old(reserved)[r.id := Booking(r.tenant, r.tokens, false)]
                          else old(reserved)
    {
      hide Consistent, RightAnswer;
      DecideIsExact(cfg, View(), r);
      DecideKeepsConsistent(cfg, View(), r);
      if r.id in reserved {
        return AlreadyAdmitted;
      }
      var refused := PreCheck(cfg, r);
      if refused.Some? {
        return refused.value;
      }
      var waiting := SumOf(queued);
      refused := LimitCheck(cfg, r, waiting, At(queued, r.tenant), At(running, r.tenant), At(tokens, r.tenant));
      if refused.Some? {
        return refused.value;
      }
      queued := queued[r.tenant := At(queued, r.tenant) + 1];
      tokens := tokens[r.tenant := At(tokens, r.tenant) + r.tokens];
      reserved := reserved[r.id := Booking(r.tenant, r.tokens, false)];
      code := Admitted;
    }

    /** Moves a reservation from queued to running. */
    method MarkRunning(id: string) returns (code: Code)
      requires Valid()
      modifies this
      ensures Valid() && (View(), code) == Admission.MarkRunning(cfg, old(View()), id)
    {
      hide Tracks, WithinLimits;
      MarkRunningKeepsConsistent(cfg, View(), id);
      if id !in reserved {
        return Missing;
      }
      var b := reserved[id];
      if b.running {
        return AlreadyRunning;
      }
      if At(running, b.tenant) >= cfg.tenants[b.tenant].concurrent {
        return TenantConcurrencyLimit;
      }
      if At(queued, b.tenant) > 0 {
        queued := queued[b.tenant := At(queued, b.tenant) - 1];
      }
      running := running[b.tenant := At(running, b.tenant) + 1];
      reserved := reserved[id := b.(running := true)];
      code := Running;
    }

    /** Gives a reservation back; releasing twice does nothing. */
    method Release(id: string) returns (code: Code)
      requires Valid()
      modifies this
      ensures Valid() && (View(), code) == Admission.Release(old(View()), id)
    {
      hide Consistent;
      ReleaseKeepsConsistent(cfg, View(), id);
      if id !in reserved {
        return NothingToRelease;
      }
      var b := reserved[id];
      reserved := reserved - {id};
      if b.running {
        running := running[b.tenant := At(running, b.tenant) - 1];
      } else {
        queued := queued[b.tenant := At(queued, b.tenant) - 1];
      }
      tokens := tokens[b.tenant := At(tokens, b.tenant) - b.tokens];
      code := Released;
    }
  }

  /** The server's hash; each script runs on it as one atomic step. */
  class SharedStore {
    var hash: Hash

    constructor ()
      ensures hash == map[]
    {
      hash := map[];
    }

    method HIncrBy(key: Field, n: int)
      modifies this
      ensures hash == IncrBy(old(hash), key, n)
    {
      hash := hash[key := Number(Get(hash, key) + n)];
    }

    method EvalReserve(r: Request, limits: Limits, globalLimit: int) returns (code: Code)
      modifies this
      ensures (hash, code) == Reserve(old(hash), r, limits, globalLimit)
    {
      hide IncrBy;
      if Reservation(r.id) in hash {
        return AlreadyAdmitted;
      }
      if Get(hash, GlobalQueued) >= globalLimit {
        return GlobalQueueFull;
      }
      if Get(hash, Count(Queued, r.tenant)) >= limits.queued {
        return TenantQueueFull;
      }
      if Get(hash, Count(InFlight, r.tenant)) >= limits.concurrent {
        return TenantConcurrencyLimit;
      }
      if Get(hash, Count(Tokens, r.tenant)) + r.tokens > limits.quota {
        return TenantTokenQuota;
      }
      HIncrBy(GlobalQueued, 1);
      HIncrBy(Count(Queued, r.tenant), 1);
      HIncrBy(Count(Tokens, r.tenant), r.tokens);
      hash := hash[Reservation(r.id) := Encoded(Booking(r.tenant, r.tokens, false), limits.concurrent)];
      code := Admitted;
    }

    method EvalMarkRunning(id: string) returns (code: Code)
      modifies this
      ensures (hash, code) == MarkRunningScript(old(hash), id)
    {
      hide IncrBy;
      if Reservation(id) !in hash || !hash[Reservation(id)].Encoded? {
        return Missing;
      }
      var reservation := hash[Reservation(id)];
      if reservation.booking.running {
        return AlreadyRunning;
      }
      var tenant := reservation.booking.tenant;
      if Get(hash, Count(InFlight, tenant)) >= reservation.concurrencyLimit {
        return TenantConcurrencyLimit;
      }
      HIncrBy(GlobalQueued, -1);
      HIncrBy(Count(Queued, tenant), -1);
      HIncrBy(Count(InFlight, tenant), 1);
      hash := hash[Reservation(id) := reservation.(booking := reservation.booking.(running := true))];
      code := Running;
    }

    method EvalRelease(id: string) returns (code: Code)
      modifies this
      ensures (hash, code) == ReleaseScript(old(hash), id)
    {
      hide IncrBy;
      if Reservation(id) !in hash || !hash[Reservation(id)].Encoded? {
        return NothingToRelease;
      }
      var b := hash[Reservation(id)].booking;
      if b.running {
        HIncrBy(Count(InFlight, b.tenant), -1);
      } else {
        HIncrBy(GlobalQueued, -1);
        HIncrBy(Count(Queued, b.tenant), -1);
      }
      HIncrBy(Count(Tokens, b.tenant), 0 - b.tokens);
      hash := hash - {Reservation(id)};
      code := Released;
    }

    /** A process deciding a request against the shared state. */
    method Decide(cfg: Config, r: Request) returns (code: Code)
      modifies this
      ensures (hash, code) == DecideShared(cfg, old(hash), r)
    {
      hide Reserve;
      var refused := PreCheck(cfg, r);
      if refused.Some? {
        return refused.value;
      }
      code := EvalReserve(r, cfg.tenants[r.tenant], cfg.globalQueue);
    }
  }
}
