/**
 The locked sections of `apps/worker/service.py` and the runtime calls between them as methods of
 one object, each tied to its atomic step in `WorkerMemory`.
 */
module WorkerObject {
  import opened Wrappers
  import opened Sequences
  import opened Sums
  import opened WorkerMemory

  datatype LoadError = InsufficientMemory | QueuedRequests

  /** Some models have just been used. */
  function Stamped(lastUsed: map<string, real>, models: set<string>, now: real): map<string, real> {
    lastUsed + map m | m in models :: now
  }

  lemma StampOne(lastUsed: map<string, real>, models: set<string>, m: string, now: real)
    ensures Stamped(lastUsed, models + {m}, now) == Stamped(lastUsed, models, now)[m := now]
  {}

  lemma NoneStamped(lastUsed: map<string, real>, now: real)
    ensures Stamped(lastUsed, {}, now) == lastUsed
  {}

  lemma StampedMeans(lastUsed: map<string, real>, evictions: seq<string>, loaded: set<string>, now: real)
    ensures Elements(evictions) * loaded == set m | m in evictions && m in loaded
    ensures Stamped(lastUsed, Elements(evictions) * loaded, now) ==
              lastUsed + map m | m in evictions && m in loaded :: now
  {}

  class ManagedWorker {
    const cfg: Config
    var resident: set<string>
    var loading: set<string>
    var reserved: int
    var queued: multiset<string>
    var running: multiset<string>
    /** When each resident model was last used. */
    var lastUsed: map<string, real>
    /** The runtime's own set of loaded models. */
    var loaded: set<string>
    /** The operations between their first and last step, by thread. */
    ghost var ops: map<nat, Operation>

    ghost function View(): State
      reads this
    {
      State(resident, loaded, loading, reserved, queued, running, ops)
    }

    constructor (cfg: Config)
      ensures this.cfg == cfg && View() == Init() && Safe(cfg, View())
    {
      this.cfg := cfg;
      resident, loading, loaded, reserved, queued, running, ops := {}, {}, {}, 0, multiset{}, multiset{}, map[];
      lastUsed := map[];
      new;
      InitIsSafe(cfg);
    }

    /** The memory the runtime reports as used. */
    method Capacity() returns (used: int)
      ensures used == Used(cfg, loaded)
    {
      used := 0;
      var rest := loaded;
      assert loaded - rest == {};
      NothingUsed(cfg);
      while rest != {}
        invariant rest <= loaded && used == Used(cfg, loaded - rest)
        decreases |rest|
      {
        var m :| m in rest;
        UsedChanges(cfg, loaded - rest, m);
        assert loaded - (rest - {m}) == loaded - rest + {m};
        used := used + cfg.size(m);
        rest := rest - {m};
      }
      assert loaded - rest == loaded;
    }

    /** Reserves memory for a load and takes victims, least recently used first, out of residency, or
        changes nothing. It succeeds exactly if the free memory, less what other loads have reserved
        and the safety reserve, would be enough with every idle model evicted. No idle model that stays
        was used longer ago than a victim, and without the last victim there would be too little. */
    method BeginLoad(ghost thread: nat, model: string)
      returns (r: Result<seq<string>, LoadError>, ghost order: seq<string>)
      requires thread !in ops && model !in resident && model !in loading
      modifies this`resident, this`loading, this`reserved, this`lastUsed, this`ops
      ensures NoDuplicates(order) && Elements(order) == old(resident) && ByLastUse(old(lastUsed), order)
      ensures var step := Begin(thread, model, order);
              && (r.Success? <==> Enabled(cfg, old(View()), step))
              && (r.Success? ==> r.value == Chosen(cfg, old(View()), step)
                                 && View() == Apply(cfg, old(View()), step)
                                 && lastUsed == old(lastUsed) - Elements(r.value))
      ensures r.Failure? ==> r.error == InsufficientMemory && View() == old(View()) && lastUsed == old(lastUsed)
      ensures var busy := set m | m in queued + running;
              var usable := cfg.total - Used(cfg, loaded) - old(reserved) - cfg.safety;
              && (r.Success? <==> usable + Sum(IdleSizes(cfg, old(resident), busy)) >= cfg.size(model))
              && (r.Success? ==>
                    && (forall v :: v in r.value ==> v in old(resident) && v !in busy)
                    && OldestGo(old(lastUsed), old(resident), busy, r.value)
                    && usable + TotalSize(cfg, r.value) >= cfg.size(model)
                    && (r.value != [] ==> usable + TotalSize(cfg, r.value[..|r.value| - 1]) < cfg.size(model)))
    {
      hide Victims, ByLastUse, NoDuplicates, Used, TotalSize, OldestGo, IdleSizes;
      var used := Capacity();
      var required := cfg.size(model);
      var sorted := SortByLastUse(lastUsed, resident);
      order := sorted;
      VictimsAreRight(cfg, lastUsed, sorted, (set m | m in queued + running), cfg.total - used - reserved - cfg.safety,
                      required);
      var evictions, usable := SelectVictims(
        cfg, sorted, (set m | m in queued + running), cfg.total - used - reserved - cfg.safety, required);
      if usable < required {
        return Failure(InsufficientMemory), order;
      }
      Reserve(thread, model, evictions);
      r := Success(evictions);
    }

    method Reserve(ghost thread: nat, model: string, evictions: seq<string>)
      modifies this`resident, this`loading, this`reserved, this`lastUsed, this`ops
      ensures lastUsed == old(lastUsed) - Elements(evictions)
      ensures View() == old(View()).(
                resident := old(resident) - Elements(evictions), loading := old(loading) + {model},
                reserved := old(reserved) + cfg.size(model),
                ops := old(ops)[thread := Load(model, evictions, Unloading(0))])
    {
      resident := resident - Elements(evictions);
      lastUsed := lastUsed - Elements(evictions);
      loading := loading + {model};
      reserved := reserved + cfg.size(model);
      ops := ops[thread := Load(model, evictions, Unloading(0))];
    }

    /** A load of a resident model is a cache hit. */
    method Touch(model: string, now: real)
      requires model in resident
      modifies this`lastUsed
      ensures lastUsed == old(lastUsed)[model := now]
    {
      lastUsed := lastUsed[model := now];
    }

    /** The batch executor takes `count` queued requests of a model and runs them. */
    method StartBatch(model: string, count: nat, now: real)
      requires Enabled(cfg, View(), WorkerMemory.StartBatch(model, count))
      modifies this`queued, this`running, this`lastUsed
      ensures View() == Apply(cfg, old(View()), WorkerMemory.StartBatch(model, count))
      ensures queued == old(queued)[model := old(queued)[model] - count]
      ensures running == old(running)[model := old(running)[model] + count]
      ensures lastUsed == old(lastUsed)[model := now]
    {
      hide Used;
      queued := queued[model := queued[model] - count];
      running := running[model := running[model] + count];
      lastUsed := lastUsed[model := now];
    }

    method EndBatch(model: string, count: nat)
      requires Enabled(cfg, View(), WorkerMemory.EndBatch(model, count))
      modifies this`running
      ensures View() == Apply(cfg, old(View()), WorkerMemory.EndBatch(model, count))
      ensures running == old(running)[model := old(running)[model] - count]
    {
      hide Used;
      running := running[model := running[model] - count];
    }

    method UnloadVictim(ghost thread: nat, model: string)
      requires Enabled(cfg, View(), WorkerMemory.UnloadVictim(thread))
      requires model == ops[thread].victims[ops[thread].phase.done]
      modifies this`loaded, this`ops
      ensures View() == Apply(cfg, old(View()), WorkerMemory.UnloadVictim(thread))
      ensures loaded == old(loaded) - {model}
    {
      hide Used;
      loaded := loaded - {model};
      ops := ops[thread := ops[thread].(phase := Unloading(ops[thread].phase.done + 1))];
    }

    /** The runtime's admission check; false when it raises its memory error. */
    method RuntimeCheck(ghost thread: nat, model: string) returns (accepted: bool)
      requires Enabled(cfg, View(), Check(thread)) && ops[thread].model == model
      modifies this`ops
      ensures View() == Apply(cfg, old(View()), Check(thread))
      ensures Safe(cfg, old(View())) ==> accepted
      ensures accepted <==> model in loaded || Used(cfg, loaded) + cfg.size(model) <= cfg.total
    {
      if Safe(cfg, View()) {
        RuntimeAcceptsLoad(cfg, View(), thread);
      }
      hide Used, Accounting, Residency, Memory;
      if model in loaded {
        ops := ops[thread := ops[thread].(phase := Warming)];
        return true;
      }
      var used := Capacity();
      if cfg.size(model) > cfg.total - used {
        ops := ops[thread := ops[thread].(phase := Failed)];
        return false;
      }
      ops := ops[thread := ops[thread].(phase := Committing)];
      accepted := true;
    }

    method RuntimeCommit(ghost thread: nat, model: string)
      requires Enabled(cfg, View(), Commit(thread)) && ops[thread].model == model
      modifies this`loaded, this`ops
      ensures View() == Apply(cfg, old(View()), Commit(thread))
      ensures loaded == old(loaded) + {model}
    {
      hide Used;
      loaded := loaded + {model};
      ops := ops[thread := ops[thread].(phase := Warming)];
    }

    method PublishLoad(ghost thread: nat, model: string, now: real)
      requires Enabled(cfg, View(), Publish(thread)) && ops[thread].model == model
      modifies this`resident, this`lastUsed, this`ops
      ensures View() == Apply(cfg, old(View()), Publish(thread))
      ensures resident == old(resident) + {model} && lastUsed == old(lastUsed)[model := now]
    {
      hide Used;
      lastUsed := lastUsed[model := now];
      resident := resident + {model};
      ops := ops[thread := ops[thread].(phase := Finishing)];
    }

    /** The exception handler: victims the runtime still has become resident again. */
    method RestoreEvicted(ghost thread: nat, evictions: seq<string>, now: real)
      requires Enabled(cfg, View(), Restore(thread)) && ops[thread].Load? && ops[thread].victims == evictions
      modifies this`resident, this`lastUsed, this`ops
      ensures View() == Apply(cfg, old(View()), Restore(thread))
      ensures resident == old(resident) + (set m | m in evictions && m in loaded)
      ensures lastUsed == old(lastUsed) + map m | m in evictions && m in loaded :: now
    {
      hide Used, Stamped;
      NoneStamped(lastUsed, now);
      assert Elements(evictions[..0]) * loaded == {};
      for i := 0 to |evictions|
        invariant ops == old(ops) && resident == old(resident) + (Elements(evictions[..i]) * loaded)
        invariant lastUsed == Stamped(old(lastUsed), Elements(evictions[..i]) * loaded, now)
      {
        assert evictions[..i + 1] == evictions[..i] + [evictions[i]];
        assert Elements(evictions[..i + 1]) == Elements(evictions[..i]) + {evictions[i]};
        StampOne(old(lastUsed), Elements(evictions[..i]) * loaded, evictions[i], now);
        if evictions[i] in loaded {
          assert Elements(evictions[..i + 1]) * loaded == Elements(evictions[..i]) * loaded + {evictions[i]};
          resident := resident + {evictions[i]};
          lastUsed := lastUsed[evictions[i] := now];
        } else {
          assert Elements(evictions[..i + 1]) * loaded == Elements(evictions[..i]) * loaded;
        }
      }
      assert evictions[..|evictions|] == evictions;
      StampedMeans(old(lastUsed), evictions, loaded, now);
      ops := ops[thread := ops[thread].(phase := Finishing)];
    }

    method FinishLoad(ghost thread: nat, model: string)
      requires Enabled(cfg, View(), Finish(thread)) && ops[thread].model == model
      modifies this`loading, this`reserved, this`ops
      ensures View() == Apply(cfg, old(View()), Finish(thread))
      ensures loading == old(loading) - {model} && reserved == old(reserved) - cfg.size(model)
    {
      hide Used;
      loading := loading - {model};
      reserved := reserved - cfg.size(model);
      ops := ops - {thread};
    }

    /** The first locked section of an explicit unload; unloading a model that is not resident
        does nothing, and one with queued requests is refused. */
    method BeginUnload(ghost thread: nat, model: string) returns (r: Result<bool, LoadError>)
      requires thread !in ops
      modifies this`resident, this`lastUsed, this`ops
      ensures lastUsed == old(lastUsed) - if r == Success(true) then {model} else {}
      ensures r == if model in queued then Failure(QueuedRequests) else Success(model in old(resident))
      ensures r == Success(true) ==>
                && Enabled(cfg, old(View()), WorkerMemory.BeginUnload(thread, model))
                && View() == Apply(cfg, old(View()), WorkerMemory.BeginUnload(thread, model))
                && resident == old(resident) - {model}
      ensures r != Success(true) ==> View() == old(View())
    {
      hide Used;
      if model in queued {
        return Failure(QueuedRequests);
      }
      if model !in resident {
        return Success(false);
      }
      resident := resident - {model};
      lastUsed := lastUsed - {model};
      ops := ops[thread := Unload(model, false)];
      r := Success(true);
    }

    method RuntimeUnload(ghost thread: nat, model: string)
      requires Enabled(cfg, View(), WorkerMemory.RuntimeUnload(thread)) && ops[thread].model == model
      modifies this`loaded, this`ops
      ensures View() == Apply(cfg, old(View()), WorkerMemory.RuntimeUnload(thread))
      ensures loaded == old(loaded) - {model}
    {
      hide Used;
      loaded := loaded - {model};
      ops := ops - {thread};
    }

    /** Puts a model back after its explicit unload failed. */
    method RestoreUnload(ghost thread: nat, model: string, now: real)
      requires Enabled(cfg, View(), Restore(thread)) && ops[thread].Unload? && ops[thread].model == model
      modifies this`resident, this`lastUsed, this`ops
      ensures View() == Apply(cfg, old(View()), Restore(thread))
      ensures resident == old(resident) + {model} && lastUsed == old(lastUsed)[model := now]
    {
      hide Used;
      lastUsed := lastUsed[model := now];
      resident := resident + {model};
      ops := ops - {thread};
    }
  }
}
