/**
 Model residency and memory in the worker of `apps/worker/service.py` over the simulated runtime
 of `runtime/simulated_gpu/runtime.py`: loads, evictions and unloads by concurrent threads. Each
 locked section and each runtime call is one atomic step; between them the threads interleave.
 */
module WorkerMemory {
  import opened Sequences
  import opened Sums

  /** Model sizes, the device's total memory, and the bytes kept free as a safety reserve. */
  datatype Config = Config(size: string -> nat, total: nat, safety: nat)

  /** Where a load is. `Unloading(done)`: the first `done` victims have been unloaded;
      `Committing`: the runtime accepted the load and is copying weights; `Failed`: an exception
      is on its way to the handler; `Finishing`: only the final bookkeeping is left. */
  datatype Phase = Unloading(done: nat) | Committing | Warming | Publishing | Failed | Finishing

  datatype Operation =
    | Load(model: string, victims: seq<string>, phase: Phase)
    | Unload(model: string, failed: bool)

  datatype State = State(
    resident: set<string>, loaded: set<string>, loading: set<string>, reserved: int,
    queued: multiset<string>, running: multiset<string>, ops: map<nat, Operation>)

  function Init(): State {
    State({}, {}, {}, 0, multiset{}, multiset{}, map[])
  }

  // ---------------------------------------------------------------- choosing victims

  function TotalSize(cfg: Config, models: seq<string>): nat {
    if models == [] then 0 else cfg.size(models[0]) + TotalSize(cfg, models[1..])
  }

  /** Idle residents in least-recently-used order until `required` bytes would be usable. */
  function Victims(cfg: Config, order: seq<string>, busy: set<string>, usable: int, required: int): seq<string> {
    if usable >= required || order == [] then []
    else if order[0] in busy then Victims(cfg, order[1..], busy, usable, required)
    else [order[0]] + Victims(cfg, order[1..], busy, usable + cfg.size(order[0]), required)
  }

  /** The idle ones, in order. */
  function Idle(order: seq<string>, busy: set<string>): seq<string> {
    if order == [] then []
    else (if order[0] in busy then [] else [order[0]]) + Idle(order[1..], busy)
  }

  /** The victims are the idle models among the least recently used, none of them skipped, and no
      more than needed; the choice fails only when even evicting every idle model would not make
      room. */
  lemma {:induction false} VictimsAreMinimal(cfg: Config, order: seq<string>, busy: set<string>, usable: int,
                                             required: int)
    requires NoDuplicates(order)
    ensures var v := Victims(cfg, order, busy, usable, required);
            && NoDuplicates(v) && (forall m :: m in v ==> m in order && m !in busy)
            && (exists k :: 0 <= k <= |order| && v == Idle(order[..k], busy))
            && (v != [] ==> usable + TotalSize(cfg, v[..|v| - 1]) < required)
            && (usable + TotalSize(cfg, v) < required ==> forall m :: m in order && m !in busy ==> m in v)
  {
    hide Idle;
    VictimsAreOldest(cfg, order, busy, usable, required);
    if usable < required && order != [] {
      var head, rest := order[0], order[1..];
      assert order == [head] + rest;
      if head in busy {
        VictimsAreMinimal(cfg, rest, busy, usable, required);
      } else {
        VictimsAreMinimal(cfg, rest, busy, usable + cfg.size(head), required);
        var later := Victims(cfg, rest, busy, usable + cfg.size(head), required);
        var v := [head] + later;
        assert head !in rest;
        ConcatNoDuplicates([head], later);
        assert v[1..] == later;
        if later != [] {
          assert v[..|v| - 1] == [head] + later[..|later| - 1];
          assert ([head] + later[..|later| - 1])[1..] == later[..|later| - 1];
        } else {
          assert v[..0] == [];
        }
      }
    }
  }

  lemma {:induction false} VictimsAreOldest(cfg: Config, order: seq<string>, busy: set<string>, usable: int,
                                            required: int)
    ensures exists k :: 0 <= k <= |order| && Victims(cfg, order, busy, usable, required) == Idle(order[..k], busy)
  {
    if usable >= required || order == [] {
      assert Victims(cfg, order, busy, usable, required) == Idle(order[..0], busy);
    } else {
      var head, rest := order[0], order[1..];
      assert order == [head] + rest;
      var more := if head in busy then usable else usable + cfg.size(head);
      VictimsAreOldest(cfg, rest, busy, more, required);
      var k :| 0 <= k <= |rest| && Victims(cfg, rest, busy, more, required) == Idle(rest[..k], busy);
      IdleCons(head, rest, k, busy);
      assert Victims(cfg, order, busy, usable, required) == Idle(order[..k + 1], busy);
    }
  }

  lemma IdleCons(head: string, rest: seq<string>, k: nat, busy: set<string>)
    requires k <= |rest|
    ensures Idle(([head] + rest)[..k + 1], busy) == (if head in busy then [] else [head]) + Idle(rest[..k], busy)
  {
    assert ([head] + rest)[..k + 1] == [head] + rest[..k];
    assert ([head] + rest[..k])[1..] == rest[..k];
  }

  // ---------------------------------------------------------------- least recently used first

  /** `a` comes before `b` in the order of their characters. */
  predicate Lexical(a: string, b: string) {
    b != [] && (a == [] || a[0] < b[0] || (a[0] == b[0] && Lexical(a[1..], b[1..])))
  }

  lemma {:induction false} LexicalIsTotal(a: string, b: string)
    ensures Lexical(a, b) || Lexical(b, a) || a == b
    ensures !(Lexical(a, b) && Lexical(b, a))
  {
    if a != [] && b != [] {
      LexicalIsTotal(a[1..], b[1..]);
      assert a == [a[0]] + a[1..] && b == [b[0]] + b[1..];
    }
  }

  lemma {:induction false} LexicalIsTransitive(a: string, b: string, c: string)
    requires Lexical(a, b) && Lexical(b, c)
    ensures Lexical(a, c)
  {
    if a != [] && a[0] == b[0] == c[0] {
      LexicalIsTransitive(a[1..], b[1..], c[1..]);
    }
  }

  /** The order of strings: at the first place where they differ, or where `a` ends. */
  lemma {:induction false} LexicalMeans(a: string, b: string)
    ensures Lexical(a, b) <==>
              exists k: nat :: k <= |a| && k < |b| && a[..k] == b[..k] && (k == |a| || a[k] < b[k])
  {
    if a != [] && b != [] && a[0] == b[0] {
      LexicalMeans(a[1..], b[1..]);
      if Lexical(a, b) {
        var k: nat :| k <= |a[1..]| && k < |b[1..]| && a[1..][..k] == b[1..][..k]
                      && (k == |a[1..]| || a[1..][k] < b[1..][k]);
        assert a[..k + 1] == [a[0]] + a[1..][..k] && b[..k + 1] == [b[0]] + b[1..][..k];
      }
      if k: nat :| k <= |a| && k < |b| && a[..k] == b[..k] && (k == |a| || a[k] < b[k]) {
        assert k > 0;
        assert a[1..][..k - 1] == a[..k][1..] && b[1..][..k - 1] == b[..k][1..];
      }
    } else {
      assert a[..0] == b[..0];
      assert forall k: nat :: 0 < k <= |a| && k <= |b| && a[..k] == b[..k] ==> a[..k][0] == b[..k][0];
    }
  }

  function LastUse(used: map<string, real>, model: string): real {
    if model in used then used[model] else 0.0
  }

  /** Used longer ago; ties are broken by name. */
  predicate Older(used: map<string, real>, a: string, b: string) {
    LastUse(used, a) < LastUse(used, b) || (LastUse(used, a) == LastUse(used, b) && Lexical(a, b))
  }

  /** A model without a time counts as used at time zero. */
  lemma OlderMeans(used: map<string, real>, a: string, b: string)
    ensures Older(used, a, b) ==>
              var x, y := if a in used then used[a] else 0.0, if b in used then used[b] else 0.0;
              x < y || (x == y && Lexical(a, b))
  {}

  lemma OlderIsTotal(used: map<string, real>, a: string, b: string)
    ensures Older(used, a, b) || Older(used, b, a) || a == b
    ensures !(Older(used, a, b) && Older(used, b, a))
  {
    LexicalIsTotal(a, b);
  }

  lemma OlderIsTransitive(used: map<string, real>, a: string, b: string, c: string)
    requires Older(used, a, b) && Older(used, b, c)
    ensures Older(used, a, c)
  {
    if LastUse(used, a) == LastUse(used, b) == LastUse(used, c) {
      LexicalIsTransitive(a, b, c);
    }
  }

  ghost predicate ByLastUse(used: map<string, real>, order: seq<string>) {
    forall i, j :: 0 <= i < j < |order| ==> Older(used, order[i], order[j])
  }

  method LeastRecentlyUsed(used: map<string, real>, models: set<string>) returns (oldest: string)
    requires models != {}
    ensures oldest in models && forall m :: m in models && m != oldest ==> Older(used, oldest, m)
  {
    var rest := models;
    oldest :| oldest in rest;
    rest := rest - {oldest};
    while rest != {}
      invariant rest <= models && oldest in models - rest
      invariant forall m :: m in models - rest && m != oldest ==> Older(used, oldest, m)
      decreases |rest|
    {
      var m :| m in rest;
      OlderIsTotal(used, m, oldest);
      if Older(used, m, oldest) {
        forall x | x in models - rest && x != oldest
          ensures Older(used, m, x)
        {
          OlderIsTransitive(used, m, oldest, x);
        }
        oldest := m;
      }
      rest := rest - {m};
    }
  }

  /** The residents sorted by last use. */
  method SortByLastUse(used: map<string, real>, models: set<string>) returns (order: seq<string>)
    ensures NoDuplicates(order) && Elements(order) == models && ByLastUse(used, order)
    ensures forall i, j :: 0 <= i < j < |order| ==>
              var x := if order[i] in used then used[order[i]] else 0.0;
              var y := if order[j] in used then used[order[j]] else 0.0;
              x < y || (x == y && Lexical(order[i], order[j]))
  {
    order := TakeOldestFirst(used, models);
    SortedMeans(used, order);
  }

  method TakeOldestFirst(used: map<string, real>, models: set<string>) returns (order: seq<string>)
    ensures NoDuplicates(order) && Elements(order) == models && ByLastUse(used, order)
  {
    hide Older, ByLastUse, NoDuplicates;
    order := [];
    var rest := models;
    NothingSorted(used);
    while rest != {}
      invariant Elements(order) + rest == models && NoDuplicates(order) && ByLastUse(used, order)
      invariant forall a, b :: a in order && b in rest ==> a != b && Older(used, a, b)
      decreases |rest|
    {
      var m := LeastRecentlyUsed(used, rest);
      ByLastUseAppend(used, order, m);
      order := order + [m];
      rest := rest - {m};
    }
  }

  lemma SortedMeans(used: map<string, real>, order: seq<string>)
    requires ByLastUse(used, order)
    ensures forall i, j :: 0 <= i < j < |order| ==>
              var x := if order[i] in used then used[order[i]] else 0.0;
              var y := if order[j] in used then used[order[j]] else 0.0;
              x < y || (x == y && Lexical(order[i], order[j]))
  {
    hide Older;
    forall i, j | 0 <= i < j < |order|
      ensures var x := if order[i] in used then used[order[i]] else 0.0;
              var y := if order[j] in used then used[order[j]] else 0.0;
              x < y || (x == y && Lexical(order[i], order[j]))
    {
      OlderMeans(used, order[i], order[j]);
    }
  }

  lemma NothingSorted(used: map<string, real>)
    ensures NoDuplicates<string>([]) && ByLastUse(used, [])
  {}

  lemma ByLastUseAppend(used: map<string, real>, order: seq<string>, m: string)
    requires NoDuplicates(order) && ByLastUse(used, order) && forall a :: a in order ==> a != m && Older(used, a, m)
    ensures NoDuplicates(order + [m]) && ByLastUse(used, order + [m])
    ensures Elements(order + [m]) == Elements(order) + {m}
  {
    hide Older;
    ConcatNoDuplicates(order, [m]);
    forall i, j | 0 <= i < j < |order + [m]|
      ensures Older(used, (order + [m])[i], (order + [m])[j])
    {
      assert j < |order| || (order + [m])[i] in order;
    }
  }

  // ---------------------------------------------------------------- the right victims

  /** No idle model is left in place that was used longer ago than a victim, or as long ago with a name
      that comes before the victim's. */
  ghost predicate OldestGo(used: map<string, real>, models: set<string>, busy: set<string>, victims: seq<string>) {
    forall v, m :: v in victims && m in models && m !in busy && m !in victims ==>
      var x, y := if v in used then used[v] else 0.0, if m in used then used[m] else 0.0;
      x < y || (x == y && Lexical(v, m))
  }

  lemma {:induction false} IdleMembers(order: seq<string>, busy: set<string>)
    ensures forall m :: m in Idle(order, busy) <==> m in order && m !in busy
  {
    if order != [] {
      IdleMembers(order[1..], busy);
      assert order == [order[0]] + order[1..];
    }
  }

  /** Taking idle models from the front of the sorted order takes the oldest. */
  lemma FrontIsOldest(used: map<string, real>, order: seq<string>, busy: set<string>, k: nat)
    requires k <= |order| && ByLastUse(used, order)
    ensures OldestGo(used, Elements(order), busy, Idle(order[..k], busy))
  {
    hide ByLastUse, Older, Idle;
    IdleMembers(order[..k], busy);
    SortedMeans(used, order);
    assert forall j :: 0 <= j < k ==> order[j] in order[..k];
    forall v, m | v in Idle(order[..k], busy) && m in Elements(order) && m !in busy && m !in Idle(order[..k], busy)
      ensures var x, y := if v in used then used[v] else 0.0, if m in used then used[m] else 0.0;
              x < y || (x == y && Lexical(v, m))
    {
      var i :| 0 <= i < k && order[..k][i] == v;
      var j :| 0 <= j < |order| && order[j] == m;
    }
  }

  /** There is room enough exactly when evicting every idle model would make it. */
  lemma {:induction false} VictimsSuffice(cfg: Config, order: seq<string>, busy: set<string>, usable: int,
                                          required: int)
    ensures usable + TotalSize(cfg, Victims(cfg, order, busy, usable, required)) >= required <==>
            usable + TotalSize(cfg, Idle(order, busy)) >= required
  {
    hide TotalSize;
    if usable < required && order != [] {
      var head, rest := order[0], order[1..];
      var more := if head in busy then usable else usable + cfg.size(head);
      VictimsSuffice(cfg, rest, busy, more, required);
      SizesAddUp(cfg, head, Victims(cfg, rest, busy, more, required));
      SizesAddUp(cfg, head, Idle(rest, busy));
      assert [] + Idle(rest, busy) == Idle(rest, busy);
    } else if order == [] {
      assert Idle(order, busy) == Victims(cfg, order, busy, usable, required);
    }
  }

  lemma SizesAddUp(cfg: Config, head: string, rest: seq<string>)
    ensures TotalSize(cfg, [head] + rest) == cfg.size(head) + TotalSize(cfg, rest)
  {
    assert ([head] + rest)[1..] == rest;
  }

  ghost function IdleSizes(cfg: Config, models: set<string>, busy: set<string>): map<string, int> {
    map m | m in models && m !in busy :: cfg.size(m)
  }

  lemma {:induction false} IdleSum(cfg: Config, order: seq<string>, busy: set<string>)
    requires NoDuplicates(order)
    ensures TotalSize(cfg, Idle(order, busy)) == Sum(IdleSizes(cfg, Elements(order), busy))
  {
    hide TotalSize, Sum;
    if order == [] {
      assert IdleSizes(cfg, Elements(order), busy) == map[];
      NoSizes(cfg);
    } else {
      var head, rest := order[0], order[1..];
      assert order == [head] + rest && head !in rest;
      IdleSum(cfg, rest, busy);
      IdleSizesAdd(cfg, head, rest, busy);
      SizesAddUp(cfg, head, Idle(rest, busy));
      if head !in busy {
        SumInsert(IdleSizes(cfg, Elements(rest), busy), head, cfg.size(head));
      }
      assert [] + Idle(rest, busy) == Idle(rest, busy);
    }
  }

  lemma NoSizes(cfg: Config)
    ensures TotalSize(cfg, []) == 0 == Sum<string>(map[])
  {}

  lemma IdleSizesAdd(cfg: Config, head: string, rest: seq<string>, busy: set<string>)
    requires head !in rest
    ensures head !in IdleSizes(cfg, Elements(rest), busy)
    ensures IdleSizes(cfg, Elements([head] + rest), busy) ==
            if head in busy then IdleSizes(cfg, Elements(rest), busy)
            else IdleSizes(cfg, Elements(rest), busy)[head := cfg.size(head)]
  {}

  /** Who is evicted, and whether a load can begin: the idle models used longest ago go, no more than
      needed, and the load is possible exactly if evicting all idle models would make room. */
  lemma VictimsAreRight(cfg: Config, used: map<string, real>, order: seq<string>, busy: set<string>, usable: int,
                        required: int)
    requires NoDuplicates(order) && ByLastUse(used, order)
    ensures var v := Victims(cfg, order, busy, usable, required);
            && OldestGo(used, Elements(order), busy, v)
            && (forall m :: m in v ==> m in order && m !in busy) && NoDuplicates(v)
            && (v != [] ==> usable + TotalSize(cfg, v[..|v| - 1]) < required)
            && (usable + TotalSize(cfg, v) >= required <==>
                  usable + Sum(IdleSizes(cfg, Elements(order), busy)) >= required)
  {
    hide Victims, Idle, TotalSize, OldestGo, ByLastUse;
    VictimsAreMinimal(cfg, order, busy, usable, required);
    VictimsSuffice(cfg, order, busy, usable, required);
    IdleSum(cfg, order, busy);
    var k :| 0 <= k <= |order| && Victims(cfg, order, busy, usable, required) == Idle(order[..k], busy);
    FrontIsOldest(used, order, busy, k);
  }

  // ---------------------------------------------------------------- the selection

  /** The selection loop; `order` is the residents sorted by last use. */
  method SelectVictims(cfg: Config, order: seq<string>, busy: set<string>, initial: int, required: int)
    returns (evictions: seq<string>, usable: int)
    ensures evictions == Victims(cfg, order, busy, initial, required)
    ensures usable == initial + TotalSize(cfg, evictions)
  {
    hide Victims, TotalSize;
    evictions, usable := [], initial;
    NothingChosen(cfg, order, busy, initial, required);
    if usable < required {
      var i := 0;
      while i < |order| && usable < required
        invariant i <= |order|
        invariant evictions + Victims(cfg, order[i..], busy, usable, required)
               == Victims(cfg, order, busy, initial, required)
        invariant usable == initial + TotalSize(cfg, evictions)
      {
        var id := order[i];
        VictimsGoOn(cfg, order, i, busy, usable, required);
        if id !in busy {
          TotalSizeAppend(cfg, evictions, id);
          evictions := evictions + [id];
          usable := usable + cfg.size(id);
        }
        i := i + 1;
      }
      NothingChosen(cfg, order[i..], busy, usable, required);
    }
  }

  lemma NothingChosen(cfg: Config, order: seq<string>, busy: set<string>, usable: int, required: int)
    ensures order == [] || usable >= required ==> Victims(cfg, order, busy, usable, required) == []
    ensures TotalSize(cfg, []) == 0 && order[0..] == order
  {}

  lemma VictimsGoOn(cfg: Config, order: seq<string>, i: nat, busy: set<string>, usable: int, required: int)
    requires i < |order| && usable < required
    ensures Victims(cfg, order[i..], busy, usable, required) ==
            if order[i] in busy then Victims(cfg, order[i + 1..], busy, usable, required)
            else [order[i]] + Victims(cfg, order[i + 1..], busy, usable + cfg.size(order[i]), required)
  {
    assert order[i..][0] == order[i] && order[i..][1..] == order[i + 1..];
  }

  lemma {:induction false} TotalSizeAppend(cfg: Config, models: seq<string>, m: string)
    ensures TotalSize(cfg, models + [m]) == TotalSize(cfg, models) + cfg.size(m)
  {
    if models == [] {
      assert [m][1..] == [];
    } else {
      TotalSizeAppend(cfg, models[1..], m);
      assert (models + [m])[1..] == models[1..] + [m];
    }
  }

  // ---------------------------------------------------------------- steps

  /** `thread` numbers the in-flight operations. `Begin` and `BeginUnload` are the first locked
      sections; `order` are the residents in the order in which victims are looked for. `StartBatch`
      and `EndBatch` are those of the batch executor. */
  datatype Step =
    | Begin(thread: nat, model: string, order: seq<string>)
    | UnloadVictim(thread: nat)
    | Check(thread: nat)
    | Commit(thread: nat)
    | Warm(thread: nat)
    | Fail(thread: nat)
    | Publish(thread: nat)
    | Restore(thread: nat)
    | Finish(thread: nat)
    | BeginUnload(thread: nat, model: string)
    | RuntimeUnload(thread: nat)
    | Enqueue(model: string)
    | Dequeue(model: string)
    | StartBatch(model: string, count: nat)
    | EndBatch(model: string, count: nat)

  ghost function Used(cfg: Config, loaded: set<string>): int {
    Sum(map m | m in loaded :: cfg.size(m))
  }

  ghost function Usable(cfg: Config, s: State): int {
    cfg.total - Used(cfg, s.loaded) - s.reserved - cfg.safety
  }

  ghost function Chosen(cfg: Config, s: State, step: Step): seq<string>
    requires step.Begin?
  {
    Victims(cfg, step.order, Busy(s), Usable(cfg, s), cfg.size(step.model))
  }

  /** The models with queued or running requests. */
  ghost function Busy(s: State): set<string> {
    set m | m in s.queued + s.running
  }

  ghost predicate InPhase(s: State, thread: nat, phases: set<Phase>) {
    thread in s.ops && s.ops[thread].Load? && s.ops[thread].phase in phases
  }

  ghost predicate Enabled(cfg: Config, s: State, step: Step) {
    match step
    case Begin(f, m, order) =>
      && f !in s.ops && m !in s.resident && m !in s.loading
      && NoDuplicates(order) && Elements(order) == s.resident
      && Usable(cfg, s) + TotalSize(cfg, Chosen(cfg, s, step)) >= cfg.size(m)
    case UnloadVictim(f) =>
      f in s.ops && s.ops[f].Load? && s.ops[f].phase.Unloading? && s.ops[f].phase.done < |s.ops[f].victims|
    case Check(f) =>
      f in s.ops && s.ops[f].Load? && s.ops[f].phase == Unloading(|s.ops[f].victims|)
    case Commit(f) => InPhase(s, f, {Committing})
    case Warm(f) => InPhase(s, f, {Warming}) && s.ops[f].model in s.loaded
    case Fail(f) =>
      f in s.ops && (if s.ops[f].Load? then s.ops[f].phase.Unloading? || s.ops[f].phase in {Committing, Warming}
                     else !s.ops[f].failed)
    case Publish(f) => InPhase(s, f, {Publishing})
    case Restore(f) => InPhase(s, f, {Failed}) || (f in s.ops && s.ops[f].Unload? && s.ops[f].failed)
    case Finish(f) => InPhase(s, f, {Finishing})
    case BeginUnload(f, m) => f !in s.ops && m !in s.queued && m in s.resident
    case RuntimeUnload(f) => f in s.ops && s.ops[f].Unload? && !s.ops[f].failed
    case Enqueue(m) => m in s.resident
    case Dequeue(m) => m in s.queued
    case StartBatch(m, n) => 0 < n <= s.queued[m]
    case EndBatch(m, n) => 0 < n <= s.running[m]
  }

  ghost function Advance(s: State, thread: nat, phase: Phase): State
    requires thread in s.ops && s.ops[thread].Load?
  {
    s.(ops := s.ops[thread := s.ops[thread].(phase := phase)])
  }

  ghost function Apply(cfg: Config, s: State, step: Step): State
    requires Enabled(cfg, s, step)
  {
    match step
    case Begin(f, m, order) =>
      var victims := Chosen(cfg, s, step);
      s.(resident := s.resident - Elements(victims), loading := s.loading + {m},
         reserved := s.reserved + cfg.size(m), ops := s.ops[f := Load(m, victims, Unloading(0))])
    case UnloadVictim(f) =>
      var done := s.ops[f].phase.done;
      Advance(s.(loaded := s.loaded - {s.ops[f].victims[done]}), f, Unloading(done + 1))
    case Check(f) =>
      var m := s.ops[f].model;
      Advance(s, f, if m in s.loaded then Warming
                    else if cfg.size(m) > cfg.total - Used(cfg, s.loaded) then Failed
                    else Committing)
    case Commit(f) => Advance(s.(loaded := s.loaded + {s.ops[f].model}), f, Warming)
    case Warm(f) => Advance(s, f, Publishing)
    case Fail(f) =>
      if s.ops[f].Load? then Advance(s, f, Failed)
      else s.(ops := s.ops[f := s.ops[f].(failed := true)])
    case Publish(f) => Advance(s.(resident := s.resident + {s.ops[f].model}), f, Finishing)
    case Restore(f) =>
      if s.ops[f].Load? then
        Advance(s.(resident := s.resident + (Elements(s.ops[f].victims) * s.loaded)), f, Finishing)
      else
        s.(resident := s.resident + {s.ops[f].model}, ops := s.ops - {f})
    case Finish(f) =>
      s.(loading := s.loading - {s.ops[f].model}, reserved := s.reserved - cfg.size(s.ops[f].model), ops := s.ops - {f})
    case BeginUnload(f, m) => s.(resident := s.resident - {m}, ops := s.ops[f := Unload(m, false)])
    case RuntimeUnload(f) => s.(loaded := s.loaded - {s.ops[f].model}, ops := s.ops - {f})
    case Enqueue(m) => s.(queued := s.queued + multiset{m})
    case Dequeue(m) => s.(queued := s.queued - multiset{m})
    case StartBatch(m, n) =>
      s.(queued := s.queued[m := s.queued[m] - n], running := s.running[m := s.running[m] + n])
    case EndBatch(m, n) => s.(running := s.running[m := s.running[m] - n])
  }

  // ---------------------------------------------------------------- what every step keeps

  /** Models an operation has taken out of residency and may still unload or put back. */
  ghost function Held(op: Operation): set<string> {
    match op
    case Load(_, victims, phase) => if phase in {Publishing, Finishing} then {} else Elements(victims)
    case Unload(m, _) => {m}
  }

  /** The model a load is still going to make resident. */
  ghost function Target(op: Operation): set<string> {
    if op.Load? && op.phase != Finishing then {op.model} else {}
  }

  /** The condition the worker does not enforce: nothing in flight still holds the model. */
  ghost predicate Guarded(s: State, step: Step) {
    step.Begin? ==> forall f :: f in s.ops ==> step.model !in Held(s.ops[f])
  }

  ghost function Reservations(cfg: Config, ops: map<nat, Operation>): map<nat, int> {
    map f | f in ops :: if ops[f].Load? then cfg.size(ops[f].model) else 0
  }

  /** One in-flight load per model, and reserved bytes are the sum over in-flight loads. */
  ghost predicate Accounting(cfg: Config, s: State) {
    && (forall f :: f in s.ops && s.ops[f].Load? ==> s.ops[f].model in s.loading)
    && (forall m :: m in s.loading ==> exists f :: f in s.ops && s.ops[f].Load? && s.ops[f].model == m)
    && (forall f, g :: f in s.ops && g in s.ops && f != g && s.ops[f].Load? && s.ops[g].Load? ==>
          s.ops[f].model != s.ops[g].model)
    && s.reserved == Sum(Reservations(cfg, s.ops))
  }

  /** A load that got as far as warming up has its model loaded; victims not yet unloaded and
      models about to be unloaded are still loaded. */
  ghost predicate OnTrack(op: Operation, loaded: set<string>) {
    match op
    case Unload(m, _) => m in loaded
    case Load(m, victims, phase) =>
      && NoDuplicates(victims)
      && (phase in {Warming, Publishing} ==> m in loaded)
      && (phase.Unloading? ==>
            phase.done <= |victims| && forall v :: v in victims[phase.done..] ==> v in loaded)
  }

  /** No model is resident, held or a target in two places at once. */
  ghost predicate Disjoint(resident: set<string>, ops: map<nat, Operation>) {
    && (forall f, m :: f in ops && m in Held(ops[f]) ==> m !in resident)
    && (forall f, m :: f in ops && m in Target(ops[f]) ==> m !in resident)
    && (forall f, g, m :: f in ops && g in ops && m in Target(ops[f]) ==> m !in Held(ops[g]))
    && (forall f, g, m :: f in ops && g in ops && f != g && m in Held(ops[f]) ==> m !in Held(ops[g]))
    && (forall f, g, m :: f in ops && g in ops && f != g && m in Target(ops[f]) ==> m !in Target(ops[g]))
  }

  ghost predicate AllOnTrack(ops: map<nat, Operation>, loaded: set<string>) {
    forall f :: f in ops ==> OnTrack(ops[f], loaded)
  }

  /** Residents are loaded, and queued requests have resident models. */
  ghost predicate Residency(s: State) {
    && s.resident <= s.loaded
    && (forall m :: m in s.queued ==> m in s.resident)
    && AllOnTrack(s.ops, s.loaded) && Disjoint(s.resident, s.ops)
  }

  /** Memory an operation may still add beyond what its pending unloads will free. */
  ghost function Claim(cfg: Config, op: Operation): nat {
    if op.Unload? then 0
    else match op.phase
      case Unloading(done) =>
        if done > |op.victims| then 0
        else
          var rest := TotalSize(cfg, op.victims[done..]);
          if cfg.size(op.model) > rest then cfg.size(op.model) - rest else 0
      case Committing => cfg.size(op.model)
      case _ => 0
  }

  ghost function Claims(cfg: Config, ops: map<nat, Operation>): map<nat, int> {
    map f | f in ops :: Claim(cfg, ops[f])
  }

  ghost function Limit(cfg: Config): nat {
    if cfg.total > cfg.safety then cfg.total - cfg.safety else 0
  }

  ghost predicate Memory(cfg: Config, s: State) {
    Used(cfg, s.loaded) + Sum(Claims(cfg, s.ops)) <= Limit(cfg)
  }

  // ---------------------------------------------------------------- accounting, in every interleaving

  lemma ReservationsAfter(cfg: Config, ops: map<nat, Operation>, f: nat, op: Operation)
    ensures f in ops ==> Sum(Reservations(cfg, ops[f := op])) == Sum(Reservations(cfg, ops))
                           - Reservations(cfg, ops)[f] + (if op.Load? then cfg.size(op.model) else 0)
    ensures f !in ops ==> Sum(Reservations(cfg, ops[f := op])) == Sum(Reservations(cfg, ops))
                           + (if op.Load? then cfg.size(op.model) else 0)
    ensures f in ops ==> Sum(Reservations(cfg, ops - {f})) == Sum(Reservations(cfg, ops)) - Reservations(cfg, ops)[f]
  {
    var r := Reservations(cfg, ops);
    var v := if op.Load? then cfg.size(op.model) else 0;
    assert Reservations(cfg, ops[f := op]) == r[f := v];
    if f in ops {
      SumUpdate(r, f, v);
      SumRemove(r, f);
      assert Reservations(cfg, ops - {f}) == r - {f};
    } else {
      SumInsert(r, f, v);
    }
  }

  ghost predicate SameModel(a: Operation, b: Operation) {
    if a.Load? then b.Load? && a.model == b.model else b.Unload?
  }

  lemma AdvanceKeepsAccounting(cfg: Config, s: State, f: nat, op: Operation)
    requires Accounting(cfg, s) && f in s.ops && SameModel(s.ops[f], op)
    ensures Accounting(cfg, s.(ops := s.ops[f := op]))
  {
    hide Reservations;
    SameReservation(cfg, s.ops, f, op);
    var ops := s.ops[f := op];
    forall m | m in s.loading
      ensures exists g :: g in ops && ops[g].Load? && ops[g].model == m
    {
      var g :| g in s.ops && s.ops[g].Load? && s.ops[g].model == m;
      assert g in ops && ops[g].Load? && ops[g].model == m;
    }
    assert forall g :: g in ops ==> g in s.ops && SameModel(s.ops[g], ops[g]);
  }

  lemma SameReservation(cfg: Config, ops: map<nat, Operation>, f: nat, op: Operation)
    requires f in ops && SameModel(ops[f], op)
    ensures Sum(Reservations(cfg, ops[f := op])) == Sum(Reservations(cfg, ops))
  {
    ReservationsAfter(cfg, ops, f, op);
  }

  lemma InsertKeepsAccounting(cfg: Config, s: State, f: nat, op: Operation)
    requires Accounting(cfg, s) && f !in s.ops && (op.Load? ==> op.model !in s.loading)
    ensures Accounting(cfg, s.(
              loading := if op.Load? then s.loading + {op.model} else s.loading,
              reserved := s.reserved + (if op.Load? then cfg.size(op.model) else 0), ops := s.ops[f := op]))
  {
    ReservationsAfter(cfg, s.ops, f, op);
    var ops := s.ops[f := op];
    assert ops[f] == op;
    forall m | m in s.loading
      ensures exists g :: g in ops && ops[g].Load? && ops[g].model == m
    {
      var g :| g in s.ops && s.ops[g].Load? && s.ops[g].model == m;
      assert g in ops && ops[g] == s.ops[g];
    }
  }

  lemma RemoveKeepsAccounting(cfg: Config, s: State, f: nat)
    requires Accounting(cfg, s) && f in s.ops
    ensures var op := s.ops[f];
            Accounting(cfg, s.(
              loading := if op.Load? then s.loading - {op.model} else s.loading,
              reserved := s.reserved - (if op.Load? then cfg.size(op.model) else 0), ops := s.ops - {f}))
  {
    ReservationsAfter(cfg, s.ops, f, s.ops[f]);
    var ops := s.ops - {f};
    forall m | m in s.loading && !(s.ops[f].Load? && s.ops[f].model == m)
      ensures exists g :: g in ops && ops[g].Load? && ops[g].model == m
    {
      var g :| g in s.ops && s.ops[g].Load? && s.ops[g].model == m;
      assert g in ops && ops[g] == s.ops[g];
    }
  }

  /** Accounting only looks at operations, loading models and the reservation counter. */
  lemma AccountingFrame(cfg: Config, s: State, t: State)
    requires Accounting(cfg, s) && s.ops == t.ops && s.loading == t.loading && s.reserved == t.reserved
    ensures Accounting(cfg, t)
  {}

  /** Needs no guard: holds in every interleaving whatever fails. */
  lemma AccountingStep(cfg: Config, s: State, step: Step)
    requires Accounting(cfg, s) && Enabled(cfg, s, step)
    ensures Accounting(cfg, Apply(cfg, s, step))
  {
    hide Accounting, Victims;
    var t := Apply(cfg, s, step);
    match step
    case Begin(f, m, order) =>
      InsertKeepsAccounting(cfg, s, f, t.ops[f]);
      AccountingFrame(cfg, s.(loading := t.loading, reserved := t.reserved, ops := t.ops), t);
    case BeginUnload(f, m) =>
      InsertKeepsAccounting(cfg, s, f, t.ops[f]);
      AccountingFrame(cfg, s.(ops := t.ops), t);
    case RuntimeUnload(f) =>
      RemoveKeepsAccounting(cfg, s, f);
      AccountingFrame(cfg, s.(ops := t.ops), t);
    case Finish(f) => RemoveKeepsAccounting(cfg, s, f);
    case Enqueue(m) => AccountingFrame(cfg, s, t);
    case Dequeue(m) => AccountingFrame(cfg, s, t);
    case StartBatch(m, n) => AccountingFrame(cfg, s, t);
    case EndBatch(m, n) => AccountingFrame(cfg, s, t);
    case _ =>
      var f := step.thread;
      if s.ops[f].Unload? && step.Restore? {
        RemoveKeepsAccounting(cfg, s, f);
        AccountingFrame(cfg, s.(ops := t.ops), t);
      } else {
        AdvanceKeepsAccounting(cfg, s, f, t.ops[f]);
        AccountingFrame(cfg, s.(ops := t.ops), t);
      }
  }

  // ---------------------------------------------------------------- residency, under the guard

  lemma ChosenFacts(cfg: Config, s: State, step: Step)
    requires step.Begin? && Enabled(cfg, s, step)
    ensures NoDuplicates(Chosen(cfg, s, step))
    ensures forall m :: m in Chosen(cfg, s, step) ==> m in s.resident && m !in s.queued && m !in s.running
  {
    VictimsAreMinimal(cfg, step.order, Busy(s), Usable(cfg, s), cfg.size(step.model));
  }

  lemma HoldMore(resident: set<string>, ops: map<nat, Operation>, f: nat, op: Operation)
    requires Disjoint(resident, ops) && f !in ops && Held(op) <= resident
    requires forall m :: m in Target(op) ==> m !in resident
    requires forall g, m :: g in ops && m in Target(op) ==> m !in Held(ops[g]) && m !in Target(ops[g])
    ensures Disjoint(resident - Held(op), ops[f := op])
  {
    hide Held, Target;
  }

  lemma HoldLess(resident: set<string>, ops: map<nat, Operation>, f: nat, op: Operation)
    requires Disjoint(resident, ops) && f in ops
    requires Held(op) <= Held(ops[f]) && Target(op) <= Target(ops[f])
    ensures Disjoint(resident, ops[f := op])
  {
    hide Held, Target;
  }

  lemma LetGo(resident: set<string>, ops: map<nat, Operation>, f: nat, back: set<string>)
    requires Disjoint(resident, ops) && f in ops && back <= Held(ops[f]) + Target(ops[f])
    ensures Disjoint(resident + back, ops - {f})
  {
    hide Held, Target;
  }

  lemma HoldNothing(resident: set<string>, ops: map<nat, Operation>, f: nat, op: Operation)
    requires Disjoint(resident, ops - {f}) && f in ops && Held(op) == {} && Target(op) == {}
    ensures Disjoint(resident, ops[f := op])
  {
    hide Held, Target;
    assert forall g :: g in ops - {f} ==> (ops - {f})[g] == ops[g];
  }

  lemma BeginKeepsResidency(cfg: Config, s: State, step: Step)
    requires Residency(s) && Accounting(cfg, s) && step.Begin? && Enabled(cfg, s, step) && Guarded(s, step)
    ensures Residency(Apply(cfg, s, step))
  {
    hide Victims, Reservations, Usable, Disjoint;
    ChosenFacts(cfg, s, step);
    var op := Load(step.model, Chosen(cfg, s, step), Unloading(0));
    HoldMore(s.resident, s.ops, step.thread, op);
    assert op.victims[0..] == op.victims;
  }

  /** Unloading a model that only operation `f` holds. */
  lemma UnloadKeepsOnTrack(s: State, f: nat, m: string)
    requires Residency(s) && f in s.ops && m in Held(s.ops[f])
    ensures s.resident <= s.loaded - {m}
    ensures AllOnTrack(s.ops - {f}, s.loaded - {m})
  {
    forall g | g in s.ops && g != f
      ensures OnTrack(s.ops[g], s.loaded - {m})
    {
      var op := s.ops[g];
      assert m !in Held(op) && m !in Target(op);
      if op.Load? && op.phase.Unloading? {
        assert forall v :: v in op.victims[op.phase.done..] ==> v in op.victims;
      }
    }
  }

  lemma UnloadVictimKeepsResidency(cfg: Config, s: State, f: nat)
    requires Residency(s) && Enabled(cfg, s, UnloadVictim(f))
    ensures Residency(Apply(cfg, s, UnloadVictim(f)))
  {
    var op := s.ops[f];
    var m := op.victims[op.phase.done];
    var next := op.(phase := Unloading(op.phase.done + 1));
    UnloadKeepsOnTrack(s, f, m);
    hide Disjoint;
    assert op.victims[op.phase.done..] == [m] + op.victims[op.phase.done + 1..];
    VictimsDistinct(op.victims, op.phase.done);
    assert OnTrack(next, s.loaded - {m});
    HoldLess(s.resident, s.ops, f, next);
    assert forall g :: g in s.ops && g != f ==> g in s.ops - {f};
  }

  lemma VictimsDistinct(victims: seq<string>, i: nat)
    requires NoDuplicates(victims) && i < |victims|
    ensures victims[i] !in victims[i + 1..]
  {}

  lemma RuntimeUnloadKeepsResidency(cfg: Config, s: State, f: nat)
    requires Residency(s) && Enabled(cfg, s, RuntimeUnload(f))
    ensures Residency(Apply(cfg, s, RuntimeUnload(f)))
  {
    UnloadKeepsOnTrack(s, f, s.ops[f].model);
    LetGo(s.resident, s.ops, f, {});
    assert s.resident + {} == s.resident;
  }

  /** A load moving on: what it holds and targets only shrinks. */
  lemma AdvanceKeepsResidency(s: State, f: nat, op: Operation, loaded: set<string>)
    requires Residency(s) && f in s.ops && s.loaded <= loaded && OnTrack(op, loaded)
    requires Held(op) <= Held(s.ops[f]) && Target(op) <= Target(s.ops[f])
    ensures Residency(s.(loaded := loaded, ops := s.ops[f := op]))
  {
    hide NoDuplicates, Disjoint, Held, Target;
    HoldLess(s.resident, s.ops, f, op);
  }

  /** The publishing and restoring sections give models back to residency. */
  lemma ReturnKeepsResidency(s: State, f: nat, back: set<string>)
    requires Residency(s) && f in s.ops && back <= (Held(s.ops[f]) + Target(s.ops[f])) * s.loaded
    ensures Residency(s.(resident := s.resident + back, ops := s.ops - {f}))
    ensures s.ops[f].Load? ==>
              Residency(s.(resident := s.resident + back, ops := s.ops[f := s.ops[f].(phase := Finishing)]))
  {
    hide Disjoint;
    LetGo(s.resident, s.ops, f, back);
    if s.ops[f].Load? {
      var op := s.ops[f].(phase := Finishing);
      HoldNothing(s.resident + back, s.ops, f, op);
    }
  }

  lemma FailKeepsResidency(cfg: Config, s: State, f: nat)
    requires Residency(s) && Enabled(cfg, s, Fail(f))
    ensures Residency(Apply(cfg, s, Fail(f)))
  {
    hide Disjoint;
    var op := if s.ops[f].Load? then s.ops[f].(phase := Failed) else s.ops[f].(failed := true);
    AdvanceKeepsResidency(s, f, op, s.loaded);
  }

  lemma EasyKeepsResidency(cfg: Config, s: State, step: Step)
    requires Residency(s) && Enabled(cfg, s, step)
    requires step.Finish? || step.BeginUnload? || step.Enqueue? || step.Dequeue? || step.StartBatch? || step.EndBatch?
    ensures Residency(Apply(cfg, s, step))
  {
    hide NoDuplicates, Disjoint;
    if step.Finish? {
      LetGo(s.resident, s.ops, step.thread, {});
      assert s.resident + {} == s.resident;
    } else if step.BeginUnload? {
      HoldMore(s.resident, s.ops, step.thread, Unload(step.model, false));
    }
  }

  /** Under the guard, residents stay loaded in every interleaving, whatever fails. */
  lemma ResidencyStep(cfg: Config, s: State, step: Step)
    requires Residency(s) && Accounting(cfg, s) && Enabled(cfg, s, step) && Guarded(s, step)
    ensures Residency(Apply(cfg, s, step))
  {
    hide Residency, Accounting, Used;
    match step
    case Begin(f, m, order) => BeginKeepsResidency(cfg, s, step);
    case UnloadVictim(f) => UnloadVictimKeepsResidency(cfg, s, f);
    case RuntimeUnload(f) => RuntimeUnloadKeepsResidency(cfg, s, f);
    case Fail(f) => FailKeepsResidency(cfg, s, f);
    case Publish(f) =>
      PublishingIsLoaded(s, f);
      ReturnKeepsResidency(s, f, {s.ops[f].model});
    case Restore(f) =>
      if s.ops[f].Load? {
        ReturnKeepsResidency(s, f, Elements(s.ops[f].victims) * s.loaded);
      } else {
        PublishingIsLoaded(s, f);
        ReturnKeepsResidency(s, f, {s.ops[f].model});
      }
    case Check(f) => CheckKeepsResidency(cfg, s, f);
    case Commit(f) => CheckKeepsResidency(cfg, s, f);
    case Warm(f) => CheckKeepsResidency(cfg, s, f);
    case _ => EasyKeepsResidency(cfg, s, step);
  }

  lemma PublishingIsLoaded(s: State, f: nat)
    requires Residency(s) && f in s.ops && (s.ops[f].Load? ==> s.ops[f].phase in {Warming, Publishing})
    ensures s.ops[f].model in s.loaded
  {}

  lemma CheckKeepsResidency(cfg: Config, s: State, f: nat)
    requires Residency(s) && f in s.ops
    ensures Enabled(cfg, s, Check(f)) ==> Residency(Apply(cfg, s, Check(f)))
    ensures Enabled(cfg, s, Commit(f)) ==> Residency(Apply(cfg, s, Commit(f)))
    ensures Enabled(cfg, s, Warm(f)) ==> Residency(Apply(cfg, s, Warm(f)))
  {
    hide Disjoint, Used, NoDuplicates;
    if Enabled(cfg, s, Check(f)) {
      AdvanceKeepsResidency(s, f, Apply(cfg, s, Check(f)).ops[f], s.loaded);
    } else if Enabled(cfg, s, Commit(f)) {
      AdvanceKeepsResidency(s, f, s.ops[f].(phase := Warming), s.loaded + {s.ops[f].model});
    } else if Enabled(cfg, s, Warm(f)) {
      AdvanceKeepsResidency(s, f, s.ops[f].(phase := Publishing), s.loaded);
    }
  }

  // ---------------------------------------------------------------- running batches

  /** The models of running batches are resident. */
  ghost predicate Serving(s: State) {
    forall m :: m in s.running ==> m in s.resident
  }

  /** An explicit unload looks only at the queue, not at the running batches. */
  ghost predicate Drops(s: State, step: Step) {
    step.BeginUnload? && step.model in s.running
  }

  /** No eviction takes the model of a running batch; exactly an explicit unload of one does. */
  lemma ServingStep(cfg: Config, s: State, step: Step)
    requires Residency(s) && Serving(s) && Enabled(cfg, s, step)
    ensures Serving(Apply(cfg, s, step)) <==> !Drops(s, step)
  {
    hide AllOnTrack, Disjoint, Used, Victims;
    if step.Begin? {
      ChosenFacts(cfg, s, step);
    }
  }

  // ---------------------------------------------------------------- memory, under the guard

  lemma UsedChanges(cfg: Config, loaded: set<string>, m: string)
    ensures Used(cfg, loaded) >= 0
    ensures m in loaded ==> Used(cfg, loaded - {m}) == Used(cfg, loaded) - cfg.size(m)
    ensures Used(cfg, loaded + {m}) == Used(cfg, loaded) + (if m in loaded then 0 else cfg.size(m))
  {
    var sizes := map x | x in loaded :: cfg.size(x);
    SumNonNegative(sizes);
    if m in loaded {
      SumRemove(sizes, m);
      assert (map x | x in loaded - {m} :: cfg.size(x)) == sizes - {m};
      assert loaded + {m} == loaded;
    } else {
      SumInsert(sizes, m, cfg.size(m));
      assert (map x | x in loaded + {m} :: cfg.size(x)) == sizes[m := cfg.size(m)];
    }
  }

  lemma ClaimsAfter(cfg: Config, ops: map<nat, Operation>, f: nat, op: Operation)
    ensures f in ops ==> Sum(Claims(cfg, ops[f := op])) == Sum(Claims(cfg, ops)) - Claim(cfg, ops[f]) + Claim(cfg, op)
    ensures f !in ops ==> Sum(Claims(cfg, ops[f := op])) == Sum(Claims(cfg, ops)) + Claim(cfg, op)
    ensures f in ops ==> Sum(Claims(cfg, ops - {f})) == Sum(Claims(cfg, ops)) - Claim(cfg, ops[f])
    ensures f in ops ==> Claim(cfg, ops[f]) <= Sum(Claims(cfg, ops))
  {
    hide Claim;
    var c := Claims(cfg, ops);
    assert Claims(cfg, ops[f := op]) == c[f := Claim(cfg, op)];
    if f in ops {
      SumUpdate(c, f, Claim(cfg, op));
      SumRemove(c, f);
      SumNonNegative(c - {f});
      assert Claims(cfg, ops - {f}) == c - {f};
    } else {
      SumInsert(c, f, Claim(cfg, op));
    }
  }

  lemma ClaimsAreReserved(cfg: Config, s: State)
    requires Accounting(cfg, s)
    ensures Sum(Claims(cfg, s.ops)) <= s.reserved
  {
    SumMonotone(Claims(cfg, s.ops), Reservations(cfg, s.ops));
  }

  lemma BeginKeepsMemory(cfg: Config, s: State, step: Step)
    requires Memory(cfg, s) && Accounting(cfg, s) && step.Begin? && Enabled(cfg, s, step)
    ensures Memory(cfg, Apply(cfg, s, step))
  {
    hide Accounting, Victims, Claims, Used;
    var op := Load(step.model, Chosen(cfg, s, step), Unloading(0));
    assert op.victims[0..] == op.victims;
    ClaimsAfter(cfg, s.ops, step.thread, op);
    ClaimsAreReserved(cfg, s);
  }

  lemma UnloadVictimKeepsMemory(cfg: Config, s: State, f: nat)
    requires Memory(cfg, s) && Residency(s) && Enabled(cfg, s, UnloadVictim(f))
    ensures Memory(cfg, Apply(cfg, s, UnloadVictim(f)))
  {
    hide Disjoint, Claims, Used;
    var op := s.ops[f];
    var m := op.victims[op.phase.done];
    assert op.victims[op.phase.done..] == [m] + op.victims[op.phase.done + 1..];
    assert op.victims[op.phase.done..][1..] == op.victims[op.phase.done + 1..];
    UsedChanges(cfg, s.loaded, m);
    ClaimsAfter(cfg, s.ops, f, op.(phase := Unloading(op.phase.done + 1)));
  }

  /** The runtime never refuses: its memory error is unreachable. */
  lemma RuntimeAcceptsLoad(cfg: Config, s: State, f: nat)
    requires Memory(cfg, s) && Enabled(cfg, s, Check(f))
    ensures Apply(cfg, s, Check(f)).ops[f].phase in {Warming, Committing}
    ensures Used(cfg, s.loaded) + cfg.size(s.ops[f].model) <= cfg.total
  {
    hide Claims;
    assert s.ops[f].victims[|s.ops[f].victims|..] == [];
    UsedChanges(cfg, s.loaded, s.ops[f].model);
    ClaimsAfter(cfg, s.ops, f, s.ops[f]);
  }

  lemma LoadKeepsMemory(cfg: Config, s: State, step: Step)
    requires Memory(cfg, s) && Enabled(cfg, s, step) && (step.Check? || step.Commit? || step.Warm?)
    ensures Memory(cfg, Apply(cfg, s, step))
  {
    hide Claims, Used;
    var op := s.ops[step.thread];
    ClaimsAfter(cfg, s.ops, step.thread, Apply(cfg, s, step).ops[step.thread]);
    UsedChanges(cfg, s.loaded, op.model);
    if step.Check? {
      assert op.victims[|op.victims|..] == [];
    }
  }

  lemma EndKeepsMemory(cfg: Config, s: State, step: Step)
    requires Memory(cfg, s) && Residency(s) && Enabled(cfg, s, step)
    requires step.Fail? || step.Publish? || step.Restore? || step.Finish? || step.BeginUnload? || step.RuntimeUnload?
    ensures Memory(cfg, Apply(cfg, s, step))
  {
    hide Claims, Used, Disjoint;
    var f, t := step.thread, Apply(cfg, s, step);
    ClaimsAfter(cfg, s.ops, f, if f in t.ops then t.ops[f] else s.ops[f]);
    if step.RuntimeUnload? {
      UsedChanges(cfg, s.loaded, s.ops[f].model);
    }
  }

  lemma MemoryStep(cfg: Config, s: State, step: Step)
    requires Memory(cfg, s) && Residency(s) && Accounting(cfg, s) && Enabled(cfg, s, step)
    ensures Memory(cfg, Apply(cfg, s, step))
  {
    hide Residency, Accounting, Used, Claims;
    match step
    case Begin(f, m, order) => BeginKeepsMemory(cfg, s, step);
    case UnloadVictim(f) => UnloadVictimKeepsMemory(cfg, s, f);
    case Check(f) => LoadKeepsMemory(cfg, s, step);
    case Commit(f) => LoadKeepsMemory(cfg, s, step);
    case Warm(f) => LoadKeepsMemory(cfg, s, step);
    case Enqueue(m) =>
    case Dequeue(m) =>
    case StartBatch(m, n) =>
    case EndBatch(m, n) =>
    case _ => EndKeepsMemory(cfg, s, step);
  }

  // ---------------------------------------------------------------- whole interleavings

  ghost predicate Possible(cfg: Config, s: State, steps: seq<Step>)
    decreases steps
  {
    steps == [] || (Enabled(cfg, s, steps[0]) && Possible(cfg, Apply(cfg, s, steps[0]), steps[1..]))
  }

  ghost function After(cfg: Config, s: State, steps: seq<Step>): State
    requires Possible(cfg, s, steps)
    decreases steps
  {
    if steps == [] then s else After(cfg, Apply(cfg, s, steps[0]), steps[1..])
  }

  ghost predicate Careful(cfg: Config, s: State, steps: seq<Step>)
    requires Possible(cfg, s, steps)
    decreases steps
  {
    steps == [] || (Guarded(s, steps[0]) && Careful(cfg, Apply(cfg, s, steps[0]), steps[1..]))
  }

  ghost predicate Safe(cfg: Config, s: State) {
    Accounting(cfg, s) && Residency(s) && Memory(cfg, s)
  }

  lemma InitIsSafe(cfg: Config)
    ensures Safe(cfg, Init())
  {
    assert (map m | m in Init().loaded :: cfg.size(m)) == map[];
    assert Claims(cfg, map[]) == map[] && Reservations(cfg, map[]) == map[];
  }

  /** Whatever the interleaving, each model has at most one in-flight load and the reserved
      bytes are the sum over the in-flight loads. */
  lemma {:induction false} EveryRunAccounts(cfg: Config, s: State, steps: seq<Step>)
    requires Accounting(cfg, s) && Possible(cfg, s, steps)
    ensures Accounting(cfg, After(cfg, s, steps))
    decreases steps
  {
    hide Accounting, Enabled, Apply;
    if steps != [] {
      AccountingStep(cfg, s, steps[0]);
      EveryRunAccounts(cfg, Apply(cfg, s, steps[0]), steps[1..]);
    }
  }

  ghost predicate Considerate(cfg: Config, s: State, steps: seq<Step>)
    requires Possible(cfg, s, steps)
    decreases steps
  {
    steps == [] || (!Drops(s, steps[0]) && Considerate(cfg, Apply(cfg, s, steps[0]), steps[1..]))
  }

  /** In a guarded run without explicit unloads of models in use, the model of every running batch
      is loaded. */
  lemma {:induction false} RunningIsLoaded(cfg: Config, s: State, steps: seq<Step>)
    requires Safe(cfg, s) && Serving(s)
    requires Possible(cfg, s, steps) && Careful(cfg, s, steps) && Considerate(cfg, s, steps)
    ensures var t := After(cfg, s, steps);
            Serving(t) && forall m :: m in t.running ==> m in t.loaded
    decreases steps
  {
    hide Accounting, Memory, Enabled, Apply, Used, AllOnTrack, Disjoint, Guarded, Drops;
    if steps != [] {
      AccountingStep(cfg, s, steps[0]);
      ResidencyStep(cfg, s, steps[0]);
      MemoryStep(cfg, s, steps[0]);
      ServingStep(cfg, s, steps[0]);
      RunningIsLoaded(cfg, Apply(cfg, s, steps[0]), steps[1..]);
    }
  }

  /** If no load begins for a model that something in flight still holds, then in every
      interleaving of loads, evictions, unloads and failures residents stay loaded, queued
      requests keep their model, and the runtime never uses more than the limit. */
  lemma {:induction false} CarefulRunsAreSafe(cfg: Config, s: State, steps: seq<Step>)
    requires Safe(cfg, s) && Possible(cfg, s, steps) && Careful(cfg, s, steps)
    ensures var t := After(cfg, s, steps);
            && Safe(cfg, t) && Used(cfg, t.loaded) <= Limit(cfg)
            && forall m :: m in t.queued ==> m in t.loaded
    decreases steps
  {
    hide Accounting, Memory, Enabled, Apply, Used, AllOnTrack, Disjoint, Guarded;
    if steps != [] {
      AccountingStep(cfg, s, steps[0]);
      ResidencyStep(cfg, s, steps[0]);
      MemoryStep(cfg, s, steps[0]);
      CarefulRunsAreSafe(cfg, Apply(cfg, s, steps[0]), steps[1..]);
    } else {
      WithinLimit(cfg, s);
    }
  }

  lemma WithinLimit(cfg: Config, s: State)
    requires Memory(cfg, s)
    ensures Used(cfg, s.loaded) <= Limit(cfg)
  {
    SumNonNegative(Claims(cfg, s.ops));
  }

  // ---------------------------------------------------------------- why the guard is needed

  lemma {:induction false} Extend(cfg: Config, s: State, steps: seq<Step>, step: Step)
    requires Possible(cfg, s, steps) && Enabled(cfg, After(cfg, s, steps), step)
    ensures Possible(cfg, s, steps + [step])
    ensures After(cfg, s, steps + [step]) == Apply(cfg, After(cfg, s, steps), step)
    decreases steps
  {
    hide Enabled, Apply;
    if steps == [] {
      assert [] + [step] == [step] && [step][1..] == [];
    } else {
      Extend(cfg, Apply(cfg, s, steps[0]), steps[1..], step);
      assert (steps + [step])[1..] == steps[1..] + [step];
    }
  }

  /** `all` goes on from `steps` without beginning another load. */
  ghost predicate Continues(steps: seq<Step>, all: seq<Step>) {
    steps <= all && forall i :: |steps| <= i < |all| ==> !all[i].Begin?
  }

  lemma Then(cfg: Config, s: State, start: seq<Step>, steps: seq<Step>, step: Step) returns (all: seq<Step>)
    requires Possible(cfg, s, steps) && Enabled(cfg, After(cfg, s, steps), step)
    requires Continues(start, steps) && !step.Begin?
    ensures Continues(start, all) && Possible(cfg, s, all)
    ensures After(cfg, s, all) == Apply(cfg, After(cfg, s, steps), step)
  {
    hide Enabled, Apply;
    Extend(cfg, s, steps, step);
    all := steps + [step];
  }

  /** The load in `thread` unloads its remaining victims, undisturbed. */
  lemma {:induction false} FinishUnloading(cfg: Config, s: State, start: seq<Step>, steps: seq<Step>, thread: nat)
    returns (all: seq<Step>)
    requires Possible(cfg, s, steps) && Continues(start, steps)
    requires var t := After(cfg, s, steps);
             && thread in t.ops && t.ops[thread].Load? && t.ops[thread].phase.Unloading?
             && OnTrack(t.ops[thread], t.loaded)
    ensures Possible(cfg, s, all) && Continues(start, all)
    ensures var t, u := After(cfg, s, steps), After(cfg, s, all);
            var op := t.ops[thread];
            && u == t.(loaded := u.loaded, ops := t.ops[thread := op.(phase := Unloading(|op.victims|))])
            && Used(cfg, u.loaded) == Used(cfg, t.loaded) - TotalSize(cfg, op.victims[op.phase.done..])
    decreases var op := After(cfg, s, steps).ops[thread]; |op.victims| - op.phase.done
  {
    hide Used, Possible, After, Continues;
    var t := After(cfg, s, steps);
    var op := t.ops[thread];
    var done := op.phase.done;
    if done == |op.victims| {
      all := steps;
      assert op.victims[done..] == [];
      assert t.ops[thread := op] == t.ops;
    } else {
      var more := Then(cfg, s, start, steps, UnloadVictim(thread));
      UsedChanges(cfg, t.loaded, op.victims[done]);
      assert op.victims[done..] == [op.victims[done]] + op.victims[done + 1..];
      assert op.victims[done..][1..] == op.victims[done + 1..];
      VictimsDistinct(op.victims, done);
      all := FinishUnloading(cfg, s, start, more, thread);
    }
  }

  /** The load in `thread` puts its model into the runtime and warms it up. */
  lemma LoadWeights(cfg: Config, s: State, start: seq<Step>, steps: seq<Step>, thread: nat) returns (all: seq<Step>)
    requires Possible(cfg, s, steps) && Continues(start, steps)
    requires Enabled(cfg, After(cfg, s, steps), Check(thread))
    requires var t := After(cfg, s, steps);
             Used(cfg, t.loaded) + cfg.size(t.ops[thread].model) <= cfg.total
    ensures Possible(cfg, s, all) && Continues(start, all)
    ensures var t, u := After(cfg, s, steps), After(cfg, s, all);
            && u == t.(loaded := u.loaded, ops := t.ops[thread := t.ops[thread].(phase := Publishing)])
            && t.ops[thread].model in u.loaded
  {
    hide Used, Possible, After, Continues;
    all := Then(cfg, s, start, steps, Check(thread));
    if After(cfg, s, all).ops[thread].phase == Committing {
      all := Then(cfg, s, start, all, Commit(thread));
    }
    all := Then(cfg, s, start, all, Warm(thread));
  }

  /** The load in `thread` runs up to the point where it is about to publish. */
  lemma RunToPublish(cfg: Config, s: State, steps: seq<Step>, thread: nat) returns (all: seq<Step>)
    requires Possible(cfg, s, steps)
    requires var t := After(cfg, s, steps);
             && thread in t.ops && t.ops[thread].Load? && t.ops[thread].phase == Unloading(0)
             && OnTrack(t.ops[thread], t.loaded)
             && Used(cfg, t.loaded) - TotalSize(cfg, t.ops[thread].victims) + cfg.size(t.ops[thread].model) <= cfg.total
    ensures Possible(cfg, s, all) && Continues(steps, all)
    ensures var t, u := After(cfg, s, steps), After(cfg, s, all);
            && u == t.(loaded := u.loaded, ops := t.ops[thread := t.ops[thread].(phase := Publishing)])
            && t.ops[thread].model in u.loaded
  {
    var op := After(cfg, s, steps).ops[thread];
    hide Used, Possible, After, Apply, OnTrack;
    assert op.victims[0..] == op.victims;
    var unloaded := FinishUnloading(cfg, s, steps, steps, thread);
    all := LoadWeights(cfg, s, steps, unloaded, thread);
  }

  /** Operation `f` fails and puts `m` back. */
  lemma FailAndRestore(cfg: Config, s: State, steps: seq<Step>, f: nat, m: string) returns (all: seq<Step>)
    requires Possible(cfg, s, steps)
    requires var t := After(cfg, s, steps); f in t.ops && m in Held(t.ops[f]) && m in t.loaded
    ensures Possible(cfg, s, all) && Continues(steps, all)
    ensures var t, u := After(cfg, s, steps), After(cfg, s, all);
            && m in u.resident && u.loaded == t.loaded && u.queued == t.queued && u.ops.Keys <= t.ops.Keys
            && forall g :: g in t.ops && g != f ==> g in u.ops && u.ops[g] == t.ops[g]
  {
    hide Used, Possible, After, Continues;
    all := steps;
    StartContinues(steps);
    if Enabled(cfg, After(cfg, s, all), Fail(f)) {
      all := Then(cfg, s, steps, all, Fail(f));
    }
    all := Then(cfg, s, steps, all, Restore(f));
  }

  lemma StartContinues(steps: seq<Step>)
    ensures Continues(steps, steps)
  {}

  /** Operation `f` fails and puts `m` back while `thread` is about to publish `m`; an explicit
      unload then takes it out of the runtime before the publication. */
  lemma PublishAfterUnload(cfg: Config, s: State, start: seq<Step>, steps: seq<Step>, thread: nat, f: nat, other: nat,
                           m: string)
    returns (all: seq<Step>)
    requires Possible(cfg, s, steps) && Continues(start, steps)
    requires var t := After(cfg, s, steps);
             && thread in t.ops && f in t.ops && f != thread && other !in t.ops
             && t.ops[thread].Load? && t.ops[thread].model == m && t.ops[thread].phase == Publishing
             && m in Held(t.ops[f]) && m in t.loaded && m !in t.queued
    ensures Possible(cfg, s, all) && Continues(start, all)
    ensures m in After(cfg, s, all).resident && m !in After(cfg, s, all).loaded
  {
    hide Used, Possible, After, Held, Enabled, Apply;
    var restored := FailAndRestore(cfg, s, steps, f, m);
    assert Continues(start, restored);
    all := UnloadThenPublish(cfg, s, start, restored, thread, other, m);
  }

  lemma UnloadThenPublish(cfg: Config, s: State, start: seq<Step>, steps: seq<Step>, thread: nat, other: nat, m: string)
    returns (all: seq<Step>)
    requires Possible(cfg, s, steps) && Continues(start, steps)
    requires var t := After(cfg, s, steps);
             && thread in t.ops && other !in t.ops
             && t.ops[thread].Load? && t.ops[thread].model == m && t.ops[thread].phase == Publishing
             && m in t.resident && m !in t.queued
    ensures Possible(cfg, s, all) && Continues(start, all)
    ensures m in After(cfg, s, all).resident && m !in After(cfg, s, all).loaded
  {
    hide Used, Possible, After, Continues, Held, Chosen;
    all := Then(cfg, s, start, steps, BeginUnload(other, m));
    all := Then(cfg, s, start, all, RuntimeUnload(other));
    all := Then(cfg, s, start, all, Publish(thread));
  }

  lemma {:induction false} FreshThread(taken: set<nat>) returns (f: nat)
    ensures forall g :: g in taken ==> g < f
  {
    if taken == {} {
      f := 0;
    } else {
      var g :| g in taken;
      var h := FreshThread(taken - {g});
      f := if h > g then h else g + 1;
      assert forall x :: x in taken ==> x == g || x in taken - {g};
    }
  }

  /** A load of a held model can always end with a resident model that is not loaded. */
  lemma UnguardedLoadCanBreak(cfg: Config, s: State, step: Step, f: nat) returns (all: seq<Step>)
    requires Safe(cfg, s) && step.Begin? && Enabled(cfg, s, step) && f in s.ops && step.model in Held(s.ops[f])
    ensures Continues([step], all) && Possible(cfg, s, all)
    ensures step.model in After(cfg, s, all).resident && step.model !in After(cfg, s, all).loaded
  {
    hide Victims, Memory, Used, AllOnTrack, Disjoint;
    ChosenFacts(cfg, s, step);
    Extend(cfg, s, [], step);
    assert [] + [step] == [step];
    all := [step];
    var t := After(cfg, s, all);
    var op := t.ops[step.thread];
    assert op.victims[0..] == op.victims;
    ReservedIsNatural(cfg, s);
    all := RunToPublish(cfg, s, all, step.thread);
    var other := FreshThread(t.ops.Keys);
    assert other !in t.ops;
    all := PublishAfterUnload(cfg, s, [step], all, step.thread, f, other, step.model);
  }

  lemma ReservedIsNatural(cfg: Config, s: State)
    requires Accounting(cfg, s)
    ensures s.reserved >= 0
  {
    SumNonNegative(Reservations(cfg, s.ops));
  }

  /** The guard is exact: from a safe state, beginning a load keeps every resident loaded in
      all further steps (no other load beginning) if and only if nothing in flight holds the
      model. The worker checks only that the model is neither resident nor loading. */
  lemma GuardIsExact(cfg: Config, s: State, step: Step)
    requires Safe(cfg, s) && step.Begin? && Enabled(cfg, s, step)
    ensures Guarded(s, step) <==>
              forall all :: Continues([step], all) && Possible(cfg, s, all) ==>
                After(cfg, s, all).resident <= After(cfg, s, all).loaded
  {
    if Guarded(s, step) {
      forall all | Continues([step], all) && Possible(cfg, s, all)
        ensures After(cfg, s, all).resident <= After(cfg, s, all).loaded
      {
        NoBeginsIsCareful(cfg, Apply(cfg, s, step), all[1..]);
        CarefulRunsAreSafe(cfg, s, all);
      }
    } else {
      var f :| f in s.ops && step.model in Held(s.ops[f]);
      var all := UnguardedLoadCanBreak(cfg, s, step, f);
    }
  }

  lemma {:induction false} NoBeginsIsCareful(cfg: Config, s: State, steps: seq<Step>)
    requires Possible(cfg, s, steps) && Continues([], steps)
    ensures Careful(cfg, s, steps)
    decreases steps
  {
    hide Enabled, Apply;
    if steps != [] {
      NoBeginsIsCareful(cfg, Apply(cfg, s, steps[0]), steps[1..]);
    }
  }

  /** The state after some steps, one step further. */
  lemma Follow(cfg: Config, s: State, steps: seq<Step>, step: Step, now: State)
    requires Possible(cfg, s, steps) && After(cfg, s, steps) == now && Enabled(cfg, now, step)
    ensures Possible(cfg, s, steps + [step]) && After(cfg, s, steps + [step]) == Apply(cfg, now, step)
  {
    hide Enabled, Apply;
    Extend(cfg, s, steps, step);
  }

  /** One load from beginning to end. */
  function LoadAlone(f: nat, m: string, order: seq<string>): seq<Step> {
    [Begin(f, m, order), Check(f), Commit(f), Warm(f), Publish(f), Finish(f)]
  }

  /** The state during such a load. */
  function Loading(cfg: Config, s: State, f: nat, m: string, phase: Phase): State {
    s.(loading := s.loading + {m}, reserved := s.reserved + cfg.size(m), ops := s.ops[f := Load(m, [], phase)])
  }

  /** With nothing else going on and room enough, a load takes place. */
  lemma LoadsAlone(cfg: Config, start: seq<Step>, s: State, f: nat, m: string, order: seq<string>)
    requires Possible(cfg, Init(), start) && After(cfg, Init(), start) == s
    requires s.ops == map[] && s.loading == {} && s.reserved == 0 && m !in s.resident && m !in s.loaded
    requires NoDuplicates(order) && Elements(order) == s.resident
    requires Used(cfg, s.loaded) + cfg.size(m) <= cfg.total - cfg.safety
    ensures Possible(cfg, Init(), start + LoadAlone(f, m, order))
    ensures After(cfg, Init(), start + LoadAlone(f, m, order))
         == s.(resident := s.resident + {m}, loaded := s.loaded + {m})
  {
    hide Possible, After, Used;
    var all, with := start + LoadAlone(f, m, order), s.(loaded := s.loaded + {m});
    var k := |start|;
    assert all[..k] == start;
    LoadGoesIn(cfg, start, s, f, m, order);
    Follow(cfg, Init(), all[..k + 3], Warm(f), Loading(cfg, with, f, m, Warming));
    assert all[..k + 4] == all[..k + 3] + [Warm(f)];
    Follow(cfg, Init(), all[..k + 4], Publish(f), Loading(cfg, with, f, m, Publishing));
    assert all[..k + 5] == all[..k + 4] + [Publish(f)];
    Follow(cfg, Init(), all[..k + 5], Finish(f),
           Loading(cfg, with.(resident := s.resident + {m}), f, m, Finishing));
    assert all == all[..k + 5] + [Finish(f)];
    assert s.loading + {m} - {m} == s.loading && s.ops[f := Load(m, [], Finishing)] - {f} == s.ops;
  }

  lemma LoadGoesIn(cfg: Config, start: seq<Step>, s: State, f: nat, m: string, order: seq<string>)
    requires Possible(cfg, Init(), start) && After(cfg, Init(), start) == s
    requires s.ops == map[] && s.loading == {} && s.reserved == 0 && m !in s.resident && m !in s.loaded
    requires NoDuplicates(order) && Elements(order) == s.resident
    requires Used(cfg, s.loaded) + cfg.size(m) <= cfg.total - cfg.safety
    ensures var steps := (start + LoadAlone(f, m, order))[..|start| + 3];
            && Possible(cfg, Init(), steps)
            && After(cfg, Init(), steps) == Loading(cfg, s.(loaded := s.loaded + {m}), f, m, Warming)
  {
    hide Possible, After, Used;
    var all, k := start + LoadAlone(f, m, order), |start|;
    assert all[..k] == start;
    Follow(cfg, Init(), all[..k], Begin(f, m, order), s);
    assert all[..k + 1] == all[..k] + [Begin(f, m, order)];
    assert s.resident - Elements<string>([]) == s.resident;
    assert Apply(cfg, s, Begin(f, m, order)) == Loading(cfg, s, f, m, Unloading(0));
    Follow(cfg, Init(), all[..k + 1], Check(f), Loading(cfg, s, f, m, Unloading(0)));
    assert all[..k + 2] == all[..k + 1] + [Check(f)];
    Follow(cfg, Init(), all[..k + 2], Commit(f), Loading(cfg, s, f, m, Committing));
    assert all[..k + 3] == all[..k + 2] + [Commit(f)];
  }

  lemma LoadOnceRuns(cfg: Config, m: string)
    requires cfg.size(m) <= cfg.total - cfg.safety
    ensures Possible(cfg, Init(), LoadAlone(0, m, []))
    ensures After(cfg, Init(), LoadAlone(0, m, [])) == Init().(resident := {m}, loaded := {m})
  {
    hide Possible, After, Used;
    NothingUsed(cfg);
    StartOfRun(cfg, Init());
    assert Elements<string>([]) == {} && {} + {m} == {m};
    LoadsAlone(cfg, [], Init(), 0, m, []);
    assert [] + LoadAlone(0, m, []) == LoadAlone(0, m, []);
  }

  lemma StartOfRun(cfg: Config, s: State)
    ensures Possible(cfg, s, []) && After(cfg, s, []) == s
  {}

  lemma NothingUsed(cfg: Config)
    ensures Used(cfg, {}) == 0
  {
    assert (map m: string | m in {} :: cfg.size(m)) == map[];
  }

  /** Fresh worker, one model, and nothing else going on: load it, begin to unload it, and load it
      again before the runtime has dropped it. */
  function LoadAgainDuringUnload(m: string): seq<Step> {
    LoadAlone(0, m, []) + [BeginUnload(1, m), Begin(2, m, []), Check(2), Warm(2), Publish(2), RuntimeUnload(1)]
  }

  /** The state in which the first copy is still loaded, and about to be dropped. */
  function Leaving(m: string): State {
    Init().(loaded := {m}, ops := map[1 := Unload(m, false)])
  }

  lemma LoadAgainBegins(cfg: Config, m: string)
    requires 2 * cfg.size(m) <= cfg.total - cfg.safety
    ensures Possible(cfg, Init(), LoadAgainDuringUnload(m)[..9])
    ensures After(cfg, Init(), LoadAgainDuringUnload(m)[..9]) == Loading(cfg, Leaving(m), 2, m, Warming)
  {
    hide Possible, After, Used;
    var all, done := LoadAgainDuringUnload(m), LoadAlone(0, m, []);
    LoadOnceRuns(cfg, m);
    NothingUsed(cfg);
    UsedChanges(cfg, {}, m);
    assert {} + {m} == {m};
    assert all[..6] == done;
    Follow(cfg, Init(), all[..6], BeginUnload(1, m), Init().(resident := {m}, loaded := {m}));
    assert all[..7] == all[..6] + [BeginUnload(1, m)];
    Follow(cfg, Init(), all[..7], Begin(2, m, []), Leaving(m));
    assert all[..8] == all[..7] + [Begin(2, m, [])];
    Follow(cfg, Init(), all[..8], Check(2), Loading(cfg, Leaving(m), 2, m, Unloading(0)));
    assert all[..9] == all[..8] + [Check(2)];
  }

  lemma LoadAgainRuns(cfg: Config, m: string)
    requires 2 * cfg.size(m) <= cfg.total - cfg.safety
    ensures Possible(cfg, Init(), LoadAgainDuringUnload(m))
    ensures After(cfg, Init(), LoadAgainDuringUnload(m))
         == Loading(cfg, Init().(resident := {m}), 2, m, Finishing)
  {
    hide Possible, After, Used;
    var all := LoadAgainDuringUnload(m);
    LoadAgainBegins(cfg, m);
    Follow(cfg, Init(), all[..9], Warm(2), Loading(cfg, Leaving(m), 2, m, Warming));
    assert all[..10] == all[..9] + [Warm(2)];
    Follow(cfg, Init(), all[..10], Publish(2), Loading(cfg, Leaving(m), 2, m, Publishing));
    assert all[..11] == all[..10] + [Publish(2)];
    Follow(cfg, Init(), all[..11], RuntimeUnload(1), Loading(cfg, Leaving(m).(resident := {m}), 2, m, Finishing));
    assert all == all[..11] + [RuntimeUnload(1)];
    assert Loading(cfg, Leaving(m).(resident := {m}), 2, m, Finishing).ops - {1} == map[2 := Load(m, [], Finishing)];
  }

  /** From a fresh worker the guard can fail: with room for two copies of a model, loading it again
      while its unload is under way ends with a resident model that the runtime does not have. */
  lemma GuardFailsFromInit(cfg: Config, m: string)
    requires 2 * cfg.size(m) <= cfg.total - cfg.safety
    ensures Possible(cfg, Init(), LoadAgainDuringUnload(m)) && !Careful(cfg, Init(), LoadAgainDuringUnload(m))
    ensures var t := After(cfg, Init(), LoadAgainDuringUnload(m));
            m in t.resident && m !in t.loaded
  {
    hide Possible, After, Careful;
    LoadAgainRuns(cfg, m);
    NotCareful(cfg, LoadAgainDuringUnload(m), m);
  }

  /** The run goes on: a model that fills the memory is loaded, and then another one, in exchange for
      the model that is resident but no longer there, which is the one used longest ago. */
  function LoadInExchange(m: string, full: string, more: string): seq<Step> {
    LoadAgainDuringUnload(m) + [Finish(2)] + LoadAlone(3, full, [m])
    + [Begin(4, more, [m, full]), UnloadVictim(4), Check(4)]
  }

  /** Without the guard memory is not safe either: evicting the lost model frees nothing. So the runtime
      either lets used memory pass the limit, when the load fits into the safety reserve, or raises
      its memory error. */
  lemma MemoryFailsFromInit(cfg: Config, m: string, full: string, more: string)
    requires m != full && full != more && m != more
    requires 2 * cfg.size(m) <= cfg.total - cfg.safety == cfg.size(full) && 0 < cfg.size(more) <= cfg.size(m)
    ensures Possible(cfg, Init(), LoadInExchange(m, full, more))
    ensures var t := After(cfg, Init(), LoadInExchange(m, full, more));
            if cfg.size(more) <= cfg.safety then
              Enabled(cfg, t, Commit(4)) && Used(cfg, Apply(cfg, t, Commit(4)).loaded) > Limit(cfg)
            else
              InPhase(t, 4, {Failed})
  {
    hide Possible, After, Used;
    var lost := LoadAgainDuringUnload(m);
    LoadAgainRuns(cfg, m);
    Follow(cfg, Init(), lost, Finish(2), Loading(cfg, Init().(resident := {m}), 2, m, Finishing));
    var idle := Init().(resident := {m});
    assert Loading(cfg, idle, 2, m, Finishing).ops - {2} == map[];
    NothingUsed(cfg);
    assert Elements([m]) == {m};
    LoadsAlone(cfg, lost + [Finish(2)], idle, 3, full, [m]);
    assert idle.resident + {full} == {m, full} && idle.loaded + {full} == {full};
    UsedChanges(cfg, {}, full);
    assert {} + {full} == {full};
    ExchangeGoesWrong(cfg, lost + [Finish(2)] + LoadAlone(3, full, [m]), m, full, more);
  }

  lemma ExchangeGoesWrong(cfg: Config, start: seq<Step>, m: string, full: string, more: string)
    requires m != full && full != more && m != more
    requires cfg.total - cfg.safety == cfg.size(full) == Used(cfg, {full}) && 0 < cfg.size(more) <= cfg.size(m)
    requires Possible(cfg, Init(), start)
    requires After(cfg, Init(), start) == Init().(resident := {m, full}, loaded := {full})
    ensures var all := start + [Begin(4, more, [m, full]), UnloadVictim(4), Check(4)];
            && Possible(cfg, Init(), all)
            && var t := After(cfg, Init(), all);
               if cfg.size(more) <= cfg.safety then
                 Enabled(cfg, t, Commit(4)) && Used(cfg, Apply(cfg, t, Commit(4)).loaded) > Limit(cfg)
               else
                 InPhase(t, 4, {Failed})
  {
    hide Possible, After, Used;
    var all, k := start + [Begin(4, more, [m, full]), UnloadVictim(4), Check(4)], |start|;
    var s := Init().(resident := {m, full}, loaded := {full});
    assert all[..k] == start && Elements([m, full]) == {m, full};
    ExchangeVictims(cfg, s, m, full, more);
    Follow(cfg, Init(), all[..k], Begin(4, more, [m, full]), s);
    assert all[..k + 1] == all[..k] + [Begin(4, more, [m, full])];
    var op := Load(more, [m], Unloading(0));
    var t := s.(resident := {full}, loading := {more}, reserved := cfg.size(more), ops := map[4 := op]);
    assert Elements([m]) == {m} && {m, full} - {m} == {full};
    assert Apply(cfg, s, Begin(4, more, [m, full])) == t;
    Follow(cfg, Init(), all[..k + 1], UnloadVictim(4), t);
    assert all[..k + 2] == all[..k + 1] + [UnloadVictim(4)];
    var u := t.(ops := map[4 := op.(phase := Unloading(1))]);
    assert {full} - {m} == {full} && Apply(cfg, t, UnloadVictim(4)) == u;
    Follow(cfg, Init(), all[..k + 2], Check(4), u);
    assert all == all[..k + 2] + [Check(4)];
    UsedChanges(cfg, {full}, more);
  }

  lemma ExchangeVictims(cfg: Config, s: State, m: string, full: string, more: string)
    requires cfg.total - cfg.safety == cfg.size(full) == Used(cfg, {full}) && 0 < cfg.size(more) <= cfg.size(m)
    requires s == Init().(resident := {m, full}, loaded := {full})
    ensures Chosen(cfg, s, Begin(4, more, [m, full])) == [m] && TotalSize(cfg, [m]) == cfg.size(m)
    ensures Usable(cfg, s) == 0
  {
    hide Used;
    var order := [m, full];
    assert order[0] == m && order[1..] == [full];
    assert Busy(s) == {} && m !in Busy(s);
    NothingChosen(cfg, [full], Busy(s), cfg.size(m), cfg.size(more));
    assert Victims(cfg, order, Busy(s), 0, cfg.size(more))
        == [m] + Victims(cfg, [full], Busy(s), cfg.size(m), cfg.size(more));
    assert [m] + [] == [m] && [] + [m] == [m];
    TotalSizeAppend(cfg, [], m);
  }

  /** Load a model, start a batch for it, and unload it while the batch runs. */
  function UnloadDuringBatch(m: string): seq<Step> {
    LoadAlone(0, m, []) + [Enqueue(m), StartBatch(m, 1), BeginUnload(1, m), RuntimeUnload(1)]
  }

  /** From a fresh worker, and with the guard kept, an explicit unload can take the model from under a
      running batch. */
  lemma RunningCanBeDropped(cfg: Config, m: string)
    requires cfg.size(m) <= cfg.total - cfg.safety
    ensures Possible(cfg, Init(), UnloadDuringBatch(m)) && Careful(cfg, Init(), UnloadDuringBatch(m))
    ensures var t := After(cfg, Init(), UnloadDuringBatch(m));
            m in t.running && m !in t.resident && m !in t.loaded
  {
    hide Possible, After, Used;
    var all := UnloadDuringBatch(m);
    LoadOnceRuns(cfg, m);
    assert all[..6] == LoadAlone(0, m, []);
    var ready := Init().(resident := {m}, loaded := {m});
    Follow(cfg, Init(), all[..6], Enqueue(m), ready);
    assert all[..7] == all[..6] + [Enqueue(m)];
    Follow(cfg, Init(), all[..7], StartBatch(m, 1), ready.(queued := multiset{m}));
    assert all[..8] == all[..7] + [StartBatch(m, 1)];
    var busy := ready.(running := multiset{m});
    assert Apply(cfg, ready.(queued := multiset{m}), StartBatch(m, 1)) == busy;
    Follow(cfg, Init(), all[..8], BeginUnload(1, m), busy);
    assert all[..9] == all[..8] + [BeginUnload(1, m)];
    Follow(cfg, Init(), all[..9], RuntimeUnload(1), busy.(resident := {}, ops := map[1 := Unload(m, false)]));
    assert all == all[..9] + [RuntimeUnload(1)];
    FirstLoadIsCareful(cfg, all);
  }

  /** A run in which the only load is the first step is careful. */
  lemma FirstLoadIsCareful(cfg: Config, steps: seq<Step>)
    requires Possible(cfg, Init(), steps) && steps != [] && forall i :: 0 < i < |steps| ==> !steps[i].Begin?
    ensures Careful(cfg, Init(), steps)
  {
    hide Enabled, Apply;
    NoBeginsIsCareful(cfg, Apply(cfg, Init(), steps[0]), steps[1..]);
  }

  lemma NotCareful(cfg: Config, steps: seq<Step>, m: string)
    requires Possible(cfg, Init(), steps)
    requires m in After(cfg, Init(), steps).resident && m !in After(cfg, Init(), steps).loaded
    ensures !Careful(cfg, Init(), steps)
  {
    hide Possible, After, Careful, Accounting, Memory, AllOnTrack, Disjoint;
    InitIsSafe(cfg);
    if Careful(cfg, Init(), steps) {
      CarefulRunsAreSafe(cfg, Init(), steps);
    }
  }
}
