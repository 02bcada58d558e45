/**
 The compatibility batch scheduler: the bounded queue of `scheduler/queue.py`, batch collection and
 execution of `scheduler/dynamic_batch.py`, and the loop of `scheduler/scheduler_loop.py`.
 Requests are records in a table, named by number; `Wait` is a point where other tasks may run. What
 the environment does in a turn (other tasks, clocks, the worker, cancellation of the loop's task) is
 an explicit script, so every result holds for every environment.
 */
module BatchScheduler {
  import opened Wrappers
  import opened Sequences

  datatype Status = Received | Queued | Running | Completed | Failed | Rejected | Timeout | Cancelled {
    predicate Terminal() {
      this in {Completed, Failed, Rejected, Timeout, Cancelled}
    }
  }

  datatype Shape = Shape(maxNewTokens: nat, temperature: real)

  /** `outcome` is the status with which the request's future was resolved, if it has been. */
  datatype Record = Record(shape: Shape, cost: nat, status: Status, outcome: Option<Status>)

  type Table = map<nat, Record>

  /** Sets the status; the future is resolved only the first time. */
  function Finished(r: Record, status: Status): Record {
    r.(status := status, outcome := if r.outcome.None? then Some(status) else r.outcome)
  }

  // ---------------------------------------------------------------- where requests are

  /** The requests in the queue; `None` is the shutdown sentinel. */
  ghost function Ids(items: seq<Option<nat>>): multiset<nat> {
    if items == [] then multiset{}
    else (if items[0].Some? then multiset{items[0].value} else multiset{}) + Ids(items[1..])
  }

  lemma {:induction false} IdsAppend(items: seq<Option<nat>>, item: Option<nat>)
    ensures Ids(items + [item]) == Ids(items) + (if item.Some? then multiset{item.value} else multiset{})
  {
    if items == [] {
      assert [item][1..] == [];
    } else {
      IdsAppend(items[1..], item);
      assert (items + [item])[1..] == items[1..] + [item];
    }
  }

  lemma IdsHead(items: seq<Option<nat>>)
    requires items != []
    ensures Ids(items) == (if items[0].Some? then multiset{items[0].value} else multiset{}) + Ids(items[1..])
  {}

  /** The head of the queue changes hands. */
  lemma TakeMoves(items: seq<Option<nat>>, deferred: multiset<nat>, hand: multiset<nat>)
    requires items != []
    ensures Ids(items[1..]) + deferred + (hand + if items[0].Some? then multiset{items[0].value} else multiset{})
         == Ids(items) + deferred + hand
  {
    IdsHead(items);
    hide Ids;
  }

  /** No request is in two places, and every unresolved one is in one. */
  ghost predicate Placed(table: Table, places: multiset<nat>) {
    && (forall id :: id in places ==> places[id] == 1 && id in table)
    && (forall id :: id in table && table[id].outcome.None? ==> id in places)
    && (forall id :: id in table && table[id].status.Terminal() ==> table[id].outcome.Some?)
  }

  /** A request as other steps may leave it: a resolved future keeps its outcome for good. */
  ghost predicate Evolved(r: Record, s: Record) {
    s.shape == r.shape && s.cost == r.cost && (r.outcome.Some? ==> s.outcome == r.outcome)
  }

  ghost predicate Grown(a: Table, b: Table) {
    forall id :: id in a ==> id in b && Evolved(a[id], b[id])
  }

  lemma GrownStarts(a: Table)
    ensures Grown(a, a)
  {}

  lemma GrownJoins(a: Table, b: Table, c: Table)
    requires Grown(a, b) && Grown(b, c)
    ensures Grown(a, c)
  {}

  lemma UpdateKeepsPlaced(table: Table, places: multiset<nat>, id: nat, r: Record)
    requires Placed(table, places) && id in table
    requires r.outcome.None? ==> table[id].outcome.None?
    requires r.status.Terminal() ==> r.outcome.Some?
    ensures Placed(table[id := r], places)
  {}

  lemma DropKeepsPlaced(table: Table, places: multiset<nat>, id: nat)
    requires Placed(table, places) && id in places && table[id].outcome.Some?
    ensures Placed(table, places - multiset{id})
  {
    assert forall other :: other in places - multiset{id} <==> other in places && other != id;
  }

  lemma AddKeepsPlaced(table: Table, places: multiset<nat>, id: nat, r: Record)
    requires Placed(table, places) && id !in table && (r.status.Terminal() ==> r.outcome.Some?)
    ensures r.outcome.Some? ==> Placed(table[id := r], places)
    ensures Placed(table[id := r], places + multiset{id})
  {
    assert id !in places;
    assert forall other :: other in places + multiset{id} <==> other in places || other == id;
  }

  /** The rotation `unscanned + kept` after a pass over the deferred requests equals their
      arrival order `kept + unscanned` exactly when the pass reached the end or kept nothing;
      otherwise every request kept is overtaken by every later one not reached. */
  lemma RotationKeepsOrder(kept: seq<nat>, unscanned: seq<nat>)
    requires forall id :: id in kept ==> id !in unscanned
    ensures unscanned + kept == kept + unscanned <==> unscanned == [] || kept == []
  {
    if unscanned != [] && kept != [] {
      assert (unscanned + kept)[0] == unscanned[0] && (kept + unscanned)[0] == kept[0];
      assert kept[0] in kept;
    }
  }

  // ---------------------------------------------------------------- what becomes of a candidate

  datatype Fate = Joins | Drops | Waits

  /** Late and cancelled candidates are dropped; one of the batch's shape joins if it fits; any
      other waits. */
  function FateOf(r: Record, late: bool, shape: Shape, total: nat, limit: nat): Fate {
    if late || r.status == Cancelled then Drops
    else if r.shape == shape && total + r.cost <= limit then Joins
    else Waits
  }

  /** The batch after looking at a list of candidates, those that wait, and how many were looked at. */
  datatype Pick = Pick(batch: seq<nat>, total: nat, kept: seq<nat>, looked: nat)

  ghost predicate Known(table: Table, ids: seq<nat>) {
    forall id :: id in ids ==> id in table
  }

  /** Looks at the candidates in order until the batch is full. */
  ghost function Picks(table: Table, late: set<nat>, batch: seq<nat>, total: nat, maxBatch: nat, limit: nat,
                       candidates: seq<nat>): (p: Pick)
    requires batch != [] && batch[0] in table && Known(table, candidates)
    ensures p.looked <= |candidates| && batch <= p.batch
    decreases |candidates|
  {
    if |batch| >= maxBatch || candidates == [] then Pick(batch, total, [], 0)
    else
      var id, rest := candidates[0], candidates[1..];
      match FateOf(table[id], id in late, table[batch[0]].shape, total, limit)
      case Joins =>
        var p := Picks(table, late, batch + [id], total + table[id].cost, maxBatch, limit, rest);
        p.(looked := p.looked + 1)
      case Drops =>
        var p := Picks(table, late, batch, total, maxBatch, limit, rest);
        p.(looked := p.looked + 1)
      case Waits =>
        var p := Picks(table, late, batch, total, maxBatch, limit, rest);
        p.(looked := p.looked + 1, kept := [id] + p.kept)
  }

  /** The request could not join a batch of this shape and total. */
  ghost predicate Unfit(table: Table, first: nat, total: nat, limit: nat, id: nat) {
    id in table && first in table && (table[id].shape != table[first].shape || total + table[id].cost > limit)
  }

  /** Nothing that still fits is left behind: if the batch is not full, everything was looked at,
      and nothing that waits could join the batch as it is in the end. */
  lemma {:induction false} PicksAreMaximal(table: Table, late: set<nat>, batch: seq<nat>, total: nat, maxBatch: nat,
                                           limit: nat, candidates: seq<nat>)
    requires batch != [] && batch[0] in table && Known(table, candidates) && |batch| <= maxBatch
    ensures var p := Picks(table, late, batch, total, maxBatch, limit, candidates);
            && batch <= p.batch && |p.batch| <= maxBatch && total <= p.total
            && (|p.batch| < maxBatch ==> p.looked == |candidates|)
            && (forall id :: id in p.kept ==> id in candidates[..p.looked])
            && (forall id :: id in p.kept ==> Unfit(table, batch[0], p.total, limit, id))
    decreases |candidates|
  {
    if |batch| < maxBatch && candidates != [] {
      var id, rest := candidates[0], candidates[1..];
      var fate := FateOf(table[id], id in late, table[batch[0]].shape, total, limit);
      if fate == Joins {
        PicksAreMaximal(table, late, batch + [id], total + table[id].cost, maxBatch, limit, rest);
      } else {
        PicksAreMaximal(table, late, batch, total, maxBatch, limit, rest);
      }
      var p := Picks(table, late, batch, total, maxBatch, limit, candidates);
      assert candidates[..p.looked] == [id] + rest[..p.looked - 1];
    }
  }

  /** Those that join or wait are the candidates looked at that are neither late nor cancelled, and
      those that join have the batch's shape. */
  lemma {:induction false} PicksAreInTime(table: Table, late: set<nat>, batch: seq<nat>, total: nat, maxBatch: nat,
                                          limit: nat, candidates: seq<nat>)
    requires batch != [] && batch[0] in table && Known(table, candidates)
    ensures var p := Picks(table, late, batch, total, maxBatch, limit, candidates);
            && (forall id :: id in p.batch[|batch|..] + p.kept <==>
                  id in candidates[..p.looked] && id in table && id !in late && table[id].status != Cancelled)
            && (forall id :: id in p.batch[|batch|..] ==> id in table && table[id].shape == table[batch[0]].shape)
    decreases |candidates|
  {
    hide Picks;
    PicksStep(table, late, batch, total, maxBatch, limit, candidates);
    if |batch| < maxBatch && candidates != [] {
      var id, rest := candidates[0], candidates[1..];
      var fate := FateOf(table[id], id in late, table[batch[0]].shape, total, limit);
      var p := Picks(table, late, batch, total, maxBatch, limit, candidates);
      if fate == Joins {
        PicksAreInTime(table, late, batch + [id], total + table[id].cost, maxBatch, limit, rest);
        assert p.batch[|batch|..] == [id] + p.batch[|batch| + 1..];
      } else {
        PicksAreInTime(table, late, batch, total, maxBatch, limit, rest);
      }
      assert candidates[..p.looked] == [id] + rest[..p.looked - 1];
    }
  }

  lemma PicksStep(table: Table, late: set<nat>, batch: seq<nat>, total: nat, maxBatch: nat, limit: nat,
                  candidates: seq<nat>)
    requires batch != [] && batch[0] in table && Known(table, candidates)
    ensures |batch| >= maxBatch || candidates == [] ==>
              Picks(table, late, batch, total, maxBatch, limit, candidates) == Pick(batch, total, [], 0)
    ensures |batch| < maxBatch && candidates != [] ==>
              var id, rest := candidates[0], candidates[1..];
              var fate := FateOf(table[id], id in late, table[batch[0]].shape, total, limit);
              var p := if fate == Joins
                       then Picks(table, late, batch + [id], total + table[id].cost, maxBatch, limit, rest)
                       else Picks(table, late, batch, total, maxBatch, limit, rest);
              Picks(table, late, batch, total, maxBatch, limit, candidates) ==
                Pick(p.batch, p.total, (if fate == Waits then [id] else []) + p.kept, p.looked + 1)
  {}

  /** What one more candidate at the end changes: nothing once the batch is full; else, unless it is
      late or cancelled, it joins if it has the batch's shape and fits beside those before it, and
      otherwise waits behind those that wait. */
  lemma {:induction false} PicksOneByOne(table: Table, late: set<nat>, batch: seq<nat>, total: nat, maxBatch: nat,
                                         limit: nat, candidates: seq<nat>, id: nat)
    requires batch != [] && batch[0] in table && Known(table, candidates + [id]) && |batch| <= maxBatch
    ensures Known(table, candidates)
    ensures var p := Picks(table, late, batch, total, maxBatch, limit, candidates);
            Picks(table, late, batch, total, maxBatch, limit, candidates + [id]) ==
              if |p.batch| == maxBatch then p
              else if id in late || table[id].status == Cancelled then p.(looked := p.looked + 1)
              else if table[id].shape == table[batch[0]].shape && p.total + table[id].cost <= limit
              then Pick(p.batch + [id], p.total + table[id].cost, p.kept, p.looked + 1)
              else Pick(p.batch, p.total, p.kept + [id], p.looked + 1)
    decreases |candidates|
  {
    hide Picks;
    KnownParts(table, candidates, id);
    PicksStep(table, late, batch, total, maxBatch, limit, candidates);
    PicksStep(table, late, batch, total, maxBatch, limit, candidates + [id]);
    if |batch| < maxBatch && candidates != [] {
      var head, rest := candidates[0], candidates[1..];
      assert (candidates + [id])[1..] == rest + [id];
      var fate := FateOf(table[head], head in late, table[batch[0]].shape, total, limit);
      if fate == Joins {
        PicksOneByOne(table, late, batch + [head], total + table[head].cost, maxBatch, limit, rest, id);
      } else {
        PicksOneByOne(table, late, batch, total, maxBatch, limit, rest, id);
        var p := Picks(table, late, batch, total, maxBatch, limit, rest);
        assert [head] + (p.kept + [id]) == ([head] + p.kept) + [id] && [] + (p.kept + [id]) == ([] + p.kept) + [id];
      }
    } else if candidates == [] {
      assert [id][1..] == [];
      PicksStep(table, late, batch + [id], total + table[id].cost, maxBatch, limit, []);
    }
  }

  lemma KnownParts(table: Table, candidates: seq<nat>, id: nat)
    requires Known(table, candidates + [id])
    ensures Known(table, candidates) && id in table && (candidates != [] ==> Known(table, candidates[1..] + [id]))
  {
    assert forall x :: x in candidates ==> x in candidates + [id];
    assert (candidates + [id])[|candidates|] == id;
    assert candidates != [] ==> (candidates + [id])[1..] == candidates[1..] + [id];
  }

  /** The choice depends only on the candidates' own records and the batch's shape. */
  lemma {:induction false} PicksStable(a: Table, b: Table, late: set<nat>, batch: seq<nat>, total: nat, maxBatch: nat,
                                       limit: nat, candidates: seq<nat>)
    requires batch != [] && batch[0] in a && batch[0] in b && a[batch[0]].shape == b[batch[0]].shape
    requires Known(a, candidates) && Known(b, candidates)
    requires forall id :: id in candidates ==> a[id] == b[id]
    ensures Picks(a, late, batch, total, maxBatch, limit, candidates)
         == Picks(b, late, batch, total, maxBatch, limit, candidates)
    decreases |candidates|
  {
    if |batch| < maxBatch && candidates != [] {
      var id, rest := candidates[0], candidates[1..];
      PicksStable(a, b, late, batch + [id], total + a[id].cost, maxBatch, limit, rest);
      PicksStable(a, b, late, batch, total, maxBatch, limit, rest);
    }
  }

  /** What looking at a candidate does: it joins the batch, or is dropped and, if late, resolved as
      timed out, or goes to the back of the deferred requests. Nobody else is affected. */
  ghost predicate Considered(limit: nat, candidate: nat, late: bool, batch: seq<nat>, total: nat, grown: seq<nat>,
                             newTotal: nat, a: Table, b: Table, back: seq<nat>, newBack: seq<nat>) {
    && candidate in a && batch != [] && batch[0] in a
    && (if late || a[candidate].status == Cancelled then
          && grown == batch && newTotal == total && newBack == back
          && b == a[candidate := if late then Finished(a[candidate], Timeout) else a[candidate]]
          && b[candidate].outcome.Some?
        else if a[candidate].shape == a[batch[0]].shape && total + a[candidate].cost <= limit then
          grown == batch + [candidate] && newTotal == total + a[candidate].cost && newBack == back && b == a
        else grown == batch && newTotal == total && newBack == back + [candidate] && b == a)
  }

  /** Part of the way through a list of candidates: the choice among the rest completes `goal`, and
      the records of those in the batch, deferred, or still to come are as they were. */
  ghost predicate Ahead(start: Table, table: Table, late: set<nat>, maxBatch: nat, limit: nat, batch: seq<nat>,
                        total: nat, kept: seq<nat>, looked: nat, rest: seq<nat>, goal: Pick) {
    && batch != [] && batch[0] in table && Known(table, rest)
    && (forall id :: id in kept + batch + rest ==> id in start && id in table && table[id] == start[id])
    && var p := Picks(table, late, batch, total, maxBatch, limit, rest);
       goal == Pick(p.batch, p.total, kept + p.kept, looked + p.looked)
  }

  lemma AheadStarts(table: Table, late: set<nat>, maxBatch: nat, limit: nat, batch: seq<nat>, total: nat,
                    kept: seq<nat>, rest: seq<nat>)
    requires batch != [] && Known(table, batch) && Known(table, kept) && Known(table, rest)
    ensures var p := Picks(table, late, batch, total, maxBatch, limit, rest);
            Ahead(table, table, late, maxBatch, limit, batch, total, kept, 0, rest, p.(kept := kept + p.kept))
  {}

  lemma AheadGoesOn(start: Table, a: Table, b: Table, late: set<nat>, maxBatch: nat, limit: nat, batch: seq<nat>,
                    total: nat, grown: seq<nat>, newTotal: nat, kept: seq<nat>, newKept: seq<nat>, looked: nat,
                    rest: seq<nat>, goal: Pick)
    requires Ahead(start, a, late, maxBatch, limit, batch, total, kept, looked, rest, goal)
    requires rest != [] && |batch| < maxBatch
    requires Considered(limit, rest[0], rest[0] in late, batch, total, grown, newTotal, a, b, kept, newKept)
    requires rest[0] !in rest[1..] && rest[0] !in batch && rest[0] !in kept
    ensures Ahead(start, b, late, maxBatch, limit, grown, newTotal, newKept, looked + 1, rest[1..], goal)
  {
    var id := rest[0];
    assert rest == [id] + rest[1..];
    PicksStable(a, b, late, grown, newTotal, maxBatch, limit, rest[1..]);
    var p := Picks(b, late, grown, newTotal, maxBatch, limit, rest[1..]);
    assert (kept + [id]) + p.kept == kept + ([id] + p.kept);
  }

  lemma AheadEnds(start: Table, table: Table, late: set<nat>, maxBatch: nat, limit: nat, batch: seq<nat>,
                  total: nat, kept: seq<nat>, looked: nat, rest: seq<nat>, goal: Pick)
    requires Ahead(start, table, late, maxBatch, limit, batch, total, kept, looked, rest, goal)
    requires rest == [] || |batch| >= maxBatch
    ensures goal == Pick(batch, total, kept, looked)
    ensures forall id :: id in kept + batch ==> id in start && id in table && table[id] == start[id]
  {
    assert kept + [] == kept;
  }

  /** What an undisturbed collection comes to: the batch, the deferred requests, and how many items
      it takes out of the queue. */
  datatype Plan = Plan(batch: seq<nat>, deferred: seq<nat>, taken: nat)

  /** First the deferred requests are looked at, then those at the front of the queue. */
  ghost function PlanOf(table: Table, late: set<nat>, first: nat, deferred: seq<nat>, items: seq<Option<nat>>,
                        waits: nat, maxBatch: nat, limit: nat): (plan: Plan)
    requires first in table && Known(table, deferred) && Known(table, Front(items, waits))
    ensures plan.taken <= |items|
  {
    var scan := Picks(table, late, [first], table[first].cost, maxBatch, limit, deferred);
    var more := Picks(table, late, scan.batch, scan.total, maxBatch, limit, Front(items, waits));
    Plan(more.batch, deferred[scan.looked..] + scan.kept + more.kept, more.looked)
  }

  /** Batch, deferred requests and queue are what the plan makes of them. */
  ghost predicate Planned(t0: Table, d0: seq<nat>, items0: seq<Option<nat>>, first: nat, script: Script, maxBatch: nat,
                          limit: nat, batch: seq<nat>, deferred: seq<nat>, items: seq<Option<nat>>) {
    && first in t0 && Known(t0, d0) && Known(t0, Front(items0, |script.windows|))
    && PlanOf(t0, script.late, first, d0, items0, |script.windows|, maxBatch, limit).batch == batch
    && PlanOf(t0, script.late, first, d0, items0, |script.windows|, maxBatch, limit).deferred == deferred
    && items == items0[PlanOf(t0, script.late, first, d0, items0, |script.windows|, maxBatch, limit).taken..]
  }

  lemma IsPlanned(t0: Table, d0: seq<nat>, items0: seq<Option<nat>>, first: nat, script: Script, maxBatch: nat,
                  limit: nat, scan: Pick, more: Pick)
    requires first in t0 && Known(t0, d0) && Known(t0, Front(items0, |script.windows|))
    requires scan == Picks(t0, script.late, [first], t0[first].cost, maxBatch, limit, d0)
    requires scan.batch != [] && scan.batch[0] in t0
    requires more == Picks(t0, script.late, scan.batch, scan.total, maxBatch, limit, Front(items0, |script.windows|))
    ensures Planned(t0, d0, items0, first, script, maxBatch, limit, more.batch,
                    d0[scan.looked..] + scan.kept + more.kept, items0[more.looked..])
  {
    hide Picks, Front;
  }

  /** Those of the batch that are neither cancelled nor late when it starts to run. */
  function Runnable(table: Table, batch: seq<nat>, late: set<nat>): seq<nat>
    requires forall id :: id in batch ==> id in table
  {
    if batch == [] then []
    else
      var last := batch[|batch| - 1];
      Runnable(table, batch[..|batch| - 1], late)
      + (if table[last].status == Cancelled || last in late then [] else [last])
  }

  lemma {:induction false} RunnableMembers(table: Table, batch: seq<nat>, late: set<nat>)
    requires Known(table, batch)
    ensures forall id :: id in Runnable(table, batch, late) <==>
              id in batch && table[id].status != Cancelled && id !in late
  {
    if batch != [] {
      var init, last := batch[..|batch| - 1], batch[|batch| - 1];
      assert batch == init + [last];
      RunnableMembers(table, init, late);
    }
  }

  /** Who runs keeps the order of the batch. */
  lemma {:induction false} RunnableInOrder(table: Table, first: seq<nat>, second: seq<nat>, late: set<nat>)
    requires Known(table, first) && Known(table, second) && Known(table, first + second)
    ensures Runnable(table, first + second, late) == Runnable(table, first, late) + Runnable(table, second, late)
  {
    if second == [] {
      assert first + second == first;
    } else {
      var init, last := second[..|second| - 1], second[|second| - 1];
      assert (first + second)[..|first + second| - 1] == first + init;
      RunnableInOrder(table, first, init, late);
    }
  }

  lemma {:induction false} RunnableStable(a: Table, b: Table, batch: seq<nat>, late: set<nat>)
    requires Known(a, batch) && Known(b, batch) && forall id :: id in batch ==> a[id] == b[id]
    ensures Runnable(a, batch, late) == Runnable(b, batch, late)
  {
    if batch != [] {
      RunnableStable(a, b, batch[..|batch| - 1], late);
    }
  }

  /** What a collection reads and changes. */
  datatype Spot = Spot(table: Table, items: seq<Option<nat>>, deferred: seq<nat>, places: multiset<nat>, next: nat,
                       accepting: bool)

  /** An undisturbed collection that began at `start` is on its way to `goal`. */
  ghost predicate OnCourse(start: Spot, late: set<nat>, maxBatch: nat, limit: nat, goal: Pick, now: Spot,
                           batch: seq<nat>, total: nat, looked: nat, rest: seq<nat>) {
    && looked <= |start.items| && now.items == start.items[looked..]
    && Carried(start.table, now.table, start.places, now.places)
    && now.next == start.next && now.accepting == start.accepting
    && Ahead(start.table, now.table, late, maxBatch, limit, batch, total, now.deferred, looked, rest, goal)
  }

  lemma CourseGoesOn(start: Spot, late: set<nat>, maxBatch: nat, limit: nat, goal: Pick, a: Spot, b: Spot,
                     batch: seq<nat>, total: nat, grown: seq<nat>, newTotal: nat, looked: nat, rest: seq<nat>)
    requires OnCourse(start, late, maxBatch, limit, goal, a, batch, total, looked, rest)
    requires rest != [] && |batch| < maxBatch && a.items != [] && b.items == a.items[1..]
    requires Considered(limit, rest[0], rest[0] in late, batch, total, grown, newTotal, a.table, b.table,
                        a.deferred, b.deferred)
    requires rest[0] !in rest[1..] && rest[0] !in batch && rest[0] !in a.deferred
    requires Carried(a.table, b.table, a.places, b.places) && b.next == a.next && b.accepting == a.accepting
    ensures OnCourse(start, late, maxBatch, limit, goal, b, grown, newTotal, looked + 1, rest[1..])
  {
    hide Carried, Considered, Ahead;
    CarriedJoins(start.table, a.table, b.table, start.places, a.places, b.places);
    AheadGoesOn(start.table, a.table, b.table, late, maxBatch, limit, batch, total, grown, newTotal, a.deferred,
                b.deferred, looked, rest, goal);
  }

  /** Where nothing can be taken any more, the collection is over. */
  lemma CourseStops(start: Spot, late: set<nat>, maxBatch: nat, limit: nat, goal: Pick, a: Spot, b: Spot,
                    batch: seq<nat>, total: nat, looked: nat)
    requires OnCourse(start, late, maxBatch, limit, goal, a, batch, total, looked, [])
    requires b == a.(places := b.places) && Carried(a.table, b.table, a.places, b.places)
    ensures OnCourse(start, late, maxBatch, limit, goal, b, batch, total, looked, [])
  {
    hide Carried, Ahead;
    CarriedJoins(start.table, a.table, b.table, start.places, a.places, b.places);
  }

  lemma UnfitStays(a: Table, b: Table, first: nat, total: nat, newTotal: nat, limit: nat, ids: seq<nat>)
    requires Grown(a, b) && total <= newTotal && forall id :: id in ids ==> Unfit(a, first, total, limit, id)
    ensures forall id :: id in ids ==> Unfit(b, first, newTotal, limit, id)
  {}

  lemma UnfitAfter(limit: nat, candidate: nat, late: bool, batch: seq<nat>, total: nat, grown: seq<nat>,
                   newTotal: nat, a: Table, b: Table, back: seq<nat>, newBack: seq<nat>)
    requires Considered(limit, candidate, late, batch, total, grown, newTotal, a, b, back, newBack) && Grown(a, b)
    requires forall id :: id in back ==> Unfit(a, batch[0], total, limit, id)
    ensures forall id :: id in newBack ==> Unfit(b, batch[0], newTotal, limit, id)
  {}

  /** The requests at the front of the queue, at most `n`, up to the sentinel. */
  ghost function Front(items: seq<Option<nat>>, n: nat): (ids: seq<nat>)
    ensures |ids| <= n && |ids| <= |items|
  {
    if n == 0 || items == [] || items[0] == None then [] else [items[0].value] + Front(items[1..], n - 1)
  }

  lemma {:induction false} FrontIsQueued(items: seq<Option<nat>>, n: nat)
    ensures forall id :: id in Front(items, n) ==> id in Ids(items)
  {
    if n > 0 && items != [] && items[0] != None {
      FrontIsQueued(items[1..], n - 1);
    }
  }

  lemma FrontStep(items: seq<Option<nat>>, n: nat)
    requires n > 0
    ensures items == [] || items[0] == None ==> Front(items, n) == []
    ensures items != [] && items[0].Some? ==>
              && Front(items, n) != [] && Front(items, n)[0] == items[0].value
              && Front(items, n)[1..] == Front(items[1..], n - 1)
  {}

  /** Only these records changed. */
  ghost predicate Touched(a: Table, b: Table, ids: seq<nat>) {
    forall id :: id in a && id !in ids ==> id in b && b[id] == a[id]
  }

  lemma DistinctPrefix(ids: seq<nat>, i: nat)
    requires NoDuplicates(ids) && i < |ids|
    ensures ids[i] !in ids[..i]
  {}

  /** The status with which a request leaves the worker. */
  function EndStatus(r: Record, late: bool): Status {
    if r.status == Cancelled then Cancelled else if late then Timeout else Completed
  }

  /** A result was handed to a request: cancelled ones stay cancelled. */
  ghost predicate Delivered(r: Record, before: Record, late: bool) {
    r == Finished(before, EndStatus(before, late))
  }

  /** A request of the batch when the batch starts: late ones time out, the others run. */
  function Begun(r: Record, late: bool): Record {
    if r.status == Cancelled then r else if late then Finished(r, Timeout) else r.(status := Running)
  }

  /** The batch has started, and nobody else is affected. */
  ghost predicate Started(a: Table, b: Table, batch: seq<nat>, late: set<nat>) {
    && a.Keys == b.Keys
    && forall id :: id in a ==> b[id] == if id in batch then Begun(a[id], id in late) else a[id]
  }

  lemma NothingStarted(a: Table, late: set<nat>)
    ensures Started(a, a, [], late)
  {}

  lemma OneStarts(a: Table, b: Table, batch: seq<nat>, i: nat, late: set<nat>)
    requires i < |batch| && NoDuplicates(batch) && batch[i] in b && Started(a, b, batch[..i], late)
    requires Known(a, batch[..i])
    ensures b[batch[i]] == a[batch[i]] && Known(a, batch[..i + 1])
    ensures Started(a, b[batch[i] := Begun(b[batch[i]], batch[i] in late)], batch[..i + 1], late)
    ensures var runs := a[batch[i]].status != Cancelled && batch[i] !in late;
            Runnable(a, batch[..i + 1], late) == Runnable(a, batch[..i], late) + if runs then [batch[i]] else []
  {
    assert batch[..i + 1] == batch[..i] + [batch[i]] && batch[..i + 1][..i] == batch[..i];
    DistinctPrefix(batch, i);
  }

  lemma StartedTouches(a: Table, b: Table, batch: seq<nat>, late: set<nat>)
    requires Started(a, b, batch, late)
    ensures Touched(a, b, batch) && a.Keys == b.Keys
  {}

  // ---------------------------------------------------------------- the scheduler

  datatype SubmitError = QueueClosed | QueueFull

  /** What another task may do while the loop waits. */
  datatype Event = Submits(shape: Shape, cost: nat) | Cancels(id: nat) | Closes

  /** A wait: what other tasks do during it, and whether the loop's own task is cancelled in it. */
  datatype Window = Window(events: seq<Event>, cancelled: bool)

  /** What the worker call did: returned this many results, raised, or was cancelled. */
  datatype WorkerOutcome = Results(count: nat) | Raised | TaskCancelled

  /** The environment during one turn: the wait for a first request; the waits during collection,
      as many as its time allows, and which candidates are late then; who is late when the batch
      starts; what happens during the worker call and how it ends; and who is late by then. */
  datatype Script = Script(idle: Window, windows: seq<Window>, late: set<nat>, lateAtStart: set<nat>,
                           call: seq<Event>, worker: WorkerOutcome, lateAtEnd: set<nat>)
  {
    /** Nobody interferes before the worker call. */
    ghost predicate Calm() {
      idle == Window([], false) && forall w :: w in windows ==> w == Window([], false)
    }
  }

  /** How one turn of the loop ended: nothing to do yet, go on, ended by the sentinel, ended by the
      cancellation of the task while it waited for a request, or during the worker call. */
  datatype Turn = Idle | Continued | Stopped | Interrupted | Aborted

  /** A request after its client may have cancelled it, which does nothing to a terminal one. */
  function Gone(r: Record, cancelled: bool): Record {
    if cancelled && !r.status.Terminal() then Finished(r, Cancelled) else r
  }

  /** Requests held by the loop are left alone by other tasks unless they are cancelled. */
  ghost predicate LeftAlone(a: Table, b: Table, held: multiset<nat>, events: seq<Event>) {
    forall id :: id in held && id in a ==> id in b && b[id] == Gone(a[id], Cancels(id) in events)
  }

  lemma LeftAloneJoins(a: Table, b: Table, c: Table, held: multiset<nat>, first: seq<Event>, second: seq<Event>)
    requires LeftAlone(a, b, held, first) && LeftAlone(b, c, held, second)
    ensures LeftAlone(a, c, held, first + second)
  {}

  lemma LeftAloneByOthers(a: Table, b: Table, ids: seq<nat>, held: multiset<nat>)
    requires Touched(a, b, ids) && forall id :: id in ids ==> id !in held
    ensures LeftAlone(a, b, held, [])
  {}

  lemma LeftAloneLess(a: Table, b: Table, more: multiset<nat>, held: multiset<nat>, events: seq<Event>)
    requires LeftAlone(a, b, more, events) && held <= more
    ensures LeftAlone(a, b, held, events)
  {}

  /** Each of these requests is resolved, or is cancelled by one of the events. */
  ghost predicate Covered(table: Table, ids: seq<nat>, events: seq<Event>) {
    forall id :: id in ids ==> id in table && (table[id].outcome.Some? || Cancels(id) in events)
  }

  /** Held requests end resolved exactly when they are covered. */
  lemma CoveredAreResolved(a: Table, b: Table, ids: seq<nat>, events: seq<Event>)
    requires Known(a, ids) && LeftAlone(a, b, multiset(ids), events)
    requires TerminalResolved(a)
    ensures Covered(a, ids, events) <==> ResolvedIn(b, multiset(ids))
  {
    forall id | id in ids
      ensures id in b && (b[id].outcome.Some? <==> a[id].outcome.Some? || Cancels(id) in events)
    {
      assert id in multiset(ids);
    }
    assert forall id :: id in ids <==> id in multiset(ids);
  }

  // ---------------------------------------------------------------- what other tasks make of the queue

  /** What matters about the queue when the loop is gone: the queued requests whose futures are not
      resolved, its length, the next request number, and whether it accepts requests. */
  datatype Outlook = Outlook(open: set<nat>, length: nat, next: nat, accepting: bool)

  function Then(o: Outlook, event: Event, maximum: nat): Outlook {
    match event
    case Submits(_, _) =>
      if o.accepting && o.length < maximum then Outlook(o.open + {o.next}, o.length + 1, o.next + 1, true)
      else o.(next := o.next + 1)
    case Cancels(id) => o.(open := o.open - {id})
    case Closes => if o.accepting then Outlook({}, 1, o.next, false) else o
  }

  ghost function After(o: Outlook, events: seq<Event>, maximum: nat): Outlook {
    if events == [] then o
    else Then(After(o, events[..|events| - 1], maximum), events[|events| - 1], maximum)
  }

  /** A closed queue holds nobody back; while it stays open, a request that was queued is unresolved
      afterwards exactly when it was before and nobody cancelled it, and every request the events
      themselves bring in is a later one. */
  lemma {:induction false} OutlookMeaning(o: Outlook, events: seq<Event>, maximum: nat)
    requires !o.accepting ==> o.open == {}
    requires forall id :: id in o.open ==> id < o.next
    ensures var z := After(o, events, maximum);
            && z.next >= o.next && (forall id :: id in z.open ==> id < z.next)
            && (z.accepting <==> o.accepting && Closes !in events) && (!z.accepting ==> z.open == {})
            && (z.accepting ==>
                  forall id :: id < o.next ==> (id in z.open <==> id in o.open && Cancels(id) !in events))
  {
    if events != [] {
      var init, last := events[..|events| - 1], events[|events| - 1];
      assert events == init + [last];
      OutlookMeaning(o, init, maximum);
    }
  }

  ghost function Unresolved(table: Table, ids: multiset<nat>): set<nat> {
    set id | id in ids && id in table && table[id].outcome.None?
  }

  lemma OpenAfterSubmit(table: Table, ids: multiset<nat>, id: nat, r: Record)
    requires id !in table && id !in ids
    ensures Unresolved(table[id := r], ids) == Unresolved(table, ids)
    ensures r.outcome.None? ==> Unresolved(table[id := r], ids + multiset{id}) == Unresolved(table, ids) + {id}
  {}

  lemma OpenAfterCancel(table: Table, ids: multiset<nat>, id: nat)
    requires id in table && (table[id].status.Terminal() ==> table[id].outcome.Some?)
    ensures Unresolved(table[id := Gone(table[id], true)], ids) == Unresolved(table, ids) - {id}
  {}

  lemma OpenUntouched(a: Table, b: Table, ids: multiset<nat>)
    requires forall id :: id in ids ==> id in a && id in b && a[id] == b[id]
    ensures Unresolved(a, ids) == Unresolved(b, ids)
  {}

  lemma NothingOpen(table: Table, ids: multiset<nat>)
    requires forall id :: id in ids ==> id in table
    ensures Unresolved(table, ids) == {} <==> ResolvedIn(table, ids)
  {
    if Unresolved(table, ids) == {} {
      forall id | id in ids
        ensures table[id].outcome.Some?
      {
        assert id !in Unresolved(table, ids);
      }
    }
  }

  /** The requests still in some place are the same as before, and nothing happened to them. */
  ghost predicate Carried(a: Table, b: Table, before: multiset<nat>, now: multiset<nat>) {
    forall id :: id in now ==> id in before && id in a && id in b && b[id] == a[id]
  }

  lemma CarriedStarts(a: Table, places: multiset<nat>)
    requires forall id :: id in places ==> id in a
    ensures Carried(a, a, places, places)
  {}

  lemma CarriedJoins(a: Table, b: Table, c: Table, x: multiset<nat>, y: multiset<nat>, z: multiset<nat>)
    requires Carried(a, b, x, y) && Carried(b, c, y, z)
    ensures Carried(a, c, x, z)
  {}

  lemma CarriedLess(a: Table, before: multiset<nat>, now: multiset<nat>, id: nat, r: Record)
    requires forall other :: other in before ==> other in a
    requires forall other :: other in now ==> other in before && other != id
    ensures Carried(a, a[id := r], before, now)
  {}

  /** The outcome that the worker's answer brings the `i`-th running request. */
  function OutcomeOf(script: Script, i: nat, id: nat): Status {
    if Cancels(id) in script.call then Cancelled
    else if script.worker.Results? && i < script.worker.count then
      if id in script.lateAtEnd then Timeout else Completed
    else Failed
  }

  ghost predicate RanOne(a: Table, b: Table, active: seq<nat>, i: nat, script: Script)
    requires i < |active|
  {
    var id := active[i];
    && id in a && id in b && b[id].outcome.Some?
    && (a[id].outcome.None? ==> b[id].outcome == Some(OutcomeOf(script, i, id)))
    && b[id].status == if script.worker == Results(|active|) then OutcomeOf(script, i, id) else Failed
  }

  /** The batch after the worker call: each running request is resolved by its own fate, and so are
      those that were late when it started; with a wrong number of results all records are failed. */
  ghost predicate Ran(a: Table, b: Table, batch: seq<nat>, active: seq<nat>, script: Script) {
    && (forall i :: 0 <= i < |active| ==> RanOne(a, b, active, i, script))
    && forall id :: id in batch && id !in active ==>
         id in a && id in b && (a[id].outcome.None? ==> b[id].outcome == Some(Timeout))
  }

  lemma RanFrom(t0: Table, a: Table, b: Table, batch: seq<nat>, active: seq<nat>, script: Script)
    requires Ran(a, b, batch, active, script)
    requires forall id :: id in batch || id in active ==> id in t0 && id in a && t0[id] == a[id]
    ensures Ran(t0, b, batch, active, script)
  {
    forall i | 0 <= i < |active|
      ensures RanOne(t0, b, active, i, script)
    {
      assert RanOne(a, b, active, i, script) && active[i] in active;
    }
  }

  ghost predicate TerminalResolved(table: Table) {
    forall id :: id in table && table[id].status.Terminal() ==> table[id].outcome.Some?
  }

  /** What the worker's answer does to the running requests. */
  ghost predicate Answered(a: Table, b: Table, active: seq<nat>, worker: WorkerOutcome, late: set<nat>) {
    && (forall id :: id in active ==> id in a && id in b)
    && (worker == Results(|active|) ==> forall id :: id in active ==> Delivered(b[id], a[id], id in late))
    && (worker != Results(|active|) ==> forall i :: 0 <= i < |active| ==>
          && b[active[i]].status == Failed
          && (a[active[i]].outcome.None? ==>
                b[active[i]].outcome == Some(
                  if worker.Results? && i < worker.count then EndStatus(a[active[i]], active[i] in late) else Failed)))
  }

  /** A running request, possibly cancelled during the call, and then the worker's answer. */
  lemma OneRan(a: Table, waited: Table, b: Table, active: seq<nat>, script: Script, i: nat)
    requires i < |active| && active[i] in a && a[active[i]].status == Running
    requires LeftAlone(a, waited, multiset(active), script.call)
    requires Answered(waited, b, active, script.worker, script.lateAtEnd) && Grown(waited, b)
    requires forall id :: id in active ==> id in b && b[id].outcome.Some?
    ensures RanOne(a, b, active, i, script)
  {
    var id := active[i];
    assert id in active && id in multiset(active);
    assert waited[id] == Gone(a[id], Cancels(id) in script.call);
  }

  lemma RanAltogether(a: Table, started: Table, b: Table, batch: seq<nat>, active: seq<nat>, script: Script)
    requires Known(a, batch) && TerminalResolved(a) && Started(a, started, batch, script.lateAtStart)
    requires Grown(started, b) && active == Runnable(a, batch, script.lateAtStart)
    requires forall i :: 0 <= i < |active| ==> RanOne(started, b, active, i, script)
    ensures Ran(a, b, batch, active, script) && ResolvedIn(b, multiset(batch))
  {
    hide Runnable;
    RunnableMembers(a, batch, script.lateAtStart);
    forall i | 0 <= i < |active|
      ensures RanOne(a, b, active, i, script)
    {
      assert active[i] in active;
      assert RanOne(started, b, active, i, script);
    }
    forall id | id in batch && id !in active
      ensures id in a && id in b && (a[id].outcome.None? ==> b[id].outcome == Some(Timeout)) && b[id].outcome.Some?
    {
      OneDropped(a, started, b, batch, script, id);
    }
    forall id | id in multiset(batch)
      ensures id in b && b[id].outcome.Some?
    {
      if id in active {
        var i :| 0 <= i < |active| && active[i] == id;
        assert RanOne(a, b, active, i, script);
      }
    }
  }

  lemma OneDropped(a: Table, started: Table, b: Table, batch: seq<nat>, script: Script, id: nat)
    requires id in batch && id in a && (a[id].status == Cancelled || id in script.lateAtStart) && TerminalResolved(a)
    requires Started(a, started, batch, script.lateAtStart) && Grown(started, b)
    ensures id in b && (a[id].outcome.None? ==> b[id].outcome == Some(Timeout)) && b[id].outcome.Some?
  {}

  lemma AllRunning(a: Table, b: Table, batch: seq<nat>, late: set<nat>)
    requires Known(a, batch) && Started(a, b, batch, late)
    ensures forall id :: id in Runnable(a, batch, late) ==> id in b && b[id].status == Running
  {
    RunnableMembers(a, batch, late);
  }

  lemma CarriedMembers(a: Table, b: Table, before: multiset<nat>, now: multiset<nat>)
    requires Carried(a, b, before, now)
    ensures forall id :: id in now ==> id in a && id in b && b[id] == a[id]
  {}

  lemma HeldStable(t0: Table, a: Table, b: Table, ids: seq<nat>, events: seq<Event>)
    requires forall id :: id in ids ==> id in t0 && id in a && a[id] == t0[id]
    ensures Covered(t0, ids, events) <==> Covered(a, ids, events)
    ensures LeftAlone(t0, b, multiset(ids), events) <==> LeftAlone(a, b, multiset(ids), events)
  {
    assert forall id :: id in ids <==> id in multiset(ids);
  }

  lemma OpenIsOlder(table: Table, ids: multiset<nat>, next: nat)
    requires forall id :: id in table ==> id < next
    ensures forall id :: id in Unresolved(table, ids) ==> id < next
  {}

  ghost predicate AllResolved(table: Table) {
    forall id :: id in table ==> table[id].outcome.Some?
  }

  ghost predicate ResolvedIn(table: Table, places: multiset<nat>) {
    forall id :: id in places ==> id in table && table[id].outcome.Some?
  }

  /** Closing rejects what is queued: `now` is still in the queue, the rest of `all` is rejected. */
  ghost predicate Rejecting(a: Table, b: Table, all: multiset<nat>, now: multiset<nat>) {
    && a.Keys == b.Keys && now <= all
    && forall id :: id in a ==> b[id] == if id in all && id !in now then Finished(a[id], Rejected) else a[id]
  }

  lemma RejectingGoesOn(a: Table, b: Table, all: multiset<nat>, now: multiset<nat>, id: nat)
    requires Rejecting(a, b, all, now) && id in now && id in b && forall other :: other in all ==> all[other] == 1
    ensures Rejecting(a, b[id := Finished(b[id], Rejected)], all, now - multiset{id})
  {
    assert now[id] <= all[id];
    assert forall other :: other in now - multiset{id} <==> other in now && other != id;
  }

  class Scheduler {
    const maximum: nat
    const maxBatch: nat
    const maxTokens: nat
    var items: seq<Option<nat>>
    /** The queue's count of items put but not yet marked done. */
    var unfinished: nat
    var accepting: bool
    var maxObserved: nat
    var table: Table
    var nextId: nat
    var deferred: seq<nat>
    /** The loop's task has not ended. */
    var alive: bool
    /** Requests taken out and not yet resolved or deferred, and queue items not yet marked done. */
    ghost var hand: multiset<nat>
    ghost var owed: nat

    ghost predicate Books()
      reads this
    {
      && maximum > 0 && maxBatch > 0
      && Placed(table, Ids(items) + multiset(deferred) + hand)
      && unfinished == |items| + owed
      && forall id :: id in table ==> id < nextId
    }

    /** While requests are accepted there is no sentinel; afterwards there is nothing else. */
    ghost predicate Gate()
      reads this
    {
      if accepting then None !in items else items == [None]
    }

    ghost predicate Valid()
      reads this
    {
      Books() && Gate()
    }

    /** Where a request that is not resolved can still be. */
    ghost function Places(): multiset<nat>
      reads this`items, this`deferred, this`hand
    {
      Ids(items) + multiset(deferred) + hand
    }

    ghost function Now(): Outlook
      reads this`items, this`table, this`nextId, this`accepting
    {
      Outlook(Unresolved(table, Ids(items)), |items|, nextId, accepting)
    }

    constructor (maximum: nat, maxBatch: nat, maxTokens: nat)
      requires maximum > 0 && maxBatch > 0
      ensures Valid() && accepting && alive && table == map[] && hand == multiset{} && owed == 0 && deferred == []
      ensures items == [] && nextId == 0
      ensures this.maximum == maximum && this.maxBatch == maxBatch && this.maxTokens == maxTokens
    {
      this.maximum, this.maxBatch, this.maxTokens := maximum, maxBatch, maxTokens;
      items, unfinished, accepting, maxObserved := [], 0, true, 0;
      table, nextId, deferred, alive, hand, owed := map[], 0, [], true, multiset{}, 0;
    }

    // -------------------------------------------------------------- table and queue steps

    method Finish(id: nat, status: Status)
      requires Books() && id in table
      modifies this`table
      ensures Books() && table == old(table)[id := Finished(old(table)[id], status)] && Grown(old(table), table)
    {
      UpdateKeepsPlaced(table, Ids(items) + multiset(deferred) + hand, id, Finished(table[id], status));
      table := table[id := Finished(table[id], status)];
    }

    method SetStatus(id: nat, status: Status)
      requires Books() && id in table && !status.Terminal()
      modifies this`table
      ensures Books() && table == old(table)[id := old(table)[id].(status := status)] && Grown(old(table), table)
    {
      UpdateKeepsPlaced(table, Ids(items) + multiset(deferred) + hand, id, table[id].(status := status));
      table := table[id := table[id].(status := status)];
    }

    /** Takes the front item; it stays unfinished. */
    method Take() returns (item: Option<nat>)
      requires Books() && items != []
      modifies this`items, this`hand, this`owed
      ensures item == old(items)[0] && items == old(items)[1..] && owed == old(owed) + 1
      ensures Books() && hand == old(hand) + if item.Some? then multiset{item.value} else multiset{}
      ensures Places() == old(Places())
    {
      TakeMoves(items, multiset(deferred), hand);
      hide Ids, Placed;
      ghost var places := Ids(items) + multiset(deferred) + hand;
      item := items[0];
      items := items[1..];
      owed := owed + 1;
      if item.Some? {
        hand := hand + multiset{item.value};
      }
      assert Ids(items) + multiset(deferred) + hand == places;
    }

    /** The queue raises an error when this is called more often than items were taken. */
    method TaskDone()
      requires Books() && owed > 0 && unfinished > 0
      modifies this`unfinished, this`owed
      ensures Books() && owed == old(owed) - 1 && unfinished == old(unfinished) - 1
    {
      unfinished := unfinished - 1;
      owed := owed - 1;
    }

    method PutSentinel()
      requires Books()
      modifies this`items, this`unfinished
      ensures Books() && items == old(items) + [None] && unfinished == old(unfinished) + 1
    {
      IdsAppend(items, None);
      items := items + [None];
      unfinished := unfinished + 1;
    }

    /** A resolved request leaves the scheduler's hands. */
    ghost method LetGo(id: nat)
      requires Books() && id in hand && table[id].outcome.Some?
      modifies this`hand
      ensures Books() && hand == old(hand) - multiset{id}
      ensures forall other :: other in Places() ==> other in old(Places()) && other != id
    {
      var places := Ids(items) + multiset(deferred) + hand;
      DropKeepsPlaced(table, places, id);
      hand := hand - multiset{id};
      assert Ids(items) + multiset(deferred) + hand == places - multiset{id};
      assert forall other :: other in places - multiset{id} ==> other in places && other != id;
    }

    // -------------------------------------------------------------- calls from other tasks

    /** Accepts a request into the queue, or resolves it as rejected at once. */
    method Submit(shape: Shape, cost: nat) returns (id: nat, r: Result<(), SubmitError>)
      requires Valid()
      modifies this`items, this`table, this`unfinished, this`accepting, this`maxObserved, this`nextId
      ensures Valid() && Undisturbed(old(hand), old(owed), old(deferred)) && accepting == old(accepting)
      ensures id == old(nextId) == nextId - 1 && id !in old(table) && Grown(old(table), table)
      ensures id in table && table == old(table)[id := table[id]]
      ensures r == (if !accepting then Result.Failure(QueueClosed)
                    else if |old(items)| >= maximum then Result.Failure(QueueFull)
                    else Result.Success(()))
      ensures r.Success? ==> items == old(items) + [Some(id)] && table[id] == Record(shape, cost, Queued, None)
      ensures r.Success? ==> maxObserved >= |items|
      ensures r.Failure? ==> items == old(items) && table[id].outcome == Some(Rejected)
      ensures Now() == Then(old(Now()), Submits(shape, cost), maximum)
    {
      hide Placed, Ids, Unresolved;
      id := nextId;
      ghost var places := Ids(items) + multiset(deferred) + hand;
      UnknownIsNowhere(id);
      if !accepting || |items| >= maximum {
        var rejected := Record(shape, cost, Rejected, Some(Rejected));
        AddKeepsPlaced(table, places, id, rejected);
        OpenAfterSubmit(table, Ids(items), id, rejected);
        table := table[id := rejected];
        nextId := nextId + 1;
        r := Result.Failure(if !accepting then QueueClosed else QueueFull);
        return;
      }
      var record := Record(shape, cost, Queued, None);
      AddKeepsPlaced(table, places, id, record);
      OpenAfterSubmit(table, Ids(items), id, record);
      IdsAppend(items, Some(id));
      assert Ids(items + [Some(id)]) + multiset(deferred) + hand == places + multiset{id};
      table := table[id := record];
      nextId := nextId + 1;
      items := items + [Some(id)];
      unfinished := unfinished + 1;
      maxObserved := if |items| > maxObserved then |items| else maxObserved;
      r := Result.Success(());
    }

    lemma UnknownIsNowhere(id: nat)
      requires Books() && id == nextId
      ensures id !in table && id !in Ids(items)
    {
      hide Ids;
      assert id in Ids(items) ==> id in Ids(items) + multiset(deferred) + hand;
    }

    /** What calls from other tasks leave alone. */
    ghost predicate Undisturbed(h: multiset<nat>, o: nat, d: seq<nat>)
      reads this
    {
      hand == h && owed == o && deferred == d
    }

    /** The client went away: a request that is not terminal is cancelled on the spot. */
    method Cancel(id: nat)
      requires Valid() && id in table
      modifies this`table
      ensures Valid() && Grown(old(table), table)
      ensures table[id].outcome.Some?
      ensures table == old(table)[id := Gone(old(table)[id], true)]
      ensures Now() == Then(old(Now()), Cancels(id), maximum)
    {
      hide Placed, Ids, Unresolved;
      TerminalIsResolved();
      OpenAfterCancel(table, Ids(items), id);
      if !table[id].status.Terminal() {
        Finish(id, Cancelled);
      }
    }

    lemma TerminalIsResolved()
      requires Books()
      ensures TerminalResolved(table)
    {}

    /** Rejects everything queued and leaves the sentinel; in-flight and deferred requests stay. */
    method Close()
      requires Valid()
      modifies this`items, this`hand, this`owed, this`table, this`unfinished, this`accepting
      ensures Valid() && !accepting && Undisturbed(old(hand), old(owed), old(deferred)) && Grown(old(table), table)
      ensures !old(accepting) ==> table == old(table)
      ensures old(accepting) ==> items == [None] && Rejecting(old(table), table, Ids(old(items)), multiset{})
      ensures Now() == Then(old(Now()), Closes, maximum)
    {
      hide Placed, Ids, Rejecting;
      if !accepting {
        return;
      }
      accepting := false;
      ghost var all := Ids(items);
      NothingRejected(table, all);
      QueuedOnce();
      while items != []
        invariant Books() && None !in items && !accepting
        invariant Undisturbed(old(hand), old(owed), old(deferred)) && Grown(old(table), table)
        invariant Rejecting(old(table), table, all, Ids(items))
        decreases |items|
      {
        ghost var before, id := table, items[0].value;
        QueuedIsKnown();
        RejectingGoesOn(old(table), table, all, Ids(items), id);
        RejectFront();
        GrownJoins(old(table), before, table);
      }
      NothingQueued();
      PutSentinel();
      assert items == [None];
    }

    lemma NothingRejected(a: Table, all: multiset<nat>)
      ensures Rejecting(a, a, all, all)
    {}

    lemma NothingQueued()
      ensures Ids([]) == multiset{} && Ids([None]) == multiset{}
    {
      var none: seq<Option<nat>> := [None];
      assert none[1..] == [];
    }

    lemma QueuedOnce()
      requires Books()
      ensures forall id :: id in Ids(items) ==> Ids(items)[id] == 1
    {
      hide Ids;
      forall id | id in Ids(items)
        ensures Ids(items)[id] == 1
      {
        assert id in Ids(items) + multiset(deferred) + hand;
      }
    }

    lemma QueuedIsKnown()
      requires Books() && items != [] && None !in items
      ensures items[0].Some? && items[0].value in Ids(items) && items[0].value in table
      ensures Ids(items[1..]) == Ids(items) - multiset{items[0].value}
    {
      IdsHead(items);
      assert items[0] in items;
      assert items[0].value in Ids(items) + multiset(deferred) + hand;
    }

    method RejectFront()
      requires Books() && items != [] && None !in items
      modifies this`items, this`hand, this`owed, this`table, this`unfinished
      ensures Books() && items == old(items)[1..]
      ensures Undisturbed(old(hand), old(owed), old(deferred)) && Grown(old(table), table)
      ensures var id := old(items)[0].value;
              id in old(table) && table == old(table)[id := Finished(old(table)[id], Rejected)]
    {
      hide Placed, Ids, Places, Grown;
      QueuedIsKnown();
      var item := Take();
      assert item == old(items)[0];
      HeldIsKnown(item.value);
      Finish(item.value, Rejected);
      LetGo(item.value);
      TaskDone();
      assert hand == old(hand);
    }

    lemma HeldIsKnown(id: nat)
      requires Books() && id in hand
      ensures id in table && (owed > 0 ==> unfinished > 0)
    {
      assert id in Ids(items) + multiset(deferred) + hand;
    }

    /** Other tasks run: submissions, cancellations, shutdown. A request the loop holds is resolved by
        none of them but its own cancellation. */
    method Wait(events: seq<Event>)
      requires Valid()
      modifies this`items, this`hand, this`owed, this`table
      modifies this`unfinished, this`accepting, this`maxObserved, this`nextId
      ensures Valid() && Undisturbed(old(hand), old(owed), old(deferred)) && Grown(old(table), table)
      ensures !old(accepting) || Closes in events ==> !accepting
      ensures events == [] ==> items == old(items) && table == old(table)
      ensures LeftAlone(old(table), table, multiset(deferred) + hand, events)
      ensures Now() == After(old(Now()), events, maximum)
    {
      hide Placed, Ids, LeftAlone, Unresolved, Then;
      NothingDisturbed(table, multiset(deferred) + hand);
      assert events[..0] == [];
      for i := 0 to |events|
        invariant Valid() && Undisturbed(old(hand), old(owed), old(deferred)) && Grown(old(table), table)
        invariant !old(accepting) || Closes in events[..i] ==> !accepting
        invariant i == 0 ==> items == old(items) && table == old(table)
        invariant LeftAlone(old(table), table, multiset(deferred) + hand, events[..i])
        invariant Now() == After(old(Now()), events[..i], maximum)
      {
        ghost var before := table;
        Happen(events[i]);
        assert events[..i + 1] == events[..i] + [events[i]] && events[..i + 1][..i] == events[..i];
        LeftAloneJoins(old(table), before, table, multiset(deferred) + hand, events[..i], [events[i]]);
        GrownJoins(old(table), before, table);
      }
      assert events[..|events|] == events;
    }

    lemma NothingDisturbed(a: Table, held: multiset<nat>)
      ensures LeftAlone(a, a, held, [])
    {}

    method Happen(event: Event)
      requires Valid()
      modifies this`items, this`hand, this`owed, this`table
      modifies this`unfinished, this`accepting, this`maxObserved, this`nextId
      ensures Valid() && Undisturbed(old(hand), old(owed), old(deferred)) && Grown(old(table), table)
      ensures !old(accepting) || event == Closes ==> !accepting
      ensures LeftAlone(old(table), table, multiset(deferred) + hand, [event])
      ensures Now() == Then(old(Now()), event, maximum)
    {
      hide Placed, Ids, Unresolved;
      match event {
        case Submits(shape, cost) =>
          var _, _ := Submit(shape, cost);
        case Cancels(id) =>
          if id in table {
            Cancel(id);
          } else {
            NotOpen(id);
          }
        case Closes =>
          HeldNotQueued();
          Close();
      }
    }

    lemma NotOpen(id: nat)
      requires id !in table
      ensures id !in Unresolved(table, Ids(items))
    {}

    lemma HeldNotQueued()
      requires Books()
      ensures forall id :: id in multiset(deferred) + hand ==> id !in Ids(items)
    {
      hide Ids;
      forall id | id in multiset(deferred) + hand
        ensures id !in Ids(items)
      {
        assert id in Ids(items) + multiset(deferred) + hand;
      }
    }

    // -------------------------------------------------------------- collecting a batch

    method PopDeferred() returns (id: nat)
      requires Books() && deferred != []
      modifies this`deferred, this`hand
      ensures Books() && id == old(deferred)[0] && deferred == old(deferred)[1..] && hand == old(hand) + multiset{id}
      ensures Places() == old(Places())
    {
      hide Placed, Ids;
      ghost var places := Ids(items) + multiset(deferred) + hand;
      id := deferred[0];
      assert deferred == [id] + deferred[1..];
      deferred := deferred[1..];
      hand := hand + multiset{id};
      assert Ids(items) + multiset(deferred) + hand == places;
    }

    method Defer(id: nat)
      requires Books() && id in hand
      modifies this`deferred, this`hand
      ensures Books() && deferred == old(deferred) + [id] && hand == old(hand) - multiset{id}
      ensures Places() == old(Places())
    {
      hide Placed, Ids;
      ghost var places := Ids(items) + multiset(deferred) + hand;
      deferred := deferred + [id];
      hand := hand - multiset{id};
      assert Ids(items) + multiset(deferred) + hand == places;
    }

    /** What is in hand while a batch is being collected: the batch, and at most one candidate. */
    ghost predicate Collecting(batch: seq<nat>, more: multiset<nat>, base: nat, queued: nat)
      reads this
    {
      hand == multiset(batch) + more && owed == base + queued
    }

    /** Adds a candidate to the batch, resolves it if it is late, drops it if it was cancelled, or
        defers it; an item from the queue that does not join is marked done. */
    method Consider(candidate: nat, late: bool, fromQueue: bool, batch: seq<nat>, total: nat, queued: nat,
                    ghost base: nat)
      returns (grown: seq<nat>, newTotal: nat, newQueued: nat)
      requires Valid() && Collecting(batch, multiset{candidate}, base, queued + if fromQueue then 1 else 0)
      requires Compatible(table, batch, total, maxTokens)
      modifies this`table, this`hand, this`deferred, this`owed, this`unfinished
      ensures Valid() && Collecting(grown, multiset{}, base, newQueued) && Grown(old(table), table)
      ensures Compatible(table, grown, newTotal, maxTokens)
      ensures Considered(maxTokens, candidate, late, batch, total, grown, newTotal, old(table), table,
                         old(deferred), deferred)
      ensures newQueued == queued + if fromQueue && grown != batch then 1 else 0
      ensures Carried(old(table), table, old(Places()), Places())
    {
      hide Placed, Ids, Compatible, Grown, Carried, Places;
      GrownStarts(table);
      PlacesKnown();
      CarriedStarts(table, Places());
      grown, newTotal, newQueued := batch, total, queued;
      InHandIsKnown(candidate);
      CompatibleHasFirst(table, batch, total, maxTokens);
      assert hand - multiset{candidate} == multiset(batch);
      if late || table[candidate].status == Cancelled {
        Discard(candidate, late, fromQueue);
        CompatibleStable(old(table), table, batch, total, maxTokens);
        assert hand == multiset(batch);
      } else if table[candidate].shape == table[batch[0]].shape && total + table[candidate].cost <= maxTokens {
        CompatibleGrows(table, batch, total, maxTokens, candidate);
        grown, newTotal := batch + [candidate], total + table[candidate].cost;
        newQueued := queued + if fromQueue then 1 else 0;
      } else {
        SetAside(candidate, fromQueue);
        assert hand == multiset(batch);
      }
    }

    method Discard(candidate: nat, late: bool, fromQueue: bool)
      requires Valid() && candidate in hand && candidate in table && (late || table[candidate].status == Cancelled)
      requires fromQueue ==> owed > 0 && unfinished > 0
      modifies this`table, this`hand, this`owed, this`unfinished
      ensures Valid() && Grown(old(table), table)
      ensures hand == old(hand) - multiset{candidate} && owed == old(owed) - if fromQueue then 1 else 0
      ensures candidate in table && table[candidate].outcome.Some?
      ensures var r := old(table)[candidate];
              table == old(table)[candidate := if late then Finished(r, Timeout) else r]
      ensures Carried(old(table), table, old(Places()), Places())
    {
      hide Placed, Ids, Places, Grown, Carried;
      GrownStarts(table);
      PlacesKnown();
      Resolve(candidate, late);
      LetGo(candidate);
      CarriedLess(old(table), old(Places()), Places(), candidate, table[candidate]);
      if fromQueue {
        TaskDone();
      }
    }

    method SetAside(candidate: nat, fromQueue: bool)
      requires Valid() && candidate in hand && (fromQueue ==> owed > 0 && unfinished > 0)
      modifies this`deferred, this`hand, this`owed, this`unfinished
      ensures Valid() && deferred == old(deferred) + [candidate] && Places() == old(Places())
      ensures hand == old(hand) - multiset{candidate} && owed == old(owed) - if fromQueue then 1 else 0
    {
      hide Placed, Ids, Places;
      Defer(candidate);
      if fromQueue {
        TaskDone();
      }
    }

    lemma PlacesKnown()
      requires Books()
      ensures forall id :: id in Places() ==> id in table && Places()[id] == 1
    {}

    /** A late request times out; a cancelled one was resolved by its client. */
    method Resolve(id: nat, late: bool)
      requires Books() && id in table && (late || table[id].status == Cancelled)
      modifies this`table
      ensures Books() && Grown(old(table), table) && id in table && table[id].outcome.Some?
      ensures table == old(table)[id := if late then Finished(old(table)[id], Timeout) else old(table)[id]]
    {
      if late {
        Finish(id, Timeout);
      }
    }

    lemma InHandIsKnown(id: nat)
      requires Books() && id in hand
      ensures id in table
    {
      assert id in Ids(items) + multiset(deferred) + hand;
    }

    /** Nothing that was deferred could still join the batch. */
    ghost predicate NothingFits(first: nat, total: nat)
      reads this`table, this`deferred
    {
      forall id :: id in deferred ==> Unfit(table, first, total, maxTokens, id)
    }

    /** Collects requests compatible with the first: deferred ones, each looked at once, then new
        ones until the batch is full, the wait is over, shutdown begins, or the task is cancelled. If
        the batch is not full, nothing that still fits was deferred. When nobody interferes, the
        collection goes by the plan. */
    method Collect(first: nat, script: Script, ghost base: nat) returns (batch: seq<nat>, queued: nat, cancelled: bool)
      requires Valid() && hand == multiset{first} && owed == base
      modifies this`deferred
      modifies this`items, this`hand, this`owed, this`table
      modifies this`unfinished, this`accepting, this`maxObserved, this`nextId
      ensures Valid() && Collecting(batch, multiset{}, base, queued) && Grown(old(table), table)
      ensures batch != [] && batch[0] == first && |batch| <= maxBatch
      ensures exists total ::
                Compatible(table, batch, total, maxTokens) && (|batch| < maxBatch ==> NothingFits(first, total))
      ensures !old(accepting) ==> !accepting
      ensures cancelled ==> exists w :: w in script.windows && w.cancelled
      ensures script.Calm() ==>
                && !cancelled
                && Planned(old(table), old(deferred), old(items), first, script, maxBatch, maxTokens, batch, deferred,
                           items)
                && Carried(old(table), table, old(Places()), Places())
                && nextId == old(nextId) && accepting == old(accepting)
    {
      hide Placed, Ids, Compatible, NothingFits, Planned, Carried, Places, Picks, Front, Grown;
      InHandIsKnown(first);
      var total := table[first].cost;
      FirstIsCompatible(table, first, maxTokens);
      batch, queued := [first], 0;
      ghost var scanned, kept;
      ghost var t0, d0, items0 := table, deferred, items;
      batch, total, scanned, kept := ScanDeferred(batch, total, script.late, base);
      ghost var t1, places := table, Places();
      ghost var scan, scanTotal := batch, total;
      FrontCarried(t0, old(Places()), |script.windows|, batch);
      batch, total, queued, cancelled := CollectNew(batch, total, script, base);
      GrownJoins(t0, t1, table);
      if script.Calm() {
        PicksStable(t0, t1, script.late, scan, scanTotal, maxBatch, maxTokens, Front(items0, |script.windows|));
        CarriedJoins(t0, t1, table, old(Places()), places, Places());
        IsPlanned(t0, d0, items0, first, script, maxBatch, maxTokens, Pick(scan, scanTotal, kept, scanned),
                  Picks(t0, script.late, scan, scanTotal, maxBatch, maxTokens, Front(items0, |script.windows|)));
      }
    }

    /** The requests at the front of the queue, and those in the batch, are as they were. */
    lemma FrontCarried(t0: Table, before: multiset<nat>, n: nat, batch: seq<nat>)
      requires Books() && Carried(t0, table, before, Places()) && hand == multiset(batch) && batch != []
      ensures Known(t0, Front(items, n)) && Known(table, Front(items, n))
      ensures forall id :: id in Front(items, n) ==> t0[id] == table[id]
      ensures batch[0] in t0 && batch[0] in table && t0[batch[0]] == table[batch[0]]
    {
      hide Ids;
      FrontIsQueued(items, n);
      forall id | id in Front(items, n)
        ensures id in t0 && id in table && t0[id] == table[id]
      {
        assert id in Places();
      }
      assert batch[0] in multiset(batch);
      assert batch[0] in Places();
    }

    /** The part of the collection that waits for new requests. */
    method CollectNew(start: seq<nat>, startTotal: nat, script: Script, ghost base: nat)
      returns (batch: seq<nat>, total: nat, queued: nat, cancelled: bool)
      requires Valid() && Collecting(start, multiset{}, base, 0) && start != [] && |start| <= maxBatch
      requires Compatible(table, start, startTotal, maxTokens)
      requires |start| < maxBatch ==> NothingFits(start[0], startTotal)
      modifies this`deferred
      modifies this`items, this`hand, this`owed, this`table
      modifies this`unfinished, this`accepting, this`maxObserved, this`nextId
      ensures Valid() && Collecting(batch, multiset{}, base, queued) && Grown(old(table), table)
      ensures batch != [] && batch[0] == start[0] && |batch| <= maxBatch && Compatible(table, batch, total, maxTokens)
      ensures |batch| < maxBatch ==> NothingFits(start[0], total)
      ensures !old(accepting) ==> !accepting
      ensures cancelled ==> exists w :: w in script.windows && w.cancelled
      ensures script.Calm() ==>
                && !cancelled && Carried(old(table), table, old(Places()), Places())
                && nextId == old(nextId) && accepting == old(accepting)
                && start[0] in old(table) && Known(old(table), Front(old(items), |script.windows|))
                && var p := Picks(old(table), script.late, start, startTotal, maxBatch, maxTokens,
                                  Front(old(items), |script.windows|));
                   batch == p.batch && deferred == old(deferred) + p.kept && items == old(items)[p.looked..]
    {
      hide Placed, Ids, Compatible, NothingFits, OnCourse, Carried, Picks, Front, Grown, Places;
      batch, total, queued, cancelled := start, startTotal, 0, false;
      var i, stop, n := 0, false, |script.windows|;
      ghost var from, calm := Here(), script.Calm();
      ghost var rest, looked: nat := Front(items, n), 0;
      FrontKnown(rest, n);
      DeferredKnown(batch);
      PlacesKnown();
      ghost var picks := Picks(table, script.late, batch, total, maxBatch, maxTokens, rest);
      ghost var goal := picks.(kept := deferred + picks.kept);
      CourseStarts(script.late, batch, total, rest);
      GrownStarts(table);
      while i < n && |batch| < maxBatch && !stop && !cancelled
        invariant Valid() && Collecting(batch, multiset{}, base, queued) && Grown(from.table, table)
        invariant batch != [] && batch[0] == start[0] && |batch| <= maxBatch && i <= n
        invariant Compatible(table, batch, total, maxTokens) && (|batch| < maxBatch ==> NothingFits(start[0], total))
        invariant !old(accepting) ==> !accepting
        invariant cancelled ==> exists w :: w in script.windows && w.cancelled
        invariant calm ==>
                    && !cancelled && rest == (if stop then [] else Front(items, n - i))
                    && OnCourse(from, script.late, maxBatch, maxTokens, goal, Here(), batch, total, looked, rest)
        decreases n - i
      {
        ghost var before := table;
        assert script.windows[i] in script.windows;
        batch, total, queued, stop, cancelled, rest, looked :=
          GatherOne(batch, total, queued, script.windows[i], script.late, base, from, rest, looked, goal, n - i, calm);
        GrownJoins(from.table, before, table);
        i := i + 1;
      }
      if calm {
        NothingInFront(items);
        CourseEnds(from, script.late, goal, batch, total, looked, rest);
      }
    }

    ghost function Here(): Spot
      reads this`table, this`items, this`deferred, this`hand, this`nextId, this`accepting
    {
      Spot(table, items, deferred, Places(), nextId, accepting)
    }

    lemma CourseStarts(late: set<nat>, batch: seq<nat>, total: nat, rest: seq<nat>)
      requires batch != [] && Known(table, batch) && Known(table, deferred) && Known(table, rest)
      requires forall id :: id in Places() ==> id in table
      ensures var picks := Picks(table, late, batch, total, maxBatch, maxTokens, rest);
              OnCourse(Here(), late, maxBatch, maxTokens, picks.(kept := deferred + picks.kept), Here(), batch, total,
                       0, rest)
    {
      hide Picks, Ahead, Places;
      AheadStarts(table, late, maxBatch, maxTokens, batch, total, deferred, rest);
      CarriedStarts(table, Places());
    }

    lemma CourseEnds(from: Spot, late: set<nat>, goal: Pick, batch: seq<nat>, total: nat, looked: nat, rest: seq<nat>)
      requires OnCourse(from, late, maxBatch, maxTokens, goal, Here(), batch, total, looked, rest)
      requires rest == [] || |batch| >= maxBatch
      ensures goal == Pick(batch, total, deferred, looked) && looked <= |from.items| && items == from.items[looked..]
      ensures Carried(from.table, table, from.places, Places()) && nextId == from.next && accepting == from.accepting
    {
      hide Ahead, Carried, Places;
      AheadEnds(from.table, table, late, maxBatch, maxTokens, batch, total, deferred, looked, rest, goal);
    }

    /** One wait, and how far it brings an undisturbed collection. */
    method GatherOne(batch: seq<nat>, total: nat, queued: nat, window: Window, late: set<nat>, ghost base: nat,
                     ghost from: Spot, ghost rest: seq<nat>, ghost looked: nat, ghost goal: Pick, ghost n: nat,
                     ghost calm: bool)
      returns (grown: seq<nat>, newTotal: nat, newQueued: nat, stop: bool, cancelled: bool, ghost newRest: seq<nat>,
               ghost newLooked: nat)
      requires Valid() && Collecting(batch, multiset{}, base, queued) && Compatible(table, batch, total, maxTokens)
      requires batch != [] && |batch| < maxBatch && NothingFits(batch[0], total) && n > 0
      requires calm ==>
                 && window == Window([], false) && rest == Front(items, n)
                 && OnCourse(from, late, maxBatch, maxTokens, goal, Here(), batch, total, looked, rest)
      modifies this`deferred
      modifies this`items, this`hand, this`owed, this`table
      modifies this`unfinished, this`accepting, this`maxObserved, this`nextId
      ensures Valid() && Collecting(grown, multiset{}, base, newQueued) && Grown(old(table), table)
      ensures Compatible(table, grown, newTotal, maxTokens) && NothingFits(batch[0], newTotal)
      ensures batch <= grown && |grown| <= |batch| + 1
      ensures (!old(accepting) ==> !accepting) && cancelled == window.cancelled
      ensures calm ==>
                && newRest == (if stop then [] else Front(items, n - 1))
                && OnCourse(from, late, maxBatch, maxTokens, goal, Here(), grown, newTotal, newLooked, newRest)
    {
      hide Placed, Ids, Compatible, NothingFits, Considered, OnCourse, Grown, Front, Picks, Carried, Places, Unmoved;
      FrontKnown(Front(items, n), n);
      FrontStep(items, n);
      ghost var before := Here();
      grown, newTotal, newQueued, stop, cancelled := CollectOne(batch, total, queued, window, late, base);
      newRest, newLooked := rest, looked;
      if calm {
        if stop {
          UnmovedKnown(before.table, before.deferred);
          CourseStops(from, late, maxBatch, maxTokens, goal, before, Here(), batch, total, looked);
        } else {
          CourseGoesOn(from, late, maxBatch, maxTokens, goal, before, Here(), batch, total, grown, newTotal, looked,
                       rest);
          newRest, newLooked := rest[1..], looked + 1;
        }
      }
    }

    lemma UnmovedKnown(t: Table, d: seq<nat>)
      requires Unmoved(t, d)
      ensures table == t && deferred == d
    {}

    lemma NothingInFront(items: seq<Option<nat>>)
      ensures Front(items, 0) == []
    {}

    /** The next in the queue is nowhere else. */
    lemma FrontKnown(front: seq<nat>, n: nat)
      requires Books() && front == Front(items, n)
      ensures Known(table, front)
      ensures front != [] ==> front[0] !in front[1..] && front[0] !in deferred && front[0] !in hand
    {
      FrontIsQueued(items, n);
      forall id | id in front
        ensures id in table
      {
        assert id in Ids(items) + multiset(deferred) + hand;
      }
      if front != [] {
        FrontIsQueued(items[1..], n - 1);
        assert front[0] in Ids(items) + multiset(deferred) + hand;
      }
    }

    /** Waits for one more item; stops at the sentinel, when the time is over, or when cancelled. */
    method CollectOne(batch: seq<nat>, total: nat, queued: nat, window: Window, late: set<nat>, ghost base: nat)
      returns (grown: seq<nat>, newTotal: nat, newQueued: nat, stop: bool, cancelled: bool)
      requires Valid() && Collecting(batch, multiset{}, base, queued) && Compatible(table, batch, total, maxTokens)
      requires batch != [] && NothingFits(batch[0], total)
      modifies this`deferred, this`items, this`hand, this`owed, this`table
      modifies this`unfinished, this`accepting, this`maxObserved, this`nextId
      ensures Valid() && Collecting(grown, multiset{}, base, newQueued) && Grown(old(table), table)
      ensures Compatible(table, grown, newTotal, maxTokens) && NothingFits(batch[0], newTotal)
      ensures batch <= grown && |grown| <= |batch| + 1
      ensures (!old(accepting) ==> !accepting) && cancelled == window.cancelled
      ensures window == Window([], false) ==>
                && Carried(old(table), table, old(Places()), Places())
                && nextId == old(nextId) && accepting == old(accepting)
                && if old(items) == [] || old(items)[0] == None then
                  && stop && items == old(items) && Unmoved(old(table), old(deferred))
                  && grown == batch && newTotal == total
                else
                  && !stop && items == old(items)[1..]
                  && Considered(maxTokens, old(items)[0].value, old(items)[0].value in late, batch, total,
                                grown, newTotal, old(table), table, old(deferred), deferred)
    {
      hide Placed, Ids, Compatible, NothingFits, Considered, Carried, Places, Grown;
      PlacesKnown();
      CarriedStarts(table, Places());
      grown, newTotal, newQueued, stop, cancelled := batch, total, queued, false, window.cancelled;
      Linger(batch, total, queued, window.events, base);
      if cancelled {
        return;
      }
      if items == [] {
        return batch, total, queued, true, false;
      }
      if items[0] == None {
        PutBackSentinel();
        return batch, total, queued, true, false;
      }
      ghost var before := table;
      grown, newTotal, newQueued := LookAtNext(batch, total, queued, late, base);
      GrownJoins(old(table), before, table);
    }

    /** The wait itself: the batch stays as it is, and nothing that is deferred begins to fit. */
    method Linger(batch: seq<nat>, total: nat, queued: nat, events: seq<Event>, ghost base: nat)
      requires Valid() && Collecting(batch, multiset{}, base, queued) && Compatible(table, batch, total, maxTokens)
      requires batch != [] && NothingFits(batch[0], total)
      modifies this`items, this`hand, this`owed, this`table
      modifies this`unfinished, this`accepting, this`maxObserved, this`nextId
      ensures Valid() && Collecting(batch, multiset{}, base, queued) && Grown(old(table), table)
      ensures Compatible(table, batch, total, maxTokens) && NothingFits(batch[0], total)
      ensures !old(accepting) ==> !accepting
      ensures events == [] ==> Here() == old(Here())
    {
      hide Placed, Ids, Compatible, NothingFits, LeftAlone, Unresolved, After;
      NothingHappens(Now());
      ghost var unfit := deferred;
      UnfitKnown(batch[0], total);
      Wait(events);
      CompatibleStable(old(table), table, batch, total, maxTokens);
      StillUnfit(unfit, old(table), batch[0], total);
    }

    /** Takes the next request from the queue and considers it. */
    method LookAtNext(batch: seq<nat>, total: nat, queued: nat, late: set<nat>, ghost base: nat)
      returns (grown: seq<nat>, newTotal: nat, newQueued: nat)
      requires Valid() && Collecting(batch, multiset{}, base, queued) && Compatible(table, batch, total, maxTokens)
      requires batch != [] && NothingFits(batch[0], total) && items != [] && items[0].Some?
      modifies this`deferred, this`items, this`hand, this`owed, this`table, this`unfinished
      ensures Valid() && Collecting(grown, multiset{}, base, newQueued) && Grown(old(table), table)
      ensures Compatible(table, grown, newTotal, maxTokens) && NothingFits(batch[0], newTotal)
      ensures batch <= grown && |grown| <= |batch| + 1 && items == old(items)[1..]
      ensures Carried(old(table), table, old(Places()), Places())
      ensures Considered(maxTokens, old(items)[0].value, old(items)[0].value in late, batch, total,
                         grown, newTotal, old(table), table, old(deferred), deferred)
    {
      hide Placed, Ids, Compatible, NothingFits, Considered, Carried, Places, Grown;
      ghost var before, back := table, deferred;
      UnfitKnown(batch[0], total);
      var candidate := Take();
      grown, newTotal, newQueued :=
        Consider(candidate.value, candidate.value in late, true, batch, total, queued, base);
      ConsideredFits(candidate.value, candidate.value in late, batch, total, grown, newTotal, before, back);
    }

    lemma NothingHappens(o: Outlook)
      ensures After(o, [], maximum) == o
    {}

    ghost predicate Unmoved(t: Table, d: seq<nat>)
      reads this`table, this`deferred
    {
      table == t && deferred == d
    }

    lemma UnfitKnown(first: nat, total: nat)
      requires NothingFits(first, total)
      ensures forall id :: id in deferred ==> Unfit(table, first, total, maxTokens, id)
    {}

    lemma StillUnfit(back: seq<nat>, before: Table, first: nat, total: nat)
      requires deferred == back && Grown(before, table)
      requires forall id :: id in back ==> Unfit(before, first, total, maxTokens, id)
      ensures NothingFits(first, total)
    {
      UnfitStays(before, table, first, total, total, maxTokens, deferred);
    }

    lemma ConsideredFits(candidate: nat, late: bool, batch: seq<nat>, total: nat, grown: seq<nat>, newTotal: nat,
                         before: Table, back: seq<nat>)
      requires Considered(maxTokens, candidate, late, batch, total, grown, newTotal, before, table, back, deferred)
      requires Grown(before, table) && forall id :: id in back ==> Unfit(before, batch[0], total, maxTokens, id)
      ensures NothingFits(batch[0], newTotal) && batch <= grown && |grown| <= |batch| + 1
    {
      UnfitAfter(maxTokens, candidate, late, batch, total, grown, newTotal, before, table, back, deferred);
    }

    /** The sentinel is taken, marked done and put back for the outer loop. */
    method PutBackSentinel()
      requires Valid() && items != [] && items[0] == None
      modifies this`items, this`hand, this`owed, this`unfinished
      ensures Valid() && hand == old(hand) && owed == old(owed) && deferred == old(deferred)
      ensures table == old(table) && accepting == old(accepting) && items == old(items)
    {
      hide Placed, Ids;
      var _ := Take();
      TaskDone();
      PutSentinel();
    }

    /** Looks once at each request that was deferred when collection began; those that still have to
        wait go to the back in order, which keeps the arrival order exactly when the scan got to the
        end or kept nothing. */
    method ScanDeferred(start: seq<nat>, startTotal: nat, late: set<nat>, ghost base: nat)
      returns (batch: seq<nat>, total: nat, ghost scanned: nat, ghost kept: seq<nat>)
      requires Valid() && Collecting(start, multiset{}, base, 0) && |start| == 1
      requires Compatible(table, start, startTotal, maxTokens)
      modifies this`table, this`hand, this`deferred, this`owed, this`unfinished
      ensures Valid() && Collecting(batch, multiset{}, base, 0) && Grown(old(table), table)
      ensures Compatible(table, batch, total, maxTokens) && start <= batch && |batch| <= maxBatch
      ensures start[0] in old(table) && Known(old(table), old(deferred))
      ensures Pick(batch, total, kept, scanned)
           == Picks(old(table), late, start, startTotal, maxBatch, maxTokens, old(deferred))
      ensures scanned <= |old(deferred)| && deferred == old(deferred)[scanned..] + kept
      ensures deferred == kept + old(deferred)[scanned..] <==> scanned == |old(deferred)| || kept == []
      ensures |batch| < maxBatch ==> NothingFits(start[0], total)
      ensures Carried(old(table), table, old(Places()), Places())
    {
      hide Placed, Ids, Compatible, Ahead, Considered, Carried, Places;
      ghost var t0, d0, places0 := table, deferred, Places();
      PlacesKnown();
      CarriedStarts(table, Places());
      DeferredKnown(start);
      batch, total, scanned, kept := start, startTotal, 0, [];
      var toScan := |deferred|;
      ghost var goal := Picks(table, late, start, startTotal, maxBatch, maxTokens, deferred);
      AheadStarts(table, late, maxBatch, maxTokens, start, startTotal, [], deferred);
      assert goal == goal.(kept := [] + goal.kept);
      assert d0[0..] == d0 && d0 + [] == d0;
      while |batch| < maxBatch && toScan > 0
        invariant Valid() && Collecting(batch, multiset{}, base, 0) && Grown(t0, table)
        invariant Compatible(table, batch, total, maxTokens) && start <= batch && |batch| <= maxBatch
        invariant toScan >= 0 && scanned + toScan == |d0| && deferred == d0[scanned..] + kept
        invariant Ahead(t0, table, late, maxBatch, maxTokens, batch, total, kept, scanned, d0[scanned..], goal)
        invariant Carried(t0, table, places0, Places())
        decreases toScan
      {
        ghost var before, places := table, Places();
        ghost var rest := d0[scanned..];
        DeferredDistinct(batch, rest, kept);
        ghost var newKept;
        ghost var oldBatch, oldTotal := batch, total;
        batch, total, newKept := ScanOne(batch, total, late, rest, kept, base);
        GrownJoins(t0, before, table);
        AheadGoesOn(t0, before, table, late, maxBatch, maxTokens, oldBatch, oldTotal, batch, total, kept, newKept,
                    scanned, rest, goal);
        CarriedJoins(t0, before, table, places0, places, Places());
        assert rest[1..] == d0[scanned + 1..];
        kept := newKept;
        scanned := scanned + 1;
        toScan := toScan - 1;
      }
      AheadEnds(t0, table, late, maxBatch, maxTokens, batch, total, kept, scanned, d0[scanned..], goal);
      RotationIsInOrder(d0[scanned..], kept);
      PicksAreMaximal(t0, late, start, startTotal, maxBatch, maxTokens, d0);
      if |batch| < maxBatch {
        assert deferred == kept;
        UnfitStays(t0, table, start[0], total, total, maxTokens, kept);
      }
    }

    lemma DeferredKnown(batch: seq<nat>)
      requires Books() && hand == multiset(batch)
      ensures Known(table, deferred) && Known(table, batch)
    {
      hide Ids;
      forall id | id in deferred
        ensures id in table
      {
        assert id in Ids(items) + multiset(deferred) + hand;
      }
      forall id | id in batch
        ensures id in table
      {
        assert id in multiset(batch);
        assert id in Ids(items) + multiset(deferred) + hand;
      }
    }

    lemma DeferredDistinct(batch: seq<nat>, rest: seq<nat>, kept: seq<nat>)
      requires Books() && hand == multiset(batch) && deferred == rest + kept && rest != []
      ensures rest[0] !in rest[1..] && rest[0] !in batch && rest[0] !in kept
    {
      hide Ids;
      var id, tail := rest[0], rest[1..];
      assert deferred == [id] + (tail + kept);
      assert multiset(deferred) == multiset{id} + (multiset(tail) + multiset(kept));
      assert id in Ids(items) + multiset(deferred) + hand;
      assert id in tail ==> id in multiset(tail);
      assert id in kept ==> id in multiset(kept);
      assert id in batch ==> id in multiset(batch);
    }

    lemma RotationIsInOrder(unscanned: seq<nat>, kept: seq<nat>)
      requires Books() && deferred == unscanned + kept
      ensures unscanned + kept == kept + unscanned <==> unscanned == [] || kept == []
    {
      hide Ids;
      forall id | id in kept
        ensures id !in unscanned
      {
        assert id in Ids(items) + multiset(deferred) + hand;
        assert multiset(deferred) == multiset(unscanned) + multiset(kept);
        assert id in multiset(kept) && (id in unscanned ==> id in multiset(unscanned));
      }
      RotationKeepsOrder(kept, unscanned);
    }

    method ScanOne(batch: seq<nat>, total: nat, late: set<nat>, ghost rest: seq<nat>, ghost kept: seq<nat>,
                   ghost base: nat)
      returns (grown: seq<nat>, newTotal: nat, ghost newKept: seq<nat>)
      requires Valid() && Collecting(batch, multiset{}, base, 0) && rest != [] && deferred == rest + kept
      requires Compatible(table, batch, total, maxTokens)
      modifies this`table, this`hand, this`deferred, this`owed, this`unfinished
      ensures Valid() && Collecting(grown, multiset{}, base, 0) && Grown(old(table), table)
      ensures Compatible(table, grown, newTotal, maxTokens)
      ensures batch <= grown && |grown| <= |batch| + 1
      ensures deferred == rest[1..] + newKept
      ensures Considered(maxTokens, rest[0], rest[0] in late, batch, total, grown, newTotal, old(table), table,
                         kept, newKept)
      ensures Carried(old(table), table, old(Places()), Places())
    {
      hide Placed, Ids, Compatible, Carried, Places;
      var candidate := PopDeferred();
      assert deferred == rest[1..] + kept;
      ghost var front := deferred;
      var queued;
      grown, newTotal, queued := Consider(candidate, candidate in late, false, batch, total, 0, base);
      newKept := if deferred == front then kept else kept + [candidate];
      assert front + [candidate] == rest[1..] + (kept + [candidate]);
    }

    // -------------------------------------------------------------- running a batch

    /** Filters the batch and marks what is left as running. */
    method StartBatch(batch: seq<nat>, late: set<nat>) returns (active: seq<nat>)
      requires Valid() && hand == multiset(batch)
      modifies this`table, this`hand
      ensures Valid() && hand == multiset(active) && Grown(old(table), table)
      ensures Known(old(table), batch) && active == Runnable(old(table), batch, late)
      ensures Started(old(table), table, batch, late)
    {
      hide Placed, Ids, Grown, Started, NoDuplicates;
      BatchIsDistinct(batch);
      DeferredKnown(batch);
      active := [];
      ghost var t0 := table;
      GrownStarts(t0);
      NothingStarted(t0, late);
      assert batch[0..] == batch && batch[..0] == [];
      for i := 0 to |batch|
        invariant Valid() && hand == multiset(batch[i..]) + multiset(active) && Grown(t0, table)
        invariant Known(t0, batch[..i]) && active == Runnable(t0, batch[..i], late)
        invariant Started(t0, table, batch[..i], late)
      {
        HandMoves(hand, batch, i, active);
        InHandIsKnown(batch[i]);
        OneStarts(t0, table, batch, i, late);
        ghost var before := table;
        var runs := StartOne(batch[i], batch[i] in late);
        if runs {
          active := active + [batch[i]];
        }
        GrownJoins(t0, before, table);
      }
      assert batch[|batch|..] == [] && batch[..|batch|] == batch;
    }

    method StartOne(id: nat, late: bool) returns (runs: bool)
      requires Valid() && id in hand && id in table
      modifies this`table, this`hand
      ensures Valid() && hand == (if runs then old(hand) else old(hand) - multiset{id}) && Grown(old(table), table)
      ensures table == old(table)[id := Begun(old(table)[id], late)]
      ensures runs <==> old(table)[id].status != Cancelled && !late
    {
      hide Placed, Ids;
      runs := !(table[id].status == Cancelled || late);
      if runs {
        SetStatus(id, Running);
      } else {
        Resolve(id, table[id].status != Cancelled);
        LetGo(id);
      }
    }

    lemma BatchIsDistinct(batch: seq<nat>)
      requires Books() && hand == multiset(batch)
      ensures NoDuplicates(batch) && forall id :: id in batch ==> id !in deferred
    {
      hide Ids;
      HandDistinct(batch);
      forall id | id in batch
        ensures id !in deferred
      {
        assert id in multiset(batch) && (id in deferred ==> id in multiset(deferred));
        assert id in Ids(items) + multiset(deferred) + hand;
      }
    }

    lemma HandDistinct(active: seq<nat>)
      requires Books() && hand == multiset(active)
      ensures NoDuplicates(active)
    {
      forall i, j | 0 <= i < j < |active|
        ensures active[i] != active[j]
      {
        assert active[i] in Ids(items) + multiset(deferred) + hand;
        assert active == active[..i] + [active[i]] + active[i + 1..];
        assert multiset(active) == multiset(active[..i]) + multiset{active[i]} + multiset(active[i + 1..]);
        assert active[i + 1..][j - i - 1] == active[j];
        assert active[j] in multiset(active[i + 1..]);
      }
    }

    /** Hands the worker's results out. If their number is wrong, the ones handed out before the
        mismatch is noticed are resolved as completed and their records then marked failed. */
    method Deliver(active: seq<nat>, worker: WorkerOutcome, late: set<nat>)
      requires Books() && NoDuplicates(active) && forall id :: id in active ==> id in table
      modifies this`table
      ensures Books() && Grown(old(table), table) && Touched(old(table), table, active)
      ensures forall id :: id in active ==> id in table && table[id].outcome.Some?
      ensures table.Keys == old(table).Keys
      ensures Answered(old(table), table, active, worker, late)
    {
      hide Placed, Ids;
      if worker.Results? {
        var n := if worker.count < |active| then worker.count else |active|;
        for i := 0 to n
          invariant Books() && Grown(old(table), table) && Touched(old(table), table, active)
          invariant table.Keys == old(table).Keys
          invariant forall j :: 0 <= j < i ==> Delivered(table[active[j]], old(table)[active[j]], active[j] in late)
          invariant forall j :: i <= j < |active| ==> table[active[j]] == old(table)[active[j]]
        {
          ghost var before := table;
          Finish(active[i], EndStatus(table[active[i]], active[i] in late));
          GrownJoins(old(table), before, table);
        }
        if worker.count == |active| {
          assert forall id :: id in active ==> Delivered(table[id], old(table)[id], id in late);
          return;
        }
      }
      FailEach(active);
    }

    method FailEach(active: seq<nat>)
      requires Books() && NoDuplicates(active) && forall id :: id in active ==> id in table
      modifies this`table
      ensures Books() && Grown(old(table), table) && Touched(old(table), table, active)
      ensures table.Keys == old(table).Keys
      ensures forall id :: id in active ==> id in table && table[id] == Finished(old(table)[id], Failed)
    {
      hide Placed, Ids;
      for i := 0 to |active|
        invariant Books() && Grown(old(table), table) && Touched(old(table), table, active)
        invariant table.Keys == old(table).Keys
        invariant forall j :: 0 <= j < i ==> table[active[j]] == Finished(old(table)[active[j]], Failed)
        invariant forall j :: i <= j < |active| ==> table[active[j]] == old(table)[active[j]]
      {
        ghost var before := table;
        Finish(active[i], Failed);
        GrownJoins(old(table), before, table);
      }
    }

    /** Runs a batch on the worker; every request of it is resolved when this returns, also when the
        task is cancelled during the call, and each in the way its own fate and the worker's answer
        call for. Deferred requests are left alone. */
    method ProcessBatch(batch: seq<nat>, script: Script) returns (aborted: bool)
      requires Valid() && hand == multiset(batch)
      modifies this`items, this`hand, this`owed, this`table
      modifies this`unfinished, this`accepting, this`maxObserved, this`nextId
      ensures Valid() && hand == multiset{} && owed == old(owed)
      ensures Grown(old(table), table) && (!old(accepting) ==> !accepting)
      ensures forall id :: id in batch ==> id in table && table[id].outcome.Some?
      ensures Known(old(table), batch)
      ensures var active := Runnable(old(table), batch, script.lateAtStart);
              var events := if active == [] then [] else script.call;
              && Ran(old(table), table, batch, active, script)
              && LeftAlone(old(table), table, multiset(deferred), events)
              && Now() == After(old(Now()), events, maximum)
              && (aborted <==> script.worker == TaskCancelled && active != [])
    {
      hide Placed, Ids, LeftAlone, Touched, Started, Unresolved, Ran, After, Grown, TerminalResolved, Runnable,
           ResolvedIn, RanOne;
      ghost var t0 := table;
      TerminalIsResolved();
      BatchIsDistinct(batch);
      BatchNotQueued(batch);
      NothingHappens(Now());
      var active := StartBatch(batch, script.lateAtStart);
      ghost var started := table;
      StartedTouches(t0, started, batch, script.lateAtStart);
      AllRunning(t0, started, batch, script.lateAtStart);
      LeftAloneByOthers(t0, started, batch, multiset(deferred));
      QueueUntouched(t0, batch);
      aborted := false;
      GrownStarts(table);
      if active != [] {
        RunActive(active, script);
        GrownJoins(t0, started, table);
        LeftAloneJoins(t0, started, table, multiset(deferred), [], script.call);
        assert [] + script.call == script.call;
        aborted := script.worker == TaskCancelled;
      }
      RanAltogether(t0, started, table, batch, active, script);
      InBatch(table, batch);
    }

    lemma InBatch(table: Table, batch: seq<nat>)
      requires ResolvedIn(table, multiset(batch))
      ensures forall id :: id in batch ==> id in table && table[id].outcome.Some?
    {
      assert forall id :: id in batch ==> id in multiset(batch);
    }

    lemma BatchNotQueued(batch: seq<nat>)
      requires Books() && hand == multiset(batch)
      ensures forall id :: id in batch ==> id !in Ids(items)
    {
      hide Ids, Placed;
      HeldNotQueued();
      assert forall id :: id in batch ==> id in multiset(batch);
    }

    /** The worker call itself, and what its answer brings. */
    method RunActive(active: seq<nat>, script: Script)
      requires Valid() && hand == multiset(active)
      requires forall id :: id in active ==> id in table && table[id].status == Running
      modifies this`items, this`hand, this`owed, this`table
      modifies this`unfinished, this`accepting, this`maxObserved, this`nextId
      ensures Valid() && hand == multiset{} && owed == old(owed)
      ensures Grown(old(table), table) && (!old(accepting) ==> !accepting)
      ensures forall i :: 0 <= i < |active| ==> RanOne(old(table), table, active, i, script)
      ensures LeftAlone(old(table), table, multiset(deferred), script.call)
      ensures Now() == After(old(Now()), script.call, maximum)
    {
      hide Placed, Ids, LeftAlone, Touched, Answered, Unresolved, After, Grown, RanOne;
      ghost var t0 := table;
      AwaitWorker(active, script.call);
      ghost var waited := table;
      BatchIsDistinct(active);
      BatchNotQueued(active);
      DeferredKnown(active);
      Deliver(active, script.worker, script.lateAtEnd);
      QueueUntouched(waited, active);
      LeftAloneByOthers(waited, table, active, multiset(deferred));
      LeftAloneJoins(t0, waited, table, multiset(deferred), script.call, []);
      assert script.call + [] == script.call;
      GrownJoins(t0, waited, table);
      forall i | 0 <= i < |active|
        ensures RanOne(t0, table, active, i, script)
      {
        assert active[i] in active;
        OneRan(t0, waited, table, active, script, i);
      }
      LetAllGo(active);
    }

    /** What other tasks do during the worker call. */
    method AwaitWorker(active: seq<nat>, events: seq<Event>)
      requires Valid() && hand == multiset(active)
      modifies this`items, this`hand, this`owed, this`table
      modifies this`unfinished, this`accepting, this`maxObserved, this`nextId
      ensures Valid() && hand == multiset(active) && owed == old(owed)
      ensures Grown(old(table), table) && (!old(accepting) ==> !accepting)
      ensures LeftAlone(old(table), table, multiset(deferred), events)
      ensures LeftAlone(old(table), table, multiset(active), events)
      ensures Now() == After(old(Now()), events, maximum)
    {
      hide Placed, Ids, LeftAlone, Unresolved, After, Grown;
      ghost var t0 := table;
      Wait(events);
      LeftAloneLess(t0, table, multiset(deferred) + hand, multiset(deferred), events);
      LeftAloneLess(t0, table, multiset(deferred) + hand, multiset(active), events);
    }

    /** Changes to requests that are not queued do not change the outlook of the queue. */
    lemma QueueUntouched(before: Table, ids: seq<nat>)
      requires Books() && Touched(before, table, ids) && (forall id :: id in ids ==> id !in Ids(items))
      requires forall id :: id in table ==> id in before
      ensures Unresolved(table, Ids(items)) == Unresolved(before, Ids(items))
    {
      hide Ids;
      forall id | id in Ids(items)
        ensures id in table && id in before && before[id] == table[id]
      {
        assert id in Places();
      }
      OpenUntouched(before, table, Ids(items));
    }

    ghost method LetAllGo(active: seq<nat>)
      requires Books() && hand == multiset(active)
      requires forall id :: id in active ==> id in table && table[id].outcome.Some?
      modifies this`hand
      ensures Books() && hand == multiset{}
    {
      hide Placed, Ids;
      assert active[0..] == active;
      for i := 0 to |active|
        invariant Books() && hand == multiset(active[i..])
      {
        assert active[i..] == [active[i]] + active[i + 1..];
        LetGo(active[i]);
      }
    }

    // -------------------------------------------------------------- the loop

    method RejectDeferred()
      requires Valid() && hand == multiset{} && owed == 0
      modifies this`deferred, this`hand, this`table
      ensures Valid() && hand == multiset{} && owed == 0 && deferred == [] && Grown(old(table), table)
      ensures forall id :: id in old(deferred) ==> id in table && table[id].outcome.Some?
    {
      hide Placed, Ids, Evolved;
      ghost var i := 0;
      GrownStarts(table);
      while deferred != []
        invariant Valid() && hand == multiset{} && owed == 0 && Grown(old(table), table)
        invariant i + |deferred| == |old(deferred)| && deferred == old(deferred)[i..]
        invariant forall id :: id in old(deferred)[..i] ==> id in table && table[id].outcome.Some?
        decreases |deferred|
      {
        ghost var before := table;
        assert old(deferred)[..i + 1] == old(deferred)[..i] + [old(deferred)[i]];
        RejectOne();
        StayResolved(before, table, old(deferred)[..i]);
        GrownJoins(old(table), before, table);
        i := i + 1;
      }
    }

    method RejectOne()
      requires Valid() && deferred != []
      modifies this`deferred, this`hand, this`table
      ensures Valid() && hand == old(hand) && deferred == old(deferred)[1..] && Grown(old(table), table)
      ensures old(deferred)[0] in table && table[old(deferred)[0]].outcome.Some?
    {
      hide Placed, Ids;
      var id := PopDeferred();
      InHandIsKnown(id);
      Finish(id, Rejected);
      LetGo(id);
      assert hand == old(hand);
    }

    /** Everything taken from the queue in this turn is marked done. */
    method SettleAccount(queued: nat, fromQueue: bool)
      requires Valid() && owed == queued + if fromQueue then 1 else 0
      modifies this`unfinished, this`owed
      ensures Valid() && owed == 0
    {
      hide Placed, Ids;
      AllDone(queued);
      if fromQueue {
        TaskDone();
      }
    }

    method AllDone(count: nat)
      requires Valid() && owed >= count && unfinished >= count
      modifies this`unfinished, this`owed
      ensures Valid() && owed == old(owed) - count
    {
      for i := 0 to count
        invariant Valid() && owed == old(owed) - i && unfinished == old(unfinished) - i
      {
        TaskDone();
      }
    }

    /** One turn of the scheduler loop. Between turns the queue's unfinished count is its length, and
        the oldest deferred request is resolved in its turn. The loop ends in one of two ways: through
        the sentinel, only with nothing queued or deferred and every future resolved; or by the
        cancellation of its task, and what that leaves unresolved is in the queue, deferred or in hand.
        Cancelled in the idle wait, it leaves every future resolved if and only if the queue has no
        open request then, as `After` tells from the queue before. For a turn in which nobody
        interferes before the worker call, `CalmTurn` says the same of a cancelled worker call. */
    method TakeTurn(script: Script) returns (turn: Turn)
      requires Valid() && alive && hand == multiset{} && owed == 0
      modifies this
      ensures Grown(old(table), table) && (!old(accepting) ==> !accepting)
      ensures turn != Stopped ==> Valid()
      ensures alive <==> turn in {Idle, Continued}
      ensures turn != Interrupted ==> hand == multiset{} && owed == 0 && unfinished == |items|
      ensures turn == Stopped ==> !accepting && items == [] && deferred == [] && AllResolved(table)
      ensures turn == Interrupted ==> script.idle.cancelled || exists w :: w in script.windows && w.cancelled
      ensures turn == Aborted ==> script.worker == TaskCancelled
      ensures turn in {Interrupted, Aborted} ==> (AllResolved(table) <==> ResolvedIn(table, Places()))
      ensures turn in {Continued, Aborted} && old(deferred) != [] ==>
                old(deferred)[0] in table && table[old(deferred)[0]].outcome.Some?
      ensures old(deferred) == [] && script.idle.cancelled ==>
                && turn == Interrupted
                && (AllResolved(table) <==> After(old(Now()), script.idle.events, maximum).open == {})
      ensures old(deferred) != [] && old(accepting) && script.Calm() ==>
                CalmTurn(turn, old(table), old(deferred)[0], old(deferred)[1..], old(items), old(nextId), script)
      ensures old(deferred) == [] && old(items) != [] && old(items)[0].Some? && script.Calm() ==>
                CalmTurn(turn, old(table), old(items)[0].value, [], old(items)[1..], old(nextId), script)
    {
      hide Placed, Ids, CalmTurn, LeftAlone, Grown, Places, AllResolved, ResolvedIn, Unresolved, After;
      if !accepting && deferred != [] {
        RejectDeferred();
        return Continued;
      }
      if deferred != [] {
        var first := PopDeferred();
        turn := RunFrom(first, false, script);
      } else {
        turn := NextFromQueue(script);
      }
    }

    /** The turn when nothing is deferred: waits for a request in the queue. */
    method NextFromQueue(script: Script) returns (turn: Turn)
      requires Valid() && alive && hand == multiset{} && owed == 0 && deferred == []
      modifies this
      ensures Grown(old(table), table) && (!old(accepting) ==> !accepting)
      ensures turn != Stopped ==> Valid()
      ensures alive <==> turn in {Idle, Continued}
      ensures turn != Interrupted ==> hand == multiset{} && owed == 0 && unfinished == |items|
      ensures turn == Stopped ==> !accepting && items == [] && deferred == [] && AllResolved(table)
      ensures turn == Interrupted ==> script.idle.cancelled || exists w :: w in script.windows && w.cancelled
      ensures turn == Aborted ==> script.worker == TaskCancelled
      ensures turn in {Interrupted, Aborted} ==> (AllResolved(table) <==> ResolvedIn(table, Places()))
      ensures script.idle.cancelled ==>
                && turn == Interrupted
                && (AllResolved(table) <==> After(old(Now()), script.idle.events, maximum).open == {})
      ensures old(items) != [] && old(items)[0].Some? && script.Calm() ==>
                CalmTurn(turn, old(table), old(items)[0].value, [], old(items)[1..], old(nextId), script)
    {
      hide Placed, Ids, CalmTurn, LeftAlone, Grown, Places, AllResolved, ResolvedIn, Unresolved, After;
      NothingHappens(Now());
      Wait(script.idle.events);
      ghost var waited := table;
      if script.idle.cancelled {
        alive := false;
        WhoIsLeft();
        return Interrupted;
      }
      if items == [] {
        return Idle;
      }
      if items[0] == None {
        TakeSentinel();
        return Stopped;
      }
      var first := Take();
      turn := RunFrom(first.value, true, script);
      GrownJoins(old(table), waited, table);
    }

    /** The shutdown signal is the last item, so that nothing is left when the loop takes it. */
    method TakeSentinel()
      requires Valid() && alive && hand == multiset{} && owed == 0 && deferred == [] && items != [] && items[0] == None
      modifies this`items, this`hand, this`owed, this`unfinished, this`alive
      ensures hand == multiset{} && owed == 0 && unfinished == |items| && !alive
      ensures !accepting && items == [] && AllResolved(table)
    {
      hide Placed, AllResolved;
      var _ := Take();
      TaskDone();
      alive := false;
      EverythingResolved();
    }

    /** Collects and runs the batch that starts with `first`, then settles the queue's count. */
    method RunFrom(first: nat, fromQueue: bool, script: Script) returns (turn: Turn)
      requires Valid() && alive && accepting
      requires hand == multiset{first} && owed == if fromQueue then 1 else 0
      modifies this
      ensures Valid() && turn in {Continued, Interrupted, Aborted} && (alive <==> turn == Continued)
      ensures turn != Interrupted ==> hand == multiset{} && owed == 0 && first in table && table[first].outcome.Some?
      ensures turn == Interrupted ==> exists w :: w in script.windows && w.cancelled
      ensures turn == Aborted ==> script.worker == TaskCancelled
      ensures Grown(old(table), table)
      ensures AllResolved(table) <==> ResolvedIn(table, Places())
      ensures script.Calm() ==> CalmTurn(turn, old(table), first, old(deferred), old(items), old(nextId), script)
    {
      hide Placed, Ids, Compatible, NothingFits, Planned, Carried, Grown, LeftAlone, CalmTurn, AllResolved, ResolvedIn,
           Places, Unresolved, After, Ran, Covered;
      var batch, queued, cancelled := Collect(first, script, owed);
      ghost var collected, places, items1, deferred1 := table, Places(), items, deferred;
      if cancelled {
        if fromQueue {
          TaskDone();
        }
        alive := false;
        WhoIsLeft();
        return Interrupted;
      }
      HandIsPlaced(batch);
      turn := RunCollected(first, batch, queued, fromQueue, script);
      GrownJoins(old(table), collected, table);
      if script.Calm() {
        Concluded(turn, old(table), first, old(deferred), old(items), old(nextId), script, old(Places()), collected,
                  places, items1, batch);
      }
    }

    lemma HandIsPlaced(batch: seq<nat>)
      requires Books() && hand == multiset(batch)
      ensures forall id :: id in batch || id in deferred || id in Ids(items) ==> id in Places()
    {
      hide Ids;
      assert forall id :: id in batch ==> id in multiset(batch);
    }

    /** Runs a collected batch, and marks its items done whatever the outcome. If the worker call is
        cancelled, every future is resolved in the end if and only if each deferred request was
        resolved before the call or is cancelled during it, and so is each one in the queue. */
    method RunCollected(first: nat, batch: seq<nat>, queued: nat, fromQueue: bool, script: Script) returns (turn: Turn)
      requires Valid() && alive && hand == multiset(batch) && owed == queued + if fromQueue then 1 else 0
      requires batch != [] && batch[0] == first
      modifies this`alive
      modifies this`items, this`hand, this`owed, this`table
      modifies this`unfinished, this`accepting, this`maxObserved, this`nextId
      ensures Valid() && turn in {Continued, Aborted} && (alive <==> turn == Continued)
      ensures hand == multiset{} && owed == 0 && first in table && table[first].outcome.Some?
      ensures Grown(old(table), table) && (!old(accepting) ==> !accepting)
      ensures Known(old(table), batch)
      ensures var active := Runnable(old(table), batch, script.lateAtStart);
              var events := if active == [] then [] else script.call;
              && Ran(old(table), table, batch, active, script)
              && LeftAlone(old(table), table, multiset(deferred), events)
              && Now() == After(old(Now()), events, maximum)
              && (turn == Aborted <==> script.worker == TaskCancelled && active != [])
      ensures AllResolved(table) <==> ResolvedIn(table, Places())
      ensures turn == Aborted ==>
                (AllResolved(table) <==>
                   Covered(old(table), deferred, script.call) && After(old(Now()), script.call, maximum).open == {})
    {
      hide Placed, Ids, Grown, LeftAlone, AllResolved, ResolvedIn, Places, Unresolved, After, Ran, Covered;
      TerminalIsResolved();
      DeferredKnown(batch);
      var aborted := ProcessBatch(batch, script);
      turn := if aborted then Aborted else Continued;
      assert batch[0] in batch;
      SettleAccount(queued, fromQueue);
      alive := !aborted;
      WhoIsLeft();
      if aborted {
        CoveredAreResolved(old(table), table, deferred, script.call);
      }
    }

    /** What a turn in which nobody interferes before the worker call makes of the first request, the
        deferred ones and those in the queue: the collection goes by the plan, the worker's answer
        reaches the batch, who has to wait is deferred and left alone, and the turn is aborted exactly
        when the worker call is cancelled. Then every future is resolved if and only if each deferred
        request was resolved before the turn or is cancelled during the call, and the queue has no
        open request; once shutdown has begun, the queue has none. */
    ghost predicate CalmTurn(turn: Turn, t0: Table, first: nat, d0: seq<nat>, items0: seq<Option<nat>>, next0: nat,
                             script: Script)
      reads this`table, this`deferred, this`accepting
    {
      && turn in {Continued, Aborted}
      && first in t0 && Known(t0, d0) && Known(t0, Front(items0, |script.windows|))
      && var plan := PlanOf(t0, script.late, first, d0, items0, |script.windows|, maxBatch, maxTokens);
         && deferred == plan.deferred && Known(t0, plan.batch)
         && var active := Runnable(t0, plan.batch, script.lateAtStart);
            && Ran(t0, table, plan.batch, active, script)
            && LeftAlone(t0, table, multiset(deferred), if active == [] then [] else script.call)
            && (turn == Aborted <==> script.worker == TaskCancelled && active != [])
            && (turn == Aborted ==>
                  (AllResolved(table) <==>
                     && Covered(t0, plan.deferred, script.call)
                     && After(Outlook(Unresolved(t0, Ids(items0[plan.taken..])), |items0| - plan.taken, next0, true),
                              script.call, maximum).open == {}))
            && (turn == Aborted && Closes in script.call ==>
                  !accepting && (AllResolved(table) <==> Covered(t0, plan.deferred, script.call)))
    }

    lemma Concluded(turn: Turn, t0: Table, first: nat, d0: seq<nat>, items0: seq<Option<nat>>, next0: nat,
                    script: Script, places0: multiset<nat>, collected: Table, places: multiset<nat>,
                    items1: seq<Option<nat>>, batch: seq<nat>)
      requires turn in {Continued, Aborted}
      requires Planned(t0, d0, items0, first, script, maxBatch, maxTokens, batch, deferred, items1)
      requires Carried(t0, collected, places0, places) && Known(collected, batch)
      requires forall id :: id in batch || id in deferred || id in Ids(items1) ==> id in places
      requires forall id :: id in collected ==> id < next0
      requires var active := Runnable(collected, batch, script.lateAtStart);
               && Ran(collected, table, batch, active, script)
               && LeftAlone(collected, table, multiset(deferred), if active == [] then [] else script.call)
               && (turn == Aborted <==> script.worker == TaskCancelled && active != [])
      requires var o := Outlook(Unresolved(collected, Ids(items1)), |items1|, next0, true);
               turn == Aborted ==>
                 && (AllResolved(table) <==>
                       Covered(collected, deferred, script.call) && After(o, script.call, maximum).open == {})
                 && accepting == After(o, script.call, maximum).accepting
      ensures CalmTurn(turn, t0, first, d0, items0, next0, script)
    {
      hide Picks, Front, Ids, Ran, Unresolved, AllResolved, PlanOf, Runnable, Carried, LeftAlone, Covered, After;
      CarriedMembers(t0, collected, places0, places);
      RunnableStable(t0, collected, batch, script.lateAtStart);
      RunnableMembers(collected, batch, script.lateAtStart);
      RanFrom(t0, collected, table, batch, Runnable(collected, batch, script.lateAtStart), script);
      HeldStable(t0, collected, table, deferred, script.call);
      HeldStable(t0, collected, table, deferred, []);
      OpenUntouched(t0, collected, Ids(items1));
      OpenIsOlder(collected, Ids(items1), next0);
      OutlookMeaning(Outlook(Unresolved(collected, Ids(items1)), |items1|, next0, true), script.call, maximum);
    }

    lemma WhoIsLeft()
      requires Books()
      ensures AllResolved(table) <==> ResolvedIn(table, Places())
      ensures hand == multiset{} ==>
                (AllResolved(table) <==> ResolvedIn(table, multiset(deferred)) && Now().open == {})
      ensures hand == multiset{} && deferred == [] ==> (AllResolved(table) <==> Now().open == {})
    {
      hide Ids;
      forall id | id in Ids(items)
        ensures id in table
      {
        assert id in Places();
      }
      NothingOpen(table, Ids(items));
      if hand == multiset{} {
        assert forall id :: id in Places() <==> id in Ids(items) || id in multiset(deferred);
      }
    }

    lemma EverythingResolved()
      requires Books() && items == [] && deferred == [] && hand == multiset{}
      ensures AllResolved(table)
    {
      assert forall id :: id !in Ids(items) + multiset(deferred) + hand;
    }
  }

  lemma StayResolved(a: Table, b: Table, ids: seq<nat>)
    requires Grown(a, b) && forall id :: id in ids ==> id in a && a[id].outcome.Some?
    ensures forall id :: id in ids ==> id in b && b[id].outcome.Some?
  {}

  lemma HandMoves(hand: multiset<nat>, batch: seq<nat>, i: nat, active: seq<nat>)
    requires i < |batch| && hand == multiset(batch[i..]) + multiset(active)
    ensures batch[i] in hand && batch[i] in batch[i..]
    ensures hand == multiset(batch[i + 1..]) + multiset(active + [batch[i]])
    ensures hand - multiset{batch[i]} == multiset(batch[i + 1..]) + multiset(active)
  {
    assert batch[i..] == [batch[i]] + batch[i + 1..];
  }

  ghost function CostOf(table: Table, batch: seq<nat>): nat
    requires forall id :: id in batch ==> id in table
  {
    if batch == [] then 0 else CostOf(table, batch[..|batch| - 1]) + table[batch[|batch| - 1]].cost
  }

  /** Requests of one shape within the token budget; a single request is taken whatever it costs. */
  ghost predicate Compatible(table: Table, batch: seq<nat>, total: nat, limit: nat) {
    && batch != [] && batch[0] in table
    && (forall id :: id in batch ==> id in table && table[id].shape == table[batch[0]].shape)
    && total == CostOf(table, batch) && (|batch| > 1 ==> total <= limit)
  }

  lemma CompatibleHasFirst(table: Table, batch: seq<nat>, total: nat, limit: nat)
    requires Compatible(table, batch, total, limit)
    ensures batch != [] && batch[0] in table
  {}

  lemma FirstIsCompatible(table: Table, first: nat, limit: nat)
    requires first in table
    ensures Compatible(table, [first], table[first].cost, limit)
  {
    assert CostOf(table, [first][..0]) == 0;
  }

  lemma CompatibleGrows(table: Table, batch: seq<nat>, total: nat, limit: nat, id: nat)
    requires Compatible(table, batch, total, limit) && id in table
    requires table[id].shape == table[batch[0]].shape && total + table[id].cost <= limit
    ensures Compatible(table, batch + [id], total + table[id].cost, limit)
  {
    assert (batch + [id])[..|batch|] == batch;
  }

  lemma CompatibleStable(a: Table, b: Table, batch: seq<nat>, total: nat, limit: nat)
    requires Compatible(a, batch, total, limit) && Grown(a, b)
    ensures Compatible(b, batch, total, limit)
  {
    CostStable(a, b, batch);
  }

  lemma {:induction false} CostStable(a: Table, b: Table, batch: seq<nat>)
    requires (forall id :: id in batch ==> id in a) && Grown(a, b)
    ensures (forall id :: id in batch ==> id in b) && CostOf(a, batch) == CostOf(b, batch)
  {
    if batch != [] {
      CostStable(a, b, batch[..|batch| - 1]);
    }
  }

  // ---------------------------------------------------------------- a request lost at shutdown

  /** Request 0 makes up the batch, and request 1, of another shape, is deferred. */
  lemma OtherShapeWaits(table: Table, maxBatch: nat, limit: nat)
    requires table.Keys == {0, 1} && table[0].shape != table[1].shape && table[0].status == table[1].status == Queued
    requires maxBatch >= 2
    ensures Front([Some(1)], 1) == [1] && Runnable(table, [0], {}) == [0]
    ensures PlanOf(table, {}, 0, [], [Some(1)], 1, maxBatch, limit) == Plan([0], [1], 1)
  {
    var batch: seq<nat> := [0];
    assert batch[..0] == [] && [1][1..] == [];
    assert Front([Some(1)], 1) == [1] + Front([], 0);
    hide Front, Runnable;
    NothingToPick(table, maxBatch, limit);
    OnePick(table, maxBatch, limit);
  }

  lemma NothingToPick(table: Table, maxBatch: nat, limit: nat)
    requires 0 in table
    ensures Picks(table, {}, [0], table[0].cost, maxBatch, limit, []) == Pick([0], table[0].cost, [], 0)
  {}

  lemma OnePick(table: Table, maxBatch: nat, limit: nat)
    requires 0 in table && 1 in table && table[0].shape != table[1].shape && table[1].status == Queued && maxBatch >= 2
    ensures Picks(table, {}, [0], table[0].cost, maxBatch, limit, [1]) == Pick([0], table[0].cost, [1], 1)
  {
    assert [1][1..] == [];
  }

  /** Request 0 runs alone while request 1, of another shape, waits; shutdown begins during the
      worker call, and the call is cancelled when the grace period is over. The loop then
      abandons request 1: it ends with that request deferred and its future not resolved, and nothing
      that other tasks do later resolves it, except its own cancellation. */
  method LostAtShutdown(maximum: nat, maxBatch: nat, maxTokens: nat, a: Shape, b: Shape, costA: nat, costB: nat,
                        later: seq<Event>)
    returns (s: Scheduler)
    requires maximum >= 2 && maxBatch >= 2 && a != b && Cancels(1) !in later
    ensures fresh(s) && s.Valid() && !s.alive && !s.accepting && s.hand == multiset{} && s.deferred == [1]
    ensures 1 in s.table && s.table[1].outcome.None?
  {
    hide Placed, Ids, Picks, Front, PlanOf, Runnable, ResolvedIn, AllResolved, Grown, Ran, LeftAlone, Covered, After,
         Unresolved;
    s := new Scheduler(maximum, maxBatch, maxTokens);
    var first, _ := s.Submit(a, costA);
    var second, _ := s.Submit(b, costB);
    ghost var table, items := s.table, s.items;
    assert items == [Some(0), Some(1)] && items[1..] == [Some(1)];
    assert table.Keys == {0, 1};
    OtherShapeWaits(table, maxBatch, maxTokens);
    var script := Script(Window([], false), [Window([], false)], {}, {}, [Closes], TaskCancelled, {});
    var turn := s.TakeTurn(script);
    assert turn == Aborted && s.deferred == [1];
    StillHeld(table, s.table, multiset(s.deferred), [Closes], 1);
    ghost var left := s.table;
    s.Wait(later);
    StillHeld(left, s.table, multiset(s.deferred) + s.hand, later, 1);
  }

  lemma StillHeld(a: Table, b: Table, held: multiset<nat>, events: seq<Event>, id: nat)
    requires LeftAlone(a, b, held, events) && id in held && id in a && Cancels(id) !in events
    ensures id in b && b[id] == a[id]
  {}
}
