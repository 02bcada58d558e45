/** How the worker of `apps/worker/service.py` forms batches from its queue, and who waits. */
module WorkerBatch {
  import opened Wrappers
  import opened Sequences
  import opened RequestLifecycle

  /** What requests must share to run in one batch. */
  datatype Shape = Shape(model: string, maxNewTokens: nat, temperature: real, stream: bool)

  /** `entry` numbers the requests as they enter the queue. It tells them apart, as the identity of the
      records does in the source: two of them may have the same id. */
  datatype Request =
    Request(entry: nat, id: string, shape: Shape, tokens: nat, deadline: real, status: RequestState)
  {
    predicate Live(now: real) {
      !Terminal(status) && deadline > now
    }
  }

  datatype Limits = Limits(depth: nat, size: nat, tokens: nat)

  /** `selected` joins the batch, `dropped` is terminal or late, `left` stays queued. */
  datatype Outcome = Outcome(selected: seq<Request>, dropped: seq<Request>, left: seq<Request>)

  // ---------------------------------------------------------------- what one call does

  /** Scans behind the first request of the batch while the batch has room. */
  function Scan(limits: Limits, shape: Shape, queue: seq<Request>, now: real, size: nat, tokens: nat): Outcome {
    if queue == [] || size >= limits.size then Outcome([], [], queue)
    else
      var c := queue[0];
      if !c.Live(now) then
        var o := Scan(limits, shape, queue[1..], now, size, tokens);
        o.(dropped := [c] + o.dropped)
      else if c.shape == shape && tokens + c.tokens <= limits.tokens then
        var o := Scan(limits, shape, queue[1..], now, size + 1, tokens + c.tokens);
        o.(selected := [c] + o.selected)
      else
        var o := Scan(limits, shape, queue[1..], now, size, tokens);
        o.(left := [c] + o.left)
  }

  function FormBatch(limits: Limits, queue: seq<Request>, now: real): Outcome {
    if queue == [] then Outcome([], [], [])
    else if !queue[0].Live(now) then
      var o := FormBatch(limits, queue[1..], now);
      o.(dropped := [queue[0]] + o.dropped)
    else
      var o := Scan(limits, queue[0].shape, queue[1..], now, 1, queue[0].tokens);
      o.(selected := [queue[0]] + o.selected)
  }

  ghost function TokensOf(requests: seq<Request>): nat {
    if requests == [] then 0 else requests[0].tokens + TokensOf(requests[1..])
  }

  /** `part` is what remains of `whole` after leaving some elements out, order kept. */
  ghost predicate Subsequence<T>(part: seq<T>, whole: seq<T>) {
    part == [] || (whole != [] && (
      (part[0] == whole[0] && Subsequence(part[1..], whole[1..])) || Subsequence(part, whole[1..])))
  }

  lemma {:induction false} SubsequenceOfSelf<T>(s: seq<T>)
    ensures Subsequence(s, s)
  {
    if s != [] {
      SubsequenceOfSelf(s[1..]);
    }
  }

  ghost predicate Partitions(queue: seq<Request>, o: Outcome) {
    && multiset(queue) == multiset(o.selected) + multiset(o.dropped) + multiset(o.left)
    && Subsequence(o.left, queue) && Subsequence(o.selected, queue) && Subsequence(o.dropped, queue)
  }

  lemma PartitionsCons(c: Request, queue: seq<Request>, o: Outcome)
    requires Partitions(queue, o)
    ensures Partitions([c] + queue, o.(selected := [c] + o.selected))
    ensures Partitions([c] + queue, o.(dropped := [c] + o.dropped))
    ensures Partitions([c] + queue, o.(left := [c] + o.left))
  {
    hide Subsequence;
    SubsequenceCons(c, queue, o.selected);
    SubsequenceCons(c, queue, o.dropped);
    SubsequenceCons(c, queue, o.left);
    ContentsCons(c, queue);
    ContentsCons(c, o.selected);
    ContentsCons(c, o.dropped);
    ContentsCons(c, o.left);
    PartsCons(c, multiset(o.selected), multiset(o.dropped), multiset(o.left));
  }

  lemma ContentsCons(c: Request, requests: seq<Request>)
    ensures multiset([c] + requests) == multiset{c} + multiset(requests)
  {}

  lemma PartsCons(c: Request, a: multiset<Request>, b: multiset<Request>, d: multiset<Request>)
    ensures multiset{c} + (a + b + d) == (multiset{c} + a) + b + d
    ensures multiset{c} + (a + b + d) == a + (multiset{c} + b) + d
    ensures multiset{c} + (a + b + d) == a + b + (multiset{c} + d)
  {}

  lemma SubsequenceCons<T>(c: T, whole: seq<T>, part: seq<T>)
    requires Subsequence(part, whole)
    ensures Subsequence(part, [c] + whole) && Subsequence([c] + part, [c] + whole)
  {
    assert ([c] + whole)[1..] == whole && ([c] + part)[1..] == part;
  }

  lemma {:induction false} ScanPartitions(limits: Limits, shape: Shape, queue: seq<Request>, now: real, size: nat,
                                          tokens: nat)
    ensures Partitions(queue, Scan(limits, shape, queue, now, size, tokens))
  {
    hide Partitions;
    if queue == [] || size >= limits.size {
      NothingTaken(queue);
    } else {
      var c, rest := queue[0], queue[1..];
      assert queue == [c] + rest;
      if c.Live(now) && c.shape == shape && tokens + c.tokens <= limits.tokens {
        ScanPartitions(limits, shape, rest, now, size + 1, tokens + c.tokens);
        PartitionsCons(c, rest, Scan(limits, shape, rest, now, size + 1, tokens + c.tokens));
      } else {
        ScanPartitions(limits, shape, rest, now, size, tokens);
        PartitionsCons(c, rest, Scan(limits, shape, rest, now, size, tokens));
      }
    }
  }

  lemma NothingTaken(queue: seq<Request>)
    ensures Partitions(queue, Outcome([], [], queue))
  {
    SubsequenceOfSelf(queue);
  }

  lemma {:induction false} ScanFacts(limits: Limits, shape: Shape, queue: seq<Request>, now: real, size: nat,
                                     tokens: nat)
    requires size <= limits.size && tokens <= limits.tokens
    ensures var o := Scan(limits, shape, queue, now, size, tokens);
            && size + |o.selected| <= limits.size && tokens + TokensOf(o.selected) <= limits.tokens
            && (forall r :: r in o.selected ==> r.Live(now) && r.shape == shape)
            && (forall r :: r in o.dropped ==> !r.Live(now))
            && (forall r :: r in o.left && r.Live(now) && r.shape == shape ==>
                  size + |o.selected| == limits.size || tokens + TokensOf(o.selected) + r.tokens > limits.tokens)
  {
    if queue != [] && size < limits.size {
      var c, rest := queue[0], queue[1..];
      if c.Live(now) && c.shape == shape && tokens + c.tokens <= limits.tokens {
        ScanFacts(limits, shape, rest, now, size + 1, tokens + c.tokens);
        var o := Scan(limits, shape, rest, now, size + 1, tokens + c.tokens);
        assert ([c] + o.selected)[1..] == o.selected;
      } else {
        ScanFacts(limits, shape, rest, now, size, tokens);
      }
    }
  }

  /** A batch respects both budgets, holds only requests of one shape that are neither terminal nor
      late, and leaves behind no such request of its shape that would still fit; exactly terminal and
      late ones are dropped; every request is in exactly one of the three results, in order. */
  lemma {:induction false} BatchIsSound(limits: Limits, queue: seq<Request>, now: real)
    requires limits.size > 0 && forall r :: r in queue ==> r.tokens <= limits.tokens
    ensures var o := FormBatch(limits, queue, now);
            && Partitions(queue, o)
            && |o.selected| <= limits.size && TokensOf(o.selected) <= limits.tokens
            && (forall r :: r in o.selected ==>
                  !Terminal(r.status) && r.deadline > now && r.shape == o.selected[0].shape)
            && (forall r :: r in o.dropped ==> Terminal(r.status) || r.deadline <= now)
            && (o.selected == [] ==> o.left == [])
            && (forall r :: r in o.left && !Terminal(r.status) && r.deadline > now && r.shape == o.selected[0].shape ==>
                  |o.selected| == limits.size || TokensOf(o.selected) + r.tokens > limits.tokens)
    decreases queue
  {
    hide Partitions, Scan;
    if queue == [] {
      NothingTaken(queue);
    } else {
      var c, rest := queue[0], queue[1..];
      assert queue == [c] + rest;
      if !c.Live(now) {
        BatchIsSound(limits, rest, now);
        PartitionsCons(c, rest, FormBatch(limits, rest, now));
      } else {
        ScanFacts(limits, c.shape, rest, now, 1, c.tokens);
        ScanPartitions(limits, c.shape, rest, now, 1, c.tokens);
        var o := Scan(limits, c.shape, rest, now, 1, c.tokens);
        PartitionsCons(c, rest, o);
        assert ([c] + o.selected)[1..] == o.selected;
      }
    }
  }

  /** First come, first served: what arrives later never changes who of the earlier requests is
      selected, it can only join after them. */
  lemma {:induction false} EarlierComesFirst(limits: Limits, queue: seq<Request>, now: real, n: nat)
    requires n <= |queue|
    ensures FormBatch(limits, queue[..n], now).selected <= FormBatch(limits, queue, now).selected
    decreases queue
  {
    hide Scan;
    if n > 0 {
      var c, rest := queue[0], queue[1..];
      assert queue[..n][0] == c && queue[..n][1..] == rest[..n - 1];
      if c.Live(now) {
        ScanPrefix(limits, c.shape, rest, now, 1, c.tokens, n - 1);
      } else {
        EarlierComesFirst(limits, rest, now, n - 1);
      }
    }
  }

  lemma {:induction false} ScanPrefix(limits: Limits, shape: Shape, queue: seq<Request>, now: real, size: nat,
                                      tokens: nat, n: nat)
    requires n <= |queue|
    ensures Scan(limits, shape, queue[..n], now, size, tokens).selected
         <= Scan(limits, shape, queue, now, size, tokens).selected
    decreases queue
  {
    if n > 0 && size < limits.size {
      var c, rest := queue[0], queue[1..];
      assert queue[..n][0] == c && queue[..n][1..] == rest[..n - 1];
      if c.Live(now) && c.shape == shape && tokens + c.tokens <= limits.tokens {
        ScanPrefix(limits, shape, rest, now, size + 1, tokens + c.tokens, n - 1);
      } else {
        ScanPrefix(limits, shape, rest, now, size, tokens, n - 1);
      }
    }
  }

  lemma LeftWasQueued(queue: seq<Request>, o: Outcome)
    requires Partitions(queue, o)
    ensures |o.left| <= |queue| && forall r :: r in o.left ==> r in queue
  {
    assert |multiset(queue)| == |multiset(o.selected)| + |multiset(o.dropped)| + |multiset(o.left)|;
    forall r | r in o.left
      ensures r in queue
    {
      assert r in multiset(o.left);
      assert r in multiset(queue);
    }
  }

  // ---------------------------------------------------------------- the transitions of one call

  /** Started, here or by another holder of the record, but not finished. */
  predicate UnderWay(status: RequestState) {
    status in {Prefill, Running, Decode, Streaming}
  }

  /** What a request can be after it entered the queue: other holders can only make allowed moves. */
  ghost predicate Sane(requests: seq<Request>) {
    forall r :: r in requests ==> Terminal(r.status) || UnderWay(r.status) || r.status in {Queued, Assigned}
  }

  lemma SaneMovesAllowed(status: RequestState)
    requires !Terminal(status) && (UnderWay(status) || status in {Queued, Assigned})
    ensures TimedOut in Allowed(status) && Cancelled in Allowed(status)
    ensures Running in Allowed(status) <==> !UnderWay(status)
    ensures UnderWay(status) ==> Completed in Allowed(status) && Failed in Allowed(status)
    ensures forall next :: next in Allowed(status) ==>
              Terminal(next) || UnderWay(next) || next in {Queued, Assigned}
  {}

  /** A late request times out; a terminal one is just dropped. */
  function Expire(r: Request): Request {
    if Terminal(r.status) then r else r.(status := TimedOut)
  }

  function ExpireAll(requests: seq<Request>): (expired: seq<Request>)
    ensures |expired| == |requests|
    ensures forall i :: 0 <= i < |requests| ==> expired[i] == Expire(requests[i])
  {
    seq(|requests|, i requires 0 <= i < |requests| => Expire(requests[i]))
  }

  /** How many of the selected requests are started before a transition is refused. */
  function Begun(selected: seq<Request>): (k: nat)
    ensures k <= |selected|
    ensures forall i :: 0 <= i < k ==> Running in Allowed(selected[i].status)
    ensures k < |selected| ==> Running !in Allowed(selected[k].status)
  {
    if selected == [] || Running !in Allowed(selected[0].status) then 0 else 1 + Begun(selected[1..])
  }

  /** The selected requests after the call; from a refused one on they are as before. */
  function Start(selected: seq<Request>): (started: seq<Request>)
    ensures |started| == |selected|
    ensures forall i :: 0 <= i < |selected| ==>
              started[i] == if i < Begun(selected) then selected[i].(status := Running) else selected[i]
  {
    seq(|selected|, i requires 0 <= i < |selected| =>
      if i < Begun(selected) then selected[i].(status := Running) else selected[i])
  }

  /** The call is not refused. */
  ghost predicate Permitted(selected: seq<Request>) {
    forall r :: r in selected ==> Running in Allowed(r.status)
  }

  lemma PermittedIsBegun(selected: seq<Request>)
    ensures Permitted(selected) <==> Begun(selected) == |selected|
  {
    if Begun(selected) < |selected| {
      assert selected[Begun(selected)] in selected;
    }
  }

  lemma {:induction false} DroppedAreDead(limits: Limits, shape: Shape, queue: seq<Request>, now: real, size: nat,
                                          tokens: nat)
    ensures forall r :: r in Scan(limits, shape, queue, now, size, tokens).dropped ==> !r.Live(now)
    decreases queue
  {
    if queue != [] && size < limits.size {
      DroppedAreDead(limits, shape, queue[1..], now, size, tokens);
      DroppedAreDead(limits, shape, queue[1..], now, size + 1, tokens + queue[0].tokens);
    }
  }

  lemma {:induction false} CallDropsTheDead(limits: Limits, queue: seq<Request>, now: real)
    ensures forall r :: r in FormBatch(limits, queue, now).dropped ==> !r.Live(now)
    ensures Partitions(queue, FormBatch(limits, queue, now))
    decreases queue
  {
    hide Scan, Partitions;
    if queue == [] {
      NothingTaken(queue);
    } else {
      var c, rest := queue[0], queue[1..];
      assert queue == [c] + rest;
      if !c.Live(now) {
        CallDropsTheDead(limits, rest, now);
        PartitionsCons(c, rest, FormBatch(limits, rest, now));
      } else {
        DroppedAreDead(limits, c.shape, rest, now, 1, c.tokens);
        ScanPartitions(limits, c.shape, rest, now, 1, c.tokens);
        PartitionsCons(c, rest, Scan(limits, c.shape, rest, now, 1, c.tokens));
      }
    }
  }

  lemma PartitionMembers(queue: seq<Request>, o: Outcome)
    requires Partitions(queue, o)
    ensures forall r :: r in queue <==> r in o.selected || r in o.dropped || r in o.left
  {
    forall r: Request
      ensures r in queue <==> r in o.selected || r in o.dropped || r in o.left
    {
      assert r in queue <==> r in multiset(queue);
      assert r in multiset(queue) <==> r in multiset(o.selected) || r in multiset(o.dropped) || r in multiset(o.left);
    }
  }

  // ---------------------------------------------------------------- nobody waits behind later arrivals

  /** A request somewhere among the first `n`. */
  ghost predicate Within(requests: seq<Request>, n: nat, r: Request) {
    exists i :: 0 <= i < n && i < |requests| && requests[i] == r
  }

  lemma WithinCons(c: Request, requests: seq<Request>, n: nat, r: Request)
    ensures Within([c] + requests, n + 1, r) <==> c == r || Within(requests, n, r)
  {
    if i :| 0 <= i < n && i < |requests| && requests[i] == r {
      assert ([c] + requests)[i + 1] == requests[i];
    }
    assert ([c] + requests)[0] == c;
    if Within([c] + requests, n + 1, r) {
      var i :| 0 <= i < n + 1 && i < |[c] + requests| && ([c] + requests)[i] == r;
      assert i > 0 ==> ([c] + requests)[i] == requests[i - 1];
    }
  }

  lemma WithinSomething(requests: seq<Request>, n: nat, r: Request)
    requires Within(requests, n, r)
    ensures n > 0 && requests != []
  {}

  lemma WithinMore(requests: seq<Request>, n: nat, r: Request)
    ensures Within(requests, n, r) ==> Within(requests, n + 1, r)
  {}

  /** Scanning never moves a request back. */
  lemma {:induction false} ScanKeepsPlace(limits: Limits, shape: Shape, queue: seq<Request>, now: real, size: nat,
                                          tokens: nat, n: nat, r: Request)
    requires Within(queue, n, r)
    ensures var o := Scan(limits, shape, queue, now, size, tokens);
            r in o.selected || r in o.dropped || Within(o.left, n, r)
    decreases queue
  {
    hide Within;
    WithinSomething(queue, n, r);
    if size < limits.size {
      var c, rest := queue[0], queue[1..];
      assert queue == [c] + rest;
      WithinCons(c, rest, n - 1, r);
      var grows := c.Live(now) && c.shape == shape && tokens + c.tokens <= limits.tokens;
      var o := if grows then Scan(limits, shape, rest, now, size + 1, tokens + c.tokens)
               else Scan(limits, shape, rest, now, size, tokens);
      if c != r {
        if grows {
          ScanKeepsPlace(limits, shape, rest, now, size + 1, tokens + c.tokens, n - 1, r);
        } else {
          ScanKeepsPlace(limits, shape, rest, now, size, tokens, n - 1, r);
        }
        WithinMore(o.left, n - 1, r);
      }
      WithinCons(c, o.left, n - 1, r);
    }
  }

  /** Every call serves, drops or moves forward each queued request. */
  lemma {:induction false} CallMovesForward(limits: Limits, queue: seq<Request>, now: real, n: nat, r: Request)
    requires Within(queue, n, r)
    ensures n > 0
    ensures var o := FormBatch(limits, queue, now);
            r in o.selected || r in o.dropped || Within(o.left, n - 1, r)
    decreases queue
  {
    hide Within;
    WithinSomething(queue, n, r);
    var c, rest := queue[0], queue[1..];
    assert queue == [c] + rest;
    WithinCons(c, rest, n - 1, r);
    if !c.Live(now) {
      if c != r {
        CallMovesForward(limits, rest, now, n - 1, r);
        WithinMore(FormBatch(limits, rest, now).left, n - 2, r);
      }
    } else if c != r {
      ScanKeepsPlace(limits, c.shape, rest, now, 1, c.tokens, n - 1, r);
    }
  }

  /** What can happen to the queue: a call of the batch executor, an arrival at the back, a
      cancellation, or a transition of a queued request by another holder of the record. */
  datatype Event =
    | Call(now: real)
    | Arrive(request: Request)
    | Cancel(id: string)
    | Elsewhere(index: nat, status: RequestState)

  function FirstWith(queue: seq<Request>, id: string): (i: nat)
    ensures i <= |queue| && (i < |queue| ==> queue[i].id == id)
    ensures forall j :: 0 <= j < i ==> queue[j].id != id
  {
    if queue == [] || queue[0].id == id then 0 else 1 + FirstWith(queue[1..], id)
  }

  /** A cancelled request leaves the queue even when the transition is then refused. */
  function Cancelling(r: Request): Request {
    if Cancelled in Allowed(r.status) then r.(status := Cancelled) else r
  }

  /** The queue afterwards, and the requests that left it as they left it; an arrival gets the number
      `next`. */
  ghost function Apply(limits: Limits, queue: seq<Request>, next: nat, event: Event): (seq<Request>, seq<Request>) {
    match event
    case Call(now) =>
      var o := FormBatch(limits, queue, now);
      (o.left, Start(o.selected) + ExpireAll(o.dropped))
    case Arrive(request) => (queue + [request.(entry := next, status := Queued)], [])
    case Cancel(id) =>
      var i := FirstWith(queue, id);
      if i < |queue| then (RemoveAt(queue, i), [Cancelling(queue[i])]) else (queue, [])
    case Elsewhere(i, status) =>
      (if i < |queue| && status in Allowed(queue[i].status) then queue[i := queue[i].(status := status)] else queue, [])
  }

  ghost function Counted(next: nat, event: Event): nat {
    if event.Arrive? then next + 1 else next
  }

  /** The queue after a run, and those that have left it. */
  ghost function Play(limits: Limits, queue: seq<Request>, next: nat, events: seq<Event>): (seq<Request>, seq<Request>)
    decreases events
  {
    if events == [] then (queue, [])
    else
      var (after, gone) := Apply(limits, queue, next, events[0]);
      var (end, later) := Play(limits, after, Counted(next, events[0]), events[1..]);
      (end, gone + later)
  }

  ghost function Arrivals(events: seq<Event>): nat {
    if events == [] then 0 else (if events[0].Arrive? then 1 else 0) + Arrivals(events[1..])
  }

  ghost function Calls(events: seq<Event>): nat {
    if events == [] then 0 else (if events[0].Call? then 1 else 0) + Calls(events[1..])
  }

  /** No call of the run is refused. */
  ghost predicate Smooth(limits: Limits, queue: seq<Request>, next: nat, events: seq<Event>)
    decreases events
  {
    events == [] || (
      && (events[0].Call? ==> Permitted(FormBatch(limits, queue, events[0].now).selected))
      && Smooth(limits, Apply(limits, queue, next, events[0]).0, Counted(next, events[0]), events[1..]))
  }

  lemma EventKeepsSane(limits: Limits, queue: seq<Request>, next: nat, event: Event)
    requires Sane(queue)
    ensures Sane(Apply(limits, queue, next, event).0)
  {
    hide FormBatch, Partitions;
    match event
    case Call(now) =>
      CallDropsTheDead(limits, queue, now);
      PartitionMembers(queue, FormBatch(limits, queue, now));
    case Arrive(request) =>
    case Cancel(id) =>
      if FirstWith(queue, id) < |queue| {
        RemoveAtTakesOne(queue, FirstWith(queue, id));
      }
    case Elsewhere(i, status) =>
      if i < |queue| && !Terminal(queue[i].status) {
        SaneMovesAllowed(queue[i].status);
      }
  }

  /** The request with this number is among the first `n`. */
  ghost predicate HoldsWithin(requests: seq<Request>, n: nat, entry: nat) {
    exists i :: 0 <= i < n && i < |requests| && requests[i].entry == entry
  }

  /** The request with this number is there, started or terminal. */
  ghost predicate Settled(requests: seq<Request>, entry: nat) {
    exists r :: r in requests && r.entry == entry && (r.status == Running || Terminal(r.status))
  }

  /** No event moves a request back, and who leaves has been started or is terminal. */
  lemma EventKeepsPlace(limits: Limits, queue: seq<Request>, next: nat, event: Event, n: nat, entry: nat)
    requires Sane(queue) && HoldsWithin(queue, n, entry)
    requires event.Call? ==> Permitted(FormBatch(limits, queue, event.now).selected)
    ensures var (after, gone) := Apply(limits, queue, next, event);
            Settled(gone, entry) || HoldsWithin(after, if event.Call? then n - 1 else n, entry)
  {
    hide FormBatch, Partitions, Within;
    var i :| 0 <= i < n && i < |queue| && queue[i].entry == entry;
    match event
    case Call(now) => CallSettles(limits, queue, next, now, n, i);
    case Arrive(request) => assert (queue + [request.(entry := next, status := Queued)])[i] == queue[i];
    case Cancel(id) => CancelSettles(limits, queue, next, id, n, i);
    case Elsewhere(k, status) => assert Apply(limits, queue, next, event).0[i].entry == entry;
  }

  lemma CancelSettles(limits: Limits, queue: seq<Request>, next: nat, id: string, n: nat, i: nat)
    requires Sane(queue) && i < n && i < |queue|
    ensures var (after, gone) := Apply(limits, queue, next, Event.Cancel(id));
            Settled(gone, queue[i].entry) || HoldsWithin(after, n, queue[i].entry)
  {
    hide FormBatch, Allowed;
    var k := FirstWith(queue, id);
    if k == i {
      assert queue[i] in queue && Cancelling(queue[i]) in [Cancelling(queue[i])];
      if !Terminal(queue[i].status) {
        SaneMovesAllowed(queue[i].status);
      }
    } else if k < |queue| {
      assert RemoveAt(queue, k)[if k < i then i - 1 else i] == queue[i];
    }
  }

  lemma IsWithin(requests: seq<Request>, n: nat, i: nat)
    requires i < n && i < |requests|
    ensures Within(requests, n, requests[i])
  {}

  lemma WithinHolds(requests: seq<Request>, n: nat, r: Request)
    requires Within(requests, n, r)
    ensures HoldsWithin(requests, n, r.entry)
  {}

  lemma CallSettles(limits: Limits, queue: seq<Request>, next: nat, now: real, n: nat, i: nat)
    requires Sane(queue) && i < n && i < |queue| && Permitted(FormBatch(limits, queue, now).selected)
    ensures var (after, gone) := Apply(limits, queue, next, Call(now));
            Settled(gone, queue[i].entry) || HoldsWithin(after, n - 1, queue[i].entry)
  {
    hide FormBatch, Partitions, Permitted, Sane, Within;
    var r := queue[i];
    var o := FormBatch(limits, queue, now);
    IsWithin(queue, n, i);
    CallMovesForward(limits, queue, now, n, r);
    CallDropsTheDead(limits, queue, now);
    PermittedIsBegun(o.selected);
    var gone := Start(o.selected) + ExpireAll(o.dropped);
    if r in o.selected {
      var k :| 0 <= k < |o.selected| && o.selected[k] == r;
      assert gone[k] == r.(status := Running) && gone[k] in gone;
    } else if r in o.dropped {
      var k :| 0 <= k < |o.dropped| && o.dropped[k] == r;
      assert gone[|o.selected| + k] == Expire(r) && gone[|o.selected| + k] in gone;
    } else {
      WithinHolds(o.left, n - 1, r);
    }
  }

  /** Bounded waiting: a request with fewer than `n` others in front of it has left the queue,
      started or terminal, once the executor has been called `n` times, whatever arrives behind it
      and whatever other holders do, as long as no call is refused. It is the very request, not
      another one with its id: by `EntriesConserved` no number is given out twice. */
  lemma {:induction false} ServedWithin(limits: Limits, queue: seq<Request>, next: nat, events: seq<Event>, n: nat,
                                        entry: nat)
    requires Sane(queue) && HoldsWithin(queue, n, entry) && Calls(events) >= n && Smooth(limits, queue, next, events)
    ensures Settled(Play(limits, queue, next, events).1, entry)
    decreases events
  {
    hide FormBatch, Permitted;
    SomebodyHeld(queue, n, entry);
    EventKeepsPlace(limits, queue, next, events[0], n, entry);
    EventKeepsSane(limits, queue, next, events[0]);
    var (after, gone) := Apply(limits, queue, next, events[0]);
    var later := Play(limits, after, Counted(next, events[0]), events[1..]).1;
    if Settled(gone, entry) {
      assert forall r :: r in gone ==> r in gone + later;
    } else {
      ServedWithin(limits, after, Counted(next, events[0]), events[1..], if events[0].Call? then n - 1 else n, entry);
      assert forall r :: r in later ==> r in gone + later;
    }
  }

  lemma SomebodyHeld(requests: seq<Request>, n: nat, entry: nat)
    requires HoldsWithin(requests, n, entry)
    ensures n > 0 && requests != []
  {}

  // ---------------------------------------------------------------- nobody is lost or doubled

  /** How many of the requests have this number. */
  ghost function Count(requests: seq<Request>, entry: nat): nat {
    if requests == [] then 0
    else (if requests[0].entry == entry then 1 else 0) + Count(requests[1..], entry)
  }

  /** Numbers are given out once, below `next`. */
  ghost predicate Numbered(queue: seq<Request>, next: nat) {
    forall entry: nat :: Count(queue, entry) <= if entry < next then 1 else 0
  }

  /** Over every run each request that was queued or arrived is, exactly once, among those that left
      or still in the queue. */
  lemma {:induction false} EntriesConserved(limits: Limits, queue: seq<Request>, next: nat, events: seq<Event>,
                                            entry: nat)
    ensures var (end, gone) := Play(limits, queue, next, events);
            && Count(gone, entry) + Count(end, entry)
               == Count(queue, entry) + (if next <= entry < next + Arrivals(events) then 1 else 0)
            && (Numbered(queue, next) ==> Count(gone, entry) + Count(end, entry) <= 1)
    decreases events
  {
    hide Apply, Numbered;
    if Numbered(queue, next) {
      NumberedOnce(queue, next, entry);
    }
    if events != [] {
      EventConserves(limits, queue, next, events[0], entry);
      var (after, gone) := Apply(limits, queue, next, events[0]);
      var next' := Counted(next, events[0]);
      EntriesConserved(limits, after, next', events[1..], entry);
      CountJoins(gone, Play(limits, after, next', events[1..]).1, entry);
    }
  }

  lemma NumberedOnce(queue: seq<Request>, next: nat, entry: nat)
    requires Numbered(queue, next)
    ensures Count(queue, entry) <= if entry < next then 1 else 0
  {}

  lemma EventConserves(limits: Limits, queue: seq<Request>, next: nat, event: Event, entry: nat)
    ensures var (after, gone) := Apply(limits, queue, next, event);
            Count(gone, entry) + Count(after, entry)
            == Count(queue, entry) + if event.Arrive? && entry == next then 1 else 0
  {
    hide FormBatch, Start, ExpireAll, Allowed;
    match event
    case Call(now) =>
      CallCounts(limits, queue, now, entry);
      LeavingCounts(FormBatch(limits, queue, now), entry);
    case Arrive(request) => CountJoins(queue, [request.(entry := next, status := Queued)], entry);
    case Cancel(id) =>
      if FirstWith(queue, id) < |queue| {
        CountRemoved(queue, FirstWith(queue, id), entry);
      }
    case Elsewhere(i, status) =>
      if i < |queue| {
        CountSame(queue, queue[i := queue[i].(status := status)], entry);
      }
  }

  lemma LeavingCounts(o: Outcome, entry: nat)
    ensures Count(Start(o.selected) + ExpireAll(o.dropped), entry)
         == Count(o.selected, entry) + Count(o.dropped, entry)
  {
    CountJoins(Start(o.selected), ExpireAll(o.dropped), entry);
    CountSame(o.selected, Start(o.selected), entry);
    CountSame(o.dropped, ExpireAll(o.dropped), entry);
  }

  lemma {:induction false} CountJoins(a: seq<Request>, b: seq<Request>, entry: nat)
    ensures Count(a + b, entry) == Count(a, entry) + Count(b, entry)
  {
    if a == [] {
      assert a + b == b;
    } else {
      CountJoins(a[1..], b, entry);
      assert (a + b)[1..] == a[1..] + b;
    }
  }

  lemma {:induction false} CountSame(a: seq<Request>, b: seq<Request>, entry: nat)
    requires |a| == |b| && forall i :: 0 <= i < |a| ==> a[i].entry == b[i].entry
    ensures Count(a, entry) == Count(b, entry)
  {
    if a != [] {
      CountSame(a[1..], b[1..], entry);
    }
  }

  lemma CountRemoved(queue: seq<Request>, i: nat, entry: nat)
    requires i < |queue|
    ensures Count(queue, entry) == Count(RemoveAt(queue, i), entry) + Count([queue[i]], entry)
  {
    CountJoins(queue[..i], queue[i + 1..], entry);
    CountJoins(queue[..i], [queue[i]] + queue[i + 1..], entry);
    CountJoins([queue[i]], queue[i + 1..], entry);
    assert queue == queue[..i] + ([queue[i]] + queue[i + 1..]);
  }

  lemma {:induction false} ScanCounts(limits: Limits, shape: Shape, queue: seq<Request>, now: real, size: nat,
                                      tokens: nat, entry: nat)
    ensures var o := Scan(limits, shape, queue, now, size, tokens);
            Count(o.selected, entry) + Count(o.dropped, entry) + Count(o.left, entry) == Count(queue, entry)
    decreases queue
  {
    if queue != [] && size < limits.size {
      var c, rest := queue[0], queue[1..];
      var grows := c.Live(now) && c.shape == shape && tokens + c.tokens <= limits.tokens;
      var o := if grows then Scan(limits, shape, rest, now, size + 1, tokens + c.tokens)
               else Scan(limits, shape, rest, now, size, tokens);
      ScanCounts(limits, shape, rest, now, if grows then size + 1 else size,
                 if grows then tokens + c.tokens else tokens, entry);
      CountCons(c, o, entry);
    }
  }

  lemma CountCons(c: Request, o: Outcome, entry: nat)
    ensures Count([c] + o.selected, entry) == Count([c], entry) + Count(o.selected, entry)
    ensures Count([c] + o.dropped, entry) == Count([c], entry) + Count(o.dropped, entry)
    ensures Count([c] + o.left, entry) == Count([c], entry) + Count(o.left, entry)
    ensures Count([c], entry) == if c.entry == entry then 1 else 0
  {
    CountJoins([c], o.selected, entry);
    CountJoins([c], o.dropped, entry);
    CountJoins([c], o.left, entry);
  }

  /** A call puts each queued request in exactly one of its three results. */
  lemma {:induction false} CallCounts(limits: Limits, queue: seq<Request>, now: real, entry: nat)
    ensures var o := FormBatch(limits, queue, now);
            Count(o.selected, entry) + Count(o.dropped, entry) + Count(o.left, entry) == Count(queue, entry)
    decreases queue
  {
    hide Scan;
    if queue != [] {
      var c, rest := queue[0], queue[1..];
      if c.Live(now) {
        ScanCounts(limits, c.shape, rest, now, 1, c.tokens, entry);
        CountCons(c, Scan(limits, c.shape, rest, now, 1, c.tokens), entry);
      } else {
        CallCounts(limits, rest, now, entry);
        CountCons(c, FormBatch(limits, rest, now), entry);
      }
    }
  }

  /** The numbers stay distinct. */
  lemma EventKeepsNumbered(limits: Limits, queue: seq<Request>, next: nat, event: Event)
    requires Numbered(queue, next)
    ensures Numbered(Apply(limits, queue, next, event).0, Counted(next, event))
  {
    hide Apply;
    forall entry: nat
      ensures Count(Apply(limits, queue, next, event).0, entry) <= if entry < Counted(next, event) then 1 else 0
    {
      EventConserves(limits, queue, next, event, entry);
    }
  }

  // ---------------------------------------------------------------- when calls are refused

  /** Nobody but the executor has started a queued request. */
  ghost predicate Orderly(queue: seq<Request>) {
    forall r :: r in queue ==> !UnderWay(r.status)
  }

  /** Other holders do not start queued requests. */
  ghost predicate Polite(event: Event) {
    event.Elsewhere? ==> !UnderWay(event.status)
  }

  /** While only the executor starts queued requests, no call is ever refused. */
  lemma {:induction false} PoliteRunsAreSmooth(limits: Limits, queue: seq<Request>, next: nat, events: seq<Event>)
    requires Sane(queue) && Orderly(queue) && forall e :: e in events ==> Polite(e)
    ensures Smooth(limits, queue, next, events)
    decreases events
  {
    hide FormBatch, Partitions;
    if events != [] {
      EventKeepsSane(limits, queue, next, events[0]);
      EventKeepsOrderly(limits, queue, next, events[0]);
      assert events[0] in events && forall e :: e in events[1..] ==> e in events;
      PoliteRunsAreSmooth(limits, Apply(limits, queue, next, events[0]).0, Counted(next, events[0]), events[1..]);
    }
  }

  lemma EventKeepsOrderly(limits: Limits, queue: seq<Request>, next: nat, event: Event)
    requires Sane(queue) && Orderly(queue) && Polite(event)
    ensures Orderly(Apply(limits, queue, next, event).0)
    ensures event.Call? ==> Permitted(FormBatch(limits, queue, event.now).selected)
  {
    hide FormBatch, Partitions;
    match event
    case Call(now) =>
      CallDropsTheDead(limits, queue, now);
      PartitionMembers(queue, FormBatch(limits, queue, now));
      LiveSelected(limits, queue, now);
      forall r | r in FormBatch(limits, queue, now).selected
        ensures Running in Allowed(r.status)
      {
        SaneMovesAllowed(r.status);
      }
    case Arrive(request) =>
    case Cancel(id) =>
      if FirstWith(queue, id) < |queue| {
        RemoveAtTakesOne(queue, FirstWith(queue, id));
      }
    case Elsewhere(i, status) =>
  }

  lemma {:induction false} SelectedAreLive(limits: Limits, shape: Shape, queue: seq<Request>, now: real, size: nat,
                                           tokens: nat)
    ensures forall r :: r in Scan(limits, shape, queue, now, size, tokens).selected ==> r.Live(now)
    decreases queue
  {
    if queue != [] && size < limits.size {
      SelectedAreLive(limits, shape, queue[1..], now, size, tokens);
      SelectedAreLive(limits, shape, queue[1..], now, size + 1, tokens + queue[0].tokens);
    }
  }

  lemma {:induction false} LiveSelected(limits: Limits, queue: seq<Request>, now: real)
    ensures forall r :: r in FormBatch(limits, queue, now).selected ==> r.Live(now)
    decreases queue
  {
    hide Scan;
    if queue != [] {
      if queue[0].Live(now) {
        SelectedAreLive(limits, queue[0].shape, queue[1..], now, 1, queue[0].tokens);
      } else {
        LiveSelected(limits, queue[1..], now);
      }
    }
  }

  ghost function CallsAt(now: real, n: nat): seq<Event> {
    if n == 0 then [] else [Call(now)] + CallsAt(now, n - 1)
  }

  /** A live request that somebody else has started makes a call fail before long. */
  lemma {:induction false} StartedElsewhereBreaks(limits: Limits, queue: seq<Request>, next: nat, now: real, n: nat,
                                                  r: Request)
    requires Within(queue, n, r) && r.Live(now) && UnderWay(r.status)
    ensures !Smooth(limits, queue, next, CallsAt(now, n))
    decreases n
  {
    hide FormBatch, Within, Partitions;
    CallMovesForward(limits, queue, now, n, r);
    CallDropsTheDead(limits, queue, now);
    var o := FormBatch(limits, queue, now);
    assert CallsAt(now, n)[1..] == CallsAt(now, n - 1);
    if r !in o.selected {
      StartedElsewhereBreaks(limits, o.left, next, now, n - 1, r);
    }
  }

  /** Exactly when the calls at one time are refused: all of them succeed, however many there are,
      if and only if no live request in the queue has been started by somebody else. */
  lemma CallsSucceedExactly(limits: Limits, queue: seq<Request>, next: nat, now: real, n: nat)
    requires Sane(queue) && n >= |queue|
    ensures Smooth(limits, queue, next, CallsAt(now, n)) <==>
              forall r :: r in queue && !Terminal(r.status) && r.deadline > now ==> !UnderWay(r.status)
  {
    if r :| r in queue && r.Live(now) && UnderWay(r.status) {
      var i :| 0 <= i < |queue| && queue[i] == r;
      assert Within(queue, n, r);
      StartedElsewhereBreaks(limits, queue, next, now, n, r);
    } else {
      UnstartedCallsSucceed(limits, queue, next, now, n);
    }
  }

  lemma {:induction false} UnstartedCallsSucceed(limits: Limits, queue: seq<Request>, next: nat, now: real, n: nat)
    requires Sane(queue) && forall r :: r in queue && !Terminal(r.status) && r.deadline > now ==> !UnderWay(r.status)
    ensures Smooth(limits, queue, next, CallsAt(now, n))
    decreases n
  {
    hide FormBatch, Partitions;
    if n > 0 {
      var o := FormBatch(limits, queue, now);
      CallDropsTheDead(limits, queue, now);
      PartitionMembers(queue, o);
      LiveSelected(limits, queue, now);
      forall r | r in o.selected
        ensures Running in Allowed(r.status)
      {
        SaneMovesAllowed(r.status);
      }
      assert CallsAt(now, n)[1..] == CallsAt(now, n - 1);
      UnstartedCallsSucceed(limits, o.left, next, now, n - 1);
    }
  }

  // ---------------------------------------------------------------- the queue object

  datatype EnqueueError = NotAccepting | NotResident | QueueFull | OverBudget | WrongState

  class WorkerQueue {
    const limits: Limits
    var queue: seq<Request>
    /** How many requests have been queued; numbers them. */
    var arrivals: nat
    var active: map<string, Request>
    /** Running requests per model, counted. */
    var running: multiset<string>

    ghost predicate Valid()
      reads this
    {
      && limits.size > 0 && |queue| <= limits.depth && Sane(queue) && Numbered(queue, arrivals)
      && forall r :: r in queue ==> r.tokens <= limits.tokens
    }

    constructor (limits: Limits)
      requires limits.depth > 0 && limits.size > 0 && limits.tokens > 0
      ensures Valid() && this.limits == limits && queue == [] && active == map[] && running == multiset{}
    {
      this.limits, queue, arrivals, active, running := limits, [], 0, map[], multiset{};
    }

    method Enqueue(request: Request, accepting: bool, resident: set<string>) returns (r: Result<(), EnqueueError>)
      requires Valid()
      modifies this`queue, this`arrivals
      ensures Valid()
      ensures r == (
          if !accepting then Failure(NotAccepting)
          else if request.shape.model !in resident then Failure(NotResident)
          else if |old(queue)| >= limits.depth then Failure(QueueFull)
          else if request.tokens > limits.tokens then Failure(OverBudget)
          else if request.status != Assigned then Failure(WrongState)
          else Success(()))
      ensures var arrived := [request.(entry := old(arrivals), status := Queued)];
              queue == old(queue) + if r.Success? then arrived else []
      ensures arrivals == old(arrivals) + if r.Success? then 1 else 0
    {
      hide Numbered;
      if !accepting {
        return Failure(NotAccepting);
      }
      if request.shape.model !in resident {
        return Failure(NotResident);
      }
      if |queue| >= limits.depth {
        return Failure(QueueFull);
      }
      if request.tokens > limits.tokens {
        return Failure(OverBudget);
      }
      if request.status != Assigned {
        return Failure(WrongState);
      }
      EventKeepsNumbered(limits, queue, arrivals, Arrive(request));
      queue := queue + [request.(entry := arrivals, status := Queued)];
      arrivals := arrivals + 1;
      r := Success(());
    }

    /** Cancels a queued request, which leaves the queue even when the transition is then refused
        (`refused`), or else a running one that is not terminal. */
    method Cancel(id: string) returns (found: bool, refused: bool)
      requires Valid()
      modifies this`queue, this`active
      ensures Valid()
      ensures queue == Apply(limits, old(queue), arrivals, Event.Cancel(id)).0
      ensures var i := FirstWith(old(queue), id);
              var running := i == |old(queue)| && id in old(active) && !Terminal(old(active)[id].status);
              && (found <==> running || (i < |old(queue)| && Cancelled in Allowed(old(queue)[i].status)))
              && (refused <==> i < |old(queue)| && Cancelled !in Allowed(old(queue)[i].status))
              && active == if running then old(active)[id := old(active)[id].(status := Cancelled)] else old(active)
    {
      hide Numbered;
      EventKeepsNumbered(limits, queue, arrivals, Event.Cancel(id));
      var i := FindFirst(id);
      refused := false;
      if i < |queue| {
        var r := queue[i];
        RemoveAtTakesOne(queue, i);
        queue := RemoveAt(queue, i);
        return Cancelled in Allowed(r.status), Cancelled !in Allowed(r.status);
      }
      found := id in active && !Terminal(active[id].status);
      if found {
        active := active[id := Cancelling(active[id])];
      }
    }

    method FindFirst(id: string) returns (i: nat)
      ensures i == FirstWith(queue, id)
    {
      i := 0;
      while i < |queue| && queue[i].id != id
        invariant i <= |queue| && i + FirstWith(queue[i..], id) == FirstWith(queue, id)
      {
        i := i + 1;
      }
    }

    /** The first locked section of the batch executor. The call is refused exactly when a selected
        request has been started by another holder: then those before it are running and counted
        for good, and the others are neither queued nor started. */
    method TakeBatch(now: real) returns (started: seq<Request>, dropped: seq<Request>, refused: bool)
      requires Valid()
      modifies this`queue, this`active, this`running
      ensures Valid()
      ensures var o := FormBatch(limits, old(queue), now);
              && queue == o.left && started == Start(o.selected) && dropped == ExpireAll(o.dropped)
              && (refused <==> exists r :: r in o.selected && Running !in Allowed(r.status))
              && running == old(running) + Models(started[..Begun(o.selected)])
              && active == Entered(old(active), started[..Begun(o.selected)])
      ensures forall r :: r in started ==> r.deadline > now && !Terminal(r.status)
      ensures |dropped| == |FormBatch(limits, old(queue), now).dropped|
      ensures forall i :: 0 <= i < |dropped| ==>
                var before := FormBatch(limits, old(queue), now).dropped[i];
                if Terminal(before.status) then dropped[i] == before
                else before.deadline <= now && dropped[i] == before.(status := TimedOut)
    {
      hide FormBatch, Start, ExpireAll, Models, Entered, Permitted, Numbered, Allowed, Terminal, Sane;
      CallInTime(limits, queue, now);
      PermittedMeans(FormBatch(limits, queue, now).selected);
      started, dropped, refused := FormAndStart(now);
    }

    /** The two loops, and then the start of the selected requests. */
    method FormAndStart(now: real) returns (started: seq<Request>, dropped: seq<Request>, refused: bool)
      requires Valid()
      modifies this`queue, this`active, this`running
      ensures Valid()
      ensures var o := FormBatch(limits, old(queue), now);
              && queue == o.left && started == Start(o.selected) && dropped == ExpireAll(o.dropped)
              && (refused <==> !Permitted(o.selected))
              && running == old(running) + Models(started[..Begun(o.selected)])
              && active == Entered(old(active), started[..Begun(o.selected)])
    {
      hide FormBatch, Scan, Start, ExpireAll, Models, Entered, Permitted, Numbered;
      NobodyStarts(active);
      var selected;
      selected, dropped := Form(now);
      if selected == [] {
        return [], dropped, false;
      }
      started, refused := Activate(selected);
    }

    /** The two loops. */
    method Form(now: real) returns (selected: seq<Request>, dropped: seq<Request>)
      requires Valid()
      modifies this`queue
      ensures Valid()
      ensures var o := FormBatch(limits, old(queue), now);
              selected == o.selected && queue == o.left && dropped == ExpireAll(o.dropped)
    {
      hide FormBatch, Scan, Partitions, ExpireAll, Numbered;
      EventKeepsNumbered(limits, queue, arrivals, Call(now));
      ghost var o := FormBatch(limits, queue, now);
      BatchIsSound(limits, queue, now);
      LeftWasQueued(queue, o);
      dropped := SkipDead(now);
      if queue == [] {
        return [], dropped;
      }
      ghost var skipped := |dropped|;
      var late;
      selected, late := Collect(now);
      JoinExpired(o.dropped[..skipped], o.dropped[skipped..]);
      assert o.dropped[..skipped] + o.dropped[skipped..] == o.dropped;
      dropped := dropped + late;
    }

    lemma NobodyStarts(active: map<string, Request>)
      ensures Start([]) == [] && Permitted([]) && Begun([]) == 0 && Models([]) == multiset{}
      ensures Entered(active, []) == active
    {}

    /** Pops terminal and late requests off the front; the late ones time out. */
    method SkipDead(now: real) returns (dropped: seq<Request>)
      requires Sane(queue)
      modifies this`queue
      ensures Sane(queue) && (queue != [] ==> !Terminal(queue[0].status) && queue[0].deadline > now)
      ensures |dropped| <= |old(queue)| && queue == old(queue)[|dropped|..]
      ensures forall i :: 0 <= i < |dropped| ==>
                var before := old(queue)[i];
                if Terminal(before.status) then dropped[i] == before
                else before.deadline <= now && dropped[i] == before.(status := TimedOut)
      ensures var o, all := FormBatch(limits, queue, now), FormBatch(limits, old(queue), now);
              && all.selected == o.selected && all.left == o.left
              && |dropped| <= |all.dropped| && dropped == ExpireAll(all.dropped[..|dropped|])
              && all.dropped[|dropped|..] == o.dropped
      ensures queue == [] ==>
                var all := FormBatch(limits, old(queue), now);
                all.selected == [] && all.left == [] && dropped == ExpireAll(all.dropped)
    {
      hide Scan, FormBatch, Terminal, ExpireAll, Skipped;
      dropped := [];
      ghost var start, dead: seq<Request> := queue, [];
      NothingSkipped(limits, queue, now);
      while queue != [] && (Terminal(queue[0].status) || queue[0].deadline <= now)
        invariant Sane(queue) && dropped == ExpireAll(dead) && Skipped(limits, start, dead, queue, now)
        decreases |queue|
      {
        OneSkipped(limits, start, dead, queue, now);
        JoinExpired(dead, [queue[0]]);
        dead := dead + [queue[0]];
        var skipped := ExpireOne(queue[0]);
        dropped := dropped + [skipped];
        queue := queue[1..];
      }
      AllSkipped(limits, start, dead, queue, now);
    }

    /** The transition is never refused. */
    method ExpireOne(r: Request) returns (expired: Request)
      requires Sane([r])
      ensures expired == Expire(r)
    {
      expired := r;
      if !Terminal(r.status) {
        assert r in [r];
        SaneMovesAllowed(r.status);
        assert TimedOut in Allowed(r.status);
        expired := r.(status := TimedOut);
      }
    }

    /** Takes the first request and what fits with it; the late ones time out and the rest goes back
        in order. */
    method Collect(now: real) returns (selected: seq<Request>, dropped: seq<Request>)
      requires queue != [] && !Terminal(queue[0].status) && queue[0].deadline > now && Sane(queue)
      modifies this`queue
      ensures var o := FormBatch(limits, old(queue), now);
              selected == o.selected && dropped == ExpireAll(o.dropped) && queue == o.left
    {
      ghost var goal := FormBatch(limits, queue, now);
      var first := queue[0];
      queue := queue[1..];
      selected, dropped := [first], [];
      ghost var dead: seq<Request> := [];
      var deferred: seq<Request> := [];
      var batchTokens: nat := first.tokens;
      while queue != [] && |selected| < limits.size
        invariant Sane(queue) && dropped == ExpireAll(dead)
        invariant ScanGoes(goal, selected, dead, deferred,
                           Scan(limits, first.shape, queue, now, |selected|, batchTokens))
        decreases |queue|
      {
        var candidate, rest := queue[0], queue[1..];
        ScanGoesOn(goal, selected, dead, deferred, limits, first.shape, queue, now, batchTokens);
        queue := rest;
        if Terminal(candidate.status) || candidate.deadline <= now {
          JoinExpired(dead, [candidate]);
          dead := dead + [candidate];
          var late := ExpireOne(candidate);
          dropped := dropped + [late];
        } else if candidate.shape == first.shape && batchTokens + candidate.tokens <= limits.tokens {
          selected := selected + [candidate];
          batchTokens := batchTokens + candidate.tokens;
        } else {
          deferred := deferred + [candidate];
        }
      }
      queue := deferred + queue;
    }

    /** Starts the selected requests one after the other, until a transition is refused. */
    method Activate(selected: seq<Request>) returns (started: seq<Request>, refused: bool)
      modifies this`active, this`running
      ensures started == Start(selected) && (refused <==> !Permitted(selected))
      ensures running == old(running) + Models(started[..Begun(selected)])
      ensures active == Entered(old(active), started[..Begun(selected)])
    {
      PermittedIsBegun(selected);
      hide Permitted, Models, Entered, Allowed, Start;
      NoModels();
      NobodyEntered(active);
      refused, started := false, selected;
      var i := 0;
      while i < |selected| && !refused
        invariant i <= Begun(selected) && |started| == |selected|
        invariant refused ==> i == Begun(selected) < |selected|
        invariant forall j :: 0 <= j < |selected| ==>
                    started[j] == if j < i then selected[j].(status := Running) else selected[j]
        invariant running == old(running) + Models(started[..i]) && active == Entered(old(active), started[..i])
        decreases |selected| - i, !refused
      {
        if Running !in Allowed(selected[i].status) {
          refused := true;
        } else {
          ghost var before := started[..i];
          started := started[i := selected[i].(status := Running)];
          assert started[..i + 1] == before + [started[i]];
          ModelsAppend(before, started[i]);
          EnteredAppend(old(active), before, started[i]);
          running := running + multiset{started[i].shape.model};
          active := active[started[i].id := started[i]];
          i := i + 1;
        }
      }
      StartedInFull(selected, started);
    }

    /** The bookkeeping after the batch ran: every request of it that is not terminal yet completes or
        fails, and it is running no more. `selected` are the records as they are by then. */
    method FinishBatch(selected: seq<Request>, succeeded: bool) returns (finished: seq<Request>)
      requires Models(selected) <= running && forall r :: r in selected ==> Terminal(r.status) || UnderWay(r.status)
      modifies this`active, this`running
      ensures running == old(running) - Models(selected)
      ensures active == old(active) - IdsOf(selected)
      ensures |finished| == |selected|
      ensures forall i :: 0 <= i < |selected| ==> Ended(finished[i], selected[i], succeeded)
    {
      hide Models, Allowed, IdsOf, Terminal, UnderWay, Finish, Ended, Withdrawn;
      ghost var running0, active0 := running, active;
      finished := [];
      NobodyWithdrawn(running, active, selected);
      for i := 0 to |selected|
        invariant Withdrawn(running0, active0, selected, i, running, active)
        invariant |finished| == i && forall j :: 0 <= j < i ==> Ended(finished[j], selected[j], succeeded)
      {
        assert selected[i] in selected;
        OneWithdraws(running0, active0, selected, i, running, active);
        var end := FinishOne(selected[i], succeeded);
        finished := finished + [end];
      }
      AllWithdrawn(running0, active0, selected, running, active);
    }

    method FinishOne(r: Request, succeeded: bool) returns (finished: Request)
      requires r.shape.model in running && (Terminal(r.status) || UnderWay(r.status))
      modifies this`active, this`running
      ensures running == old(running) - multiset{r.shape.model} && active == old(active) - {r.id}
      ensures Ended(finished, r, succeeded)
    {
      FinishIsAllowed(r, succeeded);
      finished := Finish(r, succeeded);
      running := running - multiset{r.shape.model};
      active := active - {r.id};
    }
  }

  /** The request ended with its batch, unless it was terminal before, by an allowed transition:
      completed if the call succeeded, and failed otherwise. */
  ghost predicate Ended(finished: Request, before: Request, succeeded: bool) {
    if Terminal(before.status) then finished == before
    else
      && finished.status in Allowed(before.status) && finished == before.(status := finished.status)
      && (finished.status == Completed <==> succeeded) && (finished.status == Failed <==> !succeeded)
  }

  /** The first `i` requests of the batch are running no more. */
  ghost predicate Withdrawn(running0: multiset<string>, active0: map<string, Request>, selected: seq<Request>, i: nat,
                            running: multiset<string>, active: map<string, Request>)
    requires i <= |selected|
  {
    running == running0 - Models(selected[..i]) && active == active0 - IdsOf(selected[..i])
  }

  lemma NobodyWithdrawn(running: multiset<string>, active: map<string, Request>, selected: seq<Request>)
    ensures Withdrawn(running, active, selected, 0, running, active)
  {
    NoModels();
    NoIds(active);
    assert selected[..0] == [];
  }

  lemma OneWithdraws(running0: multiset<string>, active0: map<string, Request>, selected: seq<Request>, i: nat,
                     running: multiset<string>, active: map<string, Request>)
    requires i < |selected| && Models(selected) <= running0
    requires Withdrawn(running0, active0, selected, i, running, active)
    ensures selected[i].shape.model in running
    ensures Withdrawn(running0, active0, selected, i + 1, running - multiset{selected[i].shape.model},
                      active - {selected[i].id})
  {
    hide Models, IdsOf;
    ModelsPrefix(selected, i);
    assert selected[..i + 1] == selected[..i] + [selected[i]];
    OneFewer(running0, Models(selected[..i]), selected[i].shape.model);
    IdsAppend(active0, selected[..i], selected[i]);
  }

  lemma AllWithdrawn(running0: multiset<string>, active0: map<string, Request>, selected: seq<Request>,
                     running: multiset<string>, active: map<string, Request>)
    requires Withdrawn(running0, active0, selected, |selected|, running, active)
    ensures running == running0 - Models(selected) && active == active0 - IdsOf(selected)
  {
    hide Models, IdsOf;
    assert selected[..|selected|] == selected;
  }

  lemma OneFewer(all: multiset<string>, gone: multiset<string>, x: string)
    requires gone + multiset{x} <= all
    ensures x in all - gone
    ensures all - gone - multiset{x} == all - (gone + multiset{x})
  {}

  /** How a request ends with its batch. */
  function Finish(r: Request, succeeded: bool): Request {
    if Terminal(r.status) then r else r.(status := if succeeded then Completed else Failed)
  }

  lemma FinishIsAllowed(r: Request, succeeded: bool)
    requires Terminal(r.status) || UnderWay(r.status)
    ensures Terminal(r.status) || Finish(r, succeeded).status in Allowed(r.status)
    ensures Terminal(Finish(r, succeeded).status)
  {
    if UnderWay(r.status) {
      SaneMovesAllowed(r.status);
    }
  }

  /** Part of the way through the first loop: what was popped was terminal or late, and the rest of the
      call is about what is left. */
  ghost predicate Skipped(limits: Limits, start: seq<Request>, dead: seq<Request>, queue: seq<Request>, now: real) {
    && start == dead + queue && (forall r :: r in dead ==> Terminal(r.status) || r.deadline <= now)
    && FormBatch(limits, start, now) == var o := FormBatch(limits, queue, now); o.(dropped := dead + o.dropped)
  }

  lemma NothingSkipped(limits: Limits, queue: seq<Request>, now: real)
    ensures Skipped(limits, queue, [], queue, now) && ExpireAll([]) == []
  {
    hide FormBatch;
    var o := FormBatch(limits, queue, now);
    assert [] + o.dropped == o.dropped;
  }

  lemma OneSkipped(limits: Limits, start: seq<Request>, dead: seq<Request>, queue: seq<Request>, now: real)
    requires queue != [] && (Terminal(queue[0].status) || queue[0].deadline <= now)
    requires Skipped(limits, start, dead, queue, now)
    ensures Skipped(limits, start, dead + [queue[0]], queue[1..], now)
    ensures ExpireAll([queue[0]]) == [Expire(queue[0])]
  {
    hide Scan, Terminal;
    var o := FormBatch(limits, queue[1..], now);
    assert dead + ([queue[0]] + o.dropped) == (dead + [queue[0]]) + o.dropped;
    assert dead + queue == (dead + [queue[0]]) + queue[1..];
  }

  lemma AllSkipped(limits: Limits, start: seq<Request>, dead: seq<Request>, queue: seq<Request>, now: real)
    requires Skipped(limits, start, dead, queue, now)
    ensures var o, all, n := FormBatch(limits, queue, now), FormBatch(limits, start, now), |dead|;
            && all.selected == o.selected && all.left == o.left && n <= |all.dropped| && all.dropped[n..] == o.dropped
            && dead == all.dropped[..n] && (queue == [] ==> all.dropped == dead && all.selected == [] && all.left == [])
    ensures |dead| <= |start| && queue == start[|dead|..] && |ExpireAll(dead)| == |dead|
    ensures forall i :: 0 <= i < |dead| ==>
              var before := start[i];
              if Terminal(before.status) then ExpireAll(dead)[i] == before
              else before.deadline <= now && ExpireAll(dead)[i] == before.(status := TimedOut)
  {
    hide Scan, Terminal;
    DroppedInOrder(dead, now);
    assert forall i :: 0 <= i < |dead| ==> dead[i] == start[i];
    assert queue == [] ==> FormBatch(limits, queue, now) == Outcome([], [], []);
  }

  lemma PermittedMeans(selected: seq<Request>)
    ensures Permitted(selected) <==> !exists r :: r in selected && Running !in Allowed(r.status)
  {}

  /** Who is started was neither terminal nor late; who is dropped was, and if not terminal times out. */
  lemma CallInTime(limits: Limits, queue: seq<Request>, now: real)
    ensures var o := FormBatch(limits, queue, now);
            && (forall r :: r in Start(o.selected) ==> r.deadline > now && !Terminal(r.status))
            && |ExpireAll(o.dropped)| == |o.dropped|
            && forall i :: 0 <= i < |o.dropped| ==>
                 var expired, before := ExpireAll(o.dropped)[i], o.dropped[i];
                 if Terminal(before.status) then expired == before
                 else before.deadline <= now && expired == before.(status := TimedOut)
  {
    hide FormBatch, Start, Terminal, Partitions;
    LiveSelected(limits, queue, now);
    CallDropsTheDead(limits, queue, now);
    StartedInTime(FormBatch(limits, queue, now).selected, now);
    DroppedInOrder(FormBatch(limits, queue, now).dropped, now);
  }

  lemma StartedInTime(selected: seq<Request>, now: real)
    requires forall r :: r in selected ==> !Terminal(r.status) && r.deadline > now
    ensures forall r :: r in Start(selected) ==> r.deadline > now && !Terminal(r.status)
  {
    forall r | r in Start(selected)
      ensures r.deadline > now && !Terminal(r.status)
    {
      var i :| 0 <= i < |Start(selected)| && Start(selected)[i] == r;
      assert selected[i] in selected;
    }
  }

  lemma DroppedInOrder(dropped: seq<Request>, now: real)
    requires forall r :: r in dropped ==> Terminal(r.status) || r.deadline <= now
    ensures forall i :: 0 <= i < |dropped| ==>
              var expired := ExpireAll(dropped)[i];
              if Terminal(dropped[i].status) then expired == dropped[i]
              else dropped[i].deadline <= now && expired == dropped[i].(status := TimedOut)
  {
    assert forall i :: 0 <= i < |dropped| ==> dropped[i] in dropped;
  }

  /** How many requests of each model. */
  ghost function Models(requests: seq<Request>): multiset<string> {
    if requests == [] then multiset{}
    else Models(requests[..|requests| - 1]) + multiset{requests[|requests| - 1].shape.model}
  }

  lemma NoModels()
    ensures Models([]) == multiset{}
  {}

  lemma ModelsAppend(requests: seq<Request>, r: Request)
    ensures Models(requests + [r]) == Models(requests) + multiset{r.shape.model}
  {
    assert (requests + [r])[..|requests|] == requests;
  }

  lemma ModelsPrefix(requests: seq<Request>, i: nat)
    requires i < |requests|
    ensures Models(requests[..i + 1]) == Models(requests[..i]) + multiset{requests[i].shape.model}
    ensures Models(requests[..i + 1]) <= Models(requests)
  {
    hide Models;
    assert requests[..i + 1] == requests[..i] + [requests[i]];
    ModelsAppend(requests[..i], requests[i]);
    ModelsJoin(requests[..i + 1], requests[i + 1..]);
    assert requests[..i + 1] + requests[i + 1..] == requests;
  }

  lemma {:induction false} ModelsJoin(a: seq<Request>, b: seq<Request>)
    ensures Models(a + b) == Models(a) + Models(b)
  {
    hide Models;
    if b == [] {
      assert a + b == a;
      NoModels();
    } else {
      var init, last := b[..|b| - 1], b[|b| - 1];
      ModelsJoin(a, init);
      ModelsAppend(init, last);
      ModelsAppend(a + init, last);
      assert b == init + [last];
      assert a + b == (a + init) + [last];
    }
  }

  function IdsOf(requests: seq<Request>): set<string> {
    set r | r in requests :: r.id
  }

  lemma NoIds(active: map<string, Request>)
    ensures active == active - IdsOf([])
  {}

  lemma IdsAppend(active: map<string, Request>, requests: seq<Request>, r: Request)
    ensures active - IdsOf(requests) - {r.id} == active - IdsOf(requests + [r])
  {
    assert r in requests + [r] && forall q :: q in requests ==> q in requests + [r];
  }

  /** The running requests by id after some more have started. */
  ghost function Entered(active: map<string, Request>, started: seq<Request>): map<string, Request> {
    if started == [] then active
    else
      var last := started[|started| - 1];
      Entered(active, started[..|started| - 1])[last.id := last]
  }

  /** Each id names the last of the started requests that has it, or else what it named before. */
  lemma {:induction false} EnteredMeans(active: map<string, Request>, started: seq<Request>, id: string)
    ensures id in Entered(active, started) <==> id in active || exists r :: r in started && r.id == id
    ensures id in Entered(active, started) ==>
              || ((forall r :: r in started ==> r.id != id) && Entered(active, started)[id] == active[id])
              || exists i :: 0 <= i < |started| && started[i].id == id && Entered(active, started)[id] == started[i]
                             && forall j :: i < j < |started| ==> started[j].id != id
  {
    if started != [] {
      var init, last := started[..|started| - 1], started[|started| - 1];
      assert started == init + [last];
      EnteredMeans(active, init, id);
      if last.id == id {
        assert last in started;
      } else if i :| 0 <= i < |init| && init[i].id == id && Entered(active, init)[id] == init[i]
                    && forall j :: i < j < |init| ==> init[j].id != id {
        assert started[i] == init[i];
        assert forall j :: i < j < |init| ==> started[j] == init[j];
      }
    }
  }

  /** The models of the requests, one by one. */
  lemma {:induction false} ModelsCount(requests: seq<Request>)
    ensures Models(requests) == multiset(seq(|requests|, i requires 0 <= i < |requests| => requests[i].shape.model))
  {
    var models := seq(|requests|, i requires 0 <= i < |requests| => requests[i].shape.model);
    if requests != [] {
      var init, last := requests[..|requests| - 1], requests[|requests| - 1];
      ModelsCount(init);
      assert models == seq(|init|, i requires 0 <= i < |init| => init[i].shape.model) + [last.shape.model];
    }
  }

  lemma NobodyEntered(active: map<string, Request>)
    ensures Entered(active, []) == active
  {}

  lemma StartedInFull(selected: seq<Request>, started: seq<Request>)
    requires |started| == |selected|
    requires forall i :: 0 <= i < |selected| ==>
               started[i] == if i < Begun(selected) then selected[i].(status := Running) else selected[i]
    ensures started == Start(selected)
  {}

  lemma EnteredAppend(active: map<string, Request>, started: seq<Request>, r: Request)
    ensures Entered(active, started + [r]) == Entered(active, started)[r.id := r]
  {
    assert (started + [r])[..|started|] == started;
  }

  lemma JoinExpired(a: seq<Request>, b: seq<Request>)
    ensures ExpireAll(a) + ExpireAll(b) == ExpireAll(a + b)
  {}

  lemma ScanGoesOn(goal: Outcome, selected: seq<Request>, dropped: seq<Request>, deferred: seq<Request>, limits: Limits,
                   shape: Shape, queue: seq<Request>, now: real, tokens: nat)
    requires queue != [] && |selected| < limits.size
    requires ScanGoes(goal, selected, dropped, deferred, Scan(limits, shape, queue, now, |selected|, tokens))
    ensures var c, rest := queue[0], queue[1..];
            if !c.Live(now) then
              ScanGoes(goal, selected, dropped + [c], deferred, Scan(limits, shape, rest, now, |selected|, tokens))
            else if c.shape == shape && tokens + c.tokens <= limits.tokens then
              ScanGoes(goal, selected + [c], dropped, deferred,
                       Scan(limits, shape, rest, now, |selected| + 1, tokens + c.tokens))
            else
              ScanGoes(goal, selected, dropped, deferred + [c], Scan(limits, shape, rest, now, |selected|, tokens))
  {
    var c, rest := queue[0], queue[1..];
    var grows := c.Live(now) && c.shape == shape && tokens + c.tokens <= limits.tokens;
    var o := if grows then Scan(limits, shape, rest, now, |selected| + 1, tokens + c.tokens)
             else Scan(limits, shape, rest, now, |selected|, tokens);
    assert selected + ([c] + o.selected) == (selected + [c]) + o.selected;
    assert dropped + ([c] + o.dropped) == (dropped + [c]) + o.dropped;
    assert deferred + ([c] + o.left) == (deferred + [c]) + o.left;
  }

  ghost predicate ScanGoes(goal: Outcome, selected: seq<Request>, dropped: seq<Request>, deferred: seq<Request>,
                           rest: Outcome) {
    && selected + rest.selected == goal.selected && dropped + rest.dropped == goal.dropped
    && deferred + rest.left == goal.left
  }
}
