/** Sequences of `inference/token_engine.py` as values: their event logs, and the work left. */
module TokenSequences {
  import opened Wrappers
  import opened Sequences
  import opened Sums
  import PrefixCache

  datatype SequencePhase = Queued | Prefill | Decode | Completed | Cancelled | TimedOut | Failed {
    predicate Terminal() {
      this in {Completed, Cancelled, TimedOut, Failed}
    }
  }

  datatype FinishReason = Eos | StopToken | Length | CancelledByCaller | DeadlinePassed

  function PhaseFor(reason: FinishReason): SequencePhase {
    match reason
    case CancelledByCaller => Cancelled
    case DeadlinePassed => TimedOut
    case _ => Completed
  }

  datatype Token = Token(id: int, index: nat, cacheTokens: nat)

  /** What is put on a sequence's event queue. */
  datatype Event = Emitted(id: int, index: nat) | Complete(reason: FinishReason, outputTokens: nat) | Broke

  /** A reserved sequence. `serial` is the identity of its record, which outlives the reuse of its
      name; `prompt` is what the tokenizer yields for its text, and `events` is everything ever put
      on its queue. */
  datatype Sequence = Sequence(
    serial: nat, prompt: seq<int>, maxNew: nat, stops: set<int>, deadline: real, cancelled: bool, phase: SequencePhase,
    tokenized: bool, backendCreated: bool, cacheTokens: nat, offset: nat, generated: seq<int>, events: seq<Event>)

  type Table = map<string, Sequence>

  function New(serial: nat, prompt: seq<int>, maxNew: nat, stops: set<int>, deadline: real): Sequence {
    Sequence(serial, prompt, maxNew, stops, deadline, false, Queued, false, false, 0, 0, [], [])
  }

  /** Only a token that continues its sequence, or fills it up, is put on the queue. */
  function Shown(s: Sequence, token: Token, verdict: Option<FinishReason>): seq<Event> {
    if verdict in {None, Some(Length)} then [Emitted(token.id, |s.generated|)] else []
  }

  /** What the backend sampled for a sequence; it echoes the index it was given. `at` is what the clock
      reads when the engine takes the token. */
  datatype Sampled = Sampled(id: int, cacheTokens: nat, at: real)

  /** The backend's part in a batch: the call raises (for chunks: it does not support them), it
      succeeds but the end-of-sequence tokens cannot be had, or it brings results; a sequence without
      a token has failed. */
  datatype Reply = Raised | NoEos | Results(of: string -> Option<Sampled>)

  /** What one backend result did to a sequence: it failed it, moved its prompt on to an offset, or
      brought a token, which got a verdict. `NoRoom` is a failure for lack of memory. */
  datatype Outcome =
    | Broken
    | NoRoom
    | Moved(offset: nat)
    | Accepted(token: Token, at: real, verdict: Option<FinishReason>)

  /** The outcome that a backend result calls for: a token, if there is one, is accepted, but before
      the last chunk of a prompt the prompt only moves on. */
  ghost predicate Yields(sampled: Option<Sampled>, chunk: nat, s: Sequence, outcome: Outcome) {
    match sampled
    case None => outcome == Broken
    case Some(p) =>
      if chunk > 0 && s.offset + chunk < |s.prompt| then outcome == Moved(s.offset + chunk)
      else outcome.Accepted? && outcome.token == Token(p.id, |s.generated|, p.cacheTokens) && outcome.at == p.at
  }

  /** The outcome of one sequence of a batch: its own result's, or failure when there are none. */
  ghost predicate Gets(reply: Reply, id: string, chunk: nat, s: Sequence, outcome: Outcome) {
    if reply.Results? then Yields(reply.of(id), chunk, s, outcome) else outcome == Broken
  }

  /** What a sequence meets when it is prepared for its prefill: whether the tokenizer works, the
      prefixes that are stored, whether the backend can restore one and resume after a partial one,
      and what continuing from a prefix brings. */
  datatype Preparation = Preparation(tokenizes: bool, stored: set<PrefixCache.Key>, restores: bool, resumes: bool,
                                     sampled: Option<Sampled>, eosKnown: bool)

  /** The environment of one turn of the scheduler: what the clock reads when it looks at a sequence,
      and what the backend does for it. */
  datatype Inputs = Inputs(clock: string -> real, preparations: string -> Preparation, reply: Reply)

  /** The stored prefix to continue from: the longest one, if the backend can use it. */
  function CachedPrefix(p: Preparation, prompt: seq<int>): Option<PrefixCache.Key> {
    var best := PrefixCache.LongestKey(p.stored, prompt);
    if !p.restores || best.None? || (!p.resumes && best.value != prompt) then None else best
  }

  /** Some stored prefix can be used: only a whole prompt if the backend cannot resume. */
  ghost predicate Continues(p: Preparation, prompt: seq<int>) {
    p.restores && exists k :: k in p.stored && k <= prompt && (p.resumes || k == prompt)
  }

  /** There is a prefix to continue from exactly when some stored one can be used, and it is the longest
      of those that are. */
  lemma PrefixIsLongest(p: Preparation, prompt: seq<int>)
    ensures CachedPrefix(p, prompt).Some? <==> Continues(p, prompt)
    ensures CachedPrefix(p, prompt).Some? ==>
              var best := CachedPrefix(p, prompt).value;
              && best in p.stored && best <= prompt && (p.resumes || best == prompt)
              && forall k :: k in p.stored && k <= prompt ==> |k| <= |best|
  {
    PrefixCache.LongestKeyIsLongest(p.stored, prompt);
    if k :| k in p.stored && k <= prompt && (p.resumes || k == prompt) {
      assert k in p.stored && k <= prompt;
    }
  }

  /** The outcome of a preparation, if it is not simply that the prompt is to be processed. */
  ghost predicate Prepares(p: Preparation, s: Sequence, outcome: Option<Outcome>) {
    if !s.tokenized && !p.tokenizes then outcome == Some(Broken)
    else
      || (outcome == Some(NoRoom) && !s.tokenized)
      || if Continues(p, s.prompt) then
           outcome.Some? && Yields(if p.eosKnown then p.sampled else None, 0, s, outcome.value)
         else
           outcome.None?
  }

  // ---------------------------------------------------------------- event logs

  ghost function TokenEvents(generated: seq<int>): seq<Event> {
    seq(|generated|, i requires 0 <= i < |generated| => Emitted(generated[i], i))
  }

  lemma TokenEventsAppend(generated: seq<int>, id: int)
    ensures TokenEvents(generated + [id]) == TokenEvents(generated) + [Emitted(id, |generated|)]
  {}

  /** While a sequence is active its log is its tokens, numbered from zero, none of them an
      end-of-sequence or stop token, and no more than asked for. */
  ghost predicate Sound(eos: set<int>, s: Sequence) {
    && s.prompt != [] && 0 < s.maxNew && |s.generated| <= s.maxNew && s.offset <= |s.prompt|
    && s.events == TokenEvents(s.generated)
    && forall i :: 0 <= i < |s.generated| ==> s.generated[i] !in eos && s.generated[i] !in s.stops
  }

  /** A sequence the scheduler can pick up: prompt left to process, or tokens left to generate. */
  ghost predicate Open(s: Sequence) {
    && !s.phase.Terminal() && |s.generated| < s.maxNew
    && (s.phase != Decode ==> s.offset < |s.prompt| && s.generated == [])
  }

  /** A finished sequence's log: its tokens, then exactly one terminal event; the reason is
      `Length` exactly when every token asked for was generated. The phase fits the event, and only a
      sequence that was asked to stop ends as cancelled. */
  ghost predicate Closed(eos: set<int>, s: Sequence) {
    && s.events != [] && Sound(eos, s.(events := s.events[..|s.events| - 1]))
    && var last := s.events[|s.events| - 1];
       !last.Emitted?
       && (last.Complete? ==> last.outputTokens == |s.generated|)
       && (last.Complete? && last.reason == Length <==> |s.generated| == s.maxNew)
       && PhaseFits(s, last)
  }

  ghost predicate PhaseFits(s: Sequence, last: Event) {
    && s.phase.Terminal() && (s.phase == Failed <==> last.Broke?)
    && (s.phase == Cancelled <==> last.Complete? && last.reason == CancelledByCaller)
    && (s.phase == TimedOut <==> last.Complete? && last.reason == DeadlinePassed)
    && (s.phase == Cancelled ==> s.cancelled)
  }

  /** What `Closed` says about the log alone. */
  lemma ClosedLogIsWellFormed(eos: set<int>, s: Sequence)
    requires Closed(eos, s)
    ensures var n := |s.events| - 1;
            && 0 <= n <= s.maxNew && n == |s.generated|
            && (forall i :: 0 <= i < n ==>
                  var e := s.events[i];
                  e.Emitted? && e.index == i && e.id !in eos && e.id !in s.stops)
            && !s.events[n].Emitted?
            && (s.events[n].Complete? && s.events[n].reason == Length <==> n == s.maxNew)
            && (s.events[n].Complete? && s.events[n].reason == CancelledByCaller ==> s.cancelled)
  {
    var tokens := s.events[..|s.events| - 1];
    assert tokens == TokenEvents(s.generated);
    assert forall i :: 0 <= i < |tokens| ==> s.events[i] == tokens[i];
  }

  lemma ClosingIsClosed(eos: set<int>, s: Sequence, last: Event)
    requires Sound(eos, s) && !last.Emitted?
    requires last.Complete? ==> last.outputTokens == |s.generated|
    requires last.Complete? && last.reason == Length <==> |s.generated| == s.maxNew
    requires PhaseFits(s, last)
    ensures Closed(eos, s.(events := s.events + [last]))
  {
    assert (s.events + [last])[..|s.events|] == s.events;
  }

  lemma EmittingIsSound(eos: set<int>, s: Sequence, token: int)
    requires Sound(eos, s) && |s.generated| < s.maxNew && token !in eos && token !in s.stops
    ensures Sound(eos, s.(phase := Decode, generated := s.generated + [token],
                          events := s.events + [Emitted(token, |s.generated|)]))
  {
    TokenEventsAppend(s.generated, token);
  }

  lemma LogLength(eos: set<int>, s: Sequence)
    requires Sound(eos, s)
    ensures |s.events| == |s.generated|
  {}

  // ---------------------------------------------------------------- the engine's tables

  /** The tables agree. `busy` are the sequences being worked on, whose record may be between two
      states while the engine waits for the backend. */
  ghost predicate TablesAgree(eos: set<int>, limit: nat, active: Table, finished: Table, busy: set<string>) {
    && |active| <= limit && active.Keys !! finished.Keys
    && (forall id :: id in active ==> Sound(eos, active[id]) && (id in busy || Open(active[id])))
    && (forall id :: id in finished ==> Closed(eos, finished[id]))
  }

  /** Nothing happened to a sequence but possibly a request to cancel it. */
  ghost predicate Evolved(s: Sequence, t: Sequence) {
    t == s.(cancelled := t.cancelled) && (s.cancelled ==> t.cancelled)
  }

  // ---------------------------------------------------------------- the history of all sequences

  /** What became of one reserved sequence: its log so far, and its record once it has ended. */
  datatype Chronicle = Chronicle(id: string, events: seq<Event>, ending: Option<Sequence>)

  /** One chronicle for every reservation ever made, in order. Consumers take nothing out of it. */
  type History = seq<Chronicle>

  /** A log only grows, and not after the sequence has ended. */
  ghost predicate Later(c: Chronicle, d: Chronicle) {
    c.id == d.id && c.events <= d.events && (c.ending.Some? ==> d == c)
  }

  ghost predicate Grew(a: History, b: History) {
    |a| <= |b| && forall k :: 0 <= k < |a| ==> Later(a[k], b[k])
  }

  /** An unfinished chronicle belongs to an active sequence; a finished one holds a closed log. */
  ghost predicate Entry(eos: set<int>, active: Table, c: Chronicle, k: nat) {
    match c.ending
    case None => c.id in active && active[c.id].serial == k
    case Some(s) => s.serial == k && s.events == c.events && Closed(eos, s)
  }

  /** The tables and the history agree on every sequence. */
  ghost predicate Chronicled(eos: set<int>, active: Table, finished: Table, history: History) {
    && (forall id :: id in active ==>
          && active[id].serial < |history|
          && history[active[id].serial] == Chronicle(id, active[id].events, None))
    && (forall k :: 0 <= k < |history| ==> Entry(eos, active, history[k], k))
    && (forall id :: id in finished ==>
          && finished[id].serial < |history|
          && history[finished[id].serial] == Chronicle(id, finished[id].events, Some(finished[id])))
  }

  /** The sequence with this serial has ended with exactly this log. */
  ghost predicate Ended(history: History, serial: nat, id: string, log: seq<Event>) {
    && serial < |history| && history[serial].id == id && history[serial].events == log
    && history[serial].ending.Some?
  }

  /** `refusals` counts how often the allocator had too few blocks. */
  datatype Scene = Scene(active: Table, history: History, refusals: nat)

  /** What became of the sequences active in `a`: each is still the same sequence with a log that
      extends its old one, or has ended, and then its log is closed and extends its old one too. */
  ghost predicate NobodyVanished(eos: set<int>, a: Scene, b: Scene) {
    forall id :: id in a.active ==>
      var s := a.active[id];
      && s.serial < |b.history| && b.history[s.serial].id == id
      && match b.history[s.serial].ending
         case None => id in b.active && b.active[id].serial == s.serial && s.events <= b.active[id].events
         case Some(t) => t.serial == s.serial && Closed(eos, t) && s.events <= t.events
  }

  lemma ChroniclesTellAll(eos: set<int>, a: Scene, b: Scene, finishedA: Table, finishedB: Table)
    requires Chronicled(eos, a.active, finishedA, a.history) && Chronicled(eos, b.active, finishedB, b.history)
    requires Grew(a.history, b.history)
    ensures NobodyVanished(eos, a, b)
  {
    hide Closed;
    forall id | id in a.active
      ensures var s := a.active[id];
              && s.serial < |b.history| && b.history[s.serial].id == id
              && match b.history[s.serial].ending
                 case None => id in b.active && b.active[id].serial == s.serial && s.events <= b.active[id].events
                 case Some(t) => t.serial == s.serial && Closed(eos, t) && s.events <= t.events
    {
      var k := a.active[id].serial;
      assert Later(a.history[k], b.history[k]) && Entry(eos, b.active, b.history[k], k);
    }
  }

  /** With nothing active, every sequence ever reserved has a closed log. */
  ghost predicate AllEnded(eos: set<int>, history: History) {
    forall k :: 0 <= k < |history| ==> history[k].ending.Some? && Closed(eos, history[k].ending.value)
  }

  lemma NothingActiveAllEnded(eos: set<int>, finished: Table, history: History)
    requires Chronicled(eos, map[], finished, history)
    ensures AllEnded(eos, history)
  {
    hide Closed;
    forall k | 0 <= k < |history|
      ensures history[k].ending.Some? && Closed(eos, history[k].ending.value)
    {
      assert Entry(eos, map[], history[k], k);
    }
  }

  lemma LaterJoins(c: Chronicle, d: Chronicle, e: Chronicle)
    requires Later(c, d) && Later(d, e)
    ensures Later(c, e)
  {}

  lemma GrewJoins(a: History, b: History, c: History)
    requires Grew(a, b) && Grew(b, c)
    ensures Grew(a, c)
  {
    forall k | 0 <= k < |a|
      ensures Later(a[k], c[k])
    {
      LaterJoins(a[k], b[k], c[k]);
    }
  }

  lemma UpdateKeepsChronicles(eos: set<int>, active: Table, finished: Table, history: History, id: string, s: Sequence)
    requires Chronicled(eos, active, finished, history) && id in active
    requires s.serial == active[id].serial && active[id].events <= s.events
    ensures var after := history[s.serial := Chronicle(id, s.events, None)];
            Chronicled(eos, active[id := s], finished, after) && Grew(history, after)
  {
    hide Closed;
    var after := history[s.serial := Chronicle(id, s.events, None)];
    forall k | 0 <= k < |after|
      ensures Entry(eos, active[id := s], after[k], k)
    {
      assert Entry(eos, active, history[k], k);
    }
  }

  lemma RetireKeepsChronicles(eos: set<int>, active: Table, finished: Table, history: History, id: string, s: Sequence)
    requires Chronicled(eos, active, finished, history) && id in active && Closed(eos, s)
    requires s.serial == active[id].serial && active[id].events <= s.events
    ensures var after := history[s.serial := Chronicle(id, s.events, Some(s))];
            Chronicled(eos, active - {id}, finished[id := s], after) && Grew(history, after)
  {
    hide Closed;
    var after := history[s.serial := Chronicle(id, s.events, Some(s))];
    forall k | 0 <= k < |after|
      ensures Entry(eos, active - {id}, after[k], k)
    {
      assert Entry(eos, active, history[k], k);
    }
  }

  lemma ReserveKeepsChronicles(eos: set<int>, active: Table, finished: Table, history: History, id: string, s: Sequence)
    requires Chronicled(eos, active, finished, history) && id !in active
    requires s.serial == |history| && s.events == []
    ensures var after := history + [Chronicle(id, [], None)];
            Chronicled(eos, active[id := s], finished, after) && Grew(history, after)
  {
    hide Closed;
    var after := history + [Chronicle(id, [], None)];
    forall k | 0 <= k < |after|
      ensures Entry(eos, active[id := s], after[k], k)
    {
      if k < |history| {
        assert Entry(eos, active, history[k], k);
      }
    }
  }

  lemma ForgetKeepsChronicles(eos: set<int>, active: Table, finished: Table, history: History, id: string)
    requires Chronicled(eos, active, finished, history)
    ensures Chronicled(eos, active, finished - {id}, history)
  {
    hide Entry;
  }

  // ---------------------------------------------------------------- what happens between two awaits

  /** From `a` to `b`, only the touched sequences changed and no log shrank; with `quiet`, no
      sequence was added. */
  ghost predicate Shift(a: Scene, b: Scene, touched: set<string>, quiet: bool) {
    && (forall id :: id in a.active && id !in touched ==> id in b.active && Evolved(a.active[id], b.active[id]))
    && (quiet ==> b.active.Keys <= a.active.Keys)
    && Grew(a.history, b.history) && a.refusals <= b.refusals
  }

  lemma ShiftGrew(a: Scene, b: Scene, touched: set<string>, quiet: bool)
    requires Shift(a, b, touched, quiet)
    ensures Grew(a.history, b.history) && a.refusals <= b.refusals
  {}

  lemma ShiftCounts(a: Scene, b: Scene, touched: set<string>, quiet: bool)
    requires b == a.(refusals := b.refusals) && a.refusals <= b.refusals
    ensures Shift(a, b, touched, quiet)
  {}

  /** A loop over sequences has touched those it has come to. */
  lemma ShiftGoesOn(a: Scene, b: Scene, c: Scene, ids: seq<string>, i: nat, quiet: bool)
    requires i < |ids| && Shift(a, b, Elements(ids[..i]), quiet) && Shift(b, c, {ids[i]}, quiet)
    ensures Shift(a, c, Elements(ids[..i + 1]), quiet)
  {
    hide Shift;
    ShiftJoins(a, b, c, Elements(ids[..i]), {ids[i]}, quiet);
    assert ids[..i + 1] == ids[..i] + [ids[i]];
    assert Elements(ids[..i + 1]) == Elements(ids[..i]) + {ids[i]};
  }

  lemma ShiftJoins(a: Scene, b: Scene, c: Scene, t: set<string>, u: set<string>, quiet: bool)
    requires Shift(a, b, t, quiet) && Shift(b, c, u, quiet)
    ensures Shift(a, c, t + u, quiet)
  {
    hide Grew;
    GrewJoins(a.history, b.history, c.history);
  }

  lemma WaitsJoin(a: Scene, b: Scene, c: Scene, quiet: bool)
    requires Shift(a, b, {}, quiet) && Shift(b, c, {}, quiet)
    ensures Shift(a, c, {}, quiet)
  {
    hide Shift;
    var none: set<string> := {};
    ShiftJoins(a, b, c, none, none, quiet);
    assert none + none == none;
  }

  lemma ShiftStarts(a: Scene, quiet: bool)
    ensures Shift(a, a, {}, quiet)
  {}

  lemma ShiftStartsTouched(a: Scene, id: string, quiet: bool)
    ensures Shift(a, a, {id}, quiet)
  {}

  lemma ShiftRelaxes(a: Scene, b: Scene, touched: set<string>, quiet: bool)
    requires Shift(a, b, touched, true)
    ensures Shift(a, b, touched, quiet)
  {}

  lemma ShiftTwice(a: Scene, b: Scene, c: Scene, id: string, quiet: bool)
    requires Shift(a, b, {id}, quiet) && Shift(b, c, {id}, quiet)
    ensures Shift(a, c, {id}, quiet)
  {
    hide Shift;
    ShiftJoins(a, b, c, {id}, {id}, quiet);
    assert {id} + {id} == {id};
  }

  lemma ShiftFromWait(a: Scene, b: Scene, c: Scene, id: string, quiet: bool)
    requires Shift(a, b, {}, quiet) && Shift(b, c, {id}, quiet)
    ensures Shift(a, c, {id}, quiet)
  {
    hide Shift;
    ShiftJoins(a, b, c, {}, {id}, quiet);
    assert {} + {id} == {id};
  }

  lemma ShiftAround(a: Scene, b: Scene, c: Scene, d: Scene, id: string, quiet: bool)
    requires Shift(a, b, {id}, quiet) && Shift(b, c, {}, quiet) && Shift(c, d, {id}, quiet)
    ensures Shift(a, d, {id}, quiet)
  {
    hide Shift;
    ShiftFromWait(b, c, d, id, quiet);
    ShiftTwice(a, b, d, id, quiet);
  }

  lemma GrewThenShift(before: History, a: Scene, b: Scene, touched: set<string>, quiet: bool)
    requires Grew(before, a.history) && Shift(a, b, touched, quiet)
    ensures Grew(before, b.history)
  {
    hide Grew;
    GrewJoins(before, a.history, b.history);
  }

  lemma GrewStarts(h: History)
    ensures Grew(h, h)
  {}

  /** Nothing happened to a sequence that would make its results mean something else. */
  ghost predicate Kept(s: Sequence, t: Sequence) {
    && t.serial == s.serial && t.events == s.events && t.generated == s.generated && t.maxNew == s.maxNew
    && t.stops == s.stops && t.prompt == s.prompt && t.offset == s.offset && t.deadline == s.deadline
    && (s.cancelled ==> t.cancelled)
  }

  /** The verdict on a token: a cancelled sequence is stopped, and so is exactly a sequence whose
      deadline the clock has reached; otherwise end tokens come before stop tokens and these before
      the length. A cancellation can still come while the token is on its way. */
  ghost predicate FairVerdict(eos: set<int>, s: Sequence, token: Token, at: real, verdict: Option<FinishReason>) {
    && token.index == |s.generated|
    && (s.cancelled ==> verdict == Some(CancelledByCaller))
    && (verdict != Some(CancelledByCaller) ==>
          && (verdict == Some(DeadlinePassed) <==> at >= s.deadline)
          && (at < s.deadline ==>
                && (verdict == Some(Eos) <==> token.id in eos)
                && (verdict == Some(StopToken) <==> token.id !in eos && token.id in s.stops)
                && (verdict == Some(Length) <==>
                      token.id !in eos && token.id !in s.stops && |s.generated| + 1 >= s.maxNew)))
  }

  /** Events of a sequence that ends with a token: the token, if shown, and the reason. */
  ghost function LastEvents(s: Sequence, token: Token, reason: FinishReason): seq<Event> {
    Shown(s, token, Some(reason)) + [Complete(reason, |s.generated| + if reason == Length then 1 else 0)]
  }

  lemma LastIsShown(s: Sequence, token: Token)
    ensures forall reason :: reason != Length ==> LastEvents(s, token, reason) == [Complete(reason, |s.generated|)]
    ensures s.events + LastEvents(s, token, Length)
         == s.events + [Emitted(token.id, |s.generated|)] + [Complete(Length, |s.generated| + 1)]
  {}

  /** What the outcome has made of the sequence that was `s`, for as long as nothing else is done with
      it: failed, with a prompt that has moved on, with one more token, or ended by its token. */
  ghost predicate Fate(eos: set<int>, now: Scene, id: string, s: Sequence, outcome: Outcome) {
    match outcome
    case Broken => Ended(now.history, s.serial, id, s.events + [Broke])
    case NoRoom => Ended(now.history, s.serial, id, s.events + [Broke])
    case Moved(offset) =>
      && id in now.active && now.active[id].serial == s.serial && now.active[id].events == s.events
      && now.active[id].phase == Prefill && now.active[id].offset == offset
    case Accepted(token, at, verdict) =>
      && FairVerdict(eos, s, token, at, verdict)
      && match verdict
         case None =>
           && id in now.active && now.active[id].serial == s.serial
           && now.active[id].events == s.events + Shown(s, token, None)
           && now.active[id].generated == s.generated + [token.id] && now.active[id].phase == Decode
         case Some(reason) => Ended(now.history, s.serial, id, s.events + LastEvents(s, token, reason))
  }

  lemma FateOfKept(eos: set<int>, now: Scene, id: string, s: Sequence, t: Sequence, outcome: Outcome)
    requires Fate(eos, now, id, t, outcome) && Kept(s, t)
    ensures Fate(eos, now, id, s, outcome)
  {
    hide Ended;
  }

  lemma FateStays(eos: set<int>, a: Scene, b: Scene, id: string, s: Sequence, outcome: Outcome, touched: set<string>,
                  quiet: bool)
    requires Fate(eos, a, id, s, outcome) && Shift(a, b, touched, quiet) && id !in touched
    ensures Fate(eos, b, id, s, outcome)
  {
    hide FairVerdict;
    if s.serial < |a.history| {
      assert Later(a.history[s.serial], b.history[s.serial]);
    }
  }

  /** Each sequence has met its outcome. */
  ghost predicate Fated(eos: set<int>, from: Table, now: Scene, outcomes: map<string, Outcome>) {
    forall id :: id in outcomes ==> id in from && Fate(eos, now, id, from[id], outcomes[id])
  }

  /** Each outcome is the one that the sequence's own result calls for. */
  ghost predicate Replied(from: Table, reply: Reply, chunk: nat, outcomes: map<string, Outcome>) {
    forall id :: id in outcomes ==> id in from && Gets(reply, id, chunk, from[id], outcomes[id])
  }

  /** Each outcome is the one that the sequence's preparation, and if that brings none the batch's
      result, calls for. */
  ghost predicate Prefilled(from: Table, preparations: string -> Preparation, reply: Reply, chunk: nat,
                            outcomes: map<string, Outcome>) {
    forall id :: id in outcomes ==>
      id in from && Deserves(preparations(id), reply, id, chunk, from[id], outcomes[id])
  }

  ghost predicate Deserves(p: Preparation, reply: Reply, id: string, chunk: nat, s: Sequence, outcome: Outcome) {
    || Prepares(p, s, Some(outcome))
    || (Prepares(p, s, None) && Gets(reply, id, chunk, s, outcome))
  }

  lemma FatedNext(eos: set<int>, from: Table, a: Scene, b: Scene, id: string, outcome: Outcome,
                  outcomes: map<string, Outcome>, quiet: bool)
    requires Fated(eos, from, a, outcomes) && Shift(a, b, {id}, quiet) && id !in outcomes
    requires id in from && Fate(eos, b, id, from[id], outcome)
    ensures Fated(eos, from, b, outcomes[id := outcome])
  {
    hide Shift, Fate;
    FatedStays(eos, from, a, b, {id}, outcomes, quiet);
  }

  lemma FatedStays(eos: set<int>, from: Table, a: Scene, b: Scene, touched: set<string>,
                   outcomes: map<string, Outcome>, quiet: bool)
    requires Fated(eos, from, a, outcomes) && Shift(a, b, touched, quiet) && outcomes.Keys !! touched
    ensures Fated(eos, from, b, outcomes)
  {
    hide Shift, Fate;
    forall id | id in outcomes
      ensures id in from && Fate(eos, b, id, from[id], outcomes[id])
    {
      FateStays(eos, a, b, id, from[id], outcomes[id], touched, quiet);
    }
  }

  /** These sequences are in both tables, and nothing happened to them in between. */
  ghost predicate AllKept(from: Table, now: Table, ids: set<string>) {
    forall id :: id in ids ==> id in from && id in now && Kept(from[id], now[id])
  }

  lemma KeptWhileWaiting(a: Scene, b: Scene, ids: set<string>, touched: set<string>, quiet: bool)
    requires Shift(a, b, touched, quiet) && ids <= a.active.Keys && ids !! touched
    ensures AllKept(a.active, b.active, ids)
  {
    hide Grew;
  }

  lemma KeptJoins(a: Table, b: Table, c: Table, ids: set<string>)
    requires AllKept(a, b, ids) && AllKept(b, c, ids)
    ensures AllKept(a, c, ids)
  {}

  /** Outcomes can be told from the point of view of an earlier moment. */
  lemma FatedEarlier(eos: set<int>, a: Table, b: Table, now: Scene, reply: Reply, chunk: nat,
                     outcomes: map<string, Outcome>)
    requires AllKept(a, b, outcomes.Keys)
    requires Fated(eos, b, now, outcomes) && Replied(b, reply, chunk, outcomes)
    ensures Fated(eos, a, now, outcomes) && Replied(a, reply, chunk, outcomes)
  {
    hide Fate;
    forall id | id in outcomes
      ensures Fate(eos, now, id, a[id], outcomes[id])
    {
      FateOfKept(eos, now, id, a[id], b[id], outcomes[id]);
    }
  }

  /** A batch after a wait, from the point of view of before the wait. */
  lemma AfterCall(eos: set<int>, a: Scene, b: Scene, c: Scene, ids: set<string>, reply: Reply, chunk: nat,
                  outcomes: map<string, Outcome>, quiet: bool)
    requires Shift(a, b, {}, quiet) && Shift(b, c, ids, quiet) && outcomes.Keys == ids <= a.active.Keys
    requires Fated(eos, b.active, c, outcomes) && Replied(b.active, reply, chunk, outcomes)
    ensures Shift(a, c, ids, quiet)
    ensures Fated(eos, a.active, c, outcomes) && Replied(a.active, reply, chunk, outcomes)
  {
    hide Shift, Fated, Replied;
    KeptWhileWaiting(a, b, ids, {}, quiet);
    FatedEarlier(eos, a.active, b.active, c, reply, chunk, outcomes);
    ShiftJoins(a, b, c, {}, ids, quiet);
    assert {} + ids == ids;
  }

  lemma NobodyFated(eos: set<int>, from: Table, now: Scene, reply: Reply, chunk: nat)
    ensures Fated(eos, from, now, map[]) && Replied(from, reply, chunk, map[])
  {}

  /** One more result of a batch has been handed out. */
  lemma BatchGoesOn(eos: set<int>, first: Scene, a: Scene, b: Scene, ids: seq<string>, i: nat, reply: Reply, chunk: nat,
                    outcomes: map<string, Outcome>, outcome: Outcome, quiet: bool)
    requires i < |ids| && NoDuplicates(ids) && ids[i] in first.active && ids[i] in a.active
    requires outcomes.Keys == Elements(ids[..i])
    requires Shift(first, a, Elements(ids[..i]), quiet) && Shift(a, b, {ids[i]}, quiet)
    requires Fated(eos, first.active, a, outcomes) && Replied(first.active, reply, chunk, outcomes)
    requires Gets(reply, ids[i], chunk, a.active[ids[i]], outcome)
    requires Fate(eos, b, ids[i], a.active[ids[i]], outcome)
    ensures Shift(first, b, Elements(ids[..i + 1]), quiet)
    ensures Fated(eos, first.active, b, outcomes[ids[i] := outcome])
    ensures Replied(first.active, reply, chunk, outcomes[ids[i] := outcome])
    ensures outcomes[ids[i] := outcome].Keys == Elements(ids[..i + 1])
  {
    hide Shift, Fated, Fate;
    ShiftGoesOn(first, a, b, ids, i, quiet);
    assert ids[i] !in ids[..i];
    KeptWhileWaiting(first, a, {ids[i]}, Elements(ids[..i]), quiet);
    assert ids[i] in {ids[i]} && Kept(first.active[ids[i]], a.active[ids[i]]);
    FateOfKept(eos, b, ids[i], first.active[ids[i]], a.active[ids[i]], outcome);
    FatedNext(eos, first.active, a, b, ids[i], outcome, outcomes, quiet);
    assert ids[..i + 1] == ids[..i] + [ids[i]];
  }

  /** The sequence that was `s` has ended for this reason, with nothing else added to its log. */
  ghost predicate Stopped(history: History, id: string, s: Sequence, reason: FinishReason) {
    Ended(history, s.serial, id, s.events + [Complete(reason, |s.generated|)])
  }

  /** Of the sequences in `from`, each has been stopped, as cancelled if it had been cancelled and
      because of its deadline only if the clock had reached it; or it is still active with nothing but
      possibly a cancellation done to it; and among the latter, those that were cancelled or late are
      still to come. */
  ghost predicate Sieved(from: Table, now: Scene, rest: set<string>, clock: string -> real) {
    forall id :: id in from ==>
      var s := from[id];
      || Stopped(now.history, id, s, CancelledByCaller)
      || (!s.cancelled && clock(id) >= s.deadline && Stopped(now.history, id, s, DeadlinePassed))
      || (id in now.active && Evolved(s, now.active[id]) && (s.cancelled || clock(id) >= s.deadline ==> id in rest))
  }

  lemma SieveStarts(now: Scene, clock: string -> real)
    ensures Sieved(now.active, now, now.active.Keys, clock)
  {
    hide Ended;
  }

  lemma SieveSkips(from: Table, now: Scene, rest: set<string>, id: string, clock: string -> real)
    requires Sieved(from, now, rest, clock)
    requires id in now.active ==> !now.active[id].cancelled && clock(id) < now.active[id].deadline
    ensures Sieved(from, now, rest - {id}, clock)
  {
    hide Ended;
  }

  lemma SieveStops(from: Table, a: Scene, b: Scene, rest: set<string>, id: string, reason: FinishReason,
                   clock: string -> real, quiet: bool)
    requires Sieved(from, a, rest, clock) && id in a.active && Shift(a, b, {id}, quiet)
    requires || reason == CancelledByCaller
             || (reason == DeadlinePassed && !a.active[id].cancelled && clock(id) >= a.active[id].deadline)
    requires Stopped(b.history, id, a.active[id], reason)
    ensures Sieved(from, b, rest - {id}, clock)
  {
    forall other | other in from
      ensures var s := from[other];
              || Stopped(b.history, other, s, CancelledByCaller)
              || (!s.cancelled && clock(other) >= s.deadline && Stopped(b.history, other, s, DeadlinePassed))
              || (&& other in b.active && Evolved(s, b.active[other])
                  && (s.cancelled || clock(other) >= s.deadline ==> other in rest - {id}))
    {
      var s := from[other];
      if Stopped(a.history, other, s, CancelledByCaller) || Stopped(a.history, other, s, DeadlinePassed) {
        assert Later(a.history[s.serial], b.history[s.serial]);
      }
    }
  }

  lemma SieveEnds(from: Table, now: Scene, clock: string -> real)
    requires Sieved(from, now, {}, clock) && forall id :: id in from ==> from[id].cancelled
    ensures forall id :: id in from ==> Stopped(now.history, id, from[id], CancelledByCaller)
  {
    hide Ended;
  }

  lemma CancelledStay(a: Scene, b: Scene, touched: set<string>)
    requires Shift(a, b, touched, true) && forall id :: id in a.active ==> a.active[id].cancelled
    ensures forall id :: id in b.active && id !in touched ==> b.active[id].cancelled
  {
    hide Grew;
  }

  /** A cancelled sequence that passed the sieve has ended, and stays as it ended. */
  lemma SieveIsFinal(from: Table, now: Scene, later: History, id: string, clock: string -> real)
    requires Sieved(from, now, {}, clock) && Grew(now.history, later) && id in from && from[id].cancelled
    ensures Stopped(later, id, from[id], CancelledByCaller)
  {
    assert Later(now.history[from[id].serial], later[from[id].serial]);
  }

  lemma ShiftKeys(a: Scene, b: Scene, touched: set<string>, quiet: bool)
    requires Shift(a, b, touched, quiet)
    ensures quiet ==> b.active.Keys <= a.active.Keys
    ensures a.active.Keys - touched <= b.active.Keys
  {
    hide Grew, Evolved;
  }

  /** The sequences of `from` are all there, and all but those in `rest` have been cancelled. */
  ghost predicate Flagged(from: Table, now: Table, rest: set<string>) {
    && now.Keys == from.Keys
    && forall id :: id in from ==> now[id] == if id in rest then from[id] else from[id].(cancelled := true)
  }

  lemma FlaggingStarts(a: Table)
    ensures Flagged(a, a, a.Keys)
  {}

  lemma FlagsOne(from: Table, now: Table, rest: set<string>, id: string)
    requires Flagged(from, now, rest) && id in now
    ensures Flagged(from, now[id := now[id].(cancelled := true)], rest - {id})
  {}

  lemma NewIsSound(eos: set<int>, serial: nat, prompt: seq<int>, maxNew: nat, stops: set<int>, deadline: real)
    requires prompt != [] && maxNew > 0
    ensures var s := New(serial, prompt, maxNew, stops, deadline);
            Sound(eos, s) && Open(s) && s.serial == serial && s.events == []
  {}

  lemma MarkedIsSound(eos: set<int>, s: Sequence)
    ensures Sound(eos, s) ==> Sound(eos, s.(cancelled := true))
    ensures Open(s) ==> Open(s.(cancelled := true))
  {}

  lemma ForgetKeepsTables(eos: set<int>, limit: nat, active: Table, finished: Table, busy: set<string>, id: string)
    requires TablesAgree(eos, limit, active, finished, busy)
    ensures TablesAgree(eos, limit, active, finished - {id}, busy)
  {}

  lemma UpdateKeepsTables(eos: set<int>, limit: nat, active: Table, finished: Table, busy: set<string>,
                              id: string, s: Sequence)
    requires TablesAgree(eos, limit, active, finished, busy) && id in active
    requires Sound(eos, s) && (id in busy || Open(s))
    ensures TablesAgree(eos, limit, active[id := s], finished, busy)
  {
    assert active[id := s].Keys == active.Keys;
    assert |active[id := s].Keys| == |active.Keys|;
  }

  lemma RetireKeepsTables(eos: set<int>, limit: nat, active: Table, finished: Table, busy: set<string>,
                              id: string, s: Sequence)
    requires TablesAgree(eos, limit, active, finished, busy) && id in active && Closed(eos, s)
    ensures TablesAgree(eos, limit, active - {id}, finished[id := s], busy - {id})
  {
    assert (active - {id}).Keys == active.Keys - {id};
    assert |(active - {id}).Keys| <= |active.Keys|;
  }

  lemma ReserveKeepsTables(eos: set<int>, limit: nat, active: Table, finished: Table, busy: set<string>,
                               id: string, s: Sequence)
    requires TablesAgree(eos, limit, active, finished, busy)
    requires id !in active && id !in finished && |active| < limit && Sound(eos, s) && Open(s)
    ensures TablesAgree(eos, limit, active[id := s], finished, busy)
  {
    assert active[id := s].Keys == active.Keys + {id};
    assert |active[id := s].Keys| == |active.Keys| + 1;
  }

  // ---------------------------------------------------------------- batches

  ghost predicate Present(a: Table, ids: seq<string>, phases: set<SequencePhase>) {
    forall id :: id in ids ==> id in a && a[id].phase in phases
  }

  lemma PresentSplit(a: Table, ids: seq<string>, phases: set<SequencePhase>, i: nat)
    requires i < |ids| && Present(a, ids[i..], phases)
    ensures ids[i] in a && a[ids[i]].phase in phases
  {
    assert ids[i..][0] == ids[i];
  }

  lemma PresentAfter(a: Scene, b: Scene, ids: seq<string>, phases: set<SequencePhase>, i: nat, quiet: bool)
    requires i < |ids| && NoDuplicates(ids) && Present(a.active, ids[i..], phases) && Shift(a, b, {ids[i]}, quiet)
    ensures Present(b.active, ids[i + 1..], phases)
  {
    hide Grew;
    forall id | id in ids[i + 1..]
      ensures id in b.active && b.active[id].phase in phases
    {
      var j :| i + 1 <= j < |ids| && ids[j] == id;
      assert ids[i..][j - i] == id && ids[i] != ids[j];
    }
  }

  lemma PresentWhileWaiting(a: Scene, b: Scene, ids: seq<string>, phases: set<SequencePhase>, quiet: bool)
    requires Present(a.active, ids, phases) && Shift(a, b, {}, quiet)
    ensures Present(b.active, ids, phases)
    ensures quiet ==> TotalWork(a.active) == TotalWork(b.active)
  {
    hide Grew;
    if quiet {
      WorkAfterWaiting(a, b);
    }
  }

  lemma CacheLengthKeepsSound(eos: set<int>, s: Sequence, n: nat)
    ensures Sound(eos, s) ==> Sound(eos, s.(cacheTokens := n))
    ensures Open(s) ==> Open(s.(cacheTokens := n))
    ensures Work(s.(cacheTokens := n)) == Work(s)
  {}

  lemma AfterWaiting(a: Scene, b: Scene, id: string, quiet: bool)
    requires id in a.active && Shift(a, b, {}, quiet)
    ensures id in b.active && Evolved(a.active[id], b.active[id])
    ensures quiet ==> TotalWork(a.active) == TotalWork(b.active)
  {
    hide Grew;
    if quiet {
      WorkAfterWaiting(a, b);
    }
  }

  lemma OffsetKeepsSound(eos: set<int>, s: Sequence, offset: nat)
    requires Sound(eos, s) && offset <= |s.prompt|
    ensures forall n: nat {:trigger s.(offset := offset, cacheTokens := n)} ::
              Sound(eos, s.(offset := offset, cacheTokens := n))
              && (Open(s) && offset < |s.prompt| ==> Open(s.(offset := offset, cacheTokens := n)))
  {}

  lemma StartKeepsSound(eos: set<int>, s: Sequence)
    requires s.phase in {Queued, Prefill}
    ensures var t := s.(phase := Prefill, backendCreated := true);
            (Sound(eos, s) ==> Sound(eos, t)) && (Open(s) ==> Open(t)) && Work(t) == Work(s)
  {}

  lemma TokenizedKeepsSound(eos: set<int>, s: Sequence)
    ensures var t := s.(tokenized := true);
            (Sound(eos, s) ==> Sound(eos, t)) && (Open(s) ==> Open(t)) && Work(t) == Work(s)
  {}

  /** `batch` are those of the first `i` sequences that still have to be prefilled. */
  ghost predicate Collected(a: Table, ids: seq<string>, i: nat, batch: seq<string>)
    requires i <= |ids|
  {
    && |batch| <= i && NoDuplicates(batch) && Present(a, batch, {Prefill})
    && forall id :: id in batch ==> id in ids[..i]
  }

  lemma BatchStarts(a: Table, ids: seq<string>)
    ensures Collected(a, ids, 0, [])
  {}

  lemma CollectedAfter(a: Scene, b: Scene, ids: seq<string>, i: nat, batch: seq<string>, quiet: bool)
    requires i < |ids| && NoDuplicates(ids) && Collected(a.active, ids, i, batch) && Shift(a, b, {ids[i]}, quiet)
    ensures Collected(b.active, ids, i + 1, batch)
    ensures ids[i] in b.active && b.active[ids[i]].phase == Prefill ==>
              Collected(b.active, ids, i + 1, batch + [ids[i]])
  {
    hide Grew;
    assert ids[..i + 1] == ids[..i] + [ids[i]];
    assert ids[i] !in ids[..i];
    ConcatNoDuplicates(batch, [ids[i]]);
  }

  lemma PresentKnown(a: Table, ids: seq<string>, phases: set<SequencePhase>)
    requires Present(a, ids, phases)
    ensures Elements(ids) <= a.Keys
  {}

  /** The preparations of these sequences have brought their outcomes. */
  ghost predicate Settles(from: Table, preparations: string -> Preparation, outcomes: map<string, Outcome>) {
    forall id :: id in outcomes ==>
      id in from && Prepares(preparations(id), from[id], Some(outcomes[id]))
  }

  /** The preparations of these sequences leave their prompts to be processed. */
  ghost predicate Unprepared(from: Table, preparations: string -> Preparation, ids: set<string>) {
    forall id :: id in ids ==> id in from && Prepares(preparations(id), from[id], None)
  }

  ghost function Unfit(outcomes: map<string, Outcome>): set<string> {
    set id | id in outcomes && outcomes[id] == NoRoom
  }

  /** The first `i` sequences have been prepared: each has its outcome or is in the batch. */
  ghost predicate Preparing(eos: set<int>, first: Scene, now: Scene, ids: seq<string>, i: nat,
                            preparations: string -> Preparation, outcomes: map<string, Outcome>,
                            batch: seq<string>, quiet: bool)
    requires i <= |ids|
  {
    && Shift(first, now, Elements(ids[..i]), quiet) && Collected(now.active, ids, i, batch)
    && outcomes.Keys + Elements(batch) == Elements(ids[..i]) && outcomes.Keys !! Elements(batch)
    && AllKept(first.active, now.active, Elements(batch)) && Unprepared(first.active, preparations, Elements(batch))
    && Fated(eos, first.active, now, outcomes) && Settles(first.active, preparations, outcomes)
    && |Unfit(outcomes)| <= now.refusals - first.refusals
  }

  lemma PreparingBegins(eos: set<int>, first: Scene, ids: seq<string>, preparations: string -> Preparation,
                        quiet: bool)
    ensures Preparing(eos, first, first, ids, 0, preparations, map[], [], quiet)
  {
    BatchStarts(first.active, ids);
    ShiftStarts(first, quiet);
    assert Elements(ids[..0]) == {} && Unfit(map[]) == {};
  }

  lemma PreparesEvolved(p: Preparation, s: Sequence, t: Sequence, outcome: Option<Outcome>)
    requires Evolved(s, t) && Prepares(p, t, outcome)
    ensures Prepares(p, s, outcome) && Kept(s, t)
  {}

  lemma UntouchedEvolved(a: Scene, b: Scene, touched: set<string>, quiet: bool, id: string)
    requires Shift(a, b, touched, quiet) && id in a.active && id !in touched
    ensures id in b.active && Evolved(a.active[id], b.active[id])
  {}

  lemma UnfitGrows(outcomes: map<string, Outcome>, id: string, outcome: Outcome)
    requires id !in outcomes
    ensures |Unfit(outcomes[id := outcome])| == |Unfit(outcomes)| + if outcome == NoRoom then 1 else 0
  {
    assert Unfit(outcomes[id := outcome]) == Unfit(outcomes) + if outcome == NoRoom then {id} else {};
  }

  /** What holds of the sequences prepared so far, after the next one. */
  lemma OthersPrepared(eos: set<int>, first: Scene, a: Scene, b: Scene, ids: seq<string>, i: nat,
                       preparations: string -> Preparation, outcomes: map<string, Outcome>, batch: seq<string>,
                       quiet: bool)
    requires i < |ids| && NoDuplicates(ids) && Shift(a, b, {ids[i]}, quiet)
    requires Preparing(eos, first, a, ids, i, preparations, outcomes, batch, quiet)
    ensures Shift(first, b, Elements(ids[..i + 1]), quiet) && Elements(ids[..i + 1]) == Elements(ids[..i]) + {ids[i]}
    ensures Collected(b.active, ids, i + 1, batch) && ids[i] !in outcomes && ids[i] !in batch
    ensures AllKept(first.active, b.active, Elements(batch)) && Fated(eos, first.active, b, outcomes)
  {
    hide Shift, Fated, AllKept, Unprepared, Settles, Unfit, Collected;
    ShiftGoesOn(first, a, b, ids, i, quiet);
    CollectedAfter(a, b, ids, i, batch, quiet);
    assert ids[..i + 1] == ids[..i] + [ids[i]];
    assert ids[i] !in Elements(ids[..i]);
    FatedStays(eos, first.active, a, b, {ids[i]}, outcomes, quiet);
    KeptKnown(first.active, a.active, Elements(batch));
    KeptWhileWaiting(a, b, Elements(batch), {ids[i]}, quiet);
    KeptJoins(first.active, a.active, b.active, Elements(batch));
  }

  lemma KeptKnown(from: Table, now: Table, ids: set<string>)
    requires AllKept(from, now, ids)
    ensures ids <= from.Keys && ids <= now.Keys
  {}

  lemma HasOutcome(eos: set<int>, first: Scene, a: Scene, b: Scene, ids: seq<string>, i: nat,
                   preparations: string -> Preparation, outcomes: map<string, Outcome>, batch: seq<string>,
                   outcome: Outcome, quiet: bool)
    requires i < |ids| && NoDuplicates(ids) && Shift(a, b, {ids[i]}, quiet)
    requires ids[i] in first.active && ids[i] in a.active
    requires Preparing(eos, first, a, ids, i, preparations, outcomes, batch, quiet)
    requires Prepares(preparations(ids[i]), a.active[ids[i]], Some(outcome))
    requires Fate(eos, b, ids[i], a.active[ids[i]], outcome)
    requires a.refusals + (if outcome == NoRoom then 1 else 0) <= b.refusals
    ensures Preparing(eos, first, b, ids, i + 1, preparations, outcomes[ids[i] := outcome], batch, quiet)
  {
    hide Shift, Fated, AllKept, Unprepared, Unfit, Collected, Fate, Prepares;
    var id := ids[i];
    OthersPrepared(eos, first, a, b, ids, i, preparations, outcomes, batch, quiet);
    UntouchedEvolved(first, a, Elements(ids[..i]), quiet, id);
    PreparesEvolved(preparations(id), first.active[id], a.active[id], Some(outcome));
    FateOfKept(eos, b, id, first.active[id], a.active[id], outcome);
    UnfitGrows(outcomes, id, outcome);
    OneMoreFated(eos, first.active, b, id, outcome, outcomes);
  }

  lemma OneMoreFated(eos: set<int>, from: Table, now: Scene, id: string, outcome: Outcome,
                     outcomes: map<string, Outcome>)
    requires Fated(eos, from, now, outcomes) && id in from && Fate(eos, now, id, from[id], outcome)
    ensures Fated(eos, from, now, outcomes[id := outcome])
  {
    hide Fate;
  }

  lemma JoinsBatch(eos: set<int>, first: Scene, a: Scene, b: Scene, ids: seq<string>, i: nat,
                   preparations: string -> Preparation, outcomes: map<string, Outcome>, batch: seq<string>,
                   quiet: bool)
    requires i < |ids| && NoDuplicates(ids) && Shift(a, b, {ids[i]}, quiet)
    requires ids[i] in first.active && ids[i] in a.active && ids[i] in b.active
    requires Preparing(eos, first, a, ids, i, preparations, outcomes, batch, quiet)
    requires Prepares(preparations(ids[i]), a.active[ids[i]], None)
    requires Kept(a.active[ids[i]], b.active[ids[i]]) && b.active[ids[i]].phase == Prefill
    ensures Preparing(eos, first, b, ids, i + 1, preparations, outcomes, batch + [ids[i]], quiet)
  {
    hide Shift, Fated, Settles, Unfit, Collected, Prepares;
    var id := ids[i];
    OthersPrepared(eos, first, a, b, ids, i, preparations, outcomes, batch, quiet);
    CollectedAfter(a, b, ids, i, batch, quiet);
    UntouchedEvolved(first, a, Elements(ids[..i]), quiet, id);
    PreparesEvolved(preparations(id), first.active[id], a.active[id], None);
    ShiftGrew(a, b, {id}, quiet);
    assert Elements(batch + [id]) == Elements(batch) + {id};
  }

  lemma PreparingEnds(eos: set<int>, first: Scene, now: Scene, ids: seq<string>,
                      preparations: string -> Preparation, outcomes: map<string, Outcome>, batch: seq<string>,
                      quiet: bool)
    requires Preparing(eos, first, now, ids, |ids|, preparations, outcomes, batch, quiet)
    ensures Shift(first, now, Elements(ids), quiet)
    ensures NoDuplicates(batch) && Present(now.active, batch, {Prefill}) && |batch| <= |ids|
    ensures outcomes.Keys + Elements(batch) == Elements(ids) && outcomes.Keys !! Elements(batch)
    ensures AllKept(first.active, now.active, Elements(batch))
    ensures Unprepared(first.active, preparations, Elements(batch))
    ensures Fated(eos, first.active, now, outcomes) && Settles(first.active, preparations, outcomes)
    ensures |Unfit(outcomes)| <= now.refusals - first.refusals
  {
    hide Shift, Present, Fated, AllKept, Unprepared, Settles, Unfit;
    assert ids[..|ids|] == ids;
  }

  /** With the batch's results every sequence has its outcome. */
  lemma ResultsJoin(eos: set<int>, from: Table, now: Scene, preparations: string -> Preparation, reply: Reply,
                    chunk: nat, outcomes: map<string, Outcome>, results: map<string, Outcome>)
    requires Fated(eos, from, now, outcomes) && Fated(eos, from, now, results) && outcomes.Keys !! results.Keys
    requires Settles(from, preparations, outcomes) && Unprepared(from, preparations, results.Keys)
    requires Replied(from, reply, chunk, results)
    ensures Fated(eos, from, now, outcomes + results)
    ensures Prefilled(from, preparations, reply, chunk, outcomes + results)
    ensures Unfit(outcomes + results) == Unfit(outcomes)
  {
    hide Fate, Prepares;
  }

  lemma EverybodyPrepared(from: Table, preparations: string -> Preparation, reply: Reply, chunk: nat,
                          outcomes: map<string, Outcome>)
    requires Settles(from, preparations, outcomes)
    ensures Prefilled(from, preparations, reply, chunk, outcomes)
  {
    hide Prepares;
  }

  // ---------------------------------------------------------------- a turn of the scheduler

  /** What a turn has made of each sequence that was active at its start: it has been stopped as
      cancelled; or its deadline had come when the clock was read, and exactly then it has been stopped
      for that; or it has met the outcome that its own preparation or result calls for, if it was in
      the batch, and has been left alone otherwise. */
  ghost predicate Turned(eos: set<int>, from: Table, now: Scene, inputs: Inputs, chunk: nat,
                         outcomes: map<string, Outcome>) {
    forall id :: id in from ==>
      var s := from[id];
      || Stopped(now.history, id, s, CancelledByCaller)
      || (!s.cancelled && inputs.clock(id) >= s.deadline && Stopped(now.history, id, s, DeadlinePassed))
      || (&& !s.cancelled && inputs.clock(id) < s.deadline
          && if id in outcomes then Met(eos, now, inputs, chunk, id, s, outcomes[id])
             else id in now.active && Evolved(s, now.active[id]))
  }

  ghost predicate Met(eos: set<int>, now: Scene, inputs: Inputs, chunk: nat, id: string, s: Sequence,
                      outcome: Outcome) {
    && Fate(eos, now, id, s, outcome)
    && if s.phase == Decode then Gets(inputs.reply, id, 0, s, outcome)
       else Deserves(inputs.preparations(id), inputs.reply, id, chunk, s, outcome)
  }

  /** Who has not been stopped by the sieve is the same as before, and was in time. */
  lemma SievedOrSame(from: Table, cleared: Scene, now: Scene, touched: set<string>, quiet: bool, id: string,
                     clock: string -> real)
    requires Sieved(from, cleared, {}, clock) && Shift(cleared, now, touched, quiet) && id in from
    ensures || Stopped(now.history, id, from[id], CancelledByCaller)
            || (&& !from[id].cancelled && clock(id) >= from[id].deadline
                && Stopped(now.history, id, from[id], DeadlinePassed))
            || (&& !from[id].cancelled && clock(id) < from[id].deadline
                && id in cleared.active && Evolved(from[id], cleared.active[id]))
  {
    if from[id].serial < |cleared.history| {
      assert Later(cleared.history[from[id].serial], now.history[from[id].serial]);
    }
  }

  /** What a batch means for a turn. */
  lemma BatchTurns(eos: set<int>, from: Table, cleared: Scene, now: Scene, inputs: Inputs, chunk: nat,
                   outcomes: map<string, Outcome>, quiet: bool)
    requires Sieved(from, cleared, {}, inputs.clock) && Shift(cleared, now, outcomes.Keys, quiet)
    requires forall id :: id in outcomes ==>
               id in cleared.active && Met(eos, now, inputs, chunk, id, cleared.active[id], outcomes[id])
    ensures Turned(eos, from, now, inputs, chunk, outcomes)
  {
    hide Sieved, Shift, Met, Stopped;
    forall id | id in from
      ensures var s := from[id];
              || Stopped(now.history, id, s, CancelledByCaller)
              || (!s.cancelled && inputs.clock(id) >= s.deadline && Stopped(now.history, id, s, DeadlinePassed))
              || (&& !s.cancelled && inputs.clock(id) < s.deadline
                  && if id in outcomes then Met(eos, now, inputs, chunk, id, s, outcomes[id])
                     else id in now.active && Evolved(s, now.active[id]))
    {
      SievedOrSame(from, cleared, now, outcomes.Keys, quiet, id, inputs.clock);
      if id in cleared.active && Evolved(from[id], cleared.active[id]) {
        if id in outcomes {
          MetEarlier(eos, now, inputs, chunk, id, from[id], cleared.active[id], outcomes[id]);
        } else {
          UntouchedEvolved(cleared, now, outcomes.Keys, quiet, id);
        }
      }
    }
  }

  lemma MetEarlier(eos: set<int>, now: Scene, inputs: Inputs, chunk: nat, id: string, s: Sequence, t: Sequence,
                   outcome: Outcome)
    requires Evolved(s, t) && Met(eos, now, inputs, chunk, id, t, outcome)
    ensures Met(eos, now, inputs, chunk, id, s, outcome)
  {
    hide Fate, Continues;
    FateOfKept(eos, now, id, s, t, outcome);
  }

  lemma PrefillTurns(eos: set<int>, from: Table, cleared: Scene, now: Scene, ids: seq<string>, inputs: Inputs,
                     chunk: nat, outcomes: map<string, Outcome>, quiet: bool)
    requires Sieved(from, cleared, {}, inputs.clock) && Shift(cleared, now, Elements(ids), quiet)
    requires outcomes.Keys == Elements(ids) && Present(cleared.active, ids, {Queued, Prefill})
    requires Prefilled(cleared.active, inputs.preparations, inputs.reply, chunk, outcomes)
    requires Fated(eos, cleared.active, now, outcomes)
    ensures Turned(eos, from, now, inputs, chunk, outcomes)
  {
    hide Sieved, Shift, Fate, Deserves, Turned;
    forall id | id in outcomes
      ensures id in cleared.active && Met(eos, now, inputs, chunk, id, cleared.active[id], outcomes[id])
    {
      assert id in ids;
    }
    BatchTurns(eos, from, cleared, now, inputs, chunk, outcomes, quiet);
  }

  lemma DecodeTurns(eos: set<int>, from: Table, cleared: Scene, now: Scene, ids: seq<string>, inputs: Inputs,
                    chunk: nat, outcomes: map<string, Outcome>, quiet: bool)
    requires Sieved(from, cleared, {}, inputs.clock) && Shift(cleared, now, Elements(ids), quiet)
    requires outcomes.Keys == Elements(ids) && Present(cleared.active, ids, {Decode})
    requires Replied(cleared.active, inputs.reply, 0, outcomes) && Fated(eos, cleared.active, now, outcomes)
    ensures Turned(eos, from, now, inputs, chunk, outcomes)
  {
    hide Sieved, Shift, Fate, Gets, Turned;
    forall id | id in outcomes
      ensures id in cleared.active && Met(eos, now, inputs, chunk, id, cleared.active[id], outcomes[id])
    {
      assert id in ids;
    }
    BatchTurns(eos, from, cleared, now, inputs, chunk, outcomes, quiet);
  }

  lemma NobodyTurns(eos: set<int>, from: Table, cleared: Scene, inputs: Inputs, chunk: nat, quiet: bool)
    requires Sieved(from, cleared, {}, inputs.clock)
    ensures Turned(eos, from, cleared, inputs, chunk, map[])
  {
    hide Sieved, Shift, Turned;
    var none: map<string, Outcome> := map[];
    ShiftStarts(cleared, quiet);
    assert none.Keys == {};
    BatchTurns(eos, from, cleared, cleared, inputs, chunk, none, quiet);
  }

  // ---------------------------------------------------------------- work left

  /** Prompt tokens still to process and output tokens still to generate, plus one for finishing. */
  ghost function Work(s: Sequence): nat {
    1 + (if |s.generated| < s.maxNew then s.maxNew - |s.generated| else 0)
    + (if s.phase in {Queued, Prefill} && s.offset < |s.prompt| then |s.prompt| - s.offset else 0)
  }

  ghost function WorkOf(active: Table): map<string, int> {
    map id | id in active :: Work(active[id])
  }

  ghost function TotalWork(active: Table): int {
    Sum(WorkOf(active))
  }

  lemma WorkAfterUpdate(active: Table, id: string, s: Sequence)
    requires id in active
    ensures TotalWork(active[id := s]) == TotalWork(active) - Work(active[id]) + Work(s)
  {
    hide Work;
    SumUpdate(WorkOf(active), id, Work(s));
    assert WorkOf(active[id := s]) == WorkOf(active)[id := Work(s)];
  }

  lemma WorkAfterRetire(active: Table, id: string)
    requires id in active
    ensures TotalWork(active - {id}) == TotalWork(active) - Work(active[id]) < TotalWork(active)
    ensures TotalWork(active - {id}) >= 0
  {
    SumRemove(WorkOf(active), id);
    assert WorkOf(active - {id}) == WorkOf(active) - {id};
    SumNonNegative(WorkOf(active - {id}));
  }

  /** Waiting changes nothing about the work of the sequences that were there. */
  lemma WorkAfterWaiting(a: Scene, b: Scene)
    requires Shift(a, b, {}, true)
    ensures TotalWork(a.active) == TotalWork(b.active)
  {
    hide Grew;
    assert WorkOf(a.active) == WorkOf(b.active);
  }

  lemma WorkIsPositive(active: Table)
    requires active != map[]
    ensures TotalWork(active) > 0
  {
    var id :| id in active;
    WorkAfterRetire(active, id);
  }

  lemma NoWorkLeft(active: Table)
    ensures TotalWork(active) >= 0 && (active == map[] ==> TotalWork(active) == 0)
  {
    SumNonNegative(WorkOf(active));
    if active == map[] {
      assert WorkOf(active) == map[];
    }
  }

  lemma PrefixDistinct(part: seq<string>, whole: seq<string>)
    requires NoDuplicates(whole) && part <= whole
    ensures NoDuplicates(part) && forall id :: id in part ==> id in whole
  {}
}
