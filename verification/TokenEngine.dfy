/**
 The iteration scheduler of `inference/token_engine.py` over the block allocator. The backend is an
 oracle that yields a token or a failure; `Wait` is a point where other tasks may run.
 */
module TokenEngine {
  import opened Wrappers
  import opened Sequences
  import BlockAllocator
  import opened TokenScheduling
  import opened TokenSequences

  datatype EngineError = ShutDown | SequenceExists | AtCapacity | Invalid

  class TokenGenerationEngine {
    const kv: BlockAllocator.KVBlockAllocator
    const policy: PrefillDecodePolicy
    const maxActive: nat
    const maxBatch: nat
    const chunkSize: nat
    /** The backend's end-of-sequence tokens. */
    const eos: set<int>
    var active: Table
    var finished: Table
    var closed: bool
    /** The scheduler task exists. */
    var started: bool
    /** Reservations made so far: the identity of the next record. */
    var reservations: nat
    ghost var history: History
    /** Sequences whose record is between two states while the engine waits. */
    ghost var busy: set<string>

    /** The allocator's owners are exactly the given sequences, and they share no block. */
    ghost predicate Owned(ids: set<string>)
      reads kv
    {
      kv.Valid() && kv.owners.Keys == ids && BlockAllocator.Exclusive(kv.owners)
    }

    /** What holds at every await point. */
    ghost predicate Valid()
      reads this`active, this`finished, this`busy, this`history, this`reservations, kv
    {
      && maxBatch > 0 && Owned(active.Keys) && TablesAgree(eos, maxActive, active, finished, busy)
      && Chronicled(eos, active, finished, history) && reservations == |history|
    }

    ghost function Now(): Scene
      reads this`active, this`history, kv`allocationFailures
    {
      Scene(active, history, kv.allocationFailures)
    }

    constructor (kv: BlockAllocator.KVBlockAllocator, policy: PrefillDecodePolicy, maxActive: nat, maxBatch: nat,
                 chunkSize: nat, eos: set<int>)
      requires kv.Valid() && kv.owners == map[] && maxActive > 0 && maxBatch > 0
      ensures Valid() && active == map[] && finished == map[] && !closed && busy == {}
      ensures history == [] && !started
      ensures this.kv == kv && this.policy == policy && this.maxActive == maxActive
    {
      this.kv, this.policy, this.maxActive, this.maxBatch, this.chunkSize := kv, policy, maxActive, maxBatch, chunkSize;
      this.eos := eos;
      active, finished, closed, busy := map[], map[], false, {};
      started, reservations, history := false, 0, [];
    }

    // -------------------------------------------------------------- calls from other tasks

    /** Takes a sequence in if there is a slot and memory for its longest possible cache. */
    method Reserve(id: string, prompt: seq<int>, maxNew: nat, stops: set<int>, deadline: real, promptCount: nat)
      returns (r: Result<(), EngineError>)
      requires Valid() && prompt != [] && maxNew > 0
      modifies this`active, this`reservations, this`history, kv
      ensures Valid()
      ensures r == (
          if closed then Failure(ShutDown)
          else if id in old(active) || id in finished then Failure(SequenceExists)
          else if |old(active)| >= maxActive then Failure(AtCapacity)
          else if id == "" then Failure(Invalid)
          else if BlockAllocator.CeilDiv(promptCount + maxNew, kv.blockSize) > |old(kv.free)| then Failure(AtCapacity)
          else Success(()))
      ensures r.Failure? ==> active == old(active) && history == old(history) && kv.owners == old(kv.owners)
      ensures r.Success? ==>
                && id in active && active == old(active)[id := active[id]]
                && active[id] == Sequence(|old(history)|, prompt, maxNew, stops, deadline, false, Queued, false, false,
                                          0, 0, [], [])
                && history == old(history) + [Chronicle(id, [], None)]
                && id in kv.owners && |kv.owners[id]| == BlockAllocator.CeilDiv(promptCount + maxNew, kv.blockSize)
      ensures Shift(old(Now()), Now(), {}, false)
    {
      hide TablesAgree, Chronicled, Sound, Open, Shift, BlockAllocator.Consistent, BlockAllocator.CeilDiv;
      ShiftStarts(Now(), false);
      if closed {
        return Failure(ShutDown);
      }
      if id in active || id in finished {
        return Failure(SequenceExists);
      }
      if |active| >= maxActive {
        return Failure(AtCapacity);
      }
      FreshBlocks(kv.free, BlockAllocator.CeilDiv(promptCount + maxNew, kv.blockSize), id);
      var blocks := kv.Allocate(id, promptCount + maxNew);
      if blocks.Failure? {
        ShiftCounts(old(Now()), Now(), {}, false);
        return Failure(if blocks.error.OutOfBlocks? then AtCapacity else Invalid);
      }
      NewIsSound(eos, reservations, prompt, maxNew, stops, deadline);
      Admit(id, New(reservations, prompt, maxNew, stops, deadline));
      r := Success(());
    }

    /** A table of free blocks shares nothing with the others. */
    lemma FreshBlocks(free: seq<nat>, n: nat, id: string)
      requires kv.Valid() && BlockAllocator.Exclusive(kv.owners) && free == kv.free
      ensures n <= |free| ==> BlockAllocator.Exclusive(kv.owners[id := BlockAllocator.Top(free, n)])
    {
      if n <= |free| {
        BlockAllocator.TopMembers(free, n);
        BlockAllocator.ExclusiveStays(kv.totalBlocks, free, kv.owners, kv.references, id, BlockAllocator.Top(free, n));
      }
    }

    /** Enters a fresh record into the table. */
    method Admit(id: string, s: Sequence)
      requires maxBatch > 0 && TablesAgree(eos, maxActive, active, finished, busy)
      requires Chronicled(eos, active, finished, history) && reservations == |history|
      requires id !in active && id !in finished && |active| < maxActive
      requires s.serial == reservations && s.events == [] && Sound(eos, s) && Open(s)
      modifies this`active, this`reservations, this`history
      ensures TablesAgree(eos, maxActive, active, finished, busy)
      ensures Chronicled(eos, active, finished, history) && reservations == |history|
      ensures active == old(active)[id := s] && history == old(history) + [Chronicle(id, [], None)]
      ensures Shift(old(Now()), Now(), {}, false)
    {
      hide TablesAgree, Chronicled, Sound, Open, Later;
      ReserveKeepsTables(eos, maxActive, active, finished, busy, id, s);
      ReserveKeepsChronicles(eos, active, finished, history, id, s);
      active := active[id := s];
      history := history + [Chronicle(id, [], None)];
      reservations := reservations + 1;
    }

    method Cancel(id: string) returns (r: bool)
      requires Valid()
      modifies this`active, this`history
      ensures Valid() && Shift(old(Now()), Now(), {}, true)
      ensures r <==> id in old(active) && !old(active)[id].phase.Terminal()
      ensures active == if r then old(active)[id := old(active)[id].(cancelled := true)] else old(active)
    {
      hide TablesAgree, Chronicled, Owned, Later;
      if id !in active || active[id].phase.Terminal() {
        ShiftStarts(Now(), true);
        return false;
      }
      Mark(id);
      r := true;
    }

    method Mark(id: string)
      requires Valid() && id in active
      modifies this`active, this`history
      ensures Valid() && active == old(active)[id := old(active)[id].(cancelled := true)]
      ensures Shift(old(Now()), Now(), {}, true)
    {
      hide TablesAgree, Chronicled, Owned, Sound, Open, Later;
      SequenceKnown(id);
      SerialKnown(id);
      MarkedIsSound(eos, active[id]);
      var s := active[id].(cancelled := true);
      UpdateKeepsTables(eos, maxActive, active, finished, busy, id, s);
      UpdateKeepsChronicles(eos, active, finished, history, id, s);
      active := active[id := s];
      history := history[s.serial := Chronicle(id, s.events, None)];
      assert active.Keys == old(active).Keys;
    }

    /** A consumer took the last event of a finished sequence. */
    method Forget(id: string)
      requires Valid()
      modifies this`finished
      ensures Valid() && finished == old(finished) - {id}
    {
      hide TablesAgree, Chronicled, Owned;
      ForgetKeepsChronicles(eos, active, finished, history, id);
      ForgetKeepsTables(eos, maxActive, active, finished, busy, id);
      finished := finished - {id};
    }

    /** Refuses new work and asks every active sequence to stop. */
    method Close()
      requires Valid()
      modifies this`closed, this`active, this`history
      ensures Valid() && closed && Shift(old(Now()), Now(), {}, true)
      ensures Flagged(old(active), active, {})
    {
      hide TablesAgree, Chronicled, Owned, Shift, Flagged;
      closed := true;
      var rest := active.Keys;
      ShiftStarts(Now(), true);
      FlaggingStarts(active);
      while rest != {}
        modifies this`active, this`history
        invariant Valid() && rest <= active.Keys && Shift(old(Now()), Now(), {}, true)
        invariant Flagged(old(active), active, rest)
        decreases |rest|
      {
        var id :| id in rest;
        ghost var before := Now();
        FlagsOne(old(active), active, rest, id);
        Mark(id);
        WaitsJoin(old(Now()), before, Now(), true);
        rest := rest - {id};
      }
    }

    /** Other tasks run: reservations (unless `quiet`), cancellations, consumers, shutdown. None of
        them ends a sequence or changes a closed log. */
    method Wait(quiet: bool)
      requires Valid()
      modifies this`active, this`finished, this`closed, this`started, this`reservations, this`history, kv
      ensures Valid() && Shift(old(Now()), Now(), {}, quiet)
      ensures forall id :: id in finished ==> id in old(finished) && finished[id] == old(finished)[id]
      ensures (old(closed) ==> closed) && (old(started) ==> started)
    {
      hide TablesAgree, Chronicled, Owned, Shift;
      ShiftStarts(Now(), quiet);
      var turns: nat :| true;
      for i := 0 to turns
        invariant Valid() && Shift(old(Now()), Now(), {}, quiet)
        invariant forall id :: id in finished ==> id in old(finished) && finished[id] == old(finished)[id]
        invariant (old(closed) ==> closed) && (old(started) ==> started)
      {
        ghost var before := Now();
        OtherTask(quiet);
        WaitsJoin(old(Now()), before, Now(), quiet);
      }
    }

    /** One step of one other task. */
    method OtherTask(quiet: bool)
      requires Valid()
      modifies this`active, this`finished, this`closed, this`started, this`reservations, this`history, kv
      ensures Valid() && Shift(old(Now()), Now(), {}, quiet)
      ensures forall id :: id in finished ==> id in old(finished) && finished[id] == old(finished)[id]
      ensures (old(closed) ==> closed) && (old(started) ==> started)
    {
      hide TablesAgree, Chronicled, Owned, Shift, Flagged, BlockAllocator.CeilDiv;
      ShiftStarts(Now(), quiet);
      var id: string := *;
      var choice: int := *;
      if choice == 0 && !quiet {
        var prompt: seq<int> := *;
        var maxNew: nat, count: nat :| true;
        var stops: set<int> := *;
        var deadline: real := *;
        if prompt != [] && maxNew > 0 {
          var _ := Reserve(id, prompt, maxNew, stops, deadline, count);
        }
      } else if choice == 1 {
        var _ := Cancel(id);
        ShiftRelaxes(old(Now()), Now(), {}, quiet);
      } else if choice == 2 {
        Close();
        ShiftRelaxes(old(Now()), Now(), {}, quiet);
      } else if choice == 3 {
        started := true;
      } else {
        Forget(id);
      }
    }

    lemma SequenceKnown(id: string)
      requires Valid() && id in active
      ensures Sound(eos, active[id]) && (id in busy || Open(active[id]))
    {}

    // -------------------------------------------------------------- one sequence

    /** Replaces an active sequence's record. */
    method Update(id: string, s: Sequence)
      requires Valid() && id in active && Sound(eos, s) && (id in busy || Open(s))
      requires s.serial == active[id].serial && active[id].events <= s.events
      modifies this`active, this`history
      ensures Valid() && active == old(active)[id := s]
      ensures TotalWork(active) == old(TotalWork(active)) - Work(old(active)[id]) + Work(s)
      ensures Shift(old(Now()), Now(), {id}, true)
    {
      hide TablesAgree, Chronicled, Owned, Sound, Open, Work, TotalWork, Later;
      UpdateKeepsTables(eos, maxActive, active, finished, busy, id, s);
      UpdateKeepsChronicles(eos, active, finished, history, id, s);
      WorkAfterUpdate(active, id, s);
      SerialKnown(id);
      active := active[id := s];
      history := history[s.serial := Chronicle(id, s.events, None)];
      assert active.Keys == old(active).Keys;
    }

    lemma SerialKnown(id: string)
      requires Valid() && id in active
      ensures active[id].serial < |history|
    {}

    method ReleaseBlocks(id: string)
      requires Owned(active.Keys) && id in active
      modifies kv
      ensures Owned(active.Keys - {id}) && kv.allocationFailures == old(kv.allocationFailures)
    {
      var released := kv.Release(id);
      assert released;
    }

    /** Frees a sequence's blocks, exactly once, and closes its log. */
    method Retire(id: string, last: Event)
      requires Valid() && id in active && !last.Emitted?
      requires last.Complete? ==> last.outputTokens == |active[id].generated|
      requires last.Complete? && last.reason == Length <==> |active[id].generated| == active[id].maxNew
      requires PhaseFits(active[id], last)
      modifies this`active, this`finished, this`busy, this`history, kv
      ensures Valid() && busy == old(busy) - {id} && kv.owners.Keys == old(kv.owners).Keys - {id}
      ensures var s := old(active)[id].(events := old(active)[id].events + [last]);
              && active == old(active) - {id} && finished == old(finished)[id := s]
              && Ended(history, s.serial, id, s.events)
      ensures TotalWork(active) < old(TotalWork(active))
      ensures Shift(old(Now()), Now(), {id}, true)
    {
      hide TablesAgree, Chronicled, Sound, Open, Closed, TotalWork, Shift, BlockAllocator.Consistent,
           BlockAllocator.Exclusive;
      SequenceKnown(id);
      SerialKnown(id);
      ClosingIsClosed(eos, active[id], last);
      WorkAfterRetire(active, id);
      ReleaseBlocks(id);
      MoveOut(id, active[id].(events := active[id].events + [last]));
    }

    /** Moves a record with a closed log to the finished ones. */
    method MoveOut(id: string, s: Sequence)
      requires TablesAgree(eos, maxActive, active, finished, busy)
      requires Chronicled(eos, active, finished, history) && id in active && active[id].serial < |history|
      requires Closed(eos, s) && s.serial == active[id].serial && active[id].events <= s.events
      modifies this`active, this`finished, this`busy, this`history
      ensures TablesAgree(eos, maxActive, active, finished, busy) && Chronicled(eos, active, finished, history)
      ensures active == old(active) - {id} && active.Keys == old(active).Keys - {id} && busy == old(busy) - {id}
      ensures finished == old(finished)[id := s] && |history| == |old(history)|
      ensures Ended(history, s.serial, id, s.events) && Shift(old(Now()), Now(), {id}, true)
    {
      hide TablesAgree, Chronicled, Closed, Later;
      RetireKeepsTables(eos, maxActive, active, finished, busy, id, s);
      RetireKeepsChronicles(eos, active, finished, history, id, s);
      active := active - {id};
      finished := finished[id := s];
      busy := busy - {id};
      history := history[s.serial := Chronicle(id, s.events, Some(s))];
      assert active.Keys == old(active).Keys - {id};
    }

    /** Ends a sequence: its backend state is released first if it has any. */
    method Complete(id: string, reason: FinishReason, quiet: bool)
      requires Valid() && id in active
      requires reason == Length <==> |active[id].generated| == active[id].maxNew
      requires reason == CancelledByCaller ==> active[id].cancelled
      modifies this`active, this`finished, this`closed, this`started, this`busy, this`reservations, this`history, kv
      ensures Valid() && busy == old(busy) - {id} && id !in active && id in finished
      ensures var s := old(active)[id];
              Ended(history, s.serial, id, s.events + [TokenSequences.Complete(reason, |s.generated|)])
      ensures quiet ==> TotalWork(active) < old(TotalWork(active))
      ensures Shift(old(Now()), Now(), {id}, quiet)
      ensures (old(closed) ==> closed) && (old(started) ==> started)
    {
      hide TablesAgree, Chronicled, Owned, Shift, TotalWork, Work;
      var n := |active[id].generated|;
      Settle(id, PhaseFor(reason), quiet);
      ghost var before := Now();
      Retire(id, TokenSequences.Complete(reason, n));
      ShiftRelaxes(before, Now(), {id}, quiet);
      ShiftTwice(old(Now()), before, Now(), id, quiet);
    }

    method Fail(id: string, quiet: bool)
      requires Valid() && id in active && |active[id].generated| < active[id].maxNew
      modifies this`active, this`finished, this`closed, this`started, this`busy, this`reservations, this`history, kv
      ensures Valid() && busy == old(busy) - {id} && id !in active && id in finished
      ensures Ended(history, old(active)[id].serial, id, old(active)[id].events + [Broke])
      ensures quiet ==> TotalWork(active) < old(TotalWork(active))
      ensures Shift(old(Now()), Now(), {id}, quiet)
      ensures (old(closed) ==> closed) && (old(started) ==> started)
    {
      hide TablesAgree, Chronicled, Owned, Shift, TotalWork, Work;
      Settle(id, Failed, quiet);
      ghost var before := Now();
      Retire(id, Broke);
      ShiftRelaxes(before, Now(), {id}, quiet);
      ShiftTwice(old(Now()), before, Now(), id, quiet);
    }

    /** Puts a sequence into a terminal phase and releases its backend state. */
    method Settle(id: string, phase: SequencePhase, quiet: bool)
      requires Valid() && id in active && phase.Terminal()
      modifies this`active, this`finished, this`closed, this`started, this`busy, this`reservations, this`history, kv
      ensures Valid() && busy == old(busy) + {id} && id in active
      ensures var s := old(active)[id];
              && active[id] == s.(phase := phase, backendCreated := false, cancelled := active[id].cancelled)
              && (s.cancelled ==> active[id].cancelled)
      ensures quiet ==> TotalWork(active) <= old(TotalWork(active))
      ensures Shift(old(Now()), Now(), {id}, quiet)
      ensures (old(closed) ==> closed) && (old(started) ==> started)
    {
      hide TablesAgree, Chronicled, Owned, Open, TotalWork, Shift;
      SequenceKnown(id);
      MakeBusy(id);
      Update(id, active[id].(phase := phase));
      ghost var before := Now();
      ShiftRelaxes(old(Now()), before, {id}, quiet);
      if active[id].backendCreated {
        Wait(quiet);
        ghost var waited := Now();
        AfterWaiting(before, waited, id, quiet);
        SequenceKnown(id);
        Update(id, active[id].(backendCreated := false));
        ShiftRelaxes(waited, Now(), {id}, quiet);
        ShiftAround(old(Now()), before, waited, Now(), id, quiet);
      }
    }

    method MakeBusy(id: string)
      requires Valid() && id in active
      modifies this`busy
      ensures Valid() && busy == old(busy) + {id}
    {
      hide Chronicled, Owned, Sound, Closed, Open;
      busy := busy + {id};
    }

    /** Cancellation comes first, and then the deadline, which has passed when the clock reaches it. */
    method CheckInterruption(id: string, now: real) returns (reason: Option<FinishReason>)
      requires id in active
      ensures reason == Some(CancelledByCaller) <==> active[id].cancelled
      ensures reason == Some(DeadlinePassed) <==> !active[id].cancelled && active[id].deadline <= now
      ensures reason in {None, Some(CancelledByCaller), Some(DeadlinePassed)}
    {
      if active[id].cancelled {
        return Some(CancelledByCaller);
      }
      reason := if now >= active[id].deadline then Some(DeadlinePassed) else None;
    }

    /** The sequence that was `s` has taken a token with this verdict: if it goes on it has one more
        token and event, and otherwise it has ended with its last token, if shown, and the reason. */
    ghost predicate Took(id: string, s: Sequence, token: Token, verdict: Option<FinishReason>)
      reads this`active, this`history
    {
      match verdict
      case None =>
        && id in active && active[id].serial == s.serial && active[id].events == s.events + Shown(s, token, None)
        && active[id].generated == s.generated + [token.id] && active[id].phase == Decode
      case Some(reason) => id !in active && Ended(history, s.serial, id, s.events + LastEvents(s, token, reason))
    }

    /** Takes a token for a sequence: interruptions first, then end and stop tokens, which are not
        emitted, then the length limit. `now` is what the clock reads. */
    method AcceptToken(id: string, token: Token, now: real, quiet: bool) returns (verdict: Option<FinishReason>)
      requires Valid() && id in active && !active[id].phase.Terminal()
      requires |active[id].generated| < active[id].maxNew && token.index == |active[id].generated|
      modifies this`active, this`finished, this`closed, this`started, this`busy, this`reservations, this`history, kv
      ensures Valid() && busy == old(busy) - {id}
      ensures verdict == Some(CancelledByCaller) <==> old(active)[id].cancelled
      ensures FairVerdict(eos, old(active)[id], token, now, verdict) && Took(id, old(active)[id], token, verdict)
      ensures quiet ==> TotalWork(active) < old(TotalWork(active))
      ensures Shift(old(Now()), Now(), {id}, quiet)
      ensures (old(closed) ==> closed) && (old(started) ==> started)
    {
      hide TablesAgree, Chronicled, Owned, Shift, TotalWork, Work, Sound, Ended;
      ghost var s := active[id];
      LastIsShown(s, token);
      var interrupted := CheckInterruption(id, now);
      if interrupted.Some? {
        Complete(id, interrupted.value, quiet);
        return interrupted;
      }
      if token.id in eos {
        Complete(id, Eos, quiet);
        return Some(Eos);
      }
      if token.id in active[id].stops {
        Complete(id, StopToken, quiet);
        return Some(StopToken);
      }
      Emit(id, token);
      ghost var before := Now();
      ShiftRelaxes(old(Now()), before, {id}, quiet);
      if |active[id].generated| >= active[id].maxNew {
        LengthReached(id);
        Complete(id, Length, quiet);
        ShiftTwice(old(Now()), before, Now(), id, quiet);
        verdict := Some(Length);
      } else {
        Settled(id);
        verdict := None;
      }
    }

    lemma LengthReached(id: string)
      requires Valid() && id in active
      ensures |active[id].generated| <= active[id].maxNew
    {}

    method Emit(id: string, token: Token)
      requires Valid() && id in active && |active[id].generated| < active[id].maxNew
      requires token.index == |active[id].generated| && token.id !in eos && token.id !in active[id].stops
      modifies this`active, this`busy, this`history
      ensures Valid() && busy == old(busy) + {id} && id in active
      ensures var s := old(active)[id];
              active[id] == s.(phase := Decode, generated := s.generated + [token.id],
                               events := s.events + [Emitted(token.id, token.index)])
      ensures TotalWork(active) < old(TotalWork(active))
      ensures Shift(old(Now()), Now(), {id}, true)
    {
      hide TablesAgree, Chronicled, Owned, Open, Sound, TotalWork, Shift;
      var s := active[id];
      SequenceKnown(id);
      EmittingIsSound(eos, s, token.id);
      LogLength(eos, s);
      MakeBusy(id);
      Update(id, s.(phase := Decode, generated := s.generated + [token.id],
                    events := s.events + [Emitted(token.id, token.index)]));
    }

    /** A sequence that is ready to be picked up again is no longer busy. */
    method Settled(id: string)
      requires Valid() && id in active && Open(active[id])
      modifies this`busy
      ensures Valid() && busy == old(busy) - {id}
    {
      hide Chronicled, Owned, Sound, Closed, Open;
      busy := busy - {id};
    }

    /** What has happened to the sequence that was `s` when the backend has answered: it failed, or it
        took a token; only an interruption can replace the judgement of the token. */
    ghost predicate Answered(id: string, s: Sequence, outcome: Outcome)
      reads this`active, this`history
    {
      match outcome
      case Moved(_) => false
      case Accepted(token, at, verdict) => FairVerdict(eos, s, token, at, verdict) && Took(id, s, token, verdict)
      case _ => id !in active && Ended(history, s.serial, id, s.events + [Broke])
    }

    lemma AnsweredAfterWaiting(id: string, s: Sequence, t: Sequence, outcome: Outcome)
      requires Answered(id, t, outcome) && Kept(s, t)
      ensures Answered(id, s, outcome)
    {
      hide Ended;
    }

    lemma AnsweredIsFate(id: string, s: Sequence, outcome: Outcome)
      requires Answered(id, s, outcome)
      ensures Fate(eos, Now(), id, s, outcome)
    {
      hide Ended;
    }

    /** Hands one backend result to a sequence. After a prefill the prefix is stored first, which
        waits for the backend's snapshot; a resumed sequence then asks for the end tokens. */
    method Deliver(id: string, sampled: Option<Sampled>, store: bool, askEos: bool, eosKnown: bool, quiet: bool)
      returns (outcome: Outcome)
      requires Valid() && busy == {} && id in active
      modifies this`active, this`finished, this`closed, this`started, this`busy, this`reservations, this`history, kv
      ensures Valid() && busy == {} && Answered(id, old(active)[id], outcome)
      ensures Yields(if askEos && !eosKnown then None else sampled, 0, old(active)[id], outcome)
      ensures quiet ==> TotalWork(active) < old(TotalWork(active))
      ensures Shift(old(Now()), Now(), {id}, quiet)
      ensures (old(closed) ==> closed) && (old(started) ==> started)
    {
      hide TablesAgree, Chronicled, Owned, Shift, TotalWork, Sound, Work, Took, Ended;
      SequenceKnown(id);
      if sampled.None? {
        Fail(id, quiet);
        return Broken;
      }
      var token := Token(sampled.value.id, |active[id].generated|, sampled.value.cacheTokens);
      CacheLengthKeepsSound(eos, active[id], token.cacheTokens);
      Update(id, active[id].(cacheTokens := token.cacheTokens));
      ghost var updated := Now();
      ShiftRelaxes(old(Now()), updated, {id}, quiet);
      WaitForRest(store, askEos, quiet);
      ghost var asked := Now();
      AfterWaiting(updated, asked, id, quiet);
      SequenceKnown(id);
      if askEos && !eosKnown {
        Fail(id, quiet);
        outcome := Broken;
      } else {
        var verdict := AcceptToken(id, token, sampled.value.at, quiet);
        outcome := Accepted(token, sampled.value.at, verdict);
      }
      ShiftAround(old(Now()), updated, asked, Now(), id, quiet);
      AnsweredAfterWaiting(id, old(active)[id], asked.active[id], outcome);
    }

    method WaitForRest(store: bool, askEos: bool, quiet: bool)
      requires Valid()
      modifies this`active, this`finished, this`closed, this`started, this`reservations, this`history, kv
      ensures Valid() && Shift(old(Now()), Now(), {}, quiet) && (old(closed) ==> closed) && (old(started) ==> started)
    {
      hide TablesAgree, Chronicled, Owned, Shift;
      ShiftStarts(Now(), quiet);
      if store {
        Wait(quiet);
      }
      ghost var stored := Now();
      ShiftStarts(stored, quiet);
      if askEos {
        Wait(quiet);
      }
      WaitsJoin(old(Now()), stored, Now(), quiet);
    }

    /** Fails a whole batch: there are no results for it. */
    method FailAll(ids: seq<string>, ghost phases: set<SequencePhase>, ghost reply: Reply, ghost chunk: nat,
                   quiet: bool)
      returns (outcomes: map<string, Outcome>)
      requires Valid() && busy == {} && NoDuplicates(ids) && Present(active, ids, phases) && !reply.Results?
      modifies this`active, this`finished, this`closed, this`started, this`busy, this`reservations, this`history, kv
      ensures Valid() && busy == {} && (old(closed) ==> closed) && (old(started) ==> started)
      ensures Shift(old(Now()), Now(), Elements(ids), quiet) && outcomes.Keys == Elements(ids)
      ensures Replied(old(active), reply, chunk, outcomes) && Fated(eos, old(active), Now(), outcomes)
      ensures quiet ==> TotalWork(active) <= old(TotalWork(active)) - |ids|
    {
      hide TablesAgree, Chronicled, Owned, Shift, TotalWork, Sound, Work, Present, Replied, Fated, Ended;
      ghost var first := Now();
      outcomes := map[];
      PresentKnown(active, ids, phases);
      BatchBegins(first, ids, reply, chunk, quiet);
      for i := 0 to |ids|
        invariant Valid() && busy == {} && (old(closed) ==> closed) && (old(started) ==> started)
        invariant Shift(first, Now(), Elements(ids[..i]), quiet) && outcomes.Keys == Elements(ids[..i])
        invariant Replied(first.active, reply, chunk, outcomes) && Fated(eos, first.active, Now(), outcomes)
        invariant Present(active, ids[i..], phases)
        invariant quiet ==> TotalWork(active) <= old(TotalWork(active)) - i
      {
        ghost var before := Now();
        PresentSplit(active, ids, phases, i);
        SequenceKnown(ids[i]);
        Fail(ids[i], quiet);
        PresentAfter(before, Now(), ids, phases, i, quiet);
        assert ids[i] in Elements(ids);
        BatchGoesOn(eos, first, before, Now(), ids, i, reply, chunk, outcomes, Broken, quiet);
        outcomes := outcomes[ids[i] := Broken];
      }
      assert ids[..|ids|] == ids;
    }

    lemma BatchBegins(first: Scene, ids: seq<string>, reply: Reply, chunk: nat, quiet: bool)
      ensures Shift(first, first, Elements(ids[..0]), quiet) && Elements(ids[..0]) == {} && ids[0..] == ids
      ensures Replied(first.active, reply, chunk, map[]) && Fated(eos, first.active, first, map[])
    {
      NobodyFated(eos, first.active, first, reply, chunk);
      ShiftStarts(first, quiet);
    }

    /** One backend call for a batch, then each sequence gets its own result: exactly the sequences of
        the batch are touched, and each meets the outcome that the reply calls for. */
    method RunBatch(ids: seq<string>, ghost phases: set<SequencePhase>, reply: Reply, store: bool, quiet: bool)
      returns (outcomes: map<string, Outcome>)
      requires Valid() && busy == {} && NoDuplicates(ids) && Present(active, ids, phases)
      modifies this`active, this`finished, this`closed, this`started, this`busy, this`reservations, this`history, kv
      ensures Valid() && busy == {} && (old(closed) ==> closed) && (old(started) ==> started)
      ensures Shift(old(Now()), Now(), Elements(ids), quiet) && outcomes.Keys == Elements(ids)
      ensures Replied(old(active), reply, 0, outcomes) && Fated(eos, old(active), Now(), outcomes)
      ensures quiet ==> TotalWork(active) <= old(TotalWork(active)) - |ids|
    {
      hide TablesAgree, Chronicled, Owned, Shift, TotalWork, Sound, Work, Present, Replied, Fated;
      ghost var first := Now();
      PresentKnown(active, ids, phases);
      WaitForRest(true, !reply.Raised?, quiet);
      ghost var called := Now();
      PresentWhileWaiting(first, called, ids, phases, quiet);
      if reply.Results? {
        outcomes := DeliverAll(ids, phases, reply, store, quiet);
      } else {
        outcomes := FailAll(ids, phases, reply, 0, quiet);
      }
      AfterCall(eos, first, called, Now(), Elements(ids), reply, 0, outcomes, quiet);
    }

    method DeliverAll(ids: seq<string>, ghost phases: set<SequencePhase>, reply: Reply, store: bool, quiet: bool)
      returns (outcomes: map<string, Outcome>)
      requires Valid() && busy == {} && NoDuplicates(ids) && Present(active, ids, phases) && reply.Results?
      modifies this`active, this`finished, this`closed, this`started, this`busy, this`reservations, this`history, kv
      ensures Valid() && busy == {} && (old(closed) ==> closed) && (old(started) ==> started)
      ensures Shift(old(Now()), Now(), Elements(ids), quiet) && outcomes.Keys == Elements(ids)
      ensures Replied(old(active), reply, 0, outcomes) && Fated(eos, old(active), Now(), outcomes)
      ensures quiet ==> TotalWork(active) <= old(TotalWork(active)) - |ids|
    {
      hide TablesAgree, Chronicled, Owned, Shift, TotalWork, Sound, Work, Present, Replied, Fated, Fate, Yields, Ended;
      ghost var first := Now();
      outcomes := map[];
      PresentKnown(active, ids, phases);
      BatchBegins(first, ids, reply, 0, quiet);
      for i := 0 to |ids|
        invariant Valid() && busy == {} && (old(closed) ==> closed) && (old(started) ==> started)
        invariant Shift(first, Now(), Elements(ids[..i]), quiet) && outcomes.Keys == Elements(ids[..i])
        invariant Replied(first.active, reply, 0, outcomes) && Fated(eos, first.active, Now(), outcomes)
        invariant Present(active, ids[i..], phases)
        invariant quiet ==> TotalWork(active) <= old(TotalWork(active)) - i
      {
        ghost var before := Now();
        PresentSplit(active, ids, phases, i);
        var outcome := Deliver(ids[i], reply.of(ids[i]), store, false, true, quiet);
        AnsweredIsFate(ids[i], before.active[ids[i]], outcome);
        PresentAfter(before, Now(), ids, phases, i, quiet);
        assert ids[i] in Elements(ids);
        BatchGoesOn(eos, first, before, Now(), ids, i, reply, 0, outcomes, outcome, quiet);
        outcomes := outcomes[ids[i] := outcome];
      }
      assert ids[..|ids|] == ids;
    }

    /** One chunk of one prompt: the final chunk yields the first token, earlier ones only move on. */
    method RunChunk(id: string, sampled: Option<Sampled>, quiet: bool) returns (outcome: Outcome)
      requires Valid() && busy == {} && id in active && active[id].phase == Prefill && chunkSize > 0
      modifies this`active, this`finished, this`closed, this`started, this`busy, this`reservations, this`history, kv
      ensures Valid() && busy == {}
      ensures Yields(sampled, chunkSize, old(active)[id], outcome)
      ensures var s := old(active)[id];
              if outcome.Moved? then
                id in active && active[id] == s.(offset := outcome.offset, cancelled := active[id].cancelled)
              else
                Answered(id, s, outcome)
      ensures quiet ==> TotalWork(active) < old(TotalWork(active))
      ensures Shift(old(Now()), Now(), {id}, quiet)
      ensures (old(closed) ==> closed) && (old(started) ==> started)
    {
      hide TablesAgree, Chronicled, Owned, Shift, TotalWork, Sound, Open, Work, Took, Ended;
      ReadyKnown(id);
      var start := active[id].offset;
      var end := if start + chunkSize < |active[id].prompt| then start + chunkSize else |active[id].prompt|;
      var final := end == |active[id].prompt|;
      Wait(quiet);
      ghost var called := Now();
      AfterWaiting(old(Now()), called, id, quiet);
      ReadyKnown(id);
      if sampled.None? {
        Fail(id, quiet);
        ShiftFromWait(old(Now()), called, Now(), id, quiet);
        return Broken;
      }
      Advance(id, end, if final then sampled.value.cacheTokens else active[id].cacheTokens);
      ghost var moved := Now();
      ShiftRelaxes(called, moved, {id}, quiet);
      ShiftFromWait(old(Now()), called, moved, id, quiet);
      if !final {
        Settled(id);
        return Moved(end);
      }
      outcome := FirstToken(id, Token(sampled.value.id, 0, sampled.value.cacheTokens), sampled.value.at, quiet);
      ShiftTwice(old(Now()), moved, Now(), id, quiet);
      TookAfterMoving(id, old(active)[id], moved.active[id], outcome);
    }

    /** After the last chunk: stores the prefix and takes the first token. */
    method FirstToken(id: string, token: Token, now: real, quiet: bool) returns (outcome: Outcome)
      requires Valid() && busy == {id} && id in active && !active[id].phase.Terminal()
      requires |active[id].generated| < active[id].maxNew && token.index == |active[id].generated|
      modifies this`active, this`finished, this`closed, this`started, this`busy, this`reservations, this`history, kv
      ensures Valid() && busy == {} && Answered(id, old(active)[id], outcome)
      ensures outcome.Accepted? && outcome.token == token && outcome.at == now
      ensures quiet ==> TotalWork(active) < old(TotalWork(active))
      ensures Shift(old(Now()), Now(), {id}, quiet)
      ensures (old(closed) ==> closed) && (old(started) ==> started)
    {
      hide TablesAgree, Chronicled, Owned, Shift, TotalWork, Sound, Work, Took, Ended;
      Wait(quiet);
      ghost var stored := Now();
      AfterWaiting(old(Now()), stored, id, quiet);
      var verdict := AcceptToken(id, token, now, quiet);
      outcome := Accepted(token, now, verdict);
      ShiftFromWait(old(Now()), stored, Now(), id, quiet);
      AnsweredAfterWaiting(id, old(active)[id], stored.active[id], outcome);
    }

    /** How far a prompt was when its token came does not matter to what the token did. */
    lemma TookAfterMoving(id: string, s: Sequence, t: Sequence, outcome: Outcome)
      requires Answered(id, t, outcome) && Kept(s, t.(offset := s.offset))
      ensures Answered(id, s, outcome)
    {
      hide Ended;
    }

    lemma ReadyKnown(id: string)
      requires Valid() && id in active && id !in busy
      ensures Open(active[id]) && |active[id].generated| < active[id].maxNew && !active[id].phase.Terminal()
      ensures active[id].phase == Prefill ==> active[id].offset < |active[id].prompt| && active[id].generated == []
    {}

    /** Moves on in the prompt; until the token of the last chunk is taken the sequence is busy. */
    method Advance(id: string, end: nat, cacheTokens: nat)
      requires Valid() && id in active && active[id].phase == Prefill && active[id].offset < end <= |active[id].prompt|
      modifies this`active, this`history, this`busy
      ensures Valid() && busy == old(busy) + {id}
      ensures active == old(active)[id := old(active)[id].(offset := end, cacheTokens := cacheTokens)]
      ensures Open(old(active)[id]) && end < |active[id].prompt| ==> Open(active[id])
      ensures TotalWork(active) < old(TotalWork(active))
      ensures Shift(old(Now()), Now(), {id}, true)
    {
      hide TablesAgree, Chronicled, Owned, Shift, TotalWork, Sound, Open;
      SequenceKnown(id);
      OffsetKeepsSound(eos, active[id], end);
      MakeBusy(id);
      Update(id, active[id].(offset := end, cacheTokens := cacheTokens));
    }

    /** One chunk for each sequence of the batch, in a backend call of its own. */
    method RunPrefillChunks(ids: seq<string>, reply: Reply, quiet: bool) returns (outcomes: map<string, Outcome>)
      requires Valid() && busy == {} && NoDuplicates(ids) && Present(active, ids, {Prefill}) && chunkSize > 0
      modifies this`active, this`finished, this`closed, this`started, this`busy, this`reservations, this`history, kv
      ensures Valid() && busy == {} && (old(closed) ==> closed) && (old(started) ==> started)
      ensures Shift(old(Now()), Now(), Elements(ids), quiet) && outcomes.Keys == Elements(ids)
      ensures Replied(old(active), reply, chunkSize, outcomes) && Fated(eos, old(active), Now(), outcomes)
      ensures quiet ==> TotalWork(active) <= old(TotalWork(active)) - |ids|
    {
      hide TablesAgree, Chronicled, Owned, Shift, TotalWork, Sound, Work, Present, Replied, Fated;
      ghost var first := Now();
      PresentKnown(active, ids, {Prefill});
      WaitForRest(false, !reply.Raised?, quiet);
      ghost var asked := Now();
      PresentWhileWaiting(first, asked, ids, {Prefill}, quiet);
      if reply.Results? {
        outcomes := ChunkAll(ids, reply, quiet);
      } else {
        outcomes := FailAll(ids, {Prefill}, reply, chunkSize, quiet);
      }
      AfterCall(eos, first, asked, Now(), Elements(ids), reply, chunkSize, outcomes, quiet);
    }

    method ChunkAll(ids: seq<string>, reply: Reply, quiet: bool) returns (outcomes: map<string, Outcome>)
      requires Valid() && busy == {} && NoDuplicates(ids) && Present(active, ids, {Prefill}) && chunkSize > 0
      requires reply.Results?
      modifies this`active, this`finished, this`closed, this`started, this`busy, this`reservations, this`history, kv
      ensures Valid() && busy == {} && (old(closed) ==> closed) && (old(started) ==> started)
      ensures Shift(old(Now()), Now(), Elements(ids), quiet) && outcomes.Keys == Elements(ids)
      ensures Replied(old(active), reply, chunkSize, outcomes) && Fated(eos, old(active), Now(), outcomes)
      ensures quiet ==> TotalWork(active) <= old(TotalWork(active)) - |ids|
    {
      hide TablesAgree, Chronicled, Owned, Shift, TotalWork, Sound, Work, Present, Replied, Fated, Fate, Yields, Ended;
      ghost var first := Now();
      outcomes := map[];
      PresentKnown(active, ids, {Prefill});
      BatchBegins(first, ids, reply, chunkSize, quiet);
      for i := 0 to |ids|
        invariant Valid() && busy == {} && (old(closed) ==> closed) && (old(started) ==> started)
        invariant Shift(first, Now(), Elements(ids[..i]), quiet) && outcomes.Keys == Elements(ids[..i])
        invariant Replied(first.active, reply, chunkSize, outcomes) && Fated(eos, first.active, Now(), outcomes)
        invariant Present(active, ids[i..], {Prefill})
        invariant quiet ==> TotalWork(active) <= old(TotalWork(active)) - i
      {
        ghost var before := Now();
        PresentSplit(active, ids, {Prefill}, i);
        var outcome := RunChunk(ids[i], reply.of(ids[i]), quiet);
        ChunkIsFate(ids[i], before.active[ids[i]], outcome);
        PresentAfter(before, Now(), ids, {Prefill}, i, quiet);
        assert ids[i] in Elements(ids);
        BatchGoesOn(eos, first, before, Now(), ids, i, reply, chunkSize, outcomes, outcome, quiet);
        outcomes := outcomes[ids[i] := outcome];
      }
      assert ids[..|ids|] == ids;
    }

    lemma ChunkIsFate(id: string, s: Sequence, outcome: Outcome)
      requires s.phase == Prefill
      requires if outcome.Moved? then
                 id in active && active[id] == s.(offset := outcome.offset, cancelled := active[id].cancelled)
               else Answered(id, s, outcome)
      ensures Fate(eos, Now(), id, s, outcome)
    {
      hide Ended;
    }

    /** Tokenizes a waiting sequence, fits its block table to the true prompt length, and looks for
        a cached prefix. Without an outcome it is ready to be prefilled; otherwise it failed, or the
        cached prefix has brought its first token. */
    method Prepare(id: string, p: Preparation, quiet: bool) returns (outcome: Option<Outcome>)
      requires Valid() && busy == {} && id in active && active[id].phase in {Queued, Prefill}
      modifies this`active, this`finished, this`closed, this`started, this`busy, this`reservations, this`history, kv
      ensures Valid() && busy == {} && (old(closed) ==> closed) && (old(started) ==> started)
      ensures quiet ==> TotalWork(active) <= old(TotalWork(active)) - if outcome.None? then 0 else 1
      ensures Shift(old(Now()), Now(), {id}, quiet)
      ensures outcome.None? ==>
                && id in active
                && active[id] == old(active)[id].(tokenized := true, phase := Prefill, backendCreated := true,
                                                  cancelled := active[id].cancelled)
                && (old(active)[id].cancelled ==> active[id].cancelled)
      ensures outcome.Some? ==> Answered(id, old(active)[id], outcome.value)
      ensures Prepares(p, old(active)[id], outcome)
      ensures outcome == Some(NoRoom) ==> kv.allocationFailures > old(kv.allocationFailures)
    {
      hide TablesAgree, Chronicled, Owned, Shift, TotalWork, Sound, Took, Ended, CachedPrefix, Answered;
      outcome := Begin(id, p.tokenizes, quiet);
      if outcome.Some? {
        return outcome;
      }
      ghost var begun := Now();
      ShiftGrew(old(Now()), begun, {id}, quiet);
      PrefixIsLongest(p, active[id].prompt);
      var prefix := CachedPrefix(p, active[id].prompt);
      if prefix.None? {
        return None;
      }
      var resumed := Resume(id, p, prefix.value != active[id].prompt, quiet);
      outcome := Some(resumed);
      ShiftTwice(old(Now()), begun, Now(), id, quiet);
      AnsweredAfterWaiting(id, old(active)[id], begun.active[id], resumed);
    }

    /** Tokenizes a sequence that has not been tokenized yet, and marks it as being prefilled. */
    method Begin(id: string, tokenizes: bool, quiet: bool) returns (failure: Option<Outcome>)
      requires Valid() && busy == {} && id in active && active[id].phase in {Queued, Prefill}
      modifies this`active, this`finished, this`closed, this`started, this`busy, this`reservations, this`history, kv
      ensures Valid() && busy == {} && (old(closed) ==> closed) && (old(started) ==> started)
      ensures quiet ==> TotalWork(active) <= old(TotalWork(active)) - if failure.None? then 0 else 1
      ensures Shift(old(Now()), Now(), {id}, quiet)
      ensures failure == Some(Broken) <==> !old(active)[id].tokenized && !tokenizes
      ensures failure in {None, Some(Broken), Some(NoRoom)}
      ensures failure == Some(NoRoom) ==>
                !old(active)[id].tokenized && kv.allocationFailures > old(kv.allocationFailures)
      ensures failure.None? ==>
                && id in active
                && active[id] == old(active)[id].(tokenized := true, phase := Prefill, backendCreated := true,
                                                  cancelled := active[id].cancelled)
                && (old(active)[id].cancelled ==> active[id].cancelled)
      ensures failure.Some? ==> Answered(id, old(active)[id], failure.value)
    {
      hide TablesAgree, Chronicled, Owned, Shift, TotalWork, Sound, Took, Ended, Answered;
      SequenceKnown(id);
      failure := None;
      if !active[id].tokenized {
        failure := Tokenize(id, tokenizes, quiet);
        if failure.Some? {
          return;
        }
      } else {
        ShiftStartsTouched(Now(), id, quiet);
      }
      ghost var tokenized := Now();
      SequenceKnown(id);
      StartKeepsSound(eos, active[id]);
      Update(id, active[id].(phase := Prefill, backendCreated := true));
      ShiftRelaxes(tokenized, Now(), {id}, quiet);
      ShiftTwice(old(Now()), tokenized, Now(), id, quiet);
    }

    /** Tokenization, then the resize of the block table; either may fail the sequence. */
    method Tokenize(id: string, tokenizes: bool, quiet: bool) returns (failure: Option<Outcome>)
      requires Valid() && busy == {} && id in active && active[id].phase in {Queued, Prefill}
      modifies this`active, this`finished, this`closed, this`started, this`busy, this`reservations, this`history, kv
      ensures Valid() && busy == {} && (old(closed) ==> closed) && (old(started) ==> started)
      ensures quiet ==> TotalWork(active) <= old(TotalWork(active)) - if failure.None? then 0 else 1
      ensures Shift(old(Now()), Now(), {id}, quiet)
      ensures failure == Some(Broken) <==> !tokenizes
      ensures failure in {None, Some(Broken), Some(NoRoom)}
      ensures failure == Some(NoRoom) ==> kv.allocationFailures > old(kv.allocationFailures)
      ensures var s := old(active)[id];
              if failure.None? then
                && id in active && active[id] == s.(tokenized := true, cancelled := active[id].cancelled)
                && (s.cancelled ==> active[id].cancelled)
                && id in kv.owners
                && |kv.owners[id]| == BlockAllocator.CeilDiv(|s.prompt| + s.maxNew, kv.blockSize)
              else
                Answered(id, s, failure.value)
    {
      hide TablesAgree, Chronicled, Owned, TotalWork, Sound, BlockAllocator.CeilDiv, Shift, Ended;
      SequenceKnown(id);
      Wait(quiet);
      ghost var called := Now();
      AfterWaiting(old(Now()), called, id, quiet);
      ShiftGrew(old(Now()), called, {}, quiet);
      SequenceKnown(id);
      if !tokenizes {
        Fail(id, quiet);
        ShiftFromWait(old(Now()), called, Now(), id, quiet);
        return Some(Broken);
      }
      TokenizedKeepsSound(eos, active[id]);
      Update(id, active[id].(tokenized := true));
      ghost var marked := Now();
      ShiftRelaxes(called, marked, {id}, quiet);
      ShiftFromWait(old(Now()), called, marked, id, quiet);
      var fits := FitBlocks(id);
      ghost var fitted := Now();
      ShiftCounts(marked, fitted, {id}, quiet);
      ShiftTwice(old(Now()), marked, fitted, id, quiet);
      if fits {
        return None;
      }
      SequenceKnown(id);
      Fail(id, quiet);
      ShiftGrew(fitted, Now(), {id}, quiet);
      ShiftTwice(old(Now()), fitted, Now(), id, quiet);
      failure := Some(NoRoom);
    }

    /** The resize is refused only for lack of blocks, and the allocator counts that. */
    method FitBlocks(id: string) returns (fits: bool)
      requires Valid() && id in active
      modifies kv
      ensures Valid()
      ensures var required := BlockAllocator.CeilDiv(|active[id].prompt| + active[id].maxNew, kv.blockSize);
              && id in old(kv.owners) && id in kv.owners
              && (if fits then |kv.owners[id]| == required else kv.owners == old(kv.owners))
              && (fits <==> required - |old(kv.owners)[id]| <= |old(kv.free)|)
      ensures kv.allocationFailures == old(kv.allocationFailures) + if fits then 0 else 1
    {
      hide TablesAgree, Chronicled, BlockAllocator.CeilDiv, BlockAllocator.Exclusive, BlockAllocator.Consistent;
      fits := ResizeBlocks(id, |active[id].prompt| + active[id].maxNew, active.Keys);
    }

    method ResizeBlocks(id: string, tokens: nat, ghost ids: set<string>) returns (fits: bool)
      requires Owned(ids) && id in ids
      modifies kv
      ensures Owned(ids)
      ensures var required := BlockAllocator.CeilDiv(tokens, kv.blockSize);
              && id in old(kv.owners) && id in kv.owners
              && (if fits then |kv.owners[id]| == required else kv.owners == old(kv.owners))
              && (fits <==> required - |old(kv.owners)[id]| <= |old(kv.free)|)
      ensures kv.allocationFailures == old(kv.allocationFailures) + if fits then 0 else 1
    {
      hide BlockAllocator.CeilDiv, BlockAllocator.Exclusive, BlockAllocator.Consistent;
      var required := BlockAllocator.CeilDiv(tokens, kv.blockSize);
      ResizedBlocks(kv.free, kv.owners[id], required, id);
      BlockAllocator.ExclusiveCounts(kv.totalBlocks, kv.free, kv.owners, kv.references, id);
      var r := kv.Resize(id, tokens);
      assert kv.owners.Keys == old(kv.owners).Keys;
      fits := r.Success?;
    }

    /** A table that grows into free blocks, or is cut back, shares nothing with the others. */
    lemma ResizedBlocks(free: seq<nat>, table: seq<nat>, required: nat, id: string)
      requires kv.Valid() && BlockAllocator.Exclusive(kv.owners) && free == kv.free
      requires id in kv.owners && table == kv.owners[id]
      ensures required < |table| ==> BlockAllocator.Exclusive(kv.owners[id := table[..required]])
      ensures 0 <= required - |table| <= |free| ==>
                BlockAllocator.Exclusive(kv.owners[id := table + BlockAllocator.Top(free, required - |table|)])
    {
      hide BlockAllocator.Exclusive, BlockAllocator.Consistent, BlockAllocator.Top;
      if required < |table| {
        BlockAllocator.ExclusiveStays(kv.totalBlocks, free, kv.owners, kv.references, id, table[..required]);
      } else if required - |table| <= |free| {
        FreeIsDistinct();
        BlockAllocator.TopMembers(free, required - |table|);
        BlockAllocator.ExclusiveStays(kv.totalBlocks, free, kv.owners, kv.references, id,
                                      table + BlockAllocator.Top(free, required - |table|));
      }
    }

    lemma FreeIsDistinct()
      requires kv.Valid()
      ensures NoDuplicates(kv.free)
    {}

    /** Continues from a cached prefix, which yields the first token. */
    method Resume(id: string, p: Preparation, partial: bool, quiet: bool) returns (outcome: Outcome)
      requires Valid() && busy == {} && id in active
      modifies this`active, this`finished, this`closed, this`started, this`busy, this`reservations, this`history, kv
      ensures Valid() && busy == {} && (old(closed) ==> closed) && (old(started) ==> started)
      ensures Answered(id, old(active)[id], outcome)
      ensures Yields(if p.eosKnown then p.sampled else None, 0, old(active)[id], outcome)
      ensures quiet ==> TotalWork(active) < old(TotalWork(active))
      ensures Shift(old(Now()), Now(), {id}, quiet)
    {
      hide TablesAgree, Chronicled, Owned, Shift, TotalWork, Sound, Work, Took, Ended;
      Wait(quiet);
      ghost var called := Now();
      AfterWaiting(old(Now()), called, id, quiet);
      outcome := Deliver(id, p.sampled, partial, true, p.eosKnown, quiet);
      ShiftFromWait(old(Now()), called, Now(), id, quiet);
      AnsweredAfterWaiting(id, old(active)[id], called.active[id], outcome);
    }

    /** Prefills the chosen sequences: each is prepared by itself, and those left are prefilled in one
        batch, or chunk by chunk. Each meets the outcome that its own preparation or result calls for;
        for lack of room none fails but those for which the allocator counted a refusal. */
    method RunPrefill(ids: seq<string>, preparations: string -> Preparation, reply: Reply, quiet: bool)
      returns (outcomes: map<string, Outcome>)
      requires Valid() && busy == {} && NoDuplicates(ids) && ids != [] && Present(active, ids, {Queued, Prefill})
      modifies this`active, this`finished, this`closed, this`started, this`busy, this`reservations, this`history, kv
      ensures Valid() && busy == {} && (old(closed) ==> closed) && (old(started) ==> started)
      ensures Shift(old(Now()), Now(), Elements(ids), quiet) && outcomes.Keys == Elements(ids)
      ensures Prefilled(old(active), preparations, reply, chunkSize, outcomes)
      ensures Fated(eos, old(active), Now(), outcomes)
      ensures |Unfit(outcomes)| <= kv.allocationFailures - old(kv.allocationFailures)
      ensures quiet ==> TotalWork(active) < old(TotalWork(active))
    {
      hide TablesAgree, Chronicled, Owned, Shift, TotalWork, Sound, Work, Present, Prefilled, Fated, Replied, Unfit,
           AllKept;
      ghost var first := Now();
      var batch;
      outcomes, batch := PrepareAll(ids, preparations, quiet);
      ghost var prepared := Now();
      if batch == [] {
        EverybodyPrepared(first.active, preparations, reply, chunkSize, outcomes);
        return;
      }
      var results;
      if chunkSize > 0 {
        results := RunPrefillChunks(batch, reply, quiet);
      } else {
        results := RunBatch(batch, {Prefill}, reply, true, quiet);
      }
      FatedEarlier(eos, first.active, prepared.active, Now(), reply, chunkSize, results);
      FatedStays(eos, first.active, prepared, Now(), Elements(batch), outcomes, quiet);
      ShiftGrew(prepared, Now(), Elements(batch), quiet);
      ShiftJoins(first, prepared, Now(), Elements(ids), Elements(batch), quiet);
      assert Elements(ids) + Elements(batch) == Elements(ids);
      ResultsJoin(eos, first.active, Now(), preparations, reply, chunkSize, outcomes, results);
      outcomes := outcomes + results;
    }

    /** Prepares each sequence; those without an outcome are the batch to prefill. */
    method PrepareAll(ids: seq<string>, preparations: string -> Preparation, quiet: bool)
      returns (outcomes: map<string, Outcome>, batch: seq<string>)
      requires Valid() && busy == {} && NoDuplicates(ids) && ids != [] && Present(active, ids, {Queued, Prefill})
      modifies this`active, this`finished, this`closed, this`started, this`busy, this`reservations, this`history, kv
      ensures Valid() && busy == {} && (old(closed) ==> closed) && (old(started) ==> started)
      ensures Shift(old(Now()), Now(), Elements(ids), quiet) && NoDuplicates(batch) && Present(active, batch, {Prefill})
      ensures outcomes.Keys + Elements(batch) == Elements(ids) && outcomes.Keys !! Elements(batch)
      ensures AllKept(old(active), active, Elements(batch)) && Fated(eos, old(active), Now(), outcomes)
      ensures Unprepared(old(active), preparations, Elements(batch)) && Settles(old(active), preparations, outcomes)
      ensures |Unfit(outcomes)| <= kv.allocationFailures - old(kv.allocationFailures)
      ensures quiet ==> TotalWork(active) <= old(TotalWork(active)) - (|ids| - |batch|)
    {
      hide TablesAgree, Chronicled, Owned, Shift, TotalWork, Sound, Work, Present, Ended, Took, Prepares, Preparing,
           Answered, Fate, Fated, AllKept, Unprepared, Settles, Unfit;
      ghost var first := Now();
      outcomes, batch := map[], [];
      assert ids[0..] == ids;
      PresentKnown(active, ids, {Queued, Prefill});
      PreparingBegins(eos, first, ids, preparations, quiet);
      for i := 0 to |ids|
        invariant Valid() && busy == {} && (old(closed) ==> closed) && (old(started) ==> started)
        invariant Preparing(eos, first, Now(), ids, i, preparations, outcomes, batch, quiet)
        invariant Present(active, ids[i..], {Queued, Prefill})
        invariant quiet ==> TotalWork(active) <= old(TotalWork(active)) - (i - |batch|)
      {
        ghost var before := Now();
        PresentSplit(active, ids, {Queued, Prefill}, i);
        var p := preparations(ids[i]);
        var outcome := Prepare(ids[i], p, quiet);
        PresentAfter(before, Now(), ids, {Queued, Prefill}, i, quiet);
        assert ids[i] in Elements(ids);
        ShiftGrew(before, Now(), {ids[i]}, quiet);
        if outcome.None? {
          JoinsBatch(eos, first, before, Now(), ids, i, preparations, outcomes, batch, quiet);
          batch := batch + [ids[i]];
        } else {
          AnsweredIsFate(ids[i], before.active[ids[i]], outcome.value);
          HasOutcome(eos, first, before, Now(), ids, i, preparations, outcomes, batch, outcome.value, quiet);
          outcomes := outcomes[ids[i] := outcome.value];
        }
      }
      PreparingEnds(eos, first, Now(), ids, preparations, outcomes, batch, quiet);
    }

    /** The decode batch: one token for each sequence. */
    method RunDecode(ids: seq<string>, reply: Reply, quiet: bool) returns (outcomes: map<string, Outcome>)
      requires Valid() && busy == {} && NoDuplicates(ids) && ids != [] && Present(active, ids, {Decode})
      modifies this`active, this`finished, this`closed, this`started, this`busy, this`reservations, this`history, kv
      ensures Valid() && busy == {} && (old(closed) ==> closed) && (old(started) ==> started)
      ensures Shift(old(Now()), Now(), Elements(ids), quiet) && outcomes.Keys == Elements(ids)
      ensures Replied(old(active), reply, 0, outcomes) && Fated(eos, old(active), Now(), outcomes)
      ensures quiet ==> TotalWork(active) < old(TotalWork(active))
    {
      hide TablesAgree, Chronicled, Owned, Shift, TotalWork, Present, Replied, Fated;
      outcomes := RunBatch(ids, {Decode}, reply, false, quiet);
    }

    // -------------------------------------------------------------- the scheduler

    /** Ends the cancelled and the late sequences. Whoever was cancelled before is ended as such; of the
        others exactly those are stopped for their deadline whose deadline had come when the clock was
        read for them. */
    method FinishInterrupted(clock: string -> real, quiet: bool)
      requires Valid() && busy == {}
      modifies this`active, this`finished, this`closed, this`started, this`busy, this`reservations, this`history, kv
      ensures Valid() && busy == {} && (old(closed) ==> closed) && (old(started) ==> started)
      ensures Grew(old(history), history) && Sieved(old(active), Now(), {}, clock)
      ensures quiet ==> TotalWork(active) <= old(TotalWork(active)) && active.Keys <= old(active).Keys
    {
      hide TablesAgree, Chronicled, Owned, Shift, Grew, TotalWork, Work, Sound, Ended, Sieved;
      var rest := active.Keys;
      GrewStarts(history);
      SieveStarts(Now(), clock);
      while rest != {}
        invariant Valid() && busy == {} && (old(closed) ==> closed) && (old(started) ==> started)
        invariant Grew(old(history), history) && Sieved(old(active), Now(), rest, clock)
        invariant quiet ==> TotalWork(active) <= old(TotalWork(active)) && active.Keys <= old(active).Keys
        decreases |rest|
      {
        var id :| id in rest;
        ghost var before := Now();
        FinishOne(id, old(active), rest, clock, quiet);
        GrewThenShift(old(history), before, Now(), {id}, quiet);
        ShiftKeys(before, Now(), {id}, quiet);
        rest := rest - {id};
      }
    }

    method FinishOne(id: string, ghost from: Table, ghost rest: set<string>, clock: string -> real, quiet: bool)
      requires Valid() && busy == {} && Sieved(from, Now(), rest, clock)
      modifies this`active, this`finished, this`closed, this`started, this`busy, this`reservations, this`history, kv
      ensures Valid() && busy == {} && (old(closed) ==> closed) && (old(started) ==> started)
      ensures Shift(old(Now()), Now(), {id}, quiet) && Sieved(from, Now(), rest - {id}, clock)
      ensures quiet ==> TotalWork(active) <= old(TotalWork(active))
    {
      hide TablesAgree, Chronicled, Owned, Shift, TotalWork, Work, Sound, Ended, Sieved;
      if id in active {
        SequenceKnown(id);
        var reason := CheckInterruption(id, clock(id));
        if reason.Some? {
          Complete(id, reason.value, quiet);
          SieveStops(from, old(Now()), Now(), rest, id, reason.value, clock, quiet);
          return;
        }
      }
      ShiftStartsTouched(Now(), id, quiet);
      SieveSkips(from, Now(), rest, id, clock);
    }

    ghost predicate OldestFirst(ids: seq<string>)
      reads this`active
      requires forall id :: id in ids ==> id in active
    {
      forall i, j :: 0 <= i < j < |ids| ==> active[ids[i]].serial <= active[ids[j]].serial
    }

    method Oldest(ids: set<string>) returns (oldest: string)
      requires ids != {} && ids <= active.Keys
      ensures oldest in ids && forall id :: id in ids ==> active[oldest].serial <= active[id].serial
    {
      oldest :| oldest in ids;
      var rest := ids - {oldest};
      while rest != {}
        invariant rest <= ids && oldest in ids
        invariant forall id :: id in ids - rest ==> active[oldest].serial <= active[id].serial
        decreases |rest|
      {
        var id :| id in rest;
        if active[id].serial < active[oldest].serial {
          oldest := id;
        }
        rest := rest - {id};
      }
    }

    lemma NobodyListed()
      ensures OldestFirst([]) && NoDuplicates<string>([])
    {}

    lemma ListGrows(ids: seq<string>, id: string)
      requires (forall x :: x in ids ==> x in active) && id in active && id !in ids
      requires OldestFirst(ids) && NoDuplicates(ids)
      requires forall x :: x in ids ==> active[x].serial <= active[id].serial
      ensures OldestFirst(ids + [id]) && NoDuplicates(ids + [id])
    {
      ConcatNoDuplicates(ids, [id]);
    }

    /** The waiting and the running sequences, oldest first. */
    method Sets() returns (waiting: seq<string>, running: seq<string>)
      ensures NoDuplicates(waiting) && NoDuplicates(running)
      ensures forall id :: id in waiting <==> id in active && active[id].phase in {Queued, Prefill}
      ensures forall id :: id in running <==> id in active && active[id].phase == Decode
      ensures OldestFirst(waiting) && OldestFirst(running)
    {
      hide OldestFirst, NoDuplicates;
      waiting, running := [], [];
      var rest := active.Keys;
      NobodyListed();
      while rest != {}
        invariant rest <= active.Keys && NoDuplicates(waiting) && NoDuplicates(running)
        invariant forall id :: id in waiting <==> id in active && id !in rest && active[id].phase in {Queued, Prefill}
        invariant forall id :: id in running <==> id in active && id !in rest && active[id].phase == Decode
        invariant forall id, next :: id in active && id !in rest && next in rest ==>
                    active[id].serial <= active[next].serial
        invariant OldestFirst(waiting) && OldestFirst(running)
        decreases |rest|
      {
        var id := Oldest(rest);
        if active[id].phase in {Queued, Prefill} {
          ListGrows(waiting, id);
          waiting := waiting + [id];
        } else if active[id].phase == Decode {
          ListGrows(running, id);
          running := running + [id];
        }
        rest := rest - {id};
      }
    }

    /** Keeps the decode candidates whose cache is as short as the shortest. */
    method SameLength(ids: seq<string>) returns (compatible: seq<string>)
      requires NoDuplicates(ids) && ids != [] && forall id :: id in ids ==> id in active
      ensures NoDuplicates(compatible) && compatible != [] && forall id :: id in compatible ==> id in ids
      ensures forall id, other :: id in compatible && other in ids ==>
                active[id].cacheTokens <= active[other].cacheTokens
      ensures forall id :: id in ids && id !in compatible ==>
                exists other :: other in ids && active[other].cacheTokens < active[id].cacheTokens
      ensures |compatible| <= |ids|
    {
      var shortest := ids[0];
      for i := 1 to |ids|
        invariant shortest in ids
        invariant forall j :: 0 <= j < i ==> active[shortest].cacheTokens <= active[ids[j]].cacheTokens
      {
        if active[ids[i]].cacheTokens < active[shortest].cacheTokens {
          shortest := ids[i];
        }
      }
      assert forall other :: other in ids ==> active[shortest].cacheTokens <= active[other].cacheTokens;
      compatible := [];
      for i := 0 to |ids|
        invariant NoDuplicates(compatible) && forall id :: id in compatible ==> id in ids[..i]
        invariant forall id :: id in compatible ==> active[id].cacheTokens == active[shortest].cacheTokens
        invariant forall id :: id in ids[..i] && active[id].cacheTokens == active[shortest].cacheTokens ==>
                    id in compatible
        invariant |compatible| <= i
      {
        assert ids[..i + 1] == ids[..i] + [ids[i]];
        if active[ids[i]].cacheTokens == active[shortest].cacheTokens {
          assert ids[i] !in ids[..i];
          ConcatNoDuplicates(compatible, [ids[i]]);
          compatible := compatible + [ids[i]];
        }
      }
      assert ids[..|ids|] == ids;
    }

    /** Picks the next batch, the oldest first; nothing is picked only when nothing is active. A decode
        batch has equal caches, and an older sequence is passed over only if its cache is longer. */
    method Decide() returns (d: Decision)
      requires Valid() && busy == {}
      modifies policy
      ensures NoDuplicates(d.prefill) && Present(active, d.prefill, {Queued, Prefill})
      ensures NoDuplicates(d.decode) && Present(active, d.decode, {Decode})
      ensures d.prefill == [] && d.decode == [] ==> active == map[]
      ensures (d.prefill == [] || d.decode == []) && |d.prefill| <= maxBatch && |d.decode| <= maxBatch
      ensures forall id, other :: id in d.prefill && other in active && other !in d.prefill
                                  && active[other].phase in {Queued, Prefill} ==>
                active[id].serial <= active[other].serial
      ensures forall id, other :: id in d.decode && other in d.decode ==>
                active[id].cacheTokens == active[other].cacheTokens
      ensures forall id, other :: id in d.decode && other in active && other !in d.decode
                                  && active[other].phase == Decode && active[other].serial < active[id].serial ==>
                active[id].cacheTokens < active[other].cacheTokens
    {
      hide Owned, Sound, Choose, OldestFirst, Chronicled, NoDuplicates, TablesAgree;
      var waiting, running := Sets();
      EverybodyListed(waiting, running);
      NobodyLeftOut(waiting, running);
      ChooseIsWorkConserving(policy.name, policy.balancedDecodeTurn, waiting, running, maxBatch);
      d := policy.Select(waiting, running, maxBatch);
      PrefixDistinct(d.prefill, waiting);
      PrefixDistinct(d.decode, running);
      OldestTaken(waiting, d.prefill);
      if d.decode != [] {
        OldestTaken(running, d.decode);
        var compatible := SameLength(d.decode);
        d := Decision([], compatible);
      }
    }

    lemma NobodyLeftOut(waiting: seq<string>, running: seq<string>)
      requires forall id :: id in active ==> id in waiting || id in running
      ensures waiting == [] && running == [] ==> active == map[]
    {
      assert active.Keys == {} ==> active == map[];
    }

    lemma OldestTaken(waiting: seq<string>, part: seq<string>)
      requires part <= waiting && (forall id :: id in waiting ==> id in active) && OldestFirst(waiting)
      ensures forall id, other :: id in part && other in waiting && other !in part ==>
                active[id].serial <= active[other].serial
    {
      forall id, other | id in part && other in waiting && other !in part
        ensures active[id].serial <= active[other].serial
      {
        var i :| 0 <= i < |part| && part[i] == id;
        var j :| 0 <= j < |waiting| && waiting[j] == other;
        assert forall k :: 0 <= k < |part| ==> part[k] == waiting[k];
        assert j >= |part|;
      }
    }

    lemma EverybodyListed(waiting: seq<string>, running: seq<string>)
      requires Valid() && busy == {}
      requires forall id :: id in active && active[id].phase in {Queued, Prefill} ==> id in waiting
      requires forall id :: id in active && active[id].phase == Decode ==> id in running
      ensures forall id :: id in active ==> id in waiting || id in running
    {
      forall id | id in active
        ensures id in waiting || id in running
      {
        SequenceKnown(id);
      }
    }

    /** One turn of the scheduler loop. It falls asleep only with nothing active, and otherwise,
        with no new reservations, work is done: the remaining total strictly decreases. Nobody
        vanishes: whoever was active still is, or has a closed log; and `Turned` says what became of
        each, from the clock readings and the backend's results. */
    method Iterate(inputs: Inputs, quiet: bool)
      returns (asleep: bool, outcomes: map<string, Outcome>)
      requires Valid() && busy == {}
      modifies this`active, this`finished, this`closed, this`started, this`busy, this`reservations, this`history
      modifies kv, policy
      ensures Valid() && busy == {} && (old(closed) ==> closed) && (old(started) ==> started)
      ensures Grew(old(history), history) && NobodyVanished(eos, old(Now()), Now())
      ensures forall id :: id in old(active) && old(active)[id].cancelled ==>
                Stopped(history, id, old(active)[id], CancelledByCaller)
      ensures asleep ==> active == map[]
      ensures Turned(eos, old(active), Now(), inputs, chunkSize, outcomes)
      ensures (asleep <==> outcomes == map[]) && (quiet ==> outcomes.Keys <= old(active).Keys)
      ensures quiet && !asleep ==> TotalWork(active) < old(TotalWork(active))
      ensures quiet && asleep ==> TotalWork(active) <= old(TotalWork(active))
    {
      hide TablesAgree, Chronicled, Owned, Grew, Shift, TotalWork, Present, NobodyVanished, Sieved, Ended, Prefilled,
           Replied, Fated, Turned, Unfit;
      ghost var first, gone := Now(), finished;
      assert Chronicled(eos, first.active, gone, first.history);
      FinishInterrupted(inputs.clock, quiet);
      ghost var cleared := Now();
      var d := Decide();
      asleep := false;
      if d.prefill != [] {
        var batch := d.prefill;
        PresentKnown(active, batch, {Queued, Prefill});
        outcomes := RunPrefill(batch, inputs.preparations, inputs.reply, quiet);
        assert batch[0] in outcomes;
        ShiftGrew(cleared, Now(), Elements(batch), quiet);
        PrefillTurns(eos, first.active, cleared, Now(), batch, inputs, chunkSize, outcomes, quiet);
      } else if d.decode != [] {
        var batch := d.decode;
        PresentKnown(active, batch, {Decode});
        outcomes := RunDecode(batch, inputs.reply, quiet);
        assert batch[0] in outcomes;
        ShiftGrew(cleared, Now(), Elements(batch), quiet);
        DecodeTurns(eos, first.active, cleared, Now(), batch, inputs, chunkSize, outcomes, quiet);
      } else {
        asleep, outcomes := true, map[];
        NobodyTurns(eos, first.active, Now(), inputs, chunkSize, quiet);
        GrewStarts(history);
      }
      GrewJoins(first.history, cleared.history, history);
      ChroniclesTellAll(eos, first, Now(), gone, finished);
      forall id | id in first.active && first.active[id].cancelled
        ensures Stopped(history, id, first.active[id], CancelledByCaller)
      {
        SieveIsFinal(first.active, cleared, history, id, inputs.clock);
      }
    }

    /** Draining: with no new reservations the loop empties the engine and gives back every block,
        whatever the backend, the clock and the cancellations do; every sequence ever reserved then
        has a closed log that extends what it had before. */
    method RunUntilDrained(turns: nat -> Inputs)
      requires Valid() && busy == {}
      modifies this`active, this`finished, this`closed, this`started, this`busy, this`reservations, this`history
      modifies kv, policy
      ensures Valid() && busy == {} && active == map[] && kv.references == map[]
      ensures (old(closed) ==> closed) && (old(started) ==> started)
      ensures Grew(old(history), history) && AllEnded(eos, history)
    {
      hide TablesAgree, Chronicled, Owned, Grew, TotalWork, AllEnded, NobodyVanished;
      GrewStarts(history);
      var turn: nat := 0;
      while active != map[]
        invariant Valid() && busy == {} && (old(closed) ==> closed) && (old(started) ==> started)
        invariant Grew(old(history), history)
        decreases TotalWork(active)
      {
        WorkIsPositive(active);
        ghost var before := history;
        var asleep, _ := Iterate(turns(turn), true);
        turn := turn + 1;
        NoWorkLeft(active);
        GrewJoins(old(history), before, history);
      }
      DrainedUsesNothing();
      NothingActiveAllEnded(eos, finished, history);
    }

    lemma DrainedUsesNothing()
      requires Valid() && active == map[]
      ensures kv.references == map[]
    {
      assert kv.owners == map[];
      BlockAllocator.NothingOwnedNothingUsed(kv.totalBlocks, kv.free, kv.owners, kv.references);
    }

    /** Shutdown: refuses new work, cancels what is active, and lets the scheduler drain; without a
        scheduler task it ends the sequences itself. A second call does nothing. */
    method Shutdown(turns: nat -> Inputs)
      requires Valid() && busy == {}
      modifies this`active, this`finished, this`closed, this`started, this`busy, this`reservations, this`history
      modifies kv, policy
      ensures Valid() && busy == {} && closed && Grew(old(history), history)
      ensures old(closed) ==> active == old(active) && finished == old(finished) && history == old(history)
      ensures !old(closed) ==> active == map[] && kv.references == map[] && AllEnded(eos, history)
      ensures !old(closed) ==> NobodyVanished(eos, old(Now()), Now())
      ensures !old(closed) && !old(started) ==>
                forall id :: id in old(active) ==> Stopped(history, id, old(active)[id], CancelledByCaller)
    {
      hide TablesAgree, Chronicled, Owned, Shift, Grew, TotalWork, AllEnded, NobodyVanished, Ended;
      ghost var first, gone := Now(), finished;
      assert Chronicled(eos, first.active, gone, first.history);
      GrewStarts(history);
      if closed {
        return;
      }
      Close();
      assert forall id :: id in active ==> active[id].cancelled;
      GrewThenShift(old(history), old(Now()), Now(), {}, true);
      ghost var flagged := history;
      if started {
        RunUntilDrained(turns);
      } else {
        CancelAll();
      }
      GrewJoins(old(history), flagged, history);
      ChroniclesTellAll(eos, first, Now(), gone, finished);
    }

    /** Shutdown without a scheduler task: everybody is ended as cancelled. */
    method CancelAll()
      requires Valid() && busy == {} && forall id :: id in active ==> active[id].cancelled
      modifies this`active, this`finished, this`closed, this`started, this`busy, this`reservations, this`history, kv
      ensures Valid() && busy == {} && active == map[] && kv.references == map[] && (old(closed) ==> closed)
      ensures Grew(old(history), history) && AllEnded(eos, history)
      ensures forall id :: id in old(active) ==> Stopped(history, id, old(active)[id], CancelledByCaller)
    {
      hide TablesAgree, Chronicled, Owned, Shift, Grew, TotalWork, Sound, AllEnded, Ended, Sieved;
      var rest := active.Keys;
      GrewStarts(history);
      ghost var clock: string -> real := _ => 0.0;
      SieveStarts(Now(), clock);
      while rest != {}
        invariant Valid() && busy == {} && (old(closed) ==> closed) && active.Keys == rest
        invariant forall id :: id in active ==> active[id].cancelled
        invariant Grew(old(history), history) && Sieved(old(active), Now(), rest, clock)
        decreases |rest|
      {
        var id :| id in rest;
        ghost var before := Now();
        SequenceKnown(id);
        Complete(id, CancelledByCaller, true);
        GrewThenShift(old(history), before, Now(), {id}, true);
        SieveStops(old(active), before, Now(), rest, id, CancelledByCaller, clock, true);
        CancelledStay(before, Now(), {id});
        ShiftKeys(before, Now(), {id}, true);
        rest := rest - {id};
      }
      DrainedUsesNothing();
      NothingActiveAllEnded(eos, finished, history);
      SieveEnds(old(active), Now(), clock);
    }
  }
}
