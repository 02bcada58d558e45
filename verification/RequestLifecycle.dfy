/** The request lifecycle of `serving_platform/domain/models.py`: states and allowed transitions. */
module RequestLifecycle {
  datatype RequestState =
    | Received | Validated | Admitted | Queued | Assigned | Prefill | Decode | Running | Streaming
    | Completed | Rejected | TimedOut | Cancelled | Failed

  predicate Terminal(s: RequestState) {
    s in {Completed, Rejected, TimedOut, Cancelled, Failed}
  }

  function Allowed(s: RequestState): set<RequestState> {
    match s
    case Received => {Validated, Rejected, Cancelled}
    case Validated => {Admitted, Rejected, TimedOut, Cancelled}
    case Admitted => {Queued, Assigned, Rejected, TimedOut, Cancelled}
    case Queued => {Assigned, Prefill, Running, Rejected, TimedOut, Cancelled, Failed}
    case Assigned => {Queued, Prefill, Running, TimedOut, Cancelled, Failed}
    case Running => {Streaming, Completed, TimedOut, Cancelled, Failed}
    case Prefill => {Decode, Completed, TimedOut, Cancelled, Failed}
    case Decode => {Completed, TimedOut, Cancelled, Failed}
    case Streaming => {Completed, TimedOut, Cancelled, Failed}
    case _ => {}
  }

  /** The same transitions by where they lead: which states allow each one. */
  lemma AllowedByTarget(s: RequestState)
    ensures Terminal(s) <==> Allowed(s) == {}
    ensures Cancelled in Allowed(s) <==> !Terminal(s)
    ensures TimedOut in Allowed(s) <==> !Terminal(s) && s != Received
    ensures Failed in Allowed(s) <==> s in {Queued, Assigned, Prefill, Decode, Running, Streaming}
    ensures Completed in Allowed(s) <==> s in {Prefill, Decode, Running, Streaming}
    ensures Rejected in Allowed(s) <==> s in {Received, Validated, Admitted, Queued}
    ensures Received !in Allowed(s) && (Validated in Allowed(s) <==> s == Received)
    ensures Admitted in Allowed(s) <==> s == Validated
    ensures Queued in Allowed(s) <==> s in {Admitted, Assigned}
    ensures Assigned in Allowed(s) <==> s in {Admitted, Queued}
    ensures Prefill in Allowed(s) <==> s in {Queued, Assigned}
    ensures Running in Allowed(s) <==> s in {Queued, Assigned}
    ensures Decode in Allowed(s) <==> s == Prefill
    ensures Streaming in Allowed(s) <==> s == Running
  {
    assert Cancelled in Allowed(s) <==> !Terminal(s);
  }

  /** A chain of states in which every step is an allowed transition. */
  ghost predicate Chain(states: seq<RequestState>) {
    forall i :: 0 < i < |states| ==> states[i] in Allowed(states[i - 1])
  }

  /** Steps left before a request must be terminal; the two-way edge between Queued and
      Assigned (a rejected handoff) is the only cycle. */
  ghost function Phase(s: RequestState): nat {
    match s
    case Received => 0
    case Validated => 1
    case Admitted => 2
    case Queued => 3
    case Assigned => 3
    case Prefill => 4
    case Running => 4
    case Decode => 5
    case Streaming => 5
    case _ => 6
  }

  /** Terminal is for ever, and once execution began a request can never be queued again. */
  lemma {:induction false} LifecycleIsOneWay(states: seq<RequestState>, i: nat, j: nat)
    requires Chain(states) && i <= j < |states|
    ensures Phase(states[i]) <= Phase(states[j])
    ensures Terminal(states[i]) ==> i == j
    ensures states[i] in {Running, Prefill, Decode, Streaming} ==> states[j] !in {Queued, Assigned, Admitted}
    ensures i < j && Phase(states[i]) == Phase(states[j]) ==> states[i] in {Queued, Assigned}
    decreases j - i
  {
    if i < j {
      assert states[i + 1] in Allowed(states[i]);
      LifecycleIsOneWay(states, i + 1, j);
    }
  }
}
