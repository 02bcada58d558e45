/** The prefill/decode policies of `inference/token_scheduling.py`. */
module TokenScheduling {
  datatype PolicyName = PrefillFirst | DecodeFirst | Balanced

  /** At most one of the two lists is non-empty. */
  datatype Decision = Decision(prefill: seq<string>, decode: seq<string>)

  function FirstOf(ids: seq<string>, limit: nat): seq<string> {
    if |ids| > limit then ids[..limit] else ids
  }

  /** The decision and the next value of the balanced policy's turn bit. */
  function Choose(name: PolicyName, turn: bool, waiting: seq<string>, running: seq<string>, limit: nat)
    : (Decision, bool)
  {
    var w, r := FirstOf(waiting, limit), FirstOf(running, limit);
    match name
    case PrefillFirst => (if w != [] then Decision(w, []) else Decision([], r), turn)
    case DecodeFirst => (if r != [] then Decision([], r) else Decision(w, []), turn)
    case Balanced =>
      (if !turn && r != [] then Decision([], r) else if w != [] then Decision(w, []) else Decision([], r), !turn)
  }

  class PrefillDecodePolicy {
    const name: PolicyName
    var balancedDecodeTurn: bool

    constructor (name: PolicyName)
      ensures this.name == name && !balancedDecodeTurn
    {
      this.name, balancedDecodeTurn := name, false;
    }

    method Select(waiting: seq<string>, running: seq<string>, limit: nat) returns (d: Decision)
      modifies this
      ensures (d, balancedDecodeTurn) == Choose(name, old(balancedDecodeTurn), waiting, running, limit)
    {
      var waitingIds, runningIds := FirstOf(waiting, limit), FirstOf(running, limit);
      if name == PrefillFirst {
        return if waitingIds != [] then Decision(waitingIds, []) else Decision([], runningIds);
      }
      if name == DecodeFirst {
        return if runningIds != [] then Decision([], runningIds) else Decision(waitingIds, []);
      }
      balancedDecodeTurn := !balancedDecodeTurn;
      if balancedDecodeTurn && runningIds != [] {
        return Decision([], runningIds);
      }
      if waitingIds != [] {
        return Decision(waitingIds, []);
      }
      d := Decision([], runningIds);
    }
  }

  /** Every policy is work-conserving and never mixes the two kinds of work: something is chosen
      whenever there is anything to choose, from one list only, and as much of it as the limit
      allows; the two fixed policies keep their preference, and the balanced one takes turns, whether
      or not there was anything to choose for the turn. */
  lemma ChooseIsWorkConserving(name: PolicyName, turn: bool, waiting: seq<string>, running: seq<string>, limit: nat)
    requires limit > 0
    ensures var (d, next) := Choose(name, turn, waiting, running, limit);
            && (d.prefill == [] || d.decode == [])
            && (d.prefill == [] && d.decode == [] <==> waiting == [] && running == [])
            && d.prefill <= waiting && d.decode <= running
            && (d.prefill != [] ==> |d.prefill| == |waiting| || |d.prefill| == limit)
            && (d.decode != [] ==> |d.decode| == |running| || |d.decode| == limit)
            && |d.prefill| <= limit && |d.decode| <= limit
            && (name == PrefillFirst && waiting != [] ==> d.prefill != [])
            && (name == DecodeFirst && running != [] ==> d.decode != [])
            && (name == Balanced && !turn && running != [] ==> d.decode != [])
            && (name == Balanced && turn && waiting != [] ==> d.prefill != [])
            && next == if name == Balanced then !turn else turn
  {
    assert forall ids: seq<string> {:trigger FirstOf(ids, limit)} :: FirstOf(ids, limit) <= ids;
  }

  /** One call's inputs. */
  datatype Call = Call(waiting: seq<string>, running: seq<string>)

  /** Decode decisions minus prefill decisions over a series of calls. */
  ghost function DecodeLead(name: PolicyName, turn: bool, calls: seq<Call>, limit: nat): int
    decreases calls
  {
    if calls == [] then 0
    else
      var (d, next) := Choose(name, turn, calls[0].waiting, calls[0].running, limit);
      (if d.decode != [] then 1 else 0) - (if d.prefill != [] then 1 else 0)
      + DecodeLead(name, next, calls[1..], limit)
  }

  /** Under steady load the balanced policy alternates strictly, decode first. */
  lemma {:induction false} BalancedAlternates(turn: bool, calls: seq<Call>, limit: nat)
    requires limit > 0 && forall c :: c in calls ==> c.waiting != [] && c.running != []
    ensures DecodeLead(Balanced, turn, calls, limit)
         == if |calls| % 2 == 0 then 0 else if turn then -1 else 1
    decreases calls
  {
    if calls != [] {
      assert calls[0] in calls;
      BalancedAlternates(!turn, calls[1..], limit);
    }
  }
}
