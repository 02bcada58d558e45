/**
 The fixed-block allocator of `inference/kv_cache.py`: a LIFO stack of free blocks, one block
 table per owner, and a reference count per allocated block.
 */
module BlockAllocator {
  import opened Arithmetic
  import opened Wrappers
  import opened Sequences

  datatype AllocatorError =
    | InvalidArgument
    | OwnerExists
    | UnknownOwner
    | UnallocatedBlock
    | SharedTable
    | OutOfBlocks

  type Tables = map<string, seq<nat>>

  /** The owners whose table lists block `b`. */
  ghost function Owning(owners: Tables, b: nat): set<string> {
    set id | id in owners && b in owners[id]
  }

  /** Free and allocated blocks partition `0..total`. */
  ghost predicate Partitioned(total: nat, free: seq<nat>, references: map<nat, nat>) {
    && NoDuplicates(free)
    && (forall b :: b in free ==> b < total && b !in references)
    && (forall b :: b in references ==> b < total)
    && (forall b: nat :: b < total ==> b in free || b in references)
  }

  /** Tables hold no block twice, and counts equal the number of owning tables. */
  ghost predicate Counted(owners: Tables, references: map<nat, nat>) {
    && (forall id :: id in owners ==> NoDuplicates(owners[id]))
    && (forall id, b :: id in owners && b in owners[id] ==> b in references)
    && (forall b :: b in references ==> references[b] > 0)
    && (forall b {:trigger Owning(owners, b)} :: b in references ==> references[b] == |Owning(owners, b)|)
  }

  /** What the allocator's own self-check demands. */
  ghost predicate Consistent(total: nat, free: seq<nat>, owners: Tables, references: map<nat, nat>) {
    Partitioned(total, free, references) && Counted(owners, references)
  }

  /** The `n` blocks that popping the stack yields, in order. */
  function Top(free: seq<nat>, n: nat): seq<nat>
    requires n <= |free|
  {
    seq(n, i requires 0 <= i < n => free[|free| - 1 - i])
  }

  /** The blocks of a table that no other table references, in table order. */
  function Unshared(blocks: seq<nat>, references: map<nat, nat>): seq<nat> {
    if blocks == [] then []
    else
      var last := blocks[|blocks| - 1];
      Unshared(blocks[..|blocks| - 1], references)
      + (if last in references && references[last] == 1 then [last] else [])
  }

  /** Blocks needed for a token count, rounded up exactly. */
  function CeilDiv(tokens: nat, size: nat): nat
    requires size > 0
  {
    (tokens + size - 1) / size
  }

  /** `CeilDiv` is the least number of blocks that holds the tokens. */
  lemma CeilDivIsLeast(tokens: nat, size: nat, blocks: nat)
    requires size > 0
    ensures CeilDiv(tokens, size) <= blocks <==> tokens <= blocks * size
  {
    var least := CeilDiv(tokens, size);
    if least <= blocks {
      MulMonotone(least, blocks, size);
    } else {
      MulMonotone(blocks + 1, least, size);
    }
  }

  /** Popping in two goes yields the same blocks in the same order, each from the end of the stack. */
  lemma TopIsStack(free: seq<nat>, m: nat, n: nat)
    requires m + n <= |free|
    ensures Top(free, m + n) == Top(free, m) + Top(free[..|free| - m], n)
    ensures m == 1 ==> Top(free, m) == [free[|free| - 1]]
  {
    var rest := free[..|free| - m];
    forall k | 0 <= k < n
      ensures Top(free, m + n)[m + k] == Top(rest, n)[k]
    {
      assert rest[|rest| - 1 - k] == free[|free| - 1 - (m + k)];
    }
  }

  /** The blocks that go back keep the order of their table. */
  lemma {:induction false} UnsharedInOrder(a: seq<nat>, b: seq<nat>, references: map<nat, nat>)
    ensures Unshared(a + b, references) == Unshared(a, references) + Unshared(b, references)
    ensures |b| == 1 ==>
              Unshared(b, references) == if b[0] in references && references[b[0]] == 1 then b else []
  {
    hide Unshared;
    UnsharedLast([], 0, references);
    if b == [] {
      assert a + b == a;
    } else {
      var init, last := b[..|b| - 1], b[|b| - 1];
      UnsharedInOrder(a, init, references);
      UnsharedLast(init, last, references);
      UnsharedLast(a + init, last, references);
      assert a + b == (a + init) + [last] && b == init + [last];
    }
  }

  lemma UnsharedLast(init: seq<nat>, last: nat, references: map<nat, nat>)
    ensures Unshared([], references) == []
    ensures Unshared(init + [last], references) ==
              Unshared(init, references) + if last in references && references[last] == 1 then [last] else []
  {
    assert (init + [last])[..|init|] == init;
  }

  // ---------------------------------------------------------------- set facts

  lemma OwningAfterInsert(owners: Tables, id: string, blocks: seq<nat>, b: nat)
    requires id !in owners
    ensures Owning(owners[id := blocks], b)
         == Owning(owners, b) + (if b in blocks then {id} else {})
    ensures id !in Owning(owners, b)
  {
    var after := owners[id := blocks];
    forall o ensures o in Owning(after, b) <==> o in Owning(owners, b) || (o == id && b in blocks) {}
  }

  lemma OwningAfterRemove(owners: Tables, id: string, b: nat)
    requires id in owners
    ensures Owning(owners - {id}, b) == Owning(owners, b) - {id}
    ensures id in Owning(owners, b) <==> b in owners[id]
  {}

  lemma UnsharedMembers(blocks: seq<nat>, references: map<nat, nat>)
    requires NoDuplicates(blocks)
    ensures NoDuplicates(Unshared(blocks, references))
    ensures forall b :: b in Unshared(blocks, references) <==>
                        b in blocks && b in references && references[b] == 1
  {
    if blocks != [] {
      var init, last := blocks[..|blocks| - 1], blocks[|blocks| - 1];
      UnsharedMembers(init, references);
      assert blocks == init + [last];
    }
  }

  lemma TopMembers(free: seq<nat>, n: nat)
    requires n <= |free| && NoDuplicates(free)
    ensures NoDuplicates(Top(free, n))
    ensures forall b :: b in free <==> b in free[..|free| - n] || b in Top(free, n)
    ensures forall b :: b in Top(free, n) ==> b !in free[..|free| - n]
  {
    forall b | b in free
      ensures b in free[..|free| - n] || b in Top(free, n)
    {
      var i :| 0 <= i < |free| && free[i] == b;
      if i >= |free| - n {
        assert Top(free, n)[|free| - 1 - i] == b;
      } else {
        assert free[..|free| - n][i] == b;
      }
    }
  }

  ghost function Range(n: nat): (r: set<nat>)
    ensures forall b: nat :: b in r <==> b < n
    ensures |r| == n
  {
    if n == 0 then {} else Range(n - 1) + {n - 1}
  }

  /** Conservation: every block is free or in use, so the two counts add up to the capacity. */
  lemma FreePlusUsed(total: nat, free: seq<nat>, owners: Tables, references: map<nat, nat>)
    requires Consistent(total, free, owners, references)
    ensures |free| + |references| == total
  {
    var stack := Elements(free);
    DistinctCount(free);
    assert Range(total) == stack + references.Keys;
    assert stack !! references.Keys;
  }

  lemma OwnerOf(total: nat, free: seq<nat>, owners: Tables, references: map<nat, nat>, b: nat) returns (id: string)
    requires Consistent(total, free, owners, references) && b in references
    ensures id in owners && b in owners[id]
  {
    assert Owning(owners, b) != {};
    id :| id in Owning(owners, b);
  }

  lemma OwningCounts(total: nat, free: seq<nat>, owners: Tables, references: map<nat, nat>, b: nat)
    requires Consistent(total, free, owners, references)
    ensures b in references ==> references[b] == |Owning(owners, b)|
  {}

  /** The tables determine everything else: which blocks are in use, how often, and which are
      free. So an allocation that is released again leaves no trace but the order of the stack. */
  lemma OwnersDetermine(total: nat, owners: Tables, free: seq<nat>, references: map<nat, nat>,
                        free': seq<nat>, references': map<nat, nat>)
    requires Consistent(total, free, owners, references) && Consistent(total, free', owners, references')
    ensures references == references' && Elements(free) == Elements(free') && |free| == |free'|
  {
    forall b | b in references || b in references'
      ensures b in references && b in references' && references[b] == references'[b]
    {
      if b in references {
        var id := OwnerOf(total, free, owners, references, b);
      } else {
        var id := OwnerOf(total, free', owners, references', b);
      }
      OwningCounts(total, free, owners, references, b);
      OwningCounts(total, free', owners, references', b);
    }
    assert forall b: nat :: b < total ==> (b in free <==> b !in references);
    assert forall b: nat :: b < total ==> (b in free' <==> b !in references');
    FreePlusUsed(total, free, owners, references);
    FreePlusUsed(total, free', owners, references');
  }

  lemma NothingOwnedNothingUsed(total: nat, free: seq<nat>, owners: Tables, references: map<nat, nat>)
    requires Consistent(total, free, owners, references) && owners == map[]
    ensures references == map[] && |free| == total
  {
    if references != map[] {
      var b :| b in references;
      var id := OwnerOf(total, free, owners, references, b);
    }
    FreePlusUsed(total, free, owners, references);
  }

  // ---------------------------------------------------------------- the four operations keep consistency

  /** Popping blocks off the stack and giving each a count keeps the partition. */
  lemma PopKeepsPartition(total: nat, free: seq<nat>, references: map<nat, nat>, n: nat, after: map<nat, nat>)
    requires Partitioned(total, free, references) && n <= |free|
    requires after.Keys == references.Keys + Elements(Top(free, n))
    ensures Partitioned(total, free[..|free| - n], after)
  {
    TopMembers(free, n);
    var left := free[..|free| - n];
    forall b | b in left
      ensures b < total && b !in after
    {
      assert b in free;
    }
    forall b | b in after
      ensures b < total
    {
      assert b in references || b in free;
    }
    forall b: nat | b < total
      ensures b in left || b in after
    {
      assert b in free || b in references;
    }
  }

  lemma AllocateKeepsConsistent(total: nat, free: seq<nat>, owners: Tables, references: map<nat, nat>,
                                id: string, n: nat, after: map<nat, nat>)
    requires Consistent(total, free, owners, references)
    requires id !in owners && n <= |free|
    requires after.Keys == references.Keys + Elements(Top(free, n))
    requires forall b :: b in after ==> after[b] == if b in Top(free, n) then 1 else references[b]
    ensures Consistent(total, free[..|free| - n], owners[id := Top(free, n)], after)
  {
    var blocks := Top(free, n);
    TopMembers(free, n);
    PopKeepsPartition(total, free, references, n, after);
    forall b | b in after
      ensures after[b] == |Owning(owners[id := blocks], b)| > 0
    {
      OwningAfterInsert(owners, id, blocks, b);
      if b in blocks {
        assert Owning(owners, b) == {};
      }
    }
  }

  lemma RetainKeepsConsistent(total: nat, free: seq<nat>, owners: Tables, references: map<nat, nat>,
                              id: string, blocks: seq<nat>, after: map<nat, nat>)
    requires Consistent(total, free, owners, references)
    requires id !in owners && NoDuplicates(blocks) && forall b :: b in blocks ==> b in references
    requires after.Keys == references.Keys
    requires forall b :: b in after ==> after[b] == references[b] + if b in blocks then 1 else 0
    ensures Consistent(total, free, owners[id := blocks], after)
  {
    forall b | b in after
      ensures after[b] == |Owning(owners[id := blocks], b)| > 0
    {
      OwningAfterInsert(owners, id, blocks, b);
    }
  }

  /** Pushing blocks back onto the stack and dropping their counts keeps the partition. */
  lemma PushKeepsPartition(total: nat, free: seq<nat>, references: map<nat, nat>, freed: seq<nat>, after: map<nat, nat>)
    requires Partitioned(total, free, references) && NoDuplicates(freed)
    requires forall b :: b in freed ==> b in references
    requires after.Keys == references.Keys - Elements(freed)
    ensures Partitioned(total, free + freed, after)
  {
    ConcatNoDuplicates(free, freed);
  }

  lemma ReleaseKeepsConsistent(total: nat, free: seq<nat>, owners: Tables, references: map<nat, nat>,
                               id: string, after: map<nat, nat>)
    requires Consistent(total, free, owners, references) && id in owners
    requires after.Keys == references.Keys - Elements(Unshared(owners[id], references))
    requires forall b :: b in after ==> after[b] == references[b] - if b in owners[id] then 1 else 0
    ensures Consistent(total, free + Unshared(owners[id], references), owners - {id}, after)
  {
    hide Partitioned, Unshared, Owning;
    var freed := Unshared(owners[id], references);
    UnsharedMembers(owners[id], references);
    PushKeepsPartition(total, free, references, freed, after);
    forall b | b in references
      ensures |Owning(owners - {id}, b)| == references[b] - if b in owners[id] then 1 else 0
    {
      OwningAfterRemove(owners, id, b);
    }
    forall o, b | o in owners - {id} && b in (owners - {id})[o]
      ensures b in after
    {
      OwningMember(owners - {id}, o, b);
      OwningAfterRemove(owners, id, b);
    }
  }

  lemma OwningMember(owners: Tables, id: string, b: nat)
    requires id in owners && b in owners[id]
    ensures id in Owning(owners, b) && |Owning(owners, b)| > 0
  {}

  /** An exclusive table can be cut back; the blocks cut off become free. */
  lemma ShrinkKeepsConsistent(total: nat, free: seq<nat>, owners: Tables, references: map<nat, nat>,
                              id: string, keep: nat, after: map<nat, nat>)
    requires Consistent(total, free, owners, references) && id in owners && keep <= |owners[id]|
    requires forall b :: b in owners[id] ==> b in references && references[b] == 1
    requires after == references - Elements(owners[id][keep..])
    ensures Consistent(total, free + owners[id][keep..], owners[id := owners[id][..keep]], after)
  {
    var blocks := owners[id];
    var cut := blocks[keep..];
    var owners' := owners[id := blocks[..keep]];
    assert blocks == blocks[..keep] + cut;
    forall b | b in references
      ensures Owning(owners', b) == Owning(owners, b) - if b in cut then {id} else {}
    {
      assert b in cut ==> b !in blocks[..keep];
    }
    forall b | b in blocks
      ensures Owning(owners, b) == {id}
    {
      assert id in Owning(owners, b);
      Singleton(Owning(owners, b), id);
    }
    forall o, b | o in owners' && b in owners'[o]
      ensures b in after
    {
      assert o in Owning(owners', b);
      assert b in references;
    }
    PushKeepsPartition(total, free, references, cut, after);
  }

  lemma Singleton<T>(s: set<T>, x: T)
    requires x in s && |s| == 1
    ensures s == {x}
  {
    assert |s - {x}| == 0;
  }

  /** No block is in two tables. */
  ghost predicate Exclusive(owners: Tables) {
    forall o, p, b :: o in owners && p in owners && b in owners[o] && b in owners[p] ==> o == p
  }

  lemma ExclusiveCounts(total: nat, free: seq<nat>, owners: Tables, references: map<nat, nat>, id: string)
    requires Consistent(total, free, owners, references) && Exclusive(owners) && id in owners
    ensures forall b :: b in owners[id] ==> b in references && references[b] == 1
  {
    forall b | b in owners[id]
      ensures b in references && references[b] == 1
    {
      assert Owning(owners, b) == {id};
      OwningCounts(total, free, owners, references, b);
    }
  }

  /** Tables made of an owner's own and of free blocks stay exclusive. */
  lemma ExclusiveStays(total: nat, free: seq<nat>, owners: Tables, references: map<nat, nat>, id: string,
                       table: seq<nat>)
    requires Consistent(total, free, owners, references) && Exclusive(owners)
    requires forall b :: b in table ==> b in free || (id in owners && b in owners[id])
    ensures Exclusive(owners[id := table])
  {}

  /** An exclusive table can be extended from the top of the free stack. */
  lemma GrowKeepsConsistent(total: nat, free: seq<nat>, owners: Tables, references: map<nat, nat>,
                            id: string, n: nat, after: map<nat, nat>)
    requires Consistent(total, free, owners, references) && id in owners && n <= |free|
    requires after.Keys == references.Keys + Elements(Top(free, n))
    requires forall b :: b in after ==> after[b] == if b in Top(free, n) then 1 else references[b]
    ensures Consistent(total, free[..|free| - n], owners[id := owners[id] + Top(free, n)], after)
  {
    var more := Top(free, n);
    var owners' := owners[id := owners[id] + more];
    TopMembers(free, n);
    PopKeepsPartition(total, free, references, n, after);
    forall b | b in after
      ensures after[b] == |Owning(owners', b)| > 0
    {
      if b in more {
        assert Owning(owners, b) == {};
        assert Owning(owners', b) == {id};
      } else {
        assert Owning(owners', b) == Owning(owners, b);
      }
    }
    ConcatNoDuplicates(owners[id], more);
  }

  // ---------------------------------------------------------------- watermark hysteresis

  /** The allocator's watermarks, as fractions of its capacity. */
  datatype Watermarks = Watermarks(total: nat, low: real, high: real) {
    ghost predicate Valid() {
      total > 0 && 0.0 < low < high <= 1.0
    }

    function Utilisation(used: nat): real
      requires total > 0
    {
      used as real / total as real
    }
  }

  /** The pressure flag after a history of used-block counts, one per update. */
  ghost function PressureAfter(marks: Watermarks, samples: seq<nat>): bool
    requires marks.Valid()
  {
    if samples == [] then false
    else
      var before, u := PressureAfter(marks, samples[..|samples| - 1]), marks.Utilisation(samples[|samples| - 1]);
      if !before && u >= marks.high then true
      else if before && u <= marks.low then false
      else before
  }

  /** So many used blocks are at least this share of all, without division. */
  ghost predicate Reaches(used: nat, share: real, total: nat) {
    used as real >= share * total as real
  }

  ghost predicate FallsTo(used: nat, share: real, total: nat) {
    used as real <= share * total as real
  }

  /** Sample `i` reached the high mark's share of all blocks and none since has fallen to the low mark's. */
  ghost predicate RaisedAt(marks: Watermarks, samples: seq<nat>, i: nat) {
    && i < |samples| && Reaches(samples[i], marks.high, marks.total)
    && forall j :: i < j < |samples| ==> !FallsTo(samples[j], marks.low, marks.total)
  }

  lemma UtilisationShares(marks: Watermarks, used: nat, mark: real)
    requires marks.total > 0
    ensures marks.Utilisation(used) >= mark <==> Reaches(used, mark, marks.total)
    ensures marks.Utilisation(used) <= mark <==> FallsTo(used, mark, marks.total)
  {
    var u, t := marks.Utilisation(used), marks.total as real;
    assert u * t == used as real;
    assert (u - mark) * t == used as real - mark * t;
    if u > mark {
      assert (u - mark) * t > 0.0;
    } else if u < mark {
      assert (mark - u) * t > 0.0;
    }
  }

  /** The flag is up exactly when some sample reached the high mark and no later one fell to
      the low mark: inside the band it never flaps. */
  lemma {:induction false} PressureMeaning(marks: Watermarks, samples: seq<nat>)
    requires marks.Valid()
    ensures PressureAfter(marks, samples) <==> exists i: nat :: RaisedAt(marks, samples, i)
  {
    hide Reaches, FallsTo;
    if samples != [] {
      var init, last := samples[..|samples| - 1], samples[|samples| - 1];
      PressureMeaning(marks, init);
      UtilisationShares(marks, last, marks.high);
      UtilisationShares(marks, last, marks.low);
      if PressureAfter(marks, samples) {
        if marks.Utilisation(last) >= marks.high {
          assert RaisedAt(marks, samples, |samples| - 1);
        } else {
          var i: nat :| RaisedAt(marks, init, i);
          assert RaisedAt(marks, samples, i);
        }
      }
      forall i: nat | RaisedAt(marks, samples, i)
        ensures PressureAfter(marks, samples)
      {
        if i < |init| {
          assert RaisedAt(marks, init, i);
        }
      }
    }
  }

  // ---------------------------------------------------------------- the allocator object

  class KVBlockAllocator {
    const totalBlocks: nat
    const blockSize: nat
    const marks: Watermarks
    var free: seq<nat>
    var owners: Tables
    var references: map<nat, nat>
    var allocationFailures: nat
    var pressure: bool
    /** Used-block counts at every pressure update so far. */
    ghost var samples: seq<nat>

    ghost predicate Valid()
      reads this
    {
      && blockSize > 0 && marks.Valid() && marks.total == totalBlocks
      && Consistent(totalBlocks, free, owners, references)
      && pressure == PressureAfter(marks, samples)
    }

    constructor (totalBlocks: nat, blockSize: nat, high: real, low: real)
      requires totalBlocks > 0 && blockSize > 0 && 0.0 < low < high <= 1.0
      ensures Valid() && owners == map[] && samples == [] && allocationFailures == 0
      ensures this.totalBlocks == totalBlocks && this.blockSize == blockSize
      ensures marks == Watermarks(totalBlocks, low, high)
      ensures free == seq(totalBlocks, i => totalBlocks - 1 - i)
    {
      this.totalBlocks, this.blockSize := totalBlocks, blockSize;
      marks := Watermarks(totalBlocks, low, high);
      free := seq(totalBlocks, i => totalBlocks - 1 - i);
      owners, references := map[], map[];
      allocationFailures, pressure, samples := 0, false, [];
      new;
      forall b: nat | b < totalBlocks ensures b in free {
        assert free[totalBlocks - 1 - b] == b;
      }
    }

    method UpdatePressure()
      requires marks.Valid() && pressure == PressureAfter(marks, samples)
      modifies this`pressure, this`samples
      ensures samples == old(samples) + [|references|]
      ensures pressure == PressureAfter(marks, samples)
    {
      var utilisation := marks.Utilisation(|references|);
      samples := samples + [|references|];
      assert samples[..|samples| - 1] == old(samples);
      if !pressure && utilisation >= marks.high {
        pressure := true;
      } else if pressure && utilisation <= marks.low {
        pressure := false;
      }
    }

    method PopBlocks(n: nat) returns (blocks: seq<nat>)
      requires n <= |free|
      modifies this`free
      ensures blocks == Top(old(free), n)
      ensures free == old(free)[..|old(free)| - n]
    {
      blocks := [];
      while |blocks| < n
        invariant |blocks| <= n
        invariant blocks == Top(old(free), |blocks|)
        invariant free == old(free)[..|old(free)| - |blocks|]
      {
        blocks := blocks + [free[|free| - 1]];
        free := free[..|free| - 1];
      }
    }

    /** Gives every listed block a fresh count of one. */
    method CountOnce(blocks: seq<nat>)
      modifies this`references
      ensures references.Keys == old(references).Keys + Elements(blocks)
      ensures forall b :: b in references ==>
                references[b] == if b in blocks then 1 else old(references)[b]
    {
      for i := 0 to |blocks|
        invariant references.Keys == old(references).Keys + Elements(blocks[..i])
        invariant forall b :: b in references ==>
                    references[b] == if b in blocks[..i] then 1 else old(references)[b]
      {
        references := references[blocks[i] := 1];
        assert blocks[..i + 1] == blocks[..i] + [blocks[i]];
      }
      assert blocks[..|blocks|] == blocks;
    }

    /** Reserves blocks for a new owner, or changes no ownership at all. */
    method Allocate(owner: string, tokenCapacity: int) returns (r: Result<seq<nat>, AllocatorError>)
      requires Valid()
      modifies this
      ensures Valid()
      ensures r == (
          if owner == "" || tokenCapacity < 0 then Failure(InvalidArgument)
          else if owner in old(owners) then Failure(OwnerExists)
          else if CeilDiv(tokenCapacity, blockSize) > |old(free)| then Failure(OutOfBlocks)
          else Success(Top(old(free), CeilDiv(tokenCapacity, blockSize))))
      ensures r.Success? ==> owners == old(owners)[owner := r.value]
      ensures r.Success? ==> free == old(free)[..|old(free)| - |r.value|]
      ensures r.Failure? ==> owners == old(owners) && free == old(free) && references == old(references)
      ensures allocationFailures == old(allocationFailures) + if r == Failure(OutOfBlocks) then 1 else 0
      ensures samples == old(samples)
                + (if r.Success? || r.error.OutOfBlocks? then [|references|] else [])
    {
      if owner == "" || tokenCapacity < 0 {
        return Failure(InvalidArgument);
      }
      var required := CeilDiv(tokenCapacity, blockSize);
      if owner in owners {
        return Failure(OwnerExists);
      }
      if required > |free| {
        allocationFailures := allocationFailures + 1;
        UpdatePressure();
        return Failure(OutOfBlocks);
      }
      var blocks := ReserveTable(owner, required);
      UpdatePressure();
      r := Success(blocks);
    }

    method ReserveTable(owner: string, required: nat) returns (blocks: seq<nat>)
      requires Consistent(totalBlocks, free, owners, references)
      requires owner !in owners && required <= |free|
      modifies this`free, this`references, this`owners
      ensures Consistent(totalBlocks, free, owners, references)
      ensures blocks == Top(old(free), required)
      ensures owners == old(owners)[owner := blocks]
      ensures free == old(free)[..|old(free)| - required]
    {
      blocks := PopBlocks(required);
      owners := owners[owner := blocks];
      CountOnce(blocks);
      AllocateKeepsConsistent(totalBlocks, old(free), old(owners), old(references), owner, required, references);
    }

    method AddReferences(blocks: seq<nat>)
      requires NoDuplicates(blocks) && forall b :: b in blocks ==> b in references
      modifies this`references
      ensures references.Keys == old(references).Keys
      ensures forall b :: b in references ==>
                references[b] == old(references)[b] + if b in blocks then 1 else 0
    {
      for i := 0 to |blocks|
        invariant references.Keys == old(references).Keys
        invariant forall b :: b in references ==>
                    references[b] == old(references)[b] + if b in blocks[..i] then 1 else 0
      {
        assert blocks[i] !in blocks[..i];
        references := references[blocks[i] := references[blocks[i]] + 1];
        assert blocks[..i + 1] == blocks[..i] + [blocks[i]];
      }
      assert blocks[..|blocks|] == blocks;
    }

    /** Attaches already allocated blocks to a second owner. */
    method Retain(owner: string, blocks: seq<nat>) returns (r: Result<(), AllocatorError>)
      requires Valid()
      modifies this
      ensures Valid()
      ensures r == (
          if owner == "" || blocks == [] || !NoDuplicates(blocks) then Failure(InvalidArgument)
          else if owner in old(owners) then Failure(OwnerExists)
          else if exists b :: b in blocks && b !in old(references) then Failure(UnallocatedBlock)
          else Success(()))
      ensures free == old(free) && allocationFailures == old(allocationFailures)
      ensures owners == if r.Success? then old(owners)[owner := blocks] else old(owners)
      ensures r.Failure? ==> references == old(references)
      ensures samples == old(samples)
                + (if r.Success? then [|references|] else [])
    {
      if owner == "" || blocks == [] {
        return Failure(InvalidArgument);
      }
      DistinctCount(blocks);
      if |blocks| != |Elements(blocks)| {
        return Failure(InvalidArgument);
      }
      if owner in owners {
        return Failure(OwnerExists);
      }
      if exists b :: b in blocks && b !in references {
        return Failure(UnallocatedBlock);
      }
      owners := owners[owner := blocks];
      AddReferences(blocks);
      RetainKeepsConsistent(totalBlocks, old(free), old(owners), old(references), owner, blocks, references);
      UpdatePressure();
      r := Success(());
    }

    /** Grows or cuts an exclusive table, keeping the blocks both sizes share in place. */
    method Resize(owner: string, tokenCapacity: int) returns (r: Result<seq<nat>, AllocatorError>)
      requires Valid()
      modifies this
      ensures Valid()
      ensures tokenCapacity < 0 ==> r == Failure(InvalidArgument)
      ensures tokenCapacity >= 0 && owner !in old(owners) ==> r == Failure(UnknownOwner)
      ensures tokenCapacity >= 0 && owner in old(owners) ==>
                var table, required := old(owners)[owner], CeilDiv(tokenCapacity, blockSize);
                r == (if exists b :: b in table && old(references)[b] != 1 then Failure(SharedTable)
                      else if required - |table| > |old(free)| then Failure(OutOfBlocks)
                      else if required >= |table| then Success(table + Top(old(free), required - |table|))
                      else Success(table[..required]))
      ensures r.Failure? ==> owners == old(owners) && free == old(free) && references == old(references)
      ensures r.Success? ==>
                var table := old(owners)[owner];
                && owners == old(owners)[owner := r.value]
                && free == if |r.value| >= |table| then old(free)[..|old(free)| - (|r.value| - |table|)]
                           else old(free) + table[|r.value|..]
      ensures allocationFailures == old(allocationFailures) + if r == Failure(OutOfBlocks) then 1 else 0
      ensures samples == old(samples)
                + (if r.Success? || r.error.OutOfBlocks? then [|references|] else [])
    {
      if tokenCapacity < 0 {
        return Failure(InvalidArgument);
      }
      var required := CeilDiv(tokenCapacity, blockSize);
      if owner !in owners {
        return Failure(UnknownOwner);
      }
      var blocks := owners[owner];
      if exists b :: b in blocks && references[b] != 1 {
        return Failure(SharedTable);
      }
      if required - |blocks| > |free| {
        allocationFailures := allocationFailures + 1;
        UpdatePressure();
        return Failure(OutOfBlocks);
      }
      ResizeTable(owner, required);
      UpdatePressure();
      r := Success(owners[owner]);
    }

    method ResizeTable(owner: string, required: nat)
      requires Consistent(totalBlocks, free, owners, references) && owner in owners
      requires forall b :: b in owners[owner] ==> references[b] == 1
      requires required - |owners[owner]| <= |free|
      modifies this`free, this`references, this`owners
      ensures Consistent(totalBlocks, free, owners, references)
      ensures owners.Keys == old(owners).Keys
      ensures var table := old(owners)[owner];
              if required >= |table| then
                && owners == old(owners)[owner := table + Top(old(free), required - |table|)]
                && free == old(free)[..|old(free)| - (required - |table|)]
              else
                && owners == old(owners)[owner := table[..required]]
                && free == old(free) + table[required..]
    {
      var blocks := owners[owner];
      var additional := required - |blocks|;
      if additional > 0 {
        var more := PopBlocks(additional);
        blocks := blocks + more;
        CountOnce(more);
        GrowKeepsConsistent(totalBlocks, old(free), old(owners), old(references), owner, additional, references);
      } else if additional < 0 {
        FreeTail(blocks, required);
        ShrinkKeepsConsistent(totalBlocks, old(free), old(owners), old(references), owner, required, references);
        blocks := blocks[..required];
      } else {
        assert blocks + Top(free, 0) == blocks;
      }
      owners := owners[owner := blocks];
      assert additional == 0 ==> owners == old(owners);
    }

    method FreeTail(blocks: seq<nat>, keep: nat)
      requires keep <= |blocks|
      modifies this`free, this`references
      ensures free == old(free) + blocks[keep..]
      ensures references == old(references) - Elements(blocks[keep..])
    {
      for i := keep to |blocks|
        invariant free == old(free) + blocks[keep..i]
        invariant references == old(references) - Elements(blocks[keep..i])
      {
        references := references - {blocks[i]};
        free := free + [blocks[i]];
        assert blocks[keep..i + 1] == blocks[keep..i] + [blocks[i]];
      }
      assert blocks[keep..|blocks|] == blocks[keep..];
    }

    /** Takes one reference off every listed block, freeing those that had only one. */
    method DropReferences(blocks: seq<nat>)
      requires NoDuplicates(blocks) && forall b :: b in blocks ==> b in references && references[b] > 0
      modifies this`free, this`references
      ensures free == old(free) + Unshared(blocks, old(references))
      ensures forall b :: b in references <==>
                b in old(references) && !(b in blocks && old(references)[b] == 1)
      ensures forall b :: b in references ==>
                references[b] == old(references)[b] - if b in blocks then 1 else 0
    {
      for i := 0 to |blocks|
        invariant free == old(free) + Unshared(blocks[..i], old(references))
        invariant forall b :: b in references <==>
                    b in old(references) && !(b in blocks[..i] && old(references)[b] == 1)
        invariant forall b :: b in references ==>
                    references[b] == old(references)[b] - if b in blocks[..i] then 1 else 0
      {
        var block := blocks[i];
        assert blocks[..i + 1][..i] == blocks[..i] && blocks[..i + 1][i] == block;
        assert block !in blocks[..i];
        var left := references[block] - 1;
        if left != 0 {
          references := references[block := left];
        } else {
          references := references - {block};
          free := free + [block];
        }
      }
      assert blocks[..|blocks|] == blocks;
    }

    /** Drops an owner; a block returns to the stack when its last owner goes. Releasing an
        unknown owner is a no-op, so release is idempotent. */
    method Release(owner: string) returns (released: bool)
      requires Valid()
      modifies this
      ensures Valid()
      ensures released <==> owner in old(owners)
      ensures owners == old(owners) - {owner}
      ensures free == if released then old(free) + Unshared(old(owners)[owner], old(references)) else old(free)
      ensures !released ==> references == old(references)
      ensures allocationFailures == old(allocationFailures)
      ensures samples == old(samples) + (if released then [|references|] else [])
    {
      hide Owning, Unshared, Partitioned, PressureAfter;
      if owner !in owners {
        return false;
      }
      var blocks := owners[owner];
      owners := owners - {owner};
      DropReferences(blocks);
      UnsharedMembers(blocks, old(references));
      ReleaseKeepsConsistent(totalBlocks, old(free), old(owners), old(references), owner, references);
      UpdatePressure();
      released := true;
    }
  }
}
