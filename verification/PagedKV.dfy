/**
 The physical page store of `inference/paged_kv.py`. Every sequence id owns a block table; its
 tokens live in the slots of those blocks. A page element stands for one token's
 `[KV heads, head dim]` slice of one layer.
 */
module PagedKV {
  import opened Arithmetic
  import opened Wrappers
  import opened Sequences
  import opened BlockAllocator

  datatype PagedError =
    | BadArgument
    | UnknownSequence
    | CapacityOverrun
    | Allocation(error: AllocatorError)

  /** One stored token: its key slice and its value slice for every layer. */
  datatype Token<T> = Token(keys: seq<T>, values: seq<T>)

  /** What the page arrays hold, block by block and slot by slot. */
  type Image<T> = seq<seq<Token<T>>>

  // ---------------------------------------------------------------- positions

  // The store addresses a position by quotient and remainder. The proofs use these recursive
  // forms, which `PositionIs` and `PageAndSlot` connect to the arithmetic.

  ghost function Position(page: nat, slot: nat, size: nat): nat {
    if page == 0 then slot else size + Position(page - 1, slot, size)
  }

  ghost function Page(position: nat, size: nat): nat
    requires size > 0
  {
    if position < size then 0 else 1 + Page(position - size, size)
  }

  ghost function Slot(position: nat, size: nat): (slot: nat)
    requires size > 0
    ensures slot < size
  {
    if position < size then position else Slot(position - size, size)
  }

  lemma {:induction false} PositionIs(page: nat, slot: nat, size: nat)
    ensures Position(page, slot, size) == page * size + slot
  {
    if page > 0 {
      PositionIs(page - 1, slot, size);
      assert page * size == (page - 1) * size + size;
    }
  }

  lemma {:induction false} PageAndSlot(position: nat, size: nat)
    requires size > 0
    ensures Page(position, size) == position / size && Slot(position, size) == position % size
  {
    if position >= size {
      PageAndSlot(position - size, size);
      var before := position - size;
      assert before == before / size * size + before % size;
      assert position == (before / size + 1) * size + before % size;
      DivModUnique(position, size, before / size + 1, before % size);
    } else {
      DivModUnique(position, size, 0, position);
    }
  }

  lemma DivModUnique(n: nat, size: nat, q: nat, r: nat)
    requires r < size && n == q * size + r
    ensures n / size == q && n % size == r
  {
    var p := n / size;
    assert n == p * size + n % size;
    assert (p + 1) * size == p * size + size && (q + 1) * size == q * size + size;
    if p < q {
      MulMonotone(p + 1, q, size);
    } else if q < p {
      MulMonotone(q + 1, p, size);
    }
  }

  /** Every position below a table's capacity names exactly one slot of one of its pages. */
  lemma {:induction false} PositionSplits(position: nat, pages: nat, size: nat)
    requires size > 0 && position < Position(pages, 0, size)
    ensures Page(position, size) < pages
    ensures position == Position(Page(position, size), Slot(position, size), size)
  {
    if position >= size {
      PositionSplits(position - size, pages - 1, size);
    }
  }

  lemma {:induction false} PositionNames(page: nat, slot: nat, size: nat)
    requires slot < size
    ensures Page(Position(page, slot, size), size) == page && Slot(Position(page, slot, size), size) == slot
  {
    if page > 0 {
      PositionNames(page - 1, slot, size);
    }
  }

  lemma {:induction false} NextPage(page: nat, size: nat)
    ensures Position(page + 1, 0, size) == Position(page, 0, size) + size
  {
    if page > 0 {
      NextPage(page - 1, size);
    }
  }

  lemma {:induction false} PagesInOrder(p: nat, r: nat, q: nat, size: nat)
    requires p < q && r < size
    ensures Position(p, r, size) < Position(q, 0, size)
  {
    if p > 0 {
      PagesInOrder(p - 1, r, q - 1, size);
    }
  }

  lemma {:induction false} SlotsInOrder(page: nat, slot: nat, size: nat)
    ensures Position(page, slot, size) == Position(page, 0, size) + slot
  {
    if page > 0 {
      SlotsInOrder(page - 1, slot, size);
    }
  }

  /** Which slots lie in a written range of page `q`: none below it, consecutive ones within it. */
  lemma WrittenRange(q: nat, offset: nat, step: nat, p: nat, r: nat, size: nat)
    requires r < size && offset + step <= size
    ensures Position(p, r, size) < Position(q, offset, size) ==> p < q || (p == q && r < offset)
    ensures Position(q, offset, size) <= Position(p, r, size) < Position(q, offset, size) + step ==>
              p == q && r - offset == Position(p, r, size) - Position(q, offset, size)
  {
    SlotsInOrder(p, r, size);
    SlotsInOrder(q, offset, size);
    SlotsInOrder(q, size - 1, size);
    if p < q {
      PagesInOrder(p, r, q, size);
    } else if q < p {
      PagesInOrder(q, size - 1, p, size);
    }
  }

  // ---------------------------------------------------------------- reading a table

  ghost predicate Shaped<T>(image: Image<T>, total: nat, size: nat) {
    size > 0 && |image| == total && forall b :: 0 <= b < total ==> |image[b]| == size
  }

  /** A table of existing blocks, large enough for `length` tokens. */
  ghost predicate Fits(table: seq<nat>, length: nat, total: nat, size: nat) {
    length <= Position(|table|, 0, size) && forall q :: 0 <= q < |table| ==> table[q] < total
  }

  ghost function Cell<T>(image: Image<T>, table: seq<nat>, position: nat, size: nat): Token<T>
    requires Shaped(image, |image|, size) && Fits(table, position + 1, |image|, size)
  {
    PositionSplits(position, |table|, size);
    image[table[Page(position, size)]][Slot(position, size)]
  }

  /** The first `length` tokens that a table's pages hold. */
  ghost function Gather<T>(image: Image<T>, table: seq<nat>, length: nat, size: nat): (tokens: seq<Token<T>>)
    requires Shaped(image, |image|, size) && Fits(table, length, |image|, size)
    ensures |tokens| == length
  {
    if length == 0 then []
    else Gather(image, table, length - 1, size) + [Cell(image, table, length - 1, size)]
  }

  lemma {:induction false} GatherAt<T>(image: Image<T>, table: seq<nat>, length: nat, size: nat, i: nat)
    requires Shaped(image, |image|, size) && Fits(table, length, |image|, size) && i < length
    ensures Gather(image, table, length, size)[i] == Cell(image, table, i, size)
  {
    if i < length - 1 {
      GatherAt(image, table, length - 1, size, i);
    }
  }

  // ---------------------------------------------------------------- writing into one page

  /** Overwrites consecutive slots of one block. */
  ghost function Paste<T>(image: Image<T>, block: nat, offset: nat, chunk: seq<Token<T>>): (after: Image<T>)
    requires block < |image| && offset + |chunk| <= |image[block]|
    ensures |after| == |image|
    ensures forall b :: 0 <= b < |image| ==> |after[b]| == |image[b]|
    ensures forall b :: 0 <= b < |image| && b != block ==> after[b] == image[b]
    ensures forall s :: 0 <= s < |image[block]| ==>
              after[block][s] == if offset <= s < offset + |chunk| then chunk[s - offset] else image[block][s]
  {
    image[block := image[block][..offset] + chunk + image[block][offset + |chunk|..]]
  }

  /** One position after the next slots of a table were written. */
  lemma PasteCell<T>(image: Image<T>, table: seq<nat>, length: nat, size: nat, chunk: seq<Token<T>>, i: nat)
    requires Shaped(image, |image|, size) && NoDuplicates(table) && i < length + |chunk|
    requires Fits(table, length + |chunk|, |image|, size) && 0 < |chunk| <= size - Slot(length, size)
    requires Page(length, size) < |table|
    ensures Cell(Paste(image, table[Page(length, size)], Slot(length, size), chunk), table, i, size)
         == if i < length then Cell(image, table, i, size) else chunk[i - length]
  {
    PositionSplits(length, |table|, size);
    PositionSplits(i, |table|, size);
    WrittenRange(Page(length, size), Slot(length, size), |chunk|, Page(i, size), Slot(i, size), size);
  }

  /** Writing the next slots of a table appends to what the table holds. */
  lemma PasteExtends<T>(image: Image<T>, table: seq<nat>, length: nat, size: nat, chunk: seq<Token<T>>)
    requires Shaped(image, |image|, size) && NoDuplicates(table)
    requires Fits(table, length + |chunk|, |image|, size) && 0 < |chunk| <= size - Slot(length, size)
    requires Page(length, size) < |table|
    ensures Gather(Paste(image, table[Page(length, size)], Slot(length, size), chunk), table, length + |chunk|, size)
         == Gather(image, table, length, size) + chunk
  {
    hide Position, Page, Slot, Cell;
    var after := Paste(image, table[Page(length, size)], Slot(length, size), chunk);
    forall i | 0 <= i < length + |chunk|
      ensures Gather(after, table, length + |chunk|, size)[i] == (Gather(image, table, length, size) + chunk)[i]
    {
      GatherAt(after, table, length + |chunk|, size, i);
      PasteCell(image, table, length, size, chunk, i);
      if i < length {
        GatherAt(image, table, length, size, i);
      }
    }
  }

  /** A table without the written block is not affected. */
  lemma PasteElsewhere<T>(image: Image<T>, block: nat, offset: nat, chunk: seq<Token<T>>,
                          table: seq<nat>, length: nat, size: nat)
    requires Shaped(image, |image|, size) && Fits(table, length, |image|, size)
    requires block < |image| && offset + |chunk| <= size && block !in table
    ensures Gather(Paste(image, block, offset, chunk), table, length, size) == Gather(image, table, length, size)
  {
    var after := Paste(image, block, offset, chunk);
    forall i | 0 <= i < length
      ensures Gather(after, table, length, size)[i] == Gather(image, table, length, size)[i]
    {
      GatherAt(after, table, length, size, i);
      GatherAt(image, table, length, size, i);
      PositionSplits(i, |table|, size);
      assert table[Page(i, size)] in table;
    }
  }

  // ---------------------------------------------------------------- all sequences together

  /** Tables are disjoint and every table holds its id's tokens. */
  ghost predicate Agrees<T>(image: Image<T>, size: nat, owners: Tables, contents: map<string, seq<Token<T>>>)
    requires Shaped(image, |image|, size)
  {
    && owners.Keys == contents.Keys
    && Exclusive(owners)
    && forall id :: id in owners ==> Holds(image, size, owners[id], contents[id])
  }

  ghost predicate Holds<T>(image: Image<T>, size: nat, table: seq<nat>, tokens: seq<Token<T>>)
    requires Shaped(image, |image|, size)
  {
    Fits(table, |tokens|, |image|, size) && tokens == Gather(image, table, |tokens|, size)
  }

  lemma PageHolds<T>(image: Image<T>, size: nat, table: seq<nat>, tokens: seq<Token<T>>, j: nat, slot: nat)
    requires Shaped(image, |image|, size) && Holds(image, size, table, tokens)
    requires j < |table| && slot < size && Position(j, slot, size) < |tokens|
    ensures Position(j, slot, size) == Position(j, 0, size) + slot
    ensures tokens[Position(j, slot, size)] == image[table[j]][slot]
  {
    SlotsInOrder(j, slot, size);
    PositionNames(j, slot, size);
    GatherAt(image, table, |tokens|, size, Position(j, slot, size));
  }

  /** A table popped off the free stack shares no block with the tables in use. */
  lemma FreshTable(total: nat, free: seq<nat>, owners: Tables, references: map<nat, nat>, id: string, n: nat)
    requires Consistent(total, free, owners, references) && Exclusive(owners)
    requires id !in owners && n <= |free|
    ensures Exclusive(owners[id := Top(free, n)])
    ensures forall b :: b in Top(free, n) ==> b < total
  {
    TopMembers(free, n);
    forall other, b | other in owners && b in owners[other]
      ensures b !in Top(free, n)
    {
      assert b in references;
    }
  }

  lemma AgreesWithNewTable<T>(image: Image<T>, size: nat, owners: Tables, contents: map<string, seq<Token<T>>>,
                              id: string, table: seq<nat>)
    requires Shaped(image, |image|, size) && Agrees(image, size, owners, contents)
    requires Exclusive(owners[id := table]) && forall b :: b in table ==> b < |image|
    ensures Agrees(image, size, owners[id := table], contents[id := []])
  {
    assert forall q :: 0 <= q < |table| ==> table[q] in table;
    assert Holds(image, size, table, []);
  }

  lemma AgreesWithoutTable<T>(image: Image<T>, size: nat, owners: Tables, contents: map<string, seq<Token<T>>>,
                              id: string)
    requires Shaped(image, |image|, size) && Agrees(image, size, owners, contents)
    ensures Agrees(image, size, owners - {id}, contents - {id})
  {}

  /** One page write keeps the agreement: the written sequence grows, no other changes. */
  lemma AgreesAfterPaste<T>(image: Image<T>, size: nat, owners: Tables, contents: map<string, seq<Token<T>>>,
                            id: string, chunk: seq<Token<T>>)
    requires Shaped(image, |image|, size) && Agrees(image, size, owners, contents)
    requires id in owners && NoDuplicates(owners[id])
    requires Fits(owners[id], |contents[id]| + |chunk|, |image|, size)
    requires 0 < |chunk| <= size - Slot(|contents[id]|, size)
    ensures Page(|contents[id]|, size) < |owners[id]|
    ensures Agrees(Paste(image, owners[id][Page(|contents[id]|, size)], Slot(|contents[id]|, size), chunk), size,
                   owners, contents[id := contents[id] + chunk])
  {
    hide Position, Page, Gather;
    var position := |contents[id]|;
    PositionSplits(position, |owners[id]|, size);
    PasteExtends(image, owners[id], position, size, chunk);
    var block, offset := owners[id][Page(position, size)], Slot(position, size);
    var after := Paste(image, block, offset, chunk);
    assert block in owners[id];
    assert Holds(after, size, owners[id], contents[id] + chunk);
    forall other | other in owners && other != id
      ensures Holds(after, size, owners[other], contents[other])
    {
      PasteElsewhere(image, block, offset, chunk, owners[other], |contents[other]|, size);
    }
  }

  lemma UpdateDetermines<K, V>(before: map<K, V>, after: map<K, V>, k: K)
    requires k in after && after - {k} == before - {k}
    ensures after == before[k := after[k]]
  {
    forall x
      ensures x in after <==> x in before[k := after[k]]
      ensures x in after ==> after[x] == before[k := after[k]][x]
    {
      assert x in after - {k} <==> x in before - {k};
      assert x in after - {k} ==> (after - {k})[x] == (before - {k})[x];
    }
  }

  // ---------------------------------------------------------------- the page arrays

  /** The two page arrays hold `image`, layer by layer. */
  ghost predicate Mirrors<T>(keyPages: array3<T>, valuePages: array3<T>, image: Image<T>)
    reads keyPages, valuePages
  {
    && keyPages.Length0 == valuePages.Length0
    && keyPages.Length1 == valuePages.Length1 == |image|
    && keyPages.Length2 == valuePages.Length2 > 0
    && Shaped(image, |image|, keyPages.Length2)
    && (forall b, s :: 0 <= b < |image| && 0 <= s < keyPages.Length2 ==>
          |image[b][s].keys| == |image[b][s].values| == keyPages.Length0)
    && (forall l, b, s :: 0 <= l < keyPages.Length0 && 0 <= b < |image| && 0 <= s < keyPages.Length2 ==>
          keyPages[l, b, s] == image[b][s].keys[l] && valuePages[l, b, s] == image[b][s].values[l])
  }

  ghost function Snapshot<T>(keyPages: array3<T>, valuePages: array3<T>): (image: Image<T>)
    requires keyPages.Length0 == valuePages.Length0
    requires keyPages.Length1 == valuePages.Length1 && keyPages.Length2 == valuePages.Length2 > 0
    reads keyPages, valuePages
    ensures Mirrors(keyPages, valuePages, image)
  {
    seq(keyPages.Length1, b requires 0 <= b < keyPages.Length1 reads keyPages, valuePages =>
      seq(keyPages.Length2, s requires 0 <= s < keyPages.Length2 reads keyPages, valuePages =>
        Token(seq(keyPages.Length0, l requires 0 <= l < keyPages.Length0 reads keyPages => keyPages[l, b, s]),
              seq(keyPages.Length0, l requires 0 <= l < keyPages.Length0 reads valuePages => valuePages[l, b, s]))))
  }

  /** One key and one value column per layer, all holding `count` tokens. */
  ghost predicate Rectangular<T>(keys: seq<seq<T>>, values: seq<seq<T>>, layers: nat, count: nat) {
    |keys| == |values| == layers && forall l :: 0 <= l < layers ==> |keys[l]| == |values[l]| == count
  }

  /** `count` of the tokens passed to `append`, starting at `from`. */
  ghost function Chunk<T>(keys: seq<seq<T>>, values: seq<seq<T>>, from: nat, count: nat): (chunk: seq<Token<T>>)
    requires |keys| == |values|
    requires forall l :: 0 <= l < |keys| ==> from + count <= |keys[l]| == |values[l]|
    ensures |chunk| == count
    ensures forall i :: 0 <= i < count ==> |chunk[i].keys| == |chunk[i].values| == |keys|
    ensures forall i, l :: 0 <= i < count && 0 <= l < |keys| ==>
              chunk[i].keys[l] == keys[l][from + i] && chunk[i].values[l] == values[l][from + i]
  {
    seq(count, i requires 0 <= i < count =>
      Token(seq(|keys|, l requires 0 <= l < |keys| => keys[l][from + i]),
            seq(|keys|, l requires 0 <= l < |keys| => values[l][from + i])))
  }

  lemma ChunkJoins<T>(keys: seq<seq<T>>, values: seq<seq<T>>, count: nat, done: nat, step: nat, before: seq<Token<T>>)
    requires Rectangular(keys, values, |keys|, count) && done + step <= count
    ensures before + Chunk(keys, values, 0, done) + Chunk(keys, values, done, step)
         == before + Chunk(keys, values, 0, done + step)
  {
    assert Chunk(keys, values, 0, done) + Chunk(keys, values, done, step) == Chunk(keys, values, 0, done + step);
  }

  /** Writes `source` into consecutive slots of one page of one layer. */
  method WriteSlice<T>(pages: array3<T>, layer: nat, page: nat, offset: nat, source: seq<T>)
    requires layer < pages.Length0 && page < pages.Length1 && offset + |source| <= pages.Length2
    modifies pages
    ensures forall l, b, s :: 0 <= l < pages.Length0 && 0 <= b < pages.Length1 && 0 <= s < pages.Length2 ==>
              pages[l, b, s] == if l == layer && b == page && offset <= s < offset + |source|
                                then source[s - offset] else old(pages[l, b, s])
  {
    forall k | 0 <= k < |source| {
      pages[layer, page, offset + k] := source[k];
    }
  }

  /** Copies `count` tokens of every layer into one page. */
  method WritePage<T>(keyPages: array3<T>, valuePages: array3<T>, ghost image: Image<T>, page: nat, offset: nat,
                      keys: seq<seq<T>>, values: seq<seq<T>>, from: nat, count: nat)
    requires keyPages != valuePages && Mirrors(keyPages, valuePages, image)
    requires page < |image| && offset + count <= keyPages.Length2
    requires |keys| == |values| == keyPages.Length0
    requires forall l :: 0 <= l < |keys| ==> from + count <= |keys[l]| == |values[l]|
    modifies keyPages, valuePages
    ensures Mirrors(keyPages, valuePages, Paste(image, page, offset, Chunk(keys, values, from, count)))
  {
    var layers := keyPages.Length0;
    for layer := 0 to layers
      invariant forall l, b, s :: 0 <= l < layers && 0 <= b < |image| && 0 <= s < keyPages.Length2 ==>
                  keyPages[l, b, s] == if l < layer && b == page && offset <= s < offset + count
                                       then keys[l][from + s - offset] else old(keyPages[l, b, s])
      invariant forall l, b, s :: 0 <= l < layers && 0 <= b < |image| && 0 <= s < keyPages.Length2 ==>
                  valuePages[l, b, s] == if l < layer && b == page && offset <= s < offset + count
                                         then values[l][from + s - offset] else old(valuePages[l, b, s])
    {
      WriteSlice(keyPages, layer, page, offset, keys[layer][from..from + count]);
      WriteSlice(valuePages, layer, page, offset, values[layer][from..from + count]);
    }
  }

  class PagedKVCache<T(0)> {
    const layers: nat
    const blockSize: nat
    const zero: T
    const keyPages: array3<T>
    const valuePages: array3<T>
    const allocator: KVBlockAllocator
    var lengths: map<string, nat>
    ghost var image: Image<T>
    /** What the pages mean: one growing sequence of tokens per id. */
    ghost var contents: map<string, seq<Token<T>>>

    ghost predicate Valid()
      reads this, allocator, keyPages, valuePages
    {
      && allocator.Valid() && Paged()
      && lengths.Keys == contents.Keys && forall id :: id in lengths ==> lengths[id] == |contents[id]|
    }

    ghost predicate Paged()
      reads this, allocator, keyPages, valuePages
    {
      && layers > 0 && keyPages != valuePages
      && keyPages.Length0 == layers && keyPages.Length2 == blockSize == allocator.blockSize
      && Mirrors(keyPages, valuePages, image) && |image| == allocator.totalBlocks
      && Agrees(image, blockSize, allocator.owners, contents)
    }

    constructor (totalBlocks: nat, blockSize: nat, layers: nat, zero: T)
      requires totalBlocks > 0 && blockSize > 0 && layers > 0
      ensures Valid() && contents == map[]
      ensures fresh(allocator) && fresh(keyPages) && fresh(valuePages)
      ensures this.blockSize == blockSize && this.layers == layers && this.zero == zero
    {
      this.layers, this.blockSize, this.zero := layers, blockSize, zero;
      allocator := new KVBlockAllocator(totalBlocks, blockSize, 0.9, 0.7);
      keyPages := new T[layers, totalBlocks, blockSize];
      valuePages := new T[layers, totalBlocks, blockSize];
      lengths, contents := map[], map[];
      new;
      image := Snapshot(keyPages, valuePages);
    }

    lemma ShapedImage()
      requires Paged()
      ensures Shaped(image, |image|, blockSize)
    {}

    lemma PagedFacts(id: string)
      requires Paged() && id in contents
      ensures Shaped(image, |image|, blockSize) && id in allocator.owners
      ensures Holds(image, blockSize, allocator.owners[id], contents[id])
    {}

    lemma TableFacts(id: string)
      requires Valid() && id in contents
      ensures id in allocator.owners && NoDuplicates(allocator.owners[id])
    {}

    /** Reserves pages; the new sequence starts empty whatever the pages last held. */
    method Allocate(id: string, tokenCapacity: int) returns (r: Result<(), PagedError>)
      requires Valid()
      modifies this, allocator
      ensures Valid()
      ensures tokenCapacity <= 0 ==> r == Failure(BadArgument)
      ensures r.Success? <==> (tokenCapacity > 0 && id != "" && id !in old(contents)
                               && CeilDiv(tokenCapacity, blockSize) <= |old(allocator.free)|)
      ensures contents == if r.Success? then old(contents)[id := []] else old(contents)
      ensures r.Success? ==> |allocator.owners[id]| == CeilDiv(tokenCapacity, blockSize)
    {
      hide Mirrors, Gather, Exclusive, Holds, Consistent;
      ShapedImage();
      if tokenCapacity <= 0 {
        return Failure(BadArgument);
      }
      var reserved := ReservePages(id, tokenCapacity);
      if reserved.Failure? {
        return Failure(Allocation(reserved.error));
      }
      AgreesWithNewTable(image, blockSize, old(allocator.owners), contents, id, reserved.value);
      lengths := lengths[id := 0];
      contents := contents[id := []];
      r := Success(());
    }

    method ReservePages(id: string, tokenCapacity: nat) returns (r: Result<seq<nat>, AllocatorError>)
      requires allocator.Valid() && Exclusive(allocator.owners)
      modifies allocator
      ensures allocator.Valid() && Exclusive(allocator.owners)
      ensures r.Success? <==> id != "" && id !in old(allocator.owners)
                              && CeilDiv(tokenCapacity, allocator.blockSize) <= |old(allocator.free)|
      ensures r.Failure? ==> allocator.owners == old(allocator.owners)
      ensures r.Success? ==>
                && allocator.owners == old(allocator.owners)[id := r.value]
                && |r.value| == CeilDiv(tokenCapacity, allocator.blockSize)
                && forall b :: b in r.value ==> b < allocator.totalBlocks
    {
      hide Consistent, Exclusive;
      r := allocator.Allocate(id, tokenCapacity);
      if r.Success? {
        FreshTable(allocator.totalBlocks, old(allocator.free), old(allocator.owners), old(allocator.references),
                   id, |r.value|);
      }
    }

    /** One key and one value column per layer, all of the same positive length. */
    ghost predicate GoodChunk(keys: seq<seq<T>>, values: seq<seq<T>>) {
      |keys| > 0 && |keys[0]| > 0 && Rectangular(keys, values, layers, |keys[0]|)
    }

    /** Appends one chunk of tokens to a sequence, or writes nothing. */
    method Append(id: string, keys: seq<seq<T>>, values: seq<seq<T>>) returns (r: Result<nat, PagedError>)
      requires Valid()
      modifies this, keyPages, valuePages
      ensures Valid()
      ensures r.Success? <==> (
          && GoodChunk(keys, values) && id in old(contents)
          && |old(contents)[id]| + |keys[0]| <= Position(|allocator.owners[id]|, 0, blockSize))
      ensures r.Success? ==> contents == old(contents)[id := old(contents)[id] + Chunk(keys, values, 0, |keys[0]|)]
      ensures r.Success? ==> r.value == |contents[id]|
      ensures r.Failure? ==> contents == old(contents)
      ensures r == Failure(CapacityOverrun) <==> GoodChunk(keys, values) && id in old(contents) && !r.Success?
    {
      hide Mirrors, Agrees, Consistent;
      if |keys| != layers || |values| != layers {
        return Failure(BadArgument);
      }
      if id !in lengths {
        return Failure(UnknownSequence);
      }
      var start := lengths[id];
      var count := |keys[0]|;
      if exists l :: 0 <= l < layers && (|keys[l]| != count || |values[l]| != count) {
        return Failure(BadArgument);
      }
      if count <= 0 {
        return Failure(BadArgument);
      }
      assert GoodChunk(keys, values);
      TableFacts(id);
      var table := allocator.owners[id];
      var end := start + count;
      PositionIs(|table|, 0, blockSize);
      if end > |table| * blockSize {
        return Failure(CapacityOverrun);
      }
      WriteAll(id, table, start, keys, values, count);
      lengths := lengths[id := end];
      r := Success(end);
    }

    method Locate(position: nat) returns (q: nat, offset: nat)
      requires blockSize > 0
      ensures q == Page(position, blockSize) && offset == Slot(position, blockSize)
    {
      q, offset := position / blockSize, position % blockSize;
      PageAndSlot(position, blockSize);
    }

    /** One turn of the append loop: fills the page that holds the next position. */
    method WriteStep(id: string, table: seq<nat>, position: nat, keys: seq<seq<T>>, values: seq<seq<T>>,
                     done: nat, count: nat) returns (step: nat)
      requires Paged() && id in contents && table == allocator.owners[id] && NoDuplicates(table)
      requires Rectangular(keys, values, layers, count) && done < count
      requires position == |contents[id]| && position + count - done <= Position(|table|, 0, blockSize)
      modifies `image, `contents, keyPages, valuePages
      ensures 0 < step <= count - done
      ensures Paged()
      ensures contents == old(contents)[id := old(contents)[id] + Chunk(keys, values, done, step)]
    {
      hide Mirrors, Agrees;
      PagedFacts(id);
      var q, offset := Locate(position);
      PositionSplits(position, |table|, blockSize);
      step := if count - done <= blockSize - offset then count - done else blockSize - offset;
      AgreesAfterPaste(image, blockSize, allocator.owners, contents, id, Chunk(keys, values, done, step));
      WritePage(keyPages, valuePages, image, table[q], offset, keys, values, done, step);
      image := Paste(image, table[q], offset, Chunk(keys, values, done, step));
      contents := contents[id := contents[id] + Chunk(keys, values, done, step)];
    }

    /** The append loop, page by page. */
    method WriteAll(id: string, table: seq<nat>, start: nat, keys: seq<seq<T>>, values: seq<seq<T>>, count: nat)
      requires Paged() && id in contents && table == allocator.owners[id] && NoDuplicates(table)
      requires Rectangular(keys, values, layers, count)
      requires start == |contents[id]| && start + count <= Position(|table|, 0, blockSize)
      modifies `image, `contents, keyPages, valuePages
      ensures Paged()
      ensures contents == old(contents)[id := old(contents)[id] + Chunk(keys, values, 0, count)]
    {
      hide Mirrors, Agrees;
      var done := 0;
      ghost var before := contents[id];
      assert before + Chunk(keys, values, 0, 0) == before;
      while done < count
        invariant done <= count
        invariant Paged()
        invariant id in contents && contents[id] == before + Chunk(keys, values, 0, done)
        invariant contents - {id} == old(contents) - {id}
      {
        var step := WriteStep(id, table, start + done, keys, values, done, count);
        ChunkJoins(keys, values, count, done, step, before);
        done := done + step;
      }
      UpdateDetermines(old(contents), contents, id);
    }

    /** Forgets a sequence and returns its pages. */
    method Release(id: string) returns (released: bool)
      requires Valid()
      modifies this, allocator
      ensures Valid()
      ensures released <==> id in old(contents)
      ensures contents == old(contents) - {id}
      ensures allocator.owners == old(allocator.owners) - {id}
    {
      AgreesWithoutTable(image, blockSize, allocator.owners, contents, id);
      lengths := lengths - {id};
      contents := contents - {id};
      released := allocator.Release(id);
    }

    /** Gathers tables of different lengths into one zero-padded batch with a validity mask. */
    method Materialize(layer: int, ids: seq<string>)
      returns (ok: bool, keys: array2<T>, values: array2<T>, mask: array2<bool>)
      requires Valid()
      ensures ok <==> (
          && 0 <= layer < layers && NoDuplicates(ids)
          && (forall row :: 0 <= row < |ids| ==> ids[row] in contents)
          && exists row :: 0 <= row < |ids| && contents[ids[row]] != [])
      ensures fresh(keys) && fresh(values) && fresh(mask)
      ensures ok ==>
                && keys.Length0 == values.Length0 == mask.Length0 == |ids|
                && keys.Length1 == values.Length1 == mask.Length1
                && (forall row :: 0 <= row < |ids| ==> |contents[ids[row]]| <= keys.Length1)
                && (exists row :: 0 <= row < |ids| && |contents[ids[row]]| == keys.Length1)
                && (forall row, p :: 0 <= row < |ids| && 0 <= p < keys.Length1 ==>
                      CellIs(contents[ids[row]], layer, p, keys[row, p], values[row, p], mask[row, p]))
    {
      hide Mirrors, Agrees, Consistent;
      ok := false;
      keys, values, mask := new T[0, 0], new T[0, 0], new bool[0, 0];
      if !(0 <= layer < layers) || ids == [] {
        return;
      }
      DistinctCount(ids);
      if |ids| != |Elements(ids)| || exists row :: 0 <= row < |ids| && ids[row] !in lengths {
        return;
      }
      var longest := LongestRow(ids);
      if longest <= 0 {
        return;
      }
      ok := true;
      keys := new T[|ids|, longest]((_, _) => zero);
      values := new T[|ids|, longest]((_, _) => zero);
      mask := new bool[|ids|, longest]((_, _) => false);
      FillRows(layer, ids, keys, values, mask);
    }

    method FillRows(layer: nat, ids: seq<string>, keys: array2<T>, values: array2<T>, mask: array2<bool>)
      requires Valid() && layer < layers
      requires forall row :: 0 <= row < |ids| ==> ids[row] in contents && |contents[ids[row]]| <= keys.Length1
      requires keys != values && mask as object != keys && mask as object != values
      requires keys.Length0 == values.Length0 == mask.Length0 == |ids|
      requires keys.Length1 == values.Length1 == mask.Length1
      requires forall r, p :: 0 <= r < |ids| && 0 <= p < keys.Length1 ==>
                 keys[r, p] == zero && values[r, p] == zero && !mask[r, p]
      modifies keys, values, mask
      ensures forall r, p :: 0 <= r < |ids| && 0 <= p < keys.Length1 ==>
                CellIs(contents[ids[r]], layer, p, keys[r, p], values[r, p], mask[r, p])
    {
      hide Mirrors, Agrees, Consistent;
      for row := 0 to |ids|
        invariant forall r, p :: 0 <= r < row && 0 <= p < keys.Length1 ==>
                    CellIs(contents[ids[r]], layer, p, keys[r, p], values[r, p], mask[r, p])
        invariant forall r, p :: row <= r < |ids| && 0 <= p < keys.Length1 ==>
                    keys[r, p] == zero && values[r, p] == zero && !mask[r, p]
      {
        FillRow(layer, ids[row], row, keys, values, mask);
      }
    }

    /** One cell of a batch row: the stored token below the row's length, padding above it. */
    ghost predicate CellIs(tokens: seq<Token<T>>, layer: nat, p: nat, key: T, value: T, valid: bool) {
      if p < |tokens| then
        && layer < |tokens[p].keys| && layer < |tokens[p].values|
        && key == tokens[p].keys[layer] && value == tokens[p].values[layer] && valid
      else
        key == zero && value == zero && !valid
    }

    method LongestRow(ids: seq<string>) returns (longest: nat)
      requires ids != [] && forall row :: 0 <= row < |ids| ==> ids[row] in lengths
      ensures forall row :: 0 <= row < |ids| ==> lengths[ids[row]] <= longest
      ensures exists row :: 0 <= row < |ids| && lengths[ids[row]] == longest
    {
      longest := lengths[ids[0]];
      for row := 1 to |ids|
        invariant forall r :: 0 <= r < row ==> lengths[ids[r]] <= longest
        invariant exists r :: 0 <= r < row && lengths[ids[r]] == longest
      {
        if lengths[ids[row]] > longest {
          longest := lengths[ids[row]];
        }
      }
    }

    /** Copies the used slots of one page of a table into a batch row. */
    method CopyPage(layer: nat, id: string, j: nat, count: nat, row: nat, destination: nat,
                    keys: array2<T>, values: array2<T>)
      requires Valid() && layer < layers && id in contents
      requires j < |allocator.owners[id]| && destination == Position(j, 0, blockSize)
      requires 0 < count <= blockSize && destination + count <= |contents[id]|
      requires keys != values && keys.Length0 == values.Length0 > row
      requires keys.Length1 == values.Length1 >= |contents[id]|
      modifies keys, values
      ensures forall r, p :: 0 <= r < keys.Length0 && 0 <= p < keys.Length1 ==>
                if r == row && destination <= p < destination + count
                then CellIs(contents[id], layer, p, keys[r, p], values[r, p], true)
                else keys[r, p] == old(keys[r, p]) && values[r, p] == old(values[r, p])
    {
      var page := allocator.owners[id][j];
      ghost var tokens := contents[id];
      assert Holds(image, blockSize, allocator.owners[id], tokens);
      forall p | destination <= p < destination + count
        ensures tokens[p] == image[page][p - destination]
      {
        SlotsInOrder(j, p - destination, blockSize);
        PageHolds(image, blockSize, allocator.owners[id], tokens, j, p - destination);
      }
      forall k | 0 <= k < count {
        keys[row, destination + k] := keyPages[layer, page, k];
      }
      forall k | 0 <= k < count {
        values[row, destination + k] := valuePages[layer, page, k];
      }
    }

    /** Copies one table, page by page, into a zeroed batch row and marks it valid. */
    method FillRow(layer: nat, id: string, row: nat, keys: array2<T>, values: array2<T>, mask: array2<bool>)
      requires Valid() && layer < layers && id in contents
      requires keys != values && mask as object != keys && mask as object != values
      requires keys.Length0 == values.Length0 == mask.Length0 > row
      requires keys.Length1 == values.Length1 == mask.Length1 >= |contents[id]|
      requires forall p :: 0 <= p < keys.Length1 ==>
                 keys[row, p] == zero && values[row, p] == zero && !mask[row, p]
      modifies keys, values, mask
      ensures forall p :: 0 <= p < keys.Length1 ==>
                CellIs(contents[id], layer, p, keys[row, p], values[row, p], mask[row, p])
      ensures forall r, p :: 0 <= r < keys.Length0 && r != row && 0 <= p < keys.Length1 ==>
                keys[r, p] == old(keys[r, p]) && values[r, p] == old(values[r, p]) && mask[r, p] == old(mask[r, p])
    {
      hide Mirrors, Agrees, Consistent;
      PagedFacts(id);
      var table, length := allocator.owners[id], lengths[id];
      ghost var tokens := contents[id];
      var destination, j := 0, 0;
      while j < |table|
        invariant 0 <= j <= |table| && destination <= length
        invariant destination == length || destination == Position(j, 0, blockSize)
        invariant forall p :: 0 <= p < destination ==> CellIs(tokens, layer, p, keys[row, p], values[row, p], true)
        invariant forall p :: destination <= p < keys.Length1 ==> keys[row, p] == zero && values[row, p] == zero
        invariant forall p :: 0 <= p < keys.Length1 ==> !mask[row, p]
        invariant forall r, p :: 0 <= r < keys.Length0 && r != row && 0 <= p < keys.Length1 ==>
                    keys[r, p] == old(keys[r, p]) && values[r, p] == old(values[r, p]) && mask[r, p] == old(mask[r, p])
      {
        var count := if blockSize <= length - destination then blockSize else length - destination;
        if count <= 0 {
          break;
        }
        CopyPage(layer, id, j, count, row, destination, keys, values);
        NextPage(j, blockSize);
        destination := destination + count;
        j := j + 1;
      }
      assert destination == length;
      forall p | 0 <= p < length {
        mask[row, p] := true;
      }
    }
  }
}
