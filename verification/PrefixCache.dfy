/**
 The bounded prefix cache of `inference/prefix_cache.py`: an ordered map from token sequences to
 backend states (least recently used first), mirrored by a radix trie of heap nodes that answers
 longest-prefix queries.
 */
module PrefixCache {
  import opened Wrappers
  import opened Sequences

  type Key = seq<int>

  datatype Entry<+S> = Entry(tokens: Key, state: S)

  datatype Match<+S> = Match(tokens: Key, state: S, exact: bool)

  datatype CacheError = EmptyPrefix

  // ---------------------------------------------------------------- what the cache means

  /** The longest stored key that is a prefix of the query. */
  function LongestKey(keys: set<Key>, query: Key): Option<Key> {
    if query in keys then Some(query)
    else if query == [] then None
    else LongestKey(keys, query[..|query| - 1])
  }

  lemma {:induction false} LongestKeyIsLongest(keys: set<Key>, query: Key)
    ensures match LongestKey(keys, query)
            case None => forall k :: k in keys ==> !(k <= query)
            case Some(best) => best in keys && best <= query && forall k :: k in keys && k <= query ==> |k| <= |best|
    ensures LongestKey(keys, query) == Some(query) <==> query in keys
  {
    if query !in keys && query != [] {
      var shorter := query[..|query| - 1];
      LongestKeyIsLongest(keys, shorter);
      forall k | k in keys && k <= query
        ensures k <= shorter
      {
        ShorterPrefix(k, query);
      }
    }
  }

  lemma ShorterPrefix(p: Key, q: Key)
    requires p <= q && p != q
    ensures |p| < |q| && p <= q[..|q| - 1]
    ensures p + [q[|p|]] <= q
  {
    assert p == q[..|p|];
  }

  /** Total length of the keys: the cache's token count. */
  ghost function Tokens(order: seq<Key>): nat {
    if order == [] then 0 else |order[0]| + Tokens(order[1..])
  }

  function Without(order: seq<Key>, key: Key): seq<Key> {
    if order == [] then []
    else if order[0] == key then order[1..]
    else [order[0]] + Without(order[1..], key)
  }

  predicate Over(entries: nat, tokens: nat, maxEntries: nat, maxTokens: nat) {
    entries > maxEntries || tokens > maxTokens
  }

  /** How many of the oldest keys go until both limits hold. */
  ghost function Evictions(order: seq<Key>, maxEntries: nat, maxTokens: nat): (n: nat)
    ensures n <= |order|
  {
    if order != [] && Over(|order|, Tokens(order), maxEntries, maxTokens)
    then 1 + Evictions(order[1..], maxEntries, maxTokens)
    else 0
  }

  function From(order: seq<Key>, n: nat): seq<Key>
    requires n <= |order|
  {
    order[n..]
  }

  ghost function Surviving(order: seq<Key>, maxEntries: nat, maxTokens: nat): seq<Key> {
    From(order, Evictions(order, maxEntries, maxTokens))
  }

  /** Eviction removes the shortest run of least recently used keys that makes room, and never the
      newest key if that fits on its own: afterwards both limits hold, and with any key that was
      removed, and those after it, still there, one of them would not. */
  lemma {:induction false} EvictsLeastRecentlyUsed(order: seq<Key>, maxEntries: nat, maxTokens: nat)
    requires order != [] && maxEntries > 0 && |order[|order| - 1]| <= maxTokens
    ensures var left := Surviving(order, maxEntries, maxTokens);
            && left != [] && left[|left| - 1] == order[|order| - 1]
            && left == order[Evictions(order, maxEntries, maxTokens)..]
            && |left| <= maxEntries && Tokens(left) <= maxTokens
            && (forall n :: 0 <= n < Evictions(order, maxEntries, maxTokens) ==>
                  |From(order, n)| > maxEntries || Tokens(From(order, n)) > maxTokens)
            && (|order| <= maxEntries && Tokens(order) <= maxTokens ==> left == order)
  {
    hide From, Tokens, Evictions;
    SurvivorsFit(order, maxEntries, maxTokens);
    FromIs(order, Evictions(order, maxEntries, maxTokens));
    forall n | 0 <= n < Evictions(order, maxEntries, maxTokens)
      ensures |From(order, n)| > maxEntries || Tokens(From(order, n)) > maxTokens
    {
      OverUntilThen(order, maxEntries, maxTokens, n);
      FromIs(order, n);
    }
  }

  lemma {:induction false} SurvivorsFit(order: seq<Key>, maxEntries: nat, maxTokens: nat)
    requires order != [] && maxEntries > 0 && |order[|order| - 1]| <= maxTokens
    ensures var n := Evictions(order, maxEntries, maxTokens);
            n < |order| && |order[n..]| <= maxEntries && Tokens(order[n..]) <= maxTokens
    ensures |order| <= maxEntries && Tokens(order) <= maxTokens ==> Evictions(order, maxEntries, maxTokens) == 0
  {
    hide Tokens;
    assert order[0..] == order;
    if |order| == 1 {
      OneFits(order);
    } else if Over(|order|, Tokens(order), maxEntries, maxTokens) {
      SurvivorsFit(order[1..], maxEntries, maxTokens);
      var n := Evictions(order[1..], maxEntries, maxTokens);
      assert order[1..][n..] == order[n + 1..];
    }
  }

  lemma {:induction false} OverUntilThen(order: seq<Key>, maxEntries: nat, maxTokens: nat, n: nat)
    requires n < Evictions(order, maxEntries, maxTokens)
    ensures |order[n..]| > maxEntries || Tokens(order[n..]) > maxTokens
    decreases n
  {
    hide Tokens;
    if n == 0 {
      assert order[0..] == order;
    } else {
      OverUntilThen(order[1..], maxEntries, maxTokens, n - 1);
      assert order[1..][n - 1..] == order[n..];
    }
  }

  /** What `EvictsLeastRecentlyUsed` says about the last key to go. */
  lemma LastEviction(order: seq<Key>, maxEntries: nat, maxTokens: nat)
    requires order != [] && maxEntries > 0 && |order[|order| - 1]| <= maxTokens
    ensures var n := Evictions(order, maxEntries, maxTokens);
            && n < |order| && Surviving(order, maxEntries, maxTokens) == order[n..]
            && (n > 0 ==> |order[n - 1..]| > maxEntries || Tokens(order[n - 1..]) > maxTokens)
  {
    hide From, Tokens;
    EvictsLeastRecentlyUsed(order, maxEntries, maxTokens);
    var n := Evictions(order, maxEntries, maxTokens);
    FromIs(order, n);
    if n > 0 {
      FromIs(order, n - 1);
    }
  }

  /** While a limit is exceeded the oldest key goes, and it is not the newest. */
  lemma OneEviction(order: seq<Key>, maxEntries: nat, maxTokens: nat)
    requires order != [] && maxEntries > 0 && |order[|order| - 1]| <= maxTokens
    ensures |order| > maxEntries || Tokens(order) > maxTokens ==>
              && |order| > 1 && order[1..][|order| - 2] == order[|order| - 1]
              && Surviving(order, maxEntries, maxTokens) == Surviving(order[1..], maxEntries, maxTokens)
              && Evictions(order, maxEntries, maxTokens) == 1 + Evictions(order[1..], maxEntries, maxTokens)
    ensures |order| <= maxEntries && Tokens(order) <= maxTokens ==>
              Surviving(order, maxEntries, maxTokens) == order && Evictions(order, maxEntries, maxTokens) == 0
  {
    if |order| == 1 {
      OneFits(order);
    }
    var n := Evictions(order[1..], maxEntries, maxTokens);
    assert order[1..][n..] == order[n + 1..] && order[0..] == order;
  }

  lemma FromIs(order: seq<Key>, n: nat)
    requires n <= |order|
    ensures From(order, n) == order[n..]
  {}

  lemma OneFits(order: seq<Key>)
    requires |order| == 1
    ensures Tokens(order) == |order[0]|
  {
    assert order[1..] == [];
  }

  lemma {:induction false} WithoutFacts(order: seq<Key>, key: Key)
    requires NoDuplicates(order)
    ensures NoDuplicates(Without(order, key))
    ensures forall k :: k in Without(order, key) <==> k in order && k != key
    ensures Tokens(Without(order, key)) == Tokens(order) - (if key in order then |key| else 0)
    ensures key !in order ==> Without(order, key) == order
    ensures |Without(order, key)| == |order| - (if key in order then 1 else 0)
  {
    if order != [] {
      var head, rest := order[0], order[1..];
      assert order == [head] + rest;
      assert head !in rest;
      WithoutFacts(rest, key);
      if head != key {
        assert Without(order, key)[1..] == Without(rest, key);
        ConcatNoDuplicates([head], Without(rest, key));
      }
    }
  }

  /** Only the key goes, and the others keep their order. */
  lemma {:induction false} WithoutKeepsOrder(order: seq<Key>, i: nat)
    requires i < |order| && order[i] !in order[..i]
    ensures Without(order, order[i]) == order[..i] + order[i + 1..]
  {
    if i > 0 {
      assert order[0] in order[..i] && order[1..][..i - 1] == order[..i][1..];
      WithoutKeepsOrder(order[1..], i - 1);
    }
  }

  lemma {:induction false} TokensAppend(order: seq<Key>, key: Key)
    ensures Tokens(order + [key]) == Tokens(order) + |key|
  {
    if order == [] {
      assert [key][1..] == [];
    } else {
      TokensAppend(order[1..], key);
      assert (order + [key])[1..] == order[1..] + [key];
    }
  }

  /** The ordered map's two halves agree. */
  ghost predicate Indexed<S>(order: seq<Key>, entries: map<Key, Entry<S>>) {
    && NoDuplicates(order) && entries.Keys == Elements(order)
    && forall k :: k in entries ==> k != [] && entries[k].tokens == k
  }

  lemma StoreKeepsIndexed<S>(order: seq<Key>, entries: map<Key, Entry<S>>, key: Key, state: S)
    requires Indexed(order, entries) && key != []
    ensures var after := Without(order, key) + [key];
            && Indexed(after, entries[key := Entry(key, state)])
            && Tokens(after) == Tokens(order) + (if key in entries then 0 else |key|)
            && |after| == |order| + (if key in entries then 0 else 1)
    ensures key !in entries ==> Without(order, key) == order
  {
    hide Without, Tokens;
    WithoutFacts(order, key);
    TokensAppend(Without(order, key), key);
    ConcatNoDuplicates(Without(order, key), [key]);
  }

  lemma EvictKeepsIndexed<S>(order: seq<Key>, entries: map<Key, Entry<S>>)
    requires Indexed(order, entries) && order != []
    ensures order[0] in entries && Indexed(order[1..], entries - {order[0]})
    ensures Tokens(order[1..]) == Tokens(order) - |order[0]|
  {
    assert order == [order[0]] + order[1..];
  }

  // ---------------------------------------------------------------- the trie as a map of paths

  class Node<S> {
    var children: map<int, Node<S>>
    var entry: Option<Entry<S>>

    constructor ()
      ensures children == map[] && entry == None
    {
      children, entry := map[], None;
    }
  }

  datatype NodeValue<S> = NodeValue(children: map<int, Node<S>>, entry: Option<Entry<S>>)

  type Paths<S> = map<Key, Node<S>>

  type Values<S> = map<Key, NodeValue<S>>

  ghost function Image<S>(nodes: Paths<S>): (image: Values<S>)
    reads nodes.Values
    ensures image.Keys == nodes.Keys
  {
    map p | p in nodes :: NodeValue(nodes[p].children, nodes[p].entry)
  }

  function Child(p: Key, t: int): Key {
    p + [t]
  }

  ghost function Parent(p: Key): Key
    requires p != []
  {
    p[..|p| - 1]
  }

  ghost function Find<S>(stored: map<Key, Entry<S>>, p: Key): Option<Entry<S>> {
    if p in stored then Some(stored[p]) else None
  }

  /** Each path has its own node, and the path that leads to it is there too. */
  ghost predicate Rooted<S>(nodes: Paths<S>) {
    && [] in nodes
    && (forall p, q :: p in nodes && q in nodes && nodes[p] == nodes[q] ==> p == q)
    && (forall p {:trigger Parent(p)} :: p in nodes && p != [] ==> Parent(p) in nodes)
  }

  /** Nodes are linked to exactly their one-token extensions. */
  ghost predicate Edged<S>(nodes: Paths<S>, image: Values<S>) {
    && nodes.Keys == image.Keys
    && (forall p, t {:trigger Child(p, t)} {:trigger t in image[p].children} ::
          p in nodes ==> (t in image[p].children <==> Child(p, t) in nodes))
    && (forall p, t {:trigger image[p].children[t]} ::
          p in nodes && t in image[p].children ==> image[p].children[t] == nodes[Child(p, t)])
  }

  /** Every node carries the entry stored under its path. */
  ghost predicate Labelled<S>(image: Values<S>, stored: map<Key, Entry<S>>) {
    forall p :: p in image ==> image[p].entry == Find(stored, p)
  }

  ghost predicate Linked<S>(nodes: Paths<S>, image: Values<S>, stored: map<Key, Entry<S>>) {
    Rooted(nodes) && Edged(nodes, image) && Labelled(image, stored)
  }

  /** No dead branch: the paths are exactly the prefixes of the stored keys. */
  ghost predicate Pruned(paths: set<Key>, keys: set<Key>) {
    forall p :: p in paths <==> p == [] || exists k :: k in keys && p <= k
  }

  lemma ChildFacts(p: Key, t: int)
    ensures Parent(Child(p, t)) == p && Child(p, t) != []
    ensures forall q, u :: Child(q, u) == Child(p, t) ==> q == p && u == t
  {
    forall q, u | Child(q, u) == Child(p, t)
      ensures q == p && u == t
    {
      assert q == Child(q, u)[..|Child(q, u)| - 1];
      assert u == Child(q, u)[|Child(q, u)| - 1];
    }
  }

  lemma AddChildKeepsLinked<S>(nodes: Paths<S>, image: Values<S>, stored: map<Key, Entry<S>>,
                               p: Key, t: int, child: Node<S>)
    requires Linked(nodes, image, stored) && p in nodes && Child(p, t) !in nodes && Child(p, t) !in stored
    requires child !in nodes.Values
    ensures Linked(nodes[Child(p, t) := child], WithChild(image, p, t, child), stored)
  {
    ChildFacts(p, t);
    AddChildKeepsRooted(nodes, p, t, child);
    AddChildKeepsEdged(nodes, image, stored, p, t, child);
    hide Rooted, Edged;
  }

  lemma AddChildKeepsRooted<S>(nodes: Paths<S>, p: Key, t: int, child: Node<S>)
    requires Rooted(nodes) && p in nodes && child !in nodes.Values
    ensures Rooted(nodes[Child(p, t) := child])
  {
    ChildFacts(p, t);
  }

  lemma AddChildKeepsEdged<S>(nodes: Paths<S>, image: Values<S>, stored: map<Key, Entry<S>>, p: Key, t: int,
                              child: Node<S>)
    requires Linked(nodes, image, stored) && p in nodes && Child(p, t) !in nodes
    ensures Edged(nodes[Child(p, t) := child], WithChild(image, p, t, child))
  {
    hide Rooted, Labelled;
    var c := Child(p, t);
    forall q, u | q in nodes || q == c
      ensures u in WithChild(image, p, t, child)[q].children <==> Child(q, u) in nodes || Child(q, u) == c
    {
      EdgeBesideChild(nodes, image, stored, p, t, child, q, u);
    }
    ChildFacts(p, t);
  }

  lemma ParentPresent<S>(nodes: Paths<S>, p: Key)
    requires Rooted(nodes)
    ensures p in nodes && p != [] ==> Parent(p) in nodes
  {}

  lemma EdgeBesideChild<S>(nodes: Paths<S>, image: Values<S>, stored: map<Key, Entry<S>>, p: Key, t: int,
                           child: Node<S>, q: Key, u: int)
    requires Linked(nodes, image, stored) && p in nodes && Child(p, t) !in nodes && (q in nodes || q == Child(p, t))
    ensures q in WithChild(image, p, t, child)
    ensures u in WithChild(image, p, t, child)[q].children <==> Child(q, u) in nodes || Child(q, u) == Child(p, t)
  {
    hide Labelled;
    var c := Child(p, t);
    ChildFacts(p, t);
    if q == c {
      ChildFacts(c, u);
      assert Child(c, u) != c;
      ParentPresent(nodes, Child(c, u));
    } else {
      assert Child(q, u) == c ==> q == p && u == t;
    }
  }

  ghost function WithChild<S>(image: Values<S>, p: Key, t: int, child: Node<S>): Values<S>
    requires p in image
  {
    image[p := image[p].(children := image[p].children[t := child])][Child(p, t) := NodeValue(map[], None)]
  }

  lemma SetEntryKeepsLinked<S>(nodes: Paths<S>, image: Values<S>, stored: map<Key, Entry<S>>, p: Key, e: Entry<S>)
    requires Linked(nodes, image, stored) && p in nodes
    ensures Linked(nodes, image[p := image[p].(entry := Some(e))], stored[p := e])
  {}

  lemma ClearEntryKeepsLinked<S>(nodes: Paths<S>, image: Values<S>, stored: map<Key, Entry<S>>, p: Key)
    requires Linked(nodes, image, stored) && p in nodes
    ensures Linked(nodes, image[p := image[p].(entry := None)], stored - {p})
  {}

  lemma RemoveLeafKeepsEdged<S>(nodes: Paths<S>, image: Values<S>, p: Key, t: int)
    requires Edged(nodes, image) && p in nodes && Child(p, t) in nodes
    ensures Edged(nodes - {Child(p, t)}, WithoutChild(image, p, t))
  {
    var c := Child(p, t);
    ChildFacts(p, t);
    var left, values := nodes - {c}, WithoutChild(image, p, t);
    forall q, u | q in left
      ensures u in values[q].children <==> Child(q, u) in left
      ensures u in values[q].children ==> values[q].children[u] == left[Child(q, u)]
    {
      assert u in image[q].children <==> Child(q, u) in nodes;
      assert Child(q, u) == c ==> q == p && u == t;
    }
  }

  lemma RemoveLeafKeepsLinked<S>(nodes: Paths<S>, image: Values<S>, stored: map<Key, Entry<S>>, p: Key, t: int)
    requires Linked(nodes, image, stored) && p in nodes && Child(p, t) in nodes
    requires nodes.Keys == image.Keys && image[Child(p, t)].children == map[] && Child(p, t) !in stored
    ensures Linked(nodes - {Child(p, t)}, WithoutChild(image, p, t), stored)
  {
    hide Edged;
    RemoveLeafKeepsEdged(nodes, image, p, t);
    var c := Child(p, t);
    ChildFacts(p, t);
    LeafIsNoParent(nodes, image, c);
    forall q | q in nodes - {c} && q != []
      ensures Parent(q) in nodes - {c}
    {
      assert Parent(q) in nodes;
      assert q == Child(Parent(q), q[|q| - 1]);
    }
  }

  lemma LeafIsNoParent<S>(nodes: Paths<S>, image: Values<S>, c: Key)
    requires Edged(nodes, image) && c in nodes && image[c].children == map[]
    ensures forall u :: Child(c, u) !in nodes
  {}

  ghost function WithoutChild<S>(image: Values<S>, p: Key, t: int): Values<S>
    requires p in image
  {
    image[p := image[p].(children := image[p].children - {t})] - {Child(p, t)}
  }

  lemma {:induction false} PrefixesPresent<S>(nodes: Paths<S>, image: Values<S>, stored: map<Key, Entry<S>>,
                                              p: Key, i: nat)
    requires Linked(nodes, image, stored) && p in nodes && i <= |p|
    ensures p[..i] in nodes
    decreases |p|
  {
    if i == |p| {
      assert p[..i] == p;
    } else {
      assert Parent(p) in nodes;
      PrefixesPresent(nodes, image, stored, Parent(p), i);
      assert Parent(p)[..i] == p[..i];
    }
  }

  /** Adding a key and the paths that lead to it leaves no dead branch. */
  lemma InsertKeepsPruned(paths: set<Key>, keys: set<Key>, key: Key, after: set<Key>)
    requires Pruned(paths, keys) && Grown(after, paths, key)
    ensures Pruned(after, keys + {key})
  {
    forall p
      ensures p in after <==> p == [] || exists k :: k in keys + {key} && p <= k
    {
      if p in paths && p != [] {
        var k :| k in keys && p <= k;
        assert k in keys + {key};
      } else if p <= key {
        assert key in keys + {key};
      }
    }
  }

  /** While a removed key's branch is being cut back to `key[..i]`: everything else is needed. */
  ghost predicate PrunedAbove(paths: set<Key>, keys: set<Key>, key: Key, i: nat)
    requires i <= |key|
  {
    && (forall p :: p in paths ==> p == [] || p <= key[..i] || exists k :: k in keys && p <= k)
    && (forall p :: p == [] || (exists k :: k in keys && p <= k) ==> p in paths)
    && key[..i] in paths
  }

  lemma CuttingStarts(paths: set<Key>, keys: set<Key>, key: Key)
    requires Pruned(paths, keys) && key in paths
    ensures PrunedAbove(paths, keys - {key}, key, |key|)
  {
    assert key[..|key|] == key;
    forall p | p in paths
      ensures p == [] || p <= key || exists k :: k in keys - {key} && p <= k
    {
      if p != [] {
        var k :| k in keys && p <= k;
        assert k != key ==> k in keys - {key};
      }
    }
    forall p | exists k :: k in keys - {key} && p <= k
      ensures p in paths
    {
      var k :| k in keys - {key} && p <= k;
      assert k in keys;
    }
  }

  lemma NeededChild(paths: set<Key>, keys: set<Key>, key: Key, i: nat, p: Key, k: Key) returns (t: int)
    requires i <= |key| && PrunedAbove(paths, keys, key, i) && k in keys && p <= k && p != k
    ensures Child(p, t) in paths
  {
    ShorterPrefix(p, k);
    t := k[|p|];
  }

  lemma CutKeepsPruned(paths: set<Key>, keys: set<Key>, key: Key, i: nat)
    requires 0 < i <= |key| && PrunedAbove(paths, keys, key, i) && key[..i] !in keys
    requires forall t :: Child(key[..i], t) !in paths
    requires key[..i - 1] in paths
    ensures PrunedAbove(paths - {key[..i]}, keys, key, i - 1)
  {
    var cut, shorter := key[..i], key[..i - 1];
    forall p | p in paths - {cut}
      ensures p == [] || p <= shorter || exists k :: k in keys && p <= k
    {
      if p <= cut {
        ShorterPrefix(p, cut);
        assert cut[..i - 1] == shorter;
      }
    }
    forall k | k in keys
      ensures !(cut <= k)
    {
      if cut <= k {
        var t := NeededChild(paths, keys, key, i, cut, k);
      }
    }
  }

  /** Cutting stops at a path that is still needed, or at the root. */
  lemma CuttingEnds(paths: set<Key>, keys: set<Key>, key: Key, i: nat)
    requires i <= |key| && PrunedAbove(paths, keys, key, i)
    requires i == 0 || key[..i] in keys || exists t :: Child(key[..i], t) in paths
    ensures Pruned(paths, keys)
  {
    if i > 0 {
      var kept := key[..i];
      if kept !in keys {
        var t :| Child(kept, t) in paths;
        assert |Child(kept, t)| > |kept|;
        var k :| k in keys && Child(kept, t) <= k;
        assert kept <= k;
      }
      forall p | p in paths && p != []
        ensures exists k :: k in keys && p <= k
      {
        if p <= kept {
          var k :| k in keys && kept <= k;
          assert p <= k;
        }
      }
    }
  }

  /** The trie has no more non-root nodes than the keys have tokens. */
  lemma {:induction false} NodesBounded(paths: set<Key>, order: seq<Key>)
    requires Pruned(paths, Elements(order))
    ensures |paths| <= 1 + Tokens(order)
  {
    hide Pruned;
    var prefixes := PrefixesOf(order);
    forall p | p in paths ensures p in prefixes + {[]} {
      PrunedMember(paths, Elements(order), p);
    }
    SubsetNoLarger(paths, prefixes + {[]});
  }

  lemma PrunedMember(paths: set<Key>, keys: set<Key>, p: Key)
    requires Pruned(paths, keys) && p in paths
    ensures p == [] || exists k :: k in keys && p <= k
  {}

  ghost function PrefixesOf(order: seq<Key>): (prefixes: set<Key>)
    ensures |prefixes| <= Tokens(order)
    ensures forall p, k :: k in order && p <= k && p != [] ==> p in prefixes
  {
    if order == [] then {}
    else
      assert order == [order[0]] + order[1..];
      PrefixesOfKey(order[0]) + PrefixesOf(order[1..])
  }

  ghost function PrefixesOfKey(key: Key): (prefixes: set<Key>)
    ensures |prefixes| <= |key|
    ensures forall p :: p <= key && p != [] ==> p in prefixes
  {
    if key == [] then {}
    else
      var shorter := PrefixesOfKey(key[..|key| - 1]);
      assert forall p :: p <= key && p != [] ==> p in shorter + {key} by {
        forall p | p <= key && p != [] && p != key
          ensures p in shorter
        {
          ShorterPrefix(p, key);
        }
      }
      shorter + {key}
  }

  // ---------------------------------------------------------------- facts the object's loops use

  lemma StoredPresent<S>(nodes: Paths<S>, image: Values<S>, stored: map<Key, Entry<S>>)
    requires Linked(nodes, image, stored) && Pruned(nodes.Keys, stored.Keys)
    ensures [] in nodes && stored.Keys <= nodes.Keys
  {
    forall k | k in stored
      ensures k in nodes
    {
      assert k <= k;
    }
  }

  lemma NodeKnown<S>(nodes: Paths<S>, image: Values<S>, stored: map<Key, Entry<S>>, p: Key)
    requires Linked(nodes, image, stored) && p in nodes
    ensures p in image && image[p].entry == Find(stored, p)
    ensures image[p].children == map[] <==> forall t :: Child(p, t) !in nodes
  {
    if forall t :: t !in image[p].children {
      assert image[p].children == map[];
    }
  }

  lemma NodeIsSole<S>(nodes: Paths<S>, image: Values<S>, stored: map<Key, Entry<S>>, p: Key)
    requires Linked(nodes, image, stored) && p in nodes
    ensures p in image
    ensures forall q {:trigger nodes[q]} :: q in nodes && nodes[q] == nodes[p] ==> q == p
  {}

  lemma EdgeKnown<S>(nodes: Paths<S>, image: Values<S>, stored: map<Key, Entry<S>>, p: Key, t: int)
    requires Linked(nodes, image, stored) && p in nodes
    ensures p in image && (t in image[p].children <==> Child(p, t) in nodes)
    ensures t in image[p].children ==> image[p].children[t] == nodes[Child(p, t)]
  {}

  lemma NextPath(key: Key, i: nat)
    requires i < |key|
    ensures key[..i + 1] == Child(key[..i], key[i])
  {}

  /** A set of paths with everything on the way to `key` added. */
  ghost predicate Grown(paths: set<Key>, before: set<Key>, key: Key) {
    forall p :: p in paths <==> p in before || p <= key
  }

  lemma PathsStart(paths: set<Key>, key: Key)
    requires [] in paths
    ensures key[..0] == [] && Grown(paths, paths, key[..0])
  {}

  lemma PathsGrow(paths: set<Key>, before: set<Key>, key: Key, i: nat)
    requires i < |key| && Grown(paths, before, key[..i])
    ensures Grown(paths + {key[..i + 1]}, before, key[..i + 1]) && key[..i + 1] != []
  {
    assert key[..i + 1][..i] == key[..i];
    forall p
      ensures p in paths + {key[..i + 1]} <==> p in before || p <= key[..i + 1]
    {
      if p <= key[..i + 1] && p != key[..i + 1] {
        ShorterPrefix(p, key[..i + 1]);
      }
    }
  }

  lemma {:induction false} NothingBeyond<S>(nodes: Paths<S>, image: Values<S>, stored: map<Key, Entry<S>>,
                                            query: Key, i: nat)
    requires Linked(nodes, image, stored) && stored.Keys <= nodes.Keys
    requires i < |query| && query[..i + 1] !in nodes
    ensures LongestKey(stored.Keys, query) == LongestKey(stored.Keys, query[..i])
    decreases |query|
  {
    if query in stored {
      PrefixesPresent(nodes, image, stored, query, i + 1);
    }
    var shorter := query[..|query| - 1];
    assert i < |shorter| ==> shorter[..i + 1] == query[..i + 1];
    assert shorter[..i] == query[..i];
    if i < |shorter| {
      NothingBeyond(nodes, image, stored, shorter, i);
    } else {
      assert shorter == query[..i];
    }
  }

  lemma KeyAbsent<S>(nodes: Paths<S>, image: Values<S>, stored: map<Key, Entry<S>>, key: Key, i: nat)
    requires Linked(nodes, image, stored) && stored.Keys <= nodes.Keys
    requires i < |key| && key[..i + 1] !in nodes
    ensures key !in stored
  {
    if key in stored {
      PrefixesPresent(nodes, image, stored, key, i + 1);
    }
  }

  // ---------------------------------------------------------------- the cache object

  lemma EmptyTrie<S>(root: Node<S>)
    ensures Linked(map[[] := root], map[[] := NodeValue(map[], None)], map[])
    ensures Pruned({[]}, {})
  {}

  /** One step of a recorded descent. */
  datatype Hop<S> = Hop(parent: Node<S>, token: int, child: Node<S>)

  /** `path` records the way from the root along `key[..i]`. */
  ghost predicate Descent<S>(path: seq<Hop<S>>, key: Key, i: nat, nodes: Paths<S>)
    requires i <= |key|
  {
    && |path| == i && key[..0] in nodes
    && (forall j :: 0 <= j <= i ==> key[..j] in nodes)
    && (forall j :: 0 <= j < i ==> path[j] == Hop(nodes[key[..j]], key[j], nodes[key[..j + 1]]))
  }

  lemma DescentShrinks<S>(path: seq<Hop<S>>, key: Key, i: nat, nodes: Paths<S>)
    requires 0 < i <= |key| && Descent(path, key, i, nodes)
    ensures Descent(path[..i - 1], key, i - 1, nodes - {key[..i]})
  {
    forall j | 0 <= j < i
      ensures key[..j] != key[..i]
    {
      assert |key[..j]| == j;
    }
  }

  class PrefixCache<S> {
    const maxEntries: nat
    const maxTokens: nat
    /** The ordered map: its keys, least recently used first, and its values. */
    var order: seq<Key>
    var entries: map<Key, Entry<S>>
    var root: Node<S>
    var cachedTokens: int
    var hits: nat
    var misses: nat
    var insertions: nat
    var evictions: nat
    var bypasses: nat
    var exactHits: nat
    var partialHits: nat
    var matchedTokens: nat
    /** Every trie node, by its path from the root. */
    ghost var nodes: Paths<S>

    /** The trie mirrors exactly the given entries. */
    ghost predicate TrieHolds(stored: map<Key, Entry<S>>)
      reads this`nodes, this`root, nodes.Values
    {
      Mirrors(stored) && Pruned(nodes.Keys, stored.Keys) && [] in nodes && nodes[[]] == root
    }

    ghost predicate Mirrors(stored: map<Key, Entry<S>>)
      reads this`nodes, nodes.Values
    {
      Linked(nodes, Image(nodes), stored)
    }

    ghost predicate Listed()
      reads this`order, this`entries, this`cachedTokens
    {
      Indexed(order, entries) && cachedTokens == Tokens(order)
    }

    ghost predicate Valid()
      reads this, nodes.Values
    {
      && (maxEntries > 0 <==> maxTokens > 0)
      && Listed() && TrieHolds(entries)
      && |order| <= maxEntries && cachedTokens <= maxTokens
      && hits == exactHits + partialHits
    }

    constructor (maxEntries: nat, maxTokens: nat)
      requires maxEntries > 0 <==> maxTokens > 0
      ensures Valid() && fresh(nodes.Values) && order == []
      ensures this.maxEntries == maxEntries && this.maxTokens == maxTokens
    {
      this.maxEntries, this.maxTokens := maxEntries, maxTokens;
      order, entries, cachedTokens := [], map[], 0;
      hits, misses, insertions, evictions, bypasses := 0, 0, 0, 0, 0;
      exactHits, partialHits, matchedTokens := 0, 0, 0;
      var empty := new Node<S>();
      root, nodes := empty, map[[] := empty];
      new;
      EmptyTrie(root);
      assert Image(nodes) == map[[] := NodeValue(map[], None)];
    }

    /** What a node shows while the trie mirrors `stored`. */
    lemma AtNode(p: Key, stored: map<Key, Entry<S>>)
      requires Mirrors(stored) && p in nodes
      ensures nodes[p].entry == Find(stored, p)
      ensures nodes[p].children == map[] <==> forall t :: Child(p, t) !in nodes
    {
      NodeKnown(nodes, Image(nodes), stored, p);
    }

    lemma AtEdge(p: Key, t: int, stored: map<Key, Entry<S>>)
      requires Mirrors(stored) && p in nodes
      ensures t in nodes[p].children <==> Child(p, t) in nodes
      ensures t in nodes[p].children ==> nodes[p].children[t] == nodes[Child(p, t)]
    {
      EdgeKnown(nodes, Image(nodes), stored, p, t);
    }

    method AddChild(node: Node<S>, t: int, ghost p: Key, ghost stored: map<Key, Entry<S>>)
      requires Mirrors(stored) && p in nodes && nodes[p] == node
      requires Child(p, t) !in nodes && Child(p, t) !in stored
      modifies this`nodes, node
      ensures Child(p, t) in nodes && nodes == old(nodes)[Child(p, t) := nodes[Child(p, t)]]
      ensures fresh(nodes[Child(p, t)]) && Mirrors(stored)
    {
      hide Linked, Child;
      ghost var before := Image(nodes);
      NodeIsSole(nodes, before, stored, p);
      ghost var c := Child(p, t);
      var child := new Node<S>();
      AddChildKeepsLinked(nodes, before, stored, p, t, child);
      node.children := node.children[t := child];
      nodes := nodes[c := child];
      forall q | q in nodes
        ensures NodeValue(nodes[q].children, nodes[q].entry) == WithChild(before, p, t, child)[q]
      {
        assert q == c || q in before;
      }
      assert Image(nodes) == WithChild(before, p, t, child);
    }

    method SetEntry(node: Node<S>, entry: Entry<S>, ghost p: Key, ghost stored: map<Key, Entry<S>>)
      requires Mirrors(stored) && p in nodes && nodes[p] == node
      modifies node`entry
      ensures Mirrors(stored[p := entry])
    {
      hide Linked;
      ghost var before := Image(nodes);
      NodeIsSole(nodes, before, stored, p);
      SetEntryKeepsLinked(nodes, before, stored, p, entry);
      node.entry := Some(entry);
      assert Image(nodes) == before[p := before[p].(entry := Some(entry))];
    }

    method ClearEntry(node: Node<S>, ghost p: Key, ghost stored: map<Key, Entry<S>>)
      requires Mirrors(stored) && p in nodes && nodes[p] == node
      modifies node`entry
      ensures Mirrors(stored - {p})
    {
      hide Linked;
      ghost var before := Image(nodes);
      NodeIsSole(nodes, before, stored, p);
      ClearEntryKeepsLinked(nodes, before, stored, p);
      node.entry := None;
      assert Image(nodes) == before[p := before[p].(entry := None)];
    }

    method RemoveLeaf(parent: Node<S>, t: int, ghost p: Key, ghost stored: map<Key, Entry<S>>)
      requires Mirrors(stored) && p in nodes && nodes[p] == parent && Child(p, t) in nodes
      requires nodes[Child(p, t)].children == map[] && Child(p, t) !in stored
      modifies this`nodes, parent`children
      ensures Mirrors(stored) && nodes == old(nodes) - {Child(p, t)}
    {
      hide Linked, Child;
      ghost var before := Image(nodes);
      NodeIsSole(nodes, before, stored, p);
      RemoveLeafKeepsLinked(nodes, before, stored, p, t);
      parent.children := parent.children - {t};
      nodes := nodes - {Child(p, t)};
      forall q | q in nodes
        ensures NodeValue(nodes[q].children, nodes[q].entry) == WithoutChild(before, p, t)[q]
      {
        assert q in before;
      }
      assert Image(nodes) == WithoutChild(before, p, t);
    }

    /** The child for a token, created if it is missing. */
    method SetDefault(node: Node<S>, t: int, ghost p: Key, ghost stored: map<Key, Entry<S>>) returns (child: Node<S>)
      requires Mirrors(stored) && p in nodes && nodes[p] == node && stored.Keys <= nodes.Keys
      modifies this`nodes, node
      ensures Mirrors(stored) && nodes == old(nodes)[Child(p, t) := child]
      ensures if Child(p, t) in old(nodes) then nodes == old(nodes) else fresh(child)
    {
      hide Mirrors, Child;
      AtEdge(p, t, stored);
      if t !in node.children {
        AddChild(node, t, p, stored);
        AtEdge(p, t, stored);
      }
      child := node.children[t];
      assert Child(p, t) in old(nodes) ==> nodes == old(nodes)[Child(p, t) := child];
    }

    method InsertPath(key: Key, entry: Entry<S>, ghost stored: map<Key, Entry<S>>)
      requires TrieHolds(stored)
      modifies this`nodes, nodes.Values
      ensures TrieHolds(stored[key := entry])
      ensures fresh(nodes.Values - old(nodes.Values))
    {
      hide Mirrors, Pruned, Grown;
      var node := GrowPath(key, stored);
      SetEntry(node, entry, key, stored);
      InsertKeepsPruned(old(nodes).Keys, stored.Keys, key, nodes.Keys);
      assert stored[key := entry].Keys == stored.Keys + {key};
    }

    /** Walks down from the root along the key, creating the nodes that are missing. */
    method GrowPath(key: Key, ghost stored: map<Key, Entry<S>>) returns (node: Node<S>)
      requires TrieHolds(stored)
      modifies this`nodes, nodes.Values
      ensures Mirrors(stored) && Grown(nodes.Keys, old(nodes).Keys, key)
      ensures [] in nodes && nodes[[]] == root && key in nodes && nodes[key] == node
      ensures fresh(nodes.Values - old(nodes.Values))
    {
      hide Mirrors, Pruned, Child, Grown;
      TrieKnown(stored);
      node := root;
      PathsStart(nodes.Keys, key);
      for i := 0 to |key|
        invariant Grown(nodes.Keys, old(nodes).Keys, key[..i])
        invariant key[..i] in nodes && node == nodes[key[..i]] && [] in nodes && nodes[[]] == root
        invariant Mirrors(stored) && stored.Keys <= nodes.Keys
        invariant fresh(nodes.Values - old(nodes.Values))
      {
        NextPath(key, i);
        PathsGrow(nodes.Keys, old(nodes).Keys, key, i);
        ghost var before := nodes;
        node := SetDefault(node, key[i], key[..i], stored);
        assert nodes.Values <= before.Values + {node} && nodes.Keys == before.Keys + {key[..i + 1]};
      }
      assert key[..|key|] == key;
    }

    /** Unmarks a key's node and deletes the branch above it that nothing else needs. */
    method RemoveRadixEntry(key: Key, ghost stored: map<Key, Entry<S>>)
      requires TrieHolds(stored)
      modifies this`nodes, nodes.Values
      ensures TrieHolds(stored - {key})
      ensures nodes.Values <= old(nodes.Values)
    {
      hide Linked, Image, Mirrors, Pruned, PrunedAbove, Child;
      TrieKnown(stored);
      var path: seq<Hop<S>> := [];
      var node := root;
      assert key[..0] == [];
      for i := 0 to |key|
        modifies {}
        invariant Descent(path, key, i, nodes) && node == nodes[key[..i]]
      {
        AtEdge(key[..i], key[i], stored);
        NextPath(key, i);
        if key[i] !in node.children {
          Absent(key, i, stored);
          assert stored - {key} == stored;
          return;
        }
        path := path + [Hop(node, key[i], node.children[key[i]])];
        node := node.children[key[i]];
      }
      assert key[..|key|] == key;
      ghost var left := stored - {key};
      CuttingStarts(nodes.Keys, stored.Keys, key);
      assert stored.Keys - {key} == left.Keys;
      ClearEntry(node, key, stored);
      CutBranch(path, key, left);
    }

    lemma TrieKnown(stored: map<Key, Entry<S>>)
      requires TrieHolds(stored)
      ensures stored.Keys <= nodes.Keys
    {
      StoredPresent(nodes, Image(nodes), stored);
    }

    lemma Absent(key: Key, i: nat, stored: map<Key, Entry<S>>)
      requires TrieHolds(stored) && i < |key| && key[..i + 1] !in nodes
      ensures key !in stored
    {
      TrieKnown(stored);
      KeyAbsent(nodes, Image(nodes), stored, key, i);
    }

    /** Deletes nodes upwards from `key` until one carries an entry or another branch. */
    method CutBranch(path: seq<Hop<S>>, key: Key, ghost left: map<Key, Entry<S>>)
      requires Descent(path, key, |key|, nodes) && nodes[[]] == root
      requires Mirrors(left) && PrunedAbove(nodes.Keys, left.Keys, key, |key|)
      modifies this`nodes, nodes.Values
      ensures TrieHolds(left)
      ensures nodes.Values <= old(nodes.Values)
    {
      hide Linked, Image, Mirrors, Pruned, PrunedAbove, Child;
      var i := |path|;
      assert path[..i] == path;
      while i > 0
        invariant 0 <= i <= |path| == |key| && Descent(path[..i], key, i, nodes)
        invariant Mirrors(left) && PrunedAbove(nodes.Keys, left.Keys, key, i)
        invariant [] in nodes && nodes[[]] == root
        invariant nodes.Values <= old(nodes.Values)
      {
        var hop := path[i - 1];
        assert path[..i][i - 1] == hop;
        ghost var p, c := key[..i - 1], key[..i];
        NextPath(key, i - 1);
        AtNode(c, left);
        AtEdge(p, key[i - 1], left);
        if hop.child.entry.Some? || hop.child.children != map[] {
          CuttingEnds(nodes.Keys, left.Keys, key, i);
          return;
        }
        CutKeepsPruned(nodes.Keys, left.Keys, key, i);
        ghost var before := nodes;
        RemoveLeaf(hop.parent, hop.token, p, left);
        assert nodes.Keys == before.Keys - {c};
        DescentShrinks(path[..i], key, i, before);
        assert path[..i][..i - 1] == path[..i - 1];
        i := i - 1;
      }
      CuttingEnds(nodes.Keys, left.Keys, key, 0);
    }

    /** The longest stored prefix of the query, or with `exactOnly` the query itself if stored.
        A hit becomes the most recently used key. */
    method LongestPrefix(query: Key, exactOnly: bool) returns (r: Option<Match<S>>)
      requires Valid()
      modifies this
      ensures Valid() && nodes == old(nodes) && entries == old(entries) && cachedTokens == old(cachedTokens)
      ensures var best := LongestKey(entries.Keys, query);
              best.Some? ==> best.value in entries
      ensures var best := LongestKey(entries.Keys, query);
              r == if maxEntries == 0 || best.None? || (exactOnly && best.value != query) then None
                   else Some(Match(best.value, entries[best.value].state, best.value == query))
      ensures order == if r.None? then old(order) else Without(old(order), r.value.tokens) + [r.value.tokens]
      ensures r.Some? ==> r.value.tokens in old(order)
      ensures bypasses == old(bypasses) + if maxEntries == 0 then 1 else 0
      ensures misses == old(misses) + if maxEntries > 0 && r.None? then 1 else 0
      ensures hits == old(hits) + if r.Some? then 1 else 0
      ensures exactHits == old(exactHits) + if r.Some? && r.value.exact then 1 else 0
      ensures matchedTokens == old(matchedTokens) + if r.Some? then |r.value.tokens| else 0
      ensures insertions == old(insertions) && evictions == old(evictions)
    {
      hide TrieHolds, Indexed, Tokens, LongestKey, Without;
      LongestKeyIsLongest(entries.Keys, query);
      ListedKnown();
      if maxEntries == 0 {
        bypasses := bypasses + 1;
        return None;
      }
      var entry := Lookup(query, exactOnly);
      if entry.None? {
        misses := misses + 1;
        return None;
      }
      MoveToEnd(entry.value.tokens);
      var exact := CountHit(entry.value.tokens, query);
      r := Some(Match(entry.value.tokens, entry.value.state, exact));
    }

    method CountHit(found: Key, query: Key) returns (exact: bool)
      modifies this`hits, this`exactHits, this`partialHits, this`matchedTokens
      ensures exact <==> found == query
      ensures hits == old(hits) + 1 && matchedTokens == old(matchedTokens) + |found|
      ensures exactHits == old(exactHits) + (if exact then 1 else 0)
      ensures partialHits == old(partialHits) + (if exact then 0 else 1)
    {
      hits := hits + 1;
      exact := found == query;
      exactHits := exactHits + if exact then 1 else 0;
      partialHits := partialHits + if exact then 0 else 1;
      matchedTokens := matchedTokens + |found|;
    }

    method Lookup(query: Key, exactOnly: bool) returns (entry: Option<Entry<S>>)
      requires Listed() && TrieHolds(entries)
      ensures var best := LongestKey(entries.Keys, query);
              if best.None? || (exactOnly && best.value != query) then entry.None?
              else entry.Some? && best.value in entries && entry.value == entries[best.value]
                   && entry.value.tokens == best.value
    {
      hide TrieHolds, LongestKey;
      LongestKeyIsLongest(entries.Keys, query);
      entry := Descend(query);
      if exactOnly && (entry.None? || entry.value.tokens != query) {
        entry := None;
      }
    }

    /** Walks the trie along the query, remembering the last entry passed. */
    method Descend(query: Key) returns (entry: Option<Entry<S>>)
      requires TrieHolds(entries) && [] !in entries
      ensures entry == match LongestKey(entries.Keys, query)
                       case None => None
                       case Some(best) => Find(entries, best)
    {
      hide Linked, Image, Mirrors, Pruned, Child;
      var node := root;
      entry := None;
      var i := 0;
      assert query[..0] == [];
      while i < |query|
        invariant i <= |query| && query[..i] in nodes && node == nodes[query[..i]]
        invariant entry == match LongestKey(entries.Keys, query[..i])
                           case None => None
                           case Some(best) => Find(entries, best)
      {
        NextPath(query, i);
        AtEdge(query[..i], query[i], entries);
        if query[i] !in node.children {
          Beyond(query, i);
          return;
        }
        node := node.children[query[i]];
        AtNode(query[..i + 1], entries);
        if node.entry.Some? {
          entry := node.entry;
        }
        assert query[..i + 1][..i] == query[..i];
        i := i + 1;
      }
      assert query[..|query|] == query;
    }

    lemma Beyond(query: Key, i: nat)
      requires TrieHolds(entries) && i < |query| && query[..i + 1] !in nodes
      ensures LongestKey(entries.Keys, query) == LongestKey(entries.Keys, query[..i])
    {
      TrieKnown(entries);
      NothingBeyond(nodes, Image(nodes), entries, query, i);
    }

    lemma ListedKnown()
      requires Listed()
      ensures forall k :: k in entries ==> k in order && k != [] && entries[k].tokens == k
      ensures forall k :: k in order ==> k in entries
      ensures cachedTokens == Tokens(order)
    {}

    method MoveToEnd(key: Key)
      requires Listed() && key in entries
      modifies this`order
      ensures Listed() && order == Without(old(order), key) + [key] && |order| == |old(order)|
    {
      hide Indexed, Tokens, Without;
      ListedKnown();
      StoreKeepsIndexed(order, entries, key, entries[key].state);
      assert entries[key := Entry(key, entries[key].state)] == entries;
      order := Without(order, key) + [key];
    }

    /** Stores a prefix as most recently used, then evicts the oldest until the limits hold: none if
        they hold already, and never one more than needed. */
    method Put(key: Key, state: S) returns (r: Result<bool, CacheError>)
      requires Valid()
      modifies this, nodes.Values
      ensures Valid() && fresh(nodes.Values - old(nodes.Values))
      ensures key == [] ==> r == Failure(EmptyPrefix)
      ensures key != [] ==> r == Success(maxEntries > 0 && |key| <= maxTokens)
      ensures r != Success(true) ==> order == old(order) && entries == old(entries)
      ensures r == Success(true) ==>
                && key in entries && entries[key] == Entry(key, state)
                && forall k :: k in entries && k != key ==> k in old(entries) && entries[k] == old(entries)[k]
      ensures r == Success(true) ==>
                var all, n := Without(old(order), key) + [key], evictions - old(evictions);
                && 0 <= n < |all| && order == all[n..]
                && |order| <= maxEntries && Tokens(order) <= maxTokens
                && (n > 0 ==> |all[n - 1..]| > maxEntries || Tokens(all[n - 1..]) > maxTokens)
      ensures r != Success(true) ==> evictions == old(evictions)
      ensures insertions == old(insertions) + if r == Success(true) then 1 else 0
      ensures bypasses == old(bypasses) + if r == Success(false) then 1 else 0
    {
      hide TrieHolds, Listed, Without, Surviving, Tokens;
      if key == [] {
        return Failure(EmptyPrefix);
      }
      if maxEntries == 0 || |key| > maxTokens {
        bypasses := bypasses + 1;
        return Success(false);
      }
      Store(key, state);
      Evict(key);
      r := Success(key in entries);
    }

    method Store(key: Key, state: S)
      requires Listed() && TrieHolds(entries) && key != []
      modifies this`order, this`entries, this`cachedTokens, this`insertions, this`nodes, nodes.Values
      ensures Listed() && TrieHolds(entries) && fresh(nodes.Values - old(nodes.Values))
      ensures order == Without(old(order), key) + [key]
      ensures entries == old(entries)[key := Entry(key, state)]
      ensures insertions == old(insertions) + 1
    {
      hide TrieHolds, Indexed, Tokens, Without;
      ListedKnown();
      StoreKeepsIndexed(order, entries, key, state);
      if key in entries {
        cachedTokens := cachedTokens - |entries[key].tokens|;
        order := Without(order, key);
      }
      var entry := Entry(key, state);
      InsertPath(key, entry, entries);
      entries := entries[key := entry];
      order := order + [key];
      cachedTokens := cachedTokens + |entry.tokens|;
      insertions := insertions + 1;
    }

    method Evict(newest: Key)
      requires Listed() && TrieHolds(entries)
      requires order != [] && order[|order| - 1] == newest && maxEntries > 0 && |newest| <= maxTokens
      modifies this`order, this`entries, this`cachedTokens, this`evictions, this`nodes, nodes.Values
      ensures Listed() && TrieHolds(entries) && nodes.Values <= old(nodes.Values)
      ensures forall k :: k in entries ==> k in old(entries) && entries[k] == old(entries)[k]
      ensures var n := evictions - old(evictions);
              && 0 <= n < |old(order)| && order == old(order)[n..] && newest in entries
              && |order| <= maxEntries && cachedTokens == Tokens(order) <= maxTokens
              && (n > 0 ==> |old(order)[n - 1..]| > maxEntries || Tokens(old(order)[n - 1..]) > maxTokens)
    {
      hide TrieHolds, Listed, Tokens, Surviving, Evictions;
      LastEviction(order, maxEntries, maxTokens);
      MakeRoom(newest);
      ListedKnown();
    }

    /** The loop: evicts the oldest while a limit is exceeded. */
    method MakeRoom(newest: Key)
      requires Listed() && TrieHolds(entries)
      requires order != [] && order[|order| - 1] == newest && maxEntries > 0 && |newest| <= maxTokens
      modifies this`order, this`entries, this`cachedTokens, this`evictions, this`nodes, nodes.Values
      ensures Listed() && TrieHolds(entries) && nodes.Values <= old(nodes.Values)
      ensures order == Surviving(old(order), maxEntries, maxTokens)
      ensures |order| <= maxEntries && cachedTokens <= maxTokens && newest in entries
      ensures forall k :: k in entries ==> k in old(entries) && entries[k] == old(entries)[k]
      ensures evictions == old(evictions) + Evictions(old(order), maxEntries, maxTokens)
    {
      hide TrieHolds, Listed, Surviving, Evictions, Tokens;
      ListedKnown();
      while |order| > maxEntries || cachedTokens > maxTokens
        invariant Listed() && TrieHolds(entries) && nodes.Values <= old(nodes.Values)
        invariant order != [] && order[|order| - 1] == newest
        invariant Surviving(order, maxEntries, maxTokens) == Surviving(old(order), maxEntries, maxTokens)
        invariant evictions + Evictions(order, maxEntries, maxTokens)
               == old(evictions) + Evictions(old(order), maxEntries, maxTokens)
        invariant forall k :: k in entries ==> k in old(entries) && entries[k] == old(entries)[k]
        decreases |order|
      {
        OneEviction(order, maxEntries, maxTokens);
        ListedKnown();
        EvictOldest();
      }
      ListedKnown();
      OneEviction(order, maxEntries, maxTokens);
    }

    method EvictOldest()
      requires Listed() && TrieHolds(entries) && order != []
      modifies this`order, this`entries, this`cachedTokens, this`evictions, this`nodes, nodes.Values
      ensures Listed() && TrieHolds(entries) && nodes.Values <= old(nodes.Values)
      ensures order == old(order)[1..] && entries == old(entries) - {old(order)[0]}
      ensures evictions == old(evictions) + 1
    {
      hide TrieHolds, Indexed, Tokens;
      EvictKeepsIndexed(order, entries);
      ListedKnown();
      var evictedKey := order[0];
      var evicted := entries[evictedKey];
      order := order[1..];
      RemoveRadixEntry(evictedKey, entries);
      entries := entries - {evictedKey};
      cachedTokens := cachedTokens - |evicted.tokens|;
      evictions := evictions + 1;
    }

    method Get(query: Key) returns (r: Option<S>)
      requires Valid()
      modifies this
      ensures Valid() && nodes == old(nodes) && entries == old(entries)
      ensures r == if query in entries then Some(entries[query].state) else None
    {
      LongestKeyIsLongest(entries.Keys, query);
      var found := LongestPrefix(query, true);
      r := if found.Some? then Some(found.value.state) else None;
    }

    method Clear()
      requires Valid()
      modifies this
      ensures Valid() && fresh(nodes.Values) && order == [] && entries == map[]
    {
      hide TrieHolds;
      var empty := new Node<S>();
      order, entries, cachedTokens := [], map[], 0;
      root, nodes := empty, map[[] := empty];
      NothingMirrored();
    }

    lemma NothingMirrored()
      requires nodes == map[[] := root] && root.children == map[] && root.entry == None
      ensures TrieHolds(map[])
    {
      EmptyTrie(root);
      assert Image(nodes) == map[[] := NodeValue(map[], None)];
      assert nodes.Keys == {[]};
    }

    /** The trie is no larger than the tokens it caches, which never exceed the limit. */
    lemma TrieIsSmall()
      requires Valid()
      ensures |nodes| - 1 <= cachedTokens == Tokens(order) <= maxTokens
    {
      NodesBounded(nodes.Keys, order);
      assert |nodes| == |nodes.Keys|;
    }
  }
}
