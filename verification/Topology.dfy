/**
 The device topology graph of `serving_platform/topology/models.py`: construction from links,
 least path costs by Dijkstra's algorithm with lazy deletion, and the cost of a worker group.
 */
module Topology {
  import opened Wrappers
  import opened Sequences

  datatype Link = Link(source: string, target: string, cost: real) {
    predicate Valid() {
      source != target && cost > 0.0
    }
  }

  /** One adjacency entry: a neighbour and the cost of the edge to it. */
  datatype Step = Step(node: string, cost: real)

  type Adjacency = map<string, seq<Step>>

  datatype TopologyError = DuplicateEndpoint | UnknownEndpoint | DuplicateLink | DuplicateMember

  /** A path cost; infinite when there is no path. */
  datatype Cost = Finite(value: real) | Infinite

  function Plus(a: Cost, b: Cost): Cost {
    if a.Finite? && b.Finite? then Finite(a.value + b.value) else Infinite
  }

  // ---------------------------------------------------------------- construction

  predicate Joins(link: Link, u: string, v: string) {
    (link.source == u && link.target == v) || (link.source == v && link.target == u)
  }

  /** The error construction raises: endpoints first, then the first offending link, each link
      being checked for unknown endpoints before repetition. */
  function LinkError(endpoints: seq<string>, links: seq<Link>): Option<TopologyError> {
    if links == [] then None
    else
      var earlier, link := links[..|links| - 1], links[|links| - 1];
      var error := LinkError(endpoints, earlier);
      if error.Some? then error
      else if link.source !in endpoints || link.target !in endpoints then Some(UnknownEndpoint)
      else if exists l :: l in earlier && Joins(l, link.source, link.target) then Some(DuplicateLink)
      else None
  }

  /** The adjacency is exactly the links, read in both directions. */
  ghost predicate Represents(adjacency: Adjacency, links: seq<Link>) {
    forall u :: u in adjacency ==> forall s :: s in adjacency[u] <==>
      exists l :: l in links && Joins(l, u, s.node) && l.cost == s.cost
  }

  // ---------------------------------------------------------------- sound links

  /** The unordered pair of endpoints a link connects. */
  function Pair(link: Link): set<string> {
    {link.source, link.target}
  }

  /** All links are between known endpoints, and no two connect the same pair. */
  ghost predicate SoundLinks(endpoints: seq<string>, links: seq<Link>) {
    && (forall l :: l in links ==> Pair(l) <= Elements(endpoints))
    && (forall i, j :: 0 <= i < j < |links| ==> Pair(links[i]) != Pair(links[j]))
  }

  /** The links before number `k` are sound, and `error` says what is wrong with that one. */
  ghost predicate BadLink(endpoints: seq<string>, links: seq<Link>, k: nat, error: TopologyError)
    requires k < |links|
  {
    && SoundLinks(endpoints, links[..k])
    && (if Pair(links[k]) <= Elements(endpoints)
        then error == DuplicateLink && exists i :: 0 <= i < k && Pair(links[i]) == Pair(links[k])
        else error == UnknownEndpoint)
  }

  lemma SoundLinksAppend(endpoints: seq<string>, links: seq<Link>, link: Link)
    requires SoundLinks(endpoints, links)
    ensures SoundLinks(endpoints, links + [link]) <==>
              Pair(link) <= Elements(endpoints) && forall l :: l in links ==> Pair(l) != Pair(link)
  {
    var all := links + [link];
    if SoundLinks(endpoints, all) {
      assert all[|links|] == link && forall i :: 0 <= i < |links| ==> all[i] == links[i];
      assert link in all;
    }
  }

  lemma JoinsIsPair(l: Link, link: Link)
    ensures Joins(l, link.source, link.target) <==> Pair(l) == Pair(link)
  {
    if Pair(l) == Pair(link) {
      assert l.source in Pair(link) && l.target in Pair(link) && link.source in Pair(l) && link.target in Pair(l);
    }
  }

  /** The error is about the first link that is not sound beside those before it. */
  lemma {:induction false} LinkErrorMeans(endpoints: seq<string>, links: seq<Link>)
    ensures LinkError(endpoints, links).None? <==> SoundLinks(endpoints, links)
    ensures LinkError(endpoints, links).Some? ==>
              exists k: nat :: k < |links| && BadLink(endpoints, links, k, LinkError(endpoints, links).value)
  {
    hide SoundLinks, Pair;
    if links == [] {
      NoLinksAreSound(endpoints);
    } else {
      var n := |links| - 1;
      var earlier, link := links[..n], links[n];
      LinkErrorMeans(endpoints, earlier);
      assert links == earlier + [link];
      if LinkError(endpoints, earlier).Some? {
        var k: nat :| k < n && BadLink(endpoints, earlier, k, LinkError(endpoints, earlier).value);
        assert earlier[..k] == links[..k];
        assert BadLink(endpoints, links, k, LinkError(endpoints, links).value);
        SoundLinksPrefix(endpoints, links);
      } else {
        SoundLinksAppend(endpoints, earlier, link);
        forall l ensures Joins(l, link.source, link.target) <==> Pair(l) == Pair(link) {
          JoinsIsPair(l, link);
        }
        PairKnown(endpoints, link);
        assert forall l :: l in earlier <==> exists i :: 0 <= i < n && links[i] == l;
        assert LinkError(endpoints, links).Some? ==> BadLink(endpoints, links, n, LinkError(endpoints, links).value);
      }
    }
  }

  lemma NoLinksAreSound(endpoints: seq<string>)
    ensures SoundLinks(endpoints, [])
  {}

  lemma SoundLinksPrefix(endpoints: seq<string>, links: seq<Link>)
    requires links != []
    ensures SoundLinks(endpoints, links) ==> SoundLinks(endpoints, links[..|links| - 1])
  {}

  lemma PairKnown(endpoints: seq<string>, link: Link)
    ensures Pair(link) <= Elements(endpoints) <==> link.source in endpoints && link.target in endpoints
  {}

  /** An endpoint's neighbours, told by pairs. */
  lemma RepresentsMeans(adjacency: Adjacency, links: seq<Link>)
    requires Represents(adjacency, links)
    ensures forall u, s :: u in adjacency ==>
              (s in adjacency[u] <==> exists l :: l in links && Pair(l) == {u, s.node} && l.cost == s.cost)
  {
    forall u, s | u in adjacency
      ensures s in adjacency[u] <==> exists l :: l in links && Pair(l) == {u, s.node} && l.cost == s.cost
    {
      forall l: Link ensures Joins(l, u, s.node) <==> Pair(l) == {u, s.node} {
        JoinsIsPair(l, Link(u, s.node, 0.0));
      }
    }
  }

  /** Succeeds exactly if the endpoints are distinct and the links are sound; an endpoint's
      neighbours are then exactly those that a link pairs it with, at that link's cost. */
  method Build(endpoints: seq<string>, links: seq<Link>) returns (r: Result<Adjacency, TopologyError>)
    requires forall l :: l in links ==> l.Valid()
    ensures !NoDuplicates(endpoints) ==> r == Failure(DuplicateEndpoint)
    ensures r.Success? <==> NoDuplicates(endpoints) && SoundLinks(endpoints, links)
    ensures NoDuplicates(endpoints) && r.Failure? ==>
              exists k: nat :: k < |links| && BadLink(endpoints, links, k, r.error)
    ensures r.Success? ==> r.value.Keys == Elements(endpoints) && Represents(r.value, links) && Proper(r.value)
    ensures r.Success? ==>
              forall u, s :: u in r.value ==>
                (s in r.value[u] <==> exists l :: l in links && Pair(l) == {u, s.node} && l.cost == s.cost)
  {
    r := FromLinks(endpoints, links);
    LinkErrorMeans(endpoints, links);
    if r.Success? {
      RepresentsMeans(r.value, links);
    }
  }

  method FromLinks(endpoints: seq<string>, links: seq<Link>) returns (r: Result<Adjacency, TopologyError>)
    requires forall l :: l in links ==> l.Valid()
    ensures !NoDuplicates(endpoints) ==> r == Failure(DuplicateEndpoint)
    ensures NoDuplicates(endpoints) && LinkError(endpoints, links).Some? ==>
              r == Failure(LinkError(endpoints, links).value)
    ensures NoDuplicates(endpoints) && LinkError(endpoints, links).None? ==> r.Success?
    ensures r.Success? ==> r.value.Keys == Elements(endpoints) && Represents(r.value, links) && Proper(r.value)
  {
    hide Represents, Proper, LinkError, Appended;
    DistinctCount(endpoints);
    if |Elements(endpoints)| != |endpoints| {
      return Failure(DuplicateEndpoint);
    }
    var adjacency: Adjacency := map id | id in endpoints :: [];
    NothingRepresented(endpoints, adjacency);
    for k := 0 to |links|
      invariant adjacency.Keys == Elements(endpoints)
      invariant LinkError(endpoints, links[..k]).None?
      invariant Represents(adjacency, links[..k]) && Proper(adjacency)
    {
      var link := links[k];
      assert links[..k + 1] == links[..k] + [link];
      NextLinkError(endpoints, links[..k], link);
      FirstErrorStands(endpoints, links, k + 1);
      if link.source !in adjacency || link.target !in adjacency {
        return Failure(UnknownEndpoint);
      }
      if exists l :: l in links[..k] && Joins(l, link.source, link.target) {
        return Failure(DuplicateLink);
      }
      assert link.Valid();
      AppendKeepsRepresents(adjacency, links[..k], link);
      AppendedKeys(adjacency, link);
      adjacency := Appended(adjacency, link);
    }
    assert links[..|links|] == links;
    r := Success(adjacency);
  }

  lemma NothingRepresented(endpoints: seq<string>, adjacency: Adjacency)
    requires adjacency.Keys == Elements(endpoints) && forall u :: u in adjacency ==> adjacency[u] == []
    ensures LinkError(endpoints, []).None? && Represents(adjacency, []) && Proper(adjacency)
  {}

  lemma NextLinkError(endpoints: seq<string>, earlier: seq<Link>, link: Link)
    requires LinkError(endpoints, earlier).None?
    ensures LinkError(endpoints, earlier + [link]) ==
              if link.source !in endpoints || link.target !in endpoints then Some(UnknownEndpoint)
              else if exists l :: l in earlier && Joins(l, link.source, link.target) then Some(DuplicateLink)
              else None
  {
    assert (earlier + [link])[..|earlier|] == earlier;
  }

  function Appended(adjacency: Adjacency, link: Link): Adjacency
    requires link.source in adjacency && link.target in adjacency
  {
    var first := adjacency[link.source := adjacency[link.source] + [Step(link.target, link.cost)]];
    first[link.target := first[link.target] + [Step(link.source, link.cost)]]
  }

  lemma {:induction false} FirstErrorStands(endpoints: seq<string>, links: seq<Link>, k: nat)
    requires k <= |links|
    ensures LinkError(endpoints, links[..k]).Some? ==>
              LinkError(endpoints, links) == LinkError(endpoints, links[..k])
    decreases |links|
  {
    if k == |links| {
      assert links[..k] == links;
    } else {
      assert links[..|links| - 1][..k] == links[..k];
      FirstErrorStands(endpoints, links[..|links| - 1], k);
    }
  }

  lemma AppendedSteps(adjacency: Adjacency, link: Link, u: string, s: Step)
    requires link.source in adjacency && link.target in adjacency && link.source != link.target && u in adjacency
    ensures s in Appended(adjacency, link)[u] <==>
              s in adjacency[u] || (Joins(link, u, s.node) && s.cost == link.cost)
  {}

  lemma AppendKeepsRepresents(adjacency: Adjacency, links: seq<Link>, link: Link)
    requires Represents(adjacency, links) && Proper(adjacency) && link.Valid()
    requires link.source in adjacency && link.target in adjacency
    ensures Represents(Appended(adjacency, link), links + [link])
    ensures Proper(Appended(adjacency, link))
  {
    hide Appended, Joins;
    var after := Appended(adjacency, link);
    AppendedKeys(adjacency, link);
    forall u | u in after
      ensures forall s: Step :: s in after[u] <==>
                exists l :: l in links + [link] && Joins(l, u, s.node) && l.cost == s.cost
    {
      forall s: Step
        ensures s in after[u] <==> exists l :: l in links + [link] && Joins(l, u, s.node) && l.cost == s.cost
      {
        AppendedSteps(adjacency, link, u, s);
        assert forall l :: l in links + [link] <==> l in links || l == link;
      }
    }
    forall u: string, s: Step | u in after && s in after[u]
      ensures s.node in after && s.cost > 0.0 && Step(u, s.cost) in after[s.node]
    {
      AppendedSteps(adjacency, link, u, s);
      JoinsBothWays(link, u, s.node);
      AppendedSteps(adjacency, link, s.node, Step(u, s.cost));
    }
  }

  lemma AppendedKeys(adjacency: Adjacency, link: Link)
    requires link.source in adjacency && link.target in adjacency
    ensures Appended(adjacency, link).Keys == adjacency.Keys
  {}

  lemma JoinsBothWays(link: Link, u: string, v: string)
    ensures Joins(link, u, v) == Joins(link, v, u)
    ensures Joins(link, u, v) ==> v in {link.source, link.target}
  {}

  // ---------------------------------------------------------------- walks and least costs

  /** Edges stay inside the graph, cost something, and can be walked both ways. */
  ghost predicate Proper(adjacency: Adjacency) {
    forall u, s :: u in adjacency && s in adjacency[u] ==>
      s.node in adjacency && s.cost > 0.0 && Step(u, s.cost) in adjacency[s.node]
  }

  ghost function End(source: string, walk: seq<Step>): string {
    if walk == [] then source else walk[|walk| - 1].node
  }

  ghost predicate Walk(adjacency: Adjacency, source: string, walk: seq<Step>) {
    if walk == [] then source in adjacency
    else
      var init := walk[..|walk| - 1];
      Walk(adjacency, source, init)
      && End(source, init) in adjacency && walk[|walk| - 1] in adjacency[End(source, init)]
  }

  ghost function Length(walk: seq<Step>): real {
    if walk == [] then 0.0 else Length(walk[..|walk| - 1]) + walk[|walk| - 1].cost
  }

  ghost predicate Connects(adjacency: Adjacency, source: string, target: string, walk: seq<Step>) {
    Walk(adjacency, source, walk) && End(source, walk) == target
  }

  /** `d` is the least total cost over all walks, infinite when there is none. */
  ghost predicate IsDistance(adjacency: Adjacency, source: string, target: string, d: Cost) {
    match d
    case Infinite => forall walk :: !Connects(adjacency, source, target, walk)
    case Finite(c) =>
      && (exists walk :: Connects(adjacency, source, target, walk) && Length(walk) == c)
      && (forall walk :: Connects(adjacency, source, target, walk) ==> c <= Length(walk))
  }

  lemma {:induction false} WalkFacts(adjacency: Adjacency, source: string, walk: seq<Step>)
    requires Proper(adjacency) && Walk(adjacency, source, walk)
    ensures source in adjacency && End(source, walk) in adjacency
    ensures Length(walk) >= 0.0 && (walk != [] ==> Length(walk) > 0.0)
  {
    if walk != [] {
      WalkFacts(adjacency, source, walk[..|walk| - 1]);
    }
  }

  lemma {:induction false} WalksJoin(adjacency: Adjacency, source: string, first: seq<Step>, second: seq<Step>)
    requires Walk(adjacency, source, first) && Walk(adjacency, End(source, first), second)
    ensures Walk(adjacency, source, first + second)
    ensures End(source, first + second) == End(End(source, first), second)
    ensures Length(first + second) == Length(first) + Length(second)
  {
    if second == [] {
      assert first + second == first;
    } else {
      var init := second[..|second| - 1];
      WalksJoin(adjacency, source, first, init);
      assert (first + second)[..|first + second| - 1] == first + init;
    }
  }

  lemma {:induction false} WalkBack(adjacency: Adjacency, source: string, walk: seq<Step>) returns (back: seq<Step>)
    requires Proper(adjacency) && Walk(adjacency, source, walk)
    ensures Connects(adjacency, End(source, walk), source, back) && Length(back) == Length(walk)
  {
    WalkFacts(adjacency, source, walk);
    if walk == [] {
      back := [];
    } else {
      var init, last := walk[..|walk| - 1], walk[|walk| - 1];
      var rest := WalkBack(adjacency, source, init);
      WalkFacts(adjacency, source, init);
      var turn := [Step(End(source, init), last.cost)];
      assert turn[..0] == [] && Walk(adjacency, last.node, turn[..0]);
      assert Walk(adjacency, last.node, turn) && Length(turn) == last.cost;
      WalksJoin(adjacency, last.node, turn, rest);
      back := turn + rest;
    }
  }

  lemma DistanceIsUnique(adjacency: Adjacency, s: string, t: string, d: Cost, e: Cost)
    requires IsDistance(adjacency, s, t, d) && IsDistance(adjacency, s, t, e)
    ensures d == e
  {}

  lemma DistanceIsSymmetric(adjacency: Adjacency, s: string, t: string, d: Cost)
    requires Proper(adjacency) && IsDistance(adjacency, s, t, d)
    ensures IsDistance(adjacency, t, s, d)
  {
    forall walk | Connects(adjacency, t, s, walk)
      ensures d.Finite? && d.value <= Length(walk)
    {
      var back := WalkBack(adjacency, t, walk);
    }
    if d.Finite? {
      var walk :| Connects(adjacency, s, t, walk) && Length(walk) == d.value;
      var back := WalkBack(adjacency, s, walk);
    }
  }

  /** Path cost is a metric: going through a third endpoint is never cheaper, and only an
      endpoint itself is at distance zero. */
  lemma TriangleInequality(adjacency: Adjacency, s: string, t: string, u: string, st: Cost, tu: Cost, su: Cost)
    requires Proper(adjacency)
    requires IsDistance(adjacency, s, t, st) && IsDistance(adjacency, t, u, tu) && IsDistance(adjacency, s, u, su)
    ensures st.Finite? && tu.Finite? ==> su.Finite? && su.value <= st.value + tu.value
  {
    hide Walk, Proper;
    if st.Finite? && tu.Finite? {
      var first :| Connects(adjacency, s, t, first) && Length(first) == st.value;
      var second :| Connects(adjacency, t, u, second) && Length(second) == tu.value;
      WalksJoin(adjacency, s, first, second);
      assert Connects(adjacency, s, u, first + second);
    }
  }

  lemma OnlySelfIsFree(adjacency: Adjacency, s: string, t: string, d: Cost)
    requires Proper(adjacency) && s in adjacency && IsDistance(adjacency, s, t, d)
    ensures d == Finite(0.0) <==> s == t
  {
    hide Proper;
    if d == Finite(0.0) {
      var walk :| Connects(adjacency, s, t, walk) && Length(walk) == 0.0;
      WalkFacts(adjacency, s, walk);
    }
    DistanceToSelf(adjacency, s);
  }

  lemma DistanceToSelf(adjacency: Adjacency, source: string)
    requires Proper(adjacency) && source in adjacency
    ensures IsDistance(adjacency, source, source, Finite(0.0))
  {
    assert Connects(adjacency, source, source, []) && Length([]) == 0.0;
    forall walk | Connects(adjacency, source, source, walk)
      ensures 0.0 <= Length(walk)
    {
      WalkFacts(adjacency, source, walk);
    }
  }

  // ---------------------------------------------------------------- Dijkstra with lazy deletion

  datatype Entry = Entry(cost: real, node: string)

  /** What the search knows: tentative costs, a walk behind each, the heap, and which nodes
      have been expanded. */
  ghost predicate Witnessed(adjacency: Adjacency, source: string, distances: map<string, real>,
                            via: map<string, seq<Step>>) {
    && distances.Keys == via.Keys && source in distances && distances[source] == 0.0
    && forall v :: v in distances ==>
         Connects(adjacency, source, v, via[v]) && Length(via[v]) == distances[v]
  }

  /** No pair is in the heap twice, and none is cheaper than its node's tentative cost; a node is
      unexpanded exactly when its tentative cost is itself in the heap, and expanded nodes are
      cheapest of all. */
  ghost predicate Queued(distances: map<string, real>, queue: multiset<Entry>, expanded: set<string>) {
    && expanded <= distances.Keys
    && (forall e :: e in queue ==> queue[e] == 1 && e.node in distances && distances[e.node] <= e.cost)
    && (forall v :: v in distances ==> (v in expanded <==> Entry(distances[v], v) !in queue))
    && (forall v, e :: v in expanded && e in queue ==> distances[v] <= e.cost)
  }

  /** Everything pushed so far, each pair once; later costs of a node undercut the earlier ones, and
      each tentative cost was pushed. */
  ghost predicate PushedOnce(distances: map<string, real>, pushes: seq<Entry>) {
    && NoDuplicates(pushes) && (forall e :: e in pushes ==> e.node in distances && distances[e.node] <= e.cost)
    && forall node :: node in distances ==> Entry(distances[node], node) in pushes
  }

  lemma PushKeepsPushedOnce(distances: map<string, real>, pushes: seq<Entry>, node: string, candidate: real)
    requires PushedOnce(distances, pushes) && (node in distances ==> candidate < distances[node])
    ensures PushedOnce(distances[node := candidate], pushes + [Entry(candidate, node)])
  {
    ConcatNoDuplicates(pushes, [Entry(candidate, node)]);
  }

  /** `cost` separates the expanded nodes from the heap. */
  ghost predicate Separates(distances: map<string, real>, queue: multiset<Entry>, expanded: set<string>, cost: real) {
    && expanded <= distances.Keys && cost >= 0.0
    && (forall v :: v in expanded ==> distances[v] <= cost)
    && (forall e :: e in queue ==> cost <= e.cost)
  }

  /** Every edge out of an expanded node has been relaxed. */
  ghost predicate Relaxed(adjacency: Adjacency, distances: map<string, real>, expanded: set<string>) {
    forall v, s :: v in expanded && v in adjacency && s in adjacency[v] ==>
      v in distances && s.node in distances && distances[s.node] <= distances[v] + s.cost
  }

  /** Any walk costs at least its end's tentative cost if the end is expanded, and at least the
      least heap entry if it is not. */
  lemma {:induction false} WalksCostMore(adjacency: Adjacency, source: string, distances: map<string, real>,
                                         queue: multiset<Entry>, expanded: set<string>, least: real, walk: seq<Step>)
    requires Proper(adjacency) && Walk(adjacency, source, walk)
    requires source in distances && distances[source] == 0.0
    requires Queued(distances, queue, expanded) && Relaxed(adjacency, distances, expanded)
    requires forall e :: e in queue ==> least <= e.cost
    requires forall v :: v in expanded ==> distances[v] <= least
    ensures var x := End(source, walk);
            if x in expanded then distances[x] <= Length(walk) else queue != multiset{} && least <= Length(walk)
  {
    var x := End(source, walk);
    if walk == [] {
      assert x !in expanded ==> Entry(0.0, source) in queue;
    } else {
      var init, last := walk[..|walk| - 1], walk[|walk| - 1];
      WalksCostMore(adjacency, source, distances, queue, expanded, least, init);
      assert x !in expanded && x in distances ==> Entry(distances[x], x) in queue;
    }
  }

  lemma {:induction false} LeastExists(queue: multiset<Entry>) returns (least: Entry)
    requires queue != multiset{}
    ensures least in queue && forall e :: e in queue ==> least.cost <= e.cost
    decreases |queue|
  {
    var first :| first in queue;
    var rest := queue - multiset{first};
    least := first;
    if rest != multiset{} {
      var other := LeastExists(rest);
      if other.cost < first.cost {
        least := other;
      }
    }
    forall e | e in queue
      ensures least.cost <= e.cost
    {
      assert e == first || e in rest;
    }
  }

  /** Takes out an entry of least cost; which one, when costs tie, does not matter. */
  method HeapPop(queue: multiset<Entry>) returns (entry: Entry, rest: multiset<Entry>)
    requires queue != multiset{}
    ensures entry in queue && rest == queue - multiset{entry}
    ensures forall e :: e in queue ==> entry.cost <= e.cost
  {
    ghost var least := LeastExists(queue);
    entry :| entry in queue && forall e :: e in queue ==> entry.cost <= e.cost;
    rest := queue - multiset{entry};
  }

  /** Relaxing one edge of the node being expanded. */
  lemma ImproveKeepsQueued(distances: map<string, real>, queue: multiset<Entry>, expanded: set<string>,
                           node: string, candidate: real, least: real)
    requires Queued(distances, queue, expanded)
    requires Separates(distances, queue, expanded, least)
    requires least < candidate && (node in distances ==> candidate < distances[node])
    ensures var q := queue + multiset{Entry(candidate, node)};
            && Queued(distances[node := candidate], q, expanded) && node !in expanded
            && Separates(distances[node := candidate], q, expanded, least)
  {
    NewEntry(distances, queue, expanded, node, candidate, least);
    ImproveKeepsSeparates(distances, queue, expanded, node, candidate, least);
    var q, after := queue + multiset{Entry(candidate, node)}, distances[node := candidate];
    assert forall e :: e in q <==> e in queue || e == Entry(candidate, node);
    forall v | v in after
      ensures v in expanded <==> Entry(after[v], v) !in q
    {
      assert v != node ==> Entry(after[v], v) != Entry(candidate, node);
    }
    forall v, e | v in expanded && e in q
      ensures after[v] <= e.cost
    {
      assert v != node && distances[v] <= least;
    }
  }

  lemma ImproveKeepsSeparates(distances: map<string, real>, queue: multiset<Entry>, expanded: set<string>,
                              node: string, candidate: real, least: real)
    requires Separates(distances, queue, expanded, least) && node !in expanded && least < candidate
    ensures Separates(distances[node := candidate], queue + multiset{Entry(candidate, node)}, expanded, least)
  {
    assert forall e :: e in queue + multiset{Entry(candidate, node)} <==> e in queue || e == Entry(candidate, node);
  }

  lemma NewEntry(distances: map<string, real>, queue: multiset<Entry>, expanded: set<string>,
                 node: string, candidate: real, least: real)
    requires Queued(distances, queue, expanded) && Separates(distances, queue, expanded, least)
    requires least < candidate && (node in distances ==> candidate < distances[node])
    ensures node !in expanded && Entry(candidate, node) !in queue
    ensures forall e :: e in queue ==> (queue + multiset{Entry(candidate, node)})[e] == 1
  {}

  lemma ImproveKeepsRelaxed(adjacency: Adjacency, distances: map<string, real>, expanded: set<string>,
                            node: string, candidate: real)
    requires Relaxed(adjacency, distances, expanded) && node !in expanded
    requires node in distances ==> candidate < distances[node]
    ensures Relaxed(adjacency, distances[node := candidate], expanded)
  {}

  lemma ImproveKeepsWitnessed(adjacency: Adjacency, source: string, distances: map<string, real>,
                              via: map<string, seq<Step>>, from: string, edge: Step)
    requires Witnessed(adjacency, source, distances, via)
    requires from in distances && from in adjacency && edge in adjacency[from] && edge.node != source
    ensures Witnessed(adjacency, source, distances[edge.node := distances[from] + edge.cost],
                      via[edge.node := via[from] + [edge]])
  {
    var walk := via[from] + [edge];
    assert walk[..|walk| - 1] == via[from];
  }

  /** Relaxes the edges out of a node that is being expanded. */
  method Relax(adjacency: Adjacency, source: string, entry: Entry, initial: map<string, real>,
               queued: multiset<Entry>, ghost expanded: set<string>, ghost start: map<string, seq<Step>>,
               ghost earlier: seq<Entry>)
    returns (distances: map<string, real>, queue: multiset<Entry>, ghost via: map<string, seq<Step>>,
             ghost pushes: seq<Entry>)
    requires Proper(adjacency) && entry.node in adjacency
    requires Witnessed(adjacency, source, initial, start) && PushedOnce(initial, earlier)
    requires Queued(initial, queued, expanded)
    requires entry.node in expanded && initial[entry.node] == entry.cost
    requires Relaxed(adjacency, initial, expanded - {entry.node})
    requires entry.cost >= 0.0 && Separates(initial, queued, expanded, entry.cost)
    ensures Witnessed(adjacency, source, distances, via) && PushedOnce(distances, pushes)
    ensures Queued(distances, queue, expanded) && Relaxed(adjacency, distances, expanded)
    ensures earlier <= pushes && queue + multiset(earlier) == queued + multiset(pushes)
    ensures expanded <= distances.Keys && forall node :: node in initial ==> node in distances
  {
    hide Witnessed, Relaxed, Queued, Separates, PushedOnce;
    distances, queue, via, pushes := initial, queued, start, earlier;
    var edges := adjacency[entry.node];
    QueuedKnown(distances, queue, expanded);
    WitnessedKnown(adjacency, source, distances, via);
    for i := 0 to |edges|
      invariant expanded <= distances.Keys && distances.Keys == via.Keys
      invariant Witnessed(adjacency, source, distances, via) && PushedOnce(distances, pushes)
      invariant Queued(distances, queue, expanded)
      invariant Relaxed(adjacency, distances, expanded - {entry.node})
      invariant entry.node in expanded && distances[entry.node] == entry.cost
      invariant Separates(distances, queue, expanded, entry.cost)
      invariant forall s :: s in edges[..i] ==> s.node in distances && distances[s.node] <= entry.cost + s.cost
      invariant earlier <= pushes && queue + multiset(earlier) == queued + multiset(pushes)
      invariant forall node :: node in initial ==> node in distances
    {
      var edge := edges[i];
      assert edge in edges;
      assert edges[..i + 1] == edges[..i] + [edge];
      var candidate := entry.cost + edge.cost;
      WitnessedKnown(adjacency, source, distances, via);
      if edge.node !in distances || candidate < distances[edge.node] {
        ImproveKeepsQueued(distances, queue, expanded, edge.node, candidate, entry.cost);
        ImproveKeepsRelaxed(adjacency, distances, expanded - {entry.node}, edge.node, candidate);
        ImproveKeepsWitnessed(adjacency, source, distances, via, entry.node, edge);
        PushKeepsPushedOnce(distances, pushes, edge.node, candidate);
        PushCounts(queue, earlier, queued, pushes, Entry(candidate, edge.node));
        pushes := pushes + [Entry(candidate, edge.node)];
        via := via[edge.node := via[entry.node] + [edge]];
        distances := distances[edge.node := candidate];
        queue := queue + multiset{Entry(candidate, edge.node)};
      }
    }
    assert edges[..|edges|] == edges;
    AllRelaxed(adjacency, distances, expanded, entry.node);
  }

  lemma PushCounts(queue: multiset<Entry>, earlier: seq<Entry>, queued: multiset<Entry>, pushes: seq<Entry>, e: Entry)
    requires queue + multiset(earlier) == queued + multiset(pushes)
    ensures queue + multiset{e} + multiset(earlier) == queued + multiset(pushes + [e])
  {
    assert multiset(pushes + [e]) == multiset(pushes) + multiset{e};
    assert queue + multiset{e} + multiset(earlier) == (queue + multiset(earlier)) + multiset{e};
  }

  lemma WitnessedKnown(adjacency: Adjacency, source: string, distances: map<string, real>, via: map<string, seq<Step>>)
    requires Witnessed(adjacency, source, distances, via)
    ensures source in distances && distances[source] == 0.0 && distances.Keys == via.Keys
  {}

  lemma QueuedKnown(distances: map<string, real>, queue: multiset<Entry>, expanded: set<string>)
    requires Queued(distances, queue, expanded)
    ensures expanded <= distances.Keys && forall e :: e in queue ==> e.node in distances
  {}

  lemma AllRelaxed(adjacency: Adjacency, distances: map<string, real>, expanded: set<string>, node: string)
    requires Relaxed(adjacency, distances, expanded - {node}) && node in adjacency && node in distances
    requires forall s :: s in adjacency[node] ==> s.node in distances && distances[s.node] <= distances[node] + s.cost
    ensures Relaxed(adjacency, distances, expanded)
  {}

  /** What the heap went through: nothing was pushed twice, nothing popped that had not been pushed,
      and at every popped node but the target all neighbours have been relaxed. */
  ghost predicate HeapRun(adjacency: Adjacency, target: string, pushes: seq<Entry>, pops: seq<Entry>) {
    && NoDuplicates(pushes) && multiset(pops) <= multiset(pushes)
    && forall p :: p in pops && p.node != target ==> p.node in adjacency && NeighboursPushed(adjacency, p, pushes)
  }

  ghost predicate NeighboursPushed(adjacency: Adjacency, p: Entry, pushes: seq<Entry>)
    requires p.node in adjacency
  {
    forall s :: s in adjacency[p.node] ==> exists e :: e in pushes && e.node == s.node && e.cost <= p.cost + s.cost
  }

  /** The popped entries are of expanded nodes, and together with the heap they are all pushes. */
  ghost predicate Popped(queue: multiset<Entry>, expanded: set<string>,
                         pushes: seq<Entry>, pops: seq<Entry>) {
    && queue + multiset(pops) == multiset(pushes)
    && forall p :: p in pops ==> p.node in expanded
  }

  lemma PopGoesOn(queue: multiset<Entry>, expanded: set<string>, pushes: seq<Entry>,
                  pops: seq<Entry>, entry: Entry)
    requires Popped(queue, expanded, pushes, pops) && entry in queue
    ensures queue - multiset{entry} + multiset(pops + [entry]) == multiset(pushes)
    ensures forall p :: p in pops + [entry] ==> p.node in expanded + {entry.node}
    ensures multiset(pops + [entry]) <= multiset(pushes)
  {
    assert multiset(pops + [entry]) == multiset(pops) + multiset{entry};
  }

  /** A stale entry belongs to a node that was expanded before. */
  lemma StaleIsExpanded(distances: map<string, real>, queue: multiset<Entry>, expanded: set<string>, entry: Entry)
    requires Queued(distances, queue, expanded) && entry in queue && entry.cost != distances[entry.node]
    requires forall e :: e in queue ==> entry.cost <= e.cost
    ensures entry.node in expanded
  {}

  lemma HeapRunEnds(adjacency: Adjacency, target: string, distances: map<string, real>, expanded: set<string>,
                    pushes: seq<Entry>, pops: seq<Entry>)
    requires PushedOnce(distances, pushes) && Relaxed(adjacency, distances, expanded) && expanded <= adjacency.Keys
    requires multiset(pops) <= multiset(pushes)
    requires forall p :: p in pops ==> p.node == target || p.node in expanded
    ensures HeapRun(adjacency, target, pushes, pops)
  {
    forall p | p in pops && p.node != target
      ensures p.node in adjacency && NeighboursPushed(adjacency, p, pushes)
    {
      assert p in multiset(pops);
      assert p in multiset(pushes);
      forall s | s in adjacency[p.node]
        ensures exists e :: e in pushes && e.node == s.node && e.cost <= p.cost + s.cost
      {
        assert s.node in distances && distances[s.node] <= distances[p.node] + s.cost;
        assert Entry(distances[s.node], s.node) in pushes;
      }
    }
  }

  /** One turn of the search: a stale entry is skipped, and a fresh one expands its node. */
  method Visit(adjacency: Adjacency, source: string, target: string, entry: Entry, initial: map<string, real>,
               queued: multiset<Entry>, ghost start: map<string, seq<Step>>, ghost seen: set<string>,
               ghost earlier: seq<Entry>, ghost pops: seq<Entry>)
    returns (distances: map<string, real>, queue: multiset<Entry>, ghost via: map<string, seq<Step>>,
             ghost expanded: set<string>, ghost pushes: seq<Entry>)
    requires Proper(adjacency) && Witnessed(adjacency, source, initial, start) && PushedOnce(initial, earlier)
    requires Queued(initial, queued, seen) && Relaxed(adjacency, initial, seen)
    requires target !in seen && seen <= adjacency.Keys && entry.node != target
    requires entry in queued && forall e :: e in queued ==> entry.cost <= e.cost
    requires queued - multiset{entry} + multiset(pops) == multiset(earlier)
    requires forall p :: p in pops ==> p.node in seen + {entry.node}
    ensures Witnessed(adjacency, source, distances, via) && PushedOnce(distances, pushes) && earlier <= pushes
    ensures Queued(distances, queue, expanded) && Relaxed(adjacency, distances, expanded)
    ensures target !in expanded && expanded <= adjacency.Keys && expanded == seen + {entry.node}
    ensures entry.node in seen ==> queue == queued - multiset{entry}
    ensures Popped(queue, expanded, pushes, pops)
  {
    hide Witnessed, Relaxed, Queued, Separates, Walk, PushedOnce, Popped;
    var rest := queued - multiset{entry};
    QueuedKnown(initial, queued, seen);
    if entry.cost != initial[entry.node] {
      StaleIsExpanded(initial, queued, seen, entry);
      DropKeepsQueued(initial, queued, seen, entry);
      IsPopped(rest, seen, earlier, pops);
      assert seen + {entry.node} == seen;
      return initial, rest, start, seen, earlier;
    }
    ExpandKeepsQueued(adjacency, source, initial, start, queued, seen, entry);
    expanded := seen + {entry.node};
    distances, queue, via, pushes := Relax(adjacency, source, entry, initial, rest, expanded, start, earlier);
    PushesCancel(queue, rest, earlier, pushes, pops);
    IsPopped(queue, expanded, pushes, pops);
  }

  /** Dijkstra's search, stopping early at the target; `pushes` and `pops` list what went into the
      heap and what came out. */
  method PathCost(adjacency: Adjacency, source: string, target: string)
    returns (r: Result<Cost, TopologyError>, ghost pushes: seq<Entry>, ghost pops: seq<Entry>)
    requires Proper(adjacency)
    ensures r.Failure? <==> source !in adjacency || target !in adjacency
    ensures r.Failure? ==> r.error == UnknownEndpoint
    ensures r.Success? ==> IsDistance(adjacency, source, target, r.value)
    ensures HeapRun(adjacency, target, pushes, pops)
    ensures r.Success? && source != target ==> Entry(0.0, source) in pushes
    ensures r.Success? && r.value.Finite? && source != target ==>
              pops != [] && pops[|pops| - 1] == Entry(r.value.value, target)
    ensures r == Success(Infinite) ==> multiset(pops) == multiset(pushes)
  {
    hide Witnessed, Relaxed, Queued, Separates, IsDistance, Walk, PushedOnce, Popped, HeapRun;
    pushes, pops := [], [];
    NoHeapRun(adjacency, target);
    if source !in adjacency || target !in adjacency {
      return Failure(UnknownEndpoint), pushes, pops;
    }
    if source == target {
      DistanceToSelf(adjacency, source);
      return Success(Finite(0.0)), pushes, pops;
    }
    var distances := map[source := 0.0];
    var queue := multiset{Entry(0.0, source)};
    ghost var via: map<string, seq<Step>> := map[source := []];
    ghost var expanded: set<string> := {};
    pushes := [Entry(0.0, source)];
    SearchStarts(adjacency, source);
    while queue != multiset{}
      invariant Witnessed(adjacency, source, distances, via) && PushedOnce(distances, pushes)
      invariant Queued(distances, queue, expanded) && Relaxed(adjacency, distances, expanded)
      invariant target !in expanded && expanded <= adjacency.Keys && Entry(0.0, source) in pushes
      invariant Popped(queue, expanded, pushes, pops)
      decreases adjacency.Keys - expanded, |queue|
    {
      var entry, _ := HeapPop(queue);
      PopGoesOn(queue, expanded, pushes, pops, entry);
      pops := pops + [entry];
      if entry.node == target {
        FoundIsLeast(adjacency, source, target, distances, via, queue, expanded, entry);
        HeapRunEnds(adjacency, target, distances, expanded, pushes, pops);
        return Success(Finite(entry.cost)), pushes, pops;
      }
      distances, queue, via, expanded, pushes :=
        Visit(adjacency, source, target, entry, distances, queue, via, expanded, pushes, pops);
    }
    NothingLeft(adjacency, source, target, distances, via, expanded);
    EverythingPopped(expanded, pushes, pops);
    HeapRunEnds(adjacency, target, distances, expanded, pushes, pops);
    r := Success(Infinite);
  }

  lemma NoHeapRun(adjacency: Adjacency, target: string)
    ensures HeapRun(adjacency, target, [], [])
  {}

  lemma IsPopped(queue: multiset<Entry>, expanded: set<string>, pushes: seq<Entry>,
                 pops: seq<Entry>)
    requires queue + multiset(pops) == multiset(pushes) && forall p :: p in pops ==> p.node in expanded
    ensures Popped(queue, expanded, pushes, pops)
  {}

  lemma EverythingPopped(expanded: set<string>, pushes: seq<Entry>, pops: seq<Entry>)
    requires Popped(multiset{}, expanded, pushes, pops)
    ensures multiset(pops) == multiset(pushes) && forall p :: p in pops ==> p.node in expanded
  {}

  lemma PushesCancel(queue: multiset<Entry>, rest: multiset<Entry>, earlier: seq<Entry>, pushes: seq<Entry>,
                     pops: seq<Entry>)
    requires rest + multiset(pops) == multiset(earlier)
    requires queue + multiset(earlier) == rest + multiset(pushes)
    ensures queue + multiset(pops) == multiset(pushes)
  {
    forall e: Entry
      ensures (queue + multiset(pops))[e] == multiset(pushes)[e]
    {
      assert (rest + multiset(pops))[e] == multiset(earlier)[e];
      assert (queue + multiset(earlier))[e] == (rest + multiset(pushes))[e];
    }
  }

  lemma SearchStarts(adjacency: Adjacency, source: string)
    requires source in adjacency
    ensures Witnessed(adjacency, source, map[source := 0.0], map[source := []])
    ensures Queued(map[source := 0.0], multiset{Entry(0.0, source)}, {})
    ensures Relaxed(adjacency, map[source := 0.0], {})
    ensures PushedOnce(map[source := 0.0], [Entry(0.0, source)])
    ensures Popped(multiset{Entry(0.0, source)}, {}, [Entry(0.0, source)], [])
  {}

  /** With the heap empty, everything reachable has been expanded. */
  lemma NothingLeft(adjacency: Adjacency, source: string, target: string, distances: map<string, real>,
                    via: map<string, seq<Step>>, expanded: set<string>)
    requires Proper(adjacency) && Witnessed(adjacency, source, distances, via) && target !in expanded
    requires Queued(distances, multiset{}, expanded) && Relaxed(adjacency, distances, expanded)
    ensures IsDistance(adjacency, source, target, Infinite)
  {
    forall walk | Walk(adjacency, source, walk)
      ensures End(source, walk) in expanded
    {
      WalksCostMore(adjacency, source, distances, multiset{}, expanded, MaxOf(distances), walk);
    }
  }

  ghost function MaxOf(m: map<string, real>): (top: real)
    ensures forall k :: k in m ==> m[k] <= top
    decreases |m|
  {
    if m == map[] then 0.0
    else
      var k :| k in m;
      var rest := MaxOf(m - {k});
      assert forall j :: j in m ==> j == k || j in m - {k};
      if m[k] <= rest then rest else m[k]
  }

  /** A stale entry can be dropped. */
  lemma DropKeepsQueued(distances: map<string, real>, queue: multiset<Entry>, expanded: set<string>, entry: Entry)
    requires Queued(distances, queue, expanded) && entry in queue && entry.cost != distances[entry.node]
    ensures Queued(distances, queue - multiset{entry}, expanded)
  {
    var rest := queue - multiset{entry};
    assert forall e :: e in rest <==> e in queue && e != entry;
  }

  lemma FreshIsUnexpanded(distances: map<string, real>, queue: multiset<Entry>, expanded: set<string>, entry: Entry)
    requires Queued(distances, queue, expanded) && entry in queue && entry.cost == distances[entry.node]
    requires forall e :: e in queue ==> entry.cost <= e.cost
    ensures entry.node !in expanded
    ensures Queued(distances, queue - multiset{entry}, expanded + {entry.node})
    ensures forall v :: v in expanded ==> distances[v] <= entry.cost
    ensures forall e :: e in queue - multiset{entry} ==> entry.cost <= e.cost
  {
    var rest := queue - multiset{entry};
    assert forall e :: e in rest <==> e in queue && e != entry;
    assert entry == Entry(distances[entry.node], entry.node);
  }

  /** The cheapest entry, if fresh, is its node's turn to be expanded. */
  lemma ExpandKeepsQueued(adjacency: Adjacency, source: string, distances: map<string, real>,
                          via: map<string, seq<Step>>, queue: multiset<Entry>, expanded: set<string>, entry: Entry)
    requires Proper(adjacency) && Witnessed(adjacency, source, distances, via)
    requires Queued(distances, queue, expanded) && entry in queue && entry.cost == distances[entry.node]
    requires forall e :: e in queue ==> entry.cost <= e.cost
    ensures entry.node !in expanded && entry.node in adjacency && entry.cost >= 0.0
    ensures expanded + {entry.node} - {entry.node} == expanded
    ensures Queued(distances, queue - multiset{entry}, expanded + {entry.node})
    ensures Separates(distances, queue - multiset{entry}, expanded + {entry.node}, entry.cost)
  {
    hide Walk, Proper;
    FreshIsUnexpanded(distances, queue, expanded, entry);
    WalkFacts(adjacency, source, via[entry.node]);
  }

  lemma FoundIsLeast(adjacency: Adjacency, source: string, target: string, distances: map<string, real>,
                     via: map<string, seq<Step>>, queue: multiset<Entry>, expanded: set<string>, entry: Entry)
    requires Proper(adjacency) && Witnessed(adjacency, source, distances, via)
    requires Queued(distances, queue, expanded) && Relaxed(adjacency, distances, expanded)
    requires entry in queue && entry.node == target && target !in expanded
    requires forall e :: e in queue ==> entry.cost <= e.cost
    ensures IsDistance(adjacency, source, target, Finite(entry.cost))
  {
    assert Entry(distances[target], target) in queue;
    forall walk | Connects(adjacency, source, target, walk)
      ensures entry.cost <= Length(walk)
    {
      WalksCostMore(adjacency, source, distances, queue, expanded, entry.cost, walk);
    }
    assert Connects(adjacency, source, target, via[target]);
  }

  // ---------------------------------------------------------------- the cost of a group

  ghost function Distance(adjacency: Adjacency, s: string, t: string): Cost {
    if exists d :: IsDistance(adjacency, s, t, d) then
      var d :| IsDistance(adjacency, s, t, d);
      d
    else Infinite
  }

  ghost function ToAll(adjacency: Adjacency, x: string, members: seq<string>): Cost {
    if members == [] then Finite(0.0)
    else Plus(Distance(adjacency, x, members[0]), ToAll(adjacency, x, members[1..]))
  }

  /** The distances of all pairs of members, added up. */
  ghost function PairSum(adjacency: Adjacency, members: seq<string>): Cost {
    if members == [] then Finite(0.0)
    else Plus(ToAll(adjacency, members[0], members[1..]), PairSum(adjacency, members[1..]))
  }

  lemma DistanceIs(adjacency: Adjacency, s: string, t: string, d: Cost)
    requires IsDistance(adjacency, s, t, d)
    ensures Distance(adjacency, s, t) == d
  {
    hide IsDistance;
    var e := Distance(adjacency, s, t);
    DistanceIsUnique(adjacency, s, t, d, e);
  }

  lemma DistanceBothWays(adjacency: Adjacency, s: string, t: string)
    requires Proper(adjacency)
    ensures Distance(adjacency, s, t) == Distance(adjacency, t, s)
  {
    hide IsDistance;
    if d :| IsDistance(adjacency, s, t, d) {
      DistanceIsSymmetric(adjacency, s, t, d);
      DistanceIs(adjacency, s, t, d);
      DistanceIs(adjacency, t, s, d);
    } else if e :| IsDistance(adjacency, t, s, e) {
      DistanceIsSymmetric(adjacency, t, s, e);
    }
  }

  /** Adds the path costs from `x` to each of `others`, the first unknown endpoint ending the sum. */
  method AddPairs(adjacency: Adjacency, x: string, others: seq<string>, before: Cost)
    returns (r: Result<Cost, TopologyError>)
    requires Proper(adjacency)
    ensures r.Failure? <==> others != [] && (x !in adjacency || exists m :: m in others && m !in adjacency)
    ensures r.Failure? ==> r.error == UnknownEndpoint
    ensures r.Success? ==> r.value == Plus(before, ToAll(adjacency, x, others))
  {
    hide Proper, Distance, IsDistance;
    var total := before;
    for j := 0 to |others|
      invariant Plus(total, ToAll(adjacency, x, others[j..])) == Plus(before, ToAll(adjacency, x, others))
      invariant forall m :: m in others[..j] ==> m in adjacency
      invariant j > 0 ==> x in adjacency
    {
      assert others[j..][0] == others[j] && others[j..][1..] == others[j + 1..];
      assert others[..j + 1] == others[..j] + [others[j]];
      var cost, _, _ := PathCost(adjacency, x, others[j]);
      if cost.Failure? {
        assert others[j] in others;
        return Failure(cost.error);
      }
      DistanceIs(adjacency, x, others[j], cost.value);
      total := Plus(total, cost.value);
    }
    assert others[..|others|] == others;
    r := Success(total);
  }

  /** Sums path costs over all pairs; an unknown member is only noticed when there is a pair. */
  method GroupCost(adjacency: Adjacency, members: seq<string>) returns (r: Result<Cost, TopologyError>)
    requires Proper(adjacency)
    ensures r == Failure(DuplicateMember) <==> !NoDuplicates(members)
    ensures r == Failure(UnknownEndpoint) <==>
              NoDuplicates(members) && |members| > 1 && exists m :: m in members && m !in adjacency
    ensures r.Failure? ==> r.error in {DuplicateMember, UnknownEndpoint}
    ensures r.Success? ==> r.value == PairSum(adjacency, members)
  {
    hide Proper, ToAll, NoDuplicates;
    DistinctCount(members);
    if |members| != |Elements(members)| {
      return Failure(DuplicateMember);
    }
    var total := Finite(0.0);
    for i := 0 to |members|
      invariant Plus(total, PairSum(adjacency, members[i..])) == PairSum(adjacency, members)
      invariant |members| > 1 && i > 0 ==> forall m :: m in members ==> m in adjacency
    {
      assert members[i..][0] == members[i] && members[i..][1..] == members[i + 1..];
      assert members == members[..i] + [members[i]] + members[i + 1..];
      var sum := AddPairs(adjacency, members[i], members[i + 1..], total);
      if sum.Failure? {
        return Failure(sum.error);
      }
      total := sum.value;
    }
    r := Success(total);
  }

  lemma SumsWithHead(adjacency: Adjacency, x: string, head: string, rest: seq<string>)
    ensures ToAll(adjacency, x, [head] + rest) == Plus(Distance(adjacency, x, head), ToAll(adjacency, x, rest))
    ensures PairSum(adjacency, [head] + rest) == Plus(ToAll(adjacency, head, rest), PairSum(adjacency, rest))
  {
    hide Distance;
    assert ([head] + rest)[1..] == rest;
  }

  lemma {:induction false} ToAllPullOut(adjacency: Adjacency, x: string, members: seq<string>, i: nat)
    requires i < |members|
    ensures ToAll(adjacency, x, members)
         == Plus(Distance(adjacency, x, members[i]), ToAll(adjacency, x, RemoveAt(members, i)))
  {
    hide Distance, ToAll;
    var head, rest := members[0], members[1..];
    assert members == [head] + rest;
    SumsWithHead(adjacency, x, head, rest);
    if i == 0 {
      assert RemoveAt(members, 0) == rest;
    } else {
      ToAllPullOut(adjacency, x, rest, i - 1);
      var others := RemoveAt(rest, i - 1);
      assert RemoveAt(members, i) == [head] + others;
      SumsWithHead(adjacency, x, head, others);
    }
  }

  lemma {:induction false} PairSumPullOut(adjacency: Adjacency, members: seq<string>, i: nat)
    requires Proper(adjacency) && i < |members|
    ensures var rest := RemoveAt(members, i);
            PairSum(adjacency, members) == Plus(ToAll(adjacency, members[i], rest), PairSum(adjacency, rest))
  {
    hide Proper, Distance, ToAll, PairSum;
    var head, rest := members[0], members[1..];
    assert members == [head] + rest;
    if i == 0 {
      assert RemoveAt(members, 0) == rest;
      SumsWithHead(adjacency, head, head, rest);
    } else {
      PairSumPullOut(adjacency, rest, i - 1);
      ToAllPullOut(adjacency, head, rest, i - 1);
      var others := RemoveAt(rest, i - 1);
      assert RemoveAt(members, i) == [head] + others;
      SumsWithHead(adjacency, members[i], head, rest);
      SumsWithHead(adjacency, members[i], head, others);
      DistanceBothWays(adjacency, head, members[i]);
    }
  }

  lemma {:induction false} ToAllIgnoresOrder(adjacency: Adjacency, x: string, first: seq<string>, second: seq<string>)
    requires multiset(first) == multiset(second)
    ensures ToAll(adjacency, x, first) == ToAll(adjacency, x, second)
  {
    if first == [] {
      assert |multiset(second)| == 0;
    } else {
      var i := SameMembersMinusHead(first, second);
      ToAllPullOut(adjacency, x, second, i);
      ToAllIgnoresOrder(adjacency, x, first[1..], RemoveAt(second, i));
    }
  }

  lemma SameMembersMinusHead(first: seq<string>, second: seq<string>) returns (i: nat)
    requires multiset(first) == multiset(second) && first != []
    ensures i < |second| && second[i] == first[0]
    ensures multiset(first[1..]) == multiset(RemoveAt(second, i))
  {
    assert first[0] in multiset(second);
    i :| 0 <= i < |second| && second[i] == first[0];
    RemoveAtTakesOne(second, i);
    assert first == [first[0]] + first[1..];
    assert multiset(first) == multiset{first[0]} + multiset(first[1..]);
    assert multiset(first[1..]) == multiset(first) - multiset{first[0]};
    assert multiset(RemoveAt(second, i)) == multiset(second) - multiset{second[i]};
  }

  /** A group has one cost, in whatever order its members are listed. */
  lemma {:induction false} GroupCostIgnoresOrder(adjacency: Adjacency, first: seq<string>, second: seq<string>)
    requires Proper(adjacency) && multiset(first) == multiset(second)
    ensures PairSum(adjacency, first) == PairSum(adjacency, second)
  {
    if first == [] {
      assert |multiset(second)| == 0;
    } else {
      var i := SameMembersMinusHead(first, second);
      PairSumPullOut(adjacency, second, i);
      ToAllIgnoresOrder(adjacency, first[0], first[1..], RemoveAt(second, i));
      GroupCostIgnoresOrder(adjacency, first[1..], RemoveAt(second, i));
    }
  }

  // ---------------------------------------------------------------- every pair counts once

  /** From each of `members` to each of `all`. */
  ghost function FromAll(adjacency: Adjacency, members: seq<string>, all: seq<string>): Cost {
    if members == [] then Finite(0.0)
    else Plus(ToAll(adjacency, members[0], all), FromAll(adjacency, members[1..], all))
  }

  lemma {:induction false} FromAllWithHead(adjacency: Adjacency, members: seq<string>, head: string, rest: seq<string>)
    requires Proper(adjacency)
    ensures FromAll(adjacency, members, [head] + rest)
         == Plus(ToAll(adjacency, head, members), FromAll(adjacency, members, rest))
  {
    hide Proper, Distance, Plus, ToAll, FromAll;
    NothingToSum(adjacency, head, [head] + rest);
    NothingToSum(adjacency, head, rest);
    if members == [] {
      PlusNothing(Finite(0.0));
    } else {
      var m, others := members[0], members[1..];
      assert members == [m] + others;
      FromAllWithHead(adjacency, others, head, rest);
      FromAllStep(adjacency, m, others, [head] + rest);
      FromAllStep(adjacency, m, others, rest);
      SumsWithHead(adjacency, m, head, rest);
      SumsWithHead(adjacency, head, m, others);
      DistanceBothWays(adjacency, m, head);
      PlusSwaps(Distance(adjacency, m, head), ToAll(adjacency, m, rest),
                ToAll(adjacency, head, others), FromAll(adjacency, others, rest));
    }
  }

  lemma FromAllStep(adjacency: Adjacency, m: string, others: seq<string>, all: seq<string>)
    ensures FromAll(adjacency, [m] + others, all) == Plus(ToAll(adjacency, m, all), FromAll(adjacency, others, all))
  {
    hide ToAll, Plus;
    assert ([m] + others)[1..] == others;
  }

  lemma NothingToSum(adjacency: Adjacency, x: string, all: seq<string>)
    ensures ToAll(adjacency, x, []) == PairSum(adjacency, []) == FromAll(adjacency, [], all) == Finite(0.0)
  {}

  lemma PlusNothing(a: Cost)
    ensures Plus(a, Finite(0.0)) == a == Plus(Finite(0.0), a)
  {}

  lemma PlusDoubles(a: Cost, b: Cost)
    ensures Plus(a, Plus(a, Plus(b, b))) == Plus(Plus(a, b), Plus(a, b))
  {}

  lemma PlusSwaps(a: Cost, b: Cost, c: Cost, d: Cost)
    ensures Plus(Plus(a, b), Plus(c, d)) == Plus(Plus(a, c), Plus(b, d))
  {}

  /** Going from every member to every member counts each pair of the group exactly twice. */
  lemma {:induction false} EveryPairCounts(adjacency: Adjacency, members: seq<string>)
    requires Proper(adjacency) && forall m :: m in members ==> m in adjacency
    ensures FromAll(adjacency, members, members) == Plus(PairSum(adjacency, members), PairSum(adjacency, members))
  {
    hide Proper, Distance, IsDistance, Plus, ToAll, FromAll, PairSum;
    if members == [] {
      NothingToSum(adjacency, "", members);
      PlusNothing(Finite(0.0));
    } else {
      var head, rest := members[0], members[1..];
      assert members == [head] + rest;
      EveryPairCounts(adjacency, rest);
      FromAllStep(adjacency, head, rest, members);
      FromAllWithHead(adjacency, rest, head, rest);
      SumsWithHead(adjacency, head, head, rest);
      DistanceToSelf(adjacency, head);
      DistanceIs(adjacency, head, head, Finite(0.0));
      PlusNothing(ToAll(adjacency, head, rest));
      PlusDoubles(ToAll(adjacency, head, rest), PairSum(adjacency, rest));
    }
  }

  /** A pair costs its distance. */
  lemma PairCostsDistance(adjacency: Adjacency, a: string, b: string)
    ensures PairSum(adjacency, [a, b]) == Distance(adjacency, a, b)
  {
    hide Distance, Plus, ToAll, PairSum;
    assert [a, b] == [a] + [b];
    SumsWithHead(adjacency, a, a, [b]);
    OneMember(adjacency, a, b);
    PlusNothing(Distance(adjacency, a, b));
  }

  lemma OneMember(adjacency: Adjacency, a: string, b: string)
    ensures ToAll(adjacency, a, [b]) == Distance(adjacency, a, b) && PairSum(adjacency, [b]) == Finite(0.0)
  {
    hide Distance, Plus, ToAll, PairSum;
    assert [b] == [b] + [];
    SumsWithHead(adjacency, a, b, []);
    NothingToSum(adjacency, a, []);
    NothingToSum(adjacency, b, []);
    PlusNothing(Distance(adjacency, a, b));
    PlusNothing(Finite(0.0));
  }
}
