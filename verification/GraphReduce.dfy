/**
 Reducing a raw graph dump to what a viewer renders. Ids and files are rewritten
 by functions of the project's root, which every statement takes as they come.
 */
module GraphReduce {
  import opened Prelude
  import opened Sorting

  datatype RawNode = RawNode(id: string, name: string, kind: string, file: string, external: bool, ignored: bool)

  datatype RawEdge = RawEdge(from: string, to: string, kind: string)

  datatype ViewerNode = ViewerNode(
    id: string, name: string, kind: string, file: string, external: bool, ignored: bool, degree: nat)

  datatype ViewerLink = ViewerLink(source: string, target: string, kind: string)

  datatype Options = Options(maxNodes: nat, keepExternal: bool, keepIgnored: bool)

  datatype Counts = Counts(
    rawNodes: nat, rawEdges: nat, nodes: nat, links: nat, droppedExternal: nat, droppedIgnored: nat, droppedByCap: nat)

  datatype Payload = Payload(counts: Counts, nodes: seq<ViewerNode>, links: seq<ViewerLink>)

  datatype Rewriting = Rewriting(id: string -> string, file: string -> string, kind: string -> string)

  // ----- degrees -----

  predicate HasId(nodes: seq<RawNode>, id: string) {
    exists i | 0 <= i < |nodes| :: nodes[i].id == id
  }

  predicate Between(nodes: seq<RawNode>, e: RawEdge) {
    HasId(nodes, e.from) && HasId(nodes, e.to)
  }

  function Touches(e: RawEdge, id: string): nat {
    (if e.from == id then 1 else 0) + (if e.to == id then 1 else 0)
  }

  /** How many edge ends meet an id; a loop meets it twice. */
  function Degree(edges: seq<RawEdge>, id: string): nat {
    if edges == [] then 0 else Degree(edges[..|edges| - 1], id) + Touches(Last(edges), id)
  }

  /** Counts the ends of every edge that meet a given node. */
  method DegreeOf(nodes: seq<RawNode>, edges: seq<RawEdge>) returns (degree: map<string, nat>)
    ensures forall id :: id in degree <==> HasId(nodes, id)
    ensures forall id | id in degree :: degree[id] == Degree(edges, id)
  {
    degree := map[];
    var n := 0;
    while n < |nodes|
      invariant n <= |nodes|
      invariant forall id :: id in degree <==> HasId(nodes[..n], id)
      invariant forall id | id in degree :: degree[id] == 0
    {
      IdsNext(nodes, n);
      degree := degree[nodes[n].id := 0];
      n := n + 1;
    }
    assert nodes[..n] == nodes;
    var e := 0;
    while e < |edges|
      invariant e <= |edges|
      invariant forall id :: id in degree <==> HasId(nodes, id)
      invariant forall id | id in degree :: degree[id] == Degree(edges[..e], id)
    {
      var edge := edges[e];
      assert edges[..e + 1][..e] == edges[..e];
      if edge.from in degree { degree := degree[edge.from := degree[edge.from] + 1]; }
      if edge.to in degree { degree := degree[edge.to := degree[edge.to] + 1]; }
      e := e + 1;
    }
    assert edges[..e] == edges;
  }

  lemma IdsNext(nodes: seq<RawNode>, n: nat)
    requires n < |nodes|
    ensures forall id :: HasId(nodes[..n + 1], id) <==> HasId(nodes[..n], id) || id == nodes[n].id
  {
    forall id ensures HasId(nodes[..n + 1], id) <==> HasId(nodes[..n], id) || id == nodes[n].id {
      if HasId(nodes[..n], id) {
        var i :| 0 <= i < n && nodes[..n][i].id == id;
        assert nodes[..n + 1][i].id == id;
      }
      if id == nodes[n].id { assert nodes[..n + 1][n].id == id; }
      if HasId(nodes[..n + 1], id) && id != nodes[n].id {
        var i :| 0 <= i < n + 1 && nodes[..n + 1][i].id == id;
        assert nodes[..n][i].id == id;
      }
    }
  }

  // ----- the reduction -----

  predicate Keeps(o: Options, n: RawNode) {
    (o.keepExternal || !n.external) && (o.keepIgnored || !n.ignored)
  }

  function KeepNodes(o: Options, nodes: seq<RawNode>): seq<RawNode> {
    if nodes == [] then []
    else KeepNodes(o, nodes[..|nodes| - 1]) + (if Keeps(o, Last(nodes)) then [Last(nodes)] else [])
  }

  function KeepEdges(nodes: seq<RawNode>, edges: seq<RawEdge>): seq<RawEdge> {
    if edges == [] then []
    else KeepEdges(nodes, edges[..|edges| - 1]) + (if Between(nodes, Last(edges)) then [Last(edges)] else [])
  }

  function ByDegree(edges: seq<RawEdge>): RawNode -> int {
    (n: RawNode) => 0 - Degree(edges, n.id) as int
  }

  /** The nodes of highest degree, at most `maxNodes` of them. */
  function Cap(o: Options, nodes: seq<RawNode>, edges: seq<RawEdge>): seq<RawNode> {
    if |nodes| > o.maxNodes && o.maxNodes <= |SortByKey(nodes, ByDegree(edges))|
    then SortByKey(nodes, ByDegree(edges))[..o.maxNodes]
    else nodes
  }

  function View(r: Rewriting, n: RawNode, degree: nat): ViewerNode {
    ViewerNode(r.id(n.id), n.name, n.kind, r.file(n.file), n.external, n.ignored, degree)
  }

  /** The nodes an edge still meets. */
  function Prune(r: Rewriting, nodes: seq<RawNode>, edges: seq<RawEdge>): seq<ViewerNode> {
    if nodes == [] then []
    else
      var degree := Degree(edges, Last(nodes).id);
      Prune(r, nodes[..|nodes| - 1], edges) + (if degree > 0 then [View(r, Last(nodes), degree)] else [])
  }

  predicate Shows(nodes: seq<ViewerNode>, id: string) {
    exists i | 0 <= i < |nodes| :: nodes[i].id == id
  }

  function Link(r: Rewriting, e: RawEdge): ViewerLink {
    ViewerLink(r.id(e.from), r.id(e.to), r.kind(e.kind))
  }

  function Links(r: Rewriting, nodes: seq<ViewerNode>, edges: seq<RawEdge>): seq<ViewerLink> {
    if edges == [] then []
    else
      var link := Link(r, Last(edges));
      Links(r, nodes, edges[..|edges| - 1]) + (if Shows(nodes, link.source) && Shows(nodes, link.target) then [link] else [])
  }

  function CountExternal(nodes: seq<RawNode>): nat {
    if nodes == [] then 0 else CountExternal(nodes[..|nodes| - 1]) + (if Last(nodes).external then 1 else 0)
  }

  function CountIgnored(nodes: seq<RawNode>): nat {
    if nodes == [] then 0
    else CountIgnored(nodes[..|nodes| - 1]) + (if Last(nodes).ignored && !Last(nodes).external then 1 else 0)
  }

  function Boundary(o: Options, nodes: seq<RawNode>, edges: seq<RawEdge>): (r: (seq<RawNode>, seq<RawEdge>)) {
    (KeepNodes(o, nodes), KeepEdges(KeepNodes(o, nodes), edges))
  }

  /** The nodes that survive the cap. */
  function Survivors(o: Options, nodes: seq<RawNode>, edges: seq<RawEdge>): seq<RawNode> {
    Cap(o, Boundary(o, nodes, edges).0, Boundary(o, nodes, edges).1)
  }

  /** The edges between survivors. */
  function Remaining(o: Options, nodes: seq<RawNode>, edges: seq<RawEdge>): seq<RawEdge> {
    KeepEdges(Survivors(o, nodes, edges), Boundary(o, nodes, edges).1)
  }

  function Reduce(o: Options, r: Rewriting, nodes: seq<RawNode>, edges: seq<RawEdge>): Payload {
    var boundary, kept, remaining := KeepNodes(o, nodes), Survivors(o, nodes, edges), Remaining(o, nodes, edges);
    var shown := Prune(r, kept, remaining);
    var links := Links(r, shown, remaining);
    Payload(
      Counts(
        |nodes|, |edges|, |shown|, |links|,
        if o.keepExternal then 0 else CountExternal(nodes),
        if o.keepIgnored then 0 else CountIgnored(nodes),
        if |boundary| >= |kept| then |boundary| - |kept| else 0),
      shown, links)
  }
}

/** What a reduction keeps, and how its counts fit together. */
module GraphTheorems {
  import opened Prelude
  import opened Sorting
  import opened GraphReduce

  predicate UniqueIds(nodes: seq<RawNode>) {
    forall i, j | 0 <= i < j < |nodes| :: nodes[i].id != nodes[j].id
  }

  // ----- the cap -----

  /** Whether an element was dropped: it occurs more often among the nodes than among the kept ones. */
  predicate Dropped(nodes: seq<RawNode>, kept: seq<RawNode>, d: RawNode) {
    multiset(nodes)[d] > multiset(kept)[d]
  }

  lemma CutOrder(sorted: seq<RawNode>, at: nat, edges: seq<RawEdge>)
    requires SortedBy(sorted, ByDegree(edges)) && at <= |sorted|
    ensures multiset(sorted[..at]) <= multiset(sorted)
    ensures forall d, k | Dropped(sorted, sorted[..at], d) && k in sorted[..at] :: Degree(edges, d.id) <= Degree(edges, k.id)
  {
    var kept, dropped := sorted[..at], sorted[at..];
    assert sorted == kept + dropped;
    forall d, k | Dropped(sorted, kept, d) && k in kept ensures Degree(edges, d.id) <= Degree(edges, k.id) {
      assert multiset(dropped)[d] > 0;
      assert d in dropped;
      var i :| 0 <= i < |dropped| && dropped[i] == d;
      var j :| 0 <= j < |kept| && kept[j] == k;
      assert ByDegree(edges)(sorted[j]) <= ByDegree(edges)(sorted[at + i]);
    }
  }

  /** At most `maxNodes` survive, all of them boundary nodes, and none dropped has a higher degree than one kept. */
  lemma CapKeepsTheHighest(o: Options, nodes: seq<RawNode>, edges: seq<RawEdge>)
    ensures var kept := Cap(o, nodes, edges);
      && |kept| == (if |nodes| <= o.maxNodes then |nodes| else o.maxNodes)
      && multiset(kept) <= multiset(nodes)
      && forall d, k | Dropped(nodes, kept, d) && k in kept :: Degree(edges, d.id) <= Degree(edges, k.id)
  {
    SortedByKey(nodes, ByDegree(edges));
    if |nodes| > o.maxNodes {
      var sorted := SortByKey(nodes, ByDegree(edges));
      CutOrder(sorted, o.maxNodes, edges);
      forall d | Dropped(nodes, sorted[..o.maxNodes], d) ensures Dropped(sorted, sorted[..o.maxNodes], d) {
      }
    }
  }

  // ----- edges -----

  lemma {:induction false} KeptEdge(nodes: seq<RawNode>, edges: seq<RawEdge>, e: RawEdge)
    ensures e in KeepEdges(nodes, edges) <==> e in edges && Between(nodes, e)
  {
    if edges != [] {
      KeptEdge(nodes, edges[..|edges| - 1], e);
      assert edges == edges[..|edges| - 1] + [Last(edges)];
    }
  }

  lemma {:induction false} MetByEdge(edges: seq<RawEdge>, id: string)
    ensures Degree(edges, id) > 0 <==> exists i | 0 <= i < |edges| :: edges[i].from == id || edges[i].to == id
  {
    if edges != [] {
      var front := edges[..|edges| - 1];
      MetByEdge(front, id);
      if i :| 0 <= i < |front| && (front[i].from == id || front[i].to == id) {
        assert edges[i].from == id || edges[i].to == id;
      }
      if Touches(Last(edges), id) > 0 {
        assert edges[|edges| - 1].from == id || edges[|edges| - 1].to == id;
      }
      if i :| 0 <= i < |edges| && (edges[i].from == id || edges[i].to == id) {
        if i < |front| { assert front[i].from == id || front[i].to == id; }
      }
    }
  }

  lemma {:induction false} PrunedShows(r: Rewriting, nodes: seq<RawNode>, edges: seq<RawEdge>, id: string)
    requires HasId(nodes, id) && Degree(edges, id) > 0
    ensures Shows(Prune(r, nodes, edges), r.id(id))
  {
    var shown := Prune(r, nodes, edges);
    var front := nodes[..|nodes| - 1];
    if Last(nodes).id == id {
      assert shown[|shown| - 1].id == r.id(id);
    } else {
      var i :| 0 <= i < |nodes| && nodes[i].id == id;
      assert front[i].id == id;
      PrunedShows(r, front, edges, id);
      var k :| 0 <= k < |Prune(r, front, edges)| && Prune(r, front, edges)[k].id == r.id(id);
      assert shown[k].id == r.id(id);
    }
  }

  function AllLinks(r: Rewriting, edges: seq<RawEdge>): seq<ViewerLink> {
    seq(|edges|, i requires 0 <= i < |edges| => Link(r, edges[i]))
  }

  lemma {:induction false} LinksComplete(r: Rewriting, nodes: seq<ViewerNode>, edges: seq<RawEdge>)
    requires forall i | 0 <= i < |edges| :: Shows(nodes, r.id(edges[i].from)) && Shows(nodes, r.id(edges[i].to))
    ensures Links(r, nodes, edges) == AllLinks(r, edges)
  {
    if edges != [] {
      var front := edges[..|edges| - 1];
      forall i | 0 <= i < |front| ensures Shows(nodes, r.id(front[i].from)) && Shows(nodes, r.id(front[i].to)) {
        assert front[i] == edges[i];
      }
      LinksComplete(r, nodes, front);
      assert edges[|edges| - 1] == Last(edges);
    }
  }

  /** Every end of an edge between kept nodes is shown once the orphans are pruned. */
  lemma EndsShown(r: Rewriting, kept: seq<RawNode>, edges: seq<RawEdge>)
    requires forall i | 0 <= i < |edges| :: Between(kept, edges[i])
    ensures var shown := Prune(r, kept, edges);
      forall i | 0 <= i < |edges| :: Shows(shown, r.id(edges[i].from)) && Shows(shown, r.id(edges[i].to))
  {
    forall i | 0 <= i < |edges|
      ensures Shows(Prune(r, kept, edges), r.id(edges[i].from)) && Shows(Prune(r, kept, edges), r.id(edges[i].to))
    {
      MetByEdge(edges, edges[i].from);
      MetByEdge(edges, edges[i].to);
      PrunedShows(r, kept, edges, edges[i].from);
      PrunedShows(r, kept, edges, edges[i].to);
    }
  }

  lemma RemainingBetween(o: Options, nodes: seq<RawNode>, edges: seq<RawEdge>)
    ensures var remaining := Remaining(o, nodes, edges);
      forall i | 0 <= i < |remaining| :: Between(Survivors(o, nodes, edges), remaining[i])
  {
    var remaining := Remaining(o, nodes, edges);
    forall i | 0 <= i < |remaining| ensures Between(Survivors(o, nodes, edges), remaining[i]) {
      assert remaining[i] in remaining;
      KeptEdge(Survivors(o, nodes, edges), Boundary(o, nodes, edges).1, remaining[i]);
    }
  }

  /**
   Pruning orphans loses no edge and leaves none dangling: the links are exactly the
   rewritten edges between survivors, and both ends of each are shown.
   */
  lemma NoEdgeLost(o: Options, r: Rewriting, nodes: seq<RawNode>, edges: seq<RawEdge>)
    ensures var payload := Reduce(o, r, nodes, edges);
      && |payload.links| == |Remaining(o, nodes, edges)|
      && (forall i | 0 <= i < |payload.links| ::
            var e := Remaining(o, nodes, edges)[i];
            && payload.links[i].source == r.id(e.from) && payload.links[i].target == r.id(e.to)
            && payload.links[i].kind == r.kind(e.kind))
      && forall i | 0 <= i < |payload.links| :: Shows(payload.nodes, payload.links[i].source) && Shows(payload.nodes, payload.links[i].target)
  {
    RemainingBetween(o, nodes, edges);
    EndsShown(r, Survivors(o, nodes, edges), Remaining(o, nodes, edges));
    LinksComplete(r, Reduce(o, r, nodes, edges).nodes, Remaining(o, nodes, edges));
  }

  /** An edge of the dump is shown exactly when both its ends survive. */
  lemma EdgeShownIffBetween(o: Options, nodes: seq<RawNode>, edges: seq<RawEdge>, e: RawEdge)
    ensures e in Remaining(o, nodes, edges) <==> e in edges && Between(Survivors(o, nodes, edges), e)
  {
    KeptEdge(Survivors(o, nodes, edges), Boundary(o, nodes, edges).1, e);
    KeptEdge(KeepNodes(o, nodes), edges, e);
    if Between(Survivors(o, nodes, edges), e) {
      SurvivorIsBoundary(o, nodes, edges, e.from);
      SurvivorIsBoundary(o, nodes, edges, e.to);
    }
  }

  lemma SurvivorIsBoundary(o: Options, nodes: seq<RawNode>, edges: seq<RawEdge>, id: string)
    requires HasId(Survivors(o, nodes, edges), id)
    ensures HasId(KeepNodes(o, nodes), id)
  {
    var kept, boundary := Survivors(o, nodes, edges), Boundary(o, nodes, edges);
    CapKeepsTheHighest(o, boundary.0, boundary.1);
    var i :| 0 <= i < |kept| && kept[i].id == id;
    assert kept[i] in multiset(kept);
    assert kept[i] in multiset(boundary.0);
    var k :| 0 <= k < |boundary.0| && boundary.0[k] == kept[i];
    assert boundary.0[k].id == id;
  }

  // ----- the nodes -----

  lemma {:induction false} KeptNode(o: Options, nodes: seq<RawNode>, n: RawNode)
    ensures n in KeepNodes(o, nodes) <==>
      n in nodes && (n.external ==> o.keepExternal) && (n.ignored ==> o.keepIgnored)
  {
    if nodes != [] {
      KeptNode(o, nodes[..|nodes| - 1], n);
      assert nodes == nodes[..|nodes| - 1] + [Last(nodes)];
    }
  }

  /** What a viewer shows of a raw node that edges still meet. */
  predicate ShownAs(r: Rewriting, n: RawNode, edges: seq<RawEdge>, v: ViewerNode) {
    && v.id == r.id(n.id) && v.name == n.name && v.kind == n.kind && v.file == r.file(n.file)
    && v.external == n.external && v.ignored == n.ignored
    && v.degree == Degree(edges, n.id) && v.degree > 0
  }

  lemma {:induction false} PrunedNode(r: Rewriting, nodes: seq<RawNode>, edges: seq<RawEdge>, v: ViewerNode)
    ensures v in Prune(r, nodes, edges) <==> exists i | 0 <= i < |nodes| :: ShownAs(r, nodes[i], edges, v)
  {
    if nodes != [] {
      var front := nodes[..|nodes| - 1];
      PrunedNode(r, front, edges, v);
      assert nodes[|nodes| - 1] == Last(nodes);
      if i :| 0 <= i < |front| && ShownAs(r, front[i], edges, v) { assert ShownAs(r, nodes[i], edges, v); }
      if i :| 0 <= i < |nodes| && ShownAs(r, nodes[i], edges, v) {
        if i < |front| { assert ShownAs(r, front[i], edges, v); }
      }
    }
  }

  /** A node is shown, as it is in the dump, exactly when it survives and an edge between survivors meets it. */
  lemma NodeShownIffMet(o: Options, r: Rewriting, nodes: seq<RawNode>, edges: seq<RawEdge>, v: ViewerNode)
    ensures v in Reduce(o, r, nodes, edges).nodes <==>
      exists i | 0 <= i < |Survivors(o, nodes, edges)| ::
        ShownAs(r, Survivors(o, nodes, edges)[i], Remaining(o, nodes, edges), v)
  {
    PrunedNode(r, Survivors(o, nodes, edges), Remaining(o, nodes, edges), v);
  }

  /** Within the cap, the survivors are exactly the nodes the options keep. */
  lemma SurvivesIffKept(o: Options, nodes: seq<RawNode>, edges: seq<RawEdge>, n: RawNode)
    requires |KeepNodes(o, nodes)| <= o.maxNodes
    ensures n in Survivors(o, nodes, edges) <==>
      n in nodes && (n.external ==> o.keepExternal) && (n.ignored ==> o.keepIgnored)
  {
    KeptNode(o, nodes, n);
  }

  // ----- the handshake -----

  function DegreeSum(nodes: seq<RawNode>, edges: seq<RawEdge>): nat {
    if nodes == [] then 0 else DegreeSum(nodes[..|nodes| - 1], edges) + Degree(edges, Last(nodes).id)
  }

  function ShownSum(nodes: seq<ViewerNode>): nat {
    if nodes == [] then 0 else ShownSum(nodes[..|nodes| - 1]) + Last(nodes).degree
  }

  lemma {:induction false} PruneKeepsSum(r: Rewriting, nodes: seq<RawNode>, edges: seq<RawEdge>)
    ensures ShownSum(Prune(r, nodes, edges)) == DegreeSum(nodes, edges)
  {
    if nodes != [] {
      PruneKeepsSum(r, nodes[..|nodes| - 1], edges);
      var shown := Prune(r, nodes[..|nodes| - 1], edges);
      var degree := Degree(edges, Last(nodes).id);
      assert (shown + [View(r, Last(nodes), degree)])[..|shown|] == shown;
      assert shown + [] == shown;
    }
  }

  /** How many nodes carry an id. */
  function Carriers(nodes: seq<RawNode>, id: string): nat {
    if nodes == [] then 0 else Carriers(nodes[..|nodes| - 1], id) + (if Last(nodes).id == id then 1 else 0)
  }

  lemma {:induction false} DegreeSumLast(nodes: seq<RawNode>, edges: seq<RawEdge>)
    requires edges != []
    ensures DegreeSum(nodes, edges) ==
      DegreeSum(nodes, edges[..|edges| - 1]) + Carriers(nodes, Last(edges).from) + Carriers(nodes, Last(edges).to)
  {
    if nodes != [] { DegreeSumLast(nodes[..|nodes| - 1], edges); }
  }

  lemma {:induction false} NoDegrees(nodes: seq<RawNode>)
    ensures DegreeSum(nodes, []) == 0
  {
    if nodes != [] { NoDegrees(nodes[..|nodes| - 1]); }
  }

  lemma {:induction false} CarriedOnce(nodes: seq<RawNode>, id: string)
    requires UniqueIds(nodes)
    ensures Carriers(nodes, id) == if HasId(nodes, id) then 1 else 0
  {
    if nodes != [] {
      var front := nodes[..|nodes| - 1];
      CarriedOnce(front, id);
      IdsNext(nodes, |front|);
      assert nodes[..|nodes|] == nodes && nodes[|front|] == Last(nodes);
      if HasId(front, id) {
        var i :| 0 <= i < |front| && front[i].id == id;
        assert nodes[i].id != nodes[|nodes| - 1].id;
      }
    }
  }

  lemma {:induction false} Handshake(nodes: seq<RawNode>, edges: seq<RawEdge>)
    requires UniqueIds(nodes) && forall i | 0 <= i < |edges| :: Between(nodes, edges[i])
    ensures DegreeSum(nodes, edges) == 2 * |edges|
  {
    if edges == [] {
      NoDegrees(nodes);
    } else {
      Handshake(nodes, edges[..|edges| - 1]);
      DegreeSumLast(nodes, edges);
      assert Between(nodes, edges[|edges| - 1]);
      CarriedOnce(nodes, Last(edges).from);
      CarriedOnce(nodes, Last(edges).to);
    }
  }

  // ----- ids stay unique -----

  /** Uniqueness in terms of the multiset of nodes, which sorting does not change. */
  ghost predicate UniqueBag(bag: multiset<RawNode>) {
    forall a, b | a in bag && b in bag && a.id == b.id :: a == b && bag[a] == 1
  }

  lemma UniqueGivesBag(nodes: seq<RawNode>)
    requires UniqueIds(nodes)
    ensures UniqueBag(multiset(nodes))
  {
    forall a, b | a in multiset(nodes) && b in multiset(nodes) && a.id == b.id ensures a == b && multiset(nodes)[a] == 1 {
      assert a in nodes && b in nodes;
      CountedOnce(nodes, a);
    }
  }

  lemma {:induction false} CountedOnce(nodes: seq<RawNode>, n: RawNode)
    requires UniqueIds(nodes)
    ensures multiset(nodes)[n] <= 1
  {
    if nodes != [] {
      var front := nodes[..|nodes| - 1];
      CountedOnce(front, n);
      assert nodes == front + [Last(nodes)];
      assert Last(nodes) !in front;
    }
  }

  lemma BagGivesUnique(nodes: seq<RawNode>)
    requires UniqueBag(multiset(nodes))
    ensures UniqueIds(nodes)
  {
    forall i, j | 0 <= i < j < |nodes| ensures nodes[i].id != nodes[j].id {
      assert nodes[i] in multiset(nodes) && nodes[j] in multiset(nodes);
      assert nodes == nodes[..j] + nodes[j..];
      assert nodes[i] in nodes[..j] && nodes[j] in nodes[j..];
    }
  }

  lemma UniqueSubset(nodes: seq<RawNode>, kept: seq<RawNode>)
    requires UniqueIds(nodes) && multiset(kept) <= multiset(nodes)
    ensures UniqueIds(kept)
  {
    UniqueGivesBag(nodes);
    forall a, b | a in multiset(kept) && b in multiset(kept) && a.id == b.id ensures a == b && multiset(kept)[a] == 1 {
      assert a in multiset(nodes) && b in multiset(nodes);
      assert multiset(nodes)[a] == 1;
    }
    BagGivesUnique(kept);
  }

  lemma {:induction false} KeptNodesSubset(o: Options, nodes: seq<RawNode>)
    ensures multiset(KeepNodes(o, nodes)) <= multiset(nodes)
  {
    if nodes != [] {
      KeptNodesSubset(o, nodes[..|nodes| - 1]);
      assert nodes == nodes[..|nodes| - 1] + [Last(nodes)];
    }
  }

  lemma SurvivorsUnique(o: Options, nodes: seq<RawNode>, edges: seq<RawEdge>)
    requires UniqueIds(nodes)
    ensures UniqueIds(Survivors(o, nodes, edges))
  {
    KeptNodesSubset(o, nodes);
    CapKeepsTheHighest(o, Boundary(o, nodes, edges).0, Boundary(o, nodes, edges).1);
    UniqueSubset(nodes, Survivors(o, nodes, edges));
  }

  /** With unique raw ids the shown degrees add up to twice the links, and at most `maxNodes` nodes are shown. */
  lemma DegreesAddUp(o: Options, r: Rewriting, nodes: seq<RawNode>, edges: seq<RawEdge>)
    requires UniqueIds(nodes)
    ensures var payload := Reduce(o, r, nodes, edges);
      && ShownSum(payload.nodes) == 2 * |payload.links|
      && |payload.nodes| <= o.maxNodes
      && payload.counts.links == |payload.links| && payload.counts.nodes == |payload.nodes|
  {
    SurvivorsUnique(o, nodes, edges);
    RemainingBetween(o, nodes, edges);
    Handshake(Survivors(o, nodes, edges), Remaining(o, nodes, edges));
    PruneKeepsSum(r, Survivors(o, nodes, edges), Remaining(o, nodes, edges));
    NoEdgeLost(o, r, nodes, edges);
    PruneShrinks(r, Survivors(o, nodes, edges), Remaining(o, nodes, edges));
    CapKeepsTheHighest(o, Boundary(o, nodes, edges).0, Boundary(o, nodes, edges).1);
  }

  lemma {:induction false} PruneShrinks(r: Rewriting, nodes: seq<RawNode>, edges: seq<RawEdge>)
    ensures |Prune(r, nodes, edges)| <= |nodes|
  {
    if nodes != [] { PruneShrinks(r, nodes[..|nodes| - 1], edges); }
  }

  // ----- the counts -----

  function Externals(nodes: seq<RawNode>): set<int> {
    set i | 0 <= i < |nodes| && nodes[i].external
  }

  function OwnIgnored(nodes: seq<RawNode>): set<int> {
    set i | 0 <= i < |nodes| && nodes[i].ignored && !nodes[i].external
  }

  lemma {:induction false} CountsMeaning(nodes: seq<RawNode>)
    ensures CountExternal(nodes) == |Externals(nodes)| && CountIgnored(nodes) == |OwnIgnored(nodes)|
  {
    if nodes != [] {
      var n := |nodes| - 1;
      CountsMeaning(nodes[..n]);
      assert Externals(nodes) == Externals(nodes[..n]) + (if nodes[n].external then {n} else {});
      assert OwnIgnored(nodes) == OwnIgnored(nodes[..n]) + (if nodes[n].ignored && !nodes[n].external then {n} else {});
    }
  }

  /** Each count counts what its name says: the externals, the ignored ones that are not external, and those beyond the cap. */
  lemma CountsCount(o: Options, r: Rewriting, nodes: seq<RawNode>, edges: seq<RawEdge>)
    ensures var counts := Reduce(o, r, nodes, edges).counts;
      && counts.rawNodes == |nodes| && counts.rawEdges == |edges|
      && counts.droppedExternal == (if o.keepExternal then 0 else |Externals(nodes)|)
      && counts.droppedIgnored == (if o.keepIgnored then 0 else |OwnIgnored(nodes)|)
      && counts.droppedByCap == (if |KeepNodes(o, nodes)| > o.maxNodes then |KeepNodes(o, nodes)| - o.maxNodes else 0)
  {
    CountsMeaning(nodes);
    CapKeepsTheHighest(o, Boundary(o, nodes, edges).0, Boundary(o, nodes, edges).1);
  }

  /** A node that is both external and ignored, in a dump that keeps the one kind and drops the other. */
  predicate DoublyMarked(o: Options, nodes: seq<RawNode>) {
    o.keepExternal && !o.keepIgnored && exists i | 0 <= i < |nodes| :: nodes[i].external && nodes[i].ignored
  }

  function Uncounted(o: Options, nodes: seq<RawNode>): nat {
    if nodes == [] then 0
    else
      var here := if o.keepExternal && !o.keepIgnored && Last(nodes).external && Last(nodes).ignored then 1 else 0;
      Uncounted(o, nodes[..|nodes| - 1]) + here
  }

  lemma {:induction false} BoundaryCount(o: Options, nodes: seq<RawNode>)
    ensures |nodes| ==
      (if o.keepExternal then 0 else CountExternal(nodes)) + (if o.keepIgnored then 0 else CountIgnored(nodes))
      + |KeepNodes(o, nodes)| + Uncounted(o, nodes)
  {
    if nodes != [] { BoundaryCount(o, nodes[..|nodes| - 1]); }
  }

  lemma {:induction false} UncountedMeaning(o: Options, nodes: seq<RawNode>)
    ensures Uncounted(o, nodes) > 0 <==> DoublyMarked(o, nodes)
  {
    if nodes != [] {
      var front := nodes[..|nodes| - 1];
      UncountedMeaning(o, front);
      if i :| 0 <= i < |front| && front[i].external && front[i].ignored {
        assert nodes[i].external && nodes[i].ignored;
      }
      if Last(nodes).external && Last(nodes).ignored {
        assert nodes[|nodes| - 1].external && nodes[|nodes| - 1].ignored;
      }
      if i :| 0 <= i < |nodes| && nodes[i].external && nodes[i].ignored {
        if i < |front| { assert front[i].external && front[i].ignored; }
      }
    }
  }

  /**
   The raw nodes are the external, the ignored, the capped and the kept ones, exactly
   when no node is both external and ignored in a dump that keeps only externals.
   */
  lemma CountsAddUp(o: Options, r: Rewriting, nodes: seq<RawNode>, edges: seq<RawEdge>)
    ensures var counts := Reduce(o, r, nodes, edges).counts;
      counts.rawNodes == counts.droppedExternal + counts.droppedIgnored + counts.droppedByCap + |Survivors(o, nodes, edges)|
      <==> !DoublyMarked(o, nodes)
  {
    BoundaryCount(o, nodes);
    UncountedMeaning(o, nodes);
    CapKeepsTheHighest(o, Boundary(o, nodes, edges).0, Boundary(o, nodes, edges).1);
  }
}
