/** The post-pass that boxes each workload's own nodes into one compound group. */
module GraphGroups {
  import opened Optional
  import opened GraphModel
  import opened GraphWalk
  import opened GraphBuilder

  /** The controllers that are boxed are exactly the kinds that have children, and every chain of
      children ends in pods; a series of runs is such a child. */
  lemma ControllersLeadToPods(group: string, kind: string, child: string)
    ensures PodController(group, kind) <==> OwnerChildren(group, kind) != []
    ensures child in OwnerChildren(group, kind) ==>
              child == "Pod" || (PodController(group, child) && OwnerChildren(group, child) == ["Pod"])
    ensures RunSeries(group, kind, child) ==> child in OwnerChildren(group, kind)
  {
  }

  type Links = map<Id, seq<Id>>

  function Next(links: Links, x: Id): seq<Id> {
    if x in links then links[x] else []
  }

  /** `y` is at the end of a walk of `n` links from `x`. */
  ghost predicate Leads(links: Links, x: Id, n: nat, y: Id) {
    if n == 0 then x == y else exists z :: Leads(links, x, n - 1, z) && y in Next(links, z)
  }

  ghost predicate Descends(links: Links, x: Id, y: Id) {
    exists n: nat :: Leads(links, x, n, y)
  }

  /** Everything the links mention, with the root: where a worklist can go. */
  function Mentioned(links: Links, root: Id): set<Id> {
    {root} + set x, y | x in links && y in links[x] :: y
  }

  lemma NoDupFits<T(!new)>(xs: seq<T>, all: set<T>)
    requires NoDup(xs) && forall x :: x in xs ==> x in all
    ensures |xs| <= |all|
  {
    if xs != [] {
      var last := xs[|xs| - 1];
      forall x | x in xs[..|xs| - 1] ensures x in all - {last} {}
      NoDupFits(xs[..|xs| - 1], all - {last});
    }
  }

  lemma StepsOn(links: Links, root: Id, x: Id, y: Id)
    requires Descends(links, root, x) && y in Next(links, x)
    ensures Descends(links, root, y)
  {
    var n: nat :| Leads(links, root, n, x);
    assert Leads(links, root, n + 1, y);
  }

  lemma {:induction false} ClosedHoldsAll(links: Links, root: Id, closed: seq<Id>, n: nat, y: Id)
    requires root in closed && Leads(links, root, n, y)
    requires forall x, z :: x in closed && z in Next(links, x) ==> z in closed
    ensures y in closed
  {
    if n > 0 {
      var z :| Leads(links, root, n - 1, z) && y in Next(links, z);
      ClosedHoldsAll(links, root, closed, n - 1, z);
    }
  }

  /** What has been found so far: each once, and reachable. */
  ghost predicate Frontier(links: Links, root: Id, visited: set<Id>, out: seq<Id>) {
    && NoDup(out) && (forall y :: y in visited <==> y in out)
    && (forall y :: y in out ==> Descends(links, root, y) && y in Mentioned(links, root))
  }

  /** No walk of at most `n` links leads to `y`. */
  ghost predicate Beyond(links: Links, root: Id, n: nat, y: Id) {
    forall m: nat :: m <= n ==> !Leads(links, root, m, y)
  }

  /** `n` links lead to `y`, and no fewer do. */
  ghost predicate Distance(links: Links, root: Id, n: nat, y: Id) {
    Leads(links, root, n, y) && forall m: nat :: m < n ==> !Leads(links, root, m, y)
  }

  /** `level` holds the distances of what has been found, which never fall and stay within `most`. */
  ghost predicate Ranked(links: Links, root: Id, out: seq<Id>, level: seq<nat>, most: nat) {
    && |level| == |out| && (forall k | 0 <= k < |out| :: Distance(links, root, level[k], out[k]))
    && (forall j, k | 0 <= j < k < |level| :: level[j] <= level[k]) && forall k | 0 <= k < |level| :: level[k] <= most
  }

  /** The children of the first `i` found have been found. */
  ghost predicate ClosedTo(links: Links, out: seq<Id>, i: nat) {
    forall k, z :: 0 <= k < i && k < |out| && z in Next(links, out[k]) ==> z in out
  }

  /** Whatever is no further than the one in hand has been found. */
  lemma {:induction false} NearIsFound(links: Links, root: Id, out: seq<Id>, level: seq<nat>, most: nat, i: nat, n: nat, y: Id)
    requires root in out && Ranked(links, root, out, level, most) && i < |out| && ClosedTo(links, out, i)
    requires n <= level[i] && Leads(links, root, n, y)
    ensures y in out
  {
    if n > 0 {
      var z :| Leads(links, root, n - 1, z) && y in Next(links, z);
      NearIsFound(links, root, out, level, most, i, n - 1, z);
      var k :| 0 <= k < |out| && out[k] == z;
      assert Distance(links, root, level[k], out[k]);
      assert k < i;
    }
  }

  lemma NewIsBeyond(links: Links, root: Id, out: seq<Id>, level: seq<nat>, most: nat, i: nat, y: Id)
    requires root in out && Ranked(links, root, out, level, most) && i < |out| && ClosedTo(links, out, i) && y !in out
    ensures Beyond(links, root, level[i], y)
  {
    forall m: nat | m <= level[i] ensures !Leads(links, root, m, y) {
      if Leads(links, root, m, y) { NearIsFound(links, root, out, level, most, i, m, y); }
    }
  }

  lemma RankedMore(links: Links, root: Id, out: seq<Id>, level: seq<nat>, d: nat, x: Id, y: Id)
    requires Ranked(links, root, out, level, d + 1) && Leads(links, root, d, x) && y in Next(links, x) && Beyond(links, root, d, y)
    ensures Ranked(links, root, out + [y], level + [d + 1], d + 1)
  {
    assert Leads(links, root, d + 1, y);
    assert Distance(links, root, d + 1, y);
    forall k | 0 <= k < |out + [y]| ensures Distance(links, root, (level + [d + 1])[k], (out + [y])[k]) {
      if k < |out| { assert Distance(links, root, level[k], out[k]); }
    }
  }

  /** Appends the children of `x` not visited yet. */
  method AddNew(ghost links: Links, ghost root: Id, visited: set<Id>, out: seq<Id>, kids: seq<Id>, ghost level: seq<nat>,
                ghost d: nat, ghost x: Id)
    returns (visited': set<Id>, out': seq<Id>, ghost level': seq<nat>)
    requires Frontier(links, root, visited, out) && Ranked(links, root, out, level, d + 1)
    requires kids == Next(links, x) && Leads(links, root, d, x) && forall z :: z in kids && z !in out ==> Beyond(links, root, d, z)
    requires forall z :: z in kids ==> Descends(links, root, z) && z in Mentioned(links, root)
    ensures Frontier(links, root, visited', out') && out <= out' && forall z :: z in kids || z in out ==> z in out'
    ensures Ranked(links, root, out', level', d + 1) && level <= level'
  {
    visited', out', level' := visited, out, level;
    var j := 0;
    while j < |kids|
      invariant 0 <= j <= |kids| && out <= out' && Frontier(links, root, visited', out')
      invariant Ranked(links, root, out', level', d + 1) && level <= level'
      invariant forall k :: 0 <= k < j ==> kids[k] in out'
    {
      if kids[j] !in visited' {
        assert kids[j] in kids;
        RankedMore(links, root, out', level', d, x, kids[j]);
        visited' := visited' + {kids[j]};
        out', level' := out' + [kids[j]], level' + [d + 1];
      }
      j := j + 1;
    }
  }

  /** No one found is further than one found after it. */
  ghost predicate BreadthFirst(links: Links, root: Id, out: seq<Id>) {
    forall i, j, n: nat :: 0 <= i < j < |out| && Leads(links, root, n, out[j]) ==> !Beyond(links, root, n, out[i])
  }

  lemma RankedIsBreadthFirst(links: Links, root: Id, out: seq<Id>, level: seq<nat>, most: nat)
    requires Ranked(links, root, out, level, most)
    ensures BreadthFirst(links, root, out)
  {
    forall i, j, n: nat | 0 <= i < j < |out| && Leads(links, root, n, out[j]) ensures !Beyond(links, root, n, out[i]) {
      assert Distance(links, root, level[i], out[i]) && Distance(links, root, level[j], out[j]);
      assert level[i] <= n && Leads(links, root, level[i], out[i]);
    }
  }

  lemma KidsFit(links: Links, root: Id, out: seq<Id>, level: seq<nat>, most: nat, i: nat)
    requires root in out && Ranked(links, root, out, level, most) && i < |out| && ClosedTo(links, out, i)
    requires Descends(links, root, out[i])
    ensures forall z :: z in Next(links, out[i]) ==> Descends(links, root, z) && z in Mentioned(links, root)
    ensures forall z :: z in Next(links, out[i]) && z !in out ==> Beyond(links, root, level[i], z)
  {
    forall z | z in Next(links, out[i]) ensures Descends(links, root, z) && z in Mentioned(links, root) {
      StepsOn(links, root, out[i], z);
    }
    forall z | z in Next(links, out[i]) && z !in out ensures Beyond(links, root, level[i], z) {
      NewIsBeyond(links, root, out, level, most, i, z);
    }
  }

  lemma ClosedNext(links: Links, out: seq<Id>, out': seq<Id>, i: nat)
    requires ClosedTo(links, out, i) && i < |out| && out <= out' && forall z :: z in Next(links, out[i]) || z in out ==> z in out'
    ensures ClosedTo(links, out', i + 1)
  {
    forall k, z | 0 <= k < i + 1 && k < |out'| && z in Next(links, out'[k]) ensures z in out' { assert out'[k] == out[k]; }
  }

  lemma RankedWithin(links: Links, root: Id, out: seq<Id>, level: seq<nat>, most: nat, most': nat)
    requires Ranked(links, root, out, level, most) && most <= most'
    ensures Ranked(links, root, out, level, most')
  {
  }

  /** The root and everything reachable from it, each once and the nearest first, also when
      links loop. */
  method Descendants(links: Links, root: Id) returns (out: seq<Id>)
    ensures |out| >= 1 && out[0] == root && NoDup(out)
    ensures forall y :: y in out <==> Descends(links, root, y)
    ensures BreadthFirst(links, root, out)
  {
    var visited := {root};
    out := [root];
    assert Leads(links, root, 0, root);
    assert Frontier(links, root, visited, out);
    ghost var level := [0];
    assert Distance(links, root, 0, root);
    var i := 0;
    while i < |out|
      invariant 0 <= i <= |out| <= |Mentioned(links, root)|
      invariant |out| >= 1 && out[0] == root && Frontier(links, root, visited, out) && ClosedTo(links, out, i)
      invariant |level| == |out| && Ranked(links, root, out, level, if i < |out| then level[i] + 1 else level[|out| - 1])
      decreases |Mentioned(links, root)| - i
    {
      ghost var before, d := out, level[i];
      KidsFit(links, root, out, level, d + 1, i);
      assert Distance(links, root, level[i], out[i]);
      visited, out, level := AddNew(links, root, visited, out, Next(links, out[i]), level, d, out[i]);
      ClosedNext(links, before, out, i);
      NoDupFits(out, Mentioned(links, root));
      i := i + 1;
      if i < |out| {
        assert level[i - 1] <= level[i];
        RankedWithin(links, root, out, level, d + 1, level[i] + 1);
      }
    }
    RankedIsBreadthFirst(links, root, out, level, level[|out| - 1]);
    forall y | Descends(links, root, y) ensures y in out {
      var n: nat :| Leads(links, root, n, y);
      ClosedHoldsAll(links, root, out, n, y);
    }
  }

  // ----- Indexes over the edges -----

  ghost predicate HasEdge(edges: Edges, rel: Relation, x: Id, y: Id) {
    (x, y) in edges && edges[(x, y)].rel == rel
  }

  ghost predicate OwnsIndex(edges: Edges, owns: Links) {
    forall x, y :: y in Next(owns, x) <==> HasEdge(edges, Owns, x, y)
  }

  /** Routes are indexed both ways. */
  ghost predicate RoutesIndex(edges: Edges, routes: Links) {
    forall x, y :: y in Next(routes, x) <==> HasEdge(edges, Routes, x, y) || HasEdge(edges, Routes, y, x)
  }

  ghost predicate Owned(edges: Edges, y: Id) {
    exists x :: HasEdge(edges, Owns, x, y)
  }

  function Add(links: Links, x: Id, y: Id): (r: Links)
    ensures forall u, v :: v in Next(r, u) <==> v in Next(links, u) || (u == x && v == y)
  {
    links[x := Next(links, x) + [y]]
  }

  /** The edges listed so far. */
  ghost predicate SeenEdge(edges: Edges, order: seq<(Id, Id)>, i: nat, rel: Relation, x: Id, y: Id)
    requires i <= |order|
  {
    HasEdge(edges, rel, x, y) && (x, y) in order[..i]
  }

  method IndexEdges(edges: Edges, order: seq<(Id, Id)>) returns (owns: Links, owned: set<Id>, routes: Links)
    requires Enumerates(order, edges.Keys)
    ensures OwnsIndex(edges, owns) && RoutesIndex(edges, routes)
    ensures forall y :: y in owned <==> Owned(edges, y)
  {
    owns, owned, routes := map[], {}, map[];
    var i := 0;
    while i < |order|
      invariant 0 <= i <= |order|
      invariant forall x, y :: y in Next(owns, x) <==> SeenEdge(edges, order, i, Owns, x, y)
      invariant owned == set e | e in order[..i] && edges[e].rel == Owns :: e.1
      invariant forall x, y :: y in Next(routes, x) <==>
                  SeenEdge(edges, order, i, Routes, x, y) || SeenEdge(edges, order, i, Routes, y, x)
    {
      var e := order[i];
      var rel := edges[e].rel;
      assert order[..i + 1] == order[..i] + [e];
      if rel == Owns {
        owns := Add(owns, e.0, e.1);
        owned := owned + {e.1};
      } else if rel == Routes {
        routes := Add(Add(routes, e.0, e.1), e.1, e.0);
      }
      i := i + 1;
    }
    assert order[..i] == order;
    OwnedAre(edges, order, owned);
  }

  lemma OwnedAre(edges: Edges, order: seq<(Id, Id)>, owned: set<Id>)
    requires Enumerates(order, edges.Keys) && owned == set e | e in order && edges[e].rel == Owns :: e.1
    ensures forall y :: y in owned <==> Owned(edges, y)
  {
    forall y ensures y in owned <==> Owned(edges, y) {
      if y in owned {
        var e :| e in order && edges[e].rel == Owns && e.1 == y;
        assert HasEdge(edges, Owns, e.0, y);
      }
      if x :| HasEdge(edges, Owns, x, y) { assert (x, y) in order; }
    }
  }

  // ----- Who a root claims -----

  /** `m` belongs to the workload of `root`: it descends from it, or is a Service
      routing with a pod (or an aggregate of pods) that does. */
  ghost predicate Claims(nodes: Nodes, owns: Links, routes: Links, root: Id, m: Id) {
    || Descends(owns, root, m)
    || exists p :: Fronts(nodes, owns, routes, root, p, m)
  }

  ghost predicate Fronts(nodes: Nodes, owns: Links, routes: Links, root: Id, p: Id, m: Id) {
    && Descends(owns, root, p) && p in nodes && nodes[p].info.kind == "Pod"
    && m in Next(routes, p) && m in nodes && nodes[m].info.kind == "Service"
  }

  ghost predicate Inside(nodes: Nodes, links: Links) {
    forall x, y :: y in Next(links, x) ==> y in nodes
  }

  lemma {:induction false} LeadsInside(nodes: Nodes, links: Links, x: Id, n: nat, y: Id)
    requires Inside(nodes, links) && x in nodes && Leads(links, x, n, y)
    ensures y in nodes
  {
    if n > 0 { var z :| Leads(links, x, n - 1, z) && y in Next(links, z); }
  }

  lemma DescendsInside(nodes: Nodes, links: Links, root: Id)
    requires Inside(nodes, links) && root in nodes
    ensures forall y :: Descends(links, root, y) ==> y in nodes
  {
    forall y | Descends(links, root, y) ensures y in nodes {
      var n: nat :| Leads(links, root, n, y);
      LeadsInside(nodes, links, root, n, y);
    }
  }

  /** The Services fronting the pods among `members`. */
  method Fronting(nodes: Nodes, owns: Links, routes: Links, root: Id, members: seq<Id>) returns (out: seq<Id>)
    requires root in nodes && Inside(nodes, owns) && Inside(nodes, routes)
    requires forall y :: y in members <==> Descends(owns, root, y)
    ensures forall m :: m in out <==> exists p :: Fronts(nodes, owns, routes, root, p, m)
  {
    DescendsInside(nodes, owns, root);
    out := [];
    var i := 0;
    while i < |members|
      invariant 0 <= i <= |members|
      invariant forall m :: m in out ==> exists p :: Fronts(nodes, owns, routes, root, p, m)
      invariant forall k, m :: 0 <= k < i && Fronts(nodes, owns, routes, root, members[k], m) ==> m in out
    {
      assert members[i] in members;
      if nodes[members[i]].info.kind == "Pod" {
        var others := Next(routes, members[i]);
        ghost var before := out;
        var j := 0;
        while j < |others|
          invariant 0 <= j <= |others| && others == Next(routes, members[i])
          invariant forall m :: m in before ==> m in out
          invariant forall m :: m in out ==> exists p :: Fronts(nodes, owns, routes, root, p, m)
          invariant forall k :: 0 <= k < j && nodes[others[k]].info.kind == "Service" ==> others[k] in out
        {
          assert others[j] in Next(routes, members[i]);
          if nodes[others[j]].info.kind == "Service" {
            assert Fronts(nodes, owns, routes, root, members[i], others[j]);
            out := out + [others[j]];
          }
          j := j + 1;
        }
      }
      i := i + 1;
    }
    forall p, m | Fronts(nodes, owns, routes, root, p, m) ensures m in out {
      var k :| 0 <= k < |members| && members[k] == p;
    }
  }

  // ----- Boxing -----

  /** One box, named after the controller it forms around. */
  datatype Group = Group(root: Id, name: string, kind: string)

  /** A controller of pods that nothing in the graph owns. */
  ghost predicate Eligible(nodes: Nodes, edges: Edges, id: Id) {
    id in nodes && !nodes[id].aggregate && !Owned(edges, id) && PodController(nodes[id].info.group, nodes[id].info.kind)
  }

  /** Nothing but the boxes changed. */
  ghost predicate OnlyParents(nodes: Nodes, nodes': Nodes) {
    nodes'.Keys == nodes.Keys && forall id :: id in nodes ==> nodes'[id] == nodes[id].(parent := nodes'[id].parent)
  }

  /** `m` sits in the first listed group whose workload claims it, or in none when none does. */
  ghost predicate BoxedFirst(nodes: Nodes, owns: Links, routes: Links, groups: seq<Group>, m: Id)
    requires m in nodes
  {
    match nodes[m].parent
    case None => forall i | 0 <= i < |groups| :: !Claims(nodes, owns, routes, groups[i].root, m)
    case Some(r) =>
      exists i :: 0 <= i < |groups| && groups[i].root == r && Claims(nodes, owns, routes, r, m)
                  && forall j | 0 <= j < i :: !Claims(nodes, owns, routes, groups[j].root, m)
  }

  /** A listed group is formed around an eligible root that sits in its own box, together
      with at least one other node. */
  ghost predicate RealGroup(nodes: Nodes, edges: Edges, g: Group) {
    && Eligible(nodes, edges, g.root) && nodes[g.root].parent == Some(g.root)
    && g.name == nodes[g.root].name && g.kind == nodes[g.root].info.kind
    && exists m :: m in nodes && m != g.root && nodes[m].parent == Some(g.root)
  }

  ghost predicate Grouped(nodes0: Nodes, nodes: Nodes, edges: Edges, owns: Links, routes: Links, groups: seq<Group>) {
    && OnlyParents(nodes0, nodes)
    && (forall m :: m in nodes ==> BoxedFirst(nodes, owns, routes, groups, m))
    && (forall i | 0 <= i < |groups| :: RealGroup(nodes, edges, groups[i]))
  }

  lemma ClaimsSame(nodes: Nodes, nodes': Nodes, owns: Links, routes: Links, root: Id, m: Id)
    requires OnlyParents(nodes, nodes')
    ensures Claims(nodes, owns, routes, root, m) == Claims(nodes', owns, routes, root, m)
  {
    forall p ensures Fronts(nodes, owns, routes, root, p, m) == Fronts(nodes', owns, routes, root, p, m) {}
    if p :| Fronts(nodes, owns, routes, root, p, m) { assert Fronts(nodes', owns, routes, root, p, m); }
    if p :| Fronts(nodes', owns, routes, root, p, m) { assert Fronts(nodes, owns, routes, root, p, m); }
  }

  /** `nodes'` puts exactly the unboxed nodes `root` claims into its box. */
  ghost predicate Boxes(nodes: Nodes, nodes': Nodes, owns: Links, routes: Links, root: Id) {
    && OnlyParents(nodes, nodes')
    && forall m :: m in nodes ==>
         nodes'[m].parent == if nodes[m].parent.None? && Claims(nodes, owns, routes, root, m) then Some(root) else nodes[m].parent
  }

  lemma BoxedStays(nodes: Nodes, nodes': Nodes, owns: Links, routes: Links, groups: seq<Group>, g: Group, m: Id)
    requires m in nodes && Boxes(nodes, nodes', owns, routes, g.root) && BoxedFirst(nodes, owns, routes, groups, m)
    ensures BoxedFirst(nodes', owns, routes, groups + [g], m)
  {
    var groups' := groups + [g];
    forall r ensures Claims(nodes, owns, routes, r, m) == Claims(nodes', owns, routes, r, m) {
      ClaimsSame(nodes, nodes', owns, routes, r, m);
    }
    if nodes[m].parent.Some? {
      var r := nodes[m].parent.value;
      var i :| 0 <= i < |groups| && groups[i].root == r && Claims(nodes, owns, routes, r, m)
               && forall j | 0 <= j < i :: !Claims(nodes, owns, routes, groups[j].root, m);
      assert groups'[i] == groups[i];
    } else if Claims(nodes, owns, routes, g.root, m) {
      assert groups'[|groups|] == g;
    }
  }

  lemma RealStays(nodes: Nodes, nodes': Nodes, edges: Edges, owns: Links, routes: Links, root: Id, g: Group)
    requires RealGroup(nodes, edges, g) && Boxes(nodes, nodes', owns, routes, root)
    ensures RealGroup(nodes', edges, g)
  {
    var m :| m in nodes && m != g.root && nodes[m].parent == Some(g.root);
    assert m in nodes' && nodes'[m].parent == Some(g.root);
  }

  lemma GroupMore(nodes0: Nodes, nodes: Nodes, nodes': Nodes, edges: Edges, owns: Links, routes: Links,
                  groups: seq<Group>, g: Group)
    requires Grouped(nodes0, nodes, edges, owns, routes, groups) && Boxes(nodes, nodes', owns, routes, g.root)
    requires RealGroup(nodes', edges, g)
    ensures Grouped(nodes0, nodes', edges, owns, routes, groups + [g])
  {
    forall m | m in nodes' ensures BoxedFirst(nodes', owns, routes, groups + [g], m) {
      BoxedStays(nodes, nodes', owns, routes, groups, g, m);
    }
    forall i | 0 <= i < |groups| ensures RealGroup(nodes', edges, groups[i]) {
      RealStays(nodes, nodes', edges, owns, routes, g.root, groups[i]);
    }
  }

  /** The members not boxed yet, each once, in claiming order. */
  method Unclaimed(nodes: Nodes, members: seq<Id>) returns (claimed: seq<Id>)
    requires forall m :: m in members ==> m in nodes
    ensures NoDup(claimed) && forall m :: m in claimed <==> m in members && nodes[m].parent.None?
  {
    claimed := [];
    var taken := {};
    var i := 0;
    while i < |members|
      invariant 0 <= i <= |members| && NoDup(claimed) && (forall m :: m in taken <==> m in claimed)
      invariant forall m :: m in claimed <==> m in members[..i] && nodes[m].parent.None?
    {
      assert members[..i + 1] == members[..i] + [members[i]];
      if members[i] !in taken && nodes[members[i]].parent.None? {
        taken := taken + {members[i]};
        claimed := claimed + [members[i]];
      }
      i := i + 1;
    }
    assert members[..i] == members;
  }

  method PutInBox(nodes: Nodes, claimed: seq<Id>, root: Id) returns (nodes': Nodes)
    requires forall m :: m in claimed ==> m in nodes
    ensures OnlyParents(nodes, nodes')
    ensures forall m :: m in nodes ==> nodes'[m].parent == if m in claimed then Some(root) else nodes[m].parent
  {
    nodes' := nodes;
    var i := 0;
    while i < |claimed|
      invariant 0 <= i <= |claimed| && OnlyParents(nodes, nodes')
      invariant forall m :: m in nodes ==> nodes'[m].parent == if m in claimed[..i] then Some(root) else nodes[m].parent
    {
      assert claimed[..i + 1] == claimed[..i] + [claimed[i]];
      assert claimed[i] in claimed;
      nodes' := nodes'[claimed[i] := nodes'[claimed[i]].(parent := Some(root))];
      i := i + 1;
    }
    assert claimed[..i] == claimed;
  }

  // ----- The pass over all nodes -----

  /** An eligible root left without a box claims nothing else that is unboxed: a box
      around it would have held one node. */
  ghost predicate Settled(nodes: Nodes, edges: Edges, owns: Links, routes: Links, root: Id) {
    Eligible(nodes, edges, root) && nodes[root].parent.None? ==>
      forall m :: m in nodes && m != root && Claims(nodes, owns, routes, root, m) ==> nodes[m].parent.Some?
  }

  ghost predicate AllSettled(nodes: Nodes, edges: Edges, owns: Links, routes: Links, order: seq<Id>) {
    forall k | 0 <= k < |order| :: Settled(nodes, edges, owns, routes, order[k])
  }

  lemma SettledStays(nodes: Nodes, nodes': Nodes, edges: Edges, owns: Links, routes: Links, root: Id, id: Id)
    requires Settled(nodes, edges, owns, routes, id) && Boxes(nodes, nodes', owns, routes, root)
    ensures Settled(nodes', edges, owns, routes, id)
  {
    if Eligible(nodes', edges, id) && nodes'[id].parent.None? {
      forall m | m in nodes' && m != id && Claims(nodes', owns, routes, id, m) ensures nodes'[m].parent.Some? {
        ClaimsSame(nodes, nodes', owns, routes, id, m);
      }
    }
  }

  lemma AllSettledStays(nodes: Nodes, nodes': Nodes, edges: Edges, owns: Links, routes: Links, root: Id, order: seq<Id>)
    requires AllSettled(nodes, edges, owns, routes, order) && Boxes(nodes, nodes', owns, routes, root)
    ensures AllSettled(nodes', edges, owns, routes, order)
  {
    forall k | 0 <= k < |order| ensures Settled(nodes', edges, owns, routes, order[k]) {
      SettledStays(nodes, nodes', edges, owns, routes, root, order[k]);
    }
  }

  lemma OneIsNotTwo<T(!new)>(xs: seq<T>, root: T)
    requires NoDup(xs) && root in xs
    ensures |xs| < 2 ==> xs == [root]
    ensures |xs| >= 2 ==> exists m :: m in xs && m != root
  {
    if |xs| >= 2 { assert xs[0] in xs && xs[1] in xs; }
  }

  /** What `root` claims and nobody has boxed yet. */
  method Claim(nodes: Nodes, owns: Links, routes: Links, root: Id) returns (claimed: seq<Id>)
    requires root in nodes && Inside(nodes, owns) && Inside(nodes, routes)
    ensures NoDup(claimed)
    ensures forall m :: m in claimed <==> m in nodes && nodes[m].parent.None? && Claims(nodes, owns, routes, root, m)
  {
    DescendsInside(nodes, owns, root);
    var members := Descendants(owns, root);
    var fronting := Fronting(nodes, owns, routes, root, members);
    claimed := Unclaimed(nodes, members + fronting);
  }

  lemma IndexInside(nodes: Nodes, edges: Edges, owns: Links, routes: Links)
    requires EdgesSound(nodes, edges) && OwnsIndex(edges, owns) && RoutesIndex(edges, routes)
    ensures Inside(nodes, owns) && Inside(nodes, routes)
  {
  }

  /** What considering `id` did: nothing, or one new box around it. */
  ghost predicate Considered(nodes: Nodes, nodes': Nodes, edges: Edges, owns: Links, routes: Links, id: Id, group: Option<Group>) {
    && (group.None? ==> nodes' == nodes)
    && (group.Some? ==> group.value.root == id && Boxes(nodes, nodes', owns, routes, id) && RealGroup(nodes', edges, group.value))
    && Settled(nodes', edges, owns, routes, id)
  }

  /** Boxes what an eligible, unboxed root claims, unless that is only itself. */
  method BoxOne(nodes: Nodes, ghost edges: Edges, owns: Links, routes: Links, id: Id) returns (nodes': Nodes, group: Option<Group>)
    requires Inside(nodes, owns) && Inside(nodes, routes) && Eligible(nodes, edges, id) && nodes[id].parent.None?
    ensures Considered(nodes, nodes', edges, owns, routes, id, group)
  {
    var claimed := Claim(nodes, owns, routes, id);
    assert Leads(owns, id, 0, id);
    assert Claims(nodes, owns, routes, id, id);
    OneIsNotTwo(claimed, id);
    if |claimed| < 2 { return nodes, None; }
    nodes' := PutInBox(nodes, claimed, id);
    group := Some(Group(id, nodes[id].name, nodes[id].info.kind));
    var m :| m in claimed && m != id;
    assert m in nodes' && nodes'[m].parent == Some(id);
  }

  method Consider(nodes: Nodes, ghost edges: Edges, owns: Links, owned: set<Id>, routes: Links, id: Id)
    returns (nodes': Nodes, group: Option<Group>)
    requires id in nodes && Indexed(nodes, edges, owns, owned, routes)
    ensures nodes'.Keys == nodes.Keys && Indexed(nodes', edges, owns, owned, routes)
    ensures Considered(nodes, nodes', edges, owns, routes, id, group)
  {
    var root := nodes[id];
    if root.aggregate || id in owned || root.parent.Some? { return nodes, None; }
    if !PodController(root.info.group, root.info.kind) { return nodes, None; }
    nodes', group := BoxOne(nodes, edges, owns, routes, id);
  }

  function Roots(groups: seq<Group>): seq<Id> {
    if groups == [] then [] else Roots(groups[..|groups| - 1]) + [groups[|groups| - 1].root]
  }

  /** The nodes of this order that sit in their own box. */
  function SelfBoxed(nodes: Nodes, order: seq<Id>): seq<Id> {
    if order == [] then []
    else
      var last := order[|order| - 1];
      SelfBoxed(nodes, order[..|order| - 1]) + if last in nodes && nodes[last].parent == Some(last) then [last] else []
  }

  lemma {:induction false} SelfBoxedIn(nodes: Nodes, order: seq<Id>)
    ensures forall id :: id in SelfBoxed(nodes, order) ==> id in order
  {
    if order != [] { SelfBoxedIn(nodes, order[..|order| - 1]); }
  }

  lemma {:induction false} RootIn(groups: seq<Group>, i: nat)
    requires i < |groups|
    ensures groups[i].root in Roots(groups)
  {
    if i < |groups| - 1 { RootIn(groups[..|groups| - 1], i); }
  }

  /** Boxing a later root leaves the earlier boxes the ones they were. */
  lemma {:induction false} SelfBoxedStays(nodes: Nodes, nodes': Nodes, owns: Links, routes: Links, root: Id, order: seq<Id>)
    requires Boxes(nodes, nodes', owns, routes, root) && root !in order
    ensures SelfBoxed(nodes', order) == SelfBoxed(nodes, order)
  {
    if order != [] {
      assert order[|order| - 1] in order;
      SelfBoxedStays(nodes, nodes', owns, routes, root, order[..|order| - 1]);
    }
  }

  /** A node not passed yet sits in no box of its own. */
  lemma NotSelfBoxed(nodes: Nodes, owns: Links, routes: Links, groups: seq<Group>, order: seq<Id>, id: Id)
    requires id in nodes && id !in order && BoxedFirst(nodes, owns, routes, groups, id) && Roots(groups) == SelfBoxed(nodes, order)
    ensures nodes[id].parent != Some(id)
  {
    if nodes[id].parent == Some(id) {
      var i :| 0 <= i < |groups| && groups[i].root == id;
      RootIn(groups, i);
      SelfBoxedIn(nodes, order);
      assert false;
    }
  }

  lemma RootsGrow(nodes: Nodes, nodes': Nodes, owns: Links, routes: Links, groups: seq<Group>, order: seq<Id>, g: Group)
    requires Roots(groups) == SelfBoxed(nodes, order) && g.root !in order
    requires Boxes(nodes, nodes', owns, routes, g.root) && g.root in nodes' && nodes'[g.root].parent == Some(g.root)
    ensures Roots(groups + [g]) == SelfBoxed(nodes', order + [g.root])
  {
    assert (order + [g.root])[..|order|] == order && (groups + [g])[..|groups|] == groups;
    SelfBoxedStays(nodes, nodes', owns, routes, g.root, order);
  }

  lemma RootsStay(nodes: Nodes, owns: Links, routes: Links, groups: seq<Group>, order: seq<Id>, id: Id)
    requires id in nodes && id !in order && BoxedFirst(nodes, owns, routes, groups, id) && Roots(groups) == SelfBoxed(nodes, order)
    ensures Roots(groups) == SelfBoxed(nodes, order + [id])
  {
    assert (order + [id])[..|order|] == order;
    NotSelfBoxed(nodes, owns, routes, groups, order, id);
  }

  /** The pass after the nodes in `order`: the groups listed are those of the nodes in
      their own box, each once, in walk order. */
  ghost predicate Passed(nodes0: Nodes, nodes: Nodes, edges: Edges, owns: Links, routes: Links, groups: seq<Group>, order: seq<Id>) {
    && Grouped(nodes0, nodes, edges, owns, routes, groups) && AllSettled(nodes, edges, owns, routes, order)
    && Roots(groups) == SelfBoxed(nodes, order)
  }

  /** The indexes describe these edges among these nodes. */
  ghost predicate Indexed(nodes: Nodes, edges: Edges, owns: Links, owned: set<Id>, routes: Links) {
    Inside(nodes, owns) && Inside(nodes, routes) && forall y :: y in owned <==> Owned(edges, y)
  }

  function AddGroup(groups: seq<Group>, group: Option<Group>): seq<Group> {
    if group.Some? then groups + [group.value] else groups
  }

  lemma PassedMore(nodes0: Nodes, nodes: Nodes, nodes': Nodes, edges: Edges, owns: Links, routes: Links,
                   groups: seq<Group>, order: seq<Id>, id: Id, group: Option<Group>)
    requires Passed(nodes0, nodes, edges, owns, routes, groups, order)
    requires Considered(nodes, nodes', edges, owns, routes, id, group) && id in nodes && id !in order
    ensures Passed(nodes0, nodes', edges, owns, routes, AddGroup(groups, group), order + [id])
  {
    if group.Some? {
      RootsGrow(nodes, nodes', owns, routes, groups, order, group.value);
      GroupMore(nodes0, nodes, nodes', edges, owns, routes, groups, group.value);
      AllSettledStays(nodes, nodes', edges, owns, routes, id, order);
    } else {
      RootsStay(nodes, owns, routes, groups, order, id);
    }
  }

  ghost predicate Unboxed(nodes: Nodes) {
    forall m :: m in nodes ==> nodes[m].parent.None?
  }

  lemma NothingGrouped(nodes: Nodes, edges: Edges, owns: Links, routes: Links)
    requires Unboxed(nodes)
    ensures Grouped(nodes, nodes, edges, owns, routes, [])
  {
    forall m | m in nodes ensures BoxedFirst(nodes, owns, routes, [], m) {}
  }

  /** Boxes every workload: each node joins the first group that claims it. */
  method BuildGroups(b: Builder) returns (groups: seq<Group>, ghost owns: Links, ghost routes: Links)
    requires Enumerates(b.nodeOrder, b.nodes.Keys) && Enumerates(b.edgeOrder, b.edges.Keys)
    requires EdgesSound(b.nodes, b.edges) && Unboxed(b.nodes)
    modifies b`nodes
    ensures OwnsIndex(b.edges, owns) && RoutesIndex(b.edges, routes)
    ensures Grouped(old(b.nodes), b.nodes, b.edges, owns, routes, groups)
    ensures AllSettled(b.nodes, b.edges, owns, routes, b.nodeOrder)
    ensures Roots(groups) == SelfBoxed(b.nodes, b.nodeOrder)
  {
    var ownsChildren, hasOwner, fronted := IndexEdges(b.edges, b.edgeOrder);
    owns, routes := ownsChildren, fronted;
    IndexInside(b.nodes, b.edges, owns, routes);
    NothingGrouped(b.nodes, b.edges, owns, routes);
    groups := PassOver(b, ownsChildren, hasOwner, fronted);
  }

  /** One turn of the pass. */
  method Turn(b: Builder, owns: Links, owned: set<Id>, routes: Links, groups: seq<Group>, i: nat, ghost nodes0: Nodes)
    returns (groups': seq<Group>)
    requires i < |b.nodeOrder| && b.nodeOrder[i] in b.nodes && NoDup(b.nodeOrder) && Indexed(b.nodes, b.edges, owns, owned, routes)
    requires Passed(nodes0, b.nodes, b.edges, owns, routes, groups, b.nodeOrder[..i])
    modifies b`nodes
    ensures b.nodes.Keys == old(b.nodes.Keys) && Indexed(b.nodes, b.edges, owns, owned, routes)
    ensures Passed(nodes0, b.nodes, b.edges, owns, routes, groups', b.nodeOrder[..i + 1])
  {
    var nodes', group := Consider(b.nodes, b.edges, owns, owned, routes, b.nodeOrder[i]);
    PrefixNext(b.nodeOrder, i);
    NotBefore(b.nodeOrder, i);
    PassedMore(nodes0, b.nodes, nodes', b.edges, owns, routes, groups, b.nodeOrder[..i], b.nodeOrder[i], group);
    b.nodes, groups' := nodes', AddGroup(groups, group);
  }

  lemma NotBefore(order: seq<Id>, i: nat)
    requires i < |order| && NoDup(order)
    ensures order[i] !in order[..i]
  {
  }

  lemma PrefixNext(order: seq<Id>, i: nat)
    requires i < |order|
    ensures order[..i + 1] == order[..i] + [order[i]]
  {
  }

  /** The pass itself, in walk order. */
  method PassOver(b: Builder, owns: Links, owned: set<Id>, routes: Links) returns (groups: seq<Group>)
    requires (forall i | 0 <= i < |b.nodeOrder| :: b.nodeOrder[i] in b.nodes) && NoDup(b.nodeOrder) && Indexed(b.nodes, b.edges, owns, owned, routes)
    requires Passed(b.nodes, b.nodes, b.edges, owns, routes, [], [])
    modifies b`nodes
    ensures Passed(old(b.nodes), b.nodes, b.edges, owns, routes, groups, b.nodeOrder)
  {
    groups := [];
    var i := 0;
    assert b.nodeOrder[..0] == [];
    while i < |b.nodeOrder|
      invariant 0 <= i <= |b.nodeOrder| && b.nodes.Keys == old(b.nodes.Keys)
      invariant Indexed(b.nodes, b.edges, owns, owned, routes)
      invariant Passed(old(b.nodes), b.nodes, b.edges, owns, routes, groups, b.nodeOrder[..i])
    {
      groups := Turn(b, owns, owned, routes, groups, i, old(b.nodes));
      i := i + 1;
    }
    assert b.nodeOrder[..i] == b.nodeOrder;
  }

  /** A whole request: the walk, then the boxes over the nodes it drew. */
  method Graph(b: Builder, info: Info, name: string, requested: int)
    returns (ok: bool, groups: seq<Group>, ghost owns: Links, ghost routes: Links)
    requires b.Valid() && b.State() == EMPTY && b.store.objects == map[] && b.store.fetched == []
    modifies b, b.store
    ensures ok == Built(b.store.cluster, b.ns, info, name, requested).Some?
    ensures ok ==> var s := Built(b.store.cluster, b.ns, info, name, requested).value;
                   && b.edges == s.edges && b.nodeOrder == s.nodeOrder
                   && OwnsIndex(b.edges, owns) && RoutesIndex(b.edges, routes)
                   && Grouped(s.nodes, b.nodes, b.edges, owns, routes, groups)
                   && AllSettled(b.nodes, b.edges, owns, routes, b.nodeOrder)
                   && Roots(groups) == SelfBoxed(b.nodes, b.nodeOrder)
  {
    owns, routes, groups := map[], map[], [];
    ok := b.Build(info, name, requested);
    if ok {
      BuiltIsWellFormed(b.store.cluster, b.ns, info, name, requested);
      UnboxedWhenFiled(b.nodes);
      groups, owns, routes := BuildGroups(b);
    }
  }

  lemma UnboxedWhenFiled(nodes: Nodes)
    requires Filed(nodes)
    ensures Unboxed(nodes)
  {
  }
}
