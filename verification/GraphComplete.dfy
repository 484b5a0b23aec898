/** Completeness of the walk: nothing an expanded object points at is dropped without
    a note, and without one, and with no aggregate, the graph is exactly the objects within
    the effective depth, each at its shortest hop count. */
module GraphComplete {
  import opened Optional
  import opened GraphModel
  import opened GraphWalk
  import opened GraphReach
  import StatusTally

  // ----- What one visit does to the nodes -----

  /** No node appeared: an edge was drawn or a gap was noted. */
  ghost predicate Stays(s: State, s': State) {
    s'.nodes == s.nodes && s'.queue == s.queue && s'.popped == s.popped && s'.clubbed == s.clubbed
  }

  ghost predicate NewClub(s: State, s': State, cur: Queued, nb: Neighbor) {
    var id := AggregateId(cur.id, nb.info.kind);
    && nb.Club? && id !in s.nodes && id in s'.nodes && s'.nodes == s.nodes[id := s'.nodes[id]]
    && s'.nodes[id].aggregate && s'.nodes[id].count == |nb.items| && s'.nodes[id].info == nb.info && !s'.nodes[id].focus
    && s'.nodes[id].depth == cur.depth + 1 && s'.nodes[id].status == StatusTally.Tally(Statuses(nb.items))
    && s'.clubbed == Fold(s.clubbed, nb.info.kind, nb.items, id) && s'.queue == s.queue && s'.popped == s.popped
  }

  ghost predicate NewNode(s: State, s': State, c: Cluster, ns: string, cur: Queued, nb: Neighbor) {
    && Fresh(s, c, ns, nb)
    && NodeAdded(s, s', PlaceId(ns, nb.info, nb.name), Resolved(c, nb.info, nb.name, nb.held), cur, nb)
  }

  ghost predicate NodeAdded(s: State, s': State, id: Id, obj: Option<Obj>, cur: Queued, nb: Neighbor)
    requires nb.Single?
  {
    && id in s'.nodes && s'.nodes == s.nodes[id := s'.nodes[id]]
    && s'.nodes[id].info == nb.info && s'.nodes[id].name == nb.name
    && s'.nodes[id].depth == cur.depth + 1 && s'.nodes[id].missing == obj.None? && !s'.nodes[id].focus
    && s'.nodes[id].status == (if obj.Some? then obj.value.status else "Missing")
    && s'.clubbed == s.clubbed && s'.popped == s.popped
    && s'.queue == (if obj.Some? then s.queue + [Queued(id, obj.value, nb.info, cur.depth + 1)] else s.queue)
  }

  lemma ClubCases(s: State, c: Cluster, ns: string, cur: Queued, nb: Neighbor)
    requires nb.Club? && |s.nodes| <= MAX_NODES
    ensures var s' := Visit(s, c, ns, cur, nb);
            || (Stays(s, s') && (AggregateId(cur.id, nb.info.kind) !in s.nodes ==> !NoGap(s'.notes)))
            || NewClub(s, s', cur, nb)
  {
    Noted(s, NodeCap);
  }

  lemma SingleCases(s: State, c: Cluster, ns: string, cur: Queued, nb: Neighbor)
    requires nb.Single? && Shallow(s.nodes, cur.depth)
    ensures var s' := Visit(s, c, ns, cur, nb);
            Stays(s, s') || NewNode(s, s', c, ns, cur, nb)
  {
    if Fresh(s, c, ns, nb) {
      var s1, node := NewNodeShape(s, c, ns, cur, nb);
    }
  }

  // ----- Depths are hop counts -----

  /** `p` lies at the end of a walk of exactly `n` hops from the focus. */
  ghost predicate Reach(c: Cluster, root: Place, n: nat, p: Place) {
    if n == 0 then p == root
    else exists q :: Reach(c, root, n - 1, q) && Hop(c, q, p)
  }

  ghost predicate Reached(c: Cluster, root: Place, p: Place) {
    exists n: nat :: Reach(c, root, n, p)
  }

  ghost predicate Hop(c: Cluster, q: Place, p: Place) {
    c.fetch(q.info, q.name).Found? && Points(c, q.info, c.fetch(q.info, q.name).obj, p)
  }

  /** One snapshot: an object in hand from a list or an index is the object a read returns. */
  ghost predicate Consistent(c: Cluster) {
    && (forall info, o :: c.list(info).Listed? && o in c.list(info).items ==> c.fetch(info, o.name) == Found(o))
    && (forall info, obj, nb :: nb in c.refs(info, obj).neighbors && nb.Single? && nb.held.Some? ==>
          c.fetch(nb.info, nb.name) == Found(nb.held.value))
  }

  ghost predicate NodeHonest(c: Cluster, ns: string, root: Place, id: Id, n: Node) {
    && id == PlaceId(ns, n.info, n.name)
    && Reach(c, root, n.depth, Place(n.info, n.name))
    && (if n.missing then c.fetch(n.info, n.name).Absent? else c.fetch(n.info, n.name).Found?)
  }

  ghost predicate NodesHonest(c: Cluster, ns: string, root: Place, nodes: Nodes) {
    forall id :: id in nodes && id.ObjectId? ==> NodeHonest(c, ns, root, id, nodes[id])
  }

  ghost predicate Carries(c: Cluster, nodes: Nodes, q: Queued) {
    q.id in nodes && c.fetch(q.info, nodes[q.id].name) == Found(q.obj)
  }

  ghost predicate AllCarry(c: Cluster, nodes: Nodes, qs: seq<Queued>) {
    forall i | 0 <= i < |qs| :: Carries(c, nodes, qs[i])
  }

  /** Every object that exists was queued for expansion. */
  ghost predicate AllEnlisted(nodes: Nodes, enlisted: set<Id>) {
    forall id :: id in nodes && id.ObjectId? && !nodes[id].missing ==> id in enlisted
  }

  ghost predicate Honest(s: State, c: Cluster, ns: string, root: Place) {
    && NodesHonest(c, ns, root, s.nodes) && AllCarry(c, s.nodes, s.queue) && AllCarry(c, s.nodes, s.popped)
    && AllEnlisted(s.nodes, Ids(s.popped) + Ids(s.queue))
  }

  /** A neighbour is one the object in hand really points at, holding what a read returns. */
  ghost predicate Genuine(c: Cluster, info: Info, obj: Obj, nb: Neighbor) {
    && (forall p :: Offers(nb, p) ==> Points(c, info, obj, p))
    && (nb.Single? && nb.held.Some? ==> c.fetch(nb.info, nb.name) == Found(nb.held.value))
  }

  ghost predicate AllGenuine(c: Cluster, info: Info, obj: Obj, nbs: seq<Neighbor>) {
    forall i | 0 <= i < |nbs| :: Genuine(c, info, obj, nbs[i])
  }

  lemma HonestNode(s: State, s': State, c: Cluster, ns: string, root: Place, cur: Queued, nb: Neighbor)
    requires NewNode(s, s', c, ns, cur, nb) && Genuine(c, cur.info, cur.obj, nb)
    requires Carries(c, s.nodes, cur) && NodesHonest(c, ns, root, s.nodes)
    requires cur.id.ObjectId? && s.nodes[cur.id].depth == cur.depth && s.nodes[cur.id].info == cur.info
    ensures var id := PlaceId(ns, nb.info, nb.name); NodeHonest(c, ns, root, id, s'.nodes[id])
  {
    var q, p := Place(cur.info, s.nodes[cur.id].name), Place(nb.info, nb.name);
    assert NodeHonest(c, ns, root, cur.id, s.nodes[cur.id]);
    assert Offers(nb, p);
    assert Hop(c, q, p);
    assert Reach(c, root, cur.depth, q);
    assert Reach(c, root, cur.depth + 1, p);
  }

  lemma CarryStays(c: Cluster, nodes: Nodes, nodes': Nodes, qs: seq<Queued>)
    requires AllCarry(c, nodes, qs) && Keeps(nodes, nodes')
    ensures AllCarry(c, nodes', qs)
  {
    forall i | 0 <= i < |qs| ensures Carries(c, nodes', qs[i]) { assert Carries(c, nodes, qs[i]); }
  }

  lemma EnlistedGrows(s: State, s': State, c: Cluster, ns: string, cur: Queued, nb: Neighbor)
    requires NewNode(s, s', c, ns, cur, nb) && AllEnlisted(s.nodes, Ids(s.popped) + Ids(s.queue))
    ensures AllEnlisted(s'.nodes, Ids(s'.popped) + Ids(s'.queue))
  {
    var obj := Resolved(c, nb.info, nb.name, nb.held);
    if obj.Some? {
      var q := Queued(PlaceId(ns, nb.info, nb.name), obj.value, nb.info, cur.depth + 1);
      assert Ids(s.queue + [q]) == Ids(s.queue) + {q.id};
    }
  }

  lemma HonestNewNode(s: State, s': State, c: Cluster, ns: string, root: Place, cur: Queued, nb: Neighbor)
    requires NewNode(s, s', c, ns, cur, nb) && Genuine(c, cur.info, cur.obj, nb)
    requires Carries(c, s.nodes, cur) && Honest(s, c, ns, root) && Awaits(s.nodes, cur)
    ensures Honest(s', c, ns, root)
  {
    HonestNode(s, s', c, ns, root, cur, nb);
    CarryStays(c, s.nodes, s'.nodes, s.queue);
    CarryStays(c, s.nodes, s'.nodes, s.popped);
    EnlistedGrows(s, s', c, ns, cur, nb);
    forall i | 0 <= i < |s'.queue| ensures Carries(c, s'.nodes, s'.queue[i]) {
      if i < |s.queue| { assert s'.queue[i] == s.queue[i]; }
    }
  }

  lemma HonestVisit(s: State, c: Cluster, ns: string, root: Place, cur: Queued, nb: Neighbor)
    requires Shallow(s.nodes, cur.depth) && Honest(s, c, ns, root) && Awaits(s.nodes, cur)
    requires Carries(c, s.nodes, cur) && Genuine(c, cur.info, cur.obj, nb)
    ensures Honest(Visit(s, c, ns, cur, nb), c, ns, root)
  {
    var s' := Visit(s, c, ns, cur, nb);
    if nb.Club? {
      ClubCases(s, c, ns, cur, nb);
      if NewClub(s, s', cur, nb) {
        CarryStays(c, s.nodes, s'.nodes, s.queue);
        CarryStays(c, s.nodes, s'.nodes, s.popped);
      }
    } else {
      SingleCases(s, c, ns, cur, nb);
      if NewNode(s, s', c, ns, cur, nb) { HonestNewNode(s, s', c, ns, root, cur, nb); }
    }
  }

  lemma {:induction false} HonestVisitAll(s: State, c: Cluster, ns: string, root: Place, rootId: Id, cur: Queued,
                                          nbs: seq<Neighbor>)
    requires During(s, rootId, cur) && Honest(s, c, ns, root)
    requires Carries(c, s.nodes, cur) && AllGenuine(c, cur.info, cur.obj, nbs)
    ensures Honest(VisitAll(s, c, ns, cur, nbs), c, ns, root)
  {
    if nbs != [] {
      var front := nbs[..|nbs| - 1];
      forall i | 0 <= i < |front| ensures Genuine(c, cur.info, cur.obj, front[i]) { assert front[i] == nbs[i]; }
      HonestVisitAll(s, c, ns, root, rootId, cur, front);
      VisitAllKeeps(s, rootId, c, ns, cur, front);
      HonestVisit(VisitAll(s, c, ns, cur, front), c, ns, root, cur, nbs[|nbs| - 1]);
    }
  }

  // ----- Neighbours are genuine -----

  lemma SinglesGenuine(c: Cluster, info: Info, items: seq<Obj>, i: int)
    requires Consistent(c) && c.list(info).Listed? && 0 <= i < |items| && items[i] in c.list(info).items
    ensures var nb := AsSingles(info, items)[i]; nb.Single? && nb.held.Some? && c.fetch(nb.info, nb.name) == Found(nb.held.value)
  {
  }

  /** A pre-fetched object is what a read of its place returns. */
  ghost predicate HoldsRead(c: Cluster, nb: Neighbor) {
    nb.Single? && nb.held.Some? ==> c.fetch(nb.info, nb.name) == Found(nb.held.value)
  }

  lemma OwnersHold(c: Cluster, refs: seq<OwnerRef>)
    ensures forall nb :: nb in Owners(c, refs) ==> nb.Single? && nb.held.None?
  {
  }

  lemma KindHolds(s: State, c: Cluster, ns: string, cur: Queued, kind: string)
    requires Consistent(c)
    ensures forall nb :: nb in ChildrenOfKind(s, c, ns, cur, kind).neighbors ==> HoldsRead(c, nb)
  {
    var found := c.byKind(kind);
    if found.Some? && c.list(found.value).Listed? {
      var info := found.value;
      var owned := Controlled(c.list(info).items, cur.obj.uid);
      forall drawn: bool, i | 0 <= i < |AsSingles(info, Pick(s.nodes, info, ns, owned, drawn))|
        ensures HoldsRead(c, AsSingles(info, Pick(s.nodes, info, ns, owned, drawn))[i])
      {
        var items := Pick(s.nodes, info, ns, owned, drawn);
        assert items[i] in items;
        SinglesGenuine(c, info, items, i);
      }
    }
  }

  lemma {:induction false} ChildrenHold(s: State, c: Cluster, ns: string, cur: Queued, kinds: seq<string>)
    requires Consistent(c)
    ensures forall nb :: nb in Children(s, c, ns, cur, kinds).neighbors ==> HoldsRead(c, nb)
  {
    if kinds != [] {
      ChildrenHold(s, c, ns, cur, kinds[..|kinds| - 1]);
      KindHolds(s, c, ns, cur, kinds[|kinds| - 1]);
    }
  }

  lemma NeighborsGenuine(s: State, c: Cluster, ns: string, cur: Queued)
    requires Consistent(c)
    ensures AllGenuine(c, cur.info, cur.obj, Neighbors(s, c, ns, cur).neighbors)
  {
    var nbs := Neighbors(s, c, ns, cur).neighbors;
    OwnersHold(c, cur.obj.owners);
    ChildrenHold(s, c, ns, cur, OwnerChildren(cur.info.group, cur.info.kind));
    forall i | 0 <= i < |nbs| ensures Genuine(c, cur.info, cur.obj, nbs[i]) {
      forall p | Offers(nbs[i], p) ensures Points(c, cur.info, cur.obj, p) {
        assert AnyOffers(nbs, p);
        NeighborsOffer(s, c, ns, cur, p);
      }
      assert nbs[i] in nbs;
      assert HoldsRead(c, nbs[i]);
    }
  }

  // ----- Folded objects are all counted -----

  /** Only a Service collapses its backends, into one stand-in; controllers have no
      index relations that collapse. */
  ghost predicate ServiceClubs(c: Cluster) {
    forall info, obj, i, j :: 0 <= i < |c.refs(info, obj).neighbors| && c.refs(info, obj).neighbors[i].Club? ==>
      && OwnerChildren(info.group, info.kind) == []
      && (0 <= j < |c.refs(info, obj).neighbors| && c.refs(info, obj).neighbors[j].Club? ==> i == j)
  }

  ghost predicate OneClub(nbs: seq<Neighbor>) {
    forall i, j :: 0 <= i < j < |nbs| ==> !(nbs[i].Club? && nbs[j].Club?)
  }

  ghost predicate NoClub(nbs: seq<Neighbor>) {
    forall i :: 0 <= i < |nbs| ==> nbs[i].Single?
  }

  ghost predicate NoStandIn(nodes: Nodes, parent: Id) {
    forall id :: id in nodes && id.AggregateId? ==> id.parent != parent
  }

  ghost predicate Counted(clubbed: map<(string, string), Id>, nb: Neighbor) {
    nb.Club? ==> forall i :: 0 <= i < |nb.items| ==> (nb.info.kind, nb.items[i].name) in clubbed
  }

  ghost predicate AllCounted(clubbed: map<(string, string), Id>, nbs: seq<Neighbor>) {
    forall k | 0 <= k < |nbs| :: Counted(clubbed, nbs[k])
  }

  lemma CountVisit(s: State, c: Cluster, ns: string, cur: Queued, nb: Neighbor)
    requires Shallow(s.nodes, cur.depth) && (nb.Club? ==> NoStandIn(s.nodes, cur.id))
    ensures var s' := Visit(s, c, ns, cur, nb);
            && (NoGap(s'.notes) ==> Counted(s'.clubbed, nb))
            && s.clubbed.Keys <= s'.clubbed.Keys
            && (nb.Single? && NoStandIn(s.nodes, cur.id) ==> NoStandIn(s'.nodes, cur.id))
  {
    if nb.Club? {
      ClubCases(s, c, ns, cur, nb);
      FoldKeys(s.clubbed, nb.info.kind, nb.items, AggregateId(cur.id, nb.info.kind));
    } else {
      SingleCases(s, c, ns, cur, nb);
    }
  }

  ghost predicate CountedThrough(s: State, cur: Id, nbs: seq<Neighbor>) {
    (NoGap(s.notes) ==> AllCounted(s.clubbed, nbs)) && (NoClub(nbs) ==> NoStandIn(s.nodes, cur))
  }

  lemma CountMore(s1: State, s2: State, cur: Id, nbs: seq<Neighbor>)
    requires nbs != [] && CountedThrough(s1, cur, nbs[..|nbs| - 1]) && s1.notes <= s2.notes
    requires NoGap(s2.notes) ==> Counted(s2.clubbed, nbs[|nbs| - 1])
    requires s1.clubbed.Keys <= s2.clubbed.Keys
    requires nbs[|nbs| - 1].Single? && NoStandIn(s1.nodes, cur) ==> NoStandIn(s2.nodes, cur)
    ensures CountedThrough(s2, cur, nbs)
  {
    var front := nbs[..|nbs| - 1];
    if NoGap(s2.notes) {
      forall k | 0 <= k < |nbs| ensures Counted(s2.clubbed, nbs[k]) {
        if k < |front| { assert Counted(s1.clubbed, front[k]); }
      }
    }
    if NoClub(nbs) {
      forall i | 0 <= i < |front| ensures front[i].Single? { assert front[i] == nbs[i]; }
    }
  }

  lemma FrontHasNoClub(nbs: seq<Neighbor>)
    requires nbs != [] && OneClub(nbs)
    ensures OneClub(nbs[..|nbs| - 1]) && (nbs[|nbs| - 1].Club? ==> NoClub(nbs[..|nbs| - 1]))
  {
  }

  lemma {:induction false} CountVisitAll(s: State, c: Cluster, ns: string, rootId: Id, cur: Queued, nbs: seq<Neighbor>)
    requires During(s, rootId, cur) && NoStandIn(s.nodes, cur.id) && OneClub(nbs)
    ensures CountedThrough(VisitAll(s, c, ns, cur, nbs), cur.id, nbs)
  {
    if nbs != [] {
      var front, last := nbs[..|nbs| - 1], nbs[|nbs| - 1];
      var s1 := VisitAll(s, c, ns, cur, front);
      FrontHasNoClub(nbs);
      CountVisitAll(s, c, ns, rootId, cur, front);
      VisitAllKeeps(s, rootId, c, ns, cur, front);
      VisitKeeps(s1, rootId, c, ns, cur, last);
      CountVisit(s1, c, ns, cur, last);
      CountMore(s1, VisitAll(s, c, ns, cur, nbs), cur.id, nbs);
    }
  }

  lemma KindHasOneClub(s: State, c: Cluster, ns: string, cur: Queued, kind: string)
    ensures OneClub(ChildrenOfKind(s, c, ns, cur, kind).neighbors)
  {
  }

  lemma NeighborsHaveOneClub(s: State, c: Cluster, ns: string, cur: Queued)
    requires ServiceClubs(c)
    ensures OneClub(Neighbors(s, c, ns, cur).neighbors)
  {
    var kinds := OwnerChildren(cur.info.group, cur.info.kind);
    var refs := c.refs(cur.info, cur.obj).neighbors;
    OwnersHold(c, cur.obj.owners);
    var owners := Owners(c, cur.obj.owners);
    forall i | 0 <= i < |owners| ensures owners[i].Single? { assert owners[i] in owners; }
    if kinds != [] {
      assert kinds[..0] == [] && |kinds| == 1;
      KindHasOneClub(s, c, ns, cur, kinds[0]);
      assert Children(s, c, ns, cur, kinds).neighbors == ChildrenOfKind(s, c, ns, cur, kinds[0]).neighbors;
      forall i | 0 <= i < |refs| ensures refs[i].Single? {}
    }
  }

  // ----- What an expanded object points at is shown -----

  /** `p` is shown next to `id`: some neighbour offering it is represented, and when it
      is a club, every one of its members is on record as folded. */
  ghost predicate Shown(c: Cluster, s: State, ns: string, id: Id, p: Place) {
    exists nb :: Offers(nb, p) && Represented(s, ns, id, nb) && (ServiceClubs(c) ==> Counted(s.clubbed, nb))
  }

  ghost predicate ShowsAll(c: Cluster, s: State, ns: string, q: Queued) {
    forall p :: Points(c, q.info, q.obj, p) ==> Shown(c, s, ns, q.id, p)
  }

  lemma ShownStays(c: Cluster, s: State, s': State, ns: string, q: Queued)
    requires ShowsAll(c, s, ns, q) && Grows(s, s')
    ensures ShowsAll(c, s', ns, q)
  {
    forall p | Points(c, q.info, q.obj, p) ensures Shown(c, s', ns, q.id, p) {
      var nb :| Offers(nb, p) && Represented(s, ns, q.id, nb) && (ServiceClubs(c) ==> Counted(s.clubbed, nb));
      RepresentedStays(s, s', ns, q.id, nb);
    }
  }

  lemma ExpandShows(s: State, rootId: Id, c: Cluster, ns: string, cur: Queued)
    requires During(s, rootId, cur) && NoStandIn(s.nodes, cur.id) && NoGap(Expand(s, c, ns, cur).notes)
    ensures ShowsAll(c, Expand(s, c, ns, cur), ns, cur)
  {
    var d := Neighbors(s, c, ns, cur);
    var s0 := AddNotes(s, d.notes);
    var s' := Expand(s, c, ns, cur);
    ExpandKeeps(s, rootId, c, ns, cur);
    NotesKeep(s, rootId, cur, d.notes);
    if ServiceClubs(c) {
      NeighborsHaveOneClub(s, c, ns, cur);
      CountVisitAll(s0, c, ns, rootId, cur, d.neighbors);
    }
    RepresentedShows(s, s', c, ns, cur);
  }

  lemma RepresentedShows(s: State, s': State, c: Cluster, ns: string, cur: Queued)
    requires AllRepresented(s', ns, cur.id, Neighbors(s, c, ns, cur).neighbors)
    requires ServiceClubs(c) ==> AllCounted(s'.clubbed, Neighbors(s, c, ns, cur).neighbors)
    ensures ShowsAll(c, s', ns, cur)
  {
    var nbs := Neighbors(s, c, ns, cur).neighbors;
    forall p | Points(c, cur.info, cur.obj, p) ensures Shown(c, s', ns, cur.id, p) {
      NeighborsOffer(s, c, ns, cur, p);
      var i :| 0 <= i < |nbs| && Offers(nbs[i], p);
      assert Represented(s', ns, cur.id, nbs[i]);
    }
  }

  // ----- Aggregates hang off objects already taken -----

  ghost predicate ParentsTaken(nodes: Nodes, popped: seq<Queued>) {
    forall id :: id in nodes && id.AggregateId? ==> id.parent in Ids(popped)
  }

  lemma ParentsVisit(s: State, c: Cluster, ns: string, cur: Queued, nb: Neighbor)
    requires Shallow(s.nodes, cur.depth) && ParentsTaken(s.nodes, s.popped) && cur.id in Ids(s.popped)
    ensures var s' := Visit(s, c, ns, cur, nb); ParentsTaken(s'.nodes, s'.popped) && s'.popped == s.popped
  {
    if nb.Club? { ClubCases(s, c, ns, cur, nb); } else { SingleCases(s, c, ns, cur, nb); }
  }

  lemma {:induction false} ParentsVisitAll(s: State, c: Cluster, ns: string, rootId: Id, cur: Queued, nbs: seq<Neighbor>)
    requires During(s, rootId, cur) && ParentsTaken(s.nodes, s.popped) && cur.id in Ids(s.popped)
    ensures var s' := VisitAll(s, c, ns, cur, nbs); ParentsTaken(s'.nodes, s'.popped) && s'.popped == s.popped
  {
    if nbs != [] {
      var front := nbs[..|nbs| - 1];
      ParentsVisitAll(s, c, ns, rootId, cur, front);
      VisitAllKeeps(s, rootId, c, ns, cur, front);
      ParentsVisit(VisitAll(s, c, ns, cur, front), c, ns, cur, nbs[|nbs| - 1]);
    }
  }

  // ----- The whole walk -----

  ghost predicate Closed(s: State, c: Cluster, ns: string, limit: nat) {
    NoGap(s.notes) ==> forall i | 0 <= i < |s.popped| :: s.popped[i].depth < limit ==> ShowsAll(c, s, ns, s.popped[i])
  }

  lemma PopHonest(s: State, c: Cluster, ns: string, root: Place)
    requires Honest(s, c, ns, root) && s.queue != []
    ensures Honest(Pop(s), c, ns, root) && Carries(c, s.nodes, s.queue[0])
  {
    var q, rest := s.queue[0], s.queue[1..];
    assert s.queue == [q] + rest;
    assert Ids(s.queue) == {q.id} + Ids(rest);
    assert Ids(s.popped + [q]) == Ids(s.popped) + {q.id};
    forall i | 0 <= i < |rest| ensures Carries(c, s.nodes, rest[i]) { assert rest[i] == s.queue[i + 1]; }
  }

  lemma HonestTurn(s: State, c: Cluster, ns: string, root: Place, rootId: Id, limit: nat)
    requires Idle(s, rootId, limit) && Honest(s, c, ns, root) && s.queue != [] && Consistent(c)
    ensures Honest(Turn(s, c, ns, limit), c, ns, root)
  {
    PopHonest(s, c, ns, root);
    PopKeeps(s, rootId, limit);
    var cur, p := s.queue[0], Pop(s);
    if cur.depth < limit {
      var d := Neighbors(p, c, ns, cur);
      NotesKeep(p, rootId, cur, d.notes);
      NeighborsGenuine(p, c, ns, cur);
      HonestVisitAll(AddNotes(p, d.notes), c, ns, root, rootId, cur, d.neighbors);
    }
  }

  lemma FreshStandIns(s: State, rootId: Id, limit: nat)
    requires Idle(s, rootId, limit) && ParentsTaken(s.nodes, s.popped) && s.queue != []
    ensures NoStandIn(s.nodes, s.queue[0].id) && s.queue[0].id in Ids(Pop(s).popped)
    ensures ParentsTaken(s.nodes, Pop(s).popped)
  {
    FrontIsFresh(s.nodes, s.popped, s.queue);
  }

  lemma FrontIsFresh(nodes: Nodes, popped: seq<Queued>, queue: seq<Queued>)
    requires Ids(queue) !! Ids(popped) && ParentsTaken(nodes, popped) && queue != []
    ensures NoStandIn(nodes, queue[0].id) && queue[0].id in Ids(popped + [queue[0]])
    ensures ParentsTaken(nodes, popped + [queue[0]])
  {
    var q := queue[0];
    assert q in queue && q.id in Ids(queue);
    assert Ids(popped + [q]) == Ids(popped) + {q.id};
  }

  lemma ParentsExpand(s: State, c: Cluster, ns: string, rootId: Id, cur: Queued)
    requires During(s, rootId, cur) && ParentsTaken(s.nodes, s.popped) && cur.id in Ids(s.popped)
    ensures var s' := Expand(s, c, ns, cur); ParentsTaken(s'.nodes, s'.popped) && s'.popped == s.popped
  {
    var d := Neighbors(s, c, ns, cur);
    NotesKeep(s, rootId, cur, d.notes);
    ParentsVisitAll(AddNotes(s, d.notes), c, ns, rootId, cur, d.neighbors);
  }

  lemma ParentsTurn(s: State, c: Cluster, ns: string, rootId: Id, limit: nat)
    requires Idle(s, rootId, limit) && ParentsTaken(s.nodes, s.popped) && s.queue != []
    ensures var s' := Turn(s, c, ns, limit); ParentsTaken(s'.nodes, s'.popped) && s'.popped == Pop(s).popped
  {
    PopKeeps(s, rootId, limit);
    FreshStandIns(s, rootId, limit);
    if s.queue[0].depth < limit { ParentsExpand(Pop(s), c, ns, rootId, s.queue[0]); }
  }

  lemma ClosedMore(s: State, s': State, c: Cluster, ns: string, limit: nat, cur: Queued)
    requires Closed(s, c, ns, limit) && Grows(s, s') && s.notes <= s'.notes && s'.popped == s.popped + [cur]
    requires NoGap(s'.notes) && cur.depth < limit ==> ShowsAll(c, s', ns, cur)
    ensures Closed(s', c, ns, limit)
  {
    if NoGap(s'.notes) {
      forall i | 0 <= i < |s.popped| && s.popped[i].depth < limit ensures ShowsAll(c, s', ns, s.popped[i]) {
        ShownStays(c, s, s', ns, s.popped[i]);
      }
    }
  }

  lemma ClosedTurn(s: State, c: Cluster, ns: string, rootId: Id, limit: nat)
    requires Idle(s, rootId, limit) && ParentsTaken(s.nodes, s.popped) && s.queue != [] && Closed(s, c, ns, limit)
    ensures Closed(Turn(s, c, ns, limit), c, ns, limit)
  {
    var cur, s' := s.queue[0], Turn(s, c, ns, limit);
    PopKeeps(s, rootId, limit);
    TurnKeeps(s, rootId, c, ns, limit);
    ParentsTurn(s, c, ns, rootId, limit);
    if NoGap(s'.notes) && cur.depth < limit {
      FreshStandIns(s, rootId, limit);
      ExpandShows(Pop(s), rootId, c, ns, cur);
    }
    ClosedMore(s, s', c, ns, limit, cur);
  }

  ghost predicate Complete(s: State, c: Cluster, ns: string, root: Place, rootId: Id, limit: nat) {
    && Idle(s, rootId, limit) && ParentsTaken(s.nodes, s.popped) && Closed(s, c, ns, limit)
    && (Consistent(c) ==> Honest(s, c, ns, root))
  }

  lemma {:induction false} WalkCompletes(s: State, c: Cluster, ns: string, root: Place, rootId: Id, limit: nat)
    requires Complete(s, c, ns, root, rootId, limit)
    ensures Complete(Walk(s, c, ns, limit), c, ns, root, rootId, limit) && Walk(s, c, ns, limit).queue == []
    decreases MAX_NODES - |s.nodes| + |s.queue|
  {
    if s.queue != [] {
      TurnKeeps(s, rootId, c, ns, limit);
      ParentsTurn(s, c, ns, rootId, limit);
      ClosedTurn(s, c, ns, rootId, limit);
      if Consistent(c) { HonestTurn(s, c, ns, root, rootId, limit); }
      WalkCompletes(Turn(s, c, ns, limit), c, ns, root, rootId, limit);
    }
  }

  lemma SeedCompletes(c: Cluster, ns: string, info: Info, name: string, requested: int)
    requires c.fetch(info, name).Found?
    ensures Complete(Seed(requested, ns, info, name, c.fetch(info, name).obj), c, ns, Place(info, name),
                     PlaceId(ns, info, name), EffectiveDepth(requested))
  {
    var obj := c.fetch(info, name).obj;
    var s := Seed(requested, ns, info, name, obj);
    var rootId := PlaceId(ns, info, name);
    SeedIsIdle(requested, ns, info, name, obj, EffectiveDepth(requested));
    assert s.nodes.Keys == {rootId};
    assert s.queue == [Queued(rootId, obj, info, 0)] && s.queue[0] in s.queue;
    assert Reach(c, Place(info, name), 0, Place(info, name));
  }

  lemma BuiltCompletes(c: Cluster, ns: string, info: Info, name: string, requested: int)
    requires Built(c, ns, info, name, requested).Some?
    ensures var s := Built(c, ns, info, name, requested).value;
            && Complete(s, c, ns, Place(info, name), PlaceId(ns, info, name), EffectiveDepth(requested))
            && s.queue == [] && PlaceId(ns, info, name) in s.nodes
  {
    var seed := Seed(requested, ns, info, name, c.fetch(info, name).obj);
    SeedCompletes(c, ns, info, name, requested);
    WalkCompletes(seed, c, ns, Place(info, name), PlaceId(ns, info, name), EffectiveDepth(requested));
    BuiltIsWellFormed(c, ns, info, name, requested);
  }

  /** Whatever was dropped, clubbed or unreadable, nothing is drawn that is not there: every
      object on the graph lies at the end of a walk from the focus of exactly its depth,
      and it is marked missing exactly when a read finds nothing. */
  lemma NothingIsInvented(c: Cluster, ns: string, info: Info, name: string, requested: int, id: Id)
    requires Built(c, ns, info, name, requested).Some? && Consistent(c)
    requires id in Built(c, ns, info, name, requested).value.nodes && id.ObjectId?
    ensures var n := Built(c, ns, info, name, requested).value.nodes[id];
            && Reach(c, Place(info, name), n.depth, Place(n.info, n.name)) && id == PlaceId(ns, n.info, n.name)
            && (n.missing <==> c.fetch(n.info, n.name).Absent?)
  {
    BuiltCompletes(c, ns, info, name, requested);
    assert NodeHonest(c, ns, Place(info, name), id, Built(c, ns, info, name, requested).value.nodes[id]);
  }

  // ----- Theorem: nothing is dropped without a note -----

  ghost predicate Joined(edges: Edges, a: Id, b: Id) {
    a == b || (a, b) in edges || (b, a) in edges
  }

  /** `p` has its own node joined to `id`, or is folded into an aggregate and `id` is
      joined to one. */
  ghost predicate Accounted(s: State, ns: string, id: Id, p: Place) {
    || (PlaceId(ns, p.info, p.name) in s.nodes && Joined(s.edges, id, PlaceId(ns, p.info, p.name)))
    || ((p.info.kind, p.name) in s.clubbed &&
        exists a: Id :: a in s.nodes && s.nodes[a].aggregate && Joined(s.edges, id, a))
  }

  lemma ShownIsAccounted(c: Cluster, s: State, ns: string, id: Id, p: Place)
    requires Shown(c, s, ns, id, p) && ServiceClubs(c) && Filed(s.nodes)
    ensures Accounted(s, ns, id, p)
  {
    var nb :| Offers(nb, p) && Represented(s, ns, id, nb) && Counted(s.clubbed, nb);
    if nb.Club? {
      var i :| 0 <= i < |nb.items| && nb.items[i].name == p.name;
      var a := AggregateId(id, nb.info.kind);
      assert FiledAt(a, s.nodes[a]) && Joined(s.edges, id, a);
    } else if !(Within(s.nodes, id, PlaceId(ns, p.info, p.name)) && Drawn(s, id, PlaceId(ns, p.info, p.name), nb)) {
      var a: Id :| a.AggregateId? && a in s.nodes && Drawn(s, id, a, nb);
      assert FiledAt(a, s.nodes[a]) && Joined(s.edges, id, a);
    }
  }

  /** A drawn object that exists was taken from the queue and, short of the limit,
      shows all it points at. */
  lemma TakenShows(s: State, c: Cluster, ns: string, root: Place, rootId: Id, limit: nat, id: Id)
    requires Complete(s, c, ns, root, rootId, limit) && Consistent(c) && s.queue == [] && NoGap(s.notes)
    requires id in s.nodes && id.ObjectId? && !s.nodes[id].missing && s.nodes[id].depth < limit
    ensures c.fetch(s.nodes[id].info, s.nodes[id].name).Found?
    ensures ShowsAll(c, s, ns, Queued(id, c.fetch(s.nodes[id].info, s.nodes[id].name).obj, s.nodes[id].info, s.nodes[id].depth))
  {
    assert NodeHonest(c, ns, root, id, s.nodes[id]);
    assert Ids(s.queue) == {};
    var q :| q in s.popped && q.id == id;
    var i :| 0 <= i < |s.popped| && s.popped[i] == q;
    assert Awaits(s.nodes, s.popped[i]) && Carries(c, s.nodes, s.popped[i]);
  }

  /** Unless the node cap or a failed read is noted, every existing object drawn short of the depth
      limit has all it points at on the graph, as a node or inside an aggregate. */
  lemma NothingDroppedSilently(c: Cluster, ns: string, info: Info, name: string, requested: int, id: Id, p: Place)
    requires Built(c, ns, info, name, requested).Some? && Consistent(c) && ServiceClubs(c)
    requires var s := Built(c, ns, info, name, requested).value;
             && NoGap(s.notes) && id in s.nodes && !s.nodes[id].aggregate && !s.nodes[id].missing
             && s.nodes[id].depth < EffectiveDepth(requested)
    ensures var s := Built(c, ns, info, name, requested).value;
            var read := c.fetch(s.nodes[id].info, s.nodes[id].name);
            read.Found? && (Points(c, s.nodes[id].info, read.obj, p) ==> Accounted(s, ns, id, p))
  {
    var s := Built(c, ns, info, name, requested).value;
    BuiltCompletes(c, ns, info, name, requested);
    assert FiledAt(id, s.nodes[id]);
    TakenShows(s, c, ns, Place(info, name), PlaceId(ns, info, name), EffectiveDepth(requested), id);
    if Points(c, s.nodes[id].info, c.fetch(s.nodes[id].info, s.nodes[id].name).obj, p) {
      ShownIsAccounted(c, s, ns, id, p);
    }
  }

  // ----- Theorem: the graph is the ball of the effective depth, at exact distances -----

  /** No two reachable places share a node identity: one served version per kind. */
  ghost predicate OneVersion(c: Cluster, ns: string, root: Place) {
    forall p, q ::
      Reached(c, root, p) && Reached(c, root, q) && PlaceId(ns, p.info, p.name) == PlaceId(ns, q.info, q.name) ==> p == q
  }

  /** `p` is drawn, under its own type and name, no further than `n` hops out. */
  ghost predicate DrawnWithin(s: State, ns: string, p: Place, n: nat) {
    var id := PlaceId(ns, p.info, p.name);
    id in s.nodes && s.nodes[id].info == p.info && s.nodes[id].name == p.name && s.nodes[id].depth <= n
  }

  ghost predicate NoAggregates(nodes: Nodes) {
    forall id :: id in nodes ==> !nodes[id].aggregate
  }

  lemma ShownIsDrawn(c: Cluster, s: State, ns: string, id: Id, p: Place)
    requires Shown(c, s, ns, id, p) && NoAggregates(s.nodes) && Filed(s.nodes) && ClubbedSound(s.nodes, s.clubbed)
    ensures Within(s.nodes, id, PlaceId(ns, p.info, p.name))
  {
    forall a | a in s.nodes ensures a.ObjectId? { assert FiledAt(a, s.nodes[a]); }
    forall k: (string, string) ensures k !in s.clubbed {}
    assert s.clubbed.Keys == {};
  }

  lemma HopLands(s: State, c: Cluster, ns: string, root: Place, rootId: Id, limit: nat, n: nat, q: Place, p: Place)
    requires Complete(s, c, ns, root, rootId, limit) && Consistent(c) && s.queue == [] && NoGap(s.notes)
    requires NoAggregates(s.nodes) && n < limit && DrawnWithin(s, ns, q, n) && Hop(c, q, p)
    ensures var to := PlaceId(ns, p.info, p.name);
            to in s.nodes && s.nodes[to].depth <= n + 1 && NodeHonest(c, ns, root, to, s.nodes[to])
  {
    var id, to := PlaceId(ns, q.info, q.name), PlaceId(ns, p.info, p.name);
    assert NodeHonest(c, ns, root, id, s.nodes[id]);
    TakenShows(s, c, ns, root, rootId, limit, id);
    ShownIsDrawn(c, s, ns, id, p);
  }

  lemma SameIdSamePlace(c: Cluster, ns: string, root: Place, n: nat, p: Place, m: nat, q: Place)
    requires OneVersion(c, ns, root) && Reach(c, root, n, p) && Reach(c, root, m, q)
    requires PlaceId(ns, p.info, p.name) == PlaceId(ns, q.info, q.name)
    ensures p == q
  {
    assert Reached(c, root, p) && Reached(c, root, q);
  }

  /** One more hop from a drawn place leads to a drawn place. */
  ghost predicate HopsDrawn(s: State, c: Cluster, ns: string, root: Place, limit: nat) {
    forall n: nat, q, p :: n < limit && DrawnWithin(s, ns, q, n) && Reach(c, root, n, q) && Hop(c, q, p) ==>
      DrawnWithin(s, ns, p, n + 1)
  }

  lemma {:induction false} ReachIsDrawn(s: State, c: Cluster, ns: string, root: Place, limit: nat, n: nat, p: Place)
    requires HopsDrawn(s, c, ns, root, limit) && DrawnWithin(s, ns, root, 0)
    requires n <= limit && Reach(c, root, n, p)
    ensures DrawnWithin(s, ns, p, n)
  {
    if n > 0 {
      var q :| Reach(c, root, n - 1, q) && Hop(c, q, p);
      ReachIsDrawn(s, c, ns, root, limit, n - 1, q);
    }
  }

  lemma AllHopsDrawn(s: State, c: Cluster, ns: string, root: Place, limit: nat)
    requires Complete(s, c, ns, root, PlaceId(ns, root.info, root.name), limit) && Consistent(c)
    requires s.queue == [] && NoGap(s.notes) && NoAggregates(s.nodes) && OneVersion(c, ns, root)
    ensures HopsDrawn(s, c, ns, root, limit)
  {
    forall n: nat, q, p | n < limit && DrawnWithin(s, ns, q, n) && Reach(c, root, n, q) && Hop(c, q, p)
      ensures DrawnWithin(s, ns, p, n + 1)
    {
      HopLands(s, c, ns, root, PlaceId(ns, root.info, root.name), limit, n, q, p);
      var to := s.nodes[PlaceId(ns, p.info, p.name)];
      assert Reach(c, root, n + 1, p);
      SameIdSamePlace(c, ns, root, n + 1, p, to.depth, Place(to.info, to.name));
    }
  }

  lemma FocusDrawn(c: Cluster, ns: string, info: Info, name: string, requested: int)
    requires Built(c, ns, info, name, requested).Some?
    ensures DrawnWithin(Built(c, ns, info, name, requested).value, ns, Place(info, name), 0)
  {
    var limit, root := EffectiveDepth(requested), PlaceId(ns, info, name);
    var seed := Seed(requested, ns, info, name, c.fetch(info, name).obj);
    SeedIsIdle(requested, ns, info, name, c.fetch(info, name).obj, limit);
    WalkKeepsFocus(seed, root, c, ns, limit);
  }

  lemma ExactAt(s: State, c: Cluster, ns: string, root: Place, limit: nat, p: Place)
    requires HopsDrawn(s, c, ns, root, limit) && DrawnWithin(s, ns, root, 0) && NodesHonest(c, ns, root, s.nodes)
    ensures var id := PlaceId(ns, p.info, p.name);
            && (DrawnWithin(s, ns, p, limit) <==> exists n: nat :: n <= limit && Reach(c, root, n, p))
            && (DrawnWithin(s, ns, p, limit) ==>
                Reach(c, root, s.nodes[id].depth, p) && forall n: nat :: Reach(c, root, n, p) ==> s.nodes[id].depth <= n)
  {
    var id := PlaceId(ns, p.info, p.name);
    if DrawnWithin(s, ns, p, limit) {
      assert NodeHonest(c, ns, root, id, s.nodes[id]);
      assert Reach(c, root, s.nodes[id].depth, p);
    }
    forall n: nat | n <= limit && Reach(c, root, n, p) ensures DrawnWithin(s, ns, p, n) {
      ReachIsDrawn(s, c, ns, root, limit, n, p);
    }
  }

  /** Without such a gap and with no aggregate the graph is exact: a place is drawn if and only if
      it lies within the effective depth, and its depth is its shortest hop count. */
  lemma WalkIsExact(c: Cluster, ns: string, info: Info, name: string, requested: int, p: Place)
    requires Built(c, ns, info, name, requested).Some? && Consistent(c) && OneVersion(c, ns, Place(info, name))
    requires var s := Built(c, ns, info, name, requested).value; NoGap(s.notes) && NoAggregates(s.nodes)
    ensures var s := Built(c, ns, info, name, requested).value;
            var root, limit := Place(info, name), EffectiveDepth(requested);
            var id := PlaceId(ns, p.info, p.name);
            && (DrawnWithin(s, ns, p, limit) <==> exists n: nat :: n <= limit && Reach(c, root, n, p))
            && (DrawnWithin(s, ns, p, limit) ==>
                Reach(c, root, s.nodes[id].depth, p) && forall n: nat :: Reach(c, root, n, p) ==> s.nodes[id].depth <= n)
  {
    var s := Built(c, ns, info, name, requested).value;
    BuiltCompletes(c, ns, info, name, requested);
    FocusDrawn(c, ns, info, name, requested);
    AllHopsDrawn(s, c, ns, Place(info, name), EffectiveDepth(requested));
    ExactAt(s, c, ns, Place(info, name), EffectiveDepth(requested), p);
  }
}
