/** Clubbing conserves objects: nothing is both drawn and counted, nothing is counted
    twice, and a parent's drawn children and its aggregate's count add up. */
module GraphClubs {
  import opened Optional
  import opened GraphModel
  import opened GraphWalk
  import opened GraphReach
  import opened GraphComplete

  type Clubbed = map<(string, string), Id>

  function Key(n: Node): (string, string) {
    (n.info.kind, n.name)
  }

  /** No object is both drawn and folded. */
  ghost predicate NotBoth(nodes: Nodes, clubbed: Clubbed) {
    forall id :: id in nodes && id.ObjectId? ==> Key(nodes[id]) !in clubbed
  }

  function Members(clubbed: Clubbed, a: Id): set<(string, string)> {
    set k | k in clubbed && clubbed[k] == a
  }

  /** An aggregate's count is the number of objects folded into it. */
  ghost predicate CountsExact(nodes: Nodes, clubbed: Clubbed) {
    forall id :: id in nodes && id.AggregateId? ==> nodes[id].count == |Members(clubbed, id)|
  }

  ghost predicate NamesDiffer(items: seq<Obj>) {
    forall i, j :: 0 <= i < j < |items| ==> items[i].name != items[j].name
  }

  function Keys(kind: string, items: seq<Obj>): set<(string, string)> {
    set i | 0 <= i < |items| :: (kind, items[i].name)
  }

  ghost predicate Undrawn(nodes: Nodes, keys: set<(string, string)>) {
    forall id :: id in nodes && id.ObjectId? ==> Key(nodes[id]) !in keys
  }

  /** A club whose members are neither drawn, nor folded already, nor repeated. */
  ghost predicate Ready(nodes: Nodes, clubbed: Clubbed, nb: Neighbor) {
    nb.Club? ==>
      NamesDiffer(nb.items) && clubbed.Keys !! Keys(nb.info.kind, nb.items) && Undrawn(nodes, Keys(nb.info.kind, nb.items))
  }

  lemma KeysSnoc(kind: string, items: seq<Obj>)
    requires items != []
    ensures Keys(kind, items) == Keys(kind, items[..|items| - 1]) + {(kind, items[|items| - 1].name)}
  {
    var front := items[..|items| - 1];
    forall k | k in Keys(kind, items) ensures k in Keys(kind, front) + {(kind, items[|items| - 1].name)} {
      var i :| 0 <= i < |items| && k == (kind, items[i].name);
      if i < |front| { assert front[i] == items[i]; }
    }
    forall k | k in Keys(kind, front) ensures k in Keys(kind, items) {
      var i :| 0 <= i < |front| && k == (kind, front[i].name);
      assert items[i] == front[i];
    }
  }

  lemma {:induction false} KeysCount(kind: string, items: seq<Obj>)
    requires NamesDiffer(items)
    ensures |Keys(kind, items)| == |items|
  {
    if items == [] {
      assert Keys(kind, items) == {};
    } else {
      KeysSnoc(kind, items);
      KeysCount(kind, items[..|items| - 1]);
    }
  }

  /** Folding maps exactly the items' keys to the aggregate and keeps every other entry. */
  lemma {:induction false} FoldIs(clubbed: Clubbed, kind: string, items: seq<Obj>, id: Id)
    ensures var f := Fold(clubbed, kind, items, id);
            && f.Keys == clubbed.Keys + Keys(kind, items)
            && forall k :: k in f ==> f[k] == if k in Keys(kind, items) then id else clubbed[k]
  {
    if items != [] {
      KeysSnoc(kind, items);
      FoldIs(clubbed, kind, items[..|items| - 1], id);
    }
  }

  ghost predicate KeepsFolded(clubbed: Clubbed, clubbed': Clubbed) {
    forall k :: k in clubbed ==> k in clubbed' && clubbed'[k] == clubbed[k]
  }

  lemma FoldMembers(clubbed: Clubbed, kind: string, items: seq<Obj>, id: Id)
    requires NamesDiffer(items) && clubbed.Keys !! Keys(kind, items)
    requires forall k :: k in clubbed ==> clubbed[k] != id
    ensures var f := Fold(clubbed, kind, items, id);
            && Members(f, id) == Keys(kind, items) && |Members(f, id)| == |items|
            && (forall a :: a != id ==> Members(f, a) == Members(clubbed, a))
            && KeepsFolded(clubbed, f)
  {
    FoldIs(clubbed, kind, items, id);
    KeysCount(kind, items);
  }

  ghost predicate Tallied(nodes: Nodes, clubbed: Clubbed) {
    NotBoth(nodes, clubbed) && CountsExact(nodes, clubbed) && ClubbedSound(nodes, clubbed)
  }

  lemma NotBothClub(nodes: Nodes, clubbed: Clubbed, f: Clubbed, keys: set<(string, string)>, id: Id, node: Node)
    requires NotBoth(nodes, clubbed) && Undrawn(nodes, keys) && id.AggregateId? && f.Keys == clubbed.Keys + keys
    ensures NotBoth(nodes[id := node], f)
  {
  }

  lemma CountsClub(nodes: Nodes, clubbed: Clubbed, f: Clubbed, id: Id, node: Node)
    requires CountsExact(nodes, clubbed) && id !in nodes && node.count == |Members(f, id)|
    requires forall a :: a != id ==> Members(f, a) == Members(clubbed, a)
    ensures CountsExact(nodes[id := node], f)
  {
  }

  lemma TalliedClub(s: State, s': State, cur: Queued, nb: Neighbor)
    requires Tallied(s.nodes, s.clubbed) && NewClub(s, s', cur, nb) && Ready(s.nodes, s.clubbed, nb)
    ensures Tallied(s'.nodes, s'.clubbed) && KeepsFolded(s.clubbed, s'.clubbed)
    ensures s'.clubbed.Keys == s.clubbed.Keys + Keys(nb.info.kind, nb.items)
    ensures Members(s'.clubbed, AggregateId(cur.id, nb.info.kind)) == Keys(nb.info.kind, nb.items)
  {
    var id := AggregateId(cur.id, nb.info.kind);
    var node, keys := s'.nodes[id], Keys(nb.info.kind, nb.items);
    FoldMembers(s.clubbed, nb.info.kind, nb.items, id);
    FoldSound(s.nodes, s.clubbed, nb.info.kind, nb.items, id, node);
    FoldIs(s.clubbed, nb.info.kind, nb.items, id);
    NotBothClub(s.nodes, s.clubbed, s'.clubbed, keys, id, node);
    CountsClub(s.nodes, s.clubbed, s'.clubbed, id, node);
  }

  // ----- Visits -----

  ghost predicate Landed(s: State, ns: string, clubbed: Clubbed, nb: Neighbor) {
    nb.Single? && nb.held.Some? && NodeCap !in s.notes ==>
      PlaceId(ns, nb.info, nb.name) in s.nodes || (nb.info.kind, nb.name) in clubbed
  }

  lemma SingleVisit(s: State, c: Cluster, ns: string, cur: Queued, nb: Neighbor, keys: set<(string, string)>)
    requires nb.Single? && Shallow(s.nodes, cur.depth) && Tallied(s.nodes, s.clubbed)
    requires Undrawn(s.nodes, keys) && (nb.info.kind, nb.name) !in keys
    ensures var s' := Visit(s, c, ns, cur, nb);
            Tallied(s'.nodes, s'.clubbed) && s'.clubbed == s.clubbed && Undrawn(s'.nodes, keys)
  {
    SingleCases(s, c, ns, cur, nb);
  }

  lemma SingleLands(s: State, c: Cluster, ns: string, cur: Queued, nb: Neighbor)
    requires nb.Single? && |s.nodes| <= MAX_NODES
    ensures Landed(Visit(s, c, ns, cur, nb), ns, s.clubbed, nb)
  {
  }

  lemma ClubLands(s: State, c: Cluster, ns: string, cur: Queued, nb: Neighbor)
    requires nb.Club? && |s.nodes| <= MAX_NODES && AggregateId(cur.id, nb.info.kind) !in s.nodes
    ensures var s' := Visit(s, c, ns, cur, nb);
            NewClub(s, s', cur, nb) || (Stays(s, s') && NodeCap in s'.notes)
  {
  }

  ghost predicate AllApart(nbs: seq<Neighbor>, keys: set<(string, string)>) {
    forall i | 0 <= i < |nbs| :: nbs[i].Single? && (nbs[i].info.kind, nbs[i].name) !in keys
  }

  ghost predicate AllLanded(s: State, ns: string, clubbed: Clubbed, nbs: seq<Neighbor>) {
    forall i | 0 <= i < |nbs| :: Landed(s, ns, clubbed, nbs[i])
  }

  lemma LandedMore(s1: State, s2: State, ns: string, clubbed: Clubbed, nbs: seq<Neighbor>)
    requires nbs != [] && AllLanded(s1, ns, clubbed, nbs[..|nbs| - 1]) && Landed(s2, ns, clubbed, nbs[|nbs| - 1])
    requires Keeps(s1.nodes, s2.nodes) && s1.notes <= s2.notes
    ensures AllLanded(s2, ns, clubbed, nbs)
  {
    forall i | 0 <= i < |nbs| ensures Landed(s2, ns, clubbed, nbs[i]) {
      if i < |nbs| - 1 { assert Landed(s1, ns, clubbed, nbs[..|nbs| - 1][i]); }
    }
  }

  /** Visiting single neighbours folds nothing and draws none of `keys`. */
  lemma {:induction false} SinglesVisit(s: State, c: Cluster, ns: string, rootId: Id, cur: Queued,
                                        nbs: seq<Neighbor>, keys: set<(string, string)>)
    requires During(s, rootId, cur) && Tallied(s.nodes, s.clubbed) && Undrawn(s.nodes, keys) && AllApart(nbs, keys)
    ensures var s' := VisitAll(s, c, ns, cur, nbs);
            && Tallied(s'.nodes, s'.clubbed) && s'.clubbed == s.clubbed && Undrawn(s'.nodes, keys)
            && AllLanded(s', ns, s.clubbed, nbs)
  {
    if nbs != [] {
      var front, last := nbs[..|nbs| - 1], nbs[|nbs| - 1];
      var s1 := VisitAll(s, c, ns, cur, front);
      assert AllApart(front, keys);
      SinglesVisit(s, c, ns, rootId, cur, front, keys);
      VisitAllKeeps(s, rootId, c, ns, cur, front);
      SingleVisit(s1, c, ns, cur, last, keys);
      SingleLands(s1, c, ns, cur, last);
      VisitKeeps(s1, rootId, c, ns, cur, last);
      LandedMore(s1, VisitAll(s, c, ns, cur, nbs), ns, s.clubbed, nbs);
    }
  }

  lemma {:induction false} VisitConcat(s: State, c: Cluster, ns: string, cur: Queued, a: seq<Neighbor>, b: seq<Neighbor>)
    requires |s.nodes| <= MAX_NODES
    ensures VisitAll(s, c, ns, cur, a + b) == VisitAll(VisitAll(s, c, ns, cur, a), c, ns, cur, b)
  {
    if b == [] {
      assert a + b == a;
    } else {
      var front := b[..|b| - 1];
      VisitConcat(s, c, ns, cur, a, front);
      assert (a + b)[..|a + b| - 1] == a + front;
    }
  }

  // ----- What the snapshot must be like -----

  /** A read of this place returns this object. */
  ghost predicate ReadsAs(c: Cluster, p: Place, o: Obj) {
    c.fetch(p.info, p.name) == Found(o)
  }

  /** No Service reachable from the focus collapses its pods. */
  ghost predicate NoServiceClub(c: Cluster, root: Place) {
    forall p, o :: Reached(c, root, p) && ReadsAs(c, p, o) ==> NoClub(c.refs(p.info, o).neighbors)
  }

  ghost predicate UniqueNames(c: Cluster) {
    forall info :: c.list(info).Listed? ==> NamesDiffer(c.list(info).items)
  }

  ghost predicate OneController(c: Cluster) {
    forall info, o, u, v ::
      c.list(info).Listed? && o in c.list(info).items && ControlledBy(o.owners, u) && ControlledBy(o.owners, v) ==> u == v
  }

  /** No reachable object can be read at two reachable places. */
  ghost predicate UniqueUids(c: Cluster, root: Place) {
    forall p, q, o, o' :: Reached(c, root, p) && Reached(c, root, q) && ReadsAs(c, p, o) && ReadsAs(c, q, o') && o.uid == o'.uid ==> p == q
  }

  /** No reachable object is owned by something it controls. */
  ghost predicate Acyclic(c: Cluster, root: Place) {
    forall q, p, o :: Reached(c, root, q) && ReadsAs(c, q, o) && OwnedBy(c, o.owners, p) ==>
      !Controls(c, o.uid, OwnerChildren(q.info.group, q.info.kind), p)
  }

  /** Each kind name reachable from the focus is served by one type. */
  ghost predicate OneGroup(c: Cluster, root: Place) {
    forall p, q :: Reached(c, root, p) && Reached(c, root, q) && p.info.kind == q.info.kind ==> p.info == q.info
  }

  ghost predicate ChildrenNamespaced(c: Cluster) {
    forall kind :: kind in ["ReplicaSet", "Pod", "Job"] && c.byKind(kind).Some? ==> c.byKind(kind).value.namespaced
  }

  ghost predicate Orderly(c: Cluster, root: Place) {
    && Consistent(c) && NoServiceClub(c, root) && UniqueNames(c) && OneController(c) && UniqueUids(c, root)
    && Acyclic(c, root) && OneGroup(c, root) && ChildrenNamespaced(c)
  }

  // ----- Where folded objects come from -----

  /** `k` was folded into `a` as a child of the expanded object `q`. */
  ghost predicate BackedBy(c: Cluster, q: Queued, k: (string, string), a: Id, p: Place) {
    && a == AggregateId(q.id, p.info.kind) && k == (p.info.kind, p.name)
    && Controls(c, q.obj.uid, OwnerChildren(q.info.group, q.info.kind), p)
  }

  ghost predicate Backed(c: Cluster, popped: seq<Queued>, clubbed: Clubbed) {
    forall k :: k in clubbed ==> exists q, p :: q in popped && BackedBy(c, q, k, clubbed[k], p)
  }

  // ----- The club of an expansion is ready -----

  lemma {:induction false} ControlledDiffer(items: seq<Obj>, uid: string)
    requires NamesDiffer(items)
    ensures NamesDiffer(Controlled(items, uid))
  {
    if items != [] {
      var front := items[..|items| - 1];
      ControlledDiffer(front, uid);
      forall o | o in Controlled(front, uid) ensures o.name != items[|items| - 1].name {
        var i :| 0 <= i < |front| && front[i] == o;
        assert items[i] == o;
      }
    }
  }

  lemma {:induction false} PickDiffer(nodes: Nodes, info: Info, ns: string, items: seq<Obj>, drawn: bool)
    requires NamesDiffer(items)
    ensures NamesDiffer(Pick(nodes, info, ns, items, drawn))
  {
    if items != [] {
      var front := items[..|items| - 1];
      PickDiffer(nodes, info, ns, front, drawn);
      forall o | o in Pick(nodes, info, ns, front, drawn) ensures o.name != items[|items| - 1].name {
        var i :| 0 <= i < |front| && front[i] == o;
        assert items[i] == o;
      }
    }
  }

  /** The expansion of `cur`, right after it was taken from the queue. */
  ghost predicate Expanding(s: State, c: Cluster, ns: string, root: Place, rootId: Id, cur: Queued) {
    && During(s, rootId, cur) && Honest(s, c, ns, root) && NoStandIn(s.nodes, cur.id) && cur in s.popped
    && Tallied(s.nodes, s.clubbed) && Backed(c, s.popped, s.clubbed)
    && c.fetch(cur.info, s.nodes[cur.id].name) == Found(cur.obj)
  }

  /** `ci` is the type of one of `cur`'s listable child kinds. */
  ghost predicate ChildType(c: Cluster, cur: Queued, kind: string, ci: Info) {
    kind in OwnerChildren(cur.info.group, cur.info.kind) && c.byKind(kind) == Some(ci) && c.list(ci).Listed?
  }

  lemma ChildControlled(c: Cluster, cur: Queued, kind: string, ci: Info, o: Obj)
    requires ChildType(c, cur, kind, ci) && o in Controlled(c.list(ci).items, cur.obj.uid)
    ensures Lists(c, cur.obj.uid, Place(ci, o.name), o)
    ensures Controls(c, cur.obj.uid, OwnerChildren(cur.info.group, cur.info.kind), Place(ci, o.name))
  {
    var kinds := OwnerChildren(cur.info.group, cur.info.kind);
    var i :| 0 <= i < |kinds| && kinds[i] == kind;
    assert 0 <= i < |kinds| && c.byKind(kinds[i]) == Some(ci) && Lists(c, cur.obj.uid, Place(ci, o.name), o);
  }

  lemma ChildReached(s: State, c: Cluster, ns: string, root: Place, q: Queued, p: Place)
    requires Awaits(s.nodes, q) && NodesHonest(c, ns, root, s.nodes) && Carries(c, s.nodes, q)
    requires Controls(c, q.obj.uid, OwnerChildren(q.info.group, q.info.kind), p)
    ensures Reached(c, root, p)
  {
    var at := Place(q.info, s.nodes[q.id].name);
    assert NodeHonest(c, ns, root, q.id, s.nodes[q.id]);
    assert Hop(c, at, p);
    assert Reach(c, root, q.depth, at);
    assert Reach(c, root, q.depth + 1, p);
  }

  lemma SameNameSame(items: seq<Obj>, o: Obj, o': Obj)
    requires NamesDiffer(items) && o in items && o' in items && o.name == o'.name
    ensures o == o'
  {
  }

  lemma TakenIsReached(s: State, c: Cluster, ns: string, root: Place, q: Queued)
    requires NodesHonest(c, ns, root, s.nodes) && Awaits(s.nodes, q) && Carries(c, s.nodes, q)
    ensures var p := Place(q.info, s.nodes[q.id].name); Reached(c, root, p) && ReadsAs(c, p, q.obj)
  {
    assert NodeHonest(c, ns, root, q.id, s.nodes[q.id]);
    assert Reach(c, root, q.depth, Place(q.info, s.nodes[q.id].name));
  }

  lemma SameUidSame(s: State, c: Cluster, ns: string, root: Place, q: Queued, cur: Queued)
    requires UniqueUids(c, root) && NodesHonest(c, ns, root, s.nodes)
    requires Awaits(s.nodes, q) && Carries(c, s.nodes, q) && Awaits(s.nodes, cur) && Carries(c, s.nodes, cur)
    requires q.obj.uid == cur.obj.uid
    ensures q.id == cur.id
  {
    var p, p' := Place(q.info, s.nodes[q.id].name), Place(cur.info, s.nodes[cur.id].name);
    TakenIsReached(s, c, ns, root, q);
    TakenIsReached(s, c, ns, root, cur);
    assert NodeHonest(c, ns, root, q.id, s.nodes[q.id]) && NodeHonest(c, ns, root, cur.id, s.nodes[cur.id]);
  }

  lemma TakenFacts(s: State, c: Cluster, ns: string, root: Place, rootId: Id, q: Queued)
    requires Good(s, rootId) && Honest(s, c, ns, root) && q in s.popped
    ensures Awaits(s.nodes, q) && Carries(c, s.nodes, q)
  {
    var i :| 0 <= i < |s.popped| && s.popped[i] == q;
    assert Awaits(s.nodes, s.popped[i]) && Carries(c, s.nodes, s.popped[i]);
  }

  lemma SameController(c: Cluster, info: Info, o: Obj, u: string, v: string)
    requires OneController(c) && c.list(info).Listed? && o in c.list(info).items
    requires ControlledBy(o.owners, u) && ControlledBy(o.owners, v)
    ensures u == v
  {
  }

  lemma SameControllerOf(c: Cluster, info: Info, name: string, u: string, v: string, o: Obj, o': Obj)
    requires UniqueNames(c) && OneController(c)
    requires Lists(c, u, Place(info, name), o) && Lists(c, v, Place(info, name), o')
    ensures u == v
  {
    SameNameSame(c.list(info).items, o, o');
    SameController(c, info, o, u, v);
  }

  /** Two expanded objects controlling objects of the same kind and name are the same. */
  lemma SameParent(s: State, c: Cluster, ns: string, root: Place, q: Queued, p: Place, cur: Queued, p': Place)
    requires NodesHonest(c, ns, root, s.nodes) && Orderly(c, root)
    requires Awaits(s.nodes, q) && Carries(c, s.nodes, q) && Awaits(s.nodes, cur) && Carries(c, s.nodes, cur)
    requires Controls(c, q.obj.uid, OwnerChildren(q.info.group, q.info.kind), p)
    requires Controls(c, cur.obj.uid, OwnerChildren(cur.info.group, cur.info.kind), p')
    requires p.info.kind == p'.info.kind && p.name == p'.name
    ensures q.id == cur.id
  {
    ChildReached(s, c, ns, root, q, p);
    ChildReached(s, c, ns, root, cur, p');
    var o :| Lists(c, q.obj.uid, p, o);
    var o' :| Lists(c, cur.obj.uid, p', o');
    SameControllerOf(c, p.info, p.name, q.obj.uid, cur.obj.uid, o, o');
    SameUidSame(s, c, ns, root, q, cur);
  }

  lemma Folder(c: Cluster, popped: seq<Queued>, clubbed: Clubbed, k: (string, string)) returns (q: Queued, p: Place)
    requires Backed(c, popped, clubbed) && k in clubbed
    ensures q in popped && BackedBy(c, q, k, clubbed[k], p)
  {
    q, p :| q in popped && BackedBy(c, q, k, clubbed[k], p);
  }

  lemma FolderIsParent(s: State, c: Cluster, ns: string, root: Place, rootId: Id, cur: Queued, p: Place, q: Queued, p': Place, a: Id)
    requires Good(s, rootId) && Honest(s, c, ns, root) && Orderly(c, root) && q in s.popped && cur in s.popped
    requires BackedBy(c, q, (p.info.kind, p.name), a, p')
    requires Controls(c, cur.obj.uid, OwnerChildren(cur.info.group, cur.info.kind), p)
    ensures a == AggregateId(cur.id, p.info.kind)
  {
    TakenFacts(s, c, ns, root, rootId, q);
    TakenFacts(s, c, ns, root, rootId, cur);
    SameParent(s, c, ns, root, q, p', cur, p);
  }

  /** A folded object sits in the aggregate of the one object that controls it. */
  lemma FoldedUnderParent(s: State, c: Cluster, ns: string, root: Place, rootId: Id, cur: Queued, p: Place)
    requires Good(s, rootId) && Honest(s, c, ns, root) && Orderly(c, root) && cur in s.popped
    requires Backed(c, s.popped, s.clubbed) && (p.info.kind, p.name) in s.clubbed
    requires Controls(c, cur.obj.uid, OwnerChildren(cur.info.group, cur.info.kind), p)
    ensures s.clubbed[(p.info.kind, p.name)] == AggregateId(cur.id, p.info.kind)
  {
    var q, p' := Folder(c, s.popped, s.clubbed, (p.info.kind, p.name));
    FolderIsParent(s, c, ns, root, rootId, cur, p, q, p', s.clubbed[(p.info.kind, p.name)]);
  }

  lemma NotFoldedYet(s: State, c: Cluster, ns: string, root: Place, rootId: Id, cur: Queued, p: Place)
    requires Expanding(s, c, ns, root, rootId, cur) && Orderly(c, root)
    requires Controls(c, cur.obj.uid, OwnerChildren(cur.info.group, cur.info.kind), p)
    ensures (p.info.kind, p.name) !in s.clubbed
  {
    if (p.info.kind, p.name) in s.clubbed {
      FoldedUnderParent(s, c, ns, root, rootId, cur, p);
      assert false;
    }
  }

  /** An undrawn child is drawn under no other type either. */
  lemma NotDrawnYet(s: State, c: Cluster, ns: string, root: Place, cur: Queued, p: Place, id: Id)
    requires NodesHonest(c, ns, root, s.nodes) && Awaits(s.nodes, cur) && Carries(c, s.nodes, cur) && OneGroup(c, root)
    requires Controls(c, cur.obj.uid, OwnerChildren(cur.info.group, cur.info.kind), p)
    requires p.info.namespaced && NodeId(p.info, ns, p.name) !in s.nodes
    requires id in s.nodes && id.ObjectId?
    ensures Key(s.nodes[id]) != (p.info.kind, p.name)
  {
    var n := s.nodes[id];
    ChildReached(s, c, ns, root, cur, p);
    assert NodeHonest(c, ns, root, id, n);
    assert Reached(c, root, Place(n.info, n.name));
  }

  // ----- One expansion -----

  /** From `s` to `s'` only objects in `keys` were folded, all into `a`. */
  ghost predicate FoldsOnly(s: State, s': State, keys: set<(string, string)>, a: Id) {
    && Tallied(s'.nodes, s'.clubbed) && KeepsFolded(s.clubbed, s'.clubbed)
    && forall k :: k in s'.clubbed && k !in s.clubbed ==> k in keys && s'.clubbed[k] == a
  }

  lemma OwnerIsNotChild(s: State, c: Cluster, ns: string, root: Place, cur: Queued, nb: Neighbor, p: Place)
    requires NodesHonest(c, ns, root, s.nodes) && Awaits(s.nodes, cur) && Carries(c, s.nodes, cur)
    requires OneGroup(c, root) && Acyclic(c, root)
    requires nb in Owners(c, cur.obj.owners) && nb.Single?
    requires Controls(c, cur.obj.uid, OwnerChildren(cur.info.group, cur.info.kind), p)
    ensures (nb.info.kind, nb.name) != (p.info.kind, p.name)
  {
    var owner, at := Place(nb.info, nb.name), Place(cur.info, s.nodes[cur.id].name);
    var i :| 0 <= i < |Owners(c, cur.obj.owners)| && Owners(c, cur.obj.owners)[i] == nb;
    assert Offers(Owners(c, cur.obj.owners)[i], owner);
    OwnersOffer(c, cur.obj.owners, owner);
    ChildReached(s, c, ns, root, cur, p);
    assert NodeHonest(c, ns, root, cur.id, s.nodes[cur.id]);
    assert Hop(c, at, owner) && Reach(c, root, cur.depth, at);
    assert Reach(c, root, cur.depth + 1, owner) && Reached(c, root, owner) && Reached(c, root, at) && ReadsAs(c, at, cur.obj);
  }

  lemma ChildKeys(c: Cluster, cur: Queued, kind: string, ci: Info, items: seq<Obj>, k: (string, string)) returns (o: Obj)
    requires ChildType(c, cur, kind, ci) && k in Keys(ci.kind, items)
    requires forall o :: o in items ==> o in Controlled(c.list(ci).items, cur.obj.uid)
    ensures o in items && k == (ci.kind, o.name)
    ensures Controls(c, cur.obj.uid, OwnerChildren(cur.info.group, cur.info.kind), Place(ci, o.name))
  {
    var i :| 0 <= i < |items| && k == (ci.kind, items[i].name);
    o := items[i];
    ChildControlled(c, cur, kind, ci, o);
  }

  function DrawnChildren(s: State, c: Cluster, ns: string, cur: Queued, ci: Info): seq<Obj>
    requires c.list(ci).Listed?
  {
    Pick(s.nodes, ci, ns, Controlled(c.list(ci).items, cur.obj.uid), true)
  }

  function UndrawnChildren(s: State, c: Cluster, ns: string, cur: Queued, ci: Info): seq<Obj>
    requires c.list(ci).Listed?
  {
    Pick(s.nodes, ci, ns, Controlled(c.list(ci).items, cur.obj.uid), false)
  }

  lemma UndrawnReady(s: State, c: Cluster, ns: string, root: Place, rootId: Id, cur: Queued, kind: string, ci: Info)
    requires Expanding(s, c, ns, root, rootId, cur) && Orderly(c, root) && ChildType(c, cur, kind, ci) && ci.namespaced
    ensures var items := UndrawnChildren(s, c, ns, cur, ci);
            NamesDiffer(items) && s.clubbed.Keys !! Keys(ci.kind, items) && Undrawn(s.nodes, Keys(ci.kind, items))
  {
    var items := UndrawnChildren(s, c, ns, cur, ci);
    ControlledDiffer(c.list(ci).items, cur.obj.uid);
    PickDiffer(s.nodes, ci, ns, Controlled(c.list(ci).items, cur.obj.uid), false);
    forall k | k in Keys(ci.kind, items) ensures k !in s.clubbed {
      var o := ChildKeys(c, cur, kind, ci, items, k);
      NotFoldedYet(s, c, ns, root, rootId, cur, Place(ci, o.name));
    }
    forall id, k | id in s.nodes && id.ObjectId? && k in Keys(ci.kind, items) ensures Key(s.nodes[id]) != k {
      var o := ChildKeys(c, cur, kind, ci, items, k);
      NotDrawnYet(s, c, ns, root, cur, Place(ci, o.name), id);
    }
  }

  lemma OwnersApart(s: State, c: Cluster, ns: string, root: Place, cur: Queued, kind: string, ci: Info)
    requires NodesHonest(c, ns, root, s.nodes) && Awaits(s.nodes, cur) && Carries(c, s.nodes, cur)
    requires OneGroup(c, root) && Acyclic(c, root) && ChildType(c, cur, kind, ci)
    ensures AllApart(Owners(c, cur.obj.owners), Keys(ci.kind, UndrawnChildren(s, c, ns, cur, ci)))
  {
    var owners, items := Owners(c, cur.obj.owners), UndrawnChildren(s, c, ns, cur, ci);
    OwnersHold(c, cur.obj.owners);
    forall i | 0 <= i < |owners| ensures owners[i].Single? && (owners[i].info.kind, owners[i].name) !in Keys(ci.kind, items) {
      assert owners[i] in owners;
      forall k | k in Keys(ci.kind, items) ensures k != (owners[i].info.kind, owners[i].name) {
        var o := ChildKeys(c, cur, kind, ci, items, k);
        OwnerIsNotChild(s, c, ns, root, cur, owners[i], Place(ci, o.name));
      }
    }
  }

  lemma DrawnApart(nodes: Nodes, ci: Info, ns: string, owned: seq<Obj>)
    ensures AllApart(AsSingles(ci, Pick(nodes, ci, ns, owned, true)), Keys(ci.kind, Pick(nodes, ci, ns, owned, false)))
  {
    var drawn, undrawn := Pick(nodes, ci, ns, owned, true), Pick(nodes, ci, ns, owned, false);
    var nbs := AsSingles(ci, drawn);
    forall i | 0 <= i < |nbs| ensures (nbs[i].info.kind, nbs[i].name) !in Keys(ci.kind, undrawn) {
      assert drawn[i] in drawn;
      forall j | 0 <= j < |undrawn| ensures undrawn[j].name != drawn[i].name { assert undrawn[j] in undrawn; }
    }
  }

  lemma ApartConcat(a: seq<Neighbor>, b: seq<Neighbor>, keys: set<(string, string)>)
    requires AllApart(a, keys) && AllApart(b, keys)
    ensures AllApart(a + b, keys)
  {
  }

  /** Every object in `items` (all of type `ci`) is drawn or folded, unless the node cap was hit. */
  ghost predicate Placed(s: State, ns: string, ci: Info, items: seq<Obj>) {
    NodeCap !in s.notes ==>
      forall o :: o in items ==> NodeId(ci, ns, o.name) in s.nodes || (ci.kind, o.name) in s.clubbed
  }

  lemma SinglesPlaced(s: State, ns: string, ci: Info, items: seq<Obj>)
    requires AllLanded(s, ns, s.clubbed, AsSingles(ci, items)) && ci.namespaced
    ensures Placed(s, ns, ci, items)
  {
    if NodeCap !in s.notes {
      forall o | o in items ensures NodeId(ci, ns, o.name) in s.nodes || (ci.kind, o.name) in s.clubbed {
        var i :| 0 <= i < |items| && items[i] == o;
        assert Landed(s, ns, s.clubbed, AsSingles(ci, items)[i]);
      }
    }
  }

  lemma PlacedStays(s: State, s': State, ns: string, ci: Info, items: seq<Obj>)
    requires Placed(s, ns, ci, items) && Grows(s, s') && s.notes <= s'.notes
    ensures Placed(s', ns, ci, items)
  {
  }

  lemma ClubPlaces(s: State, c: Cluster, ns: string, cur: Queued, nb: Neighbor)
    requires nb.Club? && |s.nodes| <= MAX_NODES && Tallied(s.nodes, s.clubbed) && Ready(s.nodes, s.clubbed, nb)
    requires NoStandIn(s.nodes, cur.id)
    ensures var s' := Visit(s, c, ns, cur, nb);
            && FoldsOnly(s, s', Keys(nb.info.kind, nb.items), AggregateId(cur.id, nb.info.kind))
            && Placed(s', ns, nb.info, nb.items)
  {
    var s', a := Visit(s, c, ns, cur, nb), AggregateId(cur.id, nb.info.kind);
    ClubLands(s, c, ns, cur, nb);
    if NewClub(s, s', cur, nb) {
      TalliedClub(s, s', cur, nb);
      forall k | k in s'.clubbed && k !in s.clubbed ensures s'.clubbed[k] == a {
        assert k in Members(s'.clubbed, a);
      }
      forall o | o in nb.items ensures (nb.info.kind, o.name) in s'.clubbed {
        var i :| 0 <= i < |nb.items| && nb.items[i] == o;
        assert (nb.info.kind, nb.items[i].name) in Keys(nb.info.kind, nb.items);
      }
    }
  }

  /** The undrawn children, drawn one by one or folded together. */
  lemma TailPlaces(s: State, c: Cluster, ns: string, rootId: Id, cur: Queued, ci: Info, kind: string, items: seq<Obj>)
    requires During(s, rootId, cur) && Tallied(s.nodes, s.clubbed) && NoStandIn(s.nodes, cur.id) && ci.namespaced
    requires NamesDiffer(items) && s.clubbed.Keys !! Keys(ci.kind, items) && Undrawn(s.nodes, Keys(ci.kind, items))
    ensures var s' := VisitAll(s, c, ns, cur, Tail(cur, ci, kind, items));
            && FoldsOnly(s, s', Keys(ci.kind, items), AggregateId(cur.id, ci.kind))
            && Placed(s', ns, ci, items)
  {
    var tail := Tail(cur, ci, kind, items);
    if |tail| == 1 && tail[0].Club? {
      assert VisitAll(s, c, ns, cur, tail[..0]) == s;
      ClubPlaces(s, c, ns, cur, tail[0]);
    } else {
      assert tail == AsSingles(ci, items);
      SinglesVisit(s, c, ns, rootId, cur, tail, {});
      SinglesPlaced(VisitAll(s, c, ns, cur, tail), ns, ci, items);
    }
  }

  lemma OneChildKind(group: string, kind: string, child: string)
    requires child in OwnerChildren(group, kind)
    ensures OwnerChildren(group, kind) == [child]
  {
  }

  lemma OneKind(s: State, c: Cluster, ns: string, cur: Queued, kind: string)
    ensures Children(s, c, ns, cur, [kind]).neighbors == ChildrenOfKind(s, c, ns, cur, kind).neighbors
  {
    assert [kind][..0] == [];
  }

  lemma KindParts(s: State, c: Cluster, ns: string, cur: Queued, kind: string, ci: Info)
    requires c.byKind(kind) == Some(ci) && c.list(ci).Listed?
    ensures ChildrenOfKind(s, c, ns, cur, kind).neighbors ==
            AsSingles(ci, DrawnChildren(s, c, ns, cur, ci)) + Tail(cur, ci, kind, UndrawnChildren(s, c, ns, cur, ci))
  {
  }

  lemma Regroup(a: seq<Neighbor>, b: seq<Neighbor>, d: seq<Neighbor>, e: seq<Neighbor>)
    ensures a + (b + d) + e == (a + b) + d + e
  {
  }

  /** All of a controller's neighbours, in visiting order. */
  lemma ChildrenParts(s: State, c: Cluster, ns: string, cur: Queued, kind: string, ci: Info)
    requires ChildType(c, cur, kind, ci)
    ensures Neighbors(s, c, ns, cur).neighbors ==
            (Owners(c, cur.obj.owners) + AsSingles(ci, DrawnChildren(s, c, ns, cur, ci)))
            + Tail(cur, ci, kind, UndrawnChildren(s, c, ns, cur, ci)) + c.refs(cur.info, cur.obj).neighbors
  {
    OneChildKind(cur.info.group, cur.info.kind, kind);
    OneKind(s, c, ns, cur, kind);
    KindParts(s, c, ns, cur, kind, ci);
    Regroup(Owners(c, cur.obj.owners), AsSingles(ci, DrawnChildren(s, c, ns, cur, ci)),
            Tail(cur, ci, kind, UndrawnChildren(s, c, ns, cur, ci)), c.refs(cur.info, cur.obj).neighbors);
  }

  lemma RefsApart(s: State, c: Cluster, ns: string, root: Place, cur: Queued)
    requires NoServiceClub(c, root) && NodesHonest(c, ns, root, s.nodes) && Awaits(s.nodes, cur) && Carries(c, s.nodes, cur)
    ensures AllApart(c.refs(cur.info, cur.obj).neighbors, {})
  {
    TakenIsReached(s, c, ns, root, cur);
    assert NoClub(c.refs(cur.info, cur.obj).neighbors);
  }

  lemma FoldsOnlyAfter(s: State, s1: State, s2: State, s3: State, keys: set<(string, string)>, a: Id)
    requires s1.clubbed == s.clubbed && FoldsOnly(s1, s2, keys, a)
    requires Tallied(s3.nodes, s3.clubbed) && s3.clubbed == s2.clubbed
    ensures FoldsOnly(s, s3, keys, a)
  {
  }

  /** The drawn children, then the undrawn ones, then everything else. */
  lemma PartsVisit(s: State, c: Cluster, ns: string, rootId: Id, cur: Queued, ci: Info, kind: string,
                   pre: seq<Neighbor>, items: seq<Obj>, refs: seq<Neighbor>)
    requires During(s, rootId, cur) && Tallied(s.nodes, s.clubbed) && NoStandIn(s.nodes, cur.id) && ci.namespaced
    requires NamesDiffer(items) && s.clubbed.Keys !! Keys(ci.kind, items) && Undrawn(s.nodes, Keys(ci.kind, items))
    requires AllApart(pre, Keys(ci.kind, items)) && AllApart(refs, {})
    ensures var s' := VisitAll(s, c, ns, cur, pre + Tail(cur, ci, kind, items) + refs);
            && FoldsOnly(s, s', Keys(ci.kind, items), AggregateId(cur.id, ci.kind))
            && Placed(s', ns, ci, items)
  {
    var tail := Tail(cur, ci, kind, items);
    var s1 := VisitAll(s, c, ns, cur, pre);
    SinglesVisit(s, c, ns, rootId, cur, pre, Keys(ci.kind, items));
    VisitAllKeeps(s, rootId, c, ns, cur, pre);
    CountVisitAll(s, c, ns, rootId, cur, pre);
    var s2 := VisitAll(s1, c, ns, cur, tail);
    TailPlaces(s1, c, ns, rootId, cur, ci, kind, items);
    VisitAllKeeps(s1, rootId, c, ns, cur, tail);
    var s3 := VisitAll(s2, c, ns, cur, refs);
    SinglesVisit(s2, c, ns, rootId, cur, refs, {});
    VisitAllKeeps(s2, rootId, c, ns, cur, refs);
    VisitConcat(s, c, ns, cur, pre, tail);
    VisitConcat(s, c, ns, cur, pre + tail, refs);
    FoldsOnlyAfter(s, s1, s2, s3, Keys(ci.kind, items), AggregateId(cur.id, ci.kind));
    PlacedStays(s2, s3, ns, ci, items);
  }

  lemma BackedMore(s: State, s': State, c: Cluster, cur: Queued, kind: string, ci: Info, items: seq<Obj>)
    requires Backed(c, s.popped, s.clubbed) && cur in s.popped && ChildType(c, cur, kind, ci)
    requires forall o :: o in items ==> o in Controlled(c.list(ci).items, cur.obj.uid)
    requires FoldsOnly(s, s', Keys(ci.kind, items), AggregateId(cur.id, ci.kind))
    ensures Backed(c, s.popped, s'.clubbed)
  {
    forall k | k in s'.clubbed ensures exists q, p :: q in s.popped && BackedBy(c, q, k, s'.clubbed[k], p) {
      if k in s.clubbed {
        var q, p := Folder(c, s.popped, s.clubbed, k);
        assert BackedBy(c, q, k, s'.clubbed[k], p);
      } else {
        var o := ChildKeys(c, cur, kind, ci, items, k);
        assert BackedBy(c, cur, k, s'.clubbed[k], Place(ci, o.name));
      }
    }
  }

  lemma AllPlaced(s: State, s': State, ns: string, ci: Info, owned: seq<Obj>)
    requires Placed(s', ns, ci, Pick(s.nodes, ci, ns, owned, false)) && Keeps(s.nodes, s'.nodes)
    ensures Placed(s', ns, ci, owned)
  {
    if NodeCap !in s'.notes {
      forall o | o in owned ensures NodeId(ci, ns, o.name) in s'.nodes || (ci.kind, o.name) in s'.clubbed {
        assert o in Pick(s.nodes, ci, ns, owned, false) || o in Pick(s.nodes, ci, ns, owned, true);
      }
    }
  }

  ghost predicate ChildrenPlaced(s: State, c: Cluster, ns: string, q: Queued) {
    forall kind, ci :: ChildType(c, q, kind, ci) ==> Placed(s, ns, ci, Controlled(c.list(ci).items, q.obj.uid))
  }

  /** What an expansion does to folded objects. */
  ghost predicate ClubStep(s: State, s': State, c: Cluster, ns: string, cur: Queued) {
    && Tallied(s'.nodes, s'.clubbed) && Backed(c, s.popped, s'.clubbed) && ChildrenPlaced(s', c, ns, cur)
  }

  lemma ChildTypeIsOnly(c: Cluster, cur: Queued, kind: string, ci: Info, kind': string, ci': Info)
    requires ChildType(c, cur, kind, ci) && ChildType(c, cur, kind', ci')
    ensures kind == kind' && ci == ci'
  {
    OneChildKind(cur.info.group, cur.info.kind, kind);
  }

  lemma ChildTypeNamespaced(c: Cluster, cur: Queued, kind: string, ci: Info)
    requires ChildrenNamespaced(c) && ChildType(c, cur, kind, ci)
    ensures ci.namespaced
  {
    assert kind in ["ReplicaSet", "Pod", "Job"];
  }

  lemma ExpandChildren(s: State, c: Cluster, ns: string, root: Place, rootId: Id, cur: Queued, kind: string, ci: Info)
    requires Expanding(s, c, ns, root, rootId, cur) && Orderly(c, root) && ChildType(c, cur, kind, ci)
    ensures var s' := Expand(s, c, ns, cur);
            && FoldsOnly(s, s', Keys(ci.kind, UndrawnChildren(s, c, ns, cur, ci)), AggregateId(cur.id, ci.kind))
            && Placed(s', ns, ci, UndrawnChildren(s, c, ns, cur, ci))
  {
    var d, items := Neighbors(s, c, ns, cur), UndrawnChildren(s, c, ns, cur, ci);
    var drawn := AsSingles(ci, DrawnChildren(s, c, ns, cur, ci));
    NotesKeep(s, rootId, cur, d.notes);
    ChildTypeNamespaced(c, cur, kind, ci);
    UndrawnReady(s, c, ns, root, rootId, cur, kind, ci);
    OwnersApart(s, c, ns, root, cur, kind, ci);
    DrawnApart(s.nodes, ci, ns, Controlled(c.list(ci).items, cur.obj.uid));
    ApartConcat(Owners(c, cur.obj.owners), drawn, Keys(ci.kind, items));
    RefsApart(s, c, ns, root, cur);
    ChildrenParts(s, c, ns, cur, kind, ci);
    PartsVisit(AddNotes(s, d.notes), c, ns, rootId, cur, ci, kind,
               Owners(c, cur.obj.owners) + drawn, items, c.refs(cur.info, cur.obj).neighbors);
  }

  lemma NoChildrenParts(s: State, c: Cluster, ns: string, cur: Queued)
    requires forall kind, ci :: !ChildType(c, cur, kind, ci)
    ensures Neighbors(s, c, ns, cur).neighbors == Owners(c, cur.obj.owners) + c.refs(cur.info, cur.obj).neighbors
  {
    var kinds := OwnerChildren(cur.info.group, cur.info.kind);
    if kinds != [] {
      OneChildKind(cur.info.group, cur.info.kind, kinds[0]);
      OneKind(s, c, ns, cur, kinds[0]);
      assert c.byKind(kinds[0]).Some? ==> !ChildType(c, cur, kinds[0], c.byKind(kinds[0]).value);
    }
  }

  lemma ExpandChildless(s: State, c: Cluster, ns: string, root: Place, rootId: Id, cur: Queued)
    requires Expanding(s, c, ns, root, rootId, cur) && Orderly(c, root)
    requires forall kind, ci :: !ChildType(c, cur, kind, ci)
    ensures var s' := Expand(s, c, ns, cur); Tallied(s'.nodes, s'.clubbed) && s'.clubbed == s.clubbed
  {
    var d := Neighbors(s, c, ns, cur);
    NotesKeep(s, rootId, cur, d.notes);
    NoChildrenParts(s, c, ns, cur);
    OwnersHold(c, cur.obj.owners);
    RefsApart(s, c, ns, root, cur);
    ApartConcat(Owners(c, cur.obj.owners), c.refs(cur.info, cur.obj).neighbors, {});
    SinglesVisit(AddNotes(s, d.notes), c, ns, rootId, cur, d.neighbors, {});
  }

  lemma ExpandOneKind(s: State, c: Cluster, ns: string, root: Place, rootId: Id, cur: Queued, kind: string, ci: Info)
    requires Expanding(s, c, ns, root, rootId, cur) && Orderly(c, root) && ChildType(c, cur, kind, ci)
    ensures var s' := Expand(s, c, ns, cur);
            && Tallied(s'.nodes, s'.clubbed) && Backed(c, s.popped, s'.clubbed)
            && Placed(s', ns, ci, Controlled(c.list(ci).items, cur.obj.uid))
  {
    var s' := Expand(s, c, ns, cur);
    ExpandChildren(s, c, ns, root, rootId, cur, kind, ci);
    BackedMore(s, s', c, cur, kind, ci, UndrawnChildren(s, c, ns, cur, ci));
    ExpandKeeps(s, rootId, c, ns, cur);
    AllPlaced(s, s', ns, ci, Controlled(c.list(ci).items, cur.obj.uid));
  }

  lemma ExpandClubs(s: State, c: Cluster, ns: string, root: Place, rootId: Id, cur: Queued)
    requires Expanding(s, c, ns, root, rootId, cur) && Orderly(c, root)
    ensures ClubStep(s, Expand(s, c, ns, cur), c, ns, cur)
  {
    if kind, ci :| ChildType(c, cur, kind, ci) {
      ExpandOneKind(s, c, ns, root, rootId, cur, kind, ci);
      forall kind', ci' | ChildType(c, cur, kind', ci') ensures ci == ci' {
        ChildTypeIsOnly(c, cur, kind, ci, kind', ci');
      }
    } else {
      ExpandChildless(s, c, ns, root, rootId, cur);
    }
  }

  // ----- The whole walk -----

  ghost predicate Clubs(s: State, c: Cluster, ns: string, limit: nat) {
    && Tallied(s.nodes, s.clubbed) && Backed(c, s.popped, s.clubbed)
    && forall i | 0 <= i < |s.popped| :: s.popped[i].depth < limit ==> ChildrenPlaced(s, c, ns, s.popped[i])
  }

  lemma ChildrenPlacedStays(s: State, s': State, c: Cluster, ns: string, q: Queued)
    requires ChildrenPlaced(s, c, ns, q) && Grows(s, s') && s.notes <= s'.notes
    ensures ChildrenPlaced(s', c, ns, q)
  {
    forall kind, ci | ChildType(c, q, kind, ci) ensures Placed(s', ns, ci, Controlled(c.list(ci).items, q.obj.uid)) {
      PlacedStays(s, s', ns, ci, Controlled(c.list(ci).items, q.obj.uid));
    }
  }

  lemma BackedPop(c: Cluster, popped: seq<Queued>, clubbed: Clubbed, q: Queued)
    requires Backed(c, popped, clubbed)
    ensures Backed(c, popped + [q], clubbed)
  {
    forall k | k in clubbed ensures exists q', p :: q' in popped + [q] && BackedBy(c, q', k, clubbed[k], p) {
      var q', p := Folder(c, popped, clubbed, k);
      assert q' in popped + [q];
    }
  }

  lemma ClubsMore(s: State, s': State, c: Cluster, ns: string, limit: nat, cur: Queued)
    requires Clubs(s, c, ns, limit) && Grows(s, s') && s.notes <= s'.notes && s'.popped == s.popped + [cur]
    requires Tallied(s'.nodes, s'.clubbed) && Backed(c, s'.popped, s'.clubbed)
    requires cur.depth < limit ==> ChildrenPlaced(s', c, ns, cur)
    ensures Clubs(s', c, ns, limit)
  {
    forall i | 0 <= i < |s.popped| && s.popped[i].depth < limit ensures ChildrenPlaced(s', c, ns, s.popped[i]) {
      ChildrenPlacedStays(s, s', c, ns, s.popped[i]);
    }
  }

  lemma BecomesExpanding(s: State, c: Cluster, ns: string, root: Place, rootId: Id, limit: nat)
    requires Complete(s, c, ns, root, rootId, limit) && Clubs(s, c, ns, limit) && Consistent(c) && s.queue != []
    ensures Expanding(Pop(s), c, ns, root, rootId, s.queue[0])
  {
    PopKeeps(s, rootId, limit);
    PopHonest(s, c, ns, root);
    FreshStandIns(s, rootId, limit);
    BackedPop(c, s.popped, s.clubbed, s.queue[0]);
  }

  lemma TurnClubs(s: State, c: Cluster, ns: string, root: Place, rootId: Id, limit: nat)
    requires Complete(s, c, ns, root, rootId, limit) && Clubs(s, c, ns, limit) && Orderly(c, root) && s.queue != []
    ensures var s' := Turn(s, c, ns, limit);
            && Tallied(s'.nodes, s'.clubbed) && Backed(c, Pop(s).popped, s'.clubbed)
            && (s.queue[0].depth < limit ==> ChildrenPlaced(s', c, ns, s.queue[0]))
  {
    BecomesExpanding(s, c, ns, root, rootId, limit);
    if s.queue[0].depth < limit { ExpandClubs(Pop(s), c, ns, root, rootId, s.queue[0]); }
  }

  lemma ClubsTurn(s: State, c: Cluster, ns: string, root: Place, rootId: Id, limit: nat)
    requires Complete(s, c, ns, root, rootId, limit) && Clubs(s, c, ns, limit) && Orderly(c, root) && s.queue != []
    ensures Clubs(Turn(s, c, ns, limit), c, ns, limit)
  {
    TurnClubs(s, c, ns, root, rootId, limit);
    TurnKeeps(s, rootId, c, ns, limit);
    ParentsTurn(s, c, ns, rootId, limit);
    ClubsMore(s, Turn(s, c, ns, limit), c, ns, limit, s.queue[0]);
  }

  lemma {:induction false} WalkClubs(s: State, c: Cluster, ns: string, root: Place, rootId: Id, limit: nat)
    requires Complete(s, c, ns, root, rootId, limit) && Clubs(s, c, ns, limit) && Orderly(c, root)
    ensures Clubs(Walk(s, c, ns, limit), c, ns, limit)
    decreases MAX_NODES - |s.nodes| + |s.queue|
  {
    if s.queue != [] {
      ClubsTurn(s, c, ns, root, rootId, limit);
      TurnKeeps(s, rootId, c, ns, limit);
      ParentsTurn(s, c, ns, rootId, limit);
      ClosedTurn(s, c, ns, rootId, limit);
      HonestTurn(s, c, ns, root, rootId, limit);
      WalkClubs(Turn(s, c, ns, limit), c, ns, root, rootId, limit);
    }
  }

  lemma OneNodeClubs(s: State, c: Cluster, ns: string, limit: nat, id: Id)
    requires s.nodes.Keys == {id} && id.ObjectId? && s.clubbed == map[] && s.popped == []
    ensures Clubs(s, c, ns, limit)
  {
  }

  lemma SeedClubs(c: Cluster, ns: string, info: Info, name: string, requested: int)
    requires c.fetch(info, name).Found?
    ensures var s := Seed(requested, ns, info, name, c.fetch(info, name).obj);
            Clubs(s, c, ns, EffectiveDepth(requested)) && s.popped == []
  {
    var node := SeedShape(requested, ns, info, name, c.fetch(info, name).obj);
    OneNodeClubs(Seed(requested, ns, info, name, c.fetch(info, name).obj), c, ns, EffectiveDepth(requested), PlaceId(ns, info, name));
  }

  lemma BuiltClubs(c: Cluster, ns: string, info: Info, name: string, requested: int)
    requires Built(c, ns, info, name, requested).Some? && Orderly(c, Place(info, name))
    ensures Clubs(Built(c, ns, info, name, requested).value, c, ns, EffectiveDepth(requested))
  {
    var s := Seed(requested, ns, info, name, c.fetch(info, name).obj);
    SeedCompletes(c, ns, info, name, requested);
    SeedClubs(c, ns, info, name, requested);
    WalkClubs(s, c, ns, Place(info, name), PlaceId(ns, info, name), EffectiveDepth(requested));
  }

  // ----- Theorem -----

  lemma {:induction false} PickCounts(nodes: Nodes, info: Info, ns: string, items: seq<Obj>)
    ensures |Pick(nodes, info, ns, items, true)| + |Pick(nodes, info, ns, items, false)| == |items|
  {
    if items != [] { PickCounts(nodes, info, ns, items[..|items| - 1]); }
  }

  lemma MemberPlace(s: State, c: Cluster, rootId: Id, q: Queued, ci: Info, k: (string, string)) returns (p: Place)
    requires Good(s, rootId) && Backed(c, s.popped, s.clubbed) && q in s.popped
    requires k in Members(s.clubbed, AggregateId(q.id, ci.kind))
    ensures k == (p.info.kind, p.name) && p.info.kind == ci.kind
    ensures Controls(c, q.obj.uid, OwnerChildren(q.info.group, q.info.kind), p)
  {
    var q', p' := Folder(c, s.popped, s.clubbed, k);
    TakenIsOne(s, rootId, q, q');
    p := p';
  }

  /** A member of `q`'s aggregate is one of the children `q` controls, and is not drawn. */
  lemma MemberIsUndrawn(s: State, c: Cluster, ns: string, root: Place, rootId: Id, q: Queued, kind: string, ci: Info, k: (string, string))
    requires Good(s, rootId) && Honest(s, c, ns, root) && Tallied(s.nodes, s.clubbed) && Backed(c, s.popped, s.clubbed)
    requires q in s.popped && ChildType(c, q, kind, ci) && k in Members(s.clubbed, AggregateId(q.id, ci.kind))
    ensures k in Keys(ci.kind, UndrawnChildren(s, c, ns, q, ci))
  {
    var p := MemberPlace(s, c, rootId, q, ci, k);
    var o := ListedChild(s, c, ns, root, rootId, q, kind, ci, p);
    UndrawnByKey(s, c, ns, root, ci, o);
    InKeys(ci.kind, UndrawnChildren(s, c, ns, q, ci), o);
  }

  lemma InKeys(kind: string, items: seq<Obj>, o: Obj)
    requires o in items
    ensures (kind, o.name) in Keys(kind, items)
  {
    var i :| 0 <= i < |items| && items[i] == o;
    assert (kind, items[i].name) in Keys(kind, items);
  }

  lemma TakenIsOne(s: State, rootId: Id, q: Queued, q': Queued)
    requires Good(s, rootId) && q in s.popped && q' in s.popped && q.id == q'.id
    ensures q == q'
  {
  }

  lemma ListedChild(s: State, c: Cluster, ns: string, root: Place, rootId: Id, q: Queued, kind: string, ci: Info, p: Place)
      returns (o: Obj)
    requires Good(s, rootId) && Honest(s, c, ns, root) && q in s.popped && ChildType(c, q, kind, ci)
    requires Controls(c, q.obj.uid, OwnerChildren(q.info.group, q.info.kind), p)
    ensures p.info == ci && o in Controlled(c.list(ci).items, q.obj.uid) && o.name == p.name
  {
    OneChildKind(q.info.group, q.info.kind, kind);
    var i, o' :| 0 <= i < |OwnerChildren(q.info.group, q.info.kind)|
                 && c.byKind(OwnerChildren(q.info.group, q.info.kind)[i]) == Some(p.info) && Lists(c, q.obj.uid, p, o');
    o := o';
  }

  lemma UndrawnByKey(s: State, c: Cluster, ns: string, root: Place, ci: Info, o: Obj)
    requires NodesHonest(c, ns, root, s.nodes) && NotBoth(s.nodes, s.clubbed) && (ci.kind, o.name) in s.clubbed
    ensures NodeId(ci, ns, o.name) !in s.nodes
  {
    KeyAt(s.nodes, c, ns, root, ci, o.name);
  }

  lemma KeyAt(nodes: Nodes, c: Cluster, ns: string, root: Place, ci: Info, name: string)
    requires NodesHonest(c, ns, root, nodes)
    ensures var id := NodeId(ci, ns, name); id in nodes ==> Key(nodes[id]) == (ci.kind, name)
  {
    var id := NodeId(ci, ns, name);
    if id in nodes { assert NodeHonest(c, ns, root, id, nodes[id]); }
  }

  lemma UndrawnIsMember(s: State, c: Cluster, ns: string, root: Place, rootId: Id, q: Queued, kind: string, ci: Info, k: (string, string))
    requires Good(s, rootId) && Honest(s, c, ns, root) && Orderly(c, root)
    requires Backed(c, s.popped, s.clubbed) && ChildrenPlaced(s, c, ns, q) && NodeCap !in s.notes
    requires q in s.popped && ChildType(c, q, kind, ci) && k in Keys(ci.kind, UndrawnChildren(s, c, ns, q, ci))
    ensures k in Members(s.clubbed, AggregateId(q.id, ci.kind))
  {
    var items := UndrawnChildren(s, c, ns, q, ci);
    var o := ChildKeys(c, q, kind, ci, items, k);
    assert Placed(s, ns, ci, Controlled(c.list(ci).items, q.obj.uid));
    FoldedUnderParent(s, c, ns, root, rootId, q, Place(ci, o.name));
  }

  lemma MembersAreUndrawn(s: State, c: Cluster, ns: string, root: Place, rootId: Id, q: Queued, kind: string, ci: Info)
    requires Good(s, rootId) && Honest(s, c, ns, root) && Orderly(c, root) && Tallied(s.nodes, s.clubbed)
    requires Backed(c, s.popped, s.clubbed) && ChildrenPlaced(s, c, ns, q) && NodeCap !in s.notes
    requires q in s.popped && ChildType(c, q, kind, ci)
    ensures Members(s.clubbed, AggregateId(q.id, ci.kind)) == Keys(ci.kind, UndrawnChildren(s, c, ns, q, ci))
  {
    var a, keys := AggregateId(q.id, ci.kind), Keys(ci.kind, UndrawnChildren(s, c, ns, q, ci));
    forall k | k in Members(s.clubbed, a) ensures k in keys {
      MemberIsUndrawn(s, c, ns, root, rootId, q, kind, ci, k);
    }
    forall k | k in keys ensures k in Members(s.clubbed, a) {
      UndrawnIsMember(s, c, ns, root, rootId, q, kind, ci, k);
    }
  }

  lemma UndrawnCount(s: State, c: Cluster, ns: string, q: Queued, ci: Info)
    requires UniqueNames(c) && c.list(ci).Listed?
    ensures |Keys(ci.kind, UndrawnChildren(s, c, ns, q, ci))| == |UndrawnChildren(s, c, ns, q, ci)|
    ensures |DrawnChildren(s, c, ns, q, ci)| + |UndrawnChildren(s, c, ns, q, ci)| == |Controlled(c.list(ci).items, q.obj.uid)|
  {
    var owned := Controlled(c.list(ci).items, q.obj.uid);
    ControlledDiffer(c.list(ci).items, q.obj.uid);
    PickDiffer(s.nodes, ci, ns, owned, false);
    PickCounts(s.nodes, ci, ns, owned);
    KeysCount(ci.kind, UndrawnChildren(s, c, ns, q, ci));
  }

  lemma CountAt(nodes: Nodes, clubbed: Clubbed, a: Id)
    requires CountsExact(nodes, clubbed) && ClubbedSound(nodes, clubbed) && a.AggregateId?
    ensures |Members(clubbed, a)| == if a in nodes then nodes[a].count else 0
  {
    if a !in nodes { assert Members(clubbed, a) == {}; }
  }

  lemma ConservedAt(s: State, c: Cluster, ns: string, root: Place, rootId: Id, q: Queued, kind: string, ci: Info)
    requires Good(s, rootId) && Honest(s, c, ns, root) && Orderly(c, root) && Tallied(s.nodes, s.clubbed)
    requires Backed(c, s.popped, s.clubbed) && ChildrenPlaced(s, c, ns, q) && NodeCap !in s.notes
    requires q in s.popped && ChildType(c, q, kind, ci)
    ensures var a := AggregateId(q.id, ci.kind);
            |Controlled(c.list(ci).items, q.obj.uid)| ==
            |DrawnChildren(s, c, ns, q, ci)| + if a in s.nodes then s.nodes[a].count else 0
  {
    MembersAreUndrawn(s, c, ns, root, rootId, q, kind, ci);
    UndrawnCount(s, c, ns, q, ci);
    CountAt(s.nodes, s.clubbed, AggregateId(q.id, ci.kind));
  }

  /** When the node cap was not hit: no object is both drawn and folded, every aggregate
      counts exactly the objects folded into it, and for every expanded controller the
      listed objects it controls are its drawn children plus its aggregate's count. */
  lemma ClubbingConserves(c: Cluster, ns: string, info: Info, name: string, requested: int, q: Queued, kind: string, ci: Info)
    requires Built(c, ns, info, name, requested).Some? && Orderly(c, Place(info, name))
    requires NodeCap !in Built(c, ns, info, name, requested).value.notes
    requires q in Built(c, ns, info, name, requested).value.popped && q.depth < EffectiveDepth(requested)
    requires ChildType(c, q, kind, ci)
    ensures var s := Built(c, ns, info, name, requested).value;
            var a := AggregateId(q.id, ci.kind);
            && NotBoth(s.nodes, s.clubbed) && CountsExact(s.nodes, s.clubbed)
            && |Controlled(c.list(ci).items, q.obj.uid)| ==
               |DrawnChildren(s, c, ns, q, ci)| + if a in s.nodes then s.nodes[a].count else 0
  {
    var s, limit := Built(c, ns, info, name, requested).value, EffectiveDepth(requested);
    BuiltCompletes(c, ns, info, name, requested);
    BuiltClubs(c, ns, info, name, requested);
    var i :| 0 <= i < |s.popped| && s.popped[i] == q;
    assert ChildrenPlaced(s, c, ns, s.popped[i]);
    ConservedAt(s, c, ns, Place(info, name), PlaceId(ns, info, name), q, kind, ci);
  }
}
