/** What every step of the walk keeps: a bounded, duplicate-free, connected graph
    whose queue is in breadth-first order. */
module GraphWalk {
  import opened Optional
  import opened GraphModel

  type Nodes = map<Id, Node>
  type Edges = map<(Id, Id), Edge>

  ghost predicate NoDup<T(!new)>(xs: seq<T>) {
    forall i, j | 0 <= i < j < |xs| :: xs[i] != xs[j]
  }

  /** `xs` lists exactly the members of `keys`, each once. */
  ghost predicate Enumerates<T(!new)>(xs: seq<T>, keys: set<T>) {
    NoDup(xs) && forall x :: x in keys <==> x in xs
  }

  /** The walk gave up on something it was pointed to. A depth clamp, a fan-out summary and
      what a listing leaves out are noted too, but no neighbour is given up for them. */
  predicate Gap(note: Note) {
    note.NodeCap? || note.CouldNotRead?
  }

  predicate NoGap(notes: seq<Note>) {
    forall i | 0 <= i < |notes| :: !Gap(notes[i])
  }

  /** Every edge joins two different nodes that are present, under its own key. */
  ghost predicate EdgesSound(nodes: Nodes, edges: Edges) {
    forall e :: e in edges ==>
      e.0 in nodes && e.1 in nodes && e.0 != e.1 && edges[e].source == e.0 && edges[e].target == e.1
  }

  ghost predicate FiledAt(id: Id, n: Node) {
    n.aggregate == id.AggregateId? && n.parent.None? && (id.ObjectId? ==> id == NodeId(n.info, n.namespace, n.name))
  }

  /** Nodes are filed under their own identity, only stand-ins are aggregates, and no
      node is boxed yet. */
  ghost predicate Filed(nodes: Nodes) {
    forall id :: id in nodes ==> FiledAt(id, nodes[id])
  }

  ghost predicate Awaits(nodes: Nodes, q: Queued) {
    q.id in nodes && q.id.ObjectId? && nodes[q.id].depth == q.depth && nodes[q.id].info == q.info
  }

  ghost predicate QueueSound(nodes: Nodes, queue: seq<Queued>) {
    forall i | 0 <= i < |queue| :: Awaits(nodes, queue[i])
  }

  function Ids(qs: seq<Queued>): set<Id> {
    set q | q in qs :: q.id
  }

  /** Nothing is queued twice, counting the entries already taken. */
  ghost predicate Once(nodes: Nodes, popped: seq<Queued>, queue: seq<Queued>) {
    && QueueSound(nodes, popped)
    && (forall i, j | 0 <= i < j < |popped| :: popped[i].id != popped[j].id)
    && (forall i, j | 0 <= i < j < |queue| :: queue[i].id != queue[j].id)
    && Ids(queue) !! Ids(popped)
  }

  ghost predicate Near(nodes: Nodes, edges: Edges, u: Id, id: Id) {
    && u in nodes && id in nodes && nodes[u].depth + 1 == nodes[id].depth
    && ((u, id) in edges || (id, u) in edges)
  }

  /** Every node but the focus is joined to one exactly one hop nearer the focus. */
  ghost predicate Tethered(nodes: Nodes, edges: Edges, root: Id) {
    forall id :: id in nodes && id != root ==> exists u :: Near(nodes, edges, u, id)
  }

  ghost predicate Good(s: State, root: Id) {
    && |s.nodes| <= MAX_NODES
    && Enumerates(s.nodeOrder, s.nodes.Keys) && Enumerates(s.edgeOrder, s.edges.Keys)
    && EdgesSound(s.nodes, s.edges) && Filed(s.nodes)
    && QueueSound(s.nodes, s.queue) && Once(s.nodes, s.popped, s.queue)
    && Tethered(s.nodes, s.edges, root)
  }

  /** Breadth-first order: at level `d` nothing lies beyond `d + 1`, and the queue
      holds a run of level `d` followed by a run of level `d + 1`. */
  ghost predicate Levels(nodes: Nodes, queue: seq<Queued>, d: nat) {
    && (forall id :: id in nodes ==> nodes[id].depth <= d + 1)
    && (forall i | 0 <= i < |queue| :: d <= queue[i].depth)
    && (forall i, j | 0 <= i < j < |queue| :: queue[i].depth <= queue[j].depth)
  }

  /** A folded object points at an aggregate that is present. */
  ghost predicate ClubbedSound(nodes: Nodes, clubbed: map<(string, string), Id>) {
    forall k :: k in clubbed ==> clubbed[k] in nodes && clubbed[k].AggregateId?
  }

  /** The invariant while `cur` is being expanded. */
  ghost predicate During(s: State, root: Id, cur: Queued) {
    && Good(s, root) && ClubbedSound(s.nodes, s.clubbed)
    && Awaits(s.nodes, cur) && Levels(s.nodes, s.queue, cur.depth)
  }

  ghost predicate Keeps(nodes: Nodes, nodes': Nodes) {
    forall id :: id in nodes ==> id in nodes' && nodes'[id] == nodes[id]
  }

  /** `s'` keeps all of `s`: nodes unchanged, the rest only added to. */
  ghost predicate Extends(s: State, s': State) {
    && Keeps(s.nodes, s'.nodes)
    && s.edges.Keys <= s'.edges.Keys && s.clubbed.Keys <= s'.clubbed.Keys
    && s.notes <= s'.notes && s.queue <= s'.queue && s.popped == s'.popped
  }

  /** The part of `Extends` that keeps what is drawn. */
  ghost predicate Grows(s: State, s': State) {
    Keeps(s.nodes, s'.nodes) && s.edges.Keys <= s'.edges.Keys && s.clubbed.Keys <= s'.clubbed.Keys
  }

  // ----- Each part of the invariant, under each kind of change -----

  lemma Append<T(!new)>(xs: seq<T>, keys: set<T>, x: T)
    requires Enumerates(xs, keys) && x !in keys
    ensures Enumerates(xs + [x], keys + {x})
  {
  }

  lemma NearGrows(nodes: Nodes, edges: Edges, nodes': Nodes, edges': Edges, root: Id)
    requires Tethered(nodes, edges, root) && Keeps(nodes, nodes') && edges.Keys <= edges'.Keys
    ensures forall id :: id in nodes && id != root ==> exists u :: Near(nodes', edges', u, id)
  {
    forall id | id in nodes && id != root ensures exists u :: Near(nodes', edges', u, id) {
      var u :| Near(nodes, edges, u, id);
      assert Near(nodes', edges', u, id);
    }
  }

  lemma QueueGrows(nodes: Nodes, nodes': Nodes, queue: seq<Queued>)
    requires QueueSound(nodes, queue) && Keeps(nodes, nodes')
    ensures QueueSound(nodes', queue)
  {
    forall i | 0 <= i < |queue| ensures Awaits(nodes', queue[i]) {
      assert Awaits(nodes, queue[i]);
    }
  }

  lemma NotQueued(nodes: Nodes, queue: seq<Queued>, id: Id)
    requires QueueSound(nodes, queue) && id !in nodes
    ensures id !in Ids(queue)
  {
    forall q | q in queue ensures q.id != id {
      var i :| 0 <= i < |queue| && queue[i] == q;
      assert Awaits(nodes, queue[i]);
    }
  }

  lemma EnqueueParts(nodes: Nodes, popped: seq<Queued>, queue: seq<Queued>, q: Queued, d: nat)
    requires QueueSound(nodes, queue) && Once(nodes, popped, queue) && Levels(nodes, queue, d)
    requires Awaits(nodes, q) && q.depth == d + 1 && q.id !in Ids(popped) && q.id !in Ids(queue)
    ensures QueueSound(nodes, queue + [q]) && Once(nodes, popped, queue + [q]) && Levels(nodes, queue + [q], d)
  {
    forall i | 0 <= i < |queue| ensures queue[i].depth <= d + 1 { assert Awaits(nodes, queue[i]); }
    assert Ids(queue + [q]) == Ids(queue) + {q.id};
    forall i | 0 <= i < |queue| ensures queue[i].id != q.id { assert queue[i] in queue; }
  }

  // ----- Edges -----

  /** The neighbour's edge is there, in its true direction (a self-loop is not drawn). */
  ghost predicate Drawn(s: State, cur: Id, other: Id, nb: Neighbor) {
    cur == other || (if nb.inbound then (other, cur) else (cur, other)) in s.edges
  }

  lemma EdgeParts(s: State, a: Id, b: Id, rel: Relation, mechanism: string)
    requires a in s.nodes && b in s.nodes
    requires Enumerates(s.edgeOrder, s.edges.Keys) && EdgesSound(s.nodes, s.edges)
    ensures var s' := AddEdge(s, a, b, rel, mechanism);
            && Enumerates(s'.edgeOrder, s'.edges.Keys) && EdgesSound(s'.nodes, s'.edges)
            && s.edges.Keys <= s'.edges.Keys && (a != b ==> (a, b) in s'.edges)
  {
    var s' := AddEdge(s, a, b, rel, mechanism);
    if a != b {
      assert s'.edges.Keys == s.edges.Keys + {(a, b)};
      if (a, b) !in s.edges { Append(s.edgeOrder, s.edges.Keys, (a, b)); }
    }
  }

  lemma LinkParts(s: State, cur: Id, other: Id, nb: Neighbor)
    requires cur in s.nodes && other in s.nodes
    requires Enumerates(s.edgeOrder, s.edges.Keys) && EdgesSound(s.nodes, s.edges)
    ensures var s' := Link(s, cur, other, nb);
            && Enumerates(s'.edgeOrder, s'.edges.Keys) && EdgesSound(s'.nodes, s'.edges)
            && s.edges.Keys <= s'.edges.Keys && Drawn(s', cur, other, nb)
  {
    if nb.inbound { EdgeParts(s, other, cur, nb.rel, nb.mechanism); }
    else { EdgeParts(s, cur, other, nb.rel, nb.mechanism); }
  }

  lemma LinkKeeps(s: State, root: Id, cur: Id, other: Id, nb: Neighbor)
    requires Good(s, root) && cur in s.nodes && other in s.nodes
    ensures Good(Link(s, cur, other, nb), root) && Extends(s, Link(s, cur, other, nb))
    ensures Drawn(Link(s, cur, other, nb), cur, other, nb)
  {
    LinkParts(s, cur, other, nb);
    var s' := Link(s, cur, other, nb);
    NearGrows(s.nodes, s.edges, s'.nodes, s'.edges, root);
  }

  // ----- Nodes -----

  ghost predicate Admits(s: State, s1: State, id: Id, node: Node) {
    && id !in s.nodes && |s.nodes| < MAX_NODES && FiledAt(id, node)
    && s1 == s.(nodes := s.nodes[id := node], nodeOrder := s.nodeOrder + [id], clubbed := s1.clubbed)
  }

  lemma SoundGrows(nodes: Nodes, edges: Edges, id: Id, node: Node)
    requires EdgesSound(nodes, edges) && Filed(nodes) && FiledAt(id, node) && id !in nodes
    ensures EdgesSound(nodes[id := node], edges) && Filed(nodes[id := node])
  {
  }

  lemma OrderGrows(nodes: Nodes, order: seq<Id>, id: Id, node: Node)
    requires Enumerates(order, nodes.Keys) && id !in nodes
    ensures Enumerates(order + [id], nodes[id := node].Keys)
  {
    Append(order, nodes.Keys, id);
    assert nodes[id := node].Keys == nodes.Keys + {id};
  }

  lemma AdmitParts(s: State, s1: State, root: Id, id: Id, node: Node)
    requires Good(s, root) && Admits(s, s1, id, node)
    ensures Keeps(s.nodes, s1.nodes) && |s1.nodes| <= MAX_NODES
    ensures Enumerates(s1.nodeOrder, s1.nodes.Keys)
    ensures EdgesSound(s1.nodes, s1.edges) && Filed(s1.nodes)
    ensures QueueSound(s1.nodes, s1.queue) && Once(s1.nodes, s1.popped, s1.queue)
  {
    OrderGrows(s.nodes, s.nodeOrder, id, node);
    SoundGrows(s.nodes, s.edges, id, node);
    QueueGrows(s.nodes, s1.nodes, s.queue);
    QueueGrows(s.nodes, s1.nodes, s.popped);
  }

  lemma TetherNew(nodes: Nodes, edges: Edges, nodes': Nodes, edges': Edges, root: Id, u: Id, id: Id)
    requires Tethered(nodes, edges, root) && Keeps(nodes, nodes') && edges.Keys <= edges'.Keys
    requires nodes'.Keys == nodes.Keys + {id} && Near(nodes', edges', u, id)
    ensures Tethered(nodes', edges', root)
  {
    NearGrows(nodes, edges, nodes', edges', root);
  }

  /** A node admitted one level below `cur` keeps the graph good once its edge is drawn. */
  lemma NewNodeKeeps(s: State, s1: State, s2: State, root: Id, cur: Queued, id: Id, node: Node, nb: Neighbor)
    requires Good(s, root) && Awaits(s.nodes, cur) && Admits(s, s1, id, node) && node.depth == cur.depth + 1
    requires s2 == s1.(edges := s2.edges, edgeOrder := s2.edgeOrder)
    requires Enumerates(s2.edgeOrder, s2.edges.Keys) && EdgesSound(s2.nodes, s2.edges)
    requires s1.edges.Keys <= s2.edges.Keys && Drawn(s2, cur.id, id, nb)
    ensures Good(s2, root)
  {
    AdmitParts(s, s1, root, id, node);
    assert s1.nodes.Keys == s.nodes.Keys + {id};
    assert Near(s2.nodes, s2.edges, cur.id, id);
    TetherNew(s.nodes, s.edges, s2.nodes, s2.edges, root, cur.id, id);
  }

  // ----- One neighbour -----

  lemma FoldKeys(clubbed: map<(string, string), Id>, kind: string, items: seq<Obj>, id: Id)
    ensures var f := Fold(clubbed, kind, items, id);
            && clubbed.Keys <= f.Keys
            && (forall k :: k in f ==> f[k] == id || (k in clubbed && f[k] == clubbed[k]))
            && (forall i | 0 <= i < |items| :: (kind, items[i].name) in f && f[(kind, items[i].name)] == id)
  {
  }

  lemma FoldSound(nodes: Nodes, clubbed: map<(string, string), Id>, kind: string, items: seq<Obj>, id: Id, node: Node)
    requires ClubbedSound(nodes, clubbed) && id.AggregateId?
    ensures ClubbedSound(nodes[id := node], Fold(clubbed, kind, items, id))
    ensures clubbed.Keys <= Fold(clubbed, kind, items, id).Keys
  {
    FoldKeys(clubbed, kind, items, id);
  }

  /** Both are present, and `id` lies at most one hop beyond `cur`. */
  ghost predicate Within(nodes: Nodes, cur: Id, id: Id) {
    cur in nodes && id in nodes && nodes[id].depth <= nodes[cur].depth + 1
  }

  ghost predicate Shallow(nodes: Nodes, d: nat) {
    |nodes| <= MAX_NODES && forall id :: id in nodes ==> nodes[id].depth <= d + 1
  }

  lemma DuringShallow(s: State, root: Id, cur: Queued)
    requires During(s, root, cur)
    ensures Shallow(s.nodes, cur.depth)
  {
  }

  /** What the walk leaves behind for one neighbour unless it had to note a gap:
      its node, or the aggregate it was folded into, joined to `cur`. */
  ghost predicate Represented(s: State, ns: string, cur: Id, nb: Neighbor) {
    match nb
    case Club(info, items, _, _, _) =>
      AggregateId(cur, info.kind) in s.nodes && Drawn(s, cur, AggregateId(cur, info.kind), nb)
    case Single(info, name, _, _, _, _) =>
      || (Within(s.nodes, cur, PlaceId(ns, info, name)) && Drawn(s, cur, PlaceId(ns, info, name), nb))
      || ((info.kind, name) in s.clubbed && exists a: Id :: a.AggregateId? && a in s.nodes && Drawn(s, cur, a, nb))
  }

  lemma Noted(s: State, note: Note)
    ensures note in AddNote(s, note).notes && (Gap(note) ==> !NoGap(AddNote(s, note).notes))
  {
    var notes := AddNote(s, note).notes;
    assert note !in s.notes ==> notes[|s.notes|] == note;
    var i :| 0 <= i < |notes| && notes[i] == note;
  }

  lemma NoteKeeps(s: State, root: Id, cur: Queued, note: Note)
    requires During(s, root, cur)
    ensures var s' := AddNote(s, note); During(s', root, cur) && Extends(s, s') && (Gap(note) ==> !NoGap(s'.notes))
  {
    Noted(s, note);
  }

  lemma LevelsNew(nodes: Nodes, queue: seq<Queued>, id: Id, node: Node, d: nat)
    requires Levels(nodes, queue, d) && node.depth == d + 1
    ensures Levels(nodes[id := node], queue, d)
  {
  }

  /** A new node linked to `cur`, whatever it stands for. */
  lemma JoinKeeps(s: State, s1: State, root: Id, cur: Queued, id: Id, node: Node, nb: Neighbor, s2: State)
    requires During(s, root, cur) && Admits(s, s1, id, node) && node.depth == cur.depth + 1
    requires ClubbedSound(s1.nodes, s1.clubbed) && s.clubbed.Keys <= s1.clubbed.Keys
    requires s2 == Link(s1, cur.id, id, nb)
    ensures During(s2, root, cur) && Extends(s, s2) && Drawn(s2, cur.id, id, nb)
  {
    AdmitParts(s, s1, root, id, node);
    LinkParts(s1, cur.id, id, nb);
    NewNodeKeeps(s, s1, s2, root, cur, id, node, nb);
    LevelsNew(s.nodes, s.queue, id, node, cur.depth);
  }

  lemma NewClubShape(s: State, c: Cluster, ns: string, cur: Queued, nb: Neighbor) returns (s1: State, node: Node)
    requires nb.Club? && AggregateId(cur.id, nb.info.kind) !in s.nodes && |s.nodes| < MAX_NODES
    ensures var id := AggregateId(cur.id, nb.info.kind);
            && Admits(s, s1, id, node) && node.depth == cur.depth + 1
            && s1.clubbed == Fold(s.clubbed, nb.info.kind, nb.items, id)
            && Visit(s, c, ns, cur, nb) == Link(s1, cur.id, id, nb)
  {
    s1 := AddAggregate(s, ns, cur.id, nb.info, nb.items, cur.depth + 1).s;
    node := s1.nodes[AggregateId(cur.id, nb.info.kind)];
  }

  lemma VisitNewClub(s: State, root: Id, c: Cluster, ns: string, cur: Queued, nb: Neighbor)
    requires During(s, root, cur) && nb.Club?
    requires AggregateId(cur.id, nb.info.kind) !in s.nodes && |s.nodes| < MAX_NODES
    ensures var s' := Visit(s, c, ns, cur, nb);
            During(s', root, cur) && Extends(s, s') && Represented(s', ns, cur.id, nb)
  {
    var id := AggregateId(cur.id, nb.info.kind);
    var s1, node := NewClubShape(s, c, ns, cur, nb);
    FoldSound(s.nodes, s.clubbed, nb.info.kind, nb.items, id, node);
    JoinKeeps(s, s1, root, cur, id, node, nb, Visit(s, c, ns, cur, nb));
  }

  lemma LinkDuring(s: State, root: Id, cur: Queued, other: Id, nb: Neighbor)
    requires During(s, root, cur) && other in s.nodes
    ensures var s' := Link(s, cur.id, other, nb);
            During(s', root, cur) && Extends(s, s') && Drawn(s', cur.id, other, nb) && s'.nodes == s.nodes && s'.clubbed == s.clubbed
  {
    LinkKeeps(s, root, cur.id, other, nb);
  }

  lemma ClubShape(s: State, c: Cluster, ns: string, cur: Queued, nb: Neighbor)
    requires nb.Club? && |s.nodes| <= MAX_NODES
    ensures var id := AggregateId(cur.id, nb.info.kind);
            && (id in s.nodes ==> Visit(s, c, ns, cur, nb) == Link(s, cur.id, id, nb))
            && (id !in s.nodes && |s.nodes| >= MAX_NODES ==> Visit(s, c, ns, cur, nb) == AddNote(s, NodeCap))
  {
  }

  lemma VisitClub(s: State, root: Id, c: Cluster, ns: string, cur: Queued, nb: Neighbor)
    requires During(s, root, cur) && nb.Club?
    ensures var s' := Visit(s, c, ns, cur, nb);
            During(s', root, cur) && Extends(s, s') && (NoGap(s'.notes) ==> Represented(s', ns, cur.id, nb))
  {
    var id := AggregateId(cur.id, nb.info.kind);
    ClubShape(s, c, ns, cur, nb);
    if id in s.nodes {
      LinkDuring(s, root, cur, id, nb);
    } else if |s.nodes| >= MAX_NODES {
      NoteKeeps(s, root, cur, NodeCap);
    } else {
      VisitNewClub(s, root, c, ns, cur, nb);
    }
  }

  /** The object the walk draws for a neighbour: the one already in hand, else the one read. */
  function Resolved(c: Cluster, info: Info, name: string, held: Option<Obj>): Option<Obj> {
    if held.Some? then held else match c.fetch(info, name) case Found(o) => Some(o) case _ => None
  }

  lemma EnqueueKeeps(s: State, root: Id, cur: Queued, q: Queued)
    requires During(s, root, cur) && Awaits(s.nodes, q) && q.depth == cur.depth + 1
    requires q.id !in Ids(s.popped) && q.id !in Ids(s.queue)
    ensures During(s.(queue := s.queue + [q]), root, cur)
  {
    EnqueueParts(s.nodes, s.popped, s.queue, q, cur.depth);
  }

  ghost predicate Fresh(s: State, c: Cluster, ns: string, nb: Neighbor) {
    && nb.Single? && |s.nodes| < MAX_NODES
    && PlaceId(ns, nb.info, nb.name) !in s.nodes && (nb.info.kind, nb.name) !in s.clubbed
    && (nb.held.None? ==> !c.fetch(nb.info, nb.name).Unreadable?)
  }

  lemma NewNodeShape(s: State, c: Cluster, ns: string, cur: Queued, nb: Neighbor) returns (s1: State, node: Node)
    requires Fresh(s, c, ns, nb)
    ensures var id := PlaceId(ns, nb.info, nb.name);
            var obj := Resolved(c, nb.info, nb.name, nb.held);
            var s2 := Link(s1, cur.id, id, nb);
            && Admits(s, s1, id, node) && s1.clubbed == s.clubbed
            && node.depth == cur.depth + 1 && node.info == nb.info && node.missing == obj.None?
            && Visit(s, c, ns, cur, nb) ==
               if obj.Some? then s2.(queue := s2.queue + [Queued(id, obj.value, nb.info, cur.depth + 1)]) else s2
  {
    var obj := Resolved(c, nb.info, nb.name, nb.held);
    s1 := AddNode(s, nb.info, ScopeOf(nb.info, ns), nb.name, obj, cur.depth + 1).s;
    node := s1.nodes[PlaceId(ns, nb.info, nb.name)];
  }

  lemma VisitNew(s: State, root: Id, c: Cluster, ns: string, cur: Queued, nb: Neighbor)
    requires During(s, root, cur) && Fresh(s, c, ns, nb)
    ensures var s' := Visit(s, c, ns, cur, nb);
            During(s', root, cur) && Extends(s, s') && Represented(s', ns, cur.id, nb)
  {
    var id := PlaceId(ns, nb.info, nb.name);
    var s1, node := NewNodeShape(s, c, ns, cur, nb);
    var s2 := Link(s1, cur.id, id, nb);
    JoinKeeps(s, s1, root, cur, id, node, nb, s2);
    var obj := Resolved(c, nb.info, nb.name, nb.held);
    if obj.Some? {
      NotQueued(s.nodes, s.queue, id);
      NotQueued(s.nodes, s.popped, id);
      EnqueueKeeps(s2, root, cur, Queued(id, obj.value, nb.info, cur.depth + 1));
    }
  }

  /** The cases in which a single neighbour is not a new node. */
  lemma SingleShape(s: State, c: Cluster, ns: string, cur: Queued, nb: Neighbor)
    requires nb.Single? && Shallow(s.nodes, cur.depth)
    ensures var id, key := PlaceId(ns, nb.info, nb.name), (nb.info.kind, nb.name);
            var unreadable := nb.held.None? && c.fetch(nb.info, nb.name).Unreadable?;
            && (key in s.clubbed ==> Visit(s, c, ns, cur, nb) == Link(s, cur.id, s.clubbed[key], nb))
            && (key !in s.clubbed && unreadable ==> Visit(s, c, ns, cur, nb) == AddNote(s, CouldNotRead(nb.info.kind, nb.name)))
            && (key !in s.clubbed && !unreadable && id in s.nodes ==> Visit(s, c, ns, cur, nb) == Link(s, cur.id, id, nb))
            && (key !in s.clubbed && !unreadable && id !in s.nodes && |s.nodes| >= MAX_NODES ==>
                  Visit(s, c, ns, cur, nb) == AddNote(s, NodeCap))
  {
  }

  lemma VisitKnown(s: State, root: Id, c: Cluster, ns: string, cur: Queued, nb: Neighbor)
    requires During(s, root, cur) && nb.Single? && !Fresh(s, c, ns, nb)
    ensures var s' := Visit(s, c, ns, cur, nb);
            During(s', root, cur) && Extends(s, s') && (NoGap(s'.notes) ==> Represented(s', ns, cur.id, nb))
  {
    var id := PlaceId(ns, nb.info, nb.name);
    DuringShallow(s, root, cur);
    SingleShape(s, c, ns, cur, nb);
    if (nb.info.kind, nb.name) in s.clubbed {
      LinkDuring(s, root, cur, s.clubbed[(nb.info.kind, nb.name)], nb);
    } else if nb.held.None? && c.fetch(nb.info, nb.name).Unreadable? {
      NoteKeeps(s, root, cur, CouldNotRead(nb.info.kind, nb.name));
    } else if id in s.nodes {
      LinkDuring(s, root, cur, id, nb);
    } else {
      NoteKeeps(s, root, cur, NodeCap);
    }
  }

  lemma VisitSingle(s: State, root: Id, c: Cluster, ns: string, cur: Queued, nb: Neighbor)
    requires During(s, root, cur) && nb.Single?
    ensures var s' := Visit(s, c, ns, cur, nb);
            During(s', root, cur) && Extends(s, s') && (NoGap(s'.notes) ==> Represented(s', ns, cur.id, nb))
  {
    if Fresh(s, c, ns, nb) { VisitNew(s, root, c, ns, cur, nb); } else { VisitKnown(s, root, c, ns, cur, nb); }
  }

  // ----- All neighbours of one object -----

  lemma ExtendsAgain(s: State, s1: State, s2: State)
    requires Extends(s, s1) && Extends(s1, s2)
    ensures Extends(s, s2)
  {
  }

  lemma RepresentedStays(s: State, s': State, ns: string, cur: Id, nb: Neighbor)
    requires Represented(s, ns, cur, nb) && Grows(s, s')
    ensures Represented(s', ns, cur, nb)
  {
    if nb.Single? && !(Within(s.nodes, cur, PlaceId(ns, nb.info, nb.name)) && Drawn(s, cur, PlaceId(ns, nb.info, nb.name), nb)) {
      var a: Id :| a.AggregateId? && a in s.nodes && Drawn(s, cur, a, nb);
      assert a in s'.nodes && Drawn(s', cur, a, nb);
    }
  }

  lemma VisitKeeps(s: State, root: Id, c: Cluster, ns: string, cur: Queued, nb: Neighbor)
    requires During(s, root, cur)
    ensures var s' := Visit(s, c, ns, cur, nb);
            During(s', root, cur) && Extends(s, s') && (NoGap(s'.notes) ==> Represented(s', ns, cur.id, nb))
  {
    if nb.Club? { VisitClub(s, root, c, ns, cur, nb); } else { VisitSingle(s, root, c, ns, cur, nb); }
  }

  ghost predicate AllRepresented(s: State, ns: string, cur: Id, nbs: seq<Neighbor>) {
    forall i | 0 <= i < |nbs| :: Represented(s, ns, cur, nbs[i])
  }

  lemma RepresentedSnoc(s: State, s': State, ns: string, cur: Id, nbs: seq<Neighbor>)
    requires nbs != [] && Extends(s, s')
    requires AllRepresented(s, ns, cur, nbs[..|nbs| - 1]) && Represented(s', ns, cur, nbs[|nbs| - 1])
    ensures AllRepresented(s', ns, cur, nbs)
  {
    forall i | 0 <= i < |nbs| ensures Represented(s', ns, cur, nbs[i]) {
      if i < |nbs| - 1 {
        assert Represented(s, ns, cur, nbs[..|nbs| - 1][i]);
        RepresentedStays(s, s', ns, cur, nbs[i]);
      }
    }
  }

  /** From `s` the expansion of `cur` reached `s'`, having dealt with `nbs`. */
  ghost predicate Dealt(s: State, s': State, root: Id, ns: string, cur: Queued, nbs: seq<Neighbor>) {
    && During(s', root, cur) && Extends(s, s')
    && (NoGap(s'.notes) ==> AllRepresented(s', ns, cur.id, nbs))
  }

  lemma DealtMore(s: State, s1: State, s2: State, root: Id, ns: string, cur: Queued, nbs: seq<Neighbor>)
    requires nbs != [] && Dealt(s, s1, root, ns, cur, nbs[..|nbs| - 1])
    requires During(s2, root, cur) && Extends(s1, s2)
    requires NoGap(s2.notes) ==> Represented(s2, ns, cur.id, nbs[|nbs| - 1])
    ensures Dealt(s, s2, root, ns, cur, nbs)
  {
    ExtendsAgain(s, s1, s2);
    if NoGap(s2.notes) { RepresentedSnoc(s1, s2, ns, cur.id, nbs); }
  }

  lemma {:induction false} VisitAllKeeps(s: State, root: Id, c: Cluster, ns: string, cur: Queued, nbs: seq<Neighbor>)
    requires During(s, root, cur)
    ensures Dealt(s, VisitAll(s, c, ns, cur, nbs), root, ns, cur, nbs)
  {
    if nbs != [] {
      var s1 := VisitAll(s, c, ns, cur, nbs[..|nbs| - 1]);
      VisitAllKeeps(s, root, c, ns, cur, nbs[..|nbs| - 1]);
      VisitKeeps(s1, root, c, ns, cur, nbs[|nbs| - 1]);
      DealtMore(s, s1, VisitAll(s, c, ns, cur, nbs), root, ns, cur, nbs);
    }
  }

  lemma NotesKeep(s: State, root: Id, cur: Queued, notes: seq<Note>)
    requires During(s, root, cur)
    ensures var s' := AddNotes(s, notes);
            During(s', root, cur) && Extends(s, s')
  {
    if notes != [] { NotesKeep(s, root, cur, notes[..|notes| - 1]); }
  }

  lemma ExpandKeeps(s: State, root: Id, c: Cluster, ns: string, cur: Queued)
    requires During(s, root, cur)
    ensures var s' := Expand(s, c, ns, cur);
            && During(s', root, cur) && Extends(s, s')
            && (NoGap(s'.notes) ==> AllRepresented(s', ns, cur.id, Neighbors(s, c, ns, cur).neighbors))
  {
    var d := Neighbors(s, c, ns, cur);
    var s1 := AddNotes(s, d.notes);
    NotesKeep(s, root, cur, d.notes);
    VisitAllKeeps(s1, root, c, ns, cur, d.neighbors);
    ExtendsAgain(s, s1, VisitAll(s1, c, ns, cur, d.neighbors));
  }

  // ----- The worklist loop -----

  /** The invariant between two turns of the loop. */
  ghost predicate Idle(s: State, root: Id, limit: nat) {
    && Good(s, root) && ClubbedSound(s.nodes, s.clubbed)
    && (s.queue != [] ==> Levels(s.nodes, s.queue, s.queue[0].depth))
    && (forall id :: id in s.nodes ==> s.nodes[id].depth <= limit)
  }

  lemma PopParts(nodes: Nodes, popped: seq<Queued>, q: Queued, rest: seq<Queued>)
    requires QueueSound(nodes, [q] + rest) && Once(nodes, popped, [q] + rest)
    ensures Awaits(nodes, q) && QueueSound(nodes, rest) && Once(nodes, popped + [q], rest)
  {
    var queue := [q] + rest;
    assert Awaits(nodes, queue[0]);
    assert Ids(queue) == {q.id} + Ids(rest);
    assert Ids(popped + [q]) == Ids(popped) + {q.id};
    forall i | 0 <= i < |rest| ensures rest[i].id != q.id && Awaits(nodes, rest[i]) { assert rest[i] == queue[i + 1]; }
    forall i | 0 <= i < |popped| ensures popped[i].id != q.id { assert popped[i] in popped; }
    forall i, j | 0 <= i < j < |rest| ensures rest[i].id != rest[j].id {
      assert rest[i] == queue[i + 1] && rest[j] == queue[j + 1];
    }
  }

  lemma PopLevels(nodes: Nodes, queue: seq<Queued>)
    requires queue != [] && Levels(nodes, queue, queue[0].depth)
    ensures Levels(nodes, queue[1..], queue[0].depth)
  {
  }

  lemma PopGood(s: State, root: Id)
    requires Good(s, root) && s.queue != []
    ensures Good(Pop(s), root) && Awaits(s.nodes, s.queue[0])
  {
    assert s.queue == [s.queue[0]] + s.queue[1..];
    PopParts(s.nodes, s.popped, s.queue[0], s.queue[1..]);
  }

  lemma PopKeeps(s: State, root: Id, limit: nat)
    requires Idle(s, root, limit) && s.queue != []
    ensures During(Pop(s), root, s.queue[0])
  {
    PopGood(s, root);
    PopLevels(s.nodes, s.queue);
  }

  lemma Settle(s: State, root: Id, cur: Queued, limit: nat)
    requires During(s, root, cur)
    requires forall id :: id in s.nodes ==> s.nodes[id].depth <= limit
    ensures Idle(s, root, limit)
  {
  }

  lemma TurnKeeps(s: State, root: Id, c: Cluster, ns: string, limit: nat)
    requires Idle(s, root, limit) && s.queue != []
    ensures Idle(Turn(s, c, ns, limit), root, limit)
    ensures Extends(Pop(s), Turn(s, c, ns, limit))
  {
    PopKeeps(s, root, limit);
    var cur := s.queue[0];
    if cur.depth < limit { ExpandKeeps(Pop(s), root, c, ns, cur); }
    Settle(Turn(s, c, ns, limit), root, cur, limit);
  }

  /** The walk keeps the graph well formed from any good start. */
  lemma {:induction false} WalkKeeps(s: State, root: Id, c: Cluster, ns: string, limit: nat)
    requires Idle(s, root, limit)
    ensures Idle(Walk(s, c, ns, limit), root, limit) && Walk(s, c, ns, limit).queue == []
    decreases MAX_NODES - |s.nodes| + |s.queue|
  {
    if s.queue != [] {
      TurnKeeps(s, root, c, ns, limit);
      WalkKeeps(Turn(s, c, ns, limit), root, c, ns, limit);
    }
  }

  lemma SeedShape(requested: int, ns: string, info: Info, name: string, obj: Obj) returns (node: Node)
    ensures var s := Seed(requested, ns, info, name, obj); var root := PlaceId(ns, info, name);
            && s.nodes == map[root := node] && s.nodeOrder == [root] && s.edges == map[] && s.edgeOrder == []
            && s.queue == [Queued(root, obj, info, 0)] && s.popped == [] && s.clubbed == map[]
    ensures FiledAt(PlaceId(ns, info, name), node) && node.depth == 0 && node.info == info
  {
    node := Seed(requested, ns, info, name, obj).nodes[PlaceId(ns, info, name)];
  }

  lemma OneIsOnce(nodes: Nodes, q: Queued)
    requires Awaits(nodes, q)
    ensures QueueSound(nodes, [q]) && Once(nodes, [], [q])
  {
    assert Ids([]) == {};
  }

  lemma OneIsIdle(s: State, root: Id, node: Node, q: Queued, limit: nat)
    requires s.nodes == map[root := node] && s.nodeOrder == [root] && s.edges == map[] && s.edgeOrder == []
    requires s.queue == [q] && s.popped == [] && s.clubbed == map[]
    requires q.id == root && root.ObjectId? && q.depth == 0 && node.depth == 0 && node.info == q.info && FiledAt(root, node)
    ensures Idle(s, root, limit)
  {
    assert Awaits(s.nodes, q);
    OneIsOnce(s.nodes, q);
    assert s.nodes.Keys == {root};
  }

  lemma SeedIsIdle(requested: int, ns: string, info: Info, name: string, obj: Obj, limit: nat)
    ensures var s := Seed(requested, ns, info, name, obj);
            Idle(s, PlaceId(ns, info, name), limit) && PlaceId(ns, info, name) in s.nodes
  {
    var node := SeedShape(requested, ns, info, name, obj);
    OneIsIdle(Seed(requested, ns, info, name, obj), PlaceId(ns, info, name), node, Queued(PlaceId(ns, info, name), obj, info, 0), limit);
  }

  lemma StaysThrough(s: State, t: State, u: State, root: Id)
    requires s.queue != [] && Extends(Pop(s), t) && root in s.nodes
    requires root in t.nodes ==> root in u.nodes && u.nodes[root] == t.nodes[root]
    requires t.notes <= u.notes
    ensures root in u.nodes && u.nodes[root] == s.nodes[root] && s.notes <= u.notes
  {
  }

  lemma PopsOnto(s: State, t: State, root: Id)
    requires s.queue != [] && Extends(Pop(s), t) && root in s.nodes
    ensures root in t.nodes
  {
  }

  lemma {:induction false} WalkKeepsFocus(s: State, root: Id, c: Cluster, ns: string, limit: nat)
    requires Idle(s, root, limit) && root in s.nodes
    ensures root in Walk(s, c, ns, limit).nodes && Walk(s, c, ns, limit).nodes[root] == s.nodes[root]
    ensures s.notes <= Walk(s, c, ns, limit).notes
    decreases MAX_NODES - |s.nodes| + |s.queue|
  {
    if s.queue != [] {
      TurnKeeps(s, root, c, ns, limit);
      PopsOnto(s, Turn(s, c, ns, limit), root);
      WalkKeepsFocus(Turn(s, c, ns, limit), root, c, ns, limit);
      StaysThrough(s, Turn(s, c, ns, limit), Walk(s, c, ns, limit), root);
    }
  }

  /** Every finished graph holds at most 150 nodes, each once and under its own
      identity; its edges are duplicate-free, join two present nodes and never loop;
      nothing was expanded twice; no node lies past the effective depth; and every
      node but the focus is joined to one exactly one hop nearer the focus. */
  lemma BuiltIsWellFormed(c: Cluster, ns: string, info: Info, name: string, requested: int)
    requires Built(c, ns, info, name, requested).Some?
    ensures var s := Built(c, ns, info, name, requested).value;
            var root := PlaceId(ns, info, name);
            && Good(s, root) && s.queue == []
            && root in s.nodes && s.nodes[root].depth == 0 && s.nodes[root].focus
            && (forall id :: id in s.nodes ==> s.nodes[id].depth <= EffectiveDepth(requested))
            && (requested > MAX_DEPTH ==> s.notes != [])
  {
    var obj := c.fetch(info, name).obj;
    var limit := EffectiveDepth(requested);
    var root := PlaceId(ns, info, name);
    var seed := Seed(requested, ns, info, name, obj);
    SeedIsIdle(requested, ns, info, name, obj, limit);
    WalkKeeps(seed, root, c, ns, limit);
    WalkKeepsFocus(seed, root, c, ns, limit);
  }
}
