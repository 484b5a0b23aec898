/** The builder as it runs: a read-through store in front of the cluster and a
    worklist over mutable maps, each method proved against its pure form. */
module GraphBuilder {
  import opened Optional
  import opened GraphModel
  import opened GraphReach
  import opened GraphWalk
  import opened GraphComplete
  import opened GraphLabels
  import Spec = GraphModel
  import StatusTally
  import Text

  /** The per-request read cache. `fetched` and `listed` log the reads that reached
      the cluster and got an answer. */
  class Store {
    const cluster: Cluster
    var objects: map<(Info, string), Option<Obj>>
    var lists: map<Info, seq<Obj>>
    ghost var fetched: seq<(Info, string)>
    ghost var listed: seq<Info>

    /** The cache holds only what the cluster answers, and nothing was read twice. */
    ghost predicate Valid()
      reads this
    {
      && Consistent(cluster)
      && (forall k :: k in objects ==>
            cluster.fetch(k.0, k.1) == if objects[k].Some? then Found(objects[k].value) else Absent)
      && (forall i :: i in lists ==> cluster.list(i).Listed? && cluster.list(i).items == lists[i])
      && NoDup(fetched) && (forall i | 0 <= i < |fetched| :: fetched[i] in objects)
      && NoDup(listed) && (forall i | 0 <= i < |listed| :: listed[i] in lists)
    }

    constructor (c: Cluster)
      requires Consistent(c)
      ensures Valid() && cluster == c && objects == map[] && lists == map[] && fetched == [] && listed == []
    {
      cluster, objects, lists, fetched, listed := c, map[], map[], [], [];
    }

    /** Reads one object, from the cache when it is there. A failed read is not cached. */
    method Get(info: Info, name: string) returns (r: Fetched)
      requires Valid()
      modifies this
      ensures Valid() && lists == old(lists) && listed == old(listed)
      ensures r == cluster.fetch(info, name)
      ensures fetched == if (info, name) in old(objects) || r.Unreadable? then old(fetched) else old(fetched) + [(info, name)]
    {
      if (info, name) in objects {
        var cached := objects[(info, name)];
        return if cached.Some? then Found(cached.value) else Absent;
      }
      r := cluster.fetch(info, name);
      if r.Unreadable? { return; }
      fetched := fetched + [(info, name)];
      objects := objects[(info, name) := if r.Found? then Some(r.obj) else None];
    }

    /** Reads the focus object: the first read of a request, straight from the cluster. */
    method GetStrict(info: Info, name: string) returns (r: Fetched)
      requires Valid() && objects == map[] && fetched == []
      modifies this
      ensures Valid() && lists == old(lists) && listed == old(listed)
      ensures r == cluster.fetch(info, name)
      ensures fetched == if r.Found? then [(info, name)] else []
    {
      r := cluster.fetch(info, name);
      if r.Found? {
        fetched := [(info, name)];
        objects := objects[(info, name) := Some(r.obj)];
      }
    }

    /** Lists one kind, from the cache when it is there; only the first listing reports
        truncation. Listed objects are cached too. */
    method List(info: Info) returns (r: Listing)
      requires Valid()
      modifies this
      ensures Valid() && fetched == old(fetched)
      ensures r.Listed? == cluster.list(info).Listed?
      ensures r.Listed? ==> r.items == cluster.list(info).items
                            && r.truncated == (cluster.list(info).truncated && info !in old(lists))
      ensures lists.Keys == if r.Listed? then old(lists.Keys) + {info} else old(lists.Keys)
      ensures listed == if r.ListFailed? || info in old(lists) then old(listed) else old(listed) + [info]
      ensures r.Listed? && info !in old(lists) ==> forall o :: o in r.items ==> (info, o.name) in objects
    {
      if info in lists {
        return Listed(lists[info], false);
      }
      r := cluster.list(info);
      if r.ListFailed? { return; }
      listed := listed + [info];
      lists := lists[info := r.items];
      Remember(info, r.items);
    }

    /** Caches what a listing returned. */
    method Remember(info: Info, items: seq<Obj>)
      requires Valid() && cluster.list(info).Listed? && forall o :: o in items ==> o in cluster.list(info).items
      modifies `objects
      ensures Valid() && forall o :: o in items ==> (info, o.name) in objects
    {
      var i := 0;
      while i < |items|
        invariant 0 <= i <= |items| && Valid() && forall j :: 0 <= j < i ==> (info, items[j].name) in objects
      {
        objects := objects[(info, items[i].name) := Some(items[i])];
        i := i + 1;
      }
    }
  }

  /** One request's graph under construction. */
  class Builder {
    const store: Store
    const ns: string
    var nodes: map<Id, Node>
    var nodeOrder: seq<Id>
    var edges: map<(Id, Id), Edge>
    var edgeOrder: seq<(Id, Id)>
    var queue: seq<Queued>
    var clubbed: map<(string, string), Id>
    var partial: bool
    var notes: seq<Note>
    ghost var popped: seq<Queued>

    ghost function State(): State
      reads this
    {
      Spec.State(nodes, nodeOrder, edges, edgeOrder, queue, popped, clubbed, notes)
    }

    /** The graph is marked partial exactly when it carries a note, and a kind whose
        listing was cut short is on record as truncated. */
    ghost predicate Valid()
      reads `nodes, `partial, `notes, store
    {
      && store.Valid() && |nodes| <= MAX_NODES
      && (partial <==> notes != [])
      && (forall i :: i in store.lists && store.cluster.list(i).truncated ==> Truncated(i.resource) in notes)
    }

    constructor (c: Cluster, namespace: string)
      requires Consistent(c)
      ensures Valid() && fresh(store) && store.cluster == c && ns == namespace && State() == EMPTY
      ensures store.fetched == [] && store.listed == []
    {
      store := new Store(c);
      ns := namespace;
      nodes, nodeOrder, edges, edgeOrder, queue, clubbed := map[], [], map[], [], [], map[];
      partial, notes, popped := false, [], [];
    }

    /** Records why the graph is not the whole truth, once per reason. */
    method Note(msg: Note)
      requires partial <==> notes != []
      modifies this
      ensures State() == Spec.AddNote(old(State()), msg) && partial && notes != []
      ensures old(Valid()) ==> Valid()
    {
      partial := true;
      if msg in notes { return; }
      notes := notes + [msg];
    }

    method AddNode(info: Info, namespace: string, name: string, obj: Option<Obj>, depth: nat)
        returns (id: Option<Id>, isNew: bool)
      requires Valid()
      modifies this
      ensures Valid()
      ensures Admission(State(), id, isNew) == Spec.AddNode(old(State()), info, namespace, name, obj, depth)
    {
      var key := NodeId(info, namespace, name);
      if key in nodes {
        if depth < nodes[key].depth {
          nodes := nodes[key := nodes[key].(depth := depth)];
        }
        return Some(key), false;
      }
      if |nodes| >= MAX_NODES {
        Note(NodeCap);
        return None, false;
      }
      var status := if obj.Some? then obj.value.status else "Missing";
      nodes := nodes[key := Spec.Node(info, namespace, name, status, depth, false, false, 0, obj.None?, None)];
      nodeOrder := nodeOrder + [key];
      return Some(key), true;
    }

    /** Admits one counted stand-in and records its members. */
    method AddAggregate(parent: Id, info: Info, items: seq<Obj>, depth: nat) returns (id: Option<Id>, isNew: bool)
      requires Valid()
      modifies this
      ensures Valid()
      ensures Admission(State(), id, isNew) == Spec.AddAggregate(old(State()), ns, parent, info, items, depth)
    {
      var key := AggregateId(parent, info.kind);
      AggregateIs(State(), ns, parent, info, items, depth, StatusTally.Tally(Statuses(items)));
      if key in nodes {
        return Some(key), false;
      }
      if |nodes| >= MAX_NODES {
        Note(NodeCap);
        return None, false;
      }
      var badge := StatusTally.TallyStatuses(Statuses(items));
      var node := Spec.Node(info, ns, "", badge, depth, false, true, |items|, false, None);
      nodes := nodes[key := node];
      nodeOrder := nodeOrder + [key];
      FoldMembers(info.kind, items, key);
      return Some(key), true;
    }

    /** Remembers which objects an aggregate stands for. */
    method FoldMembers(kind: string, items: seq<Obj>, key: Id)
      modifies `clubbed
      ensures clubbed == Fold(old(clubbed), kind, items, key)
    {
      var i := 0;
      while i < |items|
        invariant 0 <= i <= |items| && clubbed == Fold(old(clubbed), kind, items[..i], key)
      {
        assert items[..i + 1][..i] == items[..i];
        clubbed := clubbed[(kind, items[i].name) := key];
        i := i + 1;
      }
      assert items[..i] == items;
    }

    /** Names one more mechanism on an edge already drawn. */
    method Merge(key: (Id, Id), mechanism: string)
      requires key in edges
      modifies `edges
      ensures edges == old(edges)[key := old(edges[key]).(mechanism := MergeLabel(old(edges[key]).mechanism, mechanism))]
    {
      var e := edges[key];
      edges := edges[key := e.(mechanism := MergeLabel(e.mechanism, mechanism))];
    }

    method AddEdge(source: Id, target: Id, rel: Relation, mechanism: string)
      requires Valid()
      modifies `edges, `edgeOrder
      ensures Valid() && State() == Spec.AddEdge(old(State()), source, target, rel, mechanism)
      ensures Recorded(old(edges), edges, source, target, rel, mechanism)
    {
      EdgeRecords(State(), source, target, rel, mechanism);
      if source == target { return; }
      if (source, target) in edges {
        Merge((source, target), mechanism);
        return;
      }
      edges := edges[(source, target) := Edge(source, target, rel, mechanism)];
      edgeOrder := edgeOrder + [(source, target)];
    }

    method Link(cur: Id, other: Id, nb: Neighbor)
      requires Valid()
      modifies `edges, `edgeOrder
      ensures Valid() && State() == Spec.Link(old(State()), cur, other, nb)
    {
      if nb.inbound {
        AddEdge(other, cur, nb.rel, nb.mechanism);
        return;
      }
      AddEdge(cur, other, nb.rel, nb.mechanism);
    }

    /** Lists a kind, turning a failure or a short page into a note. */
    method ListNoted(info: Info) returns (r: Listing)
      requires Valid()
      modifies this, store
      ensures Valid()
      ensures r.Listed? == store.cluster.list(info).Listed? && (r.Listed? ==> r.items == store.cluster.list(info).items)
      ensures State() == AddNotes(old(State()), ListNotes(info, store.cluster.list(info)))
    {
      var known := info in store.lists;
      r := store.List(info);
      if r.ListFailed? {
        NoteAlone(State(), CouldNotList(info.resource));
        Note(CouldNotList(info.resource));
      } else if r.truncated {
        NoteAlone(State(), Truncated(info.resource));
        Note(Truncated(info.resource));
      } else if known && store.cluster.list(info).truncated {
        NoteAlone(State(), Truncated(info.resource));
      }
    }

    method OwnersOf(refs: seq<OwnerRef>) returns (out: seq<Neighbor>)
      ensures out == Owners(store.cluster, refs)
    {
      out := [];
      var i := 0;
      while i < |refs|
        invariant 0 <= i <= |refs| && out == Owners(store.cluster, refs[..i])
      {
        assert refs[..i + 1][..i] == refs[..i];
        var found := store.cluster.byGroupKind(refs[i].apiVersion, refs[i].kind);
        if found.Some? {
          var mechanism := if refs[i].controller then "controller" else "";
          out := out + [Single(found.value, refs[i].name, None, Owns, mechanism, true)];
        }
        i := i + 1;
      }
      assert refs[..i] == refs;
    }

    /** Splits the listed objects `uid` controls into those already drawn and the rest. */
    method SplitChildren(info: Info, items: seq<Obj>, uid: string) returns (drawn: seq<Obj>, undrawn: seq<Obj>)
      ensures drawn == Spec.Pick(nodes, info, ns, Controlled(items, uid), true)
      ensures undrawn == Spec.Pick(nodes, info, ns, Controlled(items, uid), false)
    {
      drawn, undrawn := [], [];
      var i := 0;
      while i < |items|
        invariant 0 <= i <= |items| && IsSplit(nodes, info, ns, items[..i], uid, drawn, undrawn)
      {
        SplitNext(nodes, info, ns, items, uid, i, drawn, undrawn);
        if ControlledBy(items[i].owners, uid) {
          if NodeId(info, ns, items[i].name) in nodes {
            drawn := drawn + [items[i]];
          } else {
            undrawn := undrawn + [items[i]];
          }
        }
        i := i + 1;
      }
      assert items[..i] == items;
    }

    /** Children not drawn yet become single neighbours or, past the bounds, one club. */
    method ClubOrSingles(cur: Queued, kind: string, info: Info, undrawn: seq<Obj>) returns (tail: seq<Neighbor>)
      requires Valid()
      modifies this
      ensures Valid() && tail == Tail(cur, info, kind, undrawn)
      ensures State() == AddNotes(old(State()), CapNotes(cur, info, undrawn))
    {
      NoteAlone(State(), FanOut(cur.info.kind, cur.obj.name, |undrawn|, info.resource));
      if undrawn == [] { return []; }
      var series := RunSeries(cur.info.group, cur.info.kind, kind);
      var overCap := |undrawn| > MAX_FAN_OUT;
      if overCap {
        Note(FanOut(cur.info.kind, cur.obj.name, |undrawn|, info.resource));
      }
      if overCap || (series && |undrawn| >= CLUB_FROM) {
        return [Club(info, undrawn, Owns, if series then "runs" else "", false)];
      }
      return AsSingles(info, undrawn);
    }

    /** The children of one kind: those already drawn keep their node, the rest are
        drawn one by one or clubbed. */
    method ChildrenOfKind(cur: Queued, kind: string) returns (out: seq<Neighbor>)
      requires Valid()
      modifies this, store
      ensures Valid()
      ensures var d := Spec.ChildrenOfKind(old(State()), store.cluster, ns, cur, kind);
              out == d.neighbors && State() == AddNotes(old(State()), d.notes)
    {
      NoteAlone(State(), NodeCap);
      var found := store.cluster.byKind(kind);
      if found.None? { return []; }
      var info := found.value;
      var listing := ListNoted(info);
      if listing.ListFailed? { return []; }
      var drawn, undrawn := SplitChildren(info, listing.items, cur.obj.uid);
      var tail := ClubOrSingles(cur, kind, info, undrawn);
      out := AsSingles(info, drawn) + tail;
      KindIs(old(State()), store.cluster, ns, cur, kind, info, drawn, undrawn);
      NotesTail(old(State()), ListNotes(info, store.cluster.list(info)), CapNotes(cur, info, undrawn));
    }

    method Children(cur: Queued) returns (out: seq<Neighbor>)
      requires Valid()
      modifies this, store
      ensures Valid()
      ensures var d := Spec.Children(old(State()), store.cluster, ns, cur, OwnerChildren(cur.info.group, cur.info.kind));
              out == d.neighbors && State() == AddNotes(old(State()), d.notes)
    {
      var kinds := OwnerChildren(cur.info.group, cur.info.kind);
      out := [];
      var i := 0;
      while i < |kinds|
        invariant 0 <= i <= |kinds| && Valid()
        invariant var d := Spec.Children(old(State()), store.cluster, ns, cur, kinds[..i]);
                  out == d.neighbors && State() == AddNotes(old(State()), d.notes)
      {
        assert kinds[..i + 1][..i] == kinds[..i];
        ghost var before := Spec.Children(old(State()), store.cluster, ns, cur, kinds[..i]);
        ghost var last := Spec.ChildrenOfKind(old(State()), store.cluster, ns, cur, kinds[i]);
        SameChildren(old(State()), State(), store.cluster, ns, cur, kinds[i]);
        var more := ChildrenOfKind(cur, kinds[i]);
        NotesTail(old(State()), before.notes, last.notes);
        out := out + more;
        i := i + 1;
      }
      assert kinds[..i] == kinds;
    }

    method NoteAll(more: seq<Note>)
      requires Valid()
      modifies this
      ensures Valid() && State() == AddNotes(old(State()), more)
    {
      var i := 0;
      while i < |more|
        invariant 0 <= i <= |more| && Valid() && State() == AddNotes(old(State()), more[..i])
      {
        assert more[..i + 1][..i] == more[..i];
        Note(more[i]);
        i := i + 1;
      }
      assert more[..i] == more;
    }

    /** Every relation one object takes part in. */
    method Neighbors(cur: Queued) returns (out: seq<Neighbor>)
      requires Valid()
      modifies this, store
      ensures Valid()
      ensures var d := Spec.Neighbors(old(State()), store.cluster, ns, cur);
              out == d.neighbors && State() == AddNotes(old(State()), d.notes)
    {
      var owners := OwnersOf(cur.obj.owners);
      var kids := Children(cur);
      ghost var before := State();
      var refs := store.cluster.refs(cur.info, cur.obj);
      NoteAll(refs.notes);
      NotesTail(old(State()), Spec.Children(old(State()), store.cluster, ns, cur,
                                            OwnerChildren(cur.info.group, cur.info.kind)).notes, refs.notes);
      out := owners + kids + refs.neighbors;
    }

    method VisitClub(cur: Queued, nb: Neighbor)
      requires Valid() && nb.Club?
      modifies this
      ensures Valid() && State() == Spec.Visit(old(State()), store.cluster, ns, cur, nb)
    {
      ClubVisitIs(State(), store.cluster, ns, cur, nb);
      var agg, _ := AddAggregate(cur.id, nb.info, nb.items, cur.depth + 1);
      if agg.Some? { Link(cur.id, agg.value, nb); }
    }

    /** Draws a neighbour whose object is settled, and queues it when it is new. */
    method Draw(cur: Queued, nb: Neighbor, obj: Option<Obj>)
      requires Valid() && nb.Single? && (nb.info.kind, nb.name) !in clubbed
      requires nb.held.None? ==> !store.cluster.fetch(nb.info, nb.name).Unreadable?
      requires obj == Resolved(store.cluster, nb.info, nb.name, nb.held)
      modifies this
      ensures Valid() && State() == Spec.Visit(old(State()), store.cluster, ns, cur, nb)
    {
      var id, isNew := AddNode(nb.info, ScopeOf(nb.info, ns), nb.name, obj, cur.depth + 1);
      if id.None? { return; }
      Link(cur.id, id.value, nb);
      if isNew && obj.Some? {
        queue := queue + [Queued(id.value, obj.value, nb.info, cur.depth + 1)];
      }
    }

    /** Resolves one neighbour of `cur` into a node, an edge and a queue entry. */
    method Visit(cur: Queued, nb: Neighbor)
      requires Valid()
      modifies this, store
      ensures Valid() && State() == Spec.Visit(old(State()), store.cluster, ns, cur, nb)
    {
      if nb.Club? {
        VisitClub(cur, nb);
        return;
      }
      if (nb.info.kind, nb.name) in clubbed {
        Link(cur.id, clubbed[(nb.info.kind, nb.name)], nb);
        return;
      }
      var obj := nb.held;
      if obj.None? {
        var read := store.Get(nb.info, nb.name);
        if read.Unreadable? {
          Note(CouldNotRead(nb.info.kind, nb.name));
          return;
        }
        obj := if read.Found? then Some(read.obj) else None;
      }
      Draw(cur, nb, obj);
    }

    method Expand(cur: Queued)
      requires Valid()
      modifies this, store
      ensures Valid() && State() == Spec.Expand(old(State()), store.cluster, ns, cur)
    {
      ExpandIs(State(), store.cluster, ns, cur);
      var nbs := Neighbors(cur);
      VisitEach(cur, nbs);
    }

    method VisitEach(cur: Queued, nbs: seq<Neighbor>)
      requires Valid()
      modifies this, store
      ensures Valid() && State() == VisitAll(old(State()), store.cluster, ns, cur, nbs)
    {
      var i := 0;
      while i < |nbs|
        invariant 0 <= i <= |nbs| && Valid() && State() == VisitAll(old(State()), store.cluster, ns, cur, nbs[..i])
      {
        VisitAllNext(old(State()), store.cluster, ns, cur, nbs, i);
        Visit(cur, nbs[i]);
        i := i + 1;
      }
      assert nbs[..i] == nbs;
    }

    /** The worklist loop. */
    method Drain(depth: nat)
      requires Valid()
      modifies this, store
      ensures Valid() && State() == Walk(old(State()), store.cluster, ns, depth)
    {
      while queue != []
        invariant Valid() && Walk(State(), store.cluster, ns, depth) == Walk(old(State()), store.cluster, ns, depth)
        decreases MAX_NODES - |nodes| + |queue|
      {
        ghost var before := State();
        var cur := queue[0];
        queue := queue[1..];
        popped := popped + [cur];
        assert State() == Pop(before);
        if cur.depth < depth { Expand(cur); }
        assert State() == Turn(before, store.cluster, ns, depth);
      }
    }

    method Focus(info: Info, name: string, focus: Obj)
      requires Valid() && nodes == map[] && queue == []
      modifies this
      ensures Valid()
      ensures var id := PlaceId(ns, info, name);
              var a := Spec.AddNode(old(State()), info, ScopeOf(info, ns), name, Some(focus), 0);
              State() == a.s.(nodes := a.s.nodes[id := a.s.nodes[id].(focus := true)], queue := [Queued(id, focus, info, 0)])
    {
      var id, _ := AddNode(info, ScopeOf(info, ns), name, Some(focus), 0);
      nodes := nodes[id.value := nodes[id.value].(focus := true)];
      queue := queue + [Queued(id.value, focus, info, 0)];
    }

    /** Walks outwards from the focus object; false when it cannot be read. */
    method Build(info: Info, name: string, requested: int) returns (ok: bool)
      requires Valid() && State() == EMPTY && store.objects == map[] && store.fetched == []
      modifies this, store
      ensures Valid() && ok == Built(store.cluster, ns, info, name, requested).Some?
      ensures ok ==> State() == Built(store.cluster, ns, info, name, requested).value
    {
      var depth := if requested <= 0 then DEFAULT_DEPTH else requested;
      if depth > MAX_DEPTH {
        Note(DepthClamped(depth));
        depth := MAX_DEPTH;
      }
      var focus := store.GetStrict(info, name);
      if !focus.Found? { return false; }
      Focus(info, name, focus.obj);
      Drain(depth);
      return true;
    }
  }

  function CapNotes(cur: Queued, info: Info, undrawn: seq<Obj>): seq<Note> {
    if |undrawn| > MAX_FAN_OUT then [FanOut(cur.info.kind, cur.obj.name, |undrawn|, info.resource)] else []
  }

  /** A new pair gets an edge that says what was met; a known one keeps its relation and names one
      more mechanism, if it is new; a self-loop is not drawn; and every other edge stays. */
  ghost predicate Recorded(edges: Edges, edges': Edges, source: Id, target: Id, rel: Relation, mechanism: string) {
    var pair := (source, target);
    && (forall e :: e in edges && e != pair ==> e in edges' && edges'[e] == edges[e])
    && edges'.Keys == edges.Keys + (if source == target then {} else {pair})
    && (source != target && pair !in edges ==> edges'[pair] == Edge(source, target, rel, mechanism))
    && (source != target && pair in edges ==> Merged(edges[pair], edges'[pair], mechanism))
  }

  ghost predicate Merged(e: Edge, e': Edge, mechanism: string) {
    && e' == e.(mechanism := e'.mechanism)
    && (!Text.Holds(mechanism, ", ") ==>
          Parts(e'.mechanism) == Parts(e.mechanism) + if mechanism == "" || mechanism in Parts(e.mechanism) then [] else [mechanism])
  }

  lemma EdgeRecords(s: State, source: Id, target: Id, rel: Relation, mechanism: string)
    ensures Recorded(s.edges, Spec.AddEdge(s, source, target, rel, mechanism).edges, source, target, rel, mechanism)
  {
    if (source, target) in s.edges { MergeReads(s.edges[(source, target)].mechanism, mechanism); }
  }

  lemma MergeReads(existing: string, add: string)
    ensures !Text.Holds(add, ", ") ==>
            Parts(MergeLabel(existing, add)) == Parts(existing) + if add == "" || add in Parts(existing) then [] else [add]
  {
    if !Text.Holds(add, ", ") { MergeAppends(existing, add); }
  }

  lemma VisitAllNext(s: State, c: Cluster, ns: string, cur: Queued, nbs: seq<Neighbor>, i: nat)
    requires i < |nbs| && |s.nodes| <= MAX_NODES
    ensures VisitAll(s, c, ns, cur, nbs[..i + 1]) == Spec.Visit(VisitAll(s, c, ns, cur, nbs[..i]), c, ns, cur, nbs[i])
  {
    assert nbs[..i + 1][..i] == nbs[..i];
  }

  /** What admitting a stand-in does. */
  lemma AggregateIs(s: State, ns: string, parent: Id, info: Info, items: seq<Obj>, depth: nat, badge: string)
    requires badge == StatusTally.Tally(Statuses(items))
    ensures var id := AggregateId(parent, info.kind);
            Spec.AddAggregate(s, ns, parent, info, items, depth) ==
            if id in s.nodes then Admission(s, Some(id), false)
            else if |s.nodes| >= MAX_NODES then Admission(Spec.AddNote(s, NodeCap), None, false)
            else
              var node := Spec.Node(info, ns, "", badge, depth, false, true, |items|, false, None);
              Admission(s.(nodes := s.nodes[id := node], nodeOrder := s.nodeOrder + [id],
                           clubbed := Fold(s.clubbed, info.kind, items, id)), Some(id), true)
  {
  }

  lemma ClubVisitIs(s: State, c: Cluster, ns: string, cur: Queued, nb: Neighbor)
    requires nb.Club? && |s.nodes| <= MAX_NODES
    ensures var a := Spec.AddAggregate(s, ns, cur.id, nb.info, nb.items, cur.depth + 1);
            Spec.Visit(s, c, ns, cur, nb) == if a.id.None? then a.s else Spec.Link(a.s, cur.id, a.id.value, nb)
  {
  }

  lemma ExpandIs(s: State, c: Cluster, ns: string, cur: Queued)
    requires |s.nodes| <= MAX_NODES
    ensures var d := Spec.Neighbors(s, c, ns, cur);
            Spec.Expand(s, c, ns, cur) == VisitAll(AddNotes(s, d.notes), c, ns, cur, d.neighbors)
  {
  }

  lemma KindIs(s: State, c: Cluster, ns: string, cur: Queued, kind: string, info: Info, drawn: seq<Obj>, undrawn: seq<Obj>)
    requires c.byKind(kind) == Some(info) && c.list(info).Listed?
    requires drawn == Spec.Pick(s.nodes, info, ns, Controlled(c.list(info).items, cur.obj.uid), true)
    requires undrawn == Spec.Pick(s.nodes, info, ns, Controlled(c.list(info).items, cur.obj.uid), false)
    ensures Spec.ChildrenOfKind(s, c, ns, cur, kind) ==
            Derived(AsSingles(info, drawn) + Tail(cur, info, kind, undrawn),
                    ListNotes(info, c.list(info)) + CapNotes(cur, info, undrawn))
  {
  }

  lemma NotesTail(s: State, a: seq<Note>, b: seq<Note>)
    ensures AddNotes(AddNotes(s, a), b) == AddNotes(s, a + b)
  {
    if b == [] {
      assert a + b == a;
    } else {
      NotesTail(s, a, b[..|b| - 1]);
      assert (a + b)[..|a + b| - 1] == a + b[..|b| - 1];
    }
  }

  /** Notes do not change which children are already drawn. */
  lemma SameChildren(s: State, s': State, c: Cluster, ns: string, cur: Queued, kind: string)
    requires s.nodes == s'.nodes
    ensures Spec.ChildrenOfKind(s, c, ns, cur, kind) == Spec.ChildrenOfKind(s', c, ns, cur, kind)
  {
  }

  lemma NoteAlone(s: State, note: Note)
    ensures AddNotes(s, [note]) == Spec.AddNote(s, note) && AddNotes(s, []) == s
    ensures note in s.notes ==> Spec.AddNote(s, note) == s
  {
    assert [note][..0] == [];
  }

  lemma PickSnoc(nodes: map<Id, Node>, info: Info, ns: string, owned: seq<Obj>, o: Obj, drawn: bool)
    ensures Spec.Pick(nodes, info, ns, owned + [o], drawn) ==
            Spec.Pick(nodes, info, ns, owned, drawn) + if (NodeId(info, ns, o.name) in nodes) == drawn then [o] else []
  {
    assert (owned + [o])[..|owned|] == owned;
  }

  lemma ControlledNext(items: seq<Obj>, uid: string, i: nat)
    requires i < |items|
    ensures Controlled(items[..i + 1], uid) ==
            if ControlledBy(items[i].owners, uid) then Controlled(items[..i], uid) + [items[i]] else Controlled(items[..i], uid)
  {
    assert items[..i + 1][..i] == items[..i];
  }

  /** The listed objects `uid` controls, those drawn already and the rest. */
  predicate IsSplit(nodes: map<Id, Node>, info: Info, ns: string, items: seq<Obj>, uid: string, drawn: seq<Obj>, undrawn: seq<Obj>) {
    && drawn == Spec.Pick(nodes, info, ns, Controlled(items, uid), true)
    && undrawn == Spec.Pick(nodes, info, ns, Controlled(items, uid), false)
  }

  lemma SplitNext(nodes: map<Id, Node>, info: Info, ns: string, items: seq<Obj>, uid: string, i: nat, drawn: seq<Obj>, undrawn: seq<Obj>)
    requires i < |items| && IsSplit(nodes, info, ns, items[..i], uid, drawn, undrawn)
    ensures var ours, there := ControlledBy(items[i].owners, uid), NodeId(info, ns, items[i].name) in nodes;
            IsSplit(nodes, info, ns, items[..i + 1], uid,
                    if ours && there then drawn + [items[i]] else drawn, if ours && !there then undrawn + [items[i]] else undrawn)
  {
    ControlledNext(items, uid, i);
    if ControlledBy(items[i].owners, uid) {
      PickSnoc(nodes, info, ns, Controlled(items[..i], uid), items[i], true);
      PickSnoc(nodes, info, ns, Controlled(items[..i], uid), items[i], false);
    }
  }
}
