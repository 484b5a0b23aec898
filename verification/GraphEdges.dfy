/** What the edges of a graph say: which relation each one carries, towards which end, and
    which mechanisms its label names, told from the neighbours that were met and not from how
    edges are recorded. */
module GraphEdges {
  import opened Optional
  import opened GraphModel
  import opened GraphReach
  import opened GraphWalk
  import opened GraphComplete
  import opened GraphLabels
  import Text

  // ----- What an object is related to -----

  /** An owner that `obj` names: drawn towards the object, and its controller when it says so. */
  ghost predicate FromOwner(c: Cluster, obj: Obj, ref: OwnerRef, nb: Neighbor) {
    && ref in obj.owners && c.byGroupKind(ref.apiVersion, ref.kind) == Some(nb.info)
    && nb.Single? && nb.name == ref.name && nb.held == None && nb.inbound && nb.rel == Owns
    && (nb.mechanism == if ref.controller then "controller" else "")
  }

  ghost predicate ControlledItem(c: Cluster, info: Info, uid: string, o: Obj) {
    c.list(info).Listed? && o in c.list(info).items && ControlledBy(o.owners, uid)
  }

  /** Listed objects that `cur` controls: drawn away from it, one by one, or as one club of more
      than 24, or of two and more when they are a series of runs. */
  ghost predicate FromChildren(c: Cluster, cur: Queued, kind: string, nb: Neighbor) {
    var series := RunSeries(cur.info.group, cur.info.kind, kind);
    && kind in OwnerChildren(cur.info.group, cur.info.kind) && c.byKind(kind) == Some(nb.info)
    && !nb.inbound && nb.rel == Owns
    && match nb
       case Single(info, name, held, _, mechanism, _) =>
         held.Some? && held.value.name == name && ControlledItem(c, info, cur.obj.uid, held.value) && mechanism == ""
       case Club(info, items, _, mechanism, _) =>
         && (forall o :: o in items ==> ControlledItem(c, info, cur.obj.uid, o))
         && (|items| > 24 || (series && |items| >= 2)) && mechanism == if series then "runs" else ""
  }

  /** The neighbour states a relation the object takes part in. */
  ghost predicate Related(c: Cluster, cur: Queued, nb: Neighbor) {
    || (exists ref :: FromOwner(c, cur.obj, ref, nb))
    || (exists kind :: FromChildren(c, cur, kind, nb))
    || nb in c.refs(cur.info, cur.obj).neighbors
  }

  /** Every owner reference of a known type becomes one such neighbour, and nothing else does. */
  lemma {:induction false} OwnersAreExact(c: Cluster, refs: seq<OwnerRef>, nb: Neighbor)
    ensures nb in Owners(c, refs) <==>
            exists ref :: ref in refs && c.byGroupKind(ref.apiVersion, ref.kind) == Some(nb.info)
                          && nb == Single(nb.info, ref.name, None, Owns, if ref.controller then "controller" else "", true)
  {
    if refs != [] {
      var init, last := refs[..|refs| - 1], refs[|refs| - 1];
      OwnersAreExact(c, init, nb);
      assert refs == init + [last];
      assert last in refs;
    }
  }

  lemma SinglesAreChildren(c: Cluster, cur: Queued, kind: string, info: Info, items: seq<Obj>, nb: Neighbor)
    requires kind in OwnerChildren(cur.info.group, cur.info.kind) && c.byKind(kind) == Some(info)
    requires forall o :: o in items ==> ControlledItem(c, info, cur.obj.uid, o)
    requires nb in AsSingles(info, items)
    ensures FromChildren(c, cur, kind, nb)
  {
    var i :| 0 <= i < |items| && AsSingles(info, items)[i] == nb;
    assert items[i] in items;
  }

  lemma TailIsChildren(c: Cluster, cur: Queued, kind: string, info: Info, items: seq<Obj>, nb: Neighbor)
    requires kind in OwnerChildren(cur.info.group, cur.info.kind) && c.byKind(kind) == Some(info)
    requires forall o :: o in items ==> ControlledItem(c, info, cur.obj.uid, o)
    requires nb in Tail(cur, info, kind, items)
    ensures FromChildren(c, cur, kind, nb)
  {
    if nb.Single? { SinglesAreChildren(c, cur, kind, info, items, nb); }
  }

  lemma KindIsChildren(s: State, c: Cluster, ns: string, cur: Queued, kind: string, nb: Neighbor)
    requires kind in OwnerChildren(cur.info.group, cur.info.kind) && nb in ChildrenOfKind(s, c, ns, cur, kind).neighbors
    ensures FromChildren(c, cur, kind, nb)
  {
    var info := c.byKind(kind).value;
    var owned := Controlled(c.list(info).items, cur.obj.uid);
    var drawn, undrawn := Pick(s.nodes, info, ns, owned, true), Pick(s.nodes, info, ns, owned, false);
    KindIsListed(s, c, ns, cur, kind, info);
    if nb in AsSingles(info, drawn) {
      SinglesAreChildren(c, cur, kind, info, drawn, nb);
    } else {
      TailIsChildren(c, cur, kind, info, undrawn, nb);
    }
  }

  ghost predicate AnyClub(nbs: seq<Neighbor>) {
    exists nb :: nb in nbs && nb.Club?
  }

  /** More than 24 objects, or two and more of a series of runs. */
  predicate ClubsUp(cur: Queued, kind: string, n: nat) {
    n > 24 || (RunSeries(cur.info.group, cur.info.kind, kind) && n >= 2)
  }

  lemma TailClubs(cur: Queued, info: Info, kind: string, undrawn: seq<Obj>)
    ensures AnyClub(Tail(cur, info, kind, undrawn)) <==> ClubsUp(cur, kind, |undrawn|)
    ensures forall nb :: nb in Tail(cur, info, kind, undrawn) && nb.Club? ==> nb.items == undrawn
  {
    var tail := Tail(cur, info, kind, undrawn);
    if ClubsUp(cur, kind, |undrawn|) { assert tail[0].Club? && tail[0] in tail; }
  }

  /** The children of one listed kind: those drawn already stay single and the rest are clubbed,
      as one counted club of all of them, exactly when they are more than 24, or two and more of
      a series of runs. */
  lemma ClubbedExactly(s: State, c: Cluster, ns: string, cur: Queued, kind: string)
    requires c.byKind(kind).Some? && c.list(c.byKind(kind).value).Listed?
    ensures var info := c.byKind(kind).value;
            var nbs := ChildrenOfKind(s, c, ns, cur, kind).neighbors;
            var undrawn := Pick(s.nodes, info, ns, Controlled(c.list(info).items, cur.obj.uid), false);
            && (AnyClub(nbs) <==> ClubsUp(cur, kind, |undrawn|))
            && (forall nb :: nb in nbs && nb.Club? ==> nb.items == undrawn)
  {
    var info := c.byKind(kind).value;
    var owned := Controlled(c.list(info).items, cur.obj.uid);
    var undrawn := Pick(s.nodes, info, ns, owned, false);
    KindIsListed(s, c, ns, cur, kind, info);
    TailClubs(cur, info, kind, undrawn);
    var singles, tail := AsSingles(info, Pick(s.nodes, info, ns, owned, true)), Tail(cur, info, kind, undrawn);
    assert forall nb :: nb in singles + tail <==> nb in singles || nb in tail;
  }

  /** More than 24 undrawn children are noted with their number, whatever becomes of them; so is a
      listing that was cut short or failed; and nothing else is. */
  lemma KindNotesExactly(s: State, c: Cluster, ns: string, cur: Queued, kind: string, note: Note)
    requires c.byKind(kind).Some?
    ensures var info := c.byKind(kind).value;
            note in ChildrenOfKind(s, c, ns, cur, kind).notes <==>
            if c.list(info).ListFailed? then note == CouldNotList(info.resource)
            else
              var undrawn := Pick(s.nodes, info, ns, Controlled(c.list(info).items, cur.obj.uid), false);
              || (c.list(info).truncated && note == Truncated(info.resource))
              || (|undrawn| > 24 && note == FanOut(cur.info.kind, cur.obj.name, |undrawn|, info.resource))
  {
  }

  lemma {:induction false} ChildrenAreChildren(s: State, c: Cluster, ns: string, cur: Queued, kinds: seq<string>, nb: Neighbor)
    requires (forall kind :: kind in kinds ==> kind in OwnerChildren(cur.info.group, cur.info.kind))
    requires nb in Children(s, c, ns, cur, kinds).neighbors
    ensures exists kind :: FromChildren(c, cur, kind, nb)
  {
    if kinds != [] {
      if nb in Children(s, c, ns, cur, kinds[..|kinds| - 1]).neighbors {
        ChildrenAreChildren(s, c, ns, cur, kinds[..|kinds| - 1], nb);
      } else {
        KindIsChildren(s, c, ns, cur, kinds[|kinds| - 1], nb);
      }
    }
  }

  /** Every neighbour states a relation the object really takes part in, in its true direction. */
  lemma NeighborsAreRelated(s: State, c: Cluster, ns: string, cur: Queued, nb: Neighbor)
    requires nb in Neighbors(s, c, ns, cur).neighbors
    ensures Related(c, cur, nb)
  {
    var kinds := OwnerChildren(cur.info.group, cur.info.kind);
    if nb in Owners(c, cur.obj.owners) {
      OwnersAreExact(c, cur.obj.owners, nb);
      var ref :| ref in cur.obj.owners && c.byGroupKind(ref.apiVersion, ref.kind) == Some(nb.info)
                 && nb == Single(nb.info, ref.name, None, Owns, if ref.controller then "controller" else "", true);
      assert FromOwner(c, cur.obj, ref, nb);
    } else if nb in Children(s, c, ns, cur, kinds).neighbors {
      ChildrenAreChildren(s, c, ns, cur, kinds, nb);
    }
  }

  // ----- The neighbours met -----

  /** A neighbour met: the ordered pair it joins, its relation and its mechanism. */
  datatype Meeting = Meeting(source: Id, target: Id, rel: Relation, mechanism: string)

  function Towards(cur: Id, other: Id, nb: Neighbor): Meeting {
    Meeting(if nb.inbound then other else cur, if nb.inbound then cur else other, nb.rel, nb.mechanism)
  }

  /** The node that stands for a neighbour once it has been looked at; none when it was given up. */
  function StandsFor(s: State, c: Cluster, ns: string, cur: Id, nb: Neighbor): Option<Id> {
    var own := if nb.Club? then AggregateId(cur, nb.info.kind) else PlaceId(ns, nb.info, nb.name);
    if nb.Single? && (nb.info.kind, nb.name) in s.clubbed then Some(s.clubbed[(nb.info.kind, nb.name)])
    else if nb.Single? && nb.held.None? && c.fetch(nb.info, nb.name).Unreadable? then None
    else if own in s.nodes || |s.nodes| < 150 then Some(own)
    else None
  }

  /** An object that is its own neighbour meets nobody. */
  function Meets(s: State, c: Cluster, ns: string, cur: Id, nb: Neighbor): seq<Meeting> {
    var other := StandsFor(s, c, ns, cur, nb);
    if other.None? || other.value == cur then [] else [Towards(cur, other.value, nb)]
  }

  function MetByAll(s: State, c: Cluster, ns: string, cur: Queued, nbs: seq<Neighbor>): seq<Meeting>
    requires |s.nodes| <= MAX_NODES
  {
    if nbs == [] then []
    else
      var init, last := nbs[..|nbs| - 1], nbs[|nbs| - 1];
      MetByAll(s, c, ns, cur, init) + Meets(VisitAll(s, c, ns, cur, init), c, ns, cur.id, last)
  }

  /** The neighbours met in one turn of the worklist loop. */
  function MetByTurn(s: State, c: Cluster, ns: string, limit: nat): seq<Meeting>
    requires s.queue != [] && |s.nodes| <= MAX_NODES
  {
    var cur := s.queue[0];
    if cur.depth >= limit then []
    else
      var d := Neighbors(Pop(s), c, ns, cur);
      MetByAll(AddNotes(Pop(s), d.notes), c, ns, cur, d.neighbors)
  }

  function MetByWalk(s: State, c: Cluster, ns: string, limit: nat): seq<Meeting>
    requires |s.nodes| <= MAX_NODES
    decreases MAX_NODES - |s.nodes| + |s.queue|
  {
    if s.queue == [] then [] else MetByTurn(s, c, ns, limit) + MetByWalk(Turn(s, c, ns, limit), c, ns, limit)
  }

  /** All the neighbours met while a graph is built, in order. */
  function MetByBuild(c: Cluster, ns: string, info: Info, name: string, requested: int): seq<Meeting> {
    match c.fetch(info, name)
    case Found(obj) => MetByWalk(Seed(requested, ns, info, name, obj), c, ns, EffectiveDepth(requested))
    case _ => []
  }

  // ----- What the meetings say of a pair -----

  /** The meetings of one ordered pair. */
  function Of(met: seq<Meeting>, e: (Id, Id)): (r: seq<Meeting>)
    ensures forall m :: m in r <==> m in met && (m.source, m.target) == e
  {
    if met == [] then []
    else
      var last := met[|met| - 1];
      Of(met[..|met| - 1], e) + if (last.source, last.target) == e then [last] else []
  }

  function Mechanisms(met: seq<Meeting>): (r: seq<string>)
    ensures |r| == |met| && forall i :: 0 <= i < |r| ==> r[i] == met[i].mechanism
  {
    seq(|met|, i requires 0 <= i < |met| => met[i].mechanism)
  }

  /** The pairs met, by first appearance. */
  function Pairs(met: seq<Meeting>): (r: seq<(Id, Id)>)
    ensures forall e :: e in r <==> exists m :: m in met && (m.source, m.target) == e
    ensures forall i, j | 0 <= i < j < |r| :: r[i] != r[j]
  {
    if met == [] then []
    else
      var before, last := Pairs(met[..|met| - 1]), met[|met| - 1];
      if (last.source, last.target) in before then before else before + [(last.source, last.target)]
  }

  /** An edge says what its pair's meetings say: the first one's relation, every mechanism. */
  ghost predicate Says(edge: Edge, e: (Id, Id), met: seq<Meeting>) {
    && edge.source == e.0 && edge.target == e.1
    && met != [] && edge.rel == met[0].rel && edge.mechanism == MergeAll(Mechanisms(met))
  }

  ghost predicate Tell(edges: Edges, order: seq<(Id, Id)>, met: seq<Meeting>) {
    && order == Pairs(met)
    && (forall e :: e in edges <==> Of(met, e) != [])
    && (forall e :: e in edges ==> Says(edges[e], e, Of(met, e)))
  }

  lemma OfSnoc(met: seq<Meeting>, m: Meeting, e: (Id, Id))
    ensures Of(met + [m], e) == Of(met, e) + if (m.source, m.target) == e then [m] else []
  {
    assert (met + [m])[..|met|] == met;
  }

  lemma PairsSnoc(met: seq<Meeting>, m: Meeting)
    ensures var e := (m.source, m.target);
            Pairs(met + [m]) == if e in Pairs(met) then Pairs(met) else Pairs(met) + [e]
  {
    assert (met + [m])[..|met|] == met;
  }

  lemma MechanismsSnoc(met: seq<Meeting>, m: Meeting)
    ensures MergeAll(Mechanisms(met + [m])) == MergeLabel(MergeAll(Mechanisms(met)), m.mechanism)
    ensures MergeAll(Mechanisms([m])) == m.mechanism
  {
    assert Mechanisms(met + [m])[..|met|] == Mechanisms(met);
    assert Mechanisms([m])[..0] == [];
  }

  lemma MetOrNot(met: seq<Meeting>, e: (Id, Id))
    ensures Of(met, e) != [] <==> e in Pairs(met)
  {
    if Of(met, e) != [] { assert Of(met, e)[0] in Of(met, e); }
  }

  /** The edge of one more meeting: drawn anew, or naming one more mechanism. */
  ghost predicate Records(edges: Edges, order: seq<(Id, Id)>, m: Meeting, edges': Edges, order': seq<(Id, Id)>) {
    var e := (m.source, m.target);
    if e in edges then
      order' == order && edges' == edges[e := edges[e].(mechanism := MergeLabel(edges[e].mechanism, m.mechanism))]
    else
      order' == order + [e] && edges' == edges[e := Edge(m.source, m.target, m.rel, m.mechanism)]
  }

  lemma TellKeys(edges: Edges, order: seq<(Id, Id)>, met: seq<Meeting>, m: Meeting, edges': Edges, order': seq<(Id, Id)>)
    requires Tell(edges, order, met) && Records(edges, order, m, edges', order')
    ensures order' == Pairs(met + [m])
    ensures forall e :: e in edges' <==> Of(met + [m], e) != []
  {
    PairsSnoc(met, m);
    MetOrNot(met, (m.source, m.target));
    forall e ensures e in edges' <==> Of(met + [m], e) != [] { OfSnoc(met, m, e); }
  }

  lemma SaysAnew(m: Meeting)
    ensures Says(Edge(m.source, m.target, m.rel, m.mechanism), (m.source, m.target), [m])
  {
    MechanismsSnoc([], m);
  }

  lemma SaysMore(edge: Edge, e: (Id, Id), met: seq<Meeting>, m: Meeting)
    requires Says(edge, e, met)
    ensures Says(edge.(mechanism := MergeLabel(edge.mechanism, m.mechanism)), e, met + [m])
  {
    MechanismsSnoc(met, m);
  }

  lemma TellOne(edges: Edges, order: seq<(Id, Id)>, met: seq<Meeting>, m: Meeting, edges': Edges, order': seq<(Id, Id)>, e: (Id, Id))
    requires Tell(edges, order, met) && Records(edges, order, m, edges', order') && e in edges'
    ensures Says(edges'[e], e, Of(met + [m], e))
  {
    OfSnoc(met, m, e);
    if e != (m.source, m.target) {
      assert Of(met, e) + [] == Of(met, e);
    } else if e in edges {
      SaysMore(edges[e], e, Of(met, e), m);
    } else {
      SaysAnew(m);
      assert [] + [m] == [m];
    }
  }

  /** One more meeting, as an edge records it. */
  lemma TellSnoc(edges: Edges, order: seq<(Id, Id)>, met: seq<Meeting>, m: Meeting, edges': Edges, order': seq<(Id, Id)>)
    requires Tell(edges, order, met) && Records(edges, order, m, edges', order')
    ensures Tell(edges', order', met + [m])
  {
    TellKeys(edges, order, met, m, edges', order');
    forall e | e in edges' ensures Says(edges'[e], e, Of(met + [m], e)) { TellOne(edges, order, met, m, edges', order', e); }
  }

  // ----- Every step of the walk records what it meets -----

  lemma LinkTells(s: State, cur: Id, other: Id, nb: Neighbor, met: seq<Meeting>)
    requires Tell(s.edges, s.edgeOrder, met)
    ensures var s' := Link(s, cur, other, nb);
            Tell(s'.edges, s'.edgeOrder, met + if other == cur then [] else [Towards(cur, other, nb)])
  {
    var s' := Link(s, cur, other, nb);
    if other == cur {
      assert met + [] == met;
    } else {
      TellSnoc(s.edges, s.edgeOrder, met, Towards(cur, other, nb), s'.edges, s'.edgeOrder);
    }
  }

  /** Admitting a node or a stand-in draws no edge. */
  predicate Undrawn(s: State, s1: State) {
    s1.edges == s.edges && s1.edgeOrder == s.edgeOrder
  }

  lemma NodeAdmits(s: State, info: Info, namespace: string, name: string, obj: Option<Obj>, depth: nat)
    ensures var a, id := AddNode(s, info, namespace, name, obj, depth), NodeId(info, namespace, name);
            Undrawn(s, a.s) && a.id == if id in s.nodes || |s.nodes| < 150 then Some(id) else None
  {
  }

  lemma ClubAdmits(s: State, ns: string, parent: Id, info: Info, items: seq<Obj>, depth: nat)
    ensures var a, id := AddAggregate(s, ns, parent, info, items, depth), AggregateId(parent, info.kind);
            Undrawn(s, a.s) && a.id == if id in s.nodes || |s.nodes| < 150 then Some(id) else None
  {
  }

  lemma ClubIs(s: State, c: Cluster, ns: string, cur: Queued, nb: Neighbor, a: Admission)
    requires nb.Club? && |s.nodes| <= MAX_NODES
    requires a == AddAggregate(s, ns, cur.id, nb.info, nb.items, cur.depth + 1)
    ensures Visit(s, c, ns, cur, nb) == if a.id.None? then a.s else Link(a.s, cur.id, a.id.value, nb)
  {
  }

  lemma ClubLinks(s: State, c: Cluster, ns: string, cur: Queued, nb: Neighbor) returns (s1: State)
    requires nb.Club? && |s.nodes| <= MAX_NODES
    ensures Undrawn(s, s1)
    ensures var other := StandsFor(s, c, ns, cur.id, nb);
            Visit(s, c, ns, cur, nb) == if other.None? then s1 else Link(s1, cur.id, other.value, nb)
  {
    var a := AddAggregate(s, ns, cur.id, nb.info, nb.items, cur.depth + 1);
    ClubAdmits(s, ns, cur.id, nb.info, nb.items, cur.depth + 1);
    ClubIs(s, c, ns, cur, nb, a);
    s1 := a.s;
  }

  lemma KnownLinks(s: State, c: Cluster, ns: string, cur: Queued, nb: Neighbor)
    requires nb.Single? && |s.nodes| <= MAX_NODES
    requires (nb.info.kind, nb.name) in s.clubbed || (nb.held.None? && c.fetch(nb.info, nb.name).Unreadable?)
    ensures var other := StandsFor(s, c, ns, cur.id, nb);
            Undrawn(if other.None? then s else Link(s, cur.id, other.value, nb), Visit(s, c, ns, cur, nb))
  {
  }

  lemma DrawIs(s: State, c: Cluster, ns: string, cur: Queued, nb: Neighbor, a: Admission)
    requires nb.Single? && |s.nodes| <= MAX_NODES
    requires (nb.info.kind, nb.name) !in s.clubbed && !(nb.held.None? && c.fetch(nb.info, nb.name).Unreadable?)
    requires a == AddNode(s, nb.info, ScopeOf(nb.info, ns), nb.name, Resolved(c, nb.info, nb.name, nb.held), cur.depth + 1)
    ensures var s' := Visit(s, c, ns, cur, nb);
            s' == (if a.id.None? then a.s else Link(a.s, cur.id, a.id.value, nb)).(queue := s'.queue)
  {
  }

  lemma DrawnLinks(s: State, c: Cluster, ns: string, cur: Queued, nb: Neighbor) returns (s1: State)
    requires nb.Single? && |s.nodes| <= MAX_NODES
    requires (nb.info.kind, nb.name) !in s.clubbed && !(nb.held.None? && c.fetch(nb.info, nb.name).Unreadable?)
    ensures Undrawn(s, s1)
    ensures var other := StandsFor(s, c, ns, cur.id, nb);
            Undrawn(if other.None? then s1 else Link(s1, cur.id, other.value, nb), Visit(s, c, ns, cur, nb))
  {
    var obj := Resolved(c, nb.info, nb.name, nb.held);
    var a := AddNode(s, nb.info, ScopeOf(nb.info, ns), nb.name, obj, cur.depth + 1);
    NodeAdmits(s, nb.info, ScopeOf(nb.info, ns), nb.name, obj, cur.depth + 1);
    DrawIs(s, c, ns, cur, nb, a);
    s1 := a.s;
  }

  /** A visit is at most one link, to the node that stands for the neighbour. */
  lemma VisitLinks(s: State, c: Cluster, ns: string, cur: Queued, nb: Neighbor) returns (s1: State)
    requires |s.nodes| <= MAX_NODES
    ensures Undrawn(s, s1)
    ensures var other := StandsFor(s, c, ns, cur.id, nb);
            Undrawn(if other.None? then s1 else Link(s1, cur.id, other.value, nb), Visit(s, c, ns, cur, nb))
  {
    if nb.Club? {
      s1 := ClubLinks(s, c, ns, cur, nb);
    } else if (nb.info.kind, nb.name) in s.clubbed || (nb.held.None? && c.fetch(nb.info, nb.name).Unreadable?) {
      KnownLinks(s, c, ns, cur, nb);
      s1 := s;
    } else {
      s1 := DrawnLinks(s, c, ns, cur, nb);
    }
  }

  /** One visit records exactly the meeting with that neighbour. */
  lemma VisitTells(s: State, c: Cluster, ns: string, cur: Queued, nb: Neighbor, met: seq<Meeting>)
    requires |s.nodes| <= MAX_NODES && Tell(s.edges, s.edgeOrder, met)
    ensures var s' := Visit(s, c, ns, cur, nb); Tell(s'.edges, s'.edgeOrder, met + Meets(s, c, ns, cur.id, nb))
  {
    var s1 := VisitLinks(s, c, ns, cur, nb);
    var other := StandsFor(s, c, ns, cur.id, nb);
    if other.Some? { LinkTells(s1, cur.id, other.value, nb, met); } else { assert met + [] == met; }
  }

  lemma LinkTouchesOne(s: State, cur: Id, other: Id, nb: Neighbor, e: (Id, Id))
    requires e in s.edges
    ensures var s', m := Link(s, cur, other, nb), Towards(cur, other, nb);
            && e in s'.edges && s'.edges[e] == s.edges[e].(mechanism := s'.edges[e].mechanism)
            && (other == cur || (m.source, m.target) != e ==> s'.edges[e] == s.edges[e])
  {
  }

  /** A visit changes no edge but the one of its own meeting, and of that only the label. */
  lemma VisitTouchesOne(s: State, c: Cluster, ns: string, cur: Queued, nb: Neighbor, e: (Id, Id))
    requires |s.nodes| <= MAX_NODES && e in s.edges
    ensures var s' := Visit(s, c, ns, cur, nb);
            && e in s'.edges && s'.edges[e] == s.edges[e].(mechanism := s'.edges[e].mechanism)
            && (Of(Meets(s, c, ns, cur.id, nb), e) == [] ==> s'.edges[e] == s.edges[e])
  {
    var s1 := VisitLinks(s, c, ns, cur, nb);
    var other := StandsFor(s, c, ns, cur.id, nb);
    if other.Some? {
      LinkTouchesOne(s1, cur.id, other.value, nb, e);
      OfSnoc([], Towards(cur.id, other.value, nb), e);
      assert [] + [Towards(cur.id, other.value, nb)] == [Towards(cur.id, other.value, nb)];
    }
  }

  lemma {:induction false} VisitAllTells(s: State, c: Cluster, ns: string, cur: Queued, nbs: seq<Neighbor>, met: seq<Meeting>)
    requires |s.nodes| <= MAX_NODES && Tell(s.edges, s.edgeOrder, met)
    ensures var s' := VisitAll(s, c, ns, cur, nbs); Tell(s'.edges, s'.edgeOrder, met + MetByAll(s, c, ns, cur, nbs))
  {
    if nbs == [] {
      assert met + [] == met;
    } else {
      var init, last := nbs[..|nbs| - 1], nbs[|nbs| - 1];
      var s1 := VisitAll(s, c, ns, cur, init);
      VisitAllTells(s, c, ns, cur, init, met);
      VisitTells(s1, c, ns, cur, last, met + MetByAll(s, c, ns, cur, init));
      assert met + MetByAll(s, c, ns, cur, nbs) == met + MetByAll(s, c, ns, cur, init) + Meets(s1, c, ns, cur.id, last);
    }
  }

  lemma TurnTells(s: State, c: Cluster, ns: string, limit: nat, met: seq<Meeting>)
    requires s.queue != [] && |s.nodes| <= MAX_NODES && Tell(s.edges, s.edgeOrder, met)
    ensures var s' := Turn(s, c, ns, limit); Tell(s'.edges, s'.edgeOrder, met + MetByTurn(s, c, ns, limit))
  {
    var cur := s.queue[0];
    if cur.depth >= limit {
      assert met + [] == met;
    } else {
      var d := Neighbors(Pop(s), c, ns, cur);
      VisitAllTells(AddNotes(Pop(s), d.notes), c, ns, cur, d.neighbors, met);
    }
  }

  lemma WalkUnrolls(s: State, c: Cluster, ns: string, limit: nat)
    requires |s.nodes| <= MAX_NODES && s.queue != []
    ensures Walk(s, c, ns, limit) == Walk(Turn(s, c, ns, limit), c, ns, limit)
  {
  }

  lemma MetUnrolls(s: State, c: Cluster, ns: string, limit: nat)
    requires |s.nodes| <= MAX_NODES && s.queue != []
    ensures MetByWalk(s, c, ns, limit) == MetByTurn(s, c, ns, limit) + MetByWalk(Turn(s, c, ns, limit), c, ns, limit)
  {
  }

  lemma Regroup(a: seq<Meeting>, b: seq<Meeting>, d: seq<Meeting>)
    ensures a + (b + d) == a + b + d
  {
  }

  lemma {:induction false} WalkTells(s: State, c: Cluster, ns: string, limit: nat, met: seq<Meeting>)
    requires |s.nodes| <= MAX_NODES && Tell(s.edges, s.edgeOrder, met)
    ensures var s' := Walk(s, c, ns, limit); Tell(s'.edges, s'.edgeOrder, met + MetByWalk(s, c, ns, limit))
    decreases MAX_NODES - |s.nodes| + |s.queue|
  {
    if s.queue == [] {
      assert met + [] == met;
    } else {
      TurnTells(s, c, ns, limit, met);
      var s1, now := Turn(s, c, ns, limit), MetByTurn(s, c, ns, limit);
      WalkTells(s1, c, ns, limit, met + now);
      WalkUnrolls(s, c, ns, limit);
      MetUnrolls(s, c, ns, limit);
      Regroup(met, now, MetByWalk(s1, c, ns, limit));
    }
  }

  // ----- Every meeting is a relation of an expanded object -----

  /** `m` is the meeting of `q` with a neighbour it is related to, under the neighbour's own
      node or a stand-in. */
  ghost predicate Grounds(c: Cluster, ns: string, q: Queued, nb: Neighbor, other: Id, m: Meeting) {
    && Related(c, q, nb) && other != q.id && m == Towards(q.id, other, nb)
    && (other.AggregateId? || (nb.Single? && other == PlaceId(ns, nb.info, nb.name)))
  }

  ghost predicate Grounded(c: Cluster, ns: string, qs: seq<Queued>, limit: nat, m: Meeting) {
    exists q, nb, other :: q in qs && q.depth < limit && Grounds(c, ns, q, nb, other, m)
  }

  ghost predicate AllGrounded(c: Cluster, ns: string, qs: seq<Queued>, limit: nat, met: seq<Meeting>) {
    forall m :: m in met ==> Grounded(c, ns, qs, limit, m)
  }

  lemma MeetsGround(s: State, c: Cluster, ns: string, q: Queued, nb: Neighbor, qs: seq<Queued>, limit: nat)
    requires ClubbedSound(s.nodes, s.clubbed) && Related(c, q, nb) && q in qs && q.depth < limit
    ensures AllGrounded(c, ns, qs, limit, Meets(s, c, ns, q.id, nb))
  {
    forall m | m in Meets(s, c, ns, q.id, nb) ensures Grounded(c, ns, qs, limit, m) {
      assert Grounds(c, ns, q, nb, StandsFor(s, c, ns, q.id, nb).value, m);
    }
  }

  lemma {:induction false} VisitsGround(s: State, c: Cluster, ns: string, root: Id, q: Queued, nbs: seq<Neighbor>,
                                        qs: seq<Queued>, limit: nat)
    requires During(s, root, q) && q in qs && q.depth < limit && forall nb :: nb in nbs ==> Related(c, q, nb)
    ensures AllGrounded(c, ns, qs, limit, MetByAll(s, c, ns, q, nbs))
  {
    if nbs != [] {
      var init, last := nbs[..|nbs| - 1], nbs[|nbs| - 1];
      VisitsGround(s, c, ns, root, q, init, qs, limit);
      VisitAllKeeps(s, root, c, ns, q, init);
      MeetsGround(VisitAll(s, c, ns, q, init), c, ns, q, last, qs, limit);
    }
  }

  lemma TurnGrounds(s: State, c: Cluster, ns: string, root: Id, limit: nat)
    requires Idle(s, root, limit) && s.queue != []
    ensures AllGrounded(c, ns, Pop(s).popped, limit, MetByTurn(s, c, ns, limit))
  {
    var q := s.queue[0];
    if q.depth < limit {
      var d := Neighbors(Pop(s), c, ns, q);
      PopKeeps(s, root, limit);
      NotesKeep(Pop(s), root, q, d.notes);
      forall nb | nb in d.neighbors ensures Related(c, q, nb) { NeighborsAreRelated(Pop(s), c, ns, q, nb); }
      VisitsGround(AddNotes(Pop(s), d.notes), c, ns, root, q, d.neighbors, Pop(s).popped, limit);
    }
  }

  lemma GroundedLater(c: Cluster, ns: string, qs: seq<Queued>, qs': seq<Queued>, limit: nat, met: seq<Meeting>)
    requires AllGrounded(c, ns, qs, limit, met) && qs <= qs'
    ensures AllGrounded(c, ns, qs', limit, met)
  {
    forall m | m in met ensures Grounded(c, ns, qs', limit, m) {
      var q, nb, other :| q in qs && q.depth < limit && Grounds(c, ns, q, nb, other, m);
      assert q in qs';
    }
  }

  lemma BothGrounded(c: Cluster, ns: string, qs: seq<Queued>, limit: nat, a: seq<Meeting>, b: seq<Meeting>)
    requires AllGrounded(c, ns, qs, limit, a) && AllGrounded(c, ns, qs, limit, b)
    ensures AllGrounded(c, ns, qs, limit, a + b)
  {
  }

  lemma TurnTakes(s: State, c: Cluster, ns: string, root: Id, limit: nat)
    requires Idle(s, root, limit) && s.queue != []
    ensures Turn(s, c, ns, limit).popped == Pop(s).popped
  {
    TurnKeeps(s, root, c, ns, limit);
  }

  lemma {:induction false} WalkGrounds(s: State, c: Cluster, ns: string, root: Id, limit: nat)
    requires Idle(s, root, limit)
    ensures s.popped <= Walk(s, c, ns, limit).popped
    ensures AllGrounded(c, ns, Walk(s, c, ns, limit).popped, limit, MetByWalk(s, c, ns, limit))
    decreases MAX_NODES - |s.nodes| + |s.queue|
  {
    if s.queue != [] {
      var s1, s2 := Turn(s, c, ns, limit), Walk(s, c, ns, limit);
      TurnGrounds(s, c, ns, root, limit);
      TurnTakes(s, c, ns, root, limit);
      TurnKeeps(s, root, c, ns, limit);
      WalkGrounds(s1, c, ns, root, limit);
      WalkUnrolls(s, c, ns, limit);
      MetUnrolls(s, c, ns, limit);
      GroundedLater(c, ns, s1.popped, s2.popped, limit, MetByTurn(s, c, ns, limit));
      BothGrounded(c, ns, s2.popped, limit, MetByTurn(s, c, ns, limit), MetByWalk(s1, c, ns, limit));
    }
  }

  // ----- Theorems -----

  /** What the references in specs are labelled with is one mechanism each. */
  ghost predicate PlainRefs(c: Cluster) {
    forall info, obj, nb :: nb in c.refs(info, obj).neighbors ==> !Text.Holds(nb.mechanism, ", ")
  }

  lemma HeldComma(s: string)
    ensures Text.Holds(s, ", ") ==> ',' in s
  {
    if i: nat :| Text.At(s, ", ", i) { assert s[i..i + 2][0] == ','; }
  }

  lemma OwnLabelsPlain()
    ensures !Text.Holds("", ", ") && !Text.Holds("runs", ", ") && !Text.Holds("controller", ", ")
  {
    HeldComma("");
    HeldComma("runs");
    HeldComma("controller");
  }

  lemma BuiltTells(c: Cluster, ns: string, info: Info, name: string, requested: int)
    requires Built(c, ns, info, name, requested).Some?
    ensures var s := Built(c, ns, info, name, requested).value;
            && Tell(s.edges, s.edgeOrder, MetByBuild(c, ns, info, name, requested))
            && AllGrounded(c, ns, s.popped, EffectiveDepth(requested), MetByBuild(c, ns, info, name, requested))
  {
    var obj, limit := c.fetch(info, name).obj, EffectiveDepth(requested);
    var seed := Seed(requested, ns, info, name, obj);
    var node := SeedShape(requested, ns, info, name, obj);
    SeedIsIdle(requested, ns, info, name, obj, limit);
    WalkTells(seed, c, ns, limit, []);
    assert [] + MetByWalk(seed, c, ns, limit) == MetByWalk(seed, c, ns, limit);
    WalkGrounds(seed, c, ns, PlaceId(ns, info, name), limit);
  }

  lemma PlainMeeting(c: Cluster, ns: string, qs: seq<Queued>, limit: nat, m: Meeting)
    requires Grounded(c, ns, qs, limit, m) && PlainRefs(c)
    ensures !Text.Holds(m.mechanism, ", ")
  {
    OwnLabelsPlain();
  }

  lemma LabelsRead(c: Cluster, ns: string, qs: seq<Queued>, limit: nat, met: seq<Meeting>)
    requires AllGrounded(c, ns, qs, limit, met) && PlainRefs(c)
    ensures Parts(MergeAll(Mechanisms(met))) == Firsts(Mechanisms(met))
  {
    forall i | 0 <= i < |met| ensures !Text.Holds(met[i].mechanism, ", ") { PlainMeeting(c, ns, qs, limit, met[i]); }
    LabelNamesEachOnce(Mechanisms(met));
  }

  /** In the finished graph a pair is joined exactly when a neighbour was met that joins it, in
      that direction; edges come in the order their pairs were first met; each carries the
      relation of the first neighbour met for its pair, and its label reads back as the
      mechanisms of all of them, each once, in the order first met. */
  lemma EdgesSayWhatWasMet(c: Cluster, ns: string, info: Info, name: string, requested: int)
    requires Built(c, ns, info, name, requested).Some?
    ensures var s, met := Built(c, ns, info, name, requested).value, MetByBuild(c, ns, info, name, requested);
            && s.edgeOrder == Pairs(met)
            && (forall e :: e in s.edges <==> exists m :: m in met && (m.source, m.target) == e)
            && (forall e :: e in s.edges ==>
                  && s.edges[e].source == e.0 && s.edges[e].target == e.1
                  && Of(met, e) != [] && s.edges[e].rel == Of(met, e)[0].rel
                  && (PlainRefs(c) ==> Parts(s.edges[e].mechanism) == Firsts(Mechanisms(Of(met, e)))))
  {
    var s, met := Built(c, ns, info, name, requested).value, MetByBuild(c, ns, info, name, requested);
    BuiltTells(c, ns, info, name, requested);
    forall e ensures e in s.edges <==> exists m :: m in met && (m.source, m.target) == e { MetOrNot(met, e); }
    forall e | e in s.edges && PlainRefs(c) ensures Parts(s.edges[e].mechanism) == Firsts(Mechanisms(Of(met, e))) {
      LabelsRead(c, ns, s.popped, EffectiveDepth(requested), Of(met, e));
    }
  }

  /** The edge at `e` is the relation of `q` to a neighbour, in its direction, drawn at the
      neighbour's own node or at a stand-in. */
  ghost predicate IsRelation(c: Cluster, ns: string, s: State, e: (Id, Id), q: Queued, nb: Neighbor, other: Id)
    requires e in s.edges
  {
    && Related(c, q, nb) && s.edges[e].rel == nb.rel
    && e == (if nb.inbound then (other, q.id) else (q.id, other))
    && (other.AggregateId? || (nb.Single? && other == PlaceId(ns, nb.info, nb.name)))
  }

  /** Every edge is a relation that some expanded object takes part in. */
  lemma EdgesAreRelations(c: Cluster, ns: string, info: Info, name: string, requested: int, e: (Id, Id))
    requires Built(c, ns, info, name, requested).Some? && e in Built(c, ns, info, name, requested).value.edges
    ensures var s := Built(c, ns, info, name, requested).value;
            exists q, nb, other :: q in s.popped && q.depth < EffectiveDepth(requested) && IsRelation(c, ns, s, e, q, nb, other)
  {
    var s, met := Built(c, ns, info, name, requested).value, MetByBuild(c, ns, info, name, requested);
    BuiltTells(c, ns, info, name, requested);
    var m := Of(met, e)[0];
    assert m in Of(met, e) && Grounded(c, ns, s.popped, EffectiveDepth(requested), m);
    var q, nb, other :| q in s.popped && q.depth < EffectiveDepth(requested) && Grounds(c, ns, q, nb, other, m);
    assert IsRelation(c, ns, s, e, q, nb, other);
  }
}
