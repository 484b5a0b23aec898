/** Folded objects stay in reach: on an orderly cluster whatever an expanded object points
    at is joined to it as a node of its own, or through the very stand-in it is folded into. */
module GraphFolds {
  import opened Optional
  import opened GraphModel
  import opened GraphWalk
  import opened GraphReach
  import opened GraphComplete
  import opened GraphClubs

  /** The neighbour is drawn and joined to `cur`, or its stand-in is. */
  ghost predicate Tied(s: State, ns: string, cur: Id, nb: Neighbor) {
    match nb
    case Single(info, name, _, _, _, _) =>
      if (info.kind, name) in s.clubbed then Drawn(s, cur, s.clubbed[(info.kind, name)], nb)
      else PlaceId(ns, info, name) in s.nodes && Drawn(s, cur, PlaceId(ns, info, name), nb)
    case Club(info, items, _, _, _) =>
      Drawn(s, cur, AggregateId(cur, info.kind), nb) && FoldedInto(s.clubbed, info.kind, items, AggregateId(cur, info.kind))
  }

  ghost predicate FoldedInto(clubbed: Clubbed, kind: string, items: seq<Obj>, a: Id) {
    forall i :: 0 <= i < |items| ==> (kind, items[i].name) in clubbed && clubbed[(kind, items[i].name)] == a
  }

  ghost predicate AllTied(s: State, ns: string, cur: Id, nbs: seq<Neighbor>) {
    forall i | 0 <= i < |nbs| :: Tied(s, ns, cur, nbs[i])
  }

  /** What a drawn neighbour's node would be filed under is not folded later. */
  ghost predicate Filing(nodes: Nodes, ns: string) {
    forall id :: id in nodes && id.ObjectId? ==> id == PlaceId(ns, nodes[id].info, nodes[id].name)
  }

  lemma NodesFile(c: Cluster, ns: string, root: Place, nodes: Nodes)
    requires NodesHonest(c, ns, root, nodes)
    ensures Filing(nodes, ns)
  {
    forall id | id in nodes && id.ObjectId? ensures id == PlaceId(ns, nodes[id].info, nodes[id].name) {
      assert NodeHonest(c, ns, root, id, nodes[id]);
    }
  }

  lemma DrawnNotFolded(nodes: Nodes, clubbed: Clubbed, ns: string, info: Info, name: string)
    requires NotBoth(nodes, clubbed) && Filing(nodes, ns) && PlaceId(ns, info, name) in nodes
    ensures (info.kind, name) !in clubbed
  {
    var id := PlaceId(ns, info, name);
    assert Key(nodes[id]) == (info.kind, name);
  }

  lemma TiedStays(s: State, s': State, ns: string, cur: Id, nb: Neighbor)
    requires Tied(s, ns, cur, nb) && Grows(s, s') && KeepsFolded(s.clubbed, s'.clubbed)
    requires NotBoth(s'.nodes, s'.clubbed) && Filing(s'.nodes, ns)
    ensures Tied(s', ns, cur, nb)
  {
    if nb.Single? && (nb.info.kind, nb.name) !in s.clubbed {
      DrawnNotFolded(s'.nodes, s'.clubbed, ns, nb.info, nb.name);
    }
  }

  lemma AllTiedStays(s: State, s': State, ns: string, cur: Id, nbs: seq<Neighbor>)
    requires AllTied(s, ns, cur, nbs) && Grows(s, s') && KeepsFolded(s.clubbed, s'.clubbed)
    requires NotBoth(s'.nodes, s'.clubbed) && Filing(s'.nodes, ns)
    ensures AllTied(s', ns, cur, nbs)
  {
    forall i | 0 <= i < |nbs| ensures Tied(s', ns, cur, nbs[i]) { TiedStays(s, s', ns, cur, nbs[i]); }
  }

  // ----- One visit -----

  lemma SingleTies(s: State, c: Cluster, ns: string, rootId: Id, cur: Queued, nb: Neighbor)
    requires During(s, rootId, cur) && Tallied(s.nodes, s.clubbed) && nb.Single? && NoGap(Visit(s, c, ns, cur, nb).notes)
    ensures var s' := Visit(s, c, ns, cur, nb); Tied(s', ns, cur.id, nb) && s'.clubbed == s.clubbed
  {
    if (nb.info.kind, nb.name) in s.clubbed {
      LinkKeeps(s, rootId, cur.id, s.clubbed[(nb.info.kind, nb.name)], nb);
    } else {
      VisitKeeps(s, rootId, c, ns, cur, nb);
      SingleVisit(s, c, ns, cur, nb, {});
    }
  }

  lemma ClubTies(s: State, c: Cluster, ns: string, rootId: Id, cur: Queued, nb: Neighbor)
    requires During(s, rootId, cur) && nb.Club? && NoStandIn(s.nodes, cur.id) && NoGap(Visit(s, c, ns, cur, nb).notes)
    ensures Tied(Visit(s, c, ns, cur, nb), ns, cur.id, nb)
  {
    var a := AggregateId(cur.id, nb.info.kind);
    assert a !in s.nodes;
    VisitKeeps(s, rootId, c, ns, cur, nb);
    ClubLands(s, c, ns, cur, nb);
    FoldIs(s.clubbed, nb.info.kind, nb.items, a);
    forall i | 0 <= i < |nb.items| ensures (nb.info.kind, nb.items[i].name) in Keys(nb.info.kind, nb.items) {}
  }

  // ----- All neighbours of one object -----

  /** Between two states of the walk, everything drawn and folded stays as it is. */
  ghost predicate Settles(s: State, s': State, ns: string) {
    && Grows(s, s') && KeepsFolded(s.clubbed, s'.clubbed) && s.notes <= s'.notes
    && NotBoth(s'.nodes, s'.clubbed) && Filing(s'.nodes, ns)
  }

  lemma TiedThrough(s1: State, s2: State, ns: string, cur: Id, nbs: seq<Neighbor>)
    requires nbs != [] && NoGap(s2.notes) && Settles(s1, s2, ns)
    requires AllTied(s1, ns, cur, nbs[..|nbs| - 1]) && Tied(s2, ns, cur, nbs[|nbs| - 1])
    ensures AllTied(s2, ns, cur, nbs)
  {
    AllTiedStays(s1, s2, ns, cur, nbs[..|nbs| - 1]);
    forall i | 0 <= i < |nbs| ensures Tied(s2, ns, cur, nbs[i]) {
      if i < |nbs| - 1 { assert Tied(s2, ns, cur, nbs[..|nbs| - 1][i]); }
    }
  }

  lemma SettlesFrom(s: State, s': State, ns: string)
    requires Extends(s, s') && s'.clubbed == s.clubbed && NotBoth(s'.nodes, s'.clubbed) && Filing(s'.nodes, ns)
    ensures Settles(s, s', ns) && (NoGap(s'.notes) ==> NoGap(s.notes))
  {
  }

  lemma SingleSettles(s: State, c: Cluster, ns: string, rootId: Id, cur: Queued, nb: Neighbor)
    requires During(s, rootId, cur) && Tallied(s.nodes, s.clubbed) && nb.Single? && Filing(s.nodes, ns)
    ensures var s' := Visit(s, c, ns, cur, nb); Settles(s, s', ns) && (NoGap(s'.notes) ==> NoGap(s.notes))
  {
    VisitKeeps(s, rootId, c, ns, cur, nb);
    SingleVisit(s, c, ns, cur, nb, {});
    SingleFiles(s, c, ns, cur, nb);
    SettlesFrom(s, Visit(s, c, ns, cur, nb), ns);
  }

  lemma {:induction false} SinglesTie(s: State, c: Cluster, ns: string, rootId: Id, cur: Queued, nbs: seq<Neighbor>)
    requires During(s, rootId, cur) && Tallied(s.nodes, s.clubbed) && AllApart(nbs, {}) && Filing(s.nodes, ns)
    requires NoGap(VisitAll(s, c, ns, cur, nbs).notes)
    ensures AllTied(VisitAll(s, c, ns, cur, nbs), ns, cur.id, nbs) && Filing(VisitAll(s, c, ns, cur, nbs).nodes, ns)
  {
    if nbs != [] {
      var front, last := nbs[..|nbs| - 1], nbs[|nbs| - 1];
      var s1 := VisitAll(s, c, ns, cur, front);
      assert AllApart(front, {});
      SinglesVisit(s, c, ns, rootId, cur, front, {});
      VisitAllKeeps(s, rootId, c, ns, cur, front);
      assert last.Single?;
      FilingAfter(s, c, ns, rootId, cur, front);
      SingleSettles(s1, c, ns, rootId, cur, last);
      SinglesTie(s, c, ns, rootId, cur, front);
      SingleTies(s1, c, ns, rootId, cur, last);
      TiedThrough(s1, VisitAll(s, c, ns, cur, nbs), ns, cur.id, nbs);
    }
  }

  lemma {:induction false} FilingAfter(s: State, c: Cluster, ns: string, rootId: Id, cur: Queued, nbs: seq<Neighbor>)
    requires During(s, rootId, cur) && AllApart(nbs, {}) && Filing(s.nodes, ns)
    ensures Filing(VisitAll(s, c, ns, cur, nbs).nodes, ns)
  {
    if nbs != [] {
      var front := nbs[..|nbs| - 1];
      assert AllApart(front, {});
      FilingAfter(s, c, ns, rootId, cur, front);
      VisitAllKeeps(s, rootId, c, ns, cur, front);
      SingleFiles(VisitAll(s, c, ns, cur, front), c, ns, cur, nbs[|nbs| - 1]);
    }
  }

  lemma SingleFiles(s: State, c: Cluster, ns: string, cur: Queued, nb: Neighbor)
    requires nb.Single? && Shallow(s.nodes, cur.depth) && Filing(s.nodes, ns)
    ensures Filing(Visit(s, c, ns, cur, nb).nodes, ns)
  {
    SingleCases(s, c, ns, cur, nb);
  }

  lemma LoneClubTies(s: State, c: Cluster, ns: string, rootId: Id, cur: Queued, nb: Neighbor)
    requires During(s, rootId, cur) && nb.Club? && NoStandIn(s.nodes, cur.id) && Filing(s.nodes, ns)
    requires NoGap(VisitAll(s, c, ns, cur, [nb]).notes)
    ensures AllTied(VisitAll(s, c, ns, cur, [nb]), ns, cur.id, [nb]) && Filing(VisitAll(s, c, ns, cur, [nb]).nodes, ns)
  {
    assert [nb][..0] == [];
    assert VisitAll(s, c, ns, cur, []) == s;
    ClubTies(s, c, ns, rootId, cur, nb);
    ClubFiles(s, c, ns, cur, nb);
  }

  lemma ClubFiles(s: State, c: Cluster, ns: string, cur: Queued, nb: Neighbor)
    requires nb.Club? && Shallow(s.nodes, cur.depth) && Filing(s.nodes, ns)
    ensures Filing(Visit(s, c, ns, cur, nb).nodes, ns)
  {
    ClubCases(s, c, ns, cur, nb);
  }

  lemma TailTies(s: State, c: Cluster, ns: string, rootId: Id, cur: Queued, ci: Info, kind: string, items: seq<Obj>)
    requires During(s, rootId, cur) && Tallied(s.nodes, s.clubbed) && NoStandIn(s.nodes, cur.id) && Filing(s.nodes, ns)
    requires NoGap(VisitAll(s, c, ns, cur, Tail(cur, ci, kind, items)).notes)
    ensures var s' := VisitAll(s, c, ns, cur, Tail(cur, ci, kind, items));
            AllTied(s', ns, cur.id, Tail(cur, ci, kind, items)) && Filing(s'.nodes, ns)
  {
    var tail := Tail(cur, ci, kind, items);
    if |tail| == 1 && tail[0].Club? {
      LoneClubTies(s, c, ns, rootId, cur, tail[0]);
      assert tail == [tail[0]];
    } else {
      assert tail == AsSingles(ci, items);
      SinglesTie(s, c, ns, rootId, cur, tail);
    }
  }

  lemma AllTiedConcat(s: State, ns: string, cur: Id, a: seq<Neighbor>, b: seq<Neighbor>)
    requires AllTied(s, ns, cur, a) && AllTied(s, ns, cur, b)
    ensures AllTied(s, ns, cur, a + b)
  {
  }

  /** Singles after what has been dealt with already. */
  lemma MoreSinglesTie(s: State, c: Cluster, ns: string, rootId: Id, cur: Queued, before: seq<Neighbor>, more: seq<Neighbor>)
    requires During(s, rootId, cur) && Tallied(s.nodes, s.clubbed) && AllApart(more, {}) && Filing(s.nodes, ns)
    requires AllTied(s, ns, cur.id, before) && NoGap(VisitAll(s, c, ns, cur, more).notes)
    ensures var s' := VisitAll(s, c, ns, cur, more); AllTied(s', ns, cur.id, before + more) && s'.clubbed == s.clubbed
  {
    var s' := VisitAll(s, c, ns, cur, more);
    SinglesVisit(s, c, ns, rootId, cur, more, {});
    VisitAllKeeps(s, rootId, c, ns, cur, more);
    SinglesTie(s, c, ns, rootId, cur, more);
    AllTiedStays(s, s', ns, cur.id, before);
    AllTiedConcat(s', ns, cur.id, before, more);
  }

  /** The undrawn children can still be folded: none is drawn, folded or listed twice. */
  ghost predicate Foldable(s: State, kind: string, items: seq<Obj>) {
    NamesDiffer(items) && s.clubbed.Keys !! Keys(kind, items) && Undrawn(s.nodes, Keys(kind, items))
  }

  /** The expansion of `cur` is under way, its stand-in not yet made. */
  ghost predicate Poised(s: State, ns: string, rootId: Id, cur: Queued) {
    During(s, rootId, cur) && Tallied(s.nodes, s.clubbed) && NoStandIn(s.nodes, cur.id) && Filing(s.nodes, ns)
  }

  lemma AfterSingles(s: State, c: Cluster, ns: string, rootId: Id, cur: Queued, kind: string, pre: seq<Neighbor>, items: seq<Obj>)
    requires Poised(s, ns, rootId, cur) && Foldable(s, kind, items) && AllApart(pre, Keys(kind, items))
    ensures var s1 := VisitAll(s, c, ns, cur, pre); Poised(s1, ns, rootId, cur) && Foldable(s1, kind, items)
  {
    SinglesVisit(s, c, ns, rootId, cur, pre, Keys(kind, items));
    VisitAllKeeps(s, rootId, c, ns, cur, pre);
    CountVisitAll(s, c, ns, rootId, cur, pre);
    FilingAfter(s, c, ns, rootId, cur, pre);
  }

  lemma TailSettles(s: State, c: Cluster, ns: string, rootId: Id, cur: Queued, ci: Info, kind: string, items: seq<Obj>)
    requires Poised(s, ns, rootId, cur) && Foldable(s, ci.kind, items) && ci.namespaced
    requires NoGap(VisitAll(s, c, ns, cur, Tail(cur, ci, kind, items)).notes)
    ensures var s' := VisitAll(s, c, ns, cur, Tail(cur, ci, kind, items));
            && Settles(s, s', ns) && NoGap(s.notes) && During(s', rootId, cur) && Tallied(s'.nodes, s'.clubbed)
            && AllTied(s', ns, cur.id, Tail(cur, ci, kind, items))
  {
    VisitAllKeeps(s, rootId, c, ns, cur, Tail(cur, ci, kind, items));
    TailPlaces(s, c, ns, rootId, cur, ci, kind, items);
    TailTies(s, c, ns, rootId, cur, ci, kind, items);
  }

  /** The drawn children and owners, then the undrawn children. */
  lemma FrontTies(s: State, c: Cluster, ns: string, rootId: Id, cur: Queued, ci: Info, kind: string, pre: seq<Neighbor>, items: seq<Obj>)
    requires Poised(s, ns, rootId, cur) && Foldable(s, ci.kind, items) && ci.namespaced && AllApart(pre, Keys(ci.kind, items))
    requires NoGap(VisitAll(s, c, ns, cur, pre + Tail(cur, ci, kind, items)).notes)
    ensures var s2 := VisitAll(s, c, ns, cur, pre + Tail(cur, ci, kind, items));
            && During(s2, rootId, cur) && Tallied(s2.nodes, s2.clubbed) && Filing(s2.nodes, ns)
            && AllTied(s2, ns, cur.id, pre + Tail(cur, ci, kind, items))
  {
    var tail := Tail(cur, ci, kind, items);
    var s1 := VisitAll(s, c, ns, cur, pre);
    VisitConcat(s, c, ns, cur, pre, tail);
    AfterSingles(s, c, ns, rootId, cur, ci.kind, pre, items);
    TailSettles(s1, c, ns, rootId, cur, ci, kind, items);
    SinglesTie(s, c, ns, rootId, cur, pre);
    AllTiedStays(s1, VisitAll(s1, c, ns, cur, tail), ns, cur.id, pre);
    AllTiedConcat(VisitAll(s1, c, ns, cur, tail), ns, cur.id, pre, tail);
  }

  lemma NoGapBefore(s: State, c: Cluster, ns: string, rootId: Id, cur: Queued, nbs: seq<Neighbor>)
    requires During(s, rootId, cur) && NoGap(VisitAll(s, c, ns, cur, nbs).notes)
    ensures NoGap(s.notes)
  {
    VisitAllKeeps(s, rootId, c, ns, cur, nbs);
  }

  lemma PartsTie(s: State, c: Cluster, ns: string, rootId: Id, cur: Queued, ci: Info, kind: string,
                 pre: seq<Neighbor>, items: seq<Obj>, refs: seq<Neighbor>)
    requires Poised(s, ns, rootId, cur) && Foldable(s, ci.kind, items) && ci.namespaced
    requires AllApart(pre, Keys(ci.kind, items)) && AllApart(refs, {})
    requires NoGap(VisitAll(s, c, ns, cur, pre + Tail(cur, ci, kind, items) + refs).notes)
    ensures AllTied(VisitAll(s, c, ns, cur, pre + Tail(cur, ci, kind, items) + refs), ns, cur.id, pre + Tail(cur, ci, kind, items) + refs)
  {
    var front := pre + Tail(cur, ci, kind, items);
    var s2 := VisitAll(s, c, ns, cur, front);
    VisitConcat(s, c, ns, cur, front, refs);
    VisitAllKeeps(s, rootId, c, ns, cur, front);
    NoGapBefore(s2, c, ns, rootId, cur, refs);
    FrontTies(s, c, ns, rootId, cur, ci, kind, pre, items);
    MoreSinglesTie(s2, c, ns, rootId, cur, front, refs);
  }

  // ----- One expansion -----

  lemma ExpandTiesChildren(s: State, c: Cluster, ns: string, root: Place, rootId: Id, cur: Queued, kind: string, ci: Info)
    requires Expanding(s, c, ns, root, rootId, cur) && Orderly(c, root) && ChildType(c, cur, kind, ci) && NoGap(Expand(s, c, ns, cur).notes)
    ensures AllTied(Expand(s, c, ns, cur), ns, cur.id, Neighbors(s, c, ns, cur).neighbors)
    ensures KeepsFolded(s.clubbed, Expand(s, c, ns, cur).clubbed)
  {
    var d, items := Neighbors(s, c, ns, cur), UndrawnChildren(s, c, ns, cur, ci);
    var drawn := AsSingles(ci, DrawnChildren(s, c, ns, cur, ci));
    ExpandChildren(s, c, ns, root, rootId, cur, kind, ci);
    NotesKeep(s, rootId, cur, d.notes);
    ChildTypeNamespaced(c, cur, kind, ci);
    UndrawnReady(s, c, ns, root, rootId, cur, kind, ci);
    OwnersApart(s, c, ns, root, cur, kind, ci);
    DrawnApart(s.nodes, ci, ns, Controlled(c.list(ci).items, cur.obj.uid));
    ApartConcat(Owners(c, cur.obj.owners), drawn, Keys(ci.kind, items));
    RefsApart(s, c, ns, root, cur);
    ChildrenParts(s, c, ns, cur, kind, ci);
    NodesFile(c, ns, root, s.nodes);
    PartsTie(AddNotes(s, d.notes), c, ns, rootId, cur, ci, kind,
             Owners(c, cur.obj.owners) + drawn, items, c.refs(cur.info, cur.obj).neighbors);
  }

  lemma ExpandTiesChildless(s: State, c: Cluster, ns: string, root: Place, rootId: Id, cur: Queued)
    requires Expanding(s, c, ns, root, rootId, cur) && Orderly(c, root) && NoGap(Expand(s, c, ns, cur).notes)
    requires forall kind, ci :: !ChildType(c, cur, kind, ci)
    ensures AllTied(Expand(s, c, ns, cur), ns, cur.id, Neighbors(s, c, ns, cur).neighbors)
    ensures KeepsFolded(s.clubbed, Expand(s, c, ns, cur).clubbed)
  {
    var d := Neighbors(s, c, ns, cur);
    ExpandChildless(s, c, ns, root, rootId, cur);
    NotesKeep(s, rootId, cur, d.notes);
    NoChildrenParts(s, c, ns, cur);
    OwnersHold(c, cur.obj.owners);
    RefsApart(s, c, ns, root, cur);
    ApartConcat(Owners(c, cur.obj.owners), c.refs(cur.info, cur.obj).neighbors, {});
    NodesFile(c, ns, root, s.nodes);
    SinglesTie(AddNotes(s, d.notes), c, ns, rootId, cur, d.neighbors);
  }

  lemma ExpandTies(s: State, c: Cluster, ns: string, root: Place, rootId: Id, cur: Queued)
    requires Expanding(s, c, ns, root, rootId, cur) && Orderly(c, root) && NoGap(Expand(s, c, ns, cur).notes)
    ensures AllTied(Expand(s, c, ns, cur), ns, cur.id, Neighbors(s, c, ns, cur).neighbors)
    ensures KeepsFolded(s.clubbed, Expand(s, c, ns, cur).clubbed)
  {
    if kind, ci :| ChildType(c, cur, kind, ci) {
      ExpandTiesChildren(s, c, ns, root, rootId, cur, kind, ci);
    } else {
      ExpandTiesChildless(s, c, ns, root, rootId, cur);
    }
  }

  // ----- What an expanded object points at is linked to it -----

  /** `p` is joined to `id`: through the stand-in it is folded into, or as its own node. */
  ghost predicate Linked(s: State, ns: string, id: Id, p: Place) {
    var key, own := (p.info.kind, p.name), PlaceId(ns, p.info, p.name);
    if key in s.clubbed then Joined(s.edges, id, s.clubbed[key]) else own in s.nodes && Joined(s.edges, id, own)
  }

  ghost predicate LinksAll(c: Cluster, s: State, ns: string, q: Queued) {
    forall p :: Points(c, q.info, q.obj, p) ==> Linked(s, ns, q.id, p)
  }

  lemma TiedLinks(s: State, ns: string, id: Id, nb: Neighbor, p: Place)
    requires Tied(s, ns, id, nb) && Offers(nb, p)
    ensures Linked(s, ns, id, p)
  {
  }

  lemma AllTiedLink(s: State, s': State, c: Cluster, ns: string, cur: Queued)
    requires AllTied(s', ns, cur.id, Neighbors(s, c, ns, cur).neighbors)
    ensures LinksAll(c, s', ns, cur)
  {
    var nbs := Neighbors(s, c, ns, cur).neighbors;
    forall p | Points(c, cur.info, cur.obj, p) ensures Linked(s', ns, cur.id, p) {
      NeighborsOffer(s, c, ns, cur, p);
      var i :| 0 <= i < |nbs| && Offers(nbs[i], p);
      assert Tied(s', ns, cur.id, nbs[i]);
      TiedLinks(s', ns, cur.id, nbs[i], p);
    }
  }

  lemma LinksStay(c: Cluster, s: State, s': State, ns: string, q: Queued)
    requires LinksAll(c, s, ns, q) && Settles(s, s', ns)
    ensures LinksAll(c, s', ns, q)
  {
    forall p | Points(c, q.info, q.obj, p) ensures Linked(s', ns, q.id, p) {
      assert Linked(s, ns, q.id, p);
      if (p.info.kind, p.name) !in s.clubbed { DrawnNotFolded(s'.nodes, s'.clubbed, ns, p.info, p.name); }
    }
  }

  // ----- The whole walk -----

  ghost predicate Links(s: State, c: Cluster, ns: string, limit: nat) {
    NoGap(s.notes) ==> forall i | 0 <= i < |s.popped| :: s.popped[i].depth < limit ==> LinksAll(c, s, ns, s.popped[i])
  }

  lemma LinksMore(s: State, s': State, c: Cluster, ns: string, limit: nat, cur: Queued)
    requires Links(s, c, ns, limit) && s.notes <= s'.notes && s'.popped == s.popped + [cur]
    requires NoGap(s'.notes) ==> Settles(s, s', ns) && (cur.depth < limit ==> LinksAll(c, s', ns, cur))
    ensures Links(s', c, ns, limit)
  {
    if NoGap(s'.notes) {
      forall i | 0 <= i < |s.popped| && s.popped[i].depth < limit ensures LinksAll(c, s', ns, s.popped[i]) {
        LinksStay(c, s, s', ns, s.popped[i]);
      }
    }
  }

  lemma ExpandSettles(s: State, c: Cluster, ns: string, root: Place, rootId: Id, cur: Queued)
    requires Expanding(s, c, ns, root, rootId, cur) && Orderly(c, root) && NoGap(Expand(s, c, ns, cur).notes)
    requires Filing(Expand(s, c, ns, cur).nodes, ns)
    ensures Settles(s, Expand(s, c, ns, cur), ns) && LinksAll(c, Expand(s, c, ns, cur), ns, cur)
  {
    ExpandKeeps(s, rootId, c, ns, cur);
    ExpandClubs(s, c, ns, root, rootId, cur);
    ExpandTies(s, c, ns, root, rootId, cur);
    AllTiedLink(s, Expand(s, c, ns, cur), c, ns, cur);
  }

  lemma TurnFiles(s: State, c: Cluster, ns: string, root: Place, rootId: Id, limit: nat)
    requires Complete(s, c, ns, root, rootId, limit) && Consistent(c) && s.queue != []
    ensures Filing(Turn(s, c, ns, limit).nodes, ns)
  {
    HonestTurn(s, c, ns, root, rootId, limit);
    NodesFile(c, ns, root, Turn(s, c, ns, limit).nodes);
  }

  lemma PopSettles(s: State, s': State, ns: string)
    requires s.queue != [] && Settles(Pop(s), s', ns)
    ensures Settles(s, s', ns)
  {
  }

  lemma TurnSettles(s: State, c: Cluster, ns: string, root: Place, rootId: Id, limit: nat)
    requires Complete(s, c, ns, root, rootId, limit) && Clubs(s, c, ns, limit) && Orderly(c, root) && s.queue != []
    requires NoGap(Turn(s, c, ns, limit).notes)
    ensures Settles(s, Turn(s, c, ns, limit), ns)
    ensures s.queue[0].depth < limit ==> LinksAll(c, Turn(s, c, ns, limit), ns, s.queue[0])
  {
    TurnFiles(s, c, ns, root, rootId, limit);
    if s.queue[0].depth < limit {
      BecomesExpanding(s, c, ns, root, rootId, limit);
      ExpandSettles(Pop(s), c, ns, root, rootId, s.queue[0]);
    } else {
      StillSettled(Pop(s), ns);
    }
    PopSettles(s, Turn(s, c, ns, limit), ns);
  }

  lemma StillSettled(s: State, ns: string)
    requires NotBoth(s.nodes, s.clubbed) && Filing(s.nodes, ns)
    ensures Settles(s, s, ns)
  {
  }

  lemma LinksTurn(s: State, c: Cluster, ns: string, root: Place, rootId: Id, limit: nat)
    requires Complete(s, c, ns, root, rootId, limit) && Clubs(s, c, ns, limit) && Orderly(c, root) && s.queue != []
    requires Links(s, c, ns, limit)
    ensures Links(Turn(s, c, ns, limit), c, ns, limit)
  {
    TurnKeeps(s, rootId, c, ns, limit);
    ParentsTurn(s, c, ns, rootId, limit);
    if NoGap(Turn(s, c, ns, limit).notes) { TurnSettles(s, c, ns, root, rootId, limit); }
    LinksMore(s, Turn(s, c, ns, limit), c, ns, limit, s.queue[0]);
  }

  lemma {:induction false} WalkLinks(s: State, c: Cluster, ns: string, root: Place, rootId: Id, limit: nat)
    requires Complete(s, c, ns, root, rootId, limit) && Clubs(s, c, ns, limit) && Orderly(c, root) && Links(s, c, ns, limit)
    ensures Links(Walk(s, c, ns, limit), c, ns, limit)
    decreases MAX_NODES - |s.nodes| + |s.queue|
  {
    if s.queue != [] {
      LinksTurn(s, c, ns, root, rootId, limit);
      ClubsTurn(s, c, ns, root, rootId, limit);
      TurnCompletes(s, c, ns, root, rootId, limit);
      WalkLinks(Turn(s, c, ns, limit), c, ns, root, rootId, limit);
    }
  }

  lemma TurnCompletes(s: State, c: Cluster, ns: string, root: Place, rootId: Id, limit: nat)
    requires Complete(s, c, ns, root, rootId, limit) && Consistent(c) && s.queue != []
    ensures Complete(Turn(s, c, ns, limit), c, ns, root, rootId, limit)
  {
    TurnKeeps(s, rootId, c, ns, limit);
    ParentsTurn(s, c, ns, rootId, limit);
    ClosedTurn(s, c, ns, rootId, limit);
    HonestTurn(s, c, ns, root, rootId, limit);
  }

  /** Unless the node cap or a failed read is noted, everything an expanded object points at is on the
      graph exactly once and joined to it: as a node of its own, or folded and then through
      the very stand-in it is folded into. */
  lemma FoldedIsJoined(c: Cluster, ns: string, info: Info, name: string, requested: int, q: Queued, p: Place)
    requires Built(c, ns, info, name, requested).Some? && Orderly(c, Place(info, name))
    requires NoGap(Built(c, ns, info, name, requested).value.notes)
    requires q in Built(c, ns, info, name, requested).value.popped && q.depth < EffectiveDepth(requested)
    requires Points(c, q.info, q.obj, p)
    ensures var s := Built(c, ns, info, name, requested).value;
            var key, own := (p.info.kind, p.name), PlaceId(ns, p.info, p.name);
            && (key in s.clubbed <==> own !in s.nodes)
            && Joined(s.edges, q.id, if key in s.clubbed then s.clubbed[key] else own)
  {
    var s := Built(c, ns, info, name, requested).value;
    BuiltLinks(c, ns, info, name, requested);
    BuiltSettled(c, ns, info, name, requested);
    LinkedOnce(s, c, ns, EffectiveDepth(requested), q, p);
  }

  lemma BuiltLinks(c: Cluster, ns: string, info: Info, name: string, requested: int)
    requires Built(c, ns, info, name, requested).Some? && Orderly(c, Place(info, name))
    ensures Links(Built(c, ns, info, name, requested).value, c, ns, EffectiveDepth(requested))
  {
    var s := Seed(requested, ns, info, name, c.fetch(info, name).obj);
    SeedCompletes(c, ns, info, name, requested);
    SeedClubs(c, ns, info, name, requested);
    WalkLinks(s, c, ns, Place(info, name), PlaceId(ns, info, name), EffectiveDepth(requested));
  }

  lemma BuiltSettled(c: Cluster, ns: string, info: Info, name: string, requested: int)
    requires Built(c, ns, info, name, requested).Some? && Orderly(c, Place(info, name))
    ensures var s := Built(c, ns, info, name, requested).value; NotBoth(s.nodes, s.clubbed) && Filing(s.nodes, ns)
  {
    BuiltCompletes(c, ns, info, name, requested);
    BuiltClubs(c, ns, info, name, requested);
    NodesFile(c, ns, Place(info, name), Built(c, ns, info, name, requested).value.nodes);
  }

  lemma LinkedOnce(s: State, c: Cluster, ns: string, limit: nat, q: Queued, p: Place)
    requires Links(s, c, ns, limit) && NotBoth(s.nodes, s.clubbed) && Filing(s.nodes, ns) && NoGap(s.notes)
    requires q in s.popped && q.depth < limit && Points(c, q.info, q.obj, p)
    ensures var key, own := (p.info.kind, p.name), PlaceId(ns, p.info, p.name);
            && (key in s.clubbed <==> own !in s.nodes)
            && Joined(s.edges, q.id, if key in s.clubbed then s.clubbed[key] else own)
  {
    var i :| 0 <= i < |s.popped| && s.popped[i] == q;
    assert LinksAll(c, s, ns, s.popped[i]);
    assert Linked(s, ns, q.id, p);
    if PlaceId(ns, p.info, p.name) in s.nodes { DrawnNotFolded(s.nodes, s.clubbed, ns, p.info, p.name); }
  }
}
