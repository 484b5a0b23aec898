/** What an object points at, and that the neighbours the walk derives are exactly that. */
module GraphReach {
  import opened Optional
  import opened GraphModel

  /** An object as references name it: its type and its name. */
  datatype Place = Place(info: Info, name: string)

  ghost predicate OwnedBy(c: Cluster, refs: seq<OwnerRef>, p: Place) {
    exists i :: 0 <= i < |refs| && c.byGroupKind(refs[i].apiVersion, refs[i].kind) == Some(p.info) && refs[i].name == p.name
  }

  ghost predicate Lists(c: Cluster, uid: string, p: Place, o: Obj) {
    && c.list(p.info).Listed? && o in c.list(p.info).items && ControlledBy(o.owners, uid) && o.name == p.name
  }

  ghost predicate Controls(c: Cluster, uid: string, kinds: seq<string>, p: Place) {
    exists i, o :: 0 <= i < |kinds| && c.byKind(kinds[i]) == Some(p.info) && Lists(c, uid, p, o)
  }

  ghost predicate Offers(nb: Neighbor, p: Place) {
    nb.info == p.info &&
    match nb
    case Single(_, name, _, _, _, _) => name == p.name
    case Club(_, items, _, _, _) => exists i :: 0 <= i < |items| && items[i].name == p.name
  }

  ghost predicate AnyOffers(nbs: seq<Neighbor>, p: Place) {
    exists i :: 0 <= i < |nbs| && Offers(nbs[i], p)
  }

  /** The discovery relation: `p` is an owner of the object, one of the listed objects
      it controls, or something its spec and the namespace indexes relate it to. */
  ghost predicate Points(c: Cluster, info: Info, obj: Obj, p: Place) {
    || OwnedBy(c, obj.owners, p)
    || Controls(c, obj.uid, OwnerChildren(info.group, info.kind), p)
    || AnyOffers(c.refs(info, obj).neighbors, p)
  }

  // ----- The neighbour list offers exactly what the object points at -----

  lemma OffersConcat(a: seq<Neighbor>, b: seq<Neighbor>, p: Place)
    ensures AnyOffers(a + b, p) <==> AnyOffers(a, p) || AnyOffers(b, p)
  {
    var ab := a + b;
    if AnyOffers(a, p) {
      var i :| 0 <= i < |a| && Offers(a[i], p);
      assert ab[i] == a[i];
    }
    if AnyOffers(b, p) {
      var i :| 0 <= i < |b| && Offers(b[i], p);
      assert ab[|a| + i] == b[i];
    }
  }

  lemma OwnedBySnoc(c: Cluster, front: seq<OwnerRef>, last: OwnerRef, p: Place)
    ensures OwnedBy(c, front + [last], p) <==>
            OwnedBy(c, front, p) || (c.byGroupKind(last.apiVersion, last.kind) == Some(p.info) && last.name == p.name)
  {
    var refs := front + [last];
    assert refs[|front|] == last;
    if OwnedBy(c, front, p) {
      var i :| 0 <= i < |front| && c.byGroupKind(front[i].apiVersion, front[i].kind) == Some(p.info) && front[i].name == p.name;
      assert refs[i] == front[i];
    }
  }

  lemma {:induction false} OwnersOffer(c: Cluster, refs: seq<OwnerRef>, p: Place)
    ensures AnyOffers(Owners(c, refs), p) <==> OwnedBy(c, refs, p)
  {
    if refs != [] {
      var front, last := refs[..|refs| - 1], refs[|refs| - 1];
      assert refs == front + [last];
      OwnedBySnoc(c, front, last, p);
      OwnersOffer(c, front, p);
      var tail := Owners(c, refs)[|Owners(c, front)|..];
      assert Owners(c, refs) == Owners(c, front) + tail;
      OffersConcat(Owners(c, front), tail, p);
      if tail != [] { assert AnyOffers(tail, p) <==> Offers(tail[0], p); }
    }
  }

  ghost predicate Named(items: seq<Obj>, name: string) {
    exists i :: 0 <= i < |items| && items[i].name == name
  }

  lemma SinglesOffer(info: Info, items: seq<Obj>, p: Place)
    ensures AnyOffers(AsSingles(info, items), p) <==> info == p.info && Named(items, p.name)
  {
    var nbs := AsSingles(info, items);
    if AnyOffers(nbs, p) {
      var i :| 0 <= i < |nbs| && Offers(nbs[i], p);
      assert items[i].name == p.name;
    }
    if info == p.info && Named(items, p.name) {
      var i :| 0 <= i < |items| && items[i].name == p.name;
      assert Offers(nbs[i], p);
    }
  }

  lemma PickSplits(nodes: map<Id, Node>, info: Info, ns: string, items: seq<Obj>, name: string)
    ensures Named(Pick(nodes, info, ns, items, true), name) || Named(Pick(nodes, info, ns, items, false), name)
            <==> Named(items, name)
  {
    var drawn, undrawn := Pick(nodes, info, ns, items, true), Pick(nodes, info, ns, items, false);
    if Named(items, name) {
      var i :| 0 <= i < |items| && items[i].name == name;
      assert items[i] in drawn || items[i] in undrawn;
    }
    if Named(drawn, name) {
      var i :| 0 <= i < |drawn| && drawn[i].name == name;
      assert drawn[i] in items;
    }
    if Named(undrawn, name) {
      var i :| 0 <= i < |undrawn| && undrawn[i].name == name;
      assert undrawn[i] in items;
    }
  }

  lemma ControlledNamed(c: Cluster, uid: string, p: Place)
    requires c.list(p.info).Listed?
    ensures Named(Controlled(c.list(p.info).items, uid), p.name) <==> exists o :: Lists(c, uid, p, o)
  {
    var owned := Controlled(c.list(p.info).items, uid);
    if Named(owned, p.name) {
      var i :| 0 <= i < |owned| && owned[i].name == p.name;
      assert owned[i] in owned && Lists(c, uid, p, owned[i]);
    }
    if o :| Lists(c, uid, p, o) {
      assert o in owned;
    }
  }

  lemma OneClubOffers(nb: Neighbor, p: Place)
    requires nb.Club?
    ensures AnyOffers([nb], p) <==> nb.info == p.info && Named(nb.items, p.name)
  {
    assert [nb][0] == nb;
    if nb.info == p.info && Named(nb.items, p.name) {
      var i :| 0 <= i < |nb.items| && nb.items[i].name == p.name;
      assert Offers(nb, p);
      assert Offers([nb][0], p);
    }
  }

  /** The undrawn items, as single neighbours or as one club. */
  function Tail(cur: Queued, info: Info, kind: string, undrawn: seq<Obj>): seq<Neighbor> {
    var series := RunSeries(cur.info.group, cur.info.kind, kind);
    if undrawn == [] then []
    else if |undrawn| > MAX_FAN_OUT || (series && |undrawn| >= CLUB_FROM)
    then [Club(info, undrawn, Owns, if series then "runs" else "", false)]
    else AsSingles(info, undrawn)
  }

  lemma TailOffers(cur: Queued, info: Info, kind: string, undrawn: seq<Obj>, p: Place)
    ensures AnyOffers(Tail(cur, info, kind, undrawn), p) <==> info == p.info && Named(undrawn, p.name)
  {
    var tail := Tail(cur, info, kind, undrawn);
    if |tail| == 1 && tail[0].Club? { OneClubOffers(tail[0], p); } else { SinglesOffer(info, undrawn, p); }
  }

  lemma ListedOffers(s: State, c: Cluster, ns: string, cur: Queued, kind: string, info: Info, p: Place)
    requires c.list(info).Listed?
    ensures var owned := Controlled(c.list(info).items, cur.obj.uid);
            AnyOffers(AsSingles(info, Pick(s.nodes, info, ns, owned, true)) + Tail(cur, info, kind, Pick(s.nodes, info, ns, owned, false)), p)
            <==> info == p.info && Named(owned, p.name)
  {
    var owned := Controlled(c.list(info).items, cur.obj.uid);
    var drawn, undrawn := Pick(s.nodes, info, ns, owned, true), Pick(s.nodes, info, ns, owned, false);
    OffersConcat(AsSingles(info, drawn), Tail(cur, info, kind, undrawn), p);
    SinglesOffer(info, drawn, p);
    TailOffers(cur, info, kind, undrawn, p);
    PickSplits(s.nodes, info, ns, owned, p.name);
  }

  lemma KindIsListed(s: State, c: Cluster, ns: string, cur: Queued, kind: string, info: Info)
    requires c.byKind(kind) == Some(info) && c.list(info).Listed?
    ensures var owned := Controlled(c.list(info).items, cur.obj.uid);
            ChildrenOfKind(s, c, ns, cur, kind).neighbors ==
            AsSingles(info, Pick(s.nodes, info, ns, owned, true)) + Tail(cur, info, kind, Pick(s.nodes, info, ns, owned, false))
  {
  }

  lemma KindOffers(s: State, c: Cluster, ns: string, cur: Queued, kind: string, p: Place)
    ensures AnyOffers(ChildrenOfKind(s, c, ns, cur, kind).neighbors, p)
            <==> c.byKind(kind) == Some(p.info) && exists o :: Lists(c, cur.obj.uid, p, o)
  {
    var found := c.byKind(kind);
    if found.Some? && c.list(found.value).Listed? {
      KindIsListed(s, c, ns, cur, kind, found.value);
      ListedOffers(s, c, ns, cur, kind, found.value, p);
      if found.value == p.info { ControlledNamed(c, cur.obj.uid, p); }
    }
  }

  lemma ControlsSnoc(c: Cluster, uid: string, front: seq<string>, last: string, p: Place)
    ensures Controls(c, uid, front + [last], p) <==>
            Controls(c, uid, front, p) || (c.byKind(last) == Some(p.info) && exists o :: Lists(c, uid, p, o))
  {
    var kinds := front + [last];
    assert kinds[|front|] == last;
    if Controls(c, uid, front, p) {
      var i, o :| 0 <= i < |front| && c.byKind(front[i]) == Some(p.info) && Lists(c, uid, p, o);
      assert kinds[i] == front[i];
    }
  }

  lemma {:induction false} ChildrenOffer(s: State, c: Cluster, ns: string, cur: Queued, kinds: seq<string>, p: Place)
    ensures AnyOffers(Children(s, c, ns, cur, kinds).neighbors, p) <==> Controls(c, cur.obj.uid, kinds, p)
  {
    if kinds != [] {
      var front, last := kinds[..|kinds| - 1], kinds[|kinds| - 1];
      assert kinds == front + [last];
      ControlsSnoc(c, cur.obj.uid, front, last, p);
      ChildrenOffer(s, c, ns, cur, front, p);
      KindOffers(s, c, ns, cur, last, p);
      OffersConcat(Children(s, c, ns, cur, front).neighbors, ChildrenOfKind(s, c, ns, cur, last).neighbors, p);
    }
  }

  /** However much of the graph is already drawn, the neighbours derived for an object
      offer exactly the places it points at. */
  lemma NeighborsOffer(s: State, c: Cluster, ns: string, cur: Queued, p: Place)
    ensures AnyOffers(Neighbors(s, c, ns, cur).neighbors, p) <==> Points(c, cur.info, cur.obj, p)
  {
    var kinds := OwnerChildren(cur.info.group, cur.info.kind);
    var a, b, d := Owners(c, cur.obj.owners), Children(s, c, ns, cur, kinds).neighbors, c.refs(cur.info, cur.obj).neighbors;
    OwnersOffer(c, cur.obj.owners, p);
    ChildrenOffer(s, c, ns, cur, kinds, p);
    OffersConcat(a, b, p);
    OffersConcat(a + b, d, p);
  }
}
