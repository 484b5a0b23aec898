/** A small cluster the walk's theorems apply to: a Job and its two pods. */
module GraphExample {
  import opened Optional
  import opened GraphModel
  import opened GraphReach
  import opened GraphWalk
  import opened GraphComplete
  import opened GraphClubs

  const JOBS := Info("batch", "v1", "jobs", "Job", true)
  const PODS := Info("", "v1", "pods", "Pod", true)
  const BY_JOB := [OwnerRef("batch/v1", "Job", "run", "u0", true)]
  const JOB := Obj("Job", "run", "u0", [], "Running")
  const POD_A := Obj("Pod", "a", "u1", BY_JOB, "Failed")
  const POD_B := Obj("Pod", "b", "u2", BY_JOB, "Completed")

  function ByKind(kind: string): Option<Info> {
    if kind == "Job" then Some(JOBS) else if kind == "Pod" then Some(PODS) else None
  }

  function Fetch(info: Info, name: string): Fetched {
    if info == JOBS && name == "run" then Found(JOB)
    else if info == PODS && name == "a" then Found(POD_A)
    else if info == PODS && name == "b" then Found(POD_B)
    else Absent
  }

  function ListOf(info: Info): Listing {
    Listed(if info == JOBS then [JOB] else if info == PODS then [POD_A, POD_B] else [], false)
  }

  const CLUSTER := Cluster(ByKind, (group, kind) => ByKind(kind), Fetch, ListOf, (info, obj) => Derived([], []))

  const ROOT := Place(JOBS, "run")

  lemma ControllersAre(o: Obj, uid: string)
    ensures ControlledBy(POD_A.owners, uid) <==> uid == "u0"
    ensures ControlledBy(POD_B.owners, uid) <==> uid == "u0"
    ensures !ControlledBy(JOB.owners, uid)
  {
    assert BY_JOB[0].uid == "u0";
  }

  lemma SnapshotIsConsistent()
    ensures Consistent(CLUSTER) && NoServiceClub(CLUSTER, ROOT) && UniqueNames(CLUSTER) && UniqueUids(CLUSTER, ROOT)
  {
    forall p, q, o, o' | ReadsAs(CLUSTER, p, o) && ReadsAs(CLUSTER, q, o') && o.uid == o'.uid ensures p == q {
      assert o == JOB || o == POD_A || o == POD_B;
    }
  }

  lemma OwnershipIsOrderly()
    ensures OneController(CLUSTER) && ChildrenNamespaced(CLUSTER)
  {
    forall info, o, u, v | CLUSTER.list(info).Listed? && o in CLUSTER.list(info).items && ControlledBy(o.owners, u) && ControlledBy(o.owners, v)
      ensures u == v
    {
      assert o == JOB || o == POD_A || o == POD_B;
      ControllersAre(o, u);
      ControllersAre(o, v);
    }
  }

  /** Whatever the cluster points at is a Job or a pod; what a pod points at is a Job, what
      the Job points at is a pod. */
  lemma PointsAre(info: Info, name: string, p: Place)
    requires CLUSTER.fetch(info, name).Found?
    ensures OwnedBy(CLUSTER, CLUSTER.fetch(info, name).obj.owners, p) ==> info == PODS && p == ROOT
    ensures Controls(CLUSTER, CLUSTER.fetch(info, name).obj.uid, OwnerChildren(info.group, info.kind), p) ==> info == JOBS && p.info == PODS
    ensures !AnyOffers(CLUSTER.refs(info, CLUSTER.fetch(info, name).obj).neighbors, p)
  {
    var obj := CLUSTER.fetch(info, name).obj;
    assert obj == JOB || obj == POD_A || obj == POD_B;
    if Controls(CLUSTER, obj.uid, OwnerChildren(info.group, info.kind), p) {
      var kinds := OwnerChildren(info.group, info.kind);
      var i, o :| 0 <= i < |kinds| && CLUSTER.byKind(kinds[i]) == Some(p.info) && Lists(CLUSTER, obj.uid, p, o);
      assert kinds == if info == JOBS then ["Pod"] else [];
    }
  }

  lemma Reaches(n: nat, p: Place)
    requires Reach(CLUSTER, ROOT, n, p)
    ensures p.info == JOBS || p.info == PODS
  {
    if n > 0 {
      var q :| Reach(CLUSTER, ROOT, n - 1, q) && Hop(CLUSTER, q, p);
      PointsAre(q.info, q.name, p);
    }
  }

  /** The hypotheses of the conservation theorem can be met. */
  lemma ClusterIsOrderly()
    ensures Orderly(CLUSTER, ROOT)
  {
    SnapshotIsConsistent();
    OwnershipIsOrderly();
    forall q, p, o | Reached(CLUSTER, ROOT, q) && ReadsAs(CLUSTER, q, o) && OwnedBy(CLUSTER, o.owners, p)
      ensures !Controls(CLUSTER, o.uid, OwnerChildren(q.info.group, q.info.kind), p)
    {
      PointsAre(q.info, q.name, p);
    }
    forall p, q | Reached(CLUSTER, ROOT, p) && Reached(CLUSTER, ROOT, q) && p.info.kind == q.info.kind ensures p.info == q.info {
      var n: nat :| Reach(CLUSTER, ROOT, n, p);
      var m: nat :| Reach(CLUSTER, ROOT, m, q);
      Reaches(n, p);
      Reaches(m, q);
    }
  }

  lemma ControlledPods()
    ensures CLUSTER.list(PODS) == Listed([POD_A, POD_B], false)
    ensures Controlled([POD_A, POD_B], "u0") == [POD_A, POD_B]
  {
    ControllersAre(POD_A, "u0");
    assert [POD_A, POD_B][..1] == [POD_A] && [POD_A][..0] == [];
    assert Controlled([POD_A], "u0") == Controlled([], "u0") + [POD_A];
  }

  lemma PodsUndrawn(nodes: Nodes, drawn: bool)
    requires NodeId(PODS, "ns", "a") !in nodes && NodeId(PODS, "ns", "b") !in nodes
    ensures Pick(nodes, PODS, "ns", [POD_A, POD_B], drawn) == if drawn then [] else [POD_A, POD_B]
  {
    assert [POD_A, POD_B][..1] == [POD_A] && [POD_A][..0] == [];
    assert Pick(nodes, PODS, "ns", [POD_A], drawn) == Pick(nodes, PODS, "ns", [], drawn) + if drawn then [] else [POD_A];
  }

  const ENTRY := Queued(NodeId(JOBS, "ns", "run"), JOB, JOBS, 0)
  const PAIR := Club(PODS, [POD_A, POD_B], Owns, "runs", false)

  lemma PodsOfferPair(s: State)
    requires NodeId(PODS, "ns", "a") !in s.nodes && NodeId(PODS, "ns", "b") !in s.nodes
    ensures ChildrenOfKind(s, CLUSTER, "ns", ENTRY, "Pod") == Derived([PAIR], [])
  {
    ControlledPods();
    PodsUndrawn(s.nodes, true);
    PodsUndrawn(s.nodes, false);
    assert CLUSTER.byKind("Pod") == Some(PODS);
    assert RunSeries("batch", "Job", "Pod");
  }

  lemma OneOffer(s: State, c: Cluster, cur: Queued, kind: string, nb: Neighbor)
    requires OwnerChildren(cur.info.group, cur.info.kind) == [kind] && cur.obj.owners == []
    requires c.refs(cur.info, cur.obj) == Derived([], []) && ChildrenOfKind(s, c, "ns", cur, kind) == Derived([nb], [])
    ensures Neighbors(s, c, "ns", cur) == Derived([nb], [])
  {
    OnlyKind(s, c, cur, kind, [nb]);
    OneOwnerless(c, cur);
    assert [] + [nb] + [] == [nb];
  }

  lemma OnlyKind(s: State, c: Cluster, cur: Queued, kind: string, nbs: seq<Neighbor>)
    requires ChildrenOfKind(s, c, "ns", cur, kind) == Derived(nbs, [])
    ensures Children(s, c, "ns", cur, [kind]) == Derived(nbs, [])
  {
    assert [kind][..0] == [] && [] + nbs == nbs;
    assert Children(s, c, "ns", cur, []) == Derived([], []);
  }

  lemma OneOwnerless(c: Cluster, cur: Queued)
    requires cur.obj.owners == []
    ensures Owners(c, cur.obj.owners) == []
  {
  }

  /** A walk that ends after its first turn. */
  lemma OneTurn(s: State, c: Cluster, limit: nat, nb: Neighbor)
    requires |s.queue| == 1 && |s.nodes| <= MAX_NODES && s.queue[0].depth < limit
    requires Neighbors(Pop(s), c, "ns", s.queue[0]) == Derived([nb], [])
    requires Visit(Pop(s), c, "ns", s.queue[0], nb).queue == []
    ensures Walk(s, c, "ns", limit) == Visit(Pop(s), c, "ns", s.queue[0], nb)
  {
    var t, u := Pop(s), Visit(Pop(s), c, "ns", s.queue[0], nb);
    assert [nb][..0] == [];
    assert VisitAll(t, c, "ns", s.queue[0], []) == t;
    assert Turn(s, c, "ns", limit) == u;
  }

  lemma PairIsFolded(s: State)
    requires |s.nodes| < MAX_NODES && AggregateId(ENTRY.id, "Pod") !in s.nodes
    ensures var u := Visit(s, CLUSTER, "ns", ENTRY, PAIR); var id := AggregateId(ENTRY.id, "Pod");
            && u.queue == s.queue && u.popped == s.popped && u.notes == s.notes && id in u.nodes
            && u.nodes[id].aggregate && u.nodes[id].count == 2
  {
  }

  /** The Job's graph: its two pods folded into one counted stand-in, nothing missing. */
  lemma JobIsDrawn()
    ensures var r := Built(CLUSTER, "ns", JOBS, "run", 3);
            && r.Some? && r.value.notes == [] && ENTRY in r.value.popped
            && AggregateId(ENTRY.id, "Pod") in r.value.nodes && r.value.nodes[AggregateId(ENTRY.id, "Pod")].count == 2
            && r.value.nodes[AggregateId(ENTRY.id, "Pod")].aggregate
  {
    var s := Seed(3, "ns", JOBS, "run", JOB);
    var node := SeedShape(3, "ns", JOBS, "run", JOB);
    assert s.queue[0] == ENTRY && s.notes == [];
    var t := Pop(s);
    assert OwnerChildren("batch", "Job") == ["Pod"];
    PodsOfferPair(t);
    OneOffer(t, CLUSTER, ENTRY, "Pod", PAIR);
    PairIsFolded(t);
    OneTurn(s, CLUSTER, 3, PAIR);
    assert CLUSTER.fetch(JOBS, "run") == Found(JOB);
  }

  /** The theorem at work: the Job controls two pods, none is drawn, and one stand-in
      counts both. */
  lemma TwoPodsAreConserved()
    ensures var r, a := Built(CLUSTER, "ns", JOBS, "run", 3), AggregateId(ENTRY.id, "Pod");
            && r.Some? && r.value.notes == [] && CLUSTER.list(PODS) == Listed([POD_A, POD_B], false)
            && Controlled([POD_A, POD_B], JOB.uid) == [POD_A, POD_B] && DrawnChildren(r.value, CLUSTER, "ns", ENTRY, PODS) == []
            && a in r.value.nodes && r.value.nodes[a].aggregate && r.value.nodes[a].count == 2
  {
    JobIsDrawn();
    ControlledPods();
    NoPodIsDrawn(Built(CLUSTER, "ns", JOBS, "run", 3).value);
  }

  lemma NoPodIsDrawn(s: State)
    requires Built(CLUSTER, "ns", JOBS, "run", 3) == Some(s) && s.notes == [] && ENTRY in s.popped
    requires AggregateId(ENTRY.id, "Pod") in s.nodes && s.nodes[AggregateId(ENTRY.id, "Pod")].count == 2
    ensures CLUSTER.list(PODS).Listed? && DrawnChildren(s, CLUSTER, "ns", ENTRY, PODS) == []
  {
    ClusterIsOrderly();
    assert OwnerChildren("batch", "Job")[0] == "Pod";
    ClubbingConserves(CLUSTER, "ns", JOBS, "run", 3, ENTRY, "Pod", PODS);
    ControlledPods();
    assert Controlled(CLUSTER.list(PODS).items, ENTRY.obj.uid) == [POD_A, POD_B];
  }

  /** Where each reachable kind is served by one type, node identities tell objects apart:
      the exactness theorem applies to every orderly cluster. */
  lemma OrderlyHasOneVersion(c: Cluster, ns: string, root: Place)
    requires OneGroup(c, root)
    ensures OneVersion(c, ns, root)
  {
    forall p, q | Reached(c, root, p) && Reached(c, root, q) && PlaceId(ns, p.info, p.name) == PlaceId(ns, q.info, q.name)
      ensures p == q
    {
      assert p.info.kind == q.info.kind;
    }
  }
}
