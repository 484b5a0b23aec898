/** The resource graph's data model: what the cluster answers, what the builder
    keeps while it walks, and the pure form of every builder operation. The
    imperative builder is proved against these functions; the theorems about the
    walk are lemmas over them. */
module GraphModel {
  import opened Optional
  import StatusTally
  import Text

  const MAX_NODES := 150
  const MAX_FAN_OUT := 24
  const CLUB_FROM := 2
  const DEFAULT_DEPTH := 3
  const MAX_DEPTH := 6

  // ----- What the cluster serves -----

  /** One resource type as discovery reports it. */
  datatype Info = Info(group: string, version: string, resource: string, kind: string, namespaced: bool)

  datatype OwnerRef = OwnerRef(apiVersion: string, kind: string, name: string, uid: string, controller: bool)

  /** A live object: its identity, its owners and its rendered badge. */
  datatype Obj = Obj(kind: string, name: string, uid: string, owners: seq<OwnerRef>, status: string)

  datatype Fetched = Found(obj: Obj) | Absent | Unreadable

  datatype Listing = Listed(items: seq<Obj>, truncated: bool) | ListFailed

  datatype Relation = Owns | Routes | Mounts | Env | ImagePullSecret | Claims | ServiceAccountOf | Scales

  /** One edge the current object produces, before its target becomes a node. */
  datatype Neighbor =
    | Single(info: Info, name: string, held: Option<Obj>, rel: Relation, mechanism: string, inbound: bool)
    | Club(info: Info, items: seq<Obj>, rel: Relation, mechanism: string, inbound: bool)

  /** Why the graph is not the whole truth. */
  datatype Note =
    | DepthClamped(requested: nat)
    | NodeCap
    | FanOut(kind: string, name: string, count: nat, resource: string)
    | CouldNotList(resource: string)
    | Truncated(resource: string)
    | CouldNotRead(kind: string, name: string)
    | BackendsMissing(service: string, count: nat)

  datatype Derived = Derived(neighbors: seq<Neighbor>, notes: seq<Note>)

  /** A fixed cluster snapshot. `refs` stands for the relations that live in specs
      and namespace indexes (pod references, Service and Ingress routes, bound
      volumes, autoscalers); ownership is modelled in full below. */
  datatype Cluster = Cluster(
    byKind: string -> Option<Info>,
    byGroupKind: (string, string) -> Option<Info>,
    fetch: (Info, string) -> Fetched,
    list: Info -> Listing,
    refs: (Info, Obj) -> Derived)

  // ----- What the builder keeps -----

  datatype Id =
    | ObjectId(group: string, kind: string, namespace: string, name: string)
    | AggregateId(parent: Id, memberKind: string)

  datatype Node = Node(
    info: Info, namespace: string, name: string, status: string, depth: nat, focus: bool,
    aggregate: bool, count: nat, missing: bool, parent: Option<Id>)

  datatype Edge = Edge(source: Id, target: Id, rel: Relation, mechanism: string)

  datatype Queued = Queued(id: Id, obj: Obj, info: Info, depth: nat)

  /** The builder's fields; `popped` records the queue entries already taken. */
  datatype State = State(
    nodes: map<Id, Node>, nodeOrder: seq<Id>,
    edges: map<(Id, Id), Edge>, edgeOrder: seq<(Id, Id)>,
    queue: seq<Queued>, popped: seq<Queued>,
    clubbed: map<(string, string), Id>, notes: seq<Note>)

  const EMPTY := State(map[], [], map[], [], [], [], map[], [])

  // ----- Tables -----

  function OwnerChildren(group: string, kind: string): seq<string> {
    if group == "apps" && kind == "Deployment" then ["ReplicaSet"]
    else if group == "apps" && kind in {"ReplicaSet", "StatefulSet", "DaemonSet"} then ["Pod"]
    else if group == "batch" && kind == "Job" then ["Pod"]
    else if group == "batch" && kind == "CronJob" then ["Job"]
    else []
  }

  predicate RunSeries(group: string, kind: string, child: string) {
    group == "batch" && ((kind == "Job" && child == "Pod") || (kind == "CronJob" && child == "Job"))
  }

  predicate PodController(group: string, kind: string) {
    (group == "apps" && kind in {"Deployment", "StatefulSet", "DaemonSet", "ReplicaSet"})
    || (group == "batch" && kind in {"Job", "CronJob"})
  }

  // ----- Identity -----

  function NodeId(info: Info, namespace: string, name: string): Id {
    ObjectId(if info.group == "" then "core" else info.group, info.kind, namespace, name)
  }

  /** The namespace a node of this type is filed under. */
  function ScopeOf(info: Info, ns: string): string {
    if info.namespaced then ns else ""
  }

  function PlaceId(ns: string, info: Info, name: string): Id {
    NodeId(info, ScopeOf(info, ns), name)
  }

  // ----- Small steps -----

  function AddNote(s: State, note: Note): (s': State)
    ensures s' == s.(notes := s'.notes)
  {
    if note in s.notes then s else s.(notes := s.notes + [note])
  }

  function AddNotes(s: State, notes: seq<Note>): (s': State)
    ensures s' == s.(notes := s'.notes)
  {
    if notes == [] then s else AddNote(AddNotes(s, notes[..|notes| - 1]), notes[|notes| - 1])
  }

  datatype Admission = Admission(s: State, id: Option<Id>, isNew: bool)

  function AddNode(s: State, info: Info, namespace: string, name: string, obj: Option<Obj>, depth: nat): (a: Admission)
    ensures a.s.queue == s.queue
    ensures |s.nodes| <= MAX_NODES ==> |a.s.nodes| <= MAX_NODES
    ensures |a.s.nodes| == |s.nodes| + if a.isNew then 1 else 0
  {
    var id := NodeId(info, namespace, name);
    if id in s.nodes then
      if depth < s.nodes[id].depth
      then Admission(s.(nodes := s.nodes[id := s.nodes[id].(depth := depth)]), Some(id), false)
      else Admission(s, Some(id), false)
    else if |s.nodes| >= MAX_NODES then Admission(AddNote(s, NodeCap), None, false)
    else
      var node := Node(info, namespace, name, if obj.Some? then obj.value.status else "Missing",
                       depth, false, false, 0, obj.None?, None);
      Admission(s.(nodes := s.nodes[id := node], nodeOrder := s.nodeOrder + [id]), Some(id), true)
  }

  function Statuses(items: seq<Obj>): seq<string> {
    if items == [] then []
    else Statuses(items[..|items| - 1]) + [var o := items[|items| - 1]; if o.status == "" then o.kind else o.status]
  }

  function Fold(clubbed: map<(string, string), Id>, kind: string, items: seq<Obj>, id: Id): map<(string, string), Id> {
    if items == [] then clubbed
    else Fold(clubbed, kind, items[..|items| - 1], id)[(kind, items[|items| - 1].name) := id]
  }

  function AddAggregate(s: State, ns: string, parent: Id, info: Info, items: seq<Obj>, depth: nat): (a: Admission)
    ensures a.s.queue == s.queue
    ensures |s.nodes| <= MAX_NODES ==> |a.s.nodes| <= MAX_NODES
    ensures |a.s.nodes| == |s.nodes| + if a.isNew then 1 else 0
  {
    var id := AggregateId(parent, info.kind);
    if id in s.nodes then Admission(s, Some(id), false)
    else if |s.nodes| >= MAX_NODES then Admission(AddNote(s, NodeCap), None, false)
    else
      var node := Node(info, ns, "", StatusTally.Tally(Statuses(items)), depth, false, true, |items|, false, None);
      Admission(s.(nodes := s.nodes[id := node], nodeOrder := s.nodeOrder + [id],
                   clubbed := Fold(s.clubbed, info.kind, items, id)), Some(id), true)
  }

  /** Appends a mechanism to a comma-separated label, once. */
  function MergeLabel(existing: string, add: string): string {
    if add == "" then existing
    else if existing == "" then add
    else if add in Text.Split(existing, ", ") then existing
    else existing + ", " + add
  }

  function AddEdge(s: State, source: Id, target: Id, rel: Relation, mechanism: string): (s': State)
    ensures s' == s.(edges := s'.edges, edgeOrder := s'.edgeOrder)
  {
    if source == target then s
    else if (source, target) in s.edges then
      var e := s.edges[(source, target)];
      s.(edges := s.edges[(source, target) := e.(mechanism := MergeLabel(e.mechanism, mechanism))])
    else
      s.(edges := s.edges[(source, target) := Edge(source, target, rel, mechanism)],
         edgeOrder := s.edgeOrder + [(source, target)])
  }

  function Link(s: State, cur: Id, other: Id, nb: Neighbor): (s': State)
    ensures s' == s.(edges := s'.edges, edgeOrder := s'.edgeOrder)
  {
    if nb.inbound then AddEdge(s, other, cur, nb.rel, nb.mechanism) else AddEdge(s, cur, other, nb.rel, nb.mechanism)
  }

  // ----- Neighbours -----

  function Owners(c: Cluster, refs: seq<OwnerRef>): seq<Neighbor> {
    if refs == [] then []
    else
      var last := refs[|refs| - 1];
      Owners(c, refs[..|refs| - 1]) +
      match c.byGroupKind(last.apiVersion, last.kind) {
        case None => []
        case Some(info) => [Single(info, last.name, None, Owns, if last.controller then "controller" else "", true)]
      }
  }

  predicate ControlledBy(refs: seq<OwnerRef>, uid: string) {
    exists i :: 0 <= i < |refs| && refs[i].uid == uid && refs[i].controller
  }

  /** The listed items whose controlling owner is `uid`, in list order. */
  function Controlled(items: seq<Obj>, uid: string): (r: seq<Obj>)
    ensures forall o :: o in r <==> o in items && ControlledBy(o.owners, uid)
  {
    if items == [] then []
    else
      var last := items[|items| - 1];
      Controlled(items[..|items| - 1], uid) + if ControlledBy(last.owners, uid) then [last] else []
  }

  /** Of `items`, those already drawn (or, with `drawn` false, those not yet drawn). */
  function Pick(nodes: map<Id, Node>, info: Info, ns: string, items: seq<Obj>, drawn: bool): (r: seq<Obj>)
    ensures forall o :: o in r <==> o in items && (NodeId(info, ns, o.name) in nodes) == drawn
  {
    if items == [] then []
    else
      var last := items[|items| - 1];
      Pick(nodes, info, ns, items[..|items| - 1], drawn) +
      if (NodeId(info, ns, last.name) in nodes) == drawn then [last] else []
  }

  function AsSingles(info: Info, items: seq<Obj>): (r: seq<Neighbor>)
    ensures |r| == |items|
    ensures forall i :: 0 <= i < |r| ==> r[i] == Single(info, items[i].name, Some(items[i]), Owns, "", false)
  {
    if items == [] then []
    else AsSingles(info, items[..|items| - 1]) + [Single(info, items[|items| - 1].name, Some(items[|items| - 1]), Owns, "", false)]
  }

  function ListNotes(info: Info, l: Listing): seq<Note> {
    match l
    case ListFailed => [CouldNotList(info.resource)]
    case Listed(_, truncated) => if truncated then [Truncated(info.resource)] else []
  }

  function ChildrenOfKind(s: State, c: Cluster, ns: string, cur: Queued, kind: string): Derived {
    match c.byKind(kind)
    case None => Derived([], [])
    case Some(info) =>
      match c.list(info)
      case ListFailed => Derived([], [CouldNotList(info.resource)])
      case Listed(items, truncated) =>
        var owned := Controlled(items, cur.obj.uid);
        var drawnAlready := Pick(s.nodes, info, ns, owned, true);
        var undrawn := Pick(s.nodes, info, ns, owned, false);
        var series := RunSeries(cur.info.group, cur.info.kind, kind);
        var overCap := |undrawn| > MAX_FAN_OUT;
        var notes := (if truncated then [Truncated(info.resource)] else []) +
                     (if overCap then [FanOut(cur.info.kind, cur.obj.name, |undrawn|, info.resource)] else []);
        var tail := if undrawn == [] then []
                    else if overCap || (series && |undrawn| >= CLUB_FROM)
                    then [Club(info, undrawn, Owns, if series then "runs" else "", false)]
                    else AsSingles(info, undrawn);
        Derived(AsSingles(info, drawnAlready) + tail, notes)
  }

  function Children(s: State, c: Cluster, ns: string, cur: Queued, kinds: seq<string>): Derived {
    if kinds == [] then Derived([], [])
    else
      var before := Children(s, c, ns, cur, kinds[..|kinds| - 1]);
      var last := ChildrenOfKind(s, c, ns, cur, kinds[|kinds| - 1]);
      Derived(before.neighbors + last.neighbors, before.notes + last.notes)
  }

  function Neighbors(s: State, c: Cluster, ns: string, cur: Queued): Derived {
    var kids := Children(s, c, ns, cur, OwnerChildren(cur.info.group, cur.info.kind));
    var refs := c.refs(cur.info, cur.obj);
    Derived(Owners(c, cur.obj.owners) + kids.neighbors + refs.neighbors, kids.notes + refs.notes)
  }

  // ----- The walk -----

  /** Resolves one neighbour of `cur` into nodes, edges and queue entries. */
  function Visit(s: State, c: Cluster, ns: string, cur: Queued, nb: Neighbor): (s': State)
    requires |s.nodes| <= MAX_NODES
    ensures |s'.nodes| <= MAX_NODES
    ensures |s'.queue| - |s.queue| <= |s'.nodes| - |s.nodes|
  {
    match nb
    case Club(info, items, _, _, _) =>
      var a := AddAggregate(s, ns, cur.id, info, items, cur.depth + 1);
      if a.id.None? then a.s else Link(a.s, cur.id, a.id.value, nb)
    case Single(info, name, held, _, _, _) =>
      if (info.kind, name) in s.clubbed then Link(s, cur.id, s.clubbed[(info.kind, name)], nb)
      else if held.None? && c.fetch(info, name).Unreadable? then AddNote(s, CouldNotRead(info.kind, name))
      else
        var obj := if held.Some? then held
                   else match c.fetch(info, name) case Found(o) => Some(o) case _ => None;
        var a := AddNode(s, info, ScopeOf(info, ns), name, obj, cur.depth + 1);
        if a.id.None? then a.s
        else
          var linked := Link(a.s, cur.id, a.id.value, nb);
          if a.isNew && obj.Some?
          then linked.(queue := linked.queue + [Queued(a.id.value, obj.value, info, cur.depth + 1)])
          else linked
  }

  function VisitAll(s: State, c: Cluster, ns: string, cur: Queued, nbs: seq<Neighbor>): (s': State)
    requires |s.nodes| <= MAX_NODES
    ensures |s'.nodes| <= MAX_NODES
    ensures |s'.queue| - |s.queue| <= |s'.nodes| - |s.nodes|
  {
    if nbs == [] then s
    else Visit(VisitAll(s, c, ns, cur, nbs[..|nbs| - 1]), c, ns, cur, nbs[|nbs| - 1])
  }

  function Expand(s: State, c: Cluster, ns: string, cur: Queued): (s': State)
    requires |s.nodes| <= MAX_NODES
    ensures |s'.nodes| <= MAX_NODES
    ensures |s'.queue| - |s.queue| <= |s'.nodes| - |s.nodes|
  {
    var d := Neighbors(s, c, ns, cur);
    VisitAll(AddNotes(s, d.notes), c, ns, cur, d.neighbors)
  }

  function Pop(s: State): State
    requires s.queue != []
  {
    s.(queue := s.queue[1..], popped := s.popped + [s.queue[0]])
  }

  /** One turn of the worklist loop. */
  function Turn(s: State, c: Cluster, ns: string, limit: nat): (s': State)
    requires s.queue != [] && |s.nodes| <= MAX_NODES
    ensures |s'.nodes| <= MAX_NODES
    ensures MAX_NODES - |s'.nodes| + |s'.queue| < MAX_NODES - |s.nodes| + |s.queue|
  {
    var cur := s.queue[0];
    if cur.depth >= limit then Pop(s) else Expand(Pop(s), c, ns, cur)
  }

  /** The worklist loop. Its measure is the room left under the node cap plus the
      queue length: every turn takes one entry and each entry it adds uses up room. */
  function Walk(s: State, c: Cluster, ns: string, limit: nat): State
    requires |s.nodes| <= MAX_NODES
    decreases MAX_NODES - |s.nodes| + |s.queue|
  {
    if s.queue == [] then s else Walk(Turn(s, c, ns, limit), c, ns, limit)
  }

  function EffectiveDepth(requested: int): nat {
    if requested <= 0 then DEFAULT_DEPTH else if requested > MAX_DEPTH then MAX_DEPTH else requested
  }

  function Seed(requested: int, ns: string, info: Info, name: string, obj: Obj): State {
    var s0 := if requested > MAX_DEPTH then AddNote(EMPTY, DepthClamped(requested)) else EMPTY;
    var a := AddNode(s0, info, ScopeOf(info, ns), name, Some(obj), 0);
    var id := PlaceId(ns, info, name);
    a.s.(nodes := a.s.nodes[id := a.s.nodes[id].(focus := true)], queue := [Queued(id, obj, info, 0)])
  }

  /** The finished walk, or None when the focus object itself cannot be read. */
  function Built(c: Cluster, ns: string, info: Info, name: string, requested: int): Option<State> {
    match c.fetch(info, name)
    case Found(obj) => Some(Walk(Seed(requested, ns, info, name, obj), c, ns, EffectiveDepth(requested)))
    case _ => None
  }
}
