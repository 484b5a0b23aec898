/** What a finished graph shows at each node, and what its notes say: every badge is the object's
    own or the tally of a club, every note is true, and every shortfall is noted. */
module GraphContents {
  import opened Optional
  import opened GraphModel
  import opened GraphReach
  import opened GraphWalk
  import opened GraphComplete
  import opened GraphEdges
  import StatusTally

  // ----- Nodes -----

  /** An object's node shows the badge of the object a read returns, or that it is missing. */
  ghost predicate ShowsObject(c: Cluster, n: Node) {
    n.status == if c.fetch(n.info, n.name).Found? then c.fetch(n.info, n.name).obj.status else "Missing"
  }

  /** More than 24 children, clubbed because they are so many, are noted with their number. */
  ghost predicate NotedWhenMany(c: Cluster, notes: seq<Note>, q: Queued, nb: Neighbor) {
    nb.Club? && |nb.items| > 24 && nb !in c.refs(q.info, q.obj).neighbors ==>
      FanOut(q.info.kind, q.obj.name, |nb.items|, nb.info.resource) in notes
  }

  /** A stand-in shows one club that an expanded object is related to: how many it stands for, and
      their badges tallied. */
  ghost predicate ShowsClub(c: Cluster, qs: seq<Queued>, notes: seq<Note>, id: Id, n: Node, q: Queued, nb: Neighbor) {
    && q in qs && Related(c, q, nb) && nb.Club? && id == AggregateId(q.id, nb.info.kind)
    && n.info == nb.info && n.depth == q.depth + 1
    && n.count == |nb.items| && n.status == StatusTally.Tally(Statuses(nb.items))
    && NotedWhenMany(c, notes, q, nb)
  }

  ghost predicate Shows(c: Cluster, qs: seq<Queued>, notes: seq<Note>, root: Id, id: Id, n: Node) {
    && n.focus == (id == root)
    && if id.ObjectId? then ShowsObject(c, n) else exists q, nb :: ShowsClub(c, qs, notes, id, n, q, nb)
  }

  ghost predicate AllShow(s: State, c: Cluster, root: Id) {
    root in s.nodes && forall id :: id in s.nodes ==> Shows(c, s.popped, s.notes, root, id, s.nodes[id])
  }

  /** The badges an aggregate tallies: each object's own, or its kind when it has none. */
  lemma {:induction false} StatusesRead(items: seq<Obj>)
    ensures |Statuses(items)| == |items|
    ensures forall i | 0 <= i < |items| :: Statuses(items)[i] == if items[i].status == "" then items[i].kind else items[i].status
  {
    if items != [] { StatusesRead(items[..|items| - 1]); }
  }

  lemma ShowsStill(c: Cluster, qs: seq<Queued>, notes: seq<Note>, qs': seq<Queued>, notes': seq<Note>, root: Id, id: Id, n: Node)
    requires Shows(c, qs, notes, root, id, n) && notes <= notes' && (forall q :: q in qs ==> q in qs')
    ensures Shows(c, qs', notes', root, id, n)
  {
    if !id.ObjectId? {
      var q, nb :| ShowsClub(c, qs, notes, id, n, q, nb);
      assert ShowsClub(c, qs', notes', id, n, q, nb);
    }
  }

  lemma NewNodeShows(s: State, s': State, c: Cluster, ns: string, root: Id, cur: Queued, nb: Neighbor)
    requires nb.Single? && NewNode(s, s', c, ns, cur, nb) && HoldsRead(c, nb) && root in s.nodes
    ensures var id := PlaceId(ns, nb.info, nb.name); Shows(c, s'.popped, s'.notes, root, id, s'.nodes[id])
  {
  }

  lemma NewClubShows(s: State, s': State, c: Cluster, root: Id, cur: Queued, nb: Neighbor)
    requires NewClub(s, s', cur, nb) && Related(c, cur, nb) && cur in s'.popped && root in s.nodes
    requires NotedWhenMany(c, s'.notes, cur, nb)
    ensures var id := AggregateId(cur.id, nb.info.kind); Shows(c, s'.popped, s'.notes, root, id, s'.nodes[id])
  {
    var id := AggregateId(cur.id, nb.info.kind);
    assert ShowsClub(c, s'.popped, s'.notes, id, s'.nodes[id], cur, nb);
  }

  lemma AllShowMore(s: State, s': State, c: Cluster, root: Id, id: Id)
    requires AllShow(s, c, root) && s.notes <= s'.notes && s.popped == s'.popped
    requires id in s'.nodes && s'.nodes == s.nodes[id := s'.nodes[id]]
    requires Shows(c, s'.popped, s'.notes, root, id, s'.nodes[id])
    ensures AllShow(s', c, root)
  {
    forall k | k in s'.nodes && k != id ensures Shows(c, s'.popped, s'.notes, root, k, s'.nodes[k]) {
      ShowsStill(c, s.popped, s.notes, s'.popped, s'.notes, root, k, s.nodes[k]);
    }
  }

  lemma AllShowStill(s: State, s': State, c: Cluster, root: Id)
    requires AllShow(s, c, root) && s.notes <= s'.notes && s'.nodes == s.nodes && (forall q :: q in s.popped ==> q in s'.popped)
    ensures AllShow(s', c, root)
  {
    forall k | k in s'.nodes ensures Shows(c, s'.popped, s'.notes, root, k, s'.nodes[k]) {
      ShowsStill(c, s.popped, s.notes, s'.popped, s'.notes, root, k, s.nodes[k]);
    }
  }

  /** How one visit ends: nothing new, a new stand-in or a new node. */
  ghost predicate Ends(s: State, s': State, c: Cluster, ns: string, cur: Queued, nb: Neighbor) {
    && s.notes <= s'.notes && s'.popped == s.popped
    && (Stays(s, s') || if nb.Club? then NewClub(s, s', cur, nb) else NewNode(s, s', c, ns, cur, nb))
  }

  lemma EndsShow(s: State, s': State, c: Cluster, ns: string, root: Id, cur: Queued, nb: Neighbor)
    requires Ends(s, s', c, ns, cur, nb) && AllShow(s, c, root) && cur in s.popped
    requires HoldsRead(c, nb) && Related(c, cur, nb) && NotedWhenMany(c, s'.notes, cur, nb)
    ensures AllShow(s', c, root)
  {
    if Stays(s, s') {
      AllShowStill(s, s', c, root);
    } else if nb.Club? {
      NewClubShows(s, s', c, root, cur, nb);
      AllShowMore(s, s', c, root, AggregateId(cur.id, nb.info.kind));
    } else {
      NewNodeShows(s, s', c, ns, root, cur, nb);
      AllShowMore(s, s', c, root, PlaceId(ns, nb.info, nb.name));
    }
  }

  lemma VisitEnds(s: State, c: Cluster, ns: string, root: Id, cur: Queued, nb: Neighbor)
    requires During(s, root, cur)
    ensures Ends(s, Visit(s, c, ns, cur, nb), c, ns, cur, nb)
  {
    DuringShallow(s, root, cur);
    VisitKeeps(s, root, c, ns, cur, nb);
    if nb.Club? { ClubCases(s, c, ns, cur, nb); } else { SingleCases(s, c, ns, cur, nb); }
  }

  lemma VisitShows(s: State, c: Cluster, ns: string, root: Id, cur: Queued, nb: Neighbor)
    requires During(s, root, cur) && AllShow(s, c, root) && cur in s.popped
    requires HoldsRead(c, nb) && Related(c, cur, nb) && NotedWhenMany(c, s.notes, cur, nb)
    ensures AllShow(Visit(s, c, ns, cur, nb), c, root)
  {
    VisitEnds(s, c, ns, root, cur, nb);
    EndsShow(s, Visit(s, c, ns, cur, nb), c, ns, root, cur, nb);
  }

  // ----- Notes -----

  /** A shortfall in the children of one kind that an expanded object comes to know of. */
  ghost predicate Lacks(c: Cluster, q: Queued, kind: string, note: Note) {
    && kind in OwnerChildren(q.info.group, q.info.kind) && c.byKind(kind).Some?
    && var info, l := c.byKind(kind).value, c.list(c.byKind(kind).value);
       if l.ListFailed? then note == CouldNotList(info.resource) else l.truncated && note == Truncated(info.resource)
  }

  /** More children of one kind than are drawn one by one. */
  ghost predicate TooMany(c: Cluster, q: Queued, kind: string, note: Note) {
    && kind in OwnerChildren(q.info.group, q.info.kind) && c.byKind(kind).Some? && c.list(c.byKind(kind).value).Listed?
    && note.FanOut? && note == FanOut(q.info.kind, q.obj.name, note.count, c.byKind(kind).value.resource)
    && 24 < note.count <= |Controlled(c.list(c.byKind(kind).value).items, q.obj.uid)|
  }

  ghost predicate Owes(c: Cluster, q: Queued, note: Note) {
    note in c.refs(q.info, q.obj).notes || exists kind :: Lacks(c, q, kind, note)
  }

  ghost predicate Reports(c: Cluster, q: Queued, note: Note) {
    Owes(c, q, note) || exists kind :: TooMany(c, q, kind, note)
  }

  /** The read of a neighbour failed. */
  ghost predicate Unread(c: Cluster, q: Queued, nb: Neighbor, note: Note) {
    && Related(c, q, nb) && nb.Single? && nb.held.None? && c.fetch(nb.info, nb.name).Unreadable?
    && note == CouldNotRead(nb.info.kind, nb.name)
  }

  /** What the note says is so: the depth was clamped, the graph is full, or an expanded object
      has a shortfall, too many children or a neighbour that could not be read. */
  ghost predicate IsTrue(c: Cluster, nodes: Nodes, qs: seq<Queued>, limit: nat, requested: int, note: Note) {
    || (note.DepthClamped? && note.requested == requested > 6)
    || (note.NodeCap? && |nodes| >= 150)
    || (exists q :: q in qs && q.depth < limit && Reports(c, q, note))
    || (exists q, nb :: q in qs && q.depth < limit && Unread(c, q, nb, note))
  }

  ghost predicate AllTrue(s: State, c: Cluster, limit: nat, requested: int) {
    forall note :: note in s.notes ==> IsTrue(c, s.nodes, s.popped, limit, requested, note)
  }

  ghost predicate AllOwed(s: State, c: Cluster, limit: nat) {
    forall q, note :: q in s.popped && q.depth < limit && Owes(c, q, note) ==> note in s.notes
  }

  lemma NoteAdded(s: State, note: Note)
    ensures forall n :: n in AddNote(s, note).notes <==> n in s.notes || n == note
  {
  }

  lemma {:induction false} NotesAdded(s: State, notes: seq<Note>)
    ensures forall n :: n in AddNotes(s, notes).notes <==> n in s.notes || n in notes
  {
    if notes != [] {
      NotesAdded(s, notes[..|notes| - 1]);
      NoteAdded(AddNotes(s, notes[..|notes| - 1]), notes[|notes| - 1]);
    }
  }

  /** What the derivation of neighbours notes of one kind of children. */
  lemma KindReports(s: State, c: Cluster, ns: string, cur: Queued, kind: string)
    requires kind in OwnerChildren(cur.info.group, cur.info.kind)
    ensures var notes := ChildrenOfKind(s, c, ns, cur, kind).notes;
            && (forall n :: n in notes ==> Reports(c, cur, n)) && (forall n :: Lacks(c, cur, kind, n) ==> n in notes)
  {
    var notes := ChildrenOfKind(s, c, ns, cur, kind).notes;
    forall n | n in notes ensures Reports(c, cur, n) {
      KindNotesExactly(s, c, ns, cur, kind, n);
      var info := c.byKind(kind).value;
      if c.list(info).Listed? { PickFits(s.nodes, info, ns, Controlled(c.list(info).items, cur.obj.uid), false); }
      assert Lacks(c, cur, kind, n) || TooMany(c, cur, kind, n);
    }
    forall n | Lacks(c, cur, kind, n) ensures n in notes { KindNotesExactly(s, c, ns, cur, kind, n); }
  }

  lemma {:induction false} PickFits(nodes: Nodes, info: Info, ns: string, items: seq<Obj>, drawn: bool)
    ensures |Pick(nodes, info, ns, items, drawn)| <= |items|
  {
    if items != [] { PickFits(nodes, info, ns, items[..|items| - 1], drawn); }
  }

  lemma {:induction false} ChildrenReport(s: State, c: Cluster, ns: string, cur: Queued, kinds: seq<string>)
    requires forall kind :: kind in kinds ==> kind in OwnerChildren(cur.info.group, cur.info.kind)
    ensures var notes := Children(s, c, ns, cur, kinds).notes;
            && (forall n :: n in notes ==> Reports(c, cur, n))
            && (forall n, kind :: kind in kinds && Lacks(c, cur, kind, n) ==> n in notes)
  {
    if kinds != [] {
      ChildrenReport(s, c, ns, cur, kinds[..|kinds| - 1]);
      KindReports(s, c, ns, cur, kinds[|kinds| - 1]);
    }
  }

  lemma NeighborsReport(s: State, c: Cluster, ns: string, cur: Queued)
    ensures var notes := Neighbors(s, c, ns, cur).notes;
            && (forall n :: n in notes ==> Reports(c, cur, n)) && (forall n :: Owes(c, cur, n) ==> n in notes)
  {
    ChildrenReport(s, c, ns, cur, OwnerChildren(cur.info.group, cur.info.kind));
  }

  lemma {:induction false} ChildrenNoteMany(s: State, c: Cluster, ns: string, cur: Queued, kinds: seq<string>, nb: Neighbor)
    requires nb in Children(s, c, ns, cur, kinds).neighbors && nb.Club? && |nb.items| > 24
    ensures FanOut(cur.info.kind, cur.obj.name, |nb.items|, nb.info.resource) in Children(s, c, ns, cur, kinds).notes
  {
    if kinds != [] {
      if nb in Children(s, c, ns, cur, kinds[..|kinds| - 1]).neighbors {
        ChildrenNoteMany(s, c, ns, cur, kinds[..|kinds| - 1], nb);
      } else {
        KindNotesMany(s, c, ns, cur, kinds[|kinds| - 1], nb);
      }
    }
  }

  lemma KindNotesMany(s: State, c: Cluster, ns: string, cur: Queued, kind: string, nb: Neighbor)
    requires nb in ChildrenOfKind(s, c, ns, cur, kind).neighbors && nb.Club? && |nb.items| > 24
    ensures FanOut(cur.info.kind, cur.obj.name, |nb.items|, nb.info.resource) in ChildrenOfKind(s, c, ns, cur, kind).notes
  {
    ClubbedExactly(s, c, ns, cur, kind);
    KindIsListed(s, c, ns, cur, kind, c.byKind(kind).value);
    KindNotesExactly(s, c, ns, cur, kind, FanOut(cur.info.kind, cur.obj.name, |nb.items|, nb.info.resource));
  }

  lemma NeighborsNoteMany(s: State, c: Cluster, ns: string, cur: Queued, nb: Neighbor)
    requires nb in Neighbors(s, c, ns, cur).neighbors
    ensures NotedWhenMany(c, Neighbors(s, c, ns, cur).notes, cur, nb)
  {
    OwnersHold(c, cur.obj.owners);
    if nb.Club? && |nb.items| > 24 && nb !in c.refs(cur.info, cur.obj).neighbors {
      ChildrenNoteMany(s, c, ns, cur, OwnerChildren(cur.info.group, cur.info.kind), nb);
    }
  }

  lemma ClubNotes(s: State, c: Cluster, ns: string, cur: Queued, nb: Neighbor, n: Note)
    requires |s.nodes| <= MAX_NODES && nb.Club? && n in Visit(s, c, ns, cur, nb).notes
    ensures n in s.notes || (n.NodeCap? && |s.nodes| >= 150)
  {
    NoteAdded(s, NodeCap);
  }

  lemma SingleNotes(s: State, c: Cluster, ns: string, cur: Queued, nb: Neighbor, n: Note)
    requires |s.nodes| <= MAX_NODES && nb.Single? && n in Visit(s, c, ns, cur, nb).notes
    ensures || n in s.notes || (n.NodeCap? && |s.nodes| >= 150)
            || (nb.held.None? && c.fetch(nb.info, nb.name).Unreadable? && n == CouldNotRead(nb.info.kind, nb.name))
  {
    NoteAdded(s, NodeCap);
    NoteAdded(s, CouldNotRead(nb.info.kind, nb.name));
  }

  /** A visit notes at most that the graph is full or that its neighbour could not be read. */
  lemma VisitNotes(s: State, c: Cluster, ns: string, cur: Queued, nb: Neighbor, n: Note)
    requires |s.nodes| <= MAX_NODES && Related(c, cur, nb) && n in Visit(s, c, ns, cur, nb).notes
    ensures n in s.notes || (n.NodeCap? && |s.nodes| >= 150) || Unread(c, cur, nb, n)
  {
    if nb.Club? { ClubNotes(s, c, ns, cur, nb, n); } else { SingleNotes(s, c, ns, cur, nb, n); }
  }

  lemma StillTrue(c: Cluster, nodes: Nodes, qs: seq<Queued>, nodes': Nodes, qs': seq<Queued>, limit: nat, requested: int, note: Note)
    requires IsTrue(c, nodes, qs, limit, requested, note) && |nodes| <= |nodes'| && qs <= qs'
    ensures IsTrue(c, nodes', qs', limit, requested, note)
  {
  }

  lemma VisitSaysTrue(s: State, root: Id, c: Cluster, ns: string, cur: Queued, nb: Neighbor, limit: nat, requested: int)
    requires During(s, root, cur) && cur in s.popped && cur.depth < limit && Related(c, cur, nb) && AllTrue(s, c, limit, requested)
    ensures AllTrue(Visit(s, c, ns, cur, nb), c, limit, requested)
  {
    var s' := Visit(s, c, ns, cur, nb);
    VisitKeeps(s, root, c, ns, cur, nb);
    MoreNodes(s.nodes, s'.nodes);
    forall n | n in s'.notes ensures IsTrue(c, s'.nodes, s'.popped, limit, requested, n) {
      VisitNotes(s, c, ns, cur, nb, n);
      if n in s.notes { StillTrue(c, s.nodes, s.popped, s'.nodes, s'.popped, limit, requested, n); }
    }
  }

  lemma MoreNodes(nodes: Nodes, nodes': Nodes)
    requires Keeps(nodes, nodes')
    ensures |nodes| <= |nodes'|
  {
    SetGrows(nodes.Keys, nodes'.Keys);
  }

  lemma SetGrows(a: set<Id>, b: set<Id>)
    requires a <= b
    ensures |a| <= |b|
  {
    assert b == a + (b - a);
  }

  // ----- The walk -----

  /** What holds between two visits of one expansion. */
  ghost predicate Telling(s: State, c: Cluster, root: Id, limit: nat, requested: int) {
    AllShow(s, c, root) && AllTrue(s, c, limit, requested)
  }

  lemma {:induction false} VisitsTell(s: State, c: Cluster, ns: string, root: Id, cur: Queued, nbs: seq<Neighbor>, limit: nat, requested: int)
    requires During(s, root, cur) && cur in s.popped && cur.depth < limit && Telling(s, c, root, limit, requested)
    requires forall nb :: nb in nbs ==> HoldsRead(c, nb) && Related(c, cur, nb) && NotedWhenMany(c, s.notes, cur, nb)
    ensures Telling(VisitAll(s, c, ns, cur, nbs), c, root, limit, requested)
  {
    if nbs != [] {
      var init, last := nbs[..|nbs| - 1], nbs[|nbs| - 1];
      var s1 := VisitAll(s, c, ns, cur, init);
      VisitsTell(s, c, ns, root, cur, init, limit, requested);
      VisitAllKeeps(s, root, c, ns, cur, init);
      VisitShows(s1, c, ns, root, cur, last);
      VisitSaysTrue(s1, root, c, ns, cur, last, limit, requested);
    }
  }

  lemma NotesTell(s: State, c: Cluster, root: Id, cur: Queued, notes: seq<Note>, limit: nat, requested: int)
    requires During(s, root, cur) && cur in s.popped && cur.depth < limit && Telling(s, c, root, limit, requested)
    requires forall n :: n in notes ==> Reports(c, cur, n)
    ensures Telling(AddNotes(s, notes), c, root, limit, requested)
  {
    var s' := AddNotes(s, notes);
    NotesKeep(s, root, cur, notes);
    NotesAdded(s, notes);
    AllShowStill(s, s', c, root);
    forall n | n in s'.notes ensures IsTrue(c, s'.nodes, s'.popped, limit, requested, n) {
      if n in s.notes { StillTrue(c, s.nodes, s.popped, s'.nodes, s'.popped, limit, requested, n); }
    }
  }

  lemma NotedStill(c: Cluster, notes: seq<Note>, notes': seq<Note>, q: Queued, nb: Neighbor)
    requires NotedWhenMany(c, notes, q, nb) && forall n :: n in notes ==> n in notes'
    ensures NotedWhenMany(c, notes', q, nb)
  {
  }

  lemma ExpandTells(s: State, c: Cluster, ns: string, root: Id, cur: Queued, limit: nat, requested: int)
    requires During(s, root, cur) && cur in s.popped && cur.depth < limit && Consistent(c) && Telling(s, c, root, limit, requested)
    ensures Telling(Expand(s, c, ns, cur), c, root, limit, requested)
  {
    var d := Neighbors(s, c, ns, cur);
    var s1 := AddNotes(s, d.notes);
    NeighborsReport(s, c, ns, cur);
    NotesTell(s, c, root, cur, d.notes, limit, requested);
    NotesKeep(s, root, cur, d.notes);
    NotesAdded(s, d.notes);
    NeighborsGenuine(s, c, ns, cur);
    forall nb | nb in d.neighbors ensures HoldsRead(c, nb) && Related(c, cur, nb) && NotedWhenMany(c, s1.notes, cur, nb) {
      NeighborsAreRelated(s, c, ns, cur, nb);
      NeighborsNoteMany(s, c, ns, cur, nb);
      NotedStill(c, d.notes, s1.notes, cur, nb);
    }
    VisitsTell(s1, c, ns, root, cur, d.neighbors, limit, requested);
  }

  lemma ExpandOwes(s: State, c: Cluster, ns: string, root: Id, cur: Queued)
    requires During(s, root, cur)
    ensures var s' := Expand(s, c, ns, cur); s.notes <= s'.notes && forall n :: Owes(c, cur, n) ==> n in s'.notes
  {
    var d := Neighbors(s, c, ns, cur);
    NeighborsReport(s, c, ns, cur);
    NotesAdded(s, d.notes);
    NotesKeep(s, root, cur, d.notes);
    VisitAllKeeps(AddNotes(s, d.notes), root, c, ns, cur, d.neighbors);
  }

  lemma PopTells(s: State, c: Cluster, root: Id, limit: nat, requested: int)
    requires s.queue != [] && Telling(s, c, root, limit, requested)
    ensures Telling(Pop(s), c, root, limit, requested)
  {
    var s' := Pop(s);
    AllShowStill(s, s', c, root);
    forall n | n in s'.notes ensures IsTrue(c, s'.nodes, s'.popped, limit, requested, n) {
      StillTrue(c, s.nodes, s.popped, s'.nodes, s'.popped, limit, requested, n);
    }
  }

  lemma TurnTellsTrue(s: State, c: Cluster, ns: string, root: Id, limit: nat, requested: int)
    requires Idle(s, root, limit) && Consistent(c) && s.queue != [] && Telling(s, c, root, limit, requested)
    ensures Telling(Turn(s, c, ns, limit), c, root, limit, requested)
  {
    PopTells(s, c, root, limit, requested);
    PopKeeps(s, root, limit);
    if s.queue[0].depth < limit { ExpandTells(Pop(s), c, ns, root, s.queue[0], limit, requested); }
  }

  lemma TurnOwes(s: State, c: Cluster, ns: string, root: Id, limit: nat)
    requires Idle(s, root, limit) && s.queue != [] && AllOwed(s, c, limit)
    ensures AllOwed(Turn(s, c, ns, limit), c, limit)
  {
    var s' := Turn(s, c, ns, limit);
    PopKeeps(s, root, limit);
    TurnTakes(s, c, ns, root, limit);
    if s.queue[0].depth < limit { ExpandOwes(Pop(s), c, ns, root, s.queue[0]); }
    OwedMore(s, s', c, limit, s.queue[0]);
  }

  lemma OwedMore(s: State, s': State, c: Cluster, limit: nat, cur: Queued)
    requires AllOwed(s, c, limit) && s'.popped == s.popped + [cur] && s.notes <= s'.notes
    requires cur.depth < limit ==> forall n :: Owes(c, cur, n) ==> n in s'.notes
    ensures AllOwed(s', c, limit)
  {
  }

  lemma {:induction false} WalkTellsTrue(s: State, c: Cluster, ns: string, root: Id, limit: nat, requested: int)
    requires Idle(s, root, limit) && Consistent(c) && Telling(s, c, root, limit, requested) && AllOwed(s, c, limit)
    ensures Telling(Walk(s, c, ns, limit), c, root, limit, requested) && AllOwed(Walk(s, c, ns, limit), c, limit)
    decreases MAX_NODES - |s.nodes| + |s.queue|
  {
    if s.queue != [] {
      TurnTellsTrue(s, c, ns, root, limit, requested);
      TurnOwes(s, c, ns, root, limit);
      TurnKeeps(s, root, c, ns, limit);
      WalkTellsTrue(Turn(s, c, ns, limit), c, ns, root, limit, requested);
      WalkUnrolls(s, c, ns, limit);
    }
  }

  lemma SeedTells(c: Cluster, ns: string, info: Info, name: string, requested: int)
    requires c.fetch(info, name).Found?
    ensures var s := Seed(requested, ns, info, name, c.fetch(info, name).obj);
            && Telling(s, c, PlaceId(ns, info, name), EffectiveDepth(requested), requested)
            && AllOwed(s, c, EffectiveDepth(requested))
            && (requested > 6 ==> DepthClamped(requested) in s.notes)
  {
  }

  /** Every badge of a finished graph is the object's own, or says that it is missing; every
      stand-in counts and tallies one club that an expanded object is related to, and more than 24
      children clubbed for their number are noted; only the focus is marked. */
  lemma NodesShowWhatIsThere(c: Cluster, ns: string, info: Info, name: string, requested: int)
    requires Built(c, ns, info, name, requested).Some? && Consistent(c)
    ensures AllShow(Built(c, ns, info, name, requested).value, c, PlaceId(ns, info, name))
  {
    BuiltIsTold(c, ns, info, name, requested);
  }

  /** How deep a walk goes: as deep as asked, three hops when nothing is asked, never more than six. */
  lemma DepthIsClamped(requested: int)
    ensures EffectiveDepth(requested) == if requested < 1 then 3 else if requested < 7 then requested else 6
  {
  }

  /** The notes are exactly why a finished graph may not be the whole truth: every note is true,
      and every failed or short listing of an expanded object's children, every note on its
      references and every clamped depth is among them. */
  lemma NotesAreTheReasons(c: Cluster, ns: string, info: Info, name: string, requested: int)
    requires Built(c, ns, info, name, requested).Some? && Consistent(c)
    ensures var s := Built(c, ns, info, name, requested).value;
            && AllTrue(s, c, EffectiveDepth(requested), requested) && AllOwed(s, c, EffectiveDepth(requested))
            && (requested > 6 ==> DepthClamped(requested) in s.notes)
  {
    BuiltIsTold(c, ns, info, name, requested);
    var seed := Seed(requested, ns, info, name, c.fetch(info, name).obj);
    SeedTells(c, ns, info, name, requested);
    SeedIsIdle(requested, ns, info, name, c.fetch(info, name).obj, EffectiveDepth(requested));
    WalkKeepsFocus(seed, PlaceId(ns, info, name), c, ns, EffectiveDepth(requested));
  }

  lemma BuiltIsTold(c: Cluster, ns: string, info: Info, name: string, requested: int)
    requires Built(c, ns, info, name, requested).Some? && Consistent(c)
    ensures var s := Built(c, ns, info, name, requested).value;
            && Telling(s, c, PlaceId(ns, info, name), EffectiveDepth(requested), requested)
            && AllOwed(s, c, EffectiveDepth(requested))
  {
    var obj, limit := c.fetch(info, name).obj, EffectiveDepth(requested);
    SeedIsIdle(requested, ns, info, name, obj, limit);
    SeedTells(c, ns, info, name, requested);
    WalkTellsTrue(Seed(requested, ns, info, name, obj), c, ns, PlaceId(ns, info, name), limit, requested);
  }
}
