/** Which pods a Service fronts and which Services front a pod: two indexes kept inverse. */
module ServiceLinks {
  import opened Optional

  /** How a pair was established: from an endpoint, ready or not, or from the selector. */
  datatype Mark = Ready | NotReady | Selector

  datatype Link = Link(name: string, mark: Mark)

  /** One pair as it is offered to the index. */
  datatype Fact = Fact(service: string, pod: string, mark: Mark)

  type Index = map<string, seq<Link>>

  function Of(index: Index, key: string): seq<Link> {
    if key in index then index[key] else []
  }

  predicate Named(links: seq<Link>, name: string) {
    exists i :: 0 <= i < |links| && links[i].name == name
  }

  /** The mark of the first fact about a pair; facts with an empty name do not count. */
  function FirstMark(facts: seq<Fact>, service: string, pod: string): Option<Mark> {
    if facts == [] || service == "" || pod == "" then None
    else
      var before, last := FirstMark(facts[..|facts| - 1], service, pod), facts[|facts| - 1];
      if before.Some? then before
      else if last.service == service && last.pod == pod then Some(last.mark)
      else None
  }

  ghost predicate Distinct(links: seq<Link>) {
    forall i, j | 0 <= i < j < |links| :: links[i].name != links[j].name
  }

  /** The mark of a pair, given from the side an index is keyed by. */
  function MarkFrom(facts: seq<Fact>, byService: bool, key: string, name: string): Option<Mark> {
    if byService then FirstMark(facts, key, name) else FirstMark(facts, name, key)
  }

  /** One index holds exactly the recorded pairs, one link each, under the first mark. */
  ghost predicate Side(index: Index, facts: seq<Fact>, byService: bool) {
    && (forall key :: Distinct(Of(index, key)))
    && (forall key, name, m :: Link(name, m) in Of(index, key) <==> MarkFrom(facts, byService, key, name) == Some(m))
  }

  ghost predicate Records(byService: Index, byPod: Index, facts: seq<Fact>) {
    Side(byService, facts, true) && Side(byPod, facts, false)
  }

  /** The two indexes are inverse to each other. */
  lemma IndexesAreInverse(byService: Index, byPod: Index, facts: seq<Fact>, s: string, p: string, m: Mark)
    requires Records(byService, byPod, facts)
    ensures Link(p, m) in Of(byService, s) <==> Link(s, m) in Of(byPod, p)
  {
    assert MarkFrom(facts, true, s, p) == MarkFrom(facts, false, p, s);
  }

  lemma RecordsSame(byService: Index, byPod: Index, facts: seq<Fact>, f: Fact)
    requires Records(byService, byPod, facts)
    requires f.service == "" || f.pod == "" || FirstMark(facts, f.service, f.pod).Some?
    ensures Records(byService, byPod, facts + [f])
  {
    assert (facts + [f])[..|facts|] == facts;
    forall s, p ensures FirstMark(facts + [f], s, p) == FirstMark(facts, s, p) {}
    forall side, key, name ensures MarkFrom(facts + [f], side, key, name) == MarkFrom(facts, side, key, name) {}
  }

  lemma AppendDistinct(links: seq<Link>, l: Link)
    requires Distinct(links) && forall i | 0 <= i < |links| :: links[i].name != l.name
    ensures Distinct(links + [l])
  {
  }

  lemma NewMark(facts: seq<Fact>, f: Fact, s: string, p: string)
    requires f.service != "" && f.pod != "" && FirstMark(facts, f.service, f.pod).None?
    ensures FirstMark(facts + [f], s, p) == if s == f.service && p == f.pod then Some(f.mark) else FirstMark(facts, s, p)
  {
    assert (facts + [f])[..|facts|] == facts;
  }

  lemma NotNamed(index: Index, key: string, name: string)
    requires forall m :: Link(name, m) !in Of(index, key)
    ensures forall i | 0 <= i < |Of(index, key)| :: Of(index, key)[i].name != name
  {
    forall i | 0 <= i < |Of(index, key)| ensures Of(index, key)[i].name != name {
      assert Link(Of(index, key)[i].name, Of(index, key)[i].mark) in Of(index, key);
    }
  }

  /** One new pair on one side. */
  lemma SideMore(index: Index, facts: seq<Fact>, more: seq<Fact>, byService: bool, key: string, l: Link)
    requires Side(index, facts, byService) && MarkFrom(facts, byService, key, l.name).None?
    requires forall k, name :: MarkFrom(more, byService, k, name) ==
               if k == key && name == l.name then Some(l.mark) else MarkFrom(facts, byService, k, name)
    ensures Side(index[key := Of(index, key) + [l]], more, byService)
  {
    var index' := index[key := Of(index, key) + [l]];
    NotNamed(index, key, l.name);
    AppendDistinct(Of(index, key), l);
    forall k ensures Distinct(Of(index', k)) { assert k == key || Of(index', k) == Of(index, k); }
    forall k, name, m ensures Link(name, m) in Of(index', k) <==> MarkFrom(more, byService, k, name) == Some(m) {
      assert if k == key then Of(index', k) == Of(index, k) + [l] else Of(index', k) == Of(index, k);
      assert Link(name, m) in Of(index, k) <==> MarkFrom(facts, byService, k, name) == Some(m);
    }
  }

  lemma RecordsMore(byService: Index, byPod: Index, facts: seq<Fact>, f: Fact)
    requires Records(byService, byPod, facts)
    requires f.service != "" && f.pod != "" && FirstMark(facts, f.service, f.pod).None?
    ensures Records(byService[f.service := Of(byService, f.service) + [Link(f.pod, f.mark)]],
                    byPod[f.pod := Of(byPod, f.pod) + [Link(f.service, f.mark)]], facts + [f])
  {
    forall k, name ensures MarkFrom(facts + [f], true, k, name) ==
      if k == f.service && name == f.pod then Some(f.mark) else MarkFrom(facts, true, k, name)
    {
      NewMark(facts, f, k, name);
    }
    forall k, name ensures MarkFrom(facts + [f], false, k, name) ==
      if k == f.pod && name == f.service then Some(f.mark) else MarkFrom(facts, false, k, name)
    {
      NewMark(facts, f, name, k);
    }
    SideMore(byService, facts, facts + [f], true, f.service, Link(f.pod, f.mark));
    SideMore(byPod, facts, facts + [f], false, f.pod, Link(f.service, f.mark));
  }

  lemma NamedMeansRecorded(byService: Index, byPod: Index, facts: seq<Fact>, s: string, p: string)
    requires Records(byService, byPod, facts)
    ensures Named(Of(byService, s), p) <==> FirstMark(facts, s, p).Some?
  {
    var links := Of(byService, s);
    forall m ensures Link(p, m) in links <==> FirstMark(facts, s, p) == Some(m) { assert MarkFrom(facts, true, s, p) == FirstMark(facts, s, p); }
    if i :| 0 <= i < |links| && links[i].name == p { assert Link(p, links[i].mark) in links; }
    var mark := FirstMark(facts, s, p);
    if mark.Some? {
      assert Link(p, mark.value) in links;
      var i :| 0 <= i < |links| && links[i] == Link(p, mark.value);
    }
  }

  // ----- The objects the index is built from -----

  datatype Endpoint = Endpoint(ofPod: bool, pod: string, ready: Option<bool>)

  datatype Slice = Slice(service: string, endpoints: seq<Endpoint>)

  datatype Service = Service(name: string, selector: map<string, string>)

  datatype Pod = Pod(name: string, labels: map<string, string>)

  /** The facts a slice's endpoints state: pods only, and ready unless said otherwise. */
  function SliceFacts(service: string, endpoints: seq<Endpoint>): seq<Fact> {
    if endpoints == [] then []
    else
      var e := endpoints[|endpoints| - 1];
      SliceFacts(service, endpoints[..|endpoints| - 1]) +
      if e.ofPod then [Fact(service, e.pod, if e.ready == Some(false) then NotReady else Ready)] else []
  }

  function AllSliceFacts(slices: seq<Slice>): seq<Fact> {
    if slices == [] then []
    else AllSliceFacts(slices[..|slices| - 1]) + SliceFacts(slices[|slices| - 1].service, slices[|slices| - 1].endpoints)
  }

  /** A pod matches when each selected label has its value, a missing label counting as
      the empty value. */
  predicate Matches(selector: map<string, string>, labels: map<string, string>) {
    forall k | k in selector :: (if k in labels then labels[k] else "") == selector[k]
  }

  /** What a selector asks for: every selected label is there, with its value. */
  predicate Carries(selector: map<string, string>, labels: map<string, string>) {
    forall k | k in selector :: k in labels && labels[k] == selector[k]
  }

  /** A selected empty value also matches a pod that lacks the label. */
  lemma MissingLabelCanMatch()
    ensures Matches(map["tier" := ""], map[]) && !Carries(map["tier" := ""], map[])
  {
    assert "tier" in map["tier" := ""];
  }

  /** The match is what the selector asks for, on every pod, exactly when the selector
      selects no empty value. */
  lemma MatchesExactly(selector: map<string, string>)
    ensures (forall labels: map<string, string> :: Matches(selector, labels) <==> Carries(selector, labels)) <==>
            "" !in selector.Values
  {
    if "" in selector.Values {
      var k :| k in selector && selector[k] == "";
      var bare := selector - {k};
      assert Matches(selector, bare) && !Carries(selector, bare);
    } else {
      forall labels: map<string, string> ensures Matches(selector, labels) <==> Carries(selector, labels) {
        forall k | k in selector ensures selector[k] != "" { assert selector[k] in selector.Values; }
      }
    }
  }

  /** The Services left to their selector: no pair yet, and a selector to go by. */
  function Pending(byService: Index, services: seq<Service>): seq<Service> {
    if services == [] then []
    else
      var s := services[|services| - 1];
      Pending(byService, services[..|services| - 1]) +
      if Of(byService, s.name) != [] || s.selector == map[] then [] else [s]
  }

  function PodFacts(pending: seq<Service>, pod: Pod): seq<Fact> {
    if pending == [] then []
    else
      var s := pending[|pending| - 1];
      PodFacts(pending[..|pending| - 1], pod) + if Matches(s.selector, pod.labels) then [Fact(s.name, pod.name, Selector)] else []
  }

  function SelectorFacts(pending: seq<Service>, pods: seq<Pod>): seq<Fact> {
    if pods == [] then [] else SelectorFacts(pending, pods[..|pods| - 1]) + PodFacts(pending, pods[|pods| - 1])
  }

  /** A Service is listed only with a pair. */
  ghost predicate NoneEmpty(index: Index) {
    forall key :: key in index ==> index[key] != []
  }

  class Links {
    var byService: Index
    var byPod: Index
    ghost var facts: seq<Fact>

    ghost predicate Valid()
      reads this
    {
      Records(byService, byPod, facts) && NoneEmpty(byService)
    }

    constructor ()
      ensures Valid() && facts == [] && byService == map[] && byPod == map[]
    {
      byService, byPod, facts := map[], map[], [];
    }

    /** Records one pair in both indexes, once. */
    method Add(service: string, pod: string, mark: Mark)
      requires Valid()
      modifies this
      ensures Valid() && facts == old(facts) + [Fact(service, pod, mark)]
    {
      ghost var f := Fact(service, pod, mark);
      NamedMeansRecorded(byService, byPod, facts, service, pod);
      if service == "" || pod == "" {
        RecordsSame(byService, byPod, facts, f);
        facts := facts + [f];
        return;
      }
      var links, i := Of(byService, service), 0;
      while i < |links|
        invariant 0 <= i <= |links| && forall k | 0 <= k < i :: links[k].name != pod
      {
        if links[i].name == pod {
          RecordsSame(byService, byPod, facts, f);
          facts := facts + [f];
          return;
        }
        i := i + 1;
      }
      RecordsMore(byService, byPod, facts, f);
      byService := byService[service := links + [Link(pod, mark)]];
      byPod := byPod[pod := Of(byPod, pod) + [Link(service, mark)]];
      facts := facts + [f];
    }

    method AddEndpoints(service: string, endpoints: seq<Endpoint>)
      requires Valid()
      modifies this
      ensures Valid() && facts == old(facts) + SliceFacts(service, endpoints)
    {
      var i := 0;
      while i < |endpoints|
        invariant 0 <= i <= |endpoints| && Valid() && facts == old(facts) + SliceFacts(service, endpoints[..i])
      {
        assert endpoints[..i + 1][..i] == endpoints[..i];
        if endpoints[i].ofPod {
          Add(service, endpoints[i].pod, if endpoints[i].ready == Some(false) then NotReady else Ready);
        }
        i := i + 1;
      }
      assert endpoints[..i] == endpoints;
    }

    method AddSlices(slices: seq<Slice>)
      requires Valid()
      modifies this
      ensures Valid() && facts == old(facts) + AllSliceFacts(slices)
    {
      var i := 0;
      while i < |slices|
        invariant 0 <= i <= |slices| && Valid() && facts == old(facts) + AllSliceFacts(slices[..i])
      {
        assert slices[..i + 1][..i] == slices[..i];
        AddEndpoints(slices[i].service, slices[i].endpoints);
        i := i + 1;
      }
      assert slices[..i] == slices;
    }

    method AddPod(pending: seq<Service>, pod: Pod)
      requires Valid()
      modifies this
      ensures Valid() && facts == old(facts) + PodFacts(pending, pod)
    {
      var j := 0;
      while j < |pending|
        invariant 0 <= j <= |pending| && Valid() && facts == old(facts) + PodFacts(pending[..j], pod)
      {
        assert pending[..j + 1][..j] == pending[..j];
        if Matches(pending[j].selector, pod.labels) { Add(pending[j].name, pod.name, Selector); }
        j := j + 1;
      }
      assert pending[..j] == pending;
    }

    method FindPending(services: seq<Service>) returns (pending: seq<Service>)
      ensures pending == Pending(byService, services)
    {
      pending := [];
      var i := 0;
      while i < |services|
        invariant 0 <= i <= |services| && pending == Pending(byService, services[..i])
      {
        assert services[..i + 1][..i] == services[..i];
        if Of(byService, services[i].name) == [] && services[i].selector != map[] { pending := pending + [services[i]]; }
        i := i + 1;
      }
      assert services[..i] == services;
    }

    method AddPods(pending: seq<Service>, pods: seq<Pod>)
      requires Valid()
      modifies this
      ensures Valid() && facts == old(facts) + SelectorFacts(pending, pods)
    {
      var i := 0;
      while i < |pods|
        invariant 0 <= i <= |pods| && Valid() && facts == old(facts) + SelectorFacts(pending, pods[..i])
      {
        assert pods[..i + 1][..i] == pods[..i];
        AddPod(pending, pods[i]);
        i := i + 1;
      }
      assert pods[..i] == pods;
    }

    /** Gives the Services without any pair the pods their selector matches. */
    method AddSelectorLinks(services: seq<Service>, pods: seq<Pod>)
      requires Valid()
      modifies this
      ensures Valid() && facts == old(facts) + SelectorFacts(Pending(old(byService), services), pods)
    {
      var pending := FindPending(services);
      if pending == [] {
        NothingPending(pods);
        return;
      }
      AddPods(pending, pods);
    }

    /** The endpoint pairs: from slices, and from the older endpoints objects exactly when
        the slices gave none. */
    method AddAllEndpoints(slices: seq<Slice>, endpoints: seq<Slice>)
      requires Valid() && facts == [] && byService == map[]
      modifies this
      ensures Valid() && NoSelectors(facts) && FromEndpoints(facts, if StateSome(slices) then slices else endpoints)
    {
      AddSlices(slices);
      assert facts == AllSliceFacts(slices);
      SlicesAreEndpoints(slices);
      MarksAreStated(slices);
      ListedWhenStated(byService, byPod, facts, slices);
      if byService == map[] {
        ghost var before := facts;
        AddSlices(endpoints);
        SlicesAreEndpoints(endpoints);
        MarksAreStated(endpoints);
        NothingBefore(before, AllSliceFacts(endpoints), slices, endpoints);
      }
    }

    /** The whole index: endpoint pairs, then from selectors for the Services still
        without a pair. */
    method Build(slices: seq<Slice>, endpoints: seq<Slice>, services: seq<Service>, pods: seq<Pod>)
      requires Valid() && facts == [] && byService == map[]
      modifies this
      ensures Valid()
      ensures FromEndpoints(facts, if StateSome(slices) then slices else endpoints)
      ensures NeverMixed(facts) && OnlySelected(facts, services, pods) && AllSelected(facts, services, pods)
    {
      AddAllEndpoints(slices, endpoints);
      ghost var base, pending := facts, Pending(byService, services);
      PendingHaveNone(byService, byPod, base, services);
      EverySelected(byService, byPod, base, services, pods);
      AddSelectorLinks(services, pods);
      SelectorsApart(base, pending, pods);
      SelectedOnly(base, pending, services, pods);
      SelectorsAddNoEndpoint(base, pending, pods, if StateSome(slices) then slices else endpoints);
    }
  }

  // ----- What the endpoints state -----

  /** Endpoint `j` of object `i` is backed by the pod `p` and belongs to the Service `s`. */
  ghost predicate States(objects: seq<Slice>, i: int, j: int, s: string, p: string) {
    && 0 <= i < |objects| && 0 <= j < |objects[i].endpoints| && objects[i].endpoints[j].ofPod
    && objects[i].service == s && objects[i].endpoints[j].pod == p && s != "" && p != ""
  }

  ghost predicate StateSome(objects: seq<Slice>) {
    exists i, j, s, p :: States(objects, i, j, s, p)
  }

  /** It is the first to state the pair. */
  ghost predicate StatesFirst(objects: seq<Slice>, i: int, j: int, s: string, p: string) {
    States(objects, i, j, s, p) && forall k, l :: k < i || (k == i && l < j) ==> !States(objects, k, l, s, p)
  }

  /** A pair is marked from an endpoint exactly when one states it, and then as not ready
      exactly when the first that does says so itself. */
  ghost predicate FromEndpoints(facts: seq<Fact>, objects: seq<Slice>) {
    && (forall s, p :: FromEndpoint(FirstMark(facts, s, p)) <==> exists i, j :: StatesFirst(objects, i, j, s, p))
    && (forall s, p, i, j :: StatesFirst(objects, i, j, s, p) ==>
          (FirstMark(facts, s, p) == Some(NotReady) <==> objects[i].endpoints[j].ready == Some(false)))
  }

  lemma OneMark(facts: seq<Fact>, s: string, p: string)
    requires |facts| <= 1
    ensures FirstMark(facts, s, p) == if facts != [] && s != "" && p != "" && facts[0].service == s && facts[0].pod == p
                                      then Some(facts[0].mark) else None
  {
    if facts != [] { assert facts[..0] == []; }
  }

  /** What one object's endpoints say of a pair. */
  lemma {:induction false} EndpointMark(service: string, endpoints: seq<Endpoint>, s: string, p: string) returns (at: Option<nat>)
    ensures at.None? ==> FirstMark(SliceFacts(service, endpoints), s, p).None?
    ensures at.None? ==> forall j :: !States([Slice(service, endpoints)], 0, j, s, p)
    ensures at.Some? ==> States([Slice(service, endpoints)], 0, at.value, s, p)
                         && (forall j | 0 <= j < at.value :: !States([Slice(service, endpoints)], 0, j, s, p))
    ensures at.Some? ==> FirstMark(SliceFacts(service, endpoints), s, p) ==
                         Some(if endpoints[at.value].ready == Some(false) then NotReady else Ready)
  {
    if endpoints == [] {
      at := None;
    } else {
      var n := |endpoints| - 1;
      at := EndpointMark(service, endpoints[..n], s, p);
      var e := endpoints[n];
      assert forall j | 0 <= j < n :: endpoints[..n][j] == endpoints[j];
      forall j | j < n
        ensures States([Slice(service, endpoints)], 0, j, s, p) <==> States([Slice(service, endpoints[..n])], 0, j, s, p) {}
      var more := if e.ofPod then [Fact(service, e.pod, if e.ready == Some(false) then NotReady else Ready)] else [];
      MarkStays(SliceFacts(service, endpoints[..n]), more, s, p);
      assert SliceFacts(service, endpoints) == SliceFacts(service, endpoints[..n]) + more;
      OneMark(more, s, p);
      if at.None? && States([Slice(service, endpoints)], 0, n, s, p) { at := Some(n); }
    }
  }

  lemma StatesOne(objects: seq<Slice>, i: nat, j: int, s: string, p: string)
    requires i < |objects|
    ensures States(objects, i, j, s, p) <==> States([Slice(objects[i].service, objects[i].endpoints)], 0, j, s, p)
  {
  }

  lemma StatesInit(objects: seq<Slice>, n: nat, i: int, j: int, s: string, p: string)
    requires n <= |objects| && i < n
    ensures States(objects[..n], i, j, s, p) <==> States(objects, i, j, s, p)
  {
  }

  /** What all of them say of a pair: what the first to state it does. */
  lemma {:induction false} StatedMark(objects: seq<Slice>, s: string, p: string) returns (at: Option<(nat, nat)>)
    ensures at.None? ==> FirstMark(AllSliceFacts(objects), s, p).None? && forall i, j :: !States(objects, i, j, s, p)
    ensures at.Some? ==> StatesFirst(objects, at.value.0, at.value.1, s, p) && StateSome(objects)
    ensures at.Some? ==> FirstMark(AllSliceFacts(objects), s, p) ==
                         Some(if objects[at.value.0].endpoints[at.value.1].ready == Some(false) then NotReady else Ready)
  {
    if objects == [] {
      at := None;
    } else {
      var n := |objects| - 1;
      at := StatedMark(objects[..n], s, p);
      var last := EndpointMark(objects[n].service, objects[n].endpoints, s, p);
      MarkStays(AllSliceFacts(objects[..n]), SliceFacts(objects[n].service, objects[n].endpoints), s, p);
      forall i, j | i < n ensures States(objects, i, j, s, p) <==> States(objects[..n], i, j, s, p) {
        StatesInit(objects, n, i, j, s, p);
      }
      forall j
        ensures States(objects, n, j, s, p) <==> States([Slice(objects[n].service, objects[n].endpoints)], 0, j, s, p)
      {
        StatesOne(objects, n, j, s, p);
      }
      if at.None? && last.Some? { at := Some((n, last.value)); }
      if at.Some? { assert States(objects, at.value.0, at.value.1, s, p); }
    }
  }

  lemma FirstIsOne(objects: seq<Slice>, i: int, j: int, k: int, l: int, s: string, p: string)
    requires StatesFirst(objects, i, j, s, p) && StatesFirst(objects, k, l, s, p)
    ensures i == k && j == l
  {
  }

  lemma MarksAreStated(objects: seq<Slice>)
    ensures FromEndpoints(AllSliceFacts(objects), objects)
  {
    var facts := AllSliceFacts(objects);
    forall s, p ensures FromEndpoint(FirstMark(facts, s, p)) <==> exists i, j :: StatesFirst(objects, i, j, s, p) {
      var at := StatedMark(objects, s, p);
      if at.Some? { assert StatesFirst(objects, at.value.0, at.value.1, s, p); }
    }
    forall s, p, i, j | StatesFirst(objects, i, j, s, p)
      ensures FirstMark(facts, s, p) == Some(NotReady) <==> objects[i].endpoints[j].ready == Some(false)
    {
      var at := StatedMark(objects, s, p);
      FirstIsOne(objects, i, j, at.value.0, at.value.1, s, p);
    }
  }

  /** Something is listed exactly when some endpoint states a pair. */
  lemma ListedWhenStated(byService: Index, byPod: Index, facts: seq<Fact>, objects: seq<Slice>)
    requires Records(byService, byPod, facts) && NoneEmpty(byService) && facts == AllSliceFacts(objects)
    ensures byService == map[] <==> !StateSome(objects)
  {
    if StateSome(objects) {
      var i, j, s, p :| States(objects, i, j, s, p);
      var at := StatedMark(objects, s, p);
      NamedMeansRecorded(byService, byPod, facts, s, p);
    }
    if byService != map[] {
      var s :| s in byService;
      var p := byService[s][0].name;
      assert Named(Of(byService, s), p);
      NamedMeansRecorded(byService, byPod, facts, s, p);
      var at := StatedMark(objects, s, p);
      assert States(objects, at.value.0, at.value.1, s, p);
    }
  }

  lemma NoneStated(objects: seq<Slice>, s: string, p: string)
    requires !StateSome(objects)
    ensures FirstMark(AllSliceFacts(objects), s, p).None?
  {
    var at := StatedMark(objects, s, p);
  }

  lemma NothingBefore(before: seq<Fact>, more: seq<Fact>, slices: seq<Slice>, endpoints: seq<Slice>)
    requires before == AllSliceFacts(slices) && !StateSome(slices) && FromEndpoints(more, endpoints)
    ensures FromEndpoints(before + more, endpoints)
  {
    forall s, p ensures FirstMark(before + more, s, p) == FirstMark(more, s, p) {
      MarkStays(before, more, s, p);
      NoneStated(slices, s, p);
    }
  }

  lemma SelectorsAddNoEndpoint(facts: seq<Fact>, pending: seq<Service>, pods: seq<Pod>, objects: seq<Slice>)
    requires FromEndpoints(facts, objects) && NoSelectors(facts)
    ensures FromEndpoints(facts + SelectorFacts(pending, pods), objects)
  {
    var more := SelectorFacts(pending, pods);
    SelectorFactsAre(pending, pods);
    forall s, p
      ensures FromEndpoint(FirstMark(facts + more, s, p)) <==> FromEndpoint(FirstMark(facts, s, p))
      ensures FromEndpoint(FirstMark(facts, s, p)) ==> FirstMark(facts + more, s, p) == FirstMark(facts, s, p)
    {
      MarkStays(facts, more, s, p);
      MarkIsFact(more, s, p);
      MarkIsFact(facts, s, p);
    }
    forall s, p, i, j | StatesFirst(objects, i, j, s, p)
      ensures FirstMark(facts + more, s, p) == Some(NotReady) <==> objects[i].endpoints[j].ready == Some(false)
    {
      assert FromEndpoint(FirstMark(facts, s, p));
    }
  }

  // ----- Endpoint links and selector links never mix -----

  predicate FromEndpoint(m: Option<Mark>) {
    m == Some(Ready) || m == Some(NotReady)
  }

  /** No Service has both a pair from an endpoint and one from its selector. */
  ghost predicate NeverMixed(facts: seq<Fact>) {
    forall s, p, q :: FromEndpoint(FirstMark(facts, s, p)) ==> FirstMark(facts, s, q) != Some(Selector)
  }

  /** A selector pair joins a listed Service and a listed pod its selector matches. */
  ghost predicate OnlySelected(facts: seq<Fact>, services: seq<Service>, pods: seq<Pod>) {
    forall s, p :: FirstMark(facts, s, p) == Some(Selector) ==>
      exists i, j :: 0 <= i < |services| && 0 <= j < |pods| && Selects(services[i], pods[j], s, p)
  }

  /** A listed Service without an endpoint pair has a pair with every listed pod its
      selector matches. */
  ghost predicate AllSelected(facts: seq<Fact>, services: seq<Service>, pods: seq<Pod>) {
    forall i, j | 0 <= i < |services| && 0 <= j < |pods| ::
      Selects(services[i], pods[j], services[i].name, pods[j].name) && services[i].name != "" && pods[j].name != ""
      ==> FirstMark(facts, services[i].name, pods[j].name) == Some(Selector) || Endpointed(facts, services[i].name)
  }

  /** The Service has a pair from an endpoint. */
  ghost predicate Endpointed(facts: seq<Fact>, s: string) {
    exists p :: FromEndpoint(FirstMark(facts, s, p))
  }

  ghost predicate Selects(service: Service, pod: Pod, s: string, p: string) {
    service.name == s && pod.name == p && service.selector != map[] && Matches(service.selector, pod.labels)
  }

  lemma {:induction false} NothingPending(pods: seq<Pod>)
    ensures SelectorFacts([], pods) == []
  {
    if pods != [] { NothingPending(pods[..|pods| - 1]); }
  }

  ghost predicate NoSelectors(facts: seq<Fact>) {
    forall i | 0 <= i < |facts| :: facts[i].mark != Selector
  }

  lemma {:induction false} EndpointsPlain(service: string, endpoints: seq<Endpoint>)
    ensures NoSelectors(SliceFacts(service, endpoints))
  {
    if endpoints != [] { EndpointsPlain(service, endpoints[..|endpoints| - 1]); }
  }

  lemma {:induction false} SlicesAreEndpoints(slices: seq<Slice>)
    ensures NoSelectors(AllSliceFacts(slices))
  {
    if slices != [] {
      SlicesAreEndpoints(slices[..|slices| - 1]);
      EndpointsPlain(slices[|slices| - 1].service, slices[|slices| - 1].endpoints);
    }
  }

  lemma {:induction false} MarkIsFact(facts: seq<Fact>, s: string, p: string)
    ensures FirstMark(facts, s, p).Some? ==> Fact(s, p, FirstMark(facts, s, p).value) in facts
  {
    if facts != [] { MarkIsFact(facts[..|facts| - 1], s, p); }
  }

  /** Later facts do not change a pair's mark, and decide it where there was none. */
  lemma {:induction false} MarkStays(facts: seq<Fact>, more: seq<Fact>, s: string, p: string)
    ensures FirstMark(facts + more, s, p) == if FirstMark(facts, s, p).Some? then FirstMark(facts, s, p) else FirstMark(more, s, p)
  {
    if more == [] {
      assert facts + more == facts;
    } else {
      MarkStays(facts, more[..|more| - 1], s, p);
      assert (facts + more)[..|facts + more| - 1] == facts + more[..|more| - 1];
    }
  }

  /** The Services left to their selector have no pair at all. */
  ghost predicate NoneYet(facts: seq<Fact>, pending: seq<Service>) {
    forall i | 0 <= i < |pending| :: forall p :: FirstMark(facts, pending[i].name, p).None?
  }

  lemma {:induction false} PendingHaveNone(byService: Index, byPod: Index, facts: seq<Fact>, services: seq<Service>)
    requires Records(byService, byPod, facts)
    ensures NoneYet(facts, Pending(byService, services))
    ensures forall x :: x in Pending(byService, services) ==> x in services && x.selector != map[]
  {
    if services != [] {
      PendingHaveNone(byService, byPod, facts, services[..|services| - 1]);
      var s := services[|services| - 1];
      if Of(byService, s.name) == [] {
        forall p ensures FirstMark(facts, s.name, p).None? { NamedMeansRecorded(byService, byPod, facts, s.name, p); }
      }
    }
  }

  lemma {:induction false} PodFactsAre(pending: seq<Service>, pod: Pod)
    ensures forall f :: f in PodFacts(pending, pod) ==>
              f.mark == Selector && f.pod == pod.name && exists i :: 0 <= i < |pending| && pending[i].name == f.service && Matches(pending[i].selector, pod.labels)
  {
    if pending != [] {
      var init := pending[..|pending| - 1];
      PodFactsAre(init, pod);
      forall f | f in PodFacts(init, pod)
        ensures exists i :: 0 <= i < |pending| && pending[i].name == f.service && Matches(pending[i].selector, pod.labels)
      {
        var i :| 0 <= i < |init| && init[i].name == f.service && Matches(init[i].selector, pod.labels);
        assert pending[i] == init[i];
      }
    }
  }

  /** Where a selector fact comes from. */
  ghost predicate Selected(f: Fact, pending: seq<Service>, pods: seq<Pod>) {
    f.mark == Selector &&
    exists i, j :: 0 <= i < |pending| && 0 <= j < |pods| && pending[i].name == f.service && pods[j].name == f.pod
                   && Matches(pending[i].selector, pods[j].labels)
  }

  lemma {:induction false} SelectorFactsAre(pending: seq<Service>, pods: seq<Pod>)
    ensures forall f :: f in SelectorFacts(pending, pods) ==> Selected(f, pending, pods)
  {
    if pods != [] {
      var init, last := pods[..|pods| - 1], pods[|pods| - 1];
      SelectorFactsAre(pending, init);
      PodFactsAre(pending, last);
      forall f | f in SelectorFacts(pending, pods) ensures Selected(f, pending, pods) {
        if f in SelectorFacts(pending, init) {
          var i, j :| 0 <= i < |pending| && 0 <= j < |init| && pending[i].name == f.service && init[j].name == f.pod
                      && Matches(pending[i].selector, init[j].labels);
          assert pods[j] == init[j];
        } else {
          assert pods[|pods| - 1] == last;
        }
      }
    }
  }

  lemma SelectorsApart(facts: seq<Fact>, pending: seq<Service>, pods: seq<Pod>)
    requires NoSelectors(facts) && NoneYet(facts, pending)
    ensures NeverMixed(facts + SelectorFacts(pending, pods))
  {
    var more := SelectorFacts(pending, pods);
    SelectorFactsAre(pending, pods);
    forall s, p, q | FromEndpoint(FirstMark(facts + more, s, p)) ensures FirstMark(facts + more, s, q) != Some(Selector) {
      MarkStays(facts, more, s, p);
      MarkStays(facts, more, s, q);
      MarkIsFact(more, s, p);
      MarkIsFact(more, s, q);
      MarkIsFact(facts, s, q);
    }
  }

  lemma SelectedOnly(facts: seq<Fact>, pending: seq<Service>, services: seq<Service>, pods: seq<Pod>)
    requires NoSelectors(facts) && forall x :: x in pending ==> x in services && x.selector != map[]
    ensures OnlySelected(facts + SelectorFacts(pending, pods), services, pods)
  {
    var more := SelectorFacts(pending, pods);
    SelectorFactsAre(pending, pods);
    forall s, p | FirstMark(facts + more, s, p) == Some(Selector)
      ensures exists i, j :: 0 <= i < |services| && 0 <= j < |pods| && Selects(services[i], pods[j], s, p)
    {
      MarkStays(facts, more, s, p);
      MarkIsFact(facts, s, p);
      MarkIsFact(more, s, p);
      var f := Fact(s, p, Selector);
      var k, j :| 0 <= k < |pending| && 0 <= j < |pods| && pending[k].name == f.service && pods[j].name == f.pod
                  && Matches(pending[k].selector, pods[j].labels);
      assert pending[k] in pending;
      var i :| 0 <= i < |services| && services[i] == pending[k];
      assert Selects(services[i], pods[j], s, p);
    }
  }

  lemma {:induction false} PendingHas(byService: Index, services: seq<Service>, i: nat)
    requires i < |services| && Of(byService, services[i].name) == [] && services[i].selector != map[]
    ensures services[i] in Pending(byService, services)
  {
    if i < |services| - 1 { PendingHas(byService, services[..|services| - 1], i); }
  }

  lemma {:induction false} PodFactsHave(pending: seq<Service>, pod: Pod, s: Service)
    requires s in pending && Matches(s.selector, pod.labels)
    ensures Fact(s.name, pod.name, Selector) in PodFacts(pending, pod)
  {
    if pending[|pending| - 1] != s { PodFactsHave(pending[..|pending| - 1], pod, s); }
  }

  lemma {:induction false} SelectorFactsHave(pending: seq<Service>, pods: seq<Pod>, s: Service, j: nat)
    requires s in pending && j < |pods| && Matches(s.selector, pods[j].labels)
    ensures Fact(s.name, pods[j].name, Selector) in SelectorFacts(pending, pods)
  {
    if j < |pods| - 1 {
      SelectorFactsHave(pending, pods[..|pods| - 1], s, j);
    } else {
      PodFactsHave(pending, pods[j], s);
    }
  }

  lemma {:induction false} FactIsMarked(facts: seq<Fact>, f: Fact)
    requires f in facts && f.service != "" && f.pod != ""
    ensures FirstMark(facts, f.service, f.pod).Some?
  {
    if facts[|facts| - 1] != f { FactIsMarked(facts[..|facts| - 1], f); }
  }

  /** A Service with a pair before selectors are looked at has it from an endpoint. */
  lemma PairedIsEndpointed(byService: Index, byPod: Index, facts: seq<Fact>, more: seq<Fact>, s: string)
    requires Records(byService, byPod, facts) && NoSelectors(facts) && Of(byService, s) != []
    ensures Endpointed(facts + more, s)
  {
    var l := Of(byService, s)[0];
    assert Named(Of(byService, s), l.name);
    NamedMeansRecorded(byService, byPod, facts, s, l.name);
    MarkIsFact(facts, s, l.name);
    MarkStays(facts, more, s, l.name);
    assert FromEndpoint(FirstMark(facts + more, s, l.name));
  }

  /** A Service left to its selector gets every listed pod it matches. */
  lemma PendingGetsAll(facts: seq<Fact>, pending: seq<Service>, pods: seq<Pod>, s: Service, j: nat)
    requires NoneYet(facts, pending) && s in pending && j < |pods| && Matches(s.selector, pods[j].labels)
    requires s.name != "" && pods[j].name != ""
    ensures FirstMark(facts + SelectorFacts(pending, pods), s.name, pods[j].name) == Some(Selector)
  {
    var more, p := SelectorFacts(pending, pods), pods[j].name;
    SelectorFactsHave(pending, pods, s, j);
    FactIsMarked(more, Fact(s.name, p, Selector));
    MarkStays(facts, more, s.name, p);
    SelectorFactsAre(pending, pods);
    MarkIsFact(more, s.name, p);
  }

  lemma EverySelected(byService: Index, byPod: Index, facts: seq<Fact>, services: seq<Service>, pods: seq<Pod>)
    requires Records(byService, byPod, facts) && NoSelectors(facts)
    ensures AllSelected(facts + SelectorFacts(Pending(byService, services), pods), services, pods)
  {
    var pending := Pending(byService, services);
    PendingHaveNone(byService, byPod, facts, services);
    forall i, j | 0 <= i < |services| && 0 <= j < |pods| && Selects(services[i], pods[j], services[i].name, pods[j].name)
                  && services[i].name != "" && pods[j].name != ""
      ensures FirstMark(facts + SelectorFacts(pending, pods), services[i].name, pods[j].name) == Some(Selector)
              || Endpointed(facts + SelectorFacts(pending, pods), services[i].name)
    {
      if Of(byService, services[i].name) == [] {
        PendingHas(byService, services, i);
        PendingGetsAll(facts, pending, pods, services[i], j);
      } else {
        PairedIsEndpointed(byService, byPod, facts, SelectorFacts(pending, pods), services[i].name);
      }
    }
  }
}
