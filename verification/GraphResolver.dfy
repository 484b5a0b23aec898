/** How kinds are resolved to types: three indexes over one discovery snapshot. Lower-casing
    is a parameter. */
module GraphResolver {
  import opened Optional
  import opened GraphModel
  import opened GraphReach
  import opened GraphComplete
  import StatusTally
  import Text

  /** The built-in groups, ahead of everything else. */
  function Rank(group: string): nat {
    if group == "" then 0
    else if group == "apps" then 1
    else if group == "batch" then 2
    else if group == "networking.k8s.io" then 3
    else if group == "autoscaling" then 4
    else if group == "discovery.k8s.io" then 5
    else 10
  }

  /** The candidate's group ranks ahead, or as high and alphabetically first. */
  predicate Better(candidate: string, current: string) {
    if Rank(candidate) != Rank(current) then Rank(candidate) < Rank(current) else StatusTally.Less(candidate, current)
  }

  function Put(index: map<string, Info>, key: string, info: Info): map<string, Info> {
    if key !in index || Better(info.group, index[key].group) then index[key := info] else index
  }

  datatype Resolver = Resolver(byKind: map<string, Info>, byResource: map<string, Info>, byGroupKind: map<(string, string), Info>)

  function AddType(r: Resolver, lower: string -> string, info: Info): Resolver {
    Resolver(Put(r.byKind, lower(info.kind), info), Put(r.byResource, lower(info.resource), info),
             r.byGroupKind[(info.group, info.kind) := info])
  }

  /** The indexes over the types served, in discovery order. */
  function Indexed(lower: string -> string, served: seq<Info>): Resolver {
    if served == [] then Resolver(map[], map[], map[])
    else AddType(Indexed(lower, served[..|served| - 1]), lower, served[|served| - 1])
  }

  method PutPreferred(index: map<string, Info>, key: string, info: Info) returns (index': map<string, Info>)
    ensures index' == Put(index, key, info)
  {
    index' := index;
    if key !in index {
      index' := index[key := info];
    } else {
      var better := Better(info.group, index[key].group);
      if better { index' := index[key := info]; }
    }
  }

  method NewResolver(lower: string -> string, served: seq<Info>) returns (r: Resolver)
    ensures r == Indexed(lower, served)
  {
    var byKind, byResource, byGroupKind := map[], map[], map[];
    var i := 0;
    while i < |served|
      invariant 0 <= i <= |served| && Resolver(byKind, byResource, byGroupKind) == Indexed(lower, served[..i])
    {
      assert served[..i + 1][..i] == served[..i];
      byGroupKind := byGroupKind[(served[i].group, served[i].kind) := served[i]];
      byKind := PutPreferred(byKind, lower(served[i].kind), served[i]);
      byResource := PutPreferred(byResource, lower(served[i].resource), served[i]);
      i := i + 1;
    }
    assert served[..i] == served;
    r := Resolver(byKind, byResource, byGroupKind);
  }

  function ByKind(r: Resolver, lower: string -> string, kind: string): Option<Info> {
    var key := lower(kind);
    if key in r.byKind then Some(r.byKind[key]) else if key in r.byResource then Some(r.byResource[key]) else None
  }

  /** The group of an apiVersion: what comes before the slash, none when there is no slash. */
  function GroupOf(apiVersion: string): string {
    var i := Text.IndexOf(apiVersion, "/");
    if i < 0 then "" else apiVersion[..i]
  }

  function ByGroupKind(r: Resolver, lower: string -> string, apiVersion: string, kind: string): Option<Info> {
    if apiVersion == "" then ByKind(r, lower, kind)
    else if (GroupOf(apiVersion), kind) in r.byGroupKind then Some(r.byGroupKind[(GroupOf(apiVersion), kind)])
    else ByKind(r, lower, kind)
  }

  // ----- The preferred type -----

  lemma BetterOrders(a: string, b: string, c: string)
    ensures !Better(a, a) && (Better(a, b) && Better(b, c) ==> Better(a, c))
    ensures a != b ==> Better(a, b) || Better(b, a)
  {
    StatusTally.LessOrders(a, b, c);
  }

  const BUILT_IN := ["", "apps", "batch", "networking.k8s.io", "autoscaling", "discovery.k8s.io"]

  /** The built-in groups come in this order and before every other group, and those are
      ordered alphabetically. */
  lemma BuiltInsComeFirst(a: string, b: string)
    ensures forall i, j | 0 <= i < |BUILT_IN| && 0 <= j < |BUILT_IN| :: Better(BUILT_IN[i], BUILT_IN[j]) <==> i < j
    ensures a in BUILT_IN && b !in BUILT_IN ==> Better(a, b) && !Better(b, a)
    ensures a !in BUILT_IN && b !in BUILT_IN ==> (Better(a, b) <==> StatusTally.Less(a, b))
  {
    forall i, j | 0 <= i < |BUILT_IN| && 0 <= j < |BUILT_IN| ensures Better(BUILT_IN[i], BUILT_IN[j]) <==> i < j {
      RankOfBuiltIn(i);
      RankOfBuiltIn(j);
      BetterOrders(BUILT_IN[i], BUILT_IN[j], BUILT_IN[i]);
    }
    RankOfOther(a);
    RankOfOther(b);
  }

  lemma RankOfBuiltIn(i: nat)
    requires i < |BUILT_IN|
    ensures Rank(BUILT_IN[i]) == i
  {
  }

  lemma RankOfOther(group: string)
    ensures if group in BUILT_IN then Rank(group) < 10 else Rank(group) == 10
  {
    if group !in BUILT_IN {
      forall i | 0 <= i < |BUILT_IN| ensures BUILT_IN[i] != group { assert BUILT_IN[i] in BUILT_IN; }
      assert BUILT_IN[0] == "" && BUILT_IN[1] == "apps" && BUILT_IN[2] == "batch" && BUILT_IN[3] == "networking.k8s.io"
             && BUILT_IN[4] == "autoscaling" && BUILT_IN[5] == "discovery.k8s.io";
    }
  }

  /** The types that want this key in the index of kinds, or of plural resource names. */
  predicate Wants(lower: string -> string, plural: bool, key: string, info: Info) {
    lower(if plural then info.resource else info.kind) == key
  }

  function Index(r: Resolver, plural: bool): map<string, Info> {
    if plural then r.byResource else r.byKind
  }

  /** A kind, or a plural name, is indexed exactly when some served type has it, and then to one
      whose group no other type of that name beats: which one does not depend on the order in
      which different groups are listed. */
  lemma {:induction false} PreferredIsBest(lower: string -> string, served: seq<Info>, plural: bool, key: string)
    ensures var index := Index(Indexed(lower, served), plural);
            && (key in index <==> exists info :: info in served && Wants(lower, plural, key, info))
            && (key in index ==>
                  && index[key] in served && Wants(lower, plural, key, index[key])
                  && forall info :: info in served && Wants(lower, plural, key, info) ==> !Better(info.group, index[key].group))
  {
    if served != [] {
      var init, last := served[..|served| - 1], served[|served| - 1];
      PreferredIsBest(lower, init, plural, key);
      assert served == init + [last];
      var before, after := Index(Indexed(lower, init), plural), Index(Indexed(lower, served), plural);
      if Wants(lower, plural, key, last) {
        assert last in served;
        forall info | info in served && Wants(lower, plural, key, info) ensures !Better(info.group, after[key].group) {
          BetterOrders(info.group, last.group, if key in before then before[key].group else "");
          BetterOrders(last.group, last.group, last.group);
        }
      }
    }
  }

  /** Two listings of the same types prefer types of the same group. */
  lemma PreferredGroupIsStable(lower: string -> string, served: seq<Info>, served': seq<Info>, plural: bool, key: string)
    requires forall info :: info in served <==> info in served'
    ensures var a, b := Index(Indexed(lower, served), plural), Index(Indexed(lower, served'), plural);
            (key in a <==> key in b) && (key in a ==> a[key].group == b[key].group)
  {
    PreferredIsBest(lower, served, plural, key);
    PreferredIsBest(lower, served', plural, key);
    var a, b := Index(Indexed(lower, served), plural), Index(Indexed(lower, served'), plural);
    if key in a && key in b { BetterOrders(a[key].group, b[key].group, a[key].group); }
  }

  /** A name resolves exactly when it is the kind or the plural of a served type, whatever its
      case; types of which it is the kind come before those of which it is the plural. */
  lemma KindResolvesExactly(lower: string -> string, served: seq<Info>, name: string)
    ensures var found := ByKind(Indexed(lower, served), lower, name);
            && (found.Some? <==> exists info, plural :: info in served && Wants(lower, plural, lower(name), info))
            && (found.Some? && (exists info :: info in served && Wants(lower, false, lower(name), info)) ==>
                  Wants(lower, false, lower(name), found.value))
            && (found.Some? ==>
                  && found.value in served
                  && (Wants(lower, false, lower(name), found.value) || Wants(lower, true, lower(name), found.value)))
  {
    PreferredIsBest(lower, served, false, lower(name));
    PreferredIsBest(lower, served, true, lower(name));
    var r := Indexed(lower, served);
    if lower(name) in r.byKind { assert Wants(lower, false, lower(name), r.byKind[lower(name)]); }
    if lower(name) in r.byResource { assert Wants(lower, true, lower(name), r.byResource[lower(name)]); }
  }

  // ----- References that name a group -----

  /** An apiVersion with a group reads as that group, whatever the version; one without as the
      core group. */
  lemma GroupReads(group: string, version: string)
    ensures '/' !in group ==> GroupOf(group + "/" + version) == group
    ensures '/' !in version ==> GroupOf(version) == ""
  {
    if '/' !in group {
      Text.CharClean(group, '/');
      Text.CutAtFirst(group, "/", version);
      assert (group + "/" + version)[..|group|] == group;
    }
    if '/' !in version { Text.CharClean(version, '/'); }
  }

  /** A group and kind are indexed exactly when served, to the last type listed with both. */
  lemma {:induction false} GroupKindIsLast(lower: string -> string, served: seq<Info>, key: (string, string))
    ensures var index := Indexed(lower, served).byGroupKind;
            && (key in index <==> exists info :: info in served && (info.group, info.kind) == key)
            && (key in index ==> exists i :: 0 <= i < |served| && served[i] == index[key] && (index[key].group, index[key].kind) == key
                                             && forall j | i < j < |served| :: (served[j].group, served[j].kind) != key)
  {
    if served != [] {
      var init, last := served[..|served| - 1], served[|served| - 1];
      GroupKindIsLast(lower, init, key);
      assert served == init + [last];
      var index := Indexed(lower, served).byGroupKind;
      if (last.group, last.kind) == key {
        assert last in served && served[|init|] == index[key];
      } else if key in index {
        var i :| 0 <= i < |init| && init[i] == index[key] && (index[key].group, index[key].kind) == key
                 && forall j | i < j < |init| :: (init[j].group, init[j].kind) != key;
        assert served[i] == index[key];
      }
    }
  }

  /** A reference resolves within its own group whenever that group serves the kind; otherwise,
      or without an apiVersion, as the bare kind does. */
  lemma ReferenceResolves(lower: string -> string, served: seq<Info>, apiVersion: string, kind: string)
    ensures var r := Indexed(lower, served);
            var found := ByGroupKind(r, lower, apiVersion, kind);
            if apiVersion != "" && exists info :: info in served && info.group == GroupOf(apiVersion) && info.kind == kind then
              found.Some? && found.value in served && found.value.group == GroupOf(apiVersion) && found.value.kind == kind
            else
              found == ByKind(r, lower, kind)
  {
    GroupKindIsLast(lower, served, (GroupOf(apiVersion), kind));
  }

  // ----- Every lookup finds a served type -----

  ghost predicate AllServed(r: Resolver, served: seq<Info>) {
    && (forall k :: k in r.byKind ==> r.byKind[k] in served)
    && (forall k :: k in r.byResource ==> r.byResource[k] in served)
    && (forall k :: k in r.byGroupKind ==> r.byGroupKind[k] in served)
  }

  lemma {:induction false} IndexedAreServed(lower: string -> string, served: seq<Info>)
    ensures AllServed(Indexed(lower, served), served)
  {
    if served != [] {
      IndexedAreServed(lower, served[..|served| - 1]);
      assert served == served[..|served| - 1] + [served[|served| - 1]];
    }
  }

  // ----- One type per node identity -----

  /** Two objects share a node identity exactly when they agree in group, kind, namespace and name,
      whatever their version, the core group counting as one called "core". */
  lemma IdentityIs(a: Info, ns: string, name: string, b: Info, ns': string, name': string)
    ensures NodeId(a, ns, name) == NodeId(b, ns', name') <==>
            && (a.group == b.group || {a.group, b.group} == {"", "core"})
            && a.kind == b.kind && ns == ns' && name == name'
  {
    if a.group != b.group && {a.group, b.group} == {"", "core"} { assert a.group in {"", "core"} && b.group in {"", "core"}; }
  }

  /** Discovery serves each kind of a group in one version, as the group's preferred one. */
  ghost predicate ServedOnce(served: seq<Info>) {
    forall a, b :: a in served && b in served && NodeId(a, "", "") == NodeId(b, "", "") ==> a == b
  }

  /** The cluster's kinds and references are resolved against this snapshot. */
  ghost predicate ResolvedBy(c: Cluster, lower: string -> string, served: seq<Info>) {
    var r := Indexed(lower, served);
    && (forall kind :: c.byKind(kind) == ByKind(r, lower, kind))
    && (forall apiVersion, kind :: c.byGroupKind(apiVersion, kind) == ByGroupKind(r, lower, apiVersion, kind))
    && (forall info, obj :: RefsServed(c, served, info, obj))
  }

  ghost predicate RefsServed(c: Cluster, served: seq<Info>, info: Info, obj: Obj) {
    forall i :: 0 <= i < |c.refs(info, obj).neighbors| ==> c.refs(info, obj).neighbors[i].info in served
  }

  lemma PointsAreServed(c: Cluster, lower: string -> string, served: seq<Info>, info: Info, obj: Obj, p: Place)
    requires ResolvedBy(c, lower, served) && Points(c, info, obj, p)
    ensures p.info in served
  {
    IndexedAreServed(lower, served);
    assert RefsServed(c, served, info, obj);
  }

  lemma {:induction false} ReachIsServed(c: Cluster, lower: string -> string, served: seq<Info>, root: Place, n: nat, p: Place)
    requires ResolvedBy(c, lower, served) && root.info in served && Reach(c, root, n, p)
    ensures p.info in served
  {
    if n > 0 {
      var q :| Reach(c, root, n - 1, q) && Hop(c, q, p);
      PointsAreServed(c, lower, served, q.info, c.fetch(q.info, q.name).obj, p);
    }
  }

  /** Where discovery serves each kind of a group once, no two reachable places share a node
      identity: the exactness of the walk applies to every such cluster. */
  lemma ServedOnceHasOneVersion(c: Cluster, lower: string -> string, served: seq<Info>, ns: string, root: Place)
    requires ResolvedBy(c, lower, served) && root.info in served && ServedOnce(served)
    ensures OneVersion(c, ns, root)
  {
    forall p, q | Reached(c, root, p) && Reached(c, root, q) && PlaceId(ns, p.info, p.name) == PlaceId(ns, q.info, q.name)
      ensures p == q
    {
      var n: nat :| Reach(c, root, n, p);
      var m: nat :| Reach(c, root, m, q);
      ReachIsServed(c, lower, served, root, n, p);
      ReachIsServed(c, lower, served, root, m, q);
      assert NodeId(p.info, "", "") == NodeId(q.info, "", "");
    }
  }

  /** With a kind served in two versions the indexes differ: one keeps the first listed, the
      other the last, whatever version an owner reference names. */
  lemma TwoVersionsDisagree(lower: string -> string, a: Info, b: Info, apiVersion: string)
    requires a != b && a.group == b.group && a.kind == b.kind && apiVersion != "" && GroupOf(apiVersion) == a.group
    ensures var r := Indexed(lower, [a, b]);
            ByKind(r, lower, a.kind) == Some(a) && ByGroupKind(r, lower, apiVersion, a.kind) == Some(b)
  {
    assert [a, b][..1] == [a] && [a][..0] == [];
    assert Indexed(lower, [a]) == AddType(Indexed(lower, []), lower, a);
    BetterOrders(a.group, a.group, a.group);
  }
}
