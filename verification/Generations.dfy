/** Context-keyed caches against changes of the kubeconfig registry. A label is one
    critical section of the manager or of the discovery service, so reads, builds,
    fetches and registry mutations interleave freely. */
module Generations {
  import opened Optional

  datatype Source = Source(path: string, runtime: bool)

  /** A client knows which registry it was built from. */
  datatype Client = Client(context: string, generation: nat, sources: seq<Source>, host: string)

  /** A catalogue and the client it was fetched with. */
  datatype Catalogue = Catalogue(client: Client, payload: string)

  datatype Key = Key(context: string, generation: nat)

  /** How far a Get has got; `since` is the generation current when it began. */
  datatype Get =
    | Begun(since: nat) | Named(since: nat, context: string) | Keyed(since: nat, key: Key) | Missed(since: nat, key: Key)
    | Holding(since: nat, key: Key, client: Client) | Fetched(since: nat, key: Key, catalogue: Catalogue)
    | Returned(since: nat, context: string, catalogue: Catalogue) | Failed

  /** `registries` lists every registry there has been, oldest first; the current
      generation is its last position. */
  datatype State = State(
    registries: seq<seq<Source>>, clients: map<string, Client>, cache: map<Key, Catalogue>, gets: map<nat, Get>)

  function Generation(s: State): nat
    requires |s.registries| > 0
  {
    |s.registries| - 1
  }

  function Current(s: State): seq<Source>
    requires |s.registries| > 0
  {
    s.registries[|s.registries| - 1]
  }

  predicate Has(sources: seq<Source>, path: string) {
    exists i :: 0 <= i < |sources| && sources[i].path == path
  }

  /** The sources left when those at these paths go. */
  function Without(sources: seq<Source>, gone: set<string>): seq<Source> {
    if sources == [] then []
    else
      var last := sources[|sources| - 1];
      Without(sources[..|sources| - 1], gone) + if last.path in gone then [] else [last]
  }

  datatype Label =
    | Begin(g: nat) | Name(g: nat, context: string) | ReadKey(g: nat) | Hit(g: nat) | Miss(g: nat)
    | Obtain(g: nat, host: string) | Fail(g: nat) | Fetch(g: nat, payload: string) | Store(g: nat)
    | Add(path: string) | Remove(gone: set<string>) | Evict(context: string, host: string)

  predicate Enabled(s: State, l: Label) {
    |s.registries| > 0 &&
    match l
    case Begin(g) => g !in s.gets
    case Name(g, _) => g in s.gets && s.gets[g].Begun?
    case ReadKey(g) => g in s.gets && s.gets[g].Named?
    case Hit(g) => g in s.gets && s.gets[g].Keyed? && s.gets[g].key in s.cache
    case Miss(g) => g in s.gets && s.gets[g].Keyed?
    case Obtain(g, _) => g in s.gets && s.gets[g].Missed?
    case Fail(g) => g in s.gets && !s.gets[g].Returned?
    case Fetch(g, _) => g in s.gets && s.gets[g].Holding?
    case Store(g) => g in s.gets && s.gets[g].Fetched?
    case Add(path) => !Has(Current(s), path)
    case Remove(gone) => exists i :: 0 <= i < |Current(s)| && Current(s)[i].path in gone
    case Evict(_, _) => true
  }

  /** The cached client, or one built from the current registry. */
  function Built(s: State, context: string, host: string): Client
    requires |s.registries| > 0
  {
    if context in s.clients then s.clients[context] else Client(context, Generation(s), Current(s), host)
  }

  /** A committed mutation: a new registry, and no cached client survives it. */
  function Committed(s: State, sources: seq<Source>): State {
    s.(registries := s.registries + [sources], clients := map[])
  }

  function Goto(s: State, g: nat, get: Get): State {
    s.(gets := s.gets[g := get])
  }

  function Step(s: State, l: Label): State
    requires Enabled(s, l)
  {
    match l
    case Begin(g) => Goto(s, g, Begun(Generation(s)))
    case Name(g, context) => Goto(s, g, Named(s.gets[g].since, context))
    case ReadKey(g) => Goto(s, g, Keyed(s.gets[g].since, Key(s.gets[g].context, Generation(s))))
    case Hit(g) => Goto(s, g, Returned(s.gets[g].since, s.gets[g].key.context, s.cache[s.gets[g].key]))
    case Miss(g) => Goto(s, g, Missed(s.gets[g].since, s.gets[g].key))
    case Obtain(g, host) =>
      var key := s.gets[g].key;
      var client := Built(s, key.context, host);
      Goto(s, g, Holding(s.gets[g].since, key, client)).(clients := s.clients[key.context := client])
    case Fail(g) => Goto(s, g, Failed)
    case Fetch(g, payload) => Goto(s, g, Fetched(s.gets[g].since, s.gets[g].key, Catalogue(s.gets[g].client, payload)))
    case Store(g) =>
      var get := s.gets[g];
      Goto(s, g, Returned(get.since, get.key.context, get.catalogue)).(cache := s.cache[get.key := get.catalogue])
    case Add(path) => Committed(s, Current(s) + [Source(path, true)])
    case Remove(gone) => Committed(s, Without(Current(s), gone))
    case Evict(context, host) =>
      if context in s.clients && s.clients[context].host != host then s.(clients := s.clients - {context}) else s
  }

  function Opened(sources: seq<Source>): State {
    State([sources], map[], map[], map[])
  }

  // ----- The invariant -----

  /** A client for this context, built from the registry of its own generation. */
  ghost predicate Genuine(s: State, c: Client, context: string) {
    c.context == context && c.generation < |s.registries| && c.sources == s.registries[c.generation]
  }

  ghost predicate CachedClientsCurrent(s: State) {
    forall name :: name in s.clients ==> Genuine(s, s.clients[name], name) && s.clients[name].generation == |s.registries| - 1
  }

  ghost predicate EntryRight(s: State, key: Key, c: Catalogue) {
    Genuine(s, c.client, key.context) && key.generation <= c.client.generation
  }

  ghost predicate CacheRight(s: State) {
    forall key :: key in s.cache ==> EntryRight(s, key, s.cache[key])
  }

  ghost predicate GetRight(s: State, get: Get) {
    match get
    case Begun(since) => since < |s.registries|
    case Named(since, _) => since < |s.registries|
    case Keyed(since, key) => since <= key.generation < |s.registries|
    case Missed(since, key) => since <= key.generation < |s.registries|
    case Holding(since, key, client) => since <= key.generation <= client.generation && Genuine(s, client, key.context)
    case Fetched(since, key, catalogue) => since <= key.generation && EntryRight(s, key, catalogue)
    case Returned(since, context, catalogue) => since <= catalogue.client.generation && Genuine(s, catalogue.client, context)
    case Failed => true
  }

  ghost predicate GetsRight(s: State) {
    forall g :: g in s.gets ==> GetRight(s, s.gets[g])
  }

  ghost predicate NoPathTwice(sources: seq<Source>) {
    forall i, j | 0 <= i < j < |sources| :: sources[i].path != sources[j].path
  }

  ghost predicate Inv(s: State) {
    && |s.registries| > 0 && CachedClientsCurrent(s) && CacheRight(s) && GetsRight(s)
    && (NoPathTwice(s.registries[0]) ==> forall i | 0 <= i < |s.registries| :: NoPathTwice(s.registries[i]))
  }

  lemma StepClients(s: State, l: Label)
    requires |s.registries| > 0 && CachedClientsCurrent(s) && Enabled(s, l)
    ensures CachedClientsCurrent(Step(s, l)) && |Step(s, l).registries| > 0
  {
  }

  lemma StepCache(s: State, l: Label)
    requires |s.registries| > 0 && CacheRight(s) && GetsRight(s) && Enabled(s, l)
    ensures CacheRight(Step(s, l))
  {
  }

  /** A committed mutation leaves what was true of a registry true. */
  lemma CommitKeepsGet(s: State, sources: seq<Source>, get: Get)
    requires |s.registries| > 0 && GetRight(s, get)
    ensures GetRight(Committed(s, sources), get)
  {
    assert forall i | 0 <= i < |s.registries| :: (s.registries + [sources])[i] == s.registries[i];
  }

  /** The step is of the manager: every Get stays where it is. */
  predicate Mutates(l: Label) {
    l.Add? || l.Remove? || l.Evict?
  }

  lemma MutationKeepsGets(s: State, l: Label)
    requires |s.registries| > 0 && GetsRight(s) && Enabled(s, l) && Mutates(l)
    ensures GetsRight(Step(s, l))
  {
    forall g | g in s.gets ensures GetRight(Step(s, l), s.gets[g]) {
      if !l.Evict? { CommitKeepsGet(s, if l.Add? then Current(s) + [Source(l.path, true)] else Without(Current(s), l.gone), s.gets[g]); }
    }
  }

  /** What a Get's own step makes of it is right. */
  lemma OwnStepRight(s: State, l: Label)
    requires |s.registries| > 0 && CachedClientsCurrent(s) && CacheRight(s) && GetsRight(s) && Enabled(s, l) && !Mutates(l)
    ensures l.g in Step(s, l).gets && GetRight(Step(s, l), Step(s, l).gets[l.g])
  {
    assert l.g in s.gets ==> GetRight(s, s.gets[l.g]);
    if l.Hit? { assert EntryRight(s, s.gets[l.g].key, s.cache[s.gets[l.g].key]); }
    if l.Obtain? { assert Genuine(s, Built(s, s.gets[l.g].key.context, l.host), s.gets[l.g].key.context); }
  }

  lemma OthersStay(s: State, l: Label, g: nat)
    requires |s.registries| > 0 && Enabled(s, l) && !Mutates(l) && g in s.gets && g != l.g && GetRight(s, s.gets[g])
    ensures g in Step(s, l).gets && GetRight(Step(s, l), Step(s, l).gets[g])
  {
    assert Step(s, l).registries == s.registries && Step(s, l).gets[g] == s.gets[g];
  }

  lemma StepGets(s: State, l: Label)
    requires |s.registries| > 0 && CachedClientsCurrent(s) && CacheRight(s) && GetsRight(s) && Enabled(s, l)
    ensures GetsRight(Step(s, l))
  {
    if Mutates(l) {
      MutationKeepsGets(s, l);
    } else {
      OwnStepRight(s, l);
      OnlyOwnMoves(s, l);
      forall g | g in Step(s, l).gets ensures GetRight(Step(s, l), Step(s, l).gets[g]) {
        if g != l.g { OthersStay(s, l, g); }
      }
    }
  }

  lemma OnlyOwnMoves(s: State, l: Label)
    requires Enabled(s, l) && !Mutates(l)
    ensures Step(s, l).gets.Keys == s.gets.Keys + {l.g}
  {
  }

  lemma InSnoc(sources: seq<Source>, last: Source, x: Source)
    ensures x in sources + [last] <==> x in sources || x == last
  {
  }

  lemma {:induction false} WithoutKeeps(sources: seq<Source>, gone: set<string>)
    ensures forall x :: x in Without(sources, gone) <==> x in sources && x.path !in gone
  {
    if sources != [] {
      var init, last := sources[..|sources| - 1], sources[|sources| - 1];
      WithoutKeeps(init, gone);
      assert sources == init + [last];
      forall x ensures x in Without(sources, gone) <==> x in sources && x.path !in gone {
        InSnoc(init, last, x);
        InSnoc(Without(init, gone), last, x);
      }
    }
  }

  lemma {:induction false} WithoutStaysDistinct(sources: seq<Source>, gone: set<string>)
    requires NoPathTwice(sources)
    ensures NoPathTwice(Without(sources, gone))
  {
    if sources != [] {
      var init, last := sources[..|sources| - 1], sources[|sources| - 1];
      WithoutStaysDistinct(init, gone);
      WithoutKeeps(init, gone);
      forall i | 0 <= i < |Without(init, gone)| ensures Without(init, gone)[i].path != last.path {
        assert Without(init, gone)[i] in Without(init, gone);
        var k :| 0 <= k < |init| && init[k] == Without(init, gone)[i];
        assert sources[k] == init[k];
      }
    }
  }

  lemma WithoutOfOne(x: Source, gone: set<string>)
    ensures Without([x], gone) == if x.path in gone then [] else [x]
  {
    assert [x][..0] == [];
  }

  /** Removing leaves the other sources in their order. */
  lemma {:induction false} WithoutKeepsOrder(a: seq<Source>, b: seq<Source>, gone: set<string>)
    ensures Without(a + b, gone) == Without(a, gone) + Without(b, gone)
  {
    if b == [] {
      assert a + b == a;
    } else {
      WithoutKeepsOrder(a, b[..|b| - 1], gone);
      assert (a + b)[..|a + b| - 1] == a + b[..|b| - 1];
    }
  }

  lemma StepRegistries(s: State, l: Label)
    requires |s.registries| > 0 && Enabled(s, l) && forall i | 0 <= i < |s.registries| :: NoPathTwice(s.registries[i])
    ensures forall i | 0 <= i < |Step(s, l).registries| :: NoPathTwice(Step(s, l).registries[i])
  {
    if l.Remove? { WithoutStaysDistinct(Current(s), l.gone); }
  }

  lemma StepKeeps(s: State, l: Label)
    requires Inv(s) && Enabled(s, l)
    ensures Inv(Step(s, l))
  {
    StepClients(s, l);
    StepCache(s, l);
    StepGets(s, l);
    if NoPathTwice(s.registries[0]) { StepRegistries(s, l); }
    assert Step(s, l).registries[0] == s.registries[0];
  }

  function Run(s: State, ls: seq<Label>): Option<State> {
    if ls == [] then Some(s)
    else
      match Run(s, ls[..|ls| - 1])
      case None => None
      case Some(t) => if Enabled(t, ls[|ls| - 1]) then Some(Step(t, ls[|ls| - 1])) else None
  }

  lemma {:induction false} RunKeeps(sources: seq<Source>, ls: seq<Label>)
    requires Run(Opened(sources), ls).Some?
    ensures Inv(Run(Opened(sources), ls).value)
  {
    if ls != [] {
      RunKeeps(sources, ls[..|ls| - 1]);
      StepKeeps(Run(Opened(sources), ls[..|ls| - 1]).value, ls[|ls| - 1]);
    }
  }

  // ----- The theorems, over every interleaving -----

  /** No stale generation: whatever a Get returns was fetched with a client for its own
      context, built from the registry of a generation at least as new as the one current
      when the Get began. */
  lemma NoStaleGeneration(sources: seq<Source>, ls: seq<Label>, g: nat)
    requires var r := Run(Opened(sources), ls); r.Some? && g in r.value.gets && r.value.gets[g].Returned?
    ensures var s := Run(Opened(sources), ls).value; var get := s.gets[g];
            && get.since <= get.catalogue.client.generation < |s.registries|
            && get.catalogue.client.context == get.context
            && get.catalogue.client.sources == s.registries[get.catalogue.client.generation]
  {
    RunKeeps(sources, ls);
  }

  /** Every cached client is of the current generation, and every catalogue filed under a
      generation was fetched with a client at least that new. */
  lemma CachesKeepUp(sources: seq<Source>, ls: seq<Label>)
    requires Run(Opened(sources), ls).Some?
    ensures var s := Run(Opened(sources), ls).value;
            && |s.registries| > 0
            && (forall name :: name in s.clients ==> s.clients[name].generation == Generation(s) && s.clients[name].sources == Current(s))
            && (forall key :: key in s.cache ==> key.generation <= s.cache[key].client.generation && s.cache[key].client.context == key.context)
  {
    RunKeeps(sources, ls);
  }

  /** Adding never registers a path twice, however many adds race. */
  lemma NoSourceTwice(sources: seq<Source>, ls: seq<Label>)
    requires NoPathTwice(sources) && Run(Opened(sources), ls).Some?
    ensures var s := Run(Opened(sources), ls).value; |s.registries| > 0 && NoPathTwice(Current(s))
  {
    RunKeeps(sources, ls);
    FirstStays(sources, ls);
  }

  lemma {:induction false} FirstStays(sources: seq<Source>, ls: seq<Label>)
    requires Run(Opened(sources), ls).Some?
    ensures var s := Run(Opened(sources), ls).value; |s.registries| > 0 && s.registries[0] == sources
  {
    if ls != [] {
      FirstStays(sources, ls[..|ls| - 1]);
      KeepsFirst(Run(Opened(sources), ls[..|ls| - 1]).value, ls[|ls| - 1]);
    }
  }

  lemma KeepsFirst(s: State, l: Label)
    requires Enabled(s, l)
    ensures |Step(s, l).registries| > 0 && Step(s, l).registries[0] == s.registries[0]
  {
  }

  // ----- What the registry holds, told from the mutations alone -----

  /** How many mutations there were. */
  function Mutations(ls: seq<Label>): nat {
    if ls == [] then 0
    else
      var last := ls[|ls| - 1];
      Mutations(ls[..|ls| - 1]) + if last.Add? || last.Remove? then 1 else 0
  }

  /** The path was there to begin with, or was added, and has not been removed since. */
  predicate Present(sources: seq<Source>, ls: seq<Label>, path: string) {
    if ls == [] then Has(sources, path)
    else
      var before, last := Present(sources, ls[..|ls| - 1], path), ls[|ls| - 1];
      if last.Add? && last.path == path then true
      else if last.Remove? && path in last.gone then false
      else before
  }

  lemma HasSnoc(sources: seq<Source>, x: Source, path: string)
    ensures Has(sources + [x], path) <==> Has(sources, path) || x.path == path
  {
    if i :| 0 <= i < |sources| && sources[i].path == path { assert (sources + [x])[i].path == path; }
    assert (sources + [x])[|sources|] == x;
  }

  lemma HasIn(sources: seq<Source>, path: string)
    ensures Has(sources, path) <==> exists x :: x in sources && x.path == path
  {
    if i :| 0 <= i < |sources| && sources[i].path == path { assert sources[i] in sources; }
  }

  lemma HasWithout(sources: seq<Source>, gone: set<string>, path: string)
    ensures Has(Without(sources, gone), path) <==> Has(sources, path) && path !in gone
  {
    WithoutKeeps(sources, gone);
    HasIn(sources, path);
    HasIn(Without(sources, gone), path);
  }

  lemma MutationDoes(s: State, l: Label, path: string)
    requires Enabled(s, l)
    ensures var s' := Step(s, l);
            && |s'.registries| == |s.registries| + (if l.Add? || l.Remove? then 1 else 0)
            && (Has(Current(s'), path) <==>
                  if l.Add? && l.path == path then true else if l.Remove? && path in l.gone then false else Has(Current(s), path))
  {
    match l
    case Add(p) => HasSnoc(Current(s), Source(p, true), path);
    case Remove(gone) => HasWithout(Current(s), gone, path);
    case _ =>
  }

  /** The generation counts the mutations, and the current registry holds exactly the paths that
      were there or were added and have not been removed since. */
  lemma {:induction false} RegistryIsWhatWasAdded(sources: seq<Source>, ls: seq<Label>, path: string)
    requires Run(Opened(sources), ls).Some?
    ensures var s := Run(Opened(sources), ls).value;
            && |s.registries| > 0 && Generation(s) == Mutations(ls)
            && (Has(Current(s), path) <==> Present(sources, ls, path))
  {
    if ls != [] {
      RegistryIsWhatWasAdded(sources, ls[..|ls| - 1], path);
      MutationDoes(Run(Opened(sources), ls[..|ls| - 1]).value, ls[|ls| - 1], path);
    }
  }

  /** A look at a context's endpoint leaves its cached client exactly when that is its endpoint,
      and no other client is touched. */
  lemma EvictedWhenStale(s: State, context: string, host: string, name: string)
    requires |s.registries| > 0
    ensures var s' := Step(s, Evict(context, host));
            && s' == s.(clients := s'.clients)
            && (name in s'.clients <==> name in s.clients && (name == context ==> s.clients[name].host == host))
            && (name in s'.clients ==> s'.clients[name] == s.clients[name])
  {
  }
}
