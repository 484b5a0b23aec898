/** The kubeconfig manager and the discovery service as they run. Every mutation is one
    step of the machine, a Get of the discovery service a run of it. */
module ManagerObject {
  import opened Optional
  import opened Generations

  /** What validating a candidate source finds: it cannot be seen, is not parseable, defines
      no context, or is fine. */
  datatype Check = Fine | Invisible | Unparseable | Empty

  datatype Added = Accepted | NoPath | NotAbsolute | Duplicate | Rejected(check: Check)

  datatype Resolved = Active(name: string) | NoContexts | NoCurrent

  predicate Absolute(path: string) {
    path != "" && path[0] == '/'
  }

  class Manager {
    var sources: seq<Source>
    var active: string
    var clients: map<string, Client>
    var sourceGen: nat
    /** How often the source observer and the switch observer have been told. */
    var sourceNotices: nat
    var switchNotices: nat
    ghost var registries: seq<seq<Source>>

    /** The caches and the generation describe the registry as it is. */
    ghost predicate Valid()
      reads this
    {
      && |registries| == sourceGen + 1 && registries[sourceGen] == sources
      && CachedClientsCurrent(State())
    }

    ghost function State(): Generations.State
      reads this
    {
      Generations.State(registries, clients, map[], map[])
    }

    constructor (paths: seq<string>)
      ensures Valid() && sourceGen == 0 && clients == map[] && active == "" && |sources| == |paths|
      ensures forall i | 0 <= i < |paths| :: sources[i] == Source(paths[i], false)
    {
      var seeded := seq(|paths|, i requires 0 <= i < |paths| => Source(paths[i], false));
      sources, active, clients, sourceGen, sourceNotices, switchNotices, registries := seeded, "", map[], 0, 0, 0, [seeded];
    }

    /** What every successful mutation ends with: no client of the old registry is left
        in the cache, the generation moves on, and the observer is told once. */
    method Commit(next: seq<Source>)
      requires Valid()
      modifies `sources, `clients, `sourceGen, `sourceNotices, `registries
      ensures Valid() && sources == next && clients == map[] && sourceGen == old(sourceGen) + 1
      ensures State() == Committed(old(State()), next) && sourceNotices == old(sourceNotices) + 1
    {
      sources, clients, sourceGen := next, map[], sourceGen + 1;
      registries := registries + [next];
      sourceNotices := sourceNotices + 1;
    }

    method HasSource(path: string) returns (found: bool)
      ensures found == Has(sources, path)
    {
      var i := 0;
      while i < |sources|
        invariant 0 <= i <= |sources| && forall k | 0 <= k < i :: sources[k].path != path
      {
        if sources[i].path == path { return true; }
        i := i + 1;
      }
      return false;
    }

    /** The commit of an add, in one critical section: the registry may have changed since
        the path was looked up first. */
    method CommitAdd(path: string) returns (added: bool)
      requires Valid()
      modifies `sources, `clients, `sourceGen, `sourceNotices, `registries
      ensures Valid() && added == !Has(old(sources), path)
      ensures added ==> State() == Step(old(State()), Add(path)) && sourceNotices == old(sourceNotices) + 1
      ensures !added ==> State() == old(State()) && sourceNotices == old(sourceNotices)
    {
      var known := HasSource(path);
      added := !known;
      if added { Commit(sources + [Source(path, true)]); }
    }

    /** Registers a source unless it has no absolute path, is known, fails validation or has
        become known, in that order. `meanwhile` is the registry another mutation commits
        while the source is being validated. A refusal changes nothing else. */
    method AddSource(path: string, check: Check, meanwhile: Option<seq<Source>>) returns (r: Added)
      requires Valid()
      modifies `sources, `clients, `sourceGen, `sourceNotices, `registries
      ensures Valid()
      ensures r == if path == "" then NoPath else if !Absolute(path) then NotAbsolute
                   else if Has(old(sources), path) then Duplicate else if check != Fine then Rejected(check)
                   else if meanwhile.Some? && Has(meanwhile.value, path) then Duplicate else Accepted
      ensures var validated := Absolute(path) && !Has(old(sources), path);
              var before := if validated && meanwhile.Some? then Committed(old(State()), meanwhile.value) else old(State());
              State() == if r == Accepted then Committed(before, Current(before) + [Source(path, true)]) else before
    {
      if path == "" { return NoPath; }
      if path[0] != '/' { return NotAbsolute; }
      var known := HasSource(path);
      if known { return Duplicate; }
      if meanwhile.Some? { Commit(meanwhile.value); }
      if check != Fine { return Rejected(check); }
      var added := CommitAdd(path);
      return if added then Accepted else Duplicate;
    }

    /** Drops the sources with this identifier, if there is one. */
    method RemoveSource(idOf: string -> string, id: string) returns (found: bool)
      requires Valid()
      modifies `sources, `clients, `sourceGen, `sourceNotices, `registries
      ensures Valid() && found == exists i :: 0 <= i < |old(sources)| && idOf(old(sources)[i].path) == id
      ensures found ==> var gone := set i | 0 <= i < |old(sources)| && idOf(old(sources)[i].path) == id :: old(sources)[i].path;
                        Enabled(old(State()), Remove(gone)) && State() == Step(old(State()), Remove(gone))
      ensures !found ==> State() == old(State())
      ensures found ==> Drops(old(sources), sources, idOf, id)
      ensures sourceNotices == old(sourceNotices) + if found then 1 else 0
    {
      ghost var gone := set i | 0 <= i < |sources| && idOf(sources[i].path) == id :: sources[i].path;
      var next := [];
      found := false;
      var i := 0;
      while i < |sources|
        invariant 0 <= i <= |sources| && next == Without(sources[..i], gone)
        invariant found <==> exists k :: 0 <= k < i && idOf(sources[k].path) == id
      {
        assert sources[..i + 1][..i] == sources[..i];
        if idOf(sources[i].path) == id { found := true; } else { next := next + [sources[i]]; }
        i := i + 1;
      }
      assert sources[..i] == sources;
      if found {
        ghost var k :| 0 <= k < |sources| && idOf(sources[k].path) == id;
        Removable(State(), gone, k);
        DropsExactly(sources, idOf, id, gone);
        Commit(next);
      }
    }

    /** The cached client of a context, or one built from the registry as it is; a failed
        build is not cached. */
    method ClientsFor(name: string, builds: bool, host: string) returns (c: Option<Client>)
      requires Valid()
      modifies `clients
      ensures Valid() && c.Some? == (name in old(clients) || builds)
      ensures c.Some? ==> c.value.context == name && c.value.generation == sourceGen && c.value.sources == sources
      ensures c.Some? ==> c.value == Built(old(State()), name, host) && clients == old(clients)[name := c.value]
      ensures c.None? ==> clients == old(clients)
    {
      if name in clients {
        assert clients == clients[name := clients[name]];
        return Some(clients[name]);
      }
      if !builds { return None; }
      var built := Client(name, sourceGen, sources, host);
      clients := clients[name := built];
      return Some(built);
    }

    method EvictStaleClient(name: string, freshHost: string)
      requires Valid()
      modifies `clients
      ensures Valid() && State() == Step(old(State()), Evict(name, freshHost))
      ensures clients == if name in old(clients) && old(clients)[name].host != freshHost then old(clients) - {name} else old(clients)
    {
      if name in clients && clients[name].host != freshHost { clients := clients - {name}; }
    }

    /** Switches to a context the kubeconfig defines, and tells the observer once. */
    method SwitchContext(name: string, contexts: set<string>) returns (ok: bool)
      requires Valid()
      modifies `active, `switchNotices
      ensures Valid() && ok == (name != "" && name in contexts)
      ensures active == (if ok then name else old(active)) && switchNotices == old(switchNotices) + if ok then 1 else 0
    {
      if name == "" || name !in contexts { return false; }
      active := name;
      switchNotices := switchNotices + 1;
      return true;
    }

    /** The override while the kubeconfig still defines it, else the kubeconfig's own
        current context when it is defined; else what is wrong with the kubeconfig. */
    method ResolveActive(contexts: set<string>, current: string) returns (r: Resolved)
      ensures active != "" && active in contexts ==> r == Active(active)
      ensures !(active != "" && active in contexts) && current != "" && current in contexts ==> r == Active(current)
      ensures r.Active? ==> r.name in contexts && r.name != ""
      ensures (active == "" || active !in contexts) && (current == "" || current !in contexts) ==>
                r == if contexts == {} then NoContexts else NoCurrent
    {
      if active != "" && active in contexts { return Active(active); }
      if current != "" && current in contexts { return Active(current); }
      if contexts == {} { return NoContexts; }
      return NoCurrent;
    }
  }

  class DiscoveryService {
    const cluster: Manager
    var cache: map<Key, Catalogue>

    ghost predicate Valid()
      reads this, cluster
    {
      && cluster.Valid()
      && CacheRight(State(cluster.registries, map[], cache, map[]))
    }

    constructor (m: Manager)
      requires m.Valid()
      ensures Valid() && cluster == m && cache == map[]
    {
      cluster, cache := m, map[];
    }

    /** The whole of the machine's state, with these Gets under way. */
    ghost function Whole(gets: map<nat, Generations.Get>): Generations.State
      reads this, cluster
    {
      Generations.State(cluster.registries, cluster.clients, cache, gets)
    }

    /** The look into the cache. */
    method Look(key: Key, refresh: bool) returns (r: Option<Catalogue>)
      ensures r == if !refresh && key in cache then Some(cache[key]) else None
    {
      r := if !refresh && key in cache then Some(cache[key]) else None;
    }

    /** The look is a step of the machine, whatever has happened since the key was read. */
    lemma LookIsAStep(key: Key, refresh: bool, gets: map<nat, Generations.Get>, g: nat)
      requires Valid() && g in gets && gets[g].Keyed? && gets[g].key == key
      ensures var hit := !refresh && key in cache;
              var now := if hit then Returned(gets[g].since, key.context, cache[key]) else Missed(gets[g].since, key);
              Step(Whole(gets), if hit then Hit(g) else Miss(g)) == Whole(gets[g := now])
    {
    }

    /** The client for the key's context, whatever has happened since it was looked for. */
    method ObtainClient(key: Key, builds: bool, host: string, ghost gets: map<nat, Generations.Get>, ghost g: nat)
      returns (c: Option<Client>)
      requires Valid() && g in gets && gets[g].Missed? && gets[g].key == key
      modifies cluster`clients
      ensures Valid() && c.Some? == (key.context in old(cluster.clients) || builds)
      ensures c.None? ==> Whole(gets) == old(Whole(gets))
      ensures c.Some? ==> c.value == Built(old(Whole(gets)), key.context, host)
                          && Genuine(Whole(gets), c.value, key.context) && c.value.generation == cluster.sourceGen
      ensures c.Some? ==> Step(old(Whole(gets)), Obtain(g, host)) == Whole(gets[g := Holding(gets[g].since, key, c.value)])
    {
      c := cluster.ClientsFor(key.context, builds, host);
    }

    /** The write into the cache, whatever has happened since the catalogue was fetched. */
    method File(key: Key, c: Catalogue, ghost gets: map<nat, Generations.Get>, ghost g: nat)
      requires Valid() && g in gets && gets[g].Fetched? && gets[g].key == key && gets[g].catalogue == c
      requires GetRight(Whole(gets), gets[g])
      modifies `cache
      ensures Valid() && cache == old(cache)[key := c]
      ensures Step(old(Whole(gets)), Store(g)) == Whole(gets[g := Returned(gets[g].since, key.context, c)])
    {
      cache := cache[key := c];
    }

    /** The catalogue of a context, from the cache of the current generation unless a
        refresh is asked for. Each of its critical sections is a step of the machine from
        any state; in a row, with any other Gets under way, they are a run of it. */
    method Get(
      name: string, refresh: bool, builds: bool, host: string, answer: Option<string>, ghost gets: map<nat, Generations.Get>, ghost g: nat)
      returns (r: Option<Catalogue>, ghost ls: seq<Label>)
      requires Valid() && g !in gets
      modifies this, cluster`clients
      ensures Valid()
      ensures Run(old(Whole(gets)), ls) == Some(Whole(gets[g := Outcome(cluster.sourceGen, name, r)]))
      ensures r.Some? ==> r.value.client.generation == cluster.sourceGen && r.value.client.context == name
      ensures r.Some? ==> cache == old(cache)[Key(name, cluster.sourceGen) := r.value]
      ensures r.None? ==> cache == old(cache)
      ensures var key := Key(name, cluster.sourceGen);
              if !refresh && key in old(cache) then r == Some(old(cache)[key])
              else r == if (name in old(cluster.clients) || builds) && answer.Some?
                        then Some(Catalogue(Built(old(Whole(gets)), name, host), answer.value)) else None
    {
      var key := Key(name, cluster.sourceGen);
      ghost var s := Whole(gets);
      r := Look(key, refresh);
      if r.Some? {
        assert cache == cache[key := cache[key]];
        ls := Hits(s, g, name);
        return r, ls;
      }
      r, ls := Fetch(key, builds, host, answer, gets, g);
    }

    /** The rest of a Get that found nothing in the cache. */
    method Fetch(
      key: Key, builds: bool, host: string, answer: Option<string>, ghost gets: map<nat, Generations.Get>, ghost g: nat)
      returns (r: Option<Catalogue>, ghost ls: seq<Label>)
      requires Valid() && g !in gets && key.generation == cluster.sourceGen
      modifies `cache, cluster`clients
      ensures Valid() && Run(old(Whole(gets)), ls) == Some(Whole(gets[g := Outcome(cluster.sourceGen, key.context, r)]))
      ensures r == if (key.context in old(cluster.clients) || builds) && answer.Some?
                   then Some(Catalogue(Built(old(Whole(gets)), key.context, host), answer.value)) else None
      ensures r.Some? ==> r.value.client.generation == cluster.sourceGen && r.value.client.context == key.context
      ensures cache == if r.Some? then old(cache)[key := r.value] else old(cache)
    {
      ghost var s, since := Whole(gets), cluster.sourceGen;
      var client := ObtainClient(key, builds, host, gets[g := Missed(since, key)], g);
      if client.None? {
        ls := FailsUnbuilt(s, g, key.context);
        return None, ls;
      }
      if answer.None? {
        ls := FailsUnanswered(s, g, key.context, host);
        return None, ls;
      }
      var filed := Finish(key, client.value, answer.value, gets, g, since);
      r := Some(filed);
      ls := Stores(s, g, key.context, host, answer.value);
    }

    /** Files what a client answered. */
    method Finish(
      key: Key, client: Client, payload: string, ghost gets: map<nat, Generations.Get>, ghost g: nat, ghost since: nat)
      returns (c: Catalogue)
      requires Valid() && since <= key.generation <= client.generation && Genuine(Whole(gets), client, key.context)
      modifies `cache
      ensures Valid() && c == Catalogue(client, payload) && cache == old(cache)[key := c]
    {
      c := Catalogue(client, payload);
      File(key, c, gets[g := Fetched(since, key, c)], g);
    }
  }

  /** Exactly the sources of this identifier are gone. */
  ghost predicate Drops(sources: seq<Source>, sources': seq<Source>, idOf: string -> string, id: string) {
    forall x :: x in sources' <==> x in sources && idOf(x.path) != id
  }

  lemma DropsExactly(sources: seq<Source>, idOf: string -> string, id: string, gone: set<string>)
    requires gone == set i | 0 <= i < |sources| && idOf(sources[i].path) == id :: sources[i].path
    ensures Drops(sources, Without(sources, gone), idOf, id)
  {
    WithoutKeeps(sources, gone);
    forall x | x in sources ensures x.path in gone <==> idOf(x.path) == id {
      var i :| 0 <= i < |sources| && sources[i] == x;
    }
  }

  lemma Removable(s: State, gone: set<string>, k: nat)
    requires |s.registries| > 0 && k < |Current(s)| && Current(s)[k].path in gone
    ensures Enabled(s, Remove(gone))
  {
    var sources := Current(s);
    assert 0 <= k < |sources| && sources[k].path in gone;
  }

  // ----- A Get, as runs of the machine -----

  function Outcome(since: nat, name: string, r: Option<Catalogue>): Generations.Get {
    if r.Some? then Returned(since, name, r.value) else Failed
  }

  lemma Then(s0: State, s: State, ls: seq<Label>, l: Label) returns (r: seq<Label>, t: State)
    requires Run(s0, ls) == Some(s) && Enabled(s, l)
    ensures Run(s0, r) == Some(t) && t == Step(s, l)
  {
    assert (ls + [l])[..|ls|] == ls;
    r, t := ls + [l], Step(s, l);
  }

  /** A Get that knows its key. */
  lemma Keys(s: State, g: nat, name: string) returns (ls: seq<Label>, t: State)
    requires |s.registries| > 0 && g !in s.gets
    ensures Run(s, ls) == Some(t) && t == Goto(s, g, Keyed(Generation(s), Key(name, Generation(s))))
  {
    ls, t := Then(s, s, [], Begin(g));
    ls, t := Then(s, t, ls, Name(g, name));
    ls, t := Then(s, t, ls, ReadKey(g));
    assert t.gets == s.gets[g := t.gets[g]];
  }

  lemma Hits(s: State, g: nat, name: string) returns (ls: seq<Label>)
    requires |s.registries| > 0 && g !in s.gets && Key(name, Generation(s)) in s.cache
    ensures Run(s, ls) == Some(Goto(s, g, Returned(Generation(s), name, s.cache[Key(name, Generation(s))])))
  {
    var t: State;
    ls, t := Keys(s, g, name);
    ls, t := Then(s, t, ls, Hit(g));
    assert t.gets == s.gets[g := t.gets[g]];
  }

  lemma FailsUnbuilt(s: State, g: nat, name: string) returns (ls: seq<Label>)
    requires |s.registries| > 0 && g !in s.gets
    ensures Run(s, ls) == Some(Goto(s, g, Failed))
  {
    var t: State;
    ls, t := Keys(s, g, name);
    ls, t := Then(s, t, ls, Fail(g));
    assert t.gets == s.gets[g := Failed];
  }

  lemma MissesKey(s: State, g: nat, name: string) returns (ls: seq<Label>, t: State)
    requires |s.registries| > 0 && g !in s.gets
    ensures Run(s, ls) == Some(t) && t == Goto(s, g, Missed(Generation(s), Key(name, Generation(s))))
  {
    ls, t := Keys(s, g, name);
    ls, t := Then(s, t, ls, Miss(g));
    assert t.gets == s.gets[g := t.gets[g]];
  }

  /** A Get that has its client, cached or built. */
  lemma Obtains(s: State, g: nat, name: string, host: string) returns (ls: seq<Label>, t: State)
    requires |s.registries| > 0 && g !in s.gets
    ensures Run(s, ls) == Some(t)
    ensures t == Goto(s, g, Holding(Generation(s), Key(name, Generation(s)), Built(s, name, host)))
                 .(clients := s.clients[name := Built(s, name, host)])
  {
    ls, t := MissesKey(s, g, name);
    ls, t := Then(s, t, ls, Obtain(g, host));
    assert t.gets == s.gets[g := t.gets[g]];
  }

  lemma FailsUnanswered(s: State, g: nat, name: string, host: string) returns (ls: seq<Label>)
    requires |s.registries| > 0 && g !in s.gets
    ensures Run(s, ls) == Some(Goto(s, g, Failed).(clients := s.clients[name := Built(s, name, host)]))
  {
    var t: State;
    ls, t := Obtains(s, g, name, host);
    ls, t := Then(s, t, ls, Fail(g));
    assert t.gets == s.gets[g := Failed];
  }

  lemma Stores(s: State, g: nat, name: string, host: string, payload: string) returns (ls: seq<Label>)
    requires |s.registries| > 0 && g !in s.gets
    ensures var c := Catalogue(Built(s, name, host), payload); var key := Key(name, Generation(s));
            Run(s, ls) == Some(Goto(s, g, Returned(Generation(s), name, c))
                               .(clients := s.clients[name := c.client], cache := s.cache[key := c]))
  {
    var t: State;
    ls, t := Obtains(s, g, name, host);
    ls, t := Then(s, t, ls, Fetch(g, payload));
    ls, t := Then(s, t, ls, Store(g));
    assert t.gets == s.gets[g := t.gets[g]];
  }
}
