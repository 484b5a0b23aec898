/** The hub as it runs: a map of shared informers, taken and released under its lock. Each
    of its methods changes what the map holds as a run of the hub's machine does. */
module HubObject {
  import opened Optional
  import opened SharedInformer
  import opened InformerObject
  import H = Hub

  type Key = H.Key

  /** What the hub holds under one key. */
  datatype Entry = Entry(informer: Informer, refs: nat)

  /** A client's handle: its informer and its own number. */
  datatype Handle = Handle(si: SharedGvrInformer, sub: nat)

  function Attached(s: Informer, sub: nat): Informer
    requires sub !in s.subs
  {
    Step(Step(s, Backoff(0, 0), Add(sub)), Backoff(0, 0), Start)
  }

  function Detached(s: Informer, sub: nat): Informer {
    Step(s, Backoff(0, 0), Drop(sub))
  }

  function Found(entries: map<Key, Entry>, key: Key): Entry {
    if key in entries then entries[key] else Entry(NEW, 0)
  }

  function Subscribed(entries: map<Key, Entry>, key: Key, sub: nat): map<Key, Entry>
    requires sub !in Found(entries, key).informer.subs
  {
    entries[key := Entry(Attached(Found(entries, key).informer, sub), Found(entries, key).refs + 1)]
  }

  function Left(entries: map<Key, Entry>, key: Key, sub: nat): map<Key, Entry>
    requires key in entries && entries[key].refs > 0
  {
    if entries[key].refs == 1 then entries - {key}
    else entries[key := Entry(Detached(entries[key].informer, sub), entries[key].refs - 1)]
  }

  /** It runs, is not stopped, and is referenced once per subscriber it carries. */
  ghost predicate Live(e: Entry, nextSub: nat) {
    && e.informer.started && !e.informer.stopped && e.informer.epoch !in e.informer.closed
    && e.refs == |e.informer.subs.Keys| && e.refs > 0 && forall sub :: sub in e.informer.subs ==> sub < nextSub
  }

  ghost predicate AllLive(entries: map<Key, Entry>, nextSub: nat) {
    forall key :: key in entries ==> Live(entries[key], nextSub)
  }

  lemma SubscribedLive(entries: map<Key, Entry>, key: Key, sub: nat)
    requires AllLive(entries, sub)
    ensures sub !in Found(entries, key).informer.subs && AllLive(Subscribed(entries, key, sub), sub + 1)
  {
    var e := Found(entries, key);
    assert Attached(e.informer, sub).subs.Keys == e.informer.subs.Keys + {sub};
  }

  lemma LeftLive(entries: map<Key, Entry>, key: Key, sub: nat, nextSub: nat)
    requires AllLive(entries, nextSub) && key in entries && sub in entries[key].informer.subs
    ensures entries[key].refs > 0 && AllLive(Left(entries, key, sub), nextSub)
  {
    var e := entries[key];
    assert Detached(e.informer, sub).subs.Keys == e.informer.subs.Keys - {sub};
  }

  /** `to` holds `e` under `key`, and otherwise what `from` does. */
  ghost predicate Differs(from: map<Key, Entry>, to: map<Key, Entry>, key: Key, e: Entry) {
    && to.Keys == from.Keys + {key} && to[key] == e
    && forall k :: k in from && k != key ==> to[k] == from[k]
  }

  lemma DiffersIsPut(from: map<Key, Entry>, to: map<Key, Entry>, key: Key, e: Entry)
    requires Differs(from, to, key, e)
    ensures to == from[key := e]
  {
  }

  class WatchHub {
    var informers: map<Key, SharedGvrInformer>
    var nextSub: nat

    ghost function Entries(): map<Key, Entry>
      reads `informers, informers.Values
    {
      map k | k in informers :: Entry(informers[k].State(), informers[k].refs)
    }

    ghost predicate Distinct()
      reads `informers
    {
      forall k, j :: k in informers && j in informers && k != j ==> informers[k] != informers[j]
    }

    /** Every listed informer is live, and none is listed twice. */
    ghost predicate Valid()
      reads this, informers.Values
    {
      AllLive(Entries(), nextSub) && Distinct()
    }

    constructor ()
      ensures Valid() && informers == map[] && Entries() == map[]
    {
      informers, nextSub := map[], 0;
    }

    /** Where only the informer under `key` has changed, only its entry has. */
    twostate lemma Replaced(key: Key)
      requires key in informers && informers == old(informers)[key := informers[key]]
      requires forall k :: k in old(informers) && k != key ==> unchanged(informers[k])
      ensures Entries() == old(Entries())[key := Entry(informers[key].State(), informers[key].refs)]
    {
      forall k | k in old(informers) && k != key ensures Entries()[k] == old(Entries())[k] {
        assert informers[k] == old(informers)[k] && unchanged(informers[k]);
      }
      DiffersIsPut(old(Entries()), Entries(), key, Entry(informers[key].State(), informers[key].refs));
    }

    /** Where only the informer under `key` has gone, so has its entry. */
    twostate lemma Removed(key: Key)
      requires informers == old(informers) - {key}
      requires forall k :: k in informers ==> unchanged(informers[k])
      ensures Entries() == old(Entries()) - {key}
    {
      forall k | k in informers ensures Entries()[k] == old(Entries())[k] {
        assert informers[k] == old(informers)[k] && unchanged(informers[k]);
      }
    }

    /** Registers a new subscriber on the informer listed under `key`. */
    method Share(key: Key) returns (sub: nat)
      requires Distinct() && key in informers && nextSub !in informers[key].subs
      modifies `nextSub, informers[key]
      ensures Distinct() && sub == old(nextSub) == nextSub - 1
      ensures sub !in Found(old(Entries()), key).informer.subs && Entries() == Subscribed(old(Entries()), key, sub)
    {
      sub := nextSub;
      nextSub := nextSub + 1;
      Take(informers[key], sub);
      Replaced(key);
    }

    /** Lists a new informer under `key`, with its first subscriber. */
    method Open(key: Key) returns (sub: nat)
      requires Distinct() && key !in informers
      modifies this
      ensures Distinct() && key in informers && fresh(informers[key]) && informers == old(informers)[key := informers[key]]
      ensures sub == old(nextSub) == nextSub - 1 && Entries() == Subscribed(old(Entries()), key, sub)
    {
      sub := nextSub;
      nextSub := nextSub + 1;
      var si := new SharedGvrInformer();
      List(key, si, sub);
    }

    /** Puts an informer nobody else holds under its key. */
    method List(key: Key, si: SharedGvrInformer, sub: nat)
      requires Distinct() && key !in informers && (forall k :: k in informers ==> informers[k] != si) && sub !in si.subs
      modifies `informers, si
      ensures Distinct() && informers == old(informers)[key := si]
      ensures Entries() == old(Entries())[key := Entry(Attached(old(si.State()), sub), old(si.refs) + 1)]
    {
      Take(si, sub);
      informers := informers[key := si];
      Replaced(key);
    }

    /** Takes the informer of `key`, creating it on first use when a client can be built,
        and registers a subscriber. */
    method Subscribe(key: Key, builds: bool) returns (r: Option<Handle>)
      requires Valid()
      modifies this, if key in informers then {informers[key]} else {}
      ensures Valid() && r.Some? == (key in old(informers) || builds)
      ensures r.None? ==> informers == old(informers) && nextSub == old(nextSub) && Entries() == old(Entries())
      ensures r.Some? ==> key in informers && informers == old(informers)[key := r.value.si]
      ensures r.Some? && key !in old(informers) ==> fresh(r.value.si)
      ensures r.Some? ==> r.value.sub == old(nextSub) == nextSub - 1 && r.value.sub !in Found(old(Entries()), key).informer.subs
                          && Entries() == Subscribed(old(Entries()), key, r.value.sub)
    {
      SubscribedLive(Entries(), key, nextSub);
      if key !in informers && !builds { return None; }
      var sub := Enter(key);
      return Some(Handle(informers[key], sub));
    }

    /** The informer of `key`, found or created, gains a subscriber. */
    method Enter(key: Key) returns (sub: nat)
      requires Distinct() && nextSub !in Found(Entries(), key).informer.subs
      modifies this, if key in informers then {informers[key]} else {}
      ensures Distinct() && key in informers && informers == old(informers)[key := informers[key]]
      ensures key !in old(informers) ==> fresh(informers[key])
      ensures sub == old(nextSub) == nextSub - 1 && Entries() == Subscribed(old(Entries()), key, sub)
    {
      if key in informers {
        assert Found(Entries(), key) == Entry(informers[key].State(), informers[key].refs);
        sub := Share(key);
        assert informers == informers[key := informers[key]];
      } else {
        sub := Open(key);
      }
    }

    static method Take(si: SharedGvrInformer, sub: nat)
      requires sub !in si.subs
      modifies si`subs, si`refs, si`started, si`running
      ensures si.State() == Attached(old(si.State()), sub) && si.refs == old(si.refs) + 1
    {
      var _ := si.AddSubscriber(sub);
      si.refs := si.refs + 1;
      si.EnsureStarted();
    }

    /** Releases one reference; true when it was the last. */
    static method Leave(si: SharedGvrInformer, sub: nat) returns (last: bool)
      requires si.refs > 0
      modifies si`subs, si`refs, si`stopped, si`closed, si`panicked
      ensures si.refs == old(si.refs) - 1 && last == (si.refs == 0)
      ensures si.State() == if last then Stopped(Detached(old(si.State()), sub)) else Detached(old(si.State()), sub)
    {
      var _, _ := si.RemoveSubscriber(sub);
      si.refs := si.refs - 1;
      last := si.refs == 0;
      if last { si.Stop(); }
    }

    /** Releases a subscriber under the hub's lock; an informer nobody refers to goes. */
    method Release(key: Key, si: SharedGvrInformer, sub: nat)
      requires Distinct() && key in informers && informers[key] == si && si.refs > 0
      modifies `informers, si
      ensures Distinct() && si.refs == old(si.refs) - 1
      ensures si.State() == if si.refs == 0 then Stopped(Detached(old(si.State()), sub)) else Detached(old(si.State()), sub)
      ensures informers == if si.refs == 0 then old(informers) - {key} else old(informers)
      ensures Entries() == Left(old(Entries()), key, sub)
    {
      var last := Leave(si, sub);
      if last {
        if key in informers && informers[key] == si { informers := informers - {key}; }
        Removed(key);
      } else {
        assert informers == informers[key := si];
        Replaced(key);
      }
    }

    /** Releases a subscriber; the last one stops the informer and forgets it. */
    method Close(key: Key, si: SharedGvrInformer, sub: nat)
      requires Valid() && key in informers && informers[key] == si && sub in si.subs
      modifies `informers, si
      ensures Valid() && si.refs == old(si.refs) - 1 && si.panicked == old(si.panicked)
      ensures si.State() == if si.refs == 0 then Stopped(Detached(old(si.State()), sub)) else Detached(old(si.State()), sub)
      ensures informers == if si.refs == 0 then old(informers) - {key} else old(informers)
      ensures key in old(Entries()) && old(Entries())[key].refs > 0 && Entries() == Left(old(Entries()), key, sub)
    {
      ghost var e := Entry(si.State(), si.refs);
      assert Entries()[key] == e && Live(e, nextSub);
      LeftLive(Entries(), key, sub, nextSub);
      Release(key, si, sub);
    }
  }

  // ----- The hub's calls, as runs of the machine -----

  /** The machine's state, with the lock free, holds under each key what the hub does. */
  ghost predicate Mirrors(entries: map<Key, Entry>, nextSub: nat, h: H.State) {
    && h.holder.Free? && h.current.Keys == entries.Keys
    && (forall key :: key in entries ==> Holds(entries[key], h, key))
    && (forall sub :: sub in h.subs ==> sub < nextSub)
  }

  ghost predicate Holds(e: Entry, h: H.State, key: Key) {
    key in h.current && Carries(e, h, key, h.current[key])
  }

  ghost predicate Carries(e: Entry, h: H.State, key: Key, id: nat) {
    && H.Known(h, id) && h.keyOf[id] == key && h.informers[id] == e.informer && h.refs[id] == e.refs
    && forall sub :: sub in e.informer.subs ==> sub in h.subs && h.subs[sub] == H.Subscription(id, H.Open)
  }

  lemma Then(h0: H.State, h: H.State, b: Backoff, ls: seq<H.Label>, l: H.Label) returns (r: seq<H.Label>, t: H.State)
    requires H.Run(h0, b, ls) == Some(h) && H.Enabled(h, l)
    ensures H.Run(h0, b, r) == Some(t) && t == H.Step(h, b, l)
  {
    assert (ls + [l])[..|ls|] == ls;
    r, t := ls + [l], H.Step(h, b, l);
  }

  /** A number above all of these. */
  lemma {:induction false} Above(numbers: set<nat>) returns (n: nat)
    ensures forall k :: k in numbers ==> k < n
  {
    if numbers == {} {
      n := 0;
    } else {
      var x :| x in numbers;
      n := Above(numbers - {x});
      if n <= x { n := x + 1; }
      assert forall k :: k in numbers ==> k == x || k in numbers - {x};
    }
  }

  /** Nothing but one informer, and the subscription it gained or lost, is touched. */
  ghost predicate Only(h: H.State, t: H.State, id: nat, sub: nat) {
    && (forall i :: H.Known(h, i) && i != id ==>
          H.Known(t, i) && t.keyOf[i] == h.keyOf[i] && t.informers[i] == h.informers[i] && t.refs[i] == h.refs[i])
    && (forall x :: x in h.subs && x != sub ==> x in t.subs && t.subs[x] == h.subs[x])
  }

  lemma Elsewhere(e: Entry, h: H.State, t: H.State, id: nat, sub: nat, key: Key)
    requires Holds(e, h, key) && Only(h, t, id, sub) && h.current[key] != id && key in t.current && t.current[key] == h.current[key]
    requires sub in h.subs ==> h.subs[sub].informer == id
    ensures Holds(e, t, key)
  {
    assert Carries(e, t, key, h.current[key]);
  }

  lemma OnlyTwice(h: H.State, u: H.State, t: H.State, id: nat, sub: nat)
    requires Only(h, u, id, sub) && Only(u, t, id, sub)
    ensures Only(h, t, id, sub)
  {
  }

  /** Looking the key up finds its informer or lists a new one. */
  lemma LooksUp(h: H.State, b: Backoff, key: Key, sub: nat) returns (ls: seq<H.Label>, t: H.State, id: nat)
    requires h.holder.Free? && sub !in h.subs && (key in h.current ==> H.Known(h, h.current[key]) && h.keyOf[h.current[key]] == key)
    ensures H.Run(h, b, ls) == Some(t) && t.holder == H.Attaching(id, sub) && t.subs == h.subs && t.current == h.current[key := id]
    ensures H.Known(t, id) && t.keyOf[id] == key && Only(h, t, id, sub)
    ensures if key in h.current then id == h.current[key] && t.informers[id] == h.informers[id] && t.refs[id] == h.refs[id]
            else id !in h.informers && t.informers[id] == NEW && t.refs[id] == 0
  {
    id := Above(h.informers.Keys);
    ls, t := Then(h, h, b, [], H.Lookup(key, id, sub));
    if key in h.current { id := h.current[key]; }
  }

  /** The new subscriber is attached and counted, and its informer started. */
  lemma Joins(h: H.State, b: Backoff, id: nat, sub: nat) returns (ls: seq<H.Label>, t: H.State)
    requires h.holder == H.Attaching(id, sub) && H.Known(h, id) && sub !in h.informers[id].subs
    ensures H.Run(h, b, ls) == Some(t) && t.holder.Free? && t.current == h.current && Only(h, t, id, sub)
    ensures H.Known(t, id) && t.keyOf[id] == h.keyOf[id] && t.refs[id] == h.refs[id] + 1
    ensures t.informers[id] == Attached(h.informers[id], sub)
    ensures t.subs == h.subs[sub := H.Subscription(id, H.Open)]
  {
    ls, t := Counts(h, b, id, sub);
    var u := t;
    ls, t := Then(h, u, b, ls, H.Launch);
    OnlyTwice(h, u, t, id, sub);
  }

  lemma Counts(h: H.State, b: Backoff, id: nat, sub: nat) returns (ls: seq<H.Label>, t: H.State)
    requires h.holder == H.Attaching(id, sub) && H.Known(h, id) && sub !in h.informers[id].subs
    ensures H.Run(h, b, ls) == Some(t) && t.holder == H.Launching(id) && t.current == h.current && Only(h, t, id, sub)
    ensures H.Known(t, id) && t.keyOf[id] == h.keyOf[id] && t.refs[id] == h.refs[id] + 1
    ensures t.informers[id] == Step(h.informers[id], Backoff(0, 0), Add(sub))
    ensures t.subs == h.subs[sub := H.Subscription(id, H.Open)]
  {
    ls, t := Then(h, h, b, [], H.Attach);
    ls, t := Then(h, t, b, ls, H.Count);
  }

  lemma Joined(h: H.State, u: H.State, t: H.State, b: Backoff, ls: seq<H.Label>, more: seq<H.Label>) returns (r: seq<H.Label>)
    requires H.Run(h, b, ls) == Some(u) && H.Run(u, b, more) == Some(t)
    ensures H.Run(h, b, r) == Some(t)
    decreases |more|
  {
    if more == [] {
      r := ls;
    } else {
      var mid := H.Run(u, b, more[..|more| - 1]).value;
      r := Joined(h, u, mid, b, ls, more[..|more| - 1]);
      var last;
      r, last := Then(h, mid, b, r, more[|more| - 1]);
    }
  }

  /** A subscription, from the lookup to the launch, is a run of the machine. */
  lemma SubscribeIsARun(entries: map<Key, Entry>, n: nat, h: H.State, b: Backoff, key: Key) returns (ls: seq<H.Label>, t: H.State)
    requires Mirrors(entries, n, h) && n !in Found(entries, key).informer.subs
    ensures H.Run(h, b, ls) == Some(t) && Mirrors(Subscribed(entries, key, n), n + 1, t)
  {
    var u, id, more;
    assert key in entries ==> Holds(entries[key], h, key);
    ls, u, id := LooksUp(h, b, key, n);
    more, t := Joins(u, b, id, n);
    ls := Joined(h, u, t, b, ls, more);
    OnlyTwice(h, u, t, id, n);
    SubscribedHolds(entries, n, h, t, id, key);
  }

  lemma SubscribedHolds(entries: map<Key, Entry>, n: nat, h: H.State, t: H.State, id: nat, key: Key)
    requires Mirrors(entries, n, h) && n !in Found(entries, key).informer.subs && Only(h, t, id, n) && t.holder.Free?
    requires t.current == h.current[key := id] && H.Known(t, id) && t.keyOf[id] == key
    requires if key in entries then id == h.current[key] else !H.Known(h, id)
    requires t.informers[id] == Attached(Found(entries, key).informer, n) && t.refs[id] == Found(entries, key).refs + 1
    requires t.subs == h.subs[n := H.Subscription(id, H.Open)]
    ensures Mirrors(Subscribed(entries, key, n), n + 1, t)
  {
    var after := Subscribed(entries, key, n);
    forall k | k in after ensures Holds(after[k], t, k) {
      if k == key {
        assert k in entries ==> Holds(entries[k], h, k);
        assert Carries(after[k], t, k, id);
      } else {
        assert Holds(entries[k], h, k) && (key in entries ==> Holds(entries[key], h, key));
        Elsewhere(entries[k], h, t, id, n, k);
      }
    }
  }

  /** A subscriber detaches and its reference is dropped. */
  lemma Drops(h: H.State, b: Backoff, id: nat, sub: nat) returns (ls: seq<H.Label>, t: H.State)
    requires h.holder.Free? && H.Known(h, id) && h.refs[id] > 0 && sub in h.subs && h.subs[sub] == H.Subscription(id, H.Open)
    ensures H.Run(h, b, ls) == Some(t) && t.current == h.current && Only(h, t, id, sub)
    ensures t.holder == if h.refs[id] == 1 then H.Halting(id) else H.Free
    ensures H.Known(t, id) && t.keyOf[id] == h.keyOf[id] && t.refs[id] == h.refs[id] - 1
    ensures t.informers[id] == Detached(h.informers[id], sub) && t.subs.Keys == h.subs.Keys
  {
    ls, t := Then(h, h, b, [], H.Detach(sub));
    ls, t := Then(h, t, b, ls, H.Release(sub));
  }

  /** The last release stops the informer and forgets it. */
  lemma Forgets(h: H.State, b: Backoff, id: nat, sub: nat) returns (ls: seq<H.Label>, t: H.State)
    requires h.holder == H.Halting(id) && H.Known(h, id) && h.keyOf[id] in h.current && h.current[h.keyOf[id]] == id
    ensures H.Run(h, b, ls) == Some(t) && t.holder.Free? && t.current == h.current - {h.keyOf[id]} && Only(h, t, id, sub)
    ensures t.subs == h.subs && H.Known(t, id) && t.informers[id] == Stopped(h.informers[id])
  {
    ls, t := Then(h, h, b, [], H.Halt);
    ls, t := Then(h, t, b, ls, H.Forget);
  }

  /** A close, with the teardown when it is the last, is a run of the machine. */
  lemma CloseIsARun(entries: map<Key, Entry>, n: nat, h: H.State, b: Backoff, key: Key, sub: nat) returns (ls: seq<H.Label>, t: H.State)
    requires Mirrors(entries, n, h) && key in entries && entries[key].refs > 0 && sub in entries[key].informer.subs
    ensures H.Run(h, b, ls) == Some(t) && Mirrors(Left(entries, key, sub), n, t)
  {
    var id := h.current[key];
    assert Holds(entries[key], h, key);
    ls, t := Drops(h, b, id, sub);
    if entries[key].refs == 1 {
      var u, more := t, [];
      more, t := Forgets(u, b, id, sub);
      ls := Joined(h, u, t, b, ls, more);
      OnlyTwice(h, u, t, id, sub);
    }
    var after := Left(entries, key, sub);
    forall k | k in after ensures Holds(after[k], t, k) {
      assert Holds(entries[k], h, k);
      if k == key {
        assert Carries(after[k], t, k, id);
      } else {
        Elsewhere(entries[k], h, t, id, sub, k);
      }
    }
  }
}
