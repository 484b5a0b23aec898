/** The watch hub: one shared informer per key, counted by its subscriptions. A label is
    one critical section; while the hub's own lock is held across several, `holder` says
    how far its owner has got, and everything that does not need that lock interleaves. */
module Hub {
  import opened Optional
  import I = SharedInformer

  datatype Key = Key(context: string, generation: nat, resource: string)

  datatype Phase = Open | Detached | Released

  datatype Subscription = Subscription(informer: nat, phase: Phase)

  /** Subscribe attaches, counts and launches; Close halts and forgets. */
  datatype Holder =
    | Free
    | Attaching(id: nat, sub: nat) | Counting(id: nat, sub: nat) | Launching(id: nat)
    | Halting(id: nat) | Forgetting(id: nat)

  datatype State = State(
    current: map<Key, nat>, informers: map<nat, I.Informer>, keyOf: map<nat, Key>, refs: map<nat, nat>,
    subs: map<nat, Subscription>, holder: Holder)

  const EMPTY := State(map[], map[], map[], map[], map[], Free)

  datatype Label =
    | Lookup(key: Key, id: nat, sub: nat) | Attach | Count | Launch
    | Detach(sub: nat) | Release(sub: nat) | Halt | Forget
    | Inner(informer: nat, step: I.Label)

  /** Watch errors, probes and the prober's own steps take only the informer's lock. */
  predicate Own(l: I.Label) {
    l.MarkUnreachable? || l.Spawn? || I.OfProber(l)
  }

  /** The owner of the hub's lock stands where the maps have what it needs. */
  predicate Known(h: State, id: nat) {
    id in h.informers && id in h.refs && id in h.keyOf
  }

  predicate Enabled(h: State, l: Label) {
    match l
    case Lookup(key, id, sub) => h.holder.Free? && (key in h.current || id !in h.informers) && sub !in h.subs
    case Attach => h.holder.Attaching? && Known(h, h.holder.id) && h.holder.sub !in h.informers[h.holder.id].subs
    case Count => h.holder.Counting? && Known(h, h.holder.id)
    case Launch => h.holder.Launching? && Known(h, h.holder.id)
    case Detach(sub) => sub in h.subs && h.subs[sub].phase == Open && Known(h, h.subs[sub].informer)
    case Release(sub) =>
      h.holder.Free? && sub in h.subs && h.subs[sub].phase == Detached && Known(h, h.subs[sub].informer)
      && h.refs[h.subs[sub].informer] > 0
    case Halt => h.holder.Halting? && Known(h, h.holder.id)
    case Forget => h.holder.Forgetting? && Known(h, h.holder.id)
    case Inner(id, step) => id in h.informers && Own(step) && I.Enabled(h.informers[id], step)
  }

  function On(h: State, b: I.Backoff, id: nat, l: I.Label): State
    requires id in h.informers && I.Enabled(h.informers[id], l)
  {
    h.(informers := h.informers[id := I.Step(h.informers[id], b, l)])
  }

  function LookedUp(h: State, key: Key, id: nat, sub: nat): State {
    if key in h.current then h.(holder := Attaching(h.current[key], sub))
    else h.(current := h.current[key := id], informers := h.informers[id := I.NEW], keyOf := h.keyOf[id := key],
            refs := h.refs[id := 0], holder := Attaching(id, sub))
  }

  function Dropped(h: State, sub: nat): State
    requires sub in h.subs && h.subs[sub].informer in h.refs && h.refs[h.subs[sub].informer] > 0
  {
    var id := h.subs[sub].informer;
    h.(refs := h.refs[id := h.refs[id] - 1], subs := h.subs[sub := Subscription(id, Released)],
       holder := if h.refs[id] == 1 then Halting(id) else Free)
  }

  function Forgotten(h: State, id: nat): State
    requires id in h.keyOf
  {
    var key := h.keyOf[id];
    h.(current := if key in h.current && h.current[key] == id then h.current - {key} else h.current, holder := Free)
  }

  function Step(h: State, b: I.Backoff, l: Label): State
    requires Enabled(h, l)
  {
    match l
    case Lookup(key, id, sub) => LookedUp(h, key, id, sub)
    case Attach => On(h, b, h.holder.id, I.Add(h.holder.sub)).(holder := Counting(h.holder.id, h.holder.sub))
    case Count =>
      h.(refs := h.refs[h.holder.id := h.refs[h.holder.id] + 1],
         subs := h.subs[h.holder.sub := Subscription(h.holder.id, Open)], holder := Launching(h.holder.id))
    case Launch => On(h, b, h.holder.id, I.Start).(holder := Free)
    case Detach(sub) =>
      On(h, b, h.subs[sub].informer, I.Drop(sub)).(subs := h.subs[sub := Subscription(h.subs[sub].informer, Detached)])
    case Release(sub) => Dropped(h, sub)
    case Halt => On(h, b, h.holder.id, I.Stop).(holder := Forgetting(h.holder.id))
    case Forget => Forgotten(h, h.holder.id)
    case Inner(id, step) => On(h, b, id, step)
  }

  // ----- The invariant -----

  function Unreleased(subs: map<nat, Subscription>, id: nat): set<nat> {
    set s | s in subs && subs[s].informer == id && subs[s].phase != Released
  }

  /** The three maps over informers go together, and every subscription has its informer. */
  ghost predicate Wired(h: State) {
    && h.informers.Keys == h.keyOf.Keys == h.refs.Keys
    && (forall key :: key in h.current ==> h.current[key] in h.informers && h.keyOf[h.current[key]] == key)
    && (forall s :: s in h.subs ==> h.subs[s].informer in h.informers)
    && (!h.holder.Free? ==> h.holder.id in h.informers)
    && (h.holder.Attaching? || h.holder.Counting? ==> h.holder.sub !in h.subs)
  }

  ghost predicate Counted(h: State) {
    forall id :: id in h.refs ==> h.refs[id] == |Unreleased(h.subs, id)|
  }

  predicate Listed(h: State, id: nat) {
    id in h.keyOf && h.keyOf[id] in h.current && h.current[h.keyOf[id]] == id
  }

  /** Listed, referenced and not stopped coincide, but for the informer the holder of the
      lock is bringing up or taking down. */
  ghost predicate InStep(h: State, id: nat) {
    id in h.informers && id in h.refs ==> Agrees(h.holder, id, Listed(h, id), h.informers[id].stopped, h.refs[id])
  }

  predicate Agrees(holder: Holder, id: nat, listed: bool, stopped: bool, n: nat) {
    if holder.Free? || holder.id != id then listed == !stopped == (n > 0)
    else
      match holder
      case Attaching(_, _) => listed && !stopped
      case Counting(_, _) => listed && !stopped
      case Launching(_) => listed && !stopped && n > 0
      case Halting(_) => listed && !stopped && n == 0
      case Forgetting(_) => listed && stopped && n == 0
      case Free => true
  }

  /** A subscriber is registered exactly while its subscription is open, or about to be. */
  ghost predicate RegisteredRight(h: State, id: nat, s: nat) {
    id in h.informers ==>
      (s in h.informers[id].subs <==>
         (s in h.subs && h.subs[s] == Subscription(id, Open)) || h.holder == Counting(id, s))
  }

  ghost predicate Registered(h: State) {
    forall id, s :: RegisteredRight(h, id, s)
  }

  /** A referenced informer has been started, save the one being launched. */
  ghost predicate Started(h: State) {
    forall id :: id in h.informers && id in h.refs && h.refs[id] > 0 && h.holder != Launching(id) ==> h.informers[id].started
  }

  ghost predicate Sound(h: State, b: I.Backoff) {
    forall id :: id in h.informers ==> I.Inv(h.informers[id], b)
  }

  ghost predicate Inv(h: State, b: I.Backoff) {
    && Wired(h) && Counted(h) && (forall id :: id in h.informers ==> InStep(h, id))
    && Registered(h) && Started(h) && Sound(h, b)
  }

  lemma StepWired(h: State, b: I.Backoff, l: Label)
    requires Wired(h) && Enabled(h, l)
    ensures Wired(Step(h, b, l))
  {
  }

  lemma UnreleasedPut(subs: map<nat, Subscription>, sub: nat, to: Subscription, id: nat)
    ensures Unreleased(subs[sub := to], id) ==
            if to.informer == id && to.phase != Released then Unreleased(subs, id) + {sub} else Unreleased(subs, id) - {sub}
  {
  }

  // ----- What a step does to one informer -----

  /** What can be told of an informer from outside. */
  datatype View = View(stopped: bool, started: bool, subs: set<nat>)

  function Seen(s: I.Informer): View {
    View(s.stopped, s.started, s.subs.Keys)
  }

  lemma RebuildLeaves(s: I.Informer, b: I.Backoff, l: I.Label)
    requires l.Rebuild? && I.Enabled(s, l)
    ensures Seen(I.Step(s, b, l)) == Seen(s)
  {
    assert I.Rebuilt(s).subs.Keys == s.subs.Keys;
  }

  lemma OutageLeaves(s: I.Informer, b: I.Backoff, l: I.Label)
    requires (l.MarkUnreachable? || l.Recover?) && I.Enabled(s, l)
    ensures Seen(I.Step(s, b, l)) == Seen(s)
  {
  }

  lemma ProberLeaves(s: I.Informer, b: I.Backoff, l: I.Label)
    requires (l.Spawn? || l.SeeStop? || l.Fire? || l.Fail? || l.Answer? || l.Exit?) && I.Enabled(s, l)
    ensures Seen(I.Step(s, b, l)) == Seen(s)
  {
  }

  lemma OwnLeaves(s: I.Informer, b: I.Backoff, l: I.Label)
    requires Own(l) && I.Enabled(s, l)
    ensures Seen(I.Step(s, b, l)) == Seen(s)
  {
    if l.Rebuild? { RebuildLeaves(s, b, l); }
    else if l.MarkUnreachable? || l.Recover? { OutageLeaves(s, b, l); }
    else { ProberLeaves(s, b, l); }
  }

  predicate Acts(h: State, l: Label, id: nat) {
    (l.Attach? || l.Launch? || l.Halt?) && !h.holder.Free? && h.holder.id == id
  }

  predicate Detaches(h: State, l: Label, id: nat) {
    l.Detach? && l.sub in h.subs && h.subs[l.sub].informer == id
  }

  /** What a step makes of one informer, seen from outside. */
  function Moved(h: State, l: Label, id: nat, v: View): View {
    if Acts(h, l, id) then
      match l
      case Attach => if h.holder.Attaching? then v.(subs := v.subs + {h.holder.sub}) else v
      case Launch => v.(started := true)
      case _ => v.(stopped := true)
    else if Detaches(h, l, id) then v.(subs := v.subs - {l.sub}) else v
  }

  lemma InnerMoves(h: State, b: I.Backoff, l: Label, id: nat)
    requires Enabled(h, l) && l.Inner? && id in h.informers
    ensures id in Step(h, b, l).informers && Seen(Step(h, b, l).informers[id]) == Seen(h.informers[id])
  {
    if l.informer == id { OwnLeaves(h.informers[id], b, l.step); }
  }

  lemma AttachMoves(h: State, b: I.Backoff, l: Label, id: nat)
    requires Enabled(h, l) && l.Attach? && id in h.informers
    ensures id in Step(h, b, l).informers && Seen(Step(h, b, l).informers[id]) == Moved(h, l, id, Seen(h.informers[id]))
  {
    if h.holder.id == id {
      assert Seen(I.Step(h.informers[id], b, I.Add(h.holder.sub))).subs == h.informers[id].subs.Keys + {h.holder.sub};
    }
  }

  lemma UpOrDownMoves(h: State, b: I.Backoff, l: Label, id: nat)
    requires Enabled(h, l) && (l.Launch? || l.Halt?) && id in h.informers
    ensures id in Step(h, b, l).informers && Seen(Step(h, b, l).informers[id]) == Moved(h, l, id, Seen(h.informers[id]))
  {
  }

  lemma DetachMoves(h: State, b: I.Backoff, l: Label, id: nat)
    requires Enabled(h, l) && l.Detach? && id in h.informers
    ensures id in Step(h, b, l).informers && Seen(Step(h, b, l).informers[id]) == Moved(h, l, id, Seen(h.informers[id]))
  {
    if h.subs[l.sub].informer == id {
      assert Seen(I.Step(h.informers[id], b, I.Drop(l.sub))).subs == h.informers[id].subs.Keys - {l.sub};
    }
  }

  lemma RestStays(h: State, b: I.Backoff, l: Label, id: nat)
    requires Enabled(h, l) && (l.Lookup? || l.Count? || l.Release? || l.Forget?) && id in h.informers
    ensures id in Step(h, b, l).informers && Step(h, b, l).informers[id] == h.informers[id]
  {
  }

  lemma ViewMoves(h: State, b: I.Backoff, l: Label, id: nat)
    requires Wired(h) && Enabled(h, l) && id in h.informers
    ensures id in Step(h, b, l).informers && Seen(Step(h, b, l).informers[id]) == Moved(h, l, id, Seen(h.informers[id]))
  {
    if l.Inner? { InnerMoves(h, b, l, id); }
    else if l.Attach? { AttachMoves(h, b, l, id); }
    else if l.Launch? || l.Halt? { UpOrDownMoves(h, b, l, id); }
    else if l.Detach? { DetachMoves(h, b, l, id); }
    else { RestStays(h, b, l, id); }
  }

  lemma NewInformer(h: State, b: I.Backoff, l: Label, id: nat)
    requires Wired(h) && Enabled(h, l) && id in Step(h, b, l).informers && id !in h.informers
    ensures l.Lookup? && Step(h, b, l).informers[id] == I.NEW && Step(h, b, l).refs[id] == 0 && Step(h, b, l).holder == Attaching(id, l.sub)
    ensures Listed(Step(h, b, l), id)
  {
  }

  lemma ListedMoves(h: State, b: I.Backoff, l: Label, id: nat)
    requires Wired(h) && Enabled(h, l) && id in h.informers
    ensures Listed(Step(h, b, l), id) == (Listed(h, id) && !(l.Forget? && h.holder.id == id))
  {
  }

  lemma RefsMove(h: State, b: I.Backoff, l: Label, id: nat)
    requires Wired(h) && Enabled(h, l) && id in h.informers
    ensures Step(h, b, l).refs[id] ==
            h.refs[id] + (if l.Count? && h.holder.id == id then 1 else if l.Release? && h.subs[l.sub].informer == id then -1 else 0)
  {
  }

  // ----- Each part of the invariant, under each step -----

  lemma UnreleasedMoves(h: State, b: I.Backoff, l: Label, id: nat)
    requires Wired(h) && Enabled(h, l)
    ensures Unreleased(Step(h, b, l).subs, id) ==
            if l.Count? && h.holder.id == id then Unreleased(h.subs, id) + {h.holder.sub}
            else if l.Release? && h.subs[l.sub].informer == id then Unreleased(h.subs, id) - {l.sub}
            else Unreleased(h.subs, id)
  {
    if l.Count? {
      UnreleasedPut(h.subs, h.holder.sub, Subscription(h.holder.id, Open), id);
      if h.holder.id != id { assert h.holder.sub !in Unreleased(h.subs, id); }
    } else if l.Detach? {
      UnreleasedPut(h.subs, l.sub, Subscription(h.subs[l.sub].informer, Detached), id);
    } else if l.Release? {
      UnreleasedPut(h.subs, l.sub, Subscription(h.subs[l.sub].informer, Released), id);
    }
  }

  lemma StepCounted(h: State, b: I.Backoff, l: Label)
    requires Wired(h) && Counted(h) && Enabled(h, l)
    ensures Counted(Step(h, b, l))
  {
    var h' := Step(h, b, l);
    StepWired(h, b, l);
    forall id | id in h'.refs ensures h'.refs[id] == |Unreleased(h'.subs, id)| {
      UnreleasedMoves(h, b, l, id);
      if id in h.informers { CountedOne(h, b, l, id); } else { CountedNew(h, b, l, id); }
    }
  }

  lemma CountedOne(h: State, b: I.Backoff, l: Label, id: nat)
    requires Wired(h) && Counted(h) && Enabled(h, l) && id in h.informers && id in Step(h, b, l).refs
    ensures Step(h, b, l).refs[id] == |Unreleased(Step(h, b, l).subs, id)|
  {
    RefsMove(h, b, l, id);
    UnreleasedMoves(h, b, l, id);
    assert l.Count? && h.holder.id == id ==> h.holder.sub !in Unreleased(h.subs, id);
    assert l.Release? && h.subs[l.sub].informer == id ==> l.sub in Unreleased(h.subs, id);
  }

  lemma CountedNew(h: State, b: I.Backoff, l: Label, id: nat)
    requires Wired(h) && Enabled(h, l) && id in Step(h, b, l).informers && id !in h.informers
    ensures id in Step(h, b, l).refs && Step(h, b, l).refs[id] == |Unreleased(Step(h, b, l).subs, id)|
  {
    NewInformer(h, b, l, id);
    UnreleasedMoves(h, b, l, id);
    assert Unreleased(h.subs, id) == {};
  }

  /** Where the owner of the lock stands after a step. */
  function HolderAfter(h: State, l: Label): Holder
    requires Enabled(h, l)
  {
    match l
    case Lookup(key, id, sub) => Attaching(if key in h.current then h.current[key] else id, sub)
    case Attach => Counting(h.holder.id, h.holder.sub)
    case Count => Launching(h.holder.id)
    case Release(sub) => if h.refs[h.subs[sub].informer] == 1 then Halting(h.subs[sub].informer) else Free
    case Halt => Forgetting(h.holder.id)
    case Launch => Free
    case Forget => Free
    case _ => h.holder
  }

  lemma HolderSteps(h: State, b: I.Backoff, l: Label)
    requires Enabled(h, l)
    ensures Step(h, b, l).holder == HolderAfter(h, l)
  {
  }

  /** The three facts move together: what the step does to each of them. */
  lemma AgreesMoves(h: State, l: Label, id: nat, listed: bool, stopped: bool, n: nat)
    requires Enabled(h, l) && Agrees(h.holder, id, listed, stopped, n) && (!h.holder.Free? && h.holder.id == id ==> Known(h, id))
    requires l.Release? && h.subs[l.sub].informer == id ==> n == h.refs[id]
    requires l.Lookup? && l.key in h.current && h.current[l.key] == id ==> listed
    requires l.Lookup? && l.key !in h.current ==> l.id != id
    ensures Agrees(HolderAfter(h, l), id, listed && !(l.Forget? && h.holder.id == id), stopped || (l.Halt? && h.holder.id == id),
                   n + (if l.Count? && h.holder.id == id then 1 else if l.Release? && h.subs[l.sub].informer == id then -1 else 0))
  {
  }

  lemma StepInStep(h: State, b: I.Backoff, l: Label, id: nat)
    requires Wired(h) && (id in h.informers ==> InStep(h, id)) && Enabled(h, l) && id in Step(h, b, l).informers
    requires l.Lookup? && l.key in h.current ==> InStep(h, h.current[l.key])
    ensures InStep(Step(h, b, l), id)
  {
    if id in h.informers { KnownInStep(h, b, l, id); } else { NewInStep(h, b, l, id); }
  }

  lemma NewInStep(h: State, b: I.Backoff, l: Label, id: nat)
    requires Wired(h) && Enabled(h, l) && id in Step(h, b, l).informers && id !in h.informers
    ensures InStep(Step(h, b, l), id)
  {
    NewInformer(h, b, l, id);
  }

  lemma KnownInStep(h: State, b: I.Backoff, l: Label, id: nat)
    requires Wired(h) && id in h.informers && InStep(h, id) && Enabled(h, l)
    ensures InStep(Step(h, b, l), id)
  {
    ViewMoves(h, b, l, id);
    ListedMoves(h, b, l, id);
    RefsMove(h, b, l, id);
    HolderSteps(h, b, l);
    AgreesMoves(h, l, id, Listed(h, id), h.informers[id].stopped, h.refs[id]);
  }

  lemma StepRegisteredRight(h: State, b: I.Backoff, l: Label, id: nat, s: nat)
    requires Wired(h) && RegisteredRight(h, id, s) && Enabled(h, l)
    ensures RegisteredRight(Step(h, b, l), id, s)
  {
    var h' := Step(h, b, l);
    if id in h.informers {
      ViewMoves(h, b, l, id);
      assert s in h'.informers[id].subs <==> s in h'.informers[id].subs.Keys;
      assert s in h.informers[id].subs <==> s in h.informers[id].subs.Keys;
    } else if id in h'.informers {
      NewInformer(h, b, l, id);
    }
  }

  lemma StepRegistered(h: State, b: I.Backoff, l: Label)
    requires Wired(h) && Registered(h) && Enabled(h, l)
    ensures Registered(Step(h, b, l))
  {
    forall id, s ensures RegisteredRight(Step(h, b, l), id, s) { StepRegisteredRight(h, b, l, id, s); }
  }

  lemma StepStarted(h: State, b: I.Backoff, l: Label)
    requires Wired(h) && Started(h) && Enabled(h, l)
    ensures Started(Step(h, b, l))
  {
    var h' := Step(h, b, l);
    forall id | id in h'.informers && id in h'.refs && h'.refs[id] > 0 && h'.holder != Launching(id)
      ensures h'.informers[id].started
    {
      if id in h.informers {
        ViewMoves(h, b, l, id);
        RefsMove(h, b, l, id);
      } else {
        NewInformer(h, b, l, id);
      }
    }
  }

  lemma StepSound(h: State, b: I.Backoff, l: Label)
    requires Wired(h) && Sound(h, b) && Enabled(h, l)
    ensures Sound(Step(h, b, l), b)
  {
    forall id | id in Step(h, b, l).informers ensures I.Inv(Step(h, b, l).informers[id], b) {
      if id in h.informers { OneSound(h, b, l, id); } else { NewInformer(h, b, l, id); }
    }
  }

  lemma OneSound(h: State, b: I.Backoff, l: Label, id: nat)
    requires Wired(h) && id in h.informers && I.Inv(h.informers[id], b) && Enabled(h, l)
    ensures I.Inv(Step(h, b, l).informers[id], b)
  {
    var s := h.informers[id];
    match l
    case Attach => if h.holder.id == id { I.StepKeeps(s, b, I.Add(h.holder.sub)); }
    case Launch => if h.holder.id == id { I.StepKeeps(s, b, I.Start); }
    case Halt => if h.holder.id == id { I.StepKeeps(s, b, I.Stop); }
    case Detach(sub) => if h.subs[sub].informer == id { I.StepKeeps(s, b, I.Drop(sub)); }
    case Inner(i, step) => if i == id { I.StepKeeps(s, b, step); }
    case _ =>
  }

  lemma StepKeeps(h: State, b: I.Backoff, l: Label)
    requires Inv(h, b) && Enabled(h, l)
    ensures Inv(Step(h, b, l), b)
  {
    StepWired(h, b, l);
    StepCounted(h, b, l);
    forall id | id in Step(h, b, l).informers ensures InStep(Step(h, b, l), id) { StepInStep(h, b, l, id); }
    StepRegistered(h, b, l);
    StepStarted(h, b, l);
    StepSound(h, b, l);
  }

  function Run(h: State, b: I.Backoff, ls: seq<Label>): Option<State> {
    if ls == [] then Some(h)
    else
      match Run(h, b, ls[..|ls| - 1])
      case None => None
      case Some(t) => if Enabled(t, ls[|ls| - 1]) then Some(Step(t, b, ls[|ls| - 1])) else None
  }

  lemma {:induction false} RunKeeps(h: State, b: I.Backoff, ls: seq<Label>)
    requires Inv(h, b) && Run(h, b, ls).Some?
    ensures Inv(Run(h, b, ls).value, b)
  {
    if ls != [] {
      RunKeeps(h, b, ls[..|ls| - 1]);
      StepKeeps(Run(h, b, ls[..|ls| - 1]).value, b, ls[|ls| - 1]);
    }
  }

  // ----- The theorems, over every interleaving -----

  /** Whenever the hub's lock is free, an informer is listed under its key exactly when it
      is referenced, exactly when it is not stopped, and its count is the number of
      subscriptions not yet released. */
  lemma LifecycleAgrees(b: I.Backoff, ls: seq<Label>, id: nat)
    requires var r := Run(EMPTY, b, ls); r.Some? && r.value.holder.Free? && id in r.value.informers
    ensures var h := Run(EMPTY, b, ls).value;
            && id in h.refs && id in h.keyOf && h.refs[id] == |Unreleased(h.subs, id)|
            && (Listed(h, id) <==> h.refs[id] > 0) && (h.refs[id] > 0 <==> !h.informers[id].stopped)
  {
    RunKeeps(EMPTY, b, ls);
    assert InStep(Run(EMPTY, b, ls).value, id);
  }

  /** At most one live informer per key, whoever holds the lock. */
  lemma OneLivePerKey(b: I.Backoff, ls: seq<Label>, i: nat, j: nat)
    requires var r := Run(EMPTY, b, ls);
             && r.Some? && i in r.value.informers && j in r.value.informers && i in r.value.keyOf && j in r.value.keyOf
             && r.value.keyOf[i] == r.value.keyOf[j] && !r.value.informers[i].stopped && !r.value.informers[j].stopped
    ensures i == j
  {
    RunKeeps(EMPTY, b, ls);
    LiveIsListed(Run(EMPTY, b, ls).value, i);
    LiveIsListed(Run(EMPTY, b, ls).value, j);
  }

  lemma LiveIsListed(h: State, id: nat)
    requires id in h.informers && id in h.refs && InStep(h, id) && !h.informers[id].stopped
    ensures Listed(h, id)
  {
  }

  /** An open subscription is registered on the current informer of its key, across every
      rebuild, and once the lock is free that informer runs and has not been told to stop. */
  lemma OpenSubscriptionIsServed(b: I.Backoff, ls: seq<Label>, sub: nat)
    requires var r := Run(EMPTY, b, ls);
             r.Some? && r.value.holder.Free? && sub in r.value.subs && r.value.subs[sub].phase == Open
    ensures var h := Run(EMPTY, b, ls).value; var id := h.subs[sub].informer;
            && id in h.informers && Listed(h, id) && sub in h.informers[id].subs
            && h.informers[id].subs[sub] == h.informers[id].epoch
            && h.informers[id].epoch in h.informers[id].running && h.informers[id].epoch !in h.informers[id].closed
  {
    RunKeeps(EMPTY, b, ls);
    var h := Run(EMPTY, b, ls).value;
    var id := h.subs[sub].informer;
    assert sub in Unreleased(h.subs, id);
    assert h.refs[id] > 0;
    assert InStep(h, id) && RegisteredRight(h, id, sub) && I.Inv(h.informers[id], b);
  }

  /** The last release always finds its informer still listed: no other informer can have
      taken its key while the lock was held. */
  lemma ForgettingFindsItsOwn(b: I.Backoff, ls: seq<Label>)
    requires var r := Run(EMPTY, b, ls); r.Some? && r.value.holder.Forgetting?
    ensures var h := Run(EMPTY, b, ls).value; Listed(h, h.holder.id) && h.holder.id in h.informers && h.informers[h.holder.id].stopped
  {
    RunKeeps(EMPTY, b, ls);
    var h := Run(EMPTY, b, ls).value;
    assert InStep(h, h.holder.id);
  }
}
