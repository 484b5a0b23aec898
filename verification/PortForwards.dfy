/** Port-forwards against context switches. A label is one critical section or one step of
    a goroutine between two of them: starts, switches and their observers, stops, deaths
    and the watchers interleave freely. */
module PortForwards {
  import opened Optional

  /** How far a `start` call has got. `Mismatched` saw another active context after
      registering; `Reaping` has taken its own forward back out and has yet to stop it. */
  datatype Stage = Establishing | Established | Unchecked | Mismatched | Reaping | Returned(ok: bool)

  datatype Start = Start(context: string, stage: Stage)

  /** `pending` are the switches whose observer has not run yet. `owed` are forwards taken
      out of the registry by a party that has yet to stop them; `removals` and `stops`
      count what happened to each forward. */
  datatype State = State(
    active: string, pending: map<nat, string>, starts: map<nat, Start>, forwards: set<nat>,
    watched: set<nat>, done: set<nat>, owed: set<nat>, removals: multiset<nat>, stops: multiset<nat>)

  datatype Label =
    | Begin(id: nat) | Refuse(id: nat) | Establish(id: nat) | Register(id: nat)
    | Recheck(id: nat, failed: bool) | Reconcile(id: nat) | StopOwn(id: nat)
    | Die(id: nat) | Watch(id: nat)
    | Stop(id: nat) | CloseAll | StopOwed(id: nat)
    | Switch(token: nat, name: string) | Observe(token: nat)

  predicate At(s: State, id: nat, stage: Stage) {
    id in s.starts && s.starts[id].stage == stage
  }

  /** The forward itself exists. */
  predicate Up(s: State, id: nat) {
    id in s.starts && !s.starts[id].stage.Establishing? && s.starts[id].stage != Returned(false)
  }

  predicate Enabled(s: State, l: Label) {
    match l
    case Begin(id) => id !in s.starts
    case Refuse(id) => At(s, id, Establishing)
    case Establish(id) => At(s, id, Establishing)
    case Register(id) => At(s, id, Established)
    case Recheck(id, _) => At(s, id, Unchecked)
    case Reconcile(id) => At(s, id, Mismatched)
    case StopOwn(id) => At(s, id, Reaping) && id in s.owed
    case Die(id) => Up(s, id)
    case Watch(id) => At(s, id, Returned(true)) && id in s.done && id !in s.watched
    case Stop(_) => true
    case CloseAll => true
    case StopOwed(id) => id in s.owed && !At(s, id, Reaping)
    case Switch(token, _) => token !in s.pending
    case Observe(token) => token in s.pending
  }

  function Goto(s: State, id: nat, stage: Stage): State
    requires id in s.starts
  {
    s.(starts := s.starts[id := s.starts[id].(stage := stage)])
  }

  /** Takes forwards out of the registry; whoever does so owes them a stop. */
  function TakeOut(s: State, doomed: set<nat>): State {
    s.(forwards := s.forwards - doomed, owed := s.owed + doomed, removals := s.removals + multiset(doomed))
  }

  function StopOne(s: State, id: nat): State {
    s.(owed := s.owed - {id}, done := s.done + {id}, stops := s.stops + multiset{id})
  }

  /** The registered forwards not on `current`. */
  function Others(s: State, current: string): set<nat> {
    set id | id in s.forwards && id in s.starts && s.starts[id].context != current
  }

  function Step(s: State, l: Label): State
    requires Enabled(s, l)
  {
    match l
    case Begin(id) => s.(starts := s.starts[id := Start(s.active, Establishing)])
    case Refuse(id) => Goto(s, id, Returned(false))
    case Establish(id) => Goto(s, id, Established)
    case Register(id) => Goto(s, id, Unchecked).(forwards := s.forwards + {id})
    case Recheck(id, failed) =>
      Goto(s, id, if failed || s.active != s.starts[id].context then Mismatched else Returned(true))
    case Reconcile(id) =>
      if id in s.forwards then Goto(TakeOut(s, {id}), id, Reaping) else Goto(s, id, Returned(false))
    case StopOwn(id) => Goto(StopOne(s, id), id, Returned(false))
    case Die(id) => s.(done := s.done + {id})
    case Watch(id) =>
      var w := s.(watched := s.watched + {id});
      if id in s.forwards then w.(forwards := s.forwards - {id}, removals := s.removals + multiset{id}) else w
    case Stop(id) => if id in s.forwards then TakeOut(s, {id}) else s
    case CloseAll => TakeOut(s, s.forwards)
    case StopOwed(id) => StopOne(s, id)
    case Switch(token, name) => s.(active := name, pending := s.pending[token := name])
    case Observe(token) => TakeOut(s, Others(s, s.pending[token])).(pending := s.pending - {token})
  }

  function Opened(active: string): State {
    State(active, map[], map[], {}, {}, {}, {}, multiset{}, multiset{})
  }

  // ----- The invariant -----

  predicate Registrable(stage: Stage) {
    stage in {Unchecked, Mismatched, Returned(true)}
  }

  /** Some switch to another context has its observer still to run. */
  ghost predicate SwitchedAway(s: State, context: string) {
    exists token :: token in s.pending && s.pending[token] != context
  }

  /** A forward past its recheck is on the active context, or will be reaped. */
  ghost predicate OnActive(s: State, id: nat) {
    At(s, id, Returned(true)) && id in s.forwards ==> s.starts[id].context == s.active || SwitchedAway(s, s.starts[id].context)
  }

  /** Where a forward is: not yet registered, registered, or taken out exactly once. */
  ghost predicate Kept(s: State, id: nat) {
    if id !in s.starts then id !in s.forwards && s.removals[id] == 0
    else
      var stage := s.starts[id].stage;
      if Registrable(stage) then s.removals[id] == if id in s.forwards then 0 else 1
      else id !in s.forwards && s.removals[id] <= 1 && match stage
        case Establishing => s.removals[id] == 0
        case Established => s.removals[id] == 0
        case Reaping => s.removals[id] == 1 && id in s.owed
        case _ => true
  }

  /** A forward taken out is stopped by whoever took it, once, or has died already. */
  ghost predicate Settled(s: State, id: nat) {
    && s.stops[id] + (if id in s.owed then 1 else 0) <= s.removals[id]
    && (s.removals[id] > 0 ==> id in s.owed || id in s.done)
    && (s.stops[id] > 0 ==> id in s.done)
  }

  ghost predicate Inv(s: State) {
    forall id :: Kept(s, id) && Settled(s, id) && OnActive(s, id)
  }

  lemma StepKept(s: State, l: Label, id: nat)
    requires Kept(s, id) && Enabled(s, l)
    ensures Kept(Step(s, l), id)
  {
  }

  lemma StepSettled(s: State, l: Label, id: nat)
    requires Kept(s, id) && Settled(s, id) && Enabled(s, l)
    ensures Settled(Step(s, l), id)
  {
  }

  /** A switch away stays to be observed until it is, and then takes the forward out. */
  lemma StillAway(s: State, l: Label, id: nat)
    requires Enabled(s, l) && id in s.starts && SwitchedAway(s, s.starts[id].context)
    requires id in s.forwards && id in Step(s, l).forwards
    ensures SwitchedAway(Step(s, l), s.starts[id].context)
  {
    var t :| t in s.pending && s.pending[t] != s.starts[id].context;
    assert t in Step(s, l).pending && Step(s, l).pending[t] == s.pending[t];
  }

  lemma StepOnActive(s: State, l: Label, id: nat)
    requires Kept(s, id) && OnActive(s, id) && Enabled(s, l)
    ensures OnActive(Step(s, l), id)
  {
    var s' := Step(s, l);
    if At(s', id, Returned(true)) && id in s'.forwards && id in s.forwards {
      if At(s, id, Returned(true)) && SwitchedAway(s, s.starts[id].context) { StillAway(s, l, id); }
      if l.Switch? { assert l.token in s'.pending && s'.pending[l.token] == l.name; }
    }
  }

  lemma StepKeeps(s: State, l: Label)
    requires Inv(s) && Enabled(s, l)
    ensures Inv(Step(s, l))
  {
    forall id ensures Kept(Step(s, l), id) && Settled(Step(s, l), id) && OnActive(Step(s, l), id) {
      StepKept(s, l, id);
      StepSettled(s, l, id);
      StepOnActive(s, l, id);
    }
  }

  function Run(s: State, ls: seq<Label>): Option<State> {
    if ls == [] then Some(s)
    else
      match Run(s, ls[..|ls| - 1])
      case None => None
      case Some(t) => if Enabled(t, ls[|ls| - 1]) then Some(Step(t, ls[|ls| - 1])) else None
  }

  lemma {:induction false} RunKeeps(active: string, ls: seq<Label>)
    requires Run(Opened(active), ls).Some?
    ensures Inv(Run(Opened(active), ls).value)
  {
    if ls != [] {
      RunKeeps(active, ls[..|ls| - 1]);
      StepKeeps(Run(Opened(active), ls[..|ls| - 1]).value, ls[|ls| - 1]);
    }
  }

  /** A switch's observer takes out a registered forward exactly when it is not on the context
      switched to, and then owes it a stop. */
  lemma ObserverTakesTheOthers(s: State, token: nat, id: nat)
    requires Inv(s) && Enabled(s, Observe(token)) && id in s.forwards
    ensures var s' := Step(s, Observe(token));
            && id in s.starts && s'.starts == s.starts && s'.active == s.active
            && (id in s'.forwards <==> s.starts[id].context == s.pending[token])
            && (id !in s'.forwards ==> id in s'.owed)
  {
    assert Kept(s, id);
  }

  // ----- The theorems, over every interleaving -----

  /** A forward that was seen to die is gone for good. */
  ghost predicate Buried(s: State) {
    forall id :: id in s.watched ==> At(s, id, Returned(true)) && id !in s.forwards
  }

  lemma {:induction false} DeadForwardsAreDropped(active: string, ls: seq<Label>)
    requires Run(Opened(active), ls).Some?
    ensures Buried(Run(Opened(active), ls).value)
  {
    if ls != [] {
      DeadForwardsAreDropped(active, ls[..|ls| - 1]);
      BuriedStays(Run(Opened(active), ls[..|ls| - 1]).value, ls[|ls| - 1]);
    }
  }

  lemma BuriedStays(s: State, l: Label)
    requires Buried(s) && Enabled(s, l)
    ensures Buried(Step(s, l))
  {
    forall id | id in Step(s, l).watched ensures At(Step(s, l), id, Returned(true)) && id !in Step(s, l).forwards { OneBuried(s, l, id); }
  }

  lemma OneBuried(s: State, l: Label, id: nat)
    requires Enabled(s, l) && (id in s.watched ==> At(s, id, Returned(true)) && id !in s.forwards)
    ensures id in Step(s, l).watched ==> At(Step(s, l), id, Returned(true)) && id !in Step(s, l).forwards
  {
  }

  /** Every start and every switch has returned. */
  ghost predicate Quiet(s: State) {
    s.pending == map[] && forall id :: id in s.starts ==> s.starts[id].stage.Returned?
  }

  /** Forwards never outlive their context: for any number of starts and switches, their
      observers running in any order, once all have returned every registered forward is
      bound to the active context. */
  lemma NoForwardOutlivesItsContext(active: string, ls: seq<Label>, id: nat)
    requires var r := Run(Opened(active), ls); r.Some? && Quiet(r.value) && id in r.value.forwards
    ensures var s := Run(Opened(active), ls).value; id in s.starts && s.starts[id] == Start(s.active, Returned(true))
  {
    RunKeeps(active, ls);
    var s := Run(Opened(active), ls).value;
    assert Kept(s, id) && OnActive(s, id);
  }

  /** At every moment a forward that exists is in its start call's hands, registered, or
      was taken out by exactly one party, which has stopped it, has yet to, or found it
      dead; nobody stops a forward twice. */
  lemma EveryForwardHasOneFate(active: string, ls: seq<Label>, id: nat)
    requires Run(Opened(active), ls).Some?
    ensures var s := Run(Opened(active), ls).value;
            && (Up(s, id) ==> s.starts[id].stage == Established || id in s.forwards || s.removals[id] == 1)
            && s.removals[id] <= 1 && s.stops[id] <= 1 && (id in s.forwards ==> s.removals[id] == 0)
            && (s.removals[id] == 1 ==> id in s.owed || id in s.done)
  {
    RunKeeps(active, ls);
    var s := Run(Opened(active), ls).value;
    assert Kept(s, id) && Settled(s, id);
  }

  lemma Then(s0: State, s: State, ls: seq<Label>, l: Label) returns (r: seq<Label>, t: State)
    requires Run(s0, ls) == Some(s) && Enabled(s, l)
    ensures Run(s0, r) == Some(t) && t == Step(s, l)
  {
    assert (ls + [l])[..|ls|] == ls;
    r, t := ls + [l], Step(s, l);
  }

  /** The check after registering is needed: a switch while establishing is observed
      before the forward is there to be reaped, and only the check is left to find it. */
  lemma SwitchCanMissAForward() returns (ls: seq<Label>, s: State)
    ensures Run(Opened("a"), ls) == Some(s) && s.pending == map[] && s.active == "b"
    ensures 0 in s.forwards && 0 in s.starts && s.starts[0] == Start("a", Unchecked)
  {
    var s0 := Opened("a");
    ls, s := Then(s0, s0, [], Begin(0));
    ls, s := Then(s0, s, ls, Establish(0));
    ls, s := Then(s0, s, ls, Switch(0, "b"));
    ls, s := Then(s0, s, ls, Observe(0));
    ls, s := Then(s0, s, ls, Register(0));
  }

  /** How often a forward was stopped in so many words. */
  function Stops(ls: seq<Label>, id: nat): nat {
    if ls == [] then 0 else Stops(ls[..|ls| - 1], id) + if ls[|ls| - 1] in {StopOwn(id), StopOwed(id)} then 1 else 0
  }

  /** Every stop counts, and settles what was owed. */
  lemma {:induction false} StopsCount(active: string, ls: seq<Label>, id: nat)
    requires Run(Opened(active), ls).Some?
    ensures Run(Opened(active), ls).value.stops[id] == Stops(ls, id)
    ensures ls != [] && ls[|ls| - 1] in {StopOwn(id), StopOwed(id)} ==>
              id in Run(Opened(active), ls).value.done && id !in Run(Opened(active), ls).value.owed
  {
    if ls != [] {
      StopsCount(active, ls[..|ls| - 1], id);
      StepStops(Run(Opened(active), ls[..|ls| - 1]).value, ls[|ls| - 1], id);
    }
  }

  lemma StepStops(s: State, l: Label, id: nat)
    requires Enabled(s, l)
    ensures Step(s, l).stops[id] == s.stops[id] + if l in {StopOwn(id), StopOwed(id)} then 1 else 0
    ensures l in {StopOwn(id), StopOwed(id)} ==> id in Step(s, l).done && id !in Step(s, l).owed
  {
  }

  // ----- Every start and every death gets somewhere -----

  /** How far a start still has to go. */
  function Ahead(stage: Stage): nat {
    match stage case Establishing => 5 case Established => 4 case Unchecked => 3 case Mismatched => 2 case Reaping => 1 case Returned(_) => 0
  }

  /** The start that a step is of, if it is a start's own. */
  function StartOf(l: Label): Option<nat> {
    match l
    case Refuse(id) => Some(id)
    case Establish(id) => Some(id)
    case Register(id) => Some(id)
    case Recheck(id, _) => Some(id)
    case Reconcile(id) => Some(id)
    case StopOwn(id) => Some(id)
    case _ => None
  }

  /** A start that has not returned can always take its next step. */
  lemma StartsCanGoOn(s: State, id: nat) returns (next: Label)
    requires Inv(s) && id in s.starts && !s.starts[id].stage.Returned?
    ensures Enabled(s, next) && StartOf(next) == Some(id)
  {
    assert Kept(s, id);
    next := match s.starts[id].stage
      case Establishing => Refuse(id) case Established => Register(id) case Unchecked => Recheck(id, false)
      case Mismatched => Reconcile(id) case _ => StopOwn(id);
  }

  /** Each of a start's own steps brings it nearer its return, and no step of anyone else moves
      it: every start returns within five steps of its own. */
  lemma StartsReturn(s: State, l: Label, id: nat)
    requires id in s.starts && Enabled(s, l)
    ensures id in Step(s, l).starts
    ensures StartOf(l) == Some(id) ==> Ahead(Step(s, l).starts[id].stage) < Ahead(s.starts[id].stage)
    ensures StartOf(l) != Some(id) ==> Step(s, l).starts[id] == s.starts[id]
  {
  }

  /** A registered forward whose start has returned can die, and once it has, its watcher can see
      so and takes it out. */
  lemma DeathIsSeen(active: string, ls: seq<Label>, id: nat)
    requires Run(Opened(active), ls).Some?
    requires var s := Run(Opened(active), ls).value; id in s.forwards && At(s, id, Returned(true))
    ensures var s := Run(Opened(active), ls).value;
            && Enabled(s, Die(id)) && Enabled(Step(s, Die(id)), Watch(id))
            && id !in Step(Step(s, Die(id)), Watch(id)).forwards
  {
    DeadForwardsAreDropped(active, ls);
  }
}
