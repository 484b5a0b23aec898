/** Tearing a service session down while connections and backends come and go. A label is
    one critical section of the forwarder's lock, or one step between two of them. */
module Teardown {
  import opened Optional

  /** The two halves a handler can own. */
  datatype Conn = Client(handler: nat) | Upstream(handler: nat)

  /** How far a handler has got: its client accepted, turned away by `track`, looking for a
      backend, its upstream dialled or turned away, splicing, and the deferred steps out. */
  datatype Stage =
    | Accepted | Rejected | Seeking | Dialled | Refused | Splicing
    | Spliced | Leaving | Untracking | Finished

  /** How far the one effective `stop` has got: not begun, listener closed, connections
      taken over, all backends being stopped, done. */
  datatype Stopping = NotBegun | ListenerClosed | Closing(left: set<Conn>) | StoppingBackends(next: nat) | Done

  /** A backend's watcher: waiting, scanning for live backends from position `at` with
      `live` seen so far, or finished. One that has seen none live calls `stop`, which
      returns only once the session is down. */
  datatype Watcher = Watching | Scanning(at: nat, live: nat) | Over

  /** `open` are the connections accepted or dialled and not yet closed; `stores` the
      order in which watchers marked their backends dead. */
  datatype State = State(
    handlers: map<nat, Stage>, open: set<Conn>, tracked: set<Conn>, closed: bool, stop: Stopping,
    stoppedBackends: set<nat>, exited: set<nat>, dead: set<nat>, watchers: map<nat, Watcher>, stores: seq<nat>)

  datatype Label =
    | Accept(h: nat) | TrackClient(h: nat) | CloseRejected(h: nat)
    | DialFails(h: nat) | Dial(h: nat) | GiveUp(h: nat) | TrackUpstream(h: nat) | CloseRefused(h: nat)
    | SpliceEnds(h: nat) | UntrackUpstream(h: nat) | CloseClient(h: nat) | UntrackClient(h: nat)
    | BeginStop | TakeOver | CloseOne(c: Conn) | AllClosed | StopBackend | StopEnds
    | Exit(b: nat) | Store(b: nat) | Look(b: nat) | Conclude(b: nat)

  function Watchers(n: nat): (r: map<nat, Watcher>)
    ensures forall b: nat :: b in r <==> b < n
    ensures forall b: nat :: b in r ==> r[b] == Watching
  {
    if n == 0 then map[] else Watchers(n - 1)[n - 1 := Watching]
  }

  function Opened(n: nat): State {
    State(map[], {}, {}, false, NotBegun, {}, {}, {}, Watchers(n), [])
  }

  predicate At(s: State, h: nat, stage: Stage) {
    h in s.handlers && s.handlers[h] == stage
  }

  predicate Watches(s: State, b: nat) {
    b in s.watchers && s.watchers[b].Scanning?
  }

  predicate Enabled(s: State, n: nat, l: Label) {
    match l
    case Accept(h) => h !in s.handlers && s.stop.NotBegun?
    case TrackClient(h) => At(s, h, Accepted)
    case CloseRejected(h) => At(s, h, Rejected)
    case DialFails(h) => At(s, h, Seeking)
    case Dial(h) => At(s, h, Seeking)
    case GiveUp(h) => At(s, h, Seeking)
    case TrackUpstream(h) => At(s, h, Dialled)
    case CloseRefused(h) => At(s, h, Refused)
    case SpliceEnds(h) => At(s, h, Splicing)
    case UntrackUpstream(h) => At(s, h, Spliced)
    case CloseClient(h) => At(s, h, Leaving)
    case UntrackClient(h) => At(s, h, Untracking)
    case BeginStop => s.stop.NotBegun?
    case TakeOver => s.stop.ListenerClosed?
    case CloseOne(c) => s.stop.Closing? && c in s.stop.left
    case AllClosed => s.stop.Closing? && s.stop.left == {}
    case StopBackend => s.stop.StoppingBackends? && s.stop.next < n
    case StopEnds => s.stop.StoppingBackends? && s.stop.next == n
    case Exit(b) => b < n
    case Store(b) => b in s.watchers && s.watchers[b].Watching? && b in s.exited
    case Look(b) => Watches(s, b) && s.watchers[b].at < n
    case Conclude(b) => Watches(s, b) && s.watchers[b].at == n && (s.watchers[b].live == 0 ==> s.stop.Done?)
  }

  function Goto(s: State, h: nat, stage: Stage): State {
    s.(handlers := s.handlers[h := stage])
  }

  function Step(s: State, n: nat, l: Label): State
    requires Enabled(s, n, l)
  {
    match l
    case Accept(h) => Goto(s, h, Accepted).(open := s.open + {Client(h)})
    case TrackClient(h) =>
      if s.closed then Goto(s, h, Rejected) else Goto(s, h, Seeking).(tracked := s.tracked + {Client(h)})
    case CloseRejected(h) => Goto(s, h, Finished).(open := s.open - {Client(h)})
    case DialFails(_) => s
    case Dial(h) => Goto(s, h, Dialled).(open := s.open + {Upstream(h)})
    case GiveUp(h) => Goto(s, h, Leaving)
    case TrackUpstream(h) =>
      if s.closed then Goto(s, h, Refused) else Goto(s, h, Splicing).(tracked := s.tracked + {Upstream(h)})
    case CloseRefused(h) => Goto(s, h, Leaving).(open := s.open - {Upstream(h)})
    case SpliceEnds(h) => Goto(s, h, Spliced).(open := s.open - {Upstream(h)})
    case UntrackUpstream(h) => Goto(s, h, Leaving).(tracked := s.tracked - {Upstream(h)})
    case CloseClient(h) => Goto(s, h, Untracking).(open := s.open - {Client(h)})
    case UntrackClient(h) => Goto(s, h, Finished).(tracked := s.tracked - {Client(h)})
    case BeginStop => s.(stop := ListenerClosed)
    case TakeOver => s.(closed := true, stop := Closing(s.tracked), tracked := {})
    case CloseOne(c) => s.(open := s.open - {c}, stop := Closing(s.stop.left - {c}))
    case AllClosed => s.(stop := StoppingBackends(0))
    case StopBackend =>
      s.(stoppedBackends := s.stoppedBackends + {s.stop.next}, exited := s.exited + {s.stop.next},
         stop := StoppingBackends(s.stop.next + 1))
    case StopEnds => s.(stop := Done)
    case Exit(b) => s.(exited := s.exited + {b})
    case Store(b) => s.(dead := s.dead + {b}, stores := s.stores + [b], watchers := s.watchers[b := Scanning(0, 0)])
    case Look(b) =>
      var w := s.watchers[b];
      s.(watchers := s.watchers[b := Scanning(w.at + 1, if w.at in s.dead then w.live else w.live + 1)])
    case Conclude(b) => s.(watchers := s.watchers[b := Over])
  }

  // ----- The invariant -----

  /** A handler's client is open, and its upstream too, only in the stages that still own them. */
  ghost predicate Owned(s: State, h: nat) {
    && (Client(h) in s.open ==> h in s.handlers && s.handlers[h] !in {Untracking, Finished})
    && (Upstream(h) in s.open ==> h in s.handlers && s.handlers[h] in {Dialled, Refused, Splicing})
    && (Client(h) in s.tracked ==> h in s.handlers && s.handlers[h] !in {Accepted, Rejected, Finished})
    && (Upstream(h) in s.tracked ==> h in s.handlers && s.handlers[h] in {Splicing, Spliced})
  }

  /** The connections `stop` has taken over and not closed yet. */
  function ToClose(s: State): set<Conn> {
    if s.stop.Closing? then s.stop.left else {}
  }

  /** What a tracked connection is waiting for: to be closed by `stop`, or closed already. */
  ghost predicate InReach(s: State, c: Conn) {
    c in s.open ==> (if s.closed then c in ToClose(s) else c in s.tracked)
  }

  /** A handler that is served has its client, and when it splices its upstream, in reach
      of `stop`. */
  ghost predicate Reachable(s: State, h: nat) {
    ClientReachable(s, h) && (At(s, h, Splicing) ==> InReach(s, Upstream(h)))
  }

  ghost predicate ClientReachable(s: State, h: nat) {
    h in s.handlers && s.handlers[h] in {Seeking, Dialled, Refused, Splicing, Spliced, Leaving} ==> InReach(s, Client(h))
  }

  /** Once connections are taken over, nothing is tracked any more. */
  ghost predicate Shut(s: State) {
    && (s.closed <==> s.stop.Closing? || s.stop.StoppingBackends? || s.stop.Done?)
    && (s.closed ==> s.tracked == {})
  }

  ghost predicate BackendsStopping(s: State, n: nat) {
    && (s.stop.StoppingBackends? ==> s.stop.next <= n && forall b: nat :: b < s.stop.next ==> b in s.stoppedBackends)
    && (s.stop.Done? ==> forall b: nat :: b < n ==> b in s.stoppedBackends)
  }

  /** Watchers and the dead set agree, each watcher having stored once. */
  ghost predicate Stored(s: State, n: nat) {
    && (forall b: nat :: b in s.watchers <==> b < n)
    && (forall b :: b in s.dead <==> b in s.watchers && !s.watchers[b].Watching?)
    && (forall b :: b in s.dead <==> b in s.stores)
  }

  /** The watcher whose store came last sees every backend dead from its first look on. */
  ghost predicate LastSeesAll(s: State, n: nat) {
    s.stores != [] && (forall b: nat :: b < n ==> b in s.dead) ==>
      var last := s.stores[|s.stores| - 1];
      last in s.watchers && (s.watchers[last].Scanning? ==> s.watchers[last].live == 0)
      && (s.watchers[last].Over? ==> s.stop.Done?)
  }

  ghost predicate Inv(s: State, n: nat) {
    && (forall h :: Owned(s, h) && Reachable(s, h)) && Shut(s) && BackendsStopping(s, n)
    && Stored(s, n) && LastSeesAll(s, n)
  }

  lemma StepOwned(s: State, n: nat, l: Label, h: nat)
    requires Owned(s, h) && Enabled(s, n, l)
    ensures Owned(Step(s, n, l), h)
  {
  }

  lemma StepClient(s: State, n: nat, l: Label, h: nat)
    requires Owned(s, h) && ClientReachable(s, h) && Shut(s) && Enabled(s, n, l)
    ensures ClientReachable(Step(s, n, l), h)
  {
  }

  lemma StepReachable(s: State, n: nat, l: Label, h: nat)
    requires Owned(s, h) && Reachable(s, h) && Shut(s) && Enabled(s, n, l)
    ensures Reachable(Step(s, n, l), h)
  {
    StepClient(s, n, l, h);
  }

  lemma StepShut(s: State, n: nat, l: Label)
    requires Shut(s) && BackendsStopping(s, n) && Enabled(s, n, l)
    ensures Shut(Step(s, n, l)) && BackendsStopping(Step(s, n, l), n)
  {
  }

  lemma StepStored(s: State, n: nat, l: Label)
    requires Stored(s, n) && Enabled(s, n, l)
    ensures Stored(Step(s, n, l), n)
  {
  }

  lemma StepLastSeesAll(s: State, n: nat, l: Label)
    requires Stored(s, n) && LastSeesAll(s, n) && Enabled(s, n, l)
    ensures LastSeesAll(Step(s, n, l), n)
  {
  }

  lemma StepKeeps(s: State, n: nat, l: Label)
    requires Inv(s, n) && Enabled(s, n, l)
    ensures Inv(Step(s, n, l), n)
  {
    forall h ensures Owned(Step(s, n, l), h) && Reachable(Step(s, n, l), h) {
      StepOwned(s, n, l, h);
      StepReachable(s, n, l, h);
    }
    StepShut(s, n, l);
    StepStored(s, n, l);
    StepLastSeesAll(s, n, l);
  }

  function Run(s: State, n: nat, ls: seq<Label>): Option<State> {
    if ls == [] then Some(s)
    else
      match Run(s, n, ls[..|ls| - 1])
      case None => None
      case Some(t) => if Enabled(t, n, ls[|ls| - 1]) then Some(Step(t, n, ls[|ls| - 1])) else None
  }

  lemma {:induction false} RunKeeps(n: nat, ls: seq<Label>)
    requires Run(Opened(n), n, ls).Some?
    ensures Inv(Run(Opened(n), n, ls).value, n)
  {
    if ls != [] {
      RunKeeps(n, ls[..|ls| - 1]);
      StepKeeps(Run(Opened(n), n, ls[..|ls| - 1]).value, n, ls[|ls| - 1]);
    }
  }

  // ----- The theorems, over every interleaving -----

  /** Once `stop` and every handler have finished, every connection accepted or dialled is
      closed, none is tracked, and every backend's forward is stopped. */
  lemma NothingIsLeft(n: nat, ls: seq<Label>)
    requires var r := Run(Opened(n), n, ls);
             r.Some? && r.value.stop.Done? && forall h :: h in r.value.handlers ==> r.value.handlers[h] == Finished
    ensures var s := Run(Opened(n), n, ls).value;
            s.open == {} && s.tracked == {} && forall b: nat :: b < n ==> b in s.stoppedBackends
  {
    RunKeeps(n, ls);
    var s := Run(Opened(n), n, ls).value;
    forall c: Conn ensures c !in s.open && c !in s.tracked {
      assert Owned(s, c.handler);
      match c
      case Client(_) =>
      case Upstream(_) =>
    }
  }

  /** After `stop` has closed what it took over, no handler still splicing has an open
      connection to wait on, and nothing is tracked again. */
  lemma NoSpliceOutlivesStop(n: nat, ls: seq<Label>, h: nat)
    requires var r := Run(Opened(n), n, ls); r.Some? && (r.value.stop.StoppingBackends? || r.value.stop.Done?)
    ensures var s := Run(Opened(n), n, ls).value;
            && s.tracked == {} && (At(s, h, Splicing) ==> Client(h) !in s.open && Upstream(h) !in s.open)
  {
    RunKeeps(n, ls);
    assert Reachable(Run(Opened(n), n, ls).value, h);
  }

  /** The handler looks for no backend, holds none and splices with none. */
  predicate Unserved(s: State, h: nat) {
    h in s.handlers ==> s.handlers[h] !in {Seeking, Dialled, Splicing}
  }

  lemma StillTurnedAway(s: State, n: nat, l: Label, h: nat)
    requires s.closed && Enabled(s, n, l)
    ensures var t := Step(s, n, l);
            t.closed && (Unserved(s, h) ==> Unserved(t, h)) && (!At(s, h, Splicing) ==> !At(t, h, Splicing))
  {
  }

  /** Once the connections have been taken over, however the session goes on: a connection
      that was not being served by then, or had not come yet, never is, and none that was
      not splicing ever splices. */
  lemma {:induction false} LatecomersAreTurnedAway(s: State, n: nat, more: seq<Label>, h: nat)
    requires s.closed && Run(s, n, more).Some?
    ensures var t := Run(s, n, more).value;
            t.closed && (Unserved(s, h) ==> Unserved(t, h)) && (!At(s, h, Splicing) ==> !At(t, h, Splicing))
  {
    if more != [] {
      LatecomersAreTurnedAway(s, n, more[..|more| - 1], h);
      StillTurnedAway(Run(s, n, more[..|more| - 1]).value, n, more[|more| - 1], h);
    }
  }

  /** When every backend is dead and every watcher has finished, the session is down:
      whichever watcher stored last saw no live backend and stopped it. */
  lemma LastBackendEndsTheSession(n: nat, ls: seq<Label>)
    requires n > 0
    requires var r := Run(Opened(n), n, ls);
             r.Some? && (forall b: nat :: b < n ==> b in r.value.dead) && (forall b :: b in r.value.watchers ==> r.value.watchers[b].Over?)
    ensures Run(Opened(n), n, ls).value.stop.Done?
  {
    RunKeeps(n, ls);
    var s := Run(Opened(n), n, ls).value;
    assert 0 in s.dead;
  }

  // ----- Which connections are open, told from the steps alone -----

  predicate Opens(l: Label, c: Conn) {
    match c case Client(h) => l == Accept(h) case Upstream(h) => l == Dial(h)
  }

  predicate Closes(l: Label, c: Conn) {
    l == CloseOne(c) ||
    match c
    case Client(h) => l == CloseRejected(h) || l == CloseClient(h)
    case Upstream(h) => l == CloseRefused(h) || l == SpliceEnds(h)
  }

  /** Opened and not closed since. */
  predicate IsOpen(ls: seq<Label>, c: Conn) {
    ls != [] && (Opens(ls[|ls| - 1], c) || (!Closes(ls[|ls| - 1], c) && IsOpen(ls[..|ls| - 1], c)))
  }

  lemma OthersStayOpen(s: State, n: nat, l: Label, c: Conn)
    requires Enabled(s, n, l) && !Opens(l, c) && !Closes(l, c)
    ensures c in Step(s, n, l).open <==> c in s.open
  {
  }

  lemma StepOpens(s: State, n: nat, l: Label, c: Conn)
    requires Enabled(s, n, l)
    ensures c in Step(s, n, l).open <==> Opens(l, c) || (!Closes(l, c) && c in s.open)
  {
    if !Opens(l, c) && !Closes(l, c) { OthersStayOpen(s, n, l, c); }
  }

  /** The connections open are exactly those accepted or dialled and not closed since. */
  lemma {:induction false} OpenUntilClosed(n: nat, ls: seq<Label>, c: Conn)
    requires Run(Opened(n), n, ls).Some?
    ensures c in Run(Opened(n), n, ls).value.open <==> IsOpen(ls, c)
  {
    if ls != [] {
      OpenUntilClosed(n, ls[..|ls| - 1], c);
      StepOpens(Run(Opened(n), n, ls[..|ls| - 1]).value, n, ls[|ls| - 1], c);
    }
  }

  // ----- Everyone gets to their end -----

  /** The handler that a step is of. */
  function HandlerOf(l: Label): Option<nat> {
    match l
    case Accept(h) => Some(h)
    case TrackClient(h) => Some(h)
    case CloseRejected(h) => Some(h)
    case DialFails(h) => Some(h)
    case Dial(h) => Some(h)
    case GiveUp(h) => Some(h)
    case TrackUpstream(h) => Some(h)
    case CloseRefused(h) => Some(h)
    case SpliceEnds(h) => Some(h)
    case UntrackUpstream(h) => Some(h)
    case CloseClient(h) => Some(h)
    case UntrackClient(h) => Some(h)
    case _ => None
  }

  function HandlerAhead(stage: Stage): nat {
    match stage
    case Accepted => 8 case Seeking => 7 case Dialled => 6 case Splicing => 5 case Refused => 4 case Spliced => 4
    case Leaving => 3 case Untracking => 2 case Rejected => 1 case Finished => 0
  }

  /** Each of a handler's own steps but a failed dial brings it nearer its end, and nobody else's
      moves it. */
  lemma HandlersFinish(s: State, n: nat, l: Label, h: nat)
    requires h in s.handlers && Enabled(s, n, l)
    ensures h in Step(s, n, l).handlers
    ensures HandlerOf(l) == Some(h) && !l.DialFails? ==> HandlerAhead(Step(s, n, l).handlers[h]) < HandlerAhead(s.handlers[h])
    ensures HandlerOf(l) != Some(h) || l.DialFails? ==> Step(s, n, l).handlers[h] == s.handlers[h]
  {
  }

  /** A handler that has not finished can always take such a step. */
  lemma HandlersCanGoOn(s: State, n: nat, h: nat) returns (l: Label)
    requires h in s.handlers && s.handlers[h] != Finished
    ensures Enabled(s, n, l) && HandlerOf(l) == Some(h) && !l.DialFails?
  {
    l := match s.handlers[h]
      case Accepted => TrackClient(h) case Rejected => CloseRejected(h) case Seeking => GiveUp(h) case Dialled => TrackUpstream(h)
      case Refused => CloseRefused(h) case Splicing => SpliceEnds(h) case Spliced => UntrackUpstream(h)
      case Leaving => CloseClient(h) case _ => UntrackClient(h);
  }

  predicate OfStop(l: Label) {
    l.BeginStop? || l.TakeOver? || l.CloseOne? || l.AllClosed? || l.StopBackend? || l.StopEnds?
  }

  function Phase(stop: Stopping): nat {
    match stop case NotBegun => 4 case ListenerClosed => 3 case Closing(_) => 2 case StoppingBackends(_) => 1 case Done => 0
  }

  /** The connections still to close, or the backends still to stop. */
  function StopAhead(stop: Stopping, n: nat): int {
    match stop case Closing(left) => |left| case StoppingBackends(next) => n - next case _ => 0
  }

  /** Each of the teardown's steps brings it nearer its end, nobody else's moves it, and once
      begun it can always take one. */
  lemma TheTeardownEnds(s: State, n: nat, l: Label)
    requires Enabled(s, n, l)
    ensures var stop, stop' := s.stop, Step(s, n, l).stop;
            if OfStop(l) then Phase(stop') < Phase(stop) || (Phase(stop') == Phase(stop) && StopAhead(stop', n) < StopAhead(stop, n))
            else stop' == stop
  {
  }

  lemma TheTeardownGoesOn(s: State, n: nat) returns (l: Label)
    requires BackendsStopping(s, n) && !s.stop.Done?
    ensures Enabled(s, n, l) && OfStop(l)
  {
    if s.stop.Closing? && s.stop.left != {} {
      var c :| c in s.stop.left;
      l := CloseOne(c);
    } else {
      l := match s.stop
        case NotBegun => BeginStop case ListenerClosed => TakeOver case Closing(_) => AllClosed
        case StoppingBackends(next) => if next < n then StopBackend else StopEnds case Done => BeginStop;
    }
  }

  /** A scan has counted no more live backends than it has looked at, and when it has counted
      none, all it has looked at are dead. */
  ghost predicate ScansRight(s: State, n: nat) {
    forall b :: b in s.watchers && s.watchers[b].Scanning? ==> ScanRight(s.watchers[b], s.dead, n)
  }

  ghost predicate ScanRight(w: Watcher, dead: set<nat>, n: nat)
    requires w.Scanning?
  {
    w.live <= w.at <= n && (w.live == 0 ==> forall x: nat :: x < w.at ==> x in dead)
  }

  function WatcherAhead(w: Watcher, n: nat): int {
    match w case Watching => n + 2 case Scanning(at, _) => n - at + 1 case Over => 0
  }

  lemma StepScans(s: State, n: nat, l: Label)
    requires ScansRight(s, n) && Enabled(s, n, l)
    ensures ScansRight(Step(s, n, l), n)
  {
  }

  /** Each of a watcher's own steps brings it nearer its end, and nobody else's moves it. */
  lemma WatcherMoves(s: State, n: nat, l: Label, b: nat)
    requires ScansRight(s, n) && Enabled(s, n, l) && b in s.watchers
    ensures b in Step(s, n, l).watchers
    ensures var w, w' := s.watchers[b], Step(s, n, l).watchers[b];
            if l in {Store(b), Look(b), Conclude(b)} then 0 <= WatcherAhead(w', n) < WatcherAhead(w, n) else w' == w
  {
  }

  lemma InSnoc(ls: seq<Label>, l: Label)
    requires ls != []
    ensures l in ls <==> l in ls[..|ls| - 1] || l == ls[|ls| - 1]
  {
  }

  /** A watcher goes on as far as its backend lets it: it stores once the backend has exited, looks
      at every backend, and then finishes, though one that has seen none live only once the
      session is down; and when it has, every backend is dead. */
  lemma {:induction false} WatchersGoOn(n: nat, ls: seq<Label>, b: nat)
    requires Run(Opened(n), n, ls).Some?
    ensures var s := Run(Opened(n), n, ls).value;
            && ScansRight(s, n) && (b in s.watchers <==> b < n)
            && (b < n && s.watchers[b].Watching? ==> (Enabled(s, n, Store(b)) <==> b in s.exited))
            && (b < n && s.watchers[b].Scanning? && s.watchers[b].at < n ==> Enabled(s, n, Look(b)) && !Enabled(s, n, Conclude(b)))
            && (b < n && s.watchers[b].Scanning? && s.watchers[b].at == n ==>
                  && (Enabled(s, n, Conclude(b)) <==> s.watchers[b].live > 0 || s.stop.Done?)
                  && (s.watchers[b].live == 0 ==> forall x: nat :: x < n ==> x in s.dead))
  {
    RunKeeps(n, ls);
    ScansStayRight(n, ls);
  }

  lemma {:induction false} ScansStayRight(n: nat, ls: seq<Label>)
    requires Run(Opened(n), n, ls).Some?
    ensures ScansRight(Run(Opened(n), n, ls).value, n)
  {
    if ls != [] {
      ScansStayRight(n, ls[..|ls| - 1]);
      StepScans(Run(Opened(n), n, ls[..|ls| - 1]).value, n, ls[|ls| - 1]);
    }
  }

  lemma StepExits(s: State, n: nat, l: Label, b: nat)
    requires Enabled(s, n, l)
    ensures b in Step(s, n, l).exited <==> b in s.exited || l == Exit(b) || (l.StopBackend? && b == s.stop.next)
    ensures b in Step(s, n, l).stoppedBackends <==> b in s.stoppedBackends || (l.StopBackend? && b == s.stop.next)
  {
  }

  /** A backend is known to have exited exactly when it did or was stopped. */
  lemma {:induction false} ExitsAreReal(n: nat, ls: seq<Label>, b: nat)
    requires Run(Opened(n), n, ls).Some?
    ensures var s := Run(Opened(n), n, ls).value; b in s.exited <==> Exit(b) in ls || b in s.stoppedBackends
  {
    if ls != [] {
      var init, last := ls[..|ls| - 1], ls[|ls| - 1];
      ExitsAreReal(n, init, b);
      StepExits(Run(Opened(n), n, init).value, n, last, b);
      InSnoc(ls, Exit(b));
    }
  }
}
