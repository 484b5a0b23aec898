/** The subscriber and its loop as they run: a buffered channel, a flag and a status slot,
    and the code that turns them into frames. Each method is a run of the atomic steps of
    the feed, with nothing in between, and does to what can be seen exactly what the pure
    functions here say. */
module StreamLoop {
  import opened Optional
  import opened StreamFeed

  /** What is written to the client. */
  datatype Sent<E> = SentStatus | SentResync | SentEvent(event: E) | SentHeartbeat

  /** What wakes the loop's select. */
  datatype Wake = ClientGone | Beat(stay: bool) | Event

  /** Where the loop stands. `Holding` has been handed an event by an unbuffered channel. */
  datatype Stand = Looping | Checking | Draining | Selecting | Holding | Over | Writing

  /** What can be seen of a subscriber: its fields, and where its loop stands. */
  datatype View<E> = View(events: seq<E>, hand: Option<E>, resync: bool, status: bool, sent: seq<Sent<E>>, at: Stand)

  function Start<E>(): View<E> {
    View([], None, false, false, [], Looping)
  }

  // ----- What the loop does to it -----

  /** A pending status change is written before anything else. */
  function StatusView<E>(v: View<E>, ok: bool): View<E> {
    if !v.status then v.(at := Checking)
    else if ok then v.(status := false, sent := v.sent + [SentStatus], at := Checking)
    else v.(status := false, at := Over)
  }

  /** A pending resync throws the backlog away and tells the client to refetch. */
  function ResyncView<E>(v: View<E>, ok: bool): View<E> {
    if !v.resync then v.(at := Selecting)
    else if ok then v.(resync := false, events := [], sent := v.sent + [SentResync], at := Selecting)
    else v.(resync := false, events := [], at := Over)
  }

  /** A delivery never blocks. */
  function DeliverView<E>(capacity: nat, v: View<E>, event: E): View<E> {
    if |v.events| < capacity then v.(events := v.events + [event])
    else if capacity == 0 && v.at.Selecting? then v.(hand := Some(event), at := Holding)
    else v.(resync := true)
  }

  function DeliverAllView<E>(capacity: nat, v: View<E>, arrivals: seq<E>): View<E> {
    if arrivals == [] then v
    else DeliverView(capacity, DeliverAllView(capacity, v, arrivals[..|arrivals| - 1]), arrivals[|arrivals| - 1])
  }

  function SendView<E>(v: View<E>, event: E, outcome: Outcome): View<E> {
    match outcome
    case Written => v.(sent := v.sent + [SentEvent(event)], at := Looping)
    case Skipped => v.(at := Looping)
    case Broken => v.(at := Over)
  }

  /** One return of the select. With nothing to receive it does not return for an event. */
  function WakeView<E>(v: View<E>, wake: Wake, outcome: Outcome): View<E> {
    if v.hand.Some? then SendView(v.(hand := None), v.hand.value, outcome)
    else
      match wake
      case ClientGone => v.(at := Over)
      case Beat(stay) => if stay then v.(sent := v.sent + [SentHeartbeat], at := Looping) else v.(at := Over)
      case Event => if v.events == [] then v else SendView(v.(events := v.events[1..]), v.events[0], outcome)
  }

  /** What happens around one wake-up: how writes end, and what the informer does while
      the loop is in its select. */
  datatype Turn<E> = Turn(
    statusOk: bool, resyncOk: bool, recovered: bool, changed: bool, arrivals: seq<E>, wake: Wake, outcome: Outcome)

  /** The select: what the informer does meanwhile, and what it returns with. */
  function WaitView<E>(capacity: nat, v: View<E>, t: Turn<E>): View<E> {
    var told := v.(resync := v.resync || t.recovered, status := v.status || t.changed);
    WakeView(DeliverAllView(capacity, told, t.arrivals), t.wake, t.outcome)
  }

  function TurnView<E>(capacity: nat, v: View<E>, t: Turn<E>): View<E> {
    var a := StatusView(v, t.statusOk);
    if a.at.Over? then a
    else
      var b := ResyncView(a, t.resyncOk);
      if b.at.Over? then b else WaitView(capacity, b, t)
  }

  /** The loop over its turns, until it ends or its select has nothing to receive. */
  function TurnsView<E>(capacity: nat, turns: seq<Turn<E>>): View<E> {
    if turns == [] then Start()
    else
      var v := TurnsView(capacity, turns[..|turns| - 1]);
      if v.at.Looping? then TurnView(capacity, v, turns[|turns| - 1]) else v
  }

  // ----- The feed's state, as the subscriber's fields -----

  ghost predicate Within(at: seq<nat>, n: nat) {
    forall i | 0 <= i < |at| :: at[i] < n
  }

  ghost predicate FramesWithin(frames: seq<Frame>, n: nat) {
    forall i | 0 <= i < |frames| :: frames[i].EventFrame? ==> frames[i].at < n
  }

  /** The events at these positions. */
  function At<E>(delivered: seq<E>, at: seq<nat>): seq<E>
    requires forall i | 0 <= i < |at| :: at[i] < |delivered|
  {
    seq(|at|, i requires 0 <= i < |at| => delivered[at[i]])
  }

  function Shown<E>(delivered: seq<E>, f: Frame): Sent<E>
    requires f.EventFrame? ==> f.at < |delivered|
  {
    match f
    case StatusFrame => SentStatus
    case ResyncFrame => SentResync
    case EventFrame(at) => SentEvent(delivered[at])
    case Heartbeat => SentHeartbeat
  }

  function ShownAll<E>(delivered: seq<E>, frames: seq<Frame>): seq<Sent<E>>
    requires forall i | 0 <= i < |frames| :: frames[i].EventFrame? ==> frames[i].at < |delivered|
  {
    seq(|frames|, i requires 0 <= i < |frames| => Shown(delivered, frames[i]))
  }

  function Standing(pc: Pc): Stand {
    match pc
    case Top => Looping
    case SendStatus => Writing
    case CheckResync => Checking
    case Draining => Stand.Draining
    case Resyncing(_) => Writing
    case Waiting => Selecting
    case Sending(_) => Holding
    case Closed => Over
  }

  /** The client has been sent what these frames say. */
  ghost predicate Sees<E>(sent: seq<Sent<E>>, delivered: seq<E>, frames: seq<Frame>) {
    FramesWithin(frames, |delivered|) && sent == ShownAll(delivered, frames)
  }

  /** The view mirrors the feed. */
  ghost predicate Mirrors<E>(v: View<E>, s: State<E>) {
    && s.raising == 0 && s.flag == v.resync && s.status == v.status && v.at == Standing(s.pc) && |s.queue| <= s.capacity
    && Within(s.queue, |s.delivered|) && v.events == At(s.delivered, s.queue)
    && (s.pc.Sending? ==> s.pc.at < |s.delivered| && v.hand == Some(s.delivered[s.pc.at]))
    && (!s.pc.Sending? ==> v.hand == None)
    && Sees(v.sent, s.delivered, s.frames)
  }

  /** The subscriber is the same and nothing more was delivered to it. */
  ghost predicate SameFeed<E>(s: State<E>, t: State<E>) {
    t.capacity == s.capacity && t.delivered == s.delivered
  }

  lemma SeesMore<E>(sent: seq<Sent<E>>, delivered: seq<E>, frames: seq<Frame>, f: Frame)
    requires Sees(sent, delivered, frames) && (f.EventFrame? ==> f.at < |delivered|)
    ensures Sees(sent + [Shown(delivered, f)], delivered, frames + [f])
  {
  }

  lemma SeesOn<E>(sent: seq<Sent<E>>, delivered: seq<E>, frames: seq<Frame>, event: E)
    requires Sees(sent, delivered, frames)
    ensures Sees(sent, delivered + [event], frames)
  {
    assert ShownAll(delivered + [event], frames) == ShownAll(delivered, frames);
  }

  lemma QueueOn<E>(delivered: seq<E>, queue: seq<nat>, event: E)
    requires Within(queue, |delivered|)
    ensures Within(queue, |delivered + [event]|) && At(delivered + [event], queue) == At(delivered, queue)
    ensures At(delivered + [event], queue + [|delivered|]) == At(delivered, queue) + [event]
  {
  }

  lemma QueueTail<E>(delivered: seq<E>, queue: seq<nat>)
    requires Within(queue, |delivered|) && queue != []
    ensures Within(queue[1..], |delivered|) && At(delivered, queue[1..]) == At(delivered, queue)[1..]
    ensures At(delivered, queue)[0] == delivered[queue[0]]
  {
  }

  /** A run followed by a run. */
  lemma Joined<E>(s0: State<E>, s1: State<E>, s2: State<E>, a: seq<Label<E>>, b: seq<Label<E>>) returns (r: seq<Label<E>>)
    requires Run(s0, a) == Some(s1) && Run(s1, b) == Some(s2)
    ensures Run(s0, r) == Some(s2)
    decreases |b|
  {
    if b == [] {
      r := a;
    } else {
      var mid := Run(s1, b[..|b| - 1]).value;
      r := Joined(s0, s1, mid, a, b[..|b| - 1]);
      r := Then(s0, mid, r, b[|b| - 1]);
    }
  }

  // ----- Each step of the code, as steps of the feed -----

  lemma StatusMirrors<E>(v: View<E>, s: State<E>, ok: bool) returns (ls: seq<Label<E>>, t: State<E>)
    requires Mirrors(v, s) && v.at.Looping?
    ensures Run(s, ls) == Some(t) && Mirrors(StatusView(v, ok), t) && SameFeed(s, t)
  {
    ls := Then(s, s, [], TakeStatus);
    t := Step(s, TakeStatus);
    if v.status {
      SeesMore(v.sent, s.delivered, s.frames, StatusFrame);
      ls := Then(s, t, ls, WriteStatus(ok));
      t := Step(t, WriteStatus(ok));
    }
  }

  lemma DrainMirrors<E>(v: View<E>, s: State<E>) returns (ls: seq<Label<E>>, t: State<E>)
    requires Mirrors(v, s) && v.at.Draining?
    ensures Run(s, ls) == Some(t) && Mirrors(v.(events := [], at := Writing), t) && SameFeed(s, t) && t.pc.Resyncing?
    decreases |s.queue|
  {
    if s.queue == [] {
      ls := Then(s, s, [], DrainEnd);
      t := Step(s, DrainEnd);
    } else {
      QueueTail(s.delivered, s.queue);
      var first := Then(s, s, [], DrainOne);
      var u := Step(s, DrainOne);
      var rest: seq<Label<E>>;
      rest, t := DrainMirrors(v.(events := v.events[1..]), u);
      ls := Joined(s, u, t, first, rest);
    }
  }

  lemma ResyncMirrors<E>(v: View<E>, s: State<E>, ok: bool) returns (ls: seq<Label<E>>, t: State<E>)
    requires Mirrors(v, s) && v.at.Checking?
    ensures Run(s, ls) == Some(t) && Mirrors(ResyncView(v, ok), t) && SameFeed(s, t)
  {
    ls := Then(s, s, [], TakeResync);
    t := Step(s, TakeResync);
    if v.resync {
      var u := t;
      var more: seq<Label<E>>;
      more, t := DrainMirrors(v.(resync := false, at := Stand.Draining), u);
      ls := Joined(s, u, t, ls, more);
      u := t;
      more, t := TellMirrors(v.(resync := false, events := [], at := Writing), u, ok);
      ls := Joined(s, u, t, ls, more);
    }
  }

  /** The drained subscriber is told to refetch. */
  lemma TellMirrors<E>(v: View<E>, s: State<E>, ok: bool) returns (ls: seq<Label<E>>, t: State<E>)
    requires Mirrors(v, s) && s.pc.Resyncing?
    ensures Run(s, ls) == Some(t) && SameFeed(s, t)
    ensures Mirrors(if ok then v.(sent := v.sent + [SentResync], at := Selecting) else v.(at := Over), t)
  {
    SeesMore(v.sent, s.delivered, s.frames, ResyncFrame);
    ls := Then(s, s, [], WriteResync(ok));
    t := Step(s, WriteResync(ok));
  }

  lemma DeliverMirrors<E>(v: View<E>, s: State<E>, event: E) returns (ls: seq<Label<E>>, t: State<E>)
    requires Mirrors(v, s)
    ensures Run(s, ls) == Some(t) && Mirrors(DeliverView(s.capacity, v, event), t)
    ensures t.capacity == s.capacity && t.delivered == s.delivered + [event]
  {
    QueueOn(s.delivered, s.queue, event);
    SeesOn(v.sent, s.delivered, s.frames, event);
    ls := Then(s, s, [], TrySend(event));
    t := Step(s, TrySend(event));
    if t.raising > 0 {
      ls := Then(s, t, ls, RaiseFlag);
      t := Step(t, RaiseFlag);
    }
  }

  lemma SendMirrors<E>(v: View<E>, s: State<E>, outcome: Outcome) returns (ls: seq<Label<E>>, t: State<E>)
    requires Mirrors(v, s) && v.at.Holding?
    ensures Run(s, ls) == Some(t) && Mirrors(SendView(v.(hand := None), v.hand.value, outcome), t) && SameFeed(s, t)
  {
    SeesMore(v.sent, s.delivered, s.frames, EventFrame(s.pc.at));
    ls := Then(s, s, [], WriteEvent(outcome));
    t := Step(s, WriteEvent(outcome));
  }

  lemma ReceiveMirrors<E>(v: View<E>, s: State<E>) returns (ls: seq<Label<E>>, t: State<E>)
    requires Mirrors(v, s) && v.at.Selecting? && v.events != []
    ensures Run(s, ls) == Some(t) && SameFeed(s, t)
    ensures Mirrors(v.(events := v.events[1..], hand := Some(v.events[0]), at := Holding), t)
  {
    QueueTail(s.delivered, s.queue);
    ls := Then(s, s, [], Receive);
    t := Step(s, Receive);
  }

  lemma WakeMirrors<E>(v: View<E>, s: State<E>, wake: Wake, outcome: Outcome) returns (ls: seq<Label<E>>, t: State<E>)
    requires Mirrors(v, s) && (v.at.Selecting? || v.at.Holding?)
    ensures Run(s, ls) == Some(t) && Mirrors(WakeView(v, wake, outcome), t) && SameFeed(s, t)
  {
    if v.hand.Some? {
      ls, t := SendMirrors(v, s, outcome);
    } else if wake.Event? {
      ls, t := EventMirrors(v, s, outcome);
    } else {
      ls, t := BeatMirrors(v, s, wake, outcome);
    }
  }

  lemma BeatMirrors<E>(v: View<E>, s: State<E>, wake: Wake, outcome: Outcome) returns (ls: seq<Label<E>>, t: State<E>)
    requires Mirrors(v, s) && v.at.Selecting? && !wake.Event?
    ensures Run(s, ls) == Some(t) && Mirrors(WakeView(v, wake, outcome), t) && SameFeed(s, t)
  {
    if wake.ClientGone? {
      ls := Then(s, s, [], Cancel);
      t := Step(s, Cancel);
    } else {
      SeesMore(v.sent, s.delivered, s.frames, Heartbeat);
      ls := Then(s, s, [], Tick(wake.stay));
      t := Step(s, Tick(wake.stay));
    }
  }

  lemma EventMirrors<E>(v: View<E>, s: State<E>, outcome: Outcome) returns (ls: seq<Label<E>>, t: State<E>)
    requires Mirrors(v, s) && v.at.Selecting?
    ensures Run(s, ls) == Some(t) && Mirrors(WakeView(v, Event, outcome), t) && SameFeed(s, t)
  {
    if v.events == [] {
      ls, t := [], s;
    } else {
      var u: State<E>;
      var more: seq<Label<E>>;
      ls, u := ReceiveMirrors(v, s);
      more, t := SendMirrors(v.(events := v.events[1..], hand := Some(v.events[0]), at := Holding), u, outcome);
      ls := Joined(s, u, t, ls, more);
    }
  }

  lemma SignalMirrors<E>(v: View<E>, s: State<E>, recovered: bool, changed: bool) returns (ls: seq<Label<E>>, t: State<E>)
    requires Mirrors(v, s)
    ensures Run(s, ls) == Some(t) && SameFeed(s, t)
    ensures Mirrors(v.(resync := v.resync || recovered, status := v.status || changed), t)
  {
    ls, t := [], s;
    if recovered {
      ls := Then(s, t, ls, BroadcastResync);
      t := Step(t, BroadcastResync);
    }
    if changed {
      ls := Then(s, t, ls, BroadcastStatus);
      t := Step(t, BroadcastStatus);
    }
  }

  // ----- The subscriber -----

  class Subscriber<E(!new)> {
    const capacity: nat
    var events: seq<E>
    var hand: Option<E>
    var resync: bool
    var status: bool
    var sent: seq<Sent<E>>
    var at: Stand
    ghost var feed: State<E>

    ghost function See(): View<E>
      reads this
    {
      View(events, hand, resync, status, sent, at)
    }

    ghost predicate Valid()
      reads this
    {
      feed.capacity == capacity && Mirrors(See(), feed)
    }

    constructor (buffer: nat)
      ensures Valid() && capacity == buffer && feed == Opened<E>(buffer) && See() == Start()
    {
      capacity, events, hand, resync, status, sent := buffer, [], None, false, false, [];
      at, feed := Looping, Opened<E>(buffer);
    }

    /** Hands one matching notification to the subscriber, never blocking: into the buffer,
        to the waiting reader of an unbuffered channel, or dropped and flagged. */
    method Deliver(event: E) returns (ghost ls: seq<Label<E>>)
      requires Valid()
      modifies this
      ensures Valid() && Run(old(feed), ls) == Some(feed) && See() == DeliverView(capacity, old(See()), event)
      ensures feed.delivered == old(feed.delivered) + [event]
    {
      ghost var t;
      ls, t := DeliverMirrors(See(), feed, event);
      if |events| < capacity {
        events := events + [event];
      } else if capacity == 0 && at.Selecting? {
        hand, at := Some(event), Holding;
      } else {
        resync := true;
      }
      feed := t;
    }

    /** Reports a pending status change, clearing it, and writes it. */
    method SurfaceStatus(ok: bool) returns (ghost ls: seq<Label<E>>)
      requires Valid() && at.Looping?
      modifies this
      ensures Valid() && Run(old(feed), ls) == Some(feed) && See() == StatusView(old(See()), ok)
      ensures feed.delivered == old(feed.delivered)
    {
      ghost var t;
      ls, t := StatusMirrors(See(), feed, ok);
      var due := status;
      status := false;
      at := if due && !ok then Over else Checking;
      if due && ok { sent := sent + [SentStatus]; }
      feed := t;
    }

    /** Discards everything queued. */
    method DrainEvents()
      modifies `events
      ensures events == []
    {
      while events != []
        modifies `events
        decreases |events|
      {
        events := events[1..];
      }
    }

    /** Serves a pending resync: drops the stale backlog, then tells the client to refetch. */
    method SurfaceResync(ok: bool) returns (ghost ls: seq<Label<E>>)
      requires Valid() && at.Checking?
      modifies this
      ensures Valid() && Run(old(feed), ls) == Some(feed) && See() == ResyncView(old(See()), ok)
      ensures feed.delivered == old(feed.delivered)
    {
      ghost var t;
      ls, t := ResyncMirrors(See(), feed, ok);
      var due := resync;
      resync := false;
      if due {
        DrainEvents();
        if ok { sent := sent + [SentResync]; }
      }
      at := if due && !ok then Over else Selecting;
      feed := t;
    }

    /** Writes an event; a broken write ends the loop, one that cannot be encoded does not. */
    method SendEvent(event: E, outcome: Outcome)
      modifies `sent, `at
      ensures See() == SendView(old(See()), event, outcome)
    {
      at := if outcome.Broken? then Over else Looping;
      if outcome.Written? { sent := sent + [SentEvent(event)]; }
    }

    /** One return of the select: an event, a heartbeat or the end. */
    method Wake(wake: Wake, outcome: Outcome) returns (ghost ls: seq<Label<E>>)
      requires Valid() && (at.Selecting? || at.Holding?)
      modifies this
      ensures Valid() && Run(old(feed), ls) == Some(feed) && See() == WakeView(old(See()), wake, outcome)
      ensures feed.delivered == old(feed.delivered)
    {
      ghost var t;
      ls, t := WakeMirrors(See(), feed, wake, outcome);
      Select(wake, outcome);
      feed := t;
    }

    method Select(wake: Wake, outcome: Outcome)
      modifies `events, `hand, `sent, `at
      ensures See() == WakeView(old(See()), wake, outcome)
    {
      if hand.Some? {
        var event := hand.value;
        hand := None;
        SendEvent(event, outcome);
        return;
      }
      match wake
      case ClientGone => at := Over;
      case Beat(stay) =>
        at := if stay then Looping else Over;
        if stay { sent := sent + [SentHeartbeat]; }
      case Event =>
        if events != [] {
          var event := events[0];
          events := events[1..];
          SendEvent(event, outcome);
        }
    }

    method DeliverAll(arrivals: seq<E>) returns (ghost ls: seq<Label<E>>)
      requires Valid()
      modifies this
      ensures Valid() && Run(old(feed), ls) == Some(feed) && See() == DeliverAllView(capacity, old(See()), arrivals)
      ensures feed.delivered == old(feed.delivered) + arrivals
    {
      ghost var s0, v := feed, See();
      ls := [];
      var i := 0;
      while i < |arrivals|
        invariant 0 <= i <= |arrivals| && Valid() && Run(s0, ls) == Some(feed)
        invariant See() == DeliverAllView(capacity, v, arrivals[..i]) && feed.delivered == s0.delivered + arrivals[..i]
      {
        DeliverNext(capacity, v, arrivals, i, s0.delivered);
        ghost var s1, more := feed, [];
        more := Deliver(arrivals[i]);
        ls := Joined(s0, s1, feed, ls, more);
        i := i + 1;
      }
      assert arrivals[..i] == arrivals;
    }

    /** What the informer does while the loop waits: an outage or recovery is announced,
        then notifications arrive. */
    method Arrive(recovered: bool, changed: bool, arrivals: seq<E>) returns (ghost ls: seq<Label<E>>)
      requires Valid() && at.Selecting?
      modifies this
      ensures Valid() && Run(old(feed), ls) == Some(feed)
      ensures var v := old(See());
              See() == DeliverAllView(capacity, v.(resync := v.resync || recovered, status := v.status || changed), arrivals)
      ensures feed.delivered == old(feed.delivered) + arrivals
    {
      ghost var s0, s1, more := feed, feed, [];
      ls, s1 := SignalMirrors(See(), feed, recovered, changed);
      resync, status, feed := resync || recovered, status || changed, s1;
      more := DeliverAll(arrivals);
      ls := Joined(s0, s1, feed, ls, more);
    }

    /** The loop's select, and what the informer does while it waits. */
    method Await(t: Turn<E>) returns (ghost ls: seq<Label<E>>)
      requires Valid() && at.Selecting?
      modifies this
      ensures Valid() && Run(old(feed), ls) == Some(feed) && See() == WaitView(capacity, old(See()), t)
      ensures feed.delivered == old(feed.delivered) + t.arrivals
    {
      ghost var s0 := feed;
      StillWaits(capacity, See().(resync := resync || t.recovered, status := status || t.changed), t.arrivals);
      ls := Arrive(t.recovered, t.changed, t.arrivals);
      ghost var s1, more := feed, [];
      more := Wake(t.wake, t.outcome);
      ls := Joined(s0, s1, feed, ls, more);
    }

    /** One turn of the loop. */
    method TakeTurn(t: Turn<E>) returns (ghost ls: seq<Label<E>>)
      requires Valid() && at.Looping?
      modifies this
      ensures Valid() && Run(old(feed), ls) == Some(feed) && See() == TurnView(capacity, old(See()), t)
      ensures Arrived(old(feed.delivered), feed.delivered, t.arrivals, at)
    {
      ghost var s0, s1, more := feed, feed, [];
      ls := SurfaceStatus(t.statusOk);
      if at.Over? { return; }
      s1 := feed;
      more := SurfaceResync(t.resyncOk);
      ls := Joined(s0, s1, feed, ls, more);
      if at.Over? { return; }
      s1 := feed;
      more := Await(t);
      ls := Joined(s0, s1, feed, ls, more);
    }

    /** The stream's loop over its turns: every notification that arrives while it waits is
        delivered to the feed; it stops when it ends or when its select has
        nothing to receive, and otherwise takes every turn. */
    method RunSse(turns: seq<Turn<E>>) returns (ghost ls: seq<Label<E>>, taken: nat)
      requires Valid() && feed == Opened<E>(capacity) && See() == Start()
      modifies this
      ensures Valid() && Run(Opened<E>(capacity), ls) == Some(feed)
      ensures See() == TurnsView(capacity, turns)
      ensures taken <= |turns| && (taken == |turns| || at.Over? || (at.Selecting? && events == []))
      ensures AllArrived(turns, taken, feed.delivered, at)
    {
      ls, taken := [], 0;
      NoTurnsYet<E>(capacity, turns);
      while taken < |turns| && at.Looping?
        invariant 0 <= taken <= |turns| && Valid() && Run(Opened<E>(capacity), ls) == Some(feed)
        invariant Reaches(capacity, turns, taken, See())
        invariant AllArrived(turns, taken, feed.delivered, at)
        decreases |turns| - taken
      {
        NextTurn(capacity, turns, taken, See());
        ghost var s1, more := feed, [];
        more := TakeTurn(turns[taken]);
        ArrivedNext(turns, taken, s1.delivered, feed.delivered, at);
        ls := Joined(Opened<E>(capacity), s1, feed, ls, more);
        taken := taken + 1;
      }
      StaysPut(capacity, turns, taken);
    }
  }

  lemma DeliverNext<E>(capacity: nat, v: View<E>, arrivals: seq<E>, i: nat, before: seq<E>)
    requires i < |arrivals|
    ensures DeliverAllView(capacity, v, arrivals[..i + 1]) == DeliverView(capacity, DeliverAllView(capacity, v, arrivals[..i]), arrivals[i])
    ensures before + arrivals[..i + 1] == before + arrivals[..i] + [arrivals[i]]
  {
    assert arrivals[..i + 1][..i] == arrivals[..i];
  }

  /** What the turns' waits bring. */
  function Arrivals<E>(turns: seq<Turn<E>>): seq<E> {
    if turns == [] then [] else Arrivals(turns[..|turns| - 1]) + turns[|turns| - 1].arrivals
  }

  /** A turn delivers what arrives in its wait, unless the stream is over before the wait. */
  ghost predicate Arrived<E>(before: seq<E>, after: seq<E>, arrivals: seq<E>, at: Stand) {
    after == before + arrivals || (at.Over? && after == before)
  }

  /** After so many turns. */
  ghost predicate AllArrived<E>(turns: seq<Turn<E>>, taken: nat, delivered: seq<E>, at: Stand)
    requires taken <= |turns|
  {
    if taken == 0 then delivered == [] else Arrived(Arrivals(turns[..taken - 1]), delivered, turns[taken - 1].arrivals, at)
  }

  lemma ArrivedNext<E>(turns: seq<Turn<E>>, taken: nat, before: seq<E>, after: seq<E>, at: Stand)
    requires taken < |turns| && AllArrived(turns, taken, before, Looping) && Arrived(before, after, turns[taken].arrivals, at)
    ensures AllArrived(turns, taken + 1, after, at)
  {
    if taken > 0 { assert turns[..taken][..taken - 1] == turns[..taken - 1]; }
    assert Arrivals(turns[..taken]) == before;
  }

  /** Arrivals leave the loop in its select, or holding the one it was handed. */
  lemma {:induction false} StillWaits<E>(capacity: nat, v: View<E>, arrivals: seq<E>)
    requires v.at.Selecting? && v.hand.None?
    ensures var w := DeliverAllView(capacity, v, arrivals); (w.at.Selecting? && w.hand.None?) || (w.at.Holding? && w.hand.Some?)
  {
    if arrivals != [] { StillWaits(capacity, v, arrivals[..|arrivals| - 1]); }
  }

  /** What is seen after this many turns; a loop that is neither looping nor over waits in
      its select with nothing to receive. */
  ghost predicate Reaches<E>(capacity: nat, turns: seq<Turn<E>>, taken: nat, v: View<E>)
    requires taken <= |turns|
  {
    v == TurnsView(capacity, turns[..taken]) && Settled(v)
  }

  ghost predicate Settled<E>(v: View<E>) {
    v.hand.None? && (v.at.Looping? || v.at.Over? || (v.at.Selecting? && v.events == []))
  }

  lemma NoTurnsYet<E>(capacity: nat, turns: seq<Turn<E>>)
    ensures Reaches(capacity, turns, 0, Start())
  {
    assert turns[..0] == [];
  }

  lemma WakeSettles<E>(v: View<E>, wake: Wake, outcome: Outcome)
    requires (v.at.Selecting? && v.hand.None?) || (v.at.Holding? && v.hand.Some?)
    ensures Settled(WakeView(v, wake, outcome))
  {
  }

  lemma TurnSettles<E>(capacity: nat, v: View<E>, t: Turn<E>)
    requires v.at.Looping? && v.hand.None?
    ensures Settled(TurnView(capacity, v, t))
  {
    var a := StatusView(v, t.statusOk);
    if !a.at.Over? {
      var b := ResyncView(a, t.resyncOk);
      if !b.at.Over? { WaitSettles(capacity, b, t); }
    }
  }

  lemma WaitSettles<E>(capacity: nat, v: View<E>, t: Turn<E>)
    requires v.at.Selecting? && v.hand.None?
    ensures Settled(WaitView(capacity, v, t))
  {
    var told := v.(resync := v.resync || t.recovered, status := v.status || t.changed);
    StillWaits(capacity, told, t.arrivals);
    WakeSettles(DeliverAllView(capacity, told, t.arrivals), t.wake, t.outcome);
  }

  lemma NextTurn<E>(capacity: nat, turns: seq<Turn<E>>, taken: nat, v: View<E>)
    requires taken < |turns| && Reaches(capacity, turns, taken, v) && v.at.Looping?
    ensures Reaches(capacity, turns, taken + 1, TurnView(capacity, v, turns[taken]))
  {
    var now := turns[..taken + 1];
    assert now[..taken] == turns[..taken] && now[taken] == turns[taken];
    TurnSettles(capacity, v, turns[taken]);
  }

  /** Once it no longer loops, further turns change nothing. */
  lemma {:induction false} StaysPut<E>(capacity: nat, turns: seq<Turn<E>>, taken: nat)
    requires taken <= |turns| && (taken < |turns| ==> !TurnsView(capacity, turns[..taken]).at.Looping?)
    ensures TurnsView(capacity, turns) == TurnsView(capacity, turns[..taken])
    decreases |turns|
  {
    if taken < |turns| {
      var init := turns[..|turns| - 1];
      assert init[..taken] == turns[..taken];
      if taken < |init| { StaysPut(capacity, init, taken); } else { assert init[..taken] == init; }
    } else {
      assert turns[..taken] == turns;
    }
  }

  // ----- Signals reach the client -----

  function SignalOf<E>(resync: bool): Sent<E> {
    if resync then SentResync else SentStatus
  }

  /** Since `n` things were sent the client has been told, or will be, or its stream is over. */
  ghost predicate ToldSince<E>(v: View<E>, resync: bool, n: nat) {
    && n <= |v.sent|
    && ((if resync then v.resync else v.status) || v.at.Over? || exists i :: n <= i < |v.sent| && v.sent[i] == SignalOf<E>(resync))
  }

  lemma StillTold<E>(v: View<E>, v': View<E>, resync: bool, n: nat)
    requires ToldSince(v, resync, n) && v.sent <= v'.sent && !v.at.Over?
    requires (v.resync ==> v'.resync) && (v.status ==> v'.status)
    ensures ToldSince(v', resync, n)
  {
    if i :| n <= i < |v.sent| && v.sent[i] == SignalOf<E>(resync) { assert v'.sent[i] == SignalOf<E>(resync); }
  }

  lemma HeadTells<E>(v: View<E>, t: Turn<E>, resync: bool, n: nat)
    requires ToldSince(v, resync, n) && !v.at.Over?
    ensures var a := StatusView(v, t.statusOk); ToldSince(a, resync, n)
  {
    var a := StatusView(v, t.statusOk);
    if !resync && v.status && t.statusOk { assert a.sent[|v.sent|] == SignalOf<E>(resync); } else if !a.at.Over? { SameTold(v, a, resync, n); }
  }

  lemma SameTold<E>(v: View<E>, v': View<E>, resync: bool, n: nat)
    requires ToldSince(v, resync, n) && v.sent <= v'.sent && !v.at.Over?
    requires if resync then v'.resync == v.resync else v'.status == v.status
    ensures ToldSince(v', resync, n)
  {
    if i :| n <= i < |v.sent| && v.sent[i] == SignalOf<E>(resync) { assert v'.sent[i] == SignalOf<E>(resync); }
  }

  lemma ResyncTells<E>(v: View<E>, ok: bool, resync: bool, n: nat)
    requires ToldSince(v, resync, n) && !v.at.Over?
    ensures ToldSince(ResyncView(v, ok), resync, n)
  {
    var b := ResyncView(v, ok);
    if resync && v.resync && ok { assert b.sent[|v.sent|] == SignalOf<E>(resync); } else if !b.at.Over? { SameTold(v, b, resync, n); }
  }

  lemma {:induction false} ArrivalsTell<E>(capacity: nat, v: View<E>, arrivals: seq<E>, resync: bool, n: nat)
    requires ToldSince(v, resync, n) && !v.at.Over?
    ensures var w := DeliverAllView(capacity, v, arrivals); ToldSince(w, resync, n) && !w.at.Over? && w.sent == v.sent
  {
    if arrivals != [] {
      ArrivalsTell(capacity, v, arrivals[..|arrivals| - 1], resync, n);
      var w := DeliverAllView(capacity, v, arrivals[..|arrivals| - 1]);
      StillTold(w, DeliverView(capacity, w, arrivals[|arrivals| - 1]), resync, n);
    }
  }

  lemma WakeTells<E>(v: View<E>, wake: Wake, outcome: Outcome, resync: bool, n: nat)
    requires ToldSince(v, resync, n) && !v.at.Over?
    ensures ToldSince(WakeView(v, wake, outcome), resync, n)
  {
    StillTold(v, WakeView(v, wake, outcome), resync, n);
  }

  lemma WaitTells<E>(capacity: nat, v: View<E>, t: Turn<E>, resync: bool, n: nat)
    requires !v.at.Over? && n <= |v.sent|
    requires ToldSince(v, resync, n) || (if resync then t.recovered else t.changed)
    ensures ToldSince(WaitView(capacity, v, t), resync, n)
  {
    var told := v.(resync := v.resync || t.recovered, status := v.status || t.changed);
    if ToldSince(v, resync, n) { StillTold(v, told, resync, n); }
    ArrivalsTell(capacity, told, t.arrivals, resync, n);
    WakeTells(DeliverAllView(capacity, told, t.arrivals), t.wake, t.outcome, resync, n);
  }

  lemma TurnTells<E>(capacity: nat, v: View<E>, t: Turn<E>, resync: bool, n: nat)
    requires !v.at.Over? && n <= |v.sent|
    requires ToldSince(v, resync, n) || (if resync then t.recovered else t.changed)
    ensures ToldSince(TurnView(capacity, v, t), resync, n)
  {
    var a := StatusView(v, t.statusOk);
    if ToldSince(v, resync, n) { HeadTells(v, t, resync, n); }
    if !a.at.Over? {
      var b := ResyncView(a, t.resyncOk);
      if ToldSince(a, resync, n) { ResyncTells(a, t.resyncOk, resync, n); }
      if !b.at.Over? { WaitTells(capacity, b, t, resync, n); }
    }
  }

  /** A status change or a recovery announced in the wait of any turn is written to the client in
      a later turn, or is still pending, or the stream is over. */
  lemma {:induction false} SignalsAreServed<E>(capacity: nat, turns: seq<Turn<E>>, i: nat, resync: bool)
    requires i < |turns| && TurnsView(capacity, turns[..i]).at.Looping?
    requires if resync then turns[i].recovered else turns[i].changed
    ensures ToldSince(TurnsView(capacity, turns), resync, |TurnsView(capacity, turns[..i]).sent|)
    decreases |turns|
  {
    var init, n := turns[..|turns| - 1], |TurnsView(capacity, turns[..i]).sent|;
    var v := TurnsView(capacity, init);
    assert init[..i] == turns[..i];
    if i < |init| { SignalsAreServed(capacity, init, i, resync); } else { assert init == turns[..i]; }
    if v.at.Looping? { TurnTells(capacity, v, turns[|turns| - 1], resync, n); }
  }
}
