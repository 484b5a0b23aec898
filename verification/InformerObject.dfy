/** The shared informer as it runs: its fields, the methods that hold its lock, and the
    prober's loop. Each method is one label of the state machine, the loop a run of them. */
module InformerObject {
  import opened Optional
  import opened SharedInformer

  /** How one turn of the prober goes: the stop channel is seen closed, the listing fails
      (or no client can be built), or the cluster answers, perhaps on another client. */
  datatype Attempt = StopSeen | Failed | Answered(moved: bool)

  /** Why a cluster is unreachable: the class of the failure and its text. */
  datatype Info = Info(reason: string, message: string)

  /** What the subscribers have to do with: the current informer, their registrations and what
      they have been told. */
  datatype Held = Holding(epoch: nat, subs: map<nat, nat>, told: seq<bool>)

  class SharedGvrInformer {
    var stopCh: nat
    var stopped: bool
    var started: bool
    var subs: map<nat, nat>
    var unreachable: bool
    var lastStatus: Option<Info>
    var proberOn: bool
    var refs: nat
    ghost var closed: set<nat>
    ghost var running: set<nat>
    ghost var panicked: bool
    ghost var starting: nat
    ghost var probers: seq<Prober>
    ghost var transitions: seq<bool>

    ghost function State(): Informer
      reads this
    {
      Informer(stopCh, closed, running, stopped, started, panicked, subs, unreachable, proberOn, starting, probers, transitions)
    }

    ghost function Held(): Held
      reads `stopCh, `subs, `transitions
    {
      Holding(stopCh, subs, transitions)
    }

    /** A reason is kept exactly while unreachable. */
    ghost predicate Told()
      reads this
    {
      unreachable <==> lastStatus.Some?
    }

    constructor ()
      ensures State() == NEW && refs == 0 && Told()
    {
      stopCh, stopped, started, subs, proberOn, refs := 0, false, false, map[], false, 0;
      unreachable, lastStatus := false, None;
      closed, running, panicked, starting, probers, transitions := {}, {}, false, 0, [], [];
    }

    method CloseChannel()
      modifies `closed, `panicked
      ensures State() == Close(old(State()))
    {
      panicked := panicked || stopCh in closed;
      closed := closed + {stopCh};
    }

    /** Registers a subscriber; during an outage it learns the latest reason at once. */
    method AddSubscriber(sub: nat) returns (status: Option<Info>)
      requires sub !in subs
      modifies `subs
      ensures State() == Step(old(State()), Backoff(0, 0), Add(sub))
      ensures Told() ==> status == lastStatus && (status.Some? <==> unreachable)
    {
      subs := subs[sub := stopCh];
      status := if unreachable then lastStatus else None;
    }

    /** Forgets the subscriber; the registration is removed from the informer it belongs to. */
    method RemoveSubscriber(sub: nat) returns (registration: Option<nat>, informer: nat)
      modifies `subs
      ensures State() == Step(old(State()), Backoff(0, 0), Drop(sub)) && informer == stopCh
      ensures registration == if sub in old(subs) then Some(old(subs[sub])) else None
      ensures RegistrationsRight(old(State())) && registration.Some? ==> registration.value == informer
    {
      registration := if sub in subs then Some(subs[sub]) else None;
      informer := stopCh;
      subs := subs - {sub};
    }

    method EnsureStarted()
      modifies `started, `running
      ensures State() == Step(old(State()), Backoff(0, 0), Start)
    {
      if started { return; }
      started := true;
      running := running + {stopCh};
    }

    /** Records an outage; true when the caller has to start the prober. While already
        unreachable only a new reason is kept, and the first text that came with it. */
    method MarkUnreachable(info: Info) returns (startProber: bool)
      modifies `unreachable, `lastStatus, `proberOn, `starting, `transitions
      ensures State() == Step(old(State()), Backoff(0, 0), SharedInformer.MarkUnreachable)
      ensures startProber == (!old(unreachable) && !old(proberOn))
      ensures lastStatus.Some? && lastStatus.value.reason == info.reason && (old(Told()) ==> Told())
      ensures var known := old(unreachable && lastStatus.Some? && lastStatus.value.reason == info.reason);
              lastStatus == if known then old(lastStatus) else Some(info)
    {
      if unreachable {
        if lastStatus.None? || lastStatus.value.reason != info.reason { lastStatus := Some(info); }
        return false;
      }
      unreachable, lastStatus := true, Some(info);
      transitions := transitions + [true];
      startProber := !proberOn;
      if startProber { starting := starting + 1; }
      proberOn := proberOn || startProber;
    }

    /** Swaps in a new informer and registers every subscriber on it. */
    method RebuildInformer()
      modifies `closed, `panicked, `stopCh, `subs, `running
      ensures State() == Rebuilt(old(State())) && Becomes(old(Held()), Held(), !old(stopped), false)
    {
      if stopped { return; }
      CloseChannel();
      stopCh := stopCh + 1;
      var left := subs.Keys;
      while left != {}
        invariant left <= subs.Keys == old(subs).Keys && stopCh == old(stopCh) + 1
        invariant forall sub :: sub in subs && sub !in left ==> subs[sub] == stopCh
        modifies `subs
        decreases left
      {
        var sub :| sub in left;
        subs := subs[sub := stopCh];
        left := left - {sub};
      }
      assert subs == Rebuilt(old(State())).subs;
      if started { running := running + {stopCh}; }
    }

    /** Clears the outage; the prober that found the cluster leaves. */
    method RecoverNow()
      modifies `proberOn, `unreachable, `lastStatus, `transitions, `probers
      ensures State() == With(Recovered(old(State())), []) && (old(Told()) ==> Told())
      ensures Becomes(old(Held()), Held(), false, old(unreachable)) && !unreachable
    {
      probers := [];
      proberOn := false;
      if !unreachable { return; }
      unreachable, lastStatus := false, None;
      transitions := transitions + [false];
    }

    method Stop()
      modifies `stopped, `closed, `panicked
      ensures State() == Stopped(old(State()))
    {
      if !stopped {
        stopped := true;
        CloseChannel();
      }
    }

    /** The cluster answered: rebuilds when it did so on another client, then recovers. */
    method Answer(moved: bool)
      modifies this
      ensures State() == With(Recovered(if moved then Rebuilt(old(State())) else old(State())), []) && (old(Told()) ==> Told())
      ensures Becomes(old(Held()), Held(), moved && !old(stopped), old(unreachable)) && !unreachable
    {
      if moved { RebuildInformer(); }
      ghost var before := State();
      RecoverNow();
      RebuildIgnoresProbers(before);
    }

    /** One turn of the prober. */
    method TryOnce(b: Backoff, attempt: Attempt, delay: nat, ghost fails: nat) returns (left: bool, next: nat, ghost ls: seq<Label>)
      requires Told() && probers == [Prober(Waiting, delay, fails)] && (attempt.StopSeen? ==> stopped && stopCh in closed)
      modifies this
      ensures Run(old(State()), b, ls) == Some(State()) && left == !attempt.Failed? && Told()
      ensures left ==> probers == [] && !proberOn && (old(stopped) || !unreachable) && next == delay
      ensures !left ==> next == Double(delay, b.cap) && probers == [Prober(Waiting, next, fails + 1)]
      ensures !left ==> proberOn == old(proberOn) && unreachable == old(unreachable)
      ensures !left ==> stopped == old(stopped) && closed == old(closed)
      ensures Serves(old(Held()), Held(), attempt, old(stopped), old(unreachable))
    {
      next := delay;
      match attempt
      case StopSeen =>
        ls := Leave(State(), b, delay, fails);
        probers, proberOn := [], false;
        return true, next, ls;
      case Answered(moved) =>
        ls := Come(State(), b, delay, fails, moved);
        Answer(moved);
        return true, next, ls;
      case Failed =>
        ls := Retry(State(), b, delay, fails);
        if delay < b.cap {
          next := delay * 2;
          if next > b.cap { next := b.cap; }
        }
        probers := [Prober(Waiting, next, fails + 1)];
        return false, next, ls;
    }

    /** One turn of the prober after others. */
    method TryAgain(b: Backoff, attempt: Attempt, delay: nat, ghost fails: nat, ghost s0: Informer, ghost before: seq<Label>)
        returns (left: bool, next: nat, ghost ls: seq<Label>)
      requires Told() && probers == [Prober(Waiting, delay, fails)] && (attempt.StopSeen? ==> stopped && stopCh in closed)
      requires Run(s0, b, before) == Some(State()) && Paused(b, fails, delay)
      modifies this
      ensures Told() && Run(s0, b, ls) == Some(State()) && left == !attempt.Failed?
      ensures left ==> probers == [] && !proberOn && (old(stopped) || !unreachable) && Paused(b, fails, next)
      ensures !left ==> probers == [Prober(Waiting, next, fails + 1)] && Paused(b, fails + 1, next)
      ensures !left ==> proberOn == old(proberOn) && unreachable == old(unreachable)
      ensures !left ==> stopped == old(stopped) && closed == old(closed)
      ensures Serves(old(Held()), Held(), attempt, old(stopped), old(unreachable))
    {
      ghost var s, more := State(), [];
      left, next, more := TryOnce(b, attempt, delay, fails);
      ls := Joined(s0, s, State(), b, before, more);
    }

    method EnterLoop(b: Backoff) returns (ghost ls: seq<Label>)
      requires starting == 1 && probers == []
      modifies `starting, `probers
      ensures Held() == old(Held())
      ensures State() == With(old(State()), [Prober(Waiting, b.base, 0)]).(starting := 0)
      ensures Run(old(State()), b, ls) == Some(State())
    {
      ls := Then(State(), State(), b, [], Spawn);
      starting, probers := 0, [Prober(Waiting, b.base, 0)];
      assert [] + probers == probers;
    }

    /** The prober's loop over its attempts. It returns once it has recovered the informer
        or seen the stop, at its first attempt that does not fail; otherwise it is still
        waiting. Its pause is the one the attempts so far have earned. */
    method RunProber(b: Backoff, attempts: seq<Attempt>) returns (left: bool, tries: nat, delay: nat, ghost ls: seq<Label>)
      requires Told() && starting == 1 && probers == [] && (stopped <==> stopCh in closed)
      requires !stopped ==> NoStop(attempts)
      modifies this
      ensures Run(old(State()), b, ls) == Some(State()) && Told()
      ensures tries == Misses(attempts) && left == (tries < |attempts|)
      ensures left ==> probers == [] && !proberOn && (old(stopped) || !unreachable)
      ensures !left ==> probers == [Prober(Waiting, delay, tries)]
      ensures !left ==> proberOn == old(proberOn) && unreachable == old(unreachable)
      ensures Paused(b, tries, delay)
      ensures if left then Serves(old(Held()), Held(), attempts[tries], old(stopped), old(unreachable)) else Held() == old(Held())
    {
      ghost var s0 := State();
      ls := EnterLoop(b);
      delay, left := b.base, false;
      tries := 0;
      while tries < |attempts|
        invariant 0 <= tries <= |attempts| && !left && Told() && Paused(b, tries, delay)
        invariant probers == [Prober(Waiting, delay, tries)] && proberOn == old(proberOn) && unreachable == old(unreachable)
        invariant stopped == old(stopped) && stopCh == old(stopCh) && closed == old(closed) && Held() == old(Held())
        invariant Run(s0, b, ls) == Some(State())
        invariant Misses(attempts) == tries + Misses(attempts[tries..])
      {
        MissesNext(attempts, tries);
        left, delay, ls := TryAgain(b, attempts[tries], delay, tries, s0, ls);
        if left { return; }
        tries := tries + 1;
      }
    }
  }

  /** A rebuild moves every subscriber to the next informer; a recovery is told once; otherwise
      all stays as it is. */
  ghost predicate Becomes(h: Held, h': Held, rebuilt: bool, recovered: bool) {
    && h'.told == (if recovered then h.told + [false] else h.told)
    && (if rebuilt then h'.epoch == h.epoch + 1 && h'.subs.Keys == h.subs.Keys && forall sub :: sub in h'.subs ==> h'.subs[sub] == h'.epoch
        else h'.epoch == h.epoch && h'.subs == h.subs)
  }

  /** An attempt that is answered ends the outage, and on another client rebuilds first unless the
      informer is stopped; any other attempt changes nothing for the subscribers. */
  ghost predicate Serves(h: Held, h': Held, attempt: Attempt, stopped: bool, unreachable: bool) {
    Becomes(h, h', attempt.Answered? && attempt.moved && !stopped, attempt.Answered? && unreachable)
  }

  predicate NoStop(attempts: seq<Attempt>) {
    forall k | 0 <= k < |attempts| :: !attempts[k].StopSeen?
  }

  /** The failed attempts before the first that does not fail. */
  function Misses(attempts: seq<Attempt>): (n: nat)
    ensures n <= |attempts|
  {
    if attempts == [] || !attempts[0].Failed? then 0 else 1 + Misses(attempts[1..])
  }

  lemma MissesNext(attempts: seq<Attempt>, tries: nat)
    requires tries < |attempts|
    ensures Misses(attempts[tries..]) == if attempts[tries].Failed? then 1 + Misses(attempts[tries + 1..]) else 0
  {
    assert attempts[tries..][1..] == attempts[tries + 1..];
  }

  /** The pause before the attempt that follows this many failed ones. */
  ghost predicate Paused(b: Backoff, fails: nat, delay: nat) {
    delay == DelayAfter(b.base, b.cap, fails)
  }

  function With(s: Informer, probers: seq<Prober>): Informer {
    s.(probers := probers)
  }

  lemma RebuildIgnoresProbers(s: Informer)
    ensures Recovered(With(s, [])) == With(Recovered(s), [])
  {
  }

  lemma Joined(s0: Informer, s1: Informer, s2: Informer, b: Backoff, ls: seq<Label>, more: seq<Label>) returns (r: seq<Label>)
    requires Run(s0, b, ls) == Some(s1) && Run(s1, b, more) == Some(s2)
    ensures Run(s0, b, r) == Some(s2)
    decreases |more|
  {
    if more == [] {
      r := ls;
    } else {
      var mid := Run(s1, b, more[..|more| - 1]).value;
      r := Joined(s0, s1, mid, b, ls, more[..|more| - 1]);
      r := Then(s0, mid, b, r, more[|more| - 1]);
    }
  }

  /** What the steps of a lone prober do. */
  lemma Alone(s: Informer, p: Prober, stage: Stage)
    requires s.probers == [p]
    ensures Goto(s, 0, stage) == With(s, [p.(stage := stage)]) && Gone(s, 0) == With(s, [])
    ensures forall q: Prober :: s.probers[0 := q] == [q]
  {
  }

  lemma Leave(s: Informer, b: Backoff, delay: nat, fails: nat) returns (r: seq<Label>)
    requires s.probers == [Prober(Waiting, delay, fails)] && s.epoch in s.closed
    ensures Run(s, b, r) == Some(With(s, []).(proberOn := false))
  {
    Alone(s, s.probers[0], Stopping);
    r := Then(s, s, b, [], SeeStop(0));
    var t := With(s, [Prober(Stopping, delay, fails)]);
    Alone(t, t.probers[0], Stopping);
    r := Then(s, t, b, r, Exit(0));
  }

  lemma Retry(s: Informer, b: Backoff, delay: nat, fails: nat) returns (r: seq<Label>)
    requires s.probers == [Prober(Waiting, delay, fails)]
    ensures Run(s, b, r) == Some(With(s, [Prober(Waiting, Double(delay, b.cap), fails + 1)]))
  {
    Alone(s, s.probers[0], Probing);
    r := Then(s, s, b, [], Fire(0));
    var t := With(s, [Prober(Probing, delay, fails)]);
    Alone(t, t.probers[0], Probing);
    r := Then(s, t, b, r, Fail(0));
  }

  /** The prober up to where it has got a client that answers. */
  lemma Reach(s: Informer, b: Backoff, delay: nat, fails: nat, moved: bool) returns (r: seq<Label>)
    requires s.probers == [Prober(Waiting, delay, fails)]
    ensures Run(s, b, r) == Some(With(s, [Prober(if moved then Rebuilding else Recovering, delay, fails)]))
  {
    Alone(s, s.probers[0], Probing);
    r := Then(s, s, b, [], Fire(0));
    var t := With(s, [Prober(Probing, delay, fails)]);
    Alone(t, t.probers[0], if moved then Rebuilding else Recovering);
    r := Then(s, t, b, r, SharedInformer.Answer(0, moved));
  }

  lemma Come(s: Informer, b: Backoff, delay: nat, fails: nat, moved: bool) returns (r: seq<Label>)
    requires s.probers == [Prober(Waiting, delay, fails)]
    ensures Run(s, b, r) == Some(With(Recovered(if moved then Rebuilt(s) else s), []))
  {
    r := Reach(s, b, delay, fails, moved);
    var t := With(s, [Prober(if moved then Rebuilding else Recovering, delay, fails)]);
    var u := With(if moved then Rebuilt(s) else s, [Prober(Recovering, delay, fails)]);
    if moved {
      RebuildOnly(s, t, delay, fails);
      r := Then(s, t, b, r, Rebuild(0));
    }
    LastStep(s, u, b, r, if moved then Rebuilt(s) else s);
    r := Then(s, u, b, r, Recover(0));
  }

  lemma RebuildOnly(s: Informer, t: Informer, delay: nat, fails: nat)
    requires t == With(s, [Prober(Rebuilding, delay, fails)])
    ensures Goto(Rebuilt(t), 0, Recovering) == With(Rebuilt(s), [Prober(Recovering, delay, fails)])
  {
    Alone(Rebuilt(t), Prober(Rebuilding, delay, fails), Recovering);
  }

  lemma LastStep(s0: Informer, t: Informer, b: Backoff, r: seq<Label>, s: Informer)
    requires |t.probers| == 1 && t == With(s, t.probers)
    ensures Gone(Recovered(t), 0) == With(Recovered(s), [])
  {
  }
}
