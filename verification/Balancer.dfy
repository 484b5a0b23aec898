/** The service forwarder as it runs: picking, handling a connection, watching backends,
    and establishing them. */
module Balancer {
  import opened Optional
  import opened Rotation

  class ServiceForwarder {
    const backends: nat
    var dead: seq<bool>
    var next: nat
    var stopped: bool

    ghost predicate Valid()
      reads this
    {
      |dead| == backends && (backends > 0 ==> next < backends)
    }

    constructor (n: nat)
      ensures Valid() && backends == n && next == 0 && !stopped && forall i | 0 <= i < n :: !dead[i]
    {
      backends, dead, next, stopped := n, seq(n, _ => false), 0, false;
    }

    /** The next live backend in round-robin order, or none when the rotation is empty. */
    method PickNext() returns (b: Option<nat>)
      requires Valid()
      modifies `next
      ensures Valid() && Picked(b, next) == Pick(dead, old(next))
      ensures b.None? <==> forall i | 0 <= i < backends :: dead[i]
    {
      if backends == 0 { return None; }
      var start, i := next, 0;
      NoneLive(dead, start);
      while i < backends
        invariant 0 <= i <= backends && next == Round(start, i, backends)
        invariant forall k | 0 <= k < i :: dead[Round(start, k, backends)]
      {
        RoundAgain(next, backends);
        var at := next % backends;
        next := (next + 1) % backends;
        if !dead[at] {
          Found(dead, start, i);
          return Some(at);
        }
        i := i + 1;
      }
      AllRound(dead, start);
      return None;
    }

    method BackendCount() returns (n: nat)
      requires Valid()
      ensures n == |LiveIn(dead, 0, backends)|
    {
      n := 0;
      var i := 0;
      while i < backends
        invariant 0 <= i <= backends && n == |LiveIn(dead, 0, i)|
      {
        LiveSplits(dead, 0, i, i + 1);
        LiveOne(dead, i);
        if !dead[i] { n := n + 1; }
        i := i + 1;
      }
    }

    /** A backend's forward has exited: it leaves the rotation, and the last one to leave
        ends the session. */
    method BackendGone(b: nat)
      requires Valid() && b < backends
      modifies `dead, `stopped
      ensures Valid() && dead == old(dead)[b := true]
      ensures stopped == (old(stopped) || forall i | 0 <= i < backends :: dead[i])
    {
      dead := dead[b := true];
      var live := BackendCount();
      LiveInMembers(dead, 0, backends);
      if live == 0 {
        assert LiveIn(dead, 0, backends) == [];
        forall i | 0 <= i < backends ensures dead[i] { assert i !in LiveIn(dead, 0, backends); }
        stopped := true;
      } else {
        assert LiveIn(dead, 0, backends)[0] in LiveIn(dead, 0, backends);
      }
    }

    /** What other connections do to the rotation between two of our picks. */
    method OthersPick(n: nat, ghost start: nat, ghost k: nat)
      requires Valid() && (backends > 0 ==> start < backends && next == Cursor(dead, start, k))
      modifies `next
      ensures Valid() && (backends > 0 ==> next == Cursor(dead, start, k + n))
    {
      var i := 0;
      while i < n
        invariant 0 <= i <= n && Valid() && (backends > 0 ==> next == Cursor(dead, start, k + i))
      {
        var _ := PickNext();
        i := i + 1;
      }
    }

    /** Serves one connection. `others[i]` is how often other connections pick before our
        attempt `i`, and `dials[i]` how that attempt's dial ends. The backends tried are
        those at our positions of the shared pick sequence; the connection goes to the
        first that accepts, and is dropped when none does or none is live. */
    method Handle(dials: seq<bool>, others: seq<nat>) returns (upstream: Option<nat>, ghost attempts: nat)
      requires Valid() && |dials| == backends == |others|
      modifies `next
      ensures Valid() && attempts <= backends
      ensures forall i | 0 <= i < attempts - 1 :: !dials[i]
      ensures backends > 0 && upstream.Some? ==>
                attempts > 0 && dials[attempts - 1] && upstream == PickAtTurn(dead, old(next), Turn(others, attempts - 1))
                && next == Cursor(dead, old(next), Turn(others, attempts - 1) + 1)
      ensures upstream.None? ==> attempts == backends || forall i | 0 <= i < backends :: dead[i]
      ensures upstream.None? ==> forall i | 0 <= i < attempts :: !dials[i]
      ensures backends == 0 ==> upstream.None? && next == old(next)
    {
      var attempt := 0;
      attempts := 0;
      while attempt < backends
        invariant 0 <= attempt <= backends && Valid() && attempts == attempt
        invariant if backends > 0 then next == Cursor(dead, old(next), Before(others, attempt)) else next == old(next)
        invariant forall i | 0 <= i < attempt :: !dials[i]
      {
        OthersPick(others[attempt], old(next), Before(others, attempt));
        var b := PickNext();
        if b.None? {
          return None, attempts;
        }
        attempts := attempt + 1;
        if dials[attempt] { return b, attempts; }
        attempt := attempt + 1;
      }
      return None, attempts;
    }
  }

  // ----- Going round -----

  /** The position `i` steps round from `start`. */
  function Round(start: nat, i: nat, n: nat): (r: nat)
    requires start < n && i <= n
    ensures r < n
  {
    if start + i < n then start + i else start + i - n
  }

  lemma RoundAgain(at: nat, n: nat)
    requires at < n
    ensures at % n == at && (at + 1) % n == Follow(at, n)
  {
  }

  /** The first live position round from the cursor is what a pick returns. */
  lemma Found(dead: seq<bool>, start: nat, i: nat)
    requires start < |dead| && i < |dead| && !dead[Round(start, i, |dead|)]
    requires forall k | 0 <= k < i :: dead[Round(start, k, |dead|)]
    ensures var b := Round(start, i, |dead|); Pick(dead, start) == Picked(Some(b), Follow(b, |dead|))
  {
    var n, b := |dead|, Round(start, i, |dead|);
    forall j | start <= j < n && (b < start || j < b) ensures dead[j] { assert Round(start, j - start, n) == j; }
    forall j | 0 <= j < b && b < start ensures dead[j] { assert Round(start, j + n - start, n) == j; }
    TurnsByOne(dead, start, b);
  }

  lemma AllRound(dead: seq<bool>, start: nat)
    requires start < |dead| && forall k | 0 <= k < |dead| :: dead[Round(start, k, |dead|)]
    ensures Pick(dead, start) == Picked(None, start) && forall i | 0 <= i < |dead| :: dead[i]
  {
    var n := |dead|;
    forall i | 0 <= i < n ensures dead[i] { assert Round(start, if i >= start then i - start else i + n - start, n) == i; }
    NoneLive(dead, start);
  }

  lemma PickIsLive(dead: seq<bool>, next: nat)
    requires next < |dead|
    ensures Pick(dead, next).backend.Some? ==> Pick(dead, next).backend.value in LiveSet(dead)
  {
    CyclicOnce(dead, next);
  }

  // ----- Which backends a connection tries -----

  /** How many picks the rotation has made before our attempt `k`. */
  function Before(others: seq<nat>, k: nat): nat
    requires k <= |others|
  {
    if k == 0 then 0 else Before(others, k - 1) + others[k - 1] + 1
  }

  /** The position of our attempt `k` in the shared pick sequence. */
  function Turn(others: seq<nat>, k: nat): nat
    requires k < |others|
  {
    Before(others, k) + others[k]
  }

  function Turns(others: seq<nat>, k: nat): seq<nat>
    requires k <= |others|
  {
    seq(k, i requires 0 <= i < k => Turn(others, i))
  }

  /** What the pick at this position of the shared sequence returns. */
  function PickAtTurn(dead: seq<bool>, next: nat, turn: nat): Option<nat>
    requires next < |dead|
  {
    Pick(dead, Cursor(dead, next, turn)).backend
  }

  /** The backends picked at these positions. */
  function TriedAt(dead: seq<bool>, next: nat, turns: seq<nat>): set<nat>
    requires next < |dead|
  {
    set i | 0 <= i < |turns| && PickAtTurn(dead, next, turns[i]).Some? :: PickAtTurn(dead, next, turns[i]).value
  }

  lemma NextMod(i: nat, n: nat)
    requires n > 0
    ensures (i + 1) % n == if i % n + 1 == n then 0 else i % n + 1
  {
    var q, m := i / n, i % n;
    if m + 1 == n {
      assert i + 1 == (q + 1) * n + 0;
      ModIs(q + 1, 0, n);
    } else {
      assert i + 1 == q * n + (m + 1);
      ModIs(q, m + 1, n);
    }
  }

  lemma ModIs(q: nat, m: nat, n: nat)
    requires m < n
    ensures (q * n + m) % n == m
  {
    var x := q * n + m;
    var d := q - x / n;
    assert d * n == q * n - x / n * n == x % n - m;
    assert d >= 1 ==> d * n >= n;
    assert d <= -1 ==> d * n + n <= 0;
  }

  lemma WrapStep(dead: seq<bool>, at: nat, live: seq<nat>, m: nat)
    requires at < |dead| && m < |live| && LiveFrom(dead, at) == live[m..] + live[..m]
    ensures var m' := if m + 1 == |live| then 0 else m + 1;
            LiveFrom(dead, Pick(dead, at).next) == live[m'..] + live[..m']
  {
    PickAt(dead, at, live, m);
    if m + 1 == |live| { assert live[m + 1..] + live[..m + 1] == live[0..] + live[..0]; }
  }

  /** Counting `i` steps round a cycle of `n`. */
  function Wrapped(i: nat, n: nat): (r: nat)
    requires n > 0
    ensures r < n
  {
    if i == 0 || Wrapped(i - 1, n) + 1 == n then 0 else Wrapped(i - 1, n) + 1
  }

  lemma {:induction false} WrappedIs(i: nat, n: nat)
    requires n > 0
    ensures Wrapped(i, n) == i % n
  {
    if i > 0 {
      WrappedIs(i - 1, n);
      NextMod(i - 1, n);
    }
  }

  /** The cyclic order after `i` picks has turned by `i`, counting round. */
  lemma {:induction false} CursorWraps(dead: seq<bool>, next: nat, i: nat, live: seq<nat>)
    requires next < |dead| && live == LiveFrom(dead, next) && live != []
    ensures LiveFrom(dead, Cursor(dead, next, i)) == live[Wrapped(i, |live|)..] + live[..Wrapped(i, |live|)]
  {
    if i > 0 {
      CursorWraps(dead, next, i - 1, live);
      WrapStep(dead, Cursor(dead, next, i - 1), live, Wrapped(i - 1, |live|));
    } else {
      assert live[0..] + live[..0] == live;
    }
  }

  /** Pick number `i` returns the live backend in place `i` of the cyclic order, counting
      round. */
  lemma PicksGoRound(dead: seq<bool>, next: nat, i: nat)
    requires next < |dead| && LiveFrom(dead, next) != []
    ensures var live := LiveFrom(dead, next);
            i % |live| < |live| && PickAtTurn(dead, next, i) == Some(live[i % |live|])
  {
    var live := LiveFrom(dead, next);
    CursorWraps(dead, next, i, live);
    PickAt(dead, Cursor(dead, next, i), live, Wrapped(i, |live|));
    WrappedIs(i, |live|);
  }

  /** These positions meet every place of a cycle of `n`. */
  ghost predicate MeetsAll(turns: seq<nat>, n: nat) {
    forall r: nat | r < n :: Meets(turns, n, r)
  }

  ghost predicate Meets(turns: seq<nat>, n: nat, r: nat)
    requires n > 0
  {
    exists i :: 0 <= i < |turns| && turns[i] % n == r
  }

  lemma TriedIsMet(dead: seq<bool>, next: nat, turns: seq<nat>, r: nat)
    requires next < |dead| && r < |LiveFrom(dead, next)|
    ensures LiveFrom(dead, next)[r] in TriedAt(dead, next, turns) <==> Meets(turns, |LiveFrom(dead, next)|, r)
  {
    var live := LiveFrom(dead, next);
    var n := |live|;
    CyclicOnce(dead, next);
    forall i | 0 <= i < |turns| ensures turns[i] % n < n && PickAtTurn(dead, next, turns[i]) == Some(live[turns[i] % n]) {
      PicksGoRound(dead, next, turns[i]);
    }
    if Meets(turns, n, r) {
      var i :| 0 <= i < |turns| && turns[i] % n == r;
      assert PickAtTurn(dead, next, turns[i]) == Some(live[r]);
    }
    if live[r] in TriedAt(dead, next, turns) {
      var i :| 0 <= i < |turns| && PickAtTurn(dead, next, turns[i]) == Some(live[r]);
      assert live[turns[i] % n] == live[r];
    }
  }

  lemma TriedAreLive(dead: seq<bool>, next: nat, turns: seq<nat>)
    requires next < |dead|
    ensures TriedAt(dead, next, turns) <= LiveSet(dead)
  {
    forall b | b in TriedAt(dead, next, turns) ensures b in LiveSet(dead) {
      var i :| 0 <= i < |turns| && PickAtTurn(dead, next, turns[i]) == Some(b);
      PickIsLive(dead, Cursor(dead, next, turns[i]));
    }
  }

  /** The retry promise, exactly: whatever other connections pick in between, the backends
      tried are all the live ones if and only if our positions of the shared pick sequence
      meet every place of a cycle as long as the live backends are many. */
  lemma RetriesReachAllExactly(dead: seq<bool>, next: nat, turns: seq<nat>)
    requires next < |dead|
    ensures TriedAt(dead, next, turns) == LiveSet(dead) <==> MeetsAll(turns, |LiveFrom(dead, next)|)
  {
    var live := LiveFrom(dead, next);
    TriedAreLive(dead, next, turns);
    CyclicOnce(dead, next);
    forall r: nat | r < |live| ensures live[r] in TriedAt(dead, next, turns) <==> Meets(turns, |live|, r) {
      TriedIsMet(dead, next, turns, r);
    }
    if MeetsAll(turns, |live|) {
      forall b | b in LiveSet(dead) ensures b in TriedAt(dead, next, turns) {
        var r :| 0 <= r < |live| && live[r] == b;
        assert Meets(turns, |live|, r);
      }
    } else {
      var r: nat :| r < |live| && !Meets(turns, |live|, r);
      assert live[r] in live;
    }
  }

  /** Different positions below `n` number at most `n`. */
  lemma FitsIn(xs: seq<nat>, n: nat)
    requires forall i, j | 0 <= i < j < |xs| :: xs[i] != xs[j]
    requires forall i | 0 <= i < |xs| :: xs[i] < n
    ensures |xs| <= n
    decreases n
  {
    if xs != [] {
      assert xs[0] < n;
      if i :| 0 <= i < |xs| && xs[i] == n - 1 {
        FitsIn(xs[..i] + xs[i + 1..], n - 1);
      } else {
        FitsIn(xs, n - 1);
      }
    }
  }

  lemma {:induction false} AloneIsInOrder(others: seq<nat>, k: nat)
    requires k <= |others| && forall i | 0 <= i < |others| :: others[i] == 0
    ensures Before(others, k) == k
  {
    if k > 0 { AloneIsInOrder(others, k - 1); }
  }

  /** With nobody else picking, as many attempts as backends try every live one. */
  lemma AloneReachesAll(dead: seq<bool>, next: nat, others: seq<nat>)
    requires next < |dead| && |others| == |dead| && forall i | 0 <= i < |others| :: others[i] == 0
    ensures TriedAt(dead, next, Turns(others, |others|)) == LiveSet(dead)
  {
    var live, turns := LiveFrom(dead, next), Turns(others, |others|);
    CyclicOnce(dead, next);
    forall i | 0 <= i < |live| ensures live[i] < |dead| { assert live[i] in live; }
    FitsIn(live, |dead|);
    forall r: nat | r < |live| ensures Meets(turns, |live|, r) {
      AloneIsInOrder(others, r);
      SmallMod(r, |live|);
      assert turns[r] == r;
    }
    RetriesReachAllExactly(dead, next, turns);
  }

  lemma SmallMod(r: nat, n: nat)
    requires r < n
    ensures r % n == r
  {
  }

  lemma TwoLive()
    ensures LiveFrom([false, false], 0) == [0, 1]
  {
    var dead := [false, false];
    assert LiveIn(dead, 2, 2) == [] && LiveIn(dead, 0, 0) == [] && LiveIn(dead, 1, 1) == [];
    LiveOne(dead, 0);
    LiveOne(dead, 1);
    LiveSplits(dead, 0, 1, 2);
  }

  /** Two live backends and another connection taking every second pick: the second
      backend is never tried, whatever it would have answered. */
  lemma InterleavedPicksCanMiss()
    ensures TriedAt([false, false], 0, Turns([0, 1], 2)) != LiveSet([false, false])
  {
    TwoLive();
    var turns := Turns([0, 1], 2);
    assert turns[0] == 0 && turns[1] == 2;
    RetriesReachAllExactly([false, false], 0, turns);
    assert !Meets(turns, 2, 1);
  }

  // ----- Establishing -----

  /** How establishing one backend ends. */
  datatype Leg = Up(forward: nat) | Down(error: string)

  /** The first failure in backend order, or -1. */
  function FirstDown(legs: seq<Leg>): (r: int)
    ensures -1 <= r < |legs|
    ensures r >= 0 ==> legs[r].Down? && forall i | 0 <= i < r :: legs[i].Up?
    ensures r < 0 ==> forall i | 0 <= i < |legs| :: legs[i].Up?
  {
    if legs == [] then -1
    else
      var r := FirstDown(legs[..|legs| - 1]);
      if r >= 0 then r else if legs[|legs| - 1].Down? then |legs| - 1 else -1
  }

  function Forwards(legs: seq<Leg>): seq<nat> {
    if legs == [] then []
    else Forwards(legs[..|legs| - 1]) + if legs[|legs| - 1].Up? then [legs[|legs| - 1].forward] else []
  }

  /** The legs that came up with this forward. */
  function UpWith(legs: seq<Leg>, forward: nat): set<nat> {
    set i | 0 <= i < |legs| && legs[i] == Up(forward)
  }

  /** Every forward that came up is stopped, once for each leg that came up with it, and no other. */
  ghost predicate StopsAll(legs: seq<Leg>, stopped: seq<nat>) {
    && (forall f :: f in stopped <==> exists i :: 0 <= i < |legs| && legs[i] == Up(f))
    && (forall f :: multiset(stopped)[f] == |UpWith(legs, f)|)
  }

  lemma UpWithNext(legs: seq<Leg>, f: nat)
    requires legs != []
    ensures var init, last := legs[..|legs| - 1], legs[|legs| - 1];
            |UpWith(legs, f)| == |UpWith(init, f)| + if last == Up(f) then 1 else 0
  {
    var n := |legs| - 1;
    assert UpWith(legs, f) == if legs[n] == Up(f) then UpWith(legs[..n], f) + {n} else UpWith(legs[..n], f);
  }

  lemma {:induction false} ForwardsStopAll(legs: seq<Leg>)
    ensures StopsAll(legs, Forwards(legs))
  {
    if legs == [] {
      forall f ensures UpWith(legs, f) == {} {}
    } else {
      var init, last := legs[..|legs| - 1], legs[|legs| - 1];
      ForwardsStopAll(init);
      forall f ensures multiset(Forwards(legs))[f] == |UpWith(legs, f)| { UpWithNext(legs, f); }
      forall f ensures f in Forwards(legs) <==> exists i :: 0 <= i < |legs| && legs[i] == Up(f) {
        if f in Forwards(init) {
          var i :| 0 <= i < |init| && init[i] == Up(f);
          assert legs[i] == Up(f);
        }
        if i :| 0 <= i < |legs| && legs[i] == Up(f) { assert i == |init| || init[i] == Up(f); }
      }
    }
  }

  /** Tears down every established forward of a partly built set, in backend order. */
  method StopBackends(legs: seq<Leg>) returns (stopped: seq<nat>)
    ensures stopped == Forwards(legs) && StopsAll(legs, stopped)
  {
    ForwardsStopAll(legs);
    stopped := [];
    var i := 0;
    while i < |legs|
      invariant 0 <= i <= |legs| && stopped == Forwards(legs[..i])
    {
      assert legs[..i + 1][..i] == legs[..i];
      if legs[i].Up? { stopped := stopped + [legs[i].forward]; }
      i := i + 1;
    }
    assert legs[..i] == legs;
  }

  /** All or nothing: every leg is up, or the first failure in backend order is reported
      and every forward that did come up is stopped. */
  method EstablishBackends(legs: seq<Leg>) returns (error: Option<string>, stopped: seq<nat>)
    ensures error.None? <==> forall i | 0 <= i < |legs| :: legs[i].Up?
    ensures error.None? ==> stopped == []
    ensures error.Some? ==> FirstDown(legs) >= 0 && error.value == legs[FirstDown(legs)].error && StopsAll(legs, stopped)
  {
    var i := 0;
    while i < |legs|
      invariant 0 <= i <= |legs| && forall k | 0 <= k < i :: legs[k].Up?
    {
      if legs[i].Down? {
        stopped := StopBackends(legs);
        return Some(legs[i].error), stopped;
      }
      i := i + 1;
    }
    return None, [];
  }

  // ----- Accepting -----

  const ACCEPT_RETRY_DELAY := 5
  const ACCEPT_MAX_DELAY := 1000
  const ACCEPT_MAX_FAILURES := 10

  datatype Accept = Connection | Failure | ListenerClosed

  /** How many failures in a row end these accepts. */
  function FailuresAtEnd(accepts: seq<Accept>): (n: nat)
    ensures n <= |accepts| && forall i | |accepts| - n <= i < |accepts| :: accepts[i] == Failure
    ensures n < |accepts| ==> accepts[|accepts| - n - 1] != Failure
  {
    if accepts == [] || accepts[|accepts| - 1] != Failure then 0 else FailuresAtEnd(accepts[..|accepts| - 1]) + 1
  }

  /** How many failures in a row there have been after the first `i` accepts. */
  function Streak(accepts: seq<Accept>, i: nat): nat
    requires i <= |accepts|
  {
    FailuresAtEnd(accepts[..i])
  }

  lemma FailuresNext(accepts: seq<Accept>, i: nat)
    requires i < |accepts|
    ensures Streak(accepts, i + 1) == if accepts[i] == Failure then Streak(accepts, i) + 1 else 0
  {
    assert accepts[..i + 1][..i] == accepts[..i];
  }

  /** The pause before the next accept after `n` failures in a row: doubled each time, up
      to the cap. */
  function AcceptDelay(n: nat): (d: nat)
    ensures ACCEPT_RETRY_DELAY <= d <= ACCEPT_MAX_DELAY
  {
    if n == 0 then ACCEPT_RETRY_DELAY
    else if 2 * AcceptDelay(n - 1) > ACCEPT_MAX_DELAY then ACCEPT_MAX_DELAY
    else 2 * AcceptDelay(n - 1)
  }

  function PowerOfTwo(n: nat): nat {
    if n == 0 then 1 else 2 * PowerOfTwo(n - 1)
  }

  /** In closed form: the first pause doubled for each failure in a row, or the cap. */
  lemma {:induction false} AcceptDelayDoubles(n: nat)
    ensures AcceptDelay(n) == if ACCEPT_RETRY_DELAY * PowerOfTwo(n) < ACCEPT_MAX_DELAY then ACCEPT_RETRY_DELAY * PowerOfTwo(n)
                              else ACCEPT_MAX_DELAY
  {
    if n > 0 { AcceptDelayDoubles(n - 1); }
  }

  datatype Outcome = Closed | GaveUp | Waiting

  /** The accept loop over what the listener returns: it ends when the listener is closed,
      and gives up at the first eleventh failure in a row. */
  method AcceptLoop(accepts: seq<Accept>) returns (outcome: Outcome, taken: nat, delay: nat)
    ensures taken <= |accepts| && delay == AcceptDelay(Streak(accepts, taken))
    ensures var doubled := ACCEPT_RETRY_DELAY * PowerOfTwo(Streak(accepts, taken));
            delay == if doubled < ACCEPT_MAX_DELAY then doubled else ACCEPT_MAX_DELAY
    ensures outcome == Closed ==> taken < |accepts| && accepts[taken] == ListenerClosed
    ensures outcome == GaveUp ==> taken < |accepts| && Streak(accepts, taken + 1) == ACCEPT_MAX_FAILURES + 1
    ensures outcome == Waiting ==> taken == |accepts|
    ensures forall i | 0 <= i < taken :: accepts[i] != ListenerClosed
    ensures forall i | 0 <= i <= taken :: Streak(accepts, i) <= ACCEPT_MAX_FAILURES
  {
    delay := ACCEPT_RETRY_DELAY;
    var failures := 0;
    taken := 0;
    while taken < |accepts|
      invariant 0 <= taken <= |accepts| && delay == AcceptDelay(failures)
      invariant failures == Streak(accepts, taken)
      invariant forall i | 0 <= i < taken :: accepts[i] != ListenerClosed
      invariant forall i | 0 <= i <= taken :: Streak(accepts, i) <= ACCEPT_MAX_FAILURES
    {
      FailuresNext(accepts, taken);
      if accepts[taken] == ListenerClosed {
        AcceptDelayDoubles(failures);
        return Closed, taken, delay;
      }
      if accepts[taken] == Failure {
        failures := failures + 1;
        if failures > ACCEPT_MAX_FAILURES {
          AcceptDelayDoubles(failures - 1);
          return GaveUp, taken, delay;
        }
        delay := delay * 2;
        if delay > ACCEPT_MAX_DELAY { delay := ACCEPT_MAX_DELAY; }
      } else {
        failures, delay := 0, ACCEPT_RETRY_DELAY;
      }
      taken := taken + 1;
    }
    AcceptDelayDoubles(failures);
    return Waiting, taken, delay;
  }
}
