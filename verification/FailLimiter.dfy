/** The failed sign-in budget: a token bucket spent by failures only. Times are whole
    nanoseconds, tokens real numbers. */
module FailLimiter {
  import opened Optional

  datatype Bucket = Bucket(tokens: real, last: Option<int>)

  /** How many tokens the bucket holds at most, and how long one takes to come back. */
  datatype Limits = Limits(burst: nat, every: nat)

  predicate Sane(l: Limits) {
    l.burst >= 1 && l.every >= 1
  }

  function Min(a: real, b: real): real {
    if a < b then a else b
  }

  function Refill(l: Limits, b: Bucket, now: int): Bucket
    requires Sane(l)
  {
    Bucket(if b.last.Some? then Min(l.burst as real, b.tokens + Worth(now - b.last.value, l.every)) else b.tokens, Some(now))
  }

  function Spend(l: Limits, b: Bucket, now: int): Bucket
    requires Sane(l)
  {
    var r := Refill(l, b, now);
    r.(tokens := if r.tokens < 1.0 then 0.0 else r.tokens - 1.0)
  }

  /** How long until a sign-in may be attempted, cut to whole nanoseconds. */
  function Wait(l: Limits, b: Bucket): int
    requires Sane(l)
  {
    ((1.0 - b.tokens) * l.every as real).Floor
  }

  function Full(l: Limits): Bucket {
    Bucket(l.burst as real, None)
  }

  // ----- The bucket's invariant -----

  /** What `credit` nanoseconds are worth in tokens. */
  function Worth(credit: int, every: nat): real
    requires every >= 1
  {
    credit as real / every as real
  }

  /** Between empty and full, and worth a whole number of nanoseconds. */
  ghost predicate Holds(l: Limits, b: Bucket) {
    Sane(l) && 0.0 <= b.tokens <= l.burst as real && exists credit :: b.tokens == Worth(credit, l.every)
  }

  predicate NotBefore(b: Bucket, now: int) {
    b.last.Some? ==> b.last.value <= now
  }

  lemma Cancel(a: real, b: real, e: real)
    requires e > 0.0 && a * e == b * e
    ensures a == b
  {
    assert (a - b) * e == 0.0;
  }

  lemma WorthTimes(credit: int, every: nat)
    requires every >= 1
    ensures Worth(credit, every) * every as real == credit as real
  {
  }

  lemma WorthSum(a: int, b: int, every: nat)
    requires every >= 1
    ensures Worth(a, every) + Worth(b, every) == Worth(a + b, every)
  {
    var e := every as real;
    WorthTimes(a, every);
    WorthTimes(b, every);
    WorthTimes(a + b, every);
    assert (Worth(a, every) + Worth(b, every)) * e == Worth(a, every) * e + Worth(b, every) * e;
    Cancel(Worth(a, every) + Worth(b, every), Worth(a + b, every), e);
  }

  lemma WorthWhole(n: int, every: nat)
    requires every >= 1
    ensures Worth(n * every, every) == n as real
  {
    WorthTimes(n * every, every);
    assert (n * every) as real == n as real * every as real;
    Cancel(Worth(n * every, every), n as real, every as real);
  }

  lemma WorthSign(credit: int, every: nat)
    requires every >= 1
    ensures credit >= 0 <==> Worth(credit, every) >= 0.0
    ensures credit < every <==> Worth(credit, every) < 1.0
  {
    WorthTimes(credit, every);
    var w, e := Worth(credit, every), every as real;
    assert w >= 0.0 <==> w * e >= 0.0;
    assert w < 1.0 <==> w * e < e;
  }

  lemma FullHolds(l: Limits)
    requires Sane(l)
    ensures Holds(l, Full(l))
  {
    WorthWhole(l.burst, l.every);
  }

  lemma RefillHolds(l: Limits, b: Bucket, now: int)
    requires Holds(l, b) && NotBefore(b, now)
    ensures Holds(l, Refill(l, b, now)) && b.tokens <= Refill(l, b, now).tokens
    ensures b.last.Some? ==> Refill(l, b, now).tokens <= b.tokens + Worth(now - b.last.value, l.every)
  {
    if b.last.Some? {
      var dt := now - b.last.value;
      var credit :| b.tokens == Worth(credit, l.every);
      WorthSum(credit, dt, l.every);
      WorthSign(dt, l.every);
      WorthWhole(l.burst, l.every);
    }
  }

  lemma SpendHolds(l: Limits, b: Bucket, now: int)
    requires Holds(l, b) && NotBefore(b, now)
    ensures Holds(l, Spend(l, b, now))
  {
    RefillHolds(l, b, now);
    var credit :| Refill(l, b, now).tokens == Worth(credit, l.every);
    WorthSum(credit, -(l.every as int), l.every);
    WorthWhole(-1, l.every);
    WorthWhole(0, l.every);
  }

  lemma WaitIs(l: Limits, b: Bucket, credit: int)
    requires Sane(l) && b.tokens == Worth(credit, l.every)
    ensures Wait(l, b) == l.every - credit && b.tokens + Worth(Wait(l, b), l.every) == 1.0
  {
    WorthTimes(credit, l.every);
    assert (1.0 - b.tokens) * l.every as real == l.every as real - b.tokens * l.every as real;
    assert (1.0 - b.tokens) * l.every as real == (l.every - credit) as real;
    WorthSum(credit, l.every - credit, l.every);
    WorthWhole(1, l.every);
  }

  /** Waiting as long as a refusal says makes the next attempt go through. */
  lemma WaitingSuffices(l: Limits, b: Bucket, now: int)
    requires Holds(l, b) && NotBefore(b, now)
    ensures var r := Refill(l, b, now);
            r.tokens < 1.0 ==> Wait(l, r) > 0 && Refill(l, r, now + Wait(l, r)).tokens == 1.0
  {
    RefillHolds(l, b, now);
    var r := Refill(l, b, now);
    var credit :| r.tokens == Worth(credit, l.every);
    WorthSign(credit, l.every);
    WaitIs(l, r, credit);
  }

  // ----- Any number of sign-ins in flight -----

  /** What a sign-in does to the bucket: the check before its body is read and, when the
      credentials were wrong, the failure recorded afterwards. Requests run at once, so
      the events of different ones interleave. */
  datatype Event = Look(request: nat, at: int) | Fail(request: nat, at: int)

  function Apply(l: Limits, b: Bucket, e: Event): Bucket
    requires Sane(l)
  {
    if e.Look? then Refill(l, b, e.at) else Spend(l, b, e.at)
  }

  function Applied(l: Limits, b: Bucket, events: seq<Event>): Bucket
    requires Sane(l)
  {
    if events == [] then b else Apply(l, Applied(l, b, events[..|events| - 1]), events[|events| - 1])
  }

  function After(l: Limits, events: seq<Event>): Bucket
    requires Sane(l)
  {
    Applied(l, Full(l), events)
  }

  /** The clock never goes back. */
  ghost predicate Monotone(events: seq<Event>) {
    forall i, j | 0 <= i < j < |events| :: events[i].at <= events[j].at
  }

  /** How many failures were recorded from `lo` to `hi`. */
  function FailuresIn(events: seq<Event>, lo: int, hi: int): nat {
    if events == [] then 0
    else
      var last := events[|events| - 1];
      FailuresIn(events[..|events| - 1], lo, hi) + if last.Fail? && lo <= last.at <= hi then 1 else 0
  }

  /** What event `i` finds in the bucket, once it has been refilled. */
  function Found(l: Limits, events: seq<Event>, i: nat): real
    requires Sane(l) && i < |events|
  {
    Refill(l, After(l, events[..i]), events[i].at).tokens
  }

  /** A failure finds less than one token to spend, and the bucket is left at nothing. */
  ghost predicate Floored(l: Limits, events: seq<Event>, i: nat)
    requires Sane(l) && i < |events|
  {
    events[i].Fail? && Found(l, events, i) < 1.0
  }

  ghost predicate NoneFloored(l: Limits, events: seq<Event>)
    requires Sane(l)
  {
    forall i | 0 <= i < |events| :: !Floored(l, events, i)
  }

  /** From `lo` to `hi` no more failures than a full bucket and what comes back. */
  ghost predicate Bounded(l: Limits, events: seq<Event>, lo: int, hi: int)
    requires Sane(l)
  {
    FailuresIn(events, lo, hi) as real <= l.burst as real + Worth(hi - lo, l.every)
  }

  lemma {:induction false} AfterHolds(l: Limits, events: seq<Event>, t: int)
    requires Sane(l) && Monotone(events) && (forall i | 0 <= i < |events| :: events[i].at <= t)
    ensures Holds(l, After(l, events)) && NotBefore(After(l, events), t)
    ensures events == [] <==> After(l, events).last.None?
    ensures events != [] ==> After(l, events).last == Some(events[|events| - 1].at)
  {
    if events == [] {
      FullHolds(l);
    } else {
      var init, e := events[..|events| - 1], events[|events| - 1];
      AfterHolds(l, init, e.at);
      RefillHolds(l, After(l, init), e.at);
      SpendHolds(l, After(l, init), e.at);
    }
  }

  lemma Grows(every: nat, a: int, b: int, c: int)
    requires every >= 1
    ensures Worth(b - a, every) + Worth(c - b, every) == Worth(c - a, every)
    ensures a <= b ==> Worth(b - a, every) >= 0.0
    ensures b <= c ==> Worth(c - b, every) >= 0.0
  {
    WorthSum(b - a, c - b, every);
    WorthSign(b - a, every);
    WorthSign(c - b, every);
  }

  // ----- Nothing floored: the bound holds -----

  /** The budget so far: what has been spent since `lo` plus what is left is no more than a
      full bucket plus what has come back. */
  ghost predicate Within(l: Limits, b: Bucket, spent: nat, lo: int, hi: int)
    requires Sane(l)
  {
    spent > 0 ==>
      && spent as real <= l.burst as real + Worth(hi - lo, l.every)
      && b.last.Some? && lo <= b.last.value
      && (b.last.value <= hi ==> b.tokens + spent as real <= l.burst as real + Worth(b.last.value - lo, l.every))
  }

  lemma RefillWithin(l: Limits, b: Bucket, spent: nat, lo: int, hi: int, now: int)
    requires Holds(l, b) && NotBefore(b, now) && Within(l, b, spent, lo, hi)
    ensures Within(l, Refill(l, b, now), spent, lo, hi)
  {
    RefillHolds(l, b, now);
    if b.last.Some? { Grows(l.every, lo, b.last.value, now); }
  }

  lemma SpendWithin(l: Limits, b: Bucket, spent: nat, lo: int, hi: int, now: int)
    requires Holds(l, b) && NotBefore(b, now) && Within(l, b, spent, lo, hi) && Refill(l, b, now).tokens >= 1.0
    ensures Within(l, Spend(l, b, now), if lo <= now <= hi then spent + 1 else spent, lo, hi)
  {
    RefillHolds(l, b, now);
    RefillWithin(l, b, spent, lo, hi, now);
    Grows(l.every, lo, now, hi);
  }

  lemma {:induction false} RunWithin(l: Limits, events: seq<Event>, lo: int, hi: int)
    requires Sane(l) && Monotone(events) && NoneFloored(l, events)
    ensures Within(l, After(l, events), FailuresIn(events, lo, hi), lo, hi)
  {
    if events != [] {
      var init, e := events[..|events| - 1], events[|events| - 1];
      forall i | 0 <= i < |init| ensures !Floored(l, init, i) {
        assert init[..i] == events[..i];
        assert !Floored(l, events, i);
      }
      RunWithin(l, init, lo, hi);
      AfterHolds(l, init, e.at);
      assert !Floored(l, events, |events| - 1);
      var b, spent := After(l, init), FailuresIn(init, lo, hi);
      if e.Look? { RefillWithin(l, b, spent, lo, hi, e.at); } else { SpendWithin(l, b, spent, lo, hi, e.at); }
    }
  }

  lemma BoundedWhenNoneFloored(l: Limits, events: seq<Event>, lo: int, hi: int)
    requires Sane(l) && Monotone(events) && NoneFloored(l, events) && lo <= hi
    ensures Bounded(l, events, lo, hi)
  {
    RunWithin(l, events, lo, hi);
    Grows(l.every, lo, hi, hi);
  }

  // ----- Something floored: the bound is exceeded -----

  /** Since `lo` the bucket has not been full: what has been spent since plus what is left
      is at least a full bucket plus what has come back. */
  ghost predicate Tight(l: Limits, events: seq<Event>, lo: int)
    requires Sane(l)
  {
    events != [] && var last := events[|events| - 1].at;
    lo <= last && After(l, events).tokens + FailuresIn(events, lo, last) as real >= l.burst as real + Worth(last - lo, l.every)
  }

  lemma {:induction false} LaterCountsMore(events: seq<Event>, lo: int, hi: int, hi': int)
    requires hi <= hi'
    ensures FailuresIn(events, lo, hi) <= FailuresIn(events, lo, hi')
  {
    if events != [] { LaterCountsMore(events[..|events| - 1], lo, hi, hi'); }
  }

  lemma {:induction false} LongerCountsMore(events: seq<Event>, k: nat, lo: int, hi: int)
    requires k <= |events|
    ensures FailuresIn(events[..k], lo, hi) <= FailuresIn(events, lo, hi)
    decreases |events|
  {
    if k < |events| {
      LongerCountsMore(events[..|events| - 1], k, lo, hi);
      assert events[..|events| - 1][..k] == events[..k];
    } else {
      assert events[..k] == events;
    }
  }

  /** Refilling either fills the bucket up or keeps the account tight. */
  lemma RefillTight(l: Limits, init: seq<Event>, now: int) returns (lo: int)
    requires Sane(l) && Monotone(init) && (forall i | 0 <= i < |init| :: init[i].at <= now)
    requires init != [] ==> exists lo :: Tight(l, init, lo)
    ensures lo <= now
    ensures Refill(l, After(l, init), now).tokens + FailuresIn(init, lo, now) as real >= l.burst as real + Worth(now - lo, l.every)
  {
    AfterHolds(l, init, now);
    var r := Refill(l, After(l, init), now);
    if r.tokens == l.burst as real {
      lo := now;
      WorthWhole(0, l.every);
    } else {
      lo :| Tight(l, init, lo);
      var last := init[|init| - 1].at;
      Grows(l.every, lo, last, now);
      LaterCountsMore(init, lo, last, now);
    }
  }

  lemma {:induction false} AlwaysTight(l: Limits, events: seq<Event>)
    requires Sane(l) && Monotone(events) && NoneFloored(l, events) && events != []
    ensures exists lo :: Tight(l, events, lo)
  {
    var init, e := events[..|events| - 1], events[|events| - 1];
    if init != [] {
      forall i | 0 <= i < |init| ensures !Floored(l, init, i) {
        assert init[..i] == events[..i];
        assert !Floored(l, events, i);
      }
      AlwaysTight(l, init);
    }
    var lo := RefillTight(l, init, e.at);
    assert !Floored(l, events, |events| - 1);
    assert Tight(l, events, lo);
  }

  lemma FirstFloored(l: Limits, events: seq<Event>) returns (f: nat)
    requires Sane(l) && !NoneFloored(l, events)
    ensures f < |events| && Floored(l, events, f) && NoneFloored(l, events[..f])
  {
    f :| f < |events| && Floored(l, events, f);
    while !NoneFloored(l, events[..f])
      invariant f < |events| && Floored(l, events, f)
      decreases f
    {
      var i :| 0 <= i < f && Floored(l, events[..f], i);
      assert events[..f][..i] == events[..i];
      f := i;
    }
  }

  /** The first failure to find the bucket empty is one too many since the bucket was last
      full. */
  lemma ExceededWhenFloored(l: Limits, events: seq<Event>) returns (lo: int, hi: int)
    requires Sane(l) && Monotone(events) && !NoneFloored(l, events)
    ensures lo <= hi && !Bounded(l, events, lo, hi)
  {
    var f := FirstFloored(l, events);
    var init := events[..f];
    hi := events[f].at;
    if init != [] { AlwaysTight(l, init); }
    lo := RefillTight(l, init, hi);
    assert events[..f + 1][..f] == init;
    LongerCountsMore(events, f + 1, lo, hi);
  }

  /** The rate bound, exactly: over any stretch of time the recorded failures are at most a
      full bucket plus one for each token that comes back in it, if and only if every
      failure found a whole token to spend. */
  lemma RateBoundExactly(l: Limits, events: seq<Event>)
    requires Sane(l) && Monotone(events)
    ensures (forall lo, hi | lo <= hi :: Bounded(l, events, lo, hi)) <==> NoneFloored(l, events)
  {
    if NoneFloored(l, events) {
      forall lo, hi | lo <= hi ensures Bounded(l, events, lo, hi) { BoundedWhenNoneFloored(l, events, lo, hi); }
    } else {
      var lo, hi := ExceededWhenFloored(l, events);
    }
  }

  // ----- Which runs the handler makes -----

  /** The check of this event let its request through. */
  ghost predicate Admits(l: Limits, events: seq<Event>, i: nat)
    requires Sane(l) && i < |events|
  {
    events[i].Look? && Found(l, events, i) >= 1.0
  }

  /** A failure is recorded only by a request that was let through, and no request is
      checked twice or recorded twice. */
  ghost predicate Handled(l: Limits, events: seq<Event>)
    requires Sane(l)
  {
    && (forall j | 0 <= j < |events| && events[j].Fail? ::
          exists i :: 0 <= i < j && events[i].request == events[j].request && Admits(l, events, i))
    && (forall i, j | 0 <= i < j < |events| && events[i].Look? == events[j].Look? :: events[i].request != events[j].request)
  }

  /** One sign-in at a time: a failure comes right after its own request's check. */
  ghost predicate OneAtATime(l: Limits, events: seq<Event>)
    requires Sane(l)
  {
    forall j | 0 <= j < |events| && events[j].Fail? :: j > 0 && events[j - 1].request == events[j].request && Admits(l, events, j - 1)
  }

  /** Sign-ins that do not overlap keep within the bound. */
  lemma FailuresAreBounded(l: Limits, events: seq<Event>, lo: int, hi: int)
    requires Sane(l) && Monotone(events) && OneAtATime(l, events) && lo <= hi
    ensures Bounded(l, events, lo, hi)
  {
    forall j | 0 <= j < |events| ensures !Floored(l, events, j) {
      if events[j].Fail? {
        var i := j - 1;
        assert Admits(l, events, i);
        assert events[..j][..i] == events[..i];
        AfterHolds(l, events[..j], events[j].at);
        RefillHolds(l, After(l, events[..j]), events[j].at);
      }
    }
    BoundedWhenNoneFloored(l, events, lo, hi);
  }

  /** The first `n` requests are checked at the same instant. */
  function Looks(n: nat): (r: seq<Event>)
    ensures |r| == n && forall i | 0 <= i < n :: r[i] == Look(i, 0)
  {
    if n == 0 then [] else Looks(n - 1) + [Look(n - 1, 0)]
  }

  /** The first `n` requests all turn out wrong at that instant. */
  function Fails(n: nat): (r: seq<Event>)
    ensures |r| == n && forall i | 0 <= i < n :: r[i] == Fail(i, 0)
  {
    if n == 0 then [] else Fails(n - 1) + [Fail(n - 1, 0)]
  }

  /** Checks take nothing out of a full bucket. */
  lemma {:induction false} LooksLeaveFull(l: Limits, n: nat)
    requires Sane(l)
    ensures After(l, Looks(n)) == Bucket(l.burst as real, if n == 0 then None else Some(0))
  {
    if n > 0 {
      LooksLeaveFull(l, n - 1);
      assert Looks(n)[..n - 1] == Looks(n - 1);
      WorthWhole(0, l.every);
    }
  }

  lemma LookAdmits(l: Limits, n: nat, m: nat, i: nat)
    requires Sane(l) && i < n
    ensures Admits(l, Looks(n) + Fails(m), i)
  {
    LooksLeaveFull(l, i);
    assert (Looks(n) + Fails(m))[..i] == Looks(i);
    WorthWhole(0, l.every);
  }

  lemma {:induction false} LooksCountNothing(n: nat)
    ensures FailuresIn(Looks(n), 0, 0) == 0
  {
    if n > 0 {
      LooksCountNothing(n - 1);
      assert Looks(n)[..n - 1] == Looks(n - 1);
    }
  }

  lemma {:induction false} FailsAllCount(n: nat, m: nat)
    ensures FailuresIn(Looks(n) + Fails(m), 0, 0) == m
  {
    if m == 0 {
      LooksCountNothing(n);
      assert Looks(n) + Fails(m) == Looks(n);
    } else {
      FailsAllCount(n, m - 1);
      assert (Looks(n) + Fails(m))[..n + m - 1] == Looks(n) + Fails(m - 1);
    }
  }

  lemma OverlapIsHandled(l: Limits, n: nat)
    requires Sane(l)
    ensures Monotone(Looks(n) + Fails(n)) && Handled(l, Looks(n) + Fails(n))
  {
    var events := Looks(n) + Fails(n);
    forall j | 0 <= j < |events| && events[j].Fail?
      ensures exists i :: 0 <= i < j && events[i].request == events[j].request && Admits(l, events, i)
    {
      LookAdmits(l, n, n, j - n);
      assert events[j - n].request == events[j].request;
    }
  }

  /** Whatever the limits, more requests than the bucket holds tokens can all be let through
      at one instant and all fail: the handler's own run, with one failure more than the
      bound. */
  lemma OverlapExceeds(l: Limits)
    requires Sane(l)
    ensures var events := Looks(l.burst + 1) + Fails(l.burst + 1);
            Monotone(events) && Handled(l, events) && !Bounded(l, events, 0, 0)
  {
    OverlapIsHandled(l, l.burst + 1);
    FailsAllCount(l.burst + 1, l.burst + 1);
    WorthWhole(0, l.every);
  }

  // ----- The limiter as it runs -----

  lemma InBetween(all: seq<Event>, between: seq<Event>)
    requires |all| == |between| + 2 && Monotone(all) && all[1..|all| - 1] == between
    ensures Monotone(between) && all[0].at <= all[|all| - 1].at
    ensures forall i | 0 <= i < |between| :: all[0].at <= between[i].at <= all[|all| - 1].at
  {
    forall i | 0 <= i < |between| ensures between[i] == all[i + 1] {}
  }

  class Limiter {
    const limits: Limits
    var tokens: real
    var last: Option<int>

    ghost function State(): Bucket
      reads this
    {
      Bucket(tokens, last)
    }

    constructor (l: Limits)
      requires Sane(l)
      ensures limits == l && State() == Full(l) && Holds(l, State())
    {
      limits, tokens, last := l, l.burst as real, None;
      FullHolds(l);
    }

    method RefillNow(now: int)
      requires Sane(limits)
      modifies this
      ensures State() == Refill(limits, old(State()), now)
    {
      if last.Some? {
        tokens := Min(limits.burst as real, tokens + Worth(now - last.value, limits.every));
      }
      last := Some(now);
    }

    /** Whether a sign-in may be attempted, and if not how long until one may. */
    method Peek(now: int) returns (ok: bool, wait: int)
      requires Holds(limits, State()) && NotBefore(State(), now)
      modifies this
      ensures State() == Refill(limits, old(State()), now) && Holds(limits, State())
      ensures ok == (tokens >= 1.0)
      ensures ok ==> wait == 0
      ensures !ok ==> wait > 0 && Refill(limits, State(), now + wait).tokens == 1.0
    {
      ghost var r := Refill(limits, State(), now);
      RefillHolds(limits, State(), now);
      WaitingSuffices(limits, State(), now);
      RefillNow(now);
      assert State() == r;
      if tokens >= 1.0 { return true, 0; }
      wait := ((1.0 - tokens) * limits.every as real).Floor;
      assert wait == Wait(limits, r);
      return false, wait;
    }

    /** Records one failed sign-in. */
    method SpendOne(now: int)
      requires Holds(limits, State()) && NotBefore(State(), now)
      modifies this
      ensures State() == Spend(limits, old(State()), now) && Holds(limits, State())
    {
      SpendHolds(limits, State(), now);
      RefillNow(now);
      tokens := if tokens < 1.0 then 0.0 else tokens - 1.0;
    }

    /** What other sign-ins do to the bucket. */
    method Play(events: seq<Event>, from: int)
      requires Holds(limits, State()) && NotBefore(State(), from) && Monotone(events)
      requires forall i | 0 <= i < |events| :: from <= events[i].at
      modifies this
      ensures Holds(limits, State()) && State() == Applied(limits, old(State()), events)
      ensures NotBefore(State(), if events == [] then from else events[|events| - 1].at)
    {
      var i := 0;
      while i < |events|
        invariant 0 <= i <= |events| && Holds(limits, State()) && State() == Applied(limits, old(State()), events[..i])
        invariant NotBefore(State(), if i == 0 then from else events[i - 1].at)
      {
        assert events[..i + 1][..i] == events[..i];
        if events[i].Look? { var _, _ := Peek(events[i].at); } else { SpendOne(events[i].at); }
        i := i + 1;
      }
      assert events[..i] == events;
    }

    /** One sign-in: refused while the budget is spent, and counted only when it fails;
        `between` is what others do while its credentials are being checked. */
    method TrySignIn(request: nat, at: int, between: seq<Event>, wrong: bool, failedAt: int) returns (admitted: bool, wait: int)
      requires Holds(limits, State()) && NotBefore(State(), at) && Monotone([Look(request, at)] + between + [Fail(request, failedAt)])
      modifies this
      ensures Holds(limits, State()) && admitted == (Refill(limits, old(State()), at).tokens >= 1.0)
      ensures var looked := Applied(limits, Apply(limits, old(State()), Look(request, at)), between);
              State() == if admitted && wrong then Apply(limits, looked, Fail(request, failedAt)) else looked
    {
      ghost var all := [Look(request, at)] + between + [Fail(request, failedAt)];
      InBetween(all, between);
      admitted, wait := Peek(at);
      Play(between, at);
      if admitted && wrong { SpendOne(failedAt); }
    }
  }
}
