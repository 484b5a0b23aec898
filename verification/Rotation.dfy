/** Round-robin over the backends that are still live. */
module Rotation {
  import opened Optional

  /** The live positions in `lo..hi`, in order. */
  function LiveIn(dead: seq<bool>, lo: nat, hi: nat): seq<nat>
    requires lo <= hi <= |dead|
    decreases hi - lo
  {
    if lo == hi then [] else if dead[lo] then LiveIn(dead, lo + 1, hi) else [lo] + LiveIn(dead, lo + 1, hi)
  }

  lemma {:induction false} LiveInMembers(dead: seq<bool>, lo: nat, hi: nat)
    requires lo <= hi <= |dead|
    ensures forall i :: i in LiveIn(dead, lo, hi) <==> lo <= i < hi && !dead[i]
    ensures forall i, j | 0 <= i < j < |LiveIn(dead, lo, hi)| :: LiveIn(dead, lo, hi)[i] < LiveIn(dead, lo, hi)[j]
    decreases hi - lo
  {
    if lo < hi {
      LiveInMembers(dead, lo + 1, hi);
      var rest := LiveIn(dead, lo + 1, hi);
      forall i | 0 <= i < |rest| ensures lo < rest[i] { assert rest[i] in rest; }
    }
  }

  /** The live backends in cyclic order, the cursor's first. */
  function LiveFrom(dead: seq<bool>, next: nat): seq<nat>
    requires next < |dead|
  {
    LiveIn(dead, next, |dead|) + LiveIn(dead, 0, next)
  }

  lemma {:induction false} LiveSplits(dead: seq<bool>, lo: nat, mid: nat, hi: nat)
    requires lo <= mid <= hi <= |dead|
    ensures LiveIn(dead, lo, hi) == LiveIn(dead, lo, mid) + LiveIn(dead, mid, hi)
    decreases mid - lo
  {
    if lo == mid {
      assert LiveIn(dead, lo, mid) == [];
    } else {
      LiveSplits(dead, lo + 1, mid, hi);
      assert [lo] + (LiveIn(dead, lo + 1, mid) + LiveIn(dead, mid, hi)) == [lo] + LiveIn(dead, lo + 1, mid) + LiveIn(dead, mid, hi);
    }
  }

  lemma LiveOne(dead: seq<bool>, i: nat)
    requires i < |dead|
    ensures LiveIn(dead, i, i + 1) == if dead[i] then [] else [i]
  {
    assert LiveIn(dead, i + 1, i + 1) == [];
  }

  lemma {:induction false} DeadIn(dead: seq<bool>, lo: nat, hi: nat)
    requires lo <= hi <= |dead| && forall i | lo <= i < hi :: dead[i]
    ensures LiveIn(dead, lo, hi) == []
    decreases hi - lo
  {
    if lo < hi { DeadIn(dead, lo + 1, hi); }
  }

  /** `b` is the first live backend at or after the cursor, going round. */
  ghost predicate FirstFrom(dead: seq<bool>, next: nat, b: nat)
    requires next < |dead|
  {
    && b < |dead| && !dead[b]
    && (if b >= next then forall i | next <= i < b :: dead[i]
        else (forall i | next <= i < |dead| :: dead[i]) && forall i | 0 <= i < b :: dead[i])
  }

  lemma TurnsAhead(dead: seq<bool>, next: nat, b: nat)
    requires next <= b < |dead| && FirstFrom(dead, next, b)
    ensures LiveIn(dead, next, |dead|) == [b] + LiveIn(dead, b + 1, |dead|)
    ensures LiveIn(dead, 0, b + 1) == LiveIn(dead, 0, next) + [b]
  {
    LiveOne(dead, b);
    DeadIn(dead, next, b);
    LiveSplits(dead, next, b, |dead|);
    LiveSplits(dead, 0, next, b + 1);
    LiveSplits(dead, next, b, b + 1);
  }

  lemma TurnsAround(dead: seq<bool>, next: nat, b: nat)
    requires b < next < |dead| && FirstFrom(dead, next, b)
    ensures LiveFrom(dead, next) == [b] + LiveIn(dead, b + 1, next)
    ensures LiveFrom(dead, b + 1) == LiveIn(dead, b + 1, next) + [b]
  {
    LiveOne(dead, b);
    DeadIn(dead, next, |dead|);
    DeadIn(dead, 0, b);
    LiveSplits(dead, 0, b, next);
    LiveSplits(dead, b + 1, next, |dead|);
    LiveSplits(dead, 0, b, b + 1);
  }

  /** The position after `b`, going round `n`. */
  function Follow(b: nat, n: nat): (r: nat)
    requires b < n
    ensures r < n && r == (b + 1) % n
  {
    if b + 1 == n then 0 else b + 1
  }

  lemma TurnsAtEnd(dead: seq<bool>, next: nat, b: nat)
    requires next <= b < |dead| && FirstFrom(dead, next, b)
    ensures LiveFrom(dead, next) == [b] + (LiveIn(dead, b + 1, |dead|) + LiveIn(dead, 0, next))
    ensures LiveFrom(dead, Follow(b, |dead|)) == LiveIn(dead, b + 1, |dead|) + LiveIn(dead, 0, next) + [b]
  {
    TurnsAhead(dead, next, b);
    var late, early := LiveIn(dead, b + 1, |dead|), LiveIn(dead, 0, next);
    assert [b] + late + early == [b] + (late + early);
    if b + 1 == |dead| {
      assert LiveFrom(dead, 0) == LiveIn(dead, 0, b + 1) + [];
    }
    assert late + (early + [b]) == late + early + [b];
  }

  /** Taking the first live backend and moving past it turns the cyclic order by one. */
  lemma TurnsByOne(dead: seq<bool>, next: nat, b: nat)
    requires next < |dead| && FirstFrom(dead, next, b)
    ensures LiveFrom(dead, next) != [] && LiveFrom(dead, next)[0] == b
    ensures LiveFrom(dead, Follow(b, |dead|)) == LiveFrom(dead, next)[1..] + [b]
  {
    if b < next { TurnsAround(dead, next, b); } else { TurnsAtEnd(dead, next, b); }
  }

  lemma NoneLive(dead: seq<bool>, next: nat)
    requires next < |dead|
    ensures LiveFrom(dead, next) == [] <==> forall i | 0 <= i < |dead| :: dead[i]
  {
    if forall i | 0 <= i < |dead| :: dead[i] {
      DeadIn(dead, next, |dead|);
      DeadIn(dead, 0, next);
    } else {
      var i :| 0 <= i < |dead| && !dead[i];
      LiveInMembers(dead, next, |dead|);
      LiveInMembers(dead, 0, next);
      assert i in LiveIn(dead, next, |dead|) || i in LiveIn(dead, 0, next);
    }
  }

  // ----- Picking -----

  datatype Picked = Picked(backend: Option<nat>, next: nat)

  /** What one pick does: the first live backend in cyclic order, or none. */
  function Pick(dead: seq<bool>, next: nat): (p: Picked)
    requires |dead| > 0 ==> next < |dead|
    ensures |dead| > 0 ==> p.next < |dead|
  {
    if |dead| == 0 || LiveFrom(dead, next) == [] then Picked(None, next)
    else
      LiveInMembers(dead, next, |dead|);
      LiveInMembers(dead, 0, next);
      var first := LiveFrom(dead, next)[0];
      assert first in LiveIn(dead, next, |dead|) || first in LiveIn(dead, 0, next);
      Picked(Some(first), Follow(first, |dead|))
  }

  /** The cursor after `k` picks. */
  function Cursor(dead: seq<bool>, next: nat, k: nat): (r: nat)
    requires next < |dead|
    ensures r < |dead|
  {
    if k == 0 then next else Pick(dead, Cursor(dead, next, k - 1)).next
  }

  /** What `k` picks in a row return. */
  function Picks(dead: seq<bool>, next: nat, k: nat): (r: seq<Option<nat>>)
    requires next < |dead|
    ensures |r| == k
  {
    if k == 0 then [] else Picks(dead, next, k - 1) + [Pick(dead, Cursor(dead, next, k - 1)).backend]
  }

  lemma FirstIsFirst(dead: seq<bool>, next: nat)
    requires next < |dead| && LiveFrom(dead, next) != []
    ensures FirstFrom(dead, next, LiveFrom(dead, next)[0])
  {
    var b, n := LiveFrom(dead, next)[0], |dead|;
    var late, early := LiveIn(dead, next, n), LiveIn(dead, 0, next);
    LiveInMembers(dead, next, n);
    LiveInMembers(dead, 0, next);
    if late != [] {
      assert late[0] in late;
      forall i | next <= i < b ensures dead[i] { assert i !in late; }
    } else {
      assert early[0] in early;
      forall i | next <= i < n ensures dead[i] { assert i !in late; }
      forall i | 0 <= i < b ensures dead[i] { assert i !in early; }
    }
  }

  function Wrap<T>(xs: seq<T>): seq<Option<T>> {
    seq(|xs|, i requires 0 <= i < |xs| => Some(xs[i]))
  }

  lemma PickTurns(dead: seq<bool>, next: nat)
    requires next < |dead| && LiveFrom(dead, next) != []
    ensures var live := LiveFrom(dead, next);
            Pick(dead, next).backend == Some(live[0]) && LiveFrom(dead, Pick(dead, next).next) == live[1..] + [live[0]]
  {
    FirstIsFirst(dead, next);
    TurnsByOne(dead, next, LiveFrom(dead, next)[0]);
  }

  lemma TurnOnce<T>(xs: seq<T>, ys: seq<T>, k: nat)
    requires k < |xs| && ys == xs[k..] + xs[..k]
    ensures ys != [] && ys[0] == xs[k] && ys[1..] + [ys[0]] == xs[k + 1..] + xs[..k + 1]
  {
  }

  lemma PickAt(dead: seq<bool>, at: nat, live: seq<nat>, k: nat)
    requires at < |dead| && k < |live| && LiveFrom(dead, at) == live[k..] + live[..k]
    ensures Pick(dead, at).backend == Some(live[k])
    ensures LiveFrom(dead, Pick(dead, at).next) == live[k + 1..] + live[..k + 1]
  {
    TurnOnce(live, LiveFrom(dead, at), k);
    PickTurns(dead, at);
  }

  /** After `k` picks the cyclic order has turned by `k`. */
  lemma {:induction false} CursorTurns(dead: seq<bool>, next: nat, k: nat)
    requires next < |dead| && k <= |LiveFrom(dead, next)|
    ensures LiveFrom(dead, Cursor(dead, next, k)) == LiveFrom(dead, next)[k..] + LiveFrom(dead, next)[..k]
  {
    if k > 0 {
      CursorTurns(dead, next, k - 1);
      PickAt(dead, Cursor(dead, next, k - 1), LiveFrom(dead, next), k - 1);
    }
  }

  lemma WrapSnoc<T>(xs: seq<T>, k: nat)
    requires 0 < k <= |xs|
    ensures Wrap(xs[..k]) == Wrap(xs[..k - 1]) + [Some(xs[k - 1])]
  {
  }

  /** With the dead set fixed, picks in a row walk the cyclic order. */
  lemma {:induction false} PicksWalk(dead: seq<bool>, next: nat, k: nat)
    requires next < |dead| && k <= |LiveFrom(dead, next)|
    ensures Picks(dead, next, k) == Wrap(LiveFrom(dead, next)[..k])
  {
    if k > 0 {
      var live := LiveFrom(dead, next);
      PicksWalk(dead, next, k - 1);
      CursorTurns(dead, next, k - 1);
      PickAt(dead, Cursor(dead, next, k - 1), live, k - 1);
      WrapSnoc(live, k);
    }
  }

  function LiveSet(dead: seq<bool>): set<nat> {
    set i | 0 <= i < |dead| && !dead[i]
  }

  /** Round-robin exactness: with the dead set fixed and L backends live, any L picks in a
      row, from any cursor, return each live backend exactly once, in cyclic order. */
  lemma EveryLiveBackendOnce(dead: seq<bool>, next: nat)
    requires next < |dead|
    ensures var live := LiveFrom(dead, next);
            && Picks(dead, next, |live|) == Wrap(live)
            && (forall i, j | 0 <= i < j < |live| :: live[i] != live[j])
            && (forall i :: i in live <==> i in LiveSet(dead))
  {
    var live := LiveFrom(dead, next);
    PicksWalk(dead, next, |live|);
    assert live[..|live|] == live;
    CyclicOnce(dead, next);
  }

  lemma CyclicOnce(dead: seq<bool>, next: nat)
    requires next < |dead|
    ensures var live := LiveFrom(dead, next);
            && (forall i, j | 0 <= i < j < |live| :: live[i] != live[j])
            && (forall i :: i in live <==> i in LiveSet(dead))
  {
    LiveInMembers(dead, next, |dead|);
    LiveInMembers(dead, 0, next);
    var late, early := LiveIn(dead, next, |dead|), LiveIn(dead, 0, next);
    forall i, j | 0 <= i < |late| && 0 <= j < |early| ensures late[i] != early[j] { assert late[i] in late && early[j] in early; }
  }
}
