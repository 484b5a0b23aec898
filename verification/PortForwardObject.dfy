/** The port-forward registry as it runs, and that each of its calls is a run of the
    machine that races them against context switches. */
module PortForwardObject {
  import opened Optional
  import P = PortForwards

  datatype Forward = Forward(context: string, localPort: nat)

  datatype Started = Started(id: nat) | NotEstablished | ContextMoved

  ghost predicate EachOnce(ids: seq<nat>, all: set<nat>) {
    (forall i, j | 0 <= i < j < |ids| :: ids[i] != ids[j]) && forall id :: id in all <==> id in ids
  }

  function Off(forwards: map<nat, Forward>, current: string): set<nat> {
    set id | id in forwards && forwards[id].context != current
  }

  /** These went, each of them stopped once after everything stopped before. */
  ghost predicate Went(
    forwards: map<nat, Forward>, stopped: seq<nat>, off: set<nat>, forwards': map<nat, Forward>, stopped': seq<nat>)
  {
    && forwards' == forwards - off
    && |stopped| <= |stopped'| && stopped'[..|stopped|] == stopped && EachOnce(stopped'[|stopped|..], off)
  }

  class PortForwardManager {
    var forwards: map<nat, Forward>
    var idSeq: nat
    /** The forwards this registry has stopped, in order. */
    ghost var stopped: seq<nat>

    /** Identifiers are handed out once, so nothing is stopped twice. */
    ghost predicate Valid()
      reads this
    {
      && (forall id :: id in forwards ==> 0 < id <= idSeq && id !in stopped)
      && (forall i | 0 <= i < |stopped| :: stopped[i] <= idSeq)
      && (forall i, j | 0 <= i < j < |stopped| :: stopped[i] != stopped[j])
    }

    constructor ()
      ensures Valid() && forwards == map[] && stopped == []
    {
      forwards, idSeq, stopped := map[], 0, [];
    }

    method Remove(id: nat) returns (ok: bool)
      requires Valid()
      modifies `forwards
      ensures Valid() && ok == (id in old(forwards)) && forwards == old(forwards) - {id}
    {
      ok := id in forwards;
      forwards := forwards - {id};
    }

    method Stop(id: nat) returns (ok: bool)
      requires Valid()
      modifies `forwards, `stopped
      ensures Valid() && ok == (id in old(forwards)) && forwards == old(forwards) - {id}
      ensures stopped == if ok then old(stopped) + [id] else old(stopped)
      ensures Went(old(forwards), old(stopped), if ok then {id} else {}, forwards, stopped)
    {
      ok := id in forwards;
      if ok {
        forwards := forwards - {id};
        stopped := stopped + [id];
      }
    }

    /** Takes the forwards in `doomed` out, then stops each of them. */
    method StopAll(doomed: seq<nat>)
      requires (forall i | 0 <= i < |doomed| :: doomed[i] !in stopped && doomed[i] <= idSeq && doomed[i] !in forwards)
      requires Valid() && forall i, j | 0 <= i < j < |doomed| :: doomed[i] != doomed[j]
      modifies `stopped
      ensures Valid() && stopped == old(stopped) + doomed
    {
      var i := 0;
      while i < |doomed|
        invariant 0 <= i <= |doomed| && stopped == old(stopped) + doomed[..i] && Valid()
      {
        stopped := stopped + [doomed[i]];
        i := i + 1;
      }
    }

    /** Removes every forward in `off`, listing them. */
    method Collect(off: set<nat>) returns (doomed: seq<nat>)
      requires Valid() && off <= forwards.Keys
      modifies `forwards
      ensures Valid() && EachOnce(doomed, off) && forwards == old(forwards) - off
    {
      doomed := [];
      var left := off;
      while left != {}
        invariant left <= off && EachOnce(doomed, off - left) && forwards == old(forwards) - (off - left) && Valid()
        decreases left
      {
        var id :| id in left;
        left := left - {id};
        doomed := doomed + [id];
        forwards := forwards - {id};
      }
      assert off - left == off;
    }

    /** The context-switch teardown: exactly the forwards off `current` go, each stopped once. */
    method CloseOthers(current: string)
      requires Valid()
      modifies `forwards, `stopped
      ensures Valid() && Went(old(forwards), old(stopped), Off(old(forwards), current), forwards, stopped)
      ensures forall id :: id in forwards <==> id in old(forwards) && old(forwards)[id].context == current
      ensures forall id :: id in forwards ==> forwards[id] == old(forwards)[id]
    {
      var doomed := Collect(Off(forwards, current));
      OutOfReach(old(forwards), stopped, doomed, Off(old(forwards), current));
      StopAll(doomed);
      assert stopped[|old(stopped)|..] == doomed;
    }

    /** The shutdown teardown. */
    method CloseAll()
      requires Valid()
      modifies `forwards, `stopped
      ensures Valid() && forwards == map[] && Went(old(forwards), old(stopped), old(forwards).Keys, forwards, stopped)
    {
      var doomed := Collect(forwards.Keys);
      OutOfReach(old(forwards), stopped, doomed, old(forwards).Keys);
      StopAll(doomed);
      assert stopped[|old(stopped)|..] == doomed;
    }

    /** Registers an established forward under a fresh identifier. */
    method Register(f: Forward) returns (id: nat)
      requires Valid()
      modifies `forwards, `idSeq
      ensures Valid() && id !in old(forwards) && id !in stopped && forwards == old(forwards)[id := f]
      ensures id == idSeq == old(idSeq) + 1
    {
      idSeq := idSeq + 1;
      id := idSeq;
      forwards := forwards[id := f];
    }

    /** The end of a start, after registering: keeps the forward if the active context is
        still the one it was established on, and otherwise takes it out and stops it. */
    method Reconcile(id: nat, current: Option<string>, context: string) returns (kept: bool)
      requires Valid() && id !in stopped && id <= idSeq
      modifies `forwards, `stopped
      ensures Valid() && kept == (current == Some(context))
      ensures kept ==> forwards == old(forwards) && stopped == old(stopped)
      ensures !kept ==> forwards == old(forwards) - {id}
      ensures !kept ==> stopped == if id in old(forwards) then old(stopped) + [id] else old(stopped)
    {
      if current.None? || current.value != context {
        var ours := Remove(id);
        if ours { stopped := stopped + [id]; }
        return false;
      }
      return true;
    }

    /** A start from the context it resolved to the one it finds active at the end. */
    method Start(context: string, established: Option<nat>, current: Option<string>) returns (r: Started)
      requires Valid()
      modifies this
      ensures Valid()
      ensures established.None? ==> r == NotEstablished && forwards == old(forwards) && stopped == old(stopped) && idSeq == old(idSeq)
      ensures established.Some? ==> idSeq == old(idSeq) + 1 && idSeq !in old(forwards)
      ensures established.Some? && current == Some(context) ==>
                r == Started(idSeq) && forwards == old(forwards)[idSeq := Forward(context, established.value)] && stopped == old(stopped)
      ensures established.Some? && current != Some(context) ==>
                r == ContextMoved && forwards == old(forwards) && stopped == old(stopped) + [idSeq]
    {
      if established.None? { return NotEstablished; }
      var id := Register(Forward(context, established.value));
      var kept := Reconcile(id, current, context);
      if kept { return Started(id); }
      assert old(forwards)[id := Forward(context, established.value)] - {id} == old(forwards);
      return ContextMoved;
    }
  }

  lemma OutOfReach(forwards: map<nat, Forward>, stopped: seq<nat>, doomed: seq<nat>, off: set<nat>)
    requires EachOnce(doomed, off) && off <= forwards.Keys && forall id :: id in forwards ==> id !in stopped
    ensures forall i | 0 <= i < |doomed| :: doomed[i] !in stopped && doomed[i] in off && doomed[i] !in forwards - off
  {
  }

  // ----- The registry's calls, as runs of the machine -----

  /** The machine's state agrees with the registry; identifiers up to `n` have been used. */
  ghost predicate Mirrors(n: nat, forwards: map<nat, Forward>, stopped: seq<nat>, s: P.State) {
    && s.forwards == forwards.Keys && s.stops == multiset(stopped)
    && (forall id :: id in forwards ==> P.At(s, id, P.Returned(true)) && s.starts[id].context == forwards[id].context)
    && (forall id :: id in s.starts ==> id <= n)
  }

  /** The step that takes `off` out of the registry. */
  ghost predicate Takes(s: P.State, l: P.Label, off: set<nat>) {
    match l
    case Observe(token) => token in s.pending && off == P.Others(s, s.pending[token])
    case CloseAll => off == s.forwards
    case Stop(id) => off == if id in s.forwards then {id} else {}
    case _ => false
  }

  lemma OffIsOthers(n: nat, forwards: map<nat, Forward>, stopped: seq<nat>, s: P.State, current: string)
    requires Mirrors(n, forwards, stopped, s)
    ensures Off(forwards, current) == P.Others(s, current)
  {
  }

  /** Whoever took forwards out stops them one by one. */
  lemma {:induction false} StopsOwed(s0: P.State, s: P.State, ls: seq<P.Label>, ids: seq<nat>) returns (r: seq<P.Label>, t: P.State)
    requires P.Run(s0, ls) == Some(s)
    requires forall i | 0 <= i < |ids| :: ids[i] in s.owed && P.At(s, ids[i], P.Returned(true))
    requires forall i, j | 0 <= i < j < |ids| :: ids[i] != ids[j]
    ensures P.Run(s0, r) == Some(t) && t.forwards == s.forwards && t.starts == s.starts && t.stops == s.stops + multiset(ids)
    ensures t.pending == s.pending && t.active == s.active
    decreases |ids|
  {
    if ids == [] {
      r, t := ls, s;
    } else {
      r, t := P.Then(s0, s, ls, P.StopOwed(ids[0]));
      r, t := StopsOwed(s0, t, r, ids[1..]);
      assert ids == [ids[0]] + ids[1..];
    }
  }

  lemma TakesOut(s: P.State, l: P.Label, off: set<nat>)
    requires Takes(s, l, off)
    ensures off <= s.forwards && P.Enabled(s, l)
    ensures var u := P.Step(s, l);
            && u.forwards == s.forwards - off && off <= u.owed && u.starts == s.starts && u.stops == s.stops && u.active == s.active
            && u.pending == if l.Observe? then s.pending - {l.token} else s.pending
  {
  }

  /** Taking forwards out and stopping each of them is a run of the machine: the observer
      of a switch, the shutdown or a stop, and then its stops. */
  lemma TakingOutIsARun(
    n: nat, forwards: map<nat, Forward>, stopped: seq<nat>, off: set<nat>, forwards': map<nat, Forward>, stopped': seq<nat>,
    s: P.State, l: P.Label) returns (ls: seq<P.Label>, t: P.State)
    requires Mirrors(n, forwards, stopped, s) && Takes(s, l, off) && Went(forwards, stopped, off, forwards', stopped')
    ensures P.Run(s, ls) == Some(t) && Mirrors(n, forwards', stopped', t)
    ensures t.active == s.active && t.pending == if l.Observe? then s.pending - {l.token} else s.pending
  {
    var ids := stopped'[|stopped|..];
    var u: P.State;
    ls, u := P.Then(s, s, [], l);
    TakesOut(s, l, off);
    forall i | 0 <= i < |ids| ensures ids[i] in u.owed && P.At(u, ids[i], P.Returned(true)) {
      assert ids[i] in off && ids[i] in forwards;
    }
    ls, t := StopsOwed(s, u, ls, ids);
    assert stopped' == stopped + ids;
  }

  /** Closing the forwards off the context of a switch is that switch's observer, run. */
  lemma CloseOthersIsObserve(
    n: nat, forwards: map<nat, Forward>, stopped: seq<nat>, forwards': map<nat, Forward>, stopped': seq<nat>, s: P.State, token: nat)
    returns (ls: seq<P.Label>, t: P.State)
    requires Mirrors(n, forwards, stopped, s) && token in s.pending
    requires Went(forwards, stopped, Off(forwards, s.pending[token]), forwards', stopped')
    ensures P.Run(s, ls) == Some(t) && Mirrors(n, forwards', stopped', t)
    ensures t.active == s.active && t.pending == s.pending - {token}
  {
    OffIsOthers(n, forwards, stopped, s, s.pending[token]);
    ls, t := TakingOutIsARun(n, forwards, stopped, Off(forwards, s.pending[token]), forwards', stopped', s, P.Observe(token));
  }

  /** A start up to where its forward is registered; a switch may come while it establishes. */
  lemma Registers(s: P.State, id: nat, moved: Option<(nat, string)>) returns (ls: seq<P.Label>, t: P.State)
    requires id !in s.starts && id !in s.forwards && (moved.Some? ==> moved.value.0 !in s.pending)
    ensures P.Run(s, ls) == Some(t) && t.starts == s.starts[id := P.Start(s.active, P.Unchecked)]
    ensures t.forwards == s.forwards + {id} && t.stops == s.stops
    ensures t.active == if moved.Some? then moved.value.1 else s.active
  {
    ls, t := P.Then(s, s, [], P.Begin(id));
    if moved.Some? { ls, t := P.Then(s, t, ls, P.Switch(moved.value.0, moved.value.1)); }
    ls, t := P.Then(s, t, ls, P.Establish(id));
    ls, t := P.Then(s, t, ls, P.Register(id));
  }

  /** A start that keeps its forward. */
  lemma StartKeptIsARun(n: nat, forwards: map<nat, Forward>, stopped: seq<nat>, s: P.State, localPort: nat)
      returns (ls: seq<P.Label>, t: P.State)
    requires Mirrors(n, forwards, stopped, s)
    ensures P.Run(s, ls) == Some(t) && t.active == s.active
    ensures Mirrors(n + 1, forwards[n + 1 := Forward(s.active, localPort)], stopped, t)
  {
    ls, t := Registers(s, n + 1, None);
    ls, t := P.Then(s, t, ls, P.Recheck(n + 1, false));
  }

  /** A start that finds another context active at the end, or cannot tell. */
  lemma StartMovedIsARun(
    n: nat, forwards: map<nat, Forward>, stopped: seq<nat>, s: P.State, token: nat, current: Option<string>)
      returns (ls: seq<P.Label>, t: P.State)
    requires Mirrors(n, forwards, stopped, s) && token !in s.pending && current != Some(s.active)
    ensures P.Run(s, ls) == Some(t) && t.active == if current.Some? then current.value else s.active
    ensures Mirrors(n + 1, forwards, stopped + [n + 1], t)
  {
    ls, t := Registers(s, n + 1, if current.Some? then Some((token, current.value)) else None);
    ls, t := TakesBack(s, t, ls, n + 1, current.None?);
  }

  /** The recheck fails: the start takes its own forward back out and stops it. */
  lemma TakesBack(s0: P.State, s: P.State, ls: seq<P.Label>, id: nat, failed: bool) returns (r: seq<P.Label>, t: P.State)
    requires P.Run(s0, ls) == Some(s) && P.At(s, id, P.Unchecked) && id in s.forwards && (failed || s.active != s.starts[id].context)
    ensures P.Run(s0, r) == Some(t) && t.active == s.active && t.forwards == s.forwards - {id}
    ensures t.stops == s.stops + multiset{id} && t.starts == s.starts[id := s.starts[id].(stage := P.Returned(false))]
  {
    r, t := P.Then(s0, s, ls, P.Recheck(id, failed));
    r, t := P.Then(s0, t, r, P.Reconcile(id));
    r, t := P.Then(s0, t, r, P.StopOwn(id));
  }
}
