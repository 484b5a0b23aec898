/** One subscriber's event stream: deliveries that never block, and the loop that turns
    the buffer into frames. Every label is one atomic step of one of the goroutines
    involved, so a run is any interleaving of them. */
module StreamFeed {
  import opened Optional

  /** What the client receives; an event frame carries the position of its notification. */
  datatype Frame = StatusFrame | ResyncFrame | EventFrame(at: nat) | Heartbeat

  /** Where the loop stands. `Resyncing` remembers how many notifications had been
      delivered when the drain found the buffer empty. */
  datatype Pc =
    | Top | SendStatus | CheckResync | Draining | Resyncing(drained: nat)
    | Waiting | Sending(at: nat) | Closed

  /** `raising` counts deliveries between their failed send and raising the flag.
      `delivered` to `mark` are the history: every matching
      notification in order; the positions taken for writing, in all and since the last
      resync frame; those dropped, drained or cut off; and where that frame's drain ended. */
  datatype State<E> = State(
    capacity: nat, queue: seq<nat>, flag: bool, raising: nat, status: bool, pc: Pc, frames: seq<Frame>,
    delivered: seq<E>, consumed: seq<nat>, taken: seq<nat>, skipped: set<nat>, lost: set<nat>, mark: nat)

  function Opened<E>(capacity: nat): State<E> {
    State(capacity, [], false, 0, false, Top, [], [], [], [], {}, {}, 0)
  }

  /** How one write of an event ends: on the wire, skipped because it cannot be encoded,
      or with the client gone. */
  datatype Outcome = Written | Skipped | Broken

  datatype Label<E> =
    | TrySend(event: E) | RaiseFlag | BroadcastResync | BroadcastStatus
    | TakeStatus | WriteStatus(ok: bool) | TakeResync | DrainOne | DrainEnd | WriteResync(ok: bool)
    | Receive | WriteEvent(outcome: Outcome) | Tick(stay: bool) | Cancel

  predicate Enabled<E>(s: State<E>, l: Label<E>) {
    match l
    case TrySend(_) => true
    case RaiseFlag => s.raising > 0
    case BroadcastResync => true
    case BroadcastStatus => true
    case TakeStatus => s.pc.Top?
    case WriteStatus(_) => s.pc.SendStatus?
    case TakeResync => s.pc.CheckResync?
    case DrainOne => s.pc.Draining? && s.queue != []
    case DrainEnd => s.pc.Draining? && s.queue == []
    case WriteResync(_) => s.pc.Resyncing?
    case Receive => s.pc.Waiting? && s.queue != []
    case WriteEvent(_) => s.pc.Sending?
    case Tick(_) => s.pc.Waiting?
    case Cancel => s.pc.Waiting?
  }

  /** The non-blocking send: into the buffer, straight to a waiting reader of an
      unbuffered channel, or dropped. */
  function Send<E>(s: State<E>, event: E): State<E> {
    var at := |s.delivered|;
    var s1 := s.(delivered := s.delivered + [event]);
    if |s.queue| < s.capacity then s1.(queue := s.queue + [at])
    else if s.capacity == 0 && s.pc.Waiting? then s1.(pc := Sending(at))
    else s1.(raising := s.raising + 1, lost := s.lost + {at})
  }

  function Step<E>(s: State<E>, l: Label<E>): State<E>
    requires Enabled(s, l)
  {
    match l
    case TrySend(event) => Send(s, event)
    case RaiseFlag => s.(raising := s.raising - 1, flag := true)
    case BroadcastResync => s.(flag := true)
    case BroadcastStatus => s.(status := true)
    case TakeStatus => s.(status := false, pc := if s.status then SendStatus else CheckResync)
    case WriteStatus(ok) => if ok then s.(pc := CheckResync, frames := s.frames + [StatusFrame]) else s.(pc := Closed)
    case TakeResync => s.(flag := false, pc := if s.flag then Draining else Waiting)
    case DrainOne => s.(queue := s.queue[1..], lost := s.lost + {s.queue[0]})
    case DrainEnd => s.(pc := Resyncing(|s.delivered|))
    case WriteResync(ok) =>
      if ok then s.(pc := Waiting, frames := s.frames + [ResyncFrame], taken := [], mark := s.pc.drained)
      else s.(pc := Closed)
    case Receive => s.(pc := Sending(s.queue[0]), queue := s.queue[1..])
    case WriteEvent(outcome) =>
      if outcome.Broken? then s.(pc := Closed, lost := s.lost + {s.pc.at})
      else s.(pc := Top, frames := if outcome.Written? then s.frames + [EventFrame(s.pc.at)] else s.frames,
              skipped := if outcome.Skipped? then s.skipped + {s.pc.at} else s.skipped,
              consumed := s.consumed + [s.pc.at], taken := s.taken + [s.pc.at])
    case Tick(stay) => if stay then s.(pc := Top, frames := s.frames + [Heartbeat]) else s.(pc := Closed)
    case Cancel => s.(pc := Closed)
  }

  /** Where these steps lead, when each is enabled in turn. */
  function Run<E>(s: State<E>, ls: seq<Label<E>>): Option<State<E>> {
    if ls == [] then Some(s)
    else
      match Run(s, ls[..|ls| - 1])
      case None => None
      case Some(t) => if Enabled(t, ls[|ls| - 1]) then Some(Step(t, ls[|ls| - 1])) else None
  }

  // ----- What holds in every state -----

  /** Positions in delivery order, from `lo` on and below `hi`. */
  ghost predicate Climbs(xs: seq<nat>, lo: nat, hi: nat) {
    && (forall i | 0 <= i < |xs| :: lo <= xs[i] < hi)
    && (forall i, j | 0 <= i < j < |xs| :: xs[i] < xs[j])
  }

  /** Every position from `lo` up to `hi`, in order. */
  function Stretch(lo: nat, hi: nat): seq<nat>
    requires lo <= hi
  {
    seq(hi - lo, i => lo + i)
  }

  function InHand(pc: Pc): seq<nat> {
    if pc.Sending? then [pc.at] else []
  }

  /** The position being written, then those still queued. */
  function Rest<E>(s: State<E>): seq<nat> {
    InHand(s.pc) + s.queue
  }

  /** Positions already taken, then the rest. */
  function Line<E>(gone: seq<nat>, s: State<E>): seq<nat> {
    gone + Rest(s)
  }

  /** The line since the last resync frame. */
  function Window<E>(s: State<E>): seq<nat> {
    Line(s.taken, s)
  }

  /** A resync is due or under way. */
  predicate Owed<E>(s: State<E>) {
    s.flag || s.raising > 0 || s.pc.Draining? || s.pc.Resyncing?
  }

  ghost predicate NoGap<E>(s: State<E>) {
    !Owed(s) && !s.pc.Closed? ==> s.mark <= |s.delivered| && Window(s) == Stretch(s.mark, |s.delivered|)
  }

  /** Nothing is missing behind the drain of a resync about to be written. */
  ghost predicate Drained<E>(s: State<E>) {
    s.pc.Resyncing? ==>
      && s.mark <= s.pc.drained <= |s.delivered| && Climbs(s.queue, s.pc.drained, |s.delivered|)
      && (!s.flag && s.raising == 0 ==> s.queue == Stretch(s.pc.drained, |s.delivered|))
  }

  /** Whatever was lost lies before the last resync frame's drain, or a resync is owed. */
  ghost predicate Covered<E>(s: State<E>) {
    (forall i :: i in s.lost ==> i < |s.delivered|)
    && (!s.flag && s.raising == 0 && !s.pc.Draining? && !s.pc.Closed? ==>
          forall i :: i in s.lost ==> i < if s.pc.Resyncing? then s.pc.drained else s.mark)
  }

  /** Everything delivered is written or skipped, being written, queued or lost, once. */
  ghost predicate Accounted<E>(s: State<E>) {
    var path := Line(s.consumed, s);
    && Climbs(path, 0, |s.delivered|)
    && (forall i: nat :: i < |s.delivered| <==> i in path || i in s.lost)
    && (forall i :: i in path ==> i !in s.lost)
  }

  ghost predicate Balanced<E>(s: State<E>) {
    |s.delivered| == |Line(s.consumed, s)| + |s.lost|
  }

  ghost predicate Ordered<E>(s: State<E>) {
    s.mark <= |s.delivered| && Climbs(Window(s), s.mark, |s.delivered|)
  }

  /** The positions of the event frames since the last resync frame. */
  function Since(frames: seq<Frame>): seq<nat> {
    if frames == [] then []
    else
      var last := frames[|frames| - 1];
      if last.ResyncFrame? then []
      else Since(frames[..|frames| - 1]) + if last.EventFrame? then [last.at] else []
  }

  function Kept(taken: seq<nat>, skipped: set<nat>): seq<nat> {
    if taken == [] then []
    else
      var last := taken[|taken| - 1];
      Kept(taken[..|taken| - 1], skipped) + if last in skipped then [] else [last]
  }

  /** The frames are what was taken and could be encoded. */
  ghost predicate Framed<E>(s: State<E>) {
    Since(s.frames) == Kept(s.taken, s.skipped) && (forall i :: i in s.skipped ==> i in s.consumed)
  }

  ghost predicate Inv<E>(s: State<E>) {
    && |s.queue| <= s.capacity && Framed(s)
    && Ordered(s) && NoGap(s) && Drained(s) && Covered(s) && Accounted(s) && Balanced(s)
  }

  lemma SinceSnoc(frames: seq<Frame>, f: Frame)
    ensures Since(frames + [f]) == if f.ResyncFrame? then [] else Since(frames) + if f.EventFrame? then [f.at] else []
  {
    assert (frames + [f])[..|frames|] == frames;
  }

  lemma KeptSnoc(taken: seq<nat>, skipped: set<nat>, at: nat)
    ensures Kept(taken + [at], skipped) == Kept(taken, skipped) + if at in skipped then [] else [at]
  {
    assert (taken + [at])[..|taken|] == taken;
  }

  lemma {:induction false} KeptIgnores(taken: seq<nat>, skipped: set<nat>, at: nat)
    requires at !in taken
    ensures Kept(taken, skipped + {at}) == Kept(taken, skipped)
  {
    if taken != [] { KeptIgnores(taken[..|taken| - 1], skipped, at); }
  }

  // ----- How a step moves the line -----

  predicate Dropped<E>(s: State<E>) {
    |s.queue| >= s.capacity && !(s.capacity == 0 && s.pc.Waiting?)
  }

  /** The step takes the head of the line out without writing it. */
  predicate Cuts<E>(l: Label<E>) {
    l.DrainOne? || (l.WriteEvent? && l.outcome.Broken?)
  }

  function Without(xs: seq<nat>, i: nat): seq<nat>
    requires i < |xs|
  {
    xs[..i] + xs[i + 1..]
  }

  function Taking<E>(s: State<E>, l: Label<E>): seq<nat>
    requires Enabled(s, l)
  {
    if l.WriteEvent? && !Cuts(l) then [s.pc.at] else []
  }

  /** What a step does to a line of which `k` positions are gone. */
  function Moved<E>(s: State<E>, l: Label<E>, line: seq<nat>, k: nat): seq<nat>
    requires Cuts(l) ==> k < |line|
  {
    if l.TrySend? then line + (if Dropped(s) then [] else [|s.delivered|])
    else if Cuts(l) then Without(line, k)
    else line
  }

  lemma LineMoves<E>(s: State<E>, l: Label<E>, gone: seq<nat>)
    requires Enabled(s, l) && |s.queue| <= s.capacity
    ensures Cuts(l) ==> |gone| < |Line(gone, s)|
    ensures Line(gone + Taking(s, l), Step(s, l)) == Moved(s, l, Line(gone, s), |gone|)
  {
    RestMoves(s, l);
    var before, now := Rest(s), Rest(Step(s, l));
    if l.TrySend? {
      AppendTail(gone, before, if Dropped(s) then [] else [|s.delivered|], now);
    } else if Cuts(l) {
      CutHead(gone, before, now);
    } else if l.WriteEvent? {
      AppendTail(gone, [s.pc.at], now, before);
      assert gone + [] + before == gone + before;
    } else {
      assert gone + [] == gone;
    }
  }

  lemma AppendTail(gone: seq<nat>, before: seq<nat>, more: seq<nat>, now: seq<nat>)
    requires now == before + more
    ensures gone + [] + now == gone + before + more
  {
  }

  lemma CutHead(gone: seq<nat>, before: seq<nat>, now: seq<nat>)
    requires before != [] && before == [before[0]] + now
    ensures |gone| < |gone + before| && gone + [] + now == Without(gone + before, |gone|)
  {
    assert gone + before == gone + [before[0]] + now;
  }

  lemma RestMoves<E>(s: State<E>, l: Label<E>)
    requires Enabled(s, l) && |s.queue| <= s.capacity
    ensures l.TrySend? ==> Rest(Step(s, l)) == Rest(s) + if Dropped(s) then [] else [|s.delivered|]
    ensures Cuts(l) ==> Rest(s) != [] && Rest(s) == [Rest(s)[0]] + Rest(Step(s, l))
    ensures l.WriteEvent? && !Cuts(l) ==> Rest(s) == [s.pc.at] + Rest(Step(s, l))
    ensures !l.TrySend? && !Cuts(l) && !l.WriteEvent? ==> Rest(Step(s, l)) == Rest(s)
  {
    if l.TrySend? {
      SendMoves(s, l.event);
    } else if l.DrainOne? {
      assert Rest(s) == [s.queue[0]] + s.queue[1..];
    } else if l.WriteEvent? {
      assert Rest(Step(s, l)) == s.queue;
    } else if l.Receive? {
      assert Rest(s) == [s.queue[0]] + s.queue[1..];
    } else {
      RestStays(s, l);
    }
  }

  lemma SendMoves<E>(s: State<E>, event: E)
    requires |s.queue| <= s.capacity
    ensures Rest(Send(s, event)) == Rest(s) + if Dropped(s) then [] else [|s.delivered|]
  {
  }

  lemma RestStays<E>(s: State<E>, l: Label<E>)
    requires Enabled(s, l) && !l.TrySend? && !l.DrainOne? && !l.WriteEvent? && !l.Receive?
    ensures Step(s, l).queue == s.queue && InHand(Step(s, l).pc) == InHand(s.pc)
  {
  }

  lemma Delivers<E>(s: State<E>, l: Label<E>)
    requires Enabled(s, l)
    ensures |Step(s, l).delivered| == |s.delivered| + if l.TrySend? then 1 else 0
  {
  }

  lemma MovedClimbs<E>(s: State<E>, l: Label<E>, line: seq<nat>, k: nat, lo: nat, hi: nat)
    requires Cuts(l) ==> k < |line|
    requires lo <= |s.delivered| && Climbs(line, lo, |s.delivered|) && hi == |s.delivered| + if l.TrySend? then 1 else 0
    ensures Climbs(Moved(s, l, line, k), lo, hi)
  {
    ClimbsOn(line, lo, |s.delivered|);
    assert line + [] == line;
    if Cuts(l) { ClimbsWithout(line, lo, |s.delivered|, k); }
  }

  lemma MovedMembers<E>(s: State<E>, l: Label<E>, line: seq<nat>, k: nat)
    requires Cuts(l) ==> k < |line|
    requires Climbs(line, 0, |s.delivered|)
    ensures forall i :: i in Moved(s, l, line, k) <==>
              (i in line && !(Cuts(l) && i == line[k])) || (l.TrySend? && !Dropped(s) && i == |s.delivered|)
  {
    if Cuts(l) { ClimbsWithout(line, 0, |s.delivered|, k); }
  }

  lemma ClimbsOn(xs: seq<nat>, lo: nat, hi: nat)
    requires Climbs(xs, lo, hi) && lo <= hi
    ensures Climbs(xs, lo, hi + 1) && Climbs(xs + [hi], lo, hi + 1) && hi !in xs
  {
  }

  lemma ClimbsWithout(xs: seq<nat>, lo: nat, hi: nat, i: nat)
    requires Climbs(xs, lo, hi) && i < |xs|
    ensures Climbs(Without(xs, i), lo, hi)
    ensures forall x :: x in xs <==> x in Without(xs, i) || x == xs[i]
    ensures xs[i] !in Without(xs, i)
  {
    assert xs == xs[..i] + [xs[i]] + xs[i + 1..];
  }

  lemma StretchOn(lo: nat, hi: nat)
    requires lo <= hi
    ensures Stretch(lo, hi + 1) == Stretch(lo, hi) + [hi]
  {
  }

  lemma LineHead<E>(s: State<E>, gone: seq<nat>, lo: nat, hi: nat)
    requires s.pc.Sending? && Climbs(Line(gone, s), lo, hi)
    ensures lo <= s.pc.at < hi && s.pc.at !in gone
  {
    assert Line(gone, s)[|gone|] == s.pc.at;
    forall i | 0 <= i < |gone| ensures gone[i] < s.pc.at { assert Line(gone, s)[i] == gone[i]; }
  }

  // ----- Each part of the invariant, under each step -----

  lemma StepFrames<E>(s: State<E>, l: Label<E>)
    requires Framed(s) && Ordered(s) && Accounted(s) && |s.queue| <= s.capacity && Enabled(s, l)
    ensures Framed(Step(s, l)) && |Step(s, l).queue| <= s.capacity
  {
    if l.WriteEvent? && !Cuts(l) {
      var at := s.pc.at;
      LineHead(s, s.taken, s.mark, |s.delivered|);
      KeptIgnores(s.taken, s.skipped, at);
      LineHead(s, s.consumed, 0, |s.delivered|);
      KeptSnoc(s.taken, Step(s, l).skipped, at);
      SinceSnoc(s.frames, EventFrame(at));
    } else {
      SinceSnoc(s.frames, StatusFrame);
      SinceSnoc(s.frames, ResyncFrame);
      SinceSnoc(s.frames, Heartbeat);
    }
  }

  lemma StepOrdered<E>(s: State<E>, l: Label<E>)
    requires Ordered(s) && Drained(s) && |s.queue| <= s.capacity && Enabled(s, l)
    ensures Ordered(Step(s, l))
  {
    if l.WriteResync? && l.ok {
      assert Window(Step(s, l)) == s.queue;
    } else {
      LineMoves(s, l, s.taken);
      Delivers(s, l);
      MovedClimbs(s, l, Window(s), |s.taken|, s.mark, |Step(s, l).delivered|);
      TakenMoves(s, l);
    }
  }

  lemma TakenMoves<E>(s: State<E>, l: Label<E>)
    requires Enabled(s, l)
    ensures Step(s, l).consumed == s.consumed + Taking(s, l)
    ensures !(l.WriteResync? && l.ok) ==> Step(s, l).taken == s.taken + Taking(s, l) && Step(s, l).mark == s.mark
  {
  }

  lemma StepNoGap<E>(s: State<E>, l: Label<E>)
    requires NoGap(s) && Drained(s) && s.mark <= |s.delivered| && |s.queue| <= s.capacity && Enabled(s, l)
    ensures NoGap(Step(s, l))
  {
    if l.WriteResync? && l.ok {
      assert Window(Step(s, l)) == s.queue;
    } else if !Owed(Step(s, l)) && !Step(s, l).pc.Closed? {
      LineMoves(s, l, s.taken);
      Delivers(s, l);
      TakenMoves(s, l);
      StretchOn(s.mark, |s.delivered|);
      assert !Owed(s) && !Cuts(l) && (l.TrySend? ==> !Dropped(s));
    }
  }

  lemma StepDrained<E>(s: State<E>, l: Label<E>)
    requires Drained(s) && s.mark <= |s.delivered| && |s.queue| <= s.capacity && Enabled(s, l)
    ensures Drained(Step(s, l))
  {
    if s.pc.Resyncing? {
      ClimbsOn(s.queue, s.pc.drained, |s.delivered|);
      StretchOn(s.pc.drained, |s.delivered|);
    }
  }

  lemma StepCovered<E>(s: State<E>, l: Label<E>)
    requires Covered(s) && Accounted(s) && Enabled(s, l)
    ensures Covered(Step(s, l))
  {
    if s.pc.Sending? { LineHead(s, s.consumed, 0, |s.delivered|); }
    if s.queue != [] { assert Line(s.consumed, s)[|s.consumed + InHand(s.pc)|] == s.queue[0]; }
  }

  lemma HeadOfLine<E>(s: State<E>, gone: seq<nat>)
    ensures s.pc.Sending? ==> Line(gone, s)[|gone|] == s.pc.at
    ensures !s.pc.Sending? && s.queue != [] ==> Line(gone, s)[|gone|] == s.queue[0]
  {
  }

  lemma LostMoves<E>(s: State<E>, l: Label<E>)
    requires Enabled(s, l) && |s.queue| <= s.capacity
    ensures Cuts(l) ==> |s.consumed| < |Line(s.consumed, s)| && Step(s, l).lost == s.lost + {Line(s.consumed, s)[|s.consumed|]}
    ensures !Cuts(l) ==> Step(s, l).lost == s.lost + if l.TrySend? && Dropped(s) then {|s.delivered|} else {}
  {
    HeadOfLine(s, s.consumed);
  }

  lemma StepAccounted<E>(s: State<E>, l: Label<E>)
    requires Accounted(s) && |s.queue| <= s.capacity && Enabled(s, l)
    ensures Accounted(Step(s, l))
  {
    var path, k := Line(s.consumed, s), |s.consumed|;
    LineMoves(s, l, s.consumed);
    TakenMoves(s, l);
    LostMoves(s, l);
    Delivers(s, l);
    MovedClimbs(s, l, path, k, 0, |Step(s, l).delivered|);
    MovedMembers(s, l, path, k);
  }

  lemma StepBalanced<E>(s: State<E>, l: Label<E>)
    requires Balanced(s) && Accounted(s) && |s.queue| <= s.capacity && Enabled(s, l)
    ensures Balanced(Step(s, l))
  {
    var path := Line(s.consumed, s);
    LineMoves(s, l, s.consumed);
    TakenMoves(s, l);
    LostMoves(s, l);
    Delivers(s, l);
    if Cuts(l) {
      assert path[|s.consumed|] in path;
    }
  }

  lemma OpenedInv<E>(capacity: nat)
    ensures Inv(Opened<E>(capacity))
  {
  }

  lemma StepKeeps<E>(s: State<E>, l: Label<E>)
    requires Inv(s) && Enabled(s, l)
    ensures Inv(Step(s, l)) && Step(s, l).capacity == s.capacity
  {
    StepFrames(s, l);
    StepOrdered(s, l);
    StepNoGap(s, l);
    StepDrained(s, l);
    StepCovered(s, l);
    StepAccounted(s, l);
    StepBalanced(s, l);
  }

  lemma {:induction false} RunKeeps<E>(s: State<E>, ls: seq<Label<E>>)
    requires Inv(s) && Run(s, ls).Some?
    ensures Inv(Run(s, ls).value) && Run(s, ls).value.capacity == s.capacity
  {
    if ls != [] {
      RunKeeps(s, ls[..|ls| - 1]);
      StepKeeps(Run(s, ls[..|ls| - 1]).value, ls[|ls| - 1]);
    }
  }

  // ----- The theorems, over every interleaving -----

  lemma {:induction false} KeptAll(taken: seq<nat>, skipped: set<nat>)
    ensures |Kept(taken, skipped)| <= |taken|
    ensures |Kept(taken, skipped)| == |taken| <==> forall i | 0 <= i < |taken| :: taken[i] !in skipped
    ensures |Kept(taken, skipped)| == |taken| ==> Kept(taken, skipped) == taken
  {
    if taken != [] {
      KeptAll(taken[..|taken| - 1], skipped);
      assert forall i | 0 <= i < |taken| - 1 :: taken[..|taken| - 1][i] == taken[i];
    }
  }

  /** No silent gap: with no resync owed, the event frames since the last resync frame,
      the one being written and those queued are exactly the notifications delivered
      since that frame's drain, in order; unless an event could not be encoded, and then
      they never are. */
  lemma NoSilentGap<E>(capacity: nat, ls: seq<Label<E>>)
    requires var r := Run(Opened<E>(capacity), ls); r.Some? && !Owed(r.value) && !r.value.pc.Closed?
    ensures var s := Run(Opened<E>(capacity), ls).value;
            && s.mark <= |s.delivered|
            && (Since(s.frames) + Rest(s) == Stretch(s.mark, |s.delivered|)
                <==> forall i | 0 <= i < |s.taken| :: s.taken[i] !in s.skipped)
  {
    var s := Run(Opened<E>(capacity), ls).value;
    OpenedInv<E>(capacity);
    RunKeeps(Opened<E>(capacity), ls);
    KeptAll(s.taken, s.skipped);
    if Since(s.frames) + Rest(s) == Stretch(s.mark, |s.delivered|) {
      assert |Since(s.frames)| + |Rest(s)| == |Window(s)|;
    }
  }

  /** Every notification that was dropped, drained or left behind came before the drain of
      the last resync frame, or a resync is still owed, or the stream is over. */
  lemma LossIsOwned<E>(capacity: nat, ls: seq<Label<E>>, i: nat)
    requires var r := Run(Opened<E>(capacity), ls); r.Some? && i in r.value.lost
    ensures var s := Run(Opened<E>(capacity), ls).value; i < s.mark || Owed(s) || s.pc.Closed?
  {
    OpenedInv<E>(capacity);
    RunKeeps(Opened<E>(capacity), ls);
  }

  /** In every state, owed or not: what is written after a resync frame is newer than
      that frame's drain, in order and without repeats. */
  lemma NothingStaleAfterResync<E>(capacity: nat, ls: seq<Label<E>>)
    requires Run(Opened<E>(capacity), ls).Some?
    ensures var s := Run(Opened<E>(capacity), ls).value; Climbs(Since(s.frames), s.mark, |s.delivered|)
  {
    var s := Run(Opened<E>(capacity), ls).value;
    OpenedInv<E>(capacity);
    RunKeeps(Opened<E>(capacity), ls);
    ClimbsHead(s.taken, Rest(s), s.mark, |s.delivered|);
    KeptClimbs(s.taken, s.skipped, s.mark, |s.delivered|);
  }

  lemma ClimbsHead(xs: seq<nat>, ys: seq<nat>, lo: nat, hi: nat)
    requires Climbs(xs + ys, lo, hi)
    ensures Climbs(xs, lo, hi)
  {
    assert forall i | 0 <= i < |xs| :: (xs + ys)[i] == xs[i];
  }

  lemma {:induction false} KeptClimbs(taken: seq<nat>, skipped: set<nat>, lo: nat, hi: nat)
    requires Climbs(taken, lo, hi)
    ensures Climbs(Kept(taken, skipped), lo, hi) && forall x :: x in Kept(taken, skipped) ==> x in taken
  {
    if taken != [] {
      KeptClimbs(taken[..|taken| - 1], skipped, lo, hi);
      var init, last := taken[..|taken| - 1], taken[|taken| - 1];
      forall i | 0 <= i < |Kept(init, skipped)| ensures Kept(init, skipped)[i] < last {
        assert Kept(init, skipped)[i] in init;
      }
    }
  }

  /** Conservation: each notification is written, skipped, in hand, queued or lost, once. */
  lemma EveryDeliveryIsAccountedFor<E>(capacity: nat, ls: seq<Label<E>>)
    requires Run(Opened<E>(capacity), ls).Some?
    ensures var s := Run(Opened<E>(capacity), ls).value;
            && |s.delivered| == |s.consumed| + |InHand(s.pc)| + |s.queue| + |s.lost|
            && Accounted(s)
  {
    OpenedInv<E>(capacity);
    RunKeeps(Opened<E>(capacity), ls);
  }

  // ----- The one way to a gap -----

  /** One more step after a run. */
  lemma Then<E>(s0: State<E>, s: State<E>, ls: seq<Label<E>>, l: Label<E>) returns (r: seq<Label<E>>)
    requires Run(s0, ls) == Some(s) && Enabled(s, l)
    ensures Run(s0, r) == Some(Step(s, l))
  {
    assert (ls + [l])[..|ls|] == ls;
    r := ls + [l];
  }

  /** An event whose row cannot be encoded is skipped: the run is over it, nothing is owed,
      and what was delivered is neither written nor on its way. */
  lemma SkippedEventLeavesAGap<E>(event: E) returns (ls: seq<Label<E>>, s: State<E>)
    ensures Run(Opened<E>(1), ls) == Some(s) && !Owed(s) && !s.pc.Closed?
    ensures s.delivered == [event] && s.mark == 0 && Since(s.frames) + Rest(s) == [] && Stretch(s.mark, |s.delivered|) == [0]
  {
    var s0 := Opened<E>(1);
    ls := Then(s0, s0, [], TrySend(event));
    s := Step(s0, TrySend(event));
    ls := Then(s0, s, ls, TakeStatus);
    s := Step(s, TakeStatus);
    ls := Then(s0, s, ls, TakeResync);
    s := Step(s, TakeResync);
    ls := Then(s0, s, ls, Receive);
    s := Step(s, Receive);
    ls := Then(s0, s, ls, WriteEvent(Skipped));
    s := Step(s, WriteEvent(Skipped));
  }

  // ----- Signals: status changes and resyncs -----

  /** The frame a signal asks for. */
  function FrameOf(resync: bool): Frame {
    if resync then ResyncFrame else StatusFrame
  }

  predicate Asks<E>(l: Label<E>, resync: bool) {
    if resync then l.BroadcastResync? || l.RaiseFlag? else l.BroadcastStatus?
  }

  /** The frame is still to be written. */
  predicate Due<E>(s: State<E>, resync: bool) {
    if resync then s.flag || s.pc.Draining? || s.pc.Resyncing? else s.status || s.pc.SendStatus?
  }

  /** Since there were `n` frames the frame has been written, or it is due, or the stream is over. */
  ghost predicate Told<E>(s: State<E>, resync: bool, n: nat) {
    && n <= |s.frames|
    && (Due(s, resync) || s.pc.Closed? || exists i :: n <= i < |s.frames| && s.frames[i] == FrameOf(resync))
  }

  lemma FramesGrow<E>(s: State<E>, l: Label<E>)
    requires Enabled(s, l)
    ensures s.frames <= Step(s, l).frames
  {
  }

  lemma StepTells<E>(s: State<E>, l: Label<E>, resync: bool, n: nat)
    requires Enabled(s, l) && Told(s, resync, n)
    ensures Told(Step(s, l), resync, n)
  {
    var s' := Step(s, l);
    FramesGrow(s, l);
    if i :| n <= i < |s.frames| && s.frames[i] == FrameOf(resync) {
      assert s'.frames[i] == FrameOf(resync);
    } else if Due(s, resync) && !Due(s', resync) && !s'.pc.Closed? {
      assert s'.frames[|s.frames|] == FrameOf(resync);
    }
  }

  /** Whatever happens after a status change or a resync was broadcast, or a loss flagged, the
      client is told of it, or will be, unless its stream is over. */
  lemma {:induction false} SignalsReachTheClient<E>(s0: State<E>, a: seq<Label<E>>, l: Label<E>, b: seq<Label<E>>, resync: bool)
    requires Asks(l, resync) && Run(s0, a + [l] + b).Some?
    ensures Run(s0, a).Some? && Told(Run(s0, a + [l] + b).value, resync, |Run(s0, a).value.frames|)
    decreases |b|
  {
    if b == [] {
      assert a + [l] + b == a + [l] && (a + [l])[..|a|] == a;
    } else {
      var ls, front := a + [l] + b, a + [l] + b[..|b| - 1];
      assert ls[..|ls| - 1] == front && ls[|ls| - 1] == b[|b| - 1];
      SignalsReachTheClient(s0, a, l, b[..|b| - 1], resync);
      StepTells(Run(s0, front).value, b[|b| - 1], resync, |Run(s0, a).value.frames|);
    }
  }

  function Asked<E>(ls: seq<Label<E>>, resync: bool): nat {
    if ls == [] then 0 else Asked(ls[..|ls| - 1], resync) + if Asks(ls[|ls| - 1], resync) then 1 else 0
  }

  function Times(frames: seq<Frame>, f: Frame): nat {
    multiset(frames)[f]
  }

  /** Frames still to be written: one for the flag, one for the loop already at it. */
  function ToWrite<E>(s: State<E>, resync: bool): nat {
    if resync then (if s.flag then 1 else 0) + (if s.pc.Draining? || s.pc.Resyncing? then 1 else 0)
    else (if s.status then 1 else 0) + (if s.pc.SendStatus? then 1 else 0)
  }

  lemma TimesSnoc(frames: seq<Frame>, f: Frame, last: Frame)
    ensures Times(frames + [last], f) == Times(frames, f) + if last == f then 1 else 0
  {
  }

  /** The frame a step writes. */
  function Wrote<E>(s: State<E>, l: Label<E>): seq<Frame>
    requires Enabled(s, l)
  {
    match l
    case WriteStatus(true) => [StatusFrame]
    case WriteResync(true) => [ResyncFrame]
    case WriteEvent(Written) => [EventFrame(s.pc.at)]
    case Tick(true) => [Heartbeat]
    case _ => []
  }

  lemma WritesOne<E>(s: State<E>, l: Label<E>)
    requires Enabled(s, l)
    ensures Step(s, l).frames == s.frames + Wrote(s, l)
  {
  }

  lemma FewerToWrite<E>(s: State<E>, l: Label<E>, resync: bool)
    requires Enabled(s, l)
    ensures (if Wrote(s, l) == [FrameOf(resync)] then 1 else 0) + ToWrite(Step(s, l), resync)
            <= ToWrite(s, resync) + if Asks(l, resync) then 1 else 0
  {
  }

  lemma StepAsked<E>(s: State<E>, l: Label<E>, resync: bool)
    requires Enabled(s, l)
    ensures var s' := Step(s, l); var f := FrameOf(resync);
            Times(s'.frames, f) + ToWrite(s', resync) <= Times(s.frames, f) + ToWrite(s, resync) + if Asks(l, resync) then 1 else 0
  {
    WritesOne(s, l);
    FewerToWrite(s, l, resync);
    if Wrote(s, l) == [] { assert s.frames + [] == s.frames; } else { TimesSnoc(s.frames, FrameOf(resync), Wrote(s, l)[0]); }
  }

  /** And the client is told no more often than there was something to tell. */
  lemma {:induction false} NothingUnasked<E>(capacity: nat, ls: seq<Label<E>>, resync: bool)
    requires Run(Opened(capacity), ls).Some?
    ensures var s := Run(Opened(capacity), ls).value;
            Times(s.frames, FrameOf(resync)) + ToWrite(s, resync) <= Asked(ls, resync)
  {
    if ls != [] {
      NothingUnasked(capacity, ls[..|ls| - 1], resync);
      StepAsked(Run(Opened(capacity), ls[..|ls| - 1]).value, ls[|ls| - 1], resync);
    }
  }
}
