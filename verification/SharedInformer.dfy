/** One shared informer: outage state, recovery prober, rebuild and teardown. Every label
    is one critical section (or one step of a prober between two of them), so a run is any
    interleaving of watch errors, probers, subscribers and teardown. */
module SharedInformer {
  import opened Optional

  /** Where a prober stands. `Stopping` has seen the stop channel closed. */
  datatype Stage = Waiting | Probing | Rebuilding | Recovering | Stopping

  /** `fails` counts its failed attempts, `delay` is its present pause. */
  datatype Prober = Prober(stage: Stage, delay: nat, fails: nat)

  /** `epoch` numbers the current informer and its stop channel; `closed` are the channels
      closed so far, `running` the informers started. `starting` counts outages whose
      prober is decided but not yet running. `transitions` logs every change of
      `unreachable`; `panicked` records a channel closed twice. */
  datatype Informer = Informer(
    epoch: nat, closed: set<nat>, running: set<nat>, stopped: bool, started: bool, panicked: bool, subs: map<nat, nat>,
    unreachable: bool, proberOn: bool, starting: nat, probers: seq<Prober>, transitions: seq<bool>)

  /** The prober's pause before its first attempt and at most. */
  datatype Backoff = Backoff(base: nat, cap: nat)

  const NEW := Informer(0, {}, {}, false, false, false, map[], false, false, 0, [], [])

  datatype Label =
    | MarkUnreachable | Spawn
    | SeeStop(i: nat) | Fire(i: nat) | Fail(i: nat) | Answer(i: nat, moved: bool) | Rebuild(i: nat) | Recover(i: nat) | Exit(i: nat)
    | Add(sub: nat) | Drop(sub: nat) | Start | Stop

  predicate IsAt(s: Informer, i: nat, stage: Stage) {
    i < |s.probers| && s.probers[i].stage == stage
  }

  predicate Enabled(s: Informer, l: Label) {
    match l
    case MarkUnreachable => true
    case Spawn => s.starting > 0
    case SeeStop(i) => IsAt(s, i, Waiting) && s.epoch in s.closed
    case Fire(i) => IsAt(s, i, Waiting)
    case Fail(i) => IsAt(s, i, Probing)
    case Answer(i, _) => IsAt(s, i, Probing)
    case Rebuild(i) => IsAt(s, i, Rebuilding)
    case Recover(i) => IsAt(s, i, Recovering)
    case Exit(i) => IsAt(s, i, Stopping)
    case Add(sub) => sub !in s.subs
    case Drop(_) => true
    case Start => true
    case Stop => true
  }

  function Goto(s: Informer, i: nat, stage: Stage): Informer
    requires i < |s.probers|
  {
    s.(probers := s.probers[i := s.probers[i].(stage := stage)])
  }

  function Gone(s: Informer, i: nat): Informer
    requires i < |s.probers|
  {
    s.(probers := s.probers[..i] + s.probers[i + 1..])
  }

  function Double(delay: nat, cap: nat): nat {
    if delay < cap then (if 2 * delay > cap then cap else 2 * delay) else delay
  }

  /** The pause after `n` failed attempts. */
  function DelayAfter(base: nat, cap: nat, n: nat): nat {
    if n == 0 then base else Double(DelayAfter(base, cap, n - 1), cap)
  }

  function Failed(p: Prober, b: Backoff): Prober {
    Prober(Waiting, Double(p.delay, b.cap), p.fails + 1)
  }

  function Close(s: Informer): Informer {
    s.(closed := s.closed + {s.epoch}, panicked := s.panicked || s.epoch in s.closed)
  }

  function Marked(s: Informer): Informer {
    if s.unreachable then s
    else s.(unreachable := true, transitions := s.transitions + [true], proberOn := true,
            starting := if s.proberOn then s.starting else s.starting + 1)
  }

  function Recovered(s: Informer): Informer {
    if s.unreachable then s.(proberOn := false, unreachable := false, transitions := s.transitions + [false])
    else s.(proberOn := false)
  }

  /** A new informer on a fresh channel, with every subscriber registered on it. */
  function Rebuilt(s: Informer): Informer {
    if s.stopped then s
    else
      var c := Close(s);
      c.(epoch := s.epoch + 1, subs := map sub | sub in s.subs :: s.epoch + 1,
         running := if s.started then s.running + {s.epoch + 1} else s.running)
  }

  function Stopped(s: Informer): Informer {
    if s.stopped then s else Close(s).(stopped := true)
  }

  function Step(s: Informer, b: Backoff, l: Label): Informer
    requires Enabled(s, l)
  {
    match l
    case MarkUnreachable => Marked(s)
    case Spawn => s.(starting := s.starting - 1, probers := s.probers + [Prober(Waiting, b.base, 0)])
    case SeeStop(i) => Goto(s, i, Stopping)
    case Fire(i) => Goto(s, i, Probing)
    case Fail(i) => s.(probers := s.probers[i := Failed(s.probers[i], b)])
    case Answer(i, moved) => Goto(s, i, if moved then Rebuilding else Recovering)
    case Rebuild(i) => Goto(Rebuilt(s), i, Recovering)
    case Recover(i) => Gone(Recovered(s), i)
    case Exit(i) => Gone(s, i).(proberOn := false)
    case Add(sub) => s.(subs := s.subs[sub := s.epoch])
    case Drop(sub) => s.(subs := s.subs - {sub})
    case Start => if s.started then s else s.(started := true, running := s.running + {s.epoch})
    case Stop => Stopped(s)
  }

  // ----- The invariant -----

  /** A prober is on exactly when one is in its loop or about to enter it, and then the
      informer is unreachable; while not stopped, unreachable means a prober is on. */
  ghost predicate ProbersRight(s: Informer) {
    && |s.probers| + s.starting == (if s.proberOn then 1 else 0)
    && (s.proberOn ==> s.unreachable)
    && (!s.stopped && s.unreachable ==> s.proberOn)
    && (forall i | 0 <= i < |s.probers| :: s.probers[i].stage == Stopping ==> s.stopped)
  }

  /** Every channel but the current one is closed, and the current one only by stop. */
  ghost predicate ChannelsRight(s: Informer) {
    !s.panicked && forall c: nat :: c in s.closed <==> c < s.epoch || (c == s.epoch && s.stopped)
  }

  ghost predicate RegistrationsRight(s: Informer) {
    forall sub :: sub in s.subs ==> s.subs[sub] == s.epoch
  }

  ghost predicate RunsRight(s: Informer) {
    (forall c :: c in s.running ==> c <= s.epoch) && (s.epoch in s.running <==> s.started)
  }

  /** Unreachable and reachable alternate, beginning with unreachable. */
  ghost predicate Alternates(s: Informer) {
    && (forall i | 0 <= i < |s.transitions| :: s.transitions[i] == (i % 2 == 0))
    && (s.unreachable <==> |s.transitions| % 2 == 1)
  }

  /** Every prober's pause is the one its failures have earned. */
  ghost predicate DelaysRight(s: Informer, b: Backoff) {
    forall i | 0 <= i < |s.probers| :: s.probers[i].delay == DelayAfter(b.base, b.cap, s.probers[i].fails)
  }

  ghost predicate Inv(s: Informer, b: Backoff) {
    && ProbersRight(s) && ChannelsRight(s) && RegistrationsRight(s) && RunsRight(s) && Alternates(s) && DelaysRight(s, b)
  }

  lemma StepProbers(s: Informer, b: Backoff, l: Label)
    requires ProbersRight(s) && ChannelsRight(s) && Enabled(s, l)
    ensures ProbersRight(Step(s, b, l))
  {
  }

  lemma StepChannels(s: Informer, b: Backoff, l: Label)
    requires ChannelsRight(s) && RegistrationsRight(s) && RunsRight(s) && Enabled(s, l)
    ensures ChannelsRight(Step(s, b, l)) && RegistrationsRight(Step(s, b, l)) && RunsRight(Step(s, b, l))
  {
  }

  lemma StepAlternates(s: Informer, b: Backoff, l: Label)
    requires Alternates(s) && Enabled(s, l)
    ensures Alternates(Step(s, b, l))
  {
  }

  lemma StepDelays(s: Informer, b: Backoff, l: Label)
    requires DelaysRight(s, b) && Enabled(s, l)
    ensures DelaysRight(Step(s, b, l), b)
  {
  }

  lemma StepKeeps(s: Informer, b: Backoff, l: Label)
    requires Inv(s, b) && Enabled(s, l)
    ensures Inv(Step(s, b, l), b)
  {
    StepProbers(s, b, l);
    StepChannels(s, b, l);
    StepAlternates(s, b, l);
    StepDelays(s, b, l);
  }

  function Run(s: Informer, b: Backoff, ls: seq<Label>): Option<Informer> {
    if ls == [] then Some(s)
    else
      match Run(s, b, ls[..|ls| - 1])
      case None => None
      case Some(t) => if Enabled(t, ls[|ls| - 1]) then Some(Step(t, b, ls[|ls| - 1])) else None
  }

  lemma {:induction false} RunKeeps(s: Informer, b: Backoff, ls: seq<Label>)
    requires Inv(s, b) && Run(s, b, ls).Some?
    ensures Inv(Run(s, b, ls).value, b)
  {
    if ls != [] {
      RunKeeps(s, b, ls[..|ls| - 1]);
      StepKeeps(Run(s, b, ls[..|ls| - 1]).value, b, ls[|ls| - 1]);
    }
  }

  // ----- The theorems, over every interleaving -----

  /** One prober per outage: while not stopped, the informer is unreachable exactly when a
      prober is on, and exactly one is in its loop or about to enter it; otherwise none is. */
  lemma OneProberPerOutage(b: Backoff, ls: seq<Label>)
    requires Run(NEW, b, ls).Some?
    ensures var s := Run(NEW, b, ls).value;
            && (!s.stopped ==> s.unreachable == s.proberOn)
            && |s.probers| + s.starting == (if s.proberOn then 1 else 0)
  {
    RunKeeps(NEW, b, ls);
  }

  lemma TransitionsAlternate(b: Backoff, ls: seq<Label>)
    requires Run(NEW, b, ls).Some?
    ensures var s := Run(NEW, b, ls).value;
            forall i | 0 <= i < |s.transitions| :: s.transitions[i] == (i % 2 == 0)
  {
    RunKeeps(NEW, b, ls);
  }

  /** No channel is ever closed twice, at most the current informer runs without having
      been told to stop, and every subscriber is registered on it. */
  lemma OneLiveInformer(b: Backoff, ls: seq<Label>)
    requires Run(NEW, b, ls).Some?
    ensures var s := Run(NEW, b, ls).value;
            && !s.panicked
            && (forall c :: c in s.running && c !in s.closed ==> c == s.epoch)
            && (s.started && !s.stopped ==> s.epoch in s.running && s.epoch !in s.closed)
            && (forall sub :: sub in s.subs ==> s.subs[sub] == s.epoch)
  {
    RunKeeps(NEW, b, ls);
  }

  /** The stop channels closed are those of all earlier informers, and the current one's once
      stopped; so a stop or a rebuild of an informer not stopped always closes an open one. */
  lemma ClosedAreThePast(b: Backoff, ls: seq<Label>)
    requires Run(NEW, b, ls).Some?
    ensures var s := Run(NEW, b, ls).value;
            && (forall c: nat :: c in s.closed <==> c < s.epoch || (c == s.epoch && s.stopped))
            && (!s.stopped ==> s.epoch !in s.closed && Step(s, b, Stop).closed == s.closed + {s.epoch})
            && (s.stopped ==> Step(s, b, Stop) == s)
  {
    RunKeeps(NEW, b, ls);
  }

  lemma Onwards(b: Backoff, s: Informer, ls: seq<Label>, l: Label) returns (r: seq<Label>, t: Informer)
    requires Run(NEW, b, ls) == Some(s) && Enabled(s, l)
    ensures Run(NEW, b, r) == Some(t) && t == Step(s, b, l)
  {
    r := Then(NEW, s, b, ls, l);
    t := Step(s, b, l);
  }

  /** However often an outage is reported, it is told once and one prober is started. */
  lemma AnOutageIsNoticed(b: Backoff, sub: nat) returns (ls: seq<Label>, s: Informer)
    ensures Run(NEW, b, ls) == Some(s)
    ensures s == Informer(0, {}, {0}, false, true, false, map[sub := 0], true, true, 0, [Prober(Waiting, b.base, 0)], [true])
  {
    ls, s := Onwards(b, NEW, [], Add(sub));
    ls, s := Onwards(b, s, ls, Start);
    ls, s := Onwards(b, s, ls, MarkUnreachable);
    ls, s := Onwards(b, s, ls, MarkUnreachable);
    ls, s := Onwards(b, s, ls, Spawn);
  }

  /** An outage that ends on another client is over once the informer has been rebuilt, with its
      subscriber on the new one. */
  lemma AnOutageEnds(b: Backoff, sub: nat) returns (ls: seq<Label>, s: Informer)
    ensures Run(NEW, b, ls) == Some(s) && s.transitions == [true, false] && !s.unreachable && NoProber(s)
    ensures s.epoch == 1 && s.subs == map[sub := 1] && s.running == {0, 1} && s.closed == {0}
  {
    ls, s := AnOutageIsNoticed(b, sub);
    ls, s := Onwards(b, s, ls, Fire(0));
    ls, s := Onwards(b, s, ls, Answer(0, true));
    ls, s := Onwards(b, s, ls, Rebuild(0));
    ls, s := Onwards(b, s, ls, Recover(0));
  }

  predicate OfProber(l: Label) {
    l.SeeStop? || l.Fire? || l.Fail? || l.Answer? || l.Rebuild? || l.Recover? || l.Exit?
  }

  lemma StoppingLeaves(s: Informer, b: Backoff, i: nat, l: Label)
    requires ProbersRight(s) && IsAt(s, i, Stopping) && Enabled(s, l)
    ensures i == 0 && |s.probers| == 1 && (OfProber(l) ==> l == Exit(0))
    ensures l == Exit(0) ==> NoProber(Step(s, b, l))
  {
  }

  predicate NoProber(s: Informer) {
    s.probers == [] && s.starting == 0 && !s.proberOn
  }

  lemma Then(s0: Informer, s: Informer, b: Backoff, ls: seq<Label>, l: Label) returns (r: seq<Label>)
    requires Run(s0, b, ls) == Some(s) && Enabled(s, l)
    ensures Run(s0, b, r) == Some(Step(s, b, l)) && r == ls + [l]
  {
    assert (ls + [l])[..|ls|] == ls;
    r := ls + [l];
  }

  predicate OnlyTheProber(ls: seq<Label>) {
    forall i | 0 <= i < |ls| :: ls[i].Spawn? || OfProber(ls[i])
  }

  /** What a prober of a stopped informer does next on its way out. */
  function WayOut(s: Informer): Label {
    if s.probers == [] then Spawn
    else
      match s.probers[0].stage
      case Waiting => SeeStop(0)
      case Probing => Fail(0)
      case Rebuilding => Rebuild(0)
      case Recovering => Recover(0)
      case Stopping => Exit(0)
  }

  function StepsOut(s: Informer): nat {
    if s.probers == [] then (if s.starting == 0 then 0 else 3)
    else
      match s.probers[0].stage
      case Waiting => 2
      case Probing => 3
      case Rebuilding => 2
      case Recovering => 1
      case Stopping => 1
  }

  lemma OneStepOut(s: Informer, b: Backoff)
    requires ProbersRight(s) && ChannelsRight(s) && s.stopped && StepsOut(s) > 0
    ensures Enabled(s, WayOut(s)) && Step(s, b, WayOut(s)).stopped
    ensures StepsOut(Step(s, b, WayOut(s))) == StepsOut(s) - 1
  {
  }

  lemma NoStepsOut(s: Informer)
    requires ProbersRight(s) && StepsOut(s) == 0
    ensures NoProber(s)
  {
  }

  /** A stopped informer is never more than three steps of its prober from having none. */
  lemma {:induction false} StoppedRunsOut(s0: Informer, s: Informer, b: Backoff, ls: seq<Label>, n: nat) returns (r: seq<Label>)
    requires Run(s0, b, ls) == Some(s) && Inv(s, b) && s.stopped && n == StepsOut(s)
    ensures Run(s0, b, r).Some? && NoProber(Run(s0, b, r).value)
    ensures ls <= r && |r| == |ls| + n && OnlyTheProber(r[|ls|..])
    decreases n
  {
    if n == 0 {
      NoStepsOut(s);
      r := ls;
    } else {
      OneStepOut(s, b);
      StepKeeps(s, b, WayOut(s));
      var on := Then(s0, s, b, ls, WayOut(s));
      r := StoppedRunsOut(s0, Step(s, b, WayOut(s)), b, on, n - 1);
      assert r[|ls|..] == [WayOut(s)] + r[|on|..];
    }
  }

  /** A stop ends the prober. In every reachable state of a stopped informer, across every
      rebuild, a waiting prober can see the stop; one that has seen it can only leave, and
      leaves none behind; and three steps of the prober, wherever it stands, end it. */
  lemma StopEndsTheProber(b: Backoff, ls: seq<Label>, i: nat) returns (r: seq<Label>)
    requires Run(NEW, b, ls).Some? && Run(NEW, b, ls).value.stopped
    ensures IsAt(Run(NEW, b, ls).value, i, Waiting) ==> Enabled(Run(NEW, b, ls).value, SeeStop(i))
    ensures IsAt(Run(NEW, b, ls).value, i, Stopping) ==> OnlyLeaves(Run(NEW, b, ls).value, b)
    ensures ls <= r && |r| <= |ls| + 3 && OnlyTheProber(r[|ls|..]) && Run(NEW, b, r).Some? && NoProber(Run(NEW, b, r).value)
  {
    var s := Run(NEW, b, ls).value;
    RunKeeps(NEW, b, ls);
    if IsAt(s, i, Stopping) {
      forall l | Enabled(s, l) ensures LeavesBy(s, b, l) { StoppingLeaves(s, b, i, l); }
    }
    r := StoppedRunsOut(NEW, s, b, ls, StepsOut(s));
  }

  ghost predicate LeavesBy(s: Informer, b: Backoff, l: Label)
    requires Enabled(s, l)
  {
    OfProber(l) ==> l == Exit(0) && NoProber(Step(s, b, l))
  }

  ghost predicate OnlyLeaves(s: Informer, b: Backoff) {
    forall l | Enabled(s, l) :: LeavesBy(s, b, l)
  }

  // ----- Backoff -----

  function Doubled(base: nat, n: nat): nat {
    if n == 0 then base else 2 * Doubled(base, n - 1)
  }

  lemma {:induction false} DoubledGrows(base: nat, n: nat)
    ensures base <= Doubled(base, n)
  {
    if n > 0 { DoubledGrows(base, n - 1); }
  }

  /** In closed form the smaller of the base doubled and the cap. A base above the cap
      stays as it is. */
  lemma {:induction false} DelayIsCappedDoubling(base: nat, cap: nat, n: nat)
    ensures DelayAfter(base, cap, n) == if base >= cap then base
                                        else if Doubled(base, n) < cap then Doubled(base, n) else cap
  {
    DoubledGrows(base, n);
    if n > 0 { DelayIsCappedDoubling(base, cap, n - 1); }
  }

  /** Whatever happens around it, a prober's pause is the base doubled once for each of its
      failed attempts, and no more than the cap. */
  lemma BackoffIsCappedDoubling(b: Backoff, ls: seq<Label>, i: nat)
    requires Run(NEW, b, ls).Some? && i < |Run(NEW, b, ls).value.probers|
    ensures var p := Run(NEW, b, ls).value.probers[i];
            p.delay == if b.base >= b.cap then b.base
                       else if Doubled(b.base, p.fails) < b.cap then Doubled(b.base, p.fails) else b.cap
  {
    RunKeeps(NEW, b, ls);
    DelayIsCappedDoubling(b.base, b.cap, Run(NEW, b, ls).value.probers[i].fails);
  }
}
