/** The frontend's reading of a badge: the tone of one status, and the worst tone of a
    tally, against what the tally was made from. */
module StatusTone {
  import Decimal
  import Text
  import opened StatusTally

  datatype Tone = Neutral | Good | Progress | Warn

  function Severity(t: Tone): nat {
    match t case Warn => 3 case Progress => 2 case Good => 1 case Neutral => 0
  }

  predicate EndsWith(s: string, suffix: string) {
    |suffix| <= |s| && s[|s| - |suffix|..] == suffix
  }

  function PodTone(status: string): Tone {
    if status in {"Running", "Ready"} then Good
    else if "Init:" <= status then Progress
    else if status in {"Pending", "ContainerCreating", "PodInitializing", "Terminating"} then Progress
    else if status in {"CrashLoopBackOff", "Error", "Failed", "Evicted", "OOMKilled", "ImagePullBackOff", "ErrImagePull",
                       "CreateContainerConfigError", "CreateContainerError", "InvalidImageName", "Unknown", "NodeLost"} then Warn
    else if EndsWith(status, "Error") || EndsWith(status, "BackOff") then Warn
    else Neutral
  }

  /** How far a run of characters of one class reaches from `i`. */
  function RunEnd(s: string, i: nat, belongs: char -> bool): (r: nat)
    requires i <= |s|
    ensures i <= r <= |s| && (r < |s| ==> !belongs(s[r])) && forall k | i <= k < r :: belongs(s[k])
    decreases |s| - i
  {
    if i < |s| && belongs(s[i]) then RunEnd(s, i + 1, belongs) else i
  }

  predicate IsSpace(c: char) {
    c in {' ', '\t', '\n', '\r', '\U{000b}', '\U{000c}', '\U{00a0}', '\U{feff}', '\U{1680}', '\U{2028}', '\U{2029}', '\U{202f}', '\U{205f}', '\U{3000}'}
    || '\U{2000}' <= c <= '\U{200a}'
  }

  /** A "ready/desired" status; anything else is left to the pod rule. */
  function OfStatus(status: string): Tone {
    var slash := RunEnd(status, 0, Decimal.IsDigit);
    if 0 < slash < |status| - 1 && status[slash] == '/' && Decimal.AllDigits(status[slash + 1..]) then
      var ready, desired := Decimal.Value(status[..slash]), Decimal.Value(status[slash + 1..]);
      if desired > 0 && ready >= desired then Good else if ready == 0 then Warn else Progress
    else PodTone(status)
  }

  /** Two runs of digits with a slash in between. */
  ghost predicate IsRatio(status: string, ready: string, desired: string) {
    ready != "" && desired != "" && Decimal.AllDigits(ready) && Decimal.AllDigits(desired) && status == ready + "/" + desired
  }

  lemma DigitsThenSlash(ready: string, rest: string)
    requires Decimal.AllDigits(ready)
    ensures RunEnd(ready + "/" + rest, 0, Decimal.IsDigit) == |ready|
  {
    var status := ready + "/" + rest;
    assert status[|ready|] == '/' && forall i | 0 <= i < |ready| :: status[i] == ready[i];
  }

  /** What a ratio reads as: all ready is good, none ready a warning, else in progress. */
  lemma RatioTone(status: string, ready: string, desired: string)
    requires IsRatio(status, ready, desired)
    ensures var r, d := Decimal.Value(ready), Decimal.Value(desired);
            && (OfStatus(status) == Good <==> 0 < d <= r)
            && (OfStatus(status) == Warn <==> r == 0)
            && (OfStatus(status) == Progress <==> r != 0 && (d == 0 || r < d))
  {
    DigitsThenSlash(ready, desired);
    assert status[..|ready|] == ready && status[|ready| + 1..] == desired && status[|ready|] == '/';
  }

  lemma PrintedRatioTone(r: nat, d: nat)
    ensures var tone := OfStatus(Decimal.Print(r) + "/" + Decimal.Print(d));
            && (tone == Good <==> 0 < d <= r) && (tone == Warn <==> r == 0) && (tone == Progress <==> r != 0 && (d == 0 || r < d))
  {
    Decimal.ValueOfPrint(r);
    Decimal.ValueOfPrint(d);
    RatioTone(Decimal.Print(r) + "/" + Decimal.Print(d), Decimal.Print(r), Decimal.Print(d));
  }

  /** Any other status takes the pod rule. */
  lemma NoRatioTakesPodRule(status: string)
    ensures OfStatus(status) == PodTone(status) || exists ready, desired :: IsRatio(status, ready, desired)
  {
    var slash := RunEnd(status, 0, Decimal.IsDigit);
    if 0 < slash < |status| - 1 && status[slash] == '/' && Decimal.AllDigits(status[slash + 1..]) {
      var ready, desired := status[..slash], status[slash + 1..];
      assert status == ready + "/" + desired;
      assert IsRatio(status, ready, desired);
    }
  }

  lemma EndsWithIs(s: string, suffix: string)
    ensures EndsWith(s, suffix) <==> exists p :: s == p + suffix
  {
    if EndsWith(s, suffix) { assert s == s[..|s| - |suffix|] + suffix; }
    if p :| s == p + suffix { assert s[|s| - |suffix|..] == suffix; }
  }

  /** A reason that names a failure, or ends like one. */
  ghost predicate Fails(status: string) {
    || status in {"CrashLoopBackOff", "ImagePullBackOff", "ErrImagePull", "InvalidImageName", "CreateContainerConfigError",
                  "CreateContainerError", "Error", "Failed", "Evicted", "OOMKilled", "Unknown", "NodeLost"}
    || exists p :: status == p + "Error" || status == p + "BackOff"
  }

  ghost predicate Starts(status: string) {
    || status in {"Pending", "Terminating", "ContainerCreating", "PodInitializing"}
    || exists rest :: status == "Init:" + rest
  }

  lemma InitIs(status: string)
    ensures "Init:" <= status <==> exists rest :: status == "Init:" + rest
  {
    if "Init:" <= status { assert status == "Init:" + status[5..]; }
    if rest :| status == "Init:" + rest { assert status[..5] == "Init:"; }
  }

  lemma EndsApart(status: string)
    requires "Init:" <= status || EndsWith(status, "Error") || EndsWith(status, "BackOff")
    ensures status !in {"Running", "Ready"}
    ensures status !in {"Pending", "ContainerCreating", "PodInitializing", "Terminating"}
  {
    var n := |status|;
    if "Init:" <= status { assert status[0] == 'I'; }
    if EndsWith(status, "Error") { assert status[n - 1] == 'r'; }
    if EndsWith(status, "BackOff") { assert status[n - 1] == 'f'; }
  }

  /** Only a running or ready pod is good; one that is starting, or whose init containers are,
      is in progress whatever it reports; any other that names a failure, or ends like one, is
      a warning; the rest are neutral. */
  lemma PodTones(status: string)
    ensures PodTone(status) == Good <==> status in {"Running", "Ready"}
    ensures PodTone(status) == Progress <==> Starts(status)
    ensures PodTone(status) == Warn <==> Fails(status) && !Starts(status)
  {
    EndsWithIs(status, "Error");
    EndsWithIs(status, "BackOff");
    InitIs(status);
    if "Init:" <= status || EndsWith(status, "Error") || EndsWith(status, "BackOff") { EndsApart(status); }
  }

  /** Neutral, good, in progress, warning: each outweighs the ones before it, and the worse
      of two tones is the one that outweighs the other. */
  lemma SeveritiesAreOrdered(a: Tone, b: Tone)
    ensures Severity(Neutral) < Severity(Good) < Severity(Progress) < Severity(Warn)
    ensures Worse(a, b) in {a, b} && Severity(a) <= Severity(Worse(a, b)) && Severity(b) <= Severity(Worse(a, b))
    ensures Worse(a, b) == Worse(b, a)
  {
  }

  /** Drops a leading count, as the pattern ^\+?\d+\s+ does. */
  function StripCount(part: string): string {
    var start := if part != "" && part[0] == '+' then 1 else 0;
    var digits := RunEnd(part, start, Decimal.IsDigit);
    if digits == start then part
    else
      var spaces := RunEnd(part, digits, IsSpace);
      if spaces == digits then part else part[spaces..]
  }

  /** The number a part of a tally prints. */
  function Printed(part: string): nat {
    var start := if part != "" && part[0] == '+' then 1 else 0;
    Decimal.Value(part[start..RunEnd(part, start, Decimal.IsDigit)])
  }

  /** The tone one part contributes; the folded tail and an empty status contribute none. */
  function OfPart(part: string): Tone {
    Heard(StripCount(part))
  }

  function Heard(status: string): Tone {
    if status == "" || status == "other" then Neutral else OfStatus(status)
  }

  function Worse(a: Tone, b: Tone): Tone {
    if Severity(b) > Severity(a) then b else a
  }

  function WorstPart(parts: seq<string>): Tone {
    if parts == [] then Neutral else Worse(WorstPart(parts[..|parts| - 1]), OfPart(parts[|parts| - 1]))
  }

  /** The worst tone among some statuses. */
  function Worst(statuses: seq<string>): Tone {
    if statuses == [] then Neutral else Worse(Worst(statuses[..|statuses| - 1]), OfStatus(statuses[|statuses| - 1]))
  }

  lemma WorstPartNext(parts: seq<string>, i: nat)
    requires i < |parts|
    ensures WorstPart(parts[..i + 1]) == Worse(WorstPart(parts[..i]), Heard(StripCount(parts[i])))
  {
    assert parts[..i + 1][..i] == parts[..i];
  }

  function OfTally(tally: string): Tone {
    WorstPart(Text.Split(tally, ", "))
  }

  method AggregateTone(tally: string) returns (worst: Tone)
    ensures worst == OfTally(tally)
  {
    worst := Neutral;
    var parts := Text.Split(tally, ", ");
    if tally == "" {
      assert parts == [""] && parts[..0] == [];
      return;
    }
    var i := 0;
    while i < |parts|
      invariant 0 <= i <= |parts| && worst == WorstPart(parts[..i])
    {
      WorstPartNext(parts, i);
      var status := StripCount(parts[i]);
      if status != "" && status != "other" {
        var tone := OfStatus(status);
        if Severity(tone) > Severity(worst) { worst := tone; }
      }
      i := i + 1;
    }
    assert parts[..i] == parts;
  }

  // ----- Reading back what the tally printed -----

  /** A status the tally's text can carry: no separator inside, no leading space. */
  ghost predicate Plain(status: string) {
    !Text.Holds(status, ", ") && (status == "" || !IsSpace(status[0]))
  }

  ghost predicate AllPlain(statuses: seq<string>) {
    forall i | 0 <= i < |statuses| :: Plain(statuses[i])
  }

  lemma {:induction false} RunIs(s: string, i: nat, j: nat, belongs: char -> bool)
    requires i <= j <= |s| && (forall k | i <= k < j :: belongs(s[k])) && (j < |s| ==> !belongs(s[j]))
    ensures RunEnd(s, i, belongs) == j
    decreases j - i
  {
    if i < j { RunIs(s, i + 1, j, belongs); }
  }

  function Start(part: string): (r: nat)
    ensures r <= |part|
  {
    if part != "" && part[0] == '+' then 1 else 0
  }

  /** Where the pieces of a count and a status lie, with or without the tail's sign. */
  lemma Layout(sign: string, digits: string, status: string)
    requires (sign == "" || sign == "+") && |digits| >= 1 && Decimal.AllDigits(digits)
    ensures var part := sign + digits + " " + status; var end := |sign| + |digits|;
            && Start(part) == |sign| && part[|sign|..end] == digits && part[end + 1..] == status
            && end < |part| && part[end] == ' ' && (forall k | 0 <= k < end :: part[k] != ',')
  {
    var part := sign + digits + " " + status;
    assert part[0] == (sign + digits)[0];
    forall k | 0 <= k < |sign| + |digits| ensures part[k] != ',' {
      assert part[k] == if k < |sign| then sign[k] else digits[k - |sign|];
    }
  }

  /** A count and a status read back from where they were printed. */
  lemma ReadBack(part: string, start: nat, end: nat, digits: string)
    requires start == Start(part) && start < end < |part| && part[end] == ' '
    requires digits == part[start..end] && Decimal.AllDigits(digits)
    requires end + 1 < |part| ==> !IsSpace(part[end + 1])
    ensures StripCount(part) == part[end + 1..] && Printed(part) == Decimal.Value(digits)
  {
    forall k | start <= k < end ensures Decimal.IsDigit(part[k]) { assert part[k] == digits[k - start]; }
    RunIs(part, start, end, Decimal.IsDigit);
    RunIs(part, end, end + 1, IsSpace);
  }

  lemma NoSeparator(part: string, end: nat)
    requires end < |part| && part[end] == ' ' && (forall k | 0 <= k < end :: part[k] != ',')
    requires !Text.Holds(part[end + 1..], ", ")
    ensures !Text.Holds(part, ", ")
  {
    forall j: nat ensures !Text.At(part, ", ", j) {
      Text.AtComma(part, j);
      if j > end { Text.AtComma(part[end + 1..], j - end - 1); }
    }
  }

  lemma PieceReadsBack(sign: string, digits: string, status: string)
    requires (sign == "" || sign == "+") && |digits| >= 1 && Decimal.AllDigits(digits) && Plain(status)
    ensures var part := sign + digits + " " + status;
            StripCount(part) == status && Printed(part) == Decimal.Value(digits) && !Text.Holds(part, ", ")
  {
    var part, end := sign + digits + " " + status, |sign| + |digits|;
    Layout(sign, digits, status);
    assert end + 1 < |part| ==> part[end + 1] == part[end + 1..][0];
    ReadBack(part, |sign|, end, digits);
    NoSeparator(part, end);
  }

  lemma LineIs(g: Group)
    ensures Line(g) == "" + Decimal.Print(g.n) + " " + g.status
  {
  }

  lemma LineReadsBack(g: Group)
    requires Plain(g.status)
    ensures OfPart(Line(g)) == OfStatus(g.status) && Printed(Line(g)) == g.n && !Text.Holds(Line(g), ", ")
  {
    LineIs(g);
    PieceReadsBack("", Decimal.Print(g.n), g.status);
    Decimal.ValueOfPrint(g.n);
    SkippedAreNeutral(g.status);
  }

  /** Skipping an empty status and the word "other" loses nothing: both are neutral. */
  lemma SkippedAreNeutral(status: string)
    ensures Heard(status) == OfStatus(status)
  {
    if status == "" || status == "other" {
      assert OfStatus("") == Neutral && OfStatus("other") == Neutral;
    }
  }

  lemma OtherIsPlain()
    ensures Plain("other")
  {
    forall j: nat ensures !Text.At("other", ", ", j) { Text.AtComma("other", j); }
  }

  lemma TailIs(n: nat)
    ensures Tail(n) == "+" + Decimal.Print(n) + " " + "other"
  {
  }

  lemma TailReadsBack(n: nat)
    ensures OfPart(Tail(n)) == Neutral && Printed(Tail(n)) == n && !Text.Holds(Tail(n), ", ")
  {
    TailIs(n);
    OtherIsPlain();
    PieceReadsBack("+", Decimal.Print(n), "other");
    Decimal.ValueOfPrint(n);
  }

  lemma SplitOne(part: string)
    requires !Text.Holds(part, ", ")
    ensures Text.Split(part, ", ") == [part]
  {
    assert Text.IndexOf(part, ", ") < 0;
  }

  lemma {:induction false} SplitOfListed(parts: seq<string>)
    requires parts != [] && forall i | 0 <= i < |parts| :: !Text.Holds(parts[i], ", ")
    ensures Text.Split(Listed(parts), ", ") == parts
  {
    if |parts| == 1 {
      SplitOne(parts[0]);
      assert parts == [parts[0]];
    } else {
      var init, last := parts[..|parts| - 1], parts[|parts| - 1];
      SplitOfListed(init);
      SplitMore(Listed(init), init, last);
      ListedMore(parts);
    }
  }

  lemma SplitMore(listed: string, parts: seq<string>, last: string)
    requires Text.Split(listed, ", ") == parts && !Text.Holds(last, ", ")
    ensures Text.Split(listed + ", " + last, ", ") == parts + [last]
  {
    Text.SplitAppend(listed, last);
  }

  lemma ListedMore(parts: seq<string>)
    requires |parts| > 1
    ensures var init, last := parts[..|parts| - 1], parts[|parts| - 1];
            Listed(parts) == Listed(init) + ", " + last && parts == init + [last]
  {
  }

  function SumPrinted(parts: seq<string>): nat {
    if parts == [] then 0 else SumPrinted(parts[..|parts| - 1]) + Printed(parts[|parts| - 1])
  }

  function WorstGroup(gs: seq<Group>): Tone {
    if gs == [] then Neutral else Worse(WorstGroup(gs[..|gs| - 1]), OfStatus(gs[|gs| - 1].status))
  }

  ghost predicate PlainGroups(gs: seq<Group>) {
    forall i | 0 <= i < |gs| :: Plain(gs[i].status)
  }

  ghost predicate NoneSplit(parts: seq<string>) {
    forall i | 0 <= i < |parts| :: !Text.Holds(parts[i], ", ")
  }

  lemma SnocPart(parts: seq<string>, part: string)
    ensures WorstPart(parts + [part]) == Worse(WorstPart(parts), OfPart(part))
    ensures SumPrinted(parts + [part]) == SumPrinted(parts) + Printed(part)
  {
    assert (parts + [part])[..|parts|] == parts;
  }

  lemma {:induction false} SumSplits(a: seq<Group>, b: seq<Group>)
    ensures Sum(a + b) == Sum(a) + Sum(b)
  {
    if b == [] {
      assert a + b == a;
    } else {
      SumSplits(a, b[..|b| - 1]);
      assert (a + b)[..|a + b| - 1] == a + b[..|b| - 1];
    }
  }

  /** The texts stand for the groups: same worst tone, same numbers, no stray separator. */
  ghost predicate Reads(parts: seq<string>, gs: seq<Group>) {
    WorstPart(parts) == WorstGroup(gs) && SumPrinted(parts) == Sum(gs) && NoneSplit(parts)
  }

  lemma ReadsSnoc(parts: seq<string>, part: string, gs: seq<Group>, g: Group)
    requires Reads(parts, gs) && OfPart(part) == OfStatus(g.status) && Printed(part) == g.n && !Text.Holds(part, ", ")
    ensures Reads(parts + [part], gs + [g])
  {
    SnocPart(parts, part);
    assert (gs + [g])[..|gs|] == gs;
  }

  lemma LinesOfSnoc(gs: seq<Group>, g: Group)
    ensures Lines(gs + [g]) == Lines(gs) + [Line(g)]
  {
  }

  lemma OneMoreRead(init: seq<Group>, last: Group)
    requires Reads(Lines(init), init) && Plain(last.status)
    ensures Reads(Lines(init + [last]), init + [last])
  {
    LineReadsBack(last);
    LinesOfSnoc(init, last);
    ReadsSnoc(Lines(init), Line(last), init, last);
  }

  lemma {:induction false} LinesRead(gs: seq<Group>)
    requires PlainGroups(gs)
    ensures Reads(Lines(gs), gs)
  {
    if gs != [] {
      var init, last := gs[..|gs| - 1], gs[|gs| - 1];
      assert gs == init + [last] && Plain(last.status);
      LinesRead(init);
      OneMoreRead(init, last);
    }
  }

  lemma TailRead(parts: seq<string>, n: nat)
    requires NoneSplit(parts)
    ensures WorstPart(parts + [Tail(n)]) == WorstPart(parts) && SumPrinted(parts + [Tail(n)]) == SumPrinted(parts) + n
    ensures NoneSplit(parts + [Tail(n)])
  {
    TailReadsBack(n);
    SnocPart(parts, Tail(n));
  }

  lemma ShownAndHidden(gs: seq<Group>)
    ensures gs == Shown(gs) + Hidden(gs)
  {
  }

  lemma PartsRead(gs: seq<Group>)
    requires PlainGroups(gs)
    ensures WorstPart(Parts(gs)) == WorstGroup(Shown(gs)) && SumPrinted(Parts(gs)) == Sum(gs) && NoneSplit(Parts(gs))
  {
    var lines := Lines(Shown(gs));
    LinesRead(Shown(gs));
    assert gs == Shown(gs) + Hidden(gs) by { ShownAndHidden(gs); }
    SumSplits(Shown(gs), Hidden(gs));
    if Hidden(gs) == [] {
      assert lines + [] == lines;
    } else {
      TailRead(lines, Sum(Hidden(gs)));
    }
  }

  lemma RankedIsPlain(statuses: seq<string>)
    requires AllPlain(statuses)
    ensures PlainGroups(Ranked(statuses))
  {
    RankedRanks(statuses);
    forall i | 0 <= i < |Ranked(statuses)| ensures Plain(Ranked(statuses)[i].status) {
      var g := Ranked(statuses)[i];
      assert g in Ranked(statuses);
      assert g.status in multiset(statuses);
    }
  }

  /** Reading a tally finds the worst tone among the groups it names, and the numbers
      it prints add up to the members it was made from. */
  lemma TallyReadsBack(statuses: seq<string>)
    requires AllPlain(statuses)
    ensures OfTally(Tally(statuses)) == WorstGroup(Shown(Ranked(statuses)))
    ensures statuses != [] ==> SumPrinted(Text.Split(Tally(statuses), ", ")) == |statuses|
  {
    var ranked := Ranked(statuses);
    RankedIsPlain(statuses);
    PartsRead(ranked);
    if ranked == [] {
      assert Tally(statuses) == "";
      assert [""][..0] == [];
    } else {
      SplitOfListed(Parts(ranked));
    }
  }

  // ----- What the tone hides -----

  ghost predicate IsWorst(t: Tone, statuses: seq<string>) {
    && (forall s :: s in statuses ==> Severity(OfStatus(s)) <= Severity(t))
    && (t == Neutral || exists s :: s in statuses && OfStatus(s) == t)
  }

  lemma {:induction false} WorstIsWorst(statuses: seq<string>)
    ensures IsWorst(Worst(statuses), statuses)
  {
    if statuses != [] {
      var init, last := statuses[..|statuses| - 1], statuses[|statuses| - 1];
      WorstIsWorst(init);
      assert statuses == init + [last];
      assert last in statuses;
    }
  }

  ghost predicate IsWorstGroup(t: Tone, gs: seq<Group>) {
    && (forall g :: g in gs ==> Severity(OfStatus(g.status)) <= Severity(t))
    && (t == Neutral || exists g :: g in gs && OfStatus(g.status) == t)
  }

  lemma {:induction false} WorstGroupIsWorst(gs: seq<Group>)
    ensures IsWorstGroup(WorstGroup(gs), gs)
  {
    if gs != [] {
      var init, last := gs[..|gs| - 1], gs[|gs| - 1];
      WorstGroupIsWorst(init);
      assert gs == init + [last];
      assert last in gs;
    }
  }

  /** Some named group is at least as bad as `h`. */
  ghost predicate Outshone(h: Group, shown: seq<Group>) {
    OfStatus(h.status) == Neutral || exists g :: g in shown && Severity(OfStatus(h.status)) <= Severity(OfStatus(g.status))
  }

  lemma ShownWorst(gs: seq<Group>)
    ensures WorstGroup(gs) == WorstGroup(Shown(gs)) <==> forall h :: h in Hidden(gs) ==> Outshone(h, Shown(gs))
  {
    WorstGroupIsWorst(gs);
    WorstGroupIsWorst(Shown(gs));
    var all, shown := WorstGroup(gs), WorstGroup(Shown(gs));
    assert gs == Shown(gs) + Hidden(gs);
    if all == shown {
      forall h | h in Hidden(gs) ensures Outshone(h, Shown(gs)) { assert h in gs; }
    }
  }

  lemma GroupsWorst(statuses: seq<string>)
    ensures WorstGroup(Ranked(statuses)) == Worst(statuses)
  {
    var gs := Ranked(statuses);
    RankedRanks(statuses);
    WorstGroupIsWorst(gs);
    WorstIsWorst(statuses);
    forall s | s in statuses ensures Severity(OfStatus(s)) <= Severity(WorstGroup(gs)) {
      assert Group(s, Count(statuses, s)) in gs;
    }
    forall g | g in gs ensures Severity(OfStatus(g.status)) <= Severity(Worst(statuses)) {
      assert g.status in multiset(statuses);
    }
  }

  /** The tone of a tally is the worst tone among its members exactly when no status
      beyond the three most frequent is worse than all of those three. */
  lemma ToneIsWorstExactly(statuses: seq<string>)
    requires AllPlain(statuses)
    ensures OfTally(Tally(statuses)) == Worst(statuses) <==>
            forall h :: h in Hidden(Ranked(statuses)) ==> Outshone(h, Shown(Ranked(statuses)))
  {
    TallyReadsBack(statuses);
    ShownWorst(Ranked(statuses));
    GroupsWorst(statuses);
  }

  lemma RankedSize(statuses: seq<string>)
    ensures |Ranked(statuses)| == |set s | s in statuses|
  {
    var gs := Ranked(statuses);
    RankedRanks(statuses);
    NamesSize(gs);
    forall s ensures s in Names(gs) <==> s in statuses {
      assert s in statuses ==> Group(s, Count(statuses, s)) in gs;
    }
    assert Names(gs) == set s | s in statuses;
  }

  lemma {:induction false} NamesSize(gs: seq<Group>)
    requires Distinct(gs)
    ensures |Names(gs)| == |gs|
  {
    if gs != [] {
      InitDistinct(gs);
      NamesSize(gs[..|gs| - 1]);
    }
  }

  /** With at most three different statuses nothing is hidden. */
  lemma FewStatusesHideNothing(statuses: seq<string>)
    requires AllPlain(statuses) && |set s | s in statuses| <= MAX_GROUPS
    ensures OfTally(Tally(statuses)) == Worst(statuses)
  {
    RankedSize(statuses);
    ToneIsWorstExactly(statuses);
  }

  lemma PlainWord(status: string)
    requires ',' !in status && (status == "" || !IsSpace(status[0]))
    ensures Plain(status)
  {
    forall j: nat ensures !Text.At(status, ", ", j) { Text.AtComma(status, j); }
  }

  function Runs(a: string, b: string, c: string, rare: string): seq<string> {
    [a, a, b, b, c, c, rare]
  }

  lemma CountPair(xs: seq<string>, x: string, s: string)
    ensures Count(xs + [x, x], s) == Count(xs, s) + if s == x then 2 else 0
  {
  }

  lemma CountRuns(a: string, b: string, c: string, rare: string, s: string)
    requires a != b && b != c && a != c && rare !in {a, b, c}
    ensures Count(Runs(a, b, c, rare), s) == if s == a || s == b || s == c then 2 else if s == rare then 1 else 0
  {
    assert Runs(a, b, c, rare) == [] + [a, a] + [b, b] + [c, c] + [rare];
    CountPair([], a, s);
    CountPair([] + [a, a], b, s);
    CountPair([] + [a, a] + [b, b], c, s);
  }

  function RankedRuns(a: string, b: string, c: string, rare: string): seq<Group> {
    [Group(a, 2), Group(b, 2), Group(c, 2), Group(rare, 1)]
  }

  lemma RunsRanked(a: string, b: string, c: string, rare: string)
    requires Less(a, b) && Less(b, c) && rare !in {a, b, c}
    ensures Ranked(Runs(a, b, c, rare)) == RankedRuns(a, b, c, rare)
  {
    LessOrders(a, b, c);
    LessOrders(b, c, a);
    LessOrders(a, c, b);
    var runs, ranked := Runs(a, b, c, rare), RankedRuns(a, b, c, rare);
    assert Ordered(ranked);
    forall g: Group ensures g in ranked <==> g.n > 0 && g.n == Count(runs, g.status) { CountRuns(a, b, c, rare, g.status); }
    OrderedDistinct(ranked, runs);
    RankedRanks(runs);
    assert Ranks(ranked, runs);
  }

  lemma HiddenFailure(runs: seq<string>, failed: string)
    requires AllPlain(runs) && failed in runs && OfStatus(failed) == Warn
    requires forall i | 0 <= i < |Shown(Ranked(runs))| :: OfStatus(Shown(Ranked(runs))[i].status) != Warn
    ensures Worst(runs) == Warn && OfTally(Tally(runs)) != Warn
  {
    TallyReadsBack(runs);
    WorstIsWorst(runs);
    WorstGroupIsWorst(Shown(Ranked(runs)));
  }

  lemma RunWords()
    ensures AllPlain(Runs("Completed", "Pending", "Running", "Failed"))
  {
    PlainWord("Completed");
    PlainWord("Pending");
    PlainWord("Running");
    PlainWord("Failed");
  }

  lemma RunTones()
    ensures OfStatus("Failed") == Warn && OfStatus("Completed") == Neutral
    ensures OfStatus("Pending") == Progress && OfStatus("Running") == Good
  {
  }

  lemma ShownRuns(a: string, b: string, c: string, rare: string)
    ensures Shown(RankedRuns(a, b, c, rare)) == [Group(a, 2), Group(b, 2), Group(c, 2)]
  {
  }

  /** Seven runs in four statuses, the failed one rarest, do not read as failed: the
      promise that clubbing never hides a failed run does not hold. */
  lemma FailureCanHide()
    ensures var runs := Runs("Completed", "Pending", "Running", "Failed");
            Worst(runs) == Warn && OfTally(Tally(runs)) != Warn
  {
    RunWords();
    RunTones();
    RunsInOrder();
    RareFailureHides("Completed", "Pending", "Running", "Failed");
  }

  lemma RunsInOrder()
    ensures Less("Completed", "Pending") && Less("Pending", "Running") && "Failed" !in {"Completed", "Pending", "Running"}
  {
  }

  lemma RareFailureHides(a: string, b: string, c: string, rare: string)
    requires Less(a, b) && Less(b, c) && rare !in {a, b, c} && AllPlain(Runs(a, b, c, rare))
    requires OfStatus(rare) == Warn && Warn !in {OfStatus(a), OfStatus(b), OfStatus(c)}
    ensures Worst(Runs(a, b, c, rare)) == Warn && OfTally(Tally(Runs(a, b, c, rare))) != Warn
  {
    assert Runs(a, b, c, rare)[6] == rare;
    RunsRanked(a, b, c, rare);
    ShownRuns(a, b, c, rare);
    HiddenFailure(Runs(a, b, c, rare), rare);
  }
}
