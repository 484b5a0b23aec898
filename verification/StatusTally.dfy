/** The badge of a clubbed node: how many members are in which status. */
module StatusTally {
  import Decimal

  const MAX_GROUPS := 3

  datatype Group = Group(status: string, n: nat)

  // ----- Counting -----

  /** One more member with this status. */
  function Bump(gs: seq<Group>, status: string): (r: seq<Group>)
    ensures Sum(r) == Sum(gs) + 1
  {
    if gs == [] then [Group(status, 1)]
    else
      var init, last := gs[..|gs| - 1], gs[|gs| - 1];
      if last.status == status then init + [last.(n := last.n + 1)] else Bump(init, status) + [last]
  }

  function Counted(statuses: seq<string>): (r: seq<Group>)
    ensures Sum(r) == |statuses|
  {
    if statuses == [] then [] else Bump(Counted(statuses[..|statuses| - 1]), statuses[|statuses| - 1])
  }

  function Sum(gs: seq<Group>): nat {
    if gs == [] then 0 else Sum(gs[..|gs| - 1]) + gs[|gs| - 1].n
  }

  // ----- Ranking: count first, then name -----

  predicate Less(a: string, b: string) {
    b != "" && (a == "" || a[0] < b[0] || (a[0] == b[0] && Less(a[1..], b[1..])))
  }

  predicate Before(a: Group, b: Group) {
    a.n > b.n || (a.n == b.n && Less(a.status, b.status))
  }

  function Insert(gs: seq<Group>, g: Group): (r: seq<Group>)
    ensures Sum(r) == Sum(gs) + g.n && |r| == |gs| + 1
    ensures forall x :: x in r <==> x in gs || x == g
  {
    if gs == [] || Before(gs[|gs| - 1], g) then gs + [g]
    else Insert(gs[..|gs| - 1], g) + [gs[|gs| - 1]]
  }

  function Sort(gs: seq<Group>): (r: seq<Group>)
    ensures Sum(r) == Sum(gs) && |r| == |gs|
    ensures forall x :: x in r <==> x in gs
  {
    if gs == [] then [] else Insert(Sort(gs[..|gs| - 1]), gs[|gs| - 1])
  }

  function Ranked(statuses: seq<string>): (r: seq<Group>)
    ensures Sum(r) == |statuses|
  {
    Sort(Counted(statuses))
  }

  // ----- The badge -----

  function Line(g: Group): string {
    Decimal.Print(g.n) + " " + g.status
  }

  function Lines(gs: seq<Group>): (r: seq<string>)
    ensures |r| == |gs| && forall i | 0 <= i < |gs| :: r[i] == Line(gs[i])
  {
    seq(|gs|, i requires 0 <= i < |gs| => Line(gs[i]))
  }

  function Tail(other: nat): string {
    "+" + Decimal.Print(other) + " other"
  }

  function Shown(ranked: seq<Group>): seq<Group> {
    if |ranked| <= MAX_GROUPS then ranked else ranked[..MAX_GROUPS]
  }

  function Hidden(ranked: seq<Group>): seq<Group> {
    if |ranked| <= MAX_GROUPS then [] else ranked[MAX_GROUPS..]
  }

  /** At most three groups are named; the rest fold into one count. */
  function Parts(ranked: seq<Group>): seq<string> {
    Lines(Shown(ranked)) + if Hidden(ranked) == [] then [] else [Tail(Sum(Hidden(ranked)))]
  }

  /** The parts separated by ", ". */
  function Listed(parts: seq<string>): string {
    if parts == [] then ""
    else if |parts| == 1 then parts[0]
    else Listed(parts[..|parts| - 1]) + ", " + parts[|parts| - 1]
  }

  function Tally(statuses: seq<string>): string {
    Listed(Parts(Ranked(statuses)))
  }

  // ----- What counting means -----

  function Names(gs: seq<Group>): set<string> {
    set g | g in gs :: g.status
  }

  /** One group per status, and none empty. */
  ghost predicate Distinct(gs: seq<Group>) {
    (forall i, j | 0 <= i < j < |gs| :: gs[i].status != gs[j].status) && forall g :: g in gs ==> g.n > 0
  }

  /** How many members the groups of `status` hold together. */
  function Held(gs: seq<Group>, status: string): nat {
    if gs == [] then 0
    else Held(gs[..|gs| - 1], status) + if gs[|gs| - 1].status == status then gs[|gs| - 1].n else 0
  }

  lemma NamesSnoc(gs: seq<Group>, g: Group)
    ensures Names(gs + [g]) == Names(gs) + {g.status}
  {
  }

  lemma InitDistinct(gs: seq<Group>)
    requires Distinct(gs) && gs != []
    ensures Distinct(gs[..|gs| - 1]) && gs[|gs| - 1].status !in Names(gs[..|gs| - 1]) && gs[|gs| - 1].n > 0
    ensures Names(gs) == Names(gs[..|gs| - 1]) + {gs[|gs| - 1].status}
  {
    assert gs == gs[..|gs| - 1] + [gs[|gs| - 1]];
  }

  lemma SnocDistinct(gs: seq<Group>, g: Group)
    requires Distinct(gs) && g.status !in Names(gs) && g.n > 0
    ensures Distinct(gs + [g])
  {
    forall i | 0 <= i < |gs| ensures gs[i].status != g.status { assert gs[i] in gs; }
  }

  lemma {:induction false} BumpDistinct(gs: seq<Group>, status: string)
    requires Distinct(gs)
    ensures Distinct(Bump(gs, status)) && Names(Bump(gs, status)) == Names(gs) + {status}
  {
    if gs != [] {
      var init, last := gs[..|gs| - 1], gs[|gs| - 1];
      InitDistinct(gs);
      if last.status == status {
        SnocDistinct(init, last.(n := last.n + 1));
        NamesSnoc(init, last.(n := last.n + 1));
      } else {
        BumpDistinct(init, status);
        SnocDistinct(Bump(init, status), last);
        NamesSnoc(Bump(init, status), last);
      }
    }
  }

  lemma {:induction false} BumpHeld(gs: seq<Group>, status: string, other: string)
    ensures Held(Bump(gs, status), other) == Held(gs, other) + if other == status then 1 else 0
  {
    if gs == [] {
      assert [Group(status, 1)][..0] == [];
    } else {
      var init, last := gs[..|gs| - 1], gs[|gs| - 1];
      BumpHeld(init, status, other);
      assert (init + [last.(n := last.n + 1)])[..|init|] == init;
      assert (Bump(init, status) + [last])[..|Bump(init, status)|] == Bump(init, status);
    }
  }

  function Count(statuses: seq<string>, status: string): nat {
    multiset(statuses)[status]
  }

  lemma {:induction false} CountedHolds(statuses: seq<string>)
    ensures Distinct(Counted(statuses)) && forall t :: Held(Counted(statuses), t) == Count(statuses, t)
  {
    if statuses != [] {
      var init, last := statuses[..|statuses| - 1], statuses[|statuses| - 1];
      assert statuses == init + [last];
      CountedHolds(init);
      BumpDistinct(Counted(init), last);
      forall t ensures Held(Counted(statuses), t) == Count(statuses, t) { BumpHeld(Counted(init), last, t); }
    }
  }

  /** In distinct groups what is held in a status is that status's own group. */
  lemma {:induction false} HeldIsGroup(gs: seq<Group>, status: string)
    requires Distinct(gs)
    ensures status !in Names(gs) ==> Held(gs, status) == 0
    ensures forall n: nat :: Group(status, n) in gs <==> n > 0 && n == Held(gs, status)
  {
    if gs != [] {
      var init, last := gs[..|gs| - 1], gs[|gs| - 1];
      HeldIsGroup(init, status);
      assert gs == init + [last];
      assert last.status !in Names(init);
    }
  }

  /** The groups are exactly the statuses that occur, each with its number of members. */
  ghost predicate Counts(gs: seq<Group>, statuses: seq<string>) {
    Distinct(gs) && forall g :: g in gs <==> g.n > 0 && g.n == Count(statuses, g.status)
  }

  lemma CountedCounts(statuses: seq<string>)
    ensures Counts(Counted(statuses), statuses)
  {
    CountedHolds(statuses);
    forall g: Group ensures g in Counted(statuses) <==> g.n > 0 && g.n == Count(statuses, g.status) {
      HeldIsGroup(Counted(statuses), g.status);
    }
  }

  // ----- What ranking means -----

  lemma {:induction false} LessOrders(a: string, b: string, c: string)
    ensures !Less(a, a)
    ensures a != b ==> Less(a, b) != Less(b, a)
    ensures Less(a, b) && Less(b, c) ==> Less(a, c)
    decreases |a|
  {
    if a != "" {
      LessOrders(a[1..], if b == "" then "" else b[1..], if c == "" then "" else c[1..]);
      if b != "" && a[0] == b[0] && a[1..] == b[1..] { assert a == [a[0]] + a[1..] == b; }
    }
  }

  ghost predicate Ordered(gs: seq<Group>) {
    forall i, j | 0 <= i < j < |gs| :: Before(gs[i], gs[j])
  }

  lemma BeforeOrders(a: Group, b: Group, c: Group)
    ensures !Before(a, a)
    ensures a != b ==> Before(a, b) != Before(b, a)
    ensures Before(a, b) && Before(b, c) ==> Before(a, c)
  {
    LessOrders(a.status, b.status, c.status);
  }

  lemma {:induction false} InsertOrders(gs: seq<Group>, g: Group)
    requires Ordered(gs) && g !in gs
    ensures Ordered(Insert(gs, g))
  {
    if gs != [] {
      var init, last := gs[..|gs| - 1], gs[|gs| - 1];
      BeforeOrders(last, g, g);
      if Before(last, g) {
        forall i | 0 <= i < |gs| ensures Before(gs[i], g) { BeforeOrders(gs[i], last, g); }
      } else {
        assert Before(g, last);
        InsertOrders(init, g);
        forall x | x in Insert(init, g) ensures Before(x, last) {}
      }
    }
  }

  lemma {:induction false} SortOrders(gs: seq<Group>)
    requires Distinct(gs)
    ensures Ordered(Sort(gs))
  {
    if gs != [] {
      var init, last := gs[..|gs| - 1], gs[|gs| - 1];
      assert last !in init;
      SortOrders(init);
      InsertOrders(Sort(init), last);
    }
  }

  /** There is one way to rank a set of groups. */
  lemma {:induction false} OneRanking(a: seq<Group>, b: seq<Group>)
    requires Ordered(a) && Ordered(b) && forall g :: g in a <==> g in b
    ensures a == b
  {
    if a == [] {
      HasFirst(b);
    } else {
      HasFirst(a);
      HasFirst(b);
      FirstIsFirst(a, b);
      forall g ensures g in a[1..] <==> g in b[1..] {
        NotAgain(a);
        NotAgain(b);
      }
      OneRanking(a[1..], b[1..]);
    }
  }

  lemma HasFirst(gs: seq<Group>)
    ensures gs != [] ==> gs[0] in gs
    ensures gs == [] || exists g :: g in gs
  {
  }

  lemma NotAgain(gs: seq<Group>)
    requires gs != [] && Ordered(gs)
    ensures forall g :: g in gs[1..] <==> g in gs && g != gs[0]
  {
    BeforeOrders(gs[0], gs[0], gs[0]);
  }

  lemma FirstLeads(gs: seq<Group>, g: Group)
    requires Ordered(gs) && g in gs
    ensures g == gs[0] || Before(gs[0], g)
  {
  }

  lemma FirstIsFirst(a: seq<Group>, b: seq<Group>)
    requires Ordered(a) && Ordered(b) && a != [] && b != [] && a[0] in b && b[0] in a
    ensures a[0] == b[0]
  {
    BeforeOrders(a[0], b[0], a[0]);
    FirstLeads(a, b[0]);
    FirstLeads(b, a[0]);
  }

  ghost predicate Ranks(gs: seq<Group>, statuses: seq<string>) {
    Ordered(gs) && Counts(gs, statuses)
  }

  /** The ranking holds every status with its number of members, most frequent first
      and names breaking ties; it is the only such list. */
  lemma RankedRanks(statuses: seq<string>)
    ensures Ranks(Ranked(statuses), statuses)
    ensures forall gs :: Ranks(gs, statuses) ==> gs == Ranked(statuses)
  {
    CountedCounts(statuses);
    var ranked := Ranked(statuses);
    SortOrders(Counted(statuses));
    OrderedDistinct(ranked, statuses);
    forall gs | Ranks(gs, statuses) ensures gs == ranked { OneRanking(gs, ranked); }
  }

  lemma OrderedDistinct(gs: seq<Group>, statuses: seq<string>)
    requires Ordered(gs) && forall g :: g in gs <==> g.n > 0 && g.n == Count(statuses, g.status)
    ensures Distinct(gs)
  {
    forall i, j | 0 <= i < j < |gs| ensures gs[i].status != gs[j].status {
      assert gs[i] in gs && gs[j] in gs;
      BeforeOrders(gs[i], gs[i], gs[i]);
    }
  }

  // ----- The badge as it is built -----

  lemma ListedSnoc(parts: seq<string>, part: string)
    ensures Listed(parts + [part]) == if parts == [] then part else Listed(parts) + ", " + part
  {
    assert (parts + [part])[..|parts|] == parts;
  }

  lemma {:induction false} ListedLine(parts: seq<string>)
    requires parts != [] && forall i | 0 <= i < |parts| :: parts[i] != ""
    ensures Listed(parts) != ""
  {
    if |parts| > 1 {}
  }

  method CountStatuses(statuses: seq<string>) returns (counts: map<string, nat>)
    ensures forall t :: t in counts <==> t in statuses
    ensures forall t :: t in counts ==> counts[t] == Count(statuses, t)
  {
    counts := map[];
    var i := 0;
    while i < |statuses|
      invariant 0 <= i <= |statuses|
      invariant forall t :: t in counts <==> t in statuses[..i]
      invariant forall t :: t in counts ==> counts[t] == Count(statuses[..i], t)
    {
      var s := statuses[i];
      assert statuses[..i + 1] == statuses[..i] + [s];
      counts := counts[s := (if s in counts then counts[s] else 0) + 1];
      i := i + 1;
    }
    assert statuses[..i] == statuses;
  }

  /** The groups in whatever order the map yields them. */
  method CollectGroups(counts: map<string, nat>) returns (groups: seq<Group>)
    ensures forall i, j | 0 <= i < j < |groups| :: groups[i].status != groups[j].status
    ensures forall g :: g in groups <==> g.status in counts && g.n == counts[g.status]
  {
    groups := [];
    var left := counts.Keys;
    while left != {}
      invariant left <= counts.Keys
      invariant forall i, j | 0 <= i < j < |groups| :: groups[i].status != groups[j].status
      invariant forall g :: g in groups <==> g.status in counts && g.status !in left && g.n == counts[g.status]
      decreases left
    {
      var s :| s in left;
      forall i | 0 <= i < |groups| ensures groups[i].status != s { assert groups[i] in groups; }
      left := left - {s};
      groups := groups + [Group(s, counts[s])];
    }
  }

  lemma CollectedCounts(statuses: seq<string>, counts: map<string, nat>, groups: seq<Group>)
    requires forall t :: t in counts <==> t in statuses
    requires forall t :: t in counts ==> counts[t] == Count(statuses, t)
    requires forall i, j | 0 <= i < j < |groups| :: groups[i].status != groups[j].status
    requires forall g :: g in groups <==> g.status in counts && g.n == counts[g.status]
    ensures Counts(groups, statuses)
  {
  }

  lemma SortIsRanked(groups: seq<Group>, statuses: seq<string>)
    requires Counts(groups, statuses)
    ensures Sort(groups) == Ranked(statuses) && forall g :: g in Ranked(statuses) ==> g.n > 0
  {
    SortOrders(groups);
    OrderedDistinct(Sort(groups), statuses);
    RankedRanks(statuses);
    assert Ranks(Sort(groups), statuses);
  }

  lemma OneMore(gs: seq<Group>, i: nat)
    requires i < |gs|
    ensures i < MAX_GROUPS ==> Shown(gs[..i + 1]) == Shown(gs[..i]) + [gs[i]] && Hidden(gs[..i + 1]) == Hidden(gs[..i])
    ensures i >= MAX_GROUPS ==> Shown(gs[..i + 1]) == Shown(gs[..i]) && Hidden(gs[..i + 1]) == Hidden(gs[..i]) + [gs[i]]
  {
  }

  lemma SumSnoc(gs: seq<Group>, g: Group)
    ensures Sum(gs + [g]) == Sum(gs) + g.n
  {
    assert (gs + [g])[..|gs|] == gs;
  }

  /** What one more named group does to the text. */
  lemma NameOne(shown: seq<Group>, g: Group)
    ensures Listed(Lines(shown + [g])) ==
            Listed(Lines(shown)) + (if Listed(Lines(shown)) == "" then "" else ", ") + Line(g)
  {
    ListedSnoc(Lines(shown), Line(g));
    assert Lines(shown + [g]) == Lines(shown) + [Line(g)];
    if shown != [] { ListedLine(Lines(shown)); }
  }

  lemma FoldOne(shown: seq<Group>, other: nat)
    requires shown != []
    ensures Listed(Lines(shown) + [Tail(other)]) == Listed(Lines(shown)) + ", " + Tail(other)
  {
    ListedSnoc(Lines(shown), Tail(other));
  }

  /** The text after the first `i` groups. */
  function NamedIn(groups: seq<Group>, i: nat): string
    requires i <= |groups|
  {
    Listed(Lines(Shown(groups[..i])))
  }

  /** The members folded away after the first `i` groups. */
  function FoldedIn(groups: seq<Group>, i: nat): nat
    requires i <= |groups|
  {
    Sum(Hidden(groups[..i]))
  }

  lemma RenderNext(groups: seq<Group>, i: nat)
    requires i < |groups|
    ensures i >= MAX_GROUPS ==> NamedIn(groups, i + 1) == NamedIn(groups, i) && FoldedIn(groups, i + 1) == FoldedIn(groups, i) + groups[i].n
    ensures i < MAX_GROUPS ==> FoldedIn(groups, i + 1) == FoldedIn(groups, i)
    ensures i < MAX_GROUPS ==> NamedIn(groups, i + 1) == NamedIn(groups, i) + (if NamedIn(groups, i) == "" then "" else ", ") + Line(groups[i])
  {
    OneMore(groups, i);
    if i >= MAX_GROUPS {
      SumSnoc(Hidden(groups[..i]), groups[i]);
    } else {
      NameOne(Shown(groups[..i]), groups[i]);
    }
  }

  method Render(groups: seq<Group>) returns (out: string)
    requires forall g :: g in groups ==> g.n > 0
    ensures out == Listed(Parts(groups))
  {
    out := "";
    var other, i := 0, 0;
    while i < |groups|
      invariant 0 <= i <= |groups|
      invariant out == NamedIn(groups, i) && other == FoldedIn(groups, i)
      invariant i > MAX_GROUPS <==> other > 0
    {
      RenderNext(groups, i);
      assert groups[i] in groups;
      if i >= MAX_GROUPS {
        other := other + groups[i].n;
      } else {
        if out != "" { out := out + ", "; }
        out := out + Line(groups[i]);
      }
      i := i + 1;
    }
    assert groups[..i] == groups;
    PartsAre(groups);
    if other > 0 { out := out + ", " + Tail(other); }
  }

  lemma PartsAre(groups: seq<Group>)
    ensures Listed(Parts(groups)) ==
            if |groups| > MAX_GROUPS then Listed(Lines(Shown(groups))) + ", " + Tail(Sum(Hidden(groups)))
            else Listed(Lines(Shown(groups)))
  {
    if |groups| > MAX_GROUPS {
      FoldOne(Shown(groups), Sum(Hidden(groups)));
    } else {
      assert Lines(Shown(groups)) + [] == Lines(Shown(groups));
    }
  }

  /** Summarises the statuses of a clubbed set. */
  method TallyStatuses(statuses: seq<string>) returns (out: string)
    ensures out == Tally(statuses)
  {
    var counts := CountStatuses(statuses);
    var groups := CollectGroups(counts);
    CollectedCounts(statuses, counts, groups);
    SortIsRanked(groups, statuses);
    out := Render(Sort(groups));
  }
}
