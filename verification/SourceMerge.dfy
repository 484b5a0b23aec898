/** The kubeconfig sources expanded into one precedence order, and which file each context
    name comes from. */
module SourceMerge {
  import opened Optional

  // ----- What is on disk -----

  datatype Entry = Entry(name: string, content: Content)

  /** What a directory entry turns out to be when looked at. */
  datatype Content = SubDirectory | Unreadable | Irregular | TooLarge | Unparseable | Parses(contexts: seq<string>)

  datatype OnDisk = Missing | File(content: Content, bare: bool) | UnlistableDirectory | Directory(entries: seq<Entry>)

  datatype Source = Source(path: string, disk: OnDisk)

  // ----- What is reported -----

  datatype FileState = Usable | Hidden | Oversized | Broken

  datatype FileStatus = FileStatus(path: string, state: FileState, contexts: seq<string>, shadowed: seq<string>)

  datatype SourceState = SourceMissing | SourceUnparseable | SourceEmpty | SourceOk

  datatype Status = Status(path: string, directory: bool, state: SourceState, files: seq<FileStatus>, contexts: seq<string>, shadowed: seq<string>)

  /** One usable file, and where its attribution goes: its source, and for a directory's
      file the position in the listing. */
  datatype Candidate = Candidate(path: string, contexts: seq<string>, source: nat, file: Option<nat>)

  // ----- Attribution: the first file to define a name wins it -----

  datatype Split = Split(won: seq<string>, shadowed: seq<string>, seen: set<string>)

  /** Walks the names of one file, given the names already seen. */
  function WalkNames(names: seq<string>, seen: set<string>): Split {
    if names == [] then Split([], [], seen)
    else
      var s, name := WalkNames(names[..|names| - 1], seen), names[|names| - 1];
      if name in s.seen then s.(shadowed := s.shadowed + [name])
      else s.(won := s.won + [name], seen := s.seen + {name})
  }

  function Seen(cs: seq<Candidate>): set<string> {
    if cs == [] then {} else WalkNames(cs[|cs| - 1].contexts, Seen(cs[..|cs| - 1])).seen
  }

  function Won(cs: seq<Candidate>, k: nat): seq<string>
    requires k < |cs|
  {
    WalkNames(cs[k].contexts, Seen(cs[..k])).won
  }

  function Shadowed(cs: seq<Candidate>, k: nat): seq<string>
    requires k < |cs|
  {
    WalkNames(cs[k].contexts, Seen(cs[..k])).shadowed
  }

  /** A kubeconfig keeps its contexts in a map: no file defines a name twice. */
  ghost predicate NoneTwice(names: seq<string>) {
    forall i, j | 0 <= i < j < |names| :: names[i] != names[j]
  }

  lemma {:induction false} WalkSplits(names: seq<string>, seen: set<string>)
    requires NoneTwice(names)
    ensures var s := WalkNames(names, seen);
            && (forall x :: x in s.won <==> x in names && x !in seen)
            && (forall x :: x in s.shadowed <==> x in names && x in seen)
            && (forall x :: x in s.seen <==> x in seen || x in names)
            && |s.won| + |s.shadowed| == |names|
  {
    if names != [] {
      WalkSplits(names[..|names| - 1], seen);
      assert names == names[..|names| - 1] + [names[|names| - 1]];
    }
  }

  ghost predicate Proper(cs: seq<Candidate>) {
    forall k | 0 <= k < |cs| :: NoneTwice(cs[k].contexts)
  }

  ghost predicate Defines(cs: seq<Candidate>, k: nat, name: string) {
    k < |cs| && name in cs[k].contexts
  }

  lemma {:induction false} SeenIsDefined(cs: seq<Candidate>)
    requires Proper(cs)
    ensures forall name :: name in Seen(cs) <==> exists k :: Defines(cs, k, name)
  {
    if cs == [] {
    } else {
      var init, last := cs[..|cs| - 1], |cs| - 1;
      SeenIsDefined(init);
      WalkSplits(cs[last].contexts, Seen(init));
      forall name ensures name in Seen(cs) <==> exists k :: Defines(cs, k, name) {
        if name in Seen(init) {
          var k :| Defines(init, k, name);
          assert Defines(cs, k, name);
        }
        if name in cs[last].contexts { assert Defines(cs, last, name); }
        if k :| Defines(cs, k, name) { assert k == last || Defines(init, k, name); }
      }
    }
  }

  /** What a first-wins merge of the files in this order keeps: for each name, the first
      file that defines it. */
  function Merge(cs: seq<Candidate>): map<string, string> {
    if cs == [] then map[]
    else
      var before, last := Merge(cs[..|cs| - 1]), cs[|cs| - 1];
      (map name | name in last.contexts :: last.path) + before
  }

  /** `k` is the first candidate that defines the name. */
  ghost predicate FirstDefiner(cs: seq<Candidate>, k: nat, name: string) {
    Defines(cs, k, name) && forall j: nat | j < k :: !Defines(cs, j, name)
  }

  lemma {:induction false} MergeKeepsFirst(cs: seq<Candidate>, k: nat, name: string)
    requires FirstDefiner(cs, k, name)
    ensures name in Merge(cs) && Merge(cs)[name] == cs[k].path
  {
    var init, last := cs[..|cs| - 1], |cs| - 1;
    if k < last {
      assert FirstDefiner(init, k, name) by {
        forall j: nat | j < k ensures !Defines(init, j, name) { assert !Defines(cs, j, name); }
      }
      MergeKeepsFirst(init, k, name);
    } else {
      if name in Merge(init) {
        MergeIsDefined(init, name);
        var j :| Defines(init, j, name);
        assert Defines(cs, j, name);
      }
    }
  }

  lemma {:induction false} MergeIsDefined(cs: seq<Candidate>, name: string)
    requires name in Merge(cs)
    ensures exists k :: Defines(cs, k, name)
  {
    var init, last := cs[..|cs| - 1], |cs| - 1;
    if name in cs[last].contexts {
      assert Defines(cs, last, name);
    } else {
      MergeIsDefined(init, name);
      var k :| Defines(init, k, name);
      assert Defines(cs, k, name);
    }
  }

  /** A name has been seen exactly when its first definer has been walked. */
  lemma SeenAfterFirst(cs: seq<Candidate>, k: nat, j: nat, name: string)
    requires Proper(cs) && j <= |cs| && FirstDefiner(cs, k, name)
    ensures name in Seen(cs[..j]) <==> k < j
  {
    SeenIsDefined(cs[..j]);
    if k < j { assert Defines(cs[..j], k, name); }
    if name in Seen(cs[..j]) {
      var i :| Defines(cs[..j], i, name);
      assert Defines(cs, i, name);
    }
  }

  lemma AttributionAt(cs: seq<Candidate>, k: nat, j: nat, name: string)
    requires Proper(cs) && j < |cs| && FirstDefiner(cs, k, name)
    ensures name in Won(cs, j) <==> j == k
    ensures name in Shadowed(cs, j) <==> j != k && Defines(cs, j, name)
  {
    SeenAfterFirst(cs, k, j, name);
    WalkSplits(cs[j].contexts, Seen(cs[..j]));
    assert name in cs[j].contexts <==> Defines(cs, j, name);
  }

  /** Attribution agrees with the merge: a name some usable file defines is won by exactly
      one candidate, the first that defines it, every other definer lists it as shadowed,
      and the winner is the file the merge keeps it from. */
  lemma AttributionAgrees(cs: seq<Candidate>, k: nat, name: string)
    requires Proper(cs) && FirstDefiner(cs, k, name)
    ensures forall j | 0 <= j < |cs| :: name in Won(cs, j) <==> j == k
    ensures forall j | 0 <= j < |cs| :: name in Shadowed(cs, j) <==> j != k && Defines(cs, j, name)
    ensures name in Merge(cs) && Merge(cs)[name] == cs[k].path
  {
    MergeKeepsFirst(cs, k, name);
    forall j | 0 <= j < |cs| ensures name in Won(cs, j) <==> j == k { AttributionAt(cs, k, j, name); }
    forall j | 0 <= j < |cs| ensures name in Shadowed(cs, j) <==> j != k && Defines(cs, j, name) { AttributionAt(cs, k, j, name); }
  }

  /** A name no usable file defines is neither won nor shadowed nor kept. */
  lemma UndefinedIsNowhere(cs: seq<Candidate>, name: string)
    requires Proper(cs) && !exists k :: Defines(cs, k, name)
    ensures name !in Merge(cs) && forall j | 0 <= j < |cs| :: name !in Won(cs, j) && name !in Shadowed(cs, j)
  {
    if name in Merge(cs) { MergeIsDefined(cs, name); }
    forall j | 0 <= j < |cs| ensures name !in Won(cs, j) && name !in Shadowed(cs, j) {
      WalkSplits(cs[j].contexts, Seen(cs[..j]));
      assert !Defines(cs, j, name);
    }
  }

  // ----- Expanding the sources -----

  function Join(directory: string, name: string): string {
    directory + "/" + name
  }

  predicate IsHidden(name: string) {
    name != "" && name[0] == '.'
  }

  /** How one directory entry is listed, if it is. */
  function ListedAs(directory: string, e: Entry): Option<FileStatus> {
    var path := Join(directory, e.name);
    if e.content.SubDirectory? then None
    else if IsHidden(e.name) then Some(FileStatus(path, Hidden, [], []))
    else
      match e.content
      case Unreadable => Some(FileStatus(path, Broken, [], []))
      case Irregular => None
      case TooLarge => Some(FileStatus(path, Oversized, [], []))
      case Unparseable => Some(FileStatus(path, Broken, [], []))
      case _ => Some(FileStatus(path, Usable, [], []))
  }

  datatype Expansion = Expansion(files: seq<FileStatus>, candidates: seq<Candidate>)

  /** A directory's listing and its candidates, in listing order. */
  function ExpandEntries(directory: string, entries: seq<Entry>, source: nat): Expansion {
    if entries == [] then Expansion([], [])
    else
      var x, e := ExpandEntries(directory, entries[..|entries| - 1], source), entries[|entries| - 1];
      var listed := ListedAs(directory, e);
      if listed.None? then x
      else
        Expansion(x.files + [listed.value],
                  if listed.value.state.Usable? && e.content.Parses?
                  then x.candidates + [Candidate(Join(directory, e.name), e.content.contexts, source, Some(|x.files|))]
                  else x.candidates)
  }

  /** The candidates of one source. */
  function CandidatesOf(s: Source, i: nat): seq<Candidate> {
    match s.disk
    case File(Parses(contexts), _) => [Candidate(s.path, contexts, i, None)]
    case Directory(entries) => ExpandEntries(s.path, entries, i).candidates
    case _ => []
  }

  function CandidatesUpTo(sources: seq<Source>): seq<Candidate> {
    if sources == [] then []
    else CandidatesUpTo(sources[..|sources| - 1]) + CandidatesOf(sources[|sources| - 1], |sources| - 1)
  }

  function StatusOf(s: Source, i: nat): Status {
    match s.disk
    case Missing => Status(s.path, false, SourceMissing, [], [], [])
    case UnlistableDirectory => Status(s.path, true, SourceMissing, [], [], [])
    case Directory(entries) =>
      var x := ExpandEntries(s.path, entries, i);
      Status(s.path, true, if x.candidates == [] then SourceEmpty else SourceOk, x.files, [], [])
    case File(content, bare) =>
      Status(s.path, false, if !content.Parses? then SourceUnparseable else if bare then SourceEmpty else SourceOk, [], [], [])
  }

  method ClassifyOne(s: Source, i: nat) returns (st: Status, found: seq<Candidate>)
    ensures st == StatusOf(s, i) && found == CandidatesOf(s, i)
  {
    match s.disk
    case Missing => return Status(s.path, false, SourceMissing, [], [], []), [];
    case UnlistableDirectory => return Status(s.path, true, SourceMissing, [], [], []), [];
    case Directory(entries) =>
      var files, usable := ExpandDir(s.path, entries, i);
      return Status(s.path, true, if usable == [] then SourceEmpty else SourceOk, files, [], []), usable;
    case File(content, bare) =>
      if !content.Parses? { return Status(s.path, false, SourceUnparseable, [], [], []), []; }
      return Status(s.path, false, if bare then SourceEmpty else SourceOk, [], [], []), [Candidate(s.path, content.contexts, i, None)];
  }

  /** The classification of each source, and the usable files in precedence order. */
  method Classify(sources: seq<Source>) returns (statuses: seq<Status>, candidates: seq<Candidate>)
    ensures candidates == CandidatesUpTo(sources) && Precede(sources, candidates)
    ensures Statused(sources, |sources|, statuses)
  {
    statuses, candidates := [], [];
    var i := 0;
    while i < |sources|
      invariant 0 <= i <= |sources| && candidates == CandidatesUpTo(sources[..i])
      invariant Statused(sources, i, statuses)
    {
      CandidatesNext(sources, i);
      var st, found := ClassifyOne(sources[i], i);
      StatusedNext(sources, i, statuses);
      statuses, candidates := statuses + [st], candidates + found;
      i := i + 1;
    }
    assert sources[..i] == sources;
    CandidatesPrecede(sources);
  }

  method ExpandDir(directory: string, entries: seq<Entry>, source: nat) returns (files: seq<FileStatus>, found: seq<Candidate>)
    ensures Expansion(files, found) == ExpandEntries(directory, entries, source)
  {
    files, found := [], [];
    var i := 0;
    while i < |entries|
      invariant 0 <= i <= |entries| && Expansion(files, found) == ExpandEntries(directory, entries[..i], source)
    {
      assert entries[..i + 1][..i] == entries[..i];
      var e := entries[i];
      i := i + 1;
      if e.content.SubDirectory? { continue; }
      var full := Join(directory, e.name);
      if IsHidden(e.name) {
        files := files + [FileStatus(full, Hidden, [], [])];
        continue;
      }
      if e.content.Irregular? { continue; }
      if e.content.TooLarge? {
        files := files + [FileStatus(full, Oversized, [], [])];
      } else if e.content.Parses? {
        found := found + [Candidate(full, e.content.contexts, source, Some(|files|))];
        files := files + [FileStatus(full, Usable, [], [])];
      } else {
        files := files + [FileStatus(full, Broken, [], [])];
      }
    }
    assert entries[..i] == entries;
  }

  // ----- Attributing back to the listing -----

  /** Each candidate has a place in the listing, and no two share a file's. */
  ghost predicate Placed(statuses: seq<Status>, cs: seq<Candidate>) {
    && (forall k | 0 <= k < |cs| :: cs[k].source < |statuses|
          && (cs[k].file.Some? ==> cs[k].file.value < |statuses[cs[k].source].files|))
    && (forall j, k | 0 <= j < k < |cs| :: cs[k].file.Some? && cs[j].source == cs[k].source ==> cs[j].file != cs[k].file)
  }

  /** What the candidates of source `i` have won (or have had shadowed) so far, in order. */
  function SourceWon(cs: seq<Candidate>, i: nat, upto: nat, won: bool): seq<string>
    requires upto <= |cs|
  {
    if upto == 0 then []
    else
      SourceWon(cs, i, upto - 1, won) +
      if cs[upto - 1].source != i then [] else if won then Won(cs, upto - 1) else Shadowed(cs, upto - 1)
  }

  /** The listing carries the attribution of the first `upto` candidates. */
  ghost predicate Attributed(statuses: seq<Status>, cs: seq<Candidate>, upto: nat)
    requires upto <= |cs|
  {
    && Placed(statuses, cs)
    && (forall i | 0 <= i < |statuses| :: statuses[i].contexts == SourceWon(cs, i, upto, true)
          && statuses[i].shadowed == SourceWon(cs, i, upto, false))
    && (forall k | 0 <= k < upto :: cs[k].file.Some? ==>
          var f := statuses[cs[k].source].files[cs[k].file.value];
          f.contexts == Won(cs, k) && f.shadowed == Shadowed(cs, k))
  }

  /** One candidate's result written into the listing. */
  function Write(statuses: seq<Status>, c: Candidate, won: seq<string>, shadowed: seq<string>): (r: seq<Status>)
    requires c.source < |statuses| && (c.file.Some? ==> c.file.value < |statuses[c.source].files|)
    ensures |r| == |statuses|
  {
    var st := statuses[c.source];
    var files := if c.file.None? then st.files
                 else st.files[c.file.value := st.files[c.file.value].(contexts := won, shadowed := shadowed)];
    statuses[c.source := st.(files := files, contexts := st.contexts + won, shadowed := st.shadowed + shadowed)]
  }

  lemma WriteSource(statuses: seq<Status>, cs: seq<Candidate>, k: nat, i: nat)
    requires k < |cs| && Attributed(statuses, cs, k) && i < |statuses|
    ensures var r := Write(statuses, cs[k], Won(cs, k), Shadowed(cs, k));
            r[i].contexts == SourceWon(cs, i, k + 1, true) && r[i].shadowed == SourceWon(cs, i, k + 1, false)
            && |r[i].files| == |statuses[i].files|
  {
  }

  lemma WriteFile(statuses: seq<Status>, cs: seq<Candidate>, k: nat, j: nat)
    requires j <= k < |cs| && Attributed(statuses, cs, k) && cs[j].file.Some?
    ensures var f := Write(statuses, cs[k], Won(cs, k), Shadowed(cs, k))[cs[j].source].files[cs[j].file.value];
            f.contexts == Won(cs, j) && f.shadowed == Shadowed(cs, j)
  {
  }

  lemma WriteAttributes(statuses: seq<Status>, cs: seq<Candidate>, k: nat)
    requires k < |cs| && Attributed(statuses, cs, k)
    ensures Attributed(Write(statuses, cs[k], Won(cs, k), Shadowed(cs, k)), cs, k + 1)
  {
    var r := Write(statuses, cs[k], Won(cs, k), Shadowed(cs, k));
    forall i: nat | i < |r|
      ensures r[i].contexts == SourceWon(cs, i, k + 1, true) && r[i].shadowed == SourceWon(cs, i, k + 1, false)
      ensures |r[i].files| == |statuses[i].files|
    {
      WriteSource(statuses, cs, k, i);
    }
    assert Placed(r, cs);
    forall j: nat | j < k + 1 && cs[j].file.Some?
      ensures r[cs[j].source].files[cs[j].file.value].contexts == Won(cs, j)
      ensures r[cs[j].source].files[cs[j].file.value].shadowed == Shadowed(cs, j)
    {
      WriteFile(statuses, cs, k, j);
    }
  }

  lemma SeenNext(cs: seq<Candidate>, k: nat)
    requires k < |cs|
    ensures Seen(cs[..k + 1]) == WalkNames(cs[k].contexts, Seen(cs[..k])).seen
  {
    assert cs[..k + 1][..k] == cs[..k];
  }

  method WalkOne(c: Candidate, seen: set<string>) returns (s: Split)
    ensures s == WalkNames(c.contexts, seen)
  {
    s := Split([], [], seen);
    var i := 0;
    while i < |c.contexts|
      invariant 0 <= i <= |c.contexts| && s == WalkNames(c.contexts[..i], seen)
    {
      assert c.contexts[..i + 1][..i] == c.contexts[..i];
      var name := c.contexts[i];
      if name in s.seen {
        s := s.(shadowed := s.shadowed + [name]);
      } else {
        s := s.(won := s.won + [name], seen := s.seen + {name});
      }
      i := i + 1;
    }
    assert c.contexts[..i] == c.contexts;
  }

  /** The paths of the first `upto` candidates. */
  ghost predicate Paths(cs: seq<Candidate>, upto: int, files: seq<string>) {
    0 <= upto <= |cs| && |files| == upto && forall k | 0 <= k < upto :: files[k] == cs[k].path
  }

  /** The first-wins walk over the candidates. */
  method Attribute(listing: seq<Status>, cs: seq<Candidate>) returns (statuses: seq<Status>, files: seq<string>)
    requires Placed(listing, cs) && forall i | 0 <= i < |listing| :: listing[i].contexts == [] && listing[i].shadowed == []
    ensures Attributed(statuses, cs, |cs|) && |statuses| == |listing|
    ensures Paths(cs, |cs|, files)
  {
    statuses, files := listing, [];
    var seen := {};
    var k := 0;
    while k < |cs|
      invariant 0 <= k <= |cs| && seen == Seen(cs[..k]) && |statuses| == |listing| && Attributed(statuses, cs, k)
      invariant Paths(cs, k, files)
    {
      SeenNext(cs, k);
      var s := WalkOne(cs[k], seen);
      WriteAttributes(statuses, cs, k);
      statuses := Write(statuses, cs[k], s.won, s.shadowed);
      seen := s.seen;
      files := files + [cs[k].path];
      k := k + 1;
    }
  }

  // ----- The whole expansion -----

  /** Candidates sit at different, growing positions of the listing. */
  ghost predicate Growing(files: seq<FileStatus>, cs: seq<Candidate>, i: nat) {
    && (forall k | 0 <= k < |cs| :: cs[k].source == i && cs[k].file.Some? && cs[k].file.value < |files|)
    && (forall j, k | 0 <= j < k < |cs| :: cs[j].file.value < cs[k].file.value)
  }

  lemma GrowingMore(files: seq<FileStatus>, cs: seq<Candidate>, i: nat, f: FileStatus, c: Candidate)
    requires Growing(files, cs, i) && c.source == i && c.file == Some(|files|)
    ensures Growing(files + [f], cs, i) && Growing(files + [f], cs + [c], i)
  {
  }

  lemma {:induction false} EntriesPlaced(directory: string, entries: seq<Entry>, i: nat)
    ensures var x := ExpandEntries(directory, entries, i); Growing(x.files, x.candidates, i)
  {
    if entries != [] {
      EntriesPlaced(directory, entries[..|entries| - 1], i);
      var x, e := ExpandEntries(directory, entries[..|entries| - 1], i), entries[|entries| - 1];
      var listed := ListedAs(directory, e);
      if listed.Some? {
        var contexts := if e.content.Parses? then e.content.contexts else [];
        GrowingMore(x.files, x.candidates, i, listed.value, Candidate(Join(directory, e.name), contexts, i, Some(|x.files|)));
      }
    }
  }

  /** The candidates of one source, placed in its own listing. */
  ghost predicate PlacedIn(st: Status, cs: seq<Candidate>, i: nat) {
    && (forall k | 0 <= k < |cs| :: cs[k].source == i && (cs[k].file.Some? ==> cs[k].file.value < |st.files|))
    && (forall j, k | 0 <= j < k < |cs| :: cs[k].file.Some? ==> cs[j].file != cs[k].file)
  }

  lemma SourcePlaced(s: Source, i: nat)
    ensures PlacedIn(StatusOf(s, i), CandidatesOf(s, i), i)
  {
    if s.disk.Directory? { EntriesPlaced(s.path, s.disk.entries, i); }
  }

  lemma PlacedMore(statuses: seq<Status>, cs: seq<Candidate>, st: Status, more: seq<Candidate>)
    requires Placed(statuses, cs) && PlacedIn(st, more, |statuses|)
    ensures Placed(statuses + [st], cs + more)
  {
  }

  lemma {:induction false} AllPlaced(sources: seq<Source>, statuses: seq<Status>)
    requires |statuses| == |sources| && forall i | 0 <= i < |sources| :: statuses[i] == StatusOf(sources[i], i)
    ensures Placed(statuses, CandidatesUpTo(sources))
  {
    if sources != [] {
      var n := |sources| - 1;
      AllPlaced(sources[..n], statuses[..n]);
      SourcePlaced(sources[n], n);
      PlacedMore(statuses[..n], CandidatesUpTo(sources[..n]), statuses[n], CandidatesOf(sources[n], n));
      assert statuses == statuses[..n] + [statuses[n]];
    }
  }

  /** No file on disk defines a context twice. */
  ghost predicate ProperContent(c: Content) {
    c.Parses? ==> NoneTwice(c.contexts)
  }

  ghost predicate ProperSource(s: Source) {
    match s.disk
    case File(content, _) => ProperContent(content)
    case Directory(entries) => forall i | 0 <= i < |entries| :: ProperContent(entries[i].content)
    case _ => true
  }

  lemma {:induction false} EntriesProper(directory: string, entries: seq<Entry>, i: nat)
    requires forall k | 0 <= k < |entries| :: ProperContent(entries[k].content)
    ensures Proper(ExpandEntries(directory, entries, i).candidates)
  {
    if entries != [] {
      EntriesProper(directory, entries[..|entries| - 1], i);
      assert ProperContent(entries[|entries| - 1].content);
    }
  }

  lemma {:induction false} CandidatesProper(sources: seq<Source>)
    requires forall i | 0 <= i < |sources| :: ProperSource(sources[i])
    ensures Proper(CandidatesUpTo(sources))
  {
    if sources != [] {
      var n := |sources| - 1;
      CandidatesProper(sources[..n]);
      assert ProperSource(sources[n]);
      if sources[n].disk.Directory? { EntriesProper(sources[n].path, sources[n].disk.entries, n); }
    }
  }

  // ----- Precedence, stated on the sources and what is on disk -----

  /** A file on disk: the source, and for a directory the entry. */
  datatype Place = Place(source: nat, entry: nat)

  predicate Earlier(a: Place, b: Place) {
    a.source < b.source || (a.source == b.source && a.entry < b.entry)
  }

  /** There is a usable file here: a file source that parses, or a directory entry that
      parses and is not hidden. */
  predicate UsableAt(sources: seq<Source>, at: Place) {
    at.source < |sources| &&
    match sources[at.source].disk
    case File(content, _) => at.entry == 0 && content.Parses?
    case Directory(entries) =>
      at.entry < |entries| && entries[at.entry].content.Parses? && !("." <= entries[at.entry].name)
    case _ => false
  }

  function PathAt(sources: seq<Source>, at: Place): string
    requires UsableAt(sources, at)
  {
    var s := sources[at.source];
    if s.disk.Directory? then s.path + "/" + s.disk.entries[at.entry].name else s.path
  }

  function ContextsAt(sources: seq<Source>, at: Place): seq<string>
    requires UsableAt(sources, at)
  {
    var s := sources[at.source];
    if s.disk.Directory? then s.disk.entries[at.entry].content.contexts else s.disk.content.contexts
  }

  /** The candidate is the file here. */
  ghost predicate IsFile(sources: seq<Source>, c: Candidate, at: Place) {
    UsableAt(sources, at) && c.source == at.source && c.path == PathAt(sources, at) && c.contexts == ContextsAt(sources, at)
  }

  /** These candidates are the usable files, each once: sources in their order, and a
      directory's entries in theirs. */
  ghost predicate InPrecedence(sources: seq<Source>, cs: seq<Candidate>, places: seq<Place>) {
    && |places| == |cs| && (forall k | 0 <= k < |cs| :: IsFile(sources, cs[k], places[k]))
    && (forall j, k | 0 <= j < k < |places| :: Earlier(places[j], places[k]))
    && (forall at :: UsableAt(sources, at) ==> at in places)
  }

  /** The usable entries of one directory, in order. */
  lemma {:induction false} EntriesInOrder(directory: string, entries: seq<Entry>, i: nat) returns (at: seq<nat>)
    ensures var cs := ExpandEntries(directory, entries, i).candidates;
            && |at| == |cs| && (forall k | 0 <= k < |at| :: at[k] < |entries| && IsEntry(directory, entries[at[k]], i, cs[k]))
    ensures forall j, k | 0 <= j < k < |at| :: at[j] < at[k]
    ensures forall n | 0 <= n < |entries| && entries[n].content.Parses? && !("." <= entries[n].name) :: n in at
  {
    if entries == [] {
      at := [];
    } else {
      var n := |entries| - 1;
      at := EntriesInOrder(directory, entries[..n], i);
      assert forall k | 0 <= k < n :: entries[..n][k] == entries[k];
      assert IsHidden(entries[n].name) <==> "." <= entries[n].name;
      if entries[n].content.Parses? && !IsHidden(entries[n].name) { at := at + [n]; }
    }
  }

  ghost predicate IsEntry(directory: string, e: Entry, i: nat, c: Candidate) {
    e.content.Parses? && !("." <= e.name) && c.path == directory + "/" + e.name && c.contexts == e.content.contexts && c.source == i
  }

  /** These candidates are the usable files of one source, in order. */
  ghost predicate InSourceOrder(sources: seq<Source>, i: nat, cs: seq<Candidate>, places: seq<Place>) {
    && |places| == |cs| && (forall k | 0 <= k < |cs| :: places[k].source == i && IsFile(sources, cs[k], places[k]))
    && (forall j, k | 0 <= j < k < |places| :: Earlier(places[j], places[k]))
    && (forall at :: UsableAt(sources, at) && at.source == i ==> at in places)
  }

  lemma EntryIsFile(sources: seq<Source>, i: nat, n: nat, c: Candidate)
    requires i < |sources| && sources[i].disk.Directory? && n < |sources[i].disk.entries|
    requires IsEntry(sources[i].path, sources[i].disk.entries[n], i, c)
    ensures IsFile(sources, c, Place(i, n))
  {
  }

  /** The places of these entries of one source. */
  function PlacesOf(i: nat, at: seq<nat>): (r: seq<Place>)
    ensures |r| == |at| && forall k | 0 <= k < |at| :: r[k] == Place(i, at[k])
  {
    seq(|at|, k requires 0 <= k < |at| => Place(i, at[k]))
  }

  lemma AllPlacesOf(i: nat, at: seq<nat>, p: Place)
    requires p.source == i && p.entry in at
    ensures p in PlacesOf(i, at)
  {
    var k :| 0 <= k < |at| && at[k] == p.entry;
    assert PlacesOf(i, at)[k] == p;
  }

  lemma DirectoryInOrder(sources: seq<Source>, i: nat) returns (places: seq<Place>)
    requires i < |sources| && sources[i].disk.Directory?
    ensures InSourceOrder(sources, i, ExpandEntries(sources[i].path, sources[i].disk.entries, i).candidates, places)
  {
    var cs := ExpandEntries(sources[i].path, sources[i].disk.entries, i).candidates;
    var at := EntriesInOrder(sources[i].path, sources[i].disk.entries, i);
    places := PlacesOf(i, at);
    forall k | 0 <= k < |cs| ensures IsFile(sources, cs[k], places[k]) { EntryIsFile(sources, i, at[k], cs[k]); }
    forall p | UsableAt(sources, p) && p.source == i ensures p in places { AllPlacesOf(i, at, p); }
  }

  lemma SourceInOrder(sources: seq<Source>, i: nat) returns (places: seq<Place>)
    requires i < |sources|
    ensures InSourceOrder(sources, i, CandidatesOf(sources[i], i), places)
  {
    var s := sources[i];
    if s.disk.Directory? {
      places := DirectoryInOrder(sources, i);
    } else if s.disk.File? && s.disk.content.Parses? {
      places := [Place(i, 0)];
      assert places[0] == Place(i, 0);
    } else {
      places := [];
    }
  }

  lemma UsableInit(sources: seq<Source>, n: nat, at: Place)
    requires n <= |sources| && at.source < n
    ensures UsableAt(sources[..n], at) <==> UsableAt(sources, at)
    ensures UsableAt(sources, at) ==> PathAt(sources[..n], at) == PathAt(sources, at) && ContextsAt(sources[..n], at) == ContextsAt(sources, at)
  {
    assert sources[..n][at.source] == sources[at.source];
  }

  lemma MorePlaces(sources: seq<Source>, n: nat, cs: seq<Candidate>, places: seq<Place>, more: seq<Candidate>, there: seq<Place>)
    requires |sources| == n + 1 && InPrecedence(sources[..n], cs, places)
    requires InSourceOrder(sources, n, more, there)
    ensures InPrecedence(sources, cs + more, places + there)
  {
    forall k | 0 <= k < |cs + more| ensures IsFile(sources, (cs + more)[k], (places + there)[k]) {
      if k < |cs| {
        assert IsFile(sources[..n], cs[k], places[k]);
        UsableInit(sources, n, places[k]);
      }
    }
    forall at | UsableAt(sources, at) ensures at in places + there {
      if at.source < n { UsableInit(sources, n, at); }
    }
    forall k | 0 <= k < |places| ensures places[k].source < n { assert IsFile(sources[..n], cs[k], places[k]); }
  }

  /** The candidates are the usable files in precedence order. */
  lemma {:induction false} CandidatesInPrecedence(sources: seq<Source>) returns (places: seq<Place>)
    ensures InPrecedence(sources, CandidatesUpTo(sources), places)
  {
    if sources == [] {
      places := [];
    } else {
      var n := |sources| - 1;
      var before := CandidatesInPrecedence(sources[..n]);
      var there := SourceInOrder(sources, n);
      MorePlaces(sources, n, CandidatesUpTo(sources[..n]), before, CandidatesOf(sources[n], n), there);
      places := before + there;
    }
  }

  /** The candidates are the usable files in precedence order. */
  ghost predicate Precede(sources: seq<Source>, cs: seq<Candidate>) {
    exists places :: InPrecedence(sources, cs, places)
  }

  lemma CandidatesPrecede(sources: seq<Source>)
    ensures Precede(sources, CandidatesUpTo(sources))
  {
    var places := CandidatesInPrecedence(sources);
  }

  /** The status of each of the first `n` sources. */
  ghost predicate Statused(sources: seq<Source>, n: int, statuses: seq<Status>) {
    0 <= n <= |sources| && |statuses| == n && forall k | 0 <= k < n :: statuses[k] == StatusOf(sources[k], k)
  }

  lemma StatusedNext(sources: seq<Source>, n: nat, statuses: seq<Status>)
    requires n < |sources| && Statused(sources, n, statuses)
    ensures Statused(sources, n + 1, statuses + [StatusOf(sources[n], n)])
  {
  }

  lemma CandidatesNext(sources: seq<Source>, i: nat)
    requires i < |sources|
    ensures CandidatesUpTo(sources[..i + 1]) == CandidatesUpTo(sources[..i]) + CandidatesOf(sources[i], i)
  {
    assert sources[..i + 1][..i] == sources[..i];
  }

  /** The file here is the first usable one that defines the name. */
  ghost predicate DefinesFirst(sources: seq<Source>, at: Place, name: string) {
    && UsableAt(sources, at) && name in ContextsAt(sources, at)
    && forall other :: UsableAt(sources, other) && Earlier(other, at) ==> name !in ContextsAt(sources, other)
  }

  /** The candidate `k` has won the name, and every other one that defines it has it shadowed. */
  ghost predicate WonOnlyBy(cs: seq<Candidate>, k: nat, name: string) {
    && (forall j | 0 <= j < |cs| :: name in Won(cs, j) <==> j == k)
    && (forall j | 0 <= j < |cs| :: name in Shadowed(cs, j) <==> j != k && name in cs[j].contexts)
  }

  /** A context name comes from the first source that defines it, and within a directory
      from its first entry that does: the merge keeps it from that file, that file's
      candidate has won it, and every other file that defines it has it shadowed. */
  lemma FirstSourceWins(sources: seq<Source>, at: Place, name: string)
    requires (forall i | 0 <= i < |sources| :: ProperSource(sources[i])) && DefinesFirst(sources, at, name)
    ensures var cs := CandidatesUpTo(sources);
            && name in Merge(cs) && Merge(cs)[name] == PathAt(sources, at)
            && exists k :: 0 <= k < |cs| && IsFile(sources, cs[k], at) && WonOnlyBy(cs, k, name)
  {
    var cs := CandidatesUpTo(sources);
    var places := CandidatesInPrecedence(sources);
    var k :| 0 <= k < |places| && places[k] == at;
    assert IsFile(sources, cs[k], places[k]);
    forall j: nat | j < k ensures !Defines(cs, j, name) {
      assert IsFile(sources, cs[j], places[j]) && Earlier(places[j], places[k]);
    }
    ExpansionAgrees(sources, k, name);
    forall j | 0 <= j < |cs| ensures name in Shadowed(cs, j) <==> j != k && name in cs[j].contexts {
      assert Defines(cs, j, name) <==> name in cs[j].contexts;
    }
    assert IsFile(sources, cs[k], at) && WonOnlyBy(cs, k, name);
  }

  /** Expands the registered sources: the status of each, with what every file contributes
      and has shadowed, and the files to merge in precedence order. */
  method ExpandSources(sources: seq<Source>) returns (statuses: seq<Status>, files: seq<string>)
    ensures var cs := CandidatesUpTo(sources);
            && |statuses| == |sources| && Attributed(statuses, cs, |cs|)
            && |files| == |cs| && forall k | 0 <= k < |cs| :: files[k] == cs[k].path
    ensures exists places :: FilesInPrecedence(sources, files, places)
  {
    var listing, cs := Classify(sources);
    AllPlaced(sources, listing);
    statuses, files := Attribute(listing, cs);
    ghost var places := CandidatesInPrecedence(sources);
    PathsInPrecedence(sources, cs, files, places);
  }

  /** The files are the usable ones, sources in their order and entries in theirs. */
  ghost predicate FilesInPrecedence(sources: seq<Source>, files: seq<string>, places: seq<Place>) {
    && |places| == |files| && (forall k | 0 <= k < |files| :: UsableAt(sources, places[k]) && files[k] == PathAt(sources, places[k]))
    && (forall j, k | 0 <= j < k < |places| :: Earlier(places[j], places[k]))
    && (forall at :: UsableAt(sources, at) ==> at in places)
  }

  lemma PathsInPrecedence(sources: seq<Source>, cs: seq<Candidate>, files: seq<string>, places: seq<Place>)
    requires InPrecedence(sources, cs, places) && |files| == |cs| && forall k | 0 <= k < |cs| :: files[k] == cs[k].path
    ensures FilesInPrecedence(sources, files, places)
  {
    forall k | 0 <= k < |files| ensures UsableAt(sources, places[k]) && files[k] == PathAt(sources, places[k]) {
      assert IsFile(sources, cs[k], places[k]);
    }
  }

  /** The expansion's attribution is that of the merge it feeds, name by name. */
  lemma ExpansionAgrees(sources: seq<Source>, k: nat, name: string)
    requires (forall i | 0 <= i < |sources| :: ProperSource(sources[i])) && FirstDefiner(CandidatesUpTo(sources), k, name)
    ensures var cs := CandidatesUpTo(sources);
            && name in Merge(cs) && Merge(cs)[name] == cs[k].path
            && (forall j | 0 <= j < |cs| :: name in Won(cs, j) <==> j == k)
            && (forall j | 0 <= j < |cs| :: name in Shadowed(cs, j) <==> j != k && Defines(cs, j, name))
  {
    CandidatesProper(sources);
    AttributionAgrees(CandidatesUpTo(sources), k, name);
  }

  // ----- What the listing says -----

  /** An entry shows up in the listing: files only, and hidden ones whatever they are. */
  predicate Shows(e: Entry) {
    !e.content.SubDirectory? && ("." <= e.name || !e.content.Irregular?)
  }

  /** What is said of an entry. */
  ghost predicate SaysOf(directory: string, e: Entry, f: FileStatus) {
    && f.path == directory + "/" + e.name
    && (f.state == Hidden <==> "." <= e.name)
    && (f.state == Usable <==> !("." <= e.name) && e.content.Parses?)
    && (f.state == Oversized <==> !("." <= e.name) && e.content.TooLarge?)
  }

  /** The listing of a directory has one line for each entry that shows, in order. */
  lemma {:induction false} ListingInOrder(directory: string, entries: seq<Entry>, i: nat) returns (at: seq<nat>)
    ensures var files := ExpandEntries(directory, entries, i).files;
            |at| == |files| && forall k | 0 <= k < |at| :: at[k] < |entries| && Shows(entries[at[k]]) && SaysOf(directory, entries[at[k]], files[k])
    ensures forall j, k | 0 <= j < k < |at| :: at[j] < at[k]
    ensures forall n | 0 <= n < |entries| && Shows(entries[n]) :: n in at
  {
    if entries == [] {
      at := [];
    } else {
      var n := |entries| - 1;
      at := ListingInOrder(directory, entries[..n], i);
      assert forall k | 0 <= k < n :: entries[..n][k] == entries[k];
      assert IsHidden(entries[n].name) <==> "." <= entries[n].name;
      if Shows(entries[n]) { at := at + [n]; }
    }
  }

  /** What is said of a source: missing when it cannot be looked at, and a directory is in
      order exactly when it has a usable file. */
  lemma StatusSays(sources: seq<Source>, i: nat)
    requires i < |sources|
    ensures var s := sources[i]; var st := StatusOf(s, i);
            && st.path == s.path && (st.directory <==> s.disk.Directory? || s.disk.UnlistableDirectory?)
            && (st.state == SourceMissing <==> s.disk.Missing? || s.disk.UnlistableDirectory?)
            && (st.state == SourceUnparseable <==> s.disk.File? && !s.disk.content.Parses?)
            && (s.disk.Directory? ==> (st.state == SourceOk <==> exists n :: UsableAt(sources, Place(i, n))))
            && (s.disk.File? ==> (st.state == SourceOk <==> UsableAt(sources, Place(i, 0)) && !s.disk.bare))
  {
    var s := sources[i];
    if s.disk.Directory? {
      var at := EntriesInOrder(s.path, s.disk.entries, i);
      if at != [] { assert UsableAt(sources, Place(i, at[0])); }
    }
  }

  /** Names are won and shadowed in the order the file lists them. */
  lemma {:induction false} WalkKeepsOrder(names: seq<string>, seen: set<string>) returns (won: seq<nat>, shadowed: seq<nat>)
    ensures var s := WalkNames(names, seen);
            && PickedInOrder(names, s.won, won) && PickedInOrder(names, s.shadowed, shadowed)
  {
    if names == [] {
      won, shadowed := [], [];
    } else {
      var n := |names| - 1;
      won, shadowed := WalkKeepsOrder(names[..n], seen);
      var s := WalkNames(names[..n], seen);
      PickedMore(names, n, s.won, won);
      PickedMore(names, n, s.shadowed, shadowed);
      if names[n] in s.seen { shadowed := shadowed + [n]; } else { won := won + [n]; }
    }
  }

  ghost predicate PickedInOrder(names: seq<string>, picked: seq<string>, at: seq<nat>) {
    && |at| == |picked| && (forall k | 0 <= k < |at| :: at[k] < |names| && picked[k] == names[at[k]])
    && forall j, k | 0 <= j < k < |at| :: at[j] < at[k]
  }

  lemma PickedMore(names: seq<string>, n: nat, picked: seq<string>, at: seq<nat>)
    requires |names| == n + 1 && PickedInOrder(names[..n], picked, at)
    ensures PickedInOrder(names, picked, at) && PickedInOrder(names, picked + [names[n]], at + [n])
  {
    assert forall k | 0 <= k < n :: names[..n][k] == names[k];
  }

  /** What a source has won (or has had shadowed) is what its files have, and a later file
      adds its own after the earlier ones'. */
  lemma {:induction false} SourceWonIs(cs: seq<Candidate>, i: nat, upto: nat, won: bool)
    requires upto <= |cs|
    ensures forall name :: name in SourceWon(cs, i, upto, won) <==>
              exists k :: 0 <= k < upto && cs[k].source == i && name in (if won then Won(cs, k) else Shadowed(cs, k))
    ensures upto > 0 ==> SourceWon(cs, i, upto - 1, won) <= SourceWon(cs, i, upto, won)
  {
    if upto > 0 {
      SourceWonIs(cs, i, upto - 1, won);
      forall name ensures name in SourceWon(cs, i, upto, won) <==>
        exists k :: 0 <= k < upto && cs[k].source == i && name in (if won then Won(cs, k) else Shadowed(cs, k))
      {
        if name in SourceWon(cs, i, upto - 1, won) {
          var k :| 0 <= k < upto - 1 && cs[k].source == i && name in (if won then Won(cs, k) else Shadowed(cs, k));
        }
        if k :| 0 <= k < upto && cs[k].source == i && name in (if won then Won(cs, k) else Shadowed(cs, k)) {
          assert k < upto - 1 || k == upto - 1;
        }
      }
    }
  }
}
