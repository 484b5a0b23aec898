/** Splitting and joining text on a separator, as strings.Split does. */
module Text {

  predicate At(s: string, sep: string, i: nat) {
    i + |sep| <= |s| && s[i..i + |sep|] == sep
  }

  lemma AtShift(s: string, sep: string, j: nat)
    requires 0 < j && s != ""
    ensures At(s, sep, j) == At(s[1..], sep, j - 1)
  {
    if j + |sep| <= |s| { assert s[1..][j - 1..j - 1 + |sep|] == s[j..j + |sep|]; }
  }

  /** The first occurrence of `sep` in `s`, or -1. */
  function IndexOf(s: string, sep: string): (r: int)
    requires sep != ""
    ensures -1 <= r < |s|
    ensures r >= 0 ==> At(s, sep, r) && forall j: nat :: j < r ==> !At(s, sep, j)
    ensures r < 0 ==> forall j: nat :: !At(s, sep, j)
  {
    if |s| < |sep| then -1
    else if At(s, sep, 0) then 0
    else
      var rest := IndexOf(s[1..], sep);
      assert forall j: nat | 0 < j :: At(s, sep, j) == At(s[1..], sep, j - 1) by {
        forall j: nat | 0 < j ensures At(s, sep, j) == At(s[1..], sep, j - 1) { AtShift(s, sep, j); }
      }
      if rest < 0 then -1 else rest + 1
  }

  ghost predicate Holds(s: string, sep: string) {
    exists i: nat :: At(s, sep, i)
  }

  function Split(s: string, sep: string): (parts: seq<string>)
    requires sep != ""
    ensures |parts| >= 1
    decreases |s|
  {
    var i := IndexOf(s, sep);
    if i < 0 then [s] else [s[..i]] + Split(s[i + |sep|..], sep)
  }

  function Join(parts: seq<string>, sep: string): string
    requires |parts| >= 1
  {
    if |parts| == 1 then parts[0] else parts[0] + sep + Join(parts[1..], sep)
  }

  /** `part` followed by the separator is cut exactly where the separator begins. */
  ghost predicate Clean(part: string, sep: string) {
    !Holds(part, sep) && forall j: nat :: j < |part| ==> !At(part + sep, sep, j)
  }

  lemma CutAtFirst(part: string, sep: string, tail: string)
    requires sep != "" && Clean(part, sep)
    ensures IndexOf(part + sep + tail, sep) == |part|
  {
    var s := part + sep + tail;
    assert s[|part|..|part| + |sep|] == sep;
    assert At(s, sep, |part|);
    forall j: nat | j < |part| ensures !At(s, sep, j) {
      assert s[j..j + |sep|] == (part + sep)[j..j + |sep|];
      assert At(s, sep, j) == At(part + sep, sep, j);
    }
  }

  lemma NoneToCut(part: string, sep: string)
    requires sep != "" && Clean(part, sep)
    ensures Split(part, sep) == [part]
  {
    assert !Holds(part, sep);
  }

  /** Splitting what was joined gives the parts back. */
  lemma {:induction false} SplitOfJoin(parts: seq<string>, sep: string)
    requires sep != "" && |parts| >= 1
    requires forall p :: p in parts ==> Clean(p, sep)
    ensures Split(Join(parts, sep), sep) == parts
  {
    if |parts| > 1 {
      var tail := Join(parts[1..], sep);
      CutAtFirst(parts[0], sep, tail);
      var s := parts[0] + sep + tail;
      assert s[..|parts[0]|] == parts[0] && s[|parts[0]| + |sep|..] == tail;
      SplitOfJoin(parts[1..], sep);
    } else {
      assert parts[0] in parts;
      NoneToCut(parts[0], sep);
      assert [parts[0]] == parts;
    }
  }

  /** Joining what was split gives the text back. */
  lemma {:induction false} JoinOfSplit(s: string, sep: string)
    requires sep != ""
    ensures Join(Split(s, sep), sep) == s
    decreases |s|
  {
    var i := IndexOf(s, sep);
    if i >= 0 {
      JoinOfSplit(s[i + |sep|..], sep);
      var rest := Split(s[i + |sep|..], sep);
      assert ([s[..i]] + rest)[1..] == rest;
      assert s == s[..i] + sep + s[i + |sep|..];
    }
  }

  lemma HeadIsClean(s: string)
    requires IndexOf(s, ", ") >= 0
    ensures Clean(s[..IndexOf(s, ", ")], ", ")
  {
    var i := IndexOf(s, ", ");
    forall j: nat ensures !At(s[..i], ", ", j) {
      AtComma(s[..i], j);
      AtComma(s, j);
    }
    CommaClean(s[..i]);
  }

  lemma SplitOnce(head: string, tail: string)
    requires Clean(head, ", ")
    ensures Split(head + ", " + tail, ", ") == [head] + Split(tail, ", ")
  {
    CutAtFirst(head, ", ", tail);
    var t := head + ", " + tail;
    assert t[..|head|] == head && t[|head| + 2..] == tail;
  }

  lemma CutAt(s: string) returns (head: string, rest: string)
    requires IndexOf(s, ", ") >= 0
    ensures s == head + ", " + rest && Clean(head, ", ") && |rest| < |s|
  {
    var i := IndexOf(s, ", ");
    HeadIsClean(s);
    head, rest := s[..i], s[i + 2..];
    assert s[i..i + 2] == ", ";
  }

  lemma SplitAppendStep(head: string, rest: string, add: string)
    requires Clean(head, ", ")
    requires Split(rest + ", " + add, ", ") == Split(rest, ", ") + [add]
    ensures Split(head + ", " + rest + ", " + add, ", ") == Split(head + ", " + rest, ", ") + [add]
  {
    var tail := rest + ", " + add;
    SplitOnce(head, rest);
    SplitOnce(head, tail);
    Regroup(head, ", ", rest, ", ", add);
    assert [head] + (Split(rest, ", ") + [add]) == [head] + Split(rest, ", ") + [add];
  }

  lemma Regroup(a: string, b: string, c: string, d: string, e: string)
    ensures a + b + c + d + e == a + b + (c + d + e)
  {
  }

  /** Appending one more part appends one part to the split. */
  lemma {:induction false} SplitAppend(s: string, add: string)
    requires !Holds(add, ", ")
    ensures Split(s + ", " + add, ", ") == Split(s, ", ") + [add]
    decreases |s|
  {
    if IndexOf(s, ", ") < 0 {
      CommaClean(s);
      SplitOnce(s, add);
    } else {
      var head, rest := CutAt(s);
      SplitAppend(rest, add);
      SplitAppendStep(head, rest, add);
    }
  }

  lemma AtComma(s: string, j: nat)
    ensures At(s, ", ", j) <==> j + 1 < |s| && s[j] == ',' && s[j + 1] == ' '
  {
    if j + 1 < |s| { assert s[j..j + 2] == [s[j], s[j + 1]]; }
  }

  lemma AtChar(s: string, ch: char, j: nat)
    ensures At(s, [ch], j) <==> j < |s| && s[j] == ch
  {
    if j < |s| { assert s[j..j + 1] == [s[j]]; }
  }

  /** With the separator ", " a part is clean as soon as it does not hold it. */
  lemma CommaClean(part: string)
    requires !Holds(part, ", ")
    ensures Clean(part, ", ")
  {
    forall j: nat | j < |part| ensures !At(part + ", ", ", ", j) {
      AtComma(part + ", ", j);
      AtComma(part, j);
    }
  }

  /** With a one-character separator a part is clean as soon as it lacks that character. */
  lemma CharClean(part: string, ch: char)
    requires ch !in part
    ensures Clean(part, [ch])
  {
    forall j: nat ensures !At(part, [ch], j) { AtChar(part, ch, j); }
    forall j: nat | j < |part| ensures !At(part + [ch], [ch], j) { AtChar(part + [ch], ch, j); }
  }
}
