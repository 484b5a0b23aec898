/** The label of an edge: the mechanisms that established it, each named once. */
module GraphLabels {
  import opened GraphModel
  import Text

  function Parts(mechanism: string): seq<string> {
    if mechanism == "" then [] else Text.Split(mechanism, ", ")
  }

  /** Merging adds a mechanism at the end unless it is empty or named already. */
  lemma MergeAppends(existing: string, add: string)
    requires !Text.Holds(add, ", ")
    ensures Parts(MergeLabel(existing, add)) ==
            if add == "" || add in Parts(existing) then Parts(existing) else Parts(existing) + [add]
  {
    if add != "" {
      if existing == "" {
        assert Text.IndexOf(add, ", ") < 0;
      } else if add !in Text.Split(existing, ", ") {
        Text.SplitAppend(existing, add);
      }
    }
  }

  /** The label after an edge has been established by these mechanisms in turn. */
  function MergeAll(mechanisms: seq<string>): string {
    if mechanisms == [] then "" else MergeLabel(MergeAll(mechanisms[..|mechanisms| - 1]), mechanisms[|mechanisms| - 1])
  }

  /** The different non-empty mechanisms, by first appearance. */
  function Firsts(mechanisms: seq<string>): (r: seq<string>)
    ensures forall m :: m in r <==> m in mechanisms && m != ""
    ensures forall i, j | 0 <= i < j < |r| :: r[i] != r[j]
  {
    if mechanisms == [] then []
    else
      var before, last := Firsts(mechanisms[..|mechanisms| - 1]), mechanisms[|mechanisms| - 1];
      if last == "" || last in before then before else before + [last]
  }

  /** However often an edge is met, its label reads back as the mechanisms that
      established it, each once, in the order they were first met. */
  lemma {:induction false} LabelNamesEachOnce(mechanisms: seq<string>)
    requires forall i | 0 <= i < |mechanisms| :: !Text.Holds(mechanisms[i], ", ")
    ensures Parts(MergeAll(mechanisms)) == Firsts(mechanisms)
  {
    if mechanisms != [] {
      LabelNamesEachOnce(mechanisms[..|mechanisms| - 1]);
      MergeAppends(MergeAll(mechanisms[..|mechanisms| - 1]), mechanisms[|mechanisms| - 1]);
    }
  }
}
