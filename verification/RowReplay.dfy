/** The client's row list, patched in place by watch events. */
module RowReplay {
  import opened Optional
  import Text

  datatype Row<V> = Row(namespace: Option<string>, name: string, value: V)

  datatype Ref = Ref(namespace: Option<string>, name: string)

  datatype Event<V> = Put(row: Row<V>) | Delete(ref: Option<Ref>)

  function RowKey(namespace: Option<string>, name: string): string {
    (if namespace.Some? then namespace.value else "") + "/" + name
  }

  function KeyOf<V>(row: Row<V>): string {
    RowKey(row.namespace, row.name)
  }

  /** The first row filed under `key`, or -1. */
  function FindIndex<V>(rows: seq<Row<V>>, key: string): (r: int)
    ensures -1 <= r < |rows|
    ensures r >= 0 ==> KeyOf(rows[r]) == key
    ensures r < 0 ==> forall i | 0 <= i < |rows| :: KeyOf(rows[i]) != key
  {
    if rows == [] then -1
    else
      var r := FindIndex(rows[..|rows| - 1], key);
      if r >= 0 then r else if KeyOf(rows[|rows| - 1]) == key then |rows| - 1 else -1
  }

  /** Replaces the row of the same key where it stands, or appends. */
  function Upsert<V>(rows: seq<Row<V>>, row: Row<V>): seq<Row<V>> {
    var i := FindIndex(rows, KeyOf(row));
    if i < 0 then rows + [row] else rows[i := row]
  }

  function Remove<V>(rows: seq<Row<V>>, key: string): seq<Row<V>> {
    if rows == [] then []
    else Remove(rows[..|rows| - 1], key) + if KeyOf(rows[|rows| - 1]) == key then [] else [rows[|rows| - 1]]
  }

  function RemoveByRef<V>(rows: seq<Row<V>>, ref: Option<Ref>): seq<Row<V>> {
    if ref.None? then rows else Remove(rows, RowKey(ref.value.namespace, ref.value.name))
  }

  function Apply<V>(rows: seq<Row<V>>, e: Event<V>): seq<Row<V>> {
    match e
    case Put(row) => Upsert(rows, row)
    case Delete(ref) => RemoveByRef(rows, ref)
  }

  function ApplyAll<V>(rows: seq<Row<V>>, log: seq<Event<V>>): seq<Row<V>> {
    if log == [] then rows else Apply(ApplyAll(rows, log[..|log| - 1]), log[|log| - 1])
  }

  // ----- What a list holds -----

  type Table<V> = map<string, Row<V>>

  ghost predicate Unique<V>(rows: seq<Row<V>>) {
    forall i, j | 0 <= i < j < |rows| :: KeyOf(rows[i]) != KeyOf(rows[j])
  }

  /** The list and the table hold the same rows, whatever their order. */
  ghost predicate Holds<V>(rows: seq<Row<V>>, table: Table<V>) {
    && Unique(rows)
    && (forall row :: row in rows ==> KeyOf(row) in table && table[KeyOf(row)] == row)
    && (forall key :: key in table ==> KeyOf(table[key]) == key && table[key] in rows)
  }

  function Effect<V>(table: Table<V>, e: Event<V>): Table<V> {
    match e
    case Put(row) => table[KeyOf(row) := row]
    case Delete(ref) => if ref.None? then table else table - {RowKey(ref.value.namespace, ref.value.name)}
  }

  /** The table after a whole log. */
  function After<V>(table: Table<V>, log: seq<Event<V>>): Table<V> {
    if log == [] then table else Effect(After(table, log[..|log| - 1]), log[|log| - 1])
  }

  lemma UpsertKeeps<V>(rows: seq<Row<V>>, row: Row<V>)
    requires Unique(rows)
    ensures Unique(Upsert(rows, row))
    ensures forall r :: r in Upsert(rows, row) <==> r == row || (r in rows && KeyOf(r) != KeyOf(row))
  {
    var i, out := FindIndex(rows, KeyOf(row)), Upsert(rows, row);
    if i < 0 {
      assert out[|rows|] == row;
    } else {
      assert out[i] == row;
      forall r | r in rows && KeyOf(r) != KeyOf(row) ensures r in out {
        var k :| 0 <= k < |rows| && rows[k] == r;
        assert out[k] == r;
      }
    }
  }

  /** A row of a known key takes the old one's place and no other row moves; a new one goes last. */
  lemma UpsertKeepsPlace<V>(rows: seq<Row<V>>, row: Row<V>)
    requires Unique(rows)
    ensures var out := Upsert(rows, row);
            if exists i :: 0 <= i < |rows| && KeyOf(rows[i]) == KeyOf(row) then
              |out| == |rows| && forall i | 0 <= i < |rows| :: out[i] == if KeyOf(rows[i]) == KeyOf(row) then row else rows[i]
            else
              out == rows + [row]
  {
  }

  lemma RemoveOfOne<V>(row: Row<V>, key: string)
    ensures Remove([row], key) == if KeyOf(row) == key then [] else [row]
  {
    assert [row][..0] == [];
  }

  /** Removing a key leaves the other rows in their order. */
  lemma {:induction false} RemoveKeepsOrder<V>(a: seq<Row<V>>, b: seq<Row<V>>, key: string)
    ensures Remove(a + b, key) == Remove(a, key) + Remove(b, key)
  {
    if b == [] {
      assert a + b == a;
    } else {
      RemoveKeepsOrder(a, b[..|b| - 1], key);
      assert (a + b)[..|a + b| - 1] == a + b[..|b| - 1];
    }
  }

  lemma UpsertHolds<V>(rows: seq<Row<V>>, table: Table<V>, row: Row<V>)
    requires Holds(rows, table)
    ensures Holds(Upsert(rows, row), table[KeyOf(row) := row])
  {
    UpsertKeeps(rows, row);
  }

  lemma {:induction false} RemoveKeeps<V>(rows: seq<Row<V>>, key: string)
    ensures forall i | 0 <= i < |Remove(rows, key)| :: Remove(rows, key)[i] in rows && KeyOf(Remove(rows, key)[i]) != key
    ensures forall i | 0 <= i < |rows| :: KeyOf(rows[i]) != key ==> rows[i] in Remove(rows, key)
  {
    if rows != [] {
      var init := rows[..|rows| - 1];
      RemoveKeeps(init, key);
      forall i | 0 <= i < |init| && KeyOf(rows[i]) != key ensures rows[i] in Remove(rows, key) {
        assert init[i] in Remove(init, key);
      }
    }
  }

  lemma {:induction false} RemoveUnique<V>(rows: seq<Row<V>>, key: string)
    requires Unique(rows)
    ensures Unique(Remove(rows, key))
  {
    if rows != [] {
      var init, last := rows[..|rows| - 1], rows[|rows| - 1];
      var kept := Remove(init, key);
      RemoveKeeps(init, key);
      RemoveUnique(init, key);
      forall i | 0 <= i < |kept| ensures KeyOf(kept[i]) != KeyOf(last) {
        var k :| 0 <= k < |init| && init[k] == kept[i];
        assert rows[k] == init[k];
      }
    }
  }

  lemma RemoveHolds<V>(rows: seq<Row<V>>, table: Table<V>, key: string)
    requires Holds(rows, table)
    ensures Holds(Remove(rows, key), table - {key})
  {
    RemoveKeeps(rows, key);
    RemoveUnique(rows, key);
    forall k | k in table - {key} ensures table[k] in Remove(rows, key) {
      var i :| 0 <= i < |rows| && rows[i] == table[k];
      assert KeyOf(rows[i]) != key;
    }
  }

  /** Keys stay unique and the list follows the table, whatever the events. */
  lemma {:induction false} RowsFollow<V>(rows: seq<Row<V>>, table: Table<V>, log: seq<Event<V>>)
    requires Holds(rows, table)
    ensures Holds(ApplyAll(rows, log), After(table, log))
  {
    if log != [] {
      var init, last := log[..|log| - 1], log[|log| - 1];
      RowsFollow(rows, table, init);
      match last
      case Put(row) => UpsertHolds(ApplyAll(rows, init), After(table, init), row);
      case Delete(ref) =>
        if ref.Some? { RemoveHolds(ApplyAll(rows, init), After(table, init), RowKey(ref.value.namespace, ref.value.name)); }
    }
  }

  // ----- Replaying what is already there -----

  /** What a log decides about one key. */
  datatype Fate<V> = Untouched | Gone | Present(row: Row<V>)

  function FateOf<V>(log: seq<Event<V>>, key: string): Fate<V> {
    if log == [] then Untouched
    else
      var before := FateOf(log[..|log| - 1], key);
      match log[|log| - 1]
      case Put(row) => if KeyOf(row) == key then Present(row) else before
      case Delete(ref) =>
        if ref.Some? && RowKey(ref.value.namespace, ref.value.name) == key then Gone else before
  }

  /** A key ends as the log decides, or as it was where the log never touches it. */
  lemma {:induction false} FateDecides<V>(table: Table<V>, log: seq<Event<V>>, key: string)
    ensures match FateOf(log, key)
            case Untouched => (key in After(table, log) <==> key in table) && (key in table ==> After(table, log)[key] == table[key])
            case Gone => key !in After(table, log)
            case Present(row) => key in After(table, log) && After(table, log)[key] == row
  {
    if log != [] { FateDecides(table, log[..|log| - 1], key); }
  }

  lemma {:induction false} AfterJoin<V>(table: Table<V>, a: seq<Event<V>>, b: seq<Event<V>>)
    ensures After(table, a + b) == After(After(table, a), b)
  {
    if b == [] {
      assert a + b == a;
    } else {
      AfterJoin(table, a, b[..|b| - 1]);
      assert (a + b)[..|a + b| - 1] == a + b[..|b| - 1];
    }
  }

  /** Applying a stretch of the log again changes nothing. */
  lemma ReplayIsIdempotent<V>(table: Table<V>, b: seq<Event<V>>)
    ensures After(After(table, b), b) == After(table, b)
  {
    var once, twice := After(table, b), After(After(table, b), b);
    forall key ensures (key in twice <==> key in once) && (key in once ==> twice[key] == once[key]) {
      FateDecides(table, b, key);
      FateDecides(once, b, key);
    }
  }

  /** Overlapping replay converges: from a snapshot at `k`, any suffix that starts at or
      before `k` ends where the whole log does. */
  lemma OverlappingReplayConverges<V>(start: Table<V>, log: seq<Event<V>>, rows: seq<Row<V>>, j: nat, k: nat)
    requires j <= k <= |log| && Holds(rows, After(start, log[..k]))
    ensures Holds(ApplyAll(rows, log[j..]), After(start, log))
  {
    var a, b, c := log[..j], log[j..k], log[k..];
    var at := After(start, log[..k]);
    RowsFollow(rows, at, log[j..]);
    assert log[..k] == a + b && log[j..] == b + c && log == log[..k] + c;
    AfterJoin(start, a, b);
    ReplayIsIdempotent(After(start, a), b);
    AfterJoin(at, b, c);
    AfterJoin(start, log[..k], c);
  }

  /** Starting after the snapshot loses events: the bound cannot be relaxed. */
  lemma LateReplayDiverges<V>(row: Row<V>)
    ensures var log := [Put(row)]; Holds<V>([], After(map[], log[..0])) && !Holds(ApplyAll<V>([], log[1..]), After(map[], log))
  {
    var log: seq<Event<V>> := [Put(row)];
    assert log[..0] == [] && log[1..] == [];
    assert KeyOf(row) in After(map[], log);
  }

  // ----- Keys -----

  /** Two rows share a key exactly when they name the same object, a missing namespace
      counting as the empty one, provided namespaces hold no slash. */
  lemma KeysTellObjectsApart(ns1: Option<string>, name1: string, ns2: Option<string>, name2: string)
    requires ns1.Some? ==> '/' !in ns1.value
    requires ns2.Some? ==> '/' !in ns2.value
    ensures RowKey(ns1, name1) == RowKey(ns2, name2) <==>
            (if ns1.Some? then ns1.value else "") == (if ns2.Some? then ns2.value else "") && name1 == name2
  {
    var a := if ns1.Some? then ns1.value else "";
    var b := if ns2.Some? then ns2.value else "";
    var x, y := a + "/" + name1, b + "/" + name2;
    if x == y {
      Text.CharClean(a, '/');
      Text.CharClean(b, '/');
      Text.CutAtFirst(a, "/", name1);
      Text.CutAtFirst(b, "/", name2);
      assert x[..|a|] == a && y[..|b|] == b && x[|a| + 1..] == name1 && y[|b| + 1..] == name2;
    }
  }
}
