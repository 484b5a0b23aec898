/** The server's feed and the client's rows together. */
module LiveRows {
  import opened Optional
  import Feed = StreamFeed
  import opened RowReplay

  /** The events at these positions of the log. */
  function Events<V>(log: seq<Event<V>>, at: seq<nat>): seq<Event<V>>
    requires forall i | 0 <= i < |at| :: at[i] < |log|
  {
    seq(|at|, i requires 0 <= i < |at| => log[at[i]])
  }

  lemma StretchEvents<V>(log: seq<Event<V>>, lo: nat)
    requires lo <= |log|
    ensures Events(log, Feed.Stretch(lo, |log|)) == log[lo..]
  {
  }

  ghost predicate CaughtUp<V>(s: Feed.State<Event<V>>) {
    && !Feed.Owed(s) && !s.pc.Closed?
    && forall i | 0 <= i < |s.taken| :: s.taken[i] !in s.skipped
  }

  /** What has been written since the last resync frame, is being written and is queued. */
  function Arriving<V>(s: Feed.State<Event<V>>): seq<nat> {
    Feed.Since(s.frames) + Feed.Rest(s)
  }

  lemma TailArrives<V>(capacity: nat, ls: seq<Feed.Label<Event<V>>>)
    requires var r := Feed.Run(Feed.Opened(capacity), ls); r.Some? && CaughtUp(r.value)
    ensures var s := Feed.Run(Feed.Opened(capacity), ls).value;
            && s.mark <= |s.delivered| && (forall i | 0 <= i < |Arriving(s)| :: Arriving(s)[i] < |s.delivered|)
            && Events(s.delivered, Arriving(s)) == s.delivered[s.mark..]
  {
    var s := Feed.Run(Feed.Opened(capacity), ls).value;
    Feed.NoSilentGap(capacity, ls);
    StretchEvents(s.delivered, s.mark);
  }

  /** End to end: in any run with no resync owed and nothing unencodable since the last
      resync frame, a client that took a snapshot at any point from that frame's drain on
      and applies what follows that point, from what the server has written since the
      frame, is writing and has queued, ends with exactly the rows of the whole log. */
  lemma ClientCatchesUp<V>(capacity: nat, ls: seq<Feed.Label<Event<V>>>, start: Table<V>, rows: seq<Row<V>>, j: nat, k: nat)
    requires var r := Feed.Run(Feed.Opened(capacity), ls);
             && r.Some? && CaughtUp(r.value) && r.value.mark <= j <= k <= |r.value.delivered|
             && Holds(rows, After(start, r.value.delivered[..k]))
    ensures var s := Feed.Run(Feed.Opened(capacity), ls).value;
            && (forall i | 0 <= i < |Arriving(s)| :: Arriving(s)[i] < |s.delivered|)
            && j - s.mark <= |Events(s.delivered, Arriving(s))|
            && Holds(ApplyAll(rows, Events(s.delivered, Arriving(s))[j - s.mark..]), After(start, s.delivered))
  {
    var s := Feed.Run(Feed.Opened(capacity), ls).value;
    TailArrives(capacity, ls);
    Slices(s.delivered, s.mark, j, k);
    OverlappingReplayConverges(start, s.delivered, rows, j, k);
  }

  lemma Slices<T>(xs: seq<T>, mark: nat, j: nat, k: nat)
    requires mark <= j <= k <= |xs|
    ensures |xs[mark..]| == |xs| - mark && xs[mark..][j - mark..] == xs[j..]
  {
  }
}
