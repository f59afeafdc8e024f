/** Merging pages of one activity stream on the client. */
module ActivityFeed {
  import opened Common
  import ActivityStore

  datatype FeedEvent = FeedEvent(sequence: int, content: ActivityStore.ActivityDraft)

  /** The latest event for every sequence number; negative numbers are dropped. */
  function Collect(events: seq<FeedEvent>): map<int, FeedEvent> {
    if events == [] then map[]
    else
      var last := events[|events| - 1];
      var before := Collect(events[..|events| - 1]);
      if last.sequence >= 0 then before[last.sequence := last] else before
  }

  /** A list shows a map when it holds exactly the map's values, in increasing order of their keys. */
  ghost predicate Shows(list: seq<FeedEvent>, m: map<int, FeedEvent>) {
    && (forall i, j :: 0 <= i < j < |list| ==> list[i].sequence < list[j].sequence)
    && (forall i :: 0 <= i < |list| ==> list[i].sequence in m && m[list[i].sequence] == list[i])
    && (forall k :: k in m ==> m[k].sequence == k && m[k] in list)
  }

  ghost predicate Merged(existing: seq<FeedEvent>, incoming: seq<FeedEvent>, merged: seq<FeedEvent>) {
    Shows(merged, Collect(existing + incoming))
  }

  /** Fill a map in order of arrival, then sort its values. */
  method MergeEvents(existing: seq<FeedEvent>, incoming: seq<FeedEvent>) returns (merged: seq<FeedEvent>)
    ensures Merged(existing, incoming, merged)
  {
    var all := existing + incoming;
    var bySequence: map<int, FeedEvent> := map[];
    assert all[..0] == [];
    for i := 0 to |all|
      invariant bySequence == Collect(all[..i])
    {
      assert all[..i + 1][..i] == all[..i];
      if all[i].sequence >= 0 {
        bySequence := bySequence[all[i].sequence := all[i]];
      }
    }
    assert all[..|all|] == all;
    CollectKeys(all);
    merged := SortBySequence(bySequence);
  }

  /** The list shows everything of the map but the values in `rest`, which all come later. */
  ghost predicate ShowsBut(list: seq<FeedEvent>, m: map<int, FeedEvent>, rest: set<FeedEvent>) {
    && (forall i, j :: 0 <= i < j < |list| ==> list[i].sequence < list[j].sequence)
    && (forall i :: 0 <= i < |list| ==> list[i].sequence in m && m[list[i].sequence] == list[i])
    && (forall k :: k in m ==> m[k].sequence == k && (m[k] in rest || m[k] in list))
    && (forall e :: e in rest ==> e.sequence in m && m[e.sequence] == e)
    && (forall i, e :: 0 <= i < |list| && e in rest ==> list[i].sequence < e.sequence)
  }

  lemma ShowsOneMore(list: seq<FeedEvent>, m: map<int, FeedEvent>, rest: set<FeedEvent>, next: FeedEvent)
    requires ShowsBut(list, m, rest) && next in rest && forall e :: e in rest ==> next.sequence <= e.sequence
    ensures ShowsBut(list + [next], m, rest - {next})
  {
    assert forall e :: e in rest - {next} ==> e.sequence != next.sequence;
  }

  method SortBySequence(m: map<int, FeedEvent>) returns (list: seq<FeedEvent>)
    requires forall k :: k in m ==> m[k].sequence == k
    ensures Shows(list, m)
  {
    list := [];
    var rest := set k | k in m :: m[k];
    while rest != {}
      invariant ShowsBut(list, m, rest)
    {
      var next := LeastOf(rest);
      ShowsOneMore(list, m, rest, next);
      list := list + [next];
      rest := rest - {next};
    }
  }

  method LeastOf(events: set<FeedEvent>) returns (least: FeedEvent)
    requires events != {}
    ensures least in events && forall e :: e in events ==> least.sequence <= e.sequence
  {
    least :| least in events;
    var rest := events - {least};
    while rest != {}
      invariant rest <= events && least in events
      invariant forall e :: e in events && e !in rest ==> least.sequence <= e.sequence
    {
      var e :| e in rest;
      rest := rest - {e};
      if e.sequence < least.sequence {
        least := e;
      }
    }
  }

  // ---------------------------------------------------------------- what merging means

  lemma {:induction false} CollectKeys(events: seq<FeedEvent>)
    ensures forall k :: k in Collect(events) ==>
        k >= 0 && Collect(events)[k].sequence == k && Collect(events)[k] in events
    ensures forall i :: 0 <= i < |events| && events[i].sequence >= 0 ==> events[i].sequence in Collect(events)
  {
    if events != [] {
      CollectKeys(events[..|events| - 1]);
    }
  }

  /** Later events win. */
  lemma {:induction false} CollectAppends(a: seq<FeedEvent>, b: seq<FeedEvent>)
    ensures Collect(a + b) == Collect(a) + Collect(b)
  {
    if b == [] {
      assert a + b == a;
    } else {
      var n := |b| - 1;
      CollectAppends(a, b[..n]);
      assert (a + b)[..|a| + n] == a + b[..n];
    }
  }

  /** A map is shown by one list only, so the merge has one answer. */
  lemma {:induction false} OneListShows(x: seq<FeedEvent>, y: seq<FeedEvent>, m: map<int, FeedEvent>)
    requires Shows(x, m) && Shows(y, m)
    ensures x == y
  {
    if x != [] {
      assert m[x[0].sequence] in y;
    }
    if y != [] {
      assert m[y[0].sequence] in x;
      var n, k := |x| - 1, |y| - 1;
      assert m[x[n].sequence] in y && m[y[k].sequence] in x;
      var last := x[n].sequence;
      assert x[n] == y[k];
      ShowsFront(x, m);
      ShowsFront(y, m);
      OneListShows(x[..n], y[..k], m - {last});
    }
  }

  lemma ShowsFront(x: seq<FeedEvent>, m: map<int, FeedEvent>)
    requires x != [] && Shows(x, m)
    ensures Shows(x[..|x| - 1], m - {x[|x| - 1].sequence})
  {
    var front, rest := x[..|x| - 1], m - {x[|x| - 1].sequence};
    forall k | k in rest
      ensures rest[k] in front
    {
      assert m[k] in x && m[k].sequence == k;
      var i :| 0 <= i < |x| && x[i] == m[k];
      assert front[i] == m[k];
    }
  }

  lemma {:induction false} ShownIsCollected(list: seq<FeedEvent>, m: map<int, FeedEvent>)
    requires Shows(list, m) && forall k :: k in m ==> k >= 0
    ensures Collect(list) == m
  {
    if list == [] {
      assert forall k :: k !in m;
    } else {
      var n := |list| - 1;
      ShowsFront(list, m);
      ShownIsCollected(list[..n], m - {list[n].sequence});
    }
  }

  /** Merging a page again changes nothing, and merging always leaves one event per number. */
  lemma MergingAgainChangesNothing(a: seq<FeedEvent>, b: seq<FeedEvent>, merged: seq<FeedEvent>, again: seq<FeedEvent>)
    requires Merged(a, b, merged) && Merged(merged, b, again)
    ensures again == merged
  {
    CollectKeys(a + b);
    ShownIsCollected(merged, Collect(a + b));
    CollectAppends(a, b);
    CollectAppends(merged, b);
    OneListShows(merged, again, Collect(a + b));
  }

  predicate Agree(x: map<int, FeedEvent>, y: map<int, FeedEvent>) {
    forall k :: k in x && k in y ==> x[k] == y[k]
  }

  lemma MapsCommute(x: map<int, FeedEvent>, y: map<int, FeedEvent>)
    ensures x + y == y + x <==> Agree(x, y)
  {
    if x + y == y + x {
      forall k | k in x && k in y
        ensures x[k] == y[k]
      {
        assert (x + y)[k] == y[k] && (y + x)[k] == x[k];
      }
    }
    if Agree(x, y) {
      forall k | k in x + y
        ensures (x + y)[k] == (y + x)[k]
      {
      }
      assert (x + y).Keys == (y + x).Keys;
      assert x + y == y + x;
    }
  }

  /** The order of two pages matters exactly when they disagree on some number. */
  lemma OrderMattersExactlyWhen(a: seq<FeedEvent>, b: seq<FeedEvent>, ab: seq<FeedEvent>, ba: seq<FeedEvent>)
    requires Merged(a, b, ab) && Merged(b, a, ba)
    ensures ab == ba <==> Agree(Collect(a), Collect(b))
  {
    CollectAppends(a, b);
    CollectAppends(b, a);
    CollectKeys(a + b);
    CollectKeys(b + a);
    ShownIsCollected(ab, Collect(a + b));
    ShownIsCollected(ba, Collect(b + a));
    MapsCommute(Collect(a), Collect(b));
    if Agree(Collect(a), Collect(b)) {
      OneListShows(ab, ba, Collect(a + b));
    }
  }

  // ---------------------------------------------------------------- reading page by page

  predicate IsLog(log: seq<FeedEvent>) {
    forall i :: 0 <= i < |log| ==> log[i].sequence == i + 1
  }

  function Feed(events: seq<ActivityStore.ActivityEvent>): (log: seq<FeedEvent>)
    ensures |log| == |events|
  {
    seq(|events|, i requires 0 <= i < |events| => FeedEvent(events[i].link.sequence, events[i].link.body))
  }

  /** What the store serves from a genuine stream are pages of one log. */
  lemma StreamsAreLogs(
      hash: ActivityStore.ActivityHash, events: seq<ActivityStore.ActivityEvent>, after: nat, limit: nat)
    requires ActivityStore.Genuine(hash, events)
    ensures IsLog(Feed(events))
    ensures Feed(ActivityStore.Page(events, after, limit)) == ActivityStore.Page(Feed(events), after, limit)
  {
    forall i | 0 <= i < |events|
      ensures Feed(events)[i].sequence == i + 1
    {
      assert ActivityStore.LinksOf(events)[i].sequence == i + 1;
    }
  }

  /** The event is the one the log holds under its number, among the first `n`. */
  predicate FromLog(log: seq<FeedEvent>, n: nat, e: FeedEvent)
    requires n <= |log|
  {
    1 <= e.sequence <= n && log[e.sequence - 1] == e
  }

  lemma {:induction false} CollectFromLog(log: seq<FeedEvent>, events: seq<FeedEvent>, n: nat)
    requires n <= |log| && forall i :: 0 <= i < |events| ==> FromLog(log, n, events[i])
    ensures forall k :: k in Collect(events) ==> 1 <= k <= n && Collect(events)[k] == log[k - 1]
  {
    if events != [] {
      CollectFromLog(log, events[..|events| - 1], n);
    }
  }

  lemma LogShowsItself(log: seq<FeedEvent>, events: seq<FeedEvent>, n: nat)
    requires IsLog(log) && n <= |log| && forall i :: 0 <= i < |events| ==> FromLog(log, n, events[i])
    requires forall k :: 1 <= k <= n ==> k in Collect(events)
    ensures Shows(log[..n], Collect(events))
  {
    CollectFromLog(log, events, n);
    var list, m := log[..n], Collect(events);
    forall k | k in m
      ensures m[k].sequence == k && m[k] in list
    {
      assert list[k - 1] == m[k];
    }
  }

  function Least(a: nat, b: nat): nat { if a < b then a else b }

  function Most(a: nat, b: nat): nat { if a < b then b else a }

  /** A page that starts at or before the cursor extends the prefix by exactly what is new in it. */
  lemma PageExtendsPrefix(log: seq<FeedEvent>, n: nat, stored: nat, after: nat, limit: nat, merged: seq<FeedEvent>)
    requires IsLog(log) && after <= n <= |log| && stored <= |log|
    requires Merged(log[..n], ActivityStore.Page(log[..stored], after, limit), merged)
    ensures merged == log[..Most(n, Least(stored, after + limit))]
  {
    var from, to := Least(after, stored), Least(stored, after + limit);
    PageOfPrefix(log, stored, after, limit);
    JoinComesFromLog(log, n, from, to);
    JoinCoversPrefix(log, n, from, to);
    LogShowsItself(log, log[..n] + log[from..to], Most(n, to));
    OneListShows(merged, log[..Most(n, to)], Collect(log[..n] + log[from..to]));
  }

  lemma JoinComesFromLog(log: seq<FeedEvent>, n: nat, from: nat, to: nat)
    requires IsLog(log) && n <= |log| && from <= to <= |log|
    ensures var all := log[..n] + log[from..to];
      forall i :: 0 <= i < |all| ==> FromLog(log, Most(n, to), all[i])
  {
  }

  lemma JoinCoversPrefix(log: seq<FeedEvent>, n: nat, from: nat, to: nat)
    requires IsLog(log) && from <= n <= |log| && from <= to <= |log|
    ensures forall k :: 1 <= k <= Most(n, to) ==> k in Collect(log[..n] + log[from..to])
  {
    var all := log[..n] + log[from..to];
    CollectKeys(all);
    forall k | 1 <= k <= Most(n, to)
      ensures k in Collect(all)
    {
      var i := if k <= n then k - 1 else n + k - 1 - from;
      assert all[i] == log[k - 1];
    }
  }

  lemma PageOfPrefix<E>(log: seq<E>, stored: nat, after: nat, limit: nat)
    requires stored <= |log|
    ensures ActivityStore.Page(log[..stored], after, limit) == log[Least(after, stored)..Least(stored, after + limit)]
  {
  }

  /** One poll: the log had `stored` events, the client asked for `limit` of them after `after`. */
  datatype Poll = Poll(stored: nat, after: nat, limit: nat)

  /** The client's list after each poll. */
  ghost predicate Polled(log: seq<FeedEvent>, polls: seq<Poll>, lists: seq<seq<FeedEvent>>) {
    && |lists| == |polls| + 1 && lists[0] == []
    && forall k :: 0 <= k < |polls| ==> PolledOnce(log, polls[k], lists[k], lists[k + 1])
  }

  ghost predicate PolledOnce(log: seq<FeedEvent>, poll: Poll, before: seq<FeedEvent>, after: seq<FeedEvent>) {
    && poll.stored <= |log| && poll.after <= |before| && 1 <= poll.limit
    && Merged(before, ActivityStore.Page(log[..poll.stored], poll.after, poll.limit), after)
  }

  /**
    Polling a growing log with any positive limits and any overlap: after every poll the client
    holds a gap-free prefix of the log, which never shrinks.  Polling from the cursor gains at
    least one event as long as there is one, so `n` such polls fetch the first `n` events.
   */
  lemma {:induction false} PollingReadsThePrefix(
      log: seq<FeedEvent>, polls: seq<Poll>, lists: seq<seq<FeedEvent>>, k: nat, n: nat)
    requires IsLog(log) && Polled(log, polls, lists) && k <= |polls|
    ensures |lists[k]| <= |log| && lists[k] == log[..|lists[k]|]
    ensures k > 0 ==> |lists[k - 1]| <= |lists[k]|
    ensures (forall j :: 0 <= j < k ==> polls[j].after == |lists[j]| && n <= polls[j].stored) ==>
        Least(n, k) <= |lists[k]|
  {
    if k > 0 {
      PollingReadsThePrefix(log, polls, lists, k - 1, n);
      assert PolledOnce(log, polls[k - 1], lists[k - 1], lists[k]);
      var poll := polls[k - 1];
      PageExtendsPrefix(log, |lists[k - 1]|, poll.stored, poll.after, poll.limit, lists[k]);
    }
  }
}
