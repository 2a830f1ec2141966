/** The deduplicated odds log: internal/ingestion/oddspoller/poller.go, dedup.go and internal/store/odds_history.sql.go. */
module OddsLog {
  import opened Wrappers

  /** What identifies a price series: game, source, book, market, outcome and line. */
  datatype Series = Series(
    gameId: int, source: string, book: string, market: string, outcome: string, side: string, point: Option<real>)

  datatype Quote = Quote(series: Series, price: int)

  datatype Entry = Entry(series: Series, price: int, hash: string, capturedAt: int)

  datatype Poll = Poll(capturedAt: int, quotes: seq<Quote>)

  datatype PollMetrics = PollMetrics(seen: nat, inserts: nat, skips: nat)

  /** A digest of the series and the price. */
  type Digest = (Series, int) -> string

  function Stamp(hash: Digest, capturedAt: int, q: Quote): Entry {
    Entry(q.series, q.price, hash(q.series, q.price), capturedAt)
  }

  function Stamped(hash: Digest, p: Poll): (es: seq<Entry>)
    ensures |es| == |p.quotes|
    ensures forall i :: 0 <= i < |es| ==> es[i] == Stamp(hash, p.capturedAt, p.quotes[i])
  {
    seq(|p.quotes|, i requires 0 <= i < |p.quotes| => Stamp(hash, p.capturedAt, p.quotes[i]))
  }

  predicate ShouldInsert(previous: string, e: Entry) {
    previous != e.hash
  }

  // ---- queries ----

  /** A row the newest-first lookup may return for the series: no other of its rows was captured later. */
  predicate Newest(entries: seq<Entry>, series: Series, e: Entry) {
    e in entries && e.series == series && forall f :: f in entries && f.series == series ==> f.capturedAt <= e.capturedAt
  }

  /** The row of the series written last. */
  function LastOf(entries: seq<Entry>, series: Series): Option<Entry> {
    if entries == [] then None
    else if entries[|entries| - 1].series == series then Some(entries[|entries| - 1])
    else LastOf(entries[..|entries| - 1], series)
  }

  /** The price of the series as of a moment. */
  function PriceAsOf(entries: seq<Entry>, series: Series, time: int): Option<int> {
    if entries == [] then None
    else
      var last := entries[|entries| - 1];
      if last.series == series && last.capturedAt <= time then Some(last.price)
      else PriceAsOf(entries[..|entries| - 1], series, time)
  }

  class OddsHistory {
    var entries: seq<Entry>

    constructor ()
      ensures entries == []
    {
      entries := [];
    }

    method GetLatestSnapshotHash(series: Series) returns (previous: Option<string>)
      ensures previous.None? <==> forall e :: e in entries ==> e.series != series
      ensures previous.Some? ==> exists e :: Newest(entries, series, e) && e.hash == previous.value
    {
      var best: Option<Entry> := None;
      for i := 0 to |entries|
        invariant best.None? ==> forall e :: e in entries[..i] ==> e.series != series
        invariant best.Some? ==> Newest(entries[..i], series, best.value)
      {
        assert entries[..i + 1] == entries[..i] + [entries[i]];
        if entries[i].series == series && (best.None? || entries[i].capturedAt > best.value.capturedAt) {
          best := Some(entries[i]);
        }
      }
      assert entries[..|entries|] == entries;
      previous := if best.Some? then Some(best.value.hash) else None;
    }

    method InsertOddsSnapshot(e: Entry)
      modifies this
      ensures entries == old(entries) + [e]
    {
      entries := entries + [e];
    }
  }

  // ---- what a poll leaves behind ----

  /** Appends each entry unless the last row of its series carries the same hash. */
  function Deduped(entries: seq<Entry>, es: seq<Entry>): seq<Entry> {
    if es == [] then entries
    else
      var before, e := Deduped(entries, es[..|es| - 1]), es[|es| - 1];
      var last := LastOf(before, e.series);
      if last.Some? && !ShouldInsert(last.value.hash, e) then before else before + [e]
  }

  /** What handling one snapshot may do: the lookup may return any newest row of its series, whatever ties there are. */
  ghost predicate MayProcess(before: seq<Entry>, e: Entry, after: seq<Entry>) {
    || (after == before + [e]
        && ((forall f :: f in before ==> f.series != e.series) || exists f :: Newest(before, e.series, f) && ShouldInsert(f.hash, e)))
    || (after == before && exists f :: Newest(before, e.series, f) && !ShouldInsert(f.hash, e))
  }

  /** A log that handling these snapshots in order may leave. */
  ghost predicate MayLeave(entries: seq<Entry>, es: seq<Entry>, after: seq<Entry>)
    decreases |es|, 0
  {
    if es == [] then after == entries
    else MayFollow(entries, es[..|es| - 1], es[|es| - 1], after)
  }

  ghost predicate MayFollow(entries: seq<Entry>, es: seq<Entry>, e: Entry, after: seq<Entry>)
    decreases |es|, 1
  {
    exists mid :: MayLeave(entries, es, mid) && MayProcess(mid, e, after)
  }

  lemma MayLeaveStep(entries: seq<Entry>, es: seq<Entry>, i: nat, mid: seq<Entry>, after: seq<Entry>)
    requires i < |es| && MayLeave(entries, es[..i], mid) && MayProcess(mid, es[i], after)
    ensures MayLeave(entries, es[..i + 1], after)
  {
    assert es[..i + 1][..i] == es[..i];
  }

  lemma {:induction false} LeftRowsDrawn(entries: seq<Entry>, es: seq<Entry>, after: seq<Entry>)
    requires MayLeave(entries, es, after)
    ensures entries <= after && forall e :: e in after[|entries|..] ==> e in es
  {
    if es != [] {
      var n := |es| - 1;
      var mid :| MayLeave(entries, es[..n], mid) && MayProcess(mid, es[n], after);
      LeftRowsDrawn(entries, es[..n], mid);
      assert es == es[..n] + [es[n]];
      assert after == mid || after[|entries|..] == mid[|entries|..] + [es[n]];
    }
  }

  /** Every row a poll leaves is one of its quotes, stamped with its time and its own hash. */
  lemma LeftRowsQuoted(entries: seq<Entry>, hash: Digest, poll: Poll, after: seq<Entry>)
    requires MayLeave(entries, Stamped(hash, poll), after)
    ensures entries <= after && forall e :: e in after[|entries|..] ==>
      e.capturedAt == poll.capturedAt && Quote(e.series, e.price) in poll.quotes && e.hash == hash(e.series, e.price)
  {
    LeftRowsDrawn(entries, Stamped(hash, poll), after);
    forall e | e in after[|entries|..]
      ensures e.capturedAt == poll.capturedAt && Quote(e.series, e.price) in poll.quotes && e.hash == hash(e.series, e.price)
    {
      var i :| 0 <= i < |poll.quotes| && Stamped(hash, poll)[i] == e;
      assert poll.quotes[i] == Quote(e.series, e.price);
    }
  }

  /** Within each series capture times strictly increase. */
  ghost predicate Chronological(entries: seq<Entry>) {
    forall i, j :: 0 <= i < j < |entries| && entries[i].series == entries[j].series ==> entries[i].capturedAt < entries[j].capturedAt
  }

  ghost predicate Precedes(a: seq<Entry>, b: seq<Entry>) {
    forall e, f :: e in a && f in b && e.series == f.series ==> e.capturedAt < f.capturedAt
  }

  lemma ChronologicalSplits(a: seq<Entry>, b: seq<Entry>)
    ensures Chronological(a + b) <==> Chronological(a) && Chronological(b) && Precedes(a, b)
  {
    var all := a + b;
    if Chronological(all) {
      assert forall i :: 0 <= i < |a| ==> all[i] == a[i];
      assert forall j :: 0 <= j < |b| ==> all[|a| + j] == b[j];
      forall e, f | e in a && f in b && e.series == f.series ensures e.capturedAt < f.capturedAt {
        var i :| 0 <= i < |a| && a[i] == e;
        var j :| 0 <= j < |b| && b[j] == f;
        assert all[i] == e && all[|a| + j] == f;
      }
    }
  }

  lemma {:induction false} LastOfIsStored(entries: seq<Entry>, series: Series)
    ensures LastOf(entries, series).None? <==> forall e :: e in entries ==> e.series != series
    ensures LastOf(entries, series).Some? ==> LastOf(entries, series).value in entries && LastOf(entries, series).value.series == series
  {
    if entries != [] {
      var n := |entries| - 1;
      assert entries == entries[..n] + [entries[n]];
      LastOfIsStored(entries[..n], series);
    }
  }

  /** In a chronological log the lookup has one answer, the row written last. */
  lemma {:induction false} NewestIsLast(entries: seq<Entry>, series: Series, e: Entry)
    requires Chronological(entries) && Newest(entries, series, e)
    ensures LastOf(entries, series) == Some(e)
  {
    var n := |entries| - 1;
    assert entries == entries[..n] + [entries[n]];
    if entries[n].series == series {
      var i :| 0 <= i < |entries| && entries[i] == e;
      assert entries[n] in entries;
      assert i == n;
    } else {
      NewestIsLast(entries[..n], series, e);
    }
  }

  lemma {:induction false} DedupedIsDrawnFrom(entries: seq<Entry>, es: seq<Entry>, e: Entry)
    requires e in Deduped(entries, es)
    ensures e in entries || e in es
  {
    if es != [] && e != es[|es| - 1] {
      DedupedIsDrawnFrom(entries, es[..|es| - 1], e);
    }
  }

  lemma {:induction false} DedupedChronological(entries: seq<Entry>, es: seq<Entry>)
    requires Chronological(entries + es)
    ensures Chronological(Deduped(entries, es))
  {
    if es == [] {
      assert entries + es == entries;
    } else {
      var n := |es| - 1;
      assert entries + es == (entries + es[..n]) + [es[n]];
      ChronologicalSplits(entries + es[..n], [es[n]]);
      DedupedChronological(entries, es[..n]);
      var before := Deduped(entries, es[..n]);
      forall f | f in before ensures f in entries + es[..n] {
        DedupedIsDrawnFrom(entries, es[..n], f);
      }
      ChronologicalSplits(before, [es[n]]);
    }
  }

  lemma DedupedStep(entries: seq<Entry>, es: seq<Entry>, i: nat)
    requires i < |es|
    ensures var before := Deduped(entries, es[..i]); var last := LastOf(before, es[i].series);
            Deduped(entries, es[..i + 1]) == if last.Some? && last.value.hash == es[i].hash then before else before + [es[i]]
  {
    assert es[..i + 1][..i] == es[..i];
  }

  lemma PrefixChronological(entries: seq<Entry>, es: seq<Entry>, i: nat)
    requires Chronological(entries + es) && i <= |es|
    ensures Chronological(entries + es[..i])
  {
    assert forall k :: 0 <= k < |entries| + i ==> (entries + es[..i])[k] == (entries + es)[k];
  }

  /** Looks one snapshot up and inserts it unless the row found has its hash. */
  method ProcessSnapshot(log: OddsHistory, e: Entry) returns (inserted: bool)
    modifies log
    ensures log.entries == if inserted then old(log.entries) + [e] else old(log.entries)
    ensures MayProcess(old(log.entries), e, log.entries)
    ensures Chronological(old(log.entries)) ==>
      var last := LastOf(old(log.entries), e.series); inserted <==> last.None? || last.value.hash != e.hash
  {
    var previous := log.GetLatestSnapshotHash(e.series);
    LastOfIsStored(log.entries, e.series);
    if Chronological(log.entries) && previous.Some? {
      var found :| Newest(log.entries, e.series, found) && found.hash == previous.value;
      NewestIsLast(log.entries, e.series, found);
    }
    if previous.Some? && !ShouldInsert(previous.value, e) {
      return false;
    }
    log.InsertOddsSnapshot(e);
    return true;
  }

  /** Every snapshot is either inserted or skipped, and the log left is one the lookups allow; a chronological poll leaves
      exactly the deduplicated log. */
  method RunPoll(log: OddsHistory, hash: Digest, poll: Poll) returns (metrics: PollMetrics)
    modifies log
    ensures metrics.seen == |poll.quotes| == metrics.inserts + metrics.skips
    ensures |log.entries| == |old(log.entries)| + metrics.inserts && old(log.entries) <= log.entries
    ensures MayLeave(old(log.entries), Stamped(hash, poll), log.entries)
    ensures forall e :: e in log.entries[|old(log.entries)|..] ==>
      e.capturedAt == poll.capturedAt && Quote(e.series, e.price) in poll.quotes && e.hash == hash(e.series, e.price)
    ensures Chronological(old(log.entries) + Stamped(hash, poll)) ==>
      log.entries == Deduped(old(log.entries), Stamped(hash, poll))
  {
    ghost var start, es := log.entries, Stamped(hash, poll);
    metrics := PollMetrics(|poll.quotes|, 0, 0);
    for i := 0 to |poll.quotes|
      invariant metrics.seen == |poll.quotes| && metrics.inserts + metrics.skips == i
      invariant |log.entries| == |start| + metrics.inserts && start <= log.entries
      invariant MayLeave(start, es[..i], log.entries)
      invariant Chronological(start + es) ==> log.entries == Deduped(start, es[..i])
    {
      DedupedStep(start, es, i);
      if Chronological(start + es) {
        PrefixChronological(start, es, i);
        DedupedChronological(start, es[..i]);
      }
      ghost var mid := log.entries;
      var inserted := ProcessSnapshot(log, Stamp(hash, poll.capturedAt, poll.quotes[i]));
      MayLeaveStep(start, es, i, mid, log.entries);
      if inserted {
        metrics := metrics.(inserts := metrics.inserts + 1);
      } else {
        metrics := metrics.(skips := metrics.skips + 1);
      }
    }
    assert es[..|es|] == es;
    LeftRowsQuoted(start, hash, poll, log.entries);
  }

  // ---- any number of polls is one stream ----

  function Stream(hash: Digest, polls: seq<Poll>): seq<Entry> {
    if polls == [] then [] else Stream(hash, polls[..|polls| - 1]) + Stamped(hash, polls[|polls| - 1])
  }

  /** Polls happen at strictly increasing times and quote each series at most once. */
  ghost predicate Orderly(polls: seq<Poll>) {
    && (forall i, j :: 0 <= i < j < |polls| ==> polls[i].capturedAt < polls[j].capturedAt)
    && (forall i :: 0 <= i < |polls| ==> OnePerSeries(polls[i].quotes))
  }

  ghost predicate OnePerSeries(quotes: seq<Quote>) {
    forall i, j :: 0 <= i < j < |quotes| ==> quotes[i].series != quotes[j].series
  }

  lemma {:induction false} StreamTimes(hash: Digest, polls: seq<Poll>, e: Entry)
    requires e in Stream(hash, polls)
    ensures exists i :: 0 <= i < |polls| && polls[i].capturedAt == e.capturedAt
  {
    var n := |polls| - 1;
    if e in Stream(hash, polls[..n]) {
      StreamTimes(hash, polls[..n], e);
      var i :| 0 <= i < n && polls[..n][i].capturedAt == e.capturedAt;
      assert polls[i].capturedAt == e.capturedAt;
    } else {
      assert e in Stamped(hash, polls[n]);
    }
  }

  lemma {:induction false} OrderlyIsChronological(hash: Digest, polls: seq<Poll>)
    requires Orderly(polls)
    ensures Chronological(Stream(hash, polls))
  {
    if polls != [] {
      var n := |polls| - 1;
      OrderlyIsChronological(hash, polls[..n]);
      var before, more := Stream(hash, polls[..n]), Stamped(hash, polls[n]);
      forall e, f | e in before && f in more && e.series == f.series ensures e.capturedAt < f.capturedAt {
        StreamTimes(hash, polls[..n], e);
      }
      ChronologicalSplits(before, more);
    }
  }

  lemma {:induction false} DedupedInParts(entries: seq<Entry>, a: seq<Entry>, b: seq<Entry>)
    ensures Deduped(Deduped(entries, a), b) == Deduped(entries, a + b)
  {
    if b == [] {
      assert a + b == a;
    } else {
      assert (a + b)[..|a + b| - 1] == a + b[..|b| - 1];
      DedupedInParts(entries, a, b[..|b| - 1]);
    }
  }

  lemma StreamPrefix(hash: Digest, polls: seq<Poll>, k: nat)
    requires k <= |polls|
    ensures Stream(hash, polls[..k]) <= Stream(hash, polls)
    decreases |polls|
  {
    if k == |polls| {
      assert polls[..k] == polls;
    } else {
      assert polls[..|polls| - 1][..k] == polls[..k];
      StreamPrefix(hash, polls[..|polls| - 1], k);
    }
  }

  /** Any number of polls: nothing is removed, every snapshot counted, and whenever the stored rows and the stream of quotes
      are in time order the log left is the deduplicated stream on top of what was stored. */
  method RunPolls(log: OddsHistory, hash: Digest, polls: seq<Poll>) returns (metrics: PollMetrics)
    modifies log
    ensures metrics.seen == |Stream(hash, polls)| == metrics.inserts + metrics.skips
    ensures |log.entries| == |old(log.entries)| + metrics.inserts && old(log.entries) <= log.entries
    ensures Chronological(old(log.entries) + Stream(hash, polls)) ==>
      log.entries == Deduped(old(log.entries), Stream(hash, polls))
  {
    ghost var start, all := log.entries, Stream(hash, polls);
    metrics := PollMetrics(0, 0, 0);
    for i := 0 to |polls|
      invariant metrics.seen == |Stream(hash, polls[..i])| == metrics.inserts + metrics.skips
      invariant |log.entries| == |start| + metrics.inserts && start <= log.entries
      invariant Chronological(start + all) ==> log.entries == Deduped(start, Stream(hash, polls[..i]))
    {
      assert polls[..i + 1][..i] == polls[..i];
      var before, more := Stream(hash, polls[..i]), Stamped(hash, polls[i]);
      if Chronological(start + all) {
        StreamPrefix(hash, polls, i + 1);
        PrefixChronological(start, all, |before + more|);
        assert all[..|before + more|] == before + more;
        DedupedThenChronological(start, before, more);
      }
      DedupedInParts(start, before, more);
      var m := RunPoll(log, hash, polls[i]);
      metrics := PollMetrics(metrics.seen + m.seen, metrics.inserts + m.inserts, metrics.skips + m.skips);
    }
    assert polls[..|polls|] == polls;
  }

  lemma DedupedThenChronological(entries: seq<Entry>, before: seq<Entry>, more: seq<Entry>)
    requires Chronological(entries + (before + more))
    ensures Chronological(Deduped(entries, before) + more)
  {
    var kept := Deduped(entries, before);
    assert entries + (before + more) == (entries + before) + more;
    ChronologicalSplits(entries + before, more);
    DedupedChronological(entries, before);
    forall e | e in kept ensures e in entries + before {
      DedupedIsDrawnFrom(entries, before, e);
    }
    ChronologicalSplits(kept, more);
  }

  /** Orderly polls after everything stored continue a log in time order. */
  lemma LaterPollsContinue(entries: seq<Entry>, hash: Digest, polls: seq<Poll>)
    requires Chronological(entries) && Orderly(polls)
    requires forall e, i :: e in entries && 0 <= i < |polls| ==> e.capturedAt < polls[i].capturedAt
    ensures Chronological(entries + Stream(hash, polls))
  {
    OrderlyIsChronological(hash, polls);
    forall e, f | e in entries && f in Stream(hash, polls) && e.series == f.series ensures e.capturedAt < f.capturedAt {
      StreamTimes(hash, polls, f);
    }
    ChronologicalSplits(entries, Stream(hash, polls));
  }

  // ---- main results ----

  /** Different prices of one series have different digests. */
  ghost predicate Injective(hash: Digest) {
    forall series, p, q :: hash(series, p) == hash(series, q) ==> p == q
  }

  ghost predicate Hashed(hash: Digest, es: seq<Entry>) {
    forall e :: e in es ==> e.hash == hash(e.series, e.price)
  }

  /** The price as of a moment is that of the last row of the series captured by then, if there is one. */
  lemma {:induction false} PriceAsOfMeans(entries: seq<Entry>, series: Series, time: int)
    ensures PriceAsOf(entries, series, time).None? <==> forall e :: e in entries && e.series == series ==> e.capturedAt > time
    ensures PriceAsOf(entries, series, time).Some? ==>
      exists k :: 0 <= k < |entries| && entries[k].series == series && entries[k].capturedAt <= time
        && entries[k].price == PriceAsOf(entries, series, time).value
        && forall j :: k < j < |entries| && entries[j].series == series ==> entries[j].capturedAt > time
  {
    if entries != [] {
      var n := |entries| - 1;
      assert entries == entries[..n] + [entries[n]];
      if !(entries[n].series == series && entries[n].capturedAt <= time) {
        PriceAsOfMeans(entries[..n], series, time);
        if PriceAsOf(entries, series, time).Some? {
          var k :| 0 <= k < n && entries[..n][k].series == series && entries[..n][k].capturedAt <= time
            && entries[..n][k].price == PriceAsOf(entries, series, time).value
            && forall j :: k < j < n && entries[..n][j].series == series ==> entries[..n][j].capturedAt > time;
          assert entries[k].series == series;
          forall j | k < j < |entries| && entries[j].series == series ensures entries[j].capturedAt > time {
            if j < n { assert entries[..n][j] == entries[j]; }
          }
        }
      }
    }
  }

  lemma {:induction false} AsOfAllIsLast(entries: seq<Entry>, series: Series, time: int)
    requires forall e :: e in entries && e.series == series ==> e.capturedAt <= time
    ensures PriceAsOf(entries, series, time) == match LastOf(entries, series) case None => None case Some(e) => Some(e.price)
  {
    if entries != [] {
      var n := |entries| - 1;
      assert entries == entries[..n] + [entries[n]];
      if entries[n].series != series {
        AsOfAllIsLast(entries[..n], series, time);
      }
    }
  }

  /** At every moment every series has the same price in the deduplicated log as in the full one. */
  lemma {:induction false} DedupKeepsPrices(hash: Digest, es: seq<Entry>, series: Series, time: int)
    requires Injective(hash) && Hashed(hash, es) && Chronological(es)
    ensures PriceAsOf(Deduped([], es), series, time) == PriceAsOf(es, series, time)
  {
    if es != [] {
      var n := |es| - 1;
      var before, e := Deduped([], es[..n]), es[n];
      assert es == es[..n] + [e];
      DedupKeepsPrices(hash, es[..n], series, time);
      assert (before + [e])[..|before|] == before;
      if Deduped([], es) == before && e.series == series && e.capturedAt <= time {
        forall f | f in before && f.series == series ensures f.capturedAt <= time {
          DedupedIsDrawnFrom([], es[..n], f);
          var i :| 0 <= i < n && es[i] == f;
        }
        AsOfAllIsLast(before, series, time);
        LastOfIsStored(before, series);
        var last := LastOf(before, series).value;
        DedupedIsDrawnFrom([], es[..n], last);
        assert hash(series, last.price) == hash(series, e.price);
      }
    }
  }

  /** The rows of one series. */
  function Of(entries: seq<Entry>, series: Series): seq<Entry> {
    if entries == [] then []
    else
      var last := entries[|entries| - 1];
      Of(entries[..|entries| - 1], series) + (if last.series == series then [last] else [])
  }

  /** Keeps the first of every run of equal prices. */
  function Destuttered(s: seq<Entry>): seq<Entry> {
    if s == [] then []
    else
      var kept, e := Destuttered(s[..|s| - 1]), s[|s| - 1];
      if kept != [] && kept[|kept| - 1].price == e.price then kept else kept + [e]
  }

  lemma OfAppend(entries: seq<Entry>, e: Entry, series: Series)
    ensures Of(entries + [e], series) == if e.series == series then Of(entries, series) + [e] else Of(entries, series)
  {
    assert (entries + [e])[..|entries|] == entries;
    assert Of(entries, series) + [] == Of(entries, series);
  }

  lemma {:induction false} LastOfIsLastRow(entries: seq<Entry>, series: Series)
    ensures LastOf(entries, series)
         == if Of(entries, series) == [] then None else Some(Of(entries, series)[|Of(entries, series)| - 1])
  {
    if entries != [] && entries[|entries| - 1].series != series {
      LastOfIsLastRow(entries[..|entries| - 1], series);
    }
  }

  lemma DestutterAppend(s: seq<Entry>, e: Entry)
    ensures var kept := Destuttered(s);
            Destuttered(s + [e]) == if kept != [] && kept[|kept| - 1].price == e.price then kept else kept + [e]
  {
    assert (s + [e])[..|s|] == s;
  }

  /** Series by series, the log is the full history with runs of equal prices collapsed to their first row. */
  lemma {:induction false} DedupIsDestutter(hash: Digest, es: seq<Entry>, series: Series)
    requires Injective(hash) && Hashed(hash, es)
    ensures Of(Deduped([], es), series) == Destuttered(Of(es, series))
  {
    if es != [] {
      var n := |es| - 1;
      var before, e := Deduped([], es[..n]), es[n];
      assert es == es[..n] + [e];
      DedupIsDestutter(hash, es[..n], series);
      OfAppend(es[..n], e, series);
      if e.series == series {
        OfAppend(before, e, series);
        LastOfIsLastRow(before, series);
        DestutterAppend(Of(es[..n], series), e);
        SameHashSamePrice(hash, es[..n], e);
      } else {
        OfAppend(before, e, series);
      }
    }
  }

  lemma SameHashSamePrice(hash: Digest, es: seq<Entry>, e: Entry)
    requires Injective(hash) && Hashed(hash, es) && e.hash == hash(e.series, e.price)
    ensures var last := LastOf(Deduped([], es), e.series);
            last.Some? ==> (last.value.hash == e.hash <==> last.value.price == e.price)
  {
    var before := Deduped([], es);
    LastOfIsStored(before, e.series);
    if LastOf(before, e.series).Some? {
      var last := LastOf(before, e.series).value;
      DedupedIsDrawnFrom([], es, last);
      assert last.hash == hash(e.series, last.price);
    }
  }

  /** No two consecutive rows of a series have the same price. */
  lemma {:induction false} DestutteredMoves(s: seq<Entry>, i: nat)
    requires i + 1 < |Destuttered(s)|
    ensures Destuttered(s)[i].price != Destuttered(s)[i + 1].price
  {
    if i + 1 < |Destuttered(s[..|s| - 1])| {
      DestutteredMoves(s[..|s| - 1], i);
    }
  }

  /** All of it for the log the poller builds: same price at every moment, and every row is a price change. */
  lemma PolledLogIsFaithful(hash: Digest, polls: seq<Poll>, series: Series, time: int, i: nat)
    requires Injective(hash) && Orderly(polls)
    ensures var full := Stream(hash, polls); var log := Deduped([], full);
            && PriceAsOf(log, series, time) == PriceAsOf(full, series, time)
            && (i + 1 < |Of(log, series)| ==> Of(log, series)[i].price != Of(log, series)[i + 1].price)
  {
    var full := Stream(hash, polls);
    StreamHashed(hash, polls);
    OrderlyIsChronological(hash, polls);
    DedupKeepsPrices(hash, full, series, time);
    DedupIsDestutter(hash, full, series);
    if i + 1 < |Of(Deduped([], full), series)| {
      DestutteredMoves(Of(full, series), i);
    }
  }

  lemma {:induction false} StreamHashed(hash: Digest, polls: seq<Poll>)
    ensures Hashed(hash, Stream(hash, polls))
  {
    if polls != [] {
      StreamHashed(hash, polls[..|polls| - 1]);
    }
  }

  // ---- several quotes for one series in one poll ----

  /** The newest-first lookup can return only one price for the series. */
  ghost predicate OnePrice(entries: seq<Entry>, series: Series) {
    forall f, g :: Newest(entries, series, f) && Newest(entries, series, g) ==> f.price == g.price
  }

  function LastRow(entries: seq<Entry>, series: Series): seq<Entry> {
    match LastOf(entries, series)
    case None => []
    case Some(e) => [e]
  }

  predicate At(f: Entry, series: Series, time: int) {
    f.series == series && f.capturedAt == time
  }

  /** Where the log stands within a poll at `time` that has changed the series' price `changes` times, to `price`. */
  ghost predicate Phase(hash: Digest, entries: seq<Entry>, after: seq<Entry>, series: Series, time: int, changes: int, price: int) {
    && (forall f :: f in entries ==> f in after)
    && (forall f :: f in after ==> f in entries || f.capturedAt == time)
    && Hashed(hash, after)
    && (changes == 0 ==> forall f :: f in after && f.series == series ==> f in entries)
    && (changes == 1 ==> exists f :: f in after && At(f, series, time))
    && (changes == 1 ==> forall f :: f in after && At(f, series, time) ==> f.price == price)
    && (changes >= 2 ==> exists f, g :: f in after && g in after && At(f, series, time) && At(g, series, time) && f.price != g.price)
  }

  ghost predicate Earlier(entries: seq<Entry>, time: int) {
    forall f :: f in entries ==> f.capturedAt < time
  }

  lemma SkipKeepsPhase(hash: Digest, entries: seq<Entry>, before: seq<Entry>, e: Entry, series: Series, time: int, changes: int, price: int)
    requires Phase(hash, entries, before, series, time, changes, price)
    requires e.series != series && e.capturedAt == time && e.hash == hash(e.series, e.price)
    ensures Phase(hash, entries, before + [e], series, time, changes, price)
  {
  }

  /** The row the lookup finds mid-poll carries the current price as long as the price changed at most once. */
  lemma FoundHasPrice(hash: Digest, entries: seq<Entry>, before: seq<Entry>, f: Entry, series: Series, time: int, changes: nat, price: int)
    requires Phase(hash, entries, before, series, time, changes, price) && changes <= 1
    requires Chronological(entries) && Earlier(entries, time) && Newest(before, series, f)
    requires changes == 0 ==> LastOf(entries, series).Some? && LastOf(entries, series).value.price == price
    ensures f.price == price
  {
    if changes == 0 {
      assert Newest(entries, series, f);
      NewestIsLast(entries, series, f);
    } else {
      var r :| r in before && At(r, series, time);
      assert f.capturedAt == time;
    }
  }

  lemma PhaseStep(hash: Digest, entries: seq<Entry>, before: seq<Entry>, e: Entry, after: seq<Entry>, time: int, changes: nat, price: int,
                  now: nat)
    requires Injective(hash) && Chronological(entries) && Earlier(entries, time) && e.capturedAt == time && e.hash == hash(e.series, e.price)
    requires Phase(hash, entries, before, e.series, time, changes, price) && MayProcess(before, e, after)
    requires changes == 0 ==> match LastOf(entries, e.series) case None => true case Some(last) => last.price == price
    requires var unseen := changes == 0 && LastOf(entries, e.series).None?; now == if !unseen && e.price == price then changes else changes + 1
    ensures Phase(hash, entries, after, e.series, time, now, e.price)
  {
    var unseen := changes == 0 && LastOf(entries, e.series).None?;
    LastOfIsStored(entries, e.series);
    if changes <= 1 && !unseen {
      if exists f :: Newest(before, e.series, f) {
        var f :| Newest(before, e.series, f);
        FoundHasPrice(hash, entries, before, f, e.series, time, changes, price);
      }
      forall f | Newest(before, e.series, f) ensures f.price == price && (f.hash == e.hash <==> e.price == price) {
        FoundHasPrice(hash, entries, before, f, e.series, time, changes, price);
        assert f.hash == hash(e.series, f.price);
      }
    }
    if after == before + [e] {
      assert e in after;
      assert forall f :: f in before ==> f in after;
    }
  }

  /** The phase that the last stored row followed by the quotes so far, `prices`, has brought the series to. */
  ghost predicate Reached(hash: Digest, entries: seq<Entry>, after: seq<Entry>, series: Series, time: int, prices: seq<Entry>) {
    var tail, d := LastRow(entries, series), Destuttered(prices);
    && |d| >= |tail| && (tail != [] ==> d[0] == tail[0])
    && Phase(hash, entries, after, series, time, |d| - |tail|, if d == [] then 0 else d[|d| - 1].price)
  }

  lemma ReachedStart(hash: Digest, entries: seq<Entry>, series: Series, time: int)
    requires Hashed(hash, entries)
    ensures Reached(hash, entries, entries, series, time, LastRow(entries, series))
  {
    var tail := LastRow(entries, series);
    assert tail != [] ==> tail[..0] == [] && Destuttered(tail[..0]) == [];
  }

  /** How the run-length count `d` of a series with last stored row `tail` grows by one quote. */
  predicate Grows(tail: seq<Entry>, d: seq<Entry>, price: int, d': seq<Entry>) {
    && |d| >= |tail| && d' != [] && d'[|d'| - 1].price == price
    && |d'| == if !(|d| == |tail| == 0) && price == (if d == [] then 0 else d[|d| - 1].price) then |d| else |d| + 1
  }

  lemma OneMoreQuote(entries: seq<Entry>, e: Entry, prices: seq<Entry>)
    requires var tail, d := LastRow(entries, e.series), Destuttered(prices); |d| >= |tail| && (tail != [] ==> d[0] == tail[0])
    ensures Grows(LastRow(entries, e.series), Destuttered(prices), e.price, Destuttered(prices + [e]))
    ensures LastRow(entries, e.series) != [] ==> Destuttered(prices + [e])[0] == LastRow(entries, e.series)[0]
  {
    DestutterAppend(prices, e);
  }

  lemma PhaseGrows(hash: Digest, entries: seq<Entry>, before: seq<Entry>, e: Entry, after: seq<Entry>, time: int, d: seq<Entry>, d': seq<Entry>)
    requires Injective(hash) && Chronological(entries) && Earlier(entries, time) && e.capturedAt == time && e.hash == hash(e.series, e.price)
    requires Grows(LastRow(entries, e.series), d, e.price, d') && (LastRow(entries, e.series) != [] ==> d[0] == LastRow(entries, e.series)[0])
    requires Phase(hash, entries, before, e.series, time, |d| - |LastRow(entries, e.series)|, if d == [] then 0 else d[|d| - 1].price)
    requires MayProcess(before, e, after)
    ensures Phase(hash, entries, after, e.series, time, |d'| - |LastRow(entries, e.series)|, d'[|d'| - 1].price)
  {
    PhaseStep(hash, entries, before, e, after, time, |d| - |LastRow(entries, e.series)|, if d == [] then 0 else d[|d| - 1].price,
              |d'| - |LastRow(entries, e.series)|);
  }

  lemma ReachedByQuote(hash: Digest, entries: seq<Entry>, before: seq<Entry>, e: Entry, after: seq<Entry>, time: int, prices: seq<Entry>)
    requires Injective(hash) && Chronological(entries) && Earlier(entries, time) && e.capturedAt == time && e.hash == hash(e.series, e.price)
    requires Reached(hash, entries, before, e.series, time, prices) && MayProcess(before, e, after)
    ensures Reached(hash, entries, after, e.series, time, prices + [e])
  {
    OneMoreQuote(entries, e, prices);
    PhaseGrows(hash, entries, before, e, after, time, Destuttered(prices), Destuttered(prices + [e]));
  }

  lemma ReachedByOther(hash: Digest, entries: seq<Entry>, before: seq<Entry>, e: Entry, after: seq<Entry>, series: Series, time: int, prices: seq<Entry>)
    requires e.series != series && e.capturedAt == time && e.hash == hash(e.series, e.price)
    requires Reached(hash, entries, before, series, time, prices) && MayProcess(before, e, after)
    ensures Reached(hash, entries, after, series, time, prices)
  {
    if after != before {
      var tail, d := LastRow(entries, series), Destuttered(prices);
      SkipKeepsPhase(hash, entries, before, e, series, time, |d| - |tail|, if d == [] then 0 else d[|d| - 1].price);
    }
  }

  /** Whatever the lookups return, a poll's log is in the phase its price changes say. */
  lemma {:induction false} PollPhase(hash: Digest, entries: seq<Entry>, es: seq<Entry>, after: seq<Entry>, series: Series, time: int)
    requires Injective(hash) && Hashed(hash, entries) && Chronological(entries) && Earlier(entries, time)
    requires Hashed(hash, es) && (forall e :: e in es ==> e.capturedAt == time) && MayLeave(entries, es, after)
    ensures Reached(hash, entries, after, series, time, LastRow(entries, series) + Of(es, series))
  {
    var tail := LastRow(entries, series);
    if es == [] {
      assert tail + Of(es, series) == tail;
      ReachedStart(hash, entries, series, time);
    } else {
      var n, e := |es| - 1, es[|es| - 1];
      assert e in es && forall f :: f in es[..n] ==> f in es;
      var mid :| MayLeave(entries, es[..n], mid) && MayProcess(mid, e, after);
      PollPhase(hash, entries, es[..n], mid, series, time);
      var prices := tail + Of(es[..n], series);
      if e.series == series {
        assert tail + Of(es, series) == prices + [e];
        ReachedByQuote(hash, entries, mid, e, after, time, prices);
      } else {
        assert Of(es, series) == Of(es[..n], series) + [] == Of(es[..n], series);
        ReachedByOther(hash, entries, mid, e, after, series, time, prices);
      }
    }
  }

  lemma PhaseDecides(hash: Digest, entries: seq<Entry>, after: seq<Entry>, series: Series, time: int, changes: nat, price: int)
    requires Phase(hash, entries, after, series, time, changes, price) && Chronological(entries) && Earlier(entries, time)
    ensures OnePrice(after, series) <==> changes <= 1
  {
    if changes == 0 {
      forall f | Newest(after, series, f) ensures LastOf(entries, series) == Some(f) {
        assert Newest(entries, series, f);
        NewestIsLast(entries, series, f);
      }
    } else if changes == 1 {
      var r :| r in after && At(r, series, time);
      assert forall f :: Newest(after, series, f) ==> At(f, series, time);
    } else {
      var f, g :| f in after && g in after && At(f, series, time) && At(g, series, time) && f.price != g.price;
      assert Newest(after, series, f) && Newest(after, series, g);
    }
  }

  lemma ReachedDecides(hash: Digest, entries: seq<Entry>, after: seq<Entry>, series: Series, time: int, prices: seq<Entry>)
    requires Reached(hash, entries, after, series, time, prices) && Chronological(entries) && Earlier(entries, time)
    ensures OnePrice(after, series) <==> |Destuttered(prices)| <= |LastRow(entries, series)| + 1
  {
    var tail, d := LastRow(entries, series), Destuttered(prices);
    PhaseDecides(hash, entries, after, series, time, |d| - |tail|, if d == [] then 0 else d[|d| - 1].price);
  }

  /** After a poll later than everything stored, every lookup of a series returns one price exactly when the last stored row
      followed by the poll's quotes for the series changes price at most once (a series not stored yet starts with its first
      quote). Repeating a price is harmless. This holds whatever the lookups inside the poll returned. */
  lemma OnePriceAfterPollIff(hash: Digest, entries: seq<Entry>, poll: Poll, after: seq<Entry>, series: Series)
    requires Injective(hash) && Hashed(hash, entries) && Chronological(entries) && Earlier(entries, poll.capturedAt)
    requires MayLeave(entries, Stamped(hash, poll), after)
    ensures var tail := LastRow(entries, series);
            OnePrice(after, series) <==> |Destuttered(tail + Of(Stamped(hash, poll), series))| <= |tail| + 1
  {
    PollPhase(hash, entries, Stamped(hash, poll), after, series, poll.capturedAt);
    ReachedDecides(hash, entries, after, series, poll.capturedAt, LastRow(entries, series) + Of(Stamped(hash, poll), series));
  }

  lemma DedupOfTwo(a: Entry, b: Entry)
    requires a.hash != b.hash
    ensures Deduped([], [a, b]) == [a, b]
  {
    assert [a, b][..1] == [a] && [a][..0] == [];
    DedupedStep([], [a, b], 0);
    DedupedStep([], [a, b], 1);
    assert Deduped([], [a]) == [] + [a] == [a] && [a] + [b] == [a, b];
    assert [a, b][..2] == [a, b];
  }

  /** Two prices for one series in one poll leave the newest-first lookup with two answers. */
  lemma TiedQuotesAreAmbiguous(hash: Digest, series: Series, p: int, q: int, time: int)
    requires Injective(hash) && p != q
    ensures var log := Deduped([], Stamped(hash, Poll(time, [Quote(series, p), Quote(series, q)])));
            exists a, b :: Newest(log, series, a) && Newest(log, series, b) && a.price == p && b.price == q
  {
    var es := Stamped(hash, Poll(time, [Quote(series, p), Quote(series, q)]));
    var a, b := Stamp(hash, time, Quote(series, p)), Stamp(hash, time, Quote(series, q));
    assert es == [a, b] && a.hash != b.hash;
    DedupOfTwo(a, b);
    var log := Deduped([], es);
    assert log == [a, b] && log[0] == a && log[1] == b;
    assert Newest(log, series, a) && Newest(log, series, b) && a.price == p && b.price == q;
  }

  /** A row the game-wide moneyline lookup may return: it looks across books. */
  predicate NewestHomePrice(entries: seq<Entry>, gameId: int, e: Entry) {
    && e in entries && HomePrice(e, gameId)
    && forall f :: f in entries && HomePrice(f, gameId) ==> f.capturedAt <= e.capturedAt
  }

  predicate HomePrice(e: Entry, gameId: int) {
    e.series.gameId == gameId && e.series.market == "h2h" && e.series.side == "home"
  }

  /** The game-wide lookup may show this price. */
  ghost predicate MayShow(entries: seq<Entry>, gameId: int, price: int) {
    exists f :: NewestHomePrice(entries, gameId, f) && f.price == price
  }

  function LastTime(entries: seq<Entry>): (time: int)
    ensures forall e :: e in entries ==> e.capturedAt <= time
  {
    if entries == [] then 0
    else
      var n := |entries| - 1;
      assert entries == entries[..n] + [entries[n]];
      var before := LastTime(entries[..n]);
      if entries[n].capturedAt > before then entries[n].capturedAt else before
  }

  /** The price in a newest deduplicated row is the last one quoted for its own series. */
  lemma DedupedShowsLastQuote(hash: Digest, es: seq<Entry>, gameId: int, e: Entry)
    requires Injective(hash) && Hashed(hash, es) && Chronological(es) && NewestHomePrice(Deduped([], es), gameId, e)
    ensures LastOf(es, e.series).Some? && LastOf(es, e.series).value.price == e.price
  {
    var log, time := Deduped([], es), LastTime(es);
    assert [] + es == es;
    DedupedChronological([], es);
    assert Newest(log, e.series, e);
    NewestIsLast(log, e.series, e);
    forall f | f in log ensures f in es {
      DedupedIsDrawnFrom([], es, f);
    }
    AsOfAllIsLast(log, e.series, time);
    AsOfAllIsLast(es, e.series, time);
    DedupKeepsPrices(hash, es, e.series, time);
  }

  /** The game-wide lookup on the deduplicated log shows a price the full log may show exactly when some newest row of the
      full log carries the last price quoted for the series found; that is so whenever that series is itself among the
      newest quotes of the full log. */
  lemma GameWideLookupIff(hash: Digest, es: seq<Entry>, gameId: int, e: Entry)
    requires Injective(hash) && Hashed(hash, es) && Chronological(es) && NewestHomePrice(Deduped([], es), gameId, e)
    ensures LastOf(es, e.series).Some?
    ensures MayShow(es, gameId, e.price) <==> MayShow(es, gameId, LastOf(es, e.series).value.price)
    ensures (exists f :: NewestHomePrice(es, gameId, f) && f.series == e.series) ==> MayShow(es, gameId, e.price)
  {
    DedupedShowsLastQuote(hash, es, gameId, e);
    if exists f :: NewestHomePrice(es, gameId, f) && f.series == e.series {
      var f :| NewestHomePrice(es, gameId, f) && f.series == e.series;
      assert Newest(es, e.series, f);
      NewestIsLast(es, e.series, f);
    }
  }

  /** Across books the deduplicated log is not the full one: a book that repeats its price loses its place as newest. */
  lemma CrossBookNewestDiffers(hash: Digest, p: int, q: int)
    requires p != q
    ensures var a, b := Series(1, "s", "A", "h2h", "team", "home", None), Series(1, "s", "B", "h2h", "team", "home", None);
            var full := Stream(hash, [Poll(1, [Quote(a, p)]), Poll(2, [Quote(b, q)]), Poll(3, [Quote(a, p)])]);
            && (forall e :: NewestHomePrice(full, 1, e) ==> e.price == p)
            && (exists e :: NewestHomePrice(Deduped([], full), 1, e) && e.price == q)
            && (forall e :: NewestHomePrice(Deduped([], full), 1, e) ==> e.price == q)
  {
    var a, b := Series(1, "s", "A", "h2h", "team", "home", None), Series(1, "s", "B", "h2h", "team", "home", None);
    var polls := [Poll(1, [Quote(a, p)]), Poll(2, [Quote(b, q)]), Poll(3, [Quote(a, p)])];
    var x, y, z := Stamp(hash, 1, Quote(a, p)), Stamp(hash, 2, Quote(b, q)), Stamp(hash, 3, Quote(a, p));
    StreamOfThree(hash, polls[0], polls[1], polls[2]);
    assert Stream(hash, polls) == [x, y, z];
    assert a.book == "A" && b.book == "B" && a != b;
    DedupOfThree(x, y, z);
    assert NewestHomePrice([x, y], 1, y);
    assert z in [x, y, z];
  }

  lemma StreamOfThree(hash: Digest, a: Poll, b: Poll, c: Poll)
    ensures Stream(hash, [a, b, c]) == Stamped(hash, a) + Stamped(hash, b) + Stamped(hash, c)
  {
    assert [a, b, c][..2] == [a, b] && [a, b][..1] == [a] && [a][..0] == [];
    assert Stream(hash, [a]) == Stamped(hash, a);
    assert Stream(hash, [a, b]) == Stamped(hash, a) + Stamped(hash, b);
  }

  lemma DedupOfThree(x: Entry, y: Entry, z: Entry)
    requires x.series == z.series != y.series && x.hash == z.hash
    ensures Deduped([], [x, y, z]) == [x, y]
  {
    assert [x, y, z][..2] == [x, y] && [x, y][..1] == [x] && [x][..0] == [];
    assert Deduped([], [x]) == [x];
    assert LastOf([x], y.series) == LastOf([x][..0], y.series) == None;
    assert Deduped([], [x, y]) == [x] + [y];
    assert LastOf([x, y], x.series) == LastOf([x], x.series) == Some(x);
  }
}
