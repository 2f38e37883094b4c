/** When a source is due: its freshness interval, and a backoff after failures. */
module Scheduler {
  import opened Prelude

  type SourceId = string

  const FAILURE_BACKOFF_BASE_SECS: nat := 60
  const FAILURE_BACKOFF_MAX_SECS: nat := 3600
  const FAILURE_HISTORY_ROWS: nat := 8

  /** `lastFetchedAt` stamps the last success, `updatedAt` the last success or edit by an operator,
      whichever was written last. */
  datatype Source = Source(lastFetchedAt: Option<int>, ttl: int, updatedAt: int)
  datatype Row = Row(at: int, ok: bool)
  datatype History = History(lastAttemptAt: int, failures: nat)

  function FailureBackoffSecs(failures: nat): nat {
    Min(FAILURE_BACKOFF_BASE_SECS * Pow2(Min(failures, 16)), FAILURE_BACKOFF_MAX_SECS)
  }

  /** Failed attempts in a row at the end of a journal. */
  function TrailingFailures(journal: seq<Row>): (n: nat)
    ensures n <= |journal|
    ensures forall i :: |journal| - n <= i < |journal| ==> !journal[i].ok
    ensures n < |journal| ==> journal[|journal| - n - 1].ok
  {
    if journal == [] || journal[|journal| - 1].ok then 0 else TrailingFailures(journal[..|journal| - 1]) + 1
  }

  /** The newest rows of a journal. */
  function Recent(journal: seq<Row>, limit: nat): seq<Row> {
    if |journal| <= limit then journal else journal[|journal| - limit..]
  }

  function HistoryOf(journal: seq<Row>, limit: nat): Option<History> {
    var rows := Recent(journal, limit);
    if rows == [] then None else Some(History(rows[|rows| - 1].at, TrailingFailures(rows)))
  }

  predicate IsDue(source: Source, now: int, history: Option<History>) {
    && (source.lastFetchedAt.None? || now - source.lastFetchedAt.value >= source.ttl)
    && (history.None? ||
        history.value.failures == 0 ||
        source.updatedAt > history.value.lastAttemptAt ||
        now - history.value.lastAttemptAt >= FailureBackoffSecs(history.value.failures))
  }

  // ---------------------------------------------------------------- the bounded read

  lemma {:induction false} Pow2Grows(k: nat, n: nat)
    requires k <= n
    ensures Pow2(k) <= Pow2(n)
  {
    if k < n { Pow2Grows(k, n - 1); }
  }

  lemma EarlyBackoffs()
    ensures FailureBackoffSecs(1) == 120 && FailureBackoffSecs(2) == 240 && FailureBackoffSecs(3) == 480
    ensures FailureBackoffSecs(4) == 960 && FailureBackoffSecs(5) == 1920
  {
    assert Pow2(5) == 32 && Pow2(4) == 16 && Pow2(3) == 8 && Pow2(2) == 4 && Pow2(1) == 2;
  }

  lemma LateBackoffs(k: nat)
    requires k >= 6
    ensures FailureBackoffSecs(k) == 3600
  {
    Pow2Grows(6, Min(k, 16));
    assert Pow2(3) == 8;
    assert Pow2(6) == 64;
  }

  lemma TrailingOfRecent(journal: seq<Row>, limit: nat)
    ensures TrailingFailures(Recent(journal, limit)) == Min(TrailingFailures(journal), limit)
  {
    var recent := Recent(journal, limit);
    var n, m := TrailingFailures(journal), TrailingFailures(recent);
    if |journal| > limit {
      assert forall i :: 0 <= i < limit ==> recent[i] == journal[|journal| - limit + i];
      assert m < limit ==> journal[|journal| - m - 1].ok;
      assert n < limit ==> recent[limit - n - 1].ok;
    }
  }

  /** Reading the newest `rows` journal rows gives the delay of the full history, whatever the
      journal holds, if and only if at least six are read; eight are. */
  lemma SixRowsSuffice(rows: nat)
    ensures (forall failures: nat :: FailureBackoffSecs(Min(failures, rows)) == FailureBackoffSecs(failures)) <==> rows >= 6
  {
    EarlyBackoffs();
    LateBackoffs(6);
    assert FailureBackoffSecs(0) == 60 by { assert Pow2(0) == 1; }
    if rows >= 6 {
      forall failures: nat ensures FailureBackoffSecs(Min(failures, rows)) == FailureBackoffSecs(failures) {
        if failures > rows {
          LateBackoffs(rows);
          LateBackoffs(failures);
        }
      }
    } else {
      assert FailureBackoffSecs(Min(6, rows)) != FailureBackoffSecs(6);
    }
  }

  /** The decision a sweep takes from eight rows is the one the whole journal would give. */
  lemma EightRowsDecideAlike(source: Source, now: int, journal: seq<Row>)
    ensures IsDue(source, now, HistoryOf(journal, FAILURE_HISTORY_ROWS)) == IsDue(source, now, HistoryOf(journal, |journal|))
  {
    TrailingOfRecent(journal, FAILURE_HISTORY_ROWS);
    SixRowsSuffice(FAILURE_HISTORY_ROWS);
    var n := TrailingFailures(journal);
    assert FailureBackoffSecs(Min(n, FAILURE_HISTORY_ROWS)) == FailureBackoffSecs(n);
  }

  /** Whether a sweep takes a source, from the whole journal: its interval has run out or it never
      succeeded, and its newest attempt succeeded, or lies before its last edit, or lies as far
      back as the failures in a row demand; 60 seconds doubled by each, an hour at most. */
  ghost predicate MayBeFetched(source: Source, now: int, journal: seq<Row>) {
    && (source.lastFetchedAt.Some? ==> source.lastFetchedAt.value + source.ttl <= now)
    && (journal != [] && !journal[|journal| - 1].ok ==>
          var last, n := journal[|journal| - 1].at, TrailingFailures(journal);
          last < source.updatedAt || last + (if n >= 6 then 3600 else 60 * Pow2(n)) <= now)
  }

  lemma DelayAfter(failures: nat)
    ensures FailureBackoffSecs(failures) == if failures >= 6 then 3600 else 60 * Pow2(failures)
  {
    if failures >= 6 {
      LateBackoffs(failures);
    } else {
      Pow2Grows(failures, 5);
      assert Pow2(5) == 32 by { assert Pow2(2) == 4; }
    }
  }

  /** The sweep's check is that condition, although it looks at eight rows at most, and at none of a
      source whose newest attempt succeeded. */
  lemma DueMeansMayBeFetched(source: Source, now: int, journal: seq<Row>)
    ensures var consulted := if journal != [] && !journal[|journal| - 1].ok then HistoryOf(journal, FAILURE_HISTORY_ROWS) else None;
      IsDue(source, now, consulted) <==> MayBeFetched(source, now, journal)
  {
    if journal != [] && !journal[|journal| - 1].ok {
      EightRowsDecideAlike(source, now, journal);
      DelayAfter(TrailingFailures(journal));
      hide FailureBackoffSecs;
    }
  }

  // ---------------------------------------------------------------- spacing

  /** Attempt `k` starts no sooner than the backoff earned by the failures in a row before it,
      unless the source was edited since the attempt before it. */
  ghost predicate GapOk(journal: seq<Row>, updatedAt: int, k: int)
    requires 0 < k < |journal|
  {
    var n := TrailingFailures(journal[..k]);
    n > 0 && updatedAt <= journal[k - 1].at ==> journal[k].at - journal[k - 1].at >= FailureBackoffSecs(n)
  }

  /** The attempts from number `from` on keep their distance. */
  ghost predicate Spaced(journal: seq<Row>, updatedAt: int, from: nat) {
    forall k :: Max(1, from) <= k < |journal| ==> GapOk(journal, updatedAt, k)
  }

  /** The backoff earned by the journal is over at `time`, or an edit has lifted it. */
  ghost predicate BackoffOver(journal: seq<Row>, updatedAt: int, time: int) {
    journal != [] && TrailingFailures(journal) > 0 && updatedAt <= journal[|journal| - 1].at ==>
      time - journal[|journal| - 1].at >= FailureBackoffSecs(TrailingFailures(journal))
  }

  /** What is known of a source when a run begins: its last edit, the stamp of its last success,
      its freshness interval, and how many rows its journal holds. */
  datatype Start = Start(edited: int, stamp: Option<int>, ttl: int, rows: nat)

  /** At `time`, the success known at the start and those journaled since lie an interval back. */
  ghost predicate AllStale(journal: seq<Row>, start: Start, time: int) {
    && (start.stamp.Some? ==> time - start.stamp.value >= start.ttl)
    && forall j :: start.rows <= j < |journal| && journal[j].ok ==> time - journal[j].at >= start.ttl
  }

  /** No attempt since the start came within the interval of a success before it. */
  ghost predicate Rested(journal: seq<Row>, start: Start) {
    forall k :: start.rows <= k < |journal| ==> AllStale(journal[..k], start, journal[k].at)
  }

  lemma RestedNext(journal: seq<Row>, row: Row, start: Start)
    requires Rested(journal, start) && AllStale(journal, start, row.at)
    ensures Rested(journal + [row], start)
  {
    var journal' := journal + [row];
    forall k | start.rows <= k < |journal'| ensures AllStale(journal'[..k], start, journal'[k].at) {
      assert k < |journal| ==> AllStale(journal[..k], start, journal[k].at) && journal'[..k] == journal[..k];
      assert k == |journal| ==> journal'[..k] == journal;
    }
  }

  /** The columns of the row as the run has left them: the interval as at the start, the edit
      stamp no younger than the newest attempt or the edit itself, and every success on record. */
  ghost predicate Stamped(source: Source, journal: seq<Row>, start: Start, clock: int) {
    && source.ttl == start.ttl && start.rows <= |journal|
    && source.updatedAt <= Max(start.edited, clock)
    && (journal != [] && start.edited <= journal[|journal| - 1].at ==> source.updatedAt <= journal[|journal| - 1].at)
    && (start.stamp.Some? ==> OnRecord(source, start.stamp.value, clock))
    && forall j :: start.rows <= j < |journal| && journal[j].ok ==> OnRecord(source, journal[j].at, clock)
  }

  predicate OnRecord(source: Source, success: int, clock: int) {
    (source.lastFetchedAt.Some? && success <= source.lastFetchedAt.value) || clock - success >= source.ttl
  }

  /** An attempt may start at `time`. */
  ghost predicate MayStart(journal: seq<Row>, start: Start, time: int) {
    BackoffOver(journal, start.edited, time) && AllStale(journal, start, time)
  }

  /** What a sweep lets through may start. */
  lemma DueMayStart(source: Source, now: int, journal: seq<Row>, start: Start)
    requires MayBeFetched(source, now, journal) && Stamped(source, journal, start, now)
    ensures MayStart(journal, start, now)
  {
    DelayAfter(TrailingFailures(journal));
    hide FailureBackoffSecs;
  }

  lemma LaterMayStart(journal: seq<Row>, start: Start, time: int, later: int)
    requires MayStart(journal, start, time) && time <= later
    ensures MayStart(journal, start, later)
  {}

  lemma StampedLater(source: Source, journal: seq<Row>, start: Start, clock: int, later: int)
    requires Stamped(source, journal, start, clock) && clock <= later
    ensures Stamped(source, journal, start, later)
  {}

  /** Recording an attempt that began at `at`: a success stamps the row. */
  lemma RecordStamps(source: Source, journal: seq<Row>, start: Start, clock: int, at: int, ok: bool)
    requires Stamped(source, journal, start, clock) && AllStale(journal, start, at) && at <= clock
    requires source.updatedAt <= Max(start.edited, at)
    ensures Stamped(if ok then source.(lastFetchedAt := Some(at), updatedAt := at) else source,
                    journal + [Row(at, ok)], start, clock)
  {}

  lemma SpacedNext(journal: seq<Row>, row: Row, updatedAt: int, from: nat)
    requires Spaced(journal, updatedAt, from) && BackoffOver(journal, updatedAt, row.at)
    ensures Spaced(journal + [row], updatedAt, from)
  {
    var journal' := journal + [row];
    forall k | Max(1, from) <= k < |journal'| ensures GapOk(journal', updatedAt, k) {
      assert k < |journal| ==> GapOk(journal, updatedAt, k) && journal'[..k] == journal[..k];
      assert k == |journal| ==> journal'[..k] == journal;
    }
  }

  /** The least time `n` spaced attempts take. */
  function Span(n: nat): nat {
    if n <= 1 then 0 else Span(n - 1) + FailureBackoffSecs(n - 1)
  }

  /** The last `m` of `n` failures in a row, all but the first of them spaced. */
  lemma {:induction false} TailSpans(journal: seq<Row>, updatedAt: int, from: nat, n: nat, m: nat)
    requires Spaced(journal, updatedAt, from) && 0 < m <= n == TrailingFailures(journal) && from <= |journal| - m + 1
    requires updatedAt <= journal[|journal| - m].at
    ensures journal[|journal| - 1].at - journal[|journal| - m].at >= Span(n) - Span(n - m + 1)
  {
    hide *;
    if m > 1 {
      var front, last := journal[..|journal| - 1], |journal| - 1;
      SpacedFront(journal, updatedAt, from);
      FrontFailures(journal, n);
      SpanStep(n);
      assert front[last - (m - 1)] == journal[last - (m - 1)] && front[last - 1] == journal[last - 1];
      TailSpans(front, updatedAt, from, n - 1, m - 1);
      SpanGrows(n - 1, n - m + 1);
      LastGap(journal, updatedAt, from, n);
    }
  }

  lemma SpanStep(n: nat)
    requires n > 1
    ensures Span(n) == Span(n - 1) + FailureBackoffSecs(n - 1)
  {}

  lemma FrontFailures(journal: seq<Row>, n: nat)
    requires 1 < n == TrailingFailures(journal)
    ensures TrailingFailures(journal[..|journal| - 1]) == n - 1
  {}

  lemma SpacedFront(journal: seq<Row>, updatedAt: int, from: nat)
    requires Spaced(journal, updatedAt, from) && journal != []
    ensures Spaced(journal[..|journal| - 1], updatedAt, from)
  {
    var front := journal[..|journal| - 1];
    hide TrailingFailures;
    forall k | Max(1, from) <= k < |front| ensures GapOk(front, updatedAt, k) {
      assert GapOk(journal, updatedAt, k) && front[..k] == journal[..k];
    }
  }

  lemma LastGap(journal: seq<Row>, updatedAt: int, from: nat, n: nat)
    requires Spaced(journal, updatedAt, from) && 1 < n == TrailingFailures(journal) && from <= |journal| - 1
    requires updatedAt <= journal[|journal| - 2].at
    ensures journal[|journal| - 1].at - journal[|journal| - 2].at >= FailureBackoffSecs(n - 1)
  {
    FrontFailures(journal, n);
    hide TrailingFailures, FailureBackoffSecs;
    assert GapOk(journal, updatedAt, |journal| - 1);
  }

  lemma {:induction false} SpanGrows(n: nat, k: nat)
    requires k <= n
    ensures Span(k) <= Span(n)
  {
    if k < n {
      SpanGrows(n - 1, k);
    }
  }

  lemma {:induction false} SpanIsLinear(n: nat)
    requires n >= 6
    ensures Span(n) == 3720 + 3600 * (n - 6)
  {
    if n == 6 {
      EarlyBackoffs();
      assert Span(1) == 0 && Span(2) == 120 && Span(3) == 360 && Span(4) == 840;
      assert Span(5) == 1800 && Span(6) == 3720;
    } else {
      SpanIsLinear(n - 1);
      LateBackoffs(n - 1);
    }
  }

  /** Where the backoff has reached its cap the spans are hours. */
  lemma TailTakes(journal: seq<Row>, updatedAt: int, from: nat, m: nat)
    requires Spaced(journal, updatedAt, from) && 0 < m <= TrailingFailures(journal) && from <= |journal| - m + 1
    requires updatedAt <= journal[|journal| - m].at
    ensures var n := TrailingFailures(journal);
      var took := journal[|journal| - 1].at - journal[|journal| - m].at;
      && took >= Span(n) - Span(n - m + 1)
      && (m == n >= 6 ==> took >= 3720 + 3600 * (n - 6))
      && (n - m >= 5 ==> took >= 3600 * (m - 1))
  {
    var n := TrailingFailures(journal);
    TailSpans(journal, updatedAt, from, n, m);
    hide TrailingFailures, Spaced;
    if n >= 6 {
      SpanIsLinear(n);
    }
    if n - m >= 5 {
      SpanIsLinear(n - m + 1);
    }
    assert Span(1) == 0;
  }

  // ---------------------------------------------------------------- the program's own form

  /** Rows come newest first; the failures are counted up to the first success. */
  method FailureHistory(newestFirst: seq<Row>) returns (history: Option<History>)
    ensures newestFirst == [] <==> history.None?
    ensures history.Some? ==>
              && history.value.lastAttemptAt == newestFirst[0].at
              && history.value.failures <= |newestFirst|
              && (forall i :: 0 <= i < history.value.failures ==> !newestFirst[i].ok)
              && (history.value.failures < |newestFirst| ==> newestFirst[history.value.failures].ok)
  {
    if newestFirst == [] {
      return None;
    }
    var n := 0;
    while n < |newestFirst| && !newestFirst[n].ok
      invariant 0 <= n <= |newestFirst|
      invariant forall i :: 0 <= i < n ==> !newestFirst[i].ok
    {
      n := n + 1;
    }
    history := Some(History(newestFirst[0].at, n));
  }
}
