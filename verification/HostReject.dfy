/** The warn registry of the export's host gate.

The registry is a value with one transition per rejected request; the history beside it is
what the promises are about.  The class is the program's own form of the same transition. */
module HostReject {
  import opened Prelude

  const WINDOW: int := 3600
  const MAX_TRACKED: nat := 1024
  const MAX_WARNS: nat := 64

  datatype Registry = Registry(
    seen: map<string, int>,
    windowStart: Option<int>,
    warnsEmitted: nat,
    suppressed: Option<string>,
    suppressedTotal: nat)

  const EMPTY := Registry(map[], None, 0, None, 0)

  datatype Summary = Summary(total: nat, first: string)

  /** What one rejection came to; an eviction is an event of its own, before the insertion. */
  datatype Kind = Quiet | Rewarned | Warned | Suppressed | Evicted
  datatype Event = Event(host: string, at: int, kind: Kind)

  /** `oldest` is the entry to evict, should the map be full: one with the least time. */
  datatype Call = Call(host: string, now: int, oldest: string)

  predicate RollsOver(r: Registry, now: int) { r.windowStart.Some? && now - r.windowStart.value >= WINDOW }

  function RollWindow(r: Registry, now: int): (Registry, Option<Summary>) {
    if r.windowStart.None? then (r.(windowStart := Some(now)), None)
    else if !RollsOver(r, now) then (r, None)
    else
      (r.(windowStart := Some(now), warnsEmitted := 0, suppressed := None, suppressedTotal := 0),
       if r.suppressed.Some? then Some(Summary(r.suppressedTotal, r.suppressed.value)) else None)
  }

  predicate Fresh(r: Registry, c: Call) { c.host in r.seen && c.now - r.seen[c.host] < WINDOW }
  predicate Full(r: Registry, c: Call) { c.host !in r.seen && |r.seen| >= MAX_TRACKED }

  predicate IsOldest(seen: map<string, int>, host: string) {
    host in seen && forall h :: h in seen ==> seen[host] <= seen[h]
  }

  predicate Callable(r: Registry, c: Call) { Full(r, c) ==> IsOldest(r.seen, c.oldest) }

  function KindOf(rolled: Registry, c: Call): Kind {
    if Fresh(rolled, c) then Quiet
    else if c.host in rolled.seen then Rewarned
    else if rolled.warnsEmitted >= MAX_WARNS then Suppressed
    else Warned
  }

  /** The registry after the call, past the rollover. */
  function Decide(rolled: Registry, c: Call): Registry {
    var room := if Full(rolled, c) then rolled.seen - {c.oldest} else rolled.seen;
    match KindOf(rolled, c)
    case Quiet => rolled
    case Rewarned => rolled.(seen := rolled.seen[c.host := c.now])
    case Warned => rolled.(seen := room[c.host := c.now], warnsEmitted := rolled.warnsEmitted + 1)
    case _ =>
      rolled.(seen := room[c.host := c.now], suppressedTotal := rolled.suppressedTotal + 1,
              suppressed := if rolled.suppressed.Some? then rolled.suppressed else Some(c.host))
  }

  function After(r: Registry, c: Call): Registry { Decide(RollWindow(r, c.now).0, c) }

  predicate Warns(k: Kind) { k == Rewarned || k == Warned }

  /** The events of one call. */
  function Events(rolled: Registry, c: Call): seq<Event> {
    (if Full(rolled, c) then [Event(c.oldest, c.now, Evicted)] else []) + [Event(c.host, c.now, KindOf(rolled, c))]
  }

  // ---------------------------------------------------------------- history

  /** The events so far, those of the window under way, those of each closed window, how many
      hosts were tracked when each window opened, and the totals the summaries have reported. */
  datatype History = History(
    reg: Registry, log: seq<Event>, window: seq<Event>, closed: seq<seq<Event>>, opening: nat, openings: seq<nat>, reported: nat)

  const START := History(EMPTY, [], [], [], 0, [], 0)

  /** This call is the first of a window. */
  predicate Opens(r: Registry, now: int) { r.windowStart.None? || RollsOver(r, now) }

  function Advance(h: History, c: Call): History {
    var (rolled, summary) := RollWindow(h.reg, c.now);
    var events := Events(rolled, c);
    History(
      After(h.reg, c),
      h.log + events,
      (if RollsOver(h.reg, c.now) then [] else h.window) + events,
      if RollsOver(h.reg, c.now) then h.closed + [h.window] else h.closed,
      if Opens(h.reg, c.now) then |h.reg.seen| else h.opening,
      if RollsOver(h.reg, c.now) then h.openings + [h.opening] else h.openings,
      h.reported + if summary.Some? then summary.value.total else 0)
  }

  function Run(calls: seq<Call>): History
    decreases |calls|
  {
    if calls == [] then START else Advance(Run(calls[..|calls| - 1]), calls[|calls| - 1])
  }

  /** Time does not run backwards and evictions hit a least recently inserted entry. */
  ghost predicate Legal(calls: seq<Call>)
    decreases |calls|
  {
    calls != [] ==>
      var front, last := calls[..|calls| - 1], calls[|calls| - 1];
      && Legal(front)
      && (front != [] ==> front[|front| - 1].now <= last.now)
      && Callable(RollWindow(Run(front).reg, last.now).0, last)
  }

  function Count(events: seq<Event>, kind: Kind): nat {
    if events == [] then 0
    else Count(events[..|events| - 1], kind) + if events[|events| - 1].kind == kind then 1 else 0
  }

  lemma {:induction false} CountConcat(a: seq<Event>, b: seq<Event>, kind: Kind)
    ensures Count(a + b, kind) == Count(a, kind) + Count(b, kind)
  {
    if b == [] {
      assert a + b == a;
    } else {
      assert (a + b)[..|a + b| - 1] == a + b[..|b| - 1];
      CountConcat(a, b[..|b| - 1], kind);
    }
  }

  lemma CountEvents(rolled: Registry, c: Call, kind: Kind)
    requires kind != Evicted
    ensures Count(Events(rolled, c), kind) == if KindOf(rolled, c) == kind then 1 else 0
  {
    var last := Event(c.host, c.now, KindOf(rolled, c));
    CountOne(last, kind);
    if Full(rolled, c) {
      var first := Event(c.oldest, c.now, Evicted);
      CountOne(first, kind);
      CountConcat([first], [last], kind);
    } else {
      assert Events(rolled, c) == [last];
    }
  }

  lemma CountOne(e: Event, kind: Kind)
    ensures Count([e], kind) == if e.kind == kind then 1 else 0
  {
    assert [e][..0] == [];
  }

  // ---------------------------------------------------------------- counting

  /** Budget, memory and bookkeeping. */
  ghost predicate Bounded(h: History) {
    && |h.reg.seen| <= MAX_TRACKED
    && h.reg.warnsEmitted == Count(h.window, Warned) <= MAX_WARNS
    && h.reg.suppressedTotal == Count(h.window, Suppressed)
    && (h.reg.suppressed.Some? <==> h.reg.suppressedTotal > 0)
    && (forall w :: w in h.closed ==> Count(w, Warned) <= MAX_WARNS)
    && Count(h.log, Suppressed) == h.reported + h.reg.suppressedTotal
    && (h.reg.windowStart.None? ==> h.log == [] && h.window == [])
  }

  lemma AdvanceCounts(h: History, c: Call, kind: Kind)
    requires kind != Evicted
    ensures var rolled := RollWindow(h.reg, c.now).0;
      var one := if KindOf(rolled, c) == kind then 1 else 0;
      && Count(Advance(h, c).window, kind) == (if RollsOver(h.reg, c.now) then 0 else Count(h.window, kind)) + one
      && Count(Advance(h, c).log, kind) == Count(h.log, kind) + one
  {
    var rolled := RollWindow(h.reg, c.now).0;
    CountConcat(if RollsOver(h.reg, c.now) then [] else h.window, Events(rolled, c), kind);
    CountConcat(h.log, Events(rolled, c), kind);
    CountEvents(rolled, c, kind);
  }

  lemma AdvanceKeepsBounds(h: History, c: Call)
    requires Bounded(h) && Callable(RollWindow(h.reg, c.now).0, c)
    ensures Bounded(Advance(h, c))
  {
    hide Count, Full, Fresh, Decide, KindOf, Events, Callable, Advance, RollWindow;
    var rolled := RollWindow(h.reg, c.now).0;
    RollCounts(h.reg, c.now);
    AdvanceShape(h, c);
    AdvanceCounts(h, c, Warned);
    AdvanceCounts(h, c, Suppressed);
    RoomIsMade(rolled, c);
    DecideCounts(rolled, c);
    ClosedStaysBounded(h, c);
  }

  lemma ClosedStaysBounded(h: History, c: Call)
    requires Bounded(h)
    ensures forall w :: w in Advance(h, c).closed ==> Count(w, Warned) <= MAX_WARNS
  {
    hide Count, Decide, KindOf, Events, RollWindow;
    forall w | w in Advance(h, c).closed ensures Count(w, Warned) <= MAX_WARNS {
      assert w in h.closed || w == h.window;
    }
  }

  lemma AdvanceShape(h: History, c: Call)
    ensures var (rolled, summary) := RollWindow(h.reg, c.now);
      && Advance(h, c).reg == Decide(rolled, c)
      && Advance(h, c).reported == h.reported + if summary.Some? then summary.value.total else 0
  {}

  lemma RollCounts(r: Registry, now: int)
    requires r.suppressed.Some? <==> r.suppressedTotal > 0
    ensures var (rolled, summary) := RollWindow(r, now);
      && rolled.seen == r.seen && rolled.windowStart.Some?
      && rolled.warnsEmitted == (if RollsOver(r, now) then 0 else r.warnsEmitted)
      && rolled.suppressedTotal == (if RollsOver(r, now) then 0 else r.suppressedTotal)
      && (rolled.suppressed.Some? <==> rolled.suppressedTotal > 0)
      && (if summary.Some? then summary.value.total else 0) == (if RollsOver(r, now) then r.suppressedTotal else 0)
  {}

  lemma DecideCounts(rolled: Registry, c: Call)
    ensures var k, after := KindOf(rolled, c), Decide(rolled, c);
      && after.warnsEmitted == rolled.warnsEmitted + (if k == Warned then 1 else 0)
      && after.suppressedTotal == rolled.suppressedTotal + (if k == Suppressed then 1 else 0)
      && (after.suppressed.Some? <==> rolled.suppressed.Some? || k == Suppressed)
      && after.windowStart == rolled.windowStart
      && (k == Warned ==> rolled.warnsEmitted < MAX_WARNS)
  {}

  lemma RoomIsMade(rolled: Registry, c: Call)
    requires |rolled.seen| <= MAX_TRACKED && Callable(rolled, c)
    ensures |Decide(rolled, c).seen| <= MAX_TRACKED
  {
    if c.host in rolled.seen {
      assert rolled.seen[c.host := c.now].Keys == rolled.seen.Keys;
    } else {
      var room := if Full(rolled, c) then rolled.seen - {c.oldest} else rolled.seen;
      assert room.Keys == if Full(rolled, c) then rolled.seen.Keys - {c.oldest} else rolled.seen.Keys;
      assert room[c.host := c.now].Keys == room.Keys + {c.host};
    }
  }

  /** Over every call sequence: at most 1024 hosts are tracked, no window warns about more than
      64 new hosts, and every suppressed rejection is in a summary or in the current counter. */
  lemma {:induction false} BoundsHoldThroughout(calls: seq<Call>)
    requires Legal(calls)
    ensures Bounded(Run(calls))
  {
    if calls != [] {
      BoundsHoldThroughout(calls[..|calls| - 1]);
      AdvanceKeepsBounds(Run(calls[..|calls| - 1]), calls[|calls| - 1]);
    }
  }

  // ---------------------------------------------------------------- the name in the summary

  function FirstSuppressed(events: seq<Event>): Option<string> {
    if events == [] then None
    else
      var front := FirstSuppressed(events[..|events| - 1]);
      if front.Some? then front
      else if events[|events| - 1].kind == Suppressed then Some(events[|events| - 1].host) else None
  }

  lemma {:induction false} FirstSuppressedConcat(a: seq<Event>, b: seq<Event>)
    ensures FirstSuppressed(a + b) == if FirstSuppressed(a).Some? then FirstSuppressed(a) else FirstSuppressed(b)
  {
    if b == [] {
      assert a + b == a;
    } else {
      assert (a + b)[..|a + b| - 1] == a + b[..|b| - 1];
      FirstSuppressedConcat(a, b[..|b| - 1]);
    }
  }

  lemma EventsSuppress(rolled: Registry, c: Call)
    ensures FirstSuppressed(Events(rolled, c)) == if KindOf(rolled, c) == Suppressed then Some(c.host) else None
  {
    var last := Event(c.host, c.now, KindOf(rolled, c));
    assert [last][..0] == [];
    if Full(rolled, c) {
      var first := Event(c.oldest, c.now, Evicted);
      assert [first][..0] == [];
      FirstSuppressedConcat([first], [last]);
    } else {
      assert Events(rolled, c) == [last];
    }
  }

  lemma DecideNames(rolled: Registry, c: Call)
    ensures Decide(rolled, c).suppressed ==
            if rolled.suppressed.Some? then rolled.suppressed
            else if KindOf(rolled, c) == Suppressed then Some(c.host) else None
  {}

  lemma RollNames(r: Registry, now: int)
    ensures RollWindow(r, now).0.suppressed == if RollsOver(r, now) then None else r.suppressed
  {}

  lemma AdvanceKeepsName(h: History, c: Call)
    requires h.reg.suppressed == FirstSuppressed(h.window)
    ensures Advance(h, c).reg.suppressed == FirstSuppressed(Advance(h, c).window)
  {
    var rolled := RollWindow(h.reg, c.now).0;
    var base := if RollsOver(h.reg, c.now) then [] else h.window;
    FirstSuppressedConcat(base, Events(rolled, c));
    EventsSuppress(rolled, c);
    DecideNames(rolled, c);
    RollNames(h.reg, c.now);
    assert Advance(h, c).window == base + Events(rolled, c);
    AdvanceShape(h, c);
    hide Events, KindOf, Decide, Advance, RollWindow;
  }

  /** Over every call sequence the name kept for the summary is that of the first host the window
      suppressed, so a rollover reports exactly that host. */
  lemma {:induction false} SummaryNamesTheFirst(calls: seq<Call>)
    ensures Run(calls).reg.suppressed == FirstSuppressed(Run(calls).window)
  {
    if calls != [] {
      SummaryNamesTheFirst(calls[..|calls| - 1]);
      AdvanceKeepsName(Run(calls[..|calls| - 1]), calls[|calls| - 1]);
    }
  }

  // ---------------------------------------------------------------- spacing

  predicate Marks(e: Event) { e.kind == Rewarned || e.kind == Warned || e.kind == Suppressed }

  ghost predicate EvictedAfter(log: seq<Event>, host: string, i: nat) {
    exists k :: i < k < |log| && log[k].host == host && log[k].kind == Evicted
  }

  /** Two warns of one host that was not evicted in between are a window apart. */
  ghost predicate Apart(log: seq<Event>) {
    forall i, j :: 0 <= i < j < |log| && Warns(log[i].kind) && Warns(log[j].kind) && log[i].host == log[j].host &&
                   !EvictedAfter(log[..j], log[i].host, i) ==>
      log[j].at - log[i].at >= WINDOW
  }

  /** What `seen` remembers: of a host not evicted since, its newest insertion. */
  ghost predicate Remembers(log: seq<Event>, seen: map<string, int>) {
    forall i :: 0 <= i < |log| && Marks(log[i]) && !EvictedAfter(log, log[i].host, i) ==>
      log[i].host in seen && log[i].at <= seen[log[i].host]
  }

  ghost predicate NotAfter(log: seq<Event>, now: int) { forall i :: 0 <= i < |log| ==> log[i].at <= now }

  ghost predicate Remembered(h: History, now: int) {
    && Apart(h.log) && Remembers(h.log, h.reg.seen) && NotAfter(h.log, now)
    && (forall x :: x in h.reg.seen ==> h.reg.seen[x] <= now)
  }

  lemma EvictionShows(log: seq<Event>, e: Event, host: string, i: nat)
    requires i < |log|
    ensures EvictedAfter(log + [e], host, i) <==> EvictedAfter(log, host, i) || (e.host == host && e.kind == Evicted)
  {
    var log' := log + [e];
    if k :| i < k < |log| && log[k].host == host && log[k].kind == Evicted {
      assert log'[k] == log[k];
    }
    if e.host == host && e.kind == Evicted {
      assert log'[|log|] == e;
    }
  }

  lemma Evict(log: seq<Event>, seen: map<string, int>, host: string, now: int)
    requires Apart(log) && Remembers(log, seen) && NotAfter(log, now)
    ensures var log' := log + [Event(host, now, Evicted)];
      Apart(log') && Remembers(log', seen - {host}) && NotAfter(log', now)
  {
    var e := Event(host, now, Evicted);
    var log' := log + [e];
    forall i | 0 <= i < |log| ensures EvictedAfter(log', log[i].host, i) <==> EvictedAfter(log, log[i].host, i) || log[i].host == host {
      EvictionShows(log, e, log[i].host, i);
    }
    AppendKeepsApart(log, e);
  }

  /** Only a warn can break the spacing. */
  lemma AppendKeepsApart(log: seq<Event>, e: Event)
    requires Apart(log)
    requires Warns(e.kind) ==>
               forall i :: 0 <= i < |log| && Warns(log[i].kind) && log[i].host == e.host && !EvictedAfter(log, e.host, i) ==>
                 e.at - log[i].at >= WINDOW
    ensures Apart(log + [e])
  {
    var log' := log + [e];
    forall i, j | 0 <= i < j < |log'| && Warns(log'[i].kind) && Warns(log'[j].kind) && log'[i].host == log'[j].host &&
                  !EvictedAfter(log'[..j], log'[i].host, i)
      ensures log'[j].at - log'[i].at >= WINDOW
    {
      assert log'[..j] == log[..j];
      if j == |log| {
        assert log[..j] == log;
      }
    }
  }

  /** The call's own event: quiet, or an insertion at `now`. */
  lemma Insert(log: seq<Event>, seen: map<string, int>, e: Event)
    requires Apart(log) && Remembers(log, seen) && NotAfter(log, e.at) && e.kind != Evicted
    requires Warns(e.kind) && e.host in seen ==> e.at - seen[e.host] >= WINDOW
    ensures Apart(log + [e]) && NotAfter(log + [e], e.at)
    ensures Remembers(log + [e], if e.kind == Quiet then seen else seen[e.host := e.at])
  {
    var log' := log + [e];
    forall i | 0 <= i < |log| ensures EvictedAfter(log', log[i].host, i) <==> EvictedAfter(log, log[i].host, i) {
      EvictionShows(log, e, log[i].host, i);
    }
    AppendKeepsApart(log, e);
  }

  lemma AdvanceKeepsMemory(h: History, c: Call)
    requires Remembered(h, c.now) && Callable(RollWindow(h.reg, c.now).0, c)
    ensures Remembered(Advance(h, c), c.now)
  {
    var rolled := RollWindow(h.reg, c.now).0;
    var e := Event(c.host, c.now, KindOf(rolled, c));
    if Full(rolled, c) {
      Evict(h.log, h.reg.seen, c.oldest, c.now);
      Insert(h.log + [Event(c.oldest, c.now, Evicted)], h.reg.seen - {c.oldest}, e);
      assert h.log + Events(rolled, c) == h.log + [Event(c.oldest, c.now, Evicted)] + [e];
    } else {
      Insert(h.log, h.reg.seen, e);
      assert Events(rolled, c) == [e];
    }
  }

  /** Over every call sequence: two warns about a host that was not evicted in between are at
      least one window apart. */
  lemma {:induction false} WarnsAreApart(calls: seq<Call>)
    requires Legal(calls)
    ensures Apart(Run(calls).log)
    ensures calls != [] ==> Remembered(Run(calls), calls[|calls| - 1].now)
    ensures calls == [] ==> Run(calls) == START
  {
    if calls != [] {
      var front, last := calls[..|calls| - 1], calls[|calls| - 1];
      WarnsAreApart(front);
      AdvanceKeepsMemory(Run(front), last);
    }
  }

  // ---------------------------------------------------------------- warns per window

  /** Hosts stamped before `start`: those that may still be warned about again. */
  function Stale(seen: map<string, int>, start: int): set<string> { set x | x in seen && seen[x] < start }

  /** Rewarns so far, and those still to come, are no more than the hosts tracked when the window
      opened; so it was in every closed window. */
  ghost predicate Budgeted(h: History) {
    && (h.reg.windowStart.Some? ==> Count(h.window, Rewarned) + |Stale(h.reg.seen, h.reg.windowStart.value)| <= h.opening)
    && (h.reg.windowStart.None? ==> h.window == [] && h.opening == 0)
    && h.opening <= MAX_TRACKED
    && |h.openings| == |h.closed|
    && forall i :: 0 <= i < |h.closed| ==> Count(h.closed[i], Rewarned) <= h.openings[i] <= MAX_TRACKED
  }

  /** What one call does to the stale hosts: a rewarn takes one, nothing adds one. */
  lemma DecideKeepsStale(rolled: Registry, c: Call)
    requires rolled.windowStart.Some? && rolled.windowStart.value <= c.now && !RollsOver(rolled, c.now)
    ensures |Stale(Decide(rolled, c).seen, rolled.windowStart.value)| + (if KindOf(rolled, c) == Rewarned then 1 else 0)
            <= |Stale(rolled.seen, rolled.windowStart.value)|
  {
    var start := rolled.windowStart.value;
    var before, after := Stale(rolled.seen, start), Stale(Decide(rolled, c).seen, start);
    if KindOf(rolled, c) == Rewarned {
      assert c.host in before && after == before - {c.host};
    } else {
      FewerStale(after, before);
    }
  }

  lemma {:induction false} FewerStale(a: set<string>, b: set<string>)
    requires a <= b
    ensures |a| <= |b|
  {
    assert b == a + (b - a);
  }

  lemma OpeningIsStale(seen: map<string, int>, start: int)
    ensures |Stale(seen, start)| <= |seen|
  {
    FewerStale(Stale(seen, start), seen.Keys);
  }

  lemma AdvanceKeepsBudget(h: History, c: Call)
    requires Budgeted(h) && |h.reg.seen| <= MAX_TRACKED && (h.reg.windowStart.Some? ==> h.reg.windowStart.value <= c.now)
    ensures Budgeted(Advance(h, c))
    ensures Advance(h, c).reg.windowStart.Some? && Advance(h, c).reg.windowStart.value <= c.now
  {
    var rolled := RollWindow(h.reg, c.now).0;
    AdvanceCounts(h, c, Rewarned);
    OpeningIsStale(h.reg.seen, rolled.windowStart.value);
    DecideKeepsStale(rolled, c);
    DecideCounts(rolled, c);
    hide Decide, KindOf, Events, Stale;
  }

  lemma {:induction false} BudgetHolds(calls: seq<Call>)
    requires Legal(calls)
    ensures Budgeted(Run(calls))
    ensures calls == [] ==> Run(calls) == START
    ensures calls != [] ==>
              Run(calls).reg.windowStart.Some? && Run(calls).reg.windowStart.value <= calls[|calls| - 1].now
  {
    if calls != [] {
      var front, last := calls[..|calls| - 1], calls[|calls| - 1];
      BudgetHolds(front);
      BoundsHoldThroughout(front);
      BoundedTracks(Run(front));
      hide Budgeted, Bounded, Advance, Callable, RollWindow;
      AdvanceKeepsBudget(Run(front), last);
    }
  }

  lemma BoundedTracks(h: History)
    requires Bounded(h)
    ensures |h.reg.seen| <= MAX_TRACKED && Count(h.window, Warned) <= MAX_WARNS
    ensures forall i :: 0 <= i < |h.closed| ==> Count(h.closed[i], Warned) <= MAX_WARNS
  {
    hide Count;
    forall i | 0 <= i < |h.closed| ensures Count(h.closed[i], Warned) <= MAX_WARNS {
      assert h.closed[i] in h.closed;
    }
  }

  /** Both parts of the bound on one history. */
  lemma BoundsAddUp(h: History)
    requires Budgeted(h) && Bounded(h)
    ensures Count(h.window, Rewarned) <= h.opening && WarnsOf(h.window) <= h.opening + MAX_WARNS <= MAX_TRACKED + MAX_WARNS
    ensures |h.openings| == |h.closed|
    ensures forall i :: 0 <= i < |h.closed| ==>
              && Count(h.closed[i], Rewarned) <= h.openings[i]
              && WarnsOf(h.closed[i]) <= h.openings[i] + MAX_WARNS <= MAX_TRACKED + MAX_WARNS
  {
    BoundedTracks(h);
    hide Count, Bounded, Stale;
    assert h.reg.windowStart.None? ==> Count(h.window, Rewarned) == 0 by { NoEvents(h.window); }
  }

  lemma NoEvents(events: seq<Event>)
    ensures events == [] ==> Count(events, Rewarned) == 0
  {}

  function WarnsOf(events: seq<Event>): nat { Count(events, Warned) + Count(events, Rewarned) }

  /** The bound that does hold: over every call sequence, a window warns about at most 64 new hosts
      and about each host tracked when it opened at most once more. */
  lemma WarnsPerWindow(calls: seq<Call>)
    requires Legal(calls)
    ensures var h := Run(calls);
      && Count(h.window, Rewarned) <= h.opening && WarnsOf(h.window) <= h.opening + MAX_WARNS <= MAX_TRACKED + MAX_WARNS
      && |h.openings| == |h.closed|
      && forall i :: 0 <= i < |h.closed| ==>
           && Count(h.closed[i], Rewarned) <= h.openings[i]
           && WarnsOf(h.closed[i]) <= h.openings[i] + MAX_WARNS <= MAX_TRACKED + MAX_WARNS
  {
    hide *;
    BudgetHolds(calls);
    BoundsHoldThroughout(calls);
    BoundsAddUp(Run(calls));
  }

  /** Warning again about a known host is free: it uses none of the window's budget. */
  lemma RewarnIsNotBudgeted(rolled: Registry, c: Call)
    requires c.host in rolled.seen && c.now - rolled.seen[c.host] >= WINDOW
    ensures KindOf(rolled, c) == Rewarned
    ensures Decide(rolled, c) == rolled.(seen := rolled.seen[c.host := c.now])
  {}

  // ---------------------------------------------------------------- the bound is attained at every opening

  lemma RunNext(calls: seq<Call>, c: Call)
    requires Legal(calls) && (calls != [] ==> calls[|calls| - 1].now <= c.now)
    requires Callable(RollWindow(Run(calls).reg, c.now).0, c)
    ensures Legal(calls + [c]) && Run(calls + [c]) == Advance(Run(calls), c)
  {
    hide Callable, RollWindow, Advance;
    assert (calls + [c])[..|calls|] == calls;
  }

  /** After `calls`, `more` makes up one window: its first call opens it, and no other opens one. */
  ghost predicate OneWindow(calls: seq<Call>, more: seq<Call>) {
    more != [] && forall k :: 0 <= k < |more| ==> (Opens(Run(calls + more[..k]).reg, more[k].now) <==> k == 0)
  }

  lemma OneWindowNext(calls: seq<Call>, more: seq<Call>, c: Call)
    requires more == [] || OneWindow(calls, more)
    requires Opens(Run(calls + more).reg, c.now) <==> more == []
    ensures OneWindow(calls, more + [c])
  {
    var more' := more + [c];
    hide Run, Opens;
    forall k | 0 <= k < |more'| ensures Opens(Run(calls + more'[..k]).reg, more'[k].now) <==> k == 0 {
      assert k < |more| ==> more'[..k] == more[..k];
      assert k == |more| ==> more'[..k] == more;
    }
  }

  /** The window opened with the hosts tracked before it. */
  lemma {:induction false} OpeningIsKept(calls: seq<Call>, more: seq<Call>)
    requires OneWindow(calls, more)
    ensures Run(calls + more).opening == |Run(calls).reg.seen|
    decreases |more|
  {
    assert more != [];
    hide *;
    var front, last := more[..|more| - 1], more[|more| - 1];
    OneWindowFront(calls, more);
    OpeningAfter(calls + front, last);
    if front != [] {
      OpeningIsKept(calls, front);
    }
  }

  lemma OneWindowFront(calls: seq<Call>, more: seq<Call>)
    requires OneWindow(calls, more)
    ensures var front, last := more[..|more| - 1], more[|more| - 1];
      && (calls + front) + [last] == calls + more
      && (Opens(Run(calls + front).reg, last.now) <==> front == [])
      && (if front == [] then calls + front == calls else OneWindow(calls, front))
  {
    hide Run, Opens;
    var n := |more| - 1;
    var front := more[..n];
    assert (calls + front) + [more[n]] == calls + more;
    forall k | 0 <= k < n ensures Opens(Run(calls + front[..k]).reg, front[k].now) <==> k == 0 {
      assert front[..k] == more[..k];
    }
  }

  lemma OpeningAfter(calls: seq<Call>, c: Call)
    ensures Run(calls + [c]).opening == if Opens(Run(calls).reg, c.now) then |Run(calls).reg.seen| else Run(calls).opening
  {
    assert (calls + [c])[..|calls|] == calls;
    hide RollWindow, After, Events, Opens;
  }

  /** The window that began at `start` with `j` rewarns and `i` warns, or is about to begin. */
  ghost predicate Begun(h: History, start: int, j: nat, i: nat, underWay: bool) {
    if underWay then
      && h.reg.windowStart == Some(start) && h.reg.warnsEmitted == i
      && Count(h.window, Rewarned) == j && Count(h.window, Warned) == i
    else
      && j == 0 && i == 0 && Opens(h.reg, start)
      && (h.reg.windowStart.None? ==> h.window == [] && h.reg.warnsEmitted == 0)
  }

  lemma RollInto(h: History, start: int, j: nat, i: nat, underWay: bool)
    requires Begun(h, start, j, i, underWay)
    ensures var rolled := RollWindow(h.reg, start).0;
      rolled.seen == h.reg.seen && rolled.windowStart == Some(start) && rolled.warnsEmitted == i
    ensures Opens(h.reg, start) <==> !underWay
    ensures !underWay && !RollsOver(h.reg, start) ==> h.window == []
  {}

  /** One warn of either kind is counted. */
  lemma WarnCounts(h: History, c: Call, j: nat, i: nat, underWay: bool)
    requires Begun(h, c.now, j, i, underWay) && Warns(KindOf(RollWindow(h.reg, c.now).0, c))
    ensures var rewarn := KindOf(RollWindow(h.reg, c.now).0, c) == Rewarned;
      Begun(Advance(h, c), c.now, if rewarn then j + 1 else j, if rewarn then i else i + 1, true)
  {
    RollInto(h, c.now, j, i, underWay);
    AdvanceCounts(h, c, Rewarned);
    AdvanceCounts(h, c, Warned);
    AdvanceShape(h, c);
    DecideCounts(RollWindow(h.reg, c.now).0, c);
    hide Events, Decide, Advance, RollWindow, KindOf;
    assert h.window == [] ==> Count(h.window, Rewarned) == 0 && Count(h.window, Warned) == 0;
  }

  /** Hosts in `left` may be warned about again; all others were stamped in this window. */
  ghost predicate Due(seen: map<string, int>, left: set<string>, start: int) {
    && left <= seen.Keys
    && forall x :: x in seen ==> if x in left then start - seen[x] >= WINDOW else seen[x] == start
  }

  /** `more` fills the window that begins at `start` behind `calls`. */
  ghost predicate Filling(calls: seq<Call>, more: seq<Call>, start: int, left: set<string>, j: nat, i: nat) {
    && Legal(calls + more) && (calls + more != [] ==> (calls + more)[|calls + more| - 1].now <= start)
    && (more == [] || OneWindow(calls, more))
    && Begun(Run(calls + more), start, j, i, more != []) && Due(Run(calls + more).reg.seen, left, start)
  }

  lemma FillNext(calls: seq<Call>, more: seq<Call>, c: Call, left: set<string>, j: nat, i: nat,
                 left': set<string>, j': nat, i': nat)
    requires Filling(calls, more, c.now, left, j, i) && Callable(RollWindow(Run(calls + more).reg, c.now).0, c)
    requires Begun(Advance(Run(calls + more), c), c.now, j', i', true)
    requires Due(Advance(Run(calls + more), c).reg.seen, left', c.now)
    ensures Filling(calls, more + [c], c.now, left', j', i')
  {
    hide *;
    FillingMeans(calls, more, c.now, left, j, i);
    RollInto(Run(calls + more), c.now, j, i, more != []);
    RunNext(calls + more, c);
    OneWindowNext(calls, more, c);
    FillingHolds(calls, more, c, left', j', i');
  }

  lemma FillingMeans(calls: seq<Call>, more: seq<Call>, start: int, left: set<string>, j: nat, i: nat)
    requires Filling(calls, more, start, left, j, i)
    ensures Legal(calls + more) && (calls + more != [] ==> (calls + more)[|calls + more| - 1].now <= start)
    ensures more == [] || OneWindow(calls, more)
    ensures Begun(Run(calls + more), start, j, i, more != []) && Due(Run(calls + more).reg.seen, left, start)
  {}

  lemma FillingHolds(calls: seq<Call>, more: seq<Call>, c: Call, left: set<string>, j: nat, i: nat)
    requires Legal((calls + more) + [c]) && OneWindow(calls, more + [c])
    requires var h := Run((calls + more) + [c]); Begun(h, c.now, j, i, true) && Due(h.reg.seen, left, c.now)
    ensures Filling(calls, more + [c], c.now, left, j, i)
  {
    hide Begun, Due, OneWindow, Legal, Run;
    assert calls + (more + [c]) == (calls + more) + [c];
  }

  /** A host due for another warn gets one. */
  lemma HostReturns(h: History, x: string, start: int, left: set<string>, j: nat, underWay: bool)
    requires Begun(h, start, j, 0, underWay) && Due(h.reg.seen, left, start) && x in left
    ensures var c := Call(x, start, "");
      && Callable(RollWindow(h.reg, start).0, c)
      && Begun(Advance(h, c), start, j + 1, 0, true) && Due(Advance(h, c).reg.seen, left - {x}, start)
  {
    var c := Call(x, start, "");
    RollInto(h, start, j, 0, underWay);
    RewarnIsNotBudgeted(RollWindow(h.reg, start).0, c);
    AdvanceShape(h, c);
    hide RollWindow, Decide, KindOf, Advance, Begun;
    WarnCounts(h, c, j, 0, underWay);
  }

  lemma OneReturns(calls: seq<Call>, more: seq<Call>, start: int, left: set<string>, j: nat, x: string)
    requires Filling(calls, more, start, left, j, 0) && x in left
    ensures Filling(calls, more + [Call(x, start, "")], start, left - {x}, j + 1, 0)
  {
    hide *;
    FillingMeans(calls, more, start, left, j, 0);
    HostReturns(Run(calls + more), x, start, left, j, more != []);
    FillNext(calls, more, Call(x, start, ""), left, j, 0, left - {x}, j + 1, 0);
  }

  lemma {:induction false} AllReturn(calls: seq<Call>, more: seq<Call>, start: int, left: set<string>, j: nat) returns (more': seq<Call>)
    requires Filling(calls, more, start, left, j, 0)
    ensures Filling(calls, more', start, {}, j + |left|, 0)
    decreases |left|
  {
    hide *;
    if left == {} {
      more' := more;
    } else {
      var x :| x in left;
      OneReturns(calls, more, start, left, j, x);
      more' := AllReturn(calls, more + [Call(x, start, "")], start, left - {x}, j + 1);
    }
  }

  lemma {:induction false} LongerThanAll(names: set<string>) returns (k: nat)
    ensures forall x :: x in names ==> |x| < k
    decreases |names|
  {
    if names == {} {
      k := 0;
    } else {
      var x :| x in names;
      var rest := LongerThanAll(names - {x});
      k := Max(rest, |x| + 1);
    }
  }

  lemma FreshName(names: set<string>) returns (name: string)
    ensures name !in names
  {
    var k := LongerThanAll(names);
    name := seq(k, i => 'h');
    assert |name| == k;
  }

  /** The budget still holds a warn for a host that is not tracked, whoever has to make room. */
  lemma StrangerEnters(h: History, start: int, j: nat, i: nat, underWay: bool) returns (c: Call)
    requires Begun(h, start, j, i, underWay) && Due(h.reg.seen, {}, start) && i < MAX_WARNS
    ensures c.now == start && Callable(RollWindow(h.reg, start).0, c)
    ensures Begun(Advance(h, c), start, j, i + 1, true) && Due(Advance(h, c).reg.seen, {}, start)
  {
    var name := FreshName(h.reg.seen.Keys);
    var oldest := "";
    if |h.reg.seen| >= MAX_TRACKED {
      var x :| x in h.reg.seen.Keys;
      oldest := x;
    }
    c := Call(name, start, oldest);
    RollInto(h, start, j, i, underWay);
    StrangerDecides(RollWindow(h.reg, start).0, c);
    AdvanceShape(h, c);
    hide RollWindow, Decide, KindOf, Advance, Begun, Callable;
    WarnCounts(h, c, j, i, underWay);
  }

  lemma StrangerDecides(rolled: Registry, c: Call)
    requires c.host !in rolled.seen && rolled.warnsEmitted < MAX_WARNS && Due(rolled.seen, {}, c.now)
    requires |rolled.seen| >= MAX_TRACKED ==> c.oldest in rolled.seen
    ensures Callable(rolled, c) && KindOf(rolled, c) == Warned && Due(Decide(rolled, c).seen, {}, c.now)
  {}

  lemma OneEnters(calls: seq<Call>, more: seq<Call>, start: int, j: nat, i: nat) returns (c: Call)
    requires Filling(calls, more, start, {}, j, i) && i < MAX_WARNS
    ensures Filling(calls, more + [c], start, {}, j, i + 1)
  {
    hide *;
    FillingMeans(calls, more, start, {}, j, i);
    c := StrangerEnters(Run(calls + more), start, j, i, more != []);
    FillNext(calls, more, c, {}, j, i, {}, j, i + 1);
  }

  lemma {:induction false} StrangersEnter(calls: seq<Call>, more: seq<Call>, start: int, j: nat, i: nat) returns (more': seq<Call>)
    requires Filling(calls, more, start, {}, j, i) && i <= MAX_WARNS
    ensures Filling(calls, more', start, {}, j, MAX_WARNS)
    decreases MAX_WARNS - i
  {
    hide *;
    if i == MAX_WARNS {
      more' := more;
    } else {
      var c := OneEnters(calls, more, start, j, i);
      more' := StrangersEnter(calls, more + [c], start, j, i + 1);
    }
  }

  /** A window's length after the last call everything tracked is due. */
  lemma NextBegins(calls: seq<Call>, start: int)
    requires Legal(calls) && (calls != [] ==> start == calls[|calls| - 1].now + WINDOW)
    ensures Filling(calls, [], start, Run(calls).reg.seen.Keys, 0, 0)
  {
    assert WINDOW > 0;
    hide *;
    WarnsAreApart(calls);
    BudgetHolds(calls);
    if calls == [] {
      NothingIsDue(start);
    } else {
      AllAreDue(Run(calls), calls[|calls| - 1].now, start);
    }
    FillingStarts(calls, start);
  }

  lemma NothingIsDue(start: int)
    ensures Begun(START, start, 0, 0, false) && Due(START.reg.seen, START.reg.seen.Keys, start)
  {}

  lemma AllAreDue(h: History, now: int, start: int)
    requires Remembered(h, now) && h.reg.windowStart.Some? && h.reg.windowStart.value <= now && start == now + WINDOW
    ensures Begun(h, start, 0, 0, false) && Due(h.reg.seen, h.reg.seen.Keys, start)
  {
    hide Apart, Remembers, NotAfter;
  }

  lemma FillingStarts(calls: seq<Call>, start: int)
    requires Legal(calls) && (calls != [] ==> calls[|calls| - 1].now <= start)
    requires Begun(Run(calls), start, 0, 0, false) && Due(Run(calls).reg.seen, Run(calls).reg.seen.Keys, start)
    ensures Filling(calls, [], start, Run(calls).reg.seen.Keys, 0, 0)
  {
    hide Legal, Run, Begun, Due, OneWindow;
    assert calls + [] == calls;
  }

  /** What `Filling` says of a full window. */
  lemma FilledWindow(calls: seq<Call>, more: seq<Call>, start: int, j: nat)
    requires Filling(calls, more, start, {}, j, MAX_WARNS)
    ensures Legal(calls + more) && OneWindow(calls, more) && WarnsOf(Run(calls + more).window) == j + MAX_WARNS
  {
    hide OneWindow, Legal, Run, Count, Due;
  }

  /** From every reachable registry the next window can warn about everything tracked and about 64
      strangers. */
  lemma EveryOpeningOvershoots(calls: seq<Call>) returns (more: seq<Call>)
    requires Legal(calls)
    ensures Legal(calls + more) && OneWindow(calls, more)
    ensures WarnsOf(Run(calls + more).window) == |Run(calls).reg.seen| + MAX_WARNS
  {
    var start := if calls == [] then 0 else calls[|calls| - 1].now + WINDOW;
    hide *;
    NextBegins(calls, start);
    var left := Run(calls).reg.seen.Keys;
    more := AllReturn(calls, [], start, left, 0);
    more := StrangersEnter(calls, more, start, |left|, 0);
    FilledWindow(calls, more, start, |left|);
    assert |left| == |Run(calls).reg.seen|;
  }

  /** However the window that opens after `calls` fills, it warns at most `n` times. */
  ghost predicate NextWarnsAtMost(calls: seq<Call>, n: nat) {
    forall more :: Legal(calls + more) && OneWindow(calls, more) ==> WarnsOf(Run(calls + more).window) <= n
  }

  /** The exact bound: at every point of every run, the window that opens next warns at most 64
      times more than hosts are tracked then, and no smaller number will do. */
  lemma NextWindowBound(calls: seq<Call>, n: nat)
    requires Legal(calls)
    ensures NextWarnsAtMost(calls, n) <==> n >= |Run(calls).reg.seen| + MAX_WARNS
  {
    hide Legal, Run, OneWindow, WarnsOf;
    var tight := EveryOpeningOvershoots(calls);
    forall more | Legal(calls + more) && OneWindow(calls, more)
      ensures WarnsOf(Run(calls + more).window) <= |Run(calls).reg.seen| + MAX_WARNS
    {
      WarnsPerWindow(calls + more);
      OpeningIsKept(calls, more);
    }
  }

  /** The documented 64 per window is kept by the next window exactly when nothing is tracked as it
      opens, and that is the first window only. */
  lemma SixtyFourIffNothingTracked(calls: seq<Call>)
    requires Legal(calls)
    ensures NextWarnsAtMost(calls, MAX_WARNS) <==> Run(calls).reg.seen == map[]
    ensures Run(calls).reg.seen == map[] <==> calls == []
  {
    hide NextWarnsAtMost;
    NextWindowBound(calls, MAX_WARNS);
    if calls != [] {
      var front, last := calls[..|calls| - 1], calls[|calls| - 1];
      assert last.host in Run(calls).reg.seen;
    }
  }

  /** Any number of hosts up to the limit can be tracked. */
  lemma {:induction false} Track(k: nat) returns (calls: seq<Call>)
    requires k <= MAX_TRACKED
    ensures Legal(calls) && |Run(calls).reg.seen| == k
    ensures forall c :: c in calls ==> c.now == 0
  {
    if k == 0 {
      calls := [];
    } else {
      var front := Track(k - 1);
      var name := FreshName(Run(front).reg.seen.Keys);
      var c := Call(name, 0, "");
      NewcomerIsTracked(Run(front).reg, c);
      hide Legal, Run, Callable, After, RollWindow;
      RunNext(front, c);
      calls := front + [c];
    }
  }

  lemma NewcomerIsTracked(r: Registry, c: Call)
    requires c.host !in r.seen && |r.seen| < MAX_TRACKED
    ensures Callable(RollWindow(r, c.now).0, c) && |After(r, c).seen| == |r.seen| + 1
  {
    assert r.seen[c.host := c.now].Keys == r.seen.Keys + {c.host};
  }

  /** So the largest number of warns any window can have is 64 plus the tracking limit. */
  lemma BoundIsAttained()
    ensures exists calls :: Legal(calls) && WarnsOf(Run(calls).window) == MAX_TRACKED + MAX_WARNS > MAX_WARNS
  {
    hide Legal, Run, OneWindow, WarnsOf;
    var calls := Track(MAX_TRACKED);
    var more := EveryOpeningOvershoots(calls);
    assert WarnsOf(Run(calls + more).window) == MAX_TRACKED + MAX_WARNS;
  }

  // ---------------------------------------------------------------- the registry itself

  lemma OldestExists(seen: map<string, int>)
    requires seen != map[]
    ensures exists h :: IsOldest(seen, h)
    decreases |seen|
  {
    var h :| h in seen;
    var rest := seen - {h};
    assert forall x :: x in seen ==> x == h || (x in rest && rest[x] == seen[x]);
    if rest == map[] {
      assert IsOldest(seen, h);
    } else {
      assert rest.Keys == seen.Keys - {h};
      OldestExists(rest);
      var o :| IsOldest(rest, o);
      assert seen[o] <= seen[h] ==> IsOldest(seen, o);
      assert seen[h] <= seen[o] ==> IsOldest(seen, h);
    }
  }

  class HostRejectLog {
    var seen: map<string, int>
    var windowStart: Option<int>
    var warnsEmitted: nat
    var suppressed: Option<string>
    var suppressedTotal: nat

    function Value(): Registry
      reads this
    {
      Registry(seen, windowStart, warnsEmitted, suppressed, suppressedTotal)
    }

    constructor ()
      ensures Value() == EMPTY
    {
      seen, windowStart, warnsEmitted, suppressed, suppressedTotal := map[], None, 0, None, 0;
    }

    method RollTo(now: int) returns (summary: Option<Summary>)
      modifies this
      ensures (Value(), summary) == RollWindow(old(Value()), now)
    {
      if windowStart.None? {
        windowStart := Some(now);
        return None;
      }
      if now - windowStart.value < WINDOW {
        return None;
      }
      var first, total := suppressed, suppressedTotal;
      suppressed, suppressedTotal, warnsEmitted := None, 0, 0;
      windowStart := Some(now);
      summary := if first.Some? then Some(Summary(total, first.value)) else None;
    }

    /** Whether this rejection warns.  Among equally old entries any may be evicted. */
    method ShouldWarn(host: string, now: int) returns (warn: bool, summary: Option<Summary>, ghost oldest: string)
      modifies this
      ensures var rolled := RollWindow(old(Value()), now).0;
        var c := Call(host, now, oldest);
        && Callable(rolled, c) && Value() == Decide(rolled, c)
        && (warn <==> Warns(KindOf(rolled, c)))
      ensures summary == RollWindow(old(Value()), now).1
      ensures forall h, g :: h in old(seen) && h !in seen && g in old(seen) ==> old(seen[h]) <= old(seen[g])
      ensures |old(seen)| < 1024 ==> old(seen).Keys <= seen.Keys
    {
      oldest := "";
      summary := RollTo(now);
      if host in seen {
        if now - seen[host] < WINDOW {
          return false, summary, oldest;
        }
        seen := seen[host := now];
        return true, summary, oldest;
      }
      if |seen| >= MAX_TRACKED {
        assert seen != map[];
        OldestExists(seen);
        var h :| h in seen && forall g :: g in seen ==> seen[h] <= seen[g];
        oldest := h;
        seen := seen - {h};
      }
      seen := seen[host := now];
      if warnsEmitted >= MAX_WARNS {
        suppressed := if suppressed.Some? then suppressed else Some(host);
        suppressedTotal := suppressedTotal + 1;
        return false, summary, oldest;
      }
      warnsEmitted := warnsEmitted + 1;
      warn := true;
    }
  }
}
