/** What the probe daemon promises about one proxy, over whole runs. */
module ProbeTheorems {
  import opened Prelude
  import opened ProxyRows
  import opened Schemes
  import opened ProbeCycle

  // ---------------------------------------------------------------- charges

  function Hits(v: Option<Check>, o: Outcome): nat {
    if v.Some? && v.value.outcome == o then 1 else 0
  }

  /** Steps a passage puts on the fail counter. */
  function FailSteps(t: Passage): nat {
    Hits(t.queue.verdict, Failed) + Hits(t.sample.verdict, Failed) + Hits(t.tunnel.verdict, Failed)
  }

  /** Steps a passage takes on the quarantine ladder. */
  function LadderSteps(t: Passage): nat {
    Hits(t.revival.verdict, Failed) + Hits(t.recheck.verdict, Failed)
  }

  /** At most one charge per undisturbed cycle, on the counter or on the ladder and never on both;
      and the row shows exactly the charge it got. */
  lemma AtMostOneCharge(c: Config, now: int, t: Passage)
    requires PassageOk(c, now, t) && Smooth(t)
    ensures FailSteps(t) + LadderSteps(t) <= 1
    ensures var p, q := t.revival.drawn, t.tunnel.left;
      && q.failCount <= p.failCount + FailSteps(t)
      && (q.status == Quarantine && p.status != Quarantine ==> FailSteps(t) == 1 && q.failCount >= c.failLimit)
      && (q.status == Removed && p.status != Removed ==> LadderSteps(t) == 1)
  {
    LadderLanesSettle(c, now, t);
    RegularLanesSettle(c, now, t);
  }

  /** After the two quarantine passes: a failed row is out of reach of the other three. */
  lemma LadderLanesSettle(c: Config, now: int, t: Passage)
    requires PassageOk(c, now, t) && Smooth(t)
    ensures LadderSteps(t) <= 1
    ensures var p, q := t.revival.drawn, t.queue.drawn;
      && q.failCount <= p.failCount
      && (q.status == Quarantine ==> p.status == Quarantine)
      && (q.status == Removed && p.status != Removed ==> LadderSteps(t) == 1)
      && (LadderSteps(t) == 1 ==> q.status == Quarantine || q.status == Removed)
  {
    hide LastFailedKind, Edited;
  }

  lemma RegularLanesSettle(c: Config, now: int, t: Passage)
    requires PassageOk(c, now, t) && Smooth(t)
    ensures FailSteps(t) <= 1
    ensures var p, q := t.queue.drawn, t.tunnel.left;
      && (p.status == Quarantine || p.status == Removed ==> FailSteps(t) == 0 && q == p)
      && q.failCount <= p.failCount + FailSteps(t)
      && (q.status == Quarantine && p.status != Quarantine ==> FailSteps(t) == 1 && q.failCount >= c.failLimit)
      && (q.status == Removed ==> p.status == Removed)
  {
    SmoothIsShaped(t);
    EachKindOnce(c, now, t);
    hide StageOk, Shaped, Eligible, EditShape;
    RegularStage(c, Queue, now, t.queue);
    RegularStage(c, Sample, now, t.sample);
    RegularStage(c, Tunnel, now, t.tunnel);
    MovesAdd(c, t.queue.drawn, t.queue.left, t.sample.left, Hits(t.queue.verdict, Failed), Hits(t.sample.verdict, Failed));
    MovesAdd(c, t.queue.drawn, t.sample.left, t.tunnel.left, Hits(t.queue.verdict, Failed) + Hits(t.sample.verdict, Failed),
             Hits(t.tunnel.verdict, Failed));
  }

  lemma SmoothIsShaped(t: Passage)
    requires Smooth(t)
    ensures Shaped(t)
  {}

  /** A regular lane leaves a row on the ladder or past it alone, and retires none. */
  lemma RegularStage(c: Config, lane: Lane, now: int, t: Stage)
    requires StageOk(c, lane, now, t) && t.judged == t.drawn && !LadderLane(lane)
    ensures t.drawn.status == Quarantine || t.drawn.status == Removed ==> t.verdict.None? && t.left == t.drawn
    ensures t.left.status == Removed ==> t.drawn.status == Removed
    ensures Moves(c, t.drawn, t.left, Hits(t.verdict, Failed))
  {
    StageMoves(c, lane, now, t);
    hide LastFailedKind, Moves;
  }

  // ---------------------------------------------------------------- charges among other writers

  /** An edit that puts a row back in reach of the regular lanes. */
  predicate Reopens(p: Proxy, q: Proxy) { (p.status == Quarantine || p.status == Removed) && q.status == Unknown }

  /** Somewhere between the ladder passes and the tunnel batch such an edit hit the row. */
  predicate Reopened(t: Passage) {
    || Reopens(t.revival.drawn, t.revival.judged) || Reopens(t.revival.left, t.recheck.drawn)
    || Reopens(t.recheck.drawn, t.recheck.judged) || Reopens(t.recheck.left, t.queue.drawn)
    || Reopens(t.queue.drawn, t.queue.judged) || Reopens(t.queue.left, t.sample.drawn)
    || Reopens(t.sample.drawn, t.sample.judged) || Reopens(t.sample.left, t.tunnel.drawn)
    || Reopens(t.tunnel.drawn, t.tunnel.judged)
  }

  /** The shapes of all edits along a passage. */
  predicate Shaped(t: Passage) {
    && EditShape(t.revival.drawn, t.revival.judged) && EditShape(t.recheck.drawn, t.recheck.judged)
    && EditShape(t.queue.drawn, t.queue.judged) && EditShape(t.sample.drawn, t.sample.judged)
    && EditShape(t.tunnel.drawn, t.tunnel.judged)
    && EditShape(t.revival.left, t.recheck.drawn) && EditShape(t.recheck.left, t.queue.drawn)
    && EditShape(t.queue.left, t.sample.drawn) && EditShape(t.sample.left, t.tunnel.drawn)
  }

  lemma MeddledShape(t: Passage, pruning: bool)
    requires Meddled(t, pruning)
    ensures Shaped(t)
  {
    hide Edited, EditShape;
    EditedShape(t.revival.drawn, t.revival.judged, pruning);
    EditedShape(t.recheck.drawn, t.recheck.judged, pruning);
    EditedShape(t.queue.drawn, t.queue.judged, pruning);
    EditedShape(t.sample.drawn, t.sample.judged, pruning);
    EditedShape(t.tunnel.drawn, t.tunnel.judged, pruning);
    EditedShape(t.revival.left, t.recheck.drawn, pruning);
    EditedShape(t.recheck.left, t.queue.drawn, pruning);
    EditedShape(t.queue.left, t.sample.drawn, pruning);
    EditedShape(t.sample.left, t.tunnel.drawn, pruning);
  }

  /** From `p` to `q` with `n` steps on the counter: no step appears from nowhere, and a row new in
      quarantine got there by a step that brought the counter to the limit. */
  predicate Moves(c: Config, p: Proxy, q: Proxy, n: nat) {
    && q.scheme == p.scheme && q.failCount <= p.failCount + n
    && (q.status == Quarantine ==>
          (p.status == Quarantine && q.failCount == p.failCount) || (n >= 1 && q.failCount >= c.failLimit))
  }

  lemma MovesAdd(c: Config, p: Proxy, q: Proxy, r: Proxy, n: nat, m: nat)
    requires Moves(c, p, q, n) && Moves(c, q, r, m)
    ensures Moves(c, p, r, n + m)
  {}

  lemma EditMoves(c: Config, p: Proxy, q: Proxy)
    requires EditShape(p, q)
    ensures Moves(c, p, q, 0)
  {}

  function CounterHits(lane: Lane, t: Stage): nat { if LadderLane(lane) then 0 else Hits(t.verdict, Failed) }

  lemma JudgeMoves(c: Config, lane: Lane, p: Proxy, x: Check)
    ensures Moves(c, p, Judge(c, lane, p, x), if !LadderLane(lane) && x.outcome == Failed then 1 else 0)
  {
    hide LastFailedKind;
  }

  lemma StageMoves(c: Config, lane: Lane, now: int, t: Stage)
    requires StageOk(c, lane, now, t) && EditShape(t.drawn, t.judged)
    ensures Moves(c, t.drawn, t.left, CounterHits(lane, t))
  {
    EditMoves(c, t.drawn, t.judged);
    hide EditShape, Judge;
    if t.verdict.Some? {
      JudgeMoves(c, lane, t.judged, t.verdict.value);
      MovesAdd(c, t.drawn, t.judged, t.left, 0, CounterHits(lane, t));
    }
  }

  /** Schemes split the ladder passes, hand-offs and the statuses split the others. */
  lemma EachKindOnce(c: Config, now: int, t: Passage)
    requires PassageOk(c, now, t) && Shaped(t)
    ensures FailSteps(t) <= 1 && LadderSteps(t) <= 1
  {
    LadderOnce(c, now, t);
    QueueKeepsFromTunnel(c, now, t);
    hide StageOk, EditShape;
  }

  lemma LadderOnce(c: Config, now: int, t: Passage)
    requires PassageOk(c, now, t) && Shaped(t)
    ensures LadderSteps(t) <= 1
  {
    hide StageOk, EditShape;
    if t.revival.verdict.Some? {
      RevivedRowsAreNotRechecked(c, now, t);
    }
  }

  /** A row that a direct check has failed and nobody but the tunnel lane has judged since. */
  predicate OffTunnel(p: Proxy) { p.status != Alive && p.status != Ready && p.scheme != Hysteria2 }

  lemma EditKeepsOffTunnel(p: Proxy, q: Proxy)
    requires EditShape(p, q) && OffTunnel(p)
    ensures OffTunnel(q)
  {}

  lemma QueueFailureIsOffTunnel(c: Config, now: int, t: Stage)
    requires StageOk(c, Queue, now, t) && EditShape(t.drawn, t.judged) && Hits(t.verdict, Failed) == 1
    ensures OffTunnel(t.left)
  {
    EditKeepsOffTunnel(t.drawn, t.judged);
    hide EditShape, LastFailedKind;
  }

  lemma TunnelSkips(c: Config, now: int, t: Stage)
    requires StageOk(c, Tunnel, now, t) && OffTunnel(t.drawn)
    ensures t.verdict.None?
  {
    hide Judge;
  }

  lemma QueueKeepsFromTunnel(c: Config, now: int, t: Passage)
    requires PassageOk(c, now, t) && Shaped(t)
    ensures Hits(t.queue.verdict, Failed) + Hits(t.tunnel.verdict, Failed) <= 1
  {
    if Hits(t.queue.verdict, Failed) == 1 {
      assert t.sample.left == t.sample.judged;
      hide StageOk, EditShape, OffTunnel;
      QueueFailureIsOffTunnel(c, now, t.queue);
      EditKeepsOffTunnel(t.queue.left, t.sample.drawn);
      EditKeepsOffTunnel(t.sample.drawn, t.sample.judged);
      EditKeepsOffTunnel(t.sample.left, t.tunnel.drawn);
      TunnelSkips(c, now, t.tunnel);
    }
  }

  /** After a failed ladder check a row that nobody starts over stays out of reach. */
  predicate OutOfReach(p: Proxy) { p.status == Quarantine || p.status == Removed }

  lemma EditKeepsOutOfReach(p: Proxy, q: Proxy)
    requires EditShape(p, q) && OutOfReach(p) && !Reopens(p, q)
    ensures OutOfReach(q)
  {}

  lemma StageKeepsOutOfReach(c: Config, lane: Lane, now: int, t: Stage)
    requires StageOk(c, lane, now, t) && OutOfReach(t.drawn) && OutOfReach(t.judged) && !LadderLane(lane)
    ensures t.verdict.None? && OutOfReach(t.left)
  {}

  lemma FailedLadderIsOutOfReach(c: Config, lane: Lane, now: int, t: Stage)
    requires StageOk(c, lane, now, t) && EditShape(t.drawn, t.judged) && !Reopens(t.drawn, t.judged)
    requires LadderLane(lane) && Hits(t.verdict, Failed) == 1
    ensures OutOfReach(t.left)
  {
    hide LastFailedKind, Edited;
  }

  /** Both charges take an edit that starts the row over in between. */
  lemma BothTakeAReset(c: Config, now: int, t: Passage)
    requires PassageOk(c, now, t) && Shaped(t) && LadderSteps(t) == 1 && !Reopened(t)
    ensures FailSteps(t) == 0
  {
    hide StageOk, EditShape, Reopens, OutOfReach;
    if Hits(t.revival.verdict, Failed) == 1 {
      FailedLadderIsOutOfReach(c, Revival, now, t.revival);
      EditKeepsOutOfReach(t.revival.left, t.recheck.drawn);
      EditKeepsOutOfReach(t.recheck.drawn, t.recheck.judged);
      RevivedRowsAreNotRechecked(c, now, t);
    } else {
      FailedLadderIsOutOfReach(c, Recheck, now, t.recheck);
    }
    EditKeepsOutOfReach(t.recheck.left, t.queue.drawn);
    EditKeepsOutOfReach(t.queue.drawn, t.queue.judged);
    StageKeepsOutOfReach(c, Queue, now, t.queue);
    EditKeepsOutOfReach(t.queue.left, t.sample.drawn);
    EditKeepsOutOfReach(t.sample.drawn, t.sample.judged);
    StageKeepsOutOfReach(c, Sample, now, t.sample);
    EditKeepsOutOfReach(t.sample.left, t.tunnel.drawn);
    EditKeepsOutOfReach(t.tunnel.drawn, t.tunnel.judged);
    StageKeepsOutOfReach(c, Tunnel, now, t.tunnel);
  }

  lemma RevivedRowsAreNotRechecked(c: Config, now: int, t: Passage)
    requires PassageOk(c, now, t) && Shaped(t) && t.revival.verdict.Some?
    ensures t.recheck.verdict.None? && t.recheck.left == t.recheck.judged
  {
    StageMoves(c, Revival, now, t.revival);
    EditMoves(c, t.revival.left, t.recheck.drawn);
    hide Judge, EditShape;
  }

  /** The counter and the way into quarantine, edits or not. */
  lemma CounterMoves(c: Config, now: int, t: Passage)
    requires PassageOk(c, now, t) && Shaped(t)
    ensures Moves(c, t.revival.drawn, t.tunnel.drawn, Hits(t.queue.verdict, Failed) + Hits(t.sample.verdict, Failed))
    ensures Moves(c, t.revival.drawn, t.tunnel.left, FailSteps(t))
  {
    hide StageOk, EditShape, Moves, Hits;
    StageMoves(c, Revival, now, t.revival);
    EditMoves(c, t.revival.left, t.recheck.drawn);
    MovesAdd(c, t.revival.drawn, t.revival.left, t.recheck.drawn, 0, 0);
    StageMoves(c, Recheck, now, t.recheck);
    MovesAdd(c, t.revival.drawn, t.recheck.drawn, t.recheck.left, 0, 0);
    EditMoves(c, t.recheck.left, t.queue.drawn);
    MovesAdd(c, t.revival.drawn, t.recheck.left, t.queue.drawn, 0, 0);
    StageMoves(c, Queue, now, t.queue);
    var n := Hits(t.queue.verdict, Failed);
    MovesAdd(c, t.revival.drawn, t.queue.drawn, t.queue.left, 0, n);
    EditMoves(c, t.queue.left, t.sample.drawn);
    MovesAdd(c, t.revival.drawn, t.queue.left, t.sample.drawn, n, 0);
    StageMoves(c, Sample, now, t.sample);
    n := n + Hits(t.sample.verdict, Failed);
    MovesAdd(c, t.revival.drawn, t.sample.drawn, t.sample.left, n - Hits(t.sample.verdict, Failed), Hits(t.sample.verdict, Failed));
    EditMoves(c, t.sample.left, t.tunnel.drawn);
    MovesAdd(c, t.revival.drawn, t.sample.left, t.tunnel.drawn, n, 0);
    StageMoves(c, Tunnel, now, t.tunnel);
    MovesAdd(c, t.revival.drawn, t.tunnel.drawn, t.tunnel.left, n, Hits(t.tunnel.verdict, Failed));
  }

  // ---------------------------------------------------------------- other writers and runs

  datatype Turn = Probe(cycle: Cycle) | Edit(after: Pool)

  function After(c: Config, pool: Pool, turn: Turn): Pool {
    match turn
    case Probe(cy) => AfterCycle(c, cy)
    case Edit(q) => q
  }

  function AfterTurns(c: Config, pool: Pool, turns: seq<Turn>): Pool
    decreases |turns|
  {
    if turns == [] then pool else After(c, AfterTurns(c, pool, turns[..|turns| - 1]), turns[|turns| - 1])
  }

  /** A cycle that begins with `pool`, in which the proxy keeps its row and others edit it at will. */
  ghost predicate CycleAmong(c: Config, pool: Pool, cy: Cycle, id: int, pruning: bool) {
    CycleOk(cy) && cy.revival.drawn == pool && Keeps(cy, id) && Meddled(PassageOf(c, cy, id), pruning)
  }

  ghost predicate TurnOk(c: Config, pool: Pool, turn: Turn, id: int, pruning: bool) {
    match turn
    case Probe(cy) => id in pool ==> CycleAmong(c, pool, cy, id, pruning)
    case Edit(q) => id in pool ==> id in q && Edited(pool[id], q[id], pruning)
  }

  /** A run of cycles and edits, before, after and in the middle of cycles, in which the proxy
      `id` keeps its row. */
  ghost predicate RunOk(c: Config, pool: Pool, turns: seq<Turn>, id: int, pruning: bool)
    decreases |turns|
  {
    turns != [] ==>
      && RunOk(c, pool, turns[..|turns| - 1], id, pruning)
      && TurnOk(c, AfterTurns(c, pool, turns[..|turns| - 1]), turns[|turns| - 1], id, pruning)
  }

  function Cycles(turns: seq<Turn>): nat {
    if turns == [] then 0
    else Cycles(turns[..|turns| - 1]) + if turns[|turns| - 1].Probe? then 1 else 0
  }

  /** A proxy with a clean counter is not quarantined before `fail_limit` cycles have run,
      however the lanes drew and whatever was edited, between cycles or in the middle of one. */
  lemma {:induction false} QuarantineTakesFailLimitCycles(c: Config, pool: Pool, turns: seq<Turn>, id: int, pruning: bool)
    requires RunOk(c, pool, turns, id, pruning)
    requires id in pool && pool[id].failCount == 0 && pool[id].status != Quarantine
    ensures var after := AfterTurns(c, pool, turns);
      && id in after
      && after[id].failCount <= Cycles(turns)
      && (after[id].status == Quarantine ==> Cycles(turns) >= Max(1, c.failLimit))
  {
    if turns != [] {
      var front, last := turns[..|turns| - 1], turns[|turns| - 1];
      QuarantineTakesFailLimitCycles(c, pool, front, id, pruning);
      var before := AfterTurns(c, pool, front);
      hide CycleOk, Edited, EditShape, PassageOf, Meddled, Keeps;
      match last
      case Probe(cy) => OneChargePerCycle(c, before, cy, id, pruning);
      case Edit(after) => EditCounts(before[id], after[id], pruning);
    }
  }

  lemma EditCounts(p: Proxy, q: Proxy, pruning: bool)
    requires Edited(p, q, pruning)
    ensures q.failCount <= p.failCount && (q.status == Quarantine ==> p.status == Quarantine)
  {
    EditedShape(p, q, pruning);
  }

  /** Steps the lanes of a cycle put on the counter, and on the ladder, of one proxy. */
  function FailStepsOf(cy: Cycle, id: int): nat {
    Hits(VerdictOn(cy.queue.checks, id), Failed) + Hits(VerdictOn(cy.sample.checks, id), Failed) +
    Hits(VerdictOn(cy.tunnel.checks, id), Failed)
  }

  function LadderStepsOf(cy: Cycle, id: int): nat {
    Hits(VerdictOn(cy.revival.checks, id), Failed) + Hits(VerdictOn(cy.recheck.checks, id), Failed)
  }

  /** Whatever the lanes draw, whatever the checks come to and whatever the rest of the program
      does to the row meanwhile: a cycle puts at most one step on its counter and at most one on
      its ladder, and both only if it was started over in between. */
  lemma OneChargePerCycle(c: Config, pool: Pool, cy: Cycle, id: int, pruning: bool)
    requires CycleAmong(c, pool, cy, id, pruning)
    ensures FailStepsOf(cy, id) <= 1 && LadderStepsOf(cy, id) <= 1
    ensures FailStepsOf(cy, id) + LadderStepsOf(cy, id) == 2 ==> Reopened(PassageOf(c, cy, id))
    ensures id in pool && id in AfterCycle(c, cy)
    ensures var p, q := pool[id], AfterCycle(c, cy)[id];
      && q.failCount <= p.failCount + FailStepsOf(cy, id)
      && (q.status == Quarantine && p.status != Quarantine ==> FailStepsOf(cy, id) == 1 && q.failCount >= c.failLimit)
  {
    CycleMovesRow(c, cy, id);
    var t := PassageOf(c, cy, id);
    assert FailStepsOf(cy, id) == FailSteps(t) && LadderStepsOf(cy, id) == LadderSteps(t);
    hide CycleOk, PassageOk, AfterCycle, Reopened, Shaped;
    MeddledShape(t, pruning);
    hide Meddled;
    EachKindOnce(c, cy.now, t);
    CounterMoves(c, cy.now, t);
    if LadderSteps(t) == 1 && !Reopened(t) {
      BothTakeAReset(c, cy.now, t);
    }
  }

  /** One cycle that charges the row twice. */
  ghost predicate ChargesTwice(c: Config, now: int, p: Proxy, t: Passage) {
    PassageOk(c, now, t) && Meddled(t, false) && t.revival.drawn == p && FailSteps(t) == 1 && LadderSteps(t) == 1
  }

  /** A pass that leaves the row to itself. */
  function Idle(p: Proxy): Stage { Stage(p, p, p, None) }

  function Charged(c: Config, lane: Lane, p: Proxy, now: int): Stage {
    var v := Check(0, Failed, now, 0);
    Stage(p, p, Judge(c, lane, p, v), Some(v))
  }

  /** A row that is due can be charged on the ladder, started over, and charged on the counter. */
  lemma ResetBetweenLanesChargesTwice(c: Config, now: int, p: Proxy)
    requires Due(p, now) && p.scheme != Tuic && p.scheme != Mieru
    ensures exists t :: ChargesTwice(c, now, p, t)
  {
    if T2Revival(p.scheme) {
      TunnelChargesTwice(c, now, p);
    } else {
      DirectChargesTwice(c, now, p);
    }
  }

  lemma ChargedOk(c: Config, lane: Lane, p: Proxy, now: int)
    requires Eligible(lane, p, now)
    ensures StageOk(c, lane, now, Charged(c, lane, p, now))
  {
    hide Judge;
  }

  /** On the ladder by the revival lane, on the counter by the tunnel batch. */
  lemma TunnelChargesTwice(c: Config, now: int, p: Proxy)
    requires Due(p, now) && T2Revival(p.scheme)
    ensures exists t :: ChargesTwice(c, now, p, t)
  {
    var first := Charged(c, Revival, p, now);
    CanStartOver(first.left, false);
    var r :| Edited(first.left, r, false) && r.status == Unknown && Cleared(r) == r && r.linked && r.scheme == p.scheme;
    var t := Passage(first, Idle(r), Idle(r), Idle(r), Charged(c, Tunnel, r, now));
    hide Edited, LastFailedKind;
    ChargedOk(c, Revival, p, now);
    ChargedOk(c, Tunnel, r, now);
    hide Judge, Eligible;
    UntouchedIsEdited(p, false);
    UntouchedIsEdited(r, false);
    assert Meddled(t, false);
    hide Meddled, Cleared;
    assert ChargesTwice(c, now, p, t);
  }

  /** On the ladder by a direct recheck, on the counter by the sample. */
  lemma DirectChargesTwice(c: Config, now: int, p: Proxy)
    requires Due(p, now) && !T2Revival(p.scheme) && p.scheme != Tuic && p.scheme != Mieru
    ensures exists t :: ChargesTwice(c, now, p, t)
  {
    var first := Charged(c, Recheck, p, now);
    CanStartOver(first.left, false);
    var r :| Edited(first.left, r, false) && r.status == Unknown && Cleared(r) == r && r.linked && r.scheme == p.scheme;
    var last := Charged(c, Sample, r, now);
    var t := Passage(Idle(p), first, Idle(r), last, Idle(last.left));
    assert r.t2FailedAt == Cleared(r).t2FailedAt == None;
    hide Edited, LastFailedKind;
    ChargedOk(c, Recheck, p, now);
    ChargedOk(c, Sample, r, now);
    hide Judge, Eligible;
    UntouchedIsEdited(p, false);
    UntouchedIsEdited(r, false);
    UntouchedIsEdited(last.left, false);
    assert Meddled(t, false);
    hide Meddled, Cleared;
    assert ChargesTwice(c, now, p, t);
  }

  /** Exactly which rows a cycle can charge twice: those due for a ladder check at its start whose
      scheme a regular lane takes. */
  lemma ChargedTwiceIffDue(c: Config, now: int, p: Proxy)
    ensures (exists t :: ChargesTwice(c, now, p, t)) <==> Due(p, now) && p.scheme != Tuic && p.scheme != Mieru
  {
    if Due(p, now) && p.scheme != Tuic && p.scheme != Mieru {
      ResetBetweenLanesChargesTwice(c, now, p);
    }
    forall t | ChargesTwice(c, now, p, t) ensures Due(p, now) && p.scheme != Tuic && p.scheme != Mieru {
      MeddledShape(t, false);
      hide Meddled, Edited;
      LadderTakesDue(c, now, t);
      CounterTakesScheme(c, now, t);
    }
  }

  lemma LadderTakesDue(c: Config, now: int, t: Passage)
    requires PassageOk(c, now, t) && Shaped(t) && LadderSteps(t) == 1
    ensures Due(t.revival.drawn, now)
  {
    hide LastFailedKind, Edited;
    if Hits(t.revival.verdict, Failed) == 0 {
      assert Due(t.recheck.drawn, now) && !T2Revival(t.recheck.drawn.scheme);
      assert t.revival.verdict.None?;
    }
  }

  lemma CounterTakesScheme(c: Config, now: int, t: Passage)
    requires PassageOk(c, now, t) && Shaped(t) && FailSteps(t) >= 1
    ensures t.revival.drawn.scheme != Tuic && t.revival.drawn.scheme != Mieru
  {
    SchemeStays(c, now, t);
    RegularTakesScheme(c, Queue, now, t.queue);
    RegularTakesScheme(c, Sample, now, t.sample);
    RegularTakesScheme(c, Tunnel, now, t.tunnel);
    hide StageOk, EditShape;
  }

  lemma SchemeStays(c: Config, now: int, t: Passage)
    requires PassageOk(c, now, t) && Shaped(t)
    ensures t.revival.drawn.scheme == t.queue.drawn.scheme == t.sample.drawn.scheme == t.tunnel.drawn.scheme
  {
    StageMoves(c, Revival, now, t.revival);
    StageMoves(c, Recheck, now, t.recheck);
    StageMoves(c, Queue, now, t.queue);
    StageMoves(c, Sample, now, t.sample);
    hide StageOk;
  }

  lemma RegularTakesScheme(c: Config, lane: Lane, now: int, t: Stage)
    requires StageOk(c, lane, now, t) && !LadderLane(lane)
    ensures t.verdict.Some? ==> t.drawn.scheme != Tuic && t.drawn.scheme != Mieru
  {}

  /** The others edit the row of `id` and nothing else of it. */
  ghost predicate EditorsOf(others: (Lane, Pool) -> Pool, id: int, pruning: bool) {
    forall lane: Lane, pool: Pool :: id in pool ==> id in others(lane, pool) && Edited(pool[id], others(lane, pool)[id], pruning)
  }

  /** What the daemon runs is a turn of such a run, whoever else is at work on the pool; left
      alone, it is an undisturbed one. */
  lemma DaemonCycleIsATurn(c: Config, pool: Pool, cy: Cycle, others: (Lane, Pool) -> Pool, id: int, pruning: bool)
    requires CycleOk(cy) && Interleaved(c, pool, cy, others) && id in pool && EditorsOf(others, id, pruning)
    ensures CycleAmong(c, pool, cy, id, pruning)
    ensures (forall lane: Lane, p: Pool :: others(lane, p) == p) ==> Smooth(PassageOf(c, cy, id))
  {
    hide Edited, StageOk;
    LaneGivesStage(c, Revival, cy.now, {}, cy.revival, id);
    LaneGivesStage(c, Recheck, cy.now, {}, cy.recheck, id);
    LaneGivesStage(c, Queue, cy.now, {}, cy.queue, id);
    LaneGivesStage(c, Sample, cy.now, cy.queue.claimed, cy.sample, id);
    hide LaneOk, Left, JudgeMaybe;
    var t := PassageOf(c, cy, id);
    UntouchedIsEdited(t.revival.drawn, pruning);
    UntouchedIsEdited(t.recheck.drawn, pruning);
    UntouchedIsEdited(t.queue.drawn, pruning);
    UntouchedIsEdited(t.sample.drawn, pruning);
    UntouchedIsEdited(t.tunnel.drawn, pruning);
  }

  // ---------------------------------------------------------------- the ready tier

  /** `ready` means that the newest tunnel attempt succeeded (or, where old journal rows are
      pruned, that none is left). */
  ghost predicate TierOk(p: Proxy, pruning: bool) {
    p.status == Ready ==> LastT2(p.journal) == Some(true) || (pruning && LastT2(p.journal).None?)
  }

  lemma LastT2AfterOne(journal: seq<Attempt>, a: Attempt)
    ensures LastT2(journal + [a]) == if a.kind == T2 then Some(a.ok) else LastT2(journal)
  {
    assert (journal + [a])[..|journal|] == journal;
  }

  lemma JudgeKeepsTier(c: Config, lane: Lane, p: Proxy, x: Check, pruning: bool)
    requires TierOk(p, pruning) && (LadderLane(lane) ==> p.status != Ready)
    ensures TierOk(Judge(c, lane, p, x), pruning)
  {
    var entry := Attempt(if TunnelLane(lane) then T2 else T1, x.outcome == Passed);
    LastT2AfterOne(p.journal, entry);
    hide LastT2, LastFailedKind;
    assert Judge(c, lane, p, x).journal == p.journal + [entry];
  }

  lemma StageKeepsTier(c: Config, lane: Lane, now: int, t: Stage, pruning: bool)
    requires StageOk(c, lane, now, t) && TierOk(t.drawn, pruning) && Edited(t.drawn, t.judged, pruning)
    ensures TierOk(t.left, pruning)
  {
    EditKeepsTier(t.drawn, t.judged, pruning);
    EditedShape(t.drawn, t.judged, pruning);
    hide Edited, TierOk, Judge;
    if t.verdict.Some? {
      JudgeKeepsTier(c, lane, t.judged, t.verdict.value, pruning);
    }
  }

  lemma {:induction false} LastT2OfSuffix(journal: seq<Attempt>, k: nat)
    requires k <= |journal|
    ensures LastT2(journal[k..]) == LastT2(journal) || LastT2(journal[k..]).None?
  {
    if k < |journal| {
      var front := journal[..|journal| - 1];
      LastT2OfSuffix(front, k);
      assert journal[k..][..|journal| - k - 1] == front[k..];
    }
  }

  lemma CycleKeepsTier(c: Config, now: int, t: Passage, pruning: bool)
    requires PassageOk(c, now, t) && Meddled(t, pruning) && TierOk(t.revival.drawn, pruning)
    ensures TierOk(t.tunnel.left, pruning)
  {
    hide TierOk, StageOk, Edited;
    StageKeepsTier(c, Revival, now, t.revival, pruning);
    EditKeepsTier(t.revival.left, t.recheck.drawn, pruning);
    StageKeepsTier(c, Recheck, now, t.recheck, pruning);
    EditKeepsTier(t.recheck.left, t.queue.drawn, pruning);
    StageKeepsTier(c, Queue, now, t.queue, pruning);
    EditKeepsTier(t.queue.left, t.sample.drawn, pruning);
    StageKeepsTier(c, Sample, now, t.sample, pruning);
    EditKeepsTier(t.sample.left, t.tunnel.drawn, pruning);
    StageKeepsTier(c, Tunnel, now, t.tunnel, pruning);
  }

  lemma OneEditKeepsTier(p: Proxy, e: ProxyRows.Edit, pruning: bool)
    requires CanEdit(p, e) && (e.Prune? ==> pruning) && TierOk(p, pruning)
    ensures TierOk(ApplyEdit(p, e), pruning)
  {
    if e.Prune? {
      LastT2OfSuffix(p.journal, e.k);
    }
  }

  lemma {:induction false} EditsKeepTier(p: Proxy, edits: seq<ProxyRows.Edit>, q: Proxy, pruning: bool)
    requires EditedBy(p, edits, q, pruning) && TierOk(p, pruning)
    ensures TierOk(q, pruning)
    decreases |edits|
  {
    if edits != [] {
      OneEditKeepsTier(p, edits[0], pruning);
      EditsKeepTier(ApplyEdit(p, edits[0]), edits[1..], q, pruning);
    }
  }

  lemma EditKeepsTier(p: Proxy, q: Proxy, pruning: bool)
    requires Edited(p, q, pruning) && TierOk(p, pruning)
    ensures TierOk(q, pruning)
  {
    var edits :| EditedBy(p, edits, q, pruning);
    EditsKeepTier(p, edits, q, pruning);
  }

  /** In every run of cycles and edits, in the middle of cycles too, a `ready` proxy's newest
      tunnel attempt succeeded. */
  lemma {:induction false} ReadyMeansVerified(c: Config, pool: Pool, turns: seq<Turn>, id: int, pruning: bool)
    requires RunOk(c, pool, turns, id, pruning) && id in pool && TierOk(pool[id], pruning)
    ensures id in AfterTurns(c, pool, turns) && TierOk(AfterTurns(c, pool, turns)[id], pruning)
  {
    if turns != [] {
      var front, last := turns[..|turns| - 1], turns[|turns| - 1];
      ReadyMeansVerified(c, pool, front, id, pruning);
      var before := AfterTurns(c, pool, front);
      match last
      case Probe(cy) =>
        CycleMovesRow(c, cy, id);
        hide Meddled, PassageOk, CycleOk, Keeps, TierOk;
        CycleKeepsTier(c, cy.now, PassageOf(c, cy, id), pruning);
      case Edit(after) =>
        EditKeepsTier(before[id], after[id], pruning);
    }
  }

  // ---------------------------------------------------------------- verdict counts over a run

  /** How often the run judged `id` with outcome `o`. */
  function Count(turns: seq<Turn>, id: int, o: Outcome): nat {
    if turns == [] then 0
    else
      Count(turns[..|turns| - 1], id, o) +
      match turns[|turns| - 1]
      case Edit(_) => 0
      case Probe(cy) => CountIn(cy, id, o)
  }

  function CountIn(cy: Cycle, id: int, o: Outcome): nat {
    Hits(VerdictOn(cy.revival.checks, id), o) + Hits(VerdictOn(cy.recheck.checks, id), o) +
    Hits(VerdictOn(cy.queue.checks, id), o) + Hits(VerdictOn(cy.sample.checks, id), o) +
    Hits(VerdictOn(cy.tunnel.checks, id), o)
  }

  /** Nobody but the probe daemon touches the row of `id`. */
  ghost predicate Unedited(c: Config, turns: seq<Turn>, id: int) {
    forall t :: t in turns ==> t.Probe? && Keeps(t.cycle, id) && Smooth(PassageOf(c, t.cycle, id))
  }

  lemma FrontIsQuiet(c: Config, pool: Pool, turns: seq<Turn>, id: int)
    requires turns != [] && RunOk(c, pool, turns, id, false) && Unedited(c, turns, id)
    ensures RunOk(c, pool, turns[..|turns| - 1], id, false) && Unedited(c, turns[..|turns| - 1], id)
    ensures turns[|turns| - 1].Probe?
  {
    assert turns[|turns| - 1] in turns;
    hide Keeps, Smooth, PassageOf;
  }

  /** The last turn of such a run is an undisturbed cycle of the row. */
  lemma QuietTurn(c: Config, pool: Pool, turns: seq<Turn>, id: int)
    requires turns != [] && RunOk(c, pool, turns, id, false) && Unedited(c, turns, id)
    requires id in AfterTurns(c, pool, turns[..|turns| - 1])
    ensures var last := turns[|turns| - 1];
      && last.Probe? && CycleOk(last.cycle) && Keeps(last.cycle, id) && Smooth(PassageOf(c, last.cycle, id))
      && last.cycle.revival.drawn == AfterTurns(c, pool, turns[..|turns| - 1])
      && AfterTurns(c, pool, turns) == AfterCycle(c, last.cycle)
  {
    assert turns[|turns| - 1] in turns;
    hide CycleOk, Keeps, Smooth, PassageOf, Meddled, AfterCycle;
  }

  // ---------------------------------------------------------------- engine faults

  /** The fields an outage must not touch. */
  ghost predicate SameStanding(p: Proxy, q: Proxy) {
    && q.failCount == p.failCount && q.ladderStep == p.ladderStep && q.ladderAt == p.ladderAt
    && q.quarantinedAt == p.quarantinedAt && q.removedAt == p.removedAt
    && (q.status == p.status || (p.status == Ready && q.status == Alive))
  }

  /** Standing after a run without failed verdicts: never worse, and untouched when there was
      no success either. */
  ghost predicate Spared(p: Proxy, q: Proxy, passes: nat) {
    && (q.failCount == p.failCount || q.failCount == 0)
    && (q.ladderStep == p.ladderStep || q.ladderStep == 0)
    && (q.ladderAt == p.ladderAt || q.ladderAt == None)
    && (q.status == Quarantine ==> p.status == Quarantine)
    && (q.status == Removed ==> p.status == Removed)
    && (passes == 0 ==> SameStanding(p, q))
  }

  lemma CycleSpares(c: Config, now: int, t: Passage, passes: nat)
    requires PassageOk(c, now, t) && Smooth(t) && FailSteps(t) + LadderSteps(t) == 0
    requires Hits(t.revival.verdict, Passed) + Hits(t.recheck.verdict, Passed) + Hits(t.queue.verdict, Passed) +
             Hits(t.sample.verdict, Passed) + Hits(t.tunnel.verdict, Passed) == passes
    ensures Spared(t.revival.drawn, t.tunnel.left, passes)
  {
    StageSpares(c, Revival, now, t.revival);
    StageSpares(c, Recheck, now, t.recheck);
    StageSpares(c, Queue, now, t.queue);
    StageSpares(c, Sample, now, t.sample);
    StageSpares(c, Tunnel, now, t.tunnel);
    hide StageOk;
  }

  lemma StageSpares(c: Config, lane: Lane, now: int, t: Stage)
    requires StageOk(c, lane, now, t) && t.judged == t.drawn && Hits(t.verdict, Failed) == 0
    ensures Spared(t.drawn, t.left, Hits(t.verdict, Passed))
  {
    hide LastFailedKind, Edited;
  }

  /** An outage cannot retire a proxy: while every failure is an engine fault, the counter,
      the ladder and its due time never move (except to be cleared by a success) and the row
      is neither quarantined nor removed. */
  lemma {:induction false} EngineFaultsAreNotCharged(c: Config, pool: Pool, turns: seq<Turn>, id: int)
    requires RunOk(c, pool, turns, id, false) && Unedited(c, turns, id) && id in pool
    requires Count(turns, id, Failed) == 0
    ensures id in AfterTurns(c, pool, turns)
    ensures Spared(pool[id], AfterTurns(c, pool, turns)[id], Count(turns, id, Passed))
  {
    if turns != [] {
      var front, last := turns[..|turns| - 1], turns[|turns| - 1];
      assert last in turns;
      EngineFaultsAreNotCharged(c, pool, front, id);
      var before := AfterTurns(c, pool, front);
      CycleMovesRow(c, last.cycle, id);
      var t := PassageOf(c, last.cycle, id);
      CycleSpares(c, last.cycle.now, t, CountIn(last.cycle, id, Passed));
    }
  }

  // ---------------------------------------------------------------- tunnel verdicts take precedence

  /** Direct checks of the queue and the sample, and successes of the other three lanes. */
  function DirectChecks(turns: seq<Turn>, id: int): nat {
    if turns == [] then 0
    else
      DirectChecks(turns[..|turns| - 1], id) +
      match turns[|turns| - 1]
      case Edit(_) => 0
      case Probe(cy) => Checked(VerdictOn(cy.queue.checks, id)) + Checked(VerdictOn(cy.sample.checks, id))
  }

  function Checked(v: Option<Check>): nat { if v.Some? then 1 else 0 }

  function Liftings(turns: seq<Turn>, id: int): nat {
    if turns == [] then 0
    else
      Liftings(turns[..|turns| - 1], id) +
      match turns[|turns| - 1]
      case Edit(_) => 0
      case Probe(cy) =>
        Hits(VerdictOn(cy.revival.checks, id), Passed) + Hits(VerdictOn(cy.recheck.checks, id), Passed) +
        Hits(VerdictOn(cy.tunnel.checks, id), Passed)
  }

  /** Exactly the tunnel batch sets the block, with every verdict but a success, and exactly a
      tunnel success, there or in a revival, lifts it. */
  lemma TunnelVerdictsOwnTheBlock(c: Config, lane: Lane, now: int, t: Stage)
    requires StageOk(c, lane, now, t) && t.judged == t.drawn
    ensures var v := t.verdict;
      t.left.t2FailedAt ==
        if v.Some? && TunnelLane(lane) && v.value.outcome == Passed then None
        else if v.Some? && lane == Tunnel then Some(v.value.at)
        else t.drawn.t2FailedAt
  {}

  lemma StageKeepsBlock(c: Config, lane: Lane, now: int, t: Stage)
    requires StageOk(c, lane, now, t) && t.judged == t.drawn && t.drawn.t2FailedAt.Some?
    requires lane == Queue || lane == Sample || Hits(t.verdict, Passed) == 0
    ensures t.left.t2FailedAt.Some? && t.left.failCount >= t.drawn.failCount
    ensures lane == Queue || lane == Sample ==> t.verdict.None?
  {
    hide LastFailedKind;
  }

  lemma CycleKeepsBlock(c: Config, now: int, t: Passage)
    requires PassageOk(c, now, t) && Smooth(t) && t.revival.drawn.t2FailedAt.Some?
    requires Hits(t.revival.verdict, Passed) + Hits(t.recheck.verdict, Passed) + Hits(t.tunnel.verdict, Passed) == 0
    ensures t.queue.verdict.None? && t.sample.verdict.None?
    ensures t.tunnel.left.t2FailedAt.Some? && t.tunnel.left.failCount >= t.revival.drawn.failCount
  {
    hide StageOk;
    StageKeepsBlock(c, Revival, now, t.revival);
    StageKeepsBlock(c, Recheck, now, t.recheck);
    StageKeepsBlock(c, Queue, now, t.queue);
    StageKeepsBlock(c, Sample, now, t.sample);
    StageKeepsBlock(c, Tunnel, now, t.tunnel);
  }

  /** A failed or unanswered tunnel attempt outweighs direct checks: until the tunnel answers or
      the ladder revives the proxy, no direct check of queue or sample judges it, and what its
      counter holds is not forgiven. */
  lemma {:induction false} TunnelFailureOutweighsDirectChecks(c: Config, pool: Pool, turns: seq<Turn>, id: int)
    requires RunOk(c, pool, turns, id, false) && Unedited(c, turns, id)
    requires id in pool && pool[id].t2FailedAt.Some? && Liftings(turns, id) == 0
    ensures DirectChecks(turns, id) == 0
    ensures var after := AfterTurns(c, pool, turns);
      id in after && after[id].t2FailedAt.Some? && after[id].failCount >= pool[id].failCount
  {
    if turns != [] {
      var front, last := turns[..|turns| - 1], turns[|turns| - 1];
      assert last in turns;
      TunnelFailureOutweighsDirectChecks(c, pool, front, id);
      var before := AfterTurns(c, pool, front);
      CycleMovesRow(c, last.cycle, id);
      CycleKeepsBlock(c, last.cycle.now, PassageOf(c, last.cycle, id));
    }
  }

  // ---------------------------------------------------------------- the ladder

  function Delay(d: int): nat { if d > 0 then d else 0 }

  /** Sum of the first `k` configured delays. */
  function Wait(delays: seq<int>, k: nat): nat
    requires k <= |delays|
  {
    if k == 0 then 0 else Wait(delays, k - 1) + Delay(delays[k - 1])
  }

  /** Where a row stands on its walk after `fails` failed rechecks: `|delays| + 1` of them remove
      it, one fewer leave it waiting for at least the delays walked so far. */
  ghost predicate Walking(c: Config, p: Proxy, since: int, fails: nat) {
    var n := |c.delays|;
    if fails <= n then
      && p.status == Quarantine && p.ladderStep == fails
      && p.ladderAt.Some? && p.ladderAt.value >= since + c.secondChanceMin + Wait(c.delays, fails)
    else
      && fails == n + 1 && p.status == Removed
      && p.removedAt.Some? && p.removedAt.value >= since + c.secondChanceMin + Wait(c.delays, n)
  }

  /** The row as the failure that quarantined it left it. */
  ghost predicate JustQuarantined(c: Config, p: Proxy, since: int) {
    && p.status == Quarantine && p.ladderStep == 0 && p.quarantinedAt == Some(since)
    && p.ladderAt.Some? && p.ladderAt.value >= since + c.secondChanceMin
  }

  /** The first rung: a regular failure quarantines exactly at the limit, and so begins the walk. */
  lemma CheckFailedStartsTheWalk(c: Config, p: Proxy, now: int, jitter: nat, mark: bool)
    requires Regular(p.status)
    ensures var q := CheckFailed(c, p, now, jitter, mark);
      && (q.status == Quarantine <==> p.failCount + 1 >= c.failLimit)
      && (q.status == Quarantine ==> JustQuarantined(c, q, now) && Walking(c, q, now, 0))
  {}

  lemma StageStartsTheWalk(c: Config, lane: Lane, now: int, t: Stage)
    requires StageOk(c, lane, now, t) && t.judged == t.drawn && t.drawn.status != Quarantine && t.left.status == Quarantine
    ensures t.verdict.Some? && now <= t.verdict.value.at && JustQuarantined(c, t.left, t.verdict.value.at)
  {
    hide LastFailedKind;
    var v := t.verdict.value;
    CheckFailedStartsTheWalk(c, Journal(t.judged, if TunnelLane(lane) then T2 else T1, false), v.at, v.jitter, TunnelLane(lane));
    hide CheckFailed, JustQuarantined, Walking;
  }

  lemma StageKeepsQuarantined(c: Config, lane: Lane, now: int, t: Stage)
    requires StageOk(c, lane, now, t) && t.judged == t.drawn && !LadderLane(lane) && t.drawn.status == Quarantine
    ensures t.left == t.drawn
  {
    hide Judge;
  }

  /** The regular lanes put a row on the first rung of the ladder or leave it off. */
  lemma RegularLanesStartTheWalk(c: Config, now: int, t: Passage)
    requires PassageOk(c, now, t) && Smooth(t) && t.queue.drawn.status != Quarantine && t.tunnel.left.status == Quarantine
    ensures exists since :: now <= since && JustQuarantined(c, t.tunnel.left, since)
  {
    hide StageOk, JustQuarantined;
    if t.queue.left.status == Quarantine {
      StageStartsTheWalk(c, Queue, now, t.queue);
      StageKeepsQuarantined(c, Sample, now, t.sample);
      StageKeepsQuarantined(c, Tunnel, now, t.tunnel);
    } else if t.sample.left.status == Quarantine {
      StageStartsTheWalk(c, Sample, now, t.sample);
      StageKeepsQuarantined(c, Tunnel, now, t.tunnel);
    } else {
      StageStartsTheWalk(c, Tunnel, now, t.tunnel);
    }
  }

  /** Every cycle that takes a row into quarantine leaves it where the walk begins. */
  lemma QuarantineStartsTheWalk(c: Config, cy: Cycle, id: int)
    requires CycleOk(cy) && Keeps(cy, id) && Smooth(PassageOf(c, cy, id)) && cy.revival.drawn[id].status != Quarantine
    requires id in AfterCycle(c, cy) && AfterCycle(c, cy)[id].status == Quarantine
    ensures exists since :: cy.now <= since && JustQuarantined(c, AfterCycle(c, cy)[id], since)
  {
    CycleMovesRow(c, cy, id);
    var t := PassageOf(c, cy, id);
    hide CycleOk, AfterCycle, JustQuarantined;
    LadderLanesSettle(c, cy.now, t);
    hide PassageOk, Smooth;
    RegularLanesStartTheWalk(c, cy.now, t);
  }

  lemma CycleWalks(c: Config, now: int, t: Passage, since: int, fails: nat)
    requires PassageOk(c, now, t) && Smooth(t) && Walking(c, t.revival.drawn, since, fails)
    requires Hits(t.revival.verdict, Passed) == 0 && Hits(t.recheck.verdict, Passed) == 0
    ensures FailSteps(t) == 0
    ensures Walking(c, t.tunnel.left, since, fails + LadderSteps(t))
  {
    hide LastFailedKind, Edited;
    LadderLanesSettle(c, now, t);
    RegularLanesSettle(c, now, t);
  }

  /** The whole walk: with `n` configured delays, `n` failed rechecks leave the proxy in
      quarantine and exactly the one after removes it, not before the second chance and every
      delay have passed.  Engine faults do not count. */
  lemma {:induction false} LadderWalk(c: Config, pool: Pool, turns: seq<Turn>, id: int, since: int)
    requires RunOk(c, pool, turns, id, false) && Unedited(c, turns, id)
    requires id in pool && JustQuarantined(c, pool[id], since)
    requires Count(turns, id, Passed) == 0
    ensures id in AfterTurns(c, pool, turns)
    ensures Walking(c, AfterTurns(c, pool, turns)[id], since, Count(turns, id, Failed))
  {
    hide *;
    if turns == [] {
      WalkBegins(c, pool, id, since);
    } else {
      var front, last := turns[..|turns| - 1], turns[|turns| - 1];
      FrontIsQuiet(c, pool, turns, id);
      CountNext(turns, id, Passed);
      CountNext(turns, id, Failed);
      LadderWalk(c, pool, front, id, since);
      QuietTurn(c, pool, turns, id);
      CycleWalksRow(c, last.cycle, id, since, Count(front, id, Failed));
    }
  }

  lemma WalkBegins(c: Config, pool: Pool, id: int, since: int)
    requires id in pool && JustQuarantined(c, pool[id], since)
    ensures AfterTurns(c, pool, []) == pool && Walking(c, pool[id], since, Count([], id, Failed))
  {}

  lemma CountNext(turns: seq<Turn>, id: int, o: Outcome)
    requires turns != [] && turns[|turns| - 1].Probe?
    ensures Count(turns, id, o) == Count(turns[..|turns| - 1], id, o) + CountIn(turns[|turns| - 1].cycle, id, o)
  {
    hide CountIn;
  }

  lemma CycleWalksRow(c: Config, cy: Cycle, id: int, since: int, fails: nat)
    requires CycleOk(cy) && Keeps(cy, id) && Smooth(PassageOf(c, cy, id)) && Walking(c, cy.revival.drawn[id], since, fails)
    requires CountIn(cy, id, Passed) == 0
    ensures id in AfterCycle(c, cy) && Walking(c, AfterCycle(c, cy)[id], since, fails + CountIn(cy, id, Failed))
  {
    CycleMovesRow(c, cy, id);
    hide CycleOk, AfterCycle, Walking, PassageOk, Smooth;
    CycleWalks(c, cy.now, PassageOf(c, cy, id), since, fails);
  }

  /** Read off the walk: removed if and only if `n + 1` rechecks have failed, so the number
      still allowed, `n + 1 - step`, falls by one with each. */
  lemma RemovedExactlyAfterLastStep(c: Config, pool: Pool, turns: seq<Turn>, id: int, since: int)
    requires RunOk(c, pool, turns, id, false) && Unedited(c, turns, id)
    requires id in pool && JustQuarantined(c, pool[id], since)
    requires Count(turns, id, Passed) == 0
    ensures id in AfterTurns(c, pool, turns)
    ensures Count(turns, id, Failed) <= |c.delays| + 1
    ensures var q := AfterTurns(c, pool, turns)[id];
      && (q.status == Removed <==> Count(turns, id, Failed) == |c.delays| + 1)
      && (q.status != Removed ==> |c.delays| + 1 - q.ladderStep == |c.delays| + 1 - Count(turns, id, Failed) > 0)
  {
    LadderWalk(c, pool, turns, id, since);
  }

  /** A successful recheck ends the walk: the row leaves quarantine with an empty ladder and a
      clean counter, and a later quarantine starts from the first step again. */
  lemma SuccessResetsTheWalk(c: Config, now: int, t: Passage)
    requires PassageOk(c, now, t) && Smooth(t)
    requires Hits(t.revival.verdict, Passed) + Hits(t.recheck.verdict, Passed) > 0
    ensures var q := t.queue.drawn;
      && (q.status == Alive || q.status == Ready)
      && q.failCount == 0 && q.ladderStep == 0 && q.ladderAt == None && q.quarantinedAt == None
    ensures t.tunnel.left.failCount <= 1
    ensures t.tunnel.left.status == Quarantine ==>
              c.failLimit <= 1 && exists since :: now <= since && JustQuarantined(c, t.tunnel.left, since)
  {
    SuccessEndsTheWalk(c, now, t);
    RegularLanesSettle(c, now, t);
    hide PassageOk, Smooth, JustQuarantined;
    if t.tunnel.left.status == Quarantine {
      RegularLanesStartTheWalk(c, now, t);
    }
  }

  predicate OffTheLadder(p: Proxy) {
    && (p.status == Alive || p.status == Ready)
    && p.failCount == 0 && p.ladderStep == 0 && p.ladderAt == None && p.quarantinedAt == None
  }

  lemma SuccessClears(c: Config, lane: Lane, now: int, t: Stage)
    requires StageOk(c, lane, now, t) && t.judged == t.drawn && LadderLane(lane) && Hits(t.verdict, Passed) == 1
    ensures OffTheLadder(t.left)
  {
    hide LastFailedKind;
  }

  lemma LadderLeavesItsOwn(c: Config, lane: Lane, now: int, t: Stage)
    requires StageOk(c, lane, now, t) && t.judged == t.drawn && LadderLane(lane) && OffTheLadder(t.drawn)
    ensures t.left == t.drawn
  {
    hide Judge;
  }

  lemma SuccessEndsTheWalk(c: Config, now: int, t: Passage)
    requires PassageOk(c, now, t) && Smooth(t)
    requires Hits(t.revival.verdict, Passed) + Hits(t.recheck.verdict, Passed) > 0
    ensures OffTheLadder(t.queue.drawn)
  {
    hide StageOk, OffTheLadder;
    if Hits(t.revival.verdict, Passed) == 1 {
      SuccessClears(c, Revival, now, t.revival);
      LadderLeavesItsOwn(c, Recheck, now, t.recheck);
    } else {
      SuccessClears(c, Recheck, now, t.recheck);
    }
  }

  // ---------------------------------------------------------------- how fast failures add up

  /** `n` failed regular checks in a row. */
  function FailTimes(c: Config, p: Proxy, n: nat, now: int, mark: bool): Proxy {
    if n == 0 then p else CheckFailed(c, FailTimes(c, p, n - 1, now, mark), now, 0, mark)
  }

  /** The bound is tight: a proxy with a clean counter that fails every check is quarantined
      by the `fail_limit`-th failure and not by an earlier one. */
  lemma {:induction false} FailLimitIsExact(c: Config, p: Proxy, n: nat, now: int, mark: bool)
    requires p.failCount == 0 && Regular(p.status)
    ensures FailTimes(c, p, n, now, mark).status == Quarantine <==> n >= Max(1, c.failLimit)
    ensures n < Max(1, c.failLimit) ==>
              FailTimes(c, p, n, now, mark).failCount == n && Regular(FailTimes(c, p, n, now, mark).status)
  {
    if n > 0 {
      FailLimitIsExact(c, p, n - 1, now, mark);
    }
  }
}
