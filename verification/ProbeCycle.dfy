/** The probe daemon's scheduling cycle over the whole pool. */
module ProbeCycle {
  import opened Prelude
  import opened ProxyRows

  type Pool = map<int, Proxy>

  /** What one lane did: the pool its selector saw, the pool its verdicts met (other writers may
      have been at it in between), the rows it took for itself, and the verdicts it reached, in
      the order they were applied. */
  datatype LaneRun = LaneRun(drawn: Pool, judged: Pool, claimed: set<int>, checks: seq<Check>)

  datatype Cycle = Cycle(now: int, revival: LaneRun, recheck: LaneRun, queue: LaneRun, sample: LaneRun, tunnel: LaneRun)

  function Ids(checks: seq<Check>): set<int> { set c | c in checks :: c.id }

  ghost predicate Distinct(checks: seq<Check>) {
    forall i, j :: 0 <= i < j < |checks| ==> checks[i].id != checks[j].id
  }

  function ApplyCheck(c: Config, lane: Lane, pool: Pool, check: Check): Pool {
    if check.id in pool then pool[check.id := Judge(c, lane, pool[check.id], check)] else pool
  }

  function ApplyLane(c: Config, lane: Lane, pool: Pool, checks: seq<Check>): Pool
    decreases |checks|
  {
    if checks == [] then pool
    else ApplyCheck(c, lane, ApplyLane(c, lane, pool, checks[..|checks| - 1]), checks[|checks| - 1])
  }

  /** A lane judges rows it claimed, each once, out of those its selector offered and no
      earlier lane had handed over. */
  ghost predicate LaneOk(lane: Lane, now: int, covered: set<int>, run: LaneRun) {
    && Ids(run.checks) <= run.claimed
    && Distinct(run.checks)
    && (forall id :: id in run.claimed ==> id in run.drawn && Eligible(lane, run.drawn[id], now) && id !in covered)
    && (forall k :: 0 <= k < |run.checks| ==> Sensible(lane, run.checks[k].outcome) && now <= run.checks[k].at)
  }

  /** The pool a lane leaves. */
  function Left(c: Config, lane: Lane, run: LaneRun): Pool { ApplyLane(c, lane, run.judged, run.checks) }

  function AfterCycle(c: Config, cy: Cycle): Pool { Left(c, Tunnel, cy.tunnel) }

  /** The hand-offs: the sample skips what the queue lane claimed, the tunnel batch skips what
      the sample judged. */
  ghost predicate CycleOk(cy: Cycle) {
    && LaneOk(Revival, cy.now, {}, cy.revival)
    && LaneOk(Recheck, cy.now, {}, cy.recheck)
    && LaneOk(Queue, cy.now, {}, cy.queue)
    && LaneOk(Sample, cy.now, cy.queue.claimed, cy.sample)
    && LaneOk(Tunnel, cy.now, cy.sample.claimed, cy.tunnel)
  }

  /** A cycle in which the other writers act between the lanes, each lane starting from what they
      made of the pool. */
  ghost predicate Interleaved(c: Config, pool: Pool, cy: Cycle, others: (Lane, Pool) -> Pool) {
    && cy.revival.judged == cy.revival.drawn == pool
    && cy.recheck.judged == cy.recheck.drawn == others(Recheck, Left(c, Revival, cy.revival))
    && cy.queue.judged == cy.queue.drawn == others(Queue, Left(c, Recheck, cy.recheck))
    && cy.sample.judged == cy.sample.drawn == others(Sample, Left(c, Queue, cy.queue))
    && cy.tunnel.judged == cy.tunnel.drawn == others(Tunnel, Left(c, Sample, cy.sample))
  }

  // ---------------------------------------------------------------- one proxy in one lane

  /** The verdict a lane reached about `id`, if any. */
  function VerdictOn(checks: seq<Check>, id: int): Option<Check> {
    if checks == [] then None
    else if checks[|checks| - 1].id == id then Some(checks[|checks| - 1])
    else VerdictOn(checks[..|checks| - 1], id)
  }

  function JudgeMaybe(c: Config, lane: Lane, p: Proxy, v: Option<Check>): Proxy {
    if v.Some? then Judge(c, lane, p, v.value) else p
  }

  lemma {:induction false} VerdictFacts(checks: seq<Check>, id: int)
    ensures VerdictOn(checks, id).Some? <==> id in Ids(checks)
    ensures VerdictOn(checks, id).Some? ==> VerdictOn(checks, id).value in checks && VerdictOn(checks, id).value.id == id
  {
    if checks != [] {
      var front := checks[..|checks| - 1];
      VerdictFacts(front, id);
      assert checks == front + [checks[|checks| - 1]];
    }
  }

  /** Rows are independent: a lane moves `id` by its own verdict alone. */
  lemma {:induction false} LaneMovesEachRowOnce(c: Config, lane: Lane, pool: Pool, checks: seq<Check>, id: int)
    requires Distinct(checks) && id in pool
    ensures var after := ApplyLane(c, lane, pool, checks);
      id in after && after[id] == JudgeMaybe(c, lane, pool[id], VerdictOn(checks, id))
  {
    if checks != [] {
      var front := checks[..|checks| - 1];
      LaneMovesEachRowOnce(c, lane, pool, front, id);
      if checks[|checks| - 1].id == id {
        VerdictFacts(front, id);
        assert VerdictOn(front, id).None?;
      }
    }
  }

  lemma {:induction false} LaneKeepsTheRows(c: Config, lane: Lane, pool: Pool, checks: seq<Check>)
    ensures ApplyLane(c, lane, pool, checks).Keys == pool.Keys
  {
    if checks != [] {
      LaneKeepsTheRows(c, lane, pool, checks[..|checks| - 1]);
    }
  }

  /** The checks of a lane run as concurrent tasks: whatever order their verdicts land in, the
      pool ends up the same. */
  lemma TaskOrderIsImmaterial(c: Config, lane: Lane, pool: Pool, a: seq<Check>, b: seq<Check>)
    requires Distinct(a) && Distinct(b) && (forall x :: x in a <==> x in b)
    ensures ApplyLane(c, lane, pool, a) == ApplyLane(c, lane, pool, b)
  {
    LaneKeepsTheRows(c, lane, pool, a);
    LaneKeepsTheRows(c, lane, pool, b);
    forall id | id in pool
      ensures ApplyLane(c, lane, pool, a)[id] == ApplyLane(c, lane, pool, b)[id]
    {
      LaneMovesEachRowOnce(c, lane, pool, a, id);
      LaneMovesEachRowOnce(c, lane, pool, b, id);
      VerdictFacts(a, id);
      VerdictFacts(b, id);
      if VerdictOn(a, id).Some? {
        var x, y := VerdictOn(a, id).value, VerdictOn(b, id).value;
        assert x in b && x.id == y.id;
      }
    }
  }

  // ---------------------------------------------------------------- one proxy in one cycle

  /** One proxy in one pass: its row when the selector ran, when the verdict fell and afterwards,
      and the verdict, if there was one. */
  datatype Stage = Stage(drawn: Proxy, judged: Proxy, left: Proxy, verdict: Option<Check>)

  /** One proxy's way through the five passes. */
  datatype Passage = Passage(revival: Stage, recheck: Stage, queue: Stage, sample: Stage, tunnel: Stage)

  ghost predicate StageOk(c: Config, lane: Lane, now: int, t: Stage) {
    && t.left == JudgeMaybe(c, lane, t.judged, t.verdict)
    && (t.verdict.Some? ==>
          Eligible(lane, t.drawn, now) && Sensible(lane, t.verdict.value.outcome) && now <= t.verdict.value.at)
  }

  ghost predicate PassageOk(c: Config, now: int, t: Passage) {
    && StageOk(c, Revival, now, t.revival)
    && StageOk(c, Recheck, now, t.recheck)
    && StageOk(c, Queue, now, t.queue)
    && StageOk(c, Sample, now, t.sample)
    && StageOk(c, Tunnel, now, t.tunnel)
    && !(t.queue.verdict.Some? && t.sample.verdict.Some?)
    && !(t.sample.verdict.Some? && t.tunnel.verdict.Some?)
  }

  /** Nobody else touched the row, within a pass or between two. */
  predicate Smooth(t: Passage) {
    && t.revival.judged == t.revival.drawn && t.recheck.judged == t.recheck.drawn && t.queue.judged == t.queue.drawn
    && t.sample.judged == t.sample.drawn && t.tunnel.judged == t.tunnel.drawn
    && t.recheck.drawn == t.revival.left && t.queue.drawn == t.recheck.left
    && t.sample.drawn == t.queue.left && t.tunnel.drawn == t.sample.left
  }

  /** Others edited the row, whenever and as often as they liked. */
  ghost predicate Meddled(t: Passage, pruning: bool) {
    && Edited(t.revival.drawn, t.revival.judged, pruning) && Edited(t.recheck.drawn, t.recheck.judged, pruning)
    && Edited(t.queue.drawn, t.queue.judged, pruning) && Edited(t.sample.drawn, t.sample.judged, pruning)
    && Edited(t.tunnel.drawn, t.tunnel.judged, pruning)
    && Edited(t.revival.left, t.recheck.drawn, pruning) && Edited(t.recheck.left, t.queue.drawn, pruning)
    && Edited(t.queue.left, t.sample.drawn, pruning) && Edited(t.sample.left, t.tunnel.drawn, pruning)
  }

  /** The proxy keeps its row through the lane. */
  predicate Stays(run: LaneRun, id: int) { id in run.drawn && id in run.judged }

  /** The proxy keeps its row through the cycle. */
  predicate Keeps(cy: Cycle, id: int) {
    Stays(cy.revival, id) && Stays(cy.recheck, id) && Stays(cy.queue, id) && Stays(cy.sample, id) && Stays(cy.tunnel, id)
  }

  function StageOf(c: Config, lane: Lane, run: LaneRun, id: int): Stage
    requires Stays(run, id)
  {
    var v := VerdictOn(run.checks, id);
    Stage(run.drawn[id], run.judged[id], JudgeMaybe(c, lane, run.judged[id], v), v)
  }

  function PassageOf(c: Config, cy: Cycle, id: int): Passage
    requires Keeps(cy, id)
  {
    Passage(StageOf(c, Revival, cy.revival, id), StageOf(c, Recheck, cy.recheck, id), StageOf(c, Queue, cy.queue, id),
            StageOf(c, Sample, cy.sample, id), StageOf(c, Tunnel, cy.tunnel, id))
  }

  lemma LaneGivesStage(c: Config, lane: Lane, now: int, covered: set<int>, run: LaneRun, id: int)
    requires LaneOk(lane, now, covered, run) && Stays(run, id)
    ensures id in Left(c, lane, run) && Left(c, lane, run)[id] == StageOf(c, lane, run, id).left
    ensures StageOk(c, lane, now, StageOf(c, lane, run, id))
    ensures StageOf(c, lane, run, id).verdict.Some? ==> id in run.claimed && id !in covered
  {
    LaneMovesEachRowOnce(c, lane, run.judged, run.checks, id);
    VerdictFacts(run.checks, id);
  }

  /** A cycle moves each proxy along a legal passage, whatever happens to the others. */
  lemma CycleMovesRow(c: Config, cy: Cycle, id: int)
    requires CycleOk(cy) && Keeps(cy, id)
    ensures id in AfterCycle(c, cy) && AfterCycle(c, cy)[id] == PassageOf(c, cy, id).tunnel.left
    ensures PassageOk(c, cy.now, PassageOf(c, cy, id))
  {
    LaneGivesStage(c, Revival, cy.now, {}, cy.revival, id);
    LaneGivesStage(c, Recheck, cy.now, {}, cy.recheck, id);
    LaneGivesStage(c, Queue, cy.now, {}, cy.queue, id);
    LaneGivesStage(c, Sample, cy.now, cy.queue.claimed, cy.sample, id);
    LaneGivesStage(c, Tunnel, cy.now, cy.sample.claimed, cy.tunnel, id);
    hide StageOk, LaneOk, Left;
  }
}
