/** The probe daemon: lanes that build batches, hand their rows on, and run their checks as
concurrent tasks. */
module ProbeDaemon {
  import opened Prelude
  import opened ProxyRows
  import opened ProbeCycle
  import opened ProbeEffects
  import opened Schemes
  import opened EngineGuard
  import opened EngineBackoff

  /** A candidate row with everything the outside world will answer about it: whether its host
      passes the address policy, whether a direct connect succeeds, whether the generated
      engine config holds it, what the engine says about its tunnel, whether the engine then
      answers a ping, and whether its task had started before the batch was aborted. */
  datatype Target = Target(
    id: int, dialable: bool, vetted: bool, connects: bool, included: bool, reply: DelayOutcome,
    engineAnswers: bool, started: bool, at: Seconds, jitter: nat)

  ghost predicate DistinctIds(ts: seq<Target>) {
    forall i, j :: 0 <= i < j < |ts| ==> ts[i].id != ts[j].id
  }

  function Filter(keep: Target -> bool, ts: seq<Target>): seq<Target> {
    if ts == [] then []
    else
      var front := Filter(keep, ts[..|ts| - 1]);
      if keep(ts[|ts| - 1]) then front + [ts[|ts| - 1]] else front
  }

  lemma {:induction false} FilterMembers(keep: Target -> bool, ts: seq<Target>)
    ensures forall t :: t in Filter(keep, ts) <==> t in ts && keep(t)
    ensures |Filter(keep, ts)| <= |ts|
  {
    if ts != [] {
      FilterMembers(keep, ts[..|ts| - 1]);
      assert ts == ts[..|ts| - 1] + [ts[|ts| - 1]];
    }
  }

  lemma {:induction false} FilterKeepsDistinct(keep: Target -> bool, ts: seq<Target>)
    requires DistinctIds(ts)
    ensures DistinctIds(Filter(keep, ts))
  {
    if ts != [] {
      var front := ts[..|ts| - 1];
      FilterKeepsDistinct(keep, front);
      FilterMembers(keep, front);
      assert forall t :: t in Filter(keep, front) ==> t in front && t.id != ts[|ts| - 1].id;
    }
  }

  lemma FilterNext(keep: Target -> bool, ts: seq<Target>, i: nat)
    requires i < |ts|
    ensures ts[..i + 1] == ts[..i] + [ts[i]]
    ensures Filter(keep, ts[..i + 1]) == Filter(keep, ts[..i]) + if keep(ts[i]) then [ts[i]] else []
  {
    assert ts[..i + 1][..i] == ts[..i];
  }

  predicate IsDialable(t: Target) { t.dialable }
  predicate IsVetted(t: Target) { t.vetted }
  predicate IsSerializable(t: Target) { t.included }
  function OfferedBy(lane: Lane, pool: Pool, now: int): Target -> bool {
    (t: Target) => t.id in pool && Eligible(lane, pool[t.id], now)
  }
  function NotIn(covered: seq<int>): Target -> bool { (t: Target) => t.id !in covered }
  function Tunnelable(pool: Pool): Target -> bool { (t: Target) => t.id in pool && T2Supported(pool[t.id].scheme) }

  /** The rows a selector offers, out of those it looked at. */
  function Offered(lane: Lane, pool: Pool, now: int, ts: seq<Target>): seq<Target> {
    Filter(OfferedBy(lane, pool, now), ts)
  }

  /** The candidates no earlier lane has covered. */
  function Uncovered(ts: seq<Target>, covered: seq<int>): seq<Target> { Filter(NotIn(covered), ts) }

  function Dialable(ts: seq<Target>): seq<Target> { Filter(IsDialable, ts) }
  function Vetted(ts: seq<Target>): seq<Target> { Filter(IsVetted, ts) }
  function Serializable(ts: seq<Target>): seq<Target> { Filter(IsSerializable, ts) }

  predicate Refused(ts: seq<Target>) { forall t :: t in ts ==> !t.vetted }

  lemma RefusedNext(ts: seq<Target>, t: Target, outcome: Target -> Outcome)
    requires Refused(ts) && !t.vetted && outcome(t) == Failed
    ensures Refused(ts + [t]) && Verdict(outcome, t) == Check(t.id, Failed, t.at, t.jitter)
  {}

  lemma VettingBegins(c: Config, lane: Lane, outcome: Target -> Outcome, rows: Pool, due: seq<Target>)
    ensures Progress(c, lane, outcome, rows, rows, due[..0], [], []) && Vetted(due[..0]) == [] && Refused([]) && due[..|due|] == due
  {
    Ends(due);
    NothingSeenYet(c, lane, outcome, rows);
  }

  lemma VettedMembers(due: seq<Target>)
    ensures forall t :: t in Vetted(due) ==> t.vetted
  {
    FilterMembers(IsVetted, due);
  }

  lemma VettedNext(ts: seq<Target>, i: nat)
    requires i < |ts|
    ensures ts[..i + 1] == ts[..i] + [ts[i]]
    ensures Vetted(ts[..i + 1]) == if ts[i].vetted then Vetted(ts[..i]) + [ts[i]] else Vetted(ts[..i])
  {
    FilterNext(IsVetted, ts, i);
  }

  lemma SerializableNext(ts: seq<Target>, i: nat)
    requires i < |ts|
    ensures Serializable(ts[..i + 1]) == if ts[i].included then Serializable(ts[..i]) + [ts[i]] else Serializable(ts[..i])
  {
    FilterNext(IsSerializable, ts, i);
  }

  lemma SerializableEnds(ts: seq<Target>)
    ensures Serializable(ts[..0]) == [] && Serializable(ts[..|ts|]) == Serializable(ts)
  {
    assert ts[..|ts|] == ts && ts[..0] == [];
  }

  /** What still waits when the list has been sorted out up to `i`. */
  function Waiting(kept: seq<Target>, ts: seq<Target>, i: nat): seq<Target>
    requires i <= |ts|
  {
    kept + ts[i..]
  }

  lemma PassOver(kept: seq<Target>, ts: seq<Target>, i: nat)
    requires i < |ts|
    ensures var waiting := Waiting(kept, ts, i);
      && waiting == Waiting(kept + [ts[i]], ts, i + 1)
      && |kept| < |waiting| && waiting[|kept|] == ts[i]
      && Without(waiting, |kept|) == Waiting(kept, ts, i + 1)
  {}

  lemma WaitingEnds(kept: seq<Target>, ts: seq<Target>)
    ensures Waiting([], ts, 0) == ts && Waiting(kept, ts, |ts|) == kept
  {}

  /** The tunnel batch proper: supported rows that no direct check covered in this cycle. */
  function T2Due(pool: Pool, candidates: seq<Target>, covered: seq<int>): seq<Target> {
    Filter(Tunnelable(pool), Uncovered(candidates, covered))
  }

  lemma T2DueIsDistinct(pool: Pool, candidates: seq<Target>, covered: seq<int>)
    requires DistinctIds(candidates)
    ensures DistinctIds(T2Due(pool, candidates, covered))
    ensures forall t :: t in T2Due(pool, candidates, covered) <==>
              t in candidates && t.id !in covered && t.id in pool && T2Supported(pool[t.id].scheme)
  {
    FilterKeepsDistinct(NotIn(covered), candidates);
    FilterKeepsDistinct(Tunnelable(pool), Uncovered(candidates, covered));
    FilterMembers(NotIn(covered), candidates);
    FilterMembers(Tunnelable(pool), Uncovered(candidates, covered));
  }

  /** Verdicts of a whole list, in order. */
  function Verdicts(outcome: Target -> Outcome, ts: seq<Target>): (r: seq<Check>)
    ensures |r| == |ts| && forall i :: 0 <= i < |ts| ==> r[i] == Verdict(outcome, ts[i])
  {
    seq(|ts|, i requires 0 <= i < |ts| => Verdict(outcome, ts[i]))
  }

  function Verdict(outcome: Target -> Outcome, t: Target): Check {
    Check(t.id, outcome(t), t.at, t.jitter)
  }

  /** The verdict of a direct check. */
  function Direct(): Target -> Outcome { (t: Target) => if t.vetted && t.connects then Passed else Failed }

  /** A revival verdict: an engine that does not answer is never a verdict about the proxy. */
  function Revived(engineUp: bool): Target -> Outcome {
    (t: Target) =>
      if !t.vetted then Failed
      else if !engineUp then EngineFault
      else if !t.included then Failed
      else match t.reply
        case Answered(_) => Passed
        case ProxyFailed => Failed
        case Unavailable => EngineFault
  }

  /** A tunnel verdict of a batch whose `cut` rows found it aborted.  An unanswered delay
      request counts against the proxy as long as the engine still answers pings. */
  function Tunnelled(engineUp: bool, cut: set<int>): Target -> Outcome {
    (t: Target) =>
      if !t.vetted then Failed
      else if !engineUp then EngineFault
      else if !t.included then Failed
      else if t.id in cut then EngineFault
      else match t.reply
        case Answered(_) => Passed
        case ProxyFailed => Failed
        case Unavailable => if t.engineAnswers then Failed else EngineFault
  }

  lemma UnserializableFails(cut: set<int>, t: Target)
    requires t.vetted && !t.included
    ensures Verdict(Tunnelled(true, cut), t) == Check(t.id, Failed, t.at, t.jitter)
  {}

  // ---------------------------------------------------------------- reorderings

  lemma PermutationKeepsDistinct(a: seq<Target>, b: seq<Target>)
    requires DistinctIds(a) && multiset(a) == multiset(b)
    ensures DistinctIds(b) && |a| == |b|
    ensures forall t :: t in a <==> t in b
  {
    forall t ensures t in a <==> t in b {
      assert t in multiset(a) <==> t in multiset(b);
    }
    assert |multiset(a)| == |multiset(b)|;
    forall i, j | 0 <= i < j < |b| ensures b[i].id != b[j].id {
      assert b[i] in a && b[j] in a;
      if b[i] == b[j] {
        TwiceMeansTwo(b, i, j);
        OnceMeansOne(a, b[i]);
      }
    }
  }

  lemma TwiceMeansTwo(b: seq<Target>, i: int, j: int)
    requires 0 <= i < j < |b| && b[i] == b[j]
    ensures multiset(b)[b[i]] >= 2
  {
    assert b == b[..j] + [b[j]] + b[j + 1..];
    assert b[i] in b[..j];
  }

  lemma {:induction false} OnceMeansOne(a: seq<Target>, t: Target)
    requires DistinctIds(a)
    ensures multiset(a)[t] <= 1
  {
    if a != [] {
      var front, last := a[..|a| - 1], a[|a| - 1];
      assert a == front + [last];
      OnceMeansOne(front, t);
      if t == last {
        assert t !in front;
      }
    }
  }

  /** Distinct candidates judged in any order give the same rows. */
  lemma OrderOfTargets(c: Config, lane: Lane, pool: Pool, outcome: Target -> Outcome, a: seq<Target>, b: seq<Target>)
    requires DistinctIds(a) && multiset(a) == multiset(b)
    ensures ApplyLane(c, lane, pool, Verdicts(outcome, a)) == ApplyLane(c, lane, pool, Verdicts(outcome, b))
  {
    PermutationKeepsDistinct(a, b);
    var va, vb := Verdicts(outcome, a), Verdicts(outcome, b);
    forall x | x in va ensures x in vb {
      var i :| 0 <= i < |va| && va[i] == x;
      assert a[i] in b;
      var j :| 0 <= j < |b| && b[j] == a[i];
      assert vb[j] == x;
    }
    forall x | x in vb ensures x in va {
      var i :| 0 <= i < |vb| && vb[i] == x;
      assert b[i] in a;
      var j :| 0 <= j < |a| && a[j] == b[i];
      assert va[j] == x;
    }
    TaskOrderIsImmaterial(c, lane, pool, va, vb);
  }

  /** Work on a batch: of the `seen` candidates some are settled, in some order, and the others
      wait; the rows show the settled ones. */
  ghost predicate Progress(c: Config, lane: Lane, outcome: Target -> Outcome, before: Pool, rows: Pool,
                           seen: seq<Target>, done: seq<Target>, waiting: seq<Target>)
  {
    && multiset(done + waiting) == multiset(seen)
    && |done| + |waiting| == |seen|
    && rows == ApplyLane(c, lane, before, Verdicts(outcome, done))
  }

  lemma NothingSeenYet(c: Config, lane: Lane, outcome: Target -> Outcome, rows: Pool)
    ensures Progress(c, lane, outcome, rows, rows, [], [], [])
  {}

  lemma OneMoreWaits(c: Config, lane: Lane, outcome: Target -> Outcome, before: Pool, rows: Pool,
                     seen: seq<Target>, done: seq<Target>, waiting: seq<Target>, t: Target)
    requires Progress(c, lane, outcome, before, rows, seen, done, waiting)
    ensures Progress(c, lane, outcome, before, rows, seen + [t], done, waiting + [t])
  {
    assert done + (waiting + [t]) == (done + waiting) + [t];
  }

  lemma SettledAtOnce(c: Config, lane: Lane, outcome: Target -> Outcome, before: Pool, rows: Pool,
                      seen: seq<Target>, done: seq<Target>, waiting: seq<Target>, t: Target)
    requires Progress(c, lane, outcome, before, rows, seen, done, waiting)
    ensures Progress(c, lane, outcome, before, ApplyCheck(c, lane, rows, Verdict(outcome, t)), seen + [t], done + [t], waiting)
  {
    SettleOne(c, lane, outcome, before, done, t);
    assert multiset(done + [t] + waiting) == multiset(done + waiting) + multiset{t};
  }

  function Without(ts: seq<Target>, k: nat): (r: seq<Target>)
    requires k < |ts|
    ensures |r| == |ts| - 1 && forall t :: t in r ==> t in ts
  {
    ts[..k] + ts[k + 1..]
  }

  lemma WaitingTaskSettles(c: Config, lane: Lane, outcome: Target -> Outcome, before: Pool, rows: Pool,
                           seen: seq<Target>, done: seq<Target>, waiting: seq<Target>, k: nat)
    requires Progress(c, lane, outcome, before, rows, seen, done, waiting) && k < |waiting|
    ensures Progress(c, lane, outcome, before, ApplyCheck(c, lane, rows, Verdict(outcome, waiting[k])),
                     seen, done + [waiting[k]], Without(waiting, k))
  {
    SettleOne(c, lane, outcome, before, done, waiting[k]);
    TakeOut(done, waiting, k);
    hide Without, ApplyLane, ApplyCheck;
  }

  lemma SettleOne(c: Config, lane: Lane, outcome: Target -> Outcome, before: Pool, done: seq<Target>, t: Target)
    ensures ApplyLane(c, lane, before, Verdicts(outcome, done + [t])) ==
            ApplyCheck(c, lane, ApplyLane(c, lane, before, Verdicts(outcome, done)), Verdict(outcome, t))
  {
    assert Verdicts(outcome, done + [t])[..|done|] == Verdicts(outcome, done);
  }

  /** A finished batch: nothing waits, so the rows are those of the list taken in order. */
  lemma AllSettled(c: Config, lane: Lane, outcome: Target -> Outcome, before: Pool, rows: Pool,
                   seen: seq<Target>, done: seq<Target>)
    requires Progress(c, lane, outcome, before, rows, seen, done, []) && DistinctIds(seen)
    ensures rows == ApplyLane(c, lane, before, Verdicts(outcome, seen)) && |done| == |seen|
  {
    assert done + [] == done;
    OrderOfTargets(c, lane, before, outcome, seen, done);
  }

  /** The verdicts of rows not settled yet may still change. */
  lemma OpenVerdictsMayChange(c: Config, lane: Lane, f: Target -> Outcome, g: Target -> Outcome, before: Pool, rows: Pool,
                              seen: seq<Target>, done: seq<Target>, waiting: seq<Target>)
    requires Progress(c, lane, f, before, rows, seen, done, waiting)
    requires forall t :: t in done ==> f(t) == g(t)
    ensures Progress(c, lane, g, before, rows, seen, done, waiting)
  {
    assert Verdicts(f, done) == Verdicts(g, done);
  }

  /** A waiting row is not among the settled ones. */
  lemma WaitingIsNotDone(c: Config, lane: Lane, f: Target -> Outcome, before: Pool, rows: Pool,
                         seen: seq<Target>, done: seq<Target>, waiting: seq<Target>, k: nat)
    requires Progress(c, lane, f, before, rows, seen, done, waiting) && DistinctIds(seen) && k < |waiting|
    ensures forall t :: t in done ==> t.id != waiting[k].id
  {
    PermutationKeepsDistinct(seen, done + waiting);
    forall t | t in done ensures t.id != waiting[k].id {
      var i :| 0 <= i < |done| && done[i] == t;
      assert (done + waiting)[i] == t && (done + waiting)[|done| + k] == waiting[k];
    }
  }

  /** Candidates from a selector, judged once each, make a lane run of the cycle. */
  lemma LaneRunIsOk(lane: Lane, pool: Pool, now: int, covered: set<int>, candidates: seq<Target>, judged: seq<Target>,
                    outcome: Target -> Outcome)
    requires DistinctIds(judged) && (forall t :: t in judged ==> t in candidates)
    requires forall t :: t in candidates ==> t.id in pool && Eligible(lane, pool[t.id], now) && t.id !in covered && now <= t.at
    requires TunnelLane(lane) || forall t :: t in judged ==> outcome(t) != EngineFault
    ensures LaneOk(lane, now, covered, LaneRun(pool, pool, SetOf(IdsOf(candidates)), Verdicts(outcome, judged)))
  {
    var run := LaneRun(pool, pool, SetOf(IdsOf(candidates)), Verdicts(outcome, judged));
    forall x | x in Ids(run.checks) ensures x in run.claimed {
      var k :| 0 <= k < |judged| && run.checks[k].id == x;
      assert judged[k] in candidates;
    }
    forall x | x in run.claimed ensures x in pool && Eligible(lane, pool[x], now) && x !in covered {
      var k :| 0 <= k < |candidates| && IdsOf(candidates)[k] == x;
      assert candidates[k] in candidates;
    }
    forall k | 0 <= k < |run.checks| ensures Sensible(lane, run.checks[k].outcome) && now <= run.checks[k].at {
      assert judged[k] in judged;
    }
  }

  // ---------------------------------------------------------------- the abort of a tunnel batch

  /** Failures in a row, by the counter, that abort a tunnel batch. */
  const MEOW_ABORT_THRESHOLD: nat := 3

  /** What a contacted row does to the guard's counter: an answer about the proxy ends the streak,
      a row that neither the request nor a ping got through for adds to it, and a row whose
      request failed while the engine answers pings does neither. */
  function OpOf(t: Target): seq<Op> {
    match t.reply
    case Answered(_) => [Recover]
    case ProxyFailed => [Recover]
    case Unavailable => if t.engineAnswers then [] else [Fail]
  }

  /** The row finds the batch aborted: the counter has seen a streak and its task starts only now. */
  ghost predicate IsCut(log: seq<Op>, t: Target) { Streak(log, MEOW_ABORT_THRESHOLD) && !t.started }

  /** The guard's log after the rows of `order` have come to it in turn. */
  ghost function OpsOf(order: seq<Target>): seq<Op> {
    if order == [] then []
    else
      var log := OpsOf(order[..|order| - 1]);
      if IsCut(log, order[|order| - 1]) then log else log + OpOf(order[|order| - 1])
  }

  /** The rows of `order` that found the batch aborted. */
  ghost function CutIds(order: seq<Target>): set<int> {
    if order == [] then {}
    else
      var front, last := order[..|order| - 1], order[|order| - 1];
      CutIds(front) + if IsCut(OpsOf(front), last) then {last.id} else {}
  }

  lemma OneMoreRow(order: seq<Target>, t: Target)
    ensures OpsOf(order + [t]) == if IsCut(OpsOf(order), t) then OpsOf(order) else OpsOf(order) + OpOf(t)
    ensures CutIds(order + [t]) == CutIds(order) + if IsCut(OpsOf(order), t) then {t.id} else {}
  {
    assert (order + [t])[..|order|] == order;
  }

  lemma StreakStays(log: seq<Op>, more: seq<Op>, threshold: nat)
    requires Streak(log, threshold)
    ensures Streak(log + more, threshold)
  {
    var i :| StreakAt(log, threshold, i);
    assert StreakAt(log + more, threshold, i);
  }

  /** The log only grows, so a streak, once seen, is seen by every later row. */
  lemma {:induction false} EarlierStreakStays(order: seq<Target>, i: nat)
    requires i <= |order| && Streak(OpsOf(order[..i]), MEOW_ABORT_THRESHOLD)
    ensures Streak(OpsOf(order), MEOW_ABORT_THRESHOLD)
    decreases |order|
  {
    if i == |order| {
      assert order[..i] == order;
    } else {
      var front := order[..|order| - 1];
      assert front[..i] == order[..i];
      EarlierStreakStays(front, i);
      StreakStays(OpsOf(front), OpOf(order[|order| - 1]), MEOW_ABORT_THRESHOLD);
    }
  }

  /** Row `i` is `id`, and the guard has seen a streak when it comes to it. */
  ghost predicate CutAt(order: seq<Target>, i: int, id: int)
    requires 0 <= i < |order|
  {
    order[i].id == id && IsCut(OpsOf(order[..i]), order[i])
  }

  /** Exactly the rows that start once `MEOW_ABORT_THRESHOLD` unanswered rows have come to the
      guard in a row are cut, and a batch without such a streak cuts none. */
  lemma {:induction false} CutOnlyAfterStreak(order: seq<Target>, id: int)
    ensures id in CutIds(order) <==> exists i :: 0 <= i < |order| && CutAt(order, i, id)
    ensures id in CutIds(order) ==> Streak(OpsOf(order), MEOW_ABORT_THRESHOLD)
    decreases |order|
  {
    if order != [] {
      var front, n := order[..|order| - 1], |order| - 1;
      CutOnlyAfterStreak(front, id);
      assert order == front + [order[n]] && order[..n] == front;
      OneMoreRow(front, order[n]);
      hide OpsOf, IsCut, CutIds;
      forall i | 0 <= i < |order| && CutAt(order, i, id) ensures Streak(OpsOf(order), MEOW_ABORT_THRESHOLD) {
        CutMeansStreak(order, i);
      }
      forall i | 0 <= i < n ensures CutAt(front, i, id) <==> CutAt(order, i, id) {
        assert front[..i] == order[..i];
      }
      assert CutAt(order, n, id) <==> order[n].id == id && IsCut(OpsOf(front), order[n]);
    }
  }

  lemma CutMeansStreak(order: seq<Target>, i: nat)
    requires i < |order| && IsCut(OpsOf(order[..i]), order[i])
    ensures Streak(OpsOf(order), MEOW_ABORT_THRESHOLD)
  {
    EarlierStreakStays(order, i);
  }

  // ---------------------------------------------------------------- the rows after a lane

  /** Neither the delay request nor the ping after it got an answer. */
  predicate Silent(t: Target) { t.reply.Unavailable? && !t.engineAnswers }

  /** Three silent rows, with no word about any proxy from the first to the last. */
  ghost predicate DeadStretch(order: seq<Target>) {
    exists i, j, k :: 0 <= i < j < k < |order| && Silent(order[i]) && Silent(order[j]) && Silent(order[k]) && Wordless(order, i, k)
  }

  ghost predicate Wordless(order: seq<Target>, i: int, k: int)
    requires 0 <= i && k <= |order|
  {
    forall m :: i < m < k ==> order[m].reply.Unavailable?
  }

  /** Row `id` started only after the rows before it had gone through a dead stretch. */
  ghost predicate FoundAborted(order: seq<Target>, id: int) {
    exists i :: 0 <= i < |order| && order[i].id == id && !order[i].started && DeadStretch(order[..i])
  }

  /** How a lane reaches its rows: by direct checks, or through the engine with its ping and
      reload answered (`up`) or not, and for a tunnel batch in which order. */
  datatype Means = ByConnect(lane: Lane) | ByRevival(up: bool) | ByTunnel(up: bool, order: seq<Target>)

  /** Row `p` became `q` by the answers the world gave about it. */
  ghost predicate Moved(c: Config, how: Means, p: Proxy, q: Proxy, t: Target) {
    match how
    case ByConnect(lane) =>
      var ok := t.vetted && t.connects;
      && Journaled(p, q, T1, ok)
      && if ok then DirectPassed(p, q, lane == Recheck || !NewestFailureWasTunnel(p.journal))
         else if lane == Recheck then LadderCharged(c, p, q, t.at)
         else CounterCharged(c, p, q, t.at, t.jitter, false)
    case ByRevival(up) =>
      var ok := t.vetted && up && t.included && t.reply.Answered?;
      && Journaled(p, q, T2, ok)
      && if ok then TunnelPassed(p, q)
         else if !t.vetted || (up && (!t.included || t.reply.ProxyFailed?)) then LadderCharged(c, p, q, t.at)
         else Unverified(p, q, t.at)
    case ByTunnel(up, order) =>
      var asked := t.vetted && up && t.included && !FoundAborted(order, t.id);
      var ok := asked && t.reply.Answered?;
      && Journaled(p, q, T2, ok)
      && if ok then TunnelPassed(p, q)
         else if !t.vetted || (up && !t.included) || (asked && !Silent(t)) then CounterCharged(c, p, q, t.at, t.jitter, true)
         else Unverified(p, q, t.at)
  }

  /** Of the rows `ts` names, those in `picked` moved; no other row changed, came or went. */
  ghost predicate Swept(c: Config, how: Means, before: Pool, after: Pool, ts: seq<Target>, picked: set<int>) {
    && after.Keys == before.Keys
    && (forall t :: t in ts && t.id in picked && t.id in before ==> Moved(c, how, before[t.id], after[t.id], t))
    && (forall id :: id in before && id !in picked ==> after[id] == before[id])
  }

  /** Row `i` was silent and nothing has been heard since. */
  ghost predicate SilentSince(order: seq<Target>, i: int) {
    0 <= i < |order| && Silent(order[i]) && Wordless(order, i, |order|)
  }

  ghost predicate OneDown(order: seq<Target>) { exists i :: SilentSince(order, i) }

  ghost predicate TwoDown(order: seq<Target>) { exists i, j :: i < j && SilentSince(order, i) && SilentSince(order, j) }

  lemma SilentSinceGrows(order: seq<Target>, t: Target, i: int)
    ensures i < |order| ==> (SilentSince(order + [t], i) <==> SilentSince(order, i) && t.reply.Unavailable?)
    ensures SilentSince(order + [t], |order|) <==> Silent(t)
  {
    var longer := order + [t];
    assert forall m :: 0 <= m < |order| ==> longer[m] == order[m];
    assert longer[|order|] == t;
  }

  lemma OneDownGrows(order: seq<Target>, t: Target)
    ensures OneDown(order + [t]) <==> t.reply.Unavailable? && (OneDown(order) || Silent(t))
  {
    var longer := order + [t];
    SilentSinceGrows(order, t, |order|);
    hide SilentSince;
    if OneDown(longer) {
      var i :| SilentSince(longer, i);
      SilentSinceBound(longer, i);
      SilentSinceGrows(order, t, i);
    }
    if OneDown(order) && t.reply.Unavailable? {
      var i :| SilentSince(order, i);
      SilentSinceBound(order, i);
      SilentSinceGrows(order, t, i);
    }
  }

  lemma SilentSinceBound(order: seq<Target>, i: int)
    requires SilentSince(order, i)
    ensures 0 <= i < |order| && order[|order| - 1].reply.Unavailable?
  {}

  lemma TwoDownGrows(order: seq<Target>, t: Target)
    ensures TwoDown(order + [t]) <==> t.reply.Unavailable? && (TwoDown(order) || (OneDown(order) && Silent(t)))
  {
    var longer := order + [t];
    forall i { SilentSinceGrows(order, t, i); }
    if TwoDown(longer) {
      var i, j :| i < j && SilentSince(longer, i) && SilentSince(longer, j);
      SilentSinceBound(longer, j);
    }
    if OneDown(order) && Silent(t) {
      var i :| SilentSince(order, i);
      SilentSinceBound(order, i);
      assert SilentSince(longer, i) && SilentSince(longer, |order|);
    }
    if TwoDown(order) && t.reply.Unavailable? {
      var i, j :| i < j && SilentSince(order, i) && SilentSince(order, j);
      SilentSinceBound(order, j);
      assert SilentSince(longer, i) && SilentSince(longer, j);
    }
  }

  lemma DeadStretchEndsOrNot(order: seq<Target>, t: Target)
    requires DeadStretch(order + [t])
    ensures DeadStretch(order) || (TwoDown(order) && Silent(t))
  {
    var longer, n := order + [t], |order|;
    var i, j, k :| 0 <= i < j < k < |longer| && Silent(longer[i]) && Silent(longer[j]) && Silent(longer[k]) && Wordless(longer, i, k);
    assert longer[i] == order[i] && longer[j] == order[j];
    if k < n {
      assert longer[k] == order[k];
      assert forall m :: 0 <= m < n ==> longer[m] == order[m];
      assert Wordless(order, i, k);
    } else {
      assert longer[k] == t;
      assert forall m :: 0 <= m < n ==> longer[m] == order[m];
      assert SilentSince(order, i) && SilentSince(order, j);
    }
  }

  lemma DeadStretchGrows(order: seq<Target>, t: Target)
    ensures DeadStretch(order + [t]) <==> DeadStretch(order) || (TwoDown(order) && Silent(t))
  {
    var longer, n := order + [t], |order|;
    if DeadStretch(longer) {
      DeadStretchEndsOrNot(order, t);
    }
    if DeadStretch(order) {
      var i, j, k :| 0 <= i < j < k < n && Silent(order[i]) && Silent(order[j]) && Silent(order[k]) && Wordless(order, i, k);
      assert longer[i] == order[i] && longer[j] == order[j] && longer[k] == order[k];
      assert Wordless(longer, i, k);
    }
    if TwoDown(order) && Silent(t) {
      var i, j :| i < j && SilentSince(order, i) && SilentSince(order, j);
      assert longer[i] == order[i] && longer[j] == order[j] && longer[n] == t;
      assert Wordless(longer, i, n);
    }
  }

  /** As long as no row has been cut, the counter holds the silent rows since the last word. */
  ghost predicate CountsSilence(order: seq<Target>) {
    var n := Trailing(OpsOf(order));
    (n >= 1 <==> OneDown(order)) && (n >= 2 <==> TwoDown(order))
  }

  lemma TrailingAfter(log: seq<Op>, t: Target)
    ensures Trailing(log + OpOf(t)) ==
            if !t.reply.Unavailable? then 0 else if Silent(t) then Trailing(log) + 1 else Trailing(log)
    ensures Streak(log + OpOf(t), MEOW_ABORT_THRESHOLD) <==>
              Streak(log, MEOW_ABORT_THRESHOLD) || (Silent(t) && Trailing(log) + 1 >= 3)
  {
    assert log + [] == log;
    assert forall op :: (log + [op])[..|log|] == log;
    StreakGrows(log, Fail, MEOW_ABORT_THRESHOLD);
    StreakGrows(log, Recover, MEOW_ABORT_THRESHOLD);
    hide Streak;
  }

  /** The guard sees a streak exactly when the rows that came to it hold a dead stretch. */
  lemma {:induction false} StreakMeansDeadStretch(order: seq<Target>)
    ensures Streak(OpsOf(order), MEOW_ABORT_THRESHOLD) <==> DeadStretch(order)
    ensures Streak(OpsOf(order), MEOW_ABORT_THRESHOLD) || CountsSilence(order)
    decreases |order|
  {
    if order == [] {
      assert OpsOf(order) == [];
    } else {
      var front, t := order[..|order| - 1], order[|order| - 1];
      assert order == front + [t];
      StreakMeansDeadStretch(front);
      OneMoreRow(front, t);
      TrailingAfter(OpsOf(front), t);
      OneDownGrows(front, t);
      TwoDownGrows(front, t);
      DeadStretchGrows(front, t);
      hide Streak, OpsOf, Trailing, OneDown, TwoDown, DeadStretch;
    }
  }

  /** Cut are exactly the rows that started after a dead stretch of the rows before them. */
  lemma CutMeansFoundAborted(order: seq<Target>, id: int)
    ensures id in CutIds(order) <==> FoundAborted(order, id)
  {
    CutOnlyAfterStreak(order, id);
    hide Streak, OpsOf, CutIds, DeadStretch;
    forall i | 0 <= i < |order|
      ensures CutAt(order, i, id) <==> order[i].id == id && !order[i].started && DeadStretch(order[..i])
    {
      StreakMeansDeadStretch(order[..i]);
    }
  }

  lemma ConnectMoves(c: Config, lane: Lane, p: Proxy, t: Target)
    requires !TunnelLane(lane)
    ensures Moved(c, ByConnect(lane), p, Judge(c, lane, p, Verdict(Direct(), t)), t)
  {
    DirectVerdictEffect(c, lane, p, Verdict(Direct(), t));
    hide Judge, Journaled, DirectPassed, LadderCharged, CounterCharged, NewestFailureWasTunnel;
  }

  lemma RevivalMoves(c: Config, up: bool, p: Proxy, t: Target)
    ensures Moved(c, ByRevival(up), p, Judge(c, Revival, p, Verdict(Revived(up), t)), t)
  {
    TunnelVerdictEffect(c, Revival, p, Verdict(Revived(up), t));
    hide Judge, Journaled, TunnelPassed, LadderCharged, Unverified;
  }

  lemma TunnelMoves(c: Config, up: bool, order: seq<Target>, p: Proxy, t: Target)
    requires t.id in CutIds(order) <==> FoundAborted(order, t.id)
    ensures Moved(c, ByTunnel(up, order), p, Judge(c, Tunnel, p, Verdict(Tunnelled(up, CutIds(order)), t)), t)
  {
    TunnelVerdictEffect(c, Tunnel, p, Verdict(Tunnelled(up, CutIds(order)), t));
    hide Judge, Journaled, TunnelPassed, CounterCharged, Unverified, CutIds, FoundAborted;
  }

  /** The judged rows of `ts`, and only those, moved. */
  lemma LaneSweeps(c: Config, lane: Lane, how: Means, pool: Pool, ts: seq<Target>, due: seq<Target>, outcome: Target -> Outcome,
                   picked: set<int>)
    requires DistinctIds(ts) && DistinctIds(due) && (forall t :: t in due ==> t in ts)
    requires forall t :: t in ts && t.id in pool ==> (t in due <==> t.id in picked)
    requires forall t :: t in due && t.id in pool ==> Moved(c, how, pool[t.id], Judge(c, lane, pool[t.id], Verdict(outcome, t)), t)
    ensures Swept(c, how, pool, ApplyLane(c, lane, pool, Verdicts(outcome, due)), ts, picked)
  {
    var checks := Verdicts(outcome, due);
    var after := ApplyLane(c, lane, pool, checks);
    LaneKeepsTheRows(c, lane, pool, checks);
    hide ApplyLane, Judge, Moved, VerdictOn;
    forall id | id in pool
      ensures forall t :: t in due && t.id == id ==> after[id] == Judge(c, lane, pool[id], Verdict(outcome, t))
      ensures (forall t :: t in due ==> t.id != id) ==> after[id] == pool[id]
    {
      LaneMovesEachRowOnce(c, lane, pool, checks, id);
      VerdictOfDue(due, outcome, id);
    }
    forall id | id in pool && id !in picked ensures after[id] == pool[id] {
      assert forall t :: t in due ==> t.id != id;
    }
  }

  lemma ConnectsSweep(c: Config, lane: Lane, pool: Pool, candidates: seq<Target>)
    requires DistinctIds(candidates) && !TunnelLane(lane)
    ensures Swept(c, ByConnect(lane), pool, ApplyLane(c, lane, pool, Verdicts(Direct(), Dialable(candidates))), candidates,
                  set t | t in candidates && t.dialable :: t.id)
  {
    var due, picked := Dialable(candidates), set t | t in candidates && t.dialable :: t.id;
    FilterKeepsDistinct(IsDialable, candidates);
    FilterMembers(IsDialable, candidates);
    hide Moved, Swept, Judge, Filter;
    forall t | t in due && t.id in pool { ConnectMoves(c, lane, pool[t.id], t); }
    LaneSweeps(c, lane, ByConnect(lane), pool, candidates, due, Direct(), picked);
  }

  lemma RevivalSweeps(c: Config, up: bool, pool: Pool, due: seq<Target>)
    requires DistinctIds(due)
    ensures Swept(c, ByRevival(up), pool, ApplyLane(c, Revival, pool, Verdicts(Revived(up), due)), due, SetOf(IdsOf(due)))
  {
    hide Moved, Swept, Judge, Filter;
    forall t | t in due && t.id in pool { RevivalMoves(c, up, pool[t.id], t); }
    LaneSweeps(c, Revival, ByRevival(up), pool, due, due, Revived(up), SetOf(IdsOf(due)));
  }

  /** The rows a tunnel batch is about: not covered yet, and of a scheme the engine speaks. */
  function ForTunnel(pool: Pool, candidates: seq<Target>, covered: seq<int>): set<int> {
    set t | t in candidates && t.id !in covered && t.id in pool && pool[t.id].scheme !in {Tuic, Mieru, Naive} :: t.id
  }

  lemma DueRowsSweep(c: Config, up: bool, order: seq<Target>, pool: Pool, due: seq<Target>)
    requires DistinctIds(due)
    ensures Swept(c, ByTunnel(up, order), pool, ApplyLane(c, Tunnel, pool, Verdicts(Tunnelled(up, CutIds(order)), due)),
                  due, SetOf(IdsOf(due)))
  {
    hide Moved, Swept, Judge, CutIds, FoundAborted, Verdict, Tunnelled, DistinctIds, ApplyLane;
    forall t | t in due && t.id in pool
      ensures Moved(c, ByTunnel(up, order), pool[t.id], Judge(c, Tunnel, pool[t.id], Verdict(Tunnelled(up, CutIds(order)), t)), t)
    {
      CutMeansFoundAborted(order, t.id);
      TunnelMoves(c, up, order, pool[t.id], t);
    }
    LaneSweeps(c, Tunnel, ByTunnel(up, order), pool, due, due, Tunnelled(up, CutIds(order)), SetOf(IdsOf(due)));
  }

  lemma TunnelsSweep(c: Config, up: bool, order: seq<Target>, pool: Pool, candidates: seq<Target>, covered: seq<int>)
    requires DistinctIds(candidates)
    ensures Swept(c, ByTunnel(up, order), pool,
                  ApplyLane(c, Tunnel, pool, Verdicts(Tunnelled(up, CutIds(order)), T2Due(pool, candidates, covered))),
                  candidates, ForTunnel(pool, candidates, covered))
  {
    var due := T2Due(pool, candidates, covered);
    T2DueIsDistinct(pool, candidates, covered);
    DueRowsSweep(c, up, order, pool, due);
    IdsAre(due);
    hide Swept, T2Due, CutIds, Tunnelled, ApplyLane, IdsOf, SetOf;
    SweptOutOf(c, ByTunnel(up, order), pool, ApplyLane(c, Tunnel, pool, Verdicts(Tunnelled(up, CutIds(order)), due)),
               due, SetOf(IdsOf(due)), candidates, ForTunnel(pool, candidates, covered));
  }

  /** The rows a lane takes, out of those its query looked at: the ones it may take as they stand,
      less those handed over, and for direct checks only where there is an address to connect to. */
  function Takes(lane: Lane, pool: Pool, now: int, covered: set<int>, seen: seq<Target>): set<int> {
    set t | t in seen && t.id in pool && lane in LanesOf(pool[t.id], now) && t.id !in covered
            && (lane == Revival || lane == Tunnel || t.dialable) :: t.id
  }

  /** A sweep of some of the rows is one of all that were looked at. */
  lemma SweptOutOf(c: Config, how: Means, before: Pool, after: Pool, few: seq<Target>, pickedFew: set<int>,
                   ts: seq<Target>, picked: set<int>)
    requires Swept(c, how, before, after, few, pickedFew)
    requires forall t :: t in ts && t.id in picked && t.id in before ==> t in few && t.id in pickedFew
    requires forall id :: id in pickedFew && id in before ==> id in picked
    ensures Swept(c, how, before, after, ts, picked)
  {
    hide Moved;
  }

  /** Direct checks of what a selector offered, less what was handed over. */
  lemma ConnectsOutOf(c: Config, lane: Lane, now: int, covered: seq<int>, before: Pool, after: Pool, seen: seq<Target>)
    requires DistinctIds(seen) && !TunnelLane(lane)
    requires var candidates := Uncovered(Offered(lane, before, now, seen), covered);
      Swept(c, ByConnect(lane), before, after, candidates, set t | t in candidates && t.dialable :: t.id)
    ensures Swept(c, ByConnect(lane), before, after, seen, Takes(lane, before, now, SetOf(covered), seen))
  {
    var offered := Offered(lane, before, now, seen);
    FilterMembers(OfferedBy(lane, before, now), seen);
    FilterMembers(NotIn(covered), offered);
    forall t | t in seen && t.id in before { SelectorsByRow(lane, before[t.id], now); }
    var candidates := Uncovered(offered, covered);
    hide Swept, Filter, Eligible, LanesOf;
    SweptOutOf(c, ByConnect(lane), before, after, candidates, set t | t in candidates && t.dialable :: t.id,
               seen, Takes(lane, before, now, SetOf(covered), seen));
  }

  lemma NothingCovered(ts: seq<Target>)
    ensures Uncovered(ts, []) == ts
  {
    KeepsAll(NotIn([]), ts);
  }

  lemma {:induction false} KeepsAll(keep: Target -> bool, ts: seq<Target>)
    requires forall t :: keep(t)
    ensures Filter(keep, ts) == ts
  {
    if ts != [] {
      KeepsAll(keep, ts[..|ts| - 1]);
    }
  }

  lemma OfferedToRevive(now: int, pool: Pool, seen: seq<Target>)
    requires DistinctIds(seen)
    ensures forall t :: t in Offered(Revival, pool, now, seen) <==> t in seen && t.id in Takes(Revival, pool, now, {}, seen)
  {
    FilterMembers(OfferedBy(Revival, pool, now), seen);
    forall t | t in seen && t.id in pool { SelectorsByRow(Revival, pool[t.id], now); }
    hide Filter, Eligible, LanesOf;
  }

  lemma RevivalsOutOf(c: Config, up: bool, now: int, before: Pool, after: Pool, seen: seq<Target>)
    requires DistinctIds(seen)
    requires var due := Offered(Revival, before, now, seen); Swept(c, ByRevival(up), before, after, due, SetOf(IdsOf(due)))
    ensures Swept(c, ByRevival(up), before, after, seen, Takes(Revival, before, now, {}, seen))
  {
    OfferedToRevive(now, before, seen);
    var due := Offered(Revival, before, now, seen);
    hide Swept, Filter, Takes;
    forall id | id in SetOf(IdsOf(due)) ensures id in Takes(Revival, before, now, {}, seen) {
      var i :| 0 <= i < |due| && due[i].id == id;
      assert due[i] in due;
    }
    SweptOutOf(c, ByRevival(up), before, after, due, SetOf(IdsOf(due)), seen, Takes(Revival, before, now, {}, seen));
  }

  lemma TunnelsOutOf(c: Config, up: bool, order: seq<Target>, now: int, covered: seq<int>, before: Pool, after: Pool,
                     seen: seq<Target>)
    requires DistinctIds(seen)
    requires var candidates := Offered(Tunnel, before, now, seen);
      Swept(c, ByTunnel(up, order), before, after, candidates, ForTunnel(before, candidates, covered))
    ensures Swept(c, ByTunnel(up, order), before, after, seen, Takes(Tunnel, before, now, SetOf(covered), seen))
  {
    var candidates := Offered(Tunnel, before, now, seen);
    FilterMembers(OfferedBy(Tunnel, before, now), seen);
    forall t | t in seen && t.id in before { SelectorsByRow(Tunnel, before[t.id], now); }
    forall t | t in seen && t.id in before ensures Tunnel in LanesOf(before[t.id], now) ==> before[t.id].scheme !in {Tuic, Mieru, Naive} {}
    hide Swept, Filter, Eligible, LanesOf;
    SweptOutOf(c, ByTunnel(up, order), before, after, candidates, ForTunnel(before, candidates, covered),
               seen, Takes(Tunnel, before, now, SetOf(covered), seen));
  }

  /** The queue lane claims what it was offered, with an address or without; the sample lane claims
      what it takes. */
  lemma ClaimsOf(lane: Lane, now: int, covered: seq<int>, pool: Pool, seen: seq<Target>)
    requires DistinctIds(seen) && !TunnelLane(lane)
    ensures SetOf(IdsOf(Offered(lane, pool, now, seen))) ==
            set t | t in seen && t.id in pool && lane in LanesOf(pool[t.id], now) :: t.id
    ensures SetOf(IdsOf(Dialable(Uncovered(Offered(lane, pool, now, seen), covered)))) == Takes(lane, pool, now, SetOf(covered), seen)
  {
    var offered := Offered(lane, pool, now, seen);
    FilterMembers(OfferedBy(lane, pool, now), seen);
    FilterMembers(NotIn(covered), offered);
    FilterMembers(IsDialable, Uncovered(offered, covered));
    forall t | t in seen && t.id in pool { SelectorsByRow(lane, pool[t.id], now); }
    IdsAre(offered);
    IdsAre(Dialable(Uncovered(offered, covered)));
    hide Filter, Eligible, LanesOf, SetOf, IdsOf;
  }

  lemma IdsAre(ts: seq<Target>)
    ensures SetOf(IdsOf(ts)) == set t | t in ts :: t.id
  {
    forall id | id in SetOf(IdsOf(ts)) ensures exists t :: t in ts && t.id == id {
      var i :| 0 <= i < |ts| && ts[i].id == id;
      assert ts[i] in ts;
    }
  }

  /** One lane of a cycle: the rows it takes move as its answers say. */
  ghost predicate LaneMoves(c: Config, lane: Lane, how: Means, now: int, covered: set<int>, run: LaneRun, seen: seq<Target>) {
    Swept(c, how, run.judged, Left(c, lane, run), seen, Takes(lane, run.judged, now, covered, seen))
  }

  lemma LaneMovesHolds(c: Config, lane: Lane, now: int, covered: seq<int>, run: LaneRun, after: Pool, seen: seq<Target>)
    requires after == ApplyLane(c, lane, run.judged, run.checks)
    requires Swept(c, ByConnect(lane), run.judged, after, seen, Takes(lane, run.judged, now, SetOf(covered), seen))
    ensures after == Left(c, lane, run) && LaneMoves(c, lane, ByConnect(lane), now, SetOf(covered), run, seen)
    ensures covered == [] ==> SetOf(covered) == {}
  {
    hide Swept, Takes, ApplyLane;
  }

  /** All five lanes, with what they hand over; a tunnel lane within the backoff changes nothing. */
  ghost predicate CycleMoves(c: Config, seen: Seen, up: EngineAnswers, cy: Cycle, retry0: int, retry1: int, order: seq<Target>) {
    && (if up.revivalClock < retry0 then Left(c, Revival, cy.revival) == cy.revival.judged
        else LaneMoves(c, Revival, ByRevival(up.revivalPing && up.revivalReload), cy.now, {}, cy.revival, seen.revival))
    && LaneMoves(c, Recheck, ByConnect(Recheck), cy.now, {}, cy.recheck, seen.recheck)
    && LaneMoves(c, Queue, ByConnect(Queue), cy.now, {}, cy.queue, seen.queue)
    && LaneMoves(c, Sample, ByConnect(Sample), cy.now, cy.queue.claimed, cy.sample, seen.sample)
    && (if up.tunnelClock < retry1 then Left(c, Tunnel, cy.tunnel) == cy.tunnel.judged
        else LaneMoves(c, Tunnel, ByTunnel(up.tunnelPing && up.tunnelReload, order), cy.now, cy.sample.claimed, cy.tunnel, seen.tunnel))
    && cy.queue.claimed ==
       (set t | t in seen.queue && t.id in cy.queue.judged && Queue in LanesOf(cy.queue.judged[t.id], cy.now) :: t.id)
    && cy.sample.claimed == Takes(Sample, cy.sample.judged, cy.now, cy.queue.claimed, seen.sample)
  }

  /** The rows that race are those of the batch that pass the policy and are in the config. */
  ghost predicate Racers(order: seq<Target>, up: bool, pool: Pool, candidates: seq<Target>, covered: seq<int>) {
    && DistinctIds(order)
    && forall t :: t in order <==>
         up && t in candidates && t.id in ForTunnel(pool, candidates, covered) && t.vetted && t.included
  }

  lemma RacersOf(pool: Pool, candidates: seq<Target>, covered: seq<int>, order: seq<Target>)
    requires DistinctIds(candidates)
    requires multiset(order) == multiset(Serializable(Vetted(T2Due(pool, candidates, covered))))
    ensures Racers(order, true, pool, candidates, covered)
  {
    var due := T2Due(pool, candidates, covered);
    T2DueIsDistinct(pool, candidates, covered);
    FilterKeepsDistinct(IsVetted, due);
    FilterKeepsDistinct(IsSerializable, Vetted(due));
    FilterMembers(IsVetted, due);
    FilterMembers(IsSerializable, Vetted(due));
    PermutationKeepsDistinct(Serializable(Vetted(due)), order);
    hide T2Due, Filter, DistinctIds;
    DueForTunnel(pool, candidates, covered);
  }

  lemma DueForTunnel(pool: Pool, candidates: seq<Target>, covered: seq<int>)
    requires DistinctIds(candidates)
    ensures forall t :: t in candidates && t.id in ForTunnel(pool, candidates, covered) <==> t in T2Due(pool, candidates, covered)
  {
    T2DueIsDistinct(pool, candidates, covered);
    hide T2Due;
  }

  datatype LaneOutcome = LaneOutcome(checked: nat, claimed: seq<int>)
  datatype T2Outcome = T2Outcome(checked: nat, aborted: nat, skipped: nat)

  function IdsOf(ts: seq<Target>): (r: seq<int>)
    ensures |r| == |ts| && forall i :: 0 <= i < |ts| ==> r[i] == ts[i].id
    ensures forall t :: t in ts ==> t.id in r
  {
    var r := seq(|ts|, i requires 0 <= i < |ts| => ts[i].id);
    assert forall i :: 0 <= i < |ts| ==> r[i] == ts[i].id;
    r
  }

  function SetOf(ids: seq<int>): set<int> { set x | x in ids }

  /** The engine's retry state after a batch that began with `outages0` and `retry0`: as it was if
      the batch was idle, one more wait if the engine was down at its start, and a first wait
      if it died under way. */
  predicate EngineAfter(initial: Seconds, max: Seconds, clock: Seconds, outages0: nat, retry0: Seconds,
                        idle: bool, up: bool, died: bool, outages: nat, retryAt: Seconds)
  {
    if idle then outages == outages0 && retryAt == retry0
    else if !up then outages == outages0 + 1 && retryAt == Saturate(clock + Wait(initial, max, outages0))
    else if died then outages == 1 && retryAt == Saturate(clock + initial)
    else outages == 0 && retryAt == 0
  }

  lemma EngineCases(initial: Seconds, max: Seconds, clock: Seconds, outages: nat, retryAt: Seconds, up: bool, died: bool)
    ensures EngineAfter(initial, max, clock, outages, retryAt, true, up, died, outages, retryAt)
    ensures EngineAfter(initial, max, clock, outages, retryAt, false, false, died, outages + 1,
                        Saturate(clock + Wait(initial, max, outages)))
    ensures EngineAfter(initial, max, clock, outages, retryAt, false, true, false, 0, 0)
  {}

  class Daemon {
    const config: Config
    const engine: Engine
    var rows: Pool

    constructor (config: Config, engine: Engine, rows: Pool)
      ensures this.config == config && this.engine == engine && this.rows == rows
    {
      this.config, this.engine, this.rows := config, engine, rows;
    }

    /** Journal one attempt and move its row. */
    method Settle(lane: Lane, x: Check)
      modifies this`rows
      ensures rows == ApplyCheck(config, lane, old(rows), x)
    {
      if x.id in rows {
        rows := rows[x.id := Judge(config, lane, rows[x.id], x)];
      }
    }

    /** Direct checks of one lane.  Refused targets fail on the spot; the others run as tasks
        whose verdicts land in any order.  The rows end up as if every candidate had been
        judged in turn, and the lane reports exactly the rows it judged. */
    method RunT1Checks(lane: Lane, candidates: seq<Target>) returns (out: LaneOutcome)
      requires DistinctIds(candidates)
      modifies this`rows
      ensures rows == ApplyLane(config, lane, old(rows), Verdicts(Direct(), Dialable(candidates)))
      ensures out.claimed == IdsOf(Dialable(candidates)) && out.checked == |Dialable(candidates)|
      ensures !TunnelLane(lane) ==>
                Swept(config, ByConnect(lane), old(rows), rows, candidates, set t | t in candidates && t.dialable :: t.id)
    {
      hide Progress, ApplyLane, Swept;
      if !TunnelLane(lane) { ConnectsSweep(config, lane, rows, candidates); }
      var ready := Dialable(candidates);
      FilterKeepsDistinct(IsDialable, candidates);
      FilterMembers(IsDialable, candidates);
      var tasks: seq<Target>, claimed: seq<int>, blocked: nat := [], [], 0;
      ghost var done: seq<Target> := [];
      NothingSeenYet(config, lane, Direct(), rows);
      Ends(ready);
      for i := 0 to |ready|
        invariant claimed == IdsOf(ready[..i]) && blocked == |done|
        invariant Progress(config, lane, Direct(), old(rows), rows, ready[..i], done, tasks)
        invariant forall t :: t in tasks ==> t.vetted
      {
        var t := ready[i];
        assert ready[..i + 1] == ready[..i] + [t];
        if t.vetted {
          OneMoreWaits(config, lane, Direct(), old(rows), rows, ready[..i], done, tasks, t);
          tasks := tasks + [t];
        } else {
          SettledAtOnce(config, lane, Direct(), old(rows), rows, ready[..i], done, tasks, t);
          Settle(lane, Check(t.id, Failed, t.at, t.jitter));
          done := done + [t];
          blocked := blocked + 1;
        }
        claimed := claimed + [t.id];
      }
      var finished := 0;
      while tasks != []
        invariant finished + blocked == |done|
        invariant Progress(config, lane, Direct(), old(rows), rows, ready, done, tasks)
        invariant forall t :: t in tasks ==> t.vetted
        decreases |tasks|
      {
        var k :| 0 <= k < |tasks|;
        var t := tasks[k];
        WaitingTaskSettles(config, lane, Direct(), old(rows), rows, ready, done, tasks, k);
        Settle(lane, Check(t.id, if t.connects then Passed else Failed, t.at, t.jitter));
        done := done + [t];
        tasks := Without(tasks, k);
        finished := finished + 1;
      }
      AllSettled(config, lane, Direct(), old(rows), rows, ready, done);
      out := LaneOutcome(finished + blocked, claimed);
    }

    /** The address policy over a tunnel batch: refused rows fail at once, the others wait. */
    method VetBatch(lane: Lane, due: seq<Target>, ghost outcome: Target -> Outcome)
      returns (batch: seq<Target>, blocked: nat, ghost done: seq<Target>)
      requires forall t :: t in due && !t.vetted ==> outcome(t) == Failed
      modifies this`rows
      ensures Progress(config, lane, outcome, old(rows), rows, due, done, batch)
      ensures blocked == |done| && blocked + |batch| == |due| && batch == Vetted(due)
      ensures (forall t :: t in batch ==> t.vetted) && Refused(done)
    {
      batch, blocked, done := [], 0, [];
      VettingBegins(config, lane, outcome, rows, due);
      hide *;
      for i := 0 to |due|
        invariant blocked == |done| && blocked + |batch| == i && batch == Vetted(due[..i]) && Refused(done)
        invariant Progress(config, lane, outcome, old(rows), rows, due[..i], done, batch)
      {
        var t := due[i];
        assert t in due;
        VettedNext(due, i);
        if t.vetted {
          OneMoreWaits(config, lane, outcome, old(rows), rows, due[..i], done, batch, t);
          batch := batch + [t];
        } else {
          RefusedNext(done, t, outcome);
          SettledAtOnce(config, lane, outcome, old(rows), rows, due[..i], done, batch, t);
          Settle(lane, Check(t.id, Failed, t.at, t.jitter));
          blocked := blocked + 1;
          done := done + [t];
        }
      }
      VettedMembers(due);
    }

    /** An outage at ping or reload time: every row of the batch is journaled unverified. */
    method FaultAll(lane: Lane, batch: seq<Target>, ghost due: seq<Target>, ghost outcome: Target -> Outcome,
                    ghost before: Pool, ghost done0: seq<Target>) returns (ghost done: seq<Target>)
      requires Progress(config, lane, outcome, before, rows, due, done0, batch)
      requires forall t :: t in batch ==> outcome(t) == EngineFault
      modifies this`rows
      ensures Progress(config, lane, outcome, before, rows, due, done, [])
      ensures |done| == |done0| + |batch|
    {
      hide Progress, ApplyLane;
      done := done0;
      assert batch[0..] == batch;
      for i := 0 to |batch|
        invariant Progress(config, lane, outcome, before, rows, due, done, batch[i..])
        invariant |done| == |done0| + i
      {
        var t := batch[i];
        WaitingTaskSettles(config, lane, outcome, before, rows, due, done, batch[i..], 0);
        assert Without(batch[i..], 0) == batch[i + 1..];
        Settle(lane, Check(t.id, EngineFault, t.at, t.jitter));
        done := done + [t];
      }
    }

    /** Second chances through the tunnel.  Within the backoff window nothing happens; else each
        due row gets one verdict, and an engine outage charges none of them. */
    method ReviveQuarantined(due: seq<Target>, clock: Seconds, pingUp: bool, reloadUp: bool) returns (checked: nat)
      requires DistinctIds(due) && engine.Valid()
      modifies this`rows, engine
      ensures engine.Valid()
      ensures checked == if clock < old(engine.retryAt) then 0 else |due|
      ensures rows == ApplyLane(config, Revival, old(rows),
                                if clock < old(engine.retryAt) then [] else Verdicts(Revived(pingUp && reloadUp), due))
      ensures clock < old(engine.retryAt) ==> rows == old(rows)
      ensures clock >= old(engine.retryAt) ==>
                Swept(config, ByRevival(pingUp && reloadUp), old(rows), rows, due, SetOf(IdsOf(due)))
      ensures var idle := clock < old(engine.retryAt) || forall t :: t in due ==> !t.vetted;
        EngineAfter(engine.initial, engine.max, clock, old(engine.outages), old(engine.retryAt), idle, pingUp && reloadUp, false,
                    engine.outages, engine.retryAt)
    {
      ghost var up := pingUp && reloadUp;
      ghost var outcome := Revived(up);
      RevivalVerdicts(up);
      RevivalSweeps(config, up, rows, due);
      NothingJudged(config, Revival, rows, outcome);
      EngineCases(engine.initial, engine.max, clock, engine.outages, engine.retryAt, up, false);
      hide *;
      checked := 0;
      if clock < engine.retryAt {
        return;
      }
      var batch, blocked, done := VetBatch(Revival, due, outcome);
      checked := blocked;
      BatchMembers(config, Revival, outcome, old(rows), rows, due, done, batch);
      assert (forall t :: t in due ==> !t.vetted) <==> batch == [] by { NoneLeftIffRefused(due, done, batch); }
      if batch == [] {
        AllSettled(config, Revival, outcome, old(rows), rows, due, done);
        return;
      }
      if !pingUp || !reloadUp {
        engine.Backoff(clock);
        done := FaultAll(Revival, batch, due, outcome, old(rows), done);
        checked := checked + |batch|;
        AllSettled(config, Revival, outcome, old(rows), rows, due, done);
        return;
      }
      engine.Recovered();
      var answered := RunRevivalTasks(batch, due, old(rows), done);
      checked := checked + answered;
    }

    /** The second chances under way: one request each, in any order. */
    method RunRevivalTasks(tasks0: seq<Target>, ghost due: seq<Target>, ghost before: Pool, ghost done0: seq<Target>)
      returns (checked: nat)
      requires Progress(config, Revival, Revived(true), before, rows, due, done0, tasks0)
      requires DistinctIds(due) && forall t :: t in tasks0 ==> t.vetted
      modifies this`rows
      ensures rows == ApplyLane(config, Revival, before, Verdicts(Revived(true), due))
      ensures checked == |tasks0|
    {
      hide Progress, ApplyLane;
      var tasks := tasks0;
      ghost var done := done0;
      checked := 0;
      while tasks != []
        invariant checked + |tasks| == |tasks0|
        invariant Progress(config, Revival, Revived(true), before, rows, due, done, tasks)
        invariant forall t :: t in tasks ==> t.vetted
        decreases |tasks|
      {
        var k :| 0 <= k < |tasks|;
        var t := tasks[k];
        WaitingTaskSettles(config, Revival, Revived(true), before, rows, due, done, tasks, k);
        var verdict := if !t.included then Failed else
          match t.reply
          case Answered(_) => Passed
          case ProxyFailed => Failed
          case Unavailable => EngineFault;
        Settle(Revival, Check(t.id, verdict, t.at, t.jitter));
        done := done + [t];
        tasks := Without(tasks, k);
        checked := checked + 1;
      }
      AllSettled(config, Revival, Revived(true), before, rows, due, done);
    }

    /** The tunnel batch.  Every supported row that no direct check covered gets exactly one
        verdict and is counted exactly once.  `order` is the order in which the rows that reach the
        engine come to the guard: it decides which of them find the batch aborted, and the engine
        backs off exactly when the guard has seen a streak.  An engine fault charges no row. */
    method ProbeT2Batch(candidates: seq<Target>, covered: seq<int>, clock: Seconds, pingUp: bool, reloadUp: bool)
      returns (out: T2Outcome, ghost order: seq<Target>)
      requires DistinctIds(candidates) && engine.Valid()
      modifies this`rows, engine
      ensures engine.Valid()
      ensures clock < old(engine.retryAt) ==>
                out == T2Outcome(0, 0, 0) && rows == old(rows) && engine.outages == old(engine.outages)
                && engine.retryAt == old(engine.retryAt)
      ensures clock >= old(engine.retryAt) ==>
                var due := T2Due(old(rows), candidates, covered);
                var up := pingUp && reloadUp;
                && rows == ApplyLane(config, Tunnel, old(rows), Verdicts(Tunnelled(up, CutIds(order)), due))
                && multiset(order) == (if up then multiset(Serializable(Vetted(due))) else multiset{})
                && out.checked + out.aborted + out.skipped == |due|
                && out.aborted == (if up then |CutIds(order)| else |Vetted(due)|)
                && out.skipped == (if up then |Vetted(due)| - |Serializable(Vetted(due))| else 0)
                && EngineAfter(engine.initial, engine.max, clock, old(engine.outages), old(engine.retryAt),
                               Refused(due), up, DeadStretch(order), engine.outages, engine.retryAt)
                && Swept(config, ByTunnel(up, order), old(rows), rows, candidates, ForTunnel(old(rows), candidates, covered))
                && Racers(order, up, old(rows), candidates, covered)
    {
      out, order := T2Outcome(0, 0, 0), [];
      if clock < engine.retryAt {
        return;
      }
      ghost var up := pingUp && reloadUp;
      var due := T2Due(rows, candidates, covered);
      T2DueIsDistinct(rows, candidates, covered);
      var batch, blocked, done := VetBatch(Tunnel, due, Tunnelled(up, {}));
      NoRowYet();
      EngineCases(engine.initial, engine.max, clock, engine.outages, engine.retryAt, up, DeadStretch([]));
      hide *;
      BatchMembers(config, Tunnel, Tunnelled(up, {}), old(rows), rows, due, done, batch);
      out := T2Outcome(blocked, 0, 0);
      if batch == [] {
        NothingSerializable();
        AllSettled(config, Tunnel, Tunnelled(up, {}), old(rows), rows, due, done);
        BatchEnds(old(rows), candidates, covered, up, order);
        return;
      }
      NoneLeftIffRefused(due, done, batch);
      var checked, aborted, skipped;
      checked, aborted, skipped, order := RunThroughEngine(batch, due, old(rows), done, clock, pingUp, reloadUp);
      out := T2Outcome(blocked + checked, aborted, skipped);
      BatchEnds(old(rows), candidates, covered, up, order);
    }

    /** What the lists of a finished batch mean. */
    lemma BatchEnds(before: Pool, candidates: seq<Target>, covered: seq<int>, up: bool, order: seq<Target>)
      requires DistinctIds(candidates)
      requires multiset(order) ==
               (if up then multiset(Serializable(Vetted(T2Due(before, candidates, covered)))) else multiset{})
      ensures Swept(config, ByTunnel(up, order), before,
                    ApplyLane(config, Tunnel, before, Verdicts(Tunnelled(up, CutIds(order)), T2Due(before, candidates, covered))),
                    candidates, ForTunnel(before, candidates, covered))
      ensures Racers(order, up, before, candidates, covered)
    {
      hide *;
      TunnelsSweep(config, up, order, before, candidates, covered);
      if up {
        RacersOf(before, candidates, covered, order);
      } else {
        NoRacers(order, before, candidates, covered);
      }
    }

    /** The vetted rows of a batch: an outage at ping or reload time faults them all, else those
        outside the generated config are settled and the others race. */
    method RunThroughEngine(batch: seq<Target>, ghost due: seq<Target>, ghost before: Pool, ghost done0: seq<Target>,
                            clock: Seconds, pingUp: bool, reloadUp: bool)
      returns (checked: nat, aborted: nat, skipped: nat, ghost order: seq<Target>)
      requires Progress(config, Tunnel, Tunnelled(pingUp && reloadUp, {}), before, rows, due, done0, batch)
      requires DistinctIds(due) && engine.Valid() && (forall t :: t in batch ==> t.vetted)
      modifies this`rows, engine
      ensures engine.Valid()
      ensures var up := pingUp && reloadUp;
        && rows == ApplyLane(config, Tunnel, before, Verdicts(Tunnelled(up, CutIds(order)), due))
        && multiset(order) == (if up then multiset(Serializable(batch)) else multiset{})
        && checked + aborted + skipped == |batch|
        && aborted == (if up then |CutIds(order)| else |batch|)
        && skipped == (if up then |batch| - |Serializable(batch)| else 0)
        && EngineAfter(engine.initial, engine.max, clock, old(engine.outages), old(engine.retryAt), false, up,
                       DeadStretch(order), engine.outages, engine.retryAt)
        && Swept(config, ByTunnel(up, order), before, rows, due, SetOf(IdsOf(due)))
    {
      NoRowYet();
      hide Progress, ApplyLane, OpsOf, CutIds, Serializable, DistinctIds, Wait, Swept, DeadStretch;
      if !pingUp || !reloadUp {
        engine.Backoff(clock);
        ghost var done := FaultAll(Tunnel, batch, due, Tunnelled(false, {}), before, done0);
        AllSettled(config, Tunnel, Tunnelled(false, {}), before, rows, due, done);
        DueRowsSweep(config, false, [], before, due);
        return 0, |batch|, 0, [];
      }
      engine.Recovered();
      var tasks;
      ghost var done;
      tasks, skipped, done := SkipUnserializable(batch, due, before, done0);
      checked, aborted, order := RunTunnelTasks(tasks, due, before, done, clock);
    }

    /** One row: a task when the generated config holds it, else a failure of its own. */
    method SkipOrKeep(batch: seq<Target>, i: nat, tasks: seq<Target>, ghost due: seq<Target>, ghost before: Pool,
                      ghost done0: seq<Target>) returns (ghost done: seq<Target>)
      requires i < |batch| && batch[i].vetted
      requires Progress(config, Tunnel, Tunnelled(true, {}), before, rows, due, done0, Waiting(tasks, batch, i))
      modifies this`rows
      ensures Progress(config, Tunnel, Tunnelled(true, {}), before, rows, due, done,
                       Waiting(if batch[i].included then tasks + [batch[i]] else tasks, batch, i + 1))
    {
      hide Progress, ApplyLane, Waiting, Tunnelled, Without;
      var t := batch[i];
      done := done0;
      PassOver(tasks, batch, i);
      if !t.included {
        ghost var waiting := Waiting(tasks, batch, i);
        WaitingTaskSettles(config, Tunnel, Tunnelled(true, {}), before, rows, due, done, waiting, |tasks|);
        UnserializableFails({}, t);
        Settle(Tunnel, Check(t.id, Failed, t.at, t.jitter));
        done := done + [t];
      }
    }

    /** Rows the generated config does not hold fail with their own reason. */
    method SkipUnserializable(batch: seq<Target>, ghost due: seq<Target>, ghost before: Pool, ghost done0: seq<Target>)
      returns (tasks: seq<Target>, skipped: nat, ghost done: seq<Target>)
      requires Progress(config, Tunnel, Tunnelled(true, {}), before, rows, due, done0, batch)
      requires forall t :: t in batch ==> t.vetted
      modifies this`rows
      ensures Progress(config, Tunnel, Tunnelled(true, {}), before, rows, due, done, tasks)
      ensures skipped + |tasks| == |batch| && tasks == Serializable(batch)
      ensures forall t :: t in tasks ==> t.vetted && t.included
    {
      WaitingEnds([], batch);
      SerializableEnds(batch);
      hide Progress, ApplyLane, Filter, Serializable, Waiting, Tunnelled;
      tasks, skipped, done := [], 0, done0;
      for i := 0 to |batch|
        invariant Progress(config, Tunnel, Tunnelled(true, {}), before, rows, due, done, Waiting(tasks, batch, i))
        invariant skipped + |tasks| == i && tasks == Serializable(batch[..i])
        invariant forall t :: t in tasks ==> t.vetted && t.included
      {
        SerializableNext(batch, i);
        done := SkipOrKeep(batch, i, tasks, due, before, done);
        if batch[i].included {
          tasks := tasks + [batch[i]];
        } else {
          skipped := skipped + 1;
        }
      }
      WaitingEnds(tasks, batch);
    }

    /** The concurrent tunnel checks, coming to the guard in any order.  A task that starts after
        the guard tripped journals an engine fault without contacting the engine. */
    method RunTunnelTasks(tasks0: seq<Target>, ghost due: seq<Target>, ghost before: Pool, ghost done0: seq<Target>, clock: Seconds)
      returns (checked: nat, aborted: nat, ghost order: seq<Target>)
      requires Progress(config, Tunnel, Tunnelled(true, {}), before, rows, due, done0, tasks0)
      requires DistinctIds(due) && (forall t :: t in tasks0 ==> t.vetted && t.included)
      requires engine.Valid() && engine.outages == 0 && engine.retryAt == 0
      modifies this`rows, engine
      ensures engine.Valid()
      ensures engine.outages == if DeadStretch(order) then 1 else 0
      ensures engine.retryAt == if DeadStretch(order) then Saturate(clock + engine.initial) else 0
      ensures multiset(order) == multiset(tasks0)
      ensures rows == ApplyLane(config, Tunnel, before, Verdicts(Tunnelled(true, CutIds(order)), due))
      ensures Swept(config, ByTunnel(true, order), before, rows, due, SetOf(IdsOf(due)))
      ensures checked + aborted == |tasks0| && aborted == |CutIds(order)|
    {
      hide *;
      var guard := new BatchGuard(MEOW_ABORT_THRESHOLD);
      var tasks := tasks0;
      ghost var done := done0;
      checked, aborted, order := 0, 0, [];
      RaceBegins(config, before, rows, due, done0, tasks0);
      while tasks != []
        invariant guard.Valid() && engine.Valid() && fresh(guard) && guard as object != this
        invariant guard.threshold == MEOW_ABORT_THRESHOLD && guard.log == OpsOf(order)
        invariant engine.outages == if guard.aborted then 1 else 0
        invariant engine.retryAt == if guard.aborted then Saturate(clock + engine.initial) else 0
        invariant Racing(config, before, rows, due, done, tasks0, order, tasks, checked, aborted)
        decreases |tasks|
      {
        var k :| 0 <= k < |tasks|;
        var t := tasks[k];
        RacerIsReady(config, before, rows, due, done, tasks0, order, tasks, checked, aborted, k);
        AbortedIffStreak(guard);
        OneMoreRow(order, t);
        CutIfStreak(OpsOf(order), t);
        var verdict;
        if guard.aborted && !t.started {
          verdict := EngineFault;
          RowIsCut(config, before, rows, due, done, tasks0, order, tasks, checked, aborted, k);
          aborted := aborted + 1;
        } else {
          verdict := ContactEngine(guard, t, clock);
          RowIsContacted(config, before, rows, due, done, tasks0, order, tasks, checked, aborted, k);
          checked := checked + 1;
        }
        Settle(Tunnel, Check(t.id, verdict, t.at, t.jitter));
        order := order + [t];
        done := done + [t];
        tasks := Without(tasks, k);
      }
      AbortedIffStreak(guard);
      RaceEnds(config, before, rows, due, done, tasks0, order, checked, aborted);
      StreakMeansDeadStretch(order);
      DueRowsSweep(config, true, order, before, due);
    }

    /** One request through the tunnel, and what it does to the guard; the failure that completes
        the first streak backs the engine off. */
    method ContactEngine(guard: BatchGuard, t: Target, clock: Seconds) returns (verdict: Outcome)
      requires guard.Valid() && engine.Valid() && guard as object != this
      requires engine.outages == if guard.aborted then 1 else 0
      requires engine.retryAt == if guard.aborted then Saturate(clock + engine.initial) else 0
      requires t.vetted && t.included
      modifies guard, engine
      ensures guard.Valid() && engine.Valid() && guard.log == old(guard.log) + OpOf(t)
      ensures engine.outages == if guard.aborted then 1 else 0
      ensures engine.retryAt == if guard.aborted then Saturate(clock + engine.initial) else 0
      ensures verdict == Answer(t)
      ensures verdict == Passed <==> t.reply.Answered?
      ensures verdict == EngineFault <==> Silent(t)
      ensures Silent(t) ==> guard.log == old(guard.log) + [Fail]
      ensures !t.reply.Unavailable? ==> guard.log == old(guard.log) + [Recover]
      ensures t.reply.Unavailable? && !Silent(t) ==> guard.log == old(guard.log)
    {
      FirstWait(engine.initial, engine.max);
      hide Streak, Trailing, Wait;
      match t.reply {
        case Answered(_) =>
          guard.RecordRecovered();
          verdict := Passed;
        case ProxyFailed =>
          guard.RecordRecovered();
          verdict := Failed;
        case Unavailable =>
          if t.engineAnswers {
            verdict := Failed;
          } else {
            var crossed := guard.RecordFailure();
            if crossed {
              engine.Backoff(clock);
            }
            verdict := EngineFault;
          }
      }
    }

    // ------------------------------------------------------------ the lanes of one cycle

    method ProbeRevivals(now: Seconds, seen: seq<Target>, clock: Seconds, pingUp: bool, reloadUp: bool)
      returns (checked: nat, ghost run: LaneRun)
      requires DistinctIds(seen) && (forall t :: t in seen ==> now <= t.at) && engine.Valid()
      modifies this`rows, engine
      ensures engine.Valid()
      ensures LaneOk(Revival, now, {}, run) && run.drawn == run.judged == old(rows) && rows == Left(config, Revival, run)
      ensures if clock < old(engine.retryAt) then rows == old(rows)
              else LaneMoves(config, Revival, ByRevival(pingUp && reloadUp), now, {}, run, seen)
      ensures var idle :=
                clock < old(engine.retryAt) || forall t :: t in seen && t.id in Takes(Revival, old(rows), now, {}, seen) ==> !t.vetted;
        EngineAfter(engine.initial, engine.max, clock, old(engine.outages), old(engine.retryAt), idle, pingUp && reloadUp, false,
                    engine.outages, engine.retryAt)
    {
      var due := Offered(Revival, rows, now, seen);
      OfferedFacts(Revival, rows, now, seen);
      OfferedToRevive(now, rows, seen);
      ghost var outcome := Revived(pingUp && reloadUp);
      ghost var judged := if clock < engine.retryAt then [] else due;
      run := LaneRun(rows, rows, SetOf(IdsOf(due)), Verdicts(outcome, judged));
      LaneRunIsOk(Revival, rows, now, {}, due, judged, outcome);
      hide LaneOk, ApplyLane, Offered, Swept, Takes, EngineAfter;
      checked := ReviveQuarantined(due, clock, pingUp, reloadUp);
      assert judged == [] ==> run.checks == [];
      if clock >= old(engine.retryAt) {
        RevivalsOutOf(config, pingUp && reloadUp, now, old(rows), rows, seen);
      }
    }

    method ProbeRechecks(now: Seconds, seen: seq<Target>) returns (checked: nat, ghost run: LaneRun)
      requires DistinctIds(seen) && (forall t :: t in seen ==> now <= t.at)
      modifies this`rows
      ensures LaneOk(Recheck, now, {}, run) && run.drawn == run.judged == old(rows) && rows == Left(config, Recheck, run)
      ensures LaneMoves(config, Recheck, ByConnect(Recheck), now, {}, run, seen)
    {
      var due := Offered(Recheck, rows, now, seen);
      OfferedFacts(Recheck, rows, now, seen);
      FilterKeepsDistinct(IsDialable, due);
      FilterMembers(IsDialable, due);
      run := LaneRun(rows, rows, SetOf(IdsOf(due)), Verdicts(Direct(), Dialable(due)));
      LaneRunIsOk(Recheck, rows, now, {}, due, Dialable(due), Direct());
      NothingCovered(due);
      hide LaneOk, ApplyLane, Offered, Swept, Takes;
      var out := RunT1Checks(Recheck, due);
      ConnectsOutOf(config, Recheck, now, [], old(rows), rows, seen);
      checked := out.checked;
    }

    /** Fresh proxies: the whole request is claimed, judged or not. */
    method ProbeQueuedChecks(now: Seconds, seen: seq<Target>) returns (out: LaneOutcome, ghost run: LaneRun)
      requires DistinctIds(seen) && (forall t :: t in seen ==> now <= t.at)
      modifies this`rows
      ensures LaneOk(Queue, now, {}, run) && run.drawn == run.judged == old(rows) && rows == Left(config, Queue, run)
      ensures LaneMoves(config, Queue, ByConnect(Queue), now, {}, run, seen)
      ensures run.claimed == SetOf(out.claimed) && out.claimed == IdsOf(Offered(Queue, old(rows), now, seen))
      ensures run.claimed == set t | t in seen && t.id in old(rows) && Queue in LanesOf(old(rows)[t.id], now) :: t.id
    {
      var candidates := Offered(Queue, rows, now, seen);
      OfferedFacts(Queue, rows, now, seen);
      FilterKeepsDistinct(IsDialable, candidates);
      FilterMembers(IsDialable, candidates);
      run := LaneRun(rows, rows, SetOf(IdsOf(candidates)), Verdicts(Direct(), Dialable(candidates)));
      LaneRunIsOk(Queue, rows, now, {}, candidates, Dialable(candidates), Direct());
      NothingCovered(candidates);
      ClaimsOf(Queue, now, [], rows, seen);
      hide *;
      var checked := RunT1Checks(Queue, candidates);
      ConnectsOutOf(config, Queue, now, [], old(rows), rows, seen);
      LaneMovesHolds(config, Queue, now, [], run, rows, seen);
      out := LaneOutcome(checked.checked, IdsOf(candidates));
    }

    /** The random sample, less what the queue lane claimed; it hands on the rows it judged. */
    method ProbeT1Sample(now: Seconds, seen: seq<Target>, alreadyChecked: seq<int>) returns (out: LaneOutcome, ghost run: LaneRun)
      requires DistinctIds(seen) && (forall t :: t in seen ==> now <= t.at)
      modifies this`rows
      ensures LaneOk(Sample, now, SetOf(alreadyChecked), run)
      ensures run.drawn == run.judged == old(rows) && rows == Left(config, Sample, run)
      ensures LaneMoves(config, Sample, ByConnect(Sample), now, SetOf(alreadyChecked), run, seen)
      ensures run.claimed == SetOf(out.claimed) == Ids(run.checks) == Takes(Sample, old(rows), now, SetOf(alreadyChecked), seen)
    {
      var drawn := Offered(Sample, rows, now, seen);
      OfferedFacts(Sample, rows, now, seen);
      var candidates := Uncovered(drawn, alreadyChecked);
      FilterKeepsDistinct(NotIn(alreadyChecked), drawn);
      FilterMembers(NotIn(alreadyChecked), drawn);
      FilterKeepsDistinct(IsDialable, candidates);
      FilterMembers(IsDialable, candidates);
      run := LaneRun(rows, rows, SetOf(IdsOf(Dialable(candidates))), Verdicts(Direct(), Dialable(candidates)));
      LaneRunIsOk(Sample, rows, now, SetOf(alreadyChecked), Dialable(candidates), Dialable(candidates), Direct());
      ClaimsOf(Sample, now, alreadyChecked, rows, seen);
      hide LaneOk, ApplyLane, Offered, Swept, Takes;
      out := RunT1Checks(Sample, candidates);
      ConnectsOutOf(config, Sample, now, alreadyChecked, old(rows), rows, seen);
      VerdictIds(Direct(), Dialable(candidates));
    }

    method ProbeTunnels(now: Seconds, seen: seq<Target>, alreadyChecked: seq<int>, clock: Seconds, pingUp: bool, reloadUp: bool)
      returns (out: T2Outcome, ghost run: LaneRun, ghost order: seq<Target>)
      requires DistinctIds(seen) && (forall t :: t in seen ==> now <= t.at) && engine.Valid()
      modifies this`rows, engine
      ensures engine.Valid()
      ensures LaneOk(Tunnel, now, SetOf(alreadyChecked), run)
      ensures run.drawn == run.judged == old(rows) && rows == Left(config, Tunnel, run)
      ensures if clock < old(engine.retryAt) then rows == old(rows)
              else LaneMoves(config, Tunnel, ByTunnel(pingUp && reloadUp, order), now, SetOf(alreadyChecked), run, seen)
    {
      var candidates := Offered(Tunnel, rows, now, seen);
      OfferedFacts(Tunnel, rows, now, seen);
      T2DueIsDistinct(rows, candidates, alreadyChecked);
      ghost var before := rows;
      ghost var batch := if clock < engine.retryAt then [] else T2Due(rows, candidates, alreadyChecked);
      hide LaneOk, ApplyLane, Offered, Swept, Takes, EngineAfter, ForTunnel, DeadStretch;
      out, order := ProbeT2Batch(candidates, alreadyChecked, clock, pingUp, reloadUp);
      ghost var outcome := Tunnelled(pingUp && reloadUp, CutIds(order));
      run := LaneRun(before, before, SetOf(IdsOf(batch)), Verdicts(outcome, batch));
      LaneRunIsOk(Tunnel, before, now, SetOf(alreadyChecked), batch, batch, outcome);
      NothingJudged(config, Tunnel, before, outcome);
      if clock >= old(engine.retryAt) {
        TunnelsOutOf(config, pingUp && reloadUp, order, now, alreadyChecked, before, rows, seen);
      }
    }

    /** Quarantine dues, fresh proxies, the random sample, the tunnel batch: each lane selects from
        the rows as the lanes before it and the other writers left them, and skips what was handed
        over.  The run is a legal cycle, so everything proved of cycles holds of it, and in every
        lane the rows it takes move as the answers about them say. */
    method RunCycle(now: Seconds, seen: Seen, up: EngineAnswers, others: (Lane, Pool) -> Pool)
      returns (out: T2Outcome, ghost cycle: Cycle, ghost outages: nat, ghost retryAt: Seconds, ghost order: seq<Target>)
      requires engine.Valid() && seen.Valid(now)
      modifies this`rows, engine
      ensures engine.Valid()
      ensures CycleOk(cycle) && Interleaved(config, old(rows), cycle, others) && rows == AfterCycle(config, cycle)
      ensures cycle.now == now && CycleMoves(config, seen, up, cycle, old(engine.retryAt), retryAt, order)
      ensures var idle := up.revivalClock < old(engine.retryAt)
                || forall t :: t in seen.revival && t.id in Takes(Revival, old(rows), now, {}, seen.revival) ==> !t.vetted;
        EngineAfter(engine.initial, engine.max, up.revivalClock, old(engine.outages), old(engine.retryAt), idle,
                    up.revivalPing && up.revivalReload, false, outages, retryAt)
    {
      hide LaneOk, Left, LaneMoves, Takes, EngineAfter, LanesOf;
      var revived, revival := ProbeRevivals(now, seen.revival, up.revivalClock, up.revivalPing, up.revivalReload);
      outages, retryAt := engine.outages, engine.retryAt;
      rows := others(Recheck, rows);
      var rechecked, recheck := ProbeRechecks(now, seen.recheck);
      rows := others(Queue, rows);
      var queued, queue := ProbeQueuedChecks(now, seen.queue);
      rows := others(Sample, rows);
      var t1, sample := ProbeT1Sample(now, seen.sample, queued.claimed);
      rows := others(Tunnel, rows);
      ghost var tunnel;
      out, tunnel, order := ProbeTunnels(now, seen.tunnel, t1.claimed, up.tunnelClock, up.tunnelPing, up.tunnelReload);
      cycle := Cycle(now, revival, recheck, queue, sample, tunnel);
    }
  }

  /** What the engine says about a contacted row. */
  function Answer(t: Target): Outcome {
    match t.reply
    case Answered(_) => Passed
    case ProxyFailed => Failed
    case Unavailable => if t.engineAnswers then Failed else EngineFault
  }

  /** The tasks under way: those of `order` have come to the guard and are settled, `tasks` have
      not. */
  ghost predicate Racing(c: Config, before: Pool, rows: Pool, due: seq<Target>, done: seq<Target>, tasks0: seq<Target>,
                         order: seq<Target>, tasks: seq<Target>, checked: nat, aborted: nat) {
    && DistinctIds(due) && multiset(order + tasks) == multiset(tasks0)
    && checked + aborted + |tasks| == |tasks0| && aborted == |CutIds(order)|
    && Progress(c, Tunnel, Tunnelled(true, CutIds(order)), before, rows, due, done, tasks)
    && Ready(tasks) && AllAmong(CutIds(order), done)
  }

  predicate Ready(tasks: seq<Target>) { forall t :: t in tasks ==> t.vetted && t.included }

  ghost predicate AllAmong(cut: set<int>, done: seq<Target>) { forall x :: x in cut ==> exists t :: t in done && t.id == x }

  lemma StillReady(tasks: seq<Target>, k: nat)
    requires Ready(tasks) && k < |tasks|
    ensures Ready(Without(tasks, k)) && tasks[k].vetted && tasks[k].included && |Without(tasks, k)| == |tasks| - 1
  {}

  lemma RaceBegins(c: Config, before: Pool, rows: Pool, due: seq<Target>, done: seq<Target>, tasks: seq<Target>)
    requires Progress(c, Tunnel, Tunnelled(true, {}), before, rows, due, done, tasks)
    requires DistinctIds(due) && (forall t :: t in tasks ==> t.vetted && t.included)
    ensures Racing(c, before, rows, due, done, tasks, [], tasks, 0, 0) && OpsOf([]) == []
  {
    hide Progress;
    assert [] + tasks == tasks;
  }

  lemma AbortedIffStreak(guard: BatchGuard)
    requires guard.Valid()
    ensures guard.aborted <==> Streak(guard.log, guard.threshold)
  {}

  lemma CutIfStreak(log: seq<Op>, t: Target)
    ensures IsCut(log, t) <==> Streak(log, MEOW_ABORT_THRESHOLD) && !t.started
  {}

  lemma RacerIsReady(c: Config, before: Pool, rows: Pool, due: seq<Target>, done: seq<Target>, tasks0: seq<Target>,
                     order: seq<Target>, tasks: seq<Target>, checked: nat, aborted: nat, k: nat)
    requires Racing(c, before, rows, due, done, tasks0, order, tasks, checked, aborted) && k < |tasks|
    ensures tasks[k].vetted && tasks[k].included && tasks[k].id !in CutIds(order)
    ensures forall t :: t in done ==> t.id != tasks[k].id
  {
    hide Progress, CutIds;
    WaitingIsNotDone(c, Tunnel, Tunnelled(true, CutIds(order)), before, rows, due, done, tasks, k);
  }

  /** One task settles; `cut` are the rows cut from then on. */
  lemma RacerSettles(c: Config, before: Pool, rows: Pool, due: seq<Target>, done: seq<Target>, tasks0: seq<Target>,
                     order: seq<Target>, tasks: seq<Target>, checked: nat, aborted: nat, k: nat, cut: set<int>)
    requires Racing(c, before, rows, due, done, tasks0, order, tasks, checked, aborted) && k < |tasks|
    requires cut == CutIds(order) || cut == CutIds(order) + {tasks[k].id}
    ensures multiset((order + [tasks[k]]) + Without(tasks, k)) == multiset(tasks0)
    ensures Progress(c, Tunnel, Tunnelled(true, cut), before,
                     ApplyCheck(c, Tunnel, rows, Verdict(Tunnelled(true, cut), tasks[k])), due, done + [tasks[k]], Without(tasks, k))
  {
    RacerIsReady(c, before, rows, due, done, tasks0, order, tasks, checked, aborted, k);
    hide Progress, CutIds, ApplyCheck;
    OpenVerdictsMayChange(c, Tunnel, Tunnelled(true, CutIds(order)), Tunnelled(true, cut), before, rows, due, done, tasks);
    WaitingTaskSettles(c, Tunnel, Tunnelled(true, cut), before, rows, due, done, tasks, k);
    TakeOut(order, tasks, k);
  }

  lemma CutVerdict(cut: set<int>, t: Target)
    requires t.vetted && t.included && t.id in cut
    ensures Verdict(Tunnelled(true, cut), t) == Check(t.id, EngineFault, t.at, t.jitter)
  {}

  lemma ContactedVerdict(cut: set<int>, t: Target)
    requires t.vetted && t.included && t.id !in cut
    ensures Verdict(Tunnelled(true, cut), t) == Check(t.id, Answer(t), t.at, t.jitter)
  {}

  lemma RowIsCut(c: Config, before: Pool, rows: Pool, due: seq<Target>, done: seq<Target>, tasks0: seq<Target>,
                 order: seq<Target>, tasks: seq<Target>, checked: nat, aborted: nat, k: nat)
    requires Racing(c, before, rows, due, done, tasks0, order, tasks, checked, aborted) && k < |tasks|
    requires IsCut(OpsOf(order), tasks[k])
    ensures var t := tasks[k];
      Racing(c, before, ApplyCheck(c, Tunnel, rows, Check(t.id, EngineFault, t.at, t.jitter)), due, done + [t], tasks0,
             order + [t], Without(tasks, k), checked, aborted + 1)
  {
    hide *;
    var t, cut := tasks[k], CutIds(order) + {tasks[k].id};
    RacingParts(c, before, rows, due, done, tasks0, order, tasks, checked, aborted);
    RacerIsReady(c, before, rows, due, done, tasks0, order, tasks, checked, aborted, k);
    RacerSettles(c, before, rows, due, done, tasks0, order, tasks, checked, aborted, k, cut);
    OneMoreRow(order, t);
    CutOne(CutIds(order), t.id);
    CutVerdict(cut, t);
    StillReady(tasks, k);
    StillAmong(CutIds(order), done, t);
    RacingHolds(c, before, ApplyCheck(c, Tunnel, rows, Check(t.id, EngineFault, t.at, t.jitter)), due, done + [t], tasks0,
                order + [t], Without(tasks, k), checked, aborted + 1);
  }

  lemma RacingParts(c: Config, before: Pool, rows: Pool, due: seq<Target>, done: seq<Target>, tasks0: seq<Target>,
                    order: seq<Target>, tasks: seq<Target>, checked: nat, aborted: nat)
    requires Racing(c, before, rows, due, done, tasks0, order, tasks, checked, aborted)
    ensures DistinctIds(due) && checked + aborted + |tasks| == |tasks0| && aborted == |CutIds(order)|
    ensures Ready(tasks) && AllAmong(CutIds(order), done)
  {}

  lemma RacingHolds(c: Config, before: Pool, rows: Pool, due: seq<Target>, done: seq<Target>, tasks0: seq<Target>,
                    order: seq<Target>, tasks: seq<Target>, checked: nat, aborted: nat)
    requires DistinctIds(due) && multiset(order + tasks) == multiset(tasks0)
    requires checked + aborted + |tasks| == |tasks0| && aborted == |CutIds(order)|
    requires Progress(c, Tunnel, Tunnelled(true, CutIds(order)), before, rows, due, done, tasks)
    requires Ready(tasks) && AllAmong(CutIds(order), done)
    ensures Racing(c, before, rows, due, done, tasks0, order, tasks, checked, aborted)
  {}

  lemma RowIsContacted(c: Config, before: Pool, rows: Pool, due: seq<Target>, done: seq<Target>, tasks0: seq<Target>,
                       order: seq<Target>, tasks: seq<Target>, checked: nat, aborted: nat, k: nat)
    requires Racing(c, before, rows, due, done, tasks0, order, tasks, checked, aborted) && k < |tasks|
    requires !IsCut(OpsOf(order), tasks[k])
    ensures var t := tasks[k];
      Racing(c, before, ApplyCheck(c, Tunnel, rows, Check(t.id, Answer(t), t.at, t.jitter)), due, done + [t], tasks0,
             order + [t], Without(tasks, k), checked + 1, aborted)
  {
    hide *;
    var t := tasks[k];
    RacingParts(c, before, rows, due, done, tasks0, order, tasks, checked, aborted);
    RacerIsReady(c, before, rows, due, done, tasks0, order, tasks, checked, aborted, k);
    RacerSettles(c, before, rows, due, done, tasks0, order, tasks, checked, aborted, k, CutIds(order));
    OneMoreRow(order, t);
    ContactedVerdict(CutIds(order), t);
    StillReady(tasks, k);
    StillAmong(CutIds(order), done, t);
    RacingHolds(c, before, ApplyCheck(c, Tunnel, rows, Check(t.id, Answer(t), t.at, t.jitter)), due, done + [t], tasks0,
                order + [t], Without(tasks, k), checked + 1, aborted);
  }

  /** Cut rows stay among the settled ones. */
  lemma StillAmong(cut: set<int>, done: seq<Target>, t: Target)
    requires AllAmong(cut, done)
    ensures AllAmong(cut, done + [t]) && AllAmong(cut + {t.id}, done + [t])
  {
    forall x | x in cut + {t.id} ensures exists d :: d in done + [t] && d.id == x {
      if x in cut {
        var d :| d in done && d.id == x;
        assert d in done + [t];
      } else {
        assert t in done + [t];
      }
    }
  }

  lemma RaceEnds(c: Config, before: Pool, rows: Pool, due: seq<Target>, done: seq<Target>, tasks0: seq<Target>,
                 order: seq<Target>, checked: nat, aborted: nat)
    requires Racing(c, before, rows, due, done, tasks0, order, [], checked, aborted)
    ensures multiset(order) == multiset(tasks0) && checked + aborted == |tasks0| && aborted == |CutIds(order)|
    ensures rows == ApplyLane(c, Tunnel, before, Verdicts(Tunnelled(true, CutIds(order)), due))
  {
    hide Progress, CutIds, ApplyLane;
    assert order + [] == order;
    AllSettled(c, Tunnel, Tunnelled(true, CutIds(order)), before, rows, due, done);
  }

  lemma NoRowYet()
    ensures OpsOf([]) == [] && CutIds([]) == {}
  {}

  lemma RevivalVerdicts(up: bool)
    ensures forall t: Target :: !t.vetted ==> Revived(up)(t) == Failed
    ensures !up ==> forall t: Target :: t.vetted ==> Revived(up)(t) == EngineFault
  {}

  lemma NoneLeftIffRefused(due: seq<Target>, done: seq<Target>, batch: seq<Target>)
    requires (forall t: Target :: t in due <==> t in done || t in batch) && Refused(done) && forall t :: t in batch ==> t.vetted
    ensures batch == [] <==> Refused(due)
    ensures Refused(due) <==> forall t: Target :: t in due ==> !t.vetted
  {
    if batch != [] {
      assert batch[0] in due;
    }
  }

  lemma NoRacers(order: seq<Target>, pool: Pool, candidates: seq<Target>, covered: seq<int>)
    requires multiset(order) == multiset{}
    ensures Racers(order, false, pool, candidates, covered)
  {
    assert |multiset(order)| == |order|;
  }

  lemma NothingSerializable()
    ensures Serializable([]) == []
  {}

  lemma CutOne(cut: set<int>, id: int)
    ensures id !in cut ==> |cut + {id}| == |cut| + 1
  {}

  lemma TakeOut(order: seq<Target>, tasks: seq<Target>, k: nat)
    requires k < |tasks|
    ensures multiset(order + [tasks[k]] + Without(tasks, k)) == multiset(order + tasks)
  {
    assert tasks == tasks[..k] + [tasks[k]] + tasks[k + 1..];
    assert multiset(Without(tasks, k)) + multiset{tasks[k]} == multiset(tasks);
  }

  lemma VerdictIds(outcome: Target -> Outcome, ts: seq<Target>)
    ensures SetOf(IdsOf(ts)) == Ids(Verdicts(outcome, ts))
  {
    forall x ensures x in SetOf(IdsOf(ts)) <==> x in Ids(Verdicts(outcome, ts)) {
      if x in SetOf(IdsOf(ts)) {
        var i :| 0 <= i < |ts| && IdsOf(ts)[i] == x;
        assert Verdicts(outcome, ts)[i].id == x;
      }
    }
  }

  /** The rows each lane's query looked at, in its order, up to its limit. */
  datatype Seen = Seen(revival: seq<Target>, recheck: seq<Target>, queue: seq<Target>, sample: seq<Target>, tunnel: seq<Target>) {
    /** Row ids are unique within a selection and no check is dated before the cycle. */
    ghost predicate Valid(now: int) {
      && DistinctIds(revival) && DistinctIds(recheck) && DistinctIds(queue) && DistinctIds(sample) && DistinctIds(tunnel)
      && forall t :: t in revival || t in recheck || t in queue || t in sample || t in tunnel ==> now <= t.at
    }
  }

  /** When the two tunnel lanes ran and whether the engine answered their ping and reload. */
  datatype EngineAnswers = EngineAnswers(revivalClock: Seconds, revivalPing: bool, revivalReload: bool,
                                         tunnelClock: Seconds, tunnelPing: bool, tunnelReload: bool)

  lemma OfferedFacts(lane: Lane, pool: Pool, now: int, ts: seq<Target>)
    requires DistinctIds(ts)
    ensures DistinctIds(Offered(lane, pool, now, ts))
    ensures forall t :: t in Offered(lane, pool, now, ts) ==> t in ts && t.id in pool && Eligible(lane, pool[t.id], now)
  {
    FilterKeepsDistinct(OfferedBy(lane, pool, now), ts);
    FilterMembers(OfferedBy(lane, pool, now), ts);
  }

  lemma NothingJudged(c: Config, lane: Lane, pool: Pool, outcome: Target -> Outcome)
    ensures ApplyLane(c, lane, pool, Verdicts(outcome, [])) == pool && ApplyLane(c, lane, pool, []) == pool
  {}

  lemma VerdictOfDue(due: seq<Target>, outcome: Target -> Outcome, id: int)
    requires DistinctIds(due)
    ensures forall t :: t in due && t.id == id ==> VerdictOn(Verdicts(outcome, due), id) == Some(Verdict(outcome, t))
    ensures (forall t :: t in due ==> t.id != id) ==> VerdictOn(Verdicts(outcome, due), id) == None
  {
    var checks := Verdicts(outcome, due);
    VerdictFacts(checks, id);
    var v := VerdictOn(checks, id);
    if v.Some? {
      var i :| 0 <= i < |checks| && checks[i] == v.value;
      assert due[i] in due && due[i].id == id;
    }
    forall t | t in due && t.id == id ensures v == Some(Verdict(outcome, t)) {
      var j :| 0 <= j < |due| && due[j] == t;
      assert checks[j].id == id && checks[j] in checks;
    }
  }

  lemma JudgeJournalsOnce(c: Config, lane: Lane, p: Proxy, x: Check)
    ensures Judge(c, lane, p, x).journal == p.journal + [Attempt(if TunnelLane(lane) then T2 else T1, x.outcome == Passed)]
  {}

  /** One batch journals each of its rows exactly once, with the verdict it settled, and leaves
      every other row alone. */
  lemma EachDueRowIsJournaledOnce(c: Config, lane: Lane, pool: Pool, due: seq<Target>, outcome: Target -> Outcome, id: int)
    requires DistinctIds(due) && id in pool
    ensures var after := ApplyLane(c, lane, pool, Verdicts(outcome, due));
      && id in after
      && (forall t :: t in due && t.id == id ==>
            after[id].journal == pool[id].journal + [Attempt(if TunnelLane(lane) then T2 else T1, outcome(t) == Passed)])
      && ((forall t :: t in due ==> t.id != id) ==> after[id] == pool[id])
  {
    LaneMovesEachRowOnce(c, lane, pool, Verdicts(outcome, due), id);
    VerdictOfDue(due, outcome, id);
    hide Judge, ApplyLane, VerdictOn, DistinctIds;
    forall t | t in due && t.id == id {
      JudgeJournalsOnce(c, lane, pool[id], Verdict(outcome, t));
    }
  }

  lemma BatchMembers(c: Config, lane: Lane, f: Target -> Outcome, before: Pool, rows: Pool,
                     seen: seq<Target>, done: seq<Target>, waiting: seq<Target>)
    requires Progress(c, lane, f, before, rows, seen, done, waiting)
    ensures forall t :: t in seen <==> t in done || t in waiting
  {
    forall t ensures t in seen <==> t in done || t in waiting {
      assert t in multiset(done + waiting) <==> t in multiset(seen);
    }
  }
}
