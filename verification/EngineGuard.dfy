/** The mid-batch abort guard: a counter and a flag shared by the concurrent tasks of one
tunnel batch.

`record_failure` is two atomic accesses (add to the counter, then swap the flag) and
`record_recovered` is one store, so tasks interleave between the accesses.  The log below
records the counter operations in the order the counter saw them. */
module EngineGuard {
  import opened Prelude

  type TaskId = nat

  datatype Op = Fail | Recover

  /** Failures since the last recovery: what the counter holds. */
  function Trailing(log: seq<Op>): nat {
    if log == [] || log[|log| - 1] == Recover then 0 else Trailing(log[..|log| - 1]) + 1
  }

  /** Somewhere in the log, `threshold` failures stand in a row. */
  ghost predicate Streak(log: seq<Op>, threshold: nat) {
    exists i :: StreakAt(log, threshold, i)
  }

  ghost predicate StreakAt(log: seq<Op>, threshold: nat, i: int) {
    0 <= i && i + Max(1, threshold) <= |log| && forall k :: i <= k < i + Max(1, threshold) ==> log[k] == Fail
  }

  lemma {:induction false} TrailingCountsTheTail(log: seq<Op>)
    ensures var n := Trailing(log);
      && n <= |log| && (forall k :: |log| - n <= k < |log| ==> log[k] == Fail)
      && (n < |log| ==> log[|log| - n - 1] == Recover)
  {
    if log != [] && log[|log| - 1] == Fail {
      TrailingCountsTheTail(log[..|log| - 1]);
    }
  }

  /** A log gains a streak exactly with the failure that brings the counter to the threshold. */
  lemma StreakGrows(log: seq<Op>, op: Op, threshold: nat)
    ensures Streak(log + [op], threshold) <==>
              Streak(log, threshold) || (op == Fail && Trailing(log) + 1 >= threshold)
  {
    var n, log' := Max(1, threshold), log + [op];
    TrailingCountsTheTail(log');
    TrailingCountsTheTail(log);
    assert log'[..|log|] == log;
    if Streak(log, threshold) {
      var i :| StreakAt(log, threshold, i);
      assert StreakAt(log', threshold, i);
    }
    if op == Fail && Trailing(log) + 1 >= threshold {
      assert StreakAt(log', threshold, |log'| - n);
    }
    if Streak(log', threshold) {
      var i :| StreakAt(log', threshold, i);
      if i + n <= |log| {
        assert StreakAt(log, threshold, i);
      } else if Trailing(log) + 1 < n {
        assert log'[|log| - Trailing(log) - 1] == Recover;
      }
    }
  }

  // ---------------------------------------------------------------- all interleavings

  /** `pending` holds the tasks that have added to the counter, saw at least the threshold and
      have not swapped the flag yet; `crossings` counts the calls that returned true. */
  datatype State = State(consecutive: nat, aborted: bool, pending: set<TaskId>, log: seq<Op>, crossings: nat)

  datatype Step = Add(task: TaskId) | Swap(task: TaskId) | Reset

  const INITIAL := State(0, false, {}, [], 0)

  predicate Enabled(s: State, step: Step) {
    match step
    case Add(t) => t !in s.pending
    case Swap(t) => t in s.pending
    case Reset => true
  }

  function Apply(threshold: nat, s: State, step: Step): State {
    match step
    case Add(t) =>
      s.(consecutive := s.consecutive + 1, log := s.log + [Fail],
         pending := if s.consecutive + 1 >= threshold then s.pending + {t} else s.pending)
    case Swap(t) =>
      s.(aborted := true, pending := s.pending - {t}, crossings := s.crossings + if s.aborted then 0 else 1)
    case Reset => s.(consecutive := 0, log := s.log + [Recover])
  }

  function Exec(threshold: nat, s: State, steps: seq<Step>): State
    decreases |steps|
  {
    if steps == [] then s
    else Apply(threshold, Exec(threshold, s, steps[..|steps| - 1]), steps[|steps| - 1])
  }

  ghost predicate Legal(threshold: nat, s: State, steps: seq<Step>)
    decreases |steps|
  {
    steps != [] ==>
      && Legal(threshold, s, steps[..|steps| - 1])
      && Enabled(Exec(threshold, s, steps[..|steps| - 1]), steps[|steps| - 1])
  }

  ghost predicate Sound(threshold: nat, s: State) {
    && s.consecutive == Trailing(s.log)
    && s.crossings == (if s.aborted then 1 else 0)
    && (s.aborted || s.pending != {} <==> Streak(s.log, threshold))
  }

  /** Every interleaving: the flag goes up at most once, only after a streak of failures in
      counter order, and a streak is never overlooked. */
  lemma {:induction false} GuardIsSound(threshold: nat, steps: seq<Step>)
    requires Legal(threshold, INITIAL, steps)
    ensures Sound(threshold, Exec(threshold, INITIAL, steps))
  {
    if steps != [] {
      var front, last := steps[..|steps| - 1], steps[|steps| - 1];
      GuardIsSound(threshold, front);
      StepKeepsSound(threshold, Exec(threshold, INITIAL, front), last);
      hide Sound, Apply, Enabled;
    }
  }

  lemma StepKeepsSound(threshold: nat, s: State, step: Step)
    requires Sound(threshold, s) && Enabled(s, step)
    ensures Sound(threshold, Apply(threshold, s, step))
  {
    StreakGrows(s.log, if step.Add? then Fail else Recover, threshold);
    assert (s.log + [Fail])[..|s.log|] == s.log;
    hide Streak;
    if step.Add? && s.consecutive + 1 >= threshold {
      assert step.task in Apply(threshold, s, step).pending;
    }
  }

  /** In every interleaving `record_failure` returns true at most once, and when it does the
      log already holds the streak. */
  lemma CrossesAtMostOnce(threshold: nat, steps: seq<Step>)
    requires Legal(threshold, INITIAL, steps)
    ensures Exec(threshold, INITIAL, steps).crossings <= 1
    ensures Exec(threshold, INITIAL, steps).crossings == 1 ==> Streak(Exec(threshold, INITIAL, steps).log, threshold)
  {
    GuardIsSound(threshold, steps);
  }

  /** Once no call is half way, the batch is aborted if and only if the counter saw a streak. */
  lemma AtRestAbortedIffStreak(threshold: nat, steps: seq<Step>)
    requires Legal(threshold, INITIAL, steps) && Exec(threshold, INITIAL, steps).pending == {}
    ensures var s := Exec(threshold, INITIAL, steps);
      (s.aborted <==> Streak(s.log, threshold)) && (s.crossings == 1 <==> Streak(s.log, threshold))
  {
    GuardIsSound(threshold, steps);
  }

  /** Nothing clears the flag, and a later part of the run adds no second crossing. */
  lemma {:induction false} AbortIsSticky(threshold: nat, s: State, steps: seq<Step>)
    requires Legal(threshold, s, steps) && s.aborted
    ensures var s' := Exec(threshold, s, steps); s'.aborted && s'.crossings == s.crossings
  {
    if steps != [] {
      AbortIsSticky(threshold, s, steps[..|steps| - 1]);
    }
  }

  lemma LegalNext(threshold: nat, steps: seq<Step>, step: Step)
    requires Legal(threshold, INITIAL, steps) && Enabled(Exec(threshold, INITIAL, steps), step)
    ensures Legal(threshold, INITIAL, steps + [step])
    ensures Exec(threshold, INITIAL, steps + [step]) == Apply(threshold, Exec(threshold, INITIAL, steps), step)
  {
    assert (steps + [step])[..|steps|] == steps;
  }

  /** The guard keeps nobody out: after any run any task may report a recovery, and a task that is
      not half way a failure. */
  lemma CallsBegin(threshold: nat, steps: seq<Step>, t: TaskId)
    requires Legal(threshold, INITIAL, steps)
    ensures Legal(threshold, INITIAL, steps + [Reset])
    ensures t !in Exec(threshold, INITIAL, steps).pending ==> Legal(threshold, INITIAL, steps + [Add(t)])
  {
    LegalNext(threshold, steps, Reset);
    if t !in Exec(threshold, INITIAL, steps).pending {
      LegalNext(threshold, steps, Add(t));
    }
  }

  lemma OneCallEnds(threshold: nat, steps: seq<Step>, t: TaskId)
    requires Legal(threshold, INITIAL, steps) && t in Exec(threshold, INITIAL, steps).pending
    ensures Legal(threshold, INITIAL, steps + [Swap(t)])
    ensures Exec(threshold, INITIAL, steps + [Swap(t)]).pending == Exec(threshold, INITIAL, steps).pending - {t}
  {
    LegalNext(threshold, steps, Swap(t));
  }

  /** And it lets everybody finish: one further access of each task that is half way brings the
      guard to rest. */
  lemma {:induction false} CallsEnd(threshold: nat, steps: seq<Step>) returns (more: seq<Step>)
    requires Legal(threshold, INITIAL, steps)
    ensures |more| == |Exec(threshold, INITIAL, steps).pending| && (forall step :: step in more ==> step.Swap?)
    ensures Legal(threshold, INITIAL, steps + more) && Exec(threshold, INITIAL, steps + more).pending == {}
    decreases |Exec(threshold, INITIAL, steps).pending|
  {
    hide *;
    var pending := Exec(threshold, INITIAL, steps).pending;
    if pending == {} {
      more := [];
      assert steps + more == steps;
    } else {
      var t :| t in pending;
      OneCallEnds(threshold, steps, t);
      var rest := CallsEnd(threshold, steps + [Swap(t)]);
      more := [Swap(t)] + rest;
      assert steps + more == steps + [Swap(t)] + rest;
    }
  }

  // ---------------------------------------------------------------- one caller

  /** The guard itself.  `log` is the history the interleavings above talk about. */
  class BatchGuard {
    const threshold: nat
    var consecutive: nat
    var aborted: bool
    ghost var log: seq<Op>

    ghost predicate Valid()
      reads this
    {
      consecutive == Trailing(log) && (aborted <==> Streak(log, threshold))
    }

    constructor (threshold: nat)
      ensures Valid() && this.threshold == threshold && log == [] && !aborted
    {
      this.threshold := threshold;
      consecutive, aborted, log := 0, false, [];
    }

    /** True for the one failure that completes the first streak. */
    method RecordFailure() returns (crossed: bool)
      requires Valid()
      modifies this
      ensures Valid() && log == old(log) + [Fail]
      ensures crossed <==> !Streak(old(log), threshold) && Streak(log, threshold)
      ensures aborted <==> old(aborted) || crossed
    {
      StreakGrows(log, Fail, threshold);
      assert (log + [Fail])[..|log|] == log;
      consecutive := consecutive + 1;
      log := log + [Fail];
      crossed := false;
      if consecutive >= threshold {
        var was := aborted;
        aborted := true;
        crossed := !was;
      }
    }

    method RecordRecovered()
      requires Valid()
      modifies this
      ensures Valid() && log == old(log) + [Recover] && consecutive == 0 && aborted == old(aborted)
    {
      StreakGrows(log, Recover, threshold);
      consecutive := 0;
      log := log + [Recover];
    }
  }
}
