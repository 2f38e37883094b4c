/** Sweeps, refreshes and ingest tasks as an interleaving of atomic steps.

A sweep decides which sources are due, spawns a task for each and waits for all of them; a
flag keeps sweeps from overlapping.  A task marks its source, waits for a permit, runs,
writes its journal row, returns the permit and drops the mark, at once or later. */
module SchedulerProtocol {
  import opened Prelude
  import opened ClaimSets
  import opened Scheduler

  datatype Phase =
    | Spawned               // before the in-flight mark
    | Queued                // marked, waiting for a permit
    | Running(start: int)   // permit held
    | Journaled             // row written or fetch found needless, permit and mark still held
    | Leaving               // permit returned, mark still held
    | Finished              // ended; a deferred removal may be outstanding

  datatype Task = Task(source: SourceId, forced: bool, phase: Phase)

  /** `owners` are the live guards and pending deferred removals; `sweep` holds the tasks of the
      sweep under way. */
  datatype State = State(
    clock: int,
    sources: map<SourceId, Source>,
    journal: map<SourceId, seq<Row>>,
    tasks: map<TaskId, Task>,
    sweep: Option<set<TaskId>>,
    marks: set<SourceId>,
    owners: map<TaskId, SourceId>,
    free: nat)

  datatype Step =
    | Advance(seconds: nat)
    | BeginSweep(due: map<TaskId, SourceId>)
    | EndSweep
    | Refresh(id: TaskId, source: SourceId)
    | Acquire(id: TaskId)
    | Permit(id: TaskId)
    | Record(id: TaskId, ok: bool)
    | SkipFresh(id: TaskId)
    | ReturnPermit(id: TaskId)
    | DropMark(id: TaskId)
    | DeferMark(id: TaskId)
    | RunDeferred(id: TaskId)

  function JournalOf(s: State, source: SourceId): seq<Row> {
    if source in s.journal then s.journal[source] else []
  }

  /** A healthy source's journal is not even read. */
  function Consulted(journal: seq<Row>): Option<History> {
    if journal != [] && !journal[|journal| - 1].ok then HistoryOf(journal, FAILURE_HISTORY_ROWS) else None
  }

  predicate DueNow(s: State, source: SourceId) {
    source in s.sources && IsDue(s.sources[source], s.clock, Consulted(JournalOf(s, source)))
  }

  /** The success of an attempt stamps the source's row. */
  function SourcesAfter(sources: map<SourceId, Source>, source: SourceId, at: int, ok: bool): map<SourceId, Source> {
    if ok && source in sources then sources[source := sources[source].(lastFetchedAt := Some(at), updatedAt := at)]
    else sources
  }

  predicate In(s: State, id: TaskId, phase: Phase) { id in s.tasks && s.tasks[id].phase == phase }

  ghost predicate Enabled(s: State, step: Step) {
    match step
    case Advance(_) => true
    case BeginSweep(due) =>
      && s.sweep.None?
      && (forall id :: id in due ==> id !in s.tasks && DueNow(s, due[id]))
      && (forall a, b :: a in due && b in due && due[a] == due[b] ==> a == b)
    case EndSweep => s.sweep.Some? && forall id :: id in s.sweep.value ==> In(s, id, Finished)
    case Refresh(id, _) => id !in s.tasks
    case Acquire(id) => In(s, id, Spawned)
    case Permit(id) => In(s, id, Queued) && s.free > 0
    case Record(id, _) => id in s.tasks && s.tasks[id].phase.Running?
    case SkipFresh(id) => id in s.tasks && s.tasks[id].phase.Running?
    case ReturnPermit(id) => In(s, id, Journaled)
    case DropMark(id) => In(s, id, Leaving)
    case DeferMark(id) => In(s, id, Leaving)
    case RunDeferred(id) => In(s, id, Finished) && id in s.owners
  }

  function Moved(s: State, id: TaskId, phase: Phase): map<TaskId, Task>
    requires id in s.tasks
  {
    s.tasks[id := s.tasks[id].(phase := phase)]
  }

  function Spawns(due: map<TaskId, SourceId>): map<TaskId, Task> {
    map id | id in due :: Task(due[id], false, Spawned)
  }

  ghost function Apply(s: State, step: Step): State
    requires Enabled(s, step)
  {
    match step
    case Advance(seconds) => s.(clock := s.clock + seconds)
    case BeginSweep(due) => s.(tasks := s.tasks + Spawns(due), sweep := Some(due.Keys))
    case EndSweep => s.(sweep := None)
    case Refresh(id, source) => s.(tasks := s.tasks[id := Task(source, true, Spawned)])
    case Acquire(id) =>
      var source := s.tasks[id].source;
      if source in s.marks then s.(tasks := Moved(s, id, Finished))
      else s.(tasks := Moved(s, id, Queued), marks := s.marks + {source}, owners := s.owners[id := source])
    case Permit(id) => s.(tasks := Moved(s, id, Running(s.clock)), free := s.free - 1)
    case Record(id, ok) =>
      var source := s.tasks[id].source;
      s.(tasks := Moved(s, id, Journaled),
         journal := s.journal[source := JournalOf(s, source) + [Row(s.tasks[id].phase.start, ok)]],
         sources := SourcesAfter(s.sources, source, s.tasks[id].phase.start, ok))
    case SkipFresh(id) => s.(tasks := Moved(s, id, Journaled))
    case ReturnPermit(id) => s.(tasks := Moved(s, id, Leaving), free := s.free + 1)
    case DropMark(id) =>
      s.(tasks := Moved(s, id, Finished), marks := s.marks - {s.tasks[id].source}, owners := s.owners - {id})
    case DeferMark(id) => s.(tasks := Moved(s, id, Finished))
    case RunDeferred(id) => s.(marks := s.marks - {s.owners[id]}, owners := s.owners - {id})
  }

  predicate Holding(p: Phase) { p == Queued || p.Running? || p == Journaled || p == Leaving }
  predicate Permitted(p: Phase) { p.Running? || p == Journaled }

  /** Claims are owned, and every task between its mark and its drop is such an owner. */
  ghost predicate OwnersOk(s: State) {
    && Owned(s.marks, s.owners)
    && (forall id :: id in s.owners ==> id in s.tasks && s.owners[id] == s.tasks[id].source)
    && (forall id :: id in s.tasks && Holding(s.tasks[id].phase) ==> id in s.owners)
    && (forall id :: id in s.owners ==> Holding(s.tasks[id].phase) || s.tasks[id].phase == Finished)
  }

  function Ingesting(tasks: map<TaskId, Task>): set<TaskId> { set id | id in tasks && Permitted(tasks[id].phase) }

  ghost predicate PermitsOk(s: State, maxConcurrency: nat) {
    s.free + |Ingesting(s.tasks)| == Max(1, maxConcurrency)
  }

  ghost predicate Initial(s: State, maxConcurrency: nat) {
    && s.tasks == map[] && s.sweep == None && s.marks == {} && s.owners == map[]
    && s.free == Max(1, maxConcurrency)
  }

  // ---------------------------------------------------------------- claims

  /** A move of one task that touches no claim. */
  lemma MoveKeepsOwners(s: State, s': State, id: TaskId, phase: Phase)
    requires OwnersOk(s) && id in s.tasks && s'.tasks == Moved(s, id, phase)
    requires s'.marks == s.marks && s'.owners == s.owners
    requires id in s.owners ==> Holding(phase) || phase == Finished
    requires Holding(phase) ==> id in s.owners
    ensures OwnersOk(s')
  {}

  lemma AcquireKeepsOwners(s: State, id: TaskId)
    requires Enabled(s, Acquire(id)) && OwnersOk(s) && s.tasks[id].source !in s.marks
    ensures OwnersOk(Apply(s, Acquire(id)))
  {
    assert id !in s.owners;
    TakeKeepsOwned(s.marks, s.owners, id, s.tasks[id].source);
    hide Owned;
  }

  lemma RemovalKeepsOwners(s: State, s': State, id: TaskId)
    requires OwnersOk(s) && id in s.owners
    requires s'.marks == s.marks - {s.owners[id]} && s'.owners == s.owners - {id}
    requires s'.tasks == s.tasks[id := s.tasks[id].(phase := Finished)]
    ensures OwnersOk(s')
  {
    DropKeepsOwned(s.marks, s.owners, id);
    hide Owned;
  }

  lemma SpawnKeepsOwners(s: State, s': State)
    requires OwnersOk(s) && s'.marks == s.marks && s'.owners == s.owners
    requires forall id :: id in s.tasks ==> id in s'.tasks && s'.tasks[id] == s.tasks[id]
    requires forall id :: id in s'.tasks && id !in s.tasks ==> s'.tasks[id].phase == Spawned
    ensures OwnersOk(s')
  {}

  lemma StepKeepsOwners(s: State, step: Step)
    requires Enabled(s, step) && OwnersOk(s)
    ensures OwnersOk(Apply(s, step))
  {
    var s' := Apply(s, step);
    match step
    case Advance(_) => SpawnKeepsOwners(s, s');
    case BeginSweep(_) => SpawnKeepsOwners(s, s');
    case EndSweep => SpawnKeepsOwners(s, s');
    case Refresh(_, _) => SpawnKeepsOwners(s, s');
    case Acquire(id) =>
      if s.tasks[id].source !in s.marks {
        AcquireKeepsOwners(s, id);
      } else {
        MoveKeepsOwners(s, s', id, Finished);
      }
    case Permit(id) => MoveKeepsOwners(s, s', id, Running(s.clock));
    case Record(id, _) => MoveKeepsOwners(s, s', id, Journaled);
    case SkipFresh(id) => MoveKeepsOwners(s, s', id, Journaled);
    case ReturnPermit(id) => MoveKeepsOwners(s, s', id, Leaving);
    case DropMark(id) => RemovalKeepsOwners(s, s', id);
    case DeferMark(id) => MoveKeepsOwners(s, s', id, Finished);
    case RunDeferred(id) => RemovalKeepsOwners(s, s', id);
  }

  lemma IngestingAfter(tasks: map<TaskId, Task>, id: TaskId, task: Task)
    ensures Ingesting(tasks[id := task]) ==
            if Permitted(task.phase) then Ingesting(tasks) + {id} else Ingesting(tasks) - {id}
  {}

  lemma SpawningIngestsNothing(s: State, due: map<TaskId, SourceId>)
    requires forall id :: id in due ==> id !in s.tasks
    ensures Ingesting(s.tasks + Spawns(due)) == Ingesting(s.tasks)
  {}

  function PermitsOf(tasks: map<TaskId, Task>, id: TaskId): nat {
    if id in tasks && Permitted(tasks[id].phase) then 1 else 0
  }

  lemma MoveKeepsPermits(s: State, s': State, id: TaskId, maxConcurrency: nat)
    requires PermitsOk(s, maxConcurrency) && id in s'.tasks && s'.tasks == s.tasks[id := s'.tasks[id]]
    requires s'.free + PermitsOf(s'.tasks, id) == s.free + PermitsOf(s.tasks, id)
    ensures PermitsOk(s', maxConcurrency)
  {
    IngestingAfter(s.tasks, id, s'.tasks[id]);
  }

  lemma StepKeepsPermits(s: State, step: Step, maxConcurrency: nat)
    requires Enabled(s, step) && OwnersOk(s) && PermitsOk(s, maxConcurrency)
    ensures PermitsOk(Apply(s, step), maxConcurrency)
  {
    hide PermitsOk, OwnersOk, DueNow;
    var s' := Apply(s, step);
    match step
    case BeginSweep(due) =>
      SpawningIngestsNothing(s, due);
      SameIngestsSamePermits(s, s', maxConcurrency);
    case Refresh(id, source) => MoveKeepsPermits(s, s', id, maxConcurrency);
    case Acquire(id) => MoveKeepsPermits(s, s', id, maxConcurrency);
    case Permit(id) => MoveKeepsPermits(s, s', id, maxConcurrency);
    case Record(id, ok) => MoveKeepsPermits(s, s', id, maxConcurrency);
    case SkipFresh(id) => MoveKeepsPermits(s, s', id, maxConcurrency);
    case ReturnPermit(id) => MoveKeepsPermits(s, s', id, maxConcurrency);
    case DropMark(id) => MoveKeepsPermits(s, s', id, maxConcurrency);
    case DeferMark(id) => MoveKeepsPermits(s, s', id, maxConcurrency);
    case Advance(_) => SameIngestsSamePermits(s, s', maxConcurrency);
    case EndSweep => SameIngestsSamePermits(s, s', maxConcurrency);
    case RunDeferred(_) => SameIngestsSamePermits(s, s', maxConcurrency);
  }

  lemma SameIngestsSamePermits(s: State, s': State, maxConcurrency: nat)
    requires PermitsOk(s, maxConcurrency) && s'.free == s.free && Ingesting(s'.tasks) == Ingesting(s.tasks)
    ensures PermitsOk(s', maxConcurrency)
  {}

  // ---------------------------------------------------------------- runs

  /** `steps` is a run from `s` to `t`; the prefixes of runs are runs, so `t` is any state a run
      goes through. */
  ghost predicate Run(s: State, steps: seq<Step>, t: State)
    decreases |steps|
  {
    if steps == [] then t == s else Enabled(s, steps[0]) && Run(Apply(s, steps[0]), steps[1..], t)
  }

  lemma {:induction false} RunKeepsBoth(s: State, steps: seq<Step>, t: State, maxConcurrency: nat)
    requires Run(s, steps, t) && OwnersOk(s) && PermitsOk(s, maxConcurrency)
    ensures OwnersOk(t) && PermitsOk(t, maxConcurrency)
    decreases |steps|
  {
    if steps != [] {
      StepKeepsOwners(s, steps[0]);
      StepKeepsPermits(s, steps[0], maxConcurrency);
      RunKeepsBoth(Apply(s, steps[0]), steps[1..], t, maxConcurrency);
    }
  }

  /** In every reachable state of every interleaving: each mark has exactly one owner, at most
      one task per source is between its mark and its drop, and at most `max(1, limit)`
      ingests run. */
  lemma OneIngestPerSource(s: State, steps: seq<Step>, t: State, maxConcurrency: nat)
    requires Initial(s, maxConcurrency) && Run(s, steps, t)
    ensures OwnersOk(t) && PermitsOk(t, maxConcurrency)
    ensures forall a, b :: (a in t.tasks && b in t.tasks && Holding(t.tasks[a].phase) && Holding(t.tasks[b].phase) &&
                            t.tasks[a].source == t.tasks[b].source) ==> a == b
    ensures |Ingesting(t.tasks)| <= Max(1, maxConcurrency)
  {
    assert Ingesting(s.tasks) == {};
    RunKeepsBoth(s, steps, t, maxConcurrency);
  }

  /** A deferred removal clears the mark its own task left and no newer one. */
  lemma DeferredRemovalHitsItsOwnMark(s: State, id: TaskId)
    requires OwnersOk(s) && Enabled(s, RunDeferred(id))
    ensures forall o :: o in s.owners && o != id ==> s.owners[o] in Apply(s, RunDeferred(id)).marks
    ensures s.owners[id] in s.marks && s.owners[id] !in Apply(s, RunDeferred(id)).marks
  {
    DropKeepsOwned(s.marks, s.owners, id);
    assert s.owners[id] in s.owners.Values;
  }

  // ---------------------------------------------------------------- the rate bound

  /** Nobody forces `source`. */
  ghost predicate Unforced(step: Step, source: SourceId) { step.Refresh? ==> step.source != source }

  ghost predicate UnforcedRun(s: State, steps: seq<Step>, t: State, source: SourceId) {
    Run(s, steps, t) && forall step :: step in steps ==> Unforced(step, source)
  }

  predicate Unrecorded(p: Phase) { p == Spawned || p == Queued || p.Running? }

  predicate Live(s: State, source: SourceId, id: TaskId) {
    id in s.tasks && s.tasks[id].source == source && s.tasks[id].phase != Finished
  }

  /** A live task belongs to the sweep under way, and one that has not attempted the source yet
      was let through when it might start. */
  ghost predicate TaskPaced(s: State, source: SourceId, start: Start, id: TaskId)
    requires id in s.tasks && source in s.sources
  {
    var phase := s.tasks[id].phase;
    && s.sweep.Some? && id in s.sweep.value
    && (Unrecorded(phase) ==> MayStart(JournalOf(s, source), start, s.clock))
    && (phase.Running? ==>
          && MayStart(JournalOf(s, source), start, phase.start) && phase.start <= s.clock
          && s.sources[source].updatedAt <= Max(start.edited, phase.start))
  }

  /** The attempts on the source keep their distance, and will: from number `from` on to failures
      before them, and since the start to successes before them. */
  ghost predicate Paced(s: State, source: SourceId, start: Start, from: nat) {
    && source in s.sources
    && Spaced(JournalOf(s, source), start.edited, from)
    && Rested(JournalOf(s, source), start)
    && Stamped(s.sources[source], JournalOf(s, source), start, s.clock)
    && (forall id :: Live(s, source, id) ==> TaskPaced(s, source, start, id))
    && (forall a, b :: Live(s, source, a) && Live(s, source, b) ==> a == b)
  }

  lemma TimePasses(s: State, seconds: nat, source: SourceId, start: Start, from: nat)
    requires Paced(s, source, start, from)
    ensures Paced(s.(clock := s.clock + seconds), source, start, from)
  {
    var s' := s.(clock := s.clock + seconds);
    StampedLater(s.sources[source], JournalOf(s, source), start, s.clock, s'.clock);
    hide Spaced, Rested, Stamped, MayStart;
    forall id | Live(s', source, id) ensures TaskPaced(s', source, start, id) {
      assert Live(s, source, id) && TaskPaced(s, source, start, id);
      if Unrecorded(s.tasks[id].phase) {
        LaterMayStart(JournalOf(s, source), start, s.clock, s'.clock);
      }
    }
    assert forall id :: Live(s', source, id) ==> Live(s, source, id);
  }

  /** A task's move that does not touch the journal. */
  lemma MoveKeepsPace(s: State, s': State, id: TaskId, phase: Phase, source: SourceId, start: Start, from: nat)
    requires Paced(s, source, start, from) && id in s.tasks && s'.tasks == Moved(s, id, phase)
    requires s'.clock == s.clock && s'.sources == s.sources && s'.journal == s.journal && s'.sweep == s.sweep
    requires s.tasks[id].phase != Finished
    requires Unrecorded(phase) ==> Unrecorded(s.tasks[id].phase)
    requires phase.Running? ==> phase.start == s.clock
    ensures Paced(s', source, start, from)
  {
    assert s.sources[source].updatedAt <= Max(start.edited, s.clock);
    hide Spaced, Rested, Stamped, MayStart;
    assert forall o :: Live(s', source, o) ==> Live(s, source, o);
    forall o | Live(s', source, o) ensures TaskPaced(s', source, start, o) {
      assert TaskPaced(s, source, start, o);
    }
  }

  /** The row a task of this source writes. */
  lemma RowKeepsPace(s: State, id: TaskId, ok: bool, source: SourceId, start: Start, from: nat)
    requires Enabled(s, Record(id, ok)) && Paced(s, source, start, from) && s.tasks[id].source == source
    ensures var s' := Apply(s, Record(id, ok));
      && source in s'.sources && Spaced(JournalOf(s', source), start.edited, from) && Rested(JournalOf(s', source), start)
      && Stamped(s'.sources[source], JournalOf(s', source), start, s'.clock)
  {
    assert Live(s, source, id) && TaskPaced(s, source, start, id);
    var at := s.tasks[id].phase.start;
    SpacedNext(JournalOf(s, source), Row(at, ok), start.edited, from);
    RestedNext(JournalOf(s, source), Row(at, ok), start);
    RecordStamps(s.sources[source], JournalOf(s, source), start, s.clock, at, ok);
    hide Spaced, Rested, Stamped, AllStale, BackoffOver;
  }

  lemma RecordKeepsPace(s: State, id: TaskId, ok: bool, source: SourceId, start: Start, from: nat)
    requires Enabled(s, Record(id, ok)) && Paced(s, source, start, from)
    ensures Paced(Apply(s, Record(id, ok)), source, start, from)
  {
    var s' := Apply(s, Record(id, ok));
    if s.tasks[id].source == source {
      RowKeepsPace(s, id, ok, source, start, from);
      assert Live(s, source, id);
    }
    hide Spaced, Rested, Stamped, MayStart;
    assert forall o :: Live(s', source, o) ==> Live(s, source, o);
    forall o | Live(s', source, o) ensures TaskPaced(s', source, start, o) {
      assert TaskPaced(s, source, start, o);
    }
  }

  /** Live tasks belong to a sweep under way. */
  lemma NoneLive(s: State, source: SourceId, start: Start, from: nat)
    requires Paced(s, source, start, from)
    requires s.sweep.None? || forall id :: id in s.sweep.value ==> In(s, id, Finished)
    ensures forall o :: !Live(s, source, o)
  {
    hide Spaced, Rested, Stamped, MayStart;
  }

  lemma SweepKeepsPace(s: State, due: map<TaskId, SourceId>, source: SourceId, start: Start, from: nat)
    requires Enabled(s, BeginSweep(due)) && Paced(s, source, start, from)
    ensures Paced(Apply(s, BeginSweep(due)), source, start, from)
  {
    var s' := Apply(s, BeginSweep(due));
    NoneLive(s, source, start, from);
    forall o | Live(s', source, o) ensures o in due && due[o] == source {
      assert o !in due ==> Live(s, source, o);
    }
    if source in due.Values {
      DueMeansMayBeFetched(s.sources[source], s.clock, JournalOf(s, source));
      DueMayStart(s.sources[source], s.clock, JournalOf(s, source), start);
    }
    hide Spaced, Rested, Stamped, MayStart, DueNow;
    forall o | Live(s', source, o) ensures TaskPaced(s', source, start, o) {
      assert due[o] in due.Values;
    }
    forall a, b | Live(s', source, a) && Live(s', source, b) ensures a == b {
      assert due[a] == due[b];
    }
  }

  lemma EndKeepsPace(s: State, source: SourceId, start: Start, from: nat)
    requires Enabled(s, EndSweep) && Paced(s, source, start, from)
    ensures Paced(Apply(s, EndSweep), source, start, from)
  {
    NoneLive(s, source, start, from);
    hide Spaced, Rested, Stamped, MayStart;
    assert forall o :: Live(Apply(s, EndSweep), source, o) ==> Live(s, source, o);
  }

  /** Tasks of other sources, or removals of marks, change nothing for this one. */
  lemma ElsewhereKeepsPace(s: State, s': State, source: SourceId, start: Start, from: nat)
    requires Paced(s, source, start, from)
    requires s'.clock == s.clock && s'.sources == s.sources && s'.journal == s.journal && s'.sweep == s.sweep
    requires forall id :: Live(s', source, id) ==> Live(s, source, id) && s'.tasks[id] == s.tasks[id]
    ensures Paced(s', source, start, from)
  {
    hide Spaced, Rested, Stamped, MayStart;
    forall o | Live(s', source, o) ensures TaskPaced(s', source, start, o) {
      assert TaskPaced(s, source, start, o);
    }
  }

  lemma StepKeepsPace(s: State, step: Step, source: SourceId, start: Start, from: nat)
    requires Enabled(s, step) && Unforced(step, source) && Paced(s, source, start, from)
    ensures Paced(Apply(s, step), source, start, from)
  {
    hide Paced, DueNow;
    var s' := Apply(s, step);
    match step
    case Advance(seconds) => TimePasses(s, seconds, source, start, from);
    case BeginSweep(due) => SweepKeepsPace(s, due, source, start, from);
    case EndSweep => EndKeepsPace(s, source, start, from);
    case Refresh(id, other) => ElsewhereKeepsPace(s, s', source, start, from);
    case Acquire(id) =>
      MoveKeepsPace(s, s', id, if s.tasks[id].source in s.marks then Finished else Queued, source, start, from);
    case Permit(id) => MoveKeepsPace(s, s', id, Running(s.clock), source, start, from);
    case Record(id, ok) => RecordKeepsPace(s, id, ok, source, start, from);
    case SkipFresh(id) => MoveKeepsPace(s, s', id, Journaled, source, start, from);
    case ReturnPermit(id) => MoveKeepsPace(s, s', id, Leaving, source, start, from);
    case DropMark(id) => MoveKeepsPace(s, s', id, Finished, source, start, from);
    case DeferMark(id) => MoveKeepsPace(s, s', id, Finished, source, start, from);
    case RunDeferred(id) => ElsewhereKeepsPace(s, s', source, start, from);
  }

  /** In every interleaving of sweeps, tasks, refreshes of other sources and outcomes of any kind
      the attempts on an unedited source stay spaced by the backoff of the failures before them
      and by the interval from the successes before them. */
  lemma {:induction false} AttemptsArePaced(s: State, steps: seq<Step>, t: State, source: SourceId, start: Start, from: nat)
    requires UnforcedRun(s, steps, t, source) && Paced(s, source, start, from)
    ensures Paced(t, source, start, from)
    decreases |steps|
  {
    if steps != [] {
      StepKeepsPace(s, steps[0], source, start, from);
      hide Paced, Enabled;
      AttemptsArePaced(Apply(s, steps[0]), steps[1..], t, source, start, from);
    }
  }

  lemma PacedMeansSpaced(s: State, source: SourceId, start: Start, from: nat)
    requires Paced(s, source, start, from)
    ensures source in s.sources && Spaced(JournalOf(s, source), start.edited, from) && Rested(JournalOf(s, source), start)
  {}

  /** The bound, for a source that works, then dies, is edited, or is met by a restart: take the
      newest `m` of its `n` failures in a row, all but the first of them attempted in this run or
      spaced before it, and none before the last edit.  They span at least the backoffs earned
      in between: from the sixth failure on an hour each. */
  lemma DeadSourceIsPaced(s: State, steps: seq<Step>, t: State, source: SourceId, start: Start, from: nat, m: nat)
    requires UnforcedRun(s, steps, t, source) && Paced(s, source, start, from)
    requires 0 < m <= TrailingFailures(JournalOf(t, source)) && from <= |JournalOf(t, source)| - m + 1
    requires start.edited <= JournalOf(t, source)[|JournalOf(t, source)| - m].at
    ensures var journal := JournalOf(t, source);
      var n := TrailingFailures(journal);
      var took := journal[|journal| - 1].at - journal[|journal| - m].at;
      && took >= Span(n) - Span(n - m + 1)
      && (m == n >= 6 ==> took >= 3720 + 3600 * (n - 6))
      && (n - m >= 5 ==> took >= 3600 * (m - 1))
  {
    hide *;
    AttemptsArePaced(s, steps, t, source, start, from);
    PacedMeansSpaced(t, source, start, from);
    TailTakes(JournalOf(t, source), start.edited, from, m);
  }

  function StartOf(s: State, source: SourceId): Start
    requires source in s.sources
  {
    var src := s.sources[source];
    Start(src.updatedAt, src.lastFetchedAt, src.ttl, |JournalOf(s, source)|)
  }

  /** Every start satisfies the premises, whatever the journal holds: attempts of this run are
      spaced, and those of earlier runs as far as they were. */
  lemma FreshStartIsPaced(s: State, source: SourceId, maxConcurrency: nat, from: nat)
    requires Initial(s, maxConcurrency) && source in s.sources
    ensures OwnersOk(s)
    ensures Paced(s, source, StartOf(s, source), |JournalOf(s, source)|)
    ensures Paced(s, source, StartOf(s, source), from) <==> Spaced(JournalOf(s, source), s.sources[source].updatedAt, from)
  {}

  // ---------------------------------------------------------------- freshness

  /** A source nobody forces is left alone for its interval: whatever happens in a run, no attempt
      on it begins within `ttl` of the success known at the start or of any success since. */
  lemma IntervalIsKept(s: State, steps: seq<Step>, t: State, source: SourceId, maxConcurrency: nat)
    requires Initial(s, maxConcurrency) && source in s.sources && UnforcedRun(s, steps, t, source)
    ensures var src, before, journal := s.sources[source], |JournalOf(s, source)|, JournalOf(t, source);
      forall k :: before <= k < |journal| ==>
        && (src.lastFetchedAt.Some? ==> journal[k].at >= src.lastFetchedAt.value + src.ttl)
        && forall j :: before <= j < k && journal[j].ok ==> journal[k].at >= journal[j].at + src.ttl
  {
    var start, from, journal := StartOf(s, source), |JournalOf(s, source)|, JournalOf(t, source);
    FreshStartIsPaced(s, source, maxConcurrency, from);
    AttemptsArePaced(s, steps, t, source, start, from);
    PacedMeansSpaced(t, source, start, from);
    hide Paced, Spaced, Initial, Run;
    forall k, j | from <= k < |journal| && from <= j < k && journal[j].ok ensures journal[k].at >= journal[j].at + start.ttl {
      assert AllStale(journal[..k], start, journal[k].at) && journal[..k][j] == journal[j];
    }
    forall k | from <= k < |journal| && start.stamp.Some? ensures journal[k].at >= start.stamp.value + start.ttl {
      assert AllStale(journal[..k], start, journal[k].at);
    }
  }

  /** And it is not forgotten: a sweep may take a source, alone or with others, exactly if its
      interval has run out and its newest attempt does not hold it back. */
  lemma SweepTakes(s: State, due: map<TaskId, SourceId>)
    requires s.sweep.None? && (forall id :: id in due ==> id !in s.tasks && due[id] in s.sources)
    requires forall a, b :: a in due && b in due && due[a] == due[b] ==> a == b
    ensures Enabled(s, BeginSweep(due)) <==>
              forall id :: id in due ==> MayBeFetched(s.sources[due[id]], s.clock, JournalOf(s, due[id]))
  {
    hide IsDue, HistoryOf, MayBeFetched;
    forall id | id in due {
      DueMeansMayBeFetched(s.sources[due[id]], s.clock, JournalOf(s, due[id]));
    }
  }

  /** A task's way through mark, permit, a successful fetch and back. */
  function FetchSteps(id: TaskId): seq<Step> {
    [Acquire(id)] + ([Permit(id)] + ([Record(id, true)] + ([ReturnPermit(id)] + ([DropMark(id)] + []))))
  }

  lemma RunStep(s: State, step: Step, rest: seq<Step>, t: State)
    requires Enabled(s, step) && Run(Apply(s, step), rest, t)
    ensures Run(s, [step] + rest, t)
  {
    assert ([step] + rest)[1..] == rest;
  }

  lemma {:induction false} RunJoins(s: State, a: seq<Step>, m: State, b: seq<Step>, t: State)
    requires Run(s, a, m) && Run(m, b, t)
    ensures Run(s, a + b, t)
    decreases |a|
  {
    if a == [] {
      assert a + b == b;
    } else {
      assert (a + b)[1..] == a[1..] + b;
      RunJoins(Apply(s, a[0]), a[1..], m, b, t);
    }
  }

  lemma AcquireStep(s: State, id: TaskId) returns (t: State)
    requires In(s, id, Spawned) && s.tasks[id].source !in s.marks
    ensures Enabled(s, Acquire(id)) && t == Apply(s, Acquire(id))
    ensures t.tasks == s.tasks[id := s.tasks[id].(phase := Queued)] && t.marks == s.marks + {s.tasks[id].source}
    ensures t.clock == s.clock && t.free == s.free && t.journal == s.journal
  {
    t := Apply(s, Acquire(id));
  }

  lemma PermitStep(s: State, id: TaskId) returns (t: State)
    requires In(s, id, Queued) && s.free > 0
    ensures Enabled(s, Permit(id)) && t == Apply(s, Permit(id))
    ensures t.tasks == s.tasks[id := s.tasks[id].(phase := Running(s.clock))] && t.marks == s.marks
    ensures t.clock == s.clock && t.free == s.free - 1 && t.journal == s.journal
  {
    t := Apply(s, Permit(id));
  }

  lemma RecordStep(s: State, id: TaskId) returns (t: State)
    requires In(s, id, Running(s.clock))
    ensures Enabled(s, Record(id, true)) && t == Apply(s, Record(id, true))
    ensures t.tasks == s.tasks[id := s.tasks[id].(phase := Journaled)] && t.marks == s.marks
    ensures t.clock == s.clock && t.free == s.free
    ensures var source := s.tasks[id].source;
      t.journal == s.journal[source := JournalOf(s, source) + [Row(s.clock, true)]]
  {
    hide SourcesAfter;
    t := Apply(s, Record(id, true));
  }

  lemma LeaveSteps(s: State, id: TaskId) returns (m: State, t: State)
    requires In(s, id, Journaled)
    ensures Enabled(s, ReturnPermit(id)) && m == Apply(s, ReturnPermit(id))
    ensures Enabled(m, DropMark(id)) && t == Apply(m, DropMark(id))
    ensures t.tasks == s.tasks[id := s.tasks[id].(phase := Finished)] && t.marks == s.marks - {s.tasks[id].source}
    ensures t.clock == s.clock && t.free == s.free + 1 && t.journal == s.journal
  {
    m := Apply(s, ReturnPermit(id));
    t := Apply(m, DropMark(id));
  }

  lemma FetchRuns(s: State, id: TaskId) returns (t: State)
    requires In(s, id, Spawned) && s.tasks[id].source !in s.marks && s.free > 0
    ensures var source := s.tasks[id].source;
      && Run(s, FetchSteps(id), t)
      && t.clock == s.clock && t.marks == s.marks && t.free == s.free
      && t.tasks == s.tasks[id := s.tasks[id].(phase := Finished)]
      && t.journal == s.journal[source := JournalOf(s, source) + [Row(s.clock, true)]]
  {
    hide Enabled, Apply;
    var s1 := AcquireStep(s, id);
    var s2 := PermitStep(s1, id);
    var s3 := RecordStep(s2, id);
    var s4;
    s4, t := LeaveSteps(s3, id);
    assert t.marks == s.marks;
    assert Run(t, [], t);
    hide Run;
    RunStep(s4, DropMark(id), [], t);
    RunStep(s3, ReturnPermit(id), [DropMark(id)] + [], t);
    RunStep(s2, Record(id, true), [ReturnPermit(id)] + ([DropMark(id)] + []), t);
    RunStep(s1, Permit(id), [Record(id, true)] + ([ReturnPermit(id)] + ([DropMark(id)] + [])), t);
    RunStep(s, Acquire(id), [Permit(id)] + ([Record(id, true)] + ([ReturnPermit(id)] + ([DropMark(id)] + []))), t);
  }

  /** A sweep decides for a source never fetched, and a refresh of it is asked for. */
  lemma DecidedThenForced(source: SourceId, ttl: int) returns (s: State, m: State, t: State)
    ensures Initial(s, 1) && s.sources == map[source := Source(None, ttl, 0)]
    ensures Enabled(s, BeginSweep(map[0 := source])) && m == Apply(s, BeginSweep(map[0 := source]))
    ensures Enabled(m, Refresh(1, source)) && t == Apply(m, Refresh(1, source))
    ensures t.tasks == map[0 := Task(source, false, Spawned), 1 := Task(source, true, Spawned)]
    ensures t.clock == 0 && t.free == 1 && t.marks == {} && t.journal == map[]
  {
    s := State(0, map[source := Source(None, ttl, 0)], map[], map[], None, {}, map[], 1);
    var due: map<TaskId, SourceId> := map[0 := source];
    m := Apply(s, BeginSweep(due));
    assert m.tasks == map[0 := Task(source, false, Spawned)];
    t := Apply(m, Refresh(1, source));
  }

  /** A sweep decides, a refresh is asked for and runs, then the sweep's task runs. */
  function ForcedMeanwhile(source: SourceId): seq<Step> {
    [BeginSweep(map[0 := source])] + ([Refresh(1, source)] + (FetchSteps(1) + FetchSteps(0)))
  }

  /** Why nobody may force the source: a refresh between a sweep's decision and its task goes
      unnoticed, for the task goes by the row the sweep read, and the source is fetched twice
      within its interval. */
  lemma RefreshIsNotNoticed(source: SourceId, ttl: int) returns (s: State, t: State)
    requires ttl > 0
    ensures Initial(s, 1) && s.sources == map[source := Source(None, ttl, 0)] && Run(s, ForcedMeanwhile(source), t)
    ensures JournalOf(t, source) == [Row(0, true), Row(0, true)]
  {
    hide Enabled, Apply, Initial, Run, FetchSteps;
    var s1, s2;
    s, s1, s2 := DecidedThenForced(source, ttl);
    var s3 := FetchRuns(s2, 1);
    t := FetchRuns(s3, 0);
    RunJoins(s2, FetchSteps(1), s3, FetchSteps(0), t);
    RunStep(s1, Refresh(1, source), FetchSteps(1) + FetchSteps(0), t);
    RunStep(s, BeginSweep(map[0 := source]), [Refresh(1, source)] + (FetchSteps(1) + FetchSteps(0)), t);
    TwoRows(s2, s3, t, source);
  }

  lemma TwoRows(s: State, m: State, t: State, source: SourceId)
    requires s.journal == map[] && s.clock == m.clock == 0
    requires m.journal == s.journal[source := JournalOf(s, source) + [Row(s.clock, true)]]
    requires t.journal == m.journal[source := JournalOf(m, source) + [Row(m.clock, true)]]
    ensures JournalOf(t, source) == [Row(0, true), Row(0, true)]
  {}

  // ---------------------------------------------------------------- the marks themselves

  /** The marks of running refreshes, as callers see them.  `protocol` is the state of the
      interleavings above. */
  class SchedulerState {
    var inFlight: set<SourceId>
    ghost var protocol: State

    ghost predicate Valid()
      reads this
    {
      inFlight == protocol.marks && OwnersOk(protocol)
    }

    constructor (maxConcurrency: nat, ghost start: State)
      requires Initial(start, maxConcurrency)
      ensures Valid() && protocol == start
    {
      inFlight, protocol := {}, start;
    }

    /** Exactly one of any number of callers gets the mark: the step of the interleavings, after
        which the caller is the one task between mark and drop, or over. */
    method AcquireSource(ghost id: TaskId, source: SourceId) returns (acquired: bool)
      requires Valid() && In(protocol, id, Spawned) && protocol.tasks[id].source == source
      modifies this
      ensures Valid() && protocol == Apply(old(protocol), Acquire(id))
      ensures acquired ==>
                forall other :: other in protocol.tasks && protocol.tasks[other].source == source ==>
                  (Holding(protocol.tasks[other].phase) <==> other == id)
      ensures !acquired ==>
                In(protocol, id, Finished) && exists other :: other in protocol.owners && protocol.owners[other] == source
    {
      StepKeepsOwners(protocol, Acquire(id));
      if source in inFlight {
        MarkedMeansOwned(protocol, source);
      }
      acquired := source !in inFlight;
      inFlight := inFlight + {source};
      protocol := Apply(protocol, Acquire(id));
    }

    /** The guard's drop: the mark goes at once when the lock is free, else it is left to a task of
        its own. */
    method DropGuard(ghost id: TaskId, source: SourceId, contended: bool)
      requires Valid() && In(protocol, id, Leaving) && protocol.tasks[id].source == source
      modifies this
      ensures Valid() && protocol == Apply(old(protocol), if contended then DeferMark(id) else DropMark(id))
      ensures forall other :: other in protocol.owners && other != id ==> protocol.owners[other] in inFlight
    {
      ghost var step := if contended then DeferMark(id) else DropMark(id);
      StepKeepsOwners(protocol, step);
      if !contended {
        inFlight := inFlight - {source};
      }
      protocol := Apply(protocol, step);
    }

    /** The removal left behind by a contended drop, by name alone. */
    method RemoveLater(ghost id: TaskId, source: SourceId)
      requires Valid() && Enabled(protocol, RunDeferred(id)) && protocol.owners[id] == source
      modifies this
      ensures Valid() && protocol == Apply(old(protocol), RunDeferred(id)) && source !in inFlight
      ensures forall other :: other in protocol.owners ==> protocol.owners[other] in inFlight
    {
      StepKeepsOwners(protocol, RunDeferred(id));
      inFlight := inFlight - {source};
      protocol := Apply(protocol, RunDeferred(id));
    }
  }

  lemma MarkedMeansOwned(s: State, source: SourceId)
    requires OwnersOk(s) && source in s.marks
    ensures exists id :: id in s.owners && s.owners[id] == source
  {
    assert source in s.owners.Values;
  }
}
