/** The processed-cache coherence protocol as an interleaving of atomic steps.

Renders (inline ones for a cache miss, background ones for a stale entry), invalidations
and database commits run concurrently.  Each step below is one atomic access to shared
state: one cache operation, one critical section of a lock, or one database read.

The database is represented by version counters: `rowVer` counts the committed changes of a
source, `compVer` those of a key's composition (a profile edit), and `comp` is the current
composition.  An entry remembers the versions it was rendered from, which the program does
not store: they exist to say what "stale" means. */
module CacheProtocol {
  import opened ClaimSets
  import opened Prelude

  datatype Key = Sub(profile: string) | Src(source: string)
  type SourceId = string

  /** A rendered output: the composition version and row versions it was computed from.
      `names` is the program's `source_ids`. */
  datatype Entry = Entry(compSeen: nat, names: set<SourceId>, rows: map<SourceId, nat>)

  /** An inline render registers the sources it may draw from; a revalidation does not. */
  datatype Kind = Inline(claimed: set<SourceId>) | Revalidate

  datatype Phase =
    | Claimed                                    // claim taken, generation not yet read
    | Rendering(gen: nat, draft: Option<Entry>)  // reading the database
    | Checked(gen: nat, entry: Entry)            // first generation check passed
    | Inserted(gen: nat)                         // stored, second check outstanding
    | Undoing(bumped: bool)                      // second check failed: bump, then remove
    | Finished                                   // guard still alive
    | Deferred                                   // guard dropped under contention

  datatype Render = Render(kind: Kind, key: Key, phase: Phase)

  /** An invalidation: it must scan for keys naming `source`, then bump and remove each. */
  datatype Work =
    | Pending(source: SourceId)
    | HalfScanned(source: SourceId, part: set<Key>)
    | Removing(todo: seq<Key>, bumped: bool)

  /** Granularity and order of the scan over cached entries and inline claims. */
  datatype Scan = Atomic | EntriesThenClaims | ClaimsThenEntries

  datatype State = State(
    rowVer: map<SourceId, nat>,
    compVer: map<Key, nat>,
    comp: map<Key, set<SourceId>>,
    processed: map<Key, Entry>,
    generations: map<Key, nat>,
    inlineClaims: map<Key, set<SourceId>>,
    revalidating: set<Key>,
    renders: map<TaskId, Render>,
    invals: map<TaskId, Work>)
  {
    function RowVer(s: SourceId): nat { if s in rowVer then rowVer[s] else 0 }
    function CompVer(k: Key): nat { if k in compVer then compVer[k] else 0 }
    function Comp(k: Key): set<SourceId> { if k in comp then comp[k] else {} }
    /** Current invalidation generation of a key; 0 means never invalidated. */
    function Generation(k: Key): nat { if k in generations then generations[k] else 0 }
  }

  datatype Step =
    | CommitRows(inval: TaskId, source: SourceId, comp: map<Key, set<SourceId>>)
    | CommitProfile(inval: TaskId, key: Key, members: set<SourceId>)
    | DropKey(inval: TaskId, key: Key)
    | ScanAll(inval: TaskId, todo: seq<Key>)
    | ScanFirst(inval: TaskId)
    | ScanSecond(inval: TaskId, todo: seq<Key>)
    | Bump(inval: TaskId)
    | Remove(inval: TaskId)
    | EndInvalidation(inval: TaskId)
    | ClaimInline(render: TaskId, key: Key, sources: set<SourceId>)
    | ClaimRevalidate(render: TaskId, key: Key)
    | ReadGeneration(render: TaskId)
    | ReadComposition(render: TaskId)
    | ReadRows(render: TaskId, source: SourceId)
    | FirstCheck(render: TaskId)
    | Insert(render: TaskId)
    | SecondCheck(render: TaskId)
    | UndoBump(render: TaskId)
    | UndoRemove(render: TaskId)
    | Abandon(render: TaskId)
    | Release(render: TaskId)
    | Defer(render: TaskId)
    | RunDeferred(render: TaskId)

  // ---------------------------------------------------------------- transitions

  /** Keys whose cached entry names `s`, and keys whose inline claim names `s`. */
  function EntriesNaming(st: State, s: SourceId): set<Key> {
    set k | k in st.processed && s in st.processed[k].names
  }

  function ClaimsNaming(st: State, s: SourceId): set<Key> {
    set k | k in st.inlineClaims && s in st.inlineClaims[k]
  }

  /** `todo` lists exactly the keys in `keys`, in any order and with any repetition. */
  ghost predicate Lists(todo: seq<Key>, keys: set<Key>) {
    forall k :: k in todo <==> k in keys
  }

  predicate Fresh(st: State, id: TaskId) {
    id !in st.renders && id !in st.invals
  }

  ghost predicate Enabled(scan: Scan, st: State, step: Step) {
    match step
    case CommitRows(i, s, comp) =>
      // A source change can only add or withdraw that source from a composition.
      && Fresh(st, i)
      && forall k :: (if k in comp then comp[k] else {}) - {s} == st.Comp(k) - {s}
    case CommitProfile(i, k, _) => Fresh(st, i) && k.Sub?
    case DropKey(i, k) => Fresh(st, i)
    case ScanAll(i, todo) =>
      && scan == Atomic && i in st.invals && st.invals[i].Pending?
      && var s := st.invals[i].source;
      Lists(todo, EntriesNaming(st, s) + ClaimsNaming(st, s))
    case ScanFirst(i) => scan != Atomic && i in st.invals && st.invals[i].Pending?
    case ScanSecond(i, todo) =>
      && scan != Atomic && i in st.invals && st.invals[i].HalfScanned?
      && var w := st.invals[i];
      Lists(todo, w.part + if scan.ClaimsThenEntries? then EntriesNaming(st, w.source)
                                                    else ClaimsNaming(st, w.source))
    case Bump(i) =>
      i in st.invals && st.invals[i].Removing? && st.invals[i].todo != [] && !st.invals[i].bumped
    case Remove(i) =>
      i in st.invals && st.invals[i].Removing? && st.invals[i].todo != [] && st.invals[i].bumped
    case EndInvalidation(i) => i in st.invals && st.invals[i].Removing? && st.invals[i].todo == []
    case ClaimInline(r, k, _) => Fresh(st, r) && k !in st.inlineClaims
    case ClaimRevalidate(r, k) => Fresh(st, r) && k !in st.revalidating
    case ReadGeneration(r) => r in st.renders && st.renders[r].phase.Claimed?
    case ReadComposition(r) =>
      r in st.renders && st.renders[r].phase.Rendering? && st.renders[r].phase.draft.None?
    case ReadRows(r, s) =>
      && r in st.renders && st.renders[r].phase.Rendering? && st.renders[r].phase.draft.Some?
      && s in st.renders[r].phase.draft.value.names && s !in st.renders[r].phase.draft.value.rows
    case FirstCheck(r) =>
      && r in st.renders && st.renders[r].phase.Rendering? && st.renders[r].phase.draft.Some?
      && st.renders[r].phase.draft.value.rows.Keys == st.renders[r].phase.draft.value.names
    case Insert(r) => r in st.renders && st.renders[r].phase.Checked?
    case SecondCheck(r) => r in st.renders && st.renders[r].phase.Inserted?
    case UndoBump(r) => r in st.renders && st.renders[r].phase == Undoing(false)
    case UndoRemove(r) => r in st.renders && st.renders[r].phase == Undoing(true)
    case Abandon(r) =>
      r in st.renders && (st.renders[r].phase.Claimed? || st.renders[r].phase.Rendering?)
    case Release(r) => r in st.renders && st.renders[r].phase.Finished?
    case Defer(r) => r in st.renders && st.renders[r].phase.Finished?
    case RunDeferred(r) => r in st.renders && st.renders[r].phase.Deferred?
  }

  function SetPhase(st: State, id: TaskId, phase: Phase): State
    requires id in st.renders
  {
    st.(renders := st.renders[id := st.renders[id].(phase := phase)])
  }

  function BumpKey(st: State, k: Key): State {
    st.(generations := st.generations[k := st.Generation(k) + 1])
  }

  /** Removing a claim is by key: the guard and the deferred task know nothing else. */
  function DropClaim(st: State, id: TaskId): State
    requires id in st.renders
  {
    var r := st.renders[id];
    if r.kind.Inline? then st.(renders := st.renders - {id}, inlineClaims := st.inlineClaims - {r.key})
    else st.(renders := st.renders - {id}, revalidating := st.revalidating - {r.key})
  }

  /** A drop touches the tasks and the claims only. */
  lemma DropShape(st: State, id: TaskId)
    requires id in st.renders
    ensures var st' := DropClaim(st, id);
      && st'.renders == st.renders - {id} && st'.rowVer == st.rowVer && st'.compVer == st.compVer && st'.comp == st.comp
      && st'.processed == st.processed && st'.generations == st.generations && st'.invals == st.invals
  {
    var k := st.renders[id].key;
    if st.renders[id].kind.Inline? {
      assert DropClaim(st, id) == st.(renders := st.renders - {id}, inlineClaims := st.inlineClaims - {k});
    } else {
      assert DropClaim(st, id) == st.(renders := st.renders - {id}, revalidating := st.revalidating - {k});
    }
  }

  ghost function Apply(scan: Scan, st: State, step: Step): State
    requires Enabled(scan, st, step)
  {
    match step
    case CommitRows(i, s, comp) =>
      st.(rowVer := st.rowVer[s := st.RowVer(s) + 1], comp := comp, invals := st.invals[i := Pending(s)])
    case CommitProfile(i, k, members) =>
      st.(compVer := st.compVer[k := st.CompVer(k) + 1], comp := st.comp[k := members],
          invals := st.invals[i := Removing([k], false)])
    case DropKey(i, k) => st.(invals := st.invals[i := Removing([k], false)])
    case ScanAll(i, todo) => st.(invals := st.invals[i := Removing(todo, false)])
    case ScanFirst(i) =>
      var s := st.invals[i].source;
      st.(invals := st.invals[i := HalfScanned(s, if scan.ClaimsThenEntries? then ClaimsNaming(st, s)
                                                                               else EntriesNaming(st, s))])
    case ScanSecond(i, todo) => st.(invals := st.invals[i := Removing(todo, false)])
    case Bump(i) =>
      BumpKey(st, st.invals[i].todo[0]).(invals := st.invals[i := st.invals[i].(bumped := true)])
    case Remove(i) =>
      st.(processed := st.processed - {st.invals[i].todo[0]},
          invals := st.invals[i := Removing(st.invals[i].todo[1..], false)])
    case EndInvalidation(i) => st.(invals := st.invals - {i})
    case ClaimInline(r, k, sources) =>
      st.(inlineClaims := st.inlineClaims[k := sources],
          renders := st.renders[r := Render(Inline(sources), k, Claimed)])
    case ClaimRevalidate(r, k) =>
      st.(revalidating := st.revalidating + {k}, renders := st.renders[r := Render(Revalidate, k, Claimed)])
    case ReadGeneration(r) => SetPhase(st, r, Rendering(st.Generation(st.renders[r].key), None))
    case ReadComposition(r) =>
      var k := st.renders[r].key;
      SetPhase(st, r, st.renders[r].phase.(draft := Some(Entry(st.CompVer(k), st.Comp(k), map[]))))
    case ReadRows(r, s) =>
      var e := st.renders[r].phase.draft.value;
      SetPhase(st, r, st.renders[r].phase.(draft := Some(e.(rows := e.rows[s := st.RowVer(s)]))))
    case FirstCheck(r) =>
      var p := st.renders[r].phase;
      SetPhase(st, r, if st.Generation(st.renders[r].key) == p.gen then Checked(p.gen, p.draft.value) else Finished)
    case Insert(r) =>
      var p := st.renders[r].phase;
      SetPhase(st, r, Inserted(p.gen)).(processed := st.processed[st.renders[r].key := p.entry])
    case SecondCheck(r) =>
      SetPhase(st, r, if st.Generation(st.renders[r].key) == st.renders[r].phase.gen then Finished else Undoing(false))
    case UndoBump(r) => BumpKey(SetPhase(st, r, Undoing(true)), st.renders[r].key)
    case UndoRemove(r) =>
      SetPhase(st, r, Finished).(processed := st.processed - {st.renders[r].key})
    case Abandon(r) => SetPhase(st, r, Finished)
    case Release(r) => DropClaim(st, r)
    case Defer(r) => SetPhase(st, r, Deferred)
    case RunDeferred(r) => DropClaim(st, r)
  }

  // ---------------------------------------------------------------- caller obligations

  /** An invalidation or an undo has bumped `k` and is about to remove its entry. */
  ghost predicate RemovalInFlight(st: State, k: Key) {
    || (exists i :: i in st.invals && BumpedHead(st.invals[i], k))
    || (exists r :: r in st.renders && UndoRemoves(st.renders[r], k))
  }

  predicate UndoRemoves(r: Render, k: Key) {
    r.key == k && r.phase == Undoing(true)
  }

  predicate BumpedHead(w: Work, k: Key) {
    w.Removing? && w.bumped && w.todo != [] && w.todo[0] == k
  }

  /** What the cache layer needs from its callers for a step to be covered by the guarantee. */
  datatype Obligation =
    | CoveringClaim         // an inline claim names every source its rendering will name
    | AnchoredRevalidation  // a revalidation reads its generation while the key holds an entry
                            // that nobody is about to remove
    | PresentEntry          // the same without the second half: some entry is present
    | FixedComposition      // a change of a source's rows leaves every key's named sources alone
    | ClaimOutlivesScan     // an inline claim is not dropped between the two accesses of a scan
                            // for a source it names, unless the first access has found its key

  ghost predicate Meets(o: Obligation, st: State, step: Step) {
    match o
    case CoveringClaim =>
      step.ReadComposition? && step.render in st.renders && st.renders[step.render].kind.Inline? ==>
        st.Comp(st.renders[step.render].key) <= st.renders[step.render].kind.claimed
    case AnchoredRevalidation =>
      step.ReadGeneration? && step.render in st.renders && st.renders[step.render].kind.Revalidate? ==>
        st.renders[step.render].key in st.processed && !RemovalInFlight(st, st.renders[step.render].key)
    case PresentEntry =>
      step.ReadGeneration? && step.render in st.renders && st.renders[step.render].kind.Revalidate? ==>
        st.renders[step.render].key in st.processed
    case FixedComposition => step.CommitRows? ==> step.comp == st.comp
    case ClaimOutlivesScan =>
      (step.Release? || step.RunDeferred?) && step.render in st.renders && st.renders[step.render].kind.Inline? ==>
        forall i :: i in st.invals ==> !Slips(st.invals[i], st.renders[step.render])
  }

  /** The scan `w` would miss the inline render `r` if its claim went now. */
  predicate Slips(w: Work, r: Render)
    requires r.kind.Inline?
  {
    w.HalfScanned? && w.source in r.kind.claimed && r.key !in w.part
  }

  ghost predicate Disciplined(scan: Scan, st: State, step: Step) {
    && Meets(CoveringClaim, st, step) && Meets(AnchoredRevalidation, st, step) && Meets(FixedComposition, st, step)
    && (scan.EntriesThenClaims? ==> Meets(ClaimOutlivesScan, st, step))
  }

  ghost predicate Legal(scan: Scan, st: State, steps: seq<Step>)
    decreases |steps|
  {
    steps == [] || (Enabled(scan, st, steps[0]) && Legal(scan, Apply(scan, st, steps[0]), steps[1..]))
  }

  ghost function Exec(scan: Scan, st: State, steps: seq<Step>): State
    requires Legal(scan, st, steps)
    decreases |steps|
  {
    if steps == [] then st else Exec(scan, Apply(scan, st, steps[0]), steps[1..])
  }

  /** Every step of the run meets every obligation in `held`. */
  ghost predicate MeetsRun(scan: Scan, st: State, steps: seq<Step>, held: set<Obligation>)
    requires Legal(scan, st, steps)
    decreases |steps|
  {
    steps == [] ||
    ((forall o :: o in held ==> Meets(o, st, steps[0])) && MeetsRun(scan, Apply(scan, st, steps[0]), steps[1..], held))
  }

  const ALL_OBLIGATIONS: set<Obligation> := {CoveringClaim, AnchoredRevalidation, FixedComposition}

  /** The obligations a scan needs: the one that looks at entries first needs one more. */
  function Needed(scan: Scan): set<Obligation> {
    if scan.EntriesThenClaims? then ALL_OBLIGATIONS + {ClaimOutlivesScan} else ALL_OBLIGATIONS
  }

  /** Start-up: any database, an empty cache, no task. */
  ghost predicate Initial(st: State) {
    && st.processed == map[] && st.generations == map[] && st.inlineClaims == map[]
    && st.revalidating == {} && st.renders == map[] && st.invals == map[]
  }

  // ---------------------------------------------------------------- the invariant

  /** Keys this invalidation will still bump. */
  function Unbumped(w: Work): seq<Key>
    requires w.Removing?
  {
    if w.bumped && w.todo != [] then w.todo[1..] else w.todo
  }

  ghost predicate OwesBump(w: Work, k: Key) {
    w.Removing? && k in Unbumped(w)
  }

  /** A put on `k` that has lost its generation and has not bumped the key yet. */
  ghost predicate OwesUndo(st: State, r: Render, k: Key) {
    r.key == k && (r.phase == Undoing(false) || (r.phase.Inserted? && st.Generation(k) != r.phase.gen))
  }

  /** Somebody is bound to bump `k`. */
  ghost predicate WillBump(st: State, k: Key) {
    || (exists i :: i in st.invals && OwesBump(st.invals[i], k))
    || (exists r :: r in st.renders && OwesUndo(st, st.renders[r], k))
  }

  /** The inline claim of `k` names `s`. */
  predicate ClaimSight(st: State, k: Key, s: SourceId) {
    k in st.inlineClaims && s in st.inlineClaims[k]
  }

  /** An invalidation of `s` that is certain to find the key `k` of an entry naming `s`. */
  ghost predicate SeesEntry(scan: Scan, st: State, w: Work, s: SourceId, k: Key) {
    || w == Pending(s)
    || (w.HalfScanned? && w.source == s &&
        (scan.ClaimsThenEntries? || k in w.part || (scan.EntriesThenClaims? && ClaimSight(st, k, s))))
  }

  /** An invalidation of `s` that is certain to find the running render `r`. */
  ghost predicate SeesRender(scan: Scan, w: Work, s: SourceId, r: Render) {
    || w == Pending(s)
    || (w.HalfScanned? && w.source == s &&
        (|| (scan.ClaimsThenEntries? && r.kind.Revalidate?)
         || r.key in w.part
         || (scan.EntriesThenClaims? && r.kind.Inline? && s in r.kind.claimed)))
  }

  ghost predicate EntryRowOk(scan: Scan, st: State, k: Key, s: SourceId, v: nat) {
    v == st.RowVer(s) || exists i :: i in st.invals && SeesEntry(scan, st, st.invals[i], s, k)
  }

  ghost predicate RenderRowOk(scan: Scan, st: State, r: Render, s: SourceId, v: nat) {
    v == st.RowVer(s) || exists i :: i in st.invals && SeesRender(scan, st.invals[i], s, r)
  }

  /** The entry of `k` is current, or a pending scan will find it, or its removal is under way. */
  ghost predicate EntryOk(scan: Scan, st: State, k: Key)
    requires k in st.processed
  {
    var e := st.processed[k];
    && e.rows.Keys == e.names
    && e.compSeen <= st.CompVer(k)
    && (e.compSeen == st.CompVer(k) ==> e.names == st.Comp(k))
    && (|| WillBump(st, k)
        || RemovalInFlight(st, k)
        || (e.compSeen == st.CompVer(k) && forall s :: s in e.rows ==> EntryRowOk(scan, st, k, s, e.rows[s])))
  }

  /** An entry covering the current composition sits at `k` and is not about to be removed. */
  ghost predicate Anchored(st: State, k: Key) {
    k in st.processed && st.Comp(k) <= st.processed[k].names && !RemovalInFlight(st, k)
  }

  ghost predicate DraftShape(st: State, r: Render, e: Entry) {
    && e.rows.Keys <= e.names
    && e.compSeen <= st.CompVer(r.key)
    && (e.compSeen == st.CompVer(r.key) ==> e.names == st.Comp(r.key))
    && (r.kind.Inline? ==> e.names <= r.kind.claimed)
    && (r.phase.Checked? ==> e.rows.Keys == e.names)
  }

  ghost predicate DraftOk(scan: Scan, st: State, r: Render, e: Entry) {
    e.compSeen == st.CompVer(r.key) && forall s :: s in e.rows ==> RenderRowOk(scan, st, r, s, e.rows[s])
  }

  /** What a render that still may store has read so far. */
  function Draft(p: Phase): Option<Entry> {
    if p.Rendering? then p.draft else if p.Checked? then Some(p.entry) else None
  }

  /** A running render is bound to be refused, or everything it read is current or will be found. */
  ghost predicate RenderOk(scan: Scan, st: State, r: Render) {
    && (r.phase.Inserted? ==> r.phase.gen <= st.Generation(r.key))
    && (r.phase.Rendering? || r.phase.Checked? ==>
          && r.phase.gen <= st.Generation(r.key)
          && (Draft(r.phase).Some? ==> DraftShape(st, r, Draft(r.phase).value))
          && (|| st.Generation(r.key) != r.phase.gen
              || WillBump(st, r.key)
              || Justified(scan, st, r)))
  }

  ghost predicate Justified(scan: Scan, st: State, r: Render) {
    && (Draft(r.phase).Some? ==> DraftOk(scan, st, r, Draft(r.phase).value))
    && (r.kind.Revalidate? ==> Anchored(st, r.key))
  }

  /** The owners of the two kinds of claims: live guards and deferred removals. */
  ghost function InlineOwners(renders: map<TaskId, Render>): map<TaskId, Key> {
    map r | r in renders && renders[r].kind.Inline? :: renders[r].key
  }

  ghost function RevalidateOwners(renders: map<TaskId, Render>): map<TaskId, Key> {
    map r | r in renders && renders[r].kind.Revalidate? :: renders[r].key
  }

  ghost predicate ClaimsOwned(st: State) {
    && Owned(st.inlineClaims.Keys, InlineOwners(st.renders))
    && Owned(st.revalidating, RevalidateOwners(st.renders))
    && ClaimScopes(st.inlineClaims, st.renders)
  }

  /** A live inline render finds the sources it registered under its own key. */
  ghost predicate ClaimScopes(claims: map<Key, set<SourceId>>, renders: map<TaskId, Render>) {
    forall r :: r in renders && renders[r].kind.Inline? ==>
      renders[r].key in claims && claims[renders[r].key] == renders[r].kind.claimed
  }

  ghost predicate EntriesOk(scan: Scan, st: State) {
    forall k :: k in st.processed ==> EntryOk(scan, st, k)
  }

  ghost predicate RendersOk(scan: Scan, st: State) {
    forall r :: r in st.renders ==> RenderOk(scan, st, st.renders[r])
  }

  ghost predicate Coherent(scan: Scan, st: State) {
    ClaimsOwned(st) && EntriesOk(scan, st) && RendersOk(scan, st)
  }
}
