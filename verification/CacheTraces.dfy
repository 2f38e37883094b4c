/** Runs that leave a stale entry behind for a full freshness window.

The first needs nothing unusual from the callers: scanning cached entries before inline
claims, as two separate accesses, is enough.  Each of the others breaks exactly one caller
obligation, under any scan, so none of the three can be dropped. */
module CacheTraces {
  import opened ClaimSets
  import opened CacheProtocol
  import opened Prelude
  import opened CacheTheorems

  const S: SourceId := "s"
  const K: Key := Src("s")
  const P: Key := Sub("p")

  function Boot(comp: map<Key, set<SourceId>>): State {
    State(map[], map[], comp, map[], map[], map[], {}, map[], map[])
  }

  /** Some run from start-up meets the obligations in `held` and ends, with nothing left to do,
      holding an entry that is not current. */
  ghost predicate LeavesStaleEntry(scan: Scan, held: set<Obligation>) {
    exists st: State, steps: seq<Step> ::
      && Initial(st) && Legal(scan, st, steps) && MeetsRun(scan, st, steps, held)
      && StaleAtRest(Exec(scan, st, steps))
  }

  ghost predicate StaleAtRest(st: State) {
    Quiescent(st) && st.renders == map[] && exists k :: k in st.processed && !Current(st, k)
  }

  /** A run under construction. */
  ghost predicate Trace(scan: Scan, held: set<Obligation>, start: State, steps: seq<Step>, end: State) {
    Legal(scan, start, steps) && MeetsRun(scan, start, steps, held) && Exec(scan, start, steps) == end
  }

  lemma {:induction false} Extend(scan: Scan, held: set<Obligation>, start: State, steps: seq<Step>, end: State, step: Step)
    requires Trace(scan, held, start, steps, end)
    requires Enabled(scan, end, step) && forall o :: o in held ==> Meets(o, end, step)
    ensures Trace(scan, held, start, steps + [step], Apply(scan, end, step))
    decreases |steps|
  {
    if steps == [] {
      assert (steps + [step])[1..] == [];
    } else {
      Extend(scan, held, Apply(scan, start, steps[0]), steps[1..], end, step);
      assert (steps + [step])[1..] == steps[1..] + [step];
    }
  }

  /** Take one step of a trace. */
  lemma Take(scan: Scan, held: set<Obligation>, start: State, steps: seq<Step>, end: State, step: Step)
    returns (steps': seq<Step>, end': State)
    requires Trace(scan, held, start, steps, end)
    requires Enabled(scan, end, step) && forall o :: o in held ==> Meets(o, end, step)
    ensures end' == Apply(scan, end, step) && Trace(scan, held, start, steps', end')
  {
    Extend(scan, held, start, steps, end, step);
    steps', end' := steps + [step], Apply(scan, end, step);
  }

  /** A step no obligation speaks about. */
  predicate Free(step: Step) {
    !step.ReadGeneration? && !step.ReadComposition? && !step.CommitRows? && !step.Release? && !step.RunDeferred?
  }

  lemma TakeFree(scan: Scan, held: set<Obligation>, start: State, steps: seq<Step>, end: State, step: Step)
    returns (steps': seq<Step>, end': State)
    requires Trace(scan, held, start, steps, end) && Free(step) && Enabled(scan, end, step)
    ensures end' == Apply(scan, end, step) && Trace(scan, held, start, steps', end')
  {
    steps', end' := Take(scan, held, start, steps, end, step);
  }

  lemma Begin(scan: Scan, held: set<Obligation>, start: State)
    ensures Trace(scan, held, start, [], start)
  {
  }

  lemma Conclude(scan: Scan, held: set<Obligation>, start: State, steps: seq<Step>, end: State)
    requires Initial(start) && Trace(scan, held, start, steps, end) && StaleAtRest(end)
    ensures LeavesStaleEntry(scan, held)
  {
  }

  // ---------------------------------------------------------------- segments

  lemma CompositionEffect(scan: Scan, st: State, id: TaskId)
    requires id in st.renders && st.renders[id].phase.Rendering? && st.renders[id].phase.draft.None?
    ensures Enabled(scan, st, ReadComposition(id))
    ensures var r := st.renders[id];
      Apply(scan, st, ReadComposition(id)) ==
      SetPhase(st, id, Rendering(r.phase.gen, Some(Entry(st.CompVer(r.key), st.Comp(r.key), map[]))))
  {
  }

  lemma RowsEffect(scan: Scan, st: State, id: TaskId)
    requires id in st.renders && st.renders[id].phase.Rendering? && st.renders[id].phase.draft.Some?
    requires st.renders[id].phase.draft.value.names == {S} && st.renders[id].phase.draft.value.rows == map[]
    ensures Enabled(scan, st, ReadRows(id, S))
    ensures var p := st.renders[id].phase;
      Apply(scan, st, ReadRows(id, S)) ==
      SetPhase(st, id, Rendering(p.gen, Some(Entry(p.draft.value.compSeen, {S}, map[S := st.RowVer(S)]))))
  {
  }

  lemma CheckEffect(scan: Scan, st: State, id: TaskId)
    requires id in st.renders && st.renders[id].phase.Rendering? && st.renders[id].phase.draft.Some?
    requires st.renders[id].phase.draft.value.rows.Keys == st.renders[id].phase.draft.value.names
    requires st.renders[id].phase.gen == st.Generation(st.renders[id].key)
    ensures Enabled(scan, st, FirstCheck(id))
    ensures var p := st.renders[id].phase;
      Apply(scan, st, FirstCheck(id)) == SetPhase(st, id, Checked(p.gen, p.draft.value))
  {
  }

  lemma InlineClaimEffect(scan: Scan, st: State, id: TaskId, k: Key, claimed: set<SourceId>)
    requires Fresh(st, id) && k !in st.inlineClaims
    ensures Enabled(scan, st, ClaimInline(id, k, claimed))
    ensures Apply(scan, st, ClaimInline(id, k, claimed)) ==
            st.(inlineClaims := st.inlineClaims[k := claimed], renders := st.renders[id := Render(Inline(claimed), k, Claimed)])
  {
  }

  lemma GenerationEffect(scan: Scan, st: State, id: TaskId)
    requires id in st.renders && st.renders[id].phase.Claimed?
    ensures Enabled(scan, st, ReadGeneration(id))
    ensures Apply(scan, st, ReadGeneration(id)) == SetPhase(st, id, Rendering(st.Generation(st.renders[id].key), None))
  {
  }

  lemma CoveredClaim(st: State, id: TaskId, held: set<Obligation>)
    requires id in st.renders && st.Comp(st.renders[id].key) == {S}
    requires CoveringClaim in held && st.renders[id].kind.Inline? ==> S in st.renders[id].kind.claimed
    ensures forall o :: o in held ==> Meets(o, st, ReadComposition(id))
  {
  }

  lemma PhaseTwice(st: State, id: TaskId, p: Phase, q: Phase)
    requires id in st.renders
    ensures SetPhase(SetPhase(st, id, p), id, q) == SetPhase(st, id, q)
  {
    assert st.renders[id := st.renders[id].(phase := p)][id := st.renders[id].(phase := q)] ==
           st.renders[id := st.renders[id].(phase := q)];
  }

  /** A render that has its claim and its generation reads one source and passes its first check. */
  lemma ReadAndCheck(scan: Scan, held: set<Obligation>, start: State, run: seq<Step>, st: State, id: TaskId)
    returns (run': seq<Step>, st': State)
    requires Trace(scan, held, start, run, st)
    requires id in st.renders && st.renders[id].phase.Rendering? && st.renders[id].phase.draft.None?
    requires st.renders[id].phase.gen == st.Generation(st.renders[id].key)
    requires st.Comp(st.renders[id].key) == {S}
    requires CoveringClaim in held && st.renders[id].kind.Inline? ==> S in st.renders[id].kind.claimed
    ensures Trace(scan, held, start, run', st')
    ensures var r := st.renders[id];
      st' == SetPhase(st, id, Checked(r.phase.gen, Entry(st.CompVer(r.key), {S}, map[S := st.RowVer(S)])))
  {
    hide Trace, Enabled, Apply;
    hide Fresh, Meets;
    CompositionEffect(scan, st, id);
    CoveredClaim(st, id, held);
    run', st' := Take(scan, held, start, run, st, ReadComposition(id));
    RowsEffect(scan, st', id);
    run', st' := TakeFree(scan, held, start, run', st', ReadRows(id, S));
    CheckEffect(scan, st', id);
    run', st' := TakeFree(scan, held, start, run', st', FirstCheck(id));
    var r := st.renders[id];
    var seen := Entry(st.CompVer(r.key), {S}, map[S := st.RowVer(S)]);
    PhaseTwice(st, id, Rendering(r.phase.gen, Some(Entry(st.CompVer(r.key), {S}, map[]))), Rendering(r.phase.gen, Some(seen)));
    PhaseTwice(st, id, Rendering(r.phase.gen, Some(seen)), Checked(r.phase.gen, seen));
  }

  function WithRender(st: State, id: TaskId, k: Key, claimed: set<SourceId>, phase: Phase): State {
    st.(inlineClaims := st.inlineClaims[k := claimed], renders := st.renders[id := Render(Inline(claimed), k, phase)])
  }

  lemma NextPhase(st: State, id: TaskId, k: Key, claimed: set<SourceId>, p: Phase, q: Phase)
    ensures id in WithRender(st, id, k, claimed, p).renders
    ensures SetPhase(WithRender(st, id, k, claimed, p), id, q) == WithRender(st, id, k, claimed, q)
  {
    assert st.renders[id := Render(Inline(claimed), k, p)][id := Render(Inline(claimed), k, q)] ==
           st.renders[id := Render(Inline(claimed), k, q)];
  }

  lemma StartInline(scan: Scan, held: set<Obligation>, start: State, run: seq<Step>, st: State,
                    id: TaskId, k: Key, claimed: set<SourceId>)
    returns (run': seq<Step>, st': State)
    requires Trace(scan, held, start, run, st)
    requires Fresh(st, id) && k !in st.inlineClaims
    ensures Trace(scan, held, start, run', st')
    ensures st' == WithRender(st, id, k, claimed, Rendering(st.Generation(k), None))
  {
    hide Trace, Enabled, Apply;
    InlineClaimEffect(scan, st, id, k, claimed);
    run', st' := TakeFree(scan, held, start, run, st, ClaimInline(id, k, claimed));
    GenerationEffect(scan, st', id);
    run', st' := Take(scan, held, start, run', st', ReadGeneration(id));
    NextPhase(st, id, k, claimed, Claimed, Rendering(st.Generation(k), None));
  }

  lemma ClaimInlineAndRead(scan: Scan, held: set<Obligation>, start: State, run: seq<Step>, st: State,
                           id: TaskId, k: Key, claimed: set<SourceId>)
    returns (run': seq<Step>, st': State)
    requires Trace(scan, held, start, run, st)
    requires Fresh(st, id) && k !in st.inlineClaims && st.Comp(k) == {S}
    requires CoveringClaim in held ==> S in claimed
    ensures Trace(scan, held, start, run', st')
    ensures st' == WithRender(st, id, k, claimed, Checked(st.Generation(k), Entry(st.CompVer(k), {S}, map[S := st.RowVer(S)])))
  {
    hide Trace, Enabled, Apply, Fresh, SetPhase;
    run', st' := StartInline(scan, held, start, run, st, id, k, claimed);
    run', st' := ReadAndCheck(scan, held, start, run', st', id);
    NextPhase(st, id, k, claimed, Rendering(st.Generation(k), None),
              Checked(st.Generation(k), Entry(st.CompVer(k), {S}, map[S := st.RowVer(S)])));
  }

  lemma InsertEffect(scan: Scan, st: State, id: TaskId)
    requires id in st.renders && st.renders[id].phase.Checked?
    ensures Enabled(scan, st, Insert(id)) && Apply(scan, st, Insert(id)) == Placed(st, id)
  {
  }

  lemma SecondCheckEffect(scan: Scan, st: State, id: TaskId)
    requires id in st.renders && st.renders[id].phase.Inserted?
    requires st.renders[id].phase.gen == st.Generation(st.renders[id].key)
    ensures Enabled(scan, st, SecondCheck(id)) && Apply(scan, st, SecondCheck(id)) == SetPhase(st, id, Finished)
  {
  }

  lemma ReleaseEffect(scan: Scan, st: State, id: TaskId)
    requires id in st.renders && st.renders[id].phase.Finished?
    ensures Enabled(scan, st, Release(id)) && Apply(scan, st, Release(id)) == DropClaim(st, id)
  {
  }

  function Placed(st: State, id: TaskId): State
    requires id in st.renders && st.renders[id].phase.Checked?
  {
    var r := st.renders[id];
    SetPhase(st, id, Inserted(r.phase.gen)).(processed := st.processed[r.key := r.phase.entry])
  }

  lemma PlacedThenReleased(st: State, id: TaskId)
    requires id in st.renders && st.renders[id].phase.Checked?
    ensures id in Placed(st, id).renders
    ensures DropClaim(SetPhase(Placed(st, id), id, Finished), id) == Stored(st, id)
  {
    var r := st.renders[id];
    OverwriteThenRemove(st.renders, id, r.(phase := Inserted(r.phase.gen)));
    OverwriteThenRemove(Placed(st, id).renders, id, r.(phase := Finished));
  }

  lemma OverwriteThenRemove(m: map<TaskId, Render>, k: TaskId, v: Render)
    ensures m[k := v] - {k} == m - {k}
  {
  }

  /** The put of `id` succeeded and its guard is gone. */
  function Stored(st: State, id: TaskId): State
    requires id in st.renders && st.renders[id].phase.Checked?
  {
    var r := st.renders[id];
    DropClaim(st, id).(processed := st.processed[r.key := r.phase.entry])
  }

  lemma Store(scan: Scan, held: set<Obligation>, start: State, run: seq<Step>, st: State, id: TaskId)
    returns (run': seq<Step>, st': State)
    requires Trace(scan, held, start, run, st)
    requires id in st.renders && st.renders[id].phase.Checked?
    requires st.renders[id].phase.gen == st.Generation(st.renders[id].key)
    requires ClaimOutlivesScan in held ==> forall i :: i in st.invals ==> !st.invals[i].HalfScanned?
    ensures Trace(scan, held, start, run', st') && st' == Stored(st, id)
  {
    hide Trace, Enabled, Apply;
    InsertEffect(scan, st, id);
    run', st' := TakeFree(scan, held, start, run, st, Insert(id));
    SecondCheckEffect(scan, st', id);
    run', st' := TakeFree(scan, held, start, run', st', SecondCheck(id));
    ReleaseEffect(scan, st', id);
    run', st' := Take(scan, held, start, run', st', Release(id));
    PlacedThenReleased(st, id);
  }

  /** A scan, in one access or two, that finds neither an entry nor a claim naming the source. */
  lemma ScanUnseen(scan: Scan, held: set<Obligation>, start: State, run: seq<Step>, st: State, i: TaskId, s: SourceId)
    returns (run': seq<Step>, st': State)
    requires Trace(scan, held, start, run, st)
    requires i in st.invals && st.invals[i] == Pending(s) && EntriesNaming(st, s) == {} && ClaimsNaming(st, s) == {}
    ensures Trace(scan, held, start, run', st')
    ensures st' == st.(invals := st.invals[i := Removing([], false)])
  {
    hide Trace;
    if scan == Atomic {
      run', st' := TakeFree(scan, held, start, run, st, ScanAll(i, []));
    } else {
      run', st' := TakeFree(scan, held, start, run, st, ScanFirst(i));
      assert EntriesNaming(st', s) == EntriesNaming(st, s) && ClaimsNaming(st', s) == ClaimsNaming(st, s);
      run', st' := TakeFree(scan, held, start, run', st', ScanSecond(i, []));
      assert st'.invals == st.invals[i := Removing([], false)];
    }
  }

  /** A source change whose invalidation finds neither an entry nor a claim naming it. */
  lemma ChangeUnseen(scan: Scan, held: set<Obligation>, start: State, run: seq<Step>, st: State, i: TaskId, s: SourceId,
                     comp: map<Key, set<SourceId>>)
    returns (run': seq<Step>, st': State)
    requires Trace(scan, held, start, run, st)
    requires Fresh(st, i) && EntriesNaming(st, s) == {} && ClaimsNaming(st, s) == {}
    requires FixedComposition in held ==> comp == st.comp
    requires Enabled(scan, st, CommitRows(i, s, comp))
    ensures Trace(scan, held, start, run', st')
    ensures st' == st.(rowVer := st.rowVer[s := st.RowVer(s) + 1], comp := comp)
  {
    hide Trace;
    run', st' := Take(scan, held, start, run, st, CommitRows(i, s, comp));
    assert EntriesNaming(st', s) == EntriesNaming(st, s) && ClaimsNaming(st', s) == ClaimsNaming(st, s);
    run', st' := ScanUnseen(scan, held, start, run', st', i, s);
    run', st' := TakeFree(scan, held, start, run', st', EndInvalidation(i));
    assert st'.invals == st.invals;
  }

  function RevalidationStarted(st: State, id: TaskId, k: Key): State {
    st.(revalidating := st.revalidating + {k},
        renders := st.renders[id := Render(Revalidate, k, Rendering(st.Generation(k), None))])
  }

  function RevalidationClaimed(st: State, id: TaskId, k: Key): State {
    st.(revalidating := st.revalidating + {k}, renders := st.renders[id := Render(Revalidate, k, Claimed)])
  }

  lemma ClaimEffect(scan: Scan, st: State, id: TaskId, k: Key)
    requires Fresh(st, id) && k !in st.revalidating
    ensures Enabled(scan, st, ClaimRevalidate(id, k))
    ensures Apply(scan, st, ClaimRevalidate(id, k)) == RevalidationClaimed(st, id, k)
    ensures !RemovalInFlight(st, k) ==> !RemovalInFlight(RevalidationClaimed(st, id, k), k)
  {
    var claimed := RevalidationClaimed(st, id, k);
    if !RemovalInFlight(st, k) {
      forall r | r in claimed.renders ensures !UndoRemoves(claimed.renders[r], k) {
        assert r in st.renders ==> !UndoRemoves(st.renders[r], k);
      }
    }
  }

  lemma ReadEffect(scan: Scan, st: State, id: TaskId, k: Key)
    requires Fresh(st, id)
    ensures var claimed := RevalidationClaimed(st, id, k);
      && Enabled(scan, claimed, ReadGeneration(id))
      && Apply(scan, claimed, ReadGeneration(id)) == RevalidationStarted(st, id, k)
  {
    var claimed := RevalidationClaimed(st, id, k);
    assert claimed.renders[id] == Render(Revalidate, k, Claimed);
    assert RevalidationStarted(st, id, k).renders == SetPhase(claimed, id, Rendering(st.Generation(k), None)).renders;
  }

  lemma ClaimRevalidateAndRead(scan: Scan, held: set<Obligation>, start: State, run: seq<Step>, st: State, id: TaskId, k: Key)
    returns (run': seq<Step>, st': State)
    requires Trace(scan, held, start, run, st)
    requires Fresh(st, id) && k !in st.revalidating
    requires AnchoredRevalidation in held ==> k in st.processed && !RemovalInFlight(st, k)
    requires PresentEntry in held ==> k in st.processed
    ensures Trace(scan, held, start, run', st') && st' == RevalidationStarted(st, id, k)
  {
    hide Trace, Enabled, Apply, RemovalInFlight, RevalidationStarted;
    ClaimEffect(scan, st, id, k);
    run', st' := TakeFree(scan, held, start, run, st, ClaimRevalidate(id, k));
    ReadEffect(scan, st, id, k);
    run', st' := Take(scan, held, start, run', st', ReadGeneration(id));
  }

  // ---------------------------------------------------------------- the runs

  const OLD: Entry := Entry(0, {S}, map[S := 0])

  function ColdRender(): State {
    Boot(map[K := {S}]).(inlineClaims := map[K := {S}], renders := map[0 := Render(Inline({S}), K, Checked(0, OLD))])
  }

  /** The change lands and its invalidation scans the entries while the leader still renders. */
  lemma EntriesScannedTooEarly(h: set<Obligation>, start: State, run: seq<Step>) returns (run': seq<Step>, st': State)
    requires Trace(EntriesThenClaims, h, start, run, ColdRender())
    ensures Trace(EntriesThenClaims, h, start, run', st')
    ensures st' == ColdRender().(rowVer := map[S := 1], invals := map[1 := HalfScanned(S, {})])
  {
    hide Trace;
    var st := ColdRender();
    run', st' := Take(EntriesThenClaims, h, start, run, st, CommitRows(1, S, st.comp));
    FirstAccessIsEarly(st');
    hide Apply, Enabled;
    run', st' := TakeFree(EntriesThenClaims, h, start, run', st', ScanFirst(1));
  }

  lemma FirstAccessIsEarly(st: State)
    requires st == ColdRender().(rowVer := map[S := 1], invals := map[1 := Pending(S)])
    ensures Enabled(EntriesThenClaims, st, ScanFirst(1))
    ensures Apply(EntriesThenClaims, st, ScanFirst(1)) == st.(invals := map[1 := HalfScanned(S, {})])
  {
    assert EntriesNaming(st, S) == {};
    assert st.invals[1 := HalfScanned(S, {})] == map[1 := HalfScanned(S, {})];
  }

  lemma ClaimsScannedTooLate(h: set<Obligation>, start: State, run: seq<Step>, st: State) returns (run': seq<Step>, st': State)
    requires Trace(EntriesThenClaims, h, start, run, st)
    requires st.invals == map[1 := HalfScanned(S, {})] && st.inlineClaims == map[]
    ensures Trace(EntriesThenClaims, h, start, run', st') && st' == st.(invals := map[])
  {
    hide Trace;
    assert ClaimsNaming(st, S) == {};
    run', st' := TakeFree(EntriesThenClaims, h, start, run, st, ScanSecond(1, []));
    run', st' := TakeFree(EntriesThenClaims, h, start, run', st', EndInvalidation(1));
  }

  /** The order the program scans in, entries first, is unsafe as two steps: the leader stores
      its rendering after the entries were scanned and leaves before the claims are. */
  lemma EntriesFirstIsUnsafe()
    ensures LeavesStaleEntry(EntriesThenClaims, ALL_OBLIGATIONS)
  {
    hide Trace, LeavesStaleEntry;
    var start := Boot(map[K := {S}]);
    var scan, h := EntriesThenClaims, ALL_OBLIGATIONS;
    Begin(scan, h, start);
    var run, st := ClaimInlineAndRead(scan, h, start, [], start, 0, K, {S});
    assert st == ColdRender();
    run, st := EntriesScannedTooEarly(h, start, run);
    run, st := Store(scan, h, start, run, st, 0);
    assert st.inlineClaims == map[] && st.renders == map[] && st.processed == map[K := OLD];
    run, st := ClaimsScannedTooLate(h, start, run, st);
    assert K in st.processed && !Current(st, K);
    Conclude(scan, h, start, run, st);
  }

  /** A revalidation claimed on a key that has just been emptied is invisible to the scan. */
  lemma UnanchoredRevalidationIsUnsafe(scan: Scan)
    ensures LeavesStaleEntry(scan, Needed(scan) - {AnchoredRevalidation})
  {
    hide Trace, LeavesStaleEntry;
    var start := Boot(map[K := {S}]);
    var h := Needed(scan) - {AnchoredRevalidation};
    Begin(scan, h, start);
    var run, st := ClaimRevalidateAndRead(scan, h, start, [], start, 0, K);
    run, st := ReadAndCheck(scan, h, start, run, st, 0);
    run, st := ChangeUnseen(scan, h, start, run, st, 1, S, st.comp);
    run, st := Store(scan, h, start, run, st, 0);
    assert K in st.processed && !Current(st, K);
    Conclude(scan, h, start, run, st);
  }

  /** An inline claim that does not name a source of its rendering: the caller looks the
      sources up before it claims, and the profile may change in between. */
  lemma UncoveredClaimIsUnsafe(scan: Scan)
    ensures LeavesStaleEntry(scan, Needed(scan) - {CoveringClaim})
  {
    hide Trace, LeavesStaleEntry;
    var start := Boot(map[K := {S}]);
    var h := Needed(scan) - {CoveringClaim};
    Begin(scan, h, start);
    var run, st := ClaimInlineAndRead(scan, h, start, [], start, 0, K, {});
    run, st := ChangeUnseen(scan, h, start, run, st, 1, S, st.comp);
    run, st := Store(scan, h, start, run, st, 0);
    assert K in st.processed && !Current(st, K);
    Conclude(scan, h, start, run, st);
  }

  /** Enabling a source adds it to a profile whose entry does not name it, so neither this
      change nor the next one of that source is seen by a revalidation in flight. */
  lemma ChangedCompositionIsUnsafe(scan: Scan)
    ensures LeavesStaleEntry(scan, Needed(scan) - {FixedComposition})
  {
    hide Trace, LeavesStaleEntry;
    var start := Boot(map[P := {}]);
    var h := Needed(scan) - {FixedComposition};
    var run, st := StoreEmptyRendering(scan, h, start);
    run, st := ClaimRevalidateAndRead(scan, h, start, run, st, 1, P);
    run, st := ChangeUnseen(scan, h, start, run, st, 2, S, map[P := {S}]);
    run, st := ReadAndCheck(scan, h, start, run, st, 1);
    run, st := ChangeUnseen(scan, h, start, run, st, 2, S, st.comp);
    run, st := Store(scan, h, start, run, st, 1);
    assert P in st.processed && !Current(st, P);
    Conclude(scan, h, start, run, st);
  }

  /** A rendering of the profile while it has no enabled source. */
  lemma StoreEmptyRendering(scan: Scan, held: set<Obligation>, start: State) returns (run: seq<Step>, st: State)
    requires start == Boot(map[P := {}])
    ensures Trace(scan, held, start, run, st)
    ensures st == start.(processed := map[P := Entry(0, {}, map[])])
  {
    hide Trace, LeavesStaleEntry;
    Begin(scan, held, start);
    run, st := TakeFree(scan, held, start, [], start, ClaimInline(0, P, {}));
    run, st := Take(scan, held, start, run, st, ReadGeneration(0));
    run, st := Take(scan, held, start, run, st, ReadComposition(0));
    run, st := TakeFree(scan, held, start, run, st, FirstCheck(0));
    run, st := Store(scan, held, start, run, st, 0);
  }

  /** An invalidation bumped the key and has not removed its entry yet. */
  function AboutToGo(): State {
    Boot(map[K := {S}]).(processed := map[K := OLD], generations := map[K := 1],
                         invals := map[1 := Removing([K], true)])
  }

  lemma StoreThenBump(scan: Scan, h: set<Obligation>) returns (run: seq<Step>, st: State)
    ensures Trace(scan, h, Boot(map[K := {S}]), run, st) && st == AboutToGo()
  {
    hide Trace;
    var start := Boot(map[K := {S}]);
    Begin(scan, h, start);
    run, st := ClaimInlineAndRead(scan, h, start, [], start, 0, K, {S});
    assert st == ColdRender();
    run, st := Store(scan, h, start, run, st, 0);
    assert st == start.(processed := map[K := OLD]);
    run, st := TakeFree(scan, h, start, run, st, DropKey(1, K));
    run, st := TakeFree(scan, h, start, run, st, Bump(1));
  }

  lemma RemoveAfterClaim(scan: Scan, h: set<Obligation>, start: State, run: seq<Step>) returns (run': seq<Step>, st': State)
    requires Trace(scan, h, start, run, RevalidationStarted(AboutToGo(), 2, K))
    ensures Trace(scan, h, start, run', st')
    ensures st' == RevalidationStarted(AboutToGo(), 2, K).(processed := map[], invals := map[])
  {
    hide Trace;
    var st := RevalidationStarted(AboutToGo(), 2, K);
    run', st' := TakeFree(scan, h, start, run, st, Remove(1));
    assert st'.processed == map[];
    run', st' := TakeFree(scan, h, start, run', st', EndInvalidation(1));
    assert st'.invals == map[];
  }

  /** An entry being present is not enough for a revalidation: between an invalidation's bump
      and its removal the entry is still there and the generation is already the new one. */
  lemma EntryAboutToGoDoesNotAnchor(scan: Scan)
    ensures LeavesStaleEntry(scan, Needed(scan) - {AnchoredRevalidation} + {PresentEntry})
  {
    hide Trace, LeavesStaleEntry;
    var start := Boot(map[K := {S}]);
    var h := Needed(scan) - {AnchoredRevalidation} + {PresentEntry};
    var run, st := StoreThenBump(scan, h);
    run, st := ClaimRevalidateAndRead(scan, h, start, run, st, 2, K);
    run, st := RemoveAfterClaim(scan, h, start, run);
    run, st := ReadAndCheck(scan, h, start, run, st, 2);
    run, st := ChangeUnseen(scan, h, start, run, st, 3, S, st.comp);
    run, st := Store(scan, h, start, run, st, 2);
    assert K in st.processed && !Current(st, K);
    assert st.renders == map[];
    Conclude(scan, h, start, run, st);
  }

  // ---------------------------------------------------------------- exactly what is needed

  lemma {:induction false} FewerObligations(scan: Scan, st: State, steps: seq<Step>, held: set<Obligation>, fewer: set<Obligation>)
    requires Legal(scan, st, steps) && MeetsRun(scan, st, steps, held) && fewer <= held
    ensures MeetsRun(scan, st, steps, fewer)
    decreases |steps|
  {
    if steps != [] {
      FewerObligations(scan, Apply(scan, st, steps[0]), steps[1..], held, fewer);
    }
  }

  lemma StaleUnderFewer(scan: Scan, held: set<Obligation>, fewer: set<Obligation>)
    requires LeavesStaleEntry(scan, held) && fewer <= held
    ensures LeavesStaleEntry(scan, fewer)
  {
    var st: State, steps: seq<Step> :|
      && Initial(st) && Legal(scan, st, steps) && MeetsRun(scan, st, steps, held)
      && StaleAtRest(Exec(scan, st, steps));
    FewerObligations(scan, st, steps, held, fewer);
  }

  lemma NeededLeavesNothingStale(scan: Scan)
    ensures !LeavesStaleEntry(scan, Needed(scan))
  {
    forall st: State, steps: seq<Step>
      | Initial(st) && Legal(scan, st, steps) && MeetsRun(scan, st, steps, Needed(scan))
      ensures !StaleAtRest(Exec(scan, st, steps))
    {
      if Quiescent(Exec(scan, st, steps)) {
        QuiescentEntriesAreCurrent(scan, st, steps);
      }
    }
  }

  /** Under the three obligations of the callers the scan order alone decides: entries before
      claims, the program's order, is the only one that can leave a stale entry. */
  lemma ScanOrderDecides(scan: Scan)
    ensures LeavesStaleEntry(scan, ALL_OBLIGATIONS) <==> scan == EntriesThenClaims
  {
    hide LeavesStaleEntry;
    if scan == EntriesThenClaims {
      EntriesFirstIsUnsafe();
    } else {
      NeededLeavesNothingStale(scan);
    }
  }

  /** Whatever the scan, the obligations it needs are exactly what coherence needs: the three of
      the callers, and for the program's order that no claim slips between the two accesses. */
  lemma ObligationsAreExact(scan: Scan, held: set<Obligation>)
    requires held <= Needed(scan)
    ensures !LeavesStaleEntry(scan, held) <==> held == Needed(scan)
  {
    hide LeavesStaleEntry;
    if held == Needed(scan) {
      NeededLeavesNothingStale(scan);
    } else if CoveringClaim !in held {
      UncoveredClaimIsUnsafe(scan);
      StaleUnderFewer(scan, Needed(scan) - {CoveringClaim}, held);
    } else if AnchoredRevalidation !in held {
      UnanchoredRevalidationIsUnsafe(scan);
      StaleUnderFewer(scan, Needed(scan) - {AnchoredRevalidation}, held);
    } else if FixedComposition !in held {
      ChangedCompositionIsUnsafe(scan);
      StaleUnderFewer(scan, Needed(scan) - {FixedComposition}, held);
    } else {
      EntriesFirstIsUnsafe();
      StaleUnderFewer(scan, ALL_OBLIGATIONS, held);
    }
  }
}
