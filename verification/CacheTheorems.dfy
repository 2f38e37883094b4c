/** What the processed cache promises, and exactly what it needs for that promise. */
module CacheTheorems {
  import opened ClaimSets
  import opened CacheProtocol
  import opened Prelude
  import opened CacheProofs

  /** The entry of `k` was rendered from the present composition and the present rows of
      every source it names. */
  ghost predicate Current(st: State, k: Key)
    requires k in st.processed
  {
    var e := st.processed[k];
    && e.compSeen == st.CompVer(k)
    && e.rows.Keys == e.names
    && forall s :: s in e.names ==> e.rows[s] == st.RowVer(s)
  }

  /** No invalidation outstanding, and no put between its insert and the end of its undo. */
  ghost predicate Quiescent(st: State) {
    && st.invals == map[]
    && forall r :: r in st.renders ==> !st.renders[r].phase.Inserted? && !st.renders[r].phase.Undoing?
  }

  lemma InitiallyCoherent(scan: Scan, st: State)
    requires Initial(st)
    ensures Coherent(scan, st)
  {
  }

  /** Coherence over all interleavings, for every scan: when each step meets what the scan needs,
      every entry is current at quiescence. */
  lemma QuiescentEntriesAreCurrent(scan: Scan, st: State, steps: seq<Step>)
    requires Initial(st) && Legal(scan, st, steps) && MeetsRun(scan, st, steps, Needed(scan))
    requires Quiescent(Exec(scan, st, steps))
    ensures forall k :: k in Exec(scan, st, steps).processed ==> Current(Exec(scan, st, steps), k)
  {
    var end := Exec(scan, st, steps);
    InitiallyCoherent(scan, st);
    CoherentRun(scan, st, steps);
    hide Exec, MeetsRun, Legal, ClaimsOwned, RendersOk, OwesUndo, UndoRemoves;
    forall k | k in end.processed ensures Current(end, k) {
      assert EntryOk(scan, end, k);
      forall s | s in end.processed[k].names ensures end.processed[k].rows[s] == end.RowVer(s) {
        assert EntryRowOk(scan, end, k, s, end.processed[k].rows[s]);
      }
    }
  }

  ghost predicate Unscanned(w: Work, s: SourceId) {
    (w.Pending? || w.HalfScanned?) && w.source == s
  }

  ghost predicate StillListed(w: Work, k: Key) {
    w.Removing? && k in w.todo
  }

  /** Once the invalidations of `s` have scanned and the list of none still holds `k`, an older
      rendering naming `s` survives at `k` only under a put that is bound to remove it. */
  lemma OldRenderingIsDoomed(scan: Scan, st: State, steps: seq<Step>, k: Key, s: SourceId)
    requires Initial(st) && Legal(scan, st, steps) && MeetsRun(scan, st, steps, Needed(scan))
    requires var end := Exec(scan, st, steps);
      && k in end.processed && s in end.processed[k].rows && end.processed[k].rows[s] != end.RowVer(s)
      && forall i :: i in end.invals ==> !Unscanned(end.invals[i], s) && !StillListed(end.invals[i], k)
    ensures var end := Exec(scan, st, steps);
      exists r :: r in end.renders && (OwesUndo(end, end.renders[r], k) || UndoRemoves(end.renders[r], k))
  {
    var end := Exec(scan, st, steps);
    InitiallyCoherent(scan, st);
    CoherentRun(scan, st, steps);
    assert EntryOk(scan, end, k);
    assert !EntryRowOk(scan, end, k, s, end.processed[k].rows[s]);
    assert WillBump(end, k) || RemovalInFlight(end, k);
  }

  // ---------------------------------------------------------------- generations

  predicate BumpsKey(st: State, step: Step, k: Key) {
    || (step.Bump? && step.inval in st.invals && st.invals[step.inval].Removing?
        && st.invals[step.inval].todo != [] && st.invals[step.inval].todo[0] == k)
    || (step.UndoBump? && step.render in st.renders && st.renders[step.render].key == k)
  }

  /** Completed bumps of `k` along a run. */
  ghost function Bumps(scan: Scan, st: State, steps: seq<Step>, k: Key): nat
    requires Legal(scan, st, steps)
    decreases |steps|
  {
    if steps == [] then 0
    else (if BumpsKey(st, steps[0], k) then 1 else 0) + Bumps(scan, Apply(scan, st, steps[0]), steps[1..], k)
  }

  lemma StepGeneration(scan: Scan, st: State, step: Step, k: Key)
    requires Enabled(scan, st, step)
    ensures Apply(scan, st, step).Generation(k) == st.Generation(k) + if BumpsKey(st, step, k) then 1 else 0
  {
    if step.Bump? {
      assert Apply(scan, st, step).generations == BumpKey(st, st.invals[step.inval].todo[0]).generations;
    } else if step.UndoBump? {
      assert Apply(scan, st, step).generations == BumpKey(st, st.renders[step.render].key).generations;
    } else if IsRenderStep(step) {
      RendersLeaveGenerations(scan, st, step);
    } else {
      InvalidationsLeaveGenerations(scan, st, step);
    }
  }

  lemma RendersLeaveGenerations(scan: Scan, st: State, step: Step)
    requires Enabled(scan, st, step) && IsRenderStep(step) && !step.UndoBump?
    ensures Apply(scan, st, step).generations == st.generations
  {
    if IsPutStep(step) {
      PutsLeaveGenerations(scan, st, step);
    } else if IsReadStep(step) {
      ReadsLeaveGenerations(scan, st, step);
    } else {
      GuardsLeaveGenerations(scan, st, step);
    }
  }

  lemma PutsLeaveGenerations(scan: Scan, st: State, step: Step)
    requires Enabled(scan, st, step) && IsPutStep(step) && !step.UndoBump?
    ensures Apply(scan, st, step).generations == st.generations
  {
  }

  lemma ReadsLeaveGenerations(scan: Scan, st: State, step: Step)
    requires Enabled(scan, st, step) && IsReadStep(step)
    ensures Apply(scan, st, step).generations == st.generations
  {
  }

  lemma GuardsLeaveGenerations(scan: Scan, st: State, step: Step)
    requires Enabled(scan, st, step) && IsRenderStep(step) && !IsPutStep(step) && !IsReadStep(step)
    ensures Apply(scan, st, step).generations == st.generations
  {
    if step.Release? || step.RunDeferred? {
      DropIsRelease(scan, st, step);
      hide Apply;
    } else {
      ClaimsLeaveGenerations(scan, st, step);
    }
  }

  lemma ClaimsLeaveGenerations(scan: Scan, st: State, step: Step)
    requires Enabled(scan, st, step) && (step.ClaimInline? || step.ClaimRevalidate? || step.Abandon? || step.Defer?)
    ensures Apply(scan, st, step).generations == st.generations
  {
  }

  lemma InvalidationsLeaveGenerations(scan: Scan, st: State, step: Step)
    requires Enabled(scan, st, step) && !IsRenderStep(step) && !step.Bump?
    ensures Apply(scan, st, step).generations == st.generations
  {
  }

  /** A key's generation is its number of completed bumps, whoever made them. */
  lemma {:induction false} GenerationCountsBumps(scan: Scan, st: State, steps: seq<Step>, k: Key)
    requires Legal(scan, st, steps)
    ensures Exec(scan, st, steps).Generation(k) == st.Generation(k) + Bumps(scan, st, steps, k)
    decreases |steps|
  {
    if steps != [] {
      StepGeneration(scan, st, steps[0], k);
      GenerationCountsBumps(scan, Apply(scan, st, steps[0]), steps[1..], k);
    }
  }

  // ---------------------------------------------------------------- lost puts

  /** The generation a put was claimed under. */
  function GenOf(p: Phase): Option<nat> {
    match p
    case Rendering(gen, _) => Some(gen)
    case Checked(gen, _) => Some(gen)
    case Inserted(gen) => Some(gen)
    case _ => None
  }

  /** No put is ahead of its key. */
  ghost predicate GensBehind(st: State) {
    forall r :: r in st.renders ==> GenBehind(st, st.renders[r])
  }

  predicate GenBehind(st: State, r: Render) {
    GenOf(r.phase).Some? ==> GenOf(r.phase).value <= st.Generation(r.key)
  }

  /** A step leaves a render alone, takes it on, or ends it. */
  lemma RenderAfter(scan: Scan, st: State, step: Step, r: TaskId)
    requires Enabled(scan, st, step) && r in Apply(scan, st, step).renders && GensBehind(st)
    ensures GenBehind(Apply(scan, st, step), Apply(scan, st, step).renders[r])
  {
    var st' := Apply(scan, st, step);
    StepGeneration(scan, st, step, st'.renders[r].key);
    if IsRenderStep(step) {
      OwnStepBehind(scan, st, step, r);
    } else {
      InvalidationsLeaveRenders(scan, st, step);
    }
  }

  lemma InvalidationsLeaveRenders(scan: Scan, st: State, step: Step)
    requires Enabled(scan, st, step) && !IsRenderStep(step)
    ensures Apply(scan, st, step).renders == st.renders
  {}

  lemma OwnStepBehind(scan: Scan, st: State, step: Step, r: TaskId)
    requires Enabled(scan, st, step) && IsRenderStep(step) && r in Apply(scan, st, step).renders && GensBehind(st)
    requires Apply(scan, st, step).Generation(Apply(scan, st, step).renders[r].key)
             >= st.Generation(Apply(scan, st, step).renders[r].key)
    ensures GenBehind(Apply(scan, st, step), Apply(scan, st, step).renders[r])
  {
    var st' := Apply(scan, st, step);
    hide Apply, Enabled;
    if step.render != r {
      OthersLeaveRender(scan, st, step, r);
      assert GenBehind(st, st.renders[r]);
    } else if IsPutStep(step) {
      PutsLeaveBehind(scan, st, step);
    } else if IsReadStep(step) {
      ReadsLeaveBehind(scan, st, step);
    } else {
      GuardsHoldNoGeneration(scan, st, step);
    }
  }

  lemma ReadsLeaveBehind(scan: Scan, st: State, step: Step)
    requires Enabled(scan, st, step) && IsReadStep(step) && GensBehind(st)
    ensures step.render in Apply(scan, st, step).renders
    ensures GenBehind(Apply(scan, st, step), Apply(scan, st, step).renders[step.render])
  {
    ReadsLeaveGenerations(scan, st, step);
    assert GenBehind(st, st.renders[step.render]);
  }

  lemma GuardsHoldNoGeneration(scan: Scan, st: State, step: Step)
    requires Enabled(scan, st, step) && IsRenderStep(step) && !IsPutStep(step) && !IsReadStep(step)
    requires step.render in Apply(scan, st, step).renders
    ensures GenOf(Apply(scan, st, step).renders[step.render].phase).None?
  {
    if step.Release? || step.RunDeferred? {
      DroppedIsGone(scan, st, step);
    } else if step.Abandon? || step.Defer? {
      EndedPhase(scan, st, step);
    } else {
      ClaimedPhase(scan, st, step);
    }
    hide Apply, Enabled;
  }

  lemma DroppedIsGone(scan: Scan, st: State, step: Step)
    requires (step.Release? || step.RunDeferred?) && Enabled(scan, st, step)
    ensures step.render !in Apply(scan, st, step).renders
  {
    DropIsRelease(scan, st, step);
    hide Apply, Enabled;
  }

  lemma ClaimedPhase(scan: Scan, st: State, step: Step)
    requires (step.ClaimInline? || step.ClaimRevalidate?) && Enabled(scan, st, step)
    ensures step.render in Apply(scan, st, step).renders && Apply(scan, st, step).renders[step.render].phase.Claimed?
  {}

  lemma EndedPhase(scan: Scan, st: State, step: Step)
    requires (step.Abandon? || step.Defer?) && Enabled(scan, st, step)
    ensures step.render in Apply(scan, st, step).renders
    ensures var phase := Apply(scan, st, step).renders[step.render].phase; phase.Finished? || phase.Deferred?
  {}

  lemma PutsLeaveBehind(scan: Scan, st: State, step: Step)
    requires Enabled(scan, st, step) && IsPutStep(step) && GensBehind(st)
    ensures step.render in Apply(scan, st, step).renders
    ensures GenBehind(Apply(scan, st, step), Apply(scan, st, step).renders[step.render])
  {
    assert GenBehind(st, st.renders[step.render]);
    if !step.UndoBump? {
      PutsLeaveGenerations(scan, st, step);
    }
  }

  /** Only its own steps touch a render. */
  lemma OthersLeaveRender(scan: Scan, st: State, step: Step, r: TaskId)
    requires Enabled(scan, st, step) && (IsRenderStep(step) ==> step.render != r)
    ensures r in Apply(scan, st, step).renders <==> r in st.renders
    ensures r in st.renders ==> Apply(scan, st, step).renders[r] == st.renders[r]
  {
    if !IsRenderStep(step) {
      InvalidationsLeaveRenders(scan, st, step);
    } else if step.Release? || step.RunDeferred? {
      DropIsRelease(scan, st, step);
    }
  }

  lemma {:induction false} GensStayBehind(scan: Scan, st: State, steps: seq<Step>)
    requires Legal(scan, st, steps) && GensBehind(st)
    ensures GensBehind(Exec(scan, st, steps))
    decreases |steps|
  {
    if steps != [] {
      var st' := Apply(scan, st, steps[0]);
      forall r | r in st'.renders ensures GenBehind(st', st'.renders[r]) {
        RenderAfter(scan, st, steps[0], r);
      }
      GensStayBehind(scan, st', steps[1..]);
    }
  }

  /** The put has lost its generation for good, or has begun to undo. */
  predicate Doomed(st: State, r: TaskId) {
    r in st.renders &&
    match st.renders[r].phase
    case Inserted(gen) => gen < st.Generation(st.renders[r].key)
    case Undoing(_) => true
    case _ => false
  }

  /** The step a doomed put takes next, and how many it has left. */
  function NextUndo(st: State, r: TaskId): (Step, nat)
    requires Doomed(st, r)
  {
    if st.renders[r].phase.Inserted? then (SecondCheck(r), 3)
    else if st.renders[r].phase == Undoing(false) then (UndoBump(r), 2)
    else (UndoRemove(r), 1)
  }

  /** Throughout the run the put of `r` is doomed, its next step is possible, no other step spares
      it, and its third step empties the key. */
  ghost predicate UndoneIn(scan: Scan, st: State, steps: seq<Step>, r: TaskId)
    requires Legal(scan, st, steps)
    decreases |steps|
  {
    && Doomed(st, r) && Enabled(scan, st, NextUndo(st, r).0)
    && (steps != [] ==>
          var st' := Apply(scan, st, steps[0]);
          var (own, left) := NextUndo(st, r);
          if steps[0] == own && left == 1 then st.renders[r].key !in st'.processed
          else
            && UndoneIn(scan, st', steps[1..], r) && st'.renders[r].key == st.renders[r].key
            && NextUndo(st', r).1 == if steps[0] == own then left - 1 else left)
  }

  lemma StaysDoomed(scan: Scan, st: State, step: Step, r: TaskId)
    requires Enabled(scan, st, step) && Doomed(st, r) && step != NextUndo(st, r).0
    ensures var st' := Apply(scan, st, step);
      Doomed(st', r) && st'.renders[r].key == st.renders[r].key && NextUndo(st', r) == NextUndo(st, r)
  {
    StepGeneration(scan, st, step, st.renders[r].key);
    OthersLeaveRender(scan, st, step, r);
  }

  lemma OwnUndoStep(scan: Scan, st: State, r: TaskId)
    requires Doomed(st, r)
    ensures Enabled(scan, st, NextUndo(st, r).0)
    ensures var (own, left) := NextUndo(st, r);
      var st' := Apply(scan, st, own);
      if left == 1 then st.renders[r].key !in st'.processed
      else Doomed(st', r) && st'.renders[r].key == st.renders[r].key && NextUndo(st', r).1 == left - 1
  {
    hide Apply, Enabled;
    if st.renders[r].phase.Inserted? {
      SecondCheckFails(scan, st, r);
    } else if st.renders[r].phase == Undoing(false) {
      UndoBumpAdvances(scan, st, r);
    } else {
      UndoRemoveEmpties(scan, st, r);
    }
  }

  lemma SecondCheckFails(scan: Scan, st: State, r: TaskId)
    requires Doomed(st, r) && st.renders[r].phase.Inserted?
    ensures Enabled(scan, st, SecondCheck(r))
    ensures Apply(scan, st, SecondCheck(r)).renders == st.renders[r := st.renders[r].(phase := Undoing(false))]
  {}

  lemma UndoBumpAdvances(scan: Scan, st: State, r: TaskId)
    requires Doomed(st, r) && st.renders[r].phase == Undoing(false)
    ensures Enabled(scan, st, UndoBump(r))
    ensures Apply(scan, st, UndoBump(r)).renders == st.renders[r := st.renders[r].(phase := Undoing(true))]
  {}

  lemma UndoRemoveEmpties(scan: Scan, st: State, r: TaskId)
    requires Doomed(st, r) && st.renders[r].phase == Undoing(true)
    ensures Enabled(scan, st, UndoRemove(r)) && st.renders[r].key !in Apply(scan, st, UndoRemove(r)).processed
  {}

  lemma {:induction false} DoomedIsUndone(scan: Scan, st: State, steps: seq<Step>, r: TaskId)
    requires Legal(scan, st, steps) && Doomed(st, r)
    ensures UndoneIn(scan, st, steps, r)
    decreases |steps|
  {
    OwnUndoStep(scan, st, r);
    if steps != [] {
      var (own, left) := NextUndo(st, r);
      if steps[0] != own {
        StaysDoomed(scan, st, steps[0], r);
        DoomedIsUndone(scan, Apply(scan, st, steps[0]), steps[1..], r);
      } else if left > 1 {
        DoomedIsUndone(scan, Apply(scan, st, steps[0]), steps[1..], r);
      }
    }
  }

  /** A put that has lost its generation stays lost, whatever the others do from then on: the
      generation never comes back, nothing but its own three steps takes it on, and the third
      empties its key. */
  lemma DoomedPutRemoves(scan: Scan, st: State, before: seq<Step>, steps: seq<Step>, r: TaskId)
    requires Initial(st) && Legal(scan, st, before) && Legal(scan, Exec(scan, st, before), steps)
    requires var now := Exec(scan, st, before);
      r in now.renders && (OwesUndo(now, now.renders[r], now.renders[r].key) || now.renders[r].phase.Undoing?)
    ensures UndoneIn(scan, Exec(scan, st, before), steps, r)
  {
    var now := Exec(scan, st, before);
    GensStayBehind(scan, st, before);
    assert GenBehind(now, now.renders[r]);
    DoomedIsUndone(scan, now, steps, r);
  }

  // ---------------------------------------------------------------- the checks

  /** The equality test on generations is exact: a put passes it precisely when no bump of its
      key completed since its claim read the generation. */
  lemma CheckPassesIffNoBump(scan: Scan, st: State, steps: seq<Step>, r: TaskId)
    requires r in st.renders && st.renders[r].phase.Rendering?
    requires st.renders[r].phase.gen == st.Generation(st.renders[r].key)
    requires Legal(scan, st, steps) && Enabled(scan, Exec(scan, st, steps), FirstCheck(r))
    requires Exec(scan, st, steps).renders[r].key == st.renders[r].key
    requires Exec(scan, st, steps).renders[r].phase.gen == st.renders[r].phase.gen
    ensures Apply(scan, Exec(scan, st, steps), FirstCheck(r)).renders[r].phase.Checked?
            <==> Bumps(scan, st, steps, st.renders[r].key) == 0
  {
    GenerationCountsBumps(scan, st, steps, st.renders[r].key);
  }

  /** Bumps of `k` made by the invalidation `i`. */
  ghost function BumpsBy(scan: Scan, st: State, steps: seq<Step>, i: TaskId, k: Key): nat
    requires Legal(scan, st, steps)
    decreases |steps|
  {
    if steps == [] then 0
    else (if steps[0] == Bump(i) && BumpsKey(st, steps[0], k) then 1 else 0)
         + BumpsBy(scan, Apply(scan, st, steps[0]), steps[1..], i, k)
  }

  /** One access of the scan of `i`, and whether it finds `k`. */
  ghost predicate Finds(scan: Scan, st: State, step: Step, i: TaskId, k: Key)
    requires Enabled(scan, st, step)
  {
    match step
    case ScanAll(j, _) => j == i && k in EntriesNaming(st, st.invals[i].source) + ClaimsNaming(st, st.invals[i].source)
    case ScanFirst(j) =>
      j == i && k in if scan.ClaimsThenEntries? then ClaimsNaming(st, st.invals[i].source)
                     else EntriesNaming(st, st.invals[i].source)
    case ScanSecond(j, _) =>
      j == i && k in if scan.ClaimsThenEntries? then EntriesNaming(st, st.invals[i].source)
                     else ClaimsNaming(st, st.invals[i].source)
    case _ => false
  }

  /** No access of the scan of `i` finds `k`, and `i` does not end. */
  ghost predicate Overlooked(scan: Scan, st: State, steps: seq<Step>, i: TaskId, k: Key)
    requires Legal(scan, st, steps)
    decreases |steps|
  {
    steps == [] ||
    (steps[0] != EndInvalidation(i) && !Finds(scan, st, steps[0], i, k) && Overlooked(scan, Apply(scan, st, steps[0]), steps[1..], i, k))
  }

  /** `w` has not come across `k`. */
  predicate Unlisted(w: Work, k: Key) {
    match w
    case Pending(_) => true
    case HalfScanned(_, part) => k !in part
    case Removing(todo, _) => k !in todo
  }

  lemma StaysUnlisted(scan: Scan, st: State, step: Step, i: TaskId, k: Key)
    requires Enabled(scan, st, step) && i in st.invals && Unlisted(st.invals[i], k)
    requires step != EndInvalidation(i) && !Finds(scan, st, step, i, k)
    ensures i in Apply(scan, st, step).invals && Unlisted(Apply(scan, st, step).invals[i], k)
  {
    if IsRenderStep(step) {
      RendersLeaveWork(scan, st, step);
    } else if step.inval != i {
      OtherWorkIsKept(scan, st, step, i);
    } else {
      ListOnlyShrinks(scan, st, step, k);
    }
  }

  lemma RendersLeaveWork(scan: Scan, st: State, step: Step)
    requires Enabled(scan, st, step) && IsRenderStep(step)
    ensures Apply(scan, st, step).invals == st.invals
  {
    if step.Release? || step.RunDeferred? {
      DropIsRelease(scan, st, step);
    }
  }

  /** Only its own steps touch an invalidation. */
  lemma OtherWorkIsKept(scan: Scan, st: State, step: Step, i: TaskId)
    requires Enabled(scan, st, step) && !IsRenderStep(step) && step.inval != i && i in st.invals
    ensures i in Apply(scan, st, step).invals && Apply(scan, st, step).invals[i] == st.invals[i]
  {
    var after := Apply(scan, st, step).invals;
    if step.EndInvalidation? {
      assert after == st.invals - {step.inval};
    } else {
      assert step.inval in after && after == st.invals[step.inval := after[step.inval]];
    }
  }

  lemma ListOnlyShrinks(scan: Scan, st: State, step: Step, k: Key)
    requires Enabled(scan, st, step) && !IsRenderStep(step) && step.inval in st.invals && !step.EndInvalidation?
    requires Unlisted(st.invals[step.inval], k) && !Finds(scan, st, step, step.inval, k)
    ensures step.inval in Apply(scan, st, step).invals && Unlisted(Apply(scan, st, step).invals[step.inval], k)
  {
    if step.Remove? {
      assert k !in st.invals[step.inval].todo[1..];
    }
  }

  /** An invalidation of `s` never supersedes a key that none of its accesses found naming `s`:
      neither its entry when the entries were scanned nor its claim when the claims were, in one
      access or two, in any order, however long its removals take and whatever runs in between. */
  lemma {:induction false} InvalidationIsNarrow(scan: Scan, st: State, steps: seq<Step>, i: TaskId, k: Key)
    requires Legal(scan, st, steps) && i in st.invals
    requires (st.invals[i].HalfScanned? ==> k !in st.invals[i].part) && (st.invals[i].Removing? ==> k !in st.invals[i].todo)
    requires Overlooked(scan, st, steps, i, k)
    ensures BumpsBy(scan, st, steps, i, k) == 0
    decreases |steps|
  {
    if steps != [] {
      StaysUnlisted(scan, st, steps[0], i, k);
      InvalidationIsNarrow(scan, Apply(scan, st, steps[0]), steps[1..], i, k);
    }
  }

  // ---------------------------------------------------------------- claims

  /** In every reachable state, of any callers, a claimed key has exactly one owner. */
  lemma {:induction false} EveryClaimHasOneOwner(scan: Scan, st: State, steps: seq<Step>)
    requires ClaimsOwned(st) && Legal(scan, st, steps)
    ensures ClaimsOwned(Exec(scan, st, steps))
    decreases |steps|
  {
    if steps != [] {
      OwnershipKept(scan, st, steps[0]);
      EveryClaimHasOneOwner(scan, Apply(scan, st, steps[0]), steps[1..]);
    }
  }

  ghost predicate HoldsClaim(st: State, r: Render) {
    if r.kind.Inline? then r.key in st.inlineClaims else r.key in st.revalidating
  }

  lemma OwnersHoldTheirClaims(st: State)
    requires ClaimsOwned(st)
    ensures forall r :: r in st.renders ==> HoldsClaim(st, st.renders[r])
  {
    forall r | r in st.renders ensures HoldsClaim(st, st.renders[r]) {
      if st.renders[r].kind.Revalidate? {
        assert RevalidateOwners(st.renders)[r] == st.renders[r].key;
      }
    }
  }

  lemma DeferredStepHitsItsOwnClaim(st: State, id: TaskId)
    requires ClaimsOwned(st) && id in st.renders
    ensures forall r :: r in st.renders && r != id ==> HoldsClaim(DropClaim(st, id), st.renders[r])
  {
    OwnershipOfDrop(st, id);
    OwnersHoldTheirClaims(DropClaim(st, id));
    assert forall r :: r in st.renders && r != id ==> r in DropClaim(st, id).renders;
  }

  /** In a run of any callers, a deferred removal never clears the claim of a newer holder. */
  lemma DeferredRemovalHitsItsOwnClaim(scan: Scan, st: State, steps: seq<Step>, id: TaskId)
    requires ClaimsOwned(st) && Legal(scan, st, steps)
    requires Enabled(scan, Exec(scan, st, steps), RunDeferred(id))
    ensures var end := Exec(scan, st, steps);
      forall r :: r in end.renders && r != id ==>
        HoldsClaim(Apply(scan, end, RunDeferred(id)), end.renders[r])
  {
    EveryClaimHasOneOwner(scan, st, steps);
    DeferredStepHitsItsOwnClaim(Exec(scan, st, steps), id);
  }
}
