/** Coherence of the processed cache under every interleaving. */
module CacheProofs {
  import opened ClaimSets
  import opened CacheProtocol
  import opened Prelude

  // ---------------------------------------------------------------- claim ownership

  lemma OwnershipOfPhase(st: State, id: TaskId, phase: Phase)
    requires id in st.renders && ClaimsOwned(st)
    ensures ClaimsOwned(SetPhase(st, id, phase))
  {
    var renders' := SetPhase(st, id, phase).renders;
    assert InlineOwners(renders') == InlineOwners(st.renders);
    assert RevalidateOwners(renders') == RevalidateOwners(st.renders);
  }

  lemma OwnersOfClaim(renders: map<TaskId, Render>, id: TaskId, r: Render)
    requires id !in renders
    ensures InlineOwners(renders[id := r]) ==
            if r.kind.Inline? then InlineOwners(renders)[id := r.key] else InlineOwners(renders)
    ensures RevalidateOwners(renders[id := r]) ==
            if r.kind.Revalidate? then RevalidateOwners(renders)[id := r.key] else RevalidateOwners(renders)
  {
  }

  lemma OwnersOfDrop(renders: map<TaskId, Render>, id: TaskId)
    requires id in renders
    ensures InlineOwners(renders - {id}) ==
            if renders[id].kind.Inline? then InlineOwners(renders) - {id} else InlineOwners(renders)
    ensures RevalidateOwners(renders - {id}) ==
            if renders[id].kind.Revalidate? then RevalidateOwners(renders) - {id} else RevalidateOwners(renders)
  {
  }

  lemma OwnershipOfInlineClaim(st: State, id: TaskId, k: Key, sources: set<SourceId>)
    requires ClaimsOwned(st) && id !in st.renders && k !in st.inlineClaims
    ensures ClaimsOwned(st.(inlineClaims := st.inlineClaims[k := sources],
                            renders := st.renders[id := Render(Inline(sources), k, Claimed)]))
  {
    TakeKeepsOwned(st.inlineClaims.Keys, InlineOwners(st.renders), id, k);
    OwnersOfClaim(st.renders, id, Render(Inline(sources), k, Claimed));
    assert st.inlineClaims[k := sources].Keys == st.inlineClaims.Keys + {k};
  }

  lemma OwnershipOfRevalidateClaim(st: State, id: TaskId, k: Key)
    requires ClaimsOwned(st) && id !in st.renders && k !in st.revalidating
    ensures ClaimsOwned(st.(revalidating := st.revalidating + {k},
                            renders := st.renders[id := Render(Revalidate, k, Claimed)]))
  {
    TakeKeepsOwned(st.revalidating, RevalidateOwners(st.renders), id, k);
    OwnersOfClaim(st.renders, id, Render(Revalidate, k, Claimed));
  }

  lemma ScopesOfDrop(claims: map<Key, set<SourceId>>, renders: map<TaskId, Render>, id: TaskId)
    requires id in renders && renders[id].kind.Inline?
    requires Owned(claims.Keys, InlineOwners(renders)) && ClaimScopes(claims, renders)
    ensures ClaimScopes(claims - {renders[id].key}, renders - {id})
  {
    forall r | r in renders && r != id && renders[r].kind.Inline? ensures renders[r].key != renders[id].key {
      assert InlineOwners(renders)[r] == renders[r].key && InlineOwners(renders)[id] == renders[id].key;
    }
  }

  lemma OwnershipOfInlineDrop(st: State, id: TaskId)
    requires id in st.renders && ClaimsOwned(st) && st.renders[id].kind.Inline?
    ensures ClaimsOwned(DropClaim(st, id))
  {
    var k := st.renders[id].key;
    OwnersOfDrop(st.renders, id);
    assert InlineOwners(st.renders)[id] == k;
    DropKeepsOwned(st.inlineClaims.Keys, InlineOwners(st.renders), id);
    ScopesOfDrop(st.inlineClaims, st.renders, id);
    assert (st.inlineClaims - {k}).Keys == st.inlineClaims.Keys - {k};
    hide Owned, InlineOwners, RevalidateOwners, ClaimScopes;
  }

  lemma OwnershipOfRevalidateDrop(st: State, id: TaskId)
    requires id in st.renders && ClaimsOwned(st) && st.renders[id].kind.Revalidate?
    ensures ClaimsOwned(DropClaim(st, id))
  {
    OwnersOfDrop(st.renders, id);
    assert RevalidateOwners(st.renders)[id] == st.renders[id].key;
    DropKeepsOwned(st.revalidating, RevalidateOwners(st.renders), id);
    assert ClaimScopes(st.inlineClaims, st.renders - {id});
    hide Owned, InlineOwners, RevalidateOwners, ClaimScopes;
  }

  lemma OwnershipOfDrop(st: State, id: TaskId)
    requires id in st.renders && ClaimsOwned(st)
    ensures ClaimsOwned(DropClaim(st, id))
  {
    hide ClaimsOwned;
    if st.renders[id].kind.Inline? {
      OwnershipOfInlineDrop(st, id);
    } else {
      OwnershipOfRevalidateDrop(st, id);
    }
  }

  /** Claim ownership needs no discipline: every step of every caller keeps it. */
  lemma OwnershipKept(scan: Scan, st: State, step: Step)
    requires Enabled(scan, st, step) && ClaimsOwned(st)
    ensures ClaimsOwned(Apply(scan, st, step))
  {
    var st' := Apply(scan, st, step);
    match step
    case ClaimInline(r, k, sources) => OwnershipOfInlineClaim(st, r, k, sources);
    case ClaimRevalidate(r, k) => OwnershipOfRevalidateClaim(st, r, k);
    case Release(r) => OwnershipOfDrop(st, r);
    case RunDeferred(r) => OwnershipOfDrop(st, r);
    case ReadGeneration(r) => OwnershipOfPhase(st, r, st'.renders[r].phase);
    case ReadComposition(r) => OwnershipOfPhase(st, r, st'.renders[r].phase);
    case ReadRows(r, _) => OwnershipOfPhase(st, r, st'.renders[r].phase);
    case FirstCheck(r) => OwnershipOfPhase(st, r, st'.renders[r].phase);
    case Insert(r) => OwnershipOfPhase(st, r, st'.renders[r].phase);
    case SecondCheck(r) => OwnershipOfPhase(st, r, st'.renders[r].phase);
    case UndoBump(r) => OwnershipOfPhase(st, r, st'.renders[r].phase);
    case UndoRemove(r) => OwnershipOfPhase(st, r, st'.renders[r].phase);
    case Abandon(r) => OwnershipOfPhase(st, r, st'.renders[r].phase);
    case Defer(r) => OwnershipOfPhase(st, r, st'.renders[r].phase);
    case _ =>
  }

  // ---------------------------------------------------------------- frame conditions

  /** Nothing that the entry and the renders of `k` rely on was lost between two states. */
  ghost predicate Kept(st: State, st': State, k: Key) {
    && st'.CompVer(k) == st.CompVer(k) && st'.Comp(k) == st.Comp(k)
    && st'.Generation(k) == st.Generation(k)
    && (WillBump(st, k) ==> WillBump(st', k))
    && (RemovalInFlight(st, k) <==> RemovalInFlight(st', k))
  }

  ghost predicate ScansKept(scan: Scan, st: State, st': State) {
    && st'.rowVer == st.rowVer
    && (forall i :: i in st.invals && !st.invals[i].Removing? ==> i in st'.invals && st'.invals[i] == st.invals[i])
    && (scan.EntriesThenClaims? ==> forall i, k :: i in st.invals ==> SightKept(st, st', st.invals[i], k))
  }

  /** A claim that the scan `w` still has to see is still there. */
  ghost predicate SightKept(st: State, st': State, w: Work, k: Key) {
    w.HalfScanned? && k !in w.part && ClaimSight(st, k, w.source) ==> ClaimSight(st', k, w.source)
  }

  ghost predicate NothingLost(scan: Scan, st: State, st': State) {
    ScansKept(scan, st, st') && forall k :: Kept(st, st', k)
  }

  lemma EntryFramed(scan: Scan, st: State, st': State, k: Key)
    requires ScansKept(scan, st, st') && Kept(st, st', k)
    requires k in st.processed && k in st'.processed && st'.processed[k] == st.processed[k]
    requires EntryOk(scan, st, k)
    ensures EntryOk(scan, st', k)
  {
    var e := st.processed[k];
    if e.compSeen == st.CompVer(k) && !WillBump(st, k) && !RemovalInFlight(st, k) {
      forall s | s in e.rows ensures EntryRowOk(scan, st', k, s, e.rows[s]) {
        assert EntryRowOk(scan, st, k, s, e.rows[s]);
        if e.rows[s] != st.RowVer(s) {
          var i :| i in st.invals && SeesEntry(scan, st, st.invals[i], s, k);
          assert scan.EntriesThenClaims? ==> SightKept(st, st', st.invals[i], k);
          assert i in st'.invals && SeesEntry(scan, st', st'.invals[i], s, k);
        }
      }
    }
  }

  lemma RenderFramed(scan: Scan, st: State, st': State, r: Render)
    requires ScansKept(scan, st, st') && Kept(st, st', r.key)
    requires RenderOk(scan, st, r)
    requires r.key in st.processed ==> r.key in st'.processed && st'.processed[r.key] == st.processed[r.key]
    ensures RenderOk(scan, st', r)
  {
    if Justified(scan, st, r) && Draft(r.phase).Some? {
      DraftFramed(scan, st, st', r, Draft(r.phase).value);
    }
  }

  lemma DraftFramed(scan: Scan, st: State, st': State, r: Render, e: Entry)
    requires ScansKept(scan, st, st') && st'.CompVer(r.key) == st.CompVer(r.key)
    requires DraftOk(scan, st, r, e)
    ensures DraftOk(scan, st', r, e)
  {
    forall s | s in e.rows ensures RenderRowOk(scan, st', r, s, e.rows[s]) {
      assert RenderRowOk(scan, st, r, s, e.rows[s]);
    }
  }

  /** The obligations on one key, carried over task by task. */
  lemma KeptFramed(st: State, st': State, k: Key)
    requires st'.CompVer(k) == st.CompVer(k) && st'.Comp(k) == st.Comp(k) && st'.Generation(k) == st.Generation(k)
    requires forall j :: j in st.invals && OwesBump(st.invals[j], k) ==> j in st'.invals && OwesBump(st'.invals[j], k)
    requires forall o :: o in st.renders && OwesUndo(st, st.renders[o], k) ==> o in st'.renders && OwesUndo(st', st'.renders[o], k)
    requires forall i :: i in st.invals && BumpedHead(st.invals[i], k) ==> i in st'.invals && BumpedHead(st'.invals[i], k)
    requires forall i :: i in st'.invals && BumpedHead(st'.invals[i], k) ==> i in st.invals && BumpedHead(st.invals[i], k)
    requires forall r :: r in st.renders && UndoRemoves(st.renders[r], k) ==> r in st'.renders && UndoRemoves(st'.renders[r], k)
    requires forall r :: r in st'.renders && UndoRemoves(st'.renders[r], k) ==> r in st.renders && UndoRemoves(st.renders[r], k)
    ensures Kept(st, st', k)
  {
  }

  /** A phase change that neither starts nor ends an undo loses nothing. */
  lemma PhaseLosesNothing(scan: Scan, st: State, id: TaskId, phase: Phase)
    requires id in st.renders
    requires !OwesUndo(st, st.renders[id], st.renders[id].key)
    requires st.renders[id].phase != Undoing(true) && phase != Undoing(true)
    ensures NothingLost(scan, st, SetPhase(st, id, phase))
  {
    var st' := SetPhase(st, id, phase);
    forall k ensures Kept(st, st', k) { KeptFramed(st, st', k); }
  }

  lemma RemovalFramed(st: State, st': State, k: Key)
    requires forall i :: i in st.invals && BumpedHead(st.invals[i], k) ==> i in st'.invals && BumpedHead(st'.invals[i], k)
    requires forall i :: i in st'.invals && BumpedHead(st'.invals[i], k) ==> i in st.invals && BumpedHead(st.invals[i], k)
    requires forall r :: r in st.renders && UndoRemoves(st.renders[r], k) ==> r in st'.renders && UndoRemoves(st'.renders[r], k)
    requires forall r :: r in st'.renders && UndoRemoves(st'.renders[r], k) ==> r in st.renders && UndoRemoves(st.renders[r], k)
    ensures RemovalInFlight(st, k) <==> RemovalInFlight(st', k)
  {
  }

  // ---------------------------------------------------------------- one lemma per step

  lemma FramedAll(scan: Scan, st: State, st': State)
    requires NothingLost(scan, st, st') && st'.processed == st.processed
    requires EntriesOk(scan, st)
    ensures EntriesOk(scan, st')
    ensures forall r :: RenderOk(scan, st, r) ==> RenderOk(scan, st', r)
  {
    forall k | k in st.processed ensures EntryOk(scan, st', k) { EntryFramed(scan, st, st', k); }
    forall r | RenderOk(scan, st, r) ensures RenderOk(scan, st', r) { RenderFramed(scan, st, st', r); }
  }

  lemma StepQuietPhase(scan: Scan, st: State, id: TaskId, phase: Phase)
    requires id in st.renders && EntriesOk(scan, st) && RendersOk(scan, st)
    requires !OwesUndo(st, st.renders[id], st.renders[id].key)
    requires st.renders[id].phase != Undoing(true) && phase != Undoing(true)
    requires RenderOk(scan, st, st.renders[id].(phase := phase))
    ensures EntriesOk(scan, SetPhase(st, id, phase)) && RendersOk(scan, SetPhase(st, id, phase))
  {
    PhaseLosesNothing(scan, st, id, phase);
    FramedAll(scan, st, SetPhase(st, id, phase));
  }

  lemma StepReadGeneration(scan: Scan, st: State, id: TaskId)
    requires EntriesOk(scan, st) && RendersOk(scan, st)
    requires Enabled(scan, st, ReadGeneration(id)) && Disciplined(scan, st, ReadGeneration(id))
    ensures var st' := Apply(scan, st, ReadGeneration(id)); EntriesOk(scan, st') && RendersOk(scan, st')
  {
    var k := st.renders[id].key;
    if st.renders[id].kind.Revalidate? {
      assert EntryOk(scan, st, k);
      assert WillBump(st, k) || Anchored(st, k);
    }
    StepQuietPhase(scan, st, id, Rendering(st.Generation(k), None));
  }

  lemma StepReadComposition(scan: Scan, st: State, id: TaskId)
    requires EntriesOk(scan, st) && RendersOk(scan, st)
    requires Enabled(scan, st, ReadComposition(id)) && Disciplined(scan, st, ReadComposition(id))
    ensures var st' := Apply(scan, st, ReadComposition(id)); EntriesOk(scan, st') && RendersOk(scan, st')
  {
    var r := st.renders[id];
    var phase := r.phase.(draft := Some(Entry(st.CompVer(r.key), st.Comp(r.key), map[])));
    assert RenderOk(scan, st, r);
    StepQuietPhase(scan, st, id, phase);
  }

  lemma StepReadRows(scan: Scan, st: State, id: TaskId, s: SourceId)
    requires EntriesOk(scan, st) && RendersOk(scan, st)
    requires Enabled(scan, st, ReadRows(id, s))
    ensures var st' := Apply(scan, st, ReadRows(id, s)); EntriesOk(scan, st') && RendersOk(scan, st')
  {
    var r := st.renders[id];
    var e := r.phase.draft.value;
    var e' := e.(rows := e.rows[s := st.RowVer(s)]);
    var r' := r.(phase := r.phase.(draft := Some(e')));
    assert RenderOk(scan, st, r);
    if Justified(scan, st, r) {
      forall x | x in e'.rows ensures RenderRowOk(scan, st, r', x, e'.rows[x]) {
        assert x != s ==> RenderRowOk(scan, st, r, x, e.rows[x]);
      }
      assert DraftOk(scan, st, r', e');
    }
    StepQuietPhase(scan, st, id, r'.phase);
  }

  lemma StepFirstCheck(scan: Scan, st: State, id: TaskId)
    requires EntriesOk(scan, st) && RendersOk(scan, st)
    requires Enabled(scan, st, FirstCheck(id))
    ensures var st' := Apply(scan, st, FirstCheck(id)); EntriesOk(scan, st') && RendersOk(scan, st')
  {
    var r := st.renders[id];
    assert RenderOk(scan, st, r);
    if st.Generation(r.key) == r.phase.gen {
      var r' := r.(phase := Checked(r.phase.gen, r.phase.draft.value));
      if Justified(scan, st, r) {
        var e := r.phase.draft.value;
        forall s | s in e.rows ensures RenderRowOk(scan, st, r', s, e.rows[s]) {
          assert RenderRowOk(scan, st, r, s, e.rows[s]);
        }
        assert DraftOk(scan, st, r', e);
      }
      StepQuietPhase(scan, st, id, r'.phase);
    } else {
      StepQuietPhase(scan, st, id, Finished);
    }
  }

  /** Storing a rendering: whatever justified the render now justifies the entry. */
  lemma StepInsert(scan: Scan, st: State, id: TaskId)
    requires ClaimScopes(st.inlineClaims, st.renders) && EntriesOk(scan, st) && RendersOk(scan, st)
    requires Enabled(scan, st, Insert(id))
    ensures var st' := Apply(scan, st, Insert(id)); EntriesOk(scan, st') && RendersOk(scan, st')
  {
    var st' := Apply(scan, st, Insert(id));
    var r := st.renders[id];
    var k := r.key;
    PhaseLosesNothing(scan, st, id, Inserted(r.phase.gen));
    assert RenderOk(scan, st, r);
    InsertLosesNothing(scan, st, id);
    forall x | x in st'.processed ensures EntryOk(scan, st', x) {
      if x != k {
        EntryFramed(scan, st, st', x);
      } else {
        InsertedEntryOk(scan, st, id);
      }
    }
    forall o | o in st'.renders ensures RenderOk(scan, st', st'.renders[o]) {
      if o != id {
        assert RenderOk(scan, st, st.renders[o]);
        if st.renders[o].key != k {
          RenderFramed(scan, st, st', st.renders[o]);
        } else {
          OvertakenRenderOk(scan, st, id, o);
        }
      }
    }
  }

  lemma InsertLosesNothing(scan: Scan, st: State, id: TaskId)
    requires id in st.renders && st.renders[id].phase.Checked?
    ensures NothingLost(scan, st, SetPhase(st, id, Inserted(st.renders[id].phase.gen)).(
                              processed := st.processed[st.renders[id].key := st.renders[id].phase.entry]))
  {
    var mid := SetPhase(st, id, Inserted(st.renders[id].phase.gen));
    var st' := mid.(processed := st.processed[st.renders[id].key := st.renders[id].phase.entry]);
    PhaseLosesNothing(scan, st, id, Inserted(st.renders[id].phase.gen));
    forall k ensures Kept(st, st', k) {
      assert Kept(st, mid, k);
      SameWillBump(mid, st', k);
      RemovalFramed(mid, st', k);
    }
  }

  lemma SameWillBump(st: State, st': State, k: Key)
    requires st'.invals == st.invals && st'.renders == st.renders && st'.generations == st.generations
    ensures WillBump(st, k) <==> WillBump(st', k)
  {
    assert forall r: Render :: OwesUndo(st, r, k) == OwesUndo(st', r, k);
  }

  lemma InsertedEntryOk(scan: Scan, st: State, id: TaskId)
    requires Enabled(scan, st, Insert(id)) && RenderOk(scan, st, st.renders[id])
    requires ClaimScopes(st.inlineClaims, st.renders)
    ensures EntryOk(scan, Apply(scan, st, Insert(id)), st.renders[id].key)
  {
    var st' := Apply(scan, st, Insert(id));
    var r := st.renders[id];
    var e := r.phase.entry;
    InsertLosesNothing(scan, st, id);
    assert Kept(st, st', r.key);
    if st.Generation(r.key) != r.phase.gen {
      assert id in st'.renders && OwesUndo(st', st'.renders[id], r.key);
    } else if !WillBump(st, r.key) {
      forall s | s in e.rows ensures EntryRowOk(scan, st', r.key, s, e.rows[s]) {
        assert RenderRowOk(scan, st, r, s, e.rows[s]);
        if e.rows[s] != st.RowVer(s) {
          var i :| i in st.invals && SeesRender(scan, st.invals[i], s, r);
          assert i in st'.invals && SeesEntry(scan, st', st'.invals[i], s, r.key);
        }
      }
    }
  }

  /** A revalidation whose anchor entry is overwritten by another put of the same key. */
  lemma OvertakenRenderOk(scan: Scan, st: State, id: TaskId, o: TaskId)
    requires Enabled(scan, st, Insert(id)) && RenderOk(scan, st, st.renders[id])
    requires o in st.renders && o != id && st.renders[o].key == st.renders[id].key
    requires RenderOk(scan, st, st.renders[o])
    ensures RenderOk(scan, Apply(scan, st, Insert(id)), st.renders[o])
  {
    var st' := Apply(scan, st, Insert(id));
    var r, w := st.renders[o], st.renders[id];
    InsertLosesNothing(scan, st, id);
    assert Kept(st, st', r.key);
    if Justified(scan, st, r) && Draft(r.phase).Some? {
      DraftFramed(scan, st, st', r, Draft(r.phase).value);
    }
    if st.Generation(w.key) != w.phase.gen {
      assert id in st'.renders && OwesUndo(st', st'.renders[id], w.key);
      assert WillBump(st', w.key);
    } else if !WillBump(st, w.key) {
      assert w.phase.entry.names == st.Comp(w.key);
    }
  }

  lemma StepSecondCheck(scan: Scan, st: State, id: TaskId)
    requires EntriesOk(scan, st) && RendersOk(scan, st)
    requires Enabled(scan, st, SecondCheck(id))
    ensures var st' := Apply(scan, st, SecondCheck(id)); EntriesOk(scan, st') && RendersOk(scan, st')
  {
    var r := st.renders[id];
    if st.Generation(r.key) == r.phase.gen {
      StepQuietPhase(scan, st, id, Finished);
    } else {
      var st' := SetPhase(st, id, Undoing(false));
      forall k ensures Kept(st, st', k) { KeptFramed(st, st', k); }
      FramedAll(scan, st, st');
    }
  }

  // ---------------------------------------------------------------- steps of an invalidation

  /** Bumping a key supersedes every render of it that had not been superseded yet. */
  lemma BumpedKey(scan: Scan, st: State, st': State, k: Key)
    requires EntriesOk(scan, st) && RendersOk(scan, st)
    requires st'.processed == st.processed && st'.Generation(k) == st.Generation(k) + 1
    requires st'.CompVer(k) == st.CompVer(k) && st'.Comp(k) == st.Comp(k) && RemovalInFlight(st', k)
    requires ScansKept(scan, st, st') && forall x :: x != k ==> Kept(st, st', x)
    ensures EntriesOk(scan, st')
    ensures forall r :: RenderOk(scan, st, r) ==> RenderOk(scan, st', r)
  {
    forall x | x in st'.processed ensures EntryOk(scan, st', x) {
      assert EntryOk(scan, st, x);
      if x != k { EntryFramed(scan, st, st', x); }
    }
    forall r | RenderOk(scan, st, r) ensures RenderOk(scan, st', r) {
      if r.key != k { RenderFramed(scan, st, st', r); }
    }
  }

  lemma StepBump(scan: Scan, st: State, i: TaskId)
    requires EntriesOk(scan, st) && RendersOk(scan, st)
    requires Enabled(scan, st, Bump(i))
    ensures var st' := Apply(scan, st, Bump(i)); EntriesOk(scan, st') && RendersOk(scan, st')
  {
    hide EntriesOk, EntryOk;
    var st' := Apply(scan, st, Bump(i));
    var k := st.invals[i].todo[0];
    assert i in st'.invals && BumpedHead(st'.invals[i], k);
    forall x | x != k ensures Kept(st, st', x) { KeptFramed(st, st', x); }
    BumpedKey(scan, st, st', k);
  }

  lemma StepUndoBump(scan: Scan, st: State, id: TaskId)
    requires EntriesOk(scan, st) && RendersOk(scan, st)
    requires Enabled(scan, st, UndoBump(id))
    ensures var st' := Apply(scan, st, UndoBump(id)); EntriesOk(scan, st') && RendersOk(scan, st')
  {
    hide EntriesOk, EntryOk;
    var st' := Apply(scan, st, UndoBump(id));
    var k := st.renders[id].key;
    assert id in st'.renders && UndoRemoves(st'.renders[id], k);
    forall x | x != k ensures Kept(st, st', x) { KeptFramed(st, st', x); }
    BumpedKey(scan, st, st', k);
  }

  /** Removing an entry: a revalidation still anchored on it would contradict the removal. */
  lemma RemovedKey(scan: Scan, st: State, st': State, k: Key)
    requires EntriesOk(scan, st) && RendersOk(scan, st)
    requires st'.processed == st.processed - {k} && RemovalInFlight(st, k)
    requires st'.CompVer(k) == st.CompVer(k) && st'.Comp(k) == st.Comp(k) && st'.Generation(k) == st.Generation(k)
    requires WillBump(st, k) ==> WillBump(st', k)
    requires ScansKept(scan, st, st') && forall x :: x != k ==> Kept(st, st', x)
    ensures EntriesOk(scan, st')
    ensures forall r :: RenderOk(scan, st, r) ==> RenderOk(scan, st', r)
  {
    forall x | x in st'.processed ensures EntryOk(scan, st', x) {
      assert EntryOk(scan, st, x);
      EntryFramed(scan, st, st', x);
    }
    forall r | RenderOk(scan, st, r) ensures RenderOk(scan, st', r) {
      if r.key != k {
        RenderFramed(scan, st, st', r);
      } else if Justified(scan, st, r) && Draft(r.phase).Some? {
        DraftFramed(scan, st, st', r, Draft(r.phase).value);
      }
    }
  }

  lemma StepRemove(scan: Scan, st: State, i: TaskId)
    requires EntriesOk(scan, st) && RendersOk(scan, st)
    requires Enabled(scan, st, Remove(i))
    ensures var st' := Apply(scan, st, Remove(i)); EntriesOk(scan, st') && RendersOk(scan, st')
  {
    var st' := Apply(scan, st, Remove(i));
    var k := st.invals[i].todo[0];
    assert i in st.invals && BumpedHead(st.invals[i], k);
    forall x ensures WillBump(st, x) ==> WillBump(st', x) {
      if j :| j in st.invals && OwesBump(st.invals[j], x) {
        assert j in st'.invals && OwesBump(st'.invals[j], x);
      } else if o :| o in st.renders && OwesUndo(st, st.renders[o], x) {
        assert o in st'.renders && OwesUndo(st', st'.renders[o], x);
      }
    }
    forall x | x != k ensures Kept(st, st', x) { RemovalFramed(st, st', x); }
    RemovedKey(scan, st, st', k);
  }

  lemma UndoRemoveKeepsBumps(scan: Scan, st: State, id: TaskId, x: Key)
    requires Enabled(scan, st, UndoRemove(id)) && WillBump(st, x)
    ensures WillBump(Apply(scan, st, UndoRemove(id)), x)
  {
    var st' := Apply(scan, st, UndoRemove(id));
    if j :| j in st.invals && OwesBump(st.invals[j], x) {
      assert j in st'.invals && OwesBump(st'.invals[j], x);
    } else if o :| o in st.renders && OwesUndo(st, st.renders[o], x) {
      assert o in st'.renders && OwesUndo(st', st'.renders[o], x);
    }
  }

  lemma StepUndoRemove(scan: Scan, st: State, id: TaskId)
    requires EntriesOk(scan, st) && RendersOk(scan, st)
    requires Enabled(scan, st, UndoRemove(id))
    ensures var st' := Apply(scan, st, UndoRemove(id)); EntriesOk(scan, st') && RendersOk(scan, st')
  {
    hide EntriesOk, EntryOk, WillBump, Justified, DraftShape, DraftOk, Anchored;
    var st' := Apply(scan, st, UndoRemove(id));
    var k := st.renders[id].key;
    assert id in st.renders && UndoRemoves(st.renders[id], k);
    UndoRemoveKeeps(scan, st, id);
    hide Apply, Enabled, Kept, ScansKept;
    RemovedKey(scan, st, st', k);
  }

  lemma UndoRemoveKeeps(scan: Scan, st: State, id: TaskId)
    requires Enabled(scan, st, UndoRemove(id))
    ensures var st' := Apply(scan, st, UndoRemove(id));
      var k := st.renders[id].key;
      && st'.processed == st.processed - {k} && ScansKept(scan, st, st')
      && st'.CompVer(k) == st.CompVer(k) && st'.Comp(k) == st.Comp(k) && st'.Generation(k) == st.Generation(k)
      && (WillBump(st, k) ==> WillBump(st', k)) && forall x :: x != k ==> Kept(st, st', x)
  {
    hide WillBump;
    var st' := Apply(scan, st, UndoRemove(id));
    forall x | WillBump(st, x) ensures WillBump(st', x) {
      UndoRemoveKeepsBumps(scan, st, id, x);
    }
    forall x | x != st.renders[id].key ensures Kept(st, st', x) { RemovalFramed(st, st', x); }
  }

  /** An invalidation that only adds or finishes list work, with everything else untouched. */
  lemma WorkFramed(scan: Scan, st: State, st': State)
    requires EntriesOk(scan, st) && RendersOk(scan, st)
    requires st' == st.(invals := st'.invals) && ScansKept(scan, st, st')
    requires forall j, k :: j in st.invals && OwesBump(st.invals[j], k) ==> j in st'.invals && OwesBump(st'.invals[j], k)
    requires forall j, k :: j in st.invals && BumpedHead(st.invals[j], k) ==> j in st'.invals && BumpedHead(st'.invals[j], k)
    requires forall j, k :: j in st'.invals && BumpedHead(st'.invals[j], k) ==> j in st.invals && BumpedHead(st.invals[j], k)
    ensures EntriesOk(scan, st') && RendersOk(scan, st')
  {
    forall x ensures Kept(st, st', x) { KeptFramed(st, st', x); }
    FramedAll(scan, st, st');
  }

  // ---------------------------------------------------------------- the scan

  /** An invalidation of `s` moves from `w` to `w'`: every rendering that counted on it still may. */
  ghost predicate ScanCovers(scan: Scan, st: State, s: SourceId, w: Work, w': Work) {
    && (forall k :: k in st.processed && s in st.processed[k].names && SeesEntry(scan, st, w, s, k) ==>
          SeesEntry(scan, st, w', s, k) || OwesBump(w', k))
    && (forall r :: r in st.renders && Draft(st.renders[r].phase).Some?
                    && s in Draft(st.renders[r].phase).value.names && SeesRender(scan, w, s, st.renders[r])
                    && Justified(scan, st, st.renders[r]) ==>
          SeesRender(scan, w', s, st.renders[r]) || OwesBump(w', st.renders[r].key))
  }

  lemma ScanStep(scan: Scan, st: State, i: TaskId, w': Work)
    requires EntriesOk(scan, st) && RendersOk(scan, st)
    requires i in st.invals && !st.invals[i].Removing?
    requires w'.HalfScanned? ==> w'.source == st.invals[i].source
    requires w'.Removing? ==> !w'.bumped
    requires !w'.Pending?
    requires ScanCovers(scan, st, st.invals[i].source, st.invals[i], w')
    ensures var st' := st.(invals := st.invals[i := w']); EntriesOk(scan, st') && RendersOk(scan, st')
  {
    var st' := st.(invals := st.invals[i := w']);
    var s := st.invals[i].source;
    forall x ensures Kept(st, st', x) { KeptFramed(st, st', x); }
    forall k | k in st'.processed ensures EntryOk(scan, st', k) {
      assert EntryOk(scan, st, k);
      ScannedEntry(scan, st, st', i, k);
    }
    forall o | o in st'.renders ensures RenderOk(scan, st', st'.renders[o]) {
      assert RenderOk(scan, st, st.renders[o]);
      ScannedRender(scan, st, st', i, o);
    }
  }

  lemma ScannedEntry(scan: Scan, st: State, st': State, i: TaskId, k: Key)
    requires i in st.invals && !st.invals[i].Removing? && i in st'.invals
    requires st' == st.(invals := st.invals[i := st'.invals[i]])
    requires ScanCovers(scan, st, st.invals[i].source, st.invals[i], st'.invals[i])
    requires k in st.processed && EntryOk(scan, st, k) && Kept(st, st', k)
    ensures EntryOk(scan, st', k)
  {
    var e := st.processed[k];
    if !WillBump(st, k) && !RemovalInFlight(st, k) && !WillBump(st', k) {
      forall s | s in e.rows ensures EntryRowOk(scan, st', k, s, e.rows[s]) {
        assert EntryRowOk(scan, st, k, s, e.rows[s]);
        if e.rows[s] != st.RowVer(s) {
          var j :| j in st.invals && SeesEntry(scan, st, st.invals[j], s, k);
          assert OwesBump(st'.invals[j], k) ==> WillBump(st', k);
          assert j in st'.invals && SeesEntry(scan, st', st'.invals[j], s, k);
        }
      }
    }
  }

  lemma ScannedRender(scan: Scan, st: State, st': State, i: TaskId, o: TaskId)
    requires i in st.invals && !st.invals[i].Removing? && i in st'.invals
    requires st' == st.(invals := st.invals[i := st'.invals[i]])
    requires ScanCovers(scan, st, st.invals[i].source, st.invals[i], st'.invals[i])
    requires o in st.renders && RenderOk(scan, st, st.renders[o]) && Kept(st, st', st.renders[o].key)
    ensures RenderOk(scan, st', st.renders[o])
  {
    var r := st.renders[o];
    if Justified(scan, st, r) && Draft(r.phase).Some? && !WillBump(st', r.key) {
      var e := Draft(r.phase).value;
      if r.phase.Rendering? || r.phase.Checked? {
        forall s | s in e.rows ensures RenderRowOk(scan, st', r, s, e.rows[s]) {
          assert RenderRowOk(scan, st, r, s, e.rows[s]);
          if e.rows[s] != st.RowVer(s) {
            var j :| j in st.invals && SeesRender(scan, st.invals[j], s, r);
            assert OwesBump(st'.invals[j], r.key) ==> WillBump(st', r.key);
            assert j in st'.invals && SeesRender(scan, st'.invals[j], s, r);
          }
        }
        assert DraftOk(scan, st', r, e);
      }
    }
  }

  lemma StepScanAll(scan: Scan, st: State, i: TaskId, todo: seq<Key>)
    requires ClaimsOwned(st) && EntriesOk(scan, st) && RendersOk(scan, st)
    requires Enabled(scan, st, ScanAll(i, todo))
    ensures var st' := Apply(scan, st, ScanAll(i, todo)); EntriesOk(scan, st') && RendersOk(scan, st')
  {
    var s := st.invals[i].source;
    forall r | r in st.renders && Draft(st.renders[r].phase).Some? && s in Draft(st.renders[r].phase).value.names
               && Justified(scan, st, st.renders[r])
      ensures st.renders[r].key in todo
    {
      assert RenderOk(scan, st, st.renders[r]);
    }
    ScanStep(scan, st, i, Removing(todo, false));
  }

  lemma StepScanFirst(scan: Scan, st: State, i: TaskId)
    requires ClaimsOwned(st) && EntriesOk(scan, st) && RendersOk(scan, st)
    requires Enabled(scan, st, ScanFirst(i))
    ensures var st' := Apply(scan, st, ScanFirst(i)); EntriesOk(scan, st') && RendersOk(scan, st')
  {
    var s := st.invals[i].source;
    forall r | r in st.renders && Draft(st.renders[r].phase).Some? && s in Draft(st.renders[r].phase).value.names
               && st.renders[r].kind.Inline?
      ensures st.renders[r].key in ClaimsNaming(st, s) && s in st.renders[r].kind.claimed
    {
      assert RenderOk(scan, st, st.renders[r]);
    }
    forall r | r in st.renders && Draft(st.renders[r].phase).Some? && s in Draft(st.renders[r].phase).value.names
               && st.renders[r].kind.Revalidate? && Justified(scan, st, st.renders[r])
      ensures st.renders[r].key in EntriesNaming(st, s)
    {
      assert RenderOk(scan, st, st.renders[r]);
    }
    ScanStep(scan, st, i, HalfScanned(s, if scan.ClaimsThenEntries? then ClaimsNaming(st, s) else EntriesNaming(st, s)));
  }

  lemma StepScanSecond(scan: Scan, st: State, i: TaskId, todo: seq<Key>)
    requires ClaimsOwned(st) && EntriesOk(scan, st) && RendersOk(scan, st)
    requires Enabled(scan, st, ScanSecond(i, todo))
    ensures var st' := Apply(scan, st, ScanSecond(i, todo)); EntriesOk(scan, st') && RendersOk(scan, st')
  {
    var s := st.invals[i].source;
    forall r | r in st.renders && Draft(st.renders[r].phase).Some? && s in Draft(st.renders[r].phase).value.names
               && SeesRender(scan, st.invals[i], s, st.renders[r]) && Justified(scan, st, st.renders[r])
      ensures st.renders[r].key in todo
    {
      assert RenderOk(scan, st, st.renders[r]);
    }
    ScanStep(scan, st, i, Removing(todo, false));
  }

  // ---------------------------------------------------------------- commits, claims, releases

  lemma StepCommitRows(scan: Scan, st: State, i: TaskId, s: SourceId, comp: map<Key, set<SourceId>>)
    requires EntriesOk(scan, st) && RendersOk(scan, st)
    requires Enabled(scan, st, CommitRows(i, s, comp)) && Disciplined(scan, st, CommitRows(i, s, comp))
    ensures var st' := Apply(scan, st, CommitRows(i, s, comp)); EntriesOk(scan, st') && RendersOk(scan, st')
  {
    var st' := Apply(scan, st, CommitRows(i, s, comp));
    forall x ensures Kept(st, st', x) { KeptFramed(st, st', x); }
    forall k | k in st'.processed ensures EntryOk(scan, st', k) {
      assert EntryOk(scan, st, k) && Kept(st, st', k);
      CommittedEntry(scan, st, st', i, s, k);
    }
    forall o | o in st'.renders ensures RenderOk(scan, st', st'.renders[o]) {
      assert RenderOk(scan, st, st.renders[o]) && Kept(st, st', st.renders[o].key);
      CommittedRender(scan, st, st', i, s, st.renders[o]);
    }
  }

  /** `st'` is `st` with one more committed change of `s` and the invalidation it owes. */
  ghost predicate Committed(st: State, st': State, i: TaskId, s: SourceId) {
    && i !in st.invals && st'.invals == st.invals[i := Pending(s)]
    && (forall x :: x != s ==> st'.RowVer(x) == st.RowVer(x))
    && st'.processed == st.processed && st'.inlineClaims == st.inlineClaims
  }

  lemma CommittedEntry(scan: Scan, st: State, st': State, i: TaskId, s: SourceId, k: Key)
    requires Committed(st, st', i, s) && Kept(st, st', k)
    requires k in st.processed && EntryOk(scan, st, k)
    ensures EntryOk(scan, st', k)
  {
    var e := st.processed[k];
    if !WillBump(st, k) && !RemovalInFlight(st, k) {
      forall x | x in e.rows ensures EntryRowOk(scan, st', k, x, e.rows[x]) {
        assert EntryRowOk(scan, st, k, x, e.rows[x]);
        if j :| j in st.invals && SeesEntry(scan, st, st.invals[j], x, k) {
          assert j in st'.invals && SeesEntry(scan, st', st'.invals[j], x, k);
        } else if x == s {
          assert i in st'.invals && SeesEntry(scan, st', st'.invals[i], x, k);
        }
      }
    }
  }

  lemma CommittedRender(scan: Scan, st: State, st': State, i: TaskId, s: SourceId, r: Render)
    requires Committed(st, st', i, s) && Kept(st, st', r.key)
    requires RenderOk(scan, st, r)
    ensures RenderOk(scan, st', r)
  {
    if Justified(scan, st, r) && Draft(r.phase).Some? {
      var e := Draft(r.phase).value;
      forall x | x in e.rows ensures RenderRowOk(scan, st', r, x, e.rows[x]) {
        assert RenderRowOk(scan, st, r, x, e.rows[x]);
        if j :| j in st.invals && SeesRender(scan, st.invals[j], x, r) {
          assert j in st'.invals && SeesRender(scan, st'.invals[j], x, r);
        } else if x == s {
          assert i in st'.invals && SeesRender(scan, st'.invals[i], x, r);
        }
      }
      assert DraftOk(scan, st', r, e);
    }
  }

  lemma StepCommitProfile(scan: Scan, st: State, i: TaskId, k: Key, members: set<SourceId>)
    requires EntriesOk(scan, st) && RendersOk(scan, st)
    requires Enabled(scan, st, CommitProfile(i, k, members))
    ensures var st' := Apply(scan, st, CommitProfile(i, k, members)); EntriesOk(scan, st') && RendersOk(scan, st')
  {
    CommitProfileKeeps(scan, st, i, k, members);
    hide Apply, Enabled, Kept, ScansKept, WillBump, EntriesOk, RendersOk;
    EditedProfileKeepsEntries(scan, st, Apply(scan, st, CommitProfile(i, k, members)), k);
    EditedProfileKeepsRenders(scan, st, Apply(scan, st, CommitProfile(i, k, members)), k);
  }

  lemma CommitProfileKeeps(scan: Scan, st: State, i: TaskId, k: Key, members: set<SourceId>)
    requires Enabled(scan, st, CommitProfile(i, k, members))
    ensures var st' := Apply(scan, st, CommitProfile(i, k, members));
      && st'.processed == st.processed && st'.renders == st.renders && ScansKept(scan, st, st')
      && st'.CompVer(k) == st.CompVer(k) + 1 && st'.Generation(k) == st.Generation(k)
      && WillBump(st', k) && forall x :: x != k ==> Kept(st, st', x)
  {
    var st' := Apply(scan, st, CommitProfile(i, k, members));
    assert i in st'.invals && OwesBump(st'.invals[i], k);
    forall x | x != k ensures Kept(st, st', x) { KeptFramed(st, st', x); }
  }

  lemma EditedProfileKeepsEntries(scan: Scan, st: State, st': State, k: Key)
    requires EntriesOk(scan, st) && st'.processed == st.processed && ScansKept(scan, st, st')
    requires st'.CompVer(k) == st.CompVer(k) + 1 && WillBump(st', k) && forall x :: x != k ==> Kept(st, st', x)
    ensures EntriesOk(scan, st')
  {
    hide Kept, ScansKept, WillBump;
    forall x | x in st'.processed ensures EntryOk(scan, st', x) {
      assert EntryOk(scan, st, x);
      if x != k { EntryFramed(scan, st, st', x); }
    }
  }

  lemma EditedProfileKeepsRenders(scan: Scan, st: State, st': State, k: Key)
    requires RendersOk(scan, st) && st'.processed == st.processed && st'.renders == st.renders && ScansKept(scan, st, st')
    requires st'.CompVer(k) == st.CompVer(k) + 1 && st'.Generation(k) == st.Generation(k)
    requires WillBump(st', k) && forall x :: x != k ==> Kept(st, st', x)
    ensures RendersOk(scan, st')
  {
    hide Kept, ScansKept, WillBump;
    forall o | o in st'.renders ensures RenderOk(scan, st', st'.renders[o]) {
      assert RenderOk(scan, st, st.renders[o]);
      if st.renders[o].key != k { RenderFramed(scan, st, st', st.renders[o]); }
    }
  }

  lemma StepClaim(scan: Scan, st: State, st': State, id: TaskId, r: Render)
    requires EntriesOk(scan, st) && RendersOk(scan, st)
    requires id !in st.renders && r.phase.Claimed?
    requires st' == st.(renders := st.renders[id := r], inlineClaims := st'.inlineClaims, revalidating := st'.revalidating)
    requires forall k, s :: ClaimSight(st, k, s) ==> ClaimSight(st', k, s)
    ensures EntriesOk(scan, st') && RendersOk(scan, st')
  {
    forall x ensures Kept(st, st', x) { KeptFramed(st, st', x); }
    FramedAll(scan, st, st');
  }

  lemma StepDrop(scan: Scan, st: State, st': State, id: TaskId)
    requires EntriesOk(scan, st) && RendersOk(scan, st)
    requires id in st.renders && (st.renders[id].phase.Finished? || st.renders[id].phase.Deferred?)
    requires st'.renders == st.renders - {id} && st'.rowVer == st.rowVer && st'.compVer == st.compVer && st'.comp == st.comp
    requires st'.processed == st.processed && st'.generations == st.generations && st'.invals == st.invals
    requires scan.EntriesThenClaims? ==> forall i, k :: i in st.invals ==> SightKept(st, st', st.invals[i], k)
    ensures EntriesOk(scan, st') && RendersOk(scan, st')
  {
    forall x ensures Kept(st, st', x) { KeptFramed(st, st', x); }
    FramedAll(scan, st, st');
  }

  // ---------------------------------------------------------------- the theorems

  predicate IsRenderStep(step: Step) {
    !(step.CommitRows? || step.CommitProfile? || step.DropKey? || step.ScanAll? || step.ScanFirst?
      || step.ScanSecond? || step.Bump? || step.Remove? || step.EndInvalidation?)
  }

  lemma InvalidationStep(scan: Scan, st: State, step: Step)
    requires !IsRenderStep(step)
    requires Coherent(scan, st) && Enabled(scan, st, step) && Disciplined(scan, st, step)
    ensures EntriesOk(scan, Apply(scan, st, step)) && RendersOk(scan, Apply(scan, st, step))
  {
    match step
    case CommitRows(i, s, comp) => StepCommitRows(scan, st, i, s, comp);
    case CommitProfile(i, k, members) => StepCommitProfile(scan, st, i, k, members);
    case DropKey(i, k) => WorkFramed(scan, st, Apply(scan, st, step));
    case ScanAll(i, todo) => StepScanAll(scan, st, i, todo);
    case ScanFirst(i) => StepScanFirst(scan, st, i);
    case ScanSecond(i, todo) => StepScanSecond(scan, st, i, todo);
    case Bump(i) => StepBump(scan, st, i);
    case Remove(i) => StepRemove(scan, st, i);
    case EndInvalidation(i) => WorkFramed(scan, st, Apply(scan, st, step));
  }

  /** Steps of a put, past the reads of the database. */
  predicate IsPutStep(step: Step) {
    step.FirstCheck? || step.Insert? || step.SecondCheck? || step.UndoBump? || step.UndoRemove?
  }

  predicate IsReadStep(step: Step) { step.ReadGeneration? || step.ReadComposition? || step.ReadRows? }

  lemma PutStep(scan: Scan, st: State, step: Step)
    requires IsPutStep(step) && Coherent(scan, st) && Enabled(scan, st, step)
    ensures EntriesOk(scan, Apply(scan, st, step)) && RendersOk(scan, Apply(scan, st, step))
  {
    match step
    case FirstCheck(r) => StepFirstCheck(scan, st, r);
    case Insert(r) => StepInsert(scan, st, r);
    case SecondCheck(r) => StepSecondCheck(scan, st, r);
    case UndoBump(r) => StepUndoBump(scan, st, r);
    case UndoRemove(r) => StepUndoRemove(scan, st, r);
  }

  lemma ReadStep(scan: Scan, st: State, step: Step)
    requires IsReadStep(step) && Coherent(scan, st) && Enabled(scan, st, step) && Disciplined(scan, st, step)
    ensures EntriesOk(scan, Apply(scan, st, step)) && RendersOk(scan, Apply(scan, st, step))
  {
    match step
    case ReadGeneration(r) => StepReadGeneration(scan, st, r);
    case ReadComposition(r) => StepReadComposition(scan, st, r);
    case ReadRows(r, s) => StepReadRows(scan, st, r, s);
  }

  lemma ClaimStep(scan: Scan, st: State, step: Step)
    requires step.ClaimInline? || step.ClaimRevalidate?
    requires EntriesOk(scan, st) && RendersOk(scan, st) && Enabled(scan, st, step)
    ensures EntriesOk(scan, Apply(scan, st, step)) && RendersOk(scan, Apply(scan, st, step))
  {
    var st' := Apply(scan, st, step);
    hide EntriesOk, RendersOk;
    StepClaim(scan, st, st', step.render, st'.renders[step.render]);
  }

  lemma DropIsRelease(scan: Scan, st: State, step: Step)
    requires (step.Release? || step.RunDeferred?) && Enabled(scan, st, step)
    ensures step.render in st.renders && Apply(scan, st, step) == DropClaim(st, step.render)
    ensures st.renders[step.render].phase.Finished? || st.renders[step.render].phase.Deferred?
  {
    if step.Release? {
      assert step == Release(step.render);
    } else {
      assert step == RunDeferred(step.render);
    }
  }

  /** No claim goes that a half-finished scan still has to see. */
  lemma DropKeepsSight(scan: Scan, st: State, step: Step)
    requires (step.Release? || step.RunDeferred?) && step.render in st.renders
    requires ClaimsOwned(st) && Disciplined(scan, st, step)
    ensures scan.EntriesThenClaims? ==>
              forall i, k :: i in st.invals ==> SightKept(st, DropClaim(st, step.render), st.invals[i], k)
  {
    hide Owned, InlineOwners, RevalidateOwners;
    if scan.EntriesThenClaims? {
      assert Meets(ClaimOutlivesScan, st, step);
      forall i, k | i in st.invals ensures SightKept(st, DropClaim(st, step.render), st.invals[i], k) {
        assert st.renders[step.render].kind.Inline? ==> !Slips(st.invals[i], st.renders[step.render]);
      }
    }
  }

  lemma ReleaseStep(scan: Scan, st: State, step: Step)
    requires step.Release? || step.RunDeferred?
    requires ClaimsOwned(st) && EntriesOk(scan, st) && RendersOk(scan, st)
    requires Enabled(scan, st, step) && Disciplined(scan, st, step)
    ensures EntriesOk(scan, Apply(scan, st, step)) && RendersOk(scan, Apply(scan, st, step))
  {
    hide *;
    DropIsRelease(scan, st, step);
    DropKeepsSight(scan, st, step);
    DropShape(st, step.render);
    StepDrop(scan, st, DropClaim(st, step.render), step.render);
  }

  lemma GuardStep(scan: Scan, st: State, step: Step)
    requires IsRenderStep(step) && !IsPutStep(step) && !IsReadStep(step)
    requires Coherent(scan, st) && Enabled(scan, st, step) && Disciplined(scan, st, step)
    ensures EntriesOk(scan, Apply(scan, st, step)) && RendersOk(scan, Apply(scan, st, step))
  {
    if step.ClaimInline? || step.ClaimRevalidate? {
      ClaimStep(scan, st, step);
    } else if step.Release? || step.RunDeferred? {
      ReleaseStep(scan, st, step);
    } else {
      var phase := if step.Abandon? then Finished else Deferred;
      StepQuietPhase(scan, st, step.render, phase);
    }
  }

  lemma RenderStep(scan: Scan, st: State, step: Step)
    requires IsRenderStep(step)
    requires Coherent(scan, st) && Enabled(scan, st, step) && Disciplined(scan, st, step)
    ensures EntriesOk(scan, Apply(scan, st, step)) && RendersOk(scan, Apply(scan, st, step))
  {
    if IsPutStep(step) {
      PutStep(scan, st, step);
    } else if IsReadStep(step) {
      ReadStep(scan, st, step);
    } else {
      GuardStep(scan, st, step);
    }
  }

  /** Every disciplined step keeps the invariant. */
  lemma CoherenceKept(scan: Scan, st: State, step: Step)
    requires Coherent(scan, st) && Enabled(scan, st, step) && Disciplined(scan, st, step)
    ensures Coherent(scan, Apply(scan, st, step))
  {
    OwnershipKept(scan, st, step);
    if IsRenderStep(step) {
      RenderStep(scan, st, step);
    } else {
      InvalidationStep(scan, st, step);
    }
  }

  lemma {:induction false} CoherentRun(scan: Scan, st: State, steps: seq<Step>)
    requires Coherent(scan, st) && Legal(scan, st, steps) && MeetsRun(scan, st, steps, Needed(scan))
    ensures Coherent(scan, Exec(scan, st, steps))
    decreases |steps|
  {
    if steps != [] {
      assert forall o :: o in Needed(scan) ==> Meets(o, st, steps[0]);
      assert Disciplined(scan, st, steps[0]);
      hide Disciplined, Meets, Coherent;
      CoherenceKept(scan, st, steps[0]);
      CoherentRun(scan, Apply(scan, st, steps[0]), steps[1..]);
    }
  }
}
