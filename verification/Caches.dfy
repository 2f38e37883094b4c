/** The cache layer's own operations, one after the other, over its shared maps.

`CacheProtocol` says what happens when they interleave; here each one is the code that runs
when nothing interferes, apart from the bumps a put is told about. */
module CacheLayer {
  import opened ClaimSets
  import opened CacheProtocol
  import opened Prelude
  import opened CacheProofs

  function GenerationIn(generations: map<Key, nat>, k: Key): nat {
    if k in generations then generations[k] else 0
  }

  /** Keys of cached entries that name `s`. */
  function Naming(processed: map<Key, Entry>, s: SourceId): set<Key> {
    set k | k in processed && s in processed[k].names
  }

  /** Keys of inline claims that name `s`. */
  function Claiming(claims: map<Key, set<SourceId>>, s: SourceId): set<Key> {
    set k | k in claims && s in claims[k]
  }

  function KeysOf(list: seq<Key>): set<Key> {
    set k | k in list
  }

  /** A set as a sequence without repetition, in some order. */
  method Listed(keys: set<Key>) returns (list: seq<Key>)
    ensures multiset(list) == multiset(keys)
  {
    list := [];
    var rest := keys;
    while rest != {}
      invariant rest <= keys && multiset(list) + multiset(rest) == multiset(keys)
      decreases rest
    {
      var k :| k in rest;
      assert multiset(rest) == multiset(rest - {k}) + multiset{k};
      list, rest := list + [k], rest - {k};
    }
  }

  lemma OccurrencesOf(first: seq<Key>, second: seq<Key>, a: set<Key>, b: set<Key>)
    requires multiset(first) == multiset(a) && multiset(second) == multiset(b)
    ensures KeysOf(first + second) == a + b
    ensures forall k :: multiset(first + second)[k] == (if k in a then 1 else 0) + (if k in b then 1 else 0)
  {
    forall k ensures k in first + second <==> k in a + b {
      assert k in first <==> k in multiset(first);
      assert k in second <==> k in multiset(second);
    }
  }

  class Caches {
    var processed: map<Key, Entry>
    var generations: map<Key, nat>
    var revalidating: set<Key>
    var inlineRendering: map<Key, set<SourceId>>

    constructor ()
      ensures processed == map[] && generations == map[] && revalidating == {} && inlineRendering == map[]
      ensures forall k :: Generation(k) == 0
    {
      processed, generations, revalidating, inlineRendering := map[], map[], {}, map[];
    }

    function Generation(k: Key): nat
      reads this`generations
    {
      GenerationIn(generations, k)
    }

    method BumpGeneration(k: Key)
      modifies this`generations
      ensures generations == old(generations)[k := old(Generation(k)) + 1]
    {
      var next := Generation(k) + 1;
      generations := generations[k := next];
    }

    method ProcessedInvalidate(k: Key)
      modifies this`generations, this`processed
      ensures generations == old(generations)[k := old(Generation(k)) + 1]
      ensures processed == old(processed) - {k}
    {
      BumpGeneration(k);
      processed := processed - {k};
    }

    /** Store a rendering claimed under `gen`.  `landed` bumps of the key by others arrive
        between the insert and the second check. */
    method ProcessedPutGuarded(k: Key, rendered: Entry, gen: nat, landed: nat) returns (stored: Option<Entry>)
      modifies this`generations, this`processed
      ensures stored == if old(Generation(k)) == gen && landed == 0 then Some(rendered) else None
      ensures old(Generation(k)) != gen ==> processed == old(processed) && generations == old(generations)
      ensures old(Generation(k)) == gen && landed == 0 ==>
        processed == old(processed)[k := rendered] && generations == old(generations)
      ensures old(Generation(k)) == gen && landed > 0 ==>
        processed == old(processed) - {k} && Generation(k) == gen + landed + 1
      ensures forall x :: x != k ==> Generation(x) == old(Generation(x))
    {
      if Generation(k) != gen {
        return None;
      }
      processed := processed[k := rendered];
      for n := 0 to landed
        invariant processed == old(processed)[k := rendered]
        invariant Generation(k) == gen + n
        invariant n == 0 ==> generations == old(generations)
        invariant forall x :: x != k ==> Generation(x) == old(Generation(x))
      {
        BumpGeneration(k);
      }
      if Generation(k) != gen {
        ProcessedInvalidate(k);
        assert processed == old(processed) - {k};
        return None;
      }
      return Some(processed[k]);
    }

    /** Bump and remove each listed key in turn. */
    method DropAll(affected: seq<Key>)
      modifies this`generations, this`processed
      ensures processed == old(processed) - KeysOf(affected)
      ensures forall k :: Generation(k) == old(Generation(k)) + multiset(affected)[k]
    {
      var i := 0;
      assert processed == processed - {};
      while i < |affected|
        invariant 0 <= i <= |affected|
        invariant processed == old(processed) - KeysOf(affected[..i])
        invariant forall k :: Generation(k) == old(Generation(k)) + multiset(affected[..i])[k]
      {
        var key := affected[i];
        assert affected[..i + 1] == affected[..i] + [key];
        BumpGeneration(key);
        assert KeysOf(affected[..i + 1]) == KeysOf(affected[..i]) + {key};
        processed := processed - {key};
        i := i + 1;
      }
      assert affected[..i] == affected;
    }

    /** Drop every rendering that names `s` and supersede every render that claimed it: exactly the
        entries naming `s` and the entries of keys whose inline claim names it go, every other one
        stays as it was, and a key's generation grows once for each way it was found.  On the state
        of the interleavings the call is the scan, in one access or two, and the removals of the
        invalidation `i`, so it keeps whatever those keep. */
    method InvalidateProcessedForSource(s: SourceId, ghost scan: Scan, ghost st: State, ghost i: TaskId)
      returns (ghost st': State, ghost todo: seq<Key>)
      requires Shows(st) && i in st.invals && st.invals[i] == Pending(s)
      modifies this`generations, this`processed
      ensures forall k :: k in processed <==>
                k in old(processed) && s !in old(processed)[k].names && !(k in inlineRendering && s in inlineRendering[k])
      ensures forall k :: k in processed ==> processed[k] == old(processed)[k]
      ensures forall k :: Generation(k) == old(Generation(k))
                        + (if k in old(processed) && s in old(processed)[k].names then 1 else 0)
                        + (if k in inlineRendering && s in inlineRendering[k] then 1 else 0)
      ensures Legal(scan, st, Invalidation(scan, i, todo)) && st' == Exec(scan, st, Invalidation(scan, i, todo))
      ensures Shows(st') && i !in st'.invals
      ensures Coherent(scan, st) ==> Coherent(scan, st')
    {
      assert processed == st.processed && inlineRendering == st.inlineClaims;
      todo := DropNaming(s);
      hide KeysOf, Legal, Exec, Enabled, Apply, Coherent, Lists, EntriesNaming, ClaimsNaming, Invalidation, ClaimsOwned, GenerationIn;
      AllListed(st, s, todo);
      RunOfInvalidation(scan, st, i, todo);
      st' := Exec(scan, st, Invalidation(scan, i, todo));
      MinusKeys(st.processed, inlineRendering, s, todo);
    }

    /** List what names `s`, entries first, then drop it. */
    method DropNaming(s: SourceId) returns (ghost todo: seq<Key>)
      modifies this`generations, this`processed
      ensures processed == old(processed) - KeysOf(todo)
      ensures forall k :: Generation(k) == old(Generation(k)) + multiset(todo)[k]
      ensures forall k :: multiset(todo)[k] == (if k in old(processed) && s in old(processed)[k].names then 1 else 0)
                                             + (if k in inlineRendering && s in inlineRendering[k] then 1 else 0)
      ensures forall k :: k in KeysOf(todo) <==>
                (k in old(processed) && s in old(processed)[k].names) || (k in inlineRendering && s in inlineRendering[k])
    {
      var affected := Listed(Naming(processed, s));
      var more := Listed(Claiming(inlineRendering, s));
      todo := affected + more;
      FoundKeys(processed, inlineRendering, s, affected, more);
      hide Naming, Claiming, KeysOf, GenerationIn;
      DropAll(affected + more);
    }

    /** The shared maps are those of the state `st` of the interleavings. */
    ghost predicate Shows(st: State)
      reads this
    {
      && processed == st.processed && (forall k :: Generation(k) == st.Generation(k))
      && revalidating == st.revalidating && inlineRendering == st.inlineClaims
    }

    /** Claim the background revalidation of a key; `None` when another task holds it.  For the
        caller's task `r` these are the protocol's claim and generation read, after which `r` is
        the one revalidation of the key. */
    method TryStartRevalidate(k: Key, ghost scan: Scan, ghost st: State, ghost r: TaskId)
      returns (gen: Option<nat>, ghost st': State)
      requires Shows(st) && ClaimsOwned(st) && Fresh(st, r)
      modifies this`revalidating
      ensures Shows(st') && ClaimsOwned(st')
      ensures gen.Some? ==>
                && Enabled(scan, st, ClaimRevalidate(r, k))
                && Enabled(scan, Apply(scan, st, ClaimRevalidate(r, k)), ReadGeneration(r))
                && st' == Apply(scan, Apply(scan, st, ClaimRevalidate(r, k)), ReadGeneration(r))
                && st'.renders[r] == Render(Revalidate, k, Rendering(gen.value, None))
                && forall o :: o in st'.renders && st'.renders[o].kind.Revalidate? && st'.renders[o].key == k ==> o == r
      ensures gen.None? ==> st' == st && exists o :: o in st.renders && st.renders[o].kind.Revalidate? && st.renders[o].key == k
    {
      if k in revalidating {
        RevalidatorOf(st, k);
        return None, st;
      }
      hide Apply, Enabled, ClaimsOwned;
      RevalidationBegins(scan, st, r, k);
      st' := Apply(scan, Apply(scan, st, ClaimRevalidate(r, k)), ReadGeneration(r));
      revalidating := revalidating + {k};
      gen := Some(Generation(k));
    }

    /** Lead the inline render of a key, or wait (`None`) for the one that is running.  The claim
        and the generation read of the caller's task `r`, after which `r` is the one leader. */
    method BeginInlineRender(k: Key, sources: set<SourceId>, ghost scan: Scan, ghost st: State, ghost r: TaskId)
      returns (gen: Option<nat>, ghost st': State)
      requires Shows(st) && ClaimsOwned(st) && Fresh(st, r)
      modifies this`inlineRendering
      ensures Shows(st') && ClaimsOwned(st')
      ensures gen.Some? ==>
                && Enabled(scan, st, ClaimInline(r, k, sources))
                && Enabled(scan, Apply(scan, st, ClaimInline(r, k, sources)), ReadGeneration(r))
                && st' == Apply(scan, Apply(scan, st, ClaimInline(r, k, sources)), ReadGeneration(r))
                && st'.renders[r] == Render(Inline(sources), k, Rendering(gen.value, None))
                && forall o :: o in st'.renders && st'.renders[o].kind.Inline? && st'.renders[o].key == k ==> o == r
      ensures gen.None? ==> st' == st && exists o :: o in st.renders && st.renders[o].kind.Inline? && st.renders[o].key == k
    {
      if k in inlineRendering {
        LeaderOf(st, k);
        return None, st;
      }
      hide Apply, Enabled, ClaimsOwned;
      LeadBegins(scan, st, r, k, sources);
      st' := Apply(scan, Apply(scan, st, ClaimInline(r, k, sources)), ReadGeneration(r));
      inlineRendering := inlineRendering[k := sources];
      gen := Some(Generation(k));
    }
  }

  /** A key is found as often as its entry and its claim name `s`. */
  lemma FoundKeys(processed: map<Key, Entry>, claims: map<Key, set<SourceId>>, s: SourceId, first: seq<Key>, second: seq<Key>)
    requires multiset(first) == multiset(Naming(processed, s)) && multiset(second) == multiset(Claiming(claims, s))
    ensures forall k :: multiset(first + second)[k] ==
                        (if k in processed && s in processed[k].names then 1 else 0) + (if k in claims && s in claims[k] then 1 else 0)
    ensures forall k :: k in KeysOf(first + second) <==>
              (k in processed && s in processed[k].names) || (k in claims && s in claims[k])
  {
    OccurrencesOf(first, second, Naming(processed, s), Claiming(claims, s));
  }

  lemma MinusKeys(processed: map<Key, Entry>, claims: map<Key, set<SourceId>>, s: SourceId, todo: seq<Key>)
    requires forall k :: k in KeysOf(todo) <==>
               (k in processed && s in processed[k].names) || (k in claims && s in claims[k])
    ensures var left := processed - KeysOf(todo);
      && (forall k :: k in left <==> k in processed && s !in processed[k].names && !(k in claims && s in claims[k]))
      && (forall k :: k in left ==> left[k] == processed[k])
  {
    hide KeysOf;
  }

  lemma RevalidatorOf(st: State, k: Key)
    requires ClaimsOwned(st)
    ensures k in st.revalidating <==> exists o :: o in st.renders && st.renders[o].kind.Revalidate? && st.renders[o].key == k
  {
    var owners := RevalidateOwners(st.renders);
    assert k in st.revalidating <==> k in owners.Values;
    if o :| o in st.renders && st.renders[o].kind.Revalidate? && st.renders[o].key == k {
      assert owners[o] == k;
    }
  }

  lemma LeaderOf(st: State, k: Key)
    requires ClaimsOwned(st)
    ensures k in st.inlineClaims <==> exists o :: o in st.renders && st.renders[o].kind.Inline? && st.renders[o].key == k
  {
    var owners := InlineOwners(st.renders);
    assert k in st.inlineClaims.Keys <==> k in owners.Values;
    if o :| o in st.renders && st.renders[o].kind.Inline? && st.renders[o].key == k {
      assert owners[o] == k;
    }
  }

  /** A claim taken by `r` and the generation read: the state afterwards. */
  function Started(st: State, r: TaskId, render: Render, claims: map<Key, set<SourceId>>, revalidating: set<Key>): State {
    st.(inlineClaims := claims, revalidating := revalidating,
        renders := st.renders[r := render.(phase := Rendering(st.Generation(render.key), None))])
  }

  lemma ClaimThenRead(scan: Scan, st: State, r: TaskId, render: Render, claims: map<Key, set<SourceId>>, revalidating: set<Key>)
    requires render.phase.Claimed?
    ensures var claimed := st.(inlineClaims := claims, revalidating := revalidating, renders := st.renders[r := render]);
      && Enabled(scan, claimed, ReadGeneration(r))
      && Apply(scan, claimed, ReadGeneration(r)) == Started(st, r, render, claims, revalidating)
  {
    var claimed := st.(inlineClaims := claims, revalidating := revalidating, renders := st.renders[r := render]);
    var phase := Rendering(st.Generation(render.key), None);
    assert claimed.renders[r] == render;
    assert claimed.renders[r := render.(phase := phase)] == st.renders[r := render.(phase := phase)];
    assert Apply(scan, claimed, ReadGeneration(r)) == SetPhase(claimed, r, phase);
  }

  lemma RevalidationBegins(scan: Scan, st: State, r: TaskId, k: Key)
    requires ClaimsOwned(st) && Fresh(st, r) && k !in st.revalidating
    ensures Enabled(scan, st, ClaimRevalidate(r, k))
    ensures var claimed := Apply(scan, st, ClaimRevalidate(r, k));
      var st' := Started(st, r, Render(Revalidate, k, Claimed), st.inlineClaims, st.revalidating + {k});
      && Enabled(scan, claimed, ReadGeneration(r)) && Apply(scan, claimed, ReadGeneration(r)) == st' && ClaimsOwned(st')
      && forall o :: o in st.renders && st.renders[o].kind.Revalidate? ==> st.renders[o].key != k
  {
    RevalidateClaimed(scan, st, r, k);
    OwnershipKept(scan, st, ClaimRevalidate(r, k));
    ClaimThenRead(scan, st, r, Render(Revalidate, k, Claimed), st.inlineClaims, st.revalidating + {k});
    RevalidatorOf(st, k);
    hide Apply, Enabled, ClaimsOwned, Started;
    OwnershipKept(scan, Apply(scan, st, ClaimRevalidate(r, k)), ReadGeneration(r));
  }

  lemma RevalidateClaimed(scan: Scan, st: State, r: TaskId, k: Key)
    requires Fresh(st, r) && k !in st.revalidating
    ensures Enabled(scan, st, ClaimRevalidate(r, k))
    ensures Apply(scan, st, ClaimRevalidate(r, k)) ==
            st.(inlineClaims := st.inlineClaims, revalidating := st.revalidating + {k},
                renders := st.renders[r := Render(Revalidate, k, Claimed)])
  {}

  lemma LeadBegins(scan: Scan, st: State, r: TaskId, k: Key, sources: set<SourceId>)
    requires ClaimsOwned(st) && Fresh(st, r) && k !in st.inlineClaims
    ensures Enabled(scan, st, ClaimInline(r, k, sources))
    ensures var claimed := Apply(scan, st, ClaimInline(r, k, sources));
      var st' := Started(st, r, Render(Inline(sources), k, Claimed), st.inlineClaims[k := sources], st.revalidating);
      && Enabled(scan, claimed, ReadGeneration(r)) && Apply(scan, claimed, ReadGeneration(r)) == st' && ClaimsOwned(st')
      && forall o :: o in st.renders && st.renders[o].kind.Inline? ==> st.renders[o].key != k
  {
    InlineClaimed(scan, st, r, k, sources);
    OwnershipKept(scan, st, ClaimInline(r, k, sources));
    ClaimThenRead(scan, st, r, Render(Inline(sources), k, Claimed), st.inlineClaims[k := sources], st.revalidating);
    LeaderOf(st, k);
    hide Apply, Enabled, ClaimsOwned, Started;
    OwnershipKept(scan, Apply(scan, st, ClaimInline(r, k, sources)), ReadGeneration(r));
  }

  lemma InlineClaimed(scan: Scan, st: State, r: TaskId, k: Key, sources: set<SourceId>)
    requires Fresh(st, r) && k !in st.inlineClaims
    ensures Enabled(scan, st, ClaimInline(r, k, sources))
    ensures Apply(scan, st, ClaimInline(r, k, sources)) ==
            st.(inlineClaims := st.inlineClaims[k := sources], revalidating := st.revalidating,
                renders := st.renders[r := Render(Inline(sources), k, Claimed)])
  {}

  // ---------------------------------------------------------------- agreement with the protocol

  /** The steps of an invalidation that nothing interrupts. */
  function Drain(i: TaskId, n: nat): seq<Step> {
    if n == 0 then [EndInvalidation(i)] else [Bump(i), Remove(i)] + Drain(i, n - 1)
  }

  /** The first listed key bumped and removed. */
  function Removed(st: State, i: TaskId): State
    requires i in st.invals && st.invals[i].Removing? && st.invals[i].todo != []
  {
    var k := st.invals[i].todo[0];
    st.(generations := st.generations[k := st.Generation(k) + 1], processed := st.processed - {k},
        invals := st.invals[i := Removing(st.invals[i].todo[1..], false)])
  }

  lemma OneRemoval(scan: Scan, st: State, i: TaskId)
    requires i in st.invals && st.invals[i].Removing? && st.invals[i].todo != [] && !st.invals[i].bumped
    ensures Enabled(scan, st, Bump(i)) && Enabled(scan, Apply(scan, st, Bump(i)), Remove(i))
    ensures Apply(scan, Apply(scan, st, Bump(i)), Remove(i)) == Removed(st, i)
  {
    var mid := Apply(scan, st, Bump(i));
    assert mid.invals[i := Removing(st.invals[i].todo[1..], false)]
        == st.invals[i := Removing(st.invals[i].todo[1..], false)];
  }

  lemma TwoSteps(scan: Scan, st: State, a: Step, b: Step, rest: seq<Step>)
    requires Enabled(scan, st, a) && Enabled(scan, Apply(scan, st, a), b)
    requires Legal(scan, Apply(scan, Apply(scan, st, a), b), rest)
    ensures Legal(scan, st, [a, b] + rest)
    ensures Exec(scan, st, [a, b] + rest) == Exec(scan, Apply(scan, Apply(scan, st, a), b), rest)
  {
    var steps := [a, b] + rest;
    assert steps[1..][0] == b && steps[1..][1..] == rest;
    assert Legal(scan, Apply(scan, st, a), steps[1..]);
  }

  /** `todo` has been bumped and removed key by key. */
  ghost predicate Dropped(st: State, end: State, i: TaskId, todo: seq<Key>) {
    && end.processed == st.processed - KeysOf(todo)
    && (forall k :: end.Generation(k) == st.Generation(k) + multiset(todo)[k])
    && end == st.(processed := end.processed, generations := end.generations, invals := st.invals - {i})
  }

  lemma DroppedFirst(st: State, next: State, end: State, i: TaskId, todo: seq<Key>)
    requires i in st.invals && st.invals[i].Removing? && st.invals[i].todo == todo != []
    requires next == Removed(st, i) && Dropped(next, end, i, todo[1..])
    ensures Dropped(st, end, i, todo)
  {
    assert todo == [todo[0]] + todo[1..];
    assert KeysOf(todo) == {todo[0]} + KeysOf(todo[1..]);
    assert next.invals - {i} == st.invals - {i};
  }

  /** Uninterrupted, the protocol's invalidation has the effect of the cache layer's loop:
      listed keys lose their entry and are bumped once per occurrence. */
  lemma {:induction false} DrainAgreesWithLoop(scan: Scan, st: State, i: TaskId)
    requires i in st.invals && st.invals[i].Removing? && !st.invals[i].bumped
    ensures Legal(scan, st, Drain(i, |st.invals[i].todo|))
    ensures Dropped(st, Exec(scan, st, Drain(i, |st.invals[i].todo|)), i, st.invals[i].todo)
    decreases |st.invals[i].todo|
  {
    hide Dropped, Apply, Enabled, Legal, Exec;
    if st.invals[i].todo == [] {
      DrainOfNothing(scan, st, i);
    } else {
      DrainAgreesWithLoop(scan, Removed(st, i), i);
      DrainOneMore(scan, st, i);
    }
  }

  lemma DrainOneMore(scan: Scan, st: State, i: TaskId)
    requires i in st.invals && st.invals[i].Removing? && !st.invals[i].bumped && st.invals[i].todo != []
    requires var rest := Drain(i, |st.invals[i].todo| - 1);
      Legal(scan, Removed(st, i), rest) && Dropped(Removed(st, i), Exec(scan, Removed(st, i), rest), i, st.invals[i].todo[1..])
    ensures Legal(scan, st, Drain(i, |st.invals[i].todo|))
    ensures Dropped(st, Exec(scan, st, Drain(i, |st.invals[i].todo|)), i, st.invals[i].todo)
  {
    hide Dropped, Apply, Enabled, Legal, Exec, Removed;
    var todo := st.invals[i].todo;
    OneRemoval(scan, st, i);
    TwoSteps(scan, st, Bump(i), Remove(i), Drain(i, |todo| - 1));
    DroppedFirst(st, Removed(st, i), Exec(scan, Removed(st, i), Drain(i, |todo| - 1)), i, todo);
  }

  lemma DrainOfNothing(scan: Scan, st: State, i: TaskId)
    requires i in st.invals && st.invals[i].Removing? && st.invals[i].todo == []
    ensures Legal(scan, st, Drain(i, 0))
    ensures Dropped(st, Exec(scan, st, Drain(i, 0)), i, [])
  {
    var steps := Drain(i, 0);
    assert Enabled(scan, st, steps[0]) && steps[1..] == [];
    assert st.processed - KeysOf([]) == st.processed;
  }

  /** The steps of a whole invalidation that nothing interrupts. */
  function Invalidation(scan: Scan, i: TaskId, todo: seq<Key>): seq<Step> {
    (if scan == Atomic then [ScanAll(i, todo)] else [ScanFirst(i), ScanSecond(i, todo)]) + Drain(i, |todo|)
  }

  lemma AllListed(st: State, s: SourceId, todo: seq<Key>)
    requires forall k :: k in KeysOf(todo) <==>
               (k in st.processed && s in st.processed[k].names) || (k in st.inlineClaims && s in st.inlineClaims[k])
    ensures Lists(todo, EntriesNaming(st, s) + ClaimsNaming(st, s))
  {
    assert forall k :: k in todo <==> k in KeysOf(todo);
  }

  lemma ScanStops(scan: Scan, st: State, i: TaskId, todo: seq<Key>, rest: seq<Step>)
    requires i in st.invals && st.invals[i].Pending?
    requires Lists(todo, EntriesNaming(st, st.invals[i].source) + ClaimsNaming(st, st.invals[i].source))
    requires Legal(scan, st.(invals := st.invals[i := Removing(todo, false)]), rest)
    ensures var scanned := st.(invals := st.invals[i := Removing(todo, false)]);
      var run := (if scan == Atomic then [ScanAll(i, todo)] else [ScanFirst(i), ScanSecond(i, todo)]) + rest;
      Legal(scan, st, run) && Exec(scan, st, run) == Exec(scan, scanned, rest)
  {
    var scanned := st.(invals := st.invals[i := Removing(todo, false)]);
    if scan == Atomic {
      OneStep(scan, st, ScanAll(i, todo), rest);
    } else {
      TwoAccesses(scan, st, i, todo);
      hide Enabled, Apply, Lists;
      TwoSteps(scan, st, ScanFirst(i), ScanSecond(i, todo), rest);
    }
  }

  lemma OneStep(scan: Scan, st: State, a: Step, rest: seq<Step>)
    requires Enabled(scan, st, a) && Legal(scan, Apply(scan, st, a), rest)
    ensures Legal(scan, st, [a] + rest) && Exec(scan, st, [a] + rest) == Exec(scan, Apply(scan, st, a), rest)
  {
    assert ([a] + rest)[1..] == rest;
  }

  /** With nothing in between, two accesses see what one would. */
  lemma TwoAccesses(scan: Scan, st: State, i: TaskId, todo: seq<Key>)
    requires scan != Atomic && i in st.invals && st.invals[i].Pending?
    requires Lists(todo, EntriesNaming(st, st.invals[i].source) + ClaimsNaming(st, st.invals[i].source))
    ensures Enabled(scan, st, ScanFirst(i)) && Enabled(scan, Apply(scan, st, ScanFirst(i)), ScanSecond(i, todo))
    ensures Apply(scan, Apply(scan, st, ScanFirst(i)), ScanSecond(i, todo)) == st.(invals := st.invals[i := Removing(todo, false)])
  {
    var mid := Apply(scan, st, ScanFirst(i));
    assert EntriesNaming(mid, st.invals[i].source) == EntriesNaming(st, st.invals[i].source);
    assert ClaimsNaming(mid, st.invals[i].source) == ClaimsNaming(st, st.invals[i].source);
    assert mid.invals[i := Removing(todo, false)] == st.invals[i := Removing(todo, false)];
  }

  /** An uninterrupted invalidation: a legal run that ends it, removes what its scan found, bumps
      once per occurrence, and keeps coherence. */
  lemma RunOfInvalidation(scan: Scan, st: State, i: TaskId, todo: seq<Key>)
    requires i in st.invals && st.invals[i].Pending?
    requires Lists(todo, EntriesNaming(st, st.invals[i].source) + ClaimsNaming(st, st.invals[i].source))
    ensures Legal(scan, st, Invalidation(scan, i, todo))
    ensures var end := Exec(scan, st, Invalidation(scan, i, todo));
      && end.processed == st.processed - KeysOf(todo)
      && (forall k :: end.Generation(k) == st.Generation(k) + multiset(todo)[k])
      && end.revalidating == st.revalidating && end.inlineClaims == st.inlineClaims && i !in end.invals
      && (Coherent(scan, st) ==> Coherent(scan, end))
  {
    var scanned := st.(invals := st.invals[i := Removing(todo, false)]);
    hide Legal, Exec, Enabled, Apply, Lists, EntriesNaming, ClaimsNaming, Coherent, KeysOf, MeetsRun;
    DrainAgreesWithLoop(scan, scanned, i);
    ScanStops(scan, st, i, todo, Drain(i, |todo|));
    WorkIsDisciplined(scan, st, Invalidation(scan, i, todo));
    if Coherent(scan, st) {
      CoherentRun(scan, st, Invalidation(scan, i, todo));
    }
  }

  /** Steps no obligation speaks about. */
  predicate Works(step: Step) {
    step.ScanAll? || step.ScanFirst? || step.ScanSecond? || step.Bump? || step.Remove? || step.EndInvalidation?
  }

  lemma {:induction false} DrainWorks(i: TaskId, n: nat)
    ensures forall step :: step in Drain(i, n) ==> Works(step)
  {
    if n > 0 {
      DrainWorks(i, n - 1);
    }
  }

  lemma {:induction false} WorkMeetsAll(scan: Scan, st: State, steps: seq<Step>)
    requires Legal(scan, st, steps) && forall step :: step in steps ==> Works(step)
    ensures MeetsRun(scan, st, steps, Needed(scan))
    decreases |steps|
  {
    if steps != [] {
      assert Works(steps[0]);
      hide Apply, Enabled;
      WorkMeetsAll(scan, Apply(scan, st, steps[0]), steps[1..]);
    }
  }

  lemma WorkIsDisciplined(scan: Scan, st: State, steps: seq<Step>)
    requires Legal(scan, st, steps) && exists i, todo :: steps == Invalidation(scan, i, todo)
    ensures MeetsRun(scan, st, steps, Needed(scan))
  {
    var i, todo :| steps == Invalidation(scan, i, todo);
    DrainWorks(i, |todo|);
    WorkMeetsAll(scan, st, steps);
  }
}

/** Why the read-modify-write of a generation runs under a lock. */
module BumpLock {
  import opened ClaimSets
  import opened CacheProtocol
  import opened Prelude

  /** Tasks bumping generations.  `local` is the value a task has computed and not yet written;
      `completed` counts finished bumps per key. */
  datatype Bumpers = Bumpers(
    generations: map<Key, nat>,
    holder: Option<TaskId>,
    local: map<TaskId, (Key, nat)>,
    completed: map<Key, nat>)

  datatype Action = Acquire(task: TaskId) | ReadNext(task: TaskId, key: Key) | Write(task: TaskId) | Unlock(task: TaskId)

  function Count(m: map<Key, nat>, k: Key): nat { if k in m then m[k] else 0 }

  /** With `locked`, only the holder may read or write, and it leaves nothing half done. */
  predicate CanAct(locked: bool, b: Bumpers, a: Action) {
    match a
    case Acquire(t) => b.holder.None?
    case ReadNext(t, k) => t !in b.local && (locked ==> b.holder == Some(t))
    case Write(t) => t in b.local && (locked ==> b.holder == Some(t))
    case Unlock(t) => b.holder == Some(t) && t !in b.local
  }

  function Act(b: Bumpers, a: Action): Bumpers {
    match a
    case Acquire(t) => b.(holder := Some(t))
    case ReadNext(t, k) => b.(local := b.local[t := (k, Count(b.generations, k) + 1)])
    case Write(t) =>
      if t !in b.local then b else
      var (k, v) := b.local[t];
      b.(generations := b.generations[k := v], completed := b.completed[k := Count(b.completed, k) + 1],
         local := b.local - {t})
    case Unlock(t) => b.(holder := None)
  }

  predicate Possible(locked: bool, b: Bumpers, run: seq<Action>)
    decreases |run|
  {
    run == [] || (CanAct(locked, b, run[0]) && Possible(locked, Act(b, run[0]), run[1..]))
  }

  function After(b: Bumpers, run: seq<Action>): Bumpers
    decreases |run|
  {
    if run == [] then b else After(Act(b, run[0]), run[1..])
  }

  ghost predicate Exact(b: Bumpers) {
    && (forall k :: Count(b.generations, k) == Count(b.completed, k))
    && (forall t :: t in b.local ==>
          b.holder == Some(t) && b.local[t].1 == Count(b.generations, b.local[t].0) + 1)
  }

  /** Under the lock no bump is lost: whatever interleaving of whatever bumpers, every key's
      generation is the number of its completed bumps. */
  lemma {:induction false} LockedBumpsAllCount(b: Bumpers, run: seq<Action>)
    requires Exact(b) && Possible(true, b, run)
    ensures Exact(After(b, run))
    decreases |run|
  {
    if run != [] {
      LockedStep(b, run[0]);
      LockedBumpsAllCount(Act(b, run[0]), run[1..]);
    }
  }

  lemma LockedStep(b: Bumpers, a: Action)
    requires Exact(b) && CanAct(true, b, a)
    ensures Exact(Act(b, a))
  {
    match a
    case Acquire(t) =>
    case Unlock(t) =>
    case ReadNext(t, k) => LockedRead(b, t, k);
    case Write(t) => LockedWrite(b, t);
  }

  lemma LockedRead(b: Bumpers, t: TaskId, k: Key)
    requires Exact(b) && CanAct(true, b, ReadNext(t, k))
    ensures Exact(Act(b, ReadNext(t, k)))
  {
    var b' := Act(b, ReadNext(t, k));
    assert b'.local == b.local[t := (k, Count(b.generations, k) + 1)];
  }

  lemma LockedWrite(b: Bumpers, t: TaskId)
    requires Exact(b) && CanAct(true, b, Write(t))
    ensures Exact(Act(b, Write(t)))
  {
    var b' := Act(b, Write(t));
    var (k, v) := b.local[t];
    assert b'.generations == b.generations[k := v] && b'.local == b.local - {t};
    assert b'.completed == b.completed[k := Count(b.completed, k) + 1];
    assert v == Count(b.generations, k) + 1;
    forall x ensures Count(b'.generations, x) == Count(b'.completed, x) {
      assert Count(b.generations, x) == Count(b.completed, x);
    }
    assert forall o :: o in b.local ==> o == t;
  }

  /** Without it two bumps of one key can raise its generation by one. */
  lemma UnlockedBumpIsLost(k: Key)
    ensures exists run ::
      var b := Bumpers(map[], None, map[], map[]);
      Possible(false, b, run) && Count(After(b, run).completed, k) == 2 && Count(After(b, run).generations, k) == 1
  {
    var b := Bumpers(map[], None, map[], map[]);
    var r3 := [Write(1)];
    var r2 := [Write(0)] + r3;
    var r1 := [ReadNext(1, k)] + r2;
    var r0 := [ReadNext(0, k)] + r1;
    assert r0[1..] == r1 && r1[1..] == r2 && r2[1..] == r3 && r3[1..] == [];
    var b1 := Act(b, r0[0]);
    var b2 := Act(b1, r1[0]);
    var b3 := Act(b2, r2[0]);
    assert b2.local == map[0 := (k, 1), 1 := (k, 1)];
    assert Possible(false, b3, r3);
    assert After(b, r0) == After(b1, r1) == After(b2, r2) == After(b3, r3) == Act(b3, r3[0]);
    assert Possible(false, b2, r2) && Possible(false, b1, r1) && Possible(false, b, r0);
    assert Count(After(b, r0).completed, k) == 2;
  }
}
