/** The editor: reading and changing the document in place, and sessions on the file. */
module ConfigEditor {
  import opened Prelude
  import opened ClaimSets
  import opened ConfigTree

  datatype Verdict = Done | InvalidKey | UnknownSection

  /** What a call of `set` makes of the document. */
  function Edited(doc: Item, dotted: string, value: Item): (r: Item)
    requires doc.Table?
    ensures r.Table?
  {
    if "" in Split(dotted) then doc
    else
      var after := Put(doc, Split(dotted), value);
      if after.Some? then after.value else doc
  }

  class EditableConfig {
    var doc: Item

    constructor (doc: Item)
      requires doc.Table?
      ensures this.doc == doc
    {
      this.doc := doc;
    }

    /** Walks down segment by segment, through sections and inline tables alike. */
    method Get(dotted: string) returns (found: Option<Item>)
      ensures found == Lookup(doc, Split(dotted))
    {
      var segments := Split(dotted);
      var current := doc;
      assert segments[0..] == segments;
      for i := 0 to |segments|
        invariant Lookup(doc, segments) == Lookup(current, segments[i..])
      {
        assert segments[i..][1..] == segments[i + 1..];
        var next := Child(current, segments[i]);
        if next.None? {
          return None;
        }
        current := next.value;
      }
      found := Some(current);
    }

    /** Creates missing sections on the way down, then writes the leaf.  A blocked or malformed
        path leaves the whole document as it was, although sections are created before the rest
        of the path is looked at. */
    method Set(dotted: string, value: Item) returns (verdict: Verdict)
      requires doc.Table?
      modifies this
      ensures doc.Table? && doc == Edited(old(doc), dotted, value)
      ensures verdict == InvalidKey <==> Malformed(dotted)
      ensures verdict == UnknownSection <==> !Malformed(dotted) && exists k :: BlockedAt(old(doc), Split(dotted), k)
      ensures verdict != Done ==> doc == old(doc)
      ensures verdict == Done ==> Lookup(doc, Split(dotted)) == Some(value)
    {
      ShapeMeansSegments(dotted);
      var segments := Split(dotted);
      if "" in segments {
        return InvalidKey;
      }
      PutFailsIffBlocked(doc, segments, value);
      var current := doc;
      var i := 0;
      assert segments[..0] == [];
      while i < |segments| - 1
        invariant 0 <= i < |segments| && doc.Table? && current.Table?
        invariant Clear(doc, segments, i) && Lookup(doc, segments[..i]) == Some(current)
        invariant Put(doc, segments, value) == Put(old(doc), segments, value)
        invariant doc == old(doc) || current.entries == map[]
      {
        hide Lookup, Put;
        LookupStep(doc, segments, i);
        if segments[i] !in current.entries {
          ClearPutWorks(doc, segments, i, Table(map[]));
          ScaffoldingIsNeutral(doc, segments, i + 1, value);
          doc := Put(doc, segments[..i + 1], Table(map[])).value;
          current := Table(map[]);
        } else if current.entries[segments[i]].Table? {
          current := current.entries[segments[i]];
          ClearNext(doc, segments, i);
        } else {
          assert BlockedAt(doc, segments, i + 1);
          return UnknownSection;
        }
        i := i + 1;
      }
      ClearPutWorks(doc, segments, |segments| - 1, value);
      assert segments[..|segments|] == segments;
      doc := Put(doc, segments, value).value;
      LookupAfterPut(old(doc), segments, value, segments);
      verdict := Done;
    }
  }

  /** The first `n` proper prefixes of the path lead to sections. */
  ghost predicate Clear(doc: Item, path: Path, n: nat)
    requires n <= |path|
  {
    forall k :: 0 <= k <= n ==> Lookup(doc, path[..k]).Some? && Lookup(doc, path[..k]).value.Table?
  }

  lemma {:induction false} LookupStep(doc: Item, path: Path, i: nat)
    requires i < |path| && Lookup(doc, path[..i]).Some?
    ensures Lookup(doc, path[..i + 1]) == Child(Lookup(doc, path[..i]).value, path[i])
    decreases i
  {
    if i == 0 {
      assert path[..1][1..] == [];
    } else {
      assert path[..i][1..] == path[1..][..i - 1];
      LookupStep(Child(doc, path[0]).value, path[1..], i - 1);
      assert path[..i + 1][1..] == path[1..][..i];
    }
  }

  lemma ClearNext(doc: Item, path: Path, i: nat)
    requires i < |path| && Clear(doc, path, i)
    requires Lookup(doc, path[..i + 1]).Some? && Lookup(doc, path[..i + 1]).value.Table?
    ensures Clear(doc, path, i + 1)
  {}

  lemma ClearPutWorks(doc: Item, path: Path, i: nat, value: Item)
    requires doc.Table? && i < |path| && Clear(doc, path, i)
    ensures Put(doc, path[..i + 1], value).Some?
    ensures forall k :: 0 <= k <= i ==>
              var at := Lookup(Put(doc, path[..i + 1], value).value, path[..k]); at.Some? && at.value.Table?
    ensures Lookup(Put(doc, path[..i + 1], value).value, path[..i + 1]) == Some(value)
    ensures value.Table? ==> Clear(Put(doc, path[..i + 1], value).value, path, i + 1)
  {
    var short := path[..i + 1];
    PutFailsIffBlocked(doc, short, value);
    forall k | 0 < k < |short| ensures !BlockedAt(doc, short, k) {
      assert short[..k] == path[..k];
    }
    LookupAfterPut(doc, short, value, short);
    assert short[|short|..] == [];
    forall k | 0 <= k <= i
      ensures Lookup(Put(doc, short, value).value, path[..k]).Some?
      ensures Lookup(Put(doc, short, value).value, path[..k]).value.Table?
    {
      SectionsAbove(doc, short, value, k);
      assert short[..k] == path[..k];
    }
  }

  // ---------------------------------------------------------------- sessions

  type Document = doc: Item | doc.Table? witness Table(map[])

  datatype Edit = Edit(dotted: string, value: Item)

  function ApplyAll(doc: Document, edits: seq<Edit>): Document {
    if edits == [] then doc
    else
      var last := edits[|edits| - 1];
      Edited(ApplyAll(doc, edits[..|edits| - 1]), last.dotted, last.value)
  }

  /** The file and the documents of the handles between their load and their drop. */
  datatype State = State(file: Document, open: map<TaskId, Document>)

  datatype Step =
    | Load(id: TaskId)
    | Change(id: TaskId, edit: Edit)
    | Save(id: TaskId, ok: bool)
    | Drop(id: TaskId)

  /** With the lock a load waits until no other handle is open. */
  predicate Enabled(locked: bool, s: State, step: Step) {
    match step
    case Load(id) => id !in s.open && (locked ==> s.open == map[])
    case Change(id, _) => id in s.open
    case Save(id, _) => id in s.open
    case Drop(id) => id in s.open
  }

  function Apply(s: State, step: Step): State {
    if !Enabled(false, s, step) then s
    else match step
      case Load(id) => s.(open := s.open[id := s.file])
      case Change(id, e) => s.(open := s.open[id := Edited(s.open[id], e.dotted, e.value)])
      case Save(id, ok) => if ok then s.(file := s.open[id]) else s
      case Drop(id) => s.(open := s.open - {id})
  }

  function Exec(s: State, steps: seq<Step>): State
    decreases |steps|
  {
    if steps == [] then s else Exec(Apply(s, steps[0]), steps[1..])
  }

  predicate Legal(locked: bool, s: State, steps: seq<Step>)
    decreases |steps|
  {
    steps != [] ==> Enabled(locked, s, steps[0]) && Legal(locked, Apply(s, steps[0]), steps[1..])
  }

  function Start(file: Document): State { State(file, map[]) }

  // ---------------------------------------------------------------- what the users saved

  /** The edits of the session `id` up to its last successful save, read off the steps that follow
      its load: `pending` are its edits so far, `saved` those of its last save so far. */
  function SavedBy(id: TaskId, steps: seq<Step>, pending: seq<Edit>, saved: seq<Edit>): seq<Edit>
    decreases |steps|
  {
    if steps == [] then saved
    else
      var step := steps[0];
      if step == Drop(id) then saved
      else SavedBy(id, steps[1..],
                   if step.Change? && step.id == id then pending + [step.edit] else pending,
                   if step == Save(id, true) then pending else saved)
  }

  /** The saved edits of all sessions, in the order of their loads.  This looks at the steps
      alone, not at any document. */
  function SavedEdits(steps: seq<Step>): seq<Edit>
    decreases |steps|
  {
    if steps == [] then []
    else (if steps[0].Load? then SavedBy(steps[0].id, steps[1..], [], []) else []) + SavedEdits(steps[1..])
  }

  lemma ApplyAllSnoc(doc: Document, edits: seq<Edit>, e: Edit)
    ensures ApplyAll(doc, edits + [e]) == Edited(ApplyAll(doc, edits), e.dotted, e.value)
  {
    assert (edits + [e])[..|edits|] == edits;
  }

  lemma {:induction false} ApplyAllConcat(doc: Document, a: seq<Edit>, b: seq<Edit>)
    ensures ApplyAll(doc, a + b) == ApplyAll(ApplyAll(doc, a), b)
  {
    if b == [] {
      assert a + b == a;
    } else {
      var front, last := b[..|b| - 1], b[|b| - 1];
      assert a + b == (a + front) + [last];
      ApplyAllSnoc(doc, a + front, last);
      ApplyAllConcat(doc, a, front);
    }
  }

  /** One handle open, loaded when the file was `base`. */
  ghost predicate OneOpen(s: State, id: TaskId, base: Document, pending: seq<Edit>, saved: seq<Edit>) {
    s == State(ApplyAll(base, saved), map[id := ApplyAll(base, pending)])
  }

  function PendingAfter(step: Step, pending: seq<Edit>): seq<Edit> {
    if step.Change? then pending + [step.edit] else pending
  }

  function SavedAfter(step: Step, pending: seq<Edit>, saved: seq<Edit>): seq<Edit> {
    if step.Save? && step.ok then pending else saved
  }

  lemma OpenStep(s: State, id: TaskId, step: Step, base: Document, pending: seq<Edit>, saved: seq<Edit>)
    requires OneOpen(s, id, base, pending, saved) && Enabled(true, s, step)
    ensures step.id == id && !step.Load?
    ensures step.Drop? ==> Apply(s, step) == State(ApplyAll(base, saved), map[])
    ensures !step.Drop? ==> OneOpen(Apply(s, step), id, base, PendingAfter(step, pending), SavedAfter(step, pending, saved))
  {
    assert s.open != map[] by { assert id in s.open; }
    if step.Change? {
      ApplyAllSnoc(base, pending, step.edit);
    }
  }

  lemma FirstStep(s: State, id: TaskId, steps: seq<Step>, pending: seq<Edit>, saved: seq<Edit>)
    requires steps != [] && Legal(true, s, steps) && steps[0].id == id && !steps[0].Load?
    ensures Enabled(true, s, steps[0]) && Legal(true, Apply(s, steps[0]), steps[1..])
    ensures Exec(s, steps) == Exec(Apply(s, steps[0]), steps[1..])
    ensures SavedEdits(steps) == SavedEdits(steps[1..])
    ensures SavedBy(id, steps, pending, saved) ==
            if steps[0].Drop? then saved
            else SavedBy(id, steps[1..], PendingAfter(steps[0], pending), SavedAfter(steps[0], pending, saved))
  {
    assert [] + SavedEdits(steps[1..]) == SavedEdits(steps[1..]);
  }

  lemma {:induction false} OpenRun(s: State, id: TaskId, steps: seq<Step>, base: Document, pending: seq<Edit>, saved: seq<Edit>)
    requires OneOpen(s, id, base, pending, saved) && Legal(true, s, steps)
    ensures Exec(s, steps).file == ApplyAll(base, SavedBy(id, steps, pending, saved) + SavedEdits(steps))
    decreases |steps|
  {
    if steps == [] {
      assert saved + [] == saved;
    } else {
      var step, rest := steps[0], steps[1..];
      OpenStep(s, id, step, base, pending, saved);
      FirstStep(s, id, steps, pending, saved);
      hide *;
      if step.Drop? {
        ClosedRun(Apply(s, step), rest);
        ApplyAllConcat(base, saved, SavedEdits(rest));
      } else {
        OpenRun(Apply(s, step), id, rest, base, PendingAfter(step, pending), SavedAfter(step, pending, saved));
      }
    }
  }

  /** No handle open. */
  lemma {:induction false} ClosedRun(s: State, steps: seq<Step>)
    requires s.open == map[] && Legal(true, s, steps)
    ensures Exec(s, steps).file == ApplyAll(s.file, SavedEdits(steps))
    decreases |steps|
  {
    if steps != [] {
      var id := steps[0].id;
      assert Apply(s, steps[0]) == State(s.file, map[id := s.file]);
      OpenRun(Apply(s, steps[0]), id, steps[1..], s.file, [], []);
    }
  }

  /** No saved edit is lost: however sessions that hold the lock interleave, the file is what the
      edits they saved, session by session in lock order, make of the original. */
  lemma LockedSessionsAreSerial(file0: Document, steps: seq<Step>)
    requires Legal(true, Start(file0), steps)
    ensures Exec(Start(file0), steps).file == ApplyAll(file0, SavedEdits(steps))
  {
    ClosedRun(Start(file0), steps);
  }

  // ---------------------------------------------------------------- without the lock

  /** Two handles on one file, as they would be without the lock. */
  function Overlapping(a: Edit, b: Edit): seq<Step> {
    [Load(0)] + ([Load(1)] + ([Change(0, a)] + ([Change(1, b)] + ([Save(0, true)] + ([Save(1, true)] + ([Drop(0)] + [Drop(1)]))))))
  }

  lemma Unfold(locked: bool, s: State, step: Step, rest: seq<Step>)
    ensures Legal(locked, s, [step] + rest) <==> Enabled(locked, s, step) && Legal(locked, Apply(s, step), rest)
    ensures Exec(s, [step] + rest) == Exec(Apply(s, step), rest)
    ensures SavedEdits([step] + rest) == (if step.Load? then SavedBy(step.id, rest, [], []) else []) + SavedEdits(rest)
  {
    assert ([step] + rest)[1..] == rest;
  }

  lemma UnfoldSaved(id: TaskId, step: Step, rest: seq<Step>, p: seq<Edit>, q: seq<Edit>)
    ensures SavedBy(id, [step] + rest, p, q) ==
            if step == Drop(id) then q
            else SavedBy(id, rest, if step.Change? && step.id == id then p + [step.edit] else p,
                         if step == Save(id, true) then p else q)
  {
    assert ([step] + rest)[1..] == rest;
  }

  lemma OverlappingStates(file0: Document, a: Edit, b: Edit)
    ensures var x, y := Edited(file0, a.dotted, a.value), Edited(file0, b.dotted, b.value);
      var s0, s1, s2, s3 := Start(file0), State(file0, map[0 := file0]), State(file0, map[0 := file0, 1 := file0]),
                            State(file0, map[0 := x, 1 := file0]);
      && Enabled(false, s0, Load(0)) && Apply(s0, Load(0)) == s1
      && Enabled(false, s1, Load(1)) && Apply(s1, Load(1)) == s2
      && Enabled(false, s2, Change(0, a)) && Apply(s2, Change(0, a)) == s3
      && Enabled(false, s3, Change(1, b)) && Apply(s3, Change(1, b)) == State(file0, map[0 := x, 1 := y])
  {
    hide Edited;
  }

  lemma UnfoldOverlapping(file0: Document, a: Edit, b: Edit)
    ensures var s4 := State(file0, map[0 := Edited(file0, a.dotted, a.value), 1 := Edited(file0, b.dotted, b.value)]);
      var tail := [Save(0, true)] + ([Save(1, true)] + ([Drop(0)] + [Drop(1)]));
      && (Legal(false, Start(file0), Overlapping(a, b)) <==> Legal(false, s4, tail))
      && Exec(Start(file0), Overlapping(a, b)) == Exec(s4, tail)
      && SavedEdits(Overlapping(a, b)) == SavedBy(0, tail, [a], []) + (SavedBy(1, tail, [b], []) + SavedEdits(tail))
  {
    var t4 := [Save(0, true)] + ([Save(1, true)] + ([Drop(0)] + [Drop(1)]));
    var t3 := [Change(1, b)] + t4;
    var t2 := [Change(0, a)] + t3;
    var t1 := [Load(1)] + t2;
    var s0 := Start(file0);
    var s1 := State(file0, map[0 := file0]);
    var s2 := State(file0, map[0 := file0, 1 := file0]);
    var s3 := State(file0, map[0 := Edited(file0, a.dotted, a.value), 1 := file0]);
    OverlappingStates(file0, a, b);
    hide Legal, Exec, SavedBy, SavedEdits, Edited, Apply, Enabled;
    Unfold(false, s0, Load(0), t1);
    Unfold(false, s1, Load(1), t2);
    Unfold(false, s2, Change(0, a), t3);
    Unfold(false, s3, Change(1, b), t4);
    UnfoldSaved(0, Load(1), t2, [], []);
    UnfoldSaved(0, Change(0, a), t3, [], []);
    UnfoldSaved(0, Change(1, b), t4, [a], []);
    UnfoldSaved(1, Change(0, a), t3, [], []);
    UnfoldSaved(1, Change(1, b), t4, [], []);
    assert [] + [a] == [a] && [] + [b] == [b];
    assert [] + SavedEdits(t3) == SavedEdits(t3) && [] + SavedEdits(t4) == SavedEdits(t4);
  }

  lemma UnfoldSaves(s: State)
    requires s.open.Keys == {0, 1}
    ensures var tail := [Save(0, true)] + ([Save(1, true)] + ([Drop(0)] + [Drop(1)]));
      && Legal(false, s, tail) && Exec(s, tail).file == s.open[1] && SavedEdits(tail) == []
  {
    var t1, t2, t3 := [Save(1, true)] + ([Drop(0)] + [Drop(1)]), [Drop(0)] + [Drop(1)], [Drop(1)];
    var s1 := s.(file := s.open[0]);
    var s2 := s.(file := s.open[1]);
    var s3 := s2.(open := s2.open - {0});
    assert t3 == [Drop(1)] + [];
    Unfold(false, s, Save(0, true), t1);
    Unfold(false, s1, Save(1, true), t2);
    Unfold(false, s2, Drop(0), t3);
    Unfold(false, s3, Drop(1), []);
    assert SavedEdits(t3) == [] && SavedEdits(t2) == [] && SavedEdits(t1) == [];
  }

  lemma UnfoldSavedTwice(a: Edit)
    ensures var tail := [Save(0, true)] + ([Save(1, true)] + ([Drop(0)] + [Drop(1)]));
      SavedBy(0, tail, [a], []) == [a] && SavedBy(1, tail, [a], []) == [a]
  {
    var t1, t2, t3 := [Save(1, true)] + ([Drop(0)] + [Drop(1)]), [Drop(0)] + [Drop(1)], [Drop(1)];
    assert t3 == [Drop(1)] + [];
    UnfoldSaved(0, Save(0, true), t1, [a], []);
    UnfoldSaved(0, Save(1, true), t2, [a], [a]);
    UnfoldSaved(0, Drop(0), t3, [a], [a]);
    UnfoldSaved(1, Save(0, true), t1, [a], []);
    UnfoldSaved(1, Save(1, true), t2, [a], []);
    UnfoldSaved(1, Drop(0), t3, [a], [a]);
    UnfoldSaved(1, Drop(1), [], [a], [a]);
  }

  /** Without the lock the second save throws the first one's edit away, for any two edits: both
      were saved, and the file shows the second alone. */
  lemma UnlockedSaveLosesAnEdit(file0: Document, a: Edit, b: Edit)
    ensures Legal(false, Start(file0), Overlapping(a, b))
    ensures SavedEdits(Overlapping(a, b)) == [a, b]
    ensures Exec(Start(file0), Overlapping(a, b)).file == Edited(file0, b.dotted, b.value)
  {
    UnfoldOverlapping(file0, a, b);
    UnfoldSaves(State(file0, map[0 := Edited(file0, a.dotted, a.value), 1 := Edited(file0, b.dotted, b.value)]));
    UnfoldSavedTwice(a);
    UnfoldSavedTwice(b);
    assert [a] + ([b] + []) == [a, b];
  }

  lemma TwoKeys()
    ensures Split("a") == ["a"] && Split("b") == ["b"]
  {
    SplitOne('a');
    SplitOne('b');
  }

  lemma SplitOne(c: char)
    requires c != '.'
    ensures Split([c]) == [[c]]
  {
    assert [c][1..] == [] && Split([]) == [[]];
    assert [c] + [] == [c] && [[c]] + [[]][1..] == [[c]];
  }

  /** The law of the sessions, for one run. */
  ghost predicate KeepsSavedEdits(file0: Document, steps: seq<Step>) {
    Exec(Start(file0), steps).file == ApplyAll(file0, SavedEdits(steps))
  }

  const EMPTY: Document := Table(map[])
  const A := Edit("a", Leaf("1"))
  const B := Edit("b", Leaf("2"))

  lemma BothEdits()
    ensures ApplyAll(EMPTY, [A, B]) == Table(map["a" := A.value, "b" := B.value])
    ensures Edited(EMPTY, "b", B.value) == Table(map["b" := B.value])
  {
    TwoKeys();
    assert Edited(EMPTY, "a", A.value) == Table(map["a" := A.value]);
    assert [] + [A] == [A] && [A] + [B] == [A, B];
    ApplyAllSnoc(EMPTY, [], A);
    ApplyAllSnoc(EMPTY, [A], B);
  }

  lemma OverlappingLosesA()
    ensures Legal(false, Start(EMPTY), Overlapping(A, B)) && !KeepsSavedEdits(EMPTY, Overlapping(A, B))
  {
    UnlockedSaveLosesAnEdit(EMPTY, A, B);
    BothEdits();
    hide Exec, Legal, SavedEdits, ApplyAll, Edited, Overlapping;
    assert "a" in map["a" := A.value, "b" := B.value] && "a" !in map["b" := B.value];
  }

  /** The lock is exactly what serializes: with it every run keeps every saved edit, without it
      some run does not. */
  lemma LockDecides(locked: bool)
    ensures (forall file0: Document, steps :: Legal(locked, Start(file0), steps) ==> KeepsSavedEdits(file0, steps)) <==> locked
  {
    if locked {
      forall file0: Document, steps | Legal(locked, Start(file0), steps) ensures KeepsSavedEdits(file0, steps) {
        LockedSessionsAreSerial(file0, steps);
      }
    } else {
      OverlappingLosesA();
      hide *;
    }
  }
}
