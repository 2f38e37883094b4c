/** The settings document as a tree, and the laws of reading and writing it by dotted path. */
module ConfigTree {
  import opened Prelude

  /** A `[section]`, an inline table, or anything else.  Reading goes through both kinds of
      table, writing only through sections. */
  datatype Item =
    | Table(entries: map<string, Item>)
    | Inline(entries: map<string, Item>)
    | Leaf(text: string)

  type Path = seq<string>

  function Entries(item: Item): Option<map<string, Item>> {
    match item
    case Table(entries) => Some(entries)
    case Inline(entries) => Some(entries)
    case Leaf(_) => None
  }

  /** One step down. */
  function Child(item: Item, key: string): Option<Item> {
    if Entries(item).Some? && key in Entries(item).value then Some(Entries(item).value[key]) else None
  }

  function Lookup(item: Item, path: Path): Option<Item> {
    if path == [] then Some(item)
    else if Child(item, path[0]).None? then None
    else Lookup(Child(item, path[0]).value, path[1..])
  }

  /** The table under `key` to continue in: the one there, or a fresh one. */
  function Enter(item: Item, key: string): Option<Item>
    requires item.Table?
    ensures Enter(item, key).Some? ==> Enter(item, key).value.Table?
  {
    if key !in item.entries then Some(Table(map[]))
    else if item.entries[key].Table? then Some(item.entries[key])
    else None
  }

  /** `None` when the way is blocked. */
  function Put(item: Item, path: Path, value: Item): (r: Option<Item>)
    requires item.Table? && path != []
    ensures r.Some? ==> r.value.Table?
    decreases |path|
  {
    if |path| == 1 then Some(Table(item.entries[path[0] := value]))
    else
      var below := Enter(item, path[0]);
      if below.None? then None
      else
        var changed := Put(below.value, path[1..], value);
        if changed.None? then None else Some(Table(item.entries[path[0] := changed.value]))
  }

  // ---------------------------------------------------------------- what a write changes

  /** A path stops at a present item that is not a section before its last segment. */
  ghost predicate BlockedAt(item: Item, path: Path, k: int) {
    0 < k < |path| && Lookup(item, path[..k]).Some? && !Lookup(item, path[..k]).value.Table?
  }

  /** A write goes through exactly when every present item on the way is a section. */
  lemma {:induction false} PutFailsIffBlocked(item: Item, path: Path, value: Item)
    requires item.Table? && path != []
    ensures Put(item, path, value).None? <==> exists k :: BlockedAt(item, path, k)
    decreases |path|
  {
    if |path| > 1 {
      var key, rest := path[0], path[1..];
      assert path[..1] == [key] && [key][1..] == [];
      assert Lookup(item, path[..1]) == Child(item, key);
      var below := Enter(item, key);
      if below.None? {
        assert BlockedAt(item, path, 1);
      } else {
        PutFailsIffBlocked(below.value, rest, value);
        forall k | 0 < k < |rest| ensures BlockedAt(below.value, rest, k) <==> BlockedAt(item, path, k + 1) {
          Deeper(item, path, k + 1);
          EmptyHoldsNothing(rest[..k]);
        }
        if k :| BlockedAt(below.value, rest, k) {
          assert BlockedAt(item, path, k + 1);
        }
        assert !BlockedAt(item, path, 1);
        if k :| BlockedAt(item, path, k) {
          assert BlockedAt(below.value, rest, k - 1);
        }
      }
    }
  }

  /** Whether a write goes through does not depend on what is written. */
  lemma SameFate(item: Item, path: Path, v: Item, w: Item)
    requires item.Table? && path != []
    ensures Put(item, path, v).Some? <==> Put(item, path, w).Some?
  {
    PutFailsIffBlocked(item, path, v);
    PutFailsIffBlocked(item, path, w);
  }

  lemma Deeper(item: Item, path: Path, k: nat)
    requires 0 < k <= |path|
    ensures Lookup(item, path[..k]) ==
            if Child(item, path[0]).None? then None else Lookup(Child(item, path[0]).value, path[1..][..k - 1])
  {
    assert path[..k][1..] == path[1..][..k - 1];
  }

  lemma EmptyHoldsNothing(path: Path)
    ensures path != [] ==> Lookup(Table(map[]), path).None?
  {}

  /** Reading a path below a written prefix, at it, or beside it. */
  lemma {:induction false} LookupAfterPut(item: Item, path: Path, value: Item, other: Path)
    requires item.Table? && path != [] && Put(item, path, value).Some?
    ensures path <= other ==> Lookup(Put(item, path, value).value, other) == Lookup(value, other[|path|..])
    ensures !(path <= other) && !(other <= path) ==> Lookup(Put(item, path, value).value, other) == Lookup(item, other)
    decreases |path|
  {
    var after := Put(item, path, value).value;
    if other != [] && other[0] == path[0] {
      if |path| == 1 {
        assert path <= other;
      } else {
        var below := Enter(item, path[0]).value;
        LookupAfterPut(below, path[1..], value, other[1..]);
        assert path <= other <==> path[1..] <= other[1..];
        assert other <= path <==> other[1..] <= path[1..];
        if path <= other {
          assert other[1..][|path[1..]|..] == other[|path|..];
        }
        if !(path <= other) && !(other <= path) {
          assert other[1..] != [];
          EmptyHoldsNothing(other[1..]);
        }
      }
    }
  }

  /** The law of the editor: after a successful write, reading the path gives the value written;
      a path that is neither above nor below it reads as before; a blocked write changes
      nothing, because sections are created only past the last one that exists. */
  lemma WriteThenRead(item: Item, path: Path, value: Item)
    requires item.Table? && path != [] && Put(item, path, value).Some?
    ensures Lookup(Put(item, path, value).value, path) == Some(value)
    ensures forall other: Path :: !(path <= other) && !(other <= path) ==>
              Lookup(Put(item, path, value).value, other) == Lookup(item, other)
  {
    LookupAfterPut(item, path, value, path);
    assert path[|path|..] == [];
    forall other: Path | !(path <= other) && !(other <= path)
      ensures Lookup(Put(item, path, value).value, other) == Lookup(item, other)
    {
      LookupAfterPut(item, path, value, other);
    }
  }

  /** The items above a written path are sections afterwards. */
  lemma {:induction false} SectionsAbove(item: Item, path: Path, value: Item, k: nat)
    requires item.Table? && path != [] && Put(item, path, value).Some? && k < |path|
    ensures var at := Lookup(Put(item, path, value).value, path[..k]); at.Some? && at.value.Table?
    decreases |path|
  {
    if k > 0 {
      SectionsAbove(Enter(item, path[0]).value, path[1..], value, k - 1);
      assert path[..k][1..] == path[1..][..k - 1];
    }
  }

  /** Putting an empty section where nothing is does not change what a write below it gives. */
  lemma {:induction false} ScaffoldingIsNeutral(item: Item, path: Path, k: nat, value: Item)
    requires item.Table? && 0 < k < |path| && Lookup(item, path[..k]).None?
    requires Put(item, path[..k], Table(map[])).Some?
    ensures Put(Put(item, path[..k], Table(map[])).value, path, value) == Put(item, path, value)
    decreases |path|
  {
    var key, rest := path[0], path[1..];
    var with := Put(item, path[..k], Table(map[])).value;
    Deeper(item, path, k);
    assert path[..k][1..] == rest[..k - 1];
    var below := Enter(item, key).value;
    if k == 1 {
      assert rest[..0] == [];
      assert Enter(with, key) == Enter(item, key);
    } else {
      EmptyHoldsNothing(rest[..k - 1]);
      ScaffoldingIsNeutral(below, rest, k - 1, value);
    }
    if Put(below, rest, value).Some? {
      var deep := Put(below, rest, value).value;
      assert with.entries[key := deep] == item.entries[key := deep];
    }
  }

  /** A second write to the same path replaces the first. */
  lemma {:induction false} LastWriteWins(item: Item, path: Path, v: Item, w: Item)
    requires item.Table? && path != [] && Put(item, path, v).Some?
    ensures Put(Put(item, path, v).value, path, w) == Put(item, path, w)
    decreases |path|
  {
    var once := Put(item, path, v).value;
    if |path| == 1 {
      assert item.entries[path[0] := v][path[0] := w] == item.entries[path[0] := w];
    } else {
      var below := Enter(item, path[0]).value;
      LastWriteWins(below, path[1..], v, w);
      SameFate(below, path[1..], v, w);
      var deep := Put(below, path[1..], w).value;
      assert Enter(once, path[0]) == Put(below, path[1..], v);
      assert once.entries[path[0] := deep] == item.entries[path[0] := deep];
    }
  }

  lemma DifferentSectionsCommute(item: Item, p: Path, v: Item, q: Path, w: Item)
    requires item.Table? && p != [] && q != [] && p[0] != q[0]
    requires Put(item, p, v).Some? && Put(item, q, w).Some?
    ensures Put(Put(item, p, v).value, q, w).Some? && Put(Put(item, q, w).value, p, v).Some?
    ensures Put(Put(item, p, v).value, q, w) == Put(Put(item, q, w).value, p, v)
  {
    var a, b := Put(item, p, v).value, Put(item, q, w).value;
    assert Enter(a, q[0]) == Enter(item, q[0]) && Enter(b, p[0]) == Enter(item, p[0]);
    assert a.entries[q[0] := b.entries[q[0]]] == b.entries[p[0] := a.entries[p[0]]];
  }

  /** A write below a section is a write in that section. */
  lemma PutBelow(item: Item, p: Path, v: Item)
    requires item.Table? && |p| > 1 && Put(item, p, v).Some?
    ensures Enter(item, p[0]).Some? && Put(Enter(item, p[0]).value, p[1..], v).Some?
    ensures Put(item, p, v) == Some(Table(item.entries[p[0] := Put(Enter(item, p[0]).value, p[1..], v).value]))
    ensures Enter(Put(item, p, v).value, p[0]) == Put(Enter(item, p[0]).value, p[1..], v)
  {}

  /** Writes to unrelated paths commute. */
  lemma {:induction false} UnrelatedWritesCommute(item: Item, p: Path, v: Item, q: Path, w: Item)
    requires item.Table? && p != [] && q != [] && !(p <= q) && !(q <= p)
    requires Put(item, p, v).Some? && Put(item, q, w).Some?
    ensures Put(Put(item, p, v).value, q, w).Some? && Put(Put(item, q, w).value, p, v).Some?
    ensures Put(Put(item, p, v).value, q, w) == Put(Put(item, q, w).value, p, v)
    decreases |p|
  {
    if p[0] != q[0] {
      DifferentSectionsCommute(item, p, v, q, w);
    } else {
      assert |p| > 1 by { assert |p| == 1 ==> p <= q; }
      assert |q| > 1 by { assert |q| == 1 ==> q <= p; }
      assert p == [p[0]] + p[1..] && q == [p[0]] + q[1..];
      PutBelow(item, p, v);
      PutBelow(item, q, w);
      var key, below := p[0], Enter(item, p[0]).value;
      UnrelatedWritesCommute(below, p[1..], v, q[1..], w);
      SameSectionCommutes(item, p, v, q, w);
    }
  }

  lemma SameSectionCommutes(item: Item, p: Path, v: Item, q: Path, w: Item)
    requires item.Table? && |p| > 1 && |q| > 1 && p[0] == q[0]
    requires Put(item, p, v).Some? && Put(item, q, w).Some?
    requires var below := Enter(item, p[0]);
      && below.Some? && Put(below.value, p[1..], v).Some? && Put(below.value, q[1..], w).Some?
      && Put(Put(below.value, p[1..], v).value, q[1..], w).Some?
      && Put(Put(below.value, p[1..], v).value, q[1..], w) == Put(Put(below.value, q[1..], w).value, p[1..], v)
    ensures Put(Put(item, p, v).value, q, w).Some?
    ensures Put(Put(item, p, v).value, q, w) == Put(Put(item, q, w).value, p, v)
  {
    PutBelow(item, p, v);
    PutBelow(item, q, w);
    var a, b := Put(item, p, v).value, Put(item, q, w).value;
    var both := Put(Put(Enter(item, p[0]).value, p[1..], v).value, q[1..], w).value;
    assert a.entries[p[0] := both] == item.entries[p[0] := both] == b.entries[p[0] := both];
  }

  // ---------------------------------------------------------------- dotted keys

  /** `str::split('.')`. */
  function Split(s: string): (r: seq<string>)
    ensures r != []
  {
    if s == [] then [""]
    else if s[0] == '.' then [""] + Split(s[1..])
    else var rest := Split(s[1..]); [[s[0]] + rest[0]] + rest[1..]
  }

  function Dotted(path: Path): string {
    if path == [] then "" else if |path| == 1 then path[0] else path[0] + "." + Dotted(path[1..])
  }

  ghost predicate DotFree(path: Path) { forall k :: 0 <= k < |path| ==> '.' !in path[k] }

  lemma {:induction false} SplitJoins(s: string)
    ensures DotFree(Split(s)) && Dotted(Split(s)) == s
  {
    if s != "" {
      SplitJoins(s[1..]);
      var rest := Split(s[1..]);
      assert s == [s[0]] + s[1..];
      if s[0] != '.' {
        var head := [s[0]] + rest[0];
        assert ([head] + rest[1..])[1..] == rest[1..];
        assert |rest| > 1 ==> Dotted(rest) == rest[0] + "." + Dotted(rest[1..]);
      } else {
        assert ([""] + rest)[1..] == rest;
      }
    }
  }

  lemma SplitStep(c: char, s: string)
    ensures Split([c] + s) == if c == '.' then [""] + Split(s) else [[c] + Split(s)[0]] + Split(s)[1..]
  {
    assert ([c] + s)[1..] == s;
  }

  lemma DottedStep(head: string, rest: Path)
    ensures head != "" ==> Dotted([head] + rest) == [head[0]] + Dotted([head[1..]] + rest)
    ensures rest != [] ==> Dotted([""] + rest) == ['.'] + Dotted(rest)
  {
    assert ([head] + rest)[1..] == rest && ([""] + rest)[1..] == rest;
    if head != "" {
      assert ([head[1..]] + rest)[1..] == rest && head == [head[0]] + head[1..];
    }
  }

  lemma {:induction false} JoinSplits(path: Path)
    requires path != [] && DotFree(path)
    ensures Split(Dotted(path)) == path
    decreases |path|, |path[0]|
  {
    var head, rest := path[0], path[1..];
    assert path == [head] + rest;
    DottedStep(head, rest);
    if head != "" {
      var shorter := [head[1..]] + rest;
      assert head == [head[0]] + head[1..] && head[0] in head;
      JoinSplits(shorter);
      SplitStep(head[0], Dotted(shorter));
    } else if rest != [] {
      JoinSplits(rest);
      SplitStep('.', Dotted(rest));
    }
  }

  /** A dotted key names one path: the only list of segments without a dot that dots join to it. */
  lemma SplitIsTheOnlyReading(s: string, path: Path)
    requires path != [] && DotFree(path)
    ensures Split(s) == path <==> Dotted(path) == s
    ensures DotFree(Split(s))
  {
    SplitJoins(s);
    JoinSplits(path);
  }

  /** Reading goes through sections and inline tables alike, and through nothing else. */
  lemma ReadsThroughBothTables(entries: map<string, Item>, key: string, rest: Path)
    ensures Lookup(Table(entries), [key] + rest) == Lookup(Inline(entries), [key] + rest)
    ensures Lookup(Table(entries), [key] + rest) == if key in entries then Lookup(entries[key], rest) else None
    ensures forall text :: Lookup(Leaf(text), [key] + rest).None?
  {
    assert ([key] + rest)[1..] == rest;
  }

  predicate DoubleDotAt(s: string, i: int) { 0 <= i < |s| - 1 && s[i] == '.' && s[i + 1] == '.' }

  ghost predicate Malformed(s: string) {
    s == "" || s[0] == '.' || s[|s| - 1] == '.' || exists i :: DoubleDotAt(s, i)
  }

  lemma HeadIsEmptyIff(s: string)
    ensures Split(s)[0] == "" <==> s == "" || s[0] == '.'
  {}

  lemma {:induction false} LaterSegments(s: string)
    ensures "" in Split(s)[1..] <==> s != "" && (s[|s| - 1] == '.' || exists i :: DoubleDotAt(s, i))
  {
    if s != "" {
      var rest := s[1..];
      var parts := Split(rest);
      LaterSegments(rest);
      HeadIsEmptyIff(rest);
      assert parts == [parts[0]] + parts[1..];
      assert Split(s)[1..] == if s[0] == '.' then parts else parts[1..];
      if i :| DoubleDotAt(rest, i) {
        assert DoubleDotAt(s, i + 1);
      }
      if s[0] == '.' && rest != "" && rest[0] == '.' {
        assert DoubleDotAt(s, 0);
      }
      if i :| DoubleDotAt(s, i) {
        assert i > 0 ==> DoubleDotAt(rest, i - 1);
      }
    }
  }

  /** The four shape checks reject exactly the keys with an empty segment, so the check on the
      segments after them never fires. */
  lemma ShapeMeansSegments(s: string)
    ensures Malformed(s) <==> "" in Split(s)
  {
    HeadIsEmptyIff(s);
    LaterSegments(s);
    var parts := Split(s);
    assert parts == [parts[0]] + parts[1..];
  }
}
