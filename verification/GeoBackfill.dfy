/** Filling in missing geo facts, page by page behind a growing cursor. */
module GeoBackfill {
  import opened Prelude

  datatype Fact = Country | City | Asn

  datatype Row = Row(id: int, host: string, facts: set<Fact>)

  const BATCH: nat := 500

  /** Rows as the database orders them: by id, which is unique. */
  ghost predicate Ordered(rows: seq<Row>) {
    forall i, j :: 0 <= i < j < |rows| ==> rows[i].id < rows[j].id
  }

  /** A row some loaded database could still complete. */
  predicate Missing(mask: set<Fact>, r: Row) { mask - r.facts != {} }

  /** Some fact of `mask` is not on the row yet. */
  ghost predicate Lacks(mask: set<Fact>, r: Row) { exists fact :: fact in mask && fact !in r.facts }

  lemma MissingMeansLacks(mask: set<Fact>, r: Row)
    ensures Missing(mask, r) <==> Lacks(mask, r)
  {
    if Missing(mask, r) {
      var fact :| fact in mask - r.facts;
      assert fact in mask && fact !in r.facts;
    }
    if Lacks(mask, r) {
      var fact :| fact in mask && fact !in r.facts;
      assert fact in mask - r.facts;
    }
  }

  predicate Listed(mask: set<Fact>, after: int, r: Row) { r.id > after && Missing(mask, r) }

  /** The listing past `after`, without its limit. */
  function Listing(mask: set<Fact>, rows: seq<Row>, after: int): seq<Row> {
    if rows == [] then []
    else
      var front := Listing(mask, rows[..|rows| - 1], after);
      if Listed(mask, after, rows[|rows| - 1]) then front + [rows[|rows| - 1]] else front
  }

  lemma {:induction false} ListingMembers(mask: set<Fact>, rows: seq<Row>, after: int)
    ensures forall x :: x in Listing(mask, rows, after) <==> x in rows && x.id > after && Lacks(mask, x)
  {
    if rows != [] {
      var front := rows[..|rows| - 1];
      ListingMembers(mask, front, after);
      MissingMeansLacks(mask, rows[|rows| - 1]);
      hide Missing, Lacks;
      assert rows == front + [rows[|rows| - 1]];
    }
  }

  function Page(mask: set<Fact>, rows: seq<Row>, after: int): seq<Row> {
    var all := Listing(mask, rows, after);
    if |all| <= BATCH then all else all[..BATCH]
  }

  lemma {:induction false} ListingIsOrdered(mask: set<Fact>, rows: seq<Row>, after: int)
    requires Ordered(rows)
    ensures Ordered(Listing(mask, rows, after))
  {
    if rows != [] {
      var front := rows[..|rows| - 1];
      ListingIsOrdered(mask, front, after);
      ListingMembers(mask, front, after);
      forall x | x in Listing(mask, front, after) ensures x.id < rows[|rows| - 1].id {
        assert x in front;
      }
    }
  }

  lemma HasMember(b: seq<Row>)
    ensures b == [] || exists x :: x in b
  {
    if b != [] {
      assert b[0] in b;
    }
  }

  /** Two orderings of the same rows are one. */
  lemma {:induction false} OrderedIsUnique(a: seq<Row>, b: seq<Row>)
    requires Ordered(a) && Ordered(b) && forall x :: x in a <==> x in b
    ensures a == b
  {
    HasMember(b);
    if a == [] {
      assert forall x :: x !in b;
    } else {
      assert a[0] in b && (b != [] ==> b[0] in a);
      assert a[0] == b[0];
      forall x ensures x in a[1..] <==> x in b[1..] {
        TailMembers(a, x);
        TailMembers(b, x);
      }
      OrderedIsUnique(a[1..], b[1..]);
      assert a == [a[0]] + a[1..] && b == [b[0]] + b[1..];
    }
  }

  lemma TailMembers(a: seq<Row>, x: Row)
    requires Ordered(a) && a != []
    ensures x in a[1..] <==> x in a && x != a[0]
  {
    assert a == [a[0]] + a[1..];
  }

  /** Moving the cursor to the last row of a listed prefix leaves exactly the rest. */
  lemma CursorSkipsThePage(mask: set<Fact>, rows: seq<Row>, after: int, k: nat)
    requires Ordered(rows) && 0 < k <= |Listing(mask, rows, after)|
    ensures var all := Listing(mask, rows, after);
      all[k - 1].id > after && Listing(mask, rows, all[k - 1].id) == all[k..]
  {
    var all := Listing(mask, rows, after);
    var cursor := all[k - 1].id;
    ListingIsOrdered(mask, rows, after);
    ListingIsOrdered(mask, rows, cursor);
    ListingMembers(mask, rows, after);
    ListingMembers(mask, rows, cursor);
    assert all[k - 1] in all;
    forall x ensures x in Listing(mask, rows, cursor) <==> x in all[k..] {
      if x in all {
        var i :| 0 <= i < |all| && all[i] == x;
        assert i >= k ==> all[k..][i - k] == x;
        assert x.id > cursor <==> i >= k;
        forall j | k <= j < |all| && all[j] == x ensures j == i {}
      }
    }
    OrderedIsUnique(Listing(mask, rows, cursor), all[k..]);
  }

  /** The listing sees only rows past the cursor, so stamps on earlier rows do not change it. */
  lemma {:induction false} ListingIgnoresEarlierRows(mask: set<Fact>, a: seq<Row>, b: seq<Row>, after: int)
    requires |a| == |b| && forall i :: 0 <= i < |a| ==> a[i].id == b[i].id && (a[i].id > after ==> a[i] == b[i])
    ensures Listing(mask, a, after) == Listing(mask, b, after)
  {
    if a != [] {
      ListingIgnoresEarlierRows(mask, a[..|a| - 1], b[..|b| - 1], after);
    }
  }

  // ---------------------------------------------------------------- the pass

  /** One listed row: the number of the look at the clock before its lookup, the number of the
      lookup (`None` when the budget was over), what came back, the number of the write and whether
      it went through. */
  datatype Examined = Examined(
    row: Row, tick: nat, lookup: Option<nat>, stamp: Option<set<Fact>>, write: Option<nat>, stored: bool)

  /** The world: whether the budget is over at the n-th look at the clock, whether the n-th
      listing fails, what the n-th lookup answers for a host, whether the n-th write fails. */
  datatype World = World(
    over: nat -> bool, listFails: nat -> bool, answer: (nat, string) -> Option<set<Fact>>, writeFails: nat -> bool)
  {
    /** The budget lasts. */
    ghost predicate Patient() { forall n :: !over(n) }

    /** Every listing succeeds. */
    ghost predicate Listable() { forall n :: !listFails(n) }
  }

  /** How often the world had been asked each question when the pass began. */
  datatype Counts = Counts(ticks: nat, listings: nat, lookups: nat, writes: nat)

  function Stored(log: seq<Examined>): nat {
    if log == [] then 0 else Stored(log[..|log| - 1]) + if log[|log| - 1].stored then 1 else 0
  }

  function Asked(log: seq<Examined>): nat {
    if log == [] then 0 else Asked(log[..|log| - 1]) + if log[|log| - 1].lookup.Some? then 1 else 0
  }

  function Written(log: seq<Examined>): nat {
    if log == [] then 0 else Written(log[..|log| - 1]) + if log[|log| - 1].write.Some? then 1 else 0
  }

  function Somes(xs: seq<Option<nat>>): nat {
    if xs == [] then 0 else Somes(xs[..|xs| - 1]) + if xs[|xs| - 1].Some? then 1 else 0
  }

  function RowsOf(log: seq<Examined>): (rows: seq<Row>)
    ensures |rows| == |log| && forall i :: 0 <= i < |log| ==> rows[i] == log[i].row
  {
    seq(|log|, i requires 0 <= i < |log| => log[i].row)
  }

  function Landed(e: Examined): set<Fact> { if e.stored && e.stamp.Some? then e.stamp.value else {} }

  /** The stamp a row got, if any. */
  function StampOf(log: seq<Examined>, id: int): set<Fact> {
    if log == [] then {}
    else if log[|log| - 1].row.id == id then Landed(log[|log| - 1])
    else StampOf(log[..|log| - 1], id)
  }

  /** A row is asked about unless the budget was over, the stamp is the resolver's answer for the
      host of this very row, exactly the non-empty stamps are written, and a stamp is stored
      exactly when its write goes through. */
  predicate Sound(world: World, e: Examined) {
    && (e.lookup.None? <==> world.over(e.tick))
    && e.stamp == (if e.lookup.Some? then world.answer(e.lookup.value, e.row.host) else None)
    && (e.write.Some? <==> e.stamp.Some? && e.stamp.value != {})
    && (e.stored <==> e.write.Some? && !world.writeFails(e.write.value))
  }

  /** Every row has a look at the clock of its own, and each page began with one more. */
  function TickOf(at: Counts, i: nat): nat { at.ticks + i + i / BATCH + 1 }

  /** Row `i` of the log, its questions numbered in the order they were put. */
  ghost predicate EntryOk(world: World, at: Counts, log: seq<Examined>, i: int)
    requires 0 <= i < |log|
  {
    && Sound(world, log[i]) && log[i].tick == TickOf(at, i)
    && (log[i].lookup.Some? ==> log[i].lookup.value == at.lookups + Asked(log[..i]))
    && (log[i].write.Some? ==> log[i].write.value == at.writes + Written(log[..i]))
  }

  ghost predicate Honest(world: World, at: Counts, log: seq<Examined>) {
    forall i :: 0 <= i < |log| ==> EntryOk(world, at, log, i)
  }

  ghost predicate AllAsked(log: seq<Examined>) { forall e :: e in log ==> e.lookup.Some? }

  ghost predicate UpTo(log: seq<Examined>, cursor: int) { forall e :: e in log ==> e.row.id <= cursor }

  /** The pass cannot begin page `p`. */
  predicate Halted(world: World, at: Counts, p: nat) {
    world.over(at.ticks + p * (BATCH + 1)) || world.listFails(at.listings + p)
  }

  /** What the lookups of one page come to. */
  ghost predicate Resolved(world: World, tick0: nat, lookup0: nat, page: seq<Row>, stamps: seq<Option<set<Fact>>>,
                           asked: seq<Option<nat>>) {
    && |stamps| == |asked| == |page|
    && (forall i :: 0 <= i < |page| ==> AnswerOk(world, tick0, lookup0, page, stamps, asked, i))
  }

  ghost predicate AnswerOk(world: World, tick0: nat, lookup0: nat, page: seq<Row>, stamps: seq<Option<set<Fact>>>,
                           asked: seq<Option<nat>>, i: int)
    requires |stamps| == |asked| == |page| && 0 <= i < |page|
  {
    && (asked[i].None? <==> world.over(tick0 + i))
    && stamps[i] == (if asked[i].Some? then world.answer(asked[i].value, page[i].host) else None)
    && (asked[i].Some? ==> asked[i].value == lookup0 + Somes(asked[..i]))
  }

  class Backfill {
    var rows: seq<Row>
    const world: World
    var ticks: nat
    var listings: nat
    var lookups: nat
    var writes: nat

    constructor (rows: seq<Row>, world: World)
      ensures this.rows == rows && this.world == world
      ensures ticks == listings == lookups == writes == 0
    {
      this.rows, this.world := rows, world;
      ticks, listings, lookups, writes := 0, 0, 0, 0;
    }

    method OverBudget() returns (over: bool)
      modifies this`ticks
      ensures ticks == old(ticks) + 1 && over == world.over(old(ticks))
    {
      over := world.over(ticks);
      ticks := ticks + 1;
    }

    /** The lookups of one page, in id order.  Past the budget a row is passed over unasked. */
    method Resolve(page: seq<Row>) returns (stamps: seq<Option<set<Fact>>>, ghost asked: seq<Option<nat>>)
      modifies this`ticks, this`lookups
      ensures Resolved(world, old(ticks), old(lookups), page, stamps, asked)
      ensures ticks == old(ticks) + |page| && lookups == old(lookups) + Somes(asked)
    {
      stamps, asked := [], [];
      Ends(page);
      hide AnswerOk, Somes;
      NothingAsked();
      for i := 0 to |page|
        invariant |stamps| == |asked| == i
        invariant Resolved(world, old(ticks), old(lookups), page[..i], stamps, asked)
        invariant ticks == old(ticks) + i && lookups == old(lookups) + Somes(asked)
      {
        var over := OverBudget();
        Snoc(page, i);
        if over {
          AnswerNext(world, old(ticks), old(lookups), page[..i], stamps, asked, page[i], None, None);
          stamps := stamps + [None];
          asked := asked + [None];
        } else {
          var stamp := world.answer(lookups, page[i].host);
          AnswerNext(world, old(ticks), old(lookups), page[..i], stamps, asked, page[i], stamp, Some(lookups));
          stamps := stamps + [stamp];
          asked := asked + [Some(lookups)];
          lookups := lookups + 1;
        }
      }
    }

    /** Write one stamp; the row is found by its id. */
    method UpdateGeo(id: int, stamp: set<Fact>) returns (ok: bool)
      modifies this`rows, this`writes
      ensures ok == !world.writeFails(old(writes)) && writes == old(writes) + 1
      ensures rows == if ok then Stamped(old(rows), id, stamp) else old(rows)
    {
      ok := !world.writeFails(writes);
      writes := writes + 1;
      if ok {
        rows := Stamped(rows, id, stamp);
      }
    }

    /** One listed row: an empty or missing stamp is passed over. */
    method StoreOne(r: Row, stamp: Option<set<Fact>>, ghost tick: nat, ghost asked: Option<nat>, ghost at: Counts,
                    ghost log: seq<Examined>, ghost base: seq<Row>)
      returns (stored: bool, ghost e: Examined)
      requires rows == WithStamps(base, log) && writes == at.writes + Written(log)
      requires forall x :: x in log ==> x.row.id < r.id
      requires Asking(world, at, log, r, stamp, tick, asked) && Honest(world, at, log)
      modifies this`rows, this`writes
      ensures e.row == r && e.lookup == asked && e.stored == stored
      ensures Honest(world, at, log + [e])
      ensures rows == WithStamps(base, log + [e]) && writes == at.writes + Written(log + [e])
    {
      hide WithStamps, Stamped, Written, Asking, Honest;
      stored := false;
      ghost var write: Option<nat> := None;
      ghost var rows0 := rows;
      if stamp.Some? && stamp.value != {} {
        write := Some(writes);
        stored := UpdateGeo(r.id, stamp.value);
      }
      e := Examined(r, tick, asked, stamp, write, stored);
      LogOneMore(log, e, base);
      HonestNext(world, at, log, e);
    }

    /** The stamps of one page. */
    method StorePage(page: seq<Row>, stamps: seq<Option<set<Fact>>>, cursor0: int, ghost asked: seq<Option<nat>>,
                     ghost at: Counts, ghost log0: seq<Examined>, ghost base: seq<Row>)
      returns (cursor: int, updated: nat, ghost log: seq<Examined>)
      requires |page| <= BATCH && |log0| % BATCH == 0 && Ordered(page) && (page != [] ==> cursor0 < page[0].id)
      requires Resolved(world, TickOf(at, |log0|), at.lookups + Asked(log0), page, stamps, asked)
      requires Honest(world, at, log0) && UpTo(log0, cursor0)
      requires rows == WithStamps(base, log0) && writes == at.writes + Written(log0)
      modifies this`rows, this`writes
      ensures cursor == if page == [] then cursor0 else page[|page| - 1].id
      ensures Honest(world, at, log) && UpTo(log, cursor)
      ensures RowsOf(log) == RowsOf(log0) + page
      ensures Asked(log) == Asked(log0) + Somes(asked)
      ensures updated == Stored(log) - Stored(log0)
      ensures rows == WithStamps(base, log) && writes == at.writes + Written(log)
    {
      assert |stamps| == |asked| == |page|;
      hide *;
      cursor, updated, log := cursor0, 0, log0;
      PageBegins(page, cursor0, asked, log0);
      for i := 0 to |page|
        invariant Progress(page, asked, cursor0, log0, i, cursor, log) && Honest(world, at, log)
        invariant updated == Stored(log) - Stored(log0)
        invariant rows == WithStamps(base, log) && writes == at.writes + Written(log)
      {
        var r := page[i];
        NextRow(world, at, page, stamps, asked, cursor0, log0, i, cursor, log);
        ghost var before := cursor;
        cursor := Max(r.id, cursor);
        var stored;
        ghost var e;
        stored, e := StoreOne(r, stamps[i], TickOf(at, |log|), asked[i], at, log, base);
        if stored {
          updated := updated + 1;
        }
        RowDone(page, asked, cursor0, log0, i, before, log, e);
        log := log + [e];
      }
      PageEnds(page, asked, cursor0, log0, cursor, log);
    }

    /** One page: list, look up, store, move the cursor.  A short page is the last. */
    method ExaminePage(mask: set<Fact>, cursor0: int, ghost at: Counts, ghost rows0: seq<Row>, ghost log0: seq<Examined>)
      returns (n: nat, cursor: int, stored: nat, ghost log: seq<Examined>)
      requires Walked(mask, world, at, rows0, cursor0, log0) && |log0| % BATCH == 0
      requires ticks == TickOf(at, |log0|) && lookups == at.lookups + Asked(log0) && writes == at.writes + Written(log0)
      requires rows == WithStamps(rows0, log0)
      modifies this`rows, this`ticks, this`lookups, this`writes
      ensures Walked(mask, world, at, rows0, cursor, log) && |log| == |log0| + n
      ensures ticks == old(ticks) + n && lookups == at.lookups + Asked(log) && writes == at.writes + Written(log)
      ensures rows == WithStamps(rows0, log) && stored == Stored(log) - Stored(log0)
      ensures n <= BATCH && (n < BATCH <==> |log| == |Listing(mask, rows0, 0)| < |log0| + BATCH)
    {
      hide *;
      NextPage(mask, world, at, rows0, cursor0, log0);
      var page := Page(mask, rows, cursor0);
      n := |page|;
      if page == [] {
        return 0, cursor0, 0, log0;
      }
      var stamps;
      ghost var asked;
      stamps, asked := Resolve(page);
      cursor, stored, log := StorePage(page, stamps, cursor0, asked, at, log0, rows0);
      WalkOn(mask, world, at, rows0, cursor0, log0, page, cursor, log);
    }

    /** The whole pass.  It ends whatever the world does.  The log says for each row which look at
        the clock, lookup and write was its own and what they answered; rows are examined in id
        order and so at most once each; `updated` counts the stored stamps; the rows end up as
        before plus exactly those stamps; and a pass stops short exactly at the first page that the
        clock or a failed listing keeps it from. */
    method RunBackfill(mask: set<Fact>) returns (updated: nat, ghost log: seq<Examined>)
      requires Ordered(rows)
      modifies this`rows, this`ticks, this`listings, this`lookups, this`writes
      ensures updated == Stored(log) && Honest(world, old(Counts(ticks, listings, lookups, writes)), log)
      ensures RowsOf(log) <= Listing(mask, old(rows), 0)
      ensures Stopped(world, old(Counts(ticks, listings, lookups, writes)), |log|, |Listing(mask, old(rows), 0)|)
      ensures rows == WithStamps(old(rows), log)
      ensures lookups == old(lookups) + Asked(log) && writes == old(writes) + Written(log)
      ensures world.Patient() ==> AllAsked(log)
      ensures world.Patient() && world.Listable() ==> RowsOf(log) == Listing(mask, old(rows), 0)
    {
      ghost var at := Counts(ticks, listings, lookups, writes);
      ghost var rows0 := rows;
      ghost var p: nat := 0;
      var cursor := 0;
      updated, log := 0, [];
      hide *;
      WalkStarts(mask, world, at, rows0);
      while true
        invariant Walked(mask, world, at, rows0, cursor, log) && Behind(world, at, p, log, ticks, listings, lookups, writes)
        invariant updated == Stored(log) && rows == WithStamps(rows0, log)
        decreases |Listing(mask, rows0, 0)| - |log|
      {
        PageStarts(world, at, p, log, ticks, listings, lookups, writes);
        ghost var tick := ticks;
        var over := OverBudget();
        if over {
          WalkHalted(mask, world, at, p, rows0, cursor, log, tick, listings, lookups, writes);
          break;
        }
        var fails := world.listFails(listings);
        listings := listings + 1;
        if fails {
          WalkHalted(mask, world, at, p, rows0, cursor, log, tick, listings - 1, lookups, writes);
          return;
        }
        PageOpens(world, at, p, log, tick, listings - 1, lookups, writes);
        ghost var before := log;
        var n, stored;
        n, cursor, stored, log := ExaminePage(mask, cursor, at, rows0, log);
        updated := updated + stored;
        if n < BATCH {
          WalkCompleted(mask, world, at, p, rows0, cursor, before, log);
          break;
        }
        PageDone(world, at, p, before, log, ticks, listings, lookups, writes);
        p := p + 1;
      }
    }
  }

  // ---------------------------------------------------------------- one page

  lemma NothingAsked()
    ensures Somes([]) == 0 && forall world: World, t: nat, l: nat :: Resolved(world, t, l, [], [], [])
  {}

  lemma Snoc(page: seq<Row>, i: nat)
    requires i < |page|
    ensures page[..i + 1] == page[..i] + [page[i]]
  {}

  lemma AnswerNext(world: World, tick0: nat, lookup0: nat, page: seq<Row>, stamps: seq<Option<set<Fact>>>,
                   asked: seq<Option<nat>>, r: Row, stamp: Option<set<Fact>>, a: Option<nat>)
    requires Resolved(world, tick0, lookup0, page, stamps, asked)
    requires a.None? <==> world.over(tick0 + |page|)
    requires stamp == if a.Some? then world.answer(a.value, r.host) else None
    requires a.Some? ==> a.value == lookup0 + Somes(asked)
    ensures Resolved(world, tick0, lookup0, page + [r], stamps + [stamp], asked + [a])
    ensures Somes(asked + [a]) == Somes(asked) + if a.Some? then 1 else 0
  {
    var page', stamps', asked' := page + [r], stamps + [stamp], asked + [a];
    assert asked'[..|asked|] == asked;
    forall i | 0 <= i < |page'| ensures AnswerOk(world, tick0, lookup0, page', stamps', asked', i) {
      assert asked'[..i] == asked[..i];
      assert i < |page| ==> AnswerOk(world, tick0, lookup0, page, stamps, asked, i);
    }
  }

  /** The question put for the row that follows `log`. */
  ghost predicate Asking(world: World, at: Counts, log: seq<Examined>, r: Row, stamp: Option<set<Fact>>, tick: nat,
                         asked: Option<nat>) {
    && tick == TickOf(at, |log|) && (asked.None? <==> world.over(tick))
    && stamp == (if asked.Some? then world.answer(asked.value, r.host) else None)
    && (asked.Some? ==> asked.value == at.lookups + Asked(log))
  }

  lemma HonestNext(world: World, at: Counts, log: seq<Examined>, e: Examined)
    requires Honest(world, at, log) && Asking(world, at, log, e.row, e.stamp, e.tick, e.lookup)
    requires e.write == if e.stamp.Some? && e.stamp.value != {} then Some(at.writes + Written(log)) else None
    requires e.stored <==> e.write.Some? && !world.writeFails(e.write.value)
    ensures Honest(world, at, log + [e])
  {
    var log' := log + [e];
    hide TickOf, Asked, Written;
    forall i | 0 <= i < |log'| ensures EntryOk(world, at, log', i) {
      assert log'[..i] == log[..i] && log[..|log|] == log;
      assert i < |log| ==> EntryOk(world, at, log, i);
    }
  }

  /** Row `i` of the page is next. */
  ghost predicate Progress(page: seq<Row>, asked: seq<Option<nat>>, cursor0: int, log0: seq<Examined>, i: nat, cursor: int,
                           log: seq<Examined>)
    requires i <= |page| == |asked|
  {
    && cursor == (if i == 0 then cursor0 else page[i - 1].id) && UpTo(log, cursor)
    && RowsOf(log) == RowsOf(log0) + page[..i] && Asked(log) == Asked(log0) + Somes(asked[..i])
  }

  lemma PageBegins(page: seq<Row>, cursor0: int, asked: seq<Option<nat>>, log0: seq<Examined>)
    requires |asked| == |page| && UpTo(log0, cursor0)
    ensures Progress(page, asked, cursor0, log0, 0, cursor0, log0)
  {}

  lemma NextRow(world: World, at: Counts, page: seq<Row>, stamps: seq<Option<set<Fact>>>, asked: seq<Option<nat>>,
                cursor0: int, log0: seq<Examined>, i: nat, cursor: int, log: seq<Examined>)
    requires i < |page| <= BATCH && |log0| % BATCH == 0 && Ordered(page) && cursor0 < page[0].id
    requires Resolved(world, TickOf(at, |log0|), at.lookups + Asked(log0), page, stamps, asked)
    requires Progress(page, asked, cursor0, log0, i, cursor, log)
    ensures Asking(world, at, log, page[i], stamps[i], TickOf(at, |log|), asked[i])
    ensures (forall x :: x in log ==> x.row.id < page[i].id) && Max(page[i].id, cursor) == page[i].id
  {
    hide Asked, Somes;
    assert |log| == |RowsOf(log)| == |log0| + i;
    assert AnswerOk(world, TickOf(at, |log0|), at.lookups + Asked(log0), page, stamps, asked, i);
    assert TickOf(at, |log|) == TickOf(at, |log0|) + i;
  }

  lemma RowDone(page: seq<Row>, asked: seq<Option<nat>>, cursor0: int, log0: seq<Examined>, i: nat, cursor: int,
                log: seq<Examined>, e: Examined)
    requires i < |page| == |asked| && e.row == page[i] && e.lookup == asked[i]
    requires Progress(page, asked, cursor0, log0, i, cursor, log)
    requires forall x :: x in log ==> x.row.id < page[i].id
    ensures Progress(page, asked, cursor0, log0, i + 1, page[i].id, log + [e])
    ensures Stored(log + [e]) == Stored(log) + if e.stored then 1 else 0
  {
    var log' := log + [e];
    assert log'[..|log|] == log && asked[..i + 1][..i] == asked[..i];
    assert page[..i + 1] == page[..i] + [page[i]];
    assert RowsOf(log') == RowsOf(log) + [page[i]];
  }

  lemma PageEnds(page: seq<Row>, asked: seq<Option<nat>>, cursor0: int, log0: seq<Examined>, cursor: int, log: seq<Examined>)
    requires |asked| == |page| && Progress(page, asked, cursor0, log0, |page|, cursor, log)
    ensures cursor == (if page == [] then cursor0 else page[|page| - 1].id) && UpTo(log, cursor)
    ensures RowsOf(log) == RowsOf(log0) + page && Asked(log) == Asked(log0) + Somes(asked)
  {
    Ends(page);
    Ends(asked);
  }

  // ---------------------------------------------------------------- the walk

  /** The pass has examined a prefix of the initial listing and stands behind it. */
  ghost predicate Walked(mask: set<Fact>, world: World, at: Counts, rows0: seq<Row>, cursor: int, log: seq<Examined>) {
    var all := Listing(mask, rows0, 0);
    && Ordered(rows0) && |log| <= |all|
    && RowsOf(log) == all[..|log|] && Listing(mask, rows0, cursor) == all[|log|..]
    && Honest(world, at, log) && UpTo(log, cursor)
  }

  /** The next page is page `p`, and the world has been asked this much. */
  ghost predicate Behind(world: World, at: Counts, p: nat, log: seq<Examined>, ticks: nat, listings: nat, lookups: nat, writes: nat) {
    && |log| == p * BATCH && ticks == at.ticks + p * (BATCH + 1) && listings == at.listings + p
    && lookups == at.lookups + Asked(log) && writes == at.writes + Written(log)
    && (forall q :: 0 <= q < p ==> !Halted(world, at, q))
  }

  /** Why a pass over `total` listed rows examined `n` of them. */
  ghost predicate Stopped(world: World, at: Counts, n: nat, total: nat) {
    && (forall q: nat :: q * BATCH < n ==> !Halted(world, at, q))
    && (n < total ==> n % BATCH == 0 && Halted(world, at, n / BATCH))
  }

  lemma WalkStarts(mask: set<Fact>, world: World, at: Counts, rows0: seq<Row>)
    requires Ordered(rows0)
    ensures Walked(mask, world, at, rows0, 0, []) && Stored([]) == 0
    ensures Behind(world, at, 0, [], at.ticks, at.listings, at.lookups, at.writes)
    ensures rows0 == WithStamps(rows0, [])
  {
    NoStamps(rows0);
  }

  lemma PageStarts(world: World, at: Counts, p: nat, log: seq<Examined>, ticks: nat, listings: nat, lookups: nat, writes: nat)
    requires Behind(world, at, p, log, ticks, listings, lookups, writes)
    ensures |log| % BATCH == 0 && ticks + 1 == TickOf(at, |log|)
    ensures lookups == at.lookups + Asked(log) && writes == at.writes + Written(log)
  {}

  lemma PageOpens(world: World, at: Counts, p: nat, log: seq<Examined>, ticks: nat, listings: nat, lookups: nat, writes: nat)
    requires Behind(world, at, p, log, ticks, listings, lookups, writes) && !world.over(ticks) && !world.listFails(listings)
    ensures Opened(world, at, p, log) && listings == at.listings + p
  {}

  /** The pass ends before page `p`. */
  lemma WalkHalted(mask: set<Fact>, world: World, at: Counts, p: nat, rows0: seq<Row>, cursor: int, log: seq<Examined>,
                   ticks: nat, listings: nat, lookups: nat, writes: nat)
    requires Walked(mask, world, at, rows0, cursor, log) && Behind(world, at, p, log, ticks, listings, lookups, writes)
    requires world.over(ticks) || world.listFails(listings)
    ensures Honest(world, at, log) && RowsOf(log) <= Listing(mask, rows0, 0)
    ensures Stopped(world, at, |log|, |Listing(mask, rows0, 0)|)
    ensures world.Patient() ==> AllAsked(log)
    ensures world.Patient() && world.Listable() ==> RowsOf(log) == Listing(mask, rows0, 0)
  {
    var all := Listing(mask, rows0, 0);
    assert Halted(world, at, p) && |log| / BATCH == p;
    PatienceAsks(world, at, log);
    assert RowsOf(log) <= all;
  }

  lemma PatienceAsks(world: World, at: Counts, log: seq<Examined>)
    requires Honest(world, at, log)
    ensures world.Patient() ==> AllAsked(log)
  {
    hide TickOf, Asked, Written;
    if world.Patient() {
      forall e | e in log ensures e.lookup.Some? {
        var i :| 0 <= i < |log| && log[i] == e;
        assert EntryOk(world, at, log, i);
      }
    }
  }

  /** The pass ends with a short page. */
  lemma WalkCompleted(mask: set<Fact>, world: World, at: Counts, p: nat, rows0: seq<Row>, cursor: int, log0: seq<Examined>,
                      log: seq<Examined>)
    requires Walked(mask, world, at, rows0, cursor, log) && |log| == |Listing(mask, rows0, 0)| < |log0| + BATCH
    requires Opened(world, at, p, log0)
    ensures Honest(world, at, log) && RowsOf(log) <= Listing(mask, rows0, 0)
    ensures Stopped(world, at, |log|, |Listing(mask, rows0, 0)|)
    ensures world.Patient() ==> AllAsked(log)
    ensures world.Patient() && world.Listable() ==> RowsOf(log) == Listing(mask, rows0, 0)
  {
    Ends(Listing(mask, rows0, 0));
    PatienceAsks(world, at, log);
  }

  lemma PageDone(world: World, at: Counts, p: nat, log0: seq<Examined>, log: seq<Examined>, ticks: nat, listings: nat, lookups: nat,
                 writes: nat)
    requires Opened(world, at, p, log0) && |log| == |log0| + BATCH
    requires ticks == TickOf(at, |log0|) + BATCH && listings == at.listings + p + 1
    requires lookups == at.lookups + Asked(log) && writes == at.writes + Written(log)
    ensures Behind(world, at, p + 1, log, ticks, listings, lookups, writes)
  {}

  /** Page `p` begins behind `log0`. */
  ghost predicate Opened(world: World, at: Counts, p: nat, log0: seq<Examined>) {
    |log0| == p * BATCH && (forall q :: 0 <= q <= p ==> !Halted(world, at, q))
  }

  lemma NextPage(mask: set<Fact>, world: World, at: Counts, rows0: seq<Row>, cursor: int, log: seq<Examined>)
    requires Walked(mask, world, at, rows0, cursor, log)
    ensures var page := Page(mask, WithStamps(rows0, log), cursor);
      var all := Listing(mask, rows0, 0);
      && |log| + |page| <= |all| && page == all[|log|..][..|page|] && Ordered(page) && |page| <= BATCH
      && (page != [] ==> cursor < page[0].id)
      && (|page| < BATCH <==> |log| + |page| == |all| < |log| + BATCH)
      && Honest(world, at, log) && UpTo(log, cursor)
  {
    var all := Listing(mask, rows0, 0);
    StampsStayBehind(mask, rows0, log, cursor);
    ListingIsOrdered(mask, rows0, 0);
    ListingMembers(mask, rows0, cursor);
    var page := Page(mask, WithStamps(rows0, log), cursor);
    hide Listing, WithStamps, Honest;
    assert page == all[|log|..][..|page|];
    PageIsOrdered(all, |log|, |page|);
    assert page != [] ==> page[0] in Listing(mask, rows0, cursor);
  }

  lemma WalkOn(mask: set<Fact>, world: World, at: Counts, rows0: seq<Row>, cursor: int, log: seq<Examined>, page: seq<Row>,
               cursor': int, log': seq<Examined>)
    requires Walked(mask, world, at, rows0, cursor, log) && |log| + |page| <= |Listing(mask, rows0, 0)|
    requires page != [] && page == Listing(mask, rows0, 0)[|log|..][..|page|] && cursor' == page[|page| - 1].id
    requires RowsOf(log') == RowsOf(log) + page && Honest(world, at, log') && UpTo(log', cursor')
    ensures Walked(mask, world, at, rows0, cursor', log') && |log'| == |log| + |page|
  {
    CursorSkipsThePage(mask, rows0, cursor, |page|);
    hide Listing, Honest, UpTo;
    assert |log'| == |RowsOf(log')|;
    PageExtends(Listing(mask, rows0, 0), |log|, page);
  }

  lemma PageExtends(all: seq<Row>, k: nat, page: seq<Row>)
    requires k + |page| <= |all| && page == all[k..][..|page|]
    ensures all[..k] + page == all[..k + |page|] && all[k..][|page|..] == all[k + |page|..]
  {}

  lemma PageIsOrdered(all: seq<Row>, k: nat, n: nat)
    requires Ordered(all) && k + n <= |all|
    ensures Ordered(all[k..][..n])
  {
    var page := all[k..][..n];
    forall i, j | 0 <= i < j < n ensures page[i].id < page[j].id {
      assert page[i] == all[k + i] && page[j] == all[k + j];
    }
  }

  // ---------------------------------------------------------------- stamps

  function Stamped(rows: seq<Row>, id: int, stamp: set<Fact>): (r: seq<Row>)
    ensures |r| == |rows|
    ensures forall i :: 0 <= i < |rows| ==>
              r[i] == if rows[i].id == id then rows[i].(facts := rows[i].facts + stamp) else rows[i]
  {
    seq(|rows|, i requires 0 <= i < |rows| =>
      if rows[i].id == id then rows[i].(facts := rows[i].facts + stamp) else rows[i])
  }

  function WithStamps(rows: seq<Row>, log: seq<Examined>): (r: seq<Row>)
    ensures |r| == |rows|
    ensures forall i :: 0 <= i < |rows| ==> r[i] == rows[i].(facts := rows[i].facts + StampOf(log, rows[i].id))
  {
    seq(|rows|, i requires 0 <= i < |rows| => rows[i].(facts := rows[i].facts + StampOf(log, rows[i].id)))
  }

  lemma {:induction false} Unstamped(log: seq<Examined>, id: int)
    requires forall e :: e in log ==> e.row.id != id
    ensures StampOf(log, id) == {}
  {
    if log != [] {
      assert log[|log| - 1] in log;
      Unstamped(log[..|log| - 1], id);
    }
  }

  lemma NoStamps(rows: seq<Row>)
    ensures WithStamps(rows, []) == rows
  {
    forall i | 0 <= i < |rows| ensures rows[i].(facts := rows[i].facts + {}) == rows[i] {
      assert rows[i].facts + {} == rows[i].facts;
    }
  }

  /** One more examined row: its stamp lands on its own row, once. */
  lemma LogOneMore(log: seq<Examined>, e: Examined, base: seq<Row>)
    requires forall x :: x in log ==> x.row.id < e.row.id
    requires e.stored ==> e.stamp.Some?
    ensures WithStamps(base, log + [e]) ==
            if e.stored then Stamped(WithStamps(base, log), e.row.id, e.stamp.value) else WithStamps(base, log)
    ensures Written(log + [e]) == Written(log) + if e.write.Some? then 1 else 0
  {
    var log' := log + [e];
    assert log'[..|log|] == log;
    Unstamped(log, e.row.id);
    assert forall id :: StampOf(log', id) == if id == e.row.id then Landed(e) else StampOf(log, id);
    forall i | 0 <= i < |base|
      ensures WithStamps(base, log')[i] ==
              (if e.stored then Stamped(WithStamps(base, log), e.row.id, e.stamp.value) else WithStamps(base, log))[i]
    {
      assert base[i].facts + {} == base[i].facts;
    }
  }

  lemma StampsStayBehind(mask: set<Fact>, rows: seq<Row>, log: seq<Examined>, cursor: int)
    requires UpTo(log, cursor)
    ensures Listing(mask, WithStamps(rows, log), cursor) == Listing(mask, rows, cursor)
  {
    forall i | 0 <= i < |rows| && rows[i].id > cursor ensures WithStamps(rows, log)[i] == rows[i] {
      Unstamped(log, rows[i].id);
      assert rows[i].facts + {} == rows[i].facts;
    }
    ListingIgnoresEarlierRows(mask, WithStamps(rows, log), rows, cursor);
  }

  // ---------------------------------------------------------------- what a pass comes to

  /** Two passes over the same rows in the same world examine as many. */
  lemma SameExtent(world: World, at: Counts, n: nat, n': nat, total: nat)
    requires Stopped(world, at, n, total) && Stopped(world, at, n', total) && n <= total && n' <= total
    ensures n >= n'
  {
    assert n % BATCH == 0 ==> n / BATCH * BATCH == n;
  }

  lemma {:induction false} SameLog(world: World, at: Counts, log: seq<Examined>, log': seq<Examined>, n: nat)
    requires Honest(world, at, log) && Honest(world, at, log') && RowsOf(log) == RowsOf(log') && n <= |log|
    ensures log[..n] == log'[..n]
  {
    assert |log| == |RowsOf(log)| == |log'|;
    if n > 0 {
      SameLog(world, at, log, log', n - 1);
      hide TickOf, Asked, Written;
      assert EntryOk(world, at, log, n - 1) && EntryOk(world, at, log', n - 1);
      assert RowsOf(log)[n - 1] == RowsOf(log')[n - 1];
      assert log[..n] == log[..n - 1] + [log[n - 1]] && log'[..n] == log'[..n - 1] + [log'[n - 1]];
    }
  }

  /** The promises of a pass leave no choice: for a world and a listing there is one log. */
  lemma PassIsDetermined(world: World, at: Counts, all: seq<Row>, log: seq<Examined>, log': seq<Examined>)
    requires Honest(world, at, log) && RowsOf(log) <= all && Stopped(world, at, |log|, |all|)
    requires Honest(world, at, log') && RowsOf(log') <= all && Stopped(world, at, |log'|, |all|)
    ensures log == log'
  {
    assert |log| == |RowsOf(log)| && |log'| == |RowsOf(log')|;
    SameExtent(world, at, |log|, |log'|, |all|);
    SameExtent(world, at, |log'|, |log|, |all|);
    hide Honest, Stopped;
    assert RowsOf(log) == RowsOf(log');
    SameLog(world, at, log, log', |log|);
    Ends(log);
    Ends(log');
  }

  /** Read off a complete pass in which the budget lasts: a row is asked about if and only if it
      was missing a fact at the start, then exactly once and by its own host, and a stored stamp is
      what that very lookup answered. */
  lemma EachMissingRowOnce(mask: set<Fact>, rows: seq<Row>, world: World, at: Counts, log: seq<Examined>, r: Row)
    requires Ordered(rows) && r in rows && r.id > 0
    requires Honest(world, at, log) && RowsOf(log) == Listing(mask, rows, 0) && AllAsked(log)
    ensures Lacks(mask, r) <==> exists i :: 0 <= i < |log| && log[i].row == r
    ensures forall i, j :: 0 <= i < |log| && 0 <= j < |log| && log[i].row.id == r.id == log[j].row.id ==> i == j
    ensures forall e :: e in log && e.row == r ==>
              e.lookup.Some? && e.stamp == world.answer(e.lookup.value, r.host) && (e.stored ==> e.stamp.Some? && e.stamp.value != {})
  {
    var all := Listing(mask, rows, 0);
    ListingIsOrdered(mask, rows, 0);
    ListingMembers(mask, rows, 0);
    assert |log| == |all|;
    assert forall i :: 0 <= i < |log| ==> log[i].row == RowsOf(log)[i] == all[i];
    hide Listing, Asked, Written, TickOf;
    if Lacks(mask, r) {
      assert r in all;
      var i :| 0 <= i < |all| && all[i] == r;
      assert log[i].row == r;
    }
    forall i | 0 <= i < |log| && log[i].row == r ensures r in all {
      assert all[i] in all;
    }
    forall e | e in log ensures Sound(world, e) && e.lookup.Some? {
      var i :| 0 <= i < |log| && log[i] == e;
      assert EntryOk(world, at, log, i);
    }
  }
}
