/** Vetting a resolver's answer, capping it, and picking the address to connect to.

Two consumers read the same answer: the probe vets and caps the whole list and picks from
what is left, the fetcher filters by family, vets and picks.  They must agree. */
module AddressPick {
  import opened Prelude
  import opened AddressPolicy

  datatype Family = Any | Ipv4 | Ipv6

  predicate OfFamily(ip: Ip, f: Family) { f == Any || (f == Ipv4 && ip.Four?) || (f == Ipv6 && ip.Six?) }

  /** First address a predicate accepts. */
  function Find(ips: seq<Ip>, f: Family): Option<Ip> {
    if ips == [] then None else if OfFamily(ips[0], f) then Some(ips[0]) else Find(ips[1..], f)
  }

  /** The connect address: IPv4 first for `Any`, else the first of the family. */
  function Pick(ips: seq<Ip>, f: Family): Option<Ip> {
    if f == Any then
      if Find(ips, Ipv4).Some? then Find(ips, Ipv4) else if ips == [] then None else Some(ips[0])
    else Find(ips, f)
  }

  const MAX_VETTED_ADDRESSES: nat := 4

  // ---------------------------------------------------------------- reading off an index

  /** The index of the first address of a family, `|ips|` when there is none. */
  function First(ips: seq<Ip>, f: Family): (k: nat)
    ensures k <= |ips|
    ensures k < |ips| ==> OfFamily(ips[k], f)
    ensures forall i :: 0 <= i < k ==> !OfFamily(ips[i], f)
  {
    if ips == [] || OfFamily(ips[0], f) then 0 else 1 + First(ips[1..], f)
  }

  lemma {:induction false} FindIsFirst(ips: seq<Ip>, f: Family)
    ensures Find(ips, f) == if First(ips, f) < |ips| then Some(ips[First(ips, f)]) else None
  {
    if ips != [] && !OfFamily(ips[0], f) {
      FindIsFirst(ips[1..], f);
    }
  }

  // ---------------------------------------------------------------- selections

  /** `r` lists the addresses of `ips` at the increasing positions `at`. */
  ghost predicate Selects(ips: seq<Ip>, at: seq<nat>, r: seq<Ip>) {
    && |at| == |r|
    && (forall i :: 0 <= i < |at| ==> at[i] < |ips| && r[i] == ips[at[i]])
    && (forall i, j :: 0 <= i < j < |at| ==> at[i] < at[j])
  }

  /** A selection that holds the first address of a family picks it. */
  lemma SelectionKeepsFirst(ips: seq<Ip>, at: seq<nat>, r: seq<Ip>, f: Family)
    requires Selects(ips, at, r) && (First(ips, f) < |ips| ==> First(ips, f) in at)
    ensures Find(r, f) == Find(ips, f)
  {
    FindIsFirst(ips, f);
    FindIsFirst(r, f);
    var k := First(ips, f);
    if k < |ips| {
      var i :| 0 <= i < |at| && at[i] == k;
      forall j | 0 <= j < i ensures !OfFamily(r[j], f) {
        assert at[j] < at[i];
      }
      FirstIs(r, f, i);
    } else {
      forall j | 0 <= j < |r| ensures !OfFamily(r[j], f) {
        assert at[j] < |ips|;
      }
    }
  }

  lemma FirstIs(ips: seq<Ip>, f: Family, k: nat)
    requires k < |ips| && OfFamily(ips[k], f) && forall i :: 0 <= i < k ==> !OfFamily(ips[i], f)
    ensures First(ips, f) == k
  {}

  /** A selection that holds the first address of each family picks the same address as the
      whole list, for every family. */
  lemma SelectionPicksTheSame(ips: seq<Ip>, at: seq<nat>, r: seq<Ip>, f: Family)
    requires Selects(ips, at, r)
    requires forall g :: g != Any && First(ips, g) < |ips| ==> First(ips, g) in at
    ensures Pick(r, f) == Pick(ips, f)
  {
    SelectionKeepsFirst(ips, at, r, Ipv4);
    SelectionKeepsFirst(ips, at, r, Ipv6);
    hide Find, First, Selects;
    if Find(ips, Ipv4).None? {
      HeadFallback(ips);
      HeadFallback(r);
    }
  }

  /** Without an IPv4 address the fallback is the first IPv6 one. */
  lemma HeadFallback(ips: seq<Ip>)
    requires Find(ips, Ipv4).None?
    ensures (if ips == [] then None else Some(ips[0])) == Find(ips, Ipv6)
  {
    FindIsFirst(ips, Ipv4);
    assert ips != [] ==> ips[0].Six?;
  }

  // ---------------------------------------------------------------- the cap

  /** The positions marked in `keep`, in order. */
  function Marked(keep: seq<bool>): (at: seq<nat>)
    ensures forall i :: 0 <= i < |at| ==> at[i] < |keep| && keep[at[i]]
    ensures forall i, j :: 0 <= i < j < |at| ==> at[i] < at[j]
  {
    if keep == [] then []
    else
      var front := Marked(keep[..|keep| - 1]);
      if keep[|keep| - 1] then front + [|keep| - 1] else front
  }

  function Count(keep: seq<bool>): nat {
    if keep == [] then 0 else Count(keep[..|keep| - 1]) + if keep[|keep| - 1] then 1 else 0
  }

  lemma {:induction false} MarkedCount(keep: seq<bool>)
    ensures |Marked(keep)| == Count(keep) <= |keep|
  {
    if keep != [] {
      MarkedCount(keep[..|keep| - 1]);
    }
  }

  lemma {:induction false} MarkedHolds(keep: seq<bool>, i: nat)
    requires i < |keep| && keep[i]
    ensures i in Marked(keep)
  {
    var n := |keep| - 1;
    var front := Marked(keep[..n]);
    if i < n {
      MarkedHolds(keep[..n], i);
      assert i in front;
    } else {
      assert Marked(keep) == front + [n];
    }
  }

  lemma {:induction false} FullCount(keep: seq<bool>)
    ensures Count(keep) == |keep| <==> forall i :: 0 <= i < |keep| ==> keep[i]
  {
    if keep != [] {
      var front := keep[..|keep| - 1];
      FullCount(front);
      MarkedCount(front);
      assert forall i :: 0 <= i < |front| ==> front[i] == keep[i];
    }
  }

  lemma {:induction false} MarkOneMore(keep: seq<bool>, i: nat)
    requires i < |keep| && !keep[i]
    ensures Count(keep[i := true]) == Count(keep) + 1
  {
    var front := keep[..|keep| - 1];
    if i == |keep| - 1 {
      assert keep[i := true][..i] == front;
    } else {
      MarkOneMore(front, i);
      assert keep[i := true][..|keep| - 1] == front[i := true];
    }
  }

  lemma {:induction false} NoneMarked(keep: seq<bool>)
    requires forall i :: 0 <= i < |keep| ==> !keep[i]
    ensures Count(keep) == 0
  {
    if keep != [] {
      NoneMarked(keep[..|keep| - 1]);
    }
  }

  function At(ips: seq<Ip>, at: seq<nat>): (r: seq<Ip>)
    requires forall i :: 0 <= i < |at| ==> at[i] < |ips|
    ensures |r| == |at| && forall i :: 0 <= i < |at| ==> r[i] == ips[at[i]]
  {
    seq(|at|, i requires 0 <= i < |at| => ips[at[i]])
  }

  ghost predicate Reserved(ips: seq<Ip>, i: nat) { i == First(ips, Ipv4) || i == First(ips, Ipv6) }

  /** What the cap promises: `min(n, 4)` addresses in resolver order, among them the first of
      each family, and apart from those two the earliest ones. */
  ghost predicate Capped(ips: seq<Ip>, at: seq<nat>, r: seq<Ip>) {
    && Selects(ips, at, r)
    && |r| == Min(|ips|, MAX_VETTED_ADDRESSES)
    && (forall g :: g != Any && First(ips, g) < |ips| ==> First(ips, g) in at)
    && (forall i, j :: 0 <= i < j < |ips| && i !in at && j in at ==> Reserved(ips, j))
  }

  /** The reserved positions among the first `n`. */
  lemma ReservePass(ips: seq<Ip>, n: nat)
    requires n < |ips|
    ensures Reserved(ips, n) <==>
              if ips[n].Four? then forall i :: 0 <= i < n ==> ips[i].Six? else forall i :: 0 <= i < n ==> ips[i].Four?
  {}

  lemma {:induction false} IncreasingIsDetermined(a: seq<nat>, b: seq<nat>)
    requires forall i, j :: 0 <= i < j < |a| ==> a[i] < a[j]
    requires forall i, j :: 0 <= i < j < |b| ==> b[i] < b[j]
    requires |a| == |b| && forall x :: x in a <==> x in b
    ensures a == b
  {
    if a != [] {
      assert a[0] in b && b[0] in a;
      assert a[0] == b[0];
      assert a == [a[0]] + a[1..] && b == [b[0]] + b[1..];
      forall x ensures x in a[1..] <==> x in b[1..] {
        assert x in a[1..] <==> x in a && x != a[0];
        assert x in b[1..] <==> x in b && x != b[0];
      }
      IncreasingIsDetermined(a[1..], b[1..]);
    }
  }

  function Positions(at: seq<nat>): set<nat> { set x | x in at }

  lemma {:induction false} PositionsCount(at: seq<nat>)
    requires forall i, j :: 0 <= i < j < |at| ==> at[i] < at[j]
    ensures |Positions(at)| == |at|
  {
    if at != [] {
      var front, last := at[..|at| - 1], at[|at| - 1];
      assert at == front + [last];
      PositionsCount(front);
      assert Positions(at) == Positions(front) + {last} && last !in Positions(front);
    }
  }

  lemma SameSizeNoneMissing(a: set<nat>, b: set<nat>)
    requires |a| == |b| && a != b
    ensures a - b != {} && b - a != {}
  {
    assert |a - b| + |a * b| == |a| by { assert a == (a - b) + (a * b); }
    assert |b - a| + |a * b| == |b| by { assert b == (b - a) + (a * b); }
    assert a - b == {} ==> b - a == {};
    assert a - b == {} && b - a == {} ==> a == b;
  }

  /** No position of one list is traded for a position of the other. */
  lemma NoTrade(ips: seq<Ip>, at: seq<nat>, r: seq<Ip>, at': seq<nat>, r': seq<Ip>, i: nat, j: nat)
    requires Capped(ips, at, r) && Capped(ips, at', r')
    ensures !(i in at && i !in at' && j in at' && j !in at)
  {
    assert i in at && i !in at' ==> !Reserved(ips, i);
    assert j in at' && j !in at ==> !Reserved(ips, j);
  }

  /** The promise leaves no choice: whatever is capped by it is one and the same list. */
  lemma CapIsDetermined(ips: seq<Ip>, at: seq<nat>, r: seq<Ip>, at': seq<nat>, r': seq<Ip>)
    requires Capped(ips, at, r) && Capped(ips, at', r')
    ensures r == r'
  {
    PositionsCount(at);
    PositionsCount(at');
    if Positions(at) != Positions(at') {
      SameSizeNoneMissing(Positions(at), Positions(at'));
      var i :| i in Positions(at) - Positions(at');
      var j :| j in Positions(at') - Positions(at);
      NoTrade(ips, at, r, at', r', i, j);
    }
    assert forall x :: x in at <==> x in Positions(at);
    assert forall x :: x in at' <==> x in Positions(at');
    IncreasingIsDetermined(at, at');
  }

  /** One slot per family first, then resolver order, on a table of marks. */
  method CapVetted(ips: seq<Ip>) returns (r: seq<Ip>)
    ensures exists at :: Capped(ips, at, r)
  {
    if |ips| <= MAX_VETTED_ADDRESSES {
      r := ips;
      SmallListIsCapped(ips, seq(|ips|, i => i));
      return;
    }
    hide First, Count, Capped, Reserved, Marked;
    var keep := new bool[|ips|](_ => false);
    var kept := ReserveSlots(ips, keep);
    FillSlots(ips, keep, kept);
    ghost var marks := keep[..];
    MarksAreCapped(ips, marks);
    r := At(ips, Marked(keep[..]));
  }

  lemma SmallListIsCapped(ips: seq<Ip>, at: seq<nat>)
    requires |ips| == |at| <= MAX_VETTED_ADDRESSES && forall i :: 0 <= i < |ips| ==> at[i] == i
    ensures Capped(ips, at, ips)
  {
    forall i | 0 <= i < |ips| ensures i in at {
      assert at[i] == i;
    }
  }

  lemma MarksAreCapped(ips: seq<Ip>, keep: seq<bool>)
    requires |keep| == |ips| > MAX_VETTED_ADDRESSES == Count(keep)
    requires forall i :: 0 <= i < |ips| && Reserved(ips, i) ==> keep[i]
    requires forall i, j :: 0 <= i < j < |ips| && !keep[i] && keep[j] ==> Reserved(ips, j)
    ensures Capped(ips, Marked(keep), At(ips, Marked(keep)))
  {
    MarkedCount(keep);
    MarkedMembers(keep);
    FirstIsReserved(ips);
    hide First, Reserved, Marked, Count;
    var at := Marked(keep);
    MarkedSelects(ips, keep);
    hide Selects;
    assert forall i, j :: 0 <= i < j < |ips| && i !in at && j in at ==> Reserved(ips, j);
  }

  lemma MarkedMembers(keep: seq<bool>)
    ensures forall i: nat :: i in Marked(keep) <==> i < |keep| && keep[i]
  {
    forall i: nat | i < |keep| && keep[i] ensures i in Marked(keep) {
      MarkedHolds(keep, i);
    }
    hide Marked;
  }

  lemma MarkedSelects(ips: seq<Ip>, keep: seq<bool>)
    requires |keep| == |ips|
    ensures Selects(ips, Marked(keep), At(ips, Marked(keep)))
  {
    hide Marked;
  }

  lemma FirstIsReserved(ips: seq<Ip>)
    ensures forall g :: g != Any && First(ips, g) < |ips| ==> Reserved(ips, First(ips, g))
  {
    hide First;
  }

  method ReserveSlots(ips: seq<Ip>, keep: array<bool>) returns (kept: nat)
    requires keep.Length == |ips| && |ips| > MAX_VETTED_ADDRESSES
    requires forall i :: 0 <= i < |ips| ==> !keep[i]
    modifies keep
    ensures forall i :: 0 <= i < |ips| ==> (keep[i] <==> Reserved(ips, i))
    ensures kept == Count(keep[..]) && kept <= 2
  {
    NoneMarked(keep[..]);
    kept := 0;
    var v4Reserved, v6Reserved := false, false;
    for i := 0 to |ips|
      invariant forall j :: 0 <= j < |ips| ==> (keep[j] <==> j < i && Reserved(ips, j))
      invariant v4Reserved <==> First(ips, Ipv4) < i
      invariant v6Reserved <==> First(ips, Ipv6) < i
      invariant kept == Count(keep[..])
      invariant kept == (if v4Reserved then 1 else 0) + (if v6Reserved then 1 else 0)
    {
      ReservePass(ips, i);
      if ips[i].Four? {
        if v4Reserved { continue; }
        v4Reserved := true;
      } else {
        if v6Reserved { continue; }
        v6Reserved := true;
      }
      MarkOneMore(keep[..], i);
      ghost var before := keep[..];
      keep[i] := true;
      assert keep[..] == before[i := true];
      kept := kept + 1;
    }
  }

  method FillSlots(ips: seq<Ip>, keep: array<bool>, kept0: nat)
    requires keep.Length == |ips| > MAX_VETTED_ADDRESSES
    requires forall i :: 0 <= i < |ips| ==> (keep[i] <==> Reserved(ips, i))
    requires kept0 == Count(keep[..]) && kept0 <= 2
    modifies keep
    ensures Count(keep[..]) == MAX_VETTED_ADDRESSES
    ensures forall i :: 0 <= i < |ips| && Reserved(ips, i) ==> keep[i]
    ensures forall i, j :: 0 <= i < j < |ips| && !keep[i] && keep[j] ==> Reserved(ips, j)
  {
    var kept := kept0;
    var i := 0;
    while i < |ips| && kept < MAX_VETTED_ADDRESSES
      invariant 0 <= i <= |ips| && kept == Count(keep[..]) <= MAX_VETTED_ADDRESSES
      invariant forall j :: 0 <= j < i ==> keep[j]
      invariant forall j :: i <= j < |ips| ==> (keep[j] <==> Reserved(ips, j))
    {
      if !keep[i] {
        MarkOneMore(keep[..], i);
        ghost var before := keep[..];
        keep[i] := true;
        assert keep[..] == before[i := true];
        kept := kept + 1;
      }
      i := i + 1;
    }
    FullCount(keep[..]);
  }

  // ---------------------------------------------------------------- the probe's answer list

  datatype Vetting = Vetted(addrs: seq<Ip>) | Blocked(ip: Ip, reason: string) | NoAddresses

  /** Each distinct address once, where it first stands. */
  function Dedup(ips: seq<Ip>): (r: seq<Ip>)
    ensures forall x :: x in r <==> x in ips
    ensures forall i, j :: 0 <= i < j < |r| ==> r[i] != r[j]
  {
    if ips == [] then []
    else
      var front, last := Dedup(ips[..|ips| - 1]), ips[|ips| - 1];
      if last in front then front else front + [last]
  }

  lemma {:induction false} FindOfPrefix(a: seq<Ip>, b: seq<Ip>, f: Family)
    ensures Find(a + b, f) == if Find(a, f).Some? then Find(a, f) else Find(b, f)
  {
    if a == [] {
      assert a + b == b;
    } else {
      assert (a + b)[1..] == a[1..] + b;
      FindOfPrefix(a[1..], b, f);
    }
  }

  lemma {:induction false} FoundWhenPresent(a: seq<Ip>, x: Ip, f: Family)
    requires x in a && OfFamily(x, f)
    ensures Find(a, f).Some?
  {
    if !OfFamily(a[0], f) {
      FoundWhenPresent(a[1..], x, f);
    }
  }

  /** Dropping repetitions never changes the pick. */
  lemma {:induction false} DedupPicksTheSame(ips: seq<Ip>, f: Family)
    ensures Find(Dedup(ips), f) == Find(ips, f)
    ensures Pick(Dedup(ips), f) == Pick(ips, f)
  {
    DedupFindsTheSame(ips, f);
    DedupFindsTheSame(ips, Ipv4);
    DedupFindsTheSame(ips, Ipv6);
    if Find(ips, Ipv4).None? {
      HeadFallback(ips);
      HeadFallback(Dedup(ips));
    }
  }

  lemma {:induction false} DedupFindsTheSame(ips: seq<Ip>, f: Family)
    ensures Find(Dedup(ips), f) == Find(ips, f)
  {
    if ips != [] {
      var front, last := ips[..|ips| - 1], ips[|ips| - 1];
      assert ips == front + [last];
      DedupFindsTheSame(front, f);
      FindOfPrefix(front, [last], f);
      FindOfPrefix(Dedup(front), [last], f);
      if last in front && OfFamily(last, f) {
        FoundWhenPresent(front, last, f);
      }
    }
  }

  function Distinct(ips: seq<Ip>): set<Ip> { set x | x in ips }

  lemma {:induction false} DedupCounts(ips: seq<Ip>)
    ensures |Dedup(ips)| == |Distinct(ips)|
  {
    if ips != [] {
      var front, last := ips[..|ips| - 1], ips[|ips| - 1];
      assert ips == front + [last];
      DedupCounts(front);
      assert Distinct(ips) == Distinct(front) + {last};
      assert last in Dedup(front) <==> last in front;
    }
  }

  ghost predicate FirstBlocked(lookup: seq<Ip>, allowPrivate: bool, k: int, ip: Ip, reason: string) {
    && 0 <= k < |lookup| && lookup[k] == ip && CheckIp(ip, allowPrivate) == Refused(reason)
    && (forall i :: 0 <= i < k ==> CheckIp(lookup[i], allowPrivate) == Accepted)
  }

  /** The probe's list: the first refused address refuses the host; else the distinct
      addresses, capped. */
  method VetResolvedAddrs(allowPrivate: bool, lookup: seq<Ip>) returns (out: Vetting)
    ensures out.Vetted? <==> lookup != [] && forall ip :: ip in lookup ==> CheckIp(ip, allowPrivate) == Accepted
    ensures out.NoAddresses? <==> lookup == []
    ensures out.Blocked? ==> exists k :: FirstBlocked(lookup, allowPrivate, k, out.ip, out.reason)
    ensures out.Vetted? ==> exists at :: Capped(Dedup(lookup), at, out.addrs)
  {
    var addrs := [];
    for i := 0 to |lookup|
      invariant addrs == Dedup(lookup[..i])
      invariant forall j :: 0 <= j < i ==> CheckIp(lookup[j], allowPrivate) == Accepted
    {
      var ip := lookup[i];
      assert lookup[..i + 1][..i] == lookup[..i];
      match CheckIp(ip, allowPrivate) {
        case Refused(reason) =>
          out := Blocked(ip, reason);
          assert ip in lookup && FirstBlocked(lookup, allowPrivate, i, ip, reason);
          return;
        case Accepted =>
      }
      if ip !in addrs {
        addrs := addrs + [ip];
      }
    }
    hide FirstBlocked, Capped, CheckIp;
    assert lookup[..|lookup|] == lookup;
    assert forall ip :: ip in addrs <==> ip in lookup;
    if addrs == [] {
      assert |lookup| == 0;
      out := NoAddresses;
      return;
    }
    assert addrs[0] in lookup;
    var capped := CapVetted(addrs);
    out := Vetted(capped);
  }

  // ---------------------------------------------------------------- the other two readers

  /** The geo resolver's choice: the first answer when it is IPv4, else the first IPv4 after
      it, else the first. */
  function FirstIp(lookup: seq<Ip>): Option<Ip> {
    if lookup == [] then None
    else if lookup[0].Four? then Some(lookup[0])
    else
      var later := Find(lookup[1..], Ipv4);
      if later.Some? then later else Some(lookup[0])
  }

  function Only(ips: seq<Ip>, f: Family): (r: seq<Ip>)
    ensures forall x :: x in r <==> x in ips && OfFamily(x, f)
  {
    if ips == [] then []
    else if OfFamily(ips[0], f) then [ips[0]] + Only(ips[1..], f)
    else Only(ips[1..], f)
  }

  lemma {:induction false} OnlyPicksTheSame(ips: seq<Ip>, f: Family)
    ensures Pick(Only(ips, f), f) == Pick(ips, f)
    ensures Pick(ips, f).None? <==> Only(ips, f) == []
  {
    if f == Any {
      OnlyAnyIsAll(ips);
    } else {
      OnlyFindsTheSame(ips, f);
    }
  }

  lemma {:induction false} OnlyAnyIsAll(ips: seq<Ip>)
    ensures Only(ips, Any) == ips
  {
    if ips != [] {
      OnlyAnyIsAll(ips[1..]);
      assert ips == [ips[0]] + ips[1..];
    }
  }

  lemma {:induction false} OnlyFindsTheSame(ips: seq<Ip>, f: Family)
    ensures Find(Only(ips, f), f) == Find(ips, f)
    ensures Find(ips, f).None? <==> Only(ips, f) == []
  {
    if ips != [] {
      OnlyFindsTheSame(ips[1..], f);
      if OfFamily(ips[0], f) {
        assert Only(ips, f) == [ips[0]] + Only(ips[1..], f);
      }
    }
  }

  /** The fetcher: filter by family, vet what is left, pick. */
  function VetHost(lookup: seq<Ip>, allowPrivate: bool, f: Family): Option<Ip> {
    var addrs := Only(lookup, f);
    if forall ip :: ip in addrs ==> CheckIp(ip, allowPrivate) == Accepted then Pick(addrs, f) else None
  }

  /** One answer, three readers: whenever the probe accepts it, picking from the probe's capped
      list, from the raw answer and through the fetcher give the same address, for every
      family; and for `Any` that is also the address the geo resolver looks up. */
  lemma ReadersAgree(lookup: seq<Ip>, allowPrivate: bool, at: seq<nat>, capped: seq<Ip>, f: Family)
    requires forall ip :: ip in lookup ==> CheckIp(ip, allowPrivate) == Accepted
    requires Capped(Dedup(lookup), at, capped)
    ensures Pick(capped, f) == Pick(lookup, f) == VetHost(lookup, allowPrivate, f)
    ensures Pick(capped, Any) == FirstIp(lookup)
    ensures |capped| == Min(|Distinct(lookup)|, MAX_VETTED_ADDRESSES)
    ensures forall i, j :: 0 <= i < j < |capped| ==> capped[i] != capped[j]
  {
    SelectionPicksTheSame(Dedup(lookup), at, capped, f);
    SelectionPicksTheSame(Dedup(lookup), at, capped, Any);
    DedupPicksTheSame(lookup, f);
    DedupPicksTheSame(lookup, Any);
    OnlyPicksTheSame(lookup, f);
    DedupCounts(lookup);
  }

  /** What the fetcher hands out is of the requested family and vetted. */
  lemma FetcherDialsVetted(lookup: seq<Ip>, allowPrivate: bool, f: Family)
    requires VetHost(lookup, allowPrivate, f).Some?
    ensures var ip := VetHost(lookup, allowPrivate, f).value;
      ip in lookup && OfFamily(ip, f) && CheckIp(ip, allowPrivate) == Accepted
  {
    var addrs := Only(lookup, f);
    FindIsFirst(addrs, f);
    FindIsFirst(addrs, Ipv4);
  }

  /** The two vetting rules differ where they may: an address of the other family can refuse a
      host to the probe and not to the fetcher, never the other way round. */
  lemma FetcherIsNoStricter(lookup: seq<Ip>, allowPrivate: bool, f: Family)
    requires lookup != [] && forall ip :: ip in lookup ==> CheckIp(ip, allowPrivate) == Accepted
    ensures VetHost(lookup, allowPrivate, f).Some? <==> exists ip :: ip in lookup && OfFamily(ip, f)
  {
    OnlyPicksTheSame(lookup, f);
    if exists ip :: ip in lookup && OfFamily(ip, f) {
      var ip :| ip in lookup && OfFamily(ip, f);
      assert ip in Only(lookup, f);
    }
    if Only(lookup, f) != [] {
      assert Only(lookup, f)[0] in lookup;
    }
  }
}
