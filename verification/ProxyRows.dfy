/** One proxy's row and the transitions health checks apply to it. */
module ProxyRows {
  import opened Prelude

  import opened Schemes
  datatype Status = Unknown | Alive | Ready | Quarantine | Removed

  datatype Kind = T1 | T2
  datatype Attempt = Attempt(kind: Kind, ok: bool)

  /** A proxy row and its journal, oldest attempt first. */
  datatype Proxy = Proxy(
    scheme: Scheme,
    status: Status,
    failCount: nat,
    t2FailedAt: Option<int>,
    quarantinedAt: Option<int>,
    ladderAt: Option<int>,
    ladderStep: nat,
    removedAt: Option<int>,
    linked: bool,
    journal: seq<Attempt>)

  datatype Config = Config(failLimit: nat, secondChanceMin: nat, delays: seq<int>)

  /** The statuses a regular check may write to. */
  predicate Regular(s: Status) { s == Unknown || s == Alive || s == Ready }

  /** A successful check: only the tunnel tier lifts the T2 block, a T1 success never demotes
      `ready`, and `removed` stays terminal. */
  function CheckSucceeded(p: Proxy, reset: bool, ready: bool): Proxy {
    if p.status == Removed then p else
    p.(status := if ready || p.status == Ready then Ready else Alive,
       failCount := if reset then 0 else p.failCount,
       quarantinedAt := None, ladderAt := None, ladderStep := 0,
       t2FailedAt := if ready then None else p.t2FailedAt)
  }

  /** A failed regular check; `jitter` is the random part of the second chance. */
  function CheckFailed(c: Config, p: Proxy, now: int, jitter: nat, markT2: bool): Proxy {
    if !Regular(p.status) then p else
    var count := p.failCount + 1;
    var blocked := if markT2 then Some(now) else p.t2FailedAt;
    if count >= c.failLimit then
      p.(status := Quarantine, failCount := count, t2FailedAt := blocked, quarantinedAt := Some(now),
         ladderAt := Some(now + c.secondChanceMin + jitter), ladderStep := 0)
    else
      p.(status := if p.status == Ready then Alive else p.status, failCount := count, t2FailedAt := blocked)
  }

  /** A tunnel attempt that never happened because the engine was down. */
  function EngineUnavailable(p: Proxy, now: int): Proxy {
    if !Regular(p.status) then p else
    p.(status := if p.status == Ready then Alive else p.status, t2FailedAt := Some(now))
  }

  /** A failed recheck of a quarantined proxy: the next step of the ladder, or removal. */
  function QuarantineCheckFailed(c: Config, p: Proxy, now: int): Proxy {
    if p.status != Quarantine then p
    else if p.ladderStep < |c.delays| then
      var delay := c.delays[p.ladderStep];
      p.(ladderAt := Some(now + if delay > 0 then delay else 0), ladderStep := p.ladderStep + 1)
    else
      p.(status := Removed, removedAt := Some(now), ladderAt := None, ladderStep := 0)
  }

  function Journal(p: Proxy, kind: Kind, ok: bool): Proxy {
    p.(journal := p.journal + [Attempt(kind, ok)])
  }

  /** Kind of the newest failed attempt. */
  function LastFailedKind(journal: seq<Attempt>): Option<Kind> {
    if journal == [] then None
    else var last := journal[|journal| - 1];
      if !last.ok then Some(last.kind) else LastFailedKind(journal[..|journal| - 1])
  }

  /** Outcome of the newest tunnel attempt. */
  function LastT2(journal: seq<Attempt>): Option<bool> {
    if journal == [] then None
    else var last := journal[|journal| - 1];
      if last.kind == T2 then Some(last.ok) else LastT2(journal[..|journal| - 1])
  }

  // ---------------------------------------------------------------- lanes

  /** The passes of one cycle, in the order they run. */
  datatype Lane = Revival | Recheck | Queue | Sample | Tunnel

  datatype Outcome = Passed | Failed | EngineFault

  /** One verdict about one proxy, applied at `at`. */
  datatype Check = Check(id: int, outcome: Outcome, at: int, jitter: nat)

  predicate T1Excluded(s: Scheme) { s == Hysteria2 || s == Tuic || s == Mieru }
  predicate T2Supported(s: Scheme) { s != Tuic && s != Mieru && s != Naive }
  predicate T2Revival(s: Scheme) { s == Hysteria2 }

  predicate Due(p: Proxy, now: int) {
    p.status == Quarantine && p.ladderAt.Some? && p.ladderAt.value <= now
  }

  /** Which rows a lane's selector offers. */
  predicate Eligible(lane: Lane, p: Proxy, now: int) {
    match lane
    case Revival => Due(p, now) && T2Revival(p.scheme)
    case Recheck => Due(p, now) && !T2Revival(p.scheme)
    case Queue => p.status == Unknown && !T1Excluded(p.scheme) && p.t2FailedAt.None? && p.linked
    case Sample =>
      (p.status == Unknown || p.status == Alive) && !T1Excluded(p.scheme) && p.t2FailedAt.None? && p.linked
    case Tunnel =>
      && (p.status == Alive || p.status == Ready || (p.status == Unknown && p.scheme == Hysteria2))
      && T2Supported(p.scheme) && p.linked
  }

  predicate TunnelLane(lane: Lane) { lane == Revival || lane == Tunnel }
  predicate LadderLane(lane: Lane) { lane == Revival || lane == Recheck }

  /** Only lanes that go through the tunnel engine can meet an engine fault. */
  predicate Sensible(lane: Lane, o: Outcome) { o == EngineFault ==> TunnelLane(lane) }

  /** One check: journal the attempt, then move the row. */
  function Judge(c: Config, lane: Lane, p: Proxy, check: Check): Proxy {
    var kind := if TunnelLane(lane) then T2 else T1;
    var q := Journal(p, kind, check.outcome == Passed);
    match check.outcome
    case EngineFault => EngineUnavailable(q, check.at)
    case Passed =>
      CheckSucceeded(q, LadderLane(lane) || TunnelLane(lane) || LastFailedKind(q.journal) != Some(T2),
                     TunnelLane(lane))
    case Failed =>
      if LadderLane(lane) then QuarantineCheckFailed(c, q, check.at)
      else CheckFailed(c, q, check.at, check.jitter, TunnelLane(lane))
  }

  // ---------------------------------------------------------------- the other writers

  /** What the rest of the program does to a row: the panel's reset and its revivals, retirement
      by a refresh, a deleted source or a clean-up, links coming and going, and the retention of
      old journal rows. */
  datatype Edit = Reset | ReviveQuarantine | ReleaseUnknown | Retire(at: int, clear: bool) | Relink(linked: bool) | Prune(k: nat)

  predicate CanEdit(p: Proxy, e: Edit) {
    match e
    case Reset => p.linked && (p.status == Removed || !T1Excluded(p.scheme) || p.scheme == Hysteria2)
    case ReviveQuarantine => p.linked && p.status == Quarantine
    case ReleaseUnknown => p.linked && p.status == Unknown && p.t2FailedAt.Some? && p.journal == []
    case Retire(_, _) => p.status != Removed
    case Relink(_) => true
    case Prune(k) => k <= |p.journal|
  }

  /** The fields every reset clears. */
  function Cleared(p: Proxy): Proxy {
    p.(failCount := 0, quarantinedAt := None, ladderAt := None, ladderStep := 0, t2FailedAt := None)
  }

  function ApplyEdit(p: Proxy, e: Edit): Proxy
    requires CanEdit(p, e)
  {
    match e
    case Reset => Cleared(p).(status := Unknown, removedAt := None)
    case ReviveQuarantine => Cleared(p).(status := Unknown)
    case ReleaseUnknown => Cleared(p)
    case Retire(at, clear) =>
      var q := p.(status := Removed, removedAt := Some(at));
      if clear then q.(quarantinedAt := None, ladderAt := None, ladderStep := 0) else q
    case Relink(linked) => p.(linked := linked)
    case Prune(k) => p.(journal := p.journal[k..])
  }

  /** Which rows each edit takes: resets leave out only rows no check will ever judge, unless removed. */
  lemma EditRules(p: Proxy, at: int, clear: bool)
    ensures CanEdit(p, Reset) <==> p.linked && (p.status == Removed || p.scheme !in {Tuic, Mieru})
    ensures CanEdit(p, ReviveQuarantine) <==> p.linked && p.status == Quarantine
    ensures CanEdit(p, ReleaseUnknown) <==> p.linked && p.status == Unknown && p.t2FailedAt != None && |p.journal| == 0
    ensures CanEdit(p, Retire(at, clear)) <==> p.status in {Unknown, Alive, Ready, Quarantine}
  {}

  /** A row without a trace of failed checks. */
  predicate Clean(q: Proxy) {
    q.failCount == 0 && q.t2FailedAt.None? && q.quarantinedAt.None? && q.ladderAt.None? && q.ladderStep == 0
  }

  /** What each edit leaves: a clean row of status unknown, a removed one that keeps its counter and
      block, or the row with nothing but its link or its journal changed. */
  lemma EditEffect(p: Proxy, e: Edit)
    requires CanEdit(p, e)
    ensures var q := ApplyEdit(p, e);
      && q.scheme == p.scheme && (!e.Relink? ==> q.linked == p.linked) && (!e.Prune? ==> q.journal == p.journal)
      && match e
         case Reset => q.status == Unknown && Clean(q) && q.removedAt == None
         case ReviveQuarantine => q.status == Unknown && Clean(q) && q.removedAt == p.removedAt
         case ReleaseUnknown => q.status == Unknown && Clean(q) && q.removedAt == p.removedAt
         case Retire(at, clear) =>
           && q.status == Removed && q.removedAt == Some(at) && q.failCount == p.failCount && q.t2FailedAt == p.t2FailedAt
           && (if clear then q.quarantinedAt == None && q.ladderAt == None && q.ladderStep == 0
               else q.quarantinedAt == p.quarantinedAt && q.ladderAt == p.ladderAt && q.ladderStep == p.ladderStep)
         case Relink(linked) => q.linked == linked && SameLife(p, q)
         case Prune(k) => SameLife(p, q) && |q.journal| == |p.journal| - k && forall i :: 0 <= i < |q.journal| ==> q.journal[i] == p.journal[k + i]
  {}

  /** `q` is `p` after any number of edits; journal rows are dropped only if `pruning`. */
  ghost predicate EditedBy(p: Proxy, edits: seq<Edit>, q: Proxy, pruning: bool)
    decreases |edits|
  {
    if edits == [] then q == p
    else CanEdit(p, edits[0]) && (edits[0].Prune? ==> pruning) && EditedBy(ApplyEdit(p, edits[0]), edits[1..], q, pruning)
  }

  ghost predicate Edited(p: Proxy, q: Proxy, pruning: bool) {
    exists edits :: EditedBy(p, edits, q, pruning)
  }

  predicate SameLife(p: Proxy, q: Proxy) {
    && q.status == p.status && q.failCount == p.failCount && q.t2FailedAt == p.t2FailedAt
    && q.quarantinedAt == p.quarantinedAt && q.ladderAt == p.ladderAt && q.ladderStep == p.ladderStep
    && q.removedAt == p.removedAt
  }

  /** What edits come to: the lifecycle untouched, started over, or ended. */
  predicate EditShape(p: Proxy, q: Proxy) {
    && q.scheme == p.scheme
    && (|| SameLife(p, q)
        || (q.status == Unknown && Clean(q))
        || (q.status == Removed && (q.failCount == p.failCount || q.failCount == 0)))
  }

  lemma {:induction false} EditsKeepShape(p: Proxy, edits: seq<Edit>, q: Proxy, pruning: bool)
    requires EditedBy(p, edits, q, pruning)
    ensures EditShape(p, q)
    decreases |edits|
  {
    if edits != [] {
      var m := ApplyEdit(p, edits[0]);
      assert EditShape(p, m);
      EditsKeepShape(m, edits[1..], q, pruning);
    }
  }

  /** No edit raises the counter, quarantines a row or promotes it. */
  lemma EditedShape(p: Proxy, q: Proxy, pruning: bool)
    requires Edited(p, q, pruning)
    ensures EditShape(p, q)
  {
    var edits :| EditedBy(p, edits, q, pruning);
    EditsKeepShape(p, edits, q, pruning);
  }

  lemma UntouchedIsEdited(p: Proxy, pruning: bool)
    ensures Edited(p, p, pruning)
  {
    assert EditedBy(p, [], p, pruning);
  }

  /** A row on the ladder or past it can be started over. */
  lemma CanStartOver(p: Proxy, pruning: bool)
    requires p.status == Quarantine || p.status == Removed
    ensures exists q :: Edited(p, q, pruning) && q.status == Unknown && Cleared(q) == q && q.linked && q.scheme == p.scheme
  {
    var linked := ApplyEdit(p, Relink(true));
    var e := if p.status == Quarantine then ReviveQuarantine else Reset;
    var q := ApplyEdit(linked, e);
    var edits := [Relink(true), e];
    assert edits[1..][0] == e && edits[1..][1..] == [];
    assert EditedBy(linked, edits[1..], q, pruning);
    assert EditedBy(p, edits, q, pruning);
  }
}
