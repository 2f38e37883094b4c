/** What a verdict does to a row, field by field.

The transitions themselves are in `ProxyRows`; here each is described from the rows before and
after it alone. */
module ProbeEffects {
  import opened Prelude
  import opened ProxyRows
  import opened Schemes

  /** One more attempt in the journal, and nothing else outside the lifecycle. */
  predicate Journaled(p: Proxy, q: Proxy, kind: Kind, ok: bool) {
    q.journal == p.journal + [Attempt(kind, ok)] && q.scheme == p.scheme && q.linked == p.linked
  }

  predicate LadderCleared(q: Proxy) { q.quarantinedAt == None && q.ladderAt == None && q.ladderStep == 0 }

  /** The newest failed attempt went through the tunnel. */
  ghost predicate NewestFailureWasTunnel(journal: seq<Attempt>) {
    exists i :: 0 <= i < |journal| && journal[i] == Attempt(T2, false) && forall k :: i < k < |journal| ==> journal[k].ok
  }

  /** The tunnel answered: the row is `ready`, whatever it was, unless it was removed. */
  predicate TunnelPassed(p: Proxy, q: Proxy) {
    if p.status == Removed then SameLife(p, q)
    else q.status == Ready && q.failCount == 0 && q.t2FailedAt == None && LadderCleared(q) && q.removedAt == p.removedAt
  }

  /** A direct connect succeeded: `ready` stays, anything else but `removed` is alive; the block
      stays, and the counter is forgiven only if `forgiven`. */
  predicate DirectPassed(p: Proxy, q: Proxy, forgiven: bool) {
    if p.status == Removed then SameLife(p, q)
    else
      && q.status == (if p.status == Ready then Ready else Alive) && q.failCount == (if forgiven then 0 else p.failCount)
      && q.t2FailedAt == p.t2FailedAt && LadderCleared(q) && q.removedAt == p.removedAt
  }

  /** One step on the counter; at the limit the row is quarantined with a second chance ahead.  A
      tunnel failure also blocks direct checks.  Rows on the ladder or past it are left alone. */
  predicate CounterCharged(c: Config, p: Proxy, q: Proxy, at: int, jitter: nat, blocks: bool) {
    if p.status == Quarantine || p.status == Removed then SameLife(p, q)
    else
      && q.failCount == p.failCount + 1 && q.t2FailedAt == (if blocks then Some(at) else p.t2FailedAt)
      && q.removedAt == p.removedAt
      && if p.failCount + 1 >= c.failLimit then
           && q.status == Quarantine && q.quarantinedAt == Some(at) && q.ladderStep == 0
           && q.ladderAt == Some(at + c.secondChanceMin + jitter)
         else
           && q.status == (if p.status == Ready then Alive else p.status)
           && q.quarantinedAt == p.quarantinedAt && q.ladderAt == p.ladderAt && q.ladderStep == p.ladderStep
  }

  /** One step on the ladder, or removal past the last; other rows are left alone. */
  predicate LadderCharged(c: Config, p: Proxy, q: Proxy, at: int) {
    if p.status != Quarantine then SameLife(p, q)
    else
      && q.failCount == p.failCount && q.t2FailedAt == p.t2FailedAt && q.quarantinedAt == p.quarantinedAt
      && if p.ladderStep < |c.delays| then
           && q.status == Quarantine && q.ladderStep == p.ladderStep + 1 && q.removedAt == p.removedAt
           && q.ladderAt == Some(at + Max(0, c.delays[p.ladderStep]))
         else
           q.status == Removed && q.removedAt == Some(at) && q.ladderAt == None && q.ladderStep == 0
  }

  /** The engine was no help: nothing is charged, `ready` is not kept, and direct checks wait for
      the tunnel.  Rows on the ladder or past it are left alone. */
  predicate Unverified(p: Proxy, q: Proxy, at: int) {
    if p.status == Quarantine || p.status == Removed then SameLife(p, q)
    else
      && q.status == (if p.status == Ready then Alive else p.status) && q.t2FailedAt == Some(at)
      && q.failCount == p.failCount && q.quarantinedAt == p.quarantinedAt && q.ladderAt == p.ladderAt
      && q.ladderStep == p.ladderStep && q.removedAt == p.removedAt
  }

  lemma {:induction false} LastFailedIsNewest(journal: seq<Attempt>)
    ensures LastFailedKind(journal) == Some(T2) <==> NewestFailureWasTunnel(journal)
  {
    if journal != [] {
      var front, n := journal[..|journal| - 1], |journal| - 1;
      LastFailedIsNewest(front);
      if i :| 0 <= i < |journal| && journal[i] == Attempt(T2, false) && forall k :: i < k < |journal| ==> journal[k].ok {
        assert i < n ==> front[i] == Attempt(T2, false);
      }
      if journal[n].ok && NewestFailureWasTunnel(front) {
        var i :| 0 <= i < n && front[i] == Attempt(T2, false) && forall k :: i < k < n ==> front[k].ok;
        assert journal[i] == Attempt(T2, false);
      }
      if journal[n] == Attempt(T2, false) {
        assert NewestFailureWasTunnel(journal);
      }
    }
  }

  lemma SuccessKeepsNewestFailure(journal: seq<Attempt>, kind: Kind)
    ensures LastFailedKind(journal + [Attempt(kind, true)]) == LastFailedKind(journal)
  {
    assert (journal + [Attempt(kind, true)])[..|journal|] == journal;
  }

  /** What each verdict of a lane that goes through the tunnel does. */
  lemma TunnelVerdictEffect(c: Config, lane: Lane, p: Proxy, x: Check)
    requires TunnelLane(lane)
    ensures var q := Judge(c, lane, p, x);
      && Journaled(p, q, T2, x.outcome == Passed)
      && (x.outcome == Passed ==> TunnelPassed(p, q))
      && (x.outcome == EngineFault ==> Unverified(p, q, x.at))
      && (x.outcome == Failed && lane == Revival ==> LadderCharged(c, p, q, x.at))
      && (x.outcome == Failed && lane == Tunnel ==> CounterCharged(c, p, q, x.at, x.jitter, true))
  {
    hide LastFailedKind;
  }

  /** What each verdict of a lane of direct checks does. */
  lemma DirectVerdictEffect(c: Config, lane: Lane, p: Proxy, x: Check)
    requires !TunnelLane(lane) && x.outcome != EngineFault
    ensures var q := Judge(c, lane, p, x);
      && Journaled(p, q, T1, x.outcome == Passed)
      && (x.outcome == Passed ==> DirectPassed(p, q, lane == Recheck || !NewestFailureWasTunnel(p.journal)))
      && (x.outcome == Failed && lane == Recheck ==> LadderCharged(c, p, q, x.at))
      && (x.outcome == Failed && lane != Recheck ==> CounterCharged(c, p, q, x.at, x.jitter, false))
  {
    SuccessKeepsNewestFailure(p.journal, T1);
    LastFailedIsNewest(p.journal);
    hide LastFailedKind, NewestFailureWasTunnel;
  }

  // ---------------------------------------------------------------- which lane takes which row

  /** The lanes that may take a row, read off the row: a quarantined row waits for its second
      chance, a row with a failed tunnel waits for the tunnel, schemes the engine does not speak
      never go through it, and schemes without a direct check never get one. */
  function LanesOf(p: Proxy, now: int): set<Lane> {
    match p.status
    case Removed => {}
    case Quarantine =>
      if p.ladderAt.None? || now < p.ladderAt.value then {}
      else if p.scheme == Hysteria2 then {Revival}
      else {Recheck}
    case Ready => if p.linked && p.scheme !in {Tuic, Mieru, Naive} then {Tunnel} else {}
    case Alive =>
      if !p.linked || p.scheme in {Tuic, Mieru} then {}
      else if p.scheme == Hysteria2 || (p.t2FailedAt.Some? && p.scheme != Naive) then {Tunnel}
      else if p.scheme == Naive then (if p.t2FailedAt.Some? then {} else {Sample})
      else {Sample, Tunnel}
    case Unknown =>
      if !p.linked || p.scheme in {Tuic, Mieru} then {}
      else if p.scheme == Hysteria2 then {Tunnel}
      else if p.t2FailedAt.Some? then {}
      else {Queue, Sample}
  }

  lemma SelectorsByRow(lane: Lane, p: Proxy, now: int)
    ensures Eligible(lane, p, now) <==> lane in LanesOf(p, now)
  {}
}
