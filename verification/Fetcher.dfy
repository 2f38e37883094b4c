/** Downloading a source: retries around redirects around a capped body, against any server.

The server and the resolver are arbitrary: the n-th request and the n-th name lookup get any
answer whatever, every exchange is written to a log with the numbers of its questions, and the
promises are about the log. */
module Fetcher {
  import opened Prelude
  import opened AddressPolicy
  import opened AddressPick

  const MAX_URL_LEN: nat := 2048
  const MAX_REDIRECTS: nat := 5
  const MAX_RETRY_BACKOFF_MS: nat := 60_000
  const MAX_RETRIES: nat := 16

  type Byte = Octet

  datatype Url = Url(scheme: string, host: Option<string>, port: Option<nat>)
  datatype Chunk = Data(bytes: seq<Byte>) | Broken
  datatype Reply = NoReply | Reply(status: nat, location: Option<string>, chunks: seq<Chunk>)

  datatype Failure =
    | Network(permanent: bool)
    | HttpServer(status: nat)
    | HttpClient(status: nat)
    | TooLarge(limit: nat)

  datatype Outcome = Payload(status: nat, body: seq<Byte>) | Failed(failure: Failure)

  predicate Recoverable(f: Failure) { f == Network(false) || f.HttpServer? }

  datatype Config = Config(maxRetries: nat, baseBackoffMs: nat, maxBytes: nat, allowPrivate: bool)

  /** URL syntax, as the URL library has it. */
  datatype Syntax = Syntax(parse: string -> Option<Url>, join: (Url, string) -> Option<string>, literal: string -> Option<Ip>)

  /** What the world answers to the n-th request, and to the n-th lookup of a name. */
  datatype World = World(server: nat -> Reply, resolver: (nat, string) -> Option<seq<Ip>>)

  /** One fetch as asked for. */
  datatype Job = Job(cfg: Config, syntax: Syntax, world: World, url: string, headers: bool, family: Family)

  /** One request: its number, the text it came from, its URL, the number of the lookup of its host
      and the answer, the address it went to, whether it carried the source's headers, and what
      came back. */
  datatype Exchange = Exchange(
    index: nat, raw: string, url: Url, query: nat, lookup: seq<Ip>, addr: Ip, headers: bool, reply: Reply)

  function EffectivePort(u: Url): nat {
    if u.port.Some? then u.port.value else if u.scheme == "https" then 443 else 80
  }

  /** Scheme, host and effective port. */
  function Origin(u: Url): (string, string, nat) {
    (u.scheme, if u.host.Some? then u.host.value else "", EffectivePort(u))
  }

  // ---------------------------------------------------------------- backoff

  function SaturatingPow2(i: nat): nat { Min(Pow2(i), U64_MAX) }
  function SaturatingMul(a: nat, b: nat): nat { Min(a * b, U64_MAX) }

  function BackoffDelay(base: nat, attempt: nat): nat {
    Min(SaturatingMul(base, SaturatingPow2(attempt)), MAX_RETRY_BACKOFF_MS)
  }

  /** Saturation never shows through the cap: the delay is the true doubling, capped. */
  lemma BackoffIsCappedDoubling(base: nat, attempt: nat)
    ensures BackoffDelay(base, attempt) == Min(base * Pow2(attempt), MAX_RETRY_BACKOFF_MS)
  {
    if base > 0 && Pow2(attempt) > U64_MAX {
      assert base * Pow2(attempt) >= Pow2(attempt) by { Grows(base, Pow2(attempt)); }
      assert base * U64_MAX >= U64_MAX by { Grows(base, U64_MAX); }
    }
  }

  lemma Grows(base: nat, x: nat)
    requires base > 0
    ensures base * x >= x
  {
    assert base * x == x + (base - 1) * x;
  }

  // ---------------------------------------------------------------- the body

  function Concat(chunks: seq<Chunk>): seq<Byte> {
    if chunks == [] then []
    else
      Concat(chunks[..|chunks| - 1]) +
      match chunks[|chunks| - 1]
      case Data(bytes) => bytes
      case Broken => []
  }

  ghost predicate Whole(chunks: seq<Chunk>) { forall c :: c in chunks ==> c.Data? }

  /** Chunk `k` is the first one that takes the body over the limit. */
  ghost predicate OverflowsAt(chunks: seq<Chunk>, limit: nat, k: int) {
    0 <= k < |chunks| && Whole(chunks[..k + 1]) && |Concat(chunks[..k])| <= limit < |Concat(chunks[..k + 1])|
  }

  /** The stream breaks at chunk `k` while the body still fits. */
  ghost predicate BreaksAt(chunks: seq<Chunk>, limit: nat, k: int) {
    0 <= k < |chunks| && Whole(chunks[..k]) && chunks[k].Broken? && |Concat(chunks[..k])| <= limit
  }

  /** What a body comes to: the first chunk that overflows or breaks decides, else all of it. */
  ghost predicate BodyCameTo(chunks: seq<Chunk>, status: nat, limit: nat, out: Outcome) {
    && (out.Payload? <==> Whole(chunks) && |Concat(chunks)| <= limit)
    && (out.Payload? ==> out == Payload(status, Concat(chunks)))
    && (out.Failed? ==> out.failure == TooLarge(limit) || out.failure == Network(false))
    && (out == Failed(TooLarge(limit)) <==> exists k :: OverflowsAt(chunks, limit, k))
    && (out == Failed(Network(false)) <==> exists k :: BreaksAt(chunks, limit, k))
  }

  method ReadBody(chunks: seq<Chunk>, status: nat, limit: nat) returns (out: Outcome)
    ensures BodyCameTo(chunks, status, limit, out)
  {
    var body: seq<Byte> := [];
    for i := 0 to |chunks|
      invariant Whole(chunks[..i]) && body == Concat(chunks[..i]) && |body| <= limit
    {
      assert chunks[..i + 1][..i] == chunks[..i];
      match chunks[i] {
        case Broken =>
          BreakDecides(chunks, limit, i);
          return Failed(Network(false));
        case Data(bytes) =>
          if |body| + |bytes| > limit {
            OverflowDecides(chunks, limit, i);
            return Failed(TooLarge(limit));
          }
          body := body + bytes;
      }
    }
    assert chunks[..|chunks|] == chunks;
    WholeDecides(chunks, limit);
    out := Payload(status, body);
  }

  lemma {:induction false} PrefixGrows(chunks: seq<Chunk>, j: nat, k: nat)
    requires j <= k <= |chunks|
    ensures |Concat(chunks[..j])| <= |Concat(chunks[..k])|
    decreases k
  {
    if j < k {
      PrefixGrows(chunks, j, k - 1);
      assert chunks[..k][..k - 1] == chunks[..k - 1];
    }
  }

  lemma WholeDecides(chunks: seq<Chunk>, limit: nat)
    requires Whole(chunks) && |Concat(chunks)| <= limit
    ensures !(exists k :: OverflowsAt(chunks, limit, k)) && !(exists k :: BreaksAt(chunks, limit, k))
  {
    assert chunks[..|chunks|] == chunks;
    forall k | 0 <= k < |chunks| ensures !OverflowsAt(chunks, limit, k) && !BreaksAt(chunks, limit, k) {
      PrefixGrows(chunks, k + 1, |chunks|);
      assert chunks[k] in chunks;
    }
  }

  lemma OverflowDecides(chunks: seq<Chunk>, limit: nat, i: nat)
    requires i < |chunks| && Whole(chunks[..i]) && chunks[i].Data?
    requires |Concat(chunks[..i])| <= limit < |Concat(chunks[..i])| + |chunks[i].bytes|
    ensures OverflowsAt(chunks, limit, i)
    ensures !(Whole(chunks) && |Concat(chunks)| <= limit) && !(exists k :: BreaksAt(chunks, limit, k))
  {
    assert chunks[..i + 1][..i] == chunks[..i] && chunks[..|chunks|] == chunks;
    PrefixGrows(chunks, i + 1, |chunks|);
    forall k | 0 <= k < |chunks| ensures !BreaksAt(chunks, limit, k) {
      if k <= i {
        assert k < i ==> chunks[k] in chunks[..i];
      } else {
        PrefixGrows(chunks, i + 1, k);
      }
    }
  }

  lemma BreakDecides(chunks: seq<Chunk>, limit: nat, i: nat)
    requires i < |chunks| && Whole(chunks[..i]) && chunks[i].Broken? && |Concat(chunks[..i])| <= limit
    ensures BreaksAt(chunks, limit, i)
    ensures !Whole(chunks) && !(exists k :: OverflowsAt(chunks, limit, k))
  {
    assert chunks[i] in chunks;
    forall k | 0 <= k < |chunks| ensures !OverflowsAt(chunks, limit, k) {
      if k < i {
        PrefixGrows(chunks, k + 1, i);
      } else {
        assert chunks[i] in chunks[..k + 1];
      }
    }
  }

  // ---------------------------------------------------------------- one exchange

  predicate Redirect(r: Reply) { r.Reply? && r.status / 100 == 3 }

  /** The text a reply sends the client to, when it is a redirect it can follow. */
  ghost function Next(syntax: Syntax, x: Exchange): Option<string> {
    if Redirect(x.reply) && x.reply.location.Some? then syntax.join(x.url, x.reply.location.value) else None
  }

  /** The answer for a host: a literal stands for itself, a name is the resolver's business. */
  function Answer(job: Job, query: nat, host: string): Option<seq<Ip>> {
    if job.syntax.literal(host).Some? then Some([job.syntax.literal(host).value]) else job.world.resolver(query, host)
  }

  /** A text the fetcher can turn into a request at all. */
  predicate Usable(job: Job, text: string) {
    var u := job.syntax.parse(text);
    u.Some? && (u.value.scheme == "http" || u.value.scheme == "https") && u.value.host.Some?
  }

  lemma MeansUsable(job: Job, text: string)
    ensures var u := job.syntax.parse(text);
      Usable(job, text) <==> u.Some? && (u.value.scheme == "http" || u.value.scheme == "https") && u.value.host.Some?
  {}

  /** The address to connect to for a usable text, if the lookup and the policy leave one. */
  function Pinned(job: Job, text: string, query: nat): Option<Ip>
    requires Usable(job, text)
  {
    var answer := Answer(job, query, job.syntax.parse(text).value.host.value);
    if answer.None? then None else VetHost(answer.value, job.cfg.allowPrivate, job.family)
  }

  /** One site: scheme, host and port agree, a missing port standing for the scheme's own. */
  predicate SameSite(u: Url, v: Url) {
    var standard := Some(if u.scheme == "https" then 443 else 80);
    && u.scheme == v.scheme && u.host == v.host
    && (u.port == v.port || (u.port.None? && v.port == standard) || (v.port.None? && u.port == standard))
  }

  lemma SameSiteSameOrigin(u: Url, v: Url)
    requires u.host.Some? && v.host.Some?
    ensures Origin(u) == Origin(v) <==> SameSite(u, v)
  {}

  /** The source's headers may go to `u`: the configured URL is usable, and of that site. */
  predicate HeadersBelong(job: Job, u: Url) {
    Usable(job, job.url) && SameSite(u, job.syntax.parse(job.url).value)
  }

  /** What every request must satisfy: the address is the vetted one of the lookup made for this
      very host, the headers go exactly to the configured site, the reply is the server's. */
  ghost predicate Safe(job: Job, x: Exchange) {
    && |x.raw| <= MAX_URL_LEN && Usable(job, x.raw) && job.syntax.parse(x.raw) == Some(x.url)
    && Answer(job, x.query, x.url.host.value) == Some(x.lookup)
    && Pinned(job, x.raw, x.query) == Some(x.addr)
    && (x.headers <==> job.headers && HeadersBelong(job, x.url))
    && x.reply == job.world.server(x.index)
  }

  /** Exchange `i` starts where the one before it pointed, the first one at the given URL. */
  ghost predicate Link(job: Job, xs: seq<Exchange>, i: int)
    requires 0 <= i < |xs|
  {
    if i == 0 then xs[i].raw == job.url else Next(job.syntax, xs[i - 1]) == Some(xs[i].raw)
  }

  /** The exchanges of one attempt that begins after `sent` requests and `asked` lookups: at most
      six, linked, each safe, each a new request with a lookup of its own. */
  ghost predicate Trail(job: Job, sent: nat, asked: nat, xs: seq<Exchange>) {
    && |xs| <= MAX_REDIRECTS + 1
    && (forall i :: 0 <= i < |xs| ==> Link(job, xs, i))
    && (forall i :: 0 <= i < |xs| ==> Safe(job, xs[i]) && xs[i].index == sent + i && xs[i].query == asked + i)
  }

  /** Where the attempt would go on. */
  ghost function Pending(job: Job, xs: seq<Exchange>): Option<string> {
    if xs == [] then Some(job.url) else Next(job.syntax, xs[|xs| - 1])
  }

  /** Statuses worth another try. */
  predicate ServerFault(status: nat) { status >= 500 || status == 408 || status == 429 }

  /** What a reply that is not followed comes to. */
  ghost predicate Concluded(cfg: Config, reply: Reply, out: Outcome) {
    if reply.NoReply? then out == Failed(Network(false))
    else if Redirect(reply) then out == Failed(HttpClient(reply.status))
    else if ServerFault(reply.status) then out == Failed(HttpServer(reply.status))
    else if 200 <= reply.status < 300 then BodyCameTo(reply.chunks, reply.status, cfg.maxBytes, out)
    else out == Failed(HttpClient(reply.status))
  }

  /** How an attempt ends: with its last reply, with one redirect too many, or before the next
      request, because the text is too long, is no usable URL, or names a refused host. */
  ghost predicate Settles(job: Job, asked: nat, xs: seq<Exchange>, out: Outcome) {
    var text := Pending(job, xs);
    if text.None? then Concluded(job.cfg, xs[|xs| - 1].reply, out)
    else if |xs| == MAX_REDIRECTS + 1 then out == Failed(HttpClient(508))
    else if |text.value| > MAX_URL_LEN then out == Failed(HttpClient(414))
    else if !Usable(job, text.value) then out == Failed(Network(true))
    else Pinned(job, text.value, asked + |xs|).None? && out == Failed(HttpClient(403))
  }

  /** Lookups made by an attempt: one per request, and one more for a refused host. */
  ghost function Lookups(job: Job, xs: seq<Exchange>): nat {
    var text := Pending(job, xs);
    if text.Some? && |xs| <= MAX_REDIRECTS && |text.value| <= MAX_URL_LEN && Usable(job, text.value) then |xs| + 1 else |xs|
  }

  ghost predicate Attempt(job: Job, sent: nat, asked: nat, xs: seq<Exchange>, out: Outcome) {
    Trail(job, sent, asked, xs) && Settles(job, asked, xs, out)
  }

  lemma TrailExtends(job: Job, sent: nat, asked: nat, xs: seq<Exchange>, x: Exchange)
    requires Trail(job, sent, asked, xs) && |xs| <= MAX_REDIRECTS
    requires Safe(job, x) && x.index == sent + |xs| && x.query == asked + |xs|
    requires Pending(job, xs) == Some(x.raw)
    ensures Trail(job, sent, asked, xs + [x])
  {
    hide Safe, Next;
    var ys := xs + [x];
    forall i | 0 <= i < |ys| ensures Link(job, ys, i) {
      if i < |xs| {
        assert Link(job, xs, i);
      }
    }
  }

  // ---------------------------------------------------------------- the contract leaves no choice

  lemma SameStartSameExchange(job: Job, x: Exchange, y: Exchange)
    requires Safe(job, x) && Safe(job, y) && x.raw == y.raw && x.index == y.index && x.query == y.query
    ensures x == y
  {}

  lemma NextAgrees(job: Job, sent: nat, asked: nat, xs: seq<Exchange>, ys: seq<Exchange>, n: nat)
    requires Trail(job, sent, asked, xs) && Trail(job, sent, asked, ys) && n < |xs| && n < |ys|
    requires n > 0 ==> xs[n - 1] == ys[n - 1]
    ensures xs[n] == ys[n]
  {
    hide Safe, Next;
    assert Link(job, xs, n) && Link(job, ys, n);
    SameStartSameExchange(job, xs[n], ys[n]);
  }

  lemma {:induction false} TrailsAgree(job: Job, sent: nat, asked: nat, xs: seq<Exchange>, ys: seq<Exchange>, n: nat)
    requires Trail(job, sent, asked, xs) && Trail(job, sent, asked, ys) && n <= |xs| && n <= |ys|
    ensures forall i :: 0 <= i < n ==> xs[i] == ys[i]
  {
    hide Trail;
    if n > 0 {
      TrailsAgree(job, sent, asked, xs, ys, n - 1);
      NextAgrees(job, sent, asked, xs, ys, n - 1);
    }
  }

  /** Where the longer of two trails went on after the shorter. */
  lemma WentOn(job: Job, sent: nat, asked: nat, xs: seq<Exchange>, ys: seq<Exchange>)
    requires Trail(job, sent, asked, xs) && Trail(job, sent, asked, ys) && |xs| < |ys|
    ensures Pending(job, xs).Some? && |xs| <= MAX_REDIRECTS
    ensures var text := Pending(job, xs).value;
      |text| <= MAX_URL_LEN && Usable(job, text) && Pinned(job, text, asked + |xs|).Some?
  {
    TrailsAgree(job, sent, asked, xs, ys, |xs|);
    assert Link(job, ys, |xs|) && Safe(job, ys[|xs|]);
  }

  /** An attempt cannot stop where another of the same trail went on. */
  lemma NoShorterAttempt(job: Job, sent: nat, asked: nat, xs: seq<Exchange>, out: Outcome, ys: seq<Exchange>)
    requires Attempt(job, sent, asked, xs, out) && Trail(job, sent, asked, ys)
    ensures |xs| >= |ys|
  {
    if |xs| < |ys| {
      WentOn(job, sent, asked, xs, ys);
    }
  }

  lemma BodyIsDetermined(chunks: seq<Chunk>, status: nat, limit: nat, out: Outcome, out': Outcome)
    requires BodyCameTo(chunks, status, limit, out) && BodyCameTo(chunks, status, limit, out')
    ensures out == out'
  {}

  /** For any server and resolver the requests of an attempt and its outcome are determined. */
  lemma AttemptIsDetermined(job: Job, sent: nat, asked: nat, xs: seq<Exchange>, out: Outcome, xs': seq<Exchange>, out': Outcome)
    requires Attempt(job, sent, asked, xs, out) && Attempt(job, sent, asked, xs', out')
    ensures xs == xs' && out == out'
  {
    NoShorterAttempt(job, sent, asked, xs, out, xs');
    NoShorterAttempt(job, sent, asked, xs', out', xs);
    TrailsAgree(job, sent, asked, xs, xs', |xs|);
    hide Trail, Settles;
    assert xs == xs';
    EndIsDetermined(job, asked, xs, out, out');
  }

  lemma EndIsDetermined(job: Job, asked: nat, xs: seq<Exchange>, out: Outcome, out': Outcome)
    requires Settles(job, asked, xs, out) && Settles(job, asked, xs, out')
    ensures out == out'
  {
    if Pending(job, xs).None? {
      ConclusionIsDetermined(job.cfg, xs[|xs| - 1].reply, out, out');
    }
  }

  lemma ConclusionIsDetermined(cfg: Config, reply: Reply, out: Outcome, out': Outcome)
    requires Concluded(cfg, reply, out) && Concluded(cfg, reply, out')
    ensures out == out'
  {
    hide BodyCameTo;
    if reply.Reply? && BodyCameTo(reply.chunks, reply.status, cfg.maxBytes, out)
       && BodyCameTo(reply.chunks, reply.status, cfg.maxBytes, out') {
      BodyIsDetermined(reply.chunks, reply.status, cfg.maxBytes, out, out');
    }
  }

  /** The verdict on a reply that is not followed. */
  method Conclude(cfg: Config, reply: Reply) returns (out: Outcome)
    ensures Concluded(cfg, reply, out)
  {
    if reply.NoReply? {
      return Failed(Network(false));
    }
    if 300 <= reply.status < 400 {
      return Failed(HttpClient(reply.status));
    }
    if reply.status >= 500 || reply.status == 408 || reply.status == 429 {
      return Failed(HttpServer(reply.status));
    }
    if !(200 <= reply.status < 300) {
      return Failed(HttpClient(reply.status));
    }
    out := ReadBody(reply.chunks, reply.status, cfg.maxBytes);
  }

  /** One attempt with the counts it began at. */
  datatype Try = Try(sent: nat, asked: nat, xs: seq<Exchange>, out: Outcome)

  ghost predicate TryOk(job: Job, t: Try) { Attempt(job, t.sent, t.asked, t.xs, t.out) }

  /** Each attempt begins where the one before it stopped counting. */
  ghost predicate Consecutive(job: Job, tries: seq<Try>) {
    forall i :: 0 < i < |tries| ==>
      tries[i].sent == tries[i - 1].sent + |tries[i - 1].xs| && tries[i].asked == tries[i - 1].asked + Lookups(job, tries[i - 1].xs)
  }

  /** The attempts of one fetch: each is an attempt, the first begins at the given counts and each
      other where the one before it stopped, and all but the last failed recoverably. */
  ghost predicate Retries(job: Job, sent: nat, asked: nat, tries: seq<Try>) {
    && tries != [] && tries[0].sent == sent && tries[0].asked == asked
    && Consecutive(job, tries)
    && (forall t :: t in tries ==> TryOk(job, t))
    && (forall i :: 0 <= i < |tries| - 1 ==> tries[i].out.Failed? && Recoverable(tries[i].out.failure))
  }

  class Client {
    const cfg: Config
    const syntax: Syntax
    const world: World
    var log: seq<Exchange>
    var asked: nat
    var slept: seq<nat>

    constructor (cfg: Config, syntax: Syntax, world: World)
      ensures this.cfg == cfg && this.syntax == syntax && this.world == world
      ensures log == [] && asked == 0 && slept == []
    {
      this.cfg, this.syntax, this.world := cfg, syntax, world;
      log, asked, slept := [], 0, [];
    }

    /** One hop: look the host up, vet the answer, pin the address, send.  `None` when the host is
        refused; nothing is sent then. */
    method Hop(text: string, url: string, headers: bool, family: Family) returns (sent: Option<Exchange>)
      requires |text| <= MAX_URL_LEN && Usable(Job(cfg, syntax, world, url, headers, family), text)
      requires Usable(Job(cfg, syntax, world, url, headers, family), url)
      modifies this`log, this`asked
      ensures asked == old(asked) + 1
      ensures sent.None? <==> Pinned(Job(cfg, syntax, world, url, headers, family), text, old(asked)).None?
      ensures sent.None? ==> log == old(log)
      ensures sent.Some? ==>
                && log == old(log) + [sent.value] && Safe(Job(cfg, syntax, world, url, headers, family), sent.value)
                && sent.value.raw == text && sent.value.index == |old(log)| && sent.value.query == old(asked)
    {
      var parsed := syntax.parse(text).value;
      var host := parsed.host.value;
      var query := asked;
      var answer := if syntax.literal(host).Some? then Some([syntax.literal(host).value]) else world.resolver(query, host);
      asked := asked + 1;
      if answer.None? {
        return None;
      }
      var addr := VetHost(answer.value, cfg.allowPrivate, family);
      if addr.None? {
        return None;
      }
      var configured := syntax.parse(url);
      SameSiteSameOrigin(parsed, configured.value);
      var sameOrigin := configured.Some? && Origin(parsed) == Origin(configured.value);
      var x := Exchange(|log|, text, parsed, query, answer.value, addr.value, headers && sameOrigin, world.server(|log|));
      log := log + [x];
      sent := Some(x);
    }

    /** One attempt, determined by the world's answers from here on. */
    method FetchOnce(url: string, headers: bool, family: Family) returns (out: Outcome, ghost xs: seq<Exchange>)
      modifies this`log, this`asked
      ensures log == old(log) + xs
      ensures Attempt(Job(cfg, syntax, world, url, headers, family), |old(log)|, old(asked), xs, out)
      ensures asked == old(asked) + Lookups(Job(cfg, syntax, world, url, headers, family), xs)
    {
      ghost var job := Job(cfg, syntax, world, url, headers, family);
      var current := url;
      xs := [];
      var hop := 0;
      hide Safe, Concluded, Pinned, Usable;
      while hop <= MAX_REDIRECTS
        invariant hop == |xs| <= MAX_REDIRECTS + 1 && log == old(log) + xs && asked == old(asked) + hop
        invariant Trail(job, |old(log)|, old(asked), xs)
        invariant Pending(job, xs) == Some(current) && (hop > 0 ==> Usable(job, url))
      {
        hide Trail;
        if |current| > MAX_URL_LEN {
          return Failed(HttpClient(414)), xs;
        }
        var parsed := syntax.parse(current);
        var usable := parsed.Some? && (parsed.value.scheme == "http" || parsed.value.scheme == "https") && parsed.value.host.Some?;
        assert usable <==> Usable(job, current) by { MeansUsable(job, current); }
        if !usable {
          return Failed(Network(true)), xs;
        }
        var sent := Hop(current, url, headers, family);
        if sent.None? {
          return Failed(HttpClient(403)), xs;
        }
        var x := sent.value;
        TrailExtends(job, |old(log)|, old(asked), xs, x);
        xs := xs + [x];
        hop := hop + 1;
        var location := if x.reply.Reply? && 300 <= x.reply.status < 400 then x.reply.location else None;
        var next := if location.Some? then syntax.join(x.url, location.value) else None;
        if next.None? {
          out := Conclude(cfg, x.reply);
          return;
        }
        current := next.value;
      }
      out := Failed(HttpClient(508));
    }

    /** One more attempt, entered in the record of this fetch. */
    method TryOnce(url: string, headers: bool, family: Family, ghost log0: seq<Exchange>, ghost asked0: nat, ghost tries: seq<Try>)
      returns (out: Outcome, ghost t: Try)
      requires Recorded(Job(cfg, syntax, world, url, headers, family), log0, asked0, tries, log, asked)
      modifies this`log, this`asked
      ensures t.out == out
      ensures Recorded(Job(cfg, syntax, world, url, headers, family), log0, asked0, tries + [t], log, asked)
    {
      ghost var job := Job(cfg, syntax, world, url, headers, family);
      ghost var before, askedBefore := log, asked;
      ghost var xs;
      hide *;
      out, xs := FetchOnce(url, headers, family);
      t := Try(|before|, askedBefore, xs, out);
      RecordTry(job, log0, asked0, tries, t, before);
    }

    /** The retry loop.  `tries` are the attempts in order: all but the last failed recoverably,
        each is determined by the world's answers, and none is missing. */
    method Fetch(url: string, headers: bool, family: Family) returns (out: Outcome, ghost tries: seq<Try>)
      modifies this
      ensures 1 <= |tries| <= Min(cfg.maxRetries, MAX_RETRIES) + 1
      ensures log == old(log) + Requests(tries)
      ensures |Requests(tries)| <= (Min(cfg.maxRetries, MAX_RETRIES) + 1) * (MAX_REDIRECTS + 1)
      ensures Retries(Job(cfg, syntax, world, url, headers, family), |old(log)|, old(asked), tries)
      ensures out == tries[|tries| - 1].out
      ensures out.Failed? && Recoverable(out.failure) ==> |tries| == Min(cfg.maxRetries, MAX_RETRIES) + 1
      ensures slept == old(slept) + Pauses(cfg.baseBackoffMs, |tries| - 1)
    {
      ghost var job := Job(cfg, syntax, world, url, headers, family);
      ghost var log0, asked0, slept0 := log, asked, slept;
      var maxRetries := Min(cfg.maxRetries, MAX_RETRIES);
      var attempt := 0;
      tries := [];
      assert 0 <= maxRetries;
      hide *;
      EmptyRecord(job, log, asked, slept);
      while true
        invariant 0 <= attempt <= maxRetries && |tries| == attempt
        invariant Recorded(job, log0, asked0, tries, log, asked)
        invariant Retried(tries) && Paused(slept0, cfg.baseBackoffMs, attempt, slept)
        decreases maxRetries - attempt
      {
        ghost var t;
        out, t := TryOnce(url, headers, family, log0, asked0, tries);
        if out.Payload? || attempt >= maxRetries || !Recoverable(out.failure) {
          RecordMeans(job, log0, asked0, tries, t, log, asked);
          PausesMean(slept0, cfg.baseBackoffMs, attempt, slept);
          MoreTriesMoreRequests(attempt + 1, maxRetries + 1);
          tries := tries + [t];
          return;
        }
        RetriedNext(tries, t);
        PauseNext(slept0, cfg.baseBackoffMs, attempt, slept);
        tries := tries + [t];
        slept := slept + [BackoffDelay(cfg.baseBackoffMs, attempt)];
        attempt := attempt + 1;
      }
    }
  }

  /** The pauses before the first `n` retries, in milliseconds: doublings capped at a minute. */
  function Pauses(base: nat, n: nat): (r: seq<nat>)
    ensures |r| == n
  {
    if n == 0 then [] else Pauses(base, n - 1) + [Min(base * Pow2(n - 1), MAX_RETRY_BACKOFF_MS) as nat]
  }

  ghost function Requests(tries: seq<Try>): seq<Exchange> {
    if tries == [] then [] else Requests(tries[..|tries| - 1]) + tries[|tries| - 1].xs
  }

  lemma MoreTriesMoreRequests(n: nat, m: nat)
    requires n <= m
    ensures n * (MAX_REDIRECTS + 1) <= m * (MAX_REDIRECTS + 1)
  {}

  ghost predicate Paused(slept0: seq<nat>, base: nat, n: nat, slept: seq<nat>) { slept == slept0 + Pauses(base, n) }

  lemma RequestsNext(tries: seq<Try>, t: Try)
    ensures Requests(tries + [t]) == Requests(tries) + t.xs
  {
    assert (tries + [t])[..|tries|] == tries;
  }

  lemma PauseNext(slept0: seq<nat>, base: nat, n: nat, slept: seq<nat>)
    requires Paused(slept0, base, n, slept)
    ensures Paused(slept0, base, n + 1, slept + [BackoffDelay(base, n)])
  {
    BackoffIsCappedDoubling(base, n);
  }

  lemma PausesMean(slept0: seq<nat>, base: nat, n: nat, slept: seq<nat>)
    requires Paused(slept0, base, n, slept)
    ensures slept == slept0 + Pauses(base, n)
  {}

  /** Attempts that were followed by another. */
  ghost predicate Retried(tries: seq<Try>) {
    forall i :: 0 <= i < |tries| ==> tries[i].out.Failed? && Recoverable(tries[i].out.failure)
  }

  lemma RetriedNext(tries: seq<Try>, t: Try)
    requires Retried(tries) && t.out.Failed? && Recoverable(t.out.failure)
    ensures Retried(tries + [t])
  {}

  /** The attempts so far, which take the counts from the first pair to the second. */
  ghost predicate Ledger(job: Job, sent0: nat, asked0: nat, tries: seq<Try>, sent: nat, asked: nat) {
    && (forall t :: t in tries ==> TryOk(job, t))
    && Consecutive(job, tries)
    && |Requests(tries)| <= |tries| * (MAX_REDIRECTS + 1)
    && if tries == [] then sent == sent0 && asked == asked0
       else
         var last := tries[|tries| - 1];
         && tries[0].sent == sent0 && tries[0].asked == asked0
         && sent == last.sent + |last.xs| && asked == last.asked + Lookups(job, last.xs)
  }

  /** The attempts so far are in the ledger, and the log holds their requests and no others. */
  ghost predicate Recorded(job: Job, log0: seq<Exchange>, asked0: nat, tries: seq<Try>, log: seq<Exchange>, asked: nat) {
    log == log0 + Requests(tries) && Ledger(job, |log0|, asked0, tries, |log|, asked)
  }

  lemma EmptyRecord(job: Job, log: seq<Exchange>, asked: nat, slept: seq<nat>)
    ensures Recorded(job, log, asked, [], log, asked) && Retried([])
    ensures Paused(slept, job.cfg.baseBackoffMs, 0, slept)
  {}

  lemma RecordTry(job: Job, log0: seq<Exchange>, asked0: nat, tries: seq<Try>, t: Try, log: seq<Exchange>)
    requires Recorded(job, log0, asked0, tries, log, t.asked) && t.sent == |log|
    requires Attempt(job, t.sent, t.asked, t.xs, t.out)
    ensures Recorded(job, log0, asked0, tries + [t], log + t.xs, t.asked + Lookups(job, t.xs))
  {
    hide Attempt, Ledger, Lookups, Requests;
    RequestsNext(tries, t);
    EnterTry(job, |log0|, asked0, tries, t);
  }

  lemma EnterTry(job: Job, sent0: nat, asked0: nat, tries: seq<Try>, t: Try)
    requires Ledger(job, sent0, asked0, tries, t.sent, t.asked) && Attempt(job, t.sent, t.asked, t.xs, t.out)
    ensures TryOk(job, t)
    ensures Ledger(job, sent0, asked0, tries + [t], t.sent + |t.xs|, t.asked + Lookups(job, t.xs))
  {
    assert |t.xs| <= MAX_REDIRECTS + 1 && TryOk(job, t);
    RequestsNext(tries, t);
    hide Attempt, Lookups, TryOk, Requests;
    ConsecutiveNext(job, tries, t);
  }

  lemma ConsecutiveNext(job: Job, tries: seq<Try>, t: Try)
    requires Consecutive(job, tries)
    requires tries != [] ==>
               var last := tries[|tries| - 1]; t.sent == last.sent + |last.xs| && t.asked == last.asked + Lookups(job, last.xs)
    ensures Consecutive(job, tries + [t])
  {
    hide Lookups;
  }

  lemma RecordMeans(job: Job, log0: seq<Exchange>, asked0: nat, tries: seq<Try>, t: Try, log: seq<Exchange>, asked: nat)
    requires Recorded(job, log0, asked0, tries + [t], log, asked) && Retried(tries)
    ensures Retries(job, |log0|, asked0, tries + [t]) && log == log0 + Requests(tries + [t])
    ensures |Requests(tries + [t])| <= (|tries| + 1) * (MAX_REDIRECTS + 1)
  {
    hide TryOk, Consecutive, Requests;
  }

  /** Read off an attempt: wherever the redirects lead, every request is a web request to an address
      that was in the answer for its own host and that the policy accepts, no two requests share
      a lookup, and a request carries the source's headers if and only if there are any and it
      goes to the scheme, host and port of the configured URL. */
  lemma NoRequestEscapes(job: Job, sent: nat, asked: nat, xs: seq<Exchange>, out: Outcome, i: nat)
    requires Attempt(job, sent, asked, xs, out) && i < |xs|
    ensures xs[i].url.scheme in {"http", "https"} && job.syntax.parse(xs[i].raw) == Some(xs[i].url) && |xs[i].raw| <= 2048
    ensures CheckIp(xs[i].addr, job.cfg.allowPrivate) == Accepted && OfFamily(xs[i].addr, job.family)
    ensures xs[i].url.host.Some? && Answer(job, xs[i].query, xs[i].url.host.value).Some?
    ensures xs[i].addr in Answer(job, xs[i].query, xs[i].url.host.value).value
    ensures forall j :: 0 <= j < i ==> xs[j].query < xs[i].query
    ensures job.syntax.parse(job.url).Some?
    ensures xs[i].headers <==> job.headers && SameSite(xs[i].url, job.syntax.parse(job.url).value)
    ensures i == 0 && job.headers ==> xs[0].headers
  {
    assert Safe(job, xs[i]);
    FetcherDialsVetted(xs[i].lookup, job.cfg.allowPrivate, job.family);
    assert Safe(job, xs[0]) && Link(job, xs, 0);
  }

  /** An attempt is worth another one if and only if its last request got no reply, a reply of a
      server in trouble, or a good reply whose body broke off. */
  lemma RetriedForTransientFaults(job: Job, sent: nat, asked: nat, xs: seq<Exchange>, out: Outcome)
    requires Attempt(job, sent, asked, xs, out)
    ensures out.Failed? && Recoverable(out.failure) <==>
              xs != [] &&
              var reply := xs[|xs| - 1].reply;
              || reply.NoReply?
              || reply.status >= 500 || reply.status in {408, 429}
              || (200 <= reply.status < 300 && exists k :: BreaksAt(reply.chunks, job.cfg.maxBytes, k))
  {
    hide Trail, OverflowsAt, BreaksAt, Whole;
  }
}
