/**
 The gateway's books: what each request handler, run on its own, does to the store and to
 the statistics, beside the history that neither of them keeps (server.go).
 */
module Ledger {
  import opened Wrappers
  import opened Clock
  import opened ChallengeModel
  import opened Hostnames
  import opened Sites
  import opened RiskModel
  import opened Challenges
  import opened Api
  import Store
  import Token

  datatype Stats = Stats(
    requests: nat,
    challenges: nat,
    allowed: nat,
    pow: nat,
    interactive: nat,
    blocked: nat,
    verifySuccess: nat,
    verifyFailure: nat,
    replays: nat,
    rateLimited: nat)

  /**
   `put` keeps the expiry of every challenge ever put and `strikes` its recorded failures;
   `again` counts the successes of tokens that had succeeded before, and the last four
   count failed random draws, scores without a known decision and site verifications.
   */
  datatype History = History(
    clock: Instant,
    put: map<string, Instant>,
    strikes: map<string, nat>,
    consumed: set<string>,
    struck: set<string>,
    expired: set<string>,
    minted: map<string, Token.Claims>,
    spent: set<string>,
    again: nat,
    lostTokens: nat,
    lostChallenges: nat,
    undecided: nat,
    siteRequests: nat)

  datatype Book = Book(store: Store.State, stats: Stats, history: History)

  const NO_STATS := Stats(0, 0, 0, 0, 0, 0, 0, 0, 0, 0)
  const NO_HISTORY := History(0, map[], map[], {}, {}, {}, map[], {}, 0, 0, 0, 0, 0)
  const OPENING := Book(Store.EMPTY, NO_STATS, NO_HISTORY)

  /** A scorer's answer; `decision` is None for a word that is none of the four. */
  datatype Scored = Scored(score: int, tags: seq<string>, decision: Option<Decision>)

  /** Random draws, each of which can fail: a challenge id with its seed, and a token id. */
  datatype Draws = Draws(challenge: Option<(string, string)>, jti: Option<string>)

  // ---- Operations on the store, booked -------------------------------------------------

  /** What a sweep of the store forgets is booked as expired. */
  function SweepAway(b: Book, now: Instant): History {
    b.history.(
      clock := now,
      expired := b.history.expired + (b.store.challenges.Keys - Store.Sweep(b.store, now).challenges.Keys))
  }

  function Swept(b: Book, now: Instant): Book {
    b.(store := Store.Sweep(b.store, now), history := SweepAway(b, now))
  }

  function PutIn(b: Book, c: Challenge, now: Instant): Book {
    var h := SweepAway(b, now);
    b.(store := Store.Put(b.store, c, now),
       history := h.(put := h.put[c.id := c.expiresAt], strikes := h.strikes[c.id := 0]))
  }

  function StrikesOf(h: History, id: string): nat {
    if id in h.strikes then h.strikes[id] else 0
  }

  function StruckAt(b: Book, id: string): Book {
    if id !in b.store.challenges then b
    else
      var store := Store.Fail(b.store, id, 3);
      var h := b.history.(strikes := b.history.strikes[id := StrikesOf(b.history, id) + 1]);
      b.(store := store, history := if id in store.challenges then h else h.(struck := h.struck + {id}))
  }

  function ConsumedAt(b: Book, id: string): Book {
    b.(store := Store.Consume(b.store, id), history := b.history.(consumed := b.history.consumed + {id}))
  }

  function MintedInto(b: Book, c: Token.Claims): Book {
    b.(history := b.history.(minted := b.history.minted[c.jti := c]))
  }

  function SpentAt(b: Book, c: Token.Claims, now: Instant): Book {
    var h := SweepAway(b, now);
    var store := Store.Spend(b.store, c.jti, Expiry(c), now);
    if c.jti in Store.Sweep(b.store, now).spent then
      Book(store, b.stats.(replays := b.stats.replays + 1, verifyFailure := b.stats.verifyFailure + 1), h)
    else
      Book(store, b.stats.(verifySuccess := b.stats.verifySuccess + 1),
           h.(spent := h.spent + {c.jti}, again := h.again + if c.jti in h.spent then 1 else 0))
  }

  // ---- The three handlers --------------------------------------------------------------

  function Until(b: Book, now: Instant): Book {
    b.(history := b.history.(clock := now))
  }

  function Received(b: Book, now: Instant): Book {
    Until(b, now).(stats := b.stats.(requests := b.stats.requests + 1))
  }

  /** Mints a token unless its random draw fails. */
  function Granted(b: Book, siteKey: string, action: string, hostname: string, ipBind: string,
                   kind: string, score: int, ttl: int, jti: Option<string>, now: Instant): Book {
    match jti
    case None => b.(history := b.history.(lostTokens := b.history.lostTokens + 1))
    case Some(j) => MintedInto(b, Token.MintClaims(siteKey, action, hostname, ipBind, kind, score, ttl, j, now))
  }

  function Posed(b: Book, kind: Kind, site: Site, req: IssueRequest, ipBind: string, scored: Scored,
                 draw: Option<(string, string)>, acted: Instant, stored: Instant): Book {
    match draw
    case None => b.(history := b.history.(lostChallenges := b.history.lostChallenges + 1))
    case Some((id, seed)) =>
      var c := New(kind, site.key, req.action, NormalizeHostname(req.hostname), req.sessionId, ipBind,
                   scored.score, scored.tags, site.challengeTtlSeconds * SECOND, id, seed, acted);
      if c.None? then b else PutIn(b, c.value, stored)
  }

  /** Minting and posing read the clock at `acted`, and the store reads it again at `stored`. */
  function Decided(setup: Setup, b: Book, site: Site, req: IssueRequest, scored: Scored, draws: Draws,
                   acted: Instant, stored: Instant): Book {
    var s := b.stats.(challenges := b.stats.challenges + 1);
    var ipBind := IpBinding(setup, site, req.ip);
    match scored.decision
    case None => b.(stats := s, history := b.history.(undecided := b.history.undecided + 1))
    case Some(Block) => b.(stats := s.(blocked := s.blocked + 1))
    case Some(Allow) =>
      Granted(Until(b, acted).(stats := s.(allowed := s.allowed + 1)), site.key, req.action,
              NormalizeHostname(req.hostname), ipBind, "passive", scored.score,
              site.tokenTtlSeconds * SECOND, draws.jti, acted)
    case Some(Pow) =>
      Posed(b.(stats := s.(pow := s.pow + 1)), PowKind, site, req, ipBind, scored, draws.challenge, acted, stored)
    case Some(Interactive) =>
      Posed(b.(stats := s.(interactive := s.interactive + 1)), InteractiveKind, site, req, ipBind, scored,
            draws.challenge, acted, stored)
  }

  /** The call is counted in the rate window of its site, network prefix and action first. */
  function Metered(setup: Setup, b: Book, site: Site, req: IssueRequest, scored: Scored, draws: Draws,
                   now: Instant, acted: Instant, stored: Instant): Book {
    var key := RateKey(setup, site, req);
    var b' := b.(store := Store.Rate(b.store, key, MINUTE, now));
    if b'.store.rates[key].count > site.rateLimitPerMinute
    then b'.(stats := b'.stats.(rateLimited := b'.stats.rateLimited + 1))
    else Decided(setup, b', site, req, scored, draws, acted, stored)
  }

  ghost function AfterIssue(setup: Setup, b: Book, req: Option<IssueRequest>, scored: Scored, draws: Draws,
                            now: Instant, acted: Instant, stored: Instant): Book {
    var b' := Received(b, now);
    if req.None? || AdmitIssue(setup, req.value).Err? then b'
    else Metered(setup, b', AdmitIssue(setup, req.value).value, req.value, scored, draws, now, acted, stored)
  }

  function Passed(b: Book, id: string, c: Challenge, site: Site, jti: Option<string>, now: Instant): Book {
    if id !in b.store.challenges then b
    else Granted(Until(ConsumedAt(b, id), now), c.siteKey, c.action, c.hostname, c.ipBind, KindText(c.kind),
                 c.riskScore, site.tokenTtlSeconds * SECOND, jti, now)
  }

  function Judged(b: Book, id: string, c: Challenge, v: Verdict, jti: Option<string>, now: Instant): Book {
    match v
    case Turned(_) => b
    case Strike(_) => StruckAt(b, id)
    case Pass(site) => Passed(b, id, c, site, jti, now)
  }

  /** The store reads the clock at `now`, the proof check at `checked` and `later`, and minting at `minted`. */
  ghost function AfterVerify(setup: Setup, b: Book, req: VerifyRequest, jti: Option<string>,
                             now: Instant, checked: Instant, later: Instant, minted: Instant): Book {
    var b' := Received(b, now);
    if !IdText(req.id) then b'
    else
      var found := Swept(b', now);
      var c := Store.Lookup(found.store, req.id);
      if c.None? then found
      else Judged(Until(found, later), req.id, c.value, Judge(setup, c.value, req, checked, later), jti, minted)
  }

  function Presented(b: Book, now: Instant): Book {
    var b' := Received(b, now);
    b'.(history := b'.history.(siteRequests := b'.history.siteRequests + 1))
  }

  function AfterSiteVerify(setup: Setup, b: Book, req: Option<SiteRequest>, owner: Option<Site>, now: Instant,
                           later: Instant): Book {
    var b' := Presented(b, now);
    if req.None? || CheckSite(setup, req.value, owner, now).Err?
    then b'.(stats := b'.stats.(verifyFailure := b'.stats.verifyFailure + 1))
    else SpentAt(b', CheckSite(setup, req.value, owner, now).value, later)
  }

  // ---- Runs ----------------------------------------------------------------------------

  datatype Call =
    | IssueCall(issue: Option<IssueRequest>, scored: Scored, draws: Draws, now: Instant, acted: Instant,
                stored: Instant)
    | VerifyCall(verify: VerifyRequest, jti: Option<string>, now: Instant, checked: Instant, later: Instant,
                 minted: Instant)
    | SiteCall(present: Option<SiteRequest>, owner: Option<Site>, now: Instant, later: Instant)

  predicate FreshJti(b: Book, jti: Option<string>) {
    jti.Some? ==> jti.value !in b.history.minted
  }

  predicate FreshId(b: Book, draw: Option<(string, string)>) {
    draw.Some? ==> draw.value.0 !in b.history.put
  }

  /** The clock never goes back, draws that succeed are fresh, and presented tokens are not forged. */
  ghost predicate Enabled(setup: Setup, b: Book, c: Call) {
    match c
    case IssueCall(_, _, draws, now, acted, stored) =>
      b.history.clock <= now <= acted <= stored && FreshJti(b, draws.jti) && FreshId(b, draws.challenge)
    case VerifyCall(_, jti, now, checked, later, minted) =>
      b.history.clock <= now <= checked <= later <= minted && FreshJti(b, jti)
    case SiteCall(req, owner, now, later) =>
      && b.history.clock <= now <= later
      && (req.Some? ==> OwnsSecret(setup, req.value, owner) && Unforged(setup, b.history.minted, req.value.response))
  }

  ghost function Do(setup: Setup, b: Book, c: Call): Book {
    match c
    case IssueCall(req, scored, draws, now, acted, stored) =>
      AfterIssue(setup, b, req, scored, draws, now, acted, stored)
    case VerifyCall(req, jti, now, checked, later, minted) =>
      AfterVerify(setup, b, req, jti, now, checked, later, minted)
    case SiteCall(req, owner, now, later) => AfterSiteVerify(setup, b, req, owner, now, later)
  }

  ghost function Run(setup: Setup, run: seq<Call>): Option<Book> {
    if run == [] then Some(OPENING)
    else
      var before := Run(setup, run[..|run| - 1]);
      if before.Some? && Enabled(setup, before.value, run[|run| - 1])
      then Some(Do(setup, before.value, run[|run| - 1]))
      else None
  }

  lemma {:induction false} RunPrefix(setup: Setup, calls: seq<Call>, n: nat)
    requires Run(setup, calls).Some? && n <= |calls|
    ensures Run(setup, calls[..n]).Some?
    decreases |calls|
  {
    hide Do, Enabled;
    if n < |calls| {
      var before := calls[..|calls| - 1];
      RunPrefix(setup, before, n);
      assert before[..n] == calls[..n];
    } else {
      assert calls[..n] == calls;
    }
  }
}
