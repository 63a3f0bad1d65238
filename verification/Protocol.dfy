/**
 The gateway as a step system: any number of requests in flight, interleaved at every
 operation on the shared store, at every random draw and at every clock reading between
 them. `verifyChallenge` reads a challenge, judges its own copy, and only then strikes or
 consumes the stored one; `siteVerify` checks a token and only then spends it.
 */
module Protocol {
  import opened Wrappers
  import opened Clock
  import opened ChallengeModel
  import opened Hostnames
  import opened Sites
  import opened RiskModel
  import opened Challenges
  import opened Api
  import Store
  import Token

  /** What issuing decided, once and for all; `challengeId` is None for a token granted at once. */
  datatype Issue = Issue(
    siteKey: string,
    action: string,
    hostname: string,
    sessionId: string,
    ip: string,
    ipBind: string,
    score: int,
    kind: string,
    challengeId: Option<string>)

  /** Where a request stands between two steps. */
  datatype Thread =
    | Deciding(site: Site, req: IssueRequest)
    | Granted(issue: Issue)
    | Putting(c: Challenge)
    | Checking(c: Challenge, verify: VerifyRequest)
    | Striking(id: string)
    | Consuming(c: Challenge, solve: Solve)
    | Minting(c: Challenge)
    | Spending(site: Site, claims: Token.Claims, present: SiteRequest)
    | Finished

  /** A verification that passed: the copy it judged, the request, and the two clock readings of the check. */
  datatype Solve = Solve(c: Challenge, req: VerifyRequest, at: Instant, later: Instant)

  datatype Success = Success(claims: Token.Claims, site: Site, req: SiteRequest, at: Instant)

  datatype State = State(
    store: Store.State,
    clock: Instant,
    threads: map<nat, Thread>,
    issued: map<nat, Issue>,
    challengeOf: map<string, nat>,
    posed: map<string, Challenge>,
    put: set<string>,
    consumed: map<string, Solve>,
    minted: map<string, Token.Claims>,
    origin: map<string, nat>,
    successes: seq<Success>)

  const START := State(Store.EMPTY, 0, map[], map[], map[], map[], {}, map[], map[], map[], [])

  datatype Action =
    | IssueStart(rid: nat, issue: IssueRequest, now: Instant)
    | IssueDecide(rid: nat, score: int, tags: seq<string>, id: string, seed: string, now: Instant)
    | IssueMint(rid: nat, jti: string, now: Instant)
    | IssuePut(rid: nat, now: Instant)
    | VerifyRead(rid: nat, verify: VerifyRequest, now: Instant)
    | VerifyJudge(rid: nat, now: Instant, later: Instant)
    | VerifyStrike(rid: nat)
    | VerifyConsume(rid: nat)
    | VerifyMint(rid: nat, jti: string, now: Instant)
    | SiteStart(rid: nat, present: SiteRequest, owner: Option<Site>, now: Instant)
    | SiteSpend(rid: nat, now: Instant)

  // ---- Steps -----------------------------------------------------------------------

  function At(s: State, rid: nat): Thread {
    if rid in s.threads then s.threads[rid] else Finished
  }

  predicate FreshJti(s: State, jti: string) {
    jti != "" && jti !in s.minted
  }

  /** When a step can be taken: its request is at the right place, draws are fresh, clocks move forward. */
  ghost predicate Enabled(setup: Setup, s: State, a: Action) {
    match a
    case IssueStart(rid, req, now) => rid !in s.threads && AdmitIssue(setup, req).Ok? && s.clock <= now
    case IssueDecide(rid, _, _, id, seed, now) =>
      At(s, rid).Deciding? && id !in s.challengeOf && seed != "" && s.clock <= now
    case IssueMint(rid, jti, now) => At(s, rid).Granted? && FreshJti(s, jti) && s.clock <= now
    case IssuePut(rid, now) => At(s, rid).Putting? && s.clock <= now
    case VerifyRead(rid, req, now) => rid !in s.threads && IdText(req.id) && s.clock <= now
    case VerifyJudge(rid, now, later) => At(s, rid).Checking? && s.clock <= now <= later
    case VerifyStrike(rid) => At(s, rid).Striking?
    case VerifyConsume(rid) => At(s, rid).Consuming?
    case VerifyMint(rid, jti, now) => At(s, rid).Minting? && FreshJti(s, jti) && s.clock <= now
    case SiteStart(rid, req, owner, now) =>
      rid !in s.threads && OwnsSecret(setup, req, owner) && Unforged(setup, s.minted, req.response) && s.clock <= now
    case SiteSpend(rid, now) => At(s, rid).Spending? && s.clock <= now
  }

  function Move(s: State, rid: nat, t: Thread, now: Instant): State {
    s.(threads := s.threads[rid := t], clock := now)
  }

  function NewIssue(setup: Setup, site: Site, req: IssueRequest, score: int, kind: string, id: Option<string>): Issue {
    Issue(site.key, req.action, NormalizeHostname(req.hostname), req.sessionId, req.ip,
          IpBinding(setup, site, req.ip), score, kind, id)
  }

  function NewChallenge(setup: Setup, site: Site, req: IssueRequest, score: int, tags: seq<string>,
                        id: string, seed: string, now: Instant): Challenge {
    var kind := KindOf(Decide(score, site.thresholds));
    New(kind, site.key, req.action, NormalizeHostname(req.hostname), req.sessionId, IpBinding(setup, site, req.ip),
        score, tags, site.challengeTtlSeconds * SECOND, id, seed, now).value
  }

  function TokenTtl(setup: Setup, siteKey: string): int {
    if siteKey in setup.sites then setup.sites[siteKey].tokenTtlSeconds * SECOND else 0
  }

  function IssueOf(s: State, id: string): nat {
    if id in s.challengeOf then s.challengeOf[id] else 0
  }

  function MintFor(setup: Setup, i: Issue, jti: string, now: Instant): Token.Claims {
    Token.MintClaims(i.siteKey, i.action, i.hostname, i.ipBind, i.kind, i.score,
                     TokenTtl(setup, i.siteKey), jti, now)
  }

  function MintSolved(setup: Setup, c: Challenge, jti: string, now: Instant): Token.Claims {
    Token.MintClaims(c.siteKey, c.action, c.hostname, c.ipBind, KindText(c.kind), c.riskScore,
                     TokenTtl(setup, c.siteKey), jti, now)
  }

  function Record(s: State, rid: nat, jti: string, c: Token.Claims, issue: nat, now: Instant): State {
    Move(s, rid, Finished, now).(minted := s.minted[jti := c], origin := s.origin[jti := issue])
  }

  function DoIssueStart(setup: Setup, s: State, rid: nat, req: IssueRequest, site: Site, now: Instant): State {
    var key := RateKey(setup, site, req);
    var store := Store.Rate(s.store, key, MINUTE, now);
    var allowed := store.rates[key].count <= site.rateLimitPerMinute;
    Move(s, rid, if allowed then Deciding(site, req) else Finished, now).(store := store)
  }

  function DoIssueDecide(setup: Setup, s: State, rid: nat, site: Site, req: IssueRequest,
                         score: int, tags: seq<string>, id: string, seed: string, now: Instant): State {
    var d := Decide(score, site.thresholds);
    if d == Block then Move(s, rid, Finished, now)
    else if d == Allow then
      var i := NewIssue(setup, site, req, score, "passive", None);
      Move(s, rid, Granted(i), now).(issued := s.issued[rid := i])
    else
      var c := NewChallenge(setup, site, req, score, tags, id, seed, now);
      var i := NewIssue(setup, site, req, score, KindText(c.kind), Some(id));
      Move(s, rid, Putting(c), now).(
        issued := s.issued[rid := i], challengeOf := s.challengeOf[id := rid], posed := s.posed[id := c])
  }

  function DoVerifyRead(s: State, rid: nat, req: VerifyRequest, now: Instant): State {
    var store := Store.Sweep(s.store, now);
    var c := Store.Lookup(store, req.id);
    Move(s, rid, if c.Some? then Checking(c.value, req) else Finished, now).(store := store)
  }

  /** The check's second reading, `later`, is its own: others may read the clock between the two. */
  function DoVerifyJudge(s: State, rid: nat, c: Challenge, req: VerifyRequest, v: Verdict, now: Instant,
                         later: Instant): State {
    var t := match v
             case Turned(_) => Finished
             case Strike(_) => Striking(c.id)
             case Pass(_) => Consuming(c, Solve(c, req, now, later));
    Move(s, rid, t, now)
  }

  function DoVerifyConsume(s: State, rid: nat, c: Challenge, solve: Solve): State {
    if c.id !in s.store.challenges then Move(s, rid, Finished, s.clock)
    else Move(s, rid, Minting(c), s.clock).(
           store := Store.Consume(s.store, c.id),
           consumed := s.consumed[c.id := solve])
  }

  function DoSiteSpend(s: State, rid: nat, t: Thread, now: Instant): State
    requires t.Spending?
  {
    var first := t.claims.jti !in Store.Sweep(s.store, now).spent;
    Move(s, rid, Finished, now).(
      store := Store.Spend(s.store, t.claims.jti, Expiry(t.claims), now),
      successes := s.successes + if first then [Success(t.claims, t.site, t.present, now)] else [])
  }

  function DoIssuePut(s: State, rid: nat, c: Challenge, now: Instant): State {
    Move(s, rid, Finished, now).(store := Store.Put(s.store, c, now), put := s.put + {c.id})
  }

  function DoVerifyStrike(s: State, rid: nat, id: string): State {
    Move(s, rid, Finished, s.clock).(store := Store.Fail(s.store, id, 3))
  }

  function DoSiteStart(setup: Setup, s: State, rid: nat, req: SiteRequest, owner: Option<Site>, now: Instant): State {
    var r := CheckSite(setup, req, owner, now);
    Move(s, rid, if r.Ok? && owner.Some? then Spending(owner.value, r.value, req) else Finished, now)
  }

  ghost function Do(setup: Setup, s: State, a: Action): State
    requires Enabled(setup, s, a)
  {
    match a
    case IssueStart(rid, req, now) => DoIssueStart(setup, s, rid, req, AdmitIssue(setup, req).value, now)
    case IssueDecide(rid, score, tags, id, seed, now) =>
      DoIssueDecide(setup, s, rid, At(s, rid).site, At(s, rid).req, score, tags, id, seed, now)
    case IssueMint(rid, jti, now) => Record(s, rid, jti, MintFor(setup, At(s, rid).issue, jti, now), rid, now)
    case IssuePut(rid, now) => DoIssuePut(s, rid, At(s, rid).c, now)
    case VerifyRead(rid, req, now) => DoVerifyRead(s, rid, req, now)
    case VerifyJudge(rid, now, later) =>
      var t := At(s, rid);
      DoVerifyJudge(s, rid, t.c, t.verify, Judge(setup, t.c, t.verify, now, later), now, later)
    case VerifyStrike(rid) => DoVerifyStrike(s, rid, At(s, rid).id)
    case VerifyConsume(rid) => DoVerifyConsume(s, rid, At(s, rid).c, At(s, rid).solve)
    case VerifyMint(rid, jti, now) =>
      var c := At(s, rid).c;
      Record(s, rid, jti, MintSolved(setup, c, jti, now), IssueOf(s, c.id), now)
    case SiteStart(rid, req, owner, now) => DoSiteStart(setup, s, rid, req, owner, now)
    case SiteSpend(rid, now) => DoSiteSpend(s, rid, At(s, rid), now)
  }

  /** The state a run leads to, if every step of it can be taken. */
  ghost function Run(setup: Setup, run: seq<Action>): Option<State> {
    if run == [] then Some(START)
    else
      var before := Run(setup, run[..|run| - 1]);
      var a := run[|run| - 1];
      if before.Some? && Enabled(setup, before.value, a)
      then Some(Do(setup, before.value, a)) else None
  }

  lemma Extend(setup: Setup, run: seq<Action>, a: Action)
    requires Run(setup, run).Some? && Enabled(setup, Run(setup, run).value, a)
    ensures Run(setup, run + [a]) == Some(Do(setup, Run(setup, run).value, a))
  {
    hide Do, Enabled;
    assert (run + [a])[..|run|] == run;
  }
}
