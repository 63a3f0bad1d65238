/** The gateway's request handlers, each run on its own, over the shared store (server.go). */
module Gateway {
  import opened Wrappers
  import opened Clock
  import opened ChallengeModel
  import opened Hostnames
  import opened Sites
  import opened Api
  import opened Ledger
  import opened RiskModel
  import Challenges
  import Store
  import Token

  datatype Answer =
    | Refused(code: string)
    | BlockedRequest
    | TokenFor(tok: string)
    | Solve(c: Challenge)
    | Succeeded(claims: Token.Claims)
    | InternalError

  /** `originAllowedForHostname` */
  method OriginAllowed(origin: Origin, site: Site, expected: string) returns (ok: bool)
    ensures ok == OriginAllowedForHostname(origin, site, expected)
  {
    match origin {
      case NoOrigin => return true;
      case BadOrigin => return false;
      case FromHost(h) =>
        var originHost := NormalizeHostname(h);
        var expectedHost := NormalizeHostname(expected);
        ok := AllowsHostname(site.hostnames, originHost);
        ok := ok && originHost == expectedHost;
    }
  }

  /** `tok` carries the one token that was minted in between. */
  ghost predicate Delivers(setup: Setup, before: map<string, Token.Claims>, after: map<string, Token.Claims>,
                           tok: string) {
    exists jti | jti in after ::
      after == before[jti := after[jti]] && tok == Token.Sign(setup.codec, setup.signer, after[jti])
  }

  function RefusalCode(r: IssueRefusal): string {
    match r
    case InvalidSiteKey => "invalid-site-key"
    case InvalidAction => "invalid-action"
    case HostnameNotAllowed => "hostname-not-allowed"
    case InvalidSession => "invalid-session-id"
    case OriginNotAllowed => "origin-not-allowed"
  }

  /** What a decision is answered with: a token or a challenge of its kind, if the draw succeeded. */
  predicate Meets(answer: Answer, scored: Scored, draws: Draws) {
    match scored.decision
    case Some(Block) => answer == BlockedRequest
    case Some(Allow) => if draws.jti.Some? then answer.TokenFor? else answer == InternalError
    case Some(d) =>
      if draws.challenge.None? then answer == InternalError
      else
        && answer.Solve? && answer.c.id == draws.challenge.value.0 && answer.c.riskScore == scored.score
        && answer.c.kind == (if d == Interactive then InteractiveKind else PowKind)
    case None => answer == InternalError
  }

  lemma ConsumeOfNothing(s: Store.State, id: string)
    requires id !in s.challenges
    ensures Store.Consume(s, id) == s
  {
    assert s.challenges - {id} == s.challenges;
  }

  class Server {
    const setup: Setup
    const registry: Registry
    const memory: Store.Memory
    var stats: Stats
    ghost var history: History

    constructor (setup: Setup, registry: Registry)
      requires registry.sites == setup.sites
      ensures Valid() && View() == OPENING && fresh(memory)
      ensures this.setup == setup && this.registry == registry
    {
      this.setup, this.registry, stats, history := setup, registry, NO_STATS, NO_HISTORY;
      memory := new Store.Memory();
    }

    ghost predicate Valid()
      reads this, registry
    {
      registry.sites == setup.sites
    }

    ghost function View(): Book
      reads this, memory
    {
      Book(memory.View(), stats, history)
    }

    // ---- POST /v1/challenge ------------------------------------------------------------

    /** The checks in the handler's order. */
    method Admit(r: IssueRequest) returns (v: Result<Site, IssueRefusal>)
      requires Valid()
      ensures v == AdmitIssue(setup, r)
    {
      var found := registry.Get(r.siteKey);
      if found.None? {
        return Err(InvalidSiteKey);
      }
      var site := found.value;
      if !ActionText(r.action) {
        return Err(InvalidAction);
      }
      var allowsHost := AllowsHostname(site.hostnames, r.hostname);
      if !allowsHost {
        return Err(HostnameNotAllowed);
      }
      var hostname := NormalizeHostname(r.hostname);
      if r.sessionId == "" || |r.sessionId| > 128 {
        return Err(InvalidSession);
      }
      var originOk := OriginAllowed(r.origin, site, hostname);
      if !originOk {
        return Err(OriginNotAllowed);
      }
      v := Ok(site);
    }

    method Receive(now: Instant)
      modifies this
      ensures stats == old(stats).(requests := old(stats).requests + 1)
      ensures history == old(history).(clock := now)
    {
      stats := stats.(requests := stats.requests + 1);
      history := history.(clock := now);
    }

    method Mint(siteKey: string, action: string, hostname: string, ipBind: string, kind: string, score: int, ttl: int,
                jti: Option<string>, now: Instant)
      returns (answer: Answer)
      modifies `history
      ensures View() == Granted(old(View()), siteKey, action, hostname, ipBind, kind, score, ttl, jti, now)
      ensures !answer.Solve? && history.put == old(history.put)
      ensures if jti.Some? then answer.TokenFor? else answer == InternalError
      ensures !answer.TokenFor? ==> history.minted == old(history.minted)
      ensures answer.TokenFor? ==> Delivers(setup, old(history).minted, history.minted, answer.tok)
    {
      if jti.None? {
        history := history.(lostTokens := history.lostTokens + 1);
        return InternalError;
      }
      var c := Token.MintClaims(siteKey, action, hostname, ipBind, kind, score, ttl, jti.value, now);
      history := history.(minted := history.minted[c.jti := c]);
      answer := TokenFor(Token.Sign(setup.codec, setup.signer, c));
      assert c.jti in history.minted && history.minted[c.jti] == c;
    }

    method Pose(kind: Kind, site: Site, r: IssueRequest, ipBind: string, scored: Scored,
                draw: Option<(string, string)>, acted: Instant, stored: Instant)
      returns (answer: Answer)
      requires !kind.OtherKind?
      modifies `history, memory
      ensures draw.None? ==> answer == InternalError
      ensures draw.Some? ==> answer.Solve? && answer.c.id == draw.value.0 && answer.c.riskScore == scored.score
      ensures draw.Some? ==> answer.c.kind == kind
      ensures View() == Posed(old(View()), kind, site, r, ipBind, scored, draw, acted, stored)
      ensures !answer.TokenFor? && history.minted == old(history.minted)
      ensures answer.Solve? ==> Store.Lookup(memory.View(), answer.c.id) == Some(answer.c)
      ensures !answer.Solve? ==> history.put == old(history.put)
    {
      if draw.None? {
        history := history.(lostChallenges := history.lostChallenges + 1);
        return InternalError;
      }
      var (id, seed) := draw.value;
      var c := Challenges.New(kind, site.key, r.action, NormalizeHostname(r.hostname), r.sessionId, ipBind,
                              scored.score, scored.tags, site.challengeTtlSeconds * SECOND, id, seed, acted);
      history := PutIn(View(), c.value, stored).history;
      memory.PutChallenge(c.value, stored);
      answer := Solve(c.value);
    }

    method Decide(site: Site, r: IssueRequest, scored: Scored, draws: Draws, acted: Instant, stored: Instant)
      returns (answer: Answer)
      modifies this, memory
      ensures View() == Decided(setup, old(View()), site, r, scored, draws, acted, stored)
      ensures Meets(answer, scored, draws) && stats.rateLimited == old(stats).rateLimited
      ensures answer.TokenFor? ==> Delivers(setup, old(history).minted, history.minted, answer.tok)
      ensures !answer.TokenFor? ==> history.minted == old(history.minted)
      ensures answer.Solve? ==> Store.Lookup(memory.View(), answer.c.id) == Some(answer.c)
      ensures !answer.Solve? ==> history.put == old(history.put)
    {
      hide Granted, Posed, Delivers, NormalizeHostname;
      stats := stats.(challenges := stats.challenges + 1);
      var ipBind := "";
      if site.bindIpPrefix {
        ipBind := setup.BindIp(r.ip);
      }
      match scored.decision {
        case None =>
          history := history.(undecided := history.undecided + 1);
          return InternalError;
        case Some(Block) =>
          stats := stats.(blocked := stats.blocked + 1);
          return BlockedRequest;
        case Some(Allow) =>
          stats := stats.(allowed := stats.allowed + 1);
          history := history.(clock := acted);
          answer := Mint(site.key, r.action, NormalizeHostname(r.hostname), ipBind, "passive", scored.score,
                         site.tokenTtlSeconds * SECOND, draws.jti, acted);
        case Some(Pow) =>
          stats := stats.(pow := stats.pow + 1);
          answer := Pose(PowKind, site, r, ipBind, scored, draws.challenge, acted, stored);
        case Some(Interactive) =>
          stats := stats.(interactive := stats.interactive + 1);
          answer := Pose(InteractiveKind, site, r, ipBind, scored, draws.challenge, acted, stored);
      }
    }

    method Meter(site: Site, r: IssueRequest, scored: Scored, draws: Draws, now: Instant, acted: Instant,
                 stored: Instant)
      returns (answer: Answer)
      modifies this, memory
      ensures View() == Metered(setup, old(View()), site, r, scored, draws, now, acted, stored)
      ensures if stats.rateLimited == old(stats).rateLimited + 1 then answer == Refused("rate-limited")
              else Meets(answer, scored, draws)
      ensures answer.TokenFor? ==> Delivers(setup, old(history).minted, history.minted, answer.tok)
      ensures !answer.TokenFor? ==> history.minted == old(history.minted)
      ensures answer.Solve? ==> Store.Lookup(memory.View(), answer.c.id) == Some(answer.c)
      ensures !answer.Solve? ==> history.put == old(history.put)
    {
      var allowed, count := memory.AllowRate(RateKey(setup, site, r), site.rateLimitPerMinute, MINUTE, now);
      if !allowed {
        stats := stats.(rateLimited := stats.rateLimited + 1);
        return Refused("rate-limited");
      }
      answer := Decide(site, r, scored, draws, acted, stored);
    }

    /** `now`, `acted` and `stored` are the readings of the rate limiter, of minting or posing, and of the store. */
    method IssueChallenge(req: Option<IssueRequest>, scored: Scored, draws: Draws, now: Instant, acted: Instant,
                          stored: Instant)
      returns (answer: Answer)
      requires Valid()
      modifies this, memory
      ensures Valid()
      ensures View() == AfterIssue(setup, old(View()), req, scored, draws, now, acted, stored)
      ensures answer.TokenFor? ==> Delivers(setup, old(history).minted, history.minted, answer.tok)
      ensures !answer.TokenFor? ==> history.minted == old(history.minted)
      ensures answer.Solve? ==> Store.Lookup(memory.View(), answer.c.id) == Some(answer.c)
      ensures !answer.Solve? ==> history.put == old(history.put)
      ensures req.None? ==> answer == Refused("invalid-json")
      ensures req.Some? && AdmitIssue(setup, req.value).Err? ==>
                answer == Refused(RefusalCode(AdmitIssue(setup, req.value).error))
      ensures req.Some? && AdmitIssue(setup, req.value).Ok? ==>
                if stats.rateLimited == old(stats).rateLimited + 1 then answer == Refused("rate-limited")
                else Meets(answer, scored, draws)
    {
      hide Metered, AdmitIssue, Delivers, Store.Lookup, Meets;
      Receive(now);
      if req.None? {
        return Refused("invalid-json");
      }
      var admitted := Admit(req.value);
      match admitted {
        case Err(refusal) => return Refused(RefusalCode(refusal));
        case Ok(site) => answer := Meter(site, req.value, scored, draws, now, acted, stored);
      }
    }

    // ---- POST /v1/challenge/{id}/verify ------------------------------------------------

    method Strike(id: string)
      modifies this, memory
      ensures View() == StruckAt(old(View()), id)
      ensures history.minted == old(history.minted)
    {
      history := StruckAt(View(), id).history;
      memory.FailChallenge(id, 3);
    }

    method Redeem(id: string, c: Challenge, site: Site, jti: Option<string>, now: Instant) returns (answer: Answer)
      modifies this, memory
      ensures View() == Passed(old(View()), id, c, site, jti, now)
      ensures if id !in old(memory.View()).challenges then answer == Refused("challenge-already-consumed")
              else if jti.Some? then answer.TokenFor? else answer == InternalError
      ensures answer.TokenFor? ==> Delivers(setup, old(history).minted, history.minted, answer.tok)
      ensures !answer.TokenFor? ==> history.minted == old(history.minted)
    {
      ghost var b := View();
      var won := memory.ConsumeChallenge(id);
      if !won {
        assert Store.Consume(b.store, id) == b.store by { ConsumeOfNothing(b.store, id); }
        return Refused("challenge-already-consumed");
      }
      history := ConsumedAt(b, id).history.(clock := now);
      answer := Mint(c.siteKey, c.action, c.hostname, c.ipBind, KindText(c.kind), c.riskScore,
                     site.tokenTtlSeconds * SECOND, jti, now);
    }

    method Check(c: Challenge, req: VerifyRequest, jti: Option<string>, checked: Instant, later: Instant,
                 minted: Instant)
      returns (answer: Answer)
      requires Valid()
      modifies this, memory
      ensures View() == Judged(old(View()), req.id, c, Judge(setup, c, req, checked, later), jti, minted)
      ensures answer.TokenFor? ==> Delivers(setup, old(history).minted, history.minted, answer.tok)
      ensures !answer.TokenFor? ==> history.minted == old(history.minted)
      ensures var v := Judge(setup, c, req, checked, later);
              if !v.Pass? then answer == Refused(v.error)
              else if req.id !in old(memory.View()).challenges then answer == Refused("challenge-already-consumed")
              else if jti.Some? then answer.TokenFor? else answer == InternalError
    {
      var found := registry.Get(c.siteKey);
      if found.None? {
        return Refused("invalid-site-key");
      }
      var site := found.value;
      var originOk := OriginAllowed(req.origin, site, c.hostname);
      if !originOk {
        return Refused("origin-not-allowed");
      }
      if site.bindIpPrefix && setup.BindIp(req.ip) != c.ipBind {
        Strike(req.id);
        return Refused("network-binding-mismatch");
      }
      if !req.readable {
        return Refused("invalid-json");
      }
      if req.sessionId == "" || req.sessionId != c.sessionId {
        Strike(req.id);
        return Refused("session-binding-mismatch");
      }
      var refusal := Challenges.Verify(setup.sha256, c, req.proof, checked, later);
      if refusal.Some? {
        Strike(req.id);
        return Refused("invalid-proof");
      }
      answer := Redeem(req.id, c, site, jti, minted);
    }

    /** `now` is the store's reading, `checked` and `later` those of the proof check, `minted` that of the token. */
    method VerifyChallenge(req: VerifyRequest, jti: Option<string>, now: Instant, checked: Instant, later: Instant,
                           minted: Instant)
      returns (answer: Answer)
      requires Valid()
      modifies this, memory
      ensures Valid()
      ensures View() == AfterVerify(setup, old(View()), req, jti, now, checked, later, minted)
      ensures !(1 <= |req.id| <= 96) ==> answer == Refused("invalid-challenge-id")
      ensures 1 <= |req.id| <= 96 ==>
                match Store.Lookup(Store.Sweep(old(memory.View()), now), req.id)
                case None => answer == Refused("challenge-not-found-or-expired")
                case Some(c) =>
                  var v := Judge(setup, c, req, checked, later);
                  if !v.Pass? then answer == Refused(v.error)
                  else if jti.Some? then answer.TokenFor? else answer == InternalError
      ensures answer.TokenFor? ==> Delivers(setup, old(history).minted, history.minted, answer.tok)
      ensures !answer.TokenFor? ==> history.minted == old(history.minted)
    {
      hide Judged, Judge, Delivers, Store.Sweep;
      Receive(now);
      if req.id == "" || |req.id| > 96 {
        return Refused("invalid-challenge-id");
      }
      history := SweepAway(View(), now);
      var c := memory.GetChallenge(req.id, now);
      if c.None? {
        return Refused("challenge-not-found-or-expired");
      }
      history := history.(clock := later);
      answer := Check(c.value, req, jti, checked, later, minted);
    }

    // ---- POST /v1/siteverify -----------------------------------------------------------

    method Fail()
      modifies `stats
      ensures stats == old(stats).(verifyFailure := old(stats).verifyFailure + 1)
    {
      stats := stats.(verifyFailure := stats.verifyFailure + 1);
    }

    /** The checks in the handler's order. */
    method CheckPresented(r: SiteRequest, found: Option<Site>, now: Instant) returns (v: Result<Token.Claims, string>)
      ensures v == CheckSite(setup, r, found, now)
    {
      if |r.secret| == 0 || |r.response| == 0 {
        return Err("bad-request");
      }
      if |r.secret| > 512 || |r.response| > 8192 ||
         |r.expectedAction| > 64 || |r.expectedHostname| > 253 || |r.remoteIp| > 64
      {
        return Err("bad-request");
      }
      if found.None? {
        return Err("invalid-input-secret");
      }
      var site := found.value;
      var verified := Token.Verify(setup.codec, setup.signer, r.response, now);
      if verified.Err? {
        return Err(if verified.error.Expired? then "timeout-or-duplicate" else "invalid-input-response");
      }
      var claims := verified.value;
      if claims.siteKey != site.key {
        return Err("sitekey-secret-mismatch");
      }
      if r.expectedAction == "" {
        return Err("missing-expected-action");
      }
      if r.expectedHostname == "" {
        return Err("missing-expected-hostname");
      }
      if r.expectedAction != claims.action {
        return Err("action-mismatch");
      }
      if NormalizeHostname(r.expectedHostname) != NormalizeHostname(claims.hostname) {
        return Err("hostname-mismatch");
      }
      if site.bindIpPrefix {
        if r.remoteIp == "" {
          return Err("missing-remoteip");
        }
        if setup.BindIp(r.remoteIp) != claims.ipBind {
          return Err("remoteip-mismatch");
        }
      }
      v := Ok(claims);
    }

    method Spend(claims: Token.Claims, now: Instant) returns (answer: Answer)
      modifies this, memory
      ensures View() == SpentAt(old(View()), claims, now)
      ensures answer.Succeeded? <==> stats.verifySuccess == old(stats).verifySuccess + 1
      ensures answer == Succeeded(claims) || answer == Refused("timeout-or-duplicate")
    {
      history := SpentAt(View(), claims, now).history;
      var first := memory.ConsumeJTI(claims.jti, Expiry(claims), now);
      if !first {
        stats := stats.(replays := stats.replays + 1, verifyFailure := stats.verifyFailure + 1);
        return Refused("timeout-or-duplicate");
      }
      stats := stats.(verifySuccess := stats.verifySuccess + 1);
      answer := Succeeded(claims);
    }

    /**
     `owner` is the site the walk over the registry came upon; the lookup changes nothing, so
     it may come before the size checks. `later` is the reading the spending takes.
     */
    method SiteVerify(req: Option<SiteRequest>, now: Instant, later: Instant)
      returns (answer: Answer, ghost owner: Option<Site>)
      requires Valid()
      modifies this, memory
      ensures Valid()
      ensures req.Some? ==> OwnsSecret(setup, req.value, owner)
      ensures View() == AfterSiteVerify(setup, old(View()), req, owner, now, later)
      ensures answer.Succeeded? <==> stats.verifySuccess == old(stats).verifySuccess + 1
      ensures req.None? ==> answer == Refused("bad-request")
      ensures req.Some? ==>
                match CheckSite(setup, req.value, owner, now)
                case Err(code) => answer == Refused(code)
                case Ok(claims) => answer == Succeeded(claims) || answer == Refused("timeout-or-duplicate")
    {
      hide SpentAt, CheckSite;
      Receive(now);
      history := history.(siteRequests := history.siteRequests + 1);
      owner := None;
      if req.None? {
        Fail();
        return Refused("bad-request"), owner;
      }
      var r := req.value;
      var found := registry.GetBySecret(r.secret);
      owner := found;
      var checked := CheckPresented(r, found, now);
      if checked.Err? {
        Fail();
        return Refused(checked.error), owner;
      }
      answer := Spend(checked.value, later);
    }
  }
}
