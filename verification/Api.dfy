/** The checks of the three request handlers, in the order the handlers make them (server.go). */
module Api {
  import opened Wrappers
  import opened Clock
  import opened ChallengeModel
  import opened Hostnames
  import opened Text
  import opened Sites
  import opened RiskModel
  import opened Challenges
  import Base64Url
  import Token

  /** What the server is started with; hashing and address binding stay abstract. */
  datatype Setup = Setup(
    sites: map<string, Site>,
    codec: Token.Codec,
    signer: Token.Signer,
    sha256: string -> Base64Url.Bytes,
    prefix: string -> string,
    prefixTag: string -> string)
  {
    /** `util.BindIP`: a tag of the network prefix, or nothing for an unreadable address. */
    function BindIp(ip: string): string {
      if prefix(ip) == "" then "" else prefixTag(prefix(ip))
    }

    /** Tags tell prefixes apart, and none is empty. */
    ghost predicate TagsSeparate() {
      && (forall p :: prefixTag(p) != "")
      && (forall p, q :: prefixTag(p) == prefixTag(q) ==> p == q)
    }

    ghost predicate Sound() {
      && codec.Lawful()
      && (forall key | key in sites :: sites[key].key == key && GoodThresholds(sites[key].thresholds))
    }
  }

  /** The Origin header: absent, unusable, or naming a host. */
  datatype Origin = NoOrigin | BadOrigin | FromHost(host: string)

  ghost predicate AllowsHost(site: Site, host: string) {
    exists i | 0 <= i < |site.hostnames| :: Admits(site.hostnames[i], NormalizeHostname(host))
  }

  ghost predicate OriginAllowedForHostname(origin: Origin, site: Site, expected: string) {
    match origin
    case NoOrigin => true
    case BadOrigin => false
    case FromHost(h) =>
      AllowsHost(site, NormalizeHostname(h)) && NormalizeHostname(h) == NormalizeHostname(expected)
  }

  // ---- POST /v1/challenge ----------------------------------------------------------

  datatype IssueRequest = IssueRequest(
    siteKey: string, action: string, hostname: string, sessionId: string, origin: Origin, ip: string)

  datatype IssueRefusal =
    | InvalidSiteKey
    | InvalidAction
    | HostnameNotAllowed
    | InvalidSession
    | OriginNotAllowed

  predicate ActionChar(c: char) {
    'A' <= c <= 'Z' || 'a' <= c <= 'z' || '0' <= c <= '9' || c in "_.:/-"
  }

  predicate ActionText(a: string) {
    1 <= |a| <= 64 && forall i | 0 <= i < |a| :: ActionChar(a[i])
  }

  ghost function AdmitIssue(setup: Setup, r: IssueRequest): Result<Site, IssueRefusal> {
    if r.siteKey !in setup.sites then Err(InvalidSiteKey)
    else
      var site := setup.sites[r.siteKey];
      if !ActionText(r.action) then Err(InvalidAction)
      else if !AllowsHost(site, r.hostname) then Err(HostnameNotAllowed)
      else if r.sessionId == "" || |r.sessionId| > 128 then Err(InvalidSession)
      else if !OriginAllowedForHostname(r.origin, site, NormalizeHostname(r.hostname)) then Err(OriginNotAllowed)
      else Ok(site)
  }

  /** Letters, digits and five marks. */
  predicate ActionLetter(c: char) {
    c in UPPER || c in LOWER || c in "0123456789" || c in "_.:/-"
  }

  lemma ActionLetters(c: char)
    ensures ActionChar(c) <==> ActionLetter(c)
  {
    Letters();
    assert 'A' <= c <= 'Z' ==> c == UPPER[c as int - 'A' as int];
    assert 'a' <= c <= 'z' ==> c == LOWER[c as int - 'a' as int];
    assert '0' <= c <= '9' ==> c == "0123456789"[c as int - '0' as int];
  }

  /** A request is let in exactly when nothing in it is amiss, whatever else is. */
  lemma AdmittedExactlyWhen(setup: Setup, r: IssueRequest)
    ensures AdmitIssue(setup, r).Ok? <==>
              && r.siteKey in setup.sites
              && 1 <= |r.action| <= 64 && (forall i | 0 <= i < |r.action| :: ActionLetter(r.action[i]))
              && AllowsHost(setup.sites[r.siteKey], r.hostname)
              && 1 <= |r.sessionId| <= 128
              && (r.origin.NoOrigin? ||
                  (r.origin.FromHost? && AllowsHost(setup.sites[r.siteKey], NormalizeHostname(r.origin.host)) &&
                   NormalizeHostname(r.origin.host) == NormalizeHostname(NormalizeHostname(r.hostname))))
    ensures AdmitIssue(setup, r).Ok? ==> AdmitIssue(setup, r).value == setup.sites[r.siteKey]
  {
    hide NormalizeHostname, AllowsHost, ActionChar, ActionLetter;
    forall c: char
      ensures ActionChar(c) <==> ActionLetter(c)
    {
      ActionLetters(c);
    }
  }

  function IpBinding(setup: Setup, site: Site, ip: string): string {
    if site.bindIpPrefix then setup.BindIp(ip) else ""
  }

  function RateKey(setup: Setup, site: Site, req: IssueRequest): string {
    site.key + ":" + setup.prefix(req.ip) + ":" + req.action
  }

  function KindText(k: Kind): string {
    match k
    case PowKind => "pow"
    case InteractiveKind => "interactive"
    case OtherKind(n) => n
  }

  function KindOf(d: Decision): Kind {
    if d == RiskModel.Pow then PowKind else InteractiveKind
  }

  // ---- POST /v1/challenge/{id}/verify ------------------------------------------------

  datatype VerifyRequest = VerifyRequest(
    id: string, origin: Origin, ip: string, readable: bool, sessionId: string, proof: Proof)

  /** Turned away without a trace, counted as a failed attempt, or passed. */
  datatype Verdict =
    | Turned(error: string)
    | Strike(error: string)
    | Pass(site: Site)

  predicate IdText(id: string) {
    id != "" && |id| <= 96
  }

  /** What the handler makes of its own copy of the challenge. */
  ghost function Judge(setup: Setup, c: Challenge, r: VerifyRequest, now: Instant, later: Instant): Verdict {
    if c.siteKey !in setup.sites then Turned("invalid-site-key")
    else
      var site := setup.sites[c.siteKey];
      if !OriginAllowedForHostname(r.origin, site, c.hostname) then Turned("origin-not-allowed")
      else if site.bindIpPrefix && setup.BindIp(r.ip) != c.ipBind then Strike("network-binding-mismatch")
      else if !r.readable then Turned("invalid-json")
      else if r.sessionId == "" || r.sessionId != c.sessionId then Strike("session-binding-mismatch")
      else if Refusing(setup.sha256, c, r.proof, now, later).Some? then Strike("invalid-proof")
      else Pass(site)
  }

  /** The request comes from a page that may answer for the challenge's site. */
  ghost predicate Heard(setup: Setup, c: Challenge, r: VerifyRequest) {
    c.siteKey in setup.sites && OriginAllowedForHostname(r.origin, setup.sites[c.siteKey], c.hostname)
  }

  /** It comes from another network than the one a bound challenge was posed to. */
  predicate Elsewhere(setup: Setup, c: Challenge, r: VerifyRequest) {
    c.siteKey in setup.sites && setup.sites[c.siteKey].bindIpPrefix && setup.BindIp(r.ip) != c.ipBind
  }

  /** It has the challenge's session and a proof that does what was posed. */
  ghost predicate Answered(setup: Setup, c: Challenge, r: VerifyRequest, now: Instant, later: Instant) {
    r.sessionId == c.sessionId != "" && DoneAsPosed(setup.sha256, c, r.proof, now, later)
  }

  /** A failed attempt, said of request and challenge alone. */
  ghost predicate Failing(setup: Setup, c: Challenge, r: VerifyRequest, now: Instant, later: Instant) {
    Heard(setup, c, r) && (Elsewhere(setup, c, r) || (r.readable && !Answered(setup, c, r, now, later)))
  }

  ghost predicate Passing(setup: Setup, c: Challenge, r: VerifyRequest, now: Instant, later: Instant) {
    Heard(setup, c, r) && !Elsewhere(setup, c, r) && r.readable && Answered(setup, c, r, now, later)
  }

  /**
   Of an issued challenge: an attempt is counted as a failure exactly when it is heard and comes from
   another network, or is readable and lacks the session or the work; it passes exactly when it is
   heard and lacks nothing.
   */
  lemma JudgedExactlyWhen(setup: Setup, c: Challenge, r: VerifyRequest, now: Instant, later: Instant)
    requires Issued(c, SearchTerms(c).0)
    ensures Judge(setup, c, r, now, later).Strike? <==> Failing(setup, c, r, now, later)
    ensures Judge(setup, c, r, now, later).Pass? <==> Passing(setup, c, r, now, later)
    ensures Judge(setup, c, r, now, later).Pass? ==> Judge(setup, c, r, now, later).site == setup.sites[c.siteKey]
  {
    hide OriginAllowedForHostname, DoneAsPosed, Refusing;
    IssuedProofPassesExactlyWhen(setup.sha256, c, SearchTerms(c).0, r.proof, now, later);
  }

  // ---- POST /v1/siteverify -----------------------------------------------------------

  datatype SiteRequest = SiteRequest(
    secret: Secret, response: string, remoteIp: string, expectedAction: string, expectedHostname: string)

  predicate WellFormed(r: SiteRequest) {
    && 0 < |r.secret| <= 512 && 0 < |r.response| <= 8192
    && |r.expectedAction| <= 64 && |r.expectedHostname| <= 253 && |r.remoteIp| <= 64
  }

  ghost predicate OwnsSecret(setup: Setup, r: SiteRequest, owner: Option<Site>) {
    FoundBySecret(setup.sites, r.secret, owner)
  }

  function Expiry(c: Token.Claims): Instant {
    AtUnixSecond(c.expiresAt)
  }

  /** Symbolic signatures: a tag under a ring key covers only a text the gateway signed, all of it in `minted`. */
  ghost predicate Unforged(setup: Setup, minted: map<string, Token.Claims>, tok: string) {
    forall key, text | Token.CarriesTag(setup.codec, setup.signer.verifyKeys, tok, key, text) ::
      exists jti | jti in minted :: text == Token.Unsigned(setup.codec, setup.signer.kid, minted[jti])
  }

  /** Everything up to spending the token, for the site the secret belongs to. */
  function CheckSite(setup: Setup, r: SiteRequest, owner: Option<Site>, now: Instant): Result<Token.Claims, string> {
    if !WellFormed(r) then Err("bad-request")
    else if owner.None? then Err("invalid-input-secret")
    else
      var site := owner.value;
      var v := Token.Verify(setup.codec, setup.signer, r.response, now);
      if v.Err? then Err(if v.error.Expired? then "timeout-or-duplicate" else "invalid-input-response")
      else if v.value.siteKey != site.key then Err("sitekey-secret-mismatch")
      else if r.expectedAction == "" then Err("missing-expected-action")
      else if r.expectedHostname == "" then Err("missing-expected-hostname")
      else if r.expectedAction != v.value.action then Err("action-mismatch")
      else if NormalizeHostname(r.expectedHostname) != NormalizeHostname(v.value.hostname) then Err("hostname-mismatch")
      else if site.bindIpPrefix && r.remoteIp == "" then Err("missing-remoteip")
      else if site.bindIpPrefix && setup.BindIp(r.remoteIp) != v.value.ipBind then Err("remoteip-mismatch")
      else Ok(v.value)
  }

  /** A request for site `site` that says of a token what the token says itself. */
  predicate Fits(setup: Setup, r: SiteRequest, site: Site, c: Token.Claims) {
    && c.siteKey == site.key && r.expectedAction == c.action && r.expectedHostname != ""
    && NormalizeHostname(r.expectedHostname) == NormalizeHostname(c.hostname)
    && (site.bindIpPrefix ==> r.remoteIp != "" && setup.BindIp(r.remoteIp) == c.ipBind)
  }

  /**
   Of a token the gateway signed itself: it has expired exactly from the second of its expiry on,
   is unreadable exactly more than thirty seconds before its issue, and in between is let through
   exactly when the request fits it.
   */
  lemma OwnTokenIsAnswered(setup: Setup, r: SiteRequest, site: Site, now: Instant, c: Token.Claims)
    requires setup.Sound() && WellFormed(r) && Token.CompleteClaims(c)
    requires r.response == Token.Sign(setup.codec, setup.signer, c)
    requires var s := setup.signer; s.kid != "" && s.kid in s.verifyKeys && s.verifyKeys[s.kid] == s.activeSecret
    ensures var v := CheckSite(setup, r, Some(site), now);
            && (v == Err("timeout-or-duplicate") <==> UnixSeconds(now) >= c.expiresAt)
            && (v == Err("invalid-input-response") <==>
                  UnixSeconds(now) < c.expiresAt && UnixSeconds(now) < c.issuedAt - 30)
            && (v == Ok(c) <==> Token.InTime(c, now) && Fits(setup, r, site, c))
  {
    hide Token.Verify, Token.Sign, NormalizeHostname;
    Token.KnownKeyLeavesTheTimes(setup.codec, setup.signer, setup.signer, c, now);
    assert |"timeout-or-duplicate"| == 20 && |"invalid-input-response"| == 22 && |"action-mismatch"| == 15;
    assert |"sitekey-secret-mismatch"| == |"missing-expected-action"| == 23 && |"missing-expected-hostname"| == 25;
    assert |"hostname-mismatch"| == |"remoteip-mismatch"| == 17 && |"missing-remoteip"| == 16;
  }

  /** What no ring key has tagged is answered as unreadable, at whatever time. */
  lemma UntaggedIsUnreadable(setup: Setup, r: SiteRequest, site: Site, now: Instant)
    requires WellFormed(r)
    requires forall key, text :: !Token.CarriesTag(setup.codec, setup.signer.verifyKeys, r.response, key, text)
    ensures CheckSite(setup, r, Some(site), now) == Err("invalid-input-response")
  {
    hide Token.Verify, Token.CarriesTag;
    var v := Token.Verify(setup.codec, setup.signer, r.response, now);
    if v.Ok? {
      var key, text := Token.AcceptedCarriesATag(setup.codec, setup.signer, r.response, now);
      assert false;
    } else if v == Err(Token.Expired) {
      var key, text := Token.ExpiredCarriesATag(setup.codec, setup.signer, r.response, now);
      assert false;
    }
  }

  /** What a passed check certifies about a token and the request that presents it. */
  ghost predicate Certified(setup: Setup, r: SiteRequest, site: Site, c: Token.Claims) {
    && site.key in setup.sites && setup.sites[site.key] == site && c.siteKey == site.key
    && r.secret == site.secret
    && r.expectedAction == c.action
    && NormalizeHostname(r.expectedHostname) == NormalizeHostname(c.hostname)
    && (site.bindIpPrefix ==> setup.BindIp(r.remoteIp) == c.ipBind)
  }

  lemma CheckedIsCertified(setup: Setup, r: SiteRequest, owner: Option<Site>, now: Instant)
    requires setup.Sound() && FoundBySecret(setup.sites, r.secret, owner) && CheckSite(setup, r, owner, now).Ok?
    ensures owner.Some? && Certified(setup, r, owner.value, CheckSite(setup, r, owner, now).value)
    ensures Token.Verify(setup.codec, setup.signer, r.response, now) == Ok(CheckSite(setup, r, owner, now).value)
  {
  }

  /**
   What that costs: a spelling that the token was issued for, presented again unchanged with
   everything else in order, is a mismatch exactly when normalising it once is not enough.
   */
  lemma SameSpellingMismatchesExactlyWhen(
      setup: Setup, r: SiteRequest, owner: Option<Site>, now: Instant, c: Token.Claims)
    requires WellFormed(r) && owner.Some? && Token.Verify(setup.codec, setup.signer, r.response, now) == Ok(c)
    requires c.siteKey == owner.value.key && r.expectedAction == c.action && c.action != "" && r.expectedHostname != ""
    requires c.hostname == NormalizeHostname(r.expectedHostname)
    ensures CheckSite(setup, r, owner, now) == Err("hostname-mismatch") <==>
              !OnceIsEnough(HostText(Written(r.expectedHostname)))
  {
    hide NormalizeHostname, OnceIsEnough, HostText, Token.Verify;
    TwiceIsOnceExactlyWhen(r.expectedHostname);
    assert |"hostname-mismatch"| == 17 && |"missing-remoteip"| == 16;
    assert "hostname-mismatch"[0] != "remoteip-mismatch"[0];
  }

  /**
   Under symbolic signatures, a token that passes the check is one the gateway minted, claims and
   all, and in time.
   */
  lemma AcceptedWasMinted(setup: Setup, minted: map<string, Token.Claims>, r: SiteRequest, owner: Option<Site>,
                          now: Instant)
    requires setup.Sound() && Unforged(setup, minted, r.response) && OwnsSecret(setup, r, owner)
    requires forall jti | jti in minted :: minted[jti].jti == jti
    requires CheckSite(setup, r, owner, now).Ok?
    ensures owner.Some?
    ensures var c := CheckSite(setup, r, owner, now).value;
            c.jti in minted && minted[c.jti] == c && Certified(setup, r, owner.value, c) && Token.InTime(c, now)
  {
    hide Token.CarriesTag, Token.Verify, Token.Unsigned;
    CheckedIsCertified(setup, r, owner, now);
    var key, text := Token.AcceptedCarriesATag(setup.codec, setup.signer, r.response, now);
    var jti :| jti in minted && text == Token.Unsigned(setup.codec, setup.signer.kid, minted[jti]);
  }

  // ---- Scores, decisions and buckets -------------------------------------------------

  /** The scorer's cascade under the default thresholds and the token's buckets tile the scores alike. */
  lemma DecisionsTileLikeBuckets(n: int)
    ensures Token.RiskBucket(n) == match Decide(n, DEFAULT_THRESHOLDS)
                                   case Allow => "low"
                                   case Pow => "medium"
                                   case Interactive => "high"
                                   case Block => "critical"
  {
  }
}
