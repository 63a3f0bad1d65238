/** What callers may rely on, over every interleaving of any number of requests. */
module Guarantees {
  import opened Wrappers
  import opened Clock
  import opened ChallengeModel
  import opened Hostnames
  import opened Sites
  import opened RiskModel
  import opened Challenges
  import opened Api
  import opened Protocol
  import opened Agreement
  import Store
  import Token

  // ---- Injective agreement -----------------------------------------------------------

  /** The issue's challenge was consumed once, from the issuing session, with a proof that does what was posed. */
  ghost predicate SolvedFor(setup: Setup, s: State, i: Issue) {
    && i.challengeId.Some? && i.challengeId.value in s.consumed && i.challengeId.value in s.posed
    && var solve, posed := s.consumed[i.challengeId.value], s.posed[i.challengeId.value];
    && WellPosed(setup, posed, i) && solve.c.(attempts := 0) == posed && solve.req.sessionId == i.sessionId != ""
    && DoneAsPosed(setup.sha256, posed, solve.req.proof, solve.at, solve.later)
  }

  /** A success goes back to `issue`: same site, action, host, binding, score and kind. */
  ghost predicate TracesBack(setup: Setup, s: State, su: Success, rid: nat) {
    && rid in s.issued
    && var i := s.issued[rid];
    && su.site.key == i.siteKey && su.req.expectedAction == i.action
    && NormalizeHostname(su.req.expectedHostname) == NormalizeHostname(i.hostname)
    && su.claims.ipBind == i.ipBind
    && (su.site.bindIpPrefix ==> setup.BindIp(su.req.remoteIp) == setup.BindIp(i.ip))
    && su.claims.riskScore == i.score && su.claims.challengeKind == i.kind
    && su.claims.riskBucket == Token.RiskBucket(i.score)
    && (i.challengeId.Some? ==> SolvedFor(setup, s, i))
  }

  lemma ConsumedWasSolved(setup: Setup, s: State, id: string)
    requires IssuesOk(setup, s) && ConsumedOk(setup, s) && id in s.consumed
    ensures id in s.challengeOf && s.challengeOf[id] in s.issued && SolvedFor(setup, s, s.issued[s.challengeOf[id]])
  {
    hide Refusing, DoneAsPosed, IssueOk;
    var solve, posed := s.consumed[id], s.posed[id];
    assert WellPosed(setup, posed, s.issued[s.challengeOf[id]]);
    RefusalIgnoresAttempts(setup.sha256, solve.c, 0, solve.req.proof, solve.at, solve.later);
    IssuedProofPassesExactlyWhen(setup.sha256, posed, SearchTerms(posed).0, solve.req.proof, solve.at, solve.later);
  }

  function IssueBehind(s: State, su: Success): nat {
    if su.claims.jti in s.origin then s.origin[su.claims.jti] else 0
  }

  lemma SuccessTracesBack(setup: Setup, s: State, k: nat)
    requires Inv(setup, s) && k < |s.successes|
    ensures TracesBack(setup, s, s.successes[k], IssueBehind(s, s.successes[k]))
  {
    hide ThreadsOk, StoredOk, SolvedFor, WellPosed, NormalizeHostname;
    var su := s.successes[k];
    var i := s.issued[IssueBehind(s, su)];
    if i.challengeId.Some? {
      ConsumedWasSolved(setup, s, i.challengeId.value);
    }
    assert Certified(setup, su.req, su.site, su.claims);
  }

  lemma SameIssueSameToken(setup: Setup, s: State, k: nat, l: nat)
    requires Inv(setup, s) && k < l < |s.successes| && IssueBehind(s, s.successes[k]) == IssueBehind(s, s.successes[l])
    ensures s.successes[k].claims == s.successes[l].claims && s.successes[l].at > Expiry(s.successes[l].claims)
  {
    hide ThreadsOk, StoredOk, IssuesOk, ConsumedOk, Certified, Echoes;
  }

  /**
   Every successful site verification goes back to an issue event with the same data, and
   an event that lets a token succeed a second time does so only past that token's expiry.
   */
  lemma SuccessesAgreeWithIssues(setup: Setup, run: seq<Action>)
    requires setup.Sound() && Run(setup, run).Some?
    ensures var s := Run(setup, run).value;
            && (forall k | 0 <= k < |s.successes| ::
                TracesBack(setup, s, s.successes[k], IssueBehind(s, s.successes[k])))
            && (forall k, l | 0 <= k < l < |s.successes| &&
                              IssueBehind(s, s.successes[k]) == IssueBehind(s, s.successes[l]) ::
                  s.successes[k].claims == s.successes[l].claims && s.successes[l].at > Expiry(s.successes[l].claims))
  {
    hide Inv, TracesBack;
    EveryRunKeeps(setup, run);
    var s := Run(setup, run).value;
    forall k | 0 <= k < |s.successes|
      ensures TracesBack(setup, s, s.successes[k], IssueBehind(s, s.successes[k]))
    {
      SuccessTracesBack(setup, s, k);
    }
    forall k, l | 0 <= k < l < |s.successes| && IssueBehind(s, s.successes[k]) == IssueBehind(s, s.successes[l])
      ensures s.successes[k].claims == s.successes[l].claims && s.successes[l].at > Expiry(s.successes[l].claims)
    {
      SameIssueSameToken(setup, s, k, l);
    }
  }

  /** No token is spent on a clock reading past its expiry. */
  ghost predicate SpentInTime(s: State) {
    forall k | 0 <= k < |s.successes| :: s.successes[k].at <= Expiry(s.successes[k].claims)
  }

  /**
   Injective agreement: while tokens are spent in time, different successes go back to
   different issue events, so one issue event yields at most one success.
   */
  lemma InjectiveAgreement(setup: Setup, run: seq<Action>)
    requires setup.Sound() && Run(setup, run).Some? && SpentInTime(Run(setup, run).value)
    ensures var s := Run(setup, run).value;
            && (forall k | 0 <= k < |s.successes| ::
                TracesBack(setup, s, s.successes[k], IssueBehind(s, s.successes[k])))
            && (forall k, l | 0 <= k < |s.successes| && 0 <= l < |s.successes| && k != l ::
                  IssueBehind(s, s.successes[k]) != IssueBehind(s, s.successes[l]))
  {
    hide TracesBack, Run;
    SuccessesAgreeWithIssues(setup, run);
    var s := Run(setup, run).value;
    forall k, l | 0 <= k < |s.successes| && 0 <= l < |s.successes| && k != l
      ensures IssueBehind(s, s.successes[k]) != IssueBehind(s, s.successes[l])
    {
      if k < l {
        assert s.successes[l].at <= Expiry(s.successes[l].claims);
      } else {
        assert s.successes[k].at <= Expiry(s.successes[k].claims);
      }
    }
  }

  // ---- Spending twice ----------------------------------------------------------------

  /** Some success has spent the token `jti`. */
  ghost predicate Succeeded(s: State, jti: string) {
    exists k | 0 <= k < |s.successes| :: s.successes[k].claims.jti == jti
  }

  /** What the store remembers as spent has succeeded. */
  ghost predicate SpentSucceeded(s: State) {
    forall jti | jti in s.store.spent :: Succeeded(s, jti)
  }

  lemma QuietSpent(s: State, s': State)
    requires SpentSucceeded(s) && s'.successes == s.successes && s'.store.spent.Keys <= s.store.spent.Keys
    ensures SpentSucceeded(s')
  {
    assert forall jti | jti in s'.store.spent :: jti in s.store.spent && Succeeded(s, jti);
  }

  lemma SpendSpent(s: State, rid: nat, t: Thread, now: Instant)
    requires SpentSucceeded(s) && t.Spending?
    ensures SpentSucceeded(DoSiteSpend(s, rid, t, now))
  {
    var s' := DoSiteSpend(s, rid, t, now);
    forall jti | jti in s'.store.spent
      ensures Succeeded(s', jti)
    {
      if jti == t.claims.jti && jti !in Store.Sweep(s.store, now).spent {
        assert s'.successes[|s.successes|].claims.jti == jti;
      } else {
        assert jti in s.store.spent && Succeeded(s, jti);
        var k :| 0 <= k < |s.successes| && s.successes[k].claims.jti == jti;
        assert s'.successes[k] == s.successes[k];
      }
    }
  }

  lemma MoveLeavesTheRest(s: State, rid: nat, t: Thread, now: Instant)
    ensures var s' := Move(s, rid, t, now);
            s'.successes == s.successes && s'.store == s.store && s'.put == s.put && s'.consumed == s.consumed &&
            s'.minted == s.minted
  {
  }

  lemma DecideLeavesTheRest(setup: Setup, s: State, rid: nat, site: Site, req: IssueRequest, score: int,
                            tags: seq<string>,
                            id: string, seed: string, now: Instant)
    ensures var s' := DoIssueDecide(setup, s, rid, site, req, score, tags, id, seed, now);
            s'.successes == s.successes && s'.store == s.store && s'.put == s.put && s'.consumed == s.consumed &&
            s'.minted == s.minted
  {
    hide NewIssue, NewChallenge, Decide, KindText, Move;
    forall t
      ensures var s' := Move(s, rid, t, now);
              s'.successes == s.successes && s'.store == s.store && s'.put == s.put && s'.consumed == s.consumed &&
              s'.minted == s.minted
    {
      MoveLeavesTheRest(s, rid, t, now);
    }
  }

  lemma StepSpent(setup: Setup, s: State, a: Action)
    requires SpentSucceeded(s) && Enabled(setup, s, a)
    ensures SpentSucceeded(Do(setup, s, a))
  {
    hide SpentSucceeded, AdmitIssue, Unforged, OwnsSecret, Judge, CheckSite, MintFor, MintSolved, IdText, FreshJti,
         DoIssueDecide, DoSiteSpend, RateKey;
    var t := At(s, a.rid);
    match a
    case SiteSpend(rid, now) => SpendSpent(s, rid, t, now);
    case IssueDecide(rid, score, tags, id, seed, now) =>
      DecideLeavesTheRest(setup, s, rid, t.site, t.req, score, tags, id, seed, now);
      QuietSpent(s, Do(setup, s, a));
    case _ => QuietSpent(s, Do(setup, s, a));
  }

  lemma {:induction false} RunSpent(setup: Setup, run: seq<Action>)
    requires Run(setup, run).Some?
    ensures SpentSucceeded(Run(setup, run).value)
  {
    if run != [] {
      hide SpentSucceeded, Do, Enabled;
      RunSpent(setup, run[..|run| - 1]);
      StepSpent(setup, Run(setup, run[..|run| - 1]).value, run[|run| - 1]);
    }
  }

  lemma SpendingWasMinted(setup: Setup, s: State, rid: nat)
    requires Inv(setup, s) && At(s, rid).Spending?
    ensures var c := At(s, rid).claims; c.jti in s.minted && s.minted[c.jti] == c
  {
    hide IssuesOk, StoredOk, TokensOk, ConsumedOk, SpentOk;
    ThreadAt(setup, s, rid);
  }

  /**
   Exactly when spending succeeds, in every reachable state and whatever has happened since
   the token was checked: it has never succeeded, or the reading is past its expiry.
   */
  lemma SpendSucceedsExactlyWhen(setup: Setup, run: seq<Action>, rid: nat, now: Instant)
    requires setup.Sound() && Run(setup, run).Some? && Enabled(setup, Run(setup, run).value, SiteSpend(rid, now))
    ensures var s := Run(setup, run).value;
            var c := At(s, rid).claims;
            && Run(setup, run + [SiteSpend(rid, now)]).Some?
            && var s' := Run(setup, run + [SiteSpend(rid, now)]).value;
            |s'.successes| == |s.successes| + (if !Succeeded(s, c.jti) || now > Expiry(c) then 1 else 0)
  {
    hide Run, ThreadsOk, StoredOk, TokensOk, IssuesOk, ConsumedOk, Certified;
    Extend(setup, run, SiteSpend(rid, now));
    EveryRunKeeps(setup, run);
    RunSpent(setup, run);
    SpendingWasMinted(setup, Run(setup, run).value, rid);
  }

  // ---- A token that succeeds twice ---------------------------------------------------

  /** The claims of the token granted at once to `req`, with score 0. */
  function GrantedClaims(setup: Setup, site: Site, req: IssueRequest, jti: string, now: Instant): Token.Claims {
    MintFor(setup, NewIssue(setup, site, req, 0, "passive", None), jti, now)
  }

  /** The site asks for its verification as the site that owns the token should. */
  function Presentation(setup: Setup, site: Site, req: IssueRequest, jti: string, now: Instant): SiteRequest {
    var c := GrantedClaims(setup, site, req, jti, now);
    SiteRequest(site.secret, Token.Sign(setup.codec, setup.signer, c), req.ip, c.action, c.hostname)
  }

  /** An ordinary request to an ordinary site: admissible, and with fields of ordinary size. */
  ghost predicate Ordinary(setup: Setup, req: IssueRequest, jti: string, now: Instant) {
    && now >= 0 && jti != ""
    && setup.signer.kid != "" && setup.signer.kid in setup.signer.verifyKeys
    && setup.signer.verifyKeys[setup.signer.kid] == setup.signer.activeSecret
    && AdmitIssue(setup, req).Ok?
    && var site := AdmitIssue(setup, req).value;
    && site.key != "" && site.rateLimitPerMinute >= 1 && site.tokenTtlSeconds >= 1
    && 0 < |site.secret| <= 512 && |req.ip| <= 64 && (site.bindIpPrefix ==> req.ip != "")
    && 0 < |NormalizeHostname(req.hostname)| <= 253
    && |Presentation(setup, site, req, jti, now).response| <= 8192
  }

  /** What the gateway signs is not forged. */
  lemma SignedIsUnforged(setup: Setup, minted: map<string, Token.Claims>, jti: string)
    requires jti in minted
    ensures Unforged(setup, minted, Token.Sign(setup.codec, setup.signer, minted[jti]))
  {
    var tok := Token.Sign(setup.codec, setup.signer, minted[jti]);
    forall key, text | Token.CarriesTag(setup.codec, setup.signer.verifyKeys, tok, key, text)
      ensures text == Token.Unsigned(setup.codec, setup.signer.kid, minted[jti])
    {
      Token.SignedSplits(setup.codec, setup.signer, minted[jti]);
    }
  }

  /** A presented token that was just granted passes the check. */
  lemma GrantedPasses(setup: Setup, req: IssueRequest, jti: string, now: Instant)
    requires setup.Sound() && setup.codec.KeysSeparate() && Ordinary(setup, req, jti, now)
    ensures var site := AdmitIssue(setup, req).value;
            && OwnsSecret(setup, Presentation(setup, site, req, jti, now), Some(site))
            && CheckSite(setup, Presentation(setup, site, req, jti, now), Some(site), now)
                 == Ok(GrantedClaims(setup, site, req, jti, now))
            && now < Expiry(GrantedClaims(setup, site, req, jti, now))
            && GrantedClaims(setup, site, req, jti, now).jti == jti
  {
    hide NormalizeHostname, Token.Verify, Token.Sign;
    var site := AdmitIssue(setup, req).value;
    var c := GrantedClaims(setup, site, req, jti, now);
    assert site.key in setup.sites && setup.sites[site.key] == site;
    Token.SignedSplits(setup.codec, setup.signer, c);
    Token.SignedVerifiesExactlyWhen(setup.codec, setup.signer, setup.signer, c, now);
  }

  lemma Checked(setup: Setup, run: seq<Action>, rid: nat, present: SiteRequest, site: Site, now: Instant)
    returns (run': seq<Action>)
    requires Run(setup, run).Some? && rid !in Run(setup, run).value.threads && Run(setup, run).value.clock <= now
    requires OwnsSecret(setup, present, Some(site)) && Unforged(setup, Run(setup, run).value.minted, present.response)
    requires CheckSite(setup, present, Some(site), now).Ok?
    ensures Run(setup, run').Some?
    ensures var s := Run(setup, run).value;
            var claims := CheckSite(setup, present, Some(site), now).value;
            Run(setup, run').value == Move(s, rid, Spending(site, claims, present), now)
  {
    hide Run, CheckSite, OwnsSecret, Unforged;
    Extend(setup, run, SiteStart(rid, present, Some(site), now));
    run' := run + [SiteStart(rid, present, Some(site), now)];
  }

  lemma SpentTwice(setup: Setup, run: seq<Action>, now: Instant) returns (run': seq<Action>)
    requires setup.Sound() && Run(setup, run).Some?
    requires var s := Run(setup, run).value;
             && At(s, 1).Spending? && At(s, 2) == At(s, 1) && s.successes == [] && s.store.spent == map[]
             && s.clock == now <= Expiry(At(s, 1).claims)
    ensures Run(setup, run').Some?
    ensures var s, s' := Run(setup, run).value, Run(setup, run').value;
            && s'.issued == s.issued && |s'.successes| == 2
            && s'.successes[0].claims == s'.successes[1].claims == At(s, 1).claims
            && s'.successes[0].at <= Expiry(At(s, 1).claims) < s'.successes[1].at
  {
    hide Run;
    var past := Expiry(At(Run(setup, run).value, 1).claims) + 1;
    Extend(setup, run, SiteSpend(1, now));
    run' := run + [SiteSpend(1, now)];
    Extend(setup, run', SiteSpend(2, past));
    run' := run' + [SiteSpend(2, past)];
  }

  lemma PresentationIsUnforged(setup: Setup, site: Site, req: IssueRequest, jti: string, now: Instant)
    ensures var minted := map[jti := GrantedClaims(setup, site, req, jti, now)];
            Unforged(setup, minted, Presentation(setup, site, req, jti, now).response)
  {
    hide GrantedClaims, Unforged, Token.Sign;
    SignedIsUnforged(setup, map[jti := GrantedClaims(setup, site, req, jti, now)], jti);
  }

  lemma AdmittedHasThresholds(setup: Setup, req: IssueRequest)
    requires setup.Sound() && AdmitIssue(setup, req).Ok?
    ensures GoodThresholds(AdmitIssue(setup, req).value.thresholds)
  {
  }

  lemma GrantRun(setup: Setup, req: IssueRequest, site: Site, jti: string, now: Instant) returns (run: seq<Action>)
    requires setup.Sound() && Ordinary(setup, req, jti, now) && site == AdmitIssue(setup, req).value
    ensures Run(setup, run).Some?
    ensures var s := Run(setup, run).value;
            && s.threads.Keys == {0} && s.issued.Keys == {0} && s.successes == [] && s.clock == now
            && s.store.spent == map[]
            && s.minted == map[jti := GrantedClaims(setup, site, req, jti, now)]
  {
    hide NormalizeHostname, RateKey, Presentation, NewIssue, MintFor, Token.Sign;
    var a, b, c := IssueStart(0, req, now), IssueDecide(0, 0, [], "c", "-", now), IssueMint(0, jti, now);
    assert GoodThresholds(site.thresholds) by { AdmittedHasThresholds(setup, req); }
    hide AdmitIssue;
    Extend(setup, [], a);
    Extend(setup, [a], b);
    Extend(setup, [a] + [b], c);
    run := [a] + [b] + [c];
  }

  /**
   Single use is not unconditional: for every ordinary request that is let through at once
   there is a run in which its token is checked twice while it is valid, spent once in time
   and once more just past its expiry, and both times succeeds.
   */
  lemma TokenSucceedsTwice(setup: Setup, req: IssueRequest, jti: string, now: Instant) returns (run: seq<Action>)
    requires setup.Sound() && setup.codec.KeysSeparate() && Ordinary(setup, req, jti, now)
    ensures Run(setup, run).Some?
    ensures var s := Run(setup, run).value;
            && |s.issued| == 1 && |s.successes| == 2
            && s.successes[0].claims == s.successes[1].claims && s.successes[0].claims.jti == jti
            && s.successes[0].at <= Expiry(s.successes[0].claims) < s.successes[1].at
  {
    hide AdmitIssue, CheckSite, OwnsSecret, Unforged, GrantedClaims, Presentation, Token.Sign, RateKey, Run, Do,
         Enabled;
    var site := AdmitIssue(setup, req).value;
    var c, present := GrantedClaims(setup, site, req, jti, now), Presentation(setup, site, req, jti, now);
    run := GrantRun(setup, req, site, jti, now);
    GrantedPasses(setup, req, jti, now);
    PresentationIsUnforged(setup, site, req, jti, now);
    run := Checked(setup, run, 1, present, site, now);
    run := Checked(setup, run, 2, present, site, now);
    run := SpentTwice(setup, run, now);
  }

  /** With separating tags, a bound token succeeds only from the network prefix it was issued to. */
  lemma BoundTokensStayInTheirPrefix(setup: Setup, run: seq<Action>, k: nat)
    requires setup.Sound() && setup.TagsSeparate() && Run(setup, run).Some? && k < |Run(setup, run).value.successes|
    requires Run(setup, run).value.successes[k].site.bindIpPrefix
    ensures var s := Run(setup, run).value;
            var rid := IssueBehind(s, s.successes[k]);
            rid in s.issued && setup.prefix(s.successes[k].req.remoteIp) == setup.prefix(s.issued[rid].ip)
  {
    hide Run, Inv, SolvedFor, NormalizeHostname;
    EveryRunKeeps(setup, run);
    SuccessTracesBack(setup, Run(setup, run).value, k);
  }

  // ---- Kinds and buckets ---------------------------------------------------------------

  lemma KindTextsDiffer()
    ensures "passive" != "pow" && "passive" != "interactive" && "pow" != "interactive"
    ensures "low" != "medium" && "low" != "high" && "low" != "critical"
    ensures "medium" != "high" && "medium" != "critical" && "high" != "critical"
  {
    assert |"passive"| == 7 && |"pow"| == 3 && |"interactive"| == 11;
    assert |"low"| == 3 && |"medium"| == 6 && |"high"| == 4 && |"critical"| == 8;
  }

  /**
   A token's kind is the scorer's decision on its score; under the default thresholds kind
   and bucket correspond one to one and no token is critical.
   */
  lemma KindsMatchBuckets(setup: Setup, run: seq<Action>, jti: string)
    requires setup.Sound() && Run(setup, run).Some? && jti in Run(setup, run).value.minted
    ensures var c := Run(setup, run).value.minted[jti];
            && c.siteKey in setup.sites
            && var t := setup.sites[c.siteKey].thresholds;
            && (c.challengeKind == "passive" <==> Decide(c.riskScore, t) == Allow)
            && (c.challengeKind == "pow" <==> Decide(c.riskScore, t) == RiskModel.Pow)
            && (c.challengeKind == "interactive" <==> Decide(c.riskScore, t) == Interactive)
            && Decide(c.riskScore, t) != Block
            && (t == DEFAULT_THRESHOLDS ==>
                  && (c.challengeKind == "passive" <==> c.riskBucket == "low")
                  && (c.challengeKind == "pow" <==> c.riskBucket == "medium")
                  && (c.challengeKind == "interactive" <==> c.riskBucket == "high")
                  && c.riskBucket != "critical")
  {
    hide Run, ThreadsOk, StoredOk, SpentOk, ConsumedOk;
    EveryRunKeeps(setup, run);
    var s := Run(setup, run).value;
    var c, i := s.minted[jti], s.issued[s.origin[jti]];
    assert Echoes(c, i) && IssueOk(setup, i);
    KindTextsDiffer();
    DecisionsTileLikeBuckets(c.riskScore);
  }

  /** The step mints token `jti` on its reading of the clock. */
  predicate Mints(a: Action, jti: string) {
    (a.IssueMint? || a.VerifyMint?) && a.jti == jti
  }

  /** The gateway's token for one of its sites, issued at `now` for the lifetime of that site. */
  predicate LivesFrom(setup: Setup, c: Token.Claims, now: Instant) {
    && c.issuer == "berryshield" && c.audience == "siteverify" && c.siteKey in setup.sites
    && c.issuedAt == UnixSeconds(now) && c.expiresAt == c.issuedAt + setup.sites[c.siteKey].tokenTtlSeconds
  }

  lemma WholeSecondsLater(now: Instant, n: int)
    ensures UnixSeconds(now + n * SECOND) == UnixSeconds(now) + n
  {
  }

  lemma GrantLives(setup: Setup, s: State, i: Issue, jti: string, now: Instant)
    requires IssueOk(setup, i)
    ensures LivesFrom(setup, MintFor(setup, i, jti, now), now)
  {
    WholeSecondsLater(now, setup.sites[i.siteKey].tokenTtlSeconds);
  }

  lemma SolutionLives(setup: Setup, s: State, c: Challenge, jti: string, now: Instant)
    requires IssuesOk(setup, s) && Genuine(s, c)
    ensures LivesFrom(setup, MintSolved(setup, c, jti, now), now)
  {
    WholeSecondsLater(now, setup.sites[c.siteKey].tokenTtlSeconds);
  }

  lemma IssuesAreOk(setup: Setup, s: State, rid: nat)
    requires IssuesOk(setup, s) && rid in s.issued
    ensures IssueOk(setup, s.issued[rid])
  {
  }

  lemma RecordMints(s: State, rid: nat, jti: string, c: Token.Claims, issue: nat, now: Instant)
    ensures Record(s, rid, jti, c, issue, now).minted == s.minted[jti := c]
  {
  }

  lemma StartMintsNothing(setup: Setup, s: State, rid: nat, req: IssueRequest, site: Site, now: Instant)
    ensures DoIssueStart(setup, s, rid, req, site, now).minted == s.minted
  {
    hide RateKey, Store.Rate;
  }

  lemma SpendMintsNothing(s: State, rid: nat, t: Thread, now: Instant)
    requires t.Spending?
    ensures DoSiteSpend(s, rid, t, now).minted == s.minted
  {
    hide Store.Sweep, Store.Spend;
  }

  lemma ReadMintsNothing(s: State, rid: nat, req: VerifyRequest, now: Instant)
    ensures DoVerifyRead(s, rid, req, now).minted == s.minted
  {
    hide Store.Sweep;
  }

  lemma StoreStepMintsNothing(s: State, rid: nat, t: Thread, now: Instant)
    ensures t.Putting? ==> DoIssuePut(s, rid, t.c, now).minted == s.minted
    ensures t.Striking? ==> DoVerifyStrike(s, rid, t.id).minted == s.minted
    ensures t.Consuming? ==> DoVerifyConsume(s, rid, t.c, t.solve).minted == s.minted
  {
    hide Store.Put, Store.Fail, Store.Consume;
  }

  lemma QuietMints(setup: Setup, s: State, a: Action)
    requires Enabled(setup, s, a) && !a.IssueMint? && !a.VerifyMint?
    ensures Do(setup, s, a).minted == s.minted
  {
    hide AdmitIssue, Unforged, OwnsSecret, Judge, CheckSite, IdText, DoIssueStart, DoIssueDecide, DoIssuePut,
         DoVerifyRead, DoVerifyStrike, DoVerifyConsume, DoSiteSpend;
    var t := At(s, a.rid);
    match a
    case IssueStart(rid, req, now) => StartMintsNothing(setup, s, rid, req, AdmitIssue(setup, req).value, now);
    case IssueDecide(rid, score, tags, id, seed, now) =>
      DecideLeavesTheRest(setup, s, rid, t.site, t.req, score, tags, id, seed, now);
    case VerifyRead(rid, req, now) => ReadMintsNothing(s, rid, req, now);
    case IssuePut(rid, now) => StoreStepMintsNothing(s, rid, t, now);
    case VerifyStrike(rid) => StoreStepMintsNothing(s, rid, t, s.clock);
    case VerifyConsume(rid) => StoreStepMintsNothing(s, rid, t, s.clock);
    case SiteSpend(rid, now) => SpendMintsNothing(s, rid, t, now);
    case _ =>
  }

  lemma StepMints(setup: Setup, s: State, a: Action, jti: string)
    requires Inv(setup, s) && Enabled(setup, s, a) && jti in Do(setup, s, a).minted
    ensures jti in s.minted ==> Do(setup, s, a).minted[jti] == s.minted[jti]
    ensures jti !in s.minted ==> Mints(a, jti) && LivesFrom(setup, Do(setup, s, a).minted[jti], a.now)
  {
    hide Inv, AdmitIssue, Unforged, OwnsSecret, Judge, CheckSite, MintFor, MintSolved, IdText, Genuine, LivesFrom,
         Record,
         StoredOk, TokensOk, ConsumedOk, SpentOk, IssuesOk, IssueOk, ThreadsOk, DoIssueStart, DoIssueDecide, DoIssuePut,
         DoVerifyRead, DoVerifyJudge, DoVerifyStrike, DoVerifyConsume, DoSiteStart, DoSiteSpend;
    Parts(setup, s);
    ThreadAt(setup, s, a.rid);
    var t := At(s, a.rid);
    match a
    case IssueMint(rid, j, now) =>
      IssuesAreOk(setup, s, rid);
      GrantLives(setup, s, t.issue, j, now);
      RecordMints(s, rid, j, MintFor(setup, t.issue, j, now), rid, now);
    case VerifyMint(rid, j, now) =>
      SolutionLives(setup, s, t.c, j, now);
      RecordMints(s, rid, j, MintSolved(setup, t.c, j, now), IssueOf(s, t.c.id), now);
    case _ => QuietMints(setup, s, a);
  }

  /** Every token bears the reading on which some step of the run minted it, and lives as long as its site says. */
  lemma {:induction false} TokensLiveAsLongAsTheirSite(setup: Setup, run: seq<Action>, jti: string) returns (n: nat)
    requires setup.Sound() && Run(setup, run).Some? && jti in Run(setup, run).value.minted
    ensures n < |run| && Mints(run[n], jti)
    ensures LivesFrom(setup, Run(setup, run).value.minted[jti], run[n].now)
  {
    hide Do, Enabled, Inv, LivesFrom;
    var before := run[..|run| - 1];
    EveryRunKeeps(setup, before);
    StepMints(setup, Run(setup, before).value, run[|run| - 1], jti);
    if jti in Run(setup, before).value.minted {
      n := TokensLiveAsLongAsTheirSite(setup, before, jti);
    } else {
      n := |run| - 1;
    }
  }

  // ---- The life of a challenge -----------------------------------------------------------

  /** Put once, and no longer in the store: consumed, struck out or expired. */
  ghost predicate Gone(s: State, id: string) {
    id in s.put && id !in s.store.challenges
  }

  ghost predicate KeepsGone(s: State, s': State, id: string) {
    Gone(s, id) ==> Gone(s', id) && (id in s'.consumed <==> id in s.consumed)
  }

  lemma StartKeepsGone(setup: Setup, s: State, rid: nat, req: IssueRequest, site: Site, now: Instant, id: string)
    ensures KeepsGone(s, DoIssueStart(setup, s, rid, req, site, now), id)
  {
  }

  lemma DecideKeepsGone(setup: Setup, s: State, rid: nat, site: Site, req: IssueRequest, score: int, tags: seq<string>,
                        id': string, seed: string, now: Instant, id: string)
    ensures KeepsGone(s, DoIssueDecide(setup, s, rid, site, req, score, tags, id', seed, now), id)
  {
    hide DoIssueDecide;
    DecideLeavesTheRest(setup, s, rid, site, req, score, tags, id', seed, now);
  }

  lemma PutKeepsGone(s: State, rid: nat, c: Challenge, now: Instant, id: string)
    requires c.id !in s.put
    ensures KeepsGone(s, DoIssuePut(s, rid, c, now), id)
  {
  }

  lemma ReadKeepsGone(s: State, rid: nat, req: VerifyRequest, now: Instant, id: string)
    ensures KeepsGone(s, DoVerifyRead(s, rid, req, now), id)
  {
  }

  lemma StrikeKeepsGone(s: State, rid: nat, struck: string, id: string)
    ensures KeepsGone(s, DoVerifyStrike(s, rid, struck), id)
  {
  }

  lemma ConsumeKeepsGone(s: State, rid: nat, c: Challenge, solve: Solve, id: string)
    ensures KeepsGone(s, DoVerifyConsume(s, rid, c, solve), id)
  {
  }

  lemma SpendKeepsGone(s: State, rid: nat, t: Thread, now: Instant, id: string)
    requires t.Spending?
    ensures KeepsGone(s, DoSiteSpend(s, rid, t, now), id)
  {
  }

  /** Gone is absorbing, whatever step comes next: a late failure brings nothing back. */
  lemma GoneStaysGone(setup: Setup, s: State, a: Action, id: string)
    requires Inv(setup, s) && Enabled(setup, s, a) && Gone(s, id)
    ensures Gone(Do(setup, s, a), id)
    ensures id in Do(setup, s, a).consumed <==> id in s.consumed
  {
    hide Inv, AdmitIssue, Unforged, OwnsSecret, Judge, CheckSite, MintFor, MintSolved, IdText, FreshJti, Genuine,
         DoIssueStart, DoIssueDecide, DoIssuePut, DoVerifyRead, DoVerifyStrike, DoVerifyConsume, DoSiteSpend;
    var t := At(s, a.rid);
    match a
    case IssueStart(rid, req, now) => StartKeepsGone(setup, s, rid, req, AdmitIssue(setup, req).value, now, id);
    case IssueDecide(rid, score, tags, id', seed, now) =>
      DecideKeepsGone(setup, s, rid, t.site, t.req, score, tags, id', seed, now, id);
    case IssuePut(rid, now) =>
      ThreadAt(setup, s, rid);
      PutKeepsGone(s, rid, t.c, now, id);
    case VerifyRead(rid, req, now) => ReadKeepsGone(s, rid, req, now, id);
    case VerifyStrike(rid) => StrikeKeepsGone(s, rid, t.id, id);
    case VerifyConsume(rid) => ConsumeKeepsGone(s, rid, t.c, t.solve, id);
    case SiteSpend(rid, now) => SpendKeepsGone(s, rid, t, now, id);
    case _ =>
  }

  lemma {:induction false} RunPrefix(setup: Setup, run: seq<Action>, n: nat)
    requires n <= |run| && Run(setup, run).Some?
    ensures Run(setup, run[..n]).Some?
    decreases |run|
  {
    if n < |run| {
      RunPrefix(setup, run[..|run| - 1], n);
      assert run[..|run| - 1][..n] == run[..n];
    } else {
      assert run[..n] == run;
    }
  }

  lemma {:induction false} GoneForever(setup: Setup, run: seq<Action>, n: nat, id: string)
    requires setup.Sound() && n <= |run| && Run(setup, run).Some? && Run(setup, run[..n]).Some?
    requires Gone(Run(setup, run[..n]).value, id)
    ensures Gone(Run(setup, run).value, id)
    ensures id in Run(setup, run).value.consumed <==> id in Run(setup, run[..n]).value.consumed
    decreases |run|
  {
    hide Gone, Do, Enabled;
    if n < |run| {
      var before := run[..|run| - 1];
      assert before[..n] == run[..n];
      GoneForever(setup, before, n, id);
      EveryRunKeeps(setup, before);
      GoneStaysGone(setup, Run(setup, before).value, run[|run| - 1], id);
    } else {
      assert run[..n] == run;
    }
  }

  /** The tokens minted for a solved challenge. */
  ghost predicate MintedFor(s: State, jti: string, id: string) {
    jti in s.minted && jti in s.origin && s.origin[jti] in s.issued && s.issued[s.origin[jti]].challengeId == Some(id)
  }

  /**
   Once a challenge is gone without having been consumed (struck out by its third failure,
   or expired and swept), no verification ever mints a token for it, not even one that
   read the challenge while it was still there.
   */
  lemma GoneUnconsumedMintsNothing(setup: Setup, run: seq<Action>, n: nat, id: string)
    requires setup.Sound() && n <= |run| && Run(setup, run).Some? && Run(setup, run[..n]).Some?
    requires Gone(Run(setup, run[..n]).value, id) && id !in Run(setup, run[..n]).value.consumed
    ensures forall jti :: !MintedFor(Run(setup, run).value, jti, id)
  {
    hide Run, Gone, ThreadsOk, StoredOk, SpentOk, ConsumedOk, IssuesOk, Echoes;
    GoneForever(setup, run, n, id);
    EveryRunKeeps(setup, run);
  }

  /** At most one token is ever minted per challenge, and only after it was consumed. */
  lemma OneTokenPerChallenge(setup: Setup, run: seq<Action>, id: string, j: string, k: string)
    requires setup.Sound() && Run(setup, run).Some?
    requires MintedFor(Run(setup, run).value, j, id) && MintedFor(Run(setup, run).value, k, id)
    ensures j == k && id in Run(setup, run).value.consumed && Gone(Run(setup, run).value, id)
  {
    hide Run, ThreadsOk, SpentOk, ConsumedOk, Echoes, IssueOk, Genuine;
    EveryRunKeeps(setup, run);
  }

  // ---- Three failures ----------------------------------------------------------------------

  /** The step records a failure of `id`: it strikes a challenge that is stored. */
  predicate Hits(s: State, a: Action, id: string) {
    a.VerifyStrike? && At(s, a.rid) == Striking(id) && id in s.store.challenges
  }

  /** How many failures of `id` a run records. */
  ghost function Strikes(setup: Setup, run: seq<Action>, id: string): nat {
    if run == [] then 0
    else
      var before := run[..|run| - 1];
      Strikes(setup, before, id) +
      if Run(setup, before).Some? && Hits(Run(setup, before).value, run[|run| - 1], id) then 1 else 0
  }

  /** A stored challenge carries the failures recorded; the third has struck it out for good. */
  ghost predicate StrikesCounted(s: State, n: nat, id: string) {
    && n <= 3
    && (id in s.store.challenges ==> n < 3 && s.store.challenges[id].attempts == n)
    && (id !in s.put ==> n == 0)
    && (n == 3 ==> Gone(s, id) && id !in s.consumed)
  }

  /** The stored challenge, if it is still there, is as before, and only a stored one can be consumed. */
  ghost predicate LeavesCount(s: State, s': State, id: string) {
    && (id in s'.store.challenges ==> id in s.store.challenges && s'.store.challenges[id] == s.store.challenges[id])
    && (id in s'.put <==> id in s.put)
    && (id in s'.consumed ==> id in s.consumed || id in s.store.challenges)
  }

  lemma StartLeavesCount(setup: Setup, s: State, rid: nat, req: IssueRequest, site: Site, now: Instant, id: string)
    ensures LeavesCount(s, DoIssueStart(setup, s, rid, req, site, now), id)
  {
    hide RateKey;
  }

  lemma DecideLeavesCount(setup: Setup, s: State, rid: nat, site: Site, req: IssueRequest, score: int,
                          tags: seq<string>,
                          id': string, seed: string, now: Instant, id: string)
    ensures LeavesCount(s, DoIssueDecide(setup, s, rid, site, req, score, tags, id', seed, now), id)
  {
    hide DoIssueDecide;
    DecideLeavesTheRest(setup, s, rid, site, req, score, tags, id', seed, now);
  }

  lemma PutCounts(s: State, rid: nat, c: Challenge, now: Instant, n: nat, id: string)
    requires StrikesCounted(s, n, id) && c.id !in s.put && c.attempts == 0
    ensures StrikesCounted(DoIssuePut(s, rid, c, now), n, id)
  {
  }

  lemma ReadLeavesCount(s: State, rid: nat, req: VerifyRequest, now: Instant, id: string)
    ensures LeavesCount(s, DoVerifyRead(s, rid, req, now), id)
  {
  }

  lemma StrikeCounts(s: State, rid: nat, struck: string, n: nat, id: string)
    requires StrikesCounted(s, n, id) && StoredOk(s)
    ensures var hit := if struck == id && id in s.store.challenges then 1 else 0;
            StrikesCounted(DoVerifyStrike(s, rid, struck), n + hit, id)
  {
    hide Genuine;
  }

  lemma ConsumeLeavesCount(s: State, rid: nat, c: Challenge, solve: Solve, id: string)
    ensures LeavesCount(s, DoVerifyConsume(s, rid, c, solve), id)
  {
  }

  lemma SpendLeavesCount(s: State, rid: nat, t: Thread, now: Instant, id: string)
    requires t.Spending?
    ensures LeavesCount(s, DoSiteSpend(s, rid, t, now), id)
  {
  }

  lemma StepCounts(setup: Setup, s: State, a: Action, n: nat, id: string)
    requires Inv(setup, s) && Enabled(setup, s, a) && StrikesCounted(s, n, id)
    ensures StrikesCounted(Do(setup, s, a), n + if Hits(s, a, id) then 1 else 0, id)
  {
    hide AdmitIssue, Unforged, OwnsSecret, Judge, CheckSite, MintFor, MintSolved, IdText, FreshJti, Genuine, IssuesOk,
         ThreadsOk, TokensOk, ConsumedOk, SpentOk,
         DoIssueStart, DoIssueDecide, DoIssuePut, DoVerifyRead, DoVerifyStrike, DoVerifyConsume, DoSiteSpend;
    var t := At(s, a.rid);
    match a
    case IssueStart(rid, req, now) => StartLeavesCount(setup, s, rid, req, AdmitIssue(setup, req).value, now, id);
    case IssueDecide(rid, score, tags, id', seed, now) =>
      DecideLeavesCount(setup, s, rid, t.site, t.req, score, tags, id', seed, now, id);
    case IssuePut(rid, now) =>
      ThreadAt(setup, s, rid);
      PutCounts(s, rid, t.c, now, n, id);
    case VerifyRead(rid, req, now) => ReadLeavesCount(s, rid, req, now, id);
    case VerifyStrike(rid) => StrikeCounts(s, rid, t.id, n, id);
    case VerifyConsume(rid) => ConsumeLeavesCount(s, rid, t.c, t.solve, id);
    case SiteSpend(rid, now) => SpendLeavesCount(s, rid, t, now, id);
    case _ =>
  }

  lemma StartCounts(id: string)
    ensures StrikesCounted(START, 0, id)
  {
  }

  /**
   In every run a stored challenge carries exactly the failures recorded of it, and no challenge
   ever records a fourth.
   */
  lemma {:induction false} AttemptsAreTheStrikes(setup: Setup, run: seq<Action>, id: string)
    requires setup.Sound() && Run(setup, run).Some?
    ensures StrikesCounted(Run(setup, run).value, Strikes(setup, run, id), id)
  {
    hide StrikesCounted, Hits, Do, Enabled, Inv;
    if run == [] {
      StartCounts(id);
    } else {
      var before := run[..|run| - 1];
      AttemptsAreTheStrikes(setup, before, id);
      EveryRunKeeps(setup, before);
      StepCounts(setup, Run(setup, before).value, run[|run| - 1], Strikes(setup, before, id), id);
    }
  }

  /**
   The third recorded failure is final, over every run and whatever comes after it: the
   challenge is gone, never consumed, and no token is ever minted for it, not even by a
   request that read it, or had its proof passed, before the third failure.
   */
  lemma ThirdStrikeIsFinal(setup: Setup, run: seq<Action>, n: nat, id: string)
    requires setup.Sound() && n <= |run| && Run(setup, run).Some? && Strikes(setup, run[..n], id) == 3
    ensures Gone(Run(setup, run).value, id) && id !in Run(setup, run).value.consumed
    ensures forall jti :: !MintedFor(Run(setup, run).value, jti, id)
  {
    hide Run, Strikes, MintedFor;
    RunPrefix(setup, run, n);
    AttemptsAreTheStrikes(setup, run[..n], id);
    GoneForever(setup, run, n, id);
    GoneUnconsumedMintsNothing(setup, run, n, id);
  }
}
