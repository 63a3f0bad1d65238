/** Injective agreement said of the server's own requests. */
module ServerRuns {
  import opened Wrappers
  import opened Clock
  import opened ChallengeModel
  import opened Hostnames
  import opened RiskModel
  import opened Challenges
  import opened WorkMessages
  import opened Api
  import opened Atomicity
  import A = Agreement
  import C = Conservation
  import G = Guarantees
  import L = Ledger
  import P = Protocol
  import Token

  /** The claims a site verification lets through. */
  function ClaimsOf(setup: Setup, c: L.Call): Option<Token.Claims> {
    if c.SiteCall? && c.present.Some? && CheckSite(setup, c.present.value, c.owner, c.now).Ok?
    then Some(CheckSite(setup, c.present.value, c.owner, c.now).value) else None
  }

  /** The proof of request `v` for a challenge drawn with `seed` and posed at `posed`, of a kind and score. */
  ghost predicate ProofFits(setup: Setup, v: L.Call, d: Decision, score: int, seed: string, posed: Instant)
    requires v.VerifyCall?
  {
    var p := v.verify.proof;
    if d == Interactive then
      && p.kind == InteractiveKind && 850 <= p.holdMs <= 7000 && p.eventCount >= 2
      && 0.0 <= p.pointerVariance <= 10.0 && v.later - posed >= 750 * MILLISECOND
      && p.nonce <= 10_000_000 && DoesWork(setup.sha256, seed, 14, p.nonce)
    else
      && p.kind == PowKind && p.nonce <= 20_000_000
      && DoesWork(setup.sha256, seed, if score >= 50 then 17 else 16, p.nonce)
  }

  /**
   Request `v` named the challenge that request `j` drew, from the session it was posed to, within
   the lifetime its site gives challenges, and with a proof that fits.
   */
  ghost predicate Solves(setup: Setup, calls: seq<L.Call>, j: nat, v: nat)
    requires j < |calls| && v < |calls|
  {
    && calls[v].VerifyCall? && calls[j].IssueCall? && calls[j].issue.Some?
    && calls[j].issue.value.siteKey in setup.sites
    && calls[j].scored.decision.Some? && calls[j].draws.challenge.Some?
    && var (id, seed) := calls[j].draws.challenge.value;
    var issue, scored := calls[j].issue.value, calls[j].scored;
    && calls[v].verify.id == id && calls[v].verify.sessionId == issue.sessionId
    && calls[v].checked <= calls[j].acted + setup.sites[issue.siteKey].challengeTtlSeconds * SECOND
    && ProofFits(setup, calls[v], scored.decision.value, scored.score, seed, calls[j].acted)
  }

  /**
   Request `m` presents what request `j` was issued: same site, action, host, network
   binding, score and kind, for the lifetime of that site's tokens; and a challenge, if one
   was posed, was solved in between.
   */
  ghost predicate Answers(setup: Setup, calls: seq<L.Call>, m: nat, j: nat) {
    && j < m < |calls| && ClaimsOf(setup, calls[m]).Some?
    && calls[j].IssueCall? && calls[j].issue.Some? && AdmitIssue(setup, calls[j].issue.value).Ok?
    && calls[j].scored.decision.Some? && calls[j].scored.decision.value != Block
    && var req, present, claims := calls[j].issue.value, calls[m].present.value, ClaimsOf(setup, calls[m]).value;
    var site, d := AdmitIssue(setup, req).value, calls[j].scored.decision.value;
    && calls[m].owner == Some(site) && present.secret == site.secret
    && present.expectedAction == req.action
    && NormalizeHostname(present.expectedHostname) == NormalizeHostname(NormalizeHostname(req.hostname))
    && (site.bindIpPrefix ==> setup.BindIp(present.remoteIp) == setup.BindIp(req.ip))
    && claims.expiresAt == claims.issuedAt + site.tokenTtlSeconds
    && claims.riskScore == calls[j].scored.score && claims.riskBucket == Token.RiskBucket(calls[j].scored.score)
    && claims.challengeKind == (if d == Allow then "passive" else KindText(KindOf(d)))
    && (d != Allow ==> exists v | j < v < m :: Solves(setup, calls, j, v))
  }

  lemma DoneFits(setup: Setup, c: L.Call, v: L.Call)
    requires setup.Sound() && v.VerifyCall? && PosedBy(setup, c).Some? && c.scored.decision.value in {Pow, Interactive}
    requires DoneAsPosed(setup.sha256, PosedBy(setup, c).value, v.verify.proof, v.checked, v.later)
    ensures ProofFits(setup, v, c.scored.decision.value, c.scored.score, c.draws.challenge.value.1, c.acted)
    ensures c.issue.value.siteKey in setup.sites
    ensures v.checked <= c.acted + setup.sites[c.issue.value.siteKey].challengeTtlSeconds * SECOND
    ensures PosedBy(setup, c).value.sessionId == c.issue.value.sessionId
    ensures PosedBy(setup, c).value.id == c.draws.challenge.value.0
  {
    hide NormalizeHostname, DoesWork, AllowsHost, OriginAllowedForHostname, ActionText, IpBinding;
  }

  lemma SolvedBetween(setup: Setup, s: P.State, calls: seq<L.Call>, j: nat, v: nat, id: string)
    requires SolvedAt(s, calls, id, v) && id in s.challengeOf && s.challengeOf[id] == j && j in s.issued && j < |calls|
    requires PosedFor(setup, s, calls[j], s.issued[j]) && s.issued[j].challengeId == Some(id)
    requires G.SolvedFor(setup, s, s.issued[j]) && setup.Sound() && IssuedBy(setup, calls[j], s.issued[j])
    ensures j < v < |calls| && Solves(setup, calls, j, v)
  {
    hide PosedBy, DoneAsPosed, ProofFits, AdmitIssue, NormalizeHostname;
    DoneFits(setup, calls[j], calls[v]);
  }

  predicate Lives(setup: Setup, c: Token.Claims) {
    c.siteKey in setup.sites && c.expiresAt == c.issuedAt + setup.sites[c.siteKey].tokenTtlSeconds
  }

  lemma SuccessLives(setup: Setup, run: seq<P.Action>, k: nat)
    requires setup.Sound() && P.Run(setup, run).Some? && k < |P.Run(setup, run).value.successes|
    ensures Lives(setup, P.Run(setup, run).value.successes[k].claims)
  {
    hide P.Run, A.TokensOk, A.ThreadsOk, A.StoredOk, A.ConsumedOk, A.IssuesOk, Certified;
    A.EveryRunKeeps(setup, run);
    var n := G.TokensLiveAsLongAsTheirSite(setup, run, P.Run(setup, run).value.successes[k].claims.jti);
  }

  lemma WonAnswers(setup: Setup, s: P.State, calls: seq<L.Call>, m: nat, su: P.Success)
    requires setup.Sound() && WonAt(setup, s, calls, m, su) && IssuesTraced(setup, s, calls)
    requires var rid := s.origin[su.claims.jti];
             && G.TracesBack(setup, s, su, rid)
             && (s.issued[rid].challengeId.Some? ==>
                   && s.issued[rid].challengeId.value in s.challengeOf
                   && s.challengeOf[s.issued[rid].challengeId.value] == rid)
    requires OwnsSecret(setup, su.req, Some(su.site)) && Lives(setup, su.claims)
    ensures Answers(setup, calls, m, s.origin[su.claims.jti])
  {
    hide CheckSite, AdmitIssue, NormalizeHostname, Solves, SolvedAt, G.SolvedFor, PosedFor;
    var j := s.origin[su.claims.jti];
    var i := s.issued[j];
    AdmittedSite(setup, calls[j].issue.value);
    CheckedIsCertified(setup, su.req, Some(su.site), calls[m].now);
    if i.challengeId.Some? {
      var id := i.challengeId.value;
      var v :| 0 <= v < m && SolvedAt(s, calls, id, v);
      SolvedBetween(setup, s, calls, j, v, id);
    }
  }

  lemma IssuesKnowTheirChallenges(setup: Setup, run: seq<P.Action>)
    requires setup.Sound() && P.Run(setup, run).Some?
    ensures var s := P.Run(setup, run).value;
            forall rid | rid in s.issued && s.issued[rid].challengeId.Some? ::
              s.issued[rid].challengeId.value in s.challengeOf && s.challengeOf[s.issued[rid].challengeId.value] == rid
  {
    hide P.Run, A.TokensOk, A.ThreadsOk, A.StoredOk, A.ConsumedOk, A.SpentOk, A.IssueOk;
    A.EveryRunKeeps(setup, run);
  }

  lemma {:induction false} OwnersWereFound(setup: Setup, calls: seq<L.Call>, m: nat)
    requires L.Run(setup, calls).Some? && m < |calls| && calls[m].SiteCall? && calls[m].present.Some?
    ensures OwnsSecret(setup, calls[m].present.value, calls[m].owner)
    decreases |calls|
  {
    hide L.Do, OwnsSecret, Unforged;
    if m < |calls| - 1 {
      OwnersWereFound(setup, calls[..|calls| - 1], m);
    }
  }

  /**
   Each request the server counts as a success answers an earlier issuing request, and two
   that answer the same one present the same token, the later of them past its expiry.
   */
  lemma SuccessesAnswerIssues(setup: Setup, calls: seq<L.Call>) returns (issues: seq<nat>)
    requires setup.Sound() && L.Run(setup, calls).Some? && AllRegular(setup, calls)
    ensures var wins := WinsOf(setup, calls);
            && |issues| == |wins| == L.Run(setup, calls).value.stats.verifySuccess
            && (forall k | 0 <= k < |wins| :: wins[k] < |calls| && Answers(setup, calls, wins[k], issues[k]))
            && (forall k, l | 0 <= k < l < |wins| && issues[k] == issues[l] ::
                  && wins[k] < wins[l] && ClaimsOf(setup, calls[wins[k]]) == ClaimsOf(setup, calls[wins[l]])
                  && calls[wins[l]].later > Expiry(ClaimsOf(setup, calls[wins[l]]).value))
  {
    hide L.Run, P.Run, Answers, CheckSite, G.TracesBack, AllRegular, SolvesTraced, OwnsSecret, Matches,
         Lives;
    var wins := WinsOf(setup, calls);
    var run := AtomicRunsInterleave(setup, calls);
    var s := P.Run(setup, run).value;
    WinsGrow(setup, run, L.Run(setup, calls).value, calls, wins);
    G.SuccessesAgreeWithIssues(setup, run);
    IssuesKnowTheirChallenges(setup, run);
    issues := seq(|wins|, k requires 0 <= k < |wins| => G.IssueBehind(s, s.successes[k]));
    forall k | 0 <= k < |wins|
      ensures Answers(setup, calls, wins[k], issues[k]) && WonAt(setup, s, calls, wins[k], s.successes[k])
    {
      OwnersWereFound(setup, calls, wins[k]);
      SuccessLives(setup, run, k);
      WonAnswers(setup, s, calls, wins[k], s.successes[k]);
    }
  }

  lemma VerifiedInTime(setup: Setup, tok: string, now: Instant)
    requires Token.Verify(setup.codec, setup.signer, tok, now).Ok?
    ensures now < Expiry(Token.Verify(setup.codec, setup.signer, tok, now).value)
  {
  }

  lemma PresentedInTime(setup: Setup, c: L.Call)
    requires ClaimsOf(setup, c).Some?
    ensures c.now < Expiry(ClaimsOf(setup, c).value)
  {
    hide Token.Verify;
    assert Token.Verify(setup.codec, setup.signer, c.present.value.response, c.now).Ok?;
    VerifiedInTime(setup, c.present.value.response, c.now);
  }

  /** When every token is spent on the reading it was checked with, one issue yields at most one success. */
  lemma OneSuccessPerIssue(setup: Setup, calls: seq<L.Call>) returns (issues: seq<nat>)
    requires setup.Sound() && L.Run(setup, calls).Some? && AllRegular(setup, calls) && C.OneReading(calls)
    ensures var wins := WinsOf(setup, calls);
            && |issues| == |wins| == L.Run(setup, calls).value.stats.verifySuccess
            && (forall k | 0 <= k < |wins| :: wins[k] < |calls| && Answers(setup, calls, wins[k], issues[k]))
            && (forall k, l | 0 <= k < l < |wins| :: issues[k] != issues[l])
  {
    hide L.Run, WinsOf, AllRegular;
    issues := SuccessesAnswerIssues(setup, calls);
    var wins := WinsOf(setup, calls);
    forall k, l | 0 <= k < l < |wins|
      ensures issues[k] != issues[l]
    {
      assert Answers(setup, calls, wins[l], issues[l]);
      PresentedInTime(setup, calls[wins[l]]);
    }
  }
}
