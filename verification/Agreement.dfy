/** What holds in every state of every interleaving. */
module Agreement {
  import opened Wrappers
  import opened Clock
  import opened ChallengeModel
  import opened Hostnames
  import opened Sites
  import opened RiskModel
  import opened Challenges
  import opened Api
  import opened Protocol
  import Store
  import Token

  // ---- The invariant ---------------------------------------------------------------

  /** A challenge says what its issue decided. */
  predicate Copies(c: Challenge, i: Issue) {
    && c.siteKey == i.siteKey && c.action == i.action && c.hostname == i.hostname
    && c.sessionId == i.sessionId && c.ipBind == i.ipBind
    && c.riskScore == i.score && KindText(c.kind) == i.kind && i.challengeId == Some(c.id)
  }

  /** A copy of the challenge that was posed under its id, but for the failures counted since. */
  predicate Genuine(s: State, c: Challenge) {
    && c.id in s.challengeOf && s.challengeOf[c.id] in s.issued && Copies(c, s.issued[s.challengeOf[c.id]])
    && c.id in s.posed && s.posed[c.id] == c.(attempts := 0)
  }

  /** A posed challenge has the parameters of its kind and score, a seed, and the lifetime of its site. */
  predicate WellPosed(setup: Setup, c: Challenge, i: Issue) {
    && Copies(c, i) && c.attempts == 0 && Issued(c, SearchTerms(c).0)
    && i.siteKey in setup.sites && c.expiresAt == c.createdAt + setup.sites[i.siteKey].challengeTtlSeconds * SECOND
  }

  /** A token says what its issue decided. */
  predicate Echoes(c: Token.Claims, i: Issue) {
    && c.siteKey == i.siteKey && c.action == i.action && c.hostname == i.hostname
    && c.ipBind == i.ipBind && c.riskScore == i.score && c.challengeKind == i.kind
    && c.riskBucket == Token.RiskBucket(i.score)
  }

  /** No token was minted for issue `rid` yet. */
  ghost predicate Unminted(s: State, rid: nat) {
    forall jti | jti in s.origin :: s.origin[jti] != rid
  }

  /** The decision behind an issue fits its score, and the binding its address. */
  ghost predicate IssueOk(setup: Setup, i: Issue) {
    && i.siteKey in setup.sites
    && i.ipBind == IpBinding(setup, setup.sites[i.siteKey], i.ip)
    && var d := Decide(i.score, setup.sites[i.siteKey].thresholds);
    && d != Block
    && (d == Allow <==> i.challengeId.None?)
    && i.kind == (match d case Allow => "passive" case Pow => "pow" case Interactive => "interactive" case Block => "")
  }

  /** Issues: each challenge id belongs to one issue, and an issue knows its challenge. */
  ghost predicate IssuesOk(setup: Setup, s: State) {
    && (forall rid | rid in s.issued :: rid in s.threads && IssueOk(setup, s.issued[rid]))
    && (forall id | id in s.challengeOf ::
          && s.challengeOf[id] in s.issued && s.issued[s.challengeOf[id]].challengeId == Some(id)
          && id in s.posed && WellPosed(setup, s.posed[id], s.issued[s.challengeOf[id]]))
    && s.posed.Keys == s.challengeOf.Keys
    && (forall rid | rid in s.issued && s.issued[rid].challengeId.Some? ::
          s.issued[rid].challengeId.value in s.challengeOf && s.challengeOf[s.issued[rid].challengeId.value] == rid)
  }

  /** Stored challenges are genuine, put and not consumed, with fewer than three failures. */
  ghost predicate StoredOk(s: State) {
    && (forall id | id in s.store.challenges ::
          && id in s.put && id !in s.consumed
          && s.store.challenges[id].id == id && Genuine(s, s.store.challenges[id])
          && 0 <= s.store.challenges[id].attempts < 3)
    && (forall id | id in s.put :: id in s.challengeOf)
    && (forall id | id in s.consumed :: id in s.put)
  }

  /** The request that consumed a challenge had its session and a proof that passed in time. */
  ghost predicate SolvedBy(setup: Setup, solve: Solve) {
    && solve.req.sessionId == solve.c.sessionId != ""
    && Refusing(setup.sha256, solve.c, solve.req.proof, solve.at, solve.later).None?
  }

  ghost predicate ThreadOk(setup: Setup, s: State, rid: nat, t: Thread) {
    match t
    case Deciding(site, req) =>
      rid !in s.issued && site.key in setup.sites && setup.sites[site.key] == site && Unminted(s, rid)
    case Granted(i) =>
      rid in s.issued && s.issued[rid] == i && i.challengeId.None? && Unminted(s, rid)
    case Putting(c) =>
      Genuine(s, c) && s.challengeOf[c.id] == rid && c.id !in s.put && c.attempts == 0
    case Checking(c, _) => Genuine(s, c) && c.id in s.put
    case Striking(id) => true
    case Consuming(c, solve) => Genuine(s, c) && c.id in s.put && solve.c == c && SolvedBy(setup, solve)
    case Minting(c) => Genuine(s, c) && c.id in s.consumed && Unminted(s, s.challengeOf[c.id])
    case Spending(site, claims, req) =>
      claims.jti in s.minted && s.minted[claims.jti] == claims && Certified(setup, req, site, claims)
    case Finished => true
  }

  ghost predicate ThreadsOk(setup: Setup, s: State) {
    && (forall rid | rid in s.threads :: ThreadOk(setup, s, rid, s.threads[rid]))
    && (forall a, b | a in s.threads && b in s.threads && s.threads[a].Minting? && s.threads[b].Minting? ::
          s.threads[a].c.id == s.threads[b].c.id ==> a == b)
  }

  /** Tokens: each one goes back to an issue of its own; a solved challenge was consumed first. */
  ghost predicate TokensOk(s: State) {
    && s.origin.Keys == s.minted.Keys
    && (forall jti | jti in s.minted ::
          && s.minted[jti].jti == jti
          && s.origin[jti] in s.issued && Echoes(s.minted[jti], s.issued[s.origin[jti]])
          && (s.issued[s.origin[jti]].challengeId.Some? ==> s.issued[s.origin[jti]].challengeId.value in s.consumed))
    && (forall j, k | j in s.minted && k in s.minted && s.origin[j] == s.origin[k] :: j == k)
  }

  /** Consumed challenges were consumed by their own session with a passing proof. */
  ghost predicate ConsumedOk(setup: Setup, s: State) {
    forall id | id in s.consumed ::
      s.consumed[id].c.id == id && Genuine(s, s.consumed[id].c) && SolvedBy(setup, s.consumed[id])
  }

  /** Spent: a success is remembered by the store until its token's expiry has passed. */
  ghost predicate SpentOk(setup: Setup, s: State) {
    && (forall jti | jti in s.store.spent :: jti in s.minted && s.store.spent[jti] == Expiry(s.minted[jti]))
    && (forall k | 0 <= k < |s.successes| ::
          var su := s.successes[k];
          && su.claims.jti in s.minted && s.minted[su.claims.jti] == su.claims
          && su.at <= s.clock
          && Certified(setup, su.req, su.site, su.claims)
          && (su.claims.jti in s.store.spent || s.clock > Expiry(su.claims)))
    && (forall k, l | 0 <= k < l < |s.successes| ::
          s.successes[k].claims.jti == s.successes[l].claims.jti ==> s.successes[l].at > Expiry(s.successes[l].claims))
  }

  ghost predicate Inv(setup: Setup, s: State) {
    IssuesOk(setup, s) && StoredOk(s) && ThreadsOk(setup, s) && TokensOk(s) && ConsumedOk(setup, s) && SpentOk(setup, s)
  }

  lemma StartOk(setup: Setup)
    ensures Inv(setup, START)
  {
  }

  // ---- Frames ------------------------------------------------------------------------

  /** History only grows: nothing recorded is changed or dropped. */
  ghost predicate Extends(s: State, s': State) {
    && (forall rid | rid in s.issued :: rid in s'.issued && s'.issued[rid] == s.issued[rid])
    && (forall id | id in s.challengeOf :: id in s'.challengeOf && s'.challengeOf[id] == s.challengeOf[id])
    && (forall id | id in s.posed :: id in s'.posed && s'.posed[id] == s.posed[id])
    && s.put <= s'.put
    && (forall id | id in s.consumed :: id in s'.consumed && s'.consumed[id] == s.consumed[id])
    && (forall jti | jti in s.minted :: jti in s'.minted && s'.minted[jti] == s.minted[jti])
  }

  /** A resting request stays in order when history grows without touching what is its own. */
  lemma ThreadFrame(setup: Setup, s: State, s': State, rid: nat, t: Thread)
    requires ThreadOk(setup, s, rid, t) && Extends(s, s')
    requires t.Deciding? ==> rid !in s'.issued
    requires t.Deciding? || t.Granted? ==> Unminted(s', rid)
    requires t.Putting? ==> t.c.id !in s'.put
    requires t.Minting? ==> Unminted(s', s.challengeOf[t.c.id])
    ensures ThreadOk(setup, s', rid, t)
  {
    hide Copies, Certified, SolvedBy;
  }

  /** Everything but one thread, the clock, the store and the successes is as before. */
  ghost predicate Quiet(s: State, s': State, rid: nat) {
    && s'.issued == s.issued && s'.challengeOf == s.challengeOf && s'.posed == s.posed && s'.put == s.put
    && s'.consumed == s.consumed
    && s'.minted == s.minted && s'.origin == s.origin
    && rid in s'.threads && s'.threads == s.threads[rid := s'.threads[rid]]
  }

  lemma UnmintedFrame(s: State, s': State)
    requires s'.origin == s.origin
    ensures forall r :: Unminted(s', r) <==> Unminted(s, r)
  {
  }

  lemma QuietThreads(setup: Setup, s: State, s': State, rid: nat)
    requires ThreadsOk(setup, s) && Quiet(s, s', rid)
    requires ThreadOk(setup, s, rid, s'.threads[rid]) && !s'.threads[rid].Minting?
    ensures ThreadsOk(setup, s')
  {
    assert Extends(s, s');
    forall r | r in s'.threads
      ensures ThreadOk(setup, s', r, s'.threads[r])
    {
      UnmintedFrame(s, s');
      ThreadFrame(setup, s, s', r, s'.threads[r]);
    }
  }

  lemma QuietKeeps(setup: Setup, s: State, s': State, rid: nat)
    requires Inv(setup, s) && Quiet(s, s', rid)
    requires ThreadOk(setup, s, rid, s'.threads[rid]) && !s'.threads[rid].Minting?
    requires StoredOk(s') && SpentOk(setup, s')
    ensures Inv(setup, s')
  {
    hide ThreadOk, StoredOk, SpentOk, ThreadsOk, SolvedBy, IssueOk, Copies, Echoes;
    QuietThreads(setup, s, s', rid);
  }

  /** Stored challenges may disappear, and what is left of them may only gain a failure below three. */
  lemma StoredFrame(s: State, s': State)
    requires StoredOk(s)
    requires s'.issued == s.issued && s'.challengeOf == s.challengeOf && s'.posed == s.posed && s'.put == s.put
    requires s'.consumed == s.consumed
    requires forall id | id in s'.store.challenges ::
               id in s.store.challenges && 0 <= s'.store.challenges[id].attempts < 3 &&
               s'.store.challenges[id] == s.store.challenges[id].(attempts := s'.store.challenges[id].attempts)
    ensures StoredOk(s')
  {
  }

  /** The store may forget a spent JTI once the clock is past its expiry. */
  lemma SpentFrame(setup: Setup, s: State, s': State)
    requires SpentOk(setup, s) && s'.minted == s.minted && s'.successes == s.successes && s.clock <= s'.clock
    requires forall jti | jti in s'.store.spent :: jti in s.store.spent && s'.store.spent[jti] == s.store.spent[jti]
    requires forall jti | jti in s.store.spent && jti !in s'.store.spent :: s'.clock > s.store.spent[jti]
    ensures SpentOk(setup, s')
  {
    hide Certified;
  }

  lemma StoredExtends(s: State, s': State)
    requires StoredOk(s) && Extends(s, s')
    requires s'.store.challenges == s.store.challenges && s'.put == s.put && s'.consumed == s.consumed
    ensures StoredOk(s')
  {
    hide Copies;
  }

  lemma TokensExtend(s: State, s': State)
    requires TokensOk(s) && Extends(s, s') && s'.minted == s.minted && s'.origin == s.origin
    ensures TokensOk(s')
  {
    hide Echoes;
  }

  lemma ConsumedExtends(setup: Setup, s: State, s': State)
    requires ConsumedOk(setup, s) && Extends(s, s') && s'.consumed == s.consumed
    ensures ConsumedOk(setup, s')
  {
    hide Copies, SolvedBy;
  }

  lemma HistoryFrames(setup: Setup, s: State, s': State)
    requires Inv(setup, s) && Extends(s, s')
    requires s'.store.challenges == s.store.challenges && s'.put == s.put && s'.consumed == s.consumed
    ensures StoredOk(s') && ConsumedOk(setup, s')
    ensures s'.minted == s.minted && s'.origin == s.origin ==> TokensOk(s')
  {
    hide IssuesOk, StoredOk, ThreadsOk, TokensOk, ConsumedOk, SpentOk, Extends;
    StoredExtends(s, s');
    ConsumedExtends(setup, s, s');
    if s'.minted == s.minted && s'.origin == s.origin {
      TokensExtend(s, s');
    }
  }

  lemma Parts(setup: Setup, s: State)
    requires Inv(setup, s)
    ensures IssuesOk(setup, s) && StoredOk(s) && ThreadsOk(setup, s) && TokensOk(s) && ConsumedOk(setup, s)
    ensures SpentOk(setup, s)
  {
  }

  lemma AllAttempts(s: State)
    requires StoredOk(s)
    ensures forall id | id in s.store.challenges :: 0 <= s.store.challenges[id].attempts < 3
  {
  }

  lemma ThreadAt(setup: Setup, s: State, rid: nat)
    requires Inv(setup, s)
    ensures ThreadOk(setup, s, rid, At(s, rid))
  {
    hide IssuesOk, StoredOk, TokensOk, ConsumedOk, SpentOk, Copies, Certified, SolvedBy;
  }

  /** A request id not in use has neither issued nor minted anything. */
  lemma NewThreadIsFree(setup: Setup, s: State, rid: nat)
    requires Inv(setup, s) && rid !in s.threads
    ensures rid !in s.issued && Unminted(s, rid)
  {
    hide StoredOk, ThreadsOk, SpentOk, ConsumedOk, IssueOk, Echoes;
  }

  // ---- Steps that write no history -----------------------------------------------------

  lemma IssueStartKeeps(setup: Setup, s: State, rid: nat, req: IssueRequest, now: Instant)
    requires Inv(setup, s) && setup.Sound() && rid !in s.threads && AdmitIssue(setup, req).Ok? && s.clock <= now
    ensures Inv(setup, DoIssueStart(setup, s, rid, req, AdmitIssue(setup, req).value, now))
  {
    hide Inv, IssuesOk, TokensOk, ConsumedOk, ThreadsOk, StoredOk, SpentOk,
         AllowsHost, ActionText, OriginAllowedForHostname, NormalizeHostname;
    var s' := DoIssueStart(setup, s, rid, req, AdmitIssue(setup, req).value, now);
    NewThreadIsFree(setup, s, rid);
    Parts(setup, s);
    StoredFrame(s, s') by { AllAttempts(s); }
    SpentFrame(setup, s, s');
    QuietKeeps(setup, s, s', rid);
  }

  lemma VerifyReadKeeps(setup: Setup, s: State, rid: nat, req: VerifyRequest, now: Instant)
    requires Inv(setup, s) && rid !in s.threads && s.clock <= now
    ensures Inv(setup, DoVerifyRead(s, rid, req, now))
  {
    hide Inv, IssuesOk, TokensOk, ConsumedOk, ThreadsOk, SpentOk, Genuine;
    var s' := DoVerifyRead(s, rid, req, now);
    Parts(setup, s);
    StoredFrame(s, s');
    SpentFrame(setup, s, s');
    QuietKeeps(setup, s, s', rid);
  }

  lemma VerifyJudgeKeeps(setup: Setup, s: State, rid: nat, now: Instant, later: Instant)
    requires Inv(setup, s) && At(s, rid).Checking? && s.clock <= now <= later
    ensures var t := At(s, rid);
            Inv(setup, DoVerifyJudge(s, rid, t.c, t.verify, Judge(setup, t.c, t.verify, now, later), now, later))
  {
    hide Inv, IssuesOk, TokensOk, ConsumedOk, ThreadsOk, StoredOk, SpentOk, Genuine, OriginAllowedForHostname, Refusing;
    var t := At(s, rid);
    var s' := DoVerifyJudge(s, rid, t.c, t.verify, Judge(setup, t.c, t.verify, now, later), now, later);
    Parts(setup, s);
    ThreadAt(setup, s, rid);
    StoredFrame(s, s') by { AllAttempts(s); }
    SpentFrame(setup, s, s');
    QuietKeeps(setup, s, s', rid);
  }

  /** A recorded failure removes a challenge or leaves it with less than three of them. */
  lemma FailureShrinks(s: State, id: string)
    requires StoredOk(s)
    ensures var after := Store.Fail(s.store, id, 3).challenges;
            forall k | k in after ::
              k in s.store.challenges && 0 <= after[k].attempts < 3 &&
              after[k] == s.store.challenges[k].(attempts := after[k].attempts)
  {
    hide Genuine;
  }

  lemma VerifyStrikeKeeps(setup: Setup, s: State, rid: nat, id: string)
    requires Inv(setup, s) && At(s, rid).Striking?
    ensures Inv(setup, DoVerifyStrike(s, rid, id))
  {
    hide Inv, IssuesOk, TokensOk, ConsumedOk, ThreadsOk, StoredOk, SpentOk;
    var s' := DoVerifyStrike(s, rid, id);
    Parts(setup, s);
    FailureShrinks(s, id);
    StoredFrame(s, s');
    SpentFrame(setup, s, s');
    QuietKeeps(setup, s, s', rid);
  }

  lemma MintedUnderTheirIds(s: State)
    requires TokensOk(s)
    ensures forall jti | jti in s.minted :: s.minted[jti].jti == jti
  {
    hide Echoes;
  }

  lemma SiteStartKeeps(setup: Setup, s: State, rid: nat, req: SiteRequest, owner: Option<Site>, now: Instant)
    requires Inv(setup, s) && setup.Sound() && rid !in s.threads && s.clock <= now
    requires Unforged(setup, s.minted, req.response) && OwnsSecret(setup, req, owner)
    ensures Inv(setup, DoSiteStart(setup, s, rid, req, owner, now))
  {
    hide Inv, IssuesOk, TokensOk, ConsumedOk, ThreadsOk, StoredOk, SpentOk, CheckSite, Unforged, OwnsSecret, Certified;
    var s' := DoSiteStart(setup, s, rid, req, owner, now);
    Parts(setup, s);
    if CheckSite(setup, req, owner, now).Ok? {
      MintedUnderTheirIds(s);
      AcceptedWasMinted(setup, s.minted, req, owner, now);
    }
    StoredFrame(s, s') by { AllAttempts(s); }
    SpentFrame(setup, s, s');
    QuietKeeps(setup, s, s', rid);
  }

  /** Spending right after a sweep: a second success of a token comes only after its expiry. */
  lemma SpendKeepsSpent(setup: Setup, s: State, s': State, t: Thread, now: Instant)
    requires SpentOk(setup, s) && t.Spending? && s.clock == now == s'.clock && s'.minted == s.minted
    requires t.claims.jti in s.minted && s.minted[t.claims.jti] == t.claims
    requires Certified(setup, t.present, t.site, t.claims)
    requires s'.store.spent == if t.claims.jti in s.store.spent then s.store.spent
                               else s.store.spent[t.claims.jti := Expiry(t.claims)]
    requires s'.successes ==
             s.successes + if t.claims.jti !in s.store.spent then [Success(t.claims, t.site, t.present, now)] else []
    ensures SpentOk(setup, s')
  {
    hide Certified;
  }

  lemma SiteSpendKeeps(setup: Setup, s: State, rid: nat, now: Instant)
    requires Inv(setup, s) && At(s, rid).Spending? && s.clock <= now
    ensures Inv(setup, DoSiteSpend(s, rid, At(s, rid), now))
  {
    hide Inv, IssuesOk, TokensOk, ConsumedOk, ThreadsOk, StoredOk, SpentOk, Certified;
    var t := At(s, rid);
    var s' := DoSiteSpend(s, rid, t, now);
    Parts(setup, s);
    ThreadAt(setup, s, rid);
    StoredFrame(s, s') by { AllAttempts(s); }
    var swept := s.(clock := now, store := Store.Sweep(s.store, now));
    SpentFrame(setup, s, swept);
    SpendKeepsSpent(setup, swept, s', t, now);
    QuietKeeps(setup, s, s', rid);
  }

  // ---- Steps that write history --------------------------------------------------------

  /** All threads but one stay in order. */
  lemma OthersFrame(setup: Setup, s: State, s': State, rid: nat)
    requires ThreadsOk(setup, s) && Extends(s, s')
    requires rid in s'.threads && s'.threads == s.threads[rid := s'.threads[rid]]
    requires ThreadOk(setup, s', rid, s'.threads[rid])
    requires forall r | r in s.threads && r != rid && s.threads[r].Deciding? :: r !in s'.issued
    requires forall r | r in s.threads && r != rid && (s.threads[r].Deciding? || s.threads[r].Granted?) ::
              Unminted(s', r)
    requires forall r | r in s.threads && r != rid && s.threads[r].Putting? :: s.threads[r].c.id !in s'.put
    requires forall r | r in s.threads && r != rid && s.threads[r].Minting? ::
               && s.threads[r].c.id in s.challengeOf && Unminted(s', s.challengeOf[s.threads[r].c.id])
               && (s'.threads[rid].Minting? ==> s'.threads[rid].c.id != s.threads[r].c.id)
    ensures ThreadsOk(setup, s')
  {
    hide Copies, Certified, SolvedBy, Unminted, Extends;
    forall r | r in s'.threads
      ensures ThreadOk(setup, s', r, s'.threads[r])
    {
      if r != rid {
        ThreadFrame(setup, s, s', r, s.threads[r]);
      }
    }
  }

  lemma PutKeepsStored(s: State, s': State, c: Challenge, now: Instant)
    requires StoredOk(s) && Genuine(s, c) && c.attempts == 0 && c.id !in s.put
    requires s'.issued == s.issued && s'.challengeOf == s.challengeOf && s'.posed == s.posed
    requires s'.consumed == s.consumed
    requires s'.put == s.put + {c.id} && s'.store == Store.Put(s.store, c, now)
    ensures StoredOk(s')
  {
    hide Copies;
  }

  lemma PutKeepsThreads(setup: Setup, s: State, s': State, rid: nat, c: Challenge, now: Instant)
    requires ThreadsOk(setup, s) && s' == DoIssuePut(s, rid, c, now) && At(s, rid) == Putting(c)
    ensures ThreadsOk(setup, s')
  {
    hide Copies, Certified, SolvedBy;
    assert ThreadOk(setup, s, rid, At(s, rid));
    UnmintedFrame(s, s');
    OthersFrame(setup, s, s', rid);
  }

  lemma SamePartsAfterPut(setup: Setup, s: State, s': State)
    requires Inv(setup, s) && s'.issued == s.issued && s'.challengeOf == s.challengeOf && s'.posed == s.posed
    requires s'.consumed == s.consumed
    requires s'.minted == s.minted && s'.origin == s.origin && s.threads.Keys <= s'.threads.Keys
    requires StoredOk(s') && ThreadsOk(setup, s') && SpentOk(setup, s')
    ensures Inv(setup, s')
  {
    hide ThreadOk, StoredOk, SpentOk, ThreadsOk, SolvedBy, IssueOk, Copies, Echoes;
  }

  lemma IssuePutKeeps(setup: Setup, s: State, rid: nat, now: Instant)
    requires Inv(setup, s) && At(s, rid).Putting? && s.clock <= now
    ensures Inv(setup, DoIssuePut(s, rid, At(s, rid).c, now))
  {
    hide Inv, IssuesOk, SpentOk, StoredOk, ThreadsOk, TokensOk, ConsumedOk, Copies, Certified, SolvedBy;
    var c := At(s, rid).c;
    var s' := DoIssuePut(s, rid, c, now);
    Parts(setup, s);
    ThreadAt(setup, s, rid);
    SpentFrame(setup, s, s');
    PutKeepsStored(s, s', c, now);
    PutKeepsThreads(setup, s, s', rid, c, now);
    SamePartsAfterPut(setup, s, s');
  }

  // ---- Consuming a challenge -----------------------------------------------------------

  lemma ConsumeKeepsStored(s: State, s': State, id: string, solve: Solve)
    requires StoredOk(s) && id in s.put
    requires s'.issued == s.issued && s'.challengeOf == s.challengeOf && s'.posed == s.posed && s'.put == s.put
    requires s'.consumed == s.consumed[id := solve] && s'.store == Store.Consume(s.store, id)
    ensures StoredOk(s')
  {
    hide Copies;
  }

  /** A stored challenge has no token yet, and no request is about to mint one. */
  lemma StoredIsUnminted(setup: Setup, s: State, id: string)
    requires IssuesOk(setup, s) && StoredOk(s) && TokensOk(s) && id in s.store.challenges
    ensures id in s.challengeOf && Unminted(s, s.challengeOf[id])
  {
    hide IssueOk, Echoes, Copies;
  }

  lemma StoredIsUnconsumed(s: State, id: string)
    requires StoredOk(s) && id in s.store.challenges
    ensures id !in s.consumed
  {
  }

  lemma ConsumeKeepsThreads(setup: Setup, s: State, s': State, rid: nat)
    requires ThreadsOk(setup, s) && At(s, rid).Consuming? && ThreadOk(setup, s, rid, At(s, rid))
    requires At(s, rid).c.id !in s.consumed && Unminted(s, s.challengeOf[At(s, rid).c.id])
    requires s' == DoVerifyConsume(s, rid, At(s, rid).c, At(s, rid).solve) && At(s, rid).c.id in s.store.challenges
    ensures ThreadsOk(setup, s')
  {
    hide Copies, Certified, SolvedBy;
    UnmintedFrame(s, s');
    OthersFrame(setup, s, s', rid);
  }

  lemma ConsumeKeepsRest(setup: Setup, s: State, s': State, rid: nat, c: Challenge, solve: Solve)
    requires Inv(setup, s) && ThreadsOk(setup, s') && StoredOk(s') && SpentOk(setup, s')
    requires s'.issued == s.issued && s'.challengeOf == s.challengeOf && s'.posed == s.posed && s'.minted == s.minted
    requires s'.origin == s.origin
    requires s'.consumed == s.consumed[c.id := solve] && s.threads.Keys <= s'.threads.Keys
    requires solve.c == c && Genuine(s, c) && SolvedBy(setup, solve)
    ensures Inv(setup, s')
  {
    hide ThreadOk, StoredOk, SpentOk, ThreadsOk, SolvedBy, IssueOk, Copies, Echoes;
  }

  lemma VerifyConsumeKeeps(setup: Setup, s: State, rid: nat)
    requires Inv(setup, s) && At(s, rid).Consuming?
    ensures Inv(setup, DoVerifyConsume(s, rid, At(s, rid).c, At(s, rid).solve))
  {
    hide Inv, IssuesOk, TokensOk, ConsumedOk, ThreadsOk, StoredOk, SpentOk, Copies, SolvedBy, Certified;
    var c, solve := At(s, rid).c, At(s, rid).solve;
    var s' := DoVerifyConsume(s, rid, c, solve);
    Parts(setup, s);
    ThreadAt(setup, s, rid);
    SpentFrame(setup, s, s');
    if c.id !in s.store.challenges {
      StoredFrame(s, s') by { AllAttempts(s); }
      QuietKeeps(setup, s, s', rid);
    } else {
      ConsumeKeepsStored(s, s', c.id, solve);
      StoredIsUnminted(setup, s, c.id);
      StoredIsUnconsumed(s, c.id);
      UnmintedFrame(s, s');
      ConsumeKeepsThreads(setup, s, s', rid);
      ConsumeKeepsRest(setup, s, s', rid, c, solve);
    }
  }

  // ---- Deciding ------------------------------------------------------------------------

  lemma DecidedIssueIsOk(setup: Setup, site: Site, req: IssueRequest, score: int, tags: seq<string>, id: string,
                         seed: string, now: Instant)
    requires site.key in setup.sites && setup.sites[site.key] == site
    ensures var d := Decide(score, site.thresholds);
            && (d == Allow ==> IssueOk(setup, NewIssue(setup, site, req, score, "passive", None)))
            && (d == Pow || d == Interactive ==>
                  var c := NewChallenge(setup, site, req, score, tags, id, seed, now);
                  var i := NewIssue(setup, site, req, score, KindText(c.kind), Some(id));
                  && IssueOk(setup, i) && Copies(c, i) && c.id == id && c.attempts == 0
                  && (seed != "" ==> WellPosed(setup, c, i)))
  {
    hide NormalizeHostname, IpBinding;
  }

  /** Recording one new issue, with its challenge id if it has one. */
  ghost predicate Records(setup: Setup, s: State, s': State, rid: nat, i: Issue) {
    && rid in s.threads && rid !in s.issued && s'.issued == s.issued[rid := i]
    && (match i.challengeId
        case None => s'.challengeOf == s.challengeOf && s'.posed == s.posed
        case Some(id) =>
          && id !in s.challengeOf && id !in s.posed && s'.challengeOf == s.challengeOf[id := rid]
          && id in s'.posed && s'.posed == s.posed[id := s'.posed[id]] && WellPosed(setup, s'.posed[id], i))
    && s'.threads.Keys == s.threads.Keys && s'.put == s.put && s'.consumed == s.consumed
    && s'.store.challenges == s.store.challenges
    && s'.minted == s.minted && s'.origin == s.origin
  }

  lemma RecordedExtends(setup: Setup, s: State, s': State, rid: nat, i: Issue)
    requires Records(setup, s, s', rid, i)
    ensures Extends(s, s')
  {
  }

  lemma RecordKeepsIssues(setup: Setup, s: State, s': State, rid: nat, i: Issue)
    requires IssuesOk(setup, s) && Records(setup, s, s', rid, i) && IssueOk(setup, i)
    ensures IssuesOk(setup, s')
  {
    hide IssueOk, WellPosed;
    forall id | id in s'.challengeOf
      ensures s'.challengeOf[id] in s'.issued && s'.issued[s'.challengeOf[id]].challengeId == Some(id)
      ensures id in s'.posed && WellPosed(setup, s'.posed[id], s'.issued[s'.challengeOf[id]])
    {
      if id in s.challengeOf {
        assert s'.issued[s'.challengeOf[id]] == s.issued[s.challengeOf[id]] && s'.posed[id] == s.posed[id];
      }
    }
    assert s'.posed.Keys == s'.challengeOf.Keys;
  }

  lemma IssueDecideRecords(setup: Setup, s: State, s': State, rid: nat, i: Issue)
    requires Inv(setup, s) && Records(setup, s, s', rid, i) && IssueOk(setup, i)
    ensures IssuesOk(setup, s') && StoredOk(s') && TokensOk(s') && ConsumedOk(setup, s') && Extends(s, s')
  {
    hide IssuesOk, StoredOk, ThreadsOk, TokensOk, ConsumedOk, SpentOk, Extends, IssueOk;
    RecordedExtends(setup, s, s', rid, i);
    RecordKeepsIssues(setup, s, s', rid, i);
    HistoryFrames(setup, s, s');
  }

  /** Where a request stands once its issue is recorded. */
  ghost predicate Places(s: State, rid: nat, t: Thread, i: Issue, id: string) {
    || (t == Granted(i) && i.challengeId.None?)
    || (t.Putting? && t.c.id == id && t.c.attempts == 0 && Copies(t.c, i)
        && id in s.challengeOf && s.challengeOf[id] == rid && id in s.posed && s.posed[id] == t.c)
  }

  lemma FreshIdIsUnput(s: State, id: string)
    requires StoredOk(s) && id !in s.challengeOf
    ensures id !in s.put
  {
  }

  lemma AllParts(setup: Setup, s: State)
    requires IssuesOk(setup, s) && StoredOk(s) && ThreadsOk(setup, s) && TokensOk(s) && ConsumedOk(setup, s)
    requires SpentOk(setup, s)
    ensures Inv(setup, s)
  {
  }

  lemma DecideKeepsThreads(setup: Setup, s: State, s': State, rid: nat, i: Issue, id: string)
    requires ThreadsOk(setup, s) && rid in s.threads && Unminted(s, rid) && Extends(s, s') && s'.origin == s.origin
    requires s'.issued == s.issued[rid := i] && s'.put == s.put && id !in s.put
    requires rid in s'.threads && s'.threads == s.threads[rid := s'.threads[rid]]
    requires Places(s', rid, s'.threads[rid], i, id)
    ensures ThreadsOk(setup, s')
  {
    hide Copies, Certified, SolvedBy, Extends;
    UnmintedFrame(s, s');
    OthersFrame(setup, s, s', rid);
  }

  lemma RecordedKeeps(setup: Setup, s: State, s': State, rid: nat, i: Issue, id: string)
    requires Inv(setup, s) && Records(setup, s, s', rid, i) && IssueOk(setup, i) && id !in s.challengeOf
    requires Unminted(s, rid)
    requires rid in s'.threads && s'.threads == s.threads[rid := s'.threads[rid]]
    requires Places(s', rid, s'.threads[rid], i, id) && SpentOk(setup, s')
    ensures Inv(setup, s')
  {
    hide Inv, IssuesOk, TokensOk, ConsumedOk, ThreadsOk, StoredOk, SpentOk, IssueOk, Extends, Unminted, Places;
    Parts(setup, s);
    IssueDecideRecords(setup, s, s', rid, i);
    FreshIdIsUnput(s, id);
    DecideKeepsThreads(setup, s, s', rid, i, id);
    AllParts(setup, s');
  }

  lemma AllowedKeeps(setup: Setup, s: State, rid: nat, i: Issue, id: string, now: Instant)
    requires Inv(setup, s) && At(s, rid).Deciding? && s.clock <= now && id !in s.challengeOf
    requires IssueOk(setup, i) && i.challengeId == None
    ensures Inv(setup, Move(s, rid, Granted(i), now).(issued := s.issued[rid := i]))
  {
    hide Inv, IssuesOk, TokensOk, ConsumedOk, ThreadsOk, StoredOk, SpentOk, IssueOk;
    var s' := Move(s, rid, Granted(i), now).(issued := s.issued[rid := i]);
    ThreadAt(setup, s, rid);
    assert SpentOk(setup, s') by {
      Parts(setup, s);
      SpentFrame(setup, s, s');
    }
    RecordedKeeps(setup, s, s', rid, i, id);
  }

  function Posing(s: State, rid: nat, i: Issue, c: Challenge, now: Instant): State {
    Move(s, rid, Putting(c), now).(
      issued := s.issued[rid := i], challengeOf := s.challengeOf[c.id := rid], posed := s.posed[c.id := c])
  }

  lemma PosedRecords(setup: Setup, s: State, rid: nat, i: Issue, c: Challenge, now: Instant)
    requires rid in s.threads && rid !in s.issued && c.id !in s.challengeOf && c.id !in s.posed
    requires Copies(c, i) && WellPosed(setup, c, i) && c.attempts == 0
    ensures var s' := Posing(s, rid, i, c, now);
            Records(setup, s, s', rid, i) && Places(s', rid, s'.threads[rid], i, c.id)
  {
    hide WellPosed;
  }

  lemma FreshIdIsUnposed(setup: Setup, s: State, id: string)
    requires Inv(setup, s) && id !in s.challengeOf
    ensures id !in s.posed
  {
    hide WellPosed, IssueOk, ThreadsOk, StoredOk, TokensOk, ConsumedOk, SpentOk;
  }

  lemma PosedKeeps(setup: Setup, s: State, rid: nat, i: Issue, c: Challenge, now: Instant)
    requires Inv(setup, s) && At(s, rid).Deciding? && s.clock <= now && c.id !in s.challengeOf
    requires IssueOk(setup, i) && Copies(c, i) && WellPosed(setup, c, i) && c.attempts == 0
    ensures Inv(setup, Posing(s, rid, i, c, now))
  {
    FreshIdIsUnposed(setup, s, c.id);
    ThreadAt(setup, s, rid);
    hide Inv, IssuesOk, TokensOk, ConsumedOk, ThreadsOk, StoredOk, SpentOk, IssueOk, WellPosed, Records, Places, Copies,
         Unminted;
    var s' := Posing(s, rid, i, c, now);
    PosedRecords(setup, s, rid, i, c, now);
    assert SpentOk(setup, s') by {
      Parts(setup, s);
      SpentFrame(setup, s, s');
    }
    RecordedKeeps(setup, s, s', rid, i, c.id);
  }

  lemma BlockedKeeps(setup: Setup, s: State, rid: nat, now: Instant)
    requires Inv(setup, s) && s.clock <= now
    ensures Inv(setup, Move(s, rid, Finished, now))
  {
    hide Inv, IssuesOk, TokensOk, ConsumedOk, ThreadsOk, StoredOk, SpentOk;
    var s' := Move(s, rid, Finished, now);
    Parts(setup, s);
    SpentFrame(setup, s, s');
    StoredFrame(s, s') by { AllAttempts(s); }
    QuietKeeps(setup, s, s', rid);
  }

  lemma NewIssueShape(setup: Setup, site: Site, req: IssueRequest, score: int, kind: string, id: string)
    ensures NewIssue(setup, site, req, score, "passive", None).challengeId == None
    ensures NewIssue(setup, site, req, score, kind, Some(id)).challengeId == Some(id)
  {
    hide NormalizeHostname;
  }

  lemma IssueDecideKeeps(setup: Setup, s: State, rid: nat, score: int, tags: seq<string>, id: string, seed: string,
                         now: Instant)
    requires Inv(setup, s) && At(s, rid).Deciding? && id !in s.challengeOf && seed != "" && s.clock <= now
    ensures Inv(setup, DoIssueDecide(setup, s, rid, At(s, rid).site, At(s, rid).req, score, tags, id, seed, now))
  {
    var site, req := At(s, rid).site, At(s, rid).req;
    ThreadAt(setup, s, rid);
    hide Inv, Copies, NewIssue, NewChallenge, IssueOk, WellPosed;
    DecidedIssueIsOk(setup, site, req, score, tags, id, seed, now);
    var c := NewChallenge(setup, site, req, score, tags, id, seed, now);
    NewIssueShape(setup, site, req, score, KindText(c.kind), id);
    match Decide(score, site.thresholds)
    case Block => BlockedKeeps(setup, s, rid, now);
    case Allow => AllowedKeeps(setup, s, rid, NewIssue(setup, site, req, score, "passive", None), id, now);
    case _ => PosedKeeps(setup, s, rid, NewIssue(setup, site, req, score, KindText(c.kind), Some(id)), c, now);
  }

  // ---- Minting -------------------------------------------------------------------------

  /** Recording one token for an issue that had none. */
  lemma TokenKeepsTokens(setup: Setup, s: State, s': State, jti: string, c: Token.Claims, issue: nat)
    requires TokensOk(s) && jti !in s.minted && issue in s.issued && Unminted(s, issue)
    requires Echoes(c, s.issued[issue]) && c.jti == jti
    requires s.issued[issue].challengeId.Some? ==> s.issued[issue].challengeId.value in s.consumed
    requires s'.minted == s.minted[jti := c] && s'.origin == s.origin[jti := issue]
    requires s'.issued == s.issued && s'.consumed == s.consumed
    ensures TokensOk(s')
  {
    hide Echoes;
  }

  lemma SameIssues(setup: Setup, s: State, s': State)
    requires IssuesOk(setup, s) && s'.issued == s.issued && s'.challengeOf == s.challengeOf && s'.posed == s.posed
    requires s.threads.Keys <= s'.threads.Keys
    ensures IssuesOk(setup, s')
  {
    hide IssueOk;
  }

  lemma RecordToken(setup: Setup, s: State, s': State, rid: nat, jti: string, c: Token.Claims, issue: nat, now: Instant)
    requires Inv(setup, s) && FreshJti(s, jti) && rid in s.threads && s.clock <= now
    requires s' == Record(s, rid, jti, c, issue, now)
    requires issue in s.issued && Unminted(s, issue) && Echoes(c, s.issued[issue]) && c.jti == jti
    requires s.issued[issue].challengeId.Some? ==> s.issued[issue].challengeId.value in s.consumed
    ensures IssuesOk(setup, s') && StoredOk(s') && TokensOk(s') && ConsumedOk(setup, s') && Extends(s, s')
  {
    assert Extends(s, s') by {
      hide IssuesOk, StoredOk, ThreadsOk, TokensOk, ConsumedOk, SpentOk;
    }
    hide IssuesOk, StoredOk, ThreadsOk, TokensOk, ConsumedOk, SpentOk, Extends, Echoes, Unminted;
    HistoryFrames(setup, s, s');
    TokenKeepsTokens(setup, s, s', jti, c, issue);
    SameIssues(setup, s, s');
  }

  lemma TokenKeepsSpent(setup: Setup, s: State, s': State, rid: nat, jti: string, c: Token.Claims, issue: nat,
                        now: Instant)
    requires SpentOk(setup, s) && FreshJti(s, jti) && s.clock <= now && s' == Record(s, rid, jti, c, issue, now)
    ensures SpentOk(setup, s')
  {
    hide Certified;
  }

  /** The new token belongs to no other request that waits for one. */
  lemma TokenKeepsThreads(setup: Setup, s: State, s': State, rid: nat, jti: string, c: Token.Claims, issue: nat,
                          now: Instant)
    requires Inv(setup, s) && rid in s.threads && s' == Record(s, rid, jti, c, issue, now) && Extends(s, s')
    requires issue in s.issued
    requires forall r | r in s.threads && r != rid && s.threads[r].Granted? :: r != issue
    requires forall r | r in s.threads && r != rid && s.threads[r].Minting? ::
               s.threads[r].c.id in s.challengeOf && s.challengeOf[s.threads[r].c.id] != issue
    ensures ThreadsOk(setup, s')
  {
    hide Copies, Certified, SolvedBy, Extends, IssuesOk, StoredOk, TokensOk, ConsumedOk, SpentOk;
    assert forall r | r != issue && Unminted(s, r) :: Unminted(s', r);
    OthersFrame(setup, s, s', rid);
  }

  lemma NobodyMintsForGrant(setup: Setup, s: State, rid: nat)
    requires Inv(setup, s) && rid in s.issued && s.issued[rid].challengeId.None?
    ensures forall r | r in s.threads && s.threads[r].Minting? ::
              s.threads[r].c.id in s.challengeOf && s.challengeOf[s.threads[r].c.id] != rid
  {
    hide StoredOk, TokensOk, ConsumedOk, SpentOk, Certified, SolvedBy, IssueOk;
    forall r | r in s.threads && s.threads[r].Minting?
      ensures s.threads[r].c.id in s.challengeOf && s.challengeOf[s.threads[r].c.id] != rid
    {
      assert ThreadOk(setup, s, r, s.threads[r]);
    }
  }

  lemma IssueMintKeeps(setup: Setup, s: State, rid: nat, jti: string, now: Instant)
    requires Inv(setup, s) && At(s, rid).Granted? && FreshJti(s, jti) && s.clock <= now
    ensures Inv(setup, Record(s, rid, jti, MintFor(setup, At(s, rid).issue, jti, now), rid, now))
  {
    hide Inv, IssuesOk, TokensOk, ConsumedOk, ThreadsOk, StoredOk, SpentOk, Copies, SolvedBy, Certified, Extends;
    var i := At(s, rid).issue;
    var c := MintFor(setup, i, jti, now);
    var s' := Record(s, rid, jti, c, rid, now);
    Parts(setup, s);
    ThreadAt(setup, s, rid);
    RecordToken(setup, s, s', rid, jti, c, rid, now);
    TokenKeepsSpent(setup, s, s', rid, jti, c, rid, now);
    NobodyMintsForGrant(setup, s, rid);
    TokenKeepsThreads(setup, s, s', rid, jti, c, rid, now);
    AllParts(setup, s');
  }

  lemma OneMinterPerChallenge(setup: Setup, s: State, rid: nat)
    requires Inv(setup, s) && At(s, rid).Minting?
    ensures var issue := IssueOf(s, At(s, rid).c.id);
            && (forall r | r in s.threads && s.threads[r].Granted? :: r != issue)
            && (forall r | r in s.threads && r != rid && s.threads[r].Minting? ::
                  s.threads[r].c.id in s.challengeOf && s.challengeOf[s.threads[r].c.id] != issue)
  {
    hide StoredOk, TokensOk, ConsumedOk, SpentOk, Certified, SolvedBy, IssueOk;
    assert ThreadOk(setup, s, rid, s.threads[rid]);
    forall r | r in s.threads && r != rid && s.threads[r].Minting?
      ensures s.threads[r].c.id in s.challengeOf && s.challengeOf[s.threads[r].c.id] != IssueOf(s, At(s, rid).c.id)
    {
      assert ThreadOk(setup, s, r, s.threads[r]);
    }
    forall r | r in s.threads && s.threads[r].Granted?
      ensures r != IssueOf(s, At(s, rid).c.id)
    {
      assert ThreadOk(setup, s, r, s.threads[r]);
    }
  }

  lemma VerifyMintKeeps(setup: Setup, s: State, rid: nat, jti: string, now: Instant)
    requires Inv(setup, s) && At(s, rid).Minting? && FreshJti(s, jti) && s.clock <= now
    ensures Inv(setup, Record(s, rid, jti, MintSolved(setup, At(s, rid).c, jti, now), IssueOf(s, At(s, rid).c.id), now))
  {
    hide Inv, IssuesOk, TokensOk, ConsumedOk, ThreadsOk, StoredOk, SpentOk, SolvedBy, Certified, Extends;
    var ch := At(s, rid).c;
    var c := MintSolved(setup, ch, jti, now);
    var issue := IssueOf(s, ch.id);
    var s' := Record(s, rid, jti, c, issue, now);
    Parts(setup, s);
    ThreadAt(setup, s, rid);
    RecordToken(setup, s, s', rid, jti, c, issue, now);
    TokenKeepsSpent(setup, s, s', rid, jti, c, issue, now);
    OneMinterPerChallenge(setup, s, rid);
    TokenKeepsThreads(setup, s, s', rid, jti, c, issue, now);
    AllParts(setup, s');
  }

  // ---- Every step, every run -------------------------------------------------------------

  lemma StepKeeps(setup: Setup, s: State, a: Action)
    requires Inv(setup, s) && setup.Sound() && Enabled(setup, s, a)
    ensures Inv(setup, Do(setup, s, a))
  {
    hide Inv, AdmitIssue, Unforged, OwnsSecret, Judge, DoIssueStart, DoIssueDecide, DoIssuePut, DoVerifyRead,
         DoVerifyJudge, DoVerifyStrike, DoVerifyConsume, DoSiteStart, DoSiteSpend, Record, MintFor, MintSolved, IdText;
    match a
    case IssueStart(rid, req, now) => IssueStartKeeps(setup, s, rid, req, now);
    case IssueDecide(rid, score, tags, id, seed, now) => IssueDecideKeeps(setup, s, rid, score, tags, id, seed, now);
    case IssueMint(rid, jti, now) => IssueMintKeeps(setup, s, rid, jti, now);
    case IssuePut(rid, now) => IssuePutKeeps(setup, s, rid, now);
    case VerifyRead(rid, req, now) => VerifyReadKeeps(setup, s, rid, req, now);
    case VerifyJudge(rid, now, later) => VerifyJudgeKeeps(setup, s, rid, now, later);
    case VerifyStrike(rid) => VerifyStrikeKeeps(setup, s, rid, At(s, rid).id);
    case VerifyConsume(rid) => VerifyConsumeKeeps(setup, s, rid);
    case VerifyMint(rid, jti, now) => VerifyMintKeeps(setup, s, rid, jti, now);
    case SiteStart(rid, req, owner, now) => SiteStartKeeps(setup, s, rid, req, owner, now);
    case SiteSpend(rid, now) => SiteSpendKeeps(setup, s, rid, now);
  }

  lemma {:induction false} EveryRunKeeps(setup: Setup, run: seq<Action>)
    requires setup.Sound() && Run(setup, run).Some?
    ensures Inv(setup, Run(setup, run).value)
  {
    hide Inv, Do, Enabled;
    if run == [] {
      StartOk(setup);
    } else {
      EveryRunKeeps(setup, run[..|run| - 1]);
      StepKeeps(setup, Run(setup, run[..|run| - 1]).value, run[|run| - 1]);
    }
  }
}
