/** The books balance after every run of requests. */
module Conservation {
  import opened Wrappers
  import opened Clock
  import opened FiniteSets
  import opened ChallengeModel
  import opened Hostnames
  import opened Sites
  import opened Challenges
  import opened Api
  import opened Ledger
  import opened RiskModel
  import Store
  import Token

  // ---- Challenges ------------------------------------------------------------------------

  /** A challenge is live, consumed, struck out or expired, never two of these. */
  ghost predicate Partitioned(b: Book) {
    var h := b.history;
    && (forall id :: id in h.put <==> id in b.store.challenges || id in h.consumed || id in h.struck || id in h.expired)
    && (forall id | id in b.store.challenges :: id !in h.consumed && id !in h.struck && id !in h.expired)
    && (forall id | id in h.consumed :: id !in h.struck && id !in h.expired)
    && (forall id | id in h.struck :: id !in h.expired)
  }

  /** Live challenges carry their failures; three strike one out; expired ones are past expiry. */
  ghost predicate Lives(b: Book) {
    var h := b.history;
    && h.strikes.Keys == h.put.Keys
    && (forall id | id in b.store.challenges && id in h.put ::
          && b.store.challenges[id].id == id && b.store.challenges[id].expiresAt == h.put[id]
          && b.store.challenges[id].attempts == StrikesOf(h, id))
    && (forall id | id in h.put :: StrikesOf(h, id) <= 3 && (StrikesOf(h, id) == 3 <==> id in h.struck))
    && (forall id | id in h.expired && id in h.put :: h.put[id] < h.clock)
  }

  ghost predicate ChallengesOk(b: Book) {
    Partitioned(b) && Lives(b)
  }

  /** Nothing about challenges differs, and no time was lost. */
  predicate SameChallenges(b: Book, b': Book) {
    var h, h' := b.history, b'.history;
    && b'.store.challenges == b.store.challenges
    && h'.put == h.put && h'.strikes == h.strikes
    && h'.consumed == h.consumed && h'.struck == h.struck && h'.expired == h.expired
    && h.clock <= h'.clock
  }

  lemma ChallengesFrame(b: Book, b': Book)
    requires ChallengesOk(b) && SameChallenges(b, b')
    ensures ChallengesOk(b')
  {
  }

  lemma SweptKeeps(b: Book, now: Instant)
    requires ChallengesOk(b) && b.history.clock <= now
    ensures ChallengesOk(Swept(b, now))
  {
  }

  lemma PutKeeps(b: Book, c: Challenge, now: Instant)
    requires ChallengesOk(b) && b.history.clock <= now && c.id !in b.history.put && c.attempts == 0
    ensures ChallengesOk(PutIn(b, c, now))
  {
    SweptKeeps(b, now);
    var s, s' := Swept(b, now), PutIn(b, c, now);
    assert c.id !in s.store.challenges && c.id !in s.history.expired;
  }

  lemma EarlyStrikeKeeps(b: Book, id: string)
    requires ChallengesOk(b) && id in b.store.challenges && b.store.challenges[id].attempts < 2
    ensures ChallengesOk(StruckAt(b, id))
  {
    var b' := StruckAt(b, id);
    var c := b.store.challenges[id];
    assert b'.store.challenges == b.store.challenges[id := c.(attempts := c.attempts + 1)];
    assert b'.history == b.history.(strikes := b.history.strikes[id := StrikesOf(b.history, id) + 1]);
    assert Partitioned(b');
    assert forall k ::
        StrikesOf(b'.history, k) == if k == id then StrikesOf(b.history, id) + 1 else StrikesOf(b.history, k);
  }

  lemma ThirdStrikeKeeps(b: Book, id: string)
    requires ChallengesOk(b) && id in b.store.challenges && b.store.challenges[id].attempts >= 2
    ensures ChallengesOk(StruckAt(b, id))
  {
    var b' := StruckAt(b, id);
    assert b'.store.challenges == b.store.challenges - {id};
    assert b'.history.struck == b.history.struck + {id};
    assert Partitioned(b');
    assert forall k ::
        StrikesOf(b'.history, k) == if k == id then StrikesOf(b.history, id) + 1 else StrikesOf(b.history, k);
  }

  lemma StruckKeeps(b: Book, id: string)
    requires ChallengesOk(b)
    ensures ChallengesOk(StruckAt(b, id))
  {
    if id in b.store.challenges {
      if b.store.challenges[id].attempts + 1 >= 3 {
        ThirdStrikeKeeps(b, id);
      } else {
        EarlyStrikeKeeps(b, id);
      }
    }
  }

  lemma ConsumedKeeps(b: Book, id: string)
    requires ChallengesOk(b) && id in b.store.challenges
    ensures ChallengesOk(ConsumedAt(b, id))
  {
  }

  // ---- Tokens ----------------------------------------------------------------------------

  /** Spent tokens were minted, and the store remembers each until it has expired. */
  ghost predicate TokensOk(b: Book) {
    var h := b.history;
    && (forall jti | jti in h.minted :: h.minted[jti].jti == jti)
    && h.spent <= h.minted.Keys
    && b.store.spent.Keys <= h.spent
    && (forall jti | jti in h.spent && jti in h.minted ::
          if jti in b.store.spent then b.store.spent[jti] == Expiry(h.minted[jti]) else Expiry(h.minted[jti]) < h.clock)
  }

  predicate SameTokens(b: Book, b': Book) {
    && b'.store.spent == b.store.spent && b'.history.minted == b.history.minted
    && b'.history.spent == b.history.spent && b.history.clock <= b'.history.clock
  }

  lemma TokensFrame(b: Book, b': Book)
    requires TokensOk(b) && SameTokens(b, b')
    ensures TokensOk(b')
  {
  }

  lemma MintedKeeps(b: Book, c: Token.Claims)
    requires TokensOk(b) && c.jti !in b.history.minted
    ensures TokensOk(MintedInto(b, c))
  {
  }

  lemma SweptKeepsTokens(b: Book, now: Instant)
    requires TokensOk(b) && b.history.clock <= now
    ensures TokensOk(Swept(b, now))
  {
  }

  /** A token that succeeds again does so past its expiry. */
  lemma SpentKeeps(b: Book, c: Token.Claims, now: Instant)
    requires TokensOk(b) && b.history.clock <= now && c.jti in b.history.minted && b.history.minted[c.jti] == c
    ensures TokensOk(SpentAt(b, c, now))
    ensures SpentAt(b, c, now).history.again > b.history.again ==> now > Expiry(c)
  {
    SweptKeepsTokens(b, now);
  }

  // ---- Counters --------------------------------------------------------------------------

  /** `tokens`, `poses` and `replies`: what the handler at work still has to book. */
  ghost predicate Counted(b: Book, tokens: nat, poses: nat, replies: nat) {
    var h, s := b.history, b.stats;
    && s.challenges == s.allowed + s.pow + s.interactive + s.blocked + h.undecided
    && |h.minted| + h.lostTokens + tokens == s.allowed + |h.consumed|
    && |h.put| + h.lostChallenges + poses == s.pow + s.interactive
    && s.verifySuccess == |h.spent| + h.again
    && s.verifySuccess + s.verifyFailure + replies == h.siteRequests
    && s.replays <= s.verifyFailure
    && s.challenges + s.rateLimited + h.siteRequests <= s.requests
  }

  ghost predicate Balanced(b: Book) {
    ChallengesOk(b) && TokensOk(b) && Counted(b, 0, 0, 0)
  }

  lemma GrantedKeeps(b: Book, siteKey: string, action: string, hostname: string, ipBind: string,
                     kind: string, score: int, ttl: int, jti: Option<string>, now: Instant)
    requires ChallengesOk(b) && TokensOk(b) && Counted(b, 1, 0, 0) && FreshJti(b, jti)
    ensures Balanced(Granted(b, siteKey, action, hostname, ipBind, kind, score, ttl, jti, now))
  {
    hide ChallengesOk, TokensOk;
    var b' := Granted(b, siteKey, action, hostname, ipBind, kind, score, ttl, jti, now);
    ChallengesFrame(b, b');
    if jti.Some? {
      MintedKeeps(b, b'.history.minted[jti.value]);
      assert b'.history.minted.Keys == b.history.minted.Keys + {jti.value};
    } else {
      TokensFrame(b, b');
    }
  }

  lemma SweepAwayKeeps(b: Book, now: Instant)
    ensures SweepAway(b, now) == b.history.(clock := now, expired := SweepAway(b, now).expired)
  {
  }

  lemma PutCounts(b: Book, c: Challenge, now: Instant)
    requires Counted(b, 0, 1, 0) && c.id !in b.history.put
    ensures Counted(PutIn(b, c, now), 0, 0, 0)
  {
    hide SweepAway;
    var put := b.history.put;
    assert put[c.id := c.expiresAt].Keys == put.Keys + {c.id};
    assert |put[c.id := c.expiresAt]| == |put| + 1;
    assert SweepAway(b, now) == b.history.(clock := now, expired := SweepAway(b, now).expired) by {
      SweepAwayKeeps(b, now);
    }
  }

  lemma PutKeepsTokens(b: Book, c: Challenge, now: Instant)
    requires TokensOk(b) && b.history.clock <= now
    ensures TokensOk(PutIn(b, c, now))
  {
    hide TokensOk;
    SweptKeepsTokens(b, now);
    TokensFrame(Swept(b, now), PutIn(b, c, now));
  }

  lemma PutBalances(b: Book, c: Challenge, now: Instant)
    requires ChallengesOk(b) && TokensOk(b) && Counted(b, 0, 1, 0)
    requires b.history.clock <= now && c.id !in b.history.put && c.attempts == 0
    ensures Balanced(PutIn(b, c, now))
  {
    hide ChallengesOk, TokensOk, Counted, PutIn;
    PutKeeps(b, c, now);
    PutKeepsTokens(b, c, now);
    PutCounts(b, c, now);
  }

  lemma PosedKeeps(b: Book, kind: Kind, site: Site, req: IssueRequest, ipBind: string, scored: Scored,
                   draw: Option<(string, string)>, acted: Instant, stored: Instant)
    requires ChallengesOk(b) && TokensOk(b) && Counted(b, 0, 1, 0) && FreshId(b, draw)
    requires b.history.clock <= stored && !kind.OtherKind?
    ensures Balanced(Posed(b, kind, site, req, ipBind, scored, draw, acted, stored))
  {
    hide NormalizeHostname, ChallengesOk, TokensOk, PutIn;
    var b' := Posed(b, kind, site, req, ipBind, scored, draw, acted, stored);
    if draw.Some? {
      var c := New(kind, site.key, req.action, NormalizeHostname(req.hostname), req.sessionId, ipBind,
                   scored.score, scored.tags, site.challengeTtlSeconds * SECOND, draw.value.0, draw.value.1,
                   acted).value;
      PutBalances(b, c, stored);
    } else {
      ChallengesFrame(b, b');
      TokensFrame(b, b');
    }
  }

  lemma DecidedKeeps(setup: Setup, b: Book, site: Site, req: IssueRequest, scored: Scored, draws: Draws,
                     acted: Instant, stored: Instant)
    requires Balanced(b) && b.history.clock <= acted <= stored
    requires b.stats.challenges + b.stats.rateLimited + b.history.siteRequests < b.stats.requests
    requires FreshJti(b, draws.jti) && FreshId(b, draws.challenge)
    ensures Balanced(Decided(setup, b, site, req, scored, draws, acted, stored))
  {
    hide NormalizeHostname, IpBinding, Granted, Posed, ChallengesOk, TokensOk;
    var s := b.stats.(challenges := b.stats.challenges + 1);
    var ipBind := IpBinding(setup, site, req.ip);
    forall b' | SameChallenges(b, b') && SameTokens(b, b')
      ensures ChallengesOk(b') && TokensOk(b')
    {
      ChallengesFrame(b, b');
      TokensFrame(b, b');
    }
    match scored.decision
    case Some(Allow) =>
      GrantedKeeps(Until(b, acted).(stats := s.(allowed := s.allowed + 1)), site.key, req.action,
                   NormalizeHostname(req.hostname), ipBind, "passive", scored.score,
                   site.tokenTtlSeconds * SECOND, draws.jti, acted);
    case Some(Pow) =>
      PosedKeeps(b.(stats := s.(pow := s.pow + 1)), PowKind, site, req, ipBind, scored, draws.challenge, acted, stored);
    case Some(Interactive) =>
      PosedKeeps(b.(stats := s.(interactive := s.interactive + 1)), InteractiveKind, site, req, ipBind, scored,
                 draws.challenge, acted, stored);
    case _ =>
  }

  /** Steps that leave challenges, tokens and the sums alone. */
  lemma QuietKeeps(b: Book, b': Book)
    requires Balanced(b) && SameChallenges(b, b') && SameTokens(b, b')
    requires b'.history == b.history.(clock := b'.history.clock, siteRequests := b'.history.siteRequests)
    requires b'.history.siteRequests - b.history.siteRequests == b'.stats.verifyFailure - b.stats.verifyFailure >= 0
    requires b'.stats == b.stats.(requests := b'.stats.requests, rateLimited := b'.stats.rateLimited,
                                  verifyFailure := b'.stats.verifyFailure)
    requires b'.stats.requests - b.stats.requests
               >= b'.stats.rateLimited - b.stats.rateLimited + b'.stats.verifyFailure - b.stats.verifyFailure
    ensures Balanced(b')
  {
    hide ChallengesOk, TokensOk;
    ChallengesFrame(b, b');
    TokensFrame(b, b');
  }

  lemma AfterIssueKeeps(setup: Setup, b: Book, req: Option<IssueRequest>, scored: Scored, draws: Draws,
                        now: Instant, acted: Instant, stored: Instant)
    requires Balanced(b) && b.history.clock <= now <= acted <= stored && FreshJti(b, draws.jti)
    requires FreshId(b, draws.challenge)
    ensures Balanced(AfterIssue(setup, b, req, scored, draws, now, acted, stored))
  {
    hide AdmitIssue, Decided, RateKey, ChallengesOk, TokensOk;
    var b' := Received(b, now);
    QuietKeeps(b, b');
    if req.Some? && AdmitIssue(setup, req.value).Ok? {
      var site := AdmitIssue(setup, req.value).value;
      var metered := b'.(store := Store.Rate(b'.store, RateKey(setup, site, req.value), MINUTE, now));
      QuietKeeps(b', metered);
      DecidedKeeps(setup, metered, site, req.value, scored, draws, acted, stored);
      QuietKeeps(b, metered.(stats := metered.stats.(rateLimited := metered.stats.rateLimited + 1)));
    }
  }

  lemma LiveIsUnconsumed(b: Book, id: string)
    requires ChallengesOk(b) && id in b.store.challenges
    ensures |b.history.consumed + {id}| == |b.history.consumed| + 1
  {
  }

  lemma PassedKeeps(b: Book, id: string, c: Challenge, site: Site, jti: Option<string>, now: Instant)
    requires Balanced(b) && FreshJti(b, jti) && b.history.clock <= now
    ensures Balanced(Passed(b, id, c, site, jti, now))
  {
    hide Granted, ChallengesOk, TokensOk;
    if id in b.store.challenges {
      var b' := Until(ConsumedAt(b, id), now);
      ConsumedKeeps(b, id);
      ChallengesFrame(ConsumedAt(b, id), b');
      TokensFrame(b, b');
      LiveIsUnconsumed(b, id);
      GrantedKeeps(b', c.siteKey, c.action, c.hostname, c.ipBind, KindText(c.kind), c.riskScore,
                   site.tokenTtlSeconds * SECOND, jti, now);
    }
  }

  lemma SweptBalances(b: Book, now: Instant)
    requires Balanced(b) && b.history.clock <= now
    ensures Balanced(Swept(b, now))
  {
    hide ChallengesOk, TokensOk;
    SweptKeeps(b, now);
    SweptKeepsTokens(b, now);
  }

  lemma LiveIsPut(b: Book, id: string)
    requires ChallengesOk(b)
    ensures id in b.store.challenges ==> id in b.history.put
  {
  }

  lemma StruckBalances(b: Book, id: string)
    requires Balanced(b)
    ensures Balanced(StruckAt(b, id))
  {
    hide ChallengesOk, TokensOk;
    StruckKeeps(b, id);
    TokensFrame(b, StruckAt(b, id));
    assert id in b.store.challenges ==> id in b.history.put by { LiveIsPut(b, id); }
    if id in b.store.challenges {
      assert StruckAt(b, id).history.put == b.history.put;
    }
  }

  lemma SweptMintsNothing(b: Book, now: Instant)
    ensures Swept(b, now).history.minted == b.history.minted && Swept(b, now).history.clock == now
  {
  }

  lemma UntilBalances(b: Book, now: Instant)
    requires Balanced(b) && b.history.clock <= now
    ensures Balanced(Until(b, now))
  {
    hide ChallengesOk, TokensOk;
    QuietKeeps(b, Until(b, now));
  }

  lemma ReceivedBalances(b: Book, now: Instant)
    requires Balanced(b) && b.history.clock <= now
    ensures Balanced(Received(b, now))
  {
    hide ChallengesOk, TokensOk;
    QuietKeeps(b, Received(b, now));
  }

  lemma AfterVerifyKeeps(setup: Setup, b: Book, req: VerifyRequest, jti: Option<string>,
                         now: Instant, checked: Instant, later: Instant, minted: Instant)
    requires Balanced(b) && b.history.clock <= now <= later <= minted && FreshJti(b, jti)
    ensures Balanced(AfterVerify(setup, b, req, jti, now, checked, later, minted))
  {
    hide Judge, Passed, StruckAt, IdText, Balanced, Swept;
    var b' := Received(b, now);
    ReceivedBalances(b, now);
    if IdText(req.id) {
      SweptBalances(b', now);
      var found := Swept(b', now);
      assert FreshJti(found, jti) && found.history.clock == now by { SweptMintsNothing(b', now); }
      UntilBalances(found, later);
      var judged := Until(found, later);
      var c := Store.Lookup(found.store, req.id);
      if c.Some? {
        match Judge(setup, c.value, req, checked, later)
        case Pass(site) => PassedKeeps(judged, req.id, c.value, site, jti, minted);
        case Strike(_) => StruckBalances(judged, req.id);
        case Turned(_) =>
      }
    }
  }

  lemma SpentCounts(b: Book, c: Token.Claims, now: Instant)
    requires Counted(b, 0, 0, 1)
    ensures Counted(SpentAt(b, c, now), 0, 0, 0)
  {
    hide SweepAway, Store.Sweep, Store.Spend;
    assert SweepAway(b, now) == b.history.(clock := now, expired := SweepAway(b, now).expired) by {
      SweepAwayKeeps(b, now);
    }
    if c.jti !in Store.Sweep(b.store, now).spent {
      var spent := b.history.spent;
      assert SpentAt(b, c, now).history.spent == spent + {c.jti};
      assert |spent + {c.jti}| == |spent| + if c.jti in spent then 0 else 1 by {
        if c.jti in spent {
          assert spent + {c.jti} == spent;
        }
      }
    }
  }

  lemma SpentBalances(b: Book, c: Token.Claims, now: Instant)
    requires ChallengesOk(b) && TokensOk(b) && Counted(b, 0, 0, 1)
    requires b.history.clock <= now && c.jti in b.history.minted && b.history.minted[c.jti] == c
    ensures Balanced(SpentAt(b, c, now))
    ensures SpentAt(b, c, now).history.again > b.history.again ==> now > Expiry(c)
  {
    hide ChallengesOk, TokensOk, Counted;
    SpentKeeps(b, c, now);
    SpentCounts(b, c, now);
    SweptKeeps(b, now);
    ChallengesFrame(Swept(b, now), SpentAt(b, c, now));
  }

  lemma PresentedOwesAReply(b: Book, now: Instant)
    requires Balanced(b) && b.history.clock <= now
    ensures ChallengesOk(Presented(b, now)) && TokensOk(Presented(b, now)) && Counted(Presented(b, now), 0, 0, 1)
  {
    hide ChallengesOk, TokensOk;
    ChallengesFrame(b, Presented(b, now));
    TokensFrame(b, Presented(b, now));
  }

  lemma InTimeIsUnexpired(c: Token.Claims, now: Instant)
    requires Token.InTime(c, now)
    ensures now < Expiry(c)
  {
  }

  lemma RefusedBalances(b: Book, b': Book)
    requires ChallengesOk(b) && TokensOk(b) && Counted(b, 0, 0, 1)
    requires b' == b.(stats := b.stats.(verifyFailure := b.stats.verifyFailure + 1))
    ensures Balanced(b')
  {
    hide ChallengesOk, TokensOk;
    ChallengesFrame(b, b');
    TokensFrame(b, b');
  }

  lemma AgainGrows(b: Book, c: Token.Claims, now: Instant)
    ensures SpentAt(b, c, now).history.again >= b.history.again
  {
  }

  lemma MintedUnderTheirIds(b: Book)
    requires TokensOk(b)
    ensures forall jti | jti in b.history.minted :: b.history.minted[jti].jti == jti
  {
  }

  lemma AfterSiteVerifyKeeps(setup: Setup, b: Book, req: Option<SiteRequest>, owner: Option<Site>, now: Instant,
                             later: Instant)
    requires setup.Sound() && Balanced(b) && b.history.clock <= now <= later
    requires req.Some? ==> OwnsSecret(setup, req.value, owner) && Unforged(setup, b.history.minted, req.value.response)
    ensures var b' := AfterSiteVerify(setup, b, req, owner, now, later);
            Balanced(b') && (later == now ==> b'.history.again == b.history.again)
  {
    hide CheckSite, Unforged, OwnsSecret, Certified, ChallengesOk, TokensOk, SpentAt, Counted, Token.InTime;
    var b' := Presented(b, now);
    PresentedOwesAReply(b, now);
    if req.None? || CheckSite(setup, req.value, owner, now).Err? {
      RefusedBalances(b', AfterSiteVerify(setup, b, req, owner, now, later));
    } else {
      MintedUnderTheirIds(b);
      AcceptedWasMinted(setup, b.history.minted, req.value, owner, now);
      var c := CheckSite(setup, req.value, owner, now).value;
      SpentBalances(b', c, later);
      InTimeIsUnexpired(c, now);
      AgainGrows(b', c, later);
    }
  }

  lemma OpeningBalances()
    ensures Balanced(OPENING)
  {
  }

  lemma {:induction false} EveryRunBalances(setup: Setup, run: seq<Call>)
    requires setup.Sound() && Run(setup, run).Some?
    ensures Balanced(Run(setup, run).value)
  {
    hide Balanced, AfterIssue, AfterVerify, AfterSiteVerify, Unforged, OwnsSecret;
    if run == [] {
      OpeningBalances();
    } else {
      var before := run[..|run| - 1];
      EveryRunBalances(setup, before);
      var b := Run(setup, before).value;
      match run[|run| - 1]
      case IssueCall(req, scored, draws, now, acted, stored) =>
        AfterIssueKeeps(setup, b, req, scored, draws, now, acted, stored);
      case VerifyCall(req, jti, now, checked, later, minted) =>
        AfterVerifyKeeps(setup, b, req, jti, now, checked, later, minted);
      case SiteCall(req, owner, now, later) => AfterSiteVerifyKeeps(setup, b, req, owner, now, later);
    }
  }

  // ---- What the books say ------------------------------------------------------------------

  lemma DisjointSum<T>(a: set<T>, b: set<T>, c: set<T>, d: set<T>, all: set<T>)
    requires a !! b !! c !! d && all == a + b + c + d
    ensures |all| == |a| + |b| + |c| + |d|
  {
    assert |a + b| == |a| + |b|;
    assert |a + b + c| == |a + b| + |c|;
    assert |a + b + c + d| == |a + b + c| + |d|;
  }

  lemma PartitionSums(b: Book)
    requires Partitioned(b)
    ensures b.history.put.Keys == b.store.challenges.Keys + b.history.consumed + b.history.struck + b.history.expired
    ensures |b.history.put| == |b.store.challenges| + |b.history.consumed| + |b.history.struck| + |b.history.expired|
  {
    var h, live := b.history, b.store.challenges.Keys;
    assert live !! h.consumed && live !! h.struck && live !! h.expired;
    assert h.consumed !! h.struck && h.consumed !! h.expired && h.struck !! h.expired;
    assert |b.store.challenges| == |live| && |h.put| == |h.put.Keys|;
    hide Partitioned;
    DisjointSum(live, h.consumed, h.struck, h.expired, h.put.Keys);
  }

  /**
   Every challenge ever put is live, consumed, struck out or expired, and the numbers add
   up: struck ones had three failures recorded, the others fewer, and expired ones are
   past their expiry.
   */
  lemma ChallengesAreConserved(setup: Setup, run: seq<Call>)
    requires setup.Sound() && Run(setup, run).Some?
    ensures var b := Run(setup, run).value; var h := b.history;
            && |h.put| == |b.store.challenges| + |h.consumed| + |h.struck| + |h.expired|
            && h.put.Keys == b.store.challenges.Keys + h.consumed + h.struck + h.expired
            && (forall id | id in h.put :: StrikesOf(h, id) <= 3 && (StrikesOf(h, id) == 3 <==> id in h.struck))
            && (forall id | id in h.expired :: id in h.put && h.put[id] < h.clock)
  {
    hide Run, TokensOk, Counted;
    EveryRunBalances(setup, run);
    PartitionSums(Run(setup, run).value);
  }

  /** Every random draw succeeded, and every score came with a decision. */
  predicate NothingLost(h: History) {
    h.lostTokens == 0 && h.lostChallenges == 0 && h.undecided == 0
  }

  /**
   The statistics, the tokens and the challenges account for each other: decisions by kind,
   challenges put for each pow and interactive decision, and a token for each allow
   decision and each consumed challenge.
   */
  lemma DecisionsAreConserved(setup: Setup, run: seq<Call>)
    requires setup.Sound() && Run(setup, run).Some?
    ensures var b := Run(setup, run).value; var h, s := b.history, b.stats;
            && s.challenges == s.allowed + s.pow + s.interactive + s.blocked + h.undecided
            && |h.minted| + h.lostTokens == s.allowed + |h.consumed|
            && |h.put| + h.lostChallenges == s.pow + s.interactive
            && (NothingLost(h) ==>
                  && s.challenges == s.allowed + s.pow + s.interactive + s.blocked
                  && |h.minted| == s.allowed + |h.consumed|
                  && |h.put| == s.pow + s.interactive)
            && s.challenges + s.rateLimited + h.siteRequests <= s.requests
  {
    hide Run, TokensOk, ChallengesOk;
    EveryRunBalances(setup, run);
  }

  /** Site verification spends the token on the reading it checked it with. */
  predicate OneReading(run: seq<Call>) {
    forall i | 0 <= i < |run| && run[i].SiteCall? :: run[i].now == run[i].later
  }

  /** One more request, and nothing that belongs to site verification. */
  predicate OnlyReceived(b: Book, b': Book) {
    && b'.stats.requests == b.stats.requests + 1
    && b'.history.siteRequests == b.history.siteRequests && b'.history.again == b.history.again
  }

  lemma IssueOnlyReceives(setup: Setup, b: Book, req: Option<IssueRequest>, scored: Scored, draws: Draws,
                          now: Instant, acted: Instant, stored: Instant)
    ensures OnlyReceived(b, AfterIssue(setup, b, req, scored, draws, now, acted, stored))
  {
    hide AdmitIssue, RateKey, IpBinding, NormalizeHostname, New;
  }

  lemma VerifyOnlyReceives(setup: Setup, b: Book, req: VerifyRequest, jti: Option<string>,
                           now: Instant, checked: Instant, later: Instant, minted: Instant)
    ensures OnlyReceived(b, AfterVerify(setup, b, req, jti, now, checked, later, minted))
  {
    hide Judge, IdText;
  }

  lemma {:induction false} OneReadingNeverAgain(setup: Setup, run: seq<Call>)
    requires setup.Sound() && Run(setup, run).Some? && OneReading(run)
    ensures Run(setup, run).value.history.again == 0
  {
    hide Balanced, AfterIssue, AfterVerify, AfterSiteVerify, Unforged, OwnsSecret;
    if run != [] {
      var before := run[..|run| - 1];
      assert OneReading(before);
      OneReadingNeverAgain(setup, before);
      EveryRunBalances(setup, before);
      var b := Run(setup, before).value;
      match run[|run| - 1]
      case IssueCall(req, scored, draws, now, acted, stored) =>
        IssueOnlyReceives(setup, b, req, scored, draws, now, acted, stored);
      case VerifyCall(req, jti, now, checked, later, minted) =>
        VerifyOnlyReceives(setup, b, req, jti, now, checked, later, minted);
      case SiteCall(req, owner, now, later) => AfterSiteVerifyKeeps(setup, b, req, owner, now, later);
    }
  }

  function SiteCalls(run: seq<Call>): nat {
    if run == [] then 0 else SiteCalls(run[..|run| - 1]) + if run[|run| - 1].SiteCall? then 1 else 0
  }

  /** The request counter is the number of requests handled. */
  lemma {:induction false} RequestsAreTheCalls(setup: Setup, run: seq<Call>)
    requires Run(setup, run).Some?
    ensures Run(setup, run).value.stats.requests == |run|
    ensures Run(setup, run).value.history.siteRequests == SiteCalls(run)
  {
    hide AfterIssue, AfterVerify, CheckSite, Unforged, OwnsSecret;
    if run != [] {
      var before := run[..|run| - 1];
      RequestsAreTheCalls(setup, before);
      var b := Run(setup, before).value;
      match run[|run| - 1]
      case IssueCall(req, scored, draws, now, acted, stored) =>
        IssueOnlyReceives(setup, b, req, scored, draws, now, acted, stored);
      case VerifyCall(req, jti, now, checked, later, minted) =>
        VerifyOnlyReceives(setup, b, req, jti, now, checked, later, minted);
      case SiteCall(req, owner, now, later) =>
    }
  }

  /**
   Every site verification is answered once, replays are failures, and successes exceed
   the distinct tokens that ever succeeded only by repeats: with a single clock reading per
   site verification there are none, and never more successes than tokens.
   */
  lemma SuccessesAreConserved(setup: Setup, run: seq<Call>)
    requires setup.Sound() && Run(setup, run).Some?
    ensures var b := Run(setup, run).value; var h, s := b.history, b.stats;
            && s.requests == |run|
            && s.verifySuccess + s.verifyFailure == h.siteRequests == SiteCalls(run)
            && s.replays <= s.verifyFailure
            && s.verifySuccess == |h.spent| + h.again
            && h.spent <= h.minted.Keys
            && (OneReading(run) ==> s.verifySuccess == |h.spent| <= |h.minted|)
  {
    hide Run, ChallengesOk;
    EveryRunBalances(setup, run);
    RequestsAreTheCalls(setup, run);
    var h := Run(setup, run).value.history;
    SubsetSize(h.spent, h.minted.Keys);
    if OneReading(run) {
      OneReadingNeverAgain(setup, run);
    }
  }
}
