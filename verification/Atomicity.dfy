/**
 Handlers that run one after another are a special case of handlers that interleave:
 every run of the books is matched by a run of the step system, request by request. So
 what is known of all interleavings is known of the server's own requests.
 */
module Atomicity {
  import opened Wrappers
  import opened Clock
  import opened ChallengeModel
  import opened Hostnames
  import opened Sites
  import opened RiskModel
  import opened Challenges
  import opened Api
  import A = Agreement
  import G = Guarantees
  import L = Ledger
  import P = Protocol
  import Store
  import Token

  // ---- Matching ----------------------------------------------------------------------------

  /** Books and step system agree on all they share; requests so far have numbers below `n`. */
  ghost predicate Matches(b: L.Book, s: P.State, n: nat) {
    && s.store == b.store && s.minted == b.history.minted
    && s.put == b.history.put.Keys && s.challengeOf.Keys == b.history.put.Keys
    && s.consumed.Keys == b.history.consumed
    && |s.successes| == b.stats.verifySuccess
    && (forall k | 0 <= k < |s.successes| :: s.successes[k].claims.jti in b.history.spent)
    && (forall jti | jti in b.history.spent :: G.Succeeded(s, jti))
    && s.clock <= b.history.clock
    && forall rid | rid in s.threads :: rid < n
  }

  /** The issue that an issuing request amounts to. */
  ghost predicate IssuedBy(setup: Setup, c: L.Call, i: P.Issue) {
    && c.IssueCall? && c.issue.Some? && AdmitIssue(setup, c.issue.value).Ok?
    && c.scored.decision.Some? && c.scored.decision.value != Block
    && var site, d := AdmitIssue(setup, c.issue.value).value, c.scored.decision.value;
    if d == Allow then i == P.NewIssue(setup, site, c.issue.value, c.scored.score, "passive", None)
    else c.draws.challenge.Some? &&
         i == P.NewIssue(setup, site, c.issue.value, c.scored.score, KindText(KindOf(d)),
                         Some(c.draws.challenge.value.0))
  }

  /** The challenge that an issuing request poses, built from its draws and its clock reading. */
  ghost function PosedBy(setup: Setup, c: L.Call): Option<Challenge> {
    if c.IssueCall? && c.issue.Some? && AdmitIssue(setup, c.issue.value).Ok? &&
       c.scored.decision.Some? && c.draws.challenge.Some? then
      var req, site := c.issue.value, AdmitIssue(setup, c.issue.value).value;
      New(KindOf(c.scored.decision.value), site.key, req.action, NormalizeHostname(req.hostname), req.sessionId,
          IpBinding(setup, site, req.ip), c.scored.score, c.scored.tags, site.challengeTtlSeconds * SECOND,
          c.draws.challenge.value.0, c.draws.challenge.value.1, c.acted)
    else None
  }

  /** What was posed for an issue is what its request poses. */
  ghost predicate PosedFor(setup: Setup, s: P.State, c: L.Call, i: P.Issue) {
    i.challengeId.Some? ==> i.challengeId.value in s.posed && PosedBy(setup, c) == Some(s.posed[i.challengeId.value])
  }

  /** Request `v` consumed challenge `id`, after the request that posed it. */
  ghost predicate SolvedAt(s: P.State, calls: seq<L.Call>, id: string, v: nat) {
    && v < |calls| && calls[v].VerifyCall? && calls[v].verify.id == id
    && id in s.consumed
    && s.consumed[id] == P.Solve(s.consumed[id].c, calls[v].verify, calls[v].checked, calls[v].later)
    && id in s.challengeOf && s.challengeOf[id] < v
  }

  /**
   Request `m` was the success `su`, after the request its token was issued to and the one that
   solved its challenge.
   */
  ghost predicate WonAt(setup: Setup, s: P.State, calls: seq<L.Call>, m: nat, su: P.Success) {
    && m < |calls| && calls[m].SiteCall? && calls[m].present == Some(su.req) && calls[m].owner == Some(su.site)
    && calls[m].later == su.at && CheckSite(setup, su.req, Some(su.site), calls[m].now) == Ok(su.claims)
    && su.claims.jti in s.origin && s.origin[su.claims.jti] in s.issued && s.origin[su.claims.jti] < m
    && var i := s.issued[s.origin[su.claims.jti]];
    i.challengeId.Some? ==> exists v | 0 <= v < m :: SolvedAt(s, calls, i.challengeId.value, v)
  }

  ghost predicate IssuesTraced(setup: Setup, s: P.State, calls: seq<L.Call>) {
    forall rid | rid in s.issued ::
      rid < |calls| && IssuedBy(setup, calls[rid], s.issued[rid]) && PosedFor(setup, s, calls[rid], s.issued[rid])
  }

  ghost predicate SolvesTraced(s: P.State, calls: seq<L.Call>) {
    forall id | id in s.consumed :: exists v | 0 <= v < |calls| :: SolvedAt(s, calls, id, v)
  }

  ghost predicate WinsTraced(setup: Setup, s: P.State, calls: seq<L.Call>, wins: seq<nat>) {
    && |wins| == |s.successes|
    && forall k | 0 <= k < |wins| :: WonAt(setup, s, calls, wins[k], s.successes[k])
  }

  /** Every event of the run is one of the server's requests; `wins` are the successful ones. */
  ghost predicate Traced(setup: Setup, s: P.State, calls: seq<L.Call>, wins: seq<nat>) {
    IssuesTraced(setup, s, calls) && SolvesTraced(s, calls) && WinsTraced(setup, s, calls, wins)
  }

  /** A run of the step system that matches the books. */
  ghost predicate Simulates(setup: Setup, run: seq<P.Action>, b: L.Book, calls: seq<L.Call>, wins: seq<nat>) {
    && P.Run(setup, run).Some? && Matches(b, P.Run(setup, run).value, |calls|)
    && Traced(setup, P.Run(setup, run).value, calls, wins)
  }

  /** Draws are not empty, and a known decision is the one the thresholds make of the score. */
  predicate Regular(setup: Setup, c: L.Call) {
    match c
    case IssueCall(req, scored, draws, _, _, _) =>
      && (draws.jti.Some? ==> draws.jti.value != "") && (draws.challenge.Some? ==> draws.challenge.value.1 != "")
      && (req.Some? && req.value.siteKey in setup.sites && scored.decision.Some? ==>
            scored.decision.value == Decide(scored.score, setup.sites[req.value.siteKey].thresholds))
    case VerifyCall(_, jti, _, _, _, _) => jti.Some? ==> jti.value != ""
    case SiteCall(_, _, _, _) => true
  }

  // ---- Frames --------------------------------------------------------------------------------

  /** What tracing looks at has only grown, and solves and successes are as before. */
  ghost predicate Grows(s: P.State, s': P.State) {
    && (forall rid | rid in s.issued :: rid in s'.issued && s'.issued[rid] == s.issued[rid])
    && (forall id | id in s.challengeOf :: id in s'.challengeOf && s'.challengeOf[id] == s.challengeOf[id])
    && (forall id | id in s.posed :: id in s'.posed && s'.posed[id] == s.posed[id])
    && (forall id | id in s.consumed :: id in s'.consumed && s'.consumed[id] == s.consumed[id])
    && (forall jti | jti in s.origin :: jti in s'.origin && s'.origin[jti] == s.origin[jti])
  }

  lemma SolvedFrame(s: P.State, s': P.State, calls: seq<L.Call>, id: string, v: nat)
    requires SolvedAt(s, calls, id, v) && Grows(s, s')
    ensures SolvedAt(s', calls, id, v)
  {
  }

  lemma WonFrame(setup: Setup, s: P.State, s': P.State, calls: seq<L.Call>, m: nat, su: P.Success)
    requires WonAt(setup, s, calls, m, su) && Grows(s, s')
    ensures WonAt(setup, s', calls, m, su)
  {
    hide CheckSite, SolvedAt;
    var i := s.issued[s.origin[su.claims.jti]];
    if i.challengeId.Some? {
      var v :| 0 <= v < m && SolvedAt(s, calls, i.challengeId.value, v);
      SolvedFrame(s, s', calls, i.challengeId.value, v);
    }
  }

  lemma WinsFrame(setup: Setup, s: P.State, s': P.State, calls: seq<L.Call>, wins: seq<nat>)
    requires WinsTraced(setup, s, calls, wins) && Grows(s, s') && s'.successes == s.successes
    ensures WinsTraced(setup, s', calls, wins)
  {
    hide WonAt, Grows;
    forall k | 0 <= k < |wins|
      ensures WonAt(setup, s', calls, wins[k], s'.successes[k])
    {
      WonFrame(setup, s, s', calls, wins[k], s.successes[k]);
    }
  }

  lemma PosedFrame(setup: Setup, s: P.State, s': P.State, calls: seq<L.Call>)
    requires IssuesTraced(setup, s, calls) && Grows(s, s')
    ensures forall rid | rid in s.issued :: PosedFor(setup, s', calls[rid], s.issued[rid])
  {
    hide PosedBy, IssuedBy;
  }

  lemma SolvesFrame(s: P.State, s': P.State, calls: seq<L.Call>)
    requires SolvesTraced(s, calls) && Grows(s, s') && s'.consumed == s.consumed
    ensures SolvesTraced(s', calls)
  {
    hide SolvedAt, Grows;
    forall id | id in s'.consumed
      ensures exists v | 0 <= v < |calls| :: SolvedAt(s', calls, id, v)
    {
      var v :| 0 <= v < |calls| && SolvedAt(s, calls, id, v);
      SolvedFrame(s, s', calls, id, v);
    }
  }

  /** A step that issues, solves and wins nothing. */
  lemma QuietTrace(setup: Setup, s: P.State, s': P.State, calls: seq<L.Call>, wins: seq<nat>)
    requires Traced(setup, s, calls, wins) && Grows(s, s')
    requires s'.issued == s.issued && s'.consumed == s.consumed && s'.successes == s.successes
    ensures Traced(setup, s', calls, wins)
  {
    hide IssuedBy, PosedFor, SolvesTraced, WinsTraced, Grows;
    PosedFrame(setup, s, s', calls);
    SolvesFrame(s, s', calls);
    WinsFrame(setup, s, s', calls, wins);
  }

  lemma IssueTrace(setup: Setup, s: P.State, s': P.State, calls: seq<L.Call>, wins: seq<nat>, rid: nat, i: P.Issue)
    requires Traced(setup, s, calls, wins) && Grows(s, s')
    requires rid < |calls| && IssuedBy(setup, calls[rid], i) && PosedFor(setup, s', calls[rid], i)
    requires s'.issued == s.issued[rid := i] && s'.consumed == s.consumed && s'.successes == s.successes
    ensures Traced(setup, s', calls, wins)
  {
    hide IssuedBy, PosedFor, SolvesTraced, WinsTraced, Grows;
    PosedFrame(setup, s, s', calls);
    SolvesFrame(s, s', calls);
    WinsFrame(setup, s, s', calls, wins);
  }

  lemma SolveTrace(setup: Setup, s: P.State, s': P.State, calls: seq<L.Call>, wins: seq<nat>, id: string, v: nat)
    requires Traced(setup, s, calls, wins) && Grows(s, s')
    requires s'.issued == s.issued && s'.consumed.Keys == s.consumed.Keys + {id} && s'.successes == s.successes
    requires SolvedAt(s', calls, id, v)
    ensures Traced(setup, s', calls, wins)
  {
    assert v < |calls|;
    hide IssuedBy, PosedFor, WinsTraced, SolvedAt;
    PosedFrame(setup, s, s', calls);
    WinsFrame(setup, s, s', calls, wins);
    forall id' | id' in s'.consumed
      ensures exists v' | 0 <= v' < |calls| :: SolvedAt(s', calls, id', v')
    {
      if id' != id {
        var v' :| 0 <= v' < |calls| && SolvedAt(s, calls, id', v');
        SolvedFrame(s, s', calls, id', v');
      }
    }
  }

  lemma WinTrace(setup: Setup, s: P.State, s': P.State, calls: seq<L.Call>, wins: seq<nat>, m: nat, su: P.Success)
    requires Traced(setup, s, calls, wins) && Grows(s, s')
    requires s'.issued == s.issued && s'.consumed == s.consumed && s'.successes == s.successes + [su]
    requires WonAt(setup, s, calls, m, su)
    ensures Traced(setup, s', calls, wins + [m])
  {
    hide IssuedBy, PosedFor, SolvesTraced, WonAt, Grows;
    PosedFrame(setup, s, s', calls);
    SolvesFrame(s, s', calls);
    WonFrame(setup, s, s', calls, m, su);
    forall k | 0 <= k < |wins| + 1
      ensures WonAt(setup, s', calls, (wins + [m])[k], s'.successes[k])
    {
      if k < |wins| {
        WonFrame(setup, s, s', calls, wins[k], s.successes[k]);
      }
    }
  }

  lemma SolvedLater(s: P.State, calls: seq<L.Call>, c: L.Call, id: string, v: nat)
    requires SolvedAt(s, calls, id, v)
    ensures SolvedAt(s, calls + [c], id, v)
  {
  }

  lemma WonLater(setup: Setup, s: P.State, calls: seq<L.Call>, c: L.Call, m: nat, su: P.Success)
    requires WonAt(setup, s, calls, m, su)
    ensures WonAt(setup, s, calls + [c], m, su)
  {
    hide CheckSite, SolvedAt;
    var i := s.issued[s.origin[su.claims.jti]];
    if i.challengeId.Some? {
      var v :| 0 <= v < m && SolvedAt(s, calls, i.challengeId.value, v);
      SolvedLater(s, calls, c, i.challengeId.value, v);
    }
  }

  /** One more request arrives: what was traced stays traced. */
  lemma Arrives(setup: Setup, run: seq<P.Action>, b: L.Book, calls: seq<L.Call>, wins: seq<nat>, c: L.Call)
    requires Simulates(setup, run, b, calls, wins)
    ensures Simulates(setup, run, b, calls + [c], wins)
  {
    hide P.Run, IssuedBy, PosedFor, SolvedAt, WonAt;
    var s := P.Run(setup, run).value;
    forall id | id in s.consumed
      ensures exists v | 0 <= v < |calls + [c]| :: SolvedAt(s, calls + [c], id, v)
    {
      var v :| 0 <= v < |calls| && SolvedAt(s, calls, id, v);
      SolvedLater(s, calls, c, id, v);
    }
    forall k | 0 <= k < |wins|
      ensures WonAt(setup, s, calls + [c], wins[k], s.successes[k])
    {
      WonLater(setup, s, calls, c, wins[k], s.successes[k]);
    }
  }

  // ---- Issuing ---------------------------------------------------------------------------

  lemma {:induction false} LongerThanAll(s: set<string>) returns (t: string)
    ensures forall x | x in s :: |x| < |t|
  {
    if s == {} {
      t := "";
    } else {
      var x :| x in s;
      var u := LongerThanAll(s - {x});
      t := u + x + ".";
    }
  }

  lemma OriginGrows(setup: Setup, run: seq<P.Action>)
    requires setup.Sound() && P.Run(setup, run).Some?
    ensures var s := P.Run(setup, run).value; s.origin.Keys == s.minted.Keys
  {
    hide P.Run, A.IssuesOk, A.ThreadsOk, A.StoredOk, A.ConsumedOk, A.SpentOk;
    A.EveryRunKeeps(setup, run);
  }

  lemma MintSimulated(setup: Setup, run: seq<P.Action>, b: L.Book, calls: seq<L.Call>, wins: seq<nat>,
                      i: P.Issue, site: Site, jti: Option<string>, now: Instant, n: nat)
    returns (run': seq<P.Action>)
    requires setup.Sound() && Simulates(setup, run, b, calls, wins) && n < |calls|
    requires P.At(P.Run(setup, run).value, n) == P.Granted(i)
    requires i.siteKey == site.key && site.key in setup.sites && setup.sites[site.key] == site
    requires b.history.clock == now && L.FreshJti(b, jti) && (jti.Some? ==> jti.value != "")
    ensures Simulates(setup, run', L.Granted(b, i.siteKey, i.action, i.hostname, i.ipBind, i.kind, i.score,
                                             site.tokenTtlSeconds * SECOND, jti, now), calls, wins)
  {
    hide Traced, P.Run;
    run' := run;
    if jti.Some? {
      OriginGrows(setup, run);
      var a := P.IssueMint(n, jti.value, now);
      P.Extend(setup, run, a);
      run' := run + [a];
      QuietTrace(setup, P.Run(setup, run).value, P.Run(setup, run').value, calls, wins);
    }
  }

  lemma SameSuccesses(s: P.State, s': P.State, spent: set<string>)
    requires s'.successes == s.successes && forall jti | jti in spent :: G.Succeeded(s, jti)
    ensures forall jti | jti in spent :: G.Succeeded(s', jti)
  {
  }

  lemma PutSimulated(setup: Setup, run: seq<P.Action>, b: L.Book, s: P.State, calls: seq<L.Call>, wins: seq<nat>,
                     c: Challenge, now: Instant, n: nat)
    returns (run': seq<P.Action>)
    requires P.Run(setup, run) == Some(s.(challengeOf := s.challengeOf[c.id := n])) && n < |calls|
    requires Matches(b, s, |calls|) && P.At(s, n) == P.Putting(c) && b.history.clock <= now
    requires Traced(setup, s.(challengeOf := s.challengeOf[c.id := n]), calls, wins)
    ensures Simulates(setup, run', L.PutIn(b, c, now), calls, wins)
  {
    hide Store.Put, Store.Sweep, Traced, P.Run;
    var a := P.IssuePut(n, now);
    P.Extend(setup, run, a);
    run' := run + [a];
    assert L.PutIn(b, c, now).history.put.Keys == b.history.put.Keys + {c.id};
    SameSuccesses(s, P.Run(setup, run').value, b.history.spent);
    QuietTrace(setup, P.Run(setup, run).value, P.Run(setup, run').value, calls, wins);
  }

  predicate DueAt(setup: Setup, b: L.Book, site: Site, req: IssueRequest, now: Instant) {
    site.key == req.siteKey && site.key in setup.sites && setup.sites[site.key] == site && b.history.clock == now
  }

  /** The request at work, number `n`, has been let in and metered. */
  ghost predicate AtDecision(setup: Setup, run: seq<P.Action>, calls: seq<L.Call>, site: Site, req: IssueRequest,
                             scored: L.Scored, draws: L.Draws, acted: Instant, n: nat) {
    && P.Run(setup, run).Some? && P.At(P.Run(setup, run).value, n) == P.Deciding(site, req)
    && |calls| == n + 1 && calls[n].IssueCall? && calls[n].issue == Some(req)
    && calls[n].scored == scored && calls[n].draws == draws && calls[n].acted == acted
    && AdmitIssue(setup, req) == Ok(site) && Regular(setup, calls[n])
  }

  lemma UnissuedAtDecision(setup: Setup, run: seq<P.Action>, n: nat)
    requires setup.Sound() && P.Run(setup, run).Some? && P.At(P.Run(setup, run).value, n).Deciding?
    ensures n !in P.Run(setup, run).value.issued
  {
    hide P.Run, A.IssuesOk, A.StoredOk, A.TokensOk, A.ConsumedOk, A.SpentOk;
    A.EveryRunKeeps(setup, run);
    A.ThreadAt(setup, P.Run(setup, run).value, n);
  }

  lemma FreshIsUnposed(setup: Setup, run: seq<P.Action>, id: string)
    requires setup.Sound() && P.Run(setup, run).Some? && id !in P.Run(setup, run).value.challengeOf
    ensures id !in P.Run(setup, run).value.posed
  {
    A.EveryRunKeeps(setup, run);
    A.FreshIdIsUnposed(setup, P.Run(setup, run).value, id);
  }

  /** Neither allowing nor blocking takes a challenge id; the step system wants one that is fresh all the same. */
  lemma BlockSimulated(setup: Setup, run: seq<P.Action>, b: L.Book, calls: seq<L.Call>, wins: seq<nat>, site: Site,
                       req: IssueRequest, scored: L.Scored, draws: L.Draws, now: Instant, acted: Instant,
                       stored: Instant, n: nat)
    returns (run': seq<P.Action>)
    requires Simulates(setup, run, b, calls, wins) && AtDecision(setup, run, calls, site, req, scored, draws, acted, n)
    requires DueAt(setup, b, site, req, now) && scored.decision == Some(Block)
    ensures Simulates(setup, run', L.Decided(setup, b, site, req, scored, draws, acted, stored), calls, wins)
  {
    hide NormalizeHostname, IpBinding, AdmitIssue, Traced, P.Run;
    var s := P.Run(setup, run).value;
    var id := LongerThanAll(s.challengeOf.Keys);
    var a := P.IssueDecide(n, scored.score, scored.tags, id, "-", now);
    P.Extend(setup, run, a);
    run' := run + [a];
    QuietTrace(setup, s, P.Run(setup, run').value, calls, wins);
  }

  lemma Waiting(setup: Setup, run: seq<P.Action>, b: L.Book, calls: seq<L.Call>, wins: seq<nat>, now: Instant)
    requires Simulates(setup, run, b, calls, wins) && b.history.clock <= now
    ensures Simulates(setup, run, L.Until(b, now), calls, wins)
  {
    hide Traced, P.Run;
  }

  /** The decision to allow, short of minting the token. */
  lemma AllowDecided(setup: Setup, run: seq<P.Action>, b: L.Book, calls: seq<L.Call>, wins: seq<nat>, site: Site,
                     req: IssueRequest, scored: L.Scored, draws: L.Draws, now: Instant, acted: Instant, n: nat)
    returns (run': seq<P.Action>)
    requires setup.Sound() && Simulates(setup, run, b, calls, wins)
    requires AtDecision(setup, run, calls, site, req, scored, draws, acted, n)
    requires DueAt(setup, b, site, req, now) && scored.decision == Some(Allow)
    ensures var stats := b.stats.(challenges := b.stats.challenges + 1, allowed := b.stats.allowed + 1);
            Simulates(setup, run', b.(stats := stats), calls, wins)
    ensures P.At(P.Run(setup, run').value, n) == P.Granted(P.NewIssue(setup, site, req, scored.score, "passive", None))
  {
    hide NormalizeHostname, IpBinding, AdmitIssue, Traced, P.Run;
    var s := P.Run(setup, run).value;
    UnissuedAtDecision(setup, run, n);
    var id := LongerThanAll(s.challengeOf.Keys);
    var a := P.IssueDecide(n, scored.score, scored.tags, id, "-", now);
    P.Extend(setup, run, a);
    run' := run + [a];
    IssueTrace(setup, s, P.Run(setup, run').value, calls, wins, n,
               P.NewIssue(setup, site, req, scored.score, "passive", None));
  }

  lemma AllowSimulated(setup: Setup, run: seq<P.Action>, b: L.Book, calls: seq<L.Call>, wins: seq<nat>, site: Site,
                       req: IssueRequest, scored: L.Scored, draws: L.Draws, now: Instant, acted: Instant,
                       stored: Instant, n: nat)
    returns (run': seq<P.Action>)
    requires setup.Sound() && Simulates(setup, run, b, calls, wins)
    requires AtDecision(setup, run, calls, site, req, scored, draws, acted, n)
    requires DueAt(setup, b, site, req, now) && now <= acted && scored.decision == Some(Allow)
    requires L.FreshJti(b, draws.jti)
    ensures Simulates(setup, run', L.Decided(setup, b, site, req, scored, draws, acted, stored), calls, wins)
  {
    hide NormalizeHostname, IpBinding, AdmitIssue, L.Granted, Simulates, P.Run, P.At;
    var i := P.NewIssue(setup, site, req, scored.score, "passive", None);
    var b' := b.(stats := b.stats.(challenges := b.stats.challenges + 1, allowed := b.stats.allowed + 1));
    run' := AllowDecided(setup, run, b, calls, wins, site, req, scored, draws, now, acted, n);
    Waiting(setup, run', b', calls, wins, acted);
    run' := MintSimulated(setup, run', L.Until(b', acted), calls, wins, i, site, draws.jti, acted, n);
  }

  lemma PutReadsItsOwnClock(b: L.Book, c: Challenge, before: Instant, now: Instant)
    ensures L.PutIn(L.Until(b, before), c, now) == L.PutIn(b, c, now)
  {
  }

  lemma PosedSimulated(setup: Setup, run: seq<P.Action>, b: L.Book, calls: seq<L.Call>, wins: seq<nat>, site: Site,
                       req: IssueRequest, scored: L.Scored, draws: L.Draws, now: Instant, acted: Instant,
                       stored: Instant, n: nat)
    returns (run': seq<P.Action>)
    requires setup.Sound() && Simulates(setup, run, b, calls, wins)
    requires AtDecision(setup, run, calls, site, req, scored, draws, acted, n)
    requires DueAt(setup, b, site, req, now) && now <= acted <= stored
    requires scored.decision == Some(RiskModel.Pow) || scored.decision == Some(Interactive)
    requires draws.challenge.Some? && L.FreshId(b, draws.challenge)
    ensures Simulates(setup, run', L.Decided(setup, b, site, req, scored, draws, acted, stored), calls, wins)
  {
    hide NormalizeHostname, IpBinding, AdmitIssue, L.PutIn, Traced, P.Run;
    var s := P.Run(setup, run).value;
    UnissuedAtDecision(setup, run, n);
    var (id, seed) := draws.challenge.value;
    FreshIsUnposed(setup, run, id);
    var a := P.IssueDecide(n, scored.score, scored.tags, id, seed, acted);
    P.Extend(setup, run, a);
    var c := P.NewChallenge(setup, site, req, scored.score, scored.tags, id, seed, acted);
    var s' := P.Do(setup, s, a);
    IssueTrace(setup, s, s', calls, wins, n, s'.issued[n]);
    var stats := L.Decided(setup, b, site, req, scored, draws.(challenge := None), acted, stored).stats;
    PutReadsItsOwnClock(b.(stats := stats), c, acted, stored);
    run' := PutSimulated(setup, run + [a], L.Until(b.(stats := stats), acted), s'.(challengeOf := s.challengeOf), calls,
                         wins, c, stored, n);
  }

  /** What is left is to act on the decision. */
  lemma DecisionSimulated(setup: Setup, run: seq<P.Action>, b: L.Book, calls: seq<L.Call>, wins: seq<nat>, site: Site,
                          req: IssueRequest, scored: L.Scored, draws: L.Draws, now: Instant, acted: Instant,
                          stored: Instant, n: nat)
    returns (run': seq<P.Action>)
    requires setup.Sound() && Simulates(setup, run, b, calls, wins)
    requires AtDecision(setup, run, calls, site, req, scored, draws, acted, n)
    requires DueAt(setup, b, site, req, now) && now <= acted <= stored
    requires L.FreshJti(b, draws.jti) && L.FreshId(b, draws.challenge)
    ensures Simulates(setup, run', L.Decided(setup, b, site, req, scored, draws, acted, stored), calls, wins)
  {
    hide NormalizeHostname, IpBinding, AdmitIssue, L.PutIn, Traced, P.Run;
    run' := run;
    if scored.decision == Some(Allow) {
      run' := AllowSimulated(setup, run, b, calls, wins, site, req, scored, draws, now, acted, stored, n);
    } else if scored.decision == Some(Block) {
      run' := BlockSimulated(setup, run, b, calls, wins, site, req, scored, draws, now, acted, stored, n);
    } else if scored.decision.Some? && draws.challenge.Some? {
      run' := PosedSimulated(setup, run, b, calls, wins, site, req, scored, draws, now, acted, stored, n);
    }
  }

  lemma AdmittedSite(setup: Setup, r: IssueRequest)
    requires setup.Sound() && AdmitIssue(setup, r).Ok?
    ensures var site := AdmitIssue(setup, r).value;
            site.key == r.siteKey && site.key in setup.sites && setup.sites[site.key] == site
  {
  }

  lemma IssueSimulated(setup: Setup, run: seq<P.Action>, b: L.Book, before: seq<L.Call>, wins: seq<nat>, call: L.Call)
    returns (run': seq<P.Action>)
    requires setup.Sound() && Simulates(setup, run, b, before, wins) && call.IssueCall?
    requires L.Enabled(setup, b, call) && Regular(setup, call)
    ensures Simulates(setup, run', L.Do(setup, b, call), before + [call], wins)
  {
    hide L.Decided, RateKey, Store.Rate, AdmitIssue, Traced, P.Run;
    var calls, n := before + [call], |before|;
    var IssueCall(req, scored, draws, now, acted, stored) := call;
    Arrives(setup, run, b, before, wins, call);
    run' := run;
    if req.Some? && AdmitIssue(setup, req.value).Ok? {
      var site := AdmitIssue(setup, req.value).value;
      AdmittedSite(setup, req.value);
      assert n !in P.Run(setup, run).value.threads;
      var a := P.IssueStart(n, req.value, now);
      P.Extend(setup, run, a);
      run' := run + [a];
      QuietTrace(setup, P.Run(setup, run).value, P.Run(setup, run').value, calls, wins);
      var b' := L.Received(b, now);
      var metered := b'.(store := Store.Rate(b'.store, RateKey(setup, site, req.value), MINUTE, now));
      if P.At(P.Run(setup, run').value, n).Deciding? {
        run' := DecisionSimulated(setup, run', metered, calls, wins, site, req.value, scored, draws, now, acted, stored,
                                  n);
      }
    }
  }

  // ---- Verifying -------------------------------------------------------------------------

  lemma SolvedSimulated(setup: Setup, run: seq<P.Action>, b: L.Book, calls: seq<L.Call>, wins: seq<nat>, c: Challenge,
                        site: Site,
                        jti: Option<string>, now: Instant, n: nat)
    returns (run': seq<P.Action>)
    requires setup.Sound() && Simulates(setup, run, b, calls, wins) && n < |calls|
    requires P.At(P.Run(setup, run).value, n) == P.Minting(c)
    requires c.siteKey in setup.sites && setup.sites[c.siteKey] == site
    requires b.history.clock == now && L.FreshJti(b, jti) && (jti.Some? ==> jti.value != "")
    ensures Simulates(setup, run', L.Granted(b, c.siteKey, c.action, c.hostname, c.ipBind, KindText(c.kind),
                                             c.riskScore, site.tokenTtlSeconds * SECOND, jti, now), calls, wins)
  {
    hide Traced, P.Run;
    run' := run;
    if jti.Some? {
      OriginGrows(setup, run);
      var m := P.VerifyMint(n, jti.value, now);
      P.Extend(setup, run, m);
      run' := run + [m];
      QuietTrace(setup, P.Run(setup, run).value, P.Run(setup, run').value, calls, wins);
    }
  }

  /** A stored challenge is stored under its id, unconsumed, and was posed by a request before this one. */
  lemma StoredWasPosed(setup: Setup, run: seq<P.Action>, calls: seq<L.Call>, id: string)
    requires setup.Sound() && P.Run(setup, run).Some? && id in P.Run(setup, run).value.store.challenges
    requires IssuesTraced(setup, P.Run(setup, run).value, calls)
    ensures var s := P.Run(setup, run).value;
            && s.store.challenges[id].id == id && id !in s.consumed
            && id in s.challengeOf && s.challengeOf[id] < |calls| && calls[s.challengeOf[id]].IssueCall?
  {
    hide P.Run, A.IssuesOk, A.ThreadsOk, A.TokensOk, A.ConsumedOk, A.SpentOk, A.Copies;
    A.EveryRunKeeps(setup, run);
  }

  lemma RedeemSimulated(setup: Setup, run: seq<P.Action>, b: L.Book, calls: seq<L.Call>, wins: seq<nat>, c: Challenge,
                        site: Site,
                        jti: Option<string>, minted: Instant, n: nat)
    returns (run': seq<P.Action>)
    requires setup.Sound() && Simulates(setup, run, b, calls, wins) && |calls| == n + 1 && calls[n].VerifyCall?
    requires P.At(P.Run(setup, run).value, n)
               == P.Consuming(c, P.Solve(c, calls[n].verify, calls[n].checked, calls[n].later))
    requires c.siteKey in setup.sites && setup.sites[c.siteKey] == site && c.id == calls[n].verify.id
    requires c.id in b.store.challenges
    requires b.history.clock <= minted && L.FreshJti(b, jti) && (jti.Some? ==> jti.value != "")
    ensures Simulates(setup, run', L.Passed(b, c.id, c, site, jti, minted), calls, wins)
  {
    hide Store.Consume, L.Granted, IssuedBy, PosedFor, WinsTraced, SolvesTraced, P.Run;
    var s := P.Run(setup, run).value;
    StoredWasPosed(setup, run, calls, c.id);
    var a := P.VerifyConsume(n);
    P.Extend(setup, run, a);
    var s' := P.Run(setup, run + [a]).value;
    assert s'.consumed.Keys == s.consumed.Keys + {c.id};
    SolveTrace(setup, s, s', calls, wins, c.id, n);
    run' := SolvedSimulated(setup, run + [a], L.Until(L.ConsumedAt(b, c.id), minted), calls, wins, c, site, jti, minted,
                            n);
  }

  lemma PassedSite(setup: Setup, c: Challenge, req: VerifyRequest, now: Instant, later: Instant)
    ensures var v := Judge(setup, c, req, now, later);
            v.Pass? ==> c.siteKey in setup.sites && v.site == setup.sites[c.siteKey]
  {
  }

  lemma JudgeSimulated(setup: Setup, run: seq<P.Action>, b: L.Book, calls: seq<L.Call>, wins: seq<nat>, c: Challenge,
                       n: nat)
    returns (run': seq<P.Action>)
    requires setup.Sound() && Simulates(setup, run, b, calls, wins) && |calls| == n + 1 && calls[n].VerifyCall?
    requires P.At(P.Run(setup, run).value, n) == P.Checking(c, calls[n].verify)
    requires P.Run(setup, run).value.clock <= calls[n].checked <= calls[n].later == b.history.clock <= calls[n].minted
    requires c.id == calls[n].verify.id && c.id in b.store.challenges && L.FreshJti(b, calls[n].jti)
    requires Regular(setup, calls[n])
    ensures var call: L.Call := calls[n];
            Simulates(setup, run', L.Judged(b, c.id, c, Judge(setup, c, call.verify, call.checked, call.later),
                                            call.jti, call.minted),
                      calls, wins)
  {
    hide L.Passed, Store.Fail, Judge, Traced, P.Run;
    var call: L.Call := calls[n];
    var VerifyCall(req, jti, _, checked, later, minted) := call;
    var a := P.VerifyJudge(n, checked, later);
    var v := Judge(setup, c, req, checked, later);
    PassedSite(setup, c, req, checked, later);
    P.Extend(setup, run, a);
    run' := run + [a];
    QuietTrace(setup, P.Run(setup, run).value, P.Run(setup, run').value, calls, wins);
    match v
    case Turned(_) =>
    case Strike(_) =>
      P.Extend(setup, run', P.VerifyStrike(n));
      QuietTrace(setup, P.Run(setup, run').value, P.Run(setup, run' + [P.VerifyStrike(n)]).value, calls, wins);
      run' := run' + [P.VerifyStrike(n)];
    case Pass(site) =>
      run' := RedeemSimulated(setup, run', b, calls, wins, c, site, jti, minted, n);
  }

  lemma VerifySimulated(setup: Setup, run: seq<P.Action>, b: L.Book, before: seq<L.Call>, wins: seq<nat>, call: L.Call)
    returns (run': seq<P.Action>)
    requires setup.Sound() && Simulates(setup, run, b, before, wins) && call.VerifyCall?
    requires L.Enabled(setup, b, call) && Regular(setup, call)
    ensures Simulates(setup, run', L.Do(setup, b, call), before + [call], wins)
  {
    hide Judge, IdText, L.Passed, L.Judged, SolvesTraced, WinsTraced, P.Run;
    var calls, n := before + [call], |before|;
    var VerifyCall(req, jti, now, checked, later, minted) := call;
    Arrives(setup, run, b, before, wins, call);
    run' := run;
    if IdText(req.id) {
      assert n !in P.Run(setup, run).value.threads;
      var a := P.VerifyRead(n, req, now);
      P.Extend(setup, run, a);
      run' := run + [a];
      QuietTrace(setup, P.Run(setup, run).value, P.Run(setup, run').value, calls, wins);
      var found := L.Swept(L.Received(b, now), now);
      var c := Store.Lookup(found.store, req.id);
      if c.Some? {
        StoredWasPosed(setup, run, calls, req.id);
        run' := JudgeSimulated(setup, run', L.Until(found, later), calls, wins, c.value, n);
      }
    }
  }

  // ---- Site verification -----------------------------------------------------------------

  lemma SpendingHasOrigin(setup: Setup, run: seq<P.Action>, n: nat)
    requires setup.Sound() && P.Run(setup, run).Some? && P.At(P.Run(setup, run).value, n).Spending?
    ensures var s := P.Run(setup, run).value;
            var jti := P.At(s, n).claims.jti;
            && jti in s.origin && s.origin[jti] in s.issued
            && (s.issued[s.origin[jti]].challengeId.Some? ==> s.issued[s.origin[jti]].challengeId.value in s.consumed)
  {
    hide P.Run, A.IssuesOk, A.ThreadsOk, A.StoredOk, A.ConsumedOk, A.SpentOk, A.Echoes;
    A.EveryRunKeeps(setup, run);
    G.SpendingWasMinted(setup, P.Run(setup, run).value, n);
  }

  /** A token about to be spent was issued, and its challenge solved, by requests before this one. */
  lemma SpendingWasIssued(setup: Setup, run: seq<P.Action>, calls: seq<L.Call>, n: nat)
    requires setup.Sound() && P.Run(setup, run).Some? && P.At(P.Run(setup, run).value, n).Spending?
    requires IssuesTraced(setup, P.Run(setup, run).value, calls) && SolvesTraced(P.Run(setup, run).value, calls)
    requires |calls| == n + 1 && calls[n].SiteCall?
    ensures var s := P.Run(setup, run).value;
            var jti := P.At(s, n).claims.jti;
            && jti in s.origin && s.origin[jti] in s.issued && s.origin[jti] < n
            && var i := s.issued[s.origin[jti]];
            i.challengeId.Some? ==> exists v | 0 <= v < n :: SolvedAt(s, calls, i.challengeId.value, v)
  {
    hide P.Run, AdmitIssue, P.NewIssue;
    SpendingHasOrigin(setup, run, n);
    var s := P.Run(setup, run).value;
    var i := s.issued[s.origin[P.At(s, n).claims.jti]];
    if i.challengeId.Some? {
      var v :| 0 <= v < |calls| && SolvedAt(s, calls, i.challengeId.value, v);
      assert v != n;
    }
  }

  lemma SpentMatches(b: L.Book, s: P.State, s': P.State, t: P.Thread, now: Instant, n: nat)
    requires Matches(b, s, n + 1) && t.Spending? && s' == P.DoSiteSpend(s, n, t, now)
    ensures Matches(L.SpentAt(b, t.claims, now), s', n + 1)
  {
    hide Store.Sweep, Store.Spend;
    var b' := L.SpentAt(b, t.claims, now);
    forall jti | jti in b'.history.spent
      ensures G.Succeeded(s', jti)
    {
      if jti in b.history.spent {
        var k :| 0 <= k < |s.successes| && s.successes[k].claims.jti == jti;
        assert s'.successes[k] == s.successes[k];
      } else {
        assert s'.successes[|s.successes|].claims.jti == jti;
      }
    }
  }

  lemma MatchedClock(b: L.Book, s: P.State, n: nat)
    requires Matches(b, s, n)
    ensures s.clock <= b.history.clock && s.minted == b.history.minted && n !in s.threads
  {
  }

  lemma SpendSimulated(setup: Setup, run: seq<P.Action>, b: L.Book, calls: seq<L.Call>, wins: seq<nat>, site: Site,
                       claims: Token.Claims, req: SiteRequest, n: nat)
    returns (run': seq<P.Action>, wins': seq<nat>)
    requires setup.Sound() && Simulates(setup, run, b, calls, wins) && |calls| == n + 1 && calls[n].SiteCall?
    requires P.At(P.Run(setup, run).value, n) == P.Spending(site, claims, req) && b.history.clock <= calls[n].later
    requires calls[n].present == Some(req) && calls[n].owner == Some(site)
    requires CheckSite(setup, req, Some(site), calls[n].now) == Ok(claims)
    ensures wins' == wins || wins' == wins + [n]
    ensures Simulates(setup, run', L.SpentAt(b, claims, calls[n].later), calls, wins')
  {
    hide Store.Sweep, Store.Spend, IssuedBy, PosedFor, SolvesTraced, WinsTraced, CheckSite, P.Run, L.SpentAt, Matches;
    var s := P.Run(setup, run).value;
    var now := calls[n].later;
    SpendingWasIssued(setup, run, calls, n);
    assert s.clock <= b.history.clock by { MatchedClock(b, s, |calls|); }
    P.Extend(setup, run, P.SiteSpend(n, now));
    run' := run + [P.SiteSpend(n, now)];
    var s' := P.Run(setup, run').value;
    SpentMatches(b, s, s', P.At(s, n), now, n);
    if s'.successes == s.successes {
      wins' := wins;
      QuietTrace(setup, s, s', calls, wins);
    } else {
      wins' := wins + [n];
      WinTrace(setup, s, s', calls, wins, n, P.Success(claims, site, req, now));
    }
  }

  lemma CheckedHasOwner(setup: Setup, req: SiteRequest, owner: Option<Site>, now: Instant)
    requires CheckSite(setup, req, owner, now).Ok?
    ensures owner.Some?
  {
  }

  lemma SiteSimulated(setup: Setup, run: seq<P.Action>, b: L.Book, before: seq<L.Call>, wins: seq<nat>, call: L.Call)
    returns (run': seq<P.Action>, wins': seq<nat>)
    requires setup.Sound() && Simulates(setup, run, b, before, wins) && call.SiteCall? && L.Enabled(setup, b, call)
    ensures wins' == wins || wins' == wins + [|before|]
    ensures Simulates(setup, run', L.Do(setup, b, call), before + [call], wins')
  {
    hide L.SpentAt, Unforged, CheckSite, OwnsSecret, Traced, P.Run;
    var calls, n := before + [call], |before|;
    var SiteCall(req, owner, now, later) := call;
    MatchedClock(b, P.Run(setup, run).value, n);
    Arrives(setup, run, b, before, wins, call);
    run', wins' := run, wins;
    if req.Some? && CheckSite(setup, req.value, owner, now).Ok? {
      CheckedHasOwner(setup, req.value, owner, now);
      var a := P.SiteStart(n, req.value, owner, now);
      P.Extend(setup, run, a);
      var claims := CheckSite(setup, req.value, owner, now).value;
      QuietTrace(setup, P.Run(setup, run).value, P.Run(setup, run + [a]).value, calls, wins);
      run', wins' := SpendSimulated(setup, run + [a], L.Presented(b, now), calls, wins, owner.value, claims, req.value,
                                    n);
    }
  }

  // ---- Runs ------------------------------------------------------------------------------

  ghost predicate AllRegular(setup: Setup, calls: seq<L.Call>) {
    forall i | 0 <= i < |calls| :: Regular(setup, calls[i])
  }

  /** The requests at which the counter of successes went up. */
  ghost function WinsOf(setup: Setup, calls: seq<L.Call>): (wins: seq<nat>)
    requires L.Run(setup, calls).Some?
    ensures forall k | 0 <= k < |wins| :: wins[k] < |calls|
    ensures forall k, l | 0 <= k < l < |wins| :: wins[k] < wins[l]
  {
    if calls == [] then []
    else
      var before := calls[..|calls| - 1];
      var was, became := L.Run(setup, before).value.stats.verifySuccess, L.Run(setup, calls).value.stats.verifySuccess;
      WinsOf(setup, before) + if became > was then [|before|] else []
  }

  lemma WinsGrow(setup: Setup, run: seq<P.Action>, b: L.Book, calls: seq<L.Call>, wins: seq<nat>)
    requires Simulates(setup, run, b, calls, wins)
    ensures |wins| == b.stats.verifySuccess
  {
    hide P.Run, IssuesTraced, SolvesTraced, WonAt;
  }

  /** Handlers that run one after another do nothing that interleaved requests could not do. */
  lemma {:induction false} AtomicRunsInterleave(setup: Setup, calls: seq<L.Call>)
    returns (run: seq<P.Action>)
    requires setup.Sound() && L.Run(setup, calls).Some? && AllRegular(setup, calls)
    ensures Simulates(setup, run, L.Run(setup, calls).value, calls, WinsOf(setup, calls))
  {
    hide L.Do, L.Enabled, Regular;
    if calls == [] {
      run := [];
    } else {
      hide Simulates;
      var before, call := calls[..|calls| - 1], calls[|calls| - 1];
      assert calls == before + [call];
      assert AllRegular(setup, before);
      run := AtomicRunsInterleave(setup, before);
      var b, wins := L.Run(setup, before).value, WinsOf(setup, before);
      WinsGrow(setup, run, b, before, wins);
      var wins' := wins;
      match call
      case IssueCall(_, _, _, _, _, _) => run := IssueSimulated(setup, run, b, before, wins, call);
      case VerifyCall(_, _, _, _, _, _) => run := VerifySimulated(setup, run, b, before, wins, call);
      case SiteCall(_, _, _, _) => run, wins' := SiteSimulated(setup, run, b, before, wins, call);
      assert L.Run(setup, calls).value == L.Do(setup, b, call);
      WinsGrow(setup, run, L.Run(setup, calls).value, calls, wins');
      assert wins' == WinsOf(setup, calls);
    }
  }
}
