/** Which requests count as failures and which pass, over the server's runs, said of the requests themselves. */
module Failures {
  import opened Wrappers
  import opened Clock
  import opened ChallengeModel
  import opened Sites
  import opened Challenges
  import opened Api
  import opened Ledger
  import opened Atomicity
  import A = Agreement
  import C = Conservation
  import P = Protocol
  import Store

  // ---- Finding a challenge ---------------------------------------------------------------

  /** Request `c` asks for `id` while the store has it, in time. */
  predicate Finds(b: Book, c: Call, id: string) {
    && c.VerifyCall? && c.verify.id == id && 1 <= |id| <= 96
    && id in b.store.challenges && c.now <= b.store.challenges[id].expiresAt
  }

  ghost predicate FailsAt(setup: Setup, b: Book, c: Call, id: string) {
    Finds(b, c, id) && Failing(setup, b.store.challenges[id], c.verify, c.checked, c.later)
  }

  ghost predicate PassesAt(setup: Setup, b: Book, c: Call, id: string) {
    Finds(b, c, id) && Passing(setup, b.store.challenges[id], c.verify, c.checked, c.later)
  }

  /** How many failures the history holds, and whether it has the challenge consumed. */
  predicate Moves(h: History, h': History, id: string, failed: bool, passed: bool) {
    && StrikesOf(h', id) == StrikesOf(h, id) + (if failed then 1 else 0)
    && (id in h'.consumed <==> id in h.consumed || passed)
  }

  // ---- One request -----------------------------------------------------------------------

  lemma PosedMoves(b: Book, kind: Kind, site: Site, req: IssueRequest, ipBind: string, scored: Scored,
                   draw: Option<(string, string)>, acted: Instant, stored: Instant, id: string)
    requires b.history.strikes.Keys == b.history.put.Keys && FreshId(b, draw)
    ensures Moves(b.history, Posed(b, kind, site, req, ipBind, scored, draw, acted, stored).history, id, false, false)
  {
  }

  lemma DecidedMoves(setup: Setup, b: Book, site: Site, req: IssueRequest, scored: Scored, draws: Draws,
                     acted: Instant, stored: Instant, id: string)
    requires b.history.strikes.Keys == b.history.put.Keys && FreshId(b, draws.challenge)
    ensures Moves(b.history, Decided(setup, b, site, req, scored, draws, acted, stored).history, id, false, false)
  {
    hide Posed, IpBinding, RiskModel.Decide;
    var s := b.stats.(challenges := b.stats.challenges + 1);
    var ipBind := IpBinding(setup, site, req.ip);
    PosedMoves(b.(stats := s.(pow := s.pow + 1)), PowKind, site, req, ipBind, scored, draws.challenge, acted, stored,
               id);
    PosedMoves(b.(stats := s.(interactive := s.interactive + 1)), InteractiveKind, site, req, ipBind, scored,
               draws.challenge, acted, stored, id);
  }

  lemma IssueMoves(setup: Setup, b: Book, req: Option<IssueRequest>, scored: Scored, draws: Draws,
                   now: Instant, acted: Instant, stored: Instant, id: string)
    requires b.history.strikes.Keys == b.history.put.Keys && FreshId(b, draws.challenge)
    ensures Moves(b.history, AfterIssue(setup, b, req, scored, draws, now, acted, stored).history, id, false, false)
  {
    hide AdmitIssue, Decided, RateKey, Store.Rate;
    var b' := Received(b, now);
    if req.Some? && AdmitIssue(setup, req.value).Ok? {
      var site := AdmitIssue(setup, req.value).value;
      var metered := b'.(store := Store.Rate(b'.store, RateKey(setup, site, req.value), MINUTE, now));
      DecidedMoves(setup, metered, site, req.value, scored, draws, acted, stored, id);
    }
  }

  lemma StrikeMoves(b: Book, struck: string, id: string)
    requires struck in b.store.challenges
    ensures Moves(b.history, StruckAt(b, struck).history, id, id == struck, false)
  {
  }

  lemma PassMoves(b: Book, passed: string, c: Challenge, site: Site, jti: Option<string>, now: Instant, id: string)
    requires passed in b.store.challenges
    ensures Moves(b.history, Passed(b, passed, c, site, jti, now).history, id, false, id == passed)
  {
  }

  ghost predicate AllIssued(s: Store.State) {
    forall id | id in s.challenges :: Issued(s.challenges[id], SearchTerms(s.challenges[id]).0)
  }

  lemma VerifyMoves(setup: Setup, b: Book, c: Call, id: string)
    requires AllIssued(b.store) && c.VerifyCall?
    ensures Moves(b.history, Do(setup, b, c).history, id, FailsAt(setup, b, c, id), PassesAt(setup, b, c, id))
  {
    hide Judge, Failing, Passing, Issued, StruckAt, Passed;
    var req, b' := c.verify, Received(b, c.now);
    if IdText(req.id) {
      var found := Swept(b', c.now);
      var judged := Until(found, c.later);
      if req.id in found.store.challenges {
        var posed := b.store.challenges[req.id];
        JudgedExactlyWhen(setup, posed, req, c.checked, c.later);
        match Judge(setup, posed, req, c.checked, c.later)
        case Turned(_) =>
        case Strike(_) => StrikeMoves(judged, req.id, id);
        case Pass(site) => PassMoves(judged, req.id, posed, site, c.jti, c.minted, id);
      }
    }
  }

  lemma SiteMoves(setup: Setup, b: Book, req: Option<SiteRequest>, owner: Option<Site>, now: Instant, later: Instant,
                  id: string)
    ensures Moves(b.history, AfterSiteVerify(setup, b, req, owner, now, later).history, id, false, false)
  {
    hide CheckSite;
  }

  lemma StepMoves(setup: Setup, b: Book, c: Call, id: string)
    requires b.history.strikes.Keys == b.history.put.Keys && AllIssued(b.store) && Enabled(setup, b, c)
    ensures Moves(b.history, Do(setup, b, c).history, id, FailsAt(setup, b, c, id), PassesAt(setup, b, c, id))
  {
    hide AfterIssue, AfterVerify, AfterSiteVerify, Moves, AllIssued, Unforged, OwnsSecret, Failing, Passing;
    match c
    case IssueCall(req, scored, draws, now, acted, stored) =>
      IssueMoves(setup, b, req, scored, draws, now, acted, stored, id);
    case VerifyCall(_, _, _, _, _, _) => VerifyMoves(setup, b, c, id);
    case SiteCall(req, owner, now, later) => SiteMoves(setup, b, req, owner, now, later, id);
  }

  // ---- Runs ------------------------------------------------------------------------------

  lemma WellPosedIsIssued(setup: Setup, s: P.State, c: Challenge)
    requires A.Genuine(s, c) && c.id in s.posed && A.WellPosed(setup, s.posed[c.id], s.issued[s.challengeOf[c.id]])
    ensures Issued(c, SearchTerms(c).0)
  {
  }

  lemma GenuineIsPosed(s: P.State, c: Challenge)
    requires A.Genuine(s, c)
    ensures c.id in s.posed && c.id in s.challengeOf && s.challengeOf[c.id] in s.issued
  {
  }

  /** Every stored challenge has the parameters issued for its kind and score. */
  lemma StoredAreIssued(setup: Setup, calls: seq<Call>)
    requires setup.Sound() && Run(setup, calls).Some? && AllRegular(setup, calls)
    ensures AllIssued(Run(setup, calls).value.store)
  {
    hide Run, P.Run, AllRegular, Traced, A.WellPosed, A.Genuine, A.ThreadsOk, A.TokensOk, A.ConsumedOk, A.SpentOk,
         Issued;
    var run := AtomicRunsInterleave(setup, calls);
    A.EveryRunKeeps(setup, run);
    var s := P.Run(setup, run).value;
    forall id | id in s.store.challenges
      ensures Issued(s.store.challenges[id], SearchTerms(s.store.challenges[id]).0)
    {
      GenuineIsPosed(s, s.store.challenges[id]);
      WellPosedIsIssued(setup, s, s.store.challenges[id]);
    }
  }

  /** What is stored is what one of the requests posed, but for the failures counted since. */
  lemma StoredWerePosed(setup: Setup, calls: seq<Call>, id: string) returns (j: nat)
    requires setup.Sound() && Run(setup, calls).Some? && AllRegular(setup, calls)
    requires id in Run(setup, calls).value.store.challenges
    ensures j < |calls|
    ensures PosedBy(setup, calls[j]) == Some(Run(setup, calls).value.store.challenges[id].(attempts := 0))
  {
    hide Run, P.Run, AllRegular, PosedBy, IssuedBy, SolvesTraced, WinsTraced, A.WellPosed, A.Copies, A.ThreadsOk,
         A.TokensOk, A.ConsumedOk, A.SpentOk, A.IssueOk;
    var run := AtomicRunsInterleave(setup, calls);
    A.EveryRunKeeps(setup, run);
    var s := P.Run(setup, run).value;
    j := s.challengeOf[id];
    assert PosedFor(setup, s, calls[j], s.issued[j]);
  }

  /** How many of the requests failed challenge `id`. */
  ghost function FailuresOf(setup: Setup, calls: seq<Call>, id: string): nat {
    if calls == [] then 0
    else
      var before := calls[..|calls| - 1];
      FailuresOf(setup, before, id) +
      if Run(setup, before).Some? && FailsAt(setup, Run(setup, before).value, calls[|calls| - 1], id) then 1 else 0
  }

  /** One of the requests passed challenge `id`. */
  ghost predicate WasPassed(setup: Setup, calls: seq<Call>, id: string) {
    exists n | 0 <= n < |calls| ::
      Run(setup, calls[..n]).Some? && PassesAt(setup, Run(setup, calls[..n]).value, calls[n], id)
  }

  lemma PassedLater(setup: Setup, calls: seq<Call>, id: string)
    requires calls != [] && Run(setup, calls).Some?
    ensures var before := calls[..|calls| - 1];
            WasPassed(setup, calls, id) <==>
              WasPassed(setup, before, id) || PassesAt(setup, Run(setup, before).value, calls[|calls| - 1], id)
  {
    hide Run, PassesAt;
    var before := calls[..|calls| - 1];
    assert forall n | 0 <= n < |before| :: calls[..n] == before[..n] && calls[n] == before[n];
    assert calls[..|before|] == before;
    RunPrefix(setup, calls, |before|);
  }

  lemma {:induction false} HistoryIsTheRequests(setup: Setup, calls: seq<Call>, id: string)
    requires setup.Sound() && Run(setup, calls).Some? && AllRegular(setup, calls)
    ensures StrikesOf(Run(setup, calls).value.history, id) == FailuresOf(setup, calls, id)
    ensures id in Run(setup, calls).value.history.consumed <==> WasPassed(setup, calls, id)
  {
    hide Do, Enabled, FailsAt, PassesAt, Regular, C.TokensOk, C.Counted, C.Partitioned, AllIssued;
    if calls != [] {
      hide WasPassed;
      var before := calls[..|calls| - 1];
      assert AllRegular(setup, before);
      HistoryIsTheRequests(setup, before, id);
      StoredAreIssued(setup, before);
      C.EveryRunBalances(setup, before);
      StepMoves(setup, Run(setup, before).value, calls[|calls| - 1], id);
      PassedLater(setup, calls, id);
    }
  }

  /**
   The failures a run has recorded of a challenge are its failing requests, never a fourth, and it was
   consumed exactly if a request passed it. With three it is gone and was not consumed; with fewer it
   is still there, attempts and all, unless it was passed or its time is over.
   */
  lemma FailuresAreRecorded(setup: Setup, calls: seq<Call>, id: string)
    requires setup.Sound() && Run(setup, calls).Some? && AllRegular(setup, calls)
    ensures var b := Run(setup, calls).value; var failures := FailuresOf(setup, calls, id);
            && StrikesOf(b.history, id) == failures <= 3
            && (id in b.history.consumed <==> WasPassed(setup, calls, id))
            && (failures == 3 ==> id !in b.store.challenges && id !in b.history.consumed)
            && (id in b.history.put && failures < 3 && !WasPassed(setup, calls, id)
                  && b.history.clock <= b.history.put[id] ==>
                  id in b.store.challenges && b.store.challenges[id].attempts == failures)
  {
    hide Run, FailuresOf, WasPassed, AllRegular, C.TokensOk, C.Counted;
    HistoryIsTheRequests(setup, calls, id);
    C.EveryRunBalances(setup, calls);
  }

  lemma {:induction false} FailuresOnlyGrow(setup: Setup, calls: seq<Call>, n: nat, id: string)
    requires n <= |calls|
    ensures FailuresOf(setup, calls[..n], id) <= FailuresOf(setup, calls, id)
    decreases |calls|
  {
    hide Run, FailsAt;
    if n < |calls| {
      var before := calls[..|calls| - 1];
      FailuresOnlyGrow(setup, before, n, id);
      assert before[..n] == calls[..n];
    } else {
      assert calls[..n] == calls;
    }
  }

  /** After three failing requests no request ever passes the challenge: it stays gone, and unconsumed. */
  lemma ThreeFailuresAreFinal(setup: Setup, calls: seq<Call>, n: nat, id: string)
    requires setup.Sound() && Run(setup, calls).Some? && AllRegular(setup, calls) && n <= |calls|
    requires FailuresOf(setup, calls[..n], id) >= 3
    ensures FailuresOf(setup, calls, id) == 3 && !WasPassed(setup, calls, id)
    ensures id !in Run(setup, calls).value.store.challenges && id !in Run(setup, calls).value.history.consumed
  {
    hide Run, FailuresOf, WasPassed, AllRegular;
    FailuresOnlyGrow(setup, calls, n, id);
    FailuresAreRecorded(setup, calls, id);
  }
}
