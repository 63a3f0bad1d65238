/** Who shares a rate window, and which requests the limit turns away over the server's runs. */
module Visits {
  import opened Wrappers
  import opened Clock
  import opened ChallengeModel
  import opened Hostnames
  import opened Sites
  import opened RiskModel
  import opened Challenges
  import opened Api
  import opened Ledger
  import Store
  import Token

  // ---- Rate keys -------------------------------------------------------------------------

  /** A site's requests for one action share a window exactly when they come from one network prefix. */
  lemma OneActionSharesExactlyByPrefix(setup: Setup, site: Site, r: IssueRequest, r': IssueRequest)
    requires r.action == r'.action
    ensures RateKey(setup, site, r) == RateKey(setup, site, r') <==> setup.prefix(r.ip) == setup.prefix(r'.ip)
  {
    var k, k' := RateKey(setup, site, r), RateKey(setup, site, r');
    var n, tail := |site.key| + 1, ":" + r.action;
    assert k == site.key + ":" + (setup.prefix(r.ip) + tail);
    assert k' == site.key + ":" + (setup.prefix(r'.ip) + tail);
    assert k[n..|k| - |tail|] == setup.prefix(r.ip) && k'[n..|k'| - |tail|] == setup.prefix(r'.ip);
  }

  /** Two texts put together with colons are the same only if one head continues the other. */
  lemma ColonsCut(h: string, t: string, h': string, t': string)
    requires |h| <= |h'|
    ensures h + ":" + t == h' + ":" + t' <==> (h == h' && t == t') || (h + ":" <= h' && t == h'[|h| + 1..] + ":" + t')
  {
    var x, x' := h + ":" + t, h' + ":" + t';
    if x == x' {
      assert h == x[..|h|] == x'[..|h|] == h'[..|h|];
      if |h| == |h'| {
        assert t == x[|h| + 1..] && t' == x'[|h| + 1..];
      } else {
        assert x[|h|] == ':' && x'[|h|] == h'[|h|];
        assert t == x[|h| + 1..] && x'[|h| + 1..] == h'[|h| + 1..] + ":" + t';
      }
    }
  }

  predicate Slash(p: string, i: nat) {
    && i < |p| && p[i] == '/'
    && (forall j | 0 <= j < |p| && j != i :: p[j] != '/')
    && (forall j | i < j < |p| :: '0' <= p[j] <= '9')
  }

  /** Text of an address block: one slash, and only digits after it. */
  ghost predicate IsBlock(p: string) {
    exists i | 0 <= i < |p| :: Slash(p, i)
  }

  lemma BlocksAreNotContinued(p: string, p': string)
    requires IsBlock(p) && IsBlock(p')
    ensures !(p + ":" <= p')
  {
    var i :| 0 <= i < |p| && Slash(p, i);
    var i' :| 0 <= i' < |p'| && Slash(p', i');
    assert (p + ":")[i] == '/' && (p + ":")[|p|] == ':';
  }

  /** A request without a readable prefix names in its action the whole of another's prefix and action. */
  predicate Swallows(p: string, action: string, p': string, action': string) {
    p == "" && p' != "" && p'[0] == ':' && action == p'[1..] + ":" + action'
  }

  lemma PartsCollideExactlyWhen(p: string, a: string, p': string, a': string)
    requires |p| <= |p'| && (p == "" || IsBlock(p)) && (p' == "" || IsBlock(p'))
    ensures p + ":" + a == p' + ":" + a' <==> (p == p' && a == a') || Swallows(p, a, p', a')
  {
    ColonsCut(p, a, p', a');
    if p != "" {
      BlocksAreNotContinued(p, p');
    }
  }

  lemma RateKeySplits(setup: Setup, site: Site, r: IssueRequest)
    ensures RateKey(setup, site, r) == site.key + ":" + (setup.prefix(r.ip) + ":" + r.action)
  {
  }

  /** For one site, with prefixes that are address blocks or unreadable, this is when two requests share a window. */
  lemma RateKeysCollideExactlyWhen(setup: Setup, site: Site, r: IssueRequest, r': IssueRequest)
    requires setup.prefix(r.ip) == "" || IsBlock(setup.prefix(r.ip))
    requires setup.prefix(r'.ip) == "" || IsBlock(setup.prefix(r'.ip))
    ensures var p, p' := setup.prefix(r.ip), setup.prefix(r'.ip);
            RateKey(setup, site, r) == RateKey(setup, site, r') <==>
              || (p == p' && r.action == r'.action)
              || Swallows(p, r.action, p', r'.action) || Swallows(p', r'.action, p, r.action)
  {
    var p, p' := setup.prefix(r.ip), setup.prefix(r'.ip);
    RateKeySplits(setup, site, r);
    RateKeySplits(setup, site, r');
    ColonsCut(site.key, p + ":" + r.action, site.key, p' + ":" + r'.action);
    if |p| <= |p'| {
      PartsCollideExactlyWhen(p, r.action, p', r'.action);
    } else {
      PartsCollideExactlyWhen(p', r'.action, p, r.action);
    }
  }

  /** The input on which different visitors share a window: no prefix, and an action that spells another's. */
  lemma UnreadableAddressCollides(setup: Setup, site: Site, r: IssueRequest, r': IssueRequest)
    requires setup.prefix(r.ip) == "" && r.action == ":/56:login"
    requires setup.prefix(r'.ip) == "::/56" && r'.action == "login"
    ensures ActionText(r.action) && ActionText(r'.action)
    ensures RateKey(setup, site, r) == RateKey(setup, site, r')
  {
    assert "::/56" + ":" + "login" == "" + ":" + ":/56:login";
    RateKeySplits(setup, site, r);
    RateKeySplits(setup, site, r');
  }

  /** No site key continues another one after a colon. */
  predicate SitesApart(setup: Setup) {
    forall k, k' | k in setup.sites && k' in setup.sites :: !(k + ":" <= k')
  }

  /**
   Two requests with readable addresses share a window exactly when site, prefix and action agree,
   as long as no site key continues another one after a colon.
   */
  lemma RateKeysSeparate(setup: Setup, site: Site, site': Site, r: IssueRequest, r': IssueRequest)
    requires SitesApart(setup) && site.key in setup.sites && site'.key in setup.sites
    requires IsBlock(setup.prefix(r.ip)) && IsBlock(setup.prefix(r'.ip))
    ensures RateKey(setup, site, r) == RateKey(setup, site', r') <==>
              site.key == site'.key && setup.prefix(r.ip) == setup.prefix(r'.ip) && r.action == r'.action
  {
    RateKeySplits(setup, site, r);
    RateKeySplits(setup, site', r');
    var t, t' := setup.prefix(r.ip) + ":" + r.action, setup.prefix(r'.ip) + ":" + r'.action;
    if |site.key| <= |site'.key| {
      ColonsCut(site.key, t, site'.key, t');
    } else {
      ColonsCut(site'.key, t', site.key, t);
    }
    if site.key == site'.key {
      RateKeysCollideExactlyWhen(setup, site, r, r');
    }
  }

  // ---- Visits ----------------------------------------------------------------------------

  /** An issuing request that gets as far as the rate limit. */
  ghost predicate Admitted(setup: Setup, c: Call) {
    c.IssueCall? && c.issue.Some? && AdmitIssue(setup, c.issue.value).Ok?
  }

  ghost function SiteOf(setup: Setup, c: Call): Site
    requires Admitted(setup, c)
  {
    AdmitIssue(setup, c.issue.value).value
  }

  /** The requests of a run that are counted under `key`. */
  ghost function Sharing(setup: Setup, calls: seq<Call>, key: string): (s: set<nat>)
    ensures forall i | i in s :: i < |calls|
  {
    set i: nat | i < |calls| && Admitted(setup, calls[i]) &&
                 RateKey(setup, SiteOf(setup, calls[i]), calls[i].issue.value) == key
  }

  /** The admitted requests of a run for site `siteKey` and `action`, from network `prefix`. */
  ghost function Visiting(setup: Setup, calls: seq<Call>, siteKey: string, prefix: string, action: string):
      (s: set<nat>)
    ensures forall i | i in s :: i < |calls|
  {
    set i: nat | i < |calls| && Admitted(setup, calls[i]) && SiteOf(setup, calls[i]).key == siteKey &&
                 setup.prefix(calls[i].issue.value.ip) == prefix && calls[i].issue.value.action == action
  }

  /** When the window that `mates` are in after `n` requests opened: with the first, then with each a minute later. */
  function Opening(calls: seq<Call>, mates: set<nat>, n: nat): Option<Instant>
    requires n <= |calls|
  {
    if n == 0 then None
    else
      var o := Opening(calls, mates, n - 1);
      if n - 1 in mates && (o.None? || calls[n - 1].now >= o.value + 60 * SECOND) then Some(calls[n - 1].now) else o
  }

  /** How many of `mates` came among the first `n` requests, not before `lo`. */
  function CountFrom(calls: seq<Call>, mates: set<nat>, n: nat, lo: Instant): nat
    requires n <= |calls|
  {
    if n == 0 then 0 else CountFrom(calls, mates, n - 1, lo) + if n - 1 in mates && lo <= calls[n - 1].now then 1 else 0
  }

  /** Nobody comes a minute or more after the opening of the current window. */
  lemma {:induction false} NobodyIsLate(calls: seq<Call>, mates: set<nat>, n: nat, lo: Instant)
    requires n <= |calls|
    ensures var o := Opening(calls, mates, n);
            && (forall i | i in mates && 0 <= i < n :: o.Some? && calls[i].now < o.value + MINUTE)
            && (o.None? || o.value + MINUTE <= lo ==> CountFrom(calls, mates, n, lo) == 0)
  {
    if n > 0 {
      NobodyIsLate(calls, mates, n - 1, lo);
    }
  }

  // ---- The store's windows ---------------------------------------------------------------

  /** The window kept for `key` is the one that opened, and counts its visits; if none is kept, it is long over. */
  predicate Kept(rates: map<string, Store.Window>, clock: Instant, key: string, open: Option<Instant>, count: int) {
    if key in rates then
      open == Some(rates[key].start) && rates[key].count == count && 0 <= rates[key].start <= clock
    else open.None? || clock - open.value > Store.RATE_RETENTION
  }

  /** Time has passed, and windows were dropped only when they were long over. */
  predicate Ages(b: Book, b': Book) {
    && b.history.clock <= b'.history.clock
    && (forall k | k in b'.store.rates :: k in b.store.rates && b'.store.rates[k] == b.store.rates[k])
    && (forall k | k in b.store.rates && k !in b'.store.rates ::
          b'.history.clock - b.store.rates[k].start > Store.RATE_RETENTION)
  }

  lemma AgesKeeps(b: Book, b': Book, key: string, open: Option<Instant>, count: int)
    requires Ages(b, b') && Kept(b.store.rates, b.history.clock, key, open, count)
    ensures Kept(b'.store.rates, b'.history.clock, key, open, count)
  {
  }

  lemma AgesOn(a: Book, b: Book, c: Book)
    requires Ages(a, b) && Ages(b, c)
    ensures Ages(a, c)
  {
  }

  lemma SameRatesAge(b: Book, b': Book)
    requires b'.store.rates == b.store.rates && b.history.clock <= b'.history.clock
    ensures Ages(b, b')
  {
  }

  lemma SweptAges(b: Book, now: Instant)
    requires b.history.clock <= now
    ensures Ages(b, Swept(b, now))
  {
  }

  lemma PutAges(b: Book, c: Challenge, now: Instant)
    requires b.history.clock <= now
    ensures Ages(b, PutIn(b, c, now))
  {
    SweptAges(b, now);
  }

  lemma PosedAges(b: Book, kind: Kind, site: Site, req: IssueRequest, ipBind: string, scored: Scored,
                  draw: Option<(string, string)>, acted: Instant, stored: Instant)
    requires b.history.clock <= stored
    ensures Ages(b, Posed(b, kind, site, req, ipBind, scored, draw, acted, stored))
  {
    hide PutIn, NormalizeHostname, Ages;
    var b' := Posed(b, kind, site, req, ipBind, scored, draw, acted, stored);
    if draw.Some? {
      var c := New(kind, site.key, req.action, NormalizeHostname(req.hostname), req.sessionId, ipBind, scored.score,
                   scored.tags, site.challengeTtlSeconds * SECOND, draw.value.0, draw.value.1, acted);
      if c.Some? {
        PutAges(b, c.value, stored);
      } else {
        SameRatesAge(b, b');
      }
    } else {
      SameRatesAge(b, b');
    }
  }

  lemma AgesFrom(b: Book, b0: Book, b': Book)
    requires b0.store == b.store && b.history.clock <= b0.history.clock && Ages(b0, b')
    ensures Ages(b, b')
  {
  }

  lemma DecidedAges(setup: Setup, b: Book, site: Site, req: IssueRequest, scored: Scored, draws: Draws,
                    acted: Instant, stored: Instant)
    requires b.history.clock <= acted <= stored
    ensures Ages(b, Decided(setup, b, site, req, scored, draws, acted, stored))
  {
    hide IpBinding, Posed, NormalizeHostname, Ages;
    var b' := Decided(setup, b, site, req, scored, draws, acted, stored);
    var s := b.stats.(challenges := b.stats.challenges + 1);
    var ipBind := IpBinding(setup, site, req.ip);
    match scored.decision
    case Some(Pow) =>
      var b0 := b.(stats := s.(pow := s.pow + 1));
      PosedAges(b0, PowKind, site, req, ipBind, scored, draws.challenge, acted, stored);
      AgesFrom(b, b0, b');
    case Some(Interactive) =>
      var b0 := b.(stats := s.(interactive := s.interactive + 1));
      PosedAges(b0, InteractiveKind, site, req, ipBind, scored, draws.challenge, acted, stored);
      AgesFrom(b, b0, b');
    case _ => SameRatesAge(b, b');
  }

  lemma JudgedAges(b: Book, id: string, c: Challenge, v: Verdict, jti: Option<string>, now: Instant)
    requires b.history.clock <= now
    ensures Ages(b, Judged(b, id, c, v, jti, now))
  {
    hide Ages;
    SameRatesAge(b, Judged(b, id, c, v, jti, now));
  }

  lemma SweptReads(b: Book, now: Instant)
    ensures Swept(b, now).history.clock == now
  {
  }

  lemma VerifyAges(setup: Setup, b: Book, req: VerifyRequest, jti: Option<string>,
                   now: Instant, checked: Instant, later: Instant, minted: Instant)
    requires b.history.clock <= now <= checked <= later <= minted
    ensures Ages(b, AfterVerify(setup, b, req, jti, now, checked, later, minted))
  {
    hide Judge, IdText, Judged, Ages, Swept, Store.Lookup;
    var b', after := Received(b, now), AfterVerify(setup, b, req, jti, now, checked, later, minted);
    SameRatesAge(b, b');
    if IdText(req.id) {
      var found := Swept(b', now);
      SweptAges(b', now);
      AgesOn(b, b', found);
      var c := Store.Lookup(found.store, req.id);
      if c.Some? {
        assert found.history.clock == now by { SweptReads(b', now); }
        var v := Judge(setup, c.value, req, checked, later);
        JudgedAges(Until(found, later), req.id, c.value, v, jti, minted);
        AgesFrom(found, Until(found, later), after);
        AgesOn(b, found, after);
      }
    }
  }

  lemma SpentAges(b: Book, c: Token.Claims, now: Instant)
    requires b.history.clock <= now
    ensures Ages(b, SpentAt(b, c, now))
  {
    SweptAges(b, now);
  }

  lemma SiteAges(setup: Setup, b: Book, req: Option<SiteRequest>, owner: Option<Site>, now: Instant, later: Instant)
    requires b.history.clock <= now <= later
    ensures Ages(b, AfterSiteVerify(setup, b, req, owner, now, later))
  {
    hide CheckSite, Ages, SpentAt;
    var b', after := Presented(b, now), AfterSiteVerify(setup, b, req, owner, now, later);
    if req.None? || CheckSite(setup, req.value, owner, now).Err? {
      SameRatesAge(b, after);
    } else {
      SpentAges(b', CheckSite(setup, req.value, owner, now).value, later);
      AgesFrom(b, b', after);
    }
  }

  lemma CountedInWindow(rates: map<string, Store.Window>, clock: Instant, key: string, calls: seq<Call>,
                        mates: set<nat>, n: nat)
    requires n < |calls| && n in mates && 0 <= clock <= calls[n].now
    requires var o := Opening(calls, mates, n);
             Kept(rates, clock, key, o, if o.Some? then CountFrom(calls, mates, n, o.value) else 0)
    ensures var o := Opening(calls, mates, n + 1);
            && o.Some? && o.value <= calls[n].now < o.value + 60 * SECOND
            && Store.Counted(Store.RateOf(rates, key), MINUTE, calls[n].now) ==
               Store.Window(o.value, CountFrom(calls, mates, n + 1, o.value))
            && 0 <= o.value
  {
    NobodyIsLate(calls, mates, n, calls[n].now);
  }

  // ---- Runs ------------------------------------------------------------------------------

  /** The window kept for `key` is that of the requests that share it, counted in full. */
  ghost predicate KeptFor(setup: Setup, b: Book, calls: seq<Call>, n: nat, key: string)
    requires n <= |calls|
  {
    var mates := Sharing(setup, calls, key);
    var o := Opening(calls, mates, n);
    Kept(b.store.rates, b.history.clock, key, o, if o.Some? then CountFrom(calls, mates, n, o.value) else 0)
  }

  /** The books once an admitted request has been counted. */
  ghost function CountedBook(setup: Setup, b: Book, c: Call): Book
    requires Admitted(setup, c)
  {
    var key := RateKey(setup, SiteOf(setup, c), c.issue.value);
    Received(b, c.now).(store := Store.Rate(b.store, key, MINUTE, c.now))
  }

  lemma AdmittedAges(setup: Setup, b: Book, c: Call)
    requires Admitted(setup, c) && b.history.clock <= c.now <= c.acted <= c.stored
    ensures Ages(CountedBook(setup, b, c), Do(setup, b, c))
  {
    hide AdmitIssue, RateKey, Decided, Ages, Store.Rate;
    var counted := CountedBook(setup, b, c);
    DecidedAges(setup, counted, SiteOf(setup, c), c.issue.value, c.scored, c.draws, c.acted, c.stored);
    SameRatesAge(counted, counted.(stats := counted.stats.(rateLimited := counted.stats.rateLimited + 1)));
  }

  lemma OthersAge(setup: Setup, b: Book, c: Call)
    requires !Admitted(setup, c) && Enabled(setup, b, c)
    ensures Ages(b, Do(setup, b, c))
  {
    hide AdmitIssue, AfterVerify, AfterSiteVerify, Metered, Ages, OwnsSecret, Unforged;
    match c
    case IssueCall(req, scored, draws, now, acted, stored) => SameRatesAge(b, Do(setup, b, c));
    case VerifyCall(req, jti, now, checked, later, minted) =>
      VerifyAges(setup, b, req, jti, now, checked, later, minted);
    case SiteCall(req, owner, now, later) => SiteAges(setup, b, req, owner, now, later);
  }

  lemma VisitIsCounted(setup: Setup, b: Book, calls: seq<Call>, n: nat, key: string)
    requires n < |calls| && n in Sharing(setup, calls, key) && 0 <= b.history.clock <= calls[n].now
    requires KeptFor(setup, b, calls, n, key)
    ensures KeptFor(setup, CountedBook(setup, b, calls[n]), calls, n + 1, key)
    ensures var o := Opening(calls, Sharing(setup, calls, key), n + 1);
            && o.Some? && o.value <= calls[n].now < o.value + 60 * SECOND
            && CountedBook(setup, b, calls[n]).store.rates[key].count ==
               CountFrom(calls, Sharing(setup, calls, key), n + 1, o.value)
  {
    hide AdmitIssue, RateKey, Opening, CountFrom;
    CountedInWindow(b.store.rates, b.history.clock, key, calls, Sharing(setup, calls, key), n);
  }

  lemma StrangerIsNotCounted(setup: Setup, b: Book, calls: seq<Call>, n: nat, key: string)
    requires n < |calls| && n !in Sharing(setup, calls, key) && b.history.clock <= calls[n].now
    requires KeptFor(setup, b, calls, n, key)
    ensures KeptFor(setup, b, calls, n + 1, key)
    ensures Admitted(setup, calls[n]) ==> KeptFor(setup, CountedBook(setup, b, calls[n]), calls, n + 1, key)
  {
    hide AdmitIssue, RateKey;
  }

  lemma AdmittedIsIssue(setup: Setup, c: Call)
    requires Admitted(setup, c)
    ensures c.IssueCall? && c.issue.Some?
  {
  }

  lemma StepKeepsWindow(setup: Setup, b: Book, calls: seq<Call>, n: nat, key: string)
    requires n < |calls| && 0 <= b.history.clock && Enabled(setup, b, calls[n]) && KeptFor(setup, b, calls, n, key)
    ensures KeptFor(setup, Do(setup, b, calls[n]), calls, n + 1, key)
    ensures b.history.clock <= Do(setup, b, calls[n]).history.clock
  {
    hide Do, Kept, Admitted, Opening, CountFrom, OwnsSecret, Unforged;
    var mates := Sharing(setup, calls, key);
    var c, o := calls[n], Opening(calls, mates, n + 1);
    var count := if o.Some? then CountFrom(calls, mates, n + 1, o.value) else 0;
    var from := if Admitted(setup, c) then CountedBook(setup, b, c) else b;
    if n in mates {
      VisitIsCounted(setup, b, calls, n, key);
    } else {
      StrangerIsNotCounted(setup, b, calls, n, key);
    }
    if Admitted(setup, c) {
      AdmittedIsIssue(setup, c);
      AdmittedAges(setup, b, c);
    } else {
      OthersAge(setup, b, c);
    }
    AgesKeeps(from, Do(setup, b, c), key, o, count);
  }

  lemma {:induction false} EveryWindowIsKept(setup: Setup, calls: seq<Call>, n: nat, key: string)
    requires n <= |calls| && Run(setup, calls[..n]).Some?
    ensures KeptFor(setup, Run(setup, calls[..n]).value, calls, n, key)
    ensures 0 <= Run(setup, calls[..n]).value.history.clock
  {
    if n > 0 {
      hide Do, Enabled, KeptFor;
      assert calls[..n][..n - 1] == calls[..n - 1];
      EveryWindowIsKept(setup, calls, n - 1, key);
      StepKeepsWindow(setup, Run(setup, calls[..n - 1]).value, calls, n - 1, key);
    }
  }

  /** The request was turned away by the rate limit, and nothing else came of it. */
  predicate TurnedAway(b: Book, b': Book) {
    && b'.stats == b.stats.(requests := b.stats.requests + 1, rateLimited := b.stats.rateLimited + 1)
    && b'.history == b.history.(clock := b'.history.clock)
  }

  function One(yes: bool): nat {
    if yes then 1 else 0
  }

  /** The decision counted is the one that was made. */
  predicate DecisionCounted(s: Stats, s': Stats, d: Option<Decision>) {
    && s'.challenges == s.challenges + 1
    && s'.allowed == s.allowed + One(d == Some(Allow)) && s'.blocked == s.blocked + One(d == Some(Block))
    && s'.pow == s.pow + One(d == Some(Pow)) && s'.interactive == s.interactive + One(d == Some(Interactive))
    && s' == s.(challenges := s'.challenges, allowed := s'.allowed, blocked := s'.blocked, pow := s'.pow,
                interactive := s'.interactive)
  }

  /** It got past the rate limit to a decision. */
  predicate LetOn(b: Book, b': Book, d: Option<Decision>) {
    DecisionCounted(b.stats.(requests := b.stats.requests + 1), b'.stats, d)
  }

  lemma DecidedIsCounted(setup: Setup, b: Book, site: Site, req: IssueRequest, scored: Scored, draws: Draws,
                         acted: Instant, stored: Instant)
    ensures DecisionCounted(b.stats, Decided(setup, b, site, req, scored, draws, acted, stored).stats, scored.decision)
  {
    hide IpBinding, NormalizeHostname, Store.Put, SweepAway;
  }

  lemma CountDecides(setup: Setup, b: Book, c: Call)
    requires Admitted(setup, c)
    ensures var key := RateKey(setup, SiteOf(setup, c), c.issue.value);
            if CountedBook(setup, b, c).store.rates[key].count > SiteOf(setup, c).rateLimitPerMinute
            then TurnedAway(b, Do(setup, b, c)) else LetOn(b, Do(setup, b, c), c.scored.decision)
  {
    hide AdmitIssue, RateKey, Decided, DecisionCounted, Store.Rate;
    var counted := CountedBook(setup, b, c);
    DecidedIsCounted(setup, counted, SiteOf(setup, c), c.issue.value, c.scored, c.draws, c.acted, c.stored);
  }

  /**
   An admitted request is turned away exactly when the requests that share its key and its one-minute
   window, itself included, are more than its site allows.
   */
  lemma LimitedExactlyWhen(setup: Setup, calls: seq<Call>, n: nat)
    requires n < |calls| && Run(setup, calls).Some? && Admitted(setup, calls[n])
    ensures Run(setup, calls[..n]).Some? && Run(setup, calls[..n + 1]).Some?
    ensures var site := SiteOf(setup, calls[n]);
            var mates := Sharing(setup, calls, RateKey(setup, site, calls[n].issue.value));
            var o := Opening(calls, mates, n + 1);
            var b, b' := Run(setup, calls[..n]).value, Run(setup, calls[..n + 1]).value;
            && o.Some? && o.value <= calls[n].now < o.value + 60 * SECOND
            && if CountFrom(calls, mates, n + 1, o.value) > site.rateLimitPerMinute
               then TurnedAway(b, b') else LetOn(b, b', calls[n].scored.decision)
  {
    hide Do, RateKey, AdmitIssue, KeptFor, TurnedAway, LetOn, CountedBook, Opening, CountFrom, OwnsSecret, Unforged;
    RunPrefix(setup, calls, n);
    RunPrefix(setup, calls, n + 1);
    assert calls[..n + 1][..n] == calls[..n];
    var b, key := Run(setup, calls[..n]).value, RateKey(setup, SiteOf(setup, calls[n]), calls[n].issue.value);
    EveryWindowIsKept(setup, calls, n, key);
    VisitIsCounted(setup, b, calls, n, key);
    CountDecides(setup, b, calls[n]);
  }

  // ---- Said of visitors --------------------------------------------------------------------

  /** Every admitted request comes from an address with a readable prefix. */
  ghost predicate Legible(setup: Setup, calls: seq<Call>) {
    forall i | 0 <= i < |calls| && Admitted(setup, calls[i]) :: IsBlock(setup.prefix(calls[i].issue.value.ip))
  }

  lemma AdmittedSite(setup: Setup, c: Call)
    requires setup.Sound() && Admitted(setup, c)
    ensures SiteOf(setup, c).key in setup.sites
  {
  }

  lemma SharingIsVisiting(setup: Setup, calls: seq<Call>, n: nat)
    requires setup.Sound() && SitesApart(setup) && Legible(setup, calls) && n < |calls| && Admitted(setup, calls[n])
    ensures var site, r := SiteOf(setup, calls[n]), calls[n].issue.value;
            Sharing(setup, calls, RateKey(setup, site, r)) ==
            Visiting(setup, calls, site.key, setup.prefix(r.ip), r.action)
  {
    hide AdmitIssue, RateKey, IsBlock, SitesApart, SiteOf;
    var site, r := SiteOf(setup, calls[n]), calls[n].issue.value;
    AdmittedSite(setup, calls[n]);
    forall i | 0 <= i < |calls| && Admitted(setup, calls[i])
      ensures RateKey(setup, SiteOf(setup, calls[i]), calls[i].issue.value) == RateKey(setup, site, r) <==>
                && SiteOf(setup, calls[i]).key == site.key
                && setup.prefix(calls[i].issue.value.ip) == setup.prefix(r.ip)
                && calls[i].issue.value.action == r.action
    {
      AdmittedSite(setup, calls[i]);
      RateKeysSeparate(setup, SiteOf(setup, calls[i]), site, calls[i].issue.value, r);
    }
  }

  lemma {:induction false} EarlierCountsMore(calls: seq<Call>, mates: set<nat>, n: nat, lo: Instant, lo': Instant)
    requires n <= |calls| && lo <= lo'
    ensures CountFrom(calls, mates, n, lo) >= CountFrom(calls, mates, n, lo')
  {
    if n > 0 {
      EarlierCountsMore(calls, mates, n - 1, lo, lo');
    }
  }

  /**
   Nobody is limited by strangers: when addresses are readable and sites apart, a request is turned away
   only after its site's limit of earlier requests for the same site and action, from the same prefix and
   within the last minute; and exactly when those of its window, itself included, are more than the limit.
   */
  lemma VisitorsAreLimitedByThemselves(setup: Setup, calls: seq<Call>, n: nat)
    requires setup.Sound() && SitesApart(setup) && Legible(setup, calls)
    requires n < |calls| && Run(setup, calls).Some? && Admitted(setup, calls[n])
    ensures Run(setup, calls[..n]).Some? && Run(setup, calls[..n + 1]).Some?
    ensures var site, r := SiteOf(setup, calls[n]), calls[n].issue.value;
            var own := Visiting(setup, calls, site.key, setup.prefix(r.ip), r.action);
            var o := Opening(calls, own, n + 1);
            var b, b' := Run(setup, calls[..n]).value, Run(setup, calls[..n + 1]).value;
            && o.Some? && o.value <= calls[n].now < o.value + 60 * SECOND
            && (if CountFrom(calls, own, n + 1, o.value) > site.rateLimitPerMinute
                then TurnedAway(b, b') else LetOn(b, b', calls[n].scored.decision))
            && (TurnedAway(b, b') ==>
                CountFrom(calls, own, n, calls[n].now - 60 * SECOND + 1) >= site.rateLimitPerMinute)
  {
    hide Run, RateKey, AdmitIssue, Opening, SitesApart, IsBlock, Legible;
    LimitedExactlyWhen(setup, calls, n);
    SharingIsVisiting(setup, calls, n);
    var site, r := SiteOf(setup, calls[n]), calls[n].issue.value;
    var own := Visiting(setup, calls, site.key, setup.prefix(r.ip), r.action);
    var start := Opening(calls, own, n + 1).value;
    EarlierCountsMore(calls, own, n, calls[n].now - 60 * SECOND + 1, start);
  }
}
