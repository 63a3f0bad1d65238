/** Running totals over the rules, as the two scorers accumulate them. */
module Tallies {
  import opened RiskModel

  datatype Tally = Tally(score: int, tags: seq<string>)

  /** `t` is what the first `k` rules leave. */
  ghost predicate After(rules: seq<Rule>, k: nat, t: Tally) {
    k <= |rules| && t.score == Total(rules, k) && t.tags == Tags(rules, k)
  }

  lemma Start(rules: seq<Rule>)
    ensures After(rules, 0, Tally(0, []))
  {
  }

  /** One rule of the gateway's scorer: its `add` appends unconditionally. */
  function AddIf(fired: bool, points: int, tag: string, t: Tally): Tally {
    if fired then Tally(t.score + points, t.tags + [tag]) else t
  }

  lemma AddKeepsUp(rules: seq<Rule>, k: nat, t: Tally)
    requires k < |rules| && After(rules, k, t)
    ensures After(rules, k + 1, AddIf(rules[k].fired, rules[k].points, rules[k].tag, t))
  {
  }
}

/** The gateway's own scorer (scorer.go). */
module LocalScorer {
  import opened Text
  import opened Sites
  import opened RiskModel
  import opened Tallies

  /** First occurrences, in order. */
  function Firsts(tags: seq<string>): seq<string> {
    if tags == [] then []
    else
      var before := Firsts(tags[..|tags| - 1]);
      if tags[|tags| - 1] in tags[..|tags| - 1] then before else before + [tags[|tags| - 1]]
  }

  method Unique(tags: seq<string>) returns (out: seq<string>)
    ensures out == Firsts(tags)
  {
    var seen: set<string> := {};
    out := [];
    for i := 0 to |tags|
      invariant forall t :: t in seen <==> t in tags[..i]
      invariant out == Firsts(tags[..i])
    {
      assert tags[..i + 1][..i] == tags[..i];
      if tags[i] !in seen {
        seen := seen + {tags[i]};
        out := out + [tags[i]];
      }
    }
    assert tags[..|tags|] == tags;
  }

  lemma {:induction false} FirstsOfDistinct(tags: seq<string>)
    requires forall i, j | 0 <= i < j < |tags| :: tags[i] != tags[j]
    ensures Firsts(tags) == tags
  {
    if tags != [] {
      FirstsOfDistinct(tags[..|tags| - 1]);
      assert tags == tags[..|tags| - 1] + [tags[|tags| - 1]];
    }
  }

  /** The search over the needles, which stops at the first hit. */
  method LooksAutomated(ua: string) returns (hit: bool)
    ensures hit == NamesAutomation(ua)
  {
    for i := 0 to |NEEDLES|
      invariant forall k | 0 <= k < i :: !Contains(ua, NEEDLES[k])
    {
      if Contains(ua, NEEDLES[i]) {
        return true;
      }
    }
    return false;
  }

  method AgentRules(i: RiskInput, site: Site) returns (t: Tally)
    ensures After(Rules(i, site), 3, t)
  {
    hide NamesAutomation, PlatformsDisagree, TrimSpace, ToLower, After, AddIf;
    ghost var rules := Rules(i, site);
    var c := i.client;
    t := Tally(0, []);
    Start(rules);
    AddKeepsUp(rules, 0, t);
    t := AddIf(c.webdriver, 3200, "webdriver-exposed", t);
    AddKeepsUp(rules, 1, t);
    t := AddIf(TrimSpace(i.userAgent) == "" || TrimSpace(c.userAgent) == "", 1800, "missing-user-agent", t);
    AddKeepsUp(rules, 2, t);
    var automated := LooksAutomated(ToLower(i.userAgent + " " + c.userAgent));
    t := AddIf(automated, 3000, "automation-user-agent", t);
  }

  method CapabilityRules(i: RiskInput, site: Site, t0: Tally) returns (t: Tally)
    requires After(Rules(i, site), 3, t0)
    ensures After(Rules(i, site), 6, t)
  {
    hide NamesAutomation, PlatformsDisagree, TrimSpace, ToLower, After, AddIf;
    ghost var rules := Rules(i, site);
    var c := i.client;
    t := t0;
    AddKeepsUp(rules, 3, t);
    t := AddIf(!c.secureContext, 500, "non-secure-context", t);
    AddKeepsUp(rules, 4, t);
    t := AddIf(!c.webCryptoAvailable, 500, "webcrypto-unavailable", t);
    AddKeepsUp(rules, 5, t);
    t := AddIf(!c.wasmAvailable, 300, "wasm-unavailable", t);
  }

  method ConsistencyRules(i: RiskInput, site: Site, t0: Tally) returns (t: Tally)
    requires After(Rules(i, site), 6, t0)
    ensures After(Rules(i, site), 10, t)
  {
    hide NamesAutomation, PlatformsDisagree, TrimSpace, ToLower, After, AddIf;
    ghost var rules := Rules(i, site);
    var c := i.client;
    t := t0;
    AddKeepsUp(rules, 6, t);
    t := AddIf(c.hardwareConcurrency < 0 || c.hardwareConcurrency > 256, 1000, "invalid-hardware-concurrency", t);
    AddKeepsUp(rules, 7, t);
    t := AddIf(c.screenWidthBucket < 0 || c.screenHeightBucket < 0, 800, "invalid-screen", t);
    AddKeepsUp(rules, 8, t);
    t := AddIf(Length(c.languages) == 0 && TrimSpace(i.acceptLanguage) != "", 500, "language-inconsistency", t);
    AddKeepsUp(rules, 9, t);
    t := AddIf(PlatformsDisagree(c.platform, i.secChPlatform), 1200, "platform-inconsistency", t);
  }

  method BehaviourRules(i: RiskInput, site: Site, t0: Tally) returns (t: Tally)
    requires After(Rules(i, site), 10, t0)
    ensures After(Rules(i, site), 14, t)
  {
    hide NamesAutomation, PlatformsDisagree, TrimSpace, ToLower, After, AddIf;
    ghost var rules := Rules(i, site);
    var b, rep := i.client.behavior, i.reputation;
    t := t0;
    AddKeepsUp(rules, 10, t);
    t := AddIf(b.dwellMs > 1500 && b.pointerEvents == 0 && b.keyEvents == 0, 400, "no-observed-interaction", t);
    AddKeepsUp(rules, 11, t);
    t := AddIf(b.pointerEvents > 5000 && b.dwellMs < 1000, 800, "impossible-pointer-density", t);
    AddKeepsUp(rules, 12, t);
    t := AddIf(b.pointerVariance.NaN? || b.pointerVariance.Infinite?, 1500, "invalid-behavior-metrics", t);
    AddKeepsUp(rules, 13, t);
    t := AddIf(rep.score > 0, 48 * rep.score, "network-reputation", t);
  }

  method NetworkRules(i: RiskInput, site: Site, t0: Tally) returns (t: Tally)
    requires After(Rules(i, site), 14, t0)
    ensures After(Rules(i, site), RULE_COUNT, t)
  {
    hide NamesAutomation, PlatformsDisagree, TrimSpace, ToLower, After, AddIf;
    ghost var rules := Rules(i, site);
    var rep := i.reputation;
    t := t0;
    AddKeepsUp(rules, 14, t);
    t := AddIf(rep.tor, 2200, "tor-exit", t);
    AddKeepsUp(rules, 15, t);
    t := AddIf(rep.hosting, 1000, "hosting-network", t);
    AddKeepsUp(rules, 16, t);
    t := AddIf(rep.proxy || rep.vpn, 700, "proxy-or-vpn", t);
    AddKeepsUp(rules, 17, t);
    t := AddIf(rep.abuseScore >= 80, 1200, "high-abuse-score", t);
    AddKeepsUp(rules, 18, t);
    t := AddIf(i.requestRate > Half(site.rateLimitPerMinute), 800, "elevated-request-rate", t);
  }

  /** Clamping before rounding or after it is the same. */
  lemma RoundingCommutesWithClamping(v: int)
    ensures RoundHundredths(Clamp(v, 0, 10000)) == Clamp(RoundHundredths(v), 0, 100)
  {
  }

  method Score(i: RiskInput, site: Site) returns (d: RiskDecision)
    ensures d == Assess(i, site)
  {
    var t := AgentRules(i, site);
    t := CapabilityRules(i, site, t);
    t := ConsistencyRules(i, site, t);
    t := BehaviourRules(i, site, t);
    t := NetworkRules(i, site, t);
    RuleTagsAreDistinct(i, site);
    TagsListedOnce(Rules(i, site), RULE_COUNT);
    FirstsOfDistinct(t.tags);
    var n := RoundHundredths(Clamp(t.score, 0, 10000));
    RoundingCommutesWithClamping(t.score);
    var tags := Unique(t.tags);
    d := RiskDecision(n, Decide(n, site.thresholds), tags);
  }
}

/** The risk engine (score.rs, main.rs). */
module RiskEngine {
  import opened Wrappers
  import opened Text
  import opened Sites
  import opened RiskModel
  import opened Tallies

  /** Its `add` counts every hit but lists a tag only once. */
  function AddOnce(fired: bool, points: int, tag: string, t: Tally): Tally {
    if !fired then t
    else if tag in t.tags then Tally(t.score + points, t.tags)
    else Tally(t.score + points, t.tags + [tag])
  }

  predicate HasNeedle(ua: string)
    ensures HasNeedle(ua) == NamesAutomation(ua)
  {
    exists needle | needle in NEEDLES :: Contains(ua, needle)
  }

  lemma AddOnceKeepsUp(rules: seq<Rule>, k: nat, t: Tally)
    requires k < |rules| && After(rules, k, t) && DistinctTags(rules)
    ensures After(rules, k + 1, AddOnce(rules[k].fired, rules[k].points, rules[k].tag, t))
  {
    TagsAreOfFiredRules(rules, k, rules[k].tag);
  }

  method AgentRules(i: RiskInput, site: Site) returns (t: Tally)
    ensures After(Rules(i, site), 3, t)
  {
    hide NamesAutomation, PlatformsDisagree, TrimSpace, ToLower, After, AddOnce, DistinctTags, HasNeedle;
    ghost var rules := Rules(i, site);
    RuleTagsAreDistinct(i, site);
    var c := i.client;
    t := Tally(0, []);
    Start(rules);
    AddOnceKeepsUp(rules, 0, t);
    t := AddOnce(c.webdriver, 3200, "webdriver-exposed", t);
    AddOnceKeepsUp(rules, 1, t);
    t := AddOnce(TrimSpace(i.userAgent) == "" || TrimSpace(c.userAgent) == "", 1800, "missing-user-agent", t);
    AddOnceKeepsUp(rules, 2, t);
    var ua := ToLower(i.userAgent + " " + c.userAgent);
    t := AddOnce(HasNeedle(ua), 3000, "automation-user-agent", t);
  }

  method CapabilityRules(i: RiskInput, site: Site, t0: Tally) returns (t: Tally)
    requires After(Rules(i, site), 3, t0)
    ensures After(Rules(i, site), 6, t)
  {
    hide NamesAutomation, PlatformsDisagree, TrimSpace, ToLower, After, AddOnce, DistinctTags, HasNeedle;
    ghost var rules := Rules(i, site);
    RuleTagsAreDistinct(i, site);
    var c := i.client;
    t := t0;
    AddOnceKeepsUp(rules, 3, t);
    t := AddOnce(!c.secureContext, 500, "non-secure-context", t);
    AddOnceKeepsUp(rules, 4, t);
    t := AddOnce(!c.webCryptoAvailable, 500, "webcrypto-unavailable", t);
    AddOnceKeepsUp(rules, 5, t);
    t := AddOnce(!c.wasmAvailable, 300, "wasm-unavailable", t);
  }

  method ConsistencyRules(i: RiskInput, site: Site, t0: Tally) returns (t: Tally)
    requires After(Rules(i, site), 6, t0)
    ensures After(Rules(i, site), 10, t)
  {
    hide NamesAutomation, PlatformsDisagree, TrimSpace, ToLower, After, AddOnce, DistinctTags, HasNeedle;
    ghost var rules := Rules(i, site);
    RuleTagsAreDistinct(i, site);
    var c := i.client;
    t := t0;
    AddOnceKeepsUp(rules, 6, t);
    t := AddOnce(c.hardwareConcurrency < 0 || c.hardwareConcurrency > 256, 1000, "invalid-hardware-concurrency", t);
    AddOnceKeepsUp(rules, 7, t);
    t := AddOnce(c.screenWidthBucket < 0 || c.screenHeightBucket < 0, 800, "invalid-screen", t);
    AddOnceKeepsUp(rules, 8, t);
    t := AddOnce(Length(c.languages) == 0 && TrimSpace(i.acceptLanguage) != "", 500, "language-inconsistency", t);
    AddOnceKeepsUp(rules, 9, t);
    t := AddOnce(PlatformsDisagree(c.platform, i.secChPlatform), 1200, "platform-inconsistency", t);
  }

  method BehaviourRules(i: RiskInput, site: Site, t0: Tally) returns (t: Tally)
    requires After(Rules(i, site), 10, t0)
    ensures After(Rules(i, site), 14, t)
  {
    hide NamesAutomation, PlatformsDisagree, TrimSpace, ToLower, After, AddOnce, DistinctTags, HasNeedle;
    ghost var rules := Rules(i, site);
    RuleTagsAreDistinct(i, site);
    var b, rep := i.client.behavior, i.reputation;
    t := t0;
    AddOnceKeepsUp(rules, 10, t);
    t := AddOnce(b.dwellMs > 1500 && b.pointerEvents == 0 && b.keyEvents == 0, 400, "no-observed-interaction", t);
    AddOnceKeepsUp(rules, 11, t);
    t := AddOnce(b.pointerEvents > 5000 && b.dwellMs < 1000, 800, "impossible-pointer-density", t);
    AddOnceKeepsUp(rules, 12, t);
    t := AddOnce(!b.pointerVariance.Finite?, 1500, "invalid-behavior-metrics", t);
    AddOnceKeepsUp(rules, 13, t);
    t := AddOnce(rep.score > 0, 48 * rep.score, "network-reputation", t);
  }

  method NetworkRules(i: RiskInput, site: Site, t0: Tally) returns (t: Tally)
    requires After(Rules(i, site), 14, t0)
    ensures After(Rules(i, site), RULE_COUNT, t)
  {
    hide NamesAutomation, PlatformsDisagree, TrimSpace, ToLower, After, AddOnce, DistinctTags, HasNeedle;
    ghost var rules := Rules(i, site);
    RuleTagsAreDistinct(i, site);
    var rep := i.reputation;
    t := t0;
    AddOnceKeepsUp(rules, 14, t);
    t := AddOnce(rep.tor, 2200, "tor-exit", t);
    AddOnceKeepsUp(rules, 15, t);
    t := AddOnce(rep.hosting, 1000, "hosting-network", t);
    AddOnceKeepsUp(rules, 16, t);
    t := AddOnce(rep.proxy || rep.vpn, 700, "proxy-or-vpn", t);
    AddOnceKeepsUp(rules, 17, t);
    t := AddOnce(rep.abuseScore >= 80, 1200, "high-abuse-score", t);
    AddOnceKeepsUp(rules, 18, t);
    t := AddOnce(i.requestRate > Half(site.rateLimitPerMinute), 800, "elevated-request-rate", t);
  }

  method Score(i: RiskInput, site: Site) returns (d: RiskDecision)
    ensures d == Assess(i, site)
  {
    var t := AgentRules(i, site);
    t := CapabilityRules(i, site, t);
    t := ConsistencyRules(i, site, t);
    t := BehaviourRules(i, site, t);
    t := NetworkRules(i, site, t);
    var n := Clamp(RoundHundredths(t.score), 0, 100);
    d := RiskDecision(n,
                      if n >= site.thresholds.block then Block
                      else if n >= site.thresholds.interactive then Interactive
                      else if n >= site.thresholds.pow then Pow
                      else Allow,
                      t.tags);
  }

  /** An HTTP exchange: no answer at all, or a status with a decodable body or not. */
  datatype Reply = NoReply | Status(code: int, body: Option<RiskDecision>)

  predicate RejectsThresholds(t: Thresholds) {
    t.pow < 0 || t.pow >= t.interactive || t.interactive >= t.block || t.block > 100
  }

  /**
   What the engine can be sent: JSON has no NaN or infinity, and a nil language list
   arrives as null, which the engine's decoder refuses.
   */
  predicate Decodable(i: RiskInput) {
    i.client.behavior.pointerVariance.Finite? && i.client.languages.Some?
  }

  method ScoreHandler(i: RiskInput, site: Site) returns (r: Reply)
    ensures Decodable(i) && !RejectsThresholds(site.thresholds) ==> r == Status(200, Some(Assess(i, site)))
    ensures !(Decodable(i) && !RejectsThresholds(site.thresholds)) ==> r.Status? && r.code != 200
  {
    if !Decodable(i) {
      return Status(422, None);
    }
    if RejectsThresholds(site.thresholds) {
      return Status(400, None);
    }
    var d := Score(i, site);
    r := Status(200, Some(d));
  }

  /** The engine never turns down the policy of a validated site. */
  lemma ValidatedSitesPassTheGuard(sites: seq<Site>, production: bool, k: nat)
    requires Accepted(sites, production) && k < |sites|
    ensures !RejectsThresholds(sites[k].thresholds)
  {
    AcceptedAreDistinct(sites, production, k, k);
  }
}

/** The gateway's view of the engine (remote.go). */
module RemoteScorer {
  import opened Wrappers
  import opened Sites
  import opened RiskModel
  import opened RiskEngine
  import LocalScorer

  /** A reply is lost, refused or garbled, or else it is the engine's own answer. */
  ghost predicate FromTheEngine(reply: Reply, i: RiskInput, site: Site) {
    reply.Status? && reply.code == 200 && reply.body.Some? ==> reply.body == Some(Assess(i, site))
  }

  /**
   Whichever calls fail, the remote scorer returns what the local one would have: nobody
   can tell from a decision whether the engine was up.
   */
  method Score(i: RiskInput, site: Site, reply: Reply) returns (d: RiskDecision)
    requires FromTheEngine(reply, i, site)
    ensures d == Assess(i, site)
  {
    if reply.NoReply? || reply.code != 200 || reply.body.None? {
      d := LocalScorer.Score(i, site);
      return;
    }
    d := reply.body.value;
  }

  /** The two scorers, and the remote one over any fate of the exchange, side by side. */
  method AvailabilityIsInvisible(i: RiskInput, site: Site, lost: bool)
    returns (viaLocal: RiskDecision, viaRemote: RiskDecision)
    ensures viaLocal == viaRemote == Assess(i, site)
  {
    viaLocal := LocalScorer.Score(i, site);
    var reply := NoReply;
    if !lost {
      reply := ScoreHandler(i, site);
    }
    viaRemote := Score(i, site, reply);
  }
}
