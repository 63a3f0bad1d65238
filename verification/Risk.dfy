/** Risk rules shared by the gateway's scorer and the risk engine, with points in hundredths. */
module RiskModel {
  import opened Wrappers
  import opened Text
  import opened Sites

  datatype Float = Finite(value: real) | NaN | Infinite

  datatype Behavior = Behavior(dwellMs: int, pointerEvents: int, keyEvents: int, pointerVariance: Float)

  /** `languages` is None for the nil slice, which is empty but encodes as JSON null. */
  datatype Client = Client(
    userAgent: string,
    platform: string,
    languages: Option<seq<string>>,
    screenWidthBucket: int,
    screenHeightBucket: int,
    hardwareConcurrency: int,
    webdriver: bool,
    secureContext: bool,
    webCryptoAvailable: bool,
    wasmAvailable: bool,
    behavior: Behavior)

  datatype Reputation = Reputation(score: int, proxy: bool, vpn: bool, tor: bool, hosting: bool, abuseScore: int)

  datatype RiskInput = RiskInput(
    userAgent: string,
    acceptLanguage: string,
    secChPlatform: string,
    requestRate: int,
    client: Client,
    reputation: Reputation)

  datatype Decision = Allow | Pow | Interactive | Block

  datatype RiskDecision = RiskDecision(score: int, decision: Decision, tags: seq<string>)

  datatype Rule = Rule(fired: bool, points: int, tag: string)

  const NEEDLES: seq<string> := ["headlesschrome", "phantomjs", "python-requests", "curl/", "wget/"]

  predicate NamesAutomation(ua: string) {
    exists i | 0 <= i < |NEEDLES| :: Contains(ua, NEEDLES[i])
  }

  function Platform(v: string): string {
    var x := ToLower(Trim(v, {'"', '\'', ' '}));
    if Contains(x, "win") then "windows"
    else if Contains(x, "mac") then "macos"
    else if Contains(x, "android") then "android"
    else if Contains(x, "ios") || Contains(x, "iphone") || Contains(x, "ipad") then "ios"
    else if Contains(x, "linux") then "linux"
    else ""
  }

  predicate PlatformsDisagree(p: string, hint: string) {
    p != "" && hint != "" && Platform(p) != "" && Platform(hint) != "" && Platform(p) != Platform(hint)
  }

  /** Integer division as Go and Rust do it: towards zero. */
  function Half(n: int): int {
    if n >= 0 then n / 2 else -(-n / 2)
  }

  function Length(l: Option<seq<string>>): nat {
    if l.Some? then |l.value| else 0
  }

  function Rules(i: RiskInput, site: Site): seq<Rule> {
    var c, b, rep := i.client, i.client.behavior, i.reputation;
    [ Rule(c.webdriver, 3200, "webdriver-exposed"),
      Rule(TrimSpace(i.userAgent) == "" || TrimSpace(c.userAgent) == "", 1800, "missing-user-agent"),
      Rule(NamesAutomation(ToLower(i.userAgent + " " + c.userAgent)), 3000, "automation-user-agent"),
      Rule(!c.secureContext, 500, "non-secure-context"),
      Rule(!c.webCryptoAvailable, 500, "webcrypto-unavailable"),
      Rule(!c.wasmAvailable, 300, "wasm-unavailable"),
      Rule(c.hardwareConcurrency < 0 || c.hardwareConcurrency > 256, 1000, "invalid-hardware-concurrency"),
      Rule(c.screenWidthBucket < 0 || c.screenHeightBucket < 0, 800, "invalid-screen"),
      Rule(Length(c.languages) == 0 && TrimSpace(i.acceptLanguage) != "", 500, "language-inconsistency"),
      Rule(PlatformsDisagree(c.platform, i.secChPlatform), 1200, "platform-inconsistency"),
      Rule(b.dwellMs > 1500 && b.pointerEvents == 0 && b.keyEvents == 0, 400, "no-observed-interaction"),
      Rule(b.pointerEvents > 5000 && b.dwellMs < 1000, 800, "impossible-pointer-density"),
      Rule(!b.pointerVariance.Finite?, 1500, "invalid-behavior-metrics"),
      Rule(rep.score > 0, 48 * rep.score, "network-reputation"),
      Rule(rep.tor, 2200, "tor-exit"),
      Rule(rep.hosting, 1000, "hosting-network"),
      Rule(rep.proxy || rep.vpn, 700, "proxy-or-vpn"),
      Rule(rep.abuseScore >= 80, 1200, "high-abuse-score"),
      Rule(i.requestRate > Half(site.rateLimitPerMinute), 800, "elevated-request-rate") ]
  }

  const RULE_COUNT: nat := 19

  /** Sum of the points of the first `k` rules that fired. */
  function Total(rules: seq<Rule>, k: nat): int
    requires k <= |rules|
  {
    if k == 0 then 0 else Total(rules, k - 1) + (if rules[k - 1].fired then rules[k - 1].points else 0)
  }

  /** Tags of the first `k` rules that fired, in rule order. */
  function Tags(rules: seq<Rule>, k: nat): seq<string>
    requires k <= |rules|
  {
    if k == 0 then [] else Tags(rules, k - 1) + (if rules[k - 1].fired then [rules[k - 1].tag] else [])
  }

  /** Nearest whole number, halves away from zero. */
  function RoundHundredths(v: int): int {
    if v >= 0 then (v + 50) / 100 else -((-v + 50) / 100)
  }

  function Clamp(v: int, lo: int, hi: int): int {
    if v < lo then lo else if v > hi then hi else v
  }

  function Decide(n: int, t: Thresholds): Decision {
    if n >= t.block then Block
    else if n >= t.interactive then Interactive
    else if n >= t.pow then Pow
    else Allow
  }

  /** The assessment both scorers are held to. */
  function Assess(i: RiskInput, site: Site): RiskDecision {
    var rules := Rules(i, site);
    var n := Clamp(RoundHundredths(Total(rules, RULE_COUNT)), 0, 100);
    RiskDecision(n, Decide(n, site.thresholds), Tags(rules, RULE_COUNT))
  }

  // ---- What the rules amount to ----------------------------------------------------

  predicate DistinctTags(rules: seq<Rule>) {
    forall i, j | 0 <= i < j < |rules| :: rules[i].tag != rules[j].tag
  }

  /** Nineteen texts that differ in length or in their first letter. */
  lemma TagTextsDiffer(t: seq<string>)
    requires t == ["webdriver-exposed", "missing-user-agent", "automation-user-agent", "non-secure-context",
                   "webcrypto-unavailable", "wasm-unavailable", "invalid-hardware-concurrency", "invalid-screen",
                   "language-inconsistency", "platform-inconsistency", "no-observed-interaction",
                   "impossible-pointer-density", "invalid-behavior-metrics", "network-reputation", "tor-exit",
                   "hosting-network", "proxy-or-vpn", "high-abuse-score", "elevated-request-rate"]
    ensures forall i, j | 0 <= i < j < |t| :: t[i] != t[j]
  {
    var key := seq(|t|, k requires 0 <= k < |t| => 1000 * |t[k]| + (if |t[k]| > 3 then t[k][0] as int else 0));
    assert forall i, j | 0 <= i < j < |t| :: t[i] == t[j] ==> key[i] == key[j];
  }

  lemma RuleTagsAreDistinct(i: RiskInput, site: Site)
    ensures DistinctTags(Rules(i, site)) && |Rules(i, site)| == RULE_COUNT
  {
    var rules := Rules(i, site);
    var t := ["webdriver-exposed", "missing-user-agent", "automation-user-agent", "non-secure-context",
              "webcrypto-unavailable", "wasm-unavailable", "invalid-hardware-concurrency", "invalid-screen",
              "language-inconsistency", "platform-inconsistency", "no-observed-interaction",
              "impossible-pointer-density", "invalid-behavior-metrics", "network-reputation", "tor-exit",
              "hosting-network", "proxy-or-vpn", "high-abuse-score", "elevated-request-rate"];
    assert forall k | 0 <= k < |t| :: rules[k].tag == t[k];
    TagTextsDiffer(t);
  }

  lemma {:induction false} TagsAreOfFiredRules(rules: seq<Rule>, k: nat, tag: string)
    requires k <= |rules|
    ensures tag in Tags(rules, k) <==> exists i | 0 <= i < k :: rules[i].fired && rules[i].tag == tag
  {
    if k > 0 {
      TagsAreOfFiredRules(rules, k - 1, tag);
    }
  }

  /** Each fired rule is listed once. */
  lemma {:induction false} TagsListedOnce(rules: seq<Rule>, k: nat)
    requires k <= |rules| && DistinctTags(rules)
    ensures forall i, j | 0 <= i < j < |Tags(rules, k)| :: Tags(rules, k)[i] != Tags(rules, k)[j]
  {
    if k > 0 {
      TagsListedOnce(rules, k - 1);
      TagsAreOfFiredRules(rules, k - 1, rules[k - 1].tag);
    }
  }

  /** `which` are the rules that fired among the first `k`, in order. */
  ghost predicate Fired(rules: seq<Rule>, k: nat, which: seq<nat>)
    requires k <= |rules|
  {
    && (forall i | 0 <= i < |which| :: which[i] < k && rules[which[i]].fired)
    && (forall i, j | 0 <= i < j < |which| :: which[i] < which[j])
    && (forall r | 0 <= r < k && rules[r].fired :: r in which)
  }

  ghost predicate TagsOf(rules: seq<Rule>, which: seq<nat>, tags: seq<string>) {
    |tags| == |which| && forall i | 0 <= i < |which| :: which[i] < |rules| && tags[i] == rules[which[i]].tag
  }

  lemma OneMoreFired(rules: seq<Rule>, k: nat, which: seq<nat>, tags: seq<string>)
    requires k < |rules| && rules[k].fired && Fired(rules, k, which) && TagsOf(rules, which, tags)
    ensures Fired(rules, k + 1, which + [k]) && TagsOf(rules, which + [k], tags + [rules[k].tag])
  {
    forall r | 0 <= r < k + 1 && rules[r].fired
      ensures r in which + [k]
    {
      assert r < k ==> r in which;
    }
  }

  lemma {:induction false} TagsFollowTheRules(rules: seq<Rule>, k: nat) returns (which: seq<nat>)
    requires k <= |rules|
    ensures Fired(rules, k, which) && TagsOf(rules, which, Tags(rules, k))
  {
    if k == 0 {
      which := [];
    } else {
      which := TagsFollowTheRules(rules, k - 1);
      if rules[k - 1].fired {
        hide Fired, TagsOf;
        OneMoreFired(rules, k - 1, which, Tags(rules, k - 1));
        which := which + [k - 1];
      }
    }
  }

  /** The tags of an assessment are those of the rules that fired, all of them, in rule order, each listed once. */
  lemma TagsAreTheFiredRules(i: RiskInput, site: Site) returns (which: seq<nat>)
    ensures |Rules(i, site)| == RULE_COUNT
    ensures Fired(Rules(i, site), RULE_COUNT, which) && TagsOf(Rules(i, site), which, Assess(i, site).tags)
    ensures forall a, b | 0 <= a < b < |Assess(i, site).tags| :: Assess(i, site).tags[a] != Assess(i, site).tags[b]
  {
    RuleTagsAreDistinct(i, site);
    hide Rules, Total, RoundHundredths, Fired, TagsOf;
    TagsListedOnce(Rules(i, site), RULE_COUNT);
    which := TagsFollowTheRules(Rules(i, site), RULE_COUNT);
  }

  lemma {:induction false} WholePointsPlusReputation(rules: seq<Rule>, k: nat, s: int) returns (whole: int)
    requires k <= |rules|
    requires forall i | 0 <= i < k :: rules[i].points % 100 == 0 || (i == 13 && rules[i].points == 48 * s)
    ensures Total(rules, k) ==
            100 * whole + (if k > 13 && rules[13].fired && rules[13].points % 100 != 0 then 48 * s else 0)
  {
    if k == 0 {
      whole := 0;
    } else {
      whole := WholePointsPlusReputation(rules, k - 1, s);
      if rules[k - 1].fired && rules[k - 1].points % 100 == 0 {
        whole := whole + rules[k - 1].points / 100;
      }
    }
  }

  /** Every rule but the reputation rule adds whole points. */
  lemma PointsAreWhole(i: RiskInput, site: Site)
    ensures |Rules(i, site)| == RULE_COUNT
    ensures forall k | 0 <= k < RULE_COUNT ::
              Rules(i, site)[k].points % 100 == 0 || (k == 13 && Rules(i, site)[k].points == 48 * i.reputation.score)
  {
  }

  /** Rounding never meets a half: 48 times anything is a multiple of four, and no half point is. */
  lemma NoRoundingTie(i: RiskInput, site: Site)
    ensures Total(Rules(i, site), RULE_COUNT) % 100 != 50
  {
    PointsAreWhole(i, site);
    hide Rules, Total;
    var whole := WholePointsPlusReputation(Rules(i, site), RULE_COUNT, i.reputation.score);
    var t := Total(Rules(i, site), RULE_COUNT);
    var q := t / 100;
    var s := i.reputation.score;
    assert t - 100 * q == 4 * (25 * whole - 25 * q) || t - 100 * q == 4 * (25 * whole + 12 * s - 25 * q);
  }

  /** Good thresholds split the scores into four stretches, one for each decision. */
  lemma ThresholdsSplitTheScores(n: int, t: Thresholds)
    requires GoodThresholds(t)
    ensures Decide(n, t) == Allow <==> n < t.pow
    ensures Decide(n, t) == Pow <==> t.pow <= n < t.interactive
    ensures Decide(n, t) == Interactive <==> t.interactive <= n < t.block
    ensures Decide(n, t) == Block <==> t.block <= n
  {
  }

  // ---- Order -----------------------------------------------------------------------

  /** Every rule that fires in `a` fires in `b`, for at least as many points. */
  ghost predicate FiresMore(a: seq<Rule>, b: seq<Rule>) {
    && |a| == |b|
    && (forall i | 0 <= i < |a| && a[i].fired :: b[i].fired && a[i].points <= b[i].points)
    && (forall i | 0 <= i < |b| && b[i].fired :: b[i].points >= 0)
  }

  function Severity(d: Decision): int {
    match d case Allow => 0 case Pow => 1 case Interactive => 2 case Block => 3
  }

  lemma {:induction false} MoreRulesMorePoints(a: seq<Rule>, b: seq<Rule>, k: nat)
    requires FiresMore(a, b) && k <= |a|
    ensures Total(a, k) <= Total(b, k)
  {
    if k > 0 {
      MoreRulesMorePoints(a, b, k - 1);
    }
  }

  /** Firing more rules never lowers the score and never softens the decision. */
  lemma AssessmentIsMonotone(i: RiskInput, i': RiskInput, site: Site)
    requires FiresMore(Rules(i, site), Rules(i', site))
    ensures Assess(i, site).score <= Assess(i', site).score
    ensures Severity(Assess(i, site).decision) <= Severity(Assess(i', site).decision)
  {
    var a, b := Rules(i, site), Rules(i', site);
    MoreRulesMorePoints(a, b, RULE_COUNT);
    var x, y := Total(a, RULE_COUNT), Total(b, RULE_COUNT);
    assert RoundHundredths(x) <= RoundHundredths(y);
  }

  lemma OnlyTheReputationRuleMoves(i: RiskInput, worse: int, site: Site)
    ensures Rules(i.(reputation := i.reputation.(score := worse)), site)
         == Rules(i, site)[13 := Rule(worse > 0, 48 * worse, "network-reputation")]
  {
    hide NamesAutomation, PlatformsDisagree, TrimSpace, ToLower;
  }

  lemma FiredRulesAddPoints(i: RiskInput, site: Site)
    ensures forall k | 0 <= k < RULE_COUNT && Rules(i, site)[k].fired :: Rules(i, site)[k].points >= 0
  {
    hide NamesAutomation, PlatformsDisagree, TrimSpace, ToLower;
  }

  /** In particular, a worse reputation never helps. */
  lemma WorseReputationNeverHelps(i: RiskInput, worse: int, site: Site)
    requires worse >= i.reputation.score
    ensures var i' := i.(reputation := i.reputation.(score := worse));
            && Assess(i, site).score <= Assess(i', site).score
            && Severity(Assess(i, site).decision) <= Severity(Assess(i', site).decision)
  {
    hide Assess, NamesAutomation, PlatformsDisagree, TrimSpace, ToLower;
    var i' := i.(reputation := i.reputation.(score := worse));
    OnlyTheReputationRuleMoves(i, worse, site);
    FiredRulesAddPoints(i', site);
    assert Rules(i, site)[13] == Rule(i.reputation.score > 0, 48 * i.reputation.score, "network-reputation");
    AssessmentIsMonotone(i, i', site);
  }

  predicate BehaviourRule(k: nat) {
    10 <= k < 13
  }

  lemma {:induction false} NothingBefore(rules: seq<Rule>, from: nat, k: nat)
    requires from <= k <= |rules| && forall j | from <= j < k :: !rules[j].fired
    ensures Total(rules, k) == Total(rules, from)
  {
    if from < k {
      NothingBefore(rules, from, k - 1);
    }
  }

  /**
   When only behaviour rules fire the score is at most 23, so under the default thresholds
   (or any that start above 23) the visitor is let through; and while reputation is at most
   100 no single rule adds more than 48 points.
   */
  lemma BehaviourAloneIsHarmless(i: RiskInput, site: Site)
    requires forall k | 0 <= k < RULE_COUNT && Rules(i, site)[k].fired :: BehaviourRule(k)
    ensures Assess(i, site).score <= 23
    ensures GoodThresholds(site.thresholds) && site.thresholds.pow > 23 ==> Assess(i, site).decision == Allow
  {
    var rules := Rules(i, site);
    NothingBefore(rules, 0, 10);
    NothingBefore(rules, 13, RULE_COUNT);
    assert Total(rules, 11) == Total(rules, 10) + (if rules[10].fired then 400 else 0);
    assert Total(rules, 12) == Total(rules, 11) + (if rules[11].fired then 800 else 0);
    assert Total(rules, 13) == Total(rules, 12) + (if rules[12].fired then 1500 else 0);
    assert !(rules[10].fired && rules[11].fired);
  }

  lemma NoRuleAddsMoreThan48(i: RiskInput, site: Site, k: nat)
    requires k < RULE_COUNT && i.reputation.score <= 100
    ensures Rules(i, site)[k].points <= 4800
  {
  }
}
