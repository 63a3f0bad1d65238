/** What the risk rules look for, said without them: signals, their points and their tags (scorer.go, score.rs). */
module Signals {
  import opened Sites
  import opened RiskModel
  import opened Text

  // ---- Platform names --------------------------------------------------------------

  const QUOTES: set<char> := {'"', '\'', ' '}

  predicate Word(w: string) {
    w != "" && forall i | 0 <= i < |w| :: 'a' <= w[i] <= 'z'
  }

  lemma {:induction false} TrimLeftParts(s: string, cut: set<char>) returns (l: nat)
    ensures l <= |s| && TrimLeft(s, cut) == s[l..] && AllIn(s[..l], cut)
  {
    if s != "" && s[0] in cut {
      var k := TrimLeftParts(s[1..], cut);
      l := k + 1;
      assert forall i | 0 < i < l :: s[..l][i] == s[1..][..k][i - 1];
    } else {
      l := 0;
    }
  }

  lemma {:induction false} TrimRightParts(s: string, cut: set<char>) returns (r: nat)
    ensures r <= |s| && TrimRight(s, cut) == s[..r] && AllIn(s[r..], cut)
  {
    if s != "" && s[|s| - 1] in cut {
      r := TrimRightParts(s[..|s| - 1], cut);
      assert forall i | 0 <= i < |s| - 1 - r :: s[r..][i] == s[..|s| - 1][r..][i];
    } else {
      r := |s|;
    }
  }

  /** What trimming leaves, and that all it takes is to be cut off. */
  lemma TrimParts(v: string, cut: set<char>) returns (l: nat, r: nat)
    ensures l <= r <= |v| && Trim(v, cut) == v[l..r]
    ensures forall p | 0 <= p < |v| && !(l <= p < r) :: v[p] in cut
  {
    l := TrimLeftParts(v, cut);
    var k := TrimRightParts(v[l..], cut);
    r := l + k;
    assert v[l..][..k] == v[l..r];
    forall p | 0 <= p < |v| && !(l <= p < r)
      ensures v[p] in cut
    {
      if p < l {
        assert v[p] == v[..l][p];
      } else {
        assert v[p] == v[l..][k..][p - r];
      }
    }
  }

  lemma WordsHaveNoQuotes(x: string, w: string)
    requires Word(w) && SameButForCase(x, w)
    ensures forall i | 0 <= i < |x| :: x[i] !in QUOTES
  {
    Letters();
  }

  lemma SliceOfSlice(v: string, l: nat, r: nat, a: nat, b: nat)
    requires l <= r <= |v| && a <= b <= r - l
    ensures v[l..r][a..b] == v[l + a..l + b]
  {
    var part := v[l..r][a..b];
    assert forall k | 0 <= k < |part| :: part[k] == v[l..r][a + k] == v[l + a + k];
  }

  /** A word is found in a trimmed text exactly when it is found in the whole: nothing of it can be trimmed. */
  lemma TrimmedMentions(v: string, w: string)
    requires Word(w)
    ensures Mentions(Trim(v, QUOTES), w) <==> Mentions(v, w)
  {
    hide Trim, SameButForCase;
    var l, r := TrimParts(v, QUOTES);
    var t := Trim(v, QUOTES);
    if Mentions(t, w) {
      var i :| 0 <= i <= |t| && MentionedAt(t, w, i);
      SliceOfSlice(v, l, r, i, i + |w|);
      assert MentionedAt(v, w, l + i);
    }
    if Mentions(v, w) {
      var i :| 0 <= i <= |v| && MentionedAt(v, w, i);
      var x := v[i..i + |w|];
      WordsHaveNoQuotes(x, w);
      assert v[i] == x[0] && v[i + |w| - 1] == x[|w| - 1];
      SliceOfSlice(v, l, r, i - l, i - l + |w|);
      assert MentionedAt(t, w, i - l);
    }
  }

  /** The family a platform text belongs to: the first of these words it mentions, in whatever case. */
  ghost function Family(v: string): string {
    if Mentions(v, "win") then "windows"
    else if Mentions(v, "mac") then "macos"
    else if Mentions(v, "android") then "android"
    else if Mentions(v, "ios") || Mentions(v, "iphone") || Mentions(v, "ipad") then "ios"
    else if Mentions(v, "linux") then "linux"
    else ""
  }

  lemma FoundExactlyWhenMentioned(v: string, w: string)
    requires Word(w)
    ensures Contains(ToLower(Trim(v, QUOTES)), w) <==> Mentions(v, w)
  {
    LowerMentions(Trim(v, QUOTES), w);
    TrimmedMentions(v, w);
  }

  lemma PlatformReadsTheFamily(v: string)
    ensures Platform(v) == Family(v)
  {
    hide Contains, Mentions, Trim, ToLower;
    FoundExactlyWhenMentioned(v, "win");
    FoundExactlyWhenMentioned(v, "mac");
    FoundExactlyWhenMentioned(v, "android");
    FoundExactlyWhenMentioned(v, "ios");
    FoundExactlyWhenMentioned(v, "iphone");
    FoundExactlyWhenMentioned(v, "ipad");
    FoundExactlyWhenMentioned(v, "linux");
  }

  lemma {:induction false} LeftCommutes(v: string)
    ensures ToLower(TrimLeft(v, QUOTES)) == TrimLeft(ToLower(v), QUOTES)
  {
    if v != "" {
      assert ToLower(v)[1..] == ToLower(v[1..]);
      LeftCommutes(v[1..]);
    }
  }

  lemma {:induction false} RightCommutes(v: string)
    ensures ToLower(TrimRight(v, QUOTES)) == TrimRight(ToLower(v), QUOTES)
  {
    if v != "" {
      assert ToLower(v)[..|v| - 1] == ToLower(v[..|v| - 1]);
      RightCommutes(v[..|v| - 1]);
    }
  }

  lemma TrimCommutesWithLower(v: string)
    ensures ToLower(Trim(v, QUOTES)) == Trim(ToLower(v), QUOTES)
  {
    LeftCommutes(v);
    RightCommutes(TrimLeft(v, QUOTES));
  }

  /** Neither the case of letters nor quotes and spaces around a platform text matter. */
  lemma PlatformIgnoresDress(before: string, v: string, after: string, w: string)
    requires AllIn(before, QUOTES) && AllIn(after, QUOTES) && SameButForCase(v, w)
    ensures Platform(before + v + after) == Platform(w)
  {
    hide Contains, Trim, ToLower, SameButForCase;
    TrimDrops(before, v, after, QUOTES);
    CaseIsInvisible(v, w);
    TrimCommutesWithLower(v);
    TrimCommutesWithLower(w);
  }

  lemma MentionsWord(a: string, w: string, b: string)
    ensures Mentions(a + w + b, w)
  {
    var v := a + w + b;
    assert v[|a|..|a| + |w|] == w;
    assert MentionedAt(v, w, |a|);
  }

  /** A word is not mentioned where one of its letters does not occur. */
  lemma NotMentioned(v: string, w: string, k: nat)
    requires k < |w| && forall i | 0 <= i < |v| :: Lower(v[i]) != Lower(w[k])
    ensures !Mentions(v, w)
  {
    if Mentions(v, w) {
      var i :| 0 <= i <= |v| && MentionedAt(v, w, i);
      assert SameLetter(v[i..i + |w|][k], w[k]);
      LowerJoinsCases(v[i + k], w[k]);
    }
  }

  lemma OrdinaryDesktops()
    ensures Platform("win32") == "windows" && Platform("macintel") == "macos"
  {
    hide Platform, Mentions;
    PlatformReadsTheFamily("win32");
    MentionsWord("", "win", "32");
    assert "" + "win" + "32" == "win32";
    PlatformReadsTheFamily("macintel");
    NotMentioned("macintel", "win", 0);
    MentionsWord("", "mac", "intel");
    assert "" + "mac" + "intel" == "macintel";
  }

  lemma OrdinaryAndroids()
    ensures Platform("android") == "android"
  {
    hide Platform, Mentions;
    PlatformReadsTheFamily("android");
    NotMentioned("android", "win", 0);
    NotMentioned("android", "mac", 0);
    MentionsWord("", "android", "");
    assert "" + "android" + "" == "android";
  }

  lemma OrdinaryPhones()
    ensures Platform("iphone") == "ios" && Platform("ipad") == "ios"
  {
    hide Platform, Mentions;
    PlatformReadsTheFamily("iphone");
    NotMentioned("iphone", "win", 0);
    NotMentioned("iphone", "mac", 0);
    NotMentioned("iphone", "android", 0);
    MentionsWord("", "iphone", "");
    assert "" + "iphone" + "" == "iphone";
    PlatformReadsTheFamily("ipad");
    NotMentioned("ipad", "win", 0);
    NotMentioned("ipad", "mac", 0);
    NotMentioned("ipad", "android", 1);
    MentionsWord("", "ipad", "");
    assert "" + "ipad" + "" == "ipad";
  }

  lemma OrdinaryLinuxes()
    ensures Platform("linux x86_64") == "linux"
  {
    hide Platform, Mentions;
    PlatformReadsTheFamily("linux x86_64");
    NotMentioned("linux x86_64", "win", 0);
    NotMentioned("linux x86_64", "mac", 0);
    NotMentioned("linux x86_64", "android", 0);
    NotMentioned("linux x86_64", "ios", 1);
    NotMentioned("linux x86_64", "iphone", 1);
    NotMentioned("linux x86_64", "ipad", 1);
    MentionsWord("", "linux", " x86_64");
    assert "" + "linux" + " x86_64" == "linux x86_64";
  }

  /** The ordinary texts of the five families are told apart, in whatever case and between whatever quotes. */
  lemma OrdinaryPlatformsInEveryDress(before: string, v: string, after: string)
    requires AllIn(before, QUOTES) && AllIn(after, QUOTES)
    ensures SameButForCase(v, "win32") ==> Platform(before + v + after) == "windows"
    ensures SameButForCase(v, "macintel") ==> Platform(before + v + after) == "macos"
    ensures SameButForCase(v, "android") ==> Platform(before + v + after) == "android"
    ensures SameButForCase(v, "iphone") || SameButForCase(v, "ipad") ==> Platform(before + v + after) == "ios"
    ensures SameButForCase(v, "linux x86_64") ==> Platform(before + v + after) == "linux"
  {
    hide Platform, SameButForCase;
    OrdinaryDesktops();
    OrdinaryAndroids();
    OrdinaryPhones();
    OrdinaryLinuxes();
    forall w | SameButForCase(v, w)
      ensures Platform(before + v + after) == Platform(w)
    {
      PlatformIgnoresDress(before, v, after, w);
    }
  }

  // ---- Signals -----------------------------------------------------------------------

  datatype Signal =
    | ExposedWebdriver
    | BlankAgent
    | AutomationAgent
    | InsecureContext
    | NoWebCrypto
    | NoWasm
    | BadConcurrency
    | BadScreen
    | NoLanguages
    | PlatformMismatch
    | NoInteraction
    | PointerFlood
    | BadVariance
    | NetworkReputation
    | TorExit
    | HostingNetwork
    | ProxyOrVpn
    | HighAbuse
    | ManyRequests

  const SIGNALS: seq<Signal> := [
    ExposedWebdriver, BlankAgent, AutomationAgent, InsecureContext, NoWebCrypto, NoWasm, BadConcurrency, BadScreen,
    NoLanguages, PlatformMismatch, NoInteraction, PointerFlood, BadVariance, NetworkReputation, TorExit,
    HostingNetwork, ProxyOrVpn, HighAbuse, ManyRequests]

  /** More than half the requests a minute allows. */
  predicate MoreThanHalf(n: int, limit: int) {
    2 * n > limit + if limit < 0 then 1 else 0
  }

  ghost predicate Shown(i: RiskInput, site: Site, s: Signal) {
    var c, b, rep := i.client, i.client.behavior, i.reputation;
    match s
    case ExposedWebdriver => c.webdriver
    case BlankAgent => AllIn(i.userAgent, SPACES) || AllIn(c.userAgent, SPACES)
    case AutomationAgent =>
      var agents := i.userAgent + " " + c.userAgent;
      || Mentions(agents, "headlesschrome") || Mentions(agents, "phantomjs") || Mentions(agents, "python-requests")
      || Mentions(agents, "curl/") || Mentions(agents, "wget/")
    case InsecureContext => !c.secureContext
    case NoWebCrypto => !c.webCryptoAvailable
    case NoWasm => !c.wasmAvailable
    case BadConcurrency => !(0 <= c.hardwareConcurrency <= 256)
    case BadScreen => !(c.screenWidthBucket >= 0 && c.screenHeightBucket >= 0)
    case NoLanguages => (c.languages.None? || c.languages.value == []) && !AllIn(i.acceptLanguage, SPACES)
    case PlatformMismatch =>
      Family(c.platform) != "" && Family(i.secChPlatform) != "" && Family(c.platform) != Family(i.secChPlatform)
    case NoInteraction => b.dwellMs > 1500 && b.pointerEvents == 0 == b.keyEvents
    case PointerFlood => b.pointerEvents > 5000 && b.dwellMs < 1000
    case BadVariance => b.pointerVariance.NaN? || b.pointerVariance.Infinite?
    case NetworkReputation => rep.score > 0
    case TorExit => rep.tor
    case HostingNetwork => rep.hosting
    case ProxyOrVpn => rep.proxy || rep.vpn
    case HighAbuse => rep.abuseScore >= 80
    case ManyRequests => MoreThanHalf(i.requestRate, site.rateLimitPerMinute)
  }

  /** Points in hundredths. */
  function PointsOf(s: Signal, reputation: int): int {
    match s
    case ExposedWebdriver => 3200
    case BlankAgent => 1800
    case AutomationAgent => 3000
    case InsecureContext => 500
    case NoWebCrypto => 500
    case NoWasm => 300
    case BadConcurrency => 1000
    case BadScreen => 800
    case NoLanguages => 500
    case PlatformMismatch => 1200
    case NoInteraction => 400
    case PointerFlood => 800
    case BadVariance => 1500
    case NetworkReputation => 48 * reputation
    case TorExit => 2200
    case HostingNetwork => 1000
    case ProxyOrVpn => 700
    case HighAbuse => 1200
    case ManyRequests => 800
  }

  function TagOf(s: Signal): string {
    match s
    case ExposedWebdriver => "webdriver-exposed"
    case BlankAgent => "missing-user-agent"
    case AutomationAgent => "automation-user-agent"
    case InsecureContext => "non-secure-context"
    case NoWebCrypto => "webcrypto-unavailable"
    case NoWasm => "wasm-unavailable"
    case BadConcurrency => "invalid-hardware-concurrency"
    case BadScreen => "invalid-screen"
    case NoLanguages => "language-inconsistency"
    case PlatformMismatch => "platform-inconsistency"
    case NoInteraction => "no-observed-interaction"
    case PointerFlood => "impossible-pointer-density"
    case BadVariance => "invalid-behavior-metrics"
    case NetworkReputation => "network-reputation"
    case TorExit => "tor-exit"
    case HostingNetwork => "hosting-network"
    case ProxyOrVpn => "proxy-or-vpn"
    case HighAbuse => "high-abuse-score"
    case ManyRequests => "elevated-request-rate"
  }

  lemma {:induction false} TrimmedAwayExactlyWhenAllIn(s: string, cut: set<char>)
    ensures Trim(s, cut) == "" <==> AllIn(s, cut)
  {
    var l := TrimLeftParts(s, cut);
    var r := TrimRightParts(s[l..], cut);
    if Trim(s, cut) == "" {
      assert forall i | 0 <= i < |s| :: s[i] == if i < l then s[..l][i] else s[l..][0..][i - l];
    } else {
      assert s[l] == Trim(s, cut)[0];
      TrimIsIdentityExactlyOnBare(s, cut);
    }
  }

  lemma AgentsNamedExactlyWhenMentioned(agents: string)
    ensures NamesAutomation(ToLower(agents)) <==>
              || Mentions(agents, "headlesschrome") || Mentions(agents, "phantomjs")
              || Mentions(agents, "python-requests") || Mentions(agents, "curl/") || Mentions(agents, "wget/")
  {
    hide Contains, Mentions;
    var l := ToLower(agents);
    assert NamesAutomation(l) <==>
             || Contains(l, NEEDLES[0]) || Contains(l, NEEDLES[1]) || Contains(l, NEEDLES[2])
             || Contains(l, NEEDLES[3]) || Contains(l, NEEDLES[4]);
    LowerMentions(agents, "headlesschrome");
    LowerMentions(agents, "phantomjs");
    LowerMentions(agents, "python-requests");
    LowerMentions(agents, "curl/");
    LowerMentions(agents, "wget/");
  }

  lemma HalfIsHalf(n: int, limit: int)
    ensures n > Half(limit) <==> MoreThanHalf(n, limit)
  {
  }

  lemma EmptyHasNoFamily()
    ensures Family("") == ""
  {
    NotMentioned("", "win", 0);
    NotMentioned("", "mac", 0);
    NotMentioned("", "android", 0);
    NotMentioned("", "ios", 0);
    NotMentioned("", "iphone", 0);
    NotMentioned("", "ipad", 0);
    NotMentioned("", "linux", 0);
  }

  /** Rule `k` is signal `k`: it fires when the signal is shown, for its points, under its tag. */
  ghost predicate RuleIsSignal(i: RiskInput, site: Site, k: nat) {
    && k < |Rules(i, site)| && k < |SIGNALS|
    && Rules(i, site)[k] ==
       Rule(Shown(i, site, SIGNALS[k]), PointsOf(SIGNALS[k], i.reputation.score), TagOf(SIGNALS[k]))
  }

  lemma AgentRules(i: RiskInput, site: Site)
    ensures RuleIsSignal(i, site, 0) && RuleIsSignal(i, site, 1) && RuleIsSignal(i, site, 2)
  {
    hide Mentions, Family, NamesAutomation, Trim, ToLower, AllIn, PlatformsDisagree, Half, MoreThanHalf;
    TrimmedAwayExactlyWhenAllIn(i.userAgent, SPACES);
    TrimmedAwayExactlyWhenAllIn(i.client.userAgent, SPACES);
    AgentsNamedExactlyWhenMentioned(i.userAgent + " " + i.client.userAgent);
  }

  lemma CapabilityRules(i: RiskInput, site: Site)
    ensures RuleIsSignal(i, site, 3) && RuleIsSignal(i, site, 4) && RuleIsSignal(i, site, 5)
  {
    hide Mentions, Family, NamesAutomation, Trim, ToLower, AllIn, PlatformsDisagree, Half, MoreThanHalf;
  }

  lemma DeviceRules(i: RiskInput, site: Site)
    ensures RuleIsSignal(i, site, 6) && RuleIsSignal(i, site, 7)
  {
    hide Mentions, Family, NamesAutomation, Trim, ToLower, AllIn, PlatformsDisagree, Half, MoreThanHalf;
  }

  lemma ConsistencyRules(i: RiskInput, site: Site)
    ensures RuleIsSignal(i, site, 8) && RuleIsSignal(i, site, 9)
  {
    hide Platform, Mentions, Family, NamesAutomation, Trim, ToLower, AllIn, Half, MoreThanHalf;
    TrimmedAwayExactlyWhenAllIn(i.acceptLanguage, SPACES);
    PlatformReadsTheFamily(i.client.platform);
    PlatformReadsTheFamily(i.secChPlatform);
    EmptyHasNoFamily();
  }

  lemma BehaviourRules(i: RiskInput, site: Site)
    ensures RuleIsSignal(i, site, 10) && RuleIsSignal(i, site, 11) && RuleIsSignal(i, site, 12)
    ensures RuleIsSignal(i, site, 13)
  {
    hide Mentions, Family, NamesAutomation, Trim, ToLower, AllIn, PlatformsDisagree, Half, MoreThanHalf;
  }

  lemma NetworkRules(i: RiskInput, site: Site)
    ensures RuleIsSignal(i, site, 14) && RuleIsSignal(i, site, 15) && RuleIsSignal(i, site, 16)
  {
    hide Mentions, Family, NamesAutomation, Trim, ToLower, AllIn, PlatformsDisagree, Half, MoreThanHalf;
  }

  lemma AbuseRules(i: RiskInput, site: Site)
    ensures RuleIsSignal(i, site, 17) && RuleIsSignal(i, site, 18)
  {
    hide Mentions, Family, NamesAutomation, Trim, ToLower, AllIn, PlatformsDisagree, Half, MoreThanHalf;
    HalfIsHalf(i.requestRate, site.rateLimitPerMinute);
  }

  lemma RulesAreSignals(i: RiskInput, site: Site, k: nat)
    requires k < RULE_COUNT
    ensures |Rules(i, site)| == |SIGNALS| == RULE_COUNT && RuleIsSignal(i, site, k)
  {
    RuleTagsAreDistinct(i, site);
    hide Rules, RuleIsSignal;
    AgentRules(i, site);
    CapabilityRules(i, site);
    DeviceRules(i, site);
    ConsistencyRules(i, site);
    BehaviourRules(i, site);
    NetworkRules(i, site);
    AbuseRules(i, site);
  }

  /** The points of the first `k` signals that are shown. */
  ghost function Sum(i: RiskInput, site: Site, k: nat): int
    requires k <= |SIGNALS|
  {
    if k == 0 then 0
    else
      var s := SIGNALS[k - 1];
      Sum(i, site, k - 1) + if Shown(i, site, s) then PointsOf(s, i.reputation.score) else 0
  }

  lemma {:induction false} TotalIsTheSum(i: RiskInput, site: Site, k: nat)
    requires k <= RULE_COUNT
    ensures |Rules(i, site)| == RULE_COUNT && Total(Rules(i, site), k) == Sum(i, site, k)
  {
    RulesAreSignals(i, site, 0);
    hide Rules, Shown, PointsOf, TagOf;
    if k > 0 {
      TotalIsTheSum(i, site, k - 1);
      RulesAreSignals(i, site, k - 1);
    }
  }

  /**
   The score is the sum of the documented points of the signals that are shown, to the
   nearest whole number and between 0 and 100; it is never halfway.
   */
  lemma ScoreIsTheSumOfSignals(i: RiskInput, site: Site)
    ensures var sum, score := Sum(i, site, |SIGNALS|), Assess(i, site).score;
            && 0 <= score <= 100 && sum % 100 != 50
            && (sum < 0 ==> score == 0) && (sum > 10000 ==> score == 100)
            && (0 <= sum <= 10000 ==> -50 < 100 * score - sum < 50)
  {
    TotalIsTheSum(i, site, RULE_COUNT);
    NoRoundingTie(i, site);
    hide Rules, Sum, Shown, PointsOf, Total, Tags;
  }

  lemma SamePoints(i: RiskInput, i': RiskInput, site: Site, s: Signal)
    requires Shown(i, site, NetworkReputation) ==> i'.reputation.score == i.reputation.score
    ensures Shown(i, site, s) ==> PointsOf(s, i'.reputation.score) == PointsOf(s, i.reputation.score)
  {
    hide Shown;
  }

  function IndexOf(s: Signal): nat {
    match s
    case ExposedWebdriver => 0
    case BlankAgent => 1
    case AutomationAgent => 2
    case InsecureContext => 3
    case NoWebCrypto => 4
    case NoWasm => 5
    case BadConcurrency => 6
    case BadScreen => 7
    case NoLanguages => 8
    case PlatformMismatch => 9
    case NoInteraction => 10
    case PointerFlood => 11
    case BadVariance => 12
    case NetworkReputation => 13
    case TorExit => 14
    case HostingNetwork => 15
    case ProxyOrVpn => 16
    case HighAbuse => 17
    case ManyRequests => 18
  }

  lemma SignalAt(k: nat)
    requires k < |SIGNALS|
    ensures IndexOf(SIGNALS[k]) == k
  {
  }

  lemma DistinctSignals(m: nat, n: nat)
    requires m < |SIGNALS| && n < |SIGNALS|
    ensures SIGNALS[m] == SIGNALS[n] <==> m == n
  {
    SignalAt(m);
    SignalAt(n);
  }

  lemma {:induction false} OneMoreSums(i: RiskInput, i': RiskInput, site: Site, n: nat, k: nat)
    requires k <= |SIGNALS| && n < |SIGNALS| && !Shown(i, site, SIGNALS[n]) && Shown(i', site, SIGNALS[n])
    requires forall t | t != SIGNALS[n] :: Shown(i, site, t) <==> Shown(i', site, t)
    requires Shown(i, site, NetworkReputation) ==> i'.reputation.score == i.reputation.score
    ensures Sum(i', site, k) == Sum(i, site, k) + if n < k then PointsOf(SIGNALS[n], i'.reputation.score) else 0
  {
    hide Shown, PointsOf;
    if k > 0 {
      OneMoreSums(i, i', site, n, k - 1);
      DistinctSignals(n, k - 1);
      if k - 1 != n {
        SamePoints(i, i', site, SIGNALS[k - 1]);
      }
    }
  }

  lemma SignalIsListed(s: Signal)
    ensures IndexOf(s) < |SIGNALS| && SIGNALS[IndexOf(s)] == s
  {
  }

  lemma TaggedExactlyWhenShown(i: RiskInput, site: Site, s: Signal)
    ensures TagOf(s) in Assess(i, site).tags <==> Shown(i, site, s)
  {
    SignalIsListed(s);
    var n := IndexOf(s);
    RulesAreSignals(i, site, n);
    RuleTagsAreDistinct(i, site);
    TagsAreOfFiredRules(Rules(i, site), RULE_COUNT, TagOf(s));
    hide Rules, Shown, PointsOf, TagOf, Tags, Total;
    if TagOf(s) in Assess(i, site).tags {
      var r :| 0 <= r < RULE_COUNT && Rules(i, site)[r].fired && Rules(i, site)[r].tag == TagOf(s);
      assert r == n;
    }
  }

  /** Showing one signal more, all else equal, adds that signal's documented points and its tag, and nothing else. */
  lemma OneSignalMore(i: RiskInput, i': RiskInput, site: Site, s: Signal)
    requires !Shown(i, site, s) && Shown(i', site, s)
    requires forall t | t != s :: Shown(i, site, t) <==> Shown(i', site, t)
    requires Shown(i, site, NetworkReputation) ==> i'.reputation.score == i.reputation.score
    ensures Sum(i', site, |SIGNALS|) == Sum(i, site, |SIGNALS|) + PointsOf(s, i'.reputation.score)
    ensures TagOf(s) in Assess(i', site).tags && TagOf(s) !in Assess(i, site).tags
  {
    hide Shown, Sum, PointsOf, TagOf;
    SignalIsListed(s);
    OneMoreSums(i, i', site, IndexOf(s), |SIGNALS|);
    TaggedExactlyWhenShown(i, site, s);
    TaggedExactlyWhenShown(i', site, s);
  }
}
