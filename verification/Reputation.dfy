/** Combining what the reputation providers say (models.py), with scores in exact eighths. */
module Reputations {
  function Clamp(n: int): int {
    if n < 0 then 0 else if n > 100 then 100 else n
  }

  /** A provider's answer as a value. */
  datatype Answer = Answer(
    provider: string,
    score: int,
    proxy: bool,
    vpn: bool,
    tor: bool,
    hosting: bool,
    abuseScore: int,
    country: string,
    asn: string,
    warning: string)
  {
    predicate Good() {
      warning == ""
    }

    function Normal(): Answer {
      this.(score := Clamp(score), abuseScore := Clamp(abuseScore))
    }
  }

  datatype Reputation = Reputation(
    score: int,
    proxy: bool,
    vpn: bool,
    tor: bool,
    hosting: bool,
    abuseScore: int,
    country: string,
    asn: string,
    providers: seq<string>,
    warnings: seq<string>)

  function Max(a: int, b: int): int {
    if a > b then a else b
  }

  /** Python's `round` of `n / 8`: to nearest, halves to even. */
  function RoundEighths(n: nat): nat {
    var q, r := n / 8, n % 8;
    if r < 4 || (r == 4 && q % 2 == 0) then q else q + 1
  }

  function Insert(x: int, s: seq<int>): seq<int> {
    if s == [] || x >= s[0] then [x] + s else [s[0]] + Insert(x, s[1..])
  }

  /** `sorted(..., reverse=True)` */
  function SortDown(s: seq<int>): seq<int> {
    if s == [] then [] else Insert(s[0], SortDown(s[1..]))
  }

  function GoodOnes(items: seq<Answer>): seq<Answer> {
    if items == [] then []
    else (if items[0].Good() then [items[0]] else []) + GoodOnes(items[1..])
  }

  function Warnings(items: seq<Answer>): seq<string> {
    if items == [] then []
    else (if items[0].Good() then [] else [items[0].provider + ":" + items[0].warning]) + Warnings(items[1..])
  }

  function Scores(items: seq<Answer>): seq<int> {
    seq(|items|, i requires 0 <= i < |items| => items[i].score)
  }

  function Countries(items: seq<Answer>): seq<string> {
    seq(|items|, i requires 0 <= i < |items| => items[i].country)
  }

  function Asns(items: seq<Answer>): seq<string> {
    seq(|items|, i requires 0 <= i < |items| => items[i].asn)
  }

  function Providers(items: seq<Answer>): seq<string> {
    seq(|items|, i requires 0 <= i < |items| => items[i].provider)
  }

  function TopAbuse(items: seq<Answer>): int {
    if items == [] then 0 else Max(items[0].abuseScore, TopAbuse(items[1..]))
  }

  predicate Has(a: Answer, flag: Flag) {
    match flag
    case Proxy => a.proxy
    case Vpn => a.vpn
    case Tor => a.tor
    case Hosting => a.hosting
  }

  /** Python's `any` over one flag. */
  predicate Some(items: seq<Answer>, flag: Flag) {
    items != [] && (Has(items[0], flag) || Some(items[1..], flag))
  }

  datatype Flag = Proxy | Vpn | Tor | Hosting

  function FirstText(texts: seq<string>): string {
    if texts == [] then "" else if texts[0] != "" then texts[0] else FirstText(texts[1..])
  }

  /** `top * 0.75 + consensus * 0.25` in eighths, for scores in descending order. */
  function Eighths(s: seq<int>): int
    requires s != []
  {
    6 * s[0] + (if |s| == 1 then 0 else if |s| == 2 then 2 * s[1] else s[1] + s[2])
  }

  function Combine(items: seq<Answer>): Reputation {
    var good := GoodOnes(items);
    if good == [] then Reputation(0, false, false, false, false, 0, "", "", [], Warnings(items))
    else
      var combined := Eighths(SortDown(Scores(good)));
      var rounded := if combined >= 0 then RoundEighths(combined) else 0;
      Reputation(
        if rounded > 100 then 100 else rounded,
        Some(good, Proxy),
        Some(good, Vpn),
        Some(good, Tor),
        Some(good, Hosting),
        TopAbuse(good),
        FirstText(Countries(good)),
        FirstText(Asns(good)),
        Providers(good),
        Warnings(items))
  }

  function Normalize(answers: seq<Answer>): (r: seq<Answer>)
    ensures |r| == |answers|
  {
    seq(|answers|, i requires 0 <= i < |answers| => answers[i].Normal())
  }

  /** What the aggregate of a list of answers is. */
  function Aggregated(answers: seq<Answer>): Reputation {
    Combine(Normalize(answers))
  }

  /** A provider's result object, whose scores are brought into range in place. */
  class ProviderResult {
    const base: Answer
    var score: int
    var abuseScore: int

    constructor (a: Answer)
      ensures Value() == a
    {
      base, score, abuseScore := a, a.score, a.abuseScore;
    }

    function Value(): Answer
      reads this
    {
      base.(score := score, abuseScore := abuseScore)
    }

    method Normalized()
      modifies this
      ensures Value() == old(Value()).Normal()
    {
      score := if 0 > (if 100 < score then 100 else score) then 0 else if 100 < score then 100 else score;
      abuseScore := if 0 > (if 100 < abuseScore then 100 else abuseScore) then 0
                    else if 100 < abuseScore then 100 else abuseScore;
    }
  }

  function Values(results: seq<ProviderResult>): (r: seq<Answer>)
    reads results
    ensures |r| == |results|
  {
    seq(|results|, i requires 0 <= i < |results| reads results => results[i].Value())
  }

  /** The list may name one object twice: normalising it again changes nothing. */
  method Aggregate(results: seq<ProviderResult>) returns (r: Reputation)
    modifies results
    ensures r == Aggregated(old(Values(results)))
    ensures Values(results) == Normalize(old(Values(results)))
  {
    ghost var was := Values(results);
    var items: seq<Answer> := [];
    for i := 0 to |results|
      invariant |items| == i && forall j | 0 <= j < i :: items[j] == was[j].Normal() && results[j].Value() == items[j]
      invariant forall j | 0 <= j < |results| :: results[j].Value() == was[j] || results[j].Value() == was[j].Normal()
    {
      results[i].Normalized();
      items := items + [results[i].Value()];
    }
    assert items == Normalize(was);
    r := Combine(items);
  }

  // ---- Order of completion -------------------------------------------------------------

  predicate Down(s: seq<int>) {
    forall i, j | 0 <= i < j < |s| :: s[i] >= s[j]
  }

  lemma {:induction false} InsertKeepsDown(x: int, s: seq<int>)
    requires Down(s)
    ensures Down(Insert(x, s)) && |Insert(x, s)| == |s| + 1
    ensures forall i | 0 <= i < |Insert(x, s)| :: Insert(x, s)[i] == x || Insert(x, s)[i] in s
    ensures Insert(x, s)[0] == if s == [] then x else Max(x, s[0])
  {
    if s != [] && x < s[0] {
      InsertKeepsDown(x, s[1..]);
    }
  }

  lemma {:induction false} InsertCommutes(x: int, y: int, s: seq<int>)
    requires Down(s)
    ensures Insert(x, Insert(y, s)) == Insert(y, Insert(x, s))
  {
    if s != [] && x < s[0] && y < s[0] {
      InsertCommutes(x, y, s[1..]);
      assert Insert(y, s)[1..] == Insert(y, s[1..]) && Insert(x, s)[1..] == Insert(x, s[1..]);
    } else if s != [] && (x < s[0] || y < s[0]) {
      assert ([x] + s)[1..] == s && ([y] + s)[1..] == s;
    } else if x != y {
      assert ([x] + s)[1..] == s && ([y] + s)[1..] == s;
    }
  }

  lemma {:induction false} SortedDown(s: seq<int>)
    ensures Down(SortDown(s)) && |SortDown(s)| == |s|
  {
    if s != [] {
      SortedDown(s[1..]);
      InsertKeepsDown(s[0], SortDown(s[1..]));
    }
  }

  /** What order cannot change: the ranked scores, the flags and the highest abuse score. */
  datatype Summary = Summary(ranked: seq<int>, proxy: bool, vpn: bool, tor: bool, hosting: bool, abuse: int)

  function AddTo(a: Answer, s: Summary): Summary {
    if !a.Good() then s
    else Summary(Insert(a.score, s.ranked), a.proxy || s.proxy, a.vpn || s.vpn, a.tor || s.tor,
                 a.hosting || s.hosting, Max(a.abuseScore, s.abuse))
  }

  function Summarize(items: seq<Answer>): Summary {
    if items == [] then Summary([], false, false, false, false, 0)
    else AddTo(items[0], Summarize(items[1..]))
  }

  lemma {:induction false} SummaryIsRanked(items: seq<Answer>)
    ensures Down(Summarize(items).ranked)
  {
    if items != [] {
      SummaryIsRanked(items[1..]);
      InsertKeepsDown(items[0].score, Summarize(items[1..]).ranked);
    }
  }

  /** An answer may be added at any place. */
  lemma {:induction false} AddedAnywhere(a: seq<Answer>, x: Answer, b: seq<Answer>)
    ensures Summarize(a + [x] + b) == AddTo(x, Summarize(a + b))
  {
    if a == [] {
      assert a + [x] + b == [x] + b && ([x] + b)[1..] == b && a + b == b;
    } else {
      assert (a + [x] + b)[0] == a[0] && (a + [x] + b)[1..] == a[1..] + [x] + b;
      assert (a + b)[0] == a[0] && (a + b)[1..] == a[1..] + b;
      AddedAnywhere(a[1..], x, b);
      var s := Summarize(a[1..] + b);
      SummaryIsRanked(a[1..] + b);
      InsertCommutes(a[0].score, x.score, s.ranked);
    }
  }

  lemma TakenOut(l: seq<Answer>, x: Answer, r: seq<Answer>)
    ensures multiset(l + [x] + r) - multiset{x} == multiset(l + r)
  {
    assert multiset(l + [x] + r) == multiset(l) + multiset{x} + multiset(r);
  }

  lemma HeadTakenOut(a: seq<Answer>)
    requires a != []
    ensures multiset(a) - multiset{a[0]} == multiset(a[1..])
  {
    assert a == [a[0]] + a[1..];
  }

  lemma Parts(l: seq<Answer>, i: nat)
    requires i < |l|
    ensures l == l[..i] + [l[i]] + l[i + 1..]
  {
  }

  /** Two lists with the same members: take the first one's head out of the second. */
  lemma TakeOut(a: seq<Answer>, b: seq<Answer>) returns (i: nat)
    requires multiset(a) == multiset(b) && a != []
    ensures i < |b| && b[i] == a[0] && b == b[..i] + [a[0]] + b[i + 1..]
    ensures multiset(a[1..]) == multiset(b[..i] + b[i + 1..])
  {
    assert a[0] in multiset(b);
    i :| 0 <= i < |b| && b[i] == a[0];
    Parts(b, i);
    HeadTakenOut(a);
    TakenOut(b[..i], a[0], b[i + 1..]);
  }

  lemma {:induction false} SummaryIgnoresOrder(a: seq<Answer>, b: seq<Answer>)
    requires multiset(a) == multiset(b)
    ensures Summarize(a) == Summarize(b)
    decreases |a|
  {
    if a == [] {
      assert |b| == |multiset(b)| == 0;
    } else {
      var i := TakeOut(a, b);
      SummaryIgnoresOrder(a[1..], b[..i] + b[i + 1..]);
      AddedAnywhere(b[..i], a[0], b[i + 1..]);
    }
  }

  ghost predicate SameFlags(good: seq<Answer>, s: Summary) {
    && s.proxy == Some(good, Proxy) && s.vpn == Some(good, Vpn)
    && s.tor == Some(good, Tor) && s.hosting == Some(good, Hosting)
  }

  lemma GoodOnesStep(items: seq<Answer>)
    requires items != []
    ensures !items[0].Good() ==> GoodOnes(items) == GoodOnes(items[1..])
    ensures items[0].Good() ==> GoodOnes(items) == [items[0]] + GoodOnes(items[1..])
  {
  }

  /** The summary holds exactly what the aggregate is made of. */
  lemma {:induction false} SummaryIsSound(items: seq<Answer>)
    ensures Summarize(items).ranked == SortDown(Scores(GoodOnes(items)))
    ensures Summarize(items).abuse == TopAbuse(GoodOnes(items))
    ensures SameFlags(GoodOnes(items), Summarize(items))
  {
    if items != [] {
      SummaryIsSound(items[1..]);
      GoodOnesStep(items);
      if items[0].Good() {
        var good, rest := GoodOnes(items), GoodOnes(items[1..]);
        assert Scores(good)[1..] == Scores(rest);
        assert good[0] == items[0] && good[1..] == rest;
      }
    }
  }

  /** Some provider that did not warn sets the flag. */
  ghost predicate AnyGood(answers: seq<Answer>, flag: Flag) {
    exists i | 0 <= i < |answers| :: answers[i].Good() && Has(answers[i], flag)
  }

  lemma GoodOnesSplit(items: seq<Answer>)
    requires items != []
    ensures var good, rest := GoodOnes(items), GoodOnes(items[1..]);
            if items[0].Good() then good != [] && good[0] == items[0] && good[1..] == rest else good == rest
  {
    GoodOnesStep(items);
  }

  lemma AnyGoodStep(items: seq<Answer>, flag: Flag)
    requires items != []
    ensures AnyGood(items, flag) <==> (items[0].Good() && Has(items[0], flag)) || AnyGood(items[1..], flag)
  {
    if AnyGood(items, flag) {
      var i :| 0 <= i < |items| && items[i].Good() && Has(items[i], flag);
      assert i > 0 ==> items[1..][i - 1] == items[i];
    }
    if AnyGood(items[1..], flag) {
      var i :| 0 <= i < |items| - 1 && items[1..][i].Good() && Has(items[1..][i], flag);
      assert items[i + 1] == items[1..][i];
    }
  }

  lemma {:induction false} FlagsOfGoodOnes(items: seq<Answer>, flag: Flag)
    ensures Some(GoodOnes(items), flag) <==> AnyGood(items, flag)
  {
    if items != [] {
      hide AnyGood;
      FlagsOfGoodOnes(items[1..], flag);
      AnyGoodStep(items, flag);
      GoodOnesSplit(items);
    }
  }

  lemma {:induction false} NoGoodOneIsAbove(items: seq<Answer>, i: nat)
    requires i < |items| && items[i].Good()
    ensures items[i].abuseScore <= TopAbuse(GoodOnes(items))
  {
    GoodOnesSplit(items);
    if i > 0 {
      NoGoodOneIsAbove(items[1..], i - 1);
    }
  }

  lemma {:induction false} AbuseOfGoodOnes(items: seq<Answer>) returns (i: nat)
    ensures TopAbuse(GoodOnes(items)) == 0 ||
            (i < |items| && items[i].Good() && items[i].abuseScore == TopAbuse(GoodOnes(items)))
  {
    i := 0;
    if items != [] {
      GoodOnesSplit(items);
      var j := AbuseOfGoodOnes(items[1..]);
      if !items[0].Good() || items[0].abuseScore <= TopAbuse(GoodOnes(items[1..])) {
        i := j + 1;
      }
    }
  }

  lemma {:induction false} GoodOnesAreSome(items: seq<Answer>)
    ensures GoodOnes(items) == [] <==> forall i | 0 <= i < |items| :: !items[i].Good()
  {
    if items != [] {
      GoodOnesAreSome(items[1..]);
      GoodOnesStep(items);
      assert forall i | 0 < i < |items| :: items[i] == items[1..][i - 1];
    }
  }

  lemma NormalizingKeepsFlags(answers: seq<Answer>, flag: Flag)
    ensures AnyGood(Normalize(answers), flag) <==> AnyGood(answers, flag)
  {
    var items := Normalize(answers);
    assert forall i | 0 <= i < |answers| ::
        (items[i].Good() <==> answers[i].Good()) && (Has(items[i], flag) <==> Has(answers[i], flag));
  }

  /**
   What the aggregate says of the providers: a flag is set exactly when one that did not
   warn sets it, and the abuse score is the highest of theirs, or 0 if there are none.
   */
  lemma AggregateIsSound(answers: seq<Answer>)
    ensures var r := Aggregated(answers);
            && (r.proxy <==> AnyGood(answers, Proxy)) && (r.vpn <==> AnyGood(answers, Vpn))
            && (r.tor <==> AnyGood(answers, Tor)) && (r.hosting <==> AnyGood(answers, Hosting))
            && (forall i | 0 <= i < |answers| && answers[i].Good() :: Clamp(answers[i].abuseScore) <= r.abuseScore)
            && (if forall i | 0 <= i < |answers| :: !answers[i].Good() then r.abuseScore == 0
                else exists i | 0 <= i < |answers| :: answers[i].Good() && Clamp(answers[i].abuseScore) == r.abuseScore)
  {
    hide Eighths, RoundEighths, SortDown, Scores;
    var items := Normalize(answers);
    forall flag: Flag
      ensures Some(GoodOnes(items), flag) <==> AnyGood(answers, flag)
    {
      FlagsOfGoodOnes(items, flag);
      NormalizingKeepsFlags(answers, flag);
    }
    var top := AbuseOfGoodOnes(items);
    forall i | 0 <= i < |answers| && answers[i].Good()
      ensures Clamp(answers[i].abuseScore) <= TopAbuse(GoodOnes(items))
    {
      NoGoodOneIsAbove(items, i);
    }
    assert forall i | 0 <= i < |answers| :: items[i] == answers[i].Normal();
    GoodOnesAreSome(items);
  }

  lemma SameSummarySameReputation(a: seq<Answer>, b: seq<Answer>)
    requires Summarize(a) == Summarize(b)
    ensures var r, q := Combine(a), Combine(b);
            && r.score == q.score && r.abuseScore == q.abuseScore
            && r.proxy == q.proxy && r.vpn == q.vpn && r.tor == q.tor && r.hosting == q.hosting
  {
    hide Eighths, RoundEighths;
    SummaryIsSound(a);
    SummaryIsSound(b);
    SortedDown(Scores(GoodOnes(a)));
    SortedDown(Scores(GoodOnes(b)));
  }

  lemma {:induction false} NormalizedMultiset(a: seq<Answer>, b: seq<Answer>)
    requires multiset(a) == multiset(b)
    ensures multiset(Normalize(a)) == multiset(Normalize(b))
    decreases |a|
  {
    if a == [] {
      assert |b| == |multiset(b)| == 0;
    } else {
      var i := TakeOut(a, b);
      var rest := b[..i] + b[i + 1..];
      NormalizedMultiset(a[1..], rest);
      assert Normalize(a) == [a[0].Normal()] + Normalize(a[1..]);
      assert Normalize(rest) == Normalize(b[..i]) + Normalize(b[i + 1..]);
      assert Normalize(b) == Normalize(b[..i]) + [a[0].Normal()] + Normalize(b[i + 1..]);
      assert multiset(Normalize(a)) == multiset{a[0].Normal()} + multiset(Normalize(rest));
    }
  }

  /** The order in which providers answer changes neither the score nor any flag nor the abuse score. */
  lemma CompletionOrderIsInvisible(a: seq<Answer>, b: seq<Answer>)
    requires multiset(a) == multiset(b)
    ensures var r, q := Aggregated(a), Aggregated(b);
            && r.score == q.score && r.abuseScore == q.abuseScore
            && r.proxy == q.proxy && r.vpn == q.vpn && r.tor == q.tor && r.hosting == q.hosting
  {
    NormalizedMultiset(a, b);
    SummaryIgnoresOrder(Normalize(a), Normalize(b));
    SameSummarySameReputation(Normalize(a), Normalize(b));
  }

  // ---- Warned providers ------------------------------------------------------------------

  lemma {:induction false} GoodOnesTwice(items: seq<Answer>)
    ensures GoodOnes(GoodOnes(items)) == GoodOnes(items)
  {
    if items != [] {
      GoodOnesTwice(items[1..]);
      GoodOnesStep(items);
      if items[0].Good() {
        var good := GoodOnes(items);
        assert good[0] == items[0] && good[1..] == GoodOnes(items[1..]);
        GoodOnesStep(good);
      }
    }
  }

  lemma {:induction false} GoodOnesNormalize(answers: seq<Answer>)
    ensures GoodOnes(Normalize(answers)) == Normalize(GoodOnes(answers))
  {
    if answers != [] {
      GoodOnesNormalize(answers[1..]);
      assert Normalize(answers)[1..] == Normalize(answers[1..]);
    }
  }

  /** Dropping every provider that warned changes nothing but the list of warnings. */
  lemma WarnedProvidersAreIgnored(answers: seq<Answer>)
    ensures Aggregated(answers).(warnings := []) == Aggregated(GoodOnes(answers)).(warnings := [])
  {
    hide Eighths, RoundEighths, SortDown;
    GoodOnesNormalize(answers);
    GoodOnesTwice(Normalize(answers));
  }

  // ---- Size of the score -----------------------------------------------------------------

  /** `n` is the best normalised score among the good answers. */
  ghost predicate IsTop(answers: seq<Answer>, n: int) {
    && (exists i | 0 <= i < |answers| :: answers[i].Good() && Clamp(answers[i].score) == n)
    && (forall i | 0 <= i < |answers| && answers[i].Good() :: Clamp(answers[i].score) <= n)
  }

  lemma {:induction false} RankedFacts(items: seq<Answer>)
    requires forall i | 0 <= i < |items| :: 0 <= items[i].score <= 100
    ensures var r := Summarize(items).ranked;
            && Down(r) && (forall k | 0 <= k < |r| :: 0 <= r[k] <= 100)
            && (r != [] ==> exists i | 0 <= i < |items| :: items[i].Good() && items[i].score == r[0])
            && (forall i | 0 <= i < |items| && items[i].Good() :: r != [] && items[i].score <= r[0])
  {
    if items != [] {
      var rest := items[1..];
      RankedFacts(rest);
      var r := Summarize(rest).ranked;
      InsertKeepsDown(items[0].score, r);
      assert forall i | 0 < i < |items| :: items[i] == rest[i - 1];
      if r != [] {
        var i :| 0 <= i < |rest| && rest[i].Good() && rest[i].score == r[0];
        assert items[i + 1].Good() && items[i + 1].score == r[0];
      }
    }
  }

  lemma TopIsRankedFirst(answers: seq<Answer>, items: seq<Answer>, top: int)
    requires items == Normalize(answers) && IsTop(answers, top)
    ensures Summarize(items).ranked != [] && Summarize(items).ranked[0] == top
  {
    assert forall i | 0 <= i < |items| :: items[i] == answers[i].Normal();
    RankedFacts(items);
    var r := Summarize(items).ranked;
    var k :| 0 <= k < |answers| && answers[k].Good() && Clamp(answers[k].score) == top;
    assert items[k].Good();
    var i :| 0 <= i < |items| && items[i].Good() && items[i].score == r[0];
    assert answers[i].Good();
  }

  lemma EighthsBounded(items: seq<Answer>)
    requires forall i | 0 <= i < |items| :: 0 <= items[i].score <= 100
    ensures Summarize(items).ranked != [] ==> 0 <= Eighths(Summarize(items).ranked) <= 800
  {
    RankedFacts(items);
  }

  lemma AtMostAHundred(n: nat)
    requires n <= 800
    ensures RoundEighths(n) <= 100
  {
  }

  /** The aggregate score in terms of the ranked scores. */
  lemma ScoreOfRanked(items: seq<Answer>)
    requires forall i | 0 <= i < |items| :: 0 <= items[i].score <= 100
    ensures var r := Summarize(items).ranked;
            if r == [] then Combine(items).score == 0
            else 0 <= Eighths(r) && Combine(items).score == RoundEighths(Eighths(r))
  {
    hide RoundEighths, Eighths, Summarize, SameFlags, Some, TopAbuse, Down;
    EighthsBounded(items);
    SummaryIsSound(items);
    SortedDown(Scores(GoodOnes(items)));
    var r := Summarize(items).ranked;
    if r != [] {
      AtMostAHundred(Eighths(r));
    }
  }

  lemma RoundingIsMonotone(m: nat, n: nat)
    requires m <= n
    ensures RoundEighths(m) <= RoundEighths(n)
    ensures n % 8 == 0 ==> RoundEighths(n) == n / 8
  {
  }

  /** The score lies between three quarters of the best one, rounded half to even, and the best one. */
  lemma ScoreIsNearTheTop(answers: seq<Answer>, top: int)
    requires IsTop(answers, top)
    ensures 0 <= top && RoundEighths(6 * top) <= Aggregated(answers).score <= top
  {
    var items := Normalize(answers);
    TopIsRankedFirst(answers, items, top);
    var r := Summarize(items).ranked;
    ScoreOfRanked(items);
    assert 6 * top <= Eighths(r) <= 8 * top by { RankedFacts(items); }
    RoundingIsMonotone(6 * top, Eighths(r));
    RoundingIsMonotone(Eighths(r), 8 * top);
  }

  // ---- What the consensus adds ---------------------------------------------------------

  /** How many providers that did not warn score at least `x`, scores outside 0..100 counting as the nearest end. */
  function AtLeast(answers: seq<Answer>, x: int): nat {
    if answers == [] then 0
    else AtLeast(answers[1..], x) + if answers[0].Good() && Clamp(answers[0].score) >= x then 1 else 0
  }

  /** `v` is the `r`-th best score: `r` providers reach it, and fewer reach more. */
  predicate IsRanked(answers: seq<Answer>, r: nat, v: int) {
    AtLeast(answers, v) >= r && AtLeast(answers, v + 1) < r
  }

  /** How many providers did not warn. */
  function Voices(answers: seq<Answer>): nat {
    if answers == [] then 0 else Voices(answers[1..]) + if answers[0].Good() then 1 else 0
  }

  /** `q` is `n / d` to the nearest whole number, halves to the even one. */
  predicate NearestEven(n: int, d: nat, q: int) {
    && -(d as int) <= 2 * (d * q - n) <= d
    && (2 * (d * q - n) == d || 2 * (d * q - n) == -(d as int) ==> q % 2 == 0)
  }

  function CountAtLeast(s: seq<int>, x: int): nat {
    if s == [] then 0 else CountAtLeast(s[1..], x) + if s[0] >= x then 1 else 0
  }

  lemma {:induction false} InsertCounts(v: int, s: seq<int>, x: int)
    ensures CountAtLeast(Insert(v, s), x) == CountAtLeast(s, x) + if v >= x then 1 else 0
  {
    var t := Insert(v, s);
    if s == [] || v >= s[0] {
      assert t[1..] == s;
    } else {
      assert t[0] == s[0] && t[1..] == Insert(v, s[1..]);
      InsertCounts(v, s[1..], x);
    }
  }

  lemma {:induction false} InsertLength(v: int, s: seq<int>)
    ensures |Insert(v, s)| == |s| + 1
  {
    if s != [] && v < s[0] {
      InsertLength(v, s[1..]);
    }
  }

  lemma {:induction false} RankedCounts(answers: seq<Answer>, x: int)
    ensures CountAtLeast(Summarize(Normalize(answers)).ranked, x) == AtLeast(answers, x)
    ensures |Summarize(Normalize(answers)).ranked| == Voices(answers)
  {
    var items := Normalize(answers);
    if answers != [] {
      assert items[1..] == Normalize(answers[1..]);
      RankedCounts(answers[1..], x);
      var rest := Summarize(items[1..]).ranked;
      InsertCounts(items[0].score, rest, x);
      InsertLength(items[0].score, rest);
    }
  }

  /** In a descending list the values that reach `x` are the first ones. */
  lemma {:induction false} CountIsPlace(s: seq<int>, x: int)
    requires Down(s)
    ensures CountAtLeast(s, x) <= |s|
    ensures forall i | 0 <= i < |s| :: s[i] >= x <==> i < CountAtLeast(s, x)
  {
    if s != [] {
      var rest := s[1..];
      assert Down(rest) by {
        assert forall i | 0 <= i < |rest| :: rest[i] == s[i + 1];
      }
      CountIsPlace(rest, x);
      assert forall i | 0 < i < |s| :: s[i] == rest[i - 1];
      if s[0] < x {
        assert CountAtLeast(rest, x) == 0;
      }
    }
  }

  lemma RankIsPlace(answers: seq<Answer>, r: nat, v: int)
    requires r >= 1 && IsRanked(answers, r, v)
    ensures var ranked := Summarize(Normalize(answers)).ranked; r <= |ranked| == Voices(answers) && ranked[r - 1] == v
  {
    var ranked := Summarize(Normalize(answers)).ranked;
    SummaryIsRanked(Normalize(answers));
    RankedCounts(answers, v);
    RankedCounts(answers, v + 1);
    CountIsPlace(ranked, v);
    CountIsPlace(ranked, v + 1);
  }

  lemma RoundsToNearestEven(n: nat)
    ensures NearestEven(n, 8, RoundEighths(n))
  {
  }

  /**
   The score by ranks: three quarters of the best and a quarter of the mean of the second
   and third, of the second alone when there are two, of nothing when there is one; to the
   nearest whole number, halves to the even one.
   */
  lemma ScoreByRanks(answers: seq<Answer>, top: int, second: int, third: int)
    requires Voices(answers) >= 1 && IsRanked(answers, 1, top)
    requires Voices(answers) >= 2 ==> IsRanked(answers, 2, second)
    requires Voices(answers) >= 3 ==> IsRanked(answers, 3, third)
    ensures var voices := Voices(answers);
            var consensus := if voices == 1 then 0 else if voices == 2 then 2 * second else second + third;
            NearestEven(6 * top + consensus, 8, Aggregated(answers).score)
  {
    hide IsRanked, RoundEighths, NearestEven, Summarize;
    var items := Normalize(answers);
    var r := Summarize(items).ranked;
    RankIsPlace(answers, 1, top);
    if Voices(answers) >= 2 {
      RankIsPlace(answers, 2, second);
    }
    if Voices(answers) >= 3 {
      RankIsPlace(answers, 3, third);
    }
    ScoreOfRanked(items);
    RoundsToNearestEven(Eighths(r));
  }

  lemma {:induction false} AllAtLeast(answers: seq<Answer>, x: int)
    requires forall i | 0 <= i < |answers| && answers[i].Good() :: Clamp(answers[i].score) == x
    ensures AtLeast(answers, x) == Voices(answers) && AtLeast(answers, x + 1) == 0
  {
    if answers != [] {
      AllAtLeast(answers[1..], x);
    }
  }

  /** Providers that all say the same are believed when there are two or more; one alone counts for three quarters. */
  lemma UnanimousScore(answers: seq<Answer>, x: int)
    requires Voices(answers) >= 1
    requires forall i | 0 <= i < |answers| && answers[i].Good() :: Clamp(answers[i].score) == x
    ensures Voices(answers) >= 2 ==> Aggregated(answers).score == x
    ensures Voices(answers) == 1 ==> NearestEven(3 * x, 4, Aggregated(answers).score)
  {
    hide Aggregated, Voices, AtLeast, Clamp;
    AllAtLeast(answers, x);
    ScoreByRanks(answers, x, x, x);
  }

  /** The number between 0 and 100 that comes nearest. */
  lemma ClampIsNearest(n: int, m: int)
    requires 0 <= m <= 100
    ensures 0 <= Clamp(n) <= 100
    ensures (if n < Clamp(n) then Clamp(n) - n else n - Clamp(n)) <= (if n < m then m - n else n - m)
  {
  }

  // ---- Names -----------------------------------------------------------------------------

  lemma {:induction false} GoodOnesAdd(a: seq<Answer>, b: seq<Answer>)
    ensures GoodOnes(a + b) == GoodOnes(a) + GoodOnes(b)
  {
    if a == [] {
      assert a + b == b;
    } else {
      assert (a + b)[0] == a[0] && (a + b)[1..] == a[1..] + b;
      GoodOnesAdd(a[1..], b);
    }
  }

  lemma {:induction false} WarningsAdd(a: seq<Answer>, b: seq<Answer>)
    ensures Warnings(a + b) == Warnings(a) + Warnings(b)
  {
    if a == [] {
      assert a + b == b;
    } else {
      assert (a + b)[0] == a[0] && (a + b)[1..] == a[1..] + b;
      WarningsAdd(a[1..], b);
    }
  }

  lemma {:induction false} FirstTextAdds(a: seq<string>, b: seq<string>)
    ensures FirstText(a + b) == if FirstText(a) != "" then FirstText(a) else FirstText(b)
  {
    if a == [] {
      assert a + b == b;
    } else {
      assert (a + b)[0] == a[0] && (a + b)[1..] == a[1..] + b;
      FirstTextAdds(a[1..], b);
    }
  }

  lemma NamesOf(items: seq<Answer>)
    ensures var r, good := Combine(items), GoodOnes(items);
            && r.country == FirstText(Countries(good)) && r.asn == FirstText(Asns(good))
            && r.providers == Providers(good) && r.warnings == Warnings(items)
  {
    hide Eighths, RoundEighths, SortDown, GoodOnes, Warnings, TopAbuse;
  }

  /** The first of two names that is given. */
  function Or(a: string, b: string): string {
    if a != "" then a else b
  }

  /**
   Names keep the order of the answers: two lists put together are listed, and warned of, one after the
   other, and the country and network of the first list come before those of the second.
   */
  lemma NamesComeInOrder(a: seq<Answer>, b: seq<Answer>)
    ensures var r, s, t := Aggregated(a), Aggregated(b), Aggregated(a + b);
            && t.providers == r.providers + s.providers && t.warnings == r.warnings + s.warnings
            && t.country == Or(r.country, s.country) && t.asn == Or(r.asn, s.asn)
  {
    hide Combine, FirstText, GoodOnes, Warnings;
    var m, n := Normalize(a), Normalize(b);
    assert Normalize(a + b) == m + n;
    GoodOnesAdd(m, n);
    WarningsAdd(m, n);
    NamesOf(m);
    NamesOf(n);
    NamesOf(m + n);
    var g, h := GoodOnes(m), GoodOnes(n);
    assert Countries(g + h) == Countries(g) + Countries(h);
    assert Asns(g + h) == Asns(g) + Asns(h);
    assert Providers(g + h) == Providers(g) + Providers(h);
    FirstTextAdds(Countries(g), Countries(h));
    FirstTextAdds(Asns(g), Asns(h));
  }

  /** One answer alone is listed with its country and network, or warned of with its warning. */
  lemma NamesOfOne(x: Answer)
    ensures var r := Aggregated([x]);
            if x.warning == ""
            then r.providers == [x.provider] && r.warnings == [] && r.country == x.country && r.asn == x.asn
            else r.providers == [] && r.warnings == [x.provider + ":" + x.warning] && r.country == "" && r.asn == ""
  {
    hide Combine;
    var y := x.Normal();
    assert Normalize([x]) == [y];
    NamesOf([y]);
    assert GoodOnes([y][1..]) == [] && Warnings([y][1..]) == [];
    assert GoodOnes([y]) == (if x.Good() then [y] else []);
    assert Countries([y]) == [x.country] && Asns([y]) == [x.asn] && Providers([y]) == [x.provider];
    assert FirstText([x.country][1..]) == "" && FirstText([x.asn][1..]) == "";
  }

  // ---- Raising a score -------------------------------------------------------------------

  ghost predicate Below(a: seq<int>, b: seq<int>) {
    |a| == |b| && forall i | 0 <= i < |a| :: a[i] <= b[i]
  }

  lemma BelowCons(p: int, s: seq<int>, q: int, t: seq<int>)
    requires p <= q && Below(s, t)
    ensures Below([p] + s, [q] + t)
  {
  }

  lemma BelowTail(s: seq<int>, t: seq<int>)
    requires Below(s, t) && s != []
    ensures t != [] && s[0] <= t[0] && Below(s[1..], t[1..]) && s == [s[0]] + s[1..] && t == [t[0]] + t[1..]
  {
  }

  lemma InsertInFront(x: int, s: seq<int>)
    requires Down(s) && s != [] && x >= s[0]
    ensures Insert(x, s[1..]) == [x] + s[1..]
  {
    assert s[1..] != [] ==> s[0] >= s[1];
  }

  lemma DownTail(s: seq<int>)
    requires Down(s) && s != []
    ensures Down(s[1..])
  {
  }

  lemma {:induction false} InsertMonotone(x: int, y: int, s: seq<int>, t: seq<int>)
    requires x <= y && Below(s, t) && Down(s) && Down(t)
    ensures Below(Insert(x, s), Insert(y, t))
    decreases |s|
  {
    if s == [] {
      assert t == [];
    } else {
      BelowTail(s, t);
      DownTail(s);
      DownTail(t);
      hide Below, Down;
      var s', t' := s[1..], t[1..];
      if x >= s[0] && y >= t[0] {
        BelowCons(x, s, y, t);
      } else if x < s[0] && y < t[0] {
        InsertMonotone(x, y, s', t');
        BelowCons(s[0], Insert(x, s'), t[0], Insert(y, t'));
      } else if x >= s[0] {
        InsertMonotone(x, y, s', t');
        InsertInFront(x, s);
        BelowTail([x] + s', Insert(y, t'));
        assert ([x] + s')[1..] == s';
        BelowCons(s[0], s', Insert(y, t')[0], Insert(y, t')[1..]);
        BelowCons(x, s, t[0], Insert(y, t'));
      } else {
        InsertMonotone(x, y, s', t');
        InsertInFront(y, t);
        BelowTail(Insert(x, s'), [y] + t');
        assert ([y] + t')[1..] == t';
        BelowCons(Insert(x, s')[0], Insert(x, s')[1..], t[0], t');
        BelowCons(s[0], Insert(x, s'), y, t);
      }
    }
  }

  /** Same answers, but for scores that are no lower. */
  ghost predicate Raised(a: seq<Answer>, b: seq<Answer>) {
    |a| == |b| && forall i | 0 <= i < |a| :: a[i].score <= b[i].score && b[i] == a[i].(score := b[i].score)
  }

  lemma {:induction false} RankedMonotone(a: seq<Answer>, b: seq<Answer>)
    requires Raised(a, b)
    ensures Below(Summarize(a).ranked, Summarize(b).ranked)
  {
    if a != [] {
      assert Raised(a[1..], b[1..]);
      RankedMonotone(a[1..], b[1..]);
      SummaryIsRanked(a[1..]);
      SummaryIsRanked(b[1..]);
      if a[0].Good() {
        InsertMonotone(a[0].score, b[0].score, Summarize(a[1..]).ranked, Summarize(b[1..]).ranked);
      }
    }
  }

  /** Raising the scores of any providers never lowers the aggregate. */
  lemma RaisingScoresNeverLowers(a: seq<Answer>, b: seq<Answer>)
    requires Raised(a, b)
    ensures Aggregated(a).score <= Aggregated(b).score
  {
    var m, n := Normalize(a), Normalize(b);
    assert Raised(m, n);
    RankedMonotone(m, n);
    ScoreOfRanked(m);
    ScoreOfRanked(n);
    var r, s := Summarize(m).ranked, Summarize(n).ranked;
    if r != [] {
      RoundingIsMonotone(Eighths(r), Eighths(s));
    }
  }
}
