/** Site policy: what the gateway accepts as configuration and how it finds a site (config.go). */
module Sites {
  import opened Wrappers
  import opened Text

  /** Secrets are compared byte by byte, so they are kept as machine bytes. */
  type Secret = seq<bv8>

  datatype Thresholds = Thresholds(pow: int, interactive: int, block: int)

  datatype Site = Site(
    key: string,
    secret: Secret,
    hostnames: seq<string>,
    tokenTtlSeconds: int,
    challengeTtlSeconds: int,
    rateLimitPerMinute: int,
    bindIpPrefix: bool,
    thresholds: Thresholds)

  const DEFAULT_THRESHOLDS := Thresholds(30, 62, 92)

  datatype Fault =
    | InvalidKey
    | ShortSecret
    | DevelopmentSecret
    | NoHostname
    | BadThresholds
    | BadTokenTtl
    | BadChallengeTtl
    | DuplicateKey
    | DuplicateSecret

  /** "change_me" in ASCII. */
  const CHANGE_ME: Secret := [0x63, 0x68, 0x61, 0x6e, 0x67, 0x65, 0x5f, 0x6d, 0x65]

  function LowerByte(b: bv8): bv8 {
    if 0x41 <= b <= 0x5a then b + 0x20 else b
  }

  predicate ChangeMeAt(secret: Secret, i: nat)
    requires i + |CHANGE_ME| <= |secret|
  {
    forall k | 0 <= k < |CHANGE_ME| :: LowerByte(secret[i + k]) == CHANGE_ME[k]
  }

  predicate MentionsChangeMe(secret: Secret) {
    exists i | 0 <= i <= |secret| - |CHANGE_ME| :: ChangeMeAt(secret, i)
  }

  predicate GoodThresholds(t: Thresholds) {
    0 < t.pow < t.interactive < t.block <= 100
  }

  /** The first objection to one site on its own. */
  function OwnFault(s: Site, production: bool): Option<Fault> {
    if TrimSpace(s.key) == "" || |s.key| > 128 then Some(InvalidKey)
    else if |s.secret| < 16 then Some(ShortSecret)
    else if production && MentionsChangeMe(s.secret) then Some(DevelopmentSecret)
    else if |s.hostnames| == 0 then Some(NoHostname)
    else if !GoodThresholds(s.thresholds) then Some(BadThresholds)
    else if s.tokenTtlSeconds < 30 || s.tokenTtlSeconds > 600 then Some(BadTokenTtl)
    else if s.challengeTtlSeconds < 30 || s.challengeTtlSeconds > 900 then Some(BadChallengeTtl)
    else None
  }

  /** The objection to site `i` of a list, earlier sites included. */
  function FaultAt(sites: seq<Site>, i: nat, production: bool): Option<Fault>
    requires i < |sites|
  {
    var own := OwnFault(sites[i], production);
    if own.Some? then own
    else if exists j | 0 <= j < i :: sites[j].key == sites[i].key then Some(DuplicateKey)
    else if exists j | 0 <= j < i :: sites[j].secret == sites[i].secret then Some(DuplicateSecret)
    else None
  }

  ghost predicate Accepted(sites: seq<Site>, production: bool) {
    forall i | 0 <= i < |sites| :: FaultAt(sites, i, production).None?
  }

  lemma PrefixFaults(sites: seq<Site>, i: nat, production: bool)
    requires i <= |sites|
    ensures forall j | 0 <= j < i :: FaultAt(sites[..i], j, production) == FaultAt(sites, j, production)
  {
  }

  /** Reports the first faulty site, or nothing exactly when the list is acceptable. */
  method ValidateSites(sites: seq<Site>, production: bool) returns (fault: Option<(nat, Fault)>)
    ensures fault.None? <==> Accepted(sites, production)
    ensures fault.Some? ==>
              var (i, f) := fault.value;
              && i < |sites| && FaultAt(sites, i, production) == Some(f)
              && Accepted(sites[..i], production)
  {
    var seenKeys: set<string> := {};
    var seenSecrets: set<Secret> := {};
    for i := 0 to |sites|
      invariant seenKeys == set j | 0 <= j < i :: sites[j].key
      invariant seenSecrets == set j | 0 <= j < i :: sites[j].secret
      invariant forall j | 0 <= j < i :: FaultAt(sites, j, production).None?
    {
      var s := sites[i];
      PrefixFaults(sites, i, production);
      var own := OwnFault(s, production);
      if own.Some? {
        assert FaultAt(sites, i, production) == own;
        return Some((i, own.value));
      }
      if s.key in seenKeys {
        assert FaultAt(sites, i, production) == Some(DuplicateKey);
        return Some((i, DuplicateKey));
      }
      if s.secret in seenSecrets {
        assert FaultAt(sites, i, production) == Some(DuplicateSecret);
        return Some((i, DuplicateSecret));
      }
      seenKeys := seenKeys + {s.key};
      seenSecrets := seenSecrets + {s.secret};
    }
    return None;
  }

  /** "CHANGE_ME" in ASCII. */
  const CHANGE_ME_CAPITALS: Secret := [0x43, 0x48, 0x41, 0x4e, 0x47, 0x45, 0x5f, 0x4d, 0x45]

  /** "change_me" byte by byte, each letter in either case. */
  predicate SpellsChangeMe(w: Secret) {
    |w| == 9 && forall k | 0 <= k < 9 :: w[k] == CHANGE_ME[k] || w[k] == CHANGE_ME_CAPITALS[k]
  }

  lemma LetterByte(b: bv8, k: nat)
    requires k < 9
    ensures LowerByte(b) == CHANGE_ME[k] <==> b == CHANGE_ME[k] || b == CHANGE_ME_CAPITALS[k]
  {
    match k {
      case 0 => case 1 => case 2 => case 3 => case 4 => case 5 => case 6 => case 7 => case _ =>
    }
  }

  lemma ChangeMeIsSpelled(secret: Secret, i: nat)
    requires i + 9 <= |secret|
    ensures ChangeMeAt(secret, i) <==> SpellsChangeMe(secret[i..i + 9])
  {
    hide LowerByte;
    var w := secret[i..i + 9];
    forall k: nat | k < 9
      ensures LowerByte(secret[i + k]) == CHANGE_ME[k] <==> w[k] == CHANGE_ME[k] || w[k] == CHANGE_ME_CAPITALS[k]
    {
      LetterByte(w[k], k);
    }
  }

  /** A development secret anywhere in the text, in any letter case. */
  ghost predicate HoldsChangeMe(secret: Secret) {
    exists a, w, b :: SpellsChangeMe(w) && secret == a + w + b
  }

  lemma SpelledLength(w: Secret)
    requires SpellsChangeMe(w)
    ensures |w| == 9
  {
  }

  lemma MentionsExactlyWhenItHolds(secret: Secret)
    ensures MentionsChangeMe(secret) <==> HoldsChangeMe(secret)
  {
    hide ChangeMeAt, SpellsChangeMe;
    if MentionsChangeMe(secret) {
      var i :| 0 <= i <= |secret| - |CHANGE_ME| && ChangeMeAt(secret, i);
      ChangeMeIsSpelled(secret, i);
      assert secret == secret[..i] + secret[i..i + 9] + secret[i + 9..];
    }
    if HoldsChangeMe(secret) {
      var a, w, b :| SpellsChangeMe(w) && secret == a + w + b;
      SpelledLength(w);
      assert secret[|a|..|a| + 9] == w;
      ChangeMeIsSpelled(secret, |a|);
    }
  }

  /** Every limit that one site on its own has to meet. */
  ghost predicate SoundSite(s: Site, production: bool) {
    && TrimSpace(s.key) != "" && |s.key| <= 128 && |s.secret| >= 16 && |s.hostnames| >= 1
    && (production ==> !HoldsChangeMe(s.secret))
    && 0 < s.thresholds.pow < s.thresholds.interactive < s.thresholds.block <= 100
    && 30 <= s.tokenTtlSeconds <= 600 && 30 <= s.challengeTtlSeconds <= 900
  }

  lemma OwnFaultExactlyWhen(s: Site, production: bool)
    ensures OwnFault(s, production).None? <==> SoundSite(s, production)
  {
    hide HoldsChangeMe, MentionsChangeMe, TrimSpace;
    MentionsExactlyWhenItHolds(s.secret);
  }

  /** A list is accepted exactly when each site meets every limit and no two share a key or a secret. */
  lemma AcceptedExactlyWhen(sites: seq<Site>, production: bool)
    ensures Accepted(sites, production) <==>
              && (forall i | 0 <= i < |sites| :: SoundSite(sites[i], production))
              && (forall i, j | 0 <= i < j < |sites| ::
                    sites[i].key != sites[j].key && sites[i].secret != sites[j].secret)
  {
    hide SoundSite, OwnFault;
    forall i | 0 <= i < |sites|
      ensures OwnFault(sites[i], production).None? <==> SoundSite(sites[i], production)
      ensures FaultAt(sites, i, production).None? <==>
                && SoundSite(sites[i], production)
                && forall j | 0 <= j < i :: sites[j].key != sites[i].key && sites[j].secret != sites[i].secret
    {
      OwnFaultExactlyWhen(sites[i], production);
    }
  }

  lemma AcceptedAreDistinct(sites: seq<Site>, production: bool, i: nat, j: nat)
    requires Accepted(sites, production) && i < |sites| && j < |sites|
    ensures sites[i].key == sites[j].key <==> i == j
    ensures sites[i].secret == sites[j].secret <==> i == j
    ensures GoodThresholds(sites[i].thresholds) && 30 <= sites[i].tokenTtlSeconds <= 600
    ensures 30 <= sites[i].challengeTtlSeconds <= 900 && |sites[i].secret| >= 16
  {
    assert FaultAt(sites, i, production).None? && FaultAt(sites, j, production).None?;
  }

  // ---- Looking sites up ------------------------------------------------------------

  /** The site a list assigns to a key: the last one, as the registry overwrites. */
  function LastWithKey(sites: seq<Site>, key: string): Option<Site> {
    if sites == [] then None
    else if sites[|sites| - 1].key == key then Some(sites[|sites| - 1])
    else LastWithKey(sites[..|sites| - 1], key)
  }

  ghost predicate Indexes(m: map<string, Site>, sites: seq<Site>) {
    forall key :: (if key in m then Some(m[key]) else None) == LastWithKey(sites, key)
  }

  lemma XorDetectsDifference(x: bv8, p: bv8, q: bv8)
    ensures x | (p ^ q) == 0 <==> x == 0 && p == q
  {
  }

  /** Compares without leaving early; the accumulated difference is zero exactly on equal strings. */
  method ConstantTimeStringEqual(a: Secret, b: Secret) returns (equal: bool)
    ensures equal <==> a == b
  {
    if |a| != |b| {
      return false;
    }
    var x: bv8 := 0;
    for i := 0 to |a|
      invariant x == 0 <==> a[..i] == b[..i]
    {
      XorDetectsDifference(x, a[i], b[i]);
      x := x | (a[i] ^ b[i]);
      assert a[..i + 1] == a[..i] + [a[i]] && b[..i + 1] == b[..i] + [b[i]];
    }
    assert a[..|a|] == a && b[..|b|] == b;
    equal := x == 0;
  }

  /** All that one walk over a map in unknown order promises. */
  ghost predicate FoundBySecret(sites: map<string, Site>, secret: Secret, found: Option<Site>) {
    match found
    case Some(s) => s.secret == secret && exists k | k in sites :: sites[k] == s
    case None => forall k | k in sites :: sites[k].secret != secret
  }

  class Registry {
    var sites: map<string, Site>

    constructor (list: seq<Site>)
      ensures Indexes(sites, list)
    {
      sites := map[];
      new;
      for i := 0 to |list|
        invariant Indexes(sites, list[..i])
      {
        assert list[..i + 1][..i] == list[..i];
        sites := sites[list[i].key := list[i]];
      }
      assert list[..|list|] == list;
    }

    function Get(key: string): Option<Site>
      reads this
    {
      if key in sites then Some(sites[key]) else None
    }

    /** Walks the map in whatever order it comes and stops at the first site with the secret. */
    method GetBySecret(secret: Secret) returns (found: Option<Site>)
      ensures FoundBySecret(sites, secret, found)
    {
      var keys := sites.Keys;
      while keys != {}
        invariant keys <= sites.Keys
        invariant forall k | k in sites && k !in keys :: sites[k].secret != secret
        decreases keys
      {
        var k :| k in keys;
        keys := keys - {k};
        var same := ConstantTimeStringEqual(sites[k].secret, secret);
        if same {
          return Some(sites[k]);
        }
      }
      return None;
    }
  }

  lemma {:induction false} LastWithKeyIsListed(sites: seq<Site>, key: string)
    ensures LastWithKey(sites, key).Some? ==>
              LastWithKey(sites, key).value in sites && LastWithKey(sites, key).value.key == key
    ensures LastWithKey(sites, key).None? ==> forall i | 0 <= i < |sites| :: sites[i].key != key
  {
    if sites != [] && sites[|sites| - 1].key != key {
      LastWithKeyIsListed(sites[..|sites| - 1], key);
      forall i | 0 <= i < |sites| && LastWithKey(sites, key).None?
        ensures sites[i].key != key
      {
        if i < |sites| - 1 {
          assert sites[i] == sites[..|sites| - 1][i];
        }
      }
    }
  }

  /** In an accepted list every site is found under its own key. */
  lemma AcceptedSiteIsIndexed(sites: seq<Site>, production: bool, m: map<string, Site>, i: nat)
    requires Accepted(sites, production) && Indexes(m, sites) && i < |sites|
    ensures sites[i].key in m && m[sites[i].key] == sites[i]
  {
    var key := sites[i].key;
    LastWithKeyIsListed(sites, key);
    assert (if key in m then Some(m[key]) else None) == LastWithKey(sites, key);
    if LastWithKey(sites, key).Some? {
      var j :| 0 <= j < |sites| && sites[j] == LastWithKey(sites, key).value;
      AcceptedAreDistinct(sites, production, i, j);
    }
  }

  lemma FoundIsListed(sites: seq<Site>, m: map<string, Site>, secret: Secret, found: Option<Site>) returns (j: nat)
    requires Indexes(m, sites) && FoundBySecret(m, secret, found) && found.Some?
    ensures j < |sites| && sites[j] == found.value && sites[j].secret == secret
  {
    var k :| k in m && m[k] == found.value;
    LastWithKeyIsListed(sites, k);
    assert (if k in m then Some(m[k]) else None) == LastWithKey(sites, k);
    j :| 0 <= j < |sites| && sites[j] == found.value;
  }

  /**
   Whatever order the map is walked in, looking a secret up finds the one listed site that
   owns it, or nothing exactly when no site does; and looking up that site's key finds the
   same site.
   */
  lemma SecretLookupFindsTheOwner(sites: seq<Site>, production: bool, m: map<string, Site>, secret: Secret,
                                  found: Option<Site>)
    requires Accepted(sites, production) && Indexes(m, sites) && FoundBySecret(m, secret, found)
    ensures found.Some? <==> exists i | 0 <= i < |sites| :: sites[i].secret == secret
    ensures forall i | 0 <= i < |sites| && sites[i].secret == secret ::
              found == Some(sites[i]) && sites[i].key in m && m[sites[i].key] == sites[i]
  {
    forall i | 0 <= i < |sites| && sites[i].secret == secret
      ensures found == Some(sites[i]) && sites[i].key in m && m[sites[i].key] == sites[i]
    {
      AcceptedSiteIsIndexed(sites, production, m, i);
      var j := FoundIsListed(sites, m, secret, found);
      AcceptedAreDistinct(sites, production, i, j);
    }
    if found.Some? {
      var j := FoundIsListed(sites, m, secret, found);
    }
  }
}
