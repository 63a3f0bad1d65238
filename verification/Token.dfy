/** Signed tokens: minting, signing and verifying across key rotation (token.go). */
module Token {
  import opened Wrappers
  import opened Clock
  import opened Base64Url

  datatype Header = Header(alg: string, typ: string, kid: string)

  datatype Claims = Claims(
    issuer: string,
    audience: string,
    siteKey: string,
    action: string,
    hostname: string,
    jti: string,
    issuedAt: int,
    expiresAt: int,
    riskScore: int,
    riskBucket: string,
    challengeKind: string,
    ipBind: string)

  /** JSON and HMAC-SHA-256 as the signer sees them; nothing is known of them but `Lawful`. */
  datatype Codec = Codec(
    writeHeader: Header -> Bytes,
    readHeader: Bytes -> Option<Header>,
    writeClaims: Claims -> Bytes,
    readClaims: Bytes -> Option<Claims>,
    mac: (Bytes, string) -> Bytes)
  {
    /** JSON reads back what it wrote. */
    ghost predicate Lawful() {
      && (forall h :: readHeader(writeHeader(h)) == Some(h))
      && (forall c :: readClaims(writeClaims(c)) == Some(c))
    }

    /** The symbolic reading of HMAC: different keys give different tags. */
    ghost predicate KeysSeparate() {
      forall k, k', text :: mac(k, text) == mac(k', text) ==> k == k'
    }
  }

  datatype Signer = Signer(activeSecret: Bytes, kid: string, verifyKeys: map<string, Bytes>)

  datatype Rejection =
    | Malformed
    | BadHeader
    | UnknownKey
    | BadSignature
    | BadPayload
    | WrongAudience
    | Expired
    | IssuedInFuture
    | MissingClaims

  /** The verification ring: previous keys under their own ids, the active one always under its own. */
  function Ring(secret: Bytes, kid: string, previous: map<string, Bytes>): map<string, Bytes> {
    map k | k in previous.Keys + {kid} && (k == kid || k != "") :: if k == kid then secret else previous[k]
  }

  method NewSignerWithKeys(secret: Bytes, kid: string, previous: map<string, Bytes>) returns (s: Signer)
    ensures s == Signer(secret, kid, Ring(secret, kid, previous))
  {
    var keys := map[kid := secret];
    var todo := previous.Keys;
    while todo != {}
      invariant todo <= previous.Keys
      invariant forall k :: k in keys <==> k == kid || (k in previous && k !in todo && k != "")
      invariant forall k | k in keys :: keys[k] == if k == kid then secret else previous[k]
      decreases todo
    {
      var k :| k in todo;
      todo := todo - {k};
      if k != "" && k != kid {
        keys := keys[k := previous[k]];
      }
    }
    s := Signer(secret, kid, keys);
  }

  function Unsigned(codec: Codec, kid: string, c: Claims): string {
    Encode(codec.writeHeader(Header("HS256", "BST", kid))) + "." + Encode(codec.writeClaims(c))
  }

  function Sign(codec: Codec, s: Signer, c: Claims): string {
    var unsigned := Unsigned(codec, s.kid, c);
    unsigned + "." + Encode(codec.mac(s.activeSecret, unsigned))
  }

  function RiskBucket(score: int): string {
    if score < 30 then "low"
    else if score < 62 then "medium"
    else if score < 92 then "high"
    else "critical"
  }

  function MintClaims(siteKey: string, action: string, hostname: string, ipBind: string, kind: string,
                      score: int, ttl: int, jti: string, now: Instant): Claims {
    Claims("berryshield", "siteverify", siteKey, action, hostname, jti,
           UnixSeconds(now), UnixSeconds(now + ttl), score, RiskBucket(score), kind, ipBind)
  }

  function Split(s: string): seq<string>
    ensures |Split(s)| > 0
  {
    if s == "" then [""]
    else
      var rest := Split(s[1..]);
      if s[0] == '.' then [""] + rest else [[s[0]] + rest[0]] + rest[1..]
  }

  /** The claim checks at the end of `Verify`, in its order. */
  function CheckClaims(c: Claims, now: Instant): Result<Claims, Rejection> {
    if c.issuer != "berryshield" || c.audience != "siteverify" then Err(WrongAudience)
    else if c.expiresAt <= UnixSeconds(now) then Err(Expired)
    else if c.issuedAt > UnixSeconds(now + 30 * SECOND) then Err(IssuedInFuture)
    else if c.jti == "" || c.siteKey == "" || c.hostname == "" || c.action == "" then Err(MissingClaims)
    else Ok(c)
  }

  /** The key a header selects, once the header itself is acceptable. */
  function SelectKey(codec: Codec, ring: map<string, Bytes>, part: string): Result<Bytes, Rejection> {
    var bytes := Decode(part);
    if bytes.None? then Err(Malformed)
    else
      var h := codec.readHeader(bytes.value);
      if h.None? || h.value.alg != "HS256" || h.value.typ != "BST" || h.value.kid == "" then Err(BadHeader)
      else if h.value.kid !in ring then Err(UnknownKey)
      else Ok(ring[h.value.kid])
  }

  function Verify(codec: Codec, s: Signer, tok: string, now: Instant): Result<Claims, Rejection> {
    var parts := Split(tok);
    if |parts| != 3 then Err(Malformed)
    else
      var key := SelectKey(codec, s.verifyKeys, parts[0]);
      if key.Err? then Err(key.error)
      else
        var got := Decode(parts[2]);
        if got.None? then Err(Malformed)
        else if got.value != codec.mac(key.value, parts[0] + "." + parts[1]) then Err(BadSignature)
        else
          var payload := Decode(parts[1]);
          if payload.None? then Err(BadPayload)
          else
            var c := codec.readClaims(payload.value);
            if c.None? then Err(BadPayload) else CheckClaims(c.value, now)
  }

  // ---- Splitting -------------------------------------------------------------------

  lemma {:induction false} SplitAtDot(a: string, b: string)
    requires '.' !in a
    ensures Split(a + "." + b) == [a] + Split(b)
  {
    if a == "" {
      assert a + "." + b == "." + b;
      assert ("." + b)[1..] == b;
    } else {
      assert a + "." + b == [a[0]] + (a[1..] + "." + b);
      assert (a + "." + b)[1..] == a[1..] + "." + b;
      SplitAtDot(a[1..], b);
      assert a == [a[0]] + a[1..];
    }
  }

  lemma {:induction false} SplitWithoutDot(a: string)
    requires '.' !in a
    ensures Split(a) == [a]
  {
    if a != "" {
      SplitWithoutDot(a[1..]);
      assert a == [a[0]] + a[1..];
    }
  }

  lemma SplitThree(a: string, b: string, c: string)
    requires '.' !in a && '.' !in b && '.' !in c
    ensures Split(a + "." + b + "." + c) == [a, b, c]
  {
    assert a + "." + b + "." + c == a + "." + (b + "." + c);
    SplitAtDot(a, b + "." + c);
    SplitAtDot(b, c);
    SplitWithoutDot(c);
  }

  // ---- What verification accepts ---------------------------------------------------

  predicate CompleteClaims(c: Claims) {
    && c.issuer == "berryshield" && c.audience == "siteverify"
    && c.jti != "" && c.siteKey != "" && c.hostname != "" && c.action != ""
  }

  /** From thirty seconds before it was issued until the second it expires. */
  predicate InTime(c: Claims, now: Instant) {
    c.issuedAt - 30 <= UnixSeconds(now) < c.expiresAt
  }

  lemma ClaimsPassExactlyWhen(c: Claims, now: Instant)
    ensures CheckClaims(c, now) == Ok(c) <==> CompleteClaims(c) && InTime(c, now)
    ensures CheckClaims(c, now).Ok? ==> CheckClaims(c, now).value == c
  {
    assert UnixSeconds(now + 30 * SECOND) == UnixSeconds(now) + 30;
  }

  /** A signed token splits into the text its tag covers and the tag. */
  lemma SignedSplits(codec: Codec, s: Signer, c: Claims)
    ensures var parts := Split(Sign(codec, s, c));
            |parts| == 3 && parts[0] + "." + parts[1] == Unsigned(codec, s.kid, c)
    ensures Sign(codec, s, c) != ""
  {
    var header, payload := codec.writeHeader(Header("HS256", "BST", s.kid)), codec.writeClaims(c);
    var tag := codec.mac(s.activeSecret, Unsigned(codec, s.kid, c));
    RoundTrip(header);
    RoundTrip(payload);
    RoundTrip(tag);
    SplitThree(Encode(header), Encode(payload), Encode(tag));
  }

  /**
   Under any signer, now or after any rotation, a signed token verifies to exactly its
   claims if and only if the ring maps its non-empty key id to the secret it was signed
   with, its claims are complete and the time is right.
   */
  lemma SignedVerifiesExactlyWhen(codec: Codec, s: Signer, later: Signer, c: Claims, now: Instant)
    requires codec.Lawful() && codec.KeysSeparate()
    ensures Verify(codec, later, Sign(codec, s, c), now) == Ok(c) <==>
              && s.kid != "" && s.kid in later.verifyKeys && later.verifyKeys[s.kid] == s.activeSecret
              && CompleteClaims(c) && InTime(c, now)
    ensures Verify(codec, later, Sign(codec, s, c), now).Ok? ==> Verify(codec, later, Sign(codec, s, c), now) == Ok(c)
  {
    var header := codec.writeHeader(Header("HS256", "BST", s.kid));
    var payload := codec.writeClaims(c);
    var unsigned := Unsigned(codec, s.kid, c);
    var tag := codec.mac(s.activeSecret, unsigned);
    RoundTrip(header);
    RoundTrip(payload);
    RoundTrip(tag);
    SplitThree(Encode(header), Encode(payload), Encode(tag));
    assert codec.readHeader(header) == Some(Header("HS256", "BST", s.kid));
    assert codec.readClaims(payload) == Some(c);
    ClaimsPassExactlyWhen(c, now);
  }

  /** Once the ring knows the key, a complete signed token is judged by its times alone: expired, too early, or good. */
  lemma KnownKeyLeavesTheTimes(codec: Codec, s: Signer, later: Signer, c: Claims, now: Instant)
    requires codec.Lawful() && CompleteClaims(c)
    requires s.kid != "" && s.kid in later.verifyKeys && later.verifyKeys[s.kid] == s.activeSecret
    ensures var v := Verify(codec, later, Sign(codec, s, c), now);
            && (v == Err(Expired) <==> UnixSeconds(now) >= c.expiresAt)
            && (v == Err(IssuedInFuture) <==> UnixSeconds(now) < c.expiresAt && UnixSeconds(now) < c.issuedAt - 30)
            && (v == Ok(c) <==> InTime(c, now))
  {
    var header := codec.writeHeader(Header("HS256", "BST", s.kid));
    var payload := codec.writeClaims(c);
    var tag := codec.mac(s.activeSecret, Unsigned(codec, s.kid, c));
    RoundTrip(header);
    RoundTrip(payload);
    RoundTrip(tag);
    SplitThree(Encode(header), Encode(payload), Encode(tag));
    assert codec.readHeader(header) == Some(Header("HS256", "BST", s.kid));
    assert codec.readClaims(payload) == Some(c);
    assert UnixSeconds(now + 30 * SECOND) == UnixSeconds(now) + 30;
  }

  /** A minted token, from issue to site verification, across a change of keys. */
  lemma MintedVerifiesAcrossRotation(
      codec: Codec, secret: Bytes, kid: string, before: map<string, Bytes>,
      secret': Bytes, kid': string, previous: map<string, Bytes>,
      siteKey: string, action: string, hostname: string, ipBind: string, kind: string,
      score: int, ttl: int, jti: string, minted: Instant, now: Instant)
    requires codec.Lawful() && codec.KeysSeparate()
    requires siteKey != "" && action != "" && hostname != "" && jti != ""
    ensures var s := Signer(secret, kid, Ring(secret, kid, before));
            var later := Signer(secret', kid', Ring(secret', kid', previous));
            var c := MintClaims(siteKey, action, hostname, ipBind, kind, score, ttl, jti, minted);
            Verify(codec, later, Sign(codec, s, c), now) == Ok(c) <==>
              && kid != ""
              && (if kid == kid' then secret == secret' else kid in previous && previous[kid] == secret)
              && UnixSeconds(minted) - 30 <= UnixSeconds(now) < UnixSeconds(minted + ttl)
  {
    var s := Signer(secret, kid, Ring(secret, kid, before));
    var later := Signer(secret', kid', Ring(secret', kid', previous));
    var c := MintClaims(siteKey, action, hostname, ipBind, kind, score, ttl, jti, minted);
    SignedVerifiesExactlyWhen(codec, s, later, c, now);
  }

  /** The text a token's tag covers, and the key its header selects. */
  ghost predicate CarriesTag(codec: Codec, ring: map<string, Bytes>, tok: string, key: Bytes, text: string) {
    var parts := Split(tok);
    && |parts| == 3
    && SelectKey(codec, ring, parts[0]) == Ok(key)
    && text == parts[0] + "." + parts[1]
    && Decode(parts[2]) == Some(codec.mac(key, text))
  }

  lemma {:induction false} SplitPartsHaveNoDot(s: string)
    ensures forall i | 0 <= i < |Split(s)| :: '.' !in Split(s)[i]
  {
    if s != "" {
      SplitPartsHaveNoDot(s[1..]);
      var rest := Split(s[1..]);
      assert '.' !in rest[0];
    }
  }

  /**
   Nothing passes verification without a ring key's tag on its first two parts; and when
   that text is the one a signer produced for `c`, what comes out is `c`.
   */
  lemma AcceptedCarriesATag(codec: Codec, s: Signer, tok: string, now: Instant) returns (key: Bytes, text: string)
    requires Verify(codec, s, tok, now).Ok?
    ensures CarriesTag(codec, s.verifyKeys, tok, key, text)
    ensures forall kid, c | codec.Lawful() && text == Unsigned(codec, kid, c) ::
              Verify(codec, s, tok, now) == Ok(c) && CompleteClaims(c) && InTime(c, now)
  {
    var parts := Split(tok);
    key := SelectKey(codec, s.verifyKeys, parts[0]).value;
    text := parts[0] + "." + parts[1];
    forall kid, c | codec.Lawful() && text == Unsigned(codec, kid, c)
      ensures Verify(codec, s, tok, now) == Ok(c) && CompleteClaims(c) && InTime(c, now)
    {
      SplitPartsHaveNoDot(tok);
      var header, payload := Encode(codec.writeHeader(Header("HS256", "BST", kid))), Encode(codec.writeClaims(c));
      RoundTrip(codec.writeHeader(Header("HS256", "BST", kid)));
      RoundTrip(codec.writeClaims(c));
      SplitAtDot(parts[0], parts[1]);
      SplitWithoutDot(parts[1]);
      SplitAtDot(header, payload);
      SplitWithoutDot(payload);
      assert [parts[0]] + [parts[1]] == [header] + [payload];
      assert parts[1] == ([parts[0]] + [parts[1]])[1] == payload;
      ClaimsPassExactlyWhen(c, now);
    }
  }

  /** Only what carries a tag is ever called expired. */
  lemma ExpiredCarriesATag(codec: Codec, s: Signer, tok: string, now: Instant) returns (key: Bytes, text: string)
    requires Verify(codec, s, tok, now) == Err(Expired)
    ensures CarriesTag(codec, s.verifyKeys, tok, key, text)
  {
    var parts := Split(tok);
    key := SelectKey(codec, s.verifyKeys, parts[0]).value;
    text := parts[0] + "." + parts[1];
  }
}
