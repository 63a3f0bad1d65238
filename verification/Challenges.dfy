/** Issuing challenges and checking their proofs (challenge.go). */
module Challenges {
  import opened Wrappers
  import opened Clock
  import opened ChallengeModel
  import opened Base64Url
  import opened WorkMessages
  import ServerWork
  import BrowserWork
  import HarnessWork

  datatype Proof = Proof(kind: Kind, nonce: nat, holdMs: int, eventCount: int, pointerVariance: real)

  datatype Refusal =
    | ChallengeExpired
    | KindMismatch
    | NonceOutOfRange
    | BadWork
    | HoldOutOfRange
    | TooQuick
    | TooFewEvents
    | BadSummary
    | BadInteractiveWork
    | Unsupported

  function IssuedParams(kind: Kind, score: int, seed: string): Option<Params> {
    match kind
    case PowKind => Some(PowParams(seed, if score >= 50 then 17 else 16, 20_000_000))
    case InteractiveKind => Some(HoldParams(850, 7000, 2, seed, 14, 10_000_000))
    case OtherKind(_) => None
  }

  /** `id` and `seed` are the random draws, `now` the clock reading. */
  function New(kind: Kind, siteKey: string, action: string, hostname: string, sessionId: string, ipBind: string,
               score: int, tags: seq<string>, ttl: int, id: string, seed: string, now: Instant): Option<Challenge> {
    var params := IssuedParams(kind, score, seed);
    if params.None? then None
    else Some(Challenge(id, siteKey, action, hostname, sessionId, ipBind, score, tags, kind, params.value, now,
                        now + ttl, 0))
  }

  function Max(a: int, b: int): int {
    if a > b then a else b
  }

  /** Reads a missing parameter as the zero value, like the map of untyped parameters does. */
  function PowTerms(p: Params): (string, int, nat) {
    if p.PowParams? then (p.seed, p.difficultyBits, p.maxNonce) else ("", 0, 0)
  }

  function HoldTerms(p: Params): (int, int, int) {
    if p.HoldParams? then (p.minHoldMs, p.maxHoldMs, p.minEvents) else (0, 0, 0)
  }

  function HoldWorkTerms(p: Params): (string, int, nat) {
    if p.HoldParams? then (p.powSeed, p.powBits, p.powMaxNonce) else ("", 0, 0)
  }

  /** Everything `Verify` looks at before the work of an interactive challenge. */
  function HoldRefusal(c: Challenge, p: Proof, later: Instant): Option<Refusal> {
    var (minHold, maxHold, minEvents) := HoldTerms(c.params);
    if p.holdMs < minHold || p.holdMs > maxHold then Some(HoldOutOfRange)
    else if later - c.createdAt < Max(0, minHold - 100) * MILLISECOND then Some(TooQuick)
    else if p.eventCount < minEvents then Some(TooFewEvents)
    else if p.pointerVariance < 0.0 || p.pointerVariance > 10.0 then Some(BadSummary)
    else None
  }

  /** What the check answers: `now` and `later` are its two clock readings. */
  ghost function Refusing(sha256: string -> Bytes, c: Challenge, p: Proof, now: Instant,
                          later: Instant): Option<Refusal> {
    if now > c.expiresAt then Some(ChallengeExpired)
    else if p.kind != c.kind then Some(KindMismatch)
    else
      match c.kind
      case PowKind =>
        var (seed, bits, maxNonce) := PowTerms(c.params);
        if p.nonce > maxNonce then Some(NonceOutOfRange)
        else if !DoesWork(sha256, seed, bits, p.nonce) then Some(BadWork) else None
      case InteractiveKind =>
        var (seed, bits, maxNonce) := HoldWorkTerms(c.params);
        var held := HoldRefusal(c, p, later);
        if held.Some? then held
        else if seed == "" || bits < 4 || p.nonce > maxNonce then Some(BadInteractiveWork)
        else if !DoesWork(sha256, seed, bits, p.nonce) then Some(BadInteractiveWork) else None
      case OtherKind(_) => Some(Unsupported)
  }

  method Verify(sha256: string -> Bytes, c: Challenge, p: Proof, now: Instant, later: Instant)
    returns (r: Option<Refusal>)
    ensures r == Refusing(sha256, c, p, now, later)
  {
    if now > c.expiresAt {
      return Some(ChallengeExpired);
    }
    if p.kind != c.kind {
      return Some(KindMismatch);
    }
    match c.kind {
      case PowKind =>
        var (seed, bits, maxNonce) := PowTerms(c.params);
        if p.nonce > maxNonce {
          return Some(NonceOutOfRange);
        }
        var sum := sha256(Message(seed, p.nonce));
        var zeros := ServerWork.LeadingZeroBits(sum);
        WorkByCount(sha256, seed, bits, p.nonce, zeros);
        return if zeros < bits then Some(BadWork) else None;
      case InteractiveKind =>
        var held := HoldRefusal(c, p, later);
        if held.Some? {
          return held;
        }
        var (seed, bits, maxNonce) := HoldWorkTerms(c.params);
        if seed == "" || bits < 4 || p.nonce > maxNonce {
          return Some(BadInteractiveWork);
        }
        var sum := sha256(Message(seed, p.nonce));
        var zeros := ServerWork.LeadingZeroBits(sum);
        WorkByCount(sha256, seed, bits, p.nonce, zeros);
        return if zeros < bits then Some(BadInteractiveWork) else None;
      case OtherKind(_) =>
        return Some(Unsupported);
    }
  }

  // ---- From issuing to checking ----------------------------------------------------

  /** The search terms the browser takes out of a challenge. */
  function SearchTerms(c: Challenge): (string, int, nat) {
    if c.kind == PowKind then PowTerms(c.params) else HoldWorkTerms(c.params)
  }

  predicate Issued(c: Challenge, seed: string) {
    IssuedParams(c.kind, c.riskScore, seed) == Some(c.params) && seed != ""
  }

  /** Issued difficulties are in the range the browser accepts. */
  lemma BrowserTakesIssuedDifficulty(c: Challenge, seed: string)
    requires Issued(c, seed)
    ensures 4 <= SearchTerms(c).1 <= 24
  {
  }

  /** In time, of the challenge's kind, held as asked for, and with a nonce in range that does the work. */
  ghost predicate DoneAsPosed(sha256: string -> Bytes, c: Challenge, p: Proof, now: Instant, later: Instant) {
    var (seed, bits, maxNonce) := SearchTerms(c);
    && now <= c.expiresAt && p.kind == c.kind
    && (c.kind == InteractiveKind ==>
          && 850 <= p.holdMs <= 7000 && p.eventCount >= 2
          && later - c.createdAt >= 750 * MILLISECOND && 0.0 <= p.pointerVariance <= 10.0)
    && bits == (if c.kind == InteractiveKind then 14 else if c.riskScore >= 50 then 17 else 16)
    && p.nonce <= maxNonce == (if c.kind == InteractiveKind then 10_000_000 else 20_000_000)
    && DoesWork(sha256, seed, bits, p.nonce)
  }

  /** For a challenge the server issued, a proof passes exactly when it does what was posed. */
  lemma IssuedProofPassesExactlyWhen(sha256: string -> Bytes, c: Challenge, seed: string, p: Proof, now: Instant,
                                     later: Instant)
    requires Issued(c, seed)
    ensures SearchTerms(c).0 == seed
    ensures Refusing(sha256, c, p, now, later).None? <==> DoneAsPosed(sha256, c, p, now, later)
  {
  }

  /** The check does not look at the failures a copy has counted. */
  lemma RefusalIgnoresAttempts(sha256: string -> Bytes, c: Challenge, n: int, p: Proof, now: Instant, later: Instant)
    ensures Refusing(sha256, c.(attempts := n), p, now, later) == Refusing(sha256, c, p, now, later)
  {
  }

  /** The least nonce a search finds for an issued challenge passes the server's work check. */
  lemma FoundNoncePasses(sha256: string -> Bytes, c: Challenge, seed: string, p: Proof, now: Instant, later: Instant)
    requires Issued(c, seed) && now <= c.expiresAt && p.kind == c.kind
    requires LeastWork(sha256, SearchTerms(c).0, SearchTerms(c).1, SearchTerms(c).2, p.nonce)
    ensures c.kind == PowKind ==> Refusing(sha256, c, p, now, later).None?
    ensures c.kind == InteractiveKind ==> Refusing(sha256, c, p, now, later) == HoldRefusal(c, p, later)
  {
  }

  /**
   End to end: server, browser and harness on one issued challenge of either kind. Whatever
   nonce the browser returns the harness returns too, and the server accepts it as work;
   `held` is what the dialog reports of an interactive one.
   */
  method BrowserToServer(sha256: string -> Bytes, c: Challenge, seed: string, deadlineMs: real, clock: nat -> real,
                         held: Proof, now: Instant, later: Instant)
    returns (found: BrowserWork.Outcome, harness: Option<nat>, refusal: Option<Refusal>)
    requires Issued(c, seed) && now <= c.expiresAt
    ensures !found.NoWebCrypto? && !found.InvalidDifficulty?
    ensures found.Solved? ==> harness == Some(found.nonce)
    ensures found.Solved? && c.kind == PowKind ==> refusal.None?
    ensures found.Solved? && c.kind == InteractiveKind ==> refusal == HoldRefusal(c, held, later)
    ensures found.Exhausted? ==> harness.None?
  {
    var (s, bits, max) := SearchTerms(c);
    BrowserTakesIssuedDifficulty(c, seed);
    found := BrowserWork.SolvePow(sha256, true, s, bits, max, deadlineMs, clock);
    harness := HarnessWork.SolveOwnPow(sha256, s, bits, max);
    refusal := None;
    if found.Solved? {
      var p := held.(kind := c.kind, nonce := found.nonce);
      refusal := Verify(sha256, c, p, now, later);
      FoundNoncePasses(sha256, c, seed, p, now, later);
      LeastWorkIsUnique(sha256, s, bits, max, max, found.nonce, harness.value);
    }
  }
}
