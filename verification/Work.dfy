/** Leading zero bits of a digest and what they mean as a number. */
module Digests {
  import opened Base64Url

  function Pow2(n: nat): (p: nat)
    ensures p > 0
  {
    if n == 0 then 1 else 2 * Pow2(n - 1)
  }

  /** The digest read as one unsigned number, most significant byte first. */
  function BigEndian(b: Bytes): nat {
    if b == [] then 0 else b[0] * Pow2(8 * (|b| - 1)) + BigEndian(b[1..])
  }

  /** `x & (1 << bit) == 0` */
  predicate BitClear(x: Byte, bit: nat) {
    x / Pow2(bit) % 2 == 0
  }

  lemma {:induction false} Pow2Adds(m: nat, n: nat)
    ensures Pow2(m + n) == Pow2(m) * Pow2(n)
  {
    if m > 0 {
      Pow2Adds(m - 1, n);
      assert Pow2(m + n) == 2 * Pow2(m - 1 + n);
    }
  }

  lemma {:induction false} Pow2Grows(m: nat, n: nat)
    requires m <= n
    ensures Pow2(m) <= Pow2(n)
    decreases n
  {
    if m < n {
      Pow2Grows(m, n - 1);
    }
  }

  lemma HalfOfTwo(x: nat, p: nat)
    requires 0 < p && x < 2 * p
    ensures x / p % 2 == 0 <==> x < p
  {
    if x < p {
      assert x / p == 0;
    } else {
      assert x / p == 1;
    }
  }

  lemma Pow2Of8()
    ensures Pow2(8) == 256
  {
    assert Pow2(4) == 16;
  }

  lemma MulGrows(a: nat, b: nat, c: nat)
    requires a <= b
    ensures a * c <= b * c
  {
  }

  lemma {:induction false} BigEndianBounded(b: Bytes)
    ensures BigEndian(b) < Pow2(8 * |b|)
  {
    if b != [] {
      BigEndianBounded(b[1..]);
      var p := Pow2(8 * (|b| - 1));
      Pow2Adds(8, 8 * (|b| - 1));
      Pow2Of8();
      MulGrows(b[0] as int + 1, 256, p);
      hide Pow2;
      assert (b[0] as int + 1) * p == b[0] as int * p + p;
    }
  }

  /** The first `d` bits are zero, said of the digest as a number. */
  ghost predicate Fits(b: Bytes, d: nat)
    requires d <= 8 * |b|
  {
    BigEndian(b) < Pow2(8 * |b| - d)
  }

  /** `n` counts the zero bits in front: the only number that splits the powers of two at the digest. */
  ghost predicate IsLeadingZeros(b: Bytes, n: int) {
    && 0 <= n <= 8 * |b|
    && forall d: nat | d <= 8 * |b| :: n >= d <==> Fits(b, d)
  }

  lemma {:induction false} LeadingZeroByte(b: Bytes)
    requires b != [] && b[0] == 0
    ensures BigEndian(b) == BigEndian(b[1..])
  {
  }

  lemma {:induction false} SkipZeroBytes(b: Bytes, i: nat)
    requires i <= |b| && forall k | 0 <= k < i :: b[k] == 0
    ensures BigEndian(b) == BigEndian(b[i..])
  {
    if i > 0 {
      LeadingZeroByte(b);
      assert b[1..][i - 1..] == b[i..];
      SkipZeroBytes(b[1..], i - 1);
    } else {
      assert b[0..] == b;
    }
  }

  /** A digest of zero bytes only. */
  lemma AllZero(b: Bytes)
    requires forall k | 0 <= k < |b| :: b[k] == 0
    ensures IsLeadingZeros(b, 8 * |b|)
  {
    SkipZeroBytes(b, |b|);
    assert b[|b|..] == [];
    assert BigEndian(b) == 0;
  }

  lemma LeadingDigit(x: nat, lo: nat, hi: nat, unit: nat, rest: nat)
    requires lo <= x < hi && rest < unit
    ensures lo * unit <= x * unit + rest < hi * unit
  {
    MulGrows(lo, x, unit);
    MulGrows(x + 1, hi, unit);
  }

  /** Where the number lies when the first non-zero byte is `b[0]`, with highest one bit `bit`. */
  lemma FirstByteMagnitude(b: Bytes, bit: nat)
    requires b != [] && Pow2(bit) <= b[0] < Pow2(bit + 1)
    ensures Pow2(bit + 8 * (|b| - 1)) <= BigEndian(b) < Pow2(bit + 1 + 8 * (|b| - 1))
  {
    var low := 8 * (|b| - 1);
    BigEndianBounded(b[1..]);
    Pow2Adds(bit, low);
    Pow2Adds(bit + 1, low);
    LeadingDigit(b[0], Pow2(bit), Pow2(bit + 1), Pow2(low), BigEndian(b[1..]));
  }

  /** The first non-zero byte is number `i`, and its highest one bit is `bit`. */
  lemma FirstOneBit(b: Bytes, i: nat, bit: nat)
    requires i < |b| && bit < 8 && forall k | 0 <= k < i :: b[k] == 0
    requires Pow2(bit) <= b[i] < Pow2(bit + 1)
    ensures IsLeadingZeros(b, 8 * i + 7 - bit)
  {
    SkipZeroBytes(b, i);
    FirstByteMagnitude(b[i..], bit);
    var low := 8 * (|b| - i - 1);
    assert Pow2(bit + low) <= BigEndian(b) < Pow2(bit + 1 + low);
    forall d: nat | d <= 8 * |b|
      ensures 8 * i + 7 - bit >= d <==> Fits(b, d)
    {
      if 8 * i + 7 - bit >= d {
        Pow2Grows(bit + 1 + low, 8 * |b| - d);
      } else {
        Pow2Grows(8 * |b| - d, bit + low);
      }
    }
  }

  /** There is only one such count, so every implementation that meets it agrees with every other. */
  lemma LeadingZerosUnique(b: Bytes, m: int, n: int)
    requires IsLeadingZeros(b, m) && IsLeadingZeros(b, n)
    ensures m == n
  {
    assert m >= n <==> Fits(b, n);
    assert n >= m <==> Fits(b, m);
  }

  /** Meeting a difficulty is a bound on the digest as a number. */
  ghost predicate Meets(digest: Bytes, bits: int) {
    bits <= 0 || (bits <= 8 * |digest| && Fits(digest, bits))
  }

  lemma MeetsByCount(digest: Bytes, n: int, bits: int)
    requires IsLeadingZeros(digest, n)
    ensures n >= bits <==> Meets(digest, bits)
  {
  }
}

/** What is hashed, and when a nonce does the work. */
module WorkMessages {
  import opened Base64Url
  import opened Digests

  function Decimal(n: nat): string {
    if n < 10 then [('0' as int + n) as char] else Decimal(n / 10) + [('0' as int + n % 10) as char]
  }

  function Message(seed: string, nonce: nat): string {
    seed + ":" + Decimal(nonce)
  }

  // ---- What a message says -----------------------------------------------------------

  const DIGITS: string := "0123456789"

  predicate IsDigit(c: char) {
    exists d | 0 <= d < 10 :: c == DIGITS[d]
  }

  function DigitValue(c: char): nat
    requires IsDigit(c)
  {
    c as int - '0' as int
  }

  predicate Numeral(t: string) {
    t != "" && (forall i | 0 <= i < |t| :: IsDigit(t[i])) && (t[0] == '0' ==> |t| == 1)
  }

  /** The number a text of digits stands for, most significant digit first. */
  function ReadDecimal(t: string): nat
    requires forall i | 0 <= i < |t| :: IsDigit(t[i])
  {
    if t == "" then 0 else 10 * ReadDecimal(t[..|t| - 1]) + DigitValue(t[|t| - 1])
  }

  lemma DigitOf(d: nat)
    requires d < 10
    ensures IsDigit(('0' as int + d) as char) && DigitValue(('0' as int + d) as char) == d
  {
    assert ('0' as int + d) as char == DIGITS[d];
  }

  /** A number is written in digits without leading zero, and reads back to itself. */
  lemma {:induction false} DecimalReadsBack(n: nat)
    ensures Numeral(Decimal(n)) && ReadDecimal(Decimal(n)) == n
    ensures n > 0 ==> Decimal(n)[0] != '0'
  {
    DigitOf(n % 10);
    if n < 10 {
      assert Decimal(n)[..0] == "";
    } else {
      DecimalReadsBack(n / 10);
      assert Decimal(n)[..|Decimal(n)| - 1] == Decimal(n / 10);
    }
  }

  /** The text before the last colon of a message is the seed, the text after it the nonce in decimal. */
  lemma MessageSplits(seed: string, nonce: nat, i: nat)
    requires i < |Message(seed, nonce)| && Message(seed, nonce)[i] == ':'
    requires forall k | i < k < |Message(seed, nonce)| :: Message(seed, nonce)[k] != ':'
    ensures Message(seed, nonce)[..i] == seed
    ensures Numeral(Message(seed, nonce)[i + 1..]) && ReadDecimal(Message(seed, nonce)[i + 1..]) == nonce
  {
    var m, t := Message(seed, nonce), Decimal(nonce);
    DecimalReadsBack(nonce);
    assert m[|seed|] == ':';
    assert forall k | |seed| < k < |m| :: m[k] == t[k - |seed| - 1] && IsDigit(t[k - |seed| - 1]);
    assert i == |seed|;
    assert m[i + 1..] == t;
  }

  lemma LastColon(seed: string, nonce: nat) returns (i: nat)
    ensures i < |Message(seed, nonce)| && Message(seed, nonce)[i] == ':'
    ensures forall k | i < k < |Message(seed, nonce)| :: Message(seed, nonce)[k] != ':'
  {
    var m, t := Message(seed, nonce), Decimal(nonce);
    DecimalReadsBack(nonce);
    i := |seed|;
    assert forall k | |seed| < k < |m| :: m[k] == t[k - |seed| - 1] && IsDigit(t[k - |seed| - 1]);
  }

  /** Different seeds or nonces give different messages, so each nonce is a new try. */
  lemma MessagesDiffer(seed: string, seed': string, m: nat, n: nat)
    ensures Message(seed, m) == Message(seed', n) <==> seed == seed' && m == n
  {
    if Message(seed, m) == Message(seed', n) {
      var i := LastColon(seed, m);
      MessageSplits(seed, m, i);
      MessageSplits(seed', n, i);
    }
  }

  ghost predicate DoesWork(sha256: string -> Bytes, seed: string, bits: int, nonce: nat) {
    Meets(sha256(Message(seed, nonce)), bits)
  }

  lemma WorkByCount(sha256: string -> Bytes, seed: string, bits: int, nonce: nat, zeros: int)
    requires IsLeadingZeros(sha256(Message(seed, nonce)), zeros)
    ensures zeros >= bits <==> DoesWork(sha256, seed, bits, nonce)
  {
    MeetsByCount(sha256(Message(seed, nonce)), zeros, bits);
  }

  ghost predicate LeastWork(sha256: string -> Bytes, seed: string, bits: int, maxNonce: int, nonce: nat) {
    && nonce <= maxNonce
    && DoesWork(sha256, seed, bits, nonce)
    && forall k: nat | k < nonce :: !DoesWork(sha256, seed, bits, k)
  }

  /** Two searches that both meet the specification return the same nonce. */
  lemma LeastWorkIsUnique(sha256: string -> Bytes, seed: string, bits: int, m: int, m': int, a: nat, b: nat)
    requires LeastWork(sha256, seed, bits, m, a) && LeastWork(sha256, seed, bits, m', b)
    ensures a == b
  {
    assert !(a < b) && !(b < a);
  }
}

/** The server's count (challenge.go). */
module ServerWork {
  import opened Base64Url
  import opened Digests

  method LeadingZeroBits(b: Bytes) returns (n: int)
    ensures IsLeadingZeros(b, n)
  {
    n := 0;
    for i := 0 to |b|
      invariant n == 8 * i
      invariant forall k | 0 <= k < i :: b[k] == 0
    {
      var x := b[i];
      if x == 0 {
        n := n + 8;
        continue;
      }
      Pow2Of8();
      var bit := 7;
      while bit >= 0
        invariant -1 <= bit <= 7
        invariant n == 8 * i + 7 - bit
        invariant x < Pow2(bit + 1)
      {
        HalfOfTwo(x, Pow2(bit));
        if BitClear(x, bit) {
          n := n + 1;
        } else {
          FirstOneBit(b, i, bit);
          return;
        }
        bit := bit - 1;
      }
    }
    AllZero(b);
  }
}

/** The browser's count and nonce search (pow.ts). */
module BrowserWork {
  import opened Base64Url
  import opened Digests
  import opened WorkMessages

  method LeadingZeroBits(bytes: Bytes) returns (count: int)
    ensures IsLeadingZeros(bytes, count)
  {
    count := 0;
    var i := 0;
    while i < |bytes|
      invariant 0 <= i <= |bytes| && count == 8 * i
      invariant forall k | 0 <= k < i :: bytes[k] == 0
    {
      var value := bytes[i];
      i := i + 1;
      if value == 0 {
        count := count + 8;
        continue;
      }
      Pow2Of8();
      var bit := 7;
      while bit >= 0
        invariant -1 <= bit <= 7
        invariant count == 8 * (i - 1) + 7 - bit
        invariant value < Pow2(bit + 1)
      {
        HalfOfTwo(value, Pow2(bit));
        if BitClear(value, bit) {
          count := count + 1;
        } else {
          FirstOneBit(bytes, i - 1, bit);
          return;
        }
        bit := bit - 1;
      }
    }
    AllZero(bytes);
  }

  datatype Outcome =
    | Solved(nonce: nat)
    | NoWebCrypto
    | InvalidDifficulty
    | TimedOut(after: nat)
    | Exhausted

  /** `clock(k)` is the k-th reading of the page clock, in milliseconds. */
  ghost predicate Late(clock: nat -> real, deadlineMs: real, nonce: nat) {
    clock(1 + nonce / 256) > clock(0) + deadlineMs
  }

  /**
   The search meets its specification: the least nonce in range that does the work, or
   "exhausted" exactly when there is none, unless the clock runs out on the way.
   */
  method SolvePow(sha256: string -> Bytes, webCrypto: bool, seed: string, difficultyBits: int,
                  maxNonce: int, deadlineMs: real, clock: nat -> real)
    returns (r: Outcome)
    ensures r.NoWebCrypto? <==> !webCrypto
    ensures r.InvalidDifficulty? <==> webCrypto && !(4 <= difficultyBits <= 24)
    ensures r.Solved? ==> LeastWork(sha256, seed, difficultyBits, maxNonce, r.nonce)
    ensures r.Exhausted? ==> forall k: nat | k <= maxNonce :: !DoesWork(sha256, seed, difficultyBits, k)
    ensures r.TimedOut? ==>
              && r.after <= maxNonce && r.after % 256 == 0 && Late(clock, deadlineMs, r.after)
              && forall k: nat | k <= r.after :: !DoesWork(sha256, seed, difficultyBits, k)
    ensures forall k: nat | k % 256 == 0 && r.Solved? && k < r.nonce :: !Late(clock, deadlineMs, k)
    ensures forall k: nat | k % 256 == 0 && r.Exhausted? && k <= maxNonce :: !Late(clock, deadlineMs, k)
  {
    if !webCrypto {
      return NoWebCrypto;
    }
    if difficultyBits < 4 || difficultyBits > 24 {
      return InvalidDifficulty;
    }
    hide DoesWork, IsLeadingZeros, Message;
    var nonce := 0;
    while nonce <= maxNonce
      invariant 0 <= nonce
      invariant forall k: nat | k < nonce :: !DoesWork(sha256, seed, difficultyBits, k)
      invariant forall k: nat | k < nonce && k % 256 == 0 :: !Late(clock, deadlineMs, k)
    {
      var digest := sha256(Message(seed, nonce));
      var zeros := LeadingZeroBits(digest);
      WorkByCount(sha256, seed, difficultyBits, nonce, zeros);
      if zeros >= difficultyBits {
        return Solved(nonce);
      }
      if nonce % 256 == 0 {
        if clock(1 + nonce / 256) > clock(0) + deadlineMs {
          return TimedOut(nonce);
        }
      }
      nonce := nonce + 1;
    }
    return Exhausted;
  }
}

/** The regression harness's own implementation (runner.py). */
module HarnessWork {
  import opened Wrappers
  import opened Base64Url
  import opened Digests
  import opened WorkMessages

  method LeadingZeroBits(digest: Bytes) returns (n: int)
    ensures IsLeadingZeros(digest, n)
  {
    n := 0;
    for i := 0 to |digest|
      invariant n == 8 * i
      invariant forall k | 0 <= k < i :: digest[k] == 0
    {
      var b := digest[i];
      if b == 0 {
        n := n + 8;
        continue;
      }
      Pow2Of8();
      for bit := 8 downto 0
        invariant n == 8 * i + 8 - bit
        invariant b < Pow2(bit)
      {
        HalfOfTwo(b, Pow2(bit));
        if !BitClear(b, bit) {
          FirstOneBit(digest, i, bit);
          return;
        }
        n := n + 1;
      }
    }
    AllZero(digest);
  }

  method SolveOwnPow(sha256: string -> Bytes, seed: string, bits: int, maxNonce: int) returns (r: Option<nat>)
    ensures r.Some? ==> LeastWork(sha256, seed, bits, maxNonce, r.value)
    ensures r.None? <==> forall k: nat | k <= maxNonce :: !DoesWork(sha256, seed, bits, k)
  {
    hide DoesWork, IsLeadingZeros, Message;
    var nonce := 0;
    while nonce < maxNonce + 1
      invariant 0 <= nonce
      invariant forall k: nat | k < nonce :: !DoesWork(sha256, seed, bits, k)
    {
      var digest := sha256(Message(seed, nonce));
      var zeros := LeadingZeroBits(digest);
      WorkByCount(sha256, seed, bits, nonce, zeros);
      if zeros >= bits {
        return Some(nonce);
      }
      nonce := nonce + 1;
    }
    return None;
  }
}
