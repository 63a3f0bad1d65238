/** Exclusive or on natural numbers, bit by bit. */
module Bits {
  import opened Digests

  function Xor(a: nat, b: nat): nat
    decreases a + b
  {
    if a + b == 0 then 0 else 2 * Xor(a / 2, b / 2) + (a % 2 + b % 2) % 2
  }

  function Shr(x: nat, k: nat): nat {
    x / Pow2(k)
  }

  lemma {:induction false} XorZero(a: nat)
    ensures Xor(a, 0) == a && Xor(0, a) == a
  {
    if a > 0 {
      XorZero(a / 2);
    }
  }

  lemma {:induction false} XorSelf(a: nat)
    ensures Xor(a, a) == 0
  {
    if a > 0 {
      XorSelf(a / 2);
    }
  }

  /** Halving and the lowest bit of an exclusive or. */
  lemma XorDigits(a: nat, b: nat)
    ensures Xor(a, b) / 2 == Xor(a / 2, b / 2) && Xor(a, b) % 2 == (a % 2 + b % 2) % 2
  {
  }

  lemma {:induction false} XorAssociative(a: nat, b: nat, c: nat)
    ensures Xor(Xor(a, b), c) == Xor(a, Xor(b, c))
    decreases a + b + c
  {
    hide Xor;
    XorDigits(a, b);
    XorDigits(b, c);
    XorDigits(Xor(a, b), c);
    XorDigits(a, Xor(b, c));
    if a + b + c == 0 {
      XorZero(0);
    } else {
      XorAssociative(a / 2, b / 2, c / 2);
    }
  }

  lemma {:induction false} XorBounded(a: nat, b: nat, n: nat)
    requires a < Pow2(n) && b < Pow2(n)
    ensures Xor(a, b) < Pow2(n)
  {
    if n > 0 {
      XorBounded(a / 2, b / 2, n - 1);
    }
  }

  lemma Division(x: nat, n: nat)
    requires n > 0
    ensures x == (x / n) * n + x % n && 0 <= x % n < n
  {
  }

  lemma Distributes(a: int, b: int, c: int)
    ensures (a + b) * c == a * c + b * c
  {
  }

  lemma Associates(a: int, b: int, c: int)
    ensures a * b * c == a * (c * b)
  {
  }

  lemma LessGrows(d: nat, e: nat, n: nat)
    ensures d < e ==> d * n + n <= e * n
  {
    if d < e {
      MulGrows(d + 1, e, n);
    }
  }

  /** Two divisions with remainder put together as one. */
  lemma Unite(x: nat, p: nat, q: nat, h: nat, t: nat, d: nat, s: nat)
    requires x == h * p + t && t < p && h == d * q + s && s < q
    ensures x == d * (p * q) + (s * p + t) && s * p + t < p * q
  {
    Distributes(d * q, s, p);
    Associates(d, q, p);
    LessGrows(s, q, p);
  }

  lemma QuotientIs(x: nat, n: nat, d: nat, r: nat)
    requires n > 0 && x == d * n + r && r < n
    ensures x / n == d
  {
    LessGrows(x / n, d, n);
    LessGrows(d, x / n, n);
  }

  lemma DivTwice(x: nat, p: nat, q: nat)
    requires p > 0 && q > 0
    ensures p * q > 0 && x / (p * q) == x / p / q
  {
    var h := x / p;
    Division(x, p);
    Division(h, q);
    MulGrows(1, p, q);
    Unite(x, p, q, h, x % p, h / q, h % q);
    QuotientIs(x, p * q, h / q, (h % q) * p + x % p);
  }

  lemma {:induction false} ShrStep(x: nat, k: nat)
    ensures Shr(x, k + 1) == Shr(x / 2, k)
  {
    DivTwice(x, 2, Pow2(k));
  }

  lemma ShrNothing(x: nat)
    ensures Shr(x, 0) == x
  {
    assert Pow2(0) == 1;
  }

  lemma {:induction false} ShrXor(a: nat, b: nat, k: nat)
    ensures Shr(Xor(a, b), k) == Xor(Shr(a, k), Shr(b, k))
  {
    hide Xor, Shr;
    if k > 0 {
      ShrStep(Xor(a, b), k - 1);
      ShrStep(a, k - 1);
      ShrStep(b, k - 1);
      XorDigits(a, b);
      ShrXor(a / 2, b / 2, k - 1);
    } else {
      ShrNothing(Xor(a, b));
      ShrNothing(a);
      ShrNothing(b);
    }
  }

  lemma ShrShr(x: nat, j: nat, k: nat)
    ensures Shr(Shr(x, j), k) == Shr(x, j + k)
  {
    Pow2Adds(j, k);
    DivTwice(x, Pow2(j), Pow2(k));
  }

  lemma ShrOut(x: nat, n: nat, k: nat)
    requires x < Pow2(n) && n <= k
    ensures Shr(x, k) == 0
  {
    Pow2Grows(n, k);
    QuotientIs(x, Pow2(k), 0, x);
  }
}

/** The 32-bit mixer of the browser probe (lib.rs) and its stack program (probe.wat). */
module Mixer {
  import opened Wrappers
  import opened Digests
  import opened Bits

  const WORDS: nat := 0x1_0000_0000

  type Word = w: nat | w < WORDS

  lemma WordIsPow2()
    ensures Pow2(32) == WORDS
  {
    assert Pow2(8) == 256;
    Pow2Adds(8, 8);
    Pow2Adds(16, 16);
  }

  lemma {:induction false} ShrSmall(x: nat, k: nat)
    ensures Shr(x, k) <= x
    decreases k
  {
    if k == 0 {
      assert Pow2(0) == 1;
    } else {
      ShrSmall(x / 2, k - 1);
      ShrStep(x, k - 1);
    }
  }

  /** `x ^ (x >> k)` */
  function Fold(x: Word, k: nat): Word {
    WordIsPow2();
    ShrSmall(x, k);
    XorBounded(x, Shr(x, k), 32);
    Xor(x, Shr(x, k))
  }

  /** Multiplication that wraps around. */
  function Times(x: Word, c: nat): Word {
    x * c % WORDS
  }

  function Mixed(x: Word): Word {
    Fold(Times(Fold(Times(Fold(x, 16), 0x7feb_352d), 15), 0x846c_a68b), 16)
  }

  /** `x ^ (x >> 15) ^ (x >> 30)` */
  function Unfold15(x: Word): Word {
    WordIsPow2();
    ShrSmall(x, 30);
    XorBounded(Fold(x, 15), Shr(x, 30), 32);
    Xor(Fold(x, 15), Shr(x, 30))
  }

  /** The mixer undone, with the multipliers' inverses modulo 2^32. */
  function Unmixed(y: Word): Word {
    Fold(Times(Unfold15(Times(Fold(y, 16), 0x4302_1123)), 0x1d69_e2a5), 16)
  }

  // ---- The inverse ------------------------------------------------------------------

  /** What is left of a fold when it is folded again: the shifts by `k` cancel. */
  lemma FoldTwice(x: Word, k: nat)
    ensures Fold(Fold(x, k), k) == Xor(x, Shr(x, k + k))
  {
    var s := Shr(x, k);
    ShrXor(x, s, k);
    ShrShr(x, k, k);
    XorAssociative(x, s, Xor(s, Shr(x, k + k)));
    XorAssociative(s, s, Shr(x, k + k));
    XorSelf(s);
    XorZero(Shr(x, k + k));
  }

  lemma HalfWordFoldUndone(x: Word)
    ensures Fold(Fold(x, 16), 16) == x
  {
    FoldTwice(x, 16);
    WordIsPow2();
    ShrOut(x, 32, 32);
    XorZero(x);
  }

  lemma {:induction false} XorCommutes(a: nat, b: nat)
    ensures Xor(a, b) == Xor(b, a)
    decreases a + b
  {
    if a + b > 0 {
      XorCommutes(a / 2, b / 2);
    }
  }

  /** Folding by 15 twice leaves a shift by 30, which one more exclusive or removes. */
  lemma FifteenFoldUndone(x: Word)
    ensures Unfold15(Fold(x, 15)) == x && Fold(Unfold15(x), 15) == x
  {
    WordIsPow2();
    var t := Shr(x, 30);
    FoldTwice(x, 15);
    ShrXor(x, Shr(x, 15), 30);
    ShrShr(x, 15, 30);
    ShrOut(x, 32, 45);
    XorZero(t);
    XorAssociative(x, t, t);
    XorSelf(t);
    XorZero(x);
    // the other way round: the shift by 30 falls off the end when folded again
    var f := Fold(x, 15);
    ShrXor(f, t, 15);
    ShrShr(x, 30, 15);
    XorZero(Shr(f, 15));
    XorAssociative(f, t, Shr(f, 15));
    XorCommutes(t, Shr(f, 15));
    XorAssociative(f, Shr(f, 15), t);
  }

  lemma RemainderIs(n: int, x: Word)
    ensures (n * WORDS + x) % WORDS == x
  {
  }

  lemma TimesUndone(x: Word, c: nat, d: nat, k: nat)
    requires c * d == 1 + k * WORDS
    ensures Times(Times(x, c), d) == x
  {
    var q := x * c / WORDS;
    assert x * c == q * WORDS + x * c % WORDS;
    var n := x * k - q * d;
    assert (x * c % WORDS) * d == x * (c * d) - q * WORDS * d;
    assert x * (c * d) == x + x * k * WORDS;
    assert (x * c % WORDS) * d == n * WORDS + x by {
      assert q * WORDS * d == q * d * WORDS;
      assert n * WORDS == x * k * WORDS - q * d * WORDS;
    }
    RemainderIs(n, x);
  }

  lemma MultipliersUndone(x: Word)
    ensures Times(Times(x, 0x7feb_352d), 0x1d69_e2a5) == x && Times(Times(x, 0x1d69_e2a5), 0x7feb_352d) == x
    ensures Times(Times(x, 0x846c_a68b), 0x4302_1123) == x && Times(Times(x, 0x4302_1123), 0x846c_a68b) == x
  {
    hide Times;
    TimesUndone(x, 0x7feb_352d, 0x1d69_e2a5, 0x7feb_352d * 0x1d69_e2a5 / WORDS);
    TimesUndone(x, 0x1d69_e2a5, 0x7feb_352d, 0x7feb_352d * 0x1d69_e2a5 / WORDS);
    TimesUndone(x, 0x846c_a68b, 0x4302_1123, 0x846c_a68b * 0x4302_1123 / WORDS);
    TimesUndone(x, 0x4302_1123, 0x846c_a68b, 0x846c_a68b * 0x4302_1123 / WORDS);
  }

  /** The mixer is a permutation of the 32-bit words: `Unmixed` undoes it from both sides. */
  lemma MixIsAPermutation(x: Word)
    ensures Unmixed(Mixed(x)) == x
    ensures Mixed(Unmixed(x)) == x
  {
    hide Fold, Times, Unfold15;
    var a := Times(Fold(x, 16), 0x7feb_352d);
    var b := Times(Fold(a, 15), 0x846c_a68b);
    HalfWordFoldUndone(b);
    MultipliersUndone(Fold(a, 15));
    FifteenFoldUndone(a);
    MultipliersUndone(Fold(x, 16));
    HalfWordFoldUndone(x);
    var c := Times(Fold(x, 16), 0x4302_1123);
    var d := Times(Unfold15(c), 0x1d69_e2a5);
    HalfWordFoldUndone(d);
    MultipliersUndone(Unfold15(c));
    FifteenFoldUndone(c);
  }

  /** The mixer, assignment by assignment: its result determines its argument. */
  method Mix32(x0: Word) returns (r: Word)
    ensures r == Mixed(x0) && Unmixed(r) == x0
  {
    MixIsAPermutation(x0);
    hide Fold, Unmixed;
    var x := x0;
    x := Fold(x, 16);
    x := x * 0x7feb_352d % WORDS;
    x := Fold(x, 15);
    x := x * 0x846c_a68b % WORDS;
    r := Fold(x, 16);
  }

  // ---- The stack program ------------------------------------------------------------

  datatype Instr = LocalGet | LocalTee | Const(c: Word) | ShrU | XorI | Mul

  const PROGRAM: seq<Instr> := [
    LocalGet, LocalGet, Const(16), ShrU, XorI, LocalTee,
    Const(2146121005), Mul, LocalTee,
    LocalGet, Const(15), ShrU, XorI, LocalTee,
    Const(2221713035), Mul, LocalTee,
    LocalGet, Const(16), ShrU, XorI]

  /** Operand stack (top last) and the one local. */
  datatype Machine = Machine(stack: seq<nat>, x: nat)

  function Pop2(m: Machine, r: nat): Machine
    requires |m.stack| >= 2
  {
    m.(stack := m.stack[..|m.stack| - 2] + [r])
  }

  /** One instruction; None is an operand stack that holds too little. Shift counts count modulo 32. */
  function Execute(i: Instr, m: Machine): Option<Machine> {
    var n := |m.stack|;
    match i
    case LocalGet => Some(m.(stack := m.stack + [m.x]))
    case Const(c) => Some(m.(stack := m.stack + [c]))
    case LocalTee => if n < 1 then None else Some(m.(x := m.stack[n - 1]))
    case ShrU => if n < 2 then None else Some(Pop2(m, Shr(m.stack[n - 2], m.stack[n - 1] % 32)))
    case XorI => if n < 2 then None else Some(Pop2(m, Xor(m.stack[n - 2], m.stack[n - 1])))
    case Mul => if n < 2 then None else Some(Pop2(m, m.stack[n - 2] * m.stack[n - 1] % WORDS))
  }

  function RunFrom(program: seq<Instr>, m: Machine): Option<Machine> {
    if program == [] then Some(m)
    else
      var next := Execute(program[0], m);
      if next.None? then None else RunFrom(program[1..], next.value)
  }

  lemma {:induction false} RunConcat(p: seq<Instr>, q: seq<Instr>, m: Machine)
    ensures RunFrom(p + q, m) == if RunFrom(p, m).Some? then RunFrom(q, RunFrom(p, m).value) else None
  {
    if p == [] {
      assert p + q == q;
    } else {
      assert (p + q)[0] == p[0] && (p + q)[1..] == p[1..] + q;
      var next := Execute(p[0], m);
      if next.Some? {
        RunConcat(p[1..], q, next.value);
      }
    }
  }

  lemma OneStep(i: Instr, m: Machine)
    ensures RunFrom([i], m) == Execute(i, m)
  {
    hide Execute;
    assert [i][1..] == [];
  }

  /** One instruction after another. */
  lemma TwoSteps(i: Instr, j: Instr, m: Machine)
    ensures RunFrom([i, j], m) == if Execute(i, m).Some? then Execute(j, Execute(i, m).value) else None
  {
    hide Execute;
    assert [i, j][1..] == [j];
    if Execute(i, m).Some? {
      OneStep(j, Execute(i, m).value);
    }
  }

  /** Operand, constant, shift, exclusive or: folds the value under the top by `k`. */
  lemma FoldBlock(base: seq<nat>, x: Word, k: Word)
    requires k < 32
    ensures RunFrom([LocalGet, Const(k), ShrU, XorI], Machine(base + [x], x)) == Some(Machine(base + [Fold(x, k)], x))
  {
    hide Xor, Shr;
    var m := Machine(base + [x], x);
    var m1 := Machine(base + [x, x], x);
    var m2 := Machine(base + [x, x, k], x);
    var m3 := Machine(base + [x, Shr(x, k)], x);
    assert Execute(LocalGet, m).value == m1 by { assert base + [x] + [x] == base + [x, x]; }
    assert Execute(Const(k), m1).value == m2 by { assert base + [x, x] + [k] == base + [x, x, k]; }
    assert Execute(ShrU, m2).value == m3 by {
      assert m2.stack[..|m2.stack| - 2] + [Shr(x, k)] == m3.stack;
    }
    assert Execute(XorI, m3).value == Machine(base + [Fold(x, k)], x) by {
      assert m3.stack[..|m3.stack| - 2] + [Xor(x, Shr(x, k))] == base + [Fold(x, k)];
    }
    assert [LocalGet, Const(k), ShrU, XorI] == [LocalGet, Const(k)] + [ShrU, XorI];
    RunConcat([LocalGet, Const(k)], [ShrU, XorI], m);
    TwoSteps(LocalGet, Const(k), m);
    TwoSteps(ShrU, XorI, m2);
  }

  /** Store the top, multiply it by a constant, store it again. */
  lemma TimesBlock(base: seq<nat>, v: Word, x: nat, c: Word)
    ensures RunFrom([LocalTee, Const(c), Mul, LocalTee], Machine(base + [v], x))
         == Some(Machine(base + [Times(v, c)], Times(v, c)))
  {
    hide Xor, Shr;
    var m := Machine(base + [v], x);
    var m1 := Machine(base + [v], v);
    var m2 := Machine(base + [v, c], v);
    var m3 := Machine(base + [Times(v, c)], v);
    assert Execute(LocalTee, m).value == m1;
    assert Execute(Const(c), m1).value == m2 by { assert base + [v] + [c] == base + [v, c]; }
    assert Execute(Mul, m2).value == m3 by { assert m2.stack[..|m2.stack| - 2] + [Times(v, c)] == m3.stack; }
    assert [LocalTee, Const(c), Mul, LocalTee] == [LocalTee, Const(c)] + [Mul, LocalTee];
    RunConcat([LocalTee, Const(c)], [Mul, LocalTee], m);
    TwoSteps(LocalTee, Const(c), m);
    TwoSteps(Mul, LocalTee, m2);
  }

  lemma FirstGet(base: seq<nat>, x: Word)
    ensures RunFrom([LocalGet], Machine(base, x)) == Some(Machine(base + [x], x))
  {
    OneStep(LocalGet, Machine(base, x));
  }

  /**
   On top of any operand stack the program never underflows, and leaves exactly the mixed
   value above what was there.
   */
  lemma ProgramComputesMix(base: seq<nat>, x: Word)
    ensures RunFrom(PROGRAM, Machine(base, x)).Some?
    ensures RunFrom(PROGRAM, Machine(base, x)).value.stack == base + [Mixed(x)]
  {
    hide Xor, Shr, Fold, Times, RunFrom, Execute;
    var a := Fold(x, 16);
    var b := Times(a, 0x7feb_352d);
    var c := Fold(b, 15);
    var d := Times(c, 0x846c_a68b);
    var p0, p1 := [LocalGet], [LocalGet, Const(16), ShrU, XorI];
    var p2, p3 := [LocalTee, Const(2146121005), Mul, LocalTee], [LocalGet, Const(15), ShrU, XorI];
    var p4 := [LocalTee, Const(2221713035), Mul, LocalTee];
    assert PROGRAM == p0 + (p1 + (p2 + (p3 + (p4 + p1))));
    RunConcat(p0, p1 + (p2 + (p3 + (p4 + p1))), Machine(base, x));
    FirstGet(base, x);
    RunConcat(p1, p2 + (p3 + (p4 + p1)), Machine(base + [x], x));
    FoldBlock(base, x, 16);
    RunConcat(p2, p3 + (p4 + p1), Machine(base + [a], x));
    TimesBlock(base, a, x, 2146121005);
    RunConcat(p3, p4 + p1, Machine(base + [b], b));
    FoldBlock(base, b, 15);
    RunConcat(p4, p1, Machine(base + [c], b));
    TimesBlock(base, c, b, 2221713035);
    FoldBlock(base, d, 16);
  }

  /** The interpreter loop: instruction by instruction, with the stack and the local overwritten in place. */
  method Interpret(x: Word) returns (r: nat)
    ensures r == Mixed(x)
  {
    var m := Machine([], x);
    ProgramComputesMix([], x);
    var pc := 0;
    while pc < |PROGRAM|
      invariant 0 <= pc <= |PROGRAM|
      invariant RunFrom(PROGRAM[pc..], m) == RunFrom(PROGRAM, Machine([], x))
    {
      assert PROGRAM[pc..][0] == PROGRAM[pc] && PROGRAM[pc..][1..] == PROGRAM[pc + 1..];
      m := Execute(PROGRAM[pc], m).value;
      pc := pc + 1;
    }
    assert m.stack == [] + [Mixed(x)];
    r := m.stack[|m.stack| - 1];
  }
}
