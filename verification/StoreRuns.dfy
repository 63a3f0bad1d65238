/**
 Whole runs of the store. Operations are totally ordered by the lock; `at` is the wall
 clock when the operation runs (Consume and Fail do not read it). Every run of the
 sweeping store is compared with a store that never forgets anything.
 */
module StoreRuns {
  import opened Wrappers
  import opened Clock
  import opened ChallengeModel
  import opened Store

  datatype Op =
    | PutOp(c: Challenge, at: Instant)
    | GetOp(id: string, at: Instant)
    | FailOp(id: string, maxAttempts: int, at: Instant)
    | ConsumeOp(id: string, at: Instant)
    | SpendOp(jti: string, expiresAt: Instant, at: Instant)
    | RateOp(key: string, limit: int, window: int, at: Instant)

  datatype Answer =
    | Nothing
    | Found(challenge: Option<Challenge>)
    | Flag(yes: bool)
    | Counting(allowed: bool, count: int)

  function Step(s: State, op: Op): State {
    match op
    case PutOp(c, at) => Put(s, c, at)
    case GetOp(_, at) => Sweep(s, at)
    case FailOp(id, m, _) => Fail(s, id, m)
    case ConsumeOp(id, _) => Consume(s, id)
    case SpendOp(jti, e, at) => Spend(s, jti, e, at)
    case RateOp(key, _, w, at) => Rate(s, key, w, at)
  }

  function Reply(s: State, op: Op): Answer {
    match op
    case PutOp(_, _) => Nothing
    case GetOp(id, at) => Found(Lookup(Sweep(s, at), id))
    case FailOp(_, _, _) => Nothing
    case ConsumeOp(id, _) => Flag(id in s.challenges)
    case SpendOp(jti, _, at) => Flag(jti !in Sweep(s, at).spent)
    case RateOp(key, limit, w, at) =>
      var n := Counted(RateOf(s.rates, key), w, at).count;
      Counting(n <= limit, n)
  }

  function Run(ops: seq<Op>): State {
    if |ops| == 0 then EMPTY else Step(Run(ops[..|ops| - 1]), ops[|ops| - 1])
  }

  function AnswerAt(ops: seq<Op>, i: nat): Answer
    requires i < |ops|
  {
    Reply(Run(ops[..i]), ops[i])
  }

  lemma RunExtends(ops: seq<Op>, i: nat)
    requires i < |ops|
    ensures Run(ops[..i + 1]) == Step(Run(ops[..i]), ops[i])
  {
    assert ops[..i + 1][..i] == ops[..i];
  }

  // ---- The store that never forgets ------------------------------------------------

  /** Same fields, no sweep: expiry is only ever looked at, never acted upon. */
  function IdealStep(m: State, op: Op): State {
    match op
    case PutOp(c, _) => m.(challenges := m.challenges[c.id := c])
    case GetOp(_, _) => m
    case FailOp(id, max, _) => Fail(m, id, max)
    case ConsumeOp(id, _) => Consume(m, id)
    case SpendOp(jti, e, _) => if jti in m.spent then m else m.(spent := m.spent[jti := e])
    case RateOp(key, _, w, at) => Rate(m, key, w, at)
  }

  function IdealReply(m: State, op: Op): Answer {
    match op
    case PutOp(_, _) => Nothing
    case GetOp(id, at) =>
      Found(if id in m.challenges && at <= m.challenges[id].expiresAt then Some(m.challenges[id]) else None)
    case FailOp(_, _, _) => Nothing
    case ConsumeOp(id, _) => Flag(id in m.challenges)
    case SpendOp(jti, _, _) => Flag(jti !in m.spent)
    case RateOp(key, limit, w, at) =>
      var n := Counted(RateOf(m.rates, key), w, at).count;
      Counting(n <= limit, n)
  }

  function IdealRun(ops: seq<Op>): State {
    if |ops| == 0 then EMPTY else IdealStep(IdealRun(ops[..|ops| - 1]), ops[|ops| - 1])
  }

  function IdealAnswerAt(ops: seq<Op>, i: nat): Answer
    requires i < |ops|
  {
    IdealReply(IdealRun(ops[..i]), ops[i])
  }

  // ---- Premises on a run -----------------------------------------------------------

  ghost predicate ClockNeverDecreases(ops: seq<Op>) {
    forall i, j | 0 <= i < j < |ops| :: ops[i].at <= ops[j].at
  }

  /** A window is dropped when it is strictly older than two minutes, so one nanosecond more is still safe. */
  const LONGEST_WINDOW: int := RATE_RETENTION + 1

  ghost predicate ShortWindows(ops: seq<Op>) {
    forall i | 0 <= i < |ops| && ops[i].RateOp? :: ops[i].window <= LONGEST_WINDOW
  }

  /** Each token carries its own expiry, so one JTI is always presented with one expiry. */
  ghost predicate OneExpiryPerJti(ops: seq<Op>) {
    forall i, j | 0 <= i < |ops| && 0 <= j < |ops| && ops[i].SpendOp? && ops[j].SpendOp? && ops[i].jti == ops[j].jti ::
      ops[i].expiresAt == ops[j].expiresAt
  }

  /** A challenge is stored before it expires (its lifetime is at least 30 s). */
  ghost predicate PutBeforeExpiry(ops: seq<Op>) {
    forall i | 0 <= i < |ops| && ops[i].PutOp? :: ops[i].at <= ops[i].c.expiresAt
  }

  predicate Sweeps(op: Op) {
    op.PutOp? || op.GetOp? || op.SpendOp?
  }

  /** The calls on which a forgetful and an unforgetful store can be told apart are excluded. */
  predicate Unexpired(m: State, op: Op) {
    match op
    case ConsumeOp(id, at) => id in m.challenges ==> at <= m.challenges[id].expiresAt
    case SpendOp(jti, _, at) => jti in m.spent ==> at <= m.spent[jti]
    case _ => true
  }

  // ---- The simulation --------------------------------------------------------------

  ghost predicate KeepsLive(s: map<string, Challenge>, m: map<string, Challenge>, now: Instant) {
    && (forall id | id in s :: id in m && s[id] == m[id])
    && (forall id | id in m && id !in s :: m[id].expiresAt < now)
  }

  /** At clock `now`, `s` is `m` except for records whose time is over. */
  ghost predicate Remembers(s: State, m: State, now: Instant) {
    && KeepsLive(s.challenges, m.challenges, now)
    && (forall j | j in s.spent :: j in m.spent)
    && (forall j | j in m.spent && (j !in s.spent || s.spent[j] != m.spent[j]) :: m.spent[j] < now)
    && (forall k | k in s.rates :: k in m.rates && s.rates[k] == m.rates[k])
    && (forall k | k in m.rates && k !in s.rates :: now - m.rates[k].start > RATE_RETENTION)
  }

  lemma SweepRemembers(s: State, m: State, before: Instant, now: Instant)
    requires Remembers(s, m, before) && before <= now
    ensures Remembers(Sweep(s, now), m, now)
  {
  }

  lemma CountedAgrees(s: State, m: State, now: Instant, key: string, window: int)
    requires Remembers(s, m, now) && window <= LONGEST_WINDOW
    ensures Counted(RateOf(s.rates, key), window, now) == Counted(RateOf(m.rates, key), window, now)
  {
  }

  lemma PutRemembers(s: State, m: State, c: Challenge, now: Instant)
    requires Remembers(s, m, now)
    ensures Remembers(s.(challenges := s.challenges[c.id := c]), m.(challenges := m.challenges[c.id := c]), now)
  {
  }

  lemma RemovalKeepsLive(s: map<string, Challenge>, m: map<string, Challenge>, id: string, now: Instant)
    requires KeepsLive(s, m, now)
    ensures KeepsLive(s - {id}, m - {id}, now) && (id !in s ==> KeepsLive(s, m - {id}, now))
  {
  }

  lemma UpdateKeepsLive(s: map<string, Challenge>, m: map<string, Challenge>, id: string, c: Challenge, now: Instant)
    requires KeepsLive(s, m, now)
    ensures KeepsLive(s[id := c], m[id := c], now)
    ensures id !in s && c.expiresAt < now ==> KeepsLive(s, m[id := c], now)
  {
  }

  lemma FailKeepsLive(s: State, m: State, id: string, max: int, now: Instant)
    requires KeepsLive(s.challenges, m.challenges, now)
    ensures KeepsLive(Fail(s, id, max).challenges, Fail(m, id, max).challenges, now)
  {
    if id in m.challenges {
      var c := m.challenges[id].(attempts := m.challenges[id].attempts + 1);
      RemovalKeepsLive(s.challenges, m.challenges, id, now);
      UpdateKeepsLive(s.challenges, m.challenges, id, c, now);
      assert id in s.challenges ==> s.challenges[id] == m.challenges[id];
      assert id !in s.challenges ==> m.challenges[id].expiresAt < now;
    } else {
      assert id !in s.challenges;
    }
  }

  lemma FailRemembers(s: State, m: State, id: string, max: int, now: Instant)
    requires Remembers(s, m, now)
    ensures Remembers(Fail(s, id, max), Fail(m, id, max), now)
  {
    hide KeepsLive;
    FailKeepsLive(s, m, id, max, now);
  }

  lemma SpendRemembers(s: State, m: State, jti: string, e: Instant, now: Instant)
    requires Remembers(s, m, now)
    ensures Remembers(if jti in s.spent then s else s.(spent := s.spent[jti := e]),
                      if jti in m.spent then m else m.(spent := m.spent[jti := e]), now)
  {
  }

  lemma RateRemembers(s: State, m: State, key: string, window: int, now: Instant)
    requires Remembers(s, m, now) && window <= LONGEST_WINDOW
    ensures Remembers(Rate(s, key, window, now), Rate(m, key, window, now), now)
  {
    CountedAgrees(s, m, now, key, window);
  }

  lemma StepRemembers(s: State, m: State, before: Instant, op: Op)
    requires Remembers(s, m, before) && before <= op.at
    requires op.RateOp? ==> op.window <= LONGEST_WINDOW
    ensures Remembers(Step(s, op), IdealStep(m, op), op.at)
  {
    assert Remembers(s, m, op.at);
    var t := Sweep(s, op.at);
    SweepRemembers(s, m, before, op.at);
    match op
    case PutOp(c, at) => PutRemembers(t, m, c, at);
    case GetOp(_, _) =>
    case FailOp(id, max, at) => FailRemembers(s, m, id, max, at);
    case ConsumeOp(_, _) =>
    case SpendOp(jti, e, at) => SpendRemembers(t, m, jti, e, at);
    case RateOp(key, _, w, at) => RateRemembers(s, m, key, w, at);
  }

  lemma {:induction false} RunRemembers(ops: seq<Op>, now: Instant)
    requires ClockNeverDecreases(ops) && ShortWindows(ops)
    requires |ops| > 0 ==> ops[|ops| - 1].at <= now
    ensures Remembers(Run(ops), IdealRun(ops), now)
  {
    if |ops| > 0 {
      var last := ops[|ops| - 1];
      RunRemembers(ops[..|ops| - 1], last.at);
      StepRemembers(Run(ops[..|ops| - 1]), IdealRun(ops[..|ops| - 1]), last.at, last);
    }
  }

  /**
   The sweeping store answers every call exactly as the store that never forgets does:
   lookups and rate calls always, consuming a challenge and spending a JTI whenever the
   record is not past its expiry at the call, however sweeps interleave.
   */
  lemma ForgetfulStoreAgrees(ops: seq<Op>, i: nat)
    requires i < |ops| && ClockNeverDecreases(ops) && ShortWindows(ops)
    requires Unexpired(IdealRun(ops[..i]), ops[i])
    ensures AnswerAt(ops, i) == IdealAnswerAt(ops, i)
  {
    var s, m, op := Run(ops[..i]), IdealRun(ops[..i]), ops[i];
    RunRemembers(ops[..i], op.at);
    if op.RateOp? {
      CountedAgrees(s, m, op.at, op.key, op.window);
    } else if Sweeps(op) {
      SweepRemembers(s, m, op.at, op.at);
    }
  }

  // ---- Exactly when it does not ----------------------------------------------------

  lemma SpentExpiryStep(s: State, m: State, op: Op, jti: string, e: Instant)
    requires (jti in s.spent ==> s.spent[jti] == e) && (jti in m.spent ==> m.spent[jti] == e)
    requires op.SpendOp? && op.jti == jti ==> op.expiresAt == e
    ensures jti in Step(s, op).spent ==> Step(s, op).spent[jti] == e
    ensures jti in IdealStep(m, op).spent ==> IdealStep(m, op).spent[jti] == e
  {
  }

  lemma {:induction false} SpentExpiryIsTheJtis(ops: seq<Op>, jti: string, e: Instant)
    requires forall k | 0 <= k < |ops| && ops[k].SpendOp? && ops[k].jti == jti :: ops[k].expiresAt == e
    ensures jti in Run(ops).spent ==> Run(ops).spent[jti] == e
    ensures jti in IdealRun(ops).spent ==> IdealRun(ops).spent[jti] == e
  {
    hide Step, IdealStep;
    if |ops| > 0 {
      var before := ops[..|ops| - 1];
      SpentExpiryIsTheJtis(before, jti, e);
      SpentExpiryStep(Run(before), IdealRun(before), ops[|ops| - 1], jti, e);
    }
  }

  /**
   A JTI is accepted exactly when it was never spent or the call comes after its expiry;
   so the two stores disagree on exactly the calls past the expiry of a spent JTI.
   */
  lemma SpendIsAcceptedExactlyWhen(ops: seq<Op>, i: nat)
    requires i < |ops| && ops[i].SpendOp?
    requires ClockNeverDecreases(ops) && ShortWindows(ops) && OneExpiryPerJti(ops)
    ensures AnswerAt(ops, i) == Flag(ops[i].jti !in IdealRun(ops[..i]).spent || ops[i].at > ops[i].expiresAt)
    ensures AnswerAt(ops, i) == IdealAnswerAt(ops, i)
       <==> !(ops[i].jti in IdealRun(ops[..i]).spent && ops[i].at > ops[i].expiresAt)
  {
    SpentExpiryIsTheJtis(ops[..i], ops[i].jti, ops[i].expiresAt);
    RunRemembers(ops[..i], ops[i].at);
  }

  lemma {:induction false} PresentMeansUnswept(ops: seq<Op>, k: nat, id: string)
    requires ClockNeverDecreases(ops) && PutBeforeExpiry(ops)
    requires k < |ops| && Sweeps(ops[k]) && id in Run(ops).challenges
    ensures ops[k].at <= Run(ops).challenges[id].expiresAt
  {
    var n := |ops| - 1;
    if k < n && !(ops[n].PutOp? && ops[n].c.id == id) {
      PresentMeansUnswept(ops[..n], k, id);
    }
  }

  ghost predicate SweptBy(ops: seq<Op>, i: nat, t: Instant)
    requires i <= |ops|
  {
    exists k | 0 <= k < i :: Sweeps(ops[k]) && ops[k].at > t
  }

  /** A challenge that only one step of the sweeping store loses, it loses to a sweep past its expiry. */
  lemma LostToASweep(s: State, m: State, op: Op, id: string)
    requires id in m.challenges ==> id in s.challenges
    requires id in s.challenges ==> id in m.challenges && s.challenges[id] == m.challenges[id]
    requires id in IdealStep(m, op).challenges && id !in Step(s, op).challenges
    ensures Sweeps(op) && op.at > IdealStep(m, op).challenges[id].expiresAt
  {
  }

  /** What the sweeping store holds of `id`, the unforgetful one holds too. */
  ghost predicate Same(s: State, m: State, id: string) {
    id in s.challenges ==> id in m.challenges && s.challenges[id] == m.challenges[id]
  }

  lemma SameStep(s: State, m: State, op: Op, id: string)
    requires Same(s, m, id)
    ensures Same(Step(s, op), IdealStep(m, op), id)
  {
  }

  lemma {:induction false} KeptMeansSame(ops: seq<Op>, id: string)
    ensures Same(Run(ops), IdealRun(ops), id)
  {
    hide Step, IdealStep;
    if |ops| > 0 {
      var before := ops[..|ops| - 1];
      KeptMeansSame(before, id);
      SameStep(Run(before), IdealRun(before), ops[|ops| - 1], id);
    }
  }

  lemma {:induction false} AbsentMeansSwept(ops: seq<Op>, id: string)
    requires ClockNeverDecreases(ops) && id in IdealRun(ops).challenges && id !in Run(ops).challenges
    ensures SweptBy(ops, |ops|, IdealRun(ops).challenges[id].expiresAt)
  {
    var n := |ops| - 1;
    var before := ops[..n];
    assert n >= 0;
    if id in IdealRun(before).challenges && id !in Run(before).challenges {
      AbsentMeansSwept(before, id);
      var k :| 0 <= k < n && Sweeps(before[k]) && before[k].at > IdealRun(before).challenges[id].expiresAt;
      assert Sweeps(ops[k]) && ops[k].at > IdealRun(ops).challenges[id].expiresAt;
    } else {
      KeptMeansSame(before, id);
      LostToASweep(Run(before), IdealRun(before), ops[n], id);
      assert Sweeps(ops[n]) && ops[n].at > IdealRun(ops).challenges[id].expiresAt;
    }
  }

  /**
   Consuming looks at no clock: it succeeds exactly when the challenge is unconsumed and
   no earlier sweep has read a clock past its expiry.
   */
  lemma ConsumeSucceedsExactlyWhen(ops: seq<Op>, i: nat)
    requires i < |ops| && ops[i].ConsumeOp?
    requires ClockNeverDecreases(ops) && PutBeforeExpiry(ops)
    ensures AnswerAt(ops, i) == Flag(
              && ops[i].id in IdealRun(ops[..i]).challenges
              && !SweptBy(ops, i, IdealRun(ops[..i]).challenges[ops[i].id].expiresAt))
  {
    var id, before := ops[i].id, ops[..i];
    KeptMeansSame(before, id);
    if id in Run(before).challenges {
      forall k | 0 <= k < i && Sweeps(ops[k])
        ensures ops[k].at <= Run(before).challenges[id].expiresAt
      {
        assert Sweeps(before[k]);
        PresentMeansUnswept(before, k, id);
      }
    } else if id in IdealRun(before).challenges {
      AbsentMeansSwept(before, id);
      var t := IdealRun(before).challenges[id].expiresAt;
      var k :| 0 <= k < i && Sweeps(before[k]) && before[k].at > t;
      assert Sweeps(ops[k]) && ops[k].at > t;
    }
  }

  /**
   The premise on windows is tight: with any longer one there is a
   run of three calls in which a key's second request starts counting again from one.
   */
  lemma LongerWindowsAreForgotten(window: int, key: string)
    returns (ops: seq<Op>)
    requires window > LONGEST_WINDOW
    ensures |ops| == 3 && ClockNeverDecreases(ops)
    ensures forall i | 0 <= i < 3 :: ops[i].RateOp? ==> ops[i].key == key && ops[i].window == window
    ensures AnswerAt(ops, 2) == Counting(true, 1) && IdealAnswerAt(ops, 2) == Counting(false, 2)
  {
    var late := RATE_RETENTION + 1;
    ops := [RateOp(key, 1, window, 0), GetOp("", late), RateOp(key, 1, window, late)];
    RunExtends(ops, 0);
    RunExtends(ops, 1);
    assert ops[..0] == [];
    assert Run(ops[..1]) == State(map[], map[], map[key := Window(0, 1)]);
    assert Run(ops[..2]) == EMPTY;
    assert ops[..2][..1] == ops[..1];
    assert IdealRun(ops[..1]) == IdealStep(EMPTY, ops[0]);
    assert IdealRun(ops[..2]) == IdealStep(IdealRun(ops[..1]), ops[1]);
    assert IdealRun(ops[..2]).rates[key] == Window(0, 1);
  }

  // ---- The life of a challenge -----------------------------------------------------

  predicate Puts(op: Op, id: string) {
    op.PutOp? && op.c.id == id
  }

  ghost predicate NoPut(ops: seq<Op>, i: nat, j: nat, id: string) {
    forall k | i <= k < j && k < |ops| :: !Puts(ops[k], id)
  }

  lemma AbsentStep(s: State, op: Op, id: string)
    requires id !in s.challenges && !Puts(op, id)
    ensures id !in Step(s, op).challenges
  {
  }

  /** Once a challenge is gone, nothing but storing it again brings it back. */
  lemma {:induction false} GoneIsAbsorbing(ops: seq<Op>, i: nat, j: nat, id: string)
    requires i <= j <= |ops| && id !in Run(ops[..i]).challenges && NoPut(ops, i, j, id)
    ensures id !in Run(ops[..j]).challenges
    decreases j
  {
    hide Step, Run;
    if i < j {
      GoneIsAbsorbing(ops, i, j - 1, id);
      RunExtends(ops, j - 1);
      AbsentStep(Run(ops[..j - 1]), ops[j - 1], id);
    }
  }

  /** Between two successful consumptions of one id it was stored again. */
  lemma ConsumedOnce(ops: seq<Op>, i: nat, j: nat, id: string)
    requires i < j < |ops|
    requires ops[i].ConsumeOp? && ops[i].id == id && AnswerAt(ops, i) == Flag(true)
    requires ops[j].ConsumeOp? && ops[j].id == id && AnswerAt(ops, j) == Flag(true)
    ensures exists k :: i < k < j && Puts(ops[k], id)
  {
    if NoPut(ops, i + 1, j, id) {
      RunExtends(ops, i);
      GoneIsAbsorbing(ops, i + 1, j, id);
    } else {
      var k :| i + 1 <= k < j && k < |ops| && Puts(ops[k], id);
    }
  }

  /** How many of `ops[i..j]` record a failure of `id`. */
  function Failures(ops: seq<Op>, i: nat, j: nat, id: string): nat
    requires i <= j <= |ops|
    decreases j
  {
    if i == j then 0
    else Failures(ops, i, j - 1, id) + (if ops[j - 1].FailOp? && ops[j - 1].id == id then 1 else 0)
  }

  /**
   A stored challenge carries exactly the failures recorded since it was put, and the
   `max`-th of them removes it: while it is live, `attempts` is in `0..max-1`.
   */
  lemma {:induction false} AttemptsAreTheFailures(ops: seq<Op>, i: nat, j: nat, id: string, max: int)
    requires i < j <= |ops| && Puts(ops[i], id) && ops[i].c.attempts == 0 && 0 < max
    requires NoPut(ops, i + 1, j, id)
    requires forall k | i < k < j && ops[k].FailOp? && ops[k].id == id :: ops[k].maxAttempts == max
    ensures id in Run(ops[..j]).challenges ==>
              Run(ops[..j]).challenges[id].attempts == Failures(ops, i + 1, j, id) < max
    decreases j
  {
    RunExtends(ops, j - 1);
    if i + 1 < j {
      AttemptsAreTheFailures(ops, i, j - 1, id, max);
    }
  }

  /**
   After the third recorded failure no consumption of the id ever succeeds again, also
   for a verification that had looked the challenge up before.
   */
  lemma ThirdFailureIsFinal(ops: seq<Op>, i: nat, j: nat, n: nat, id: string)
    requires i < j <= n < |ops| && Puts(ops[i], id) && ops[i].c.attempts == 0
    requires NoPut(ops, i + 1, n, id)
    requires forall k | i < k < j && ops[k].FailOp? && ops[k].id == id :: ops[k].maxAttempts == 3
    requires Failures(ops, i + 1, j, id) >= 3
    requires ops[n].ConsumeOp? && ops[n].id == id
    ensures AnswerAt(ops, n) == Flag(false)
  {
    AttemptsAreTheFailures(ops, i, j, id, 3);
    GoneIsAbsorbing(ops, j, n, id);
  }
}
