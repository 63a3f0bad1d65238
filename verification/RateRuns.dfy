/** What the rate limiter grants over whole runs, sweeps included. */
module RateRuns {
  import opened Wrappers
  import opened Clock
  import opened Store
  import opened StoreRuns

  predicate IsCall(op: Op, key: string) {
    op.RateOp? && op.key == key
  }

  /** All calls on one key pass the same limit and window, and clocks are past year 1. */
  ghost predicate SamePolicy(ops: seq<Op>, key: string, limit: nat, window: int) {
    && 0 < window <= LONGEST_WINDOW
    && (forall i | 0 <= i < |ops| && IsCall(ops[i], key) ::
          ops[i].limit == limit && ops[i].window == window && ops[i].at > ZERO_INSTANT)
  }

  /** Calls on `key` among the first `n` operations whose clock lies in `[lo, hi]`. */
  function CallsIn(ops: seq<Op>, n: nat, key: string, lo: Instant, hi: Instant): nat
    requires n <= |ops|
  {
    if n == 0 then 0
    else CallsIn(ops, n - 1, key, lo, hi) +
         (if IsCall(ops[n - 1], key) && lo <= ops[n - 1].at <= hi then 1 else 0)
  }

  /** How many of those the store allowed. */
  function AllowedIn(ops: seq<Op>, n: nat, key: string, lo: Instant, hi: Instant): nat
    requires n <= |ops|
  {
    if n == 0 then 0
    else AllowedIn(ops, n - 1, key, lo, hi) +
         (if IsCall(ops[n - 1], key) && lo <= ops[n - 1].at <= hi && AnswerAt(ops, n - 1).allowed then 1 else 0)
  }

  function Min(a: int, b: int): int {
    if a < b then a else b
  }

  function IdealWindow(ops: seq<Op>, n: nat, key: string): Option<Window>
    requires n <= |ops|
  {
    RateOf(IdealRun(ops[..n]).rates, key)
  }

  /** One operation moves a key's window as `Counted` says, or leaves it alone. */
  lemma WindowStep(ops: seq<Op>, n: nat, key: string)
    requires 0 < n <= |ops| && ClockNeverDecreases(ops) && ShortWindows(ops)
    ensures IsCall(ops[n - 1], key) ==>
              && IdealWindow(ops, n, key) ==
                 Some(Counted(IdealWindow(ops, n - 1, key), ops[n - 1].window, ops[n - 1].at))
              && AnswerAt(ops, n - 1) ==
                 Counting(IdealWindow(ops, n, key).value.count <= ops[n - 1].limit,
                          IdealWindow(ops, n, key).value.count)
    ensures !IsCall(ops[n - 1], key) ==> IdealWindow(ops, n, key) == IdealWindow(ops, n - 1, key)
  {
    assert ops[..n][..n - 1] == ops[..n - 1];
    if IsCall(ops[n - 1], key) {
      ForgetfulStoreAgrees(ops, n - 1);
    }
  }

  /** The window starts with a call: not in the future, not at Go's zero time, and counts at least that call. */
  lemma {:induction false} WindowIsRecent(ops: seq<Op>, n: nat, key: string, limit: nat, window: int)
    requires n <= |ops| && ClockNeverDecreases(ops) && ShortWindows(ops) && SamePolicy(ops, key, limit, window)
    ensures IdealWindow(ops, n, key).Some? ==>
              var w := IdealWindow(ops, n, key).value;
              w.start > ZERO_INSTANT && w.count >= 1 && 0 < n && w.start <= ops[n - 1].at
  {
    if n > 0 {
      WindowIsRecent(ops, n - 1, key, limit, window);
      WindowStep(ops, n, key);
    }
  }

  /** No call recorded so far lies beyond the end of the current window; inside it all are counted. */
  lemma {:induction false} WindowCounts(ops: seq<Op>, n: nat, key: string, limit: nat, window: int, lo: Instant,
                                        hi: Instant)
    requires n <= |ops| && ClockNeverDecreases(ops) && ShortWindows(ops) && SamePolicy(ops, key, limit, window)
    requires forall i | 0 <= i < n :: ops[i].at <= hi
    ensures IdealWindow(ops, n, key).None? ==> CallsIn(ops, n, key, lo, hi) == 0 && AllowedIn(ops, n, key, lo, hi) == 0
    ensures IdealWindow(ops, n, key).Some? ==>
              var w := IdealWindow(ops, n, key).value;
              && (w.start + window <= lo ==> CallsIn(ops, n, key, lo, hi) == 0 && AllowedIn(ops, n, key, lo, hi) == 0)
              && (w.start == lo ==>
                  CallsIn(ops, n, key, lo, hi) == w.count && AllowedIn(ops, n, key, lo, hi) == Min(limit, w.count))
  {
    if n > 0 {
      WindowCounts(ops, n - 1, key, limit, window, lo, hi);
      WindowIsRecent(ops, n - 1, key, limit, window);
      WindowStep(ops, n, key);
    }
  }

  // ---- Fixed windows -----------------------------------------------------------------

  /**
   The call that opened the window a key is in after `n` operations, said of the calls and
   their clocks alone: the first call, and from then on each first call that comes a whole
   window or more after the last opening.
   */
  function Opener(ops: seq<Op>, n: nat, key: string, window: int): (o: Option<nat>)
    requires n <= |ops|
    ensures o.Some? ==> o.value < n && IsCall(ops[o.value], key)
  {
    if n == 0 then None
    else
      var o := Opener(ops, n - 1, key, window);
      if IsCall(ops[n - 1], key) && (o.None? || ops[n - 1].at >= ops[o.value].at + window) then Some(n - 1) else o
  }

  /** The store's window starts where that call was made. */
  lemma {:induction false} WindowIsTheOpeners(ops: seq<Op>, n: nat, key: string, limit: nat, window: int)
    requires n <= |ops| && ClockNeverDecreases(ops) && ShortWindows(ops) && SamePolicy(ops, key, limit, window)
    ensures var o := Opener(ops, n, key, window);
            && (o.Some? <==> IdealWindow(ops, n, key).Some?)
            && (o.Some? ==> IdealWindow(ops, n, key).value.start == ops[o.value].at)
  {
    if n > 0 {
      WindowIsTheOpeners(ops, n - 1, key, limit, window);
      WindowIsRecent(ops, n - 1, key, limit, window);
      WindowStep(ops, n, key);
    }
  }

  lemma {:induction false} WindowStays(ops: seq<Op>, m: nat, n: nat, key: string, window: int)
    requires m <= n <= |ops| && ClockNeverDecreases(ops) && Opener(ops, m, key, window).Some?
    ensures var o, o' := Opener(ops, m, key, window), Opener(ops, n, key, window);
            && o'.Some? && o.value <= o'.value
            && (o' != o ==> m <= o'.value && ops[o'.value].at >= ops[o.value].at + window)
            && (o' == o ==> forall k | m <= k < n && IsCall(ops[k], key) :: ops[k].at < ops[o.value].at + window)
  {
    if m < n {
      WindowStays(ops, m, n - 1, key, window);
    }
  }

  /**
   Windows are fixed: two calls on a key share their window if and only if the later one
   comes before the end of the window of the earlier one; otherwise its own window opened
   after that end.
   */
  lemma WindowsAreFixed(ops: seq<Op>, i: nat, j: nat, key: string, window: int)
    requires i <= j < |ops| && IsCall(ops[i], key) && IsCall(ops[j], key) && window > 0 && ClockNeverDecreases(ops)
    ensures var o, o' := Opener(ops, i + 1, key, window), Opener(ops, j + 1, key, window);
            && o.Some? && o'.Some?
            && (o' == o <==> ops[j].at < ops[o.value].at + window)
            && (o' != o ==> i < o'.value <= j && ops[o'.value].at >= ops[o.value].at + window)
  {
    var o := Opener(ops, i + 1, key, window);
    WindowStays(ops, i + 1, j + 1, key, window);
    if i < j && Opener(ops, j + 1, key, window) == o {
      assert IsCall(ops[j], key);
    }
  }

  /**
   Within its fixed window every call gets the number of calls made in that window so far,
   is allowed while that is at most the limit, and exactly `min(limit, calls)` have been.
   */
  lemma FixedWindowIsExact(ops: seq<Op>, i: nat, key: string, limit: nat, window: int)
    requires i < |ops| && IsCall(ops[i], key)
    requires ClockNeverDecreases(ops) && ShortWindows(ops) && SamePolicy(ops, key, limit, window)
    ensures var o := Opener(ops, i + 1, key, window);
            && o.Some?
            && var start := ops[o.value].at;
            var calls := CallsIn(ops, i + 1, key, start, ops[i].at);
            && start <= ops[i].at < start + window
            && AnswerAt(ops, i).count == calls
            && (AnswerAt(ops, i).allowed <==> calls <= limit)
            && AllowedIn(ops, i + 1, key, start, ops[i].at) == Min(limit, calls)
  {
    WindowStep(ops, i + 1, key);
    WindowIsTheOpeners(ops, i + 1, key, limit, window);
    WindowIsRecent(ops, i + 1, key, limit, window);
    WindowCounts(ops, i + 1, key, limit, window, IdealWindow(ops, i + 1, key).value.start, ops[i].at);
  }

  /** A call made after `o` opened its window falls into that window exactly when it comes before the end. */
  lemma OpenerStep(ops: seq<Op>, n: nat, key: string, window: int, o: nat)
    requires o + 1 < n <= |ops| && Opener(ops, o + 1, key, window) == Some(o) && window > 0 && ClockNeverDecreases(ops)
    ensures !IsCall(ops[n - 1], key) ==> Opener(ops, n, key, window) == Opener(ops, n - 1, key, window)
    ensures IsCall(ops[n - 1], key) ==> (Opener(ops, n, key, window) == Some(o) <==> ops[n - 1].at < ops[o].at + window)
    ensures Opener(ops, n, key, window) == Some(o) ==> Opener(ops, n - 1, key, window) == Some(o)
  {
    if IsCall(ops[n - 1], key) {
      WindowsAreFixed(ops, o, n - 1, key, window);
    }
  }

  lemma {:induction false} WindowTotals(ops: seq<Op>, n: nat, key: string, limit: nat, window: int, o: nat)
    requires o < n <= |ops| && Opener(ops, o + 1, key, window) == Some(o)
    requires ClockNeverDecreases(ops) && ShortWindows(ops) && SamePolicy(ops, key, limit, window)
    ensures var lo, hi := ops[o].at, ops[o].at + window - 1;
            && AllowedIn(ops, n, key, lo, hi) == Min(limit, CallsIn(ops, n, key, lo, hi))
            && (Opener(ops, n, key, window) == Some(o) ==>
                  && IdealWindow(ops, n, key).Some?
                  && CallsIn(ops, n, key, lo, hi) == IdealWindow(ops, n, key).value.count)
  {
    hide Opener, IdealWindow, AnswerAt;
    var lo, hi := ops[o].at, ops[o].at + window - 1;
    WindowIsTheOpeners(ops, n, key, limit, window);
    if n == o + 1 {
      assert forall i | 0 <= i < n :: ops[i].at <= hi;
      WindowCounts(ops, n, key, limit, window, lo, hi);
    } else {
      WindowTotals(ops, n - 1, key, limit, window, o);
      OpenerStep(ops, n, key, window, o);
      WindowIsTheOpeners(ops, n - 1, key, limit, window);
      WindowIsRecent(ops, n - 1, key, limit, window);
      WindowStep(ops, n, key);
    }
  }

  /** Over the whole run, each window that opens lets exactly `min(limit, calls)` of its calls through. */
  lemma WholeWindowIsExact(ops: seq<Op>, key: string, limit: nat, window: int, o: nat)
    requires o < |ops| && Opener(ops, o + 1, key, window) == Some(o)
    requires ClockNeverDecreases(ops) && ShortWindows(ops) && SamePolicy(ops, key, limit, window)
    ensures var lo, hi := ops[o].at, ops[o].at + window - 1;
            AllowedIn(ops, |ops|, key, lo, hi) == Min(limit, CallsIn(ops, |ops|, key, lo, hi))
  {
    WindowTotals(ops, |ops|, key, limit, window, o);
  }

  // ---- Any stretch of time -----------------------------------------------------------

  /** At most how many calls of `[lo, lo + window]` can have been allowed once the window is `w`. */
  function Budget(w: Window, limit: nat, window: int, lo: Instant): int {
    if w.start + window <= lo then 0
    else if w.start <= lo then Min(w.count, limit)
    else if w.start <= lo + window then limit + Min(w.count, limit)
    else 2 * limit
  }

  lemma {:induction false} WithinBudget(ops: seq<Op>, n: nat, key: string, limit: nat, window: int, lo: Instant,
                                        hi: Instant)
    requires n <= |ops| && ClockNeverDecreases(ops) && ShortWindows(ops) && SamePolicy(ops, key, limit, window)
    requires hi - lo <= window
    ensures AllowedIn(ops, n, key, lo, hi) <=
            if IdealWindow(ops, n, key).Some? then Budget(IdealWindow(ops, n, key).value, limit, window, lo) else 0
  {
    if n > 0 {
      WithinBudget(ops, n - 1, key, limit, window, lo, hi);
      WindowIsRecent(ops, n - 1, key, limit, window);
      WindowStep(ops, n, key);
    }
  }

  /**
   Any stretch of time no longer than the window, placed anywhere in the run, contains at
   most twice the limit of allowed requests per key.
   */
  lemma AtMostTwiceTheLimit(ops: seq<Op>, key: string, limit: nat, window: int, lo: Instant, hi: Instant)
    requires ClockNeverDecreases(ops) && ShortWindows(ops) && SamePolicy(ops, key, limit, window)
    requires hi - lo <= window
    ensures AllowedIn(ops, |ops|, key, lo, hi) <= 2 * limit
  {
    WithinBudget(ops, |ops|, key, limit, window, lo, hi);
    WindowIsRecent(ops, |ops|, key, limit, window);
  }
}
