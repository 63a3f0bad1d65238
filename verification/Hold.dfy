/** The press-and-hold challenge in the browser (interactive.ts). */
module Hold {
  import opened Wrappers
  import opened Clock
  import opened ChallengeModel
  import Challenges

  /** What the behaviour monitor adds to a proof. */
  datatype Snapshot = Snapshot(keyEvents: nat, pointerEvents: nat, pointerVariance: real)

  datatype HoldProof = HoldProof(holdMs: int, eventCount: int, pointerVariance: real)

  datatype Outcome = Resolved(proof: HoldProof) | TimedOut

  /** Times are milliseconds; `timers` maps each pending timer to the time it is due. */
  datatype State = State(
    started: real,
    active: bool,
    events: nat,
    timer: nat,
    timers: map<nat, real>,
    outcome: Option<Outcome>)

  const IDLE := State(0.0, false, 0, 0, map[], None)

  datatype Limits = Limits(minHold: real, maxHold: real)

  /** An event, with the clock readings its handler takes and the timer it may set. */
  datatype Event =
    | PointerDown(timer: nat, now: real)
    | PointerUp(now: real, later: real, snap: Snapshot)
    | PointerCancel
    | KeyDown(key: string, timer: nat, now: real)
    | KeyUp(key: string, now: real, later: real, snap: Snapshot)
    | TimerFires(timer: nat, now: real, snap: Snapshot)

  predicate HoldKey(key: string) {
    key == " " || key == "Enter"
  }

  /** `Math.round` */
  function Round(x: real): int {
    (x + 0.5).Floor
  }

  /** `Number(value || fallback)` */
  function Limit(value: Option<real>, fallback: real): real {
    if value.None? || value.value == 0.0 then fallback else value.value
  }

  function LimitsOf(minHoldMs: Option<real>, maxHoldMs: Option<real>): Limits {
    Limits(Limit(minHoldMs, 850.0), Limit(maxHoldMs, 7000.0))
  }

  /** A promise keeps its first outcome. */
  function Settle(s: State, o: Outcome): State {
    if s.outcome.None? then s.(outcome := Some(o)) else s
  }

  function Began(s: State, l: Limits, timer: nat, now: real): State {
    if s.active then s
    else State(now, true, s.events + 1, timer, s.timers[timer := now + l.minHold], s.outcome)
  }

  function Cancelled(s: State): State {
    if !s.active then s
    else s.(active := false, events := s.events + 1, timers := s.timers - {s.timer})
  }

  function CountedEvents(events: nat, snap: Snapshot): int {
    var n := events + snap.keyEvents + if snap.pointerEvents < 8 then snap.pointerEvents else 8;
    if n > 2 then n else 2
  }

  function Ended(s: State, l: Limits, now: real, snap: Snapshot): Outcome {
    var elapsed := Round(now - s.started);
    if elapsed as real > l.maxHold then TimedOut
    else Resolved(HoldProof(elapsed, CountedEvents(s.events + 1, snap), snap.pointerVariance))
  }

  function Completed(s: State, l: Limits, now: real, snap: Snapshot): State {
    if !s.active then s
    else Settle(Cancelled(s), Ended(s, l, now, snap))
  }

  function Released(s: State, l: Limits, now: real, later: real, snap: Snapshot): State {
    if now - s.started >= l.minHold then Completed(s, l, later, snap) else Cancelled(s)
  }

  function Fired(s: State, timer: nat): State {
    s.(timers := s.timers - {timer})
  }

  function Step(s: State, l: Limits, e: Event): State {
    match e
    case PointerDown(timer, now) => Began(s, l, timer, now)
    case PointerUp(now, later, snap) => Released(s, l, now, later, snap)
    case PointerCancel => Cancelled(s)
    case KeyDown(key, timer, now) => if HoldKey(key) then Began(s, l, timer, now) else s
    case KeyUp(key, now, later, snap) => if HoldKey(key) then Released(s, l, now, later, snap) else s
    case TimerFires(timer, now, snap) => Completed(Fired(s, timer), l, now, snap)
  }

  // ---- The dialog, as its handlers update it -----------------------------------------

  class Dialog {
    const limits: Limits
    var started: real
    var active: bool
    var events: nat
    var timer: nat
    var timers: map<nat, real>
    var outcome: Option<Outcome>

    constructor (minHoldMs: Option<real>, maxHoldMs: Option<real>)
      ensures View() == IDLE && limits == LimitsOf(minHoldMs, maxHoldMs)
    {
      limits := LimitsOf(minHoldMs, maxHoldMs);
      started, active, events, timer, timers, outcome := 0.0, false, 0, 0, map[], None;
    }

    ghost function View(): State
      reads this
    {
      State(started, active, events, timer, timers, outcome)
    }

    method Begin(id: nat, now: real)
      modifies this
      ensures View() == Began(old(View()), limits, id, now)
    {
      if active {
        return;
      }
      active := true;
      events := events + 1;
      started := now;
      timers := timers[id := now + limits.minHold];
      timer := id;
    }

    method Cancel()
      modifies this
      ensures View() == Cancelled(old(View()))
    {
      if !active {
        return;
      }
      events := events + 1;
      active := false;
      timers := timers - {timer};
    }

    method Settled(o: Outcome)
      modifies this
      ensures View() == Settle(old(View()), o)
    {
      if outcome.None? {
        outcome := Some(o);
      }
    }

    method Finish(now: real, snap: Snapshot)
      modifies this
      ensures View() == Completed(old(View()), limits, now, snap)
    {
      if !active {
        return;
      }
      var elapsed := Round(now - started);
      active := false;
      timers := timers - {timer};
      events := events + 1;
      if elapsed as real > limits.maxHold {
        Settled(TimedOut);
        return;
      }
      Settled(Resolved(HoldProof(elapsed, CountedEvents(events, snap), snap.pointerVariance)));
    }

    method Release(now: real, later: real, snap: Snapshot)
      modifies this
      ensures View() == Released(old(View()), limits, now, later, snap)
    {
      if now - started >= limits.minHold {
        Finish(later, snap);
      } else {
        Cancel();
      }
    }

    method Dispatch(e: Event)
      modifies this
      ensures View() == Step(old(View()), limits, e)
    {
      match e {
        case PointerDown(id, now) => Begin(id, now);
        case PointerUp(now, later, snap) => Release(now, later, snap);
        case PointerCancel => Cancel();
        case KeyDown(key, id, now) =>
          if HoldKey(key) {
            Begin(id, now);
          }
        case KeyUp(key, now, later, snap) =>
          if HoldKey(key) {
            Release(now, later, snap);
          }
        case TimerFires(id, now, snap) =>
          timers := timers - {id};
          Finish(now, snap);
      }
    }
  }

  // ---- Runs --------------------------------------------------------------------------

  /** Readings never decrease, new timers are new, and a timer fires only when it is pending and due. */
  predicate Enabled(s: State, clock: real, e: Event) {
    match e
    case PointerDown(timer, now) => clock <= now && timer !in s.timers
    case PointerUp(now, later, _) => clock <= now <= later
    case PointerCancel => true
    case KeyDown(_, timer, now) => clock <= now && timer !in s.timers
    case KeyUp(_, now, later, _) => clock <= now <= later
    case TimerFires(timer, now, _) => clock <= now && timer in s.timers && s.timers[timer] <= now
  }

  function ClockAfter(clock: real, e: Event): real {
    match e
    case PointerDown(_, now) => now
    case PointerUp(_, later, _) => later
    case PointerCancel => clock
    case KeyDown(_, _, now) => now
    case KeyUp(_, _, later, _) => later
    case TimerFires(_, now, _) => now
  }

  /** State and clock after a run that starts when the dialog opens at `shown`. */
  function Run(l: Limits, shown: real, run: seq<Event>): Option<(State, real)> {
    if run == [] then Some((IDLE, shown))
    else
      var before := Run(l, shown, run[..|run| - 1]);
      var e := run[|run| - 1];
      if before.Some? && Enabled(before.value.0, before.value.1, e)
      then Some((Step(before.value.0, l, e), ClockAfter(before.value.1, e)))
      else None
  }

  /** A proof within the limits: held long enough up to rounding, not too long, two events or more. */
  predicate WithinLimits(l: Limits, p: HoldProof) {
    0 <= p.holdMs && Round(l.minHold) <= p.holdMs && p.holdMs as real <= l.maxHold && p.eventCount >= 2
  }

  /** The only pending timer is that of the hold in progress, due when its minimum is reached. */
  predicate OneTimer(l: Limits, s: State) {
    s.timers == if s.active then map[s.timer := s.started + l.minHold] else map[]
  }

  predicate Inv(l: Limits, s: State, clock: real) {
    && OneTimer(l, s)
    && (s.active ==> s.started <= clock)
    && (s.outcome.Some? && s.outcome.value.Resolved? ==> WithinLimits(l, s.outcome.value.proof))
  }

  lemma RoundIsMonotone(x: real, y: real)
    requires x <= y
    ensures Round(x) <= Round(y)
  {
  }

  lemma StepKeeps(l: Limits, s: State, clock: real, e: Event)
    requires Inv(l, s, clock) && Enabled(s, clock, e)
    ensures Inv(l, Step(s, l, e), ClockAfter(clock, e))
  {
    match e
    case PointerUp(now, later, _) =>
      if now - s.started >= l.minHold {
        RoundIsMonotone(l.minHold, later - s.started);
      }
    case KeyUp(_, now, later, _) =>
      if now - s.started >= l.minHold {
        RoundIsMonotone(l.minHold, later - s.started);
      }
    case TimerFires(timer, now, _) => RoundIsMonotone(l.minHold, now - s.started);
    case _ =>
  }

  /**
   In every run at most one timer is pending, that of the hold in progress; and a resolved
   proof is within the limits.
   */
  lemma {:induction false} EveryRunKeeps(l: Limits, shown: real, run: seq<Event>)
    requires Run(l, shown, run).Some?
    ensures Inv(l, Run(l, shown, run).value.0, Run(l, shown, run).value.1)
  {
    if run != [] {
      var before := run[..|run| - 1];
      EveryRunKeeps(l, shown, before);
      StepKeeps(l, Run(l, shown, before).value.0, Run(l, shown, before).value.1, run[|run| - 1]);
    }
  }

  /** The time at which an event ends a hold, if it can end one. */
  function EndsAt(s: State, l: Limits, e: Event): Option<real> {
    match e
    case PointerUp(now, later, _) => if now - s.started >= l.minHold then Some(later) else None
    case KeyUp(key, now, later, _) => if HoldKey(key) && now - s.started >= l.minHold then Some(later) else None
    case TimerFires(_, now, _) => Some(now)
    case _ => None
  }

  /**
   A run is settled by the first event that ends a hold in progress, and by nothing else:
   it times out exactly when the hold, rounded, was longer than the maximum. After that
   the outcome never changes.
   */
  lemma SettledExactlyWhen(l: Limits, s: State, clock: real, e: Event)
    requires Inv(l, s, clock) && Enabled(s, clock, e)
    ensures var s' := Step(s, l, e);
            && (s.outcome.Some? ==> s'.outcome == s.outcome)
            && (s.outcome.None? ==> (s'.outcome.Some? <==> s.active && EndsAt(s, l, e).Some?))
            && (s.outcome.None? && s'.outcome.Some? ==>
                  var held := Round(EndsAt(s, l, e).value - s.started);
                  && (s'.outcome == Some(TimedOut) <==> held as real > l.maxHold)
                  && (s'.outcome.value.Resolved? ==> s'.outcome.value.proof.holdMs == held))
  {
  }

  /** Of all keys, the space bar and Enter begin and end a hold; any other key changes nothing. */
  lemma OnlySpaceAndEnterHold(s: State, l: Limits, key: string, timer: nat, now: real, later: real, snap: Snapshot)
    ensures var down := Step(s, l, KeyDown(key, timer, now));
            if key == " " || key == "Enter" then down.active && (!s.active ==> down.started == now) else down == s
    ensures var up := Step(s, l, KeyUp(key, now, later, snap));
            if key == " " || key == "Enter" then !up.active else up == s
  {
  }

  /** How many holds began in a run. */
  function Holds(l: Limits, shown: real, run: seq<Event>): nat {
    if run == [] then 0
    else
      var before := run[..|run| - 1];
      Holds(l, shown, before) +
      if Run(l, shown, before).Some? && Run(l, shown, run).Some? &&
         !Run(l, shown, before).value.0.active && Run(l, shown, run).value.0.active then 1 else 0
  }

  /** Every hold that has ended counts for two events, and one in progress for one. */
  lemma {:induction false} EventsAreTheHolds(l: Limits, shown: real, run: seq<Event>)
    requires Run(l, shown, run).Some?
    ensures var s := Run(l, shown, run).value.0; s.events == 2 * Holds(l, shown, run) - if s.active then 1 else 0
  {
    if run != [] {
      EventsAreTheHolds(l, shown, run[..|run| - 1]);
    }
  }

  function SnapshotOf(e: Event): Snapshot {
    match e
    case PointerUp(_, _, snap) => snap
    case KeyUp(_, _, _, snap) => snap
    case TimerFires(_, _, snap) => snap
    case _ => Snapshot(0, 0, 0.0)
  }

  lemma SettlingCounts(l: Limits, s: State, e: Event)
    requires s.outcome.None? && Step(s, l, e).outcome.Some? && Step(s, l, e).outcome.value.Resolved?
    ensures s.active && !Step(s, l, e).active
    ensures var p, snap := Step(s, l, e).outcome.value.proof, SnapshotOf(e);
            p.pointerVariance == snap.pointerVariance && p.eventCount == CountedEvents(s.events + 1, snap)
  {
  }

  lemma LastStep(l: Limits, shown: real, run: seq<Event>)
    requires run != [] && Run(l, shown, run).Some?
    ensures var before := run[..|run| - 1];
            && Run(l, shown, before).Some?
            && Run(l, shown, run).value.0 == Step(Run(l, shown, before).value.0, l, run[|run| - 1])
            && (!Run(l, shown, run).value.0.active ==> Holds(l, shown, run) == Holds(l, shown, before))
  {
    hide Step, Enabled;
  }

  lemma CountedAtLeastTwo(n: nat, snap: Snapshot)
    requires n >= 2
    ensures CountedEvents(n, snap) == n + snap.keyEvents + if snap.pointerEvents <= 8 then snap.pointerEvents else 8
  {
  }

  /**
   The proof that resolves a run reports two events for each hold of it, the key events, and at most
   eight pointer events of the monitor, and at least two; and the monitor's variance.
   */
  lemma ResolvedProofCounts(l: Limits, shown: real, run: seq<Event>)
    requires run != [] && Run(l, shown, run).Some? && Run(l, shown, run[..|run| - 1]).value.0.outcome.None?
    requires var o := Run(l, shown, run).value.0.outcome; o.Some? && o.value.Resolved?
    ensures var p, snap := Run(l, shown, run).value.0.outcome.value.proof, SnapshotOf(run[|run| - 1]);
            var n := 2 * Holds(l, shown, run) + snap.keyEvents;
            && p.pointerVariance == snap.pointerVariance
            && (snap.pointerEvents <= 8 ==> p.eventCount == n + snap.pointerEvents)
            && (snap.pointerEvents >= 8 ==> p.eventCount == n + 8)
            && p.eventCount >= 2
  {
    hide Run, Step, Enabled, Holds, CountedEvents;
    LastStep(l, shown, run);
    var before := run[..|run| - 1];
    var s, e := Run(l, shown, before).value.0, run[|run| - 1];
    EventsAreTheHolds(l, shown, before);
    SettlingCounts(l, s, e);
    CountedAtLeastTwo(2 * Holds(l, shown, before), SnapshotOf(e));
  }

  /** A run of the dialog that resolves below the minimum asked for. */
  ghost predicate Undercuts(l: Limits, shown: real, run: seq<Event>) {
    && Run(l, shown, run).Some?
    && var o := Run(l, shown, run).value.0.outcome;
    o.Some? && o.value.Resolved? && o.value.proof.holdMs as real < l.minHold
  }

  /** Holding exactly as long as asked for. */
  function ShortestHold(l: Limits): seq<Event> {
    [PointerDown(0, 0.0)] + [TimerFires(0, l.minHold, Snapshot(0, 0, 0.0))]
  }

  lemma ShortestHoldRuns(l: Limits)
    requires l.minHold > 0.0 && Round(l.minHold) as real <= l.maxHold
    ensures Run(l, 0.0, ShortestHold(l)).Some?
    ensures Run(l, 0.0, ShortestHold(l)).value.0.outcome == Some(Resolved(HoldProof(Round(l.minHold), 2, 0.0)))
  {
    var run := ShortestHold(l);
    assert run[..1] == [PointerDown(0, 0.0)] && run[..1][..0] == [];
    assert Run(l, 0.0, run[..1]) == Some((Began(IDLE, l, 0, 0.0), 0.0));
  }

  /**
   Some run of the dialog resolves below the minimum if and only if the minimum is positive
   and rounds down, to no more than the maximum.
   */
  lemma MinimumUndercutExactlyWhen(l: Limits)
    ensures (exists shown, run :: Undercuts(l, shown, run)) <==>
              l.minHold > 0.0 && Round(l.minHold) as real < l.minHold && Round(l.minHold) as real <= l.maxHold
  {
    forall shown, run | Undercuts(l, shown, run)
      ensures l.minHold > 0.0 && Round(l.minHold) as real < l.minHold && Round(l.minHold) as real <= l.maxHold
    {
      EveryRunKeeps(l, shown, run);
    }
    if l.minHold > 0.0 && Round(l.minHold) as real < l.minHold && Round(l.minHold) as real <= l.maxHold {
      ShortestHoldRuns(l);
      assert Undercuts(l, 0.0, ShortestHold(l));
    }
  }

  // ---- What the server makes of it ---------------------------------------------------

  /** The proof as the server decodes it, with the nonce found for it. */
  function Submitted(p: HoldProof, nonce: nat): Challenges.Proof {
    Challenges.Proof(InteractiveKind, nonce, p.holdMs, p.eventCount, p.pointerVariance)
  }

  /** The limits the browser reads out of a challenge. */
  function LimitsFrom(c: Challenge): Limits {
    var (minHold, maxHold, _) := Challenges.HoldTerms(c.params);
    LimitsOf(Some(minHold as real), Some(maxHold as real))
  }

  /**
   Whatever was pressed, released or cancelled: the server's range and event-count checks
   accept every proof resolved for an interactive challenge it issued. What is left to
   refuse is a proof sent too soon after the challenge or an irregular pointer summary.
   */
  lemma ResolvedProofsSatisfyTheServer(c: Challenge, seed: string, shown: real, run: seq<Event>, nonce: nat,
                                       later: Instant)
    requires Challenges.Issued(c, seed) && c.kind == InteractiveKind
    requires Run(LimitsFrom(c), shown, run).Some?
    requires var o := Run(LimitsFrom(c), shown, run).value.0.outcome; o.Some? && o.value.Resolved?
    ensures var p := Run(LimitsFrom(c), shown, run).value.0.outcome.value.proof;
            && 850 <= p.holdMs <= 7000 && p.eventCount >= 2
            && Challenges.HoldRefusal(c, Submitted(p, nonce), later) ==
                 if later - c.createdAt < 750 * MILLISECOND then Some(Challenges.TooQuick)
                 else if p.pointerVariance < 0.0 || p.pointerVariance > 10.0 then Some(Challenges.BadSummary)
                 else None
  {
    EveryRunKeeps(LimitsFrom(c), shown, run);
    assert Round(850.0) == 850;
  }
}
