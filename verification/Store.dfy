/** The record that `challenge.New` builds and the store keeps (model/types.go). */
module ChallengeModel {
  import opened Clock

  datatype Kind = PowKind | InteractiveKind | OtherKind(name: string)

  datatype Params =
    | PowParams(seed: string, difficultyBits: int, maxNonce: nat)
    | HoldParams(minHoldMs: int, maxHoldMs: int, minEvents: int,
                 powSeed: string, powBits: int, powMaxNonce: nat)

  datatype Challenge = Challenge(
    id: string,
    siteKey: string,
    action: string,
    hostname: string,
    sessionId: string,
    ipBind: string,
    riskScore: int,
    riskTags: seq<string>,
    kind: Kind,
    params: Params,
    createdAt: Instant,
    expiresAt: Instant,
    attempts: int)
}

/**
 The in-memory store of the gateway. The functions on `State` say what each locked
 operation does; the class `Memory` carries them out in place.
 */
module Store {
  import opened Wrappers
  import opened Clock
  import opened ChallengeModel

  datatype Window = Window(start: Instant, count: int)

  datatype State = State(
    challenges: map<string, Challenge>,
    spent: map<string, Instant>,
    rates: map<string, Window>)

  const EMPTY := State(map[], map[], map[])

  const RATE_RETENTION: int := 2 * MINUTE

  /** What a sweep at `now` leaves behind. */
  function Sweep(s: State, now: Instant): State {
    State(
      map id | id in s.challenges && now <= s.challenges[id].expiresAt :: s.challenges[id],
      map jti | jti in s.spent && now <= s.spent[jti] :: s.spent[jti],
      map k | k in s.rates && now - s.rates[k].start <= RATE_RETENTION :: s.rates[k])
  }

  function Put(s: State, c: Challenge, now: Instant): State {
    var t := Sweep(s, now);
    t.(challenges := t.challenges[c.id := c])
  }

  function Lookup(s: State, id: string): Option<Challenge> {
    if id in s.challenges then Some(s.challenges[id]) else None
  }

  function Fail(s: State, id: string, maxAttempts: int): State {
    if id !in s.challenges then s
    else
      var c := s.challenges[id].(attempts := s.challenges[id].attempts + 1);
      if c.attempts >= maxAttempts then s.(challenges := s.challenges - {id})
      else s.(challenges := s.challenges[id := c])
  }

  function Consume(s: State, id: string): State {
    s.(challenges := s.challenges - {id})
  }

  function Spend(s: State, jti: string, expiresAt: Instant, now: Instant): State {
    var t := Sweep(s, now);
    if jti in t.spent then t else t.(spent := t.spent[jti := expiresAt])
  }

  /** The window a rate call is counted in, the call included. */
  function Counted(w: Option<Window>, window: int, now: Instant): Window {
    var r := if w.Some? then w.value else Window(ZERO_INSTANT, 0);
    var r' := if r.start == ZERO_INSTANT || now - r.start >= window then Window(now, 0) else r;
    r'.(count := r'.count + 1)
  }

  function RateOf(rates: map<string, Window>, key: string): Option<Window> {
    if key in rates then Some(rates[key]) else None
  }

  function Rate(s: State, key: string, window: int, now: Instant): State {
    s.(rates := s.rates[key := Counted(RateOf(s.rates, key), window, now)])
  }

  /** Runs under the lock; `now` is the clock reading each operation takes. */
  class Memory {
    var challenges: map<string, Challenge>
    var spent: map<string, Instant>
    var rates: map<string, Window>

    constructor ()
      ensures View() == EMPTY
    {
      challenges, spent, rates := map[], map[], map[];
    }

    ghost function View(): State
      reads this
    {
      State(challenges, spent, rates)
    }

    method GcSpent(now: Instant)
      modifies this`spent
      ensures spent == Sweep(old(View()), now).spent
    {
      var jtis := spent.Keys;
      while jtis != {}
        invariant jtis <= spent.Keys <= old(spent.Keys)
        invariant forall jti | jti in spent :: spent[jti] == old(spent)[jti]
        invariant forall jti | jti in old(spent) && jti !in jtis ::
                    jti in spent <==> now <= old(spent)[jti]
        decreases jtis
      {
        var jti :| jti in jtis;
        jtis := jtis - {jti};
        if now > spent[jti] {
          spent := spent - {jti};
        }
      }
    }

    method GcRates(now: Instant)
      modifies this`rates
      ensures rates == Sweep(old(View()), now).rates
    {
      var keys := rates.Keys;
      while keys != {}
        invariant keys <= rates.Keys <= old(rates.Keys)
        invariant forall k | k in rates :: rates[k] == old(rates)[k]
        invariant forall k | k in old(rates) && k !in keys ::
                    k in rates <==> now - old(rates)[k].start <= RATE_RETENTION
        decreases keys
      {
        var k :| k in keys;
        keys := keys - {k};
        if now - rates[k].start > RATE_RETENTION {
          rates := rates - {k};
        }
      }
    }

    /** Deletes while it iterates; whatever order the map yields, the result is the sweep. */
    method GcLocked(now: Instant)
      modifies this
      ensures View() == Sweep(old(View()), now)
    {
      var ids := challenges.Keys;
      while ids != {}
        invariant ids <= challenges.Keys <= old(challenges.Keys)
        invariant forall id | id in challenges :: challenges[id] == old(challenges)[id]
        invariant forall id | id in old(challenges) && id !in ids ::
                    id in challenges <==> now <= old(challenges)[id].expiresAt
        invariant spent == old(spent) && rates == old(rates)
        decreases ids
      {
        var id :| id in ids;
        ids := ids - {id};
        if now > challenges[id].expiresAt {
          challenges := challenges - {id};
        }
      }
      GcSpent(now);
      GcRates(now);
    }

    method PutChallenge(c: Challenge, now: Instant)
      modifies this
      ensures View() == Put(old(View()), c, now)
    {
      GcLocked(now);
      challenges := challenges[c.id := c];
    }

    method GetChallenge(id: string, now: Instant) returns (c: Option<Challenge>)
      modifies this
      ensures View() == Sweep(old(View()), now)
      ensures c == Lookup(Sweep(old(View()), now), id)
    {
      GcLocked(now);
      c := if id in challenges then Some(challenges[id]) else None;
    }

    method FailChallenge(id: string, maxAttempts: int)
      modifies this
      ensures View() == Fail(old(View()), id, maxAttempts)
    {
      if id !in challenges {
        return;
      }
      var c := challenges[id];
      c := c.(attempts := c.attempts + 1);
      if c.attempts >= maxAttempts {
        challenges := challenges - {id};
        return;
      }
      challenges := challenges[id := c];
    }

    method ConsumeChallenge(id: string) returns (won: bool)
      modifies this
      ensures won == (id in old(challenges))
      ensures View() == Consume(old(View()), id)
    {
      if id !in challenges {
        assert challenges - {id} == challenges;
        return false;
      }
      challenges := challenges - {id};
      won := true;
    }

    method ConsumeJTI(jti: string, expiresAt: Instant, now: Instant) returns (first: bool)
      modifies this
      ensures first == (jti !in Sweep(old(View()), now).spent)
      ensures View() == Spend(old(View()), jti, expiresAt, now)
    {
      GcLocked(now);
      if jti in spent {
        return false;
      }
      spent := spent[jti := expiresAt];
      first := true;
    }

    method AllowRate(key: string, limit: int, window: int, now: Instant) returns (allowed: bool, count: int)
      modifies this
      ensures View() == Rate(old(View()), key, window, now)
      ensures count == View().rates[key].count
      ensures allowed == (count <= limit)
    {
      var r := if key in rates then rates[key] else Window(ZERO_INSTANT, 0);
      if r.start == ZERO_INSTANT || now - r.start >= window {
        r := Window(now, 0);
      }
      r := r.(count := r.count + 1);
      rates := rates[key := r];
      allowed, count := r.count <= limit, r.count;
    }
  }
}
