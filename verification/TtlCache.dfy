/** The bounded cache in front of the reputation providers (cache.py). */
module TtlCache {
  import opened FiniteSets
  import opened Wrappers

  datatype Item<V> = Item(expiresAt: real, value: V)

  /** A Python dict: its entries, and its keys in order of first insertion. */
  datatype Dict<V> = Dict(data: map<string, Item<V>>, order: seq<string>)

  function KeepIn(order: seq<string>, keys: set<string>): seq<string> {
    if order == [] then []
    else (if order[0] in keys then [order[0]] else []) + KeepIn(order[1..], keys)
  }

  function Restrict<V>(d: Dict<V>, keys: set<string>): Dict<V> {
    Dict(map k | k in d.data && k in keys :: d.data[k], KeepIn(d.order, keys))
  }

  /** `pop(key, None)` */
  function Pop<V>(d: Dict<V>, key: string): Dict<V> {
    Restrict(d, d.data.Keys - {key})
  }

  /** Assigning to a key keeps its place, or appends it. */
  function Assign<V>(d: Dict<V>, key: string, item: Item<V>): Dict<V> {
    Dict(d.data[key := item], if key in d.data then d.order else d.order + [key])
  }

  function LiveKeys<V>(d: Dict<V>, now: real): set<string> {
    set k | k in d.data && d.data[k].expiresAt > now
  }

  ghost predicate NoRepeats(order: seq<string>) {
    forall i, j | 0 <= i < j < |order| :: order[i] != order[j]
  }

  /** Keys and order belong together. */
  ghost predicate Consistent<V>(d: Dict<V>) {
    NoRepeats(d.order) && forall k :: k in d.data <==> k in d.order
  }

  // ---- Filtering keys ------------------------------------------------------------------

  lemma {:induction false} KeepInMembers(order: seq<string>, keys: set<string>)
    ensures forall k :: k in KeepIn(order, keys) <==> k in order && k in keys
    ensures NoRepeats(order) ==> NoRepeats(KeepIn(order, keys))
  {
    if order != [] {
      KeepInMembers(order[1..], keys);
      var rest := KeepIn(order[1..], keys);
      assert order == [order[0]] + order[1..];
      if NoRepeats(order) {
        assert order[0] !in order[1..];
        assert forall i, j | 0 <= i < j < |order[1..]| ::
            order[1..][i] == order[i + 1] && order[1..][j] == order[j + 1];
      }
    }
  }

  lemma {:induction false} KeepInTwice(order: seq<string>, a: set<string>, b: set<string>)
    ensures KeepIn(KeepIn(order, a), b) == KeepIn(order, a * b)
  {
    if order != [] {
      KeepInTwice(order[1..], a, b);
      var kept := KeepIn(order, a);
      if order[0] in a {
        assert kept[0] == order[0] && kept[1..] == KeepIn(order[1..], a);
      } else {
        assert kept == KeepIn(order[1..], a);
      }
    }
  }

  lemma {:induction false} KeepInAll(order: seq<string>, keys: set<string>)
    requires forall k | k in order :: k in keys
    ensures KeepIn(order, keys) == order
  {
    if order != [] {
      KeepInAll(order[1..], keys);
    }
  }

  lemma RestrictConsistent<V>(d: Dict<V>, keys: set<string>)
    requires Consistent(d)
    ensures Consistent(Restrict(d, keys))
  {
    KeepInMembers(d.order, keys);
  }

  lemma {:induction false} OrderLength(order: seq<string>, keys: set<string>)
    requires NoRepeats(order) && forall k :: k in keys <==> k in order
    ensures |order| == |keys|
  {
    if order == [] {
      assert keys == {};
    } else {
      var rest := order[1..];
      assert forall k :: k in rest <==> k in keys - {order[0]} by {
        assert order == [order[0]] + rest;
        assert order[0] !in rest;
      }
      assert forall i, j | 0 <= i < j < |rest| :: rest[i] == order[i + 1] && rest[j] == order[j + 1];
      OrderLength(rest, keys - {order[0]});
    }
  }

  // ---- Putting ---------------------------------------------------------------------------

  /** Makes room when the cache is full: first the expired entries go, then the oldest one. */
  function MakeRoom<V>(d: Dict<V>, maxItems: int, now: real): Dict<V> {
    if |d.data| < maxItems then d
    else
      var live := Restrict(d, LiveKeys(d, now));
      if |live.data| < maxItems || live.order == [] then live else Pop(live, live.order[0])
  }

  /** Whether there is room for one more after that; otherwise the source fails on an empty dict. */
  predicate Fits<V>(d: Dict<V>, maxItems: int, now: real) {
    |d.data| < maxItems || |Restrict(d, LiveKeys(d, now)).data| < maxItems || Restrict(d, LiveKeys(d, now)).order != []
  }

  lemma RoomIsMade<V>(d: Dict<V>, maxItems: int, now: real)
    requires Consistent(d) && |d.data| <= (if maxItems > 0 then maxItems else 0)
    ensures Consistent(MakeRoom(d, maxItems, now))
    ensures Fits(d, maxItems, now) <==> maxItems > 0
    ensures maxItems > 0 ==> |MakeRoom(d, maxItems, now).data| < maxItems
    ensures maxItems <= 0 ==> MakeRoom(d, maxItems, now).data == map[]
  {
    if |d.data| >= maxItems {
      var live := Restrict(d, LiveKeys(d, now));
      RestrictConsistent(d, LiveKeys(d, now));
      assert live.data.Keys <= d.data.Keys;
      SubsetSize(live.data.Keys, d.data.Keys);
      OrderLength(live.order, live.data.Keys);
      assert |live.data| == |live.data.Keys| && |d.data| == |d.data.Keys|;
      if live.order != [] {
        var first := live.order[0];
        assert first in live.data;
        RestrictConsistent(live, live.data.Keys - {first});
        assert Pop(live, first).data.Keys == live.data.Keys - {first};
        assert |Pop(live, first).data| == |live.data| - 1;
      }
      if maxItems <= 0 {
        assert d.data.Keys == {};
      }
    }
  }

  lemma {:induction false} EqualSize(a: set<string>, b: set<string>)
    requires a <= b && |a| >= |b|
    ensures a == b
  {
    if a != b {
      var x :| x in b && x !in a;
      SubsetSize(a, b - {x});
      assert false;
    }
  }

  /** When dropping the expired entries does not shrink a full cache, there are none. */
  lemma NothingExpired<V>(d: Dict<V>, now: real)
    requires Consistent(d) && |Restrict(d, LiveKeys(d, now)).data| >= |d.data|
    ensures LiveKeys(d, now) == d.data.Keys && Restrict(d, LiveKeys(d, now)) == d
  {
    var keys := LiveKeys(d, now);
    assert Restrict(d, keys).data.Keys == keys;
    assert |Restrict(d, keys).data| == |Restrict(d, keys).data.Keys| && |d.data| == |d.data.Keys|;
    EqualSize(keys, d.data.Keys);
    KeepInAll(d.order, keys);
    assert Restrict(d, keys).data == d.data;
  }

  /** A live entry is lost to a put only as the oldest of a full cache in which nothing has expired. */
  lemma EvictedOnlyWhenFull<V>(d: Dict<V>, maxItems: int, now: real, key: string)
    requires Consistent(d) && key in d.data && now < d.data[key].expiresAt
    requires |d.data| <= (if maxItems > 0 then maxItems else 0)
    requires key !in MakeRoom(d, maxItems, now).data
    ensures |d.data| == maxItems && d.order[0] == key && forall k | k in d.data :: now < d.data[k].expiresAt
  {
    var live := Restrict(d, LiveKeys(d, now));
    assert key in live.data && |d.data| >= maxItems && |live.data| >= maxItems;
    NothingExpired(d, now);
    hide Consistent, KeepIn;
    assert MakeRoom(d, maxItems, now) == Pop(d, d.order[0]);
    forall k | k in d.data
      ensures now < d.data[k].expiresAt
    {
      assert k in LiveKeys(d, now);
    }
  }

  lemma RoomHoldsOldEntries<V>(d: Dict<V>, maxItems: int, now: real)
    ensures forall k | k in MakeRoom(d, maxItems, now).data ::
              k in d.data && MakeRoom(d, maxItems, now).data[k] == d.data[k]
  {
  }

  function Members(keys: seq<string>): set<string> {
    set k | k in keys
  }

  lemma RestrictNothing<V>(d: Dict<V>)
    requires Consistent(d)
    ensures Restrict(d, d.data.Keys) == d
  {
    KeepInAll(d.order, d.data.Keys);
  }

  /** Popping one more key. */
  lemma RestrictMore<V>(d: Dict<V>, keys: set<string>, key: string)
    requires Consistent(d) && keys <= d.data.Keys
    ensures Pop(Restrict(d, keys), key) == Restrict(d, keys - {key})
  {
    var r := Restrict(d, keys);
    assert r.data.Keys == keys;
    assert keys * (keys - {key}) == keys - {key};
    KeepInTwice(d.order, keys, keys - {key});
    assert Pop(r, key).data == Restrict(d, keys - {key}).data;
  }

  lemma AssignKeeps<V>(d: Dict<V>, key: string, item: Item<V>)
    requires Consistent(d)
    ensures Consistent(Assign(d, key, item))
    ensures |Assign(d, key, item).data| <= |d.data| + 1
  {
    assert Assign(d, key, item).data.Keys == d.data.Keys + {key};
    assert |d.data.Keys + {key}| <= |d.data.Keys| + 1;
    assert |Assign(d, key, item).data| == |Assign(d, key, item).data.Keys| && |d.data| == |d.data.Keys|;
  }

  class Cache<V(==)> {
    const ttl: real
    const maxItems: int
    var data: map<string, Item<V>>
    var order: seq<string>
    /** The cache that never forgets: the last entry put for each key. */
    ghost var latest: map<string, Item<V>>

    constructor (ttl: real, maxItems: int)
      ensures this.ttl == ttl && this.maxItems == maxItems
      ensures Valid() && View() == Dict(map[], []) && latest == map[]
    {
      this.ttl, this.maxItems := ttl, maxItems;
      data, order, latest := map[], [], map[];
    }

    ghost function View(): Dict<V>
      reads this
    {
      Dict(data, order)
    }

    /** Within capacity, keys and order together, and nothing but latest entries. */
    ghost predicate Valid()
      reads this
    {
      && Consistent(View())
      && |data| <= (if maxItems > 0 then maxItems else 0)
      && forall k | k in data :: k in latest && data[k] == latest[k]
    }

    method Delete(key: string)
      modifies this`data, this`order
      ensures View() == Pop(old(View()), key)
    {
      var keys := data.Keys - {key};
      data := map k | k in data && k in keys :: data[k];
      var kept: seq<string> := [];
      var i := |order|;
      while i > 0
        invariant 0 <= i <= |order| && order == old(order)
        invariant kept == KeepIn(order[i..], keys)
        invariant data == Pop(old(View()), key).data
      {
        i := i - 1;
        assert order[i..][1..] == order[i + 1..];
        if order[i] in keys {
          kept := [order[i]] + kept;
        }
      }
      assert order[0..] == order;
      order := kept;
    }

    method Get(key: string, now: real) returns (value: Option<V>)
      requires Valid()
      modifies this`data, this`order
      ensures Valid()
      ensures value.Some? ==> key in latest && value.value == latest[key].value && now < latest[key].expiresAt
      ensures value.None? <==> key !in old(data) || old(data)[key].expiresAt <= now
      ensures View() ==
              if key in old(data) && old(data)[key].expiresAt <= now then Pop(old(View()), key) else old(View())
    {
      if key !in data {
        return None;
      }
      var item := data[key];
      if item.expiresAt <= now {
        RestrictConsistent(View(), data.Keys - {key});
        SubsetSize(data.Keys - {key}, data.Keys);
        assert |data| == |data.Keys|;
        Delete(key);
        assert data.Keys == old(data.Keys) - {key} && |data| == |data.Keys|;
        return None;
      }
      value := Some(item.value);
    }

    method Keep(key: string, item: Item<V>)
      modifies this`data, this`order
      ensures View() == Assign(old(View()), key, item)
      ensures data == old(data)[key := item]
    {
      order := if key in data then order else order + [key];
      data := data[key := item];
    }

    method PopAll(keys: seq<string>)
      requires Consistent(View())
      modifies this`data, this`order
      ensures View() == Restrict(old(View()), old(View()).data.Keys - Members(keys))
    {
      hide Consistent, KeepIn;
      ghost var was := View();
      RestrictNothing(was);
      assert was.data.Keys - Members([]) == was.data.Keys;
      for i := 0 to |keys|
        invariant View() == Restrict(was, was.data.Keys - Members(keys[..i]))
      {
        assert keys[..i + 1] == keys[..i] + [keys[i]];
        RestrictMore(was, was.data.Keys - Members(keys[..i]), keys[i]);
        assert was.data.Keys - Members(keys[..i + 1]) == was.data.Keys - Members(keys[..i]) - {keys[i]};
        Delete(keys[i]);
      }
      assert keys[..|keys|] == keys;
    }

    /** Collects the expired keys, then pops them one by one. */
    method PurgeExpired(now: real)
      requires Consistent(View())
      modifies this`data, this`order
      ensures View() == Restrict(old(View()), LiveKeys(old(View()), now))
    {
      var expired: seq<string> := [];
      for i := 0 to |order|
        invariant data == old(data) && order == old(order)
        invariant forall k :: k in expired <==> k in order[..i] && data[k].expiresAt <= now
      {
        if data[order[i]].expiresAt <= now {
          expired := expired + [order[i]];
        }
      }
      assert order[..|order|] == order;
      assert data.Keys - Members(expired) == LiveKeys(View(), now);
      PopAll(expired);
    }

    /** The part of a put that runs when the cache is full. */
    method EnsureRoom(now: real) returns (failed: bool)
      requires Consistent(View())
      modifies this`data, this`order
      ensures View() == MakeRoom(old(View()), maxItems, now)
      ensures failed <==> !Fits(old(View()), maxItems, now)
    {
      failed := false;
      if |data| >= maxItems {
        PurgeExpired(now);
        if |data| >= maxItems {
          if order == [] {
            return true;
          }
          Delete(order[0]);
        }
      }
    }

    /** Fails, and keeps nothing, exactly when the capacity is not positive. */
    method Put(key: string, value: V, now: real) returns (failed: bool)
      requires Valid()
      modifies this
      ensures Valid()
      ensures failed <==> maxItems <= 0
      ensures !failed ==> View() == Assign(MakeRoom(old(View()), maxItems, now), key, Item(now + ttl, value))
      ensures !failed ==> latest == old(latest)[key := Item(now + ttl, value)]
      ensures failed ==> latest == old(latest) && data == map[]
    {
      RoomIsMade(View(), maxItems, now);
      RoomHoldsOldEntries(View(), maxItems, now);
      hide Consistent, MakeRoom, Fits, Assign;
      failed := EnsureRoom(now);
      if failed {
        return;
      }
      AssignKeeps(View(), key, Item(now + ttl, value));
      Keep(key, Item(now + ttl, value));
      latest := latest[key := Item(now + ttl, value)];
    }
  }
}
