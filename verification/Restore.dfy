/**
The schedule rebuilt from a loaded table: live keys wait for their expiry, and keys that
were already dead wait out the rest of their retention.
*/
module Restore {
  import opened Lifecycle
  import opened KeyLives

  // ---- the keys to schedule, in table order ----

  function LiveKeys(slots: Slots): seq<KeyId> {
    if slots == [] then []
    else
      var n := |slots| - 1;
      LiveKeys(slots[..n]) + if slots[n].state == Active then [KeyOf(slots, n)] else []
  }

  function DeadKeys(slots: Slots): seq<KeyId> {
    if slots == [] then []
    else
      var n := |slots| - 1;
      DeadKeys(slots[..n]) + if slots[n].state == Expired || slots[n].state == Revoked then [KeyOf(slots, n)] else []
  }

  ghost predicate ListsOnce(keys: seq<KeyId>, n: nat) {
    (forall i | 0 <= i < |keys| :: keys[i].slot < n) && (forall i, j | 0 <= i < j < |keys| :: keys[i].slot < keys[j].slot)
  }

  lemma {:induction false} LiveListed(slots: Slots)
    ensures ListsOnce(LiveKeys(slots), |slots|)
    ensures forall k :: k in LiveKeys(slots) <==> IsActive(slots, k)
  {
    if slots != [] {
      var n := |slots| - 1;
      LiveListed(slots[..n]);
      forall k
        ensures k in LiveKeys(slots) <==> IsActive(slots, k)
      {
        assert k in LiveKeys(slots[..n]) <==> IsActive(slots[..n], k);
      }
    }
  }

  lemma {:induction false} DeadListed(slots: Slots)
    ensures ListsOnce(DeadKeys(slots), |slots|)
    ensures forall k :: k in DeadKeys(slots) <==> InUse(slots, k) && !IsActive(slots, k)
  {
    if slots != [] {
      var n := |slots| - 1;
      DeadListed(slots[..n]);
      forall k
        ensures k in DeadKeys(slots) <==> InUse(slots, k) && !IsActive(slots, k)
      {
        assert k in DeadKeys(slots[..n]) <==> InUse(slots[..n], k) && !IsActive(slots[..n], k);
      }
    }
  }

  // ---- scheduling them ----

  function ExpiryOf(t: Table, k: KeyId): nat {
    if k.slot < |t.slots| then t.slots[k.slot].expiresAt else 0
  }

  /** When a dead key's retention ends; a row with no recorded time starts it now. */
  function ReapTime(t: Table, k: KeyId, now: nat): nat {
    (if k in t.cold && t.cold[k].tombstonedAt != 0 then t.cold[k].tombstonedAt else now) + RETENTION
  }

  ghost function WatchAll(l: Life, t: Table, keys: seq<KeyId>): Life {
    if keys == [] then l
    else
      var n := |keys| - 1;
      Watch(WatchAll(l, t, keys[..n]), keys[n], ExpiryOf(t, keys[n]))
  }

  ghost function ReapAll(l: Life, t: Table, now: nat, keys: seq<KeyId>): Life {
    if keys == [] then l
    else
      var n := |keys| - 1;
      PlaceReap(ReapAll(l, t, now, keys[..n]), keys[n], ReapTime(t, keys[n], now))
  }

  lemma {:induction false} WatchAllNow(l: Life, t: Table, keys: seq<KeyId>)
    ensures WatchAll(l, t, keys).now == l.now
  {
    if keys != [] {
      WatchAllNow(l, t, keys[..|keys| - 1]);
    }
  }

  /** `Leases::restored`. */
  ghost function Restored(t: Table, now: nat, reach: nat): Life {
    var l := Life(0, now, reach, t, map[], map[]);
    ReapAll(WatchAll(l, t, LiveKeys(t.slots)), t, now, DeadKeys(t.slots)).(wall := now)
  }

  // ---- what that leaves ----

  /** A table as a start builds it: metadata for every row in use, and no lease cancelled. */
  ghost predicate LoadedKey(t: Table, now: nat, k: KeyId) {
    (k in t.cold <==> InUse(t.slots, k)) && k !in t.cancel
    && (IsActive(t.slots, k) ==> now < t.slots[k.slot].expiresAt <= now + MAX_TTL)
  }

  ghost predicate Loaded(t: Table, now: nat) {
    forall k :: LoadedKey(t, now, k)
  }

  /** `k` once its stages, if `done`, are scheduled. */
  ghost predicate Scheduled(l: Life, t: Table, now: nat, k: KeyId, done: bool)
    requires |l.table.slots| == |t.slots|
  {
    if !done || !InUse(t.slots, k) then
      k !in l.retireAt && k !in l.reapAt && (InUse(l.table.slots, k) <==> InUse(t.slots, k)) && (k in l.table.cold <==> k in t.cold)
      && (k.slot < |t.slots| && InUse(t.slots, k) ==> l.table.slots[k.slot] == t.slots[k.slot])
    else if IsActive(t.slots, k) then
      k in l.retireAt && k in l.reapAt && l.retireAt[k] == t.slots[k.slot].expiresAt && l.reapAt[k] == l.retireAt[k] + RETENTION
      && k in l.table.cold && k in t.cold && l.table.cold[k] == t.cold[k] && l.table.slots[k.slot] == t.slots[k.slot]
    else
      k !in l.retireAt
      && if now < ReapTime(t, k, now) <= now + l.reach
         then k in l.reapAt && l.reapAt[k] == ReapTime(t, k, now) && k in l.table.cold && l.table.slots[k.slot] == t.slots[k.slot]
         else k !in l.reapAt && !InUse(l.table.slots, k) && k !in l.table.cold
  }

  ghost predicate Restoring(l: Life, t: Table, now: nat, reach: nat, done: set<KeyId>) {
    l.now == now && l.reach == reach && l.table.cancel == t.cancel
    && |l.table.slots| == |t.slots|
    && (forall i | 0 <= i < |t.slots| :: l.table.slots[i].generation == t.slots[i].generation)
    && (forall k | k in l.table.cold :: k in t.cold && l.table.cold[k] == t.cold[k])
    && forall k :: Scheduled(l, t, now, k, k in done)
  }

  lemma WatchRestores(l: Life, t: Table, now: nat, reach: nat, done: set<KeyId>, k: KeyId)
    requires Loaded(t, now) && Restoring(l, t, now, reach, done) && MAX_SCHEDULABLE <= reach
    requires IsActive(t.slots, k) && k !in done
    ensures Restoring(Watch(l, k, ExpiryOf(t, k)), t, now, reach, done + {k})
  {
    assert LoadedKey(t, now, k);
    assert Scheduled(l, t, now, k, false);
    var l' := Watch(l, k, ExpiryOf(t, k));
    forall j
      ensures Scheduled(l', t, now, j, j in done + {k})
    {
      assert Scheduled(l, t, now, j, j in done);
    }
  }

  lemma ReapRestores(l: Life, t: Table, now: nat, reach: nat, done: set<KeyId>, k: KeyId)
    requires Loaded(t, now) && Restoring(l, t, now, reach, done)
    requires InUse(t.slots, k) && !IsActive(t.slots, k) && k !in done
    ensures Restoring(PlaceReap(l, k, ReapTime(t, k, now)), t, now, reach, done + {k})
  {
    assert LoadedKey(t, now, k);
    assert Scheduled(l, t, now, k, false);
    var l' := PlaceReap(l, k, ReapTime(t, k, now));
    forall j
      ensures Scheduled(l', t, now, j, j in done + {k})
    {
      assert Scheduled(l, t, now, j, j in done);
    }
  }

  ghost function Keys(keys: seq<KeyId>): set<KeyId> {
    set k | k in keys
  }

  lemma {:induction false} WatchAllRestores(l: Life, t: Table, now: nat, reach: nat, keys: seq<KeyId>, done: set<KeyId>)
    requires Loaded(t, now) && Restoring(l, t, now, reach, done) && MAX_SCHEDULABLE <= reach
    requires ListsOnce(keys, |t.slots|) && forall k | k in keys :: IsActive(t.slots, k) && k !in done
    ensures Restoring(WatchAll(l, t, keys), t, now, reach, done + Keys(keys))
  {
    if keys == [] {
      assert done + Keys(keys) == done;
    } else {
      var n := |keys| - 1;
      WatchAllRestores(l, t, now, reach, keys[..n], done);
      WatchRestores(WatchAll(l, t, keys[..n]), t, now, reach, done + Keys(keys[..n]), keys[n]);
      assert done + Keys(keys) == done + Keys(keys[..n]) + {keys[n]};
    }
  }

  lemma {:induction false} ReapAllRestores(l: Life, t: Table, now: nat, reach: nat, keys: seq<KeyId>, done: set<KeyId>)
    requires Loaded(t, now) && Restoring(l, t, now, reach, done)
    requires ListsOnce(keys, |t.slots|) && forall k | k in keys :: InUse(t.slots, k) && !IsActive(t.slots, k) && k !in done
    ensures Restoring(ReapAll(l, t, now, keys), t, now, reach, done + Keys(keys))
  {
    if keys == [] {
      assert done + Keys(keys) == done;
    } else {
      var n := |keys| - 1;
      ReapAllRestores(l, t, now, reach, keys[..n], done);
      ReapRestores(ReapAll(l, t, now, keys[..n]), t, now, reach, done + Keys(keys[..n]), keys[n]);
      assert done + Keys(keys) == done + Keys(keys[..n]) + {keys[n]};
    }
  }

  /**
  A restored schedule is coherent: every live key keeps its row and gets both deadlines,
  every dead row waits out its retention or is already free, and no generation moves.
  */
  lemma RestoredCoherent(t: Table, now: nat, reach: nat)
    requires Loaded(t, now) && MAX_SCHEDULABLE <= reach
    ensures var l := Restored(t, now, reach);
            Coherent(l) && Restoring(l, t, now, reach, UsedKeys(t.slots))
  {
    var l0 := Life(0, now, reach, t, map[], map[]);
    var live, dead := LiveKeys(t.slots), DeadKeys(t.slots);
    LiveListed(t.slots);
    DeadListed(t.slots);
    var none: set<KeyId> := {};
    forall k
      ensures Scheduled(l0, t, now, k, k in none)
    {
      assert LoadedKey(t, now, k);
    }
    WatchAllRestores(l0, t, now, reach, live, none);
    ReapAllRestores(WatchAll(l0, t, live), t, now, reach, dead, none + Keys(live));
    var used := UsedKeys(t.slots);
    assert none + Keys(live) + Keys(dead) == used;
    var l', l := ReapAll(WatchAll(l0, t, live), t, now, dead), Restored(t, now, reach);
    forall k
      ensures Scheduled(l, t, now, k, k in used)
    {
      assert Scheduled(l', t, now, k, k in used);
    }
    forall k
      ensures Agrees(l, k)
    {
      assert LoadedKey(t, now, k);
      assert Scheduled(l, t, now, k, k in used);
    }
  }
}
