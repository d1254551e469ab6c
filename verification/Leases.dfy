/**
Temporary-key lifetimes, scheduled on the timing wheel.

`AuthState` is the slot table, its cold metadata and the lease cancellations; `Leases`
turns absolute deadlines into wheel delays and keeps, per key, handles on its two timers.
`View` reads both as a `Life`, and every method is proved to be the operation of the same
name on it.
*/
module LeaseSchedule {
  import opened Wrappers
  import opened Powers
  import opened TimingWheels
  import opened WheelCounts
  import opened TimerTable
  import L = Lifecycle
  import opened KeyLives
  import opened LeaseLinks
  import R = Restore

  const RADIX: nat := 64
  /** What a wheel of radix 64 built for `MAX_SCHEDULABLE` seconds can place: 64^5. */
  const REACH: nat := 0x4000_0000

  lemma LeaseWheelReach(reach: nat)
    requires SmallestSpan(RADIX, MAX_SCHEDULABLE, reach)
    ensures reach == REACH
  {
    var n: nat :| n > 0 && reach == SatPow(RADIX, n) && reach >= MAX_SCHEDULABLE && (n == 1 || SatPow(RADIX, n - 1) < MAX_SCHEDULABLE);
    FiveLevels(n);
  }

  lemma FiveLevels(n: nat)
    requires n > 0 && SatPow(RADIX, n) >= MAX_SCHEDULABLE
    requires n == 1 || SatPow(RADIX, n - 1) < MAX_SCHEDULABLE
    ensures SatPow(RADIX, n) == REACH
  {
    assert Pow(64, 2) == 4096;
    assert Pow(64, 4) == 0x100_0000;
    assert Pow(64, 5) == REACH;
    if n < 5 {
      PowMonotone(RADIX, n, 4);
    } else if n > 5 {
      PowMonotone(RADIX, 5, n - 1);
    }
  }

  lemma CancelNext(cancel: map<KeyId, L.Reason>, slots: L.Slots, i: nat)
    requires i < |slots|
    ensures var before, k := CancelAll(cancel, L.ActiveKeys(slots[..i])), L.KeyOf(slots, i);
            CancelAll(cancel, L.ActiveKeys(slots[..i + 1]))
            == if slots[i].state == L.Active && k !in before then before[k := L.CancelRotated] else before
  {
    assert L.ActiveKeys(slots[..i + 1])
        == L.ActiveKeys(slots[..i]) + (if slots[i].state == L.Active then {L.KeyOf(slots, i)} else {});
  }

  class AuthState {
    var slots: L.Slots
    var cold: map<KeyId, L.Cold>
    var cancel: map<KeyId, L.Reason>

    constructor (slots: L.Slots, cold: map<KeyId, L.Cold>, cancel: map<KeyId, L.Reason>)
      ensures Table() == L.Table(slots, cold, cancel)
    {
      this.slots, this.cold, this.cancel := slots, cold, cancel;
    }

    function Table(): L.Table
      reads this
    {
      L.Table(slots, cold, cancel)
    }

    /** The row, metadata and fresh lease of a newly issued key. */
    method Install(i: nat, expiresAt: nat, issuedAt: nat, note: Option<string>)
      requires i < |slots|
      modifies this
      ensures Table() == Installed(old(Table()), i, expiresAt, issuedAt, note)
    {
      var k := L.KeyId(slots[i].generation + 1, i);
      slots := slots[i := L.Slot(k.generation, L.Active, expiresAt)];
      cancel := cancel - {k};
      cold := cold[k := L.Cold(issuedAt, note, 0)];
    }

    method SetRow(i: nat, row: L.Slot)
      requires i < |slots|
      modifies this`slots
      ensures slots == old(slots)[i := row]
    {
      slots := slots[i := row];
    }

    /** `record_cancel`: the first reason sticks. */
    method CancelLease(k: KeyId, reason: L.Reason)
      modifies this`cancel
      ensures cancel == L.Cancel(old(cancel), k, reason)
    {
      if k !in cancel {
        cancel := cancel[k := reason];
      }
    }

    /** The retire callback: cancels the lease and marks the row dead. */
    method Retire(k: KeyId)
      modifies this
      ensures Table() == L.RunRetire(old(Table()), k)
    {
      CancelLease(k, L.CancelExpired);
      if k.slot >= |slots| {
        return;
      }
      var row := slots[k.slot];
      if !row.Holds(k) || row.state != L.Active {
        return;
      }
      slots := slots[k.slot := row.(state := L.Expired)];
      if k in cold {
        cold := cold[k := cold[k].(tombstonedAt := row.expiresAt)];
      }
    }

    /** The reap callback: frees a dead key's row and forgets it. */
    method Reap(k: KeyId)
      modifies this
      ensures Table() == L.RunReap(old(Table()), k)
    {
      if k.slot < |slots| {
        if !slots[k.slot].Holds(k) {
          return;
        }
        slots := slots[k.slot := slots[k.slot].Retire()];
      }
      cold := cold - {k};
    }

    method RunCallbacks(cs: seq<Callback>)
      modifies this
      ensures Table() == L.RunAll(old(Table()), cs)
    {
      var i := 0;
      while i < |cs|
        invariant i <= |cs|
        invariant Table() == L.RunAll(old(Table()), cs[..i])
      {
        assert cs[..i + 1][..i] == cs[..i];
        match cs[i] {
          case Retire(k) => Retire(k);
          case Reap(k) => Reap(k);
        }
        i := i + 1;
      }
      assert cs[..i] == cs;
    }

    /** Cancels the lease of every active row for a rotation; the first reason sticks. */
    method CancelRows()
      modifies this`cancel
      ensures cancel == CancelAll(old(cancel), L.ActiveKeys(slots))
    {
      var i := 0;
      while i < |slots|
        invariant i <= |slots|
        invariant cancel == CancelAll(old(cancel), L.ActiveKeys(slots[..i]))
      {
        CancelNext(old(cancel), slots, i);
        if slots[i].state == L.Active && L.KeyOf(slots, i) !in cancel {
          cancel := cancel[L.KeyOf(slots, i) := L.CancelRotated];
        }
        i := i + 1;
      }
      assert slots[..i] == slots;
    }
  }

  class Leases {
    const inner: AuthState
    const timers: Timers<Callback>
    /** The wall-clock second the wheel's current tick corresponds to. */
    var now: nat
    var stages: map<KeyId, Stages>

    ghost var offset: nat
    ghost var retireAt: map<KeyId, nat>
    ghost var reapAt: map<KeyId, nat>

    ghost function State(): Board
      reads this, timers, timers.wheel`ticks
    {
      Board(stages, timers.State(), offset, retireAt, reapAt)
    }

    ghost predicate Valid()
      reads this, timers, timers.wheel
    {
      timers.Valid() && timers.wheel.reach == REACH && now == offset + timers.wheel.ticks && Linked(State())
    }

    ghost function View(wall: nat): Life
      reads this, inner
    {
      Life(wall, now, REACH, inner.Table(), retireAt, reapAt)
    }

    /** An empty schedule over a loaded table. */
    constructor (inner: AuthState, now: nat)
      ensures Valid() && fresh(timers) && fresh(timers.wheel) && this.inner == inner
      ensures this.now == now && retireAt == map[] && reapAt == map[]
    {
      this.inner := inner;
      this.now, this.offset, stages, retireAt, reapAt := now, now, map[], map[], map[];
      timers := new Timers(MAX_SCHEDULABLE, RADIX);
      new;
      LeaseWheelReach(timers.wheel.reach);
      LinkedNothing(State());
    }

    /** Makes one of a key's timers and schedules it; past or out of reach, it should run at once. */
    method Place(c: Callback, deadline: nat) returns (ran: bool)
      requires Valid() && deadline <= U64_MAX && c.key !in State().At(c)
      modifies this`stages, this`retireAt, this`reapAt, timers, timers.wheel
      ensures Valid() && timers.wheel == old(timers.wheel)
      ensures ran == !(now < deadline <= now + REACH)
      ensures retireAt == if c.Retire? && !ran then old(retireAt)[c.key := deadline] else old(retireAt)
      ensures reapAt == if c.Reap? && !ran then old(reapAt)[c.key := deadline] else old(reapAt)
    {
      var delay := if deadline < now then 0 else deadline - now;
      ghost var b := State();
      LinkedPlaced(b, REACH, c, delay);
      var id;
      id, ran := timers.Add(delay, c);
      stages := WithHandle(stages, c, id);
      if !ran && c.Retire? {
        retireAt := retireAt[c.key := deadline];
      } else if !ran {
        reapAt := reapAt[c.key := deadline];
      }
      assert State() == Placed(b, REACH, c, delay);
    }

    /** Schedules both stages of a live key. */
    method Watch(k: KeyId, expiresAt: nat)
      requires Valid() && expiresAt + L.RETENTION <= U64_MAX && k !in retireAt && k !in reapAt
      modifies this, inner, timers, timers.wheel
      ensures Valid() && timers.wheel == old(timers.wheel)
      ensures View(0) == KeyLives.Watch(old(View(0)), k, expiresAt)
    {
      var ran := Place(L.Retire(k), expiresAt);
      if ran {
        inner.Retire(k);
      }
      assert View(0) == PlaceRetire(old(View(0)), k, expiresAt);
      ScheduleReap(k, expiresAt + L.RETENTION);
    }

    /** Schedules a key's reap; a deadline already past frees the row at once. */
    method ScheduleReap(k: KeyId, deadline: nat)
      requires Valid() && deadline <= U64_MAX && k !in reapAt
      modifies this, inner, timers, timers.wheel
      ensures Valid() && timers.wheel == old(timers.wheel)
      ensures View(0) == PlaceReap(old(View(0)), k, deadline)
    {
      var ran := Place(L.Reap(k), deadline);
      if ran {
        inner.Reap(k);
      }
    }

    /** Installs a newly issued key in its row and schedules both stages of its end. */
    method Issue(i: nat, expiresAt: nat, issuedAt: nat, note: Option<string>, ghost wall: nat)
      requires Valid() && i < |inner.slots| && expiresAt + L.RETENTION <= U64_MAX
      requires var k := L.KeyId(inner.slots[i].generation + 1, i); k !in retireAt && k !in reapAt
      modifies this, inner, timers, timers.wheel
      ensures Valid() && timers.wheel == old(timers.wheel)
      ensures View(wall) == DoIssue(old(View(wall)), i, expiresAt, issuedAt, note)
    {
      var k := L.KeyId(inner.slots[i].generation + 1, i);
      inner.Install(i, expiresAt, issuedAt, note);
      Watch(k, expiresAt);
    }

    /** Moves a live row, and both its stages, to a new expiry. */
    method RenewRow(k: KeyId, expiresAt: nat, ghost wall: nat)
      requires Valid() && k.slot < |inner.slots| && expiresAt + L.RETENTION <= U64_MAX
      requires k in retireAt && k in reapAt
      modifies this`retireAt, this`reapAt, inner, timers, timers.wheel
      ensures Valid() && timers.wheel == old(timers.wheel)
      ensures View(wall) == DoRenew(old(View(wall)), k, expiresAt)
    {
      inner.SetRow(k.slot, inner.slots[k.slot].(expiresAt := expiresAt));
      var moved := Renew(k, expiresAt);
    }

    /** Marks a row revoked, cancels its lease, and retires it now; its reap stays on schedule. */
    method RevokeRow(k: KeyId, ghost wall: nat)
      requires Valid() && k.slot < |inner.slots|
      modifies this, inner, timers`callback, timers`ran
      ensures Valid()
      ensures View(wall) == DoRevoke(old(View(wall)), k)
    {
      inner.SetRow(k.slot, inner.slots[k.slot].(state := L.Revoked));
      inner.CancelLease(k, L.CancelRevoked);
      RetireNow(k);
    }

    /** Schedules one of a key's timers a second time. */
    method Again(c: Callback, deadline: nat)
      requires Valid() && deadline <= U64_MAX
      requires HandleOf(stages, c).Some? && HandleOf(stages, c).value in timers.strong
      modifies this`retireAt, this`reapAt, timers, timers.wheel
      ensures Valid() && timers.wheel == old(timers.wheel)
      ensures retireAt == if c.Retire? then Extend(old(retireAt), old(View(0)), c.key, deadline) else old(retireAt)
      ensures reapAt == if c.Reap? then Extend(old(reapAt), old(View(0)), c.key, deadline) else old(reapAt)
      ensures forall id | id in old(timers.strong) :: id in timers.strong
    {
      var delay := if deadline < now then 0 else deadline - now;
      ghost var b := State();
      LinkedRenewed(b, REACH, c, delay);
      timers.Again(HandleOf(stages, c).value, delay);
      retireAt, reapAt := Renewed(b, REACH, c, delay).retireAt, Renewed(b, REACH, c, delay).reapAt;
      assert State() == Renewed(b, REACH, c, delay);
    }

    method WatchLive(t: L.Table, live: seq<KeyId>)
      requires Valid() && R.ListsOnce(live, |t.slots|) && retireAt == map[] && reapAt == map[]
      requires forall i | 0 <= i < |t.slots| :: t.slots[i].expiresAt + L.RETENTION <= U64_MAX
      modifies this, inner, timers, timers.wheel
      ensures Valid() && timers.wheel == old(timers.wheel)
      ensures View(0) == R.WatchAll(old(View(0)), t, live) && reapAt.Keys <= KeysIn(live)
    {
      ghost var l := View(0);
      var i := 0;
      while i < |live|
        invariant i <= |live| && Valid() && timers.wheel == old(timers.wheel)
        invariant View(0) == R.WatchAll(l, t, live[..i])
        invariant retireAt.Keys <= KeysIn(live[..i]) && reapAt.Keys <= KeysIn(live[..i])
      {
        assert live[..i + 1][..i] == live[..i];
        KeysNext(live, i);
        Watch(live[i], R.ExpiryOf(t, live[i]));
        i := i + 1;
      }
      assert live[..i] == live;
    }

    method ReapDead(t: L.Table, dead: seq<KeyId>)
      requires Valid() && R.ListsOnce(dead, |t.slots|) && reapAt.Keys !! KeysIn(dead)
      requires forall k | k in dead :: R.ReapTime(t, k, now) <= U64_MAX
      modifies this, inner, timers, timers.wheel
      ensures Valid() && timers.wheel == old(timers.wheel)
      ensures View(0) == R.ReapAll(old(View(0)), t, old(now), dead)
    {
      ghost var l := View(0);
      var i := 0;
      while i < |dead|
        invariant i <= |dead| && Valid() && timers.wheel == old(timers.wheel)
        invariant View(0) == R.ReapAll(l, t, l.now, dead[..i]) && now == l.now
        invariant reapAt.Keys <= old(reapAt).Keys + KeysIn(dead[..i])
      {
        assert dead[..i + 1][..i] == dead[..i];
        KeysNext(dead, i);
        ScheduleReap(dead[i], R.ReapTime(t, dead[i], now));
        i := i + 1;
      }
      assert dead[..i] == dead;
    }

    /** Rebuilds a loaded state's schedule: live rows first, then rows already dead. */
    method Restore()
      requires Valid() && retireAt == map[] && reapAt == map[] && now + L.RETENTION <= U64_MAX
      requires forall i | 0 <= i < |inner.slots| :: inner.slots[i].expiresAt + L.RETENTION <= U64_MAX
      requires forall k | k in inner.cold :: inner.cold[k].tombstonedAt + L.RETENTION <= U64_MAX
      modifies this, inner, timers, timers.wheel
      ensures Valid() && timers.wheel == old(timers.wheel)
      ensures View(old(now)) == R.Restored(old(inner.Table()), old(now), REACH)
    {
      var t := inner.Table();
      var live, dead := LiveAndDead(t.slots);
      R.LiveListed(t.slots);
      R.DeadListed(t.slots);
      WatchLive(t, live);
      R.WatchAllNow(old(View(0)), t, live);
      ReapDead(t, dead);
    }

    /** Moves both stages of a renewed key to the later of the old and the new deadline. */
    method Renew(k: KeyId, expiresAt: nat) returns (moved: bool)
      requires Valid() && expiresAt + L.RETENTION <= U64_MAX
      modifies this`retireAt, this`reapAt, timers, timers.wheel
      ensures Valid() && timers.wheel == old(timers.wheel)
      ensures View(0) == if moved then Reschedule(old(View(0)), k, expiresAt) else old(View(0))
      ensures k in old(retireAt) && k in old(reapAt) ==> moved
    {
      Upgrades(L.Retire(k));
      Upgrades(L.Reap(k));
      var retire, reap := HandleOf(stages, L.Retire(k)), HandleOf(stages, L.Reap(k));
      if retire.None? || reap.None? || retire.value !in timers.strong || reap.value !in timers.strong {
        return false;
      }
      Again(L.Retire(k), expiresAt);
      Again(L.Reap(k), expiresAt + L.RETENTION);
      return true;
    }

    /** A pending stage can still be upgraded; one that cannot be is not pending. */
    lemma Upgrades(c: Callback)
      requires Valid()
      ensures c.key in State().At(c) ==> HandleOf(stages, c).Some? && HandleOf(stages, c).value in timers.strong
    {
      assert LinkedStage(State(), c);
      timers.Held();
    }

    /** Upgrades one of a key's stages, forgetting the key once both have run. */
    method Stage(c: Callback) returns (timer: Handle)
      requires Valid()
      modifies this`stages
      ensures Valid()
      ensures timer.None? ==> c.key !in State().At(c)
      ensures timer.Some? ==> timer == HandleOf(stages, c) && timer.value in timers.strong
    {
      Upgrades(L.Retire(c.key));
      Upgrades(L.Reap(c.key));
      timer := HandleOf(stages, c);
      if timer.None? || timer.value !in timers.strong {
        timer := None;
      }
      var s := StagesOf(stages, c.key);
      if (s.retire.None? || s.retire.value !in timers.strong) && (s.reap.None? || s.reap.value !in timers.strong) {
        LinkedForget(State(), c.key);
        stages := stages - {c.key};
      }
    }

    /** Fires one of a key's stages if it is still pending. */
    method Strike(c: Callback) returns (fired: bool)
      requires Valid()
      modifies this`stages, this`retireAt, this`reapAt, timers`callback, timers`ran
      ensures Valid()
      ensures fired == (c.key in old(State().At(c)))
      ensures retireAt == if c.Retire? then old(retireAt) - {c.key} else old(retireAt)
      ensures reapAt == if c.Reap? then old(reapAt) - {c.key} else old(reapAt)
    {
      var timer := Stage(c);
      if timer.None? {
        return false;
      }
      ghost var b := State();
      LinkedStruck(b, c);
      fired := timers.Fire(timer.value);
      retireAt, reapAt := Struck(b, c).retireAt, Struck(b, c).reapAt;
      assert State() == Struck(b, c);
    }

    /** Retires a key now rather than at its expiry, leaving its reap on schedule. */
    method RetireNow(k: KeyId)
      requires Valid()
      modifies this, inner, timers`callback, timers`ran
      ensures Valid()
      ensures View(0) == KeyLives.RetireNow(old(View(0)), k)
    {
      var fired := Strike(L.Retire(k));
      if fired {
        inner.Retire(k);
      }
    }

    /** Ends a key outright, running whichever of its stages are still pending. */
    method End(k: KeyId)
      requires Valid()
      modifies this, inner, timers`callback, timers`ran
      ensures Valid()
      ensures View(0) == Ended(old(View(0)), {k})
    {
      ghost var l := View(0);
      RetireNow(k);
      var fired := Strike(L.Reap(k));
      if fired {
        inner.Reap(k);
      }
      LinkedForget(State(), k);
      stages := stages - {k};
      EndedOne(l, k);
    }

    /** Advances the wheel one tick and reports the stages that fell due. */
    method Turn() returns (fired: seq<Callback>)
      requires Valid()
      modifies this, timers, timers.wheel
      ensures Valid() && timers.wheel == old(timers.wheel) && now == old(now) + 1
      ensures L.Retired(fired) == DueBy(old(retireAt), now) && L.Reaped(fired) == DueBy(old(reapAt), now)
      ensures retireAt == old(retireAt) - DueBy(old(retireAt), now) && reapAt == old(reapAt) - DueBy(old(reapAt), now)
    {
      ghost var b := State();
      now := now + 1;
      ghost var ids;
      fired, ids := timers.Tick();
      LinkedTick(b, ids, fired);
      retireAt, reapAt := retireAt - DueBy(retireAt, now), reapAt - DueBy(reapAt, now);
      assert State() == Later1(b);
    }

    /** One second: everything due by it runs. */
    method Second()
      requires Valid()
      modifies this, inner, timers, timers.wheel
      ensures Valid() && timers.wheel == old(timers.wheel) && now == old(now) + 1
      ensures View(0) == KeyLives.Second(old(View(0)))
    {
      var fired := Turn();
      L.RunAllSettles(inner.Table(), fired);
      inner.RunCallbacks(fired);
    }

    /** Runs every callback whose deadline has passed. */
    method Tick(wall: nat)
      requires Valid()
      modifies this, inner, timers, timers.wheel
      ensures Valid() && (timers.wheel == old(timers.wheel) || fresh(timers.wheel))
      ensures View(0) == Advance(old(View(0)), wall)
    {
      if wall > now + REACH {
        DropSchedule(wall);
        return;
      }
      while now < wall
        invariant Valid() && timers.wheel == old(timers.wheel)
        invariant Stepped(View(0), wall) == Stepped(old(View(0)), wall)
        decreases wall - now
      {
        Second();
      }
    }

    /** Replaces the whole schedule, running every callback the old one held. */
    method DropSchedule(wall: nat)
      requires Valid()
      modifies this, inner, timers
      ensures Valid() && fresh(timers.wheel)
      ensures View(0) == KeyLives.Dropped(old(View(0)), wall)
    {
      ghost var b := State();
      stages, now, offset := map[], wall, wall;
      var fired, ids := timers.DropWheel(MAX_SCHEDULABLE, RADIX);
      LeaseWheelReach(timers.wheel.reach);
      LinkedDrop(b, ids, fired);
      retireAt, reapAt := map[], map[];
      LinkedNothing(State());
      L.RunAllSettles(inner.Table(), fired);
      inner.RunCallbacks(fired);
    }

    /** Ends every key at once, for a root rotation or a state reset. */
    method Wipe(at: nat, ghost wall: nat)
      requires Valid()
      modifies this, inner, timers
      ensures Valid() && fresh(timers.wheel)
      ensures View(wall) == DoWipe(old(View(wall)), at)
    {
      inner.CancelRows();
      DropSchedule(at);
    }

    /** Ends every key that is dead or past its expiry, and counts them. */
    method CollectGarbage(at: nat, ghost wall: nat) returns (ended: nat)
      requires Valid()
      modifies this, inner, timers`callback, timers`ran
      ensures Valid()
      ensures View(wall) == DoCollect(old(View(wall)), at)
      ensures ended == |EndedRows(old(inner.slots), at)|
    {
      var due := CollectableKeys(inner.slots, at);
      CollectableCount(inner.slots, at);
      ghost var l := View(0);
      var i := 0;
      EndedNone(l);
      assert KeysIn(due[..0]) == {};
      while i < |due|
        invariant i <= |due| && Valid()
        invariant View(0) == Ended(l, KeysIn(due[..i]))
      {
        EndedNext(l, KeysIn(due[..i]), due[i]);
        KeysNext(due, i);
        End(due[i]);
        i := i + 1;
      }
      assert due[..i] == due;
      return |due|;
    }
  }

  method LiveAndDead(slots: L.Slots) returns (live: seq<KeyId>, dead: seq<KeyId>)
    ensures live == R.LiveKeys(slots) && dead == R.DeadKeys(slots)
  {
    live, dead := [], [];
    var i := 0;
    while i < |slots|
      invariant i <= |slots|
      invariant live == R.LiveKeys(slots[..i]) && dead == R.DeadKeys(slots[..i])
    {
      assert slots[..i + 1][..i] == slots[..i];
      match slots[i].state {
        case Active => live := live + [L.KeyOf(slots, i)];
        case Expired | Revoked => dead := dead + [L.KeyOf(slots, i)];
        case Free =>
      }
      i := i + 1;
    }
    assert slots[..i] == slots;
  }

  ghost function KeysIn(keys: seq<KeyId>): set<KeyId> {
    set k | k in keys
  }

  /** The key ids of the collectable rows, in table order. */
  method CollectableKeys(slots: L.Slots, wall: nat) returns (due: seq<KeyId>)
    ensures Collected(slots, wall, due)
  {
    due := [];
    var i := 0;
    while i < |slots|
      invariant i <= |slots|
      invariant Collected(slots[..i], wall, due)
    {
      CollectedNext(slots, i, wall, due);
      if slots[i].IsCollectable(wall) {
        due := due + [L.KeyOf(slots, i)];
      }
      i := i + 1;
    }
    assert slots[..i] == slots;
  }

  lemma KeysNext(keys: seq<KeyId>, i: nat)
    requires i < |keys|
    ensures KeysIn(keys[..i + 1]) == KeysIn(keys[..i]) + {keys[i]}
  {
  }

  /** `due` lists the collectable rows of `slots`, each once. */
  ghost predicate Collected(slots: L.Slots, wall: nat, due: seq<KeyId>) {
    KeysIn(due) == Collectable(slots, wall) && |due| == |Collectable(slots, wall)|
  }

  lemma CollectedNext(slots: L.Slots, i: nat, wall: nat, due: seq<KeyId>)
    requires i < |slots| && Collected(slots[..i], wall, due)
    ensures Collected(slots[..i + 1], wall, if slots[i].IsCollectable(wall) then due + [L.KeyOf(slots, i)] else due)
  {
    CollectableNext(slots, i, wall);
    KeysNext(due + [L.KeyOf(slots, i)], |due|);
    assert (due + [L.KeyOf(slots, i)])[..|due|] == due;
    assert (due + [L.KeyOf(slots, i)])[..|due| + 1] == due + [L.KeyOf(slots, i)];
  }

  lemma EndedOne(l: Life, k: KeyId)
    ensures Ended(l, {k})
            == (var r := KeyLives.RetireNow(l, k);
                if k in r.reapAt then r.(table := L.RunReap(r.table, k), reapAt := r.reapAt - {k}) else r)
  {
    L.SettledNothing(l.table);
    var retire: set<KeyId> := if k in l.retireAt then {k} else {};
    var reap: set<KeyId> := if k in l.reapAt then {k} else {};
    assert {k} * l.retireAt.Keys == retire && {k} * l.reapAt.Keys == reap;
    L.SettledRetire(l.table, {}, {}, k);
    L.SettledReap(l.table, retire, {}, k);
    assert {} + {k} == {k};
    assert l.retireAt - retire == if k in l.retireAt then l.retireAt - {k} else l.retireAt;
    assert l.reapAt - reap == if k in l.reapAt then l.reapAt - {k} else l.reapAt;
  }

  lemma EndedNone(l: Life)
    ensures Ended(l, {}) == l
  {
    L.SettledNothing(l.table);
    assert {} * l.retireAt.Keys == {} && {} * l.reapAt.Keys == {};
    assert l.retireAt - {} == l.retireAt && l.reapAt - {} == l.reapAt;
  }

  /** Ending one more key after a batch. */
  lemma EndedNext(l: Life, keys: set<KeyId>, k: KeyId)
    ensures Ended(Ended(l, keys), {k}) == Ended(l, keys + {k})
  {
    var m := Ended(l, keys);
    L.SettledTwice(l.table, keys * l.retireAt.Keys, keys * l.reapAt.Keys, {k} * m.retireAt.Keys, {k} * m.reapAt.Keys);
    assert keys * l.retireAt.Keys + {k} * m.retireAt.Keys == (keys + {k}) * l.retireAt.Keys;
    assert keys * l.reapAt.Keys + {k} * m.reapAt.Keys == (keys + {k}) * l.reapAt.Keys;
    assert m.retireAt - {k} * m.retireAt.Keys == l.retireAt - (keys + {k}) * l.retireAt.Keys;
    assert m.reapAt - {k} * m.reapAt.Keys == l.reapAt - (keys + {k}) * l.reapAt.Keys;
  }
}
