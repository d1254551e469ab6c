/**
The actor that owns the authentication state: its commands, as they change the slot table,
the lease schedule, the audit trail and the disk in place.

Each method is proved to be the step of the same name on the `Actor` value it reads as.
*/
module Authority {
  import opened Wrappers
  import opened Powers
  import L = Lifecycle
  import opened KeyLives
  import opened LeaseSchedule
  import opened Recovery
  import opened ActorRuns
  import R = Restore
  import P = Persistence

  type KeyId = L.KeyId

  datatype Refusal = TtlInvalid | CapacityExhausted | KeyNotFound | KeyNotRenewable | KeyNotActive

  datatype Outcome<T> = Done(value: T) | Refused(reason: Refusal)

  // ---- the clock of a life is only carried along ----

  lemma SecondWall(l: Life, wall: nat)
    ensures Second(l.(wall := wall)) == Second(l).(wall := wall)
  {
  }

  lemma {:induction false} SteppedWall(l: Life, t: nat, wall: nat)
    ensures Stepped(l.(wall := wall), t) == Stepped(l, t).(wall := wall)
    decreases t - l.now
  {
    if t > l.now {
      SecondWall(l, wall);
      SteppedWall(Second(l), t, wall);
    }
  }

  lemma AdvanceWall(l: Life, t: nat, wall: nat)
    ensures Advance(l.(wall := wall), t) == Advance(l, t).(wall := wall)
  {
    SteppedWall(l, t, wall);
  }

  /** No time in the table is within a retention of the end of time. */
  ghost predicate Timely(t: L.Table, now: nat) {
    now + L.RETENTION <= U64_MAX
    && (forall i | 0 <= i < |t.slots| :: t.slots[i].expiresAt + L.RETENTION <= U64_MAX)
    && forall k | k in t.cold :: t.cold[k].tombstonedAt + L.RETENTION <= U64_MAX
  }

  lemma ActedIssue(a: Actor, now: nat, ttl: nat, note: Option<string>, i: nat)
    requires TtlValid(ttl) && FirstFree(a.life.table.slots) == Some(i)
    ensures var e := IssuedEntry(a.life.table.slots, i, now, ttl, note);
            var audit := P.Audit(now, P.KeyIssue, Some(e.key));
            Acted(a, Op.Issue(now, ttl, note))
            == Actor(DoIssue(a.life.(wall := now), i, now + ttl, now, note), a.high, a.highEntries, a.instance,
                     P.PushAudit(a.audits, audit), a.disk.(wal := a.disk.wal + [P.Mutated(P.Mutation.Issue(e), audit)]))
            && Handed(a, Act(Op.Issue(now, ttl, note))) == Some(e.key)
  {
  }

  lemma EmptiedMeans(a: Actor, at: nat, instance: nat)
    ensures var audits := P.PushAudit(a.audits, P.Audit(at, P.Other, None));
            Emptied(a, at, instance)
            == Actor(DoWipe(a.life.(wall := at), at), a.high, a.highEntries, instance, audits,
                     Rewritten(P.Snapshot(instance, P.GenerationsOf(a.life.table.slots) + a.high, [], audits)))
  {
  }

  lemma ActedRenew(a: Actor, now: nat, k: KeyId, ttl: nat)
    requires TtlValid(ttl) && Renewable(a.life, k, now)
    ensures var audit := P.Audit(now, P.KeyRenew, Some(k));
            Acted(a, Op.Renew(now, k, ttl))
            == Actor(DoRenew(a.life.(wall := now), k, now + ttl), a.high, a.highEntries, a.instance,
                     P.PushAudit(a.audits, audit), a.disk.(wal := a.disk.wal + [P.Mutated(P.Mutation.Renew(k, now + ttl), audit)]))
  {
  }

  class AuthActor {
    const inner: AuthState
    const leases: Leases
    var high: seq<nat>
    var highEntries: seq<P.Entry>
    var instance: nat
    var audits: seq<P.Audit>
    var disk: P.Disk
    /** The latest clock reading. */
    ghost var wall: nat

    ghost predicate Valid()
      reads this, leases, leases.timers, leases.timers.wheel
    {
      leases.Valid() && leases.inner == inner
    }

    ghost function State(): Actor
      reads this, inner, leases, leases.inner
    {
      Actor(leases.View(wall), high, highEntries, instance, audits, disk)
    }

    /** Builds the hot state and its schedule from a loaded snapshot. */
    constructor (p: P.Snapshot, disk: P.Disk, capacity: nat, now: nat)
      requires Timely(P.Started(P.Normal(p, now), capacity, now), now)
      ensures Valid() && fresh(inner) && fresh(leases) && fresh(leases.timers) && fresh(leases.timers.wheel)
      ensures State() == FromStore(p, disk, capacity, now, REACH)
    {
      var q, changed := P.Normalize(p, now);
      var t := P.StartTable(q, capacity, now);
      var hot := new AuthState(t.slots, t.cold, t.cancel);
      var schedule := new Leases(hot, now);
      schedule.Restore();
      inner, leases := hot, schedule;
      high, highEntries := HighOf(q, capacity), P.HighEntries(q.entries, capacity, now);
      instance, audits := q.instance, Trimmed(q.audits);
      this.disk := if changed then Rewritten(q) else disk;
      wall := now;
    }

    /** Logs a mutation and its audit record. */
    method AppendMutation(m: P.Mutation, audit: P.Audit)
      modifies this`disk, this`audits
      ensures disk == old(disk).(wal := old(disk).wal + [P.Mutated(m, audit)]) && audits == P.PushAudit(old(audits), audit)
    {
      disk := disk.(wal := disk.wal + [P.Mutated(m, audit)]);
      audits := P.PushAudit(audits, audit);
    }

    method Issue(now: nat, ttl: nat, note: Option<string>) returns (r: Outcome<KeyId>)
      requires Valid() && Coherent(State().life) && wall <= now && now + ttl + L.RETENTION <= U64_MAX
      modifies this, inner, leases, leases.timers, leases.timers.wheel
      ensures Valid() && leases.timers.wheel == old(leases.timers.wheel)
      ensures State() == Acted(old(State()), Op.Issue(now, ttl, note))
      ensures match r
              case Done(k) => Handed(old(State()), Act(Op.Issue(now, ttl, note))) == Some(k)
              case Refused(reason) => Handed(old(State()), Act(Op.Issue(now, ttl, note))).None?
                                      && reason == if TtlValid(ttl) then CapacityExhausted else TtlInvalid
    {
      ghost var a := State();
      wall := now;
      if !TtlValid(ttl) {
        return Refused(TtlInvalid);
      }
      var free := FirstFree(inner.slots);
      if free.None? {
        return Refused(CapacityExhausted);
      }
      var i := free.value;
      var entry := IssuedEntry(inner.slots, i, now, ttl, note);
      var k := entry.key;
      ActedIssue(a, now, ttl, note, i);
      NotPending(leases.View(old(wall)), i);
      AppendMutation(P.Mutation.Issue(entry), P.Audit(now, P.KeyIssue, Some(k)));
      leases.Issue(i, now + ttl, now, note, now);
      return Done(k);
    }

    method Renew(now: nat, k: KeyId, ttl: nat) returns (r: Outcome<()>)
      requires Valid() && Coherent(State().life) && wall <= now && now + ttl + L.RETENTION <= U64_MAX
      modifies this, inner, leases, leases.timers, leases.timers.wheel
      ensures Valid() && leases.timers.wheel == old(leases.timers.wheel)
      ensures State() == Acted(old(State()), Op.Renew(now, k, ttl))
      ensures r.Done? <==> TtlValid(ttl) && Renewable(old(State()).life, k, now)
      ensures r.Refused? ==> r.reason == if !TtlValid(ttl) then TtlInvalid
                                         else if L.InUse(old(inner.slots), k) && k in old(inner.cold) then KeyNotRenewable
                                         else KeyNotFound
    {
      ghost var a := State();
      wall := now;
      if !TtlValid(ttl) {
        return Refused(TtlInvalid);
      }
      if !L.InUse(inner.slots, k) || k !in inner.cold {
        return Refused(KeyNotFound);
      }
      if inner.slots[k.slot].state != L.Active || inner.slots[k.slot].expiresAt <= now {
        return Refused(KeyNotRenewable);
      }
      ActedRenew(a, now, k, ttl);
      assert Agrees(a.life, k);
      AppendMutation(P.Mutation.Renew(k, now + ttl), P.Audit(now, P.KeyRenew, Some(k)));
      leases.RenewRow(k, now + ttl, now);
      return Done(());
    }

    method Revoke(now: nat, k: KeyId) returns (r: Outcome<()>)
      requires Valid() && wall <= now
      modifies this, inner, leases, leases.timers`callback, leases.timers`ran
      ensures Valid()
      ensures State() == Acted(old(State()), Op.Revoke(now, k))
      ensures r.Done? <==> L.IsActive(old(inner.slots), k) && k in old(inner.cold)
      ensures r.Refused? ==> r.reason == if L.InUse(old(inner.slots), k) && k in old(inner.cold) then KeyNotActive else KeyNotFound
    {
      wall := now;
      if !L.InUse(inner.slots, k) || k !in inner.cold {
        return Refused(KeyNotFound);
      }
      if inner.slots[k.slot].state != L.Active {
        return Refused(KeyNotActive);
      }
      AppendMutation(P.Mutation.Revoke(k, now), P.Audit(now, P.KeyRevoke, Some(k)));
      leases.RevokeRow(k, now);
      return Done(());
    }

    method Tick(now: nat)
      requires Valid() && wall <= now
      modifies this`wall, inner, leases, leases.timers, leases.timers.wheel
      ensures Valid() && (leases.timers.wheel == old(leases.timers.wheel) || fresh(leases.timers.wheel))
      ensures State() == Acted(old(State()), Op.Tick(now))
    {
      ghost var l := leases.View(0);
      wall := now;
      leases.Tick(now);
      AdvanceWall(l, now, now);
    }

    /** Ends every dead or expired key, then compacts. */
    method Gc(now: nat) returns (removed: nat)
      requires Valid() && wall <= now
      modifies this, inner, leases, leases.timers`callback, leases.timers`ran
      ensures Valid()
      ensures State() == ActorRuns.Collected(old(State()), now)
      ensures removed == |EndedRows(old(inner.slots), now)|
    {
      wall := now;
      removed := leases.CollectGarbage(now, now);
      audits := P.PushAudit(audits, P.Audit(now, P.Other, None));
      disk := Rewritten(P.Build(inner.slots, inner.cold, high, highEntries, instance, audits));
    }

    /** A reset, or a rotation when the instance id is kept. */
    method Empty(now: nat, newInstance: nat)
      requires Valid() && wall <= now
      modifies this, inner, leases, leases.timers
      ensures Valid() && fresh(leases.timers.wheel)
      ensures State() == Emptied(old(State()), now, newInstance)
    {
      ghost var a := State();
      wall := now;
      audits := P.PushAudit(audits, P.Audit(now, P.Other, None));
      disk := Rewritten(P.Snapshot(newInstance, P.GenerationsOf(inner.slots) + high, [], audits));
      leases.Wipe(now, now);
      instance := newInstance;
      EmptiedMeans(a, now, newInstance);
    }

    /** Logs an audit record alone. */
    method AppendAudit(now: nat, key: Option<KeyId>)
      requires Valid() && wall <= now
      modifies this`wall, this`disk, this`audits
      ensures State() == StepActor(old(State()), ActorRuns.Note(now, key))
    {
      wall := now;
      var audit := P.Audit(now, P.Other, key);
      disk := disk.(wal := disk.wal + [P.Audited(audit)]);
      audits := P.PushAudit(audits, audit);
    }

    /** Rewrites the snapshot from the table and empties the log. */
    method Compact(now: nat)
      requires Valid() && wall <= now
      modifies this`wall, this`disk
      ensures State() == StepActor(old(State()), ActorRuns.Compact(now))
    {
      wall := now;
      disk := Rewritten(P.Build(inner.slots, inner.cold, high, highEntries, instance, audits));
    }
  }

  /** A start: loads the disk and rebuilds everything from it. */
  method Start(disk: P.Disk, instance: nat, capacity: nat, now: nat) returns (r: Result<AuthActor, P.Failure>)
    requires P.Load(disk, instance, capacity).Ok? ==>
               Timely(P.Started(P.Normal(P.Load(disk, instance, capacity).value, now), capacity, now), now)
    ensures r.Ok? <==> P.Load(disk, instance, capacity).Ok?
    ensures r.Ok? ==> fresh(r.value) && r.value.Valid()
                      && r.value.State() == FromStore(P.Load(disk, instance, capacity).value, disk, capacity, now, REACH)
  {
    var loaded := P.LoadPersisted(disk, instance, capacity);
    if loaded.Err? {
      return Err(loaded.reason);
    }
    var actor := new AuthActor(loaded.value, disk, capacity, now);
    return Ok(actor);
  }

  lemma NotPending(l: Life, i: nat)
    requires Coherent(l) && i < |l.table.slots| && l.table.slots[i].state == L.Free
    ensures var k := L.KeyId(l.table.slots[i].generation + 1, i); k !in l.retireAt && k !in l.reapAt
  {
    assert Agrees(l, L.KeyId(l.table.slots[i].generation + 1, i));
  }
}
