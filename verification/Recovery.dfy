/**
The store mirrors the table: over any run, what a start would read back is what the table
would offer.

`Actor` is the serialized owner of the table together with its disk. A step changes both as
the commands do: a mutation is logged before it is applied, compaction rewrites the
snapshot, and a restart rebuilds everything from the disk. `Mirror` relates the table to
what `Load` would return, one slot at a time, and every step keeps it.
*/
module Recovery {
  import opened Wrappers
  import opened Lifecycle
  import opened KeyLives
  import R = Restore
  import P = Persistence

  /** Generations of every slot ever used: the table's, then those beyond its capacity. */
  function GenNow(slots: Slots, high: seq<nat>, s: nat): nat {
    if s < |slots| then slots[s].generation else P.GenOf(high, s - |slots|)
  }

  /** A stored entry says what an active row says, and a dead row has no live entry. */
  ghost predicate RowMirrors(l: Life, e: Option<P.Entry>, s: nat)
    requires s < |l.table.slots|
  {
    var row, k := l.table.slots[s], KeyOf(l.table.slots, s);
    if row.state == Active then
      e.Some? && e.value.state == Active && e.value.expiresAt == row.expiresAt
      && k in l.table.cold && e.value.issuedAt == l.table.cold[k].issuedAt && e.value.note == l.table.cold[k].note
      && k in l.retireAt && row.expiresAt <= l.retireAt[k]
    else
      e.Some? && e.value.state == Active ==> e.value.expiresAt <= l.wall
  }

  ghost predicate MirrorSlot(l: Life, high: seq<nat>, p: P.Snapshot, s: nat) {
    var e := P.At(p.entries, s);
    P.GenOf(p.generations, s) == GenNow(l.table.slots, high, s)
    && (e.Some? ==> e.value.key == KeyId(P.GenOf(p.generations, s), s) && e.value.state != Free)
    && (e.Some? && e.value.state == Active ==> e.value.expiresAt <= l.wall + MAX_TTL)
    && (s < |l.table.slots| ==> RowMirrors(l, e, s))
  }

  ghost predicate Mirror(l: Life, high: seq<nat>, p: P.Snapshot) {
    P.OnePerSlot(p.entries) && forall s: nat :: MirrorSlot(l, high, p, s)
  }

  // ---- operations that log nothing ----

  lemma WallMirror(l: Life, high: seq<nat>, p: P.Snapshot, wall: nat)
    requires Mirror(l, high, p) && l.wall <= wall
    ensures Mirror(l.(wall := wall), high, p)
  {
    forall s: nat
      ensures MirrorSlot(l.(wall := wall), high, p, s)
    {
      assert MirrorSlot(l, high, p, s);
    }
  }

  /** Callbacks that run: rows that die had their stored expiry behind the clock. */
  lemma RunDueMirror(l: Life, high: seq<nat>, p: P.Snapshot, t: nat, retire: set<KeyId>, reap: set<KeyId>)
    requires Coherent(l) && Mirror(l, high, p) && l.now <= t <= l.wall
    requires forall k | k in retire + reap && IsActive(l.table.slots, k) :: l.table.slots[k.slot].expiresAt <= l.wall
    ensures Mirror(RunDue(l.(now := t), retire, reap), high, p)
  {
    var l' := RunDue(l.(now := t), retire, reap);
    forall s: nat
      ensures MirrorSlot(l', high, p, s)
    {
      assert MirrorSlot(l, high, p, s);
      if s < |l.table.slots| {
        var k := KeyOf(l.table.slots, s);
        assert Agrees(l, k);
        SettledKey(l.table, retire, reap, k);
        assert l'.table.slots[s] == SettledSlot(l.table.slots, s, retire, reap);
      }
    }
  }

  lemma TickMirror(l: Life, high: seq<nat>, p: P.Snapshot, t: nat)
    requires Coherent(l) && Mirror(l, high, p) && l.now <= t <= l.wall
    ensures Mirror(Advance(l, t), high, p)
  {
    AdvanceMeans(l, t);
    var retire, reap := DueBy(l.retireAt, t), DueBy(l.reapAt, t);
    forall k | k in retire + reap && IsActive(l.table.slots, k)
      ensures l.table.slots[k.slot].expiresAt <= l.wall
    {
      assert Agrees(l, k);
      assert MirrorSlot(l, high, p, k.slot);
    }
    RunDueMirror(l, high, p, t, retire, reap);
  }

  lemma CollectMirror(l: Life, high: seq<nat>, p: P.Snapshot)
    requires Coherent(l) && Mirror(l, high, p)
    ensures Mirror(DoCollect(l, l.wall), high, p)
  {
    var due := Collectable(l.table.slots, l.wall);
    assert l.(now := l.now) == l;
    RunDueMirror(l, high, p, l.now, due * l.retireAt.Keys, due * l.reapAt.Keys);
  }

  lemma AuthenticateMirror(l: Life, high: seq<nat>, p: P.Snapshot, cancel: map<KeyId, Reason>)
    requires Mirror(l, high, p)
    ensures Mirror(l.(table := l.table.(cancel := cancel)), high, p)
  {
    forall s: nat
      ensures MirrorSlot(l.(table := l.table.(cancel := cancel)), high, p, s)
    {
      assert MirrorSlot(l, high, p, s);
    }
  }

  // ---- operations that log a mutation ----

  function IssuedEntry(slots: Slots, i: nat, wall: nat, ttl: nat, note: Option<string>): P.Entry
    requires i < |slots|
  {
    P.Entry(KeyId(slots[i].generation + 1, i), Active, wall, wall + ttl, note, None)
  }

  /** What an operation appends to the log, if it goes ahead. */
  function Logged(l: Life, op: Op): Option<P.Mutation> {
    match op
    case Issue(wall, ttl, note) =>
      if TtlValid(ttl) && FirstFree(l.table.slots).Some?
      then Some(P.Mutation.Issue(IssuedEntry(l.table.slots, FirstFree(l.table.slots).value, wall, ttl, note))) else None
    case Renew(wall, k, ttl) =>
      if TtlValid(ttl) && Renewable(l, k, wall) then Some(P.Mutation.Renew(k, wall + ttl)) else None
    case Revoke(wall, k) =>
      if IsActive(l.table.slots, k) && k in l.table.cold then Some(P.Mutation.Revoke(k, wall)) else None
    case Authenticate(_, _) | Tick(_) | Collect(_) | Wipe(_) => None
  }

  lemma IssueMirror(l: Life, high: seq<nat>, p: P.Snapshot, i: nat, ttl: nat, note: Option<string>)
    requires Coherent(l) && Mirror(l, high, p) && i < |l.table.slots| && l.table.slots[i].state == Free && TtlValid(ttl)
    requires l.now < l.wall + ttl && l.wall + ttl + RETENTION <= l.now + l.reach
    ensures var m := P.Mutation.Issue(IssuedEntry(l.table.slots, i, l.wall, ttl, note));
            P.Apply(p, m).Ok? && Mirror(DoIssue(l, i, l.wall + ttl, l.wall, note), high, P.Apply(p, m).value)
  {
    var e := IssuedEntry(l.table.slots, i, l.wall, ttl, note);
    var l', p' := DoIssue(l, i, l.wall + ttl, l.wall, note), P.Apply(p, P.Mutation.Issue(e)).value;
    IssueCoherent(l, i, l.wall + ttl, l.wall, note);
    P.IssueGenerations(p.generations, e.key);
    P.WithoutKeeps(p.entries, i);
    forall s: nat
      ensures MirrorSlot(l', high, p', s)
    {
      assert MirrorSlot(l, high, p, s);
      P.WithoutAt(p.entries, i, s);
      assert p'.entries[..|p'.entries| - 1] == P.Without(p.entries, i);
    }
  }

  /** An active key has exactly one stored entry, so replay finds it. */
  lemma StoredKey(l: Life, high: seq<nat>, p: P.Snapshot, k: KeyId)
    requires Mirror(l, high, p) && IsActive(l.table.slots, k)
    ensures P.IndexOf(p.entries, k).Some?
    ensures P.At(p.entries, k.slot) == Some(p.entries[P.IndexOf(p.entries, k).value])
  {
    assert MirrorSlot(l, high, p, k.slot);
    P.AtMember(p.entries, k.slot);
    var i :| 0 <= i < |p.entries| && p.entries[i] == P.At(p.entries, k.slot).value;
    assert p.entries[i].key == k;
    P.AtIndex(p.entries, P.IndexOf(p.entries, k).value);
  }

  lemma UpdateMirror(l: Life, l': Life, high: seq<nat>, p: P.Snapshot, k: KeyId, e: P.Entry)
    requires Mirror(l, high, p) && IsActive(l.table.slots, k) && e.key == k && e.state != Free
    requires e.state == Active ==> e.expiresAt <= l'.wall + MAX_TTL
    requires |l'.table.slots| == |l.table.slots| && l'.wall == l.wall
    requires l'.table.slots[k.slot].generation == k.generation && RowMirrors(l', Some(e), k.slot)
    requires forall s | 0 <= s < |l.table.slots| && s != k.slot :: l'.table.slots[s] == l.table.slots[s]
    requires forall j: KeyId | j.slot != k.slot && j in l.table.cold :: j in l'.table.cold && l'.table.cold[j] == l.table.cold[j]
    requires forall j: KeyId | j.slot != k.slot && j in l.retireAt :: j in l'.retireAt && l'.retireAt[j] == l.retireAt[j]
    ensures P.IndexOf(p.entries, k).Some?
    ensures Mirror(l', high, p.(entries := p.entries[P.IndexOf(p.entries, k).value := e]))
  {
    StoredKey(l, high, p, k);
    var i := P.IndexOf(p.entries, k).value;
    var p' := p.(entries := p.entries[i := e]);
    forall s: nat
      ensures MirrorSlot(l', high, p', s)
    {
      assert MirrorSlot(l, high, p, s);
      P.UpdateAt(p.entries, i, e, s);
      assert MirrorSlot(l, high, p, k.slot);
    }
  }

  lemma RenewMirror(l: Life, high: seq<nat>, p: P.Snapshot, k: KeyId, ttl: nat)
    requires Coherent(l) && Mirror(l, high, p) && Renewable(l, k, l.wall) && TtlValid(ttl)
    requires l.now < l.wall + ttl && l.wall + ttl + RETENTION <= l.now + l.reach
    ensures var m := P.Mutation.Renew(k, l.wall + ttl);
            P.Apply(p, m).Ok? && Mirror(DoRenew(l, k, l.wall + ttl), high, P.Apply(p, m).value)
  {
    StoredKey(l, high, p, k);
    assert MirrorSlot(l, high, p, k.slot);
    assert Agrees(l, k);
    var was := p.entries[P.IndexOf(p.entries, k).value];
    var e := was.(expiresAt := l.wall + ttl, state := Active, tombstonedAt := None);
    UpdateMirror(l, DoRenew(l, k, l.wall + ttl), high, p, k, e);
  }

  lemma RevokeMirror(l: Life, high: seq<nat>, p: P.Snapshot, k: KeyId)
    requires Coherent(l) && Mirror(l, high, p) && IsActive(l.table.slots, k)
    ensures var m := P.Mutation.Revoke(k, l.wall);
            P.Apply(p, m).Ok? && Mirror(DoRevoke(l, k), high, P.Apply(p, m).value)
  {
    StoredKey(l, high, p, k);
    RevokeCoherent(l, k);
    var e := p.entries[P.IndexOf(p.entries, k).value].(state := Revoked, tombstonedAt := Some(l.wall));
    UpdateMirror(l, DoRevoke(l, k), high, p, k, e);
  }

  // ---- compaction ----

  /** Entries kept for slots beyond the capacity. */
  ghost predicate HighWell(l: Life, high: seq<nat>, highEntries: seq<P.Entry>) {
    P.OnePerSlot(highEntries)
    && forall i | 0 <= i < |highEntries| ::
         var e := highEntries[i];
         |l.table.slots| <= e.key.slot && e.key.generation == GenNow(l.table.slots, high, e.key.slot) && e.state != Free
         && (e.state == Active ==> e.expiresAt <= l.wall + MAX_TTL)
  }

  /** Compaction loses no row: what it writes mirrors the table again. */
  lemma BuildMirror(l: Life, high: seq<nat>, highEntries: seq<P.Entry>, p: P.Snapshot, instance: nat, audits: seq<P.Audit>)
    requires Coherent(l) && Mirror(l, high, p) && HighWell(l, high, highEntries)
    ensures Mirror(l, high, P.Build(l.table.slots, l.table.cold, high, highEntries, instance, audits))
  {
    var b := P.Build(l.table.slots, l.table.cold, high, highEntries, instance, audits);
    P.RowEntriesStored(l.table.slots, l.table.cold);
    BuiltOnce(P.RowEntries(l.table.slots, l.table.cold), highEntries, |l.table.slots|);
    forall s: nat
      ensures MirrorSlot(l, high, b, s)
    {
      BuildSlot(l, high, highEntries, p, instance, audits, s);
    }
  }

  lemma BuiltOnce(rows: seq<P.Entry>, highEntries: seq<P.Entry>, n: nat)
    requires P.OnePerSlot(rows) && P.OnePerSlot(highEntries)
    requires forall e | e in rows :: e.key.slot < n
    requires forall i | 0 <= i < |highEntries| :: n <= highEntries[i].key.slot
    ensures P.OnePerSlot(rows + highEntries)
  {
  }

  lemma BuildSlot(l: Life, high: seq<nat>, highEntries: seq<P.Entry>, p: P.Snapshot, instance: nat, audits: seq<P.Audit>, s: nat)
    requires Coherent(l) && Mirror(l, high, p) && HighWell(l, high, highEntries)
    ensures MirrorSlot(l, high, P.Build(l.table.slots, l.table.cold, high, highEntries, instance, audits), s)
  {
    assert MirrorSlot(l, high, p, s);
    P.RowEntriesAt(l.table.slots, l.table.cold, s);
    P.AtConcat(P.RowEntries(l.table.slots, l.table.cold), highEntries, s);
    P.AtMember(highEntries, s);
    if s < |l.table.slots| {
      assert Agrees(l, KeyOf(l.table.slots, s));
    }
  }

  /** A reset or a rotation writes no entry and keeps every generation. */
  lemma WipeMirror(l: Life, high: seq<nat>, instance: nat, audits: seq<P.Audit>)
    requires Coherent(l)
    ensures Mirror(DoWipe(l, l.wall), high, P.Snapshot(instance, P.GenerationsOf(l.table.slots) + high, [], audits))
  {
    WipeCoherent(l);
    var w, p := DoWipe(l, l.wall), P.Snapshot(instance, P.GenerationsOf(l.table.slots) + high, [], audits);
    forall s: nat
      ensures MirrorSlot(w, high, p, s)
    {
    }
  }

  // ---- a start ----

  lemma NormalMirror(l: Life, high: seq<nat>, p: P.Snapshot, now: nat)
    requires Mirror(l, high, p)
    ensures Mirror(l, high, P.Normal(p, now))
  {
    forall s: nat
      ensures MirrorSlot(l, high, P.Normal(p, now), s)
    {
      assert MirrorSlot(l, high, p, s);
      P.NormalAt(p.entries, p.audits, now, s);
    }
  }

  /** The table a start builds from a mirror: every unexpired active key, and no other. */
  lemma StartedMeans(l: Life, high: seq<nat>, p: P.Snapshot, capacity: nat, now: nat, s: nat)
    requires Mirror(l, high, p) && l.wall <= now && s < capacity
    ensures var t := P.Started(p, capacity, now);
            var e := P.At(p.entries, s);
            |t.slots| == capacity && t.cancel == map[] && t.slots[s].generation == P.GenOf(p.generations, s)
            && t.slots[s] == (match e
                              case None => Slot(P.GenOf(p.generations, s), Free, 0)
                              case Some(e) => Slot(P.GenOf(p.generations, s), P.StartState(e, now), e.expiresAt))
            && (forall k | k in t.cold && k.slot == s :: e.Some? && k == e.value.key)
            && (e.Some? ==> e.value.key in t.cold && t.cold[e.value.key] == P.StartCold(e.value, now))
  {
    forall i | 0 <= i < |p.entries|
      ensures p.entries[i].state != Free && P.GenOf(p.generations, p.entries[i].key.slot) == p.entries[i].key.generation
    {
      assert MirrorSlot(l, high, p, p.entries[i].key.slot);
      P.AtIndex(p.entries, i);
    }
    P.StartedRow(p.entries, p.generations, capacity, now, s);
  }

  lemma StartedLoaded(l: Life, high: seq<nat>, p: P.Snapshot, capacity: nat, now: nat)
    requires Mirror(l, high, p) && l.wall <= now
    ensures R.Loaded(P.Started(p, capacity, now), now) && |P.Started(p, capacity, now).slots| == capacity
  {
    var t := P.Started(p, capacity, now);
    P.StartedGeneration(p.entries, p.generations, capacity, now, 0);
    forall k
      ensures R.LoadedKey(t, now, k)
    {
      assert MirrorSlot(l, high, p, k.slot);
      P.StartedGeneration(p.entries, p.generations, capacity, now, k.slot);
      if k.slot < capacity {
        StartedMeans(l, high, p, capacity, now, k.slot);
      } else {
        StartedCancel(p, capacity, now);
      }
    }
  }

  lemma StartedCancel(p: P.Snapshot, capacity: nat, now: nat)
    ensures P.Started(p, capacity, now).cancel == map[]
  {
    InstalledCancel(P.EmptyTable(p.generations, capacity), p.entries, now);
  }

  lemma {:induction false} InstalledCancel(t: Table, entries: seq<P.Entry>, now: nat)
    ensures P.InstallAll(t, entries, now).cancel == t.cancel
  {
    if entries != [] {
      InstalledCancel(t, entries[..|entries| - 1], now);
    }
  }

  ghost function Reborn(p: P.Snapshot, capacity: nat, now: nat, reach: nat): Life {
    R.Restored(P.Started(p, capacity, now), now, reach)
  }

  function HighOf(p: P.Snapshot, capacity: nat): seq<nat> {
    if capacity <= |p.generations| then p.generations[capacity..] else []
  }

  /** A start's life mirrors what it was started from. */
  lemma RebornMirror(l: Life, high: seq<nat>, p: P.Snapshot, capacity: nat, now: nat)
    requires Mirror(l, high, p) && l.wall <= now && MAX_SCHEDULABLE <= l.reach && capacity <= |p.generations|
    ensures Coherent(Reborn(p, capacity, now, l.reach))
    ensures Mirror(Reborn(p, capacity, now, l.reach), HighOf(p, capacity), p)
    ensures |Reborn(p, capacity, now, l.reach).table.slots| == capacity
  {
    var t, r := P.Started(p, capacity, now), Reborn(p, capacity, now, l.reach);
    StartedLoaded(l, high, p, capacity, now);
    R.RestoredCoherent(t, now, l.reach);
    forall s: nat
      ensures MirrorSlot(r, HighOf(p, capacity), p, s)
    {
      assert MirrorSlot(l, high, p, s);
      if s < capacity {
        StartedMeans(l, high, p, capacity, now, s);
        RebornRow(t, now, l.reach, KeyOf(t.slots, s));
      }
    }
  }

  lemma RebornRow(t: Table, now: nat, reach: nat, k: KeyId)
    requires R.Loaded(t, now) && MAX_SCHEDULABLE <= reach && k.slot < |t.slots| && k == KeyOf(t.slots, k.slot)
    ensures var r := R.Restored(t, now, reach);
            |r.table.slots| == |t.slots| && r.table.slots[k.slot].generation == k.generation
            && (IsActive(r.table.slots, k) <==> IsActive(t.slots, k))
            && (IsActive(t.slots, k) ==>
                  r.table.slots[k.slot] == t.slots[k.slot] && k in r.table.cold && k in t.cold && r.table.cold[k] == t.cold[k]
                  && k in r.retireAt && r.retireAt[k] == t.slots[k.slot].expiresAt)
  {
    R.RestoredCoherent(t, now, reach);
    var r := R.Restored(t, now, reach);
    assert R.Scheduled(r, t, now, k, k in UsedKeys(t.slots));
    assert R.LoadedKey(t, now, k);
  }

  /** Recovery keeps an active key exactly when it has not expired, with everything about it. */
  ghost predicate Recovered(l: Life, r: Life, now: nat, k: KeyId) {
    (IsActive(r.table.slots, k) <==> IsActive(l.table.slots, k) && now < l.table.slots[k.slot].expiresAt)
    && (IsActive(r.table.slots, k) ==>
          r.table.slots[k.slot] == l.table.slots[k.slot]
          && k in l.table.cold && k in r.table.cold
          && r.table.cold[k].issuedAt == l.table.cold[k].issuedAt && r.table.cold[k].note == l.table.cold[k].note)
  }

  lemma RebornRecovers(l: Life, high: seq<nat>, p: P.Snapshot, now: nat, k: KeyId)
    requires Mirror(l, high, p) && l.wall <= now && MAX_SCHEDULABLE <= l.reach && |l.table.slots| <= |p.generations|
    ensures Recovered(l, Reborn(p, |l.table.slots|, now, l.reach), now, k)
    ensures P.GenerationsOf(Reborn(p, |l.table.slots|, now, l.reach).table.slots) == P.GenerationsOf(l.table.slots)
  {
    var capacity := |l.table.slots|;
    var t := P.Started(p, capacity, now);
    StartedLoaded(l, high, p, capacity, now);
    RebornMirror(l, high, p, capacity, now);
    var r := Reborn(p, capacity, now, l.reach);
    forall s | 0 <= s < capacity
      ensures r.table.slots[s].generation == l.table.slots[s].generation
    {
      assert MirrorSlot(l, high, p, s);
      assert MirrorSlot(r, HighOf(p, capacity), p, s);
    }
    if k.slot < capacity {
      assert MirrorSlot(l, high, p, k.slot);
      StartedMeans(l, high, p, capacity, now, k.slot);
      RebornRow(t, now, l.reach, KeyOf(t.slots, k.slot));
    }
  }
}
