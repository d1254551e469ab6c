/**
How long a dead key keeps its row across restarts.

A row expired at `e` is freed at `e` plus the retention, and one revoked at `t` at `t` plus
the retention, whatever is compacted and restarted in between: the time of a revocation is
in its log record, and once that is compacted away in the audit trail, as long as the trail
still reaches back to it.
*/
module Tombstones {
  import opened Wrappers
  import opened Lifecycle
  import opened KeyLives
  import opened Recovery
  import opened ActorRuns
  import R = Restore
  import P = Persistence

  // ---- what the store says of dead rows ----

  /** A stored time of death is behind the clock, and that of an expired key is its expiry. */
  ghost predicate EntryWell(e: P.Entry, wall: nat) {
    e.expiresAt > 0
    && (e.state == Active ==> e.tombstonedAt == None)
    && (e.state == Expired ==> e.expiresAt <= wall && (e.tombstonedAt == None || e.tombstonedAt == Some(e.expiresAt)))
    && (e.tombstonedAt.Some? ==> e.tombstonedAt.value <= wall)
  }

  ghost predicate EntriesWell(entries: seq<P.Entry>, wall: nat) {
    forall e | e in entries :: EntryWell(e, wall)
  }

  ghost predicate AuditsWell(audits: seq<P.Audit>, wall: nat) {
    |audits| <= P.AUDIT_CAPACITY && forall a | a in audits :: a.at <= wall
  }

  /** The metadata of a row in use: no time of death while active, its expiry once expired. */
  ghost predicate RowWell(l: Life, s: nat) {
    s < |l.table.slots| && l.table.slots[s].state != Free ==>
      var row, k := l.table.slots[s], KeyOf(l.table.slots, s);
      row.expiresAt > 0 && k in l.table.cold
      && (row.state == Active ==> l.table.cold[k].tombstonedAt == 0)
      && (row.state == Expired ==> row.expiresAt <= l.wall && l.table.cold[k].tombstonedAt == row.expiresAt)
      && l.table.cold[k].tombstonedAt <= l.wall
  }

  /** The stored entry of a dead row. */
  ghost predicate StoredWell(l: Life, e: Option<P.Entry>, s: nat) {
    s < |l.table.slots| && l.table.slots[s].state != Free && KeyOf(l.table.slots, s) in l.table.cold ==>
      var row, k := l.table.slots[s], KeyOf(l.table.slots, s);
      (row.state == Expired ==> e.Some? && e.value.key == k && e.value.state != Revoked && e.value.expiresAt == row.expiresAt)
      && (row.state == Revoked ==>
            e.Some? && e.value.key == k && e.value.state == Revoked
            && (l.table.cold[k].tombstonedAt != 0 ==> e.value.tombstonedAt == Some(l.table.cold[k].tombstonedAt)))
  }

  ghost function Store(a: Actor): P.Snapshot
    requires P.Load(a.disk, a.instance, 0).Ok?
  {
    P.Load(a.disk, a.instance, 0).value
  }

  ghost predicate RecordedIn(a: Actor, p: P.Snapshot) {
    EntriesWell(p.entries, a.life.wall) && EntriesWell(a.highEntries, a.life.wall)
    && p.audits == a.audits && AuditsWell(a.audits, a.life.wall)
    && (forall s: nat :: RowWell(a.life, s))
    && forall s: nat :: StoredWell(a.life, P.At(p.entries, s), s)
  }

  /** Every dead row's time of death is on disk, or in the audit trail. */
  ghost predicate Recorded(a: Actor) {
    P.Load(a.disk, a.instance, 0).Ok? && RecordedIn(a, Store(a))
  }

  // ---- callbacks ----

  lemma RunDueRows(l: Life, t: nat, retire: set<KeyId>, reap: set<KeyId>, p: P.Snapshot, high: seq<nat>, s: nat)
    requires Coherent(l) && Mirror(l, high, p) && RowWell(l, s) && StoredWell(l, P.At(p.entries, s), s) && l.now <= t <= l.wall
    requires forall k | k in retire && IsActive(l.table.slots, k) :: l.table.slots[k.slot].expiresAt <= l.wall
    ensures var l' := RunDue(l.(now := t), retire, reap);
            RowWell(l', s) && StoredWell(l', P.At(p.entries, s), s)
  {
    var l' := RunDue(l.(now := t), retire, reap);
    if s < |l.table.slots| {
      var k := KeyOf(l.table.slots, s);
      assert Agrees(l, k);
      assert MirrorSlot(l, high, p, s);
      assert l'.table.slots[s] == SettledSlot(l.table.slots, s, retire, reap);
      SettledKey(l.table, retire, reap, k);
      assert KeyOf(l'.table.slots, s) == k;
    }
  }

  // ---- operations ----

  lemma TickRows(l: Life, t: nat, p: P.Snapshot, high: seq<nat>, s: nat)
    requires Coherent(l) && Mirror(l, high, p) && RowWell(l, s) && StoredWell(l, P.At(p.entries, s), s) && l.now <= t <= l.wall
    ensures RowWell(Advance(l, t), s) && StoredWell(Advance(l, t), P.At(p.entries, s), s)
  {
    AdvanceMeans(l, t);
    var retire := DueBy(l.retireAt, t);
    forall k | k in retire && IsActive(l.table.slots, k)
      ensures l.table.slots[k.slot].expiresAt <= l.wall
    {
      assert MirrorSlot(l, high, p, k.slot);
    }
    RunDueRows(l, t, retire, DueBy(l.reapAt, t), p, high, s);
  }

  lemma CollectRows(l: Life, p: P.Snapshot, high: seq<nat>, s: nat)
    requires Coherent(l) && Mirror(l, high, p) && RowWell(l, s) && StoredWell(l, P.At(p.entries, s), s)
    ensures RowWell(DoCollect(l, l.wall), s)
  {
    var due := Collectable(l.table.slots, l.wall);
    assert l.(now := l.now) == l;
    RunDueRows(l, l.now, due * l.retireAt.Keys, due * l.reapAt.Keys, p, high, s);
  }

  lemma LaterWell(a: Actor, wall: nat)
    requires Recorded(a) && a.life.wall <= wall
    ensures Recorded(a.(life := a.life.(wall := wall)))
  {
    var b := a.(life := a.life.(wall := wall));
    forall s: nat
      ensures RowWell(b.life, s) && StoredWell(b.life, P.At(Store(a).entries, s), s)
    {
      assert RowWell(a.life, s) && StoredWell(a.life, P.At(Store(a).entries, s), s);
    }
  }

  lemma PushWell(audits: seq<P.Audit>, audit: P.Audit, wall: nat)
    requires AuditsWell(audits, wall) && audit.at <= wall
    ensures AuditsWell(P.PushAudit(audits, audit), wall)
  {
  }

  lemma IssueRows(l: Life, high: seq<nat>, p: P.Snapshot, i: nat, ttl: nat, note: Option<string>, s: nat)
    requires Coherent(l) && Mirror(l, high, p) && i < |l.table.slots| && l.table.slots[i].state == Free && TtlValid(ttl)
    requires l.now < l.wall + ttl && l.wall + ttl + RETENTION <= l.now + l.reach
    requires RowWell(l, s) && StoredWell(l, P.At(p.entries, s), s) && EntriesWell(p.entries, l.wall)
    ensures KeptBy(DoIssue(l, i, l.wall + ttl, l.wall, note), p, P.Mutation.Issue(IssuedEntry(l.table.slots, i, l.wall, ttl, note)), s)
  {
    var e := IssuedEntry(l.table.slots, i, l.wall, ttl, note);
    var p' := P.Apply(p, P.Mutation.Issue(e)).value;
    IssueCoherent(l, i, l.wall + ttl, l.wall, note);
    P.WithoutKeeps(p.entries, i);
    P.WithoutAt(p.entries, i, s);
    assert p'.entries[..|p'.entries| - 1] == P.Without(p.entries, i);
  }

  lemma UpdateRows(l: Life, l': Life, high: seq<nat>, p: P.Snapshot, k: KeyId, e: P.Entry, s: nat)
    requires Mirror(l, high, p) && IsActive(l.table.slots, k) && e.key == k && EntryWell(e, l.wall) && l'.wall == l.wall
    requires RowWell(l, s) && StoredWell(l, P.At(p.entries, s), s) && EntriesWell(p.entries, l.wall)
    requires |l'.table.slots| == |l.table.slots| && l'.table.cold == l.table.cold
    requires forall j | 0 <= j < |l.table.slots| && j != k.slot :: l'.table.slots[j] == l.table.slots[j]
    requires RowWell(l', k.slot) && StoredWell(l', Some(e), k.slot)
    ensures P.IndexOf(p.entries, k).Some?
    ensures var entries := p.entries[P.IndexOf(p.entries, k).value := e];
            RowWell(l', s) && StoredWell(l', P.At(entries, s), s) && EntriesWell(entries, l.wall)
  {
    StoredKey(l, high, p, k);
    var i := P.IndexOf(p.entries, k).value;
    P.UpdateAt(p.entries, i, e, s);
  }

  lemma RenewRows(l: Life, high: seq<nat>, p: P.Snapshot, k: KeyId, ttl: nat, s: nat)
    requires Coherent(l) && Mirror(l, high, p) && Renewable(l, k, l.wall) && TtlValid(ttl)
    requires RowWell(l, s) && RowWell(l, k.slot) && StoredWell(l, P.At(p.entries, s), s) && EntriesWell(p.entries, l.wall)
    ensures KeptBy(DoRenew(l, k, l.wall + ttl), p, P.Mutation.Renew(k, l.wall + ttl), s)
  {
    StoredKey(l, high, p, k);
    var was := p.entries[P.IndexOf(p.entries, k).value];
    assert was in p.entries;
    UpdateRows(l, DoRenew(l, k, l.wall + ttl), high, p, k, was.(expiresAt := l.wall + ttl, state := Active, tombstonedAt := None), s);
  }

  lemma RevokeRows(l: Life, high: seq<nat>, p: P.Snapshot, k: KeyId, s: nat)
    requires Coherent(l) && Mirror(l, high, p) && IsActive(l.table.slots, k)
    requires RowWell(l, s) && RowWell(l, k.slot) && StoredWell(l, P.At(p.entries, s), s) && EntriesWell(p.entries, l.wall)
    ensures KeptBy(DoRevoke(l, k), p, P.Mutation.Revoke(k, l.wall), s)
  {
    StoredKey(l, high, p, k);
    RevokeCoherent(l, k);
    var was := p.entries[P.IndexOf(p.entries, k).value];
    assert was in p.entries;
    UpdateRows(l, DoRevoke(l, k), high, p, k, was.(state := Revoked, tombstonedAt := Some(l.wall)), s);
  }

  /** The row and its stored entry are well kept after a mutation, as is what it stores. */
  ghost predicate KeptBy(l': Life, p: P.Snapshot, m: P.Mutation, s: nat) {
    P.Apply(p, m).Ok? && P.Apply(p, m).value.audits == p.audits && EntriesWell(P.Apply(p, m).value.entries, l'.wall)
    && RowWell(l', s) && StoredWell(l', P.At(P.Apply(p, m).value.entries, s), s)
  }

  lemma LoggedRows(l: Life, high: seq<nat>, p: P.Snapshot, op: Op, s: nat)
    requires Coherent(l) && Mirror(l, high, p) && Legal(l, op) && l.wall == op.wall && Logged(l, op).Some?
    requires (forall j: nat :: RowWell(l, j)) && StoredWell(l, P.At(p.entries, s), s) && EntriesWell(p.entries, l.wall)
    ensures KeptBy(Step(l, op), p, Logged(l, op).value, s)
  {
    assert l.(wall := op.wall) == l;
    match op
    case Issue(wall, ttl, note) => IssueRows(l, high, p, FirstFree(l.table.slots).value, ttl, note, s);
    case Renew(wall, k, ttl) => RenewRows(l, high, p, k, ttl, s);
    case Revoke(wall, k) => RevokeRows(l, high, p, k, s);
  }

  /** An operation that logs nothing leaves the rows as well kept as they were. */
  lemma UnloggedRows(l: Life, high: seq<nat>, p: P.Snapshot, op: Op, s: nat)
    requires Coherent(l) && Mirror(l, high, p) && Legal(l, op) && l.wall == op.wall && Logged(l, op).None? && !op.Collect? && !op.Wipe?
    requires RowWell(l, s) && StoredWell(l, P.At(p.entries, s), s)
    ensures RowWell(Step(l, op), s) && StoredWell(Step(l, op), P.At(p.entries, s), s)
  {
    assert l.(wall := op.wall) == l;
    if op.Tick? {
      TickRows(l, op.wall, p, high, s);
    }
  }

  lemma HighWellStays(entries: seq<P.Entry>, earlier: nat, wall: nat)
    requires EntriesWell(entries, earlier) && earlier <= wall
    ensures EntriesWell(entries, wall)
  {
  }

  lemma LoggedRecorded(a: Actor, op: Op)
    requires Sound(a) && LegalCommand(a, Act(op)) && Recorded(a) && Logged(a.life, op).Some? && a.life.wall == op.wall
    ensures Recorded(Acted(a, op))
  {
    var b := Acted(a, op);
    assert MirrorsAt(a, 0);
    var p := Store(a);
    var m := Logged(a.life, op).value;
    P.LoadLogged(a.disk, a.instance, 0, P.Mutated(m, AuditOf(op, m)));
    PushWell(a.audits, AuditOf(op, m), op.wall);
    LoggedRows(a.life, a.high, p, op, 0);
    StepCoherent(a.life, op);
    var entries := P.Apply(p, m).value.entries;
    forall s: nat
      ensures RowWell(b.life, s) && StoredWell(b.life, P.At(entries, s), s)
    {
      LoggedRows(a.life, a.high, p, op, s);
    }
  }

  lemma UnloggedRecorded(a: Actor, op: Op)
    requires Sound(a) && LegalCommand(a, Act(op)) && Recorded(a) && Logged(a.life, op).None? && a.life.wall == op.wall
    ensures Recorded(Acted(a, op))
  {
    var b := Acted(a, op);
    assert MirrorsAt(a, 0);
    StepCoherent(a.life, op);
    forall s: nat
      ensures RowWell(b.life, s) && StoredWell(b.life, P.At(Store(a).entries, s), s)
    {
      UnloggedRows(a.life, a.high, Store(a), op, s);
    }
  }

  lemma ActedRecorded(a: Actor, op: Op)
    requires Sound(a) && LegalCommand(a, Act(op)) && Recorded(a)
    ensures Recorded(Acted(a, op))
  {
    LaterSound(a, op.wall);
    LaterWell(a, op.wall);
    var c := a.(life := a.life.(wall := op.wall));
    assert Acted(c, op) == Acted(a, op);
    if Logged(c.life, op).Some? {
      LoggedRecorded(c, op);
    } else {
      UnloggedRecorded(c, op);
    }
  }

  lemma NotedRecorded(a: Actor, at: nat, key: Option<KeyId>)
    requires Sound(a) && a.life.wall <= at && Recorded(a)
    ensures Recorded(Noted(a, at, key))
  {
    LaterWell(a, at);
    P.LoadLogged(a.disk, a.instance, 0, P.Audited(P.Audit(at, P.Other, key)));
    PushWell(a.audits, P.Audit(at, P.Other, key), at);
  }

  // ---- compaction ----

  lemma BuiltEntries(l: Life, highEntries: seq<P.Entry>)
    requires (forall s: nat :: RowWell(l, s)) && EntriesWell(highEntries, l.wall)
    ensures EntriesWell(P.RowEntries(l.table.slots, l.table.cold) + highEntries, l.wall)
  {
    P.RowEntriesStored(l.table.slots, l.table.cold);
    forall e | e in P.RowEntries(l.table.slots, l.table.cold)
      ensures EntryWell(e, l.wall)
    {
      assert RowWell(l, e.key.slot);
    }
  }

  lemma BuiltSlot(l: Life, high: seq<nat>, highEntries: seq<P.Entry>, s: nat)
    requires HighWell(l, high, highEntries) && RowWell(l, s)
    ensures StoredWell(l, P.At(P.RowEntries(l.table.slots, l.table.cold) + highEntries, s), s)
  {
    P.RowEntriesAt(l.table.slots, l.table.cold, s);
    P.AtConcat(P.RowEntries(l.table.slots, l.table.cold), highEntries, s);
    P.AtMember(highEntries, s);
  }

  /** What compaction writes records every death the table knows the time of. */
  lemma CompactedRecorded(a: Actor)
    requires HighWell(a.life, a.high, a.highEntries) && EntriesWell(a.highEntries, a.life.wall) && AuditsWell(a.audits, a.life.wall)
    requires forall s: nat :: RowWell(a.life, s)
    ensures Recorded(a.(disk := Compacted(a, a.audits)))
  {
    BuiltEntries(a.life, a.highEntries);
    forall s: nat
      ensures StoredWell(a.life, P.At(P.RowEntries(a.life.table.slots, a.life.table.cold) + a.highEntries, s), s)
    {
      BuiltSlot(a.life, a.high, a.highEntries, s);
    }
  }

  lemma CollectedRecorded(a: Actor, at: nat)
    requires Sound(a) && a.life.wall <= at && Recorded(a)
    ensures Recorded(Collected(a, at))
  {
    LaterSound(a, at);
    LaterWell(a, at);
    var c := a.(life := a.life.(wall := at));
    assert MirrorsAt(c, 0);
    CollectCoherent(c.life);
    var audits := P.PushAudit(a.audits, P.Audit(at, P.Other, None));
    var b := a.(life := DoCollect(c.life, at), audits := audits);
    PushWell(a.audits, P.Audit(at, P.Other, None), at);
    SameHigh(c, b);
    forall s: nat
      ensures RowWell(b.life, s)
    {
      CollectRows(c.life, Store(a), a.high, s);
    }
    CompactedRecorded(b);
    assert Collected(a, at) == b.(disk := Compacted(b, audits));
  }

  lemma EmptiedRecorded(a: Actor, at: nat, instance: nat)
    requires Sound(a) && a.life.wall <= at && Recorded(a)
    ensures Recorded(Emptied(a, at, instance))
  {
    LaterWallCoherent(a.life, at);
    WipeCoherent(a.life.(wall := at));
    PushWell(a.audits, P.Audit(at, P.Other, None), at);
    var b := Emptied(a, at, instance);
    forall s: nat
      ensures RowWell(b.life, s) && StoredWell(b.life, P.At([], s), s)
    {
    }
  }

  // ---- a start ----

  lemma {:induction false} RevokedAtIn(audits: seq<P.Audit>, k: KeyId)
    ensures P.RevokedAt(audits, k).Some? ==> exists a :: a in audits && a.at == P.RevokedAt(audits, k).value
  {
    if audits != [] {
      var n := |audits| - 1;
      RevokedAtIn(audits[..n], k);
      assert audits[n] in audits;
    }
  }

  /** Every dead entry has a time of death. */
  ghost predicate Timed(e: P.Entry) {
    e.state != Active && e.state != Free ==> e.tombstonedAt.Some?
  }

  lemma NormalWell(entries: seq<P.Entry>, audits: seq<P.Audit>, wall: nat, now: nat)
    requires EntriesWell(entries, wall) && AuditsWell(audits, wall) && wall <= now
    ensures EntriesWell(P.NormalEntries(entries, audits, now), now)
    ensures forall e | e in P.NormalEntries(entries, audits, now) :: Timed(e)
  {
    var normal := P.NormalEntries(entries, audits, now);
    forall e | e in normal
      ensures EntryWell(e, now) && Timed(e)
    {
      var i :| 0 <= i < |normal| && normal[i] == e;
      assert EntryWell(entries[i], wall);
      RevokedAtIn(audits, entries[i].key);
    }
  }

  lemma {:induction false} HighEntriesWell(entries: seq<P.Entry>, capacity: nat, now: nat)
    requires EntriesWell(entries, now)
    ensures EntriesWell(P.HighEntries(entries, capacity, now), now)
  {
    if entries != [] {
      var n := |entries| - 1;
      assert entries[n] in entries;
      HighEntriesWell(entries[..n], capacity, now);
    }
  }

  /** The time a stored entry says its key died, or will. */
  function DiedAt(e: P.Entry): nat {
    if e.state == Active || e.tombstonedAt.None? then e.expiresAt else e.tombstonedAt.value
  }

  /** A row dead since `died`, `at` the time of a start: it waits out the rest of its retention, or is free. */
  ghost predicate DeadRow(l: Life, k: KeyId, state: SlotState, died: nat, at: nat) {
    k.slot < |l.table.slots|
    && if at < died + RETENTION
       then InUse(l.table.slots, k) && l.table.slots[k.slot].state == state && k in l.reapAt && l.reapAt[k] == died + RETENTION
       else !InUse(l.table.slots, k) && l.table.slots[k.slot].state == Free
  }

  ghost predicate RebornAs(r: Life, e: P.Entry, at: nat) {
    if e.state == Active && at < e.expiresAt then
      IsActive(r.table.slots, e.key) && e.key in r.table.cold && r.table.cold[e.key].tombstonedAt == 0
      && r.table.slots[e.key.slot].expiresAt == e.expiresAt
    else
      var died := if DiedAt(e) == 0 then at else DiedAt(e);
      DeadRow(r, e.key, if e.state == Revoked then Revoked else Expired, died, at)
      && (InUse(r.table.slots, e.key) ==>
            r.table.slots[e.key.slot].expiresAt == e.expiresAt && e.key in r.table.cold && r.table.cold[e.key].tombstonedAt == DiedAt(e))
  }

  /** The row a start builds from a stored entry. */
  lemma RebornRowIs(l: Life, high: seq<nat>, q: P.Snapshot, capacity: nat, at: nat, s: nat)
    requires Mirror(l, high, q) && l.wall <= at && MAX_SCHEDULABLE <= l.reach && s < capacity
    requires EntriesWell(q.entries, at) && forall e | e in q.entries :: Timed(e)
    ensures var r := Reborn(q, capacity, at, l.reach);
            |r.table.slots| == capacity
            && match P.At(q.entries, s)
               case None => r.table.slots[s].state == Free
               case Some(e) => e.key.slot == s && r.table.slots[s].generation == e.key.generation && RebornAs(r, e, at)
  {
    var t := P.Started(q, capacity, at);
    var r := Reborn(q, capacity, at, l.reach);
    StartedLoaded(l, high, q, capacity, at);
    StartedMeans(l, high, q, capacity, at, s);
    R.RestoredCoherent(t, at, l.reach);
    P.AtMember(q.entries, s);
    assert MirrorSlot(l, high, q, s);
    var k := KeyOf(t.slots, s);
    assert R.Scheduled(r, t, at, k, k in UsedKeys(t.slots));
    assert R.LoadedKey(t, at, k);
  }

  lemma RebornWell(r: Life, e: Option<P.Entry>, at: nat, s: nat)
    requires s < |r.table.slots| && r.wall == at
    requires match e
             case None => r.table.slots[s].state == Free
             case Some(e) => e.key.slot == s && r.table.slots[s].generation == e.key.generation && e.state != Free && RebornAs(r, e, at) && EntryWell(e, at) && Timed(e)
    ensures RowWell(r, s) && StoredWell(r, e, s)
  {
  }

  lemma RestartedRecorded(a: Actor, at: nat, capacity: nat)
    requires Sound(a) && a.life.wall <= at && Recorded(a)
    ensures Recorded(Restarted(a, at, capacity))
  {
    var b := Restarted(a, at, capacity);
    RestartedSound(a, at, capacity);
    assert MirrorsAt(a, capacity) && MirrorsAt(b, 0);
    var p := P.Load(a.disk, a.instance, capacity).value;
    var q := P.Normal(p, at);
    P.LoadSame(a.disk, a.instance, 0, capacity);
    P.LoadCovers(a.disk, a.instance, capacity);
    NormalWell(p.entries, p.audits, a.life.wall, at);
    NormalMirror(a.life, a.high, p, at);
    HighEntriesWell(q.entries, capacity, at);
    assert Store(b).entries == q.entries && Store(b).audits == q.audits by {
      if q == p {
        P.LoadSame(a.disk, a.instance, 0, capacity);
      }
    }
    forall s: nat
      ensures RowWell(b.life, s) && StoredWell(b.life, P.At(q.entries, s), s)
    {
      if s < capacity {
        RebornRowIs(a.life, a.high, q, capacity, at, s);
        assert MirrorSlot(a.life, a.high, q, s);
        P.AtMember(q.entries, s);
        RebornWell(b.life, P.At(q.entries, s), at, s);
      }
    }
  }

  lemma StepRecorded(a: Actor, c: Command)
    requires Sound(a) && LegalCommand(a, c) && Recorded(a)
    ensures Recorded(StepActor(a, c))
  {
    match c
    case Act(op) => ActedRecorded(a, op);
    case Gc(at) => CollectedRecorded(a, at);
    case Note(at, key) => NotedRecorded(a, at, key);
    case Compact(at) =>
      LaterWell(a, at);
      LaterSound(a, at);
      CompactedRecorded(a.(life := a.life.(wall := at)));
    case Reset(at, instance) => EmptiedRecorded(a, at, instance);
    case Rotate(at) => EmptiedRecorded(a, at, a.instance);
    case Restart(at, capacity) => RestartedRecorded(a, at, capacity);
  }

  lemma {:induction false} RunRecorded(a: Actor, run: seq<Command>)
    requires Sound(a) && LegalAll(a, run) && Recorded(a)
    ensures Recorded(AfterAll(a, run)) && Sound(AfterAll(a, run))
  {
    if run != [] {
      RunRecorded(a, run[..|run| - 1]);
      StepRecorded(AfterAll(a, run[..|run| - 1]), run[|run| - 1]);
      StepSound(AfterAll(a, run[..|run| - 1]), run[|run| - 1]);
    }
  }

  lemma FirstStartRecorded(instance: nat, capacity: nat, now: nat, reach: nat)
    requires MAX_SCHEDULABLE <= reach
    ensures Sound(FirstStart(instance, capacity, now, reach)) && Recorded(FirstStart(instance, capacity, now, reach))
  {
    FirstStartSound(instance, capacity, now, reach);
  }

  // ---- what a restart makes of a dead row ----

  /** The entry a restart goes by, its time of death filled in. */
  lemma NormalAtSlot(a: Actor, at: nat, capacity: nat, s: nat)
    requires Sound(a) && Recorded(a)
    ensures P.Load(a.disk, a.instance, capacity).Ok?
    ensures P.At(P.Normal(P.Load(a.disk, a.instance, capacity).value, at).entries, s)
            == match P.At(Store(a).entries, s)
               case None => None
               case Some(e) => Some(P.NormalEntry(e, a.audits, at))
  {
    P.LoadSame(a.disk, a.instance, 0, capacity);
    var p := P.Load(a.disk, a.instance, capacity).value;
    P.NormalAt(p.entries, p.audits, at, s);
  }

  lemma RestartedRow(a: Actor, at: nat, capacity: nat, s: nat)
    requires Sound(a) && Recorded(a) && a.life.wall <= at && s < capacity && P.At(Store(a).entries, s).Some?
    ensures var e := P.NormalEntry(P.At(Store(a).entries, s).value, a.audits, at);
            e.key.slot == s && RebornAs(Restarted(a, at, capacity).life, e, at)
  {
    assert MirrorsAt(a, capacity);
    var p := P.Load(a.disk, a.instance, capacity).value;
    P.LoadSame(a.disk, a.instance, 0, capacity);
    NormalAtSlot(a, at, capacity, s);
    NormalWell(p.entries, p.audits, a.life.wall, at);
    NormalMirror(a.life, a.high, p, at);
    RebornRowIs(a.life, a.high, P.Normal(p, at), capacity, at, s);
  }

  /**
  A row that expired at `e`, or whose expiry `e` the restart finds passed: it stays expired
  until `e` plus the retention, and from then on it is free.
  */
  lemma ExpiredThenRestarted(a: Actor, at: nat, capacity: nat, k: KeyId)
    requires Sound(a) && Recorded(a) && a.life.wall <= at && k.slot < capacity && InUse(a.life.table.slots, k)
    requires var row := a.life.table.slots[k.slot];
             row.state == Expired || (row.state == Active && row.expiresAt <= at)
    ensures DeadRow(Restarted(a, at, capacity).life, k, Expired, a.life.table.slots[k.slot].expiresAt, at)
  {
    var s := k.slot;
    assert MirrorsAt(a, 0) && MirrorSlot(a.life, a.high, Store(a), s) && Agrees(a.life, k);
    assert RowWell(a.life, s) && StoredWell(a.life, P.At(Store(a).entries, s), s);
    P.AtMember(Store(a).entries, s);
    RestartedRow(a, at, capacity, s);
  }

  /** A revoked row, by what is stored of its death: a time, or none but in the audit trail. */
  lemma RevokedRestarted(a: Actor, at: nat, capacity: nat, k: KeyId)
    requires Sound(a) && Recorded(a) && a.life.wall <= at && k.slot < capacity
    requires InUse(a.life.table.slots, k) && a.life.table.slots[k.slot].state == Revoked
    ensures P.At(Store(a).entries, k.slot).Some?
    ensures var e := P.At(Store(a).entries, k.slot).value;
            var known := if e.tombstonedAt.Some? then e.tombstonedAt else P.RevokedAt(a.audits, k);
            var died := if known.Some? && known.value > 0 then known.value else at;
            DeadRow(Restarted(a, at, capacity).life, k, Revoked, died, at)
            && (InUse(Restarted(a, at, capacity).life.table.slots, k) ==>
                  k in Restarted(a, at, capacity).life.table.cold
                  && Restarted(a, at, capacity).life.table.cold[k].tombstonedAt == if known.Some? then known.value else at)
  {
    var s := k.slot;
    assert Agrees(a.life, k);
    assert StoredWell(a.life, P.At(Store(a).entries, s), s);
    RestartedRow(a, at, capacity, s);
  }

  // ---- the audit trail since a revocation ----

  function FromEnd(audits: seq<P.Audit>, d: nat): P.Audit
    requires d < |audits|
  {
    audits[|audits| - 1 - d]
  }

  predicate Revokes(a: P.Audit, k: KeyId) {
    a.action == P.KeyRevoke && a.key == Some(k)
  }

  /** The trail reaches back to the revocation of `k` at `t`, unless `n` records since have filled it. */
  ghost predicate Trail(audits: seq<P.Audit>, k: KeyId, t: nat, n: nat) {
    |audits| <= P.AUDIT_CAPACITY
    && (forall d: nat | d < n && d < |audits| :: !Revokes(FromEnd(audits, d), k))
    && if n < P.AUDIT_CAPACITY then n < |audits| && FromEnd(audits, n) == P.Audit(t, P.KeyRevoke, Some(k))
       else |audits| == P.AUDIT_CAPACITY
  }

  lemma PushFromEnd(audits: seq<P.Audit>, audit: P.Audit, d: nat)
    requires |audits| <= P.AUDIT_CAPACITY && d < |P.PushAudit(audits, audit)|
    ensures d > 0 ==> d - 1 < |audits|
    ensures FromEnd(P.PushAudit(audits, audit), d) == if d == 0 then audit else FromEnd(audits, d - 1)
  {
  }

  lemma TrailStarts(audits: seq<P.Audit>, k: KeyId, t: nat)
    requires |audits| <= P.AUDIT_CAPACITY
    ensures Trail(P.PushAudit(audits, P.Audit(t, P.KeyRevoke, Some(k))), k, t, 0)
  {
  }

  lemma TrailGrows(audits: seq<P.Audit>, audit: P.Audit, k: KeyId, t: nat, n: nat)
    requires Trail(audits, k, t, n) && !Revokes(audit, k)
    ensures Trail(P.PushAudit(audits, audit), k, t, n + 1)
  {
    var after := P.PushAudit(audits, audit);
    forall d: nat | d < n + 1 && d < |after|
      ensures !Revokes(FromEnd(after, d), k)
    {
      PushFromEnd(audits, audit, d);
    }
    if n + 1 < P.AUDIT_CAPACITY {
      PushFromEnd(audits, audit, n + 1);
    }
  }

  /** The latest revocation of `k` in the trail. */
  lemma {:induction false} TrailFinds(audits: seq<P.Audit>, k: KeyId, t: nat, n: nat)
    requires forall d: nat | d < n && d < |audits| :: !Revokes(FromEnd(audits, d), k)
    requires n < |audits| ==> FromEnd(audits, n) == P.Audit(t, P.KeyRevoke, Some(k))
    ensures P.RevokedAt(audits, k) == if n < |audits| then Some(t) else None
  {
    if audits != [] && n > 0 {
      var m := |audits| - 1;
      assert !Revokes(FromEnd(audits, 0), k);
      forall d: nat | d < n - 1 && d < m
        ensures !Revokes(FromEnd(audits[..m], d), k)
      {
        assert FromEnd(audits[..m], d) == FromEnd(audits, d + 1);
      }
      if n - 1 < m {
        assert FromEnd(audits[..m], n - 1) == FromEnd(audits, n);
      }
      TrailFinds(audits[..m], k, t, n - 1);
    }
  }

  // ---- from the revocation to a restart ----

  /** Whether the log has been compacted since, and how many audit records were made. */
  datatype Since = Since(compacted: bool, audits: nat)

  ghost function NotedBy(a: Actor, c: Command, since: Since): Since {
    match c
    case Act(op) => if Logged(a.life, op).Some? then since.(audits := since.audits + 1) else since
    case Gc(_) => Since(true, since.audits + 1)
    case Note(_, _) => since.(audits := since.audits + 1)
    case Compact(_) => since.(compacted := true)
    case _ => since
  }

  ghost function NotedSince(a: Actor, run: seq<Command>): Since {
    if run == [] then Since(false, 0)
    else
      var n := |run| - 1;
      NotedBy(AfterAll(a, run[..n]), run[n], NotedSince(a, run[..n]))
  }

  /** One process, and the row is not freed by it. */
  ghost predicate Stays(a: Actor, run: seq<Command>, k: KeyId) {
    InUse(AfterAll(a, run).life.table.slots, k)
    && (run == [] || (!run[|run| - 1].Restart? && Stays(a, run[..|run| - 1], k)))
  }

  /** A revoked row with its time in the log until a compaction, and in the trail. */
  ghost predicate RevokedSince(a: Actor, k: KeyId, t: nat, since: Since) {
    P.Load(a.disk, a.instance, 0).Ok?
    && InUse(a.life.table.slots, k) && a.life.table.slots[k.slot].state == Revoked
    && k in a.life.table.cold && a.life.table.cold[k].tombstonedAt == 0
    && (P.At(Store(a).entries, k.slot).Some? ==>
          P.At(Store(a).entries, k.slot).value.tombstonedAt == if since.compacted then None else Some(t))
    && Trail(a.audits, k, t, since.audits)
  }

  lemma RevokeStarts(a: Actor, t: nat, k: KeyId)
    requires Sound(a) && Recorded(a) && LegalCommand(a, Act(Revoke(t, k))) && IsActive(a.life.table.slots, k)
    ensures RevokedSince(StepActor(a, Act(Revoke(t, k))), k, t, Since(false, 0))
  {
    var b := StepActor(a, Act(Revoke(t, k)));
    var l := a.life.(wall := t);
    LaterSound(a, t);
    assert MirrorsAt(a.(life := l), 0) && Agrees(a.life, k) && RowWell(a.life, k.slot);
    var p := Store(a);
    var m := P.Mutation.Revoke(k, t);
    StoredKey(l, a.high, p, k);
    RevokeCoherent(l, k);
    P.LoadLogged(a.disk, a.instance, 0, P.Mutated(m, AuditOf(Revoke(t, k), m)));
    var i := P.IndexOf(p.entries, k).value;
    P.UpdateAt(p.entries, i, p.entries[i].(state := Revoked, tombstonedAt := Some(t)), k.slot);
    TrailStarts(a.audits, k, t);
  }

  /** A row that is not active is untouched by a batch of callbacks, or freed. */
  lemma DeadUntouched(t: Table, retire: set<KeyId>, reap: set<KeyId>, k: KeyId)
    requires InUse(t.slots, k) && !IsActive(t.slots, k) && k in t.cold
    ensures var t' := Settled(t, retire, reap);
            InUse(t'.slots, k) ==> t'.slots[k.slot] == t.slots[k.slot] && k in t'.cold && t'.cold[k] == t.cold[k]
  {
    assert Settled(t, retire, reap).slots[k.slot] == SettledSlot(t.slots, k.slot, retire, reap);
  }

  /** What an operation that logs nothing does to a dead row. */
  lemma UnloggedDead(l: Life, op: Op, k: KeyId)
    requires Coherent(l) && Legal(l, op) && l.wall == op.wall && Logged(l, op).None? && !op.Collect? && !op.Wipe?
    requires InUse(l.table.slots, k) && !IsActive(l.table.slots, k)
    ensures k in l.table.cold
    ensures var t' := Step(l, op).table;
            InUse(t'.slots, k) ==> t'.slots[k.slot] == l.table.slots[k.slot] && k in t'.cold && t'.cold[k] == l.table.cold[k]
  {
    assert l.(wall := op.wall) == l;
    assert Agrees(l, k);
    if op.Tick? {
      AdvanceMeans(l, op.wall);
      DeadUntouched(l.table, DueBy(l.retireAt, op.wall), DueBy(l.reapAt, op.wall), k);
    }
  }

  /** What a mutation of another row leaves alone: a dead row and what is stored of it. */
  ghost predicate Spared(l: Life, l': Life, p: P.Snapshot, m: P.Mutation, k: KeyId) {
    k in l.table.cold && InUse(l.table.slots, k) && InUse(l'.table.slots, k) && l'.table.slots[k.slot] == l.table.slots[k.slot]
    && k in l'.table.cold && l'.table.cold[k] == l.table.cold[k]
    && P.Apply(p, m).Ok? && P.At(P.Apply(p, m).value.entries, k.slot) == P.At(p.entries, k.slot)
  }

  lemma IssueSpares(l: Life, high: seq<nat>, p: P.Snapshot, i: nat, ttl: nat, note: Option<string>, k: KeyId)
    requires Coherent(l) && Mirror(l, high, p) && i < |l.table.slots| && l.table.slots[i].state == Free && TtlValid(ttl)
    requires l.now < l.wall + ttl && l.wall + ttl + RETENTION <= l.now + l.reach
    requires InUse(l.table.slots, k)
    ensures Spared(l, DoIssue(l, i, l.wall + ttl, l.wall, note), p, P.Mutation.Issue(IssuedEntry(l.table.slots, i, l.wall, ttl, note)), k)
  {
    var e := IssuedEntry(l.table.slots, i, l.wall, ttl, note);
    assert Agrees(l, k);
    IssueMirror(l, high, p, i, ttl, note);
    IssueCoherent(l, i, l.wall + ttl, l.wall, note);
    P.WithoutAt(p.entries, i, k.slot);
    assert (P.Without(p.entries, i) + [e])[..|P.Without(p.entries, i) + [e]| - 1] == P.Without(p.entries, i);
  }

  lemma RenewSpares(l: Life, high: seq<nat>, p: P.Snapshot, j: KeyId, ttl: nat, k: KeyId)
    requires Coherent(l) && Mirror(l, high, p) && Renewable(l, j, l.wall) && TtlValid(ttl)
    requires InUse(l.table.slots, k) && !IsActive(l.table.slots, k)
    ensures Spared(l, DoRenew(l, j, l.wall + ttl), p, P.Mutation.Renew(j, l.wall + ttl), k)
  {
    assert Agrees(l, k);
    StoredKey(l, high, p, j);
    var i := P.IndexOf(p.entries, j).value;
    P.UpdateAt(p.entries, i, p.entries[i].(expiresAt := l.wall + ttl, state := Active, tombstonedAt := None), k.slot);
  }

  lemma RevokeSpares(l: Life, high: seq<nat>, p: P.Snapshot, j: KeyId, k: KeyId)
    requires Coherent(l) && Mirror(l, high, p) && IsActive(l.table.slots, j)
    requires InUse(l.table.slots, k) && !IsActive(l.table.slots, k)
    ensures Spared(l, DoRevoke(l, j), p, P.Mutation.Revoke(j, l.wall), k)
  {
    assert Agrees(l, k);
    StoredKey(l, high, p, j);
    RevokeCoherent(l, j);
    var i := P.IndexOf(p.entries, j).value;
    P.UpdateAt(p.entries, i, p.entries[i].(state := Revoked, tombstonedAt := Some(l.wall)), k.slot);
  }

  /** An operation that logs a mutation is of another row than a dead one. */
  lemma LoggedDead(l: Life, high: seq<nat>, p: P.Snapshot, op: Op, k: KeyId)
    requires Coherent(l) && Mirror(l, high, p) && Legal(l, op) && l.wall == op.wall && Logged(l, op).Some?
    requires InUse(l.table.slots, k) && !IsActive(l.table.slots, k)
    ensures !Revokes(AuditOf(op, Logged(l, op).value), k) && Spared(l, Step(l, op), p, Logged(l, op).value, k)
  {
    assert l.(wall := op.wall) == l;
    match op
    case Issue(wall, ttl, note) => IssueSpares(l, high, p, FirstFree(l.table.slots).value, ttl, note, k);
    case Renew(wall, j, ttl) => RenewSpares(l, high, p, j, ttl, k);
    case Revoke(wall, j) => RevokeSpares(l, high, p, j, k);
  }

  lemma LoggedSince(a: Actor, op: Op, k: KeyId, t: nat, since: Since)
    requires Sound(a) && LegalCommand(a, Act(op)) && RevokedSince(a, k, t, since) && Logged(a.life, op).Some?
    ensures RevokedSince(Acted(a, op), k, t, NotedBy(a, Act(op), since))
  {
    var l := a.life.(wall := op.wall);
    LaterSound(a, op.wall);
    assert MirrorsAt(a.(life := l), 0);
    var m := Logged(a.life, op).value;
    LoggedDead(l, a.high, Store(a), op, k);
    P.LoadLogged(a.disk, a.instance, 0, P.Mutated(m, AuditOf(op, m)));
    TrailGrows(a.audits, AuditOf(op, m), k, t, since.audits);
  }

  lemma UnloggedSince(a: Actor, op: Op, k: KeyId, t: nat, since: Since)
    requires Sound(a) && LegalCommand(a, Act(op)) && RevokedSince(a, k, t, since) && Logged(a.life, op).None?
    requires InUse(Acted(a, op).life.table.slots, k)
    ensures RevokedSince(Acted(a, op), k, t, NotedBy(a, Act(op), since))
  {
    LaterWallCoherent(a.life, op.wall);
    UnloggedDead(a.life.(wall := op.wall), op, k);
  }

  lemma NoteSince(a: Actor, at: nat, key: Option<KeyId>, k: KeyId, t: nat, since: Since)
    requires Sound(a) && a.life.wall <= at && RevokedSince(a, k, t, since)
    ensures RevokedSince(StepActor(a, Note(at, key)), k, t, NotedBy(a, Note(at, key), since))
  {
    P.LoadLogged(a.disk, a.instance, 0, P.Audited(P.Audit(at, P.Other, key)));
    TrailGrows(a.audits, P.Audit(at, P.Other, key), k, t, since.audits);
  }

  lemma CompactSince(a: Actor, at: nat, k: KeyId, t: nat, since: Since)
    requires Sound(a) && Recorded(a) && a.life.wall <= at && RevokedSince(a, k, t, since)
    ensures RevokedSince(StepActor(a, Compact(at)), k, t, NotedBy(a, Compact(at), since))
  {
    var rows := P.RowEntries(a.life.table.slots, a.life.table.cold);
    P.RowEntriesAt(a.life.table.slots, a.life.table.cold, k.slot);
    P.AtConcat(rows, a.highEntries, k.slot);
    P.AtMember(a.highEntries, k.slot);
  }

  lemma SinceStep(a: Actor, c: Command, k: KeyId, t: nat, since: Since)
    requires Sound(a) && Recorded(a) && LegalCommand(a, c) && !c.Restart? && RevokedSince(a, k, t, since)
    requires InUse(StepActor(a, c).life.table.slots, k)
    ensures RevokedSince(StepActor(a, c), k, t, NotedBy(a, c, since))
  {
    if c.Act? {
      if Logged(a.life, c.op).Some? {
        LoggedSince(a, c.op, k, t, since);
      } else {
        UnloggedSince(a, c.op, k, t, since);
      }
    } else if c.Note? {
      NoteSince(a, c.at, c.key, k, t, since);
    } else if c.Compact? {
      CompactSince(a, c.at, k, t, since);
    } else {
      FreesDead(a, c, k);
    }
  }

  /** A collection, a reset and a rotation free every dead row. */
  lemma FreesDead(a: Actor, c: Command, k: KeyId)
    requires Sound(a) && LegalCommand(a, c) && (c.Gc? || c.Reset? || c.Rotate?) && InUse(a.life.table.slots, k) && !IsActive(a.life.table.slots, k)
    ensures !InUse(StepActor(a, c).life.table.slots, k)
  {
    LaterWallCoherent(a.life, c.at);
    if c.Gc? {
      CollectFreesDead(a.life.(wall := c.at), k);
    } else {
      WipeFrees(a.life.(wall := c.at), k);
    }
  }

  lemma CollectFreesDead(l: Life, k: KeyId)
    requires Coherent(l) && InUse(l.table.slots, k) && !IsActive(l.table.slots, k)
    ensures !InUse(DoCollect(l, l.wall).table.slots, k)
  {
    CollectCoherent(l);
  }

  lemma WipeFrees(l: Life, k: KeyId)
    requires Coherent(l)
    ensures !InUse(DoWipe(l, l.wall).table.slots, k)
  {
    WipeCoherent(l);
  }

  lemma {:induction false} SinceRun(a: Actor, run: seq<Command>, k: KeyId, t: nat)
    requires Sound(a) && Recorded(a) && LegalAll(a, run) && Stays(a, run, k) && RevokedSince(a, k, t, Since(false, 0))
    ensures RevokedSince(AfterAll(a, run), k, t, NotedSince(a, run))
  {
    if run != [] {
      var n := |run| - 1;
      SinceRun(a, run[..n], k, t);
      RunRecorded(a, run[..n]);
      SinceStep(AfterAll(a, run[..n]), run[n], k, t, NotedSince(a, run[..n]));
    }
  }

  /**
  A key revoked at `t`, and a restart at `at` after any run that does not free its row: the
  row stays revoked until `t` plus the retention and is free from then on. Only if the log
  was compacted since, and as many audit records made as the trail holds, is the time lost;
  then the retention starts anew at the restart.
  */
  lemma RevokedThenRestarted(a: Actor, t: nat, k: KeyId, run: seq<Command>, at: nat, capacity: nat)
    requires Sound(a) && Recorded(a) && LegalCommand(a, Act(Revoke(t, k))) && IsActive(a.life.table.slots, k) && t > 0
    requires var b := StepActor(a, Act(Revoke(t, k)));
             LegalAll(b, run) && Stays(b, run, k) && AfterAll(b, run).life.wall <= at && k.slot < capacity
    ensures var b := StepActor(a, Act(Revoke(t, k)));
            var lost := NotedSince(b, run).compacted && NotedSince(b, run).audits >= P.AUDIT_CAPACITY;
            DeadRow(Restarted(AfterAll(b, run), at, capacity).life, k, Revoked, if lost then at else t, at)
  {
    var b := StepActor(a, Act(Revoke(t, k)));
    RevokeStarts(a, t, k);
    StepRecorded(a, Act(Revoke(t, k)));
    StepSound(a, Act(Revoke(t, k)));
    SinceRun(b, run, k, t);
    RunRecorded(b, run);
    var c := AfterAll(b, run);
    RevokedRestarted(c, at, capacity, k);
    TrailFinds(c.audits, k, t, NotedSince(b, run).audits);
  }

  // ---- and from then on ----

  /** In use after every command, whichever they are. */
  ghost predicate Lasts(a: Actor, run: seq<Command>, k: KeyId) {
    InUse(AfterAll(a, run).life.table.slots, k) && (run == [] || Lasts(a, run[..|run| - 1], k))
  }

  ghost predicate DeadSince(a: Actor, k: KeyId, died: nat) {
    InUse(a.life.table.slots, k) && a.life.table.slots[k.slot].state == Revoked
    && k in a.life.table.cold && a.life.table.cold[k].tombstonedAt == died
  }

  lemma DeadStep(a: Actor, c: Command, k: KeyId, died: nat)
    requires Sound(a) && Recorded(a) && LegalCommand(a, c) && died > 0 && DeadSince(a, k, died)
    requires InUse(StepActor(a, c).life.table.slots, k)
    ensures DeadSince(StepActor(a, c), k, died)
  {
    match c
    case Act(op) =>
      var l := a.life.(wall := op.wall);
      LaterSound(a, op.wall);
      assert MirrorsAt(a.(life := l), 0);
      if Logged(a.life, op).Some? {
        LoggedDead(l, a.high, Store(a), op, k);
      } else {
        UnloggedDead(l, op, k);
      }
    case Note(_, _) =>
    case Compact(_) =>
    case Restart(at, capacity) =>
      assert StoredWell(a.life, P.At(Store(a).entries, k.slot), k.slot);
      RestartedSound(a, at, capacity);
      RevokedRestarted(a, at, capacity, k);
    case Gc(_) => FreesDead(a, c, k);
    case Reset(_, _) => FreesDead(a, c, k);
    case Rotate(_) => FreesDead(a, c, k);
  }

  /** Once a restart has fixed the time of death, every later one goes by it, whatever is compacted or audited. */
  lemma {:induction false} DeadThenRestarted(a: Actor, run: seq<Command>, k: KeyId, died: nat, at: nat, capacity: nat)
    requires Sound(a) && Recorded(a) && LegalAll(a, run) && Lasts(a, run, k) && died > 0 && DeadSince(a, k, died)
    requires AfterAll(a, run).life.wall <= at && k.slot < capacity
    ensures DeadSince(AfterAll(a, run), k, died)
    ensures DeadRow(Restarted(AfterAll(a, run), at, capacity).life, k, Revoked, died, at)
    decreases |run|
  {
    DeadLasts(a, run, k, died);
    RunRecorded(a, run);
    var c := AfterAll(a, run);
    assert StoredWell(c.life, P.At(Store(c).entries, k.slot), k.slot);
    RevokedRestarted(c, at, capacity, k);
  }

  lemma {:induction false} DeadLasts(a: Actor, run: seq<Command>, k: KeyId, died: nat)
    requires Sound(a) && Recorded(a) && LegalAll(a, run) && Lasts(a, run, k) && died > 0 && DeadSince(a, k, died)
    ensures DeadSince(AfterAll(a, run), k, died)
  {
    if run != [] {
      var n := |run| - 1;
      DeadLasts(a, run[..n], k, died);
      RunRecorded(a, run[..n]);
      DeadStep(AfterAll(a, run[..n]), run[n], k, died);
    }
  }
}
