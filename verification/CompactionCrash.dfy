/**
A crash between compaction's two writes: the new snapshot has landed and the old log is
still there, so the next start replays the log over a snapshot that already contains it.

That load succeeds exactly when every key the log renews or revokes before reissuing its
row is still in the table, and then it mirrors the table as if nothing had happened. When
such a key has already left the table the load fails, and the store stays closed.
*/
module CompactionCrash {
  import opened Wrappers
  import opened Lifecycle
  import opened KeyLives
  import opened Recovery
  import opened ActorRuns
  import P = Persistence
  import T = Timelines

  // ---- replay, one slot at a time ----

  datatype Stored = Stored(generation: nat, entry: Option<P.Entry>)

  ghost function StoredAt(p: P.Snapshot, s: nat): Stored {
    Stored(P.GenOf(p.generations, s), P.At(p.entries, s))
  }

  function SlotOf(m: P.Mutation): nat {
    if m.Issue? then m.entry.key.slot else m.key.slot
  }

  function Changes(r: P.Record, s: nat): bool {
    r.Mutated? && SlotOf(r.mutation) == s
  }

  /** What a mutation of this slot leaves, or `None` when it names a key that is not there. */
  function ApplySlot(st: Stored, m: P.Mutation): Option<Stored> {
    match m
    case Issue(e) => Some(Stored(e.key.generation, Some(e)))
    case Renew(k, expiresAt) =>
      if st.entry.Some? && st.entry.value.key == k
      then Some(st.(entry := Some(st.entry.value.(expiresAt := expiresAt, state := Active, tombstonedAt := None)))) else None
    case Revoke(k, at) =>
      if st.entry.Some? && st.entry.value.key == k
      then Some(st.(entry := Some(st.entry.value.(state := Revoked, tombstonedAt := Some(at))))) else None
  }

  function ReplaySlot(st: Stored, wal: seq<P.Record>, s: nat): Option<Stored> {
    if wal == [] then Some(st)
    else
      var n := |wal| - 1;
      match ReplaySlot(st, wal[..n], s)
      case None => None
      case Some(before) => if Changes(wal[n], s) then ApplySlot(before, wal[n].mutation) else Some(before)
  }

  lemma ApplyOne(p: P.Snapshot, m: P.Mutation)
    requires P.OnePerSlot(p.entries)
    ensures P.Apply(p, m).Ok? <==> ApplySlot(StoredAt(p, SlotOf(m)), m).Some?
    ensures P.Apply(p, m).Ok? ==>
              P.OnePerSlot(P.Apply(p, m).value.entries)
              && StoredAt(P.Apply(p, m).value, SlotOf(m)) == ApplySlot(StoredAt(p, SlotOf(m)), m).value
  {
    match m
    case Issue(e) =>
      P.WithoutKeeps(p.entries, e.key.slot);
      P.IssueGenerations(p.generations, e.key);
    case Renew(k, _) => FoundAt(p, k);
      if P.IndexOf(p.entries, k).Some? {
        var i := P.IndexOf(p.entries, k).value;
        P.UpdateAt(p.entries, i, p.entries[i].(expiresAt := m.expiresAt, state := Active, tombstonedAt := None), k.slot);
      }
    case Revoke(k, _) => FoundAt(p, k);
      if P.IndexOf(p.entries, k).Some? {
        var i := P.IndexOf(p.entries, k).value;
        P.UpdateAt(p.entries, i, p.entries[i].(state := Revoked, tombstonedAt := Some(m.at)), k.slot);
      }
  }

  lemma ApplyOther(p: P.Snapshot, m: P.Mutation, s: nat)
    requires P.OnePerSlot(p.entries) && P.Apply(p, m).Ok? && s != SlotOf(m)
    ensures StoredAt(P.Apply(p, m).value, s) == StoredAt(p, s)
  {
    match m
    case Issue(e) =>
      P.WithoutAt(p.entries, e.key.slot, s);
      P.IssueGenerations(p.generations, e.key);
      assert (P.Without(p.entries, e.key.slot) + [e])[..|P.Without(p.entries, e.key.slot)|] == P.Without(p.entries, e.key.slot);
    case Renew(k, _) =>
      var i := P.IndexOf(p.entries, k).value;
      P.UpdateAt(p.entries, i, p.entries[i].(expiresAt := m.expiresAt, state := Active, tombstonedAt := None), s);
    case Revoke(k, _) =>
      var i := P.IndexOf(p.entries, k).value;
      P.UpdateAt(p.entries, i, p.entries[i].(state := Revoked, tombstonedAt := Some(m.at)), s);
  }

  lemma FoundAt(p: P.Snapshot, k: KeyId)
    requires P.OnePerSlot(p.entries)
    ensures var e := P.At(p.entries, k.slot);
            (P.IndexOf(p.entries, k).Some? <==> e.Some? && e.value.key == k)
            && (P.IndexOf(p.entries, k).Some? ==> p.entries[P.IndexOf(p.entries, k).value] == e.value)
  {
    P.AtMember(p.entries, k.slot);
    if P.IndexOf(p.entries, k).Some? {
      P.AtIndex(p.entries, P.IndexOf(p.entries, k).value);
    } else if P.At(p.entries, k.slot).Some? {
      var i :| 0 <= i < |p.entries| && p.entries[i] == P.At(p.entries, k.slot).value;
    }
  }

  /** The whole replay is the replay of every slot: it fails when one of them does. */
  lemma {:induction false} ReplayBySlots(p: P.Snapshot, wal: seq<P.Record>)
    requires P.OnePerSlot(p.entries)
    ensures P.Replay(p, wal).Ok? <==> forall s: nat :: ReplaySlot(StoredAt(p, s), wal, s).Some?
    ensures P.Replay(p, wal).Ok? ==>
              P.OnePerSlot(P.Replay(p, wal).value.entries)
              && forall s: nat :: Some(StoredAt(P.Replay(p, wal).value, s)) == ReplaySlot(StoredAt(p, s), wal, s)
  {
    if wal != [] {
      var n := |wal| - 1;
      ReplayBySlots(p, wal[..n]);
      if P.Replay(p, wal[..n]).Ok? {
        var q := P.Replay(p, wal[..n]).value;
        if wal[n].Mutated? {
          var m := wal[n].mutation;
          ApplyOne(q, m);
          assert ReplaySlot(StoredAt(p, SlotOf(m)), wal, SlotOf(m)) == ApplySlot(StoredAt(q, SlotOf(m)), m);
          if P.Apply(q, m).Ok? {
            forall s: nat
              ensures ReplaySlot(StoredAt(p, s), wal, s) == Some(StoredAt(P.Apply(q, m).value, s))
            {
              if s != SlotOf(m) {
                ApplyOther(q, m, s);
              }
            }
          }
        }
      } else {
        var s: nat :| ReplaySlot(StoredAt(p, s), wal[..n], s).None?;
        assert ReplaySlot(StoredAt(p, s), wal, s).None?;
      }
    }
  }

  // ---- replaying over what already contains the log ----

  function Touched(wal: seq<P.Record>, s: nat): bool {
    wal != [] && (Touched(wal[..|wal| - 1], s) || Changes(wal[|wal| - 1], s))
  }

  function Reissued(wal: seq<P.Record>, s: nat): bool {
    wal != [] && (Reissued(wal[..|wal| - 1], s) || (Changes(wal[|wal| - 1], s) && wal[|wal| - 1].mutation.Issue?))
  }

  /** The key the log renews or revokes in this row before it reissues the row. */
  function FirstKey(wal: seq<P.Record>, s: nat): Option<KeyId> {
    if wal == [] then None
    else
      var n := |wal| - 1;
      if Touched(wal[..n], s) || !Changes(wal[n], s) || wal[n].mutation.Issue? then FirstKey(wal[..n], s)
      else Some(wal[n].mutation.key)
  }

  /** How two replays of one log over different starts compare. */
  ghost predicate Compares(from: Stored, to: Stored, a: Stored, b: Stored, wal: seq<P.Record>, s: nat) {
    if !Touched(wal, s) then a == from && b == to
    else if Reissued(wal, s) then a == b
    else
      a.entry.Some? && b.entry.Some? && to.entry.Some? && b.generation == to.generation
      && b.entry.value.key == a.entry.value.key == to.entry.value.key
      && b.entry.value.state == a.entry.value.state != Free
      && (a.entry.value.state == Active ==> b.entry.value.expiresAt == a.entry.value.expiresAt)
      && b.entry.value.issuedAt == to.entry.value.issuedAt && b.entry.value.note == to.entry.value.note
  }

  lemma {:induction false} ReplayCompares(from: Stored, to: Stored, wal: seq<P.Record>, s: nat)
    requires ReplaySlot(from, wal, s).Some?
    ensures ReplaySlot(to, wal, s).Some? <==>
              (FirstKey(wal, s).Some? ==> to.entry.Some? && to.entry.value.key == FirstKey(wal, s).value)
    ensures ReplaySlot(to, wal, s).Some? ==>
              Compares(from, to, ReplaySlot(from, wal, s).value, ReplaySlot(to, wal, s).value, wal, s)
  {
    if wal != [] {
      ReplayCompares(from, to, wal[..|wal| - 1], s);
      if !Touched(wal[..|wal| - 1], s) {
        NotTouched(wal[..|wal| - 1], s);
      }
    }
  }

  lemma {:induction false} NotTouched(wal: seq<P.Record>, s: nat)
    requires !Touched(wal, s)
    ensures FirstKey(wal, s).None? && !Reissued(wal, s)
  {
    if wal != [] {
      NotTouched(wal[..|wal| - 1], s);
    }
  }

  // ---- the crash ----

  /** The disk with the snapshot written and the log not yet emptied. */
  function HalfCompacted(a: Actor): P.Disk {
    P.Disk(Compacted(a, a.audits).snapshot, a.disk.wal)
  }

  /** Every key the log renews or revokes before reissuing its row still holds its row. */
  ghost predicate LoggedKeysStay(a: Actor) {
    forall s: nat :: FirstKey(a.disk.wal, s).Some? ==> StillStored(a, s, FirstKey(a.disk.wal, s).value)
  }

  ghost predicate StillStored(a: Actor, s: nat, k: KeyId) {
    InUse(a.life.table.slots, k) || exists e :: e in a.highEntries && e.key == k
  }

  lemma {:induction false} FirstKeySlot(wal: seq<P.Record>, s: nat)
    ensures FirstKey(wal, s).Some? ==> FirstKey(wal, s).value.slot == s
  {
    if wal != [] {
      FirstKeySlot(wal[..|wal| - 1], s);
    }
  }

  /** What compaction writes for a slot is the entry of the key that holds it. */
  lemma BuiltKey(a: Actor, s: nat, k: KeyId)
    requires Sound(a) && k.slot == s
    ensures var e := P.At(Compacted(a, a.audits).snapshot.value.entries, s);
            e.Some? && e.value.key == k <==> StillStored(a, s, k)
  {
    var rows := P.RowEntries(a.life.table.slots, a.life.table.cold);
    P.RowEntriesAt(a.life.table.slots, a.life.table.cold, s);
    P.AtConcat(rows, a.highEntries, s);
    P.AtMember(a.highEntries, s);
    if s < |a.life.table.slots| {
      assert Agrees(a.life, KeyOf(a.life.table.slots, s));
    }
    if e: P.Entry :| e in a.highEntries && e.key == k {
      var i :| 0 <= i < |a.highEntries| && a.highEntries[i] == e;
      P.AtIndex(a.highEntries, i);
    }
  }

  /**
  A load between compaction's two writes succeeds exactly when the keys the log renews or
  revokes are still in the table, and then what it loads mirrors the table.
  */
  lemma HalfCompactedLoads(a: Actor, capacity: nat)
    requires Sound(a)
    ensures P.Load(HalfCompacted(a), a.instance, capacity).Ok? <==> LoggedKeysStay(a)
    ensures LoggedKeysStay(a) ==> Mirror(a.life, a.high, P.Load(HalfCompacted(a), a.instance, capacity).value)
  {
    assert MirrorsAt(a, capacity);
    var base, built := P.Base(a.disk, a.instance, capacity), P.Base(HalfCompacted(a), a.instance, capacity);
    var p := P.Load(a.disk, a.instance, capacity).value;
    var b := Compacted(a, a.audits).snapshot.value;
    BuildMirror(a.life, a.high, a.highEntries, p, a.instance, a.audits);
    MirrorSame(a.life, a.high, b, built);
    ReplayBySlots(base, a.disk.wal);
    ReplayBySlots(built, a.disk.wal);
    forall s: nat
      ensures ReplaySlot(StoredAt(built, s), a.disk.wal, s).Some?
              <==> (FirstKey(a.disk.wal, s).Some? ==> StillStored(a, s, FirstKey(a.disk.wal, s).value))
    {
      ReplayCompares(StoredAt(base, s), StoredAt(built, s), a.disk.wal, s);
      FirstKeySlot(a.disk.wal, s);
      if FirstKey(a.disk.wal, s).Some? {
        BuiltKey(a, s, FirstKey(a.disk.wal, s).value);
      }
    }
    if LoggedKeysStay(a) {
      var q := P.Load(HalfCompacted(a), a.instance, capacity).value;
      forall s: nat
        ensures MirrorSlot(a.life, a.high, q, s)
      {
        ReplayCompares(StoredAt(base, s), StoredAt(built, s), a.disk.wal, s);
        SlotStillMirrors(a, p, built, q, s, StoredAt(base, s));
      }
    }
  }

  lemma SlotStillMirrors(a: Actor, p: P.Snapshot, built: P.Snapshot, q: P.Snapshot, s: nat, from: Stored)
    requires Mirror(a.life, a.high, p) && Mirror(a.life, a.high, built)
    requires Compares(from, StoredAt(built, s), StoredAt(p, s), StoredAt(q, s), a.disk.wal, s)
    ensures MirrorSlot(a.life, a.high, q, s)
  {
    assert MirrorSlot(a.life, a.high, p, s);
    assert MirrorSlot(a.life, a.high, built, s);
  }

  /**
  The failing case is reached by ordinary use: revoke a key right after a compaction, let
  its retention pass, and cut the next compaction between its two writes.
  */
  lemma RevokeThenReapFails(a: Actor, at: nat, k: KeyId, later: nat, capacity: nat)
    requires Sound(a) && a.disk.wal == [] && IsActive(a.life.table.slots, k)
    requires a.life.wall <= at <= later && k in a.life.reapAt && a.life.reapAt[k] <= later
    ensures var b := Acted(Acted(a, Op.Revoke(at, k)), Op.Tick(later));
            Sound(b) && P.Load(HalfCompacted(b), b.instance, capacity).Err?
  {
    var m := Acted(a, Op.Revoke(at, k));
    var b := Acted(m, Op.Tick(later));
    assert Agrees(a.life, k);
    ActedSound(a, Op.Revoke(at, k));
    ActedSound(m, Op.Tick(later));
    T.RevokeStartsRevoked(a.life, at, k);
    LaterWallCoherent(m.life, later);
    T.TickRevoked(m.life.(wall := later), later, k, a.life.reapAt[k]);
    AdvanceMeans(m.life.(wall := later), later);
    var r := b.disk.wal;
    assert r[..0] == [] && |r| == 1 && Changes(r[0], k.slot);
    assert FirstKey(r, k.slot) == Some(k);
    assert !StillStored(b, k.slot, k);
    HalfCompactedLoads(b, capacity);
  }
}
