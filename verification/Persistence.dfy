/**
What the store keeps of the table: a snapshot and the mutations logged since.

`Load` is what a start reads back, `Build` what compaction writes, and `Started` the table
a start builds from what it read. The lemmas describe each of them one slot at a time.
*/
module Persistence {
  import opened Wrappers
  import opened Lifecycle

  const AUDIT_CAPACITY: nat := 4096

  datatype Entry = Entry(key: KeyId, state: SlotState, issuedAt: nat, expiresAt: nat, note: Option<string>, tombstonedAt: Option<nat>)

  datatype Action = KeyIssue | KeyRenew | KeyRevoke | Other

  datatype Audit = Audit(at: nat, action: Action, key: Option<KeyId>)

  /** The persisted state, without its administrator claims and policy flags. */
  datatype Snapshot = Snapshot(instance: nat, generations: seq<nat>, entries: seq<Entry>, audits: seq<Audit>)

  datatype Mutation = Issue(entry: Entry) | Renew(key: KeyId, expiresAt: nat) | Revoke(key: KeyId, at: nat)

  datatype Record = Mutated(mutation: Mutation, audit: Audit) | Audited(audit: Audit)

  datatype Disk = Disk(snapshot: Option<Snapshot>, wal: seq<Record>)

  datatype Failure = UnknownKey | WrongInstance

  // ---- entries ----

  /** `iter_mut().find`: the first entry with this key. */
  function IndexOf(entries: seq<Entry>, k: KeyId): (i: Option<nat>)
    ensures i.Some? ==> i.value < |entries| && entries[i.value].key == k
    ensures i.None? ==> forall j | 0 <= j < |entries| :: entries[j].key != k
  {
    if entries == [] then None
    else if entries[0].key == k then Some(0)
    else
      match IndexOf(entries[1..], k)
      case Some(i) => Some(i + 1)
      case None => None
  }

  /** `retain` of the entries for other rows. */
  function Without(entries: seq<Entry>, slot: nat): seq<Entry> {
    if entries == [] then []
    else
      var n := |entries| - 1;
      Without(entries[..n], slot) + if entries[n].key.slot != slot then [entries[n]] else []
  }

  /** The entry for a row, if any: at most one in a well-stored snapshot. */
  ghost function At(entries: seq<Entry>, slot: nat): Option<Entry> {
    if entries == [] then None
    else
      var n := |entries| - 1;
      if entries[n].key.slot == slot then Some(entries[n]) else At(entries[..n], slot)
  }

  ghost predicate OnePerSlot(entries: seq<Entry>) {
    forall i, j | 0 <= i < j < |entries| :: entries[i].key.slot != entries[j].key.slot
  }

  lemma {:induction false} AtIndex(entries: seq<Entry>, i: nat)
    requires OnePerSlot(entries) && i < |entries|
    ensures At(entries, entries[i].key.slot) == Some(entries[i])
  {
    var n := |entries| - 1;
    if i < n {
      AtIndex(entries[..n], i);
    }
  }

  lemma {:induction false} AtMember(entries: seq<Entry>, slot: nat)
    ensures At(entries, slot).Some? ==> At(entries, slot).value in entries && At(entries, slot).value.key.slot == slot
    ensures At(entries, slot).None? ==> forall i | 0 <= i < |entries| :: entries[i].key.slot != slot
  {
    if entries != [] {
      AtMember(entries[..|entries| - 1], slot);
    }
  }

  lemma {:induction false} WithoutAt(entries: seq<Entry>, slot: nat, s: nat)
    ensures At(Without(entries, slot), s) == if s == slot then None else At(entries, s)
  {
    if entries != [] {
      var n := |entries| - 1;
      WithoutAt(entries[..n], slot, s);
      if entries[n].key.slot != slot {
        assert Without(entries, slot)[..|Without(entries, slot)| - 1] == Without(entries[..n], slot);
      } else {
        assert Without(entries, slot) == Without(entries[..n], slot);
      }
    }
  }

  lemma {:induction false} WithoutKeeps(entries: seq<Entry>, slot: nat)
    ensures forall e :: e in Without(entries, slot) <==> e in entries && e.key.slot != slot
    ensures OnePerSlot(entries) ==> OnePerSlot(Without(entries, slot))
  {
    if entries != [] {
      WithoutKeeps(entries[..|entries| - 1], slot);
      assert entries == entries[..|entries| - 1] + [entries[|entries| - 1]];
    }
  }

  lemma {:induction false} UpdateAt(entries: seq<Entry>, i: nat, e: Entry, s: nat)
    requires OnePerSlot(entries) && i < |entries| && e.key == entries[i].key
    ensures At(entries[i := e], s) == if s == e.key.slot then Some(e) else At(entries, s)
  {
    var n := |entries| - 1;
    if i < n {
      assert entries[i := e][..n] == entries[..n][i := e];
      UpdateAt(entries[..n], i, e, s);
    } else {
      assert entries[i := e][..n] == entries[..n];
      AtMember(entries[..n], s);
    }
  }

  // ---- replaying the log ----

  /** `resize` upwards with the first generation. */
  function Resized(generations: seq<nat>, n: nat): seq<nat> {
    if |generations| < n then generations + seq(n - |generations|, i => 0) else generations
  }

  function GenOf(generations: seq<nat>, slot: nat): nat {
    if slot < |generations| then generations[slot] else 0
  }

  function PushAudit(audits: seq<Audit>, a: Audit): seq<Audit> {
    (if |audits| >= AUDIT_CAPACITY then audits[|audits| - (AUDIT_CAPACITY - 1)..] else audits) + [a]
  }

  function Apply(s: Snapshot, m: Mutation): Result<Snapshot, Failure> {
    match m
    case Issue(e) =>
      var generations := Resized(s.generations, e.key.slot + 1);
      Ok(s.(generations := generations[e.key.slot := e.key.generation], entries := Without(s.entries, e.key.slot) + [e]))
    case Renew(k, expiresAt) =>
      (match IndexOf(s.entries, k)
       case None => Err(UnknownKey)
       case Some(i) =>
         Ok(s.(entries := s.entries[i := s.entries[i].(expiresAt := expiresAt, state := Active, tombstonedAt := None)])))
    case Revoke(k, at) =>
      match IndexOf(s.entries, k)
      case None => Err(UnknownKey)
      case Some(i) => Ok(s.(entries := s.entries[i := s.entries[i].(state := Revoked, tombstonedAt := Some(at))]))
  }

  function ApplyRecord(s: Snapshot, r: Record): Result<Snapshot, Failure> {
    match r
    case Mutated(m, audit) =>
      (match Apply(s, m)
       case Ok(t) => Ok(t.(audits := PushAudit(t.audits, audit)))
       case Err(e) => Err(e))
    case Audited(audit) => Ok(s.(audits := PushAudit(s.audits, audit)))
  }

  function Replay(s: Snapshot, wal: seq<Record>): Result<Snapshot, Failure> {
    if wal == [] then Ok(s)
    else
      match Replay(s, wal[..|wal| - 1])
      case Ok(t) => ApplyRecord(t, wal[|wal| - 1])
      case Err(e) => Err(e)
  }

  /** The snapshot a load starts from, before the log. */
  function Base(disk: Disk, instance: nat, capacity: nat): Snapshot {
    var s := if disk.snapshot.Some? then disk.snapshot.value else Snapshot(instance, seq(capacity, i => 0), [], []);
    s.(generations := Resized(s.generations, capacity))
  }

  function Load(disk: Disk, instance: nat, capacity: nat): Result<Snapshot, Failure> {
    if disk.snapshot.Some? && disk.snapshot.value.instance != instance then Err(WrongInstance)
    else Replay(Base(disk, instance, capacity), disk.wal)
  }

  /** The replay loop of a start. */
  method LoadPersisted(disk: Disk, instance: nat, capacity: nat) returns (r: Result<Snapshot, Failure>)
    ensures r == Load(disk, instance, capacity)
  {
    var s := if disk.snapshot.Some? then disk.snapshot.value else Snapshot(instance, seq(capacity, i => 0), [], []);
    if s.instance != instance {
      return Err(WrongInstance);
    }
    if |s.generations| < capacity {
      s := s.(generations := Resized(s.generations, capacity));
    }
    var i := 0;
    while i < |disk.wal|
      invariant i <= |disk.wal|
      invariant Replay(Base(disk, instance, capacity), disk.wal[..i]) == Ok(s)
    {
      assert disk.wal[..i + 1][..i] == disk.wal[..i];
      var next := ApplyRecord(s, disk.wal[i]);
      if next.Err? {
        FailsForGood(Base(disk, instance, capacity), disk.wal, i + 1);
        return Err(next.reason);
      }
      s := next.value;
      i := i + 1;
    }
    assert disk.wal[..i] == disk.wal;
    return Ok(s);
  }

  lemma {:induction false} FailsForGood(s: Snapshot, wal: seq<Record>, i: nat)
    requires i <= |wal| && Replay(s, wal[..i]).Err?
    ensures Replay(s, wal) == Replay(s, wal[..i])
  {
    if i < |wal| {
      var n := |wal| - 1;
      assert wal[..n][..i] == wal[..i];
      FailsForGood(s, wal[..n], i);
    } else {
      assert wal[..i] == wal;
    }
  }

  /** Logging one more record. */
  lemma LoadLogged(disk: Disk, instance: nat, capacity: nat, r: Record)
    requires Load(disk, instance, capacity).Ok?
    ensures Load(disk.(wal := disk.wal + [r]), instance, capacity) == ApplyRecord(Load(disk, instance, capacity).value, r)
  {
    assert (disk.wal + [r])[..|disk.wal|] == disk.wal;
  }

  // ---- two loads differ only in how far the generations reach ----

  ghost predicate SameState(p: Snapshot, q: Snapshot) {
    p.entries == q.entries && p.instance == q.instance && p.audits == q.audits
    && forall s: nat :: GenOf(p.generations, s) == GenOf(q.generations, s)
  }

  ghost predicate SameResult(p: Result<Snapshot, Failure>, q: Result<Snapshot, Failure>) {
    if p.Ok? then q.Ok? && SameState(p.value, q.value) else q == p
  }

  lemma {:induction false} ReplaySame(p: Snapshot, q: Snapshot, wal: seq<Record>)
    requires SameState(p, q)
    ensures SameResult(Replay(p, wal), Replay(q, wal))
  {
    if wal != [] {
      var before := wal[..|wal| - 1];
      ReplaySame(p, q, before);
      if Replay(p, before).Ok? {
        ApplySame(Replay(p, before).value, Replay(q, before).value, wal[|wal| - 1]);
      }
    }
  }

  lemma ApplySame(p: Snapshot, q: Snapshot, r: Record)
    requires SameState(p, q)
    ensures SameResult(ApplyRecord(p, r), ApplyRecord(q, r))
  {
    if r.Mutated? && r.mutation.Issue? {
      IssueGenerations(p.generations, r.mutation.entry.key);
      IssueGenerations(q.generations, r.mutation.entry.key);
    }
  }

  lemma IssueGenerations(generations: seq<nat>, k: KeyId)
    ensures var g := Resized(generations, k.slot + 1)[k.slot := k.generation];
            forall s: nat :: GenOf(g, s) == if s == k.slot then k.generation else GenOf(generations, s)
  {
  }

  /** The configured capacity changes no generation and no entry of what is loaded. */
  lemma LoadSame(disk: Disk, instance: nat, c: nat, d: nat)
    ensures SameResult(Load(disk, instance, c), Load(disk, instance, d))
  {
    ReplaySame(Base(disk, instance, c), Base(disk, instance, d), disk.wal);
  }

  lemma {:induction false} ReplayGrows(s: Snapshot, wal: seq<Record>)
    requires Replay(s, wal).Ok?
    ensures |s.generations| <= |Replay(s, wal).value.generations| && Replay(s, wal).value.instance == s.instance
  {
    if wal != [] {
      ReplayGrows(s, wal[..|wal| - 1]);
    }
  }

  lemma LoadCovers(disk: Disk, instance: nat, c: nat)
    requires Load(disk, instance, c).Ok?
    ensures c <= |Load(disk, instance, c).value.generations| && Load(disk, instance, c).value.instance == instance
  {
    ReplayGrows(Base(disk, instance, c), disk.wal);
  }

  // ---- tombstone times ----

  /** The latest audited revoke of a key. */
  function RevokedAt(audits: seq<Audit>, k: KeyId): Option<nat> {
    if audits == [] then None
    else
      var a := audits[|audits| - 1];
      if a.action == KeyRevoke && a.key == Some(k) then Some(a.at) else RevokedAt(audits[..|audits| - 1], k)
  }

  function NormalEntry(e: Entry, audits: seq<Audit>, now: nat): Entry {
    if e.tombstonedAt.Some? then e
    else
      match e.state
      case Expired => e.(tombstonedAt := Some(e.expiresAt))
      case Revoked => e.(tombstonedAt := Some(if RevokedAt(audits, e.key).Some? then RevokedAt(audits, e.key).value else now))
      case Free | Active => e
  }

  function NormalEntries(entries: seq<Entry>, audits: seq<Audit>, now: nat): seq<Entry> {
    seq(|entries|, i requires 0 <= i < |entries| => NormalEntry(entries[i], audits, now))
  }

  function Normal(s: Snapshot, now: nat): Snapshot {
    s.(entries := NormalEntries(s.entries, s.audits, now))
  }

  /** `normalize_tombstone_times`: fills the missing times in, and reports whether any was. */
  method Normalize(s: Snapshot, now: nat) returns (t: Snapshot, changed: bool)
    ensures t == Normal(s, now) && changed == (t != s)
  {
    t, changed := s, false;
    var i := 0;
    while i < |s.entries|
      invariant i <= |s.entries| == |t.entries| && t == s.(entries := t.entries)
      invariant forall j | 0 <= j < i :: t.entries[j] == NormalEntry(s.entries[j], s.audits, now)
      invariant forall j | i <= j < |s.entries| :: t.entries[j] == s.entries[j]
      invariant changed <==> exists j | 0 <= j < i :: t.entries[j] != s.entries[j]
    {
      var e := NormalEntry(s.entries[i], s.audits, now);
      if e != s.entries[i] {
        changed := true;
      }
      t := t.(entries := t.entries[i := e]);
      i := i + 1;
    }
    assert t.entries == Normal(s, now).entries;
    if !changed {
      assert t.entries == s.entries;
    }
  }

  lemma {:induction false} NormalAt(entries: seq<Entry>, audits: seq<Audit>, now: nat, slot: nat)
    ensures At(NormalEntries(entries, audits, now), slot)
            == match At(entries, slot)
               case None => None
               case Some(e) => Some(NormalEntry(e, audits, now))
  {
    if entries != [] {
      var n := |entries| - 1;
      NormalAt(entries[..n], audits, now, slot);
      assert NormalEntries(entries, audits, now)[..n] == NormalEntries(entries[..n], audits, now);
    }
  }

  // ---- compaction ----

  function RowEntry(row: Slot, i: nat, cold: map<KeyId, Cold>): Option<Entry> {
    var k := KeyId(row.generation, i);
    if row.state == Free || k !in cold then None
    else Some(Entry(k, row.state, cold[k].issuedAt, row.expiresAt, cold[k].note,
                    if cold[k].tombstonedAt != 0 then Some(cold[k].tombstonedAt) else None))
  }

  function RowEntries(slots: Slots, cold: map<KeyId, Cold>): seq<Entry> {
    if slots == [] then []
    else
      var n := |slots| - 1;
      RowEntries(slots[..n], cold) + match RowEntry(slots[n], n, cold) case None => [] case Some(e) => [e]
  }

  function GenerationsOf(slots: Slots): seq<nat> {
    seq(|slots|, i requires 0 <= i < |slots| => slots[i].generation)
  }

  function Build(slots: Slots, cold: map<KeyId, Cold>, high: seq<nat>, highEntries: seq<Entry>, instance: nat, audits: seq<Audit>): Snapshot {
    Snapshot(instance, GenerationsOf(slots) + high, RowEntries(slots, cold) + highEntries, audits)
  }

  lemma {:induction false} RowEntriesAt(slots: Slots, cold: map<KeyId, Cold>, s: nat)
    ensures At(RowEntries(slots, cold), s) == if s < |slots| then RowEntry(slots[s], s, cold) else None
  {
    if slots != [] {
      var n := |slots| - 1;
      RowEntriesAt(slots[..n], cold, s);
      var rest := RowEntries(slots[..n], cold);
      if RowEntry(slots[n], n, cold).Some? {
        assert RowEntries(slots, cold)[..|rest|] == rest;
      } else {
        assert RowEntries(slots, cold) == rest;
      }
    }
  }

  lemma {:induction false} RowEntriesStored(slots: Slots, cold: map<KeyId, Cold>)
    ensures OnePerSlot(RowEntries(slots, cold))
    ensures forall e | e in RowEntries(slots, cold) ::
              e.key.slot < |slots| && RowEntry(slots[e.key.slot], e.key.slot, cold) == Some(e)
  {
    if slots != [] {
      RowEntriesStored(slots[..|slots| - 1], cold);
    }
  }

  lemma {:induction false} AtConcat(a: seq<Entry>, b: seq<Entry>, s: nat)
    ensures At(a + b, s) == if At(b, s).Some? then At(b, s) else At(a, s)
  {
    if b == [] {
      assert a + b == a;
    } else {
      AtConcat(a, b[..|b| - 1], s);
      assert (a + b)[..|a + b| - 1] == a + b[..|b| - 1];
    }
  }

  // ---- the table a start builds ----

  function StartState(e: Entry, now: nat): SlotState {
    if e.state == Active && e.expiresAt <= now then Expired else e.state
  }

  function StartCold(e: Entry, now: nat): Cold {
    Cold(e.issuedAt, e.note,
         match StartState(e, now)
         case Expired => if e.tombstonedAt.Some? then e.tombstonedAt.value else e.expiresAt
         case Revoked => if e.tombstonedAt.Some? then e.tombstonedAt.value else now
         case Free | Active => 0)
  }

  /** Installing one persisted entry in the table; one of another generation is skipped. */
  function Install(t: Table, e: Entry, now: nat): Table {
    var i := e.key.slot;
    if i >= |t.slots| || t.slots[i].generation != e.key.generation then t
    else t.(slots := t.slots[i := Slot(e.key.generation, StartState(e, now), e.expiresAt)], cold := t.cold[e.key := StartCold(e, now)])
  }

  function InstallAll(t: Table, entries: seq<Entry>, now: nat): Table {
    if entries == [] then t else Install(InstallAll(t, entries[..|entries| - 1], now), entries[|entries| - 1], now)
  }

  function EmptyTable(generations: seq<nat>, capacity: nat): Table {
    Table(seq(capacity, i requires 0 <= i => Slot(GenOf(generations, i), Free, 0)), map[], map[])
  }

  function Started(s: Snapshot, capacity: nat, now: nat): Table {
    InstallAll(EmptyTable(s.generations, capacity), s.entries, now)
  }

  /** The hot-state loops of a start. */
  method StartTable(s: Snapshot, capacity: nat, now: nat) returns (t: Table)
    ensures t == Started(s, capacity, now)
  {
    var slots := seq(capacity, i => Slot(0, Free, 0));
    var i := 0;
    while i < |s.generations|
      invariant i <= |s.generations| && |slots| == capacity
      invariant forall j | 0 <= j < capacity :: slots[j] == Slot(if j < i then s.generations[j] else 0, Free, 0)
    {
      if i < capacity {
        slots := slots[i := slots[i].(generation := s.generations[i])];
      }
      i := i + 1;
    }
    t := Table(slots, map[], map[]);
    assert slots == EmptyTable(s.generations, capacity).slots;
    i := 0;
    while i < |s.entries|
      invariant i <= |s.entries|
      invariant t == InstallAll(EmptyTable(s.generations, capacity), s.entries[..i], now)
    {
      assert s.entries[..i + 1][..i] == s.entries[..i];
      t := Install(t, s.entries[i], now);
      i := i + 1;
    }
    assert s.entries[..i] == s.entries;
  }

  ghost predicate EntriesCurrent(entries: seq<Entry>, generations: seq<nat>) {
    forall i | 0 <= i < |entries| :: entries[i].state != Free && GenOf(generations, entries[i].key.slot) == entries[i].key.generation
  }

  /** Each row of the started table comes from the one entry stored for it. */
  lemma {:induction false} StartedRow(entries: seq<Entry>, generations: seq<nat>, capacity: nat, now: nat, s: nat)
    requires OnePerSlot(entries) && EntriesCurrent(entries, generations) && s < capacity
    ensures var t := InstallAll(EmptyTable(generations, capacity), entries, now);
            |t.slots| == capacity && t.cancel == map[]
            && t.slots[s] == (match At(entries, s)
                              case None => Slot(GenOf(generations, s), Free, 0)
                              case Some(e) => Slot(GenOf(generations, s), StartState(e, now), e.expiresAt))
            && (forall k | k in t.cold && k.slot == s :: At(entries, s).Some? && k == At(entries, s).value.key)
            && (At(entries, s).Some? ==> At(entries, s).value.key in t.cold && t.cold[At(entries, s).value.key] == StartCold(At(entries, s).value, now))
  {
    if entries != [] {
      var n := |entries| - 1;
      assert EntriesCurrent(entries[..n], generations);
      StartedRow(entries[..n], generations, capacity, now, s);
      StartedGeneration(entries[..n], generations, capacity, now, entries[n].key.slot);
      AtMember(entries[..n], s);
    }
  }

  lemma {:induction false} StartedGeneration(entries: seq<Entry>, generations: seq<nat>, capacity: nat, now: nat, s: nat)
    ensures var t := InstallAll(EmptyTable(generations, capacity), entries, now);
            |t.slots| == capacity && (s < capacity ==> t.slots[s].generation == GenOf(generations, s))
            && forall k | k in t.cold :: k.slot < capacity
  {
    if entries != [] {
      StartedGeneration(entries[..|entries| - 1], generations, capacity, now, s);
    }
  }

  // ---- slots beyond the configured capacity ----

  function HighEntries(entries: seq<Entry>, capacity: nat, now: nat): seq<Entry> {
    if entries == [] then []
    else
      var n := |entries| - 1;
      var e := entries[n];
      HighEntries(entries[..n], capacity, now)
      + if e.key.slot < capacity then []
        else if e.state == Active && e.expiresAt <= now
        then [e.(state := Expired, tombstonedAt := Some(if e.tombstonedAt.Some? then e.tombstonedAt.value else e.expiresAt))]
        else [e]
  }

  lemma {:induction false} HighEntriesFrom(entries: seq<Entry>, capacity: nat, now: nat)
    ensures forall h | h in HighEntries(entries, capacity, now) ::
              h.key.slot >= capacity && exists e | e in entries :: e.key == h.key && e.expiresAt == h.expiresAt && (h.state == e.state || h.state == Expired)
    ensures OnePerSlot(entries) ==> OnePerSlot(HighEntries(entries, capacity, now))
  {
    if entries != [] {
      HighEntriesFrom(entries[..|entries| - 1], capacity, now);
    }
  }
}
