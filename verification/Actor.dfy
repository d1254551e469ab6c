/**
Whole runs of the authentication state: commands, ticks, compactions, resets, rotations and
restarts, in any order.

`Sound` is what every run keeps. From it: a restart finds exactly the unexpired keys the
table had, replay never meets a key it does not know, and no key id is handed out twice.
*/
module ActorRuns {
  import opened Wrappers
  import opened Lifecycle
  import opened KeyLives
  import opened Recovery
  import R = Restore
  import P = Persistence

  /** The table and its deadlines, what is kept beyond the capacity, and the disk. */
  datatype Actor = Actor(life: Life, high: seq<nat>, highEntries: seq<P.Entry>, instance: nat, audits: seq<P.Audit>, disk: P.Disk)

  datatype Command =
    | Act(op: Op)
    | Gc(at: nat)
    | Note(at: nat, key: Option<KeyId>)
    | Compact(at: nat)
    | Reset(at: nat, instance: nat)
    | Rotate(at: nat)
    | Restart(at: nat, capacity: nat)

  function Time(c: Command): nat {
    if c.Act? then c.op.wall else c.at
  }

  function AuditOf(op: Op, m: P.Mutation): P.Audit {
    match m
    case Issue(e) => P.Audit(op.wall, P.KeyIssue, Some(e.key))
    case Renew(k, _) => P.Audit(op.wall, P.KeyRenew, Some(k))
    case Revoke(k, _) => P.Audit(op.wall, P.KeyRevoke, Some(k))
  }

  /** `write_snapshot_and_truncate_wal`. */
  function Rewritten(s: P.Snapshot): P.Disk {
    P.Disk(Some(s), [])
  }

  function Compacted(a: Actor, audits: seq<P.Audit>): P.Disk {
    Rewritten(P.Build(a.life.table.slots, a.life.table.cold, a.high, a.highEntries, a.instance, audits))
  }

  ghost function Acted(a: Actor, op: Op): Actor {
    var m := Logged(a.life, op);
    if m.None? then a.(life := Step(a.life, op))
    else
      var audit := AuditOf(op, m.value);
      a.(life := Step(a.life, op), audits := P.PushAudit(a.audits, audit),
         disk := a.disk.(wal := a.disk.wal + [P.Mutated(m.value, audit)]))
  }

  ghost function Collected(a: Actor, at: nat): Actor {
    var audits := P.PushAudit(a.audits, P.Audit(at, P.Other, None));
    var b := a.(life := Step(a.life, Collect(at)), audits := audits);
    b.(disk := Compacted(b, audits))
  }

  /** An audit record of something that changes no key, as showing one does. */
  ghost function Noted(a: Actor, at: nat, key: Option<KeyId>): Actor {
    var audit := P.Audit(at, P.Other, key);
    a.(life := a.life.(wall := at), audits := P.PushAudit(a.audits, audit), disk := a.disk.(wal := a.disk.wal + [P.Audited(audit)]))
  }

  /** A reset or a rotation: an empty snapshot that keeps every generation, then a wipe. */
  ghost function Emptied(a: Actor, at: nat, instance: nat): Actor {
    var audits := P.PushAudit(a.audits, P.Audit(at, P.Other, None));
    a.(life := Step(a.life, Wipe(at)), instance := instance, audits := audits,
       disk := Rewritten(P.Snapshot(instance, P.GenerationsOf(a.life.table.slots) + a.high, [], audits)))
  }

  function Trimmed(audits: seq<P.Audit>): seq<P.Audit> {
    if |audits| > P.AUDIT_CAPACITY then audits[|audits| - P.AUDIT_CAPACITY..] else audits
  }

  /** What a start makes of the state it loaded. */
  ghost function FromStore(p: P.Snapshot, disk: P.Disk, capacity: nat, at: nat, reach: nat): Actor {
    var q := P.Normal(p, at);
    Actor(Reborn(q, capacity, at, reach), HighOf(q, capacity), P.HighEntries(q.entries, capacity, at), p.instance,
          Trimmed(q.audits), if q != p then Rewritten(q) else disk)
  }

  ghost function Restarted(a: Actor, at: nat, capacity: nat): Actor {
    match P.Load(a.disk, a.instance, capacity)
    case Err(_) => a
    case Ok(p) => FromStore(p, a.disk, capacity, at, a.life.reach)
  }

  ghost function StepActor(a: Actor, c: Command): Actor {
    match c
    case Act(op) => Acted(a, op)
    case Gc(at) => Collected(a, at)
    case Note(at, key) => Noted(a, at, key)
    case Compact(at) => a.(life := a.life.(wall := at), disk := Compacted(a, a.audits))
    case Reset(at, instance) => Emptied(a, at, instance)
    case Rotate(at) => Emptied(a, at, a.instance)
    case Restart(at, capacity) => Restarted(a, at, capacity)
  }

  /** The clock does not step back, and issues and renewals happen while the schedule keeps up. */
  predicate LegalCommand(a: Actor, c: Command) {
    a.life.wall <= Time(c)
    && (c.Act? ==> Legal(a.life, c.op) && !c.op.Collect? && !c.op.Wipe?)
  }

  // ---- what every run keeps ----

  ghost predicate MirrorsAt(a: Actor, capacity: nat) {
    P.OnePerSlot(P.Base(a.disk, a.instance, capacity).entries)
    && P.Load(a.disk, a.instance, capacity).Ok? && Mirror(a.life, a.high, P.Load(a.disk, a.instance, capacity).value)
  }

  /** Table and deadlines agree, and a load at any capacity would succeed and mirror the table. */
  ghost predicate Sound(a: Actor) {
    Coherent(a.life) && HighWell(a.life, a.high, a.highEntries) && forall capacity: nat :: MirrorsAt(a, capacity)
  }

  lemma MirrorSame(l: Life, high: seq<nat>, p: P.Snapshot, q: P.Snapshot)
    requires Mirror(l, high, p) && p.entries == q.entries
    requires forall s: nat :: P.GenOf(p.generations, s) == P.GenOf(q.generations, s)
    ensures Mirror(l, high, q)
  {
    forall s: nat
      ensures MirrorSlot(l, high, q, s)
    {
      assert MirrorSlot(l, high, p, s);
    }
  }

  lemma RewrittenMirrors(a: Actor, s: P.Snapshot, capacity: nat)
    requires a.disk == Rewritten(s) && s.instance == a.instance && Mirror(a.life, a.high, s)
    ensures MirrorsAt(a, capacity)
  {
    MirrorSame(a.life, a.high, s, P.Load(a.disk, a.instance, capacity).value);
  }

  lemma SameHigh(a: Actor, b: Actor)
    requires HighWell(a.life, a.high, a.highEntries) && b.high == a.high && b.highEntries == a.highEntries
    requires |b.life.table.slots| == |a.life.table.slots| && a.life.wall <= b.life.wall
    ensures HighWell(b.life, b.high, b.highEntries)
  {
    forall i | 0 <= i < |b.highEntries|
      ensures var e := b.highEntries[i];
              |b.life.table.slots| <= e.key.slot && e.key.generation == GenNow(b.life.table.slots, b.high, e.key.slot)
    {
      assert a.highEntries[i] == b.highEntries[i];
    }
  }

  /** How an operation moves the generation of one row, and that it moves no other. */
  lemma StepRows(l: Life, op: Op)
    requires Coherent(l) && Legal(l, op)
    ensures |Step(l, op).table.slots| == |l.table.slots|
    ensures forall s | 0 <= s < |l.table.slots| ::
              Step(l, op).table.slots[s].generation
              == l.table.slots[s].generation + (if Logged(l, op).Some? && Logged(l, op).value.Issue? && Logged(l, op).value.entry.key.slot == s then 1 else 0)
  {
    LaterWallCoherent(l, op.wall);
    var l' := l.(wall := op.wall);
    match op
    case Issue(wall, ttl, note) =>
      if TtlValid(ttl) && FirstFree(l'.table.slots).Some? {
        IssueCoherent(l', FirstFree(l'.table.slots).value, wall + ttl, wall, note);
      }
    case Revoke(wall, k) =>
      if IsActive(l'.table.slots, k) {
        RevokeCoherent(l', k);
      }
    case Tick(wall) => AdvanceMeans(l', wall);
    case Renew(_, _, _) =>
    case Authenticate(_, _) =>
    case Collect(_) =>
    case Wipe(_) =>
  }

  /** Replay follows the table through one operation. */
  lemma ActedMirrors(a: Actor, op: Op, capacity: nat)
    requires Sound(a) && LegalCommand(a, Act(op))
    ensures MirrorsAt(Acted(a, op), capacity)
  {
    assert MirrorsAt(a, capacity);
    var p := P.Load(a.disk, a.instance, capacity).value;
    var l := a.life.(wall := op.wall);
    WallMirror(a.life, a.high, p, op.wall);
    LaterWallCoherent(a.life, op.wall);
    if Logged(a.life, op).Some? {
      var m := Logged(a.life, op).value;
      P.LoadLogged(a.disk, a.instance, capacity, P.Mutated(m, AuditOf(op, m)));
      LoggedMirror(l, a.high, p, op);
      MirrorSame(Step(l, op), a.high, P.Apply(p, m).value, P.ApplyRecord(p, P.Mutated(m, AuditOf(op, m))).value);
    } else if op.Tick? {
      TickMirror(l, a.high, p, op.wall);
    } else if op.Authenticate? && IsActive(l.table.slots, op.key) && l.table.slots[op.key.slot].expiresAt <= op.wall {
      AuthenticateMirror(l, a.high, p, Cancel(l.table.cancel, op.key, CancelExpired));
    }
  }

  lemma LoggedMirror(l: Life, high: seq<nat>, p: P.Snapshot, op: Op)
    requires Coherent(l) && Mirror(l, high, p) && Legal(l, op) && l.wall == op.wall && Logged(l, op).Some?
    ensures P.Apply(p, Logged(l, op).value).Ok? && Mirror(Step(l, op), high, P.Apply(p, Logged(l, op).value).value)
  {
    assert l.(wall := op.wall) == l;
    match op
    case Issue(wall, ttl, note) => IssueMirror(l, high, p, FirstFree(l.table.slots).value, ttl, note);
    case Renew(wall, k, ttl) => RenewMirror(l, high, p, k, ttl);
    case Revoke(wall, k) => RevokeMirror(l, high, p, k);
  }

  lemma ActedSound(a: Actor, op: Op)
    requires Sound(a) && LegalCommand(a, Act(op))
    ensures Sound(Acted(a, op))
  {
    StepCoherent(a.life, op);
    StepRows(a.life, op);
    SameHigh(a, Acted(a, op));
    forall capacity: nat
      ensures MirrorsAt(Acted(a, op), capacity)
    {
      ActedMirrors(a, op, capacity);
    }
  }

  lemma CompactedSound(a: Actor, audits: seq<P.Audit>)
    requires Sound(a)
    ensures Sound(a.(audits := audits, disk := Compacted(a, audits)))
  {
    var b := a.(audits := audits, disk := Compacted(a, audits));
    assert MirrorsAt(a, 0);
    BuildMirror(a.life, a.high, a.highEntries, P.Load(a.disk, a.instance, 0).value, a.instance, audits);
    forall capacity: nat
      ensures MirrorsAt(b, capacity)
    {
      RewrittenMirrors(b, b.disk.snapshot.value, capacity);
    }
    SameHigh(a, b);
  }

  lemma LaterSound(a: Actor, at: nat)
    requires Sound(a) && a.life.wall <= at
    ensures Sound(a.(life := a.life.(wall := at)))
  {
    var b := a.(life := a.life.(wall := at));
    LaterWallCoherent(a.life, at);
    SameHigh(a, b);
    forall capacity: nat
      ensures MirrorsAt(b, capacity)
    {
      assert MirrorsAt(a, capacity);
      WallMirror(a.life, a.high, P.Load(a.disk, a.instance, capacity).value, at);
    }
  }

  lemma CollectedSound(a: Actor, at: nat)
    requires Sound(a) && a.life.wall <= at
    ensures Sound(Collected(a, at))
  {
    LaterSound(a, at);
    var l := a.life.(wall := at);
    CollectCoherent(l);
    var audits := P.PushAudit(a.audits, P.Audit(at, P.Other, None));
    var b := a.(life := DoCollect(l, at));
    SameHigh(a, b);
    forall capacity: nat
      ensures MirrorsAt(b, capacity)
    {
      assert MirrorsAt(a.(life := l), capacity);
      CollectMirror(l, a.high, P.Load(a.disk, a.instance, capacity).value);
    }
    CompactedSound(b, audits);
    assert Collected(a, at) == b.(audits := audits, disk := Compacted(b, audits));
  }

  lemma NotedSound(a: Actor, at: nat, key: Option<KeyId>)
    requires Sound(a) && a.life.wall <= at
    ensures Sound(Noted(a, at, key))
  {
    var b := Noted(a, at, key);
    LaterSound(a, at);
    SameHigh(a, b);
    forall capacity: nat
      ensures MirrorsAt(b, capacity)
    {
      assert MirrorsAt(a.(life := b.life), capacity);
      P.LoadLogged(a.disk, a.instance, capacity, P.Audited(P.Audit(at, P.Other, key)));
      MirrorSame(b.life, b.high, P.Load(a.disk, a.instance, capacity).value, P.Load(b.disk, b.instance, capacity).value);
    }
  }

  lemma EmptiedSound(a: Actor, at: nat, instance: nat)
    requires Sound(a) && a.life.wall <= at
    ensures Sound(Emptied(a, at, instance))
  {
    LaterWallCoherent(a.life, at);
    var l := a.life.(wall := at);
    var b := Emptied(a, at, instance);
    WipeCoherent(l);
    WipeMirror(l, a.high, instance, b.audits);
    SameHigh(a, b);
    forall capacity: nat
      ensures MirrorsAt(b, capacity)
    {
      RewrittenMirrors(b, b.disk.snapshot.value, capacity);
    }
  }

  lemma RestartedHigh(l: Life, r: Life, high: seq<nat>, q: P.Snapshot, capacity: nat, at: nat)
    requires Mirror(l, high, q) && Mirror(r, HighOf(q, capacity), q) && |r.table.slots| == capacity && l.wall <= at == r.wall
    requires capacity <= |q.generations|
    ensures HighWell(r, HighOf(q, capacity), P.HighEntries(q.entries, capacity, at))
  {
    var hs := P.HighEntries(q.entries, capacity, at);
    P.HighEntriesFrom(q.entries, capacity, at);
    forall i | 0 <= i < |hs|
      ensures var h := hs[i];
              capacity <= h.key.slot && h.key.generation == GenNow(r.table.slots, HighOf(q, capacity), h.key.slot) && h.state != Free
              && (h.state == Active ==> h.expiresAt <= at + MAX_TTL)
    {
      assert hs[i] in hs;
      var e :| e in q.entries && e.key == hs[i].key && e.expiresAt == hs[i].expiresAt && (hs[i].state == e.state || hs[i].state == Expired);
      var j :| 0 <= j < |q.entries| && q.entries[j] == e;
      P.AtIndex(q.entries, j);
      assert MirrorSlot(l, high, q, e.key.slot);
      assert MirrorSlot(r, HighOf(q, capacity), q, e.key.slot);
    }
  }

  lemma RestartedSound(a: Actor, at: nat, capacity: nat)
    requires Sound(a) && a.life.wall <= at
    ensures Sound(Restarted(a, at, capacity))
    ensures |Restarted(a, at, capacity).life.table.slots| == capacity
  {
    assert MirrorsAt(a, capacity);
    var p := P.Load(a.disk, a.instance, capacity).value;
    var q := P.Normal(p, at);
    var b := Restarted(a, at, capacity);
    P.LoadCovers(a.disk, a.instance, capacity);
    NormalMirror(a.life, a.high, p, at);
    RebornMirror(a.life, a.high, q, capacity, at);
    forall c: nat
      ensures MirrorsAt(b, c)
    {
      if q != p {
        RewrittenMirrors(b, q, c);
      } else {
        P.LoadSame(a.disk, a.instance, capacity, c);
        MirrorSame(b.life, b.high, p, P.Load(b.disk, b.instance, c).value);
      }
    }
    RestartedHigh(a.life, b.life, a.high, q, capacity, at);
  }

  lemma StepSound(a: Actor, c: Command)
    requires Sound(a) && LegalCommand(a, c)
    ensures Sound(StepActor(a, c))
  {
    match c
    case Act(op) => ActedSound(a, op);
    case Gc(at) => CollectedSound(a, at);
    case Note(at, key) => NotedSound(a, at, key);
    case Compact(at) =>
      CompactedSound(a, a.audits);
      LaterSound(a.(disk := Compacted(a, a.audits)), at);
    case Reset(at, instance) => EmptiedSound(a, at, instance);
    case Rotate(at) => EmptiedSound(a, at, a.instance);
    case Restart(at, capacity) => RestartedSound(a, at, capacity);
  }

  // ---- whole runs ----

  ghost function AfterAll(a: Actor, run: seq<Command>): Actor {
    if run == [] then a else StepActor(AfterAll(a, run[..|run| - 1]), run[|run| - 1])
  }

  ghost predicate LegalAll(a: Actor, run: seq<Command>) {
    run == [] || (LegalAll(a, run[..|run| - 1]) && LegalCommand(AfterAll(a, run[..|run| - 1]), run[|run| - 1]))
  }

  lemma {:induction false} RunSound(a: Actor, run: seq<Command>)
    requires Sound(a) && LegalAll(a, run)
    ensures Sound(AfterAll(a, run))
  {
    if run != [] {
      RunSound(a, run[..|run| - 1]);
      StepSound(AfterAll(a, run[..|run| - 1]), run[|run| - 1]);
    }
  }

  /** The very first start, on an empty disk. */
  function FirstStart(instance: nat, capacity: nat, now: nat, reach: nat): Actor {
    Actor(Life(now, now, reach, P.EmptyTable([], capacity), map[], map[]), [], [], instance, [], P.Disk(None, []))
  }

  lemma FirstStartSound(instance: nat, capacity: nat, now: nat, reach: nat)
    requires MAX_SCHEDULABLE <= reach
    ensures Sound(FirstStart(instance, capacity, now, reach))
  {
    var a := FirstStart(instance, capacity, now, reach);
    forall k
      ensures Agrees(a.life, k)
    {
    }
    forall c: nat
      ensures MirrorsAt(a, c)
    {
      forall s: nat
        ensures MirrorSlot(a.life, a.high, P.Load(a.disk, instance, c).value, s)
      {
      }
    }
  }

  lemma SoundRecovers(a: Actor, now: nat, k: KeyId)
    requires Sound(a) && a.life.wall <= now
    ensures var b := StepActor(a, Restart(now, |a.life.table.slots|));
            P.Load(a.disk, a.instance, |a.life.table.slots|).Ok?
            && P.GenerationsOf(b.life.table.slots) == P.GenerationsOf(a.life.table.slots)
            && Recovered(a.life, b.life, now, k)
  {
    var n := |a.life.table.slots|;
    assert MirrorsAt(a, n);
    var p := P.Load(a.disk, a.instance, n).value;
    P.LoadCovers(a.disk, a.instance, n);
    NormalMirror(a.life, a.high, p, now);
    RebornRecovers(a.life, a.high, P.Normal(p, now), now, k);
  }

  /**
  Recovery: after any run, restarting at the same capacity gives the same generations and
  exactly the unexpired active keys, each with its expiry, issue time and note.
  */
  lemma RestartRecovers(instance: nat, capacity: nat, start: nat, reach: nat, run: seq<Command>, now: nat, k: KeyId)
    requires MAX_SCHEDULABLE <= reach && LegalAll(FirstStart(instance, capacity, start, reach), run)
    requires AfterAll(FirstStart(instance, capacity, start, reach), run).life.wall <= now
    ensures var a := AfterAll(FirstStart(instance, capacity, start, reach), run);
            var b := StepActor(a, Restart(now, |a.life.table.slots|));
            P.Load(a.disk, a.instance, |a.life.table.slots|).Ok?
            && P.GenerationsOf(b.life.table.slots) == P.GenerationsOf(a.life.table.slots)
            && Recovered(a.life, b.life, now, k)
  {
    FirstStartSound(instance, capacity, start, reach);
    RunSound(FirstStart(instance, capacity, start, reach), run);
    SoundRecovers(AfterAll(FirstStart(instance, capacity, start, reach), run), now, k);
  }

  // ---- key ids ----

  /** The key id a command hands out, if any. */
  function Handed(a: Actor, c: Command): Option<KeyId> {
    if c.Act? && Logged(a.life, c.op).Some? && Logged(a.life, c.op).value.Issue?
    then Some(Logged(a.life, c.op).value.entry.key) else None
  }

  function Generation(a: Actor, s: nat): nat {
    GenNow(a.life.table.slots, a.high, s)
  }

  lemma RestartGeneration(a: Actor, at: nat, capacity: nat, s: nat)
    requires Sound(a) && a.life.wall <= at
    ensures Generation(Restarted(a, at, capacity), s) == Generation(a, s)
  {
    var b := Restarted(a, at, capacity);
    RestartedSound(a, at, capacity);
    assert MirrorsAt(a, capacity) && MirrorsAt(b, capacity);
    assert MirrorSlot(a.life, a.high, P.Load(a.disk, a.instance, capacity).value, s);
    assert MirrorSlot(b.life, b.high, P.Load(b.disk, b.instance, capacity).value, s);
    P.LoadCovers(a.disk, a.instance, capacity);
  }

  /** Only an issue moves a generation, by one, and a restart at any capacity moves none. */
  lemma StepGeneration(a: Actor, c: Command, s: nat)
    requires Sound(a) && LegalCommand(a, c)
    ensures Generation(StepActor(a, c), s)
            == Generation(a, s) + (if Handed(a, c).Some? && Handed(a, c).value.slot == s then 1 else 0)
    ensures Handed(a, c).Some? ==> Handed(a, c).value.generation == Generation(a, Handed(a, c).value.slot) + 1
  {
    match c
    case Act(op) => StepRows(a.life, op);
    case Gc(at) => StepRows(a.life, Collect(at));
    case Note(at, key) =>
    case Compact(at) =>
    case Reset(at, instance) => StepRows(a.life, Wipe(at));
    case Rotate(at) => StepRows(a.life, Wipe(at));
    case Restart(at, capacity) => RestartGeneration(a, at, capacity, s);
  }

  ghost function AllHanded(a: Actor, run: seq<Command>): seq<KeyId> {
    if run == [] then []
    else
      var n := |run| - 1;
      AllHanded(a, run[..n]) + match Handed(AfterAll(a, run[..n]), run[n]) case None => [] case Some(k) => [k]
  }

  /** `keys` are distinct, all handed out between `a` and `b`. */
  ghost predicate HandedOnce(a: Actor, b: Actor, keys: seq<KeyId>) {
    (forall i, j | 0 <= i < j < |keys| :: keys[i] != keys[j])
    && (forall i | 0 <= i < |keys| :: Generation(a, keys[i].slot) < keys[i].generation <= Generation(b, keys[i].slot))
    && forall s: nat :: Generation(a, s) <= Generation(b, s)
  }

  lemma HandedMore(a: Actor, b: Actor, c: Command, keys: seq<KeyId>)
    requires Sound(b) && LegalCommand(b, c) && HandedOnce(a, b, keys)
    ensures HandedOnce(a, StepActor(b, c), keys + match Handed(b, c) case None => [] case Some(k) => [k])
  {
    var b' := StepActor(b, c);
    forall s: nat
      ensures Generation(a, s) <= Generation(b, s) <= Generation(b', s)
    {
      StepGeneration(b, c, s);
    }
    if Handed(b, c).Some? {
      StepGeneration(b, c, Handed(b, c).value.slot);
    }
  }

  /**
  No key id is ever handed out twice, over any run mixing issue, expiry, revocation,
  collection, reset, rotation and restarts at growing and shrinking capacities.
  */
  lemma {:induction false} NeverTwice(a: Actor, run: seq<Command>)
    requires Sound(a) && LegalAll(a, run)
    ensures HandedOnce(a, AfterAll(a, run), AllHanded(a, run))
  {
    if run != [] {
      var n := |run| - 1;
      NeverTwice(a, run[..n]);
      RunSound(a, run[..n]);
      HandedMore(a, AfterAll(a, run[..n]), run[n], AllHanded(a, run[..n]));
    }
  }
}
