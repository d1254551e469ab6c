/**
The life of every key over whole runs: the table together with both deadlines of each key.

Each operation of the lease schedule is a function on `Life`. `Coherent` is what every
operation keeps; `OnTimeline` fixes a key's row as a function of the clock alone.
*/
module KeyLives {
  import opened Wrappers
  import opened Lifecycle

  const MIN_TTL: nat := 10
  const MAX_TTL: nat := 31_536_000   // 365 days
  const MAX_SCHEDULABLE: nat := MAX_TTL + RETENTION

  /** `wall` is the latest clock reading, `now` the second the wheel stands at. */
  datatype Life = Life(wall: nat, now: nat, reach: nat, table: Table,
                       retireAt: map<KeyId, nat>, reapAt: map<KeyId, nat>)

  /**
  Table, metadata and deadlines agree on `k`: it has metadata and a pending reap exactly
  while a row holds it, and a pending retirement exactly while that row is active.
  */
  ghost predicate Agrees(l: Life, k: KeyId) {
    (k in l.table.cold <==> InUse(l.table.slots, k))
    && (k in l.reapAt <==> InUse(l.table.slots, k))
    && (k in l.retireAt <==> IsActive(l.table.slots, k))
    && (k in l.reapAt ==> l.now < l.reapAt[k] <= l.now + l.reach)
    && (k in l.retireAt ==> l.now < l.retireAt[k] && l.reapAt[k] == l.retireAt[k] + RETENTION)
    && (k in l.retireAt && k in l.table.cancel ==> l.table.slots[k.slot].expiresAt <= l.wall)
  }

  ghost predicate Coherent(l: Life) {
    l.now <= l.wall && MAX_SCHEDULABLE <= l.reach && forall k :: Agrees(l, k)
  }

  // ---- callbacks that run ----

  ghost function RunDue(l: Life, retire: set<KeyId>, reap: set<KeyId>): Life {
    l.(table := Settled(l.table, retire, reap), retireAt := l.retireAt - retire, reapAt := l.reapAt - reap)
  }

  predicate InReach(l: Life, deadline: nat) {
    l.now < deadline <= l.now + l.reach
  }

  ghost function PlaceRetire(l: Life, k: KeyId, deadline: nat): Life {
    if InReach(l, deadline) then l.(retireAt := l.retireAt[k := deadline]) else l.(table := RunRetire(l.table, k))
  }

  ghost function PlaceReap(l: Life, k: KeyId, deadline: nat): Life {
    if InReach(l, deadline) then l.(reapAt := l.reapAt[k := deadline]) else l.(table := RunReap(l.table, k))
  }

  ghost function Watch(l: Life, k: KeyId, expiresAt: nat): Life {
    PlaceReap(PlaceRetire(l, k, expiresAt), k, expiresAt + RETENTION)
  }

  // ---- one second, and any number of them ----

  ghost function DueBy(at: map<KeyId, nat>, t: nat): set<KeyId> {
    set k | k in at && at[k] <= t
  }

  ghost function Second(l: Life): Life {
    var t := l.now + 1;
    RunDue(l.(now := t), DueBy(l.retireAt, t), DueBy(l.reapAt, t))
  }

  /** `while self.now < now`. */
  ghost function Stepped(l: Life, t: nat): Life
    decreases t - l.now
  {
    if t <= l.now then l else Stepped(Second(l), t)
  }

  /** Dropping the whole schedule. */
  ghost function Dropped(l: Life, t: nat): Life {
    RunDue(l.(now := t), l.retireAt.Keys, l.reapAt.Keys)
  }

  ghost function Advance(l: Life, t: nat): Life {
    if t > l.now + l.reach then Dropped(l, t) else Stepped(l, t)
  }

  /** Ticking to `t` runs exactly what is due by `t`, whatever happened in between. */
  lemma {:induction false} SteppedMeans(l: Life, t: nat)
    requires t >= l.now
    requires forall k | k in l.retireAt :: l.now < l.retireAt[k]
    requires forall k | k in l.reapAt :: l.now < l.reapAt[k]
    ensures Stepped(l, t) == RunDue(l.(now := t), DueBy(l.retireAt, t), DueBy(l.reapAt, t))
    decreases t - l.now
  {
    if t == l.now {
      assert DueBy(l.retireAt, t) == {} && DueBy(l.reapAt, t) == {};
      assert l.retireAt - {} == l.retireAt && l.reapAt - {} == l.reapAt;
      SettledNothing(l.table);
    } else {
      var m := Second(l);
      SteppedMeans(m, t);
      DueByThen(l.retireAt, m.now, t);
      DueByThen(l.reapAt, m.now, t);
      SettledTwice(l.table, DueBy(l.retireAt, m.now), DueBy(l.reapAt, m.now), DueBy(m.retireAt, t), DueBy(m.reapAt, t));
    }
  }

  lemma DueByThen(at: map<KeyId, nat>, m: nat, t: nat)
    requires m <= t
    ensures var rest := at - DueBy(at, m);
            DueBy(at, m) + DueBy(rest, t) == DueBy(at, t) && rest - DueBy(rest, t) == at - DueBy(at, t)
  {
  }

  /** A jump past everything a key can wait for leaves what ticking through it would have. */
  lemma FastPathIsSlowPath(l: Life, t: nat)
    requires Coherent(l) && t > l.now + l.reach
    ensures Dropped(l, t) == Stepped(l, t)
  {
    forall k
      ensures k in l.retireAt ==> l.now < l.retireAt[k] <= t
      ensures k in l.reapAt ==> l.now < l.reapAt[k] <= t
    {
      assert Agrees(l, k);
    }
    SteppedMeans(l, t);
    assert DueBy(l.retireAt, t) == l.retireAt.Keys && DueBy(l.reapAt, t) == l.reapAt.Keys;
  }

  lemma AdvanceMeans(l: Life, t: nat)
    requires Coherent(l) && t >= l.now
    ensures Advance(l, t) == RunDue(l.(now := t), DueBy(l.retireAt, t), DueBy(l.reapAt, t))
  {
    forall k
      ensures k in l.retireAt ==> l.now < l.retireAt[k]
      ensures k in l.reapAt ==> l.now < l.reapAt[k]
    {
      assert Agrees(l, k);
    }
    SteppedMeans(l, t);
    if t > l.now + l.reach {
      FastPathIsSlowPath(l, t);
    }
  }

  // ---- the operations ----

  datatype Op =
    | Issue(wall: nat, ttl: nat, note: Option<string>)
    | Renew(wall: nat, key: KeyId, ttl: nat)
    | Revoke(wall: nat, key: KeyId)
    | Authenticate(wall: nat, key: KeyId)
    | Tick(wall: nat)
    | Collect(wall: nat)
    | Wipe(wall: nat)

  predicate TtlValid(ttl: nat) {
    MIN_TTL <= ttl <= MAX_TTL
  }

  const MAX_GENERATION: nat := 0xFFFF_FFFF

  /** A free row with an unused identity left to hand out. */
  predicate Issuable(row: Slot) {
    row.state == Free && row.generation < MAX_GENERATION
  }

  /** The first row to issue from, if any (`find_map` over the slot table). */
  function FirstFree(slots: Slots): Option<nat> {
    FirstFreeFrom(slots, 0)
  }

  function FirstFreeFrom(slots: Slots, i: nat): (r: Option<nat>)
    requires i <= |slots|
    ensures r.Some? ==> i <= r.value < |slots| && Issuable(slots[r.value]) && forall j | i <= j < r.value :: !Issuable(slots[j])
    ensures r.None? ==> forall j | i <= j < |slots| :: !Issuable(slots[j])
    decreases |slots| - i
  {
    if i == |slots| then None
    else if Issuable(slots[i]) then Some(i)
    else FirstFreeFrom(slots, i + 1)
  }

  /** The row, cold entry and lease of a newly issued key. */
  function Installed(t: Table, i: nat, expiresAt: nat, issuedAt: nat, note: Option<string>): Table
    requires i < |t.slots|
  {
    var k := KeyId(t.slots[i].generation + 1, i);
    Table(t.slots[i := Slot(k.generation, Active, expiresAt)],
          t.cold[k := Cold(issuedAt, note, 0)],
          t.cancel - {k})
  }

  ghost function DoIssue(l: Life, i: nat, expiresAt: nat, issuedAt: nat, note: Option<string>): Life
    requires i < |l.table.slots|
  {
    Watch(l.(table := Installed(l.table, i, expiresAt, issuedAt, note)),
          KeyId(l.table.slots[i].generation + 1, i), expiresAt)
  }

  predicate Renewable(l: Life, k: KeyId, wall: nat) {
    IsActive(l.table.slots, k) && k in l.table.cold && l.table.slots[k.slot].expiresAt > wall
  }

  function Extend(at: map<KeyId, nat>, l: Life, k: KeyId, deadline: nat): map<KeyId, nat> {
    if k in at && InReach(l, deadline) then at[k := if at[k] < deadline then deadline else at[k]] else at
  }

  /** Moves both stages of a key to the later of the old and the new deadline. */
  function Reschedule(l: Life, k: KeyId, expiresAt: nat): Life {
    l.(retireAt := Extend(l.retireAt, l, k, expiresAt), reapAt := Extend(l.reapAt, l, k, expiresAt + RETENTION))
  }

  function DoRenew(l: Life, k: KeyId, expiresAt: nat): Life
    requires k.slot < |l.table.slots|
  {
    Reschedule(l.(table := l.table.(slots := l.table.slots[k.slot := l.table.slots[k.slot].(expiresAt := expiresAt)])), k, expiresAt)
  }

  /** Fires a key's retire stage early, leaving its reap on schedule. */
  function RetireNow(l: Life, k: KeyId): Life {
    if k in l.retireAt then l.(table := RunRetire(l.table, k), retireAt := l.retireAt - {k}) else l
  }

  /** Marking the row, cancelling its lease, and firing its retire stage early. */
  function DoRevoke(l: Life, k: KeyId): Life
    requires k.slot < |l.table.slots|
  {
    RetireNow(l.(table := Table(l.table.slots[k.slot := l.table.slots[k.slot].(state := Revoked)], l.table.cold,
                                Cancel(l.table.cancel, k, CancelRevoked))), k)
  }

  /** The keys of rows that are dead, or active past their expiry. */
  ghost function Collectable(slots: Slots, wall: nat): (keys: set<KeyId>)
    ensures forall k :: k in keys <==> InUse(slots, k) && (IsActive(slots, k) ==> slots[k.slot].expiresAt <= wall)
  {
    set i | 0 <= i < |slots| && slots[i].IsCollectable(wall) :: KeyOf(slots, i)
  }

  /** The rows a collection ends: expired, revoked, or active with their expiry reached. */
  ghost function EndedRows(slots: Slots, wall: nat): set<nat> {
    set i: nat | i < |slots| && (slots[i].state == Expired || slots[i].state == Revoked || (slots[i].state == Active && slots[i].expiresAt <= wall))
  }

  lemma CollectableNext(slots: Slots, i: nat, wall: nat)
    requires i < |slots|
    ensures KeyOf(slots, i) !in Collectable(slots[..i], wall)
    ensures Collectable(slots[..i + 1], wall)
            == Collectable(slots[..i], wall) + (if slots[i].IsCollectable(wall) then {KeyOf(slots, i)} else {})
  {
  }

  lemma EndedRowsNext(slots: Slots, i: nat, wall: nat)
    requires i < |slots|
    ensures i !in EndedRows(slots[..i], wall)
    ensures EndedRows(slots[..i + 1], wall) == EndedRows(slots[..i], wall) + (if slots[i].IsCollectable(wall) then {i} else {})
  {
  }

  /** A collection ends one key for each of those rows. */
  lemma {:induction false} CollectableCount(slots: Slots, wall: nat)
    ensures |Collectable(slots, wall)| == |EndedRows(slots, wall)|
  {
    if slots == [] {
      assert Collectable(slots, wall) == {} && EndedRows(slots, wall) == {};
    } else {
      var n := |slots| - 1;
      assert slots[..n + 1] == slots;
      CollectableCount(slots[..n], wall);
      CollectableNext(slots, n, wall);
      EndedRowsNext(slots, n, wall);
    }
  }

  /** Ending keys runs whichever of their stages are still pending. */
  ghost function Ended(l: Life, keys: set<KeyId>): Life {
    RunDue(l, keys * l.retireAt.Keys, keys * l.reapAt.Keys)
  }

  ghost function DoCollect(l: Life, wall: nat): Life {
    Ended(l, Collectable(l.table.slots, wall))
  }

  ghost function CancelAll(cancel: map<KeyId, Reason>, keys: set<KeyId>): map<KeyId, Reason> {
    map k | k in cancel.Keys + keys :: if k in cancel then cancel[k] else CancelRotated
  }

  ghost function DoWipe(l: Life, wall: nat): Life {
    Dropped(l.(table := l.table.(cancel := CancelAll(l.table.cancel, ActiveKeys(l.table.slots)))), wall)
  }

  ghost function Step(l: Life, op: Op): Life {
    var l := l.(wall := op.wall);
    match op
    case Issue(wall, ttl, note) =>
      if TtlValid(ttl) && FirstFree(l.table.slots).Some? then
        DoIssue(l, FirstFree(l.table.slots).value, wall + ttl, wall, note)
      else l
    case Renew(wall, k, ttl) =>
      if TtlValid(ttl) && Renewable(l, k, wall) then DoRenew(l, k, wall + ttl) else l
    case Revoke(wall, k) =>
      if IsActive(l.table.slots, k) && k in l.table.cold then DoRevoke(l, k) else l
    case Authenticate(wall, k) =>
      if IsActive(l.table.slots, k) && l.table.slots[k.slot].expiresAt <= wall
      then l.(table := l.table.(cancel := Cancel(l.table.cancel, k, CancelExpired))) else l
    case Tick(wall) => Advance(l, wall)
    case Collect(wall) => DoCollect(l, wall)
    case Wipe(wall) => DoWipe(l, wall)
  }

  /** The clock does not step back, and the schedule lags it by less than it can hold. */
  predicate Legal(l: Life, op: Op) {
    l.wall <= op.wall
    && (op.Issue? || op.Renew? ==> op.wall + MAX_SCHEDULABLE <= l.now + l.reach)
  }

  // ---- what every operation keeps ----

  /** What a batch of callbacks does to one key. */
  lemma SettledKey(t: Table, retire: set<KeyId>, reap: set<KeyId>, k: KeyId)
    requires k in t.cold <==> InUse(t.slots, k)
    ensures var t' := Settled(t, retire, reap);
            (InUse(t'.slots, k) <==> InUse(t.slots, k) && k !in reap)
            && (k in t'.cold <==> InUse(t'.slots, k))
            && (IsActive(t'.slots, k) <==> IsActive(t.slots, k) && k !in reap && k !in retire)
            && (IsActive(t'.slots, k) ==> t'.slots[k.slot] == t.slots[k.slot] && (k in t'.cancel <==> k in t.cancel))
  {
    if k.slot < |t.slots| {
      assert Settled(t, retire, reap).slots[k.slot] == SettledSlot(t.slots, k.slot, retire, reap);
    }
  }

  /** Running pending callbacks keeps coherence, as long as no row is reaped before it is retired. */
  lemma RunDueCoherent(l: Life, t: nat, retire: set<KeyId>, reap: set<KeyId>)
    requires Coherent(l) && l.now <= t <= l.wall
    requires forall k | k in reap && k in l.retireAt :: k in retire
    requires forall k | k in l.retireAt && k !in retire :: t < l.retireAt[k]
    requires forall k | k in l.reapAt && k !in reap :: t < l.reapAt[k]
    ensures Coherent(RunDue(l.(now := t), retire, reap))
  {
    var l' := RunDue(l.(now := t), retire, reap);
    forall k
      ensures Agrees(l', k)
    {
      assert Agrees(l, k);
      SettledKey(l.table, retire, reap, k);
    }
  }

  lemma AdvanceCoherent(l: Life, t: nat)
    requires Coherent(l) && l.now <= t <= l.wall
    ensures Coherent(Advance(l, t))
  {
    AdvanceMeans(l, t);
    forall k | k in DueBy(l.reapAt, t) && k in l.retireAt
      ensures k in DueBy(l.retireAt, t)
    {
      assert Agrees(l, k);
    }
    RunDueCoherent(l, t, DueBy(l.retireAt, t), DueBy(l.reapAt, t));
  }

  lemma IssueCoherent(l: Life, i: nat, expiresAt: nat, issuedAt: nat, note: Option<string>)
    requires Coherent(l) && i < |l.table.slots| && l.table.slots[i].state == Free
    requires l.now < expiresAt && expiresAt + RETENTION <= l.now + l.reach
    ensures Coherent(DoIssue(l, i, expiresAt, issuedAt, note))
    ensures var k := KeyId(l.table.slots[i].generation + 1, i);
            DoIssue(l, i, expiresAt, issuedAt, note)
            == l.(table := Installed(l.table, i, expiresAt, issuedAt, note),
                  retireAt := l.retireAt[k := expiresAt], reapAt := l.reapAt[k := expiresAt + RETENTION])
  {
    var l' := DoIssue(l, i, expiresAt, issuedAt, note);
    forall k
      ensures Agrees(l', k)
    {
      assert Agrees(l, k);
    }
  }

  lemma RenewCoherent(l: Life, k: KeyId, expiresAt: nat)
    requires Coherent(l) && Renewable(l, k, l.wall)
    requires l.now < expiresAt && expiresAt + RETENTION <= l.now + l.reach
    ensures Coherent(DoRenew(l, k, expiresAt))
    ensures k !in l.table.cancel   // so a renewal never has to replace a cancelled lease
  {
    var l' := DoRenew(l, k, expiresAt);
    assert Agrees(l, k);
    forall j
      ensures Agrees(l', j)
    {
      assert Agrees(l, j);
    }
  }

  lemma RevokeCoherent(l: Life, k: KeyId)
    requires Coherent(l) && IsActive(l.table.slots, k)
    ensures Coherent(DoRevoke(l, k))
    ensures DoRevoke(l, k).table.slots == l.table.slots[k.slot := l.table.slots[k.slot].(state := Revoked)]
    ensures DoRevoke(l, k).table.cold == l.table.cold
  {
    var l' := DoRevoke(l, k);
    assert Agrees(l, k);
    forall j
      ensures Agrees(l', j)
    {
      assert Agrees(l, j);
    }
  }

  /** After a garbage collection a row is in use exactly if it was active and its expiry is still ahead. */
  lemma CollectCoherent(l: Life)
    requires Coherent(l)
    ensures Coherent(DoCollect(l, l.wall))
    ensures forall k :: InUse(DoCollect(l, l.wall).table.slots, k) <==>
                          IsActive(l.table.slots, k) && l.wall < l.table.slots[k.slot].expiresAt
    ensures forall k :: k in DoCollect(l, l.wall).table.cold <==>
                          IsActive(l.table.slots, k) && l.wall < l.table.slots[k.slot].expiresAt
    ensures |DoCollect(l, l.wall).table.slots| == |l.table.slots|
    ensures forall i | 0 <= i < |l.table.slots| :: DoCollect(l, l.wall).table.slots[i].generation == l.table.slots[i].generation
  {
    var due := Collectable(l.table.slots, l.wall);
    forall k | k in due
      ensures k in l.reapAt
    {
      assert Agrees(l, k);
    }
    forall k
      ensures k in l.retireAt ==> l.now < l.retireAt[k]
      ensures k in l.reapAt ==> l.now < l.reapAt[k]
      ensures k in l.table.cold <==> InUse(l.table.slots, k)
    {
      assert Agrees(l, k);
    }
    RunDueCoherent(l, l.now, due * l.retireAt.Keys, due * l.reapAt.Keys);
    assert l.(now := l.now) == l;
    forall k
      ensures InUse(DoCollect(l, l.wall).table.slots, k) <==> IsActive(l.table.slots, k) && l.wall < l.table.slots[k.slot].expiresAt
      ensures k in DoCollect(l, l.wall).table.cold <==> InUse(DoCollect(l, l.wall).table.slots, k)
    {
      SettledKey(l.table, due * l.retireAt.Keys, due * l.reapAt.Keys, k);
    }
  }

  /** A wipe frees every row and forgets every key, keeping every generation. */
  lemma WipeCoherent(l: Life)
    requires Coherent(l)
    ensures var w := DoWipe(l, l.wall);
            Coherent(w) && w.table.cold == map[] && w.reapAt == map[] && w.retireAt == map[]
            && |w.table.slots| == |l.table.slots|
            && forall i | 0 <= i < |w.table.slots| ::
                 w.table.slots[i].state == Free && w.table.slots[i].generation == l.table.slots[i].generation
  {
    var c := l.(table := l.table.(cancel := CancelAll(l.table.cancel, ActiveKeys(l.table.slots))));
    var w := DoWipe(l, l.wall);
    forall k
      ensures Agrees(w, k) && !InUse(w.table.slots, k) && k !in w.table.cold
    {
      assert Agrees(l, k);
      SettledKey(c.table, c.retireAt.Keys, c.reapAt.Keys, k);
    }
    forall i | 0 <= i < |w.table.slots|
      ensures w.table.slots[i].state == Free
    {
      assert !InUse(w.table.slots, KeyOf(w.table.slots, i));
    }
  }

  lemma LaterWallCoherent(l: Life, wall: nat)
    requires Coherent(l) && l.wall <= wall
    ensures Coherent(l.(wall := wall))
  {
    forall k
      ensures Agrees(l.(wall := wall), k)
    {
      assert Agrees(l, k);
    }
  }

  lemma AuthenticateCoherent(l: Life, k: KeyId)
    requires Coherent(l) && IsActive(l.table.slots, k) && l.table.slots[k.slot].expiresAt <= l.wall
    ensures Coherent(l.(table := l.table.(cancel := Cancel(l.table.cancel, k, CancelExpired))))
  {
    var l' := l.(table := l.table.(cancel := Cancel(l.table.cancel, k, CancelExpired)));
    forall j
      ensures Agrees(l', j)
    {
      assert Agrees(l, j);
    }
  }

  /** Every operation of a run keeps table, metadata and deadlines in step. */
  lemma StepCoherent(l: Life, op: Op)
    requires Coherent(l) && Legal(l, op)
    ensures Coherent(Step(l, op)) && Step(l, op).wall == op.wall && Step(l, op).reach == l.reach
  {
    LaterWallCoherent(l, op.wall);
    var l' := l.(wall := op.wall);
    match op
    case Issue(wall, ttl, note) =>
      if TtlValid(ttl) && FirstFree(l'.table.slots).Some? {
        IssueCoherent(l', FirstFree(l'.table.slots).value, wall + ttl, wall, note);
      }
    case Renew(wall, k, ttl) =>
      if TtlValid(ttl) && Renewable(l', k, wall) {
        RenewCoherent(l', k, wall + ttl);
      }
    case Revoke(wall, k) =>
      if IsActive(l'.table.slots, k) {
        RevokeCoherent(l', k);
      }
    case Authenticate(wall, k) =>
      if IsActive(l'.table.slots, k) && l'.table.slots[k.slot].expiresAt <= wall {
        AuthenticateCoherent(l', k);
      }
    case Tick(wall) =>
      AdvanceCoherent(l', wall);
      AdvanceMeans(l', wall);
    case Collect(wall) => CollectCoherent(l');
    case Wipe(wall) => WipeCoherent(l');
  }
}
