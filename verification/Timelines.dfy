/**
Row timelines: over any run, the clock alone decides what a key's row says.
*/
module Timelines {
  import opened Wrappers
  import opened Lifecycle
  import opened KeyLives

  /** The row no longer belongs to `k`, and can never belong to it again. */
  ghost predicate Gone(slots: Slots, k: KeyId) {
    k.slot < |slots| && !InUse(slots, k) && slots[k.slot].generation >= k.generation
  }

  /** Active until `until`, expired for the retention, then free. */
  ghost predicate OnTimeline(l: Life, k: KeyId, until: nat) {
    if l.now < until then
      IsActive(l.table.slots, k) && k in l.retireAt && l.retireAt[k] == until
    else if l.now < until + RETENTION then
      InUse(l.table.slots, k) && l.table.slots[k.slot].state == Expired
      && k in l.reapAt && l.reapAt[k] == until + RETENTION
    else
      Gone(l.table.slots, k)
  }

  /** Revoked until its reap, then free. */
  ghost predicate OnRevoked(l: Life, k: KeyId, reapTime: nat) {
    if l.now < reapTime then
      InUse(l.table.slots, k) && l.table.slots[k.slot].state == Revoked
      && k in l.reapAt && l.reapAt[k] == reapTime
    else
      Gone(l.table.slots, k)
  }

  /** `op` does not end `k` ahead of its deadlines. */
  ghost predicate Spares(l: Life, op: Op, k: KeyId) {
    !op.Wipe? && !(op.Revoke? && op.key == k)
    && (op.Collect? ==> InUse(l.table.slots, k) ==> IsActive(l.table.slots, k) && op.wall < l.table.slots[k.slot].expiresAt)
  }

  /** The latest deadline scheduled for `k` once `op` is done. */
  ghost function NextUntil(l: Life, op: Op, k: KeyId, until: nat): nat {
    if op.Renew? && op.key == k && TtlValid(op.ttl) && Renewable(l, k, op.wall) && until < op.wall + op.ttl
    then op.wall + op.ttl else until
  }

  /** What a batch of due callbacks does to the row of `k`. */
  lemma SettledRow(t: Table, retire: set<KeyId>, reap: set<KeyId>, k: KeyId)
    requires k.slot < |t.slots|
    ensures var row := t.slots[k.slot];
            var row' := Settled(t, retire, reap).slots[k.slot];
            row'.generation == row.generation
            && (row'.Holds(k) <==> row.Holds(k) && k !in reap)
            && (row'.Holds(k) ==> row'.state == if row.state == Active && k in retire then Expired else row.state)
  {
  }

  lemma TickTimeline(l: Life, t: nat, k: KeyId, until: nat)
    requires Coherent(l) && l.now <= t && OnTimeline(l, k, until)
    ensures OnTimeline(Advance(l, t), k, until)
  {
    AdvanceMeans(l, t);
    assert Agrees(l, k);
    SettledRow(l.table, DueBy(l.retireAt, t), DueBy(l.reapAt, t), k);
  }

  lemma TickRevoked(l: Life, t: nat, k: KeyId, reapTime: nat)
    requires Coherent(l) && l.now <= t && OnRevoked(l, k, reapTime)
    ensures OnRevoked(Advance(l, t), k, reapTime)
  {
    AdvanceMeans(l, t);
    assert Agrees(l, k);
    SettledRow(l.table, DueBy(l.retireAt, t), DueBy(l.reapAt, t), k);
  }

  lemma CollectSpares(l: Life, k: KeyId)
    requires Coherent(l) && k.slot < |l.table.slots|
    requires InUse(l.table.slots, k) ==> IsActive(l.table.slots, k) && l.wall < l.table.slots[k.slot].expiresAt
    ensures var c := DoCollect(l, l.wall);
            c.now == l.now && c.table.slots[k.slot].generation == l.table.slots[k.slot].generation
            && (InUse(c.table.slots, k) <==> InUse(l.table.slots, k))
            && (InUse(l.table.slots, k) ==> c.table.slots[k.slot] == l.table.slots[k.slot])
            && (k in c.reapAt <==> k in l.reapAt) && (k in l.reapAt ==> c.reapAt[k] == l.reapAt[k])
            && (k in c.retireAt <==> k in l.retireAt) && (k in l.retireAt ==> c.retireAt[k] == l.retireAt[k])
  {
    var due := Collectable(l.table.slots, l.wall);
    assert Agrees(l, k);
    SettledRow(l.table, due * l.retireAt.Keys, due * l.reapAt.Keys, k);
  }

  lemma IssueTimeline(l: Life, ttl: nat, note: Option<string>, k: KeyId, until: nat)
    requires Coherent(l) && Legal(l, Issue(l.wall, ttl, note)) && OnTimeline(l, k, until)
    ensures OnTimeline(Step(l, Issue(l.wall, ttl, note)), k, until)
  {
    assert Agrees(l, k);
    assert l.(wall := l.wall) == l;
    if TtlValid(ttl) && FirstFree(l.table.slots).Some? {
      IssueCoherent(l, FirstFree(l.table.slots).value, l.wall + ttl, l.wall, note);
    }
  }

  lemma RenewTimeline(l: Life, j: KeyId, ttl: nat, k: KeyId, until: nat)
    requires Coherent(l) && Legal(l, Renew(l.wall, j, ttl)) && OnTimeline(l, k, until)
    requires TtlValid(ttl) && Renewable(l, j, l.wall)
    ensures OnTimeline(DoRenew(l, j, l.wall + ttl), k, NextUntil(l, Renew(l.wall, j, ttl), k, until))
  {
    assert Agrees(l, k);
    assert Agrees(l, j);
  }

  lemma RevokeTimeline(l: Life, j: KeyId, k: KeyId, until: nat)
    requires Coherent(l) && j != k && OnTimeline(l, k, until) && IsActive(l.table.slots, j)
    ensures OnTimeline(DoRevoke(l, j), k, until)
  {
    assert Agrees(l, k);
    RevokeCoherent(l, j);
  }

  /** Signing in with a key touches no row and no deadline. */
  lemma AuthenticateTimeline(l: Life, j: KeyId, k: KeyId, until: nat)
    requires OnTimeline(l, k, until)
    ensures OnTimeline(Step(l, Authenticate(l.wall, j)), k, until)
  {
  }

  lemma TimelineStep(l: Life, op: Op, k: KeyId, until: nat)
    requires Coherent(l) && Legal(l, op) && Spares(l, op, k) && OnTimeline(l, k, until)
    ensures OnTimeline(Step(l, op), k, NextUntil(l, op, k, until))
  {
    LaterWallCoherent(l, op.wall);
    TimelineNow(l.(wall := op.wall), op, k, until);
  }

  lemma TimelineNow(l: Life, op: Op, k: KeyId, until: nat)
    requires Coherent(l) && Legal(l, op) && Spares(l, op, k) && OnTimeline(l, k, until) && l.wall == op.wall
    ensures OnTimeline(Step(l, op), k, NextUntil(l, op, k, until))
  {
    assert l.(wall := op.wall) == l;
    if op.Issue? {
      IssueTimeline(l, op.ttl, op.note, k, until);
    } else if op.Renew? {
      if TtlValid(op.ttl) && Renewable(l, op.key, l.wall) {
        RenewTimeline(l, op.key, op.ttl, k, until);
      }
    } else if op.Revoke? {
      if IsActive(l.table.slots, op.key) {
        RevokeTimeline(l, op.key, k, until);
      }
    } else if op.Authenticate? {
      AuthenticateTimeline(l, op.key, k, until);
    } else if op.Tick? {
      TickTimeline(l, op.wall, k, until);
    } else {
      CollectSpares(l, k);
    }
  }

  lemma RevokedStep(l: Life, op: Op, k: KeyId, reapTime: nat)
    requires Coherent(l) && Legal(l, op) && Spares(l, op, k) && OnRevoked(l, k, reapTime)
    ensures OnRevoked(Step(l, op), k, reapTime)
  {
    LaterWallCoherent(l, op.wall);
    var l' := l.(wall := op.wall);
    assert Agrees(l', k);
    match op
    case Issue(wall, ttl, note) =>
      if TtlValid(ttl) && FirstFree(l'.table.slots).Some? {
        IssueCoherent(l', FirstFree(l'.table.slots).value, wall + ttl, wall, note);
      }
    case Renew(wall, j, ttl) =>
    case Revoke(wall, j) =>
      if IsActive(l'.table.slots, j) {
        RevokeCoherent(l', j);
      }
    case Authenticate(wall, j) =>
    case Tick(wall) => TickRevoked(l', wall, k, reapTime);
    case Collect(wall) => CollectSpares(l', k);
  }

  // ---- whole runs ----

  ghost function After(l: Life, ops: seq<Op>): Life {
    if ops == [] then l else Step(After(l, ops[..|ops| - 1]), ops[|ops| - 1])
  }

  ghost predicate LegalRun(l: Life, ops: seq<Op>) {
    ops == [] || (LegalRun(l, ops[..|ops| - 1]) && Legal(After(l, ops[..|ops| - 1]), ops[|ops| - 1]))
  }

  ghost predicate RunSpares(l: Life, ops: seq<Op>, k: KeyId) {
    ops == [] || (RunSpares(l, ops[..|ops| - 1], k) && Spares(After(l, ops[..|ops| - 1]), ops[|ops| - 1], k))
  }

  ghost function UntilAfter(l: Life, ops: seq<Op>, k: KeyId, until: nat): nat {
    if ops == [] then until
    else NextUntil(After(l, ops[..|ops| - 1]), ops[|ops| - 1], k, UntilAfter(l, ops[..|ops| - 1], k, until))
  }

  lemma {:induction false} RunCoherent(l: Life, ops: seq<Op>)
    requires Coherent(l) && LegalRun(l, ops)
    ensures Coherent(After(l, ops))
  {
    if ops != [] {
      RunCoherent(l, ops[..|ops| - 1]);
      StepCoherent(After(l, ops[..|ops| - 1]), ops[|ops| - 1]);
    }
  }

  /**
  From the moment a key is issued, over any run that does not end it early, its row is
  active until its latest scheduled expiry, expired for the retention, then free for good.
  */
  lemma {:induction false} RowTimeline(l: Life, ops: seq<Op>, k: KeyId, until: nat)
    requires Coherent(l) && LegalRun(l, ops) && RunSpares(l, ops, k) && OnTimeline(l, k, until)
    ensures OnTimeline(After(l, ops), k, UntilAfter(l, ops, k, until))
  {
    if ops != [] {
      var before := ops[..|ops| - 1];
      RowTimeline(l, before, k, until);
      RunCoherent(l, before);
      TimelineStep(After(l, before), ops[|ops| - 1], k, UntilAfter(l, before, k, until));
    }
  }

  /** A revoked row stays revoked until its reap, whatever else happens. */
  lemma {:induction false} RevokedTimeline(l: Life, ops: seq<Op>, k: KeyId, reapTime: nat)
    requires Coherent(l) && LegalRun(l, ops) && RunSpares(l, ops, k) && OnRevoked(l, k, reapTime)
    ensures OnRevoked(After(l, ops), k, reapTime)
  {
    if ops != [] {
      var before := ops[..|ops| - 1];
      RevokedTimeline(l, before, k, reapTime);
      RunCoherent(l, before);
      RevokedStep(After(l, before), ops[|ops| - 1], k, reapTime);
    }
  }

  lemma IssueStartsTimeline(l: Life, wall: nat, ttl: nat, note: Option<string>)
    requires Coherent(l) && Legal(l, Issue(wall, ttl, note)) && TtlValid(ttl) && FirstFree(l.table.slots).Some?
    ensures var i := FirstFree(l.table.slots).value;
            OnTimeline(Step(l, Issue(wall, ttl, note)), KeyId(l.table.slots[i].generation + 1, i), wall + ttl)
  {
    LaterWallCoherent(l, wall);
    IssueCoherent(l.(wall := wall), FirstFree(l.table.slots).value, wall + ttl, wall, note);
  }

  lemma RevokeStartsRevoked(l: Life, wall: nat, k: KeyId)
    requires Coherent(l) && Legal(l, Revoke(wall, k)) && IsActive(l.table.slots, k)
    ensures k in l.reapAt && OnRevoked(Step(l, Revoke(wall, k)), k, l.reapAt[k])
  {
    assert Agrees(l, k);
    LaterWallCoherent(l, wall);
    RevokeCoherent(l.(wall := wall), k);
  }
}
