/**
What a command does, in rows, times, log records and cancellation reasons: when a key is
issued, renewed or revoked and what is then in the table, the schedule and the log, and why
a lease ends.
*/
module KeyCommands {
  import opened Wrappers
  import opened Lifecycle
  import opened KeyLives
  import opened Recovery
  import opened ActorRuns
  import P = Persistence

  // ---- issuing ----

  /** A key is issued for 10 seconds to 365 days, from the first free row that has a generation left. */
  lemma IssueAnswered(a: Actor, wall: nat, ttl: nat, note: Option<string>)
    ensures var slots, handed := a.life.table.slots, Handed(a, Act(Issue(wall, ttl, note)));
            (handed.Some? <==> 10 <= ttl <= 31_536_000
                               && exists i :: 0 <= i < |slots| && slots[i].state == Free && slots[i].generation < 0xFFFF_FFFF)
            && (handed.Some? ==>
                  var k := handed.value;
                  k.slot < |slots| && slots[k.slot].state == Free && k.generation == slots[k.slot].generation + 1 <= 0xFFFF_FFFF
                  && forall j | 0 <= j < k.slot :: slots[j].state != Free || slots[j].generation >= 0xFFFF_FFFF)
  {
    var slots := a.life.table.slots;
    if i :| 0 <= i < |slots| && slots[i].state == Free && slots[i].generation < 0xFFFF_FFFF {
      assert Issuable(slots[i]);
      assert FirstFree(slots).Some?;
    }
  }

  /** A row active for the lifetime asked for, fresh metadata and lease, both deadlines, and one log record. */
  lemma IssueDone(a: Actor, wall: nat, ttl: nat, note: Option<string>)
    requires Sound(a) && LegalCommand(a, Act(Issue(wall, ttl, note))) && Handed(a, Act(Issue(wall, ttl, note))).Some?
    ensures var k := Handed(a, Act(Issue(wall, ttl, note))).value;
            var b := StepActor(a, Act(Issue(wall, ttl, note)));
            b.life.table.slots == a.life.table.slots[k.slot := Slot(k.generation, Active, wall + ttl)]
            && b.life.table.cold == a.life.table.cold[k := Cold(wall, note, 0)]
            && k !in b.life.table.cancel && (forall j | j != k :: j in b.life.table.cancel <==> j in a.life.table.cancel)
            && b.life.retireAt == a.life.retireAt[k := wall + ttl] && b.life.reapAt == a.life.reapAt[k := wall + ttl + 60]
            && b.disk.snapshot == a.disk.snapshot
            && b.disk.wal == a.disk.wal
                             + [P.Mutated(P.Mutation.Issue(P.Entry(k, Active, wall, wall + ttl, note, None)), P.Audit(wall, P.KeyIssue, Some(k)))]
  {
    LaterWallCoherent(a.life, wall);
    IssueCoherent(a.life.(wall := wall), FirstFree(a.life.table.slots).value, wall + ttl, wall, note);
  }

  // ---- renewing ----

  /** Only an active key whose expiry is ahead is renewed. */
  lemma RenewAnswered(a: Actor, wall: nat, k: KeyId, ttl: nat)
    requires Sound(a)
    ensures Logged(a.life, Renew(wall, k, ttl)).Some?
            <==> 10 <= ttl <= 31_536_000 && k.slot < |a.life.table.slots|
                 && a.life.table.slots[k.slot].generation == k.generation && a.life.table.slots[k.slot].state == Active
                 && wall < a.life.table.slots[k.slot].expiresAt
  {
    assert Agrees(a.life, k);
  }

  /** The row expires a lifetime from now, and neither deadline moves back. */
  lemma RenewDone(a: Actor, wall: nat, k: KeyId, ttl: nat)
    requires Sound(a) && LegalCommand(a, Act(Renew(wall, k, ttl))) && Logged(a.life, Renew(wall, k, ttl)).Some?
    ensures k in a.life.retireAt && k in a.life.reapAt && k.slot < |a.life.table.slots|
    ensures var b := StepActor(a, Act(Renew(wall, k, ttl)));
            var until := if a.life.retireAt[k] < wall + ttl then wall + ttl else a.life.retireAt[k];
            b.life.table == a.life.table.(slots := a.life.table.slots[k.slot := Slot(k.generation, Active, wall + ttl)])
            && b.life.retireAt == a.life.retireAt[k := until] && b.life.reapAt == a.life.reapAt[k := until + 60]
            && b.disk.snapshot == a.disk.snapshot
            && b.disk.wal == a.disk.wal + [P.Mutated(P.Mutation.Renew(k, wall + ttl), P.Audit(wall, P.KeyRenew, Some(k)))]
  {
    assert Agrees(a.life, k);
  }

  // ---- revoking ----

  lemma RevokeAnswered(a: Actor, wall: nat, k: KeyId)
    requires Sound(a)
    ensures Logged(a.life, Revoke(wall, k)).Some?
            <==> k.slot < |a.life.table.slots|
                 && a.life.table.slots[k.slot].generation == k.generation && a.life.table.slots[k.slot].state == Active
  {
    assert Agrees(a.life, k);
  }

  /** The row is revoked and its lease cancelled as such, with metadata, expiry and reap kept. */
  lemma RevokeDone(a: Actor, wall: nat, k: KeyId)
    requires Sound(a) && LegalCommand(a, Act(Revoke(wall, k))) && Logged(a.life, Revoke(wall, k)).Some?
    ensures k.slot < |a.life.table.slots| && k in a.life.reapAt
    ensures var b := StepActor(a, Act(Revoke(wall, k)));
            b.life.table.slots == a.life.table.slots[k.slot := Slot(k.generation, Revoked, a.life.table.slots[k.slot].expiresAt)]
            && b.life.table.cold == a.life.table.cold
            && b.life.table.cancel == (if k in a.life.table.cancel then a.life.table.cancel else a.life.table.cancel[k := CancelRevoked])
            && b.life.retireAt == a.life.retireAt - {k} && b.life.reapAt == a.life.reapAt
            && b.disk.snapshot == a.disk.snapshot
            && b.disk.wal == a.disk.wal + [P.Mutated(P.Mutation.Revoke(k, wall), P.Audit(wall, P.KeyRevoke, Some(k)))]
  {
    assert Agrees(a.life, k);
    LaterWallCoherent(a.life, wall);
    RevokeCoherent(a.life.(wall := wall), k);
  }

  // ---- why a lease ends ----

  /** What is cancelled stays cancelled as it was. */
  ghost predicate Cancels(before: map<KeyId, Reason>, after: map<KeyId, Reason>, k: KeyId, ends: bool, reason: Reason) {
    (k in after <==> k in before || ends)
    && (k in after ==> after[k] == if k in before then before[k] else reason)
  }

  /** A tick cancels exactly the leases of the active keys due to retire, as expired. */
  lemma TickCancels(l: Life, wall: nat, k: KeyId)
    requires Coherent(l) && Legal(l, Tick(wall))
    ensures Cancels(l.table.cancel, Step(l, Tick(wall)).table.cancel, k, k in l.retireAt && l.retireAt[k] <= wall, CancelExpired)
  {
    LaterWallCoherent(l, wall);
    AdvanceMeans(l.(wall := wall), wall);
  }

  /** So does a collection, of the active keys past their expiry. */
  lemma CollectCancels(l: Life, wall: nat, k: KeyId)
    requires Coherent(l) && Legal(l, Collect(wall))
    ensures Cancels(l.table.cancel, Step(l, Collect(wall)).table.cancel, k,
                    IsActive(l.table.slots, k) && l.table.slots[k.slot].expiresAt <= wall, CancelExpired)
  {
    assert Agrees(l, k);
  }

  /** A reset or a rotation cancels the lease of every active key as rotated. */
  lemma WipeCancels(l: Life, wall: nat, k: KeyId)
    requires Coherent(l) && Legal(l, Wipe(wall))
    ensures Cancels(l.table.cancel, Step(l, Wipe(wall)).table.cancel, k, IsActive(l.table.slots, k), CancelRotated)
  {
    assert Agrees(l, k);
  }
}
