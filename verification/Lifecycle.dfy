/**
The credential table and its deadlines, as values.

`Life` is the slot table with its cold metadata, the lease cancellations, and the two
deadlines of every key: when it retires and when its row is reaped. A callback that runs
is `RunRetire` or `RunReap`; a set of callbacks has a closed form, `Settled`, that does not
mention their order, which is why a wheel may release one tick's timers in any order and
why dropping the whole schedule equals ticking through it.
*/
module Lifecycle {
  import opened Wrappers

  /** A row of the table and which tenant of it: the two halves of a `u64` key id. */
  datatype KeyId = KeyId(generation: nat, slot: nat)

  datatype SlotState = Free | Active | Expired | Revoked

  datatype Slot = Slot(generation: nat, state: SlotState, expiresAt: nat) {
    /** Whether this row still belongs to `key`'s generation. */
    predicate Holds(key: KeyId) {
      generation == key.generation && state != Free
    }

    predicate IsCollectable(now: nat) {
      match state
      case Expired | Revoked => true
      case Active => expiresAt <= now
      case Free => false
    }

    /** Frees the row for reuse while keeping its generation. */
    function Retire(): Slot {
      Slot(generation, Free, 0)
    }
  }

  datatype Cold = Cold(issuedAt: nat, note: Option<string>, tombstonedAt: nat)

  datatype Reason = CancelExpired | CancelRevoked | CancelRotated

  const RETENTION: nat := 60

  type Slots = seq<Slot>

  function KeyOf(slots: Slots, i: nat): KeyId
    requires i < |slots|
  {
    KeyId(slots[i].generation, i)
  }

  predicate InUse(slots: Slots, k: KeyId) {
    k.slot < |slots| && slots[k.slot].Holds(k)
  }

  predicate IsActive(slots: Slots, k: KeyId) {
    InUse(slots, k) && slots[k.slot].state == Active
  }

  /** The key ids of rows that are not free. */
  ghost function UsedKeys(slots: Slots): (keys: set<KeyId>)
    ensures forall k :: k in keys <==> InUse(slots, k)
  {
    set i | 0 <= i < |slots| && slots[i].state != Free :: KeyOf(slots, i)
  }

  ghost function ActiveKeys(slots: Slots): (keys: set<KeyId>)
    ensures forall k :: k in keys <==> IsActive(slots, k)
  {
    set i | 0 <= i < |slots| && slots[i].state == Active :: KeyOf(slots, i)
  }

  // ---- callbacks ----

  datatype Callback = Retire(key: KeyId) | Reap(key: KeyId)

  /** The state the callbacks touch. */
  datatype Table = Table(slots: Slots, cold: map<KeyId, Cold>, cancel: map<KeyId, Reason>)

  /** `record_cancel`: the first reason sticks. */
  function Cancel(cancel: map<KeyId, Reason>, k: KeyId, r: Reason): map<KeyId, Reason> {
    if k in cancel then cancel else cancel[k := r]
  }

  function RunRetire(t: Table, k: KeyId): Table {
    var t := t.(cancel := Cancel(t.cancel, k, CancelExpired));
    if k.slot >= |t.slots| || !t.slots[k.slot].Holds(k) || t.slots[k.slot].state != Active then t
    else
      var row := t.slots[k.slot];
      t.(slots := t.slots[k.slot := row.(state := Expired)],
         cold := if k in t.cold then t.cold[k := t.cold[k].(tombstonedAt := row.expiresAt)] else t.cold)
  }

  function RunReap(t: Table, k: KeyId): Table {
    if k.slot >= |t.slots| then t.(cold := t.cold - {k})
    else if !t.slots[k.slot].Holds(k) then t
    else t.(slots := t.slots[k.slot := t.slots[k.slot].Retire()], cold := t.cold - {k})
  }

  function Run(t: Table, c: Callback): Table {
    match c
    case Retire(k) => RunRetire(t, k)
    case Reap(k) => RunReap(t, k)
  }

  function RunAll(t: Table, cs: seq<Callback>): Table {
    if cs == [] then t else Run(RunAll(t, cs[..|cs| - 1]), cs[|cs| - 1])
  }

  // ---- the order of callbacks does not matter ----

  ghost function Retired(cs: seq<Callback>): set<KeyId> {
    set c | c in cs && c.Retire? :: c.key
  }

  ghost function Reaped(cs: seq<Callback>): set<KeyId> {
    set c | c in cs && c.Reap? :: c.key
  }

  ghost function SettledSlot(slots: Slots, i: nat, retire: set<KeyId>, reap: set<KeyId>): Slot
    requires i < |slots|
  {
    var row, k := slots[i], KeyOf(slots, i);
    if row.state == Free then row
    else if k in reap then row.Retire()
    else if k in retire && row.state == Active then row.(state := Expired)
    else row
  }

  ghost function SettledCold(slots: Slots, c: Cold, k: KeyId, retire: set<KeyId>): Cold {
    if k in retire && IsActive(slots, k) then c.(tombstonedAt := slots[k.slot].expiresAt) else c
  }

  /** Running the retire callbacks of `retire` and the reap callbacks of `reap`. */
  ghost function Settled(t: Table, retire: set<KeyId>, reap: set<KeyId>): Table {
    Table(seq(|t.slots|, i requires 0 <= i < |t.slots| => SettledSlot(t.slots, i, retire, reap)),
          map k | k in t.cold && !(k in reap && (k.slot >= |t.slots| || InUse(t.slots, k)))
            :: SettledCold(t.slots, t.cold[k], k, retire),
          map k | k in t.cancel.Keys + retire :: if k in t.cancel then t.cancel[k] else CancelExpired)
  }

  lemma SettledNothing(t: Table)
    ensures Settled(t, {}, {}) == t
  {
  }

  lemma SettledRetireSlots(t: Table, retire: set<KeyId>, reap: set<KeyId>, k: KeyId)
    ensures RunRetire(Settled(t, retire, reap), k).slots == Settled(t, retire + {k}, reap).slots
  {
  }

  lemma SettledRetire(t: Table, retire: set<KeyId>, reap: set<KeyId>, k: KeyId)
    ensures RunRetire(Settled(t, retire, reap), k) == Settled(t, retire + {k}, reap)
  {
    SettledRetireSlots(t, retire, reap, k);
    var a, b := RunRetire(Settled(t, retire, reap), k), Settled(t, retire + {k}, reap);
    assert a.cold == b.cold;
    assert a.cancel == b.cancel;
  }

  lemma SettledReap(t: Table, retire: set<KeyId>, reap: set<KeyId>, k: KeyId)
    ensures RunReap(Settled(t, retire, reap), k) == Settled(t, retire, reap + {k})
  {
    var a, b := RunReap(Settled(t, retire, reap), k), Settled(t, retire, reap + {k});
    assert a.slots == b.slots;
    assert a.cold == b.cold;
    assert a.cancel == b.cancel;
  }

  /** Whatever order a set of callbacks runs in, it leaves the same table. */
  lemma {:induction false} RunAllSettles(t: Table, cs: seq<Callback>)
    ensures RunAll(t, cs) == Settled(t, Retired(cs), Reaped(cs))
  {
    if cs == [] {
      SettledNothing(t);
    } else {
      var n := |cs| - 1;
      RunAllSettles(t, cs[..n]);
      assert cs == cs[..n] + [cs[n]];
      if cs[n].Retire? {
        SettledRetire(t, Retired(cs[..n]), Reaped(cs[..n]), cs[n].key);
        assert Retired(cs) == Retired(cs[..n]) + {cs[n].key} && Reaped(cs) == Reaped(cs[..n]);
      } else {
        SettledReap(t, Retired(cs[..n]), Reaped(cs[..n]), cs[n].key);
        assert Retired(cs) == Retired(cs[..n]) && Reaped(cs) == Reaped(cs[..n]) + {cs[n].key};
      }
    }
  }

  lemma OrderIrrelevant(t: Table, a: seq<Callback>, b: seq<Callback>)
    requires forall c :: c in a <==> c in b
    ensures RunAll(t, a) == RunAll(t, b)
  {
    RunAllSettles(t, a);
    RunAllSettles(t, b);
    assert Retired(a) == Retired(b) && Reaped(a) == Reaped(b);
  }

  lemma SettledTwiceSlots(t: Table, r1: set<KeyId>, p1: set<KeyId>, r2: set<KeyId>, p2: set<KeyId>)
    ensures Settled(Settled(t, r1, p1), r2, p2).slots == Settled(t, r1 + r2, p1 + p2).slots
  {
  }

  /** Two batches of callbacks are one batch. */
  lemma SettledTwice(t: Table, r1: set<KeyId>, p1: set<KeyId>, r2: set<KeyId>, p2: set<KeyId>)
    ensures Settled(Settled(t, r1, p1), r2, p2) == Settled(t, r1 + r2, p1 + p2)
  {
    SettledTwiceSlots(t, r1, p1, r2, p2);
    var a, b := Settled(Settled(t, r1, p1), r2, p2), Settled(t, r1 + r2, p1 + p2);
    assert a.cold == b.cold;
    assert a.cancel == b.cancel;
  }
}
