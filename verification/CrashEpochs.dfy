/**
Reset and root rotation across crashes.

The state directory is a record of files; each durable step is one `Write`. An operation or
a recovery is a plan, a list of writes, and a crash keeps a prefix of it. Sealing is ideal:
a sealed file opens under the key that sealed it and under no other.

Whatever prefix of a reset or rotation reached the disk, and however many recoveries were
cut short after it, one recovery that completes ends in the whole old state or the whole
new one. After attempts repeated in one process it does so exactly when what the snapshot
belongs to is live or still staged.
*/
module CrashEpochs {
  import opened Wrappers
  import opened Lifecycle
  import P = Persistence

  type Key = nat
  type Id = nat

  /** A file or record sealed under a key. */
  datatype Sealed<T> = Sealed(key: Key, plain: T) {
    predicate Opens(k: Key) {
      k == key
    }
  }

  /** `server-instance-id`, its staged `.next`, the snapshot, the log, `admin.key`, its `.next`. */
  datatype Files = Files(instance: Option<Id>, instanceNext: Option<Id>, snapshot: Option<Sealed<P.Snapshot>>,
                         wal: seq<Sealed<P.Record>>, key: Key, keyNext: Option<Key>)

  datatype Write =
    | SetInstance(id: Id)
    | SetInstanceNext(id: Id)
    | DropInstanceNext
    | SetSnapshot(snapshot: Sealed<P.Snapshot>)
    | TruncateWal
    | SetKey(key: Key)
    | SetKeyNext(key: Key)
    | DropKeyNext

  function Do(f: Files, w: Write): Files {
    match w
    case SetInstance(id) => f.(instance := Some(id))
    case SetInstanceNext(id) => f.(instanceNext := Some(id))
    case DropInstanceNext => f.(instanceNext := None)
    case SetSnapshot(s) => f.(snapshot := Some(s))
    case TruncateWal => f.(wal := [])
    case SetKey(k) => f.(key := k)
    case SetKeyNext(k) => f.(keyNext := Some(k))
    case DropKeyNext => f.(keyNext := None)
  }

  function DoAll(f: Files, plan: seq<Write>): Files {
    if plan == [] then f else Do(DoAll(f, plan[..|plan| - 1]), plan[|plan| - 1])
  }

  lemma DoNext(f: Files, plan: seq<Write>, k: nat)
    requires k < |plan|
    ensures DoAll(f, plan[..k + 1]) == Do(DoAll(f, plan[..k]), plan[k])
  {
    assert plan[..k + 1][..k] == plan[..k];
  }

  lemma DoThree(f: Files, a: Write, b: Write, c: Write)
    ensures DoAll(f, [a]) == Do(f, a)
    ensures DoAll(f, [a, b, c]) == Do(Do(Do(f, a), b), c)
  {
    assert [a, b, c][..2] == [a, b] && [a, b][..1] == [a];
  }

  lemma {:induction false} DoConcat(f: Files, p: seq<Write>, q: seq<Write>)
    ensures DoAll(f, p + q) == DoAll(DoAll(f, p), q)
  {
    if q == [] {
      assert p + q == p;
    } else {
      assert (p + q)[..|p + q| - 1] == p + q[..|q| - 1];
      DoConcat(f, p, q[..|q| - 1]);
    }
  }

  // ---- the plans ----

  /** `actor_reset`. */
  function ResetPlan(key: Key, s: P.Snapshot): seq<Write> {
    [SetInstanceNext(s.instance), SetSnapshot(Sealed(key, s)), TruncateWal, SetInstance(s.instance), DropInstanceNext]
  }

  /** `actor_rotate_root`. */
  function RotatePlan(newKey: Key, s: P.Snapshot): seq<Write> {
    [SetKeyNext(newKey), SetSnapshot(Sealed(newKey, s)), TruncateWal, SetKey(newKey), DropKeyNext]
  }

  /** `recover_admin_key_after_rotation`. */
  function KeyPlan(f: Files): seq<Write> {
    if f.snapshot.None? || f.snapshot.value.Opens(f.key) || f.keyNext.None? || !f.snapshot.value.Opens(f.keyNext.value) then []
    else [TruncateWal, SetKey(f.keyNext.value), DropKeyNext]
  }

  /** `recover_instance_id_after_reset`. */
  function InstancePlan(f: Files, current: Id): seq<Write> {
    if f.instanceNext.None? then []
    else if f.snapshot.None? then [DropInstanceNext]
    else if !f.snapshot.value.Opens(f.key) then []
    else if f.snapshot.value.plain.instance == current then [DropInstanceNext]
    else if f.snapshot.value.plain.instance != f.instanceNext.value then []
    else [TruncateWal, SetInstance(f.instanceNext.value), DropInstanceNext]
  }

  /** `load_or_create_instance_id`, then the recovery above. */
  function IdPlan(f: Files, freshId: Id): seq<Write> {
    match f.instance
    case Some(id) => InstancePlan(f, id)
    case None => [SetInstance(freshId)] + InstancePlan(Do(f, SetInstance(freshId)), freshId)
  }

  function RecoveryPlan(f: Files, freshId: Id): seq<Write> {
    KeyPlan(f) + IdPlan(DoAll(f, KeyPlan(f)), freshId)
  }

  /** The states a five-step plan passes through. */
  lemma FiveSteps(f: Files, plan: seq<Write>) returns (f1: Files, f2: Files, f3: Files, f4: Files, f5: Files)
    requires |plan| == 5
    ensures f1 == Do(f, plan[0]) && f2 == Do(f1, plan[1]) && f3 == Do(f2, plan[2]) && f4 == Do(f3, plan[3]) && f5 == Do(f4, plan[4])
    ensures DoAll(f, plan[..1]) == f1 && DoAll(f, plan[..2]) == f2 && DoAll(f, plan[..3]) == f3 && DoAll(f, plan[..4]) == f4
    ensures DoAll(f, plan) == f5
  {
    DoNext(f, plan, 0);
    DoNext(f, plan, 1);
    DoNext(f, plan, 2);
    DoNext(f, plan, 3);
    DoNext(f, plan, 4);
    assert plan[..5] == plan && DoAll(f, plan[..0]) == f;
    f1, f2, f3, f4, f5 := DoAll(f, plan[..1]), DoAll(f, plan[..2]), DoAll(f, plan[..3]), DoAll(f, plan[..4]), DoAll(f, plan);
  }

  // ---- the same, step by step on the directory ----

  class StateDir {
    var instance: Option<Id>
    var instanceNext: Option<Id>
    var snapshot: Option<Sealed<P.Snapshot>>
    var wal: seq<Sealed<P.Record>>
    var key: Key
    var keyNext: Option<Key>

    constructor (f: Files)
      ensures State() == f
    {
      instance, instanceNext, snapshot, wal, key, keyNext := f.instance, f.instanceNext, f.snapshot, f.wal, f.key, f.keyNext;
    }

    function State(): Files
      reads this
    {
      Files(instance, instanceNext, snapshot, wal, key, keyNext)
    }

    method Reset(s: P.Snapshot)
      modifies this
      ensures State() == DoAll(old(State()), ResetPlan(old(key), s))
    {
      ghost var f := State();
      instanceNext := Some(s.instance);
      snapshot := Some(Sealed(key, s));
      wal := [];
      instance := Some(s.instance);
      instanceNext := None;
      var f1, f2, f3, f4, f5 := FiveSteps(f, ResetPlan(f.key, s));
    }

    method RotateRoot(newKey: Key, s: P.Snapshot)
      modifies this
      ensures State() == DoAll(old(State()), RotatePlan(newKey, s))
    {
      ghost var f := State();
      keyNext := Some(newKey);
      snapshot := Some(Sealed(newKey, s));
      wal := [];
      key := newKey;
      keyNext := None;
      var f1, f2, f3, f4, f5 := FiveSteps(f, RotatePlan(newKey, s));
    }

    method RecoverKey() returns (current: Key)
      modifies this
      ensures State() == DoAll(old(State()), KeyPlan(old(State()))) && current == key
    {
      if snapshot.None? || snapshot.value.Opens(key) {
        return key;
      }
      if keyNext.None? || !snapshot.value.Opens(keyNext.value) {
        return key;
      }
      DoThree(State(), TruncateWal, SetKey(keyNext.value), DropKeyNext);
      wal := [];
      key := keyNext.value;
      keyNext := None;
      return key;
    }

    method RecoverInstance(freshId: Id) returns (current: Id)
      modifies this
      ensures State() == DoAll(old(State()), IdPlan(old(State()), freshId)) && instance == Some(current)
    {
      if instance.None? {
        DoConcat(State(), [SetInstance(freshId)], InstancePlan(Do(State(), SetInstance(freshId)), freshId));
        DoThree(State(), SetInstance(freshId), TruncateWal, TruncateWal);
        instance := Some(freshId);
      }
      current := instance.value;
      if instanceNext.Some? {
        DoThree(State(), TruncateWal, SetInstance(instanceNext.value), DropInstanceNext);
        DoThree(State(), DropInstanceNext, TruncateWal, TruncateWal);
      }
      if instanceNext.None? {
        return;
      }
      if snapshot.None? {
        instanceNext := None;
        return;
      }
      if !snapshot.value.Opens(key) {
        return;
      }
      if snapshot.value.plain.instance == current {
        instanceNext := None;
        return;
      }
      if snapshot.value.plain.instance != instanceNext.value {
        return;
      }
      wal := [];
      instance := instanceNext;
      current := instanceNext.value;
      instanceNext := None;
    }
  }

  // ---- settled states and what an interrupted operation leaves ----

  /** The live key opens everything, and the snapshot belongs to the live instance. */
  ghost predicate Settled(f: Files) {
    f.instance.Some?
    && (f.snapshot.Some? ==> f.snapshot.value.Opens(f.key) && f.snapshot.value.plain.instance == f.instance.value)
    && forall r | r in f.wal :: r.Opens(f.key)
  }

  /** Same state, whatever is left staged. */
  ghost predicate Same(f: Files, g: Files) {
    g.instance == f.instance && g.snapshot == f.snapshot && g.wal == f.wal && g.key == f.key
  }

  /** The whole new state of a reset. */
  ghost predicate ResetDone(f: Files, s: P.Snapshot, g: Files) {
    g.instance == Some(s.instance) && g.snapshot == Some(Sealed(f.key, s)) && g.wal == [] && g.key == f.key
  }

  /** A reset whose snapshot has landed and whose instance id has not. */
  ghost predicate ResetMidway(f: Files, s: P.Snapshot, g: Files) {
    g.instance == f.instance && g.snapshot == Some(Sealed(f.key, s)) && (g.wal == f.wal || g.wal == []) && g.key == f.key
    && g.instanceNext == Some(s.instance)
  }

  ghost predicate DuringReset(f: Files, s: P.Snapshot, g: Files) {
    Same(f, g) || ResetMidway(f, s, g) || ResetDone(f, s, g)
  }

  ghost predicate RotateDone(f: Files, newKey: Key, s: P.Snapshot, g: Files) {
    g.instance == f.instance && g.snapshot == Some(Sealed(newKey, s)) && g.wal == [] && g.key == newKey
  }

  ghost predicate RotateMidway(f: Files, newKey: Key, s: P.Snapshot, g: Files) {
    g.instance == f.instance && g.snapshot == Some(Sealed(newKey, s)) && (g.wal == f.wal || g.wal == []) && g.key == f.key
    && g.keyNext == Some(newKey)
  }

  ghost predicate DuringRotation(f: Files, newKey: Key, s: P.Snapshot, g: Files) {
    Same(f, g) || RotateMidway(f, newKey, s, g) || RotateDone(f, newKey, s, g)
  }

  // ---- what a crash leaves, and what recovery makes of it ----

  /** A plan cut short by a crash. */
  ghost predicate Cut(f: Files, plan: seq<Write>, g: Files) {
    exists n: nat :: n <= |plan| && g == DoAll(f, plan[..n])
  }

  lemma ResetCut(f: Files, s: P.Snapshot, g: Files)
    requires Cut(f, ResetPlan(f.key, s), g)
    ensures DuringReset(f, s, g)
  {
    var plan := ResetPlan(f.key, s);
    var n: nat :| n <= |plan| && g == DoAll(f, plan[..n]);
    var f1, f2, f3, f4, f5 := FiveSteps(f, plan);
    if n == 0 {
    } else if n == 5 {
      assert plan[..5] == plan;
    }
  }

  lemma RotateCut(f: Files, newKey: Key, s: P.Snapshot, g: Files)
    requires Cut(f, RotatePlan(newKey, s), g)
    ensures DuringRotation(f, newKey, s, g)
  {
    var plan := RotatePlan(newKey, s);
    var n: nat :| n <= |plan| && g == DoAll(f, plan[..n]);
    var f1, f2, f3, f4, f5 := FiveSteps(f, plan);
    if n == 0 {
    } else if n == 5 {
      assert plan[..5] == plan;
    }
  }

  lemma CutConcat(f: Files, p: seq<Write>, q: seq<Write>, g: Files)
    requires Cut(f, p + q, g)
    ensures Cut(f, p, g) || Cut(DoAll(f, p), q, g)
  {
    var n: nat :| n <= |p + q| && g == DoAll(f, (p + q)[..n]);
    if n <= |p| {
      assert (p + q)[..n] == p[..n];
    } else {
      assert (p + q)[..n] == p + q[..n - |p|];
      DoConcat(f, p, q[..n - |p|]);
    }
  }

  lemma CutNothing(f: Files, g: Files)
    requires Cut(f, [], g)
    ensures g == f
  {
  }

  lemma CutOne(f: Files, a: Write, g: Files)
    requires Cut(f, [a], g)
    ensures g == f || g == Do(f, a)
  {
    var n: nat :| n <= 1 && g == DoAll(f, [a][..n]);
    DoThree(f, a, a, a);
    assert [a][..1] == [a];
  }

  lemma CutThree(f: Files, a: Write, b: Write, c: Write, g: Files)
    requires Cut(f, [a, b, c], g)
    ensures g == f || g == Do(f, a) || g == Do(Do(f, a), b) || g == Do(Do(Do(f, a), b), c)
  {
    var plan := [a, b, c];
    var n: nat :| n <= 3 && g == DoAll(f, plan[..n]);
    DoNext(f, plan, 0);
    DoNext(f, plan, 1);
    DoNext(f, plan, 2);
    assert DoAll(f, plan[..0]) == f;
  }

  // ---- reset ----

  /** While a reset is interrupted, a recovery, cut or not, stays within what a reset can leave. */
  lemma ResetRecoveryCut(f: Files, s: P.Snapshot, g: Files, freshId: Id, h: Files)
    requires Settled(f) && Some(s.instance) != f.instance && DuringReset(f, s, g)
    requires Cut(g, RecoveryPlan(g, freshId), h)
    ensures DuringReset(f, s, h)
  {
    assert KeyPlan(g) == [];
    assert RecoveryPlan(g, freshId) == InstancePlan(g, g.instance.value);
    InstanceCut(g, g.instance.value, h);
  }

  lemma InstanceCut(g: Files, current: Id, h: Files)
    requires Cut(g, InstancePlan(g, current), h)
    ensures h == g
            || (h == Do(g, DropInstanceNext) && (g.snapshot.None? || g.snapshot.value.plain.instance == current))
            || (g.instanceNext.Some? && g.snapshot.Some? && g.snapshot.value.Opens(g.key)
                && g.snapshot.value.plain.instance == g.instanceNext.value != current
                && (h == g.(wal := []) || h == g.(wal := [], instance := g.instanceNext)
                    || h == g.(wal := [], instance := g.instanceNext, instanceNext := None)))
  {
    var plan := InstancePlan(g, current);
    if plan == [] {
      CutNothing(g, h);
    } else if |plan| == 1 {
      CutOne(g, DropInstanceNext, h);
    } else {
      CutThree(g, TruncateWal, SetInstance(g.instanceNext.value), DropInstanceNext, h);
    }
  }

  /** A recovery that completes after an interrupted reset ends whole: all old or all new. */
  lemma ResetRecovered(f: Files, s: P.Snapshot, g: Files, freshId: Id)
    requires Settled(f) && Some(s.instance) != f.instance && DuringReset(f, s, g)
    ensures var h := DoAll(g, RecoveryPlan(g, freshId));
            Settled(h) && (Same(f, h) || ResetDone(f, s, h))
  {
    assert KeyPlan(g) == [];
    assert RecoveryPlan(g, freshId) == InstancePlan(g, g.instance.value);
    if g.instanceNext.Some? {
      DoThree(g, TruncateWal, SetInstance(g.instanceNext.value), DropInstanceNext);
      DoThree(g, DropInstanceNext, DropInstanceNext, DropInstanceNext);
    }
  }

  // ---- rotation ----

  lemma RotateRecoveryCut(f: Files, newKey: Key, s: P.Snapshot, g: Files, freshId: Id, h: Files)
    requires Settled(f) && newKey != f.key && Some(s.instance) == f.instance && DuringRotation(f, newKey, s, g)
    requires Cut(g, RecoveryPlan(g, freshId), h)
    ensures DuringRotation(f, newKey, s, h)
  {
    var m := DoAll(g, KeyPlan(g));
    CutConcat(g, KeyPlan(g), IdPlan(m, freshId), h);
    if KeyPlan(g) == [] {
      if Cut(g, [], h) {
        CutNothing(g, h);
      } else {
        RotateIdCut(f, newKey, s, g, freshId, h);
      }
    } else {
      DoThree(g, TruncateWal, SetKey(newKey), DropKeyNext);
      if Cut(g, KeyPlan(g), h) {
        CutThree(g, TruncateWal, SetKey(newKey), DropKeyNext, h);
      } else {
        RotateIdCut(f, newKey, s, m, freshId, h);
      }
    }
  }

  /** With the key settled, the instance recovery has nothing to promote. */
  lemma RotateIdCut(f: Files, newKey: Key, s: P.Snapshot, m: Files, freshId: Id, h: Files)
    requires Settled(f) && Some(s.instance) == f.instance && (Same(f, m) || RotateDone(f, newKey, s, m))
    requires Cut(m, IdPlan(m, freshId), h)
    ensures h == m || h == Do(m, DropInstanceNext)
  {
    InstanceCut(m, m.instance.value, h);
  }

  lemma RotateRecovered(f: Files, newKey: Key, s: P.Snapshot, g: Files, freshId: Id)
    requires Settled(f) && newKey != f.key && Some(s.instance) == f.instance && DuringRotation(f, newKey, s, g)
    ensures var h := DoAll(g, RecoveryPlan(g, freshId));
            Settled(h) && (Same(f, h) || RotateDone(f, newKey, s, h))
  {
    var m := DoAll(g, KeyPlan(g));
    DoThree(g, TruncateWal, SetKey(newKey), DropKeyNext);
    DoConcat(g, KeyPlan(g), IdPlan(m, freshId));
    assert Same(f, m) || RotateDone(f, newKey, s, m);
    DoThree(m, DropInstanceNext, DropInstanceNext, DropInstanceNext);
  }

  // ---- any number of interrupted recoveries ----

  /** Each state is left by a recovery of the one before, cut anywhere. */
  ghost predicate RecoveriesCut(states: seq<Files>, ids: seq<Id>) {
    |ids| == |states| && forall i | 0 < i < |states| :: Cut(states[i - 1], RecoveryPlan(states[i - 1], ids[i - 1]), states[i])
  }

  /** From anything an interrupted reset can leave, recoveries settle on the old state or the new one. */
  lemma {:induction false} ResetSettles(f: Files, s: P.Snapshot, states: seq<Files>, ids: seq<Id>)
    requires Settled(f) && Some(s.instance) != f.instance && states != [] && DuringReset(f, s, states[0])
    requires RecoveriesCut(states, ids)
    ensures var last := states[|states| - 1];
            var h := DoAll(last, RecoveryPlan(last, ids[|ids| - 1]));
            DuringReset(f, s, last) && Settled(h) && (Same(f, h) || ResetDone(f, s, h))
  {
    var n := |states| - 1;
    if n > 0 {
      assert RecoveriesCut(states[..n], ids[..n]);
      ResetSettles(f, s, states[..n], ids[..n]);
      ResetRecoveryCut(f, s, states[n - 1], ids[n - 1], states[n]);
    }
    ResetRecovered(f, s, states[n], ids[n]);
  }

  /** The same for a rotation. */
  lemma {:induction false} RotateSettles(f: Files, newKey: Key, s: P.Snapshot, states: seq<Files>, ids: seq<Id>)
    requires Settled(f) && newKey != f.key && Some(s.instance) == f.instance && states != []
    requires DuringRotation(f, newKey, s, states[0]) && RecoveriesCut(states, ids)
    ensures var last := states[|states| - 1];
            var h := DoAll(last, RecoveryPlan(last, ids[|ids| - 1]));
            DuringRotation(f, newKey, s, last) && Settled(h) && (Same(f, h) || RotateDone(f, newKey, s, h))
  {
    var n := |states| - 1;
    if n > 0 {
      assert RecoveriesCut(states[..n], ids[..n]);
      RotateSettles(f, newKey, s, states[..n], ids[..n]);
      RotateRecoveryCut(f, newKey, s, states[n - 1], ids[n - 1], states[n]);
    }
    RotateRecovered(f, newKey, s, states[n], ids[n]);
  }

  /**
  A reset is all or nothing: cut at any step, and followed by any number of cut recoveries,
  the first recovery that completes leaves the old state whole or the new one whole, with
  the live id that of the snapshot.
  */
  lemma ResetAtomic(f: Files, s: P.Snapshot, states: seq<Files>, ids: seq<Id>)
    requires Settled(f) && Some(s.instance) != f.instance && states != [] && Cut(f, ResetPlan(f.key, s), states[0])
    requires RecoveriesCut(states, ids)
    ensures var last := states[|states| - 1];
            var h := DoAll(last, RecoveryPlan(last, ids[|ids| - 1]));
            DuringReset(f, s, last) && Settled(h) && (Same(f, h) || ResetDone(f, s, h))
  {
    ResetCut(f, s, states[0]);
    ResetSettles(f, s, states, ids);
  }

  /**
  A rotation is all or nothing in the same way: the recovered key opens the snapshot, and no
  log record sealed under another key is left.
  */
  lemma RotateAtomic(f: Files, newKey: Key, s: P.Snapshot, states: seq<Files>, ids: seq<Id>)
    requires Settled(f) && newKey != f.key && Some(s.instance) == f.instance && states != []
    requires Cut(f, RotatePlan(newKey, s), states[0]) && RecoveriesCut(states, ids)
    ensures var last := states[|states| - 1];
            var h := DoAll(last, RecoveryPlan(last, ids[|ids| - 1]));
            DuringRotation(f, newKey, s, last) && Settled(h) && (Same(f, h) || RotateDone(f, newKey, s, h))
  {
    RotateCut(f, newKey, s, states[0]);
    RotateSettles(f, newKey, s, states, ids);
  }

  // ---- what a start then loads ----

  function Plain(wal: seq<Sealed<P.Record>>): seq<P.Record> {
    seq(|wal|, i requires 0 <= i < |wal| => wal[i].plain)
  }

  function DiskOf(f: Files): P.Disk {
    P.Disk(if f.snapshot.Some? then Some(f.snapshot.value.plain) else None, Plain(f.wal))
  }

  /** What is loaded after a recovered reset: what was stored before it, or exactly what it wrote. */
  lemma LoadedAfterReset(f: Files, s: P.Snapshot, h: Files, capacity: nat)
    requires f.instance.Some? && (Same(f, h) || ResetDone(f, s, h))
    ensures h.instance.Some?
    ensures P.Load(DiskOf(h), h.instance.value, capacity)
            == if Same(f, h) then P.Load(DiskOf(f), f.instance.value, capacity)
               else Ok(s.(generations := P.Resized(s.generations, capacity)))
  {
  }

  // ---- finishing after an error that came too late ----

  function ResetInstalled(f: Files, key: Key, newId: Id): bool {
    f.instance == Some(newId) && f.snapshot.Some? && f.snapshot.value.Opens(key) && f.snapshot.value.plain.instance == newId
  }

  function RotationInstalled(f: Files, newKey: Key): bool {
    f.snapshot.Some? && f.snapshot.value.Opens(newKey) && f.key == newKey
  }

  /** The checks made after a reported error hold exactly when the new state is whole on disk. */
  lemma InstalledExactly(f: Files, s: P.Snapshot, newKey: Key, g: Files)
    requires Settled(f)
    ensures Some(s.instance) != f.instance && DuringReset(f, s, g) ==> (ResetInstalled(g, f.key, s.instance) <==> ResetDone(f, s, g))
    ensures newKey != f.key && DuringRotation(f, newKey, s, g) ==> (RotationInstalled(g, newKey) <==> RotateDone(f, newKey, s, g))
  {
  }

  // ---- further attempts without a restart ----

  /**
  What a process does to the directory after a reset or rotation of its own has failed: it
  tries either again, the attempt failing after `n` writes, or it logs a record.
  */
  datatype Attempt =
    | ResetAttempt(s: P.Snapshot, n: nat)
    | RotateAttempt(newKey: Key, s: P.Snapshot, n: nat)
    | LogAttempt(record: P.Record)

  /** A reset takes a new id; a rotation keeps the id and must change the key. */
  predicate Proper(f: Files, a: Attempt) {
    match a
    case ResetAttempt(s, n) => n <= 5 && Some(s.instance) != f.instance
    case RotateAttempt(newKey, s, n) => n <= 5 && newKey != f.key && Some(s.instance) == f.instance
    case LogAttempt(_) => true
  }

  function Tried(f: Files, a: Attempt): Files
    requires Proper(f, a)
  {
    match a
    case ResetAttempt(s, n) => DoAll(f, ResetPlan(f.key, s)[..n])
    case RotateAttempt(newKey, s, n) => DoAll(f, RotatePlan(newKey, s)[..n])
    case LogAttempt(record) => f.(wal := f.wal + [Sealed(f.key, record)])
  }

  ghost predicate AllProper(f: Files, attempts: seq<Attempt>)
    decreases |attempts|
  {
    attempts == [] || (Proper(f, attempts[0]) && AllProper(Tried(f, attempts[0]), attempts[1..]))
  }

  ghost function TriedAll(f: Files, attempts: seq<Attempt>): Files
    requires AllProper(f, attempts)
    decreases |attempts|
  {
    if attempts == [] then f else TriedAll(Tried(f, attempts[0]), attempts[1..])
  }

  /**
  How far the files are ahead of themselves: the snapshot may belong to an id, or open under
  a key, that is not the live one, and that id or key may still be staged or not.
  */
  datatype Standing = Whole | IdAhead(id: Id, staged: bool) | KeyAhead(key: Key, staged: bool) {
    predicate Recoverable() {
      Whole? || staged
    }
  }

  /** Only the second to fourth writes of an attempt put the snapshot ahead; a first write can unstage it. */
  function Next(st: Standing, a: Attempt): Standing {
    match a
    case LogAttempt(_) => st
    case ResetAttempt(s, n) =>
      if n >= 4 then Whole
      else if n >= 2 then IdAhead(s.instance, true)
      else if n == 1 && st.IdAhead? then IdAhead(st.id, s.instance == st.id)
      else st
    case RotateAttempt(newKey, _, n) =>
      if n >= 4 then Whole
      else if n >= 2 then KeyAhead(newKey, true)
      else if n == 1 && st.KeyAhead? then KeyAhead(st.key, newKey == st.key)
      else st
  }

  function StandingAfter(st: Standing, attempts: seq<Attempt>): Standing
    decreases |attempts|
  {
    if attempts == [] then st else StandingAfter(Next(st, attempts[0]), attempts[1..])
  }

  ghost predicate At(f: Files, st: Standing) {
    f.instance.Some? && (forall r | r in f.wal :: r.Opens(f.key))
    && match st
       case Whole => Settled(f)
       case IdAhead(id, staged) =>
         f.snapshot.Some? && f.snapshot.value.Opens(f.key) && f.snapshot.value.plain.instance == id
         && Some(id) != f.instance && (staged <==> f.instanceNext == Some(id))
       case KeyAhead(key, staged) =>
         f.snapshot.Some? && f.snapshot.value.Opens(key) && f.snapshot.value.plain.instance == f.instance.value
         && key != f.key && (staged <==> f.keyNext == Some(key))
  }

  lemma TriedAt(f: Files, st: Standing, a: Attempt)
    requires At(f, st) && Proper(f, a)
    ensures At(Tried(f, a), Next(st, a))
  {
    match a
    case LogAttempt(_) =>
    case ResetAttempt(s, n) =>
      var f1, f2, f3, f4, f5 := FiveSteps(f, ResetPlan(f.key, s));
      assert n == 5 ==> ResetPlan(f.key, s)[..5] == ResetPlan(f.key, s);
    case RotateAttempt(newKey, s, n) =>
      var f1, f2, f3, f4, f5 := FiveSteps(f, RotatePlan(newKey, s));
      assert n == 5 ==> RotatePlan(newKey, s)[..5] == RotatePlan(newKey, s);
  }

  lemma {:induction false} TriedAllAt(f: Files, st: Standing, attempts: seq<Attempt>)
    requires At(f, st) && AllProper(f, attempts)
    ensures At(TriedAll(f, attempts), StandingAfter(st, attempts))
    decreases |attempts|
  {
    if attempts != [] {
      TriedAt(f, st, attempts[0]);
      TriedAllAt(Tried(f, attempts[0]), Next(st, attempts[0]), attempts[1..]);
    }
  }

  /** The snapshot of the last attempt that got as far as writing one. */
  function Landed(attempts: seq<Attempt>): Option<P.Snapshot> {
    if attempts == [] then None
    else
      var a := attempts[|attempts| - 1];
      if !a.LogAttempt? && a.n >= 2 then Some(a.s) else Landed(attempts[..|attempts| - 1])
  }

  function Logged(attempts: seq<Attempt>): seq<P.Record> {
    if attempts == [] then []
    else
      var n := |attempts| - 1;
      Logged(attempts[..n]) + if attempts[n].LogAttempt? then [attempts[n].record] else []
  }

  lemma {:induction false} TriedSnoc(f: Files, attempts: seq<Attempt>)
    requires attempts != [] && AllProper(f, attempts)
    ensures var n := |attempts| - 1;
            AllProper(f, attempts[..n]) && Proper(TriedAll(f, attempts[..n]), attempts[n])
            && TriedAll(f, attempts) == Tried(TriedAll(f, attempts[..n]), attempts[n])
    decreases |attempts|
  {
    var n := |attempts| - 1;
    if n == 0 {
      assert attempts[1..] == [] && attempts[..n] == [];
    } else {
      TriedSnoc(Tried(f, attempts[0]), attempts[1..]);
      assert attempts[1..][..n - 1] == attempts[..n][1..] && attempts[..n][0] == attempts[0];
    }
  }

  /** What the attempts left: the old state and its longer log, or the snapshot of the last that wrote one. */
  lemma {:induction false} LeftByAttempts(f: Files, attempts: seq<Attempt>)
    requires AllProper(f, attempts)
    ensures var left := TriedAll(f, attempts);
            if Landed(attempts).Some? then left.snapshot.Some? && left.snapshot.value.plain == Landed(attempts).value
            else left.instance == f.instance && left.key == f.key && left.snapshot == f.snapshot
                 && Plain(left.wal) == Plain(f.wal) + Logged(attempts)
  {
    if attempts != [] {
      var n := |attempts| - 1;
      var a := attempts[n];
      TriedSnoc(f, attempts);
      LeftByAttempts(f, attempts[..n]);
      var before := TriedAll(f, attempts[..n]);
      match a
      case ResetAttempt(s, k) => ResetLeaves(before, s, k);
      case RotateAttempt(newKey, s, k) => RotationLeaves(before, newKey, s, k);
      case LogAttempt(r) => assert Plain(before.wal + [Sealed(before.key, r)]) == Plain(before.wal) + [r];
    }
  }

  /** The whole state a recovery makes of `f`: `f` itself, or all of what its snapshot belongs to. */
  ghost predicate MadeWhole(f: Files, st: Standing, h: Files)
    requires At(f, st)
  {
    match st
    case Whole => Same(f, h)
    case IdAhead(_, _) => ResetDone(f, f.snapshot.value.plain, h)
    case KeyAhead(key, _) => RotateDone(f, key, f.snapshot.value.plain, h)
  }

  /** A start refuses what does not open under the live key, and what does not load. */
  ghost predicate Refused(f: Files, capacity: nat)
    requires f.instance.Some?
  {
    (f.snapshot.Some? && !f.snapshot.value.Opens(f.key)) || (exists r :: r in f.wal && !r.Opens(f.key))
    || P.Load(DiskOf(f), f.instance.value, capacity).Err?
  }

  lemma RecoveryKeepsSnapshot(g: Files, freshId: Id, h: Files)
    requires g.instance.Some? && Cut(g, RecoveryPlan(g, freshId), h)
    ensures h.snapshot == g.snapshot && h.instance.Some?
  {
    var m := DoAll(g, KeyPlan(g));
    CutConcat(g, KeyPlan(g), IdPlan(m, freshId), h);
    if KeyPlan(g) == [] {
      if Cut(g, [], h) {
        CutNothing(g, h);
      } else {
        InstanceCut(m, m.instance.value, h);
      }
    } else {
      DoThree(g, TruncateWal, SetKey(g.keyNext.value), DropKeyNext);
      if Cut(g, KeyPlan(g), h) {
        CutThree(g, TruncateWal, SetKey(g.keyNext.value), DropKeyNext, h);
      } else {
        InstanceCut(m, m.instance.value, h);
      }
    }
  }

  lemma {:induction false} RecoveriesKeepSnapshot(states: seq<Files>, ids: seq<Id>)
    requires states != [] && states[0].instance.Some? && RecoveriesCut(states, ids)
    ensures states[|states| - 1].snapshot == states[0].snapshot && states[|states| - 1].instance.Some?
  {
    var n := |states| - 1;
    if n > 0 {
      assert RecoveriesCut(states[..n], ids[..n]);
      RecoveriesKeepSnapshot(states[..n], ids[..n]);
      RecoveryKeepsSnapshot(states[n - 1], ids[n - 1], states[n]);
    }
  }

  lemma UnstagedPlan(f: Files, st: Standing, freshId: Id)
    requires At(f, st) && !st.Recoverable()
    ensures RecoveryPlan(f, freshId) == []
  {
    assert KeyPlan(f) == [];
    assert IdPlan(f, freshId) == InstancePlan(f, f.instance.value);
  }

  /** Nothing staged fits the snapshot: a recovery finds nothing to do, however often it runs. */
  lemma {:induction false} UnstagedStays(f: Files, st: Standing, states: seq<Files>, ids: seq<Id>)
    requires At(f, st) && !st.Recoverable() && states != [] && states[0] == f && RecoveriesCut(states, ids)
    ensures states[|states| - 1] == f && RecoveryPlan(f, ids[|ids| - 1]) == []
  {
    var n := |states| - 1;
    UnstagedPlan(f, st, ids[n]);
    if n > 0 {
      assert RecoveriesCut(states[..n], ids[..n]);
      UnstagedStays(f, st, states[..n], ids[..n]);
      assert Cut(states[n - 1], RecoveryPlan(states[n - 1], ids[n - 1]), states[n]);
      CutNothing(f, states[n]);
    }
  }

  lemma StagedRecovers(f: Files, st: Standing, states: seq<Files>, ids: seq<Id>)
    requires At(f, st) && st.Recoverable() && states != [] && states[0] == f && RecoveriesCut(states, ids)
    ensures var last := states[|states| - 1];
            var h := DoAll(last, RecoveryPlan(last, ids[|ids| - 1]));
            Settled(h) && MadeWhole(f, st, h)
  {
    var last := states[|states| - 1];
    var id := ids[|ids| - 1];
    RecoveriesKeepSnapshot(states, ids);
    assert RecoveryPlan(last, id)[..|RecoveryPlan(last, id)|] == RecoveryPlan(last, id);
    RecoveryKeepsSnapshot(last, id, DoAll(last, RecoveryPlan(last, id)));
    match st
    case Whole => ResetSettles(f, P.Snapshot(f.instance.value + 1, [], [], []), states, ids);
    case IdAhead(_, _) => ResetSettles(f.(snapshot := None), f.snapshot.value.plain, states, ids);
    case KeyAhead(key, _) => RotateSettles(f.(snapshot := None), key, f.snapshot.value.plain, states, ids);
  }

  /**
  Attempts of either kind, any number of them, each failing anywhere, with records logged in
  between, then a crash and any number of recoveries cut short. The first recovery that
  completes leaves the files whole exactly when the last attempts left staged what the
  snapshot belongs to; otherwise it changes nothing and every start refuses the files.
  */
  lemma RetriesRecoverIff(f: Files, st: Standing, attempts: seq<Attempt>, states: seq<Files>, ids: seq<Id>, capacity: nat)
    requires At(f, st) && AllProper(f, attempts)
    requires states != [] && states[0] == TriedAll(f, attempts) && RecoveriesCut(states, ids)
    ensures var left := TriedAll(f, attempts);
            var last := states[|states| - 1];
            var h := DoAll(last, RecoveryPlan(last, ids[|ids| - 1]));
            At(left, StandingAfter(st, attempts))
            && (Settled(h) <==> StandingAfter(st, attempts).Recoverable())
            && (Settled(h) ==> MadeWhole(left, StandingAfter(st, attempts), h))
            && (!Settled(h) ==> h == left && Refused(h, capacity))
  {
    TriedAllAt(f, st, attempts);
    var left, after := TriedAll(f, attempts), StandingAfter(st, attempts);
    if after.Recoverable() {
      StagedRecovers(left, after, states, ids);
    } else {
      UnstagedStays(left, after, states, ids);
    }
  }

  lemma OneRetry(g: Files, st: Standing, a: Attempt, freshId: Id, capacity: nat)
    requires At(g, st) && Proper(g, a)
    ensures var left := Tried(g, a);
            var h := DoAll(left, RecoveryPlan(left, freshId));
            At(left, Next(st, a))
            && (Settled(h) <==> Next(st, a).Recoverable())
            && (Settled(h) ==> MadeWhole(left, Next(st, a), h))
            && (!Settled(h) ==> h == left && Refused(h, capacity))
  {
    assert [a][1..] == [];
    assert TriedAll(g, [a]) == TriedAll(Tried(g, a), []) == Tried(g, a);
    assert StandingAfter(st, [a]) == StandingAfter(Next(st, a), []) == Next(st, a);
    RetriesRecoverIff(g, st, [a], [Tried(g, a)], [freshId], capacity);
  }

  /** What an attempt that failed leaves whole or ahead belongs to what was there, or to the attempt. */
  lemma ResetLeaves(g: Files, again: P.Snapshot, n: nat)
    requires n <= 5
    ensures var cut := DoAll(g, ResetPlan(g.key, again)[..n]);
            cut.key == g.key
            && (if n <= 1 then Same(g, cut) else cut.snapshot == Some(Sealed(g.key, again)))
            && (n >= 4 ==> ResetDone(g, again, cut))
  {
    var f1, f2, f3, f4, f5 := FiveSteps(g, ResetPlan(g.key, again));
    assert n == 5 ==> ResetPlan(g.key, again)[..5] == ResetPlan(g.key, again);
  }

  lemma RotationLeaves(g: Files, other: Key, again: P.Snapshot, n: nat)
    requires n <= 5
    ensures var cut := DoAll(g, RotatePlan(other, again)[..n]);
            cut.instance == g.instance
            && (if n <= 1 then Same(g, cut) else cut.snapshot == Some(Sealed(other, again)))
            && (n >= 4 ==> RotateDone(g, other, again, cut))
  {
    var f1, f2, f3, f4, f5 := FiveSteps(g, RotatePlan(other, again));
    assert n == 5 ==> RotatePlan(other, again)[..5] == RotatePlan(other, again);
  }

  /** One reset over what an interrupted one left: lost exactly when the first is midway and the second stops at its first write. */
  lemma ResetRetryIff(f: Files, s: P.Snapshot, g: Files, again: P.Snapshot, n: nat, freshId: Id, capacity: nat)
    requires Settled(f) && Some(s.instance) != f.instance && DuringReset(f, s, g)
    requires n <= 5 && Some(again.instance) != g.instance && again.instance != s.instance
    ensures var cut := DoAll(g, ResetPlan(g.key, again)[..n]);
            var h := DoAll(cut, RecoveryPlan(cut, freshId));
            h.instance.Some?
            && (Settled(h) <==> !(ResetMidway(f, s, g) && n == 1))
            && (Settled(h) ==> Same(f, h) || ResetDone(f, s, h) || ResetDone(f, again, h))
            && (!Settled(h) ==> h == cut && Refused(h, capacity))
  {
    var st := if ResetMidway(f, s, g) then IdAhead(s.instance, true) else Whole;
    assert At(g, st);
    OneRetry(g, st, ResetAttempt(again, n), freshId, capacity);
    ResetLeaves(g, again, n);
  }

  /** The same for a rotation, which may be retried to the key already staged. */
  lemma RotationRetryIff(f: Files, newKey: Key, s: P.Snapshot, g: Files, other: Key, again: P.Snapshot, n: nat, freshId: Id, capacity: nat)
    requires Settled(f) && newKey != f.key && Some(s.instance) == f.instance && DuringRotation(f, newKey, s, g)
    requires n <= 5 && other != g.key && again.instance == s.instance
    ensures var cut := DoAll(g, RotatePlan(other, again)[..n]);
            var h := DoAll(cut, RecoveryPlan(cut, freshId));
            h.instance.Some?
            && (Settled(h) <==> !(RotateMidway(f, newKey, s, g) && n == 1 && other != newKey))
            && (Settled(h) ==> Same(f, h) || RotateDone(f, newKey, s, h) || RotateDone(f, other, again, h))
            && (!Settled(h) ==> h == cut && Refused(h, capacity))
  {
    var st := if RotateMidway(f, newKey, s, g) then KeyAhead(newKey, true) else Whole;
    assert At(g, st);
    OneRetry(g, st, RotateAttempt(other, again, n), freshId, capacity);
    RotationLeaves(g, other, again, n);
  }
}
