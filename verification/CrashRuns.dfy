/**
Whole runs of the authentication state that also crash.

A process may die after a log record reached the disk and before it was acknowledged,
between compaction's two writes, or anywhere inside a reset or a rotation; each crash ends
in a restart. The theorems about runs without crashes hold of these runs too.
*/
module CrashRuns {
  import opened Wrappers
  import opened Lifecycle
  import opened KeyLives
  import opened Recovery
  import opened ActorRuns
  import opened CompactionCrash
  import P = Persistence

  /**
  `Unacknowledged` is a crash with the record of `op` on disk and nothing told to anyone;
  `CutEmpty` is a crash inside a reset, or inside a rotation when it keeps the instance.
  Recovery leaves the old files or the new ones whole, which `landed` says
  (`CrashEpochs.ResetAtomic`, `CrashEpochs.RotateAtomic`).
  */
  datatype Event =
    | Done(c: Command)
    | Unacknowledged(op: Op, at: nat, capacity: nat)
    | CutCompaction(at: nat, capacity: nat)
    | CutEmpty(at: nat, instance: nat, landed: bool, capacity: nat)

  ghost function WithRecord(a: Actor, op: Op): Actor {
    match Logged(a.life, op)
    case None => a
    case Some(m) => a.(disk := a.disk.(wal := a.disk.wal + [P.Mutated(m, AuditOf(op, m))]))
  }

  ghost function WithEmpty(a: Actor, at: nat, instance: nat): Actor {
    a.(instance := instance, disk := Emptied(a, at, instance).disk)
  }

  ghost function StepEvent(a: Actor, e: Event): Actor {
    match e
    case Done(c) => StepActor(a, c)
    case Unacknowledged(op, at, capacity) => Restarted(WithRecord(a, op), at, capacity)
    case CutCompaction(at, capacity) => Restarted(a.(disk := HalfCompacted(a)), at, capacity)
    case CutEmpty(at, instance, landed, capacity) => Restarted(if landed then WithEmpty(a, at, instance) else a, at, capacity)
  }

  /** A half-made compaction must load, which `HalfCompactedLoads` says when it does; otherwise the store stays closed. */
  ghost predicate LegalEvent(a: Actor, e: Event) {
    match e
    case Done(c) => LegalCommand(a, c)
    case Unacknowledged(op, at, _) => LegalCommand(a, Act(op)) && op.wall <= at
    case CutCompaction(at, _) => a.life.wall <= at && LoggedKeysStay(a)
    case CutEmpty(at, _, _, _) => a.life.wall <= at
  }

  // ---- what a restart sees is on disk ----

  lemma RestartSeesDisk(a: Actor, b: Actor, at: nat, capacity: nat)
    requires a.disk == b.disk && a.instance == b.instance && a.life.reach == b.life.reach
    requires P.Load(a.disk, a.instance, capacity).Ok?
    ensures Restarted(a, at, capacity) == Restarted(b, at, capacity)
  {
  }

  /** A record on disk that no one was told of: the restart is that of the command having been done. */
  lemma UnacknowledgedIsDone(a: Actor, op: Op, at: nat, capacity: nat)
    requires Sound(a) && LegalCommand(a, Act(op))
    ensures Restarted(WithRecord(a, op), at, capacity) == Restarted(if Logged(a.life, op).Some? then Acted(a, op) else a, at, capacity)
  {
    if Logged(a.life, op).Some? {
      ActedSound(a, op);
      assert MirrorsAt(Acted(a, op), capacity);
      StepReach(a.life, op);
      RestartSeesDisk(Acted(a, op), WithRecord(a, op), at, capacity);
    }
  }

  lemma StepReach(l: Life, op: Op)
    requires Coherent(l) && Legal(l, op)
    ensures Step(l, op).reach == l.reach
  {
    LaterWallCoherent(l, op.wall);
    if op.Tick? {
      AdvanceMeans(l.(wall := op.wall), op.wall);
    }
  }

  lemma LandedIsDone(a: Actor, at: nat, instance: nat, capacity: nat)
    requires Sound(a) && a.life.wall <= at
    ensures Restarted(WithEmpty(a, at, instance), at, capacity) == Restarted(Emptied(a, at, instance), at, capacity)
  {
    EmptiedSound(a, at, instance);
    assert MirrorsAt(Emptied(a, at, instance), capacity);
    RestartSeesDisk(Emptied(a, at, instance), WithEmpty(a, at, instance), at, capacity);
  }

  lemma HalfCompactedSound(a: Actor)
    requires Sound(a) && LoggedKeysStay(a)
    ensures Sound(a.(disk := HalfCompacted(a)))
  {
    var b := a.(disk := HalfCompacted(a));
    assert MirrorsAt(a, 0);
    BuildMirror(a.life, a.high, a.highEntries, P.Load(a.disk, a.instance, 0).value, a.instance, a.audits);
    forall capacity: nat
      ensures MirrorsAt(b, capacity)
    {
      HalfCompactedLoads(a, capacity);
    }
  }

  // ---- one event ----

  lemma EventSound(a: Actor, e: Event)
    requires Sound(a) && LegalEvent(a, e)
    ensures Sound(StepEvent(a, e))
  {
    match e
    case Done(c) => StepSound(a, c);
    case Unacknowledged(op, at, capacity) =>
      UnacknowledgedIsDone(a, op, at, capacity);
      ActedSound(a, op);
      WallMoves(a, op);
      RestartedSound(if Logged(a.life, op).Some? then Acted(a, op) else a, at, capacity);
    case CutCompaction(at, capacity) =>
      HalfCompactedSound(a);
      RestartedSound(a.(disk := HalfCompacted(a)), at, capacity);
    case CutEmpty(at, instance, landed, capacity) =>
      EmptiedSound(a, at, instance);
      LandedIsDone(a, at, instance, capacity);
      EmptiedWall(a, at, instance);
      RestartedSound(if landed then Emptied(a, at, instance) else a, at, capacity);
  }

  lemma WallMoves(a: Actor, op: Op)
    requires Sound(a) && LegalCommand(a, Act(op))
    ensures Acted(a, op).life.wall == op.wall
  {
    LaterWallCoherent(a.life, op.wall);
    if op.Tick? {
      AdvanceMeans(a.life.(wall := op.wall), op.wall);
    }
  }

  lemma EmptiedWall(a: Actor, at: nat, instance: nat)
    requires Sound(a) && a.life.wall <= at
    ensures Emptied(a, at, instance).life.wall == at
  {
    LaterWallCoherent(a.life, at);
    WipeCoherent(a.life.(wall := at));
  }

  /** The key id an event hands out: a crash hands out none. */
  ghost function EventHanded(a: Actor, e: Event): Option<KeyId> {
    if e.Done? then Handed(a, e.c) else None
  }

  lemma UnacknowledgedGeneration(a: Actor, op: Op, at: nat, capacity: nat, s: nat)
    requires Sound(a) && LegalCommand(a, Act(op)) && op.wall <= at
    ensures Generation(a, s) <= Generation(Restarted(WithRecord(a, op), at, capacity), s)
  {
    UnacknowledgedIsDone(a, op, at, capacity);
    if Logged(a.life, op).Some? {
      ActedSound(a, op);
      WallMoves(a, op);
      StepGeneration(a, Act(op), s);
      RestartGeneration(Acted(a, op), at, capacity, s);
    } else {
      RestartGeneration(a, at, capacity, s);
    }
  }

  lemma CutEmptyGeneration(a: Actor, at: nat, instance: nat, landed: bool, capacity: nat, s: nat)
    requires Sound(a) && a.life.wall <= at
    ensures Generation(a, s) <= Generation(Restarted(if landed then WithEmpty(a, at, instance) else a, at, capacity), s)
  {
    if landed {
      LandedIsDone(a, at, instance, capacity);
      EmptiedSound(a, at, instance);
      EmptiedWall(a, at, instance);
      StepGeneration(a, Reset(at, instance), s);
      RestartGeneration(Emptied(a, at, instance), at, capacity, s);
    } else {
      RestartGeneration(a, at, capacity, s);
    }
  }

  /** No event takes a generation back, and what it hands out is beyond all before it. */
  lemma EventGeneration(a: Actor, e: Event, s: nat)
    requires Sound(a) && LegalEvent(a, e)
    ensures Generation(a, s) <= Generation(StepEvent(a, e), s)
    ensures EventHanded(a, e).Some? && EventHanded(a, e).value.slot == s ==>
              Generation(a, s) < EventHanded(a, e).value.generation <= Generation(StepEvent(a, e), s)
  {
    match e
    case Done(c) => StepGeneration(a, c, s);
    case Unacknowledged(op, at, capacity) => UnacknowledgedGeneration(a, op, at, capacity, s);
    case CutCompaction(at, capacity) =>
      HalfCompactedSound(a);
      RestartGeneration(a.(disk := HalfCompacted(a)), at, capacity, s);
    case CutEmpty(at, instance, landed, capacity) => CutEmptyGeneration(a, at, instance, landed, capacity, s);
  }

  // ---- whole runs ----

  ghost function AfterEvents(a: Actor, run: seq<Event>): Actor {
    if run == [] then a else StepEvent(AfterEvents(a, run[..|run| - 1]), run[|run| - 1])
  }

  ghost predicate LegalEvents(a: Actor, run: seq<Event>) {
    run == [] || (LegalEvents(a, run[..|run| - 1]) && LegalEvent(AfterEvents(a, run[..|run| - 1]), run[|run| - 1]))
  }

  lemma {:induction false} EventsSound(a: Actor, run: seq<Event>)
    requires Sound(a) && LegalEvents(a, run)
    ensures Sound(AfterEvents(a, run))
  {
    if run != [] {
      EventsSound(a, run[..|run| - 1]);
      EventSound(AfterEvents(a, run[..|run| - 1]), run[|run| - 1]);
    }
  }

  /** Recovery, after any run with crashes: the same generations, and exactly the unexpired active keys. */
  lemma CrashesRecover(instance: nat, capacity: nat, start: nat, reach: nat, run: seq<Event>, now: nat, k: KeyId)
    requires MAX_SCHEDULABLE <= reach && LegalEvents(FirstStart(instance, capacity, start, reach), run)
    requires AfterEvents(FirstStart(instance, capacity, start, reach), run).life.wall <= now
    ensures var a := AfterEvents(FirstStart(instance, capacity, start, reach), run);
            var b := StepActor(a, Restart(now, |a.life.table.slots|));
            P.Load(a.disk, a.instance, |a.life.table.slots|).Ok?
            && P.GenerationsOf(b.life.table.slots) == P.GenerationsOf(a.life.table.slots)
            && Recovered(a.life, b.life, now, k)
  {
    FirstStartSound(instance, capacity, start, reach);
    EventsSound(FirstStart(instance, capacity, start, reach), run);
    SoundRecovers(AfterEvents(FirstStart(instance, capacity, start, reach), run), now, k);
  }

  ghost function EventsHanded(a: Actor, run: seq<Event>): seq<KeyId> {
    if run == [] then []
    else
      var n := |run| - 1;
      EventsHanded(a, run[..n]) + match EventHanded(AfterEvents(a, run[..n]), run[n]) case None => [] case Some(k) => [k]
  }

  lemma EventHandedMore(a: Actor, b: Actor, e: Event, keys: seq<KeyId>)
    requires Sound(b) && LegalEvent(b, e) && HandedOnce(a, b, keys)
    ensures HandedOnce(a, StepEvent(b, e), keys + match EventHanded(b, e) case None => [] case Some(k) => [k])
  {
    forall s: nat
      ensures Generation(a, s) <= Generation(b, s) <= Generation(StepEvent(b, e), s)
    {
      EventGeneration(b, e, s);
    }
    if EventHanded(b, e).Some? {
      EventGeneration(b, e, EventHanded(b, e).value.slot);
    }
  }

  /** No key id is handed out twice, whatever crashes the run has. */
  lemma {:induction false} NeverTwiceThroughCrashes(a: Actor, run: seq<Event>)
    requires Sound(a) && LegalEvents(a, run)
    ensures HandedOnce(a, AfterEvents(a, run), EventsHanded(a, run))
  {
    if run != [] {
      var n := |run| - 1;
      NeverTwiceThroughCrashes(a, run[..n]);
      EventsSound(a, run[..n]);
      EventHandedMore(a, AfterEvents(a, run[..n]), run[n], EventsHanded(a, run[..n]));
    }
  }
}
