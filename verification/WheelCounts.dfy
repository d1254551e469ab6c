/**
Counting the routes of a wheel by deadline.

Every link in every bucket has a fixed due tick: the tick its bucket comes off plus what
the legs nested in it still have to wait. `WheelCount` counts the routes that match a
query, and the lemmas here say how filing, rotating and a whole tick change the counts.
*/
module WheelCounts {
  import opened Powers
  import opened Routes

  /** Which shared `Timer` a reference points to: the identity of its `Arc`. */
  type TimerId = nat

  type Bucket = seq<Link<TimerId>>
  type Level = seq<Bucket>

  /** What a count looks for: routes releasing a timer on one tick, or holding it at all. */
  datatype Query = Due(at: nat, timer: TimerId) | Any(timer: TimerId) {
    ghost predicate Matches(tick: nat, t: TimerId) {
      timer == t && (Due? ==> at == tick)
    }
  }

  // ---- how many routes of a wheel match a query ----

  ghost function One(b: bool): nat {
    if b then 1 else 0
  }

  ghost predicate Meets(radix: nat, pop: nat, l: Link<TimerId>, d: Query) {
    d.Matches(pop + Residual(radix, l), TimerOf(l))
  }

  ghost function BucketCount(radix: nat, pop: nat, b: Bucket, d: Query): nat {
    if b == [] then 0
    else BucketCount(radix, pop, b[..|b| - 1], d) + One(Meets(radix, pop, b[|b| - 1], d))
  }

  /** Bucket `j` of a level last rotated at `base` comes off at `base + (j + 1) * period`. */
  ghost function LevelCount(radix: nat, base: nat, period: nat, q: Level, d: Query): nat
    decreases |q|
  {
    if q == [] then 0
    else BucketCount(radix, base + period, q[0], d) + LevelCount(radix, base + period, period, q[1..], d)
  }

  ghost function WheelCount(radix: nat, bases: seq<nat>, levels: seq<Level>, d: Query): nat
    requires |bases| == |levels|
  {
    if levels == [] then 0
    else
      var n := |levels| - 1;
      WheelCount(radix, bases[..n], levels[..n], d) + LevelCount(radix, bases[n], Pow(radix, n), levels[n], d)
  }

  lemma BucketPush(radix: nat, pop: nat, b: Bucket, l: Link<TimerId>, d: Query)
    ensures BucketCount(radix, pop, b + [l], d) == BucketCount(radix, pop, b, d) + One(Meets(radix, pop, l, d))
  {
    assert (b + [l])[..|b|] == b;
  }

  lemma {:induction false} LevelPush(radix: nat, base: nat, period: nat, q: Level, slot: nat, l: Link<TimerId>, d: Query)
    requires slot < |q|
    ensures LevelCount(radix, base, period, q[slot := q[slot] + [l]], d)
            == LevelCount(radix, base, period, q, d) + One(Meets(radix, base + (slot + 1) * period, l, d))
    decreases slot
  {
    var q' := q[slot := q[slot] + [l]];
    if slot == 0 {
      BucketPush(radix, base + period, q[0], l, d);
      assert q'[1..] == q[1..];
    } else {
      LevelPush(radix, base + period, period, q[1..], slot - 1, l, d);
      assert q'[1..] == q[1..][slot - 1 := q[1..][slot - 1] + [l]];
      assert base + period + slot * period == base + (slot + 1) * period;
    }
  }

  lemma {:induction false} LevelAppendEmpty(radix: nat, base: nat, period: nat, q: Level, d: Query)
    ensures LevelCount(radix, base, period, q + [[]], d) == LevelCount(radix, base, period, q, d)
    decreases |q|
  {
    if q != [] {
      LevelAppendEmpty(radix, base + period, period, q[1..], d);
      assert (q + [[]])[1..] == q[1..] + [[]];
    }
  }

  /** Changing one level changes only that level's share. */
  lemma {:induction false} WheelUpdate(radix: nat, bases: seq<nat>, levels: seq<Level>, i: nat, base: nat, q: Level, d: Query)
    requires |bases| == |levels| && i < |levels|
    ensures WheelCount(radix, bases[i := base], levels[i := q], d) + LevelCount(radix, bases[i], Pow(radix, i), levels[i], d)
            == WheelCount(radix, bases, levels, d) + LevelCount(radix, base, Pow(radix, i), q, d)
    decreases |levels|
  {
    var n := |levels| - 1;
    var bases', levels' := bases[i := base], levels[i := q];
    if i == n {
      assert bases'[..n] == bases[..n] && levels'[..n] == levels[..n];
    } else {
      WheelUpdate(radix, bases[..n], levels[..n], i, base, q, d);
      assert bases'[..n] == bases[..n][i := base] && levels'[..n] == levels[..n][i := q];
    }
  }

  /** Filing a link adds exactly its own deadline. */
  lemma WheelPush(radix: nat, bases: seq<nat>, levels: seq<Level>, i: nat, slot: nat, l: Link<TimerId>, d: Query)
    requires |bases| == |levels| && i < |levels| && slot < |levels[i]|
    ensures WheelCount(radix, bases, Filed(levels, i, slot, l), d)
            == WheelCount(radix, bases, levels, d) + One(Meets(radix, bases[i] + (slot + 1) * Pow(radix, i), l, d))
  {
    LevelPush(radix, bases[i], Pow(radix, i), levels[i], slot, l, d);
    WheelUpdate(radix, bases, levels, i, bases[i], levels[i][slot := levels[i][slot] + [l]], d);
    assert bases[i := bases[i]] == bases;
  }

  /** Taking the front bucket off a level that turns over at `base + period`. */
  lemma WheelRotate(radix: nat, bases: seq<nat>, levels: seq<Level>, i: nat, d: Query)
    requires |bases| == |levels| && i < |levels| && levels[i] != []
    ensures var pop := bases[i] + Pow(radix, i);
            WheelCount(radix, bases[i := pop], Rotated(levels, i), d) + BucketCount(radix, pop, levels[i][0], d)
            == WheelCount(radix, bases, levels, d)
  {
    var pop := bases[i] + Pow(radix, i);
    WheelUpdate(radix, bases, levels, i, pop, levels[i][1..] + [[]], d);
    LevelAppendEmpty(radix, pop, Pow(radix, i), levels[i][1..], d);
  }

  // ---- a held timer is due on some tick ----

  lemma {:induction false} BucketDue(radix: nat, pop: nat, b: Bucket, x: TimerId, t: nat) returns (at: nat)
    ensures BucketCount(radix, pop, b, Due(t, x)) <= BucketCount(radix, pop, b, Any(x))
    ensures BucketCount(radix, pop, b, Any(x)) > 0 ==> BucketCount(radix, pop, b, Due(at, x)) > 0
  {
    at := 0;
    if b != [] {
      at := BucketDue(radix, pop, b[..|b| - 1], x, t);
      if Meets(radix, pop, b[|b| - 1], Any(x)) {
        at := pop + Residual(radix, b[|b| - 1]);
      }
    }
  }

  lemma {:induction false} LevelDue(radix: nat, base: nat, period: nat, q: Level, x: TimerId, t: nat) returns (at: nat)
    ensures LevelCount(radix, base, period, q, Due(t, x)) <= LevelCount(radix, base, period, q, Any(x))
    ensures LevelCount(radix, base, period, q, Any(x)) > 0 ==> LevelCount(radix, base, period, q, Due(at, x)) > 0
    decreases |q|
  {
    at := 0;
    if q != [] {
      var first := BucketDue(radix, base + period, q[0], x, t);
      at := LevelDue(radix, base + period, period, q[1..], x, t);
      if BucketCount(radix, base + period, q[0], Any(x)) > 0 {
        at := first;
      }
    }
  }

  lemma {:induction false} WheelDue(radix: nat, bases: seq<nat>, levels: seq<Level>, x: TimerId, t: nat) returns (at: nat)
    requires |bases| == |levels|
    ensures WheelCount(radix, bases, levels, Due(t, x)) <= WheelCount(radix, bases, levels, Any(x))
    ensures WheelCount(radix, bases, levels, Any(x)) > 0 ==> WheelCount(radix, bases, levels, Due(at, x)) > 0
  {
    at := 0;
    if levels != [] {
      var n := |levels| - 1;
      at := WheelDue(radix, bases[..n], levels[..n], x, t);
      var last := LevelDue(radix, bases[n], Pow(radix, n), levels[n], x, t);
      if LevelCount(radix, bases[n], Pow(radix, n), levels[n], Any(x)) > 0 {
        at := last;
      }
    }
  }

  // ---- everything a wheel holds, in the order dropping it releases it ----

  function BucketTimers(b: Bucket): seq<TimerId> {
    if b == [] then [] else BucketTimers(b[..|b| - 1]) + [TimerOf(b[|b| - 1])]
  }

  function LevelTimers(q: Level): seq<TimerId> {
    if q == [] then [] else BucketTimers(q[0]) + LevelTimers(q[1..])
  }

  function WheelTimers(levels: seq<Level>): seq<TimerId> {
    if levels == [] then [] else WheelTimers(levels[..|levels| - 1]) + LevelTimers(levels[|levels| - 1])
  }

  lemma {:induction false} BucketTimersCount(radix: nat, pop: nat, b: Bucket, x: TimerId)
    ensures multiset(BucketTimers(b))[x] == BucketCount(radix, pop, b, Any(x))
  {
    if b != [] {
      BucketTimersCount(radix, pop, b[..|b| - 1], x);
    }
  }

  lemma {:induction false} LevelTimersCount(radix: nat, base: nat, period: nat, q: Level, x: TimerId)
    ensures multiset(LevelTimers(q))[x] == LevelCount(radix, base, period, q, Any(x))
    decreases |q|
  {
    if q != [] {
      BucketTimersCount(radix, base + period, q[0], x);
      LevelTimersCount(radix, base + period, period, q[1..], x);
    }
  }

  lemma {:induction false} WheelTimersCount(radix: nat, bases: seq<nat>, levels: seq<Level>, x: TimerId)
    requires |bases| == |levels|
    ensures multiset(WheelTimers(levels))[x] == WheelCount(radix, bases, levels, Any(x))
  {
    if levels != [] {
      var n := |levels| - 1;
      WheelTimersCount(radix, bases[..n], levels[..n], x);
      LevelTimersCount(radix, bases[n], Pow(radix, n), levels[n], x);
    }
  }

  // ---- nothing held is already due ----

  lemma {:induction false} BucketCountAfter(radix: nat, pop: nat, b: Bucket, d: Query)
    requires d.Due? && BucketCount(radix, pop, b, d) > 0
    ensures d.at >= pop
  {
    if BucketCount(radix, pop, b[..|b| - 1], d) > 0 {
      BucketCountAfter(radix, pop, b[..|b| - 1], d);
    }
  }

  lemma {:induction false} LevelCountAfter(radix: nat, base: nat, period: nat, q: Level, d: Query)
    requires d.Due? && LevelCount(radix, base, period, q, d) > 0
    ensures d.at >= base + period
    decreases |q|
  {
    if BucketCount(radix, base + period, q[0], d) > 0 {
      BucketCountAfter(radix, base + period, q[0], d);
    } else {
      LevelCountAfter(radix, base + period, period, q[1..], d);
    }
  }

  lemma {:induction false} WheelCountAfter(radix: nat, bases: seq<nat>, levels: seq<Level>, t: nat, d: Query)
    requires d.Due? && |bases| == |levels| && WheelCount(radix, bases, levels, d) > 0
    requires forall i | 0 <= i < |levels| :: bases[i] + Pow(radix, i) > t
    ensures d.at > t
  {
    var n := |levels| - 1;
    if WheelCount(radix, bases[..n], levels[..n], d) > 0 {
      WheelCountAfter(radix, bases[..n], levels[..n], t, d);
    } else {
      LevelCountAfter(radix, bases[n], Pow(radix, n), levels[n], d);
    }
  }

  lemma {:induction false} EmptyLevel(radix: nat, base: nat, period: nat, q: Level, d: Query)
    requires forall j | 0 <= j < |q| :: q[j] == []
    ensures LevelCount(radix, base, period, q, d) == 0
    decreases |q|
  {
    if q != [] {
      EmptyLevel(radix, base + period, period, q[1..], d);
    }
  }

  lemma {:induction false} EmptyWheel(radix: nat, bases: seq<nat>, levels: seq<Level>, d: Query)
    requires |bases| == |levels|
    requires forall i, j | 0 <= i < |levels| && 0 <= j < |levels[i]| :: levels[i][j] == []
    ensures WheelCount(radix, bases, levels, d) == 0
  {
    if levels != [] {
      var n := |levels| - 1;
      EmptyWheel(radix, bases[..n], levels[..n], d);
      EmptyLevel(radix, bases[n], Pow(radix, n), levels[n], d);
    }
  }

  // ---- the wheel ----

  /** When every level below `n` was last rotated, as of tick `ticks`. */
  ghost function Bases(radix: nat, n: nat, ticks: nat): (b: seq<nat>)
    requires radix > 0
    ensures |b| == n
    ensures forall i | 0 <= i < n :: Pow(radix, i) > 0 && b[i] == Boundary(ticks, Pow(radix, i))
  {
    if n == 0 then []
    else
      PowPositive(radix, n - 1);
      Bases(radix, n - 1, ticks) + [Boundary(ticks, Pow(radix, n - 1))]
  }

  /** While tick `ticks` is processed: levels below `k` are already rotated, the rest not yet. */
  ghost function MixedBases(radix: nat, n: nat, ticks: nat, k: nat): (b: seq<nat>)
    requires radix > 0 && ticks > 0
    ensures |b| == n
    ensures forall i | 0 <= i < n :: Pow(radix, i) > 0 && b[i] == if i < k then ticks else Boundary(ticks - 1, Pow(radix, i))
  {
    if n == 0 then []
    else
      PowPositive(radix, n - 1);
      MixedBases(radix, n - 1, ticks, k)
      + [if n - 1 < k then ticks else Boundary(ticks - 1, Pow(radix, n - 1))]
  }

  ghost predicate WellFiled(radix: nat, levels: seq<Level>) {
    forall i | 0 <= i < |levels| ::
      |levels[i]| == radix
      && forall j, k | 0 <= j < radix && 0 <= k < |levels[i][j]| :: Descends(radix, levels[i][j][k], i)
  }

  ghost function Filed(levels: seq<Level>, i: nat, slot: nat, l: Link<TimerId>): seq<Level>
    requires i < |levels| && slot < |levels[i]|
  {
    levels[i := levels[i][slot := levels[i][slot] + [l]]]
  }

  ghost function Rotated(levels: seq<Level>, i: nat): seq<Level>
    requires i < |levels| && levels[i] != []
  {
    levels[i := levels[i][1..] + [[]]]
  }

  lemma FiledWell(radix: nat, levels: seq<Level>, i: nat, slot: nat, l: Link<TimerId>)
    requires WellFiled(radix, levels) && i < |levels| && slot < radix && Descends(radix, l, i)
    ensures WellFiled(radix, Filed(levels, i, slot, l))
  {
  }

  lemma RotatedWell(radix: nat, levels: seq<Level>, i: nat)
    requires radix > 0 && WellFiled(radix, levels) && i < |levels|
    ensures WellFiled(radix, Rotated(levels, i))
    ensures forall k | 0 <= k < |levels[i][0]| :: Descends(radix, levels[i][0][k], i)
  {
  }

  /** Filing the leg a relay hands on keeps the relay's own deadline. */
  lemma RelayKeepsDeadline(radix: nat, bases: seq<nat>, levels: seq<Level>, tick: nat, level: nat, l: Link<TimerId>, d: Query)
    requires l.Relay? && Descends(radix, l, level) && level < |levels| == |bases|
    requires WellFiled(radix, levels)
    requires forall i | 0 <= i < level :: bases[i] == tick
    ensures WheelCount(radix, bases, Filed(levels, l.level, l.slot, l.next), d)
            == WheelCount(radix, bases, levels, d) + One(Meets(radix, tick, l, d))
  {
    WheelPush(radix, bases, levels, l.level, l.slot, l.next, d);
  }

  /** Whether `level` turns over on tick `ticks`. */
  ghost predicate TurnsOver(radix: nat, ticks: nat, level: nat) {
    Pow(radix, level) > 0 && ticks % Pow(radix, level) == 0
  }

  /** The test a tick makes, on the saturating period. */
  predicate TurnsOverNow(radix: nat, ticks: nat, level: nat)
    requires radix > 0
  {
    PowPositive(radix, level);
    ticks % SatPow(radix, level) == 0
  }

  lemma TurnsOverAsTested(radix: nat, n: nat, ticks: nat, level: nat)
    requires Shape(radix, n) && level < n
    ensures TurnsOverNow(radix, ticks, level) == TurnsOver(radix, ticks, level)
  {
    ShapeBounds(radix, n, level);
  }

  lemma BasesBeforeTick(radix: nat, n: nat, ticks: nat)
    requires radix > 0 && ticks > 0
    ensures MixedBases(radix, n, ticks, 0) == Bases(radix, n, ticks - 1)
  {
  }

  lemma BasesAfterRotation(radix: nat, n: nat, ticks: nat, k: nat)
    requires radix > 0 && ticks > 0 && k < n
    requires TurnsOver(radix, ticks, k)
    ensures var b := MixedBases(radix, n, ticks, k);
            b[k] + Pow(radix, k) == ticks && b[k := ticks] == MixedBases(radix, n, ticks, k + 1)
  {
    BoundaryStep(ticks - 1, Pow(radix, k));
  }

  lemma RotationCounts(radix: nat, levels: seq<Level>, ticks: nat, i: nat, d: Query)
    requires radix > 0 && ticks > 0 && i < |levels| && levels[i] != [] && TurnsOver(radix, ticks, i)
    ensures WheelCount(radix, MixedBases(radix, |levels|, ticks, i + 1), Rotated(levels, i), d) + BucketCount(radix, ticks, levels[i][0], d)
            == WheelCount(radix, MixedBases(radix, |levels|, ticks, i), levels, d)
  {
    BasesAfterRotation(radix, |levels|, ticks, i);
    WheelRotate(radix, MixedBases(radix, |levels|, ticks, i), levels, i, d);
  }

  /** Once a level does not turn over no coarser one does, so its base is already current. */
  lemma BasesAfterTick(radix: nat, n: nat, ticks: nat, k: nat)
    requires radix > 0 && ticks > 0 && k <= n
    requires k > 0 ==> TurnsOver(radix, ticks, k - 1)
    requires k < n ==> !TurnsOver(radix, ticks, k)
    ensures MixedBases(radix, n, ticks, k) == Bases(radix, n, ticks)
  {
    forall i | 0 <= i < n
      ensures MixedBases(radix, n, ticks, k)[i] == Bases(radix, n, ticks)[i]
    {
      PowPositive(radix, i);
      if i < k {
        FinerDivides(radix, ticks, i, k - 1);
      }
      BaseAfterTick(radix, ticks, k, i);
    }
  }

  lemma BaseAfterTick(radix: nat, ticks: nat, k: nat, i: nat)
    requires radix > 0 && ticks > 0 && Pow(radix, i) > 0
    requires i < k ==> TurnsOver(radix, ticks, i)
    requires i >= k ==> !TurnsOver(radix, ticks, k)
    ensures Boundary(ticks, Pow(radix, i)) == if i < k then ticks else Boundary(ticks - 1, Pow(radix, i))
  {
    BoundaryStep(ticks - 1, Pow(radix, i));
    PowPositive(radix, k);
    if i >= k && ticks % Pow(radix, i) == 0 {
      FinerDivides(radix, ticks, k, i);
    }
  }

  /** References released on `tick`, counted like the routes they came from. */
  ghost function Dropped(tick: nat, released: seq<TimerId>, d: Query): nat {
    if d.Due? && d.at != tick then 0 else multiset(released)[d.timer]
  }

  // ---- one tick, as a function of the queues ----

  /** Queues and the references released so far. */
  datatype Step = Step(levels: seq<Level>, out: seq<TimerId>)

  /** Handing on every link of a bucket that came off, in order. */
  ghost function Handed(levels: seq<Level>, bucket: Bucket): (s: Step)
    ensures |s.levels| == |levels|
  {
    if bucket == [] then Step(levels, [])
    else
      var s := Handed(levels, bucket[..|bucket| - 1]);
      match bucket[|bucket| - 1]
      case Deliver(timer) => Step(s.levels, s.out + [timer])
      case Relay(next, slot, rest) =>
        if next < |s.levels| && slot < |s.levels[next]| then Step(Filed(s.levels, next, slot, rest), s.out) else s
  }

  lemma {:induction false} HandedWell(radix: nat, levels: seq<Level>, level: nat, bucket: Bucket)
    requires WellFiled(radix, levels) && level < |levels|
    requires forall k | 0 <= k < |bucket| :: Descends(radix, bucket[k], level)
    ensures WellFiled(radix, Handed(levels, bucket).levels) && |Handed(levels, bucket).levels| == |levels|
  {
    if bucket != [] {
      var l := bucket[|bucket| - 1];
      HandedWell(radix, levels, level, bucket[..|bucket| - 1]);
      if l.Relay? {
        FiledWell(radix, Handed(levels, bucket[..|bucket| - 1]).levels, l.level, l.slot, l.next);
      }
    }
  }

  /** A level turning over: its front bucket comes off and its links are handed on. */
  ghost function TurnedOver(levels: seq<Level>, level: nat): (s: Step)
    requires level < |levels| && levels[level] != []
    ensures |s.levels| == |levels|
  {
    Handed(Rotated(levels, level), levels[level][0])
  }

  lemma TurnedOverWell(radix: nat, levels: seq<Level>, level: nat)
    requires radix > 0 && WellFiled(radix, levels) && level < |levels|
    ensures WellFiled(radix, TurnedOver(levels, level).levels) && |TurnedOver(levels, level).levels| == |levels|
    ensures WellFiled(radix, Rotated(levels, level))
    ensures forall k | 0 <= k < |levels[level][0]| :: Descends(radix, levels[level][0][k], level)
  {
    RotatedWell(radix, levels, level);
    HandedWell(radix, Rotated(levels, level), level, levels[level][0]);
  }

  /** Levels `k` and up turning over on `ticks`, as far as they do. */
  ghost function Ticked(radix: nat, ticks: nat, s: Step, k: nat): (s': Step)
    requires radix > 0 && WellFiled(radix, s.levels) && k <= |s.levels|
    ensures WellFiled(radix, s'.levels) && |s'.levels| == |s.levels|
    decreases |s.levels| - k
  {
    if k == |s.levels| || !TurnsOverNow(radix, ticks, k) then s
    else
      TurnedOverWell(radix, s.levels, k);
      var t := TurnedOver(s.levels, k);
      Ticked(radix, ticks, Step(t.levels, s.out + t.out), k + 1)
  }

  lemma {:induction false} HandedCounts(radix: nat, bases: seq<nat>, levels: seq<Level>, tick: nat, level: nat, bucket: Bucket, d: Query)
    requires WellFiled(radix, levels) && level < |levels| == |bases|
    requires forall k | 0 <= k < |bucket| :: Descends(radix, bucket[k], level)
    requires forall i | 0 <= i < level :: bases[i] == tick
    ensures var s := Handed(levels, bucket);
            WheelCount(radix, bases, s.levels, d) + Dropped(tick, s.out, d)
            == WheelCount(radix, bases, levels, d) + BucketCount(radix, tick, bucket, d)
  {
    if bucket != [] {
      var l := bucket[|bucket| - 1];
      var s := Handed(levels, bucket[..|bucket| - 1]);
      HandedWell(radix, levels, level, bucket[..|bucket| - 1]);
      HandedCounts(radix, bases, levels, tick, level, bucket[..|bucket| - 1], d);
      if l.Relay? {
        RelayKeepsDeadline(radix, bases, s.levels, tick, level, l, d);
      } else {
        DroppedMore(tick, s.out, [l.timer], d);
      }
    }
  }

  lemma DroppedMore(tick: nat, a: seq<TimerId>, b: seq<TimerId>, d: Query)
    ensures Dropped(tick, a + b, d) == Dropped(tick, a, d) + Dropped(tick, b, d)
  {
  }

  lemma TurnedOverCounts(radix: nat, levels: seq<Level>, ticks: nat, k: nat, d: Query)
    requires radix > 0 && WellFiled(radix, levels) && k < |levels| && ticks > 0 && TurnsOver(radix, ticks, k)
    ensures var s := TurnedOver(levels, k);
            WheelCount(radix, MixedBases(radix, |levels|, ticks, k + 1), s.levels, d) + Dropped(ticks, s.out, d)
            == WheelCount(radix, MixedBases(radix, |levels|, ticks, k), levels, d)
  {
    RotatedWell(radix, levels, k);
    HandedCounts(radix, MixedBases(radix, |levels|, ticks, k + 1), Rotated(levels, k), ticks, k, levels[k][0], d);
    RotationCounts(radix, levels, ticks, k, d);
  }

  /** A tick releases what it no longer holds, and nothing else. */
  lemma {:induction false} TickedCounts(radix: nat, ticks: nat, s: Step, k: nat, d: Query)
    requires Shape(radix, |s.levels|) && WellFiled(radix, s.levels) && k <= |s.levels| && ticks > 0
    requires k > 0 ==> TurnsOver(radix, ticks, k - 1)
    ensures var n := |s.levels|;
            var s' := Ticked(radix, ticks, s, k);
            WheelCount(radix, Bases(radix, n, ticks), s'.levels, d) + Dropped(ticks, s'.out, d)
            == WheelCount(radix, MixedBases(radix, n, ticks, k), s.levels, d) + Dropped(ticks, s.out, d)
    decreases |s.levels| - k
  {
    if k < |s.levels| {
      TurnsOverAsTested(radix, |s.levels|, ticks, k);
    }
    if k == |s.levels| || !TurnsOverNow(radix, ticks, k) {
      BasesAfterTick(radix, |s.levels|, ticks, k);
    } else {
      var t := TurnedOver(s.levels, k);
      TurnedOverWell(radix, s.levels, k);
      TurnedOverCounts(radix, s.levels, ticks, k, d);
      DroppedMore(ticks, s.out, t.out, d);
      TickedCounts(radix, ticks, Step(t.levels, s.out + t.out), k + 1, d);
    }
  }

  /** Every route still held is due strictly later. */
  lemma NothingOverdue(radix: nat, levels: seq<Level>, ticks: nat, d: Query)
    requires radix > 0 && d.Due? && d.at <= ticks
    ensures WheelCount(radix, Bases(radix, |levels|, ticks), levels, d) == 0
  {
    var bases := Bases(radix, |levels|, ticks);
    forall i | 0 <= i < |levels|
      ensures bases[i] + Pow(radix, i) > ticks
    {
      PowPositive(radix, i);
      BoundaryStep(ticks, Pow(radix, i));
    }
    if WheelCount(radix, bases, levels, d) > 0 {
      WheelCountAfter(radix, bases, levels, ticks, d);
    }
  }

  /** Exact firing: tick `ticks` releases the routes due on it, and leaves the others alone. */
  lemma TickExact(radix: nat, ticks: nat, levels: seq<Level>, d: Query)
    requires Shape(radix, |levels|) && WellFiled(radix, levels) && ticks > 0
    ensures var s := Ticked(radix, ticks, Step(levels, []), 0);
            var before := WheelCount(radix, Bases(radix, |levels|, ticks - 1), levels, d);
            var after := WheelCount(radix, Bases(radix, |levels|, ticks), s.levels, d);
            after == (if d.Any? then before - multiset(s.out)[d.timer] else if d.at <= ticks then 0 else before)
            && (d.Due? && d.at == ticks ==> multiset(s.out)[d.timer] == before)
  {
    BasesBeforeTick(radix, |levels|, ticks);
    TickedCounts(radix, ticks, Step(levels, []), 0, d);
    if d.Due? && d.at <= ticks {
      NothingOverdue(radix, Ticked(radix, ticks, Step(levels, []), 0).levels, ticks, d);
    }
  }

  function Later(a: nat, b: nat): nat {
    if a < b then b else a
  }

  /** `refs` counts every held timer's routes and `last` is the latest tick they drain on. */
  ghost predicate Tracks(radix: nat, bases: seq<nat>, levels: seq<Level>, refs: map<TimerId, nat>, last: map<TimerId, nat>)
    requires |bases| == |levels|
  {
    refs.Keys == last.Keys
    && forall x: TimerId :: TracksOne(radix, bases, levels, refs, last, x)
  }

  ghost predicate TracksOne(radix: nat, bases: seq<nat>, levels: seq<Level>, refs: map<TimerId, nat>, last: map<TimerId, nat>, x: TimerId)
    requires |bases| == |levels| && refs.Keys == last.Keys
  {
    if x in refs then
      WheelCount(radix, bases, levels, Any(x)) == refs[x] > 0
      && WheelCount(radix, bases, levels, Due(last[x], x)) > 0
      && forall u: nat | u > last[x] :: WheelCount(radix, bases, levels, Due(u, x)) == 0
    else
      WheelCount(radix, bases, levels, Any(x)) == 0
  }

  ghost function OneMore(refs: map<TimerId, nat>, x: TimerId): map<TimerId, nat> {
    refs[x := (if x in refs then refs[x] else 0) + 1]
  }

  ghost function Extended(last: map<TimerId, nat>, x: TimerId, t: nat): map<TimerId, nat> {
    last[x := if x in last then Later(last[x], t) else t]
  }

  /** The counts left once the references in `out` are dropped. */
  ghost function Remaining(refs: map<TimerId, nat>, out: seq<TimerId>): map<TimerId, nat> {
    map x | x in refs && refs[x] > multiset(out)[x] :: refs[x] - multiset(out)[x]
  }

  /** The timers whose last route drains on tick `t`. */
  ghost function DueOn(last: map<TimerId, nat>, t: nat): set<TimerId> {
    set x | x in last && last[x] == t
  }

  /** From `l0` to `l1` the wheel gained exactly one route, releasing `id` on tick `t`. */
  ghost predicate Gains(radix: nat, bases: seq<nat>, l0: seq<Level>, l1: seq<Level>, t: nat, id: TimerId)
    requires |bases| == |l0| == |l1|
  {
    forall d :: WheelCount(radix, bases, l1, d) == WheelCount(radix, bases, l0, d) + One(d.Matches(t, id))
  }

  /** What a tick that released `out` does to one count. */
  ghost predicate ReleasesOne(radix: nat, ticks: nat, b0: seq<nat>, l0: seq<Level>, b1: seq<nat>, l1: seq<Level>, out: seq<TimerId>, d: Query)
    requires |b0| == |l0| && |b1| == |l1|
  {
    var before, after := WheelCount(radix, b0, l0, d), WheelCount(radix, b1, l1, d);
    after == (if d.Any? then before - multiset(out)[d.timer] else if d.at <= ticks then 0 else before)
    && (d.Due? && d.at == ticks ==> multiset(out)[d.timer] == before)
  }

  /**
  Exact firing: across tick `ticks` the wheel released `out`, exactly the routes due on
  that tick, and kept every other route where it was.
  */
  ghost predicate Releases(radix: nat, ticks: nat, b0: seq<nat>, l0: seq<Level>, b1: seq<nat>, l1: seq<Level>, out: seq<TimerId>)
    requires |b0| == |l0| && |b1| == |l1|
  {
    forall d: Query :: ReleasesOne(radix, ticks, b0, l0, b1, l1, out, d)
  }

  lemma TickReleases(radix: nat, ticks: nat, levels: seq<Level>)
    requires Shape(radix, |levels|) && WellFiled(radix, levels) && ticks > 0
    ensures var s := Ticked(radix, ticks, Step(levels, []), 0);
            Releases(radix, ticks, Bases(radix, |levels|, ticks - 1), levels, Bases(radix, |levels|, ticks), s.levels, s.out)
  {
    var s := Ticked(radix, ticks, Step(levels, []), 0);
    var before, after := Bases(radix, |levels|, ticks - 1), Bases(radix, |levels|, ticks);
    forall d: Query
      ensures ReleasesOne(radix, ticks, before, levels, after, s.levels, s.out, d)
    {
      TickExact(radix, ticks, levels, d);
    }
  }

  /** The queues after `k` more ticks with nothing scheduled in between. */
  ghost function AfterTicks(radix: nat, ticks: nat, levels: seq<Level>, k: nat): (after: seq<Level>)
    requires Shape(radix, |levels|) && WellFiled(radix, levels)
    ensures WellFiled(radix, after) && |after| == |levels|
  {
    if k == 0 then levels
    else Ticked(radix, ticks + k, Step(AfterTicks(radix, ticks, levels, k - 1), []), 0).levels
  }

  /** What the `k`-th of those ticks releases. */
  ghost function OutOnTick(radix: nat, ticks: nat, levels: seq<Level>, k: nat): seq<TimerId>
    requires Shape(radix, |levels|) && WellFiled(radix, levels) && k > 0
  {
    Ticked(radix, ticks + k, Step(AfterTicks(radix, ticks, levels, k - 1), []), 0).out
  }

  ghost function CountAfter(radix: nat, ticks: nat, levels: seq<Level>, k: nat, d: Query): nat
    requires Shape(radix, |levels|) && WellFiled(radix, levels)
  {
    WheelCount(radix, Bases(radix, |levels|, ticks + k), AfterTicks(radix, ticks, levels, k), d)
  }

  lemma OneMoreTick(radix: nat, ticks: nat, levels: seq<Level>, k: nat, d: Query)
    requires Shape(radix, |levels|) && WellFiled(radix, levels) && d.Due? && k > 0
    ensures CountAfter(radix, ticks, levels, k, d) == if d.at <= ticks + k then 0 else CountAfter(radix, ticks, levels, k - 1, d)
    ensures d.at == ticks + k ==>
              multiset(OutOnTick(radix, ticks, levels, k))[d.timer] == CountAfter(radix, ticks, levels, k - 1, d)
  {
    TickExact(radix, ticks + k, AfterTicks(radix, ticks, levels, k - 1), d);
  }

  /**
  Over any number of ticks every route comes out on its own tick and on no other: the
  `k`-th tick releases exactly the routes that were due on it from the start.
  */
  lemma {:induction false} ReleasedOnItsTick(radix: nat, ticks: nat, levels: seq<Level>, k: nat, d: Query)
    requires Shape(radix, |levels|) && WellFiled(radix, levels) && d.Due?
    ensures CountAfter(radix, ticks, levels, k, d)
            == if k > 0 && d.at <= ticks + k then 0 else WheelCount(radix, Bases(radix, |levels|, ticks), levels, d)
    ensures k > 0 && d.at == ticks + k ==>
              multiset(OutOnTick(radix, ticks, levels, k))[d.timer] == WheelCount(radix, Bases(radix, |levels|, ticks), levels, d)
  {
    if k > 0 {
      ReleasedOnItsTick(radix, ticks, levels, k - 1, d);
      OneMoreTick(radix, ticks, levels, k, d);
    }
  }

  lemma TracksSchedule(radix: nat, bases: seq<nat>, l0: seq<Level>, l1: seq<Level>,
                       refs: map<TimerId, nat>, last: map<TimerId, nat>, id: TimerId, t: nat)
    requires |bases| == |l0| == |l1| && Tracks(radix, bases, l0, refs, last)
    requires Gains(radix, bases, l0, l1, t, id)
    ensures Tracks(radix, bases, l1, OneMore(refs, id), Extended(last, id, t))
  {
    var refs', last' := OneMore(refs, id), Extended(last, id, t);
    forall x: TimerId
      ensures TracksOne(radix, bases, l1, refs', last', x)
    {
      assert TracksOne(radix, bases, l0, refs, last, x);
      assert WheelCount(radix, bases, l1, Any(x)) == WheelCount(radix, bases, l0, Any(x)) + One(x == id);
      forall u: nat
        ensures WheelCount(radix, bases, l1, Due(u, x)) == WheelCount(radix, bases, l0, Due(u, x)) + One(x == id && u == t)
      {
      }
      if x == id && x !in refs {
        forall u: nat
          ensures WheelCount(radix, bases, l0, Due(u, x)) == 0
        {
          var at := WheelDue(radix, bases, l0, x, u);
        }
      }
    }
  }

  lemma TracksTick(radix: nat, ticks: nat, b0: seq<nat>, l0: seq<Level>, b1: seq<nat>, l1: seq<Level>,
                   out: seq<TimerId>, refs: map<TimerId, nat>, last: map<TimerId, nat>)
    requires |b0| == |l0| && |b1| == |l1| && Tracks(radix, b0, l0, refs, last)
    requires Releases(radix, ticks, b0, l0, b1, l1, out)
    requires forall x | x in last :: last[x] >= ticks
    ensures Tracks(radix, b1, l1, Remaining(refs, out), last - DueOn(last, ticks))
    ensures forall x | x in out :: x in refs && multiset(out)[x] <= refs[x]
    ensures refs.Keys - Remaining(refs, out).Keys == DueOn(last, ticks)
  {
    var refs', last' := Remaining(refs, out), last - DueOn(last, ticks);
    forall x: TimerId
      ensures x in out ==> x in refs && multiset(out)[x] <= refs[x]
      ensures x in refs' <==> x in last'
      ensures x in refs && x !in refs' <==> x in DueOn(last, ticks)
    {
      assert TracksOne(radix, b0, l0, refs, last, x);
      assert ReleasesOne(radix, ticks, b0, l0, b1, l1, out, Any(x));
      TimerTick(radix, ticks, b0, l0, b1, l1, out, refs, last, x);
    }
    assert refs'.Keys == last'.Keys;
    forall x: TimerId
      ensures TracksOne(radix, b1, l1, refs', last', x)
    {
      assert TracksOne(radix, b0, l0, refs, last, x);
      TimerTick(radix, ticks, b0, l0, b1, l1, out, refs, last, x);
      if x in refs' {
        forall u: nat | u > last'[x]
          ensures WheelCount(radix, b1, l1, Due(u, x)) == 0
        {
          assert ReleasesOne(radix, ticks, b0, l0, b1, l1, out, Due(u, x));
        }
        assert ReleasesOne(radix, ticks, b0, l0, b1, l1, out, Due(last[x], x));
      }
      assert ReleasesOne(radix, ticks, b0, l0, b1, l1, out, Any(x));
    }
  }

  lemma TimerTick(radix: nat, ticks: nat, b0: seq<nat>, l0: seq<Level>, b1: seq<nat>, l1: seq<Level>,
                  out: seq<TimerId>, refs: map<TimerId, nat>, last: map<TimerId, nat>, x: TimerId)
    requires |b0| == |l0| && |b1| == |l1| && refs.Keys == last.Keys && TracksOne(radix, b0, l0, refs, last, x)
    requires Releases(radix, ticks, b0, l0, b1, l1, out)
    requires x in last ==> last[x] >= ticks
    ensures multiset(out)[x] <= if x in refs then refs[x] else 0
    ensures WheelCount(radix, b1, l1, Any(x)) == 0 <==> x !in refs || last[x] == ticks
  {
    var low := WheelDue(radix, b0, l0, x, ticks);
    var at := WheelDue(radix, b1, l1, x, 0);
    assert ReleasesOne(radix, ticks, b0, l0, b1, l1, out, Due(ticks, x));
    assert ReleasesOne(radix, ticks, b0, l0, b1, l1, out, Any(x));
    assert ReleasesOne(radix, ticks, b0, l0, b1, l1, out, Due(at, x));
    if x in refs {
      if last[x] == ticks {
        assert at <= ticks ==> WheelCount(radix, b1, l1, Due(at, x)) == 0;
      } else {
        assert ReleasesOne(radix, ticks, b0, l0, b1, l1, out, Due(last[x], x));
        var more := WheelDue(radix, b1, l1, x, last[x]);
      }
    }
  }

  /** Filing a placed route adds one deadline. */
  lemma RouteCounts(radix: nat, levels: seq<Level>, ticks: nat, delay: nat, timer: TimerId,
                    refs: map<TimerId, nat>, last: map<TimerId, nat>)
    requires Shape(radix, |levels|) && WellFiled(radix, levels) && 1 <= delay <= SatPow(radix, |levels|)
    requires radix <= SLOT_LIMIT + 1 || |levels| == 1
    requires Tracks(radix, Bases(radix, |levels|, ticks), levels, refs, last)
    ensures var n := |levels|;
            FindEntry(radix, ticks, n, ticks + delay).Some?
            && var leg := FindEntry(radix, ticks, n, ticks + delay).value;
            leg.level < n && leg.slot < |levels[leg.level]|
            && var levels' := Filed(levels, leg.level, leg.slot, RouteAfter(radix, n, leg.rest, timer));
            WellFiled(radix, levels')
            && Gains(radix, Bases(radix, n, ticks), levels, levels', ticks + delay, timer)
            && Tracks(radix, Bases(radix, n, ticks), levels', OneMore(refs, timer), Extended(last, timer, ticks + delay))
  {
    var n := |levels|;
    RoutePlaced(radix, n, ticks, delay, timer);
    ExactWhenNarrow(radix, n, ticks, delay);
    var leg := FindEntry(radix, ticks, n, ticks + delay).value;
    var route := RouteAfter(radix, n, leg.rest, timer);
    var levels' := Filed(levels, leg.level, leg.slot, route);
    FiledWell(radix, levels, leg.level, leg.slot, route);
    PushGains(radix, Bases(radix, n, ticks), levels, leg.level, leg.slot, route, ticks + delay, timer);
    TracksSchedule(radix, Bases(radix, n, ticks), levels, levels', refs, last, timer, ticks + delay);
  }

  lemma PushGains(radix: nat, bases: seq<nat>, levels: seq<Level>, i: nat, slot: nat, l: Link<TimerId>, due: nat, timer: TimerId)
    requires |bases| == |levels| && i < |levels| && slot < |levels[i]|
    requires bases[i] + (slot + 1) * Pow(radix, i) + Residual(radix, l) == due && TimerOf(l) == timer
    ensures Gains(radix, bases, levels, Filed(levels, i, slot, l), due, timer)
  {
    forall d
      ensures WheelCount(radix, bases, Filed(levels, i, slot, l), d) == WheelCount(radix, bases, levels, d) + One(d.Matches(due, timer))
    {
      WheelPush(radix, bases, levels, i, slot, l, d);
    }
  }

  /** A tick on the queues is a tick on the deadlines. */
  lemma TickTracks(radix: nat, ticks: nat, levels: seq<Level>, refs: map<TimerId, nat>, last: map<TimerId, nat>)
    requires Shape(radix, |levels|) && WellFiled(radix, levels) && ticks > 0
    requires Tracks(radix, Bases(radix, |levels|, ticks - 1), levels, refs, last)
    requires forall x | x in last :: last[x] >= ticks
    ensures var s := Ticked(radix, ticks, Step(levels, []), 0);
            var before, after := Bases(radix, |levels|, ticks - 1), Bases(radix, |levels|, ticks);
            Releases(radix, ticks, before, levels, after, s.levels, s.out)
            && Tracks(radix, after, s.levels, Remaining(refs, s.out), last - DueOn(last, ticks))
            && (forall x | x in s.out :: x in refs && multiset(s.out)[x] <= refs[x])
            && refs.Keys - Remaining(refs, s.out).Keys == DueOn(last, ticks)
  {
    var s := Ticked(radix, ticks, Step(levels, []), 0);
    TickReleases(radix, ticks, levels);
    TracksTick(radix, ticks, Bases(radix, |levels|, ticks - 1), levels, Bases(radix, |levels|, ticks), s.levels, s.out, refs, last);
  }

  lemma EmptyTracks(radix: nat, bases: seq<nat>, levels: seq<Level>)
    requires |bases| == |levels|
    requires forall i, j | 0 <= i < |levels| && 0 <= j < |levels[i]| :: levels[i][j] == []
    ensures Tracks(radix, bases, levels, map[], map[])
  {
    forall x: TimerId
      ensures TracksOne(radix, bases, levels, map[], map[], x)
    {
      EmptyWheel(radix, bases, levels, Any(x));
    }
  }

  /** The route a schedule files is well formed, ends in its timer, and releases on `ReleaseTick`. */
  lemma RoutePlaced(radix: nat, n: nat, ticks: nat, delay: nat, timer: TimerId)
    requires Shape(radix, n) && 1 <= delay <= SatPow(radix, n)
    ensures FindEntry(radix, ticks, n, ticks + delay).Some?
    ensures var leg := FindEntry(radix, ticks, n, ticks + delay).value;
            var route := RouteAfter(radix, n, leg.rest, timer);
            leg.level < n && leg.slot < radix && Pow(radix, leg.level) > 0
            && Descends(radix, route, leg.level) && TimerOf(route) == timer
            && Boundary(ticks, Pow(radix, leg.level)) + (leg.slot + 1) * Pow(radix, leg.level) + Residual(radix, route)
               == ReleaseTick(radix, n, ticks, delay)
  {
    EntryExists(radix, ticks, n, ticks + delay);
    EntryFits(radix, ticks, n, n, ticks + delay);
    var leg := FindEntry(radix, ticks, n, ticks + delay).value;
    ShapeBounds(radix, n, leg.level);
    if leg.rest > 0 {
      RouteAddsUp(radix, n, leg.rest, leg.level, Deliver(timer));
      ResidualIgnoresTimer(radix, n, leg.rest, timer, ());
    }
  }
}
