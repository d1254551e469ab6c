/**
The hierarchical timing wheel: base-`radix` levels of rotating bucket queues.

`Schedule` adds one route with one deadline, and `Tick` releases exactly the routes whose
deadline is the new tick. `refs` and `last` are what that means for a shared timer: how
many routes still hold it, and the last tick one of them drains on.
*/
module TimingWheels {
  import opened Wrappers
  import opened Powers
  import opened Routes
  import opened WheelCounts

  /** `span` is what the fewest levels that can place `maxDelay` together span. */
  ghost predicate SmallestSpan(radix: nat, maxDelay: nat, span: nat) {
    exists n: nat :: n > 0 && span == SatPow(radix, n) && span >= maxDelay && (n == 1 || SatPow(radix, n - 1) < maxDelay)
  }

  /** Well-built queues that hold exactly the routes `refs` and `last` record for `x`. */
  ghost predicate SoundFor(radix: nat, reach: nat, ticks: nat, levels: seq<Level>, refs: map<TimerId, nat>, last: map<TimerId, nat>, x: TimerId)
    requires refs.Keys == last.Keys
  {
    Shape(radix, |levels|) && WellFiled(radix, levels) && reach == SatPow(radix, |levels|)
    && (radix <= SLOT_LIMIT + 1 || |levels| == 1)   // exactly when every delay is placed exactly
    && TracksOne(radix, Bases(radix, |levels|, ticks), levels, refs, last, x)
  }

  ghost predicate Sound(radix: nat, reach: nat, ticks: nat, levels: seq<Level>, refs: map<TimerId, nat>, last: map<TimerId, nat>) {
    radix > 0 && refs.Keys == last.Keys
    && (forall x | x in last :: last[x] > ticks)
    && forall x: TimerId :: SoundFor(radix, reach, ticks, levels, refs, last, x)
  }

  lemma SoundMeans(radix: nat, reach: nat, ticks: nat, levels: seq<Level>, refs: map<TimerId, nat>, last: map<TimerId, nat>)
    requires Sound(radix, reach, ticks, levels, refs, last)
    ensures Shape(radix, |levels|) && WellFiled(radix, levels) && reach == SatPow(radix, |levels|) && (radix <= SLOT_LIMIT + 1 || |levels| == 1)
    ensures Tracks(radix, Bases(radix, |levels|, ticks), levels, refs, last)
  {
    assert SoundFor(radix, reach, ticks, levels, refs, last, 0);
    forall x: TimerId
      ensures TracksOne(radix, Bases(radix, |levels|, ticks), levels, refs, last, x)
    {
      assert SoundFor(radix, reach, ticks, levels, refs, last, x);
    }
  }

  lemma SoundWhen(radix: nat, reach: nat, ticks: nat, levels: seq<Level>, refs: map<TimerId, nat>, last: map<TimerId, nat>)
    requires Shape(radix, |levels|) && WellFiled(radix, levels) && reach == SatPow(radix, |levels|) && (radix <= SLOT_LIMIT + 1 || |levels| == 1)
    requires Tracks(radix, Bases(radix, |levels|, ticks), levels, refs, last)
    requires forall x | x in last :: last[x] > ticks
    ensures Sound(radix, reach, ticks, levels, refs, last)
  {
    forall x: TimerId
      ensures SoundFor(radix, reach, ticks, levels, refs, last, x)
    {
      assert TracksOne(radix, Bases(radix, |levels|, ticks), levels, refs, last, x);
    }
  }

  /** Filing the route `schedule` builds adds exactly one deadline. */
  lemma SoundSchedule(radix: nat, reach: nat, ticks: nat, levels: seq<Level>, refs: map<TimerId, nat>, last: map<TimerId, nat>, delay: nat, timer: TimerId)
    requires Sound(radix, reach, ticks, levels, refs, last) && 1 <= delay <= reach
    ensures var n := |levels|;
            n > 0 && radix > 1 && FindEntry(radix, ticks, n, ticks + delay).Some?
            && var leg := FindEntry(radix, ticks, n, ticks + delay).value;
            leg.level < n && leg.slot < |levels[leg.level]|
            && var levels' := Filed(levels, leg.level, leg.slot, RouteAfter(radix, n, leg.rest, timer));
            Gains(radix, Bases(radix, n, ticks), levels, levels', ticks + delay, timer)
            && Sound(radix, reach, ticks, levels', OneMore(refs, timer), Extended(last, timer, ticks + delay))
  {
    SoundMeans(radix, reach, ticks, levels, refs, last);
    RouteCounts(radix, levels, ticks, delay, timer, refs, last);
    var leg := FindEntry(radix, ticks, |levels|, ticks + delay).value;
    SoundWhen(radix, reach, ticks, Filed(levels, leg.level, leg.slot, RouteAfter(radix, |levels|, leg.rest, timer)),
              OneMore(refs, timer), Extended(last, timer, ticks + delay));
  }

  class TimingWheel {
    var ticks: nat
    const radix: nat
    var levels: seq<Level>

    ghost const reach: nat
    ghost var refs: map<TimerId, nat>
    ghost var last: map<TimerId, nat>

    ghost predicate Valid()
      reads this
    {
      Sound(radix, reach, ticks, levels, refs, last)
    }

    /** The last rotation of every level. */
    ghost function Boundaries(): (b: seq<nat>)
      requires radix > 0
      reads this
      ensures |b| == |levels|
    {
      Bases(radix, |levels|, ticks)
    }

    /** The longest delay this wheel places exactly. */
    function MaxDelay(): (delay: nat)
      requires Valid()
      reads this
      ensures delay == reach
    {
      SoundMeans(radix, reach, ticks, levels, refs, last);
      SatPow(radix, |levels|)
    }

    /** Builds the smallest wheel whose levels together span `maxDelay`. */
    constructor (maxDelay: nat, radix: nat)
      requires 1 < radix <= SLOT_LIMIT + 1 && maxDelay <= U64_MAX
      ensures Valid() && this.radix == radix && ticks == 0
      ensures refs == map[] && last == map[]
      ensures SmallestSpan(radix, maxDelay, reach)
    {
      var count := 1;
      var span := radix;
      PowOne(radix);
      while span < maxDelay
        invariant count > 0 && span == SatPow(radix, count)
        invariant Pow(radix, count - 1) <= U64_MAX
        invariant count == 1 || SatPow(radix, count - 1) < maxDelay
        decreases U64_MAX - span
      {
        SatStep(radix, count);
        PowPositive(radix, count);
        MulMonotone(2, radix, span);
        count := count + 1;
        span := SatMul(span, radix);
      }
      this.radix := radix;
      ticks := 0;
      levels := seq(count, i => seq(radix, j => []));
      reach := span;
      refs, last := map[], map[];
      new;
      EmptyTracks(radix, Boundaries(), levels);
      SoundWhen(radix, reach, ticks, levels, refs, last);
    }

    /** Pushes `link` on the back of a bucket. */
    method File(level: nat, slot: nat, link: Link<TimerId>)
      requires level < |levels| && slot < |levels[level]|
      modifies this`levels
      ensures levels == Filed(old(levels), level, slot, link)
    {
      var queue := levels[level];
      levels := levels[level := queue[slot := queue[slot] + [link]]];
    }

    /** Takes a level's front bucket off and puts an empty one on its back. */
    method Rotate(level: nat) returns (bucket: Bucket)
      requires level < |levels| && |levels[level]| > 0
      modifies this`levels
      ensures bucket == old(levels)[level][0]
      ensures levels == Rotated(old(levels), level)
    {
      bucket := levels[level][0];
      levels := levels[level := levels[level][1..] + [[]]];
    }

    /** Holds `timer` for exactly `delay` ticks; `false` means the reference was dropped at once. */
    method Schedule(delay: nat, timer: TimerId) returns (held: bool)
      requires Valid() && delay <= U64_MAX
      modifies this`levels, this`refs, this`last
      ensures Valid() && |levels| == old(|levels|)
      ensures held == (1 <= delay <= reach)
      ensures !held ==> levels == old(levels) && refs == old(refs) && last == old(last)
      ensures held ==> Gains(radix, Boundaries(), old(levels), levels, ticks + delay, timer)
      ensures held ==> refs == OneMore(old(refs), timer) && last == Extended(old(last), timer, ticks + delay)
    {
      if delay == 0 || delay > MaxDelay() {
        return false;
      }
      SoundSchedule(radix, reach, ticks, levels, refs, last, delay, timer);
      var entry := FindEntry(radix, ticks, |levels|, ticks + delay);
      if entry.None? {
        return false;
      }
      var leg := entry.value;
      var route := RouteAfter(radix, |levels|, leg.rest, timer);
      File(leg.level, leg.slot, route);
      refs, last := OneMore(refs, timer), Extended(last, timer, ticks + delay);
      return true;
    }

    /** Hands every link of a bucket that came off `level` on: to a finer bucket, or out. */
    method Drain(level: nat, bucket: Bucket) returns (released: seq<TimerId>)
      requires WellFiled(radix, levels) && level < |levels|
      requires forall k | 0 <= k < |bucket| :: Descends(radix, bucket[k], level)
      modifies this`levels
      ensures Step(levels, released) == Handed(old(levels), bucket)
    {
      released := [];
      var k := 0;
      assert bucket[..0] == [];
      while k < |bucket|
        invariant k <= |bucket| && WellFiled(radix, levels) && |levels| == |old(levels)|
        invariant Step(levels, released) == Handed(old(levels), bucket[..k])
      {
        assert bucket[..k + 1][..k] == bucket[..k];
        match bucket[k] {
          case Deliver(timer) =>
            released := released + [timer];
          case Relay(next, slot, rest) =>
            FiledWell(radix, levels, next, slot, rest);
            File(next, slot, rest);
        }
        k := k + 1;
      }
      assert bucket[..k] == bucket;
    }

    /** Turns over every level whose period divides the tick just reached, finest first. */
    method TurnLevels() returns (released: seq<TimerId>)
      requires radix > 0 && WellFiled(radix, levels)
      modifies this`levels
      ensures Step(levels, released) == Ticked(radix, ticks, Step(old(levels), []), 0)
    {
      released := [];
      var level := 0;
      while level < |levels|
        invariant level <= |levels| && WellFiled(radix, levels)
        invariant Ticked(radix, ticks, Step(levels, released), level) == Ticked(radix, ticks, Step(old(levels), []), 0)
      {
        if !TurnsOverNow(radix, ticks, level) {
          break;
        }
        TurnedOverWell(radix, levels, level);
        var bucket := Rotate(level);
        var out := Drain(level, bucket);
        released := released + out;
        level := level + 1;
      }
    }

    /** Advances one tick, releasing exactly the routes due on it. */
    method Tick() returns (released: seq<TimerId>)
      requires Valid()
      modifies this
      ensures Valid() && ticks == old(ticks) + 1 && |levels| == old(|levels|)
      ensures Releases(radix, ticks, old(Boundaries()), old(levels), Boundaries(), levels, released)
      ensures refs == Remaining(old(refs), released) && last == old(last) - DueOn(old(last), ticks)
      ensures forall x | x in released :: x in old(refs) && multiset(released)[x] <= old(refs)[x]
      ensures old(refs).Keys - refs.Keys == DueOn(old(last), ticks)
    {
      SoundMeans(radix, reach, ticks, levels, refs, last);
      TickTracks(radix, ticks + 1, levels, refs, last);
      ticks := ticks + 1;
      released := TurnLevels();
      refs, last := Remaining(refs, released), last - DueOn(last, ticks);
      SoundWhen(radix, reach, ticks, levels, refs, last);
    }

    /** What dropping the wheel releases: every reference it holds, once per route. */
    method Contents() returns (released: seq<TimerId>)
      requires Valid()
      ensures forall x: TimerId :: multiset(released)[x] == if x in refs then refs[x] else 0
    {
      SoundMeans(radix, reach, ticks, levels, refs, last);
      released := WheelTimers(levels);
      forall x: TimerId
        ensures multiset(released)[x] == if x in refs then refs[x] else 0
      {
        WheelTimersCount(radix, Boundaries(), levels, x);
        assert TracksOne(radix, Boundaries(), levels, refs, last, x);
      }
    }
  }
}
