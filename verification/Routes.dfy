/**
Routes through the wheel's levels: how a delay is cut into legs, and the tick those legs
add up to.
*/
module Routes {
  import opened Wrappers
  import opened Powers

  /** One leg of a route. `Relay` files `next` into `level`'s `slot` when it comes off. */
  datatype Link<T> =
    | Deliver(timer: T)
    | Relay(level: nat, slot: nat, next: Link<T>)

  datatype Leg = Leg(level: nat, slot: nat, rest: nat)

  const SLOT_LIMIT: nat := 0x1_0000   // `slot as u16`
  const LEVEL_LIMIT: nat := 0x100     // `level as u8`

  function TimerOf<T>(l: Link<T>): T {
    match l
    case Deliver(t) => t
    case Relay(_, _, next) => TimerOf(next)
  }

  /** Ticks between a link coming off a bucket and its timer being released. */
  function Residual<T>(radix: nat, l: Link<T>): nat {
    match l
    case Deliver(_) => 0
    case Relay(level, slot, next) => (slot + 1) * Pow(radix, level) + Residual(radix, next)
  }

  /** Every leg goes to a bucket that exists, on a level strictly below the one before it. */
  ghost predicate Descends<T>(radix: nat, l: Link<T>, below: nat) {
    match l
    case Deliver(_) => true
    case Relay(level, slot, next) => level < below && slot < radix && Descends(radix, next, level)
  }

  // ---- choosing legs (timing_wheel.rs:233-274) ----

  /** `next_leg` scanning levels `n-1, .., 0`: the coarsest level whose period fits. */
  function NextLeg(radix: nat, n: nat, remaining: nat): (leg: Leg)
    requires radix > 1 && n > 0 && 0 < remaining
    ensures leg.level < n
    decreases n
  {
    PowPositive(radix, n - 1);
    if SatPow(radix, n - 1) <= remaining || n == 1 then
      Leg(n - 1, remaining / SatPow(radix, n - 1) - 1, remaining % SatPow(radix, n - 1))
    else
      NextLeg(radix, n - 1, remaining)
  }

  function Route<T>(radix: nat, n: nat, remaining: nat, inner: Link<T>): Link<T>
    requires radix > 1 && n > 0 && 0 < remaining
    decreases remaining
  {
    var leg := NextLeg(radix, n, remaining);
    NextLegFits(radix, n, remaining);
    Relay(leg.level % LEVEL_LIMIT, leg.slot % SLOT_LIMIT,
          if leg.rest == 0 then inner else Route(radix, n, leg.rest, inner))
  }

  function EntryLeg(radix: nat, ticks: nat, level: nat, target: nat): Option<Leg>
    requires radix > 1
  {
    PowPositive(radix, level);
    var period := SatPow(radix, level);
    var nextRotation := Boundary(ticks, period) + period;
    if target < nextRotation then None
    else
      var ahead := target - nextRotation;
      if ahead / period < radix then Some(Leg(level, ahead / period, ahead % period)) else None
  }

  /** The coarsest of levels `n-1, .., 0` that takes `target`. */
  function FindEntry(radix: nat, ticks: nat, n: nat, target: nat): Option<Leg>
    requires radix > 1
  {
    if n == 0 then None
    else
      var leg := EntryLeg(radix, ticks, n - 1, target);
      if leg.Some? then leg else FindEntry(radix, ticks, n - 1, target)
  }

  /** The link a schedule files for the delay its entry leg leaves over. */
  function RouteAfter<T>(radix: nat, n: nat, rest: nat, timer: T): Link<T>
    requires radix > 1 && n > 0
  {
    if rest == 0 then Deliver(timer) else Route(radix, n, rest, Deliver(timer))
  }

  /** Levels that exist never saturate: the constructor stops before they could. */
  ghost predicate Shape(radix: nat, n: nat) {
    radix > 1 && n > 0 && Pow(radix, n - 1) <= U64_MAX
  }

  lemma ShapeBounds(radix: nat, n: nat, level: nat)
    requires Shape(radix, n) && level < n
    ensures 0 < Pow(radix, level) == SatPow(radix, level)
    ensures n <= 64
  {
    PowMonotone(radix, level, n - 1);
    if n > 64 {
      PowMonotone(radix, 64, n - 1);
      PowBaseMonotone(2, radix, 64);
      TwoToSixtyFour();
    }
  }

  lemma {:induction false} NextLegFits(radix: nat, n: nat, remaining: nat)
    requires radix > 1 && n > 0 && 0 < remaining
    ensures var leg := NextLeg(radix, n, remaining);
            0 < SatPow(radix, leg.level) <= remaining
            && leg.rest == remaining % SatPow(radix, leg.level) < remaining
            && leg.slot == remaining / SatPow(radix, leg.level) - 1
    ensures remaining < SatPow(radix, n) ==> remaining < SatPow(radix, NextLeg(radix, n, remaining).level + 1)
    decreases n
  {
    PowPositive(radix, n - 1);
    if SatPow(radix, n - 1) > remaining && n > 1 {
      NextLegFits(radix, n - 1, remaining);
    }
  }

  /** No coarser level fits. */
  lemma {:induction false} NextLegCoarsest(radix: nat, n: nat, remaining: nat, level: nat)
    requires radix > 1 && n > 0 && 0 < remaining && NextLeg(radix, n, remaining).level < level < n
    ensures SatPow(radix, level) > remaining
    decreases n
  {
    if level < n - 1 {
      NextLegCoarsest(radix, n - 1, remaining, level);
    }
  }

  /** The chosen leg is the leading base-`radix` digit of what remains. */
  lemma LeadingDigit(radix: nat, n: nat, remaining: nat, below: nat)
    requires Shape(radix, n) && 0 < remaining && below <= n - 1 && remaining < Pow(radix, below)
    ensures var leg := NextLeg(radix, n, remaining);
            leg.level < below && leg.slot + 1 < radix
            && remaining == (leg.slot + 1) * Pow(radix, leg.level) + leg.rest
            && leg.rest < Pow(radix, leg.level)
            && leg.rest < remaining
  {
    var leg := NextLeg(radix, n, remaining);
    NextLegFits(radix, n, remaining);
    ShapeBounds(radix, n, leg.level);
    ShapeBounds(radix, n, below);
    var p := Pow(radix, leg.level);
    if leg.level >= below {
      PowMonotone(radix, below, leg.level);
      assert false;
    }
    PowMonotone(radix, below, n - 1);
    PowMonotone(radix, n - 1, n);
    ShapeBounds(radix, n, leg.level + 1);
    DivBelow(remaining, p, radix);
    DivIdentity(remaining, p);
  }

  /** A route's legs are base-`radix` digits: they descend, and add up when no slot is cut. */
  lemma {:induction false} RouteAddsUp<T>(radix: nat, n: nat, remaining: nat, below: nat, inner: Link<T>)
    requires Shape(radix, n) && 0 < remaining && below <= n - 1 && remaining < Pow(radix, below)
    requires inner.Deliver?
    ensures Descends(radix, Route(radix, n, remaining, inner), below)
    ensures TimerOf(Route(radix, n, remaining, inner)) == inner.timer
    ensures radix <= SLOT_LIMIT + 1 ==> Residual(radix, Route(radix, n, remaining, inner)) == remaining
    decreases remaining
  {
    var leg := NextLeg(radix, n, remaining);
    LeadingDigit(radix, n, remaining, below);
    ShapeBounds(radix, n, leg.level);
    var next := if leg.rest == 0 then inner else Route(radix, n, leg.rest, inner);
    if leg.rest > 0 {
      RouteAddsUp(radix, n, leg.rest, leg.level, inner);
    }
    UnfoldRoute(radix, n, remaining, inner);
    LegAddsUp(radix, leg, next, remaining);
  }

  lemma UnfoldRoute<T>(radix: nat, n: nat, remaining: nat, inner: Link<T>)
    requires radix > 1 && n > 0 && 0 < remaining
    requires NextLeg(radix, n, remaining).rest < remaining
    ensures var leg := NextLeg(radix, n, remaining);
            Route(radix, n, remaining, inner)
            == Relay(leg.level % LEVEL_LIMIT, leg.slot % SLOT_LIMIT,
                     if leg.rest == 0 then inner else Route(radix, n, leg.rest, inner))
  {
    NextLegFits(radix, n, remaining);
  }

  lemma LegAddsUp<T>(radix: nat, leg: Leg, next: Link<T>, remaining: nat)
    requires leg.level < 64 && leg.slot + 1 < radix
    requires remaining == (leg.slot + 1) * Pow(radix, leg.level) + leg.rest
    requires Descends(radix, next, leg.level)
    ensures Descends(radix, Relay(leg.level % LEVEL_LIMIT, leg.slot % SLOT_LIMIT, next), leg.level + 1)
    ensures radix <= SLOT_LIMIT + 1 && Residual(radix, next) == leg.rest
            ==> Residual(radix, Relay(leg.level % LEVEL_LIMIT, leg.slot % SLOT_LIMIT, next)) == remaining
  {
    ModUnique(leg.level, LEVEL_LIMIT, 0, leg.level);
    if leg.slot < SLOT_LIMIT {
      ModUnique(leg.slot, SLOT_LIMIT, 0, leg.slot);
    }
  }

  /** Some level always takes a delay within reach, and it takes it exactly. */
  lemma {:induction false} EntryExists(radix: nat, ticks: nat, n: nat, target: nat)
    requires Shape(radix, n) && ticks < target <= ticks + Pow(radix, n)
    ensures FindEntry(radix, ticks, n, target).Some?
  {
    EntryBelow(radix, ticks, n, n, target);
  }

  lemma {:induction false} EntryBelow(radix: nat, ticks: nat, n: nat, m: nat, target: nat)
    requires Shape(radix, n) && 0 < m <= n && ticks < target
    requires m == n ==> target <= ticks + Pow(radix, n)
    requires m < n ==> SatPow(radix, m) > 0 && target < Boundary(ticks, SatPow(radix, m)) + SatPow(radix, m)
    ensures FindEntry(radix, ticks, m, target).Some?
    decreases m
  {
    ShapeBounds(radix, n, m - 1);
    var p := Pow(radix, m - 1);
    BoundaryStep(ticks, p);
    var next := Boundary(ticks, p) + p;
    if target >= next {
      if m < n {
        ShapeBounds(radix, n, m);
        CoarserBoundary(radix, ticks, m - 1);
      }
      assert target - next < radix * p;
      DivBelow(target - next, p, radix);
    } else if m > 1 {
      EntryBelow(radix, ticks, n, m - 1, target);
    }
  }

  lemma CoarserBoundary(radix: nat, ticks: nat, m: nat)
    requires radix > 1 && Pow(radix, m) > 0 && Pow(radix, m + 1) > 0
    ensures Boundary(ticks, Pow(radix, m + 1)) <= Boundary(ticks, Pow(radix, m))
  {
    var q := Pow(radix, m + 1);
    var b := Boundary(ticks, q);
    DivIdentity(ticks, q);
    ModUnique(b, q, ticks / q, 0);
    FinerDivides(radix, b, m, m + 1);
    MultipleBelowBoundary(b, ticks, Pow(radix, m));
  }

  lemma {:induction false} EntryFits(radix: nat, ticks: nat, n: nat, m: nat, target: nat)
    requires Shape(radix, n) && m <= n && FindEntry(radix, ticks, m, target).Some?
    ensures var leg := FindEntry(radix, ticks, m, target).value;
            leg.level < m && leg.slot < radix
            && leg.rest < Pow(radix, leg.level)
            && Boundary(ticks, Pow(radix, leg.level)) + (leg.slot + 1) * Pow(radix, leg.level) + leg.rest == target
  {
    ShapeBounds(radix, n, m - 1);
    if EntryLeg(radix, ticks, m - 1, target).None? {
      EntryFits(radix, ticks, n, m - 1, target);
    } else {
      EntryLegExact(radix, ticks, m - 1, target);
    }
  }

  lemma EntryLegExact(radix: nat, ticks: nat, level: nat, target: nat)
    requires radix > 1 && 0 < Pow(radix, level) == SatPow(radix, level)
    requires EntryLeg(radix, ticks, level, target).Some?
    ensures var leg := EntryLeg(radix, ticks, level, target).value;
            leg.level == level && leg.slot < radix && leg.rest < Pow(radix, level)
            && Boundary(ticks, Pow(radix, level)) + (leg.slot + 1) * Pow(radix, level) + leg.rest == target
  {
    var p := Pow(radix, level);
    var ahead := target - Boundary(ticks, p) - p;
    DivIdentity(ahead, p);
    assert (ahead / p + 1) * p == (ahead / p) * p + p;
  }

  // ---- where a delay ends up ----

  /** The tick a delay is really released on: the entry bucket's pop plus the route's residual. */
  function ReleaseTick(radix: nat, n: nat, ticks: nat, delay: nat): nat
    requires radix > 1 && n > 0
  {
    match FindEntry(radix, ticks, n, ticks + delay)
    case None => ticks
    case Some(leg) =>
      PowPositive(radix, leg.level);
      Boundary(ticks, SatPow(radix, leg.level)) + (leg.slot + 1) * SatPow(radix, leg.level)
      + Residual(radix, RouteAfter(radix, n, leg.rest, ()))
  }

  lemma {:induction false} ResidualIgnoresTimer<A, B>(radix: nat, n: nat, remaining: nat, a: A, b: B)
    requires radix > 1 && n > 0 && remaining > 0
    ensures Residual(radix, Route(radix, n, remaining, Deliver(a))) == Residual(radix, Route(radix, n, remaining, Deliver(b)))
    decreases remaining
  {
    var leg := NextLeg(radix, n, remaining);
    NextLegFits(radix, n, remaining);
    if leg.rest > 0 {
      ResidualIgnoresTimer(radix, n, leg.rest, a, b);
    }
  }

  lemma ExactWhenNarrow(radix: nat, n: nat, ticks: nat, delay: nat)
    requires Shape(radix, n) && 1 <= delay <= SatPow(radix, n)
    requires radix <= SLOT_LIMIT + 1 || n == 1
    ensures ReleaseTick(radix, n, ticks, delay) == ticks + delay
  {
    EntryExists(radix, ticks, n, ticks + delay);
    EntryFits(radix, ticks, n, n, ticks + delay);
    var leg := FindEntry(radix, ticks, n, ticks + delay).value;
    ShapeBounds(radix, n, leg.level);
    if leg.rest > 0 {
      RouteAddsUp(radix, n, leg.rest, leg.level, Deliver(()));
    }
  }

  /**
  One tick before level 0 completes a turn, a delay reaching 65537 past that turn is
  relayed to slot 65536 of level 0. Cut to `u16`, that is slot 0: it is released 65536 early.
  */
  lemma WideRadixMisses(radix: nat, n: nat)
    requires Shape(radix, n) && radix > SLOT_LIMIT + 1 && n > 1
    ensures SLOT_LIMIT + 2 <= SatPow(radix, n)
    ensures ReleaseTick(radix, n, radix - 1, SLOT_LIMIT + 2) == radix + 1
  {
    PowOne(radix);
    PowMonotone(radix, 1, n);
    WideEntry(radix, n);
    WideRoute(radix, n);
    ModUnique(radix - 1, radix, 0, radix - 1);
    assert RouteAfter(radix, n, SLOT_LIMIT + 1, ()) == Relay(0, 0, Deliver(()));
    assert (0 + 1) * radix == radix;
  }

  lemma WideEntry(radix: nat, n: nat)
    requires Shape(radix, n) && radix > SLOT_LIMIT + 1 && n > 1
    ensures FindEntry(radix, radix - 1, n, radix + SLOT_LIMIT + 1) == Some(Leg(1, 0, SLOT_LIMIT + 1))
    ensures SatPow(radix, 1) == radix
  {
    PowOne(radix);
    ShapeBounds(radix, n, 1);
    MulMonotone(3, radix, radix);
    ModUnique(radix - 1, radix, 0, radix - 1);
    ModUnique(SLOT_LIMIT + 1, radix, 0, SLOT_LIMIT + 1);
    CoarseEntriesMiss(radix, n, n, radix + SLOT_LIMIT + 1);
  }

  lemma WideRoute(radix: nat, n: nat)
    requires Shape(radix, n) && radix > SLOT_LIMIT + 1 && n > 1
    ensures Route(radix, n, SLOT_LIMIT + 1, Deliver(())) == Relay(0, 0, Deliver(()))
    ensures Residual(radix, Relay(0, 0, Deliver(()))) == 1
  {
    RestStaysOnLevelZero(radix, n, n, SLOT_LIMIT + 1);
    UnfoldRoute(radix, n, SLOT_LIMIT + 1, Deliver(()));
  }

  lemma PowOne(b: nat)
    ensures Pow(b, 1) == b && Pow(b, 2) == b * b
  {
    assert Pow(b, 2) == b * Pow(b, 1);
  }

  lemma {:induction false} CoarseEntriesMiss(radix: nat, n: nat, m: nat, target: nat)
    requires Shape(radix, n) && 1 < m <= n && target < Pow(radix, 2)
    requires EntryLeg(radix, radix - 1, 1, target).Some?
    ensures FindEntry(radix, radix - 1, m, target) == EntryLeg(radix, radix - 1, 1, target)
  {
    if m > 2 {
      ShapeBounds(radix, n, m - 1);
      PowMonotone(radix, 2, m - 1);
      CoarseEntriesMiss(radix, n, m - 1, target);
    }
  }

  lemma {:induction false} RestStaysOnLevelZero(radix: nat, n: nat, m: nat, remaining: nat)
    requires Shape(radix, n) && 0 < m <= n && 0 < remaining < radix
    ensures NextLeg(radix, m, remaining) == Leg(0, remaining - 1, 0)
  {
    if m > 1 {
      ShapeBounds(radix, n, m - 1);
      PowMonotone(radix, 1, m - 1);
      RestStaysOnLevelZero(radix, n, m - 1, remaining);
    }
  }

  /**
  Exact firing, with its exact condition. `slot as u16` cuts a relay's bucket index, so a
  wheel of two or more levels places every delay exactly only if no index reaches 65536.
  */
  lemma ExactFiringIff(radix: nat, n: nat)
    requires Shape(radix, n)
    ensures (forall ticks: nat, delay: nat | 1 <= delay <= SatPow(radix, n) ::
               ReleaseTick(radix, n, ticks, delay) == ticks + delay)
            <==> (radix <= SLOT_LIMIT + 1 || n == 1)
  {
    if radix <= SLOT_LIMIT + 1 || n == 1 {
      forall ticks: nat, delay: nat | 1 <= delay <= SatPow(radix, n)
        ensures ReleaseTick(radix, n, ticks, delay) == ticks + delay
      {
        ExactWhenNarrow(radix, n, ticks, delay);
      }
    } else {
      WideRadixMisses(radix, n);
    }
  }
}
