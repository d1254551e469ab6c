/** Powers of a wheel's radix, u64 saturation, and the division facts the wheel rests on. */
module Powers {
  const U64_MAX: nat := 0xFFFF_FFFF_FFFF_FFFF

  function Pow(b: nat, e: nat): nat {
    if e == 0 then 1 else b * Pow(b, e - 1)
  }

  /** `u64::saturating_mul`. */
  function SatMul(a: nat, b: nat): nat {
    if a * b > U64_MAX then U64_MAX else a * b
  }

  /** `u64::saturating_pow`. */
  function SatPow(b: nat, e: nat): nat {
    if Pow(b, e) > U64_MAX then U64_MAX else Pow(b, e)
  }

  lemma {:induction false} PowPositive(b: nat, e: nat)
    requires b > 0
    ensures Pow(b, e) > 0
  {
    if e > 0 {
      PowPositive(b, e - 1);
      MulMonotone(1, b, Pow(b, e - 1));
    }
  }

  lemma MulMonotone(a: nat, b: nat, c: nat)
    requires a <= b
    ensures a * c <= b * c
  {
    assert b * c - a * c == (b - a) * c;
  }

  lemma {:induction false} PowMonotone(b: nat, m: nat, n: nat)
    requires b > 0 && m <= n
    ensures 0 < Pow(b, m) <= Pow(b, n)
    decreases n - m
  {
    PowPositive(b, m);
    if m < n {
      PowMonotone(b, m, n - 1);
      MulMonotone(1, b, Pow(b, n - 1));
    }
  }

  lemma {:induction false} PowBaseMonotone(a: nat, b: nat, e: nat)
    requires a <= b
    ensures Pow(a, e) <= Pow(b, e)
  {
    if e > 0 {
      PowBaseMonotone(a, b, e - 1);
      MulMonotone(a, b, Pow(a, e - 1));
      MulMonotone(Pow(a, e - 1), Pow(b, e - 1), b);
    }
  }

  /** Saturating one factor at a time is the same as saturating the power. */
  lemma SatStep(b: nat, e: nat)
    requires b > 0
    ensures SatMul(SatPow(b, e), b) == SatPow(b, e + 1)
  {
    if Pow(b, e) > U64_MAX {
      MulMonotone(1, b, Pow(b, e));
      MulMonotone(1, b, U64_MAX);
    }
  }

  lemma TwoToSixtyFour()
    ensures Pow(2, 64) == U64_MAX + 1
  {
    assert Pow(2, 16) == 0x1_0000 by {
      assert Pow(2, 8) == 0x100;
    }
    assert Pow(2, 32) == 0x1_0000_0000 by {
      assert Pow(2, 24) == 0x100_0000;
    }
    assert Pow(2, 48) == 0x1_0000_0000_0000 by {
      assert Pow(2, 40) == 0x100_0000_0000;
    }
    assert Pow(2, 56) == 0x100_0000_0000_0000;
  }

  /** The last multiple of `p` at or before `t`. */
  function Boundary(t: nat, p: nat): nat
    requires p > 0
  {
    t - t % p
  }

  lemma BoundaryStep(t: nat, p: nat)
    requires p > 0
    ensures Boundary(t, p) <= t < Boundary(t, p) + p
    ensures (t + 1) % p == 0 ==> Boundary(t, p) + p == t + 1 == Boundary(t + 1, p)
    ensures (t + 1) % p != 0 ==> Boundary(t + 1, p) == Boundary(t, p)
  {
    var q, r := t / p, t % p;
    assert t == q * p + r;
    if r + 1 == p {
      assert t + 1 == (q + 1) * p;
      ModUnique(t + 1, p, q + 1, 0);
    } else {
      ModUnique(t + 1, p, q, r + 1);
    }
  }

  lemma ModUnique(t: nat, p: nat, q: nat, r: nat)
    requires p > 0 && r < p && t == q * p + r
    ensures t % p == r && t / p == q
  {
    var q', r' := t / p, t % p;
    assert t == q' * p + r';
    if q < q' {
      MulMonotone(q + 1, q', p);
    } else if q' < q {
      MulMonotone(q' + 1, q, p);
    }
  }

  /** A multiple of a coarser period is a multiple of every finer one. */
  lemma {:induction false} FinerDivides(b: nat, t: nat, m: nat, n: nat)
    requires b > 0 && m <= n
    requires Pow(b, m) > 0 && Pow(b, n) > 0
    requires t % Pow(b, n) == 0
    ensures t % Pow(b, m) == 0
    decreases n - m
  {
    if m < n {
      PowPositive(b, n - 1);
      var p, q := Pow(b, n - 1), t / Pow(b, n);
      assert t == q * (b * p);
      assert q * (b * p) == (q * b) * p;
      ModUnique(t, p, q * b, 0);
      FinerDivides(b, t, m, n - 1);
    }
  }

  lemma DivBelow(a: nat, p: nat, r: nat)
    requires p > 0 && a < r * p
    ensures a / p < r
  {
    if a / p >= r {
      MulMonotone(r, a / p, p);
    }
  }

  lemma DivIdentity(a: nat, p: nat)
    requires p > 0
    ensures a == (a / p) * p + a % p && a % p < p
  {
  }

  lemma MultipleBelowBoundary(b: nat, t: nat, p: nat)
    requires p > 0 && b <= t && b % p == 0
    ensures b <= Boundary(t, p)
  {
    DivIdentity(b, p);
    DivIdentity(t, p);
    if b / p > t / p {
      MulMonotone(t / p + 1, b / p, p);
    }
    MulMonotone(b / p, t / p, p);
  }
}
