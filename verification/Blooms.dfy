/**
A two-generation Bloom filter that never forgets a fingerprint within its window.

`Covers` says until when a fingerprint is certain to be found. Rotation, insertion and
loading keep it, for every fingerprint and every clock reading up to that time.
*/
module Blooms {

  /** A SHA-256 digest as the four 64-bit words the filter hashes with. */
  datatype Fingerprint = Fingerprint(word0: nat, word1: nat, word2: nat, word3: nat) {
    function Words(): (w: seq<nat>)
      ensures |w| == 4
    {
      [word0, word1, word2, word3]
    }
  }

  type Filter = seq<bool>

  function Position(bits: nat, word: nat): (p: nat)
    requires bits > 0
    ensures p < bits
  {
    word % bits
  }

  predicate Contains(filter: Filter, f: Fingerprint)
    requires |filter| > 0
  {
    forall i | 0 <= i < 4 :: filter[Position(|filter|, f.Words()[i])]
  }

  /** Setting the bits of the first `n` words. */
  function Set(filter: Filter, f: Fingerprint, n: nat): (r: Filter)
    requires |filter| > 0 && n <= 4
    ensures |r| == |filter|
  {
    if n == 0 then filter else Set(filter, f, n - 1)[Position(|filter|, f.Words()[n - 1]) := true]
  }

  function Inserted(filter: Filter, f: Fingerprint): (r: Filter)
    requires |filter| > 0
    ensures |r| == |filter|
  {
    Set(filter, f, 4)
  }

  function Zeros(n: nat): (z: Filter)
    ensures |z| == n && forall i | 0 <= i < n :: !z[i]
  {
    seq(n, i => false)
  }

  /** Bits only ever get set, so nothing inserted is lost by inserting more. */
  lemma {:induction false} SetKeeps(filter: Filter, f: Fingerprint, n: nat, p: nat)
    requires |filter| > 0 && n <= 4 && p < |filter|
    ensures filter[p] ==> Set(filter, f, n)[p]
    ensures forall i | 0 <= i < n :: Set(filter, f, n)[Position(|filter|, f.Words()[i])]
  {
    if n > 0 {
      SetKeeps(filter, f, n - 1, p);
    }
  }

  lemma InsertContains(filter: Filter, f: Fingerprint, g: Fingerprint)
    requires |filter| > 0
    ensures Contains(Inserted(filter, f), f)
    ensures Contains(filter, g) ==> Contains(Inserted(filter, f), g)
  {
    SetKeeps(filter, f, 4, 0);
    if Contains(filter, g) {
      forall i | 0 <= i < 4
        ensures Inserted(filter, f)[Position(|filter|, g.Words()[i])]
      {
        SetKeeps(filter, f, 4, Position(|filter|, g.Words()[i]));
      }
    }
  }

  // ---- rotation ----

  datatype Bloom = Bloom(current: Filter, previous: Filter, startedAt: nat) {
    ghost predicate Valid() {
      |current| == |previous| > 0
    }
  }

  function Rotated(b: Bloom, window: nat, now: nat): Bloom {
    var elapsed := if now < b.startedAt then 0 else now - b.startedAt;
    if elapsed < window then b
    else if elapsed >= 2 * window then Bloom(Zeros(|b.current|), Zeros(|b.previous|), now)
    else Bloom(Zeros(|b.previous|), b.current, now)
  }

  predicate Found(b: Bloom, window: nat, f: Fingerprint, now: nat)
    requires b.Valid()
  {
    var r := Rotated(b, window, now);
    Contains(r.current, f) || Contains(r.previous, f)
  }

  function Added(b: Bloom, window: nat, f: Fingerprint, now: nat): Bloom
    requires b.Valid()
  {
    var r := Rotated(b, window, now);
    r.(current := Inserted(r.current, f))
  }

  /** `f` is found by every query up to and including `until`. */
  ghost predicate Covers(b: Bloom, window: nat, f: Fingerprint, until: nat) {
    b.Valid() && window > 0
    && ((Contains(b.current, f) && until < b.startedAt + 2 * window)
        || (Contains(b.previous, f) && until < b.startedAt + window))
  }

  lemma RotateCovers(b: Bloom, window: nat, f: Fingerprint, until: nat, now: nat)
    requires Covers(b, window, f, until) && now <= until
    ensures Covers(Rotated(b, window, now), window, f, until)
  {
  }

  /** No false negative, through any rotation. */
  lemma CoveredFound(b: Bloom, window: nat, f: Fingerprint, until: nat, now: nat)
    requires Covers(b, window, f, until) && now <= until
    ensures Found(b, window, f, now)
  {
  }

  /** Admitting a fingerprint covers it for a whole window, to the second. */
  lemma AddCovers(b: Bloom, window: nat, f: Fingerprint, now: nat)
    requires b.Valid() && window > 0
    ensures Covers(Added(b, window, f, now), window, f, if now < b.startedAt then b.startedAt + window else now + window)
  {
    InsertContains(Rotated(b, window, now).current, f, f);
  }

  lemma AddKeeps(b: Bloom, window: nat, f: Fingerprint, now: nat, g: Fingerprint, until: nat)
    requires Covers(b, window, g, until) && now <= until
    ensures Covers(Added(b, window, f, now), window, g, until)
  {
    RotateCovers(b, window, g, until, now);
    InsertContains(Rotated(b, window, now).current, f, g);
  }

  // ---- the filter, in place ----

  class RotatingBloom {
    var current: array<bool>
    var previous: array<bool>
    var startedAt: nat
    const window: nat

    ghost predicate Valid()
      reads this
    {
      current.Length == previous.Length > 0 && current != previous
    }

    ghost function Value(): (b: Bloom)
      requires Valid()
      reads this, current, previous
      ensures b.Valid()
    {
      Bloom(current[..], previous[..], startedAt)
    }

    constructor (bits: nat, window: nat, now: nat)
      requires bits > 0
      ensures Valid() && fresh(current) && fresh(previous) && this.window == window
      ensures Value() == Bloom(Zeros(bits), Zeros(bits), now)
    {
      current := new bool[bits](i => false);
      previous := new bool[bits](i => false);
      startedAt := now;
      this.window := window;
      new;
      assert current[..] == Zeros(bits) && previous[..] == Zeros(bits);
    }

    static method Clear(a: array<bool>)
      modifies a
      ensures a[..] == Zeros(a.Length)
    {
      var i := 0;
      while i < a.Length
        invariant i <= a.Length
        invariant forall j | 0 <= j < i :: !a[j]
      {
        a[i] := false;
        i := i + 1;
      }
    }

    method Rotate(now: nat)
      requires Valid()
      modifies this`current, this`previous, this`startedAt, current, previous
      ensures Valid() && {current, previous} == {old(current), old(previous)}
      ensures Value() == Rotated(old(Value()), window, now)
    {
      var elapsed := if now < startedAt then 0 else now - startedAt;
      if elapsed < window {
        return;
      }
      if elapsed >= 2 * window {
        Clear(current);
        Clear(previous);
      } else {
        current, previous := previous, current;
        Clear(current);
      }
      startedAt := now;
    }

    method Has(f: Fingerprint, now: nat) returns (found: bool)
      requires Valid()
      modifies this`current, this`previous, this`startedAt, current, previous
      ensures Valid() && {current, previous} == {old(current), old(previous)}
      ensures Value() == Rotated(old(Value()), window, now)
      ensures found == Found(old(Value()), window, f, now)
    {
      Rotate(now);
      found := Contains(current[..], f) || Contains(previous[..], f);
    }

    method Insert(f: Fingerprint, now: nat)
      requires Valid()
      modifies this`current, this`previous, this`startedAt, current, previous
      ensures Valid() && {current, previous} == {old(current), old(previous)}
      ensures Value() == Added(old(Value()), window, f, now)
    {
      Rotate(now);
      var bits := current;
      ghost var rotated := Value();
      var i := 0;
      while i < 4
        invariant i <= 4 && current == bits && bits != previous && bits.Length == |rotated.current|
        invariant bits[..] == Set(rotated.current, f, i) && Value().(current := rotated.current) == rotated
        modifies bits
      {
        bits[Position(bits.Length, f.Words()[i])] := true;
        i := i + 1;
      }
    }
  }
}
