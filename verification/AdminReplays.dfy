/**
Administrator mutations are admitted once.

The actor keeps an exact set of claimed fingerprints with their order of arrival, prunes it
by a retention twice the accepted clock skew, and carries it through the log, compaction,
reset and restart. `Consistent` ties the set, the order and what is on disk.
*/
module AdminReplays {

  const RETENTION: nat := 600
  const SKEW: nat := 300          // half the retention
  const CAPACITY: nat := 65_536

  type Fingerprint = nat

  datatype Claim = Claim(f: Fingerprint, clientTimestamp: nat, acceptedAt: nat)

  predicate WithinRetention(c: Claim, now: nat) {
    var anchor := if c.acceptedAt == 0 then c.clientTimestamp else c.acceptedAt;
    (if now < anchor then 0 else now - anchor) <= RETENTION
  }

  function Distance(a: nat, b: nat): nat {
    if a < b then b - a else a - b
  }

  /** The claims still within retention, in order (`retain`). */
  function Kept(claims: seq<Claim>, now: nat): (kept: seq<Claim>)
    ensures |kept| <= |claims|
  {
    if claims == [] then []
    else
      var n := |claims| - 1;
      Kept(claims[..n], now) + if WithinRetention(claims[n], now) then [claims[n]] else []
  }

  ghost function Fingerprints(claims: seq<Claim>): set<Fingerprint> {
    if claims == [] then {} else Fingerprints(claims[..|claims| - 1]) + {claims[|claims| - 1].f}
  }

  /** The set and order in memory, and the claims on disk (snapshot, then log). */
  datatype Replays = Replays(claimed: set<Fingerprint>, order: seq<Claim>, stored: seq<Claim>)

  datatype Verdict = Admitted | Replayed | Exhausted | TimestampInvalid | AppendFailed

  ghost function Pruned(r: Replays, now: nat): Replays {
    var kept := Kept(r.order, now);
    r.(order := kept, claimed := r.claimed - Fingerprints(Dropped(r.order, now)))
  }

  function Dropped(claims: seq<Claim>, now: nat): seq<Claim> {
    if claims == [] then []
    else
      var n := |claims| - 1;
      Dropped(claims[..n], now) + if WithinRetention(claims[n], now) then [] else [claims[n]]
  }

  /** How the claim's append ends: an uncertain one is reported failed and may be on disk all the same. */
  datatype Append = Acknowledged | Refused | Uncertain

  /** `actor_claim_admin_mutation`, when a failed append left the log unchanged. */
  ghost function Claimed(r: Replays, f: Fingerprint, clientTimestamp: nat, now: nat, appends: bool): (Replays, Verdict) {
    var p := Pruned(r, now);
    if f in p.claimed then (p, Replayed)
    else if |p.claimed| >= CAPACITY then (p, Exhausted)
    else if Distance(now, clientTimestamp) > SKEW then (p, TimestampInvalid)
    else if !appends then (p, AppendFailed)
    else
      var c := Claim(f, clientTimestamp, now);
      (Replays(p.claimed + {f}, p.order + [c], p.stored + [c]), Admitted)
  }

  /** The same when the record did reach the disk: nothing is admitted, and memory does not know the claim. */
  ghost function Unsure(r: Replays, f: Fingerprint, clientTimestamp: nat, now: nat): (Replays, Verdict) {
    var (p, verdict) := Claimed(r, f, clientTimestamp, now, false);
    (if verdict == AppendFailed then p.(stored := p.stored + [Claim(f, clientTimestamp, now)]) else p, verdict)
  }

  /** A start: the stored claims within retention, the oldest dropped beyond the capacity. */
  ghost function Loaded(r: Replays, now: nat): Replays {
    var kept := Kept(r.stored, now);
    var order := if |kept| > CAPACITY then kept[|kept| - CAPACITY..] else kept;
    Replays(Fingerprints(order), order, r.stored)
  }

  datatype Call =
    | Mutate(f: Fingerprint, clientTimestamp: nat, now: nat, append: Append)
    | Tick(now: nat)
    | Compact(now: nat)
    | Reset(now: nat)
    | Restart(now: nat)

  ghost function Step(r: Replays, call: Call): (Replays, Verdict) {
    match call
    case Mutate(f, ts, now, append) => if append.Uncertain? then Unsure(r, f, ts, now) else Claimed(r, f, ts, now, append.Acknowledged?)
    case Tick(now) => (Pruned(r, now), Replayed)
    case Compact(_) | Reset(_) => (r.(stored := r.order), Replayed)
    case Restart(now) => (Loaded(r, now), Replayed)
  }

  // ---- what every call keeps ----

  ghost predicate Distinct(claims: seq<Claim>) {
    claims == []
    || (Distinct(claims[..|claims| - 1]) && claims[|claims| - 1].f !in Fingerprints(claims[..|claims| - 1]))
  }

  ghost predicate Behind(claims: seq<Claim>, clock: nat) {
    forall c | c in claims :: 0 < c.acceptedAt <= clock
  }

  /**
  The set is exactly the fingerprints in the order, within the capacity, and disk and
  memory hold the same claims among those still within retention.
  */
  ghost predicate Consistent(r: Replays, clock: nat) {
    Distinct(r.order) && r.claimed == Fingerprints(r.order) && |r.order| <= CAPACITY
    && Behind(r.order, clock) && Behind(r.stored, clock)
    && Kept(r.stored, clock) == Kept(r.order, clock)
  }

  lemma {:induction false} KeptMembers(claims: seq<Claim>, now: nat)
    ensures forall c :: c in Kept(claims, now) <==> c in claims && WithinRetention(c, now)
  {
    if claims != [] {
      KeptMembers(claims[..|claims| - 1], now);
      assert claims == claims[..|claims| - 1] + [claims[|claims| - 1]];
    }
  }

  /** Pruning splits the fingerprints in two: those kept and those forgotten. */
  lemma {:induction false} KeptFingerprints(claims: seq<Claim>, now: nat)
    requires Distinct(claims)
    ensures Split(claims, Kept(claims, now), Dropped(claims, now))
  {
    if claims != [] {
      var n := |claims| - 1;
      var kept, dropped, c := Kept(claims[..n], now), Dropped(claims[..n], now), claims[n];
      KeptFingerprints(claims[..n], now);
      Snoc(kept, c);
      Snoc(dropped, c);
      assert Split(claims, kept + [c], dropped) && Split(claims, kept, dropped + [c]);
      assert kept + [] == kept && dropped + [] == dropped;
    }
  }

  ghost predicate Split(claims: seq<Claim>, kept: seq<Claim>, dropped: seq<Claim>) {
    Distinct(kept) && Fingerprints(kept) !! Fingerprints(dropped)
    && Fingerprints(claims) == Fingerprints(kept) + Fingerprints(dropped)
  }

  lemma Snoc(claims: seq<Claim>, c: Claim)
    ensures Fingerprints(claims + [c]) == Fingerprints(claims) + {c.f}
    ensures Distinct(claims + [c]) <==> Distinct(claims) && c.f !in Fingerprints(claims)
  {
    assert (claims + [c])[..|claims|] == claims;
  }

  lemma {:induction false} FingerprintOf(claims: seq<Claim>, c: Claim)
    requires c in claims
    ensures c.f in Fingerprints(claims)
  {
    var n := |claims| - 1;
    assert claims == claims[..n] + [claims[n]];
    if c != claims[n] {
      FingerprintOf(claims[..n], c);
    }
  }

  /** Claims that are gone stay gone as the clock moves on. */
  lemma {:induction false} KeptTwice(claims: seq<Claim>, earlier: nat, now: nat)
    requires earlier <= now
    ensures Kept(Kept(claims, earlier), now) == Kept(claims, now)
  {
    if claims != [] {
      var n := |claims| - 1;
      KeptTwice(claims[..n], earlier, now);
      if WithinRetention(claims[n], earlier) {
        KeptSnoc(Kept(claims[..n], earlier), claims[n], now);
      } else {
        assert Kept(claims, earlier) == Kept(claims[..n], earlier);
      }
    }
  }

  lemma KeptSnoc(claims: seq<Claim>, c: Claim, now: nat)
    ensures Kept(claims + [c], now) == Kept(claims, now) + if WithinRetention(c, now) then [c] else []
  {
    assert (claims + [c])[..|claims|] == claims;
  }

  lemma SplitNext(claims: seq<Claim>, i: nat, now: nat)
    requires i < |claims|
    ensures Kept(claims[..i + 1], now) == if WithinRetention(claims[i], now) then Kept(claims[..i], now) + [claims[i]] else Kept(claims[..i], now)
    ensures Fingerprints(Dropped(claims[..i + 1], now))
            == Fingerprints(Dropped(claims[..i], now)) + if WithinRetention(claims[i], now) then {} else {claims[i].f}
  {
    assert claims[..i + 1][..i] == claims[..i];
    Snoc(Dropped(claims[..i], now), claims[i]);
    assert Dropped(claims[..i], now) + [] == Dropped(claims[..i], now);
  }

  lemma PrunedMeans(r: Replays, clock: nat, now: nat)
    requires Consistent(r, clock) && clock <= now
    ensures Consistent(Pruned(r, now), now) && Pruned(r, now).stored == r.stored
    ensures forall c :: c in Pruned(r, now).order <==> c in r.order && WithinRetention(c, now)
  {
    KeptMembers(r.order, now);
    KeptFingerprints(r.order, now);
    KeptTwice(r.order, clock, now);
    KeptTwice(r.stored, clock, now);
    KeptTwice(r.order, now, now);
  }

  lemma ClaimedMeans(r: Replays, clock: nat, f: Fingerprint, ts: nat, now: nat, appends: bool)
    requires Consistent(r, clock) && clock <= now && now > 0
    ensures var (s, verdict) := Claimed(r, f, ts, now, appends);
            Consistent(s, now)
            && (forall c | c in r.order && WithinRetention(c, now) :: c in s.order)
            && (verdict == Admitted ==> Claim(f, ts, now) in s.order && Distance(now, ts) <= SKEW && f !in Fingerprints(Kept(r.order, now)))
  {
    PrunedMeans(r, clock, now);
    var p := Pruned(r, now);
    var (s, verdict) := Claimed(r, f, ts, now, appends);
    if verdict == Admitted {
      var c := Claim(f, ts, now);
      KeptSnoc(p.order, c, now);
      KeptSnoc(p.stored, c, now);
      AddOne(p, c, now);
    }
  }

  lemma AddOne(p: Replays, c: Claim, now: nat)
    requires Consistent(p, now) && c.f !in p.claimed && |p.claimed| < CAPACITY && c.acceptedAt == now > 0
    requires Kept(p.order + [c], now) == Kept(p.stored + [c], now)
    ensures Consistent(Replays(p.claimed + {c.f}, p.order + [c], p.stored + [c]), now)
  {
    Snoc(p.order, c);
    DistinctCount(p.order);
  }

  lemma {:induction false} DistinctCount(claims: seq<Claim>)
    requires Distinct(claims)
    ensures |Fingerprints(claims)| == |claims|
  {
    if claims != [] {
      var n := |claims| - 1;
      DistinctCount(claims[..n]);
    }
  }

  /** The trim at load never drops a live claim: no more than the capacity are within retention. */
  lemma LoadedMeans(r: Replays, clock: nat, now: nat)
    requires Consistent(r, clock) && clock <= now
    ensures Consistent(Loaded(r, now), now)
    ensures Loaded(r, now).order == Kept(r.stored, now) == Kept(r.order, now)
  {
    KeptTwice(r.order, clock, now);
    KeptTwice(r.stored, clock, now);
    KeptTwice(r.stored, now, now);
    KeptMembers(r.order, now);
    KeptFingerprints(r.order, now);
  }

  predicate Certain(call: Call) {
    call.Mutate? ==> !call.append.Uncertain?
  }

  lemma StepConsistent(r: Replays, clock: nat, call: Call)
    requires Consistent(r, clock) && clock <= call.now && call.now > 0 && Certain(call)
    ensures Consistent(Step(r, call).0, call.now)
    ensures forall c | c in r.order && WithinRetention(c, call.now) :: c in Step(r, call).0.order
  {
    match call
    case Mutate(f, ts, now, append) => ClaimedMeans(r, clock, f, ts, now, append.Acknowledged?);
    case Tick(now) => PrunedMeans(r, clock, now);
    case Compact(now) => KeptTwice(r.order, clock, now);
    case Reset(now) => KeptTwice(r.order, clock, now);
    case Restart(now) =>
      LoadedMeans(r, clock, now);
      KeptMembers(r.order, now);
  }

  // ---- at most once ----

  ghost function After(r: Replays, calls: seq<Call>): Replays {
    if calls == [] then r else Step(After(r, calls[..|calls| - 1]), calls[|calls| - 1]).0
  }

  /** No call of the run admits this fingerprint with this timestamp. */
  ghost predicate NoneAdmits(r: Replays, calls: seq<Call>, f: Fingerprint, ts: nat) {
    calls == []
    || (var n := |calls| - 1;
        NoneAdmits(r, calls[..n], f, ts)
        && (calls[n].Mutate? && calls[n].f == f && calls[n].clientTimestamp == ts ==>
              Step(After(r, calls[..n]), calls[n]).1 != Admitted))
  }

  ghost predicate InOrder(calls: seq<Call>, clock: nat) {
    (forall i | 0 <= i < |calls| :: clock <= calls[i].now)
    && forall i, j | 0 <= i < j < |calls| :: calls[i].now <= calls[j].now
  }

  /** While a claim could still pass the timestamp check it is in the set. */
  lemma NotAgain(r: Replays, clock: nat, c: Claim, call: Call)
    requires Consistent(r, clock) && clock <= call.now && call.now > 0
    requires WithinRetention(c, clock) ==> c in r.order
    requires c.acceptedAt <= clock && Distance(c.acceptedAt, c.clientTimestamp) <= SKEW
    requires call.Mutate? && call.f == c.f && call.clientTimestamp == c.clientTimestamp && Certain(call)
    ensures Step(r, call).1 != Admitted
  {
    ClaimedMeans(r, clock, call.f, call.clientTimestamp, call.now, call.append.Acknowledged?);
    KeptMembers(r.order, call.now);
    if c in Kept(r.order, call.now) {
      FingerprintOf(Kept(r.order, call.now), c);
    }
  }

  /** The claim is still in the set, or too old to pass the timestamp check again. */
  ghost predicate Holds(r: Replays, c: Claim, clock: nat) {
    Consistent(r, clock) && 0 < c.acceptedAt <= clock && Distance(c.acceptedAt, c.clientTimestamp) <= SKEW
    && (WithinRetention(c, clock) ==> c in r.order)
  }

  lemma StepHolds(r: Replays, c: Claim, clock: nat, call: Call)
    requires Holds(r, c, clock) && clock <= call.now && Certain(call)
    ensures Holds(Step(r, call).0, c, call.now)
    ensures call.Mutate? && call.f == c.f && call.clientTimestamp == c.clientTimestamp ==> Step(r, call).1 != Admitted
  {
    StepConsistent(r, clock, call);
    if call.Mutate? && call.f == c.f && call.clientTimestamp == c.clientTimestamp {
      NotAgain(r, clock, c, call);
    }
  }

  lemma AdmittedHolds(r: Replays, clock: nat, first: Call)
    requires Consistent(r, clock) && clock <= first.now && first.now > 0 && first.Mutate? && Step(r, first).1 == Admitted
    ensures Holds(Step(r, first).0, Claim(first.f, first.clientTimestamp, first.now), first.now)
  {
    ClaimedMeans(r, clock, first.f, first.clientTimestamp, first.now, first.append.Acknowledged?);
  }

  lemma {:induction false} RunHolds(r: Replays, c: Claim, clock: nat, calls: seq<Call>)
    requires Holds(r, c, clock) && InOrder(calls, clock) && forall i | 0 <= i < |calls| :: Certain(calls[i])
    ensures Holds(After(r, calls), c, if calls == [] then clock else calls[|calls| - 1].now)
    ensures NoneAdmits(r, calls, c.f, c.clientTimestamp)
  {
    if calls != [] {
      var n := |calls| - 1;
      RunHolds(r, c, clock, calls[..n]);
      StepHolds(After(r, calls[..n]), c, if n == 0 then clock else calls[n - 1].now, calls[n]);
    }
  }

  /**
  Once admitted, a mutation with the same fingerprint and client timestamp is never admitted
  again in the same root epoch, over any run of claims, pruning, compaction, resets and
  restarts.
  */
  lemma AtMostOnce(r: Replays, clock: nat, first: Call, calls: seq<Call>)
    requires Consistent(r, clock) && clock <= first.now && first.now > 0 && first.Mutate? && Step(r, first).1 == Admitted
    requires InOrder(calls, first.now) && forall i | 0 <= i < |calls| :: Certain(calls[i])
    ensures NoneAdmits(Step(r, first).0, calls, first.f, first.clientTimestamp)
  {
    AdmittedHolds(r, clock, first);
    RunHolds(Step(r, first).0, Claim(first.f, first.clientTimestamp, first.now), first.now, calls);
  }

  // ---- with uncertain appends ----

  /** A fingerprint digests the whole first flight, its timestamp included: all its claims are of one timestamp. */
  ghost predicate Stamped(claims: seq<Claim>, f: Fingerprint, ts: nat) {
    forall c | c in claims && c.f == f :: 0 < c.acceptedAt && ts <= c.acceptedAt + SKEW
  }

  ghost predicate Present(claims: seq<Claim>, f: Fingerprint) {
    exists c :: c in claims && c.f == f
  }

  /** While a repeat could pass the timestamp check, the fingerprint is in the set, the order and the store. */
  ghost predicate Remembered(r: Replays, f: Fingerprint, ts: nat, clock: nat) {
    Stamped(r.order, f, ts) && Stamped(r.stored, f, ts)
    && (clock <= ts + SKEW ==> f in r.claimed && Present(r.order, f) && Present(r.stored, f))
  }

  lemma {:induction false} DroppedMembers(claims: seq<Claim>, now: nat)
    ensures forall c :: c in Dropped(claims, now) <==> c in claims && !WithinRetention(c, now)
  {
    if claims != [] {
      DroppedMembers(claims[..|claims| - 1], now);
      assert claims == claims[..|claims| - 1] + [claims[|claims| - 1]];
    }
  }

  lemma {:induction false} FingerprintMeans(claims: seq<Claim>, f: Fingerprint)
    ensures f in Fingerprints(claims) <==> Present(claims, f)
  {
    if claims != [] {
      var n := |claims| - 1;
      assert claims == claims[..n] + [claims[n]];
      FingerprintMeans(claims[..n], f);
      if Present(claims, f) && claims[n].f != f {
        var c :| c in claims && c.f == f;
        assert c in claims[..n];
      }
    }
  }

  lemma KeptStamped(claims: seq<Claim>, f: Fingerprint, ts: nat, now: nat)
    requires Stamped(claims, f, ts)
    ensures Stamped(Kept(claims, now), f, ts)
    ensures now <= ts + SKEW ==> (Present(claims, f) ==> Present(Kept(claims, now), f)) && !Present(Dropped(claims, now), f)
  {
    KeptMembers(claims, now);
    DroppedMembers(claims, now);
    if now <= ts + SKEW && Present(claims, f) {
      var c :| c in claims && c.f == f;
      assert c in Kept(claims, now);
    }
  }

  lemma PrunedRemembers(r: Replays, f: Fingerprint, ts: nat, clock: nat, now: nat)
    requires Remembered(r, f, ts, clock) && clock <= now
    ensures Remembered(Pruned(r, now), f, ts, now)
  {
    KeptStamped(r.order, f, ts, now);
    FingerprintMeans(Dropped(r.order, now), f);
  }

  lemma PresentMore(claims: seq<Claim>, c: Claim, f: Fingerprint)
    ensures Present(claims, f) ==> Present(claims + [c], f)
    ensures c.f == f ==> Present(claims + [c], f)
  {
    if Present(claims, f) {
      var d :| d in claims && d.f == f;
      assert d in claims + [c];
    }
    assert c in claims + [c];
  }

  /** The calls of one fingerprint carry its one timestamp. */
  predicate Stamps(call: Call, f: Fingerprint, ts: nat) {
    call.Mutate? && call.f == f ==> call.clientTimestamp == ts
  }

  /** A start finds no more claims within retention than the set holds, so its trim drops none. */
  ghost predicate Fits(r: Replays, call: Call) {
    call.Restart? ==> |Kept(r.stored, call.now)| <= CAPACITY
  }

  lemma MutateStamped(r: Replays, call: Call, f: Fingerprint, ts: nat)
    requires call.Mutate? && call.now > 0 && Stamps(call, f, ts) && Stamped(r.order, f, ts) && Stamped(r.stored, f, ts)
    ensures Stamped(Step(r, call).0.order, f, ts) && Stamped(Step(r, call).0.stored, f, ts)
  {
    KeptStamped(r.order, f, ts, call.now);
  }

  lemma StepStamped(r: Replays, call: Call, f: Fingerprint, ts: nat)
    requires call.now > 0 && Stamps(call, f, ts) && Fits(r, call) && Stamped(r.order, f, ts) && Stamped(r.stored, f, ts)
    ensures Stamped(Step(r, call).0.order, f, ts) && Stamped(Step(r, call).0.stored, f, ts)
  {
    match call
    case Mutate(_, _, _, _) => MutateStamped(r, call, f, ts);
    case Tick(now) => KeptStamped(r.order, f, ts, now);
    case Compact(_) =>
    case Reset(_) =>
    case Restart(now) => KeptStamped(r.stored, f, ts, now);
  }

  /** An admission is remembered. */
  lemma AdmittedRemembered(r: Replays, call: Call)
    requires call.Mutate? && call.now > 0 && Step(r, call).1 == Admitted
    requires Stamped(r.order, call.f, call.clientTimestamp) && Stamped(r.stored, call.f, call.clientTimestamp)
    ensures Remembered(Step(r, call).0, call.f, call.clientTimestamp, call.now)
  {
    MutateStamped(r, call, call.f, call.clientTimestamp);
    var c := Claim(call.f, call.clientTimestamp, call.now);
    PresentMore(Pruned(r, call.now).order, c, call.f);
    PresentMore(Pruned(r, call.now).stored, c, call.f);
  }

  lemma MutateRemembers(r: Replays, call: Call, f: Fingerprint, ts: nat, clock: nat)
    requires Remembered(r, f, ts, clock) && call.Mutate? && clock <= call.now && call.now > 0 && Stamps(call, f, ts)
    ensures Remembered(Step(r, call).0, f, ts, call.now)
    ensures call.f == f ==> Step(r, call).1 != Admitted
  {
    PrunedRemembers(r, f, ts, clock, call.now);
    MutateStamped(r, call, f, ts);
    var p, c := Pruned(r, call.now), Claim(call.f, call.clientTimestamp, call.now);
    PresentMore(p.order, c, f);
    PresentMore(p.stored, c, f);
  }

  lemma StepRemembered(r: Replays, call: Call, f: Fingerprint, ts: nat, clock: nat)
    requires Remembered(r, f, ts, clock) && clock <= call.now && call.now > 0 && Stamps(call, f, ts) && Fits(r, call)
    ensures Remembered(Step(r, call).0, f, ts, call.now)
    ensures call.Mutate? && call.f == f ==> Step(r, call).1 != Admitted
  {
    match call
    case Mutate(_, _, _, _) => MutateRemembers(r, call, f, ts, clock);
    case Tick(now) => PrunedRemembers(r, f, ts, clock, now);
    case Compact(_) =>
    case Reset(_) =>
    case Restart(now) =>
      KeptStamped(r.stored, f, ts, now);
      FingerprintMeans(Kept(r.stored, now), f);
  }

  ghost predicate AllFit(calls: seq<Call>) {
    forall i | 0 <= i < |calls| :: Fits(After(Replays({}, [], []), calls[..i]), calls[i])
  }

  ghost predicate AllStamped(calls: seq<Call>, f: Fingerprint, ts: nat) {
    forall i | 0 <= i < |calls| :: Stamps(calls[i], f, ts)
  }

  ghost function StateAt(calls: seq<Call>, i: nat): Replays
    requires i <= |calls|
  {
    After(Replays({}, [], []), calls[..i])
  }

  lemma NextState(calls: seq<Call>, i: nat)
    requires i < |calls|
    ensures StateAt(calls, i + 1) == Step(StateAt(calls, i), calls[i]).0
  {
    assert calls[..i + 1][..i] == calls[..i];
  }

  lemma {:induction false} RunStamped(calls: seq<Call>, i: nat, f: Fingerprint, ts: nat)
    requires InOrder(calls, 1) && AllFit(calls) && AllStamped(calls, f, ts) && i <= |calls|
    ensures Stamped(StateAt(calls, i).order, f, ts) && Stamped(StateAt(calls, i).stored, f, ts)
  {
    if i > 0 {
      RunStamped(calls, i - 1, f, ts);
      NextState(calls, i - 1);
      assert Fits(StateAt(calls, i - 1), calls[i - 1]) && Stamps(calls[i - 1], f, ts);
      StepStamped(StateAt(calls, i - 1), calls[i - 1], f, ts);
    }
  }

  lemma RememberedNext(calls: seq<Call>, k: nat, f: Fingerprint, ts: nat, clock: nat)
    requires k < |calls| && Remembered(StateAt(calls, k), f, ts, clock) && clock <= calls[k].now && calls[k].now > 0
    requires AllFit(calls) && Stamps(calls[k], f, ts)
    ensures Remembered(StateAt(calls, k + 1), f, ts, calls[k].now)
    ensures calls[k].Mutate? && calls[k].f == f ==> Step(StateAt(calls, k), calls[k]).1 != Admitted
  {
    NextState(calls, k);
    assert Fits(StateAt(calls, k), calls[k]);
    StepRemembered(StateAt(calls, k), calls[k], f, ts, clock);
  }

  lemma RememberedFirst(calls: seq<Call>, i: nat)
    requires InOrder(calls, 1) && AllFit(calls) && i < |calls| && calls[i].Mutate?
    requires AllStamped(calls, calls[i].f, calls[i].clientTimestamp) && Step(StateAt(calls, i), calls[i]).1 == Admitted
    ensures Remembered(StateAt(calls, i + 1), calls[i].f, calls[i].clientTimestamp, calls[i].now)
  {
    NextState(calls, i);
    RunStamped(calls, i, calls[i].f, calls[i].clientTimestamp);
    AdmittedRemembered(StateAt(calls, i), calls[i]);
  }

  lemma {:induction false} RunRemembered(calls: seq<Call>, i: nat, j: nat)
    requires InOrder(calls, 1) && AllFit(calls) && i < j <= |calls| && calls[i].Mutate?
    requires AllStamped(calls, calls[i].f, calls[i].clientTimestamp) && Step(StateAt(calls, i), calls[i]).1 == Admitted
    ensures Remembered(StateAt(calls, j), calls[i].f, calls[i].clientTimestamp, calls[j - 1].now)
    decreases j - i
  {
    if j == i + 1 {
      RememberedFirst(calls, i);
    } else {
      var k := j - 1;
      RunRemembered(calls, i, k);
      assert Stamps(calls[k], calls[i].f, calls[i].clientTimestamp);
      RememberedNext(calls, k, calls[i].f, calls[i].clientTimestamp, calls[k - 1].now);
    }
  }

  /**
  With appends that fail after reaching the disk, too: over a whole epoch from its start, no
  fingerprint is admitted twice, as long as no start has to trim claims still within retention.
  Without uncertain appends that is no condition (`LoadedMeans`).
  */
  lemma AtMostOnceUncertain(calls: seq<Call>, i: nat, j: nat)
    requires InOrder(calls, 1) && AllFit(calls) && i < j < |calls| && calls[i].Mutate? && calls[j].Mutate? && calls[i].f == calls[j].f
    requires AllStamped(calls, calls[i].f, calls[i].clientTimestamp)
    ensures !(Step(StateAt(calls, i), calls[i]).1 == Admitted && Step(StateAt(calls, j), calls[j]).1 == Admitted)
  {
    if Step(StateAt(calls, i), calls[i]).1 == Admitted {
      var f, ts := calls[i].f, calls[i].clientTimestamp;
      RunRemembered(calls, i, j);
      assert Stamps(calls[j], f, ts);
      RememberedNext(calls, j, f, ts, calls[j - 1].now);
    }
  }

  // ---- when a claim is admitted ----

  /** The claims a run has admitted, in order. */
  ghost function AdmittedClaims(calls: seq<Call>): seq<Claim> {
    if calls == [] then []
    else
      var n := |calls| - 1;
      var c := calls[n];
      AdmittedClaims(calls[..n])
      + if Step(After(Replays({}, [], []), calls[..n]), c).1 == Admitted && c.Mutate? then [Claim(c.f, c.clientTimestamp, c.now)] else []
  }

  /** Those admitted in the retention before `now`. */
  ghost function Recent(claims: seq<Claim>, now: nat): set<nat> {
    set i: nat | i < |claims| && now <= claims[i].acceptedAt + RETENTION
  }

  lemma {:induction false} RecentKept(claims: seq<Claim>, now: nat)
    requires Behind(claims, now)
    ensures |Recent(claims, now)| == |Kept(claims, now)|
    ensures forall f :: Present(Kept(claims, now), f) <==> exists i :: i in Recent(claims, now) && claims[i].f == f
  {
    if claims == [] {
      assert Recent(claims, now) == {};
    } else {
      var n := |claims| - 1;
      assert claims == claims[..n] + [claims[n]] && claims[n] in claims;
      RecentKept(claims[..n], now);
      RecentNext(claims, now);
      forall f
        ensures Present(Kept(claims, now), f) <==> exists i :: i in Recent(claims, now) && claims[i].f == f
      {
        KeptMembers(claims, now);
        RecentPresent(claims, now, f);
      }
    }
  }

  lemma RecentNext(claims: seq<Claim>, now: nat)
    requires claims != [] && Behind(claims, now)
    ensures var n := |claims| - 1;
            n !in Recent(claims[..n], now)
            && Recent(claims, now) == Recent(claims[..n], now) + if WithinRetention(claims[n], now) then {n} else {}
  {
    assert claims[|claims| - 1] in claims;
  }

  lemma RecentPresent(claims: seq<Claim>, now: nat, f: Fingerprint)
    requires Behind(claims, now) && forall c :: c in Kept(claims, now) <==> c in claims && WithinRetention(c, now)
    ensures Present(Kept(claims, now), f) <==> exists i :: i in Recent(claims, now) && claims[i].f == f
  {
    if Present(Kept(claims, now), f) {
      var c :| c in Kept(claims, now) && c.f == f;
      var i: nat :| i < |claims| && claims[i] == c;
      assert i in Recent(claims, now);
    }
    if i :| i in Recent(claims, now) && claims[i].f == f {
      assert claims[i] in claims && claims[i] in Kept(claims, now);
    }
  }

  ghost predicate AllCertain(calls: seq<Call>) {
    forall i | 0 <= i < |calls| :: Certain(calls[i])
  }

  function Clock(calls: seq<Call>): nat {
    if calls == [] then 1 else calls[|calls| - 1].now
  }

  lemma StartConsistent()
    ensures Consistent(Replays({}, [], []), 1)
  {
  }

  /** A mutation, by what its pruning leaves. */
  lemma MutatePlain(r: Replays, call: Call)
    requires call.Mutate?
    ensures var p := Pruned(r, call.now);
            Step(r, call).1
            == (if call.f in p.claimed then Replayed
                else if |p.claimed| >= CAPACITY then Exhausted
                else if call.now > call.clientTimestamp + SKEW || call.clientTimestamp > call.now + SKEW then TimestampInvalid
                else if call.append.Acknowledged? then Admitted else AppendFailed)
            && Step(r, call).0.order
               == if Step(r, call).1 == Admitted then p.order + [Claim(call.f, call.clientTimestamp, call.now)] else p.order
  {
  }

  lemma PrunedOrder(r: Replays, now: nat)
    ensures Pruned(r, now).order == Kept(r.order, now)
  {
  }

  lemma MutateAdmits(r: Replays, call: Call, claims: seq<Claim>)
    requires call.Mutate? && Kept(r.order, call.now) == Kept(claims, call.now)
    ensures var more := claims + if Step(r, call).1 == Admitted then [Claim(call.f, call.clientTimestamp, call.now)] else [];
            Kept(Step(r, call).0.order, call.now) == Kept(more, call.now)
  {
    var c, kept := Claim(call.f, call.clientTimestamp, call.now), Kept(r.order, call.now);
    MutatePlain(r, call);
    PrunedOrder(r, call.now);
    KeptTwice(r.order, call.now, call.now);
    KeptSnoc(kept, c, call.now);
    KeptSnoc(claims, c, call.now);
    assert claims + [] == claims;
  }

  /** No other call changes what is kept. */
  lemma OthersKeep(r: Replays, clock: nat, call: Call)
    requires Consistent(r, clock) && clock <= call.now && !call.Mutate?
    ensures Kept(Step(r, call).0.order, call.now) == Kept(r.order, call.now)
  {
    KeptTwice(r.order, call.now, call.now);
    if call.Restart? {
      LoadedMeans(r, clock, call.now);
    }
  }

  lemma AdmittedStep(r: Replays, clock: nat, call: Call, claims: seq<Claim>)
    requires Consistent(r, clock) && clock <= call.now && call.now > 0 && Certain(call)
    requires Behind(claims, clock) && Kept(r.order, clock) == Kept(claims, clock)
    ensures var more := claims + if Step(r, call).1 == Admitted && call.Mutate? then [Claim(call.f, call.clientTimestamp, call.now)] else [];
            Behind(more, call.now) && Kept(Step(r, call).0.order, call.now) == Kept(more, call.now)
  {
    KeptTwice(r.order, clock, call.now);
    KeptTwice(claims, clock, call.now);
    if call.Mutate? {
      MutateAdmits(r, call, claims);
    } else {
      OthersKeep(r, clock, call);
      assert claims + [] == claims;
    }
  }

  /** Within retention, the order is the admitted claims of the run. */
  lemma {:induction false} OrderIsAdmitted(calls: seq<Call>)
    requires InOrder(calls, 1) && AllCertain(calls)
    ensures var r := After(Replays({}, [], []), calls);
            Consistent(r, Clock(calls)) && Behind(AdmittedClaims(calls), Clock(calls))
            && Kept(r.order, Clock(calls)) == Kept(AdmittedClaims(calls), Clock(calls))
  {
    StartConsistent();
    if calls != [] {
      var n := |calls| - 1;
      assert forall i | 0 <= i < n :: calls[..n][i] == calls[i];
      OrderIsAdmitted(calls[..n]);
      var before := After(Replays({}, [], []), calls[..n]);
      StepConsistent(before, Clock(calls[..n]), calls[n]);
      AdmittedStep(before, Clock(calls[..n]), calls[n], AdmittedClaims(calls[..n]));
    }
  }

  lemma SetOfOrder(r: Replays, clock: nat)
    requires Consistent(r, clock)
    ensures r.claimed == Fingerprints(r.order) && |r.claimed| == |r.order|
  {
    DistinctCount(r.order);
  }

  lemma PrunedIsKept(r: Replays, clock: nat, now: nat)
    requires Consistent(r, clock) && clock <= now
    ensures Pruned(r, now).claimed == Fingerprints(Kept(r.order, now)) && |Pruned(r, now).claimed| == |Kept(r.order, now)|
  {
    PrunedMeans(r, clock, now);
    SetOfOrder(Pruned(r, now), now);
    PrunedOrder(r, now);
  }

  lemma KeptSet(claims: seq<Claim>, now: nat)
    requires Behind(claims, now)
    ensures |Kept(claims, now)| == |Recent(claims, now)|
    ensures forall f :: f in Fingerprints(Kept(claims, now)) <==> exists i :: i in Recent(claims, now) && claims[i].f == f
  {
    RecentKept(claims, now);
    forall f
      ensures f in Fingerprints(Kept(claims, now)) <==> Present(Kept(claims, now), f)
    {
      FingerprintMeans(Kept(claims, now), f);
    }
  }

  /** The set after pruning, in terms of the claims it is of. */
  lemma PrunedSet(r: Replays, clock: nat, now: nat, claims: seq<Claim>)
    requires Consistent(r, clock) && clock <= now && Behind(claims, clock) && Kept(r.order, now) == Kept(claims, now)
    ensures |Pruned(r, now).claimed| == |Recent(claims, now)|
    ensures forall f :: f in Pruned(r, now).claimed <==> exists i :: i in Recent(claims, now) && claims[i].f == f
  {
    PrunedIsKept(r, clock, now);
    KeptSet(claims, now);
  }

  lemma SameKept(r: Replays, clock: nat, now: nat, claims: seq<Claim>)
    requires clock <= now && Kept(r.order, clock) == Kept(claims, clock)
    ensures Kept(r.order, now) == Kept(claims, now)
  {
    KeptTwice(r.order, clock, now);
    KeptTwice(claims, clock, now);
  }

  /**
  The verdict on every claim of an epoch: replayed when its fingerprint was admitted in the
  last ten minutes; else refused when that many claims were, or when its timestamp is more
  than five minutes off, or when it cannot be logged; and otherwise admitted.
  */
  lemma ClaimVerdict(calls: seq<Call>, call: Call)
    requires InOrder(calls, 1) && AllCertain(calls) && call.Mutate? && Clock(calls) <= call.now
    ensures var claims := AdmittedClaims(calls);
            var recent := Recent(claims, call.now);
            Step(After(Replays({}, [], []), calls), call).1
            == if exists i :: i in recent && claims[i].f == call.f then Replayed
               else if |recent| >= CAPACITY then Exhausted
               else if call.now > call.clientTimestamp + SKEW || call.clientTimestamp > call.now + SKEW then TimestampInvalid
               else if call.append.Acknowledged? then Admitted else AppendFailed
  {
    OrderIsAdmitted(calls);
    var r, claims := After(Replays({}, [], []), calls), AdmittedClaims(calls);
    SameKept(r, Clock(calls), call.now, claims);
    PrunedSet(r, Clock(calls), call.now, claims);
    MutatePlain(r, call);
  }

  // ---- the actor's replay state, in place ----

  // ---- what a start keeps when not all fits ----

  /** In the order they were accepted, none ahead of the clock. */
  ghost predicate Aged(claims: seq<Claim>, clock: nat) {
    (forall i, j | 0 <= i < j < |claims| :: claims[i].acceptedAt <= claims[j].acceptedAt)
    && forall i | 0 <= i < |claims| :: claims[i].acceptedAt <= clock
  }

  lemma {:induction false} KeptAged(claims: seq<Claim>, clock: nat, now: nat)
    requires Aged(claims, clock) && clock <= now
    ensures Aged(Kept(claims, now), now)
    ensures claims != [] ==> Aged(Kept(claims, now), claims[|claims| - 1].acceptedAt)
  {
    if claims != [] {
      var n := |claims| - 1;
      KeptAged(claims[..n], clock, now);
    }
  }

  lemma AgedMore(claims: seq<Claim>, clock: nat, f: Fingerprint, ts: nat, now: nat)
    requires Aged(claims, clock) && clock <= now
    ensures Aged(claims, now) && Aged(claims + [Claim(f, ts, now)], now)
  {
  }

  lemma AgedEnd(claims: seq<Claim>, clock: nat, k: nat)
    requires Aged(claims, clock) && k <= |claims|
    ensures Aged(claims[k..], clock)
  {
  }

  /** What a claim can do to the order and to what is stored. */
  lemma MutateMoves(r: Replays, call: Call)
    requires call.Mutate?
    ensures var (s, c) := (Step(r, call).0, Claim(call.f, call.clientTimestamp, call.now));
            (s.order == Kept(r.order, call.now) || s.order == Kept(r.order, call.now) + [c])
            && (s.stored == r.stored || s.stored == r.stored + [c])
  {
  }

  lemma AgedStep(r: Replays, clock: nat, call: Call)
    requires Aged(r.order, clock) && Aged(r.stored, clock) && clock <= call.now
    ensures Aged(Step(r, call).0.order, call.now) && Aged(Step(r, call).0.stored, call.now)
  {
    KeptAged(r.order, clock, call.now);
    KeptAged(r.stored, clock, call.now);
    match call
    case Mutate(f, ts, now, _) =>
      MutateMoves(r, call);
      AgedMore(r.stored, clock, f, ts, now);
      AgedMore(Kept(r.order, now), now, f, ts, now);
    case Tick(now) =>
    case Compact(_) =>
    case Reset(_) =>
    case Restart(now) =>
      var kept := Kept(r.stored, now);
      AgedEnd(kept, now, if |kept| > CAPACITY then |kept| - CAPACITY else 0);
  }

  lemma {:induction false} RunAged(calls: seq<Call>)
    requires InOrder(calls, 1)
    ensures var r := After(Replays({}, [], []), calls);
            Aged(r.order, Clock(calls)) && Aged(r.stored, Clock(calls))
  {
    if calls != [] {
      var n := |calls| - 1;
      assert forall i | 0 <= i < n :: calls[..n][i] == calls[i];
      RunAged(calls[..n]);
      AgedStep(After(Replays({}, [], []), calls[..n]), Clock(calls[..n]), calls[n]);
    }
  }

  lemma LatestEnd(recent: seq<Claim>, now: nat, k: nat)
    requires Aged(recent, now) && k <= |recent|
    ensures forall c | c in recent[k..] :: c in recent
    ensures forall c, d | c in recent[k..] && d in recent && d !in recent[k..] :: d.acceptedAt <= c.acceptedAt
  {
    assert forall j | k <= j < |recent| :: recent[j] == recent[k..][j - k];
    forall c, d | c in recent[k..] && d in recent && d !in recent[k..]
      ensures d.acceptedAt <= c.acceptedAt
    {
      var i :| 0 <= i < |recent[k..]| && recent[k..][i] == c;
      var j :| 0 <= j < |recent| && recent[j] == d;
      assert recent[k + i] == c && j < k;
    }
  }

  /**
  A start after any run holds of the stored claims still within retention as many as fit, and
  forgets none that was accepted after one it holds.
  */
  lemma LoadKeepsLatest(calls: seq<Call>, now: nat)
    requires InOrder(calls, 1) && Clock(calls) <= now
    ensures var r := After(Replays({}, [], []), calls);
            var recent, order := Kept(r.stored, now), Loaded(r, now).order;
            |order| == (if |recent| < CAPACITY then |recent| else CAPACITY)
            && (forall c | c in order :: c in recent)
            && forall c, d | c in order && d in recent && d !in order :: d.acceptedAt <= c.acceptedAt
  {
    RunAged(calls);
    var r := After(Replays({}, [], []), calls);
    var recent, order := Kept(r.stored, now), Loaded(r, now).order;
    KeptAged(r.stored, Clock(calls), now);
    assert order == recent[|recent| - |order|..];
    LatestEnd(recent, now, |recent| - |order|);
  }

  class AdminReplayState {
    var claimed: set<Fingerprint>
    var order: seq<Claim>
    var stored: seq<Claim>

    constructor ()
      ensures State() == Replays({}, [], [])
    {
      claimed, order, stored := {}, [], [];
    }

    ghost function State(): Replays
      reads this
    {
      Replays(claimed, order, stored)
    }

    /** `prune_expired_admin_replays`. */
    method Prune(now: nat)
      modifies this`claimed, this`order
      ensures State() == Pruned(old(State()), now)
    {
      order, claimed := Retained(order, claimed, now);
    }

    method ClaimMutation(f: Fingerprint, clientTimestamp: nat, now: nat, append: Append) returns (verdict: Verdict)
      modifies this
      ensures (State(), verdict) == Step(old(State()), Mutate(f, clientTimestamp, now, append))
    {
      Prune(now);
      if f in claimed {
        return Replayed;
      }
      if |claimed| >= CAPACITY {
        return Exhausted;
      }
      if Distance(now, clientTimestamp) > SKEW {
        return TimestampInvalid;
      }
      var c := Claim(f, clientTimestamp, now);
      if append.Uncertain? {
        stored := stored + [c];
        return AppendFailed;
      }
      if append.Refused? {
        return AppendFailed;
      }
      claimed, order, stored := claimed + {f}, order + [c], stored + [c];
      return Admitted;
    }

    /** Rebuilds the set from what is stored. */
    method Load(now: nat)
      modifies this`claimed, this`order
      ensures State() == Loaded(old(State()), now)
    {
      order := Trimmed(Kept(stored, now));
      claimed := FingerprintSet(order);
    }
  }

  /** The retain loop: what is kept, and the set without what is forgotten. */
  method Retained(claims: seq<Claim>, claimed: set<Fingerprint>, now: nat) returns (kept: seq<Claim>, left: set<Fingerprint>)
    ensures kept == Kept(claims, now) && left == claimed - Fingerprints(Dropped(claims, now))
  {
    kept, left := [], claimed;
    for i := 0 to |claims|
      invariant kept == Kept(claims[..i], now) && left == claimed - Fingerprints(Dropped(claims[..i], now))
    {
      SplitNext(claims, i, now);
      if WithinRetention(claims[i], now) {
        kept := kept + [claims[i]];
      } else {
        left := left - {claims[i].f};
      }
    }
    assert claims[..|claims|] == claims;
  }

  /** Drops the oldest claims beyond the capacity. */
  method Trimmed(claims: seq<Claim>) returns (order: seq<Claim>)
    ensures order == if |claims| > CAPACITY then claims[|claims| - CAPACITY..] else claims
  {
    order := claims;
    while |order| > CAPACITY
      invariant |order| <= |claims| && order == claims[|claims| - |order|..]
      invariant |order| < |claims| ==> |order| >= CAPACITY
    {
      order := order[1..];
    }
  }

  method FingerprintSet(claims: seq<Claim>) returns (claimed: set<Fingerprint>)
    ensures claimed == Fingerprints(claims)
  {
    claimed := {};
    var i := 0;
    while i < |claims|
      invariant i <= |claims| && claimed == Fingerprints(claims[..i])
    {
      assert claims[..i + 1][..i] == claims[..i];
      claimed := claimed + {claims[i].f};
      i := i + 1;
    }
    assert claims[..i] == claims;
  }
}
