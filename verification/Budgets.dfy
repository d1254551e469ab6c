/**
Admission of first flights from the other side: when a flight is admitted, and what it is
answered otherwise.

The budgets are counted over the calls of a process: the flights of one key admitted since
the counts were last cleared, and all of them since the filter last rotated.
*/
module AdmissionBudgets {
  import opened Blooms
  import opened ReplayGuards

  // ---- the two periods, from the times of the calls alone ----

  /** A period starting anew at the first time a whole window past its start. */
  function Renewed(since: nat, window: nat, now: nat): nat {
    if since + window <= now then now else since
  }

  /** When the counts of the keys were last cleared: only an admission looks at them. */
  ghost function ClearedAt(start: nat, window: nat, calls: seq<Call>): nat {
    if calls == [] then start
    else
      var n := |calls| - 1;
      var before := ClearedAt(start, window, calls[..n]);
      if calls[n].AdmitCall? then Renewed(before, window, calls[n].now) else before
  }

  /** When the filter last rotated: any call looks at it. */
  ghost function RotatedAt(start: nat, window: nat, calls: seq<Call>): nat {
    if calls == [] then start
    else
      var n := |calls| - 1;
      Renewed(RotatedAt(start, window, calls[..n]), window, calls[n].now)
  }

  // ---- what was admitted, counted ----

  ghost predicate OneProcess(calls: seq<Call>) {
    forall i | 0 <= i < |calls| :: !calls[i].Reopen?
  }

  /** A guard as it is opened: no flight counted yet. */
  ghost predicate Newly(g: Guard) {
    g.bloom.Valid() && g.counts == map[] && g.totalStartedAt == g.bloom.startedAt
  }

  ghost predicate FreshAt(g: Guard, limits: Limits, calls: seq<Call>)
    requires limits.Valid() && g.bloom.Valid() && calls != []
  {
    Step(After(g, limits, calls[..|calls| - 1]), limits, calls[|calls| - 1]).1 == Fresh
  }

  /** The flights of `key` admitted in the period of the counts that began at `since`. */
  ghost function KeyAdmitted(g: Guard, limits: Limits, calls: seq<Call>, key: KeyId, since: nat): nat
    requires limits.Valid() && g.bloom.Valid()
  {
    if calls == [] then 0
    else
      var n := |calls| - 1;
      KeyAdmitted(g, limits, calls[..n], key, since)
      + if calls[n].AdmitCall? && calls[n].key == key && FreshAt(g, limits, calls) && ClearedAt(g.countsStartedAt, limits.window, calls) == since
        then 1 else 0
  }

  /** All flights admitted in the period of the filter that began at `since`. */
  ghost function AllAdmitted(g: Guard, limits: Limits, calls: seq<Call>, since: nat): nat
    requires limits.Valid() && g.bloom.Valid()
  {
    if calls == [] then 0
    else
      var n := |calls| - 1;
      AllAdmitted(g, limits, calls[..n], since)
      + if FreshAt(g, limits, calls) && RotatedAt(g.bloom.startedAt, limits.window, calls) == since then 1 else 0
  }

  /** What the loaded records already use of the total, until the filter rotates. */
  ghost function Loaded(g: Guard, since: nat): nat {
    if since == g.bloom.startedAt then g.total else 0
  }

  lemma {:induction false} KeyNoneYet(g: Guard, limits: Limits, calls: seq<Call>, key: KeyId, since: nat)
    requires limits.Valid() && g.bloom.Valid() && since > ClearedAt(g.countsStartedAt, limits.window, calls)
    ensures KeyAdmitted(g, limits, calls, key, since) == 0
  {
    if calls != [] {
      KeyNoneYet(g, limits, calls[..|calls| - 1], key, since);
    }
  }

  lemma {:induction false} AllNoneYet(g: Guard, limits: Limits, calls: seq<Call>, since: nat)
    requires limits.Valid() && g.bloom.Valid() && since > RotatedAt(g.bloom.startedAt, limits.window, calls)
    ensures AllAdmitted(g, limits, calls, since) == 0 && RotatedAt(g.bloom.startedAt, limits.window, calls) >= g.bloom.startedAt
  {
    if calls != [] {
      AllNoneYet(g, limits, calls[..|calls| - 1], since);
    }
  }

  // ---- the guard's own counts are those ----

  ghost predicate KeyTallied(g: Guard, h: Guard, limits: Limits, calls: seq<Call>, key: KeyId)
    requires limits.Valid() && g.bloom.Valid()
  {
    h.countsStartedAt == ClearedAt(g.countsStartedAt, limits.window, calls)
    && CountOf(h, key) == KeyAdmitted(g, limits, calls, key, h.countsStartedAt)
  }

  ghost predicate TotalTallied(g: Guard, h: Guard, limits: Limits, calls: seq<Call>)
    requires limits.Valid() && g.bloom.Valid()
  {
    var since := RotatedAt(g.bloom.startedAt, limits.window, calls);
    h.bloom.startedAt == since && h.totalStartedAt <= since
    && AllAdmitted(g, limits, calls, since) + Loaded(g, since) == if h.totalStartedAt == since then h.total else 0
  }

  // ---- one call ----

  /** The append goes through. */
  predicate Writes(g: Guard, fault: WriteFault) {
    !g.logFailed && (!g.durable || fault.WriteWell? || (fault.CannotSyncParent? && g.file.present))
  }

  /** Everything a write does not touch. */
  ghost predicate SameTallies(g: Guard, h: Guard) {
    h.counts == g.counts && h.countsStartedAt == g.countsStartedAt && h.total == g.total && h.totalStartedAt == g.totalStartedAt && h.bloom == g.bloom
  }

  lemma PersistPlain(g: Guard, f: Fingerprint, now: nat, fault: WriteFault)
    ensures Persist(g, f, now, fault).1 <==> Writes(g, fault)
    ensures SameTallies(g, Persist(g, f, now, fault).0)
  {
  }

  lemma CompactPlain(g: Guard, window: nat, now: nat, rewrite: RewriteFault)
    ensures SameTallies(g, Compact(g, window, now, rewrite))
  {
  }

  lemma ReservePlain(g: Guard, limits: Limits, f: Fingerprint, now: nat, fault: WriteFault)
    requires g.bloom.Valid() && limits.Valid()
    ensures var (p, verdict) := Reserve(g, limits, f, now, fault);
            verdict == (if Writes(g, fault) then Fresh else Unavailable)
            && p.counts == g.counts && p.countsStartedAt == g.countsStartedAt && p.totalStartedAt == g.totalStartedAt
            && p.total == g.total + (if verdict == Fresh then 1 else 0)
            && p.bloom.startedAt == if verdict == Fresh then Renewed(g.bloom.startedAt, limits.window, now) else g.bloom.startedAt
  {
    PersistPlain(g, f, now, fault);
  }

  lemma CountedPlain(g: Guard, limits: Limits, key: KeyId, f: Fingerprint, now: nat, fault: WriteFault, rewrite: RewriteFault)
    requires g.bloom.Valid() && limits.Valid()
    ensures var (p, verdict) := ReserveCounted(g, limits, key, f, now, fault, rewrite);
            verdict == (if Writes(g, fault) then Fresh else Unavailable)
            && p.counts == (if verdict == Fresh then g.counts[key := CountOf(g, key) + 1] else g.counts)
            && p.countsStartedAt == g.countsStartedAt && p.totalStartedAt == g.totalStartedAt
            && p.total == g.total + (if verdict == Fresh then 1 else 0)
            && p.bloom.startedAt == if verdict == Fresh then Renewed(g.bloom.startedAt, limits.window, now) else g.bloom.startedAt
  {
    ReservePlain(g, limits, f, now, fault);
    var (r, verdict) := Reserve(g, limits, f, now, fault);
    if verdict == Fresh {
      CompactPlain(r.(counts := r.counts[key := CountOf(r, key) + 1]), limits.window, now, rewrite);
    }
  }

  /** The total a call at `now` finds used. */
  function Used(g: Guard, window: nat, now: nat): nat {
    if g.totalStartedAt == Renewed(g.bloom.startedAt, window, now) then g.total else 0
  }

  function Spent(g: Guard, window: nat, key: KeyId, now: nat): nat {
    if g.countsStartedAt == Renewed(g.countsStartedAt, window, now) then CountOf(g, key) else 0
  }

  lemma LookedPlain(g: Guard, limits: Limits, now: nat)
    requires g.bloom.Valid() && limits.Valid()
    ensures var h := ResetTotal(Looked(g, limits, now));
            h.bloom.Valid() && h.bloom.startedAt == h.totalStartedAt == Renewed(g.bloom.startedAt, limits.window, now)
            && h.total == Used(g, limits.window, now) && h.counts == g.counts && h.countsStartedAt == g.countsStartedAt
            && h.logFailed == g.logFailed && h.durable == g.durable && h.file == g.file
  {
  }

  /** A claim's whole verdict, and what it leaves of the total. */
  lemma ClaimPlain(g: Guard, limits: Limits, f: Fingerprint, now: nat, fault: WriteFault)
    requires g.bloom.Valid() && limits.Valid()
    ensures var (h, verdict) := Claim(g, limits, f, now, fault);
            verdict == (if Found(g.bloom, limits.window, f, now) then Replayed
                        else if Used(g, limits.window, now) < limits.total && Writes(g, fault) then Fresh else Unavailable)
            && TotalMoves(g, h, limits.window, now, verdict)
            && h.counts == g.counts && h.countsStartedAt == g.countsStartedAt
  {
    var h := ResetTotal(Looked(g, limits, now));
    LookedPlain(g, limits, now);
    ReservePlain(h, limits, f, now, fault);
  }

  ghost predicate TotalMoves(g: Guard, h: Guard, window: nat, now: nat, verdict: Verdict) {
    var since := Renewed(g.bloom.startedAt, window, now);
    h.bloom.startedAt == since
    && (h.totalStartedAt == since || (h.totalStartedAt == g.totalStartedAt && h.total == g.total && verdict != Fresh))
    && (h.totalStartedAt == since ==> h.total == Used(g, window, now) + if verdict == Fresh then 1 else 0)
  }

  /** Clearing the counts twice at one time is clearing them once. */
  lemma ClearedPlain(g: Guard, window: nat, key: KeyId, now: nat)
    requires window > 0
    ensures var c := RotateCounts(g, window, now);
            RotateCounts(c, window, now) == c && c == g.(counts := c.counts, countsStartedAt := c.countsStartedAt)
            && c.countsStartedAt == Renewed(g.countsStartedAt, window, now) && CountOf(c, key) == Spent(g, window, key, now)
            && c.counts == if c.countsStartedAt == g.countsStartedAt then g.counts else map[]
  {
  }

  /** An admission just after the counts were looked at. */
  lemma AdmitCleared(c: Guard, limits: Limits, key: KeyId, f: Fingerprint, now: nat, fault: WriteFault, rewrite: RewriteFault)
    requires c.bloom.Valid() && limits.Valid() && RotateCounts(c, limits.window, now) == c
    ensures var (h, verdict) := Admit(c, limits, key, f, now, fault, rewrite);
            verdict == (if Found(c.bloom, limits.window, f, now) then Replayed
                        else if CountOf(c, key) >= limits.perKey || Used(c, limits.window, now) >= limits.total then Limited
                        else if Writes(c, fault) then Fresh else Unavailable)
            && TotalMoves(c, h, limits.window, now, verdict) && h.countsStartedAt == c.countsStartedAt
            && h.counts == if verdict == Fresh then c.counts[key := CountOf(c, key) + 1] else c.counts
  {
    LookedPlain(c, limits, now);
    CountedPlain(ResetTotal(Looked(c, limits, now)), limits, key, f, now, fault, rewrite);
  }

  lemma AdmitClears(g: Guard, limits: Limits, key: KeyId, f: Fingerprint, now: nat, fault: WriteFault, rewrite: RewriteFault)
    requires g.bloom.Valid() && limits.Valid()
    ensures Admit(g, limits, key, f, now, fault, rewrite) == Admit(RotateCounts(g, limits.window, now), limits, key, f, now, fault, rewrite)
  {
    ClearedPlain(g, limits.window, key, now);
  }

  /** The same for an admission. */
  lemma AdmitPlain(g: Guard, limits: Limits, key: KeyId, f: Fingerprint, now: nat, fault: WriteFault, rewrite: RewriteFault)
    requires g.bloom.Valid() && limits.Valid()
    ensures var (h, verdict) := Admit(g, limits, key, f, now, fault, rewrite);
            verdict == (if Found(g.bloom, limits.window, f, now) then Replayed
                        else if Spent(g, limits.window, key, now) >= limits.perKey || Used(g, limits.window, now) >= limits.total then Limited
                        else if Writes(g, fault) then Fresh else Unavailable)
            && TotalMoves(g, h, limits.window, now, verdict)
            && h.countsStartedAt == Renewed(g.countsStartedAt, limits.window, now)
            && h.counts == (var counts := if h.countsStartedAt == g.countsStartedAt then g.counts else map[];
                            if verdict == Fresh then counts[key := Spent(g, limits.window, key, now) + 1] else counts)
  {
    AdmitClears(g, limits, key, f, now, fault, rewrite);
    ClearedPlain(g, limits.window, key, now);
    AdmitCleared(RotateCounts(g, limits.window, now), limits, key, f, now, fault, rewrite);
  }

  // ---- whole runs ----

  lemma {:induction false} RunKeyTallied(g: Guard, limits: Limits, calls: seq<Call>, key: KeyId)
    requires limits.Valid() && Newly(g) && OneProcess(calls)
    ensures KeyTallied(g, After(g, limits, calls), limits, calls, key)
  {
    if calls != [] {
      var n := |calls| - 1;
      RunKeyTallied(g, limits, calls[..n], key);
      var before, c := After(g, limits, calls[..n]), calls[n];
      if c.AdmitCall? {
        AdmitPlain(before, limits, c.key, c.f, c.now, c.fault, c.rewrite);
        if Renewed(before.countsStartedAt, limits.window, c.now) != before.countsStartedAt {
          KeyNoneYet(g, limits, calls[..n], key, c.now);
        }
      } else {
        ClaimPlain(before, limits, c.f, c.now, c.fault);
      }
    }
  }

  lemma {:induction false} RunTotalTallied(g: Guard, limits: Limits, calls: seq<Call>)
    requires limits.Valid() && Newly(g) && OneProcess(calls)
    ensures TotalTallied(g, After(g, limits, calls), limits, calls)
  {
    if calls != [] {
      var n := |calls| - 1;
      RunTotalTallied(g, limits, calls[..n]);
      var before, c := After(g, limits, calls[..n]), calls[n];
      if c.AdmitCall? {
        AdmitPlain(before, limits, c.key, c.f, c.now, c.fault, c.rewrite);
      } else {
        ClaimPlain(before, limits, c.f, c.now, c.fault);
      }
      if Renewed(before.bloom.startedAt, limits.window, c.now) != before.bloom.startedAt {
        AllNoneYet(g, limits, calls[..n], c.now);
      }
    }
  }

  /** What a flight of `key` finds spent: the ones of its key admitted since the counts were cleared. */
  ghost function KeySpent(g: Guard, limits: Limits, calls: seq<Call>, key: KeyId, now: nat): nat
    requires limits.Valid() && g.bloom.Valid()
  {
    KeyAdmitted(g, limits, calls, key, Renewed(ClearedAt(g.countsStartedAt, limits.window, calls), limits.window, now))
  }

  /** What any flight finds spent: those admitted since the filter rotated, and the records loaded if it has not. */
  ghost function AllSpent(g: Guard, limits: Limits, calls: seq<Call>, now: nat): nat
    requires limits.Valid() && g.bloom.Valid()
  {
    var since := Renewed(RotatedAt(g.bloom.startedAt, limits.window, calls), limits.window, now);
    AllAdmitted(g, limits, calls, since) + Loaded(g, since)
  }

  lemma SpentIs(g: Guard, limits: Limits, calls: seq<Call>, key: KeyId, now: nat)
    requires limits.Valid() && Newly(g) && OneProcess(calls)
    ensures Spent(After(g, limits, calls), limits.window, key, now) == KeySpent(g, limits, calls, key, now)
  {
    RunKeyTallied(g, limits, calls, key);
    var h := After(g, limits, calls);
    if Renewed(h.countsStartedAt, limits.window, now) != h.countsStartedAt {
      KeyNoneYet(g, limits, calls, key, now);
    }
  }

  lemma UsedIs(g: Guard, limits: Limits, calls: seq<Call>, now: nat)
    requires limits.Valid() && Newly(g) && OneProcess(calls)
    ensures Used(After(g, limits, calls), limits.window, now) == AllSpent(g, limits, calls, now)
  {
    RunTotalTallied(g, limits, calls);
    var h := After(g, limits, calls);
    if Renewed(h.bloom.startedAt, limits.window, now) != h.bloom.startedAt {
      AllNoneYet(g, limits, calls, now);
    }
  }

  /**
  The verdict on every flight of a process: replayed when the filter finds it; else admitted
  exactly when fewer than `perKey` flights of its key were admitted since the counts were
  cleared, fewer than `total` since the filter rotated, and its record can be written.
  */
  lemma AdmitVerdict(g: Guard, limits: Limits, calls: seq<Call>, call: Call)
    requires limits.Valid() && Newly(g) && OneProcess(calls) && call.AdmitCall?
    ensures var h := After(g, limits, calls);
            Step(h, limits, call).1
            == if Found(h.bloom, limits.window, call.f, call.now) then Replayed
               else if KeySpent(g, limits, calls, call.key, call.now) >= limits.perKey || AllSpent(g, limits, calls, call.now) >= limits.total then Limited
               else if Writes(h, call.fault) then Fresh else Unavailable
  {
    SpentIs(g, limits, calls, call.key, call.now);
    UsedIs(g, limits, calls, call.now);
    AdmitPlain(After(g, limits, calls), limits, call.key, call.f, call.now, call.fault, call.rewrite);
  }

  /** The same for a claim, which no key's budget bounds. */
  lemma ClaimVerdict(g: Guard, limits: Limits, calls: seq<Call>, call: Call)
    requires limits.Valid() && Newly(g) && OneProcess(calls) && call.ClaimCall?
    ensures var h := After(g, limits, calls);
            Step(h, limits, call).1
            == if Found(h.bloom, limits.window, call.f, call.now) then Replayed
               else if AllSpent(g, limits, calls, call.now) < limits.total && Writes(h, call.fault) then Fresh else Unavailable
  {
    UsedIs(g, limits, calls, call.now);
    ClaimPlain(After(g, limits, calls), limits, call.f, call.now, call.fault);
  }

  /** A guard just opened has counted nothing but the live records it loaded, up to its total. */
  lemma OpenedNewly(limits: Limits, durable: bool, file: LogFile, now: nat, fault: RewriteFault)
    requires limits.Valid()
    ensures var g := Opened(limits, durable, file, now, fault);
            Newly(g) && g.countsStartedAt == now
            && g.total == if !durable || !file.present || fault.CannotRead? || file.torn then 0
                          else if |Live(file.records, limits.window, now)| < limits.total then |Live(file.records, limits.window, now)| else limits.total
  {
  }

  // ---- what the filter finds ----

  /** Every set bit is a bit of one of these fingerprints. */
  ghost predicate OnlyFrom(filter: Filter, seen: set<Fingerprint>) {
    forall p | 0 <= p < |filter| && filter[p] :: SetBy(|filter|, p, seen)
  }

  ghost predicate SetBy(bits: nat, p: nat, seen: set<Fingerprint>)
    requires bits > 0
  {
    exists f :: f in seen && BitOf(bits, p, f)
  }

  ghost predicate BitOf(bits: nat, p: nat, f: Fingerprint)
    requires bits > 0
  {
    exists i :: 0 <= i < 4 && Position(bits, f.Words()[i]) == p
  }

  lemma {:induction false} SetOnlyFrom(filter: Filter, f: Fingerprint, n: nat, seen: set<Fingerprint>, p: nat)
    requires |filter| > 0 && n <= 4 && p < |filter| && OnlyFrom(filter, seen) && Set(filter, f, n)[p]
    ensures SetBy(|filter|, p, seen + {f})
  {
    if n > 0 && p == Position(|filter|, f.Words()[n - 1]) {
      assert BitOf(|filter|, p, f);
    } else if n > 0 {
      SetOnlyFrom(filter, f, n - 1, seen, p);
    } else {
      var g :| g in seen && BitOf(|filter|, p, g);
      assert g in seen + {f};
    }
  }

  lemma AddedOnlyFrom(b: Bloom, window: nat, f: Fingerprint, now: nat, seen: set<Fingerprint>)
    requires b.Valid() && OnlyFrom(b.current, seen) && OnlyFrom(b.previous, seen)
    ensures var r, a := Rotated(b, window, now), Added(b, window, f, now);
            OnlyFrom(r.current, seen) && OnlyFrom(r.previous, seen) && OnlyFrom(a.current, seen + {f}) && OnlyFrom(a.previous, seen + {f})
  {
    var r, a := Rotated(b, window, now), Added(b, window, f, now);
    forall p | 0 <= p < |a.current| && a.current[p]
      ensures SetBy(|a.current|, p, seen + {f})
    {
      SetOnlyFrom(r.current, f, 4, seen, p);
    }
    forall p | 0 <= p < |a.previous| && a.previous[p]
      ensures SetBy(|a.previous|, p, seen + {f})
    {
      var g :| g in seen && BitOf(|a.previous|, p, g);
      assert g in seen + {f};
    }
  }

  ghost function FingerprintsOf(records: seq<Rec>): set<Fingerprint> {
    set r | r in records :: r.f
  }

  lemma {:induction false} AddAllOnlyFrom(b: Bloom, window: nat, live: seq<Rec>)
    requires b.Valid() && OnlyFrom(b.current, {}) && OnlyFrom(b.previous, {})
    ensures OnlyFrom(AddAll(b, window, live).current, FingerprintsOf(live)) && OnlyFrom(AddAll(b, window, live).previous, FingerprintsOf(live))
  {
    if live == [] {
      assert FingerprintsOf(live) == {};
    } else {
      var n := |live| - 1;
      AddAllOnlyFrom(b, window, live[..n]);
      AddedOnlyFrom(AddAll(b, window, live[..n]), window, live[n].f, live[n].at, FingerprintsOf(live[..n]));
      assert live == live[..n] + [live[n]];
      assert FingerprintsOf(live) == FingerprintsOf(live[..n]) + {live[n].f};
    }
  }

  /** A guard just opened finds only what its live records set. */
  lemma OpenedOnlyFrom(limits: Limits, durable: bool, file: LogFile, now: nat, fault: RewriteFault)
    requires limits.Valid()
    ensures var g := Opened(limits, durable, file, now, fault);
            var seen := FingerprintsOf(Live(file.records, limits.window, now));
            OnlyFrom(g.bloom.current, seen) && OnlyFrom(g.bloom.previous, seen)
  {
    AddAllOnlyFrom(Empty(limits, durable, file, now).bloom, limits.window, Live(file.records, limits.window, now));
  }

  /** The fingerprints a process has admitted. */
  ghost function Admitted(g: Guard, limits: Limits, calls: seq<Call>): set<Fingerprint>
    requires limits.Valid() && g.bloom.Valid() && OneProcess(calls)
  {
    if calls == [] then {}
    else Admitted(g, limits, calls[..|calls| - 1]) + if FreshAt(g, limits, calls) then {calls[|calls| - 1].f} else {}
  }

  /** A flight is taken for a replay only if every bit of it is one of a flight admitted before. */
  lemma {:induction false} FilterOnlyFrom(g: Guard, limits: Limits, calls: seq<Call>, seen: set<Fingerprint>)
    requires limits.Valid() && g.bloom.Valid() && OneProcess(calls) && OnlyFrom(g.bloom.current, seen) && OnlyFrom(g.bloom.previous, seen)
    ensures var b := After(g, limits, calls).bloom;
            OnlyFrom(b.current, seen + Admitted(g, limits, calls)) && OnlyFrom(b.previous, seen + Admitted(g, limits, calls))
  {
    if calls == [] {
      assert seen + {} == seen;
    } else {
      var n := |calls| - 1;
      FilterOnlyFrom(g, limits, calls[..n], seen);
      var before, c := After(g, limits, calls[..n]), calls[n];
      var known := seen + Admitted(g, limits, calls[..n]);
      BloomMoves(before, limits, c);
      AddedOnlyFrom(before.bloom, limits.window, c.f, c.now, known);
      AddedOnlyFrom(Rotated(before.bloom, limits.window, c.now), limits.window, c.f, c.now, known);
      assert known + {c.f} == seen + (Admitted(g, limits, calls[..n]) + {c.f});
    }
  }

  lemma ClaimBloom(g: Guard, limits: Limits, f: Fingerprint, now: nat, fault: WriteFault)
    requires g.bloom.Valid() && limits.Valid()
    ensures var (h, verdict) := Claim(g, limits, f, now, fault);
            var rotated := Rotated(g.bloom, limits.window, now);
            h.bloom == if verdict == Fresh then Added(rotated, limits.window, f, now) else rotated
  {
    ReserveMoves(ResetTotal(Looked(g, limits, now)), limits, f, now, fault);
  }

  lemma AdmitBloom(g: Guard, limits: Limits, key: KeyId, f: Fingerprint, now: nat, fault: WriteFault, rewrite: RewriteFault)
    requires g.bloom.Valid() && limits.Valid()
    ensures var (h, verdict) := Admit(g, limits, key, f, now, fault, rewrite);
            var rotated := Rotated(g.bloom, limits.window, now);
            h.bloom == if verdict == Fresh then Added(rotated, limits.window, f, now) else rotated
  {
    CountedMoves(ResetTotal(Looked(RotateCounts(g, limits.window, now), limits, now)), limits, key, f, now, fault, rewrite);
  }

  /** Only an admitted flight sets bits. */
  lemma BloomMoves(g: Guard, limits: Limits, call: Call)
    requires g.bloom.Valid() && limits.Valid() && !call.Reopen?
    ensures var rotated := Rotated(g.bloom, limits.window, call.now);
            Step(g, limits, call).0.bloom
            == if Step(g, limits, call).1 == Fresh then Added(rotated, limits.window, call.f, call.now) else rotated
  {
    if call.AdmitCall? {
      AdmitBloom(g, limits, call.key, call.f, call.now, call.fault, call.rewrite);
    } else {
      ClaimBloom(g, limits, call.f, call.now, call.fault);
    }
  }

  lemma FoundOnlyFrom(b: Bloom, window: nat, f: Fingerprint, now: nat, seen: set<Fingerprint>, i: nat)
    requires b.Valid() && OnlyFrom(b.current, seen) && OnlyFrom(b.previous, seen) && i < 4 && Found(b, window, f, now)
    ensures SetBy(|b.current|, Position(|b.current|, f.Words()[i]), seen)
  {
    AddedOnlyFrom(b, window, f, now, seen);
  }

  /** So a flight with a bit that no admitted or loaded flight has is never taken for a replay. */
  lemma ReplayedMeans(g: Guard, limits: Limits, calls: seq<Call>, seen: set<Fingerprint>, f: Fingerprint, now: nat, i: nat)
    requires limits.Valid() && g.bloom.Valid() && OneProcess(calls) && OnlyFrom(g.bloom.current, seen) && OnlyFrom(g.bloom.previous, seen)
    requires i < 4 && Found(After(g, limits, calls).bloom, limits.window, f, now)
    ensures var bits := |After(g, limits, calls).bloom.current|;
            bits > 0 && SetBy(bits, Position(bits, f.Words()[i]), seen + Admitted(g, limits, calls))
  {
    FilterOnlyFrom(g, limits, calls, seen);
    FoundOnlyFrom(After(g, limits, calls).bloom, limits.window, f, now, seen + Admitted(g, limits, calls), i);
  }

  // ---- the log stays as long as a window ----

  lemma PersistRecords(g: Guard, f: Fingerprint, now: nat, fault: WriteFault)
    requires g.durable && Persist(g, f, now, fault).1
    ensures var h := Persist(g, f, now, fault).0;
            h.file.records == g.file.records + [Rec(f, now)] && h.file.torn == g.file.torn
            && h.durable && h.lastCompactAt == g.lastCompactAt && !h.logFailed
  {
  }

  lemma CompactRecords(g: Guard, window: nat, now: nat, rewrite: RewriteFault)
    requires g.durable && !g.logFailed
    ensures var h := Compact(g, window, now, rewrite);
            if rewrite.RewriteWell? && !g.file.torn then
              (forall r :: r in h.file.records <==> r in g.file.records && now <= r.at + window)
              && h.lastCompactAt == now && !h.logFailed
            else h.logFailed
  {
  }

  /** Sixty seconds after the last compaction all but the records of the last window go. */
  lemma CountedRecords(g: Guard, limits: Limits, key: KeyId, f: Fingerprint, now: nat, fault: WriteFault, rewrite: RewriteFault)
    requires g.bloom.Valid() && g.durable && ReserveCounted(g, limits, key, f, now, fault, rewrite).1 == Fresh
    ensures var h := ReserveCounted(g, limits, key, f, now, fault, rewrite).0;
            var written := g.file.records + [Rec(f, now)];
            if now < g.lastCompactAt + 60 then
              h.file.records == written && h.lastCompactAt == g.lastCompactAt && !h.logFailed
            else if rewrite.RewriteWell? && !g.file.torn then
              (forall r :: r in h.file.records <==> r in written && now <= r.at + limits.window)
              && h.lastCompactAt == now && !h.logFailed
            else h.logFailed
  {
    PersistRecords(g, f, now, fault);
    var r := Reserve(g, limits, f, now, fault).0;
    CompactRecords(r.(counts := r.counts[key := CountOf(r, key) + 1]), limits.window, now, rewrite);
  }

  /**
  What admitting a flight does to the log: a record is added, and sixty seconds after the last
  compaction all but the records of the last window go. A compaction that fails closes the log.
  */
  lemma CompactedWhenDue(g: Guard, limits: Limits, key: KeyId, f: Fingerprint, now: nat, fault: WriteFault, rewrite: RewriteFault)
    requires g.bloom.Valid() && limits.Valid() && g.durable && Admit(g, limits, key, f, now, fault, rewrite).1 == Fresh
    ensures var h := Admit(g, limits, key, f, now, fault, rewrite).0;
            var written := g.file.records + [Rec(f, now)];
            if now < g.lastCompactAt + 60 then
              h.file.records == written && h.lastCompactAt == g.lastCompactAt && !h.logFailed
            else if rewrite.RewriteWell? && !g.file.torn then
              (forall r :: r in h.file.records <==> r in written && now <= r.at + limits.window)
              && h.lastCompactAt == now && !h.logFailed
            else h.logFailed
  {
    CountedRecords(ResetTotal(Looked(RotateCounts(g, limits.window, now), limits, now)), limits, key, f, now, fault, rewrite);
  }

  // ---- what a refused flight leaves ----

  /** The append may have left something on disk that cannot be taken back. */
  predicate Uncertain(g: Guard, fault: WriteFault) {
    g.durable && ((fault.CannotWrite? && !fault.restored) || (fault.CannotSyncParent? && !g.file.present))
  }

  /** The log is closed exactly when it was, or `closes`; while it is open no record came or went. */
  ghost predicate LeavesLog(g: Guard, h: Guard, closes: bool) {
    (h.logFailed <==> g.logFailed || closes)
    && (!h.logFailed ==> h.file.records == g.file.records && h.file.torn == g.file.torn)
  }

  lemma ReserveLeaves(g: Guard, limits: Limits, f: Fingerprint, now: nat, fault: WriteFault)
    requires g.bloom.Valid()
    ensures var (h, verdict) := Reserve(g, limits, f, now, fault);
            verdict != Fresh ==> LeavesLog(g, h, Uncertain(g, fault))
  {
  }

  lemma CountedLeaves(g: Guard, limits: Limits, key: KeyId, f: Fingerprint, now: nat, fault: WriteFault, rewrite: RewriteFault)
    requires g.bloom.Valid()
    ensures var (h, verdict) := ReserveCounted(g, limits, key, f, now, fault, rewrite);
            verdict == Fresh || (verdict == Unavailable && LeavesLog(g, h, Uncertain(g, fault)))
  {
    ReserveLeaves(g, limits, f, now, fault);
  }

  lemma SameLog(g: Guard, limits: Limits, now: nat)
    requires g.bloom.Valid()
    ensures var h := ResetTotal(Looked(RotateCounts(g, limits.window, now), limits, now));
            h.file == g.file && h.logFailed == g.logFailed && h.durable == g.durable
  {
  }

  /** A flight that is not admitted closes the log exactly when its append was made and is uncertain. */
  lemma AdmitLeaves(g: Guard, limits: Limits, key: KeyId, f: Fingerprint, now: nat, fault: WriteFault, rewrite: RewriteFault)
    requires g.bloom.Valid() && limits.Valid()
    ensures var (h, verdict) := Admit(g, limits, key, f, now, fault, rewrite);
            verdict != Fresh ==> LeavesLog(g, h, verdict == Unavailable && Uncertain(g, fault))
  {
    SameLog(g, limits, now);
    var looked := Looked(RotateCounts(g, limits.window, now), limits, now);
    var h := ResetTotal(looked);
    if Found(g.bloom, limits.window, f, now) {
      assert Admit(g, limits, key, f, now, fault, rewrite) == (looked, Replayed);
    } else if CountOf(h, key) >= limits.perKey || h.total >= limits.total {
      assert Admit(g, limits, key, f, now, fault, rewrite) == (h, Limited);
    } else {
      assert Admit(g, limits, key, f, now, fault, rewrite) == ReserveCounted(h, limits, key, f, now, fault, rewrite);
      CountedLeaves(h, limits, key, f, now, fault, rewrite);
    }
  }
}
