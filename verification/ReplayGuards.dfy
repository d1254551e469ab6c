/**
Duplicate admission of first flights: the rotating filter, per-key and total budgets, and a
durable log that survives compaction and restarts.

Whatever writes fail, a fingerprint admitted at `t` is not admitted again in `(t, t + W]`,
across any number of restarts, except at `t + W` itself after a restart at `t`.
*/
module ReplayGuards {
  import opened Blooms

  type KeyId = nat

  const COMPACT_INTERVAL: nat := 60

  datatype Rec = Rec(f: Fingerprint, at: nat)

  /** The log: whole records, and whether a partial one trails them. */
  datatype LogFile = LogFile(present: bool, records: seq<Rec>, torn: bool)

  datatype Limits = Limits(bits: nat, window: nat, perKey: nat, total: nat) {
    ghost predicate Valid() {
      bits > 0 && window > 0
    }
  }

  datatype Guard = Guard(bloom: Bloom, counts: map<KeyId, nat>, countsStartedAt: nat, total: nat, totalStartedAt: nat,
                         durable: bool, file: LogFile, lastCompactAt: nat, logFailed: bool)

  datatype Verdict = Fresh | Replayed | Limited | Unavailable

  /** What a failed append leaves behind when it cannot be rolled back. */
  datatype Left = Nothing | Part | Whole

  datatype WriteFault = WriteWell | CannotOpen | CannotWrite(left: Left, restored: bool) | CannotSyncParent

  datatype RewriteFault = RewriteWell | CannotRead | CannotReplace | CannotSyncDirectory

  function Since(now: nat, then_: nat): nat {
    if now < then_ then 0 else now - then_
  }

  // ---- the log ----

  function Persist(g: Guard, f: Fingerprint, now: nat, fault: WriteFault): (Guard, bool) {
    if g.logFailed then (g, false)
    else if !g.durable then (g, true)
    else
      var file := g.file.(present := true);
      var whole := file.(records := file.records + [Rec(f, now)]);
      match fault
      case CannotOpen => (g, false)
      case CannotWrite(_, true) => (g.(file := file), false)
      case CannotWrite(left, false) =>
        (g.(file := match left case Nothing => file case Part => file.(torn := true) case Whole => whole, logFailed := true), false)
      case CannotSyncParent => if !g.file.present then (g.(file := whole, logFailed := true), false) else (g.(file := whole), true)
      case WriteWell => (g.(file := whole), true)
  }

  function Live(records: seq<Rec>, window: nat, now: nat): (live: seq<Rec>)
    ensures forall r :: r in live <==> r in records && Since(now, r.at) <= window
  {
    if records == [] then []
    else
      var n := |records| - 1;
      Live(records[..n], window, now) + if Since(now, records[n].at) <= window then [records[n]] else []
  }

  /** Replacing the log with its live records; an error after the replacement still closes it. */
  function Rewrite(g: Guard, live: seq<Rec>, now: nat, fault: RewriteFault): Guard {
    match fault
    case CannotRead | CannotReplace => g.(logFailed := true)
    case CannotSyncDirectory => g.(file := LogFile(true, live, false), logFailed := true)
    case RewriteWell => g.(file := LogFile(true, live, false), lastCompactAt := now)
  }

  function Compact(g: Guard, window: nat, now: nat, fault: RewriteFault): Guard {
    if !g.durable then g.(lastCompactAt := now)
    else if fault.CannotRead? || g.file.torn then g.(logFailed := true)
    else Rewrite(g, Live(g.file.records, window, now), now, fault)
  }

  // ---- admission ----

  function ResetTotal(g: Guard): Guard {
    if g.bloom.startedAt != g.totalStartedAt then g.(total := 0, totalStartedAt := g.bloom.startedAt) else g
  }

  function RotateCounts(g: Guard, window: nat, now: nat): Guard {
    if Since(now, g.countsStartedAt) < window then g else g.(counts := map[], countsStartedAt := now)
  }

  function CountOf(g: Guard, key: KeyId): nat {
    if key in g.counts then g.counts[key] else 0
  }

  function Reserve(g: Guard, limits: Limits, f: Fingerprint, now: nat, fault: WriteFault): (Guard, Verdict)
    requires g.bloom.Valid()
  {
    var (p, ok) := Persist(g, f, now, fault);
    if !ok then (p, Unavailable)
    else (p.(bloom := Added(g.bloom, limits.window, f, now), total := p.total + 1), Fresh)
  }

  function Looked(g: Guard, limits: Limits, now: nat): Guard {
    g.(bloom := Rotated(g.bloom, limits.window, now))
  }

  /** Reserving, counting it against its key, and compacting the log when that is due. */
  function ReserveCounted(g: Guard, limits: Limits, key: KeyId, f: Fingerprint, now: nat, fault: WriteFault, rewrite: RewriteFault): (Guard, Verdict)
    requires g.bloom.Valid()
  {
    var (r, verdict) := Reserve(g, limits, f, now, fault);
    if verdict != Fresh then (r, verdict)
    else
      var counted := r.(counts := r.counts[key := CountOf(r, key) + 1]);
      (if Since(now, counted.lastCompactAt) >= COMPACT_INTERVAL then Compact(counted, limits.window, now, rewrite) else counted, Fresh)
  }

  function Admit(g: Guard, limits: Limits, key: KeyId, f: Fingerprint, now: nat, fault: WriteFault, rewrite: RewriteFault): (Guard, Verdict)
    requires g.bloom.Valid() && limits.Valid()
  {
    var looked := Looked(RotateCounts(g, limits.window, now), limits, now);
    if Found(g.bloom, limits.window, f, now) then (looked, Replayed)
    else
      var h := ResetTotal(looked);
      if CountOf(h, key) >= limits.perKey || h.total >= limits.total then (h, Limited)
      else ReserveCounted(h, limits, key, f, now, fault, rewrite)
  }

  function Claim(g: Guard, limits: Limits, f: Fingerprint, now: nat, fault: WriteFault): (Guard, Verdict)
    requires g.bloom.Valid() && limits.Valid()
  {
    var looked := Looked(g, limits, now);
    if Found(g.bloom, limits.window, f, now) then (looked, Replayed)
    else
      var h := ResetTotal(looked);
      if h.total >= limits.total then (h, Unavailable) else Reserve(h, limits, f, now, fault)
  }

  // ---- opening ----

  function Empty(limits: Limits, durable: bool, file: LogFile, now: nat): Guard {
    Guard(Bloom(Zeros(limits.bits), Zeros(limits.bits), now), map[], now, 0, now, durable, file, now, false)
  }

  function AddAll(b: Bloom, window: nat, live: seq<Rec>): (r: Bloom)
    requires b.Valid()
    ensures r.Valid()
  {
    if live == [] then b
    else
      var n := |live| - 1;
      Added(AddAll(b, window, live[..n]), window, live[n].f, live[n].at)
  }

  function Oldest(live: seq<Rec>): (t: nat)
    requires live != []
    ensures forall r | r in live :: t <= r.at
    ensures exists r :: r in live && r.at == t
  {
    var n := |live| - 1;
    if n == 0 then live[0].at
    else
      assert live == live[..n] + [live[n]];
      var before := Oldest(live[..n]);
      if live[n].at < before then live[n].at else before
  }

  function Opened(limits: Limits, durable: bool, file: LogFile, now: nat, fault: RewriteFault): Guard
    requires limits.Valid()
  {
    var g := Empty(limits, durable, file, now);
    if !durable || !file.present then g
    else if fault.CannotRead? || file.torn then g.(logFailed := true)
    else
      var live := Live(file.records, limits.window, now);
      var added := AddAll(g.bloom, limits.window, live);
      var bloom := if live == [] then added else added.(startedAt := Oldest(live));
      var total := if |live| < limits.total then |live| else limits.total;
      Rewrite(g.(bloom := bloom, total := total, totalStartedAt := bloom.startedAt), live, now, fault)
  }

  // ---- runs ----

  datatype Call =
    | AdmitCall(key: KeyId, f: Fingerprint, now: nat, fault: WriteFault, rewrite: RewriteFault)
    | ClaimCall(f: Fingerprint, now: nat, fault: WriteFault)
    | Reopen(now: nat, rewrite: RewriteFault)

  function Step(g: Guard, limits: Limits, call: Call): (Guard, Verdict)
    requires g.bloom.Valid() && limits.Valid()
  {
    match call
    case AdmitCall(key, f, now, fault, rewrite) => Admit(g, limits, key, f, now, fault, rewrite)
    case ClaimCall(f, now, fault) => Claim(g, limits, f, now, fault)
    case Reopen(now, rewrite) => (Opened(limits, g.durable, g.file, now, rewrite), Unavailable)
  }

  /** Nothing in the filter or the log is ahead of the clock, and a torn log is never written. */
  ghost predicate Timely(g: Guard, clock: nat) {
    g.bloom.Valid() && g.bloom.startedAt <= clock
    && (g.durable && g.file.torn ==> g.logFailed)
    && (!g.durable ==> !g.logFailed)
    && (forall r | r in g.file.records :: r.at <= clock)
    && (g.file.records != [] || g.file.torn ==> g.file.present)
  }

  /** `f`, admitted at `t`, is remembered up to `until`: by the filter, or because nothing is admitted. */
  ghost predicate Remembers(g: Guard, limits: Limits, f: Fingerprint, t: nat, until: nat) {
    (g.logFailed || Covers(g.bloom, limits.window, f, until))
    && (g.durable ==> g.file.torn || Rec(f, t) in g.file.records)
  }

  // ---- what one call does ----

  /** The log loses no live record and gains at most the one being admitted. */
  ghost predicate LogMoves(g: Guard, h: Guard, window: nat, now: nat, x: Fingerprint) {
    h.durable == g.durable && (g.logFailed ==> h.logFailed)
    && (forall r | r in g.file.records && Since(now, r.at) <= window :: r in h.file.records)
    && (forall r | r in h.file.records :: r in g.file.records || r == Rec(x, now))
    && (g.file.torn ==> h.file.torn) && (h.file.torn ==> g.file.torn || h.logFailed)
    && (!h.durable ==> h.file == g.file && h.logFailed == g.logFailed)
    && (g.file.present ==> h.file.present) && (h.file.present || h.file == g.file)
  }

  lemma PersistMoves(g: Guard, window: nat, f: Fingerprint, now: nat, fault: WriteFault)
    ensures var (h, ok) := Persist(g, f, now, fault);
            LogMoves(g, h, window, now, f) && h.bloom == g.bloom
            && (ok ==> !g.logFailed && h.logFailed == g.logFailed && (g.durable ==> Rec(f, now) in h.file.records))
  {
  }

  lemma CompactMoves(g: Guard, window: nat, now: nat, fault: RewriteFault, x: Fingerprint)
    ensures LogMoves(g, Compact(g, window, now, fault), window, now, x)
    ensures Compact(g, window, now, fault).bloom == g.bloom
    ensures forall r | r in g.file.records && Since(now, r.at) <= window :: r in Compact(g, window, now, fault).file.records
  {
  }

  ghost predicate CallMoves(g: Guard, h: Guard, verdict: Verdict, window: nat, x: Fingerprint, now: nat)
    requires g.bloom.Valid()
  {
    var rotated := Rotated(g.bloom, window, now);
    LogMoves(g, h, window, now, x)
    && (h.bloom == rotated || h.bloom == Added(rotated, window, x, now))
    && (verdict == Fresh ==>
          !g.logFailed && !Found(g.bloom, window, x, now) && h.bloom == Added(rotated, window, x, now)
          && (g.durable ==> Rec(x, now) in h.file.records))
  }

  lemma ReserveMoves(g: Guard, limits: Limits, f: Fingerprint, now: nat, fault: WriteFault)
    requires g.bloom.Valid()
    ensures var (h, verdict) := Reserve(g, limits, f, now, fault);
            LogMoves(g, h, limits.window, now, f)
            && (if verdict == Fresh then h.bloom == Added(g.bloom, limits.window, f, now) else h.bloom == g.bloom)
            && (verdict == Fresh ==> !g.logFailed && (g.durable ==> Rec(f, now) in h.file.records))
            && (verdict == Fresh || verdict == Unavailable)
  {
    PersistMoves(g, limits.window, f, now, fault);
  }

  lemma ClaimMoves(g: Guard, limits: Limits, f: Fingerprint, now: nat, fault: WriteFault)
    requires g.bloom.Valid() && limits.Valid()
    ensures var (h, verdict) := Claim(g, limits, f, now, fault);
            CallMoves(g, h, verdict, limits.window, f, now)
  {
    ReserveMoves(ResetTotal(Looked(g, limits, now)), limits, f, now, fault);
  }

  lemma CountedMoves(g: Guard, limits: Limits, key: KeyId, f: Fingerprint, now: nat, fault: WriteFault, rewrite: RewriteFault)
    requires g.bloom.Valid()
    ensures var (h, verdict) := ReserveCounted(g, limits, key, f, now, fault, rewrite);
            LogMoves(g, h, limits.window, now, f)
            && (if verdict == Fresh then h.bloom == Added(g.bloom, limits.window, f, now) else h.bloom == g.bloom)
            && (verdict == Fresh ==> !g.logFailed && (g.durable ==> Rec(f, now) in h.file.records))
  {
    ReserveMoves(g, limits, f, now, fault);
    var (r, verdict) := Reserve(g, limits, f, now, fault);
    if verdict == Fresh {
      CompactMoves(r.(counts := r.counts[key := CountOf(r, key) + 1]), limits.window, now, rewrite, f);
    }
  }

  lemma AdmitMoves(g: Guard, limits: Limits, key: KeyId, f: Fingerprint, now: nat, fault: WriteFault, rewrite: RewriteFault)
    requires g.bloom.Valid() && limits.Valid()
    ensures var (h, verdict) := Admit(g, limits, key, f, now, fault, rewrite);
            CallMoves(g, h, verdict, limits.window, f, now)
  {
    var h := ResetTotal(Looked(RotateCounts(g, limits.window, now), limits, now));
    assert LogMoves(g, h, limits.window, now, f) && h.bloom == Rotated(g.bloom, limits.window, now);
    CountedMoves(h, limits, key, f, now, fault, rewrite);
  }

  lemma StepMoves(g: Guard, limits: Limits, call: Call)
    requires g.bloom.Valid() && limits.Valid() && !call.Reopen?
    ensures CallMoves(g, Step(g, limits, call).0, Step(g, limits, call).1, limits.window, call.f, call.now)
  {
    if call.AdmitCall? {
      AdmitMoves(g, limits, call.key, call.f, call.now, call.fault, call.rewrite);
    } else {
      ClaimMoves(g, limits, call.f, call.now, call.fault);
    }
  }

  lemma StepTimely(g: Guard, limits: Limits, call: Call, clock: nat)
    requires Timely(g, clock) && limits.Valid() && clock <= call.now
    ensures Timely(Step(g, limits, call).0, call.now)
  {
    if call.Reopen? {
      OpenedTimely(g, limits, call.now, call.rewrite, clock);
    } else {
      StepMoves(g, limits, call);
    }
  }

  lemma OpenedTimely(g: Guard, limits: Limits, now: nat, rewrite: RewriteFault, clock: nat)
    requires Timely(g, clock) && limits.Valid() && clock <= now
    ensures Timely(Opened(limits, g.durable, g.file, now, rewrite), now)
  {
    if g.durable && g.file.present && !rewrite.CannotRead? && !g.file.torn {
      var live := Live(g.file.records, limits.window, now);
      AddAllNow(Empty(limits, true, g.file, now).bloom, limits.window, live);
    }
  }

  /** Loading inserts without rotating, since every record is behind the clock. */
  lemma {:induction false} AddAllNow(b: Bloom, window: nat, live: seq<Rec>)
    requires b.Valid() && window > 0 && forall r | r in live :: r.at <= b.startedAt
    ensures var loaded := AddAll(b, window, live);
            loaded.startedAt == b.startedAt && loaded.previous == b.previous
            && forall r | r in live :: Contains(loaded.current, r.f)
  {
    if live != [] {
      var n := |live| - 1;
      AddAllNow(b, window, live[..n]);
      var before := AddAll(b, window, live[..n]);
      assert live == live[..n] + [live[n]];
      forall r | r in live
        ensures Contains(AddAll(b, window, live).current, r.f)
      {
        InsertContains(before.current, live[n].f, r.f);
        InsertContains(before.current, live[n].f, live[n].f);
      }
    }
  }

  /** A fresh verdict is remembered for a full window. */
  lemma FreshRemembered(g: Guard, limits: Limits, call: Call, clock: nat)
    requires Timely(g, clock) && limits.Valid() && clock <= call.now && !call.Reopen?
    requires Step(g, limits, call).1 == Fresh
    ensures Remembers(Step(g, limits, call).0, limits, call.f, call.now, call.now + limits.window)
  {
    StepMoves(g, limits, call);
    AddCovers(Rotated(g.bloom, limits.window, call.now), limits.window, call.f, call.now);
  }

  /** What is remembered stays so through any call, and is never admitted again. */
  lemma StepRemembers(g: Guard, limits: Limits, call: Call, clock: nat, f: Fingerprint, t: nat, until: nat)
    requires Timely(g, clock) && limits.Valid() && clock <= call.now <= until && t <= call.now
    requires Remembers(g, limits, f, t, until) && until <= t + limits.window
    requires call.Reopen? ==> g.durable && (until < t + limits.window || call.now > t)
    ensures Remembers(Step(g, limits, call).0, limits, f, t, until)
    ensures !call.Reopen? && call.f == f ==> Step(g, limits, call).1 != Fresh
  {
    if call.Reopen? {
      OpenedRemembers(g, limits, call.now, call.rewrite, f, t, until);
    } else {
      StepMoves(g, limits, call);
      MovesRemember(g, Step(g, limits, call).0, Step(g, limits, call).1, limits, call.f, call.now, f, t, until);
    }
  }

  lemma MovesRemember(g: Guard, h: Guard, verdict: Verdict, limits: Limits, x: Fingerprint, now: nat, f: Fingerprint, t: nat, until: nat)
    requires g.bloom.Valid() && limits.Valid() && t <= now <= until <= t + limits.window
    requires CallMoves(g, h, verdict, limits.window, x, now) && Remembers(g, limits, f, t, until)
    ensures Remembers(h, limits, f, t, until) && (x == f ==> verdict != Fresh)
  {
    CallKeeps(g, limits, x, now, f, until);
    assert Since(now, Rec(f, t).at) <= limits.window;
  }

  lemma OpenedRemembers(g: Guard, limits: Limits, now: nat, rewrite: RewriteFault, f: Fingerprint, t: nat, until: nat)
    requires limits.Valid() && t <= now <= until <= t + limits.window && g.durable && Remembers(g, limits, f, t, until)
    requires until < t + limits.window || now > t
    requires forall r | r in g.file.records :: r.at <= now
    requires g.file.records != [] || g.file.torn ==> g.file.present
    ensures Remembers(Opened(limits, g.durable, g.file, now, rewrite), limits, f, t, until)
  {
    if !rewrite.CannotRead? && !g.file.torn {
      ReopenCovers(g, limits, now, f, t, until);
    }
  }

  lemma CallKeeps(g: Guard, limits: Limits, x: Fingerprint, now: nat, f: Fingerprint, until: nat)
    requires g.bloom.Valid() && limits.Valid() && now <= until
    ensures Covers(g.bloom, limits.window, f, until) ==>
              var rotated := Rotated(g.bloom, limits.window, now);
              Found(g.bloom, limits.window, f, now) && Covers(rotated, limits.window, f, until)
              && Covers(Added(rotated, limits.window, x, now), limits.window, f, until)
  {
    if Covers(g.bloom, limits.window, f, until) {
      CoveredFound(g.bloom, limits.window, f, until, now);
      RotateCovers(g.bloom, limits.window, f, until, now);
      AddKeeps(Rotated(g.bloom, limits.window, now), limits.window, x, now, f, until);
    }
  }

  lemma ReopenCovers(g: Guard, limits: Limits, now: nat, f: Fingerprint, t: nat, until: nat)
    requires limits.Valid() && t <= now <= until <= t + limits.window && Rec(f, t) in g.file.records
    requires until < t + limits.window || now > t
    requires forall r | r in g.file.records :: r.at <= now
    ensures var live := Live(g.file.records, limits.window, now);
            live != [] && Rec(f, t) in live
            && Covers(AddAll(Empty(limits, true, g.file, now).bloom, limits.window, live).(startedAt := Oldest(live)), limits.window, f, until)
  {
    var live := Live(g.file.records, limits.window, now);
    assert Rec(f, t) in live;
    AddAllNow(Empty(limits, true, g.file, now).bloom, limits.window, live);
    var oldest :| oldest in live && oldest.at == Oldest(live);
  }

  ghost function After(g: Guard, limits: Limits, calls: seq<Call>): (h: Guard)
    requires limits.Valid() && g.bloom.Valid()
    ensures h.bloom.Valid()
  {
    if calls == [] then g
    else
      var before := After(g, limits, calls[..|calls| - 1]);
      StepValid(before, limits, calls[|calls| - 1]);
      Step(before, limits, calls[|calls| - 1]).0
  }

  lemma StepValid(g: Guard, limits: Limits, call: Call)
    requires limits.Valid() && g.bloom.Valid()
    ensures Step(g, limits, call).0.bloom.Valid() && Step(g, limits, call).0.durable == g.durable
  {
    if !call.Reopen? {
      StepMoves(g, limits, call);
    }
  }

  /** Calls in order, starting no earlier than `clock`, none later than `until`. */
  ghost predicate InOrder(calls: seq<Call>, clock: nat, until: nat) {
    (forall i | 0 <= i < |calls| :: clock <= calls[i].now <= until)
    && forall i, j | 0 <= i < j < |calls| :: calls[i].now <= calls[j].now
  }

  /** No call of the run admits `f`. */
  ghost predicate NoneFresh(g: Guard, limits: Limits, calls: seq<Call>, f: Fingerprint)
    requires limits.Valid() && g.bloom.Valid()
  {
    calls == []
    || (var n := |calls| - 1;
        NoneFresh(g, limits, calls[..n], f)
        && (!calls[n].Reopen? && calls[n].f == f ==> Step(After(g, limits, calls[..n]), limits, calls[n]).1 != Fresh))
  }

  lemma {:induction false} RunRemembers(g: Guard, limits: Limits, calls: seq<Call>, clock: nat, f: Fingerprint, t: nat, until: nat)
    requires Timely(g, clock) && limits.Valid() && t <= clock && InOrder(calls, clock, until)
    requires Remembers(g, limits, f, t, until) && until <= t + limits.window
    requires forall i | 0 <= i < |calls| && calls[i].Reopen? :: g.durable && (until < t + limits.window || calls[i].now > t)
    ensures var h := After(g, limits, calls);
            h.durable == g.durable && Remembers(h, limits, f, t, until)
            && Timely(h, if calls == [] then clock else calls[|calls| - 1].now)
    ensures NoneFresh(g, limits, calls, f)
  {
    if calls != [] {
      var n := |calls| - 1;
      assert forall i | 0 <= i < n :: calls[..n][i] == calls[i];
      RunRemembers(g, limits, calls[..n], clock, f, t, until);
      var before := After(g, limits, calls[..n]);
      var at := if n == 0 then clock else calls[n - 1].now;
      StepTimely(before, limits, calls[n], at);
      StepValid(before, limits, calls[n]);
      StepRemembers(before, limits, calls[n], at, f, t, until);
    }
  }

  /**
  No false negative: once a fingerprint is admitted at `t`, no call up to `until` admits it
  again. `until` may be `t + W` itself, unless the process restarts within the very second of
  the admission: then it must be before `t + W`.
  */
  lemma NeverAdmittedTwice(g: Guard, limits: Limits, first: Call, clock: nat, calls: seq<Call>, until: nat)
    requires Timely(g, clock) && limits.Valid() && clock <= first.now && !first.Reopen? && Step(g, limits, first).1 == Fresh
    requires InOrder(calls, first.now, until) && first.now <= until <= first.now + limits.window
    requires forall i | 0 <= i < |calls| && calls[i].Reopen? :: g.durable && (until < first.now + limits.window || calls[i].now > first.now)
    ensures Step(g, limits, first).0.bloom.Valid() && NoneFresh(Step(g, limits, first).0, limits, calls, first.f)
  {
    StepTimely(g, limits, first, clock);
    StepValid(g, limits, first);
    FreshRemembered(g, limits, first, clock);
    var h := Step(g, limits, first).0;
    assert Remembers(h, limits, first.f, first.now, until);
    RunRemembers(h, limits, calls, first.now, first.f, first.now, until);
  }

  lemma OpenedWith(limits: Limits, file: LogFile, f: Fingerprint, t: nat, now: nat)
    requires limits.Valid() && file.present && !file.torn && t <= now <= t + limits.window
    requires Rec(f, t) in file.records && forall r | r in file.records :: r.at <= now
    ensures var g := Opened(limits, true, file, now, RewriteWell);
            var live := Live(file.records, limits.window, now);
            live != [] && Rec(f, t) in live && g.bloom.Valid() && Contains(g.bloom.current, f) && g.bloom.previous == Zeros(limits.bits)
            && |g.bloom.current| == limits.bits && g.bloom.startedAt == g.totalStartedAt == Oldest(live) && !g.logFailed && g.durable
            && Rec(f, t) in g.file.records
  {
    var live := Live(file.records, limits.window, now);
    assert Rec(f, t) in live;
    AddAllNow(Empty(limits, true, file, now).bloom, limits.window, live);
  }

  /**
  Exactly when a restart forgets `t + W`: the restarted guard admits at `t + W` again just when
  a record a whole window older than the admission was still live as it started.
  */
  lemma ForgottenIff(limits: Limits, file: LogFile, f: Fingerprint, t: nat, now: nat)
    requires limits.Valid() && limits.total > 0 && file.present && !file.torn && t <= now <= t + limits.window
    requires Rec(f, t) in file.records && forall r | r in file.records :: r.at <= now
    ensures var g := Opened(limits, true, file, now, RewriteWell);
            var live := Live(file.records, limits.window, now);
            g.bloom.Valid() && live != []
            && (Step(g, limits, ClaimCall(f, t + limits.window, WriteWell)).1 == Fresh <==> Oldest(live) + limits.window <= t)
            && (Covers(g.bloom, limits.window, f, t + limits.window) <==> Oldest(live) + limits.window > t)
  {
    OpenedWith(limits, file, f, t, now);
    var g := Opened(limits, true, file, now, RewriteWell);
    var r := Rotated(g.bloom, limits.window, t + limits.window);
    assert !Zeros(limits.bits)[Position(limits.bits, f.Words()[0])];
  }

  /** Only a restart in the second of the admission can find a record that old still live. */
  lemma ForgottenOnlyAtOnce(limits: Limits, file: LogFile, f: Fingerprint, t: nat, now: nat)
    requires limits.Valid() && t <= now <= t + limits.window && Rec(f, t) in file.records
    ensures Live(file.records, limits.window, now) != []
    ensures Oldest(Live(file.records, limits.window, now)) + limits.window <= t
            <==> now == t && exists r :: r in file.records && r.at + limits.window == t
  {
    var live := Live(file.records, limits.window, now);
    assert Rec(f, t) in live;
    var oldest :| oldest in live && oldest.at == Oldest(live);
    if now == t && exists r :: r in file.records && r.at + limits.window == t {
      var r :| r in file.records && r.at + limits.window == t;
      assert r in live;
    }
  }

  lemma ForgottenWhen(limits: Limits, file: LogFile, f: Fingerprint, t: nat, older: Rec)
    requires limits.Valid() && limits.total > 0 && file.present && !file.torn
    requires Rec(f, t) in file.records && (forall r | r in file.records :: r.at <= t)
    requires older in file.records && older.at + limits.window == t
    ensures var g := Opened(limits, true, file, t, RewriteWell);
            g.bloom.Valid() && Rec(f, t) in g.file.records && Step(g, limits, ClaimCall(f, t + limits.window, WriteWell)).1 == Fresh
  {
    ForgottenOnlyAtOnce(limits, file, f, t, t);
    ForgottenIff(limits, file, f, t, t);
    OpenedWith(limits, file, f, t, t);
  }

  /** Such a log: one record a window old, and one of this second. */
  lemma ForgottenAtTheEdge(limits: Limits, f: Fingerprint, other: Fingerprint, t: nat) returns (file: LogFile)
    requires limits.Valid() && t >= limits.window && limits.total > 0
    ensures file == LogFile(true, [Rec(other, t - limits.window), Rec(f, t)], false)
    ensures var g := Opened(limits, true, file, t, RewriteWell);
            g.bloom.Valid() && Rec(f, t) in g.file.records && Step(g, limits, ClaimCall(f, t + limits.window, WriteWell)).1 == Fresh
  {
    var older, newer := Rec(other, t - limits.window), Rec(f, t);
    file := LogFile(true, [older, newer], false);
    assert older in file.records && newer in file.records;
    ForgottenWhen(limits, file, f, t, older);
  }

  // ---- the guard, in place ----

  class ReplayGuard {
    const limits: Limits
    const bloom: RotatingBloom
    var counts: map<KeyId, nat>
    var countsStartedAt: nat
    var total: nat
    var totalStartedAt: nat
    const durable: bool
    /** The log on disk. */
    var file: LogFile
    var lastCompactAt: nat
    var logFailed: bool

    ghost predicate Valid()
      reads this, bloom
    {
      bloom.Valid() && limits.Valid() && bloom.window == limits.window
    }

    ghost function State(): (g: Guard)
      requires Valid()
      reads this, bloom, bloom.current, bloom.previous
      ensures g.bloom.Valid()
    {
      Guard(bloom.Value(), counts, countsStartedAt, total, totalStartedAt, durable, file, lastCompactAt, logFailed)
    }

    /** Opens the guard and loads what its log still remembers. */
    constructor (limits: Limits, durable: bool, file: LogFile, now: nat, fault: RewriteFault)
      requires limits.Valid()
      ensures Valid() && fresh(bloom) && fresh(bloom.current) && fresh(bloom.previous) && this.limits == limits && this.durable == durable
      ensures State() == Opened(limits, durable, file, now, fault)
    {
      this.limits, this.durable, this.file := limits, durable, file;
      counts, countsStartedAt, total, totalStartedAt, lastCompactAt, logFailed := map[], now, 0, now, now, false;
      var b := new RotatingBloom(limits.bits, limits.window, now);
      if durable && file.present {
        if fault.CannotRead? || file.torn {
          logFailed := true;
        } else {
          var live := Live(file.records, limits.window, now);
          ghost var start := b.Value();
          var i := 0;
          while i < |live|
            invariant i <= |live| && b.Valid() && fresh(b) && fresh(b.current) && fresh(b.previous)
            invariant b.Value() == AddAll(start, limits.window, live[..i])
          {
            assert live[..i + 1][..i] == live[..i];
            b.Insert(live[i].f, live[i].at);
            i := i + 1;
          }
          assert live[..i] == live;
          if live != [] {
            b.startedAt := Oldest(live);
          }
          total := if |live| < limits.total then |live| else limits.total;
          totalStartedAt := b.startedAt;
          logFailed := !fault.RewriteWell?;
          if !fault.CannotReplace? {
            this.file := LogFile(true, live, false);
          }
        }
      }
      bloom := b;
    }

    method ResetTotalIfRotated()
      requires Valid()
      modifies this`total, this`totalStartedAt
      ensures State() == ResetTotal(old(State()))
    {
      if bloom.startedAt != totalStartedAt {
        total, totalStartedAt := 0, bloom.startedAt;
      }
    }

    /** Appends one record durably; a failed append that cannot be rolled back closes the log. */
    method Append(f: Fingerprint, now: nat, fault: WriteFault) returns (ok: bool)
      requires Valid()
      modifies this`file, this`logFailed
      ensures (State(), ok) == Persist(old(State()), f, now, fault)
    {
      if logFailed {
        return false;
      }
      if !durable {
        return true;
      }
      if fault.CannotOpen? {
        return false;
      }
      var created := !file.present;
      file := file.(present := true);
      if fault.CannotWrite? {
        if !fault.restored {
          match fault.left {
            case Nothing =>
            case Part => file := file.(torn := true);
            case Whole => file := file.(records := file.records + [Rec(f, now)]);
          }
          logFailed := true;
        }
        return false;
      }
      file := file.(records := file.records + [Rec(f, now)]);
      if created && fault.CannotSyncParent? {
        logFailed := true;
        return false;
      }
      return true;
    }

    method ReserveIt(f: Fingerprint, now: nat, fault: WriteFault) returns (verdict: Verdict)
      requires Valid()
      modifies this`file, this`logFailed, this`total, bloom, bloom.current, bloom.previous
      ensures Valid() && {bloom.current, bloom.previous} == {old(bloom.current), old(bloom.previous)}
      ensures (State(), verdict) == Reserve(old(State()), limits, f, now, fault)
    {
      var ok := Append(f, now, fault);
      if !ok {
        return Unavailable;
      }
      bloom.Insert(f, now);
      total := total + 1;
      return Fresh;
    }

    method CompactLog(now: nat, fault: RewriteFault)
      requires Valid()
      modifies this`file, this`logFailed, this`lastCompactAt
      ensures State() == Compact(old(State()), limits.window, now, fault)
    {
      if !durable {
        lastCompactAt := now;
        return;
      }
      if fault.CannotRead? || file.torn {
        logFailed := true;
        return;
      }
      var live := Live(file.records, limits.window, now);
      if fault.CannotReplace? {
        logFailed := true;
        return;
      }
      file := LogFile(true, live, false);
      if fault.CannotSyncDirectory? {
        logFailed := true;
      } else {
        lastCompactAt := now;
      }
    }

    method ReserveAndCount(key: KeyId, f: Fingerprint, now: nat, fault: WriteFault, rewrite: RewriteFault) returns (verdict: Verdict)
      requires Valid()
      modifies this, bloom, bloom.current, bloom.previous
      ensures Valid() && {bloom.current, bloom.previous} == {old(bloom.current), old(bloom.previous)}
      ensures (State(), verdict) == ReserveCounted(old(State()), limits, key, f, now, fault, rewrite)
    {
      verdict := ReserveIt(f, now, fault);
      if verdict == Fresh {
        counts := counts[key := (if key in counts then counts[key] else 0) + 1];
        if Since(now, lastCompactAt) >= COMPACT_INTERVAL {
          CompactLog(now, rewrite);
        }
      }
    }

    method AdmitFlight(key: KeyId, f: Fingerprint, now: nat, fault: WriteFault, rewrite: RewriteFault) returns (verdict: Verdict)
      requires Valid()
      modifies this, bloom, bloom.current, bloom.previous
      ensures Valid() && {bloom.current, bloom.previous} == {old(bloom.current), old(bloom.previous)}
      ensures (State(), verdict) == Admit(old(State()), limits, key, f, now, fault, rewrite)
    {
      ghost var g := State();
      if Since(now, countsStartedAt) >= limits.window {
        counts, countsStartedAt := map[], now;
      }
      var found := bloom.Has(f, now);
      assert State() == Looked(RotateCounts(g, limits.window, now), limits, now);
      if found {
        return Replayed;
      }
      ResetTotalIfRotated();
      if (if key in counts then counts[key] else 0) >= limits.perKey || total >= limits.total {
        return Limited;
      }
      verdict := ReserveAndCount(key, f, now, fault, rewrite);
    }

    method ClaimFlight(f: Fingerprint, now: nat, fault: WriteFault) returns (verdict: Verdict)
      requires Valid()
      modifies this, bloom, bloom.current, bloom.previous
      ensures Valid() && {bloom.current, bloom.previous} == {old(bloom.current), old(bloom.previous)}
      ensures (State(), verdict) == Claim(old(State()), limits, f, now, fault)
    {
      var found := bloom.Has(f, now);
      if found {
        return Replayed;
      }
      ResetTotalIfRotated();
      if total >= limits.total {
        return Unavailable;
      }
      verdict := ReserveIt(f, now, fault);
    }
  }
}
