/**
The write-ahead log on bytes: each record is a four-byte length and a sealed blob.

Reading back is exact; a log cut anywhere reads as a prefix that ends on a record, or fails;
and an append that reports itself retryable left the log as it was, so that until the store
closes the log is exactly the records acknowledged.
*/
module WalFraming {
  import opened Wrappers
  import opened Sealing

  const RECORD_LIMIT: nat := 0x10_0000   // 1 MiB

  datatype Failure = TruncatedLength | TooLong | TruncatedRecord | NotAuthentic

  function Frame(blob: Bytes): Bytes
    requires |blob| < U32
  {
    BigEndian(|blob|, 4) + blob
  }

  /** Blobs an append can frame: their length fits in four bytes. */
  ghost predicate Framable(blobs: seq<Bytes>) {
    forall i | 0 <= i < |blobs| :: |blobs[i]| < U32
  }

  function Log(blobs: seq<Bytes>): Bytes
    requires Framable(blobs)
  {
    if blobs == [] then [] else Frame(blobs[0]) + Log(blobs[1..])
  }

  // ---- reading ----

  /** The record at the front of `bytes`, and what follows it. */
  function ReadOne<T>(vault: Vault<T>, bytes: Bytes): (r: Result<(T, nat), Failure>)
    requires bytes != []
    ensures r.Ok? ==> 4 <= r.value.1 <= |bytes|
  {
    if |bytes| < 4 then Err(TruncatedLength)
    else
      var length := FromBigEndian(bytes, 4);
      if length > RECORD_LIMIT then Err(TooLong)
      else if |bytes| < 4 + length then Err(TruncatedRecord)
      else
        match Open(vault, bytes[4..4 + length])
        case Some(record) => Ok((record, 4 + length))
        case None => Err(NotAuthentic)
  }

  function Followed<T>(records: seq<T>, rest: Result<seq<T>, Failure>): Result<seq<T>, Failure> {
    match rest
    case Ok(more) => Ok(records + more)
    case Err(e) => Err(e)
  }

  function Read<T>(vault: Vault<T>, bytes: Bytes): Result<seq<T>, Failure>
    decreases |bytes|
  {
    if bytes == [] then Ok([])
    else
      match ReadOne(vault, bytes)
      case Err(e) => Err(e)
      case Ok((record, n)) => Followed([record], Read(vault, bytes[n..]))
  }

  /** The read loop over a moving position. */
  method ReadLog<T>(vault: Vault<T>, bytes: Bytes) returns (r: Result<seq<T>, Failure>)
    ensures r == Read(vault, bytes)
  {
    FollowedNone(Read(vault, bytes));
    var records := [];
    var at := 0;
    assert bytes[0..] == bytes;
    while at < |bytes|
      invariant at <= |bytes|
      invariant Read(vault, bytes) == Followed(records, Read(vault, bytes[at..]))
    {
      var one := ReadOne(vault, bytes[at..]);
      if one.Err? {
        return Err(one.reason);
      }
      assert bytes[at..][one.value.1..] == bytes[at + one.value.1..];
      FollowedMore(records, one.value.0, Read(vault, bytes[at + one.value.1..]));
      records, at := records + [one.value.0], at + one.value.1;
    }
    assert bytes[at..] == [] && records + [] == records;
    return Ok(records);
  }

  lemma FollowedMore<T>(records: seq<T>, record: T, rest: Result<seq<T>, Failure>)
    ensures Followed(records, Followed([record], rest)) == Followed(records + [record], rest)
  {
    if rest.Ok? {
      assert records + ([record] + rest.value) == records + [record] + rest.value;
    }
  }

  lemma FollowedNone<T>(rest: Result<seq<T>, Failure>)
    ensures Followed([], rest) == rest
  {
    if rest.Ok? {
      assert [] + rest.value == rest.value;
    }
  }

  // ---- what a log reads as ----

  ghost predicate Made<T>(vault: Vault<T>, blobs: seq<Bytes>) {
    forall i | 0 <= i < |blobs| :: blobs[i] in vault
  }

  ghost predicate Short(blobs: seq<Bytes>) {
    forall i | 0 <= i < |blobs| :: |blobs[i]| <= RECORD_LIMIT
  }

  ghost function Records<T>(vault: Vault<T>, blobs: seq<Bytes>): seq<T>
    requires Made(vault, blobs)
  {
    seq(|blobs|, i requires 0 <= i < |blobs| => vault[blobs[i]])
  }

  lemma MadeTail<T>(vault: Vault<T>, blobs: seq<Bytes>)
    requires blobs != [] && Framable(blobs) && Made(vault, blobs)
    ensures Framable(blobs[1..]) && Made(vault, blobs[1..]) && |blobs[0]| < U32 && blobs[0] in vault
    ensures Short(blobs) <==> |blobs[0]| <= RECORD_LIMIT && Short(blobs[1..])
    ensures Records(vault, blobs) == [vault[blobs[0]]] + Records(vault, blobs[1..])
    ensures Log(blobs) == Frame(blobs[0]) + Log(blobs[1..])
  {
    assert blobs == [blobs[0]] + blobs[1..];
  }

  /** A frame at the front reads as its record, exactly when it is within the limit. */
  lemma FrameReads<T>(vault: Vault<T>, blob: Bytes, rest: Bytes)
    requires |blob| < U32 && blob in vault
    ensures ReadOne(vault, Frame(blob) + rest) == if |blob| <= RECORD_LIMIT then Ok((vault[blob], 4 + |blob|)) else Err(TooLong)
    ensures (Frame(blob) + rest)[4 + |blob|..] == rest
  {
    var bytes := Frame(blob) + rest;
    Ranges();
    NumberRoundTrip(|blob|, 4, blob + rest);
    assert bytes == BigEndian(|blob|, 4) + (blob + rest);
    assert bytes[4..4 + |blob|] == blob;
  }

  /** A frame cut short fails. */
  lemma CutFrameFails<T>(vault: Vault<T>, blob: Bytes, n: nat)
    requires |blob| < U32 && 0 < n < |Frame(blob)|
    ensures ReadOne(vault, Frame(blob)[..n]).Err?
  {
    if n >= 4 {
      Ranges();
      NumberRoundTrip(|blob|, 4, blob[..n - 4]);
      assert Frame(blob)[..n] == BigEndian(|blob|, 4) + blob[..n - 4];
    }
  }

  lemma ReadFramed<T>(vault: Vault<T>, blob: Bytes, rest: Bytes)
    requires |blob| <= RECORD_LIMIT && blob in vault
    ensures Read(vault, Frame(blob) + rest) == Followed([vault[blob]], Read(vault, rest))
  {
    FrameReads(vault, blob, rest);
  }

  lemma FollowedTwice<T>(first: T, records: seq<T>, rest: Result<seq<T>, Failure>)
    ensures Followed([first], Followed(records, rest)) == Followed([first] + records, rest)
  {
    if rest.Ok? {
      assert [first] + (records + rest.value) == [first] + records + rest.value;
    }
  }

  /** The records at the front of a log read first, whatever follows them. */
  lemma {:induction false} FrontReads<T>(vault: Vault<T>, blobs: seq<Bytes>, rest: Bytes)
    requires Framable(blobs) && Made(vault, blobs) && Short(blobs)
    ensures Read(vault, Log(blobs) + rest) == Followed(Records(vault, blobs), Read(vault, rest))
  {
    if blobs == [] {
      assert [] + rest == rest && Records(vault, blobs) == [];
      FollowedNone(Read(vault, rest));
    } else {
      MadeTail(vault, blobs);
      FirstReads(vault, blobs, rest);
      FrontReads(vault, blobs[1..], rest);
      FollowedTwice(vault[blobs[0]], Records(vault, blobs[1..]), Read(vault, rest));
    }
  }

  lemma FirstReads<T>(vault: Vault<T>, blobs: seq<Bytes>, rest: Bytes)
    requires blobs != [] && Framable(blobs) && |blobs[0]| <= RECORD_LIMIT && blobs[0] in vault
    ensures Framable(blobs[1..]) && Read(vault, Log(blobs) + rest) == Followed([vault[blobs[0]]], Read(vault, Log(blobs[1..]) + rest))
  {
    ReadFramed(vault, blobs[0], Log(blobs[1..]) + rest);
    assert Log(blobs) + rest == Frame(blobs[0]) + (Log(blobs[1..]) + rest);
  }

  /**
  Reading the log returns its records in order. The reader's limit is the hypothesis: it
  takes a log exactly when each sealed record is within it.
  */
  lemma {:induction false} LogReads<T>(vault: Vault<T>, blobs: seq<Bytes>)
    requires Framable(blobs) && Made(vault, blobs)
    ensures Read(vault, Log(blobs)).Ok? <==> Short(blobs)
    ensures Short(blobs) ==> Read(vault, Log(blobs)) == Ok(Records(vault, blobs))
  {
    if blobs != [] {
      MadeTail(vault, blobs);
      LogReads(vault, blobs[1..]);
      FrameReads(vault, blobs[0], Log(blobs[1..]));
    } else {
      assert Records(vault, blobs) == [];
    }
  }

  /** How many whole records the first `n` bytes hold. */
  function Whole(blobs: seq<Bytes>, n: nat): (k: nat)
    requires Framable(blobs) && n <= |Log(blobs)|
    ensures k <= |blobs|
  {
    if blobs == [] || n < |Frame(blobs[0])| then 0 else 1 + Whole(blobs[1..], n - |Frame(blobs[0])|)
  }

  /** `Whole` counts the records that end by `n`, and no more. */
  lemma {:induction false} WholeBounds(blobs: seq<Bytes>, n: nat)
    requires Framable(blobs) && n <= |Log(blobs)|
    ensures var k := Whole(blobs, n);
            Framable(blobs[..k]) && |Log(blobs[..k])| <= n
            && (k < |blobs| ==> Framable(blobs[..k + 1]) && n < |Log(blobs[..k + 1])|)
  {
    var k := Whole(blobs, n);
    if blobs == [] {
    } else if n < |Frame(blobs[0])| {
      assert blobs[..1][0] == blobs[0];
    } else {
      WholeBounds(blobs[1..], n - |Frame(blobs[0])|);
      assert blobs[..k][1..] == blobs[1..][..k - 1];
      if k < |blobs| {
        assert blobs[..k + 1][1..] == blobs[1..][..k];
      }
    }
  }

  lemma {:induction false} LogSplits(blobs: seq<Bytes>, k: nat)
    requires Framable(blobs) && k <= |blobs|
    ensures Framable(blobs[..k]) && Framable(blobs[k..]) && Log(blobs) == Log(blobs[..k]) + Log(blobs[k..])
  {
    if k == 0 {
      assert blobs[..0] == [] && blobs[0..] == blobs;
    } else {
      LogSplits(blobs[1..], k - 1);
      assert blobs[..k][1..] == blobs[1..][..k - 1] && blobs[k..] == blobs[1..][k - 1..] && blobs[..k][0] == blobs[0];
    }
  }

  /** The first `n` bytes are the records before the cut, and part of the one it falls in. */
  lemma CutSplits(blobs: seq<Bytes>, n: nat)
    requires Framable(blobs) && n <= |Log(blobs)|
    ensures var k := Whole(blobs, n);
            Framable(blobs[..k]) && |Log(blobs[..k])| <= n
            && (n > |Log(blobs[..k])| ==> k < |blobs| && n - |Log(blobs[..k])| < |Frame(blobs[k])|)
            && Log(blobs)[..n] == Log(blobs[..k]) + if n == |Log(blobs[..k])| then [] else Frame(blobs[k])[..n - |Log(blobs[..k])|]
  {
    var k := Whole(blobs, n);
    WholeBounds(blobs, n);
    LogSplits(blobs, k);
    if k < |blobs| {
      CutLast(blobs, k);
      assert blobs[k..][0] == blobs[k];
    } else {
      assert blobs[..k] == blobs;
    }
  }

  /**
  A log cut anywhere reads as the records before the cut when it falls between two of them,
  and fails when it falls inside one. It never reads as anything else.
  */
  lemma CutReads<T>(vault: Vault<T>, blobs: seq<Bytes>, n: nat)
    requires Framable(blobs) && Made(vault, blobs) && Short(blobs) && n <= |Log(blobs)|
    ensures var k := Whole(blobs, n);
            var cut := Read(vault, Log(blobs)[..n]);
            Framable(blobs[..k]) && if n == |Log(blobs[..k])| then cut == Ok(Records(vault, blobs)[..k]) else cut.Err?
  {
    var k := Whole(blobs, n);
    CutSplits(blobs, n);
    RecordsFront(vault, blobs, k);
    if n == |Log(blobs[..k])| {
      FrontReads(vault, blobs[..k], []);
      FollowedEnd(Records(vault, blobs[..k]));
    } else {
      var m := n - |Log(blobs[..k])|;
      FrontReads(vault, blobs[..k], Frame(blobs[k])[..m]);
      CutFrameFails(vault, blobs[k], m);
    }
  }

  lemma RecordsFront<T>(vault: Vault<T>, blobs: seq<Bytes>, k: nat)
    requires Made(vault, blobs) && k <= |blobs|
    ensures Made(vault, blobs[..k]) && Records(vault, blobs[..k]) == Records(vault, blobs)[..k]
  {
  }

  lemma FollowedEnd<T>(records: seq<T>)
    ensures Followed(records, Ok([])) == Ok(records)
  {
    assert records + [] == records;
  }

  lemma CutLast(blobs: seq<Bytes>, k: nat)
    requires Framable(blobs) && k < |blobs|
    ensures Framable(blobs[..k]) && Framable(blobs[..k + 1]) && |Log(blobs[..k + 1])| == |Log(blobs[..k])| + |Frame(blobs[k])|
  {
    LogSnoc(blobs[..k], blobs[k]);
    assert blobs[..k + 1] == blobs[..k] + [blobs[k]];
  }

  /** Whatever bytes are read, every record that comes out was sealed. */
  lemma {:induction false} OnlyMadeRecords<T>(vault: Vault<T>, bytes: Bytes)
    ensures Read(vault, bytes).Ok? ==> forall r | r in Read(vault, bytes).value :: exists blob :: blob in vault && vault[blob] == r
    decreases |bytes|
  {
    if bytes != [] && ReadOne(vault, bytes).Ok? {
      var n := ReadOne(vault, bytes).value.1;
      OnlyMadeRecords(vault, bytes[n..]);
      assert bytes[4..n] in vault;
    }
  }

  // ---- appending ----

  /** Where an append fails; `CannotWrite` keeps some of the frame and may restore the length. */
  datatype Fault = NoFault | CannotOpen | CannotSecure | CannotInspect | CannotWrite(kept: nat, restored: bool) | CannotSyncParent

  datatype Outcome = Appended | Failed(retryable: bool)

  /** One append, as a function of the file. */
  function AfterAppend(bytes: Bytes, created: bool, blob: Bytes, fault: Fault): (Bytes, Outcome)
    requires |blob| < U32
  {
    match fault
    case NoFault => (bytes + Frame(blob), Appended)
    case CannotOpen => (bytes, Failed(true))
    case CannotSecure => (bytes, Failed(false))
    case CannotInspect => (bytes, Failed(true))
    case CannotWrite(kept, restored) =>
      if restored then (bytes, Failed(true))
      else (bytes + (if kept < |Frame(blob)| then Frame(blob)[..kept] else Frame(blob)), Failed(false))
    case CannotSyncParent => (bytes + Frame(blob), if created then Failed(false) else Appended)
  }

  /** The log file with the store's safe mode. */
  class WalFile {
    var present: bool
    var bytes: Bytes
    var safeMode: bool
    /** The records acknowledged before the store closed, and the one whose append closed it. */
    ghost var acknowledged: seq<Bytes>
    ghost var uncertain: Option<Bytes>

    ghost predicate Valid()
      reads this
    {
      Framable(acknowledged) && (safeMode <==> uncertain.Some?)
      && Log(acknowledged) <= bytes && (!safeMode ==> bytes == Log(acknowledged))
    }

    constructor ()
      ensures Valid() && !safeMode && !present && bytes == [] && acknowledged == []
    {
      present, bytes, safeMode, acknowledged, uncertain := false, [], false, [], None;
    }

    /**
    `append_wal` and `fail_closed_on_uncertain_wal`: a retryable failure leaves the log as
    it was, and any other closes the store. Audit records and replay claims are appended to a
    closed store too; what was acknowledged before stays at the front of the log.
    */
    method Append(blob: Bytes, fault: Fault) returns (outcome: Outcome)
      requires Valid() && |blob| < U32
      modifies this
      ensures Valid() && old(bytes) <= bytes
      ensures (bytes, outcome) == AfterAppend(old(bytes), !old(present), blob, fault)
      ensures outcome == Appended <==> fault.NoFault? || (fault.CannotSyncParent? && old(present))
      ensures outcome == Failed(true) <==> fault.CannotOpen? || fault.CannotInspect? || (fault.CannotWrite? && fault.restored)
      ensures outcome == Appended ==> bytes == old(bytes) + Frame(blob)
      ensures outcome == Failed(true) ==> bytes == old(bytes) && acknowledged == old(acknowledged) && safeMode == old(safeMode)
      ensures outcome == Appended && !old(safeMode) ==> acknowledged == old(acknowledged) + [blob] && !safeMode
      ensures outcome == Failed(false) && !old(safeMode) ==>
                acknowledged == old(acknowledged) && uncertain == Some(blob) && bytes <= Log(acknowledged) + Frame(blob)
      ensures old(safeMode) ==> safeMode && acknowledged == old(acknowledged) && uncertain == old(uncertain)
      ensures outcome == Failed(false) ==> safeMode
    {
      LogSnoc(acknowledged, blob);
      var created := !present;
      if fault.CannotOpen? {
        return Failed(true);
      }
      present := true;
      if fault.CannotSecure? {
        Close(blob);
        return Failed(false);
      }
      if fault.CannotInspect? {
        return Failed(true);
      }
      var start := |bytes|;
      if fault.CannotWrite? {
        bytes := bytes + if fault.kept < |Frame(blob)| then Frame(blob)[..fault.kept] else Frame(blob);
        if fault.restored {
          bytes := bytes[..start];
          return Failed(true);
        }
        Close(blob);
        return Failed(false);
      }
      bytes := bytes + Frame(blob);
      if created && fault.CannotSyncParent? {
        Close(blob);
        return Failed(false);
      }
      if !safeMode {
        acknowledged := acknowledged + [blob];
      }
      return Appended;
    }

    method Close(blob: Bytes)
      modifies this`safeMode, this`uncertain
      ensures safeMode && uncertain == if old(safeMode) then old(uncertain) else Some(blob)
    {
      if !safeMode {
        safeMode, uncertain := true, Some(blob);
      }
    }
  }

  lemma LogSnoc(blobs: seq<Bytes>, blob: Bytes)
    requires Framable(blobs) && |blob| < U32
    ensures Framable(blobs + [blob]) && Log(blobs + [blob]) == Log(blobs) + Frame(blob)
  {
    var all := blobs + [blob];
    assert Framable(all);
    LogSplits(all, |blobs|);
    assert all[..|blobs|] == blobs && all[|blobs|..] == [blob];
    assert [blob][1..] == [] && Log([blob]) == Frame(blob) + [];
  }

  /** Once closed, however much is appended, a start reads everything acknowledged before or refuses the log. */
  lemma ClosedReads<T>(vault: Vault<T>, acknowledged: seq<Bytes>, bytes: Bytes)
    requires Framable(acknowledged) && Made(vault, acknowledged) && Short(acknowledged) && Log(acknowledged) <= bytes
    ensures Read(vault, bytes).Ok? ==> Records(vault, acknowledged) <= Read(vault, bytes).value
  {
    FrontReads(vault, acknowledged, bytes[|Log(acknowledged)|..]);
    assert bytes == Log(acknowledged) + bytes[|Log(acknowledged)|..];
  }

  /**
  After an uncertain append the next start reads every acknowledged record, possibly with
  the uncertain one after them, or refuses the log.
  */
  lemma UncertainReads<T>(vault: Vault<T>, acknowledged: seq<Bytes>, blob: Bytes, bytes: Bytes)
    requires Framable(acknowledged) && |blob| <= RECORD_LIMIT && Made(vault, acknowledged + [blob]) && Short(acknowledged)
    requires Log(acknowledged) <= bytes <= Log(acknowledged) + Frame(blob)
    ensures Made(vault, acknowledged)
    ensures Read(vault, bytes) == Ok(Records(vault, acknowledged)) || Read(vault, bytes) == Ok(Records(vault, acknowledged + [blob]))
            || Read(vault, bytes).Err?
  {
    var all := acknowledged + [blob];
    LogSnoc(acknowledged, blob);
    assert forall i | 0 <= i < |acknowledged| :: acknowledged[i] == all[i];
    var n := |bytes|;
    assert bytes == Log(all)[..n];
    CutReads(vault, all, n);
    WholeBounds(all, n);
    var k := Whole(all, n);
    assert all[..|acknowledged|] == acknowledged;
    if k < |acknowledged| {
      LogGrows(all, k + 1, |acknowledged|);
      assert false;
    }
    assert k == |acknowledged| ==> Records(vault, all)[..k] == Records(vault, acknowledged);
    assert k == |all| ==> Records(vault, all)[..k] == Records(vault, all);
  }

  lemma {:induction false} LogGrows(blobs: seq<Bytes>, i: nat, j: nat)
    requires Framable(blobs) && i <= j <= |blobs|
    ensures |Log(blobs[..i])| <= |Log(blobs[..j])|
  {
    if i > 0 {
      LogGrows(blobs[1..], i - 1, j - 1);
      assert blobs[..i][1..] == blobs[1..][..i - 1] && blobs[..j][1..] == blobs[1..][..j - 1];
    }
  }
}
