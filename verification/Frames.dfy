/**
Protocol-v2 sessions: a clear routing prefix, then counter-driven sealed frames.

The cipher is ideal: a frame opens only under the session, direction and counter it was
sealed for, and only unaltered. Reading back what a session wrote is exact; reading any
other bytes yields at most the first messages of the session they name; and no direction key
meets one counter twice (the uniqueness requirement of section 8 of NIST SP 800-38D).
*/
module Frames {
  import opened Wrappers
  import opened Sealing

  const TAG: nat := 16
  const INITIAL_LIMIT: nat := 0x1_0000          // 64 KiB
  const MESSAGE_LIMIT: nat := 0x80_0000         // 8 MiB
  const PREFIX: nat := 32
  const MAGIC: Bytes := [0x50, 0x42, 0x4D, 0x32]   // "PBM2"
  const VERSION: Byte := 2

  datatype Direction = ClientToServer | ServerToClient

  /** What both directional keys, and the data bound into every frame, are derived from. */
  datatype Material = Material(keyId: nat, salt: Bytes) {
    predicate Valid() {
      keyId < U64 && |salt| == 16
    }
  }

  /** A directional key; with a counter, what a frame is sealed under. */
  datatype Key = Key(material: Material, direction: Direction)

  datatype Slot = Slot(key: Key, counter: nat)

  datatype Sealed = Sealed(cipher: Bytes, plain: Bytes)

  type Made = map<Slot, Sealed>

  function OpenFrame(made: Made, s: Slot, cipher: Bytes): Option<Bytes> {
    if s in made && made[s].cipher == cipher then Some(made[s].plain) else None
  }

  /** A cipher text is its message plus a tag. */
  ghost predicate WellMade(made: Made) {
    forall s | s in made :: |made[s].cipher| == |made[s].plain| + TAG
  }

  ghost predicate Within(made: Made, limit: nat) {
    forall s | s in made :: |made[s].plain| <= limit
  }

  // ---- frames ----

  function Frame(counter: nat, cipher: Bytes): Bytes
    requires counter < U64 && |cipher| < U32
  {
    BigEndian(counter, 8) + BigEndian(|cipher|, 4) + cipher
  }

  datatype Failure = Truncated | CounterMismatch | LengthRefused | NotAuthentic | PrefixInvalid

  /** `read_v2_frame`: the cipher text of the next frame. */
  function ReadFrame(bytes: Bytes, expected: nat, limit: nat): (r: Result<Bytes, Failure>)
    ensures r.Ok? ==> TAG <= |r.value| <= limit + TAG && 12 + |r.value| <= |bytes|
  {
    if |bytes| < 8 then Err(Truncated)
    else if FromBigEndian(bytes, 8) != expected then Err(CounterMismatch)
    else if |bytes| < 12 then Err(Truncated)
    else
      var length := FromBigEndian(bytes[8..], 4);
      if length < TAG || length > limit + TAG then Err(LengthRefused)
      else if |bytes| < 12 + length then Err(Truncated)
      else Ok(bytes[12..12 + length])
  }

  /** `read_msg_with_limit`: the next message and how many bytes it took. */
  function ReadMessage(made: Made, s: Slot, bytes: Bytes, limit: nat): (r: Result<(Bytes, nat), Failure>)
    ensures r.Ok? ==> 12 <= r.value.1 <= |bytes| && s in made && r.value.0 == made[s].plain
  {
    match ReadFrame(bytes, s.counter, limit)
    case Err(e) => Err(e)
    case Ok(cipher) =>
      match OpenFrame(made, s, cipher)
      case Some(plain) => Ok((plain, 12 + |cipher|))
      case None => Err(NotAuthentic)
  }

  /** Everything a continuation reader yields before its first error. */
  function ReadAll(made: Made, k: Key, counter: nat, bytes: Bytes): seq<Bytes>
    decreases |bytes|
  {
    match ReadMessage(made, Slot(k, counter), bytes, MESSAGE_LIMIT)
    case Err(_) => []
    case Ok((plain, n)) => [plain] + ReadAll(made, k, counter + 1, bytes[n..])
  }

  // ---- the routing prefix ----

  function Prefix(m: Material): (p: Bytes)
    requires m.Valid()
    ensures |p| == PREFIX
  {
    MAGIC + [VERSION, 0, 0, 0] + BigEndian(m.keyId, 8) + m.salt
  }

  /** What a server reads from the first 32 bytes. */
  function ParsePrefix(bytes: Bytes): (r: Result<Material, Failure>)
    ensures r.Ok? ==> PREFIX <= |bytes|
  {
    if |bytes| < PREFIX then Err(Truncated)
    else if bytes[..4] != MAGIC || bytes[4] != VERSION || bytes[5] != 0 || bytes[6] != 0 || bytes[7] != 0 then Err(PrefixInvalid)
    else Ok(Material(FromBigEndian(bytes[8..16], 8), bytes[16..32]))
  }

  lemma PrefixRoundTrip(m: Material, rest: Bytes)
    requires m.Valid()
    ensures ParsePrefix(Prefix(m) + rest) == Ok(m)
    ensures (Prefix(m) + rest)[PREFIX..] == rest
  {
    var bytes := Prefix(m) + rest;
    assert bytes[..4] == MAGIC;
    assert bytes[4] == VERSION && bytes[5] == 0 && bytes[6] == 0 && bytes[7] == 0;
    assert bytes[8..16] == BigEndian(m.keyId, 8) + [];
    assert bytes[16..32] == m.salt;
    Ranges();
    NumberRoundTrip(m.keyId, 8, []);
  }

  /** What parses is exactly what starts with the prefix of a session, and it names that session. */
  lemma PrefixParsedIff(bytes: Bytes, m: Material)
    ensures ParsePrefix(bytes) == Ok(m) <==> m.Valid() && Prefix(m) <= bytes
  {
    if m.Valid() && Prefix(m) <= bytes {
      PrefixRoundTrip(m, bytes[PREFIX..]);
      assert bytes == Prefix(m) + bytes[PREFIX..];
    }
    if ParsePrefix(bytes) == Ok(m) {
      Ranges();
      BytesRoundTrip(bytes[8..16], 8);
      assert bytes[8..16][..8] == bytes[8..16];
      assert bytes[..PREFIX] == bytes[..4] + [bytes[4], bytes[5], bytes[6], bytes[7]] + bytes[8..16] + bytes[16..32];
    }
  }

  /** A server's whole read of a session: the prefix, the first frame, then the rest. */
  function ReadSession(made: Made, bytes: Bytes): seq<Bytes> {
    match ParsePrefix(bytes)
    case Err(_) => []
    case Ok(m) =>
      var k := Key(m, ClientToServer);
      match ReadMessage(made, Slot(k, 0), bytes[PREFIX..], INITIAL_LIMIT)
      case Err(_) => []
      case Ok((plain, n)) => [plain] + ReadAll(made, k, 1, bytes[PREFIX..][n..])
  }

  // ---- what a session writes ----

  ghost predicate AllMade(made: Made, k: Key, from: nat, to: nat) {
    forall c: nat | from <= c < to :: Slot(k, c) in made
  }

  /** The frames sealed under `k` with the counters from `from` up to `to`. */
  ghost function Written(made: Made, k: Key, from: nat, to: nat): Bytes
    requires from <= to <= U64 && AllMade(made, k, from, to) && WellMade(made) && Within(made, MESSAGE_LIMIT)
    decreases if from <= to then to - from else 0
  {
    if from == to then [] else Frame(from, made[Slot(k, from)].cipher) + Written(made, k, from + 1, to)
  }

  ghost function Messages(made: Made, k: Key, from: nat, to: nat): seq<Bytes>
    requires from <= to && AllMade(made, k, from, to)
    decreases if from <= to then to - from else 0
  {
    if from == to then [] else [made[Slot(k, from)].plain] + Messages(made, k, from + 1, to)
  }

  lemma FrameReads(made: Made, s: Slot, rest: Bytes, limit: nat)
    requires WellMade(made) && s in made && s.counter < U64 && |made[s].cipher| < U32
    ensures var bytes := Frame(s.counter, made[s].cipher) + rest;
            (match ReadMessage(made, s, bytes, limit)
             case Ok((plain, n)) => |made[s].plain| <= limit && plain == made[s].plain && n == 12 + |made[s].cipher|
             case Err(e) => |made[s].plain| > limit && e == LengthRefused)
            && bytes[12 + |made[s].cipher|..] == rest
  {
    var cipher := made[s].cipher;
    var bytes := Frame(s.counter, cipher) + rest;
    Ranges();
    NumberRoundTrip(s.counter, 8, BigEndian(|cipher|, 4) + cipher + rest);
    assert bytes == BigEndian(s.counter, 8) + (BigEndian(|cipher|, 4) + cipher + rest);
    NumberRoundTrip(|cipher|, 4, cipher + rest);
    assert bytes[8..] == BigEndian(|cipher|, 4) + (cipher + rest);
    assert bytes[12..12 + |cipher|] == cipher;
  }

  lemma Assoc<T>(a: seq<T>, b: seq<T>, c: seq<T>)
    ensures a + (b + c) == a + b + c
  {
  }

  lemma {:induction false} WrittenReads(made: Made, k: Key, from: nat, to: nat)
    requires WellMade(made) && Within(made, MESSAGE_LIMIT) && from <= to <= U64
    requires AllMade(made, k, from, to) && Slot(k, to) !in made
    ensures ReadAll(made, k, from, Written(made, k, from, to)) == Messages(made, k, from, to)
    decreases if from <= to then to - from else 0
  {
    if from < to {
      WrittenReads(made, k, from + 1, to);
      FirstReads(made, k, from, Written(made, k, from + 1, to));
    }
  }

  lemma FirstReads(made: Made, k: Key, counter: nat, rest: Bytes)
    requires WellMade(made) && Within(made, MESSAGE_LIMIT) && counter < U64 && Slot(k, counter) in made
    ensures var s := Slot(k, counter);
            |made[s].cipher| < U32
            && ReadAll(made, k, counter, Frame(counter, made[s].cipher) + rest) == [made[s].plain] + ReadAll(made, k, counter + 1, rest)
  {
    FrameReads(made, Slot(k, counter), rest, MESSAGE_LIMIT);
  }

  /**
  Round trip: a server that reads exactly what a client session wrote yields exactly its
  messages, as long as the first is within the first-flight limit; otherwise it yields none.
  */
  lemma SessionReads(made: Made, m: Material, n: nat)
    requires WellMade(made) && Within(made, MESSAGE_LIMIT) && m.Valid() && 0 < n < U64
    requires AllMade(made, Key(m, ClientToServer), 0, n) && Slot(Key(m, ClientToServer), n) !in made
    ensures var k := Key(m, ClientToServer);
            ReadSession(made, Prefix(m) + Written(made, k, 0, n))
            == if |made[Slot(k, 0)].plain| <= INITIAL_LIMIT then Messages(made, k, 0, n) else []
  {
    var k := Key(m, ClientToServer);
    PrefixRoundTrip(m, Written(made, k, 0, n));
    FrameReads(made, Slot(k, 0), Written(made, k, 1, n), INITIAL_LIMIT);
    WrittenReads(made, k, 1, n);
  }

  /** The same for the server's responses: no prefix, the other key, from counter 0. */
  lemma ResponsesRead(made: Made, m: Material, n: nat)
    requires WellMade(made) && Within(made, MESSAGE_LIMIT) && n <= U64
    requires AllMade(made, Key(m, ServerToClient), 0, n) && Slot(Key(m, ServerToClient), n) !in made
    ensures var k := Key(m, ServerToClient);
            ReadAll(made, k, 0, Written(made, k, 0, n)) == Messages(made, k, 0, n)
  {
    WrittenReads(made, Key(m, ServerToClient), 0, n);
  }

  // ---- altered streams ----

  /** `out` is what was sealed under `k` with `counter` and the counters right after it, in order. */
  ghost predicate InSequence(made: Made, k: Key, counter: nat, out: seq<Bytes>)
    decreases |out|
  {
    out == []
    || (Slot(k, counter) in made && out[0] == made[Slot(k, counter)].plain && InSequence(made, k, counter + 1, out[1..]))
  }

  lemma {:induction false} ReadAllInSequence(made: Made, k: Key, counter: nat, bytes: Bytes)
    ensures InSequence(made, k, counter, ReadAll(made, k, counter, bytes))
    decreases |bytes|
  {
    var r := ReadMessage(made, Slot(k, counter), bytes, MESSAGE_LIMIT);
    if r.Ok? {
      ReadAllInSequence(made, k, counter + 1, bytes[r.value.1..]);
      assert ReadAll(made, k, counter, bytes)[1..] == ReadAll(made, k, counter + 1, bytes[r.value.1..]);
    }
  }

  lemma {:induction false} InSequencePrefix(made: Made, k: Key, from: nat, to: nat, out: seq<Bytes>)
    requires from <= to && AllMade(made, k, from, to) && Slot(k, to) !in made && InSequence(made, k, from, out)
    ensures out <= Messages(made, k, from, to)
    decreases if from <= to then to - from else 0
  {
    if out != [] {
      InSequencePrefix(made, k, from + 1, to, out[1..]);
      assert out == [out[0]] + out[1..];
    }
  }

  /**
  Whatever bytes arrive, what a server yields is a prefix of the client messages of the one
  session the bytes name: nothing altered, reordered, repeated, reflected or from elsewhere.
  */
  lemma AlteredYieldsPrefix(made: Made, bytes: Bytes, m: Material, n: nat)
    requires ParsePrefix(bytes) == Ok(m)
    requires AllMade(made, Key(m, ClientToServer), 0, n) && Slot(Key(m, ClientToServer), n) !in made
    ensures ReadSession(made, bytes) <= Messages(made, Key(m, ClientToServer), 0, n)
  {
    var k := Key(m, ClientToServer);
    var r := ReadMessage(made, Slot(k, 0), bytes[PREFIX..], INITIAL_LIMIT);
    if r.Ok? {
      var rest := bytes[PREFIX..][r.value.1..];
      ReadAllInSequence(made, k, 1, rest);
      assert ReadSession(made, bytes)[1..] == ReadAll(made, k, 1, rest);
      InSequencePrefix(made, k, 0, n, ReadSession(made, bytes));
    }
  }

  /** The same for what a client takes as its responses. */
  lemma AlteredResponses(made: Made, bytes: Bytes, m: Material, n: nat)
    requires AllMade(made, Key(m, ServerToClient), 0, n) && Slot(Key(m, ServerToClient), n) !in made
    ensures ReadAll(made, Key(m, ServerToClient), 0, bytes) <= Messages(made, Key(m, ServerToClient), 0, n)
  {
    ReadAllInSequence(made, Key(m, ServerToClient), 0, bytes);
    InSequencePrefix(made, Key(m, ServerToClient), 0, n, ReadAll(made, Key(m, ServerToClient), 0, bytes));
  }

  // ---- writers and readers, in place ----

  /** The cipher, remembering every slot ever sealed under. */
  class Aead {
    var made: Made

    constructor ()
      ensures made == map[]
    {
      made := map[];
    }

    /** Seals once per slot: calling it twice for one is what a caller must prove it never does. */
    method Seal(s: Slot, plain: Bytes, cipher: Bytes)
      requires s !in made && |cipher| == |plain| + TAG
      modifies this
      ensures made == old(made)[s := Sealed(cipher, plain)]
    {
      made := made[s := Sealed(cipher, plain)];
    }
  }

  /** No slot of this key is used from `counter` on. */
  ghost predicate Unused(made: Made, k: Key, counter: nat) {
    forall c: nat | c >= counter :: Slot(k, c) !in made
  }

  class MessageWriter {
    const aead: Aead
    const key: Key
    var counter: nat
    /** What has been written to the stream through this writer. */
    var out: Bytes

    ghost predicate Valid()
      reads this, aead
    {
      counter < U64 && Unused(aead.made, key, counter)
    }

    constructor (aead: Aead, key: Key, counter: nat)
      requires counter < U64 && Unused(aead.made, key, counter)
      ensures Valid() && this.aead == aead && this.key == key
      ensures this.counter == counter && out == []
    {
      this.aead, this.key, this.counter, out := aead, key, counter, [];
    }

    /** Seals one message under the next counter; a message past the limit is refused unsealed. */
    method WriteMessage(message: Bytes, cipher: Bytes) returns (written: bool)
      requires Valid() && |cipher| == |message| + TAG && counter + 1 < U64
      modifies this`counter, this`out, aead
      ensures Valid() && written == (|message| <= MESSAGE_LIMIT)
      ensures !written ==> counter == old(counter) && out == old(out) && aead.made == old(aead.made)
      ensures written ==> |cipher| < U32 && counter == old(counter) + 1 && out == old(out) + Frame(old(counter), cipher)
                          && aead.made == old(aead.made)[Slot(key, old(counter)) := Sealed(cipher, message)]
    {
      if |message| + TAG > MESSAGE_LIMIT + TAG {
        return false;
      }
      aead.Seal(Slot(key, counter), message, cipher);
      out := out + Frame(counter, cipher);
      counter := counter + 1;
      return true;
    }
  }

  class MessageReader {
    const made: Made
    const key: Key
    var expected: nat
    var at: nat

    constructor (made: Made, key: Key, expected: nat)
      ensures this.made == made && this.key == key && this.expected == expected && at == 0
    {
      this.made, this.key, this.expected, at := made, key, expected, 0;
    }

    /** Reads and opens the frame of the expected counter. */
    method ReadNext(stream: Bytes, limit: nat) returns (r: Result<Bytes, Failure>)
      requires at <= |stream|
      modifies this`at, this`expected
      ensures at <= |stream|
      ensures match ReadMessage(made, Slot(key, old(expected)), stream[old(at)..], limit)
              case Ok((plain, n)) => r == Ok(plain) && at == old(at) + n && expected == old(expected) + 1
              case Err(e) => r == Err(e) && at == old(at) && expected == old(expected)
    {
      var f := ReadFrame(stream[at..], expected, limit);
      if f.Err? {
        return f;
      }
      var plain := OpenFrame(made, Slot(key, expected), f.value);
      if plain.None? {
        return Err(NotAuthentic);
      }
      at := at + 12 + |f.value|;
      expected := expected + 1;
      return Ok(plain.value);
    }

    /** The receive loop: everything up to the first error. */
    method ReadToError(stream: Bytes) returns (messages: seq<Bytes>)
      requires at <= |stream|
      modifies this`at, this`expected
      ensures messages == ReadAll(made, key, old(expected), stream[old(at)..])
    {
      messages := [];
      ghost var start := stream[at..];
      while true
        invariant at <= |stream|
        invariant ReadAll(made, key, old(expected), start) == messages + ReadAll(made, key, expected, stream[at..])
        decreases |stream| - at
      {
        ghost var rest, here := stream[at..], Slot(key, expected);
        var r := ReadNext(stream, MESSAGE_LIMIT);
        if r.Err? {
          return;
        }
        ghost var n := ReadMessage(made, here, rest, MESSAGE_LIMIT).value.1;
        assert rest[n..] == stream[at..];
        Assoc(messages, [r.value], ReadAll(made, key, expected, stream[at..]));
        messages := messages + [r.value];
      }
    }
  }

  /**
  A client session from its first flight on: the first frame is counter 0 and the
  continuation writer starts at 1, so no counter meets the direction key twice and the
  stream is exactly the prefix and the frames.
  */
  method WriteSession(aead: Aead, m: Material, messages: seq<Bytes>, ciphers: seq<Bytes>) returns (stream: Bytes)
    requires m.Valid() && 0 < |messages| == |ciphers| && |messages| + 1 < U64
    requires forall i | 0 <= i < |messages| :: |messages[i]| <= MESSAGE_LIMIT && |ciphers[i]| == |messages[i]| + TAG
    requires Unused(aead.made, Key(m, ClientToServer), 0) && WellMade(aead.made) && Within(aead.made, MESSAGE_LIMIT)
    modifies aead
    ensures WellMade(aead.made) && Within(aead.made, MESSAGE_LIMIT)
    ensures var k := Key(m, ClientToServer);
            AllMade(aead.made, k, 0, |messages|) && Unused(aead.made, k, |messages|)
            && Messages(aead.made, k, 0, |messages|) == messages
            && stream == Prefix(m) + Written(aead.made, k, 0, |messages|)
    ensures Keeps(old(aead.made), aead.made) && OnlyUnder(old(aead.made), aead.made, Key(m, ClientToServer))
  {
    var k := Key(m, ClientToServer);
    var writer := new MessageWriter(aead, k, 0);
    assert SoFar(aead.made, k, 0, messages, []);
    SoFarNext(aead.made, k, 0, messages, [], ciphers[0]);
    var ok := writer.WriteMessage(messages[0], ciphers[0]);
    assert writer.out == Frame(0, ciphers[0]) == [] + Frame(0, ciphers[0]);
    var rest := Continue(aead, k, messages, ciphers, 1, writer.out);
    stream := Prefix(m) + (writer.out + rest);
    assert messages[..|messages|] == messages;
  }

  /** A writer's remaining messages, from counter `from`: 1 for a continuation, 0 for responses. */
  method Continue(aead: Aead, k: Key, messages: seq<Bytes>, ciphers: seq<Bytes>, from: nat, ghost body: Bytes) returns (out: Bytes)
    requires from <= |messages| == |ciphers| && |messages| + 1 < U64
    requires forall i | 0 <= i < |messages| :: |messages[i]| <= MESSAGE_LIMIT && |ciphers[i]| == |messages[i]| + TAG
    requires Unused(aead.made, k, from) && SoFar(aead.made, k, from, messages, body)
    modifies aead
    ensures SoFar(aead.made, k, |messages|, messages, body + out) && Unused(aead.made, k, |messages|)
    ensures Keeps(old(aead.made), aead.made) && OnlyUnder(old(aead.made), aead.made, k)
  {
    var writer := new MessageWriter(aead, k, from);
    var i := from;
    assert body + [] == body;
    while i < |messages|
      invariant from <= i <= |messages| && writer.Valid() && writer.counter == i && fresh(writer)
      invariant SoFar(aead.made, k, i, messages, body + writer.out)
      invariant Keeps(old(aead.made), aead.made) && OnlyUnder(old(aead.made), aead.made, k)
    {
      NextStep(old(aead.made), aead.made, k, i, messages, body + writer.out, ciphers[i]);
      Assoc(body, writer.out, Frame(i, ciphers[i]));
      var ok := writer.WriteMessage(messages[i], ciphers[i]);
      i := i + 1;
    }
    return writer.out;
  }

  /** The response writer of a session: the other key, from counter 0. */
  method Respond(aead: Aead, m: Material, messages: seq<Bytes>, ciphers: seq<Bytes>) returns (out: Bytes)
    requires |messages| == |ciphers| && |messages| + 1 < U64
    requires forall i | 0 <= i < |messages| :: |messages[i]| <= MESSAGE_LIMIT && |ciphers[i]| == |messages[i]| + TAG
    requires Unused(aead.made, Key(m, ServerToClient), 0) && WellMade(aead.made) && Within(aead.made, MESSAGE_LIMIT)
    modifies aead
    ensures SoFar(aead.made, Key(m, ServerToClient), |messages|, messages, out) && Unused(aead.made, Key(m, ServerToClient), |messages|)
    ensures Keeps(old(aead.made), aead.made) && OnlyUnder(old(aead.made), aead.made, Key(m, ServerToClient))
  {
    out := Continue(aead, Key(m, ServerToClient), messages, ciphers, 0, []);
    assert [] + out == out;
  }

  /**
  Both directions of one session over one cipher: neither uses a slot of the other, and each
  side reads back exactly what the other wrote.
  */
  method Exchange(aead: Aead, m: Material, requests: seq<Bytes>, ciphers: seq<Bytes>, responses: seq<Bytes>, responseCiphers: seq<Bytes>)
    returns (sent: Bytes, answered: Bytes)
    requires m.Valid() && 0 < |requests| == |ciphers| && |requests| + 1 < U64 && |responses| == |responseCiphers| && |responses| + 1 < U64
    requires |requests[0]| <= INITIAL_LIMIT
    requires forall i | 0 <= i < |requests| :: |requests[i]| <= MESSAGE_LIMIT && |ciphers[i]| == |requests[i]| + TAG
    requires forall i | 0 <= i < |responses| :: |responses[i]| <= MESSAGE_LIMIT && |responseCiphers[i]| == |responses[i]| + TAG
    requires Unused(aead.made, Key(m, ClientToServer), 0) && Unused(aead.made, Key(m, ServerToClient), 0)
    requires WellMade(aead.made) && Within(aead.made, MESSAGE_LIMIT)
    modifies aead
    ensures ReadSession(aead.made, sent) == requests
    ensures ReadAll(aead.made, Key(m, ServerToClient), 0, answered) == responses
  {
    sent := WriteSession(aead, m, requests, ciphers);
    ghost var written := aead.made;
    answered := Respond(aead, m, responses, responseCiphers);
    ReadsBack(written, m, requests, sent);
    OtherDirection(written, aead.made, m, sent);
    ResponsesRead(aead.made, m, |responses|);
    assert responses[..|responses|] == responses;
  }

  lemma ReadsBack(made: Made, m: Material, requests: seq<Bytes>, sent: Bytes)
    requires m.Valid() && WellMade(made) && Within(made, MESSAGE_LIMIT) && 0 < |requests| < U64
    requires AllMade(made, Key(m, ClientToServer), 0, |requests|) && Unused(made, Key(m, ClientToServer), |requests|)
    requires Messages(made, Key(m, ClientToServer), 0, |requests|) == requests && |requests[0]| <= INITIAL_LIMIT
    requires sent == Prefix(m) + Written(made, Key(m, ClientToServer), 0, |requests|)
    ensures ReadSession(made, sent) == requests && ParsePrefix(sent) == Ok(m)
  {
    SessionReads(made, m, |requests|);
    PrefixRoundTrip(m, Written(made, Key(m, ClientToServer), 0, |requests|));
  }

  /** Frames sealed under one key read the same whatever is sealed under others. */
  lemma {:induction false} OtherKeysReadSame(before: Made, after: Made, k: Key, counter: nat, bytes: Bytes)
    requires Keeps(before, after) && forall c: nat :: Slot(k, c) in after ==> Slot(k, c) in before
    ensures ReadAll(after, k, counter, bytes) == ReadAll(before, k, counter, bytes)
    decreases |bytes|
  {
    var r := ReadMessage(before, Slot(k, counter), bytes, MESSAGE_LIMIT);
    assert ReadMessage(after, Slot(k, counter), bytes, MESSAGE_LIMIT) == r;
    if r.Ok? {
      OtherKeysReadSame(before, after, k, counter + 1, bytes[r.value.1..]);
    }
  }

  lemma OtherDirection(before: Made, after: Made, m: Material, bytes: Bytes)
    requires Keeps(before, after) && OnlyUnder(before, after, Key(m, ServerToClient)) && ParsePrefix(bytes) == Ok(m)
    ensures ReadSession(after, bytes) == ReadSession(before, bytes)
  {
    var k := Key(m, ClientToServer);
    var r := ReadMessage(before, Slot(k, 0), bytes[PREFIX..], INITIAL_LIMIT);
    assert ReadMessage(after, Slot(k, 0), bytes[PREFIX..], INITIAL_LIMIT) == r;
    if r.Ok? {
      OtherKeysReadSame(before, after, k, 1, bytes[PREFIX..][r.value.1..]);
    }
  }

  /** Everything sealed since is under `k`. */
  ghost predicate OnlyUnder(before: Made, after: Made, k: Key) {
    forall s | s in after :: s in before || s.key == k
  }

  ghost predicate Keeps(before: Made, after: Made) {
    forall s | s in before :: s in after && after[s] == before[s]
  }

  lemma NextStep(before: Made, made: Made, k: Key, n: nat, messages: seq<Bytes>, body: Bytes, cipher: Bytes)
    requires Keeps(before, made) && SoFar(made, k, n, messages, body) && n < |messages| && n < U64 && Slot(k, n) !in made
    requires |cipher| == |messages[n]| + TAG && |messages[n]| <= MESSAGE_LIMIT
    ensures var made' := made[Slot(k, n) := Sealed(cipher, messages[n])];
            Keeps(before, made') && SoFar(made', k, n + 1, messages, body + Frame(n, cipher))
  {
    SoFarNext(made, k, n, messages, body, cipher);
  }

  /** The first `n` messages are sealed under `k`, and `body` is their frames. */
  ghost predicate SoFar(made: Made, k: Key, n: nat, messages: seq<Bytes>, body: Bytes) {
    n <= |messages| && n <= U64 && AllMade(made, k, 0, n) && WellMade(made) && Within(made, MESSAGE_LIMIT)
    && Messages(made, k, 0, n) == messages[..n] && body == Written(made, k, 0, n)
  }

  lemma SoFarNext(made: Made, k: Key, n: nat, messages: seq<Bytes>, body: Bytes, cipher: Bytes)
    requires SoFar(made, k, n, messages, body) && n < |messages| && n < U64 && Slot(k, n) !in made
    requires |cipher| == |messages[n]| + TAG && |messages[n]| <= MESSAGE_LIMIT
    ensures SoFar(made[Slot(k, n) := Sealed(cipher, messages[n])], k, n + 1, messages, body + Frame(n, cipher))
  {
    Extends(made, k, n, cipher, messages[n]);
  }

  /** Sealing the next message adds one frame and one message at the end. */
  lemma Extends(made: Made, k: Key, n: nat, cipher: Bytes, plain: Bytes)
    requires n < U64 && AllMade(made, k, 0, n) && Slot(k, n) !in made && WellMade(made) && Within(made, MESSAGE_LIMIT)
    requires |cipher| == |plain| + TAG && |plain| <= MESSAGE_LIMIT
    ensures var made' := made[Slot(k, n) := Sealed(cipher, plain)];
            AllMade(made', k, 0, n + 1) && WellMade(made') && Within(made', MESSAGE_LIMIT)
            && Messages(made', k, 0, n + 1) == Messages(made, k, 0, n) + [plain]
            && Written(made', k, 0, n + 1) == Written(made, k, 0, n) + Frame(n, cipher)
  {
    ExtendsFrom(made, k, 0, n, cipher, plain);
  }

  lemma {:induction false} ExtendsFrom(made: Made, k: Key, from: nat, n: nat, cipher: Bytes, plain: Bytes)
    requires from <= n < U64 && AllMade(made, k, from, n) && Slot(k, n) !in made && WellMade(made) && Within(made, MESSAGE_LIMIT)
    requires |cipher| == |plain| + TAG && |plain| <= MESSAGE_LIMIT
    ensures var made' := made[Slot(k, n) := Sealed(cipher, plain)];
            AllMade(made', k, from, n + 1) && WellMade(made') && Within(made', MESSAGE_LIMIT)
            && Messages(made', k, from, n + 1) == Messages(made, k, from, n) + [plain]
            && Written(made', k, from, n + 1) == Written(made, k, from, n) + Frame(n, cipher)
    decreases n - from
  {
    var made' := made[Slot(k, n) := Sealed(cipher, plain)];
    if from < n {
      ExtendsFrom(made, k, from + 1, n, cipher, plain);
      assert Written(made', k, from, n + 1) == Frame(from, made[Slot(k, from)].cipher) + (Written(made, k, from + 1, n) + Frame(n, cipher));
    } else {
      assert Written(made', k, n + 1, n + 1) == [] && Messages(made', k, n + 1, n + 1) == [];
    }
  }
}
