/** Bytes, and an ideal seal: a blob opens only if it was made, and then to what it was made from. */
module Sealing {
  import opened Wrappers

  type Byte = b: nat | b < 256
  type Bytes = seq<Byte>

  /** Everything ever sealed under one key. */
  type Vault<T> = map<Bytes, T>

  function Open<T>(vault: Vault<T>, blob: Bytes): Option<T> {
    if blob in vault then Some(vault[blob]) else None
  }

  // ---- big-endian numbers of a fixed width ----

  function Range(width: nat): nat {
    if width == 0 then 1 else 256 * Range(width - 1)
  }

  const U32: nat := 0x1_0000_0000
  const U64: nat := 0x1_0000_0000_0000_0000

  function BigEndian(n: nat, width: nat): (b: Bytes)
    ensures |b| == width
  {
    if width == 0 then [] else BigEndian(n / 256, width - 1) + [n % 256]
  }

  function FromBigEndian(b: Bytes, width: nat): nat
    requires width <= |b|
  {
    if width == 0 then 0 else FromBigEndian(b, width - 1) * 256 + b[width - 1] as nat
  }

  lemma {:induction false} NumberRoundTrip(n: nat, width: nat, rest: Bytes)
    requires n < Range(width)
    ensures FromBigEndian(BigEndian(n, width) + rest, width) == n
  {
    if width > 0 {
      NumberRoundTrip(n / 256, width - 1, [n % 256] + rest);
      assert BigEndian(n, width) + rest == BigEndian(n / 256, width - 1) + ([n % 256] + rest);
    }
  }

  /** The bytes of a number are the only ones of that width it reads from. */
  lemma {:induction false} BytesRoundTrip(b: Bytes, width: nat)
    requires width <= |b|
    ensures FromBigEndian(b, width) < Range(width) && BigEndian(FromBigEndian(b, width), width) == b[..width]
  {
    if width > 0 {
      BytesRoundTrip(b, width - 1);
      assert b[..width] == b[..width - 1] + [b[width - 1]];
    }
  }

  lemma Ranges()
    ensures Range(4) == U32 && Range(8) == U64
  {
    assert Range(2) == 256 * Range(1) && Range(4) == 256 * Range(3) && Range(3) == 256 * Range(2);
    assert Range(6) == 256 * Range(5) && Range(5) == 256 * Range(4);
    assert Range(8) == 256 * Range(7) && Range(7) == 256 * Range(6);
  }
}
