/**
Service keys: a namespace and a service name in one string.

Splitting undoes scoping for every accepted name, so two scoped keys are equal only when
both their namespaces and their names are.
*/
module ServiceKeys {
  import opened Wrappers

  const U64: nat := 0x1_0000_0000_0000_0000
  const NUL: char := '\0'

  datatype Context = Context(isAdmin: bool, namespace: nat)

  datatype Refusal = AccessDenied | ForceRequired | NameInvalid

  // ---- which namespace a request means ----

  function ResolveNamespace(context: Context, requested: Option<nat>, force: bool, isRegister: bool): Result<nat, Refusal> {
    var namespace := if requested.Some? then requested.value else context.namespace;
    if !context.isAdmin && namespace != context.namespace then Err(AccessDenied)
    else if context.isAdmin && isRegister && namespace != 0 && !force then Err(ForceRequired)
    else Ok(namespace)
  }

  /** A temporary credential reaches its own namespace and no other, whatever it asks for. */
  lemma TemporaryStaysHome(context: Context, requested: Option<nat>, force: bool, isRegister: bool)
    requires !context.isAdmin
    ensures ResolveNamespace(context, requested, force, isRegister)
            == if requested == None || requested == Some(context.namespace) then Ok(context.namespace) else Err(AccessDenied)
  {
  }

  /** The administrator reaches every namespace, and is held back only from registering in a foreign one unforced. */
  lemma AdministratorReaches(context: Context, requested: Option<nat>, force: bool, isRegister: bool, namespace: nat)
    requires context.isAdmin
    ensures ResolveNamespace(context, requested, force, isRegister) == Ok(namespace)
            <==> (requested == Some(namespace) || (requested == None && namespace == context.namespace))
                 && (isRegister ==> force || namespace == 0)
    ensures ResolveNamespace(context, requested, force, isRegister).Err? ==>
              ResolveNamespace(context, requested, force, isRegister).reason == ForceRequired
  {
  }

  // ---- names ----

  function Utf8Length(s: string): nat {
    if s == "" then 0
    else
      var c := s[|s| - 1] as int;
      Utf8Length(s[..|s| - 1]) + if c < 0x80 then 1 else if c < 0x800 then 2 else if c < 0x1_0000 then 3 else 4
  }

  predicate NameChar(c: char) {
    'a' <= c <= 'z' || 'A' <= c <= 'Z' || '0' <= c <= '9' || c in "._:-"
  }

  predicate NameAccepted(context: Context, name: string) {
    name != "" && Utf8Length(name) <= 1024 && NUL !in name
    && (!context.isAdmin ==> Utf8Length(name) <= 128 && forall i | 0 <= i < |name| :: NameChar(name[i]))
  }

  // ---- hexadecimal ----

  function HexDigit(n: nat): (c: char)
    requires n < 16
  {
    if n < 10 then '0' + n as char else 'a' + (n - 10) as char
  }

  function Hex(n: nat, width: nat): (s: string)
    ensures |s| == width
  {
    if width == 0 then "" else Hex(n / 16, width - 1) + [HexDigit(n % 16)]
  }

  function DigitValue(c: char): Option<nat> {
    if '0' <= c <= '9' then Some((c - '0') as nat)
    else if 'a' <= c <= 'f' then Some((c - 'a') as nat + 10)
    else if 'A' <= c <= 'F' then Some((c - 'A') as nat + 10)
    else None
  }

  /** The digits of a number below `2^64`; `None` on any other character or on overflow. */
  function ParseDigits(s: string): Option<nat> {
    if s == "" then Some(0)
    else
      match ParseDigits(s[..|s| - 1])
      case None => None
      case Some(high) =>
        match DigitValue(s[|s| - 1])
        case Some(low) => if high * 16 + low < U64 then Some(high * 16 + low) else None
        case None => None
  }

  /** `u64::from_str_radix(_, 16)`: at least one digit, after an optional plus sign. */
  function ParseHex(s: string): Option<nat> {
    var digits := if s != "" && s[0] == '+' then s[1..] else s;
    if digits == "" then None else ParseDigits(digits)
  }

  function Power16(width: nat): nat {
    if width == 0 then 1 else 16 * Power16(width - 1)
  }

  lemma {:induction false} HexRoundTrip(n: nat, width: nat)
    requires n < Power16(width) && n < U64
    ensures ParseDigits(Hex(n, width)) == Some(n)
    ensures forall i | 0 <= i < width :: Hex(n, width)[i] != NUL && Hex(n, width)[i] != '+'
  {
    if width > 0 {
      HexRoundTrip(n / 16, width - 1);
      assert Hex(n, width)[..width - 1] == Hex(n / 16, width - 1);
      DigitRoundTrip(n % 16);
    }
  }

  lemma DigitRoundTrip(n: nat)
    requires n < 16
    ensures DigitValue(HexDigit(n)) == Some(n) && HexDigit(n) != NUL && HexDigit(n) != '+'
  {
  }

  lemma SixteenDigits()
    ensures Power16(16) == U64
  {
    assert Power16(4) == 0x1_0000;
    assert Power16(8) == 0x1_0000_0000;
    assert Power16(12) == 0x1_0000_0000_0000;
  }

  // ---- scoping and splitting ----

  function Scope(namespace: nat, name: string): string {
    if namespace == 0 then name else "@" + Hex(namespace, 16) + [NUL] + name
  }

  function ScopedKey(context: Context, namespace: nat, name: string): Result<string, Refusal> {
    if NameAccepted(context, name) then Ok(Scope(namespace, name)) else Err(NameInvalid)
  }

  /** The first NUL, if any. */
  function FindNul(s: string): (i: Option<nat>)
    ensures i.Some? ==> i.value < |s| && s[i.value] == NUL && NUL !in s[..i.value]
    ensures i.None? ==> NUL !in s
  {
    if s == "" then None
    else if s[0] == NUL then Some(0)
    else
      match FindNul(s[1..])
      case None => None
      case Some(i) =>
        assert s[..i + 1] == [s[0]] + s[1..][..i];
        Some(i + 1)
  }

  /** `split_scoped_service_key`, on any string at all. */
  function Split(key: string): (nat, string) {
    match FindNul(key)
    case None => (0, key)
    case Some(i) =>
      if i == 0 || key[0] != '@' then (0, key)
      else
        match ParseHex(key[1..i])
        case Some(namespace) => (namespace, key[i + 1..])
        case None => (0, key)
  }

  lemma FirstNul(prefix: string, rest: string)
    requires NUL !in prefix
    ensures FindNul(prefix + [NUL] + rest) == Some(|prefix|)
  {
    var s := prefix + [NUL] + rest;
    assert s[|prefix|] == NUL;
    assert forall i | 0 <= i < |prefix| :: s[i] == prefix[i];
  }

  /** Splitting a scoped key gives its namespace and name back. */
  lemma SplitScope(namespace: nat, name: string)
    requires namespace < U64 && NUL !in name
    ensures Split(Scope(namespace, name)) == (namespace, name)
  {
    if namespace != 0 {
      SixteenDigits();
      HexRoundTrip(namespace, 16);
      var prefix := "@" + Hex(namespace, 16);
      forall i | 0 <= i < |prefix|
        ensures prefix[i] != NUL
      {
      }
      FirstNul(prefix, name);
      var key := Scope(namespace, name);
      assert key == prefix + [NUL] + name;
      assert key[1..17] == Hex(namespace, 16);
    }
  }

  /** Scoped keys are injective: no key of one namespace is a key of another. */
  lemma ScopeInjective(a: Context, b: Context, ns: nat, ms: nat, name: string, other: string)
    requires ns < U64 && ms < U64 && ScopedKey(a, ns, name).Ok? && ScopedKey(b, ms, other).Ok?
    ensures ScopedKey(a, ns, name) == ScopedKey(b, ms, other) <==> ns == ms && name == other
  {
    SplitScope(ns, name);
    SplitScope(ms, other);
  }

  /** The key a temporary credential gets always splits to its own namespace. */
  lemma TemporaryKeyIsOwn(context: Context, requested: Option<nat>, force: bool, isRegister: bool, name: string)
    requires !context.isAdmin && context.namespace < U64
    requires ResolveNamespace(context, requested, force, isRegister).Ok?
    requires ScopedKey(context, ResolveNamespace(context, requested, force, isRegister).value, name).Ok?
    ensures Split(ScopedKey(context, ResolveNamespace(context, requested, force, isRegister).value, name).value)
            == (context.namespace, name)
  {
    SplitScope(context.namespace, name);
  }
}
