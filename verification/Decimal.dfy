/** Region ids travel as decimal strings and live on the device as uint16. */
module Decimal {

  const UID_LIMIT := 0x1_0000
  type Uid = u: nat | u < 0x1_0000

  predicate IsDigit(c: char) {
    '0' <= c <= '9'
  }

  /** Lua's "^%d+$". */
  predicate IsNumber(s: string) {
    s != [] && forall i :: 0 <= i < |s| ==> IsDigit(s[i])
  }

  function DigitValue(c: char): int {
    c as int - '0' as int
  }

  function Digit(d: nat): char
    requires d < 10
  {
    ['0', '1', '2', '3', '4', '5', '6', '7', '8', '9'][d]
  }

  function Show(n: nat): (s: string)
    ensures IsNumber(s)
  {
    if n < 10 then [Digit(n)] else Show(n / 10) + [Digit(n % 10)]
  }

  function Value(s: string): int {
    if s == [] then 0 else Value(s[..|s| - 1]) * 10 + DigitValue(s[|s| - 1])
  }

  lemma {:induction false} ShowHasValue(n: nat)
    ensures Value(Show(n)) == n
  {
    if n >= 10 {
      ShowHasValue(n / 10);
      assert Show(n)[..|Show(n)| - 1] == Show(n / 10);
    }
  }

  function DigitPrefix(s: string): string {
    if s == [] || !IsDigit(s[0]) then [] else [s[0]] + DigitPrefix(s[1..])
  }

  lemma {:induction false} PrefixOfNumber(s: string)
    requires forall i :: 0 <= i < |s| ==> IsDigit(s[i])
    ensures DigitPrefix(s) == s
  {
    if s != [] {
      PrefixOfNumber(s[1..]);
    }
  }

  /** The uid the device reads from a region id. */
  function UidOf(s: string): Uid {
    Value(DigitPrefix(s)) % UID_LIMIT
  }

  /** The id the catalogue and the API use for a uid: plain decimal, in range. */
  predicate Canonical(s: string) {
    s == Show(UidOf(s))
  }

  lemma ShowIsCanonical(u: Uid)
    ensures UidOf(Show(u)) == u && Canonical(Show(u))
  {
    ShowHasValue(u);
    PrefixOfNumber(Show(u));
  }

  lemma ModTen(v: int, r: int, d: int, m: int)
    requires m == 0x1_0000_0000 && r == v % m
    ensures (r * 10 + d) % m == (v * 10 + d) % m
  {
    var q := v / m;
    assert v * 10 + d == (r * 10 + d) + (q * 10) * m;
    ModShift(r * 10 + d, q * 10);
  }

  lemma ModShift(x: int, k: int)
    ensures (x + k * 0x1_0000_0000) % 0x1_0000_0000 == x % 0x1_0000_0000
  {
    var y := x / 0x1_0000_0000;
    assert x + k * 0x1_0000_0000 == (y + k) * 0x1_0000_0000 + x % 0x1_0000_0000;
  }

  /** uidFromJson on a string: 32-bit accumulation, then truncated to 16 bits. */
  method UidFromJson(s: string) returns (uid: Uid)
    ensures uid == UidOf(s)
  {
    var r, i := 0, 0;
    ghost var seen := "";
    while i < |s| && IsDigit(s[i])
      invariant 0 <= i <= |s|
      invariant 0 <= r < 0x1_0000_0000 && r == Value(seen) % 0x1_0000_0000
      invariant DigitPrefix(s) == seen + DigitPrefix(s[i..])
    {
      ghost var d := DigitValue(s[i]);
      assert (seen + [s[i]])[..|seen|] == seen;
      ModTen(Value(seen), r, d, 0x1_0000_0000);
      assert s[i..][1..] == s[i + 1..];
      seen := seen + [s[i]];
      r := (r * 10 + DigitValue(s[i])) % 0x1_0000_0000;
      i := i + 1;
    }
    assert DigitPrefix(s) == seen;
    uid := r % UID_LIMIT;
    ModOfMod(Value(seen));
  }

  lemma ModOfMod(v: int)
    ensures v % 0x1_0000_0000 % UID_LIMIT == v % UID_LIMIT
  {
    var q, r := v / 0x1_0000_0000, v % 0x1_0000_0000;
    assert v == r + (q * UID_LIMIT) * UID_LIMIT;
    ModShift16(r, q * UID_LIMIT);
  }

  lemma ModShift16(x: int, k: int)
    ensures (x + k * UID_LIMIT) % UID_LIMIT == x % UID_LIMIT
  {
    var y := x / UID_LIMIT;
    assert x + k * UID_LIMIT == (y + k) * UID_LIMIT + x % UID_LIMIT;
  }
}
