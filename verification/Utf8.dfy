/** `str.encode("utf-8")` with a decoder that undoes it. */
module Utf8 {
  import opened Wrappers
  import opened Text

  function B(x: int): byte
    requires 0 <= x < 256
  {
    x as byte
  }

  function EncodeChar(c: char): (b: bytes)
    ensures 1 <= |b| <= 4
  {
    var n := c as int;
    if n < 0x80 then [B(n)]
    else if n < 0x800 then [B(0xC0 + n / 64), B(0x80 + n % 64)]
    else if n < 0x10000 then [B(0xE0 + n / 4096), B(0x80 + n / 64 % 64), B(0x80 + n % 64)]
    else [B(0xF0 + n / 262144), B(0x80 + n / 4096 % 64), B(0x80 + n / 64 % 64), B(0x80 + n % 64)]
  }

  function Encode(s: string): bytes {
    if s == "" then [] else EncodeChar(s[0]) + Encode(s[1..])
  }

  predicate IsScalar(n: int) {
    0 <= n < 0xD800 || 0xE000 <= n < 0x110000
  }

  function Tail(b: byte): int {
    b as int - 0x80
  }

  predicate IsTail(b: byte) {
    0x80 <= b as int < 0xC0
  }

  /** One decoded code point and the number of bytes it took. */
  function DecodeCode(b: bytes): (r: Option<(int, nat)>)
    ensures r.Some? ==> 1 <= r.value.1 <= |b|
  {
    if |b| == 0 then None
    else
      var x := b[0] as int;
      if x < 0x80 then Some((x, 1))
      else if 0xC0 <= x < 0xE0 && |b| >= 2 && IsTail(b[1]) then
        Some(((x - 0xC0) * 64 + Tail(b[1]), 2))
      else if 0xE0 <= x < 0xF0 && |b| >= 3 && IsTail(b[1]) && IsTail(b[2]) then
        Some(((x - 0xE0) * 4096 + Tail(b[1]) * 64 + Tail(b[2]), 3))
      else if 0xF0 <= x < 0xF8 && |b| >= 4 && IsTail(b[1]) && IsTail(b[2]) && IsTail(b[3]) then
        Some(((x - 0xF0) * 262144 + Tail(b[1]) * 4096 + Tail(b[2]) * 64 + Tail(b[3]), 4))
      else None
  }

  function Decode(b: bytes): (r: Option<string>)
    decreases |b|
  {
    if b == [] then Some("")
    else
      var d := DecodeCode(b);
      if d.None? || !IsScalar(d.value.0) then None
      else
        var rest := Decode(b[d.value.1..]);
        if rest.None? then None else Some([d.value.0 as char] + rest.value)
  }

  lemma ThreeParts(n: nat)
    requires n < 0x10000
    ensures n / 4096 < 16 && n == n / 4096 * 4096 + n / 64 % 64 * 64 + n % 64
  {
    assert n / 64 == n / 4096 * 64 + n / 64 % 64;
  }

  lemma FourParts(n: nat)
    requires n < 0x200000
    ensures n / 262144 < 8 && n == n / 262144 * 262144 + n / 4096 % 64 * 4096 + n / 64 % 64 * 64 + n % 64
  {
    assert n / 64 == n / 4096 * 64 + n / 64 % 64;
    assert n / 4096 == n / 262144 * 64 + n / 4096 % 64;
  }

  lemma DecodeCodeOf(c: char, rest: bytes)
    ensures DecodeCode(EncodeChar(c) + rest) == Some((c as int, |EncodeChar(c)|))
  {
    var n := c as int;
    var b := EncodeChar(c);
    assert forall i | 0 <= i < |b| :: (b + rest)[i] == b[i];
    if 0x800 <= n < 0x10000 {
      ThreeParts(n);
    } else if 0x10000 <= n {
      FourParts(n);
    }
  }

  /** Every Unicode text survives encoding. */
  lemma {:induction false} RoundTrip(s: string)
    ensures Decode(Encode(s)) == Some(s)
  {
    if s != "" {
      var b, rest := EncodeChar(s[0]), Encode(s[1..]);
      DecodeCodeOf(s[0], rest);
      RoundTrip(s[1..]);
      assert Encode(s) == b + rest && (b + rest)[|b|..] == rest;
      assert IsScalar(s[0] as int) && s == [s[0]] + s[1..];
    }
  }

  lemma {:induction false} EncodeLength(s: string)
    ensures |Encode(s)| <= 4 * |s|
  {
    if s != "" {
      EncodeLength(s[1..]);
    }
  }
}
