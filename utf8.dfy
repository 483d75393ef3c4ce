/** Bytes and the UTF-8 encoding, as Go's `unicode/utf8` package sees them. */
module Utf8 {
  type byte = b: int | 0 <= b < 256

  predicate IsContinuation(b: byte) {
    0x80 <= b <= 0xBF
  }

  /** The length of the well-formed encoding at the front of `s`, or 0 when
      the front is ill-formed (a stray continuation byte, an overlong form,
      a surrogate, a code point above U+10FFFF or a truncated sequence). */
  function FirstLength(s: seq<byte>): (n: nat)
    requires s != []
    ensures n <= 4 && n <= |s|
  {
    var b := s[0];
    if b < 0x80 then 1
    else if 0xC2 <= b <= 0xDF then
      (if |s| >= 2 && IsContinuation(s[1]) then 2 else 0)
    else if 0xE0 <= b <= 0xEF then
      var lo := if b == 0xE0 then 0xA0 else 0x80;
      var hi := if b == 0xED then 0x9F else 0xBF;
      (if |s| >= 3 && lo <= s[1] <= hi && IsContinuation(s[2]) then 3 else 0)
    else if 0xF0 <= b <= 0xF4 then
      var lo := if b == 0xF0 then 0x90 else 0x80;
      var hi := if b == 0xF4 then 0x8F else 0xBF;
      (if |s| >= 4 && lo <= s[1] <= hi && IsContinuation(s[2]) && IsContinuation(s[3]) then 4 else 0)
    else 0
  }

  /** `utf8.Valid`: `s` is a concatenation of well-formed encodings. */
  predicate Valid(s: seq<byte>)
    decreases |s|
  {
    s == [] || (FirstLength(s) > 0 && Valid(s[FirstLength(s)..]))
  }

  /** The UTF-8 encoding of one code point (Dafny's `char` excludes surrogates). */
  function EncodeChar(c: char): (e: seq<byte>)
    ensures 1 <= |e| <= 4
  {
    var cp := c as int;
    if cp < 0x80 then [cp]
    else if cp < 0x800 then [0xC0 + cp / 64, 0x80 + cp % 64]
    else if cp < 0x10000 then [0xE0 + cp / 4096, 0x80 + (cp / 64) % 64, 0x80 + cp % 64]
    else [0xF0 + cp / 262144, 0x80 + (cp / 4096) % 64, 0x80 + (cp / 64) % 64, 0x80 + cp % 64]
  }

  /** `[]byte(s)` for a Go string holding the text `s`. */
  function Encode(s: string): (e: seq<byte>)
    ensures |s| <= |e| <= 4 * |s|
  {
    if s == [] then [] else EncodeChar(s[0]) + Encode(s[1..])
  }

  /** Each code point's encoding is one well-formed sequence, whatever follows it. */
  lemma FirstLengthOfEncodeChar(c: char, rest: seq<byte>)
    ensures FirstLength(EncodeChar(c) + rest) == |EncodeChar(c)|
  {
    var cp := c as int;
    if 0x800 <= cp < 0x10000 {
      ThreeByteForm(cp, rest);
    } else if 0x10000 <= cp {
      FourByteForm(cp, rest);
    }
  }

  lemma ThreeByteForm(cp: int, rest: seq<byte>)
    requires 0x800 <= cp < 0xD800 || 0xE000 <= cp < 0x10000
    ensures var s := [0xE0 + cp / 4096, 0x80 + (cp / 64) % 64, 0x80 + cp % 64];
      FirstLength(s + rest) == 3
  {
    var s := [0xE0 + cp / 4096, 0x80 + (cp / 64) % 64, 0x80 + cp % 64] + rest;
    if cp < 0x1000 {
      assert s[0] == 0xE0 && s[1] == 0x80 + cp / 64;
    } else if 0xD000 <= cp < 0xE000 {
      assert s[0] == 0xED && s[1] == 0x80 + (cp - 0xD000) / 64;
    }
  }

  lemma FourByteForm(cp: int, rest: seq<byte>)
    requires 0x10000 <= cp < 0x110000
    ensures var s := [0xF0 + cp / 262144, 0x80 + (cp / 4096) % 64, 0x80 + (cp / 64) % 64, 0x80 + cp % 64];
      FirstLength(s + rest) == 4
  {
    var s := [0xF0 + cp / 262144, 0x80 + (cp / 4096) % 64, 0x80 + (cp / 64) % 64, 0x80 + cp % 64] + rest;
    if cp < 0x40000 {
      assert s[0] == 0xF0 && s[1] == 0x80 + cp / 4096;
    } else if 0x100000 <= cp {
      assert s[0] == 0xF4 && s[1] == 0x80 + (cp - 0x100000) / 4096;
    }
  }

  /** Every encoded text is valid UTF-8. */
  lemma {:induction false} EncodeValid(s: string)
    ensures Valid(Encode(s))
    decreases |s|
  {
    if s != [] {
      var e := Encode(s);
      var head := EncodeChar(s[0]);
      FirstLengthOfEncodeChar(s[0], Encode(s[1..]));
      assert e[|head|..] == Encode(s[1..]);
      EncodeValid(s[1..]);
    }
  }

  /** Encoding distributes over concatenation. */
  lemma {:induction false} EncodeAppend(a: string, b: string)
    ensures Encode(a + b) == Encode(a) + Encode(b)
    decreases |a|
  {
    if a != [] {
      assert (a + b)[1..] == a[1..] + b;
      EncodeAppend(a[1..], b);
    } else {
      assert a + b == b;
    }
  }
}
