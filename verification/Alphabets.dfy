/** The tables and encodings beneath the texts, symbol by symbol. */
module Alphabets {
  import opened Text
  import opened RequestRules
  import Base64Url

  // ----- base64url -----

  /** The sixty-four symbols of section 5 of RFC 4648. */
  const SYMBOLS := "ABCDEFGHIJKLMNOPQRSTUVWXYZ" + "abcdefghijklmnopqrstuvwxyz" + "0123456789" + "-_"

  lemma SymbolAt(v: int)
    requires 0 <= v < 64
    ensures |SYMBOLS| == 64 && Base64Url.Digit(v) == SYMBOLS[v]
  {
  }

  /** Three bytes and four symbols are one 24-bit number, most significant part first. */
  lemma ThreeBytes(b: seq<byte>)
    requires |b| == 3
    ensures var q := Base64Url.Regroup(b);
            && |q| == 4
            && q[0] as int * 262144 + q[1] as int * 4096 + q[2] as int * 64 + q[3] == b[0] as int * 65536 + b[1] as int * 256 + b[2]
  {
    assert b[3..] == [];
    assert Base64Url.Regroup(b) ==
           [b[0] / 4, b[0] % 4 * 16 + b[1] / 16, b[1] % 16 * 4 + b[2] / 64, b[2] % 64] + Base64Url.Regroup([]);
  }

  /** One or two bytes at the end are filled up with zero bits to two or three symbols. */
  lemma LastBytes(b: seq<byte>)
    requires 1 <= |b| <= 2
    ensures var q := Base64Url.Regroup(b);
            && |q| == |b| + 1
            && (|b| == 1 ==> q[0] as int * 64 + q[1] == b[0] as int * 16)
            && (|b| == 2 ==> q[0] as int * 4096 + q[1] as int * 64 + q[2] == (b[0] as int * 256 + b[1]) * 4)
  {
  }

  /** Longer strings are encoded three bytes at a time. */
  lemma Groupwise(b: seq<byte>)
    requires |b| >= 3
    ensures Base64Url.Encode(b) == Base64Url.Encode(b[..3]) + Base64Url.Encode(b[3..])
  {
    var a := b[..3];
    assert a[3..] == [] && Base64Url.Regroup([]) == [];
    assert a[0] == b[0] && a[1] == b[1] && a[2] == b[2];
    var q := [b[0] / 4, b[0] % 4 * 16 + b[1] / 16, b[1] % 16 * 4 + b[2] / 64, b[2] % 64];
    assert Base64Url.Regroup(a) == q + Base64Url.Regroup(a[3..]) == q;
    assert Base64Url.Regroup(b) == q + Base64Url.Regroup(b[3..]);
  }

  /** Only carriage returns and line feeds are passed over. */
  lemma {:induction false} LineBreaksOnly(s: string)
    ensures Base64Url.DropLineBreaks(s) == Without(s)
  {
    if s != "" {
      LineBreaksOnly(s[1..]);
    }
  }

  function Without(s: string): string {
    if s == "" then ""
    else (if s[0] as int == 13 || s[0] as int == 10 then "" else [s[0]]) + Without(s[1..])
  }

  // ----- UTF-8 -----

  /** One to four bytes, by the size of the code point, six bits to a continuation byte. */
  lemma Utf8Short(c: char)
    requires c as int < 0x800
    ensures var n, b := c as int, Utf8Char(c);
            && (n < 0x80 ==> b == [n])
            && (0x80 <= n ==> |b| == 2 && (b[0] as int - 0xC0) * 64 + (b[1] as int - 0x80) == n && 0x80 <= b[1] < 0xC0)
  {
  }

  lemma Utf8Three(c: char)
    requires 0x800 <= c as int < 0x10000
    ensures var n, b := c as int, Utf8Char(c);
            && |b| == 3 && 0xE0 <= b[0] < 0xF0 && 0x80 <= b[1] < 0xC0 && 0x80 <= b[2] < 0xC0
            && (b[0] as int - 0xE0) * 4096 + (b[1] as int - 0x80) * 64 + (b[2] as int - 0x80) == n
  {
    var n := c as int;
    SixBitParts(n);
  }

  lemma Utf8Four(c: char)
    requires 0x10000 <= c as int
    ensures var n, b := c as int, Utf8Char(c);
            && |b| == 4 && 0xF0 <= b[0] < 0xF5 && 0x80 <= b[1] < 0xC0 && 0x80 <= b[2] < 0xC0 && 0x80 <= b[3] < 0xC0
            && (b[0] as int - 0xF0) * 262144 + (b[1] as int - 0x80) * 4096 + (b[2] as int - 0x80) * 64 + (b[3] as int - 0x80) == n
  {
    var n := c as int;
    SixBitParts(n);
    SixBitParts(n / 64);
    assert n / 64 / 64 == n / 4096 && n / 64 / 4096 == n / 262144;
  }

  lemma SixBitParts(n: int)
    requires 0 <= n
    ensures n / 4096 * 4096 + n / 64 % 64 * 64 + n % 64 == n
  {
    assert n / 64 / 64 == n / 4096;
    assert n == n / 64 * 64 + n % 64;
    assert n / 64 == n / 64 / 64 * 64 + n / 64 % 64;
  }

  // ----- trimming -----

  predicate AllSpace(s: string) {
    forall i :: 0 <= i < |s| ==> s[i] as int in WHITE_SPACE
  }

  /** Trimming takes white space off both ends, all of it, and nothing else. */
  lemma TrimSpaceCuts(s: string) returns (before: string, after: string)
    ensures s == before + TrimSpace(s) + after && AllSpace(before) && AllSpace(after)
    ensures TrimSpace(s) != "" ==> TrimSpace(s)[0] as int !in WHITE_SPACE && TrimSpace(s)[|TrimSpace(s)| - 1] as int !in WHITE_SPACE
  {
    before := CutLeft(s);
    after := CutRight(TrimLeft(s));
    TrimSpaceIsTrimmed(TrimSpace(s));
    TrimSpaceIsTrimmed(s);
    if TrimSpace(s) != "" {
      SpaceRule(TrimSpace(s)[0]);
      SpaceRule(TrimSpace(s)[|TrimSpace(s)| - 1]);
    }
  }

  lemma {:induction false} CutLeft(s: string) returns (before: string)
    ensures s == before + TrimLeft(s) && AllSpace(before)
  {
    if s != "" && IsSpace(s[0]) {
      SpaceRule(s[0]);
      var rest := CutLeft(s[1..]);
      before := [s[0]] + rest;
    } else {
      before := "";
    }
  }

  lemma {:induction false} CutRight(s: string) returns (after: string)
    ensures s == TrimRight(s) + after && AllSpace(after)
  {
    if s != "" && IsSpace(s[|s| - 1]) {
      SpaceRule(s[|s| - 1]);
      var rest := CutRight(s[..|s| - 1]);
      after := rest + [s[|s| - 1]];
    } else {
      after := "";
    }
  }
}
