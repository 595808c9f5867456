/** Strings as the relay sees them: Unicode text, its UTF-8 bytes, Go's notion of
    white space, and the identifier rule shared by the services. */
module Text {

  datatype Option<+T> = None | Some(value: T) {
    predicate IsFailure() {
      None?
    }

    function PropagateFailure<U>(): Option<U>
      requires None?
    {
      None
    }

    function Extract(): T
      requires Some?
    {
      value
    }
  }

  type byte = b: int | 0 <= b < 256

  const MAX_IDENTIFIER_BYTES := 128

  /** Go's unicode.IsSpace. */
  predicate IsSpace(c: char) {
    var n := c as int;
    9 <= n <= 13 || n == 0x20 || n == 0x85 || n == 0xA0 || n == 0x1680 || 0x2000 <= n <= 0x200A
    || n == 0x2028 || n == 0x2029 || n == 0x202F || n == 0x205F || n == 0x3000
  }

  function TrimLeft(s: string): string {
    if s != "" && IsSpace(s[0]) then TrimLeft(s[1..]) else s
  }

  function TrimRight(s: string): string {
    if s != "" && IsSpace(s[|s| - 1]) then TrimRight(s[..|s| - 1]) else s
  }

  /** Go's strings.TrimSpace. */
  function TrimSpace(s: string): string {
    TrimRight(TrimLeft(s))
  }

  predicate Trimmed(s: string) {
    TrimSpace(s) == s
  }

  lemma {:induction false} TrimLeftStarts(s: string)
    ensures TrimLeft(s) == "" || !IsSpace(TrimLeft(s)[0])
    ensures |TrimLeft(s)| <= |s|
    ensures s == "" || !IsSpace(s[0]) ==> TrimLeft(s) == s
  {
    if s != "" && IsSpace(s[0]) {
      TrimLeftStarts(s[1..]);
    }
  }

  lemma {:induction false} TrimRightEnds(s: string)
    ensures TrimRight(s) <= s
    ensures TrimRight(s) == "" || !IsSpace(TrimRight(s)[|TrimRight(s)| - 1])
    ensures s == "" || !IsSpace(s[|s| - 1]) ==> TrimRight(s) == s
  {
    if s != "" && IsSpace(s[|s| - 1]) {
      TrimRightEnds(s[..|s| - 1]);
    }
  }

  /** Trimming is idempotent, and the strings it leaves alone are exactly those
      with no white space at either end. */
  lemma {:induction false} TrimSpaceIsTrimmed(s: string)
    ensures Trimmed(TrimSpace(s))
    ensures Trimmed(s) <==> s == "" || (!IsSpace(s[0]) && !IsSpace(s[|s| - 1]))
  {
    TrimLeftStarts(s);
    TrimRightEnds(TrimLeft(s));
    var t := TrimSpace(s);
    TrimLeftStarts(t);
    TrimRightEnds(t);
    if Trimmed(s) && s != "" {
      assert |TrimLeft(s)| == |s|;
      assert !IsSpace(s[0]) by {
        if |s| > 1 {
          TrimLeftStarts(s[1..]);
        }
      }
    }
    if s == "" || !IsSpace(s[0]) {
      TrimRightEnds(s);
    }
  }

  function Utf8Char(c: char): (r: seq<byte>)
    ensures 1 <= |r| <= 4
  {
    var n := c as int;
    if n < 0x80 then [n]
    else if n < 0x800 then [0xC0 + n / 64, 0x80 + n % 64]
    else if n < 0x10000 then [0xE0 + n / 4096, 0x80 + n / 64 % 64, 0x80 + n % 64]
    else [0xF0 + n / 262144, 0x80 + n / 4096 % 64, 0x80 + n / 64 % 64, 0x80 + n % 64]
  }

  /** The bytes of a Go string holding this text. */
  function Utf8(s: string): (r: seq<byte>)
    ensures |s| <= |r| <= 4 * |s|
  {
    if s == "" then [] else Utf8Char(s[0]) + Utf8(s[1..])
  }

  /** Reads back the code point at the head of an encoded stream. */
  function CodePointAt(b: seq<byte>): int {
    if |b| >= 1 && b[0] < 0x80 then b[0]
    else if |b| >= 2 && b[0] < 0xE0 then SixBits(b[0] as int - 0xC0, b[1])
    else if |b| >= 3 && b[0] < 0xF0 then SixBits(SixBits(b[0] as int - 0xE0, b[1]), b[2])
    else if |b| >= 4 then SixBits(SixBits(SixBits(b[0] as int - 0xF0, b[1]), b[2]), b[3])
    else 0
  }

  function SixBits(high: int, continuation: int): int {
    high * 64 + (continuation - 0x80)
  }

  lemma SplitSixBits(n: int)
    ensures SixBits(n / 64, 0x80 + n % 64) == n
    ensures n / 64 / 64 == n / 4096
    ensures n / 4096 / 64 == n / 262144
  {
  }

  lemma CodePointRoundTrip(c: char, rest: seq<byte>)
    ensures CodePointAt(Utf8Char(c) + rest) == c as int
  {
    var n := c as int;
    var b := Utf8Char(c) + rest;
    SplitSixBits(n);
    SplitSixBits(n / 64);
    SplitSixBits(n / 4096);
    if n < 0x80 {
      assert b[0] == n;
    } else if n < 0x800 {
      assert b[0] == 0xC0 + n / 64 && b[1] == 0x80 + n % 64;
    } else if n < 0x10000 {
      assert b[0] == 0xE0 + n / 4096 && b[1] == 0x80 + n / 64 % 64 && b[2] == 0x80 + n % 64;
    } else {
      assert b[0] == 0xF0 + n / 262144 && b[1] == 0x80 + n / 4096 % 64;
      assert b[2] == 0x80 + n / 64 % 64 && b[3] == 0x80 + n % 64;
    }
  }

  lemma {:induction false} Utf8Concat(a: string, b: string)
    ensures Utf8(a + b) == Utf8(a) + Utf8(b)
  {
    if a == "" {
      assert a + b == b;
    } else {
      var s := a + b;
      assert s[0] == a[0] && s[1..] == a[1..] + b;
      Utf8Concat(a[1..], b);
      assert Utf8(s) == Utf8Char(a[0]) + Utf8(s[1..]);
      assert Utf8(a) == Utf8Char(a[0]) + Utf8(a[1..]);
    }
  }

  /** Equal bytes come from equal text. */
  lemma {:induction false} Utf8Injective(a: string, b: string)
    requires Utf8(a) == Utf8(b)
    ensures a == b
  {
    if a != "" && b != "" {
      CodePointRoundTrip(a[0], Utf8(a[1..]));
      CodePointRoundTrip(b[0], Utf8(b[1..]));
      assert a[0] == b[0];
      var n := |Utf8Char(a[0])|;
      assert Utf8(a)[n..] == Utf8(a[1..]);
      assert Utf8(b)[n..] == Utf8(b[1..]);
      Utf8Injective(a[1..], b[1..]);
      assert a == [a[0]] + a[1..];
      assert b == [b[0]] + b[1..];
    }
  }

  predicate HasSpace(s: string) {
    exists i :: 0 <= i < |s| && IsSpace(s[i])
  }

  /** validIdentifier: non-empty, at most 128 bytes, without white space anywhere. */
  predicate ValidIdentifier(s: string) {
    s != "" && |Utf8(s)| <= MAX_IDENTIFIER_BYTES && Trimmed(s) && !HasSpace(s)
  }
}
