/** The order of the listing, as the store compares texts: byte by byte in UTF-8. */
module ListingOrder {
  import opened Text
  import opened Tables
  import opened PairingService
  import opened Alphabets

  /** One byte string sorts before another: at the first difference it has the smaller byte,
      or it has ended. */
  ghost predicate BytesBefore(a: seq<byte>, b: seq<byte>) {
    exists n: nat :: FirstDifference(a, b, n)
  }

  predicate FirstDifference(a: seq<byte>, b: seq<byte>, n: nat) {
    n <= |a| && n < |b| && a[..n] == b[..n] && (n == |a| || a[n] < b[n])
  }

  /** A smaller code point differs first in a smaller byte, within both encodings. */
  lemma CharOrder(c: char, d: char) returns (n: nat)
    requires c < d
    ensures n < |Utf8Char(c)| && n < |Utf8Char(d)| && Utf8Char(c)[..n] == Utf8Char(d)[..n] && Utf8Char(c)[n] < Utf8Char(d)[n]
  {
    var x, y := Utf8Char(c), Utf8Char(d);
    CharWeight(c);
    CharWeight(d);
    if x[0] != y[0] {
      n := 0;
    } else if x[1] != y[1] {
      n := 1;
    } else if x[2] != y[2] {
      n := 2;
    } else {
      n := 3;
    }
  }

  /** The bytes of a code point, and where their lead byte lies. */
  lemma CharWeight(c: char)
    ensures var n, b := c as int, Utf8Char(c);
            && (|b| == 1 ==> b[0] == n && b[0] < 0x80)
            && (|b| == 2 ==> 0xC0 <= b[0] < 0xE0 && (b[0] as int - 0xC0) * 64 + (b[1] as int - 0x80) == n && 0x80 <= b[1] < 0xC0)
            && (|b| == 3 ==> 0xE0 <= b[0] < 0xF0 && 0x80 <= b[1] < 0xC0 && 0x80 <= b[2] < 0xC0
                             && (b[0] as int - 0xE0) * 4096 + (b[1] as int - 0x80) * 64 + (b[2] as int - 0x80) == n)
            && (|b| == 4 ==> 0xF0 <= b[0] < 0xF5 && 0x80 <= b[1] < 0xC0 && 0x80 <= b[2] < 0xC0 && 0x80 <= b[3] < 0xC0
                             && (b[0] as int - 0xF0) * 262144 + (b[1] as int - 0x80) * 4096 + (b[2] as int - 0x80) * 64 + (b[3] as int - 0x80) == n)
            && (|b| == 1 <==> n < 0x80) && (|b| == 2 <==> 0x80 <= n < 0x800) && (|b| == 3 <==> 0x800 <= n < 0x10000)
  {
    if c as int < 0x800 {
      Utf8Short(c);
    } else if c as int < 0x10000 {
      Utf8Three(c);
    } else {
      Utf8Four(c);
    }
  }

  lemma HeadDiffers(c: char, x: seq<byte>, d: char, y: seq<byte>)
    requires c < d
    ensures BytesBefore(Utf8Char(c) + x, Utf8Char(d) + y)
  {
    var n := CharOrder(c, d);
    var a, b := Utf8Char(c) + x, Utf8Char(d) + y;
    assert a[..n] == Utf8Char(c)[..n] && b[..n] == Utf8Char(d)[..n];
    assert FirstDifference(a, b, n);
  }

  lemma SameHead(h: seq<byte>, x: seq<byte>, y: seq<byte>)
    requires BytesBefore(x, y)
    ensures BytesBefore(h + x, h + y)
  {
    var n: nat :| FirstDifference(x, y, n);
    var a, b := h + x, h + y;
    assert a[..|h| + n] == h + x[..n] && b[..|h| + n] == h + y[..n];
    assert FirstDifference(a, b, |h| + n);
  }

  /** Texts sort as their bytes do. */
  lemma {:induction false} TextsSortAsBytes(a: string, b: string)
    requires TextBefore(a, b)
    ensures BytesBefore(Utf8(a), Utf8(b))
  {
    if a == "" {
      assert FirstDifference(Utf8(a), Utf8(b), 0);
    } else if a[0] == b[0] {
      TextsSortAsBytes(a[1..], b[1..]);
      SameHead(Utf8Char(a[0]), Utf8(a[1..]), Utf8(b[1..]));
    } else {
      HeadDiffers(a[0], Utf8(a[1..]), b[0], Utf8(b[1..]));
    }
  }

  /** In a listing the older claim comes first, and of two of one age the one whose id has the
      smaller bytes; so no claim is listed twice. */
  lemma ListedInOrder(rows: map<string, ClaimRow>, ids: seq<string>, i: nat, j: nat)
    requires InOrder(rows, ids) && i < j < |ids|
    ensures ids[i] in rows && ids[j] in rows && ids[i] != ids[j]
    ensures rows[ids[i]].createdAt <= rows[ids[j]].createdAt
    ensures rows[ids[i]].createdAt == rows[ids[j]].createdAt ==> BytesBefore(Utf8(ids[i]), Utf8(ids[j]))
  {
    assert Before(rows, ids[i], ids[j]);
    TextOrder(ids[i], ids[i], ids[i]);
    if rows[ids[i]].createdAt == rows[ids[j]].createdAt {
      TextsSortAsBytes(ids[i], ids[j]);
    }
  }
}
