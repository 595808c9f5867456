/** Length-prefixed byte transcripts, with the reader that takes them apart again. */
module Canonical {
  import opened Text

  const TWO_32: int := 0x1_0000_0000
  const TWO_63: int := 0x8000_0000_0000_0000
  const TWO_64: int := 0x1_0000_0000_0000_0000

  type int64 = v: int | -0x8000_0000_0000_0000 <= v < 0x8000_0000_0000_0000

  function Pow256(k: nat): (r: nat)
    ensures r > 0
  {
    if k == 0 then 1 else 256 * Pow256(k - 1)
  }

  lemma WordSizes()
    ensures Pow256(4) == TWO_32 && Pow256(8) == TWO_64
  {
    assert Pow256(4) == 256 * (256 * (256 * (256 * Pow256(0))));
    assert Pow256(8) == 256 * (256 * (256 * (256 * Pow256(4))));
  }

  /** The low k bytes of n, most significant first. */
  function BigEndian(n: nat, k: nat): (r: seq<byte>)
    ensures |r| == k
  {
    if k == 0 then [] else BigEndian(n / 256, k - 1) + [n % 256]
  }

  function FromBigEndian(b: seq<byte>): nat {
    if b == [] then 0 else 256 * FromBigEndian(b[..|b| - 1]) + b[|b| - 1]
  }

  lemma {:induction false} BigEndianRoundTrip(n: nat, k: nat)
    requires n < Pow256(k)
    ensures FromBigEndian(BigEndian(n, k)) == n
  {
    if k > 0 {
      BigEndianRoundTrip(n / 256, k - 1);
      assert BigEndian(n, k)[..k - 1] == BigEndian(n / 256, k - 1);
    }
  }

  /** AppendField panics on a field longer than a uint32 can count. */
  function AppendField(dst: seq<byte>, value: seq<byte>): seq<byte>
    requires |value| < TWO_32
  {
    dst + BigEndian(|value|, 4) + value
  }

  function AppendInt64(dst: seq<byte>, value: int64): seq<byte> {
    dst + BigEndian(if value < 0 then value as int + TWO_64 else value, 8)
  }

  datatype Parsed<+T> = Parsed(value: T, rest: seq<byte>)

  function ReadField(b: seq<byte>): Option<Parsed<seq<byte>>> {
    if |b| < 4 then None
    else
      var n := FromBigEndian(b[..4]);
      if |b| < 4 + n then None else Some(Parsed(b[4..4 + n], b[4 + n..]))
  }

  function ReadInt64(b: seq<byte>): Option<Parsed<int>> {
    if |b| < 8 then None
    else
      var n := FromBigEndian(b[..8]);
      Some(Parsed(if n >= TWO_63 then n - TWO_64 else n, b[8..]))
  }

  /** Reading undoes appending, whatever follows. */
  lemma FieldRoundTrip(value: seq<byte>, rest: seq<byte>)
    requires |value| < TWO_32
    ensures ReadField(AppendField([], value) + rest) == Some(Parsed(value, rest))
  {
    var b := AppendField([], value) + rest;
    WordSizes();
    BigEndianRoundTrip(|value|, 4);
    assert b[..4] == BigEndian(|value|, 4);
    assert b[4..4 + |value|] == value;
    assert b[4 + |value|..] == rest;
  }

  lemma Int64RoundTrip(value: int64, rest: seq<byte>)
    ensures ReadInt64(AppendInt64([], value) + rest) == Some(Parsed(value, rest))
  {
    var n := if value < 0 then value as int + TWO_64 else value;
    WordSizes();
    BigEndianRoundTrip(n, 8);
    var b := AppendInt64([], value) + rest;
    assert b[..8] == BigEndian(n, 8);
    assert b[8..] == rest;
  }

  /** A transcript item: a length-prefixed field or a fixed eight-byte integer. */
  datatype Item = Field(bytes: seq<byte>) | Word(number: int64)

  predicate Fits(item: Item) {
    item.Field? ==> |item.bytes| < TWO_32
  }

  predicate AllFit(items: seq<Item>) {
    forall i :: 0 <= i < |items| ==> Fits(items[i])
  }

  function Append(dst: seq<byte>, item: Item): seq<byte>
    requires Fits(item)
  {
    match item
    case Field(b) => AppendField(dst, b)
    case Word(n) => AppendInt64(dst, n)
  }

  function Transcript(items: seq<Item>): seq<byte>
    requires AllFit(items)
  {
    if items == [] then [] else Append(Transcript(items[..|items| - 1]), items[|items| - 1])
  }

  /** The shape of a transcript: which items are fields. */
  predicate SameShape(a: seq<Item>, b: seq<Item>) {
    |a| == |b| && forall i :: 0 <= i < |a| ==> a[i].Field? == b[i].Field?
  }

  lemma AppendShifts(a: seq<byte>, b: seq<byte>, item: Item)
    requires Fits(item)
    ensures Append(a + b, item) == a + Append(b, item)
  {
  }

  lemma {:induction false} TranscriptHead(items: seq<Item>)
    requires items != []
    requires AllFit(items)
    ensures Transcript(items) == Append([], items[0]) + Transcript(items[1..])
  {
    var n := |items| - 1;
    if n == 0 {
      assert items[1..] == [] && items[..0] == [];
    } else {
      var middle := items[..n][1..];
      TranscriptHead(items[..n]);
      assert middle == items[1..][..n - 1] && items[1..][n - 1] == items[n];
      assert Transcript(items) == Append(Append([], items[0]) + Transcript(middle), items[n]);
      AppendShifts(Append([], items[0]), Transcript(middle), items[n]);
      assert Transcript(items[1..]) == Append(Transcript(middle), items[n]);
    }
  }

  /** Two byte strings that open with an item of one kind and agree, agree on the item. */
  lemma SameHead(p: Item, x: seq<byte>, q: Item, y: seq<byte>)
    requires Fits(p) && Fits(q) && p.Field? == q.Field? && Append([], p) + x == Append([], q) + y
    ensures p == q && x == y
  {
    if p.Field? {
      FieldRoundTrip(p.bytes, x);
      FieldRoundTrip(q.bytes, y);
    } else {
      Int64RoundTrip(p.number, x);
      Int64RoundTrip(q.number, y);
    }
  }

  lemma SameTail(a: seq<Item>, b: seq<Item>)
    requires AllFit(a) && AllFit(b) && SameShape(a, b) && a != [] && Transcript(a) == Transcript(b)
    ensures a[0] == b[0] && AllFit(a[1..]) && AllFit(b[1..]) && Transcript(a[1..]) == Transcript(b[1..])
  {
    TranscriptHead(a);
    TranscriptHead(b);
    SameHead(a[0], Transcript(a[1..]), b[0], Transcript(b[1..]));
  }

  /** Unique decodability: two transcripts of one shape with equal bytes have equal items. */
  lemma {:induction false} TranscriptInjective(a: seq<Item>, b: seq<Item>)
    requires AllFit(a) && AllFit(b) && SameShape(a, b) && Transcript(a) == Transcript(b)
    ensures a == b
  {
    if a != [] {
      SameTail(a, b);
      TranscriptInjective(a[1..], b[1..]);
      assert a == [a[0]] + a[1..] && b == [b[0]] + b[1..];
    }
  }

  /** Transcripts that open with different fields never coincide, whatever follows. */
  lemma OpeningFieldSeparates(a: seq<Item>, b: seq<Item>)
    requires a != [] && b != [] && a[0].Field? && b[0].Field? && a[0] != b[0]
    requires AllFit(a) && AllFit(b)
    ensures Transcript(a) != Transcript(b)
  {
    TranscriptHead(a);
    TranscriptHead(b);
    FieldRoundTrip(a[0].bytes, Transcript(a[1..]));
    FieldRoundTrip(b[0].bytes, Transcript(b[1..]));
  }
}
