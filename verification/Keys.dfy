/** Public keys as the services accept them: 65 bytes, uncompressed, on the curve. */
module Keys {
  import opened Text
  import Base64Url

  predicate PointBytes(b: seq<byte>, onCurve: seq<byte> -> bool) {
    |b| == 65 && b[0] == 4 && onCurve(b)
  }

  /** The rule of the auth and pairing services: decodeExact, then the point check. */
  predicate ValidKey(key: string, onCurve: seq<byte> -> bool) {
    match Base64Url.DecodeExact(key, 65)
    case Some(b) => PointBytes(b, onCurve)
    case None => false
  }

  /** The rule of host enrolment: the decoder alone, then the point check. */
  predicate ValidHostKey(key: string, onCurve: seq<byte> -> bool) {
    match Base64Url.StrictDecode(key)
    case Some(b) => PointBytes(b, onCurve)
    case None => false
  }

  /** Enrolment is the laxer of the two, by white space at the ends and nothing else. */
  lemma AuthWantsTrimmedKeys(key: string, onCurve: seq<byte> -> bool)
    ensures ValidKey(key, onCurve) <==> ValidHostKey(key, onCurve) && Trimmed(key)
  {
  }

  lemma {:induction false} TrailingBreakDropped(s: string)
    ensures Base64Url.DropLineBreaks(s + "\n") == Base64Url.DropLineBreaks(s)
  {
    if s == "" {
      assert (s + "\n")[1..] == "";
    } else {
      assert (s + "\n")[0] == s[0] && (s + "\n")[1..] == s[1..] + "\n";
      TrailingBreakDropped(s[1..]);
    }
  }

  /** A key with a line break at its end enrols a host but never authenticates one. */
  lemma TrailingBreakKey(key: string, onCurve: seq<byte> -> bool)
    requires ValidHostKey(key, onCurve)
    ensures ValidHostKey(key + "\n", onCurve) && !ValidKey(key + "\n", onCurve)
  {
    TrailingBreakDropped(key);
    var s := key + "\n";
    assert IsSpace(s[|s| - 1]);
    TrimSpaceIsTrimmed(s);
    AuthWantsTrimmedKeys(s, onCurve);
  }
}
