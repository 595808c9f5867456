/** Unpadded base64url (section 5 of RFC 4648), Go's strict decoder for it, and the
    three ways the relay accepts such text. */
module Base64Url {
  import opened Text

  type sextet = v: int | 0 <= v < 64

  function Digit(v: sextet): char {
    if v < 26 then 'A' + v as char
    else if v < 52 then 'a' + (v as int - 26) as char
    else if v < 62 then '0' + (v as int - 52) as char
    else if v == 62 then '-'
    else '_'
  }

  function Value(c: char): (r: Option<sextet>) {
    if 'A' <= c <= 'Z' then Some(c as int - 'A' as int)
    else if 'a' <= c <= 'z' then Some(c as int - 'a' as int + 26)
    else if '0' <= c <= '9' then Some(c as int - '0' as int + 52)
    else if c == '-' then Some(62)
    else if c == '_' then Some(63)
    else None
  }

  /** The alphabet is a bijection with the 64 values. */
  lemma DigitValue(v: sextet)
    ensures Value(Digit(v)) == Some(v)
  {
  }

  lemma ValueDigit(c: char)
    requires Value(c).Some?
    ensures Digit(Value(c).value) == c
  {
  }

  /** Three bytes regroup as four sextets; a tail of one or two bytes is filled with zero bits. */
  function Regroup(b: seq<byte>): seq<sextet> {
    if |b| == 0 then []
    else if |b| == 1 then [b[0] / 4, b[0] % 4 * 16]
    else if |b| == 2 then [b[0] / 4, b[0] % 4 * 16 + b[1] / 16, b[1] % 16 * 4]
    else [b[0] / 4, b[0] % 4 * 16 + b[1] / 16, b[1] % 16 * 4 + b[2] / 64, b[2] % 64] + Regroup(b[3..])
  }

  function FirstByte(p: sextet, q: sextet): byte {
    p as int * 4 + q / 16
  }

  function SecondByte(q: sextet, r: sextet): byte {
    q as int % 16 * 16 + r / 4
  }

  function ThirdByte(r: sextet, t: sextet): byte {
    r as int % 4 * 64 + t
  }

  /** Strict inverse of Regroup: a dangling sextet and non-zero filler bits are errors. */
  function Ungroup(q: seq<sextet>): Option<seq<byte>> {
    if |q| == 0 then Some([])
    else if |q| == 1 then None
    else if |q| == 2 then
      if q[1] % 16 == 0 then Some([FirstByte(q[0], q[1])]) else None
    else if |q| == 3 then
      if q[2] % 4 == 0 then Some([FirstByte(q[0], q[1]), SecondByte(q[1], q[2])]) else None
    else
      match Ungroup(q[4..])
      case Some(rest) => Some([FirstByte(q[0], q[1]), SecondByte(q[1], q[2]), ThirdByte(q[2], q[3])] + rest)
      case None => None
  }

  function Digits(q: seq<sextet>): string {
    seq(|q|, i requires 0 <= i < |q| => Digit(q[i]))
  }

  predicate InAlphabet(s: string) {
    forall i :: 0 <= i < |s| ==> Value(s[i]).Some?
  }

  function Values(s: string): seq<sextet>
    requires InAlphabet(s)
  {
    seq(|s|, i requires 0 <= i < |s| => Value(s[i]).value)
  }

  /** base64.RawURLEncoding.EncodeToString. */
  function Encode(b: seq<byte>): string {
    Digits(Regroup(b))
  }

  /** Strict decoding of text without line breaks. */
  function DecodeDigits(s: string): Option<seq<byte>> {
    if InAlphabet(s) then Ungroup(Values(s)) else None
  }

  /** The decoder passes over carriage returns and line feeds wherever they stand. */
  function DropLineBreaks(s: string): (r: string)
    ensures InAlphabet(s) ==> r == s
  {
    if s == "" then ""
    else if s[0] == '\r' || s[0] == '\n' then DropLineBreaks(s[1..])
    else [s[0]] + DropLineBreaks(s[1..])
  }

  /** base64.RawURLEncoding.Strict().DecodeString. */
  function StrictDecode(s: string): Option<seq<byte>> {
    DecodeDigits(DropLineBreaks(s))
  }

  /** decodeBase64 of the frame parser: decode, then insist on the encoder's spelling. */
  function DecodeBase64(s: string): (r: Option<seq<byte>>) {
    if '=' in s then None
    else
      match StrictDecode(s)
      case Some(b) => if Encode(b) == s then Some(b) else None
      case None => None
  }

  predicate ValidBase64(s: string, length: nat) {
    DecodeBase64(s).Some? && |DecodeBase64(s).value| == length
  }

  /** decodeStrict of the pairing service: no spelling check, only trimmed and non-empty. */
  function DecodeStrict(s: string): Option<seq<byte>> {
    if s == "" || !Trimmed(s) then None else StrictDecode(s)
  }

  /** decodeExact of the auth and pairing services. */
  function DecodeExact(s: string, length: nat): Option<seq<byte>> {
    match DecodeStrict(s)
    case Some(b) => if |b| == length then Some(b) else None
    case None => None
  }

  function EncodedLength(size: nat): nat {
    4 * (size / 3) + if size % 3 == 0 then 0 else size % 3 + 1
  }

  lemma DigitsValues(q: seq<sextet>)
    ensures InAlphabet(Digits(q)) && Values(Digits(q)) == q
  {
    forall i | 0 <= i < |q| ensures Value(Digits(q)[i]) == Some(q[i]) {
      DigitValue(q[i]);
    }
  }

  lemma ValuesDigits(s: string)
    requires InAlphabet(s)
    ensures Digits(Values(s)) == s
  {
    forall i | 0 <= i < |s| ensures Digit(Values(s)[i]) == s[i] {
      ValueDigit(s[i]);
    }
  }

  lemma {:induction false} UngroupRegroup(b: seq<byte>)
    ensures Ungroup(Regroup(b)) == Some(b)
  {
    var q := Regroup(b);
    if |b| >= 3 {
      UngroupRegroup(b[3..]);
      assert q[4..] == Regroup(b[3..]);
      assert FirstByte(q[0], q[1]) == b[0] && SecondByte(q[1], q[2]) == b[1] && ThirdByte(q[2], q[3]) == b[2];
      assert b == [b[0], b[1], b[2]] + b[3..];
    } else if |b| == 2 {
      assert FirstByte(q[0], q[1]) == b[0] && SecondByte(q[1], q[2]) == b[1];
      assert b == [b[0], b[1]];
    } else if |b| == 1 {
      assert FirstByte(q[0], q[1]) == b[0];
      assert b == [b[0]];
    }
  }

  lemma SextetsOfBytes(p: sextet, q: sextet, r: sextet, t: sextet)
    ensures FirstByte(p, q) / 4 == p
    ensures FirstByte(p, q) % 4 * 16 + SecondByte(q, r) / 16 == q
    ensures SecondByte(q, r) % 16 * 4 + ThirdByte(r, t) / 64 == r
    ensures ThirdByte(r, t) % 64 == t
  {
  }

  lemma {:induction false} RegroupUngroup(q: seq<sextet>)
    requires Ungroup(q).Some?
    ensures Regroup(Ungroup(q).value) == q
  {
    var b := Ungroup(q).value;
    if |q| >= 4 {
      RegroupUngroup(q[4..]);
      SextetsOfBytes(q[0], q[1], q[2], q[3]);
      assert b[3..] == Ungroup(q[4..]).value;
      assert Regroup(b) == [q[0], q[1], q[2], q[3]] + Regroup(b[3..]);
      assert q == [q[0], q[1], q[2], q[3]] + q[4..];
    } else if |q| == 3 {
      SextetsOfBytes(q[0], q[1], q[2], 0);
      assert Regroup(b) == [q[0], q[1], q[2]] == q;
    } else if |q| == 2 {
      SextetsOfBytes(q[0], q[1], 0, 0);
      assert Regroup(b) == [q[0], q[1]] == q;
    }
  }

  /** Decoding gives back the encoded bytes. */
  lemma DecodeEncode(b: seq<byte>)
    ensures InAlphabet(Encode(b))
    ensures StrictDecode(Encode(b)) == Some(b)
  {
    DigitsValues(Regroup(b));
    UngroupRegroup(b);
  }

  /** Text that decodes is the encoding of what it decodes to. */
  lemma EncodeDecode(s: string)
    requires DecodeDigits(s).Some?
    ensures Encode(DecodeDigits(s).value) == s
  {
    ValuesDigits(s);
    RegroupUngroup(Values(s));
  }

  /** What Go's strict decoder accepts: exactly the encodings, with CR and LF strewn in. */
  lemma StrictDecodeAccepts(s: string, b: seq<byte>)
    ensures StrictDecode(s) == Some(b) <==> DropLineBreaks(s) == Encode(b)
  {
    DecodeEncode(b);
    if StrictDecode(s) == Some(b) {
      EncodeDecode(DropLineBreaks(s));
    }
  }

  /** decodeBase64 accepts exactly the encoder's own output, so the two are mutually inverse. */
  lemma DecodeBase64Accepts(s: string, b: seq<byte>)
    ensures DecodeBase64(s) == Some(b) <==> s == Encode(b)
  {
    if s == Encode(b) {
      DecodeEncode(b);
      assert Value('=').None?;
    }
  }

  /** decodeExact accepts exactly the trimmed, non-empty spellings of a byte string of
      the wanted length whose only liberty is interior line breaks. */
  lemma DecodeExactAccepts(s: string, length: nat, b: seq<byte>)
    ensures DecodeExact(s, length) == Some(b)
      <==> s != "" && Trimmed(s) && |b| == length && DropLineBreaks(s) == Encode(b)
  {
    StrictDecodeAccepts(s, b);
  }

  lemma DecodeExactEncode(b: seq<byte>)
    requires b != []
    ensures DecodeExact(Encode(b), |b|) == Some(b)
  {
    DecodeEncode(b);
    EncodeLength(b);
    var s := Encode(b);
    assert Value(s[0]).Some? && Value(s[|s| - 1]).Some?;
    TrimSpaceIsTrimmed(s);
  }

  lemma EncodingOfABC()
    ensures Encode([65, 66, 67]) == "QUJD" && DropLineBreaks("QUJD") == "QUJD"
  {
    assert Regroup([65, 66, 67]) == [16, 20, 9, 3];
    assert Digit(16) == 'Q' && Digit(20) == 'U' && Digit(9) == 'J' && Digit(3) == 'D';
    assert InAlphabet("QUJD");
  }

  lemma BrokenSpelling()
    ensures DropLineBreaks("QU\nJD") == "QUJD"
  {
    var s := "QU\nJD";
    assert s[1..] == "U\nJD" && s[1..][1..] == "\nJD" && s[1..][1..][1..] == "JD";
    assert InAlphabet("JD");
    assert DropLineBreaks(s) == ['Q'] + (['U'] + "JD") == "QUJD";
  }

  /** So, unlike decodeBase64, decodeExact does not fix the spelling. */
  lemma DecodeExactIsNotCanonical()
    ensures "QU\nJD" != "QUJD"
    ensures DecodeExact("QU\nJD", 3) == DecodeExact("QUJD", 3) == Some([65, 66, 67])
    ensures DecodeBase64("QU\nJD") == None
  {
    var s := "QU\nJD";
    EncodingOfABC();
    BrokenSpelling();
    TrimSpaceIsTrimmed(s);
    TrimSpaceIsTrimmed("QUJD");
    DecodeExactAccepts(s, 3, [65, 66, 67]);
    DecodeExactAccepts("QUJD", 3, [65, 66, 67]);
    DecodeBase64Accepts(s, [65, 66, 67]);
  }

  lemma {:induction false} EncodeLength(b: seq<byte>)
    ensures |Regroup(b)| == |Encode(b)| == EncodedLength(|b|)
  {
    if |b| >= 3 {
      EncodeLength(b[3..]);
      assert |b| / 3 == (|b| - 3) / 3 + 1 && |b| % 3 == (|b| - 3) % 3;
    }
  }
}
