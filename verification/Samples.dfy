/** The runs of Scenarios, HubScenarios and Misrouting take any values that validation lets
    through. Here are such values, for every set of names. */
module Samples {
  import opened Text
  import opened Tables
  import opened PairingRequests
  import opened Keys
  import opened Scenarios
  import Base64Url
  import Hosts
  import Misrouting

  /** An environment that takes every well-formed point, and short headers. */
  function Lenient(): Env {
    Env((b: seq<byte>) => b, (b: seq<byte>) => true, (h: ClaimHeader) => 0)
  }

  function Zeros(n: nat): (r: seq<byte>)
    ensures |r| == n
  {
    seq(n, i => 0)
  }

  function Point(x: byte): (r: seq<byte>)
    ensures |r| == 65 && r[0] == 4 && r[1] == x
  {
    [4, x] + Zeros(63)
  }

  function PointText(x: byte): string {
    Base64Url.Encode(Point(x))
  }

  lemma PointIsKey(x: byte)
    ensures ValidKey(PointText(x), Lenient().onCurve) && ValidHostKey(PointText(x), Lenient().onCurve)
  {
    Base64Url.DecodeExactEncode(Point(x));
    AuthWantsTrimmedKeys(PointText(x), Lenient().onCurve);
  }

  lemma PointsDiffer()
    ensures PointText(1) != PointText(2)
  {
    Base64Url.DecodeEncode(Point(1));
    Base64Url.DecodeEncode(Point(2));
    assert Point(1)[1] != Point(2)[1];
  }

  lemma ZerosDecode(n: nat)
    requires n > 0
    ensures Base64Url.DecodeExact(Base64Url.Encode(Zeros(n)), n) == Some(Zeros(n))
    ensures Base64Url.DecodeStrict(Base64Url.Encode(Zeros(n))) == Some(Zeros(n))
  {
    Base64Url.DecodeExactEncode(Zeros(n));
  }

  function Sample(t: string, h: string, d: string, c: string): Kit {
    var zeros := Base64Url.Encode(Zeros(16));
    Kit(Hosts.Enrollment(t, h, h, PointText(1), PointText(2), 1),
        ClaimHeader(c, t, h, c, d, PointText(2), 1, Base64Url.Encode(Zeros(32)), 16),
        Base64Url.Encode(Zeros(12)), zeros, Zeros(32),
        Approval(PointText(1), PointText(2), 1, 1, zeros, Base64Url.Encode(Zeros(12)), zeros))
  }

  lemma SampleEnrols(kit: Kit)
    requires kit.enrollment.signingKey == PointText(1) && kit.enrollment.agreementKey == PointText(2) && kit.enrollment.keyVersion == 1
    requires ValidIdentifier(kit.enrollment.tenant) && ValidIdentifier(kit.enrollment.host)
    requires kit.enrollment.displayName == kit.enrollment.host
    ensures Hosts.EnrollmentError(kit.enrollment, Lenient().onCurve).None?
  {
    PointIsKey(1);
    PointIsKey(2);
    PointsDiffer();
  }

  lemma SampleClaims(h: ClaimHeader, nonce: string, ciphertext: string)
    requires ValidIdentifier(h.invite) && ValidIdentifier(h.tenant) && ValidIdentifier(h.host) && ValidIdentifier(h.claim) && ValidIdentifier(h.device)
    requires h.keyVersion == 1 && h.agreementKey == PointText(2) && h.clientNonce == Base64Url.Encode(Zeros(32))
    requires nonce == Base64Url.Encode(Zeros(12)) && ciphertext == Base64Url.Encode(Zeros(16)) && h.ciphertextLength == 16
    ensures ClaimError(Lenient(), h, nonce, ciphertext).None?
  {
    PointIsKey(2);
    ZerosDecode(32);
    ZerosDecode(12);
    ZerosDecode(16);
  }

  lemma SampleApproves(kit: Kit)
    requires ValidIdentifier(kit.header.tenant) && ValidIdentifier(kit.header.host) && ValidIdentifier(kit.header.claim)
    requires kit.approval == Sample("", "", "", "").approval
    ensures ApprovalError(Lenient(), RequestOf(kit)).None?
  {
    PointIsKey(1);
    PointIsKey(2);
    PointsDiffer();
    ZerosDecode(12);
    ZerosDecode(16);
  }

  lemma SampleIsGenuine(t: string, h: string, d: string, c: string)
    requires ValidIdentifier(t) && ValidIdentifier(h) && ValidIdentifier(d) && ValidIdentifier(c)
    ensures Genuine(Lenient(), Sample(t, h, d, c)) && Misrouting.NamedSo(Sample(t, h, d, c), t, h, d, c)
  {
    var kit := Sample(t, h, d, c);
    SampleEnrols(kit);
    SampleClaims(kit.header, kit.nonce, kit.ciphertext);
    SampleApproves(kit);
  }

  /** Every set of valid names can be paired. */
  lemma SamplesPair()
    ensures Misrouting.CanPair(Lenient())
  {
    forall t, h, d, c | ValidIdentifier(t) && ValidIdentifier(h) && ValidIdentifier(d) && ValidIdentifier(c)
      ensures Misrouting.Pairable(Lenient(), t, h, d, c)
    {
      SampleIsGenuine(t, h, d, c);
    }
  }
}
