/** The two byte strings that are signed during authentication: the relay's challenge
    and the subject's proof. */
module Transcripts {
  import opened Text
  import opened Canonical
  import Base64Url

  const PROTOCOL_VERSION: int64 := 1
  const CREDENTIAL_BYTES := 32
  const TAG_PREFIX := "MYCODEX-RELAY-"
  const CHALLENGE_TAG := TAG_PREFIX + "CHALLENGE-V1"
  const PROOF_TAG := TAG_PREFIX + "PROOF-V1"

  /** The six fields a challenge and a ticket are bound to. */
  datatype Scope = Scope(
    subjectType: string,
    subjectId: string,
    tenant: string,
    host: string,
    device: string,
    purpose: string)

  datatype Challenge = Challenge(
    version: int64,
    fingerprint: string,
    id: string,
    value: string,
    scope: Scope,
    issuedAt: int64,
    expiresAt: int64,
    relaySignature: string)

  predicate Short(s: string) {
    |Utf8(s)| < TWO_32
  }

  /** Every string that enters a transcript as text is countable by its length prefix. */
  predicate ShortTexts(c: Challenge) {
    && Short(c.id) && Short(c.scope.subjectType) && Short(c.scope.subjectId) && Short(c.scope.tenant)
    && Short(c.scope.host) && Short(c.scope.device) && Short(c.scope.purpose)
  }

  function StringItem(s: string): Item {
    Field(Utf8(s))
  }

  function ChallengeItems(c: Challenge, fingerprint: seq<byte>, value: seq<byte>): (r: seq<Item>)
    requires ShortTexts(c) && |fingerprint| == 32 && |value| == CREDENTIAL_BYTES
    ensures AllFit(r)
  {
    [StringItem(CHALLENGE_TAG), Word(c.version), Field(fingerprint), StringItem(c.id), Field(value),
     StringItem(c.scope.subjectType), StringItem(c.scope.subjectId), StringItem(c.scope.tenant),
     StringItem(c.scope.host), StringItem(c.scope.device), StringItem(c.scope.purpose),
     Word(c.issuedAt), Word(c.expiresAt)]
  }

  function Fingerprint(c: Challenge): Option<seq<byte>> {
    Base64Url.DecodeExact(c.fingerprint, 32)
  }

  function ChallengeValue(c: Challenge): Option<seq<byte>> {
    Base64Url.DecodeExact(c.value, CREDENTIAL_BYTES)
  }

  /** challengeTranscript; None stands for invalid_challenge. */
  function ChallengeTranscript(c: Challenge): Option<seq<byte>>
    requires ShortTexts(c)
  {
    match (Fingerprint(c), ChallengeValue(c))
    case (Some(f), Some(v)) => Some(Transcript(ChallengeItems(c, f, v)))
    case _ => None
  }

  function ProofItems(c: Challenge, challengeBytes: seq<byte>, signature: seq<byte>): (r: seq<Item>)
    requires ShortTexts(c) && |challengeBytes| < TWO_32 && |signature| == 64
    ensures AllFit(r)
  {
    [StringItem(PROOF_TAG), Word(PROTOCOL_VERSION), Field(challengeBytes), Field(signature),
     StringItem(c.scope.subjectType), StringItem(c.scope.subjectId)]
  }

  function RelaySignature(c: Challenge): Option<seq<byte>> {
    Base64Url.DecodeExact(c.relaySignature, 64)
  }

  /** proofTranscript; None stands for invalid_challenge. */
  function ProofTranscript(c: Challenge, challengeBytes: seq<byte>): Option<seq<byte>>
    requires ShortTexts(c) && |challengeBytes| < TWO_32
  {
    match RelaySignature(c)
    case Some(s) => Some(Transcript(ProofItems(c, challengeBytes, s)))
    case None => None
  }

  lemma ChallengeItemsInjective(
    a: Challenge, f: seq<byte>, v: seq<byte>, b: Challenge, g: seq<byte>, w: seq<byte>)
    requires ShortTexts(a) && |f| == 32 && |v| == CREDENTIAL_BYTES
    requires ShortTexts(b) && |g| == 32 && |w| == CREDENTIAL_BYTES
    requires Transcript(ChallengeItems(a, f, v)) == Transcript(ChallengeItems(b, g, w))
    ensures a.version == b.version && a.id == b.id && a.scope == b.scope
    ensures a.issuedAt == b.issuedAt && a.expiresAt == b.expiresAt
    ensures f == g && v == w
  {
    var p, q := ChallengeItems(a, f, v), ChallengeItems(b, g, w);
    assert SameShape(p, q);
    TranscriptInjective(p, q);
    assert p[1] == q[1] && p[2] == q[2] && p[4] == q[4] && p[11] == q[11] && p[12] == q[12];
    SameText(p[3], q[3], a.id, b.id);
    SameText(p[5], q[5], a.scope.subjectType, b.scope.subjectType);
    SameText(p[6], q[6], a.scope.subjectId, b.scope.subjectId);
    SameText(p[7], q[7], a.scope.tenant, b.scope.tenant);
    SameText(p[8], q[8], a.scope.host, b.scope.host);
    SameText(p[9], q[9], a.scope.device, b.scope.device);
    SameText(p[10], q[10], a.scope.purpose, b.scope.purpose);
  }

  /** Equal challenge transcripts carry equal decoded fields. */
  lemma ChallengeTranscriptInjective(a: Challenge, b: Challenge)
    requires ShortTexts(a) && ShortTexts(b)
    requires ChallengeTranscript(a).Some? && ChallengeTranscript(a) == ChallengeTranscript(b)
    ensures a.version == b.version && a.id == b.id && a.scope == b.scope
    ensures a.issuedAt == b.issuedAt && a.expiresAt == b.expiresAt
    ensures Fingerprint(a) == Fingerprint(b) && ChallengeValue(a) == ChallengeValue(b)
  {
    var f, v := Fingerprint(a).value, ChallengeValue(a).value;
    var g, w := Fingerprint(b).value, ChallengeValue(b).value;
    ChallengeItemsInjective(a, f, v, b, g, w);
  }

  lemma SameText(p: Item, q: Item, a: string, b: string)
    requires p == q && p == StringItem(a) && q == StringItem(b)
    ensures a == b
  {
    Utf8Injective(a, b);
  }

  lemma ProofItemsInjective(
    a: Challenge, x: seq<byte>, s: seq<byte>, b: Challenge, y: seq<byte>, t: seq<byte>)
    requires ShortTexts(a) && |x| < TWO_32 && |s| == 64
    requires ShortTexts(b) && |y| < TWO_32 && |t| == 64
    requires Transcript(ProofItems(a, x, s)) == Transcript(ProofItems(b, y, t))
    ensures x == y && s == t
  {
    var p, q := ProofItems(a, x, s), ProofItems(b, y, t);
    assert SameShape(p, q);
    TranscriptInjective(p, q);
    assert p[2] == q[2] && p[3] == q[3];
  }

  /** Equal proof transcripts embed one and the same challenge and relay signature: a
      subject's signature over one proof cannot stand for another challenge. */
  lemma ProofTranscriptInjective(a: Challenge, b: Challenge)
    requires ShortTexts(a) && ShortTexts(b)
    requires ChallengeTranscript(a).Some? && |ChallengeTranscript(a).value| < TWO_32
    requires ChallengeTranscript(b).Some? && |ChallengeTranscript(b).value| < TWO_32
    requires ProofTranscript(a, ChallengeTranscript(a).value).Some?
    requires ProofTranscript(a, ChallengeTranscript(a).value) == ProofTranscript(b, ChallengeTranscript(b).value)
    ensures a.version == b.version && a.id == b.id && a.scope == b.scope
    ensures a.issuedAt == b.issuedAt && a.expiresAt == b.expiresAt
    ensures Fingerprint(a) == Fingerprint(b) && ChallengeValue(a) == ChallengeValue(b)
    ensures RelaySignature(a) == RelaySignature(b)
  {
    var x, y := ChallengeTranscript(a).value, ChallengeTranscript(b).value;
    ProofItemsInjective(a, x, RelaySignature(a).value, b, y, RelaySignature(b).value);
    ChallengeTranscriptInjective(a, b);
  }

  /** No challenge transcript is ever a proof transcript. */
  lemma TranscriptsAreSeparate(a: Challenge, b: Challenge, challengeBytes: seq<byte>)
    requires ShortTexts(a) && ShortTexts(b) && |challengeBytes| < TWO_32
    requires ChallengeTranscript(a).Some?
    ensures ChallengeTranscript(a) != ProofTranscript(b, challengeBytes)
  {
    if ProofTranscript(b, challengeBytes).Some? {
      TagsDiffer();
      OpeningFieldSeparates(
        ChallengeItems(a, Fingerprint(a).value, ChallengeValue(a).value),
        ProofItems(b, challengeBytes, RelaySignature(b).value));
    }
  }

  lemma TagsDiffer()
    ensures StringItem(CHALLENGE_TAG) != StringItem(PROOF_TAG)
  {
    assert |CHALLENGE_TAG| != |PROOF_TAG|;
    if Utf8(CHALLENGE_TAG) == Utf8(PROOF_TAG) {
      Utf8Injective(CHALLENGE_TAG, PROOF_TAG);
    }
  }
}
