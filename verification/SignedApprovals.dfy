/** What the approvals rest on, with the relay's signature check spelled out. */
module SignedApprovals {
  import opened Text
  import opened Tables
  import opened Pairing
  import opened Transcripts
  import opened Auth
  import opened Protocol
  import opened ProtocolSafety
  import AuthService

  /** The bytes a subject signs to answer a challenge. */
  type Signing = Challenge -> Option<seq<byte>>

  /** Whether a signature over bytes verifies under a key. */
  type Verifier = (string, seq<byte>, string) -> bool

  /** The proof transcript of a challenge. */
  function SignedBytes(): Signing {
    (c: Challenge) =>
      if Countable(c) && ChallengeTranscript(c).Some? then ProofTranscript(c, ChallengeTranscript(c).value) else None
  }

  /** These bytes answer a consumed challenge to approve this claim, and this signature over
      them is good under the key the claim's host is registered with. */
  predicate SignsFor(signing: Signing, verifies: Verifier, w: World, row: ClaimRow, bytes: seq<byte>, c: Challenge, signature: string) {
    && c.scope == ApprovalScope(row) && signing(c) == Some(bytes)
    && HostKey(row.tenant, row.host) in w.db.hosts
    && verifies(w.db.hosts[HostKey(row.tenant, row.host)].signingKey, bytes, signature)
    && c.id in w.auth.challenges && w.auth.challenges[c.id].scope == c.scope && w.auth.challenges[c.id].consumedAt.Some?
  }

  /** Every approved claim has bytes of its own that its host signed to approve it. */
  ghost predicate SignatureMap(signing: Signing, verifies: Verifier, w: World, g: map<string, seq<byte>>) {
    && g.Keys == ApprovedClaims(w.db) && Injective(g)
    && forall c :: c in g ==> exists challenge, signature :: SignsFor(signing, verifies, w, w.db.claims[c], g[c], challenge, signature)
  }

  /** A check that goes through is a signature over the challenge's bytes. */
  ghost predicate ChecksSignatures(check: Check, signing: Signing, verifies: Verifier) {
    forall c, key, signature :: check(c, key, signature) ==> signing(c).Some? && verifies(key, signing(c).value, signature)
  }

  ghost predicate BytesTellApart(signing: Signing) {
    forall a, b :: signing(a).Some? && signing(a) == signing(b) ==> a.id == b.id
  }

  lemma AnswerIsSigned(rules: Rules, signing: Signing, verifies: Verifier, w: World, p: Proof, row: ClaimRow)
    requires ChecksSignatures(rules.check, signing, verifies) && AnswersFor(rules, w, p, ApprovalScope(row))
    ensures signing(p.challenge).Some?
    ensures SignsFor(signing, verifies, w, row, signing(p.challenge).value, p.challenge, p.signature)
  {
  }

  lemma AnswersAreSigned(rules: Rules, signing: Signing, verifies: Verifier, w: World, f: map<string, Proof>)
    requires ChecksSignatures(rules.check, signing, verifies) && BytesTellApart(signing) && AnswerMap(rules, w, f)
    ensures exists g :: SignatureMap(signing, verifies, w, g)
  {
    forall c | c in f
      ensures !f[c].Dropped? && signing(f[c].challenge).Some?
      ensures SignsFor(signing, verifies, w, w.db.claims[c], signing(f[c].challenge).value, f[c].challenge, f[c].signature)
    {
      AnswerIsSigned(rules, signing, verifies, w, f[c], w.db.claims[c]);
    }
    var g := map c | c in f :: signing(f[c].challenge).value;
    assert SignatureMap(signing, verifies, w, g);
  }

  lemma CheckedIsSigned(crypto: Crypto, c: Challenge, key: string, signature: string)
    requires AuthService.CheckOf(crypto)(c, key, signature)
    ensures SignedBytes()(c).Some? && crypto.verifies(key, SignedBytes()(c).value, signature)
  {
  }

  lemma SameBytes(a: Challenge, b: Challenge)
    requires SignedBytes()(a).Some? && SignedBytes()(a) == SignedBytes()(b)
    ensures a.id == b.id
  {
    ProofTranscriptInjective(a, b);
  }

  /** In every interleaving approved claims map one-to-one into byte strings, each the proof
      transcript of a consumed challenge with a signature that verifies under the registered
      key of the claim's own host. */
  lemma ApprovalsAreSigned(digest: Digest, crypto: Crypto, worlds: seq<World>, moves: seq<Move>, i: nat)
    requires IsRun(Rules(digest, AuthService.CheckOf(crypto)), worlds, moves) && i < |worlds|
    ensures exists g :: SignatureMap(SignedBytes(), crypto.verifies, worlds[i], g)
  {
    var rules, w := Rules(digest, AuthService.CheckOf(crypto)), worlds[i];
    ApprovalsCostChallenges(rules, worlds, moves, i);
    var f :| AnswerMap(rules, w, f);
    CheckOfChecks(crypto);
    AnswersAreSigned(rules, SignedBytes(), crypto.verifies, w, f);
  }

  lemma CheckOfChecks(crypto: Crypto)
    ensures ChecksSignatures(AuthService.CheckOf(crypto), SignedBytes(), crypto.verifies) && BytesTellApart(SignedBytes())
  {
    forall c, key, signature | AuthService.CheckOf(crypto)(c, key, signature)
      ensures SignedBytes()(c).Some? && crypto.verifies(key, SignedBytes()(c).value, signature)
    {
      CheckedIsSigned(crypto, c, key, signature);
    }
    forall a, b | SignedBytes()(a).Some? && SignedBytes()(a) == SignedBytes()(b) ensures a.id == b.id {
      SameBytes(a, b);
    }
  }
}
