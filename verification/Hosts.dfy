/** Host enrolment: the first enrolment pins a host's identity, later ones may only repeat it. */
module Hosts {
  import opened Text
  import opened Tables
  import opened Keys

  datatype Enrollment = Enrollment(
    tenant: string,
    host: string,
    displayName: string,
    signingKey: string,
    agreementKey: string,
    keyVersion: int)

  datatype Refusal = InvalidEnrollment | InvalidIdentity | TenantNotFound | IdentityConflict | Internal

  datatype Result = Enrolled(db: Tables) | Refused(reason: Refusal)

  predicate Repeats(row: HostRow, e: Enrollment) {
    && row.signingKey == e.signingKey && row.agreementKey == e.agreementKey && row.keyVersion == e.keyVersion
    && row.enabled && !row.revoked
  }

  /** The transaction of EnrollHost under trimmed names; `tenantEnabled` is what its earlier
      read of the tenant returned. */
  function Pin(db: Tables, k: HostKey, displayName: string, e: Enrollment, tenantEnabled: bool): Result {
    if !tenantEnabled then Refused(TenantNotFound)
    else if k !in db.hosts then
      if k.tenant !in db.tenants then Refused(Internal)
      else
        Enrolled(db.(hosts := db.hosts[k := HostRow(displayName, e.signingKey, e.agreementKey, e.keyVersion, true, false)]))
    else if Repeats(db.hosts[k], e) then
      Enrolled(db.(hosts := db.hosts[k := db.hosts[k].(displayName := displayName)]))
    else Refused(IdentityConflict)
  }

  function EnrollmentError(e: Enrollment, onCurve: seq<byte> -> bool): Option<Refusal> {
    if TrimSpace(e.tenant) == "" || TrimSpace(e.host) == "" || TrimSpace(e.displayName) == "" then Some(InvalidEnrollment)
    else if e.keyVersion <= 0 || e.signingKey == e.agreementKey
            || !ValidHostKey(e.signingKey, onCurve) || !ValidHostKey(e.agreementKey, onCurve) then Some(InvalidIdentity)
    else None
  }

  function Enroll(db: Tables, e: Enrollment, tenantEnabled: bool, onCurve: seq<byte> -> bool): Result {
    match EnrollmentError(e, onCurve)
    case Some(reason) => Refused(reason)
    case None => Pin(db, HostKey(TrimSpace(e.tenant), TrimSpace(e.host)), TrimSpace(e.displayName), e, tenantEnabled)
  }

  /** After a host's first enrolment another one goes through exactly when it repeats the
      pinned identity, and then changes the display name only. */
  lemma FirstEnrolmentPins(
    db: Tables, k: HostKey, name: string, e: Enrollment, name': string, e': Enrollment, tenantEnabled: bool)
    requires k !in db.hosts && Pin(db, k, name, e, true).Enrolled?
    ensures var s := Pin(db, k, name, e, true).db;
            match Pin(s, k, name', e', tenantEnabled)
            case Enrolled(t) =>
              && tenantEnabled
              && (e'.signingKey, e'.agreementKey, e'.keyVersion) == (e.signingKey, e.agreementKey, e.keyVersion)
              && t == s.(hosts := s.hosts[k := s.hosts[k].(displayName := name')])
            case Refused(reason) =>
              && reason == (if tenantEnabled then IdentityConflict else TenantNotFound)
              && (tenantEnabled ==>
                    (e'.signingKey, e'.agreementKey, e'.keyVersion) != (e.signingKey, e.agreementKey, e.keyVersion))
  {
  }

  /** What an enrolment answers and stores, case by case. */
  lemma EnrolmentAnswers(db: Tables, k: HostKey, name: string, e: Enrollment, tenantEnabled: bool)
    requires k.tenant in db.tenants
    ensures var r := Pin(db, k, name, e, tenantEnabled);
            if !tenantEnabled then r == Refused(TenantNotFound)
            else if k !in db.hosts then
              r == Enrolled(db.(hosts := db.hosts[k := HostRow(name, e.signingKey, e.agreementKey, e.keyVersion, true, false)]))
            else if db.hosts[k] == HostRow(db.hosts[k].displayName, e.signingKey, e.agreementKey, e.keyVersion, true, false) then
              r == Enrolled(db.(hosts := db.hosts[k := HostRow(name, e.signingKey, e.agreementKey, e.keyVersion, true, false)]))
            else r == Refused(IdentityConflict)
  {
  }

  class HostService {
    const db: Database

    constructor (db: Database)
      ensures this.db == db
    {
      this.db := db;
    }

    /** EnrollHost. */
    method EnrollHost(e: Enrollment, onCurve: seq<byte> -> bool) returns (refusal: Option<Refusal>)
      modifies db
      ensures match Enroll(old(db.Contents()), e, TenantEnabled(old(db.Contents()), TrimSpace(e.tenant)), onCurve)
              case Enrolled(after) => refusal == None && db.Contents() == after
              case Refused(reason) => refusal == Some(reason) && db.Contents() == old(db.Contents())
    {
      var tenant, host, displayName := TrimSpace(e.tenant), TrimSpace(e.host), TrimSpace(e.displayName);
      if tenant == "" || host == "" || displayName == "" {
        return Some(InvalidEnrollment);
      }
      if e.keyVersion <= 0 || e.signingKey == e.agreementKey
         || !ValidHostKey(e.signingKey, onCurve) || !ValidHostKey(e.agreementKey, onCurve) {
        return Some(InvalidIdentity);
      }
      if tenant !in db.tenants || !db.tenants[tenant] {
        return Some(TenantNotFound);
      }
      var k := HostKey(tenant, host);
      var inserted := k !in db.hosts;
      if inserted {
        db.hosts := db.hosts[k := HostRow(displayName, e.signingKey, e.agreementKey, e.keyVersion, true, false)];
      } else {
        var row := db.hosts[k];
        if row.signingKey != e.signingKey || row.agreementKey != e.agreementKey || row.keyVersion != e.keyVersion
           || !row.enabled || row.revoked {
          return Some(IdentityConflict);
        }
        db.hosts := db.hosts[k := row.(displayName := displayName)];
      }
      return None;
    }
  }
}
