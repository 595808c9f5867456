/** The rows of the relay's store, keyed by their primary keys. */
module Tables {
  import opened Text

  datatype Status = Pending | Approved | Rejected | Expired | Cancelled | Consumed

  datatype HostKey = HostKey(tenant: string, host: string)
  datatype DeviceKey = DeviceKey(tenant: string, host: string, device: string)
  datatype InviteKey = InviteKey(tenant: string, host: string, invite: string)

  datatype HostRow = HostRow(
    displayName: string,
    signingKey: string,
    agreementKey: string,
    keyVersion: int,
    enabled: bool,
    revoked: bool)

  datatype DeviceRow = DeviceRow(
    signingKey: string,
    agreementKey: string,
    keyVersion: int,
    bindingVersion: int,
    revoked: bool,
    approvedAt: int)

  datatype InviteRow = InviteRow(status: Status, createdAt: int, expiresAt: int, consumedAt: Option<int>)

  datatype ClaimHeader = ClaimHeader(
    invite: string,
    tenant: string,
    host: string,
    claim: string,
    device: string,
    agreementKey: string,
    keyVersion: int,
    clientNonce: string,
    ciphertextLength: int)

  /** The nullable columns an approval fills in, all at once. */
  datatype Approval = Approval(
    signingKey: string,
    agreementKey: string,
    keyVersion: int,
    bindingVersion: int,
    header: string,
    nonce: string,
    ciphertext: string)

  datatype ClaimRow = ClaimRow(
    invite: string,
    tenant: string,
    host: string,
    device: string,
    header: ClaimHeader,
    nonce: string,
    ciphertext: string,
    tokenHash: seq<byte>,
    status: Status,
    approval: Option<Approval>,
    createdAt: int,
    updatedAt: int,
    expiresAt: int,
    consumedAt: Option<int>)

  /** tenants holds the enabled flag only. */
  datatype Tables = Tables(
    tenants: map<string, bool>,
    hosts: map<HostKey, HostRow>,
    devices: map<DeviceKey, DeviceRow>,
    invites: map<InviteKey, InviteRow>,
    claims: map<string, ClaimRow>)

  const EMPTY := Tables(map[], map[], map[], map[], map[])

  function InviteOf(c: ClaimRow): InviteKey {
    InviteKey(c.tenant, c.host, c.invite)
  }

  function DeviceOf(c: ClaimRow): DeviceKey {
    DeviceKey(c.tenant, c.host, c.device)
  }

  predicate TenantEnabled(db: Tables, tenant: string) {
    tenant in db.tenants && db.tenants[tenant]
  }

  /** hosts join tenants where both are enabled and the host is not revoked. */
  predicate HostActive(db: Tables, tenant: string, host: string) {
    && HostKey(tenant, host) in db.hosts
    && db.hosts[HostKey(tenant, host)].enabled && !db.hosts[HostKey(tenant, host)].revoked
    && TenantEnabled(db, tenant)
  }

  // ----- expirePending -----

  function ExpireClaim(c: ClaimRow, now: int): ClaimRow {
    if c.status == Pending && c.expiresAt <= now then c.(status := Expired, updatedAt := now) else c
  }

  function ExpireInvite(i: InviteRow, now: int): InviteRow {
    if i.status == Pending && i.expiresAt <= now then i.(status := Expired, consumedAt := Some(now)) else i
  }

  function Sweep(db: Tables, now: int): Tables {
    db.(claims := map c | c in db.claims :: ExpireClaim(db.claims[c], now),
        invites := map k | k in db.invites :: ExpireInvite(db.invites[k], now))
  }

  /** The open database. */
  class Database {
    var tenants: map<string, bool>
    var hosts: map<HostKey, HostRow>
    var devices: map<DeviceKey, DeviceRow>
    var invites: map<InviteKey, InviteRow>
    var claims: map<string, ClaimRow>

    constructor ()
      ensures Contents() == EMPTY
    {
      tenants, hosts, devices, invites, claims := map[], map[], map[], map[], map[];
    }

    function Contents(): Tables
      reads this
    {
      Tables(tenants, hosts, devices, invites, claims)
    }

    /** Rolling a transaction back. */
    method Restore(saved: Tables)
      modifies this
      ensures Contents() == saved
    {
      tenants, hosts, devices, invites, claims :=
        saved.tenants, saved.hosts, saved.devices, saved.invites, saved.claims;
    }
  }
}
