/** Whose frames the hub forwards and to whom, and whom it lets in, in the names, roles and
    directions of the protocol. */
module HubRules {
  import opened Text
  import opened Tables
  import opened Transcripts
  import opened Hub
  import opened HubRuns
  import Frames

  /** The frame names the session it came from and points away from it. */
  predicate Truthful(s: Session, f: Frames.Frame) {
    && f.tenant == s.tenant && f.host == s.host && f.device == s.device
    && f.direction == (if s.role == HostRole then "windows_to_mobile" else "mobile_to_windows")
  }

  lemma SenderRule(s: Session, f: Frames.Frame)
    ensures SenderError(s, f) == if Truthful(s, f) then None else Some(Identity)
  {
  }

  /** The key of a route is its three names joined by slashes. */
  lemma KeyRule(s: Session)
    ensures KeyOf(s) == s.tenant + "/" + s.host + "/" + s.device
  {
    assert KeyOf(s) == s.tenant + "/" + (s.host + "/" + s.device);
  }

  function HolderOf(m: map<string, nat>, key: string): Option<nat> {
    if key in m then Some(m[key]) else None
  }

  /** What becomes of a message: closed as invalid if it is no frame, as an impostor if it is
      not truthful, as replaced if its sender no longer holds its role, as unroutable if
      nobody holds the other role; else it goes to whoever does. */
  lemma MessageRule(parse: Parser, r: Routes, id: nat, s: Session, data: seq<byte>)
    ensures var own := HolderOf(if s.role == HostRole then r.hosts else r.devices, KeyOf(s));
            var peer := HolderOf(if s.role == HostRole then r.devices else r.hosts, KeyOf(s));
            Judge(parse, r, id, s, data) ==
              if parse(data).None? then Refuse(InvalidFrame)
              else if !Truthful(s, parse(data).value) then Refuse(Identity)
              else if own != Some(id) then Refuse(Replaced)
              else if peer.None? then Refuse(RouteMissing)
              else Forward(peer.value)
  {
    if parse(data).Some? {
      SenderRule(s, parse(data).value);
      DirectionsDiffer();
    }
  }

  lemma DirectionsDiffer()
    ensures "mobile_to_windows" != "windows_to_mobile"
  {
    assert "mobile_to_windows"[0] != "windows_to_mobile"[0];
  }

  /** A connection is let in exactly when the server is not stopping and its device is
      registered and not revoked. */
  lemma AdmissionRule(db: Tables, r: Routes, id: nat, s: Session)
    ensures Add(db, r, id, s).Some? <==>
              && !r.shuttingDown && DeviceKey(s.tenant, s.host, s.device) in db.devices
              && !db.devices[DeviceKey(s.tenant, s.host, s.device)].revoked
  {
  }

  /** The ticket a socket costs: of the host for that device, or of the device itself. */
  lemma SocketScope(s: Session)
    ensures SessionScope(s) ==
            if s.role == HostRole then Scope("host", s.host, s.tenant, s.host, s.device, "websocket_host")
            else Scope("device", s.device, s.tenant, s.host, s.device, "websocket_device")
  {
  }

  /** What a connection's handler adds to the wait group, and what takes it off. */
  lemma WaitGroupRule(db: Tables, r: Routes, id: nat, s: Session, key: string)
    ensures Add(db, r, id, s).Some? ==> Add(db, r, id, s).value.routes.waitGroup == r.waitGroup + 1
    ensures Remove(r, id, s).routes.waitGroup == r.waitGroup && Evict(r, key).routes.waitGroup == r.waitGroup
    ensures Shutdown(r).routes.waitGroup == r.waitGroup
  {
  }
}
