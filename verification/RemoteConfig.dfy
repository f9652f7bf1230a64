/** Remote Config (src/server/remoteConfig.ts) over the sessions of Local Config
    (src/server/localConfig.ts, src/server/configSession.ts). Digests are ideal, so hashes
    are the values they stand for. */
module RemoteConfig {
  import opened Wrappers

  type Time = int
  type PairingCode = int
  type Cookie = int

  const MAX_LEASE := 3600000
  const MIN_LEASE := 100
  const PAIRING_TTL := 600000
  const WINDOW := 60000
  const MAX_ATTEMPTS := 10

  // ------------------------------------------------------------------ owner sessions

  datatype Session = Session(expires: Time, revoked: bool) {
    predicate IsActive(now: Time) {
      !revoked && now < expires
    }
  }

  /** Every remote session that was ever created, and which one is current. */
  datatype Local = Local(sessions: seq<Session>, remote: Option<nat>, closed: bool)

  function Revoked(sessions: seq<Session>, i: Option<nat>): (next: seq<Session>)
    ensures |next| == |sessions|
  {
    if i.Some? && i.value < |sessions| then sessions[i.value := sessions[i.value].(revoked := true)] else sessions
  }

  function CreateRemote(l: Local, expires: Time, now: Time): Result<Local> {
    if l.closed then Failure(CONFLICT)
    else if expires <= now || expires > now + MAX_LEASE then Failure(INVALID_INPUT)
    else Success(Local(Revoked(l.sessions, l.remote) + [Session(expires, false)], Some(|l.sessions|), false))
  }

  function CloseLocal(l: Local): Local {
    Local(Revoked(l.sessions, l.remote), l.remote, true)
  }

  // ------------------------------------------------------------------------- gateway

  /** `owner` is the index of the gateway's session; `expires` is 0 while no lease is open. */
  datatype Gateway = Gateway(
    owner: Option<nat>,
    pairing: Option<PairingCode>,
    pairingExpires: Time,
    cookie: Option<Cookie>,
    expires: Time,
    attempts: nat,
    window: Time)

  datatype Remote = Remote(gateway: Gateway, local: Local)

  datatype Reply = NotServed | Forbidden | Limited | Rejected | Paired

  function ClosedGateway(g: Gateway): Gateway {
    Gateway(None, None, 0, None, 0, 0, g.window)
  }

  function CloseLease(r: Remote): Remote {
    Remote(ClosedGateway(r.gateway), r.local.(sessions := Revoked(r.local.sessions, r.gateway.owner)))
  }

  function Min(a: int, b: int): int {
    if a <= b then a else b
  }

  /** The lifetime is checked before anything changes; a Local Config that is closed ends
      the open lease and grants no new one. */
  function OpenLease(r: Remote, leaseMs: int, code: PairingCode, now: Time): (Remote, Result<Time>) {
    if leaseMs < MIN_LEASE || leaseMs > MAX_LEASE then (r, Failure(INVALID_INPUT))
    else
      var closed := CloseLease(r);
      var expires := now + leaseMs;
      match CreateRemote(closed.local, expires, now)
      case Failure(error) => (closed, Failure(error))
      case Success(local) =>
        (Remote(Gateway(local.remote, Some(code), Min(expires, now + PAIRING_TTL), None, expires, 0, now), local), Success(expires))
  }

  predicate HoldsActive(r: Remote, now: Time) {
    r.gateway.expires > now && r.gateway.owner.Some? && r.gateway.owner.value < |r.local.sessions|
    && r.local.sessions[r.gateway.owner.value].IsActive(now)
  }

  /** `active()` closes a lease that is over. */
  function Checked(r: Remote, now: Time): Remote {
    if HoldsActive(r, now) || r.gateway.expires == 0 then r else CloseLease(r)
  }

  function Counted(g: Gateway, now: Time): Gateway {
    if now - g.window >= WINDOW then g.(window := now, attempts := 1) else g.(attempts := g.attempts + 1)
  }

  /** `cookie` is the session value that is drawn if pairing succeeds. */
  function Pair(r: Remote, supplied: PairingCode, allowed: bool, cookie: Cookie, now: Time): (Remote, Reply) {
    if !HoldsActive(r, now) then (Checked(r, now), NotServed)
    else if !allowed then (r, Forbidden)
    else
      var g := Counted(r.gateway, now);
      if g.attempts > MAX_ATTEMPTS then (r.(gateway := g), Limited)
      else if now > g.pairingExpires || g.pairing != Some(supplied) then (r.(gateway := g), Rejected)
      else (r.(gateway := g.(pairing := None, cookie := Some(cookie))), Paired)
  }

  predicate Authorized(r: Remote, cookie: Cookie, now: Time) {
    HoldsActive(r, now) && r.gateway.cookie == Some(cookie)
  }
}
