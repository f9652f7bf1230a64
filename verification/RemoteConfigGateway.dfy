/** The objects of Remote Config: sessions are shared by reference between the gateway and
    Local Config, so revoking one at either end is seen at the other. */
module RemoteConfigGateways {
  import opened Wrappers
  import opened RemoteConfig

  class ConfigSession {
    const expires: Time
    var revoked: bool

    constructor (expires: Time)
      ensures this.expires == expires && !revoked
    {
      this.expires := expires;
      revoked := false;
    }

    predicate Active(now: Time)
      reads this
      ensures Active(now) == Session(expires, revoked).IsActive(now)
    {
      !revoked && now < expires
    }
  }

  /** The part of Local Config that creates remote sessions; `minted` is every one of them. */
  class LocalConfig {
    var remote: ConfigSession?
    var closed: bool
    ghost var minted: seq<ConfigSession>

    ghost predicate Valid()
      reads this
    {
      && (forall i, j :: 0 <= i < j < |minted| ==> minted[i] != minted[j])
      && (remote != null ==> remote in minted)
    }

    ghost function Sessions(): (s: seq<Session>)
      reads this, minted
      ensures |s| == |minted|
    {
      seq(|minted|, i requires 0 <= i < |minted| reads this, minted => Session(minted[i].expires, minted[i].revoked))
    }

    ghost function IndexOf(s: ConfigSession?): (i: Option<nat>)
      reads this
      ensures i.Some? ==> s != null && i.value < |minted| && minted[i.value] == s
      ensures i.None? ==> s == null || s !in minted
    {
      if i: nat :| i < |minted| && minted[i] == s then Some(i) else None
    }

    ghost function Value(): Local
      reads this, minted
    {
      Local(Sessions(), IndexOf(remote), closed)
    }

    constructor ()
      ensures Valid() && Value() == Local([], None, false)
    {
      remote, closed, minted := null, false, [];
    }

    /** Revoking a session by reference is revoking it at its index. */
    method RevokeSession(s: ConfigSession?)
      requires Valid() && (s != null ==> s in minted)
      modifies if s == null then {} else {s}
      ensures minted == old(minted) && Valid()
      ensures Sessions() == Revoked(old(Sessions()), old(IndexOf(s))) && Value() == old(Value()).(sessions := Sessions())
    {
      if s != null {
        s.revoked := true;
      }
    }

    method CreateRemoteSession(expires: Time, now: Time) returns (session: Result<ConfigSession>)
      requires Valid()
      modifies this`remote, this`minted, if remote == null then {} else {remote}
      ensures Valid()
      ensures match CreateRemote(old(Value()), expires, now)
              case Success(l) => session.Success? && fresh(session.value) && Value() == l && remote == session.value
                && minted == old(minted) + [session.value]
              case Failure(code) => session == Failure(code) && Value() == old(Value()) && minted == old(minted)
    {
      if closed {
        return Failure(CONFLICT);
      }
      if expires <= now || expires > now + MAX_LEASE {
        return Failure(INVALID_INPUT);
      }
      RevokeSession(remote);
      var created := new ConfigSession(expires);
      remote := created;
      minted := minted + [created];
      session := Success(created);
    }

    method Close()
      requires Valid()
      modifies this`closed, if remote == null then {} else {remote}
      ensures Valid() && minted == old(minted)
      ensures Value() == CloseLocal(old(Value()))
    {
      RevokeSession(remote);
      closed := true;
    }
  }

  class RemoteConfigGateway {
    const target: LocalConfig
    var ownerSession: ConfigSession?
    var pairing: Option<PairingCode>
    var pairingExpiresAt: Time
    var session: Option<Cookie>
    var expiresAt: Time
    var attempts: nat
    var attemptWindow: Time

    ghost predicate Valid()
      reads this, target
    {
      target.Valid() && (ownerSession != null ==> ownerSession in target.minted)
    }

    ghost function Value(): Remote
      reads this, target, target.minted
    {
      Remote(Gateway(target.IndexOf(ownerSession), pairing, pairingExpiresAt, session, expiresAt, attempts, attemptWindow), target.Value())
    }

    constructor (target: LocalConfig)
      requires target.Valid()
      ensures this.target == target && Valid()
      ensures Value() == Remote(Gateway(None, None, 0, None, 0, 0, 0), target.Value())
    {
      this.target := target;
      ownerSession, pairing, session := null, None, None;
      pairingExpiresAt, expiresAt, attempts, attemptWindow := 0, 0, 0, 0;
    }

    method Close()
      requires Valid()
      modifies this, if ownerSession == null then {} else {ownerSession}
      ensures Valid() && Value() == CloseLease(old(Value()))
      ensures target.minted == old(target.minted) && target.remote == old(target.remote)
    {
      target.RevokeSession(ownerSession);
      ownerSession, pairing, session := null, None, None;
      pairingExpiresAt, expiresAt, attempts := 0, 0, 0;
    }

    /** The new code is drawn by the caller. */
    method Open(leaseMs: int, code: PairingCode, now: Time) returns (expires: Result<Time>)
      requires Valid()
      modifies this, target, target.minted
      ensures Valid()
      ensures (Value(), expires) == OpenLease(old(Value()), leaseMs, code, now)
    {
      if leaseMs < MIN_LEASE || leaseMs > MAX_LEASE {
        return Failure(INVALID_INPUT);
      }
      Close();
      var created := target.CreateRemoteSession(now + leaseMs, now);
      if created.Failure? {
        return Failure(created.code);
      }
      ownerSession := created.value;
      pairing := Some(code);
      expiresAt := now + leaseMs;
      pairingExpiresAt := Min(expiresAt, now + PAIRING_TTL);
      attemptWindow := now;
      expires := Success(expiresAt);
    }

    method Active(now: Time) returns (active: bool)
      requires Valid()
      modifies this, if ownerSession == null then {} else {ownerSession}
      ensures Valid() && Value() == Checked(old(Value()), now)
      ensures active == HoldsActive(old(Value()), now)
      ensures target.minted == old(target.minted)
    {
      if expiresAt > now && ownerSession != null && ownerSession.Active(now) {
        return true;
      }
      if expiresAt != 0 {
        Close();
      }
      active := false;
    }

    method PairRequest(supplied: PairingCode, allowed: bool, cookie: Cookie, now: Time) returns (reply: Reply)
      requires Valid()
      modifies this, if ownerSession == null then {} else {ownerSession}
      ensures Valid() && (Value(), reply) == Pair(old(Value()), supplied, allowed, cookie, now)
    {
      var active := Active(now);
      if !active {
        return NotServed;
      }
      if !allowed {
        return Forbidden;
      }
      if now - attemptWindow >= WINDOW {
        attemptWindow := now;
        attempts := 0;
      }
      attempts := attempts + 1;
      if attempts > MAX_ATTEMPTS {
        return Limited;
      }
      if now > pairingExpiresAt || pairing != Some(supplied) {
        return Rejected;
      }
      pairing := None;
      session := Some(cookie);
      reply := Paired;
    }

    method IsAuthorized(cookie: Cookie, now: Time) returns (ok: bool)
      requires Valid()
      modifies this, if ownerSession == null then {} else {ownerSession}
      ensures Valid() && Value() == Checked(old(Value()), now)
      ensures ok == Authorized(old(Value()), cookie, now)
    {
      var active := Active(now);
      ok := active && session == Some(cookie);
    }
  }
}
