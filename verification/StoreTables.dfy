/** The durable tables behind approvals and OAuth consent (src/store/store.ts). Ids are
    numbers; texts that are only compared or passed on are numbers too. */
module StoreTables {
  import opened Wrappers

  type Id = int
  type Time = int

  datatype Status = Pending | Approved | Denied | Consumed

  /** `actionDigest` of src/security/approvals.ts as an ideal digest: equal digests have
      equal tools, actions and policy versions. */
  datatype Digest = Digest(tool: int, action: int, policy: nat)

  datatype Key = Key(workspace: Id, principal: Id, digest: Digest)

  /** An approval row of kind 'action' or 'oauth'; the latter carries its summary. */
  datatype Purpose =
    | Action(key: Key, epoch: int)
    | Consent(client: Id, scopes: int)

  datatype Row = Row(purpose: Purpose, created: Time, expires: Time, status: Status)

  type Rows = map<Id, Row>

  /** `approval` is bookkeeping of the model: the interaction the grant was minted for. */
  datatype Grant = Grant(client: Id, scopes: int, revoked: Option<Time>, approval: Id)

  type Grants = map<Id, Grant>

  /** A row of `oauth_models` is keyed by model and id. */
  datatype ModelKey = GrantKey(id: Id) | OtherKey(model: int, id: Id)

  datatype Model = Model(grantId: Option<Id>, client: Option<Id>, paramsClient: Option<Id>)

  datatype Tables = Tables(
    rows: Rows,
    policies: map<Id, nat>,
    clients: map<Id, int>,
    access: map<(Id, Id), int>,
    grants: Grants,
    provider: map<ModelKey, Model>)

  const EMPTY := Tables(map[], map[], map[], map[], map[], map[])

  /** The number of trust changes of a workspace. */
  function PolicyVersion(policies: map<Id, nat>, workspace: Id): nat {
    if workspace in policies then policies[workspace] else 0
  }

  function SetTrust(policies: map<Id, nat>, workspace: Id): map<Id, nat> {
    policies[workspace := PolicyVersion(policies, workspace) + 1]
  }

  /** The guard of the three UPDATE statements of `setApprovalStatus`. */
  predicate MaySet(r: Row, to: Status, now: Time) {
    match to
    case Pending => false
    case Approved => r.status == Pending && r.expires > now
    case Denied => r.status == Pending || r.status == Approved
    case Consumed => r.status == Approved && r.expires > now
  }

  predicate Sets(rows: Rows, id: Id, to: Status, now: Time) {
    id in rows && MaySet(rows[id], to, now)
  }

  function SetStatus(rows: Rows, id: Id, to: Status, now: Time): Rows {
    if Sets(rows, id, to, now) then rows[id := rows[id].(status := to)] else rows
  }

  /** `getApproval` reports a pending row as expired once its time is over; a row in any
      other status is reported as stored. */
  predicate IsLive(r: Row, now: Time) {
    r.status == Approved || (r.status == Pending && r.expires >= now)
  }

  predicate Matches(r: Row, key: Key) {
    r.purpose.Action? && r.purpose.key == key
  }

  predicate Answers(rows: Rows, key: Key, now: Time, id: Id) {
    id in rows && Matches(rows[id], key) && IsLive(rows[id], now)
  }

  /** What `findPendingActionApproval` may return: a live row for the key such that no
      other is newer, if there is one. */
  ghost predicate IsFound(rows: Rows, key: Key, now: Time, found: Option<Id>) {
    match found
    case None => forall id :: !Answers(rows, key, now, id)
    case Some(id) =>
      Answers(rows, key, now, id)
      && forall other :: Answers(rows, key, now, other) ==> rows[other].created <= rows[id].created
  }

  predicate IsCandidate(rows: Rows, key: Key, id: Id) {
    id in rows && Matches(rows[id], key) && (rows[id].status == Pending || rows[id].status == Approved)
  }

  /** The rows of the query: kind, workspace, digest and principal match and the stored
      status is pending or approved, newest first. */
  ghost predicate IsQuery(rows: Rows, key: Key, ids: seq<Id>) {
    && (forall i :: 0 <= i < |ids| ==> IsCandidate(rows, key, ids[i]))
    && (forall id :: IsCandidate(rows, key, id) ==> id in ids)
    && (forall i, j :: 0 <= i < j < |ids| ==> rows[ids[i]].created >= rows[ids[j]].created)
  }

  function PutGrant(grants: Grants, id: Id, g: Grant): Grants {
    grants[id := if id in grants then grants[id].(scopes := g.scopes) else g]
  }

  function RevokeGrant(grants: Grants, id: Id, now: Time): Grants {
    if id in grants && grants[id].revoked.None? then grants[id := grants[id].(revoked := Some(now))] else grants
  }

  /** `oauthRevokeByGrantId`. */
  function RevokeModels(provider: map<ModelKey, Model>, grantId: Id): map<ModelKey, Model> {
    map k | k in provider && provider[k].grantId != Some(grantId) :: provider[k]
  }

  class Store {
    var rows: Rows
    var policies: map<Id, nat>
    var clients: map<Id, int>
    var access: map<(Id, Id), int>
    var grants: Grants
    var provider: map<ModelKey, Model>

    ghost function Contents(): Tables
      reads this
    {
      Tables(rows, policies, clients, access, grants, provider)
    }

    constructor ()
      ensures Contents() == EMPTY
    {
      rows, policies, clients, access, grants, provider := map[], map[], map[], map[], map[], map[];
    }

    method SetTrustMode(workspace: Id)
      modifies this`policies
      ensures policies == SetTrust(old(policies), workspace)
    {
      policies := policies[workspace := PolicyVersion(policies, workspace) + 1];
    }

    /** `INSERT` fails on an id that is taken. */
    method CreateApproval(id: Id, purpose: Purpose, now: Time, ttl: nat) returns (ok: bool)
      modifies this`rows
      ensures ok <==> id !in old(rows)
      ensures rows == if ok then old(rows)[id := Row(purpose, now, now + ttl, Pending)] else old(rows)
    {
      ok := id !in rows;
      if ok {
        rows := rows[id := Row(purpose, now, now + ttl, Pending)];
      }
    }

    /** `ids` is the answer of the query; the loop skips rows that have expired. */
    method FindPendingActionApproval(key: Key, ids: seq<Id>, now: Time) returns (found: Option<Id>)
      requires IsQuery(rows, key, ids)
      ensures IsFound(rows, key, now, found)
    {
      var i := 0;
      while i < |ids|
        invariant 0 <= i <= |ids|
        invariant forall id :: Answers(rows, key, now, id) ==> IsCandidate(rows, key, id) && id in ids[i..]
      {
        if IsLive(rows[ids[i]], now) {
          return Some(ids[i]);
        }
        i := i + 1;
      }
      return None;
    }

    method SetApprovalStatus(id: Id, to: Status, now: Time) returns (changed: bool)
      requires to != Pending
      modifies this`rows
      ensures changed == Sets(old(rows), id, to, now)
      ensures rows == SetStatus(old(rows), id, to, now)
    {
      changed := false;
      if id in rows {
        var r := rows[id];
        match to {
          case Approved => changed := r.status == Pending && r.expires > now;
          case Denied => changed := r.status == Pending || r.status == Approved;
          case Consumed => changed := r.status == Approved && r.expires > now;
        }
        if changed {
          rows := rows[id := r.(status := to)];
        }
      }
    }

    method PutGrantRow(id: Id, g: Grant)
      modifies this`grants
      ensures grants == PutGrant(old(grants), id, g)
    {
      grants := grants[id := if id in grants then grants[id].(scopes := g.scopes) else g];
    }

    /** The IPC command `auth.revoke` (src/server/ipcDispatch.ts). */
    method Revoke(id: Id, now: Time) returns (revoked: bool)
      modifies this`grants, this`provider
      ensures revoked <==> id in old(grants) && old(grants)[id].revoked.None?
      ensures grants == RevokeGrant(old(grants), id, now)
      ensures provider == if revoked then RevokeModels(old(provider), id) else old(provider)
    {
      revoked := id in grants && grants[id].revoked.None?;
      if revoked {
        grants := grants[id := grants[id].(revoked := Some(now))];
        provider := map k | k in provider && provider[k].grantId != Some(id) :: provider[k];
      }
    }
  }
}
