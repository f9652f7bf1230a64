/** Per-action local approvals (src/security/approvals.ts). */
module ApprovalGate {
  import opened Wrappers
  import opened StoreTables

  datatype Request = Request(workspace: Id, epoch: int, principal: Id, tool: int, action: int, ttl: nat)

  /** How a gated call ends: it proceeds on a consumed approval, or it fails with
      APPROVAL_EXPIRED, or with APPROVAL_REQUIRED for a row that waits or is new. `Clash`
      is an insert with an id that exists. */
  datatype Outcome = Proceed(id: Id) | Expired(id: Id) | Waiting(id: Id) | Requested(id: Id) | Clash

  function KeyOf(policies: map<Id, nat>, req: Request): Key {
    Key(req.workspace, req.principal, Digest(req.tool, req.action, PolicyVersion(policies, req.workspace)))
  }

  function Ask(rows: Rows, key: Key, req: Request, now: Time, newId: Id): (Rows, Outcome) {
    if newId in rows then (rows, Clash)
    else (rows[newId := Row(Action(key, req.epoch), now, now + req.ttl, Pending)], Requested(newId))
  }

  /** `requireLocalApproval` after the query answered `found`. */
  function Require(rows: Rows, key: Key, req: Request, found: Option<Id>, now: Time, newId: Id): (Rows, Outcome)
    requires found.Some? ==> Answers(rows, key, now, found.value)
  {
    match found
    case None => Ask(rows, key, req, now, newId)
    case Some(id) =>
      if rows[id].purpose.epoch != req.epoch then Ask(SetStatus(rows, id, Denied, now), key, req, now, newId)
      else if rows[id].status == Approved then
        if Sets(rows, id, Consumed, now) then (SetStatus(rows, id, Consumed, now), Proceed(id)) else (rows, Expired(id))
      else (rows, Waiting(id))
  }

  method RequireLocalApproval(store: Store, req: Request, ids: seq<Id>, now: Time, newId: Id)
    returns (outcome: Outcome, ghost found: Option<Id>)
    requires IsQuery(store.rows, KeyOf(store.policies, req), ids)
    modifies store`rows
    ensures IsFound(old(store.rows), KeyOf(store.policies, req), now, found)
    ensures (store.rows, outcome) == Require(old(store.rows), KeyOf(store.policies, req), req, found, now, newId)
  {
    var key := KeyOf(store.policies, req);
    var existing := store.FindPendingActionApproval(key, ids, now);
    found := existing;
    if existing.Some? {
      var id := existing.value;
      var row := store.rows[id];
      if row.purpose.epoch != req.epoch {
        var _ := store.SetApprovalStatus(id, Denied, now);
      } else if row.status == Approved {
        var consumed := store.SetApprovalStatus(id, Consumed, now);
        return if consumed then Proceed(id) else Expired(id), found;
      } else {
        return Waiting(id), found;
      }
    }
    var created := store.CreateApproval(newId, Action(key, req.epoch), now, req.ttl);
    outcome := if created then Requested(newId) else Clash;
  }
}
