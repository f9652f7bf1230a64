/** The consent handlers (src/auth/interactions.ts). `complete` yields while the provider
    saves its grant, and again while it destroys one; a `Completion` is a handler that has
    not returned yet. */
module Interactions {
  import opened Wrappers
  import opened StoreTables

  const MAX_PENDING_OAUTH := 20
  const TTL := 300000

  datatype Phase = Saving | Saved | Destroying

  datatype Completion = Completion(approval: Id, client: Id, scopes: int, phase: Phase)

  type Completions = map<Id, Completion>

  predicate IsPendingConsent(r: Row, now: Time) {
    r.purpose.Consent? && r.status == Pending && r.expires >= now
  }

  function PendingConsents(rows: Rows, now: Time): set<Id> {
    set id | id in rows && IsPendingConsent(rows[id], now)
  }

  /** `GET /interaction/:uid` records a request once, and refuses it when too many wait. */
  function OpenConsent(rows: Rows, clients: map<Id, int>, uid: Id, client: Id, scopes: int, now: Time): Rows {
    if client !in clients || uid in rows || |PendingConsents(rows, now)| >= MAX_PENDING_OAUTH then rows
    else rows[uid := Row(Consent(client, scopes), now, now + TTL, Pending)]
  }

  predicate CanComplete(rows: Rows, uid: Id, now: Time) {
    uid in rows && rows[uid].purpose.Consent? && Sets(rows, uid, Consumed, now)
  }

  /** `POST /interaction/:uid/complete` until `grant.save()`: the approval is consumed even
      when the client then turns out to be another one, or deleted. */
  function BeginComplete(rows: Rows, clients: map<Id, int>, completions: Completions, uid: Id, client: Id, grantId: Id, now: Time)
    : (Rows, Completions)
  {
    if !CanComplete(rows, uid, now) then (rows, completions)
    else
      var p := rows[uid].purpose;
      (SetStatus(rows, uid, Consumed, now),
       if client != p.client || client !in clients then completions
       else completions[grantId := Completion(uid, client, p.scopes, Saving)])
  }

  predicate InPhase(completions: Completions, grantId: Id, phase: Phase) {
    grantId in completions && completions[grantId].phase == phase
  }

  /** The provider's row for a grant names its client. */
  function SaveLands(provider: map<ModelKey, Model>, completions: Completions, grantId: Id): (map<ModelKey, Model>, Completions) {
    if !InPhase(completions, grantId, Saving) then (provider, completions)
    else
      var c := completions[grantId];
      (provider[GrantKey(grantId) := Model(None, Some(c.client), None)], completions[grantId := c.(phase := Saved)])
  }

  /** Behind `await grant.save()`: a deleted client gets nothing. */
  function ResumeComplete(grants: Grants, clients: map<Id, int>, completions: Completions, grantId: Id): (Grants, Completions) {
    if !InPhase(completions, grantId, Saved) then (grants, completions)
    else
      var c := completions[grantId];
      if c.client !in clients then (grants, completions[grantId := c.(phase := Destroying)])
      else (PutGrant(grants, grantId, Grant(c.client, c.scopes, None, c.approval)), completions - {grantId})
  }

  function DestroyLands(provider: map<ModelKey, Model>, completions: Completions, grantId: Id): (map<ModelKey, Model>, Completions) {
    if !InPhase(completions, grantId, Destroying) then (provider, completions)
    else (provider - {GrantKey(grantId)}, completions - {grantId})
  }

  class InteractionRouter {
    const store: Store
    var completions: Completions

    constructor (store: Store)
      ensures this.store == store && completions == map[]
    {
      this.store := store;
      completions := map[];
    }

    /** The reply is the page, unless the client is unknown or too many requests wait. */
    method Interaction(uid: Id, client: Id, scopes: int, now: Time) returns (page: Result<()>)
      modifies store`rows
      ensures store.rows == OpenConsent(old(store.rows), store.clients, uid, client, scopes, now)
      ensures page.Success? ==> uid in store.rows
    {
      if client !in store.clients {
        return Failure(INVALID_INPUT);
      }
      if uid in store.rows {
        return if store.rows[uid].purpose.Consent? then Success(()) else Failure(INVALID_INPUT);
      }
      if |PendingConsents(store.rows, now)| >= MAX_PENDING_OAUTH {
        return Failure(RESOURCE_LIMIT);
      }
      var _ := store.CreateApproval(uid, Consent(client, scopes), now, TTL);
      page := Success(());
    }

    method Complete(uid: Id, client: Id, grantId: Id, now: Time) returns (saving: bool)
      modifies this`completions, store`rows
      ensures (store.rows, completions) == BeginComplete(old(store.rows), store.clients, old(completions), uid, client, grantId, now)
      ensures saving <==> CanComplete(old(store.rows), uid, now) && client in store.clients && old(store.rows)[uid].purpose.client == client
    {
      if uid !in store.rows || !store.rows[uid].purpose.Consent? || store.rows[uid].status != Approved {
        return false;
      }
      var summary := store.rows[uid].purpose;
      var consumed := store.SetApprovalStatus(uid, Consumed, now);
      if !consumed || client != summary.client || client !in store.clients {
        return false;
      }
      completions := completions[grantId := Completion(uid, client, summary.scopes, Saving)];
      saving := true;
    }

    method GrantSaved(grantId: Id)
      requires InPhase(completions, grantId, Saving)
      modifies this`completions, store`provider
      ensures (store.provider, completions) == SaveLands(old(store.provider), old(completions), grantId)
    {
      var c := completions[grantId];
      store.provider := store.provider[GrantKey(grantId) := Model(None, Some(c.client), None)];
      completions := completions[grantId := c.(phase := Saved)];
    }

    method ResumeAfterSave(grantId: Id) returns (granted: bool)
      requires InPhase(completions, grantId, Saved)
      modifies this`completions, store`grants
      ensures (store.grants, completions) == ResumeComplete(old(store.grants), store.clients, old(completions), grantId)
      ensures granted <==> old(completions)[grantId].client in store.clients
    {
      var c := completions[grantId];
      granted := c.client in store.clients;
      if granted {
        store.PutGrantRow(grantId, Grant(c.client, c.scopes, None, c.approval));
        completions := completions - {grantId};
      } else {
        completions := completions[grantId := c.(phase := Destroying)];
      }
    }

    method GrantDestroyed(grantId: Id)
      requires InPhase(completions, grantId, Destroying)
      modifies this`completions, store`provider
      ensures (store.provider, completions) == DestroyLands(old(store.provider), old(completions), grantId)
    {
      store.provider := store.provider - {GrantKey(grantId)};
      completions := completions - {grantId};
    }
  }
}
