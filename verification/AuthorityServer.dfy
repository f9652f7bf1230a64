/** The store and the consent handlers as one object. `Valid` says that its state is one that a
    run of events leads to, so every theorem about runs is one about the object; each method is
    an event, keeps `Valid`, and promises its caller what the caller relies on. */
module AuthorityServers {
  import opened Wrappers
  import opened StoreTables
  import opened ApprovalGate
  import opened Interactions
  import opened ClientDeletion
  import opened AuthorityRuns
  import opened ApprovalRuns
  import opened ConsentRuns

  lemma RunSnoc(es: seq<Event>, e: Event)
    ensures Run(START, es + [e]) == Step(Run(START, es), e)
  {
    RunAppend(START, es, [e]);
    var s := Run(START, es);
    assert [e][1..] == [];
    assert Run(s, [e]) == Run(Step(s, e), []);
  }

  lemma NotGrantedYet(es: seq<Event>, g: Id)
    requires g in Run(START, es).completions
    ensures g !in Run(START, es).t.grants
  {
    RunKeepsInv(START, es);
  }

  lemma RevokedForever(es: seq<Event>, g: Id)
    requires var grants := Run(START, es).t.grants; g in grants && grants[g].revoked.Some?
    ensures var s := Run(START, es);
      forall later :: g in Run(s, later).t.grants && Run(s, later).t.grants[g] == s.t.grants[g]
  {
    var s := Run(START, es);
    RunKeepsInv(START, es);
    forall later ensures g in Run(s, later).t.grants && Run(s, later).t.grants[g] == s.t.grants[g] {
      RevokedStaysRevoked(s, later, g);
    }
  }

  class AuthorityServer {
    const store: Store
    const router: InteractionRouter
    var now: Time
    ghost var trace: seq<Event>

    ghost function View(): Authority
      reads this, store, router
    {
      Authority(now, store.Contents(), router.completions)
    }

    ghost predicate Valid()
      reads this, store, router
    {
      router.store == store && View() == Run(START, trace)
    }

    constructor ()
      ensures Valid() && View() == START && fresh(store) && fresh(router)
    {
      var s := new Store();
      store := s;
      router := new InteractionRouter(s);
      now, trace := 0, [];
    }

    method Wait(ms: nat)
      requires Valid()
      modifies this
      ensures Valid() && trace == old(trace) + [Tick(ms)]
    {
      RunSnoc(trace, Tick(ms));
      trace := trace + [Tick(ms)];
      now := now + ms;
    }

    // ---------------------------------------------------------------------- approvals

    /** No approval that the workspace has now will ever be used again. */
    method SetTrustMode(workspace: Id)
      requires Valid()
      modifies this`trace, store
      ensures Valid() && trace == old(trace) + [TrustSet(workspace)]
      ensures forall id, later :: id in store.rows && store.rows[id].purpose.Action? && store.rows[id].purpose.key.workspace == workspace ==>
                Uses(View(), later, id) == 0
    {
      forall id, later | id in store.rows && store.rows[id].purpose.Action? && store.rows[id].purpose.key.workspace == workspace
        ensures Uses(Step(View(), TrustSet(workspace)), later, id) == 0
      {
        TrustChangeVoidsApprovals(trace, TrustSet(workspace), later, id);
      }
      RunSnoc(trace, TrustSet(workspace));
      trace := trace + [TrustSet(workspace)];
      store.SetTrustMode(workspace);
    }

    /** `ids` is the answer of the query. A call proceeds only on an approval that the owner
        gave for exactly it and that no call has used; it fails as expired exactly if such an
        approval ran out. */
    method RequireApproval(req: Request, ids: seq<Id>, newId: Id) returns (outcome: Outcome)
      requires Valid() && IsQuery(store.rows, KeyOf(store.policies, req), ids)
      modifies this`trace, store
      ensures Valid() && trace == old(trace) + [Gate(req, newId)]
      ensures outcome.Proceed? ==>
        && OwnerApproved(START, old(trace), outcome.id, Action(old(KeyOf(store.policies, req)), req.epoch))
        && Uses(START, old(trace), outcome.id) == 0
      ensures forall id :: outcome == Expired(id) <==> IsStuck(old(View()), id, req)
    {
      ghost var s := View();
      ghost var found;
      outcome, found := RequireLocalApproval(store, req, ids, now, newId);
      TheQueryIsDetermined(trace, KeyOf(s.t.policies, req), found);
      assert GateResult(s, req, newId).1 == outcome;
      if outcome.Proceed? {
        ProceedingIsAuthorised(trace, Gate(req, newId), [], outcome.id);
      }
      OneLiveRowPerAction(START, trace);
      forall id ensures outcome == Expired(id) <==> IsStuck(s, id, req) {
        ExpiredExactlyWhenStuck(s, req, newId, id);
      }
      RunSnoc(trace, Gate(req, newId));
      trace := trace + [Gate(req, newId)];
    }

    /** The IPC command `approvals.approve`. */
    method ApproveAction(workspace: Id, id: Id) returns (ok: bool)
      requires Valid()
      modifies this`trace, store
      ensures Valid() && trace == old(trace) + [Approve(workspace, id)]
      ensures ok ==> id in store.rows && store.rows[id].status == Approved && OwnerApproved(START, trace, id, store.rows[id].purpose)
      ensures !ok ==> View() == old(View())
    {
      RunSnoc(trace, Approve(workspace, id));
      trace := trace + [Approve(workspace, id)];
      if id !in store.rows || !store.rows[id].purpose.Action? || store.rows[id].purpose.key.workspace != workspace {
        return false;
      }
      ok := store.SetApprovalStatus(id, Approved, now);
      if ok {
        ApprovedByTheOwner(START, trace, id);
      }
    }

    /** The IPC command `auth.approve`. */
    method ApproveRequest(id: Id) returns (ok: bool)
      requires Valid()
      modifies this`trace, store
      ensures Valid() && trace == old(trace) + [ApproveConsent(id)]
      ensures ok ==> id in store.rows && store.rows[id].status == Approved && OwnerApproved(START, trace, id, store.rows[id].purpose)
      ensures !ok ==> View() == old(View())
    {
      RunSnoc(trace, ApproveConsent(id));
      trace := trace + [ApproveConsent(id)];
      if id !in store.rows || !store.rows[id].purpose.Consent? {
        return false;
      }
      ok := store.SetApprovalStatus(id, Approved, now);
      if ok {
        ApprovedByTheOwner(START, trace, id);
      }
    }

    /** What is denied stays denied and is never used. */
    method DenyApproval(id: Id) returns (ok: bool)
      requires Valid()
      modifies this`trace, store
      ensures Valid() && trace == old(trace) + [Deny(id)]
      ensures ok ==> id in store.rows && forall later :: Uses(View(), later, id) == 0
      ensures !ok ==> View() == old(View())
    {
      RunSnoc(trace, Deny(id));
      trace := trace + [Deny(id)];
      ok := store.SetApprovalStatus(id, Denied, now);
      if ok {
        forall later ensures Uses(View(), later, id) == 0 {
          DoneIsNotUsed(View(), later, id);
        }
      }
    }

    // ------------------------------------------------------------------------ consent

    method OpenRequest(uid: Id, client: Id, scopes: int) returns (page: Result<()>)
      requires Valid()
      modifies this`trace, store
      ensures Valid() && trace == old(trace) + [Open(uid, client, scopes)]
      ensures |PendingConsents(store.rows, now)| <= MAX_PENDING_OAUTH
      ensures page.Success? ==> uid in store.rows
    {
      ConsentsAreBounded(START, trace + [Open(uid, client, scopes)]);
      RunSnoc(trace, Open(uid, client, scopes));
      trace := trace + [Open(uid, client, scopes)];
      page := router.Interaction(uid, client, scopes, now);
    }

    /** Saving begins only for a client and scopes that the owner approved. */
    method BeginComplete(uid: Id, client: Id, grantId: Id) returns (saving: bool)
      requires Valid() && IsFresh(View(), grantId)
      modifies this`trace, store, router
      ensures Valid() && trace == old(trace) + [Begin(uid, client, grantId)]
      ensures saving ==>
        && grantId in router.completions
        && OwnerApproved(START, trace, uid, Consent(client, router.completions[grantId].scopes))
      ensures !saving ==> router.completions == old(router.completions)
    {
      RunSnoc(trace, Begin(uid, client, grantId));
      trace := trace + [Begin(uid, client, grantId)];
      saving := router.Complete(uid, client, grantId, now);
      if saving {
        RunKeepsInv(START, trace);
        assert IsMinted(store.rows, uid, client, router.completions[grantId].scopes);
        ApprovedByTheOwner(START, trace, uid);
      }
    }

    method GrantSaved(grantId: Id)
      requires Valid() && InPhase(router.completions, grantId, Saving)
      modifies this`trace, store, router
      ensures Valid() && trace == old(trace) + [Saves(grantId)]
      ensures GrantKey(grantId) in store.provider
    {
      RunSnoc(trace, Saves(grantId));
      trace := trace + [Saves(grantId)];
      router.GrantSaved(grantId);
    }

    /** A grant that is stored is the only one of its approval, for a registered client. */
    method ResumeComplete(grantId: Id) returns (granted: bool)
      requires Valid() && InPhase(router.completions, grantId, Saved)
      modifies this`trace, store, router
      ensures Valid() && trace == old(trace) + [Resumes(grantId)]
      ensures granted ==>
        && grantId in store.grants && store.grants[grantId].client in store.clients
        && forall g :: g in store.grants && store.grants[g].approval == store.grants[grantId].approval ==> g == grantId
      ensures !granted ==> store.grants == old(store.grants)
    {
      NotGrantedYet(trace, grantId);
      RunSnoc(trace, Resumes(grantId));
      trace := trace + [Resumes(grantId)];
      granted := router.ResumeAfterSave(grantId);
      EveryGrantIsApproved(trace);
    }

    method GrantDestroyed(grantId: Id)
      requires Valid() && InPhase(router.completions, grantId, Destroying)
      modifies this`trace, store, router
      ensures Valid() && trace == old(trace) + [Destroys(grantId)]
      ensures GrantKey(grantId) !in store.provider && grantId !in router.completions
    {
      RunSnoc(trace, Destroys(grantId));
      trace := trace + [Destroys(grantId)];
      router.GrantDestroyed(grantId);
    }

    // ------------------------------------------------------------------------ clients

    method RegisterClient(client: Id, payload: int)
      requires Valid()
      modifies this`trace, store
      ensures Valid() && trace == old(trace) + [Register(client, payload)]
    {
      RunSnoc(trace, Register(client, payload));
      trace := trace + [Register(client, payload)];
      store.clients := store.clients[client := payload];
    }

    /** A revoked grant stays revoked, whatever happens later. */
    method RevokeGrantOf(grantId: Id) returns (revoked: bool)
      requires Valid()
      modifies this`trace, store
      ensures Valid() && trace == old(trace) + [AuthorityRuns.Event.Revoke(grantId)]
      ensures revoked ==>
        && grantId in store.grants
        && forall later :: grantId in Run(View(), later).t.grants && Run(View(), later).t.grants[grantId] == store.grants[grantId]
      ensures !revoked ==> View() == old(View())
    {
      RunSnoc(trace, AuthorityRuns.Event.Revoke(grantId));
      trace := trace + [AuthorityRuns.Event.Revoke(grantId)];
      revoked := store.Revoke(grantId, now);
      if revoked {
        RevokedForever(trace, grantId);
      }
    }

    /** Every selected client is gone without a trace, or nothing has changed. */
    method DeleteSelected(selection: seq<Selected>) returns (deleted: Result<()>)
      requires Valid() && 1 <= |selection| <= MAX_SELECTION
      modifies this`trace, store
      ensures Valid() && trace == old(trace) + [DeleteClients(selection)]
      ensures deleted.Success? ==> forall c :: c in selection ==> NoTrace(store.Contents(), c.id)
      ensures deleted.Failure? ==> View() == old(View())
    {
      DeletionIsAllOrNothing(store.Contents(), selection, now);
      RunSnoc(trace, DeleteClients(selection));
      trace := trace + [DeleteClients(selection)];
      deleted := DeleteReviewedClients(store, selection, now);
    }
  }
}
