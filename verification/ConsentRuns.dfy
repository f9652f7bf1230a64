/** What holds of grants and clients over every run, and what one deletion does. */
module ConsentRuns {
  import opened Wrappers
  import opened Common
  import opened StoreTables
  import opened Interactions
  import opened ClientDeletion
  import opened AuthorityRuns
  import opened ApprovalRuns

  // -------------------------------------------------------------- one invariant

  predicate GrantsRegistered(grants: Grants, clients: map<Id, int>) {
    forall g :: g in grants && grants[g].revoked.None? ==> grants[g].client in clients
  }

  predicate AccessRegistered(access: map<(Id, Id), int>, clients: map<Id, int>) {
    forall k :: k in access ==> k.1 in clients
  }

  /** The approval was consumed, for this client and these scopes. */
  predicate IsMinted(rows: Rows, approval: Id, client: Id, scopes: int) {
    approval in rows && rows[approval].purpose == Consent(client, scopes) && rows[approval].status == Consumed
  }

  predicate GrantsMinted(rows: Rows, grants: Grants) {
    forall g :: g in grants ==> IsMinted(rows, grants[g].approval, grants[g].client, grants[g].scopes)
  }

  predicate CompletionsMinted(rows: Rows, completions: Completions) {
    forall g :: g in completions ==> IsMinted(rows, completions[g].approval, completions[g].client, completions[g].scopes)
  }

  /** No two grants, finished or under way, come from one approval. */
  predicate OneEach(grants: Grants, completions: Completions) {
    && (forall a, b :: a in grants && b in grants && grants[a].approval == grants[b].approval ==> a == b)
    && (forall a, b :: a in completions && b in completions && completions[a].approval == completions[b].approval ==> a == b)
    && (forall a, b :: a in grants && b in completions ==> a != b && grants[a].approval != completions[b].approval)
  }

  /** The provider's own grant rows name a registered client, or wait to be destroyed. */
  predicate ProviderCovered(provider: map<ModelKey, Model>, clients: map<Id, int>, completions: Completions) {
    && (forall k :: k in provider && k.GrantKey? ==> provider[k].client.Some? && (provider[k].client.value in clients || k.id in completions))
    && (forall g :: g in completions && GrantKey(g) in provider ==> provider[GrantKey(g)].client == Some(completions[g].client))
  }

  ghost predicate Inv(s: Authority) {
    && GrantsRegistered(s.t.grants, s.t.clients)
    && AccessRegistered(s.t.access, s.t.clients)
    && GrantsMinted(s.t.rows, s.t.grants)
    && CompletionsMinted(s.t.rows, s.completions)
    && OneEach(s.t.grants, s.completions)
  }

  lemma DeletedGrants(t: Tables, selection: seq<Selected>, now: Time)
    ensures var d := DeleteReviewed(t, selection, now);
            && d.grants.Keys == t.grants.Keys
            && forall g :: g in t.grants ==> d.grants[g] == t.grants[g].(revoked := d.grants[g].revoked)
    ensures GrantsRegistered(t.grants, t.clients) ==>
              var d := DeleteReviewed(t, selection, now); GrantsRegistered(d.grants, d.clients)
  {
  }

  lemma StepKeepsGrantsRegistered(s: Authority, e: Event)
    requires GrantsRegistered(s.t.grants, s.t.clients)
    ensures GrantsRegistered(GrantsAfter(s, e), ClientsAfter(s, e))
  {
    if e.DeleteClients? {
      DeletedGrants(s.t, e.selection, s.now);
    }
  }

  lemma StepKeepsAccessRegistered(s: Authority, e: Event)
    requires AccessRegistered(s.t.access, s.t.clients)
    ensures AccessRegistered(AccessAfter(s, e), ClientsAfter(s, e))
  {
  }

  lemma MintedStays(s: Authority, e: Event, approval: Id, client: Id, scopes: int)
    requires IsMinted(s.t.rows, approval, client, scopes)
    ensures IsMinted(RowsAfter(s, e), approval, client, scopes)
  {
    StepEvolves(s, e);
  }

  /** Grants are added only by a handler that resumes, and change only by revocation. */
  lemma GrantsStep(s: Authority, e: Event, g: Id)
    requires OneEach(s.t.grants, s.completions)
    requires g in GrantsAfter(s, e)
    ensures g in s.t.grants ==> GrantsAfter(s, e)[g] == s.t.grants[g].(revoked := GrantsAfter(s, e)[g].revoked)
    ensures g !in s.t.grants ==>
              && e == Resumes(g) && InPhase(s.completions, g, Saved)
              && var c := s.completions[g]; GrantsAfter(s, e)[g] == Grant(c.client, c.scopes, None, c.approval)
  {
    if e.DeleteClients? {
      DeletedGrants(s.t, e.selection, s.now);
    }
  }

  lemma StepKeepsGrantsMinted(s: Authority, e: Event)
    requires GrantsMinted(s.t.rows, s.t.grants) && CompletionsMinted(s.t.rows, s.completions)
    requires OneEach(s.t.grants, s.completions)
    ensures GrantsMinted(RowsAfter(s, e), GrantsAfter(s, e))
  {
    var grants := GrantsAfter(s, e);
    forall g | g in grants ensures IsMinted(RowsAfter(s, e), grants[g].approval, grants[g].client, grants[g].scopes) {
      GrantsStep(s, e, g);
      MintedStays(s, e, grants[g].approval, grants[g].client, grants[g].scopes);
    }
  }

  /** Completions are added only when an approval is consumed in the same step. */
  lemma CompletionsStep(s: Authority, e: Event, g: Id)
    requires g in CompletionsAfter(s, e)
    ensures g in s.completions ==> CompletionsAfter(s, e)[g] == s.completions[g].(phase := CompletionsAfter(s, e)[g].phase)
    ensures g !in s.completions ==>
              && e.Begin? && IsFresh(s, g) && CanComplete(s.t.rows, e.uid, s.now) && g == e.grantId
              && CompletionsAfter(s, e)[g].approval == e.uid
              && IsMinted(RowsAfter(s, e), e.uid, CompletionsAfter(s, e)[g].client, CompletionsAfter(s, e)[g].scopes)
  {
  }

  lemma StepKeepsCompletionsMinted(s: Authority, e: Event)
    requires CompletionsMinted(s.t.rows, s.completions)
    ensures CompletionsMinted(RowsAfter(s, e), CompletionsAfter(s, e))
  {
    var cs := CompletionsAfter(s, e);
    forall g | g in cs ensures IsMinted(RowsAfter(s, e), cs[g].approval, cs[g].client, cs[g].scopes) {
      CompletionsStep(s, e, g);
      if g in s.completions {
        MintedStays(s, e, cs[g].approval, cs[g].client, cs[g].scopes);
      }
    }
  }

  /** An approval that is still approved backs no grant, so a new completion is the first. */
  lemma StepKeepsOneEach(s: Authority, e: Event)
    requires GrantsMinted(s.t.rows, s.t.grants) && CompletionsMinted(s.t.rows, s.completions)
    requires OneEach(s.t.grants, s.completions)
    ensures OneEach(GrantsAfter(s, e), CompletionsAfter(s, e))
  {
    var grants, cs := GrantsAfter(s, e), CompletionsAfter(s, e);
    forall g | g in grants
      ensures g in s.t.grants ==> grants[g].approval == s.t.grants[g].approval
      ensures g !in s.t.grants ==> g in s.completions && grants[g].approval == s.completions[g].approval && g !in cs
    {
      GrantsStep(s, e, g);
    }
    forall g | g in cs
      ensures g in s.completions ==> cs[g].approval == s.completions[g].approval
      ensures g !in s.completions ==> e.Begin? && g == e.grantId && g !in grants && cs[g].approval == e.uid && IsUnused(s, e.uid)
    {
      CompletionsStep(s, e, g);
    }
  }

  predicate IsUnused(s: Authority, approval: Id) {
    && (forall g :: g in s.t.grants ==> s.t.grants[g].approval != approval)
    && (forall g :: g in s.completions ==> s.completions[g].approval != approval)
  }

  lemma {:induction false} RunKeepsInv(s: Authority, es: seq<Event>)
    requires Inv(s)
    ensures Inv(Run(s, es))
    decreases |es|
  {
    if es != [] {
      StepKeepsInv(s, es[0]);
      RunKeepsInv(Step(s, es[0]), es[1..]);
    }
  }

  lemma StepKeepsInv(s: Authority, e: Event)
    requires Inv(s)
    ensures Inv(Step(s, e))
  {
    StepKeepsGrantsRegistered(s, e);
    StepKeepsAccessRegistered(s, e);
    StepKeepsGrantsMinted(s, e);
    StepKeepsCompletionsMinted(s, e);
    StepKeepsOneEach(s, e);
  }

  // ------------------------------------------------------------------ main results

  /** However consents, their await, owner decisions, revocations, deletions and crashes
      interleave: every unrevoked grant and every access row belongs to a registered client;
      no approval yields two grants; and the owner approved, in time, exactly this client
      with these scopes. */
  lemma EveryGrantIsApproved(es: seq<Event>)
    ensures var s := Run(START, es);
            && GrantsRegistered(s.t.grants, s.t.clients)
            && AccessRegistered(s.t.access, s.t.clients)
            && forall g :: g in s.t.grants ==>
                 && OwnerApproved(START, es, s.t.grants[g].approval, Consent(s.t.grants[g].client, s.t.grants[g].scopes))
                 && forall other :: other in s.t.grants && s.t.grants[other].approval == s.t.grants[g].approval ==> other == g
  {
    RunKeepsInv(START, es);
    var s := Run(START, es);
    forall g | g in s.t.grants
      ensures OwnerApproved(START, es, s.t.grants[g].approval, Consent(s.t.grants[g].client, s.t.grants[g].scopes))
    {
      ApprovedByTheOwner(START, es, s.t.grants[g].approval);
    }
  }

  /** A revoked grant stays as it is: nothing clears or moves its revocation. */
  lemma {:induction false} RevokedStaysRevoked(s: Authority, es: seq<Event>, g: Id)
    requires Inv(s) && g in s.t.grants && s.t.grants[g].revoked.Some?
    ensures g in Run(s, es).t.grants && Run(s, es).t.grants[g] == s.t.grants[g]
    decreases |es|
  {
    if es != [] {
      RevokedStep(s, es[0], g);
      StepKeepsInv(s, es[0]);
      RevokedStaysRevoked(Step(s, es[0]), es[1..], g);
    }
  }

  lemma RevokedStep(s: Authority, e: Event, g: Id)
    requires OneEach(s.t.grants, s.completions) && g in s.t.grants && s.t.grants[g].revoked.Some?
    ensures g in GrantsAfter(s, e) && GrantsAfter(s, e)[g] == s.t.grants[g]
  {
  }

  predicate WithoutCrash(es: seq<Event>) {
    forall i :: 0 <= i < |es| ==> !es[i].Crash?
  }

  lemma StepKeepsProviderCovered(s: Authority, e: Event)
    requires ProviderCovered(s.t.provider, s.t.clients, s.completions) && !e.Crash?
    ensures ProviderCovered(ProviderAfter(s, e), ClientsAfter(s, e), CompletionsAfter(s, e))
  {
    if e.DeleteClients? {
      DeletionKeepsProviderCovered(s.t, s.completions, e.selection, s.now);
    } else if e.Begin? || e.Saves? || e.Resumes? || e.Destroys? {
      HandlerKeepsProviderCovered(s, e);
    }
  }

  lemma HandlerKeepsProviderCovered(s: Authority, e: Event)
    requires ProviderCovered(s.t.provider, s.t.clients, s.completions)
    requires e.Begin? || e.Saves? || e.Resumes? || e.Destroys?
    ensures ProviderCovered(ProviderAfter(s, e), s.t.clients, CompletionsAfter(s, e))
  {
  }

  lemma DeletionKeepsProviderCovered(t: Tables, completions: Completions, selection: seq<Selected>, now: Time)
    requires ProviderCovered(t.provider, t.clients, completions)
    ensures var d := DeleteReviewed(t, selection, now); ProviderCovered(d.provider, d.clients, completions)
  {
    if Accepts(t, selection) {
      var clients := Ids(selection);
      forall k | k in DropModels(t.provider, t.grants, clients) && k.GrantKey?
        ensures t.provider[k].client.value in t.clients - clients || k.id in completions
      {
        assert !Names(t.provider[k].client, clients);
      }
    }
  }

  /** While the process lives, the provider keeps a grant row of a client that is not
      registered only as long as the handler that wrote it has not returned. */
  lemma {:induction false} NoOrphansWithoutCrash(s: Authority, es: seq<Event>)
    requires ProviderCovered(s.t.provider, s.t.clients, s.completions) && WithoutCrash(es)
    ensures var n := Run(s, es); ProviderCovered(n.t.provider, n.t.clients, n.completions)
    decreases |es|
  {
    if es != [] {
      StepKeepsProviderCovered(s, es[0]);
      NoOrphansWithoutCrash(Step(s, es[0]), es[1..]);
    }
  }

  // What a crash leaves behind

  /** A handler holds the grant row of a client that is no longer registered: the save landed
      after the deletion, and the row is not destroyed yet. */
  predicate HoldsOrphan(s: Authority, g: Id) {
    g in s.completions && GrantKey(g) in s.t.provider && s.completions[g].client !in s.t.clients
  }

  ghost predicate Covered(s: Authority) {
    ProviderCovered(s.t.provider, s.t.clients, s.completions)
  }

  /** A crash leaves the row of an unregistered client behind exactly if some handler holds
      such a row when it happens. */
  lemma CrashOrphansExactlyWhen(s: Authority)
    requires Covered(s)
    ensures Covered(Step(s, Crash)) <==> forall g :: !HoldsOrphan(s, g)
  {
    var n := Step(s, Crash);
    if g :| HoldsOrphan(s, g) {
      assert GrantKey(g) in n.t.provider && GrantKey(g).id !in n.completions;
    } else {
      forall k | k in n.t.provider && k.GrantKey? ensures n.t.provider[k].client.value in n.t.clients {
        assert !HoldsOrphan(s, k.id);
        assert k == GrantKey(k.id);
      }
    }
  }

  ghost predicate AlwaysCovered(s: Authority, es: seq<Event>)
    decreases |es|
  {
    Covered(s) && (es != [] ==> AlwaysCovered(Step(s, es[0]), es[1..]))
  }

  ghost predicate NeverCrashesOnOrphans(s: Authority, es: seq<Event>)
    decreases |es|
  {
    es != [] ==> (es[0].Crash? ==> forall g :: !HoldsOrphan(s, g)) && NeverCrashesOnOrphans(Step(s, es[0]), es[1..])
  }

  lemma {:induction false} CoveredOverRun(s: Authority, es: seq<Event>)
    requires Covered(s)
    ensures AlwaysCovered(s, es) <==> NeverCrashesOnOrphans(s, es)
    decreases |es|
  {
    if es != [] {
      if es[0].Crash? {
        CrashOrphansExactlyWhen(s);
      } else {
        StepKeepsProviderCovered(s, es[0]);
      }
      if Covered(Step(s, es[0])) {
        CoveredOverRun(Step(s, es[0]), es[1..]);
      }
    }
  }

  /** Along every run, the provider's grant rows of unregistered clients are all held by their
      handlers, if and only if no crash happens while a handler holds one. */
  lemma OrphansAreLeftExactlyByCrashes(es: seq<Event>)
    ensures AlwaysCovered(START, es) <==> NeverCrashesOnOrphans(START, es)
  {
    CoveredOverRun(START, es);
  }

  // A run that leaves one: client 1 is deleted while the grant of its consent 5 is saved.

  const OWNED := Review(1, 0, map[], map[])
  const CONSENTS := [Register(1, 0), Open(5, 1, 7), ApproveConsent(5)]
  const DELETES := [Begin(5, 1, 9), DeleteClients([Selected(1, OWNED)])]
  const CRASHES := [Saves(9), Crash]

  function ConsentRow(status: Status): Rows {
    map[5 := Row(Consent(1, 7), 0, TTL, status)]
  }

  function WithRow(status: Status): Authority {
    Authority(0, EMPTY.(clients := map[1 := 0], rows := ConsentRow(status)), map[])
  }

  lemma OpensAndApproves()
    ensures Step(START, Register(1, 0)) == START.(t := EMPTY.(clients := map[1 := 0]))
    ensures Step(START.(t := EMPTY.(clients := map[1 := 0])), Open(5, 1, 7)) == WithRow(Pending)
    ensures Step(WithRow(Pending), ApproveConsent(5)) == WithRow(Approved)
  {
    assert PendingConsents(map[], 0) == {};
  }

  lemma BeginsToSave()
    ensures Step(WithRow(Approved), Begin(5, 1, 9)) == WithRow(Consumed).(completions := map[9 := Completion(5, 1, 7, Saving)])
  {
  }

  lemma OneSelected(t: Tables, c: Selected)
    requires ReviewOf(t, c.id) == Success(c.review)
    ensures Accepts(t, [c]) && Ids([c]) == {c.id}
  {
    assert [c][0] in [c];
  }

  lemma IsReviewed(t: Tables)
    requires t.clients == map[1 := 0] && t.access == map[] && t.grants == map[]
    ensures ReviewOf(t, 1) == Success(OWNED)
  {
    OwnsNoAccess(t.access);
    OwnsNoGrants(t.grants);
  }

  lemma OwnsNoAccess(access: map<(Id, Id), int>)
    requires access == map[]
    ensures AccessOf(access, 1) == OWNED.access
  {
    assert AccessOf(access, 1).Keys == {};
  }

  lemma OwnsNoGrants(grants: Grants)
    requires grants == map[]
    ensures GrantsOf(grants, 1) == OWNED.grants
  {
    assert GrantsOf(grants, 1).Keys == {};
  }

  lemma StepOfAccepted(s: Authority, selection: seq<Selected>, t: Tables)
    requires Accepts(s.t, selection) && Deleted(s.t, Ids(selection), s.now) == t
    ensures Step(s, DeleteClients(selection)) == s.(t := t)
  {
  }

  lemma DeletesOnlyTheClient(t: Tables)
    requires t == WithRow(Consumed).t
    ensures Deleted(t, {1}, 0) == t.(clients := map[])
  {
    assert DenyRows(t.rows, t.grants, {1}) == t.rows;
    assert RevokeGrants(t.grants, {1}, 0) == map[];
    assert DropModels(t.provider, t.grants, {1}) == map[];
    assert DropAccess(t.access, {1}) == map[];
  }

  lemma IsDeleted(s: Authority)
    requires s == WithRow(Consumed).(completions := map[9 := Completion(5, 1, 7, Saving)])
    ensures Step(s, DeleteClients([Selected(1, OWNED)])) == s.(t := s.t.(clients := map[]))
  {
    IsReviewed(s.t);
    OneSelected(s.t, Selected(1, OWNED));
    DeletesOnlyTheClient(s.t);
    StepOfAccepted(s, [Selected(1, OWNED)], s.t.(clients := map[]));
  }

  lemma SaveLandsAfterwards(s: Authority)
    requires s.completions == map[9 := Completion(5, 1, 7, Saving)] && s.t.clients == map[]
    ensures var n := Step(s, Saves(9));
      && n.t.provider == s.t.provider[GrantKey(9) := Model(None, Some(1), None)] && n.t.clients == map[]
      && n.completions == map[9 := Completion(5, 1, 7, Saved)] && HoldsOrphan(n, 9)
  {
  }

  lemma RunTwo(s: Authority, a: Event, b: Event)
    ensures Run(s, [a, b]) == Step(Step(s, a), b)
  {
    assert [a, b][1..] == [b] && [b][1..] == [];
    assert Run(s, [a, b]) == Run(Step(s, a), [b]);
    assert Run(Step(s, a), [b]) == Run(Step(Step(s, a), b), []);
  }

  /** Seven events from the start of the store leave the row, and nobody will remove it. */
  lemma CrashLeavesAnOrphan()
    ensures var s := Run(START, CONSENTS + DELETES + CRASHES);
      && GrantKey(9) in s.t.provider && s.t.provider[GrantKey(9)].client == Some(1)
      && 1 !in s.t.clients && s.completions == map[] && !Covered(s)
  {
    var s4 := WithRow(Consumed).(completions := map[9 := Completion(5, 1, 7, Saving)]);
    var s5 := s4.(t := s4.t.(clients := map[]));
    OpensAndApproves();
    BeginsToSave();
    IsDeleted(s4);
    RunThree(START, Register(1, 0), Open(5, 1, 7), ApproveConsent(5));
    RunTwo(WithRow(Approved), Begin(5, 1, 9), DeleteClients([Selected(1, OWNED)]));
    RunAppend(START, CONSENTS, DELETES);
    RunAppend(START, CONSENTS + DELETES, CRASHES);
    LeftBehind(s5);
  }

  lemma LeftBehind(s: Authority)
    requires s.completions == map[9 := Completion(5, 1, 7, Saving)] && s.t.clients == map[]
    ensures var n := Run(s, CRASHES);
      && GrantKey(9) in n.t.provider && n.t.provider[GrantKey(9)].client == Some(1)
      && 1 !in n.t.clients && n.completions == map[] && !Covered(n)
  {
    SaveLandsAfterwards(s);
    RunTwo(s, Saves(9), Crash);
    var n := Run(s, CRASHES);
    assert GrantKey(9) in n.t.provider && GrantKey(9).id !in n.completions;
  }

  // --------------------------------------------------------------------- deletion

  /** A client leaves nothing that grants or could come to grant access. */
  predicate NoTrace(t: Tables, client: Id) {
    && client !in t.clients
    && (forall g :: g in t.grants && t.grants[g].client == client ==> t.grants[g].revoked.Some?)
    && (forall k :: k in t.access ==> k.1 != client)
    && (forall id :: id in t.rows && t.rows[id].purpose.Consent? && t.rows[id].purpose.client == client ==> IsDone(t.rows[id]))
  }

  /** A deletion is all or nothing: it does everything for every selected client, or it
      changes nothing. */
  lemma DeletionIsAllOrNothing(t: Tables, selection: seq<Selected>, now: Time)
    ensures !Accepts(t, selection) ==> DeleteReviewed(t, selection, now) == t
    ensures Accepts(t, selection) ==> forall c :: c in selection ==>
              var d := DeleteReviewed(t, selection, now);
              && NoTrace(d, c.id)
              && (forall k :: k in d.provider ==> !BelongsTo(k, d.provider[k], t.grants, {c.id}))
              && (forall id :: id in d.rows && ActsFor(d.rows[id], t.grants, {c.id}) ==> IsDone(d.rows[id]))
  {
    if Accepts(t, selection) {
      forall c | c in selection
        ensures var d := DeleteReviewed(t, selection, now);
          && NoTrace(d, c.id)
          && (forall k :: k in d.provider ==> !BelongsTo(k, d.provider[k], t.grants, {c.id}))
          && (forall id :: id in d.rows && ActsFor(d.rows[id], t.grants, {c.id}) ==> IsDone(d.rows[id]))
      {
        assert c.id in Ids(selection);
        DeletionLeavesNoTrace(t, Ids(selection), now, c.id);
      }
    }
  }

  lemma DeletionLeavesNoTrace(t: Tables, clients: set<Id>, now: Time, c: Id)
    requires c in clients
    ensures var d := Deleted(t, clients, now);
      && NoTrace(d, c)
      && (forall k :: k in d.provider ==> !BelongsTo(k, d.provider[k], t.grants, {c}))
      && (forall id :: id in d.rows && ActsFor(d.rows[id], t.grants, {c}) ==> IsDone(d.rows[id]))
  {
    var d := Deleted(t, clients, now);
    forall id | id in d.rows && ActsFor(d.rows[id], t.grants, {c}) ensures IsDone(d.rows[id]) {
      assert ActsFor(t.rows[id], t.grants, clients);
    }
    forall id | id in d.rows && d.rows[id].purpose.Consent? && d.rows[id].purpose.client == c ensures IsDone(d.rows[id]) {
      assert ActsFor(d.rows[id], t.grants, {c});
    }
    forall k | k in d.provider ensures !BelongsTo(k, d.provider[k], t.grants, {c}) {
      assert !BelongsTo(k, t.provider[k], t.grants, clients);
    }
  }

  /** Rows of other clients stay as they are, and no grant or approval row disappears. */
  lemma OthersAreUntouched(t: Tables, selection: seq<Selected>, now: Time, other: Id)
    requires other !in Ids(selection)
    ensures var d := DeleteReviewed(t, selection, now);
      && ReviewOf(d, other) == ReviewOf(t, other)
      && d.policies == t.policies && d.grants.Keys == t.grants.Keys && d.rows.Keys == t.rows.Keys
      && (forall g :: g in t.grants && t.grants[g].client == other ==> d.grants[g] == t.grants[g])
      && (forall id :: id in t.rows && !ActsFor(t.rows[id], t.grants, Ids(selection)) ==> d.rows[id] == t.rows[id])
      && (forall k :: k in t.provider && !BelongsTo(k, t.provider[k], t.grants, Ids(selection)) ==>
            k in d.provider && d.provider[k] == t.provider[k])
  {
    if Accepts(t, selection) {
      var clients := Ids(selection);
      AccessOfOthers(t.access, clients, other);
      GrantsOfOthers(t.grants, clients, now, other);
    }
  }

  lemma AccessOfOthers(access: map<(Id, Id), int>, clients: set<Id>, other: Id)
    requires other !in clients
    ensures AccessOf(DropAccess(access, clients), other) == AccessOf(access, other)
  {
  }

  lemma GrantsOfOthers(grants: Grants, clients: set<Id>, now: Time, other: Id)
    requires other !in clients
    ensures GrantsOf(RevokeGrants(grants, clients, now), other) == GrantsOf(grants, other)
  {
    var next := RevokeGrants(grants, clients, now);
    assert next.Keys == grants.Keys;
    assert forall g | g in grants :: next[g].client == grants[g].client;
  }

  /** Exactly what the owner reviewed goes: the access rows, and the unrevoked grants. */
  lemma WhatGoesWasReviewed(t: Tables, selection: seq<Selected>, now: Time, c: Selected)
    requires Accepts(t, selection) && c in selection
    ensures var d := DeleteReviewed(t, selection, now);
      && (forall w :: (w, c.id) in t.access && (w, c.id) !in d.access <==> w in c.review.access)
      && (forall g :: g in t.grants && g in d.grants && d.grants[g] != t.grants[g] && t.grants[g].client == c.id
            <==> g in c.review.grants && c.review.grants[g].None?)
  {
    assert c.id in Ids(selection);
    var d := DeleteReviewed(t, selection, now);
    assert c.review.access == AccessOf(t.access, c.id);
    forall w ensures (w, c.id) in t.access && (w, c.id) !in d.access <==> w in c.review.access {
      if (w, c.id) in t.access {
        assert (w, c.id).0 in AccessOf(t.access, c.id);
      }
    }
  }

  /** Only a registration can bring a client back that left no trace. */
  lemma StepKeepsNoTrace(s: Authority, e: Event, client: Id)
    requires NoTrace(s.t, client) && OneEach(s.t.grants, s.completions)
    requires !(e.Register? && e.client == client)
    ensures NoTrace(Step(s, e).t, client)
  {
    StepEvolves(s, e);
    NoTraceInGrants(s, e, client);
    var rows := RowsAfter(s, e);
    forall id | id in rows && rows[id].purpose.Consent? && rows[id].purpose.client == client ensures IsDone(rows[id]) {
      if id !in s.t.rows {
        NewRowsAreCurrent(s, e, id);
      }
    }
  }

  lemma NoTraceInGrants(s: Authority, e: Event, client: Id)
    requires NoTrace(s.t, client) && OneEach(s.t.grants, s.completions)
    requires !(e.Register? && e.client == client)
    ensures client !in ClientsAfter(s, e)
    ensures forall g :: g in GrantsAfter(s, e) && GrantsAfter(s, e)[g].client == client ==> GrantsAfter(s, e)[g].revoked.Some?
    ensures forall k :: k in AccessAfter(s, e) ==> k.1 != client
  {
    if e.DeleteClients? {
      DeletedGrants(s.t, e.selection, s.now);
    }
  }

  /** A deleted client stays without access, also when consents of it were under way. */
  lemma {:induction false} DeletedStaysDeleted(s: Authority, es: seq<Event>, client: Id)
    requires NoTrace(s.t, client) && Inv(s)
    requires forall i :: 0 <= i < |es| ==> !(es[i].Register? && es[i].client == client)
    ensures NoTrace(Run(s, es).t, client)
    decreases |es|
  {
    if es != [] {
      StepKeepsNoTrace(s, es[0], client);
      StepKeepsInv(s, es[0]);
      DeletedStaysDeleted(Step(s, es[0]), es[1..], client);
    }
  }

  lemma DeletionIsFinal(before: seq<Event>, selection: seq<Selected>, later: seq<Event>, c: Selected)
    requires Accepts(Run(START, before).t, selection) && c in selection
    requires forall i :: 0 <= i < |later| ==> !(later[i].Register? && later[i].client == c.id)
    ensures NoTrace(Run(Step(Run(START, before), DeleteClients(selection)), later).t, c.id)
  {
    var s := Run(START, before);
    RunKeepsInv(START, before);
    StepKeepsInv(s, DeleteClients(selection));
    DeletionStep(s, selection, c);
    DeletedStaysDeleted(Step(s, DeleteClients(selection)), later, c.id);
  }

  lemma DeletionStep(s: Authority, selection: seq<Selected>, c: Selected)
    requires Accepts(s.t, selection) && c in selection
    ensures NoTrace(Step(s, DeleteClients(selection)).t, c.id)
  {
    assert c.id in Ids(selection);
    DeletionLeavesNoTrace(s.t, Ids(selection), s.now, c.id);
  }

  // ------------------------------------------------------------ bounded requests

  lemma StepKeepsConsentsBounded(s: Authority, e: Event)
    requires |PendingConsents(s.t.rows, s.now)| <= MAX_PENDING_OAUTH
    ensures |PendingConsents(RowsAfter(s, e), Step(s, e).now)| <= MAX_PENDING_OAUTH
  {
    StepEvolves(s, e);
    var was, next := PendingConsents(s.t.rows, s.now), PendingConsents(RowsAfter(s, e), Step(s, e).now);
    if e.Open? && RowsAfter(s, e) != s.t.rows {
      SubsetSize(next, was + {e.uid});
    } else {
      forall id | id in next ensures id in was {
        if id !in s.t.rows {
          NewRowsAreCurrent(s, e, id);
        }
      }
      SubsetSize(next, was);
    }
  }

  /** No run ever has more than twenty consents waiting at once. */
  lemma {:induction false} ConsentsAreBounded(s: Authority, es: seq<Event>)
    requires |PendingConsents(s.t.rows, s.now)| <= MAX_PENDING_OAUTH
    ensures |PendingConsents(Run(s, es).t.rows, Run(s, es).now)| <= MAX_PENDING_OAUTH
    decreases |es|
  {
    if es != [] {
      StepKeepsConsentsBounded(s, es[0]);
      ConsentsAreBounded(Step(s, es[0]), es[1..]);
    }
  }
}
