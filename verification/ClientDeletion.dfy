/** Reviewed deletion of OAuth clients (src/auth/clientDeletion.ts). */
module ClientDeletion {
  import opened Wrappers
  import opened StoreTables

  const MAX_SELECTION := 100

  /** What `reviewHash` digests, with the digest taken to be ideal. */
  datatype Review = Review(id: Id, client: int, access: map<Id, int>, grants: map<Id, Option<Time>>)

  datatype Selected = Selected(id: Id, review: Review)

  function AccessOf(access: map<(Id, Id), int>, client: Id): map<Id, int> {
    map k | k in access && k.1 == client :: k.0 := access[k]
  }

  function GrantsOf(grants: Grants, client: Id): map<Id, Option<Time>> {
    map g | g in grants && grants[g].client == client :: grants[g].revoked
  }

  function ReviewOf(t: Tables, id: Id): Result<Review> {
    if id in t.clients then Success(Review(id, t.clients[id], AccessOf(t.access, id), GrantsOf(t.grants, id)))
    else Failure(NOT_FOUND)
  }

  predicate OwnsGrant(grants: Grants, clients: set<Id>, g: Id) {
    g in grants && grants[g].client in clients
  }

  /** The rows that the first statement denies. */
  predicate ActsFor(r: Row, grants: Grants, clients: set<Id>) {
    match r.purpose
    case Action(key, _) => OwnsGrant(grants, clients, key.principal)
    case Consent(client, _) => client in clients
  }

  predicate Names(client: Option<Id>, clients: set<Id>) {
    client.Some? && client.value in clients
  }

  /** The rows of `oauth_models` that the third statement deletes. */
  predicate BelongsTo(k: ModelKey, m: Model, grants: Grants, clients: set<Id>) {
    || (m.grantId.Some? && OwnsGrant(grants, clients, m.grantId.value))
    || (k.GrantKey? && OwnsGrant(grants, clients, k.id))
    || Names(m.client, clients)
    || Names(m.paramsClient, clients)
  }

  function DenyRow(r: Row): Row {
    if r.status == Pending || r.status == Approved then r.(status := Denied) else r
  }

  function DenyRows(rows: Rows, grants: Grants, clients: set<Id>): Rows {
    map id | id in rows :: if ActsFor(rows[id], grants, clients) then DenyRow(rows[id]) else rows[id]
  }

  function RevokeGrants(grants: Grants, clients: set<Id>, now: Time): Grants {
    map g | g in grants ::
      if grants[g].client in clients && grants[g].revoked.None? then grants[g].(revoked := Some(now)) else grants[g]
  }

  function DropModels(provider: map<ModelKey, Model>, grants: Grants, clients: set<Id>): map<ModelKey, Model> {
    map k | k in provider && !BelongsTo(k, provider[k], grants, clients) :: provider[k]
  }

  function DropAccess(access: map<(Id, Id), int>, clients: set<Id>): map<(Id, Id), int> {
    map k | k in access && k.1 !in clients :: access[k]
  }

  /** The effect of deleting a set of clients at once. */
  function Deleted(t: Tables, clients: set<Id>, now: Time): Tables {
    t.(rows := DenyRows(t.rows, t.grants, clients),
       grants := RevokeGrants(t.grants, clients, now),
       provider := DropModels(t.provider, t.grants, clients),
       access := DropAccess(t.access, clients),
       clients := t.clients - clients)
  }

  function Ids(selection: seq<Selected>): set<Id> {
    set c | c in selection :: c.id
  }

  predicate Distinct(selection: seq<Selected>) {
    forall i, j :: 0 <= i < j < |selection| ==> selection[i].id != selection[j].id
  }

  predicate Reviewed(t: Tables, selection: seq<Selected>) {
    forall c :: c in selection ==> ReviewOf(t, c.id) == Success(c.review)
  }

  predicate Accepts(t: Tables, selection: seq<Selected>) {
    1 <= |selection| <= MAX_SELECTION && Distinct(selection) && Reviewed(t, selection)
  }

  function DeleteReviewed(t: Tables, selection: seq<Selected>, now: Time): Tables {
    if Accepts(t, selection) then Deleted(t, Ids(selection), now) else t
  }

  // ------------------------------------------------ one client after the other

  lemma DenyTwice(rows: Rows, grants: Grants, a: set<Id>, b: set<Id>, now: Time)
    ensures DenyRows(DenyRows(rows, grants, a), RevokeGrants(grants, a, now), b) == DenyRows(rows, grants, a + b)
  {
    var rg := RevokeGrants(grants, a, now);
    forall id | id in rows
      ensures DenyRows(DenyRows(rows, grants, a), rg, b)[id] == DenyRows(rows, grants, a + b)[id]
    {
      assert ActsFor(rows[id], grants, a + b) <==> ActsFor(rows[id], grants, a) || ActsFor(rows[id], rg, b);
      assert ActsFor(DenyRow(rows[id]), rg, b) <==> ActsFor(rows[id], rg, b);
    }
  }

  lemma RevokeTwice(grants: Grants, a: set<Id>, b: set<Id>, now: Time)
    ensures RevokeGrants(RevokeGrants(grants, a, now), b, now) == RevokeGrants(grants, a + b, now)
  {
  }

  lemma DropTwice(provider: map<ModelKey, Model>, grants: Grants, a: set<Id>, b: set<Id>, now: Time)
    ensures DropModels(DropModels(provider, grants, a), RevokeGrants(grants, a, now), b) == DropModels(provider, grants, a + b)
  {
    var rg := RevokeGrants(grants, a, now);
    forall k | k in provider
      ensures BelongsTo(k, provider[k], grants, a + b) <==> BelongsTo(k, provider[k], grants, a) || BelongsTo(k, provider[k], rg, b)
    {
    }
  }

  /** Deleting clients one after the other is deleting the set: no statement sees a
      difference that an earlier client's deletion made. */
  lemma DeletionsCompose(t: Tables, a: set<Id>, b: set<Id>, now: Time)
    ensures Deleted(Deleted(t, a, now), b, now) == Deleted(t, a + b, now)
  {
    DenyTwice(t.rows, t.grants, a, b, now);
    RevokeTwice(t.grants, a, b, now);
    DropTwice(t.provider, t.grants, a, b, now);
    assert DropAccess(DropAccess(t.access, a), b) == DropAccess(t.access, a + b);
    assert t.clients - a - b == t.clients - (a + b);
  }

  lemma DeletingNothing(t: Tables, now: Time)
    ensures Deleted(t, {}, now) == t
  {
    assert forall id | id in t.rows :: !ActsFor(t.rows[id], t.grants, {});
    assert DenyRows(t.rows, t.grants, {}) == t.rows;
    assert RevokeGrants(t.grants, {}, now) == t.grants;
    assert DropModels(t.provider, t.grants, {}) == t.provider;
    assert DropAccess(t.access, {}) == t.access;
    assert t.clients - {} == t.clients;
  }

  lemma IdsStep(selection: seq<Selected>, i: nat)
    requires i < |selection|
    ensures Ids(selection[..i + 1]) == Ids(selection[..i]) + {selection[i].id}
  {
    assert selection[..i + 1] == selection[..i] + [selection[i]];
  }

  method DeleteOne(store: Store, id: Id, now: Time)
    modifies store`rows, store`grants, store`provider, store`access, store`clients
    ensures store.Contents() == Deleted(old(store.Contents()), {id}, now)
  {
    DropModelsAfterRevoke(store.provider, store.grants, {id}, now);
    store.rows := DenyRows(store.rows, store.grants, {id});
    store.grants := RevokeGrants(store.grants, {id}, now);
    store.provider := DropModels(store.provider, store.grants, {id});
    store.access := DropAccess(store.access, {id});
    store.clients := store.clients - {id};
  }

  /** The third statement reads the grants after the second has written them. */
  lemma DropModelsAfterRevoke(provider: map<ModelKey, Model>, grants: Grants, clients: set<Id>, now: Time)
    ensures DropModels(provider, RevokeGrants(grants, clients, now), clients) == DropModels(provider, grants, clients)
  {
    var rg := RevokeGrants(grants, clients, now);
    forall k | k in provider
      ensures BelongsTo(k, provider[k], rg, clients) <==> BelongsTo(k, provider[k], grants, clients)
    {
    }
  }

  /** The transaction: every selected client is reviewed again before any row changes. */
  method DeleteReviewedClients(store: Store, selection: seq<Selected>, now: Time) returns (deleted: Result<()>)
    requires 1 <= |selection| <= MAX_SELECTION
    modifies store`rows, store`grants, store`provider, store`access, store`clients
    ensures store.Contents() == DeleteReviewed(old(store.Contents()), selection, now)
    ensures deleted.Success? <==> Accepts(old(store.Contents()), selection)
    ensures deleted == Failure(INVALID_INPUT) <==> !Distinct(selection)
  {
    if !Distinct(selection) {
      return Failure(INVALID_INPUT);
    }
    ghost var t := store.Contents();
    for i := 0 to |selection|
      invariant forall c :: c in selection[..i] ==> ReviewOf(t, c.id) == Success(c.review)
    {
      var c := selection[i];
      if c.id !in store.clients {
        assert ReviewOf(t, c.id) != Success(c.review);
        return Failure(NOT_FOUND);
      }
      if Review(c.id, store.clients[c.id], AccessOf(store.access, c.id), GrantsOf(store.grants, c.id)) != c.review {
        assert ReviewOf(t, c.id) != Success(c.review);
        return Failure(CONFLICT);
      }
    }
    assert selection[..|selection|] == selection;
    DeletingNothing(t, now);
    assert Ids(selection[..0]) == {};
    for i := 0 to |selection|
      invariant store.Contents() == Deleted(t, Ids(selection[..i]), now)
    {
      DeletionsCompose(t, Ids(selection[..i]), {selection[i].id}, now);
      IdsStep(selection, i);
      DeleteOne(store, selection[i].id, now);
    }
    deleted := Success(());
  }
}
