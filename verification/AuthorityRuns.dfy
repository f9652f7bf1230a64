/** All interleavings of gated tool calls, owner decisions, trust changes, consent
    handlers, revocations, client deletions and crashes over one store. An event is one
    section without an await; the clock only moves in `Tick`. */
module AuthorityRuns {
  import opened Wrappers
  import opened StoreTables
  import opened ApprovalGate
  import opened Interactions
  import opened ClientDeletion

  datatype Authority = Authority(now: Time, t: Tables, completions: Completions)

  datatype Event =
    | Tick(ms: nat)
    | TrustSet(workspace: Id)
    | ResetWorkspace(workspace: Id)
    | Gate(req: Request, newId: Id)
    | Approve(workspace: Id, id: Id)
    | ApproveConsent(id: Id)
    | Deny(id: Id)
    | Open(uid: Id, client: Id, scopes: int)
    | Begin(uid: Id, client: Id, grantId: Id)
    | Saves(grantId: Id) | Resumes(grantId: Id) | Destroys(grantId: Id)
    | Register(client: Id, payload: int)
    | SetAccess(workspace: Id, client: Id, scopes: int)
    | Revoke(grantId: Id)
    | DeleteClients(selection: seq<Selected>)
    | ProviderWrites(model: int, id: Id, m: Model)
    | ProviderDrops(k: ModelKey)
    | Crash

  const START := Authority(0, EMPTY, map[])

  /** The answer of the query; on every run it is determined (`TheQueryIsDetermined`). */
  ghost function Found(rows: Rows, key: Key, now: Time): (found: Option<Id>)
    ensures found.Some? ==> Answers(rows, key, now, found.value)
    ensures found.None? ==> forall id :: !Answers(rows, key, now, id)
  {
    if exists id :: Answers(rows, key, now, id) then
      var id :| Answers(rows, key, now, id);
      Some(id)
    else None
  }

  ghost function GateResult(s: Authority, req: Request, newId: Id): (Rows, Outcome) {
    var key := KeyOf(s.t.policies, req);
    Require(s.t.rows, key, req, Found(s.t.rows, key, s.now), s.now, newId)
  }

  predicate MayApprove(rows: Rows, workspace: Id, id: Id) {
    id in rows && rows[id].purpose.Action? && rows[id].purpose.key.workspace == workspace
  }

  /** The provider draws grant ids at random. */
  predicate IsFresh(s: Authority, grantId: Id) {
    grantId !in s.completions && grantId !in s.t.grants && GrantKey(grantId) !in s.t.provider
  }

  // An event acts on all tables at once; what it does to each is one of these functions.

  ghost function RowsAfter(s: Authority, e: Event): Rows {
    var rows := s.t.rows;
    match e
    case Gate(req, newId) => GateResult(s, req, newId).0
    case Approve(w, id) => if MayApprove(rows, w, id) then SetStatus(rows, id, Approved, s.now) else rows
    case ApproveConsent(id) => if id in rows && rows[id].purpose.Consent? then SetStatus(rows, id, Approved, s.now) else rows
    case Deny(id) => SetStatus(rows, id, Denied, s.now)
    case Open(uid, client, scopes) => OpenConsent(rows, s.t.clients, uid, client, scopes, s.now)
    case Begin(uid, client, g) =>
      if IsFresh(s, g) then BeginComplete(rows, s.t.clients, s.completions, uid, client, g, s.now).0 else rows
    case DeleteClients(selection) => DeleteReviewed(s.t, selection, s.now).rows
    case _ => rows
  }

  function PoliciesAfter(policies: map<Id, nat>, e: Event): map<Id, nat> {
    match e
    case TrustSet(w) => SetTrust(policies, w)
    case ResetWorkspace(w) => SetTrust(policies, w)
    case _ => policies
  }

  function ClientsAfter(s: Authority, e: Event): map<Id, int> {
    match e
    case Register(c, payload) => s.t.clients[c := payload]
    case DeleteClients(selection) => DeleteReviewed(s.t, selection, s.now).clients
    case _ => s.t.clients
  }

  function AccessAfter(s: Authority, e: Event): map<(Id, Id), int> {
    match e
    case ResetWorkspace(w) => map k | k in s.t.access && k.0 != w :: s.t.access[k]
    case SetAccess(w, c, scopes) => if c in s.t.clients then s.t.access[(w, c) := scopes] else s.t.access
    case DeleteClients(selection) => DeleteReviewed(s.t, selection, s.now).access
    case _ => s.t.access
  }

  function GrantsAfter(s: Authority, e: Event): Grants {
    match e
    case Resumes(g) => ResumeComplete(s.t.grants, s.t.clients, s.completions, g).0
    case Revoke(g) => RevokeGrant(s.t.grants, g, s.now)
    case DeleteClients(selection) => DeleteReviewed(s.t, selection, s.now).grants
    case _ => s.t.grants
  }

  function ProviderAfter(s: Authority, e: Event): map<ModelKey, Model> {
    match e
    case Saves(g) => SaveLands(s.t.provider, s.completions, g).0
    case Destroys(g) => DestroyLands(s.t.provider, s.completions, g).0
    case Revoke(g) => if g in s.t.grants && s.t.grants[g].revoked.None? then RevokeModels(s.t.provider, g) else s.t.provider
    case DeleteClients(selection) => DeleteReviewed(s.t, selection, s.now).provider
    case ProviderWrites(model, id, m) => s.t.provider[OtherKey(model, id) := m]
    case ProviderDrops(k) => s.t.provider - {k}
    case _ => s.t.provider
  }

  function CompletionsAfter(s: Authority, e: Event): Completions {
    match e
    case Begin(uid, client, g) =>
      if IsFresh(s, g) then BeginComplete(s.t.rows, s.t.clients, s.completions, uid, client, g, s.now).1 else s.completions
    case Saves(g) => SaveLands(s.t.provider, s.completions, g).1
    case Resumes(g) => ResumeComplete(s.t.grants, s.t.clients, s.completions, g).1
    case Destroys(g) => DestroyLands(s.t.provider, s.completions, g).1
    case Crash => map[]
    case _ => s.completions
  }

  ghost function Step(s: Authority, e: Event): Authority {
    Authority(
      s.now + (if e.Tick? then e.ms else 0),
      Tables(RowsAfter(s, e), PoliciesAfter(s.t.policies, e), ClientsAfter(s, e), AccessAfter(s, e), GrantsAfter(s, e), ProviderAfter(s, e)),
      CompletionsAfter(s, e))
  }

  ghost function Run(s: Authority, es: seq<Event>): Authority
    decreases |es|
  {
    if es == [] then s else Run(Step(s, es[0]), es[1..])
  }

  lemma {:induction false} RunAppend(s: Authority, es: seq<Event>, more: seq<Event>)
    ensures Run(s, es + more) == Run(Run(s, es), more)
    decreases |es|
  {
    if es == [] {
      assert es + more == more;
    } else {
      assert (es + more)[1..] == es[1..] + more;
      RunAppend(Step(s, es[0]), es[1..], more);
    }
  }

  // ------------------------------------------------------- how rows may change

  predicate RowEvolves(r: Row, next: Row, now: Time) {
    && next == r.(status := next.status)
    && (next.status == r.status || MaySet(r, next.status, now))
  }

  ghost predicate RowsEvolve(rows: Rows, next: Rows, now: Time) {
    && (forall id :: id in rows ==> id in next && RowEvolves(rows[id], next[id], now))
    && (forall id :: id in next && id !in rows ==> next[id].status == Pending)
  }

  lemma GateEvolves(rows: Rows, key: Key, req: Request, found: Option<Id>, now: Time, newId: Id)
    requires found.Some? ==> Answers(rows, key, now, found.value)
    ensures RowsEvolve(rows, Require(rows, key, req, found, now, newId).0, now)
  {
  }

  /** No event removes an approval, changes what it is for, or moves its status other than
      along the guarded updates. */
  lemma StepEvolves(s: Authority, e: Event)
    ensures RowsEvolve(s.t.rows, RowsAfter(s, e), s.now)
  {
    if e.Gate? {
      var key := KeyOf(s.t.policies, e.req);
      GateEvolves(s.t.rows, key, e.req, Found(s.t.rows, key, s.now), s.now, e.newId);
    }
  }
}
