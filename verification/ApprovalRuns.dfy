/** What holds of approvals over every run. */
module ApprovalRuns {
  import opened Wrappers
  import opened StoreTables
  import opened ApprovalGate
  import opened AuthorityRuns

  predicate IsDone(r: Row) {
    r.status == Denied || r.status == Consumed
  }

  /** Consumed and denied approvals never change again. */
  lemma {:induction false} DoneStaysDone(s: Authority, es: seq<Event>, id: Id)
    requires id in s.t.rows && IsDone(s.t.rows[id])
    ensures id in Run(s, es).t.rows && Run(s, es).t.rows[id] == s.t.rows[id]
    decreases |es|
  {
    if es != [] {
      StepEvolves(s, es[0]);
      DoneStaysDone(Step(s, es[0]), es[1..], id);
    }
  }

  /** A row keeps its purpose and its times. */
  lemma {:induction false} PurposeStays(s: Authority, es: seq<Event>, id: Id)
    requires id in s.t.rows
    ensures id in Run(s, es).t.rows
    ensures Run(s, es).t.rows[id] == s.t.rows[id].(status := Run(s, es).t.rows[id].status)
    decreases |es|
  {
    if es != [] {
      StepEvolves(s, es[0]);
      PurposeStays(Step(s, es[0]), es[1..], id);
    }
  }

  // ------------------------------------------------------------------ single use

  /** The event is a gated call that proceeds on this approval. */
  ghost predicate ProceedsOn(s: Authority, e: Event, id: Id) {
    e.Gate? && GateResult(s, e.req, e.newId).1 == Proceed(id)
  }

  ghost function Uses(s: Authority, es: seq<Event>, id: Id): nat
    decreases |es|
  {
    if es == [] then 0 else (if ProceedsOn(s, es[0], id) then 1 else 0) + Uses(Step(s, es[0]), es[1..], id)
  }

  /** What a call that proceeds found: an approval for exactly this call, in time. */
  lemma ProceedingConsumes(s: Authority, e: Event, id: Id)
    requires ProceedsOn(s, e, id)
    ensures id in s.t.rows && s.t.rows[id].purpose == Action(KeyOf(s.t.policies, e.req), e.req.epoch)
    ensures s.t.rows[id].status == Approved && s.t.rows[id].expires > s.now
    ensures RowsAfter(s, e) == s.t.rows[id := s.t.rows[id].(status := Consumed)]
  {
  }

  lemma {:induction false} DoneIsNotUsed(s: Authority, es: seq<Event>, id: Id)
    requires id in s.t.rows && IsDone(s.t.rows[id])
    ensures Uses(s, es, id) == 0
    decreases |es|
  {
    if es != [] {
      if ProceedsOn(s, es[0], id) {
        ProceedingConsumes(s, es[0], id);
      }
      StepEvolves(s, es[0]);
      DoneIsNotUsed(Step(s, es[0]), es[1..], id);
    }
  }

  /** On every run, at most one call proceeds on an approval. */
  lemma {:induction false} UsedAtMostOnce(s: Authority, es: seq<Event>, id: Id)
    ensures Uses(s, es, id) <= 1
    decreases |es|
  {
    if es != [] {
      if ProceedsOn(s, es[0], id) {
        ProceedingConsumes(s, es[0], id);
        DoneIsNotUsed(Step(s, es[0]), es[1..], id);
      } else {
        UsedAtMostOnce(Step(s, es[0]), es[1..], id);
      }
    }
  }

  // -------------------------------------------------------------- owner approval

  /** The owner approves, in time, a row that has this purpose. */
  predicate OwnerApproves(s: Authority, e: Event, id: Id, purpose: Purpose) {
    && Sets(s.t.rows, id, Approved, s.now)
    && s.t.rows[id].purpose == purpose
    && match e
       case Approve(w, i) => i == id && purpose.Action? && purpose.key.workspace == w
       case ApproveConsent(i) => i == id && purpose.Consent?
       case _ => false
  }

  ghost predicate OwnerApproved(s: Authority, es: seq<Event>, id: Id, purpose: Purpose)
    decreases |es|
  {
    es != [] && (OwnerApproves(s, es[0], id, purpose) || OwnerApproved(Step(s, es[0]), es[1..], id, purpose))
  }

  predicate WasApproved(r: Row) {
    r.status == Approved || r.status == Consumed
  }

  lemma OnlyTheOwnerApproves(s: Authority, e: Event, id: Id)
    requires id in s.t.rows ==> !WasApproved(s.t.rows[id])
    requires id in RowsAfter(s, e) && WasApproved(RowsAfter(s, e)[id])
    ensures OwnerApproves(s, e, id, RowsAfter(s, e)[id].purpose)
  {
    StepEvolves(s, e);
    if e.Gate? {
      var key := KeyOf(s.t.policies, e.req);
      GateApprovesNothing(s.t.rows, key, e.req, Found(s.t.rows, key, s.now), s.now, e.newId, id);
    }
  }

  lemma GateApprovesNothing(rows: Rows, key: Key, req: Request, found: Option<Id>, now: Time, newId: Id, id: Id)
    requires found.Some? ==> Answers(rows, key, now, found.value)
    requires id in rows ==> !WasApproved(rows[id])
    ensures var next := Require(rows, key, req, found, now, newId).0; id in next ==> !WasApproved(next[id])
  {
  }

  lemma {:induction false} ApprovedByTheOwner(s: Authority, es: seq<Event>, id: Id)
    requires id in s.t.rows ==> !WasApproved(s.t.rows[id])
    requires id in Run(s, es).t.rows && WasApproved(Run(s, es).t.rows[id])
    ensures OwnerApproved(s, es, id, Run(s, es).t.rows[id].purpose)
    decreases |es|
  {
    var next := Step(s, es[0]);
    if id in next.t.rows && WasApproved(next.t.rows[id]) {
      OnlyTheOwnerApproves(s, es[0], id);
      PurposeStays(next, es[1..], id);
    } else {
      ApprovedByTheOwner(next, es[1..], id);
    }
  }

  /** A call proceeds only on an approval that the owner gave in time, for the same
      workspace, epoch, principal, tool and action under the policy version of this moment;
      and no call before or after proceeds on it. */
  lemma ProceedingIsAuthorised(es: seq<Event>, e: Event, later: seq<Event>, id: Id)
    requires ProceedsOn(Run(START, es), e, id)
    ensures var s := Run(START, es);
            && s.now < s.t.rows[id].expires
            && OwnerApproved(START, es, id, Action(KeyOf(s.t.policies, e.req), e.req.epoch))
    ensures Uses(START, es, id) == 0 && Uses(Step(Run(START, es), e), later, id) == 0
  {
    var s := Run(START, es);
    ProceedingConsumes(s, e, id);
    ApprovedByTheOwner(START, es, id);
    NotUsedYet(START, es, id);
    DoneIsNotUsed(Step(s, e), later, id);
  }

  lemma {:induction false} NotUsedYet(s: Authority, es: seq<Event>, id: Id)
    requires id in Run(s, es).t.rows && Run(s, es).t.rows[id].status == Approved
    ensures Uses(s, es, id) == 0
    decreases |es|
  {
    if es != [] {
      if ProceedsOn(s, es[0], id) {
        ProceedingConsumes(s, es[0], id);
        DoneStaysDone(Step(s, es[0]), es[1..], id);
      }
      NotUsedYet(Step(s, es[0]), es[1..], id);
    }
  }

  // --------------------------------------------------------------- trust changes

  ghost predicate PolicyBound(rows: Rows, policies: map<Id, nat>) {
    forall id :: id in rows && rows[id].purpose.Action? ==>
      rows[id].purpose.key.digest.policy <= PolicyVersion(policies, rows[id].purpose.key.workspace)
  }

  lemma PoliciesGrow(policies: map<Id, nat>, e: Event, w: Id)
    ensures PolicyVersion(policies, w) <= PolicyVersion(PoliciesAfter(policies, e), w)
  {
  }

  /** A row that an event adds was asked for under the policy of that moment. */
  lemma NewRowsAreCurrent(s: Authority, e: Event, id: Id)
    requires id in RowsAfter(s, e) && id !in s.t.rows
    ensures var r := RowsAfter(s, e)[id];
            && r.created == s.now
            && (r.purpose.Action? ==> e.Gate? && r.purpose == Action(KeyOf(s.t.policies, e.req), e.req.epoch))
            && (r.purpose.Consent? ==> e.Open? && r.purpose.client in s.t.clients)
  {
  }

  lemma StepKeepsPolicyBound(s: Authority, e: Event)
    requires PolicyBound(s.t.rows, s.t.policies)
    ensures PolicyBound(RowsAfter(s, e), PoliciesAfter(s.t.policies, e))
  {
    StepEvolves(s, e);
    var rows := RowsAfter(s, e);
    forall id | id in rows && rows[id].purpose.Action?
      ensures rows[id].purpose.key.digest.policy <= PolicyVersion(PoliciesAfter(s.t.policies, e), rows[id].purpose.key.workspace)
    {
      PoliciesGrow(s.t.policies, e, rows[id].purpose.key.workspace);
      if id !in s.t.rows {
        NewRowsAreCurrent(s, e, id);
      }
    }
  }

  lemma {:induction false} RunKeepsPolicyBound(s: Authority, es: seq<Event>)
    requires PolicyBound(s.t.rows, s.t.policies)
    ensures PolicyBound(Run(s, es).t.rows, Run(s, es).t.policies)
    decreases |es|
  {
    if es != [] {
      StepKeepsPolicyBound(s, es[0]);
      RunKeepsPolicyBound(Step(s, es[0]), es[1..]);
    }
  }

  ghost predicate Outdated(rows: Rows, policies: map<Id, nat>, id: Id) {
    id in rows && rows[id].purpose.Action?
    && rows[id].purpose.key.digest.policy < PolicyVersion(policies, rows[id].purpose.key.workspace)
  }

  lemma {:induction false} OutdatedIsUnusable(s: Authority, es: seq<Event>, id: Id)
    requires Outdated(s.t.rows, s.t.policies, id)
    ensures Uses(s, es, id) == 0
    decreases |es|
  {
    if es != [] {
      if ProceedsOn(s, es[0], id) {
        ProceedingConsumes(s, es[0], id);
      }
      StepEvolves(s, es[0]);
      PoliciesGrow(s.t.policies, es[0], s.t.rows[id].purpose.key.workspace);
      OutdatedIsUnusable(Step(s, es[0]), es[1..], id);
    }
  }

  predicate ChangesTrust(e: Event, workspace: Id) {
    (e.TrustSet? && e.workspace == workspace) || (e.ResetWorkspace? && e.workspace == workspace)
  }

  /** After a trust change, no approval that the workspace had can be used by any call,
      whatever happens later: not even if the mode is changed back. */
  lemma TrustChangeVoidsApprovals(es: seq<Event>, change: Event, later: seq<Event>, id: Id)
    requires var rows := Run(START, es).t.rows;
             id in rows && rows[id].purpose.Action? && ChangesTrust(change, rows[id].purpose.key.workspace)
    ensures Uses(Step(Run(START, es), change), later, id) == 0
  {
    RunKeepsPolicyBound(START, es);
    OutdatedIsUnusable(Step(Run(START, es), change), later, id);
  }

  // ----------------------------------------------- one live row for every action

  ghost predicate UniqueLive(rows: Rows, now: Time) {
    forall a, b ::
      (a in rows && b in rows && rows[a].purpose.Action? && rows[b].purpose.Action?
       && rows[a].purpose.key == rows[b].purpose.key && IsLive(rows[a], now) && IsLive(rows[b], now)) ==> a == b
  }

  /** Rows that only evolve never come alive, and time revives none. */
  lemma EvolvingKeepsUnique(rows: Rows, next: Rows, now: Time, later: Time)
    requires UniqueLive(rows, now) && now <= later
    requires RowsEvolve(rows, next, now)
    requires forall id :: id in next && id !in rows ==> !next[id].purpose.Action?
    ensures UniqueLive(next, later)
  {
    forall id | id in next && next[id].purpose.Action? && IsLive(next[id], later)
      ensures id in rows && rows[id].purpose == next[id].purpose && IsLive(rows[id], now)
    {
    }
  }

  lemma AskKeepsUnique(rows: Rows, key: Key, req: Request, now: Time, newId: Id)
    requires UniqueLive(rows, now)
    requires forall id :: !Answers(rows, key, now, id)
    ensures UniqueLive(Ask(rows, key, req, now, newId).0, now)
  {
    forall id | id in rows && Matches(rows[id], key) && IsLive(rows[id], now) ensures false {
      assert Answers(rows, key, now, id);
    }
  }

  lemma GateKeepsUnique(rows: Rows, key: Key, req: Request, found: Option<Id>, now: Time, newId: Id)
    requires UniqueLive(rows, now)
    requires found.Some? ==> Answers(rows, key, now, found.value)
    requires found.None? ==> forall id :: !Answers(rows, key, now, id)
    ensures UniqueLive(Require(rows, key, req, found, now, newId).0, now)
  {
    if found.None? {
      AskKeepsUnique(rows, key, req, now, newId);
    } else {
      var id := found.value;
      var denied := SetStatus(rows, id, Denied, now);
      EvolvingKeepsUnique(rows, denied, now, now);
      EvolvingKeepsUnique(rows, SetStatus(rows, id, Consumed, now), now, now);
      forall other ensures !Answers(denied, key, now, other) {
        assert Answers(rows, key, now, id);
        if Answers(denied, key, now, other) {
          assert Answers(rows, key, now, other);
          assert false;
        }
      }
      AskKeepsUnique(denied, key, req, now, newId);
    }
  }

  lemma StepKeepsUnique(s: Authority, e: Event)
    requires UniqueLive(s.t.rows, s.now)
    ensures UniqueLive(RowsAfter(s, e), Step(s, e).now)
  {
    if e.Gate? {
      var key := KeyOf(s.t.policies, e.req);
      GateKeepsUnique(s.t.rows, key, e.req, Found(s.t.rows, key, s.now), s.now, e.newId);
    } else {
      StepEvolves(s, e);
      forall id | id in RowsAfter(s, e) && id !in s.t.rows ensures !RowsAfter(s, e)[id].purpose.Action? {
        NewRowsAreCurrent(s, e, id);
      }
      EvolvingKeepsUnique(s.t.rows, RowsAfter(s, e), s.now, Step(s, e).now);
    }
  }

  /** On every run, at most one row per action waits or is approved. */
  lemma {:induction false} OneLiveRowPerAction(s: Authority, es: seq<Event>)
    requires UniqueLive(s.t.rows, s.now)
    ensures UniqueLive(Run(s, es).t.rows, Run(s, es).now)
    decreases |es|
  {
    if es != [] {
      StepKeepsUnique(s, es[0]);
      OneLiveRowPerAction(Step(s, es[0]), es[1..]);
    }
  }

  /** So the order of the query never matters: its first live row is the only one. */
  lemma TheQueryIsDetermined(es: seq<Event>, key: Key, found: Option<Id>)
    requires var s := Run(START, es); IsFound(s.t.rows, key, s.now, found)
    ensures var s := Run(START, es); found == Found(s.t.rows, key, s.now)
  {
    var s := Run(START, es);
    OneLiveRowPerAction(START, es);
    FoundIsTheOne(s.t.rows, key, s.now, found);
  }

  lemma FoundIsTheOne(rows: Rows, key: Key, now: Time, found: Option<Id>)
    requires UniqueLive(rows, now) && IsFound(rows, key, now, found)
    ensures found == Found(rows, key, now)
  {
    var f := Found(rows, key, now);
    if f.Some? {
      assert Answers(rows, key, now, f.value);
      assert found.Some?;
      assert rows[f.value].purpose.key == rows[found.value].purpose.key;
    }
  }

  // ------------------------------------------------------------ expired approvals

  predicate IsStuck(s: Authority, id: Id, req: Request) {
    id in s.t.rows
    && s.t.rows[id].purpose == Action(KeyOf(s.t.policies, req), req.epoch)
    && s.t.rows[id].status == Approved && s.t.rows[id].expires <= s.now
  }

  /** The message of APPROVAL_EXPIRED asks the caller to request again. That can be in vain:
      a call fails with it exactly if the action has an approved row of this epoch whose
      time is over, and then it changes nothing. */
  lemma ExpiredExactlyWhenStuck(s: Authority, req: Request, newId: Id, id: Id)
    requires UniqueLive(s.t.rows, s.now)
    ensures GateResult(s, req, newId).1 == Expired(id) <==> IsStuck(s, id, req)
    ensures IsStuck(s, id, req) ==> RowsAfter(s, Gate(req, newId)) == s.t.rows
  {
    var key := KeyOf(s.t.policies, req);
    if IsStuck(s, id, req) {
      assert Answers(s.t.rows, key, s.now, id);
      var f := Found(s.t.rows, key, s.now);
      assert s.t.rows[f.value].purpose.key == s.t.rows[id].purpose.key;
    }
  }

  /** What frees a stuck action: a denial, a trust change, a call of another epoch, or the
      deletion of its client. */
  ghost predicate Frees(s: Authority, e: Event, id: Id, req: Request) {
    ChangesTrust(e, req.workspace) || (id in RowsAfter(s, e) && RowsAfter(s, e)[id].status == Denied)
  }

  ghost predicate NeverFreed(s: Authority, es: seq<Event>, id: Id, req: Request)
    decreases |es|
  {
    es == [] || (!Frees(s, es[0], id, req) && NeverFreed(Step(s, es[0]), es[1..], id, req))
  }

  lemma StuckStep(s: Authority, e: Event, id: Id, req: Request)
    requires IsStuck(s, id, req)
    ensures IsStuck(Step(s, e), id, req) <==> !Frees(s, e, id, req)
  {
    StepEvolves(s, e);
    PoliciesStep(s.t.policies, e, req.workspace);
  }

  lemma PoliciesStep(policies: map<Id, nat>, e: Event, w: Id)
    ensures PolicyVersion(PoliciesAfter(policies, e), w) == PolicyVersion(policies, w) + (if ChangesTrust(e, w) then 1 else 0)
  {
  }

  lemma {:induction false} NeverStuckAgain(s: Authority, es: seq<Event>, id: Id, req: Request)
    requires id in s.t.rows && (IsDone(s.t.rows[id])
             || (s.t.rows[id].purpose.Action? && s.t.rows[id].purpose.key.digest.policy < PolicyVersion(s.t.policies, req.workspace)))
    ensures !IsStuck(Run(s, es), id, req)
    decreases |es|
  {
    if es != [] {
      StepEvolves(s, es[0]);
      PoliciesStep(s.t.policies, es[0], req.workspace);
      NeverStuckAgain(Step(s, es[0]), es[1..], id, req);
    }
  }

  /** Every retry of the same call, at any later time, fails with APPROVAL_EXPIRED as long
      as none of the freeing events happens, and only that long. */
  lemma {:induction false} StuckUntilFreed(s: Authority, es: seq<Event>, id: Id, req: Request)
    requires IsStuck(s, id, req)
    ensures IsStuck(Run(s, es), id, req) <==> NeverFreed(s, es, id, req)
    decreases |es|
  {
    if es != [] {
      StuckStep(s, es[0], id, req);
      if Frees(s, es[0], id, req) {
        StepEvolves(s, es[0]);
        PoliciesStep(s.t.policies, es[0], req.workspace);
        NeverStuckAgain(Step(s, es[0]), es[1..], id, req);
      } else {
        StuckUntilFreed(Step(s, es[0]), es[1..], id, req);
      }
    }
  }

  lemma RetryFailsUntilFreed(before: seq<Event>, es: seq<Event>, id: Id, req: Request, newId: Id)
    requires IsStuck(Run(START, before), id, req)
    ensures GateResult(Run(START, before + es), req, newId).1 == Expired(id) <==> NeverFreed(Run(START, before), es, id, req)
  {
    OneLiveRowPerAction(START, before + es);
    RunAppend(START, before, es);
    StuckUntilFreed(Run(START, before), es, id, req);
    ExpiredExactlyWhenStuck(Run(START, before + es), req, newId, id);
  }

  // A run that gets there: the owner approves in time, and the caller comes back too late.

  function Asked(req: Request, status: Status, now: Time): Authority {
    Authority(now, EMPTY.(rows := map[1 := Row(Action(KeyOf(map[], req), req.epoch), 0, req.ttl, status)]), map[])
  }

  lemma AsksFirst(req: Request)
    ensures Step(START, Gate(req, 1)) == Asked(req, Pending, 0)
  {
    assert Found(START.t.rows, KeyOf(map[], req), 0) == None;
  }

  lemma ApprovesThenWaits(req: Request)
    requires req.ttl > 0
    ensures Step(Asked(req, Pending, 0), Approve(req.workspace, 1)) == Asked(req, Approved, 0)
    ensures Step(Asked(req, Approved, 0), Tick(req.ttl)) == Asked(req, Approved, req.ttl)
  {
  }

  lemma RunThree(s: Authority, a: Event, b: Event, c: Event)
    ensures Run(s, [a, b, c]) == Step(Step(Step(s, a), b), c)
  {
    assert [a, b, c][1..] == [b, c] && [b, c][1..] == [c] && [c][1..] == [];
    assert Run(s, [a, b, c]) == Run(Step(s, a), [b, c]);
    assert Run(Step(s, a), [b, c]) == Run(Step(Step(s, a), b), [c]);
    assert Run(Step(Step(s, a), b), [c]) == Run(Step(Step(Step(s, a), b), c), []);
  }

  /** Every request with a lifetime gets stuck like this, and its next call fails with
      APPROVAL_EXPIRED although the owner had approved it. */
  lemma LateCallersGetStuck(req: Request, newId: Id)
    requires req.ttl > 0
    ensures var es := [Gate(req, 1), Approve(req.workspace, 1), Tick(req.ttl)];
      && OwnerApproved(START, es, 1, Action(KeyOf(map[], req), req.epoch))
      && IsStuck(Run(START, es), 1, req)
      && GateResult(Run(START, es), req, newId).1 == Expired(1)
  {
    var es := [Gate(req, 1), Approve(req.workspace, 1), Tick(req.ttl)];
    AsksFirst(req);
    ApprovesThenWaits(req);
    RunThree(START, Gate(req, 1), Approve(req.workspace, 1), Tick(req.ttl));
    OneLiveRowPerAction(START, es);
    ExpiredExactlyWhenStuck(Run(START, es), req, newId, 1);
    ApprovedByTheOwner(START, es, 1);
  }
}
