/** What the mutation queue keeps over every run: who holds it, how its references are
    counted, in which order waiters are served, and when it really excludes. */
module MutationQueueRuns {
  import opened Wrappers
  import opened MutationQueues

  datatype Event =
    | Enter(context: Option<nat>, aborted: bool)
    | Abort(waiter: nat)
    | Finish(ticket: nat)
    | EndNested(ticket: nat)
    | RetainJob(context: Option<nat>)
    | ReleaseJob(job: nat)

  function Step(q: Queue, e: Event): Queue {
    match e
    case Enter(context, aborted) => q.Enter(context, aborted).0
    case Abort(waiter) => q.Abort(waiter)
    case Finish(ticket) => q.Finish(ticket)
    case EndNested(ticket) => q.EndNested(ticket)
    case RetainJob(context) => q.RetainJob(context).0
    case ReleaseJob(job) => q.ReleaseJob(job)
  }

  function Run(q: Queue, events: seq<Event>): Queue
    decreases |events|
  {
    if events == [] then q else Run(Step(q, events[0]), events[1..])
  }

  function JobsOn(jobs: map<nat, nat>, t: nat): set<nat> {
    set j | j in jobs && jobs[j] == t
  }

  /** One reference for the unfinished run, one for each unreleased job. */
  ghost predicate RefsCounted(q: Queue) {
    && (forall t: nat :: q.Has(t) ==> q.tickets[t].refs == (if q.tickets[t].body then 1 else 0) + |JobsOn(q.jobs, t)|)
    && (forall j :: j in q.jobs ==> j < q.retained && q.Has(q.jobs[j]))
  }

  /** A ticket has references exactly while it is the active one; open means unfinished. */
  ghost predicate OneHolder(q: Queue) {
    && (q.active.Some? ==> q.Has(q.active.value))
    && (forall t: nat :: q.Has(t) ==> (q.tickets[t].refs > 0 <==> q.active == Some(t)))
    && (forall t: nat :: q.Has(t) ==> (q.tickets[t].open <==> q.tickets[t].body))
    && (q.active.None? ==> q.waiters == [])
    && |q.waiters| <= MAX_WAITERS
  }

  ghost predicate Increasing(s: seq<nat>) {
    forall i, j :: 0 <= i < j < |s| ==> s[i] < s[j]
  }

  /** Every arrival was granted, still waits or was rejected, never two of these, and
      both the grants and the waiters behind them are in arrival order. */
  ghost predicate ServedInOrder(q: Queue) {
    && Increasing(q.granted) && Increasing(q.waiters)
    && (forall i, j :: 0 <= i < |q.granted| && 0 <= j < |q.waiters| ==> q.granted[i] < q.waiters[j])
    && (forall w: nat :: w < q.arrived <==> w in q.granted || w in q.waiters || w in q.rejected)
    && (forall w: nat :: w in q.rejected ==> w !in q.granted && w !in q.waiters)
  }

  ghost predicate Inv(q: Queue) {
    RefsCounted(q) && OneHolder(q) && ServedInOrder(q)
  }

  // ----------------------------------------------------------------- the proof

  lemma HeadAndTail(s: seq<nat>)
    requires Increasing(s) && s != []
    ensures Increasing(s[1..])
    ensures forall y :: y in s <==> y == s[0] || y in s[1..]
    ensures forall y :: y in s[1..] ==> s[0] < y
  {
    assert s == [s[0]] + s[1..];
  }

  lemma Prepended(x: nat, s: seq<nat>)
    requires Increasing(s) && forall y :: y in s ==> x < y
    ensures Increasing([x] + s)
  {
    forall i, j | 0 <= i < j <= |s| ensures ([x] + s)[i] < ([x] + s)[j] {
      assert s[j - 1] in s;
    }
  }

  lemma {:induction false} WithoutKeepsOrder(s: seq<nat>, x: nat)
    requires Increasing(s)
    ensures Increasing(Without(s, x))
    ensures forall y :: y in Without(s, x) <==> y in s && y != x
  {
    if s != [] {
      HeadAndTail(s);
      if s[0] != x {
        WithoutKeepsOrder(s[1..], x);
        Prepended(s[0], Without(s[1..], x));
      }
    }
  }

  lemma AbortKeepsOrder(q: Queue, w: nat)
    requires ServedInOrder(q) && w in q.waiters
    ensures ServedInOrder(q.Abort(w))
  {
    WithoutKeepsOrder(q.waiters, w);
    var q' := q.Abort(w);
    forall i, j | 0 <= i < |q'.granted| && 0 <= j < |q'.waiters|
      ensures q'.granted[i] < q'.waiters[j]
    {
      assert q'.waiters[j] in q.waiters;
    }
  }

  lemma JobsWithOneMore(jobs: map<nat, nat>, j: nat, t: nat, u: nat)
    requires j !in jobs
    ensures |JobsOn(jobs[j := t], u)| == |JobsOn(jobs, u)| + (if u == t then 1 else 0)
  {
    if u == t {
      assert JobsOn(jobs[j := t], u) == JobsOn(jobs, u) + {j};
    } else {
      assert JobsOn(jobs[j := t], u) == JobsOn(jobs, u);
    }
  }

  lemma JobsWithOneLess(jobs: map<nat, nat>, j: nat, u: nat)
    requires j in jobs
    ensures |JobsOn(jobs, u)| == |JobsOn(jobs - {j}, u)| + (if u == jobs[j] then 1 else 0)
  {
    if u == jobs[j] {
      assert JobsOn(jobs, u) == JobsOn(jobs - {j}, u) + {j};
    } else {
      assert JobsOn(jobs, u) == JobsOn(jobs - {j}, u);
    }
  }

  /** What `Release` needs: the reference it drops is the one too many. */
  ghost predicate OneTooMany(q: Queue, t: nat) {
    && q.Has(t)
    && (forall u: nat :: q.Has(u) ==>
          q.tickets[u].refs == (if q.tickets[u].body then 1 else 0) + |JobsOn(q.jobs, u)| + (if u == t then 1 else 0))
    && (forall j :: j in q.jobs ==> j < q.retained && q.Has(q.jobs[j]))
  }

  lemma NoJobsOnNewTicket(q: Queue)
    requires forall j :: j in q.jobs ==> q.Has(q.jobs[j])
    ensures |JobsOn(q.jobs, |q.tickets|)| == 0
  {
    assert JobsOn(q.jobs, |q.tickets|) == {};
  }

  lemma GrantKeepsOrder(q: Queue)
    requires ServedInOrder(q) && q.waiters != []
    ensures ServedInOrder(q.(waiters := q.waiters[1..], granted := q.granted + [q.waiters[0]]))
  {
    assert q.waiters == [q.waiters[0]] + q.waiters[1..];
  }

  lemma ArrivalKeepsOrder(q: Queue)
    requires ServedInOrder(q)
    ensures ServedInOrder(q.(waiters := q.waiters + [q.arrived], arrived := q.arrived + 1))
  {
    assert forall k :: 0 <= k < |q.waiters| ==> q.waiters[k] in q.waiters;
    assert forall k :: 0 <= k < |q.granted| ==> q.granted[k] in q.granted;
  }

  lemma ReleaseKeeps(q: Queue, t: nat)
    requires OneTooMany(q, t) && OneHolder(q) && ServedInOrder(q)
    ensures Inv(q.Release(t))
  {
    NoJobsOnNewTicket(q);
    if q.waiters != [] {
      GrantKeepsOrder(q);
    }
  }

  lemma FinishKeeps(q: Queue, t: nat)
    requires Inv(q)
    ensures Inv(q.Finish(t))
  {
    if q.Has(t) && q.tickets[t].body {
      ReleaseKeeps(q.(tickets := q.tickets[t := q.tickets[t].(open := false, body := false)]), t);
    }
  }

  lemma ReleaseJobKeeps(q: Queue, j: nat)
    requires Inv(q)
    ensures Inv(q.ReleaseJob(j))
  {
    if j in q.jobs {
      forall u: nat
        ensures |JobsOn(q.jobs, u)| == |JobsOn(q.jobs - {j}, u)| + (if u == q.jobs[j] then 1 else 0)
      {
        JobsWithOneLess(q.jobs, j, u);
      }
      ReleaseKeeps(q.(jobs := q.jobs - {j}), q.jobs[j]);
    }
  }

  lemma RetainKeeps(q: Queue, context: Option<nat>)
    requires Inv(q)
    ensures Inv(q.RetainJob(context).0)
  {
    NoJobsOnNewTicket(q);
    var t := if q.Holds(context) then context.value else |q.tickets|;
    forall u: nat
      ensures |JobsOn(q.jobs[q.retained := t], u)| == |JobsOn(q.jobs, u)| + (if u == t then 1 else 0)
    {
      JobsWithOneMore(q.jobs, q.retained, t, u);
    }
  }

  lemma EnterKeeps(q: Queue, context: Option<nat>, aborted: bool)
    requires Inv(q)
    ensures Inv(q.Enter(context, aborted).0)
  {
    NoJobsOnNewTicket(q);
    ArrivalKeepsOrder(q);
  }

  lemma StepKeepsInv(q: Queue, e: Event)
    requires Inv(q)
    ensures Inv(Step(q, e))
  {
    match e
    case Enter(context, aborted) => EnterKeeps(q, context, aborted);
    case Abort(waiter) => if waiter in q.waiters { AbortKeepsOrder(q, waiter); }
    case Finish(ticket) => FinishKeeps(q, ticket);
    case EndNested(ticket) =>
    case RetainJob(context) => RetainKeeps(q, context);
    case ReleaseJob(job) => ReleaseJobKeeps(q, job);
  }

  lemma {:induction false} RunKeepsInv(q: Queue, events: seq<Event>)
    requires Inv(q)
    ensures Inv(Run(q, events))
    decreases |events|
  {
    if events != [] {
      StepKeepsInv(q, events[0]);
      RunKeepsInv(Step(q, events[0]), events[1..]);
    }
  }

  lemma AlwaysInv(events: seq<Event>)
    ensures Inv(Run(EMPTY, events))
  {
    RunKeepsInv(EMPTY, events);
  }

  // --------------------------------------------------------------- the theorems

  /** In every reachable state at most one ticket has references, it is the active one, and
      they are one for its unfinished run plus one for each of its unreleased jobs; no count
      is negative, and an open ticket is the active ticket. */
  lemma OneTicketHolds(events: seq<Event>)
    ensures var q := Run(EMPTY, events);
            && (forall t: nat :: q.Has(t) ==>
                  && q.tickets[t].refs == (if q.tickets[t].body then 1 else 0) + |JobsOn(q.jobs, t)|
                  && (q.tickets[t].refs > 0 <==> q.active == Some(t))
                  && (q.tickets[t].open ==> q.active == Some(t)))
            && (forall t: nat, u: nat :: q.Has(t) && q.Has(u) && q.tickets[t].refs != 0 && q.tickets[u].refs != 0 ==> t == u)
  {
    AlwaysInv(events);
  }

  /** Waiters exist only behind a holder, never more than 32 of them; whoever arrived was
      granted, waits or was rejected, and exactly one of these; grants follow arrival. */
  lemma WaitersAreServedInOrder(events: seq<Event>)
    ensures var q := Run(EMPTY, events);
            && (q.active.None? ==> q.waiters == [])
            && |q.waiters| <= MAX_WAITERS
            && ServedInOrder(q)
  {
    AlwaysInv(events);
  }

  /** The step that takes the last reference of the holder hands the queue to the oldest
      waiter in the same step, and leaves it free only when nobody waits. */
  lemma TheLastReferenceGrantsTheNext(events: seq<Event>, e: Event)
    ensures var q := Run(EMPTY, events);
            var q' := Step(q, e);
            q.active.Some? && q'.active != q.active ==>
              && q'.Has(q.active.value) && q'.tickets[q.active.value].refs == 0
              && (if q.waiters == [] then q'.active.None? && q'.granted == q.granted
                  else
                    && q'.active == Some(|q.tickets|) && q'.Has(|q.tickets|) && q'.tickets[|q.tickets|] == TicketState(1, true, true, 0)
                    && q'.granted == q.granted + [q.waiters[0]] && q'.waiters == q.waiters[1..])
  {
    AlwaysInv(events);
    var q := Run(EMPTY, events);
    if q.active.Some? && Step(q, e).active != q.active {
      HandOver(q, e);
    }
  }

  lemma HandOver(q: Queue, e: Event)
    requires Inv(q) && q.active.Some? && Step(q, e).active != q.active
    ensures var q' := Step(q, e);
            && q'.Has(q.active.value) && q'.tickets[q.active.value].refs == 0
            && (if q.waiters == [] then q'.active.None? && q'.granted == q.granted
                else
                  && q'.active == Some(|q.tickets|) && q'.Has(|q.tickets|) && q'.tickets[|q.tickets|] == TicketState(1, true, true, 0)
                  && q'.granted == q.granted + [q.waiters[0]] && q'.waiters == q.waiters[1..])
  {
  }

  /** A rejected or nested entry, and an abort, never change who holds the queue. */
  lemma OnlyReleasesHandOver(q: Queue, e: Event)
    requires Inv(q) && q.active.Some?
    ensures Step(q, e).active != q.active ==> e.Finish? || e.ReleaseJob?
  {
  }

  // ---------------------------------------------------------------- exclusion

  /** Every run whose code is executing, nested ones included, belongs to the holder. */
  ghost predicate Exclusive(q: Queue) {
    forall t: nat :: q.Has(t) && (q.tickets[t].body || q.tickets[t].nested > 0) ==> q.active == Some(t)
  }

  /** The event takes the last reference of a ticket that a nested run still shares. */
  predicate DropsUnderNested(q: Queue, e: Event) {
    var t := if e.Finish? then Some(e.ticket) else if e.ReleaseJob? && e.job in q.jobs then Some(q.jobs[e.job]) else None;
    && t.Some? && q.Has(t.value) && (e.Finish? ==> q.tickets[t.value].body)
    && q.tickets[t.value].refs == 1 && q.tickets[t.value].nested > 0
  }

  lemma ExclusionStep(q: Queue, e: Event)
    requires Inv(q) && Exclusive(q)
    ensures Exclusive(Step(q, e)) <==> !DropsUnderNested(q, e)
  {
    if e.ReleaseJob? && e.job in q.jobs {
      JobsWithOneLess(q.jobs, e.job, q.jobs[e.job]);
      ReleaseExcludes(q.(jobs := q.jobs - {e.job}), q.jobs[e.job]);
    } else if e.Finish? && q.Has(e.ticket) && q.tickets[e.ticket].body {
      ReleaseExcludes(q.(tickets := q.tickets[e.ticket := q.tickets[e.ticket].(open := false, body := false)]), e.ticket);
    } else {
      OthersExclude(q, e);
    }
  }

  lemma ReleaseExcludes(q: Queue, t: nat)
    requires q.Has(t) && Exclusive(q) && q.active == Some(t) && q.tickets[t].refs > 0
    requires q.tickets[t].refs == 1 ==> !q.tickets[t].body
    ensures Exclusive(q.Release(t)) <==> !(q.tickets[t].refs == 1 && q.tickets[t].nested > 0)
  {
    var q' := q.Release(t);
    if q.tickets[t].refs == 1 && q.tickets[t].nested > 0 {
      assert q'.Has(t) && q'.tickets[t].nested > 0 && q'.active != Some(t);
    }
  }

  lemma OthersExclude(q: Queue, e: Event)
    requires Inv(q) && Exclusive(q)
    requires !(e.ReleaseJob? && e.job in q.jobs) && !(e.Finish? && q.Has(e.ticket) && q.tickets[e.ticket].body)
    ensures Exclusive(Step(q, e)) && !DropsUnderNested(q, e)
  {
  }

  ghost predicate AlwaysExclusive(q: Queue, events: seq<Event>)
    decreases |events|
  {
    Exclusive(q) && (events != [] ==> AlwaysExclusive(Step(q, events[0]), events[1..]))
  }

  predicate AwaitsNested(q: Queue, events: seq<Event>)
    decreases |events|
  {
    events != [] ==> !DropsUnderNested(q, events[0]) && AwaitsNested(Step(q, events[0]), events[1..])
  }

  /** Nested runs take no reference of their own. Every running body therefore belongs to the
      holder throughout a run if and only if no ticket loses its last reference while a nested
      run that shares it is still going, that is, if callers await them. */
  lemma ExclusionHoldsExactlyWhenNestedRunsAreAwaited(events: seq<Event>)
    ensures AlwaysExclusive(EMPTY, events) <==> AwaitsNested(EMPTY, events)
  {
    ExclusionOverRun(EMPTY, events);
  }

  lemma {:induction false} ExclusionOverRun(q: Queue, events: seq<Event>)
    requires Inv(q) && Exclusive(q)
    ensures AlwaysExclusive(q, events) <==> AwaitsNested(q, events)
    decreases |events|
  {
    if events != [] {
      ExclusionStep(q, events[0]);
      if Exclusive(Step(q, events[0])) {
        StepKeepsInv(q, events[0]);
        ExclusionOverRun(Step(q, events[0]), events[1..]);
      }
    }
  }

  predicate Running(q: Queue, t: nat) {
    q.Has(t) && (q.tickets[t].body || q.tickets[t].nested > 0)
  }

  /** Two bodies run under different tickets. */
  ghost predicate TwoBodies(q: Queue) {
    exists t: nat, u: nat :: t != u && Running(q, t) && Running(q, u)
  }

  /** A step lets two bodies overlap, at once if somebody waits or else when the next caller
      enters, if and only if it takes the last reference of a ticket under a nested run. */
  lemma BodiesOverlapExactlyWhen(q: Queue, e: Event)
    requires Inv(q) && Exclusive(q)
    ensures var q' := Step(q, e);
      TwoBodies(q') || TwoBodies(Step(q', Enter(None, false))) <==> DropsUnderNested(q, e)
  {
    var q' := Step(q, e);
    ExclusionStep(q, e);
    StepKeepsInv(q, e);
    if DropsUnderNested(q, e) {
      var t := if e.Finish? then e.ticket else q.jobs[e.job];
      DroppedStillRuns(q, e, t);
      if q.waiters != [] {
        assert Running(q', t) && Running(q', |q.tickets|);
      } else {
        var next := Step(q', Enter(None, false));
        assert Running(next, t) && Running(next, |q.tickets|);
      }
    } else {
      OthersExclude(q', Enter(None, false));
    }
  }

  lemma DroppedStillRuns(q: Queue, e: Event, t: nat)
    requires Inv(q) && Exclusive(q) && DropsUnderNested(q, e)
    requires t == if e.Finish? then e.ticket else q.jobs[e.job]
    ensures var q' := Step(q, e);
      && t < |q.tickets| && Running(q', t)
      && (if q.waiters != [] then Running(q', |q.tickets|) else q'.active.None? && |q'.tickets| == |q.tickets|)
  {
  }

  /** A run that breaks it: ticket 0 starts a nested run, finishes without awaiting it, and
      the next caller gets ticket 1 while the nested body is still running. */
  lemma UnawaitedNestedRunOverlaps()
    ensures var q := Run(EMPTY, [Enter(None, false), Enter(Some(0), false), Finish(0), Enter(None, false)]);
            && q.active == Some(1) && q.tickets[1].body
            && q.tickets[0].nested == 1
  {
    var q1 := Step(EMPTY, Enter(None, false));
    var q2 := Step(q1, Enter(Some(0), false));
    var q3 := Step(q2, Finish(0));
    var q4 := Step(q3, Enter(None, false));
    assert q1.tickets == [TicketState(1, true, true, 0)];
    assert q2.tickets == [TicketState(1, true, true, 1)];
    assert q3.tickets == [TicketState(0, false, false, 1)] && q3.active == None;
    assert q4 == Run(q3, [Enter(None, false)]);
    assert q4 == Run(q2, [Finish(0), Enter(None, false)]);
    assert q4 == Run(q1, [Enter(Some(0), false), Finish(0), Enter(None, false)]);
  }
}
