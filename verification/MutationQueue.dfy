/** The per-workspace mutation queue (src/security/mutationQueue.ts): a re-entrant,
    abortable FIFO lock whose tickets background jobs can keep alive. */
module MutationQueues {
  import opened Wrappers

  const MAX_WAITERS := 32

  /** `refs` and `open` are the fields of the source. `body` says that the run the ticket
      was made for has not finished, `nested` how many nested runs share the ticket now. */
  datatype TicketState = TicketState(refs: int, open: bool, body: bool, nested: nat)

  datatype Entered = Rejected(code: Code) | Nested | Queued(waiter: nat) | Started(ticket: nat)

  /** Tickets are numbered in the order they are made, waiters in the order they arrive.
      `jobs` maps every unreleased retained job to its ticket. `granted` and `rejected`
      record what became of the waiters that left the queue. */
  datatype Queue = Queue(
    tickets: seq<TicketState>,
    active: Option<nat>,
    waiters: seq<nat>,
    arrived: nat,
    granted: seq<nat>,
    rejected: set<nat>,
    jobs: map<nat, nat>,
    retained: nat) {

    predicate Has(t: nat) {
      t < |tickets|
    }

    /** `context.getStore()` is an open ticket and the active one. */
    predicate Holds(context: Option<nat>) {
      context.Some? && Has(context.value) && tickets[context.value].open && active == context
    }

    function NewTicket(open: bool): Queue {
      this.(tickets := tickets + [TicketState(1, open, open, 0)], active := Some(|tickets|))
    }

    function Enter(context: Option<nat>, aborted: bool): (Queue, Entered) {
      if aborted then (this, Rejected(CONFLICT))
      else if Holds(context) then
        var t := context.value;
        (this.(tickets := tickets[t := tickets[t].(nested := tickets[t].nested + 1)]), Nested)
      else if active.Some? then
        if |waiters| >= MAX_WAITERS then (this, Rejected(RESOURCE_LIMIT))
        else (this.(waiters := waiters + [arrived], arrived := arrived + 1), Queued(arrived))
      else (NewTicket(true), Started(|tickets|))
    }

    function Abort(waiter: nat): Queue {
      if waiter in waiters then
        this.(waiters := Without(waiters, waiter), rejected := rejected + {waiter})
      else
        this
    }

    function Release(t: nat): Queue
      requires Has(t)
    {
      var q := this.(tickets := tickets[t := tickets[t].(refs := tickets[t].refs - 1)]);
      if q.tickets[t].refs != 0 then q
      else
        var idle := if active == Some(t) then q.(active := None) else q;
        idle.GrantNext()
    }

    function GrantNext(): Queue {
      if waiters == [] then this
      else NewTicket(true).(waiters := waiters[1..], granted := granted + [waiters[0]])
    }

    /** The `finally` of the run that owns the ticket. */
    function Finish(t: nat): Queue {
      if Has(t) && tickets[t].body then
        this.(tickets := tickets[t := tickets[t].(open := false, body := false)]).Release(t)
      else
        this
    }

    function EndNested(t: nat): Queue {
      if Has(t) && tickets[t].nested > 0 then
        this.(tickets := tickets[t := tickets[t].(nested := tickets[t].nested - 1)])
      else
        this
    }

    function RetainJob(context: Option<nat>): (Queue, Result<nat>) {
      if Holds(context) then
        var t := context.value;
        (this.(tickets := tickets[t := tickets[t].(refs := tickets[t].refs + 1)],
               jobs := jobs[retained := t], retained := retained + 1), Success(retained))
      else if active.Some? then (this, Failure(CONFLICT))
      else (NewTicket(false).(jobs := jobs[retained := |tickets|], retained := retained + 1), Success(retained))
    }

    /** The closure that `retainJob` returned; only its first call counts. */
    function ReleaseJob(job: nat): Queue {
      if job in jobs && Has(jobs[job]) then this.(jobs := jobs - {job}).Release(jobs[job]) else this
    }

    predicate CanStart(context: Option<nat>) {
      active.None? || Holds(context)
    }
  }

  function Without(s: seq<nat>, x: nat): (r: seq<nat>)
    ensures forall y :: y in r ==> y in s
    ensures x in s ==> |r| == |s| - 1
  {
    if s == [] then []
    else if s[0] == x then s[1..]
    else [s[0]] + Without(s[1..], x)
  }

  const EMPTY := Queue([], None, [], 0, [], {}, map[], 0)

  // ------------------------------------------------------------------ the class

  class Ticket {
    var refs: int
    var open: bool
    ghost var body: bool
    ghost var nested: nat

    constructor (open: bool)
      ensures State() == TicketState(1, open, open, 0)
    {
      this.refs, this.open, this.body, this.nested := 1, open, open, 0;
    }

    ghost function State(): TicketState
      reads this
    {
      TicketState(refs, open, body, nested)
    }
  }

  class MutationQueue {
    var active: Ticket?
    var waiters: seq<nat>
    var arrived: nat
    var made: seq<Ticket>
    ghost var granted: seq<nat>
    ghost var rejected: set<nat>
    ghost var jobs: map<nat, nat>
    var retained: nat

    ghost predicate Valid()
      reads this
    {
      && (forall i, j :: 0 <= i < j < |made| ==> made[i] != made[j])
      && (active != null ==> active in made)
    }

    ghost function IndexOf(t: Ticket): (i: nat)
      reads this
      requires t in made
      ensures i < |made| && made[i] == t
    {
      var i :| 0 <= i < |made| && made[i] == t;
      i
    }

    ghost function States(): (s: seq<TicketState>)
      reads this, made
      ensures |s| == |made| && forall i :: 0 <= i < |made| ==> s[i] == made[i].State()
    {
      seq(|made|, i requires 0 <= i < |made| reads this, made => made[i].State())
    }

    ghost function View(): Queue
      reads this, made
      requires Valid()
    {
      Queue(States(), if active == null then None else Some(IndexOf(active)),
            waiters, arrived, granted, rejected, jobs, retained)
    }

    /** The number of the ticket in the asynchronous context, if there is one. */
    ghost function Context(store: Ticket?): Option<nat>
      reads this
      requires store != null ==> store in made
    {
      if store == null then None else Some(IndexOf(store))
    }

    constructor ()
      ensures Valid() && View() == EMPTY && fresh(made)
    {
      active, waiters, arrived, made, granted, rejected, jobs, retained := null, [], 0, [], [], {}, map[], 0;
    }

    method NewTicket(open: bool) returns (t: Ticket)
      requires Valid()
      modifies this`active, this`made
      ensures Valid() && fresh(t) && made == old(made) + [t] && IndexOf(t) == |old(made)|
      ensures View() == old(View()).NewTicket(open)
    {
      t := new Ticket(open);
      made := made + [t];
      active := t;
    }

    /** `run` up to the point where it starts its body, joins the queue or is refused. */
    method Enter(store: Ticket?, aborted: bool) returns (answer: Entered)
      requires Valid() && (store != null ==> store in made)
      modifies this, made
      ensures Valid() && old(made) <= made && fresh(made[|old(made)|..])
      ensures (View(), answer) == old(View()).Enter(old(Context(store)), aborted)
    {
      if aborted {
        return Rejected(CONFLICT);
      }
      if store != null && store.open && active == store {
        store.nested := store.nested + 1;
        assert States() == old(States())[old(IndexOf(store)) := store.State()];
        return Nested;
      }
      if active != null {
        if |waiters| >= MAX_WAITERS {
          return Rejected(RESOURCE_LIMIT);
        }
        answer := Queued(arrived);
        waiters, arrived := waiters + [arrived], arrived + 1;
        assert States() == old(States());
        return;
      }
      var t := NewTicket(true);
      answer := Started(|made| - 1);
    }

    method Abort(waiter: nat)
      requires Valid()
      modifies this`waiters, this`rejected
      ensures Valid() && View() == old(View()).Abort(waiter)
    {
      if waiter in waiters {
        waiters := Without(waiters, waiter);
        rejected := rejected + {waiter};
      }
      assert States() == old(States());
    }

    /** The tail of `release`: a new ticket goes to the oldest waiter. */
    method GrantNext()
      requires Valid()
      modifies this
      ensures Valid() && old(made) <= made && fresh(made[|old(made)|..])
      ensures View() == old(View()).GrantNext()
    {
      if waiters != [] {
        var granting := NewTicket(true);
        granted := granted + [waiters[0]];
        waiters := waiters[1..];
      }
      assert waiters == old(waiters) ==> States() == old(States());
    }

    /** The `release` closure of a ticket. */
    method Release(t: Ticket)
      requires Valid() && t in made
      modifies this, t`refs
      ensures Valid() && old(made) <= made && fresh(made[|old(made)|..])
      ensures View() == old(View()).Release(old(IndexOf(t)))
    {
      t.refs := t.refs - 1;
      assert States() == old(States())[old(IndexOf(t)) := t.State()];
      if t.refs == 0 {
        if active == t {
          active := null;
        }
        GrantNext();
      }
    }

    method Finish(t: Ticket)
      requires Valid() && t in made && t.body
      modifies this, t
      ensures Valid() && old(made) <= made && fresh(made[|old(made)|..])
      ensures View() == old(View()).Finish(old(IndexOf(t)))
    {
      t.open, t.body := false, false;
      assert States() == old(States())[old(IndexOf(t)) := t.State()];
      Release(t);
    }

    method RetainJob(store: Ticket?) returns (job: Result<nat>)
      requires Valid() && (store != null ==> store in made)
      modifies this, made
      ensures Valid() && old(made) <= made && fresh(made[|old(made)|..])
      ensures (View(), job) == old(View()).RetainJob(old(Context(store)))
    {
      var t := store;
      if store == null || !store.open || store != active {
        if active != null {
          return Failure(CONFLICT);
        }
        t := NewTicket(false);
      } else {
        store.refs := store.refs + 1;
        assert States() == old(States())[old(IndexOf(store)) := store.State()];
      }
      ghost var before := View();
      jobs := jobs[retained := IndexOf(t)];
      retained := retained + 1;
      assert States() == before.tickets;
      job := Success(retained - 1);
    }

    /** The closure that `retainJob` returned for the ticket `t`, with its flag `done`. */
    method ReleaseJob(ghost job: nat, t: Ticket, done: bool)
      requires Valid() && t in made && done == (job !in jobs)
      requires job in jobs ==> jobs[job] == IndexOf(t)
      modifies this, t`refs
      ensures Valid() && old(made) <= made && fresh(made[|old(made)|..])
      ensures View() == old(View()).ReleaseJob(job)
    {
      assert States() == old(States());
      if !done {
        jobs := jobs - {job};
        assert States() == old(States());
        Release(t);
      }
    }

    method CanStart(store: Ticket?) returns (ok: bool)
      requires Valid() && (store != null ==> store in made)
      ensures ok == View().CanStart(Context(store))
    {
      ok := active == null || (store != null && store.open && store == active);
    }
  }
}
