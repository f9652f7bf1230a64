/** The exclusive lease of a project root (src/server/projectLease.ts): one small file
    that names its owner by pid and nonce. `Acquire` is the whole function as one process
    runs it alone; the second half splits it into its file system calls, because two
    processes can interleave there. */
module ProjectLeases {
  import opened Wrappers

  type Pid = nat

  datatype File = Lease(pid: Pid, nonce: nat) | Malformed

  /** What `acquireProjectLease` answers and leaves behind when nobody interferes. */
  function AcquireLease(file: Option<File>, own: File, alive: set<Pid>): (Option<File>, Result<File>) {
    match file
    case None => (Some(own), Success(own))
    case Some(Malformed) => (file, Failure(CONFLICT))
    case Some(Lease(pid, _)) => if pid in alive then (file, Failure(CONFLICT)) else (Some(own), Success(own))
  }

  class LeaseFile {
    var file: Option<File>

    constructor ()
      ensures file == None
    {
      file := None;
    }

    method Acquire(own: File, alive: set<Pid>) returns (answer: Result<File>)
      modifies this
      ensures (file, answer) == AcquireLease(old(file), own, alive)
    {
      for attempt := 0 to 2
        invariant attempt < 2
        invariant attempt == 0 ==> file == old(file)
        invariant attempt > 0 ==> file == None && old(file).Some? && old(file).value.Lease? && old(file).value.pid !in alive
      {
        if file == None {
          file := Some(own);
          return Success(own);
        }
        if file.value.Malformed? || file.value.pid in alive {
          return Failure(CONFLICT);
        }
        file := None;
      }
      answer := Failure(CONFLICT);
    }

    method Release(own: File)
      modifies this
      ensures file == ReleaseLease(old(file), own)
    {
      if file == Some(own) {
        file := None;
      }
    }
  }

  /** The lease file after a list of processes tried to acquire it one after the other. */
  function AcquireAll(file: Option<File>, owns: seq<File>, alive: set<Pid>): Option<File>
    decreases |owns|
  {
    if owns == [] then file else AcquireAll(AcquireLease(file, owns[0], alive).0, owns[1..], alive)
  }

  /** However many try, the first of those that live gets a free lease or a dead owner's, and
      every later one is refused, in particular the same process for the same root: this is
      why one process never has two live workspaces on one root. */
  lemma {:induction false} FirstLiveOwnerKeeps(file: Option<File>, owns: seq<File>, alive: set<Pid>, late: File)
    requires owns != [] && owns[0].Lease? && owns[0].pid in alive
    requires AcquireLease(file, owns[0], alive).1.Success?
    ensures AcquireAll(file, owns, alive) == Some(owns[0])
    ensures AcquireLease(AcquireAll(file, owns, alive), late, alive) == (Some(owns[0]), Failure(CONFLICT))
    decreases |owns|
  {
    LiveOwnerStays(owns[0], owns[1..], alive);
  }

  lemma {:induction false} LiveOwnerStays(own: File, later: seq<File>, alive: set<Pid>)
    requires own.Lease? && own.pid in alive
    ensures AcquireAll(Some(own), later, alive) == Some(own)
    decreases |later|
  {
    if later != [] {
      LiveOwnerStays(own, later[1..], alive);
    }
  }

  function ReleaseLease(file: Option<File>, own: File): Option<File> {
    if file == Some(own) then None else file
  }

  /** Taking and giving back leaves the lease free for anybody; whoever does not own the file
      cannot free it, not even its former owner after a takeover. */
  lemma ReleaseUndoesAcquire(file: Option<File>, own: File, next: File, alive: set<Pid>)
    requires AcquireLease(file, own, alive).1.Success?
    ensures var taken := AcquireLease(file, own, alive).0;
      && AcquireLease(ReleaseLease(taken, own), next, alive) == (Some(next), Success(next))
      && forall other :: other != own ==> ReleaseLease(taken, other) == taken
  {
    assert AcquireLease(file, own, alive).0 == Some(own);
  }

  // ------------------------------------------------------- several processes

  /** Where a process stands inside `acquireProjectLease`. */
  datatype Stage = Idle | Creating(attempt: nat) | Inspecting(attempt: nat) | Unlinking(attempt: nat) | Holding | Refused

  /** Every process uses its pid as its nonce here; a pid is used by one process only. */
  datatype System = System(file: Option<File>, alive: set<Pid>, stage: map<Pid, Stage>) {

    function StageOf(p: Pid): Stage {
      if p in stage then stage[p] else Idle
    }

    predicate Holds(p: Pid) {
      p in alive && StageOf(p) == Holding
    }
  }

  datatype Event = Begin(p: Pid) | Create(p: Pid) | Inspect(p: Pid) | Unlink(p: Pid) | Release(p: Pid) | Die(p: Pid)

  function Step(s: System, e: Event): System {
    var p := e.p;
    if p !in s.alive then s
    else
      match e
      case Begin(_) => if s.StageOf(p) == Idle then s.(stage := s.stage[p := Creating(0)]) else s
      case Create(_) =>
        if !s.StageOf(p).Creating? then s
        else if s.file == None then s.(file := Some(Lease(p, p)), stage := s.stage[p := Holding])
        else s.(stage := s.stage[p := Inspecting(s.StageOf(p).attempt)])
      case Inspect(_) =>
        if !s.StageOf(p).Inspecting? then s
        else if s.file.Some? && s.file.value.Lease? && s.file.value.pid !in s.alive then
          s.(stage := s.stage[p := Unlinking(s.StageOf(p).attempt)])
        else s.(stage := s.stage[p := Refused])
      case Unlink(_) =>
        if !s.StageOf(p).Unlinking? then s
        else if s.file == None then s.(stage := s.stage[p := Refused])
        else s.(file := None, stage := s.stage[p := if s.StageOf(p).attempt == 0 then Creating(1) else Refused])
      case Release(_) =>
        if !s.Holds(p) then s
        else s.(file := if s.file == Some(Lease(p, p)) then None else s.file, stage := s.stage[p := Idle])
      case Die(_) => s.(alive := s.alive - {p})
  }

  function Run(s: System, events: seq<Event>): System
    decreases |events|
  {
    if events == [] then s else Run(Step(s, events[0]), events[1..])
  }

  /** Whoever believes to hold the lease owns the file, so at most one process does. */
  ghost predicate Exclusive(s: System) {
    forall p: Pid :: s.Holds(p) ==> s.file == Some(Lease(p, p))
  }

  lemma ExclusiveMeansOne(s: System, p: Pid, q: Pid)
    requires Exclusive(s) && s.Holds(p) && s.Holds(q)
    ensures p == q
  {
    assert s.file == Some(Lease(p, p)) && s.file == Some(Lease(q, q));
  }

  /** The takeover of a dead owner's file hits a file that is meanwhile a live holder's:
      the inspection and the unlink are two calls, and the second does not look again. */
  predicate UnlinksLiveHolder(s: System, e: Event) {
    && e.Unlink? && e.p in s.alive && s.StageOf(e.p).Unlinking?
    && s.file.Some? && s.file.value.Lease? && s.Holds(s.file.value.pid) && s.file.value.nonce == s.file.value.pid
  }

  lemma ExclusionStep(s: System, e: Event)
    requires Exclusive(s)
    ensures Exclusive(Step(s, e)) <==> !UnlinksLiveHolder(s, e)
  {
    if UnlinksLiveHolder(s, e) {
      assert Step(s, e).Holds(s.file.value.pid);
    }
  }

  ghost predicate AlwaysExclusive(s: System, events: seq<Event>)
    decreases |events|
  {
    Exclusive(s) && (events != [] ==> AlwaysExclusive(Step(s, events[0]), events[1..]))
  }

  predicate NeverUnlinksLiveHolder(s: System, events: seq<Event>)
    decreases |events|
  {
    events != [] ==> !UnlinksLiveHolder(s, events[0]) && NeverUnlinksLiveHolder(Step(s, events[0]), events[1..])
  }

  /** For any number of processes, in any interleaving of their calls and with deaths at any
      point, the lease excludes throughout a run if and only if no takeover of a dead
      owner's lease is overtaken by another process between inspecting and unlinking. */
  lemma {:induction false} LeaseExcludesExactlyWithoutRacingTakeovers(s: System, events: seq<Event>)
    requires Exclusive(s)
    ensures AlwaysExclusive(s, events) <==> NeverUnlinksLiveHolder(s, events)
    decreases |events|
  {
    if events != [] {
      ExclusionStep(s, events[0]);
      if Exclusive(Step(s, events[0])) {
        LeaseExcludesExactlyWithoutRacingTakeovers(Step(s, events[0]), events[1..]);
      }
    }
  }

  // Losing the file is not yet having two holders; it is when somebody can still take it.

  predicate TwoHolders(s: System) {
    exists p, q :: p in s.alive && q in s.alive && p != q && s.Holds(p) && s.Holds(q)
  }

  predicate Takes(e: Event) {
    e.Begin? || e.Create?
  }

  predicate OnlyTakes(events: seq<Event>) {
    forall i :: 0 <= i < |events| ==> Takes(events[i])
  }

  predicate CanTake(s: System, q: Pid) {
    q in s.alive && (s.StageOf(q).Idle? || s.StageOf(q).Creating?)
  }

  lemma ExclusiveHasNoTwo(s: System)
    requires Exclusive(s)
    ensures !TwoHolders(s)
  {
  }

  lemma {:induction false} TakesKeepExclusive(s: System, events: seq<Event>)
    requires Exclusive(s) && OnlyTakes(events)
    ensures Exclusive(Run(s, events))
    decreases |events|
  {
    if events != [] {
      assert Takes(events[0]);
      ExclusionStep(s, events[0]);
      TakesKeepExclusive(Step(s, events[0]), events[1..]);
    }
  }

  lemma {:induction false} NobodyTakes(s: System, events: seq<Event>)
    requires (forall q :: q in s.alive ==> !CanTake(s, q)) && OnlyTakes(events)
    ensures Run(s, events) == s
    decreases |events|
  {
    if events != [] {
      assert Takes(events[0]);
      NobodyTakes(s, events[1..]);
    }
  }

  lemma TakingGivesTwo(s: System, p: Pid, q: Pid) returns (more: seq<Event>)
    requires s.Holds(p) && s.file == None && CanTake(s, q)
    ensures OnlyTakes(more) && TwoHolders(Run(s, more))
  {
    var s1 := if s.StageOf(q).Idle? then Step(s, Begin(q)) else s;
    var s2 := Step(s1, Create(q));
    assert s2.Holds(p) && s2.Holds(q) && p != q;
    if s.StageOf(q).Idle? {
      more := [Begin(q), Create(q)];
      RunTwo(s, Begin(q), Create(q), []);
      assert [Begin(q), Create(q)] + [] == more;
    } else {
      more := [Create(q)];
      assert more[1..] == [];
      assert Run(s, more) == Run(s2, []);
    }
    assert Run(s, more) == s2;
  }

  lemma UnlinkKeepsHolders(s: System, e: Event)
    requires Exclusive(s) && UnlinksLiveHolder(s, e)
    ensures Step(s, e).file == None && Step(s, e).Holds(s.file.value.pid) && !TwoHolders(Step(s, e))
  {
    ExclusiveHasNoTwo(s);
    forall p: Pid ensures Step(s, e).Holds(p) <==> s.Holds(p) {
    }
  }

  /** From a state in which the holder owns the file, a step leads to two holders, as soon as
      others only go on taking the lease, if and only if it unlinks the file of a live holder
      and some live process is before its creation of the file. */
  lemma TwoHoldersExactlyWhen(s: System, e: Event)
    requires Exclusive(s)
    ensures (exists more :: OnlyTakes(more) && TwoHolders(Run(Step(s, e), more)))
       <==> UnlinksLiveHolder(s, e) && exists q :: q in Step(s, e).alive && CanTake(Step(s, e), q)
  {
    ExclusionStep(s, e);
    var s' := Step(s, e);
    if !UnlinksLiveHolder(s, e) {
      forall more | OnlyTakes(more) ensures !TwoHolders(Run(s', more)) {
        TakesKeepExclusive(s', more);
        ExclusiveHasNoTwo(Run(s', more));
      }
    } else {
      UnlinkKeepsHolders(s, e);
      if q :| q in s'.alive && CanTake(s', q) {
        var more := TakingGivesTwo(s', s.file.value.pid, q);
      } else {
        forall more | OnlyTakes(more) ensures !TwoHolders(Run(s', more)) {
          NobodyTakes(s', more);
        }
      }
    }
  }

  /** The failing run: processes 1 and 2 both inspect the file of dead process 9; 1 takes it
      over completely, then 2 unlinks the fresh lease of 1 and creates its own. */
  lemma TwoTakeoversBothSucceed()
    ensures var s := Run(System(Some(Lease(9, 9)), {1, 2}, map[]),
                         [Begin(1), Begin(2), Create(1), Create(2), Inspect(1), Inspect(2), Unlink(1), Create(1), Unlink(2), Create(2)]);
            s.Holds(1) && s.Holds(2)
  {
    var s0 := System(Some(Lease(9, 9)), {1, 2}, map[]);
    var s6 := System(Some(Lease(9, 9)), {1, 2}, map[1 := Unlinking(0), 2 := Unlinking(0)]);
    BothInspect();
    Overtaken(s6);
    assert s6 == Run(s0, [Begin(1), Begin(2), Create(1), Create(2), Inspect(1), Inspect(2)]);
    RunAppend(s0, [Begin(1), Begin(2), Create(1), Create(2), Inspect(1), Inspect(2)], [Unlink(1), Create(1), Unlink(2), Create(2)]);
    assert [Begin(1), Begin(2), Create(1), Create(2), Inspect(1), Inspect(2)] + [Unlink(1), Create(1), Unlink(2), Create(2)]
        == [Begin(1), Begin(2), Create(1), Create(2), Inspect(1), Inspect(2), Unlink(1), Create(1), Unlink(2), Create(2)];
  }

  lemma BothInspect()
    ensures Run(System(Some(Lease(9, 9)), {1, 2}, map[]), [Begin(1), Begin(2), Create(1), Create(2), Inspect(1), Inspect(2)])
         == System(Some(Lease(9, 9)), {1, 2}, map[1 := Unlinking(0), 2 := Unlinking(0)])
  {
    var file := Some(Lease(9, 9));
    var s2 := System(file, {1, 2}, map[1 := Creating(0), 2 := Creating(0)]);
    var s4 := System(file, {1, 2}, map[1 := Inspecting(0), 2 := Inspecting(0)]);
    RunTwo(System(file, {1, 2}, map[]), Begin(1), Begin(2), [Create(1), Create(2), Inspect(1), Inspect(2)]);
    RunTwo(s2, Create(1), Create(2), [Inspect(1), Inspect(2)]);
    RunTwo(s4, Inspect(1), Inspect(2), []);
    assert Step(Step(System(file, {1, 2}, map[]), Begin(1)), Begin(2)) == s2;
    assert Step(Step(s2, Create(1)), Create(2)) == s4;
    assert [Inspect(1), Inspect(2)] + [] == [Inspect(1), Inspect(2)];
  }

  lemma Overtaken(s: System)
    requires s == System(Some(Lease(9, 9)), {1, 2}, map[1 := Unlinking(0), 2 := Unlinking(0)])
    ensures var t := Run(s, [Unlink(1), Create(1), Unlink(2), Create(2)]); t.Holds(1) && t.Holds(2)
  {
    var s8 := System(Some(Lease(1, 1)), {1, 2}, map[1 := Holding, 2 := Unlinking(0)]);
    RunTwo(s, Unlink(1), Create(1), [Unlink(2), Create(2)]);
    RunTwo(s8, Unlink(2), Create(2), []);
    assert Step(Step(s, Unlink(1)), Create(1)) == s8;
    assert [Unlink(2), Create(2)] + [] == [Unlink(2), Create(2)];
  }

  lemma RunTwo(s: System, a: Event, b: Event, rest: seq<Event>)
    ensures Run(s, [a, b] + rest) == Run(Step(Step(s, a), b), rest)
  {
    assert ([a, b] + rest)[1..] == [b] + rest && ([b] + rest)[1..] == rest;
    assert Run(s, [a, b] + rest) == Run(Step(s, a), [b] + rest);
  }

  lemma {:induction false} RunAppend(s: System, events: seq<Event>, more: seq<Event>)
    ensures Run(s, events + more) == Run(Run(s, events), more)
    decreases |events|
  {
    if events == [] {
      assert events + more == more;
    } else {
      assert (events + more)[1..] == events[1..] + more;
      RunAppend(Step(s, events[0]), events[1..], more);
    }
  }
}
