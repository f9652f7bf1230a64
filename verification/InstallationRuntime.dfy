/** Leased per-project runtimes (src/server/installationRuntime.ts).

    Each method of the class is one atomic section of the source: the code between
    two `await` points. The functions of the datatype `Manager` say what each section
    does to the collections; `Lifecycle` proves what all interleavings keep. */
module InstallationRuntimes {
  import opened Wrappers
  import opened Workspaces

  const MAX_RUNTIMES := 16

  /** How far the `open` promise stored in `opening` has come. */
  datatype OpenStatus = Building(inst: nat) | Discarding(inst: nat) | Opened(inst: nat) | Failed

  /** `waiters` counts the `acquire` calls awaiting that promise. */
  datatype Opening = Opening(status: OpenStatus, waiters: nat)

  datatype CloseStage = ResourcesClosing | ServicesClosing

  /** Progress of `close()`; the flag `closed` is set in every state but `Running`. */
  datatype Shutdown =
    | Running
    | SettlingOpenings
    | DrainingUsers
    | ClosingRuntimes(awaited: Option<ProjectId>)
    | ShutDown
    | Aborted

  datatype Acquired =
    | Refused(code: Code)
    | Granted(lease: nat, inst: nat)
    | Waiting

  datatype Closed = NotOpen | Busy | Started

  /** `leases` lists the unreleased leases, numbered in the order they were handed out,
      with the instance of each; the source keeps only the totals in `users`. */
  datatype Manager = Manager(
    runtimes: map<ProjectId, nat>,
    opening: map<ProjectId, Opening>,
    closing: map<ProjectId, CloseStage>,
    users: map<Root, int>,
    leases: map<nat, nat>,
    granted: nat,
    shutdown: Shutdown) {

    predicate IsClosed() {
      shutdown != Running
    }

    function Users(root: Root): int {
      if root in users then users[root] else 0
    }

    /** `agents` is the answer of the query for unfinished agent runs. */
    predicate IsBusy(root: Root, agents: bool) {
      Users(root) > 0 || (!IsClosed() && agents)
    }

    function Grant(inst: nat, root: Root): Manager {
      this.(users := users[root := Users(root) + 1], leases := leases[granted := inst], granted := granted + 1)
    }

    /** The synchronous part of `acquire`. `current` and `ready` are what the closures
        `current` and `defaultReady` answer; `project` is the root that the registry and
        the access rules give for `id`, if they give one. */
    function Acquire(world: World, current: nat, ready: bool, id: ProjectId, project: Option<Root>, boots: bool)
      : (Manager, World, Acquired)
    {
      if IsClosed() || id in closing then (this, world, Refused(CONFLICT))
      else if project.None? then (this, world, Refused(FORBIDDEN))
      else if world.RootOf(current) == project.value then
        if !ready then (this, world, Refused(STALE_WORKSPACE))
        else (Grant(current, project.value), world, Granted(granted, current))
      else if id in runtimes then
        var inst := runtimes[id];
        (Grant(inst, world.RootOf(inst)), world, Granted(granted, inst))
      else if id in opening then
        (this.(opening := opening[id := opening[id].(waiters := opening[id].waiters + 1)]), world, Waiting)
      else if |runtimes| + |opening| >= MAX_RUNTIMES then (this, world, Refused(RESOURCE_LIMIT))
      else
        var (world', made) := world.Bootstrap(project.value, OpeningFor(id), boots);
        var status := if made.Some? then Building(made.value) else Failed;
        (this.(opening := opening[id := Opening(status, 1)]), world', Waiting)
    }

    /** `open` after its awaited resource factory: publish the runtime, or discard it. */
    function FinishOpen(world: World, id: ProjectId, ok: bool): (Manager, World) {
      if id in opening && opening[id].status.Building? then
        var inst := opening[id].status.inst;
        if ok then
          (this.(runtimes := runtimes[id := inst], opening := opening[id := opening[id].(status := Opened(inst))]),
           world.OpenResources(inst).Move(inst, RuntimeOf(id)))
        else
          (this.(opening := opening[id := opening[id].(status := Discarding(inst))]), world.BeginShutdown(inst))
      else
        (this, world)
    }

    function FinishDiscard(world: World, id: ProjectId): Manager {
      if id in opening && opening[id].status.Discarding? && world.PhaseOf(opening[id].status.inst) == Dead then
        this.(opening := opening[id := opening[id].(status := Failed)])
      else
        this
    }

    /** The waiters numbered below `n` whose second authorization check passes take a lease. */
    function GrantAll(n: nat, refused: set<nat>, inst: nat, root: Root): Manager {
      if n == 0 then this
      else
        var m := GrantAll(n - 1, refused, inst, root);
        if n - 1 in refused then m else m.Grant(inst, root)
    }

    /** All calls awaiting one settled `open` resume before any other code runs. */
    function Resume(world: World, id: ProjectId, refused: set<nat>): Manager {
      if id in opening && (opening[id].status.Opened? || opening[id].status.Failed?) then
        var o := opening[id];
        var m := this.(opening := opening - {id});
        if o.status.Failed? || IsClosed() || id in closing then m
        else m.GrantAll(o.waiters, refused, o.status.inst, world.RootOf(o.status.inst))
      else
        this
    }

    /** The `release` closure of a lease; only its first call counts. */
    function Release(world: World, lease: nat): Manager {
      if lease in leases then
        var root := world.RootOf(leases[lease]);
        this.(users := users[root := Users(root) - 1], leases := leases - {lease})
      else
        this
    }

    /** `jobs` and `queued` are the job count and the mutation queue state of the runtime. */
    function CloseProject(world: World, id: ProjectId, agents: bool, jobs: nat, queued: bool): (Manager, Closed) {
      if id in opening || id in closing then (this, Busy)
      else if id !in runtimes then (this, NotOpen)
      else if IsBusy(world.RootOf(runtimes[id]), agents) || jobs > 0 || queued then (this, Busy)
      else (this.(closing := closing[id := ResourcesClosing]), Started)
    }

    function CloseServices(world: World, id: ProjectId): (Manager, World) {
      if id in closing && closing[id] == ResourcesClosing && id in runtimes then
        (this.(closing := closing[id := ServicesClosing]),
         world.CloseResources(runtimes[id]).BeginShutdown(runtimes[id]))
      else
        (this, world)
    }

    function FinishClose(world: World, id: ProjectId): Manager {
      if id in closing && closing[id] == ServicesClosing && id in runtimes && world.PhaseOf(runtimes[id]) == Dead then
        this.(runtimes := runtimes - {id}, closing := closing - {id})
      else
        this
    }

    /** `close()`, section by section. */
    function BeginShutdown(): Manager {
      if shutdown == Running then this.(shutdown := SettlingOpenings) else this
    }

    function OpeningsSettled(): Manager {
      if shutdown == SettlingOpenings && opening.Keys == {} then this.(shutdown := DrainingUsers) else this
    }

    function UsersDrained(): Manager {
      if shutdown == DrainingUsers && (forall r | r in users :: users[r] <= 0) then
        this.(shutdown := ClosingRuntimes(None))
      else
        this
    }

    function ShutdownNext(world: World, id: ProjectId, jobs: nat, queued: bool): Manager {
      if shutdown.ClosingRuntimes? && (shutdown.awaited.Some? ==> shutdown.awaited.value !in runtimes) && id in runtimes then
        var (m, answer) := CloseProject(world, id, false, jobs, queued);
        if answer == Busy then m.(shutdown := Aborted) else m.(shutdown := ClosingRuntimes(Some(id)))
      else
        this
    }

    function ShutdownDone(): Manager {
      if shutdown.ClosingRuntimes? && runtimes.Keys == {} then this.(shutdown := ShutDown) else this
    }
  }

  class InstallationRuntime {
    const world: ProcessWorld
    var runtimes: map<ProjectId, nat>
    var opening: map<ProjectId, Opening>
    var closing: map<ProjectId, CloseStage>
    var users: map<Root, int>
    var leases: map<nat, nat>
    var granted: nat
    var shutdown: Shutdown

    ghost function View(): Manager
      reads this
    {
      Manager(runtimes, opening, closing, users, leases, granted, shutdown)
    }

    constructor (world: ProcessWorld)
      ensures View() == Manager(map[], map[], map[], map[], map[], 0, Running) && this.world == world
    {
      this.world := world;
      runtimes, opening, closing, users, leases, granted, shutdown := map[], map[], map[], map[], map[], 0, Running;
    }

    method Busy(root: Root, agents: bool) returns (busy: bool)
      ensures busy == View().IsBusy(root, agents)
    {
      if root in users && users[root] > 0 {
        return true;
      }
      busy := shutdown == Running && agents;
    }

    method Grant(inst: nat, root: Root)
      modifies this`users, this`leases, this`granted
      ensures View() == old(View()).Grant(inst, root)
    {
      users := users[root := (if root in users then users[root] else 0) + 1];
      leases := leases[granted := inst];
      granted := granted + 1;
    }

    method Acquire(current: nat, ready: bool, id: ProjectId, project: Option<Root>, boots: bool) returns (answer: Acquired)
      modifies this, world
      ensures (View(), world.View(), answer) == old(View()).Acquire(old(world.View()), current, ready, id, project, boots)
    {
      if shutdown != Running || id in closing {
        return Refused(CONFLICT);
      }
      if project.None? {
        return Refused(FORBIDDEN);
      }
      var inst := current;
      var root := world.RootOf(current);
      if root == project.value {
        if !ready {
          return Refused(STALE_WORKSPACE);
        }
      } else if id in runtimes {
        inst := runtimes[id];
        root := world.RootOf(inst);
      } else {
        if id in opening {
          opening := opening[id := opening[id].(waiters := opening[id].waiters + 1)];
        } else {
          if |runtimes| + |opening| >= MAX_RUNTIMES {
            return Refused(RESOURCE_LIMIT);
          }
          var made := world.Bootstrap(project.value, OpeningFor(id), boots);
          opening := opening[id := Opening(if made.Some? then Building(made.value) else Failed, 1)];
        }
        return Waiting;
      }
      answer := Granted(granted, inst);
      Grant(inst, root);
    }

    method FinishOpen(id: ProjectId, ok: bool)
      modifies this, world
      ensures (View(), world.View()) == old(View()).FinishOpen(old(world.View()), id, ok)
    {
      if id in opening && opening[id].status.Building? {
        var inst := opening[id].status.inst;
        if ok {
          world.OpenResources(inst);
          world.Move(inst, RuntimeOf(id));
          runtimes := runtimes[id := inst];
          opening := opening[id := opening[id].(status := Opened(inst))];
        } else {
          world.BeginShutdown(inst);
          opening := opening[id := opening[id].(status := Discarding(inst))];
        }
      }
    }

    method Resume(id: ProjectId, refused: set<nat>)
      modifies this
      ensures View() == old(View()).Resume(world.View(), id, refused)
    {
      if id in opening && (opening[id].status.Opened? || opening[id].status.Failed?) {
        var o := opening[id];
        opening := opening - {id};
        if o.status.Opened? && shutdown == Running && id !in closing {
          var root := world.RootOf(o.status.inst);
          ghost var before := View();
          for k := 0 to o.waiters
            invariant View() == before.GrantAll(k, refused, o.status.inst, root)
          {
            if k !in refused {
              Grant(o.status.inst, root);
            }
          }
        }
      }
    }

    method Release(lease: nat)
      modifies this
      ensures View() == old(View()).Release(world.View(), lease)
    {
      if lease in leases {
        var root := world.RootOf(leases[lease]);
        users := users[root := (if root in users then users[root] else 0) - 1];
        leases := leases - {lease};
      }
    }

    method CloseProject(id: ProjectId, agents: bool, jobs: nat, queued: bool) returns (answer: Closed)
      modifies this
      ensures (View(), answer) == old(View()).CloseProject(world.View(), id, agents, jobs, queued)
    {
      if id in opening || id in closing {
        return Closed.Busy;
      }
      if id !in runtimes {
        return NotOpen;
      }
      var root := world.RootOf(runtimes[id]);
      var busy := Busy(root, agents);
      if busy || jobs > 0 || queued {
        return Closed.Busy;
      }
      closing := closing[id := ResourcesClosing];
      answer := Started;
    }

    method CloseServices(id: ProjectId)
      modifies this, world
      ensures (View(), world.View()) == old(View()).CloseServices(old(world.View()), id)
    {
      if id in closing && closing[id] == ResourcesClosing && id in runtimes {
        closing := closing[id := ServicesClosing];
        world.CloseResources(runtimes[id]);
        world.BeginShutdown(runtimes[id]);
      }
    }

    method FinishClose(id: ProjectId)
      modifies this
      ensures View() == old(View()).FinishClose(world.View(), id)
    {
      if id in closing && closing[id] == ServicesClosing && id in runtimes {
        var phase := world.PhaseOf(runtimes[id]);
        if phase == Dead {
          runtimes := runtimes - {id};
          closing := closing - {id};
        }
      }
    }

    method FinishDiscard(id: ProjectId)
      modifies this
      ensures View() == old(View()).FinishDiscard(world.View(), id)
    {
      if id in opening && opening[id].status.Discarding? {
        var phase := world.PhaseOf(opening[id].status.inst);
        if phase == Dead {
          opening := opening[id := opening[id].(status := Failed)];
        }
      }
    }

    method BeginShutdown()
      modifies this
      ensures View() == old(View()).BeginShutdown()
    {
      if shutdown == Running {
        shutdown := SettlingOpenings;
      }
    }

    method OpeningsSettled()
      modifies this
      ensures View() == old(View()).OpeningsSettled()
    {
      if shutdown == SettlingOpenings && opening.Keys == {} {
        shutdown := DrainingUsers;
      }
    }

    method UsersDrained()
      modifies this
      ensures View() == old(View()).UsersDrained()
    {
      if shutdown == DrainingUsers && (forall r | r in users :: users[r] <= 0) {
        shutdown := ClosingRuntimes(None);
      }
    }

    method ShutdownDone()
      modifies this
      ensures View() == old(View()).ShutdownDone()
    {
      if shutdown.ClosingRuntimes? && runtimes.Keys == {} {
        shutdown := ShutDown;
      }
    }

    method ShutdownNext(id: ProjectId, jobs: nat, queued: bool)
      modifies this
      ensures View() == old(View()).ShutdownNext(world.View(), id, jobs, queued)
    {
      if shutdown.ClosingRuntimes? && (shutdown.awaited.Some? ==> shutdown.awaited.value !in runtimes) && id in runtimes {
        var answer := CloseProject(id, false, jobs, queued);
        shutdown := if answer == Closed.Busy then Aborted else ClosingRuntimes(Some(id));
      }
    }
  }
}
