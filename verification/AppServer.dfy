/** The server object (src/server/appServer.ts) over its host, its runtime manager and their
    workspaces. `Valid` says that its state is one that a run of events leads to, so every
    theorem about runs is one about the object; each method is an event, keeps `Valid`, and
    promises its caller what the caller relies on. */
module AppServers {
  import opened Wrappers
  import opened Workspaces
  import opened InstallationRuntimes
  import opened WorkspaceHosts
  import opened Lifecycle
  import opened LifecycleSafety
  import opened LifecyclePromises

  class AppServer {
    const world: ProcessWorld
    const host: WorkspaceHost
    const manager: InstallationRuntime
    var closing: bool
    ghost const first: Root
    ghost var trace: seq<Event>

    ghost function View(): Server
      reads this, world, host, manager
    {
      Server(world.View(), host.View(), manager.View(), closing)
    }

    ghost predicate Valid()
      reads this, world, host, manager
    {
      host.world == world && manager.world == world && View() == Run(Init(first), trace)
    }

    constructor (root: Root)
      ensures Valid() && View() == Init(root) && fresh(world) && fresh(host) && fresh(manager)
    {
      var w := new ProcessWorld(root);
      world := w;
      host := new WorkspaceHost(w, 0);
      manager := new InstallationRuntime(w);
      closing, first, trace := false, root, [];
    }

    lemma ValidIsReached()
      requires Valid()
      ensures Reached(View())
    {
    }

    /** Whoever holds a lease or runs a tool call is on a workspace that is up. */
    lemma ValidServes()
      requires Valid()
      ensures forall l :: l in View().manager.leases ==> View().world.Serving(View().manager.leases[l])
      ensures forall c :: c in View().host.tools ==> View().world.Serving(View().host.tools[c])
      ensures View().host.state != HostState.Closed ==> View().world.Serving(View().host.current)
    {
      ServicesOutliveTheirCallers(first, trace);
      CurrentIsUp(first, trace);
    }

    // ----------------------------------------------- requests and tool calls

    method EnterBody()
      requires Valid()
      modifies this`trace, host
      ensures Valid() && trace == old(trace) + [Event.EnterBody]
    {
      RunSnoc(first, trace, Event.EnterBody);
      trace := trace + [Event.EnterBody];
      host.EnterBody();
    }

    method LeaveBody()
      requires Valid()
      modifies this`trace, host
      ensures Valid() && trace == old(trace) + [Event.LeaveBody]
    {
      RunSnoc(first, trace, Event.LeaveBody);
      trace := trace + [Event.LeaveBody];
      host.LeaveBody();
    }

    /** A request that passes untargeted is served by a workspace that is up. */
    method SwitchGate(targeted: bool) returns (passed: bool)
      requires Valid()
      modifies this`trace, host
      ensures Valid() && trace == old(trace) + [Event.PassGate(targeted)]
      ensures passed && !targeted ==> View().world.Serving(View().host.current)
    {
      ValidIsReached();
      GatePromise(View(), targeted);
      RunSnoc(first, trace, Event.PassGate(targeted));
      trace := trace + [Event.PassGate(targeted)];
      passed := host.PassGate(closing, targeted);
    }

    method LeaveGate()
      requires Valid()
      modifies this`trace, host
      ensures Valid() && trace == old(trace) + [Event.LeaveGate]
    {
      RunSnoc(first, trace, Event.LeaveGate);
      trace := trace + [Event.LeaveGate];
      host.LeaveGate();
    }

    /** A tool call that starts is on the current workspace, which is up. */
    method BeginTool(workspace: nat) returns (call: Option<nat>)
      requires Valid()
      modifies this`trace, host
      ensures Valid() && trace == old(trace) + [Event.BeginTool(workspace)]
      ensures call.Some? ==> ToolBegins(old(View()), View(), workspace, call.value)
      ensures call.None? ==> View() == old(View())
    {
      ValidIsReached();
      ToolPromise(View(), workspace);
      RunSnoc(first, trace, Event.BeginTool(workspace));
      trace := trace + [Event.BeginTool(workspace)];
      call := host.BeginTool(closing, workspace);
    }

    /** Ending a call again changes nothing. */
    method EndTool(call: nat)
      requires Valid()
      modifies this`trace, host
      ensures Valid() && trace == old(trace) + [Event.EndTool(call)]
      ensures View().host.tools == old(View().host.tools) - {call}
    {
      ValidIsReached();
      EndToolPromise(View(), call);
      RunSnoc(first, trace, Event.EndTool(call));
      trace := trace + [Event.EndTool(call)];
      host.EndTool(call);
    }

    // ------------------------------------------------------------ the switch

    /** A switch begins only to another root, with nobody using the current workspace. */
    method SwitchTo(target: Root, agents: bool, jobs: nat) returns (answer: SwitchAnswer)
      requires Valid()
      modifies this`trace, host
      ensures Valid() && trace == old(trace) + [Event.SwitchTo(target, agents, jobs)]
      ensures answer == Began ==> SwitchBegins(old(View()), View(), target)
      ensures answer != Began ==> View() == old(View())
    {
      ValidIsReached();
      SwitchPromise(View(), target, agents, jobs);
      RunSnoc(first, trace, Event.SwitchTo(target, agents, jobs));
      trace := trace + [Event.SwitchTo(target, agents, jobs)];
      var root := world.RootOf(host.current);
      var busy := manager.Busy(root, agents);
      answer := host.SwitchTo(target, busy, jobs);
    }

    /** The drain is over only when nothing is in flight and nothing uses the current workspace. */
    method Drain(timedOut: bool, agents: bool, jobs: nat)
      requires Valid()
      modifies this`trace, host
      ensures Valid() && trace == old(trace) + [Event.Drain(timedOut, agents, jobs)]
      ensures View().host.switching.Probing? && old(View().host.switching.Draining?) ==> jobs == 0 && Unused(View(), View().host.current) && View().host.inflight <= 0
      ensures View().host.current == old(View().host.current)
    {
      ValidIsReached();
      DrainPromise(View(), timedOut, agents, jobs);
      RunSnoc(first, trace, Event.Drain(timedOut, agents, jobs));
      trace := trace + [Event.Drain(timedOut, agents, jobs)];
      var root := world.RootOf(host.current);
      var busy := manager.Busy(root, agents);
      host.Drain(timedOut, busy, jobs);
    }

    /** Whatever the probe finds, the current workspace is untouched. */
    method Probe(served: bool, boots: bool, ready: bool)
      requires Valid()
      modifies this`trace, host, world
      ensures Valid() && trace == old(trace) + [Event.Probe(served, boots, ready)]
      ensures SparesCurrent(old(View()), View())
    {
      ValidIsReached();
      ProbePromise(View(), served, boots, ready);
      RunSnoc(first, trace, Event.Probe(served, boots, ready));
      trace := trace + [Event.Probe(served, boots, ready)];
      host.Probe(served, boots, ready);
    }

    /** The commit finds the old workspace unused and the new one up. */
    method Prepare(ok: bool)
      requires Valid()
      modifies this`trace, host, world
      ensures Valid() && trace == old(trace) + [Event.Prepare(ok)]
      ensures if View().host.current != old(View().host.current) then ok && Commits(old(View()), View()) else SparesCurrent(old(View()), View())
    {
      ValidIsReached();
      PreparePromise(View(), ok);
      RunSnoc(first, trace, Event.Prepare(ok));
      trace := trace + [Event.Prepare(ok)];
      host.Prepare(ok);
    }

    /** What is torn down is unused, and the current workspace is up. */
    method OldResourcesClosed()
      requires Valid()
      modifies this`trace, host, world
      ensures Valid() && trace == old(trace) + [Event.OldResourcesClosed]
      ensures old(View().host.switching.ClosingOldResources?) ==> Unused(View(), old(View().host.switching.prev)) && View().world.Serving(View().host.current)
    {
      ValidIsReached();
      TeardownPromise(View());
      RunSnoc(first, trace, Event.OldResourcesClosed);
      trace := trace + [Event.OldResourcesClosed];
      host.OldResourcesClosed();
    }

    /** The host is ready again only when the old workspace is down. */
    method OldServicesClosed()
      requires Valid()
      modifies this`trace, host
      ensures Valid() && trace == old(trace) + [Event.OldServicesClosed]
      ensures old(View().host.switching.ClosingOldServices?) && View().host.state == Ready ==> View().world.PhaseOf(old(View().host.switching.prev)) == Dead
    {
      ValidIsReached();
      ReadyPromise(View());
      RunSnoc(first, trace, Event.OldServicesClosed);
      trace := trace + [Event.OldServicesClosed];
      host.OldServicesClosed();
    }

    /** No workspace that is up dies. */
    method Died(inst: nat)
      requires Valid()
      modifies this`trace, world
      ensures Valid() && trace == old(trace) + [Event.Died(inst)]
      ensures forall i: nat :: old(View().world).Serving(i) ==> View().world.Serving(i)
    {
      ValidIsReached();
      DeathPromise(View().world, inst);
      RunSnoc(first, trace, Event.Died(inst));
      trace := trace + [Event.Died(inst)];
      world.EndShutdown(inst);
    }

    // ------------------------------------------------------- leased runtimes

    /** A lease that is granted is new, counted, and on a workspace that is up. */
    method Acquire(id: ProjectId, project: Option<Root>, boots: bool) returns (answer: Acquired)
      requires Valid()
      modifies this`trace, manager, world
      ensures Valid() && trace == old(trace) + [Event.Acquire(id, project, boots)]
      ensures answer.Granted? ==> LeaseGranted(old(View()), View(), answer.lease, answer.inst)
      ensures answer.Refused? ==> View() == old(View())
    {
      ValidIsReached();
      AcquirePromise(View(), id, project, boots);
      RunSnoc(first, trace, Event.Acquire(id, project, boots));
      trace := trace + [Event.Acquire(id, project, boots)];
      answer := manager.Acquire(host.current, host.state == Ready, id, project, boots);
    }

    /** A runtime that is published is up. */
    method FinishOpen(id: ProjectId, ok: bool)
      requires Valid()
      modifies this`trace, manager, world
      ensures Valid() && trace == old(trace) + [Event.FinishOpen(id, ok)]
      ensures ok && id in old(View().manager.opening) && old(View().manager.opening[id]).status.Building? ==> id in View().manager.runtimes && View().world.Serving(View().manager.runtimes[id])
      ensures View().manager.leases == old(View().manager.leases)
    {
      ValidIsReached();
      PublishPromise(View(), id, ok);
      RunSnoc(first, trace, Event.FinishOpen(id, ok));
      trace := trace + [Event.FinishOpen(id, ok)];
      manager.FinishOpen(id, ok);
    }

    method FinishDiscard(id: ProjectId)
      requires Valid()
      modifies this`trace, manager
      ensures Valid() && trace == old(trace) + [Event.FinishDiscard(id)]
      ensures View().manager.runtimes == old(View().manager.runtimes) && View().manager.leases == old(View().manager.leases)
    {
      RunSnoc(first, trace, Event.FinishDiscard(id));
      trace := trace + [Event.FinishDiscard(id)];
      manager.FinishDiscard(id);
    }

    /** Every waiter that gets a lease is on a workspace that is up. */
    method Resume(id: ProjectId, refused: set<nat>, registered: Root)
      requires Valid()
      modifies this`trace, manager
      ensures Valid() && trace == old(trace) + [Event.Resume(id, refused, registered)]
      ensures forall l :: l in View().manager.leases ==> View().world.Serving(View().manager.leases[l])
      ensures id in View().manager.opening ==> id in old(View()).manager.opening && (old(View()).manager.opening[id].status.Building? || old(View()).manager.opening[id].status.Discarding?)
    {
      ValidIsReached();
      ResumePromise(View(), id, refused, registered);
      RunSnoc(first, trace, Event.Resume(id, refused, registered));
      trace := trace + [Event.Resume(id, refused, registered)];
      manager.Resume(id, refused);
    }

    /** Releasing again changes nothing. */
    method Release(lease: nat)
      requires Valid()
      modifies this`trace, manager
      ensures Valid() && trace == old(trace) + [Event.Release(lease)]
      ensures View().manager.leases == old(View().manager.leases) - {lease}
    {
      ValidIsReached();
      ReleasePromise(View(), lease);
      RunSnoc(first, trace, Event.Release(lease));
      trace := trace + [Event.Release(lease)];
      manager.Release(lease);
    }

    /** A project starts closing only when nothing uses its runtime. */
    method CloseProject(id: ProjectId, agents: bool, jobs: nat, queued: bool) returns (answer: Closed)
      requires Valid()
      modifies this`trace, manager
      ensures Valid() && trace == old(trace) + [Event.CloseProject(id, agents, jobs, queued)]
      ensures answer == Started ==> id in View().manager.runtimes && jobs == 0 && !queued && Unused(View(), View().manager.runtimes[id])
      ensures answer != Started ==> View() == old(View())
    {
      ValidIsReached();
      ClosePromise(View(), id, agents, jobs, queued);
      RunSnoc(first, trace, Event.CloseProject(id, agents, jobs, queued));
      trace := trace + [Event.CloseProject(id, agents, jobs, queued)];
      answer := manager.CloseProject(id, agents, jobs, queued);
    }

    /** Only what is unused goes down. */
    method CloseProjectServices(id: ProjectId)
      requires Valid()
      modifies this`trace, manager, world
      ensures Valid() && trace == old(trace) + [Event.CloseProjectServices(id)]
      ensures forall i: nat :: old(View().world).Serving(i) && !View().world.Serving(i) ==> Unused(View(), i)
    {
      ValidIsReached();
      GoingDownPromise(first, trace, Event.CloseProjectServices(id));
      RunSnoc(first, trace, Event.CloseProjectServices(id));
      trace := trace + [Event.CloseProjectServices(id)];
      manager.CloseServices(id);
    }

    /** A runtime leaves the table only when it is down. */
    method FinishClose(id: ProjectId)
      requires Valid()
      modifies this`trace, manager
      ensures Valid() && trace == old(trace) + [Event.FinishClose(id)]
      ensures id in old(View().manager.runtimes) && id !in View().manager.runtimes ==> View().world.PhaseOf(old(View().manager.runtimes[id])) == Dead
    {
      ValidIsReached();
      FinishClosePromise(View(), id);
      RunSnoc(first, trace, Event.FinishClose(id));
      trace := trace + [Event.FinishClose(id)];
      manager.FinishClose(id);
    }

    // --------------------------------------------------------------- the end

    method BeginShutdown()
      requires Valid()
      modifies this`trace, manager
      ensures Valid() && trace == old(trace) + [Event.BeginShutdown]
      ensures View().manager.IsClosed()
    {
      RunSnoc(first, trace, Event.BeginShutdown);
      trace := trace + [Event.BeginShutdown];
      manager.BeginShutdown();
    }

    /** Behind this section no opening is pending. */
    method OpeningsSettled()
      requires Valid()
      modifies this`trace, manager
      ensures Valid() && trace == old(trace) + [Event.OpeningsSettled]
      ensures PastOpenings(View().manager.shutdown) ==> View().manager.opening.Keys == {}
    {
      ValidIsReached();
      ShutdownPromise(View(), Event.OpeningsSettled);
      RunSnoc(first, trace, Event.OpeningsSettled);
      trace := trace + [Event.OpeningsSettled];
      manager.OpeningsSettled();
    }

    /** Behind this section no lease is left. */
    method UsersDrained()
      requires Valid()
      modifies this`trace, manager
      ensures Valid() && trace == old(trace) + [Event.UsersDrained]
      ensures PastUsers(View().manager.shutdown) ==> View().manager.leases.Keys == {}
    {
      ValidIsReached();
      ShutdownPromise(View(), Event.UsersDrained);
      RunSnoc(first, trace, Event.UsersDrained);
      trace := trace + [Event.UsersDrained];
      manager.UsersDrained();
    }

    method ShutdownNext(id: ProjectId, jobs: nat, queued: bool)
      requires Valid()
      modifies this`trace, manager
      ensures Valid() && trace == old(trace) + [Event.ShutdownNext(id, jobs, queued)]
      ensures View().manager.leases == old(View().manager.leases) && View().manager.runtimes == old(View().manager.runtimes)
    {
      RunSnoc(first, trace, Event.ShutdownNext(id, jobs, queued));
      trace := trace + [Event.ShutdownNext(id, jobs, queued)];
      manager.ShutdownNext(id, jobs, queued);
    }

    /** The store closes only when no runtime and no lease is left. */
    method ShutdownDone()
      requires Valid()
      modifies this`trace, manager
      ensures Valid() && trace == old(trace) + [Event.ShutdownDone]
      ensures View().manager.shutdown == ShutDown && old(View().manager.shutdown) != ShutDown ==> View().manager.runtimes.Keys == {} && View().manager.leases.Keys == {}
    {
      ValidIsReached();
      ShutdownPromise(View(), Event.ShutdownDone);
      RunSnoc(first, trace, Event.ShutdownDone);
      trace := trace + [Event.ShutdownDone];
      manager.ShutdownDone();
    }

    method CloseHost()
      requires Valid()
      modifies this`trace, host
      ensures Valid() && trace == old(trace) + [Event.CloseHost]
      ensures View().host.current == old(View().host.current)
    {
      RunSnoc(first, trace, Event.CloseHost);
      trace := trace + [Event.CloseHost];
      if manager.shutdown == ShutDown {
        host.Close();
      }
    }

    /** The current workspace is torn down only when no tool call is left. */
    method HostDrained()
      requires Valid()
      modifies this`trace, host
      ensures Valid() && trace == old(trace) + [Event.HostDrained]
      ensures View().host.closing == ClosingResources ==> View().host.tools.Keys == {}
    {
      ValidIsReached();
      HostDrainPromise(View());
      RunSnoc(first, trace, Event.HostDrained);
      trace := trace + [Event.HostDrained];
      host.CloseDrained();
    }

    /** Only what is unused goes down. */
    method CloseHostServices()
      requires Valid()
      modifies this`trace, host, world
      ensures Valid() && trace == old(trace) + [Event.CloseHostServices]
      ensures forall i: nat :: old(View().world).Serving(i) && !View().world.Serving(i) ==> Unused(View(), i)
    {
      ValidIsReached();
      GoingDownPromise(first, trace, Event.CloseHostServices);
      RunSnoc(first, trace, Event.CloseHostServices);
      trace := trace + [Event.CloseHostServices];
      host.CloseServices();
    }

    /** `closing = true`: from here on no tool call starts. */
    method Stop()
      requires Valid()
      modifies this
      ensures Valid() && trace == old(trace) + [StopServer] && closing
    {
      RunSnoc(first, trace, StopServer);
      trace := trace + [StopServer];
      closing := true;
    }
  }
}
