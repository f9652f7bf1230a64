/** What every interleaving of switches, leases, tool calls, project closing and
    shutdown keeps. The statements are about states reached by any sequence of events. */
module LifecycleSafety {
  import opened Wrappers
  import opened Workspaces
  import opened InstallationRuntimes
  import opened WorkspaceHosts
  import opened Lifecycle

  lemma Reachable(root: Root, events: seq<Event>)
    ensures Inv(Run(Init(root), events))
  {
    InitInv(root);
    RunKeepsInv(Init(root), events);
  }

  /** No workspace is being torn down while a lease or a tool call still refers to it. */
  lemma ServicesOutliveTheirCallers(root: Root, events: seq<Event>)
    ensures var s := Run(Init(root), events);
            && (forall l :: l in s.manager.leases ==> s.world.Serving(s.manager.leases[l]))
            && (forall c :: c in s.host.tools ==> s.world.Serving(s.host.tools[c]))
  {
    Reachable(root, events);
    CallersServed(Run(Init(root), events));
  }

  lemma CallersServed(s: Server)
    requires Inv(s)
    ensures forall l :: l in s.manager.leases ==> s.world.Serving(s.manager.leases[l])
    ensures forall c :: c in s.host.tools ==> s.world.Serving(s.host.tools[c])
  {
    forall l | l in s.manager.leases
      ensures s.world.Serving(s.manager.leases[l])
    {
      assert Leasable(s.world, s.host.current, s.manager, s.manager.leases[l]);
    }
  }

  /** The totals the source keeps are the leases, and nothing leaks past the bounds. */
  lemma LeasesAreAccounted(root: Root, events: seq<Event>)
    ensures var s := Run(Init(root), events);
            && (forall r :: s.manager.Users(r) == |LeasesOn(s.world, s.manager, r)|)
            && |s.manager.runtimes.Keys + s.manager.opening.Keys| <= MAX_RUNTIMES
            && s.host.inflight == s.host.bodies + s.host.gated + |s.host.tools|
            && s.world.Exclusive()
  {
    Reachable(root, events);
  }

  /** In every state but `closed`, the current workspace and its resources are up. */
  lemma CurrentIsUp(root: Root, events: seq<Event>)
    ensures var s := Run(Init(root), events);
            s.host.state != HostState.Closed ==> s.world.Serving(s.host.current)
  {
    Reachable(root, events);
  }

  /** The current workspace changes in one kind of step only, the commit of a prepared
      switch. Then no tool call and no lease is left on the outgoing workspace, which is
      still whole, and the incoming one is up. */
  lemma TheSwapIsQuiet(root: Root, events: seq<Event>, e: Event)
    ensures var s := Run(Init(root), events);
            var s' := Step(s, e);
            s'.host.current != s.host.current ==>
              && e == Prepare(true)
              && s.host.switching == Preparing(s'.host.current)
              && s'.host.state == Switching
              && s.host.tools.Keys == {} && s'.host.tools.Keys == {}
              && s.manager.Users(s.world.RootOf(s.host.current)) == 0
              && s'.world.Serving(s.host.current)
              && s'.world.Serving(s'.host.current)
  {
    Reachable(root, events);
    var s := Run(Init(root), events);
    if Step(s, e).host.current != s.host.current {
      OnlyPrepareMoves(s, e);
      NoLeasesNoUsers(s.world, s.manager, s.host.current);
      StepKeepsInv(s, e);
      SwapServes(s);
    }
  }

  lemma OnlyPrepareMoves(s: Server, e: Event)
    ensures Step(s, e).host.current != s.host.current ==> e == Prepare(true) && s.host.switching.Preparing?
  {
  }

  lemma NoLeasesNoUsers(w: World, m: Manager, i: nat)
    requires UsersCounted(w, m) && w.Exclusive() && w.Serving(i)
    requires forall l :: l in m.leases ==> w.Serving(m.leases[l]) && m.leases[l] != i
    ensures m.Users(w.RootOf(i)) == 0
  {
    assert LeasesOn(w, m, w.RootOf(i)) == {};
  }

  lemma SwapServes(s: Server)
    requires Inv(s) && s.host.switching.Preparing?
    ensures Step(s, Prepare(true)).world.Serving(s.host.current)
    ensures Step(s, Prepare(true)).world.Serving(s.host.switching.next)
  {
  }

  /** A root can be built again exactly when every instance that had it is down: its lease is
      given back by the end of the shutdown and by nothing else. */
  lemma RootsAreFreedExactlyByDeath(root: Root, events: seq<Event>, r: Root, place: Place)
    ensures var w := Run(Init(root), events).world;
      w.Bootstrap(r, place, true).1.Some? <==> forall i: nat :: w.Has(i) && w.RootOf(i) == r ==> w.PhaseOf(i) == Dead
  {
    Reachable(root, events);
    var w := Run(Init(root), events).world;
    if r in w.leased {
      assert w.Alive(w.leased[r]);
    } else {
      forall i: nat | w.Has(i) && w.RootOf(i) == r ensures w.PhaseOf(i) == Dead {
        assert !w.Alive(i);
      }
    }
  }

  // -------------------------------------------- the outgoing workspace stays quiet

  lemma TeardownsMoveNothing(s: Server, e: Event)
    requires e.OldResourcesClosed? || e.CloseProjectServices? || e.CloseHostServices? || e.Died?
    ensures forall i: nat :: Step(s, e).world.PlaceOf(i) == s.world.PlaceOf(i)
  {
  }

  lemma BootstrapsMoveNothing(s: Server, e: Event)
    requires e.Acquire? || e.Probe?
    ensures forall i: nat :: s.world.Has(i) ==> Step(s, e).world.PlaceOf(i) == s.world.PlaceOf(i)
  {
  }

  lemma PrepareSparesOutgoing(w: World, h: Host, m: Manager, ok: bool, i: nat)
    requires Placed(w, h.current, h.switching, m) && w.PlaceOf(i) == Outgoing
    ensures h.Prepare(w, ok).1.PlaceOf(i) == Outgoing
  {
  }

  lemma OpeningsSpareOutgoing(w: World, current: nat, sw: Switch, m: Manager, id: ProjectId, ok: bool, i: nat)
    requires Placed(w, current, sw, m) && w.PlaceOf(i) == Outgoing
    ensures m.FinishOpen(w, id, ok).1.PlaceOf(i) == Outgoing
  {
  }

  lemma OutgoingStaysOutgoing(s: Server, e: Event, i: nat)
    requires Inv(s) && s.world.PlaceOf(i) == Outgoing
    ensures Step(s, e).world.PlaceOf(i) == Outgoing
  {
    if e.OldResourcesClosed? || e.CloseProjectServices? || e.CloseHostServices? || e.Died? {
      TeardownsMoveNothing(s, e);
    } else if e.Acquire? || e.Probe? {
      BootstrapsMoveNothing(s, e);
    } else if e.Prepare? {
      PrepareSparesOutgoing(s.world, s.host, s.manager, e.ok, i);
    } else if e.FinishOpen? {
      OpeningsSpareOutgoing(s.world, s.host.current, s.host.switching, s.manager, e.id, e.ok, i);
    } else {
      OthersKeepTheWorld(s, e);
    }
  }

  lemma OthersKeepTheWorld(s: Server, e: Event)
    requires !(e.OldResourcesClosed? || e.CloseProjectServices? || e.CloseHostServices? || e.Died?)
    requires !(e.Acquire? || e.Probe? || e.Prepare? || e.FinishOpen?)
    ensures Step(s, e).world == s.world
  {
  }

  lemma {:induction false} OutgoingForever(s: Server, events: seq<Event>, i: nat)
    requires Inv(s) && s.world.PlaceOf(i) == Outgoing
    ensures Inv(Run(s, events)) && Run(s, events).world.PlaceOf(i) == Outgoing
    decreases |events|
  {
    if events != [] {
      OutgoingStaysOutgoing(s, events[0], i);
      StepKeepsInv(s, events[0]);
      OutgoingForever(Step(s, events[0]), events[1..], i);
    }
  }

  /** Once swapped out, a workspace never again gets a tool call or a lease: the drain
      counts that were zero at the swap stay zero while it is torn down and after. */
  lemma SwappedOutStaysQuiet(root: Root, before: seq<Event>, e: Event, after: seq<Event>)
    ensures var s := Run(Init(root), before);
            var t := Run(Step(s, e), after);
            Step(s, e).host.current != s.host.current ==>
              && (forall l :: l in t.manager.leases ==> t.manager.leases[l] != s.host.current)
              && (forall c :: c in t.host.tools ==> t.host.tools[c] != s.host.current)
              && t.host.current != s.host.current
  {
    Reachable(root, before);
    var s := Run(Init(root), before);
    if Step(s, e).host.current != s.host.current {
      OnlyPrepareMoves(s, e);
      StepKeepsInv(s, e);
      SwapRetires(s);
      OutgoingForever(Step(s, e), after, s.host.current);
      OutgoingIsQuiet(Run(Step(s, e), after), s.host.current);
    }
  }

  lemma SwapRetires(s: Server)
    requires Inv(s) && s.host.switching.Preparing?
    ensures Step(s, Prepare(true)).world.PlaceOf(s.host.current) == Outgoing
  {
  }

  lemma OutgoingIsQuiet(s: Server, i: nat)
    requires Inv(s) && s.world.PlaceOf(i) == Outgoing
    ensures forall l :: l in s.manager.leases ==> s.manager.leases[l] != i
    ensures forall c :: c in s.host.tools ==> s.host.tools[c] != i
    ensures s.host.current != i
  {
    forall l | l in s.manager.leases
      ensures s.manager.leases[l] != i
    {
      assert Leasable(s.world, s.host.current, s.manager, s.manager.leases[l]);
    }
  }

  // ---------------------------------------------------------------- atomicity

  /** A switch that is given up before its commit leaves the current workspace, its
      resources, the runtimes and all leases exactly as they were. */
  lemma FailedSwitchChangesNothing(root: Root, events: seq<Event>, e: Event)
    ensures var s := Run(Init(root), events);
            var s' := Step(s, e);
            (s.host.switching.Draining? || s.host.switching.Probing? || s.host.switching.Preparing?) && s'.host.switching == NoSwitch ==>
              && s'.host.state == Ready
              && s'.host.current == s.host.current
              && s'.world.Has(s.host.current) && s.world.Has(s.host.current)
              && s'.world.instances[s.host.current] == s.world.instances[s.host.current]
              && s'.manager == s.manager
              && s'.host == s.host.(state := Ready, switching := NoSwitch)
  {
    Reachable(root, events);
    var s := Run(Init(root), events);
    if (s.host.switching.Draining? || s.host.switching.Probing? || s.host.switching.Preparing?)
       && Step(s, e).host.switching == NoSwitch {
      GivingUpKeepsCurrent(s, e);
    }
  }

  lemma GivingUpKeepsCurrent(s: Server, e: Event)
    requires Inv(s) && (s.host.switching.Draining? || s.host.switching.Probing? || s.host.switching.Preparing?)
    requires Step(s, e).host.switching == NoSwitch
    ensures e.Drain? || e.Probe? || e.Prepare?
    ensures Step(s, e).manager == s.manager && Step(s, e).host == s.host.Rollback()
    ensures Step(s, e).world.Has(s.host.current)
    ensures Step(s, e).world.instances[s.host.current] == s.world.instances[s.host.current]
  {
  }

  /** The teardown of the replaced workspace starts strictly after the commit, and a new
      switch is accepted only when that teardown is over. */
  lemma TeardownFollowsCommit(root: Root, events: seq<Event>)
    ensures var s := Run(Init(root), events);
            && (s.host.switching.ClosingOldResources? || s.host.switching.ClosingOldServices? ==>
                  s.host.state == Switching && s.host.current != s.host.switching.prev && s.world.Serving(s.host.current))
            && (s.host.switching == NoSwitch ==> s.host.state != Switching)
  {
    Reachable(root, events);
  }

  /** A workspace gets its resources only when it is handed over to serve. */
  ghost predicate OpensResourcesLast(w: World) {
    forall i: nat :: w.Has(i) && (w.PlaceOf(i) == Incoming || w.PlaceOf(i).OpeningFor?) ==> !w.instances[i].resources
  }

  lemma PrepareOpensLast(w: World, h: Host, ok: bool)
    requires OpensResourcesLast(w)
    ensures OpensResourcesLast(h.Prepare(w, ok).1)
  {
  }

  lemma FinishOpenOpensLast(w: World, m: Manager, id: ProjectId, ok: bool)
    requires OpensResourcesLast(w)
    ensures OpensResourcesLast(m.FinishOpen(w, id, ok).1)
  {
  }

  lemma BootstrapOpensLast(w: World, root: Root, place: Place, boots: bool)
    requires OpensResourcesLast(w)
    ensures OpensResourcesLast(w.Bootstrap(root, place, boots).0)
  {
  }

  lemma ProbeOpensLast(w: World, h: Host, served: bool, boots: bool, ready: bool)
    requires OpensResourcesLast(w)
    ensures OpensResourcesLast(h.Probe(w, served, boots, ready).1)
  {
    if h.switching.Probing? {
      BootstrapOpensLast(w, h.switching.target, Incoming, boots);
    }
  }

  lemma AcquireOpensLast(w: World, m: Manager, current: nat, ready: bool, id: ProjectId, project: Option<Root>, boots: bool)
    requires OpensResourcesLast(w)
    ensures OpensResourcesLast(m.Acquire(w, current, ready, id, project, boots).1)
  {
    if project.Some? {
      BootstrapOpensLast(w, project.value, OpeningFor(id), boots);
    }
  }

  lemma TeardownsOpenNothing(s: Server, e: Event)
    requires OpensResourcesLast(s.world)
    requires e.OldResourcesClosed? || e.CloseProjectServices? || e.CloseHostServices? || e.Died?
    ensures OpensResourcesLast(Step(s, e).world)
  {
  }

  lemma ResourcesStep(s: Server, e: Event)
    requires OpensResourcesLast(s.world)
    ensures OpensResourcesLast(Step(s, e).world)
  {
    if e.OldResourcesClosed? || e.CloseProjectServices? || e.CloseHostServices? || e.Died? {
      TeardownsOpenNothing(s, e);
    } else if e.Acquire? {
      AcquireOpensLast(s.world, s.manager, s.host.current, s.host.state == Ready, e.id, e.project, e.boots);
    } else if e.Probe? {
      ProbeOpensLast(s.world, s.host, e.served, e.boots, e.ready);
    } else if e.Prepare? {
      PrepareOpensLast(s.world, s.host, e.ok);
    } else if e.FinishOpen? {
      FinishOpenOpensLast(s.world, s.manager, e.id, e.ok);
    } else {
      OthersKeepTheWorld(s, e);
    }
  }

  lemma {:induction false} ResourcesOverRun(s: Server, events: seq<Event>)
    requires OpensResourcesLast(s.world)
    ensures OpensResourcesLast(Run(s, events).world)
    decreases |events|
  {
    if events != [] {
      ResourcesStep(s, events[0]);
      ResourcesOverRun(Step(s, events[0]), events[1..]);
    }
  }

  /** The only three steps that take a serving workspace down, and when each happens: the old
      one behind a commit, a closing runtime, or the current one at the end of the host; and
      then no lease and no tool call refers to it. So nothing of the old workspace goes down
      before the swap. */
  lemma OnlyTheseGoDown(root: Root, events: seq<Event>, e: Event, i: nat)
    ensures var s := Run(Init(root), events);
            s.world.Serving(i) && !Step(s, e).world.Serving(i) ==>
              && (|| (e.OldResourcesClosed? && s.host.switching == ClosingOldResources(i) && i != s.host.current && s.world.Serving(s.host.current))
                  || (e.CloseProjectServices? && e.id in s.manager.closing && e.id in s.manager.runtimes && s.manager.runtimes[e.id] == i)
                  || (e.CloseHostServices? && i == s.host.current && s.host.state == HostState.Closed))
              && (forall l :: l in s.manager.leases ==> s.manager.leases[l] != i)
              && (forall c :: c in s.host.tools ==> s.host.tools[c] != i)
  {
    Reachable(root, events);
    InitInv(root);
    ResourcesOverRun(Init(root), events);
    var s := Run(Init(root), events);
    if s.world.Serving(i) && !Step(s, e).world.Serving(i) {
      GoesDown(s, e, i);
      StepKeepsInv(s, e);
      CallersServed(Step(s, e));
      LeasesStay(s, e);
    }
  }

  lemma GoesDown(s: Server, e: Event, i: nat)
    requires Inv(s) && OpensResourcesLast(s.world) && s.world.Serving(i) && !Step(s, e).world.Serving(i)
    ensures e.OldResourcesClosed? || e.CloseProjectServices? || e.CloseHostServices?
    ensures e.OldResourcesClosed? ==> s.host.switching == ClosingOldResources(i) && i != s.host.current && s.world.Serving(s.host.current)
    ensures e.CloseProjectServices? ==> e.id in s.manager.closing && e.id in s.manager.runtimes && s.manager.runtimes[e.id] == i
    ensures e.CloseHostServices? ==> i == s.host.current && s.host.state == HostState.Closed
  {
    if e.Acquire? || e.Probe? {
      BootstrapsSpareServing(s, e, i);
    } else if e.Prepare? {
      PrepareSparesServing(s.world, s.host, s.manager, e.ok, i);
    } else if e.FinishOpen? {
      OpeningsSpareServing(s.world, s.host.current, s.host.switching, s.manager, e.id, e.ok, i);
    } else if e.OldResourcesClosed? {
      OldResourcesTouchOne(s.world, s.host, s.manager, i);
    } else if e.CloseProjectServices? {
      CloseServicesTouchOne(s.world, s.manager, e.id, i);
    } else if e.CloseHostServices? {
      HostServicesTouchOne(s.world, s.host, i);
    } else if e.Died? {
      DeathsTouchNone(s.world, e.inst, i);
    } else {
      OthersKeepTheWorld(s, e);
    }
  }

  lemma OldResourcesTouchOne(w: World, h: Host, m: Manager, i: nat)
    requires Placed(w, h.current, h.switching, m) && PlacesLive(w, h.current, h.closing, h.switching, m) && HostCounts(h)
    requires w.Serving(i) && !h.OldResourcesClosed(w).1.Serving(i)
    ensures h.switching == ClosingOldResources(i) && i != h.current && w.Serving(h.current)
  {
  }

  lemma CloseServicesTouchOne(w: World, m: Manager, id: ProjectId, i: nat)
    requires w.Serving(i) && !m.CloseServices(w, id).1.Serving(i)
    ensures id in m.closing && id in m.runtimes && m.runtimes[id] == i
  {
  }

  lemma HostServicesTouchOne(w: World, h: Host, i: nat)
    requires HostCounts(h) && w.Serving(i) && !h.CloseServices(w).1.Serving(i)
    ensures i == h.current && h.state == HostState.Closed
  {
  }

  lemma DeathsTouchNone(w: World, dead: nat, i: nat)
    requires w.Serving(i)
    ensures w.EndShutdown(dead).Serving(i)
  {
  }

  lemma BootstrapsSpareServing(s: Server, e: Event, i: nat)
    requires e.Acquire? || e.Probe?
    ensures s.world.Serving(i) ==> Step(s, e).world.Serving(i)
  {
  }

  lemma PrepareSparesServing(w: World, h: Host, m: Manager, ok: bool, i: nat)
    requires Placed(w, h.current, h.switching, m) && w.Serving(i) && OpensResourcesLast(w)
    ensures h.Prepare(w, ok).1.Serving(i)
  {
  }

  lemma OpeningsSpareServing(w: World, current: nat, sw: Switch, m: Manager, id: ProjectId, ok: bool, i: nat)
    requires Placed(w, current, sw, m) && w.Serving(i) && OpensResourcesLast(w)
    ensures m.FinishOpen(w, id, ok).1.Serving(i)
  {
  }

  lemma LeasesStay(s: Server, e: Event)
    requires e.OldResourcesClosed? || e.CloseProjectServices? || e.CloseHostServices?
    ensures Step(s, e).manager.leases == s.manager.leases && Step(s, e).host.tools == s.host.tools
  {
  }

  /** Only the part of a switch up to its outcome is exclusive: when preparing fails, the
      state returns to ready at once, so the next switch may start while the first call is
      still discarding the workspace it had built. */
  lemma RollbackOverlapsTheNextSwitch()
    ensures var s := Run(Init(0), [Event.SwitchTo(1, false, 0), Event.Drain(false, false, 0), Event.Probe(false, true, true),
                                   Event.Prepare(false), Event.SwitchTo(2, false, 0)]);
            && s.host.switching == Draining(2)
            && s.world.PhaseOf(1) == Phase.Closing && s.world.RootOf(1) == 1
  {
    var s0 := Init(0);
    var s1 := Step(s0, Event.SwitchTo(1, false, 0));
    var s2 := Step(s1, Event.Drain(false, false, 0));
    var s3 := Step(s2, Event.Probe(false, true, true));
    var s4 := Step(s3, Event.Prepare(false));
    var s5 := Step(s4, Event.SwitchTo(2, false, 0));
    assert s1.host.switching == Draining(1);
    assert s2.host.switching == Probing(1);
    assert s3.host.switching == Preparing(1);
    assert s5 == Run(s4, [Event.SwitchTo(2, false, 0)]);
    assert s5 == Run(s3, [Event.Prepare(false), Event.SwitchTo(2, false, 0)]);
    assert s5 == Run(s2, [Event.Probe(false, true, true), Event.Prepare(false), Event.SwitchTo(2, false, 0)]);
    assert s5 == Run(s1, [Event.Drain(false, false, 0), Event.Probe(false, true, true), Event.Prepare(false), Event.SwitchTo(2, false, 0)]);
  }
}
