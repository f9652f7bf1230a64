/** What each section of the server promises its caller, in every state that a run leads to. */
module LifecyclePromises {
  import opened Wrappers
  import opened Workspaces
  import opened InstallationRuntimes
  import opened WorkspaceHosts
  import opened Lifecycle
  import opened LifecycleSafety

  /** No lease and no tool call refers to the instance. */
  predicate Unused(s: Server, i: nat) {
    && (forall l :: l in s.manager.leases ==> s.manager.leases[l] != i)
    && (forall c :: c in s.host.tools ==> s.host.tools[c] != i)
  }

  lemma {:induction false} RunAppend(s: Server, events: seq<Event>, more: seq<Event>)
    ensures Run(s, events + more) == Run(Run(s, events), more)
    decreases |events|
  {
    if events == [] {
      assert events + more == more;
    } else {
      assert (events + more)[1..] == events[1..] + more;
      RunAppend(Step(s, events[0]), events[1..], more);
    }
  }

  lemma RunOne(s: Server, e: Event)
    ensures Run(s, [e]) == Step(s, e)
  {
    assert [e][1..] == [];
  }

  lemma RunSnoc(root: Root, events: seq<Event>, e: Event)
    ensures Run(Init(root), events + [e]) == Step(Run(Init(root), events), e)
  {
    RunAppend(Init(root), events, [e]);
    RunOne(Run(Init(root), events), e);
  }

  ghost predicate Reached(s: Server) {
    exists root, events :: s == Run(Init(root), events)
  }

  lemma ReachedKeepsInv(s: Server)
    requires Reached(s)
    ensures Inv(s)
  {
    var root, events :| s == Run(Init(root), events);
    Reachable(root, events);
  }

  lemma ReachedStep(s: Server, e: Event)
    requires Reached(s)
    ensures Reached(Step(s, e))
  {
    var root, events :| s == Run(Init(root), events);
    RunSnoc(root, events, e);
  }

  lemma ReachedPlaces(s: Server)
    requires Reached(s)
    ensures Placed(s.world, s.host.current, s.host.switching, s.manager)
    ensures PlacesLive(s.world, s.host.current, s.host.closing, s.host.switching, s.manager)
    ensures HostCounts(s.host)
  {
    ReachedKeepsInv(s);
  }

  lemma ReachedCounts(s: Server)
    requires Reached(s)
    ensures UsersCounted(s.world, s.manager)
    ensures LeasesPlaced(s.world, s.host.current, s.host.switching, s.manager)
  {
    ReachedKeepsInv(s);
  }

  lemma ReachedShutdown(s: Server)
    requires Reached(s)
    ensures ShutdownAgrees(s.host.closing, s.manager)
  {
    ReachedKeepsInv(s);
  }

  // ------------------------------------------------------------ requests and tools

  lemma GatePromise(s: Server, targeted: bool)
    requires Reached(s)
    ensures !targeted && s.host.state == Ready ==> Step(s, PassGate(targeted)).world.Serving(Step(s, PassGate(targeted)).host.current)
  {
    ReachedPlaces(s);
  }

  predicate ToolBegins(s: Server, s': Server, workspace: nat, call: nat) {
    && workspace == s'.host.current && s'.world.Serving(workspace)
    && call !in s.host.tools && s'.host.tools == s.host.tools[call := workspace]
  }

  lemma ToolPromise(s: Server, workspace: nat)
    requires Reached(s)
    ensures var call := s.host.BeginTool(s.closing, workspace).1;
      if call.Some? then ToolBegins(s, Step(s, Event.BeginTool(workspace)), workspace, call.value)
      else Step(s, Event.BeginTool(workspace)) == s
  {
    ReachedPlaces(s);
  }

  lemma EndToolPromise(s: Server, call: nat)
    ensures Step(s, Event.EndTool(call)).host.tools == s.host.tools - {call}
  {
  }

  // -------------------------------------------------------------------- the switch

  predicate SwitchBegins(s: Server, s': Server, target: Root) {
    && target != s.world.RootOf(s.host.current)
    && s' == s.(host := s.host.(state := Switching, switching := Draining(target)))
    && forall l :: l in s.manager.leases ==> s.manager.leases[l] != s.host.current
  }

  lemma SwitchPromise(s: Server, target: Root, agents: bool, jobs: nat)
    requires Reached(s)
    ensures var answer := s.host.SwitchTo(s.world, target, HostBusy(s, agents), jobs).1;
      var s' := Step(s, Event.SwitchTo(target, agents, jobs));
      if answer == Began then SwitchBegins(s, s', target) && jobs == 0 else s' == s
  {
    ReachedKeepsInv(s);
    if !HostBusy(s, agents) {
      NoUsersNoLeases(s.world, s.manager, s.host.current);
    }
  }

  lemma DrainPromise(s: Server, timedOut: bool, agents: bool, jobs: nat)
    requires Reached(s)
    ensures var s' := Step(s, Event.Drain(timedOut, agents, jobs));
      && s'.host.current == s.host.current
      && (s'.host.switching.Probing? && s.host.switching.Draining? ==> jobs == 0 && s'.host.inflight <= 0 && Unused(s', s'.host.current))
  {
    ReachedKeepsInv(s);
    if !HostBusy(s, agents) {
      NoUsersNoLeases(s.world, s.manager, s.host.current);
    }
    if s.host.inflight <= 0 {
      assert |s.host.tools| == 0;
    }
  }

  predicate SparesCurrent(s: Server, s': Server) {
    && s'.host.current == s.host.current && s'.manager == s.manager
    && s.world.Has(s.host.current) && s'.world.Has(s.host.current)
    && s'.world.instances[s.host.current] == s.world.instances[s.host.current]
  }

  lemma ProbePromise(s: Server, served: bool, boots: bool, ready: bool)
    requires Reached(s)
    ensures SparesCurrent(s, Step(s, Event.Probe(served, boots, ready)))
  {
    ReachedPlaces(s);
    ProbeSpares(s.world, s.host, served, boots, ready);
  }

  lemma ProbeSpares(w: World, h: Host, served: bool, boots: bool, ready: bool)
    requires w.Has(h.current)
    ensures var (h', w') := h.Probe(w, served, boots, ready);
      h'.current == h.current && w'.Has(h.current) && w'.instances[h.current] == w.instances[h.current]
  {
  }

  predicate Commits(s: Server, s': Server) {
    && s.host.switching == Preparing(s'.host.current)
    && s'.world.Serving(s.host.current) && s'.world.Serving(s'.host.current) && Unused(s', s.host.current)
  }

  lemma PreparePromise(s: Server, ok: bool)
    requires Reached(s)
    ensures var s' := Step(s, Event.Prepare(ok));
      if s'.host.current != s.host.current then ok && Commits(s, s') else SparesCurrent(s, s')
  {
    ReachedKeepsInv(s);
    if ok && s.host.switching.Preparing? {
      SwapServes(s);
      StepKeepsInv(s, Event.Prepare(true));
      SwapRetires(s);
      OutgoingIsQuiet(Step(s, Event.Prepare(true)), s.host.current);
    } else {
      PrepareFails(s, ok);
    }
  }

  lemma PrepareFails(s: Server, ok: bool)
    requires Inv(s) && !(ok && s.host.switching.Preparing?)
    ensures SparesCurrent(s, Step(s, Event.Prepare(ok)))
  {
  }

  lemma TeardownPromise(s: Server)
    requires Reached(s)
    ensures var s' := Step(s, Event.OldResourcesClosed);
      s.host.switching.ClosingOldResources? ==> Unused(s', s.host.switching.prev) && s'.world.Serving(s'.host.current)
  {
    if s.host.switching.ClosingOldResources? {
      ReachedKeepsInv(s);
      OutgoingIsQuiet(s, s.host.switching.prev);
      TeardownSpares(s);
      LeasesStay(s, Event.OldResourcesClosed);
    }
  }

  lemma TeardownSpares(s: Server)
    requires Reached(s) && s.host.switching.ClosingOldResources?
    ensures Step(s, Event.OldResourcesClosed).world.Serving(s.host.current)
  {
    ReachedPlaces(s);
  }

  lemma ReadyPromise(s: Server)
    requires Reached(s)
    ensures s.host.switching.ClosingOldServices? && Step(s, Event.OldServicesClosed).host.state == Ready ==>
      s.world.PhaseOf(s.host.switching.prev) == Dead && Step(s, Event.OldServicesClosed).world == s.world
  {
    ReachedPlaces(s);
  }

  lemma DeathPromise(w: World, inst: nat)
    ensures forall i: nat :: w.Serving(i) ==> w.EndShutdown(inst).Serving(i)
  {
  }

  // --------------------------------------------------------------- leased runtimes

  predicate LeaseGranted(s: Server, s': Server, lease: nat, inst: nat) {
    && lease !in s.manager.leases && s'.manager.leases == s.manager.leases[lease := inst]
    && s'.world.Serving(inst)
    && s'.manager.Users(s'.world.RootOf(inst)) == s.manager.Users(s'.world.RootOf(inst)) + 1
  }

  lemma AcquirePromise(s: Server, id: ProjectId, project: Option<Root>, boots: bool)
    requires Reached(s)
    ensures var answer := s.manager.Acquire(s.world, s.host.current, s.host.state == Ready, id, project, boots).2;
      var s' := Step(s, Event.Acquire(id, project, boots));
      && (answer.Granted? ==> LeaseGranted(s, s', answer.lease, answer.inst))
      && (answer.Refused? ==> s' == s)
  {
    ReachedPlaces(s);
    ReachedCounts(s);
    AcquireGrants(s.world, s.host, s.manager, id, project, boots);
  }

  lemma AcquireGrants(w: World, h: Host, m: Manager, id: ProjectId, project: Option<Root>, boots: bool)
    requires PlacesLive(w, h.current, h.closing, h.switching, m) && HostCounts(h) && m.granted !in m.leases
    ensures var (m', w', answer) := m.Acquire(w, h.current, h.state == Ready, id, project, boots);
      && (answer.Granted? ==>
            && answer.lease !in m.leases && m'.leases == m.leases[answer.lease := answer.inst]
            && w' == w && w.Serving(answer.inst)
            && m'.Users(w.RootOf(answer.inst)) == m.Users(w.RootOf(answer.inst)) + 1)
      && (answer.Refused? ==> m' == m && w' == w)
  {
  }

  lemma PublishPromise(s: Server, id: ProjectId, ok: bool)
    requires Reached(s)
    ensures var s' := Step(s, Event.FinishOpen(id, ok));
      && s'.manager.leases == s.manager.leases
      && (ok && id in s.manager.opening && s.manager.opening[id].status.Building? ==>
            id in s'.manager.runtimes && s'.world.Serving(s'.manager.runtimes[id]))
  {
    ReachedPlaces(s);
    PublishServes(s.world, s.host, s.manager, id, ok);
  }

  lemma PublishServes(w: World, h: Host, m: Manager, id: ProjectId, ok: bool)
    requires Placed(w, h.current, h.switching, m) && PlacesLive(w, h.current, h.closing, h.switching, m)
    ensures var (m', w') := m.FinishOpen(w, id, ok);
      && m'.leases == m.leases
      && (ok && id in m.opening && m.opening[id].status.Building? ==> id in m'.runtimes && w'.Serving(m'.runtimes[id]))
  {
  }

  lemma ResumePromise(s: Server, id: ProjectId, refused: set<nat>, registered: Root)
    requires Reached(s)
    ensures var s' := Step(s, Event.Resume(id, refused, registered));
      && (forall l :: l in s'.manager.leases ==> s'.world.Serving(s'.manager.leases[l]))
      && (id in s'.manager.opening ==> s.manager.opening[id].status.Building? || s.manager.opening[id].status.Discarding?)
  {
    ReachedKeepsInv(s);
    StepKeepsInv(s, Event.Resume(id, refused, registered));
    CallersServed(Step(s, Event.Resume(id, refused, registered)));
    ResumeSettles(s.manager, s.world, id, refused);
  }

  lemma ResumeSettles(m: Manager, w: World, id: ProjectId, refused: set<nat>)
    ensures var m' := m.Resume(w, id, refused);
      id in m'.opening ==> id in m.opening && (m.opening[id].status.Building? || m.opening[id].status.Discarding?)
  {
    if id in m.opening && m.opening[id].status.Opened? {
      var o := m.opening[id];
      GrantAllKeepsOpening(m.(opening := m.opening - {id}), o.waiters, refused, o.status.inst, w.RootOf(o.status.inst));
    }
  }

  lemma {:induction false} GrantAllKeepsOpening(m: Manager, n: nat, refused: set<nat>, inst: nat, root: Root)
    ensures m.GrantAll(n, refused, inst, root).opening == m.opening
  {
    if n > 0 {
      GrantAllKeepsOpening(m, n - 1, refused, inst, root);
    }
  }

  lemma ReleasePromise(s: Server, lease: nat)
    ensures Step(s, Event.Release(lease)).manager.leases == s.manager.leases - {lease}
  {
  }

  lemma ClosePromise(s: Server, id: ProjectId, agents: bool, jobs: nat, queued: bool)
    requires Reached(s)
    ensures var answer := s.manager.CloseProject(s.world, id, agents, jobs, queued).1;
      var s' := Step(s, Event.CloseProject(id, agents, jobs, queued));
      if answer == Started then id in s'.manager.runtimes && jobs == 0 && !queued && Unused(s', s'.manager.runtimes[id]) else s' == s
  {
    ReachedPlaces(s);
    ReachedCounts(s);
    if id in s.manager.runtimes && !s.manager.IsBusy(s.world.RootOf(s.manager.runtimes[id]), agents) {
      NoUsersNoLeases(s.world, s.manager, s.manager.runtimes[id]);
    }
  }

  lemma FinishClosePromise(s: Server, id: ProjectId)
    ensures var s' := Step(s, Event.FinishClose(id));
      id in s.manager.runtimes && id !in s'.manager.runtimes ==> s'.world.PhaseOf(s.manager.runtimes[id]) == Dead
  {
  }

  lemma GoingDownPromise(root: Root, events: seq<Event>, e: Event)
    requires e.CloseProjectServices? || e.CloseHostServices?
    ensures var s := Run(Init(root), events);
      forall i: nat :: s.world.Serving(i) && !Step(s, e).world.Serving(i) ==> Unused(Step(s, e), i)
  {
    var s := Run(Init(root), events);
    LeasesStay(s, e);
    forall i: nat | s.world.Serving(i) && !Step(s, e).world.Serving(i) ensures Unused(Step(s, e), i) {
      OnlyTheseGoDown(root, events, e, i);
    }
  }

  // ------------------------------------------------------------------------ the end

  lemma ShutdownPromise(s: Server, e: Event)
    requires Reached(s) && (e.OpeningsSettled? || e.UsersDrained? || e.ShutdownDone?)
    ensures var m := Step(s, e).manager;
      && (PastOpenings(m.shutdown) ==> m.opening.Keys == {})
      && (PastUsers(m.shutdown) ==> m.leases.Keys == {})
      && (m.shutdown == ShutDown && s.manager.shutdown != ShutDown ==> m.runtimes.Keys == {} && m.leases.Keys == {})
  {
    ReachedStep(s, e);
    ReachedShutdown(Step(s, e));
  }

  lemma HostDrainPromise(s: Server)
    requires Reached(s)
    ensures Step(s, Event.HostDrained).host.closing == ClosingResources ==> Step(s, Event.HostDrained).host.tools.Keys == {}
  {
    ReachedStep(s, Event.HostDrained);
    ReachedPlaces(Step(s, Event.HostDrained));
  }
}
