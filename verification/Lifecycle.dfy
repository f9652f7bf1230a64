/** One server process as appServer.ts composes it: the workspace host, the runtime
    manager and the request gate over one set of workspace instances.

    An `Event` is one atomic section together with everything the section learns from
    outside (the registry and access rules, job counts, failures, timeouts). A run is any
    sequence of events, so a statement about all runs covers every interleaving. The root
    that the second registry check of `Resume` returns is in the event although the code
    does not look at it. */
module Lifecycle {
  import opened Wrappers
  import opened Common
  import opened Workspaces
  import opened InstallationRuntimes
  import opened WorkspaceHosts

  datatype Server = Server(world: World, host: Host, manager: Manager, closing: bool)

  datatype Event =
    | EnterBody | LeaveBody | PassGate(targeted: bool) | LeaveGate
    | BeginTool(workspace: nat) | EndTool(call: nat)
    | SwitchTo(target: Root, agents: bool, jobs: nat)
    | Drain(timedOut: bool, agents: bool, jobs: nat)
    | Probe(served: bool, boots: bool, ready: bool)
    | Prepare(ok: bool)
    | OldResourcesClosed | OldServicesClosed
    | Died(inst: nat)
    | Acquire(id: ProjectId, project: Option<Root>, boots: bool)
    | FinishOpen(id: ProjectId, ok: bool) | FinishDiscard(id: ProjectId)
    | Resume(id: ProjectId, refused: set<nat>, registered: Root)
    | Release(lease: nat)
    | CloseProject(id: ProjectId, agents: bool, jobs: nat, queued: bool)
    | CloseProjectServices(id: ProjectId) | FinishClose(id: ProjectId)
    | StopServer
    | BeginShutdown | OpeningsSettled | UsersDrained
    | ShutdownNext(id: ProjectId, jobs: nat, queued: bool) | ShutdownDone
    | CloseHost | HostDrained | CloseHostServices

  function Init(root: Root): Server {
    Server(World([Instance(root, Live, true, Default)], map[root := 0]),
           Host(0, Ready, 0, 0, 0, map[], 0, NoSwitch, NotClosing),
           Manager(map[], map[], map[], map[], map[], 0, Running),
           false)
  }

  /** `opts.busy` of the host: the runtime manager's answer for the active workspace. */
  predicate HostBusy(s: Server, agents: bool) {
    s.manager.IsBusy(s.world.RootOf(s.host.current), agents)
  }

  function Step(s: Server, e: Event): Server {
    match e
    case EnterBody => s.(host := s.host.EnterBody())
    case LeaveBody => s.(host := s.host.LeaveBody())
    case PassGate(targeted) => s.(host := s.host.PassGate(s.closing, targeted))
    case LeaveGate => s.(host := s.host.LeaveGate())
    case BeginTool(workspace) => s.(host := s.host.BeginTool(s.closing, workspace).0)
    case EndTool(call) => s.(host := s.host.EndTool(call))
    case SwitchTo(target, agents, jobs) => s.(host := s.host.SwitchTo(s.world, target, HostBusy(s, agents), jobs).0)
    case Drain(timedOut, agents, jobs) => s.(host := s.host.Drain(timedOut, HostBusy(s, agents), jobs))
    case Probe(served, boots, ready) =>
      var (h, w) := s.host.Probe(s.world, served, boots, ready);
      s.(host := h, world := w)
    case Prepare(ok) =>
      var (h, w) := s.host.Prepare(s.world, ok);
      s.(host := h, world := w)
    case OldResourcesClosed =>
      var (h, w) := s.host.OldResourcesClosed(s.world);
      s.(host := h, world := w)
    case OldServicesClosed => s.(host := s.host.OldServicesClosed(s.world))
    case Died(inst) => s.(world := s.world.EndShutdown(inst))
    case Acquire(id, project, boots) =>
      var (m, w, _) := s.manager.Acquire(s.world, s.host.current, s.host.state == Ready, id, project, boots);
      s.(manager := m, world := w)
    case FinishOpen(id, ok) =>
      var (m, w) := s.manager.FinishOpen(s.world, id, ok);
      s.(manager := m, world := w)
    case FinishDiscard(id) => s.(manager := s.manager.FinishDiscard(s.world, id))
    case Resume(id, refused, _) => s.(manager := s.manager.Resume(s.world, id, refused))
    case Release(lease) => s.(manager := s.manager.Release(s.world, lease))
    case CloseProject(id, agents, jobs, queued) =>
      s.(manager := s.manager.CloseProject(s.world, id, agents, jobs, queued).0)
    case CloseProjectServices(id) =>
      var (m, w) := s.manager.CloseServices(s.world, id);
      s.(manager := m, world := w)
    case FinishClose(id) => s.(manager := s.manager.FinishClose(s.world, id))
    case StopServer => s.(closing := true)
    case BeginShutdown => s.(manager := s.manager.BeginShutdown())
    case OpeningsSettled => s.(manager := s.manager.OpeningsSettled())
    case UsersDrained => s.(manager := s.manager.UsersDrained())
    case ShutdownNext(id, jobs, queued) => s.(manager := s.manager.ShutdownNext(s.world, id, jobs, queued))
    case ShutdownDone => s.(manager := s.manager.ShutdownDone())
    // `shutdown` closes the host only after the runtime manager has closed.
    case CloseHost => if s.manager.shutdown == ShutDown then s.(host := s.host.Close()) else s
    case HostDrained => s.(host := s.host.CloseDrained())
    case CloseHostServices =>
      var (h, w) := s.host.CloseServices(s.world);
      s.(host := h, world := w)
  }

  function Run(s: Server, events: seq<Event>): Server
    decreases |events|
  {
    if events == [] then s else Run(Step(s, events[0]), events[1..])
  }

  // ------------------------------------------------------------- the invariant

  /** The unreleased leases on the workspace with this root. */
  function LeasesOn(w: World, m: Manager, root: Root): set<nat> {
    set l | l in m.leases && w.RootOf(m.leases[l]) == root
  }

  /** Each part of the server holds the instance that was handed to it. */
  ghost predicate Placed(w: World, current: nat, sw: Switch, m: Manager) {
    && w.Has(current) && w.PlaceOf(current) == Default
    && (sw.Preparing? ==> w.Has(sw.next) && w.PlaceOf(sw.next) == Incoming)
    && (sw.ClosingOldResources? || sw.ClosingOldServices? ==> w.Has(sw.prev) && w.PlaceOf(sw.prev) == Outgoing)
    && (forall id :: id in m.runtimes ==> w.Has(m.runtimes[id]) && w.PlaceOf(m.runtimes[id]) == RuntimeOf(id))
    && (forall id :: id in m.opening && m.opening[id].status.Building? ==>
          w.Has(m.opening[id].status.inst) && w.PlaceOf(m.opening[id].status.inst) == OpeningFor(id))
  }

  ghost predicate OpeningsAgree(m: Manager) {
    && (forall id :: id in m.opening && m.opening[id].status.Opened? ==>
          id in m.runtimes && m.runtimes[id] == m.opening[id].status.inst)
    && (forall id :: id in m.opening && id in m.runtimes ==> m.opening[id].status.Opened?)
    && (forall id :: id in m.closing ==> id in m.runtimes && id !in m.opening)
  }

  /** At most sixteen projects are open or being opened. */
  ghost predicate Bounded(m: Manager) {
    |m.runtimes.Keys + m.opening.Keys| <= MAX_RUNTIMES
  }

  /** What is in a place that serves requests has not begun to be torn down. */
  ghost predicate PlacesLive(w: World, current: nat, closing: Closing, sw: Switch, m: Manager) {
    && (closing != Closing.ClosingServices ==> w.Serving(current))
    && (sw.Preparing? ==> w.PhaseOf(sw.next) == Live)
    && (sw.ClosingOldResources? ==> w.Serving(sw.prev))
    && (forall id :: id in m.runtimes && (id !in m.closing || m.closing[id] == ResourcesClosing) ==> w.Serving(m.runtimes[id]))
    && (forall id :: id in m.opening && m.opening[id].status.Building? ==> w.PhaseOf(m.opening[id].status.inst) == Live)
  }

  /** A lease is on the current workspace, or on a published runtime that is not closing. */
  predicate Leasable(w: World, current: nat, m: Manager, i: nat) {
    match w.PlaceOf(i)
    case Default => i == current
    case RuntimeOf(id) => id in m.runtimes && m.runtimes[id] == i && id !in m.closing
    case _ => false
  }

  ghost predicate LeasesPlaced(w: World, current: nat, sw: Switch, m: Manager) {
    && (forall l :: l in m.leases ==> l < m.granted && Leasable(w, current, m, m.leases[l]))
    && (sw.Probing? || sw.Preparing? ==> forall l :: l in m.leases ==> m.leases[l] != current)
  }

  ghost predicate UsersCounted(w: World, m: Manager) {
    forall root :: m.Users(root) == |LeasesOn(w, m, root)|
  }

  ghost predicate HostCounts(h: Host) {
    && h.inflight == h.bodies + h.gated + |h.tools|
    && (forall c :: c in h.tools ==> c < h.calls && h.tools[c] == h.current)
    && (h.state == Switching <==> h.switching != NoSwitch)
    && (h.state == HostState.Closed <==> h.closing != NotClosing)
    && (h.switching != NoSwitch && !h.switching.Draining? ==> h.tools.Keys == {})
    && (h.closing == ClosingResources || h.closing == Closing.ClosingServices ==> h.tools.Keys == {})
  }

  predicate PastOpenings(sd: Shutdown) {
    sd.DrainingUsers? || PastUsers(sd)
  }

  predicate PastUsers(sd: Shutdown) {
    sd.ClosingRuntimes? || sd.ShutDown? || sd.Aborted?
  }

  ghost predicate ShutdownAgrees(closing: Closing, m: Manager) {
    && (closing != NotClosing ==> m.shutdown == ShutDown)
    && (PastOpenings(m.shutdown) ==> m.opening.Keys == {})
    && (PastUsers(m.shutdown) ==> m.leases.Keys == {})
  }

  ghost predicate Inv(s: Server) {
    && s.world.Exclusive()
    && Placed(s.world, s.host.current, s.host.switching, s.manager)
    && OpeningsAgree(s.manager)
    && Bounded(s.manager)
    && PlacesLive(s.world, s.host.current, s.host.closing, s.host.switching, s.manager)
    && LeasesPlaced(s.world, s.host.current, s.host.switching, s.manager)
    && UsersCounted(s.world, s.manager)
    && HostCounts(s.host)
    && ShutdownAgrees(s.host.closing, s.manager)
  }

  // ---------------------------------------------- what the operations keep

  /** `w'` has the instances of `w` at the same places; only `i` may be otherwise changed. */
  ghost predicate Touches(w: World, w': World, i: nat) {
    && (forall j: nat :: w.Has(j) ==> w'.Has(j) && w'.RootOf(j) == w.RootOf(j) && w'.PlaceOf(j) == w.PlaceOf(j))
    && (forall j: nat :: w.Has(j) && j != i ==> w'.instances[j] == w.instances[j])
  }

  lemma BootstrapKeeps(w: World, root: Root, place: Place, boots: bool)
    requires w.Exclusive()
    ensures var (w', made) := w.Bootstrap(root, place, boots);
            && w'.Exclusive() && Touches(w, w', |w.instances|)
            && (made.Some? ==> made.value == |w.instances| && w'.instances == w.instances + [Instance(root, Live, false, place)])
            && (made.None? ==> w' == w)
  {
    var (w', made) := w.Bootstrap(root, place, boots);
    assert forall j: nat :: w'.Alive(j) <==> w.Alive(j) || made == Some(j);
    assert made.Some? ==> w'.RootOf(made.value) == root;
  }

  /** Anything but the end of a shutdown leaves the held leases as they are. */
  lemma UpdateKeeps(w: World, w': World, i: nat)
    requires w.Exclusive()
    requires |w'.instances| == |w.instances| && w'.leased == w.leased
    requires forall j: nat :: w.Has(j) && j != i ==> w'.instances[j] == w.instances[j]
    requires w'.RootOf(i) == w.RootOf(i) && (w'.PhaseOf(i) == Dead <==> w.PhaseOf(i) == Dead)
    ensures w'.Exclusive()
    ensures w'.PlaceOf(i) == w.PlaceOf(i) ==> Touches(w, w', i)
  {
    assert forall j: nat :: w'.Alive(j) <==> w.Alive(j);
    assert forall j: nat :: w'.RootOf(j) == w.RootOf(j);
  }

  lemma DeathKeeps(w: World, i: nat)
    requires w.Exclusive()
    ensures w.EndShutdown(i).Exclusive() && Touches(w, w.EndShutdown(i), i)
  {
    var w' := w.EndShutdown(i);
    if w.PhaseOf(i) == Phase.Closing {
      assert forall j: nat :: w'.RootOf(j) == w.RootOf(j);
      assert forall j: nat :: w'.Alive(j) <==> w.Alive(j) && j != i;
      assert w.Alive(i);
    }
  }

  /** What `Placed`, `LeasesPlaced` and `UsersCounted` say survives a touch. */
  lemma PlacesCarryOver(w: World, w': World, i: nat, current: nat, sw: Switch, m: Manager)
    requires Touches(w, w', i) && Placed(w, current, sw, m) && LeasesPlaced(w, current, sw, m) && UsersCounted(w, m)
    ensures Placed(w', current, sw, m) && LeasesPlaced(w', current, sw, m) && UsersCounted(w', m)
  {
    forall l | l in m.leases
      ensures w.Has(m.leases[l])
    {
      assert Leasable(w, current, m, m.leases[l]);
    }
    CountsCarryOver(w, w', m, m);
  }

  lemma CountsCarryOver(w: World, w': World, m: Manager, m': Manager)
    requires UsersCounted(w, m) && m'.leases == m.leases && m'.users == m.users
    requires forall l :: l in m.leases ==> w'.RootOf(m.leases[l]) == w.RootOf(m.leases[l])
    ensures UsersCounted(w', m')
  {
    forall root
      ensures m'.Users(root) == |LeasesOn(w', m', root)|
    {
      assert LeasesOn(w', m', root) == LeasesOn(w, m, root);
    }
  }

  /** A manager that only gave up openings, or let one of them end unpublished. */
  ghost predicate DropsOpenings(m: Manager, m': Manager) {
    && m' == m.(opening := m'.opening, shutdown := m'.shutdown)
    && m'.opening.Keys <= m.opening.Keys
    && (forall id :: id in m'.opening && !m'.opening[id].status.Failed? ==> m'.opening[id].status == m.opening[id].status)
    && (forall id :: id in m'.opening && id in m.runtimes ==> m'.opening[id].status == m.opening[id].status)
  }

  lemma DropsKeep(w: World, current: nat, closing: Closing, sw: Switch, m: Manager, m': Manager)
    requires DropsOpenings(m, m')
    requires Placed(w, current, sw, m) && PlacesLive(w, current, closing, sw, m)
    requires LeasesPlaced(w, current, sw, m) && UsersCounted(w, m)
    ensures Placed(w, current, sw, m') && PlacesLive(w, current, closing, sw, m')
    ensures LeasesPlaced(w, current, sw, m') && UsersCounted(w, m')
  {
    CountsCarryOver(w, w, m, m');
  }

  lemma DropsAgree(m: Manager, m': Manager)
    requires DropsOpenings(m, m') && OpeningsAgree(m) && Bounded(m)
    ensures OpeningsAgree(m') && Bounded(m')
  {
    SubsetSize(m'.runtimes.Keys + m'.opening.Keys, m.runtimes.Keys + m.opening.Keys);
  }

  lemma GrantCounts(w: World, m: Manager, inst: nat)
    requires UsersCounted(w, m) && m.granted !in m.leases
    ensures UsersCounted(w, m.Grant(inst, w.RootOf(inst)))
  {
    var m' := m.Grant(inst, w.RootOf(inst));
    forall root
      ensures m'.Users(root) == |LeasesOn(w, m', root)|
    {
      LeasesAfterGrant(w, m, inst, root);
    }
  }

  lemma LeasesAfterGrant(w: World, m: Manager, inst: nat, root: Root)
    requires m.granted !in m.leases
    ensures var on, more := LeasesOn(w, m, root), LeasesOn(w, m.Grant(inst, w.RootOf(inst)), root);
      if root == w.RootOf(inst) then m.granted !in on && more == on + {m.granted} else more == on
  {
  }

  lemma ReleaseCounts(w: World, m: Manager, lease: nat)
    requires UsersCounted(w, m) && lease in m.leases
    ensures UsersCounted(w, m.Release(w, lease))
  {
    var m' := m.Release(w, lease);
    forall root
      ensures m'.Users(root) == |LeasesOn(w, m', root)|
    {
      LeasesAfterRelease(w, m, lease, root);
    }
  }

  lemma LeasesAfterRelease(w: World, m: Manager, lease: nat, root: Root)
    requires lease in m.leases
    ensures var on, left := LeasesOn(w, m, root), LeasesOn(w, m.Release(w, lease), root);
      if root == w.RootOf(m.leases[lease]) then lease in on && left == on - {lease} else left == on
  {
  }

  lemma {:induction false} GrantAllKeeps(w: World, current: nat, sw: Switch, m: Manager, n: nat, refused: set<nat>, inst: nat)
    requires UsersCounted(w, m) && LeasesPlaced(w, current, sw, m)
    requires Leasable(w, current, m, inst) && inst != current
    ensures var m' := m.GrantAll(n, refused, inst, w.RootOf(inst));
            && UsersCounted(w, m') && LeasesPlaced(w, current, sw, m')
            && m' == m.(users := m'.users, leases := m'.leases, granted := m'.granted)
  {
    if n > 0 {
      GrantAllKeeps(w, current, sw, m, n - 1, refused, inst);
      GrantCounts(w, m.GrantAll(n - 1, refused, inst, w.RootOf(inst)), inst);
    }
  }

  /** The drained switch has asked `busy`, so no lease is left on the current workspace. */
  lemma NoUsersNoLeases(w: World, m: Manager, i: nat)
    requires UsersCounted(w, m) && m.Users(w.RootOf(i)) <= 0
    ensures forall l :: l in m.leases ==> m.leases[l] != i
  {
    assert LeasesOn(w, m, w.RootOf(i)) == {};
    assert forall l :: l in m.leases ==> l !in LeasesOn(w, m, w.RootOf(i));
  }

  // ----------------------------------------------------------- one step each

  lemma ManagerKeeps(s: Server, m: Manager)
    requires Inv(s)
    requires Placed(s.world, s.host.current, s.host.switching, m) && OpeningsAgree(m) && Bounded(m)
    requires PlacesLive(s.world, s.host.current, s.host.closing, s.host.switching, m)
    requires LeasesPlaced(s.world, s.host.current, s.host.switching, m) && UsersCounted(s.world, m)
    requires ShutdownAgrees(s.host.closing, m)
    ensures Inv(s.(manager := m))
  {
  }

  /** The invariant has one part for every pair of things that must agree. */
  lemma Assemble(s: Server, w: World, m: Manager)
    requires Inv(s) && w.Exclusive()
    requires Placed(w, s.host.current, s.host.switching, m) && OpeningsAgree(m) && Bounded(m)
    requires PlacesLive(w, s.host.current, s.host.closing, s.host.switching, m)
    requires LeasesPlaced(w, s.host.current, s.host.switching, m) && UsersCounted(w, m)
    requires ShutdownAgrees(s.host.closing, m)
    ensures Inv(s.(manager := m, world := w))
  {
  }

  lemma HostStepsKeep(s: Server, h: Host)
    requires Inv(s)
    requires HostCounts(h) && h.current == s.host.current && h.closing == s.host.closing
    requires h.switching == s.host.switching || h.switching == NoSwitch || h.switching.Draining?
    ensures Inv(s.(host := h))
  {
  }

  predicate KeepsPlaces(h: Host, h': Host) {
    h'.current == h.current && h'.closing == h.closing && h'.switching == h.switching
  }

  lemma GatesKeep(h: Host, appClosing: bool, targeted: bool)
    requires HostCounts(h)
    ensures HostCounts(h.PassGate(appClosing, targeted)) && HostCounts(h.LeaveGate())
    ensures KeepsPlaces(h, h.PassGate(appClosing, targeted)) && KeepsPlaces(h, h.LeaveGate())
  {
  }

  lemma ToolsKeep(h: Host, appClosing: bool, workspace: nat, call: nat)
    requires HostCounts(h)
    ensures HostCounts(h.BeginTool(appClosing, workspace).0)
    ensures HostCounts(h.EndTool(call))
  {
    if call in h.tools {
      assert h.tools.Keys == (h.tools - {call}).Keys + {call};
    }
  }

  lemma DrainKeeps(s: Server, timedOut: bool, agents: bool, jobs: nat)
    requires Inv(s)
    ensures Inv(s.(host := s.host.Drain(timedOut, HostBusy(s, agents), jobs)))
  {
    var h := s.host.Drain(timedOut, HostBusy(s, agents), jobs);
    if h.switching.Probing? && s.host.switching.Draining? {
      NoUsersNoLeases(s.world, s.manager, s.host.current);
    } else {
      HostStepsKeep(s, h);
    }
  }

  lemma RollbackKeeps(s: Server, w: World, i: nat)
    requires Inv(s) && w.Exclusive() && Touches(s.world, w, i)
    requires s.host.switching.Preparing? ==> s.host.switching.next == i
    requires !s.world.Has(i) || s.world.PlaceOf(i) == Incoming
    requires s.host.switching != NoSwitch && !s.host.switching.ClosingOldResources?
    ensures Inv(s.(host := s.host.Rollback(), world := w))
  {
    PlacesCarryOver(s.world, w, i, s.host.current, s.host.switching, s.manager);
    LiveCarriesOver(s.world, w, i, s.host.current, s.host.closing, s.host.switching, s.manager);
  }

  /** Touching an instance that serves nobody leaves every serving instance alone. */
  lemma LiveCarriesOver(w: World, w': World, i: nat, current: nat, closing: Closing, sw: Switch, m: Manager)
    requires Touches(w, w', i) && Placed(w, current, sw, m) && PlacesLive(w, current, closing, sw, m)
    requires !w.Has(i) || w.PlaceOf(i) == Incoming || w.PlaceOf(i) == Outgoing
    requires sw.ClosingOldResources? ==> sw.prev != i
    ensures PlacesLive(w', current, closing, if sw == Preparing(i) then NoSwitch else sw, m)
  {
  }

  lemma ProbeKeeps(s: Server, served: bool, boots: bool, ready: bool)
    requires Inv(s)
    ensures var (h, w) := s.host.Probe(s.world, served, boots, ready);
            Inv(s.(host := h, world := w))
  {
    if s.host.switching.Probing? {
      var n := |s.world.instances|;
      if served {
        RollbackKeeps(s, s.world, n);
      } else {
        BootstrapKeeps(s.world, s.host.switching.target, Incoming, boots);
        var (w, made) := s.world.Bootstrap(s.host.switching.target, Incoming, boots);
        if made.None? {
          RollbackKeeps(s, s.world, n);
        } else if ready {
          ProbeSucceedsKeeps(s, w);
        } else {
          UpdateKeeps(w, w.BeginShutdown(n), n);
          assert Touches(s.world, w.BeginShutdown(n), n);
          RollbackKeeps(s, w.BeginShutdown(n), n);
        }
      }
    }
  }

  lemma ProbeSucceedsKeeps(s: Server, w: World)
    requires Inv(s) && w.Exclusive() && s.host.switching.Probing?
    requires w.instances == s.world.instances + [Instance(s.host.switching.target, Live, false, Incoming)]
    ensures Inv(s.(host := s.host.(switching := Preparing(|s.world.instances|)), world := w))
  {
    PlacesCarryOver(s.world, w, |s.world.instances|, s.host.current, s.host.switching, s.manager);
  }

  lemma PrepareKeeps(s: Server, ok: bool)
    requires Inv(s)
    ensures var (h, w) := s.host.Prepare(s.world, ok);
            Inv(s.(host := h, world := w))
  {
    if s.host.switching.Preparing? {
      var next := s.host.switching.next;
      if ok {
        CommitKeeps(s);
      } else {
        UpdateKeeps(s.world, s.world.BeginShutdown(next), next);
        RollbackKeeps(s, s.world.BeginShutdown(next), next);
      }
    }
  }

  lemma CommitKeeps(s: Server)
    requires Inv(s) && s.host.switching.Preparing?
    ensures var (h, w) := s.host.Prepare(s.world, true);
            Inv(s.(host := h, world := w))
  {
    var next, current := s.host.switching.next, s.host.current;
    var w1 := s.world.OpenResources(next);
    var w2 := w1.Move(next, Default);
    var w3 := w2.Move(current, Outgoing);
    UpdateKeeps(s.world, w1, next);
    UpdateKeeps(w1, w2, next);
    UpdateKeeps(w2, w3, current);
    CommitPlaces(s.world, w3, current, next, s.manager);
    CommitLive(s.world, w3, current, next, s.manager);
    CountsCarryOver(s.world, w3, s.manager, s.manager);
  }

  /** The instances after the swap differ from those before it only at its two ends. */
  ghost predicate Swaps(w: World, w': World, current: nat, next: nat) {
    && w.Has(current) && w.Has(next) && |w'.instances| == |w.instances|
    && (forall j: nat :: w.Has(j) && j != current && j != next ==> w'.instances[j] == w.instances[j])
    && w'.instances[current] == w.instances[current].(place := Outgoing)
    && w'.instances[next] == w.instances[next].(place := Default, resources := true)
  }

  lemma CommitPlaces(w: World, w': World, current: nat, next: nat, m: Manager)
    requires Swaps(w, w', current, next)
    requires Placed(w, current, Preparing(next), m) && LeasesPlaced(w, current, Preparing(next), m)
    ensures Placed(w', next, ClosingOldResources(current), m)
    ensures LeasesPlaced(w', next, ClosingOldResources(current), m)
  {
  }

  lemma CommitLive(w: World, w': World, current: nat, next: nat, m: Manager)
    requires Swaps(w, w', current, next)
    requires Placed(w, current, Preparing(next), m) && PlacesLive(w, current, NotClosing, Preparing(next), m)
    ensures PlacesLive(w', next, NotClosing, ClosingOldResources(current), m)
  {
  }

  lemma OldResourcesKeep(s: Server)
    requires Inv(s)
    ensures var (h, w) := s.host.OldResourcesClosed(s.world);
            Inv(s.(host := h, world := w))
  {
    if s.host.switching.ClosingOldResources? {
      var prev, sw := s.host.switching.prev, s.host.switching;
      var w := s.world.CloseResources(prev).BeginShutdown(prev);
      UpdateKeeps(s.world, w, prev);
      PlacesCarryOver(s.world, w, prev, s.host.current, sw, s.manager);
      LiveCarriesOver(s.world, w, prev, s.host.current, s.host.closing, NoSwitch, s.manager);
    }
  }

  lemma DiedKeeps(s: Server, i: nat)
    requires Inv(s)
    ensures Inv(s.(world := s.world.EndShutdown(i)))
  {
    DeathKeeps(s.world, i);
    PlacesCarryOver(s.world, s.world.EndShutdown(i), i, s.host.current, s.host.switching, s.manager);
    DeathLive(s.world, i, s.host.current, s.host.closing, s.host.switching, s.manager);
  }

  /** Only an instance that is already closing dies. */
  lemma DeathLive(w: World, i: nat, current: nat, closing: Closing, sw: Switch, m: Manager)
    requires PlacesLive(w, current, closing, sw, m)
    ensures PlacesLive(w.EndShutdown(i), current, closing, sw, m)
  {
    assert forall j: nat :: w.Serving(j) ==> w.EndShutdown(i).Serving(j);
    assert forall j: nat :: w.PhaseOf(j) == Live ==> w.EndShutdown(i).PhaseOf(j) == Live;
  }

  lemma CloseHostKeeps(s: Server)
    requires Inv(s)
    ensures s.manager.shutdown == ShutDown ==> Inv(s.(host := s.host.Close()))
    ensures Inv(s.(host := s.host.CloseDrained()))
  {
  }

  lemma CloseHostServicesKeeps(s: Server)
    requires Inv(s)
    ensures var (h, w) := s.host.CloseServices(s.world);
            Inv(s.(host := h, world := w))
  {
    if s.host.closing == ClosingResources {
      var current := s.host.current;
      var w := s.world.CloseResources(current).BeginShutdown(current);
      UpdateKeeps(s.world, w, current);
      PlacesCarryOver(s.world, w, current, current, s.host.switching, s.manager);
    }
  }

  lemma AcquireKeeps(s: Server, id: ProjectId, project: Option<Root>, boots: bool)
    requires Inv(s)
    ensures var (m, w, _) := s.manager.Acquire(s.world, s.host.current, s.host.state == Ready, id, project, boots);
            Inv(s.(manager := m, world := w))
  {
    var m, w, current := s.manager, s.world, s.host.current;
    if m.IsClosed() || id in m.closing || project.None? {
    } else if w.RootOf(current) == project.value {
      if s.host.state == Ready {
        GrantKeeps(s, current);
      }
    } else if id in m.runtimes {
      GrantKeeps(s, m.runtimes[id]);
    } else if id in m.opening {
      JoinDrops(m, id);
      DropStepKeeps(s, Join(m, id));
    } else if |m.runtimes| + |m.opening| < MAX_RUNTIMES {
      StartOpenKeeps(s, id, project.value, boots);
    }
  }

  lemma GrantKeeps(s: Server, inst: nat)
    requires Inv(s) && !s.manager.IsClosed()
    requires Leasable(s.world, s.host.current, s.manager, inst)
    requires inst == s.host.current ==> s.host.state == Ready
    ensures Inv(s.(manager := s.manager.Grant(inst, s.world.RootOf(inst))))
  {
    GrantCounts(s.world, s.manager, inst);
  }

  function Join(m: Manager, id: ProjectId): Manager
    requires id in m.opening
  {
    m.(opening := m.opening[id := m.opening[id].(waiters := m.opening[id].waiters + 1)])
  }

  lemma JoinDrops(m: Manager, id: ProjectId)
    requires id in m.opening
    ensures DropsOpenings(m, Join(m, id))
  {
    assert Join(m, id).opening.Keys == m.opening.Keys;
  }

  lemma StartOpenKeeps(s: Server, id: ProjectId, root: Root, boots: bool)
    requires Inv(s) && !s.manager.IsClosed()
    requires id !in s.manager.runtimes && id !in s.manager.opening && id !in s.manager.closing
    requires |s.manager.runtimes| + |s.manager.opening| < MAX_RUNTIMES
    ensures var (w, made) := s.world.Bootstrap(root, OpeningFor(id), boots);
            var status := if made.Some? then Building(made.value) else Failed;
            Inv(s.(manager := s.manager.(opening := s.manager.opening[id := Opening(status, 1)]), world := w))
  {
    var m, n := s.manager, |s.world.instances|;
    BootstrapKeeps(s.world, root, OpeningFor(id), boots);
    var (w, made) := s.world.Bootstrap(root, OpeningFor(id), boots);
    var status := if made.Some? then Building(made.value) else Failed;
    StartOpenServerKeeps(s, w, id, Opening(status, 1));
  }

  predicate Starts(w: World, w': World, id: ProjectId, o: Opening) {
    o.status.Building? ==>
      && |w'.instances| == |w.instances| + 1 && o.status.inst == |w.instances|
      && w'.PlaceOf(o.status.inst) == OpeningFor(id) && w'.PhaseOf(o.status.inst) == Live
  }

  lemma StartOpenServerKeeps(s: Server, w: World, id: ProjectId, o: Opening)
    requires Inv(s) && !s.manager.IsClosed() && w.Exclusive()
    requires id !in s.manager.runtimes && id !in s.manager.opening && id !in s.manager.closing
    requires |s.manager.runtimes| + |s.manager.opening| < MAX_RUNTIMES
    requires Touches(s.world, w, |s.world.instances|) && Starts(s.world, w, id, o) && !o.status.Opened?
    ensures Inv(s.(manager := s.manager.(opening := s.manager.opening[id := o]), world := w))
  {
    var m, m' := s.manager, s.manager.(opening := s.manager.opening[id := o]);
    PlacesCarryOver(s.world, w, |s.world.instances|, s.host.current, s.host.switching, m);
    CountsCarryOver(w, w, m, m');
    StartOpenPlaces(s.world, w, s.host.current, s.host.closing, s.host.switching, m, id, o);
    StartOpenAgrees(m, id, o);
    StartOpenBounded(m, id, o);
    Assemble(s, w, m');
  }

  lemma StartOpenPlaces(w: World, w': World, current: nat, closing: Closing, sw: Switch, m: Manager, id: ProjectId, o: Opening)
    requires Touches(w, w', |w.instances|) && Placed(w', current, sw, m) && LeasesPlaced(w', current, sw, m)
    requires Placed(w, current, sw, m) && PlacesLive(w, current, closing, sw, m)
    requires Starts(w, w', id, o)
    ensures var m' := m.(opening := m.opening[id := o]);
            Placed(w', current, sw, m') && PlacesLive(w', current, closing, sw, m') && LeasesPlaced(w', current, sw, m')
  {
  }

  lemma StartOpenAgrees(m: Manager, id: ProjectId, o: Opening)
    requires OpeningsAgree(m) && id !in m.runtimes && id !in m.opening && id !in m.closing
    requires !o.status.Opened?
    ensures OpeningsAgree(m.(opening := m.opening[id := o]))
  {
  }

  lemma StartOpenBounded(m: Manager, id: ProjectId, o: Opening)
    requires |m.runtimes| + |m.opening| < MAX_RUNTIMES
    ensures Bounded(m.(opening := m.opening[id := o]))
  {
    UnionBound(m.runtimes.Keys, m.opening.Keys, id);
    assert m.opening[id := o].Keys == m.opening.Keys + {id};
  }

  lemma UnionBound(a: set<ProjectId>, b: set<ProjectId>, id: ProjectId)
    ensures |a + (b + {id})| <= |a| + |b| + 1
  {
    assert a + (b + {id}) == (a + b) + {id};
    assert |a + b| <= |a| + |b|;
  }

  lemma FinishOpenKeeps(s: Server, id: ProjectId, ok: bool)
    requires Inv(s)
    ensures var (m, w) := s.manager.FinishOpen(s.world, id, ok);
            Inv(s.(manager := m, world := w))
  {
    if id in s.manager.opening && s.manager.opening[id].status.Building? {
      if ok {
        PublishKeeps(s, id);
      } else {
        DiscardKeeps(s, id);
      }
    }
  }

  lemma DiscardKeeps(s: Server, id: ProjectId)
    requires Inv(s) && id in s.manager.opening && s.manager.opening[id].status.Building?
    ensures var (m, w) := s.manager.FinishOpen(s.world, id, false);
            Inv(s.(manager := m, world := w))
  {
    var m, inst := s.manager, s.manager.opening[id].status.inst;
    var (m', w) := m.FinishOpen(s.world, id, false);
    UpdateKeeps(s.world, w, inst);
    DiscardServerKeeps(s, w, m', id);
  }

  predicate Discards(m: Manager, m': Manager, id: ProjectId) {
    && id in m.opening && m.opening[id].status.Building?
    && m' == m.(opening := m.opening[id := m.opening[id].(status := Discarding(m.opening[id].status.inst))])
  }

  lemma DiscardServerKeeps(s: Server, w: World, m': Manager, id: ProjectId)
    requires Inv(s) && w.Exclusive() && Discards(s.manager, m', id)
    requires Touches(s.world, w, s.manager.opening[id].status.inst)
    ensures Inv(s.(manager := m', world := w))
  {
    var m, inst := s.manager, s.manager.opening[id].status.inst;
    PlacesCarryOver(s.world, w, inst, s.host.current, s.host.switching, m);
    DiscardPlaced(w, s.host.current, s.host.switching, m, m', id);
    DiscardLive(s.world, w, s.host.current, s.host.closing, s.host.switching, m, m', id);
    DiscardLeases(w, s.host.current, s.host.switching, m, m', id);
    CountsCarryOver(w, w, m, m');
    DiscardKeepsKeys(m, m', id);
  }

  lemma DiscardKeepsKeys(m: Manager, m': Manager, id: ProjectId)
    requires Discards(m, m', id)
    ensures m'.opening.Keys == m.opening.Keys
  {
  }

  lemma DiscardPlaced(w: World, current: nat, sw: Switch, m: Manager, m': Manager, id: ProjectId)
    requires Discards(m, m', id) && Placed(w, current, sw, m)
    ensures Placed(w, current, sw, m')
  {
  }

  lemma DiscardLive(w: World, w': World, current: nat, closing: Closing, sw: Switch, m: Manager, m': Manager, id: ProjectId)
    requires Discards(m, m', id) && id !in m.runtimes && Touches(w, w', m.opening[id].status.inst)
    requires Placed(w, current, sw, m) && PlacesLive(w, current, closing, sw, m)
    ensures PlacesLive(w', current, closing, sw, m')
  {
  }

  lemma DiscardLeases(w: World, current: nat, sw: Switch, m: Manager, m': Manager, id: ProjectId)
    requires Discards(m, m', id) && LeasesPlaced(w, current, sw, m)
    ensures LeasesPlaced(w, current, sw, m')
  {
  }

  function Publish(m: Manager, id: ProjectId, inst: nat): Manager
    requires id in m.opening
  {
    m.(runtimes := m.runtimes[id := inst], opening := m.opening[id := m.opening[id].(status := Opened(inst))])
  }

  lemma PublishKeeps(s: Server, id: ProjectId)
    requires Inv(s) && id in s.manager.opening && s.manager.opening[id].status.Building?
    ensures var (m, w) := s.manager.FinishOpen(s.world, id, true);
            Inv(s.(manager := m, world := w))
  {
    var m, inst := s.manager, s.manager.opening[id].status.inst;
    var w := s.world.OpenResources(inst).Move(inst, RuntimeOf(id));
    UpdateKeeps(s.world, w, inst);
    PublishServerKeeps(s, w, id, inst);
  }

  lemma PublishServerKeeps(s: Server, w: World, id: ProjectId, inst: nat)
    requires Inv(s) && w.Exclusive() && Publishes(s.world, w, inst, id)
    requires id in s.manager.opening && s.manager.opening[id].status == Building(inst)
    ensures Inv(s.(manager := Publish(s.manager, id, inst), world := w))
  {
    var m := s.manager;
    PublishPlaces(s.world, w, s.host.current, s.host.closing, s.host.switching, m, id, inst);
    PublishLeases(s.world, w, s.host.current, s.host.switching, m, id, inst);
    CountsCarryOver(s.world, w, m, Publish(m, id, inst));
    PublishAgrees(m, id, inst);
    PublishBounded(m, id, inst);
  }

  lemma PublishBounded(m: Manager, id: ProjectId, inst: nat)
    requires Bounded(m) && id in m.opening
    ensures Bounded(Publish(m, id, inst))
  {
    PublishKeys(m.runtimes, m.opening, id, inst);
  }

  lemma PublishKeys(runtimes: map<ProjectId, nat>, opening: map<ProjectId, Opening>, id: ProjectId, inst: nat)
    requires id in opening
    ensures runtimes[id := inst].Keys + opening[id := opening[id].(status := Opened(inst))].Keys == runtimes.Keys + opening.Keys
  {
    assert opening[id := opening[id].(status := Opened(inst))].Keys == opening.Keys;
    assert runtimes[id := inst].Keys == runtimes.Keys + {id};
  }

  lemma PublishAgrees(m: Manager, id: ProjectId, inst: nat)
    requires OpeningsAgree(m) && id in m.opening && id !in m.runtimes
    ensures OpeningsAgree(Publish(m, id, inst))
  {
  }

  /** The instance built for `id` gets its resources and is published. */
  ghost predicate Publishes(w: World, w': World, inst: nat, id: ProjectId) {
    && w.Has(inst) && |w'.instances| == |w.instances|
    && (forall j: nat :: w.Has(j) && j != inst ==> w'.instances[j] == w.instances[j])
    && w'.instances[inst] == w.instances[inst].(resources := true, place := RuntimeOf(id))
  }

  lemma PublishPlaces(w: World, w': World, current: nat, closing: Closing, sw: Switch, m: Manager, id: ProjectId, inst: nat)
    requires Publishes(w, w', inst, id) && w.PlaceOf(inst) == OpeningFor(id) && w.PhaseOf(inst) == Live
    requires id in m.opening && id !in m.closing && id !in m.runtimes
    requires Placed(w, current, sw, m) && PlacesLive(w, current, closing, sw, m)
    ensures Placed(w', current, sw, Publish(m, id, inst)) && PlacesLive(w', current, closing, sw, Publish(m, id, inst))
  {
  }

  lemma PublishLeases(w: World, w': World, current: nat, sw: Switch, m: Manager, id: ProjectId, inst: nat)
    requires Publishes(w, w', inst, id) && w.PlaceOf(inst) == OpeningFor(id)
    requires id in m.opening && id !in m.runtimes
    requires LeasesPlaced(w, current, sw, m)
    ensures LeasesPlaced(w', current, sw, Publish(m, id, inst))
  {
    forall l | l in m.leases
      ensures m.leases[l] != inst && w.Has(m.leases[l])
    {
      assert Leasable(w, current, m, m.leases[l]);
    }
  }

  lemma DropStepKeeps(s: Server, m: Manager)
    requires Inv(s) && DropsOpenings(s.manager, m)
    requires m.shutdown == s.manager.shutdown
    ensures Inv(s.(manager := m))
  {
    DropsKeep(s.world, s.host.current, s.host.closing, s.host.switching, s.manager, m);
    DropsAgree(s.manager, m);
  }

  lemma ResumeKeeps(s: Server, id: ProjectId, refused: set<nat>)
    requires Inv(s)
    ensures Inv(s.(manager := s.manager.Resume(s.world, id, refused)))
  {
    var m := s.manager;
    if id in m.opening && (m.opening[id].status.Opened? || m.opening[id].status.Failed?) {
      var o, m1 := m.opening[id], m.(opening := m.opening - {id});
      DropStepKeeps(s, m1);
      if o.status.Opened? && !m.IsClosed() && id !in m.closing {
        GrantAllKeeps(s.world, s.host.current, s.host.switching, m1, o.waiters, refused, o.status.inst);
        LeaseStepKeeps(s.(manager := m1), m.Resume(s.world, id, refused));
      }
    }
  }

  /** A step that only hands out or returns leases. */
  lemma LeaseStepKeeps(s: Server, m: Manager)
    requires Inv(s) && m == s.manager.(users := m.users, leases := m.leases, granted := m.granted)
    requires UsersCounted(s.world, m) && LeasesPlaced(s.world, s.host.current, s.host.switching, m)
    requires PastUsers(m.shutdown) ==> m.leases.Keys == {}
    ensures Inv(s.(manager := m))
  {
  }

  lemma ReleaseKeeps(s: Server, lease: nat)
    requires Inv(s)
    ensures Inv(s.(manager := s.manager.Release(s.world, lease)))
  {
    if lease in s.manager.leases {
      ReleaseCounts(s.world, s.manager, lease);
      LeaseStepKeeps(s, s.manager.Release(s.world, lease));
    }
  }

  lemma CloseProjectKeeps(s: Server, id: ProjectId, agents: bool, jobs: nat, queued: bool)
    requires Inv(s)
    ensures Inv(s.(manager := s.manager.CloseProject(s.world, id, agents, jobs, queued).0))
  {
    var m := s.manager;
    var (m', answer) := m.CloseProject(s.world, id, agents, jobs, queued);
    if answer == Started {
      NoUsersNoLeases(s.world, m, m.runtimes[id]);
      CountsCarryOver(s.world, s.world, m, m');
    }
  }

  lemma CloseProjectServicesKeeps(s: Server, id: ProjectId)
    requires Inv(s)
    ensures var (m, w) := s.manager.CloseServices(s.world, id);
            Inv(s.(manager := m, world := w))
  {
    var m := s.manager;
    if id in m.closing && m.closing[id] == ResourcesClosing && id in m.runtimes {
      var (m', w) := m.CloseServices(s.world, id);
      UpdateKeeps(s.world, w, m.runtimes[id]);
      ServicesClosingKeeps(s, w, m', id);
    }
  }

  lemma ServicesClosingKeeps(s: Server, w: World, m': Manager, id: ProjectId)
    requires Inv(s) && w.Exclusive()
    requires id in s.manager.runtimes && id in s.manager.closing && Touches(s.world, w, s.manager.runtimes[id])
    requires m' == s.manager.(closing := s.manager.closing[id := ServicesClosing])
    ensures Inv(s.(manager := m', world := w))
  {
    var m := s.manager;
    PlacesCarryOver(s.world, w, m.runtimes[id], s.host.current, s.host.switching, m);
    ClosingLive(s.world, w, s.host.current, s.host.closing, s.host.switching, m, m', id);
    CountsCarryOver(w, w, m, m');
  }

  lemma ClosingLive(w: World, w': World, current: nat, closing: Closing, sw: Switch, m: Manager, m': Manager, id: ProjectId)
    requires id in m.runtimes && id in m.closing && Touches(w, w', m.runtimes[id])
    requires m' == m.(closing := m.closing[id := ServicesClosing])
    requires Placed(w, current, sw, m) && PlacesLive(w, current, closing, sw, m)
    ensures PlacesLive(w', current, closing, sw, m')
  {
  }

  lemma FinishCloseKeeps(s: Server, id: ProjectId)
    requires Inv(s)
    ensures Inv(s.(manager := s.manager.FinishClose(s.world, id)))
  {
    var m, m' := s.manager, s.manager.FinishClose(s.world, id);
    FinishCloseCounts(s.world, m, id);
    FinishCloseAgrees(s.world, m, id);
    FinishClosePlaces(s.world, s.host.current, s.host.closing, s.host.switching, m, id);
    FinishCloseShutdown(s.world, s.host.closing, m, id);
    ManagerKeeps(s, m');
  }

  lemma FinishCloseCounts(w: World, m: Manager, id: ProjectId)
    requires UsersCounted(w, m)
    ensures UsersCounted(w, m.FinishClose(w, id))
  {
    CountsCarryOver(w, w, m, m.FinishClose(w, id));
  }

  lemma FinishCloseShutdown(w: World, closing: Closing, m: Manager, id: ProjectId)
    requires ShutdownAgrees(closing, m)
    ensures ShutdownAgrees(closing, m.FinishClose(w, id))
  {
  }

  lemma FinishCloseAgrees(w: World, m: Manager, id: ProjectId)
    requires OpeningsAgree(m) && Bounded(m)
    ensures OpeningsAgree(m.FinishClose(w, id)) && Bounded(m.FinishClose(w, id))
  {
    SubsetSize((m.runtimes - {id}).Keys + m.opening.Keys, m.runtimes.Keys + m.opening.Keys);
  }

  lemma FinishClosePlaces(w: World, current: nat, closing: Closing, sw: Switch, m: Manager, id: ProjectId)
    requires Placed(w, current, sw, m) && PlacesLive(w, current, closing, sw, m) && LeasesPlaced(w, current, sw, m)
    ensures var m' := m.FinishClose(w, id);
            Placed(w, current, sw, m') && PlacesLive(w, current, closing, sw, m') && LeasesPlaced(w, current, sw, m')
  {
  }

  /** A step of `close()` that only moves its own progress. */
  lemma ShutdownPhaseKeeps(s: Server, m: Manager)
    requires Inv(s) && m == s.manager.(shutdown := m.shutdown)
    requires s.host.closing == NotClosing || m.shutdown == ShutDown
    requires PastOpenings(m.shutdown) ==> m.opening.Keys == {}
    requires PastUsers(m.shutdown) ==> m.leases.Keys == {}
    ensures Inv(s.(manager := m))
  {
    CountsCarryOver(s.world, s.world, s.manager, m);
    DropsKeep(s.world, s.host.current, s.host.closing, s.host.switching, s.manager, m);
    DropsAgree(s.manager, m);
  }

  lemma BeginShutdownKeeps(s: Server)
    requires Inv(s)
    ensures Inv(s.(manager := s.manager.BeginShutdown()))
  {
    ShutdownPhaseKeeps(s, s.manager.BeginShutdown());
  }

  lemma OpeningsSettledKeeps(s: Server)
    requires Inv(s)
    ensures Inv(s.(manager := s.manager.OpeningsSettled()))
  {
    ShutdownPhaseKeeps(s, s.manager.OpeningsSettled());
  }

  lemma ShutdownDoneKeeps(s: Server)
    requires Inv(s)
    ensures Inv(s.(manager := s.manager.ShutdownDone()))
  {
    ShutdownPhaseKeeps(s, s.manager.ShutdownDone());
  }

  lemma UsersDrainedKeeps(s: Server)
    requires Inv(s)
    ensures Inv(s.(manager := s.manager.UsersDrained()))
  {
    var m, m' := s.manager, s.manager.UsersDrained();
    if m'.shutdown != m.shutdown {
      NoUsersNoLeasesAtAll(s.world, m);
    }
    ShutdownPhaseKeeps(s, m');
  }

  lemma NoUsersNoLeasesAtAll(w: World, m: Manager)
    requires UsersCounted(w, m) && forall r :: r in m.users ==> m.users[r] <= 0
    ensures m.leases.Keys == {}
  {
    forall l | l in m.leases
      ensures false
    {
      NoUsersNoLeases(w, m, m.leases[l]);
    }
  }

  lemma ShutdownMovesKeeps(s: Server, to: Shutdown)
    requires Inv(s) && s.manager.shutdown.ClosingRuntimes? && (to.ClosingRuntimes? || to.Aborted?)
    ensures Inv(s.(manager := s.manager.(shutdown := to)))
  {
    ShutdownPhaseKeeps(s, s.manager.(shutdown := to));
  }

  lemma ShutdownNextCases(w: World, m: Manager, id: ProjectId, jobs: nat, queued: bool)
    ensures var (c, answer) := m.CloseProject(w, id, false, jobs, queued);
            || m.ShutdownNext(w, id, jobs, queued) == m
            || (m.shutdown.ClosingRuntimes? && c.shutdown.ClosingRuntimes?
                && m.ShutdownNext(w, id, jobs, queued) == c.(shutdown := if answer == Busy then Aborted else ClosingRuntimes(Some(id))))
  {
  }

  lemma ShutdownNextKeeps(s: Server, id: ProjectId, jobs: nat, queued: bool)
    requires Inv(s)
    ensures Inv(s.(manager := s.manager.ShutdownNext(s.world, id, jobs, queued)))
  {
    ShutdownNextCases(s.world, s.manager, id, jobs, queued);
    var m' := s.manager.ShutdownNext(s.world, id, jobs, queued);
    if m' != s.manager {
      CloseProjectKeeps(s, id, false, jobs, queued);
      var c := s.manager.CloseProject(s.world, id, false, jobs, queued).0;
      ShutdownMovesKeeps(s.(manager := c), m'.shutdown);
    }
  }

  lemma BodyStepKeepsInv(s: Server, e: Event)
    requires Inv(s) && (e.EnterBody? || e.LeaveBody?)
    ensures Inv(Step(s, e))
  {
    HostStepsKeep(s, if e.EnterBody? then s.host.EnterBody() else s.host.LeaveBody());
  }

  lemma PassGateKeepsInv(s: Server, targeted: bool)
    requires Inv(s)
    ensures Inv(Step(s, PassGate(targeted)))
  {
    GatesKeep(s.host, s.closing, targeted);
    HostStepsKeep(s, s.host.PassGate(s.closing, targeted));
  }

  lemma LeaveGateKeepsInv(s: Server)
    requires Inv(s)
    ensures Inv(Step(s, LeaveGate))
  {
    GatesKeep(s.host, s.closing, false);
    HostStepsKeep(s, s.host.LeaveGate());
  }

  lemma BeginToolKeepsInv(s: Server, workspace: nat)
    requires Inv(s)
    ensures Inv(Step(s, BeginTool(workspace)))
  {
    ToolsKeep(s.host, s.closing, workspace, 0);
    HostStepsKeep(s, s.host.BeginTool(s.closing, workspace).0);
  }

  lemma EndToolKeepsInv(s: Server, call: nat)
    requires Inv(s)
    ensures Inv(Step(s, EndTool(call)))
  {
    ToolsKeep(s.host, s.closing, 0, call);
    HostStepsKeep(s, s.host.EndTool(call));
  }

  lemma SwitchStepKeepsInv(s: Server, e: Event)
    requires Inv(s) && (e.SwitchTo? || e.Drain? || e.Probe? || e.Prepare?)
    ensures Inv(Step(s, e))
  {
    match e
    case SwitchTo(target, agents, jobs) => HostStepsKeep(s, s.host.SwitchTo(s.world, target, HostBusy(s, agents), jobs).0);
    case Drain(timedOut, agents, jobs) => DrainKeeps(s, timedOut, agents, jobs);
    case Probe(served, boots, ready) => ProbeKeeps(s, served, boots, ready);
    case Prepare(ok) => PrepareKeeps(s, ok);
  }

  lemma TeardownStepKeepsInv(s: Server, e: Event)
    requires Inv(s) && (e.OldResourcesClosed? || e.OldServicesClosed?)
    ensures Inv(Step(s, e))
  {
    match e
    case OldResourcesClosed => OldResourcesKeep(s);
    case OldServicesClosed => HostStepsKeep(s, s.host.OldServicesClosed(s.world));
  }

  lemma OpenStepKeepsInv(s: Server, e: Event)
    requires Inv(s) && (e.FinishOpen? || e.FinishDiscard? || e.Resume?)
    ensures Inv(Step(s, e))
  {
    match e
    case FinishOpen(id, ok) => FinishOpenKeeps(s, id, ok);
    case FinishDiscard(id) => DropStepKeeps(s, s.manager.FinishDiscard(s.world, id));
    case Resume(id, refused, _) => ResumeKeeps(s, id, refused);
  }

  lemma LeaseStepKeepsInv(s: Server, e: Event)
    requires Inv(s) && (e.Acquire? || e.Release?)
    ensures Inv(Step(s, e))
  {
    match e
    case Acquire(id, project, boots) => AcquireKeeps(s, id, project, boots);
    case Release(lease) => ReleaseKeeps(s, lease);
  }

  lemma CloseProjectStepKeepsInv(s: Server, e: Event)
    requires Inv(s) && (e.Died? || e.CloseProject? || e.CloseProjectServices? || e.FinishClose?)
    ensures Inv(Step(s, e))
  {
    match e
    case Died(inst) => DiedKeeps(s, inst);
    case CloseProject(id, agents, jobs, queued) => CloseProjectKeeps(s, id, agents, jobs, queued);
    case CloseProjectServices(id) => CloseProjectServicesKeeps(s, id);
    case FinishClose(id) => FinishCloseKeeps(s, id);
  }

  lemma CloseHostStepKeepsInv(s: Server, e: Event)
    requires Inv(s) && (e.StopServer? || e.CloseHost? || e.HostDrained? || e.CloseHostServices?)
    ensures Inv(Step(s, e))
  {
    match e
    case StopServer =>
    case CloseHost => CloseHostKeeps(s);
    case HostDrained => CloseHostKeeps(s);
    case CloseHostServices => CloseHostServicesKeeps(s);
  }

  lemma ShutdownStepKeepsInv(s: Server, e: Event)
    requires Inv(s) && (e.BeginShutdown? || e.OpeningsSettled?)
    ensures Inv(Step(s, e))
  {
    match e
    case BeginShutdown => BeginShutdownKeeps(s);
    case OpeningsSettled => OpeningsSettledKeeps(s);
  }

  lemma ShutdownRuntimesStepKeepsInv(s: Server, e: Event)
    requires Inv(s) && (e.UsersDrained? || e.ShutdownNext? || e.ShutdownDone?)
    ensures Inv(Step(s, e))
  {
    match e
    case UsersDrained => UsersDrainedKeeps(s);
    case ShutdownNext(id, jobs, queued) => ShutdownNextKeeps(s, id, jobs, queued);
    case ShutdownDone => ShutdownDoneKeeps(s);
  }

  lemma StepKeepsInv(s: Server, e: Event)
    requires Inv(s)
    ensures Inv(Step(s, e))
  {
    match e
    case EnterBody | LeaveBody => BodyStepKeepsInv(s, e);
    case PassGate(targeted) => PassGateKeepsInv(s, targeted);
    case LeaveGate => LeaveGateKeepsInv(s);
    case BeginTool(workspace) => BeginToolKeepsInv(s, workspace);
    case EndTool(call) => EndToolKeepsInv(s, call);
    case SwitchTo(_, _, _) | Drain(_, _, _) | Probe(_, _, _) | Prepare(_) => SwitchStepKeepsInv(s, e);
    case OldResourcesClosed | OldServicesClosed => TeardownStepKeepsInv(s, e);
    case FinishOpen(_, _) | FinishDiscard(_) | Resume(_, _, _) => OpenStepKeepsInv(s, e);
    case Acquire(_, _, _) | Release(_) => LeaseStepKeepsInv(s, e);
    case Died(_) | CloseProject(_, _, _, _) | CloseProjectServices(_) | FinishClose(_) => CloseProjectStepKeepsInv(s, e);
    case StopServer | CloseHost | HostDrained | CloseHostServices => CloseHostStepKeepsInv(s, e);
    case BeginShutdown | OpeningsSettled => ShutdownStepKeepsInv(s, e);
    case UsersDrained | ShutdownNext(_, _, _) | ShutdownDone => ShutdownRuntimesStepKeepsInv(s, e);
  }

  lemma {:induction false} RunKeepsInv(s: Server, events: seq<Event>)
    requires Inv(s)
    ensures Inv(Run(s, events))
    decreases |events|
  {
    if events != [] {
      StepKeepsInv(s, events[0]);
      RunKeepsInv(Step(s, events[0]), events[1..]);
    }
  }

  lemma InitInv(root: Root)
    ensures Inv(Init(root))
  {
    assert forall r :: LeasesOn(Init(root).world, Init(root).manager, r) == {};
  }
}
