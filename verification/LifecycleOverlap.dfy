/** When a failed switch overlaps the next one: a switch that gives up is ready again at once,
    and its call goes on shutting down the workspace it had built. */
module LifecycleOverlap {
  import opened Wrappers
  import opened Workspaces
  import opened InstallationRuntimes
  import opened WorkspaceHosts
  import opened Lifecycle
  import opened LifecycleSafety

  /** A built workspace that is up and not yet swapped in is the one being prepared. */
  ghost predicate IncomingIsPrepared(w: World, sw: Switch) {
    forall i: nat :: w.Has(i) && w.PlaceOf(i) == Incoming && w.PhaseOf(i) == Live ==> sw == Preparing(i)
  }

  predicate IsDiscarding(w: World, i: nat) {
    w.Has(i) && w.PlaceOf(i) == Incoming && w.PhaseOf(i) == Phase.Closing
  }

  /** The workspaces that failed switches are still shutting down. */
  function Discarding(w: World): set<nat> {
    set i: nat | i < |w.instances| && IsDiscarding(w, i)
  }

  /** What the event leaves for its call to shut down: the probe found the new workspace not
      ready, or its resources failed. */
  function Discarded(s: Server, e: Event): set<nat> {
    if e.Probe? && s.host.switching.Probing? && !e.served && e.boots && s.host.switching.target !in s.world.leased && !e.ready then
      {|s.world.instances|}
    else if e == Event.Prepare(false) && s.host.switching.Preparing? then {s.host.switching.next}
    else {}
  }

  function Settled(e: Event): set<nat> {
    if e.Died? then {e.inst} else {}
  }

  // ------------------------------------------------------------ one step

  /** Instances other than `i` are as they were, and `i` is not incoming before or after. */
  ghost predicate SparesIncoming(w: World, w': World) {
    && |w.instances| <= |w'.instances|
    && (forall i: nat :: w'.Has(i) && w'.PlaceOf(i) == Incoming ==> w.Has(i) && w'.instances[i].phase == w.instances[i].phase && w.PlaceOf(i) == Incoming)
    && (forall i: nat :: w.Has(i) && w.PlaceOf(i) == Incoming ==> w'.PlaceOf(i) == Incoming)
  }

  lemma SparedStays(w: World, w': World)
    requires SparesIncoming(w, w')
    ensures Discarding(w') == Discarding(w)
  {
    forall i: nat ensures IsDiscarding(w', i) <==> IsDiscarding(w, i) {
    }
  }

  lemma AcquireSpares(w: World, m: Manager, current: nat, ready: bool, id: ProjectId, project: Option<Root>, boots: bool)
    ensures SparesIncoming(w, m.Acquire(w, current, ready, id, project, boots).1)
  {
    if project.Some? {
      BootstrapSpares(w, project.value, id, boots);
    }
  }

  lemma BootstrapSpares(w: World, root: Root, id: ProjectId, boots: bool)
    ensures SparesIncoming(w, w.Bootstrap(root, OpeningFor(id), boots).0)
  {
  }

  lemma FinishOpenSpares(w: World, current: nat, sw: Switch, m: Manager, id: ProjectId, ok: bool)
    requires Placed(w, current, sw, m)
    ensures SparesIncoming(w, m.FinishOpen(w, id, ok).1)
  {
  }

  lemma CloseServicesSpare(w: World, current: nat, sw: Switch, m: Manager, id: ProjectId)
    requires Placed(w, current, sw, m)
    ensures SparesIncoming(w, m.CloseServices(w, id).1)
  {
  }

  lemma HostClosesSpare(w: World, h: Host, m: Manager)
    requires Placed(w, h.current, h.switching, m)
    ensures SparesIncoming(w, h.OldResourcesClosed(w).1) && SparesIncoming(w, h.CloseServices(w).1)
  {
  }

  lemma DiedSettles(w: World, i: nat, sw: Switch)
    requires IncomingIsPrepared(w, sw)
    ensures IncomingIsPrepared(w.EndShutdown(i), sw)
    ensures Discarding(w.EndShutdown(i)) == Discarding(w) - {i}
  {
    var w' := w.EndShutdown(i);
    forall j: nat ensures IsDiscarding(w', j) <==> IsDiscarding(w, j) && j != i {
    }
  }

  lemma ProbeDiscards(s: Server, e: Event)
    requires IncomingIsPrepared(s.world, s.host.switching) && e.Probe?
    ensures var s' := Step(s, e);
      IncomingIsPrepared(s'.world, s'.host.switching) && Discarding(s'.world) == Discarding(s.world) + Discarded(s, e)
  {
    var s' := Step(s, e);
    forall j: nat ensures IsDiscarding(s'.world, j) <==> IsDiscarding(s.world, j) || j in Discarded(s, e) {
    }
  }

  lemma PrepareDiscards(s: Server, ok: bool)
    requires Placed(s.world, s.host.current, s.host.switching, s.manager)
    requires PlacesLive(s.world, s.host.current, s.host.closing, s.host.switching, s.manager)
    requires IncomingIsPrepared(s.world, s.host.switching)
    ensures var (h, w) := s.host.Prepare(s.world, ok);
      IncomingIsPrepared(w, h.switching) && Discarding(w) == Discarding(s.world) + Discarded(s, Event.Prepare(ok))
  {
    var (h, w) := s.host.Prepare(s.world, ok);
    forall j: nat ensures IsDiscarding(w, j) <==> IsDiscarding(s.world, j) || j in Discarded(s, Event.Prepare(ok)) {
    }
  }

  /** Only `Prepare` ends the preparation of a workspace. */
  lemma PreparingStays(s: Server, e: Event)
    requires HostCounts(s.host) && !e.Probe? && !e.Prepare? && s.host.switching.Preparing?
    ensures Step(s, e).host.switching == s.host.switching
  {
  }

  lemma OthersSpare(s: Server, e: Event)
    requires Inv(s) && !e.Probe? && !e.Prepare? && !e.Died?
    ensures SparesIncoming(s.world, Step(s, e).world)
  {
    if e.Acquire? {
      AcquireSpares(s.world, s.manager, s.host.current, s.host.state == Ready, e.id, e.project, e.boots);
    } else if e.FinishOpen? {
      FinishOpenSpares(s.world, s.host.current, s.host.switching, s.manager, e.id, e.ok);
    } else if e.CloseProjectServices? {
      CloseServicesSpare(s.world, s.host.current, s.host.switching, s.manager, e.id);
    } else if e.OldResourcesClosed? || e.CloseHostServices? {
      HostClosesSpare(s.world, s.host, s.manager);
    } else {
      OthersKeepTheWorld(s, e);
    }
  }

  lemma StepDiscards(s: Server, e: Event)
    requires Inv(s) && IncomingIsPrepared(s.world, s.host.switching)
    ensures var s' := Step(s, e);
      && IncomingIsPrepared(s'.world, s'.host.switching)
      && Discarding(s'.world) == Discarding(s.world) + Discarded(s, e) - Settled(e)
  {
    if e.Probe? {
      ProbeDiscards(s, e);
    } else if e.Prepare? {
      PrepareDiscards(s, e.ok);
    } else if e.Died? {
      DiedSettles(s.world, e.inst, s.host.switching);
    } else {
      OthersDiscardNothing(s, e);
    }
  }

  lemma OthersDiscardNothing(s: Server, e: Event)
    requires Inv(s) && IncomingIsPrepared(s.world, s.host.switching)
    requires !e.Probe? && !e.Prepare? && !e.Died?
    ensures IncomingIsPrepared(Step(s, e).world, Step(s, e).host.switching)
    ensures Discarding(Step(s, e).world) == Discarding(s.world)
  {
    OthersSpare(s, e);
    SparedStays(s.world, Step(s, e).world);
    if s.host.switching.Preparing? {
      PreparingStays(s, e);
    }
    SwitchlessStays(s.world, Step(s, e).world, s.host.switching, Step(s, e).host.switching);
  }

  lemma SwitchlessStays(w: World, w': World, sw: Switch, sw': Switch)
    requires IncomingIsPrepared(w, sw) && SparesIncoming(w, w')
    requires sw.Preparing? ==> sw' == sw
    ensures IncomingIsPrepared(w', sw')
  {
  }

  // ------------------------------------------------------------- over runs

  predicate StartsSwitch(s: Server, e: Event) {
    e.SwitchTo? && s.host.SwitchTo(s.world, e.target, HostBusy(s, e.agents), e.jobs).1 == Began
  }

  /** What is left of `pending` after the events, with what they add to it: the workspaces of
      failed calls that have not returned. */
  function Unfinished(s: Server, events: seq<Event>, pending: set<nat>): set<nat>
    decreases |events|
  {
    if events == [] then pending
    else Unfinished(Step(s, events[0]), events[1..], pending + Discarded(s, events[0]) - Settled(events[0]))
  }

  /** No switch begins before every failed call that built a workspace has seen it die. */
  predicate AwaitsFailedSwitches(s: Server, events: seq<Event>, pending: set<nat>)
    decreases |events|
  {
    events != [] ==>
      && (StartsSwitch(s, events[0]) ==> pending == {})
      && AwaitsFailedSwitches(Step(s, events[0]), events[1..], pending + Discarded(s, events[0]) - Settled(events[0]))
  }

  /** No switch begins while a workspace of an earlier one is being shut down. */
  predicate NeverOverlaps(s: Server, events: seq<Event>)
    decreases |events|
  {
    events != [] ==>
      && (StartsSwitch(s, events[0]) ==> Discarding(s.world) == {})
      && NeverOverlaps(Step(s, events[0]), events[1..])
  }

  lemma {:induction false} DiscardsOverRun(s: Server, events: seq<Event>)
    requires Inv(s) && IncomingIsPrepared(s.world, s.host.switching)
    ensures var t := Run(s, events);
      && Inv(t) && IncomingIsPrepared(t.world, t.host.switching)
      && Discarding(t.world) == Unfinished(s, events, Discarding(s.world))
    ensures NeverOverlaps(s, events) <==> AwaitsFailedSwitches(s, events, Discarding(s.world))
    decreases |events|
  {
    if events != [] {
      StepDiscards(s, events[0]);
      StepKeepsInv(s, events[0]);
      DiscardsOverRun(Step(s, events[0]), events[1..]);
    }
  }

  lemma NothingDiscardedAtFirst(root: Root)
    ensures IncomingIsPrepared(Init(root).world, NoSwitch) && Discarding(Init(root).world) == {}
  {
  }

  /** In every reachable state, a failed switch call has not returned exactly while an incoming
      workspace is closing, and an incoming workspace that is up is the one being prepared. */
  lemma FailedCallsAreUnfinishedExactlyWhileDiscarding(root: Root, events: seq<Event>)
    ensures var s := Run(Init(root), events);
      && Unfinished(Init(root), events, {}) == Discarding(s.world)
      && IncomingIsPrepared(s.world, s.host.switching)
  {
    InitInv(root);
    NothingDiscardedAtFirst(root);
    DiscardsOverRun(Init(root), events);
  }

  /** A switch that is accepted overlaps an earlier call exactly if some incoming workspace is
      still closing; so none does along a run exactly if each failed call that built a
      workspace sees it die before the next switch begins. */
  lemma SwitchesOverlapExactlyWhenNotAwaited(root: Root, events: seq<Event>)
    ensures NeverOverlaps(Init(root), events) <==> AwaitsFailedSwitches(Init(root), events, {})
  {
    InitInv(root);
    NothingDiscardedAtFirst(root);
    DiscardsOverRun(Init(root), events);
  }

  /** The discard is apart from everything in use: it is neither the current workspace nor the
      next one, shares no root with them, holds no lease and no tool call, and its end changes
      nothing but itself and the lease of its root. */
  lemma DiscardIsApart(root: Root, events: seq<Event>, i: nat)
    requires IsDiscarding(Run(Init(root), events).world, i)
    ensures var s := Run(Init(root), events);
      && i != s.host.current
      && (s.host.state != HostState.Closed ==> s.world.RootOf(i) != s.world.RootOf(s.host.current))
      && (s.host.switching.Preparing? ==> i != s.host.switching.next && s.world.RootOf(i) != s.world.RootOf(s.host.switching.next))
      && (forall l :: l in s.manager.leases ==> s.manager.leases[l] != i)
      && (forall c :: c in s.host.tools ==> s.host.tools[c] != i)
    ensures var s := Run(Init(root), events);
      var s' := Step(s, Event.Died(i));
      && s'.host == s.host && s'.manager == s.manager
      && (forall j: nat :: s.world.Has(j) && j != i ==> s'.world.Has(j) && s'.world.instances[j] == s.world.instances[j])
  {
    Reachable(root, events);
    ApartNow(Run(Init(root), events), i);
    DeathIsApart(Run(Init(root), events), i);
  }

  lemma DeathIsApart(s: Server, i: nat)
    ensures var s' := Step(s, Event.Died(i));
      && s'.host == s.host && s'.manager == s.manager
      && (forall j: nat :: s.world.Has(j) && j != i ==> s'.world.Has(j) && s'.world.instances[j] == s.world.instances[j])
  {
  }

  lemma ApartNow(s: Server, i: nat)
    requires Inv(s) && IsDiscarding(s.world, i)
    ensures i != s.host.current
    ensures s.host.state != HostState.Closed ==> s.world.RootOf(i) != s.world.RootOf(s.host.current)
    ensures s.host.switching.Preparing? ==> i != s.host.switching.next && s.world.RootOf(i) != s.world.RootOf(s.host.switching.next)
    ensures forall l :: l in s.manager.leases ==> s.manager.leases[l] != i
    ensures forall c :: c in s.host.tools ==> s.host.tools[c] != i
  {
    assert s.world.Alive(i);
    if s.host.state != HostState.Closed {
      assert s.world.Alive(s.host.current);
    }
    if s.host.switching.Preparing? {
      assert s.world.Alive(s.host.switching.next);
    }
    forall l | l in s.manager.leases ensures s.manager.leases[l] != i {
      assert Leasable(s.world, s.host.current, s.manager, s.manager.leases[l]);
    }
  }

  /** While the discard lasts, its root cannot be built again: a switch to the same directory
      is rolled back by the probe. */
  lemma DiscardBlocksItsRoot(root: Root, events: seq<Event>, i: nat, boots: bool, ready: bool)
    requires var s := Run(Init(root), events);
      IsDiscarding(s.world, i) && s.host.switching == Probing(s.world.RootOf(i))
    ensures var s := Run(Init(root), events);
      var s' := Step(s, Event.Probe(false, boots, ready));
      s'.world == s.world && s'.host.state == Ready && s'.host.switching == NoSwitch
  {
    Reachable(root, events);
    assert Run(Init(root), events).world.Alive(i);
  }
}
