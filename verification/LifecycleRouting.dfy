/** Which workspace an `acquire` for a project id is served by. Cached and pending runtimes
    are looked up by project id alone, so a lease is on the registered root exactly as long
    as the registry did not move the project while its runtime was open or being opened. */
module LifecycleRouting {
  import opened Wrappers
  import opened Workspaces
  import opened InstallationRuntimes
  import opened WorkspaceHosts
  import opened Lifecycle

  /** A registry that gives every project the same root for the whole run. */
  predicate AnswersFrom(registry: map<ProjectId, Root>, e: Event) {
    e.Acquire? && e.project.Some? ==> e.id in registry && registry[e.id] == e.project.value
  }

  predicate HasRoot(w: World, i: nat, registry: map<ProjectId, Root>, id: ProjectId) {
    w.Has(i) && id in registry && w.RootOf(i) == registry[id]
  }

  ghost predicate Routed(s: Server, registry: map<ProjectId, Root>) {
    && (forall id :: id in s.manager.runtimes ==> HasRoot(s.world, s.manager.runtimes[id], registry, id))
    && (forall id :: id in s.manager.opening && s.manager.opening[id].status.Building? ==>
          HasRoot(s.world, s.manager.opening[id].status.inst, registry, id))
  }

  ghost predicate KeepsRoots(w: World, w': World) {
    forall i: nat :: w.Has(i) ==> w'.Has(i) && w'.RootOf(i) == w.RootOf(i)
  }

  lemma SwitchesKeepRoots(s: Server, e: Event)
    requires e.OldResourcesClosed? || e.CloseProjectServices? || e.CloseHostServices? || e.Died? || e.Probe? || e.Prepare?
    ensures KeepsRoots(s.world, Step(s, e).world)
    ensures Step(s, e).manager.runtimes == s.manager.runtimes && Step(s, e).manager.opening == s.manager.opening
  {
  }

  lemma {:induction false} GrantAllOnlyLeases(m: Manager, n: nat, refused: set<nat>, inst: nat, root: Root)
    ensures var m' := m.GrantAll(n, refused, inst, root);
            && m' == m.(users := m'.users, leases := m'.leases, granted := m'.granted)
            && (forall l :: l in m'.leases && l >= m.granted ==> m'.leases[l] == inst || (l in m.leases && m'.leases[l] == m.leases[l]))
            && (forall l :: l in m'.leases && l < m.granted ==> l in m.leases && m'.leases[l] == m.leases[l])
            && m'.granted >= m.granted
  {
    if n > 0 {
      GrantAllOnlyLeases(m, n - 1, refused, inst, root);
    }
  }

  lemma AcquireKeepsRouted(s: Server, e: Event, registry: map<ProjectId, Root>)
    requires Routed(s, registry) && AnswersFrom(registry, e) && e.Acquire?
    ensures Routed(Step(s, e), registry)
  {
  }

  lemma FinishOpenKeepsRouted(s: Server, e: Event, registry: map<ProjectId, Root>)
    requires Routed(s, registry) && e.FinishOpen?
    ensures Routed(Step(s, e), registry)
  {
  }

  lemma ResumeKeepsRouted(s: Server, id: ProjectId, refused: set<nat>, registered: Root, registry: map<ProjectId, Root>)
    requires Routed(s, registry)
    ensures Routed(Step(s, Event.Resume(id, refused, registered)), registry)
  {
    var m := s.manager;
    if id in m.opening && m.opening[id].status.Opened? {
      var o := m.opening[id];
      GrantAllOnlyLeases(m.(opening := m.opening - {id}), o.waiters, refused, o.status.inst, s.world.RootOf(o.status.inst));
    }
  }

  lemma OthersKeepRouted(s: Server, e: Event, registry: map<ProjectId, Root>)
    requires Routed(s, registry)
    requires !(e.OldResourcesClosed? || e.CloseProjectServices? || e.CloseHostServices? || e.Died? || e.Probe? || e.Prepare?)
    requires !(e.Acquire? || e.FinishOpen? || e.Resume?)
    ensures Routed(Step(s, e), registry)
  {
  }

  lemma StepKeepsRouted(s: Server, e: Event, registry: map<ProjectId, Root>)
    requires Routed(s, registry) && AnswersFrom(registry, e)
    ensures Routed(Step(s, e), registry)
  {
    if e.OldResourcesClosed? || e.CloseProjectServices? || e.CloseHostServices? || e.Died? || e.Probe? || e.Prepare? {
      SwitchesKeepRoots(s, e);
    } else if e.Acquire? {
      AcquireKeepsRouted(s, e, registry);
    } else if e.FinishOpen? {
      FinishOpenKeepsRouted(s, e, registry);
    } else if e.Resume? {
      ResumeKeepsRouted(s, e.id, e.refused, e.registered, registry);
    } else {
      OthersKeepRouted(s, e, registry);
    }
  }

  lemma {:induction false} RunKeepsRouted(s: Server, events: seq<Event>, registry: map<ProjectId, Root>)
    requires Inv(s) && Routed(s, registry) && forall k :: 0 <= k < |events| ==> AnswersFrom(registry, events[k])
    ensures Inv(Run(s, events)) && Routed(Run(s, events), registry)
    decreases |events|
  {
    if events != [] {
      StepKeepsInv(s, events[0]);
      StepKeepsRouted(s, events[0], registry);
      RunKeepsRouted(Step(s, events[0]), events[1..], registry);
    }
  }

  /** While the registry keeps every project where it is, each lease that `acquire` hands
      out for a project, at once or after an opening, is on the project's own root. */
  lemma LeasesFollowTheRegistry(root: Root, events: seq<Event>, e: Event, registry: map<ProjectId, Root>)
    requires forall k :: 0 <= k < |events| ==> AnswersFrom(registry, events[k])
    requires AnswersFrom(registry, e) && (e.Acquire? || e.Resume?)
    ensures var s := Run(Init(root), events);
            var s' := Step(s, e);
            forall l :: l in s'.manager.leases && l !in s.manager.leases ==> HasRoot(s'.world, s'.manager.leases[l], registry, e.id)
  {
    InitInv(root);
    RunKeepsRouted(Init(root), events, registry);
    var s := Run(Init(root), events);
    if e.Resume? {
      ResumeFollows(s, e.id, e.refused, registry);
      assert Step(s, e) == s.(manager := s.manager.Resume(s.world, e.id, e.refused));
    } else {
      AcquireFollows(s, e, registry);
    }
  }

  lemma AcquireFollows(s: Server, e: Event, registry: map<ProjectId, Root>)
    requires Routed(s, registry) && AnswersFrom(registry, e) && e.Acquire? && s.world.Has(s.host.current)
    ensures var s' := Step(s, e);
            forall l :: l in s'.manager.leases && l !in s.manager.leases ==> HasRoot(s'.world, s'.manager.leases[l], registry, e.id)
  {
  }

  lemma ResumeFollows(s: Server, id: ProjectId, refused: set<nat>, registry: map<ProjectId, Root>)
    requires OpeningsAgree(s.manager) && Routed(s, registry)
    ensures var m' := s.manager.Resume(s.world, id, refused);
            forall l :: l in m'.leases && l !in s.manager.leases ==> HasRoot(s.world, m'.leases[l], registry, id)
  {
    var m := s.manager;
    if id in m.opening && m.opening[id].status.Opened? {
      var o := m.opening[id];
      GrantAllOnlyLeases(m.(opening := m.opening - {id}), o.waiters, refused, o.status.inst, s.world.RootOf(o.status.inst));
      assert HasRoot(s.world, o.status.inst, registry, id);
    }
  }

  /** Project 7 after it was opened at root 1 and leased once. */
  function OneLease(): Server {
    var s := Init(0);
    s.(world := World(s.world.instances + [Instance(1, Live, true, RuntimeOf(7))], s.world.leased[1 := 1]),
       manager := s.manager.(runtimes := map[7 := 1], users := map[1 := 1], leases := map[0 := 1], granted := 1))
  }

  lemma OpenProjectSeven()
    ensures Run(Init(0), [Event.Acquire(7, Some(1), true), Event.FinishOpen(7, true), Event.Resume(7, {}, 1)]) == OneLease()
  {
    var s1 := Step(Init(0), Event.Acquire(7, Some(1), true));
    var s2 := Step(s1, Event.FinishOpen(7, true));
    assert s1.manager.opening == map[7 := Opening(Building(1), 1)];
    assert s2.manager.opening == map[7 := Opening(Opened(1), 1)];
    SevenResumes(s2);
    var s3 := Step(s2, Event.Resume(7, {}, 1));
    assert s3 == Run(s2, [Event.Resume(7, {}, 1)]);
    assert s3 == Run(s1, [Event.FinishOpen(7, true), Event.Resume(7, {}, 1)]);
  }

  lemma SevenResumes(s: Server)
    requires s == OneLease().(manager := OneLease().manager.(opening := map[7 := Opening(Opened(1), 1)], users := map[], leases := map[], granted := 0))
    ensures Step(s, Event.Resume(7, {}, 1)) == OneLease()
  {
    var m := s.manager.(opening := map[]);
    assert s.manager.opening - {7} == map[];
    assert m.GrantAll(1, {}, 1, 1) == m.GrantAll(0, {}, 1, 1).Grant(1, 1);
  }

  /** Without that condition the claim fails: project 7 is opened at root 1, the registry
      relocates it to root 2, and the next `acquire` still hands out the runtime of root 1. */
  lemma RelocatedProjectGetsTheOldRuntime()
    ensures var s := Run(Init(0), [Event.Acquire(7, Some(1), true), Event.FinishOpen(7, true), Event.Resume(7, {}, 1)]);
            var s' := Step(s, Event.Acquire(7, Some(2), true));
            s'.manager.leases == map[0 := 1, 1 := 1] && s'.world.RootOf(1) == 1
  {
    OpenProjectSeven();
  }

  // ------------------------------------------------------ when leases are routed right

  /** The root that the registry gives for the project at the moment the lease is taken. */
  function Registered(e: Event): Option<Root> {
    match e
    case Acquire(_, project, _) => project
    case Resume(_, _, registered) => Some(registered)
    case _ => None
  }

  /** Every lease that the event hands out is on the registered root. */
  ghost predicate RoutesRight(s: Server, e: Event) {
    forall l :: l in Step(s, e).manager.leases && l !in s.manager.leases ==>
      Registered(e) == Some(Step(s, e).world.RootOf(Step(s, e).manager.leases[l]))
  }

  /** A runtime for the project is open, or has just been opened, on another root. */
  predicate MisroutesAcquire(s: Server, id: ProjectId, project: Option<Root>) {
    && !s.manager.IsClosed() && id !in s.manager.closing && project.Some?
    && s.world.RootOf(s.host.current) != project.value
    && id in s.manager.runtimes && s.world.RootOf(s.manager.runtimes[id]) != project.value
  }

  predicate SomeoneResumes(o: Opening, refused: set<nat>) {
    exists w: nat :: w < o.waiters && w !in refused
  }

  predicate MisroutesResume(s: Server, id: ProjectId, refused: set<nat>, registered: Root) {
    var m := s.manager;
    && !m.IsClosed() && id !in m.closing && id in m.opening && m.opening[id].status.Opened?
    && s.world.RootOf(m.opening[id].status.inst) != registered && SomeoneResumes(m.opening[id], refused)
  }

  predicate Misroutes(s: Server, e: Event) {
    match e
    case Acquire(id, project, _) => MisroutesAcquire(s, id, project)
    case Resume(id, refused, registered) => MisroutesResume(s, id, refused, registered)
    case _ => false
  }

  /** A lease granted at once is on the registered root exactly if the current workspace or
      the project's cached runtime is there. */
  lemma AcquireIsRoutedExactly(s: Server, id: ProjectId, root: Root, boots: bool)
    requires s.world.Has(s.host.current)
    ensures var answer := s.manager.Acquire(s.world, s.host.current, s.host.state == Ready, id, Some(root), boots).2;
      answer.Granted? ==>
        (s.world.RootOf(answer.inst) == root <==>
          s.world.RootOf(s.host.current) == root || (id in s.manager.runtimes && s.world.RootOf(s.manager.runtimes[id]) == root))
  {
  }

  lemma AcquireRoutes(s: Server, e: Event)
    requires Inv(s) && e.Acquire?
    ensures RoutesRight(s, e) <==> !MisroutesAcquire(s, e.id, e.project)
  {
    assert s.manager.granted !in s.manager.leases;
    AcquireParts(s.world, s.manager, s.host.current, s.host.state == Ready, e.id, e.project, e.boots);
  }

  lemma AcquireParts(w: World, m: Manager, current: nat, ready: bool, id: ProjectId, project: Option<Root>, boots: bool)
    requires m.granted !in m.leases
    ensures var (m', w', _) := m.Acquire(w, current, ready, id, project, boots);
      (forall l :: l in m'.leases && l !in m.leases ==> project == Some(w'.RootOf(m'.leases[l])))
      <==> !(!m.IsClosed() && id !in m.closing && project.Some? && w.RootOf(current) != project.value
             && id in m.runtimes && w.RootOf(m.runtimes[id]) != project.value)
  {
    var (m', w', answer) := m.Acquire(w, current, ready, id, project, boots);
    if answer.Granted? {
      assert m'.leases == m.leases[m.granted := answer.inst] && w' == w;
      assert m.granted in m'.leases;
    } else {
      assert m'.leases == m.leases;
    }
  }

  /** The leases that waiters get are numbered on from the last one, all on one instance. */
  lemma {:induction false} GrantAllNumbers(m: Manager, n: nat, refused: set<nat>, inst: nat, root: Root)
    ensures var m' := m.GrantAll(n, refused, inst, root);
      && m'.granted >= m.granted
      && (m'.granted > m.granted <==> exists w: nat :: w < n && w !in refused)
      && (forall l :: m.granted <= l < m'.granted ==> l in m'.leases && m'.leases[l] == inst)
      && (forall l :: l in m'.leases && l !in m.leases ==> m.granted <= l < m'.granted)
  {
    if n > 0 {
      GrantAllNumbers(m, n - 1, refused, inst, root);
    }
  }

  lemma ResumeRoutes(s: Server, id: ProjectId, refused: set<nat>, registered: Root)
    requires forall l :: l in s.manager.leases ==> l < s.manager.granted
    ensures var m' := s.manager.Resume(s.world, id, refused);
      (forall l :: l in m'.leases && l !in s.manager.leases ==> registered == s.world.RootOf(m'.leases[l]))
        <==> !MisroutesResume(s, id, refused, registered)
  {
    var m := s.manager;
    if id in m.opening && m.opening[id].status.Opened? && !m.IsClosed() && id !in m.closing {
      var o, m1 := m.opening[id], m.(opening := m.opening - {id});
      var root := s.world.RootOf(o.status.inst);
      var m' := m.Resume(s.world, id, refused);
      assert m' == m1.GrantAll(o.waiters, refused, o.status.inst, root);
      GrantAllNumbers(m1, o.waiters, refused, o.status.inst, root);
      if SomeoneResumes(o, refused) {
        assert m.granted in m'.leases && m.granted !in m.leases;
      }
    }
  }

  lemma OthersGrantNothing(s: Server, e: Event)
    requires !e.Acquire? && !e.Resume?
    ensures forall l :: l in Step(s, e).manager.leases ==> l in s.manager.leases
  {
  }

  lemma ResumeStep(s: Server, e: Event)
    requires e.Resume?
    ensures Step(s, e) == s.(manager := s.manager.Resume(s.world, e.id, e.refused))
  {
  }

  lemma RoutesRightStep(s: Server, e: Event)
    requires Inv(s)
    ensures RoutesRight(s, e) <==> !Misroutes(s, e)
  {
    if e.Acquire? {
      AcquireRoutes(s, e);
    } else if e.Resume? {
      ResumeStep(s, e);
      ResumeRoutes(s, e.id, e.refused, e.registered);
    } else {
      OthersGrantNothing(s, e);
    }
  }

  ghost predicate AlwaysRoutesRight(s: Server, events: seq<Event>)
    decreases |events|
  {
    events != [] ==> RoutesRight(s, events[0]) && AlwaysRoutesRight(Step(s, events[0]), events[1..])
  }

  predicate NeverMisroutes(s: Server, events: seq<Event>)
    decreases |events|
  {
    events != [] ==> !Misroutes(s, events[0]) && NeverMisroutes(Step(s, events[0]), events[1..])
  }

  lemma {:induction false} RoutesOverRun(s: Server, events: seq<Event>)
    requires Inv(s)
    ensures AlwaysRoutesRight(s, events) <==> NeverMisroutes(s, events)
    decreases |events|
  {
    if events != [] {
      RoutesRightStep(s, events[0]);
      StepKeepsInv(s, events[0]);
      RoutesOverRun(Step(s, events[0]), events[1..]);
    }
  }

  /** On every run, all leases are on the root that the registry gives when they are taken,
      if and only if no `acquire` finds a cached runtime of its project on another root and no
      waiter resumes on a runtime that was opened on another root. */
  lemma LeasesAreRoutedExactlyUnlessMoved(root: Root, events: seq<Event>)
    ensures AlwaysRoutesRight(Init(root), events) <==> NeverMisroutes(Init(root), events)
  {
    InitInv(root);
    RoutesOverRun(Init(root), events);
  }

  /** The second way it fails: the registry moves project 7 while it is being opened. The
      call for root 2 joins the opening for root 1, and both get root 1. */
  lemma MovedWhileOpening()
    ensures var events := [Event.Acquire(7, Some(1), true), Event.Acquire(7, Some(2), true), Event.FinishOpen(7, true), Event.Resume(7, {}, 2)];
      var s := Run(Init(0), events);
      && s.manager.leases == map[0 := 1, 1 := 1] && s.world.RootOf(1) == 1
      && !NeverMisroutes(Init(0), events)
  {
    var a, b, c, d := Event.Acquire(7, Some(1), true), Event.Acquire(7, Some(2), true), Event.FinishOpen(7, true), Event.Resume(7, {}, 2);
    var s1 := Step(Init(0), a);
    var s2 := Step(s1, b);
    var s3 := Step(s2, c);
    OpensAndMoves();
    TwoResume(s3);
    assert [b, c, d] == [b] + [c, d] && [c, d] == [c] + [d] && [d] == [d] + [];
    RunsOn(Init(0), a, [b, c, d]);
    RunsOn(s1, b, [c, d]);
    RunsOn(s2, c, [d]);
    RunsOn(s3, d, []);
    assert [a, b, c, d] == [a] + [b, c, d];
  }

  lemma OpensAndMoves()
    ensures var s3 := Step(Step(Step(Init(0), Event.Acquire(7, Some(1), true)), Event.Acquire(7, Some(2), true)), Event.FinishOpen(7, true));
      && s3.manager.opening == map[7 := Opening(Opened(1), 2)] && s3.manager.leases == map[] && s3.manager.granted == 0
      && !s3.manager.IsClosed() && 7 !in s3.manager.closing && s3.world.RootOf(1) == 1
  {
    var s1 := Step(Init(0), Event.Acquire(7, Some(1), true));
    var s2 := Step(s1, Event.Acquire(7, Some(2), true));
    assert s1.manager.opening == map[7 := Opening(Building(1), 1)];
    assert s2.manager.opening == map[7 := Opening(Building(1), 2)];
  }

  lemma RunsOn(s: Server, e: Event, rest: seq<Event>)
    ensures Run(s, [e] + rest) == Run(Step(s, e), rest)
    ensures NeverMisroutes(s, [e] + rest) ==> !Misroutes(s, e) && NeverMisroutes(Step(s, e), rest)
  {
    assert ([e] + rest)[1..] == rest;
  }

  lemma TwoResume(s: Server)
    requires s.manager.opening == map[7 := Opening(Opened(1), 2)] && s.manager.leases == map[] && s.manager.granted == 0
    requires !s.manager.IsClosed() && 7 !in s.manager.closing && s.world.RootOf(1) == 1
    ensures Step(s, Event.Resume(7, {}, 2)).manager.leases == map[0 := 1, 1 := 1]
    ensures Step(s, Event.Resume(7, {}, 2)).world == s.world
    ensures Misroutes(s, Event.Resume(7, {}, 2))
  {
    var m := s.manager.(opening := s.manager.opening - {7});
    assert m.GrantAll(1, {}, 1, 1) == m.GrantAll(0, {}, 1, 1).Grant(1, 1);
    assert m.GrantAll(2, {}, 1, 1) == m.GrantAll(1, {}, 1, 1).Grant(1, 1);
    var w: nat := 0;
    assert w < s.manager.opening[7].waiters && w !in {};
    assert SomeoneResumes(s.manager.opening[7], {});
  }
}
