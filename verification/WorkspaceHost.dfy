/** The owner of the active workspace and its runtime switch
    (src/server/workspaceHost.ts), together with the request gate that appServer.ts
    wraps around it. As in `InstallationRuntimes`, one method is one atomic section. */
module WorkspaceHosts {
  import opened Wrappers
  import opened Workspaces

  datatype HostState = Ready | Switching | Closed

  /** Where the running `switchTo` is suspended. */
  datatype Switch =
    | NoSwitch
    | Draining(target: Root)
    | Probing(target: Root)
    | Preparing(next: nat)
    | ClosingOldResources(prev: nat)
    | ClosingOldServices(prev: nat)

  /** Where the running `close` is suspended. */
  datatype Closing = NotClosing | ClosingDrain | ClosingResources | ClosingServices

  datatype SwitchAnswer = Refused(code: Code) | Unchanged | Began

  /** `inflight` is the counter of the source. `bodies`, `gated` and `tools` say which
      entries it counts: requests before the gate, requests after it, and tool calls
      with the workspace each of them captured. */
  datatype Host = Host(
    current: nat,
    state: HostState,
    inflight: int,
    bodies: nat,
    gated: nat,
    tools: map<nat, nat>,
    calls: nat,
    switching: Switch,
    closing: Closing) {

    function EnterBody(): Host {
      this.(inflight := inflight + 1, bodies := bodies + 1)
    }

    function LeaveBody(): Host {
      if bodies > 0 then this.(inflight := inflight - 1, bodies := bodies - 1) else this
    }

    /** `switchGate`: the body entry ends, and an untargeted request enters again unless
        the server closes or the workspace is not ready. */
    function PassGate(appClosing: bool, targeted: bool): Host {
      var h := LeaveBody();
      if bodies == 0 || appClosing || targeted || state != Ready then h
      else h.(inflight := h.inflight + 1, gated := h.gated + 1)
    }

    function LeaveGate(): Host {
      if gated > 0 then this.(inflight := inflight - 1, gated := gated - 1) else this
    }

    /** `beginTool` of a server instance that captured `workspace`. */
    function BeginTool(appClosing: bool, workspace: nat): (Host, Option<nat>) {
      if appClosing || state != Ready || current != workspace then (this, None)
      else (this.(inflight := inflight + 1, tools := tools[calls := workspace], calls := calls + 1), Some(calls))
    }

    function EndTool(call: nat): Host {
      if call in tools then this.(inflight := inflight - 1, tools := tools - {call}) else this
    }

    function Rollback(): Host {
      this.(state := Ready, switching := NoSwitch)
    }

    /** `busy` answers `opts.busy()`, `jobs` counts the jobs of the current workspace. */
    function SwitchTo(world: World, target: Root, busy: bool, jobs: nat): (Host, SwitchAnswer) {
      if state != Ready then (this, Refused(CONFLICT))
      else if target == world.RootOf(current) then (this, Unchanged)
      else if busy || jobs > 0 then (this, Refused(CONFLICT))
      else (this.(state := Switching, switching := Draining(target)), Began)
    }

    function Drain(timedOut: bool, busy: bool, jobs: nat): Host {
      if !switching.Draining? then this
      else if inflight > 0 then (if timedOut then Rollback() else this)
      else if jobs > 0 || busy then Rollback()
      else this.(switching := Probing(switching.target))
    }

    /** `served`: another process answers for the target. `ready`: the readiness check. */
    function Probe(world: World, served: bool, boots: bool, ready: bool): (Host, World) {
      if !switching.Probing? then (this, world)
      else if served then (Rollback(), world)
      else
        var (world', made) := world.Bootstrap(switching.target, Incoming, boots);
        if made.None? then (Rollback(), world')
        else if !ready then (Rollback(), world'.BeginShutdown(made.value))
        else (this.(switching := Preparing(made.value)), world')
    }

    /** The resources of the new workspace are up (`ok`), which commits, or failed. */
    function Prepare(world: World, ok: bool): (Host, World) {
      if !switching.Preparing? then (this, world)
      else if !ok then (Rollback(), world.BeginShutdown(switching.next))
      else
        (this.(current := switching.next, switching := ClosingOldResources(current)),
         world.OpenResources(switching.next).Move(switching.next, Default).Move(current, Outgoing))
    }

    function OldResourcesClosed(world: World): (Host, World) {
      if !switching.ClosingOldResources? then (this, world)
      else
        (this.(switching := ClosingOldServices(switching.prev)),
         world.CloseResources(switching.prev).BeginShutdown(switching.prev))
    }

    function OldServicesClosed(world: World): Host {
      if switching.ClosingOldServices? && world.PhaseOf(switching.prev) == Dead then Rollback() else this
    }

    function Close(): Host {
      if state == Ready then this.(state := Closed, closing := ClosingDrain) else this
    }

    function CloseDrained(): Host {
      if closing == ClosingDrain && inflight <= 0 then this.(closing := ClosingResources) else this
    }

    function CloseServices(world: World): (Host, World) {
      if closing == ClosingResources then
        (this.(closing := ClosingServices), world.CloseResources(current).BeginShutdown(current))
      else
        (this, world)
    }
  }

  class WorkspaceHost {
    const world: ProcessWorld
    var current: nat
    var state: HostState
    var inflight: int
    var bodies: nat
    var gated: nat
    var tools: map<nat, nat>
    var calls: nat
    var switching: Switch
    var closing: Closing

    ghost function View(): Host
      reads this
    {
      Host(current, state, inflight, bodies, gated, tools, calls, switching, closing)
    }

    constructor (world: ProcessWorld, initial: nat)
      ensures View() == Host(initial, Ready, 0, 0, 0, map[], 0, NoSwitch, NotClosing) && this.world == world
    {
      this.world := world;
      current, state, inflight := initial, Ready, 0;
      bodies, gated, tools, calls, switching, closing := 0, 0, map[], 0, NoSwitch, NotClosing;
    }

    method EnterBody()
      modifies this
      ensures View() == old(View()).EnterBody()
    {
      inflight, bodies := inflight + 1, bodies + 1;
    }

    method LeaveBody()
      modifies this
      ensures View() == old(View()).LeaveBody()
    {
      if bodies > 0 {
        inflight, bodies := inflight - 1, bodies - 1;
      }
    }

    method PassGate(appClosing: bool, targeted: bool) returns (passed: bool)
      modifies this
      ensures View() == old(View()).PassGate(appClosing, targeted)
      ensures passed <==> old(bodies) > 0 && !appClosing && (targeted || old(state) == Ready)
    {
      if bodies == 0 {
        return false;
      }
      LeaveBody();
      if appClosing || (!targeted && state != Ready) {
        return false;
      }
      if !targeted {
        inflight, gated := inflight + 1, gated + 1;
      }
      passed := true;
    }

    method LeaveGate()
      modifies this
      ensures View() == old(View()).LeaveGate()
    {
      if gated > 0 {
        inflight, gated := inflight - 1, gated - 1;
      }
    }

    method BeginTool(appClosing: bool, workspace: nat) returns (call: Option<nat>)
      modifies this
      ensures (View(), call) == old(View()).BeginTool(appClosing, workspace)
    {
      if appClosing || state != Ready || current != workspace {
        return None;
      }
      call := Some(calls);
      inflight, tools, calls := inflight + 1, tools[calls := workspace], calls + 1;
    }

    method EndTool(call: nat)
      modifies this
      ensures View() == old(View()).EndTool(call)
    {
      if call in tools {
        inflight, tools := inflight - 1, tools - {call};
      }
    }

    method Rollback()
      modifies this`state, this`switching
      ensures View() == old(View()).Rollback()
    {
      state, switching := Ready, NoSwitch;
    }

    method SwitchTo(target: Root, busy: bool, jobs: nat) returns (answer: SwitchAnswer)
      modifies this
      ensures (View(), answer) == old(View()).SwitchTo(world.View(), target, busy, jobs)
    {
      if state != Ready {
        return Refused(CONFLICT);
      }
      var root := world.RootOf(current);
      if target == root {
        return Unchanged;
      }
      if busy || jobs > 0 {
        return Refused(CONFLICT);
      }
      state, switching := Switching, Draining(target);
      answer := Began;
    }

    method Drain(timedOut: bool, busy: bool, jobs: nat)
      modifies this
      ensures View() == old(View()).Drain(timedOut, busy, jobs)
    {
      if switching.Draining? {
        if inflight > 0 {
          if timedOut {
            Rollback();
          }
        } else if jobs > 0 || busy {
          Rollback();
        } else {
          switching := Probing(switching.target);
        }
      }
    }

    method Probe(served: bool, boots: bool, ready: bool)
      modifies this, world
      ensures (View(), world.View()) == old(View()).Probe(old(world.View()), served, boots, ready)
    {
      if switching.Probing? {
        if served {
          Rollback();
          return;
        }
        var made := world.Bootstrap(switching.target, Incoming, boots);
        if made.None? {
          Rollback();
        } else if !ready {
          Rollback();
          world.BeginShutdown(made.value);
        } else {
          switching := Preparing(made.value);
        }
      }
    }

    method Prepare(ok: bool)
      modifies this, world
      ensures (View(), world.View()) == old(View()).Prepare(old(world.View()), ok)
    {
      if switching.Preparing? {
        var next := switching.next;
        if ok {
          world.OpenResources(next);
          world.Move(next, Default);
          world.Move(current, Outgoing);
          current, switching := next, ClosingOldResources(current);
        } else {
          Rollback();
          world.BeginShutdown(next);
        }
      }
    }

    method OldResourcesClosed()
      modifies this, world
      ensures (View(), world.View()) == old(View()).OldResourcesClosed(old(world.View()))
    {
      if switching.ClosingOldResources? {
        var prev := switching.prev;
        world.CloseResources(prev);
        world.BeginShutdown(prev);
        switching := ClosingOldServices(prev);
      }
    }

    method OldServicesClosed()
      modifies this
      ensures View() == old(View()).OldServicesClosed(world.View())
    {
      if switching.ClosingOldServices? {
        var phase := world.PhaseOf(switching.prev);
        if phase == Dead {
          Rollback();
        }
      }
    }

    method Close()
      modifies this
      ensures View() == old(View()).Close()
    {
      if state == Ready {
        state, closing := Closed, ClosingDrain;
      }
    }

    method CloseDrained()
      modifies this
      ensures View() == old(View()).CloseDrained()
    {
      if closing == ClosingDrain && inflight <= 0 {
        closing := ClosingResources;
      }
    }

    method CloseServices()
      modifies this, world
      ensures (View(), world.View()) == old(View()).CloseServices(old(world.View()))
    {
      if closing == ClosingResources {
        closing := ClosingServices;
        world.CloseResources(current);
        world.BeginShutdown(current);
      }
    }
  }
}
