/** Bootstrapped workspaces of one server process (src/server/bootstrap.ts).

    A workspace instance is created by `bootstrapWorkspace`, which first takes the
    exclusive lease of its root, and is torn down by `shutdownServices`, which gives
    the lease back as its last action. The workspace id is a keyed hash of the root,
    taken to be injective, so the root itself stands for it. */
module Workspaces {
  import opened Wrappers

  /** Real paths and project ids are only ever compared, so numbers stand for them. */
  type Root = int

  type ProjectId = int

  datatype Phase = Live | Closing | Dead

  /** Which part of the server an instance was last handed to. No branch of the server
      depends on it; the invariants use it to tell instances apart. */
  datatype Place = Default | Incoming | Outgoing | OpeningFor(id: ProjectId) | RuntimeOf(id: ProjectId)

  /** `resources` is true while the per-workspace IPC endpoint is open. */
  datatype Instance = Instance(root: Root, phase: Phase, resources: bool, place: Place)

  /** Every instance this process ever made, and for each held lease its holder. */
  datatype World = World(instances: seq<Instance>, leased: map<Root, nat>) {

    predicate Has(i: nat) {
      i < |instances|
    }

    function RootOf(i: nat): Root {
      if Has(i) then instances[i].root else -1
    }

    function PhaseOf(i: nat): Phase {
      if Has(i) then instances[i].phase else Dead
    }

    function PlaceOf(i: nat): Place {
      if Has(i) then instances[i].place else Incoming
    }

    predicate Serving(i: nat) {
      Has(i) && instances[i].phase == Live && instances[i].resources
    }

    /** `boots` is false when anything else in bootstrapping fails; the lease is then
        returned before the error leaves `bootstrapWorkspace`. */
    function Bootstrap(root: Root, place: Place, boots: bool): (World, Option<nat>) {
      if boots && root !in leased then
        (World(instances + [Instance(root, Live, false, place)], leased[root := |instances|]), Some(|instances|))
      else
        (this, None)
    }

    function Move(i: nat, place: Place): World {
      if Has(i) then this.(instances := instances[i := instances[i].(place := place)]) else this
    }

    function OpenResources(i: nat): World {
      if Has(i) then this.(instances := instances[i := instances[i].(resources := true)]) else this
    }

    function CloseResources(i: nat): World {
      if Has(i) then this.(instances := instances[i := instances[i].(resources := false)]) else this
    }

    /** The synchronous start of `shutdownServices`; a second call does nothing. */
    function BeginShutdown(i: nat): World {
      if PhaseOf(i) == Live then this.(instances := instances[i := instances[i].(phase := Closing)]) else this
    }

    /** The end of `shutdownServices`: the store is closed and the lease released. */
    function EndShutdown(i: nat): World {
      if PhaseOf(i) == Closing then
        World(instances[i := instances[i].(phase := Dead)], leased - {RootOf(i)})
      else
        this
    }

    predicate Alive(i: nat) {
      Has(i) && instances[i].phase != Dead
    }

    /** Every instance that is not dead holds the lease of its root, and every held lease
        belongs to such an instance: no two of them share a root. */
    ghost predicate Exclusive() {
      && (forall i: nat :: Alive(i) ==> RootOf(i) in leased && leased[RootOf(i)] == i)
      && (forall r :: r in leased ==> Alive(leased[r]) && RootOf(leased[r]) == r)
    }
  }

  /** The mutable counterpart that the runtime manager and the host share. */
  class ProcessWorld {
    var instances: seq<Instance>
    var leased: map<Root, nat>

    ghost function View(): World
      reads this
    {
      World(instances, leased)
    }

    constructor (root: Root)
      ensures View() == World([Instance(root, Live, true, Default)], map[root := 0])
    {
      instances := [Instance(root, Live, true, Default)];
      leased := map[root := 0];
    }

    method Bootstrap(root: Root, place: Place, boots: bool) returns (made: Option<nat>)
      modifies this
      ensures (View(), made) == old(View()).Bootstrap(root, place, boots)
    {
      if !boots || root in leased {
        return None;
      }
      made := Some(|instances|);
      leased := leased[root := |instances|];
      instances := instances + [Instance(root, Live, false, place)];
    }

    method Move(i: nat, place: Place)
      modifies this
      ensures View() == old(View()).Move(i, place)
    {
      if i < |instances| {
        instances := instances[i := instances[i].(place := place)];
      }
    }

    method OpenResources(i: nat)
      modifies this
      ensures View() == old(View()).OpenResources(i)
    {
      if i < |instances| {
        instances := instances[i := instances[i].(resources := true)];
      }
    }

    method CloseResources(i: nat)
      modifies this
      ensures View() == old(View()).CloseResources(i)
    {
      if i < |instances| {
        instances := instances[i := instances[i].(resources := false)];
      }
    }

    method BeginShutdown(i: nat)
      modifies this
      ensures View() == old(View()).BeginShutdown(i)
    {
      if i < |instances| && instances[i].phase == Live {
        instances := instances[i := instances[i].(phase := Closing)];
      }
    }

    method EndShutdown(i: nat)
      modifies this
      ensures View() == old(View()).EndShutdown(i)
    {
      if i < |instances| && instances[i].phase == Closing {
        leased := leased - {instances[i].root};
        instances := instances[i := instances[i].(phase := Dead)];
      }
    }

    method RootOf(i: nat) returns (root: Root)
      ensures root == View().RootOf(i)
    {
      root := if i < |instances| then instances[i].root else -1;
    }

    method PhaseOf(i: nat) returns (phase: Phase)
      ensures phase == View().PhaseOf(i)
    {
      phase := if i < |instances| then instances[i].phase else Dead;
    }
  }
}
