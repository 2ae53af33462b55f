/** The Docker daemon behind the Client interface of internal/docker/client.go: its
    containers, networks and volumes, and calls that may fail. */
module Daemon {
  import opened Options

  type Labels = map<string, string>
  type ContainerId = nat
  type NetworkId = nat

  const PROJECT_LABEL := "com.composecockpit.project"
  const NAME_LABEL := "com.composecockpit.name"
  const SERVICE_LABEL := "com.composecockpit.service"

  function Label(labels: Labels, key: string): string {
    if key in labels then labels[key] else ""
  }

  /** A container is attached to a network and volumes that existed when it was created. Names of
      networks need not be unique, so `networks` has every network of the name. */
  datatype Container = Container(
    name: string, image: string, labels: Labels, running: bool, networks: set<NetworkId>, volumes: set<string>)

  datatype Network = Network(name: string, labels: Labels)

  /** Ids below `next` have been given out. */
  datatype World = World(
    containers: map<ContainerId, Container>,
    networks: map<NetworkId, Network>,
    volumes: map<string, Labels>,
    next: nat)

  ghost predicate WellFormed(w: World) {
    && (forall c | c in w.containers :: c < w.next)
    && (forall n | n in w.networks :: n < w.next)
    && (forall c | c in w.containers ::
          w.containers[c].networks <= w.networks.Keys && w.containers[c].volumes <= w.volumes.Keys)
  }

  ghost predicate NetworkUsed(w: World, n: NetworkId) {
    exists c :: c in w.containers && n in w.containers[c].networks
  }

  ghost predicate VolumeUsed(w: World, v: string) {
    exists c :: c in w.containers && v in w.containers[c].volumes
  }

  ghost predicate HasNetwork(w: World, name: string) {
    exists n :: n in w.networks && w.networks[n].name == name
  }

  ghost predicate HasContainer(w: World, name: string) {
    exists c :: c in w.containers && w.containers[c].name == name
  }

  /** The answer to a call that creates something. */
  datatype Reply<T> = Done(value: T) | AlreadyExists | Refused

  datatype Config = Config(name: string, image: string, labels: Labels, networks: seq<string>, volumes: set<string>)

  /** What creating a container with this configuration adds to the world. Only the first network
      of the configuration is passed on to the daemon. */
  function Created(w: World, cfg: Config): Container {
    Container(cfg.name, cfg.image, cfg.labels, false,
              (set n | n in w.networks && cfg.networks != [] && w.networks[n].name == cfg.networks[0]),
              cfg.volumes * w.volumes.Keys)
  }

  /** A call about an image, with its answer; an image that was asked for is there, or not, or the
      call failed. */
  datatype ImageCall =
    | Built(tag: string, ok: bool)
    | Asked(image: string, present: Option<bool>)
    | Pulled(image: string, ok: bool)

  /** A list of the ids, each once. */
  ghost predicate Lists(ids: seq<nat>, all: set<nat>) {
    && (forall id :: id in ids <==> id in all)
    && forall i, j | 0 <= i < j < |ids| :: ids[i] != ids[j]
  }

  method InSomeOrder(all: set<nat>) returns (ids: seq<nat>)
    ensures Lists(ids, all)
  {
    ids := [];
    var rest := all;
    while rest != {}
      invariant rest <= all && Lists(ids, all - rest)
      decreases rest
    {
      var id :| id in rest;
      ids := ids + [id];
      rest := rest - {id};
    }
  }

  /** Every call either takes effect or fails and changes nothing. When `steady`, a call
      that removes or stops something fails only if that is missing or still in use.
      `moments` lists the worlds after every call so far, `undos` the numbers of those calls that
      remove or stop something, and `imageCalls` the calls about images. */
  class Client {
    const steady: bool
    var world: World
    ghost var moments: seq<World>
    ghost var undos: set<nat>
    ghost var imageCalls: seq<ImageCall>

    ghost predicate Valid()
      reads this
    {
      WellFormed(world) && forall k | k in undos :: k < |moments|
    }

    constructor (world: World, steady: bool)
      requires WellFormed(world)
      ensures Valid() && this.world == world && this.steady == steady && moments == [] && undos == {}
    {
      this.world := world;
      this.steady := steady;
      moments := [];
      undos := {};
      imageCalls := [];
    }

    method NetworkCreate(name: string, labels: Labels) returns (r: Reply<NetworkId>)
      requires Valid()
      modifies `world, `moments
      ensures Valid() && moments == old(moments) + [world]
      ensures r.Done? ==>
                && !HasNetwork(old(world), name) && r.value == old(world).next
                && world == old(world).(networks := old(world).networks[r.value := Network(name, labels)],
                                        next := old(world).next + 1)
      ensures r.AlreadyExists? ==> HasNetwork(old(world), name)
      ensures !r.Done? ==> world == old(world)
    {
      var refused := *;
      if refused {
        r := Refused;
      } else if exists n :: n in world.networks && world.networks[n].name == name {
        r := AlreadyExists;
      } else {
        r := Done(world.next);
        world := world.(networks := world.networks[world.next := Network(name, labels)], next := world.next + 1);
      }
      moments := moments + [world];
    }

    method NetworkRemove(id: NetworkId) returns (ok: bool)
      requires Valid()
      modifies `world, `moments, `undos
      ensures Valid() && moments == old(moments) + [world]
      ensures undos == old(undos) + {|old(moments)|}
      ensures ok ==> id in old(world).networks && !NetworkUsed(old(world), id)
                     && world == old(world).(networks := old(world).networks - {id})
      ensures !ok ==> world == old(world)
      ensures steady && id in old(world).networks && !NetworkUsed(old(world), id) ==> ok
    {
      var failed := *;
      ok := id in world.networks
            && (forall c | c in world.containers :: id !in world.containers[c].networks)
            && (steady || !failed);
      if ok {
        world := world.(networks := world.networks - {id});
      }
      undos := undos + {|moments|};
      moments := moments + [world];
    }

    /** Creating a volume that exists is answered in any way and changes nothing. */
    method VolumeCreate(name: string, labels: Labels) returns (r: Reply<()>)
      requires Valid()
      modifies `world, `moments
      ensures Valid() && moments == old(moments) + [world]
      ensures r.Done? ==>
                world == if name in old(world).volumes then old(world)
                         else old(world).(volumes := old(world).volumes[name := labels])
      ensures r.AlreadyExists? ==> name in old(world).volumes
      ensures !r.Done? ==> world == old(world)
    {
      var refused, idempotent := *, *;
      if refused {
        r := Refused;
      } else if name in world.volumes {
        r := if idempotent then Done(()) else AlreadyExists;
      } else {
        r := Done(());
        world := world.(volumes := world.volumes[name := labels]);
      }
      moments := moments + [world];
    }

    method VolumeRemove(name: string) returns (ok: bool)
      requires Valid()
      modifies `world, `moments, `undos
      ensures Valid() && moments == old(moments) + [world]
      ensures undos == old(undos) + {|old(moments)|}
      ensures ok ==> name in old(world).volumes && !VolumeUsed(old(world), name)
                     && world == old(world).(volumes := old(world).volumes - {name})
      ensures !ok ==> world == old(world)
      ensures steady && name in old(world).volumes && !VolumeUsed(old(world), name) ==> ok
    {
      var failed := *;
      ok := name in world.volumes
            && (forall c | c in world.containers :: name !in world.containers[c].volumes)
            && (steady || !failed);
      if ok {
        world := world.(volumes := world.volumes - {name});
      }
      undos := undos + {|moments|};
      moments := moments + [world];
    }

    method ContainerCreate(cfg: Config) returns (r: Reply<ContainerId>)
      requires Valid()
      modifies `world, `moments
      ensures Valid() && moments == old(moments) + [world]
      ensures r.Done? ==>
                && !HasContainer(old(world), cfg.name) && r.value == old(world).next
                && world == old(world).(
                              containers := old(world).containers[r.value := Created(old(world), cfg)],
                              next := old(world).next + 1)
      ensures !r.Done? ==> world == old(world)
    {
      var refused := *;
      if refused {
        r := Refused;
      } else if exists c :: c in world.containers && world.containers[c].name == cfg.name {
        r := AlreadyExists;
      } else {
        r := Done(world.next);
        world := world.(containers := world.containers[world.next := Created(world, cfg)], next := world.next + 1);
      }
      moments := moments + [world];
    }

    method ContainerStart(id: ContainerId) returns (ok: bool)
      requires Valid()
      modifies `world, `moments
      ensures Valid() && moments == old(moments) + [world]
      ensures ok ==> id in old(world).containers
                     && world == old(world).(containers := old(world).containers[
                                                             id := old(world).containers[id].(running := true)])
      ensures !ok ==> world == old(world)
    {
      var failed := *;
      ok := id in world.containers && !failed;
      if ok {
        world := world.(containers := world.containers[id := world.containers[id].(running := true)]);
      }
      moments := moments + [world];
    }

    method ContainerStop(id: ContainerId) returns (ok: bool)
      requires Valid()
      modifies `world, `moments, `undos
      ensures Valid() && moments == old(moments) + [world]
      ensures undos == old(undos) + {|old(moments)|}
      ensures ok ==> id in old(world).containers
                     && world == old(world).(containers := old(world).containers[
                                                             id := old(world).containers[id].(running := false)])
      ensures !ok ==> world == old(world)
      ensures steady && id in old(world).containers ==> ok
    {
      var failed := *;
      ok := id in world.containers && (steady || !failed);
      if ok {
        world := world.(containers := world.containers[id := world.containers[id].(running := false)]);
      }
      undos := undos + {|moments|};
      moments := moments + [world];
    }

    /** The removal is forced: a running container goes too. */
    method ContainerRemove(id: ContainerId) returns (ok: bool)
      requires Valid()
      modifies `world, `moments, `undos
      ensures Valid() && moments == old(moments) + [world]
      ensures undos == old(undos) + {|old(moments)|}
      ensures ok ==> id in old(world).containers
                     && world == old(world).(containers := old(world).containers - {id})
      ensures !ok ==> world == old(world)
      ensures steady && id in old(world).containers ==> ok
    {
      var failed := *;
      ok := id in world.containers && (steady || !failed);
      if ok {
        world := world.(containers := world.containers - {id});
      }
      undos := undos + {|moments|};
      moments := moments + [world];
    }

    /** The networks in some order, or nothing if the listing failed. */
    method NetworkList() returns (ok: bool, ids: seq<NetworkId>)
      ensures if ok then Lists(ids, world.networks.Keys) else ids == []
    {
      ok, ids := *, [];
      if ok {
        ids := InSomeOrder(world.networks.Keys);
      }
    }

    method VolumeList() returns (ok: bool, names: set<string>)
      ensures names == if ok then world.volumes.Keys else {}
    {
      ok := *;
      names := if ok then world.volumes.Keys else {};
    }

    /** The containers with a project label, in some order. */
    method ContainerList(project: string) returns (ok: bool, ids: seq<ContainerId>)
      ensures ok ==> Lists(ids, set c | c in world.containers
                                        && Label(world.containers[c].labels, PROJECT_LABEL) == project)
    {
      ok, ids := *, [];
      if ok {
        ids := InSomeOrder(set c | c in world.containers
                                   && Label(world.containers[c].labels, PROJECT_LABEL) == project);
      }
    }

    /** Image calls leave containers, networks and volumes alone. */
    method ImageBuild(tag: string) returns (ok: bool)
      modifies `imageCalls
      ensures imageCalls == old(imageCalls) + [Built(tag, ok)]
    {
      ok := *;
      imageCalls := imageCalls + [Built(tag, ok)];
    }

    method ImageExists(image: string) returns (ok: bool, present: bool)
      modifies `imageCalls
      ensures imageCalls == old(imageCalls) + [Asked(image, if ok then Some(present) else None)]
    {
      ok, present := *, *;
      imageCalls := imageCalls + [Asked(image, if ok then Some(present) else None)];
    }

    method ImagePull(image: string) returns (ok: bool)
      modifies `imageCalls
      ensures imageCalls == old(imageCalls) + [Pulled(image, ok)]
    {
      ok := *;
      imageCalls := imageCalls + [Pulled(image, ok)];
    }
  }
}
