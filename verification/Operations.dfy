/** Up and Down of internal/docker/operations.go. */
module Operations {
  import opened Services
  import opened Daemon
  import opened Compose
  import TopoSort

  /** In all the moments from number `n` on the containers are `cs`. */
  ghost predicate ContainersStayed(moments: seq<World>, n: nat, cs: map<ContainerId, Container>) {
    forall k | n <= k < |moments| :: moments[k].containers == cs
  }

  /** What Up returns: an error before anything was done, or a result. */
  datatype Outcome = PortConflict | Finished(result: OpResult)

  /** Up ended before it came to the containers. */
  predicate EndedEarly(out: Outcome) {
    out.PortConflict? || out.result.status in {RolledBack(NetworkConflict), RolledBack(VolumeConflict)}
  }

  /** What became of one service: passed over, running, or a failed step. */
  datatype Launch = PassedOver | Launched(id: ContainerId) | Broken(code: Code)

  function StatusOf(out: Launch): Status {
    if out.Broken? then RolledBack(out.code) else Succeeded
  }

  class Operations {
    const client: Client

    constructor (client: Client)
      ensures this.client == client
    {
      this.client := client;
    }

    /** The first network of the name in the listing decides: it is a conflict if no project owns
        it. A listing that fails is none. */
    method CheckNetworkConflict(name: string) returns (conflict: bool, ghost listed: bool, ghost ids: seq<NetworkId>)
      ensures if listed then Lists(ids, client.world.networks.Keys) else ids == []
      ensures conflict <==> exists i :: IsFirstOfName(client.world, ids, i, name)
                                        && Label(client.world.networks[ids[i]].labels, PROJECT_LABEL) == ""
    {
      var ok, networks := client.NetworkList();
      conflict, listed, ids := false, ok, networks;
      for i := 0 to |networks|
        invariant forall j | 0 <= j < i :: client.world.networks[networks[j]].name != name
      {
        var net := client.world.networks[networks[i]];
        if net.name == name {
          conflict := Label(net.labels, PROJECT_LABEL) == "";
          assert IsFirstOfName(client.world, ids, i, name);
          return;
        }
      }
    }

    /** A volume is in conflict if it belongs to another project; an unmanaged one is reused. */
    method CheckVolumeConflict(name: string, project: string) returns (conflict: bool, ghost listed: bool)
      ensures conflict ==> name in client.world.volumes
                           && Label(client.world.volumes[name], PROJECT_LABEL) !in {"", project}
      ensures listed && !conflict && name in client.world.volumes ==>
                Label(client.world.volumes[name], PROJECT_LABEL) in {"", project}
    {
      var ok, names := client.VolumeList();
      conflict, listed := false, ok;
      if name in names {
        var owner := Label(client.world.volumes[name], PROJECT_LABEL);
        if owner == project {
          return;
        }
        if owner != "" {
          conflict := true;
        }
      }
    }

    method RollbackNetworks(ids: seq<NetworkId>)
      requires client.Valid()
      modifies client`world, client`moments, client`undos
      ensures client.Valid() && old(client.moments) <= client.moments
      ensures Undid(old(client.undos), client.undos, |old(client.moments)|, |client.moments|)
      ensures client.world == old(client.world).(networks := client.world.networks)
      ensures old(client.world).networks - Ids(ids) == client.world.networks - Ids(ids)
      ensures client.steady
              && (forall n | n in ids :: n in old(client.world).networks && !NetworkUsed(old(client.world), n)) ==>
                client.world.networks == old(client.world).networks - Ids(ids)
      ensures ContainersStayed(client.moments, |old(client.moments)|, old(client.world).containers)
    {
      var w0 := client.world;
      assert w0.networks - Ids(ids[..0]) == w0.networks;
      for i := 0 to |ids|
        invariant client.Valid() && old(client.moments) <= client.moments
        invariant Undid(old(client.undos), client.undos, |old(client.moments)|, |client.moments|)
        invariant client.world == w0.(networks := client.world.networks)
        invariant w0.networks - Ids(ids) == client.world.networks - Ids(ids)
        invariant client.steady && (forall n | n in ids :: n in w0.networks && !NetworkUsed(w0, n)) ==>
                    client.world.networks == w0.networks - Ids(ids[..i])
        invariant ContainersStayed(client.moments, |old(client.moments)|, w0.containers)
      {
        assert Ids(ids[..i + 1]) == Ids(ids[..i]) + {ids[i]};
        var _ := client.NetworkRemove(ids[i]);
      }
      assert ids[..|ids|] == ids;
    }

    method RollbackVolumes(names: seq<string>)
      requires client.Valid()
      modifies client`world, client`moments, client`undos
      ensures client.Valid() && old(client.moments) <= client.moments
      ensures Undid(old(client.undos), client.undos, |old(client.moments)|, |client.moments|)
      ensures client.world == old(client.world).(volumes := client.world.volumes)
      ensures VolumesKept(old(client.world), client.world, names)
      ensures client.steady ==>
                client.world.volumes == old(client.world).volumes - Unmounted(old(client.world), names)
      ensures ContainersStayed(client.moments, |old(client.moments)|, old(client.world).containers)
    {
      var w0 := client.world;
      assert w0.volumes - Unmounted(w0, names[..0]) == w0.volumes;
      for i := 0 to |names|
        invariant client.Valid() && old(client.moments) <= client.moments
        invariant Undid(old(client.undos), client.undos, |old(client.moments)|, |client.moments|)
        invariant client.world == w0.(volumes := client.world.volumes)
        invariant VolumesKept(w0, client.world, names)
        invariant client.steady ==> client.world.volumes == w0.volumes - Unmounted(w0, names[..i])
        invariant ContainersStayed(client.moments, |old(client.moments)|, w0.containers)
      {
        UnmountedStep(w0, names, i);
        var _ := client.VolumeRemove(names[i]);
      }
      assert names[..|names|] == names;
    }

    /** Stops and removes the last container of the run that is still there. */
    method UndoContainer(ids: seq<ContainerId>, i: nat, ghost cs: map<ContainerId, Container>, ghost r: Run)
      requires client.Valid() && AllUp(cs, r) && r.made == ids && i < |ids|
      requires client.world.containers - Ids(ids) == r.base
      requires client.steady ==> client.world.containers == cs - Ids(ids[i + 1..])
      modifies client`world, client`moments, client`undos
      ensures client.Valid() && old(client.moments) <= client.moments
      ensures Undid(old(client.undos), client.undos, |old(client.moments)|, |client.moments|)
      ensures client.world == old(client.world).(containers := client.world.containers)
      ensures client.world.containers - Ids(ids) == r.base
      ensures client.steady ==> client.world.containers == cs - Ids(ids[i..])
      ensures client.steady ==> AreMoments(client.moments, |old(client.moments)|, r)
    {
      StopThenRemove(cs, r, i);
      StoppedIsMoment(cs, r, i);
      RemovedIsMoment(cs, r, i);
      ghost var before := client.world.containers;
      var _ := client.ContainerStop(ids[i]);
      if ids[i] in before {
        OwnChange(before, ids, ids[i], before[ids[i]].(running := false));
        OwnChange(client.world.containers, ids, ids[i], before[ids[i]]);
      }
      var _ := client.ContainerRemove(ids[i]);
    }

    method RollbackContainers(ids: seq<ContainerId>, ghost r: Run)
      requires client.Valid() && AllUp(client.world.containers, r) && r.made == ids
      modifies client`world, client`moments, client`undos
      ensures client.Valid() && old(client.moments) <= client.moments
      ensures Undid(old(client.undos), client.undos, |old(client.moments)|, |client.moments|)
      ensures client.world == old(client.world).(containers := client.world.containers)
      ensures client.world.containers - Ids(ids) == r.base
      ensures client.steady ==> client.world.containers == r.base
      ensures client.steady ==> AreMoments(client.moments, |old(client.moments)|, r)
    {
      ghost var w0 := client.world;
      RemovedIsMoment(w0.containers, r, |ids|);
      RemovedIsMoment(w0.containers, r, 0);
      var i := |ids|;
      while i > 0
        invariant 0 <= i <= |ids| && client.Valid() && old(client.moments) <= client.moments
        invariant Undid(old(client.undos), client.undos, |old(client.moments)|, |client.moments|)
        invariant client.world == w0.(containers := client.world.containers)
        invariant client.world.containers - Ids(ids) == r.base
        invariant client.steady ==> client.world.containers == w0.containers - Ids(ids[i..])
        invariant client.steady ==> AreMoments(client.moments, |old(client.moments)|, r)
      {
        i := i - 1;
        UndoContainer(ids, i, w0.containers, r);
      }
    }

    /** Phase 2 of Up. */
    method CreateNetworks(p: Project)
      returns (ok: bool, created: seq<NetworkId>, steps: seq<OpStep>, ghost held: nat)
      requires client.Valid()
      modifies client`world, client`moments, client`undos
      ensures client.Valid() && old(client.moments) <= client.moments
      ensures |old(client.moments)| <= held <= |client.moments| && (ok ==> held == |client.moments|)
      ensures Undid(old(client.undos), client.undos, held, |client.moments|)
      ensures ContainersStayed(client.moments, |old(client.moments)|, old(client.world).containers)
      ensures client.world == old(client.world).(networks := client.world.networks, next := client.world.next)
      ensures old(client.world).next <= client.world.next && NetworksKept(old(client.world), client.world)
      ensures ok ==> AllSucceeded(steps) && NetworksMade(p, old(client.world), client.world, created)
      ensures ok ==> forall n | n in p.networks && !p.networks[n].external ::
                HasNetwork(client.world, NetworkName(p, n))
      ensures NetworkLog(p, steps, ok)
      ensures !ok ==> LastFailed(steps) && (client.steady ==> client.world.networks == old(client.world).networks)
    {
      ghost var w0 := client.world;
      created, steps := [], [];
      var rest := p.networks.Keys;
      while rest != {}
        invariant rest <= p.networks.Keys && client.Valid() && old(client.moments) <= client.moments
        invariant client.undos == old(client.undos)
        invariant ContainersStayed(client.moments, |old(client.moments)|, w0.containers)
        invariant client.world == w0.(networks := client.world.networks, next := client.world.next)
        invariant w0.next <= client.world.next
        invariant AllSucceeded(steps) && NetworksMade(p, w0, client.world, created)
        invariant NetworkLog(p, steps, false) && forall x | x in steps :: x.action.key !in rest
        invariant forall n | n in p.networks && n !in rest && !p.networks[n].external ::
                    OpStep("", Action.CreateNetwork(n), false) in steps
        invariant forall n | n in p.networks && n !in rest && !p.networks[n].external ::
                    HasNetwork(client.world, NetworkName(p, n))
        decreases rest
      {
        var key :| key in rest;
        rest := rest - {key};
        if p.networks[key].external {
          continue;
        }
        var done, more := CreateNetwork(p, key, created, w0);
        NetworkLogMore(p, steps, key, !done);
        StepMore(steps, OpStep("", Action.CreateNetwork(key), !done));
        if !done {
          steps := steps + [OpStep("", Action.CreateNetwork(key), true)];
          NewNetworksUnused(w0, client.world, created);
          held := |client.moments|;
          RollbackNetworks(created);
          return false, created, steps, held;
        }
        created := more;
        steps := steps + [OpStep("", Action.CreateNetwork(key), false)];
      }
      ok, held := true, |client.moments|;
    }

    /** One declared network: made now, or there already. */
    method CreateNetwork(p: Project, key: string, created: seq<NetworkId>, ghost w0: World)
      returns (ok: bool, more: seq<NetworkId>)
      requires client.Valid() && key in p.networks && !p.networks[key].external
      requires NetworksMade(p, w0, client.world, created) && w0.next <= client.world.next
      modifies client`world, client`moments, client`undos
      ensures client.Valid() && old(client.moments) <= client.moments && client.undos == old(client.undos)
      ensures ContainersStayed(client.moments, |old(client.moments)|, old(client.world).containers)
      ensures client.world == old(client.world).(networks := client.world.networks, next := client.world.next)
      ensures old(client.world).next <= client.world.next
      ensures NetworksMade(p, w0, client.world, more)
      ensures forall name | HasNetwork(old(client.world), name) :: HasNetwork(client.world, name)
      ensures ok ==> HasNetwork(client.world, NetworkName(p, key))
      ensures !ok ==> client.world == old(client.world) && more == created
    {
      more := created;
      var name := NetworkName(p, key);
      var conflict, _, _ := CheckNetworkConflict(name);
      if conflict {
        return false, more;
      }
      ghost var w := client.world;
      var labels := NetworkLabels(p, key);
      var r := client.NetworkCreate(name, labels);
      match r {
        case Refused => ok := false;
        case AlreadyExists => ok := true;
        case Done(id) =>
          NotThereBefore(w0, w, created, name);
          assert IsMadeFor(p, key, Network(name, labels));
          NetworkAdded(p, w0, w, created, client.world, Network(name, labels));
          MoreNetworks(w, client.world);
          ok, more := true, created + [id];
          assert client.world.networks[id].name == name;
      }
    }

    /** Phase 3 of Up: every volume is recorded as created, even one that was there. */
    method CreateVolumes(p: Project, networks: seq<NetworkId>, ghost w0: World)
      returns (ok: bool, created: seq<string>, steps: seq<OpStep>, ghost held: nat)
      requires client.Valid() && WellFormed(w0)
      requires client.world.containers == w0.containers && client.world.volumes == w0.volumes
      requires NetworksPlus(w0, client.world, networks) && w0.next <= client.world.next
      modifies client`world, client`moments, client`undos
      ensures client.Valid() && old(client.moments) <= client.moments
      ensures |old(client.moments)| <= held <= |client.moments| && (ok ==> held == |client.moments|)
      ensures Undid(old(client.undos), client.undos, held, |client.moments|)
      ensures ContainersStayed(client.moments, |old(client.moments)|, w0.containers)
      ensures client.world.containers == w0.containers && client.world.next == old(client.world).next
      ensures created == VolumesIn(p, steps) && forall v | v in created :: IsOwnVolume(p, v)
      ensures ok ==> client.world == old(client.world).(volumes := client.world.volumes)
      ensures ok ==> AllSucceeded(steps) && VolumesMade(p, w0, client.world, created) && RecordsOwn(p, created)
      ensures VolumeLog(p, steps, ok) && (!ok ==> LastFailed(steps))
      ensures !ok ==> client.world.networks - Ids(networks) == w0.networks && VolumesKept(w0, client.world, created)
      ensures !ok && client.steady ==> client.world.networks == w0.networks
      ensures !ok && client.steady ==> client.world.volumes == w0.volumes - Unmounted(w0, created)
    {
      ghost var w1 := client.world;
      created, steps := [], [];
      var rest := p.volumes.Keys;
      while rest != {}
        invariant rest <= p.volumes.Keys && client.Valid() && old(client.moments) <= client.moments
        invariant client.undos == old(client.undos)
        invariant ContainersStayed(client.moments, |old(client.moments)|, w0.containers)
        invariant client.world == w1.(volumes := client.world.volumes)
        invariant created == VolumesIn(p, steps) && AllSucceeded(steps) && VolumesMade(p, w0, client.world, created)
        invariant VolumeLog(p, steps, false) && forall x | x in steps :: x.action.key !in rest
        invariant forall v | v in p.volumes && v !in rest && !p.volumes[v].external ::
                    VolumeName(p, v) in created && OpStep("", Action.CreateVolume(v), false) in steps
        decreases rest
      {
        var key :| key in rest;
        rest := rest - {key};
        if p.volumes[key].external {
          continue;
        }
        ghost var was := client.world;
        var done := CreateVolume(p, key);
        VolumesInAppend(p, steps, OpStep("", Action.CreateVolume(key), !done));
        VolumeLogMore(p, steps, key, !done);
        StepMore(steps, OpStep("", Action.CreateVolume(key), !done));
        steps := steps + [OpStep("", Action.CreateVolume(key), !done)];
        if !done {
          held := |client.moments|;
          RollbackPlaces(networks, created, w0);
          return false, created, steps, held;
        }
        VolumesGrow(p, w0, was, created, client.world, key);
        created := created + [VolumeName(p, key)];
      }
      ok, held := true, |client.moments|;
    }

    method CreateVolume(p: Project, key: string) returns (ok: bool)
      requires client.Valid() && key in p.volumes
      modifies client`world, client`moments, client`undos
      ensures client.Valid() && old(client.moments) <= client.moments && client.undos == old(client.undos)
      ensures ContainersStayed(client.moments, |old(client.moments)|, old(client.world).containers)
      ensures ok ==> client.world == old(client.world).(volumes := client.world.volumes)
                     && client.world.volumes
                        == WithVolume(old(client.world).volumes, VolumeName(p, key), VolumeLabels(p, key))
      ensures !ok ==> client.world == old(client.world)
    {
      var name := VolumeName(p, key);
      var conflict, _ := CheckVolumeConflict(name, p.id);
      if conflict {
        return false;
      }
      var r := client.VolumeCreate(name, VolumeLabels(p, key));
      ok := !r.Refused?;
    }

    /** rollbackVolumes, then rollbackNetworks, with the containers as they were before Up. */
    method RollbackPlaces(networks: seq<NetworkId>, volumes: seq<string>, ghost w0: World)
      requires client.Valid() && WellFormed(w0) && ContainersKept(w0, client.world)
      requires NetworksPlus(w0, client.world, networks) && VolumesPlus(w0, client.world, volumes)
      requires client.steady ==> client.world.containers == w0.containers
      modifies client`world, client`moments, client`undos
      ensures client.Valid() && old(client.moments) <= client.moments
      ensures Undid(old(client.undos), client.undos, |old(client.moments)|, |client.moments|)
      ensures ContainersStayed(client.moments, |old(client.moments)|, old(client.world).containers)
      ensures client.world.containers == old(client.world).containers && client.world.next == old(client.world).next
      ensures client.world.networks - Ids(networks) == w0.networks && VolumesKept(w0, client.world, volumes)
      ensures client.steady ==> client.world.networks == w0.networks
      ensures client.steady ==> client.world.volumes == w0.volumes - Unmounted(w0, volumes)
    {
      ghost var w := client.world;
      if client.steady {
        NewNetworksUnused(w0, w, networks);
        VolumesRestored(w0, w, volumes);
      }
      RollbackVolumes(volumes);
      VolumesKeptSince(w0, w, client.world, volumes);
      RollbackNetworks(networks);
    }

    method ResolveNetworks(p: Project, wanted: seq<string>) returns (got: seq<string>)
      ensures NetworksResolved(p, wanted, got)
    {
      if |wanted| == 0 {
        return [p.name + "_default"];
      }
      got := [];
      for i := 0 to |wanted|
        invariant |got| == i && forall k | 0 <= k < i :: got[k] == ResolvedNetwork(p, wanted[k])
      {
        var n := wanted[i];
        if n in p.networks {
          var def := p.networks[n];
          if def.name != "" {
            got := got + [def.name];
          } else if def.external {
            got := got + [n];
          } else {
            got := got + [p.name + "_" + n];
          }
        } else {
          got := got + [p.name + "_" + n];
        }
      }
    }

    method ResolveVolumeMounts(p: Project, wanted: seq<Mount>) returns (got: seq<Mount>)
      ensures MountsResolved(p, wanted, got)
    {
      got := [];
      for i := 0 to |wanted|
        invariant |got| == i
        invariant forall k | 0 <= k < i :: got[k] == wanted[k].(source := ResolvedSource(p, wanted[k]))
      {
        var m := wanted[i];
        if m.kind == "volume" && m.source != "" && m.source[0] != '/' && m.source in p.volumes {
          var vol := p.volumes[m.source];
          if vol.name != "" {
            m := m.(source := vol.name);
          } else {
            m := m.(source := p.name + "_" + m.source);
          }
        }
        got := got + [m];
      }
    }

    /** The image of a service, built or pulled. */
    method PrepareImage(s: Service, image: string) returns (ok: bool, code: Code, step: OpStep)
      modifies client`imageCalls
      ensures step == OpStep(s.name, if s.build then Build else Pull, !ok)
      ensures old(client.imageCalls) <= client.imageCalls
      ensures PreparesImage(s.build, image, ok, code, client.imageCalls[|old(client.imageCalls)|..])
    {
      code := Internal;
      if s.build {
        ok := client.ImageBuild(image);
        step := OpStep(s.name, Build, !ok);
        return;
      }
      var present: bool;
      ok, present := client.ImageExists(image);
      if !ok {
        return false, DockerUnavailable, OpStep(s.name, Pull, true);
      }
      if !present {
        ok := client.ImagePull(image);
        code := ImagePullFailed;
      }
      step := OpStep(s.name, Pull, !ok);
    }

    /** The call that creates the container of a service. */
    method CreateContainer(p: Project, s: Service, image: string, ghost at: World)
      returns (r: Reply<ContainerId>, ghost c: Container)
      requires client.Valid() && SamePlaces(client.world, at) && image == ImageName(p, s)
      modifies client`world, client`moments
      ensures client.Valid() && client.moments == old(client.moments) + [client.world]
      ensures Fits(p, s, c, at) && !c.running
      ensures r.Done? ==>
                && r.value == old(client.world).next
                && client.world == old(client.world).(containers := old(client.world).containers[r.value := c],
                                                      next := old(client.world).next + 1)
      ensures !r.Done? ==> client.world == old(client.world)
    {
      var volumes := ResolveVolumeMounts(p, s.mounts);
      var networks := ResolveNetworks(p, s.networks);
      var cfg := Config(ContainerName(p, s.name), image, LabelsOf(p, s), networks, MountedVolumes(volumes));
      CreatedFits(p, s, client.world, cfg, volumes, at);
      c := Created(client.world, cfg);
      r := client.ContainerCreate(cfg);
    }

    /** Starts the container just made, or removes it again. */
    method StartContainer(s: Service, id: ContainerId, ghost cs: map<ContainerId, Container>, ghost c: Container,
                          ghost r: Run)
      returns (ok: bool, ghost held: nat)
      requires client.Valid() && client.world.containers == cs[id := c] && id !in cs && !c.running
      requires AllUp(cs, r) && id !in r.made && Fits(r.project, s, c, r.at)
      modifies client`world, client`moments, client`undos
      ensures client.Valid() && old(client.moments) <= client.moments
      ensures |old(client.moments)| <= held <= |client.moments| && (ok ==> held == |client.moments|)
      ensures Undid(old(client.undos), client.undos, held, |client.moments|)
      ensures client.world == old(client.world).(containers := client.world.containers)
      ensures ok ==> AllUp(client.world.containers, Tried(r, id, s))
      ensures !ok ==> client.world.containers - {id} == cs
      ensures !ok && client.steady ==> client.world.containers == cs
      ensures AreMoments(client.moments, |old(client.moments)|, Tried(r, id, s))
      ensures Below(client.moments, |old(client.moments)|, client.world.next)
    {
      StartsOrNot(cs, r, id, s, c);
      ok := client.ContainerStart(id);
      held := |client.moments|;
      if !ok {
        var _ := client.ContainerRemove(id);
      }
    }

    /** Creates and starts the container of a service. */
    method LaunchContainer(p: Project, s: Service, image: string, ghost r: Run)
      returns (out: Launch, steps: seq<OpStep>, ghost r': Run, ghost held: nat)
      requires client.Valid() && AllUp(client.world.containers, r) && r.project == p && SamePlaces(client.world, r.at)
      requires image == ImageName(p, s)
      modifies client`world, client`moments, client`undos
      ensures client.Valid() && old(client.moments) <= client.moments
      ensures |old(client.moments)| <= held <= |client.moments| && (!out.Broken? ==> held == |client.moments|)
      ensures Undid(old(client.undos), client.undos, held, |client.moments|)
      ensures client.world == old(client.world).(containers := client.world.containers, next := client.world.next)
      ensures old(client.world).next <= client.world.next
      ensures Goes(r, r', old(client.world).next, s)
      ensures !out.PassedOver?
      ensures out.Launched? ==> r' == Tried(r, out.id, s) && AllUp(client.world.containers, r')
      ensures out.Broken? ==>
                client.world.containers - {old(client.world).next} == old(client.world).containers
                && out.code == ContainerFailed
      ensures out.Broken? && client.steady ==> client.world.containers == old(client.world).containers
      ensures if out.Broken? then LastFailed(steps) else AllSucceeded(steps)
      ensures if out.Broken? then Clean(steps) <= ContainerSteps(s) else steps == ContainerSteps(s)
      ensures Below(client.moments, |old(client.moments)|, client.world.next)
      ensures AreMoments(client.moments, |old(client.moments)|, r')
    {
      ghost var cs := client.world.containers;
      r' := r;
      var reply, c := CreateContainer(p, s, image, r.at);
      AllUpIsMoment(cs, r);
      if !reply.Done? {
        assert cs - {old(client.world).next} == cs;
        return Broken(ContainerFailed), [OpStep(s.name, Create, true)], r, |client.moments|;
      }
      var id := reply.value;
      r' := Tried(r, id, s);
      CreatedIsMoment(cs, r, id, s, c);
      var ok;
      ok, held := StartContainer(s, id, cs, c, r);
      steps := [OpStep(s.name, Create, false), OpStep(s.name, Start, !ok)];
      out := if ok then Launched(id) else Broken(ContainerFailed);
    }

    /** One pass of the loop over the sorted services, up to the rollback. */
    method LaunchService(p: Project, s: Service, ghost r: Run)
      returns (out: Launch, steps: seq<OpStep>, ghost r': Run, ghost held: nat)
      requires client.Valid() && AllUp(client.world.containers, r) && r.project == p && SamePlaces(client.world, r.at)
      modifies client
      ensures client.Valid() && old(client.moments) <= client.moments
      ensures |old(client.moments)| <= held <= |client.moments| && (!out.Broken? ==> held == |client.moments|)
      ensures Undid(old(client.undos), client.undos, held, |client.moments|)
      ensures client.world == old(client.world).(containers := client.world.containers, next := client.world.next)
      ensures old(client.world).next <= client.world.next
      ensures Goes(r, r', old(client.world).next, s) && (r' != r ==> !Skipped(s))
      ensures out.PassedOver? <==> Skipped(s)
      ensures out.PassedOver? ==> r' == r && AllUp(client.world.containers, r)
      ensures out.Launched? ==> r' == Tried(r, out.id, s) && AllUp(client.world.containers, r')
      ensures out.Broken? ==>
                client.world.containers - {old(client.world).next} == old(client.world).containers
      ensures out.Broken? && client.steady ==> client.world.containers == old(client.world).containers
      ensures ServiceLog(s, StatusOf(out), steps, client.imageCalls)
      ensures PullsMissingSince(old(client.imageCalls), client.imageCalls)
      ensures Below(client.moments, |old(client.moments)|, client.world.next)
      ensures AreMoments(client.moments, |old(client.moments)|, r')
    {
      r', held := r, |client.moments|;
      var image := s.image;
      if image == "" && s.build {
        image := p.name + "-" + s.name + ":latest";
      }
      if image == "" {
        return PassedOver, [OpStep(s.name, SkipNoImage, false)], r, held;
      }
      ghost var calls := client.imageCalls;
      var ok, code, step := PrepareImage(s, image);
      PreparedPullsMissing(s.build, image, ok, code, client.imageCalls[|calls|..]);
      if !ok {
        assert client.world.containers - {client.world.next} == client.world.containers;
        FirstStepFails(s, step, code, client.imageCalls);
        return Broken(code), [step], r, held;
      }
      out, steps, r', held := LaunchContainer(p, s, image, r);
      ContainerStepsFollow(s, step, steps, StatusOf(out), client.imageCalls);
      steps := [step] + steps;
    }

    /** The rollback of everything after a service failed to launch. */
    method RollbackAll(ids: seq<ContainerId>, networks: seq<NetworkId>, volumes: seq<string>,
                       ghost r: Run, ghost w0: World)
      requires client.Valid() && WellFormed(w0) && r.made == ids && AllUp(client.world.containers, r)
      requires NetworksPlus(w0, client.world, networks) && VolumesPlus(w0, client.world, volumes)
      requires forall c | c in w0.containers :: c in r.base && r.base[c] == w0.containers[c]
      requires client.steady ==> r.base == w0.containers
      modifies client`world, client`moments, client`undos
      ensures client.Valid() && old(client.moments) <= client.moments
      ensures Undid(old(client.undos), client.undos, |old(client.moments)|, |client.moments|)
      ensures client.world.containers - Ids(ids) == r.base && client.world.networks - Ids(networks) == w0.networks
      ensures VolumesKept(w0, client.world, volumes)
      ensures client.steady ==> UpRolledBack(w0, client.world, volumes)
      ensures client.steady ==> AreMoments(client.moments, |old(client.moments)|, r)
    {
      ghost var before := client.world.containers;
      RollbackContainers(ids, r);
      BaseKept(w0, client.world, r.base, ids);
      ghost var early := client.moments;
      if client.steady {
        RemovedIsMoment(before, r, 0);
      }
      RollbackPlaces(networks, volumes, w0);
      if client.steady {
        MomentsLast(early, client.moments, |old(client.moments)|, r);
      }
    }

    /** The rollback after container `id` could not be made or started; it may be left over
        if its removal failed. */
    method AbortLaunch(ids: seq<ContainerId>, networks: seq<NetworkId>, volumes: seq<string>,
                       ghost id: ContainerId, ghost s: Service, ghost before: map<ContainerId, Container>,
                       ghost r: Run, ghost r': Run, ghost w0: World)
      requires client.Valid() && WellFormed(w0) && r.made == ids && AllUp(before, r) && Goes(r, r', id, s)
      requires client.world.containers - {id} == before && (client.steady ==> client.world.containers == before)
      requires r.base == w0.containers && id >= w0.next && id !in ids
      requires NetworksPlus(w0, client.world, networks) && VolumesPlus(w0, client.world, volumes)
      modifies client`world, client`moments, client`undos
      ensures client.Valid() && old(client.moments) <= client.moments
      ensures Undid(old(client.undos), client.undos, |old(client.moments)|, |client.moments|)
      ensures Kept(w0, client.world, volumes)
      ensures client.steady ==> UpRolledBack(w0, client.world, volumes)
      ensures client.steady ==> AreMoments(client.moments, |old(client.moments)|, r')
    {
      ghost var here := r.(base := client.world.containers - Ids(ids));
      LeftOverIsUp(client.world.containers, before, id, r);
      RollbackAll(ids, networks, volumes, here, w0);
      KeptBehind(w0, client.world, here.base, ids, networks);
      if client.steady {
        MomentsWiden(client.moments, |old(client.moments)|, r, r', id, s);
      }
    }

    /** What holds while services are being launched: `n0` is the number of moments when that
        began. */
    ghost predicate Launching(p: Project, sorted: seq<Service>, i: nat, started: seq<ContainerId>, r: Run,
                              w0: World, n0: nat)
      requires i <= |sorted|
      reads client
    {
      && client.Valid() && WellFormed(w0) && SamePlaces(client.world, r.at)
      && w0.next <= client.world.next && n0 <= |client.moments|
      && r.base == w0.containers && r.project == p
      && AllUp(client.world.containers, r) && started == r.made && r.tried == Unskipped(sorted[..i])
      && AreMoments(client.moments, n0, r) && Below(client.moments, n0, client.world.next)
    }

    /** Launches service `i`; on failure everything is rolled back. */
    method LaunchNext(p: Project, sorted: seq<Service>, i: nat, started: seq<ContainerId>,
                      networks: seq<NetworkId>, volumes: seq<string>,
                      ghost r: Run, ghost w0: World, ghost n0: nat)
      returns (out: Launch, more: seq<ContainerId>, steps: seq<OpStep>, ghost r': Run, ghost held: nat)
      requires i < |sorted| && Launching(p, sorted, i, started, r, w0, n0)
      requires NetworksPlus(w0, r.at, networks) && VolumesPlus(w0, r.at, volumes)
      modifies client
      ensures client.Valid() && old(client.moments) <= client.moments
      ensures |old(client.moments)| <= held <= |client.moments| && (!out.Broken? ==> held == |client.moments|)
      ensures Undid(old(client.undos), client.undos, held, |client.moments|)
      ensures ServiceLog(sorted[i], StatusOf(out), steps, client.imageCalls) && (out.Broken? ==> !Skipped(sorted[i]))
      ensures PullsMissingSince(old(client.imageCalls), client.imageCalls)
      ensures !out.Broken? ==> Launching(p, sorted, i + 1, more, r', w0, n0)
      ensures r'.base == r.base && r'.project == r.project && r'.at == r.at
      ensures r'.tried == r.tried || r'.tried == Unskipped(sorted[..i + 1])
      ensures out.Broken? ==> Kept(w0, client.world, volumes) && AreMomentsTo(client.moments, n0, held, r')
      ensures out.Broken? && client.steady ==> UpRolledBack(w0, client.world, volumes)
      ensures out.Broken? && client.steady ==> AreMoments(client.moments, n0, r')
    {
      ghost var id, before, moments := client.world.next, client.world.containers, client.moments;
      var s := sorted[i];
      out, steps, r', held := LaunchService(p, s, r);
      MomentsJoin(moments, client.moments, n0, r, r', id, s);
      UnskippedNext(sorted, i);
      more := if out.Launched? then started + [out.id] else started;
      assert forall c | c in r.made :: c in Ids(r.made);
      if out.Broken? {
        AbortLaunch(started, networks, volumes, id, s, before, r, r', w0);
      }
    }

    /** What phase 4 of Up leaves behind. */
    ghost predicate LaunchEnds(status: Status, sorted: seq<Service>, volumes: seq<string>, r: Run, w0: World)
      reads client
    {
      match status
      case Succeeded => UpDone(client.world, r, sorted)
      case Cancelled => SamePlaces(client.world, r.at) && (client.steady ==> client.world.containers == w0.containers)
      case RolledBack(_) => client.steady ==> UpRolledBack(w0, client.world, volumes)
    }

    /** One pass of the loop over the sorted services: unless cancelled, the next one is launched. */
    method LaunchUnlessCancelled(p: Project, sorted: seq<Service>, i: nat, started: seq<ContainerId>,
                                 networks: seq<NetworkId>, volumes: seq<string>,
                                 ghost r: Run, ghost w0: World, ghost n0: nat)
      returns (status: Status, more: seq<ContainerId>, steps: seq<OpStep>, ghost r': Run, ghost held: nat)
      requires i < |sorted| && Launching(p, sorted, i, started, r, w0, n0)
      requires NetworksPlus(w0, r.at, networks) && VolumesPlus(w0, r.at, volumes)
      modifies client
      ensures client.Valid() && old(client.moments) <= client.moments
      ensures |old(client.moments)| <= held <= |client.moments| && (status.Succeeded? ==> held == |client.moments|)
      ensures Undid(old(client.undos), client.undos, held, |client.moments|)
      ensures ServiceLog(sorted[i], status, steps, client.imageCalls) && (status.RolledBack? ==> !Skipped(sorted[i]))
      ensures PullsMissingSince(old(client.imageCalls), client.imageCalls)
      ensures r'.base == r.base && r'.project == r.project && r'.at == r.at && r'.tried <= Unskipped(sorted)
      ensures if status.Succeeded? then Launching(p, sorted, i + 1, more, r', w0, n0)
              else LaunchEnds(status, sorted, volumes, r', w0) && Kept(w0, client.world, volumes)
      ensures AreMomentsTo(client.moments, n0, held, r')
      ensures client.steady ==> AreMoments(client.moments, n0, r')
    {
      UnskippedPrefix(sorted, i);
      UnskippedPrefix(sorted, i + 1);
      assert forall c | c in r.made :: c in Ids(r.made);
      status, more, steps, r', held := Succeeded, started, [], r, |client.moments|;
      var cancelled := *;
      if cancelled {
        CancelLaunch(started, networks, volumes, r, w0, n0);
        status := Cancelled;
        return;
      }
      var out;
      out, more, steps, r', held := LaunchNext(p, sorted, i, started, networks, volumes, r, w0, n0);
      if out.Broken? {
        status := RolledBack(out.code);
      }
    }

    /** Phase 4 of Up: `r` is what the run did to the containers. */
    method LaunchServices(p: Project, sorted: seq<Service>, networks: seq<NetworkId>, volumes: seq<string>,
                          ghost w0: World, ghost n0: nat)
      returns (status: Status, steps: seq<OpStep>, ghost r: Run, ghost held: nat)
      requires client.Valid() && WellFormed(w0)
      requires NetworksPlus(w0, client.world, networks) && VolumesPlus(w0, client.world, volumes)
      requires client.world.containers == w0.containers && w0.next <= client.world.next
      requires n0 <= |client.moments| && ContainersStayed(client.moments, n0, w0.containers)
      modifies client
      ensures client.Valid() && old(client.moments) <= client.moments
      ensures |old(client.moments)| <= held <= |client.moments| && (status.Succeeded? ==> held == |client.moments|)
      ensures Undid(old(client.undos), client.undos, held, |client.moments|)
      ensures r.base == w0.containers && r.project == p && r.at == old(client.world)
      ensures r.tried <= Unskipped(sorted)
      ensures LaunchLog(sorted, status, steps, client.imageCalls) && (status.RolledBack? ==> Unskipped(sorted) != [])
      ensures PullsMissingSince(old(client.imageCalls), client.imageCalls)
      ensures sorted == [] ==> status.Succeeded?
      ensures LaunchEnds(status, sorted, volumes, r, w0) && Kept(w0, client.world, volumes)
      ensures AreMomentsTo(client.moments, n0, held, r)
      ensures client.steady ==> AreMoments(client.moments, n0, r)
    {
      r := Run(w0.containers, p, client.world, [], []);
      assert w0.containers - Ids([]) == w0.containers;
      status, steps, held := Succeeded, [], |client.moments|;
      StayedAreMoments(client.moments, n0, r);
      var started: seq<ContainerId> := [];
      for i := 0 to |sorted|
        invariant Launching(p, sorted, i, started, r, w0, n0) && old(client.moments) <= client.moments
        invariant status.Succeeded? && held == |client.moments|
        invariant client.undos == old(client.undos) && r.at == old(client.world)
        invariant LogSoFar(sorted, i, steps)
        invariant PullsMissingSince(old(client.imageCalls), client.imageCalls)
      {
        ghost var calls := client.imageCalls;
        var next;
        status, started, next, r, held :=
          LaunchUnlessCancelled(p, sorted, i, started, networks, volumes, r, w0, n0);
        PullsMissingFurther(old(client.imageCalls), calls, client.imageCalls);
        LogGoesOn(sorted, i, steps, status, next, client.imageCalls);
        steps := steps + next;
        if !status.Succeeded? {
          UnskippedMembers(sorted, sorted[i]);
          return;
        }
      }
      LogEnds(sorted, steps, client.imageCalls);
      AllLaunched(sorted, w0, client.world, r, networks, volumes);
    }

    /** The rollback of a cancelled Up: only of the containers. */
    method CancelLaunch(ids: seq<ContainerId>, networks: seq<NetworkId>, volumes: seq<string>, ghost r: Run,
                        ghost w0: World, ghost n0: nat)
      requires client.Valid() && AllUp(client.world.containers, r) && r.made == ids && r.base == w0.containers
      requires n0 <= |client.moments| && AreMoments(client.moments, n0, r)
      requires NetworksPlus(w0, client.world, networks) && VolumesPlus(w0, client.world, volumes)
      modifies client`world, client`moments, client`undos
      ensures client.Valid() && old(client.moments) <= client.moments
      ensures Undid(old(client.undos), client.undos, |old(client.moments)|, |client.moments|)
      ensures SamePlaces(client.world, old(client.world)) && Kept(w0, client.world, volumes)
      ensures client.steady ==> client.world.containers == w0.containers
      ensures AreMomentsTo(client.moments, n0, |old(client.moments)|, r)
      ensures client.steady ==> AreMoments(client.moments, n0, r)
    {
      RollbackContainers(ids, r);
      KeptBehind(w0, client.world, r.base, ids, networks);
    }

    method FilterServices(services: seq<Service>, names: seq<string>) returns (filtered: seq<Service>)
      ensures filtered == Filtered(services, names)
    {
      if |names| == 0 {
        return services;
      }
      filtered := [];
      for i := 0 to |services|
        invariant filtered == Filtered(services[..i], names)
      {
        FilteredAppend(services[..i], names, services[i]);
        assert services[..i + 1] == services[..i] + [services[i]];
        for j := 0 to |names|
          invariant filtered == Filtered(services[..i], names)
          invariant services[i].name !in names[..j]
        {
          if services[i].name == names[j] {
            filtered := filtered + [services[i]];
            break;
          }
        }
        assert services[i].name in names || filtered == Filtered(services[..i + 1], names);
      }
      assert services[..|services|] == services;
    }

    /** Port probing: real sockets, so any answer is possible. */
    method CheckPortConflicts() returns (conflict: bool) {
      conflict := *;
    }

    /** Phase 4 of Up: the services in dependency order, after the log of the phases before. */
    method LaunchInOrder(p: Project, services: seq<string>, targets: seq<Service>, networks: seq<NetworkId>,
                         volumes: seq<string>, early: seq<OpStep>, ghost w0: World, ghost n0: nat)
      returns (result: OpResult, ghost g: TopoSort.Graph, ghost sorted: seq<Service>, ghost r: Run, ghost held: nat)
      requires client.Valid() && WellFormed(w0) && targets == Filtered(p.services, services)
      requires Prepared(p, w0, client.world, networks, volumes)
      requires client.world.containers == w0.containers && w0.next <= client.world.next
      requires PlacesLog(p, volumes, early)
      requires n0 <= |client.moments| && ContainersStayed(client.moments, n0, w0.containers)
      modifies client
      ensures client.Valid() && old(client.moments) <= client.moments
      ensures |old(client.moments)| <= held <= |client.moments|
      ensures result.status.Succeeded? ==> held == |client.moments|
      ensures Undid(old(client.undos), client.undos, held, |client.moments|)
      ensures r.base == w0.containers && r.project == p && r.at == old(client.world)
      ensures r.tried <= Unskipped(sorted)
      ensures UpLog(p, sorted, volumes, result.status, result.steps, client.imageCalls)
      ensures PullsMissingSince(old(client.imageCalls), client.imageCalls)
      ensures result.status !in {RolledBack(NetworkConflict), RolledBack(VolumeConflict)}
      ensures result.status.RolledBack? ==> Unskipped(sorted) != []
      ensures targets == [] ==> result.status.Succeeded?
      ensures IsPlan(p, services, g, sorted)
      ensures LaunchEnds(result.status, sorted, volumes, r, w0) && Kept(w0, client.world, volumes)
      ensures AreMomentsTo(client.moments, n0, held, r)
      ensures client.steady ==> AreMoments(client.moments, n0, r)
    {
      var order;
      order, g := TopoSort.Sort(targets);
      sorted := order;
      NothingPlanned(targets, order);
      var status, steps;
      status, steps, r, held := LaunchServices(p, order, networks, volumes, w0, n0);
      WholeLog(p, sorted, volumes, status, early, steps, client.imageCalls);
      result := OpResult(status, early + steps);
    }

    /** Phase 3 of Up, with the log of the phase before. */
    method CreateVolumesNext(p: Project, networks: seq<NetworkId>, steps2: seq<OpStep>, ghost w0: World)
      returns (ok: bool, volumes: seq<string>, steps: seq<OpStep>, ghost held: nat)
      requires client.Valid() && WellFormed(w0)
      requires client.world == w0.(networks := client.world.networks, next := client.world.next)
      requires NetworksMade(p, w0, client.world, networks) && w0.next <= client.world.next
      requires forall n | n in p.networks && !p.networks[n].external :: HasNetwork(client.world, NetworkName(p, n))
      requires AllSucceeded(steps2) && NetworkLog(p, steps2, true)
      modifies client`world, client`moments, client`undos
      ensures client.Valid() && old(client.moments) <= client.moments
      ensures |old(client.moments)| <= held <= |client.moments| && (ok ==> held == |client.moments|)
      ensures Undid(old(client.undos), client.undos, held, |client.moments|)
      ensures ContainersStayed(client.moments, |old(client.moments)|, w0.containers)
      ensures forall v | v in volumes :: IsOwnVolume(p, v)
      ensures ok ==> client.world.containers == w0.containers && w0.next <= client.world.next
      ensures ok ==> Prepared(p, w0, client.world, networks, volumes) && PlacesLog(p, volumes, steps)
      ensures !ok ==> UpLog(p, [], volumes, RolledBack(VolumeConflict), steps, client.imageCalls)
      ensures !ok ==> Kept(w0, client.world, volumes)
      ensures !ok && client.steady ==> UpRolledBack(w0, client.world, volumes)
    {
      var steps3;
      ok, volumes, steps3, held := CreateVolumes(p, networks, w0);
      steps := steps2 + steps3;
      if ok {
        PlacesLogged(p, volumes, steps2, steps3);
      } else {
        EarlyLog(p, volumes, steps2, steps3, client.imageCalls);
        KeptBehind(w0, client.world, w0.containers, [], networks);
      }
    }

    /** Phases 3 and 4 of Up, with the networks in place. */
    method UpWithNetworks(p: Project, services: seq<string>, targets: seq<Service>, networks: seq<NetworkId>,
                          steps2: seq<OpStep>, ghost w0: World, ghost n0: nat)
      returns (result: OpResult, ghost g: TopoSort.Graph, ghost sorted: seq<Service>, ghost r: Run,
               ghost vs: seq<string>, ghost held: nat)
      requires client.Valid() && WellFormed(w0) && targets == Filtered(p.services, services)
      requires client.world == w0.(networks := client.world.networks, next := client.world.next)
      requires NetworksMade(p, w0, client.world, networks) && w0.next <= client.world.next
      requires forall n | n in p.networks && !p.networks[n].external :: HasNetwork(client.world, NetworkName(p, n))
      requires AllSucceeded(steps2) && NetworkLog(p, steps2, true)
      requires n0 <= |client.moments| && ContainersStayed(client.moments, n0, w0.containers)
      modifies client
      ensures client.Valid() && old(client.moments) <= client.moments
      ensures |old(client.moments)| <= held <= |client.moments|
      ensures result.status.Succeeded? ==> held == |client.moments|
      ensures Undid(old(client.undos), client.undos, held, |client.moments|)
      ensures Kept(w0, client.world, vs) && forall v | v in vs :: IsOwnVolume(p, v)
      ensures r.base == w0.containers && r.project == p && r.tried <= Unskipped(sorted)
      ensures AreMomentsTo(client.moments, n0, held, r)
      ensures client.steady ==> AreMoments(client.moments, n0, r)
      ensures UpLog(p, sorted, vs, result.status, result.steps, client.imageCalls)
      ensures PullsMissingSince(old(client.imageCalls), client.imageCalls)
      ensures result.status != RolledBack(NetworkConflict)
      ensures if result.status == RolledBack(VolumeConflict) then r.tried == []
              else IsPlan(p, services, g, sorted) && Prepared(p, w0, r.at, networks, vs)
      ensures LaunchEnds(result.status, sorted, vs, r, w0)
      ensures result.status.RolledBack? ==> result.status == RolledBack(VolumeConflict) || Unskipped(sorted) != []
      ensures targets == [] ==> result.status in {RolledBack(VolumeConflict), Succeeded}
    {
      g, sorted := map[], [];
      r := Run(w0.containers, p, client.world, [], []);
      var ok, volumes, steps;
      ok, volumes, steps, held := CreateVolumesNext(p, networks, steps2, w0);
      StayedAreMoments(client.moments, n0, r);
      vs := volumes;
      if !ok {
        return OpResult(RolledBack(VolumeConflict), steps), g, sorted, r, vs, held;
      }
      result, g, sorted, r, held := LaunchInOrder(p, services, targets, networks, volumes, steps, w0, n0);
    }

    /** `g` is the dependency graph, `sorted` the order in which services are launched, `r` what
        the run did to the containers, `ns` the networks that it made, `vs` the volumes that
        it recorded and `held` the number of moments before the first undo. */
    method Up(p: Project, services: seq<string>)
      returns (out: Outcome, ghost g: TopoSort.Graph, ghost sorted: seq<Service>, ghost r: Run,
               ghost ns: seq<NetworkId>, ghost vs: seq<string>, ghost held: nat)
      requires client.Valid()
      modifies client
      ensures client.Valid() && old(client.moments) <= client.moments
      ensures Kept(old(client.world), client.world, vs) && forall v | v in vs :: IsOwnVolume(p, v)
      ensures out.PortConflict? ==> client.world == old(client.world)
      ensures out.Finished? ==>
                UpLog(p, sorted, vs, out.result.status, out.result.steps, client.imageCalls)
      ensures PullsMissingSince(old(client.imageCalls), client.imageCalls)
      ensures r.base == old(client.world).containers && r.project == p && r.tried <= Unskipped(sorted)
      ensures if EndedEarly(out) then r.tried == []
              else IsPlan(p, services, g, sorted) && Prepared(p, old(client.world), r.at, ns, vs)
      ensures |old(client.moments)| <= held <= |client.moments|
      ensures Undid(old(client.undos), client.undos, held, |client.moments|)
      ensures AreMomentsTo(client.moments, |old(client.moments)|, held, r)
      ensures client.steady ==> AreMoments(client.moments, |old(client.moments)|, r)
      ensures out.Finished? ==> LaunchEnds(out.result.status, sorted, vs, r, old(client.world))
      ensures out.Finished? && out.result.status.Succeeded? ==> held == |client.moments|
      ensures !EndedEarly(out) && out.result.status.RolledBack? ==> Unskipped(sorted) != []
      ensures !EndedEarly(out) && Filtered(p.services, services) == [] ==> out.result.status.Succeeded?
      ensures out.Finished? && out.result.status == RolledBack(NetworkConflict) ==>
                client.world == old(client.world).(networks := client.world.networks, next := client.world.next)
    {
      ghost var w0, n0 := client.world, |client.moments|;
      g, sorted, ns, vs, held := map[], [], [], [], n0;
      r := Run(w0.containers, p, w0, [], []);
      var targets := FilterServices(p.services, services);
      var conflict := CheckPortConflicts();
      if conflict {
        return PortConflict, g, sorted, r, ns, vs, held;
      }
      var ok, networks, steps;
      ok, networks, steps, held := CreateNetworks(p);
      StayedAreMoments(client.moments, n0, r);
      if !ok {
        FirstLog(p, steps, client.imageCalls);
        assert w0.volumes - Unmounted(w0, []) == w0.volumes;
        return Finished(OpResult(RolledBack(NetworkConflict), steps)), g, sorted, r, ns, vs, held;
      }
      var result;
      ns := networks;
      result, g, sorted, r, vs, held := UpWithNetworks(p, services, targets, networks, steps, w0, n0);
      out := Finished(result);
    }

    /** containsService */
    method ContainsService(services: seq<string>, name: string) returns (found: bool)
      ensures found == (name in services)
    {
      for i := 0 to |services|
        invariant name !in services[..i]
      {
        if services[i] == name {
          return true;
        }
      }
      assert services[..|services|] == services;
      found := false;
    }

    /** One container of the project in Down: passed over, or stopped and removed unless the
        operation was cancelled. */
    method TakeContainer(id: ContainerId, services: seq<string>, ghost p: Project, ghost w0: World)
      returns (cancelled: bool, steps: seq<OpStep>)
      requires client.Valid() && id in client.world.containers && id in w0.containers
      requires client.world.containers[id] == w0.containers[id] && IsOfProject(w0.containers[id], p.id)
      modifies client`world, client`moments, client`undos
      ensures client.Valid() && client.world == old(client.world).(containers := client.world.containers)
      ensures client.world.containers - {id} == old(client.world).containers - {id}
      ensures cancelled || !DownTakes(w0.containers[id], p.id, services) ==> client.world == old(client.world)
      ensures !cancelled && DownTakes(w0.containers[id], p.id, services) && client.steady ==>
                client.world.containers == old(client.world).containers - {id}
      ensures steps == if cancelled then []
                       else TakenSteps(w0.containers[id], id in client.world.containers, p.id, services)
    {
      cancelled, steps := false, [];
      var name := Label(client.world.containers[id].labels, SERVICE_LABEL);
      var named := ContainsService(services, name);
      if |services| > 0 && !named {
        return;
      }
      cancelled := *;
      if cancelled {
        return;
      }
      ghost var cs := client.world.containers;
      OwnChange(cs, [id], id, cs[id].(running := false));
      assert Ids([id]) == {id};
      var _ := client.ContainerStop(id);
      var ok := client.ContainerRemove(id);
      steps := [OpStep(name, StopIt, false), OpStep(name, Remove, !ok)];
    }

    /** The loop of Down over the containers of the project. */
    method TakeContainers(ids: seq<ContainerId>, services: seq<string>, ghost p: Project)
      returns (cancelled: bool, steps: seq<OpStep>, ghost done: nat)
      requires client.Valid() && Distinct(ids)
      requires forall c | c in ids :: c in client.world.containers && IsOfProject(client.world.containers[c], p.id)
      modifies client`world, client`moments, client`undos
      ensures client.Valid() && client.world == old(client.world).(containers := client.world.containers)
      ensures OthersContainersStay(old(client.world), client.world, p.id, services)
      ensures client.steady && !cancelled ==>
                client.world.containers
                == old(client.world).containers - TakenOf(old(client.world), p.id, services, ids)
      ensures done <= |ids| && (!cancelled ==> done == |ids|)
      ensures steps == DownSteps(old(client.world).containers, client.world.containers, p.id, services, ids[..done])
    {
      ghost var w0 := client.world;
      cancelled, steps, done := false, [], 0;
      assert w0.containers - TakenOf(w0, p.id, services, ids[..0]) == w0.containers;
      for i := 0 to |ids|
        invariant client.Valid() && Taking(w0, client.world, p.id, services, ids, i, client.steady)
        invariant done == i && steps == DownSteps(w0.containers, client.world.containers, p.id, services, ids[..i])
      {
        StillThere(client.world.containers, w0.containers, ids, i);
        ghost var before := client.world;
        var more;
        cancelled, more := TakeContainer(ids[i], services, p, w0);
        if cancelled {
          return;
        }
        TakingNext(w0, before, client.world, p.id, services, ids, i, client.steady);
        DownStepsNext(w0.containers, before.containers, client.world.containers, p.id, services, ids, i);
        steps, done := steps + more, i + 1;
      }
      cancelled := false;
      assert ids[..|ids|] == ids;
    }

    /** One network in a full Down: removed if it carries the label of the project and is free. */
    method TakeNetwork(n: NetworkId, p: Project) returns (steps: seq<OpStep>)
      requires client.Valid() && n in client.world.networks
      modifies client`world, client`moments, client`undos
      ensures client.Valid() && client.world == old(client.world).(networks := client.world.networks)
      ensures client.world.networks in {old(client.world).networks, old(client.world).networks - {n}}
      ensures n !in client.world.networks ==> n in FreeNetworks(old(client.world), p.id)
      ensures client.steady && n in FreeNetworks(old(client.world), p.id) ==> n !in client.world.networks
      ensures var net := old(client.world).networks[n];
              steps == if Label(net.labels, PROJECT_LABEL) == p.id
                       then [OpStep("", RemoveNetwork(net.name), false)] else []
    {
      var net := client.world.networks[n];
      steps := [];
      if Label(net.labels, PROJECT_LABEL) == p.id {
        var _ := client.NetworkRemove(n);
        steps := [OpStep("", RemoveNetwork(net.name), false)];
      }
    }

    /** The last part of a full Down: the networks that carry the label of the project. */
    method TakeNetworks(p: Project) returns (ok: bool, steps: seq<OpStep>, ghost networks: seq<NetworkId>)
      requires client.Valid()
      modifies client`world, client`moments, client`undos
      ensures client.Valid() && client.world == old(client.world).(networks := client.world.networks)
      ensures !ok ==> client.world == old(client.world)
      ensures ok && client.steady ==>
                client.world.networks == old(client.world).networks - FreeNetworks(old(client.world), p.id)
      ensures OthersNetworksStay(old(client.world), client.world, p.id)
      ensures if ok then Lists(networks, old(client.world).networks.Keys) else networks == []
      ensures steps == RemovalSteps(old(client.world).networks, p.id, networks)
    {
      ghost var w0 := client.world;
      var list;
      ok, list := client.NetworkList();
      networks, steps := list, [];
      for i := 0 to |list|
        invariant client.Valid() && Thinning(w0, client.world, p.id, list, i, client.steady)
        invariant i == 0 ==> client.world == w0
        invariant steps == RemovalSteps(w0.networks, p.id, list[..i])
      {
        ghost var before := client.world;
        RemovalStepsNext(w0.networks, p.id, list, i);
        var more := TakeNetwork(list[i], p);
        ThinningNext(w0, before, client.world, p.id, list, i, client.steady);
        steps := steps + more;
      }
      assert list[..|list|] == list;
      ThinningSpares(w0, client.world, p.id);
      if ok && client.steady {
        ThinningEnds(w0, client.world, p.id, list);
      }
    }

    /** Fails, changing nothing, only if the containers cannot be listed; `listed` tells
        whether a full Down could list the networks. */
    method Down(p: Project, services: seq<string>) returns (ok: bool, result: OpResult, ghost listed: bool)
      requires client.Valid()
      modifies client`world, client`moments, client`undos
      ensures client.Valid() && client.world.volumes == old(client.world).volumes
      ensures !ok ==> client.world == old(client.world)
      ensures ok && result.status == Succeeded && client.steady && (services == [] ==> listed) ==>
                DownDone(old(client.world), client.world, p.id, services)
      ensures OthersContainersStay(old(client.world), client.world, p.id, services)
      ensures OthersNetworksStay(old(client.world), client.world, p.id)
      ensures services != [] ==> client.world.networks == old(client.world).networks
      ensures ok ==> result.status in {Succeeded, Cancelled}
      ensures ok ==> DownLog(old(client.world), client.world, p.id, services, result.status, listed, result.steps)
    {
      ghost var w0 := client.world;
      listed, result := false, OpResult(Cancelled, []);
      var ids;
      ok, ids := client.ContainerList(p.id);
      if !ok {
        return;
      }
      ghost var done, networks: seq<NetworkId> := 0, [];
      var cancelled, steps;
      cancelled, steps, done := TakeContainers(ids, services, p);
      assert TakenOf(w0, p.id, services, ids) == Taken(w0, p.id, services);
      if cancelled {
        result := OpResult(Cancelled, steps);
        assert steps + [] == steps;
        assert IsDownLog(w0, client.world, p.id, services, Cancelled, false, steps, ids, done, []);
        return;
      }
      if |services| == 0 {
        ghost var w1 := client.world;
        var more;
        var listing;
        listing, more, networks := TakeNetworks(p);
        listed := listing;
        steps := steps + more;
        assert w1 == w0.(containers := w1.containers);
      }
      result := OpResult(Succeeded, steps);
      assert IsDownLog(w0, client.world, p.id, services, Succeeded, listed, steps, ids, done, networks);
    }
  }
}
