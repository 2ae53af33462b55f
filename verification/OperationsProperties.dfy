/** What follows from the contracts of Up and Down. */
module OperationsProperties {
  import opened Services
  import opened Daemon
  import opened Compose
  import opened TopoSort
  import opened Operations

  // ----- the services that run -----

  /** A container of the run, that is none of `base`, runs under the name of the service. */
  ghost predicate ServiceRuns(cs: map<ContainerId, Container>, base: map<ContainerId, Container>,
                              p: Project, service: string) {
    exists c :: c in cs && c !in base && cs[c].name == ContainerName(p, service) && cs[c].running
  }

  lemma {:induction false} UnskippedDistinct(sorted: seq<Service>)
    requires DistinctNames(sorted)
    ensures DistinctNames(Unskipped(sorted))
    decreases |sorted|
  {
    if sorted != [] {
      var n := |sorted| - 1;
      UnskippedDistinct(sorted[..n]);
      var u := Unskipped(sorted[..n]);
      forall i | 0 <= i < |u| ensures u[i].name != sorted[n].name {
        UnskippedMembers(sorted[..n], u[i]);
        var j :| 0 <= j < n && sorted[..n][j] == u[i];
      }
    }
  }

  lemma RunIsOfService(cs: map<ContainerId, Container>, r: Run, i: nat)
    requires IsMoment(cs, r) && DistinctNames(r.tried) && i < |r.tried|
    ensures ServiceRuns(cs, r.base, r.project, r.tried[i].name) <==> Runs(cs, r.made[i])
  {
    var name := r.tried[i].name;
    if Runs(cs, r.made[i]) {
      assert r.made[i] in Ids(r.made);
      assert cs[r.made[i]].name == ContainerName(r.project, name);
      assert r.made[i] !in r.base;
    }
    if ServiceRuns(cs, r.base, r.project, name) {
      var c :| c in cs && c !in r.base && cs[c].name == ContainerName(r.project, name) && cs[c].running;
      assert c in Ids(r.made);
      var j :| 0 <= j < |r.made| && r.made[j] == c;
      ContainerNameInjective(r.project, r.tried[j].name, name);
    }
  }

  lemma OtherDoesNotRun(cs: map<ContainerId, Container>, r: Run, name: string)
    requires IsMoment(cs, r) && name !in Names(r.tried)
    ensures !ServiceRuns(cs, r.base, r.project, name)
  {
    if ServiceRuns(cs, r.base, r.project, name) {
      var c :| c in cs && c !in r.base && cs[c].name == ContainerName(r.project, name) && cs[c].running;
      assert c in Ids(r.made);
      var j :| 0 <= j < |r.made| && r.made[j] == c;
      ContainerNameInjective(r.project, r.tried[j].name, name);
    }
  }

  /** Of the services in the list exactly the first `k` run. */
  ghost predicate FirstRun(cs: map<ContainerId, Container>, base: map<ContainerId, Container>,
                           p: Project, list: seq<Service>, k: nat) {
    forall i | 0 <= i < |list| :: ServiceRuns(cs, base, p, list[i].name) <==> i < k
  }

  /** Of a list that the run works through the services that run are the first ones. */
  lemma FirstOfListRun(cs: map<ContainerId, Container>, r: Run, list: seq<Service>)
    requires IsMoment(cs, r) && DistinctNames(list) && r.tried <= list
    ensures exists k :: 0 <= k <= |list| && FirstRun(cs, r.base, r.project, list, k)
  {
    var k :| 0 <= k <= |r.made| && RunsUpTo(cs, r.made, k);
    assert DistinctNames(r.tried);
    forall i | 0 <= i < |list| ensures ServiceRuns(cs, r.base, r.project, list[i].name) <==> i < k {
      if i < |r.tried| {
        RunIsOfService(cs, r, i);
      } else {
        OtherDoesNotRun(cs, r, list[i].name);
      }
    }
    assert FirstRun(cs, r.base, r.project, list, k);
  }

  /** A service that is not skipped keeps its place among those that are not. */
  lemma PlaceInUnskipped(sorted: seq<Service>, i: nat)
    requires i < |sorted| && !Skipped(sorted[i])
    ensures |Unskipped(sorted[..i])| < |Unskipped(sorted)|
    ensures Unskipped(sorted)[|Unskipped(sorted[..i])|] == sorted[i]
  {
    UnskippedNext(sorted, i);
    UnskippedPrefix(sorted, i + 1);
  }

  lemma UnskippedShrinks(sorted: seq<Service>, i: nat, j: nat)
    requires i < j <= |sorted| && !Skipped(sorted[i])
    ensures |Unskipped(sorted[..i])| < |Unskipped(sorted[..j])|
  {
    assert sorted[..j][..i] == sorted[..i];
    PlaceInUnskipped(sorted[..j], i);
  }

  /** What comes earlier in the list runs if what comes later does. */
  lemma EarlierRuns(cs: map<ContainerId, Container>, r: Run, list: seq<Service>, a: nat, b: nat)
    requires IsMoment(cs, r) && DistinctNames(list) && r.tried <= list && a < b < |list|
    requires ServiceRuns(cs, r.base, r.project, list[b].name)
    ensures ServiceRuns(cs, r.base, r.project, list[a].name)
  {
    FirstOfListRun(cs, r, list);
    var k :| 0 <= k <= |list| && FirstRun(cs, r.base, r.project, list, k);
    assert b < k;
  }

  lemma DependencyComesFirst(g: Graph, sorted: seq<Service>, i: nat, j: nat)
    requires DistinctNames(sorted) && DepsFirst(g, sorted) && i < |sorted| && j < |sorted|
    requires sorted[j].name in Deps(g, sorted[i].name) && sorted[j].name in g
    requires !Reaches(g, sorted[j].name, sorted[i].name)
    ensures j < i
  {
  }

  /** In a list with dependencies first, what a running service depends on runs. */
  lemma ListedDependencyRuns(g: Graph, cs: map<ContainerId, Container>, r: Run, sorted: seq<Service>, i: nat, j: nat)
    requires IsMoment(cs, r) && DistinctNames(sorted) && r.tried <= Unskipped(sorted) && DepsFirst(g, sorted)
    requires i < |sorted| && j < |sorted| && !Skipped(sorted[i]) && !Skipped(sorted[j])
    requires sorted[j].name in Deps(g, sorted[i].name) && sorted[j].name in g
    requires !Reaches(g, sorted[j].name, sorted[i].name)
    requires ServiceRuns(cs, r.base, r.project, sorted[i].name)
    ensures ServiceRuns(cs, r.base, r.project, sorted[j].name)
  {
    DependencyComesFirst(g, sorted, i, j);
    UnskippedDistinct(sorted);
    PlaceInUnskipped(sorted, i);
    PlaceInUnskipped(sorted, j);
    UnskippedShrinks(sorted, j, i);
    EarlierRuns(cs, r, Unskipped(sorted), |Unskipped(sorted[..j])|, |Unskipped(sorted[..i])|);
  }

  /** The services that Up is to launch, under the definition that counts for each name. */
  function Targets(p: Project, services: seq<string>): map<string, Service> {
    ByName(Filtered(p.services, services))
  }

  ghost predicate IsNeedPath(m: map<string, Service>, path: seq<string>) {
    path != [] && forall i | 0 <= i < |path| - 1 :: path[i] in m && path[i + 1] in m[path[i]].dependsOn
  }

  /** `a` depends on `b`, directly or not, or is `b`. */
  ghost predicate Needs(m: map<string, Service>, a: string, b: string) {
    exists path :: IsNeedPath(m, path) && path[0] == a && path[|path| - 1] == b
  }

  lemma NeedsReaches(g: Graph, services: seq<Service>, a: string, b: string)
    requires GraphOf(g, services) && Reaches(g, a, b)
    ensures Needs(ByName(services), a, b)
  {
    var path :| IsPath(g, path) && path[0] == a && path[|path| - 1] == b;
    forall i | 0 <= i < |path| - 1
      ensures path[i] in ByName(services) && path[i + 1] in ByName(services)[path[i]].dependsOn
    {
      assert path[i + 1] in Deps(g, path[i]);
    }
    assert IsNeedPath(ByName(services), path);
  }

  /** A selected service has a place in the plan. */
  lemma PlaceInPlan(p: Project, services: seq<string>, g: Graph, sorted: seq<Service>, name: string) returns (i: nat)
    requires IsPlan(p, services, g, sorted) && name in Targets(p, services)
    ensures i < |sorted| && sorted[i] == Targets(p, services)[name]
  {
    assert name in Names(sorted);
    i :| 0 <= i < |sorted| && sorted[i].name == name;
  }

  lemma RunningWasTried(p: Project, services: seq<string>, g: Graph, sorted: seq<Service>, r: Run,
                        cs: map<ContainerId, Container>, name: string)
    requires IsMoment(cs, r) && r.project == p && r.tried <= Unskipped(sorted) && IsPlan(p, services, g, sorted)
    requires ServiceRuns(cs, r.base, p, name)
    ensures name in Targets(p, services) && !Skipped(Targets(p, services)[name])
  {
    if name !in Names(r.tried) {
      OtherDoesNotRun(cs, r, name);
    }
    var i :| 0 <= i < |r.tried| && r.tried[i].name == name;
    assert r.tried[i] in Unskipped(sorted);
    UnskippedMembers(sorted, r.tried[i]);
  }

  /** At every moment of Up, whatever comes of it, the services that the run has running are the
      first ones of the plan that are not skipped, and no others. */
  lemma RunningIsPrefix(p: Project, services: seq<string>, g: Graph, sorted: seq<Service>, r: Run,
                        cs: map<ContainerId, Container>)
    requires IsMoment(cs, r) && r.project == p && r.tried <= Unskipped(sorted)
    requires r.tried == [] || IsPlan(p, services, g, sorted)
    ensures exists k :: 0 <= k <= |Unskipped(sorted)| && FirstRun(cs, r.base, p, Unskipped(sorted), k)
    ensures forall name | ServiceRuns(cs, r.base, p, name) ::
              name in Targets(p, services) && !Skipped(Targets(p, services)[name])
  {
    if r.tried == [] {
      forall name: string ensures !ServiceRuns(cs, r.base, p, name) {
        OtherDoesNotRun(cs, r, name);
      }
      assert FirstRun(cs, r.base, p, Unskipped(sorted), 0);
    } else {
      UnskippedDistinct(sorted);
      FirstOfListRun(cs, r, Unskipped(sorted));
      forall name | ServiceRuns(cs, r.base, p, name)
        ensures name in Targets(p, services) && !Skipped(Targets(p, services)[name])
      {
        RunningWasTried(p, services, g, sorted, r, cs, name);
      }
    }
  }

  /** `b` has to run whenever `a` does: a dependency that is selected, not skipped and does not
      itself depend on `a`. Without cycles these are all selected dependencies that are not
      skipped. */
  ghost predicate MustRun(m: map<string, Service>, a: string, b: string) {
    && a in m && b in m && b in m[a].dependsOn
    && !Skipped(m[a]) && !Skipped(m[b]) && !Needs(m, b, a)
  }

  /** At every moment of Up, whatever comes of it, a service of the run that runs has its
      dependencies running. */
  lemma DependenciesRun(p: Project, services: seq<string>, g: Graph, sorted: seq<Service>, r: Run,
                        cs: map<ContainerId, Container>, a: string, b: string)
    requires IsMoment(cs, r) && r.project == p && r.tried <= Unskipped(sorted)
    requires r.tried == [] || IsPlan(p, services, g, sorted)
    requires MustRun(Targets(p, services), a, b) && ServiceRuns(cs, r.base, p, a)
    ensures ServiceRuns(cs, r.base, p, b)
  {
    if r.tried != [] {
      var i := PlaceInPlan(p, services, g, sorted, a);
      var j := PlaceInPlan(p, services, g, sorted, b);
      if Reaches(g, b, a) {
        NeedsReaches(g, Filtered(p.services, services), b, a);
      }
      ListedDependencyRuns(g, cs, r, sorted, i, j);
    } else {
      OtherDoesNotRun(cs, r, a);
    }
  }

  /** Up, with what it promises of the order: on a steady daemon at every moment of the call, on
      any other up to the first undo. */
  method UpInOrder(ops: Operations, p: Project, services: seq<string>) returns (out: Outcome, ghost held: nat)
    requires ops.client.Valid()
    modifies ops.client
    ensures ops.client.Valid() && old(ops.client.moments) <= ops.client.moments
    ensures |old(ops.client.moments)| <= held <= |ops.client.moments|
    ensures Undid(old(ops.client.undos), ops.client.undos, held, |ops.client.moments|)
    ensures forall k, a, b | |old(ops.client.moments)| <= k < |ops.client.moments| && (ops.client.steady || k < held)
                             && MustRun(Targets(p, services), a, b) ::
              ServiceRuns(ops.client.moments[k].containers, old(ops.client.world).containers, p, a) ==>
              ServiceRuns(ops.client.moments[k].containers, old(ops.client.world).containers, p, b)
  {
    ghost var g, sorted, r, ns, vs;
    out, g, sorted, r, ns, vs, held := ops.Up(p, services);
    forall k, a, b | |old(ops.client.moments)| <= k < |ops.client.moments| && (ops.client.steady || k < held)
                     && MustRun(Targets(p, services), a, b)
                     && ServiceRuns(ops.client.moments[k].containers, r.base, p, a)
    {
      DependenciesRun(p, services, g, sorted, r, ops.client.moments[k].containers, a, b);
    }
  }

  // ----- what a container is attached to -----

  /** The service is one of those that Up is to launch. */
  ghost predicate IsLaunchable(p: Project, services: seq<string>, s: Service) {
    s.name in Targets(p, services) && Targets(p, services)[s.name] == s && !Skipped(s)
  }

  lemma TriedIsLaunchable(p: Project, services: seq<string>, g: Graph, sorted: seq<Service>, r: Run, i: nat)
    requires IsPlan(p, services, g, sorted) && r.tried <= Unskipped(sorted) && i < |r.tried|
    ensures IsLaunchable(p, services, r.tried[i])
  {
    assert r.tried[i] in Unskipped(sorted);
    UnskippedMembers(sorted, r.tried[i]);
  }

  /** The network is declared in the project as its own. */
  predicate DeclaresOwn(p: Project, n: string) {
    n in p.networks && !p.networks[n].external
  }

  /** The container is attached to a network of this name. */
  ghost predicate AttachedTo(c: Container, at: World, name: string) {
    exists id :: id in c.networks && id in at.networks && at.networks[id].name == name
  }

  /** Of the networks and volumes that the service references and the project declares as its
      own, all are there; the container mounts the volumes and is attached to the network
      that the service names first. */
  ghost predicate HasItsPlaces(p: Project, s: Service, c: Container, at: World) {
    && (forall n | n in s.networks && DeclaresOwn(p, n) :: HasNetwork(at, NetworkName(p, n)))
    && (s.networks != [] && DeclaresOwn(p, s.networks[0]) ==>
          AttachedTo(c, at, NetworkName(p, s.networks[0])))
    && (forall m | m in s.mounts && IsNamed(m) && m.source in p.volumes && !p.volumes[m.source].external ::
          VolumeName(p, m.source) in c.volumes)
  }

  lemma FitsPlaces(p: Project, s: Service, c: Container, at: World)
    requires Fits(p, s, c, at) && PlacesReady(p, at)
    ensures HasItsPlaces(p, s, c, at)
  {
    if s.networks != [] && DeclaresOwn(p, s.networks[0]) {
      var id :| id in at.networks && at.networks[id].name == NetworkName(p, s.networks[0]);
      assert id in c.networks;
    }
  }

  /** At every moment, each container of the run is that of a service to be launched. All the own
      networks and volumes that the service references were there under the resolved names
      when it was created; it mounts the volumes and is attached to the first network. */
  lemma PlacesWereThere(p: Project, services: seq<string>, g: Graph, sorted: seq<Service>, r: Run,
                        cs: map<ContainerId, Container>, c: ContainerId)
    requires IsPlan(p, services, g, sorted) && r.project == p && r.tried <= Unskipped(sorted) && PlacesReady(p, r.at)
    requires IsMoment(cs, r) && c in cs && c !in r.base
    ensures exists s :: IsLaunchable(p, services, s) && Fits(p, s, cs[c], r.at) && HasItsPlaces(p, s, cs[c], r.at)
  {
    assert c in Ids(r.made);
    var i :| 0 <= i < |r.made| && r.made[i] == c;
    TriedIsLaunchable(p, services, g, sorted, r, i);
    FitsPlaces(p, r.tried[i], cs[c], r.at);
  }

  /** A launched service is attached to all the own networks that it references exactly if these
      go by one name, that of the first. */
  lemma AttachedToAllIff(p: Project, r: Run, cs: map<ContainerId, Container>, i: nat)
    requires PlacesReady(p, r.at) && r.project == p && IsMoment(cs, r) && i < |r.made| && r.made[i] in cs
    ensures (forall n | n in r.tried[i].networks && DeclaresOwn(p, n) ::
               AttachedTo(cs[r.made[i]], r.at, NetworkName(p, n)))
            <==> forall n | n in r.tried[i].networks && DeclaresOwn(p, n) ::
                   NetworkName(p, n) == WantedNetwork(p, r.tried[i])
  {
    forall n | n in r.tried[i].networks && DeclaresOwn(p, n)
      ensures AttachedTo(cs[r.made[i]], r.at, NetworkName(p, n)) <==> NetworkName(p, n) == WantedNetwork(p, r.tried[i])
    {
      var id :| id in r.at.networks && r.at.networks[id].name == NetworkName(p, n);
      assert NetworkName(p, n) == WantedNetwork(p, r.tried[i]) ==> id in cs[r.made[i]].networks;
    }
  }

  function DefaultNetwork(p: Project): string {
    p.name + "_default"
  }

  lemma IsOwnDefaultIff(p: Project)
    ensures IsOwnNetwork(p, DefaultNetwork(p)) <==>
            exists n :: n in p.networks && !p.networks[n].external
                        && (p.networks[n].name == DefaultNetwork(p) || (p.networks[n].name == "" && n == "default"))
  {
    forall n | n in p.networks && p.networks[n].name == ""
      ensures NetworkName(p, n) == DefaultNetwork(p) <==> n == "default"
    {
      var prefix := p.name + "_";
      assert DefaultNetwork(p) == prefix + "default";
      if prefix + n == prefix + "default" {
        assert n == (prefix + n)[|prefix|..];
        assert "default" == (prefix + "default")[|prefix|..];
      }
    }
  }

  lemma NamedWhenPrepared(p: Project, w0: World, w: World, ns: seq<NetworkId>, vs: seq<string>, name: string)
    requires Prepared(p, w0, w, ns, vs)
    ensures HasNetwork(w, name) <==> HasNetwork(w0, name) || IsOwnNetwork(p, name)
  {
    forall n | n in w0.networks ensures n in w.networks && w.networks[n] == w0.networks[n] {
      assert n in w.networks - Ids(ns);
    }
    if n :| n in w.networks && w.networks[n].name == name {
      assert n in Ids(ns) || n in w.networks - Ids(ns);
    }
  }

  /** A launched service without networks is attached to the default network exactly if that
      was there before Up or the project declares a network of its own under its name. */
  lemma DefaultNetworkAttachedIff(p: Project, w0: World, r: Run, ns: seq<NetworkId>, vs: seq<string>,
                                  cs: map<ContainerId, Container>, i: nat)
    requires Prepared(p, w0, r.at, ns, vs) && r.project == p && IsMoment(cs, r)
    requires i < |r.made| && r.made[i] in cs && r.tried[i].networks == []
    ensures AttachedTo(cs[r.made[i]], r.at, DefaultNetwork(p))
            <==> HasNetwork(w0, DefaultNetwork(p))
                 || exists n :: n in p.networks && !p.networks[n].external
                      && (p.networks[n].name == DefaultNetwork(p) || (p.networks[n].name == "" && n == "default"))
  {
    NamedWhenPrepared(p, w0, r.at, ns, vs, DefaultNetwork(p));
    IsOwnDefaultIff(p);
    assert WantedNetwork(p, r.tried[i]) == DefaultNetwork(p);
    if id :| id in r.at.networks && r.at.networks[id].name == DefaultNetwork(p) {
      assert id in cs[r.made[i]].networks;
    }
  }

  /** Networks cannot be undone before containers: one that a service of the run names first is
      in use. */
  lemma NetworksAreInUse(r: Run, w: World, i: nat)
    requires AllUp(w.containers, r) && PlacesReady(r.project, r.at) && i < |r.made|
    requires r.tried[i].networks != [] && DeclaresOwn(r.project, r.tried[i].networks[0])
    ensures exists id :: id in r.at.networks && NetworkUsed(w, id)
                         && r.at.networks[id].name == NetworkName(r.project, r.tried[i].networks[0])
  {
    assert Runs(w.containers, r.made[i]);
    FitsPlaces(r.project, r.tried[i], w.containers[r.made[i]], r.at);
  }

  // ----- rollback -----

  /** Every volume of the project's own that was there is mounted by some container. */
  ghost predicate OwnVolumesMounted(p: Project, w0: World) {
    forall k | k in p.volumes && !p.volumes[k].external && VolumeName(p, k) in w0.volumes ::
      VolumeUsed(w0, VolumeName(p, k))
  }

  /** Rolled back while launching containers, Up leaves the volumes as they were exactly if every
      volume of the project's own that was there is mounted. */
  lemma RollbackRestoresIff(p: Project, w0: World, w: World, vs: seq<string>)
    requires UpRolledBack(w0, w, vs) && RecordsOwn(p, vs) && forall v | v in vs :: IsOwnVolume(p, v)
    ensures w.containers == w0.containers && w.networks == w0.networks
    ensures w.volumes == w0.volumes <==> OwnVolumesMounted(p, w0)
  {
    if OwnVolumesMounted(p, w0) {
      RollbackRestores(p, w0, w, vs);
    }
    if w.volumes == w0.volumes {
      forall k | k in p.volumes && !p.volumes[k].external && VolumeName(p, k) in w0.volumes
        ensures VolumeUsed(w0, VolumeName(p, k))
      {
        assert VolumeName(p, k) in vs && VolumeName(p, k) in w.volumes;
      }
    }
  }

  /** Rolled back at any point, it restores everything under that condition, for one if none of
      the project's own volumes was there. */
  lemma RollbackRestores(p: Project, w0: World, w: World, vs: seq<string>)
    requires UpRolledBack(w0, w, vs) && (forall v | v in vs :: IsOwnVolume(p, v)) && OwnVolumesMounted(p, w0)
    ensures w.containers == w0.containers && w.networks == w0.networks && w.volumes == w0.volumes
  {
    forall v | v in vs && v in w0.volumes ensures VolumeUsed(w0, v) {
      var k :| k in p.volumes && !p.volumes[k].external && VolumeName(p, k) == v;
    }
    assert w0.volumes - Unmounted(w0, vs) == w0.volumes;
  }

  const WEB := Service("web", "nginx", false, map[], {}, [], [])

  /** A service that is the only one of its project and not skipped is to be launched. */
  lemma OnlyServiceIsLaunchable(p: Project, s: Service)
    requires p.services == [s] && !Skipped(s)
    ensures IsLaunchable(p, [], s)
  {
    assert Targets(p, [])[s.name] == s;
  }

  /** A project with a service and a volume, and a world in which that volume is there and
      mounted by nobody. */
  const REUSING := Project("1", "app", [WEB], map[], map["data" := VolumeDef("", false)])

  const REUSED := World(map[], map[], map["app_data" := map[]], 0)

  /** The failing case: rolled back while launching the service, Up loses that volume. */
  lemma ReusedVolumeIsLost(w: World, vs: seq<string>)
    requires UpRolledBack(REUSED, w, vs) && RecordsOwn(REUSING, vs)
    ensures WellFormed(REUSED) && IsLaunchable(REUSING, [], WEB)
    ensures "app_data" in REUSED.volumes && "app_data" !in w.volumes
  {
    OnlyServiceIsLaunchable(REUSING, WEB);
    assert VolumeName(REUSING, "data") == "app_data";
    assert "app_data" in vs;
  }

  /** Cancelled, Up leaves the networks as they were exactly if all the project's own were there,
      and likewise the volumes. */
  lemma CancelRestoresIff(p: Project, w0: World, w: World, at: World, ns: seq<NetworkId>, vs: seq<string>)
    requires Prepared(p, w0, at, ns, vs) && SamePlaces(w, at)
    ensures w.networks == w0.networks <==>
            forall n | n in p.networks && !p.networks[n].external :: HasNetwork(w0, NetworkName(p, n))
    ensures w.volumes == w0.volumes <==>
            forall v | v in p.volumes && !p.volumes[v].external :: VolumeName(p, v) in w0.volumes
  {
    CancelledNetworks(p, w0, at, ns);
    CancelledVolumes(p, w0, at, vs);
  }

  lemma CancelledNetworks(p: Project, w0: World, at: World, ns: seq<NetworkId>)
    requires NetworksMade(p, w0, at, ns) && PlacesReady(p, at)
    ensures at.networks == w0.networks <==>
            forall n | n in p.networks && !p.networks[n].external :: HasNetwork(w0, NetworkName(p, n))
  {
    if forall n | n in p.networks && !p.networks[n].external :: HasNetwork(w0, NetworkName(p, n)) {
      forall n: NetworkId ensures n !in ns {
        assert n in ns ==> IsOwnNetwork(p, at.networks[n].name);
      }
      assert Ids(ns) == {};
      assert at.networks - Ids(ns) == at.networks;
    }
    if at.networks == w0.networks {
      forall n | n in p.networks && !p.networks[n].external ensures HasNetwork(w0, NetworkName(p, n)) {
        var id :| id in at.networks && at.networks[id].name == NetworkName(p, n);
        assert id in w0.networks;
      }
    }
  }

  lemma CancelledVolumes(p: Project, w0: World, at: World, vs: seq<string>)
    requires VolumesMade(p, w0, at, vs) && RecordsOwn(p, vs)
    ensures at.volumes == w0.volumes <==>
            forall v | v in p.volumes && !p.volumes[v].external :: VolumeName(p, v) in w0.volumes
  {
    if forall v | v in p.volumes && !p.volumes[v].external :: VolumeName(p, v) in w0.volumes {
      forall v | v in vs ensures v in w0.volumes {
        assert IsOwnVolume(p, v);
      }
      assert at.volumes.Keys == w0.volumes.Keys;
    }
    if at.volumes == w0.volumes {
      forall v | v in p.volumes && !p.volumes[v].external ensures VolumeName(p, v) in w0.volumes {
        assert VolumeName(p, v) in vs;
        assert VolumeName(p, v) in at.volumes.Keys;
      }
    }
  }

  /** When Up does not succeed, and what it then leaves behind, over the project and the world
      before. Only a service to be launched makes it fail past the volumes, and only selected
      services let it be cancelled. On a steady daemon a rollback restores containers and
      networks, and volumes if the own ones that were there are mounted; past the volumes only
      then. A conflict over networks leaves the volumes alone on any daemon. A cancelled Up
      restores the containers, and networks and volumes exactly if the own ones were there. */
  method UpWithoutSuccess(ops: Operations, p: Project, services: seq<string>) returns (out: Outcome)
    requires ops.client.Valid()
    modifies ops.client
    ensures out.PortConflict? ==> ops.client.world == old(ops.client.world)
    ensures !EndedEarly(out) && out.result.status.RolledBack? ==> exists s :: IsLaunchable(p, services, s)
    ensures out.Finished? && out.result.status.Cancelled? ==> Filtered(p.services, services) != []
    ensures out.Finished? && out.result.status == RolledBack(NetworkConflict) ==>
              && ops.client.world.containers == old(ops.client.world).containers
              && ops.client.world.volumes == old(ops.client.world).volumes
    ensures out.Finished? && out.result.status.RolledBack? && ops.client.steady ==>
              && ops.client.world.containers == old(ops.client.world).containers
              && ops.client.world.networks == old(ops.client.world).networks
              && (OwnVolumesMounted(p, old(ops.client.world)) ==>
                    ops.client.world.volumes == old(ops.client.world).volumes)
              && (!EndedEarly(out) && ops.client.world.volumes == old(ops.client.world).volumes ==>
                    OwnVolumesMounted(p, old(ops.client.world)))
    ensures out.Finished? && out.result.status.Cancelled? ==>
              && (ops.client.steady ==> ops.client.world.containers == old(ops.client.world).containers)
              && (ops.client.world.networks == old(ops.client.world).networks <==>
                  forall n | n in p.networks && !p.networks[n].external ::
                    HasNetwork(old(ops.client.world), NetworkName(p, n)))
              && (ops.client.world.volumes == old(ops.client.world).volumes <==>
                  forall v | v in p.volumes && !p.volumes[v].external ::
                    VolumeName(p, v) in old(ops.client.world).volumes)
  {
    ghost var w0 := ops.client.world;
    ghost var g, sorted, r, ns, vs, held;
    out, g, sorted, r, ns, vs, held := ops.Up(p, services);
    if out.Finished? && out.result.status.RolledBack? && ops.client.steady {
      if OwnVolumesMounted(p, w0) {
        RollbackRestores(p, w0, ops.client.world, vs);
      }
      if !EndedEarly(out) {
        RollbackRestoresIff(p, w0, ops.client.world, vs);
      }
    }
    if !EndedEarly(out) && out.result.status.RolledBack? {
      UnskippedIsLaunchable(p, services, g, sorted, Unskipped(sorted)[0]);
    }
    if out.Finished? && out.result.status.Cancelled? {
      CancelRestoresIff(p, w0, ops.client.world, r.at, ns, vs);
    }
  }

  // ----- inputs on which the simpler claims fail -----

  const NOTHING := World(map[], map[], map[], 0)

  /** A project with a service and a network; one with a service and nothing else; one whose
      service references two networks; one whose service gives the project label another
      value. */
  const WITH_NETWORK := Project("1", "app", [WEB], map["net" := NetworkDef("", false)], map[])

  const BARE := Project("1", "app", [WEB], map[], map[])

  const TWO_NETWORKS := Project("1", "app", [WEB.(networks := ["front", "back"])],
                                map["front" := NetworkDef("", false), "back" := NetworkDef("", false)], map[])

  const REBINDING := Project("1", "app", [WEB.(labels := map[PROJECT_LABEL := "2"])], map[], map[])

  /** Cancelled before it launches the service, Up keeps the network that it has made. */
  lemma CancelledKeepsNetwork(w: World, at: World, ns: seq<NetworkId>, vs: seq<string>)
    requires Prepared(WITH_NETWORK, NOTHING, at, ns, vs) && SamePlaces(w, at)
    ensures IsLaunchable(WITH_NETWORK, [], WEB)
    ensures w.networks != NOTHING.networks
  {
    OnlyServiceIsLaunchable(WITH_NETWORK, WEB);
    CancelRestoresIff(WITH_NETWORK, NOTHING, w, at, ns, vs);
    assert "net" in WITH_NETWORK.networks && !WITH_NETWORK.networks["net"].external;
  }

  /** A service without networks gets none at all. */
  lemma DefaultNetworkMissing(r: Run, ns: seq<NetworkId>, vs: seq<string>, cs: map<ContainerId, Container>, i: nat)
    requires Prepared(BARE, NOTHING, r.at, ns, vs) && r.project == BARE && IsMoment(cs, r)
    requires i < |r.made| && r.made[i] in cs && r.tried[i].networks == []
    ensures cs[r.made[i]].networks == {}
  {
    forall id | id in r.at.networks ensures r.at.networks[id].name != DefaultNetwork(BARE) {
      NamedWhenPrepared(BARE, NOTHING, r.at, ns, vs, r.at.networks[id].name);
    }
  }

  /** A service is not attached to the second of its networks. */
  lemma SecondNetworkMissed(r: Run, cs: map<ContainerId, Container>, i: nat)
    requires r.project == TWO_NETWORKS && IsMoment(cs, r)
    requires i < |r.made| && r.made[i] in cs && r.tried[i] == TWO_NETWORKS.services[0]
    ensures IsLaunchable(TWO_NETWORKS, [], TWO_NETWORKS.services[0])
    ensures DeclaresOwn(TWO_NETWORKS, "back") && "back" in r.tried[i].networks
    ensures !AttachedTo(cs[r.made[i]], r.at, NetworkName(TWO_NETWORKS, "back"))
  {
    OnlyServiceIsLaunchable(TWO_NETWORKS, TWO_NETWORKS.services[0]);
    assert r.tried[i].networks[1] == "back";
    assert WantedNetwork(TWO_NETWORKS, r.tried[i]) == "app_front" && NetworkName(TWO_NETWORKS, "back") == "app_back";
    assert "app_front"[4] != "app_back"[4];
  }

  /** Up and then Down leave the container of that service behind. */
  lemma RebindingStays()
    ensures !LabelsKept(REBINDING, [])
  {
    OnlyServiceIsLaunchable(REBINDING, REBINDING.services[0]);
  }

  // ----- Up and then Down -----

  /** The service does not give the project label another value. */
  predicate KeepsProjectLabel(p: Project, s: Service) {
    PROJECT_LABEL in s.labels ==> s.labels[PROJECT_LABEL] == p.id
  }

  /** None of the services to be launched does. */
  ghost predicate LabelsKept(p: Project, services: seq<string>) {
    forall s | IsLaunchable(p, services, s) :: KeepsProjectLabel(p, s)
  }

  lemma UnskippedIsLaunchable(p: Project, services: seq<string>, g: Graph, sorted: seq<Service>, s: Service)
    requires IsPlan(p, services, g, sorted)
    ensures s in Unskipped(sorted) <==> IsLaunchable(p, services, s)
  {
    UnskippedMembers(sorted, s);
    if IsLaunchable(p, services, s) {
      var i := PlaceInPlan(p, services, g, sorted, s.name);
    }
  }

  lemma LabelsKeptIff(p: Project, services: seq<string>, g: Graph, sorted: seq<Service>)
    requires IsPlan(p, services, g, sorted)
    ensures LabelsKept(p, services) <==> forall s | s in Unskipped(sorted) :: KeepsProjectLabel(p, s)
  {
    forall s: Service ensures s in Unskipped(sorted) <==> IsLaunchable(p, services, s) {
      UnskippedIsLaunchable(p, services, g, sorted, s);
    }
  }

  lemma RunTaken(w: World, r: Run, sorted: seq<Service>, i: nat)
    requires UpDone(w, r, sorted) && i < |r.made|
    ensures r.made[i] in Taken(w, r.project.id, []) <==> KeepsProjectLabel(r.project, r.tried[i])
  {
    assert Runs(w.containers, r.made[i]);
  }

  lemma DownTakesRunIff(w0: World, w1: World, w2: World, r: Run, sorted: seq<Service>)
    requires UpDone(w1, r, sorted) && r.base == w0.containers && DownDone(w1, w2, r.project.id, [])
    requires forall c | c in w0.containers :: !IsOfProject(w0.containers[c], r.project.id)
    ensures w2.containers == w0.containers <==> forall s | s in r.tried :: KeepsProjectLabel(r.project, s)
  {
    var taken := Taken(w1, r.project.id, []);
    forall c | c in taken ensures c in Ids(r.made) {
      assert c !in Ids(r.made) ==> c in w1.containers - Ids(r.made);
    }
    if forall s | s in r.tried :: KeepsProjectLabel(r.project, s) {
      forall c | c in Ids(r.made) ensures c in taken {
        var i :| 0 <= i < |r.made| && r.made[i] == c;
        RunTaken(w1, r, sorted, i);
      }
      assert taken == Ids(r.made);
    }
    if w2.containers == w0.containers {
      forall s | s in r.tried ensures KeepsProjectLabel(r.project, s) {
        var i :| 0 <= i < |r.tried| && r.tried[i] == s;
        RunTaken(w1, r, sorted, i);
        assert Runs(w1.containers, r.made[i]);
        assert r.made[i] in Ids(r.made);
        assert r.made[i] !in w0.containers;
      }
    }
  }

  /** After Up and a full Down, where the project had no labelled containers before, the containers
      are as before exactly if no service that was to be launched rebinds the project label. */
  lemma UpDownRestoresContainersIff(p: Project, services: seq<string>, g: Graph, sorted: seq<Service>, r: Run,
                                    w0: World, w1: World, w2: World)
    requires IsPlan(p, services, g, sorted) && UpDone(w1, r, sorted) && r.base == w0.containers && r.project == p
    requires DownDone(w1, w2, p.id, [])
    requires forall c | c in w0.containers :: !IsOfProject(w0.containers[c], p.id)
    ensures w2.containers == w0.containers <==> LabelsKept(p, services)
  {
    DownTakesRunIff(w0, w1, w2, r, sorted);
    LabelsKeptIff(p, services, g, sorted);
  }

  /** Then the networks are as before too, and of the volumes the project's own are added. */
  lemma UpDownRestoresPlaces(
    p: Project, w0: World, at: World, w1: World, w2: World, ns: seq<NetworkId>, vs: seq<string>)
    requires WellFormed(w0) && Prepared(p, w0, at, ns, vs) && SamePlaces(w1, at) && DownDone(w1, w2, p.id, [])
    requires w2.containers == w0.containers
    requires forall n | n in w0.networks :: Label(w0.networks[n].labels, PROJECT_LABEL) != p.id
    ensures w2.networks == w0.networks && VolumesGained(p, w0, w2)
  {
    var w := w1.(containers := w2.containers);
    NewNetworksUnused(w0, w, ns);
    assert FreeNetworks(w, p.id) == Ids(ns) by {
      forall n | n in FreeNetworks(w, p.id) ensures n in Ids(ns) {
        assert n in w.networks && (n in Ids(ns) || n in w.networks - Ids(ns));
      }
    }
    forall v ensures v in w2.volumes <==> v in w0.volumes || IsOwnVolume(p, v) {
      assert v in w2.volumes.Keys <==> v in w0.volumes.Keys || v in vs;
    }
  }

  /** The volumes are those of before, unchanged, and the project's own. */
  ghost predicate VolumesGained(p: Project, w0: World, w: World) {
    && (forall v :: v in w.volumes <==> v in w0.volumes || IsOwnVolume(p, v))
    && forall v | v in w0.volumes :: w.volumes[v] == w0.volumes[v]
  }

  /** Up and then a full Down, for a project without labelled containers and networks: if both
      succeed on a steady daemon, the containers are as before exactly if no service to be
      launched rebinds the project label; then the networks are as before too, and the
      project's own volumes are kept. */
  method UpThenDown(ops: Operations, p: Project, services: seq<string>)
    returns (up: Outcome, ok: bool, down: OpResult, ghost listed: bool)
    requires ops.client.Valid()
    requires forall c | c in ops.client.world.containers :: !IsOfProject(ops.client.world.containers[c], p.id)
    requires forall n | n in ops.client.world.networks ::
               Label(ops.client.world.networks[n].labels, PROJECT_LABEL) != p.id
    modifies ops.client
    ensures up.Finished? && up.result.status == Succeeded && ok && down.status == Succeeded && listed
            && ops.client.steady ==>
              && (ops.client.world.containers == old(ops.client.world).containers <==> LabelsKept(p, services))
              && (LabelsKept(p, services) ==>
                    && ops.client.world.networks == old(ops.client.world).networks
                    && VolumesGained(p, old(ops.client.world), ops.client.world))
  {
    ghost var w0 := ops.client.world;
    ghost var g, sorted, r, ns, vs, held;
    up, g, sorted, r, ns, vs, held := ops.Up(p, services);
    ok, down, listed := false, OpResult(Cancelled, []), false;
    if up.PortConflict? || up.result.status != Succeeded {
      return;
    }
    ghost var w1 := ops.client.world;
    ok, down, listed := ops.Down(p, []);
    if ok && down.status == Succeeded && listed && ops.client.steady {
      UpDownRestoresContainersIff(p, services, g, sorted, r, w0, w1, ops.client.world);
      if LabelsKept(p, services) {
        UpDownRestoresPlaces(p, w0, r.at, w1, ops.client.world, ns, vs);
      }
    }
  }

  /** A Down of named services: containers of other projects and services, networks and volumes
      stay in any case, unchanged, and when it succeeds on a steady daemon, exactly the
      project's containers of those services are gone. */
  method PartialDownTakesNamed(ops: Operations, p: Project, services: seq<string>) returns (ok: bool, result: OpResult)
    requires ops.client.Valid() && services != []
    modifies ops.client
    ensures ops.client.world.networks == old(ops.client.world).networks
    ensures ops.client.world.volumes == old(ops.client.world).volumes
    ensures forall c | c in old(ops.client.world).containers
                       && !(Label(old(ops.client.world).containers[c].labels, PROJECT_LABEL) == p.id
                            && Label(old(ops.client.world).containers[c].labels, SERVICE_LABEL) in services) ::
              c in ops.client.world.containers
              && ops.client.world.containers[c] == old(ops.client.world).containers[c]
    ensures ok && result.status == Succeeded && ops.client.steady ==>
              && (forall c | c in old(ops.client.world).containers ::
                    c !in ops.client.world.containers <==>
                    && Label(old(ops.client.world).containers[c].labels, PROJECT_LABEL) == p.id
                    && Label(old(ops.client.world).containers[c].labels, SERVICE_LABEL) in services)
              && (forall c | c in ops.client.world.containers ::
                    c in old(ops.client.world).containers
                    && ops.client.world.containers[c] == old(ops.client.world).containers[c])
  {
    ghost var listed;
    ok, result, listed := ops.Down(p, services);
  }

  /** A full Down: containers and networks of other projects and all volumes stay in any case. When it
      succeeds on a steady daemon, exactly the project's containers are gone, and if the networks could
      be listed, exactly those of the project's networks that no container left is attached to. */
  method FullDownTakesAll(ops: Operations, p: Project) returns (ok: bool, result: OpResult, ghost listed: bool)
    requires ops.client.Valid()
    modifies ops.client
    ensures ops.client.world.volumes == old(ops.client.world).volumes
    ensures forall c | c in old(ops.client.world).containers
                       && Label(old(ops.client.world).containers[c].labels, PROJECT_LABEL) != p.id ::
              c in ops.client.world.containers
              && ops.client.world.containers[c] == old(ops.client.world).containers[c]
    ensures forall n | n in old(ops.client.world).networks
                       && Label(old(ops.client.world).networks[n].labels, PROJECT_LABEL) != p.id ::
              n in ops.client.world.networks && ops.client.world.networks[n] == old(ops.client.world).networks[n]
    ensures ok && result.status == Succeeded && ops.client.steady && listed ==>
              && (forall c | c in old(ops.client.world).containers ::
                    c !in ops.client.world.containers <==>
                    Label(old(ops.client.world).containers[c].labels, PROJECT_LABEL) == p.id)
              && (forall n | n in old(ops.client.world).networks ::
                    n !in ops.client.world.networks <==>
                    && Label(old(ops.client.world).networks[n].labels, PROJECT_LABEL) == p.id
                    && forall c | c in ops.client.world.containers :: n !in ops.client.world.containers[c].networks)
  {
    ok, result, listed := ops.Down(p, []);
  }
}
