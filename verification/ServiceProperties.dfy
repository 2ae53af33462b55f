/** What becomes of single services: which of them Up launches, what their containers are, and Up
    followed by a Down of one of them. */
module ServiceProperties {
  import opened Services
  import opened Daemon
  import opened Compose
  import opened TopoSort
  import opened Operations
  import opened OperationsProperties

  // ----- which services are launched -----

  /** The service is the last definition of its name, and selected. */
  ghost predicate IsSelected(p: Project, services: seq<string>, s: Service) {
    && (exists i :: IsLastOfName(p.services, i, s))
    && (services == [] || s.name in services)
  }

  ghost predicate IsLastOfName(list: seq<Service>, i: int, s: Service) {
    0 <= i < |list| && list[i] == s && forall j | i < j < |list| :: list[j].name != s.name
  }

  /** There is something to run, or to build. */
  ghost predicate HasImage(s: Service) {
    s.image != "" || s.build
  }

  lemma LastOfNameMore(list: seq<Service>, last: Service, s: Service)
    ensures (exists i :: IsLastOfName(list + [last], i, s))
            <==> last == s || (last.name != s.name && exists i :: IsLastOfName(list, i, s))
  {
    var more := list + [last];
    if last == s {
      assert IsLastOfName(more, |list|, s);
    }
    if last.name != s.name {
      if i :| IsLastOfName(list, i, s) {
        assert IsLastOfName(more, i, s);
      }
      if i :| IsLastOfName(more, i, s) {
        assert i < |list|;
        forall j | i < j < |list| ensures list[j].name != s.name {
          assert more[j] == list[j];
        }
        assert IsLastOfName(list, i, s);
      }
    }
    if i :| IsLastOfName(more, i, s) {
      assert i < |list| ==> more[|list|].name != s.name;
    }
  }

  lemma {:induction false} ByNameIff(list: seq<Service>, s: Service)
    ensures (s.name in ByName(list) && ByName(list)[s.name] == s) <==> exists i :: IsLastOfName(list, i, s)
    decreases |list|
  {
    if list == [] {
    } else {
      ByNameIff(list[..|list| - 1], s);
      ByNameStep(list, s);
    }
  }

  lemma ByNameStep(list: seq<Service>, s: Service)
    requires list != []
    requires var before := list[..|list| - 1];
             (s.name in ByName(before) && ByName(before)[s.name] == s) <==> exists i :: IsLastOfName(before, i, s)
    ensures (s.name in ByName(list) && ByName(list)[s.name] == s) <==> exists i :: IsLastOfName(list, i, s)
  {
    var before, last := list[..|list| - 1], list[|list| - 1];
    assert list == before + [last];
    ByNameMore(before, last);
    LastOfNameMore(before, last, s);
  }

  lemma ByNameMore(before: seq<Service>, last: Service)
    ensures ByName(before + [last]) == ByName(before)[last.name := last]
  {
    assert (before + [last])[..|before|] == before;
  }

  lemma {:induction false} LastOfFilteredIff(list: seq<Service>, names: seq<string>, s: Service)
    ensures (exists i :: IsLastOfName(Filtered(list, names), i, s))
            <==> (exists i :: IsLastOfName(list, i, s)) && (names == [] || s.name in names)
    decreases |list|
  {
    if names == [] {
      assert Filtered(list, names) == list;
    } else if list == [] {
      assert Filtered(list, names) == [];
    } else {
      var n := |list| - 1;
      LastOfFilteredIff(list[..n], names, s);
      LastOfFilteredMore(list[..n], list[n], names, s);
      assert list == list[..n] + [list[n]];
    }
  }

  lemma LastOfFilteredMore(before: seq<Service>, last: Service, names: seq<string>, s: Service)
    requires names != []
    requires (exists i :: IsLastOfName(Filtered(before, names), i, s))
             <==> (exists i :: IsLastOfName(before, i, s)) && s.name in names
    ensures (exists i :: IsLastOfName(Filtered(before + [last], names), i, s))
            <==> (exists i :: IsLastOfName(before + [last], i, s)) && s.name in names
  {
    FilteredAppend(before, names, last);
    LastOfNameMore(before, last, s);
    if last.name in names {
      LastOfNameMore(Filtered(before, names), last, s);
    } else {
      assert Filtered(before + [last], names) == Filtered(before, names);
    }
  }

  /** A service is launched exactly if it is the last definition of its name, selected, and has an
      image or something to build. */
  lemma LaunchableIff(p: Project, services: seq<string>, s: Service)
    ensures IsLaunchable(p, services, s) <==> IsSelected(p, services, s) && HasImage(s)
  {
    ByNameIff(Filtered(p.services, services), s);
    LastOfFilteredIff(p.services, services, s);
  }

  // ----- what their containers are -----

  /** The name of the network that the first reference of the service means; without references
      it is the default network of the project. */
  ghost predicate MeansNetwork(p: Project, s: Service, name: string) {
    if s.networks == [] then name == p.name + "_default"
    else
      var n := s.networks[0];
      && (n in p.networks && p.networks[n].name != "" ==> name == p.networks[n].name)
      && (n in p.networks && p.networks[n].name == "" && p.networks[n].external ==> name == n)
      && (n in p.networks && p.networks[n].name == "" && !p.networks[n].external ==> name == p.name + "_" + n)
      && (n !in p.networks ==> name == p.name + "_" + n)
  }

  /** The mount is of this volume: one that is declared goes by its own name, or by its key behind
      the name of the project. Paths and undeclared sources are taken as they are. */
  ghost predicate MountsVolume(p: Project, m: Mount, v: string) {
    && m.kind == "volume"
    && (m.source == "" || m.source[0] == '/' || m.source !in p.volumes ==> v == m.source)
    && (m.source != "" && m.source[0] != '/' && m.source in p.volumes ==>
          && (p.volumes[m.source].name != "" ==> v == p.volumes[m.source].name)
          && (p.volumes[m.source].name == "" ==> v == p.name + "_" + m.source))
  }

  /** The labels of a container: those of its service, and for the keys that this does not bind the
      id and name of the project and the name of the service. */
  ghost predicate HasLabels(p: Project, s: Service, labels: Labels) {
    && (forall k | k in s.labels :: k in labels && labels[k] == s.labels[k])
    && (forall k | k in labels && k !in s.labels ::
          k in {"com.composecockpit.project", "com.composecockpit.name", "com.composecockpit.service"})
    && ("com.composecockpit.project" !in s.labels ==> Label(labels, "com.composecockpit.project") == p.id)
    && ("com.composecockpit.name" !in s.labels ==> Label(labels, "com.composecockpit.name") == p.name)
    && ("com.composecockpit.service" !in s.labels ==> Label(labels, "com.composecockpit.service") == s.name)
  }

  /** The container of a service, given the networks and volumes that are there. */
  ghost predicate IsContainerOf(p: Project, s: Service, c: Container, at: World) {
    && c.name == p.name + "-" + s.name + "-1"
    && c.image == (if s.image != "" then s.image else p.name + "-" + s.name + ":latest")
    && HasLabels(p, s, c.labels)
    && (forall id :: id in c.networks <==> id in at.networks && MeansNetwork(p, s, at.networks[id].name))
    && (forall v :: v in c.volumes <==> v in at.volumes && exists m :: m in s.mounts && MountsVolume(p, m, v))
  }

  lemma LabelsAre(p: Project, s: Service)
    ensures HasLabels(p, s, LabelsOf(p, s))
  {
  }

  lemma WantedNetworkIs(p: Project, s: Service, name: string)
    ensures MeansNetwork(p, s, name) <==> name == WantedNetwork(p, s)
  {
  }

  lemma WantedVolumeIs(p: Project, s: Service, v: string)
    ensures v in WantedVolumes(p, s) <==> exists m :: m in s.mounts && MountsVolume(p, m, v)
  {
    if v in WantedVolumes(p, s) {
      var m :| m in s.mounts && m.kind == "volume" && ResolvedSource(p, m) == v;
      assert MountsVolume(p, m, v);
    }
    if m :| m in s.mounts && MountsVolume(p, m, v) {
      assert ResolvedSource(p, m) == v;
    }
  }

  /** The containers that a run creates are those of its services. */
  lemma FitsIsContainer(p: Project, s: Service, c: Container, at: World)
    requires Fits(p, s, c, at)
    ensures IsContainerOf(p, s, c, at)
  {
    LabelsAre(p, s);
    forall id ensures id in c.networks <==> id in at.networks && MeansNetwork(p, s, at.networks[id].name) {
      if id in at.networks {
        WantedNetworkIs(p, s, at.networks[id].name);
      }
    }
    forall v ensures v in c.volumes <==> v in at.volumes && exists m :: m in s.mounts && MountsVolume(p, m, v) {
      WantedVolumeIs(p, s, v);
    }
  }

  /** A network of the project's own, as Up makes it. */
  ghost predicate IsOwnPlace(p: Project, k: string, net: Network) {
    && k in p.networks && !p.networks[k].external
    && net.name == (if p.networks[k].name != "" then p.networks[k].name else p.name + "_" + k)
    && net.labels == map["com.composecockpit.project" := p.id, "com.composecockpit.network" := k]
  }

  /** The name of a volume of the project's own. */
  ghost predicate NamesOwnVolume(p: Project, k: string, v: string) {
    && k in p.volumes && !p.volumes[k].external
    && v == (if p.volumes[k].name != "" then p.volumes[k].name else p.name + "_" + k)
  }

  /** What Up adds to the places: networks and volumes of the project's own, with its labels, so that
      all of them are there. */
  ghost predicate PlacesAdded(p: Project, w0: World, w: World) {
    && (forall n | n in w0.networks :: n in w.networks && w.networks[n] == w0.networks[n])
    && (forall n | n in w.networks && n !in w0.networks :: exists k :: IsOwnPlace(p, k, w.networks[n]))
    && (forall k | k in p.networks && !p.networks[k].external ::
          HasNetwork(w, if p.networks[k].name != "" then p.networks[k].name else p.name + "_" + k))
    && (forall v | v in w0.volumes :: v in w.volumes && w.volumes[v] == w0.volumes[v])
    && (forall v | v in w.volumes && v !in w0.volumes ::
          exists k :: NamesOwnVolume(p, k, v)
                      && w.volumes[v] == map["com.composecockpit.project" := p.id, "com.composecockpit.volume" := k])
    && (forall k | k in p.volumes && !p.volumes[k].external ::
          (if p.volumes[k].name != "" then p.volumes[k].name else p.name + "_" + k) in w.volumes)
  }

  lemma PreparedAdds(p: Project, w0: World, w: World, ns: seq<NetworkId>, vs: seq<string>)
    requires Prepared(p, w0, w, ns, vs)
    ensures PlacesAdded(p, w0, w)
  {
    forall n | n in w0.networks ensures n in w.networks && w.networks[n] == w0.networks[n] {
      assert n in w.networks - Ids(ns);
    }
    forall n | n in w.networks && n !in w0.networks ensures exists k :: IsOwnPlace(p, k, w.networks[n]) {
      assert n in Ids(ns) || n in w.networks - Ids(ns);
      var k :| IsMadeFor(p, k, w.networks[n]);
      assert IsOwnPlace(p, k, w.networks[n]);
    }
    forall v | v in w.volumes && v !in w0.volumes
      ensures exists k :: NamesOwnVolume(p, k, v)
                && w.volumes[v] == map["com.composecockpit.project" := p.id, "com.composecockpit.volume" := k]
    {
      var k :| IsKeptFor(p, k, v, w.volumes[v]);
      assert NamesOwnVolume(p, k, v);
    }
    forall k | k in p.networks && !p.networks[k].external
      ensures HasNetwork(w, if p.networks[k].name != "" then p.networks[k].name else p.name + "_" + k)
    {
      assert HasNetwork(w, NetworkName(p, k));
    }
  }

  lemma PlacesAddedSame(p: Project, w0: World, at: World, w: World)
    requires PlacesAdded(p, w0, at) && SamePlaces(w, at)
    ensures PlacesAdded(p, w0, w)
  {
  }

  // ----- what runs after Up -----

  ghost predicate IsToRun(p: Project, services: seq<string>, s: Service) {
    IsSelected(p, services, s) && HasImage(s)
  }

  /** The container was not there before, runs, and is that of the service. */
  ghost predicate IsNewFor(p: Project, s: Service, base: map<ContainerId, Container>, w: World, c: ContainerId) {
    c in w.containers && c !in base && w.containers[c].running && IsContainerOf(p, s, w.containers[c], w)
  }

  ghost predicate EachHasOne(p: Project, services: seq<string>, base: map<ContainerId, Container>, w: World) {
    forall s | IsToRun(p, services, s) :: exists c :: IsNewFor(p, s, base, w, c)
  }

  ghost predicate EachIsOfOne(p: Project, services: seq<string>, base: map<ContainerId, Container>, w: World) {
    forall c | c in w.containers && c !in base :: exists s :: IsToRun(p, services, s) && IsNewFor(p, s, base, w, c)
  }

  ghost predicate NewNamesDiffer(base: map<ContainerId, Container>, w: World) {
    forall c, d | c in w.containers && d in w.containers && c !in base && d !in base && c != d ::
      w.containers[c].name != w.containers[d].name
  }

  /** The containers are those of before and one of each service that is to run. */
  ghost predicate ServicesAdded(p: Project, services: seq<string>, w0: World, w: World) {
    && ContainersKept(w0, w) && NewNamesDiffer(w0.containers, w)
    && EachHasOne(p, services, w0.containers, w) && EachIsOfOne(p, services, w0.containers, w)
  }

  lemma MadeIsNew(p: Project, w: World, r: Run, i: nat)
    requires AllUp(w.containers, r) && SamePlaces(w, r.at) && r.project == p && i < |r.made|
    ensures IsNewFor(p, r.tried[i], r.base, w, r.made[i])
  {
    assert Runs(w.containers, r.made[i]) && r.made[i] in Ids(r.made);
    FitsIsContainer(p, r.tried[i], w.containers[r.made[i]], r.at);
    IsContainerOfSame(p, r.tried[i], w.containers[r.made[i]], r.at, w);
  }

  lemma IsContainerOfSame(p: Project, s: Service, c: Container, at: World, w: World)
    requires IsContainerOf(p, s, c, at) && SamePlaces(w, at)
    ensures IsContainerOf(p, s, c, w)
  {
  }

  lemma NewIsMade(w: World, r: Run, c: ContainerId) returns (i: nat)
    requires AllUp(w.containers, r) && c in w.containers && c !in r.base
    ensures i < |r.made| && r.made[i] == c
  {
    assert c in Ids(r.made);
    i :| 0 <= i < |r.made| && r.made[i] == c;
  }

  lemma PlanIsToRun(p: Project, services: seq<string>, g: Graph, sorted: seq<Service>, s: Service)
    requires IsPlan(p, services, g, sorted)
    ensures s in Unskipped(sorted) <==> IsToRun(p, services, s)
  {
    UnskippedIsLaunchable(p, services, g, sorted, s);
    LaunchableIff(p, services, s);
  }

  lemma EachMade(p: Project, services: seq<string>, g: Graph, sorted: seq<Service>, r: Run, w: World)
    requires IsPlan(p, services, g, sorted) && UpDone(w, r, sorted) && r.project == p
    ensures EachHasOne(p, services, r.base, w)
  {
    forall s | IsToRun(p, services, s) ensures exists c :: IsNewFor(p, s, r.base, w, c) {
      PlanIsToRun(p, services, g, sorted, s);
      var i :| 0 <= i < |r.tried| && r.tried[i] == s;
      MadeIsNew(p, w, r, i);
    }
  }

  lemma MadeForOne(p: Project, services: seq<string>, g: Graph, sorted: seq<Service>, r: Run, w: World)
    requires IsPlan(p, services, g, sorted) && UpDone(w, r, sorted) && r.project == p
    ensures EachIsOfOne(p, services, r.base, w)
  {
    forall c | c in w.containers && c !in r.base
      ensures exists s :: IsToRun(p, services, s) && IsNewFor(p, s, r.base, w, c)
    {
      var i := NewIsMade(w, r, c);
      PlanIsToRun(p, services, g, sorted, r.tried[i]);
      MadeIsNew(p, w, r, i);
    }
  }

  lemma MadeBesideOthers(w0: World, w: World, r: Run)
    requires AllUp(w.containers, r) && r.base == w0.containers
    ensures ContainersKept(w0, w)
  {
    forall c | c in w0.containers ensures c in w.containers && w.containers[c] == w0.containers[c] {
      assert c in w.containers - Ids(r.made);
    }
  }

  lemma MadeUnderOwnNames(w: World, r: Run, sorted: seq<Service>)
    requires DistinctNames(sorted) && UpDone(w, r, sorted)
    ensures NewNamesDiffer(r.base, w)
  {
    forall c, d | c in w.containers && d in w.containers && c !in r.base && d !in r.base && c != d
      ensures w.containers[c].name != w.containers[d].name
    {
      MadeNamesDiffer(w, r, sorted, c, d);
    }
  }

  lemma UpDoneServices(p: Project, services: seq<string>, g: Graph, sorted: seq<Service>, r: Run, w0: World, w: World)
    requires IsPlan(p, services, g, sorted) && UpDone(w, r, sorted) && r.project == p && r.base == w0.containers
    ensures ServicesAdded(p, services, w0, w)
  {
    MadeBesideOthers(w0, w, r);
    MadeUnderOwnNames(w, r, sorted);
    EachMade(p, services, g, sorted, r, w);
    MadeForOne(p, services, g, sorted, r, w);
  }

  lemma MadeNamesDiffer(w: World, r: Run, sorted: seq<Service>, c: ContainerId, d: ContainerId)
    requires DistinctNames(sorted) && UpDone(w, r, sorted)
    requires c in w.containers && d in w.containers && c !in r.base && d !in r.base && c != d
    ensures w.containers[c].name != w.containers[d].name
  {
    var i := NewIsMade(w, r, c);
    var j := NewIsMade(w, r, d);
    UnskippedDistinct(sorted);
    assert r.tried[i].name != r.tried[j].name by {
      assert i < j || j < i;
    }
    ContainerNameInjective(r.project, r.tried[i].name, r.tried[j].name);
  }

  /** Up, when it succeeds: besides what was there, there is exactly one running container of each
      service that is to run, and the networks and volumes of the project's own are there. */
  method UpAddsServices(ops: Operations, p: Project, services: seq<string>) returns (out: Outcome)
    requires ops.client.Valid()
    modifies ops.client
    ensures out.Finished? && out.result.status == Succeeded ==>
              && ServicesAdded(p, services, old(ops.client.world), ops.client.world)
              && PlacesAdded(p, old(ops.client.world), ops.client.world)
  {
    ghost var w0 := ops.client.world;
    ghost var g, sorted, r, ns, vs, held;
    out, g, sorted, r, ns, vs, held := ops.Up(p, services);
    if out.Finished? && out.result.status == Succeeded {
      UpDoneServices(p, services, g, sorted, r, w0, ops.client.world);
      PreparedAdds(p, w0, r.at, ns, vs);
      PlacesAddedSame(p, w0, r.at, ops.client.world);
    }
  }

  // ----- Up and then a Down of one service -----

  /** By its labels, the container of the service is one of the project and of this service name. */
  ghost predicate AnswersTo(p: Project, s: Service, name: string) {
    && (PROJECT_LABEL in s.labels ==> s.labels[PROJECT_LABEL] == p.id)
    && (if SERVICE_LABEL in s.labels then s.labels[SERVICE_LABEL] == name else s.name == name)
  }

  /** The services that run are those that were to, but for the one of this name. */
  ghost predicate AllButRun(p: Project, services: seq<string>, base: map<ContainerId, Container>, w: World,
                            name: string) {
    forall s | IsToRun(p, services, s) :: ServiceRuns(w.containers, base, p, s.name) <==> s.name != name
  }

  lemma MadeAnswers(w: World, r: Run, i: nat, name: string)
    requires AllUp(w.containers, r) && i < |r.made|
    ensures r.made[i] in Taken(w, r.project.id, [name]) <==> AnswersTo(r.project, r.tried[i], name)
  {
    assert Runs(w.containers, r.made[i]);
  }

  lemma RunsUnlessTaken(p: Project, w: World, w': World, r: Run, sorted: seq<Service>, i: nat, name: string)
    requires DistinctNames(sorted) && UpDone(w, r, sorted) && r.project == p && i < |r.made|
    requires w'.containers == w.containers - Taken(w, p.id, [name])
    ensures ServiceRuns(w'.containers, r.base, p, r.tried[i].name) <==> !AnswersTo(p, r.tried[i], name)
  {
    MadeAnswers(w, r, i, name);
    var id := r.made[i];
    assert Runs(w.containers, id) && id in Ids(r.made);
    if !AnswersTo(p, r.tried[i], name) {
      assert id in w'.containers && id !in r.base && w'.containers[id] == w.containers[id];
    }
    if ServiceRuns(w'.containers, r.base, p, r.tried[i].name) {
      var c :| c in w'.containers && c !in r.base && w'.containers[c].name == ContainerName(p, r.tried[i].name)
               && w'.containers[c].running;
      if c != id {
        MadeNamesDiffer(w, r, sorted, c, id);
      }
    }
  }

  lemma AllButRunIff(p: Project, services: seq<string>, g: Graph, sorted: seq<Service>, r: Run, w: World, w': World,
                     name: string)
    requires IsPlan(p, services, g, sorted) && UpDone(w, r, sorted) && r.project == p
    requires w'.containers == w.containers - Taken(w, p.id, [name])
    ensures AllButRun(p, services, r.base, w', name) <==>
            forall s | IsToRun(p, services, s) :: AnswersTo(p, s, name) <==> s.name == name
  {
    forall s | IsToRun(p, services, s)
      ensures ServiceRuns(w'.containers, r.base, p, s.name) <==> !AnswersTo(p, s, name)
    {
      PlanIsToRun(p, services, g, sorted, s);
      var i :| 0 <= i < |r.tried| && r.tried[i] == s;
      RunsUnlessTaken(p, w, w', r, sorted, i, name);
    }
  }

  /** The containers of others are not taken. */
  lemma BaseNotTaken(w0: World, w: World, w': World, r: Run, id: string, name: string)
    requires r.base == w0.containers && w.containers - Ids(r.made) == r.base
    requires w'.containers == w.containers - Taken(w, id, [name])
    requires forall c | c in w0.containers :: !IsOfProject(w0.containers[c], id)
    ensures ContainersKept(w0, w')
    ensures forall c | c in w'.containers && c !in w0.containers :: c in w.containers && c in Ids(r.made)
  {
    forall c | c in w0.containers ensures c in w'.containers && w'.containers[c] == w0.containers[c] {
      assert c in w.containers - Ids(r.made);
    }
    forall c | c in w'.containers && c !in w0.containers ensures c in Ids(r.made) {
      assert c !in Ids(r.made) ==> c in w.containers - Ids(r.made);
    }
  }

  /** Up and then a Down of one service, for a project without labelled containers: if both succeed on
      a steady daemon, all services that were to run do but this one, exactly if no other of
      them answers to its name, and it does itself: if none rebinds the label of the project or
      of its service. The containers of others stay in any case. */
  method UpThenDownOne(ops: Operations, p: Project, services: seq<string>, name: string)
    returns (up: Outcome, ok: bool, down: OpResult)
    requires ops.client.Valid()
    requires forall c | c in ops.client.world.containers :: !IsOfProject(ops.client.world.containers[c], p.id)
    modifies ops.client
    ensures up.Finished? && up.result.status == Succeeded && ok && down.status == Succeeded && ops.client.steady ==>
              && ContainersKept(old(ops.client.world), ops.client.world)
              && (AllButRun(p, services, old(ops.client.world).containers, ops.client.world, name) <==>
                  forall s | IsToRun(p, services, s) :: AnswersTo(p, s, name) <==> s.name == name)
  {
    ghost var w0 := ops.client.world;
    ghost var g, sorted, r, ns, vs, held;
    up, g, sorted, r, ns, vs, held := ops.Up(p, services);
    ok, down := false, OpResult(Cancelled, []);
    if up.PortConflict? || up.result.status != Succeeded {
      return;
    }
    ghost var w1 := ops.client.world;
    ghost var listed;
    ok, down, listed := ops.Down(p, [name]);
    if ok && down.status == Succeeded && ops.client.steady {
      BaseNotTaken(w0, w1, ops.client.world, r, p.id, name);
      AllButRunIff(p, services, g, sorted, r, w1, ops.client.world, name);
    }
  }

  /** Without rebound labels that condition holds. */
  lemma UnboundAnswers(p: Project, services: seq<string>, name: string)
    requires forall s | IsToRun(p, services, s) :: PROJECT_LABEL !in s.labels && SERVICE_LABEL !in s.labels
    ensures forall s | IsToRun(p, services, s) :: AnswersTo(p, s, name) <==> s.name == name
  {
  }

  /** The failing case: the label of another service makes its container go too. */
  const POSING := Project("1", "app", [WEB, WEB.(name := "db", labels := map[SERVICE_LABEL := "web"])], map[], map[])

  lemma PosingIsTaken()
    ensures IsToRun(POSING, [], POSING.services[1]) && POSING.services[1].name != "web"
    ensures AnswersTo(POSING, POSING.services[1], "web")
  {
    assert IsLastOfName(POSING.services, 1, POSING.services[1]);
  }
}
