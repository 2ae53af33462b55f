/** The vocabulary of Up and Down in internal/docker/operations.go. */
module Compose {
  import opened Options
  import opened Sequences
  import opened Services
  import opened Daemon
  import TopoSort

  datatype NetworkDef = NetworkDef(name: string, external: bool)
  datatype VolumeDef = VolumeDef(name: string, external: bool)

  datatype Project = Project(
    id: string, name: string, services: seq<Service>,
    networks: map<string, NetworkDef>, volumes: map<string, VolumeDef>)

  datatype Action =
    | CreateNetwork(key: string) | CreateVolume(key: string)
    | SkipNoImage | Build | Pull | Create | Start
    | StopIt | Remove | RemoveNetwork(key: string)

  datatype OpStep = OpStep(service: string, action: Action, failed: bool)

  datatype Code = NetworkConflict | VolumeConflict | Internal | DockerUnavailable | ImagePullFailed | ContainerFailed

  datatype Status = Succeeded | Cancelled | RolledBack(code: Code)

  datatype OpResult = OpResult(status: Status, steps: seq<OpStep>)

  ghost predicate AllSucceeded(steps: seq<OpStep>) {
    forall s | s in steps :: !s.failed
  }

  /** Only the last step failed. */
  ghost predicate LastFailed(steps: seq<OpStep>) {
    steps != [] && steps[|steps| - 1].failed && AllSucceeded(steps[..|steps| - 1])
  }

  lemma LogAfter(a: seq<OpStep>, b: seq<OpStep>)
    requires AllSucceeded(a)
    ensures AllSucceeded(b) ==> AllSucceeded(a + b)
    ensures LastFailed(b) ==> LastFailed(a + b)
  {
  }

  /** The first network of this name in a listing. */
  ghost predicate IsFirstOfName(w: World, ids: seq<NetworkId>, i: int, name: string)
    requires forall j | 0 <= j < |ids| :: ids[j] in w.networks
  {
    && 0 <= i < |ids| && w.networks[ids[i]].name == name
    && forall j | 0 <= j < i :: w.networks[ids[j]].name != name
  }

  // ----- names -----

  function NetworkName(p: Project, key: string): string
    requires key in p.networks
  {
    if p.networks[key].name != "" then p.networks[key].name else p.name + "_" + key
  }

  function VolumeName(p: Project, key: string): string
    requires key in p.volumes
  {
    if p.volumes[key].name != "" then p.volumes[key].name else p.name + "_" + key
  }

  function ContainerName(p: Project, service: string): string {
    p.name + "-" + service + "-1"
  }

  lemma ContainerNameInjective(p: Project, a: string, b: string)
    ensures ContainerName(p, a) == ContainerName(p, b) ==> a == b
  {
    if ContainerName(p, a) == ContainerName(p, b) {
      var prefix := p.name + "-";
      assert ContainerName(p, a) == prefix + a + "-1" && ContainerName(p, b) == prefix + b + "-1";
      assert a == ContainerName(p, a)[|prefix|..|prefix| + |a|];
      assert b == ContainerName(p, b)[|prefix|..|prefix| + |b|];
    }
  }

  /** The network that a service means by `n`. */
  function ResolvedNetwork(p: Project, n: string): string {
    if n !in p.networks then p.name + "_" + n
    else if p.networks[n].name != "" then p.networks[n].name
    else if p.networks[n].external then n
    else p.name + "_" + n
  }

  /** The mount names a volume that may be declared in the project. */
  predicate IsNamed(m: Mount) {
    m.kind == "volume" && m.source != "" && m.source[0] != '/'
  }

  function ResolvedSource(p: Project, m: Mount): string {
    if IsNamed(m) && m.source in p.volumes then VolumeName(p, m.source) else m.source
  }

  /** What a service is given when its networks are resolved. */
  ghost predicate NetworksResolved(p: Project, wanted: seq<string>, got: seq<string>) {
    if wanted == [] then got == [p.name + "_default"]
    else |got| == |wanted| && forall i | 0 <= i < |wanted| :: got[i] == ResolvedNetwork(p, wanted[i])
  }

  function LabelsOf(p: Project, s: Service): Labels {
    map[PROJECT_LABEL := p.id, NAME_LABEL := p.name][SERVICE_LABEL := s.name] + s.labels
  }

  predicate Skipped(s: Service) {
    s.image == "" && !s.build
  }

  function Unskipped(services: seq<Service>): seq<Service> {
    if services == [] then []
    else
      var n := |services| - 1;
      Unskipped(services[..n]) + if Skipped(services[n]) then [] else [services[n]]
  }

  /** filterServices: all services for no names, else those that are named. */
  function Filtered(services: seq<Service>, names: seq<string>): (r: seq<Service>)
    ensures forall s | s in r :: s in services && (names == [] || s.name in names)
  {
    if names == [] then services
    else if services == [] then []
    else
      var n := |services| - 1;
      Filtered(services[..n], names) + if services[n].name in names then [services[n]] else []
  }

  lemma FilteredAppend(services: seq<Service>, names: seq<string>, s: Service)
    requires names != []
    ensures Filtered(services + [s], names) == Filtered(services, names) + if s.name in names then [s] else []
  {
  }

  lemma {:induction false} FilteredKeepsNamed(services: seq<Service>, names: seq<string>, s: Service)
    requires s in services && s.name in names
    ensures s in Filtered(services, names)
    decreases |services|
  {
    if names != [] {
      var n := |services| - 1;
      assert services == services[..n] + [services[n]];
      if s in services[..n] {
        FilteredKeepsNamed(services[..n], names, s);
      }
    }
  }

  lemma {:induction false} UnskippedMembers(services: seq<Service>, s: Service)
    ensures s in Unskipped(services) <==> s in services && !Skipped(s)
    decreases |services|
  {
    if services != [] {
      var n := |services| - 1;
      assert services == services[..n] + [services[n]];
      UnskippedMembers(services[..n], s);
    }
  }

  // ----- what a run adds to the world -----

  function Ids(s: seq<nat>): set<nat> {
    set x | x in s
  }

  /** The networks are those of before and `ns`, made by this run. */
  ghost predicate NetworksPlus(w0: World, w: World, ns: seq<NetworkId>) {
    && w.networks - Ids(ns) == w0.networks
    && forall n | n in ns :: n in w.networks && n >= w0.next
  }

  /** The volumes are those of before and `vs`, some of which may have been there. */
  ghost predicate VolumesPlus(w0: World, w: World, vs: seq<string>) {
    && w.volumes.Keys == w0.volumes.Keys + (set v | v in vs)
    && forall v | v in w0.volumes :: w.volumes[v] == w0.volumes[v]
  }

  /** Containers and networks that were there before are still there, unchanged. */
  ghost predicate ContainersKept(w0: World, w: World) {
    forall c | c in w0.containers :: c in w.containers && w.containers[c] == w0.containers[c]
  }

  ghost predicate NetworksKept(w0: World, w: World) {
    forall n | n in w0.networks :: n in w.networks && w.networks[n] == w0.networks[n]
  }

  /** Volumes that were there before are still there, unchanged, but for some of `vs` that
      nobody mounted. */
  ghost predicate VolumesKept(w0: World, w: World, vs: seq<string>) {
    forall v | v in w0.volumes ::
      (v in w.volumes && w.volumes[v] == w0.volumes[v]) || (v in vs && !VolumeUsed(w0, v))
  }

  ghost predicate Kept(w0: World, w: World, vs: seq<string>) {
    ContainersKept(w0, w) && NetworksKept(w0, w) && VolumesKept(w0, w, vs)
  }

  /** The volumes among `vs` that no container of `w` mounts. */
  ghost function Unmounted(w: World, vs: seq<string>): set<string> {
    set v | v in vs && !VolumeUsed(w, v)
  }

  /** A name under which the project declares a network of its own. */
  ghost predicate IsOwnNetwork(p: Project, name: string) {
    exists k :: k in p.networks && !p.networks[k].external && NetworkName(p, k) == name
  }

  ghost predicate IsOwnVolume(p: Project, name: string) {
    exists k :: k in p.volumes && !p.volumes[k].external && VolumeName(p, k) == name
  }

  /** The networks are those of before and `ns`, which are networks of the project's own, under
      names that were not taken, with its label. */
  ghost predicate NetworksMade(p: Project, w0: World, w: World, ns: seq<NetworkId>) {
    && NetworksPlus(w0, w, ns)
    && forall n | n in ns ::
         && Label(w.networks[n].labels, PROJECT_LABEL) == p.id
         && IsOwnNetwork(p, w.networks[n].name) && !HasNetwork(w0, w.networks[n].name)
         && exists k :: IsMadeFor(p, k, w.networks[n])
  }

  /** The network is the one that the project declares under this key. */
  ghost predicate IsMadeFor(p: Project, k: string, net: Network) {
    k in p.networks && !p.networks[k].external && net == Network(NetworkName(p, k), NetworkLabels(p, k))
  }

  /** The volumes are those of before and `vs`, the project's own. */
  ghost predicate VolumesMade(p: Project, w0: World, w: World, vs: seq<string>) {
    && VolumesPlus(w0, w, vs)
    && (forall v | v in vs :: IsOwnVolume(p, v))
    && (forall v | v in w.volumes && v !in w0.volumes :: exists k :: IsKeptFor(p, k, v, w.volumes[v]))
  }

  /** The volume is the one that the project declares under this key. */
  ghost predicate IsKeptFor(p: Project, k: string, v: string, labels: Labels) {
    k in p.volumes && !p.volumes[k].external && v == VolumeName(p, k) && labels == VolumeLabels(p, k)
  }

  lemma NetworkAdded(p: Project, w0: World, w: World, ns: seq<NetworkId>, w': World, net: Network)
    requires NetworksMade(p, w0, w, ns) && w0.next <= w.next && forall n | n in w.networks :: n < w.next
    requires w'.networks == w.networks[w.next := net]
    requires Label(net.labels, PROJECT_LABEL) == p.id && IsOwnNetwork(p, net.name) && !HasNetwork(w0, net.name)
    requires exists k :: IsMadeFor(p, k, net)
    ensures NetworksMade(p, w0, w', ns + [w.next])
  {
  }

  lemma NotThereBefore(w0: World, w: World, ns: seq<NetworkId>, name: string)
    requires NetworksPlus(w0, w, ns) && !HasNetwork(w, name)
    ensures !HasNetwork(w0, name)
  {
    forall n | n in w0.networks ensures n in w.networks && w.networks[n] == w0.networks[n] {
      assert n in w.networks - Ids(ns);
    }
  }

  lemma VolumesKeptSince(w0: World, w: World, w': World, vs: seq<string>)
    requires VolumesPlus(w0, w, vs) && ContainersKept(w0, w) && VolumesKept(w, w', vs)
    ensures VolumesKept(w0, w', vs)
  {
    forall v | v in w0.volumes && VolumeUsed(w0, v) ensures VolumeUsed(w, v) {
      var c :| c in w0.containers && v in w0.containers[c].volumes;
      assert c in w.containers;
    }
  }

  lemma MoreNetworks(w: World, w': World)
    requires forall n | n in w.networks :: n in w'.networks && w'.networks[n] == w.networks[n]
    ensures forall name | HasNetwork(w, name) :: HasNetwork(w', name)
  {
  }

  function VolumeLabels(p: Project, key: string): Labels {
    map[PROJECT_LABEL := p.id, "com.composecockpit.volume" := key]
  }

  function NetworkLabels(p: Project, key: string): Labels {
    map[PROJECT_LABEL := p.id, "com.composecockpit.network" := key]
  }

  /** A volume that exists keeps the labels that it has. */
  function WithVolume(volumes: map<string, Labels>, name: string, labels: Labels): map<string, Labels> {
    if name in volumes then volumes else volumes[name := labels]
  }

  lemma VolumesGrow(p: Project, w0: World, w: World, vs: seq<string>, w': World, key: string)
    requires VolumesMade(p, w0, w, vs) && key in p.volumes && !p.volumes[key].external
    requires w'.volumes == WithVolume(w.volumes, VolumeName(p, key), VolumeLabels(p, key))
    ensures VolumesMade(p, w0, w', vs + [VolumeName(p, key)])
  {
    assert IsKeptFor(p, key, VolumeName(p, key), VolumeLabels(p, key));
  }

  lemma UnmountedStep(w: World, vs: seq<string>, i: nat)
    requires i < |vs|
    ensures Unmounted(w, vs[..i + 1])
            == Unmounted(w, vs[..i]) + if VolumeUsed(w, vs[i]) then {} else {vs[i]}
  {
  }

  /** Without the volumes of a run that nobody mounts: what was there before, less those. */
  lemma VolumesRestored(w0: World, w: World, vs: seq<string>)
    requires WellFormed(w0) && w.containers == w0.containers && VolumesPlus(w0, w, vs)
    ensures w.volumes - Unmounted(w, vs) == w0.volumes - Unmounted(w0, vs)
  {
  }

  /** The volumes that the log reports as created. */
  function VolumesIn(p: Project, steps: seq<OpStep>): seq<string> {
    if steps == [] then []
    else
      var s := steps[|steps| - 1];
      VolumesIn(p, steps[..|steps| - 1])
      + if s.action.CreateVolume? && !s.failed && s.action.key in p.volumes
        then [VolumeName(p, s.action.key)] else []
  }

  lemma VolumesInAppend(p: Project, steps: seq<OpStep>, s: OpStep)
    ensures VolumesIn(p, steps + [s]) ==
            VolumesIn(p, steps) + if s.action.CreateVolume? && !s.failed && s.action.key in p.volumes
                                  then [VolumeName(p, s.action.key)] else []
  {
  }

  lemma {:induction false} VolumesInConcat(p: Project, a: seq<OpStep>, b: seq<OpStep>)
    ensures VolumesIn(p, a + b) == VolumesIn(p, a) + VolumesIn(p, b)
    decreases |b|
  {
    if b == [] {
      assert a + b == a;
    } else {
      var n := |b| - 1;
      VolumesInConcat(p, a, b[..n]);
      assert (a + b)[..|a + b| - 1] == a + b[..n];
    }
  }

  lemma {:induction false} NoVolumes(p: Project, steps: seq<OpStep>)
    requires forall x | x in steps :: !x.action.CreateVolume?
    ensures VolumesIn(p, steps) == []
    decreases |steps|
  {
    if steps != [] {
      NoVolumes(p, steps[..|steps| - 1]);
    }
  }

  /** The log of phases 2 to 4, of which only phase 3 makes volumes. */
  lemma PhaseLogs(p: Project, a: seq<OpStep>, b: seq<OpStep>, c: seq<OpStep>)
    requires AllSucceeded(a) && forall x | x in a :: !x.action.CreateVolume?
    requires forall x | x in c :: !x.action.CreateVolume?
    ensures VolumesIn(p, a + b + c) == VolumesIn(p, b)
    ensures LastFailed(b) ==> LastFailed(a + b)
    ensures AllSucceeded(b) && AllSucceeded(c) ==> AllSucceeded(a + b + c)
    ensures AllSucceeded(b) && LastFailed(c) ==> LastFailed(a + b + c)
  {
    NoVolumes(p, a);
    NoVolumes(p, c);
    VolumesInConcat(p, a, b);
    VolumesInConcat(p, a + b, c);
    LogAfter(a, b);
    if AllSucceeded(b) {
      LogAfter(a + b, c);
    }
  }

  /** The log when Up ends with phase 3. */
  lemma EarlyLogs(p: Project, a: seq<OpStep>, b: seq<OpStep>)
    requires AllSucceeded(a) && forall x | x in a :: !x.action.CreateVolume?
    ensures VolumesIn(p, a + b) == VolumesIn(p, b)
    ensures LastFailed(b) ==> LastFailed(a + b)
  {
    PhaseLogs(p, a, b, []);
    assert a + b + [] == a + b;
  }

  /** New networks are attached to new containers only. */
  lemma NewNetworksUnused(w0: World, w: World, ns: seq<NetworkId>)
    requires WellFormed(w0) && w.containers == w0.containers && forall n | n in ns :: n >= w0.next
    ensures forall n | n in ns :: !NetworkUsed(w, n)
  {
  }

  // ----- the containers of a run -----

  ghost predicate Distinct(ids: seq<ContainerId>) {
    forall i, j | 0 <= i < j < |ids| :: ids[i] != ids[j]
  }

  /** The name of the network that the container of a service is to be attached to: of several
      only the first counts. */
  function WantedNetwork(p: Project, s: Service): string {
    if s.networks == [] then p.name + "_default" else ResolvedNetwork(p, s.networks[0])
  }

  function WantedVolumes(p: Project, s: Service): set<string> {
    set m | m in s.mounts && m.kind == "volume" :: ResolvedSource(p, m)
  }

  function Attachable(p: Project, s: Service, at: World): set<NetworkId> {
    set n | n in at.networks && at.networks[n].name == WantedNetwork(p, s)
  }

  /** The image of a service; one that is only built gets a name of its own. */
  function ImageName(p: Project, s: Service): string {
    if s.image != "" then s.image else p.name + "-" + s.name + ":latest"
  }

  /** The container is what the service asks for, attached to the first network that it asks for
      and mounting the volumes, so far as they are there. */
  ghost predicate Fits(p: Project, s: Service, c: Container, at: World) {
    && c.name == ContainerName(p, s.name) && c.image == ImageName(p, s) && c.labels == LabelsOf(p, s)
    && c.networks == Attachable(p, s, at) && c.volumes == WantedVolumes(p, s) * at.volumes.Keys
  }

  predicate Runs(cs: map<ContainerId, Container>, id: ContainerId) {
    id in cs && cs[id].running
  }

  /** Of the containers of the run, in their order of creation, exactly the first `k` run. */
  ghost predicate RunsUpTo(cs: map<ContainerId, Container>, made: seq<ContainerId>, k: nat) {
    forall i | 0 <= i < |made| :: Runs(cs, made[i]) <==> i < k
  }

  /** What one call of Up does to the containers: `made` are the containers that it creates
      for the services `tried`, `base` are those of others, and `at` has the networks and
      volumes that are there while it does. */
  datatype Run = Run(base: map<ContainerId, Container>, project: Project, at: World,
                     made: seq<ContainerId>, tried: seq<Service>)

  /** At any moment the containers of the run that run are the first ones. */
  ghost predicate IsMoment(cs: map<ContainerId, Container>, r: Run) {
    && |r.made| == |r.tried|
    && cs - Ids(r.made) == r.base
    && (exists k :: 0 <= k <= |r.made| && RunsUpTo(cs, r.made, k))
    && (forall i | 0 <= i < |r.made| && r.made[i] in cs :: Fits(r.project, r.tried[i], cs[r.made[i]], r.at))
  }

  ghost predicate AreMoments(moments: seq<World>, from: nat, r: Run) {
    forall k | from <= k < |moments| :: IsMoment(moments[k].containers, r)
  }

  /** The same up to a number of calls. */
  ghost predicate AreMomentsTo(moments: seq<World>, from: nat, to: nat, r: Run) {
    to <= |moments| && forall k | from <= k < to :: IsMoment(moments[k].containers, r)
  }

  /** Of the calls since, exactly those from one number up to another remove or stop something. */
  ghost predicate Undid(before: set<nat>, after: set<nat>, from: nat, to: nat) {
    forall k: nat :: k in after <==> k in before || from <= k < to
  }

  /** All the containers of the run are there and running. */
  ghost predicate AllUp(cs: map<ContainerId, Container>, r: Run) {
    && |r.made| == |r.tried| && Distinct(r.made)
    && cs - Ids(r.made) == r.base
    && (forall i | 0 <= i < |r.made| :: Runs(cs, r.made[i]) && Fits(r.project, r.tried[i], cs[r.made[i]], r.at))
  }

  /** Undoing from the end: the containers from `k` on are gone. */
  lemma RemovedIsMoment(cs: map<ContainerId, Container>, r: Run, k: nat)
    requires AllUp(cs, r) && k <= |r.made|
    ensures IsMoment(cs - Ids(r.made[k..]), r)
    ensures k == 0 ==> cs - Ids(r.made[k..]) == r.base
    ensures k == |r.made| ==> cs - Ids(r.made[k..]) == cs
    ensures forall i | 0 <= i < k :: Runs(cs - Ids(r.made[k..]), r.made[i])
  {
    var now := cs - Ids(r.made[k..]);
    forall i | 0 <= i < |r.made| ensures r.made[i] in Ids(r.made[k..]) <==> i >= k {
      if i >= k {
        assert r.made[i] == r.made[k..][i - k];
      }
    }
    assert RunsUpTo(now, r.made, k);
    assert now - Ids(r.made) == r.base by {
      assert Ids(r.made[k..]) <= Ids(r.made);
    }
    if k == 0 {
      assert r.made[0..] == r.made;
    }
  }

  /** Changes to a container of the run leave those of others alone. */
  lemma OwnChange(cs: map<ContainerId, Container>, ids: seq<ContainerId>, id: ContainerId, c: Container)
    requires id in ids
    ensures cs[id := c] - Ids(ids) == cs - Ids(ids)
    ensures (cs - {id}) - Ids(ids) == cs - Ids(ids)
  {
  }

  /** The last container still there while it is stopped. */
  function StoppedLast(cs: map<ContainerId, Container>, made: seq<ContainerId>, k: nat): map<ContainerId, Container>
    requires k < |made| && made[k] in cs - Ids(made[k + 1..])
  {
    (cs - Ids(made[k + 1..]))[made[k] := cs[made[k]].(running := false)]
  }

  lemma StopThenRemove(cs: map<ContainerId, Container>, r: Run, k: nat)
    requires AllUp(cs, r) && k < |r.made|
    ensures r.made[k] in cs - Ids(r.made[k + 1..])
    ensures StoppedLast(cs, r.made, k) - {r.made[k]} == cs - Ids(r.made[k..])
    ensures (cs - Ids(r.made[k + 1..])) - {r.made[k]} == cs - Ids(r.made[k..])
  {
  }

  /** While the containers are still, or again, those of before, it is a moment of the run. */
  lemma StayedAreMoments(moments: seq<World>, from: nat, r: Run)
    requires forall k | from <= k < |moments| :: moments[k].containers == r.base
    requires |r.made| == |r.tried| && forall id | id in r.made :: id !in r.base
    ensures AreMoments(moments, from, r)
  {
    assert r.base - Ids(r.made) == r.base;
    assert RunsUpTo(r.base, r.made, 0);
  }

  /** Moments followed by some in which the containers are those of before. */
  lemma MomentsLast(early: seq<World>, moments: seq<World>, from: nat, r: Run)
    requires early <= moments && AreMoments(early, from, r) && IsMoment(r.base, r)
    requires forall k | |early| <= k < |moments| :: moments[k].containers == r.base
    ensures AreMoments(moments, from, r)
  {
    forall k | from <= k < |moments| ensures IsMoment(moments[k].containers, r) {
      if k < |early| {
        assert IsMoment(early[k].containers, r);
      }
    }
  }

  /** The last one still there is stopped before it is removed. */
  lemma StoppedIsMoment(cs: map<ContainerId, Container>, r: Run, k: nat)
    requires AllUp(cs, r) && k < |r.made| && r.made[k] in cs - Ids(r.made[k + 1..])
    ensures IsMoment(StoppedLast(cs, r.made, k), r)
  {
    var now := StoppedLast(cs, r.made, k);
    RemovedIsMoment(cs, r, k + 1);
    OwnChange(cs - Ids(r.made[k + 1..]), r.made, r.made[k], now[r.made[k]]);
    forall i | 0 <= i < |r.made| ensures Runs(now, r.made[i]) <==> i < k {
      if i > k {
        assert r.made[i] == r.made[k + 1..][i - (k + 1)];
      }
    }
    assert RunsUpTo(now, r.made, k);
  }

  // ----- launching -----

  function MountedVolumes(ms: seq<Mount>): set<string> {
    set i | 0 <= i < |ms| && ms[i].kind == "volume" :: ms[i].source
  }

  ghost predicate MountsResolved(p: Project, wanted: seq<Mount>, got: seq<Mount>) {
    |got| == |wanted| && forall i | 0 <= i < |wanted| ::
      got[i] == wanted[i].(source := ResolvedSource(p, wanted[i]))
  }

  /** The declared networks and volumes of the project are there. */
  ghost predicate PlacesReady(p: Project, w: World) {
    && (forall n | n in p.networks && !p.networks[n].external :: HasNetwork(w, NetworkName(p, n)))
    && (forall v | v in p.volumes && !p.volumes[v].external :: VolumeName(p, v) in w.volumes)
  }

  lemma MountedAreWanted(p: Project, s: Service, got: seq<Mount>)
    requires MountsResolved(p, s.mounts, got)
    ensures MountedVolumes(got) == WantedVolumes(p, s)
  {
    forall m | m in s.mounts && m.kind == "volume" ensures ResolvedSource(p, m) in MountedVolumes(got) {
      var i :| 0 <= i < |s.mounts| && s.mounts[i] == m;
      assert got[i].kind == "volume" && got[i].source == ResolvedSource(p, m);
    }
  }

  /** The networks and volumes are the same. */
  ghost predicate SamePlaces(w: World, w': World) {
    w.networks == w'.networks && w.volumes == w'.volumes
  }

  lemma CreatedFits(p: Project, s: Service, w: World, cfg: Config, got: seq<Mount>, at: World)
    requires NetworksResolved(p, s.networks, cfg.networks) && SamePlaces(w, at)
    requires MountsResolved(p, s.mounts, got) && cfg.volumes == MountedVolumes(got)
    requires cfg.name == ContainerName(p, s.name) && cfg.image == ImageName(p, s) && cfg.labels == LabelsOf(p, s)
    ensures Fits(p, s, Created(w, cfg), at)
  {
    MountedAreWanted(p, s, got);
    assert cfg.networks[0] == WantedNetwork(p, s);
    assert Created(w, cfg).networks == Attachable(p, s, at);
  }

  lemma FitsRunning(p: Project, s: Service, c: Container, at: World)
    requires Fits(p, s, c, at)
    ensures Fits(p, s, c.(running := true), at)
  {
  }

  function Tried(r: Run, id: ContainerId, s: Service): Run {
    r.(made := r.made + [id], tried := r.tried + [s])
  }

  lemma IdsAppend(ids: seq<nat>, id: nat)
    ensures Ids(ids + [id]) == Ids(ids) + {id}
  {
  }

  /** What was a moment before the next container was made still is one afterwards. */
  lemma MomentExtends(cs: map<ContainerId, Container>, r: Run, id: ContainerId, s: Service)
    requires IsMoment(cs, r) && id !in cs
    ensures IsMoment(cs, Tried(r, id, s))
  {
    var r' := Tried(r, id, s);
    IdsAppend(r.made, id);
    assert cs - Ids(r'.made) == cs - Ids(r.made);
    var k :| 0 <= k <= |r.made| && RunsUpTo(cs, r.made, k);
    assert RunsUpTo(cs, r'.made, k);
  }

  lemma AllUpIsMoment(cs: map<ContainerId, Container>, r: Run)
    requires AllUp(cs, r)
    ensures IsMoment(cs, r)
  {
    assert RunsUpTo(cs, r.made, |r.made|);
  }

  /** The next container is there but does not run yet. */
  lemma CreatedIsMoment(cs: map<ContainerId, Container>, r: Run, id: ContainerId, s: Service, c: Container)
    requires AllUp(cs, r) && id !in cs && id !in r.made && Fits(r.project, s, c, r.at) && !c.running
    ensures IsMoment(cs[id := c], Tried(r, id, s))
  {
    var r' := Tried(r, id, s);
    IdsAppend(r.made, id);
    assert cs[id := c] - Ids(r'.made) == cs - Ids(r.made);
    assert RunsUpTo(cs[id := c], r'.made, |r.made|);
  }

  lemma StartedIsUp(cs: map<ContainerId, Container>, r: Run, id: ContainerId, s: Service, c: Container)
    requires AllUp(cs, r) && id !in cs && id !in r.made && Fits(r.project, s, c, r.at) && c.running
    ensures AllUp(cs[id := c], Tried(r, id, s))
  {
  }

  /** All that can become of the container just made: it starts, or it does not and is removed
      again, or left over. */
  lemma StartsOrNot(cs: map<ContainerId, Container>, r: Run, id: ContainerId, s: Service, c: Container)
    requires AllUp(cs, r) && id !in cs && id !in r.made && Fits(r.project, s, c, r.at) && !c.running
    ensures var up := cs[id := c][id := c.(running := true)];
            AllUp(up, Tried(r, id, s)) && IsMoment(up, Tried(r, id, s))
    ensures IsMoment(cs[id := c], Tried(r, id, s)) && IsMoment(cs, Tried(r, id, s))
    ensures cs[id := c] - {id} == cs && cs - {id} == cs
  {
    var up := cs[id := c.(running := true)];
    assert up == cs[id := c][id := c.(running := true)];
    FitsRunning(r.project, s, c, r.at);
    StartedIsUp(cs, r, id, s, c.(running := true));
    AllUpIsMoment(up, Tried(r, id, s));
    CreatedIsMoment(cs, r, id, s, c);
    AllUpIsMoment(cs, r);
    MomentExtends(cs, r, id, s);
  }

  /** No container of these moments has an id from `bound` on. */
  ghost predicate Below(moments: seq<World>, from: nat, bound: nat) {
    forall k, c | from <= k < |moments| && c in moments[k].containers :: c < bound
  }

  /** `r'` is `r`, or `r` with one more container. */
  ghost predicate Goes(r: Run, r': Run, id: ContainerId, s: Service) {
    r' == r || r' == Tried(r, id, s)
  }

  /** The moments before a launch and those of the launch are moments of the longer run. */
  lemma MomentsJoin(before: seq<World>, after: seq<World>, from: nat, r: Run, r': Run, id: ContainerId, s: Service)
    requires before <= after && AreMoments(before, from, r) && Below(before, from, id) && Goes(r, r', id, s)
    requires AreMoments(after, |before|, r')
    ensures AreMoments(after, from, r')
  {
    forall k | from <= k < |after| ensures IsMoment(after[k].containers, r') {
      if k < |before| && r' != r {
        MomentExtends(before[k].containers, r, id, s);
      }
    }
  }

  /** Moments without a trace of container `id`. */
  lemma MomentsWiden(moments: seq<World>, from: nat, r: Run, r': Run, id: ContainerId, s: Service)
    requires AreMoments(moments, from, r) && id !in r.made && id !in r.base && Goes(r, r', id, s)
    ensures AreMoments(moments, from, r')
  {
    forall k | from <= k < |moments| ensures IsMoment(moments[k].containers, r') {
      if r' != r {
        var cs := moments[k].containers;
        assert id in cs ==> id in cs - Ids(r.made);
        MomentExtends(cs, r, id, s);
      }
    }
  }

  lemma {:induction false} UnskippedPrefix(services: seq<Service>, i: nat)
    requires i <= |services|
    ensures Unskipped(services[..i]) <= Unskipped(services)
    decreases |services|
  {
    if i < |services| {
      var n := |services| - 1;
      UnskippedPrefix(services[..n], i);
      assert services[..n][..i] == services[..i];
    } else {
      assert services[..i] == services;
    }
  }

  lemma UnskippedAppend(services: seq<Service>, s: Service)
    ensures Unskipped(services + [s]) == Unskipped(services) + if Skipped(s) then [] else [s]
  {
  }

  lemma UnskippedNext(services: seq<Service>, i: nat)
    requires i < |services|
    ensures Unskipped(services[..i + 1]) ==
            Unskipped(services[..i]) + if Skipped(services[i]) then [] else [services[i]]
  {
    UnskippedAppend(services[..i], services[i]);
    assert services[..i + 1] == services[..i] + [services[i]];
  }

  lemma LeftOverIsUp(cs: map<ContainerId, Container>, before: map<ContainerId, Container>, id: ContainerId, r: Run)
    requires cs - {id} == before && AllUp(before, r) && id !in r.made
    ensures AllUp(cs, r.(base := cs - Ids(r.made)))
    ensures cs == before ==> cs - Ids(r.made) == r.base
    ensures forall c | c in r.base :: c in cs - Ids(r.made) && (cs - Ids(r.made))[c] == r.base[c]
  {
  }

  lemma BaseKept(w0: World, w: World, base: map<ContainerId, Container>, ids: seq<ContainerId>)
    requires w.containers - Ids(ids) == base
    requires forall c | c in w0.containers :: c in base && base[c] == w0.containers[c]
    ensures ContainersKept(w0, w)
  {
  }

  lemma KeptBehind(w0: World, w: World, base: map<ContainerId, Container>, ids: seq<ContainerId>, ns: seq<NetworkId>)
    requires w.containers - Ids(ids) == base && w.networks - Ids(ns) == w0.networks
    requires forall c | c in w0.containers :: c in base && base[c] == w0.containers[c]
    ensures ContainersKept(w0, w) && NetworksKept(w0, w)
  {
  }

  // ----- images -----

  /** The calls that prepare an image: it is built if there is something to build; else the daemon is
      asked, and the image is pulled exactly if it is missing. A failure is told by the call that
      failed. */
  ghost predicate PreparesImage(build: bool, image: string, ok: bool, code: Code, calls: seq<ImageCall>) {
    if build then calls == [Built(image, ok)] && (!ok ==> code == Internal)
    else
      && calls != [] && calls[0].Asked? && calls[0].image == image
      && match calls[0].present
         case None => !ok && |calls| == 1 && code == DockerUnavailable
         case Some(present) =>
           if present then ok && |calls| == 1
           else calls[1..] == [Pulled(image, ok)] && (!ok ==> code == ImagePullFailed)
  }

  /** An image is pulled exactly when the daemon has just said that it is missing. */
  ghost predicate PullsMissing(calls: seq<ImageCall>) {
    && (forall k | 0 <= k < |calls| && calls[k].Pulled? ::
          k > 0 && calls[k - 1] == Asked(calls[k].image, Some(false)))
    && (forall k | 0 <= k < |calls| && calls[k].Asked? && calls[k].present == Some(false) ::
          k + 1 < |calls| && calls[k + 1].Pulled?)
  }

  lemma PreparedPullsMissing(build: bool, image: string, ok: bool, code: Code, calls: seq<ImageCall>)
    requires PreparesImage(build, image, ok, code, calls)
    ensures PullsMissing(calls) && calls != []
  {
    if !build && calls[0].present == Some(false) {
      assert calls == [calls[0]] + calls[1..];
    }
  }

  /** The calls from a number on. */
  ghost predicate PullsMissingSince(before: seq<ImageCall>, calls: seq<ImageCall>) {
    before <= calls && PullsMissing(calls[|before|..])
  }

  lemma PullsMissingFurther(a: seq<ImageCall>, b: seq<ImageCall>, c: seq<ImageCall>)
    requires PullsMissingSince(a, b) && PullsMissingSince(b, c)
    ensures PullsMissingSince(a, c)
  {
    var x, y, z := b[|a|..], c[|b|..], c[|a|..];
    assert z == x + y;
    forall k | 0 <= k < |z| && z[k].Pulled? ensures k > 0 && z[k - 1] == Asked(z[k].image, Some(false)) {
      if k >= |x| {
        assert z[k] == y[k - |x|];
      }
    }
    forall k | 0 <= k < |z| && z[k].Asked? && z[k].present == Some(false) ensures k + 1 < |z| && z[k + 1].Pulled? {
      if k >= |x| {
        assert z[k] == y[k - |x|];
      }
    }
  }

  /** The code of a failed Up tells which step was the last, and which call about images failed. */
  ghost predicate CodeTells(code: Code, steps: seq<OpStep>, calls: seq<ImageCall>) {
    && steps != []
    && var last := steps[|steps| - 1].action;
       && (code == NetworkConflict <==> last.CreateNetwork?)
       && (code == VolumeConflict <==> last.CreateVolume?)
       && (code == Internal <==> last.Build?)
       && (code in {DockerUnavailable, ImagePullFailed} <==> last.Pull?)
       && (code == ContainerFailed <==> last in {Create, Start})
       && (code == DockerUnavailable ==> calls != [] && calls[|calls| - 1].Asked? && calls[|calls| - 1].present.None?)
       && (code == ImagePullFailed ==> calls != [] && calls[|calls| - 1].Pulled? && !calls[|calls| - 1].ok)
  }

  // ----- the log of Up -----

  /** The steps of a service. */
  ghost function ServiceSteps(s: Service): seq<OpStep> {
    if s.image == "" && !s.build then [OpStep(s.name, SkipNoImage, false)]
    else [OpStep(s.name, if s.build then Build else Pull, false)] + ContainerSteps(s)
  }

  ghost function ContainerSteps(s: Service): seq<OpStep> {
    [OpStep(s.name, Create, false), OpStep(s.name, Start, false)]
  }

  ghost function PlanSteps(sorted: seq<Service>): seq<OpStep> {
    if sorted == [] then []
    else PlanSteps(sorted[..|sorted| - 1]) + ServiceSteps(sorted[|sorted| - 1])
  }

  /** The steps as if none had failed. */
  ghost function Clean(steps: seq<OpStep>): seq<OpStep> {
    seq(|steps|, i requires 0 <= i < |steps| => steps[i].(failed := false))
  }

  lemma SucceededIsClean(steps: seq<OpStep>)
    requires AllSucceeded(steps)
    ensures Clean(steps) == steps
  {
    forall i | 0 <= i < |steps| ensures Clean(steps)[i] == steps[i] {
      assert steps[i] in steps;
    }
  }

  lemma {:induction false} PlanStepsGrow(sorted: seq<Service>, i: nat)
    requires i <= |sorted|
    ensures PlanSteps(sorted[..i]) <= PlanSteps(sorted)
    decreases |sorted|
  {
    if i == |sorted| {
      assert sorted[..i] == sorted;
    } else {
      var n := |sorted| - 1;
      PlanStepsGrow(sorted[..n], i);
      assert sorted[..n][..i] == sorted[..i];
    }
  }

  lemma PlanStepsNext(sorted: seq<Service>, i: nat)
    requires i < |sorted|
    ensures PlanSteps(sorted[..i + 1]) == PlanSteps(sorted[..i]) + ServiceSteps(sorted[i])
  {
    assert sorted[..i + 1][..i] == sorted[..i];
  }

  /** The steps of some services, and of the next one as far as it came. */
  lemma PlanStepsUpTo(sorted: seq<Service>, i: nat, steps: seq<OpStep>, next: seq<OpStep>)
    requires i < |sorted| && steps == PlanSteps(sorted[..i]) && AllSucceeded(steps)
    requires Clean(next) <= ServiceSteps(sorted[i])
    ensures Clean(steps + next) <= PlanSteps(sorted)
  {
    PlanStepsNext(sorted, i);
    PlanStepsGrow(sorted, i + 1);
    CleanAfter(steps, next);
    PrefixAfter(steps, Clean(next), ServiceSteps(sorted[i]));
  }

  lemma CleanAfter(steps: seq<OpStep>, next: seq<OpStep>)
    requires AllSucceeded(steps)
    ensures Clean(steps + next) == steps + Clean(next)
  {
    forall i | 0 <= i < |steps + next| ensures Clean(steps + next)[i] == (steps + Clean(next))[i] {
      if i < |steps| {
        assert steps[i] in steps;
      }
    }
  }

  lemma PrefixAfter<T>(a: seq<T>, b: seq<T>, c: seq<T>)
    requires b <= c
    ensures a + b <= a + c
  {
  }

  /** The log of one service. */
  ghost predicate ServiceLog(s: Service, status: Status, steps: seq<OpStep>, calls: seq<ImageCall>) {
    match status
    case Succeeded => steps == ServiceSteps(s) && AllSucceeded(steps)
    case Cancelled => steps == []
    case RolledBack(code) =>
      && LastFailed(steps) && CodeTells(code, steps, calls) && code !in {NetworkConflict, VolumeConflict}
      && Clean(steps) <= ServiceSteps(s)
  }

  /** The image could not be prepared. */
  lemma FirstStepFails(s: Service, step: OpStep, code: Code, calls: seq<ImageCall>)
    requires !Skipped(s) && step == OpStep(s.name, if s.build then Build else Pull, true)
    requires calls != [] && if s.build then code == Internal
             else match calls[|calls| - 1]
                  case Asked(_, present) => present.None? && code == DockerUnavailable
                  case Pulled(_, ok) => !ok && code == ImagePullFailed
                  case Built(_, _) => false
    ensures ServiceLog(s, RolledBack(code), [step], calls)
  {
    assert Clean([step]) == [step.(failed := false)];
    assert ServiceSteps(s) == [step.(failed := false)] + ContainerSteps(s);
  }

  /** The image was prepared, and the steps of the container came as far as they did. */
  lemma ContainerStepsFollow(s: Service, first: OpStep, rest: seq<OpStep>, status: Status, calls: seq<ImageCall>)
    requires !Skipped(s) && first == OpStep(s.name, if s.build then Build else Pull, false)
    requires match status
             case Succeeded => rest == ContainerSteps(s)
             case Cancelled => false
             case RolledBack(code) => LastFailed(rest) && Clean(rest) <= ContainerSteps(s) && code == ContainerFailed
    ensures ServiceLog(s, status, [first] + rest, calls)
  {
    LogAfter([first], rest);
    if status.RolledBack? {
      assert Clean([first] + rest) == [first] + Clean(rest);
      assert Clean(rest)[|rest| - 1] == ContainerSteps(s)[|rest| - 1];
    }
  }

  /** The log of phase 4. */
  ghost predicate LaunchLog(sorted: seq<Service>, status: Status, steps: seq<OpStep>, calls: seq<ImageCall>) {
    match status
    case Succeeded => steps == PlanSteps(sorted) && AllSucceeded(steps)
    case Cancelled => steps <= PlanSteps(sorted) && AllSucceeded(steps)
    case RolledBack(code) =>
      && LastFailed(steps) && CodeTells(code, steps, calls) && code !in {NetworkConflict, VolumeConflict}
      && Clean(steps) <= PlanSteps(sorted)
  }

  lemma LaunchLogIsClean(sorted: seq<Service>, status: Status, steps: seq<OpStep>, calls: seq<ImageCall>)
    requires LaunchLog(sorted, status, steps, calls)
    ensures Clean(steps) <= PlanSteps(sorted)
    ensures forall x | x in steps :: !x.action.CreateVolume?
  {
    if !status.RolledBack? {
      SucceededIsClean(steps);
    }
    PlanMakesNoVolumes(sorted);
    forall i | 0 <= i < |steps| ensures !steps[i].action.CreateVolume? {
      assert Clean(steps)[i] == PlanSteps(sorted)[i];
    }
  }

  lemma {:induction false} PlanMakesNoVolumes(sorted: seq<Service>)
    ensures forall i | 0 <= i < |PlanSteps(sorted)| :: !PlanSteps(sorted)[i].action.CreateVolume?
    decreases |sorted|
  {
    if sorted != [] {
      PlanMakesNoVolumes(sorted[..|sorted| - 1]);
    }
  }

  /** The log while services are launched. */
  ghost predicate LogSoFar(sorted: seq<Service>, i: nat, steps: seq<OpStep>)
    requires i <= |sorted|
  {
    steps == PlanSteps(sorted[..i]) && AllSucceeded(steps)
  }

  lemma CodeTellsStill(a: seq<OpStep>, b: seq<OpStep>, code: Code, calls: seq<ImageCall>)
    requires CodeTells(code, b, calls)
    ensures CodeTells(code, a + b, calls)
  {
  }


  lemma LogGoesOn(sorted: seq<Service>, i: nat, steps: seq<OpStep>, status: Status, next: seq<OpStep>,
                  calls: seq<ImageCall>)
    requires i < |sorted| && LogSoFar(sorted, i, steps) && ServiceLog(sorted[i], status, next, calls)
    ensures status.Succeeded? ==> LogSoFar(sorted, i + 1, steps + next)
    ensures !status.Succeeded? ==> LaunchLog(sorted, status, steps + next, calls)
  {
    PlanStepsNext(sorted, i);
    LogAfter(steps, next);
    match status {
      case Succeeded =>
      case Cancelled =>
        PlanStepsGrow(sorted, i);
        assert steps + next == steps;
      case RolledBack(code) =>
        PlanStepsUpTo(sorted, i, steps, next);
        CodeTellsStill(steps, next, code, calls);
    }
  }

  lemma LogEnds(sorted: seq<Service>, steps: seq<OpStep>, calls: seq<ImageCall>)
    requires LogSoFar(sorted, |sorted|, steps)
    ensures LaunchLog(sorted, Succeeded, steps, calls)
  {
    assert sorted[..|sorted|] == sorted;
  }

  /** Steps that create networks, each once, or all that are the project's own. */
  ghost predicate NetworkLog(p: Project, steps: seq<OpStep>, all: bool) {
    && (forall x | x in steps ::
          && x.service == "" && x.action.CreateNetwork?
          && x.action.key in p.networks && !p.networks[x.action.key].external)
    && (forall i, j | 0 <= i < j < |steps| :: steps[i].action != steps[j].action)
    && (all ==> forall k | k in p.networks && !p.networks[k].external :: OpStep("", CreateNetwork(k), false) in steps)
  }

  ghost predicate VolumeLog(p: Project, steps: seq<OpStep>, all: bool) {
    && (forall x | x in steps ::
          x.service == "" && x.action.CreateVolume? && x.action.key in p.volumes && !p.volumes[x.action.key].external)
    && (forall i, j | 0 <= i < j < |steps| :: steps[i].action != steps[j].action)
    && (all ==> forall k | k in p.volumes && !p.volumes[k].external :: OpStep("", CreateVolume(k), false) in steps)
  }

  /** The log of Up: the networks, the volumes, and then the services of the plan as far as it came. */
  ghost predicate HasPhases(p: Project, sorted: seq<Service>, status: Status, steps: seq<OpStep>, a: nat, b: nat)
    requires a <= b <= |steps|
  {
    && NetworkLog(p, steps[..a], status != RolledBack(NetworkConflict))
    && VolumeLog(p, steps[a..b], status !in {RolledBack(NetworkConflict), RolledBack(VolumeConflict)})
    && Clean(steps[b..]) <= PlanSteps(sorted) && (status.Succeeded? ==> steps[b..] == PlanSteps(sorted))
  }

  /** The whole log, and the volumes that it reports. */
  ghost predicate UpLog(p: Project, sorted: seq<Service>, vs: seq<string>, status: Status, steps: seq<OpStep>,
                        calls: seq<ImageCall>) {
    exists a, b :: 0 <= a <= b <= |steps|
                   && HasPhases(p, sorted, status, steps, a, b) && HasOutcome(p, vs, status, steps, calls)
  }

  ghost predicate HasOutcome(p: Project, vs: seq<string>, status: Status, steps: seq<OpStep>, calls: seq<ImageCall>) {
    && vs == VolumesIn(p, steps)
    && if status.RolledBack? then LastFailed(steps) && CodeTells(status.code, steps, calls) else AllSucceeded(steps)
  }

  lemma NetworkLogMakesNoVolumes(p: Project, steps: seq<OpStep>, all: bool)
    requires NetworkLog(p, steps, all)
    ensures forall x | x in steps :: !x.action.CreateVolume?
  {
  }

  /** The log when all networks and volumes are there. */
  ghost predicate PlacesLog(p: Project, vs: seq<string>, steps: seq<OpStep>) {
    && AllSucceeded(steps) && vs == VolumesIn(p, steps)
    && exists a :: 0 <= a <= |steps| && NetworkLog(p, steps[..a], true) && VolumeLog(p, steps[a..], true)
  }

  lemma PlacesLogged(p: Project, vs: seq<string>, a: seq<OpStep>, b: seq<OpStep>)
    requires NetworkLog(p, a, true) && AllSucceeded(a)
    requires VolumeLog(p, b, true) && AllSucceeded(b) && vs == VolumesIn(p, b)
    ensures PlacesLog(p, vs, a + b)
  {
    NetworkLogMakesNoVolumes(p, a, true);
    EarlyLogs(p, a, b);
    LogAfter(a, b);
    assert (a + b)[..|a|] == a && (a + b)[|a|..] == b;
  }

  /** Up ends with phase 3, or goes on to phase 4. */
  lemma WholeLog(p: Project, sorted: seq<Service>, vs: seq<string>, status: Status, steps: seq<OpStep>,
                 c: seq<OpStep>, calls: seq<ImageCall>)
    requires PlacesLog(p, vs, steps) && LaunchLog(sorted, status, c, calls)
    ensures UpLog(p, sorted, vs, status, steps + c, calls)
  {
    LaunchLogIsClean(sorted, status, c, calls);
    VolumesInConcat(p, steps, c);
    NoVolumes(p, c);
    LogAfter(steps, c);
    if status.RolledBack? {
      CodeTellsStill(steps, c, status.code, calls);
    }
    WholeLogHasPhases(p, sorted, vs, status, steps, c, calls);
  }

  lemma WholeLogHasPhases(p: Project, sorted: seq<Service>, vs: seq<string>, status: Status, steps: seq<OpStep>,
                          c: seq<OpStep>, calls: seq<ImageCall>)
    requires PlacesLog(p, vs, steps) && LaunchLog(sorted, status, c, calls)
    requires HasOutcome(p, vs, status, steps + c, calls)
    ensures UpLog(p, sorted, vs, status, steps + c, calls)
  {
    LaunchLogIsClean(sorted, status, c, calls);
    var n :| 0 <= n <= |steps| && NetworkLog(p, steps[..n], true) && VolumeLog(p, steps[n..], true);
    PhasesOf(steps, c, n);
    assert HasPhases(p, sorted, status, steps + c, n, |steps|);
  }

  lemma PhasesOf<T>(steps: seq<T>, c: seq<T>, n: nat)
    requires n <= |steps|
    ensures (steps + c)[..n] == steps[..n] && (steps + c)[n..|steps|] == steps[n..] && (steps + c)[|steps|..] == c
  {
  }

  lemma VolumeLogMore(p: Project, steps: seq<OpStep>, key: string, failed: bool)
    requires VolumeLog(p, steps, false) && key in p.volumes && !p.volumes[key].external
    requires forall x | x in steps :: x.action.key != key
    ensures VolumeLog(p, steps + [OpStep("", CreateVolume(key), failed)], false)
    ensures forall x | x in steps + [OpStep("", CreateVolume(key), failed)] :: x in steps || x.action.key == key
  {
    var more := steps + [OpStep("", CreateVolume(key), failed)];
    forall i, j | 0 <= i < j < |more| ensures more[i].action != more[j].action {
      assert more[i] in steps;
    }
  }

  lemma StepMore(steps: seq<OpStep>, x: OpStep)
    requires AllSucceeded(steps)
    ensures if x.failed then LastFailed(steps + [x]) else AllSucceeded(steps + [x])
  {
    assert (steps + [x])[..|steps|] == steps;
  }

  lemma NetworkLogMore(p: Project, steps: seq<OpStep>, key: string, failed: bool)
    requires NetworkLog(p, steps, false) && key in p.networks && !p.networks[key].external
    requires forall x | x in steps :: x.action.key != key
    ensures NetworkLog(p, steps + [OpStep("", CreateNetwork(key), failed)], false)
    ensures forall x | x in steps + [OpStep("", CreateNetwork(key), failed)] :: x in steps || x.action.key == key
  {
    var more := steps + [OpStep("", CreateNetwork(key), failed)];
    forall i, j | 0 <= i < j < |more| ensures more[i].action != more[j].action {
      assert more[i] in steps;
    }
  }

  lemma EarlyLog(p: Project, vs: seq<string>, a: seq<OpStep>, b: seq<OpStep>, calls: seq<ImageCall>)
    requires NetworkLog(p, a, true) && AllSucceeded(a)
    requires VolumeLog(p, b, false) && LastFailed(b) && vs == VolumesIn(p, b)
    ensures UpLog(p, [], vs, RolledBack(VolumeConflict), a + b, calls)
  {
    NetworkLogMakesNoVolumes(p, a, true);
    EarlyLogs(p, a, b);
    assert a + b + [] == a + b;
    assert b[|b| - 1] in b;
    LogOfPhases(p, [], vs, RolledBack(VolumeConflict), a, b, [], calls);
  }

  lemma FirstLog(p: Project, a: seq<OpStep>, calls: seq<ImageCall>)
    requires NetworkLog(p, a, false) && LastFailed(a)
    ensures UpLog(p, [], [], RolledBack(NetworkConflict), a, calls)
  {
    NetworkLogMakesNoVolumes(p, a, false);
    NoVolumes(p, a);
    assert a + [] + [] == a;
    assert a[|a| - 1] in a;
    LogOfPhases(p, [], [], RolledBack(NetworkConflict), a, [], [], calls);
  }

  lemma LogOfPhases(p: Project, sorted: seq<Service>, vs: seq<string>, status: Status, x: seq<OpStep>, y: seq<OpStep>,
                    z: seq<OpStep>, calls: seq<ImageCall>)
    requires NetworkLog(p, x, status != RolledBack(NetworkConflict))
    requires VolumeLog(p, y, status !in {RolledBack(NetworkConflict), RolledBack(VolumeConflict)})
    requires Clean(z) <= PlanSteps(sorted) && (status.Succeeded? ==> z == PlanSteps(sorted))
    requires HasOutcome(p, vs, status, x + y + z, calls)
    ensures UpLog(p, sorted, vs, status, x + y + z, calls)
  {
    var steps, a, b := x + y + z, |x|, |x| + |y|;
    assert steps[..a] == x && steps[a..b] == y && steps[b..] == z;
    assert HasPhases(p, sorted, status, steps, a, b);
  }
  // ----- what Up and Down leave behind -----

  /** All the project's own volumes are recorded. */
  ghost predicate RecordsOwn(p: Project, vs: seq<string>) {
    forall v | v in p.volumes && !p.volumes[v].external :: VolumeName(p, v) in vs
  }

  /** The networks and volumes when containers are about to be launched: those of before and
      the project's own. */
  ghost predicate Prepared(p: Project, w0: World, w: World, ns: seq<NetworkId>, vs: seq<string>) {
    NetworksMade(p, w0, w, ns) && VolumesMade(p, w0, w, vs) && RecordsOwn(p, vs) && PlacesReady(p, w)
  }

  /** `sorted` has each selected service once, under the definition that counts for its name,
      dependencies first. */
  ghost predicate IsPlan(p: Project, services: seq<string>, g: TopoSort.Graph, sorted: seq<Service>) {
    var targets := Filtered(p.services, services);
    && TopoSort.GraphOf(g, targets) && TopoSort.DepsFirst(g, sorted)
    && DistinctNames(sorted) && Names(sorted) == Names(targets) && TopoSort.Selected(ByName(targets), sorted)
  }

  lemma NothingPlanned(targets: seq<Service>, sorted: seq<Service>)
    requires Names(sorted) == Names(targets)
    ensures targets == [] ==> sorted == []
  {
    if sorted != [] {
      assert sorted[0].name in Names(sorted);
    }
  }

  /** After a successful Up: the containers of the run are up, and nothing was undone. */
  ghost predicate UpDone(w: World, r: Run, sorted: seq<Service>) {
    r.tried == Unskipped(sorted) && AllUp(w.containers, r) && SamePlaces(w, r.at)
  }

  /** After an Up rolled back on a steady daemon: containers and networks are as before, and
      the volumes `vs` that it had created or reused are gone unless somebody mounts them. */
  ghost predicate UpRolledBack(w0: World, w: World, vs: seq<string>) {
    && w.containers == w0.containers && w.networks == w0.networks
    && w.volumes == w0.volumes - Unmounted(w0, vs)
  }

  lemma AllLaunched(sorted: seq<Service>, w0: World, w: World, r: Run, ns: seq<NetworkId>, vs: seq<string>)
    requires r.tried == Unskipped(sorted[..|sorted|]) && AllUp(w.containers, r) && r.base == w0.containers
    requires SamePlaces(w, r.at) && NetworksPlus(w0, r.at, ns) && VolumesPlus(w0, r.at, vs)
    ensures UpDone(w, r, sorted) && Kept(w0, w, vs)
    ensures r.tried <= Unskipped(sorted) && forall id | id in r.made :: id !in r.base
  {
    assert sorted[..|sorted|] == sorted;
    assert forall c | c in r.made :: c in Ids(r.made);
    KeptBehind(w0, w, r.base, r.made, ns);
  }

  ghost predicate IsOfProject(c: Container, id: string) {
    Label(c.labels, PROJECT_LABEL) == id
  }

  /** The containers that Down removes: those of the project, of the named services if any
      are named. */
  ghost predicate DownTakes(c: Container, id: string, services: seq<string>) {
    IsOfProject(c, id) && (services == [] || Label(c.labels, SERVICE_LABEL) in services)
  }

  ghost function Taken(w: World, id: string, services: seq<string>): set<ContainerId> {
    set c | c in w.containers && DownTakes(w.containers[c], id, services)
  }

  /** The networks of the project that no container of `w` is attached to. */
  ghost function FreeNetworks(w: World, id: string): set<NetworkId> {
    set n | n in w.networks && Label(w.networks[n].labels, PROJECT_LABEL) == id && !NetworkUsed(w, n)
  }

  /** After an uncancelled Down on a steady daemon that could list its networks. */
  ghost predicate DownDone(w0: World, w: World, id: string, services: seq<string>) {
    && w.containers == w0.containers - Taken(w0, id, services)
    && w.volumes == w0.volumes
    && w.networks == w0.networks -
                     if services == [] then FreeNetworks(w0.(containers := w.containers), id) else {}
  }

  /** Some of these networks are gone, and nothing else has changed. */
  ghost predicate Thinned(before: map<NetworkId, Network>, now: map<NetworkId, Network>, free: set<NetworkId>) {
    && (forall n | n in now :: n in before && now[n] == before[n])
    && (forall n | n in before && n !in now :: n in free)
  }

  /** The project's free networks that are left are as free as before. */
  lemma ThinnedFree(w0: World, w: World, id: string)
    requires w == w0.(networks := w.networks) && Thinned(w0.networks, w.networks, FreeNetworks(w0, id))
    ensures FreeNetworks(w, id) == FreeNetworks(w0, id) * w.networks.Keys
  {
    forall n ensures NetworkUsed(w, n) <==> NetworkUsed(w0, n) {
    }
  }

  /** Networks that do not carry the label of the project are still there, unchanged. */
  ghost predicate OthersNetworksStay(w0: World, w: World, id: string) {
    forall n | n in w0.networks && Label(w0.networks[n].labels, PROJECT_LABEL) != id ::
      n in w.networks && w.networks[n] == w0.networks[n]
  }

  /** Containers that Down does not take are still there, unchanged. */
  ghost predicate OthersContainersStay(w0: World, w: World, id: string, services: seq<string>) {
    forall c | c in w0.containers && !DownTakes(w0.containers[c], id, services) ::
      c in w.containers && w.containers[c] == w0.containers[c]
  }

  lemma OneTaken(w0: World, before: World, now: World, id: string, services: seq<string>, c: ContainerId)
    requires OthersContainersStay(w0, before, id, services) && c in w0.containers
    requires now.containers - {c} == before.containers - {c}
    requires DownTakes(w0.containers[c], id, services) || now == before
    ensures OthersContainersStay(w0, now, id, services)
  {
    forall d | d in w0.containers && !DownTakes(w0.containers[d], id, services)
      ensures d in now.containers && now.containers[d] == w0.containers[d]
    {
      if d != c {
        assert d in before.containers - {c};
      }
    }
  }

  /** Each removal of Down takes one container and touches nothing else. */
  lemma TakenStep(w: World, id: string, services: seq<string>, ids: seq<ContainerId>, i: nat)
    requires i < |ids| && ids[i] in w.containers
    ensures TakenOf(w, id, services, ids[..i + 1])
            == TakenOf(w, id, services, ids[..i]) +
               if DownTakes(w.containers[ids[i]], id, services) then {ids[i]} else {}
  {
  }

  ghost function TakenOf(w: World, id: string, services: seq<string>, ids: seq<ContainerId>): set<ContainerId> {
    set c | c in ids && c in w.containers && DownTakes(w.containers[c], id, services)
  }

  lemma StillThere(now: map<ContainerId, Container>, then_: map<ContainerId, Container>, ids: seq<ContainerId>, i: nat)
    requires i < |ids| && Distinct(ids) && ids[i] in then_
    requires now - Ids(ids[..i]) == then_ - Ids(ids[..i])
    ensures ids[i] in now && now[ids[i]] == then_[ids[i]]
  {
    assert ids[i] !in Ids(ids[..i]);
    assert ids[i] in then_ - Ids(ids[..i]);
  }

  lemma OneMoreAside(before: map<ContainerId, Container>, now: map<ContainerId, Container>,
                     then_: map<ContainerId, Container>, ids: seq<ContainerId>, i: nat)
    requires i < |ids| && before - Ids(ids[..i]) == then_ - Ids(ids[..i]) && now - {ids[i]} == before - {ids[i]}
    ensures now - Ids(ids[..i + 1]) == then_ - Ids(ids[..i + 1])
  {
    assert ids[..i + 1] == ids[..i] + [ids[i]];
    assert Ids(ids[..i + 1]) == Ids(ids[..i]) + {ids[i]};
    assert now - Ids(ids[..i + 1]) == (now - {ids[i]}) - Ids(ids[..i]);
    assert (before - {ids[i]}) - Ids(ids[..i]) == (before - Ids(ids[..i])) - {ids[i]};
    assert then_ - Ids(ids[..i + 1]) == (then_ - Ids(ids[..i])) - {ids[i]};
  }

  /** The containers while Down works through a list of those of the project. */
  ghost predicate Taking(w0: World, w: World, id: string, services: seq<string>, ids: seq<ContainerId>, i: nat,
                         steady: bool)
    requires i <= |ids|
  {
    && w == w0.(containers := w.containers)
    && w.containers - Ids(ids[..i]) == w0.containers - Ids(ids[..i])
    && OthersContainersStay(w0, w, id, services)
    && (steady ==> w.containers == w0.containers - TakenOf(w0, id, services, ids[..i]))
  }

  lemma TakingNext(w0: World, before: World, w: World, id: string, services: seq<string>, ids: seq<ContainerId>,
                   i: nat, steady: bool)
    requires i < |ids| && Distinct(ids) && ids[i] in w0.containers && Taking(w0, before, id, services, ids, i, steady)
    requires w == before.(containers := w.containers) && w.containers - {ids[i]} == before.containers - {ids[i]}
    requires DownTakes(w0.containers[ids[i]], id, services) || w == before
    requires DownTakes(w0.containers[ids[i]], id, services) && steady ==>
               w.containers == before.containers - {ids[i]}
    ensures Taking(w0, w, id, services, ids, i + 1, steady)
  {
    TakenStep(w0, id, services, ids, i);
    OneMoreAside(before.containers, w.containers, w0.containers, ids, i);
    OneTaken(w0, before, w, id, services, ids[i]);
  }

  /** The networks while a full Down works through a list of them. */
  ghost predicate Thinning(w0: World, w: World, id: string, list: seq<NetworkId>, i: nat, steady: bool)
    requires i <= |list|
  {
    && w == w0.(networks := w.networks) && Thinned(w0.networks, w.networks, FreeNetworks(w0, id))
    && (forall j | i <= j < |list| :: list[j] in w.networks)
    && (steady ==> forall j | 0 <= j < i && list[j] in FreeNetworks(w0, id) :: list[j] !in w.networks)
  }

  lemma ThinningNext(w0: World, before: World, w: World, id: string, list: seq<NetworkId>, i: nat, steady: bool)
    requires i < |list| && Distinct(list) && Thinning(w0, before, id, list, i, steady)
    requires w == before.(networks := w.networks)
    requires w.networks in {before.networks, before.networks - {list[i]}}
    requires list[i] !in w.networks ==> list[i] in FreeNetworks(before, id)
    requires steady && list[i] in FreeNetworks(before, id) ==> list[i] !in w.networks
    ensures Thinning(w0, w, id, list, i + 1, steady)
  {
    ThinnedFree(w0, before, id);
  }

  lemma ThinningEnds(w0: World, w: World, id: string, list: seq<NetworkId>)
    requires Lists(list, w0.networks.Keys) && Thinning(w0, w, id, list, |list|, true)
    ensures w.networks == w0.networks - FreeNetworks(w0, id)
  {
    forall n | n in w.networks ensures n !in FreeNetworks(w0, id) {
      assert n in list;
    }
  }

  lemma ThinningSpares(w0: World, w: World, id: string)
    requires Thinned(w0.networks, w.networks, FreeNetworks(w0, id))
    ensures OthersNetworksStay(w0, w, id)
  {
  }

  // ----- the log of Down -----

  /** The steps of a container: none if it is not taken, else it is stopped, and removed, which failed
      exactly if it is left. */
  ghost function TakenSteps(c: Container, left: bool, id: string, services: seq<string>): seq<OpStep> {
    if !DownTakes(c, id, services) then []
    else [OpStep(Label(c.labels, SERVICE_LABEL), StopIt, false), OpStep(Label(c.labels, SERVICE_LABEL), Remove, left)]
  }

  ghost function DownSteps(
    cs: map<ContainerId, Container>, now: map<ContainerId, Container>, id: string, services: seq<string>,
    ids: seq<ContainerId>): seq<OpStep>
  {
    if ids == [] then []
    else
      var c := ids[|ids| - 1];
      DownSteps(cs, now, id, services, ids[..|ids| - 1]) +
      if c in cs then TakenSteps(cs[c], c in now, id, services) else []
  }

  lemma {:induction false} DownStepsSame(
    cs: map<ContainerId, Container>, now: map<ContainerId, Container>, later: map<ContainerId, Container>, id: string,
    services: seq<string>, ids: seq<ContainerId>)
    requires forall i | 0 <= i < |ids| :: ids[i] in now <==> ids[i] in later
    ensures DownSteps(cs, now, id, services, ids) == DownSteps(cs, later, id, services, ids)
    decreases |ids|
  {
    if ids != [] {
      DownStepsSame(cs, now, later, id, services, ids[..|ids| - 1]);
    }
  }

  /** One more container changes nothing about those before it. */
  lemma DownStepsNext(
    cs: map<ContainerId, Container>, now: map<ContainerId, Container>, later: map<ContainerId, Container>, id: string,
    services: seq<string>, ids: seq<ContainerId>, i: nat)
    requires i < |ids| && Distinct(ids) && ids[i] in cs
    requires later - {ids[i]} == now - {ids[i]}
    ensures DownSteps(cs, later, id, services, ids[..i + 1]) ==
            DownSteps(cs, now, id, services, ids[..i]) + TakenSteps(cs[ids[i]], ids[i] in later, id, services)
  {
    forall j | 0 <= j < i ensures ids[j] in now <==> ids[j] in later {
      assert ids[j] in now - {ids[i]} <==> ids[j] in later - {ids[i]};
    }
    DownStepsSame(cs, now, later, id, services, ids[..i]);
    assert ids[..i + 1][..i] == ids[..i];
  }

  /** The networks with the label of the project, each of which Down tries to remove. */
  ghost function RemovalSteps(all: map<NetworkId, Network>, id: string, networks: seq<NetworkId>): seq<OpStep>
  {
    if networks == [] then []
    else
      var n := networks[|networks| - 1];
      RemovalSteps(all, id, networks[..|networks| - 1]) +
      if n in all && Label(all[n].labels, PROJECT_LABEL) == id then [OpStep("", RemoveNetwork(all[n].name), false)]
      else []
  }

  lemma RemovalStepsNext(all: map<NetworkId, Network>, id: string, networks: seq<NetworkId>, i: nat)
    requires i < |networks| && networks[i] in all
    ensures RemovalSteps(all, id, networks[..i + 1]) ==
            RemovalSteps(all, id, networks[..i]) +
            if Label(all[networks[i]].labels, PROJECT_LABEL) == id
            then [OpStep("", RemoveNetwork(all[networks[i]].name), false)] else []
  {
    assert networks[..i + 1][..i] == networks[..i];
  }

  /** The log of Down: the containers of the project, in some order, all of them unless it was cancelled,
      and then the networks if no services were named. */
  ghost predicate DownLog(w0: World, w: World, id: string, services: seq<string>, status: Status, listed: bool,
                          steps: seq<OpStep>) {
    exists ids, k, networks :: IsDownLog(w0, w, id, services, status, listed, steps, ids, k, networks)
  }

  ghost predicate IsDownLog(w0: World, w: World, id: string, services: seq<string>, status: Status, listed: bool,
                            steps: seq<OpStep>, ids: seq<ContainerId>, k: nat, networks: seq<NetworkId>) {
    && Lists(ids, set c | c in w0.containers && IsOfProject(w0.containers[c], id))
    && k <= |ids| && (status == Succeeded ==> k == |ids|)
    && (if services == [] && status == Succeeded && listed then Lists(networks, w0.networks.Keys) else networks == [])
    && steps == DownSteps(w0.containers, w.containers, id, services, ids[..k]) + RemovalSteps(w0.networks, id, networks)
  }
}
