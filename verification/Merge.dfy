/** The merge algebra of internal/discovery/parser.go. */
module Merge {
  import opened Options
  import opened Sequences

  /** A YAML value that merging does not look into. */
  datatype Yaml = Yaml(text: string)

  /** The forms in which an environment or a label set occurs; scalars are given by their
      rendering. */
  datatype Env =
    | NoEnv
    | EnvMap(vars: map<string, string>)
    | YamlMap(values: map<string, string>)
    | YamlList(items: seq<string>)
    | OtherEnv

  datatype ExtendsRef = ExtendsRef(file: string, service: string)

  datatype Svc = Svc(
    image: string, build: Option<Yaml>, ports: seq<Yaml>, environment: Env, labels: Env,
    dependsOn: Option<Yaml>, profiles: Option<seq<string>>, volumes: Option<seq<Yaml>>,
    networks: Option<Yaml>, restart: string, command: Option<Yaml>, entrypoint: Option<Yaml>,
    extends_: Option<ExtendsRef>, envFile: Option<Yaml>)

  /** strings.Cut at the first "=", which may be missing. */
  function CutAt(s: string): (r: (string, string))
    ensures '=' !in r.0 && (s == r.0 + "=" + r.1 || (s == r.0 && r.1 == ""))
  {
    if s == "" then ("", "")
    else if s[0] == '=' then
      assert s == "" + "=" + s[1..];
      ("", s[1..])
    else
      var (k, v) := CutAt(s[1..]);
      assert s == [s[0]] + s[1..];
      assert s[1..] == k + "=" + v ==> s == ([s[0]] + k) + "=" + v;
      ([s[0]] + k, v)
  }

  /** A list of assignments, where the last one of a name counts. */
  function ListEnv(items: seq<string>): map<string, string> {
    if items == [] then map[]
    else
      var (k, v) := CutAt(items[|items| - 1]);
      ListEnv(items[..|items| - 1])[k := v]
  }

  /** parseEnvInterface */
  function ParseEnv(e: Env): Option<map<string, string>> {
    match e
    case NoEnv => None
    case EnvMap(m) => Some(m)
    case YamlMap(m) => if |m| == 0 then None else Some(m)
    case YamlList(items) => if |ListEnv(items)| == 0 then None else Some(ListEnv(items))
    case OtherEnv => None
  }

  /** The variables that an environment stands for. */
  function Vars(e: Env): map<string, string> {
    match ParseEnv(e)
    case None => map[]
    case Some(m) => m
  }

  // ----- what an environment says -----

  /** The item of a list is about this name: it is the name, or has it before its first "=". */
  predicate IsAbout(item: string, k: string) {
    '=' !in k && (item == k || k + "=" <= item)
  }

  /** The last item about this name. */
  ghost predicate IsLastAbout(items: seq<string>, i: int, k: string) {
    0 <= i < |items| && IsAbout(items[i], k) && forall j :: i < j < |items| ==> !IsAbout(items[j], k)
  }

  /** The environment gives the name this value. Of a list the last item about the name counts; its
      value is what follows the first "=", if there is one. */
  ghost predicate Sets(e: Env, k: string, v: string) {
    match e
    case NoEnv => false
    case EnvMap(m) => k in m && m[k] == v
    case YamlMap(m) => k in m && m[k] == v
    case YamlList(items) =>
      exists i :: IsLastAbout(items, i, k) && (items[i] == k + "=" + v || (items[i] == k && v == ""))
    case OtherEnv => false
  }

  ghost predicate SetsName(e: Env, k: string) {
    exists v :: Sets(e, k, v)
  }

  lemma CutIsAbout(item: string, k: string)
    ensures IsAbout(item, k) <==> CutAt(item).0 == k
  {
    var (name, value) := CutAt(item);
    if IsAbout(item, k) && name != k {
      SameName(item, name, k);
    }
    if name == k && item != k {
      assert item == (k + "=") + value;
    }
  }

  /** The text before the first "=" is unique. */
  lemma SameName(item: string, a: string, b: string)
    requires IsAbout(item, a) && IsAbout(item, b)
    ensures a == b
  {
    NoLongerName(item, a, b);
    NoLongerName(item, b, a);
    assert a == item[..|a|] && b == item[..|b|];
  }

  lemma NoLongerName(item: string, a: string, b: string)
    requires IsAbout(item, a) && IsAbout(item, b)
    ensures |b| <= |a|
  {
    if item != a {
      assert item[|a|] == (a + "=")[|a|];
      assert b <= item;
    }
  }

  lemma LastOfMore(items: seq<string>, item: string, i: int, k: string)
    ensures IsLastAbout(items + [item], i, k) <==>
            if IsAbout(item, k) then i == |items| else IsLastAbout(items, i, k)
  {
    assert (items + [item])[|items|] == item;
    assert forall j | 0 <= j < |items| :: (items + [item])[j] == items[j];
  }

  /** The map of a list has the names that some item is about, with their last values. */
  lemma {:induction false} ListEnvSets(items: seq<string>, k: string)
    ensures k in ListEnv(items) ==> Sets(YamlList(items), k, ListEnv(items)[k])
    ensures k !in ListEnv(items) ==> forall item :: item in items ==> !IsAbout(item, k)
  {
    if items == [] {
    } else {
      var n := |items| - 1;
      var before, last := items[..n], items[n];
      ListEnvSets(before, k);
      CutIsAbout(last, k);
      assert items == before + [last];
      if CutAt(last).0 == k {
        LastOfMore(before, last, n, k);
      } else if k in ListEnv(before) {
        var i :| IsLastAbout(before, i, k) &&
                 (before[i] == k + "=" + ListEnv(before)[k] || (before[i] == k && ListEnv(before)[k] == ""));
        LastOfMore(before, last, i, k);
      }
    }
  }

  lemma SetsOne(e: Env, k: string, v: string, w: string)
    requires Sets(e, k, v) && Sets(e, k, w)
    ensures v == w
  {
    if e.YamlList? {
      var i :| IsLastAbout(e.items, i, k) && (e.items[i] == k + "=" + v || (e.items[i] == k && v == ""));
      var j :| IsLastAbout(e.items, j, k) && (e.items[j] == k + "=" + w || (e.items[j] == k && w == ""));
      assert i == j;
      assert e.items[i] == k + "=" + v ==> v == e.items[i][|k| + 1..];
      assert e.items[i] == k + "=" + w ==> w == e.items[i][|k| + 1..];
    }
  }

  lemma VarsAre(e: Env, k: string)
    ensures k in Vars(e) ==> Sets(e, k, Vars(e)[k])
    ensures k !in Vars(e) ==> !SetsName(e, k)
  {
    if e.YamlList? {
      ListEnvSets(e.items, k);
    }
  }

  /** The variables of an environment are what it says. */
  lemma VarsIff(e: Env, k: string, v: string)
    ensures (k in Vars(e) && Vars(e)[k] == v) <==> Sets(e, k, v)
  {
    VarsAre(e, k);
    if Sets(e, k, v) && k in Vars(e) {
      SetsOne(e, k, v, Vars(e)[k]);
    }
  }

  /** mergeEnvInterface */
  function MergeEnv(base: Env, over: Env): Env {
    EnvMap(Vars(base) + Vars(over))
  }

  function Either<T>(base: Option<T>, over: Option<T>): Option<T> {
    if over.Some? then over else base
  }

  function MergeService(base: Svc, over: Svc): Svc {
    base.(
    image := if over.image != "" then over.image else base.image,
    build := Either(base.build, over.build),
    ports := base.ports + over.ports,
    environment := if over.environment.NoEnv? then base.environment else MergeEnv(base.environment, over.environment),
    labels := if over.labels.NoEnv? then base.labels else MergeEnv(base.labels, over.labels),
    dependsOn := Either(base.dependsOn, over.dependsOn),
    profiles := Either(base.profiles, over.profiles),
    volumes := Either(base.volumes, over.volumes),
    networks := Either(base.networks, over.networks),
    restart := if over.restart != "" then over.restart else base.restart,
    command := Either(base.command, over.command),
    entrypoint := Either(base.entrypoint, over.entrypoint),
    envFile := Either(base.envFile, over.envFile))
  }

  /** The service up to the form of its environment and labels. */
  function Normal(s: Svc): Svc {
    s.(environment := EnvMap(Vars(s.environment)), labels := EnvMap(Vars(s.labels)))
  }

  lemma UnionAssociative<K, V>(a: map<K, V>, b: map<K, V>, c: map<K, V>)
    ensures (a + b) + c == a + (b + c)
  {
  }

  lemma MergeEnvVars(base: Env, over: Env)
    ensures Vars(if over.NoEnv? then base else MergeEnv(base, over)) == Vars(base) + Vars(over)
  {
  }

  /** Merging services is associative, although scalars are replaced, ports appended,
      variables united and Extends kept. */
  lemma MergeServiceAssociative(a: Svc, b: Svc, c: Svc)
    ensures Normal(MergeService(MergeService(a, b), c)) == Normal(MergeService(a, MergeService(b, c)))
  {
    var ab, bc := MergeService(a, b), MergeService(b, c);
    MergeEnvVars(a.environment, b.environment);
    MergeEnvVars(b.environment, c.environment);
    MergeEnvVars(ab.environment, c.environment);
    MergeEnvVars(a.environment, bc.environment);
    UnionAssociative(Vars(a.environment), Vars(b.environment), Vars(c.environment));
    MergeEnvVars(a.labels, b.labels);
    MergeEnvVars(b.labels, c.labels);
    MergeEnvVars(ab.labels, c.labels);
    MergeEnvVars(a.labels, bc.labels);
    UnionAssociative(Vars(a.labels), Vars(b.labels), Vars(c.labels));
    ConcatAssociative(a.ports, b.ports, c.ports);
  }

  /** The form of environment and labels does not matter to a merge. */
  lemma MergeServiceNormal(a: Svc, b: Svc)
    ensures Normal(MergeService(a, b)) == Normal(MergeService(Normal(a), Normal(b)))
  {
    MergeEnvVars(a.environment, b.environment);
    MergeEnvVars(Normal(a).environment, Normal(b).environment);
    MergeEnvVars(a.labels, b.labels);
    MergeEnvVars(Normal(a).labels, Normal(b).labels);
  }

  // ----- layers of a service -----

  /** The merge of a service's definitions, from the first to the last. */
  function Layered(layers: seq<Svc>): Svc
    requires layers != []
  {
    if |layers| == 1 then layers[0] else MergeService(Layered(layers[..|layers| - 1]), layers[|layers| - 1])
  }

  function AllPorts(layers: seq<Svc>): seq<Yaml> {
    if layers == [] then [] else AllPorts(layers[..|layers| - 1]) + layers[|layers| - 1].ports
  }

  /** What layer `l` sets and no later one does is in the result. */
  ghost predicate Decides(l: Svc, later: seq<Svc>, r: Svc) {
    && (l.image != "" && (forall s :: s in later ==> s.image == "") ==> r.image == l.image)
    && (l.build.Some? && (forall s :: s in later ==> s.build.None?) ==> r.build == l.build)
    && (l.dependsOn.Some? && (forall s :: s in later ==> s.dependsOn.None?) ==> r.dependsOn == l.dependsOn)
    && (l.profiles.Some? && (forall s :: s in later ==> s.profiles.None?) ==> r.profiles == l.profiles)
    && (l.volumes.Some? && (forall s :: s in later ==> s.volumes.None?) ==> r.volumes == l.volumes)
    && (l.networks.Some? && (forall s :: s in later ==> s.networks.None?) ==> r.networks == l.networks)
    && (l.restart != "" && (forall s :: s in later ==> s.restart == "") ==> r.restart == l.restart)
    && (l.command.Some? && (forall s :: s in later ==> s.command.None?) ==> r.command == l.command)
    && (l.entrypoint.Some? && (forall s :: s in later ==> s.entrypoint.None?) ==> r.entrypoint == l.entrypoint)
    && (l.envFile.Some? && (forall s :: s in later ==> s.envFile.None?) ==> r.envFile == l.envFile)
  }

  lemma LastDecides(base: Svc, last: Svc)
    ensures Decides(last, [], MergeService(base, last))
  {
  }

  lemma DecidesStill(l: Svc, before: seq<Svc>, r: Svc, last: Svc, later: seq<Svc>)
    requires Decides(l, before, r) && last in later && forall s :: s in before ==> s in later
    ensures Decides(l, later, MergeService(r, last))
  {
  }

  /** Every scalar comes from the last layer that sets it. */
  lemma {:induction false} LastLayerDecides(layers: seq<Svc>, i: nat)
    requires i < |layers|
    ensures Decides(layers[i], layers[i + 1..], Layered(layers))
  {
    var n := |layers| - 1;
    if i < n {
      LastLayerDecides(layers[..n], i);
      LaterLayers(layers, i);
      DecidesStill(layers[i], layers[..n][i + 1..], Layered(layers[..n]), layers[n], layers[i + 1..]);
    } else if n > 0 {
      LastDecides(Layered(layers[..n]), layers[n]);
    }
  }

  /** What none of the layers sets is not set in the result. */
  ghost predicate LeavesUnset(layers: seq<Svc>, r: Svc) {
    && ((forall s :: s in layers ==> s.image == "") ==> r.image == "")
    && ((forall s :: s in layers ==> s.build.None?) ==> r.build.None?)
    && ((forall s :: s in layers ==> s.dependsOn.None?) ==> r.dependsOn.None?)
    && ((forall s :: s in layers ==> s.profiles.None?) ==> r.profiles.None?)
    && ((forall s :: s in layers ==> s.volumes.None?) ==> r.volumes.None?)
    && ((forall s :: s in layers ==> s.networks.None?) ==> r.networks.None?)
    && ((forall s :: s in layers ==> s.restart == "") ==> r.restart == "")
    && ((forall s :: s in layers ==> s.command.None?) ==> r.command.None?)
    && ((forall s :: s in layers ==> s.entrypoint.None?) ==> r.entrypoint.None?)
    && ((forall s :: s in layers ==> s.envFile.None?) ==> r.envFile.None?)
  }

  lemma LeavesUnsetStill(before: seq<Svc>, r: Svc, last: Svc, layers: seq<Svc>)
    requires LeavesUnset(before, r) && last in layers && forall s :: s in before ==> s in layers
    ensures LeavesUnset(layers, MergeService(r, last))
  {
  }

  /** No scalar comes from anywhere else. */
  lemma {:induction false} LayersDecide(layers: seq<Svc>)
    requires layers != []
    ensures LeavesUnset(layers, Layered(layers))
  {
    var n := |layers| - 1;
    assert layers[n] in layers;
    if n > 0 {
      LayersDecide(layers[..n]);
      LeavesUnsetStill(layers[..n], Layered(layers[..n]), layers[n], layers);
    }
  }

  lemma LaterLayers(layers: seq<Svc>, i: nat)
    requires i < |layers| - 1
    ensures var later, before := layers[i + 1..], layers[..|layers| - 1][i + 1..];
            layers[|layers| - 1] in later && forall s :: s in before ==> s in later
  {
  }

  /** The environment of a service, or its labels. */
  function EnvOf(s: Svc, labels: bool): Env {
    if labels then s.labels else s.environment
  }

  /** The variables of a service, or its labels. */
  function Settings(s: Svc, labels: bool): map<string, string> {
    Vars(EnvOf(s, labels))
  }

  lemma SettingsUnite(base: Svc, over: Svc, labels: bool)
    ensures Settings(MergeService(base, over), labels) == Settings(base, labels) + Settings(over, labels)
  {
    MergeEnvVars(base.environment, over.environment);
    MergeEnvVars(base.labels, over.labels);
  }

  lemma LayerAdds(layers: seq<Svc>, labels: bool)
    requires |layers| > 1
    ensures var n := |layers| - 1;
            Settings(Layered(layers), labels) == Settings(Layered(layers[..n]), labels) + Settings(layers[n], labels)
  {
    SettingsUnite(Layered(layers[..|layers| - 1]), layers[|layers| - 1], labels);
  }

  lemma LayerKeeps(layers: seq<Svc>, labels: bool, k: string)
    requires |layers| > 1 && k !in Settings(layers[|layers| - 1], labels)
    requires k in Settings(Layered(layers[..|layers| - 1]), labels)
    ensures k in Settings(Layered(layers), labels)
    ensures Settings(Layered(layers), labels)[k] == Settings(Layered(layers[..|layers| - 1]), labels)[k]
  {
    LayerAdds(layers, labels);
  }

  lemma {:induction false} LastLayerHas(layers: seq<Svc>, i: nat, labels: bool, k: string)
    requires i < |layers| && k in Settings(layers[i], labels)
    requires forall s :: s in layers[i + 1..] ==> k !in Settings(s, labels)
    ensures k in Settings(Layered(layers), labels)
    ensures Settings(Layered(layers), labels)[k] == Settings(layers[i], labels)[k]
  {
    var n := |layers| - 1;
    if i < n {
      LaterLayers(layers, i);
      LastLayerHas(layers[..n], i, labels, k);
      LayerKeeps(layers, labels, k);
    } else if 0 < n {
      LayerAdds(layers, labels);
    }
  }

  /** A variable or label comes from the last layer that sets it. */
  lemma LastLayerSets(layers: seq<Svc>, i: nat, labels: bool, k: string, v: string)
    requires i < |layers| && Sets(EnvOf(layers[i], labels), k, v)
    requires forall s :: s in layers[i + 1..] ==> !SetsName(EnvOf(s, labels), k)
    ensures Sets(EnvOf(Layered(layers), labels), k, v)
  {
    VarsIff(EnvOf(layers[i], labels), k, v);
    forall s | s in layers[i + 1..] ensures k !in Settings(s, labels) {
      VarsAre(EnvOf(s, labels), k);
    }
    LastLayerHas(layers, i, labels, k);
    VarsIff(EnvOf(Layered(layers), labels), k, v);
  }

  /** None comes from anywhere else. */
  lemma SettingFromLayer(layers: seq<Svc>, labels: bool, k: string)
    requires layers != [] && SetsName(EnvOf(Layered(layers), labels), k)
    ensures exists s :: s in layers && SetsName(EnvOf(s, labels), k)
  {
    VarsAre(EnvOf(Layered(layers), labels), k);
    SomeLayerHas(layers, labels, k);
    var s :| s in layers && k in Settings(s, labels);
    VarsAre(EnvOf(s, labels), k);
  }

  lemma {:induction false} SomeLayerHas(layers: seq<Svc>, labels: bool, k: string)
    requires layers != [] && k in Settings(Layered(layers), labels)
    ensures exists s :: s in layers && k in Settings(s, labels)
  {
    var n := |layers| - 1;
    if n == 0 {
      assert layers[0] in layers;
    } else {
      LayerAdds(layers, labels);
      if k in Settings(layers[n], labels) {
        assert layers[n] in layers;
      } else {
        SomeLayerHas(layers[..n], labels, k);
        var s :| s in layers[..n] && k in Settings(s, labels);
        assert s in layers;
      }
    }
  }

  /** The ports of all layers are kept, and the Extends of the first. */
  lemma {:induction false} PortsAddUp(layers: seq<Svc>)
    requires layers != []
    ensures Layered(layers).ports == AllPorts(layers)
    ensures Layered(layers).extends_ == layers[0].extends_
  {
    var n := |layers| - 1;
    if n == 0 {
      assert AllPorts(layers[..0]) == [];
    } else {
      PortsAddUp(layers[..n]);
    }
  }

  // ----- whole files -----

  datatype IncludeEntry =
    | PathEntry(text: string)
    | MapEntry(path: Option<string>, envFile: Option<string>)
    | OtherEntry

  datatype Include = IncludeList(entries: seq<IncludeEntry>) | IncludeOne(text: string) | IncludeOther

  datatype File = File(
    services: map<string, Svc>, networks: map<string, Yaml>, volumes: map<string, Yaml>, include_: Option<Include>)

  function MergeServices(base: map<string, Svc>, over: map<string, Svc>): map<string, Svc> {
    map n | n in base.Keys + over.Keys ::
      if n in base && n in over then MergeService(base[n], over[n]) else if n in over then over[n] else base[n]
  }

  /** mergeInto */
  function MergeFiles(base: File, over: File): File {
    File(MergeServices(base.services, over.services), base.networks + over.networks,
         base.volumes + over.volumes, base.include_)
  }

  function At(services: map<string, Svc>, name: string): Option<Svc> {
    if name in services then Some(services[name]) else None
  }

  function NormalAt(services: map<string, Svc>, name: string): Option<Svc> {
    if name in services then Some(Normal(services[name])) else None
  }

  ghost predicate AlikeServices(a: map<string, Svc>, b: map<string, Svc>) {
    forall name: string :: NormalAt(a, name) == NormalAt(b, name)
  }

  /** Two files that are the same up to the form of environments and labels, and up to the
      include directive, which no merge looks at. */
  ghost predicate Alike(a: File, b: File) {
    AlikeServices(a.services, b.services) && a.networks == b.networks && a.volumes == b.volumes
  }

  lemma AssociativeAt(a: map<string, Svc>, b: map<string, Svc>, c: map<string, Svc>, n: string)
    ensures NormalAt(MergeServices(MergeServices(a, b), c), n) == NormalAt(MergeServices(a, MergeServices(b, c)), n)
  {
    if n in a && n in b && n in c {
      MergeServiceAssociative(a[n], b[n], c[n]);
    }
  }

  /** Merging files is associative. */
  lemma MergeFilesAssociative(a: File, b: File, c: File)
    ensures Alike(MergeFiles(MergeFiles(a, b), c), MergeFiles(a, MergeFiles(b, c)))
  {
    forall n: string {
      AssociativeAt(a.services, b.services, c.services, n);
    }
    UnionAssociative(a.networks, b.networks, c.networks);
    UnionAssociative(a.volumes, b.volumes, c.volumes);
  }

  lemma AlikeAt(a: map<string, Svc>, a': map<string, Svc>, b: map<string, Svc>, b': map<string, Svc>, n: string)
    requires NormalAt(a, n) == NormalAt(a', n) && NormalAt(b, n) == NormalAt(b', n)
    ensures NormalAt(MergeServices(a, b), n) == NormalAt(MergeServices(a', b'), n)
  {
    if n in a && n in b {
      MergeServiceNormal(a[n], b[n]);
      MergeServiceNormal(a'[n], b'[n]);
    }
  }

  /** Merging respects likeness on both sides. */
  lemma MergeFilesAlike(a: File, a': File, b: File, b': File)
    requires Alike(a, a') && Alike(b, b')
    ensures Alike(MergeFiles(a, b), MergeFiles(a', b'))
  {
    forall n: string {
      AlikeAt(a.services, a'.services, b.services, b'.services, n);
    }
  }

  // ----- the loops -----

  lemma EmptyList(e: Env)
    requires e.YamlList?
    ensures ListEnv(e.items) == map[] <==> e.items == []
  {
    if e.items != [] {
      assert CutAt(e.items[|e.items| - 1]).0 in ListEnv(e.items);
    }
  }

  lemma MergeEnvSets(base: Env, over: Env, k: string, v: string)
    ensures Sets(MergeEnv(base, over), k, v) <==> Sets(over, k, v) || (Sets(base, k, v) && !SetsName(over, k))
  {
    VarsIff(base, k, v);
    VarsIff(over, k, v);
    VarsAre(over, k);
  }

  /** Copying one map into another, key by key. */
  method Update<V>(base: map<string, V>, over: map<string, V>) returns (r: map<string, V>)
    ensures r == base + over
  {
    r := base;
    var rest := over.Keys;
    while rest != {}
      invariant rest <= over.Keys && r == base + (over - rest)
      decreases rest
    {
      var k :| k in rest;
      rest := rest - {k};
      r := r[k := over[k]];
    }
    assert over - {} == over;
  }

  /** The variables that the environment sets, and none if it cannot be read or has no entries, but
      for a map of strings, which is taken as it is. */
  method ParseEnvInterface(e: Env) returns (r: Option<map<string, string>>)
    ensures r == ParseEnv(e)
    ensures r.Some? ==> forall k, v :: (k in r.value && r.value[k] == v) <==> Sets(e, k, v)
    ensures r.None? <==> e.NoEnv? || e.OtherEnv? || (e.YamlMap? && e.values == map[]) || (e.YamlList? && e.items == [])
  {
    forall k, v ensures (k in Vars(e) && Vars(e)[k] == v) <==> Sets(e, k, v) {
      VarsIff(e, k, v);
    }
    if e.YamlList? {
      EmptyList(e);
    }
    var result: map<string, string> := map[];
    match e {
      case NoEnv => return None;
      case EnvMap(m) => return Some(m);
      case YamlMap(m) =>
        result := Update(result, m);
        assert result == m;
      case YamlList(items) =>
        for i := 0 to |items|
          invariant result == ListEnv(items[..i])
        {
          var (k, v) := CutAt(items[i]);
          assert items[..i + 1][..i] == items[..i];
          result := result[k := v];
        }
        assert items[..|items|] == items;
      case OtherEnv =>
    }
    r := if |result| == 0 then None else Some(result);
  }

  /** What the override sets counts, and for other names what the base sets. */
  method MergeEnvInterface(base: Env, over: Env) returns (r: Env)
    ensures r == MergeEnv(base, over)
    ensures forall k, v :: Sets(r, k, v) <==> Sets(over, k, v) || (Sets(base, k, v) && !SetsName(over, k))
  {
    forall k, v ensures Sets(MergeEnv(base, over), k, v)
                        <==> Sets(over, k, v) || (Sets(base, k, v) && !SetsName(over, k)) {
      MergeEnvSets(base, over, k, v);
    }
    var baseMap := ParseEnvInterface(base);
    var overMap := ParseEnvInterface(over);
    var vars := Update(if baseMap.Some? then baseMap.value else map[], if overMap.Some? then overMap.value else map[]);
    r := EnvMap(vars);
  }

  /** A parsed compose file, which mergeInto and resolveIncludes change in place. */
  class ComposeFile {
    var services: map<string, Svc>
    var networks: map<string, Yaml>
    var volumes: map<string, Yaml>
    var include_: Option<Include>

    function Contents(): File
      reads this
    {
      File(services, networks, volumes, include_)
    }

    constructor (f: File)
      ensures Contents() == f
    {
      services, networks, volumes, include_ := f.services, f.networks, f.volumes, f.include_;
    }

    method MergeServicesFrom(over: map<string, Svc>)
      modifies this`services
      ensures services == MergeServices(old(services), over)
    {
      var rest := over.Keys;
      assert over - over.Keys == map[];
      while rest != {}
        invariant rest <= over.Keys
        invariant services == MergeServices(old(services), over - rest)
        decreases rest
      {
        var name :| name in rest;
        rest := rest - {name};
        if name in services {
          services := services[name := MergeService(services[name], over[name])];
        } else {
          services := services[name := over[name]];
        }
      }
      assert over - {} == over;
    }

    /** mergeInto */
    method MergeInto(over: ComposeFile)
      requires over != this
      modifies this
      ensures Contents() == MergeFiles(old(Contents()), over.Contents())
    {
      MergeServicesFrom(over.services);
      networks := Update(networks, over.networks);
      volumes := Update(volumes, over.volumes);
    }
  }
}
