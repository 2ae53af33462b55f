/** The services of a project, as far as internal/docker/operations.go looks at them. */
module Services {
  datatype Mount = Mount(kind: string, source: string)

  datatype Service = Service(
    name: string, image: string, build: bool,
    labels: map<string, string>, dependsOn: set<string>,
    mounts: seq<Mount>, networks: seq<string>)

  function Names(services: seq<Service>): set<string> {
    set i | 0 <= i < |services| :: services[i].name
  }

  ghost predicate DistinctNames(services: seq<Service>) {
    forall i, j | 0 <= i < j < |services| :: services[i].name != services[j].name
  }

  /** svcMap of topologicalSort: of services with one name the last one counts. */
  function ByName(services: seq<Service>): (m: map<string, Service>)
    ensures m.Keys == Names(services)
    ensures forall n | n in m :: m[n].name == n && m[n] in services
  {
    if services == [] then map[]
    else
      var last := services[|services| - 1];
      var rest := services[..|services| - 1];
      assert services == rest + [last];
      ByName(rest)[last.name := last]
  }
}

/** topologicalSort of internal/docker/operations.go */
module TopoSort {
  import opened Services

  /** A node is mapped to its dependencies, in the order in which the map yields them. */
  type Graph = map<string, seq<string>>

  function Deps(g: Graph, n: string): seq<string> {
    if n in g then g[n] else []
  }

  ghost predicate IsPath(g: Graph, path: seq<string>) {
    path != [] && forall i | 0 <= i < |path| - 1 :: path[i + 1] in Deps(g, path[i])
  }

  /** `a` depends on `b`, directly or not, or is `b`. */
  ghost predicate Reaches(g: Graph, a: string, b: string) {
    exists path :: IsPath(g, path) && path[0] == a && path[|path| - 1] == b
  }

  lemma ReachesItself(g: Graph, a: string)
    ensures Reaches(g, a, a)
  {
    assert IsPath(g, [a]);
  }

  lemma ReachesFurther(g: Graph, a: string, b: string, c: string)
    requires Reaches(g, a, b) && c in Deps(g, b)
    ensures Reaches(g, a, c)
  {
    var path :| IsPath(g, path) && path[0] == a && path[|path| - 1] == b;
    var longer := path + [c];
    forall i | 0 <= i < |longer| - 1 ensures longer[i + 1] in Deps(g, longer[i]) {
      if i < |path| - 1 {
        assert path[i + 1] in Deps(g, path[i]);
      }
    }
    assert IsPath(g, longer);
  }

  /** The graph of the services: each name with its dependencies in some order. */
  ghost predicate GraphOf(g: Graph, services: seq<Service>) {
    var m := ByName(services);
    && g.Keys == m.Keys
    && forall n | n in g :: forall d :: d in g[n] <==> d in m[n].dependsOn
  }

  /** A dependency that is in the list and cannot itself reach the service comes before it. */
  ghost predicate DepsFirst(g: Graph, order: seq<Service>) {
    forall i, d | 0 <= i < |order| && d in Deps(g, order[i].name) && d in g ::
      Reaches(g, d, order[i].name) || exists j :: 0 <= j < i && order[j].name == d
  }

  lemma AppendKeepsDepsFirst(g: Graph, order: seq<Service>, s: Service)
    requires DepsFirst(g, order)
    requires forall d | d in Deps(g, s.name) && d in g :: Reaches(g, d, s.name) || d in Names(order)
    ensures DepsFirst(g, order + [s])
  {
    var longer := order + [s];
    forall i, d | 0 <= i < |longer| && d in Deps(g, longer[i].name) && d in g
      ensures Reaches(g, d, longer[i].name) || exists j :: 0 <= j < i && longer[j].name == d
    {
      if i < |order| {
        assert longer[i] == order[i];
        if !Reaches(g, d, order[i].name) {
          var j :| 0 <= j < i && order[j].name == d;
          assert longer[j] == order[j];
        }
      } else if !Reaches(g, d, s.name) {
        assert d in Names(order);
        var j :| 0 <= j < |order| && order[j].name == d;
        assert longer[j] == order[j];
      }
    }
  }

  lemma NamesAppend(order: seq<Service>, s: Service)
    ensures Names(order + [s]) == Names(order) + {s.name}
    ensures DistinctNames(order) && s.name !in Names(order) ==> DistinctNames(order + [s])
  {
    var longer := order + [s];
    forall n | n in Names(order) ensures n in Names(longer) {
      var i :| 0 <= i < |order| && order[i].name == n;
      assert longer[i].name == n;
    }
    assert longer[|order|] == s;
  }

  ghost function Universe(g: Graph): set<string> {
    g.Keys + set n, d | n in g && d in g[n] :: d
  }

  ghost predicate Selected(svcMap: map<string, Service>, order: seq<Service>) {
    forall s | s in order :: s.name in svcMap && svcMap[s.name] == s
  }

  /** What holds while the names in `stack` are being visited: the services of the other
      visited names are in the list, once, dependencies first. */
  ghost predicate Progress(g: Graph, svcMap: map<string, Service>, visited: set<string>, order: seq<Service>,
                           stack: set<string>) {
    && g.Keys == svcMap.Keys && (forall n | n in svcMap :: svcMap[n].name == n)
    && stack <= visited <= Universe(g)
    && DistinctNames(order) && DepsFirst(g, order) && Selected(svcMap, order)
    && Names(order) == (visited - stack) * g.Keys
  }

  lemma DepInUniverse(g: Graph, n: string, d: string)
    requires d in Deps(g, n)
    ensures d in Universe(g)
  {
  }

  lemma EnterKeepsProgress(g: Graph, svcMap: map<string, Service>, visited: set<string>, order: seq<Service>,
                           stack: set<string>, name: string)
    requires Progress(g, svcMap, visited, order, stack) && name in Universe(g) && name !in visited
    ensures Progress(g, svcMap, visited + {name}, order, stack + {name})
  {
  }

  /** The visit of `name` ends: its dependencies were all visited, so each is in the list
      already or still being visited, and then it reaches `name`. */
  lemma LeaveKeepsProgress(g: Graph, svcMap: map<string, Service>, visited: set<string>, order: seq<Service>,
                           stack: set<string>, name: string)
    requires Progress(g, svcMap, visited, order, stack + {name}) && name !in stack
    requires forall x | x in stack + {name} :: Reaches(g, x, name)
    requires forall d | d in Deps(g, name) :: d in visited
    ensures Progress(g, svcMap, visited, if name in svcMap then order + [svcMap[name]] else order, stack)
  {
    if name in svcMap {
      forall d | d in Deps(g, name) && d in g ensures Reaches(g, d, name) || d in Names(order) {
      }
      AppendKeepsDepsFirst(g, order, svcMap[name]);
      NamesAppend(order, svcMap[name]);
    }
  }

  lemma StartsInProgress(g: Graph, svcMap: map<string, Service>)
    requires g.Keys == svcMap.Keys && forall n | n in svcMap :: svcMap[n].name == n
    ensures Progress(g, svcMap, {}, [], {})
  {
  }

  lemma EndsComplete(g: Graph, svcMap: map<string, Service>, visited: set<string>, order: seq<Service>)
    requires Progress(g, svcMap, visited, order, {}) && forall n | n in g :: n in visited
    ensures Names(order) == g.Keys
  {
  }

  class Sorter {
    const g: Graph
    const svcMap: map<string, Service>
    var visited: set<string>
    var order: seq<Service>

    constructor (g: Graph, svcMap: map<string, Service>)
      ensures this.g == g && this.svcMap == svcMap && visited == {} && order == []
    {
      this.g := g;
      this.svcMap := svcMap;
      visited := {};
      order := [];
    }

    ghost predicate Valid(stack: set<string>)
      reads this
    {
      Progress(g, svcMap, visited, order, stack)
    }

    method Visit(name: string, ghost stack: set<string>)
      requires Valid(stack) && name in Universe(g)
      requires forall x | x in stack :: Reaches(g, x, name)
      modifies this
      ensures Valid(stack) && name in visited && old(visited) <= visited
      decreases Universe(g) - visited, 0
    {
      if name in visited {
        return;
      }
      EnterKeepsProgress(g, svcMap, visited, order, stack, name);
      visited := visited + {name};
      ReachesItself(g, name);
      VisitDeps(name, stack + {name});
      LeaveKeepsProgress(g, svcMap, visited, order, stack, name);
      if name in svcMap {
        order := order + [svcMap[name]];
      }
    }

    /** The loop of visit over the dependencies of `name`. */
    method VisitDeps(name: string, ghost stack: set<string>)
      requires Valid(stack) && forall x | x in stack :: Reaches(g, x, name)
      modifies this
      ensures Valid(stack) && old(visited) <= visited
      ensures forall d | d in Deps(g, name) :: d in visited
      decreases Universe(g) - visited, 1
    {
      var deps := Deps(g, name);
      for i := 0 to |deps|
        invariant Valid(stack) && old(visited) <= visited
        invariant forall k | 0 <= k < i :: deps[k] in visited
      {
        forall x | x in stack ensures Reaches(g, x, deps[i]) {
          ReachesFurther(g, x, name, deps[i]);
        }
        DepInUniverse(g, name, deps[i]);
        Visit(deps[i], stack);
      }
    }

    method VisitAll(names: seq<string>)
      requires Valid({}) && forall n | n in names :: n in g
      modifies this
      ensures Valid({}) && forall n | n in names :: n in visited
    {
      for i := 0 to |names|
        invariant Valid({}) && forall k | 0 <= k < i :: names[k] in visited
      {
        Visit(names[i], {});
      }
    }
  }

  /** A map's keys in one of the orders in which Go may range over it. */
  method AnyOrder(names: set<string>) returns (order: seq<string>)
    ensures forall n :: n in order <==> n in names
    ensures |order| == |names|
  {
    order := [];
    var rest := names;
    while rest != {}
      invariant rest <= names && |order| + |rest| == |names|
      invariant forall n :: n in order <==> n in names && n !in rest
      decreases rest
    {
      var n :| n in rest;
      order := order + [n];
      rest := rest - {n};
    }
  }

  lemma GraphExtends(g: Graph, services: seq<Service>, i: nat, deps: seq<string>)
    requires i < |services| && GraphOf(g, services[..i])
    requires forall d :: d in deps <==> d in services[i].dependsOn
    ensures ByName(services[..i + 1]) == ByName(services[..i])[services[i].name := services[i]]
    ensures GraphOf(g[services[i].name := deps], services[..i + 1])
  {
    assert services[..i + 1][..i] == services[..i];
  }

  method BuildGraph(services: seq<Service>) returns (graph: Graph, svcMap: map<string, Service>)
    ensures GraphOf(graph, services) && svcMap == ByName(services)
  {
    graph, svcMap := map[], map[];
    for i := 0 to |services|
      invariant svcMap == ByName(services[..i]) && GraphOf(graph, services[..i])
    {
      var svc := services[i];
      var deps := AnyOrder(svc.dependsOn);
      GraphExtends(graph, services, i, deps);
      svcMap := svcMap[svc.name := svc];
      graph := graph[svc.name := deps];
    }
    assert services[..|services|] == services;
  }

  /** Whatever the graph, cyclic or with missing dependencies, every service name comes out
      exactly once and dependencies come first; `g` is the graph with the iteration order
      that the maps happened to have. */
  method Sort(services: seq<Service>) returns (order: seq<Service>, ghost g: Graph)
    ensures GraphOf(g, services) && DepsFirst(g, order)
    ensures DistinctNames(order) && Names(order) == Names(services)
    ensures Selected(ByName(services), order)
  {
    var graph, svcMap := BuildGraph(services);
    g := graph;
    var sorter := new Sorter(graph, svcMap);
    var names := AnyOrder(graph.Keys);
    StartsInProgress(graph, svcMap);
    sorter.VisitAll(names);
    order := sorter.order;
    EndsComplete(graph, svcMap, sorter.visited, order);
  }
}
