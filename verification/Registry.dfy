// Dependency resolution of src/registry.rs: a worklist over a graph that may have cycles.
module Registry {
  import opened Wrappers

  datatype Dependency = Dependency(name: string, constraint: string)

  datatype Package = Package(version: string, dependencies: seq<Dependency>)

  type Packages = map<string, Package>

  datatype Conflict = Conflict(package: string, dependency: Dependency)

  // Whether a version that parses is definitely outside a constraint.
  type Rejects = (string, string) -> bool

  // A constraint is checked only if it is neither empty nor "*" and names a registered package.
  predicate Conflicts(ps: Packages, rejects: Rejects, d: Dependency) {
    && d.name in ps
    && d.constraint != "" && d.constraint != "*"
    && rejects(ps[d.name].version, d.constraint)
  }

  ghost predicate Edge(ps: Packages, a: string, b: string) {
    a in ps && exists i :: 0 <= i < |ps[a].dependencies| && ps[a].dependencies[i].name == b
  }

  ghost predicate Path(ps: Packages, path: seq<string>) {
    path != [] && forall i :: 0 < i < |path| ==> Edge(ps, path[i - 1], path[i])
  }

  ghost predicate Reachable(ps: Packages, root: string, n: string) {
    exists path :: Path(ps, path) && path[0] == root && path[|path| - 1] == n
  }

  // A reachable registered package asks for something that is not installed.
  ghost predicate Conflicting(ps: Packages, rejects: Rejects, root: string, c: Conflict) {
    && Reachable(ps, root, c.package) && c.package in ps
    && c.dependency in ps[c.package].dependencies
    && Conflicts(ps, rejects, c.dependency)
  }

  // Every name that the search can meet.
  ghost function Names(ps: Packages, root: string): set<string> {
    {root} + (set a, i | a in ps && 0 <= i < |ps[a].dependencies| :: ps[a].dependencies[i].name)
  }

  lemma RootReachable(ps: Packages, root: string)
    ensures Reachable(ps, root, root)
  {
    assert Path(ps, [root]);
  }

  lemma StepReachable(ps: Packages, root: string, a: string, b: string)
    requires Reachable(ps, root, a) && Edge(ps, a, b)
    ensures Reachable(ps, root, b) && b in Names(ps, root)
  {
    var path :| Path(ps, path) && path[0] == root && path[|path| - 1] == a;
    assert Path(ps, path + [b]);
  }

  // What the worklist keeps: everything found is reachable, and what a visited package
  // needs has been visited or waits on the stack.
  ghost predicate Searching(ps: Packages, root: string, stack: seq<string>, visited: set<string>) {
    && (root in visited || root in stack)
    && (forall n :: n in stack || n in visited ==> Reachable(ps, root, n) && n in Names(ps, root))
    && (forall a, b :: a in visited && Edge(ps, a, b) ==> b in visited || b in stack)
  }

  // With nothing left on the stack, everything reachable has been visited.
  lemma {:induction false} AllVisited(ps: Packages, root: string, visited: set<string>, path: seq<string>)
    requires Searching(ps, root, [], visited)
    requires Path(ps, path) && path[0] == root
    ensures path[|path| - 1] in visited
    decreases |path|
  {
    if |path| > 1 {
      AllVisited(ps, root, visited, path[..|path| - 1]);
      assert Edge(ps, path[|path| - 2], path[|path| - 1]);
    }
  }

  // The names resolved so far are the registered ones among the visited, once each.
  ghost predicate Listed(ps: Packages, resolved: seq<string>, visited: set<string>) {
    && (forall n :: n in resolved <==> n in visited && n in ps)
    && (forall i, j :: 0 <= i < j < |resolved| ==> resolved[i] != resolved[j])
  }

  ghost predicate Accepted(ps: Packages, rejects: Rejects, visited: set<string>) {
    forall a, d :: a in visited && a in ps && d in ps[a].dependencies ==> !Conflicts(ps, rejects, d)
  }

  lemma Begin(ps: Packages, rejects: Rejects, root: string)
    ensures Searching(ps, root, [root], {}) && Listed(ps, [], {}) && Accepted(ps, rejects, {})
  {
    RootReachable(ps, root);
  }

  lemma NoEdges(ps: Packages, a: string)
    requires a !in ps
    ensures forall n :: !Edge(ps, a, n)
  {
  }

  lemma Accept(ps: Packages, rejects: Rejects, visited: set<string>, current: string)
    requires Accepted(ps, rejects, visited)
    requires current in ps ==> forall d :: d in ps[current].dependencies ==> !Conflicts(ps, rejects, d)
    ensures Accepted(ps, rejects, visited + {current})
  {
  }

  lemma ListedMeans(ps: Packages, resolved: seq<string>, visited: set<string>)
    requires Listed(ps, resolved, visited)
    ensures forall n :: n in resolved <==> n in visited && n in ps
    ensures forall i, j :: 0 <= i < j < |resolved| ==> resolved[i] != resolved[j]
  {
  }

  // Popping a name that was visited before.
  lemma Skip(ps: Packages, root: string, stack: seq<string>, current: string, visited: set<string>)
    requires Searching(ps, root, stack + [current], visited) && current in visited
    ensures Searching(ps, root, stack, visited)
  {
    hide Edge, Reachable, Names;
    forall n | n in stack ensures n in stack + [current] { }
    forall n | n in stack + [current] && n != current ensures n in stack { }
  }

  lemma Found(ps: Packages, root: string, stack: seq<string>, current: string, visited: set<string>)
    requires Searching(ps, root, stack + [current], visited)
    ensures current in Names(ps, root) && Reachable(ps, root, current)
  {
    assert current in stack + [current];
  }

  // Visiting a name and pushing what it needs.
  lemma Visit(ps: Packages, root: string, stack: seq<string>, current: string, visited: set<string>, pushed: seq<string>)
    requires Searching(ps, root, stack + [current], visited)
    requires forall n :: n in pushed <==> n in stack || Edge(ps, current, n)
    ensures Searching(ps, root, pushed, visited + {current})
    ensures current in Names(ps, root) && Reachable(ps, root, current)
  {
    hide Edge, Reachable, Names;
    assert current in stack + [current];
    forall n | n in pushed
      ensures Reachable(ps, root, n) && n in Names(ps, root)
    {
      if Edge(ps, current, n) {
        StepReachable(ps, root, current, n);
      } else {
        assert n in stack + [current];
      }
    }
    forall a, b | a in visited + {current} && Edge(ps, a, b)
      ensures b in visited + {current} || b in pushed
    {
      if a in visited {
        assert b in visited || b in stack + [current];
      }
    }
  }

  lemma Resolve(ps: Packages, resolved: seq<string>, visited: set<string>, current: string)
    requires Listed(ps, resolved, visited) && current !in visited
    ensures current in ps ==> Listed(ps, resolved + [current], visited + {current})
    ensures current !in ps ==> Listed(ps, resolved, visited + {current})
  {
  }

  // The search is over when the stack is empty.
  lemma Complete(ps: Packages, rejects: Rejects, root: string, visited: set<string>)
    requires Searching(ps, root, [], visited) && Accepted(ps, rejects, visited)
    ensures forall n :: Reachable(ps, root, n) <==> n in visited
    ensures forall c :: !Conflicting(ps, rejects, root, c)
  {
    forall n | Reachable(ps, root, n)
      ensures n in visited
    {
      var path :| Path(ps, path) && path[0] == root && path[|path| - 1] == n;
      AllVisited(ps, root, visited, path);
    }
  }

  class Registry {
    var packages: Packages

    constructor (ps: Packages)
      ensures packages == ps
    {
      packages := ps;
    }

    // Checks and pushes the dependencies of one package.
    method PushDependencies(rejects: Rejects, current: string, stack: seq<string>) returns (r: Result<seq<string>, Conflict>)
      requires current in packages
      ensures r.Ok? ==>
        && (forall d :: d in packages[current].dependencies ==> !Conflicts(packages, rejects, d))
        && stack <= r.value
        && (forall n :: n in r.value <==> n in stack || Edge(packages, current, n))
      ensures r.Err? ==>
        && r.error.package == current && r.error.dependency in packages[current].dependencies
        && Conflicts(packages, rejects, r.error.dependency)
    {
      var deps := packages[current].dependencies;
      var pushed := stack;
      for i := 0 to |deps|
        invariant stack <= pushed
        invariant forall k :: 0 <= k < i ==> !Conflicts(packages, rejects, deps[k])
        invariant forall n :: n in pushed <==> n in stack || exists k :: 0 <= k < i && deps[k].name == n
      {
        if Conflicts(packages, rejects, deps[i]) {
          return Err(Conflict(current, deps[i]));
        }
        pushed := pushed + [deps[i].name];
      }
      return Ok(pushed);
    }

    // Terminates on every graph, cyclic or not.
    method ResolveDependencies(rejects: Rejects, name: string) returns (r: Result<seq<string>, Conflict>)
      ensures r.Ok? ==>
        && (forall n :: n in r.value <==> n in packages && Reachable(packages, name, n))
        && (forall i, j :: 0 <= i < j < |r.value| ==> r.value[i] != r.value[j])
        && (forall c :: !Conflicting(packages, rejects, name, c))
      ensures r.Err? ==> Conflicting(packages, rejects, name, r.error)
    {
      hide Searching, Listed, Accepted, Names, Edge, Reachable;
      var resolved: seq<string> := [];
      var stack := [name];
      var visited: set<string> := {};
      Begin(packages, rejects, name);
      while stack != []
        invariant Searching(packages, name, stack, visited)
        invariant Listed(packages, resolved, visited)
        invariant Accepted(packages, rejects, visited)
        decreases Names(packages, name) - visited, |stack|
      {
        var current := stack[|stack| - 1];
        assert stack == stack[..|stack| - 1] + [current];
        stack := stack[..|stack| - 1];
        if current in visited {
          Skip(packages, name, stack, current, visited);
          continue;
        }
        var pushed := stack;
        if current in packages {
          var found := PushDependencies(rejects, current, stack);
          if found.Err? {
            Found(packages, name, stack, current, visited);
            return Err(found.error);
          }
          pushed := found.value;
        } else {
          NoEdges(packages, current);
        }
        Visit(packages, name, stack, current, visited, pushed);
        Resolve(packages, resolved, visited, current);
        Accept(packages, rejects, visited, current);
        stack := pushed;
        visited := visited + {current};
        if current in packages {
          resolved := resolved + [current];
        }
      }
      Complete(packages, rejects, name, visited);
      ListedMeans(packages, resolved, visited);
      return Ok(resolved);
    }
  }
}
