/** Collecting a file and everything it imports, dependencies first (internal/app/knitgateway/admin.go:200-211). */
module Dependencies {

  /** The imports of each file, by path. */
  type Graph = map<string, seq<string>>

  predicate Closed(g: Graph) { forall f, d :: f in g && d in g[f] ==> d in g }

  /** A way from file to file along imports. */
  predicate IsPath(g: Graph, path: seq<string>) {
    path != [] && forall i :: 0 <= i < |path| - 1 ==> path[i] in g && path[i + 1] in g[path[i]]
  }

  ghost predicate Reaches(g: Graph, a: string, b: string) {
    exists path :: IsPath(g, path) && path[0] == a && path[|path| - 1] == b
  }

  /** A file that imports its way back to itself. */
  ghost predicate OnCycle(g: Graph, f: string) { f in g && exists d :: d in g[f] && Reaches(g, d, f) }

  ghost predicate Acyclic(g: Graph, root: string) { forall f :: Reaches(g, root, f) ==> !OnCycle(g, f) }

  /** Every file comes after all its imports. */
  predicate DependenciesFirst(g: Graph, files: seq<string>) {
    forall i :: 0 <= i < |files| ==> files[i] in g && forall d :: d in g[files[i]] ==> d in files[..i]
  }

  predicate NoDuplicates(files: seq<string>) { forall i, j :: 0 <= i < j < |files| ==> files[i] != files[j] }

  // ----- paths

  lemma ReachesItself(g: Graph, f: string)
    ensures Reaches(g, f, f)
  {
    assert IsPath(g, [f]);
  }

  lemma ReachesImport(g: Graph, a: string, f: string, d: string)
    requires Reaches(g, a, f) && f in g && d in g[f]
    ensures Reaches(g, a, d)
  {
    var path :| IsPath(g, path) && path[0] == a && path[|path| - 1] == f;
    assert IsPath(g, path + [d]);
  }

  lemma ReachesThrough(g: Graph, a: string, b: string, c: string)
    requires Reaches(g, a, b) && Reaches(g, b, c)
    ensures Reaches(g, a, c)
  {
    var p :| IsPath(g, p) && p[0] == a && p[|p| - 1] == b;
    var q :| IsPath(g, q) && q[0] == b && q[|q| - 1] == c;
    var path := p + q[1..];
    forall i | 0 <= i < |path| - 1 ensures path[i] in g && path[i + 1] in g[path[i]] {
      if i >= |p| - 1 {
        assert path[i] == q[i - |p| + 1] && path[i + 1] == q[i - |p| + 2];
      }
    }
    assert IsPath(g, path) && path[|path| - 1] == c;
  }

  /** What is closed under imports contains everything its members reach. */
  lemma {:induction false} ClosedUnderPath(g: Graph, files: set<string>, path: seq<string>)
    requires forall f, d :: f in files && f in g && d in g[f] ==> d in files
    requires IsPath(g, path) && path[0] in files
    ensures path[|path| - 1] in files
  {
    if |path| > 1 {
      ClosedUnderPath(g, files, path[..|path| - 1]);
    }
  }

  function Elems(files: seq<string>): set<string> { set f | f in files }

  /** Seen files are those already output and those whose imports are being visited; each file output either came
      after all its imports or lies on a cycle. */
  ghost predicate Sound(g: Graph, seen: set<string>, target: seq<string>, stack: set<string>) {
    && seen == Elems(target) + stack && Elems(target) !! stack && NoDuplicates(target) && seen <= g.Keys
    && forall i :: 0 <= i < |target| ==>
         forall d :: d in g[target[i]] ==> d in seen && (d in target[..i] || OnCycle(g, target[i]))
  }

  class Accumulator {
    const graph: Graph
    var seen: set<string>
    var target: seq<string>

    constructor (graph: Graph)
      ensures this.graph == graph && seen == {} && target == []
    {
      this.graph, seen, target := graph, {}, [];
    }

    /** stack holds the files whose imports are being visited; each of them reaches this one. */
    method AccumulateFiles(file: string, ghost stack: set<string>)
      requires Closed(graph) && file in graph && Sound(graph, seen, target, stack)
      requires forall s :: s in stack ==> Reaches(graph, s, file)
      modifies this
      ensures Sound(graph, seen, target, stack) && old(seen) <= seen && file in seen
      ensures old(target) <= target && forall f :: f in target[|old(target)|..] ==> Reaches(graph, file, f)
      ensures file !in old(seen) ==> |target| > |old(target)| && target[|target| - 1] == file
      decreases graph.Keys - seen
    {
      hide Reaches, OnCycle;
      if file in seen {
        return;
      }
      ghost var inner := stack + {file};
      Entered(file, stack);
      seen := seen + {file};
      var imps := graph[file];
      for i := 0 to |imps|
        invariant Sound(graph, seen, target, inner) && old(seen) + {file} <= seen
        invariant forall k :: 0 <= k < i ==> imps[k] in seen
        invariant old(target) <= target && forall f :: f in target[|old(target)|..] ==> Reaches(graph, file, f)
      {
        ghost var before := target;
        forall s | s in inner ensures Reaches(graph, s, imps[i]) {
          ReachesImport(graph, s, file, imps[i]);
        }
        AccumulateFiles(imps[i], inner);
        ReachedThroughImport(file, imps[i], old(target), before);
      }
      ReachesItself(graph, file);
      Left(file, stack);
      target := target + [file];
    }

    lemma Entered(file: string, stack: set<string>)
      requires file in graph && Sound(graph, seen, target, stack) && file !in seen
      requires forall s :: s in stack ==> Reaches(graph, s, file)
      ensures Sound(graph, seen + {file}, target, stack + {file})
      ensures forall s :: s in stack + {file} ==> Reaches(graph, s, file)
    {
      hide Reaches, OnCycle;
      ReachesItself(graph, file);
    }

    lemma ReachedThroughImport(file: string, imp: string, start: seq<string>, before: seq<string>)
      requires file in graph && imp in graph[file] && start <= before <= target
      requires forall f :: f in before[|start|..] ==> Reaches(graph, file, f)
      requires forall f :: f in target[|before|..] ==> Reaches(graph, imp, f)
      ensures forall f :: f in target[|start|..] ==> Reaches(graph, file, f)
    {
      hide Reaches;
      ReachesItself(graph, file);
      ReachesImport(graph, file, file, imp);
      forall f | f in target[|start|..] ensures Reaches(graph, file, f) {
        if f in target[|before|..] {
          ReachesThrough(graph, file, imp, f);
        } else {
          assert target[|start|..] == before[|start|..] + target[|before|..];
        }
      }
    }

    lemma Left(file: string, stack: set<string>)
      requires file in graph && file !in stack && Sound(graph, seen, target, stack + {file})
      requires forall s :: s in stack + {file} ==> Reaches(graph, s, file)
      requires forall d :: d in graph[file] ==> d in seen
      ensures Sound(graph, seen, target + [file], stack)
    {
      hide Reaches;
      var files := target + [file];
      assert Elems(files) == Elems(target) + {file};
      forall i | 0 <= i < |files|
        ensures forall d :: d in graph[files[i]] ==> d in seen && (d in files[..i] || OnCycle(graph, files[i]))
      {
        if i < |target| {
          assert files[..i] == target[..i];
        } else {
          assert files[..i] == target;
        }
      }
    }
  }

  // ----- what the whole call outputs

  /** The file set offered for download (internal/app/knitgateway/admin.go:177-178). */
  method Accumulate(g: Graph, root: string) returns (files: seq<string>)
    requires Closed(g) && root in g
    ensures NoDuplicates(files) && (forall f :: f in files <==> Reaches(g, root, f))
    ensures files != [] && files[|files| - 1] == root
    ensures DependenciesFirst(g, files) <==> Acyclic(g, root)
  {
    hide Reaches, Acyclic, DependenciesFirst, OnCycle;
    var a := new Accumulator(g);
    assert Sound(g, {}, [], {});
    a.AccumulateFiles(root, {});
    files := a.target;
    assert a.target[0..] == files;
    Outputs(g, root, a.seen, files);
  }

  lemma Outputs(g: Graph, root: string, seen: set<string>, files: seq<string>)
    requires Sound(g, seen, files, {}) && root in seen && forall f :: f in files ==> Reaches(g, root, f)
    ensures forall f :: f in files <==> Reaches(g, root, f)
    ensures DependenciesFirst(g, files) <==> Acyclic(g, root)
  {
    hide OnCycle;
    forall f | Reaches(g, root, f) ensures f in files {
      var path :| IsPath(g, path) && path[0] == root && path[|path| - 1] == f;
      ClosedUnderPath(g, seen, path);
    }
    hide Reaches;
    if DependenciesFirst(g, files) {
      forall f | Reaches(g, root, f) ensures !OnCycle(g, f) {
        OrderedNoCycle(g, files, f);
      }
    } else {
      var i :| 0 <= i < |files| && !(files[i] in g && forall d :: d in g[files[i]] ==> d in files[..i]);
      assert files[i] in files;
      assert OnCycle(g, files[i]);
    }
  }

  /** In an order with dependencies first, imports only lead to earlier files. */
  lemma {:induction false} PathGoesBack(g: Graph, files: seq<string>, path: seq<string>, i: nat)
    requires DependenciesFirst(g, files) && IsPath(g, path) && i < |files| && path[0] == files[i]
    ensures path[|path| - 1] in files[..i + 1]
    decreases |path|
  {
    if |path| > 1 {
      assert path[1] in files[..i];
      var j :| 0 <= j < i && files[j] == path[1];
      assert IsPath(g, path[1..]);
      PathGoesBack(g, files, path[1..], j);
    }
  }

  lemma OrderedNoCycle(g: Graph, files: seq<string>, f: string)
    requires DependenciesFirst(g, files) && NoDuplicates(files) && f in files
    ensures !OnCycle(g, f)
  {
    var i :| 0 <= i < |files| && files[i] == f;
    if OnCycle(g, f) {
      var d :| d in g[f] && Reaches(g, d, f);
      var path :| IsPath(g, path) && path[0] == d && path[|path| - 1] == f;
      assert d in files[..i];
      var j :| 0 <= j < i && files[j] == d;
      PathGoesBack(g, files, path, j);
    }
  }
}
