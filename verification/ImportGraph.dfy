/** The import graph: what an entry reaches, and the layering gate. */
module ImportGraph {
  import opened Values

  type Path = string

  /** The existing files and what each imports, in order. */
  datatype Graph = Graph(files: set<Path>, imports: map<Path, seq<Path>>)

  function ImportsOf(g: Graph, p: Path): seq<Path> {
    if p in g.imports then g.imports[p] else []
  }

  /** A chain of imports through existing files. */
  predicate IsChain(g: Graph, chain: seq<Path>) {
    && (forall i | 0 <= i < |chain| :: chain[i] in g.files)
    && (forall i | 0 <= i < |chain| - 1 :: chain[i + 1] in ImportsOf(g, chain[i]))
  }

  ghost predicate Reaches(g: Graph, entries: seq<Path>, p: Path) {
    exists chain :: IsChain(g, chain) && chain != [] && chain[0] in entries && chain[|chain| - 1] == p
  }

  /** The work under way: what was found is reached, and what is reached next is pending. */
  ghost predicate UnderWay(g: Graph, entries: seq<Path>, reachable: set<Path>, pending: seq<Path>) {
    && reachable <= g.files
    && (forall p | p in reachable :: Reaches(g, entries, p))
    && (forall p | p in pending && p in g.files :: Reaches(g, entries, p))
    && (forall p | p in entries && p in g.files :: p in reachable || p in pending)
    && (forall p, q | p in reachable && q in ImportsOf(g, p) && q in g.files :: q in reachable || q in pending)
  }

  /** `reachableFrom`: exactly the existing files reached from the entries through
      existing files, whatever cycles and repetitions there are. */
  method ReachableFrom(g: Graph, entries: seq<Path>) returns (reachable: set<Path>)
    ensures forall p :: p in reachable <==> Reaches(g, entries, p)
  {
    hide Reaches, UnderWay;
    reachable := {};
    var pending := entries;
    Started(g, entries);
    while pending != []
      invariant UnderWay(g, entries, reachable, pending)
      decreases |g.files - reachable|, |pending|
    {
      var path := pending[|pending| - 1];
      ghost var before := pending;
      pending := pending[..|pending| - 1];
      assert before == pending + [path];
      if path in reachable || path !in g.files {
        Dropped(g, entries, reachable, pending, path);
        continue;
      }
      Smaller(g.files, reachable, path);
      Found(g, entries, reachable, pending, path);
      reachable := reachable + {path};
      pending := pending + ImportsOf(g, path);
    }
    Finished(g, entries, reachable);
  }

  lemma Started(g: Graph, entries: seq<Path>)
    ensures UnderWay(g, entries, {}, entries)
  {
    forall p | p in entries && p in g.files
      ensures Reaches(g, entries, p)
    {
      EntryReaches(g, entries, p);
    }
  }

  lemma Dropped(g: Graph, entries: seq<Path>, reachable: set<Path>, pending: seq<Path>, path: Path)
    requires UnderWay(g, entries, reachable, pending + [path]) && (path in reachable || path !in g.files)
    ensures UnderWay(g, entries, reachable, pending)
  {
    hide Reaches;
    var all := pending + [path];
    assert forall p | p in pending :: p in all;
    assert forall p | p in all :: p in pending || p == path;
  }

  lemma Found(g: Graph, entries: seq<Path>, reachable: set<Path>, pending: seq<Path>, path: Path)
    requires UnderWay(g, entries, reachable, pending + [path]) && path in g.files
    ensures UnderWay(g, entries, reachable + {path}, pending + ImportsOf(g, path))
  {
    hide Reaches;
    var all := pending + [path];
    assert path in all && forall p | p in pending :: p in all;
    assert forall p | p in all :: p in pending || p == path;
    forall q | q in ImportsOf(g, path) && q in g.files
      ensures Reaches(g, entries, q)
    {
      OneFurther(g, entries, path, q);
    }
  }

  lemma Finished(g: Graph, entries: seq<Path>, reachable: set<Path>)
    requires UnderWay(g, entries, reachable, [])
    ensures forall p :: p in reachable <==> Reaches(g, entries, p)
  {
    hide Reaches;
    forall p | Reaches(g, entries, p)
      ensures p in reachable
    {
      StaysInside(g, entries, p, reachable);
    }
  }

  lemma EntryReaches(g: Graph, entries: seq<Path>, p: Path)
    requires p in entries && p in g.files
    ensures Reaches(g, entries, p)
  {
    assert IsChain(g, [p]) && [p][0] == p;
  }

  lemma StaysInside(g: Graph, entries: seq<Path>, p: Path, closed: set<Path>)
    requires Reaches(g, entries, p)
    requires forall e | e in entries && e in g.files :: e in closed
    requires forall p, q | p in closed && q in ImportsOf(g, p) && q in g.files :: q in closed
    ensures p in closed
  {
    var chain :| IsChain(g, chain) && chain != [] && chain[0] in entries && chain[|chain| - 1] == p;
    Followed(g, chain, closed);
  }

  lemma Smaller(all: set<Path>, some: set<Path>, p: Path)
    requires p in all && p !in some
    ensures |all - (some + {p})| < |all - some|
  {
    assert all - some == (all - (some + {p})) + {p};
  }

  lemma OneFurther(g: Graph, entries: seq<Path>, p: Path, q: Path)
    requires Reaches(g, entries, p) && q in ImportsOf(g, p) && q in g.files
    ensures Reaches(g, entries, q)
  {
    var chain :| IsChain(g, chain) && chain != [] && chain[0] in entries && chain[|chain| - 1] == p;
    var longer := chain + [q];
    assert IsChain(g, longer) && longer[0] == chain[0] && longer[|longer| - 1] == q;
  }

  /** A set closed under imports contains a chain that starts in it. */
  lemma {:induction false} Followed(g: Graph, chain: seq<Path>, closed: set<Path>)
    requires IsChain(g, chain) && chain != [] && chain[0] in closed
    requires forall p, q | p in closed && q in ImportsOf(g, p) && q in g.files :: q in closed
    ensures chain[|chain| - 1] in closed
    decreases |chain|
  {
    if |chain| > 1 {
      var tail := chain[1..];
      assert chain[1] in ImportsOf(g, chain[0]);
      assert forall i | 0 <= i < |tail| - 1 :: tail[i + 1] in ImportsOf(g, tail[i]) by {
        forall i | 0 <= i < |tail| - 1
          ensures tail[i + 1] in ImportsOf(g, tail[i])
        {
          assert chain[(i + 1) + 1] in ImportsOf(g, chain[i + 1]);
        }
      }
      Followed(g, tail, closed);
    }
  }

  // ----- The layering gate -----

  datatype Rule<Name> = Rule(name: Name, may: set<Name>)

  /** How paths are classified, and the edges excepted by name. */
  datatype Layering<!Name> = Layering(ruleOf: Path -> Option<Rule<Name>>, excepted: (Path, Path) -> bool)

  datatype Violation = Unclassified(path: Path) | UnclassifiedTarget(path: Path, target: Path) | Forbidden(path: Path, target: Path)

  predicate Allowed<Name(==)>(l: Layering<Name>, path: Path, target: Path) {
    && l.ruleOf(path).Some? && l.ruleOf(target).Some?
    && (l.ruleOf(target).value.name in l.ruleOf(path).value.may || l.excepted(path, target))
  }

  /** Every module is classified, and so is all it imports, as its layer may. */
  predicate Layered<Name(==)>(l: Layering<Name>, g: Graph, modules: seq<Path>) {
    forall p | p in modules :: l.ruleOf(p).Some? && forall t | t in ImportsOf(g, p) :: Allowed(l, p, t)
  }

  /** The gate over the modules under `src`. */
  method CheckLayers<Name(==)>(l: Layering<Name>, g: Graph, modules: seq<Path>) returns (violations: seq<Violation>)
    ensures violations == [] <==> Layered(l, g, modules)
    ensures forall p, t :: Forbidden(p, t) in violations <==>
              p in modules && t in ImportsOf(g, p) && l.ruleOf(p).Some? && l.ruleOf(t).Some? && !Allowed(l, p, t)
    ensures forall p, t :: UnclassifiedTarget(p, t) in violations <==>
              p in modules && t in ImportsOf(g, p) && l.ruleOf(p).Some? && l.ruleOf(t).None?
    ensures forall p :: Unclassified(p) in violations <==> p in modules && l.ruleOf(p).None?
  {
    violations := [];
    for n := 0 to |modules|
      invariant violations == [] <==> Layered(l, g, modules[..n])
      invariant forall p, t :: Forbidden(p, t) in violations <==>
                  p in modules[..n] && t in ImportsOf(g, p) && l.ruleOf(p).Some? && l.ruleOf(t).Some? && !Allowed(l, p, t)
      invariant forall p, t :: UnclassifiedTarget(p, t) in violations <==>
                  p in modules[..n] && t in ImportsOf(g, p) && l.ruleOf(p).Some? && l.ruleOf(t).None?
      invariant forall p :: Unclassified(p) in violations <==> p in modules[..n] && l.ruleOf(p).None?
    {
      var path := modules[n];
      assert modules[..n + 1] == modules[..n] + [path];
      if l.ruleOf(path).None? {
        violations := violations + [Unclassified(path)];
        continue;
      }
      var found := CheckModule(l, path, ImportsOf(g, path));
      violations := violations + found;
    }
    assert modules[..|modules|] == modules;
  }

  method CheckModule<Name(==)>(l: Layering<Name>, path: Path, targets: seq<Path>) returns (violations: seq<Violation>)
    requires l.ruleOf(path).Some?
    ensures violations == [] <==> forall t | t in targets :: Allowed(l, path, t)
    ensures forall p, t :: Forbidden(p, t) in violations <==>
              p == path && t in targets && l.ruleOf(t).Some? && !Allowed(l, p, t)
    ensures forall p, t :: UnclassifiedTarget(p, t) in violations <==> p == path && t in targets && l.ruleOf(t).None?
    ensures forall p :: Unclassified(p) !in violations
  {
    violations := [];
    for n := 0 to |targets|
      invariant violations == [] <==> forall t | t in targets[..n] :: Allowed(l, path, t)
      invariant forall p, t :: Forbidden(p, t) in violations <==>
                  p == path && t in targets[..n] && l.ruleOf(t).Some? && !Allowed(l, p, t)
      invariant forall p, t :: UnclassifiedTarget(p, t) in violations <==> p == path && t in targets[..n] && l.ruleOf(t).None?
      invariant forall p :: Unclassified(p) !in violations
    {
      var target := targets[n];
      assert targets[..n + 1] == targets[..n] + [target] && target in targets[..n + 1];
      if l.ruleOf(target).None? {
        violations := violations + [UnclassifiedTarget(path, target)];
      } else if l.ruleOf(target).value.name !in l.ruleOf(path).value.may && !l.excepted(path, target) {
        violations := violations + [Forbidden(path, target)];
      }
    }
    assert targets[..|targets|] == targets;
  }

  // ----- Closed sets of layers -----

  /** No rule of these layers allows another, and no excepted edge starts in one. */
  ghost predicate ClosedLayers<Name(!new)>(l: Layering<Name>, names: set<Name>) {
    && (forall p :: l.ruleOf(p).Some? && l.ruleOf(p).value.name in names ==> l.ruleOf(p).value.may <= names)
    && (forall p, t :: l.ruleOf(p).Some? && l.ruleOf(p).value.name in names ==> !l.excepted(p, t))
  }

  predicate InLayers<Name(==)>(l: Layering<Name>, names: set<Name>, p: Path) {
    l.ruleOf(p).Some? && l.ruleOf(p).value.name in names
  }

  /** In a graph that passes, a module of a closed set of layers imports, however
      indirectly, only modules of these layers. (Edges start at modules: other
      files have no imports in the graph.) */
  lemma LayersAreClosed<Name(!new)>(l: Layering<Name>, g: Graph, modules: seq<Path>, names: set<Name>, chain: seq<Path>)
    requires Layered(l, g, modules) && g.imports.Keys <= (set p | p in modules) && ClosedLayers(l, names)
    requires IsChain(g, chain) && chain != [] && InLayers(l, names, chain[0])
    ensures forall i | 0 <= i < |chain| :: InLayers(l, names, chain[i])
  {
    var i := 0;
    while i < |chain|
      invariant i <= |chain|
      invariant forall k | 0 <= k < i :: InLayers(l, names, chain[k])
    {
      if i > 0 {
        assert chain[(i - 1) + 1] in ImportsOf(g, chain[i - 1]);
        assert chain[i - 1] in modules;
        assert Allowed(l, chain[i - 1], chain[i]);
      }
      i := i + 1;
    }
  }
}
