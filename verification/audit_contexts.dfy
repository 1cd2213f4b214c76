/** The dev and foreign-target contexts of the workspace, the class of every package, and reverse closures. */
module AuditContexts {
  import opened Wrappers
  import opened AuditGraph
  import opened AuditTree

  /** A dependency kind and the target it is for. */
  type Spec = (string, string)

  datatype Sets = Sets(native: set<Key>, nativeAll: set<Key>, allTargets: set<Key>, dev: set<Key>, foreign: set<Key>)

  // ----- Foreign edges -----

  /** Some spec of the edge is not a native one. */
  predicate IsForeign(all: map<(Key, Key), set<Spec>>, native: set<(Key, Key, Spec)>, e: (Key, Key)) {
    e in all && exists spec <- all[e] :: (e.0, e.1, spec) !in native
  }

  function ForeignOf(edges: Edges, all: map<(Key, Key), set<Spec>>, native: set<(Key, Key, Spec)>): Edges {
    set e | e in edges && IsForeign(all, native, e)
  }

  method ForeignEdges(edges: Edges, all: map<(Key, Key), set<Spec>>, native: set<(Key, Key, Spec)>) returns (r: Edges)
    ensures r == ForeignOf(edges, all, native)
  {
    r := {};
    var todo := edges;
    while todo != {}
      invariant todo <= edges && r == ForeignOf(edges - todo, all, native)
      decreases todo
    {
      var e :| e in todo;
      var specs := if e in all then all[e] else {};
      if exists spec <- specs :: (e.0, e.1, spec) !in native {
        r := r + {e};
      }
      todo := todo - {e};
    }
  }

  // ----- Workspace sets -----

  /** The checks on the five sets, in the order that they are made. */
  predicate SetsOk(lockPackages: set<Key>, workspace: set<Key>, s: Sets) {
    && s.native <= s.nativeAll && s.nativeAll <= s.allTargets && s.allTargets <= lockPackages
    && s.dev <= s.nativeAll && s.foreign <= s.allTargets && workspace <= s.native
  }

  /** A path that uses an edge ends inside the endpoints, so a marked context stays inside the packages. */
  lemma MarkedStaysInside(roots: set<Key>, edges: Edges, marks: Edges, packages: set<Key>, v: Key)
    requires Endpoints(edges) <= packages && ReachesMarked(roots, edges, marks, v)
    ensures v in packages
  {
    var p :| PathFrom(roots, edges, p) && Last(p) == v && Marked(marks, p);
    var n := |p| - 1;
    assert (p[n - 1], p[n]) in edges;
    assert p[n] in Endpoints(edges);
  }

  /** The dev closure stays inside the native packages if and only if its seeds do. */
  lemma DevStaysInside(seeds: set<Key>, edges: Edges, packages: set<Key>, dev: set<Key>)
    requires Endpoints(edges) <= packages && forall v :: v in dev <==> Reaches(seeds, edges, v)
    ensures dev <= packages <==> seeds <= packages
  {
    if seeds <= packages {
      assert forall e <- edges :: e.1 in Endpoints(edges);
      ClosedHoldsReached(seeds, edges, packages);
    }
    forall v | v in seeds
      ensures v in dev
    {
      ReachesRoot(seeds, edges, v);
    }
  }

  /** When the workspace graphs are accepted, stated on the graphs alone. */
  predicate GraphsOk(
    lockPackages: set<Key>, workspace: set<Key>, native: TreeGraph, nativeAll: TreeGraph, dev: TreeGraph,
    all: TreeGraph)
  {
    && dev.roots == workspace && native.roots == workspace && nativeAll.roots == workspace && all.roots == workspace
    && native.packages <= nativeAll.packages && nativeAll.packages <= all.packages && all.packages <= lockPackages
    && dev.packages - workspace <= nativeAll.packages && workspace <= native.packages
  }

  /**
   * Computes both contexts and checks the sets. For parsed or loaded graphs the foreign check never decides: acceptance
   * depends on the given graphs alone.
   */
  method SetWorkspaceGraphs(
    lock: Lock, lockPackages: set<Key>, workspace: set<Key>, native: TreeGraph, nativeAll: TreeGraph, dev: TreeGraph,
    all: TreeGraph, allSpecs: map<(Key, Key), set<Spec>>, nativeSpecs: set<(Key, Key, Spec)>) returns (r: Result<Sets>)
    requires WellFormed(lock, native) && WellFormed(lock, nativeAll) && WellFormed(lock, dev) && WellFormed(lock, all)
    ensures r.Ok? <==> GraphsOk(lockPackages, workspace, native, nativeAll, dev, all)
    ensures r.Ok? ==> r.value.native == native.packages && r.value.nativeAll == nativeAll.packages
                      && r.value.allTargets == all.packages
    ensures r.Ok? ==> forall v :: v in r.value.dev <==> Reaches(dev.packages - dev.roots, nativeAll.edges, v)
    ensures r.Ok? ==> forall v :: v in r.value.foreign <==>
              ReachesMarked(workspace, all.edges, ForeignOf(all.edges, allSpecs, nativeSpecs), v)
  {
    hide Reaches, ReachesMarked, ForeignOf, Endpoints;
    if dev.roots != workspace {
      return Err(AuditError);
    }
    var devContext := Closure(dev.packages - dev.roots, nativeAll.edges);
    DevStaysInside(dev.packages - dev.roots, nativeAll.edges, nativeAll.packages, devContext);
    var foreignEdges := ForeignEdges(all.edges, allSpecs, nativeSpecs);
    var foreignContext := MarkedContext(workspace, all.edges, foreignEdges);
    forall v | v in foreignContext
      ensures v in all.packages
    {
      MarkedStaysInside(workspace, all.edges, foreignEdges, all.packages, v);
    }
    var sets := Sets(native.packages, nativeAll.packages, all.packages, devContext, foreignContext);
    if !SetsOk(lockPackages, workspace, sets) {
      return Err(AuditError);
    }
    if native.roots != workspace || nativeAll.roots != workspace || all.roots != workspace {
      return Err(AuditError);
    }
    r := Ok(sets);
  }

  // ----- Reverse closures -----

  function Parents(edges: Edges, v: Key): (r: set<Key>)
    ensures forall u :: u in r <==> (u, v) in edges
  {
    set e | e in edges && e.1 == v :: e.0
  }

  lemma ParentReaches(edges: Edges, parent: Key, child: Key, key: Key)
    requires (parent, child) in edges && Reaches({child}, edges, key)
    ensures Reaches({parent}, edges, key)
  {
    var p :| PathFrom({child}, edges, p) && Last(p) == key;
    assert PathFrom({parent}, edges, [parent] + p) && Last([parent] + p) == key;
  }

  /** A set that holds `key` and every parent of its members holds the start of every path to `key`. */
  lemma {:induction false} HoldsStart(edges: Edges, s: set<Key>, start: Key, key: Key, p: seq<Key>)
    requires key in s && forall e <- edges | e.1 in s :: e.0 in s
    requires PathFrom({start}, edges, p) && Last(p) == key
    ensures start in s
    decreases |p|
  {
    if |p| > 1 {
      assert (p[0], p[1]) in edges;
      HoldsStart(edges, s, p[1], key, p[1..]);
    }
  }

  lemma HoldsStarts(edges: Edges, s: set<Key>, key: Key)
    requires key in s && forall e <- edges | e.1 in s :: e.0 in s
    ensures forall v | Reaches({v}, edges, key) :: v in s
  {
    forall v | Reaches({v}, edges, key)
      ensures v in s
    {
      var p :| PathFrom({v}, edges, p) && Last(p) == key;
      HoldsStart(edges, s, v, key, p);
    }
  }

  /** The edges on the way to `key`, and the workspace members that lead to it; without either it is an error. */
  method ReverseClosure(edges: Edges, workspace: set<Key>, key: Key) returns (ok: bool, closure: Edges, roots: set<Key>)
    ensures forall e :: e in closure <==> e in edges && Reaches({e.1}, edges, key)
    ensures forall w :: w in roots <==> w in workspace && Reaches({w}, edges, key)
    ensures ok <==> closure != {} && roots != {}
  {
    hide Reaches;
    var queue, visited := [key], {key};
    closure, roots := {}, {};
    ReachesRoot({key}, edges, key);
    while queue != []
      invariant visited <= {key} + Endpoints(edges) && key in visited && forall v <- queue :: v in visited
      invariant forall v <- visited :: Reaches({v}, edges, key)
      invariant forall e <- edges | e.1 in visited && e !in closure :: e.1 in queue
      invariant forall e <- closure :: e in edges && e.0 in visited && e.1 in visited
      invariant roots <= workspace && roots <= visited
      invariant forall v <- visited :: v in workspace && v !in roots ==> v in queue
      decreases {key} + Endpoints(edges) - visited, |queue|
    {
      var child := queue[0];
      queue := queue[1..];
      if child in workspace {
        roots := roots + {child};
      }
      closure, visited, queue := VisitParents(edges, key, child, closure, visited, queue);
    }
    HoldsStarts(edges, visited, key);
    ok := closure != {} && roots != {};
  }

  method VisitParents(edges: Edges, key: Key, child: Key, closure: Edges, visited: set<Key>, queue: seq<Key>)
    returns (closure': Edges, visited': set<Key>, queue': seq<Key>)
    requires Reaches({child}, edges, key) && forall v <- visited :: Reaches({v}, edges, key)
    ensures closure' == closure + set u <- Parents(edges, child) :: (u, child)
    ensures visited' == visited + Parents(edges, child)
    ensures forall v <- visited' :: Reaches({v}, edges, key)
    ensures queue <= queue' && (visited' == visited ==> queue' == queue)
    ensures forall v <- queue' :: v in queue || v in visited' - visited
    ensures forall v <- visited' - visited :: v in queue'
  {
    hide Reaches;
    closure', visited', queue' := closure, visited, queue;
    var parents := Enumerate(Parents(edges, child));
    for i := 0 to |parents|
      invariant visited <= visited' <= visited + Parents(edges, child)
      invariant closure <= closure' <= closure + set u <- Parents(edges, child) :: (u, child)
      invariant forall v <- visited' :: Reaches({v}, edges, key)
      invariant queue <= queue' && (visited' == visited ==> queue' == queue)
      invariant forall v <- queue' :: v in queue || v in visited' - visited
      invariant forall v <- visited' - visited :: v in queue'
      invariant forall k | 0 <= k < i :: (parents[k], child) in closure' && parents[k] in visited'
    {
      var parent := parents[i];
      closure' := closure' + {(parent, child)};
      if parent !in visited' {
        ParentReaches(edges, parent, child, key);
        visited' := visited' + {parent};
        queue' := queue' + [parent];
      }
    }
  }

  /** In a graph rooted in the workspace, only a member that nothing depends on has no closure. */
  lemma ClosureExists(lock: Lock, g: TreeGraph, key: Key)
    requires WellFormed(lock, g) && key in g.packages
    ensures exists w <- g.roots :: Reaches({w}, g.edges, key)
    ensures (exists e <- g.edges :: Reaches({e.1}, g.edges, key)) <==> Parents(g.edges, key) != {}
    ensures Parents(g.edges, key) == {} ==> key in g.roots
  {
    hide Reaches;
    RootLeads(g.roots, g.edges, key);
    if exists e <- g.edges :: Reaches({e.1}, g.edges, key) {
      var e :| e in g.edges && Reaches({e.1}, g.edges, key);
      EdgeLeads(g.edges, e, key);
    }
    if Parents(g.edges, key) != {} {
      var u :| u in Parents(g.edges, key);
      ReachesRoot({key}, g.edges, key);
      assert (u, key) in g.edges && Reaches({(u, key).1}, g.edges, key);
    }
  }

  lemma RootLeads(roots: set<Key>, edges: Edges, key: Key)
    requires Reaches(roots, edges, key)
    ensures exists w <- roots :: Reaches({w}, edges, key)
    ensures key in roots || Parents(edges, key) != {}
  {
    var p :| PathFrom(roots, edges, p) && Last(p) == key;
    assert PathFrom({p[0]}, edges, p) && Reaches({p[0]}, edges, key);
    var n := |p| - 1;
    assert n > 0 ==> (p[n - 1], p[n]) in edges && p[n - 1] in Parents(edges, key);
  }

  lemma EdgeLeads(edges: Edges, e: (Key, Key), key: Key)
    requires e in edges && Reaches({e.1}, edges, key)
    ensures Parents(edges, key) != {}
  {
    hide Reaches;
    RootLeads({e.1}, edges, key);
    assert e.1 == key ==> e.0 in Parents(edges, key);
  }
}
