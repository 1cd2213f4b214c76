/** Reading an indented dependency tree, printing its graph as rows, and loading the rows again. */
module AuditTree {
  import opened Wrappers
  import opened AuditGraph

  datatype Error = AuditError

  type Result<+T> = Fallible<T, Error>

  datatype TreeGraph = TreeGraph(packages: set<Key>, normal: set<Key>, build: set<Key>, edges: Edges, roots: set<Key>)

  /** The packages of the lock file by name and version. */
  type Lock = map<(string, string), Key>

  predicate LockOk(lock: Lock) {
    forall p <- lock :: p == (lock[p].name, lock[p].version)
  }

  /** What holds of every graph that is parsed or loaded. */
  ghost predicate WellFormed(lock: Lock, g: TreeGraph) {
    && g.packages != {} && g.roots != {} && g.roots <= g.packages
    && g.normal + g.build == g.packages
    && Endpoints(g.edges) <= g.packages
    && (forall k <- g.packages :: (k.name, k.version) in lock && lock[(k.name, k.version)] == k)
    && (forall k <- g.packages :: Reaches(g.roots, g.edges, k))
  }

  // ----- The tree -----

  /** One line of the tree that names a package. */
  datatype Line = Line(depth: nat, name: string, version: string, procMacro: bool)

  predicate Known(lines: seq<Line>, lock: Lock, n: nat)
    requires n <= |lines|
  {
    forall i | 0 <= i < n :: (lines[i].name, lines[i].version) in lock
  }

  /** The first line is a root and no line is more than one level below the line before it. */
  predicate NoJumps(lines: seq<Line>, n: nat)
    requires n <= |lines|
  {
    && (n > 0 ==> lines[0].depth == 0)
    && forall i | 0 < i < n :: lines[i].depth <= lines[i - 1].depth + 1
  }

  predicate Acceptable(lines: seq<Line>, lock: Lock) {
    lines != [] && Known(lines, lock, |lines|) && NoJumps(lines, |lines|)
  }

  function KeyAt(lines: seq<Line>, lock: Lock, i: nat): Key
    requires i < |lines| && (lines[i].name, lines[i].version) in lock
  {
    lock[(lines[i].name, lines[i].version)]
  }

  /** Line `i` is line `j` or stands in the block of deeper lines under it. */
  predicate Below(lines: seq<Line>, i: nat, j: nat)
    requires i < |lines|
  {
    j <= i && forall k | j < k <= i :: lines[k].depth > lines[j].depth
  }

  /** Line `i` lies at or below a procedural macro. */
  predicate InBuild(lines: seq<Line>, i: nat)
    requires i < |lines|
  {
    exists j: nat | j <= i :: Below(lines, i, j) && lines[j].procMacro
  }

  /** The nearest earlier line of smaller depth. */
  function Parent(lines: seq<Line>, i: nat): (p: nat)
    requires i < |lines| && NoJumps(lines, i + 1) && lines[i].depth > 0
    ensures p < i && Below(lines, i, p) && lines[p].depth + 1 == lines[i].depth
  {
    ParentFrom(lines, i, i)
  }

  function ParentFrom(lines: seq<Line>, i: nat, j: nat): (p: nat)
    requires j <= i < |lines| && NoJumps(lines, i + 1) && lines[i].depth > 0
    requires lines[j].depth >= lines[i].depth && forall k | j < k <= i :: lines[k].depth >= lines[i].depth
    ensures p < i && Below(lines, i, p) && lines[p].depth + 1 == lines[i].depth
  {
    if lines[j - 1].depth < lines[i].depth then j - 1 else ParentFrom(lines, i, j - 1)
  }

  function PackagesOf(lines: seq<Line>, lock: Lock, n: nat): set<Key>
    requires n <= |lines| && Known(lines, lock, n)
  {
    set i | 0 <= i < n :: KeyAt(lines, lock, i)
  }

  /** The packages with an occurrence whose build context is as given. */
  function ContextOf(lines: seq<Line>, lock: Lock, n: nat, build: bool): set<Key>
    requires n <= |lines| && Known(lines, lock, n)
  {
    set i | 0 <= i < n && InBuild(lines, i) == build :: KeyAt(lines, lock, i)
  }

  function EdgesOf(lines: seq<Line>, lock: Lock, n: nat): Edges
    requires n <= |lines| && Known(lines, lock, n) && NoJumps(lines, n)
  {
    set i | 0 <= i < n && lines[i].depth > 0 :: (KeyAt(lines, lock, Parent(lines, i)), KeyAt(lines, lock, i))
  }

  function RootsOf(lines: seq<Line>, lock: Lock, n: nat): set<Key>
    requires n <= |lines| && Known(lines, lock, n)
  {
    set i | 0 <= i < n && lines[i].depth == 0 :: KeyAt(lines, lock, i)
  }

  /** The graph of the first `n` lines. */
  function GraphOf(lines: seq<Line>, lock: Lock, n: nat): TreeGraph
    requires n <= |lines| && Known(lines, lock, n) && NoJumps(lines, n)
  {
    TreeGraph(PackagesOf(lines, lock, n), ContextOf(lines, lock, n, false), ContextOf(lines, lock, n, true),
              EdgesOf(lines, lock, n), RootsOf(lines, lock, n))
  }

  /** A line is in build context through its own mark or through its parent. */
  lemma BuildComesFromParent(lines: seq<Line>, i: nat)
    requires i < |lines| && NoJumps(lines, i + 1)
    ensures InBuild(lines, i) <==> lines[i].procMacro || (lines[i].depth > 0 && InBuild(lines, Parent(lines, i)))
  {
  }

  lemma {:induction false} LineIsReached(lines: seq<Line>, lock: Lock, i: nat)
    requires i < |lines| && Acceptable(lines, lock)
    ensures var g := GraphOf(lines, lock, |lines|); Reaches(g.roots, g.edges, KeyAt(lines, lock, i))
  {
    hide Reaches, InBuild, KeyAt;
    var g := GraphOf(lines, lock, |lines|);
    if lines[i].depth == 0 {
      ReachesRoot(g.roots, g.edges, KeyAt(lines, lock, i));
    } else {
      var p := Parent(lines, i);
      LineIsReached(lines, lock, p);
      assert (KeyAt(lines, lock, p), KeyAt(lines, lock, i)) in g.edges;
      ReachesChild(g.roots, g.edges, KeyAt(lines, lock, p), KeyAt(lines, lock, i));
    }
  }

  /** The graph of an accepted tree: everything is reached from its roots, and has a context. */
  lemma ParsedIsWellFormed(lines: seq<Line>, lock: Lock)
    requires LockOk(lock) && Acceptable(lines, lock)
    ensures WellFormed(lock, GraphOf(lines, lock, |lines|))
  {
    hide Reaches, InBuild, Parent, Below;
    var g := GraphOf(lines, lock, |lines|);
    assert KeyAt(lines, lock, 0) in g.packages && KeyAt(lines, lock, 0) in g.roots;
    AllReached(lines, lock);
  }

  lemma AllReached(lines: seq<Line>, lock: Lock)
    requires LockOk(lock) && Acceptable(lines, lock)
    ensures var g := GraphOf(lines, lock, |lines|); forall k <- g.packages :: Reaches(g.roots, g.edges, k)
  {
    hide Reaches, InBuild, Parent, EdgesOf, ContextOf;
    var g := GraphOf(lines, lock, |lines|);
    forall k | k in g.packages
      ensures Reaches(g.roots, g.edges, k)
    {
      var i :| 0 <= i < |lines| && k == KeyAt(lines, lock, i);
      LineIsReached(lines, lock, i);
    }
  }

  lemma EdgesGrow(lines: seq<Line>, lock: Lock, n: nat)
    requires n < |lines| && Known(lines, lock, n + 1) && NoJumps(lines, n + 1)
    ensures EdgesOf(lines, lock, n + 1) == EdgesOf(lines, lock, n)
              + (if lines[n].depth > 0 then {(KeyAt(lines, lock, Parent(lines, n)), KeyAt(lines, lock, n))} else {})
  {
    hide KeyAt, Parent, Below;
  }

  lemma ContextGrows(lines: seq<Line>, lock: Lock, n: nat, build: bool)
    requires n < |lines| && Known(lines, lock, n + 1)
    ensures ContextOf(lines, lock, n + 1, build) == ContextOf(lines, lock, n, build)
              + (if InBuild(lines, n) == build then {KeyAt(lines, lock, n)} else {})
  {
  }

  /** The graph with one more package, in the given context and under the given parent. */
  function Add(g: TreeGraph, key: Key, build: bool, parent: Option<Key>): TreeGraph {
    TreeGraph(g.packages + {key},
              if build then g.normal else g.normal + {key},
              if build then g.build + {key} else g.build,
              if parent.Some? then g.edges + {(parent.value, key)} else g.edges,
              if parent.Some? then g.roots else g.roots + {key})
  }

  lemma GraphGrows(lines: seq<Line>, lock: Lock, n: nat)
    requires n < |lines| && Known(lines, lock, n + 1) && NoJumps(lines, n + 1)
    ensures GraphOf(lines, lock, n + 1) == Add(GraphOf(lines, lock, n), KeyAt(lines, lock, n), InBuild(lines, n),
                                               if lines[n].depth > 0 then Some(KeyAt(lines, lock, Parent(lines, n)))
                                               else None)
  {
    hide InBuild, KeyAt, Parent, EdgesOf, ContextOf;
    EdgesGrow(lines, lock, n);
    ContextGrows(lines, lock, n, false);
    ContextGrows(lines, lock, n, true);
  }

  // ----- The stack parser -----

  type Stack = map<nat, (Key, bool)>

  /** The stack holds, for each depth down to that of the last line, the line that is still open there. */
  ghost predicate StackOk(lines: seq<Line>, lock: Lock, n: nat, stack: Stack, open: seq<nat>)
    requires n <= |lines| && Known(lines, lock, n)
  {
    && |open| == (if n == 0 then 0 else lines[n - 1].depth + 1)
    && (forall d: nat :: d in stack <==> d < |open|)
    && forall d | 0 <= d < |open| ::
         && open[d] < n && lines[open[d]].depth == d && Below(lines, n - 1, open[d])
         && stack[d] == (KeyAt(lines, lock, open[d]), InBuild(lines, open[d]))
  }

  lemma OpenIsParent(lines: seq<Line>, lock: Lock, n: nat, stack: Stack, open: seq<nat>)
    requires n < |lines| && Known(lines, lock, n) && NoJumps(lines, n) && StackOk(lines, lock, n, stack, open)
    ensures lines[n].depth <= |open| <==> NoJumps(lines, n + 1)
    ensures 0 < lines[n].depth <= |open| ==> Parent(lines, n) == open[lines[n].depth - 1]
  {
  }

  lemma StackGrows(lines: seq<Line>, lock: Lock, n: nat, stack: Stack, open: seq<nat>)
    requires n < |lines| && Known(lines, lock, n + 1) && StackOk(lines, lock, n, stack, open)
    requires lines[n].depth <= |open|
    ensures StackOk(lines, lock, n + 1, Push(stack, lines[n].depth, (KeyAt(lines, lock, n), InBuild(lines, n))),
                    open[..lines[n].depth] + [n])
  {
    hide InBuild, KeyAt;
  }

  function Push(stack: Stack, depth: nat, entry: (Key, bool)): Stack {
    (map d | d in stack && d <= depth :: stack[d])[depth := entry]
  }

  /** The stack parser accepts exactly the trees without unknown packages and depth jumps, and returns their graph. */
  method ParseTree(lines: seq<Line>, lock: Lock) returns (r: Result<TreeGraph>)
    ensures r.Ok? <==> Acceptable(lines, lock)
    ensures r.Ok? ==> r.value == GraphOf(lines, lock, |lines|)
  {
    hide GraphOf, StackOk, InBuild, KeyAt, Push;
    var g := TreeGraph({}, {}, {}, {}, {});
    var stack: Stack := map[];
    ghost var open: seq<nat> := [];
    Start(lines, lock);
    for n := 0 to |lines|
      invariant Known(lines, lock, n) && NoJumps(lines, n)
      invariant g == GraphOf(lines, lock, n) && StackOk(lines, lock, n, stack, open)
    {
      var l := lines[n];
      if (l.name, l.version) !in lock {
        return Err(AuditError);
      }
      OpenIsParent(lines, lock, n, stack, open);
      if l.depth > 0 && l.depth - 1 !in stack {
        StackHas(lines, lock, n, stack, open, l.depth - 1);
        return Err(AuditError);
      }
      if l.depth > 0 {
        StackHas(lines, lock, n, stack, open, l.depth - 1);
      }
      BuildComesFromParent(lines, n);
      GraphGrows(lines, lock, n);
      StackGrows(lines, lock, n, stack, open);
      var key := KeyAt(lines, lock, n);
      var parent := if l.depth > 0 then Some(stack[l.depth - 1].0) else None;
      var build := l.procMacro || (l.depth > 0 && stack[l.depth - 1].1);
      g := Add(g, key, build, parent);
      stack := Push(stack, l.depth, (key, build));
      open := open[..l.depth] + [n];
    }
    if lines != [] {
      FirstIsRoot(lines, lock);
    }
    if lines == [] || g.roots == {} {
      return Err(AuditError);
    }
    r := Ok(g);
  }

  lemma FirstIsRoot(lines: seq<Line>, lock: Lock)
    requires Acceptable(lines, lock)
    ensures KeyAt(lines, lock, 0) in GraphOf(lines, lock, |lines|).roots
  {
  }

  lemma Start(lines: seq<Line>, lock: Lock)
    ensures GraphOf(lines, lock, 0) == TreeGraph({}, {}, {}, {}, {}) && StackOk(lines, lock, 0, map[], [])
  {
  }

  lemma StackHas(lines: seq<Line>, lock: Lock, n: nat, stack: Stack, open: seq<nat>, d: nat)
    requires n <= |lines| && Known(lines, lock, n) && StackOk(lines, lock, n, stack, open)
    ensures d in stack <==> d < |open|
    ensures d in stack ==> open[d] < n && stack[d] == (KeyAt(lines, lock, open[d]), InBuild(lines, open[d]))
  {
  }
}
