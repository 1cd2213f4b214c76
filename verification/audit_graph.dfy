/** Paths in a finite graph, and the worklists that compute what they reach. */
module AuditGraph {
  import opened Wrappers

  datatype Key = Key(name: string, version: string, source: string)

  type Edges = set<(Key, Key)>

  /** A path along edges that starts at a root. */
  predicate PathFrom(roots: set<Key>, edges: Edges, p: seq<Key>) {
    |p| > 0 && p[0] in roots && forall i | 0 <= i < |p| - 1 :: (p[i], p[i + 1]) in edges
  }

  function Last(p: seq<Key>): Key
    requires |p| > 0
  {
    p[|p| - 1]
  }

  ghost predicate Reaches(roots: set<Key>, edges: Edges, v: Key) {
    exists p :: PathFrom(roots, edges, p) && Last(p) == v
  }

  /** The path uses at least one of the marked edges. */
  predicate Marked(marks: Edges, p: seq<Key>) {
    exists i | 0 <= i < |p| - 1 :: (p[i], p[i + 1]) in marks
  }

  /** Some path to `v` uses a marked edge. */
  ghost predicate ReachesMarked(roots: set<Key>, edges: Edges, marks: Edges, v: Key) {
    exists p :: PathFrom(roots, edges, p) && Last(p) == v && Marked(marks, p)
  }

  predicate Closed(edges: Edges, s: set<Key>) {
    forall e <- edges :: e.0 in s ==> e.1 in s
  }

  function Endpoints(edges: Edges): set<Key> {
    (set e <- edges :: e.0) + (set e <- edges :: e.1)
  }

  function Children(edges: Edges, v: Key): (r: set<Key>)
    ensures forall w :: w in r <==> (v, w) in edges
  {
    set e | e in edges && e.0 == v :: e.1
  }

  lemma ReachesRoot(roots: set<Key>, edges: Edges, v: Key)
    requires v in roots
    ensures Reaches(roots, edges, v)
  {
    assert PathFrom(roots, edges, [v]) && Last([v]) == v;
  }

  lemma ReachesChild(roots: set<Key>, edges: Edges, u: Key, v: Key)
    requires Reaches(roots, edges, u) && (u, v) in edges
    ensures Reaches(roots, edges, v)
  {
    var p :| PathFrom(roots, edges, p) && Last(p) == u;
    assert PathFrom(roots, edges, p + [v]) && Last(p + [v]) == v;
  }

  /** A closed set that holds the roots holds all of a path. */
  lemma {:induction false} ClosedHoldsPath(roots: set<Key>, edges: Edges, s: set<Key>, p: seq<Key>)
    requires roots <= s && Closed(edges, s) && PathFrom(roots, edges, p)
    ensures Last(p) in s
  {
    var n := |p| - 1;
    if n > 0 {
      ClosedHoldsPath(roots, edges, s, p[..n]);
      assert (p[n - 1], p[n]) in edges;
    }
  }

  lemma ClosedHoldsReached(roots: set<Key>, edges: Edges, s: set<Key>)
    requires roots <= s && Closed(edges, s)
    ensures forall v | Reaches(roots, edges, v) :: v in s
  {
    forall v | Reaches(roots, edges, v)
      ensures v in s
    {
      var p :| PathFrom(roots, edges, p) && Last(p) == v;
      ClosedHoldsPath(roots, edges, s, p);
    }
  }

  method Enumerate(s: set<Key>) returns (r: seq<Key>)
    ensures forall x :: x in r <==> x in s
  {
    r := [];
    var rest := s;
    while rest != {}
      invariant rest <= s
      invariant forall x :: x in r <==> x in s - rest
      decreases rest
    {
      var x :| x in rest;
      r := r + [x];
      rest := rest - {x};
    }
  }

  /** The breadth-first closure: exactly the vertices on a path from the roots. */
  method Closure(roots: set<Key>, edges: Edges) returns (reached: set<Key>)
    ensures forall v :: v in reached <==> Reaches(roots, edges, v)
  {
    hide Reaches;
    reached := roots;
    var queue := Enumerate(roots);
    forall v | v in roots
      ensures Reaches(roots, edges, v)
    {
      ReachesRoot(roots, edges, v);
    }
    while queue != []
      invariant roots <= reached <= roots + Endpoints(edges) && forall v <- queue :: v in reached
      invariant forall v <- reached :: Reaches(roots, edges, v)
      invariant forall e <- edges | e.0 in reached && e.1 !in reached :: e.0 in queue
      decreases roots + Endpoints(edges) - reached, |queue|
    {
      var parent := queue[0];
      queue := queue[1..];
      ghost var before, popped := reached, queue;
      var children := Enumerate(Children(edges, parent));
      for i := 0 to |children|
        invariant before <= reached <= roots + Endpoints(edges) && forall v <- queue :: v in reached
        invariant popped <= queue && (reached == before ==> queue == popped)
        invariant forall v <- reached :: Reaches(roots, edges, v)
        invariant forall v <- reached - before :: v in queue
        invariant forall k | 0 <= k < i :: children[k] in reached
      {
        var child := children[i];
        if child !in reached {
          assert (parent, child) in edges;
          ReachesChild(roots, edges, parent, child);
          reached := reached + {child};
          queue := queue + [child];
        }
      }
    }
    ClosedHoldsReached(roots, edges, reached);
  }

  // ----- Paths with a marked edge -----

  type State = (Key, bool)

  /** Some path leads to the vertex, with or without a marked edge as the flag says. */
  ghost predicate StateReached(roots: set<Key>, edges: Edges, marks: Edges, s: State) {
    exists p :: PathFrom(roots, edges, p) && Last(p) == s.0 && Marked(marks, p) == s.1
  }

  function Next(marks: Edges, s: State, child: Key): State {
    (child, s.1 || (s.0, child) in marks)
  }

  lemma StateReachesRoot(roots: set<Key>, edges: Edges, marks: Edges, v: Key)
    requires v in roots
    ensures StateReached(roots, edges, marks, (v, false))
  {
    assert PathFrom(roots, edges, [v]) && Last([v]) == v && !Marked(marks, [v]);
  }

  lemma StateReachesNext(roots: set<Key>, edges: Edges, marks: Edges, s: State, child: Key)
    requires StateReached(roots, edges, marks, s) && (s.0, child) in edges
    ensures StateReached(roots, edges, marks, Next(marks, s, child))
  {
    var p :| PathFrom(roots, edges, p) && Last(p) == s.0 && Marked(marks, p) == s.1;
    MarkedExtends(marks, p, child);
    assert PathFrom(roots, edges, p + [child]);
  }

  lemma MarkedExtends(marks: Edges, p: seq<Key>, child: Key)
    requires |p| > 0
    ensures Marked(marks, p + [child]) <==> Marked(marks, p) || (Last(p), child) in marks
  {
    var q := p + [child];
    if (Last(p), child) in marks {
      assert (q[|p| - 1], q[|p|]) in marks;
    }
    if Marked(marks, p) {
      var i :| 0 <= i < |p| - 1 && (p[i], p[i + 1]) in marks;
      assert (q[i], q[i + 1]) in marks;
    }
    if Marked(marks, q) {
      var i :| 0 <= i < |q| - 1 && (q[i], q[i + 1]) in marks;
      assert i < |p| - 1 ==> (p[i], p[i + 1]) in marks;
    }
  }

  /** A set of states that holds the roots and every next state holds the end state of every path. */
  lemma {:induction false} StatesHoldPath(
    roots: set<Key>, edges: Edges, marks: Edges, visited: set<State>, p: seq<Key>)
    requires PathFrom(roots, edges, p)
    requires Starts(roots) <= visited && Expanded(edges, marks, visited, {})
    ensures (Last(p), Marked(marks, p)) in visited
  {
    var n := |p| - 1;
    if n > 0 {
      StatesHoldPath(roots, edges, marks, visited, p[..n]);
      assert (p[n - 1], p[n]) in edges;
      MarkedExtends(marks, p[..n], p[n]);
      assert p[..n] + [p[n]] == p;
      var s := (p[n - 1], Marked(marks, p[..n]));
      assert p[n] in Children(edges, s.0);
      assert Next(marks, s, p[n]) in NextStates(edges, marks, s);
    }
  }

  function NextStates(edges: Edges, marks: Edges, s: State): set<State> {
    set v <- Children(edges, s.0) :: Next(marks, s, v)
  }

  /** The next states of what was visited are visited or pending. */
  predicate Expanded(edges: Edges, marks: Edges, visited: set<State>, pending: set<State>) {
    forall s <- visited :: NextStates(edges, marks, s) <= visited + pending
  }

  function Elements(queue: seq<State>): set<State> {
    set s <- queue
  }

  method Push(edges: Edges, marks: Edges, queue: seq<State>, s: State) returns (longer: seq<State>)
    ensures Elements(longer) == Elements(queue) + NextStates(edges, marks, s)
  {
    hide Next;
    longer := queue;
    var children := Enumerate(Children(edges, s.0));
    for i := 0 to |children|
      invariant |longer| == |queue| + i && queue <= longer
      invariant forall k | 0 <= k < i :: longer[|queue| + k] == Next(marks, s, children[k])
    {
      longer := longer + [Next(marks, s, children[i])];
    }
    forall v | v in Children(edges, s.0)
      ensures Next(marks, s, v) in longer
    {
      var k :| 0 <= k < |children| && children[k] == v;
      assert longer[|queue| + k] == Next(marks, s, v);
    }
    forall t | t in longer
      ensures t in queue || t in NextStates(edges, marks, s)
    {
      var k :| 0 <= k < |longer| && longer[k] == t;
      assert k >= |queue| ==> longer[|queue| + (k - |queue|)] == Next(marks, s, children[k - |queue|]);
    }
  }

  ghost predicate AllReached(roots: set<Key>, edges: Edges, marks: Edges, states: set<State>) {
    forall s <- states :: StateReached(roots, edges, marks, s)
  }

  lemma NextAreReached(roots: set<Key>, edges: Edges, marks: Edges, s: State)
    requires StateReached(roots, edges, marks, s)
    ensures AllReached(roots, edges, marks, NextStates(edges, marks, s))
  {
    hide StateReached;
    forall v | v in Children(edges, s.0)
      ensures StateReached(roots, edges, marks, Next(marks, s, v))
    {
      StateReachesNext(roots, edges, marks, s, v);
    }
  }

  function States(vertices: set<Key>): set<State> {
    (set v <- vertices :: (v, true)) + (set v <- vertices :: (v, false))
  }

  lemma NextAreStates(roots: set<Key>, edges: Edges, marks: Edges, s: State)
    ensures NextStates(edges, marks, s) <= States(roots + Endpoints(edges))
  {
  }

  function Starts(roots: set<Key>): set<State> {
    set v <- roots :: (v, false)
  }

  lemma StartsAreReached(roots: set<Key>, edges: Edges, marks: Edges)
    ensures AllReached(roots, edges, marks, Starts(roots)) && Starts(roots) <= States(roots + Endpoints(edges))
  {
    hide StateReached;
    forall v | v in roots
      ensures StateReached(roots, edges, marks, (v, false))
    {
      StateReachesRoot(roots, edges, marks, v);
    }
  }

  /**
   * The worklist over vertices and a flag. A state may be queued many times; it is expanded once. The result is exactly
   * what some path with a marked edge reaches.
   */
  method MarkedContext(roots: set<Key>, edges: Edges, marks: Edges) returns (context: set<Key>)
    ensures forall v :: v in context <==> ReachesMarked(roots, edges, marks, v)
  {
    hide StateReached, ReachesMarked, Next, NextStates, Endpoints, States, Starts;
    ghost var all := States(roots + Endpoints(edges));
    StartsAreReached(roots, edges, marks);
    context := {};
    var queue := StartQueue(roots);
    var visited: set<State> := {};
    while queue != []
      invariant visited + Elements(queue) <= all && Starts(roots) <= visited + Elements(queue)
      invariant AllReached(roots, edges, marks, visited + Elements(queue))
      invariant Expanded(edges, marks, visited, Elements(queue))
      invariant context == set s | s in visited && s.1 :: s.0
      decreases all - visited, |queue|
    {
      var s := queue[0];
      assert s in Elements(queue) && Elements(queue) == {s} + Elements(queue[1..]);
      queue := queue[1..];
      if s in visited {
        continue;
      }
      visited := visited + {s};
      if s.1 {
        context := context + {s.0};
      }
      NextAreReached(roots, edges, marks, s);
      NextAreStates(roots, edges, marks, s);
      queue := Push(edges, marks, queue, s);
    }
    forall v: Key
      ensures v in context <==> ReachesMarked(roots, edges, marks, v)
    {
      VisitedIsExact(roots, edges, marks, visited, v);
    }
  }

  method StartQueue(roots: set<Key>) returns (queue: seq<State>)
    ensures Elements(queue) == Starts(roots)
  {
    queue := [];
    var vertices := Enumerate(roots);
    for i := 0 to |vertices|
      invariant |queue| == i && forall k | 0 <= k < i :: queue[k] == (vertices[k], false)
    {
      queue := queue + [(vertices[i], false)];
    }
    forall v | v in roots
      ensures (v, false) in queue
    {
      var k :| 0 <= k < |vertices| && vertices[k] == v;
      assert queue[k] == (v, false);
    }
  }

  lemma VisitedIsExact(roots: set<Key>, edges: Edges, marks: Edges, visited: set<State>, v: Key)
    requires AllReached(roots, edges, marks, visited) && Starts(roots) <= visited && Expanded(edges, marks, visited, {})
    ensures (v, true) in visited <==> ReachesMarked(roots, edges, marks, v)
  {
    if ReachesMarked(roots, edges, marks, v) {
      var p :| PathFrom(roots, edges, p) && Last(p) == v && Marked(marks, p);
      StatesHoldPath(roots, edges, marks, visited, p);
    }
  }
}
