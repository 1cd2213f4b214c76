/** The compact row form of a dependency graph: printing and loading undo each other. */
module AuditCompact {
  import opened Wrappers
  import opened AuditGraph
  import opened AuditTree

  datatype Row = Row(
    record: string, parentName: string, parentVersion: string, parentSource: string,
    name: string, version: string, source: string, normal: string, build: string, root: string)

  function DisplaySource(source: string): string {
    if source == "workspace" then source
    else if "registry+" <= source then "registry"
    else if "git+" <= source then "git"
    else source
  }

  function Text(b: bool): string {
    if b then "true" else "false"
  }

  function PackageRow(g: TreeGraph, k: Key): Row {
    Row("package", "", "", "", k.name, k.version, DisplaySource(k.source),
        Text(k in g.normal), Text(k in g.build), Text(k in g.roots))
  }

  function EdgeRow(e: (Key, Key)): Row {
    Row("edge", e.0.name, e.0.version, DisplaySource(e.0.source), e.1.name, e.1.version, DisplaySource(e.1.source),
        "false", "false", "false")
  }

  /** A duplicate-free listing of a set, in whatever order the printer sorts it. */
  ghost predicate Lists<T(!new)>(listing: seq<T>, s: set<T>) {
    && (forall x :: x in listing <==> x in s)
    && (forall i, j | 0 <= i < j < |listing| :: listing[i] != listing[j])
  }

  function CompactRows(g: TreeGraph, packages: seq<Key>, edges: seq<(Key, Key)>): seq<Row> {
    seq(|packages|, i requires 0 <= i < |packages| => PackageRow(g, packages[i]))
    + seq(|edges|, i requires 0 <= i < |edges| => EdgeRow(edges[i]))
  }

  // ----- Loading -----

  predicate Resolves(lock: Lock, name: string, version: string, source: string) {
    (name, version) in lock && DisplaySource(lock[(name, version)].source) == source
  }

  predicate IsText(s: string) {
    s == "true" || s == "false"
  }

  predicate IsPackage(lock: Lock, row: Row) {
    && row.record == "package" && Resolves(lock, row.name, row.version, row.source)
    && IsText(row.normal) && IsText(row.build) && IsText(row.root)
    && row.parentName == "" && row.parentVersion == "" && row.parentSource == ""
    && (row.normal == "true" || row.build == "true")
  }

  predicate IsEdge(lock: Lock, row: Row) {
    && row.record == "edge" && Resolves(lock, row.name, row.version, row.source)
    && Resolves(lock, row.parentName, row.parentVersion, row.parentSource)
    && row.normal == "false" && row.build == "false" && row.root == "false"
  }

  function KeyOf(lock: Lock, row: Row): Key
    requires IsPackage(lock, row)
  {
    lock[(row.name, row.version)]
  }

  function EdgeOf(lock: Lock, row: Row): (Key, Key)
    requires IsEdge(lock, row)
  {
    (lock[(row.parentName, row.parentVersion)], lock[(row.name, row.version)])
  }

  predicate RowsOk(lock: Lock, rows: seq<Row>) {
    && (forall r <- rows :: IsPackage(lock, r) || IsEdge(lock, r))
    && (forall i, j | 0 <= i < j < |rows| && IsPackage(lock, rows[i]) && IsPackage(lock, rows[j]) ::
          KeyOf(lock, rows[i]) != KeyOf(lock, rows[j]))
    && (forall i, j | 0 <= i < j < |rows| && IsEdge(lock, rows[i]) && IsEdge(lock, rows[j]) ::
          EdgeOf(lock, rows[i]) != EdgeOf(lock, rows[j]))
  }

  /** The graph that the rows describe. */
  function Described(lock: Lock, rows: seq<Row>): TreeGraph {
    TreeGraph(
      set r | r in rows && IsPackage(lock, r) :: KeyOf(lock, r),
      set r | r in rows && IsPackage(lock, r) && r.normal == "true" :: KeyOf(lock, r),
      set r | r in rows && IsPackage(lock, r) && r.build == "true" :: KeyOf(lock, r),
      set r | r in rows && IsEdge(lock, r) :: EdgeOf(lock, r),
      set r | r in rows && IsPackage(lock, r) && r.root == "true" :: KeyOf(lock, r))
  }

  function AddPackage(g: TreeGraph, row: Row, key: Key): TreeGraph {
    g.(packages := g.packages + {key},
       normal := if row.normal == "true" then g.normal + {key} else g.normal,
       build := if row.build == "true" then g.build + {key} else g.build,
       roots := if row.root == "true" then g.roots + {key} else g.roots)
  }

  lemma DescribesNothing(lock: Lock)
    ensures RowsOk(lock, []) && Described(lock, []) == TreeGraph({}, {}, {}, {}, {})
  {
  }

  lemma DescribesPackage(lock: Lock, rows: seq<Row>, row: Row)
    requires IsPackage(lock, row)
    ensures Described(lock, rows + [row]) == AddPackage(Described(lock, rows), row, KeyOf(lock, row))
  {
    hide KeyOf, EdgeOf, Resolves, IsText;
    var g, g', h := Described(lock, rows), Described(lock, rows + [row]),
      AddPackage(Described(lock, rows), row, KeyOf(lock, row));
    assert row in rows + [row];
    assert forall r <- rows :: r in rows + [row];
    assert g'.packages == h.packages;
    assert g'.normal == h.normal;
    assert g'.build == h.build;
    assert g'.roots == h.roots;
    assert g'.edges == h.edges;
  }

  lemma DescribesEdge(lock: Lock, rows: seq<Row>, row: Row)
    requires IsEdge(lock, row)
    ensures var g := Described(lock, rows); Described(lock, rows + [row]) == g.(edges := g.edges + {EdgeOf(lock, row)})
  {
  }

  /** One more row is in order if and only if it names a new package or a new edge. */
  lemma RowFits(lock: Lock, rows: seq<Row>, row: Row)
    requires RowsOk(lock, rows)
    ensures IsPackage(lock, row) ==> !IsEdge(lock, row)
    ensures RowsOk(lock, rows + [row]) <==>
            || (IsPackage(lock, row) && KeyOf(lock, row) !in Described(lock, rows).packages)
            || (IsEdge(lock, row) && EdgeOf(lock, row) !in Described(lock, rows).edges)
  {
    hide KeyOf, EdgeOf, Resolves, IsText;
    var rows' := rows + [row];
    assert rows'[|rows|] == row && row in rows';
    assert forall r <- rows :: r in rows';
    if IsPackage(lock, row) && KeyOf(lock, row) in Described(lock, rows).packages {
      var i :| 0 <= i < |rows| && IsPackage(lock, rows[i]) && KeyOf(lock, rows[i]) == KeyOf(lock, row);
      assert rows'[i] == rows[i] && !RowsOk(lock, rows');
    }
    if IsEdge(lock, row) && EdgeOf(lock, row) in Described(lock, rows).edges {
      var i :| 0 <= i < |rows| && IsEdge(lock, rows[i]) && EdgeOf(lock, rows[i]) == EdgeOf(lock, row);
      assert rows'[i] == rows[i] && !RowsOk(lock, rows');
    }
  }

  lemma PrefixRowsOk(lock: Lock, rows: seq<Row>, n: nat)
    requires RowsOk(lock, rows) && n <= |rows|
    ensures RowsOk(lock, rows[..n])
  {
  }

  /** What the row checks alone establish about the described graph. */
  lemma DescribedFacts(lock: Lock, rows: seq<Row>)
    requires LockOk(lock) && RowsOk(lock, rows)
    ensures var g := Described(lock, rows);
            && g.normal + g.build == g.packages && g.roots <= g.packages
            && forall k <- g.packages :: (k.name, k.version) in lock && lock[(k.name, k.version)] == k
  {
  }

  /** The loader accepts exactly well-formed rows of a well-formed graph, and returns that graph. */
  method LoadCompactTree(lock: Lock, rows: seq<Row>) returns (r: Result<TreeGraph>)
    requires LockOk(lock)
    ensures r.Ok? <==> RowsOk(lock, rows) && WellFormed(lock, Described(lock, rows))
    ensures r.Ok? ==> r.value == Described(lock, rows)
  {
    hide Described, RowsOk, IsPackage, IsEdge, KeyOf, EdgeOf, Reaches, AddPackage, Closed;
    var g := TreeGraph({}, {}, {}, {}, {});
    DescribesNothing(lock);
    for n := 0 to |rows|
      invariant RowsOk(lock, rows[..n]) && g == Described(lock, rows[..n])
    {
      var row := rows[n];
      ghost var next := rows[..n + 1];
      assert next == rows[..n] + [row];
      RowFits(lock, rows[..n], row);
      if RowsOk(lock, rows) {
        PrefixRowsOk(lock, rows, n + 1);
      }
      if IsPackage(lock, row) {
        var key := KeyOf(lock, row);
        if key in g.packages {
          return Err(AuditError);
        }
        DescribesPackage(lock, rows[..n], row);
        g := AddPackage(g, row, key);
      } else if IsEdge(lock, row) {
        var edge := EdgeOf(lock, row);
        if edge in g.edges {
          return Err(AuditError);
        }
        DescribesEdge(lock, rows[..n], row);
        g := g.(edges := g.edges + {edge});
      } else {
        return Err(AuditError);
      }
    }
    assert rows[..|rows|] == rows;
    DescribedFacts(lock, rows);
    if g.packages == {} || g.roots == {} || !(Endpoints(g.edges) <= g.packages) {
      return Err(AuditError);
    }
    var reached := Closure(g.roots, g.edges);
    EdgesStayInside(g.edges, g.packages);
    ClosedHoldsReached(g.roots, g.edges, g.packages);
    if reached != g.packages {
      return Err(AuditError);
    }
    r := Ok(g);
  }

  lemma EdgesStayInside(edges: Edges, s: set<Key>)
    requires Endpoints(edges) <= s
    ensures Closed(edges, s)
  {
  }

  // ----- Round trip -----

  lemma RowsOfCompact(g: TreeGraph, packages: seq<Key>, edges: seq<(Key, Key)>)
    ensures var rows := CompactRows(g, packages, edges);
            && |rows| == |packages| + |edges|
            && (forall i | 0 <= i < |packages| :: rows[i] == PackageRow(g, packages[i]))
            && (forall i | 0 <= i < |edges| :: rows[|packages| + i] == EdgeRow(edges[i]))
  {
  }

  lemma PackageRowLoads(lock: Lock, g: TreeGraph, k: Key)
    requires WellFormed(lock, g) && k in g.packages
    ensures var row := PackageRow(g, k);
            && IsPackage(lock, row) && !IsEdge(lock, row) && KeyOf(lock, row) == k
            && (row.normal == "true" <==> k in g.normal) && (row.build == "true" <==> k in g.build)
            && (row.root == "true" <==> k in g.roots)
  {
  }

  lemma EdgeRowLoads(lock: Lock, g: TreeGraph, e: (Key, Key))
    requires WellFormed(lock, g) && e in g.edges
    ensures var row := EdgeRow(e); IsEdge(lock, row) && !IsPackage(lock, row) && EdgeOf(lock, row) == e
  {
  }

  /** Every printed row is in order, whatever the order of the rows. */
  lemma CompactIsOk(lock: Lock, g: TreeGraph, packages: seq<Key>, edges: seq<(Key, Key)>)
    requires WellFormed(lock, g) && Lists(packages, g.packages) && Lists(edges, g.edges)
    ensures RowsOk(lock, CompactRows(g, packages, edges))
  {
    hide IsPackage, IsEdge, KeyOf, EdgeOf, WellFormed, CompactRows, PackageRow, EdgeRow;
    var rows := CompactRows(g, packages, edges);
    RowsOfCompact(g, packages, edges);
    forall i | 0 <= i < |packages|
      ensures IsPackage(lock, rows[i]) && !IsEdge(lock, rows[i]) && KeyOf(lock, rows[i]) == packages[i]
    {
      PackageRowLoads(lock, g, packages[i]);
    }
    forall i | |packages| <= i < |rows|
      ensures IsEdge(lock, rows[i]) && !IsPackage(lock, rows[i]) && EdgeOf(lock, rows[i]) == edges[i - |packages|]
    {
      assert rows[|packages| + (i - |packages|)] == EdgeRow(edges[i - |packages|]);
      EdgeRowLoads(lock, g, edges[i - |packages|]);
    }
  }

  /** The printed rows describe the graph they were printed from. */
  lemma CompactDescribes(lock: Lock, g: TreeGraph, packages: seq<Key>, edges: seq<(Key, Key)>)
    requires WellFormed(lock, g) && Lists(packages, g.packages) && Lists(edges, g.edges)
    ensures Described(lock, CompactRows(g, packages, edges)) == g
  {
    hide IsPackage, IsEdge, KeyOf, EdgeOf, Reaches, Endpoints, CompactRows, PackageRow, EdgeRow;
    var rows := CompactRows(g, packages, edges);
    RowsOfCompact(g, packages, edges);
    forall r | r in rows
      ensures (IsPackage(lock, r) && !IsEdge(lock, r) && r == PackageRow(g, KeyOf(lock, r))
              && KeyOf(lock, r) in g.packages)
           || (IsEdge(lock, r) && !IsPackage(lock, r) && EdgeOf(lock, r) in g.edges)
    {
      var i :| 0 <= i < |rows| && rows[i] == r;
      if i < |packages| {
        PackageRowLoads(lock, g, packages[i]);
      } else {
        assert rows[|packages| + (i - |packages|)] == EdgeRow(edges[i - |packages|]);
        EdgeRowLoads(lock, g, edges[i - |packages|]);
      }
    }
    forall k | k in g.packages
      ensures PackageRow(g, k) in rows && IsPackage(lock, PackageRow(g, k)) && KeyOf(lock, PackageRow(g, k)) == k
      ensures var row := PackageRow(g, k);
              (row.normal == "true" <==> k in g.normal) && (row.build == "true" <==> k in g.build)
                                           && (row.root == "true" <==> k in g.roots)
    {
      var i :| 0 <= i < |packages| && packages[i] == k;
      assert rows[i] == PackageRow(g, k);
      PackageRowLoads(lock, g, k);
    }
    forall e | e in g.edges
      ensures EdgeRow(e) in rows && IsEdge(lock, EdgeRow(e)) && EdgeOf(lock, EdgeRow(e)) == e
    {
      var i :| 0 <= i < |edges| && edges[i] == e;
      assert rows[|packages| + i] == EdgeRow(e);
      EdgeRowLoads(lock, g, e);
    }
    var d := Described(lock, rows);
    assert d.packages == g.packages;
    assert d.normal == g.normal;
    assert d.build == g.build;
    assert d.roots == g.roots;
    assert d.edges == g.edges;
  }

  /** Every accepted tree survives compaction: the loader's checks pass and the identical graph comes back. */
  lemma CompactionRoundTrip(lines: seq<Line>, lock: Lock, packages: seq<Key>, edges: seq<(Key, Key)>)
    requires LockOk(lock) && Acceptable(lines, lock)
    requires var g := GraphOf(lines, lock, |lines|); Lists(packages, g.packages) && Lists(edges, g.edges)
    ensures var g := GraphOf(lines, lock, |lines|);
            var rows := CompactRows(g, packages, edges);
            RowsOk(lock, rows) && WellFormed(lock, Described(lock, rows)) && Described(lock, rows) == g
  {
    hide GraphOf, RowsOk, Described, WellFormed, CompactRows, Lists;
    var g := GraphOf(lines, lock, |lines|);
    ParsedIsWellFormed(lines, lock);
    CompactIsOk(lock, g, packages, edges);
    CompactDescribes(lock, g, packages, edges);
  }
}
