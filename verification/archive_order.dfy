/** Test ids and rows in the order of their ids, sorting, and round-robin slices. */
module ArchiveOrder {
  import opened StringOrder

  datatype TestId = TestId(binary: string, name: string)

  datatype Row = Row(id: TestId, ignored: bool)

  // ----- The order of ids -----

  predicate Before(a: TestId, b: TestId) {
    Less(a.binary, b.binary) || (a.binary == b.binary && Less(a.name, b.name))
  }

  lemma BeforeIsTransitive(a: TestId, b: TestId, c: TestId)
    requires Before(a, b) && Before(b, c)
    ensures Before(a, c)
  {
    if Less(a.binary, b.binary) && Less(b.binary, c.binary) {
      LessIsTransitive(a.binary, b.binary, c.binary);
    } else if a.binary == b.binary == c.binary {
      LessIsTransitive(a.name, b.name, c.name);
    }
  }

  lemma BeforeIsTotal(a: TestId, b: TestId)
    ensures Before(a, b) || Before(b, a) || a == b
    ensures !(Before(a, b) && Before(b, a)) && !Before(a, a)
  {
    LessIsTotal(a.binary, b.binary);
    LessIsTotal(a.name, b.name);
  }

  // ----- Sorted rows -----

  /** Strictly ascending, so without duplicate ids. */
  predicate Ascending(rows: seq<Row>) {
    forall i, j | 0 <= i < j < |rows| :: Before(rows[i].id, rows[j].id)
  }

  predicate UniqueIds(rows: seq<Row>) {
    forall i, j | 0 <= i < j < |rows| :: rows[i].id != rows[j].id
  }

  /** A stable insertion: after every row that is not larger. */
  function Insert(r: Row, rows: seq<Row>): (s: seq<Row>)
    ensures multiset(s) == multiset(rows) + multiset{r}
  {
    if rows == [] || Before(r.id, rows[0].id) then
      assert [r] + rows == [r] + rows;
      [r] + rows
    else
      assert rows == [rows[0]] + rows[1..];
      [rows[0]] + Insert(r, rows[1..])
  }

  function Sort(rows: seq<Row>): (s: seq<Row>)
    ensures multiset(s) == multiset(rows)
  {
    if rows == [] then []
    else
      assert rows == rows[..|rows| - 1] + [rows[|rows| - 1]];
      Insert(rows[|rows| - 1], Sort(rows[..|rows| - 1]))
  }

  lemma {:induction false} InsertAscends(r: Row, rows: seq<Row>)
    requires Ascending(rows) && forall x <- rows :: x.id != r.id
    ensures Ascending(Insert(r, rows))
  {
    if rows != [] {
      BeforeIsTotal(r.id, rows[0].id);
      if Before(r.id, rows[0].id) {
        forall j | 0 < j < |rows|
          ensures Before(r.id, rows[j].id)
        {
          BeforeIsTransitive(r.id, rows[0].id, rows[j].id);
        }
      } else {
        var rest := Insert(r, rows[1..]);
        InsertAscends(r, rows[1..]);
        forall x | x in rest
          ensures Before(rows[0].id, x.id)
        {
          assert x in multiset(rest);
          assert x == r || x in rows[1..];
        }
      }
    }
  }

  /** Rows with different ids are sorted into ascending order. */
  lemma {:induction false} SortAscends(rows: seq<Row>)
    requires UniqueIds(rows)
    ensures Ascending(Sort(rows))
  {
    if rows != [] {
      var n := |rows| - 1;
      SortAscends(rows[..n]);
      forall x | x in Sort(rows[..n])
        ensures x.id != rows[n].id
      {
        assert x in multiset(Sort(rows[..n]));
        assert x in rows[..n];
      }
      InsertAscends(rows[n], Sort(rows[..n]));
    }
  }

  /** There is only one way to list a set of rows in ascending order. */
  lemma {:induction false} AscendingIsUnique(a: seq<Row>, b: seq<Row>)
    requires Ascending(a) && Ascending(b) && forall x :: x in a <==> x in b
    ensures a == b
  {
    assert a != [] ==> a[0] in b;
    assert b != [] ==> b[0] in a;
    if a != [] && b != [] {
      FirstIsLeast(a, b);
      forall x
        ensures x in a[1..] <==> x in b[1..]
      {
        InRest(a, x);
        InRest(b, x);
      }
      AscendingIsUnique(a[1..], b[1..]);
    }
  }

  lemma FirstIsLeast(a: seq<Row>, b: seq<Row>)
    requires Ascending(a) && Ascending(b) && a != [] && b != [] && forall x :: x in a <==> x in b
    ensures a[0] == b[0]
  {
    assert a[0] in b && b[0] in a;
    BeforeIsTotal(a[0].id, b[0].id);
  }

  lemma InRest(a: seq<Row>, x: Row)
    requires Ascending(a) && a != []
    ensures x in a[1..] <==> x in a && x != a[0]
  {
    if x in a[1..] {
      BeforeIsTotal(a[0].id, x.id);
    }
  }

  lemma SortOfAscending(rows: seq<Row>)
    requires Ascending(rows)
    ensures Sort(rows) == rows
  {
    AscendingIsUniqueIds(rows);
    SortAscends(rows);
    SameElements(Sort(rows), rows);
    AscendingIsUnique(Sort(rows), rows);
  }

  lemma AscendingIsUniqueIds(rows: seq<Row>)
    requires Ascending(rows)
    ensures UniqueIds(rows)
  {
    forall i, j | 0 <= i < j < |rows|
      ensures rows[i].id != rows[j].id
    {
      BeforeIsTotal(rows[i].id, rows[j].id);
    }
  }

  lemma SameElements(a: seq<Row>, b: seq<Row>)
    requires multiset(a) == multiset(b)
    ensures forall x :: x in a <==> x in b
  {
    forall x: Row
      ensures x in a <==> x in b
    {
      assert x in a <==> x in multiset(a);
      assert x in b <==> x in multiset(b);
    }
  }

  /** Sorting forgets how the rows were listed. */
  lemma SortForgetsOrder(a: seq<Row>, b: seq<Row>)
    requires UniqueIds(a) && UniqueIds(b) && forall x :: x in a <==> x in b
    ensures Sort(a) == Sort(b)
  {
    SortAscends(a);
    SortAscends(b);
    SameElements(Sort(a), a);
    SameElements(Sort(b), b);
    AscendingIsUnique(Sort(a), Sort(b));
  }

  // ----- Ids with multiplicity -----

  function IdList(rows: seq<Row>): (ids: seq<TestId>)
    ensures |ids| == |rows| && forall i | 0 <= i < |rows| :: ids[i] == rows[i].id
  {
    seq(|rows|, i requires 0 <= i < |rows| => rows[i].id)
  }

  function Ids(rows: seq<Row>): (m: multiset<TestId>)
    ensures |m| == |rows|
  {
    multiset(IdList(rows))
  }

  lemma IdsOfConcat(a: seq<Row>, b: seq<Row>)
    ensures Ids(a + b) == Ids(a) + Ids(b)
  {
    assert IdList(a + b) == IdList(a) + IdList(b);
  }

  lemma IdsOfOne(r: Row)
    ensures Ids([r]) == multiset{r.id}
  {
  }

  lemma IdsHave(rows: seq<Row>, r: Row)
    requires r in rows
    ensures r.id in Ids(rows)
  {
  }

  lemma IdsFrom(rows: seq<Row>, id: TestId) returns (i: nat)
    requires id in Ids(rows)
    ensures i < |rows| && rows[i].id == id
  {
    assert id in IdList(rows);
    i :| 0 <= i < |rows| && IdList(rows)[i] == id;
  }

  /** Unique ids are ids of multiplicity at most one. */
  lemma {:induction false} UniqueMeansOnce(rows: seq<Row>)
    ensures UniqueIds(rows) <==> forall id :: Ids(rows)[id] <= 1
  {
    if rows != [] {
      var n := |rows| - 1;
      var last, init := rows[n].id, rows[..n];
      assert rows == init + [rows[n]];
      IdsOfConcat(init, [rows[n]]);
      IdsOfOne(rows[n]);
      UniqueMeansOnce(init);
      assert UniqueIds(rows) <==> UniqueIds(init) && forall i | 0 <= i < n :: rows[i].id != last;
      if last in Ids(init) {
        var i := IdsFrom(init, last);
        assert rows[i].id == last && Ids(rows)[last] >= 2;
      } else {
        forall i | 0 <= i < n
          ensures rows[i].id != last
        {
          IdsHave(init, init[i]);
        }
        assert forall id :: Ids(rows)[id] == if id == last then 1 else Ids(init)[id];
      }
    }
  }

  /** Where the last of some values stands in another order of them. */
  lemma RemoveLast<T>(a: seq<T>, b: seq<T>) returns (i: nat)
    requires a != [] && multiset(a) == multiset(b)
    ensures i < |b| && b[i] == a[|a| - 1] && multiset(a[..|a| - 1]) == multiset(b[..i] + b[i + 1..])
  {
    var n := |a| - 1;
    assert a[n] in multiset(b);
    i :| 0 <= i < |b| && b[i] == a[n];
    assert a == a[..n] + [a[n]];
    assert b == b[..i] + [b[i]] + b[i + 1..];
    assert multiset(b) == multiset(b[..i] + b[i + 1..]) + multiset{a[n]};
    assert multiset(a[..n]) == multiset(a) - multiset{a[n]};
  }

  /** Listing the same rows in another order keeps the ids. */
  lemma {:induction false} IdsOfPermutation(a: seq<Row>, b: seq<Row>)
    requires multiset(a) == multiset(b)
    ensures Ids(a) == Ids(b)
  {
    hide Ids;
    if a == [] {
      assert |multiset(b)| == 0;
    } else {
      var n := |a| - 1;
      var i := RemoveLast(a, b);
      IdsOfPermutation(a[..n], b[..i] + b[i + 1..]);
      IdsWithout(a, n);
      IdsWithout(b, i);
      assert a[..n] + a[n + 1..] == a[..n];
    }
  }

  lemma IdsWithout(rows: seq<Row>, i: nat)
    requires i < |rows|
    ensures Ids(rows) == Ids(rows[..i] + rows[i + 1..]) + multiset{rows[i].id}
  {
    hide Ids;
    assert rows == rows[..i] + ([rows[i]] + rows[i + 1..]);
    IdsOfConcat(rows[..i], [rows[i]] + rows[i + 1..]);
    IdsOfConcat([rows[i]], rows[i + 1..]);
    IdsOfConcat(rows[..i], rows[i + 1..]);
    IdsOfOne(rows[i]);
  }

  /** Rows taken from a list of unique ids, with the same ids, are the same rows. */
  lemma SameIdsSameRows(a: seq<Row>, b: seq<Row>)
    requires Ids(a) == Ids(b) && UniqueIds(b) && forall x <- a :: x in b
    ensures UniqueIds(a) && |a| == |b| && Sort(a) == Sort(b) && forall x :: x in a <==> x in b
  {
    hide Ids, UniqueIds, Sort;
    UniqueMeansOnce(a);
    UniqueMeansOnce(b);
    forall x | x in b
      ensures x in a
    {
      IdsHave(b, x);
      var i := IdsFrom(a, x.id);
      OneRowPerId(b, x, a[i]);
    }
    assert |Ids(a)| == |a| && |Ids(b)| == |b|;
    SortForgetsOrder(a, b);
  }

  lemma OneRowPerId(rows: seq<Row>, x: Row, y: Row)
    requires UniqueIds(rows) && x in rows && y in rows && x.id == y.id
    ensures x == y
  {
  }

  // ----- Selecting by id -----

  /** The rows whose id is, or is not, among the given ones. */
  function Select(rows: seq<Row>, ids: set<TestId>, keep: bool): seq<Row> {
    if rows == [] then []
    else if (rows[0].id in ids) == keep then [rows[0]] + Select(rows[1..], ids, keep)
    else Select(rows[1..], ids, keep)
  }

  lemma {:induction false} SelectHas(rows: seq<Row>, ids: set<TestId>, keep: bool)
    ensures forall x :: x in Select(rows, ids, keep) <==> x in rows && (x.id in ids) == keep
  {
    if rows != [] {
      SelectHas(rows[1..], ids, keep);
      assert rows == [rows[0]] + rows[1..];
    }
  }

  lemma {:induction false} SelectOfConcat(a: seq<Row>, b: seq<Row>, ids: set<TestId>, keep: bool)
    ensures Select(a + b, ids, keep) == Select(a, ids, keep) + Select(b, ids, keep)
  {
    if a == [] {
      assert a + b == b;
    } else {
      SelectOfConcat(a[1..], b, ids, keep);
      assert (a + b)[1..] == a[1..] + b && (a + b)[0] == a[0];
      var rest, tail := Select(a[1..], ids, keep), Select(b, ids, keep);
      assert [a[0]] + (rest + tail) == ([a[0]] + rest) + tail;
    }
  }

  lemma SelectWithout(rows: seq<Row>, i: nat, ids: set<TestId>, keep: bool)
    requires i < |rows|
    ensures multiset(Select(rows, ids, keep))
            == multiset(Select(rows[..i] + rows[i + 1..], ids, keep)) + multiset(Select([rows[i]], ids, keep))
  {
    hide Select;
    var a, r, b := rows[..i], [rows[i]], rows[i + 1..];
    assert rows == (a + r) + b;
    SelectOfConcat(a + r, b, ids, keep);
    SelectOfConcat(a, r, ids, keep);
    SelectOfConcat(a, b, ids, keep);
  }

  lemma {:induction false} SelectOfPermutation(a: seq<Row>, b: seq<Row>, ids: set<TestId>, keep: bool)
    requires multiset(a) == multiset(b)
    ensures multiset(Select(a, ids, keep)) == multiset(Select(b, ids, keep))
  {
    if a == [] {
      assert |multiset(b)| == 0;
    } else {
      hide Select;
      var n := |a| - 1;
      var i := RemoveLast(a, b);
      SelectOfPermutation(a[..n], b[..i] + b[i + 1..], ids, keep);
      SelectWithout(a, n, ids, keep);
      SelectWithout(b, i, ids, keep);
      assert a[..n] + a[n + 1..] == a[..n];
    }
  }

  /** Selecting splits the ids in two. */
  lemma {:induction false} SelectSplits(rows: seq<Row>, ids: set<TestId>)
    ensures Ids(rows) == Ids(Select(rows, ids, true)) + Ids(Select(rows, ids, false))
  {
    hide Ids;
    if rows == [] {
      assert Ids([]) == multiset{};
    } else {
      var rest := rows[1..];
      var yes, no := Select(rest, ids, true), Select(rest, ids, false);
      SelectSplits(rest, ids);
      assert rows == [rows[0]] + rest;
      IdsOfConcat([rows[0]], rest);
      IdsOfConcat([rows[0]], yes);
      IdsOfConcat([rows[0]], no);
    }
  }

  lemma {:induction false} SelectAscends(rows: seq<Row>, ids: set<TestId>, keep: bool)
    requires Ascending(rows)
    ensures Ascending(Select(rows, ids, keep))
  {
    if rows != [] {
      SelectAscends(rows[1..], ids, keep);
      SelectHas(rows[1..], ids, keep);
      var rest := Select(rows[1..], ids, keep);
      forall x | x in rest
        ensures Before(rows[0].id, x.id)
      {
        assert x in rows[1..];
      }
    }
  }

  // ----- Round-robin slices -----

  /** Every `total`-th row, from row `p` on. */
  function Slice(rows: seq<Row>, p: nat, total: nat): (s: seq<Row>)
    requires total > 0
    ensures p < |rows| ==> s != []
    ensures forall x <- s :: x in rows
    decreases |rows| - p
  {
    if p >= |rows| then [] else [rows[p]] + Slice(rows, p + total, total)
  }

  /** Slices of one inventory differ in size by at most one. */
  lemma SlicesAreEven(rows: seq<Row>, p: nat, q: nat, total: nat)
    requires p <= q < total
    ensures |Slice(rows, q, total)| <= |Slice(rows, p, total)| <= |Slice(rows, q, total)| + 1
  {
    LaterIsShorter(rows, p, q, total);
    LaterIsShorter(rows, q, p + total, total);
  }

  lemma {:induction false} LaterIsShorter(rows: seq<Row>, p: nat, q: nat, total: nat)
    requires p <= q && total > 0
    ensures |Slice(rows, q, total)| <= |Slice(rows, p, total)|
    decreases |rows| - p
  {
    if q < |rows| {
      LaterIsShorter(rows, p + total, q + total, total);
    }
  }

  /** The ids of the first `n` slices. */
  function SliceIds(rows: seq<Row>, total: nat, n: nat): multiset<TestId>
    requires total > 0
  {
    if n == 0 then multiset{} else SliceIds(rows, total, n - 1) + Ids(Slice(rows, n - 1, total))
  }

  /** Whether the slice from `p` on takes row `n`. */
  predicate Hits(n: nat, p: nat, total: nat)
    requires total > 0
    decreases n - p
  {
    p == n || (p < n && Hits(n, p + total, total))
  }

  lemma {:induction false} SliceOfMore(rows: seq<Row>, r: Row, p: nat, total: nat)
    requires total > 0
    ensures Slice(rows + [r], p, total) == Slice(rows, p, total) + if Hits(|rows|, p, total) then [r] else []
    decreases |rows| - p
  {
    if p < |rows| {
      SliceOfMore(rows, r, p + total, total);
    }
  }

  lemma {:induction false} HitsShift(n: nat, p: nat, total: nat)
    requires total > 0
    ensures Hits(n + total, p + total, total) == Hits(n, p, total)
    decreases n - p
  {
    if p < n {
      HitsShift(n, p + total, total);
    }
  }

  /** The slice that takes row `n`. */
  function Lane(n: nat, total: nat): (l: nat)
    requires total > 0
    ensures l < total
  {
    if n < total then n else Lane(n - total, total)
  }

  /** Exactly one of the first `total` slices takes row `n`. */
  lemma {:induction false} OneLane(n: nat, total: nat, p: nat)
    requires p < total
    ensures Hits(n, p, total) <==> p == Lane(n, total)
  {
    if n >= total {
      OneLane(n - total, total, p);
      HitsShift(n - total, p, total);
    }
  }

  lemma {:induction false} SliceIdsOfMore(rows: seq<Row>, r: Row, total: nat, n: nat)
    requires n <= total && total > 0
    ensures SliceIds(rows + [r], total, n)
            == SliceIds(rows, total, n) + if Lane(|rows|, total) < n then multiset{r.id} else multiset{}
  {
    hide Ids, Slice, Hits, Lane;
    if n > 0 {
      SliceIdsOfMore(rows, r, total, n - 1);
      SliceOfMore(rows, r, n - 1, total);
      OneLane(|rows|, total, n - 1);
      IdsOfConcat(Slice(rows, n - 1, total), [r]);
      IdsOfOne(r);
      assert Slice(rows, n - 1, total) + [] == Slice(rows, n - 1, total);
    }
  }

  /** The slices together hold every id exactly as often as the rows do. */
  lemma {:induction false} SlicesCover(rows: seq<Row>, total: nat)
    requires total > 0
    ensures SliceIds(rows, total, total) == Ids(rows)
  {
    if rows == [] {
      EmptySlices(total, total);
    } else {
      var n := |rows| - 1;
      SlicesCover(rows[..n], total);
      assert rows == rows[..n] + [rows[n]];
      SliceIdsOfMore(rows[..n], rows[n], total, total);
      IdsOfConcat(rows[..n], [rows[n]]);
      IdsOfOne(rows[n]);
    }
  }

  lemma {:induction false} EmptySlices(total: nat, n: nat)
    requires total > 0
    ensures SliceIds([], total, n) == multiset{}
  {
    if n > 0 {
      EmptySlices(total, n - 1);
    }
  }
}
