/** The union length of time spans, computed by one sweep, and the totals of a delivery block built on it. */
module Intervals {
  import opened Wrappers
  import opened Shared

  /** The milliseconds from `start` up to, but not including, `stop`. */
  datatype Span = Span(start: int, stop: int)

  predicate Inside(s: Span, x: int) {
    s.start <= x < s.stop
  }

  function Points(s: Span): set<int> {
    set x | s.start <= x < s.stop && Inside(s, x)
  }

  /** The points that some span covers. */
  function Covered(spans: seq<Span>): set<int> {
    if spans == [] then {} else Covered(spans[..|spans| - 1]) + Points(spans[|spans| - 1])
  }

  function Length(s: Span): nat {
    if s.start < s.stop then s.stop - s.start else 0
  }

  function TotalLength(spans: seq<Span>): nat {
    if spans == [] then 0 else TotalLength(spans[..|spans| - 1]) + Length(spans[|spans| - 1])
  }

  lemma {:induction false} PointCount(s: Span)
    ensures |Points(s)| == Length(s)
    decreases Length(s)
  {
    if s.start < s.stop {
      var shorter := Span(s.start, s.stop - 1);
      PointCount(shorter);
      assert Points(s) == Points(shorter) + {s.stop - 1};
    } else {
      assert Points(s) == {};
    }
  }

  lemma {:induction false} CoveredHas(spans: seq<Span>)
    ensures forall x :: x in Covered(spans) <==> exists s <- spans :: x in Points(s)
  {
    if spans != [] {
      var n := |spans| - 1;
      CoveredHas(spans[..n]);
      assert spans == spans[..n] + [spans[n]];
    }
  }

  // ----- Sorting -----

  predicate AtMost(a: Span, b: Span) {
    a.start < b.start || (a.start == b.start && a.stop <= b.stop)
  }

  predicate Sorted(spans: seq<Span>) {
    forall i, j | 0 <= i < j < |spans| :: AtMost(spans[i], spans[j])
  }

  function Insert(s: Span, spans: seq<Span>): (r: seq<Span>)
    ensures multiset(r) == multiset(spans) + multiset{s}
  {
    if spans == [] || !AtMost(spans[0], s) then [s] + spans
    else
      assert spans == [spans[0]] + spans[1..];
      [spans[0]] + Insert(s, spans[1..])
  }

  function Sort(spans: seq<Span>): (r: seq<Span>)
    ensures multiset(r) == multiset(spans)
  {
    if spans == [] then []
    else
      assert spans == spans[..|spans| - 1] + [spans[|spans| - 1]];
      Insert(spans[|spans| - 1], Sort(spans[..|spans| - 1]))
  }

  lemma {:induction false} InsertSorts(s: Span, spans: seq<Span>)
    requires Sorted(spans)
    ensures Sorted(Insert(s, spans))
  {
    if spans != [] && AtMost(spans[0], s) {
      var rest := Insert(s, spans[1..]);
      InsertSorts(s, spans[1..]);
      forall x | x in rest
        ensures AtMost(spans[0], x)
      {
        assert x in multiset(rest);
        assert x == s || x in spans[1..];
      }
    }
  }

  lemma {:induction false} SortSorts(spans: seq<Span>)
    ensures Sorted(Sort(spans))
  {
    if spans != [] {
      SortSorts(spans[..|spans| - 1]);
      InsertSorts(spans[|spans| - 1], Sort(spans[..|spans| - 1]));
    }
  }

  // ----- The sweep -----

  /** After a sorted prefix, the points from the last start on are covered exactly up to `end`. */
  ghost predicate SweptTo(covered: set<int>, last: int, end: int) {
    (forall x <- covered :: x < end) && (forall x | last <= x < end :: x in covered)
  }

  /** A later span adds the points between the end of the sweep and its own stop. */
  lemma SweepSpan(covered: set<int>, last: int, end: int, s: Span)
    requires SweptTo(covered, last, end) && last <= s.start
    ensures |covered + Points(s)| == |covered| + Length(Span(Max(s.start, end), s.stop))
    ensures SweptTo(covered + Points(s), s.start, Max(s.stop, end))
  {
    var more := Points(Span(Max(s.start, end), s.stop));
    PointCount(Span(Max(s.start, end), s.stop));
    assert covered + Points(s) == covered + more;
    assert covered !! more;
  }

  /** The sweep counts every covered point once, whatever the spans and their order. */
  method UnionMs(spans: seq<Span>) returns (result: int)
    ensures result == |Covered(spans)|
  {
    hide Points, Covered, SweptTo;
    var sorted := Sort(spans);
    SortSorts(spans);
    NothingCovered();
    assert sorted[..0] == [];
    result := 0;
    var end := 0;
    for i := 0 to |sorted|
      invariant result == |Covered(sorted[..i])|
      invariant i > 0 ==> SweptTo(Covered(sorted[..i]), sorted[i - 1].start, end)
    {
      var s := sorted[i];
      CoveredMore(sorted, i);
      if i == 0 {
        FirstSpan(s);
      } else {
        SweepSpan(Covered(sorted[..i]), sorted[i - 1].start, end, s);
      }
      result := result + Max(0, s.stop - Max(s.start, if i > 0 then end else s.start));
      end := Max(s.stop, if i > 0 then end else s.stop);
    }
    assert sorted[..|sorted|] == sorted;
    OrderIsForgotten(sorted, spans);
  }

  lemma CoveredMore(spans: seq<Span>, i: nat)
    requires i < |spans|
    ensures Covered(spans[..i + 1]) == Covered(spans[..i]) + Points(spans[i])
  {
    assert spans[..i + 1][..i] == spans[..i];
  }

  lemma FirstSpan(s: Span)
    ensures |{} + Points(s)| == Length(s) && SweptTo({} + Points(s), s.start, s.stop)
  {
    PointCount(s);
    assert {} + Points(s) == Points(s);
  }

  lemma OrderIsForgotten(a: seq<Span>, b: seq<Span>)
    requires multiset(a) == multiset(b)
    ensures Covered(a) == Covered(b)
  {
    CoveredHas(a);
    CoveredHas(b);
    assert forall s :: s in a <==> s in multiset(a);
    assert forall s :: s in b <==> s in multiset(b);
  }

  // ----- Bounds -----

  lemma {:induction false} AtMostTotal(spans: seq<Span>)
    ensures |Covered(spans)| <= TotalLength(spans)
  {
    hide Points;
    if spans != [] {
      var n := |spans| - 1;
      AtMostTotal(spans[..n]);
      PointCount(spans[n]);
      UnionIsSmaller(Covered(spans[..n]), Points(spans[n]));
    }
  }

  lemma UnionIsSmaller(a: set<int>, b: set<int>)
    ensures |a + b| <= |a| + |b|
  {
  }

  lemma SubsetIsSmaller(a: set<int>, b: set<int>)
    requires a <= b
    ensures |a| <= |b|
  {
    assert b == a + (b - a);
  }

  // ----- Delivery blocks -----

  datatype Error = Blocked

  type Result<+T> = Fallible<T, Error>

  datatype Category = Wait | Integration | Build | Test | Deploy | Rework | Other(name: string)

  function CategoryAt(k: nat): Category {
    match k
    case 0 => Wait
    case 1 => Integration
    case 2 => Build
    case 3 => Test
    case 4 => Deploy
    case _ => Rework
  }

  lemma EveryCategory(c: Category) returns (k: nat)
    requires !c.Other?
    ensures k < 6 && CategoryAt(k) == c
  {
    k := match c case Wait => 0 case Integration => 1 case Build => 2 case Test => 3 case Deploy => 4 case Rework => 5;
  }

  datatype Block = Block(started: int, accepted: int, spans: seq<(Category, Span)>, notApplicable: set<Category>)

  datatype Totals = Totals(elapsed: int, unions: seq<int>, accounted: int)

  /** The spans of one category in their order. */
  function SpansOf(spans: seq<(Category, Span)>, c: Category): seq<Span> {
    if spans == [] then []
    else
      var n := |spans| - 1;
      SpansOf(spans[..n], c) + if spans[n].0 == c then [spans[n].1] else []
  }

  /** The spans of the first `k` categories. */
  function Listed(spans: seq<(Category, Span)>, k: nat): seq<Span>
    requires k <= 6
  {
    if k == 0 then [] else Listed(spans, k - 1) + SpansOf(spans, CategoryAt(k - 1))
  }

  predicate SpanOk(b: Block, s: (Category, Span)) {
    !s.0.Other? && b.started <= s.1.start <= s.1.stop <= b.accepted
  }

  /** A category has spans, or is declared not to apply. */
  predicate Measured(b: Block, c: Category) {
    SpansOf(b.spans, c) != [] || c in b.notApplicable
  }

  predicate BlockOk(b: Block) {
    && 0 <= b.started < b.accepted
    && (forall s <- b.spans :: SpanOk(b, s))
    && (forall c <- b.notApplicable :: !c.Other?)
    && (forall k: nat | k < 6 :: Measured(b, CategoryAt(k)))
  }

  lemma {:induction false} CoveredConcat(a: seq<Span>, b: seq<Span>)
    ensures Covered(a + b) == Covered(a) + Covered(b)
  {
    hide Points;
    if b == [] {
      assert a + b == a;
    } else {
      var n := |b| - 1;
      CoveredConcat(a, b[..n]);
      assert (a + b)[..|a + b| - 1] == a + b[..n];
    }
  }

  /** Each category is part of what is accounted, and the categories together are at least that. */
  lemma {:induction false} ListedBounds(spans: seq<(Category, Span)>, k: nat)
    requires k <= 6
    ensures forall i | 0 <= i < k :: |Covered(SpansOf(spans, CategoryAt(i)))| <= |Covered(Listed(spans, k))|
    ensures |Covered(Listed(spans, k))| <= SumUnions(spans, k)
  {
    hide Covered;
    if k > 0 {
      ListedBounds(spans, k - 1);
      var before, mine := Listed(spans, k - 1), SpansOf(spans, CategoryAt(k - 1));
      CoveredConcat(before, mine);
      UnionIsSmaller(Covered(before), Covered(mine));
      SubsetIsSmaller(Covered(before), Covered(before) + Covered(mine));
      SubsetIsSmaller(Covered(mine), Covered(before) + Covered(mine));
    } else {
      assert Covered([]) == {} by { NothingCovered(); }
    }
  }

  lemma NothingCovered()
    ensures Covered([]) == {}
  {
  }

  function SumUnions(spans: seq<(Category, Span)>, k: nat): int
    requires k <= 6
  {
    if k == 0 then 0 else SumUnions(spans, k - 1) + |Covered(SpansOf(spans, CategoryAt(k - 1)))|
  }

  lemma {:induction false} SpansOfOk(b: Block, spans: seq<(Category, Span)>, c: Category)
    requires forall s <- spans :: SpanOk(b, s)
    ensures forall s <- SpansOf(spans, c) :: b.started <= s.start && s.stop <= b.accepted
  {
    if spans != [] {
      SpansOfOk(b, spans[..|spans| - 1], c);
      assert spans[|spans| - 1] in spans;
    }
  }

  lemma {:induction false} ListedOk(b: Block, k: nat)
    requires k <= 6 && forall s <- b.spans :: SpanOk(b, s)
    ensures forall s <- Listed(b.spans, k) :: b.started <= s.start && s.stop <= b.accepted
  {
    if k > 0 {
      ListedOk(b, k - 1);
      SpansOfOk(b, b.spans, CategoryAt(k - 1));
    }
  }

  /** Spans inside a block cannot cover more than the block. */
  lemma InsideBlock(b: Block, spans: seq<Span>)
    requires b.started <= b.accepted && forall s <- spans :: b.started <= s.start && s.stop <= b.accepted
    ensures |Covered(spans)| <= b.accepted - b.started
  {
    var whole := Span(b.started, b.accepted);
    CoveredHas(spans);
    PointCount(whole);
    forall x | x in Covered(spans)
      ensures x in Points(whole)
    {
      var s :| s in spans && x in Points(s);
      assert Inside(whole, x);
    }
    SubsetIsSmaller(Covered(spans), Points(whole));
  }

  predicate Gathered(spans: seq<(Category, Span)>, m: map<Category, seq<Span>>) {
    forall k: nat | k < 6 :: CategoryAt(k) in m && m[CategoryAt(k)] == SpansOf(spans, CategoryAt(k))
  }

  lemma GatheredMore(spans: seq<(Category, Span)>, m: map<Category, seq<Span>>, s: (Category, Span))
    requires Gathered(spans, m) && s.0 in m
    ensures Gathered(spans + [s], m[s.0 := m[s.0] + [s.1]])
  {
  }

  method GatherSpans(b: Block) returns (ok: bool, m: map<Category, seq<Span>>)
    ensures ok == forall s <- b.spans :: SpanOk(b, s)
    ensures ok ==> Gathered(b.spans, m)
  {
    hide Gathered, SpanOk;
    m := map[Wait := [], Integration := [], Build := [], Test := [], Deploy := [], Rework := []];
    NoneGathered();
    for i := 0 to |b.spans|
      invariant forall s <- b.spans[..i] :: SpanOk(b, s)
      invariant Gathered(b.spans[..i], m)
    {
      var s := b.spans[i];
      assert b.spans[..i + 1] == b.spans[..i] + [s];
      if !SpanOk(b, s) {
        assert s in b.spans;
        return false, m;
      }
      CategoryIsGathered(b, b.spans[..i], m, s);
      GatheredMore(b.spans[..i], m, s);
      m := m[s.0 := m[s.0] + [s.1]];
    }
    assert b.spans[..|b.spans|] == b.spans;
    ok := true;
  }

  lemma NoneGathered()
    ensures Gathered([], map[Wait := [], Integration := [], Build := [], Test := [], Deploy := [], Rework := []])
  {
  }

  lemma CategoryIsGathered(b: Block, spans: seq<(Category, Span)>, m: map<Category, seq<Span>>, s: (Category, Span))
    requires Gathered(spans, m) && SpanOk(b, s)
    ensures s.0 in m
  {
    var k := EveryCategory(s.0);
  }

  /** The accounted total lies between the largest category and the elapsed time. */
  method DeliveryBlock(b: Block) returns (r: Result<Totals>)
    ensures r.Ok? <==> BlockOk(b)
    ensures r.Ok? ==> r.value.elapsed == b.accepted - b.started && r.value.accounted == |Covered(Listed(b.spans, 6))|
    ensures r.Ok? ==> |r.value.unions| == 6 && forall k | 0 <= k < 6 ::
              && r.value.unions[k] == |Covered(SpansOf(b.spans, CategoryAt(k)))|
              && r.value.unions[k] <= r.value.accounted <= r.value.elapsed
    ensures r.Ok? ==> r.value.accounted <= SumUnions(b.spans, 6)
  {
    hide Covered, SpansOf, SpanOk, CategoryAt, SumUnions;
    if !(0 <= b.started < b.accepted) {
      return Err(Blocked);
    }
    var fine, spans := GatherSpans(b);
    if !fine || exists c <- b.notApplicable :: c.Other? {
      return Err(Blocked);
    }
    var unions, all := [], [];
    for k := 0 to 6
      invariant forall j: nat | j < k :: Measured(b, CategoryAt(j))
      invariant all == Listed(b.spans, k) && |unions| == k
      invariant forall j: nat | j < k :: unions[j] == |Covered(SpansOf(b.spans, CategoryAt(j)))|
    {
      var c := CategoryAt(k);
      if spans[c] == [] && c !in b.notApplicable {
        return Err(Blocked);
      }
      var union := UnionMs(spans[c]);
      unions := unions + [union];
      all := all + spans[c];
    }
    var accounted := UnionMs(all);
    ListedBounds(b.spans, 6);
    ListedOk(b, 6);
    InsideBlock(b, all);
    r := Ok(Totals(b.accepted - b.started, unions, accounted));
  }
}
