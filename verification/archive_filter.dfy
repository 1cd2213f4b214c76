/** The filter expression that names exact tests, and its batches of bounded size. */
module ArchiveFilter {
  import opened ArchiveOrder

  // ----- Printing -----

  function EscapeChar(c: char): string {
    if c in "\\)," then ['\\', c] else [c]
  }

  function Escape(s: string): string {
    if s == "" then "" else EscapeChar(s[0]) + Escape(s[1..])
  }

  const OPEN := "(binary_id(="
  const MIDDLE := ") & test(="
  const CLOSE := "))"
  const OR := " | "

  function Term(id: TestId): string {
    OPEN + Escape(id.binary) + MIDDLE + Escape(id.name) + CLOSE
  }

  function Filterset(ids: seq<TestId>): string {
    if ids == [] then ""
    else if |ids| == 1 then Term(ids[0])
    else Term(ids[0]) + OR + Filterset(ids[1..])
  }

  // ----- Reading back -----

  /** The text up to the first unescaped closing parenthesis, unescaped, and what follows. */
  function ReadField(s: string): (r: (string, string))
    ensures |r.1| <= |s|
  {
    if s == "" || s[0] == ')' then ("", s)
    else if s[0] == '\\' && |s| > 1 then
      var r := ReadField(s[2..]);
      ([s[1]] + r.0, r.1)
    else
      var r := ReadField(s[1..]);
      ([s[0]] + r.0, r.1)
  }

  function Skip(s: string, n: nat): (r: string)
    ensures |r| <= |s| && (s != "" && n > 0 ==> |r| < |s|)
  {
    if n <= |s| then s[n..] else ""
  }

  function ReadTerm(s: string): (r: (TestId, string))
    ensures s != "" ==> |r.1| < |s|
  {
    var binary := ReadField(Skip(s, |OPEN|));
    var name := ReadField(Skip(binary.1, |MIDDLE|));
    (TestId(binary.0, name.0), Skip(name.1, |CLOSE|))
  }

  function ReadTerms(s: string): seq<TestId>
    decreases |s|
  {
    if s == "" then []
    else
      var t := ReadTerm(s);
      [t.0] + ReadTerms(Skip(t.1, |OR|))
  }

  lemma CharIsReadBack(c: char, tail: string)
    ensures var r := ReadField(tail); ReadField(EscapeChar(c) + tail) == ([c] + r.0, r.1)
  {
  }

  lemma {:induction false} FieldIsReadBack(s: string, rest: string)
    requires rest != "" && rest[0] == ')'
    ensures ReadField(Escape(s) + rest) == (s, rest)
  {
    hide EscapeChar;
    if s == "" {
      assert Escape(s) + rest == rest;
    } else {
      var tail := Escape(s[1..]) + rest;
      assert Escape(s) + rest == EscapeChar(s[0]) + tail;
      CharIsReadBack(s[0], tail);
      FieldIsReadBack(s[1..], rest);
      assert [s[0]] + s[1..] == s;
    }
  }

  lemma TermIsReadBack(id: TestId, rest: string)
    ensures Term(id) != "" && ReadTerm(Term(id) + rest) == (id, rest)
  {
    hide Escape, ReadField;
    var afterName := CLOSE + rest;
    var afterBinary := MIDDLE + (Escape(id.name) + afterName);
    assert Term(id) + rest == OPEN + (Escape(id.binary) + afterBinary);
    FieldIsReadBack(id.binary, afterBinary);
    assert afterBinary[|MIDDLE|..] == Escape(id.name) + afterName;
    FieldIsReadBack(id.name, afterName);
    assert afterName[|CLOSE|..] == rest;
  }

  lemma {:induction false} TermsAreReadBack(ids: seq<TestId>)
    ensures ReadTerms(Filterset(ids)) == ids
  {
    hide Term, ReadTerm;
    if |ids| == 1 {
      assert Term(ids[0]) + "" == Term(ids[0]);
      TermIsReadBack(ids[0], "");
    } else if |ids| > 1 {
      var rest := OR + Filterset(ids[1..]);
      assert Filterset(ids) == Term(ids[0]) + rest;
      TermIsReadBack(ids[0], rest);
      assert rest[|OR|..] == Filterset(ids[1..]);
      TermsAreReadBack(ids[1..]);
    }
  }

  /** Different lists of tests are printed differently, whatever characters their names hold. */
  lemma FiltersetIsInjective(a: seq<TestId>, b: seq<TestId>)
    requires Filterset(a) == Filterset(b)
    ensures a == b
  {
    TermsAreReadBack(a);
    TermsAreReadBack(b);
  }

  // ----- Batches -----

  const LIMIT := 24000

  /** The length of the UTF-8 encoding. */
  function Bytes(s: string): nat {
    if s == "" then 0 else Bytes(s[1..]) + CharBytes(s[0])
  }

  function CharBytes(c: char): nat {
    var n := c as int;
    if n < 0x80 then 1 else if n < 0x800 then 2 else if n < 0x10000 then 3 else 4
  }

  function Size(ids: seq<TestId>): nat {
    Bytes(Filterset(ids))
  }

  function Flatten(batches: seq<seq<TestId>>): seq<TestId> {
    if batches == [] then [] else Flatten(batches[..|batches| - 1]) + batches[|batches| - 1]
  }

  /** No batch is empty, and only a single test may exceed the limit. */
  predicate FitsOne(batch: seq<TestId>) {
    batch != [] && (|batch| > 1 ==> Size(batch) <= LIMIT)
  }

  predicate Fits(batches: seq<seq<TestId>>) {
    forall i | 0 <= i < |batches| :: FitsOne(batches[i])
  }

  /** The batch could not have taken the first test of the next one. */
  predicate Full(batch: seq<TestId>, next: seq<TestId>) {
    next != [] && Size(batch + next[..1]) > LIMIT
  }

  predicate Greedy(batches: seq<seq<TestId>>) {
    forall i, j | 0 <= i < |batches| && j == i + 1 < |batches| :: Full(batches[i], batches[j])
  }

  lemma MoreBatches(batches: seq<seq<TestId>>, batch: seq<TestId>)
    requires Fits(batches) && Greedy(batches) && FitsOne(batch)
    requires batches != [] ==> Full(batches[|batches| - 1], batch)
    ensures Fits(batches + [batch]) && Greedy(batches + [batch])
    ensures Flatten(batches + [batch]) == Flatten(batches) + batch
  {
    hide FitsOne, Full;
    FlattenMore(batches, batch);
    assert Fits(batches + [batch]) by { hide Flatten, Greedy; }
    assert Greedy(batches + [batch]) by { hide Flatten, Fits; }
  }

  lemma FlattenMore(batches: seq<seq<TestId>>, batch: seq<TestId>)
    ensures Flatten(batches + [batch]) == Flatten(batches) + batch
  {
  }

  lemma NoBatches()
    ensures Flatten([]) == [] && Fits([]) && Greedy([])
  {
  }

  /** What one more test does to the current batch and to the batch before it. */
  lemma ExtendBatch(last: seq<TestId>, batch: seq<TestId>, id: TestId)
    ensures FitsOne(batch) ==> batch != []
    ensures FitsOne([id]) && (Size(batch + [id]) <= LIMIT ==> FitsOne(batch + [id]))
    ensures Full(last, batch) ==> Full(last, batch + [id])
    ensures Size(batch + [id]) > LIMIT ==> Full(batch, [id])
  {
    hide Size;
    assert batch != [] ==> (batch + [id])[..1] == batch[..1];
    assert [id][..1] == [id];
  }

  method Batches(ids: seq<TestId>) returns (batches: seq<seq<TestId>>)
    ensures Flatten(batches) == ids && Fits(batches) && Greedy(batches)
  {
    hide Size, FitsOne, Fits, Greedy, Flatten, Full;
    batches := [];
    var batch: seq<TestId> := [];
    NoBatches();
    for i := 0 to |ids|
      invariant Flatten(batches) + batch == ids[..i] && Fits(batches) && Greedy(batches)
      invariant if i == 0 then batch == [] && batches == [] else FitsOne(batch)
      invariant batches != [] ==> Full(batches[|batches| - 1], batch)
    {
      assert ids[..i + 1] == ids[..i] + [ids[i]];
      ExtendBatch(if batches == [] then [] else batches[|batches| - 1], batch, ids[i]);
      assert [] + [ids[i]] == [ids[i]];
      if batch != [] && Size(batch + [ids[i]]) > LIMIT {
        MoreBatches(batches, batch);
        batches := batches + [batch];
        batch := [];
      }
      batch := batch + [ids[i]];
    }
    assert ids[..|ids|] == ids;
    if batch != [] {
      MoreBatches(batches, batch);
      batches := batches + [batch];
    }
  }

  // ----- There is one greedy batching -----

  lemma {:induction false} BytesOfConcat(s: string, t: string)
    ensures Bytes(s + t) == Bytes(s) + Bytes(t)
  {
    if s == "" {
      assert s + t == t;
    } else {
      BytesOfConcat(s[1..], t);
      assert (s + t)[1..] == s[1..] + t;
    }
  }

  lemma {:induction false} LongerIsLarger(a: seq<TestId>, b: seq<TestId>)
    requires a <= b
    ensures Size(a) <= Size(b)
  {
    hide Term;
    if a != [] && a != b {
      LongerIsLarger(a[1..], b[1..]);
      BytesOfConcat(Term(b[0]) + OR, Filterset(b[1..]));
      BytesOfConcat(Term(b[0]), OR);
      if |a| > 1 {
        BytesOfConcat(Term(a[0]) + OR, Filterset(a[1..]));
      }
    }
  }

  lemma {:induction false} FlattenFirst(batches: seq<seq<TestId>>)
    requires batches != []
    ensures Flatten(batches) == batches[0] + Flatten(batches[1..])
  {
    hide Flatten;
    var n := |batches| - 1;
    var front, last := batches[..n], batches[n];
    assert batches == front + [last];
    FlattenMore(front, last);
    NoBatches();
    if n == 0 {
      assert front == [] && batches[1..] == [];
    } else {
      var rest := batches[1..n];
      FlattenFirst(front);
      FlattenMore(rest, last);
      assert front[1..] == rest && batches[1..] == rest + [last];
      assert (front[0] + Flatten(rest)) + last == front[0] + (Flatten(rest) + last);
    }
  }

  /** A greedy batching starts with the longest batch that fits. */
  lemma FirstIsLongest(a: seq<seq<TestId>>, b: seq<seq<TestId>>)
    requires a != [] && b != [] && Flatten(a) == Flatten(b) && Fits(a) && Fits(b) && Greedy(a)
    ensures |b[0]| <= |a[0]|
  {
    hide Size;
    FlattenFirst(a);
    FlattenFirst(b);
    if |a[0]| < |b[0]| {
      assert a[1..] != [];
      FlattenFirst(a[1..]);
      var longer := a[0] + a[1][..1];
      assert longer <= Flatten(a) by {
        assert Flatten(a) == a[0] + (a[1] + Flatten(a[1..][1..]));
        assert Flatten(a)[..|longer|] == longer;
      }
      assert b[0] <= Flatten(a) && |longer| <= |b[0]|;
      assert longer == b[0][..|longer|];
      assert Full(a[0], a[1]);
      LongerIsLarger(longer, b[0]);
    }
  }

  /** Fitting and greedy batches are determined by the tests. */
  lemma {:induction false} GreedyIsUnique(a: seq<seq<TestId>>, b: seq<seq<TestId>>)
    requires Flatten(a) == Flatten(b) && Fits(a) && Fits(b) && Greedy(a) && Greedy(b)
    ensures a == b
  {
    hide Size, FitsOne, Full;
    if a != [] && b != [] {
      FirstIsLongest(a, b);
      FirstIsLongest(b, a);
      FlattenFirst(a);
      FlattenFirst(b);
      assert a[0] == Flatten(a)[..|a[0]|] == b[0];
      assert Flatten(a[1..]) == Flatten(a)[|a[0]|..] == Flatten(b[1..]);
      GreedyIsUnique(a[1..], b[1..]);
      assert a == [a[0]] + a[1..] && b == [b[0]] + b[1..];
    } else {
      NonEmpty(a);
      NonEmpty(b);
    }
  }

  lemma NonEmpty(batches: seq<seq<TestId>>)
    requires Fits(batches)
    ensures Flatten(batches) == [] <==> batches == []
  {
  }
}
