/** Captures by reference name: what a later step, or a resumed run, finds under a name. */
module JourneyReferences {
  import opened Shared
  import opened StringOrder
  import opened JourneyTemplate
  import opened JourneyLedger

  type Captures = map<string, Json>

  /** The references that the captures of one step id add. */
  function IdRefMap(id: string, captures: Captures): (m: map<string, Json>)
    ensures forall name <- captures :: RefName(id, name) in m && m[RefName(id, name)] == captures[name]
    ensures m.Keys == set name | name in captures :: RefName(id, name)
  {
    var keys := set name | name in captures :: RefName(id, name);
    assert forall name <- captures :: RefName(id, name)[|id| + 1..] == name;
    map k | k in keys :: captures[k[|id| + 1..]]
  }

  function StepRefMap(s: Step, captures: Captures): map<string, Json> {
    IdRefMap(s.id, captures)
  }

  /** The references after the first `|captures|` steps; a later capture replaces an earlier one of the same name. */
  function Refs(steps: seq<Step>, captures: seq<Captures>): map<string, Json>
    requires |captures| <= |steps|
  {
    if captures == [] then map[]
    else
      var n := |captures| - 1;
      Refs(steps, captures[..n]) + StepRefMap(steps[n], captures[n])
  }

  predicate AllValid(steps: seq<Step>, captures: seq<Captures>) {
    |captures| <= |steps| && forall i | 0 <= i < |captures| :: ValidCaptures(captures[i], steps[i])
  }

  lemma StepRefKeys(s: Step, captures: Captures)
    requires ValidCaptures(captures, s)
    ensures StepRefMap(s, captures).Keys == StepRefs(s)
  {
  }

  lemma {:induction false} RefsAreAvailable(steps: seq<Step>, captures: seq<Captures>)
    requires AllValid(steps, captures)
    ensures Refs(steps, captures).Keys == Available(steps, |captures|)
  {
    hide StepRefMap, StepRefs, ValidCaptures;
    if captures != [] {
      var n := |captures| - 1;
      RefsAreAvailable(steps, captures[..n]);
      StepRefKeys(steps[n], captures[n]);
    }
  }

  // ----- Where a name is found -----

  /** The last step before `i` that captures `k`. */
  predicate IsLast(steps: seq<Step>, i: nat, k: string, j: nat)
    requires i <= |steps|
  {
    j < i && k in StepRefs(steps[j]) && forall m | j < m < i :: k !in StepRefs(steps[m])
  }

  /** In plan order a name holds what the last step that captures it has captured. */
  lemma {:induction false} RefsFromLast(steps: seq<Step>, captures: seq<Captures>, k: string) returns (j: nat)
    requires AllValid(steps, captures) && k in Available(steps, |captures|)
    ensures IsLast(steps, |captures|, k, j)
    ensures k in Refs(steps, captures) && k in StepRefMap(steps[j], captures[j])
    ensures Refs(steps, captures)[k] == StepRefMap(steps[j], captures[j])[k]
  {
    hide StepRefMap, StepRefs, ValidCaptures;
    var n := |captures| - 1;
    StepRefKeys(steps[n], captures[n]);
    if k in StepRefs(steps[n]) {
      j := n;
    } else {
      j := RefsFromLast(steps, captures[..n], k);
    }
  }

  /**
   * Where a run finds `k` after `n` steps, if `before` of them were on file when it started: at the last step of its
   * own that captures `k`, and otherwise at the one on file with the greatest id, since the file is sorted by id.
   */
  predicate FoundAt(steps: seq<Step>, before: nat, n: nat, k: string, j: nat)
    requires n <= |steps|
  {
    && j < n && k in StepRefs(steps[j])
    && forall m | 0 <= m < n && m != j && k in StepRefs(steps[m]) ::
         if before <= j then m < j else m < before && Less(steps[m].id, steps[j].id)
  }

  ghost predicate Holds(
    steps: seq<Step>, captures: seq<Captures>, before: nat, refs: map<string, Json>, k: string, j: nat)
    requires |captures| <= |steps| && k in refs
  {
    && FoundAt(steps, before, |captures|, k, j)
    && k in StepRefMap(steps[j], captures[j]) && refs[k] == StepRefMap(steps[j], captures[j])[k]
  }

  /** The references of such a run. */
  ghost predicate Served(steps: seq<Step>, captures: seq<Captures>, before: nat, refs: map<string, Json>)
    requires |captures| <= |steps|
  {
    && refs.Keys == Available(steps, |captures|)
    && forall k <- refs :: exists j :: Holds(steps, captures, before, refs, k, j)
  }

  /** The file and the steps since then determine the references. */
  lemma ServedIsUnique(
    steps: seq<Step>, captures: seq<Captures>, before: nat, refs: map<string, Json>, refs': map<string, Json>)
    requires |captures| <= |steps| && Served(steps, captures, before, refs) && Served(steps, captures, before, refs')
    ensures refs' == refs
  {
    hide StepRefMap, StepRefs, Less, Available;
    forall k | k in refs
      ensures refs'[k] == refs[k]
    {
      var j: nat :| Holds(steps, captures, before, refs, k, j);
      var j': nat :| Holds(steps, captures, before, refs', k, j');
      LessIsTotal(steps[j].id, steps[j'].id);
    }
  }

  /** A run that records another step adds what the step has captured. */
  lemma ServedMore(steps: seq<Step>, captures: seq<Captures>, before: nat, refs: map<string, Json>, more: Captures)
    requires AllValid(steps, captures + [more]) && before <= |captures| && Served(steps, captures, before, refs)
    ensures Served(steps, captures + [more], before, refs + StepRefMap(steps[|captures|], more))
  {
    hide StepRefMap, StepRefs, ValidCaptures, Less;
    var n, all := |captures|, captures + [more];
    var refs' := refs + StepRefMap(steps[n], more);
    assert all[n] == more;
    StepRefKeys(steps[n], more);
    forall k | k in refs'
      ensures exists j :: Holds(steps, all, before, refs', k, j)
    {
      if k in StepRefs(steps[n]) {
        assert Holds(steps, all, before, refs', k, n);
      } else {
        var j :| Holds(steps, captures, before, refs, k, j);
        assert Holds(steps, all, before, refs', k, j);
      }
    }
  }

  // ----- Shadowed names -----

  /** Every other step that captures `k` has a smaller id than step `j`. */
  predicate Greatest(steps: seq<Step>, k: string, j: nat)
    requires j < |steps|
  {
    forall m | 0 <= m < |steps| && m != j && k in StepRefs(steps[m]) :: Less(steps[m].id, steps[j].id)
  }

  /** Of the steps that capture a name which some step looks up, the last before that step has the greatest id. */
  predicate Unshadowed(steps: seq<Step>) {
    forall i, j | 0 <= j < i < |steps| :: forall k <- StepRefs(steps[j]) ::
      StepUses(steps[i], k) && IsLast(steps, i, k, j) ==> Greatest(steps, k, j)
  }

  /** No two steps capture the same name. */
  predicate DistinctRefs(steps: seq<Step>) {
    forall i, j | 0 <= i < j < |steps| :: StepRefs(steps[i]) !! StepRefs(steps[j])
  }

  lemma DistinctIsUnshadowed(steps: seq<Step>)
    requires DistinctRefs(steps)
    ensures Unshadowed(steps)
  {
    hide StepRefs, StepUses, Less;
    forall j, m | 0 <= j < |steps| && 0 <= m < |steps| && m != j
      ensures StepRefs(steps[j]) !! StepRefs(steps[m])
    {
      assert if m < j then StepRefs(steps[m]) !! StepRefs(steps[j]) else StepRefs(steps[j]) !! StepRefs(steps[m]);
    }
  }

  /** Step `i` is replayed, or is the next step, and looks up `k`. */
  ghost predicate LooksUp(
    steps: seq<Step>, captures: seq<Captures>, before: nat, refs: map<string, Json>, i: nat, k: string)
  {
    && AllValid(steps, captures) && before <= |captures| && i <= |captures| && i < |steps|
    && (i == |captures| || before == |captures|)
    && Served(steps, captures, before, refs)
    && StepUses(steps[i], k) && k in Available(steps, i)
  }

  /** The run finds what the steps before `i` had captured when step `i` was first sent. */
  ghost predicate SeesOriginal(steps: seq<Step>, captures: seq<Captures>, refs: map<string, Json>, i: nat, k: string)
  {
    i <= |captures| <= |steps| && k in refs && k in Refs(steps, captures[..i])
      && refs[k] == Refs(steps, captures[..i])[k]
  }

  /** Without shadowed names every lookup finds the original capture, however the runs were cut. */
  lemma LookupIsOriginal(
    steps: seq<Step>, captures: seq<Captures>, before: nat, refs: map<string, Json>, i: nat, k: string)
    requires Unshadowed(steps) && LooksUp(steps, captures, before, refs, i, k)
    ensures SeesOriginal(steps, captures, refs, i, k)
  {
    hide StepRefMap, StepRefs, ValidCaptures, StepUses, Less, Refs;
    var j := RefsFromLast(steps, captures[..i], k);
    AvailableHas(steps, |captures|, j);
    var found: nat :| Holds(steps, captures, before, refs, k, found);
    assert Greatest(steps, k, j);
    if found != j {
      LessIsTotal(steps[found].id, steps[j].id);
    }
  }

  lemma {:induction false} AvailableHas(steps: seq<Step>, n: nat, i: nat)
    requires i < n <= |steps|
    ensures StepRefs(steps[i]) <= Available(steps, n)
  {
    hide StepRefs;
    if i < n - 1 {
      AvailableHas(steps, n - 1, i);
    }
  }

  lemma {:induction false} GreatestSource(steps: seq<Step>, n: nat, k: string) returns (j: nat)
    requires n <= |steps| && k in Available(steps, n)
    requires forall i, j | 0 <= i < j < |steps| :: steps[i].id != steps[j].id
    ensures FoundAt(steps, n, n, k, j)
  {
    hide StepRefs, Less;
    if k !in Available(steps, n - 1) {
      j := n - 1;
      forall m | 0 <= m < n - 1
        ensures k !in StepRefs(steps[m])
      {
        AvailableHas(steps, n - 1, m);
      }
    } else {
      j := GreatestSource(steps, n - 1, k);
      if k in StepRefs(steps[n - 1]) {
        LessIsTotal(steps[j].id, steps[n - 1].id);
        if Less(steps[j].id, steps[n - 1].id) {
          forall m | 0 <= m < n - 1 && m != j && k in StepRefs(steps[m])
            ensures Less(steps[m].id, steps[n - 1].id)
          {
            LessIsTransitive(steps[m].id, steps[j].id, steps[n - 1].id);
          }
          j := n - 1;
        }
      }
    }
  }

  ghost function SourceOf(steps: seq<Step>, n: nat, k: string): (j: nat)
    requires n <= |steps| && k in Available(steps, n)
    requires forall i, j | 0 <= i < j < |steps| :: steps[i].id != steps[j].id
    ensures FoundAt(steps, n, n, k, j)
  {
    SourceExists(steps, n, k);
    var j: nat :| FoundAt(steps, n, n, k, j);
    j
  }

  lemma SourceExists(steps: seq<Step>, n: nat, k: string)
    requires n <= |steps| && k in Available(steps, n)
    requires forall i, j | 0 <= i < j < |steps| :: steps[i].id != steps[j].id
    ensures exists j: nat :: FoundAt(steps, n, n, k, j)
  {
    var j := GreatestSource(steps, n, k);
  }

  /** What a resume of all of `captures` gathers. */
  ghost function Gather(steps: seq<Step>, captures: seq<Captures>): (refs: map<string, Json>)
    requires AllValid(steps, captures)
    requires forall i, j | 0 <= i < j < |steps| :: steps[i].id != steps[j].id
  {
    var n := |captures|;
    map k | k in Available(steps, n) ::
      var j := SourceOf(steps, n, k);
      StepRefKeys(steps[j], captures[j]);
      StepRefMap(steps[j], captures[j])[k]
  }

  lemma GatherIsServed(steps: seq<Step>, captures: seq<Captures>)
    requires AllValid(steps, captures)
    requires forall i, j | 0 <= i < j < |steps| :: steps[i].id != steps[j].id
    ensures Served(steps, captures, |captures|, Gather(steps, captures))
  {
    hide StepRefMap, StepRefs, ValidCaptures, Less, SourceOf;
    var refs := Gather(steps, captures);
    forall k | k in refs
      ensures exists j :: Holds(steps, captures, |captures|, refs, k, j)
    {
      var j := SourceOf(steps, |captures|, k);
      StepRefKeys(steps[j], captures[j]);
      assert Holds(steps, captures, |captures|, refs, k, j);
    }
  }

  /** Two valid values for every capture type; no `Lo` equals any `Hi`. */
  function Lo(t: CaptureType): Json {
    match t
    case BooleanType => Bool(false)
    case IntegerType => Num(0)
    case DigestType => Str(ZeroDigest())
    case _ => Str("a")
  }

  function Hi(t: CaptureType): (j: Json)
    ensures ValidCapture(j, t) && forall u :: j != Lo(u)
  {
    match t
    case BooleanType => Bool(true)
    case IntegerType => Num(1)
    case DigestType => OneIsNotZero(); Str(['1'] + Zeros(63))
    case _ => Str("b")
  }

  lemma OneIsNotZero()
    ensures IsDigest(['1'] + Zeros(63)) && ['1'] + Zeros(63) != ZeroDigest()
  {
    assert (['1'] + Zeros(63))[0] == '1';
    assert ZeroDigest()[0] in ZeroDigest();
  }

  function Sample(steps: seq<Step>, n: nat, last: nat): (captures: seq<Captures>)
    requires n <= |steps|
    ensures |captures| == n && AllValid(steps, captures)
    ensures forall i | 0 <= i < n :: forall name <- captures[i] ::
              captures[i][name] == if i == last then Hi(steps[i].capture[name]) else Lo(steps[i].capture[name])
  {
    seq(n, i requires 0 <= i < n =>
      map name | name in steps[i].capture ::
        if i == last then Hi(steps[i].capture[name]) else Lo(steps[i].capture[name]))
  }

  /** Only the chosen step of a sample has `Hi` values. */
  lemma SampleDiffers(steps: seq<Step>, i: nat, j: nat, k: string)
    requires i < |steps| && j < |steps| && i != j && k in StepRefs(steps[i]) && k in StepRefs(steps[j])
    ensures var captures := Sample(steps, |steps|, j);
            && k in StepRefMap(steps[i], captures[i]) && k in StepRefMap(steps[j], captures[j])
            && StepRefMap(steps[i], captures[i])[k] != StepRefMap(steps[j], captures[j])[k]
  {
    hide Hi, Lo, RefName;
    var captures := Sample(steps, |steps|, j);
    var a :| a in steps[i].capture && RefName(steps[i].id, a) == k;
    var b :| b in steps[j].capture && RefName(steps[j].id, b) == k;
    assert captures[i][a] == Lo(steps[i].capture[a]);
    assert captures[j][b] == Hi(steps[j].capture[b]);
  }

  /** A shadowed name makes a completed run be replayed with another value. */
  lemma ShadowedSample(steps: seq<Step>, i: nat, j: nat, k: string)
    returns (captures: seq<Captures>, refs: map<string, Json>)
    requires forall i, j | 0 <= i < j < |steps| :: steps[i].id != steps[j].id
    requires i < |steps| && IsLast(steps, i, k, j) && StepUses(steps[i], k) && !Greatest(steps, k, j)
    ensures LooksUp(steps, captures, |captures|, refs, i, k) && !SeesOriginal(steps, captures, refs, i, k)
  {
    hide StepRefMap, StepRefs, ValidCaptures, StepUses, Less, Refs, Sample, Gather;
    captures := Sample(steps, |steps|, j);
    refs := Gather(steps, captures);
    GatherIsServed(steps, captures);
    AvailableHas(steps, i, j);
    AvailableHas(steps, |steps|, j);
    var last := RefsFromLast(steps, captures[..i], k);
    var found: nat :| Holds(steps, captures, |captures|, refs, k, found);
    SampleDiffers(steps, found, j, k);
  }

  /** Every lookup of every run finds the original capture if and only if no name is shadowed. */
  lemma LookupsAreStableIff(steps: seq<Step>)
    requires forall i, j | 0 <= i < j < |steps| :: steps[i].id != steps[j].id
    ensures (forall captures, before: nat, refs, i: nat, k | LooksUp(steps, captures, before, refs, i, k) ::
               SeesOriginal(steps, captures, refs, i, k))
            <==> Unshadowed(steps)
  {
    hide StepRefs, StepUses, LooksUp, SeesOriginal, Greatest;
    if Unshadowed(steps) {
      forall captures, before: nat, refs, i: nat, k | LooksUp(steps, captures, before, refs, i, k)
        ensures SeesOriginal(steps, captures, refs, i, k)
      {
        LookupIsOriginal(steps, captures, before, refs, i, k);
      }
    } else {
      var i, j, k :| 0 <= j < i < |steps| && k in StepRefs(steps[j])
                     && StepUses(steps[i], k) && IsLast(steps, i, k, j) && !Greatest(steps, k, j);
      var captures, refs := ShadowedSample(steps, i, j, k);
    }
  }

  /** Dots are allowed in step ids and capture names, so different pairs can meet in one name. */
  lemma DotsCollide()
    ensures SafeId("a") && SafeId("a.b") && SafeId("b.c") && SafeId("c")
    ensures RefName("a.b", "c") == RefName("a", "b.c")
  {
  }

  // ----- Reading a ledger back -----

  /** The references gathered from the steps in `done`, in the order of their ids. */
  ghost predicate Gathered(steps: seq<Step>, captures: seq<Captures>, done: set<nat>, refs: map<string, Json>)
    requires |captures| <= |steps|
  {
    && (forall j <- done :: j < |captures| && StepRefs(steps[j]) <= refs.Keys)
    && forall k <- refs :: exists j <- done :: GatheredFrom(steps, captures, done, refs, k, j)
  }

  ghost predicate GatheredFrom(
    steps: seq<Step>, captures: seq<Captures>, done: set<nat>, refs: map<string, Json>, k: string, j: nat)
    requires k in refs
  {
    && j in done && j < |captures| && j < |steps| && k in StepRefs(steps[j])
    && k in StepRefMap(steps[j], captures[j]) && refs[k] == StepRefMap(steps[j], captures[j])[k]
    && forall m <- done :: m < |steps| && m != j && k in StepRefs(steps[m]) ==> Less(steps[m].id, steps[j].id)
  }

  lemma GatheredMore(steps: seq<Step>, captures: seq<Captures>, done: set<nat>, refs: map<string, Json>, i: nat)
    requires AllValid(steps, captures) && i < |captures| && i !in done
    requires Gathered(steps, captures, done, refs)
    requires forall j <- done :: j < |steps| && Less(steps[j].id, steps[i].id)
    ensures Gathered(steps, captures, done + {i}, refs + StepRefMap(steps[i], captures[i]))
  {
    hide StepRefMap, StepRefs, ValidCaptures, Less;
    var refs' := refs + StepRefMap(steps[i], captures[i]);
    StepRefKeys(steps[i], captures[i]);
    forall k | k in refs'
      ensures exists j <- done + {i} :: GatheredFrom(steps, captures, done + {i}, refs', k, j)
    {
      if k in StepRefs(steps[i]) {
        assert GatheredFrom(steps, captures, done + {i}, refs', k, i);
      } else {
        var j :| j in done && GatheredFrom(steps, captures, done, refs, k, j);
        assert GatheredFrom(steps, captures, done + {i}, refs', k, j);
      }
    }
  }

  lemma GatheredAll(steps: seq<Step>, captures: seq<Captures>, done: set<nat>, refs: map<string, Json>)
    requires AllValid(steps, captures)
    requires Gathered(steps, captures, done, refs) && forall i | 0 <= i < |captures| :: i in done
    ensures Served(steps, captures, |captures|, refs)
  {
    hide StepRefMap, StepRefs, ValidCaptures, Available, Less;
    forall k
      ensures k in refs <==> k in Available(steps, |captures|)
      ensures k in refs ==> exists j :: Holds(steps, captures, |captures|, refs, k, j)
    {
      if k in refs {
        var j :| j in done && GatheredFrom(steps, captures, done, refs, k, j);
        AvailableHas(steps, |captures|, j);
        assert Holds(steps, captures, |captures|, refs, k, j);
      } else if k in Available(steps, |captures|) {
        RefsAreAvailable(steps, captures);
        var j := RefsFromLast(steps, captures, k);
      }
    }
  }
}
