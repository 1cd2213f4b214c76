/** The planner: groups by owner, cut into round-robin shards, always pass the plan's own check. */
module ArchivePlanner {
  import opened Wrappers
  import opened ArchiveOrder
  import opened ArchivePlan

  const COMPILER := "sentinel-daemon::runtime_lifecycle_visibility"

  /** For each ignored test function, the owners of its definitions in the sources. */
  type Definitions = map<string, seq<Owner>>

  /** What follows the last double colon, if there is one. */
  function AfterColons(name: string): Option<string> {
    if |name| < 2 then None
    else
      var later := AfterColons(name[1..]);
      if later.Some? then later else if name[..2] == "::" then Some(name[2..]) else None
  }

  function LastSegment(name: string): string {
    var after := AfterColons(name);
    if after.Some? then after.value else name
  }

  function Classify(definitions: Definitions, r: Row): Option<Owner> {
    if r.id.binary == COMPILER then Some(BuilderCompiler)
    else if !r.ignored then Some(LabNormal)
    else
      var segment := LastSegment(r.id.name);
      if segment in definitions && definitions[segment] != []
         && (forall owner <- definitions[segment] :: owner == definitions[segment][0])
      then Some(definitions[segment][0])
      else None
  }

  /** The source inventory assigns ignored tests to these owners only. */
  predicate DefinitionsOk(definitions: Definitions) {
    forall name <- definitions, owner <- definitions[name] ::
      owner in {LabIgnored, ProtectedDiagnostic, LiveSession, ManualBenchmark}
  }

  predicate Classified(definitions: Definitions, rows: seq<Row>) {
    forall r <- rows :: Classify(definitions, r).Some?
  }

  function Group(definitions: Definitions, rows: seq<Row>, owner: Owner): seq<Row> {
    if rows == [] then []
    else
      var n := |rows| - 1;
      Group(definitions, rows[..n], owner) + if Classify(definitions, rows[n]) == Some(owner) then [rows[n]] else []
  }

  // ----- Shards -----

  function Digits(n: nat): (s: string)
    ensures s != "" && forall c <- s :: '0' <= c <= '9'
  {
    if n < 10 then [('0' as int + n) as char] else Digits(n / 10) + [('0' as int + n % 10) as char]
  }

  lemma {:induction false} DigitsAreInjective(a: nat, b: nat)
    requires Digits(a) == Digits(b)
    ensures a == b
  {
    var s := Digits(a);
    if a >= 10 && b >= 10 {
      assert Digits(a / 10) == s[..|s| - 1] == Digits(b / 10);
      DigitsAreInjective(a / 10, b / 10);
      assert s[|s| - 1] == ('0' as int + a % 10) as char == ('0' as int + b % 10) as char;
    }
  }

  function OwnerName(owner: Owner): string {
    match owner
    case LabNormal => "lab-normal"
    case LabIgnored => "lab-ignored"
    case BuilderCompiler => "builder-compiler"
    case ProtectedDiagnostic => "protected-diagnostic"
    case LiveSession => "live-session"
    case ManualBenchmark => "manual-benchmark"
    case OtherOwner(name) => name
  }

  function ShardId(owner: Owner, p: nat): string {
    OwnerName(owner) + "-" + Digits(p)
  }

  lemma ShardIdsDiffer(a: Owner, p: nat, b: Owner, q: nat)
    requires a in SHARDED && b in SHARDED && (a != b || p != q)
    ensures ShardId(a, p) != ShardId(b, q)
  {
    if a == b {
      if ShardId(a, p) == ShardId(b, q) {
        var n := |OwnerName(a)| + 1;
        assert Digits(p) == ShardId(a, p)[n..] == ShardId(b, q)[n..] == Digits(q);
        DigitsAreInjective(p, q);
      }
    } else {
      assert ShardId(a, p)[4] != ShardId(b, q)[4];
    }
  }

  function NewShard(owner: Owner, rows: seq<Row>, p: nat, total: nat): Shard
    requires total > 0
  {
    var tests := Slice(rows, p, total);
    Shard(ShardId(owner, p), p, total, owner, |tests|, tests)
  }

  /** The first `k` of the `total` shards of an owner. */
  function Shards(owner: Owner, rows: seq<Row>, total: nat, k: nat): (r: seq<Shard>)
    requires k <= total
    ensures |r| == k && forall p | 0 <= p < k :: r[p] == NewShard(owner, rows, p, total)
  {
    if k == 0 then [] else Shards(owner, rows, total, k - 1) + [NewShard(owner, rows, k - 1, total)]
  }

  function Total(n: nat, rows: seq<Row>): nat {
    if n < |rows| then n else |rows|
  }

  lemma {:induction false} ShardIdsOf(owner: Owner, rows: seq<Row>, total: nat, k: nat)
    requires k <= total && total > 0
    ensures Ids(TestsOf(Shards(owner, rows, total, k))) == SliceIds(rows, total, k)
  {
    hide Ids, Slice;
    if k == 0 {
      assert Ids([]) == multiset{} by { assert IdList([]) == []; }
    } else {
      ShardIdsOf(owner, rows, total, k - 1);
      var shards := Shards(owner, rows, total, k);
      assert shards[..k - 1] == Shards(owner, rows, total, k - 1);
      IdsOfConcat(TestsOf(shards[..k - 1]), shards[k - 1].tests);
    }
  }

  lemma {:induction false} ShardsHoldRows(owner: Owner, rows: seq<Row>, total: nat, k: nat)
    requires k <= total
    ensures forall x <- TestsOf(Shards(owner, rows, total, k)) :: x in rows
  {
    if k > 0 {
      ShardsHoldRows(owner, rows, total, k - 1);
      var shards := Shards(owner, rows, total, k);
      assert shards[..k - 1] == Shards(owner, rows, total, k - 1);
    }
  }

  /** The shards of an owner rebuild its tests. */
  lemma ShardsRebuild(owner: Owner, rows: seq<Row>, n: nat)
    requires Ascending(rows) && n > 0
    ensures var shards := Shards(owner, rows, Total(n, rows), Total(n, rows));
            Sort(TestsOf(shards)) == rows && Ids(TestsOf(shards)) == Ids(rows)
  {
    hide Ids, Sort, Slice, Ascending;
    var total := Total(n, rows);
    if total > 0 {
      ShardIdsOf(owner, rows, total, total);
      SlicesCover(rows, total);
      ShardsHoldRows(owner, rows, total, total);
      AscendingIsUniqueIds(rows);
      SameIdsSameRows(TestsOf(Shards(owner, rows, total, total)), rows);
      SortOfAscending(rows);
    } else {
      assert rows == [] && Sort([]) == [] by { SortOfAscending(rows); }
    }
  }

  // ----- Groups -----

  lemma {:induction false} GroupHas(definitions: Definitions, rows: seq<Row>, owner: Owner)
    ensures forall x <- Group(definitions, rows, owner) :: x in rows && Classify(definitions, x) == Some(owner)
  {
    hide Classify;
    if rows != [] {
      GroupHas(definitions, rows[..|rows| - 1], owner);
    }
  }

  lemma {:induction false} GroupAscends(definitions: Definitions, rows: seq<Row>, owner: Owner)
    requires Ascending(rows)
    ensures Ascending(Group(definitions, rows, owner))
  {
    hide Classify, Before;
    if rows != [] {
      var n := |rows| - 1;
      GroupAscends(definitions, rows[..n], owner);
      GroupHas(definitions, rows[..n], owner);
      var init := Group(definitions, rows[..n], owner);
      forall x | x in init
        ensures Before(x.id, rows[n].id)
      {
        assert x in rows[..n];
      }
    }
  }

  function GroupIds(definitions: Definitions, rows: seq<Row>, owner: Owner): multiset<TestId> {
    Ids(Group(definitions, rows, owner))
  }

  lemma GroupIdsGrow(definitions: Definitions, rows: seq<Row>, owner: Owner)
    requires rows != []
    ensures var n := |rows| - 1;
            GroupIds(definitions, rows, owner)
            == Grown(GroupIds(definitions, rows[..n], owner), Classify(definitions, rows[n]) == Some(owner), rows[n].id)
  {
    hide Ids, Classify;
    var n := |rows| - 1;
    var init := Group(definitions, rows[..n], owner);
    IdsOfConcat(init, [rows[n]]);
    IdsOfOne(rows[n]);
    assert init + [] == init;
  }

  function OwnerAt(k: nat): Owner {
    match k
    case 0 => LabNormal
    case 1 => LabIgnored
    case 2 => BuilderCompiler
    case 3 => ProtectedDiagnostic
    case 4 => LiveSession
    case _ => ManualBenchmark
  }

  /** The ids of the groups of the owners from the `k`-th on. */
  function SumIds(definitions: Definitions, rows: seq<Row>, k: nat): multiset<TestId>
    decreases 6 - k
  {
    if k >= 6 then multiset{} else GroupIds(definitions, rows, OwnerAt(k)) + SumIds(definitions, rows, k + 1)
  }

  lemma OwnersDiffer(i: nat, j: nat)
    requires i < 6 && j < 6 && i != j
    ensures OwnerAt(i) != OwnerAt(j)
  {
  }

  lemma {:induction false} SumGrows(definitions: Definitions, rows: seq<Row>, owner: nat, k: nat)
    requires rows != [] && owner < 6 && Classify(definitions, rows[|rows| - 1]) == Some(OwnerAt(owner))
    ensures SumIds(definitions, rows, k)
            == Grown(SumIds(definitions, rows[..|rows| - 1], k), owner >= k, rows[|rows| - 1].id)
    decreases 6 - k
  {
    hide Classify, GroupIds, Grown, OwnerAt;
    var n := |rows| - 1;
    var id := rows[n].id;
    if k < 6 {
      SumGrows(definitions, rows, owner, k + 1);
      GroupIdsGrow(definitions, rows, OwnerAt(k));
      if owner != k {
        OwnersDiffer(owner, k);
      }
      GrownSum(
        GroupIds(definitions, rows[..n], OwnerAt(k)), owner == k, SumIds(definitions, rows[..n], k + 1), owner > k, id);
    } else {
      GrownSum(multiset{}, false, multiset{}, false, id);
    }
  }

  function Grown(m: multiset<TestId>, more: bool, id: TestId): multiset<TestId> {
    if more then m + multiset{id} else m
  }

  lemma GrownSum(a: multiset<TestId>, x: bool, b: multiset<TestId>, y: bool, id: TestId)
    requires !(x && y)
    ensures Grown(a, x, id) + Grown(b, y, id) == Grown(a + b, x || y, id)
    ensures Grown(a, false, id) == a
  {
  }

  /** Every test is in exactly one of the six groups. */
  lemma {:induction false} GroupsCover(definitions: Definitions, rows: seq<Row>)
    requires DefinitionsOk(definitions) && Classified(definitions, rows)
    ensures Ids(rows) == SumIds(definitions, rows, 0)
  {
    hide Ids, Classify, GroupIds;
    if rows == [] {
      NoGroups(definitions);
    } else {
      var n := |rows| - 1;
      GroupsCover(definitions, rows[..n]);
      OwnerIsKnown(definitions, rows[n]);
      var owner: nat :| owner < 6 && Classify(definitions, rows[n]) == Some(OwnerAt(owner));
      assert rows == rows[..n] + [rows[n]];
      IdsOfConcat(rows[..n], [rows[n]]);
      IdsOfOne(rows[n]);
      SumGrows(definitions, rows, owner, 0);
    }
  }

  lemma NoGroups(definitions: Definitions)
    ensures Ids([]) == multiset{} && SumIds(definitions, [], 0) == multiset{}
  {
  }

  lemma OwnerIsKnown(definitions: Definitions, r: Row)
    requires DefinitionsOk(definitions) && Classify(definitions, r).Some?
    ensures var owner := Classify(definitions, r).value;
            && (exists k: nat | k < 6 :: owner == OwnerAt(k))
            && (owner == LabNormal ==> !r.ignored) && (owner == LabIgnored ==> r.ignored)
  {
    hide LastSegment;
    var segment := LastSegment(r.id.name);
    if segment in definitions && definitions[segment] != [] {
      assert definitions[segment][0] in definitions[segment];
    }
    assert OwnerAt(0) == LabNormal && OwnerAt(1) == LabIgnored && OwnerAt(2) == BuilderCompiler;
    assert OwnerAt(3) == ProtectedDiagnostic && OwnerAt(4) == LiveSession && OwnerAt(5) == ManualBenchmark;
  }

  // ----- The plan -----

  function PlannedShards(definitions: Definitions, rows: seq<Row>, n: nat): seq<Shard> {
    var normal, ignored := Group(definitions, rows, LabNormal), Group(definitions, rows, LabIgnored);
    Shards(LabNormal, normal, Total(n, normal), Total(n, normal))
    + Shards(LabIgnored, ignored, Total(n, ignored), Total(n, ignored))
  }

  function Planned(
    h: Hash, identity: Identity, manifest: string, definitions: Definitions, rows: seq<Row>, n: nat): Plan
  {
    Plan(1, identity, manifest, h(Rows(rows)), |rows|, PlannedShards(definitions, rows, n),
         map[BuilderCompiler := Group(definitions, rows, BuilderCompiler),
             ProtectedDiagnostic := Group(definitions, rows, ProtectedDiagnostic),
             LiveSession := Group(definitions, rows, LiveSession),
             ManualBenchmark := Group(definitions, rows, ManualBenchmark)],
         None, "")
  }

  lemma {:induction false} TestsOfConcat(a: seq<Shard>, b: seq<Shard>)
    ensures TestsOf(a + b) == TestsOf(a) + TestsOf(b)
  {
    if b == [] {
      assert a + b == a;
    } else {
      var n := |b| - 1;
      var init, last := TestsOf(b[..n]), b[n].tests;
      TestsOfConcat(a, b[..n]);
      assert (a + b)[..|a + b| - 1] == a + b[..n];
      assert TestsOf(a + b) == (TestsOf(a) + init) + last;
      assert (TestsOf(a) + init) + last == TestsOf(a) + (init + last);
    }
  }

  lemma {:induction false} OwnedByConcat(a: seq<Shard>, b: seq<Shard>, owner: Owner)
    ensures OwnedBy(a + b, owner) == OwnedBy(a, owner) + OwnedBy(b, owner)
  {
    if b == [] {
      assert a + b == a;
    } else {
      OwnedByConcat(a, b[..|b| - 1], owner);
      assert (a + b)[..|a + b| - 1] == a + b[..|b| - 1];
    }
  }

  lemma {:induction false} OwnedByOne(shards: seq<Shard>, owner: Owner, asked: Owner)
    requires forall s <- shards :: s.owner == owner
    ensures OwnedBy(shards, asked) == if asked == owner then shards else []
  {
    if shards != [] {
      var n := |shards| - 1;
      OwnedByOne(shards[..n], owner, asked);
      assert shards[n] in shards && shards == shards[..n] + [shards[n]];
    }
  }

  lemma PlannedOwners(definitions: Definitions, rows: seq<Row>, n: nat, owner: Owner)
    requires owner in SHARDED
    ensures var group := Group(definitions, rows, owner);
            OwnedBy(PlannedShards(definitions, rows, n), owner)
              == Shards(owner, group, Total(n, group), Total(n, group))
  {
    hide Slice, Group;
    var normal, ignored := Group(definitions, rows, LabNormal), Group(definitions, rows, LabIgnored);
    var a := Shards(LabNormal, normal, Total(n, normal), Total(n, normal));
    var b := Shards(LabIgnored, ignored, Total(n, ignored), Total(n, ignored));
    OwnedByConcat(a, b, owner);
    OwnedByOne(a, LabNormal, owner);
    OwnedByOne(b, LabIgnored, owner);
  }

  lemma PartitionsAreOk(owner: Owner, rows: seq<Row>, total: nat)
    ensures PartitionsOk(Shards(owner, rows, total, total))
  {
    hide Slice;
    var shards := Shards(owner, rows, total, total);
    assert Partitions(shards) == Range(total);
  }

  lemma ShardsAreOk(definitions: Definitions, rows: seq<Row>, n: nat, owner: Owner)
    requires DefinitionsOk(definitions) && owner in SHARDED
    ensures var group := Group(definitions, rows, owner);
            forall s <- Shards(owner, group, Total(n, group), Total(n, group)) :: ShardOk(s)
  {
    hide Group, Classify;
    var group := Group(definitions, rows, owner);
    GroupHas(definitions, rows, owner);
    forall x | x in group
      ensures x.ignored == (owner == LabIgnored)
    {
      OwnerIsKnown(definitions, x);
    }
    forall s | s in Shards(owner, group, Total(n, group), Total(n, group))
      ensures ShardOk(s)
    {
      var p :| 0 <= p < Total(n, group) && s == NewShard(owner, group, p, Total(n, group));
    }
  }

  lemma RoundRobinHolds(owner: Owner, rows: seq<Row>, n: nat)
    requires Ascending(rows) && n > 0
    ensures var shards := Shards(owner, rows, Total(n, rows), Total(n, rows)); RoundRobin(shards, Sort(TestsOf(shards)))
  {
    hide Slice, Sort, Ascending;
    ShardsRebuild(owner, rows, n);
  }

  lemma PlannedIdsDiffer(definitions: Definitions, rows: seq<Row>, n: nat)
    ensures DistinctIds(PlannedShards(definitions, rows, n))
  {
    hide Slice, ShardId, Group;
    var shards := PlannedShards(definitions, rows, n);
    var k := Total(n, Group(definitions, rows, LabNormal));
    forall i, j | 0 <= i < j < |shards|
      ensures shards[i].id != shards[j].id
    {
      ShardIdsDiffer(if i < k then LabNormal else LabIgnored, if i < k then i else i - k,
                     if j < k then LabNormal else LabIgnored, if j < k then j else j - k);
    }
  }

  lemma NonShardedIds(m: map<Owner, seq<Row>>)
    ensures Ids(NonShardedRows(m)) == Ids(Held(m, BuilderCompiler)) + Ids(Held(m, ProtectedDiagnostic))
                                      + Ids(Held(m, LiveSession)) + Ids(Held(m, ManualBenchmark))
  {
    hide Ids, Held;
    var a, b, c, d := Held(m, BuilderCompiler), Held(m, ProtectedDiagnostic), Held(m, LiveSession),
      Held(m, ManualBenchmark);
    IdsOfConcat(a, b);
    IdsOfConcat(a + b, c);
    IdsOfConcat(a + b + c, d);
  }

  lemma SumIsSix(definitions: Definitions, rows: seq<Row>)
    ensures SumIds(definitions, rows, 0)
            == GroupIds(definitions, rows, LabNormal) + GroupIds(definitions, rows, LabIgnored)
            + (GroupIds(definitions, rows, BuilderCompiler) + GroupIds(definitions, rows, ProtectedDiagnostic)
               + GroupIds(definitions, rows, LiveSession) + GroupIds(definitions, rows, ManualBenchmark))
  {
  }

  /** The plan holds every test of the inventory once, and sorting it gives the inventory back. */
  lemma PlannedRows(h: Hash, identity: Identity, manifest: string, definitions: Definitions, rows: seq<Row>, n: nat)
    requires Ascending(rows) && DefinitionsOk(definitions) && Classified(definitions, rows) && n > 0
    ensures var all := AllRows(Planned(h, identity, manifest, definitions, rows, n));
            UniqueIds(all) && |all| == |rows| && Sort(all) == rows
  {
    hide Ids, Sort, Ascending, UniqueIds, Classify, Slice, Group, Classified, DefinitionsOk, SumIds;
    var d := Planned(h, identity, manifest, definitions, rows, n);
    var normal, ignored := Group(definitions, rows, LabNormal), Group(definitions, rows, LabIgnored);
    var a := Shards(LabNormal, normal, Total(n, normal), Total(n, normal));
    var b := Shards(LabIgnored, ignored, Total(n, ignored), Total(n, ignored));
    GroupAscends(definitions, rows, LabNormal);
    GroupAscends(definitions, rows, LabIgnored);
    ShardsRebuild(LabNormal, normal, n);
    ShardsRebuild(LabIgnored, ignored, n);
    TestsOfConcat(a, b);
    IdsOfConcat(TestsOf(a), TestsOf(b));
    IdsOfConcat(TestsOf(d.shards), NonShardedRows(d.nonSharded));
    NonShardedIds(d.nonSharded);
    SumIsSix(definitions, rows);
    GroupsCover(definitions, rows);
    PlannedFromRows(h, identity, manifest, definitions, rows, n);
    AscendingIsUniqueIds(rows);
    SameIdsSameRows(AllRows(d), rows);
    SortOfAscending(rows);
  }

  lemma PlannedFromRows(h: Hash, identity: Identity, manifest: string, definitions: Definitions, rows: seq<Row>, n: nat)
    ensures forall x <- AllRows(Planned(h, identity, manifest, definitions, rows, n)) :: x in rows
  {
    hide Classify, Slice, Group;
    var d := Planned(h, identity, manifest, definitions, rows, n);
    var normal, ignored := Group(definitions, rows, LabNormal), Group(definitions, rows, LabIgnored);
    ShardsHoldRows(LabNormal, normal, Total(n, normal), Total(n, normal));
    ShardsHoldRows(LabIgnored, ignored, Total(n, ignored), Total(n, ignored));
    TestsOfConcat(Shards(LabNormal, normal, Total(n, normal), Total(n, normal)),
                  Shards(LabIgnored, ignored, Total(n, ignored), Total(n, ignored)));
    forall owner: Owner
      ensures forall x <- Group(definitions, rows, owner) :: x in rows
    {
      GroupHas(definitions, rows, owner);
    }
  }

  /** Whatever the inventory and the number of shards, the planner's plan passes the plan check. */
  lemma PlannedIsOk(h: Hash, identity: Identity, manifest: string, definitions: Definitions, rows: seq<Row>, n: nat)
    requires Ascending(rows) && DefinitionsOk(definitions) && Classified(definitions, rows) && n > 0
    ensures PlanOk(h, Planned(h, identity, manifest, definitions, rows, n))
  {
    hide Ids, Sort, Ascending, UniqueIds, Classify, Slice, Group, Classified, DefinitionsOk, AllRows, ShardOk,
      PartitionsOk, DistinctIds, RoundRobin, OwnedBy, Shards;
    var d := Planned(h, identity, manifest, definitions, rows, n);
    PlannedRows(h, identity, manifest, definitions, rows, n);
    PlannedIdsDiffer(definitions, rows, n);
    forall owner | owner in SHARDED
      ensures PartitionsOk(OwnedBy(d.shards, owner))
      ensures var group := Group(definitions, rows, owner);
              forall s <- Shards(owner, group, Total(n, group), Total(n, group)) :: ShardOk(s)
    {
      var group := Group(definitions, rows, owner);
      PlannedOwners(definitions, rows, n, owner);
      PartitionsAreOk(owner, group, Total(n, group));
      ShardsAreOk(definitions, rows, n, owner);
    }
  }

  /** Adding valid decisions to a planned plan gives a plan that passes the check, its round-robin part included. */
  lemma ApplicableIsOk(
    h: Hash, identity: Identity, manifest: string, definitions: Definitions, rows: seq<Row>, n: nat, a: Applicability)
    requires Ascending(rows) && DefinitionsOk(definitions) && Classified(definitions, rows) && n > 0
    ensures var d := Planned(h, identity, manifest, definitions, rows, n).(
                       schema := 2, applicability := Some(a), applicabilityDigest := h(Decisions(a)));
            PlanOk(h, d) <==> ApplicabilityOk(h, d, a)
  {
    hide Ids, Sort, Ascending, UniqueIds, Classify, Slice, Group, Classified, DefinitionsOk, AllRows, ShardOk,
      PartitionsOk, DistinctIds, RoundRobin, OwnedBy, Shards, ApplicabilityOk, TestsOf;
    var v1 := Planned(h, identity, manifest, definitions, rows, n);
    var d := v1.(schema := 2, applicability := Some(a), applicabilityDigest := h(Decisions(a)));
    PlannedIsOk(h, identity, manifest, definitions, rows, n);
    SameRows(v1, d);
    forall owner | owner in SHARDED
      ensures RoundRobin(OwnedBy(d.shards, owner), OwnerRows(d, owner))
    {
      var group := Group(definitions, rows, owner);
      PlannedOwners(definitions, rows, n, owner);
      GroupAscends(definitions, rows, owner);
      RoundRobinHolds(owner, group, n);
    }
  }

  lemma SameRows(a: Plan, b: Plan)
    requires a.shards == b.shards && a.nonSharded == b.nonSharded
    ensures AllRows(a) == AllRows(b)
  {
  }

  /** Each pair of an owner's shards is balanced, and no shard is empty. */
  lemma PlannedIsEven(definitions: Definitions, rows: seq<Row>, n: nat, owner: Owner, p: nat, q: nat)
    requires owner in SHARDED && p <= q < |OwnedBy(PlannedShards(definitions, rows, n), owner)|
    ensures var shards := OwnedBy(PlannedShards(definitions, rows, n), owner);
            0 < |shards[q].tests| <= |shards[p].tests| <= |shards[q].tests| + 1
  {
    hide Group, OwnedBy;
    PlannedOwners(definitions, rows, n, owner);
    var group := Group(definitions, rows, owner);
    SlicesAreEven(group, p, q, Total(n, group));
  }

  // ----- The planner -----

  method MakePlan(h: Hash, identity: Identity, manifest: string, definitions: Definitions, rows: seq<Row>, n: int)
    returns (r: Result<Plan>)
    requires Ascending(rows) && DefinitionsOk(definitions)
    ensures r.Ok? <==> 1 <= n <= 64 && Classified(definitions, rows)
    ensures r.Ok? ==> r.value == Planned(h, identity, manifest, definitions, rows, n) && PlanOk(h, r.value)
  {
    hide Classified, Group, DefinitionsOk, Ascending, PlanOk, Shards, Held;
    if !(1 <= n <= 64) {
      return Err(ArchiveError);
    }
    var classified, groups := GroupRows(definitions, rows);
    if !classified {
      return Err(ArchiveError);
    }
    var normal := CutShards(LabNormal, Held(groups, LabNormal), n);
    var ignored := CutShards(LabIgnored, Held(groups, LabIgnored), n);
    var d := Plan(1, identity, manifest, h(Rows(rows)), |rows|, normal + ignored,
                  map[BuilderCompiler := Held(groups, BuilderCompiler),
                      ProtectedDiagnostic := Held(groups, ProtectedDiagnostic),
                      LiveSession := Held(groups, LiveSession),
                      ManualBenchmark := Held(groups, ManualBenchmark)],
                  None, "");
    PlannedIsOk(h, identity, manifest, definitions, rows, n);
    var ok := ValidatePlan(h, d);
    assert ok;
    r := Ok(d);
  }

  ghost predicate Grouped(definitions: Definitions, rows: seq<Row>, groups: map<Owner, seq<Row>>) {
    forall owner :: Held(groups, owner) == Group(definitions, rows, owner)
  }

  lemma GroupedMore(definitions: Definitions, rows: seq<Row>, r: Row, groups: map<Owner, seq<Row>>)
    requires Grouped(definitions, rows, groups) && Classify(definitions, r).Some?
    ensures var owner := Classify(definitions, r).value;
            Grouped(definitions, rows + [r], groups[owner := Held(groups, owner) + [r]])
  {
    hide Classify;
    assert (rows + [r])[..|rows|] == rows;
    var mine := Classify(definitions, r).value;
    forall owner: Owner
      ensures Group(definitions, rows + [r], owner) == Held(groups[mine := Held(groups, mine) + [r]], owner)
    {
      assert Held(groups, owner) == Group(definitions, rows, owner);
      assert Group(definitions, rows, owner) + [] == Group(definitions, rows, owner);
    }
  }

  method GroupRows(definitions: Definitions, rows: seq<Row>) returns (ok: bool, groups: map<Owner, seq<Row>>)
    ensures ok == Classified(definitions, rows)
    ensures ok ==> Grouped(definitions, rows, groups)
  {
    hide Classify, Grouped, Held;
    groups := map[];
    assert Grouped(definitions, [], groups) by { NothingGrouped(definitions); }
    for i := 0 to |rows|
      invariant forall r <- rows[..i] :: Classify(definitions, r).Some?
      invariant Grouped(definitions, rows[..i], groups)
    {
      var owner := Classify(definitions, rows[i]);
      if owner.None? {
        assert rows[i] in rows;
        return false, groups;
      }
      assert rows[..i + 1] == rows[..i] + [rows[i]];
      GroupedMore(definitions, rows[..i], rows[i], groups);
      groups := groups[owner.value := Held(groups, owner.value) + [rows[i]]];
    }
    assert rows[..|rows|] == rows;
    ok := true;
  }

  lemma NothingGrouped(definitions: Definitions)
    ensures Grouped(definitions, [], map[])
  {
  }

  method CutShards(owner: Owner, rows: seq<Row>, n: nat) returns (shards: seq<Shard>)
    ensures shards == Shards(owner, rows, Total(n, rows), Total(n, rows))
  {
    var total := Total(n, rows);
    shards := [];
    for p := 0 to total
      invariant shards == Shards(owner, rows, total, p)
    {
      shards := shards + [NewShard(owner, rows, p, total)];
    }
  }
}
