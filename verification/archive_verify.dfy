/** Verifying shard receipts against a plan, and the summary with its accounting. */
module ArchiveVerify {
  import opened Wrappers
  import opened ArchiveOrder
  import opened ArchivePlan

  datatype Receipt = Receipt(
    id: string, owner: Owner, partition: int, total: int, exitCode: int, expected: int, observed: int,
    clean: bool, bound: bool, junit: seq<TestId>, schema: int, applicabilityDigest: string, requiredDigest: string,
    observedIds: seq<TestId>)

  datatype Part = Part(partition: int, total: int, requiredCount: int, requiredDigest: string)

  datatype OwnerRecord = OwnerRecord(
    compiledCount: int, compiledDigest: string, requiredCount: int, requiredDigest: string, notApplicableCount: int,
    notApplicableDigest: string, observedRequired: int, status: string, partitions: seq<Part>)

  datatype OmittedRow = OmittedRow(row: Row, reason: string, status: string)

  const NOT_EXECUTED := "NOTEXECUTED_NOTPASS"

  datatype Summary = Summary(
    schema: int, identity: Identity, manifest: string, inventoryDigest: string, testCount: int, observedCount: int,
    ownerInventory: map<Owner, (int, string)>, pendingCount: int,
    applicability: Option<Applicability>, applicabilityDigest: string, record: Option<OwnerRecord>,
    notApplicableTests: seq<OmittedRow>)

  // ----- Receipts -----

  predicate IsExpected(d: Plan, without: bool, s: Shard) {
    !(without && s.owner == LabIgnored) && RequiredTests(d, s) != []
  }

  function Expected(d: Plan, without: bool, shards: seq<Shard>): seq<Shard> {
    if shards == [] then []
    else
      var n := |shards| - 1;
      Expected(d, without, shards[..n]) + if IsExpected(d, without, shards[n]) then [shards[n]] else []
  }

  function ShardIds(shards: seq<Shard>): (r: seq<string>)
    ensures |r| == |shards| && forall i | 0 <= i < |r| :: r[i] == shards[i].id
  {
    seq(|shards|, i requires 0 <= i < |shards| => shards[i].id)
  }

  function ReceiptIds(receipts: seq<Receipt>): (r: seq<string>)
    ensures |r| == |receipts| && forall i | 0 <= i < |r| :: r[i] == receipts[i].id
  {
    seq(|receipts|, i requires 0 <= i < |receipts| => receipts[i].id)
  }

  /** A receipt that proves exactly the required tests of its shard. */
  predicate ReceiptOk(h: Hash, d: Plan, s: Shard, r: Receipt) {
    var execution := RequiredTests(d, s);
    && r.bound && r.clean && r.exitCode == 0
    && r.expected == r.observed == |execution| && |execution| > 0
    && r.partition == s.partition && r.total == s.total && r.owner == s.owner
    && multiset(r.junit) == Ids(execution)
    && (d.schema == 2 ==>
          && r.schema == 2 && r.applicabilityDigest == d.applicabilityDigest
          && r.requiredDigest == h(Rows(Sort(execution)))
          && multiset(r.observedIds) == Ids(execution))
  }

  predicate ReceiptsOk(h: Hash, d: Plan, shards: seq<Shard>, receipts: seq<Receipt>) {
    && multiset(ReceiptIds(receipts)) == multiset(ShardIds(shards))
    && forall r <- receipts, s <- shards | r.id == s.id :: ReceiptOk(h, d, s, r)
  }

  /** Everything that has to hold of a plan and its receipts. */
  predicate VerifyOk(h: Hash, d: Plan, without: bool, receipts: seq<Receipt>) {
    && PlanOk(h, d) && (without ==> d.schema == 1)
    && Expected(d, without, d.shards) != []
    && ReceiptsOk(h, d, Expected(d, without, d.shards), receipts)
  }

  // ----- Sums over shards and receipts -----

  /** The tests that the receipts of one owner report as passed. */
  function PassedBy(receipts: seq<Receipt>, owner: Owner): multiset<TestId> {
    if receipts == [] then multiset{}
    else
      var r := receipts[|receipts| - 1];
      PassedBy(receipts[..|receipts| - 1], owner) + if r.owner == owner then multiset(r.junit) else multiset{}
  }

  /** What a shard requires of an owner. */
  function Due(d: Plan, s: Shard, owner: Owner): multiset<TestId> {
    if s.owner == owner then Ids(RequiredTests(d, s)) else multiset{}
  }

  function RequiredBy(d: Plan, shards: seq<Shard>, owner: Owner): multiset<TestId> {
    if shards == [] then multiset{}
    else RequiredBy(d, shards[..|shards| - 1], owner) + Due(d, shards[|shards| - 1], owner)
  }

  lemma {:induction false} RequiredByConcat(d: Plan, a: seq<Shard>, b: seq<Shard>, owner: Owner)
    ensures RequiredBy(d, a + b, owner) == RequiredBy(d, a, owner) + RequiredBy(d, b, owner)
  {
    hide Due;
    if b == [] {
      assert a + b == a;
    } else {
      var n := |b| - 1;
      RequiredByConcat(d, a, b[..n], owner);
      assert (a + b)[..|a + b| - 1] == a + b[..n] && (a + b)[|a + b| - 1] == b[n];
    }
  }

  lemma RequiredByMore(d: Plan, shards: seq<Shard>, s: Shard, owner: Owner)
    ensures RequiredBy(d, shards + [s], owner) == RequiredBy(d, shards, owner) + Due(d, s, owner)
  {
  }

  lemma RequiredWithout(d: Plan, shards: seq<Shard>, i: nat, owner: Owner)
    requires i < |shards|
    ensures RequiredBy(d, shards, owner)
            == RequiredBy(d, shards[..i] + shards[i + 1..], owner) + Due(d, shards[i], owner)
  {
    hide Due, RequiredBy;
    var a, s, b := shards[..i], shards[i], shards[i + 1..];
    assert shards == (a + [s]) + b;
    RequiredByConcat(d, a + [s], b, owner);
    RequiredByMore(d, a, s, owner);
    RequiredByConcat(d, a, b, owner);
  }

  lemma Unmatch(shards: seq<Shard>, receipts: seq<Receipt>) returns (i: nat)
    requires receipts != [] && multiset(ReceiptIds(receipts)) == multiset(ShardIds(shards))
    ensures i < |shards| && shards[i].id == receipts[|receipts| - 1].id
    ensures multiset(ReceiptIds(receipts[..|receipts| - 1])) == multiset(ShardIds(shards[..i] + shards[i + 1..]))
  {
    var n := |receipts| - 1;
    var have, want := ReceiptIds(receipts), ShardIds(shards);
    i := RemoveLast(have, want);
    assert have[..n] == ReceiptIds(receipts[..n]);
    assert ShardIds(shards[..i] + shards[i + 1..]) == want[..i] + want[i + 1..];
  }

  /** Receipts that match the shards one to one report the required tests, in whatever order they come. */
  lemma {:induction false} ReceiptsSum(h: Hash, d: Plan, shards: seq<Shard>, receipts: seq<Receipt>, owner: Owner)
    requires ReceiptsOk(h, d, shards, receipts)
    ensures PassedBy(receipts, owner) == RequiredBy(d, shards, owner)
    decreases |receipts|
  {
    hide Ids, RequiredTests;
    if receipts == [] {
      assert |multiset(ShardIds(shards))| == 0;
    } else {
      var n := |receipts| - 1;
      var i := Unmatch(shards, receipts);
      var rest := shards[..i] + shards[i + 1..];
      ReceiptsSum(h, d, rest, receipts[..n], owner);
      RequiredWithout(d, shards, i, owner);
      assert receipts[n] in receipts && shards[i] in shards;
      assert ReceiptOk(h, d, shards[i], receipts[n]);
    }
  }

  // ----- What the shards of a plan require -----

  lemma {:induction false} ExpectedRequires(d: Plan, without: bool, shards: seq<Shard>, owner: Owner)
    ensures RequiredBy(d, Expected(d, without, shards), owner)
            == if without && owner == LabIgnored then multiset{} else RequiredBy(d, shards, owner)
  {
    hide Due;
    if shards != [] {
      var n := |shards| - 1;
      ExpectedRequires(d, without, shards[..n], owner);
      var before := Expected(d, without, shards[..n]);
      DueOrNot(d, without, shards[n], owner);
      if IsExpected(d, without, shards[n]) {
        RequiredByMore(d, before, shards[n], owner);
      } else {
        assert before + [] == before;
      }
    }
  }

  lemma DueOrNot(d: Plan, without: bool, s: Shard, owner: Owner)
    ensures !IsExpected(d, without, s) && !(without && owner == LabIgnored) ==> Due(d, s, owner) == multiset{}
    ensures IsExpected(d, without, s) && without && owner == LabIgnored ==> Due(d, s, owner) == multiset{}
  {
  }

  lemma IdsOfNone()
    ensures Ids([]) == multiset{}
  {
  }

  /** The tests of an owner that its shards have to execute. */
  function OwnerRequired(d: Plan, owner: Owner, rows: seq<Row>): seq<Row> {
    if d.schema == 1 || owner != LabIgnored || d.applicability.None? then rows
    else Select(rows, RequiredIds(d.applicability.value.decisions), true)
  }

  lemma {:induction false} RequiredIsOwners(d: Plan, shards: seq<Shard>, owner: Owner)
    ensures RequiredBy(d, shards, owner) == Ids(OwnerRequired(d, owner, TestsOf(OwnedBy(shards, owner))))
  {
    hide Ids, RequiredIds, Select;
    if shards == [] {
      IdsOfNone();
      SelectNothing(d, owner);
    } else {
      var n := |shards| - 1;
      RequiredIsOwners(d, shards[..n], owner);
      var before := OwnedBy(shards[..n], owner);
      if shards[n].owner == owner {
        assert (before + [shards[n]])[..|before|] == before;
        OwnerRequiredConcat(d, owner, TestsOf(before), shards[n].tests);
        IdsOfConcat(OwnerRequired(d, owner, TestsOf(before)), RequiredTests(d, shards[n]));
      }
    }
  }

  lemma SelectNothing(d: Plan, owner: Owner)
    ensures OwnerRequired(d, owner, []) == []
  {
  }

  lemma OwnerRequiredConcat(d: Plan, owner: Owner, a: seq<Row>, b: seq<Row>)
    ensures OwnerRequired(d, owner, a + b) == OwnerRequired(d, owner, a) + OwnerRequired(d, owner, b)
  {
    if d.schema != 1 && owner == LabIgnored && d.applicability.Some? {
      SelectOfConcat(a, b, RequiredIds(d.applicability.value.decisions), true);
    }
  }

  /** Between them the two lab owners hold every sharded test. */
  lemma {:induction false} OwnersHoldShards(shards: seq<Shard>)
    requires forall s <- shards :: s.owner in SHARDED
    ensures Ids(TestsOf(shards)) == Ids(TestsOf(OwnedBy(shards, LabNormal))) + Ids(TestsOf(OwnedBy(shards, LabIgnored)))
  {
    hide Ids;
    if shards == [] {
      IdsOfNone();
    } else {
      var n := |shards| - 1;
      OwnersHoldShards(shards[..n]);
      var s := shards[n];
      var mine := OwnedBy(shards[..n], s.owner);
      assert (mine + [s])[..|mine|] == mine;
      IdsOfConcat(TestsOf(shards[..n]), s.tests);
      IdsOfConcat(TestsOf(mine), s.tests);
      assert s.owner == LabNormal || s.owner == LabIgnored;
    }
  }

  /** The ignored tests that were decided not to apply, one by one or as a whole. */
  function Omitted(d: Plan, without: bool): seq<Row> {
    if without then OwnerRows(d, LabIgnored)
    else if d.schema == 1 || d.applicability.None? then []
    else Select(OwnerRows(d, LabIgnored), RequiredIds(d.applicability.value.decisions), false)
  }

  lemma OwnerRowsIds(d: Plan, owner: Owner)
    ensures Ids(OwnerRows(d, owner)) == Ids(TestsOf(OwnedBy(d.shards, owner)))
    ensures Ids(OwnerRequired(d, owner, OwnerRows(d, owner)))
            == Ids(OwnerRequired(d, owner, TestsOf(OwnedBy(d.shards, owner))))
  {
    hide Ids, Select;
    var rows := TestsOf(OwnedBy(d.shards, owner));
    IdsOfPermutation(Sort(rows), rows);
    if d.applicability.Some? {
      var ids := RequiredIds(d.applicability.value.decisions);
      SelectOfPermutation(Sort(rows), rows, ids, true);
      IdsOfPermutation(Select(Sort(rows), ids, true), Select(rows, ids, true));
    }
  }

  /** What the receipts of each owner prove. */
  lemma PassedIsRequired(h: Hash, d: Plan, without: bool, receipts: seq<Receipt>, owner: Owner)
    requires VerifyOk(h, d, without, receipts)
    ensures PassedBy(receipts, owner)
            == if without && owner == LabIgnored then multiset{} else Ids(OwnerRequired(d, owner, OwnerRows(d, owner)))
  {
    hide Ids, PlanOk, ReceiptsOk, OwnerRequired, OwnerRows;
    ReceiptsSum(h, d, Expected(d, without, d.shards), receipts, owner);
    ExpectedRequires(d, without, d.shards, owner);
    RequiredIsOwners(d, d.shards, owner);
    OwnerRowsIds(d, owner);
  }

  /** The ignored lab tests split into those that passed and those that do not apply. */
  lemma IgnoredSplit(h: Hash, d: Plan, without: bool, receipts: seq<Receipt>)
    requires VerifyOk(h, d, without, receipts)
    ensures Ids(OwnerRows(d, LabIgnored)) == PassedBy(receipts, LabIgnored) + Ids(Omitted(d, without))
  {
    hide Ids, ReceiptsOk, OwnerRows, Select;
    PassedIsRequired(h, d, without, receipts, LabIgnored);
    IdsOfNone();
    if d.applicability.Some? {
      SelectSplits(OwnerRows(d, LabIgnored), RequiredIds(d.applicability.value.decisions));
    }
  }

  /** Every compiled test is in exactly one place: passed in one shard, not applicable, or pending elsewhere. */
  lemma EachTestOnce(h: Hash, d: Plan, without: bool, receipts: seq<Receipt>)
    requires VerifyOk(h, d, without, receipts)
    ensures Ids(AllRows(d)) == PassedBy(receipts, LabNormal) + PassedBy(receipts, LabIgnored) + Ids(Omitted(d, without))
                               + Ids(NonShardedRows(d.nonSharded))
    ensures forall id :: Ids(AllRows(d))[id] <= 1
  {
    hide Ids, ReceiptsOk, OwnerRows, UniqueIds, NonShardedRows, TestsOf, Omitted, ApplicabilityOk, PartitionsOk,
      RoundRobin;
    PassedIsRequired(h, d, without, receipts, LabNormal);
    IgnoredSplit(h, d, without, receipts);
    OwnerRowsIds(d, LabNormal);
    OwnerRowsIds(d, LabIgnored);
    OwnersHoldShards(d.shards);
    IdsOfConcat(TestsOf(d.shards), NonShardedRows(d.nonSharded));
    UniqueMeansOnce(AllRows(d));
  }

  // ----- The summary -----

  /** The last decision about a test, as a dictionary built from the list would hold it. */
  function DecisionFor(decisions: seq<Decision>, id: TestId): Option<Decision> {
    if decisions == [] then None
    else
      var n := |decisions| - 1;
      if decisions[n].id == id then Some(decisions[n]) else DecisionFor(decisions[..n], id)
  }

  function ReasonFor(decisions: seq<Decision>, id: TestId): string {
    var x := DecisionFor(decisions, id);
    if x.Some? then x.value.reason else ""
  }

  function OmittedRows(decisions: seq<Decision>, rows: seq<Row>): (r: seq<OmittedRow>)
    ensures |r| == |rows|
    ensures forall i | 0 <= i < |r| :: r[i] == OmittedRow(rows[i], ReasonFor(decisions, rows[i].id), NOT_EXECUTED)
  {
    seq(|rows|, i requires 0 <= i < |rows| => OmittedRow(rows[i], ReasonFor(decisions, rows[i].id), NOT_EXECUTED))
  }

  function PartOf(h: Hash, d: Plan, s: Shard): Part {
    Part(s.partition, s.total, |RequiredTests(d, s)|, h(Rows(Sort(RequiredTests(d, s)))))
  }

  function PartsOf(h: Hash, d: Plan, shards: seq<Shard>): (r: seq<Part>)
    ensures |r| == |shards| && forall i | 0 <= i < |r| :: r[i] == PartOf(h, d, shards[i])
  {
    seq(|shards|, i requires 0 <= i < |shards| => PartOf(h, d, shards[i]))
  }

  function RecordOf(h: Hash, d: Plan, decisions: seq<Decision>, observed: int): OwnerRecord {
    var rows := OwnerRows(d, LabIgnored);
    var required, omitted := Select(rows, RequiredIds(decisions), true), Select(rows, RequiredIds(decisions), false);
    OwnerRecord(|rows|, h(Rows(rows)), |required|, h(Rows(required)), |omitted|, h(Rows(omitted)), observed,
                NOT_EXECUTED, PartsOf(h, d, OwnedBy(d.shards, LabIgnored)))
  }

  /** The count and digest of one owner's tests, sharded or not. */
  function InventoryOf(h: Hash, d: Plan, owner: Owner): (int, string) {
    var rows := TestsOf(OwnedBy(d.shards, owner)) + Held(d.nonSharded, owner);
    (|rows|, h(Rows(Sort(rows))))
  }

  function SummaryOf(h: Hash, d: Plan, normal: int, ignored: int): Summary {
    var base := Summary(
      1, d.identity, d.manifest, d.inventoryDigest, d.testCount, normal + ignored,
      map owner | owner in SHARDED + NON_SHARDED :: InventoryOf(h, d, owner), |NonShardedRows(d.nonSharded)|,
      None, "", None, []);
    if d.schema == 2 && d.applicability.Some? then
      var decisions := d.applicability.value.decisions;
      base.(schema := 2, applicability := d.applicability, applicabilityDigest := d.applicabilityDigest,
            record := Some(RecordOf(h, d, decisions, ignored)),
            notApplicableTests := OmittedRows(decisions, Omitted(d, false)))
    else base
  }

  function Count(m: map<Owner, int>, owner: Owner): int {
    if owner in m then m[owner] else 0
  }

  /** The two accounting checks at the end of a verification with decisions. */
  predicate Accounted(s: Summary) {
    s.record.Some? ==>
      && s.record.value.observedRequired == s.record.value.requiredCount
      && s.testCount == s.observedCount + |s.notApplicableTests| + s.pendingCount
  }

  function ObservedBy(receipts: seq<Receipt>, owner: Owner): int {
    if receipts == [] then 0
    else
      var r := receipts[|receipts| - 1];
      ObservedBy(receipts[..|receipts| - 1], owner) + if r.owner == owner then r.observed else 0
  }

  lemma {:induction false} ObservedIsPassed(receipts: seq<Receipt>, owner: Owner)
    requires forall r <- receipts :: r.observed == |r.junit|
    ensures ObservedBy(receipts, owner) == |PassedBy(receipts, owner)|
  {
    if receipts != [] {
      ObservedIsPassed(receipts[..|receipts| - 1], owner);
    }
  }

  lemma ShardOfReceipt(shards: seq<Shard>, receipts: seq<Receipt>, r: Receipt) returns (s: Shard)
    requires multiset(ReceiptIds(receipts)) == multiset(ShardIds(shards)) && r in receipts
    ensures s in shards && s.id == r.id
  {
    var i :| 0 <= i < |receipts| && receipts[i] == r;
    assert ReceiptIds(receipts)[i] == r.id && r.id in multiset(ShardIds(shards));
    assert r.id in ShardIds(shards);
    var j :| 0 <= j < |shards| && ShardIds(shards)[j] == r.id;
    s := shards[j];
  }

  lemma ReceiptsCount(h: Hash, d: Plan, shards: seq<Shard>, receipts: seq<Receipt>)
    requires ReceiptsOk(h, d, shards, receipts)
    ensures forall r <- receipts :: r.observed == |r.junit|
  {
    hide Ids, RequiredTests;
    forall r | r in receipts
      ensures r.observed == |r.junit|
    {
      var s := ShardOfReceipt(shards, receipts, r);
      assert ReceiptOk(h, d, s, r);
      assert |multiset(r.junit)| == |r.junit|;
    }
  }

  /** The accounting checks pass for every plan and receipts that got that far. */
  lemma AlwaysAccounted(h: Hash, d: Plan, without: bool, receipts: seq<Receipt>)
    requires VerifyOk(h, d, without, receipts)
    ensures Accounted(SummaryOf(h, d, ObservedBy(receipts, LabNormal), ObservedBy(receipts, LabIgnored)))
  {
    hide Ids, ReceiptsOk, OwnerRows, UniqueIds, NonShardedRows, TestsOf, Select, ApplicabilityOk, PartitionsOk,
      RoundRobin, Sort, InventoryOf, Expected;
    ReceiptsCount(h, d, Expected(d, without, d.shards), receipts);
    ObservedIsPassed(receipts, LabNormal);
    ObservedIsPassed(receipts, LabIgnored);
    PassedIsRequired(h, d, without, receipts, LabIgnored);
    EachTestOnce(h, d, without, receipts);
    assert |Ids(AllRows(d))| == |AllRows(d)| == d.testCount;
  }

  // ----- Verification -----

  method FindShard(shards: seq<Shard>, id: string) returns (s: Shard)
    requires DistinctIds(shards) && exists s <- shards :: s.id == id
    ensures s in shards && s.id == id && forall x <- shards :: x.id == id ==> x == s
  {
    var i := 0;
    while shards[i].id != id
      invariant 0 <= i < |shards| && exists k | i <= k < |shards| :: shards[k].id == id
      decreases |shards| - i
    {
      i := i + 1;
    }
    s := shards[i];
  }

  /** Holds each receipt against the shard of its id. */
  method CheckReceipts(h: Hash, d: Plan, shards: seq<Shard>, receipts: seq<Receipt>) returns (ok: bool)
    requires DistinctIds(shards) && multiset(ReceiptIds(receipts)) == multiset(ShardIds(shards))
    ensures ok == ReceiptsOk(h, d, shards, receipts)
  {
    hide ReceiptOk, DistinctIds;
    for i := 0 to |receipts|
      invariant forall x <- receipts[..i], s <- shards | x.id == s.id :: ReceiptOk(h, d, s, x)
    {
      var receipt := receipts[i];
      ghost var known := ShardOfReceipt(shards, receipts, receipt);
      var shard := FindShard(shards, receipt.id);
      if !ReceiptOk(h, d, shard, receipt) {
        return false;
      }
      assert receipts[..i + 1] == receipts[..i] + [receipt];
    }
    assert receipts[..|receipts|] == receipts;
    ok := true;
  }

  method CountObserved(receipts: seq<Receipt>) returns (observed: map<Owner, int>)
    ensures forall owner :: Count(observed, owner) == ObservedBy(receipts, owner)
  {
    observed := map[];
    for i := 0 to |receipts|
      invariant forall owner :: Count(observed, owner) == ObservedBy(receipts[..i], owner)
    {
      var receipt := receipts[i];
      assert receipts[..i + 1][..i] == receipts[..i];
      observed := observed[receipt.owner := Count(observed, receipt.owner) + receipt.observed];
    }
    assert receipts[..|receipts|] == receipts;
  }

  /** Accepts exactly complete, matching receipts; the summary it gives is fully accounted. */
  method Verify(h: Hash, d: Plan, without: bool, receipts: seq<Receipt>) returns (r: Result<Summary>)
    ensures r.Ok? <==> VerifyOk(h, d, without, receipts)
    ensures r.Ok? ==> r.value == SummaryOf(h, d, ObservedBy(receipts, LabNormal), ObservedBy(receipts, LabIgnored))
                      && Accounted(r.value)
  {
    hide PlanOk, ReceiptOk, SummaryOf, Accounted, Expected, DistinctIds, ObservedBy;
    var valid := ValidatePlan(h, d);
    if !valid || (without && d.schema != 1) {
      return Err(ArchiveError);
    }
    var expected := Expected(d, without, d.shards);
    if expected == [] || multiset(ReceiptIds(receipts)) != multiset(ShardIds(expected)) {
      return Err(ArchiveError);
    }
    ExpectedIsDistinct(h, d, without);
    var matching := CheckReceipts(h, d, expected, receipts);
    if !matching {
      return Err(ArchiveError);
    }
    var observed := CountObserved(receipts);
    AlwaysAccounted(h, d, without, receipts);
    r := Ok(SummaryOf(h, d, Count(observed, LabNormal), Count(observed, LabIgnored)));
  }

  lemma ExpectedIsDistinct(h: Hash, d: Plan, without: bool)
    requires PlanOk(h, d)
    ensures DistinctIds(Expected(d, without, d.shards))
  {
    DistinctExpected(d, without, d.shards);
  }

  lemma {:induction false} DistinctExpected(d: Plan, without: bool, shards: seq<Shard>)
    requires DistinctIds(shards)
    ensures DistinctIds(Expected(d, without, shards)) && forall s <- Expected(d, without, shards) :: s in shards
  {
    hide IsExpected;
    if shards != [] {
      var n := |shards| - 1;
      DistinctExpected(d, without, shards[..n]);
      forall s | s in Expected(d, without, shards[..n])
        ensures s.id != shards[n].id
      {
        assert s in shards[..n];
      }
    }
  }
}
