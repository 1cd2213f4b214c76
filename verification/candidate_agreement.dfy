/** The consumer accepts what the producer emits, exactly when both read the identity alike. */
module CandidateAgreement {
  import opened Wrappers
  import opened Shared
  import opened ArchiveOrder
  import opened ArchivePlan
  import opened ArchivePlanner
  import opened ArchiveVerify
  import opened CandidateApplicability

  /** Digests look like digests, and no rows at all have a digest of their own. */
  ghost predicate HashOk(h: Hash) {
    (forall m :: IsDigest(h(m))) && (forall rows :: rows != [] ==> h(Rows(rows)) != h(Rows([])))
  }

  // ----- Lists without duplicates -----

  predicate NoDuplicates<T(==)>(a: seq<T>) {
    forall i, j | 0 <= i < j < |a| :: a[i] != a[j]
  }

  lemma {:induction false} OnceEach<T>(a: seq<T>)
    requires NoDuplicates(a)
    ensures forall x :: multiset(a)[x] == if x in a then 1 else 0
  {
    if a != [] {
      var n := |a| - 1;
      OnceEach(a[..n]);
      assert a == a[..n] + [a[n]];
      assert a[n] !in a[..n];
    }
  }

  lemma SameBag<T>(a: seq<T>, b: seq<T>)
    requires NoDuplicates(a) && NoDuplicates(b) && forall x :: x in a <==> x in b
    ensures multiset(a) == multiset(b)
  {
    OnceEach(a);
    OnceEach(b);
  }

  // ----- Decisions as rows -----

  predicate UniqueDecisions(decisions: seq<Decision>) {
    forall i, j | 0 <= i < j < |decisions| :: decisions[i].id != decisions[j].id
  }

  lemma {:induction false} DecidedHas(decisions: seq<Decision>, required: bool)
    requires UniqueDecisions(decisions)
    ensures UniqueIds(DecidedRows(decisions, required))
    ensures forall x :: x in DecidedRows(decisions, required) <==>
              exists y <- decisions :: y.required == required && x == DecidedRow(y)
  {
    if decisions != [] {
      var n := |decisions| - 1;
      DecidedHas(decisions[..n], required);
      assert decisions == decisions[..n] + [decisions[n]];
      forall x | x in DecidedRows(decisions[..n], required)
        ensures x.id != decisions[n].id
      {
        var y :| y in decisions[..n] && y.required == required && x == DecidedRow(y);
      }
    }
  }

  lemma RequiredOrNot(decisions: seq<Decision>, x: Decision)
    requires UniqueDecisions(decisions) && x in decisions
    ensures x.id in RequiredIds(decisions) <==> x.required
  {
  }

  /** The rows of the decisions, selected by requirement, are the selected rows of the inventory. */
  lemma DecidedIsSelected(decisions: seq<Decision>, rows: seq<Row>, required: bool)
    requires UniqueDecisions(decisions) && Ascending(rows) && forall x :: x in rows <==> x in AllDecided(decisions)
    ensures Sort(DecidedRows(decisions, required)) == Select(rows, RequiredIds(decisions), required)
    ensures |DecidedRows(decisions, required)| == |Select(rows, RequiredIds(decisions), required)|
  {
    hide Ascending, Sort, Select, RequiredIds;
    var decided, selected := DecidedRows(decisions, required), Select(rows, RequiredIds(decisions), required);
    DecidedHas(decisions, required);
    SelectHas(rows, RequiredIds(decisions), required);
    forall x
      ensures x in decided <==> x in selected
    {
      if x in decided {
        var y :| y in decisions && y.required == required && x == DecidedRow(y);
        RequiredOrNot(decisions, y);
        var i :| 0 <= i < |decisions| && decisions[i] == y;
        assert AllDecided(decisions)[i] == x;
      }
      if x in selected {
        var i :| 0 <= i < |decisions| && AllDecided(decisions)[i] == x;
        RequiredOrNot(decisions, decisions[i]);
      }
    }
    SelectAscends(rows, RequiredIds(decisions), required);
    AscendingIsUniqueIds(selected);
    SortForgetsOrder(decided, selected);
    SortOfAscending(selected);
    SortSize(decided);
  }

  lemma SortSize(rows: seq<Row>)
    ensures |Sort(rows)| == |rows|
  {
    assert |multiset(Sort(rows))| == |multiset(rows)|;
  }

  /** Each decision is about one ignored row of the plan, and each such row has one. */
  lemma DecisionsAreRows(h: Hash, d: Plan)
    requires PlanOk(h, d) && d.schema == 2
    ensures var decisions, rows := d.applicability.value.decisions, OwnerRows(d, LabIgnored);
            && UniqueDecisions(decisions) && Ascending(rows) && UniqueIds(AllDecided(decisions))
            && (forall x :: x in rows <==> x in AllDecided(decisions))
            && Sort(AllDecided(decisions)) == rows
  {
    hide Ids, Sort, UniqueIds, Ascending, RoundRobin, PartitionsOk, Slice, AllRows;
    var decisions, rows := d.applicability.value.decisions, OwnerRows(d, LabIgnored);
    var decided := AllDecided(decisions);
    IgnoredRowsAscend(h, d);
    AscendingIsUniqueIds(rows);
    assert IdList(decided) == DecidedIds(decisions);
    assert Ids(decided) == Ids(rows) by { IdsAreListed(decided); }
    forall x | x in decided
      ensures x in rows
    {
      IdsHave(decided, x);
      var i := IdsFrom(rows, x.id);
      assert rows[i] in rows;
    }
    SameIdsSameRows(decided, rows);
    SortOfAscending(rows);
    UniqueRowsUniqueDecisions(decisions);
  }

  lemma IdsAreListed(rows: seq<Row>)
    ensures Ids(rows) == multiset(IdList(rows))
  {
  }

  lemma UniqueRowsUniqueDecisions(decisions: seq<Decision>)
    requires UniqueIds(AllDecided(decisions))
    ensures UniqueDecisions(decisions)
  {
  }

  lemma {:induction false} OwnedFrom(shards: seq<Shard>, owner: Owner)
    ensures forall s <- OwnedBy(shards, owner) :: s in shards && s.owner == owner
  {
    if shards != [] {
      OwnedFrom(shards[..|shards| - 1], owner);
    }
  }

  lemma {:induction false} TestsFrom(shards: seq<Shard>)
    ensures forall x <- TestsOf(shards) :: exists s <- shards :: x in s.tests
    ensures (forall s <- shards :: s.tests != []) ==> |TestsOf(shards)| >= |shards|
  {
    if shards != [] {
      var n := |shards| - 1;
      TestsFrom(shards[..n]);
      assert shards == shards[..n] + [shards[n]];
    }
  }

  /** The ignored rows of an accepted plan: in order, all ignored, and at least one per shard. */
  lemma IgnoredRowsAscend(h: Hash, d: Plan)
    requires PlanOk(h, d)
    ensures Ascending(OwnerRows(d, LabIgnored)) && (forall x <- OwnerRows(d, LabIgnored) :: x.ignored)
    ensures |OwnedBy(d.shards, LabIgnored)| <= |OwnerRows(d, LabIgnored)|
    ensures OwnedBy(d.shards, LabIgnored) == [] ==> OwnerRows(d, LabIgnored) == []
  {
    hide Ids, Sort, UniqueIds, Ascending, RoundRobin, PartitionsOk, Slice, ApplicabilityOk, OwnedBy;
    var mine := OwnedBy(d.shards, LabIgnored);
    var tests := TestsOf(mine);
    OwnedFrom(d.shards, LabIgnored);
    TestsFrom(mine);
    assert forall x <- tests :: x.ignored;
    SameElements(Sort(tests), tests);
    SortSize(tests);
    OwnersHoldShards(d.shards);
    IdsOfConcat(TestsOf(d.shards), NonShardedRows(d.nonSharded));
    PartIsUnique(AllRows(d), tests, Ids(TestsOf(OwnedBy(d.shards, LabNormal))) + Ids(NonShardedRows(d.nonSharded)));
    SortAscends(tests);
  }

  lemma PartIsUnique(all: seq<Row>, part: seq<Row>, rest: multiset<TestId>)
    requires UniqueIds(all) && Ids(all) == Ids(part) + rest
    ensures UniqueIds(part)
  {
    hide Ids, UniqueIds;
    UniqueMeansOnce(all);
    UniqueMeansOnce(part);
    forall id: TestId
      ensures Ids(part)[id] <= 1
    {
      assert Ids(all)[id] == Ids(part)[id] + rest[id];
    }
  }

  // ----- The parts of the check -----

  lemma CountsAreOk(h: Hash, rows: seq<Row>)
    requires HashOk(h)
    ensures CountOk(h, |rows|, InventoryDigest(h, rows))
  {
  }

  lemma {:induction false} PartsSum(h: Hash, d: Plan, shards: seq<Shard>)
    requires forall s <- shards :: s.owner == LabIgnored
    ensures SumRequired(PartsOf(h, d, shards)) == |RequiredBy(d, shards, LabIgnored)|
  {
    hide Ids, RequiredTests, Sort, PartsOf;
    if shards != [] {
      var n, parts := |shards| - 1, PartsOf(h, d, shards);
      PartsSum(h, d, shards[..n]);
      assert parts[..n] == PartsOf(h, d, shards[..n]);
      assert SumRequired(parts) == SumRequired(parts[..n]) + |RequiredTests(d, shards[n])|;
      assert shards[n] in shards;
      assert RequiredBy(d, shards, LabIgnored)
          == RequiredBy(d, shards[..n], LabIgnored) + Ids(RequiredTests(d, shards[n]));
    }
  }

  lemma {:induction false} RequiredOfOwned(d: Plan, shards: seq<Shard>, owner: Owner)
    ensures RequiredBy(d, OwnedBy(shards, owner), owner) == RequiredBy(d, shards, owner)
  {
    hide Ids, RequiredTests;
    if shards != [] {
      var n := |shards| - 1;
      RequiredOfOwned(d, shards[..n], owner);
      if shards[n].owner == owner {
        RequiredByMore(d, OwnedBy(shards[..n], owner), shards[n], owner);
      }
    }
  }

  lemma PartNumbersAreOk(h: Hash, d: Plan, shards: seq<Shard>)
    requires PartitionsOk(shards)
    ensures multiset(PartNumbers(PartsOf(h, d, shards))) == multiset(Range(|shards|))
  {
    hide RequiredTests, Sort;
    assert PartNumbers(PartsOf(h, d, shards)) == Partitions(shards);
  }

  /** The part of each shard is what slicing the decisions gives. */
  lemma PartsAreOk(h: Hash, d: Plan, s: Shard)
    requires HashOk(h) && PlanOk(h, d) && d.schema == 2 && s in OwnedBy(d.shards, LabIgnored)
    ensures var decisions := d.applicability.value.decisions;
            && PartOk(h, Sort(AllDecided(decisions)), IdSet(DecidedRows(decisions, true)), PartOf(h, d, s))
            && CountOk(h, PartOf(h, d, s).requiredCount, PartOf(h, d, s).requiredDigest)
            && PartOf(h, d, s).total == |OwnedBy(d.shards, LabIgnored)|
  {
    hide Ids, UniqueIds, Ascending, Slice, AllRows, Select, Sort, OwnedBy, HashOk, CountOk;
    var decisions := d.applicability.value.decisions;
    OwnedFrom(d.shards, LabIgnored);
    DecisionsAreRows(h, d);
    RequiredIdsAreSet(decisions);
    CountsAreOk(h, RequiredTests(d, s));
  }

  lemma RequiredIdsAreSet(decisions: seq<Decision>)
    requires UniqueDecisions(decisions)
    ensures IdSet(DecidedRows(decisions, true)) == RequiredIds(decisions)
  {
    DecidedHas(decisions, true);
    var rows := DecidedRows(decisions, true);
    forall id | id in RequiredIds(decisions)
      ensures id in IdSet(rows)
    {
      var y :| y in decisions && y.required && y.id == id;
      assert DecidedRow(y) in rows;
    }
  }

  // ----- The rows that were not executed -----

  lemma {:induction false} DecisionIs(decisions: seq<Decision>, x: Decision)
    requires UniqueDecisions(decisions) && x in decisions
    ensures DecisionFor(decisions, x.id) == Some(x)
  {
    var n := |decisions| - 1;
    if decisions[n] != x {
      assert decisions == decisions[..n] + [decisions[n]];
      DecisionIs(decisions[..n], x);
    }
  }

  lemma {:induction false} ExcludedHas(decisions: seq<Decision>)
    requires UniqueDecisions(decisions)
    ensures NoDuplicates(Excluded(decisions))
    ensures forall x :: x in Excluded(decisions) <==>
              exists y <- decisions :: !y.required && x == OmittedRow(DecidedRow(y), y.reason, NOT_EXECUTED)
  {
    if decisions != [] {
      var n := |decisions| - 1;
      ExcludedHas(decisions[..n]);
      assert decisions == decisions[..n] + [decisions[n]];
      forall x | x in Excluded(decisions[..n])
        ensures x.row.id != decisions[n].id
      {
        var y :| y in decisions[..n] && !y.required && x == OmittedRow(DecidedRow(y), y.reason, NOT_EXECUTED);
      }
    }
  }

  lemma OmittedAreOnce(decisions: seq<Decision>, rows: seq<Row>)
    requires UniqueIds(rows)
    ensures NoDuplicates(OmittedRows(decisions, rows))
  {
  }

  /** The producer lists the rows that do not apply, with the reasons of the decisions. */
  lemma OmittedAgrees(h: Hash, d: Plan)
    requires PlanOk(h, d) && d.schema == 2
    ensures var decisions := d.applicability.value.decisions;
            multiset(OmittedRows(decisions, Omitted(d, false))) == multiset(Excluded(decisions))
  {
    hide Ids, UniqueIds, Ascending, Slice, AllRows, Select, Sort, OwnerRows, RequiredIds, DecisionFor, RoundRobin,
      ApplicabilityOk, PartitionsOk, ShardOk, DistinctIds;
    var decisions, rows := d.applicability.value.decisions, OwnerRows(d, LabIgnored);
    var omitted := Omitted(d, false);
    var listed := OmittedRows(decisions, omitted);
    DecisionsAreRows(h, d);
    SelectHas(rows, RequiredIds(decisions), false);
    SelectAscends(rows, RequiredIds(decisions), false);
    AscendingIsUniqueIds(omitted);
    OmittedAreOnce(decisions, omitted);
    ExcludedHas(decisions);
    forall x
      ensures x in listed <==> x in Excluded(decisions)
    {
      if x in listed {
        var i :| 0 <= i < |listed| && listed[i] == x;
        assert omitted[i] in rows && omitted[i].id !in RequiredIds(decisions);
        var j :| 0 <= j < |decisions| && AllDecided(decisions)[j] == omitted[i];
        RequiredOrNot(decisions, decisions[j]);
        DecisionIs(decisions, decisions[j]);
      }
      if x in Excluded(decisions) {
        var y :| y in decisions && !y.required && x == OmittedRow(DecidedRow(y), y.reason, NOT_EXECUTED);
        RequiredOrNot(decisions, y);
        DecisionIs(decisions, y);
        var j :| 0 <= j < |decisions| && decisions[j] == y;
        assert AllDecided(decisions)[j] == DecidedRow(y);
        assert DecidedRow(y) in omitted;
        var i :| 0 <= i < |omitted| && omitted[i] == DecidedRow(y);
        assert listed[i] == x;
      }
    }
    SameBag(listed, Excluded(decisions));
  }

  // ----- Agreement -----

  lemma RecordDecisionsAgree(h: Hash, d: Plan, observed: int)
    requires HashOk(h) && PlanOk(h, d) && d.schema == 2
    ensures var decisions := d.applicability.value.decisions;
            DecisionsOk(h, decisions, RecordOf(h, d, decisions, observed), OmittedRows(decisions, Omitted(d, false)))
  {
    hide Ids, UniqueIds, Ascending, Slice, AllRows, Select, Sort, HashOk, PartOk, CountOk, RequiredIds, OwnerRows,
      OwnedBy, RoundRobin, PartitionsOk, Omitted, OmittedRows, Excluded;
    var decisions, rows := d.applicability.value.decisions, OwnerRows(d, LabIgnored);
    DecisionsAreRows(h, d);
    DecidedIsSelected(decisions, rows, true);
    DecidedIsSelected(decisions, rows, false);
    OmittedAgrees(h, d);
    SortSize(AllDecided(decisions));
    forall x | x in decisions
      ensures ReadableDecision(x)
    {
      assert DecisionOk(x);
      assert x.reason[0] in x.reason;
    }
    var shards := OwnedBy(d.shards, LabIgnored);
    forall p | p in PartsOf(h, d, shards)
      ensures PartOk(h, Sort(AllDecided(decisions)), IdSet(DecidedRows(decisions, true)), p)
    {
      var i :| 0 <= i < |shards| && p == PartOf(h, d, shards[i]);
      PartsAreOk(h, d, shards[i]);
    }
  }

  /** The three inventories of the record have honest counts and digests, and add up. */
  lemma RecordInventories(h: Hash, d: Plan, observed: int)
    requires HashOk(h) && PlanOk(h, d) && d.schema == 2
    ensures var record := RecordOf(h, d, d.applicability.value.decisions, observed);
            && CountOk(h, record.compiledCount, record.compiledDigest)
            && CountOk(h, record.requiredCount, record.requiredDigest)
            && CountOk(h, record.notApplicableCount, record.notApplicableDigest)
            && record.requiredCount + record.notApplicableCount == record.compiledCount
  {
    hide Ids, UniqueIds, Ascending, AllRows, Select, Sort, HashOk, CountOk, RequiredIds, OwnedBy, RoundRobin,
      ApplicabilityOk, PartitionsOk, ShardOk, DistinctIds, OwnerRows;
    var decisions, rows := d.applicability.value.decisions, OwnerRows(d, LabIgnored);
    var required, omitted := Select(rows, RequiredIds(decisions), true), Select(rows, RequiredIds(decisions), false);
    IgnoredRowsAscend(h, d);
    SelectAscends(rows, RequiredIds(decisions), true);
    SelectAscends(rows, RequiredIds(decisions), false);
    SortOfAscending(rows);
    SortOfAscending(required);
    SortOfAscending(omitted);
    CountsAreOk(h, rows);
    CountsAreOk(h, required);
    CountsAreOk(h, omitted);
    SelectSplits(rows, RequiredIds(decisions));
  }

  lemma InventoryIsRecord(h: Hash, d: Plan, observed: int)
    requires PlanOk(h, d) && d.schema == 2
    ensures var record := RecordOf(h, d, d.applicability.value.decisions, observed);
            (record.compiledCount, record.compiledDigest) == InventoryOf(h, d, LabIgnored)
  {
    hide Ids, UniqueIds, AllRows, Select, Sort, OwnedBy, RoundRobin, ApplicabilityOk, PartitionsOk, ShardOk,
      DistinctIds, TestsOf;
    var tests := TestsOf(OwnedBy(d.shards, LabIgnored));
    assert tests + [] == tests;
    SortSize(tests);
  }

  /** The receipts observed, and the partitions require, exactly the required tests. */
  lemma RecordSums(h: Hash, d: Plan, receipts: seq<Receipt>)
    requires VerifyOk(h, d, false, receipts) && d.schema == 2
    ensures var record := RecordOf(h, d, d.applicability.value.decisions, ObservedBy(receipts, LabIgnored));
            record.observedRequired == record.requiredCount == SumRequired(record.partitions)
  {
    hide Ids, UniqueIds, AllRows, Select, Sort, RequiredIds, OwnedBy, RoundRobin, ApplicabilityOk, PartitionsOk,
      ShardOk, DistinctIds, ReceiptsOk, OwnerRows, Expected;
    var shards := OwnedBy(d.shards, LabIgnored);
    PassedIsRequired(h, d, false, receipts, LabIgnored);
    ReceiptsCount(h, d, Expected(d, false, d.shards), receipts);
    ObservedIsPassed(receipts, LabIgnored);
    OwnedFrom(d.shards, LabIgnored);
    PartsSum(h, d, shards);
    RequiredOfOwned(d, d.shards, LabIgnored);
    RequiredIsOwners(d, d.shards, LabIgnored);
    OwnerRowsIds(d, LabIgnored);
  }

  lemma RecordPartitions(h: Hash, d: Plan, observed: int)
    requires HashOk(h) && PlanOk(h, d) && d.schema == 2
    ensures var record := RecordOf(h, d, d.applicability.value.decisions, observed);
            && |record.partitions| == |OwnedBy(d.shards, LabIgnored)| <= record.compiledCount
            && (record.partitions != [] <==> record.compiledCount != 0)
            && multiset(PartNumbers(record.partitions)) == multiset(Range(|record.partitions|))
            && forall p <- record.partitions ::
                 p.total == |record.partitions| && CountOk(h, p.requiredCount, p.requiredDigest)
  {
    hide Ids, UniqueIds, AllRows, Select, Sort, RequiredIds, OwnedBy, RoundRobin, ApplicabilityOk, PartitionsOk,
      ShardOk, DistinctIds, OwnerRows, HashOk, CountOk;
    var shards := OwnedBy(d.shards, LabIgnored);
    IgnoredRowsAscend(h, d);
    PartNumbersAreOk(h, d, shards);
    forall p | p in PartsOf(h, d, shards)
      ensures p.total == |shards| && CountOk(h, p.requiredCount, p.requiredDigest)
    {
      var i :| 0 <= i < |shards| && p == PartOf(h, d, shards[i]);
      PartsAreOk(h, d, shards[i]);
    }
  }

  /** The record passes the consumer's accounting unless it has more than 64 partitions. */
  lemma RecordAccounts(h: Hash, d: Plan, receipts: seq<Receipt>)
    requires HashOk(h) && VerifyOk(h, d, false, receipts) && d.schema == 2
    ensures var record := RecordOf(h, d, d.applicability.value.decisions, ObservedBy(receipts, LabIgnored));
            AccountingOk(h, InventoryOf(h, d, LabIgnored), record) <==> |OwnedBy(d.shards, LabIgnored)| <= 64
  {
    var observed := ObservedBy(receipts, LabIgnored);
    assert RecordOf(h, d, d.applicability.value.decisions, observed).status == NOT_EXECUTED;
    hide RecordOf, InventoryOf, CountOk, OwnedBy, HashOk, ReceiptsOk, Expected, RoundRobin, ApplicabilityOk,
      PartitionsOk, ShardOk, DistinctIds, OwnerRows, UniqueIds, AllRows, Sort;
    RecordInventories(h, d, observed);
    InventoryIsRecord(h, d, observed);
    RecordSums(h, d, receipts);
    RecordPartitions(h, d, observed);
  }

  /**
   * Producer and consumer agree: the consumer accepts the summary of a verified plan if and only if the identity in the
   * decisions is written the same as in the plan, and the ignored tests have at most 64 shards.
   */
  lemma Agreement(h: Hash, d: Plan, receipts: seq<Receipt>)
    requires HashOk(h) && VerifyOk(h, d, false, receipts) && d.schema == 2
    ensures FullOk(h, SummaryOf(h, d, ObservedBy(receipts, LabNormal), ObservedBy(receipts, LabIgnored)))
            <==> d.applicability.value.identity == d.identity && |OwnedBy(d.shards, LabIgnored)| <= 64
  {
    hide Ids, UniqueIds, AllRows, HashOk, OwnedBy, RoundRobin, ReceiptsOk, AccountingOk, DecisionsOk, RecordOf,
      OmittedRows, PartitionsOk, ShardOk, InventoryOf, Omitted, Expected;
    RecordAccounts(h, d, receipts);
    RecordDecisionsAgree(h, d, ObservedBy(receipts, LabIgnored));
    assert IsDigest(d.applicabilityDigest) by { DigestsAre(h, Decisions(d.applicability.value)); }
    RecordCounts(h, d, d.applicability.value.decisions, ObservedBy(receipts, LabIgnored));
  }

  lemma DigestsAre(h: Hash, m: Material)
    requires HashOk(h)
    ensures IsDigest(h(m))
  {
  }

  lemma RecordCounts(h: Hash, d: Plan, decisions: seq<Decision>, observed: int)
    ensures var r := RecordOf(h, d, decisions, observed);
            r.compiledCount == |OwnerRows(d, LabIgnored)| && r.compiledDigest == h(Rows(OwnerRows(d, LabIgnored)))
  {
  }

  /** For plans of the planner, whatever the shard count it accepts, only the identity decides. */
  lemma PlannedAgreement(
    h: Hash, identity: Identity, manifest: string, definitions: Definitions, rows: seq<Row>, n: nat, a: Applicability,
    receipts: seq<Receipt>)
    requires HashOk(h) && Ascending(rows) && DefinitionsOk(definitions) && Classified(definitions, rows) && 1 <= n <= 64
    requires var d := Planned(h, identity, manifest, definitions, rows, n).(
                        schema := 2, applicability := Some(a), applicabilityDigest := h(Decisions(a)));
             VerifyOk(h, d, false, receipts)
    ensures var d := Planned(h, identity, manifest, definitions, rows, n).(
                       schema := 2, applicability := Some(a), applicabilityDigest := h(Decisions(a)));
            FullOk(h, SummaryOf(h, d, ObservedBy(receipts, LabNormal), ObservedBy(receipts, LabIgnored)))
            <==> a.identity == identity
  {
    hide HashOk, Ascending, DefinitionsOk, Classified, VerifyOk, FullOk, SummaryOf, OwnedBy, Group, Slice, ObservedBy;
    var d := Planned(h, identity, manifest, definitions, rows, n).(
               schema := 2, applicability := Some(a), applicabilityDigest := h(Decisions(a)));
    PlannedOwners(definitions, rows, n, LabIgnored);
    Agreement(h, d, receipts);
  }

  // ----- A run that the two sides judge differently -----

  /** Two readings of one pull request number that the producer takes for equal and the consumer does not. */
  lemma NumbersMayDiffer()
    ensures SameIdentity(map["pr" := Whole(10)], map["pr" := Decimal(10.0)])
            && map["pr" := Whole(10)] != map["pr" := Decimal(10.0)]
  {
    var a, b := map["pr" := Whole(10)], map["pr" := Decimal(10.0)];
    assert a["pr"] != b["pr"];
  }

  const ONE_TEST := Row(TestId("core", "works"), false)

  /** The plan of one normal test, with decisions that were read under another identity. */
  function OneTestPlan(h: Hash, planned: Identity, decided: Identity): Plan {
    var digest := h(Rows([ONE_TEST]));
    var a := Applicability(2, decided, "manifest", digest, LabIgnored, 0, h(Rows([])), []);
    Planned(h, planned, "manifest", map[], [ONE_TEST], 1).(
      schema := 2, applicability := Some(a), applicabilityDigest := h(Decisions(a)))
  }

  function OneReceipt(h: Hash, d: Plan): Receipt {
    Receipt(ShardId(LabNormal, 0), LabNormal, 0, 1, 0, 1, 1, true, true, [ONE_TEST.id], 2, d.applicabilityDigest,
            h(Rows([ONE_TEST])), [ONE_TEST.id])
  }

  lemma OneTestShards(h: Hash, planned: Identity, decided: Identity)
    ensures OneTestPlan(h, planned, decided).shards == [Shard(ShardId(LabNormal, 0), 0, 1, LabNormal, 1, [ONE_TEST])]
  {
    var rows := [ONE_TEST];
    assert rows[..0] == [];
    assert Group(map[], rows, LabNormal) == rows;
    assert Group(map[], rows, LabIgnored) == [];
    assert Slice(rows, 0, 1) == rows;
    assert Shards(LabNormal, rows, 1, 1) == [NewShard(LabNormal, rows, 0, 1)];
  }

  lemma OneTestPlanOk(h: Hash, planned: Identity, decided: Identity)
    requires SameIdentity(decided, planned)
    ensures PlanOk(h, OneTestPlan(h, planned, decided))
  {
    hide Slice, ShardId, SameIdentity, PlanOk;
    var d := OneTestPlan(h, planned, decided);
    OneTestShards(h, planned, decided);
    assert d.shards[..0] == [];
    assert OwnedBy(d.shards[..0], LabIgnored) == [];
    assert OwnedBy(d.shards, LabIgnored) == [];
    assert OwnerRows(d, LabIgnored) == [];
    assert IdList([]) == [] && DecidedIds([]) == [];
    ApplicableIsOk(h, planned, "manifest", map[], [ONE_TEST], 1, d.applicability.value);
  }

  lemma OneTestVerified(h: Hash, planned: Identity, decided: Identity)
    requires SameIdentity(decided, planned)
    ensures var d := OneTestPlan(h, planned, decided); VerifyOk(h, d, false, [OneReceipt(h, d)])
  {
    hide ShardId, SameIdentity, PlanOk, OneTestPlan;
    var d := OneTestPlan(h, planned, decided);
    OneTestPlanOk(h, planned, decided);
    OneTestShards(h, planned, decided);
    var s, r := d.shards[0], OneReceipt(h, d);
    assert d.shards[..0] == [];
    assert Expected(d, false, d.shards[..0]) == [];
    assert Expected(d, false, d.shards) == [s];
    IdsOfOne(ONE_TEST);
    assert Sort([ONE_TEST]) == [ONE_TEST] by { assert [ONE_TEST][..0] == []; }
    assert ReceiptOk(h, d, s, r);
    assert ReceiptIds([r]) == ShardIds([s]);
  }

  /** The producer accepts this run, and the consumer does not. */
  lemma OnlyTheProducerAccepts(h: Hash)
    requires HashOk(h)
    ensures var d := OneTestPlan(h, map["pr" := Whole(10)], map["pr" := Decimal(10.0)]);
            var receipts := [OneReceipt(h, d)];
            && VerifyOk(h, d, false, receipts)
            && !FullOk(h, SummaryOf(h, d, ObservedBy(receipts, LabNormal), ObservedBy(receipts, LabIgnored)))
  {
    hide HashOk, VerifyOk, FullOk, SummaryOf, ObservedBy, OwnedBy, ShardId, PlannedShards;
    var planned, decided := map["pr" := Whole(10)], map["pr" := Decimal(10.0)];
    NumbersMayDiffer();
    OneTestVerified(h, planned, decided);
    var d := OneTestPlan(h, planned, decided);
    Agreement(h, d, [OneReceipt(h, d)]);
  }

  /** Digests of the assumed kind exist. */
  function SampleHash(m: Material): string {
    if m == Rows([]) then Repeat('0', 64) else Repeat('1', 64)
  }

  function Repeat(c: char, n: nat): (s: string)
    ensures |s| == n && forall x <- s :: x == c
  {
    if n == 0 then "" else Repeat(c, n - 1) + [c]
  }

  lemma SampleHashIsOk()
    ensures HashOk(SampleHash)
  {
    assert Repeat('0', 64)[0] != Repeat('1', 64)[0] by {
      assert Repeat('0', 64)[0] in Repeat('0', 64) && Repeat('1', 64)[0] in Repeat('1', 64);
    }
  }
}
