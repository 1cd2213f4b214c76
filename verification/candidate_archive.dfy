/** The compact archive of a candidate receipt: local checks per owner and shard, and what they add up to. */
module CandidateArchive {
  import opened Wrappers
  import opened Shared
  import opened ArchivePlan
  import opened ArchivePlanner
  import opened ArchiveVerify
  import opened CandidateApplicability

  /** One owner of the qualification plan. */
  datatype OwnerEntry = OwnerEntry(owner: Owner, required: bool, reason: string, expected: int, digest: string)

  datatype ShardEntry = ShardEntry(
    id: string, owner: Owner, partition: int, total: int, expected: int, observed: int, clean: bool, exitCode: int,
    requiredDigest: string, bound: bool)

  datatype Archive = Archive(
    testCount: int, shardsVerified: int, observedCount: int, expectedOwners: map<Owner, int>,
    observedOwners: map<Owner, int>,
    ownerInventory: map<Owner, (int, string)>, pending: map<Owner, int>, exclusions: map<Owner, (int, string)>,
    record: Option<OwnerRecord>)

  /** `gates` holds the passed count of each gate by name; `bound` says that the digests and identities match. */
  datatype Candidate = Candidate(
    version: int, owners: seq<OwnerEntry>, archive: Archive, shards: seq<ShardEntry>, gates: map<string, int>,
    bound: bool)

  const OWNERS := SHARDED + NON_SHARDED

  /** The sum of a counter whose keys are owners. */
  function Total(m: map<Owner, int>): int {
    Count(m, LabNormal) + Count(m, LabIgnored) + Count(m, BuilderCompiler) + Count(m, ProtectedDiagnostic)
    + Count(m, LiveSession) + Count(m, ManualBenchmark)
  }

  predicate CounterOk(m: map<Owner, int>, owners: set<Owner>) {
    m.Keys <= owners && forall o <- m :: m[o] >= 0
  }

  function Owned(shards: seq<ShardEntry>, owner: Owner): seq<ShardEntry> {
    if shards == [] then []
    else
      var n := |shards| - 1;
      Owned(shards[..n], owner) + if shards[n].owner == owner then [shards[n]] else []
  }

  function SumExpected(shards: seq<ShardEntry>): int {
    if shards == [] then 0 else SumExpected(shards[..|shards| - 1]) + shards[|shards| - 1].expected
  }

  function SumObserved(shards: seq<ShardEntry>): int {
    if shards == [] then 0 else SumObserved(shards[..|shards| - 1]) + shards[|shards| - 1].observed
  }

  function Numbers(shards: seq<ShardEntry>): (r: seq<int>)
    ensures |r| == |shards| && forall i | 0 <= i < |r| :: r[i] == shards[i].partition
  {
    seq(|shards|, i requires 0 <= i < |shards| => shards[i].partition)
  }

  /** The partitions that have something to execute. */
  function NeededParts(parts: seq<Part>): seq<int> {
    if parts == [] then []
    else
      var n := |parts| - 1;
      NeededParts(parts[..n]) + if parts[n].requiredCount != 0 then [parts[n].partition] else []
  }

  function PartFor(parts: seq<Part>, partition: int): Option<Part> {
    if parts == [] then None
    else if parts[0].partition == partition then Some(parts[0])
    else PartFor(parts[1..], partition)
  }

  function GateName(owner: Owner): string {
    if owner == BuilderCompiler then "rust-compiler-tests" else OwnerName(owner) + "-tests"
  }

  /** The ignored owner's record, which only version 2 has. */
  function Mixed(r: Candidate, owner: Owner): Option<OwnerRecord> {
    if r.version == 2 && owner == LabIgnored then r.archive.record else None
  }

  predicate ShardEntryOk(h: Hash, r: Candidate, owner: Owner, total: nat, s: ShardEntry) {
    && s.total == total && s.expected > 0 && s.expected == s.observed && s.clean && s.exitCode == 0 && s.bound
    && s.partition >= 0 && s.id == ShardId(owner, s.partition)
    && (r.version == 2 ==> IsDigest(s.requiredDigest) && s.requiredDigest != EmptyDigest(h))
    && (Mixed(r, owner).Some? ==>
          var part := PartFor(Mixed(r, owner).value.partitions, s.partition);
          part.Some? && s.expected == part.value.requiredCount && s.requiredDigest == part.value.requiredDigest)
  }

  predicate LabOwnerOk(h: Hash, r: Candidate, e: OwnerEntry) {
    var owned, observed, mixed := Owned(r.shards, e.owner), Count(r.archive.observedOwners, e.owner), Mixed(r, e.owner);
    if mixed.None? && !e.required then
      owned == [] && observed == 0 && (e.expected != 0 ==> e.owner in r.archive.exclusions)
    else
      var total := if mixed.Some? then |mixed.value.partitions| else |owned|;
      var parts := if mixed.Some? then NeededParts(mixed.value.partitions) else Range(total);
      var expected := if mixed.Some? then mixed.value.requiredCount else e.expected;
      && (mixed.Some? ==> e.required == (mixed.value.requiredCount > 0))
      && e.owner !in r.archive.exclusions
      && observed == expected
      && multiset(Numbers(owned)) == multiset(parts) && SumExpected(owned) == expected
      && forall s <- owned :: ShardEntryOk(h, r, e.owner, total, s)
  }

  predicate OtherOwnerOk(r: Candidate, e: OwnerEntry) {
    && (forall s <- r.shards :: s.owner != e.owner)
    && Count(r.archive.pending, e.owner) == e.expected && Count(r.archive.observedOwners, e.owner) == 0
    && (e.required && e.expected != 0 ==> GateName(e.owner) in r.gates && r.gates[GateName(e.owner)] == e.expected)
  }

  predicate OwnerOk(h: Hash, r: Candidate, e: OwnerEntry) {
    && !Blank(e.reason) && e.expected >= 0 && IsDigest(e.digest)
    && e.owner in r.archive.ownerInventory && r.archive.ownerInventory[e.owner] == (e.expected, e.digest)
    && e.expected == Count(r.archive.expectedOwners, e.owner)
    && if e.owner in SHARDED then LabOwnerOk(h, r, e) else OtherOwnerOk(r, e)
  }

  /** The checks before the owners are looked at one by one. */
  predicate FrameOk(h: Hash, r: Candidate) {
    var a := r.archive;
    && r.bound && r.version in {1, 2}
    && (r.version == 2 ==> a.record.Some? && LabIgnored in a.ownerInventory
                           && AccountingOk(h, a.ownerInventory[LabIgnored], a.record.value) && a.exclusions == map[])
    && |r.owners| == |OWNERS| && (set e <- r.owners :: e.owner) == OWNERS && a.ownerInventory.Keys == OWNERS
    && CounterOk(a.expectedOwners, OWNERS) && CounterOk(a.observedOwners, OWNERS)
    && a.testCount > 0 && a.testCount == Total(a.expectedOwners)
    && CounterOk(a.pending, NON_SHARDED)
    && a.exclusions.Keys <= {LabIgnored}
    && (forall o <- a.exclusions :: o in a.ownerInventory && a.exclusions[o] == a.ownerInventory[o])
    && r.shards != [] && forall s <- r.shards :: s.owner in SHARDED
  }

  /** Every check but the last, which version 2 makes on the totals. */
  predicate LocallyOk(h: Hash, r: Candidate) {
    && FrameOk(h, r) && (forall e <- r.owners :: OwnerOk(h, r, e))
    && r.archive.shardsVerified == |r.shards|
    && r.archive.observedCount > 0 && r.archive.observedCount == SumObserved(r.shards)
    && r.archive.observedCount == Total(r.archive.observedOwners)
  }

  /** The tests that were left out, one by one or as a whole owner. */
  function LeftOut(r: Candidate): int {
    if r.version == 2 && r.archive.record.Some? then r.archive.record.value.notApplicableCount
    else if LabIgnored in r.archive.exclusions then r.archive.exclusions[LabIgnored].0
    else 0
  }

  /** Nothing is lost: the compiled tests are the observed, the left out and the pending ones. */
  predicate Conserved(r: Candidate) {
    r.archive.testCount == r.archive.observedCount + LeftOut(r) + Total(r.archive.pending)
  }

  lemma EntryOf(r: Candidate, owner: Owner) returns (e: OwnerEntry)
    requires (set e <- r.owners :: e.owner) == OWNERS && owner in OWNERS
    ensures e in r.owners && e.owner == owner
  {
    assert owner in set e <- r.owners :: e.owner;
    e :| e in r.owners && e.owner == owner;
  }

  lemma OtherOwnerCounts(h: Hash, r: Candidate, owner: Owner)
    requires LocallyOk(h, r) && owner in NON_SHARDED
    ensures Count(r.archive.expectedOwners, owner) == Count(r.archive.pending, owner)
    ensures Count(r.archive.observedOwners, owner) == 0
  {
    hide Total, CounterOk, SumObserved, AccountingOk;
    var e := EntryOf(r, owner);
    assert OwnerOk(h, r, e);
  }

  lemma NormalCounts(h: Hash, r: Candidate)
    requires LocallyOk(h, r)
    ensures Count(r.archive.expectedOwners, LabNormal) == Count(r.archive.observedOwners, LabNormal)
  {
    hide Total, CounterOk, SumObserved, AccountingOk, ShardEntryOk, Owned;
    var e := EntryOf(r, LabNormal);
    assert OwnerOk(h, r, e);
  }

  lemma IgnoredCounts(h: Hash, r: Candidate)
    requires LocallyOk(h, r)
    ensures Count(r.archive.expectedOwners, LabIgnored) == Count(r.archive.observedOwners, LabIgnored) + LeftOut(r)
  {
    hide Total, CounterOk, SumObserved, ShardEntryOk, Owned;
    var e := EntryOf(r, LabIgnored);
    assert OwnerOk(h, r, e);
  }

  /** Version 1 never checks the totals, and the check of version 2 always passes. */
  lemma LocalChecksConserve(h: Hash, r: Candidate)
    requires LocallyOk(h, r)
    ensures Conserved(r)
  {
    hide OwnerOk, CounterOk, SumObserved, AccountingOk, LeftOut;
    NormalCounts(h, r);
    IgnoredCounts(h, r);
    OtherOwnerCounts(h, r, BuilderCompiler);
    OtherOwnerCounts(h, r, ProtectedDiagnostic);
    OtherOwnerCounts(h, r, LiveSession);
    OtherOwnerCounts(h, r, ManualBenchmark);
    NoPendingLab(h, r);
  }

  lemma NoPendingLab(h: Hash, r: Candidate)
    requires LocallyOk(h, r)
    ensures Count(r.archive.pending, LabNormal) == 0 && Count(r.archive.pending, LabIgnored) == 0
  {
  }

  // ----- Shards against owners -----

  lemma {:induction false} OwnedSums(shards: seq<ShardEntry>)
    requires forall s <- shards :: s.owner in SHARDED
    ensures SumObserved(shards) == SumObserved(Owned(shards, LabNormal)) + SumObserved(Owned(shards, LabIgnored))
  {
    if shards != [] {
      var n := |shards| - 1;
      OwnedSums(shards[..n]);
      var mine := Owned(shards[..n], shards[n].owner);
      assert (mine + [shards[n]])[..|mine|] == mine;
      var other := if shards[n].owner == LabNormal then LabIgnored else LabNormal;
      assert Owned(shards[..n], other) + [] == Owned(shards[..n], other);
    }
  }

  lemma {:induction false} ExpectedIsObserved(shards: seq<ShardEntry>)
    requires forall s <- shards :: s.expected == s.observed
    ensures SumExpected(shards) == SumObserved(shards)
  {
    if shards != [] {
      ExpectedIsObserved(shards[..|shards| - 1]);
    }
  }

  lemma OwnerShards(h: Hash, r: Candidate, owner: Owner)
    requires FrameOk(h, r) && (forall e <- r.owners :: OwnerOk(h, r, e)) && owner in SHARDED
    ensures SumObserved(Owned(r.shards, owner)) == Count(r.archive.observedOwners, owner)
  {
    hide Total, CounterOk, AccountingOk, Owned, PartFor, NeededParts;
    var e := EntryOf(r, owner);
    assert OwnerOk(h, r, e);
    if Owned(r.shards, owner) != [] {
      ExpectedIsObserved(Owned(r.shards, owner));
    }
  }

  /** The two totals that are compared with the observed count are the same number. */
  lemma ShardsAreObserved(h: Hash, r: Candidate)
    requires FrameOk(h, r) && forall e <- r.owners :: OwnerOk(h, r, e)
    ensures SumObserved(r.shards) == Total(r.archive.observedOwners)
  {
    hide OwnerOk, CounterOk, AccountingOk, SumObserved;
    OwnedSums(r.shards);
    OwnerShards(h, r, LabNormal);
    OwnerShards(h, r, LabIgnored);
    OtherIsUnobserved(h, r, BuilderCompiler);
    OtherIsUnobserved(h, r, ProtectedDiagnostic);
    OtherIsUnobserved(h, r, LiveSession);
    OtherIsUnobserved(h, r, ManualBenchmark);
  }

  lemma OtherIsUnobserved(h: Hash, r: Candidate, owner: Owner)
    requires FrameOk(h, r) && (forall e <- r.owners :: OwnerOk(h, r, e)) && owner in NON_SHARDED
    ensures Count(r.archive.observedOwners, owner) == 0
  {
    hide Total, CounterOk, AccountingOk, LabOwnerOk, IsDigest, Blank;
    var e := EntryOf(r, owner);
    assert OwnerOk(h, r, e);
  }

  // ----- The check -----

  method CheckShards(h: Hash, r: Candidate, owner: Owner, total: nat, owned: seq<ShardEntry>) returns (ok: bool)
    ensures ok == forall s <- owned :: ShardEntryOk(h, r, owner, total, s)
  {
    hide ShardEntryOk;
    for i := 0 to |owned|
      invariant forall s <- owned[..i] :: ShardEntryOk(h, r, owner, total, s)
    {
      if !ShardEntryOk(h, r, owner, total, owned[i]) {
        assert owned[i] in owned;
        return false;
      }
      assert owned[..i + 1] == owned[..i] + [owned[i]];
    }
    assert owned[..|owned|] == owned;
    ok := true;
  }

  method CheckLabOwner(h: Hash, r: Candidate, e: OwnerEntry) returns (ok: bool)
    ensures ok == LabOwnerOk(h, r, e)
  {
    hide ShardEntryOk, Owned, NeededParts, SumExpected, PartFor;
    var owned, observed, mixed := Owned(r.shards, e.owner), Count(r.archive.observedOwners, e.owner), Mixed(r, e.owner);
    if mixed.Some? {
      if e.required != (mixed.value.requiredCount > 0) {
        return false;
      }
    } else if !e.required {
      return owned == [] && observed == 0 && (e.expected != 0 ==> e.owner in r.archive.exclusions);
    }
    if e.owner in r.archive.exclusions {
      return false;
    }
    var total := if mixed.Some? then |mixed.value.partitions| else |owned|;
    var parts := if mixed.Some? then NeededParts(mixed.value.partitions) else Range(total);
    var expected := if mixed.Some? then mixed.value.requiredCount else e.expected;
    if observed != expected || multiset(Numbers(owned)) != multiset(parts) || SumExpected(owned) != expected {
      return false;
    }
    ok := CheckShards(h, r, e.owner, total, owned);
  }

  /** Accepts exactly the receipts whose local checks pass; those are conserved. */
  method ValidateArchive(h: Hash, r: Candidate) returns (ok: bool)
    ensures ok == LocallyOk(h, r)
    ensures ok ==> Conserved(r)
  {
    hide FrameOk, LabOwnerOk, OtherOwnerOk, SumObserved, Total, Conserved;
    if !FrameOk(h, r) {
      return false;
    }
    for i := 0 to |r.owners|
      invariant forall e <- r.owners[..i] :: OwnerOk(h, r, e)
    {
      var e := r.owners[i];
      assert e in r.owners && r.owners[..i + 1] == r.owners[..i] + [e];
      var a := r.archive;
      if Blank(e.reason) || e.expected < 0 || !IsDigest(e.digest) || e.owner !in a.ownerInventory
         || a.ownerInventory[e.owner] != (e.expected, e.digest) || e.expected != Count(a.expectedOwners, e.owner) {
        return false;
      }
      if e.owner in SHARDED {
        var fine := CheckLabOwner(h, r, e);
        if !fine {
          return false;
        }
      } else if !OtherOwnerOk(r, e) {
        return false;
      }
    }
    assert r.owners[..|r.owners|] == r.owners;
    if r.archive.shardsVerified != |r.shards| || r.archive.observedCount <= 0
       || r.archive.observedCount != SumObserved(r.shards)
       || r.archive.observedCount != Total(r.archive.observedOwners) {
      return false;
    }
    LocalChecksConserve(h, r);
    ok := true;
  }
}
