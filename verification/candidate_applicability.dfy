/** The consumer's own check of a summary with decisions, written without the producer's functions. */
module CandidateApplicability {
  import opened Wrappers
  import opened Shared
  import opened ArchiveOrder
  import opened ArchivePlan
  import opened ArchiveVerify

  /** The digest of rows in any order. */
  function InventoryDigest(h: Hash, rows: seq<Row>): string {
    h(Rows(Sort(rows)))
  }

  function EmptyDigest(h: Hash): string {
    InventoryDigest(h, [])
  }

  // ----- The ignored owner's record -----

  predicate CountOk(h: Hash, count: int, digest: string) {
    count >= 0 && IsDigest(digest) && (count == 0 <==> digest == EmptyDigest(h))
  }

  function SumRequired(parts: seq<Part>): int {
    if parts == [] then 0 else SumRequired(parts[..|parts| - 1]) + parts[|parts| - 1].requiredCount
  }

  function PartNumbers(parts: seq<Part>): (r: seq<int>)
    ensures |r| == |parts| && forall i | 0 <= i < |r| :: r[i] == parts[i].partition
  {
    seq(|parts|, i requires 0 <= i < |parts| => parts[i].partition)
  }

  predicate AccountingOk(h: Hash, inventory: (int, string), record: OwnerRecord) {
    && CountOk(h, record.compiledCount, record.compiledDigest)
    && CountOk(h, record.requiredCount, record.requiredDigest)
    && CountOk(h, record.notApplicableCount, record.notApplicableDigest)
    && (record.compiledCount, record.compiledDigest) == inventory
    && record.requiredCount + record.notApplicableCount == record.compiledCount
    && record.status == NOT_EXECUTED && record.observedRequired == record.requiredCount
    && |record.partitions| <= 64 && |record.partitions| <= record.compiledCount
    && (record.partitions != [] <==> record.compiledCount != 0)
    && (forall p <- record.partitions ::
          p.total == |record.partitions| && CountOk(h, p.requiredCount, p.requiredDigest))
    && multiset(PartNumbers(record.partitions)) == multiset(Range(|record.partitions|))
    && SumRequired(record.partitions) == record.requiredCount
  }

  // ----- The decisions -----

  predicate Blank(s: string) {
    forall c <- s :: c == ' '
  }

  predicate ReadableDecision(x: Decision) {
    TextOk(x.id.binary) && TextOk(x.id.name) && TextOk(x.reason) && !Blank(x.reason)
  }

  function DecidedRow(x: Decision): Row {
    Row(x.id, true)
  }

  /** The rows of the decisions that are, or are not, required. */
  function DecidedRows(decisions: seq<Decision>, required: bool): seq<Row> {
    if decisions == [] then []
    else
      var n := |decisions| - 1;
      DecidedRows(decisions[..n], required)
      + if decisions[n].required == required then [DecidedRow(decisions[n])] else []
  }

  function AllDecided(decisions: seq<Decision>): (r: seq<Row>)
    ensures |r| == |decisions| && forall i | 0 <= i < |r| :: r[i] == DecidedRow(decisions[i])
  {
    seq(|decisions|, i requires 0 <= i < |decisions| => DecidedRow(decisions[i]))
  }

  function Excluded(decisions: seq<Decision>): seq<OmittedRow> {
    if decisions == [] then []
    else
      var n := |decisions| - 1;
      Excluded(decisions[..n])
      + if decisions[n].required then [] else [OmittedRow(DecidedRow(decisions[n]), decisions[n].reason, NOT_EXECUTED)]
  }

  function IdSet(rows: seq<Row>): set<TestId> {
    set r <- rows :: r.id
  }

  predicate PartOk(h: Hash, sorted: seq<Row>, required: set<TestId>, p: Part) {
    && p.partition >= 0 && p.total > 0
    && var selected := Select(Slice(sorted, p.partition, p.total), required, true);
       |selected| == p.requiredCount && InventoryDigest(h, selected) == p.requiredDigest
  }

  predicate DecisionsOk(h: Hash, decisions: seq<Decision>, record: OwnerRecord, actual: seq<OmittedRow>) {
    var rows, required, excluded := AllDecided(decisions), DecidedRows(decisions, true), DecidedRows(decisions, false);
    && (forall x <- decisions :: ReadableDecision(x))
    && UniqueIds(rows) && |rows| == record.compiledCount && InventoryDigest(h, rows) == record.compiledDigest
    && |required| == record.requiredCount && InventoryDigest(h, required) == record.requiredDigest
    && |excluded| == record.notApplicableCount && InventoryDigest(h, excluded) == record.notApplicableDigest
    && multiset(actual) == multiset(Excluded(decisions))
    && (forall p <- record.partitions :: PartOk(h, Sort(rows), IdSet(required), p))
  }

  /** Whether the consumer accepts the summary. */
  predicate FullOk(h: Hash, s: Summary) {
    && s.applicability.Some? && s.record.Some? && LabIgnored in s.ownerInventory
    && var a, record := s.applicability.value, s.record.value;
       && a.schema == 2 && a.owner == LabIgnored
       && a.identity == s.identity && a.manifest == s.manifest && a.inventoryDigest == s.inventoryDigest
       && IsDigest(s.applicabilityDigest) && h(Decisions(a)) == s.applicabilityDigest
       && AccountingOk(h, s.ownerInventory[LabIgnored], record)
       && a.ownerCount == record.compiledCount && a.ownerDigest == record.compiledDigest
       && DecisionsOk(h, a.decisions, record, s.notApplicableTests)
  }

  /** Splits the decisions into rows, or finds one that cannot be read. */
  method ReadDecisions(decisions: seq<Decision>)
    returns (readable: bool, rows: seq<Row>, required: seq<Row>, excluded: seq<Row>, omitted: seq<OmittedRow>)
    ensures readable <==> forall x <- decisions :: ReadableDecision(x)
    ensures readable ==>
              && rows == AllDecided(decisions) && omitted == Excluded(decisions)
              && required == DecidedRows(decisions, true) && excluded == DecidedRows(decisions, false)
  {
    hide ReadableDecision;
    readable, rows, required, excluded, omitted := true, [], [], [], [];
    for i := 0 to |decisions|
      invariant readable && forall x <- decisions[..i] :: ReadableDecision(x)
      invariant rows == AllDecided(decisions[..i])
      invariant required == DecidedRows(decisions[..i], true) && excluded == DecidedRows(decisions[..i], false)
      invariant omitted == Excluded(decisions[..i])
    {
      var x := decisions[i];
      assert decisions[..i + 1][..i] == decisions[..i];
      if !ReadableDecision(x) {
        assert x in decisions;
        readable := false;
        return;
      }
      rows := rows + [DecidedRow(x)];
      if x.required {
        required := required + [DecidedRow(x)];
      } else {
        excluded := excluded + [DecidedRow(x)];
        omitted := omitted + [OmittedRow(DecidedRow(x), x.reason, NOT_EXECUTED)];
      }
    }
    assert decisions[..|decisions|] == decisions;
  }

  /** The consumer's check, decision by decision. */
  method ValidateFullApplicability(h: Hash, s: Summary) returns (ok: bool)
    ensures ok == FullOk(h, s)
  {
    hide AccountingOk, ReadableDecision, PartOk, Select, Sort, UniqueIds, IsDigest, AllDecided, DecidedRows, Excluded;
    if s.applicability.None? || s.record.None? || LabIgnored !in s.ownerInventory {
      return false;
    }
    var a, record := s.applicability.value, s.record.value;
    if a.schema != 2 || a.owner != LabIgnored || a.identity != s.identity || a.manifest != s.manifest
       || a.inventoryDigest != s.inventoryDigest || !IsDigest(s.applicabilityDigest)
       || h(Decisions(a)) != s.applicabilityDigest || !AccountingOk(h, s.ownerInventory[LabIgnored], record)
       || a.ownerCount != record.compiledCount || a.ownerDigest != record.compiledDigest {
      return false;
    }
    var readable, rows, required, excluded, omitted := ReadDecisions(a.decisions);
    if !readable {
      return false;
    }
    ok := UniqueIds(rows) && |rows| == record.compiledCount && InventoryDigest(h, rows) == record.compiledDigest
    && |required| == record.requiredCount && InventoryDigest(h, required) == record.requiredDigest
    && |excluded| == record.notApplicableCount && InventoryDigest(h, excluded) == record.notApplicableDigest
    && multiset(s.notApplicableTests) == multiset(omitted)
    && forall p <- record.partitions :: PartOk(h, Sort(rows), IdSet(required), p);
  }
}
