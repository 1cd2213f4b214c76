/** Test plans: shards per owner, the rows that are not sharded, and decisions about ignored tests. */
module ArchivePlan {
  import opened Wrappers
  import opened ArchiveOrder

  datatype Error = ArchiveError

  type Result<+T> = Fallible<T, Error>

  datatype Owner =
    | LabNormal | LabIgnored | BuilderCompiler | ProtectedDiagnostic | LiveSession | ManualBenchmark
    | OtherOwner(name: string)

  /** A JSON scalar as it is parsed: `1`, `1.0` and `true` are three values with one numeric value. */
  datatype Scalar = Whole(n: int) | Decimal(x: real) | Boolean(b: bool) | Text(s: string)

  /** The fields that say which change the tests were compiled from. */
  type Identity = map<string, Scalar>

  datatype Shard = Shard(id: string, partition: int, total: int, owner: Owner, expected: int, tests: seq<Row>)

  datatype Decision = Decision(id: TestId, required: bool, reason: string)

  datatype Applicability = Applicability(
    schema: int, identity: Identity, manifest: string, inventoryDigest: string, owner: Owner, ownerCount: int,
    ownerDigest: string, decisions: seq<Decision>)

  datatype Plan = Plan(
    schema: int, identity: Identity, manifest: string, inventoryDigest: string, testCount: int, shards: seq<Shard>,
    nonSharded: map<Owner, seq<Row>>, applicability: Option<Applicability>, applicabilityDigest: string)

  /** What is digested. */
  datatype Material = Rows(rows: seq<Row>) | Decisions(decided: Applicability)

  type Hash = Material -> string

  // ----- Equality of identities -----

  function Numeric(s: Scalar): Option<real> {
    match s
    case Whole(n) => Some(n as real)
    case Decimal(x) => Some(x)
    case Boolean(b) => Some(if b then 1.0 else 0.0)
    case Text(_) => None
  }

  /** Equality of parsed values, which compares numbers by value. */
  predicate SameScalar(a: Scalar, b: Scalar) {
    if Numeric(a).Some? && Numeric(b).Some? then Numeric(a) == Numeric(b) else a == b
  }

  predicate SameIdentity(a: Identity, b: Identity) {
    a.Keys == b.Keys && forall k <- a :: SameScalar(a[k], b[k])
  }

  // ----- Plans -----

  const SHARDED := {LabNormal, LabIgnored}

  const NON_SHARDED := {BuilderCompiler, ProtectedDiagnostic, LiveSession, ManualBenchmark}

  function TestsOf(shards: seq<Shard>): seq<Row> {
    if shards == [] then [] else TestsOf(shards[..|shards| - 1]) + shards[|shards| - 1].tests
  }

  function OwnedBy(shards: seq<Shard>, owner: Owner): seq<Shard> {
    if shards == [] then []
    else
      var rest := OwnedBy(shards[..|shards| - 1], owner);
      if shards[|shards| - 1].owner == owner then rest + [shards[|shards| - 1]] else rest
  }

  function Held(m: map<Owner, seq<Row>>, owner: Owner): seq<Row> {
    if owner in m then m[owner] else []
  }

  function NonShardedRows(m: map<Owner, seq<Row>>): seq<Row> {
    Held(m, BuilderCompiler) + Held(m, ProtectedDiagnostic) + Held(m, LiveSession) + Held(m, ManualBenchmark)
  }

  function AllRows(d: Plan): seq<Row> {
    TestsOf(d.shards) + NonShardedRows(d.nonSharded)
  }

  predicate ShardOk(s: Shard) {
    && s.owner in SHARDED && |s.tests| == s.expected && s.expected > 0
    && forall r <- s.tests :: r.ignored == (s.owner == LabIgnored)
  }

  predicate DistinctIds(shards: seq<Shard>) {
    forall i, j | 0 <= i < j < |shards| :: shards[i].id != shards[j].id
  }

  function Range(n: nat): (r: seq<int>)
    ensures |r| == n && forall i | 0 <= i < n :: r[i] == i
  {
    seq(n, i => i)
  }

  function Partitions(shards: seq<Shard>): (r: seq<int>)
    ensures |r| == |shards| && forall i | 0 <= i < |r| :: r[i] == shards[i].partition
  {
    seq(|shards|, i requires 0 <= i < |shards| => shards[i].partition)
  }

  /** The shards of one owner are numbered 0, 1, … without gaps, and know how many they are. */
  predicate PartitionsOk(shards: seq<Shard>) {
    (forall s <- shards :: s.total == |shards|) && multiset(Partitions(shards)) == multiset(Range(|shards|))
  }

  /** The tests of one owner in order. */
  function OwnerRows(d: Plan, owner: Owner): seq<Row> {
    Sort(TestsOf(OwnedBy(d.shards, owner)))
  }

  predicate RoundRobin(shards: seq<Shard>, ordered: seq<Row>) {
    forall s <- shards :: s.partition >= 0 && s.total > 0 && s.tests == Slice(ordered, s.partition, s.total)
  }

  predicate PlanOk(h: Hash, d: Plan) {
    && d.schema in {1, 2}
    && DistinctIds(d.shards) && (forall s <- d.shards :: ShardOk(s))
    && PartitionsOk(OwnedBy(d.shards, LabNormal)) && PartitionsOk(OwnedBy(d.shards, LabIgnored))
    && d.nonSharded.Keys <= NON_SHARDED
    && UniqueIds(AllRows(d)) && |AllRows(d)| == d.testCount
    && h(Rows(Sort(AllRows(d)))) == d.inventoryDigest
    && (d.schema == 2 ==>
          && RoundRobin(OwnedBy(d.shards, LabNormal), OwnerRows(d, LabNormal))
          && RoundRobin(OwnedBy(d.shards, LabIgnored), OwnerRows(d, LabIgnored))
          && d.applicability.Some? && ApplicabilityOk(h, d, d.applicability.value))
  }

  // ----- Decisions -----

  predicate PrintableAscii(s: string) {
    forall c <- s :: ' ' <= c <= '~'
  }

  predicate TextOk(s: string) {
    1 <= |s| <= 1024 && PrintableAscii(s)
  }

  /** In printable ASCII the blank is the only character that stripping removes. */
  predicate Stripped(s: string) {
    s != "" ==> s[0] != ' ' && s[|s| - 1] != ' '
  }

  predicate DecisionOk(x: Decision) {
    TextOk(x.id.binary) && TextOk(x.id.name) && TextOk(x.reason) && Stripped(x.reason)
  }

  function DecidedIds(decisions: seq<Decision>): (r: seq<TestId>)
    ensures |r| == |decisions| && forall i | 0 <= i < |r| :: r[i] == decisions[i].id
  {
    seq(|decisions|, i requires 0 <= i < |decisions| => decisions[i].id)
  }

  /** The decisions are about this plan, and there is exactly one for each ignored lab test. */
  predicate ApplicabilityOk(h: Hash, d: Plan, a: Applicability) {
    var rows := OwnerRows(d, LabIgnored);
    && a.schema == 2 && a.owner == LabIgnored && h(Decisions(a)) == d.applicabilityDigest
    && SameIdentity(a.identity, d.identity) && a.manifest == d.manifest && a.inventoryDigest == d.inventoryDigest
    && a.ownerCount == |rows| && a.ownerDigest == h(Rows(rows))
    && |a.decisions| == |rows|
    && (forall x <- a.decisions :: DecisionOk(x))
    && multiset(DecidedIds(a.decisions)) == Ids(rows)
  }

  function RequiredIds(decisions: seq<Decision>): set<TestId> {
    set x | x in decisions && x.required :: x.id
  }

  /** What a shard has to execute. */
  function RequiredTests(d: Plan, s: Shard): seq<Row> {
    if d.schema == 1 || s.owner != LabIgnored || d.applicability.None? then s.tests
    else Select(s.tests, RequiredIds(d.applicability.value.decisions), true)
  }

  // ----- The check -----

  /** Goes over the shards once: their ids and rows, and who owns them. */
  method WalkShards(shards: seq<Shard>) returns (ok: bool, rows: seq<Row>, normal: seq<Shard>, ignored: seq<Shard>)
    ensures ok <==> DistinctIds(shards) && forall s <- shards :: ShardOk(s)
    ensures ok ==>
            rows == TestsOf(shards) && normal == OwnedBy(shards, LabNormal) && ignored == OwnedBy(shards, LabIgnored)
  {
    hide ShardOk;
    var ids: set<string> := {};
    rows, normal, ignored := [], [], [];
    for i := 0 to |shards|
      invariant forall s <- shards[..i] :: ShardOk(s)
      invariant DistinctIds(shards[..i]) && ids == set s <- shards[..i] :: s.id
      invariant rows == TestsOf(shards[..i])
      invariant normal == OwnedBy(shards[..i], LabNormal) && ignored == OwnedBy(shards[..i], LabIgnored)
    {
      var s := shards[i];
      assert shards[..i + 1][..i] == shards[..i] && shards[..i + 1][i] == s;
      if s.id in ids || !ShardOk(s) {
        return false, rows, normal, ignored;
      }
      ids := ids + {s.id};
      if s.owner == LabNormal {
        normal := normal + [s];
      }
      if s.owner == LabIgnored {
        ignored := ignored + [s];
      }
      rows := rows + s.tests;
    }
    assert shards[..|shards|] == shards;
    ok := true;
  }

  /** The plan check: shards, partitions, the inventory, and for schema 2 the slices and decisions. */
  method ValidatePlan(h: Hash, d: Plan) returns (ok: bool)
    ensures ok == PlanOk(h, d)
  {
    hide ShardOk, PartitionsOk, RoundRobin, ApplicabilityOk, UniqueIds, Sort, NonShardedRows, TestsOf, OwnedBy,
      DistinctIds;
    if d.schema !in {1, 2} {
      return false;
    }
    var fine, rows, normal, ignored := WalkShards(d.shards);
    if !fine || !PartitionsOk(normal) || !PartitionsOk(ignored) || !(d.nonSharded.Keys <= NON_SHARDED) {
      return false;
    }
    rows := rows + NonShardedRows(d.nonSharded);
    if !UniqueIds(rows) || |rows| != d.testCount || h(Rows(Sort(rows))) != d.inventoryDigest {
      return false;
    }
    if d.schema == 2 {
      if !RoundRobin(normal, Sort(TestsOf(normal))) || !RoundRobin(ignored, Sort(TestsOf(ignored))) {
        return false;
      }
      return d.applicability.Some? && ApplicabilityOk(h, d, d.applicability.value);
    }
    return true;
  }
}
