/** Three readiness steps that a plan may open with, of which two capture one name: the second cannot be replayed. */
module JourneyCollision {
  import JsonPointer
  import opened Wrappers
  import opened Shared
  import opened StringOrder
  import opened JourneyTemplate
  import opened JourneyLedger
  import opened JourneyEvidence
  import opened JourneyReferences
  import opened JourneyRunner

  function Probe(id: string, query: map<string, Json>, capture: map<string, CaptureType>): Step {
    Step(id, 0, Readiness, Get, "/health", NoRole, None, false, [200], None, query, capture, None, None)
  }

  /** The second step looks up what the first has captured, and the third captures the same name. */
  function Opening(): seq<Step> {
    [Probe("a", map[], map["b.c" := IdType]),
     Probe("x", map["q" := Obj(map["$ref" := Str("a.b.c")])], map[]),
     Probe("a.b", map[], map["c" := IdType])]
  }

  /** A plan that starts with these steps and goes on in any valid way. */
  predicate Opens(plan: Plan) {
    ValidPlan(plan) && PublicIds(plan) && Opening() <= plan.steps
  }

  lemma FirstThree(plan: Plan)
    requires Opens(plan)
    ensures |plan.steps| >= 3 && forall i | 0 <= i < 3 :: plan.steps[i] == Opening()[i]
  {
    hide ValidPlan, PublicIds;
  }

  /** No secret is so short that it occurs in a capture by chance. */
  predicate LongSecrets(creds: map<string, Credential>) {
    forall a <- creds :: |creds[a].secret| >= 16
  }

  /** A server that answers every step. */
  function GoodReply(): Reply {
    Reply(false, false, 200, map["b.c" := Str("p"), "c" := Str("r")], 1)
  }

  lemma ShortKeysArePublic(k: string)
    requires |k| < 5
    ensures !Sensitive(k)
  {
  }

  lemma {:induction false} OneSegment(s: string)
    requires forall k | 0 <= k < |s| :: 'a' <= s[k] <= 'z'
    ensures BeforeQuery(s) == s && JsonPointer.Split(s) == [s]
  {
    if s != "" {
      assert s == [s[0]] + s[1..];
      OneSegment(s[1..]);
    }
  }

  lemma OneSegmentPath(name: string)
    requires name != "" && forall k | 0 <= k < |name| :: 'a' <= name[k] <= 'z'
    ensures var s := "/" + name;
            && "/" <= s && !("//" <= s) && !Within("://", s) && BeforeQuery(s) == s
            && JsonPointer.Split(s) == ["", name]
            && (forall c <- s :: '!' <= c <= '~' && c != '%' && c != '\\')
  {
    var s := "/" + name;
    assert s[1..] == name && s[1] == name[0];
    OneSegment(name);
    forall i | 0 <= i <= |s|
      ensures !("://" <= s[i..])
    {
      if i < |s| {
        assert s[i..][0] == s[i];
      }
    }
  }

  lemma HealthIsPublic()
    ensures SafeText("/health")
  {
    hide BeforeQuery, JsonPointer.Split, Within;
    var s := "/health";
    assert s == "/" + "health";
    OneSegmentPath("health");
    assert s[|BeforeQuery(s)|..] == "";
    assert PublicPath(s);
  }

  lemma LookupIsTemplate(available: set<string>)
    requires "a.b.c" in available
    ensures ValidTemplate(Obj(map["$ref" := Str("a.b.c")]), available)
  {
    var m := map["$ref" := Str("a.b.c")];
    assert "$operation_id" !in m && m.Keys == {"$ref"};
  }

  lemma OpeningIsValid(plan: Plan, i: nat)
    requires plan.steps == Opening() && i < 3
    ensures ValidStep(plan, i)
  {
    hide Sensitive, ValidTemplate;
    ShortKeysArePublic("b.c");
    ShortKeysArePublic("c");
    ShortKeysArePublic("q");
    if i == 1 {
      assert RefName("a", "b.c") == "a.b.c";
      assert Available(plan.steps, 1) == StepRefs(plan.steps[0]);
      LookupIsTemplate(Available(plan.steps, 1));
    }
  }

  lemma OpeningIds(i: nat, j: nat)
    requires i < j < 3
    ensures Opening()[i].id != Opening()[j].id && !Sensitive(Opening()[i].id) && !Sensitive(Opening()[j].id)
  {
    ShortKeysArePublic(Opening()[i].id);
    ShortKeysArePublic(Opening()[j].id);
    assert |"a"| == 1 && |"x"| == 1 && |"a.b"| == 3 && "a"[0] != "x"[0];
  }

  /** Such plans exist under either schema. */
  lemma SomePlanOpens(schema: int)
    requires schema in {1, 2}
    ensures Opens(Plan(schema, "j", Opening()))
  {
    hide ValidStep, Sensitive;
    var plan := Plan(schema, "j", Opening());
    OpeningIds(0, 1);
    OpeningIds(1, 2);
    forall i, j | 0 <= i < j < |plan.steps|
      ensures plan.steps[i].id != plan.steps[j].id
    {
      OpeningIds(i, j);
    }
    forall i | 0 <= i < |plan.steps|
      ensures ValidStep(plan, i)
    {
      OpeningIsValid(plan, i);
    }
  }

  // ----- What the three steps send -----

  /** What the source's query encoding gives for the three queries of the opening. */
  predicate Encodes(c: Codec) {
    && c.encodeQuery(map[]) == Ok("")
    && c.encodeQuery(map["q" := Str("p")]) == Ok("q=p")
    && c.encodeQuery(map["q" := Str("r")]) == Ok("q=r")
  }

  function RequestOf(
    c: Codec, plan: Plan, creds: map<string, Credential>, i: nat, refs: map<string, Json>): Result<Sent>
    requires i < 3
  {
    ResolvedRequest(c, plan, Opening()[i], refs, creds)
  }

  lemma PlainRequest(c: Codec, plan: Plan, creds: map<string, Credential>, i: nat, refs: map<string, Json>)
    requires Encodes(c) && (i == 0 || i == 2)
    ensures RequestOf(c, plan, creds, i, refs).Ok? && RequestOf(c, plan, creds, i, refs).value.query == ""
  {
    hide ResolvePart;
    EmptyResolves(c, refs, c.operationId(plan.journeyId, Opening()[i].id, plan.schema), creds);
  }

  lemma EmptyResolves(c: Codec, refs: map<string, Json>, operationId: string, creds: map<string, Credential>)
    ensures ResolvePart(c, Obj(map[]), refs, operationId, creds) == Ok(Obj(map[]))
  {
    var empty: map<string, Json> := map[];
    assert Resolve(Obj(empty), refs, operationId, c.deliveryDigest).value.fields == empty;
  }

  lemma NothingToLeak(s: string, creds: map<string, Credential>)
    requires |s| <= 1 && LongSecrets(creds)
    ensures !ContainsCredential(Str(s), creds)
  {
  }

  lemma LookupResolves(
    c: Codec, refs: map<string, Json>, v: string, operationId: string, creds: map<string, Credential>)
    requires v in {"p", "r"} && "a.b.c" in refs && refs["a.b.c"] == Str(v) && LongSecrets(creds)
    ensures ResolvePart(c, Obj(Opening()[1].query), refs, operationId, creds) == Ok(Obj(map["q" := Str(v)]))
  {
    hide Sensitive, Within;
    var query := Opening()[1].query;
    var lookup := map["$ref" := Str("a.b.c")];
    assert lookup.Keys == {"$ref"};
    assert Resolve(Obj(lookup), refs, operationId, c.deliveryDigest) == Ok(Str(v));
    assert "$ref" !in query && query.Keys == {"q"};
    assert Resolve(Obj(query), refs, operationId, c.deliveryDigest).value.fields == map["q" := Str(v)];
    ShortKeysArePublic("q");
    var found := Obj(map["q" := Str(v)]);
    assert PublicStructure(Str(v)) && PublicStructure(found);
    NothingToLeak(v, creds);
    assert !ContainsCredential(found, creds);
  }

  /** The second step sends what it finds under the shared name. */
  lemma LookupRequest(c: Codec, plan: Plan, creds: map<string, Credential>, refs: map<string, Json>, v: string)
    requires Encodes(c) && LongSecrets(creds) && v in {"p", "r"} && "a.b.c" in refs && refs["a.b.c"] == Str(v)
    ensures RequestOf(c, plan, creds, 1, refs).Ok?
    ensures RequestOf(c, plan, creds, 1, refs).value.query == if v == "p" then "q=p" else "q=r"
  {
    hide ResolvePart, LongSecrets;
    LookupResolves(c, refs, v, c.operationId(plan.journeyId, Opening()[1].id, plan.schema), creds);
    assert c.encodeQuery(map["q" := Str(v)]).Ok?;
  }

  function CapturesAt(i: nat): Captures
    requires i < 3
  {
    map name | name in Opening()[i].capture :: if name == "c" then Str("r") else Str("p")
  }

  lemma ReplyIsGood(i: nat, creds: map<string, Credential>)
    requires i < 3 && LongSecrets(creds)
    ensures Answer(GoodReply(), Opening()[i], creds) == Ok(Observation(200, CapturesAt(i), 1))
  {
    hide ContainsCredential, LongSecrets;
    var s, values := Opening()[i], GoodReply().values;
    NothingToLeak("p", creds);
    NothingToLeak("r", creds);
    assert forall name <- s.capture :: name in values && ValidCapture(values[name], s.capture[name]);
    assert (map name | name in s.capture :: values[name]) == CapturesAt(i);
  }

  lemma RecordIsPublic(c: Codec, plan: Plan, i: nat, q: Sent, tip: string)
    requires i < 3 && CodecOk(c) && IsDigest(tip) && IsDigest(q.digest) && SafeText(q.query)
    ensures PublicSafeRecord(MakeRecord(c, plan, Opening()[i], q, tip, Observation(200, CapturesAt(i), 1),
                                        (None, NoRole)))
  {
    hide Sensitive, SafeText, IsDigest, SafeId;
    var r := MakeRecord(c, plan, Opening()[i], q, tip, Observation(200, CapturesAt(i), 1), (None, NoRole));
    ShortKeysArePublic("b.c");
    ShortKeysArePublic("c");
    HealthIsPublic();
    DigestIsSafeText(tip);
    DigestIsSafeText(q.digest);
    DigestIsSafeText(r.digest);
    if r.binding.Some? {
      DigestIsSafeText(r.binding.value.aliasDigest);
      DigestIsSafeText(r.binding.value.contractDigest);
    }
    SafeIdIsSafeText(r.operationId);
    ContractsAreSafe(plan, i);
    ShortTexts();
  }

  lemma PlainIsSafe(s: string)
    requires |s| <= 512 && (s != "" ==> s[0] != '/') && forall k | 0 <= k < |s| :: ' ' <= s[k] <= '~'
    ensures SafeText(s)
  {
    hide PublicPath;
  }

  lemma ShortTexts()
    ensures SafeText("p") && SafeText("r") && SafeText("") && SafeText("q=p")
  {
    hide SafeText;
    PlainIsSafe("p");
    PlainIsSafe("r");
    PlainIsSafe("");
    PlainIsSafe("q=p");
  }

  lemma ContractsAreSafe(plan: Plan, i: nat)
    requires i < 3
    ensures SafeText(ReplayContract(Opening()[i], plan.schema))
  {
    hide SafeText;
    PlainIsSafe("server_response_verified");
    PlainIsSafe("server_response_verified_v2");
  }

  lemma StepIsRecorded(
    c: Codec, plan: Plan, creds: map<string, Credential>, i: nat, refs: map<string, Json>, tip: string)
    requires i < 3 && i < |plan.steps| && plan.steps[i] == Opening()[i] && LongSecrets(creds)
    requires CodecOk(c) && IsDigest(tip) && RequestOf(c, plan, creds, i, refs).Ok?
    requires SafeText(RequestOf(c, plan, creds, i, refs).value.query)
    ensures var r := NewRecord(c, plan, creds, i, refs, tip, GoodReply());
            r.Ok? && IsDigest(r.value.digest) && r.value.captures == CapturesAt(i)
            && r.value.query == RequestOf(c, plan, creds, i, refs).value.query
  {
    hide PublicSafeRecord, SafeText, IsDigest, Answer, ResolvedRequest, LongSecrets;
    DigestOf(c, plan, creds, i, refs);
    ReplyIsGood(i, creds);
    RecordIsPublic(c, plan, i, RequestOf(c, plan, creds, i, refs).value, tip);
  }

  lemma DigestOf(c: Codec, plan: Plan, creds: map<string, Credential>, i: nat, refs: map<string, Json>)
    requires i < 3 && CodecOk(c) && RequestOf(c, plan, creds, i, refs).Ok?
    ensures IsDigest(RequestOf(c, plan, creds, i, refs).value.digest)
  {
    hide IsDigest;
  }

  // ----- What the second step finds -----

  lemma SharedName()
    ensures var steps := Opening();
            StepRefs(steps[0]) == {"a.b.c"} && StepRefs(steps[1]) == {} && StepRefs(steps[2]) == {"a.b.c"}
    ensures Less("a", "a.b") && !Less("a.b", "a")
  {
    assert RefName("a", "b.c") == "a.b.c" && RefName("a.b", "c") == "a.b.c";
    LessIsTotal("a", "a.b");
  }

  /** At first it finds the capture of the first. */
  lemma FirstLookup(steps: seq<Step>, refs: map<string, Json>)
    requires Opening() <= steps && Served(steps, [CapturesAt(0)], 0, refs)
    ensures "a.b.c" in refs && refs["a.b.c"] == Str("p")
  {
    hide StepRefs, Less, StepRefMap;
    SharedName();
    assert steps[0] == Opening()[0];
    AvailableHas(steps, 1, 0);
    var j: nat :| Holds(steps, [CapturesAt(0)], 0, refs, "a.b.c", j);
    NamesAt(0);
  }

  /** After a resume it finds that of the third. */
  lemma LaterLookup(steps: seq<Step>, refs: map<string, Json>)
    requires Opening() <= steps && Served(steps, [CapturesAt(0), CapturesAt(1), CapturesAt(2)], 3, refs)
    ensures "a.b.c" in refs && refs["a.b.c"] == Str("r")
  {
    hide StepRefs, Less, StepRefMap;
    SharedName();
    assert steps[0] == Opening()[0] && steps[1] == Opening()[1] && steps[2] == Opening()[2];
    var captures := [CapturesAt(0), CapturesAt(1), CapturesAt(2)];
    AvailableHas(steps, 3, 0);
    var j: nat :| Holds(steps, captures, 3, refs, "a.b.c", j);
    assert j == 2 by {
      assert "a.b.c" in StepRefs(steps[2]) && "a.b.c" in StepRefs(steps[0]);
    }
    NamesAt(2);
  }

  lemma NamesAt(i: nat)
    requires i == 0 || i == 2
    ensures var m := StepRefMap(Opening()[i], CapturesAt(i));
            "a.b.c" in m && m["a.b.c"] == if i == 0 then Str("p") else Str("r")
  {
    assert RefName("a", "b.c") == "a.b.c" && RefName("a.b", "c") == "a.b.c";
  }

  // ----- The runs -----

  lemma TipOf(runner: Runner)
    requires runner.Valid()
    ensures IsDigest(runner.Current().chainTip)
  {
    hide IsDigest, Genuine, SentOk, LedgerOk, PrefixOk, EvidenceBinding;
    TipIsDigest(runner.codec, runner.plan, runner.origin, runner.Current(), runner.evidenceFile);
  }

  /** A runner of such a plan with `n` records, whose server answered so far; nothing is known of later ticks. */
  ghost predicate Ready(runner: Runner, n: nat)
    reads runner
  {
    && runner.Valid() && Encodes(runner.codec) && CodecOk(runner.codec) && Opens(runner.plan)
    && LongSecrets(runner.creds) && (forall t | t < 12 :: runner.script(t) == GoodReply())
    && |runner.History()| == |runner.Current().completed| == n && runner.tick <= 3 * n + 1
  }

  method RecordNext(runner: Runner, i: nat, refs: map<string, Json>) returns (more: map<string, Json>)
    requires i < 3 && Ready(runner, i) && Served(runner.plan.steps, CapturesOf(runner.History()), 0, refs)
    requires var q := RequestOf(runner.codec, runner.plan, runner.creds, i, refs); q.Ok? && SafeText(q.value.query)
    modifies runner
    ensures Ready(runner, i + 1) && Served(runner.plan.steps, CapturesOf(runner.History()), 0, more)
    ensures CapturesOf(runner.History()) == old(CapturesOf(runner.History())) + [CapturesAt(i)]
    ensures old(runner.History()) <= runner.History()
    ensures runner.History()[i].query == RequestOf(runner.codec, runner.plan, runner.creds, i, refs).value.query
  {
    hide Served, NewRecord, CodecOk, HistoryOf, RequestOf, IsDigest, SafeText, CapturesAt, Runner.Valid, Opens, Encodes,
      LongSecrets, Runner.Current;
    FirstThree(runner.plan);
    TipOf(runner);
    StepIsRecorded(runner.codec, runner.plan, runner.creds, i, refs, runner.Current().chainTip);
    var r := runner.RecordStep(refs, 0);
    more := r.value;
  }

  /** The first run of such a plan, from an empty directory, cut after its third record. */
  method RunOnce(runner: Runner)
    requires Ready(runner, 0) && runner.tick == 0
    modifies runner
    ensures Ready(runner, 3)
    ensures CapturesOf(runner.History()) == [CapturesAt(0), CapturesAt(1), CapturesAt(2)]
    ensures runner.History()[1].query == "q=p"
  {
    hide Served, CodecOk, Runner.Valid, HistoryOf, RequestOf, SafeText, CapturesAt, Runner.Current, Opens, Encodes,
      LongSecrets;
    ShortTexts();
    ghost var c, plan, creds := runner.codec, runner.plan, runner.creds;
    var start := runner.Resume();
    PlainRequest(c, plan, creds, 0, start.value);
    var refs := RecordNext(runner, 0, start.value);
    assert CapturesOf(runner.History()) == [CapturesAt(0)];
    OpeningLeads(plan);
    FirstLookup(plan.steps, refs);
    LookupRequest(c, plan, creds, refs, "p");
    refs := RecordNext(runner, 1, refs);
    PlainRequest(c, plan, creds, 2, refs);
    refs := RecordNext(runner, 2, refs);
  }

  lemma OpeningLeads(plan: Plan)
    requires Opens(plan)
    ensures Opening() <= plan.steps
  {
  }

  /**
   * A plan that opens with the three steps, whatever follows, and a server that answers them: if the first run is cut
   * after its third record, the second step conflicts, and none of any number of later runs succeeds, whatever the
   * server answers them and wherever they are killed.
   */
  method CollidingRun(runner: Runner, stops: seq<Option<string>>)
    returns (replay: Result<()>, later: seq<Result<Evidence>>)
    requires Ready(runner, 0) && runner.tick == 0
    modifies runner
    ensures replay == Err(ResumeConflict)
    ensures |later| == |stops| && forall r <- later :: r.Err?
  {
    hide Served, CodecOk, Opens, Encodes, Runner.Valid, HistoryOf, CapturesAt, Runner.Current, ResolvedRequest,
      LongSecrets;
    RunOnce(runner);
    ghost var c, plan, creds, records := runner.codec, runner.plan, runner.creds, runner.History();
    FirstThree(plan);
    OpeningLeads(plan);
    var start := runner.Resume();
    LaterLookup(plan.steps, start.value);
    LookupRequest(c, plan, creds, start.value, "r");
    assert "q=p"[2] != "q=r"[2];
    replay := runner.ReplayStep(1, start.value);
    later := [];
    for k := 0 to |stops|
      invariant runner.Valid() && runner.History() == records
      invariant |later| == k && forall r <- later :: r.Err?
    {
      var r := runner.RunLocked(stops[k]);
      later := later + [r];
    }
  }
}
