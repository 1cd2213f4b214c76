/** Plans, hash-chained ledgers and lagging evidence of the journey runner, with the checks a resume makes. */
module JourneyLedger {
  import opened Wrappers
  import opened Shared
  import opened JourneyTemplate
  import JsonPointer

  datatype Role = AgentRole | CustomerRole | OperatorRole | NoRole | CompanyRole

  datatype CaptureType = BooleanType | DigestType | IdType | IntegerType | StateType

  datatype Kind = Readiness | Positive | Negative | Observing

  datatype Verb = Get | Post

  /** The bounds of an observing step; `monotone` lets integer captures grow on replay. */
  datatype Bounds = Bounds(maxAttempts: nat, monotone: bool)

  datatype Step = Step(
    id: string,
    phase: nat,
    kind: Kind,
    verb: Verb,
    path: string,
    routeRole: Role,
    credential: Option<string>,
    allowMismatch: bool,
    expected: seq<int>,
    body: Option<Json>,
    query: map<string, Json>,
    capture: map<string, CaptureType>,
    checkpoint: Option<string>,
    bounds: Option<Bounds>)

  datatype Plan = Plan(schema: int, journeyId: string, steps: seq<Step>)

  datatype Credential = Credential(role: Role, secret: string)

  datatype Binding = Binding(attempts: int, aliasDigest: string, role: Role, contractDigest: string)

  datatype Record = Record(
    captures: map<string, Json>,
    checkpoint: Option<string>,
    kind: Kind,
    verb: Verb,
    operationId: string,
    path: string,
    phase: nat,
    prior: string,
    query: string,
    digest: string,
    replayContract: string,
    requestDigest: string,
    status: int,
    binding: Option<Binding>)

  datatype Ledger = Ledger(
    schema: int, journeyId: string, planDigest: string, origin: string, chainTip: string,
    completed: map<string, Record>)

  datatype Outcome = InProgress | CheckpointReached | Complete

  datatype Evidence = Evidence(
    schema: int, journeyId: string, planDigest: string, origin: string, chainTip: string, recordCount: int,
    result: Outcome, stoppedAt: Option<string>, replayVerified: seq<string>, steps: seq<(string, Record)>)

  /** The values that are digested; each is one canonical JSON object in the source. */
  datatype Material =
    | PlanMaterial(plan: Plan)
    | RecordMaterial(record: Record)
    | RequestMaterial(schema: int, verb: Verb, path: string, query: string, credential: Option<string>, role: Role,
                      routeRole: Role, body: Option<Json>)
    | ContractMaterial(status: int, captures: map<string, Json>)
    | AliasMaterial(alias: Option<string>)

  /** The functions of the source that are used only through what they are given. */
  datatype Codec = Codec(
    hash: Material -> string,
    operationId: (string, string, int) -> string,
    deliveryDigest: DeliveryDigest,
    encodeQuery: map<string, Json> -> Result<string>)

  predicate AlnumChar(c: char) {
    'A' <= c <= 'Z' || 'a' <= c <= 'z' || '0' <= c <= '9'
  }

  predicate SafeId(s: string) {
    1 <= |s| <= 240 && AlnumChar(s[0]) && forall c <- s :: AlnumChar(c) || c in "_.:-"
  }

  function Zeros(n: nat): (r: string)
    ensures |r| == n && forall c <- r :: c == '0'
  {
    if n == 0 then "" else Zeros(n - 1) + "0"
  }

  /** The digest that the first record points at. */
  function ZeroDigest(): (r: string)
    ensures IsDigest(r)
  {
    Zeros(64)
  }

  const MAX_QUERY_BYTES := 4096

  /** What the digest, operation id and query functions are known to return. */
  ghost predicate CodecOk(c: Codec) {
    && (forall m :: IsDigest(c.hash(m)))
    && (forall j, s, v :: SafeId(c.operationId(j, s, v)))
    && (forall q :: c.encodeQuery(q).Ok? ==> |c.encodeQuery(q).value| <= MAX_QUERY_BYTES)
  }

  // ----- Public-safe values -----

  predicate ValidSegments(segments: seq<string>) {
    forall part <- segments :: part !in {"", ".", ".."}
  }

  function BeforeQuery(s: string): (r: string)
    ensures r <= s
  {
    if s == "" || s[0] in "?#" then "" else [s[0]] + BeforeQuery(s[1..])
  }

  predicate Within(part: string, whole: string) {
    exists i | 0 <= i <= |whole| :: part <= whole[i..]
  }

  /** A relative path under one of the authority routes. */
  predicate PublicPath(s: string) {
    && "/" <= s && !("//" <= s) && !Within("://", s)
    && (forall c <- s :: '!' <= c <= '~' && c != '%' && c != '\\')
    && s[|BeforeQuery(s)|..] in {"", "?", "#", "?#"}
    && ValidSegments(JsonPointer.Split(BeforeQuery(s))[1..])
    && (s == "/health" || s == "/readiness"
        || "/customer/" <= s || "/operator/" <= s || "/agent/" <= s || "/company/" <= s)
  }

  predicate SafeText(s: string) {
    PlainText(s) && |s| <= 512 && ("/" <= s ==> PublicPath(s))
  }

  predicate PublicSafe(j: Json) {
    match j
    case Obj(fields) => forall k <- fields :: !Sensitive(k) && PublicSafe(fields[k])
    case Arr(items) => forall x <- items :: PublicSafe(x)
    case Str(s) => SafeText(s)
    case _ => true
  }

  predicate SafeOption(o: Option<string>) {
    o.Some? ==> SafeText(o.value)
  }

  predicate PublicSafeRecord(r: Record) {
    && (forall k <- r.captures :: !Sensitive(k) && PublicSafe(r.captures[k]))
    && SafeOption(r.checkpoint) && SafeText(r.operationId) && SafeText(r.path) && SafeText(r.prior)
    && SafeText(r.query) && SafeText(r.digest) && SafeText(r.replayContract) && SafeText(r.requestDigest)
    && (r.binding.Some? ==> SafeText(r.binding.value.aliasDigest) && SafeText(r.binding.value.contractDigest))
  }

  /** Step ids are keys of the ledger object, so the sensitive-key pattern applies to them. */
  predicate PublicSafeLedger(l: Ledger) {
    && SafeText(l.journeyId) && SafeText(l.planDigest) && SafeText(l.origin) && SafeText(l.chainTip)
    && (forall id <- l.completed :: !Sensitive(id) && PublicSafeRecord(l.completed[id]))
  }

  /** In the evidence step ids are values, so only their text matters. */
  predicate PublicSafeEvidence(e: Evidence) {
    && SafeText(e.journeyId) && SafeText(e.planDigest) && SafeText(e.origin) && SafeText(e.chainTip)
    && SafeOption(e.stoppedAt)
    && (forall id <- e.replayVerified :: SafeText(id))
    && (forall s <- e.steps :: SafeText(s.0) && PublicSafeRecord(s.1))
  }

  lemma SafeIdIsSafeText(s: string)
    requires SafeId(s)
    ensures SafeText(s)
  {
  }

  lemma DigestIsSafeText(s: string)
    requires IsDigest(s)
    ensures SafeText(s)
  {
    assert s[0] in s;
  }

  // ----- Plans -----

  function Ids(steps: seq<Step>): set<string> {
    set s <- steps :: s.id
  }

  function RefName(id: string, name: string): string {
    id + "." + name
  }

  function StepRefs(s: Step): set<string> {
    set name | name in s.capture :: RefName(s.id, name)
  }

  /** The references that the steps before `i` make available. */
  function Available(steps: seq<Step>, i: nat): set<string>
    requires i <= |steps|
  {
    if i == 0 then {} else Available(steps, i - 1) + StepRefs(steps[i - 1])
  }

  predicate QueryKey(k: string) {
    1 <= |k| <= 64 && ('A' <= k[0] <= 'Z' || 'a' <= k[0] <= 'z') && !Sensitive(k)
    && forall c <- k :: AlnumChar(c) || c in "_.:-"
  }

  predicate ValidStep(plan: Plan, i: nat)
    requires i < |plan.steps|
  {
    var s := plan.steps[i];
    var available := Available(plan.steps, i);
    && SafeId(s.id)
    && (forall name <- s.capture :: SafeId(name) && !Sensitive(name))
    && (s.verb == Get ==> s.body.None?)
    && (s.verb == Post ==> s.body.Some? && s.body.value.Obj? && ValidTemplate(s.body.value, available))
    && (forall k <- s.query :: QueryKey(k) && ValidTemplate(s.query[k], available))
    && (s.checkpoint.Some? ==> SafeId(s.checkpoint.value))
    && (s.bounds.Some? <==> s.kind == Observing)
    && (s.bounds.Some? ==> 1 <= s.bounds.value.maxAttempts <= 300)
    && (plan.schema == 2 ==> (s.routeRole == NoRole <==> s.credential.None?))
    && s.expected != []
  }

  predicate ValidPlan(plan: Plan) {
    && plan.schema in {1, 2} && SafeId(plan.journeyId) && plan.steps != []
    && (forall i, j | 0 <= i < j < |plan.steps| :: plan.steps[i].id != plan.steps[j].id)
    && (forall i, j | 0 <= i < j < |plan.steps| && plan.steps[i].checkpoint.Some? ::
          plan.steps[i].checkpoint != plan.steps[j].checkpoint)
    && (forall i | 0 <= i < |plan.steps| :: ValidStep(plan, i))
  }

  // ----- Requests -----

  predicate RoleAllowed(route: Role, role: Role) {
    match route
    case NoRole => role == NoRole
    case CustomerRole => role == CustomerRole
    case AgentRole => role == AgentRole
    case OperatorRole => role == AgentRole || role == OperatorRole
    case CompanyRole => role in {AgentRole, CustomerRole, OperatorRole}
  }

  /** The credential aliases a plan needs are bound to real roles. */
  predicate CredentialsOk(plan: Plan, creds: map<string, Credential>) {
    forall s <- plan.steps :: s.routeRole != NoRole ==>
      s.credential.Some? && s.credential.value in creds
      && creds[s.credential.value].role in {AgentRole, CustomerRole, OperatorRole}
  }

  function CredentialIdentity(s: Step, creds: map<string, Credential>): Result<(Option<string>, Role)> {
    if s.routeRole == NoRole then Ok((None, NoRole))
    else if s.credential.Some? && s.credential.value in creds then Ok((s.credential, creds[s.credential.value].role))
    else Err(JourneyError)
  }

  predicate ContainsCredential(j: Json, creds: map<string, Credential>) {
    match j
    case Obj(fields) => exists k <- fields :: ContainsCredential(fields[k], creds)
    case Arr(items) => exists x <- items :: ContainsCredential(x, creds)
    case Str(s) => exists a <- creds :: Within(creds[a].secret, s)
    case _ => false
  }

  datatype Sent = Sent(body: Option<Json>, query: string, digest: string)

  function ResolvePart(c: Codec, j: Json, refs: map<string, Json>, operationId: string, creds: map<string, Credential>)
    : Result<Json>
  {
    var resolved :- Resolve(j, refs, operationId, c.deliveryDigest);
    if PublicStructure(resolved) && !ContainsCredential(resolved, creds) then Ok(resolved) else Err(JourneyError)
  }

  /** What a step sends, given the captures so far. */
  function ResolvedRequest(
    c: Codec, plan: Plan, s: Step, refs: map<string, Json>, creds: map<string, Credential>): Result<Sent>
  {
    var operationId := c.operationId(plan.journeyId, s.id, plan.schema);
    var body :- if s.verb == Post && s.body.Some? then
                  var b :- ResolvePart(c, s.body.value, refs, operationId, creds);
                  Ok(Some(b))
                else Ok(None);
    var query :- ResolvePart(c, Obj(s.query), refs, operationId, creds);
    if !query.Obj? then Err(JourneyError)
    else
      var encoded :- c.encodeQuery(query.fields);
      var identity :- CredentialIdentity(s, creds);
      if plan.schema == 2 && RoleAllowed(s.routeRole, identity.1) == s.allowMismatch then Err(JourneyError)
      else
        var material := RequestMaterial(plan.schema, s.verb, s.path, encoded,
                                        if plan.schema == 1 then s.credential else identity.0, identity.1, s.routeRole,
                                        body);
        Ok(Sent(body, encoded, c.hash(material)))
  }

  /** Whether the request of a step looks up `k`, in its body or in its query. */
  predicate StepUses(s: Step, k: string) {
    (s.verb == Post && s.body.Some? && Uses(s.body.value, k)) || Uses(Obj(s.query), k)
  }

  predicate SameUse(s: Step, refs: map<string, Json>, refs': map<string, Json>) {
    forall k | k in refs && k in refs' && StepUses(s, k) :: refs'[k] == refs[k]
  }

  /** A request is the same under any references that agree on what the step looks up. */
  lemma RequestAgrees(
    c: Codec, plan: Plan, i: nat, refs: map<string, Json>, refs': map<string, Json>, creds: map<string, Credential>)
    requires i < |plan.steps| && ValidStep(plan, i)
    requires Available(plan.steps, i) <= refs.Keys && Available(plan.steps, i) <= refs'.Keys
    requires SameUse(plan.steps[i], refs, refs')
    ensures ResolvedRequest(c, plan, plan.steps[i], refs', creds)
            == ResolvedRequest(c, plan, plan.steps[i], refs, creds)
  {
    hide ValidTemplate, Uses, ResolvePart;
    var s := plan.steps[i];
    var operationId := c.operationId(plan.journeyId, s.id, plan.schema);
    var available := Available(plan.steps, i);
    if s.verb == Post {
      PartAgrees(c, s.body.value, available, refs, refs', operationId, creds);
    }
    QueryIsTemplate(s.query, available);
    PartAgrees(c, Obj(s.query), available, refs, refs', operationId, creds);
  }

  lemma PartAgrees(
    c: Codec, j: Json, available: set<string>, refs: map<string, Json>, refs': map<string, Json>, operationId: string,
    creds: map<string, Credential>)
    requires ValidTemplate(j, available) && available <= refs.Keys && available <= refs'.Keys && AgreeOn(j, refs, refs')
    ensures ResolvePart(c, j, refs', operationId, creds) == ResolvePart(c, j, refs, operationId, creds)
  {
    ResolveAgrees(j, available, refs, refs', operationId, c.deliveryDigest);
  }

  /** The query of a request before it is encoded. */
  function QueryOf(c: Codec, plan: Plan, s: Step, refs: map<string, Json>): Result<Json> {
    Resolve(Obj(s.query), refs, c.operationId(plan.journeyId, s.id, plan.schema), c.deliveryDigest)
  }

  /** The encoding, the digest of requests and the delivery digest tell these two requests apart if they differ. */
  ghost predicate ToldApart(
    c: Codec, plan: Plan, s: Step, refs: map<string, Json>, refs': map<string, Json>, creds: map<string, Credential>)
  {
    var q, q' := ResolvedRequest(c, plan, s, refs, creds), ResolvedRequest(c, plan, s, refs', creds);
    && InjectiveDigest(c.deliveryDigest)
    && (q.Ok? && q'.Ok? && q'.value.query == q.value.query ==> QueryOf(c, plan, s, refs') == QueryOf(c, plan, s, refs))
    && (q.Ok? && q'.Ok? && q'.value.digest == q.value.digest ==> q'.value.body == q.value.body)
  }

  /** The replayed request is the recorded one if and only if no reference that the step looks up has changed. */
  lemma SameRequestIff(
    c: Codec, plan: Plan, i: nat, refs: map<string, Json>, refs': map<string, Json>, creds: map<string, Credential>)
    requires i < |plan.steps| && ValidStep(plan, i)
    requires Available(plan.steps, i) <= refs.Keys && Available(plan.steps, i) <= refs'.Keys
    requires ToldApart(c, plan, plan.steps[i], refs, refs', creds)
    requires ResolvedRequest(c, plan, plan.steps[i], refs, creds).Ok?
    requires ResolvedRequest(c, plan, plan.steps[i], refs', creds).Ok?
    ensures var q, q' := ResolvedRequest(c, plan, plan.steps[i], refs, creds).value,
                         ResolvedRequest(c, plan, plan.steps[i], refs', creds).value;
            q'.digest == q.digest && q'.query == q.query <==> SameUse(plan.steps[i], refs, refs')
  {
    hide ValidTemplate, Uses, Resolve, PublicStructure, ContainsCredential, InjectiveDigest;
    var s := plan.steps[i];
    var operationId := c.operationId(plan.journeyId, s.id, plan.schema);
    var available := Available(plan.steps, i);
    var q := ResolvedRequest(c, plan, s, refs, creds).value;
    var q' := ResolvedRequest(c, plan, s, refs', creds).value;
    if SameUse(s, refs, refs') {
      RequestAgrees(c, plan, i, refs, refs', creds);
    } else if q'.digest == q.digest && q'.query == q.query {
      if s.verb == Post {
        ResolveTells(s.body.value, available, refs, refs', operationId, c.deliveryDigest);
      }
      QueryIsTemplate(s.query, available);
      ResolveTells(Obj(s.query), available, refs, refs', operationId, c.deliveryDigest);
    }
  }

  /** Query keys start with a letter, so a query is never mistaken for a marker. */
  lemma QueryIsTemplate(query: map<string, Json>, available: set<string>)
    requires forall k <- query :: QueryKey(k) && ValidTemplate(query[k], available)
    ensures ValidTemplate(Obj(query), available)
  {
  }

  // ----- Records and their chain -----

  predicate ValidCapture(j: Json, t: CaptureType) {
    match t
    case BooleanType => j.Bool?
    case IntegerType => j.Num? && j.n >= 0
    case DigestType => j.Str? && IsDigest(j.s)
    case IdType => j.Str? && SafeId(j.s)
    case StateType => j.Str? && SafeId(j.s)
  }

  predicate ValidCaptures(captures: map<string, Json>, s: Step) {
    captures.Keys == s.capture.Keys && forall name <- captures :: ValidCapture(captures[name], s.capture[name])
  }

  function ReplayContract(s: Step, schema: int): string {
    if schema == 1 then "server_response_verified"
    else if s.kind == Observing && s.bounds.Some? then
      if s.bounds.value.monotone then "monotone_observe_v2" else "bounded_observe_v2"
    else if s.kind == Positive then "idempotent_command_v2"
    else "server_response_verified_v2"
  }

  function MaxAttempts(s: Step): nat {
    if s.bounds.Some? then s.bounds.value.maxAttempts else 1
  }

  function RecordDigest(c: Codec, r: Record): string {
    c.hash(RecordMaterial(r.(digest := "")))
  }

  predicate BindingOk(c: Codec, s: Step, r: Record, b: Binding) {
    && b.aliasDigest == c.hash(AliasMaterial(s.credential))
    && b.role != CompanyRole && RoleAllowed(s.routeRole, b.role) != s.allowMismatch
    && 1 <= b.attempts <= MaxAttempts(s)
    && b.contractDigest == c.hash(ContractMaterial(r.status, r.captures))
  }

  /** Everything a resume checks about one record, given the digest of the record before it. */
  predicate RecordOk(c: Codec, plan: Plan, s: Step, r: Record, prior: string) {
    && IsDigest(r.requestDigest) && SafeId(r.operationId) && IsDigest(r.digest) && IsDigest(r.prior)
    && |r.query| <= MAX_QUERY_BYTES
    && ValidCaptures(r.captures, s)
    && r.operationId == c.operationId(plan.journeyId, s.id, plan.schema)
    && r.phase == s.phase && r.kind == s.kind && r.verb == s.verb && r.path == s.path && r.checkpoint == s.checkpoint
    && r.status in s.expected
    && r.replayContract == ReplayContract(s, plan.schema)
    && r.prior == prior && r.digest == RecordDigest(c, r)
    && PublicSafeRecord(r)
    && (r.binding.Some? <==> plan.schema == 2)
    && (r.binding.Some? ==> BindingOk(c, s, r, r.binding.value))
  }

  /** The digest that the next record must point at. */
  function Tip(records: seq<Record>): string {
    if records == [] then ZeroDigest() else records[|records| - 1].digest
  }

  /** Every record is in order and points at the one before it. */
  predicate ChainOk(c: Codec, plan: Plan, records: seq<Record>) {
    && |records| <= |plan.steps|
    && forall i | 0 <= i < |records| :: RecordOk(c, plan, plan.steps[i], records[i], Tip(records[..i]))
  }

  /** The completed steps are the first `n` of the plan. */
  predicate IsPrefix(plan: Plan, completed: map<string, Record>, n: nat) {
    n <= |plan.steps| && completed.Keys == Ids(plan.steps[..n])
  }

  /** The completed records in plan order. */
  function Records(plan: Plan, completed: map<string, Record>): (r: seq<Record>)
    requires IsPrefix(plan, completed, |completed|)
    ensures |r| == |completed|
    ensures forall i | 0 <= i < |r| :: plan.steps[i].id in completed && r[i] == completed[plan.steps[i].id]
  {
    assert forall i | 0 <= i < |completed| :: plan.steps[i] in plan.steps[..|completed|];
    seq(|completed|, i requires 0 <= i < |completed| => completed[plan.steps[i].id])
  }

  lemma IndexOf(plan: Plan, completed: map<string, Record>, id: string) returns (i: nat)
    requires IsPrefix(plan, completed, |completed|) && id in completed
    ensures i < |completed| && plan.steps[i].id == id
  {
    assert id in Ids(plan.steps[..|completed|]);
    var s :| s in plan.steps[..|completed|] && s.id == id;
    i :| 0 <= i < |completed| && plan.steps[i] == s;
  }

  predicate PrefixOk(c: Codec, plan: Plan, completed: map<string, Record>, tip: string) {
    && IsPrefix(plan, completed, |completed|)
    && ChainOk(c, plan, Records(plan, completed))
    && tip == Tip(Records(plan, completed))
  }

  /** The resume check: the right steps, then the chain with a running digest. */
  method ValidateCompletedPrefix(c: Codec, plan: Plan, completed: map<string, Record>, tip: string) returns (ok: bool)
    ensures ok == PrefixOk(c, plan, completed, tip)
  {
    hide ChainOk, Ids, Tip;
    if |completed| > |plan.steps| || completed.Keys != Ids(plan.steps[..|completed|]) {
      return false;
    }
    var prior;
    ok, prior := WalkChain(c, plan, completed);
    ok := ok && tip == prior;
  }

  method WalkChain(c: Codec, plan: Plan, completed: map<string, Record>) returns (ok: bool, prior: string)
    requires IsPrefix(plan, completed, |completed|)
    ensures ok == ChainOk(c, plan, Records(plan, completed))
    ensures ok ==> prior == Tip(Records(plan, completed))
  {
    hide RecordOk, Ids, ZeroDigest, ChainOk, Tip;
    ghost var records := Records(plan, completed);
    prior := ZeroDigest();
    ChainEmpty(c, plan);
    for i := 0 to |completed|
      invariant prior == Tip(records[..i]) && ChainOk(c, plan, records[..i])
    {
      var record := completed[plan.steps[i].id];
      if !RecordOk(c, plan, plan.steps[i], record, prior) {
        if ChainOk(c, plan, records) {
          ChainHas(c, plan, records, i);
        }
        return false, prior;
      }
      ChainGrows(c, plan, records[..i], record);
      assert records[..i] + [record] == records[..i + 1];
      prior := record.digest;
    }
    assert records[..|completed|] == records;
    ok := true;
  }

  lemma ChainEmpty(c: Codec, plan: Plan)
    ensures ChainOk(c, plan, []) && Tip([]) == ZeroDigest()
  {
  }

  lemma ChainHas(c: Codec, plan: Plan, records: seq<Record>, i: nat)
    requires ChainOk(c, plan, records) && i < |records|
    ensures RecordOk(c, plan, plan.steps[i], records[i], Tip(records[..i]))
  {
  }

  lemma IdsGrow(steps: seq<Step>, n: nat)
    requires n < |steps|
    ensures Ids(steps[..n + 1]) == Ids(steps[..n]) + {steps[n].id}
    ensures forall i | 0 <= i < n :: steps[i].id in Ids(steps[..n])
    ensures (forall i | 0 <= i < n :: steps[i].id != steps[n].id) ==> steps[n].id !in Ids(steps[..n])
  {
  }

  /** One more record makes one longer prefix. */
  lemma PrefixGrows(plan: Plan, completed: map<string, Record>, r: Record)
    requires ValidPlan(plan) && |completed| < |plan.steps| && IsPrefix(plan, completed, |completed|)
    ensures plan.steps[|completed|].id !in completed
    ensures var completed' := completed[plan.steps[|completed|].id := r];
            && |completed'| == |completed| + 1 && IsPrefix(plan, completed', |completed'|)
            && Records(plan, completed') == Records(plan, completed) + [r]
  {
    hide Ids, ValidStep;
    var n, id := |completed|, plan.steps[|completed|].id;
    IdsGrow(plan.steps, n);
    var completed' := completed[id := r];
    assert completed'.Keys == completed.Keys + {id};
  }

  /** Appending a record that points at the tip keeps the chain in order. */
  lemma ChainGrows(c: Codec, plan: Plan, records: seq<Record>, r: Record)
    requires ChainOk(c, plan, records) && |records| < |plan.steps|
    requires RecordOk(c, plan, plan.steps[|records|], r, Tip(records))
    ensures ChainOk(c, plan, records + [r]) && Tip(records + [r]) == r.digest
  {
    hide RecordOk, ZeroDigest;
    var records' := records + [r];
    forall i | 0 <= i < |records'|
      ensures RecordOk(c, plan, plan.steps[i], records'[i], Tip(records'[..i]))
    {
      assert records'[..i] == records[..i];
      assert i == |records| ==> records[..i] == records;
    }
  }

  // ----- One tip, one history -----

  function MaterialOf(r: Record): Material {
    RecordMaterial(r.(digest := ""))
  }

  /** No two of these records' materials share a digest, and none hits the digest of the empty chain. */
  predicate CollisionFree(c: Codec, records: seq<Record>) {
    && (forall i, j | 0 <= i < j < |records| && MaterialOf(records[i]) != MaterialOf(records[j]) ::
          c.hash(MaterialOf(records[i])) != c.hash(MaterialOf(records[j])))
    && (forall i | 0 <= i < |records| :: c.hash(MaterialOf(records[i])) != ZeroDigest())
  }

  lemma RecordFacts(c: Codec, plan: Plan, records: seq<Record>, i: nat)
    requires ChainOk(c, plan, records) && i < |records|
    ensures records[i].digest == c.hash(MaterialOf(records[i]))
    ensures records[i].prior == Tip(records[..i])
    ensures records[i].operationId == c.operationId(plan.journeyId, plan.steps[i].id, plan.schema)
  {
  }

  lemma ChainPrefix(c: Codec, plan: Plan, records: seq<Record>, n: nat)
    requires ChainOk(c, plan, records) && n <= |records|
    ensures ChainOk(c, plan, records[..n])
  {
    hide RecordOk;
    forall i | 0 <= i < n
      ensures RecordOk(c, plan, plan.steps[i], records[..n][i], Tip(records[..n][..i]))
    {
      assert records[..n][..i] == records[..i];
    }
  }

  /** Chains of records that a resume accepts for the same plan, with the same tip, are the same chain. */
  lemma {:induction false} TipDeterminesChain(c: Codec, plan: Plan, a: seq<Record>, b: seq<Record>)
    requires ChainOk(c, plan, a) && ChainOk(c, plan, b) && Tip(a) == Tip(b)
    requires CollisionFree(c, a + b)
    ensures a == b
    decreases |a|
  {
    hide RecordOk, ZeroDigest, ChainOk;
    var m, n := |a|, |b|;
    if m > 0 {
      RecordFacts(c, plan, a, m - 1);
      assert (a + b)[m - 1] == a[m - 1];
    }
    if n > 0 {
      RecordFacts(c, plan, b, n - 1);
      assert (a + b)[m + n - 1] == b[n - 1];
    }
    if m > 0 && n > 0 {
      assert MaterialOf(a[m - 1]) == MaterialOf(b[n - 1]);
      SameLast(c, plan, a, b);
      ChainPrefix(c, plan, a, m - 1);
      ChainPrefix(c, plan, b, n - 1);
      CollisionFreeShorter(c, a, b);
      TipDeterminesChain(c, plan, a[..m - 1], b[..n - 1]);
      assert a == a[..m - 1] + [a[m - 1]] && b == b[..n - 1] + [b[n - 1]];
    }
  }

  lemma SameLast(c: Codec, plan: Plan, a: seq<Record>, b: seq<Record>)
    requires ChainOk(c, plan, a) && ChainOk(c, plan, b) && a != [] && b != []
    requires MaterialOf(a[|a| - 1]) == MaterialOf(b[|b| - 1])
    ensures a[|a| - 1] == b[|b| - 1] && Tip(a[..|a| - 1]) == Tip(b[..|b| - 1])
  {
    hide RecordOk, ZeroDigest;
    RecordFacts(c, plan, a, |a| - 1);
    RecordFacts(c, plan, b, |b| - 1);
  }

  lemma CollisionFreeShorter(c: Codec, a: seq<Record>, b: seq<Record>)
    requires CollisionFree(c, a + b) && a != [] && b != []
    ensures CollisionFree(c, a[..|a| - 1] + b[..|b| - 1])
  {
    hide ZeroDigest;
    var n := |a|;
    var short := a[..n - 1] + b[..|b| - 1];
    forall i | 0 <= i < |short|
      ensures short[i] == (a + b)[if i < n - 1 then i else i + 1]
    {
    }
  }

  /** Two ledgers that a resume accepts for the same plan, with the same chain tip, hold the same records. */
  lemma ChainTipDeterminesLedger(c: Codec, plan: Plan, a: map<string, Record>, b: map<string, Record>, tip: string)
    requires PrefixOk(c, plan, a, tip) && PrefixOk(c, plan, b, tip)
    requires CollisionFree(c, Records(plan, a) + Records(plan, b))
    ensures a == b
  {
    hide ChainOk, ZeroDigest, CollisionFree, Ids;
    TipDeterminesChain(c, plan, Records(plan, a), Records(plan, b));
    forall id | id in a
      ensures a[id] == b[id]
    {
      var i := IndexOf(plan, a, id);
      assert Records(plan, a)[i] == a[id] && Records(plan, b)[i] == b[id];
    }
  }
}
