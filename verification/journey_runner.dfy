/** Runs of the journey, each possibly killed at any write, over the two files they leave behind. */
module JourneyRunner {
  import opened Wrappers
  import opened Shared
  import opened StringOrder
  import opened JourneyTemplate
  import opened JourneyLedger
  import opened JourneyEvidence
  import opened JourneyReferences

  /** How the server, and the operating system, answer one request or one write. */
  datatype Reply = Reply(killed: bool, fails: bool, status: int, values: map<string, Json>, attempts: int)

  datatype Observation = Observation(status: int, captures: map<string, Json>, attempts: int)

  /** Only an expected status with well-typed, credential-free captures is an observation. */
  function Answer(reply: Reply, s: Step, creds: map<string, Credential>): (r: Result<Observation>)
    ensures r.Ok? ==> r.value.status == reply.status && r.value.status in s.expected
                      && 1 <= r.value.attempts <= MaxAttempts(s)
    ensures r.Ok? ==> ValidCaptures(r.value.captures, s)
                      && forall name <- r.value.captures :: !ContainsCredential(r.value.captures[name], creds)
    ensures r.Err? ==> r.error != ResumeConflict
  {
    if reply.killed then Err(Killed)
    else if reply.fails || reply.status !in s.expected || !(1 <= reply.attempts <= MaxAttempts(s)) then
      Err(JourneyError)
    else if exists name <- s.capture :: name !in reply.values || !ValidCapture(reply.values[name], s.capture[name]) then
      Err(JourneyError)
    else
      var captures := map name | name in s.capture :: reply.values[name];
      if exists name <- captures :: ContainsCredential(captures[name], creds) then Err(JourneyError)
      else Ok(Observation(reply.status, captures, reply.attempts))
  }

  function CapturesOf(records: seq<Record>): (r: seq<Captures>)
    ensures |r| == |records| && forall i | 0 <= i < |r| :: r[i] == records[i].captures
  {
    seq(|records|, i requires 0 <= i < |records| => records[i].captures)
  }

  /** The record of a step that has just been observed. */
  function MakeRecord(
    c: Codec, plan: Plan, s: Step, q: Sent, tip: string, o: Observation, identity: (Option<string>, Role)): Record
  {
    var blank := Record(
      o.captures, s.checkpoint, s.kind, s.verb, c.operationId(plan.journeyId, s.id, plan.schema), s.path, s.phase, tip,
      q.query, "", ReplayContract(s, plan.schema), q.digest, o.status,
      if plan.schema == 2 then
        Some(Binding(o.attempts, c.hash(AliasMaterial(identity.0)), identity.1,
                     c.hash(ContractMaterial(o.status, o.captures))))
      else None);
    blank.(digest := c.hash(RecordMaterial(blank)))
  }

  /** The record of step `i`, if the server's reply and the captures so far allow one. */
  function NewRecord(
    c: Codec, plan: Plan, creds: map<string, Credential>, i: nat, refs: map<string, Json>, tip: string, reply: Reply)
    : Result<Record>
    requires i < |plan.steps|
  {
    var s := plan.steps[i];
    var q, identity := ResolvedRequest(c, plan, s, refs, creds), CredentialIdentity(s, creds);
    if q.Err? || identity.Err? then Err(JourneyError)
    else
      var o :- Answer(reply, s, creds);
      var record := MakeRecord(c, plan, s, q.value, tip, o, identity.value);
      if PublicSafeRecord(record) then Ok(record) else Err(JourneyError)
  }

  /** A freshly made, public-safe record passes every check of the next resume. */
  lemma MadeRecordIsOk(
    c: Codec, plan: Plan, i: nat, refs: map<string, Json>, creds: map<string, Credential>, tip: string, o: Observation)
    requires CodecOk(c) && ValidPlan(plan) && CredentialsOk(plan, creds) && i < |plan.steps| && IsDigest(tip)
    requires ResolvedRequest(c, plan, plan.steps[i], refs, creds).Ok?
    requires CredentialIdentity(plan.steps[i], creds).Ok?
    requires ValidCaptures(o.captures, plan.steps[i]) && o.status in plan.steps[i].expected
    requires 1 <= o.attempts <= MaxAttempts(plan.steps[i])
    requires PublicSafeRecord(MakeRecord(c, plan, plan.steps[i],
                                         ResolvedRequest(c, plan, plan.steps[i], refs, creds).value,
                                         tip, o, CredentialIdentity(plan.steps[i], creds).value))
    ensures RecordOk(c, plan, plan.steps[i],
                     MakeRecord(c, plan, plan.steps[i], ResolvedRequest(c, plan, plan.steps[i], refs, creds).value,
                                tip, o, CredentialIdentity(plan.steps[i], creds).value), tip)
  {
    hide PublicSafeRecord, ValidCaptures, ResolvePart, IsDigest, SafeId;
    var s := plan.steps[i];
    assert ValidStep(plan, i);
    var r := MakeRecord(c, plan, s, ResolvedRequest(c, plan, s, refs, creds).value, tip, o,
      CredentialIdentity(s, creds).value);
    assert r.(digest := "") == r.(digest := "").(digest := "");
    assert s in plan.steps;
  }

  // ----- Genuine records -----

  /** What step `i` sends, given the captures of the steps before it. */
  function Original(c: Codec, plan: Plan, creds: map<string, Credential>, records: seq<Record>, i: nat): Result<Sent>
    requires i < |plan.steps| && i <= |records| <= |plan.steps|
  {
    ResolvedRequest(c, plan, plan.steps[i], Refs(plan.steps, CapturesOf(records[..i])), creds)
  }

  predicate Genuine(c: Codec, plan: Plan, creds: map<string, Credential>, records: seq<Record>) {
    && |records| <= |plan.steps|
    && forall i | 0 <= i < |records| ::
         var q := Original(c, plan, creds, records, i);
         q.Ok? && q.value.digest == records[i].requestDigest && q.value.query == records[i].query
  }

  /** Every request that was ever sent for a step is the one its earlier captures determine. */
  predicate SentOk(c: Codec, plan: Plan, creds: map<string, Credential>, records: seq<Record>, sent: seq<(nat, Sent)>) {
    && |records| <= |plan.steps|
    && forall k | 0 <= k < |sent| ::
         sent[k].0 <= |records| && sent[k].0 < |plan.steps|
           && Original(c, plan, creds, records, sent[k].0) == Ok(sent[k].1)
  }

  /** No step was ever sent two different requests. */
  ghost predicate Repeats(sent: seq<(nat, Sent)>) {
    forall j, k | 0 <= j < k < |sent| && sent[j].0 == sent[k].0 :: sent[j].1 == sent[k].1
  }

  lemma SentRepeats(c: Codec, plan: Plan, creds: map<string, Credential>, records: seq<Record>, sent: seq<(nat, Sent)>)
    requires SentOk(c, plan, creds, records, sent)
    ensures Repeats(sent)
  {
  }

  /** The record remembers the request that the records before it determine. */
  predicate Continues(c: Codec, plan: Plan, creds: map<string, Credential>, records: seq<Record>, r: Record) {
    && |records| < |plan.steps|
    && var q := Original(c, plan, creds, records, |records|);
       q.Ok? && q.value.digest == r.requestDigest && q.value.query == r.query
  }

  lemma OriginalKept(c: Codec, plan: Plan, creds: map<string, Credential>, records: seq<Record>, r: Record, i: nat)
    requires i < |plan.steps| && i <= |records| < |plan.steps|
    ensures Original(c, plan, creds, records + [r], i) == Original(c, plan, creds, records, i)
  {
    assert (records + [r])[..i] == records[..i];
  }

  lemma GenuineGrows(
    c: Codec, plan: Plan, creds: map<string, Credential>, records: seq<Record>, r: Record, sent: seq<(nat, Sent)>)
    requires Genuine(c, plan, creds, records) && SentOk(c, plan, creds, records, sent)
    requires Continues(c, plan, creds, records, r)
    ensures Genuine(c, plan, creds, records + [r]) && SentOk(c, plan, creds, records + [r], sent)
  {
    hide Original;
    forall i | 0 <= i <= |records| && i < |plan.steps|
      ensures Original(c, plan, creds, records + [r], i) == Original(c, plan, creds, records, i)
    {
      OriginalKept(c, plan, creds, records, r, i);
    }
  }

  /** A replayed step, and the next step, are sent the request that their earlier captures determine. */
  lemma ServedIsOriginal(
    c: Codec, plan: Plan, creds: map<string, Credential>, records: seq<Record>, before: nat, refs: map<string, Json>,
    i: nat)
    requires ValidPlan(plan) && Unshadowed(plan.steps) && ChainOk(c, plan, records)
    requires before <= |records| && i <= |records| && i < |plan.steps| && (i == |records| || before == |records|)
    requires Served(plan.steps, CapturesOf(records), before, refs)
    ensures ResolvedRequest(c, plan, plan.steps[i], refs, creds) == Original(c, plan, creds, records, i)
  {
    hide ResolvedRequest, Refs, ValidCaptures, Available, RecordOk, StepUses, Unshadowed, StepRefs;
    var captures := CapturesOf(records);
    ChainCaptures(c, plan, records);
    assert captures[..i] == CapturesOf(records[..i]);
    var first := Refs(plan.steps, captures[..i]);
    RefsAreAvailable(plan.steps, captures[..i]);
    AvailableGrows(plan.steps, i, |captures|);
    assert ValidStep(plan, i);
    forall k | k in first && k in refs && StepUses(plan.steps[i], k)
      ensures refs[k] == first[k]
    {
      LookupIsOriginal(plan.steps, captures, before, refs, i, k);
    }
    RequestAgrees(c, plan, i, first, refs, creds);
  }

  lemma {:induction false} AvailableGrows(steps: seq<Step>, m: nat, n: nat)
    requires m <= n <= |steps|
    ensures Available(steps, m) <= Available(steps, n)
  {
    hide StepRefs;
    if m < n {
      AvailableGrows(steps, m, n - 1);
    }
  }

  // ----- The runner -----

  predicate PublicIds(plan: Plan) {
    forall s <- plan.steps :: !Sensitive(s.id)
  }

  /** A ledger and an evidence file that pass every check of the next resume. */
  predicate Accepted(c: Codec, plan: Plan, origin: string, l: Ledger, file: Option<Evidence>) {
    && LedgerOk(c, plan, origin, l)
    && PrefixOk(c, plan, l.completed, l.chainTip)
    && EvidenceBinding(plan, l, file).Ok?
  }

  function HistoryOf(plan: Plan, l: Ledger): seq<Record> {
    if IsPrefix(plan, l.completed, |l.completed|) then Records(plan, l.completed) else []
  }

  class Runner {
    const codec: Codec
    const plan: Plan
    const origin: string
    const creds: map<string, Credential>
    const script: nat -> Reply

    var tick: nat
    var ledgerFile: Option<Ledger>
    var evidenceFile: Option<Evidence>
    /** The requests sent over all runs, each with the number of its step. */
    ghost var sent: seq<(nat, Sent)>

    /** What `run_journey` and `validate_plan` establish before a run, and step ids that may be ledger keys. */
    ghost predicate Setting() {
      CodecOk(codec) && ValidPlan(plan) && CredentialsOk(plan, creds) && SafeText(origin) && PublicIds(plan)
    }

    /** The ledger a resume would start from. */
    function Current(): Ledger
      reads this
    {
      if ledgerFile.Some? then ledgerFile.value else FreshLedger(codec, plan, origin)
    }

    function History(): seq<Record>
      reads this
    {
      HistoryOf(plan, Current())
    }

    ghost predicate Valid()
      reads this
    {
      && Setting() && Accepted(codec, plan, origin, Current(), evidenceFile)
      && (Unshadowed(plan.steps) ==>
            Genuine(codec, plan, creds, History()) && SentOk(codec, plan, creds, History(), sent))
    }

    constructor (codec: Codec, plan: Plan, origin: string, creds: map<string, Credential>, script: nat -> Reply)
      requires CodecOk(codec) && ValidPlan(plan) && CredentialsOk(plan, creds) && SafeText(origin) && PublicIds(plan)
      ensures Valid() && History() == []
      ensures this.codec == codec && this.plan == plan && this.origin == origin && this.creds == creds
      ensures this.script == script
    {
      this.codec, this.plan, this.origin, this.creds, this.script := codec, plan, origin, creds, script;
      tick, ledgerFile, evidenceFile, sent := 0, None, None, [];
      new;
      FreshIsOk(codec, plan, origin);
    }

    /** Replaces the evidence file, or dies before it does. */
    method WriteEvidence(e: Evidence) returns (r: Result<()>)
      requires Valid() && Accepted(codec, plan, origin, Current(), Some(e))
      modifies this`tick, this`evidenceFile
      ensures Valid() && Current() == old(Current())
      ensures r.Ok? ==> evidenceFile == Some(e)
      ensures r.Err? ==> r == Err(Killed)
      ensures tick == old(tick) + 1 && (r.Ok? <==> !script(old(tick)).killed)
    {
      hide Genuine, SentOk, Accepted, HistoryOf, CodecOk, ValidPlan, PublicIds;
      var reply := script(tick);
      tick := tick + 1;
      if reply.killed {
        return Err(Killed);
      }
      evidenceFile := Some(e);
      r := Ok(());
    }

    /** Replaces the ledger file by one with another record, or dies before it does. */
    method WriteLedger(r: Record) returns (result: Result<()>)
      requires Valid() && |Current().completed| < |plan.steps|
      requires RecordOk(codec, plan, plan.steps[|Current().completed|], r, Current().chainTip)
      requires Unshadowed(plan.steps) ==> Continues(codec, plan, creds, History(), r)
      modifies this`tick, this`ledgerFile
      ensures Valid()
      ensures result.Ok? ==> Current() == Extended(plan, old(Current()), r) && History() == old(History()) + [r]
      ensures result.Err? ==> result == Err(Killed) && Current() == old(Current())
      ensures tick == old(tick) + 1 && (result.Ok? <==> !script(old(tick)).killed)
    {
      hide Genuine, SentOk, RecordOk, Accepted, HistoryOf, Continues, Unshadowed, CodecOk, ValidPlan, PublicIds,
        Extended;
      var reply := script(tick);
      tick := tick + 1;
      if reply.killed {
        return Err(Killed);
      }
      AcceptedGrows(codec, plan, origin, Current(), evidenceFile, r);
      if Unshadowed(plan.steps) {
        GenuineGrows(codec, plan, creds, History(), r, sent);
      }
      ledgerFile := Some(Extended(plan, Current(), r));
      result := Ok(());
    }

    /** Builds evidence for the first `k` records and writes it. */
    method Publish(k: nat, result: Outcome, stoppedAt: Option<string>, replayed: nat) returns (r: Result<Evidence>)
      requires Valid() && replayed <= k <= |Current().completed| <= |plan.steps|
      requires stoppedAt.None? ==> k == |Current().completed| && result != CheckpointReached
      requires stoppedAt.Some? ==> result == CheckpointReached && k > 0 && stoppedAt == plan.steps[k - 1].checkpoint
      requires result == Complete ==> k == |plan.steps|
      modifies this`tick, this`evidenceFile
      ensures Valid() && Current() == old(Current())
      ensures r.Ok? ==> evidenceFile == Some(r.value) && r.value.result == result && r.value.recordCount == k
      ensures r.Err? ==> r == Err(Killed)
      ensures tick == old(tick) + 1 && (r.Ok? <==> !script(old(tick)).killed)
    {
      hide Genuine, SentOk, Accepted, HistoryOf, CodecOk, ValidPlan, PublicIds, BuildEvidence, LedgerPrefix;
      EvidenceIsAccepted(codec, plan, origin, Current(), evidenceFile, k, result, stoppedAt, replayed);
      var l := if stoppedAt.Some? then LedgerPrefix(plan, Current(), k) else Current();
      var e := BuildEvidence(plan, l, result, stoppedAt, replayed).value;
      var _ :- WriteEvidence(e);
      r := Ok(e);
    }

    /** The captures on file by reference name, gathered in the order of the file, which is sorted by id. */
    method CompletedReferences(completed: map<string, Record>) returns (refs: map<string, Json>)
      requires Setting() && IsPrefix(plan, completed, |completed|) && ChainOk(codec, plan, Records(plan, completed))
      ensures Served(plan.steps, CapturesOf(Records(plan, completed)), |completed|, refs)
    {
      hide ChainOk, Ids, Gathered, IdRefMap, CodecOk, ValidPlan, PublicIds, CredentialsOk, Less, Served;
      ghost var captures := CapturesOf(Records(plan, completed));
      ghost var done: set<nat> := {};
      refs := map[];
      var todo := completed.Keys;
      ChainCaptures(codec, plan, Records(plan, completed));
      GatheredNone(plan.steps, captures);
      while todo != {}
        invariant todo <= completed.Keys
        invariant forall j <- done :: j < |completed| && forall id <- todo :: Less(plan.steps[j].id, id)
        invariant forall i | 0 <= i < |completed| :: plan.steps[i].id in todo <==> i !in done
        invariant Gathered(plan.steps, captures, done, refs)
        decreases todo
      {
        var id := PickLeast(todo);
        ghost var i := IndexOf(plan, completed, id);
        GatheredMore(plan.steps, captures, done, refs, i);
        forall j | 0 <= j < |completed| && j != i
          ensures plan.steps[j].id != id
        {
          StepIdsDiffer(plan, i, j);
        }
        refs := refs + IdRefMap(id, completed[id].captures);
        todo := todo - {id};
        done := done + {i};
      }
      GatheredAll(plan.steps, captures, done, refs);
    }

    /** Asks the server for one step. */
    method ObserveStep(s: Step) returns (r: Result<Observation>)
      modifies this`tick
      ensures r == Answer(script(old(tick)), s, creds) && tick == old(tick) + 1
    {
      var reply := script(tick);
      tick := tick + 1;
      r := Answer(reply, s, creds);
    }

    /** Notes a request as it is sent. */
    ghost method Send(i: nat, q: Sent)
      requires Valid() && i <= |History()| && i < |plan.steps|
      requires Unshadowed(plan.steps) ==> Original(codec, plan, creds, History(), i) == Ok(q)
      modifies this`sent
      ensures Valid() && sent == old(sent) + [(i, q)]
    {
      hide Genuine, Accepted, HistoryOf, CodecOk, PublicIds, ValidStep, Original;
      sent := sent + [(i, q)];
    }

    /** Replays a completed step: the same request must lead to the same outcome. */
    method ReplayStep(i: nat, refs: map<string, Json>) returns (r: Result<()>)
      requires Valid() && i < |History()| == |Current().completed| <= |plan.steps|
      requires Served(plan.steps, CapturesOf(History()), |History()|, refs)
      modifies this
      ensures Valid() && Current() == old(Current()) && old(sent) <= sent
      ensures r == Err(ResumeConflict) <==> Conflicts(codec, plan, creds, i, refs, History()[i])
      ensures Unshadowed(plan.steps) ==> r != Err(ResumeConflict)
      ensures r.Ok? ==>
                var o, existing := Answer(script(old(tick)), plan.steps[i], creds), History()[i];
                o.Ok? && o.value.status == existing.status
                  && ReplayMatches(plan.steps[i], o.value.captures, existing.captures)
    {
      hide Genuine, SentOk, Accepted, HistoryOf, CodecOk, PublicIds, ValidPlan, Original, ResolvedRequest, Served,
        Unshadowed, CapturesOf, Answer, ReplayMatches, ValidCaptures;
      var s := plan.steps[i];
      if Unshadowed(plan.steps) {
        GenuineReplay(codec, plan, creds, origin, Current(), evidenceFile, refs, i);
      }
      var resolved := ResolvedRequest(codec, plan, s, refs, creds);
      if resolved.Err? {
        return Err(JourneyError);
      }
      var q := resolved.value;
      HistoryHas(codec, plan, origin, Current(), evidenceFile, i);
      var existing := Current().completed[s.id];
      if existing.requestDigest != q.digest || existing.query != q.query
         || existing.operationId != codec.operationId(plan.journeyId, s.id, plan.schema) {
        return Err(ResumeConflict);
      }
      Send(i, q);
      var o :- ObserveStep(s);
      if o.status != existing.status || !ReplayMatches(s, o.captures, existing.captures) {
        return Err(JourneyError);
      }
      var _ :- Publish(|Current().completed|, InProgress, None, i + 1);
      r := Ok(());
    }

    /** Performs the next step and makes its record, which the ledger can take. */
    method PerformStep(i: nat, refs: map<string, Json>, ghost before: nat) returns (r: Result<Record>)
      requires Valid() && before <= i == |History()| == |Current().completed| < |plan.steps|
      requires Served(plan.steps, CapturesOf(History()), before, refs)
      modifies this`tick, this`sent
      ensures Valid() && old(sent) <= sent && r != Err(ResumeConflict)
      ensures r == NewRecord(codec, plan, creds, i, refs, Current().chainTip, script(old(tick)))
      ensures r.Ok? ==> tick == old(tick) + 1 && RecordOk(codec, plan, plan.steps[i], r.value, Current().chainTip)
      ensures r.Ok? && Unshadowed(plan.steps) ==> Continues(codec, plan, creds, History(), r.value)
    {
      hide Genuine, SentOk, Accepted, HistoryOf, CodecOk, PublicIds, ValidPlan, Original, ResolvedRequest, Served,
        Unshadowed, CapturesOf, MakeRecord, PublicSafeRecord, RecordOk, ValidCaptures, CredentialsOk,
        CredentialIdentity, SafeText, Answer;
      var s, tip := plan.steps[i], Current().chainTip;
      IdentityIsBound(plan, i, creds);
      if Unshadowed(plan.steps) {
        NextIsOriginal(codec, plan, creds, origin, Current(), evidenceFile, before, refs);
      }
      var resolved := ResolvedRequest(codec, plan, s, refs, creds);
      if resolved.Err? {
        return Err(JourneyError);
      }
      var q := resolved.value;
      Send(i, q);
      var o :- ObserveStep(s);
      var identity := CredentialIdentity(s, creds).value;
      var record := MakeRecord(codec, plan, s, q, tip, o, identity);
      if !PublicSafeRecord(record) {
        return Err(JourneyError);
      }
      TipIsDigest(codec, plan, origin, Current(), evidenceFile);
      MadeRecordIsOk(codec, plan, i, refs, creds, tip, o);
      MadeRecordFields(codec, plan, s, q, tip, o, identity);
      r := Ok(record);
    }

    /** Performs a new step and appends its record to the ledger, then to the evidence. */
    method RecordStep(refs: map<string, Json>, replayed: nat) returns (r: Result<map<string, Json>>)
      requires Valid() && replayed <= |History()| == |Current().completed| < |plan.steps|
      requires Served(plan.steps, CapturesOf(History()), replayed, refs)
      modifies this
      ensures Valid() && old(History()) <= History() && old(sent) <= sent
      ensures r.Ok? ==> |History()| == old(|History()|) + 1 == |Current().completed|
      ensures r.Ok? ==> Served(plan.steps, CapturesOf(History()), replayed, r.value)
      ensures var made := NewRecord(codec, plan, creds, old(|History()|), refs, old(Current().chainTip),
                                    script(old(tick)));
              && (r.Ok? <==> made.Ok? && !script(old(tick) + 1).killed && !script(old(tick) + 2).killed)
              && (r.Ok? ==> History() == old(History()) + [made.value] && Current().chainTip == made.value.digest)
      ensures r.Ok? ==> tick == old(tick) + 3
      ensures r != Err(ResumeConflict)
    {
      hide Genuine, SentOk, Accepted, HistoryOf, CodecOk, PublicIds, ValidPlan, Continues, Served, Unshadowed,
        CapturesOf, RecordOk, CredentialsOk, SafeText, NewRecord;
      var i := |Current().completed|;
      ghost var records := History();
      var record :- PerformStep(i, refs, replayed);
      var _ :- WriteLedger(record);
      HistoryLength(codec, plan, origin, Current(), evidenceFile);
      ServedRecord(codec, plan, origin, Current(), evidenceFile, records, record, replayed, refs);
      var _ :- Publish(i + 1, InProgress, None, replayed);
      r := Ok(refs + IdRefMap(plan.steps[i].id, record.captures));
    }

    /** Loads and checks both files, repairs lagging evidence and gathers the captures on record. */
    method Resume() returns (r: Result<map<string, Json>>)
      requires Valid()
      modifies this`tick, this`evidenceFile
      ensures Valid() && Current() == old(Current()) && |History()| == |Current().completed| <= |plan.steps|
      ensures r.Ok? ==> Served(plan.steps, CapturesOf(History()), |History()|, r.value)
      ensures r.Err? ==> r == Err(Killed) && script(old(tick)).killed
      ensures tick <= old(tick) + 1
    {
      hide Genuine, SentOk, Accepted, HistoryOf, CodecOk, PublicIds, ValidPlan, Served, Unshadowed, CapturesOf,
        CredentialsOk, SafeText, ChainOk, IsPrefix, LedgerOk, EvidenceBinding, Tip, PublicSafeLedger, IsDigest;
      LoadSucceeds(codec, plan, origin, Current(), evidenceFile);
      var ledger := LoadLedger(codec, plan, origin, ledgerFile).value;
      var inOrder := ValidateCompletedPrefix(codec, plan, ledger.completed, ledger.chainTip);
      assert inOrder;
      var lags := EvidenceBinding(plan, ledger, evidenceFile).value;
      if lags {
        var _ :- Publish(|ledger.completed|, InProgress, None, 0);
      }
      var refs := CompletedReferences(ledger.completed);
      r := Ok(refs);
    }

    /** One run over the files: a resume, then every step up to the requested checkpoint. */
    method RunLocked(stopAfter: Option<string>) returns (r: Result<Evidence>)
      requires Valid()
      modifies this
      ensures Valid() && old(History()) <= History() && old(sent) <= sent
      ensures Unshadowed(plan.steps) ==> r != Err(ResumeConflict)
      ensures r.Ok? ==> evidenceFile == Some(r.value) && r.value.result != InProgress
      ensures r.Ok? && r.value.result == Complete ==> r.value.recordCount == |History()| == |plan.steps|
      ensures r.Ok? ==> Replayable(codec, plan, creds, old(History()), r.value.recordCount)
      ensures History() != old(History()) ==> Replayable(codec, plan, creds, old(History()), |old(History())|)
      ensures r.Ok? && r.value.result == CheckpointReached ==>
                stopAfter.Some? && 0 < r.value.recordCount <= |plan.steps|
                && plan.steps[r.value.recordCount - 1].checkpoint == stopAfter
    {
      hide Valid, Current, HistoryOf, Served, Unshadowed, CapturesOf, Replayable;
      var refs :- Resume();
      var before := |Current().completed|;
      ghost var records := History();
      NoneReplayed(codec, plan, creds, records);
      var i := 0;
      while i < |plan.steps|
        invariant old(History()) <= History() && old(sent) <= sent && i <= |plan.steps|
        invariant Reached(i, before, refs, records)
      {
        refs :- TakeStep(i, before, refs, records);
        i := i + 1;
        if plan.steps[i - 1].checkpoint.Some? && plan.steps[i - 1].checkpoint == stopAfter {
          r := Publish(i, CheckpointReached, stopAfter, if i < before then i else before);
          return;
        }
      }
      r := Publish(i, Complete, None, before);
    }

    /** A run that started with `records` on file has got past the first `i` steps. */
    ghost predicate Reached(i: nat, before: nat, refs: map<string, Json>, records: seq<Record>)
      reads this
    {
      && Valid() && |History()| == |Current().completed| == (if i < before then before else i) <= |plan.steps|
      && before == |records| && records <= History() && (i <= before ==> History() == records)
      && Served(plan.steps, CapturesOf(History()), before, refs)
      && Replayable(codec, plan, creds, records, i)
      && (History() != records ==> Replayable(codec, plan, creds, records, |records|))
    }

    /** Replays a step that is on file, or performs it and appends its record. */
    method TakeStep(i: nat, before: nat, refs: map<string, Json>, ghost records: seq<Record>)
      returns (r: Result<map<string, Json>>)
      requires i < |plan.steps| && Reached(i, before, refs, records)
      modifies this
      ensures Valid() && old(History()) <= History() && old(sent) <= sent
      ensures Unshadowed(plan.steps) ==> r != Err(ResumeConflict)
      ensures r.Ok? ==> Reached(i + 1, before, r.value, records)
      ensures History() != records ==> Replayable(codec, plan, creds, records, |records|)
    {
      hide Valid, Current, HistoryOf, Served, Unshadowed, CapturesOf, NewRecord, Conflicts, Replayable;
      if i < before {
        var _ :- ReplayStep(i, refs);
        ReplayedOn(codec, plan, creds, records, refs, i);
        r := Ok(refs);
      } else {
        AllReplayed(codec, plan, creds, records, i, i + 1);
        AllReplayed(codec, plan, creds, records, i, |records|);
        r := RecordStep(refs, before);
      }
    }

    /**
     * Any sequence of runs, each of them cut short anywhere: the files are accepted, the records only grow, and no
     * step is ever sent two different requests.
     */
    method Runs(stops: seq<Option<string>>) returns (results: seq<Result<Evidence>>)
      requires Valid()
      modifies this
      ensures Valid() && old(History()) <= History() && old(sent) <= sent
      ensures Unshadowed(plan.steps) ==> Repeats(sent) && Err(ResumeConflict) !in results
    {
      hide Genuine, SentOk, Accepted, HistoryOf, CodecOk, PublicIds, ValidPlan, Unshadowed, CredentialsOk, SafeText,
        Repeats;
      results := [];
      for k := 0 to |stops|
        invariant Valid() && old(History()) <= History() && old(sent) <= sent
        invariant Unshadowed(plan.steps) ==> Err(ResumeConflict) !in results
      {
        var r := RunLocked(stops[k]);
        results := results + [r];
      }
      if Unshadowed(plan.steps) {
        SentRepeats(codec, plan, creds, History(), sent);
      }
    }
  }

  predicate ReplayMatches(s: Step, current: map<string, Json>, recorded: map<string, Json>) {
    if s.bounds.Some? && s.bounds.value.monotone then
      && current.Keys == recorded.Keys
      && forall name <- recorded ::
           if name in s.capture && s.capture[name] == IntegerType && current[name].Num? && recorded[name].Num?
           then current[name].n >= recorded[name].n
           else current[name] == recorded[name]
    else current == recorded
  }

  lemma HistoryHas(c: Codec, plan: Plan, origin: string, l: Ledger, file: Option<Evidence>, i: nat)
    requires Accepted(c, plan, origin, l, file) && i < |HistoryOf(plan, l)|
    ensures i < |plan.steps| && plan.steps[i].id in l.completed
    ensures l.completed[plan.steps[i].id] == HistoryOf(plan, l)[i]
    ensures HistoryOf(plan, l)[i].operationId == c.operationId(plan.journeyId, plan.steps[i].id, plan.schema)
  {
    hide ChainOk, Tip, Bound, LedgerOk, Ids;
    RecordFacts(c, plan, Records(plan, l.completed), i);
  }

  /** The request that a replay resolves is not the one on record. */
  predicate Conflicts(
    c: Codec, plan: Plan, creds: map<string, Credential>, i: nat, refs: map<string, Json>, existing: Record)
    requires i < |plan.steps|
  {
    var q := ResolvedRequest(c, plan, plan.steps[i], refs, creds);
    q.Ok? && (existing.requestDigest != q.value.digest || existing.query != q.value.query)
  }

  /** A run that has these records on file gets past the first `n` of them. */
  ghost predicate Replayable(c: Codec, plan: Plan, creds: map<string, Credential>, records: seq<Record>, n: int)
    requires |records| <= |plan.steps|
  {
    forall refs, i | Served(plan.steps, CapturesOf(records), |records|, refs) && 0 <= i < |records| && i < n ::
      !Conflicts(c, plan, creds, i, refs, records[i])
  }

  lemma NoneReplayed(c: Codec, plan: Plan, creds: map<string, Credential>, records: seq<Record>)
    requires |records| <= |plan.steps|
    ensures Replayable(c, plan, creds, records, 0)
  {
  }

  /** The file determines the references of the replay, so one replay without a conflict settles the record. */
  lemma ReplayedOn(
    c: Codec, plan: Plan, creds: map<string, Credential>, records: seq<Record>, refs: map<string, Json>, n: nat)
    requires n < |records| <= |plan.steps| && Served(plan.steps, CapturesOf(records), |records|, refs)
    requires Replayable(c, plan, creds, records, n) && !Conflicts(c, plan, creds, n, refs, records[n])
    ensures Replayable(c, plan, creds, records, n + 1)
  {
    hide Served, Conflicts;
    forall refs' | Served(plan.steps, CapturesOf(records), |records|, refs')
      ensures refs' == refs
    {
      ServedIsUnique(plan.steps, CapturesOf(records), |records|, refs, refs');
    }
  }

  lemma AllReplayed(c: Codec, plan: Plan, creds: map<string, Credential>, records: seq<Record>, n: nat, m: nat)
    requires |records| <= |plan.steps| && |records| <= n && Replayable(c, plan, creds, records, n)
    ensures Replayable(c, plan, creds, records, m)
  {
    hide Served, Conflicts;
  }

  /** A genuine ledger is replayed with the request that its record remembers. */
  lemma GenuineReplay(
    c: Codec, plan: Plan, creds: map<string, Credential>, origin: string, l: Ledger, file: Option<Evidence>,
    refs: map<string, Json>, i: nat)
    requires ValidPlan(plan) && Unshadowed(plan.steps) && Accepted(c, plan, origin, l, file)
    requires Genuine(c, plan, creds, HistoryOf(plan, l)) && i < |HistoryOf(plan, l)|
    requires Served(plan.steps, CapturesOf(HistoryOf(plan, l)), |HistoryOf(plan, l)|, refs)
    ensures var records := HistoryOf(plan, l);
            var q := ResolvedRequest(c, plan, plan.steps[i], refs, creds);
            && q == Original(c, plan, creds, records, i)
            && q.Ok? && q.value.digest == records[i].requestDigest && q.value.query == records[i].query
  {
    hide ChainOk, Tip, Bound, LedgerOk, Ids, ResolvedRequest, Served, Original, Unshadowed, ValidPlan;
    var records := HistoryOf(plan, l);
    ServedIsOriginal(c, plan, creds, records, |records|, refs, i);
  }

  /** Accepted files pass all three checks of a resume. */
  lemma LoadSucceeds(c: Codec, plan: Plan, origin: string, l: Ledger, file: Option<Evidence>)
    requires Accepted(c, plan, origin, l, file)
    ensures LoadLedger(c, plan, origin, Some(l)) == Ok(l)
    ensures PrefixOk(c, plan, l.completed, l.chainTip) && EvidenceBinding(plan, l, file).Ok?
    ensures HistoryOf(plan, l) == Records(plan, l.completed) && |l.completed| <= |plan.steps|
  {
  }

  lemma TipIsDigest(c: Codec, plan: Plan, origin: string, l: Ledger, file: Option<Evidence>)
    requires Accepted(c, plan, origin, l, file)
    ensures IsDigest(l.chainTip)
  {
  }

  lemma HistoryLength(c: Codec, plan: Plan, origin: string, l: Ledger, file: Option<Evidence>)
    requires Accepted(c, plan, origin, l, file)
    ensures |HistoryOf(plan, l)| == |l.completed| <= |plan.steps|
  {
  }

  lemma IdentityIsBound(plan: Plan, i: nat, creds: map<string, Credential>)
    requires CredentialsOk(plan, creds) && i < |plan.steps|
    ensures CredentialIdentity(plan.steps[i], creds).Ok?
  {
  }

  lemma NextIsOriginal(
    c: Codec, plan: Plan, creds: map<string, Credential>, origin: string, l: Ledger, file: Option<Evidence>,
    before: nat, refs: map<string, Json>)
    requires ValidPlan(plan) && Unshadowed(plan.steps) && Accepted(c, plan, origin, l, file)
    requires before <= |HistoryOf(plan, l)| < |plan.steps|
    requires Served(plan.steps, CapturesOf(HistoryOf(plan, l)), before, refs)
    ensures var records := HistoryOf(plan, l);
            ResolvedRequest(c, plan, plan.steps[|records|], refs, creds) == Original(c, plan, creds, records, |records|)
  {
    hide ChainOk, Tip, Bound, LedgerOk, Ids, ResolvedRequest, Served, Original, Unshadowed, ValidPlan;
    var records := HistoryOf(plan, l);
    ServedIsOriginal(c, plan, creds, records, before, refs, |records|);
  }

  lemma MadeRecordFields(
    c: Codec, plan: Plan, s: Step, q: Sent, tip: string, o: Observation, identity: (Option<string>, Role))
    ensures var r := MakeRecord(c, plan, s, q, tip, o, identity);
            r.captures == o.captures && r.status == o.status && r.requestDigest == q.digest && r.query == q.query
  {
  }

  lemma ServedRecord(
    c: Codec, plan: Plan, origin: string, l: Ledger, file: Option<Evidence>, records: seq<Record>, r: Record,
    before: nat, refs: map<string, Json>)
    requires Accepted(c, plan, origin, l, file) && HistoryOf(plan, l) == records + [r] && |records| < |plan.steps|
    requires before <= |records| && Served(plan.steps, CapturesOf(records), before, refs)
    ensures Served(plan.steps, CapturesOf(HistoryOf(plan, l)), before,
                   refs + IdRefMap(plan.steps[|records|].id, r.captures))
  {
    hide ChainOk, Tip, Bound, LedgerOk, Ids, Served;
    ChainCaptures(c, plan, records + [r]);
    assert CapturesOf(records + [r]) == CapturesOf(records) + [r.captures];
    ServedMore(plan.steps, CapturesOf(records), before, refs, r.captures);
  }

  lemma GatheredNone(steps: seq<Step>, captures: seq<Captures>)
    requires |captures| <= |steps|
    ensures Gathered(steps, captures, {}, map[])
  {
  }

  lemma StepIdsDiffer(plan: Plan, i: nat, j: nat)
    requires ValidPlan(plan) && i < |plan.steps| && j < |plan.steps| && i != j
    ensures plan.steps[i].id != plan.steps[j].id
  {
  }

  lemma ChainCaptures(c: Codec, plan: Plan, records: seq<Record>)
    requires ChainOk(c, plan, records)
    ensures AllValid(plan.steps, CapturesOf(records))
  {
  }

  /** Evidence for the first `k` records can always be built, and the next resume accepts it. */
  lemma EvidenceIsAccepted(
    c: Codec, plan: Plan, origin: string, l: Ledger, file: Option<Evidence>, k: nat, result: Outcome,
    stoppedAt: Option<string>, replayed: nat)
    requires CodecOk(c) && ValidPlan(plan) && SafeText(origin) && Accepted(c, plan, origin, l, file)
    requires replayed <= k <= |l.completed|
    requires stoppedAt.None? ==> k == |l.completed| && result != CheckpointReached
    requires stoppedAt.Some? ==> result == CheckpointReached && k > 0 && stoppedAt == plan.steps[k - 1].checkpoint
    requires result == Complete ==> k == |plan.steps|
    ensures IsPrefix(plan, l.completed, |l.completed|)
    ensures var cut := if stoppedAt.Some? then LedgerPrefix(plan, l, k) else l;
            var e := BuildEvidence(plan, cut, result, stoppedAt, replayed);
            && e.Ok? && Accepted(c, plan, origin, l, Some(e.value))
            && e.value.result == result && e.value.recordCount == k
  {
    hide ChainOk, ValidStep, Cut, PublicSafeRecord, Tip, Bound, PublicSafeEvidence, SafeText, Ids;
    WholeLedger(plan, l);
    var cut := LedgerPrefix(plan, l, k);
    if stoppedAt.Some? {
      assert ValidStep(plan, k - 1);
      CheckpointIsSafe(plan, k - 1);
    }
    CutIsPublic(c, plan, l, k);
    EvidenceIsPublic(c, plan, origin, cut, result, stoppedAt, replayed);
    BuiltIsBound(plan, l, k, result, stoppedAt, replayed);
    CutRecords(plan, l.completed, k);
  }

  lemma CheckpointIsSafe(plan: Plan, i: nat)
    requires i < |plan.steps| && ValidStep(plan, i) && plan.steps[i].checkpoint.Some?
    ensures SafeId(plan.steps[i].checkpoint.value)
  {
  }

  lemma CutIsPublic(c: Codec, plan: Plan, l: Ledger, k: nat)
    requires PrefixOk(c, plan, l.completed, l.chainTip) && PublicSafeLedger(l) && k <= |l.completed|
    ensures var cut := LedgerPrefix(plan, l, k);
            IsDigest(cut.chainTip) && forall id <- cut.completed :: PublicSafeRecord(cut.completed[id])
  {
    hide PublicSafeRecord, BindingOk, ValidCaptures, ReplayContract, Ids, Sensitive, SafeText;
    var records := Records(plan, l.completed);
    if k > 0 {
      ChainHas(c, plan, records, k - 1);
    }
  }

  function Extended(plan: Plan, l: Ledger, r: Record): Ledger
    requires |l.completed| < |plan.steps|
  {
    l.(completed := l.completed[plan.steps[|l.completed|].id := r], chainTip := r.digest)
  }

  /** A ledger extended by a good record is accepted again, and keeps every earlier record. */
  lemma LedgerGrows(c: Codec, plan: Plan, origin: string, l: Ledger, r: Record)
    requires ValidPlan(plan) && PublicIds(plan) && |l.completed| < |plan.steps|
    requires LedgerOk(c, plan, origin, l) && PrefixOk(c, plan, l.completed, l.chainTip)
    requires RecordOk(c, plan, plan.steps[|l.completed|], r, l.chainTip)
    ensures var l' := Extended(plan, l, r);
            && LedgerOk(c, plan, origin, l') && PrefixOk(c, plan, l'.completed, l'.chainTip)
            && Records(plan, l'.completed) == Records(plan, l.completed) + [r]
  {
    hide ValidStep, Tip, ChainOk, BindingOk, ValidCaptures, PublicSafeRecord, Ids, Sensitive, SafeText;
    PrefixGrows(plan, l.completed, r);
    ChainGrows(c, plan, Records(plan, l.completed), r);
    DigestIsSafeText(r.digest);
    assert plan.steps[|l.completed|] in plan.steps;
  }

  /** A kill between the two writes leaves evidence that lags by one record and is still accepted. */
  lemma AcceptedGrows(c: Codec, plan: Plan, origin: string, l: Ledger, file: Option<Evidence>, r: Record)
    requires ValidPlan(plan) && PublicIds(plan) && |l.completed| < |plan.steps|
    requires Accepted(c, plan, origin, l, file) && RecordOk(c, plan, plan.steps[|l.completed|], r, l.chainTip)
    ensures Accepted(c, plan, origin, Extended(plan, l, r), file)
    ensures HistoryOf(plan, Extended(plan, l, r)) == HistoryOf(plan, l) + [r]
    ensures |HistoryOf(plan, l)| == |l.completed|
  {
    hide LedgerOk, ValidPlan, PublicIds, RecordOk, ChainOk, Tip, Bound;
    LedgerGrows(c, plan, origin, l, r);
    if file.Some? {
      BoundGrows(plan, l, Extended(plan, l, r), file.value);
    }
  }

  lemma FreshIsOk(c: Codec, plan: Plan, origin: string)
    requires CodecOk(c) && ValidPlan(plan) && SafeText(origin)
    ensures Accepted(c, plan, origin, FreshLedger(c, plan, origin), None)
    ensures HistoryOf(plan, FreshLedger(c, plan, origin)) == []
  {
    hide ValidStep, PublicSafeRecord, Sensitive, SafeText, RecordOk, SafeId, CodecOk, PublicSafeEvidence, IsDigest;
    var l := FreshLedger(c, plan, origin);
    assert plan.steps[..0] == [];
    assert l.completed.Keys == Ids(plan.steps[..0]);
    ReloadNeedsPublicIds(c, plan, origin, l);
  }
}
