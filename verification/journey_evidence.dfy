/** Loading a ledger, building evidence from it, and binding evidence back to it. */
module JourneyEvidence {
  import opened Wrappers
  import opened Shared
  import opened JourneyTemplate
  import opened JourneyLedger

  function FreshLedger(c: Codec, plan: Plan, origin: string): Ledger {
    Ledger(plan.schema, plan.journeyId, c.hash(PlanMaterial(plan)), origin, ZeroDigest(), map[])
  }

  predicate LedgerOk(c: Codec, plan: Plan, origin: string, l: Ledger) {
    && l == FreshLedger(c, plan, origin).(chainTip := l.chainTip, completed := l.completed)
    && IsDigest(l.chainTip)
    && PublicSafeLedger(l)
  }

  /** What a resume starts from: nothing, or a file that matches the plan. */
  function LoadLedger(c: Codec, plan: Plan, origin: string, file: Option<Ledger>): Result<Ledger> {
    match file
    case None => Ok(FreshLedger(c, plan, origin))
    case Some(l) => if LedgerOk(c, plan, origin, l) then Ok(l) else Err(JourneyError)
  }

  /** A ledger of public-safe records can be loaded again if and only if no completed step id looks sensitive. */
  lemma ReloadNeedsPublicIds(c: Codec, plan: Plan, origin: string, l: Ledger)
    requires CodecOk(c) && SafeId(plan.journeyId) && SafeText(origin)
    requires l == FreshLedger(c, plan, origin).(chainTip := l.chainTip, completed := l.completed)
    requires IsDigest(l.chainTip)
    requires forall id <- l.completed :: PublicSafeRecord(l.completed[id])
    ensures LoadLedger(c, plan, origin, Some(l)).Ok? <==> forall id <- l.completed :: !Sensitive(id)
  {
    hide PublicSafeRecord, Sensitive;
    SafeIdIsSafeText(plan.journeyId);
    DigestIsSafeText(c.hash(PlanMaterial(plan)));
    DigestIsSafeText(l.chainTip);
  }

  lemma ATokenStepIsSensitive()
    ensures SafeId("issue-Token") && Sensitive("issue-Token")
  {
    assert SENSITIVE_WORDS[6] == "token" && "token" in SENSITIVE_WORDS;
    assert ContainsAt("issue-Token", "token", 6) && 6 <= |"issue-Token"|;
  }

  // ----- Evidence -----

  function Listed(steps: seq<Step>, completed: map<string, Record>): seq<(string, Record)> {
    if steps == [] then []
    else
      Listed(steps[..|steps| - 1], completed)
      + (if steps[|steps| - 1].id in completed then [(steps[|steps| - 1].id, completed[steps[|steps| - 1].id])] else [])
  }

  function IdList(steps: seq<Step>): seq<string> {
    seq(|steps|, i requires 0 <= i < |steps| => steps[i].id)
  }

  /** Evidence for the ledger, after the first `replayed` steps were verified against the server. */
  function EvidenceFor(plan: Plan, l: Ledger, result: Outcome, stoppedAt: Option<string>, replayed: nat): Evidence
    requires replayed <= |plan.steps|
  {
    Evidence(plan.schema, l.journeyId, l.planDigest, l.origin, l.chainTip, |l.completed|, result, stoppedAt,
             IdList(plan.steps[..replayed]), Listed(plan.steps, l.completed))
  }

  function BuildEvidence(
    plan: Plan, l: Ledger, result: Outcome, stoppedAt: Option<string>, replayed: nat): Result<Evidence>
    requires replayed <= |plan.steps|
  {
    var e := EvidenceFor(plan, l, result, stoppedAt, replayed);
    if PublicSafeEvidence(e) then Ok(e) else Err(JourneyError)
  }

  /** The ledger cut back to its first `k` records. */
  function LedgerPrefix(plan: Plan, l: Ledger, k: nat): Ledger
    requires IsPrefix(plan, l.completed, |l.completed|) && k <= |l.completed|
  {
    l.(completed := Cut(plan, l.completed, k), chainTip := Tip(Records(plan, l.completed)[..k]))
  }

  function Cut(plan: Plan, completed: map<string, Record>, k: nat): map<string, Record>
    requires k <= |plan.steps|
  {
    map id | id in completed && id in Ids(plan.steps[..k]) :: completed[id]
  }

  function Pairs(steps: seq<Step>, records: seq<Record>): (r: seq<(string, Record)>)
    requires |records| <= |steps|
    ensures |r| == |records| && forall i | 0 <= i < |r| :: r[i] == (steps[i].id, records[i])
  {
    seq(|records|, i requires 0 <= i < |records| => (steps[i].id, records[i]))
  }

  predicate Unique(ids: seq<string>) {
    forall i, j | 0 <= i < j < |ids| :: ids[i] != ids[j]
  }

  /** Evidence that is a true account of the first `recordCount` records of the ledger. */
  predicate Bound(plan: Plan, l: Ledger, e: Evidence)
    requires IsPrefix(plan, l.completed, |l.completed|)
  {
    && e.schema == plan.schema && e.journeyId == l.journeyId && e.planDigest == l.planDigest && e.origin == l.origin
    && 0 <= e.recordCount <= |l.completed|
    && (e.result != CheckpointReached ==> e.stoppedAt.None?)
    && Unique(e.replayVerified)
    && (forall id <- e.replayVerified :: id in Ids(plan.steps[..e.recordCount]))
    && e.steps == Pairs(plan.steps, Records(plan, l.completed)[..e.recordCount])
    && PublicSafeEvidence(e)
    && e.chainTip == Tip(Records(plan, l.completed)[..e.recordCount])
    && (e.result == CheckpointReached ==>
          e.recordCount > 0 && e.stoppedAt.Some? && e.stoppedAt == plan.steps[e.recordCount - 1].checkpoint)
    && (e.result == Complete ==> e.recordCount == |plan.steps|)
  }

  /** The binding check; success says whether the evidence lags behind the ledger. */
  function EvidenceBinding(plan: Plan, l: Ledger, file: Option<Evidence>): Result<bool>
    requires IsPrefix(plan, l.completed, |l.completed|)
  {
    match file
    case None => Ok(l.completed != map[])
    case Some(e) => if Bound(plan, l, e) then Ok(e.recordCount < |l.completed|) else Err(JourneyError)
  }

  lemma {:induction false} ListedFirst(plan: Plan, completed: map<string, Record>, n: nat)
    requires IsPrefix(plan, completed, |completed|) && n <= |completed|
    ensures Listed(plan.steps[..n], completed) == Pairs(plan.steps, Records(plan, completed)[..n])
  {
    hide Ids, Listed, Pairs;
    var records := Records(plan, completed);
    if n > 0 {
      ListedFirst(plan, completed, n - 1);
      assert plan.steps[..n] == plan.steps[..n - 1] + [plan.steps[n - 1]];
      ListedMore(plan.steps[..n - 1], plan.steps[n - 1], completed);
      PairsMore(plan.steps, records, n);
    } else {
      NothingListed(plan.steps, records, completed);
    }
  }

  lemma NothingListed(steps: seq<Step>, records: seq<Record>, completed: map<string, Record>)
    ensures Listed(steps[..0], completed) == [] == Pairs(steps, records[..0])
  {
  }

  lemma ListedMore(steps: seq<Step>, s: Step, completed: map<string, Record>)
    requires s.id in completed
    ensures Listed(steps + [s], completed) == Listed(steps, completed) + [(s.id, completed[s.id])]
  {
    assert (steps + [s])[..|steps|] == steps;
  }

  lemma PairsMore(steps: seq<Step>, records: seq<Record>, n: nat)
    requires 0 < n <= |records| <= |steps|
    ensures Pairs(steps, records[..n]) == Pairs(steps, records[..n - 1]) + [(steps[n - 1].id, records[n - 1])]
  {
  }

  lemma {:induction false} ListedRest(plan: Plan, completed: map<string, Record>, n: nat)
    requires IsPrefix(plan, completed, |completed|) && |completed| <= n <= |plan.steps|
    requires forall i, j | 0 <= i < j < |plan.steps| :: plan.steps[i].id != plan.steps[j].id
    ensures Listed(plan.steps[..n], completed) == Pairs(plan.steps, Records(plan, completed))
  {
    hide Ids;
    if n == |completed| {
      ListedFirst(plan, completed, n);
      assert Records(plan, completed)[..n] == Records(plan, completed);
    } else {
      ListedRest(plan, completed, n - 1);
      assert plan.steps[..n][..n - 1] == plan.steps[..n - 1];
      if plan.steps[n - 1].id in completed {
        var i := IndexOf(plan, completed, plan.steps[n - 1].id);
        assert false;
      }
    }
  }

  lemma CutRecords(plan: Plan, completed: map<string, Record>, k: nat)
    requires ValidPlan(plan) && IsPrefix(plan, completed, |completed|) && k <= |completed|
    ensures var cut := Cut(plan, completed, k);
            && |cut| == k && IsPrefix(plan, cut, k) && Records(plan, cut) == Records(plan, completed)[..k]
  {
    hide ValidStep, Ids;
    var cut := Cut(plan, completed, k);
    IdsCut(plan.steps, k, |completed|);
    assert cut.Keys == Ids(plan.steps[..k]);
    IdCount(plan, k);
    assert |cut| == |cut.Keys|;
  }

  lemma IdsCut(steps: seq<Step>, k: nat, n: nat)
    requires k <= n <= |steps|
    ensures Ids(steps[..k]) <= Ids(steps[..n])
  {
  }

  lemma {:induction false} IdCount(plan: Plan, k: nat)
    requires k <= |plan.steps|
    requires forall i, j | 0 <= i < j < |plan.steps| :: plan.steps[i].id != plan.steps[j].id
    ensures |Ids(plan.steps[..k])| == k
  {
    if k == 0 {
      assert plan.steps[..0] == [];
    } else {
      IdCount(plan, k - 1);
      IdsGrow(plan.steps, k - 1);
      assert plan.steps[k - 1].id !in Ids(plan.steps[..k - 1]);
    }
  }

  /** What `build_evidence` writes for the first `k` records is bound to the ledger. */
  lemma BuiltIsBound(
    plan: Plan, l: Ledger, k: nat, result: Outcome, stoppedAt: Option<string>, replayed: nat)
    requires ValidPlan(plan) && IsPrefix(plan, l.completed, |l.completed|) && replayed <= k <= |l.completed|
    requires l.schema == plan.schema
    requires result != CheckpointReached ==> stoppedAt.None?
    requires result == CheckpointReached ==> k > 0 && stoppedAt.Some? && stoppedAt == plan.steps[k - 1].checkpoint
    requires result == Complete ==> k == |plan.steps|
    requires PublicSafeEvidence(EvidenceFor(plan, LedgerPrefix(plan, l, k), result, stoppedAt, replayed))
    ensures Bound(plan, l, EvidenceFor(plan, LedgerPrefix(plan, l, k), result, stoppedAt, replayed))
  {
    hide ValidStep, PublicSafeEvidence, Tip, Cut, Listed, Ids, Unique, IdList;
    CutRecords(plan, l.completed, k);
    ListedRest(plan, Cut(plan, l.completed, k), |plan.steps|);
    assert plan.steps[..|plan.steps|] == plan.steps;
    ReplayedIds(plan, replayed, k);
  }

  lemma ReplayedIds(plan: Plan, replayed: nat, k: nat)
    requires replayed <= k <= |plan.steps|
    requires forall i, j | 0 <= i < j < |plan.steps| :: plan.steps[i].id != plan.steps[j].id
    ensures Unique(IdList(plan.steps[..replayed]))
    ensures forall id <- IdList(plan.steps[..replayed]) :: id in Ids(plan.steps[..k])
  {
  }

  lemma WholeLedger(plan: Plan, l: Ledger)
    requires ValidPlan(plan) && IsPrefix(plan, l.completed, |l.completed|)
    requires l.chainTip == Tip(Records(plan, l.completed))
    ensures LedgerPrefix(plan, l, |l.completed|) == l
  {
    hide ValidStep, Ids;
    var n := |l.completed|;
    assert Records(plan, l.completed)[..n] == Records(plan, l.completed);
    assert LedgerPrefix(plan, l, n).completed == l.completed;
  }

  /** Evidence stays bound while the ledger grows. */
  lemma BoundGrows(plan: Plan, l: Ledger, l': Ledger, e: Evidence)
    requires IsPrefix(plan, l.completed, |l.completed|) && IsPrefix(plan, l'.completed, |l'.completed|)
    requires l' == l.(completed := l'.completed, chainTip := l'.chainTip)
    requires Records(plan, l.completed) <= Records(plan, l'.completed)
    requires Bound(plan, l, e)
    ensures Bound(plan, l', e)
  {
    hide Ids, PublicSafeEvidence, Tip;
    assert Records(plan, l'.completed)[..e.recordCount] == Records(plan, l.completed)[..e.recordCount];
  }

  /** Public-safe records make public-safe evidence, even under sensitive step ids. */
  lemma EvidenceIsPublic(
    c: Codec, plan: Plan, origin: string, l: Ledger, result: Outcome, stoppedAt: Option<string>, replayed: nat)
    requires CodecOk(c) && ValidPlan(plan) && SafeText(origin) && replayed <= |plan.steps|
    requires l == FreshLedger(c, plan, origin).(chainTip := l.chainTip, completed := l.completed)
    requires IsDigest(l.chainTip)
    requires forall id <- l.completed :: PublicSafeRecord(l.completed[id])
    requires stoppedAt.Some? ==> SafeId(stoppedAt.value)
    ensures BuildEvidence(plan, l, result, stoppedAt, replayed).Ok?
  {
    hide PublicSafeRecord, SafeText, IsDigest, SafeId;
    SafeIdIsSafeText(plan.journeyId);
    DigestIsSafeText(c.hash(PlanMaterial(plan)));
    DigestIsSafeText(l.chainTip);
    if stoppedAt.Some? {
      SafeIdIsSafeText(stoppedAt.value);
    }
    forall i | 0 <= i < |plan.steps|
      ensures SafeText(plan.steps[i].id)
    {
      assert ValidStep(plan, i);
      SafeIdIsSafeText(plan.steps[i].id);
    }
    ListedArePublic(plan.steps, l.completed);
  }

  lemma {:induction false} ListedArePublic(steps: seq<Step>, completed: map<string, Record>)
    requires forall s <- steps :: SafeText(s.id)
    requires forall id <- completed :: PublicSafeRecord(completed[id])
    ensures forall p <- Listed(steps, completed) :: SafeText(p.0) && PublicSafeRecord(p.1)
  {
    hide PublicSafeRecord, SafeText;
    if steps != [] {
      ListedArePublic(steps[..|steps| - 1], completed);
    }
  }
}
