/** Memory promises of the owned guests, counted in MiB while the host reports bytes. */
module LabMemory {
  import opened Wrappers
  import opened Shared
  import opened LabState
  import opened LabBoot

  const MIB := 1048576
  const BOOT_MEMORY_MIB := 8192
  /** The builder's 1024 MiB and the agent's 512 MiB growth allowance. */
  const MARGIN_MIB := 1536
  const GUARD_MIB := 256

  /** Bytes rounded up to whole MiB; nothing is owed for a negative amount. */
  function CeilMib(bytes: int): nat {
    (Max(0, bytes) + MIB - 1) / MIB
  }

  lemma CeilMibWhole(k: nat)
    ensures CeilMib(k * MIB) == k
  {
  }

  /** The records that promise memory. */
  datatype Promises = Promises(runs: map<Vm, Run>, requests: map<Vm, nat>)

  function PromisesOf(d: State): Promises {
    Promises(d.runs, d.requests)
  }

  // ----- What one slot still owes -----

  predicate Promised(d: Promises, v: Vm) {
    (v in d.runs && d.runs[v].phase in {Starting, Running}) || v in d.requests
  }

  function Startup(d: Promises, v: Vm): nat {
    if v in d.runs then d.runs[v].startupMib else if Promised(d, v) then BOOT_MEMORY_MIB else 0
  }

  function Requested(d: Promises, v: Vm): nat {
    if v in d.requests then d.requests[v] else BOOT_MEMORY_MIB
  }

  function Target(d: Promises, v: Vm): nat {
    if v in d.requests then d.requests[v] else 0
  }

  function Actual(t: Telemetry): Option<int> {
    if t.balloon.Some? then t.balloon else t.maxmem
  }

  /** The telemetry that commitment accounting insists on; process sizes are read as digits. */
  predicate Measured(t: Telemetry) {
    && Actual(t).Some? && Actual(t).value > 0
    && t.memhost.Some? && t.memhost.value >= 0 && t.rss.Some? && t.rss.value >= 0
  }

  function Committed(d: Promises, v: Vm, t: Telemetry): int
    requires Actual(t).Some?
  {
    var starting := v in d.runs && d.runs[v].phase == Starting;
    Max(Max(Actual(t).value, t.balloonMin),
        Max(Target(d, v) * MIB, if starting then Startup(d, v) * MIB else 0))
  }

  /** A committed amount and the two measures of how much of it is already resident, in bytes. */
  datatype Claim = Claim(bytes: int, pve: int, rss: int) {
    function Outstanding(): nat {
      CeilMib(bytes - Min(pve, rss))
    }
  }

  function ClaimOf(d: Promises, v: Vm, g: Guest): Claim {
    if g.boot.None? then
      Claim(if Promised(d, v) then Max(Requested(d, v), Startup(d, v)) * MIB else 0, 0, 0)
    else if Measured(g.telemetry) then
      Claim(Committed(d, v, g.telemetry), g.telemetry.memhost.value, g.telemetry.rss.value)
    else
      Claim(0, 0, 0)
  }

  /** A guest that is down although its run is recorded as running. */
  predicate Lost(d: Promises, gs: map<Vm, Guest>, v: Vm) {
    v in gs && gs[v].boot.None? && v in d.runs && d.runs[v].phase == Running
  }

  /** What a slot may still take: its claim, unless it is lost or a stopped slot that is about to be started. */
  function OutstandingAt(d: Promises, gs: map<Vm, Guest>, skip: Option<Vm>, v: Vm): nat {
    if v !in gs || Lost(d, gs, v) || (skip == Some(v) && gs[v].boot.None?) then 0
    else ClaimOf(d, v, gs[v]).Outstanding()
  }

  /** What the guard counts for a slot, lost or not. */
  function CountedAt(d: Promises, gs: map<Vm, Guest>, v: Vm): nat {
    if v in gs then ClaimOf(d, v, gs[v]).Outstanding() else 0
  }

  function ActiveAt(d: Promises, gs: map<Vm, Guest>, skip: Option<Vm>, v: Vm): nat {
    if v in gs && (gs[v].boot.Some? || Promised(d, v)) && !(skip == Some(v) && gs[v].boot.None?) then 1 else 0
  }

  /** Total that `slots` may still take. */
  function Owed(d: Promises, slots: seq<Vm>, gs: map<Vm, Guest>, skip: Option<Vm>): nat {
    if slots == [] then 0
    else Owed(d, slots[..|slots| - 1], gs, skip) + OutstandingAt(d, gs, skip, slots[|slots| - 1])
  }

  function Counted(d: Promises, slots: seq<Vm>, gs: map<Vm, Guest>): nat {
    if slots == [] then 0
    else Counted(d, slots[..|slots| - 1], gs) + CountedAt(d, gs, slots[|slots| - 1])
  }

  function Active(d: Promises, slots: seq<Vm>, gs: map<Vm, Guest>, skip: Option<Vm>): nat {
    if slots == [] then 0
    else Active(d, slots[..|slots| - 1], gs, skip) + ActiveAt(d, gs, skip, slots[|slots| - 1])
  }

  /** The host can take on `growth` MiB more and keep its distance from the reserve. */
  predicate Affords(c: Config, d: Promises, gs: map<Vm, Guest>, available: int, growth: nat) {
    && available - growth - Owed(d, c.slots, gs, None) - MARGIN_MIB >= c.reserveMib + GUARD_MIB
    && Active(d, c.slots, gs, None) <= c.maxActive
  }

  /** The retained headroom, with lost slots left out. */
  predicate Kept(c: Config, d: Promises, gs: map<Vm, Guest>, available: int) {
    Affords(c, d, gs, available, 0)
  }

  /** The retention condition that `guard` enforces, which charges a lost slot for its whole promise. */
  predicate Retained(c: Config, d: Promises, gs: map<Vm, Guest>, available: int) {
    && available - Counted(d, c.slots, gs) - MARGIN_MIB >= c.reserveMib + GUARD_MIB
    && Active(d, c.slots, gs, None) <= c.maxActive
  }

  /** The promises of the lost slots. */
  function LostPromises(d: Promises, slots: seq<Vm>, gs: map<Vm, Guest>): nat {
    if slots == [] then 0
    else
      var v := slots[|slots| - 1];
      LostPromises(d, slots[..|slots| - 1], gs) + if Lost(d, gs, v) then Max(Requested(d, v), Startup(d, v)) else 0
  }

  lemma {:induction false} CountedSplits(d: Promises, slots: seq<Vm>, gs: map<Vm, Guest>)
    ensures Counted(d, slots, gs) == Owed(d, slots, gs, None) + LostPromises(d, slots, gs)
    ensures (forall v <- slots :: !Lost(d, gs, v)) ==> LostPromises(d, slots, gs) == 0
  {
    if slots != [] {
      var v := slots[|slots| - 1];
      CountedSplits(d, slots[..|slots| - 1], gs);
      assert v in slots;
      CeilMibWhole(Max(Requested(d, v), Startup(d, v)));
    }
  }

  /** The guard's condition is the kept headroom with room for the promises of the lost slots. */
  lemma RetainedIffLostAreCovered(c: Config, d: Promises, gs: map<Vm, Guest>, a: int)
    ensures Retained(c, d, gs, a) <==> Affords(c, d, gs, a, LostPromises(d, c.slots, gs))
    ensures Retained(c, d, gs, a) ==> Kept(c, d, gs, a)
    ensures (forall v <- c.slots :: !Lost(d, gs, v)) ==> (Retained(c, d, gs, a) <==> Kept(c, d, gs, a))
  {
    CountedSplits(d, c.slots, gs);
  }

  // ----- A calm host -----

  /** Commitments do not rise, and neither does the part of them that is not yet resident. */
  predicate Eased(d: Promises, v: Vm, g: Guest, g': Guest) {
    var c, c' := ClaimOf(d, v, g), ClaimOf(d, v, g');
    c'.bytes <= c.bytes && c'.bytes - c'.pve <= c.bytes - c.pve && c'.bytes - c'.rss <= c.bytes - c.rss
  }

  /** Slots whose balloon the host leaves where it is, and slots that were just told to shut down. */
  datatype Leeway = Leeway(held: set<Vm>, falling: set<Vm>)

  const NO_LEEWAY := Leeway({}, {})

  /** A guest may shut down once its run is recorded as running, or when it was told to. */
  predicate MayFall(d: Promises, w: Leeway, v: Vm) {
    v !in w.held && ((v in d.runs && d.runs[v].phase == Running) || v in w.falling)
  }

  /** How one guest of a calm host may change: it goes down for good, or its balloon shrinks and memory becomes
      resident; a held guest that is up keeps its commitment. */
  predicate Moves(d: Promises, w: Leeway, v: Vm, g: Guest, g': Guest) {
    && (g'.boot.Some? ==> Measured(g'.telemetry))
    && (g.boot.None? && v in d.runs && d.runs[v].phase == Running ==> g'.boot.None?)
    && if g.boot.Some? && g'.boot.None? then g'.pending == multiset{} && MayFall(d, w, v)
       else Eased(d, v, g, g')
            && (v in w.held && g.boot.Some? ==> ClaimOf(d, v, g').bytes == ClaimOf(d, v, g).bytes)
  }

  predicate AllMove(d: Promises, w: Leeway, slots: seq<Vm>, gs: map<Vm, Guest>, gs': map<Vm, Guest>) {
    gs'.Keys == gs.Keys && forall v <- slots :: v in gs ==> Moves(d, w, v, gs[v], gs'[v])
  }

  /** Availability falls by no more than the whole MiB by which the owed total fell. */
  predicate Paid(d: Promises, slots: seq<Vm>, gs: map<Vm, Guest>, a: int, gs': map<Vm, Guest>, a': int) {
    a - a' <= Owed(d, slots, gs, None) - Owed(d, slots, gs', None)
  }

  predicate Calm(d: Promises, w: Leeway, slots: seq<Vm>, gs: map<Vm, Guest>, a: int, gs': map<Vm, Guest>, a': int) {
    AllMove(d, w, slots, gs, gs') && Paid(d, slots, gs, a, gs', a')
  }

  lemma MovesOn(d: Promises, w: Leeway, v: Vm, g: Guest, g': Guest, g'': Guest)
    requires Moves(d, w, v, g, g') && Moves(d, w, v, g', g'') && (g'.Quiet() ==> g''.Quiet())
    ensures Moves(d, w, v, g, g'')
  {
  }

  /** A calm step of the guests and the availability of a host that nobody expects anything of. */
  predicate CalmStep(c: Config, d: Promises, gs: map<Vm, Guest>, a: int, gs': map<Vm, Guest>, a': int) {
    GuestsRely(gs, gs') && Calm(d, NO_LEEWAY, c.slots, gs, a, gs', a')
  }

  lemma CalmStepsOn(
    c: Config, d: Promises, gs: map<Vm, Guest>, a: int, gs': map<Vm, Guest>, a': int, gs'': map<Vm, Guest>, a'': int)
    requires CalmStep(c, d, gs, a, gs', a') && CalmStep(c, d, gs', a', gs'', a'')
    ensures CalmStep(c, d, gs, a, gs'', a'')
  {
    hide Eased, Owed;
    forall v | v in c.slots && v in gs
      ensures Moves(d, NO_LEEWAY, v, gs[v], gs''[v])
    {
      MovesOn(d, NO_LEEWAY, v, gs[v], gs'[v], gs''[v]);
    }
  }

  predicate SkipIsOff(gs: map<Vm, Guest>, skip: Option<Vm>) {
    skip.Some? && skip.value in gs ==> gs[skip.value].boot.None?
  }

  /** Unless a guest is being shut down, a calm host never adds to what is owed. */
  lemma {:induction false} OwedFalls(
    d: Promises, w: Leeway, slots: seq<Vm>, gs: map<Vm, Guest>, gs': map<Vm, Guest>, skip: Option<Vm>)
    requires AllMove(d, w, slots, gs, gs') && w.falling == {}
    requires SkipIsOff(gs, skip) && SkipIsOff(gs', skip)
    ensures Owed(d, slots, gs', skip) <= Owed(d, slots, gs, skip)
  {
    if slots != [] {
      var v := slots[|slots| - 1];
      OwedFalls(d, w, slots[..|slots| - 1], gs, gs', skip);
      assert v in slots;
    }
  }

  /** How the owed total moves when the records or the guest of one slot change. */
  lemma {:induction false} OwedElsewhere(
    d: Promises, d': Promises, slots: seq<Vm>, gs: map<Vm, Guest>, gs': map<Vm, Guest>,
    skip: Option<Vm>, skip': Option<Vm>, v: Vm)
    requires forall u <- slots :: u != v ==> OutstandingAt(d', gs', skip', u) == OutstandingAt(d, gs, skip, u)
    requires forall i, j | 0 <= i < j < |slots| :: slots[i] != slots[j]
    ensures v !in slots ==> Owed(d', slots, gs', skip') == Owed(d, slots, gs, skip)
    ensures v in slots ==>
              Owed(d', slots, gs', skip') - OutstandingAt(d', gs', skip', v)
              == Owed(d, slots, gs, skip) - OutstandingAt(d, gs, skip, v)
  {
    if slots != [] {
      OwedElsewhere(d, d', slots[..|slots| - 1], gs, gs', skip, skip', v);
    }
  }

  lemma {:induction false} CountedElsewhere(
    d: Promises, d': Promises, slots: seq<Vm>, gs: map<Vm, Guest>, gs': map<Vm, Guest>, v: Vm)
    requires forall u <- slots :: u != v ==> CountedAt(d', gs', u) == CountedAt(d, gs, u)
    requires forall i, j | 0 <= i < j < |slots| :: slots[i] != slots[j]
    ensures v in slots ==>
              Counted(d', slots, gs') - CountedAt(d', gs', v) == Counted(d, slots, gs) - CountedAt(d, gs, v)
    ensures v !in slots ==> Counted(d', slots, gs') == Counted(d, slots, gs)
  {
    if slots != [] {
      CountedElsewhere(d, d', slots[..|slots| - 1], gs, gs', v);
    }
  }

  lemma {:induction false} ActiveElsewhere(
    d: Promises, d': Promises, slots: seq<Vm>, gs: map<Vm, Guest>, gs': map<Vm, Guest>,
    skip: Option<Vm>, skip': Option<Vm>, v: Vm)
    requires forall u <- slots :: u != v ==> ActiveAt(d', gs', skip', u) == ActiveAt(d, gs, skip, u)
    requires forall i, j | 0 <= i < j < |slots| :: slots[i] != slots[j]
    ensures v !in slots ==> Active(d', slots, gs', skip') == Active(d, slots, gs, skip)
    ensures v in slots ==>
              Active(d', slots, gs', skip') - ActiveAt(d', gs', skip', v)
              == Active(d, slots, gs, skip) - ActiveAt(d, gs, skip, v)
  {
    if slots != [] {
      ActiveElsewhere(d, d', slots[..|slots| - 1], gs, gs', skip, skip', v);
    }
  }

  /** On a calm host, availability minus the owed total never falls. */
  lemma HeadroomHolds(
    d: Promises, slots: seq<Vm>, gs: map<Vm, Guest>, a: int, gs': map<Vm, Guest>, a': int, skip: Option<Vm>)
    requires forall i, j | 0 <= i < j < |slots| :: slots[i] != slots[j]
    requires gs'.Keys == gs.Keys && Paid(d, slots, gs, a, gs', a')
    requires SkipIsOff(gs, skip) && SkipIsOff(gs', skip)
    ensures a' - Owed(d, slots, gs', skip) >= a - Owed(d, slots, gs, skip)
  {
    if skip.Some? {
      var v := skip.value;
      OwedElsewhere(d, d, slots, gs, gs, None, skip, v);
      OwedElsewhere(d, d, slots, gs', gs', None, skip, v);
    } else {
      assert skip == None;
    }
  }

  /** Every guest that is up is promised, so the count of active slots depends on the records alone. */
  lemma {:induction false} ActiveSame(
    leases: map<Vm, Lease>, d: Promises, slots: seq<Vm>, gs: map<Vm, Guest>, gs': map<Vm, Guest>, skip: Option<Vm>)
    requires gs'.Keys == gs.Keys
    requires BootSafe(leases, d.runs, gs) && BootSafe(leases, d.runs, gs')
    requires SkipIsOff(gs, skip) && SkipIsOff(gs', skip)
    ensures Active(d, slots, gs', skip) == Active(d, slots, gs, skip)
  {
    if slots != [] {
      ActiveSame(leases, d, slots[..|slots| - 1], gs, gs', skip);
    }
  }

  /** What the host could afford it can still afford after it moved on. */
  lemma AffordsLater(
    c: Config, leases: map<Vm, Lease>, d: Promises, gs: map<Vm, Guest>, a: int, gs': map<Vm, Guest>, a': int,
    growth: nat)
    requires forall i, j | 0 <= i < j < |c.slots| :: c.slots[i] != c.slots[j]
    requires gs'.Keys == gs.Keys && Paid(d, c.slots, gs, a, gs', a')
    requires BootSafe(leases, d.runs, gs) && BootSafe(leases, d.runs, gs')
    ensures Affords(c, d, gs, a, growth) ==> Affords(c, d, gs', a', growth)
  {
    HeadroomHolds(d, c.slots, gs, a, gs', a', None);
    ActiveSame(leases, d, c.slots, gs, gs', None);
  }

  // ----- The commands that take on memory -----

  /** The records that `start` saves before it issues `qm start`. */
  function StartRecords(d: Promises, v: Vm, run: Run, memoryMib: nat): Promises {
    d.(runs := d.runs[v := run], requests := d.requests[v := memoryMib])
  }

  /** A start admitted with the full launch memory leaves the headroom intact. */
  lemma AdmittedStartKeeps(c: Config, d: Promises, gs: map<Vm, Guest>, a: int, v: Vm, run: Run, memoryMib: nat)
    requires forall i, j | 0 <= i < j < |c.slots| :: c.slots[i] != c.slots[j]
    requires v in gs && gs[v].boot.None?
    requires run.phase == Starting && run.startupMib == BOOT_MEMORY_MIB && memoryMib <= BOOT_MEMORY_MIB
    requires a - BOOT_MEMORY_MIB - MARGIN_MIB - Owed(d, c.slots, gs, Some(v)) >= c.reserveMib + GUARD_MIB
    requires Active(d, c.slots, gs, Some(v)) < c.maxActive
    ensures Kept(c, StartRecords(d, v, run, memoryMib), gs, a)
  {
    var d' := StartRecords(d, v, run, memoryMib);
    OwedElsewhere(d, d', c.slots, gs, gs, Some(v), None, v);
    ActiveElsewhere(d, d', c.slots, gs, gs, Some(v), None, v);
    CeilMibWhole(BOOT_MEMORY_MIB);
  }

  /** Once the start returned, the launch envelope may be given back. */
  lemma RunningReleasesEnvelope(c: Config, d: Promises, gs: map<Vm, Guest>, a: int, v: Vm)
    requires forall i, j | 0 <= i < j < |c.slots| :: c.slots[i] != c.slots[j]
    requires v in d.runs && d.runs[v].phase in {Starting, Running}
    requires Kept(c, d, gs, a)
    ensures Kept(c, d.(runs := d.runs[v := d.runs[v].(phase := Running)]), gs, a)
  {
    var d' := d.(runs := d.runs[v := d.runs[v].(phase := Running)]);
    OwedElsewhere(d, d', c.slots, gs, gs, None, None, v);
    ActiveElsewhere(d, d', c.slots, gs, gs, None, None, v);
    RunningOwesLess(d, gs, v);
  }

  lemma RunningOwesLess(d: Promises, gs: map<Vm, Guest>, v: Vm)
    requires v in d.runs && d.runs[v].phase in {Starting, Running}
    ensures var d' := d.(runs := d.runs[v := d.runs[v].(phase := Running)]);
            && OutstandingAt(d', gs, None, v) <= OutstandingAt(d, gs, None, v)
            && ActiveAt(d', gs, None, v) == ActiveAt(d, gs, None, v)
  {
  }

  function CurrentTarget(d: Promises, v: Vm, t: Telemetry): int
    requires t.balloon.Some?
  {
    Max(Max(t.balloon.value / MIB, t.balloonMin / MIB), Target(d, v))
  }

  /** What the records alone promise a guest that is up, in bytes; its commitment never falls below this. */
  function FloorBytes(d: Promises, v: Vm): int {
    var starting := v in d.runs && d.runs[v].phase == Starting;
    Max(1, Max(Target(d, v), if starting then Startup(d, v) else 0) * MIB)
  }

  function Retarget(d: Promises, v: Vm, memoryMib: nat): Promises {
    d.(requests := d.requests[v := memoryMib])
  }

  /** The growth that a resize asks for when it finds the slot as `t` reports it. */
  function GrowthOver(d: Promises, v: Vm, t: Telemetry, memoryMib: nat): nat
    requires t.balloon.Some?
  {
    Max(0, memoryMib - CurrentTarget(d, v, t))
  }

  /** The new target costs at most `growth` MiB on the guest as it is. */
  predicate CostsAtMost(d: Promises, v: Vm, g: Guest, memoryMib: nat, growth: nat) {
    ClaimOf(Retarget(d, v, memoryMib), v, g).Outstanding() <= ClaimOf(d, v, g).Outstanding() + growth
  }

  /** A target costs at most what it lies above the commitment. */
  lemma GrowthCost(d: Promises, v: Vm, g: Guest, memoryMib: nat, growth: nat)
    requires g.boot.Some? && Measured(g.telemetry)
    requires memoryMib * MIB <= Committed(d, v, g.telemetry) + growth * MIB
    ensures CostsAtMost(d, v, g, memoryMib, growth)
  {
  }

  /** Whatever the balloon does, a target costs at most what it lies above the floor. */
  lemma FloorCost(d: Promises, v: Vm, g: Guest, memoryMib: nat)
    requires g.boot.Some? && Measured(g.telemetry)
    ensures CostsAtMost(d, v, g, memoryMib, CeilMib(memoryMib * MIB - FloorBytes(d, v)))
  {
    GrowthCost(d, v, g, memoryMib, CeilMib(memoryMib * MIB - FloorBytes(d, v)));
  }

  /** A new target is nobody else's business. */
  lemma RetargetElsewhere(d: Promises, gs: map<Vm, Guest>, v: Vm, memoryMib: nat, u: Vm)
    requires u != v
    ensures var d' := Retarget(d, v, memoryMib);
            && OutstandingAt(d', gs, None, u) == OutstandingAt(d, gs, None, u)
            && CountedAt(d', gs, u) == CountedAt(d, gs, u) && ActiveAt(d', gs, None, u) == ActiveAt(d, gs, None, u)
  {
  }

  lemma RetargetTotals(d: Promises, slots: seq<Vm>, gs: map<Vm, Guest>, v: Vm, memoryMib: nat)
    requires forall i, j | 0 <= i < j < |slots| :: slots[i] != slots[j]
    ensures var d' := Retarget(d, v, memoryMib);
            && Owed(d', slots, gs, None) - Owed(d, slots, gs, None)
               == (if v in slots then OutstandingAt(d', gs, None, v) - OutstandingAt(d, gs, None, v) else 0)
            && Counted(d', slots, gs) - Counted(d, slots, gs)
               == (if v in slots then CountedAt(d', gs, v) - CountedAt(d, gs, v) else 0)
            && Active(d', slots, gs, None) - Active(d, slots, gs, None)
               == (if v in slots then ActiveAt(d', gs, None, v) - ActiveAt(d, gs, None, v) else 0)
  {
    hide OutstandingAt, CountedAt, ActiveAt, Owed, Counted, Active;
    var d' := Retarget(d, v, memoryMib);
    forall u | u in slots && u != v
      ensures OutstandingAt(d', gs, None, u) == OutstandingAt(d, gs, None, u)
      ensures CountedAt(d', gs, u) == CountedAt(d, gs, u) && ActiveAt(d', gs, None, u) == ActiveAt(d, gs, None, u)
    {
      RetargetElsewhere(d, gs, v, memoryMib, u);
    }
    OwedElsewhere(d, d', slots, gs, gs, None, None, v);
    CountedElsewhere(d, d', slots, gs, gs, v);
    ActiveElsewhere(d, d', slots, gs, gs, None, None, v);
  }

  /** A new target keeps the headroom if the host affords what it costs. */
  lemma AffordedTargetKeeps(c: Config, d: Promises, gs: map<Vm, Guest>, a: int, v: Vm, memoryMib: nat, growth: nat)
    requires forall i, j | 0 <= i < j < |c.slots| :: c.slots[i] != c.slots[j]
    requires v in gs && (gs[v].boot.Some? || Lost(d, gs, v))
    requires gs[v].boot.Some? ==> CostsAtMost(d, v, gs[v], memoryMib, growth)
    requires Affords(c, d, gs, a, growth)
    ensures Kept(c, Retarget(d, v, memoryMib), gs, a)
  {
    hide Owed, Active, ClaimOf;
    RetargetTotals(d, c.slots, gs, v, memoryMib);
  }

  /** Forgetting the promises of a stopped slot only frees memory. */
  lemma QuietSlotFreesMemory(c: Config, d: Promises, gs: map<Vm, Guest>, a: int, v: Vm, d': Promises)
    requires forall i, j | 0 <= i < j < |c.slots| :: c.slots[i] != c.slots[j]
    requires v in gs && gs[v].boot.None? && !Promised(d', v)
    requires d'.runs - {v} == d.runs - {v} && d'.requests - {v} == d.requests - {v}
    ensures Kept(c, d, gs, a) ==> Kept(c, d', gs, a)
  {
    forall u | u != v
      ensures OutstandingAt(d', gs, None, u) == OutstandingAt(d, gs, None, u)
      ensures ActiveAt(d', gs, None, u) == ActiveAt(d, gs, None, u)
    {
      OtherPromises(d, d', v, u);
    }
    OwedElsewhere(d, d', c.slots, gs, gs, None, None, v);
    ActiveElsewhere(d, d', c.slots, gs, gs, None, None, v);
  }

  lemma OtherPromises(d: Promises, d': Promises, v: Vm, u: Vm)
    requires u != v && d'.runs - {v} == d.runs - {v} && d'.requests - {v} == d.requests - {v}
    ensures (u in d'.runs <==> u in d.runs) && (u in d.runs ==> d'.runs[u] == d.runs[u])
    ensures (u in d'.requests <==> u in d.requests) && (u in d.requests ==> d'.requests[u] == d.requests[u])
  {
    assert u in d.runs ==> u in d.runs - {v} && (d.runs - {v})[u] == d.runs[u];
    assert u in d'.runs ==> u in d'.runs - {v} && (d'.runs - {v})[u] == d'.runs[u];
    assert u in d.requests ==> u in d.requests - {v} && (d.requests - {v})[u] == d.requests[u];
    assert u in d'.requests ==> u in d'.requests - {v} && (d'.requests - {v})[u] == d'.requests[u];
  }

  /** A start on its way owes no more than the promise it was issued for. */
  lemma AcceptedOwesSame(c: Config, d: Promises, gs: map<Vm, Guest>, a: int, v: Vm, pending: multiset<Boot>)
    requires forall i, j | 0 <= i < j < |c.slots| :: c.slots[i] != c.slots[j]
    requires v in gs
    ensures Kept(c, d, gs, a) ==> Kept(c, d, gs[v := gs[v].(pending := pending)], a)
  {
    var gs' := gs[v := gs[v].(pending := pending)];
    OwedElsewhere(d, d, c.slots, gs, gs', None, None, v);
    ActiveElsewhere(d, d, c.slots, gs, gs', None, None, v);
  }

  lemma OffSlotTarget(c: Config, d: Promises, gs: map<Vm, Guest>, a: int, v: Vm, memoryMib: nat)
    requires v !in c.slots && forall i, j | 0 <= i < j < |c.slots| :: c.slots[i] != c.slots[j]
    ensures Kept(c, Retarget(d, v, memoryMib), gs, a) == Kept(c, d, gs, a)
  {
    hide Owed, Active;
    RetargetTotals(d, c.slots, gs, v, memoryMib);
  }
}
