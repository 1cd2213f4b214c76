/** Exactly when a new target, a guard sample and a guest that goes down leave the lab its headroom. */
module LabLimits {
  import opened Wrappers
  import opened Shared
  import opened LabState
  import opened LabBoot
  import opened LabMemory

  // ----- When a new target keeps the headroom -----

  /** No more is resident than the guest has committed. */
  predicate Resident(d: Promises, v: Vm, g: Guest) {
    var c := ClaimOf(d, v, g);
    Min(c.pve, c.rss) <= c.bytes
  }

  /** On the host as it is, a target at or above a whole-MiB commitment costs exactly the difference: headroom and
      retention hold afterwards if and only if the host affords it. */
  lemma TargetCost(
    c: Config, d: Promises, gs: map<Vm, Guest>, a: int, v: Vm, memoryMib: nat, committedMib: nat)
    requires forall i, j | 0 <= i < j < |c.slots| :: c.slots[i] != c.slots[j]
    requires v in c.slots && v in gs && gs[v].boot.Some? && Measured(gs[v].telemetry)
    requires Committed(d, v, gs[v].telemetry) == committedMib * MIB && committedMib <= memoryMib
    requires Resident(d, v, gs[v])
    ensures var d', growth := Retarget(d, v, memoryMib), memoryMib - committedMib;
            && (Kept(c, d', gs, a) <==> Affords(c, d, gs, a, growth))
            && (Retained(c, d', gs, a) <==> Retained(c, d, gs, a - growth))
  {
    hide Owed, Active, Counted, ClaimOf, Committed;
    RetargetTotals(d, c.slots, gs, v, memoryMib);
    WholeCost(d, v, gs[v], memoryMib, committedMib);
  }

  lemma WholeCost(d: Promises, v: Vm, g: Guest, memoryMib: nat, committedMib: nat)
    requires g.boot.Some? && Measured(g.telemetry)
    requires Committed(d, v, g.telemetry) == committedMib * MIB && committedMib <= memoryMib
    requires Resident(d, v, g)
    ensures ClaimOf(Retarget(d, v, memoryMib), v, g).Outstanding()
            == ClaimOf(d, v, g).Outstanding() + memoryMib - committedMib
  {
  }

  /** How many bytes are resident beyond the commitment. */
  function Excess(d: Promises, v: Vm, g: Guest): int {
    var c := ClaimOf(d, v, g);
    Max(0, Min(c.pve, c.rss) - c.bytes)
  }

  /** What a target can cost at most on any host that this one may calmly turn into. */
  function WorstGrowth(d: Promises, v: Vm, g: Guest, memoryMib: nat): nat {
    CeilMib(memoryMib * MIB - FloorBytes(d, v) - Excess(d, v, g))
  }

  /** The growth that a resize asks for at least, wherever a calm host moves before the slot is read. */
  function LeastGrowth(d: Promises, v: Vm, g: Guest, memoryMib: nat): nat {
    Max(0, memoryMib - ClaimOf(d, v, g).bytes / MIB)
  }

  /** The host affords the worst cost of the target now. */
  predicate Foreseen(c: Config, d: Promises, gs: map<Vm, Guest>, a: int, v: Vm, memoryMib: nat) {
    v in gs && Affords(c, d, gs, a, WorstGrowth(d, v, gs[v], memoryMib))
  }

  /** Any growth that the resize may ask for covers the worst cost of the target; it cannot ask for any if the slot is
      not one of ours or no guest of it can be up. */
  predicate Anchored(c: Config, d: Promises, gs: map<Vm, Guest>, v: Vm, memoryMib: nat) {
    v in c.slots && v in gs && !gs[v].Quiet() ==>
      WorstGrowth(d, v, gs[v], memoryMib) <= LeastGrowth(d, v, gs[v], memoryMib)
  }

  predicate ResizeFits(c: Config, d: Promises, gs: map<Vm, Guest>, a: int, v: Vm, memoryMib: nat) {
    Foreseen(c, d, gs, a, v, memoryMib) || Anchored(c, d, gs, v, memoryMib)
  }

  /** Claims never rise, so a later reading leaves at least that growth. */
  lemma ReadGrowth(d: Promises, w: Leeway, v: Vm, g: Guest, g': Guest, memoryMib: nat)
    requires Moves(d, w, v, g, g') && g'.boot.Some? && g'.telemetry.balloon.Some?
    ensures LeastGrowth(d, v, g, memoryMib) <= GrowthOver(d, v, g'.telemetry, memoryMib)
  {
    assert CurrentTarget(d, v, g'.telemetry) * MIB <= Committed(d, v, g'.telemetry);
  }

  /** Easing takes no residency back, so the worst case stays the worst case. */
  lemma WorstCovers(d: Promises, w: Leeway, v: Vm, g: Guest, g': Guest, memoryMib: nat)
    requires g'.boot.Some? && Moves(d, w, v, g, g')
    ensures CostsAtMost(d, v, g', memoryMib, WorstGrowth(d, v, g, memoryMib))
  {
    var c, c', n := ClaimOf(d, v, g), ClaimOf(d, v, g'), memoryMib * MIB;
    assert ClaimOf(Retarget(d, v, memoryMib), v, g').bytes <= Max(c'.bytes, n);
    if Excess(d, v, g) == 0 {
      FloorCost(d, v, g', memoryMib);
    }
  }

  lemma CostsMore(d: Promises, v: Vm, g: Guest, memoryMib: nat, growth: nat, growth': nat)
    requires CostsAtMost(d, v, g, memoryMib, growth) && growth <= growth'
    ensures CostsAtMost(d, v, g, memoryMib, growth')
  {
  }

  /** A growth that covers the worst cost, afforded on the way, keeps the headroom when the target is saved. */
  lemma WorstAffordedKeeps(
    c: Config, leases: map<Vm, Lease>, d: Promises, w: Leeway, g: Guest, gs: map<Vm, Guest>, a: int,
    gs': map<Vm, Guest>, a': int, v: Vm, memoryMib: nat, growth: nat)
    requires forall i, j | 0 <= i < j < |c.slots| :: c.slots[i] != c.slots[j]
    requires BootSafe(leases, d.runs, gs) && BootSafe(leases, d.runs, gs')
    requires gs'.Keys == gs.Keys && Paid(d, c.slots, gs, a, gs', a')
    requires v in gs' && Moves(d, w, v, g, gs'[v]) && (gs'[v].boot.Some? || Lost(d, gs', v))
    requires WorstGrowth(d, v, g, memoryMib) <= growth && Affords(c, d, gs, a, growth)
    ensures Kept(c, Retarget(d, v, memoryMib), gs', a')
  {
    hide WorstGrowth, CostsAtMost, BootSafe, Moves, Affords, Owed;
    AffordsLater(c, leases, d, gs, a, gs', a', growth);
    if gs'[v].boot.Some? {
      WorstCovers(d, w, v, g, gs'[v], memoryMib);
      CostsMore(d, v, gs'[v], memoryMib, WorstGrowth(d, v, g, memoryMib), growth);
    }
    AffordedTargetKeeps(c, d, gs', a', v, memoryMib, growth);
  }

  /** A guest that does not change moves as a calm host may. */
  lemma StaysPut(d: Promises, w: Leeway, v: Vm, g: Guest)
    requires g.boot.Some? ==> Measured(g.telemetry)
    ensures Moves(d, w, v, g, g)
  {
  }

  /** A resize as it is carried out: the slot is read at `gs1`, the growth over that reading is admitted at `gs2`, and
      the target is saved at `gs3`. */
  predicate Resized(
    c: Config, d: Promises, v: Vm, memoryMib: nat, gs: map<Vm, Guest>, a: int, gs1: map<Vm, Guest>, a1: int,
    gs2: map<Vm, Guest>, a2: int, gs3: map<Vm, Guest>, a3: int)
  {
    && CalmStep(c, d, gs, a, gs1, a1) && CalmStep(c, d, gs1, a1, gs2, a2) && CalmStep(c, d, gs2, a2, gs3, a3)
    && v in gs1 && gs1[v].boot.Some? && gs1[v].telemetry.balloon.Some?
    && Affords(c, d, gs2, a2, GrowthOver(d, v, gs1[v].telemetry, memoryMib))
  }

  /** Every resize that the code admits keeps the headroom, wherever a calm host moves in between, if and only if the
      host fitted the target before the call. */
  lemma ResizeKeepsIff(
    c: Config, leases: map<Vm, Lease>, d: Promises, gs: map<Vm, Guest>, a: int, v: Vm, memoryMib: nat)
    requires forall i, j | 0 <= i < j < |c.slots| :: c.slots[i] != c.slots[j]
    requires BootSafe(leases, d.runs, gs) && v in c.slots && v in gs && !gs[v].Quiet()
    requires forall u <- c.slots :: u in gs && gs[u].boot.Some? ==> Measured(gs[u].telemetry)
    requires Kept(c, d, gs, a)
    ensures (forall gs1, a1, gs2, a2, gs3, a3 | Resized(c, d, v, memoryMib, gs, a, gs1, a1, gs2, a2, gs3, a3) ::
               Kept(c, Retarget(d, v, memoryMib), gs3, a3))
            <==> ResizeFits(c, d, gs, a, v, memoryMib)
  {
    hide BootSafe, Affords, Resized, ResizeFits;
    if ResizeFits(c, d, gs, a, v, memoryMib) {
      forall gs1, a1, gs2, a2, gs3, a3 | Resized(c, d, v, memoryMib, gs, a, gs1, a1, gs2, a2, gs3, a3)
        ensures Kept(c, Retarget(d, v, memoryMib), gs3, a3)
      {
        FittingResizeKeeps(c, leases, d, gs, a, gs1, a1, gs2, a2, gs3, a3, v, memoryMib);
      }
    } else {
      var gs1, gs2, a2 := ShrinkingLoses(c, leases, d, gs, a, v, memoryMib);
      assert Resized(c, d, v, memoryMib, gs, a, gs1, a, gs2, a2, gs2, a2);
    }
  }

  lemma FittingResizeKeeps(
    c: Config, leases: map<Vm, Lease>, d: Promises, gs: map<Vm, Guest>, a: int, gs1: map<Vm, Guest>, a1: int,
    gs2: map<Vm, Guest>, a2: int, gs3: map<Vm, Guest>, a3: int, v: Vm, memoryMib: nat)
    requires forall i, j | 0 <= i < j < |c.slots| :: c.slots[i] != c.slots[j]
    requires BootSafe(leases, d.runs, gs) && v in c.slots && v in gs && ResizeFits(c, d, gs, a, v, memoryMib)
    requires Resized(c, d, v, memoryMib, gs, a, gs1, a1, gs2, a2, gs3, a3)
    ensures Kept(c, Retarget(d, v, memoryMib), gs3, a3)
  {
    hide WorstGrowth, LeastGrowth, Affords, Moves, BootSafe, GrowthOver;
    var worst := WorstGrowth(d, v, gs[v], memoryMib);
    CalmStepsOn(c, d, gs, a, gs1, a1, gs2, a2);
    CalmStepsOn(c, d, gs1, a1, gs2, a2, gs3, a3);
    CalmStepsOn(c, d, gs, a, gs2, a2, gs3, a3);
    BootSafeRely(leases, d.runs, gs, gs2);
    BootSafeRely(leases, d.runs, gs2, gs3);
    UpOrLost(d, gs1, gs3, v);
    assert Moves(d, NO_LEEWAY, v, gs[v], gs3[v]) && Moves(d, NO_LEEWAY, v, gs[v], gs1[v]);
    if Affords(c, d, gs, a, worst) {
      AffordsLater(c, leases, d, gs, a, gs2, a2, worst);
      WorstAffordedKeeps(c, leases, d, NO_LEEWAY, gs[v], gs2, a2, gs3, a3, v, memoryMib, worst);
    } else {
      ReadGrowth(d, NO_LEEWAY, v, gs[v], gs1[v], memoryMib);
      WorstAffordedKeeps(c, leases, d, NO_LEEWAY, gs[v], gs2, a2, gs3, a3, v, memoryMib,
                         GrowthOver(d, v, gs1[v].telemetry, memoryMib));
    }
  }

  /** A guest that was up is up or lost. */
  lemma UpOrLost(d: Promises, gs: map<Vm, Guest>, gs': map<Vm, Guest>, v: Vm)
    requires v in gs && v in gs' && gs[v].boot.Some? && Moves(d, NO_LEEWAY, v, gs[v], gs'[v])
    ensures gs'[v].boot.Some? || Lost(d, gs', v)
  {
  }

  // A resize that does not fit: the slot is read with its whole claim as its balloon, and shrinks right after.

  /** The guest as large as it is claimed to be; a start on its way has landed. */
  ghost function AtReading(d: Promises, v: Vm, g: Guest): Guest
    requires !g.Quiet() && (g.boot.Some? ==> Measured(g.telemetry))
  {
    var bytes := ClaimOf(d, v, g).bytes;
    if g.boot.Some? then
      g.(telemetry := Telemetry(Some(bytes), None, 0, g.telemetry.memhost, g.telemetry.rss))
    else
      var b :| b in g.pending;
      Guest(multiset{}, Some(b), Telemetry(Some(bytes), None, 0, Some(0), Some(0)))
  }

  lemma AtReadingMoves(leases: map<Vm, Lease>, d: Promises, gs: map<Vm, Guest>, v: Vm, memoryMib: nat)
    requires BootSafe(leases, d.runs, gs) && v in gs && !gs[v].Quiet() && ClaimOf(d, v, gs[v]).bytes > 0
    requires gs[v].boot.Some? ==> Measured(gs[v].telemetry)
    ensures var g, g' := gs[v], AtReading(d, v, gs[v]);
            && GuestRely(g, g') && Moves(d, NO_LEEWAY, v, g, g') && g'.boot.Some? && g'.telemetry.balloon.Some?
            && ClaimOf(d, v, g') == ClaimOf(d, v, g)
            && GrowthOver(d, v, g'.telemetry, memoryMib) == LeastGrowth(d, v, g, memoryMib)
  {
    var g := gs[v];
    assert BootSafeAt(Get(leases, v), Get(d.runs, v), g);
  }

  /** The same guest with its balloon down at the floor and all of it resident. */
  function Shrunk(d: Promises, v: Vm, g: Guest): Guest
    requires g.boot.Some? && Measured(g.telemetry)
  {
    var c, floor := ClaimOf(d, v, g), FloorBytes(d, v);
    g.(telemetry := Telemetry(Some(floor), None, 0, Some(floor + Max(0, c.pve - c.bytes)),
                              Some(floor + Max(0, c.rss - c.bytes))))
  }

  lemma ShrunkMoves(d: Promises, v: Vm, g: Guest, memoryMib: nat)
    requires g.boot.Some? && Measured(g.telemetry)
    ensures GuestRely(g, Shrunk(d, v, g)) && Moves(d, NO_LEEWAY, v, g, Shrunk(d, v, g))
    ensures Shrunk(d, v, g).boot == g.boot
    ensures ClaimOf(d, v, Shrunk(d, v, g)).Outstanding() == 0
    ensures ClaimOf(Retarget(d, v, memoryMib), v, Shrunk(d, v, g)).Outstanding() == WorstGrowth(d, v, g, memoryMib)
  {
  }

  lemma OneGuestSteps(c: Config, d: Promises, gs: map<Vm, Guest>, a: int, v: Vm, g: Guest, a': int)
    requires v in gs && GuestRely(gs[v], g) && Moves(d, NO_LEEWAY, v, gs[v], g)
    requires forall u <- c.slots :: u in gs && gs[u].boot.Some? ==> Measured(gs[u].telemetry)
    requires Paid(d, c.slots, gs, a, gs[v := g], a')
    ensures CalmStep(c, d, gs, a, gs[v := g], a')
  {
    hide Moves, Owed;
    forall u | u in c.slots && u in gs
      ensures Moves(d, NO_LEEWAY, u, gs[u], gs[v := g][u])
    {
      if u != v {
        StaysPut(d, NO_LEEWAY, u, gs[u]);
      }
    }
  }

  lemma ClaimsNothing(leases: map<Vm, Lease>, d: Promises, gs: map<Vm, Guest>, v: Vm, memoryMib: nat)
    requires BootSafe(leases, d.runs, gs) && v in gs && !gs[v].Quiet() && ClaimOf(d, v, gs[v]).bytes <= 0
    requires gs[v].boot.Some? ==> Measured(gs[v].telemetry)
    ensures WorstGrowth(d, v, gs[v], memoryMib) <= LeastGrowth(d, v, gs[v], memoryMib)
  {
  }

  lemma ShrinkingLoses(
    c: Config, leases: map<Vm, Lease>, d: Promises, gs: map<Vm, Guest>, a: int, v: Vm, memoryMib: nat)
    returns (gs1: map<Vm, Guest>, gs2: map<Vm, Guest>, a2: int)
    requires forall i, j | 0 <= i < j < |c.slots| :: c.slots[i] != c.slots[j]
    requires BootSafe(leases, d.runs, gs) && v in c.slots && v in gs && !gs[v].Quiet()
    requires forall u <- c.slots :: u in gs && gs[u].boot.Some? ==> Measured(gs[u].telemetry)
    requires Kept(c, d, gs, a) && !ResizeFits(c, d, gs, a, v, memoryMib)
    ensures Resized(c, d, v, memoryMib, gs, a, gs1, a, gs2, a2, gs2, a2)
    ensures !Kept(c, Retarget(d, v, memoryMib), gs2, a2)
  {
    hide BootSafe, WorstGrowth, LeastGrowth, Shrunk, GrowthOver, Owed, Active, CalmStep;
    if ClaimOf(d, v, gs[v]).bytes <= 0 {
      ClaimsNothing(leases, d, gs, v, memoryMib);
    }
    gs1 := ReadAtClaim(c, leases, d, gs, a, v, memoryMib);
    gs2 := gs1[v := Shrunk(d, v, gs1[v])];
    var least := LeastGrowth(d, v, gs[v], memoryMib);
    a2 := Owed(d, c.slots, gs2, None)
          + Max(a - Owed(d, c.slots, gs, None), c.reserveMib + GUARD_MIB + MARGIN_MIB + least);
    ShrinkStep(c, leases, d, gs1, a, v, memoryMib, a2);
    StandStill(c, d, gs2, a2);
  }

  /** The slot is read with its whole claim as its balloon. */
  lemma ReadAtClaim(
    c: Config, leases: map<Vm, Lease>, d: Promises, gs: map<Vm, Guest>, a: int, v: Vm, memoryMib: nat)
    returns (gs1: map<Vm, Guest>)
    requires forall i, j | 0 <= i < j < |c.slots| :: c.slots[i] != c.slots[j]
    requires BootSafe(leases, d.runs, gs) && v in gs && !gs[v].Quiet() && ClaimOf(d, v, gs[v]).bytes > 0
    requires v in c.slots && forall u <- c.slots :: u in gs && gs[u].boot.Some? ==> Measured(gs[u].telemetry)
    ensures CalmStep(c, d, gs, a, gs1, a) && v in gs1 && gs1[v].boot.Some? && gs1[v].telemetry.balloon.Some?
    ensures GrowthOver(d, v, gs1[v].telemetry, memoryMib) == LeastGrowth(d, v, gs[v], memoryMib)
    ensures WorstGrowth(d, v, gs1[v], memoryMib) == WorstGrowth(d, v, gs[v], memoryMib)
    ensures Owed(d, c.slots, gs1, None) == Owed(d, c.slots, gs, None)
    ensures Active(d, c.slots, gs1, None) == Active(d, c.slots, gs, None) && BootSafe(leases, d.runs, gs1)
    ensures forall u <- c.slots :: u in gs1 && gs1[u].boot.Some? ==> Measured(gs1[u].telemetry)
  {
    hide BootSafeAt, OutstandingAt, ActiveAt, WorstGrowth, LeastGrowth, AtReading, GrowthOver, Owed, Active;
    AtReadingMoves(leases, d, gs, v, memoryMib);
    gs1 := gs[v := AtReading(d, v, gs[v])];
    PendingIsNotLost(leases, d, gs, v);
    SameClaimOwes(c, d, gs, v, gs1[v]);
    OneGuestSteps(c, d, gs, a, v, gs1[v], a);
    BootSafeRely(leases, d.runs, gs, gs1);
    ActiveSame(leases, d, c.slots, gs, gs1, None);
    SameWorst(d, v, gs[v], gs1[v], memoryMib);
  }

  lemma PendingIsNotLost(leases: map<Vm, Lease>, d: Promises, gs: map<Vm, Guest>, v: Vm)
    requires BootSafe(leases, d.runs, gs) && v in gs && !gs[v].Quiet()
    ensures !Lost(d, gs, v)
  {
    assert BootSafeAt(Get(leases, v), Get(d.runs, v), gs[v]);
  }

  /** Then its balloon shrinks to the floor: the target now costs its worst. */
  lemma ShrinkStep(
    c: Config, leases: map<Vm, Lease>, d: Promises, gs: map<Vm, Guest>, a: int, v: Vm, memoryMib: nat, a': int)
    requires forall i, j | 0 <= i < j < |c.slots| :: c.slots[i] != c.slots[j]
    requires BootSafe(leases, d.runs, gs) && v in c.slots && v in gs && gs[v].boot.Some?
    requires forall u <- c.slots :: u in gs && gs[u].boot.Some? ==> Measured(gs[u].telemetry)
    requires a - a' <= Owed(d, c.slots, gs, None) - Owed(d, c.slots, gs[v := Shrunk(d, v, gs[v])], None)
    ensures var gs', d' := gs[v := Shrunk(d, v, gs[v])], Retarget(d, v, memoryMib);
            && CalmStep(c, d, gs, a, gs', a') && Active(d, c.slots, gs', None) == Active(d, c.slots, gs, None)
            && Owed(d', c.slots, gs', None) == Owed(d, c.slots, gs', None) + WorstGrowth(d, v, gs[v], memoryMib)
            && (forall u <- c.slots :: u in gs' && gs'[u].boot.Some? ==> Measured(gs'[u].telemetry))
  {
    hide BootSafeAt, OutstandingAt, ActiveAt, WorstGrowth, Shrunk, Owed, Active;
    var gs' := gs[v := Shrunk(d, v, gs[v])];
    ShrunkMoves(d, v, gs[v], memoryMib);
    OneGuestSteps(c, d, gs, a, v, gs'[v], a');
    BootSafeRely(leases, d.runs, gs, gs');
    ActiveSame(leases, d, c.slots, gs, gs', None);
    RetargetCosts(c, d, gs', v, memoryMib, WorstGrowth(d, v, gs[v], memoryMib));
  }

  lemma StandStill(c: Config, d: Promises, gs: map<Vm, Guest>, a: int)
    requires forall v <- c.slots :: v in gs && gs[v].boot.Some? ==> Measured(gs[v].telemetry)
    ensures CalmStep(c, d, gs, a, gs, a)
  {
    hide Moves;
    forall v | v in c.slots && v in gs
      ensures Moves(d, NO_LEEWAY, v, gs[v], gs[v])
    {
      StaysPut(d, NO_LEEWAY, v, gs[v]);
    }
  }

  lemma SameWorst(d: Promises, v: Vm, g: Guest, g': Guest, memoryMib: nat)
    requires ClaimOf(d, v, g') == ClaimOf(d, v, g)
    ensures WorstGrowth(d, v, g', memoryMib) == WorstGrowth(d, v, g, memoryMib)
  {
  }

  lemma SameClaimOwes(c: Config, d: Promises, gs: map<Vm, Guest>, v: Vm, g: Guest)
    requires forall i, j | 0 <= i < j < |c.slots| :: c.slots[i] != c.slots[j]
    requires v in gs && ClaimOf(d, v, g) == ClaimOf(d, v, gs[v]) && !Lost(d, gs, v) && !Lost(d, gs[v := g], v)
    ensures Owed(d, c.slots, gs[v := g], None) == Owed(d, c.slots, gs, None)
  {
    OwedElsewhere(d, d, c.slots, gs, gs[v := g], None, None, v);
  }

  lemma RetargetCosts(c: Config, d: Promises, gs: map<Vm, Guest>, v: Vm, memoryMib: nat, growth: nat)
    requires forall i, j | 0 <= i < j < |c.slots| :: c.slots[i] != c.slots[j]
    requires v in c.slots && v in gs && gs[v].boot.Some?
    requires ClaimOf(Retarget(d, v, memoryMib), v, gs[v]).Outstanding() == ClaimOf(d, v, gs[v]).Outstanding() + growth
    ensures var d' := Retarget(d, v, memoryMib);
            && Owed(d', c.slots, gs, None) == Owed(d, c.slots, gs, None) + growth
            && Active(d', c.slots, gs, None) == Active(d, c.slots, gs, None)
  {
    hide Owed, Active, ClaimOf;
    RetargetTotals(d, c.slots, gs, v, memoryMib);
  }

  // ----- When the guard reports missing headroom -----

  /** What the guests that are up or on their way could still turn into resident memory. */
  function Fluid(d: Promises, slots: seq<Vm>, gs: map<Vm, Guest>): nat {
    if slots == [] then 0
    else
      var v := slots[|slots| - 1];
      Fluid(d, slots[..|slots| - 1], gs) + if v in gs && !gs[v].Quiet() then CountedAt(d, gs, v) else 0
  }

  /** Headroom that no residency during one sample can use up. */
  predicate Spare(c: Config, d: Promises, gs: map<Vm, Guest>, available: int) {
    available - Counted(d, c.slots, gs) - Fluid(d, c.slots, gs) - MARGIN_MIB >= c.reserveMib + GUARD_MIB
  }

  function AllHeld(slots: seq<Vm>): Leeway {
    Leeway(set v <- slots, {})
  }

  /** What is owed falls by no more than what is fluid. */
  lemma {:induction false} FluidBounds(d: Promises, w: Leeway, slots: seq<Vm>, gs: map<Vm, Guest>, gs': map<Vm, Guest>)
    requires GuestsRely(gs, gs') && AllMove(d, w, slots, gs, gs')
    ensures Owed(d, slots, gs, None) - Owed(d, slots, gs', None) <= Fluid(d, slots, gs)
  {
    if slots != [] {
      var v := slots[|slots| - 1];
      FluidBounds(d, w, slots[..|slots| - 1], gs, gs');
      assert v in slots && (v in gs ==> GuestRely(gs[v], gs'[v]));
    }
  }

  /** The guest with its whole commitment resident; a start on its way has landed. */
  ghost function Filled(d: Promises, v: Vm, g: Guest): Guest {
    var bytes := ClaimOf(d, v, g).bytes;
    if g.boot.Some? && Measured(g.telemetry) then
      g.(telemetry := g.telemetry.(
           memhost := Some(Max(g.telemetry.memhost.value, bytes)), rss := Some(Max(g.telemetry.rss.value, bytes))))
    else if g.boot.None? && |g.pending| == 1 && bytes > 0 then
      var b :| b in g.pending;
      Guest(multiset{}, Some(b), Telemetry(Some(1), None, 0, Some(bytes), Some(bytes)))
    else g
  }

  lemma FilledMoves(leases: map<Vm, Lease>, d: Promises, w: Leeway, gs: map<Vm, Guest>, v: Vm)
    requires BootSafe(leases, d.runs, gs) && v in gs && (gs[v].boot.Some? ==> Measured(gs[v].telemetry))
    ensures GuestRely(gs[v], Filled(d, v, gs[v])) && Moves(d, w, v, gs[v], Filled(d, v, gs[v]))
    ensures var gs' := gs[v := Filled(d, v, gs[v])];
            OutstandingAt(d, gs, None, v) - OutstandingAt(d, gs', None, v)
            == if gs[v].Quiet() then 0 else CountedAt(d, gs, v)
  {
    var g := gs[v];
    assert BootSafeAt(Get(leases, v), Get(d.runs, v), g);
    if g.boot.None? && g.pending != multiset{} {
      var b :| b in g.pending;
      assert g.pending == multiset{b} + (g.pending - multiset{b});
      assert |g.pending| == 1;
    }
  }

  ghost function AllFilled(d: Promises, slots: seq<Vm>, gs: map<Vm, Guest>): map<Vm, Guest> {
    map v | v in gs :: if v in slots then Filled(d, v, gs[v]) else gs[v]
  }

  lemma {:induction false} FilledUsesFluid(
    leases: map<Vm, Lease>, d: Promises, all: seq<Vm>, slots: seq<Vm>, gs: map<Vm, Guest>)
    requires BootSafe(leases, d.runs, gs) && forall v <- slots :: v in all
    requires forall v <- slots :: v in gs && gs[v].boot.Some? ==> Measured(gs[v].telemetry)
    ensures Owed(d, slots, gs, None) - Owed(d, slots, AllFilled(d, all, gs), None) == Fluid(d, slots, gs)
  {
    hide BootSafe, Filled;
    if slots != [] {
      var v := slots[|slots| - 1];
      FilledUsesFluid(leases, d, all, slots[..|slots| - 1], gs);
      assert v in slots;
      if v in gs {
        FilledMoves(leases, d, NO_LEEWAY, gs, v);
      }
    }
  }

  /**
   * What the guard may count for a slot at most, wherever a calm host moves while it reads: a running guest may go down
   * before its status is read, and a balloon may shrink between the status and the process size.
   */
  function WorstAt(d: Promises, gs: map<Vm, Guest>, v: Vm): nat {
    if v !in gs then 0
    else if gs[v].boot.None? then CountedAt(d, gs, v)
    else
      var read := if Measured(gs[v].telemetry) then WorstReading(d, v, gs[v]) else 0;
      if v in d.runs && d.runs[v].phase == Running then Max(read, Max(Requested(d, v), Startup(d, v))) else read
  }

  /** The whole commitment, less a process size that was read after the balloon went down to the floor. */
  function WorstReading(d: Promises, v: Vm, g: Guest): nat {
    var c := ClaimOf(d, v, g);
    CeilMib(c.bytes - Min(c.pve, Max(0, c.rss - (c.bytes - FloorBytes(d, v)))))
  }

  function WorstTotal(d: Promises, slots: seq<Vm>, gs: map<Vm, Guest>): nat {
    if slots == [] then 0
    else WorstTotal(d, slots[..|slots| - 1], gs) + WorstAt(d, gs, slots[|slots| - 1])
  }

  /** Headroom that the worst count and all residency during one sample cannot use up. */
  predicate Ample(c: Config, d: Promises, gs: map<Vm, Guest>, available: int) {
    available - WorstTotal(d, c.slots, gs) - Fluid(d, c.slots, gs) - MARGIN_MIB >= c.reserveMib + GUARD_MIB
  }

  /** A guard that reads commitments first and availability last finds enough headroom on every host that holds its
      balloons, if and only if there was headroom to spare when it began. */
  lemma GuardSeesHeadroomIff(c: Config, leases: map<Vm, Lease>, d: Promises, gs: map<Vm, Guest>, a: int)
    requires BootSafe(leases, d.runs, gs)
    requires forall v <- c.slots :: v in gs && gs[v].boot.Some? ==> Measured(gs[v].telemetry)
    ensures (forall gs', a' | GuestsRely(gs, gs') && Calm(d, AllHeld(c.slots), c.slots, gs, a, gs', a') ::
               a' - Counted(d, c.slots, gs) - MARGIN_MIB >= c.reserveMib + GUARD_MIB)
            <==> Spare(c, d, gs, a)
  {
    hide BootSafe, Counted, Fluid, Owed, Filled;
    var w := AllHeld(c.slots);
    forall gs', a' | GuestsRely(gs, gs') && Calm(d, w, c.slots, gs, a, gs', a')
      ensures a - a' <= Fluid(d, c.slots, gs)
    {
      FluidBounds(d, w, c.slots, gs, gs');
    }
    var full := AllFilled(d, c.slots, gs);
    var a' := a - Fluid(d, c.slots, gs);
    FilledUsesFluid(leases, d, c.slots, c.slots, gs);
    forall v | v in gs
      ensures GuestRely(gs[v], full[v]) && (v in c.slots ==> Moves(d, w, v, gs[v], full[v]))
    {
      if v in c.slots {
        FilledMoves(leases, d, w, gs, v);
      }
    }
    assert Calm(d, w, c.slots, gs, a, full, a');
  }

  // ----- When a guest goes down -----

  /** Retention after the guest of a promised slot went down and freed some memory: it holds if and only if the slack
      and the freed memory cover the promise that is charged from now on, less what the guest still owed. */
  lemma DownCost(c: Config, d: Promises, gs: map<Vm, Guest>, a: int, v: Vm, g': Guest, freed: int)
    requires forall i, j | 0 <= i < j < |c.slots| :: c.slots[i] != c.slots[j]
    requires v in c.slots && v in gs && gs[v].boot.Some? && g'.boot.None? && Promised(d, v)
    ensures Retained(c, d, gs[v := g'], a + freed)
            <==> Retained(c, d, gs, a + freed - (Max(Requested(d, v), Startup(d, v)) - CountedAt(d, gs, v)))
  {
    var gs' := gs[v := g'];
    CountedElsewhere(d, d, c.slots, gs, gs', v);
    ActiveElsewhere(d, d, c.slots, gs, gs', None, None, v);
    CeilMibWhole(Max(Requested(d, v), Startup(d, v)));
  }

  // ----- Concrete hosts -----

  function OneSlot(): Config {
    Config([1], 0, 6144, 3, true, 900)
  }

  function GuestAt(balloonMib: nat, residentMib: nat): Guest {
    var resident := Some(residentMib * MIB);
    Guest(multiset{}, Some(Boot(0, "job")),
          Telemetry(Some(balloonMib * MIB), Some(BOOT_MEMORY_MIB * MIB), 0, resident, resident))
  }

  function RunningAt(requestedMib: nat): Promises {
    Promises(map[1 := Run("job", 0, 0, Running, BOOT_MEMORY_MIB)], map[1 := requestedMib])
  }

  /** A balloon that shrinks from 4096 to 2048 MiB between the reading and the decision lets a growth to
      5120 MiB through, although the host then falls short of the retained headroom. */
  lemma ShrinkingBalloonOutrunsResize()
    ensures var c, d, a, v, memoryMib := OneSlot(), RunningAt(2048), 9984, 1, 5120;
            var before, after := map[v := GuestAt(4096, 2048)], map[v := GuestAt(2048, 2048)];
            && Retained(c, d, before, a) && Calm(d, NO_LEEWAY, c.slots, before, a, after, a)
            && Affords(c, d, after, a, memoryMib - CurrentTarget(d, v, before[v].telemetry))
            && !Retained(c, Retarget(d, v, memoryMib), after, a)
  {
  }

  /** A balloon that already stands at the floor: the worst cost of 5120 MiB is not afforded, but no admitted resize can
      lose the headroom. */
  lemma AdmissionMayBeEnough()
    ensures var c, d, a, v, memoryMib := OneSlot(), RunningAt(2048), 7936, 1, 5120;
            var gs := map[v := GuestAt(2048, 2048)];
            && Kept(c, d, gs, a) && !Foreseen(c, d, gs, a, v, memoryMib) && Anchored(c, d, gs, v, memoryMib)
  {
    assert ClaimOf(RunningAt(2048), 1, GuestAt(2048, 2048)) == Claim(2048 * MIB, 2048 * MIB, 2048 * MIB);
    CeilMibWhole(3072);
  }

  /** The guard reads commitments before it reads availability: memory that becomes resident in between is
      subtracted twice, and the guard reports lost headroom although none was lost. */
  lemma GuardCountsLateResidencyTwice()
    ensures var c, d, a, a' := OneSlot(), RunningAt(4096), 9984, 9983;
            var before, after := map[1 := GuestAt(4096, 2048)], map[1 := GuestAt(4096, 2049)];
            && Calm(d, AllHeld(c.slots), c.slots, before, a, after, a')
            && Retained(c, d, before, a) && Retained(c, d, after, a')
            && a' - Counted(d, c.slots, before) - MARGIN_MIB < c.reserveMib + GUARD_MIB
  {
  }

  /** A running guest with a target of 2048 MiB that shuts itself down is charged 8192 MiB while it freed 2048. */
  lemma ShutdownLosesRetention()
    ensures var c, d, a, a' := OneSlot(), RunningAt(2048), 9984, 9984 + 2048;
            var up := GuestAt(2048, 2048);
            var before, after := map[1 := up], map[1 := up.(boot := None)];
            && GuestsRely(before, after) && Calm(d, NO_LEEWAY, c.slots, before, a, after, a')
            && Retained(c, d, before, a) && !Retained(c, d, after, a') && Kept(c, d, after, a')
  {
  }
}
