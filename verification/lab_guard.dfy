/** Exactly when a guard that samples a calm host does not report missing headroom. */
module LabGuard {
  import opened Wrappers
  import opened Shared
  import opened LabState
  import opened LabBoot
  import opened LabMemory
  import opened LabLimits
  import opened LabRules

  /** What the guard counts for one slot whose status it reads in `read` and whose process it reads in `gs`. */
  function SampledAt(d: Promises, read: map<Vm, Guest>, gs: map<Vm, Guest>, v: Vm): Result<Commitments> {
    if v in read then Measure(d, v, ActivityOf(d, v, read[v]), gs, None) else Ok(Commitments(0, 0))
  }

  predicate Readable(d: Promises, slots: seq<Vm>, read: map<Vm, Guest>, gs: map<Vm, Guest>) {
    forall v <- slots :: SampledAt(d, read, gs, v).Ok?
  }

  function SampledTotal(d: Promises, slots: seq<Vm>, read: map<Vm, Guest>, gs: map<Vm, Guest>): nat
    requires Readable(d, slots, read, gs)
  {
    if slots == [] then 0
    else
      assert slots[|slots| - 1] in slots;
      SampledTotal(d, slots[..|slots| - 1], read, gs) + SampledAt(d, read, gs, slots[|slots| - 1]).value.headroomMib
  }

  /** A sample as it is taken: the statuses are read at `gs1`, the processes at `gs2`, and availability last, at `gs3`.
      */
  predicate Watched(
    c: Config, d: Promises, gs: map<Vm, Guest>, a: int, gs1: map<Vm, Guest>, a1: int, gs2: map<Vm, Guest>, a2: int,
    gs3: map<Vm, Guest>, a3: int)
  {
    && CalmStep(c, d, gs, a, gs1, a1) && CalmStep(c, d, gs1, a1, gs2, a2) && CalmStep(c, d, gs2, a2, gs3, a3)
    && Readable(d, c.slots, gs1, gs2)
  }

  /** No sample of a calm host makes the guard report missing headroom if and only if there was ample headroom when it
      began. */
  lemma GuardIsQuietIff(c: Config, leases: map<Vm, Lease>, d: Promises, gs: map<Vm, Guest>, a: int)
    requires BootSafe(leases, d.runs, gs)
    requires forall v <- c.slots :: v in gs && gs[v].boot.Some? ==> Measured(gs[v].telemetry)
    ensures (forall gs1, a1, gs2, a2, gs3, a3 | Watched(c, d, gs, a, gs1, a1, gs2, a2, gs3, a3) ::
               Min(a, a3) - SampledTotal(d, c.slots, gs1, gs2) - MARGIN_MIB >= c.reserveMib + GUARD_MIB)
            <==> Ample(c, d, gs, a)
  {
    hide BootSafe, CalmStep, WorstTotal, SampledTotal, Readable, Fluid;
    forall gs1, a1, gs2, a2, gs3, a3 | Watched(c, d, gs, a, gs1, a1, gs2, a2, gs3, a3)
      ensures SampledTotal(d, c.slots, gs1, gs2) <= WorstTotal(d, c.slots, gs)
      ensures a - a3 <= Fluid(d, c.slots, gs)
    {
      CalmStepsOn(c, d, gs, a, gs1, a1, gs2, a2);
      CalmStepsOn(c, d, gs, a, gs2, a2, gs3, a3);
      StepUsesFluid(c, d, gs, a, gs3, a3);
      SampledAtWorst(c, d, gs, a, gs1, a1, gs2, a2, c.slots);
    }
    WorstSample(c, leases, d, gs, a);
  }

  lemma StepUsesFluid(c: Config, d: Promises, gs: map<Vm, Guest>, a: int, gs': map<Vm, Guest>, a': int)
    requires CalmStep(c, d, gs, a, gs', a')
    ensures a - a' <= Fluid(d, c.slots, gs)
  {
    FluidBounds(d, NO_LEEWAY, c.slots, gs, gs');
  }

  lemma {:induction false} SampledAtWorst(
    c: Config, d: Promises, gs: map<Vm, Guest>, a: int, gs1: map<Vm, Guest>, a1: int, gs2: map<Vm, Guest>, a2: int,
    slots: seq<Vm>)
    requires CalmStep(c, d, gs, a, gs1, a1) && CalmStep(c, d, gs1, a1, gs2, a2)
    requires Readable(d, slots, gs1, gs2) && forall v <- slots :: v in c.slots
    ensures SampledTotal(d, slots, gs1, gs2) <= WorstTotal(d, slots, gs)
  {
    hide Moves, Measure, WorstAt, Paid;
    if slots != [] {
      var v := slots[|slots| - 1];
      assert v in slots;
      SampledAtWorst(c, d, gs, a, gs1, a1, gs2, a2, slots[..|slots| - 1]);
      if v in gs1 {
        MeasureAtWorst(d, NO_LEEWAY, v, gs, ActivityOf(d, v, gs1[v]), gs2);
      }
    }
  }

  // ----- The worst sample -----

  /** The guest when its status is read: gone down, if that counts for more. */
  function WorstStatus(d: Promises, v: Vm, g: Guest): Guest {
    if g.boot.Some? && v in d.runs && d.runs[v].phase == Running
       && WorstReading(d, v, g) <= Max(Requested(d, v), Startup(d, v)) then g.(boot := None, pending := multiset{})
    else g
  }

  /** The guest when its process is read: the balloon is down at the floor, and what was resident went with it. */
  function WorstProcess(d: Promises, v: Vm, g: Guest): Guest {
    if g.boot.Some? && Measured(g.telemetry) then
      var c, floor := ClaimOf(d, v, g), FloorBytes(d, v);
      g.(telemetry := Telemetry(Some(floor), None, 0, Some(Max(0, c.pve - (c.bytes - floor))),
                                Some(Max(0, c.rss - (c.bytes - floor)))))
    else g
  }

  lemma WorstStatusMoves(leases: map<Vm, Lease>, d: Promises, gs: map<Vm, Guest>, v: Vm)
    requires BootSafe(leases, d.runs, gs) && v in gs && (gs[v].boot.Some? ==> Measured(gs[v].telemetry))
    ensures var g' := WorstStatus(d, v, gs[v]);
            && GuestRely(gs[v], g') && Moves(d, NO_LEEWAY, v, gs[v], g')
            && (g'.boot.Some? ==> Measured(g'.telemetry))
            && (g'.Quiet() && !gs[v].Quiet() ==> v in d.runs && d.runs[v].phase == Running)
  {
    assert BootSafeAt(Get(leases, v), Get(d.runs, v), gs[v]);
  }

  lemma WorstProcessMoves(d: Promises, v: Vm, g: Guest)
    requires g.boot.Some? ==> Measured(g.telemetry)
    ensures var g' := WorstProcess(d, v, g);
            && GuestRely(g, g') && Moves(d, NO_LEEWAY, v, g, g') && (g'.boot.Some? ==> Measured(g'.telemetry))
            && (g'.Quiet() <==> g.Quiet())
  {
  }

  /** It is counted at its worst. */
  lemma WorstIsSampled(leases: map<Vm, Lease>, d: Promises, gs: map<Vm, Guest>, v: Vm)
    requires BootSafe(leases, d.runs, gs) && v in gs && (gs[v].boot.Some? ==> Measured(gs[v].telemetry))
    ensures var g' := WorstStatus(d, v, gs[v]);
            var k := Measure(d, v, ActivityOf(d, v, g'), map[v := WorstProcess(d, v, g')], None);
            k.Ok? && k.value.headroomMib == WorstAt(d, gs, v)
  {
    assert BootSafeAt(Get(leases, v), Get(d.runs, v), gs[v]);
    CeilMibWhole(Max(Requested(d, v), Startup(d, v)));
  }

  function Statuses(d: Promises, slots: seq<Vm>, gs: map<Vm, Guest>): map<Vm, Guest> {
    map v | v in gs :: if v in slots then WorstStatus(d, v, gs[v]) else gs[v]
  }

  function Processes(d: Promises, slots: seq<Vm>, gs: map<Vm, Guest>): map<Vm, Guest> {
    map v | v in gs :: if v in slots then WorstProcess(d, v, gs[v]) else gs[v]
  }

  lemma WorstSample(c: Config, leases: map<Vm, Lease>, d: Promises, gs: map<Vm, Guest>, a: int)
    requires BootSafe(leases, d.runs, gs)
    requires forall v <- c.slots :: v in gs && gs[v].boot.Some? ==> Measured(gs[v].telemetry)
    ensures exists gs1, a1, gs2, a2, gs3, a3 ::
              && Watched(c, d, gs, a, gs1, a1, gs2, a2, gs3, a3) && a - a3 == Fluid(d, c.slots, gs)
              && SampledTotal(d, c.slots, gs1, gs2) == WorstTotal(d, c.slots, gs)
  {
    hide BootSafe, Statuses, Processes, AllFilled, WorstTotal, SampledTotal, Fluid, Owed, Readable, Calm;
    var gs1 := Statuses(d, c.slots, gs);
    var gs2 := Processes(d, c.slots, gs1);
    var gs3 := AllFilled(d, c.slots, gs2);
    var owed := Owed(d, c.slots, gs, None);
    var a1, a2 := a - owed + Owed(d, c.slots, gs1, None), a - owed + Owed(d, c.slots, gs2, None);
    var a3 := a - owed + Owed(d, c.slots, gs3, None);
    StatusesStep(c, leases, d, gs, a);
    ProcessesStep(c, leases, d, gs1, a1);
    FilledStep(c, leases, d, gs2, a2);
    WorstIsTotal(leases, d, c.slots, c.slots, gs);
    SolidStays(leases, d, c.slots, c.slots, gs);
    FilledUsesFluid(leases, d, c.slots, c.slots, gs2);
    assert Watched(c, d, gs, a, gs1, a1, gs2, a2, gs3, a3);
  }

  lemma StatusesStep(c: Config, leases: map<Vm, Lease>, d: Promises, gs: map<Vm, Guest>, a: int)
    requires BootSafe(leases, d.runs, gs)
    requires forall v <- c.slots :: v in gs && gs[v].boot.Some? ==> Measured(gs[v].telemetry)
    ensures var gs' := Statuses(d, c.slots, gs);
            && CalmStep(c, d, gs, a, gs', a - Owed(d, c.slots, gs, None) + Owed(d, c.slots, gs', None))
            && BootSafe(leases, d.runs, gs')
            && forall v <- c.slots :: v in gs' && gs'[v].boot.Some? ==> Measured(gs'[v].telemetry)
  {
    hide WorstStatus, Owed, BootSafeAt, Moves, Measured;
    var gs' := Statuses(d, c.slots, gs);
    forall v | v in gs
      ensures GuestRely(gs[v], gs'[v]) && (v in c.slots ==> Moves(d, NO_LEEWAY, v, gs[v], gs'[v]))
      ensures v in c.slots && gs'[v].boot.Some? ==> Measured(gs'[v].telemetry)
    {
      if v in c.slots {
        WorstStatusMoves(leases, d, gs, v);
      }
    }
    BootSafeRely(leases, d.runs, gs, gs');
  }

  lemma ProcessesStep(c: Config, leases: map<Vm, Lease>, d: Promises, gs: map<Vm, Guest>, a: int)
    requires BootSafe(leases, d.runs, gs)
    requires forall v <- c.slots :: v in gs && gs[v].boot.Some? ==> Measured(gs[v].telemetry)
    ensures var gs' := Processes(d, c.slots, gs);
            && CalmStep(c, d, gs, a, gs', a - Owed(d, c.slots, gs, None) + Owed(d, c.slots, gs', None))
            && BootSafe(leases, d.runs, gs')
            && forall v <- c.slots :: v in gs' && gs'[v].boot.Some? ==> Measured(gs'[v].telemetry)
  {
    hide WorstProcess, Owed, BootSafeAt, Moves, Measured;
    var gs' := Processes(d, c.slots, gs);
    forall v | v in gs
      ensures GuestRely(gs[v], gs'[v]) && (v in c.slots ==> Moves(d, NO_LEEWAY, v, gs[v], gs'[v]))
      ensures v in c.slots && gs'[v].boot.Some? ==> Measured(gs'[v].telemetry)
    {
      if v in c.slots {
        WorstProcessMoves(d, v, gs[v]);
      }
    }
    BootSafeRely(leases, d.runs, gs, gs');
  }

  lemma FilledStep(c: Config, leases: map<Vm, Lease>, d: Promises, gs: map<Vm, Guest>, a: int)
    requires BootSafe(leases, d.runs, gs)
    requires forall v <- c.slots :: v in gs && gs[v].boot.Some? ==> Measured(gs[v].telemetry)
    ensures var gs' := AllFilled(d, c.slots, gs);
            CalmStep(c, d, gs, a, gs', a - Owed(d, c.slots, gs, None) + Owed(d, c.slots, gs', None))
  {
    hide Filled, Owed, BootSafeAt, Moves, OutstandingAt, CountedAt;
    var gs' := AllFilled(d, c.slots, gs);
    forall v | v in gs
      ensures GuestRely(gs[v], gs'[v]) && (v in c.slots ==> Moves(d, NO_LEEWAY, v, gs[v], gs'[v]))
    {
      if v in c.slots {
        FilledMoves(leases, d, NO_LEEWAY, gs, v);
      }
    }
  }

  lemma {:induction false} WorstIsTotal(
    leases: map<Vm, Lease>, d: Promises, all: seq<Vm>, slots: seq<Vm>, gs: map<Vm, Guest>)
    requires BootSafe(leases, d.runs, gs) && forall v <- slots :: v in all
    requires forall v <- slots :: v in gs && gs[v].boot.Some? ==> Measured(gs[v].telemetry)
    ensures var gs1 := Statuses(d, all, gs);
            var gs2 := Processes(d, all, gs1);
            Readable(d, slots, gs1, gs2) && SampledTotal(d, slots, gs1, gs2) == WorstTotal(d, slots, gs)
  {
    hide BootSafe, WorstStatus, WorstProcess, WorstReading, Measured;
    if slots != [] {
      var gs1 := Statuses(d, all, gs);
      var gs2 := Processes(d, all, gs1);
      var v := slots[|slots| - 1];
      WorstIsTotal(leases, d, all, slots[..|slots| - 1], gs);
      assert v in slots;
      if v in gs {
        WorstIsSampled(leases, d, gs, v);
      }
      assert SampledAt(d, gs1, gs2, v).Ok? && SampledAt(d, gs1, gs2, v).value.headroomMib == WorstAt(d, gs, v);
      forall u | u in slots
        ensures SampledAt(d, gs1, gs2, u).Ok?
      {
        assert u == v || u in slots[..|slots| - 1];
      }
    }
  }

  /** What is owed beyond the fluid part does not move. */
  lemma {:induction false} SolidStays(
    leases: map<Vm, Lease>, d: Promises, all: seq<Vm>, slots: seq<Vm>, gs: map<Vm, Guest>)
    requires BootSafe(leases, d.runs, gs) && forall v <- slots :: v in all
    requires forall v <- slots :: v in gs && gs[v].boot.Some? ==> Measured(gs[v].telemetry)
    ensures var gs2 := Processes(d, all, Statuses(d, all, gs));
            Owed(d, slots, gs2, None) - Fluid(d, slots, gs2) == Owed(d, slots, gs, None) - Fluid(d, slots, gs)
  {
    hide BootSafe, WorstStatus, WorstProcess, Measured;
    if slots != [] {
      var v := slots[|slots| - 1];
      SolidStays(leases, d, all, slots[..|slots| - 1], gs);
      assert v in slots;
      if v in gs {
        SolidSlot(leases, d, gs, Processes(d, all, Statuses(d, all, gs)), v);
      }
    }
  }

  lemma SolidSlot(leases: map<Vm, Lease>, d: Promises, gs: map<Vm, Guest>, gs': map<Vm, Guest>, v: Vm)
    requires BootSafe(leases, d.runs, gs) && v in gs && (gs[v].boot.Some? ==> Measured(gs[v].telemetry))
    requires v in gs' && gs'[v] == WorstProcess(d, v, WorstStatus(d, v, gs[v]))
    ensures OutstandingAt(d, gs', None, v) - (if gs'[v].Quiet() then 0 else CountedAt(d, gs', v))
            == OutstandingAt(d, gs, None, v) - (if gs[v].Quiet() then 0 else CountedAt(d, gs, v))
  {
    assert BootSafeAt(Get(leases, v), Get(d.runs, v), gs[v]);
  }

  // ----- Concrete samples -----

  /** A balloon that shrinks from 4096 to 2048 MiB between the status and the process read is counted at 2048 MiB,
      although nothing is owed before or after. */
  lemma GuardCountsShrinkingBalloon()
    ensures var c, d, a := OneSlot(), RunningAt(2048), 7936;
            var before, after := map[1 := GuestAt(4096, 4096)], map[1 := GuestAt(2048, 2048)];
            && CalmStep(c, d, before, a, after, a) && Spare(c, d, before, a)
            && Retained(c, d, before, a) && Retained(c, d, after, a)
            && SampledAt(d, before, after, 1) == Ok(Commitments(1, 2048))
            && a - 2048 - MARGIN_MIB < c.reserveMib + GUARD_MIB
  {
    var d := RunningAt(2048);
    assert ClaimOf(d, 1, GuestAt(4096, 4096)) == Claim(4096 * MIB, 4096 * MIB, 4096 * MIB);
    assert ClaimOf(d, 1, GuestAt(2048, 2048)) == Claim(2048 * MIB, 2048 * MIB, 2048 * MIB);
    CeilMibWhole(2048);
  }

  /** A running guest that goes down before its status is read is counted at 8192 MiB. */
  lemma GuardCountsFallenGuest()
    ensures var c, d, a := OneSlot(), RunningAt(2048), 7936;
            var up := GuestAt(2048, 2048);
            var before, after := map[1 := up], map[1 := up.(boot := None)];
            && CalmStep(c, d, before, a, after, a) && Spare(c, d, before, a) && Retained(c, d, before, a)
            && SampledAt(d, after, after, 1) == Ok(Commitments(1, 8192))
            && a - 8192 - MARGIN_MIB < c.reserveMib + GUARD_MIB
  {
    assert ClaimOf(RunningAt(2048), 1, GuestAt(2048, 2048)) == Claim(2048 * MIB, 2048 * MIB, 2048 * MIB);
  }
}
