/** Why a powered-on or still booting guest always belongs to the current lease of its slot. */
module LabBoot {
  import opened Wrappers
  import opened LabState

  predicate BootSafeAt(lease: Option<Lease>, run: Option<Run>, g: Guest) {
    && |g.pending| + (if g.boot.Some? then 1 else 0) <= 1
    && (!g.Quiet() ==>
          && lease.Some? && run.Some?
          && run.value.generation == lease.value.generation
          && run.value.holder == lease.value.holder)
    && (forall b <- g.pending ::
          lease.Some? && run.Some? && b == Boot(lease.value.generation, lease.value.holder)
          && run.value.phase == Starting)
    && (g.boot.Some? ==>
          && lease.Some? && run.Some?
          && g.boot.value == Boot(lease.value.generation, lease.value.holder)
          && run.value.phase in {Starting, Running})
  }

  function Get<T>(m: map<Vm, T>, v: Vm): Option<T> {
    if v in m then Some(m[v]) else None
  }

  /** At most one start per slot, and it is the start of the slot's current lease generation and holder. */
  predicate BootSafe(leases: map<Vm, Lease>, runs: map<Vm, Run>, guests: map<Vm, Guest>) {
    forall v <- guests :: BootSafeAt(Get(leases, v), Get(runs, v), guests[v])
  }

  lemma BootSafeAtRely(lease: Option<Lease>, run: Option<Run>, g: Guest, g': Guest)
    requires BootSafeAt(lease, run, g) && GuestRely(g, g')
    ensures BootSafeAt(lease, run, g')
    ensures g.Quiet() ==> g'.Quiet()
  {
    assert g.pending == g'.pending + (g.pending - g'.pending);
    forall b | b in g'.pending
      ensures b in g.pending
    {
    }
  }

  /** Late landings, failures and guest shutdowns keep the invariant, and a quiet guest stays quiet. */
  lemma BootSafeRely(leases: map<Vm, Lease>, runs: map<Vm, Run>, gs: map<Vm, Guest>, gs': map<Vm, Guest>)
    requires BootSafe(leases, runs, gs) && GuestsRely(gs, gs')
    ensures BootSafe(leases, runs, gs')
    ensures forall v <- gs :: gs[v].Quiet() ==> gs'[v].Quiet()
  {
    forall v | v in gs
      ensures BootSafeAt(Get(leases, v), Get(runs, v), gs'[v]) && (gs[v].Quiet() ==> gs'[v].Quiet())
    {
      BootSafeAtRely(Get(leases, v), Get(runs, v), gs[v], gs'[v]);
    }
  }

  /** Rewriting the records of a quiet slot is always safe. */
  lemma QuietSlotIsFree(
    leases: map<Vm, Lease>, runs: map<Vm, Run>, guests: map<Vm, Guest>, v: Vm,
    leases': map<Vm, Lease>, runs': map<Vm, Run>)
    requires BootSafe(leases, runs, guests)
    requires v in guests ==> guests[v].Quiet()
    requires forall u <- guests :: u != v ==> Get(leases', u) == Get(leases, u) && Get(runs', u) == Get(runs, u)
    ensures BootSafe(leases', runs', guests)
  {
  }

  /** A start accepted for a quiet slot, under the lease and the run record written before it. */
  lemma AcceptedIsSafe(leases: map<Vm, Lease>, runs: map<Vm, Run>, guests: map<Vm, Guest>, v: Vm, boot: Boot)
    requires BootSafe(leases, runs, guests)
    requires v in guests && guests[v].Quiet()
    requires v in leases && boot == Boot(leases[v].generation, leases[v].holder)
    requires v in runs && runs[v].phase == Starting
    requires runs[v].generation == boot.generation && runs[v].holder == boot.holder
    ensures BootSafe(leases, runs, guests[v := guests[v].(pending := multiset{boot})])
  {
  }

  /** Without a start on its way, the run may be recorded as running. */
  lemma RunningIsSafe(leases: map<Vm, Lease>, runs: map<Vm, Run>, guests: map<Vm, Guest>, v: Vm)
    requires BootSafe(leases, runs, guests)
    requires v in runs && (v in guests ==> guests[v].pending == multiset{})
    ensures BootSafe(leases, runs[v := runs[v].(phase := Running)], guests)
  {
  }

  predicate MayBeStarting(runs: map<Vm, Run>, v: Vm) {
    v in runs && runs[v].phase == Starting
  }

  /** A guest read as stopped is quiet, unless its run is still recorded as starting. */
  lemma StoppedReadback(leases: map<Vm, Lease>, runs: map<Vm, Run>, guests: map<Vm, Guest>, v: Vm)
    requires BootSafe(leases, runs, guests) && v in guests && !guests[v].Up()
    ensures MayBeStarting(runs, v) || guests[v].Quiet()
  {
  }
}
