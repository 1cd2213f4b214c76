/** The controller itself: each command talks to the host call by call, may be killed at any call,
    and keeps the lab safe at every moment in between. */
module LabControl {
  import opened Wrappers
  import opened Shared
  import opened LabState
  import opened LabBoot
  import opened LabMemory
  import opened LabLimits
  import opened LabSnapshots
  import opened LabCapacity
  import opened LabRules

  class Lab {
    const config: Config
    const script: nat -> Moment
    /** Whether the host keeps to its reported balloons (see `Calm`). */
    const calm: bool
    /** Whether it also leaves a balloon alone while its slot is resized, and all of them while the guard samples. */
    const still: bool

    var tick: nat
    /** The saved state file. */
    var disk: State
    /** The running command's copy. */
    var state: State
    var host: Host
    /** Tokens handed out so far: generations and snapshot owners are unique. */
    var minted: nat
    ghost var leaseLog: set<Lease>
    /** The last external snapshot listed under its record's name, and the host call that listed it. */
    ghost var seen: Option<(Key, Owner, nat)>
    /** Every owner that was listed on an external snapshot, by the name it was listed under. */
    ghost var listed: set<(Key, Owner)>
    ghost var trace: seq<Instant>
    /** What the host is expected to leave alone, or to bring down, right now. */
    var leeway: Leeway

    ghost predicate Valid()
      reads this
    {
      && Distinct(config.slots) && config.template !in config.slots
      && BootSafe(disk.leases, disk.runs, host.guests)
      && SnapshotSafe(disk.snapshots, host.snaps, minted)
      && LeaseSafe(disk.leases, leaseLog, minted)
      && Adopted(disk.snapshots, listed)
      && (calm ==> AllMeasured(config.slots, host.guests))
      && Traced(trace, disk, host)
    }

    /** A command may rely on its copy agreeing with the file on everything that carries a promise. */
    ghost predicate Loaded()
      reads this
    {
      Valid() && SameCore(state, disk) && leeway.falling == {}
    }

    lemma Parts()
      requires Valid()
      ensures BootSafe(disk.leases, disk.runs, host.guests) && SnapshotSafe(disk.snapshots, host.snaps, minted)
      ensures LeaseSafe(disk.leases, leaseLog, minted) && Adopted(disk.snapshots, listed)
      ensures calm ==> AllMeasured(config.slots, host.guests)
    {
    }

    /** The host is calm and keeps its headroom for what is on disk. */
    ghost predicate Sound()
      reads this
    {
      calm && Kept(config, PromisesOf(disk), host.guests, host.available)
    }

    /** What a host call leaves behind: the records are untouched and the host moved on by itself. */
    twostate predicate Observed()
      reads this
    {
      && Valid() && old(trace) <= trace
      && Evolves(config, PromisesOf(disk), calm, leeway, old(host), host)
      && QuietKept(old(host), host) && old(host).now <= host.now
      && (old(Sound()) && disk == old(disk) ==> Sound())
    }

    /** What every command leaves behind, however it ends. */
    twostate predicate Stepped()
      reads this
    {
      && Valid() && old(disk.faults) <= disk.faults && old(leaseLog) <= leaseLog
      && old(trace) <= trace && old(listed) <= listed
    }

    constructor (config: Config, script: nat -> Moment, calm: bool, still: bool, host: Host, disk: State)
      requires Distinct(config.slots) && config.template !in config.slots
      requires disk == State(map[], map[], map[], map[], map[], [], map[], 0, None, None)
      requires forall v <- host.guests :: host.guests[v].Quiet()
      requires host.snaps.creates == {} && host.snaps.deletes == {} && host.snaps.deleted == {}
      requires forall k <- host.snaps.present :: host.snaps.present[k].Text?
      ensures Loaded()
      ensures this.config == config && this.script == script && this.calm == calm && this.still == still
      ensures this.host == host && this.disk == disk && trace == [InstantOf(disk, host, {})]
    {
      this.config, this.script, this.calm, this.still, this.host := config, script, calm, still, host;
      this.disk, this.state, this.tick, this.minted, this.leeway := disk, disk, 0, 0, NO_LEEWAY;
      this.leaseLog, this.seen, this.listed, this.trace := {}, None, {}, [InstantOf(disk, host, {})];
    }

    // ----- One host call at a time -----

    method Drift() returns (m: Moment)
      requires Valid()
      modifies this`tick, this`host, this`trace
      ensures Observed()
    {
      hide Evolves, BootSafe, SnapshotSafe, LeaseSafe, Kept, Traced, QuietKept, AllMeasured, Adopted;
      m := script(tick);
      tick := tick + 1;
      EvolvesReflexive(config, PromisesOf(disk), calm, leeway, host);
      var next := if Evolves(config, PromisesOf(disk), calm, leeway, host, m.host) then m.host else host;
      EvolvesKeeps(config, PromisesOf(disk), calm, leeway, host, next, disk, minted, listed);
      TracedOn(trace, disk, host, disk, next, listed);
      host := next;
      trace := trace + [InstantOf(disk, host, listed)];
    }

    method Now() returns (t: int)
      requires Valid()
      modifies this`tick, this`host, this`trace
      ensures Observed()
      ensures t == host.now
    {
      var _ := Drift();
      t := host.now;
    }

    method Call() returns (r: Result<Moment>)
      requires Valid()
      modifies this`tick, this`host, this`trace
      ensures Observed()
    {
      var m := Drift();
      r := if m.killed then Err(Killed) else if m.fails then Err(TransportError)
           else if m.refused then Err(RuntimeError) else Ok(m);
    }

    method Owned(v: Vm) returns (r: Result<GuestConfig>)
      requires Valid()
      modifies this`tick, this`host, this`trace
      ensures Observed()
      ensures r.Ok? ==> v in host.guests && (v == config.template ==> r.value.template)
      ensures r.Ok? ==> v == config.template || v in config.slots
    {
      if v != config.template && v !in config.slots {
        var _ := Drift();
        return Err(ValueError);
      }
      var m :- Call();
      if v !in host.guests {
        return Err(RuntimeError);
      }
      r := Ok(GuestConfig(m.lock, m.template || v == config.template, m.vmgenid));
    }

    method StatusOf(v: Vm) returns (r: Result<Guest>)
      requires Valid()
      modifies this`tick, this`host, this`trace
      ensures Observed()
      ensures r.Ok? ==> v in host.guests && r.value == host.guests[v]
      ensures r.Ok? ==> v == config.template || v in config.slots
    {
      ghost var h0 := host;
      var _ :- Owned(v);
      ghost var h1 := host;
      var m := Call();
      EvolvesTransitive(config, PromisesOf(disk), calm, leeway, h0, h1, host);
      if m.Err? {
        return Err(m.error);
      }
      r := Ok(host.guests[v]);
    }

    /** A status read without the ownership checks. */
    method RawStatus(v: Vm) returns (r: Result<Guest>)
      requires Valid()
      modifies this`tick, this`host, this`trace
      ensures Observed()
      ensures r.Ok? ==> v in host.guests && r.value == host.guests[v]
    {
      var m := Drift();
      r := if m.killed then Err(Killed) else if m.fails || v !in host.guests then Err(TransportError)
           else Ok(host.guests[v]);
    }

    /** Whether an unfinished power task of `v` is listed; every unfinished start is. */
    method PowerTasks(v: Vm) returns (r: Result<bool>)
      requires Valid() && v in host.guests
      modifies this`tick, this`host, this`trace
      ensures Observed()
      ensures r == Ok(false) ==> host.guests[v].pending == multiset{}
    {
      var m :- Call();
      r := Ok(m.busy || host.guests[v].pending != multiset{});
    }

    /** Writes the command's copy to disk, or dies before doing so. */
    method Save() returns (r: Result<()>)
      requires Valid()
      requires BootSafe(state.leases, state.runs, host.guests)
      requires SnapshotSafe(state.snapshots, host.snaps, minted)
      requires LeaseSafe(state.leases, leaseLog + state.leases.Values, minted)
      requires disk.faults <= state.faults && Adopted(state.snapshots, listed)
      modifies this`tick, this`host, this`trace, this`disk, this`leaseLog
      ensures Stepped()
      ensures Evolves(config, PromisesOf(old(disk)), calm, leeway, old(host), host) && QuietKept(old(host), host)
      ensures old(host).now <= host.now
      ensures old(Sound()) ==> Kept(config, PromisesOf(old(disk)), host.guests, host.available)
      ensures r.Ok? ==> disk == state
      ensures r.Err? ==> r == Err(Killed) && disk == old(disk)
    {
      hide Evolves, BootSafe, SnapshotSafe, LeaseSafe, Kept, Traced, QuietKept, AllMeasured, Adopted;
      ghost var h := host;
      var m := Drift();
      if m.killed {
        return Err(Killed);
      }
      EvolvesKeeps(config, PromisesOf(disk), calm, leeway, h, host, state, minted, listed);
      TracedOn(trace, disk, host, state, host, listed);
      disk := state;
      leaseLog := leaseLog + state.leases.Values;
      trace := trace + [InstantOf(disk, host, listed)];
      r := Ok(());
    }

    // ----- Leases -----

    /** After a stopped readback, success proves that no start can still arrive. */
    method FenceStarting(v: Vm) returns (r: Result<()>)
      requires Loaded()
      modifies this`tick, this`host, this`trace
      ensures Observed()
      ensures r.Ok? && (MayBeStarting(disk.runs, v) || (v in old(host).guests && old(host).guests[v].Quiet())) ==>
                v in host.guests && host.guests[v].Quiet()
    {
      hide Valid, SnapsRely, Calm, Kept;
      ghost var h0 := host;
      if !MayBeStarting(state.runs, v) {
        var _ := Drift();
        return Ok(());
      }
      var cfg :- Owned(v);
      ghost var h1 := host;
      var busy := PowerTasks(v);
      EvolvesTransitive(config, PromisesOf(disk), calm, leeway, h0, h1, host);
      if busy.Err? {
        return Err(busy.error);
      }
      if cfg.lock || busy.value {
        return Err(CapacityUnavailable);
      }
      ghost var h2 := host;
      var status := StatusOf(v);
      EvolvesTransitive(config, PromisesOf(disk), calm, leeway, h0, h2, host);
      if status.Err? {
        return Err(status.error);
      }
      if status.value.Up() {
        return Err(CapacityUnavailable);
      }
      assert host.guests[v].pending <= h2.guests[v].pending;
      r := Ok(());
    }

    method RequireLease(v: Vm, holder: Holder, allowInvalidated: bool) returns (r: Result<()>)
      requires Loaded()
      modifies this`tick, this`host, this`trace
      ensures Observed()
      ensures r.Ok? ==> v in disk.leases && disk.leases[v].holder == holder && disk.leases[v].expires > host.now
      ensures r.Ok? && !allowInvalidated ==> !Invalidated(disk.faults, v, holder)
    {
      var t := Now();
      if v !in state.leases || state.leases[v].holder != holder || state.leases[v].expires <= t {
        return Err(RuntimeError);
      }
      if !allowInvalidated && Invalidated(state.faults, v, holder) {
        return Err(RuntimeError);
      }
      r := Ok(());
    }

    function LeasePurpose(v: Vm): Purpose
      reads this
    {
      if v in state.leases then state.leases[v].Effective() else Measurement
    }

    /** Renews the holder's generation, or starts a fresh one on a slot proven quiet. */
    method GrantLease(v: Vm, holder: Holder, seconds: int, purpose: Option<Purpose>) returns (r: Result<Lease>)
      requires Loaded()
      modifies this
      ensures Stepped() && (r != Err(Killed) ==> Loaded())
      ensures state.deferred == old(state).deferred
      ensures disk.snapshots == old(disk).snapshots && disk.faults == old(disk).faults
      ensures r.Ok? ==> Granted(old(disk), disk, v, holder, purpose, r.value, old(minted))
      ensures r.Ok? && r.value.generation >= old(minted) ==> v in host.guests && host.guests[v].Quiet()
      ensures r.Ok? ==> old(host).now + seconds <= r.value.expires <= host.now + seconds
      ensures r.Err? ==> disk == old(disk)
      ensures old(Sound()) ==> Sound()
    {
      hide Valid, Sound, Evolves, QuietKept, Granted;
      var _ :- Owned(v);
      if !ValidHolder(holder) || !(60 <= seconds <= 14400) {
        return Err(ValueError);
      }
      var current := Get(state.leases, v);
      var t1 := Now();
      if current.Some? && current.value.expires > t1 && current.value.holder != holder {
        return Err(RuntimeError);
      }
      var t2 := Now();
      var renewal := current.Some? && current.value.expires > t2 && current.value.holder == holder;
      if renewal && (if purpose.Some? then purpose.value else Measurement) != LeasePurpose(v) {
        return Err(RuntimeError);
      }
      if renewal {
        r := Renew(v, holder, seconds, purpose);
      } else {
        r := Acquire(v, holder, seconds, purpose);
      }
    }

    /** Extends the present lease of the holder. */
    method Renew(v: Vm, holder: Holder, seconds: int, ghost purpose: Option<Purpose>) returns (r: Result<Lease>)
      requires Loaded() && v in disk.leases && disk.leases[v].holder == holder
      modifies this
      ensures Stepped() && (r != Err(Killed) ==> Loaded())
      ensures state.deferred == old(state).deferred
      ensures disk.snapshots == old(disk).snapshots && disk.faults == old(disk).faults
      ensures r.Ok? ==> Granted(old(disk), disk, v, holder, purpose, r.value, old(minted))
      ensures r.Ok? ==> r.value.generation < old(minted)
      ensures r.Ok? ==> old(host).now + seconds <= r.value.expires <= host.now + seconds
      ensures r.Err? ==> disk == old(disk)
      ensures old(Sound()) ==> Sound()
    {
      hide Valid, Sound, Evolves, QuietKept, LeaseSafe, BootSafe, SnapshotSafe, Adopted;
      Parts();
      var current := state.leases[v];
      LeaseRenewed(disk.leases, leaseLog, minted, v, current);
      var t := Now();
      r := RecordLease(v, current.(expires := t + seconds));
    }

    /** Takes over a slot once it is proven stopped, with no start under way. */
    method Acquire(v: Vm, holder: Holder, seconds: int, purpose: Option<Purpose>) returns (r: Result<Lease>)
      requires Loaded()
      modifies this
      ensures Stepped() && (r != Err(Killed) ==> Loaded())
      ensures state.deferred == old(state).deferred
      ensures disk.snapshots == old(disk).snapshots && disk.faults == old(disk).faults
      ensures r.Ok? ==> Granted(old(disk), disk, v, holder, purpose, r.value, old(minted))
      ensures r.Ok? ==> r.value.generation == old(minted) && v in host.guests && host.guests[v].Quiet()
      ensures r.Ok? ==> old(host).now + seconds <= r.value.expires <= host.now + seconds
      ensures r.Err? ==> disk == old(disk)
      ensures old(Sound()) ==> Sound()
    {
      hide Valid, Sound, PromisesOf, Evolves, BootSafe, SnapshotSafe, LeaseSafe, QuietKept, SameCore, Granted;
      var status :- StatusOf(v);
      if status.Up() {
        return Err(RuntimeError);
      }
      Parts();
      StoppedReadback(disk.leases, disk.runs, host.guests, v);
      var _ :- FenceStarting(v);
      r := TakeOver(v, holder, seconds, purpose);
    }

    method RecordLease(v: Vm, lease: Lease) returns (r: Result<Lease>)
      requires Loaded()
      requires v in disk.leases && disk.leases[v].(expires := lease.expires) == lease
      modifies this
      ensures Stepped() && (r != Err(Killed) ==> Loaded()) && minted == old(minted)
      ensures state.deferred == old(state).deferred
      ensures r.Ok? ==> disk.leases == old(disk).leases[v := lease] && r.value == lease
      ensures r.Err? ==> r == Err(Killed) && disk == old(disk)
      ensures disk.runs == old(disk).runs && disk.requests == old(disk).requests
      ensures disk.snapshots == old(disk).snapshots && disk.faults == old(disk).faults
      ensures QuietKept(old(host), host) && old(host).now <= host.now
      ensures old(Sound()) ==> Sound()
    {
      hide Evolves, BootSafe, SnapshotSafe, LeaseSafe, Kept, Traced, Adopted;
      state := state.(leases := state.leases[v := lease]);
      var t := Now();
      state := state.(lastUsed := state.lastUsed[v := t]);
      BootSafeRenewed(disk.leases, disk.runs, host.guests, v, lease);
      LeaseRenewed(disk.leases, leaseLog, minted, v, lease);
      var _ :- Save();
      r := Ok(lease);
    }

    method TakeOver(v: Vm, holder: Holder, seconds: int, purpose: Option<Purpose>) returns (r: Result<Lease>)
      requires Loaded()
      requires v in host.guests && host.guests[v].Quiet()
      modifies this
      ensures Stepped() && (r != Err(Killed) ==> Loaded())
      ensures state.deferred == old(state).deferred
      ensures disk.snapshots == old(disk).snapshots && disk.faults == old(disk).faults
      ensures r.Ok? ==> Granted(old(disk), disk, v, holder, purpose, r.value, old(minted))
      ensures r.Ok? ==> r.value.generation == old(minted) && v in host.guests && host.guests[v].Quiet()
      ensures r.Ok? ==> old(host).now + seconds <= r.value.expires <= host.now + seconds
      ensures r.Err? ==> r == Err(Killed) && disk == old(disk)
      ensures old(Sound()) ==> Sound()
    {
      hide Valid, SameCore, Sound, Evolves;
      var t := Now();
      r := RecordTakeOver(v, Lease(holder, t + seconds, minted, purpose));
    }

    /** Saves a fresh lease; the run and the target of the slot are forgotten. */
    method RecordTakeOver(v: Vm, lease: Lease) returns (r: Result<Lease>)
      requires Loaded() && lease.generation == minted
      requires v in host.guests && host.guests[v].Quiet()
      modifies this
      ensures Stepped() && (r != Err(Killed) ==> Loaded())
      ensures state.deferred == old(state).deferred
      ensures disk.snapshots == old(disk).snapshots && disk.faults == old(disk).faults
      ensures r.Ok? ==> r.value == lease && disk.leases == old(disk).leases[v := lease]
                        && disk.runs == old(disk).runs - {v} && disk.requests == old(disk).requests - {v}
      ensures v in host.guests && host.guests[v].Quiet() && old(host).now <= host.now
      ensures r.Err? ==> r == Err(Killed) && disk == old(disk)
      ensures old(Sound()) ==> Sound()
    {
      hide Evolves, BootSafe, SnapshotSafe, LeaseSafe, Kept, Traced, Adopted;
      var t := Now();
      state := state.(runs := state.runs - {v}, requests := state.requests - {v},
                      leases := state.leases[v := lease], lastUsed := state.lastUsed[v := t]);
      QuietSlotIsFree(disk.leases, disk.runs, host.guests, v, state.leases, state.runs);
      LeaseMinted(disk.leases, leaseLog, minted, v, lease);
      SnapshotSafeMinted(disk.snapshots, host.snaps, minted);
      minted := minted + 1;
      ghost var d := PromisesOf(disk);
      var saved := Save();
      if saved.Err? {
        return Err(saved.error);
      }
      QuietSlotFreesMemory(config, d, host.guests, host.available, v, PromisesOf(disk));
      r := Ok(lease);
    }

    // ----- Capacity -----

    method CapacitySample() returns (r: Result<Sample>)
      requires Valid()
      modifies this`tick, this`host, this`trace
      ensures Observed()
      ensures r.Ok? ==> r.value.availableMib == host.available
    {
      var m :- Call();
      r := Ok(m.sample.(timestamp := host.now, availableMib := host.available));
    }

    /** Slots worth a fresh look: hinted as running, promised, or leased. */
    method Candidates(hints: set<Vm>) returns (candidates: set<Vm>)
      requires Loaded()
      modifies this`tick, this`host, this`trace
      ensures Observed()
      ensures forall v <- config.slots :: Promised(PromisesOf(disk), v) ==> v in candidates
    {
      hide Evolves, QuietKept, Kept, Calm, AllMeasured, BootSafe, SnapshotSafe, LeaseSafe, Traced, Adopted;
      candidates := {};
      EvolvesReflexive(config, PromisesOf(disk), calm, leeway, host);
      for i := 0 to |config.slots|
        invariant Observed()
        invariant forall j | 0 <= j < i :: Promised(PromisesOf(disk), config.slots[j]) ==> config.slots[j] in candidates
      {
        var v := config.slots[i];
        ghost var h := host;
        var t := Now();
        EvolvesTransitive(config, PromisesOf(disk), calm, leeway, old(host), h, host);
        if v in hints || Promised(PromisesOf(state), v) || (v in state.leases && state.leases[v].expires > t) {
          candidates := candidates + {v};
        }
      }
    }

    /** A fresh reading of every candidate slot; promised slots are never missed. */
    method OwnedActivity(expiredOnly: bool, hints: set<Vm>, checkOwnership: bool) returns (r: Result<map<Vm, Activity>>)
      requires Loaded()
      modifies this`tick, this`host, this`trace
      ensures Observed()
      ensures r.Ok? ==> AllRead(config, PromisesOf(disk), calm, leeway, old(host), host, r.value)
      ensures r.Ok? && !expiredOnly ==> forall v <- config.slots :: Promised(PromisesOf(disk), v) ==> v in r.value
    {
      hide Evolves, QuietKept, Kept, Calm, AllMeasured, BootSafe, SnapshotSafe, LeaseSafe, Traced, ReadBetween,
        Adopted;
      var candidates := Candidates(hints);
      var activity: map<Vm, Activity> := map[];
      for i := 0 to |config.slots|
        invariant Observed()
        invariant AllRead(config, PromisesOf(disk), calm, leeway, old(host), host, activity)
        invariant !expiredOnly ==>
                    forall j | 0 <= j < i :: Promised(PromisesOf(disk), config.slots[j]) ==> config.slots[j] in activity
      {
        var v := config.slots[i];
        if v in candidates {
          ghost var h := host;
          var reading := ReadSlot(v, expiredOnly, checkOwnership);
          EvolvesTransitive(config, PromisesOf(disk), calm, leeway, old(host), h, host);
          AllReadLater(config, PromisesOf(disk), calm, leeway, old(host), h, host, activity);
          if reading.Err? {
            return Err(reading.error);
          }
          if reading.value.Some? {
            ReadNow(config, PromisesOf(disk), calm, leeway, old(host), host, v);
            activity := activity[v := reading.value.value];
          }
        }
      }
      r := Ok(activity);
    }

    method ReadSlot(v: Vm, expiredOnly: bool, checkOwnership: bool) returns (r: Result<Option<Activity>>)
      requires Loaded() && v in config.slots
      modifies this`tick, this`host, this`trace
      ensures Observed()
      ensures r.Ok? && r.value.Some? ==>
                v in host.guests && r.value.value == ActivityOf(PromisesOf(disk), v, host.guests[v])
      ensures r.Ok? && !expiredOnly ==> r.value.Some?
    {
      hide Evolves, QuietKept, Kept, Calm, AllMeasured, BootSafe, SnapshotSafe, LeaseSafe, Traced, Adopted;
      ghost var h0 := host;
      var t := Now();
      if expiredOnly && v in state.leases && state.leases[v].expires > t {
        return Ok(None);
      }
      ghost var h1 := host;
      var status: Result<Guest>;
      if checkOwnership {
        status := StatusOf(v);
      } else {
        status := RawStatus(v);
      }
      EvolvesTransitive(config, PromisesOf(disk), calm, leeway, h0, h1, host);
      if status.Err? {
        return Err(status.error);
      }
      r := Ok(Some(ActivityOf(PromisesOf(state), v, status.value)));
    }

    /** The owed total of the slots, from readings taken one by one while the host moves on. */
    method OwnedCommitments(
      activity: map<Vm, Activity>, starting: Option<Vm>, ghost from: Host) returns (r: Result<Commitments>)
      requires Loaded()
      requires AllRead(config, PromisesOf(disk), calm, leeway, from, host, activity)
      requires forall v <- config.slots :: Promised(PromisesOf(disk), v) ==> v in activity
      requires from.guests.Keys == host.guests.Keys
      requires starting.Some? && starting.value in host.guests ==>
                 from.guests[starting.value].Quiet() && host.guests[starting.value].Quiet()
      modifies this`tick, this`host, this`trace
      ensures Observed()
      ensures r.Ok? && calm ==> Sampled(PromisesOf(disk), leeway, config.slots, from, host, starting, r.value)
    {
      hide Kept, SnapshotSafe, LeaseSafe, Traced, Evolves, BootSafe, AllRead, Sampled, Adopted;
      var own := Commitments(0, 0);
      EvolvesReflexive(config, PromisesOf(disk), calm, leeway, host);
      SampledNone(PromisesOf(disk), leeway, from, host, starting);
      for i := 0 to |config.slots|
        invariant Observed()
        invariant AllRead(config, PromisesOf(disk), calm, leeway, from, host, activity)
        invariant starting.Some? && starting.value in host.guests ==> host.guests[starting.value].Quiet()
        invariant calm ==> Sampled(PromisesOf(disk), leeway, config.slots[..i], from, host, starting, own)
      {
        var v := config.slots[i];
        ghost var h := host;
        var m := Drift();
        EvolvesTransitive(config, PromisesOf(disk), calm, leeway, old(host), h, host);
        AllReadLater(config, PromisesOf(disk), calm, leeway, from, h, host, activity);
        StaysQuiet(h, host, starting);
        if m.killed {
          return Err(Killed);
        }
        var k := Commitments(0, 0);
        if v in activity {
          var measured := Measure(PromisesOf(state), v, activity[v], host.guests, starting);
          if measured.Err? {
            return Err(measured.error);
          }
          k := measured.value;
        }
        if calm {
          SampledMore(config, disk.leases, PromisesOf(disk), leeway, from, h, host, activity, starting, i, own, k);
        }
        own := Commitments(own.active + k.active, own.headroomMib + k.headroomMib);
      }
      assert config.slots[..|config.slots|] == config.slots;
      r := Ok(own);
    }

    /** Samples the host and decides on `targetMib` more; in a calm host the decision is still valid
        when it is returned, although its parts were read one after the other. */
    method Resources(
      targetMib: int, starting: Option<Vm>, purpose: Purpose, coldStart: bool) returns (r: Result<Decision>)
      requires Loaded()
      requires starting.Some? && starting.value in host.guests ==> host.guests[starting.value].Quiet()
      modifies this`tick, this`host, this`trace
      ensures Observed()
      ensures r.Ok? ==> 2048 <= targetMib <= BOOT_MEMORY_MIB
      ensures r.Ok? && r.value.allowed ==>
                && r.value.active < config.maxActive
                && r.value.availableMib - (if coldStart then BOOT_MEMORY_MIB else targetMib) - r.value.reservedGrowthMib
                   >= config.reserveMib + GUARD_MIB
      ensures r.Ok? && calm ==>
                && r.value.availableMib <= host.available
                && r.value.reservedGrowthMib >= MARGIN_MIB + Owed(PromisesOf(disk), config.slots, host.guests, starting)
                && r.value.active == Active(PromisesOf(disk), config.slots, host.guests, starting)
    {
      hide Kept, SnapshotSafe, LeaseSafe, Traced, BootSafe, AllRead, Evolves, QuietKept, CapacitySafety, Owed,
        Active, Adopted;
      if !(2048 <= targetMib <= BOOT_MEMORY_MIB) {
        var _ := Drift();
        return Err(ValueError);
      }
      var listing := Call();
      if listing.Err? {
        return Err(listing.error);
      }
      ghost var h1 := host;
      var sample := CapacitySample();
      EvolvesTransitive(config, PromisesOf(disk), calm, leeway, old(host), h1, host);
      if sample.Err? {
        return Err(sample.error);
      }
      var safety := CapacitySafety(config, state, sample.value, true, purpose);
      ghost var h2 := host;
      StaysQuiet(old(host), host, starting);
      var own := SampleOwn(listing.value.hints, starting);
      EvolvesTransitive(config, PromisesOf(disk), calm, leeway, old(host), h2, host);
      if own.Err? {
        return Err(own.error);
      }
      var decision := Admission(config, Min(sample.value.availableMib, host.available), own.value.active,
                                if coldStart then BOOT_MEMORY_MIB else targetMib,
                                MARGIN_MIB + own.value.headroomMib, sample.value);
      r := if decision.Ok? then Ok(Confirmed(config, decision.value, safety.reasons)) else decision;
    }

    /** The commitments of all slots, still an upper bound when the last host call returns. */
    method SampleOwn(hints: set<Vm>, starting: Option<Vm>) returns (r: Result<Commitments>)
      requires Loaded()
      requires starting.Some? && starting.value in host.guests ==> host.guests[starting.value].Quiet()
      modifies this`tick, this`host, this`trace
      ensures Observed()
      ensures r.Ok? && calm ==> Bounded(PromisesOf(disk), config.slots, host, starting, r.value)
    {
      hide Kept, SnapshotSafe, LeaseSafe, Traced, BootSafe, AllRead, Evolves, QuietKept, Bounded, Owed, Active,
        Adopted;
      var activity := OwnedActivity(false, hints, false);
      if activity.Err? {
        return Err(activity.error);
      }
      StaysQuiet(old(host), host, starting);
      ghost var h1 := host;
      var own := OwnedCommitments(activity.value, starting, old(host));
      EvolvesTransitive(config, PromisesOf(disk), calm, leeway, old(host), h1, host);
      if own.Err? {
        return Err(own.error);
      }
      ghost var h2 := host;
      StaysQuiet(old(host), h2, starting);
      var _ := Now();
      EvolvesTransitive(config, PromisesOf(disk), calm, leeway, old(host), h2, host);
      StaysQuiet(old(host), host, starting);
      if calm {
        SampleStillHolds(config, disk.leases, PromisesOf(disk), leeway, h2, host, starting, own.value);
      }
      r := own;
    }

    // ----- Power -----

    /** The host accepts a start; success means that it has finished. */
    method QmStart(v: Vm, boot: Boot) returns (r: Result<()>)
      requires Valid() && v in host.guests && host.guests[v].Quiet()
      requires v in disk.leases && boot == Boot(disk.leases[v].generation, disk.leases[v].holder)
      requires v in disk.runs && disk.runs[v].phase == Starting
      requires disk.runs[v].generation == boot.generation && disk.runs[v].holder == boot.holder
      requires !Invalidated(disk.faults, v, boot.holder)
      modifies this`tick, this`host, this`trace
      ensures Valid() && old(trace) <= trace && v in host.guests
      ensures r.Ok? ==> host.guests[v].pending == multiset{}
      ensures old(Sound()) ==> Sound()
    {
      hide SnapshotSafe, LeaseSafe, Evolves, Adopted;
      var gs := host.guests[v := host.guests[v].(pending := multiset{boot})];
      AcceptedIsSafe(disk.leases, disk.runs, host.guests, v, boot);
      AcceptedOwesSame(config, PromisesOf(disk), host.guests, host.available, v, multiset{boot});
      InstantNow(disk, host.(guests := gs), minted, listed);
      TracedStart(trace, disk, host, listed, v, boot);
      host := host.(guests := gs);
      trace := trace + [InstantOf(disk, host, listed)];
      var m := Call();
      if m.Err? {
        return Err(m.error);
      }
      r := if host.guests[v].pending == multiset{} then Ok(()) else Err(TransportError);
    }

    /** Records that the guest of this lease is up; no start may still be on its way. */
    method MarkRunning(v: Vm, touch: bool) returns (r: Result<()>)
      requires Loaded()
      requires v in host.guests && host.guests[v].pending == multiset{}
      requires v in disk.runs && disk.runs[v].phase in {Starting, Running}
      modifies this
      ensures Stepped() && (r.Ok? ==> Loaded()) && (r.Err? ==> r == Err(Killed))
      ensures state.deferred == old(state).deferred
      ensures disk.leases == old(disk).leases && disk.snapshots == old(disk).snapshots
      ensures disk.faults == old(disk).faults
      ensures r.Ok? ==> disk.runs == old(disk).runs[v := old(disk).runs[v].(phase := Running)]
      ensures old(Sound()) ==> Sound()
      ensures disk.requests == old(disk).requests
    {
      hide SnapshotSafe, LeaseSafe, Kept, Traced, BootSafe, Evolves, Adopted;
      if touch {
        ghost var h := host;
        var t := Now();
        state := state.(lastUsed := state.lastUsed[v := t]);
        LandedLater(config, disk, calm, leeway, h, host, v);
      }
      state := state.(runs := state.runs[v := state.runs[v].(phase := Running)]);
      RunningIsSafe(disk.leases, disk.runs, host.guests, v);
      LeaseSame(disk.leases, leaseLog, minted);
      ghost var d := PromisesOf(disk);
      var saved := Save();
      if saved.Err? {
        return saved;
      }
      if old(Sound()) {
        RunningReleasesEnvelope(config, d, host.guests, host.available, v);
      }
      r := Ok(());
    }

    /** Boots the guest for its current lease, or reconnects to it; records come before effects. */
    method Start(v: Vm, holder: Holder, memoryMib: int) returns (r: Result<bool>)
      requires Loaded()
      modifies this
      ensures Stepped() && (r != Err(Killed) ==> Loaded())
      ensures state.deferred == old(state).deferred
      ensures disk.leases == old(disk).leases && disk.snapshots == old(disk).snapshots
      ensures disk.faults == old(disk).faults
      ensures r.Ok? ==> StartedFor(old(disk), disk, v, holder, memoryMib, r.value)
      ensures r.Ok? ==> !Invalidated(old(disk).faults, v, holder)
      ensures old(Sound()) ==> Sound()
      ensures r == Ok(true) && calm ==> Sound()
    {
      hide Valid, Sound, SnapshotSafe, LeaseSafe, BootSafe, Invalidated, Evolves, Adopted, AllMeasured, StartedFor;
      var _ :- RequireLease(v, holder, false);
      var status :- StatusOf(v);
      ghost var h := host;
      Parts();
      if !status.Up() {
        StoppedReadback(disk.leases, disk.runs, host.guests, v);
      }
      var cfg :- Owned(v);
      if status.Up() {
        LandedLater(config, disk, calm, leeway, h, host, v);
        r := Reconnect(v, holder, memoryMib, cfg.vmgenid);
        return;
      }
      if cfg.template {
        return Err(RuntimeError);
      }
      r := ColdStart(v, holder, memoryMib, cfg.vmgenid);
    }

    /** Records a guest that is up as running, if it is the one of this lease. */
    method Reconnect(v: Vm, holder: Holder, memoryMib: int, vmgenid: int) returns (r: Result<bool>)
      requires Loaded() && v in host.guests && host.guests[v].pending == multiset{}
      requires v in disk.leases && disk.leases[v].holder == holder
      modifies this
      ensures Stepped() && (r != Err(Killed) ==> Loaded()) && r != Ok(true)
      ensures state.deferred == old(state).deferred
      ensures disk.leases == old(disk).leases && disk.snapshots == old(disk).snapshots
      ensures disk.faults == old(disk).faults
      ensures r.Ok? ==> StartedFor(old(disk), disk, v, holder, memoryMib, false)
      ensures old(Sound()) ==> Sound()
    {
      hide Valid, Sound;
      if v !in state.runs || state.runs[v].generation != state.leases[v].generation || state.runs[v].holder != holder
         || state.runs[v].vmgenid != vmgenid || state.runs[v].phase == Quiesced {
        return Err(RuntimeError);
      }
      var _ :- MarkRunning(v, false);
      r := Ok(false);
    }

    method ColdStart(v: Vm, holder: Holder, memoryMib: int, vmgenid: int) returns (r: Result<bool>)
      requires Loaded() && v in disk.leases && disk.leases[v].holder == holder && !Invalidated(disk.faults, v, holder)
      requires v in host.guests && (MayBeStarting(disk.runs, v) || host.guests[v].Quiet())
      modifies this
      ensures Stepped() && (r != Err(Killed) ==> Loaded())
      ensures state.deferred == old(state).deferred
      ensures disk.leases == old(disk).leases && disk.snapshots == old(disk).snapshots
      ensures disk.faults == old(disk).faults
      ensures r.Ok? ==> r.value && StartedFor(old(disk), disk, v, holder, memoryMib, true)
      ensures old(Sound()) ==> Sound()
      ensures r.Ok? && calm ==> Sound()
    {
      hide Valid, Sound, Evolves, BootSafe, Owed, Active, Invalidated;
      var decision :- Preflight(v, memoryMib);
      var run := Run(holder, state.leases[v].generation, vmgenid, Starting, BOOT_MEMORY_MIB);
      var _ :- RecordStart(v, run, memoryMib, decision.sample);
      var _ :- Launch(v, run);
      r := Ok(true);
    }

    /** Issues the start of a saved intent, and records that it runs. */
    method Launch(v: Vm, run: Run) returns (r: Result<()>)
      requires Loaded() && v in host.guests && host.guests[v].Quiet()
      requires v in disk.runs && disk.runs[v] == run && run.phase == Starting
      requires v in disk.leases && run.generation == disk.leases[v].generation && run.holder == disk.leases[v].holder
      requires !Invalidated(disk.faults, v, run.holder)
      modifies this
      ensures Stepped() && (r != Err(Killed) ==> Loaded())
      ensures state.deferred == old(state).deferred
      ensures disk.leases == old(disk).leases && disk.snapshots == old(disk).snapshots
      ensures disk.faults == old(disk).faults
      ensures r.Ok? ==> disk.runs == old(disk).runs[v := run.(phase := Running)] && disk.requests == old(disk).requests
      ensures old(Sound()) ==> Sound()
    {
      hide Valid, Sound, Evolves, BootSafe, Invalidated;
      var _ :- Call();
      var _ :- QmStart(v, Boot(run.generation, run.holder));
      r := MarkRunning(v, true);
    }

    /** Admission, the network checks, and admission again; the slot is quiet throughout. */
    method Preflight(v: Vm, memoryMib: int) returns (r: Result<Decision>)
      requires Loaded()
      requires v in host.guests && (MayBeStarting(disk.runs, v) || host.guests[v].Quiet())
      modifies this`tick, this`host, this`trace
      ensures Valid() && old(trace) <= trace && (old(Sound()) ==> Sound())
      ensures r.Ok? ==> 2048 <= memoryMib <= BOOT_MEMORY_MIB && v in host.guests && host.guests[v].Quiet()
      ensures r.Ok? && calm ==>
                && host.available - BOOT_MEMORY_MIB - MARGIN_MIB
                   - Owed(PromisesOf(disk), config.slots, host.guests, Some(v))
                   >= config.reserveMib + GUARD_MIB
                && Active(PromisesOf(disk), config.slots, host.guests, Some(v)) < config.maxActive
    {
      hide SnapshotSafe, LeaseSafe, Evolves, Kept, Traced, BootSafe, Adopted;
      var _ :- FenceStarting(v);
      var decision :- Resources(memoryMib, Some(v), LeasePurpose(v), true);
      if !decision.allowed {
        return Err(CapacityUnavailable);
      }
      if !config.networkCheck {
        return Err(RuntimeError);
      }
      var _ :- Call();
      var _ :- Call();
      decision :- Resources(memoryMib, Some(v), LeasePurpose(v), true);
      if !decision.allowed {
        return Err(CapacityUnavailable);
      }
      r := Ok(decision);
    }

    /** Saves the intent to boot before the host hears of it. */
    method RecordStart(v: Vm, run: Run, memoryMib: nat, sample: Sample) returns (r: Result<()>)
      requires Loaded() && v in host.guests && host.guests[v].Quiet()
      requires v in disk.leases && run.generation == disk.leases[v].generation && run.holder == disk.leases[v].holder
      requires run.phase == Starting && run.startupMib == BOOT_MEMORY_MIB && memoryMib <= BOOT_MEMORY_MIB
      requires calm ==>
                 && host.available - BOOT_MEMORY_MIB - MARGIN_MIB
                    - Owed(PromisesOf(disk), config.slots, host.guests, Some(v))
                    >= config.reserveMib + GUARD_MIB
                 && Active(PromisesOf(disk), config.slots, host.guests, Some(v)) < config.maxActive
      modifies this
      ensures Stepped() && (r.Ok? ==> Loaded()) && (r.Err? ==> r == Err(Killed))
      ensures state.deferred == old(state).deferred
      ensures disk.leases == old(disk).leases && disk.snapshots == old(disk).snapshots
      ensures disk.faults == old(disk).faults
      ensures v in host.guests && host.guests[v].Quiet()
      ensures r.Ok? ==> disk.runs == old(disk).runs[v := run] && disk.requests == old(disk).requests[v := memoryMib]
      ensures r.Err? ==> PromisesOf(disk) == PromisesOf(old(disk))
      ensures r.Ok? && calm ==> Sound()
      ensures old(Sound()) ==> Sound()
    {
      hide SnapshotSafe, LeaseSafe, Evolves, Kept, Traced, BootSafe, Adopted;
      state := state.(
        runs := state.runs[v := run], requests := state.requests[v := memoryMib],
        baseline := if state.baseline.Some? then state.baseline else Some(sample), sample := Some(sample));
      QuietSlotIsFree(disk.leases, disk.runs, host.guests, v, state.leases, state.runs);
      LeaseSame(disk.leases, leaseLog, minted);
      ghost var d, h := disk, host;
      var saved := Save();
      if saved.Err? {
        return saved;
      }
      if calm {
        AdmissionKeeps(config, d, leeway, h, host, v);
        AdmittedStartKeeps(config, PromisesOf(d), host.guests, host.available, v, run, memoryMib);
      }
      r := Ok(());
    }

    /** Moves a running guest to a new balloon target; growth needs the same admission as a start. The headroom is kept
        if the host leaves the balloon alone meanwhile, or if it fitted the target before the call. */
    method Resize(v: Vm, holder: Holder, memoryMib: int) returns (r: Result<bool>)
      requires Loaded()
      modifies this
      ensures Stepped() && (r != Err(Killed) ==> Loaded())
      ensures disk.leases == old(disk).leases && disk.runs == old(disk).runs
      ensures disk.snapshots == old(disk).snapshots && disk.faults == old(disk).faults
      ensures r.Ok? ==> !Invalidated(old(disk).faults, v, holder) && v in disk.leases && disk.leases[v].holder == holder
      ensures r.Ok? ==> 2048 <= memoryMib <= BOOT_MEMORY_MIB && disk.requests == old(disk).requests[v := memoryMib]
      ensures calm && old(ForeseenNow(v, memoryMib)) ==> Sound()
      ensures (still || old(AnchoredNow(v, memoryMib))) && (old(Sound()) || (calm && r == Ok(true))) ==> Sound()
    {
      hide SnapshotSafe, LeaseSafe, Affords, Traced, BootSafe, Invalidated, Adopted, SameCore, Anchored, Foreseen;
      leeway := leeway.(held := if still then {v} else {});
      r := ResizeHeld(v, holder, memoryMib);
      leeway := leeway.(held := {});
    }

    ghost predicate ForeseenNow(v: Vm, memoryMib: int)
      reads this
    {
      Foreseen(config, PromisesOf(disk), host.guests, host.available, v, Max(0, memoryMib))
    }

    ghost predicate AnchoredNow(v: Vm, memoryMib: int)
      reads this
    {
      Anchored(config, PromisesOf(disk), host.guests, v, Max(0, memoryMib))
    }

    method ResizeHeld(v: Vm, holder: Holder, memoryMib: int) returns (r: Result<bool>)
      requires Loaded()
      modifies this
      ensures Stepped() && (r != Err(Killed) ==> Loaded()) && leeway == old(leeway)
      ensures disk.leases == old(disk).leases && disk.runs == old(disk).runs
      ensures disk.snapshots == old(disk).snapshots && disk.faults == old(disk).faults
      ensures r.Ok? ==> !Invalidated(old(disk).faults, v, holder) && v in disk.leases && disk.leases[v].holder == holder
      ensures r.Ok? ==> 2048 <= memoryMib <= BOOT_MEMORY_MIB && disk.requests == old(disk).requests[v := memoryMib]
      ensures calm && old(ForeseenNow(v, memoryMib)) ==> Sound()
      ensures (v in leeway.held || old(AnchoredNow(v, memoryMib))) && (old(Sound()) || (calm && r == Ok(true))) ==>
                Sound()
    {
      hide Valid, Kept, Invalidated, Evolves, Affords, Covers, AllMeasured, Foreseen, Anchored, BootSafe, Adopted,
        LeaseSafe;
      Parts();
      if calm && ForeseenNow(v, memoryMib) {
        ForeseenIsSound(v, memoryMib);
      }
      var _ :- RequireLease(v, holder, false);
      var decided, h, covered, growth := DecideResize(v, memoryMib, old(host));
      if decided.Err? {
        return Err(decided.error);
      }
      var _ :- RecordResize(v, memoryMib, decided.value, old(host), h, covered, growth);
      var _ :- Apply(v);
      r := Ok(decided.value.Some?);
    }

    lemma ForeseenIsSound(v: Vm, memoryMib: int)
      requires calm && ForeseenNow(v, memoryMib)
      ensures Sound()
    {
    }

    /** Reads the slot and decides, in a call that began at `from`; an allowed growth comes with its sample. `h` is the
        host of the reading, and `growth` covers the target if `covered`. */
    method DecideResize(v: Vm, memoryMib: int, ghost from: Host)
      returns (r: Result<Option<Sample>>, ghost h: Host, ghost covered: bool, ghost growth: nat)
      requires Loaded() && BootSafe(disk.leases, disk.runs, from.guests)
      requires Evolves(config, PromisesOf(disk), calm, leeway, from, host)
      modifies this`tick, this`host, this`trace
      ensures Observed()
      ensures r.Ok? ==>
                && 2048 <= memoryMib <= BOOT_MEMORY_MIB && v in h.guests && h.guests[v].Up() && v in from.guests
                && (calm && v in config.slots ==> Measured(h.guests[v].telemetry))
                && Evolves(config, PromisesOf(disk), calm, leeway, h, host)
                && Evolves(config, PromisesOf(disk), calm, leeway, from, host)
                && (covered ==> Afforded(v, memoryMib, from.guests[v], h.guests[v].telemetry, growth))
                && (calm && (|| Foreseen(config, PromisesOf(disk), from.guests, from.available, v, memoryMib)
                             || ((v in leeway.held || Anchored(config, PromisesOf(disk), from.guests, v, memoryMib))
                                 && (r.value.Some? || old(Sound()))))
                    ==> covered)
    {
      hide SnapshotSafe, LeaseSafe, Affords, Traced, BootSafe, QuietKept, Evolves, Owed, Active, Adopted, Covers,
        Foreseen, Anchored;
      h, covered, growth := host, false, 0;
      var status :- StatusOf(v);
      EvolvesTransitive(config, PromisesOf(disk), calm, leeway, from, old(host), host);
      if !status.Up() || !(2048 <= memoryMib <= BOOT_MEMORY_MIB) || status.telemetry.balloon.None? {
        return Err(RuntimeError), h, covered, growth;
      }
      h := host;
      var actual := status.telemetry.balloon.value;
      var delta := GrowthOver(PromisesOf(state), v, status.telemetry, memoryMib);
      var actualGrowth := Max(0, memoryMib - actual / MIB);
      var decision := Resources(2048, None, LeasePurpose(v), false);
      EvolvesTransitive(config, PromisesOf(disk), calm, leeway, from, h, host);
      EvolvesTransitive(config, PromisesOf(disk), calm, leeway, old(host), h, host);
      if decision.Err? {
        return Err(decision.error), h, covered, growth;
      }
      var d := decision.value;
      var allowed := d.availableMib - delta - d.reservedGrowthMib >= config.reserveMib + GUARD_MIB
                     && d.safety == [] && d.active <= config.maxActive;
      if (delta > 0 || actualGrowth > 0) && !allowed {
        return Err(CapacityUnavailable), h, covered, growth;
      }
      if calm && allowed {
        DecisionAffords(config, PromisesOf(disk), host, d, delta);
      }
      SameGuests(config, PromisesOf(disk), calm, leeway, from, h);
      covered, growth := Coverage(v, memoryMib, allowed, from, h);
      r := Ok(if allowed then Some(d.sample) else None);
    }

    /** The host affords a growth that covers the target. */
    ghost predicate Afforded(v: Vm, memoryMib: nat, first: Guest, t: Telemetry, growth: nat)
      reads this
    {
      && calm && (v in config.slots ==> Covers(PromisesOf(disk), leeway, v, first, t, memoryMib, growth))
      && Affords(config, PromisesOf(disk), host.guests, host.available, growth)
    }

    /** The growth that the decision just made leaves room for, if any. */
    ghost method Coverage(v: Vm, memoryMib: nat, allowed: bool, from: Host, h: Host)
      returns (covered: bool, growth: nat)
      requires Loaded() && v in from.guests && v in h.guests && h.guests[v].Up() && h.guests[v].telemetry.balloon.Some?
      requires Evolves(config, PromisesOf(disk), calm, leeway, from, h)
      requires Evolves(config, PromisesOf(disk), calm, leeway, from, host)
      requires BootSafe(disk.leases, disk.runs, from.guests)
      requires var delta := GrowthOver(PromisesOf(disk), v, h.guests[v].telemetry, memoryMib);
               if allowed then calm ==> Affords(config, PromisesOf(disk), host.guests, host.available, delta)
               else delta == 0
      ensures covered <==>
                calm && (|| Foreseen(config, PromisesOf(disk), from.guests, from.available, v, memoryMib)
                         || ((v in leeway.held || Anchored(config, PromisesOf(disk), from.guests, v, memoryMib))
                             && (allowed || Sound())))
      ensures covered ==> Afforded(v, memoryMib, from.guests[v], h.guests[v].telemetry, growth)
    {
      hide Affords, BootSafe, SnapshotSafe, LeaseSafe, Traced, Adopted, WorstGrowth, LeastGrowth, Moves;
      var p, g := PromisesOf(disk), from.guests[v];
      var foreseen := Foreseen(config, p, from.guests, from.available, v, memoryMib);
      covered := calm && (foreseen || ((v in leeway.held || Anchored(config, p, from.guests, v, memoryMib))
                                       && (allowed || Sound())));
      growth := if foreseen then WorstGrowth(p, v, g, memoryMib)
        else GrowthOver(p, v, h.guests[v].telemetry, memoryMib);
      if calm && foreseen {
        AffordsLater(config, disk.leases, p, from.guests, from.available, host.guests, host.available, growth);
      } else if calm && v in config.slots {
        assert Moves(p, leeway, v, g, h.guests[v]);
        ReadGrowth(p, leeway, v, g, h.guests[v], memoryMib);
      }
    }

    /** Hands the saved target to the host. */
    method Apply(v: Vm) returns (r: Result<()>)
      requires Loaded()
      modifies this
      ensures Stepped() && (r != Err(Killed) ==> Loaded())
      ensures SameCore(disk, old(disk)) && leeway == old(leeway)
      ensures old(Sound()) ==> Sound()
    {
      hide Valid, Sound, Evolves, QuietKept;
      var _ :- Call();
      r := Touch(v);
    }

    method Touch(v: Vm) returns (r: Result<()>)
      requires Loaded()
      modifies this
      ensures Stepped() && (r != Err(Killed) ==> Loaded())
      ensures SameCore(disk, old(disk))
      ensures old(Sound()) ==> Sound()
      ensures leeway == old(leeway)
    {
      hide Evolves, BootSafe, SnapshotSafe, LeaseSafe, Kept, Traced, QuietKept, Adopted;
      var t := Now();
      state := state.(lastUsed := state.lastUsed[v := t]);
      r := Resave();
    }

    /** Saves the new target; the call began at `from`, the slot was read at `h`, and `growth` covers the target if
        `covered`. */
    method RecordResize(
      v: Vm, memoryMib: nat, sample: Option<Sample>, ghost from: Host, ghost h: Host, ghost covered: bool,
      ghost growth: nat)
      returns (r: Result<()>)
      requires Loaded() && v in h.guests && h.guests[v].Up() && v in from.guests
      requires calm && v in config.slots ==> Measured(h.guests[v].telemetry)
      requires Evolves(config, PromisesOf(disk), calm, leeway, h, host)
      requires Evolves(config, PromisesOf(disk), calm, leeway, from, host)
      requires covered ==> Afforded(v, memoryMib, from.guests[v], h.guests[v].telemetry, growth)
      modifies this
      ensures Stepped() && (r.Ok? ==> Loaded()) && (r.Err? ==> r == Err(Killed)) && leeway == old(leeway)
      ensures disk.leases == old(disk).leases && disk.runs == old(disk).runs
      ensures disk.snapshots == old(disk).snapshots && disk.faults == old(disk).faults
      ensures disk.requests == if r.Ok? then old(disk).requests[v := memoryMib] else old(disk).requests
      ensures covered || (r.Err? && old(Sound())) ==> Sound()
    {
      hide SnapshotSafe, LeaseSafe, Traced, BootSafe, Affords, Covers, Adopted;
      state := state.(
        requests := state.requests[v := memoryMib], sample := if sample.Some? then sample else state.sample);
      LeaseSame(disk.leases, leaseLog, minted);
      ghost var d, h1 := disk, host;
      if covered {
        AffordsLess(config, PromisesOf(d), h1.guests, h1.available, growth);
      }
      var saved := Save();
      if saved.Err? {
        return saved;
      }
      if covered {
        EvolvesTransitive(config, PromisesOf(d), calm, leeway, h, h1, host);
        EvolvesTransitive(config, PromisesOf(d), calm, leeway, from, h1, host);
        ResizeKeeps(config, d, leeway, from, h, h1, host, v, memoryMib, growth);
      }
      r := Ok(());
    }

    /** Ends the holder's lease once its guest can no longer be running or on its way. */
    method Release(v: Vm, holder: Holder) returns (r: Result<()>)
      requires Loaded()
      modifies this
      ensures Stepped() && (r != Err(Killed) ==> Loaded())
      ensures PromisesOf(disk) == PromisesOf(old(disk))
      ensures disk.snapshots == old(disk).snapshots && disk.faults == old(disk).faults
      ensures r.Ok? ==> v in host.guests && host.guests[v].Quiet()
      ensures r.Ok? ==> v in old(disk).leases && v in disk.leases && disk.leases[v].expires <= host.now
                        && disk.leases == old(disk).leases[v := old(disk).leases[v].(expires := disk.leases[v].expires)]
      ensures r.Err? ==> disk.leases == old(disk).leases
      ensures old(Sound()) ==> Sound()
    {
      hide SnapshotSafe, LeaseSafe, Evolves, Kept, Traced, BootSafe, Adopted;
      var _ :- RequireLease(v, holder, true);
      var status :- StatusOf(v);
      if status.Up() {
        return Err(RuntimeError);
      }
      StoppedReadback(disk.leases, disk.runs, host.guests, v);
      var _ :- FenceStarting(v);
      var t := Now();
      var _ :- RecordLease(v, state.leases[v].(expires := t));
      r := Ok(());
    }

    /** Shuts a guest down and forgets its promises, but never before its start has finished. */
    method Stop(v: Vm) returns (r: Result<()>)
      requires Loaded()
      modifies this
      ensures Stepped() && (r != Err(Killed) ==> Loaded())
      ensures disk.leases == old(disk).leases && disk.snapshots == old(disk).snapshots
      ensures disk.faults == old(disk).faults
      ensures SameOthers(old(disk), disk, v)
      ensures r.Ok? ==> v in host.guests && host.guests[v].Quiet() && !Promised(PromisesOf(disk), v)
      ensures r.Ok? ==> disk.runs == QuiescedRuns(old(disk).runs, v) && disk.requests == old(disk).requests - {v}
      ensures r.Err? ==> PromisesOf(disk) == PromisesOf(old(disk))
      ensures state.lastUsed == old(state.lastUsed)
      ensures old(Sound()) ==> Sound()
      ensures r.Ok? && old(Sound()) && (forall u <- config.slots :: !Lost(PromisesOf(disk), host.guests, u)) ==>
                Retained(config, PromisesOf(disk), host.guests, host.available)
    {
      hide SnapshotSafe, LeaseSafe, Evolves, Kept, Traced, BootSafe, QuietKept, Adopted, Lost,
        Retained;
      var status :- StatusOf(v);
      if status.Up() {
        status :- Shutdown(v);
      } else {
        status :- StatusOf(v);
      }
      if status.Up() {
        return Err(RuntimeError);
      }
      StoppedReadback(disk.leases, disk.runs, host.guests, v);
      var _ :- FenceStarting(v);
      r := RecordQuiesced(v);
      RetainedIffLostAreCovered(config, PromisesOf(disk), host.guests, host.available);
    }

    /** Tells a guest to shut down, and reads it again. */
    method Shutdown(v: Vm) returns (r: Result<Guest>)
      requires Loaded()
      modifies this`tick, this`host, this`trace, this`leeway
      ensures Valid() && old(trace) <= trace && leeway == old(leeway) && (old(Sound()) ==> Sound())
      ensures r.Ok? ==> v in host.guests && r.value == host.guests[v]
    {
      hide SnapshotSafe, LeaseSafe, Evolves, Kept, Traced, BootSafe, QuietKept, Adopted;
      leeway := leeway.(falling := {v});
      var called := Call();
      if called.Ok? {
        r := StatusOf(v);
      } else {
        r := Err(called.error);
      }
      leeway := leeway.(falling := {});
    }

    method RecordQuiesced(v: Vm) returns (r: Result<()>)
      requires Loaded() && v in host.guests && host.guests[v].Quiet()
      modifies this
      ensures Stepped() && (r != Err(Killed) ==> Loaded())
      ensures disk.leases == old(disk).leases && disk.snapshots == old(disk).snapshots
      ensures disk.faults == old(disk).faults
      ensures SameOthers(old(disk), disk, v)
      ensures v in host.guests && host.guests[v].Quiet()
      ensures r.Ok? ==> !Promised(PromisesOf(disk), v)
      ensures r.Ok? ==> disk.runs == QuiescedRuns(old(disk).runs, v) && disk.requests == old(disk).requests - {v}
      ensures r.Err? ==> PromisesOf(disk) == PromisesOf(old(disk))
      ensures state.lastUsed == old(state.lastUsed)
      ensures old(Sound()) ==> Sound()
    {
      hide SnapshotSafe, LeaseSafe, Evolves, Kept, Traced, BootSafe, Adopted;
      state := state.(runs := QuiescedRuns(state.runs, v), requests := state.requests - {v});
      QuiescedOthers(disk, state, v);
      QuietSlotIsFree(disk.leases, disk.runs, host.guests, v, state.leases, state.runs);
      LeaseSame(disk.leases, leaseLog, minted);
      ghost var d := PromisesOf(disk);
      var _ :- Save();
      QuietSlotFreesMemory(config, d, host.guests, host.available, v, PromisesOf(disk));
      r := Ok(());
    }

    /** Queues a start; the same holder gets its own request back, unchanged. */
    method DeferStart(
      v: Vm, holder: Holder, seconds: int, memoryMib: int, purpose: Purpose) returns (r: Result<Request>)
      requires Loaded() && state == disk
      modifies this
      ensures Stepped() && (r != Err(Killed) ==> Loaded())
      ensures SameCore(disk, old(disk))
      ensures r.Ok? ==> v in disk.deferred && disk.deferred[v] == r.value && r.value.holder == holder
                        && r.value.memoryMib == memoryMib
      ensures old(Sound()) ==> Sound()
      ensures r.Ok? ==> disk.deferred == old(disk).deferred[v := r.value] && RequestPurpose(r.value) == purpose
    {
      hide SnapshotSafe, LeaseSafe, Evolves, Kept, Traced, BootSafe, QuietKept, Adopted;
      var _ :- Owned(v);
      if !ValidHolder(holder) || !(60 <= seconds <= 14400) || !(2048 <= memoryMib <= BOOT_MEMORY_MIB) {
        return Err(ValueError);
      }
      var t := Now();
      var live := v in state.leases && state.leases[v].expires > t;
      if live && state.leases[v].holder != holder {
        return Err(RuntimeError);
      }
      t := Now();
      live := v in state.leases && state.leases[v].expires > t;
      if live && LeasePurpose(v) != purpose {
        return Err(RuntimeError);
      }
      var current := Get(state.deferred, v);
      if current.Some? && current.value.holder == holder {
        if current.value.memoryMib != memoryMib || RequestPurpose(current.value) != purpose {
          return Err(RuntimeError);
        }
        return Ok(current.value);
      }
      t := Now();
      if current.Some? && current.value.state == Pending && current.value.expires > t {
        return Err(RuntimeError);
      }
      r := RecordDeferred(v, holder, seconds, memoryMib, purpose);
    }

    method RecordDeferred(
      v: Vm, holder: Holder, seconds: int, memoryMib: int, purpose: Purpose) returns (r: Result<Request>)
      requires Loaded() && state == disk
      modifies this
      ensures Stepped() && (r != Err(Killed) ==> Loaded())
      ensures SameCore(disk, old(disk))
      ensures r.Ok? ==> v in disk.deferred && disk.deferred[v] == r.value && r.value.holder == holder
                        && r.value.memoryMib == memoryMib
      ensures old(Sound()) ==> Sound()
      ensures r.Ok? ==> disk.deferred == old(disk).deferred[v := r.value] && RequestPurpose(r.value) == purpose
    {
      hide SnapshotSafe, LeaseSafe, Evolves, Kept, Traced, BootSafe, QuietKept, Adopted;
      var status :- StatusOf(v);
      if status.Up() {
        return Err(RuntimeError);
      }
      var t := Now();
      var request := Request(holder, memoryMib, t + seconds, Pending, Some(purpose));
      state := state.(deferred := state.deferred[v := request]);
      LeaseSame(disk.leases, leaseLog, minted);
      var _ :- Save();
      r := Ok(request);
    }

    function RequestPurpose(q: Request): Purpose {
      if q.purpose.Some? then q.purpose.value else Measurement
    }

    // ----- Snapshots -----

    /** Whether a snapshot task of `v` is unfinished; every unfinished snapshot effect is listed. */
    method SnapshotTasks(v: Vm) returns (r: Result<bool>)
      requires Valid()
      modifies this`tick, this`host, this`trace
      ensures Observed()
      ensures r == Ok(false) ==> Settled(host.snaps, v)
    {
      hide Evolves, BootSafe, SnapshotSafe, LeaseSafe, Kept, Traced, QuietKept, Adopted;
      var m :- Call();
      r := Ok(m.busy || !Settled(host.snaps, v));
    }

    method ListSnapshot(k: Key) returns (r: Result<Option<Owner>>)
      requires Valid() && Settled(host.snaps, k.0)
      modifies this`tick, this`host, this`trace, this`seen, this`listed
      ensures Observed() && Settled(host.snaps, k.0)
      ensures r.Ok? ==> r.value == if k in host.snaps.present then Some(host.snaps.present[k]) else None
      ensures r.Ok? && r.value.Some? ==> seen == Some((k, r.value.value, tick))
      ensures listed == old(listed) + if r.Ok? && r.value.Some? then {(k, r.value.value)} else {}
    {
      hide BootSafe, SnapshotSafe, LeaseSafe, Kept, Traced, QuietKept, Calm, Adopted;
      var m :- Call();
      if k in host.snaps.present {
        seen := Some((k, host.snaps.present[k], tick));
        AdoptedMore(disk.snapshots, listed, (k, host.snaps.present[k]));
        listed := listed + {(k, host.snaps.present[k])};
        r := Ok(Some(host.snaps.present[k]));
      } else {
        r := Ok(None);
      }
    }

    /** Saves `snapshots` as the new table of records. */
    method SaveSnapshots(snapshots: map<Key, Snapshot>) returns (r: Result<()>)
      requires Loaded() && SnapshotSafe(snapshots, host.snaps, minted) && Adopted(snapshots, listed)
      modifies this
      ensures Stepped() && (r.Ok? ==> Loaded()) && (r.Err? ==> r == Err(Killed))
      ensures disk.leases == old(disk).leases && PromisesOf(disk) == PromisesOf(old(disk))
      ensures disk.faults == old(disk).faults
      ensures disk.snapshots == if r.Ok? then snapshots else old(disk).snapshots
      ensures SnapsRely(old(host).snaps, host.snaps) && minted == old(minted)
      ensures seen == old(seen) && listed == old(listed)
      ensures old(Sound()) ==> Sound()
    {
      hide BootSafe, SnapshotSafe, LeaseSafe, Kept, Traced, QuietKept, Calm, GuestsRely, SnapsRely, Adopted;
      state := state.(snapshots := snapshots);
      LeaseSame(disk.leases, leaseLog, minted);
      r := Save();
    }

    /** The owner noted on the external snapshot, read while no snapshot task is under way. */
    method ReadSnapshot(k: Key) returns (r: Result<Option<Owner>>)
      requires Valid()
      modifies this`tick, this`host, this`trace, this`seen, this`listed
      ensures Valid() && old(trace) <= trace && (old(Sound()) ==> Sound())
      ensures r.Ok? ==> Settled(host.snaps, k.0)
      ensures r.Ok? ==> r.value == if k in host.snaps.present then Some(host.snaps.present[k]) else None
      ensures r.Ok? && r.value.Some? ==> seen == Some((k, r.value.value, tick))
      ensures old(listed) <= listed && (r.Ok? && r.value.Some? ==> (k, r.value.value) in listed)
    {
      hide Valid, Sound, Evolves, QuietKept, Settled;
      var cfg :- Owned(k.0);
      if cfg.lock {
        return Err(RuntimeError);
      }
      var busy :- SnapshotTasks(k.0);
      if busy {
        return Err(RuntimeError);
      }
      r := ListSnapshot(k);
    }

    /** The last snapshot that was listed is the one of this name, and it carries this owner. */
    ghost predicate Seen(k: Key, owner: Owner)
      reads this
    {
      seen.Some? && seen.value.0 == k && seen.value.1 == owner && (k, owner) in listed
    }

    /** Brings one record in line with the host: a finished creation becomes ready only when the external
        snapshot carries this record's own owner, and a finished deletion forgets the record. */
    method ReconcileSnapshot(v: Vm, name: string) returns (r: Result<Option<Snapshot>>)
      requires Loaded()
      modifies this
      ensures Stepped() && (r != Err(Killed) ==> Loaded())
      ensures disk.leases == old(disk).leases && PromisesOf(disk) == PromisesOf(old(disk))
      ensures disk.faults == old(disk).faults
      ensures SameExcept(disk.snapshots, old(disk).snapshots, (v, name))
      ensures (v, name) in disk.snapshots ==> (v, name) in old(disk).snapshots
      ensures r.Ok? && r.value.None? ==> (v, name) !in disk.snapshots
      ensures r.Ok? && r.value.Some? ==>
                && (v, name) in disk.snapshots && disk.snapshots[(v, name)] == r.value.value && Settled(host.snaps, v)
                && r.value.value == old(disk).snapshots[(v, name)].(state := r.value.value.state)
                && (old(disk).snapshots[(v, name)].state == Deleting ==> r.value.value.state == Deleting)
                && (r.value.value.state == Deleting ==> seen == Some(((v, name), r.value.value.owner, tick)))
                && (r.value.value.state == Ready ==> Seen((v, name), r.value.value.owner))
      ensures old(Sound()) ==> Sound()
    {
      hide Valid, Sound, PromisesOf, BootSafe, SnapshotSafe, LeaseSafe, QuietKept, Evolves, Adopted;
      var key := (v, name);
      if key !in state.snapshots {
        return Ok(None);
      }
      var record := state.snapshots[key];
      var external :- ReadSnapshot(key);
      if external.Some? {
        if external.value != record.owner {
          return Err(RuntimeError);
        }
        if record.state == Creating {
          Parts();
          AdvanceRecord(disk.snapshots, host.snaps, minted, key, Ready);
          record := record.(state := Ready);
          OneRecord(state.snapshots, key, record);
          AdoptedReady(state.snapshots, listed, key, record);
          ghost var s := host.snaps;
          var _ :- SaveSnapshots(state.snapshots[key := record]);
          SettledLater(s, host.snaps, v);
        }
      } else if record.state == Deleting {
        Parts();
        DropRecord(disk.snapshots, host.snaps, minted, key);
        OneRecord(state.snapshots, key, record);
        AdoptedWithout(state.snapshots, listed, key, record);
        var _ :- SaveSnapshots(state.snapshots - {key});
        return Ok(None);
      } else if record.state == Ready {
        return Err(RuntimeError);
      }
      r := Ok(Some(record));
    }

    /** The host accepts a snapshot creation for a record that is waiting for one. */
    method QmSnapshot(k: Key) returns (r: Result<()>)
      requires Valid() && k in disk.snapshots && disk.snapshots[k].state == Creating
      modifies this`tick, this`host, this`trace
      ensures Valid() && old(trace) <= trace
      ensures old(Sound()) ==> Sound()
    {
      hide BootSafe, SnapshotSafe, LeaseSafe, Kept, Traced, QuietKept, Evolves, AllMeasured, Adopted;
      ghost var h := host;
      AcceptedEffects(disk.snapshots, host.snaps, minted, k);
      host := host.(snaps := host.snaps.(creates := host.snaps.creates + {(k, disk.snapshots[k].owner)}));
      InstantNow(disk, host, minted, listed);
      TracedOn(trace, disk, h, disk, host, listed);
      trace := trace + [InstantOf(disk, host, listed)];
      var m := Call();
      r := if m.Err? then Err(m.error) else Ok(());
    }

    /** The host accepts a deletion, issued only right after the record's own snapshot was listed. */
    method QmDelSnapshot(k: Key) returns (r: Result<()>)
      requires Valid() && k in disk.snapshots && disk.snapshots[k].state == Deleting
      requires seen == Some((k, disk.snapshots[k].owner, tick))
      modifies this`tick, this`host, this`trace
      ensures Valid() && old(trace) <= trace
      ensures old(Sound()) ==> Sound()
    {
      hide BootSafe, SnapshotSafe, LeaseSafe, Kept, Traced, QuietKept, Evolves, AllMeasured, Adopted;
      ghost var h := host;
      AcceptedEffects(disk.snapshots, host.snaps, minted, k);
      host := host.(snaps := host.snaps.(deletes := host.snaps.deletes + {k}));
      InstantNow(disk, host, minted, listed);
      TracedOn(trace, disk, h, disk, host, listed);
      trace := trace + [InstantOf(disk, host, listed)];
      var m := Call();
      r := if m.Err? then Err(m.error) else Ok(());
    }

    /** Tracks a new snapshot before the host hears of it. */
    method RecordSnapshot(k: Key, preserve: bool) returns (r: Result<()>)
      requires Loaded() && k !in disk.snapshots
      modifies this
      ensures Stepped() && (r != Err(Killed) ==> Loaded())
      ensures disk.leases == old(disk).leases && disk.faults == old(disk).faults
      ensures SameExcept(disk.snapshots, old(disk).snapshots, k)
      ensures r.Ok? ==> k in disk.snapshots && disk.snapshots[k].state == Creating
      ensures r.Ok? ==> disk.snapshots[k].preserve == preserve && disk.snapshots[k].owner == Effect(old(minted))
      ensures PromisesOf(disk) == PromisesOf(old(disk)) && (old(Sound()) ==> Sound())
    {
      hide BootSafe, SnapshotSafe, LeaseSafe, Kept, Traced, QuietKept, Evolves, Adopted;
      var external := Call();
      if external.Err? {
        return Err(external.error);
      }
      if k in host.snaps.present {
        return Err(RuntimeError);
      }
      var t := Now();
      var record := Snapshot(t + 86400, preserve, Effect(minted), Creating);
      NewRecord(disk.snapshots, host.snaps, minted, k, record);
      SnapshotSafeMinted(disk.snapshots, host.snaps, minted);
      LeaseSafeMinted(disk.leases, leaseLog, minted);
      minted := minted + 1;
      AdoptedWithout(state.snapshots, listed, k, record);
      r := SaveSnapshots(state.snapshots[k := record]);
    }

    method TakeSnapshot(v: Vm, holder: Holder, name: string, preserve: bool) returns (r: Result<Snapshot>)
      requires Loaded()
      modifies this
      ensures Stepped() && (r != Err(Killed) ==> Loaded())
      ensures disk.leases == old(disk).leases && disk.faults == old(disk).faults
      ensures SameExcept(disk.snapshots, old(disk).snapshots, (v, name))
      ensures r.Ok? ==> !Invalidated(old(disk).faults, v, holder)
      ensures r.Ok? ==> (v, name) in disk.snapshots && disk.snapshots[(v, name)] == r.value && r.value.state == Ready
      ensures r.Ok? && (v, name) !in old(disk).snapshots ==> r.value.preserve == preserve
      ensures r.Ok? ==> Seen((v, name), r.value.owner)
      ensures SameOthers(old(disk), disk, v) && (old(Sound()) ==> Sound())
    {
      hide Valid, Sound, QuietKept, Evolves, Invalidated, Settled;
      var _ :- RequireLease(v, holder, false);
      var _ :- Owned(v);
      if !ValidSnapshotName(name) {
        return Err(ValueError);
      }
      var key := (v, name);
      if key in state.snapshots {
        var known :- ReconcileSnapshot(v, name);
        if known.None? || known.value.state != Creating {
          if known.Some? && known.value.state == Ready {
            return Ok(known.value);
          }
          return Err(RuntimeError);
        }
      } else {
        var _ :- RecordSnapshot(key, preserve);
      }
      r := CreateSnapshot(v, name);
    }

    method CreateSnapshot(v: Vm, name: string) returns (r: Result<Snapshot>)
      requires Loaded() && (v, name) in disk.snapshots && disk.snapshots[(v, name)].state == Creating
      modifies this
      ensures Stepped() && (r != Err(Killed) ==> Loaded())
      ensures disk.leases == old(disk).leases && disk.faults == old(disk).faults
      ensures SameExcept(disk.snapshots, old(disk).snapshots, (v, name))
      ensures r.Ok? ==> (v, name) in disk.snapshots && disk.snapshots[(v, name)] == r.value && r.value.state == Ready
      ensures r.Ok? ==> r.value == old(disk).snapshots[(v, name)].(state := Ready)
      ensures r.Ok? ==> Seen((v, name), r.value.owner)
      ensures SameOthers(old(disk), disk, v) && (old(Sound()) ==> Sound())
    {
      hide Valid, Sound, QuietKept, Evolves, Settled;
      var _ :- Stop(v);
      var _ :- QmSnapshot((v, name));
      var record :- ReconcileSnapshot(v, name);
      if record.None? || record.value.state != Ready {
        return Err(RuntimeError);
      }
      r := Ok(record.value);
    }

    method Rollback(v: Vm, holder: Holder, name: string) returns (r: Result<()>)
      requires Loaded()
      modifies this
      ensures Stepped() && (r != Err(Killed) ==> Loaded())
      ensures disk.leases == old(disk).leases && disk.faults == old(disk).faults
      ensures SameExcept(disk.snapshots, old(disk).snapshots, (v, name))
      ensures r.Ok? ==> !Invalidated(old(disk).faults, v, holder)
      ensures r.Ok? ==> (v, name) in disk.snapshots && disk.snapshots[(v, name)].state == Ready
      ensures SameOthers(old(disk), disk, v) && (old(Sound()) ==> Sound())
    {
      hide Valid, Sound, QuietKept, Evolves, Invalidated, Settled;
      var _ :- RequireLease(v, holder, false);
      var _ :- Owned(v);
      var _ :- RequireReady(v, name);
      var _ :- Stop(v);
      var _ :- Call();
      r := Ok(());
    }

    /** A tracked snapshot whose own external snapshot was just listed. */
    method RequireReady(v: Vm, name: string) returns (r: Result<()>)
      requires Loaded()
      modifies this
      ensures Stepped() && (r != Err(Killed) ==> Loaded())
      ensures disk.leases == old(disk).leases && PromisesOf(disk) == PromisesOf(old(disk))
      ensures disk.faults == old(disk).faults
      ensures SameExcept(disk.snapshots, old(disk).snapshots, (v, name))
      ensures r.Ok? ==> (v, name) in disk.snapshots && disk.snapshots[(v, name)].state == Ready
      ensures r.Ok? ==> Seen((v, name), disk.snapshots[(v, name)].owner)
      ensures old(Sound()) ==> Sound()
    {
      hide Valid, Sound, Settled, SameExcept;
      var record :- ReconcileSnapshot(v, name);
      r := if record.None? || record.value.state != Ready then Err(RuntimeError) else Ok(());
    }

    /** Deletes a tracked, unpreserved snapshot; success means that it is gone and forgotten. */
    method DiscardSnapshot(v: Vm, holder: Holder, name: string) returns (r: Result<()>)
      requires Loaded()
      modifies this
      ensures Stepped() && (r != Err(Killed) ==> Loaded())
      ensures disk.leases == old(disk).leases && PromisesOf(disk) == PromisesOf(old(disk))
      ensures disk.faults == old(disk).faults
      ensures r.Ok? ==> !Invalidated(old(disk).faults, v, holder)
      ensures SameExcept(disk.snapshots, old(disk).snapshots, (v, name))
      ensures r.Ok? ==> (v, name) in old(disk).snapshots && !old(disk).snapshots[(v, name)].preserve
                        && (v, name) !in disk.snapshots
      ensures old(Sound()) ==> Sound()
    {
      hide Valid, Sound, PromisesOf, QuietKept, Evolves, Invalidated;
      var _ :- RequireLease(v, holder, false);
      var _ :- Owned(v);
      var key := (v, name);
      if key !in state.snapshots {
        return Err(RuntimeError);
      }
      if state.snapshots[key].preserve {
        return Err(RuntimeError);
      }
      r := DeleteSnapshot(v, name);
    }

    /** The deletion itself: reconcile, record the intent, reconcile again, delete, and prove it. */
    method DeleteSnapshot(v: Vm, name: string) returns (r: Result<()>)
      requires Loaded() && (v, name) in disk.snapshots && !disk.snapshots[(v, name)].preserve
      modifies this
      ensures Stepped() && (r != Err(Killed) ==> Loaded())
      ensures disk.leases == old(disk).leases && PromisesOf(disk) == PromisesOf(old(disk))
      ensures disk.faults == old(disk).faults
      ensures SameExcept(disk.snapshots, old(disk).snapshots, (v, name))
      ensures r.Ok? ==> (v, name) !in disk.snapshots
      ensures old(Sound()) ==> Sound()
    {
      hide Valid, Sound, PromisesOf, BootSafe, SnapshotSafe, LeaseSafe, QuietKept, Evolves, Settled, SnapsRely, Adopted;
      var key := (v, name);
      var first :- ReconcileSnapshot(v, name);
      if first.None? {
        return Ok(());
      }
      Parts();
      AdvanceRecord(disk.snapshots, host.snaps, minted, key, Deleting);
      OneRecord(state.snapshots, key, state.snapshots[key].(state := Deleting));
      AdoptedWithout(state.snapshots, listed, key, state.snapshots[key].(state := Deleting));
      var _ :- SaveSnapshots(state.snapshots[key := state.snapshots[key].(state := Deleting)]);
      r := FinishDeletion(v, name);
    }

    method FinishDeletion(v: Vm, name: string) returns (r: Result<()>)
      requires Loaded() && (v, name) in disk.snapshots && disk.snapshots[(v, name)].state == Deleting
      modifies this
      ensures Stepped() && (r != Err(Killed) ==> Loaded())
      ensures disk.leases == old(disk).leases && PromisesOf(disk) == PromisesOf(old(disk))
      ensures disk.faults == old(disk).faults
      ensures SameExcept(disk.snapshots, old(disk).snapshots, (v, name))
      ensures r.Ok? ==> (v, name) !in disk.snapshots
      ensures old(Sound()) ==> Sound()
    {
      hide Valid, Sound, PromisesOf, QuietKept, Evolves, Settled, SnapsRely;
      var found :- ReconcileSnapshot(v, name);
      if found.None? {
        return Ok(());
      }
      var _ :- QmDelSnapshot((v, name));
      var left :- ReconcileSnapshot(v, name);
      r := if left.Some? then Err(RuntimeError) else Ok(());
    }

    // ----- Guard and reap -----

    /** Everything the guard looks at before it acts. */
    method Observe() returns (r: Result<Watch>)
      requires Loaded()
      modifies this`tick, this`host, this`trace
      ensures Observed()
      ensures r.Ok? && old(Sound()) ==> ActiveLimit !in r.value.added
      ensures r.Ok? && calm && leeway == AllHeld(config.slots)
                && old(Spare(config, PromisesOf(disk), host.guests, host.available)) ==>
                RetentionHeadroom !in r.value.added
      ensures r.Ok? && calm && old(Ample(config, PromisesOf(disk), host.guests, host.available)) ==>
                RetentionHeadroom !in r.value.added
      ensures r.Ok? ==> forall v <- r.value.activity ::
                r.value.activity[v] == ActivityOf(PromisesOf(disk), v, r.value.activity[v].guest)
    {
      hide Kept, SnapshotSafe, LeaseSafe, Traced, BootSafe, Evolves, QuietKept, Sampled, Owed, Active, CapacitySafety,
        Calm, Adopted, Spare, Ample;
      ghost var h0 := host;
      var _ := Now();
      var before := host.available;
      ghost var h1 := host;
      var sampled := CapacitySample();
      EvolvesTransitive(config, PromisesOf(disk), calm, leeway, h0, h1, host);
      if sampled == Err(Killed) {
        return Err(Killed);
      }
      var safety := if sampled.Ok? then CapacitySafety(config, state, sampled.value, false, Functional)
                    else Safety([MeasurementUnavailable], []);
      ghost var h2 := host;
      var read := ReadAll();
      EvolvesTransitive(config, PromisesOf(disk), calm, leeway, h0, h2, host);
      if read.Err? {
        return Err(read.error);
      }
      if sampled.Err? {
        return Ok(Watch(safety.reasons, [], [], before, read.value, None));
      }
      ghost var h3 := host;
      StaysQuiet(h0, host, None);
      EvolvesTransitive(config, PromisesOf(disk), calm, leeway, h0, h1, h2);
      AllReadEarlier(config, PromisesOf(disk), calm, leeway, h0, h2, host, read.value);
      var own := OwnedCommitments(read.value, None, h0);
      EvolvesTransitive(config, PromisesOf(disk), calm, leeway, h0, h3, host);
      if own == Err(Killed) {
        return Err(Killed);
      }
      if own.Err? {
        return Ok(Watch(safety.reasons + [CommitmentsUnavailable], safety.growth, [CommitmentsUnavailable], before,
                        read.value, Some(sampled.value)));
      }
      ghost var h4 := host;
      if old(Sound()) {
        ActiveWithin(config, PromisesOf(disk), leeway, h0, host, own.value);
      }
      var _ := Now();
      EvolvesTransitive(config, PromisesOf(disk), calm, leeway, h0, h4, host);
      var available := Min(Min(before, sampled.value.availableMib), host.available);
      if calm && leeway == AllHeld(config.slots) && old(Spare(config, PromisesOf(disk), host.guests, host.available)) {
        SpareIsEnough(config, disk, h0, h1, h4, own.value);
        SpareIsEnough(config, disk, h0, h2, h4, own.value);
        SpareIsEnough(config, disk, h0, host, h4, own.value);
      }
      if calm && old(Ample(config, PromisesOf(disk), host.guests, host.available)) {
        AmpleIsEnough(config, disk, leeway, h0, h1, h4, own.value);
        AmpleIsEnough(config, disk, leeway, h0, h2, h4, own.value);
        AmpleIsEnough(config, disk, leeway, h0, host, h4, own.value);
      }
      var added :=
        (if available - own.value.headroomMib - MARGIN_MIB < config.reserveMib + GUARD_MIB then [RetentionHeadroom]
          else [])
        + (if own.value.active > config.maxActive then [ActiveLimit] else []);
      r := Ok(Watch(safety.reasons + added, safety.growth, added, available, read.value, Some(sampled.value)));
    }

    method ReadAll() returns (r: Result<map<Vm, Activity>>)
      requires Loaded()
      modifies this`tick, this`host, this`trace
      ensures Observed()
      ensures r.Ok? ==> AllRead(config, PromisesOf(disk), calm, leeway, old(host), host, r.value)
      ensures r.Ok? ==> forall v <- config.slots :: Promised(PromisesOf(disk), v) ==> v in r.value
    {
      hide Kept, SnapshotSafe, LeaseSafe, Traced, BootSafe, QuietKept, Calm, Adopted;
      var listing := Call();
      if listing.Err? {
        return Err(listing.error);
      }
      ghost var h1 := host;
      var read := OwnedActivity(false, listing.value.hints, true);
      EvolvesTransitive(config, PromisesOf(disk), calm, leeway, old(host), h1, host);
      if read.Err? {
        return Err(read.error);
      }
      AllReadEarlier(config, PromisesOf(disk), calm, leeway, old(host), h1, host, read.value);
      r := read;
    }

    /** Invalidates the current lease of an affected slot, durably and before the shutdown. */
    method GuardSlot(v: Vm, a: Activity, hard: seq<Reason>, growth: seq<Reason>) returns (r: Result<bool>)
      requires Loaded()
      modifies this
      ensures Stepped() && (r != Err(Killed) ==> Loaded())
      ensures disk.leases == old(disk).leases && disk.snapshots == old(disk).snapshots
      ensures r.Ok? && Condemned(disk.leases, v, a, hard, growth) ==>
              Invalidated(disk.faults, v, HolderAt(disk.leases, v))
      ensures old(Sound()) ==> Sound()
    {
      hide Valid, SameCore, Invalidated, KnownFault, Sound;
      var lease := Get(state.leases, v);
      var known := KnownFault(state.faults, v, lease);
      SameLeases();
      var reasons := ReasonsFor(state.leases, v, a, hard, growth);
      if !((a.up || a.promise) && (reasons != [] || known)) {
        return Ok(false);
      }
      var _ :- Owned(v);
      var _ :- RecordFault(v);
      ghost var faults := disk.faults;
      var stopped := Stop(v);
      InvalidatedGrows(faults, disk.faults);
      r := match stopped
        case Ok(_) => Ok(true)
        case Err(CapacityUnavailable) => Ok(false)
        case Err(e) => Err(e);
    }

    lemma SameLeases()
      requires Loaded()
      ensures state.leases == disk.leases
    {
    }

    /** Notes the fault of a slot under its present lease, unless it is known. */
    method RecordFault(v: Vm) returns (r: Result<()>)
      requires Loaded()
      modifies this
      ensures Stepped() && (r != Err(Killed) ==> Loaded())
      ensures disk.leases == old(disk).leases && disk.snapshots == old(disk).snapshots
      ensures r.Ok? && v in disk.leases ==> Invalidated(disk.faults, v, disk.leases[v].holder)
      ensures r.Err? ==> r == Err(Killed)
      ensures old(Sound()) ==> Sound()
    {
      hide BootSafe, SnapshotSafe, LeaseSafe, Kept, Traced, QuietKept, Evolves, Adopted;
      var lease := Get(state.leases, v);
      if !KnownFault(state.faults, v, lease) {
        var fault := Fault(v, lease);
        state := state.(faults := state.faults + [fault]);
        assert state.faults[|state.faults| - 1] == fault;
      }
      LeaseSame(disk.leases, leaseLog, minted);
      var _ :- Save();
      r := Ok(());
    }

    /** Stops what the host cannot carry; every fault it records stays recorded. */
    method Guard() returns (r: Result<Watch>)
      requires Loaded()
      modifies this
      ensures Stepped() && (r != Err(Killed) ==> Loaded())
      ensures disk.leases == old(disk).leases && disk.snapshots == old(disk).snapshots
      ensures r.Ok? ==>
                forall v | v in config.slots && v in r.value.activity
                           && Condemned(disk.leases, v, r.value.activity[v], r.value.hard, r.value.growth) ::
                  Invalidated(disk.faults, v, HolderAt(disk.leases, v))
      ensures r.Ok? && old(Sound()) ==> ActiveLimit !in r.value.added
      ensures r.Ok? && calm && still && old(Spare(config, PromisesOf(disk), host.guests, host.available)) ==>
                RetentionHeadroom !in r.value.added
      ensures r.Ok? && calm && old(Ample(config, PromisesOf(disk), host.guests, host.available)) ==>
                RetentionHeadroom !in r.value.added
      ensures old(Sound()) ==> Sound()
    {
      hide Valid, Sound, Spare, Ample, Condemned, Invalidated;
      var w :- Watching();
      var quiet :- GuardSlots(w);
      var _ :- RecordWatch(w, quiet);
      r := Ok(w);
    }

    /** Everything the guard looks at, on a host that may hold its balloons for it. */
    method Watching() returns (r: Result<Watch>)
      requires Loaded()
      modifies this`tick, this`host, this`trace, this`leeway
      ensures Loaded() && old(trace) <= trace && (old(Sound()) ==> Sound())
      ensures r.Ok? && old(Sound()) ==> ActiveLimit !in r.value.added
      ensures r.Ok? && calm && still && old(Spare(config, PromisesOf(disk), host.guests, host.available)) ==>
                RetentionHeadroom !in r.value.added
      ensures r.Ok? && calm && old(Ample(config, PromisesOf(disk), host.guests, host.available)) ==>
                RetentionHeadroom !in r.value.added
    {
      hide BootSafe, SnapshotSafe, LeaseSafe, Kept, Traced, QuietKept, Evolves, Spare, Ample, Adopted;
      leeway := if still then AllHeld(config.slots) else NO_LEEWAY;
      r := Observe();
      leeway := NO_LEEWAY;
    }

    method RecordWatch(w: Watch, quiet: bool) returns (r: Result<()>)
      requires Loaded()
      modifies this
      ensures Stepped() && (r != Err(Killed) ==> Loaded())
      ensures SameCore(disk, old(disk))
      ensures old(Sound()) ==> Sound()
    {
      hide BootSafe, SnapshotSafe, LeaseSafe, Kept, Traced, QuietKept, Evolves, Adopted;
      var t := Now();
      state := state.(
        holdUntil := if w.hard != [] then t + 15 else state.holdUntil,
        sample := if w.sample.Some? then w.sample else state.sample,
        baseline := if quiet then None else state.baseline);
      r := Resave();
    }

    /** Goes over the slots that were read; the result says whether none of them is active any more. */
    method GuardSlots(w: Watch) returns (r: Result<bool>)
      requires Loaded()
      modifies this
      ensures Stepped() && (r != Err(Killed) ==> Loaded())
      ensures disk.leases == old(disk).leases && disk.snapshots == old(disk).snapshots
      ensures r.Ok? ==>
                forall v | v in config.slots && v in w.activity
                           && Condemned(disk.leases, v, w.activity[v], w.hard, w.growth) ::
                  Invalidated(disk.faults, v, HolderAt(disk.leases, v))
      ensures old(Sound()) ==> Sound()
    {
      hide Valid, SameCore, Sound, Invalidated, Condemned;
      var quiet := true;
      for i := 0 to |config.slots|
        invariant Loaded() && Stepped() && (old(Sound()) ==> Sound())
        invariant disk.leases == old(disk).leases && disk.snapshots == old(disk).snapshots
        invariant forall j | 0 <= j < i && config.slots[j] in w.activity
                    && Condemned(disk.leases, config.slots[j], w.activity[config.slots[j]], w.hard, w.growth) ::
                    Invalidated(disk.faults, config.slots[j], HolderAt(disk.leases, config.slots[j]))
      {
        var v := config.slots[i];
        if v in w.activity {
          ghost var before := disk.faults;
          var stopped := GuardSlot(v, w.activity[v], w.hard, w.growth);
          if stopped.Err? {
            return Err(stopped.error);
          }
          quiet := quiet && (stopped.value || !(w.activity[v].up || w.activity[v].promise));
          InvalidatedGrows(before, disk.faults);
        }
      }
      r := Ok(quiet);
    }

    /** Stops expired idle guests and deletes expired, unpreserved snapshots of unleased slots. */
    method Reap() returns (r: Result<Reaping>)
      requires Loaded()
      modifies this
      ensures Stepped() && (r != Err(Killed) ==> Loaded())
      ensures disk.leases == old(disk).leases && disk.faults == old(disk).faults
      ensures r.Ok? ==> old(host).now <= r.value.now && Reaped(old(disk), disk, r.value.now)
      ensures r.Ok? ==> forall v <- config.slots ::
                Idle(config, old(disk).leases, old(state.lastUsed), r.value.activity, v, r.value.now) ==>
                v in r.value.pending || !Promised(PromisesOf(disk), v)
      ensures old(Sound()) ==> Sound()
    {
      hide Valid, SameCore, Sound, QuietKept, Evolves, AllRead, Reaped, RunsReaped, SnapshotsReaped, Idle, Promised;
      var now := Now();
      var listing :- Call();
      var activity :- OwnedActivity(true, listing.hints, true);
      var pending :- ReapRuns(now, activity);
      ghost var runs := disk;
      var _ :- ReapSnapshots(now);
      ReapedParts(old(disk), runs, disk, now);
      r := Ok(Reaping(now, activity, pending));
    }

    /** Stops idle slots without a live lease; the result lists those whose start could not be fenced yet. */
    method ReapRuns(now: int, activity: map<Vm, Activity>) returns (r: Result<set<Vm>>)
      requires Loaded()
      modifies this
      ensures Stepped() && (r != Err(Killed) ==> Loaded())
      ensures disk.leases == old(disk).leases && disk.faults == old(disk).faults
      ensures disk.snapshots == old(disk).snapshots
      ensures RunsReaped(old(disk), disk, now)
      ensures r.Ok? ==>
                forall v <- config.slots :: Idle(config, old(disk).leases, old(state.lastUsed), activity, v, now) ==>
                          v in r.value || !Promised(PromisesOf(disk), v)
      ensures old(Sound()) ==> Sound()
    {
      hide Valid, Sound, PromisesOf, QuietKept, Evolves, Promised;
      var pending: set<Vm> := {};
      for i := 0 to |config.slots|
        invariant Loaded() && Stepped() && (old(Sound()) ==> Sound())
        invariant disk.leases == old(disk).leases && disk.faults == old(disk).faults
        invariant disk.snapshots == old(disk).snapshots
        invariant RunsReaped(old(disk), disk, now) && state.lastUsed == old(state.lastUsed)
        invariant forall j | 0 <= j < i ::
                    Idle(config, old(disk).leases, old(state.lastUsed), activity, config.slots[j], now) ==>
                    config.slots[j] in pending || !Promised(PromisesOf(disk), config.slots[j])
      {
        var v := config.slots[i];
        if Idle(config, state.leases, state.lastUsed, activity, v, now) {
          ghost var before := disk;
          var stopped := Stop(v);
          OthersKeep(before, disk, v);
          RunsReapedMore(old(disk), before, disk, v, now);
          if stopped.Err? {
            if stopped.error != CapacityUnavailable {
              return Err(stopped.error);
            }
            pending := pending + {v};
          }
        }
      }
      r := Ok(pending);
    }

    /** Deletes every record that is not spared, and no other. */
    method ReapSnapshots(now: int) returns (r: Result<()>)
      requires Loaded()
      modifies this
      ensures Stepped() && (r != Err(Killed) ==> Loaded())
      ensures disk.leases == old(disk).leases && disk.faults == old(disk).faults && disk.runs == old(disk).runs
      ensures r.Ok? ==> SnapshotsReaped(old(disk), disk, now)
      ensures PromisesOf(disk) == PromisesOf(old(disk)) && (old(Sound()) ==> Sound())
    {
      hide Valid, Sound, QuietKept, Evolves, SameExcept, Spared;
      ghost var records := disk.snapshots;
      var todo := state.snapshots.Keys;
      while todo != {}
        invariant Loaded() && Stepped() && (old(Sound()) ==> Sound())
        invariant disk.leases == old(disk).leases && disk.faults == old(disk).faults && disk.runs == old(disk).runs
        invariant PromisesOf(disk) == PromisesOf(old(disk))
        invariant forall k <- todo :: k in disk.snapshots && k in records && disk.snapshots[k] == records[k]
        invariant forall k <- disk.snapshots :: k in records && disk.snapshots[k] == records[k]
                                                && (k in todo || Spared(records[k], k.0, disk.leases, now))
        invariant forall k <- records :: Spared(records[k], k.0, disk.leases, now) ==> k in disk.snapshots
        decreases todo
      {
        var k := PickOne(todo);
        todo := todo - {k};
        if !Spared(state.snapshots[k], k.0, state.leases, now) {
          ghost var before := disk.snapshots;
          ReapableIsFree(state.snapshots[k], k.0, state.leases, now);
          var _ :- DeleteSnapshot(k.0, k.1);
          forall x | x != k
            ensures (x in disk.snapshots <==> x in before) && (x in before ==> disk.snapshots[x] == before[x])
          {
            OtherRecord(disk.snapshots, before, k, x);
          }
        }
      }
      r := Resave();
    }

    /** Saves what is on file already, with whatever carries no promise. */
    method Resave() returns (r: Result<()>)
      requires Loaded()
      modifies this
      ensures Stepped() && (r != Err(Killed) ==> Loaded())
      ensures SameCore(disk, old(disk))
      ensures state == old(state) && (r.Ok? ==> disk == state)
      ensures old(Sound()) ==> Sound()
      ensures leeway == old(leeway)
    {
      hide BootSafe, SnapshotSafe, LeaseSafe, Kept, Traced, QuietKept, Evolves, Adopted;
      LeaseSame(disk.leases, leaseLog, minted);
      r := Save();
    }

    // ----- Deferred starts -----

    /** One attempt at a pending request; `Ok(None)` keeps it waiting. */
    method TryDeferred(v: Vm, q: Request) returns (r: Result<Option<RequestState>>)
      requires Loaded()
      modifies this
      ensures Stepped() && (r != Err(Killed) ==> Loaded())
      ensures state.deferred == old(state).deferred
      ensures disk.snapshots == old(disk).snapshots && disk.faults == old(disk).faults
      ensures r == Ok(Some(Started)) ==> !Invalidated(old(disk).faults, v, q.holder)
      ensures old(Sound()) ==> Sound()
    {
      hide BootSafe, SnapshotSafe, LeaseSafe, Kept, Traced, QuietKept, Evolves, Invalidated, Owed, Active, Adopted;
      var t := Now();
      var lease := Get(state.leases, v);
      var live := lease.Some? && lease.value.expires > t;
      if live && lease.value.holder != q.holder {
        return Ok(None);
      }
      if live && LeasePurpose(v) != RequestPurpose(q) {
        return Err(RuntimeError);
      }
      if live && v in state.runs && state.runs[v].generation == lease.value.generation
         && state.runs[v].phase != Quiesced {
        var _ :- Start(v, q.holder, q.memoryMib);
        return Ok(Some(Started));
      }
      var decision :- Resources(q.memoryMib, None, RequestPurpose(q), true);
      if !decision.allowed {
        return Ok(None);
      }
      t := Now();
      if q.expires - t < 60 {
        return Ok(Some(Expired));
      }
      var _ :- GrantLease(v, q.holder, q.expires - t, q.purpose);
      var _ :- Start(v, q.holder, q.memoryMib);
      r := Ok(Some(Started));
    }

    method SaveRequest(v: Vm, st: Option<RequestState>) returns (r: Result<()>)
      requires Loaded()
      modifies this
      ensures Stepped() && (r != Err(Killed) ==> Loaded())
      ensures SameCore(disk, old(disk))
      ensures state.deferred == if st.Some? && v in old(state).deferred
                                then old(state).deferred[v := old(state).deferred[v].(state := st.value)]
                                else old(state).deferred
      ensures old(Sound()) ==> Sound()
    {
      hide BootSafe, SnapshotSafe, LeaseSafe, Kept, Traced, QuietKept, Evolves, Adopted;
      if st.Some? && v in state.deferred {
        state := state.(deferred := state.deferred[v := state.deferred[v].(state := st.value)]);
      }
      r := Resave();
    }

    /** Tries one pending request and saves what came of it; `next` is its new state, if it has one. */
    method AttemptDeferred(v: Vm, q: Request) returns (r: Result<()>, next: Option<RequestState>)
      requires Loaded() && v in state.deferred && state.deferred[v] == q
      modifies this
      ensures Stepped() && (r != Err(Killed) ==> Loaded())
      ensures disk.snapshots == old(disk).snapshots && disk.faults == old(disk).faults
      ensures next == Some(Started) ==> !Invalidated(old(disk).faults, v, q.holder)
      ensures r.Ok? ==> state.deferred == if next.Some? then old(state).deferred[v := q.(state := next.value)]
                                          else old(state).deferred
      ensures old(Sound()) ==> Sound()
    {
      hide Valid, Sound, Invalidated;
      var tried := TryDeferred(v, q);
      next := match tried
        case Ok(st) => st
        case Err(e) => if e == RuntimeError || e == ValueError then Some(Blocked) else None;
      if tried == Err(Killed) {
        return Err(Killed), next;
      }
      r := SaveRequest(v, next);
    }

    /** Retries every pending request; semantic failures block it, anything else keeps it waiting. Whatever ends the
        command, `started` holds the starts that succeeded. */
    method ProcessDeferred() returns (r: Result<()>, started: set<(Vm, Holder)>)
      requires Loaded()
      modifies this
      ensures Stepped() && (r != Err(Killed) ==> Loaded())
      ensures disk.faults == old(disk).faults
      ensures forall e <- started :: !Invalidated(old(disk).faults, e.0, e.1)
      ensures r.Ok? ==> Processed(old(state).deferred, disk.deferred, {}, started)
      ensures old(Sound()) ==> Sound()
    {
      hide BootSafe, SnapshotSafe, LeaseSafe, Kept, Traced, QuietKept, Evolves, Invalidated, Adopted, Processed;
      started := {};
      ProcessedNone(state.deferred);
      var todo := state.deferred.Keys;
      while todo != {}
        invariant Loaded() && Stepped() && (old(Sound()) ==> Sound())
        invariant disk.faults == old(disk).faults
        invariant forall e <- started :: !Invalidated(old(disk).faults, e.0, e.1)
        invariant todo <= state.deferred.Keys && Processed(old(state).deferred, state.deferred, todo, started)
        decreases todo
      {
        var v := PickOne(todo);
        ProcessedMore(old(state).deferred, state.deferred, todo, started, v);
        todo := todo - {v};
        if v in state.deferred && state.deferred[v].state == Pending {
          var q := state.deferred[v];
          var t := Now();
          if q.expires <= t {
            state := state.(deferred := state.deferred[v := q.(state := Expired)]);
          } else {
            var next;
            r, next := AttemptDeferred(v, q);
            if next == Some(Started) {
              started := started + {(v, q.holder)};
            }
            if r.Err? {
              return;
            }
          }
        }
      }
      r := Resave();
    }

    // ----- Whole runs -----

    /** One command in a fresh process: it loads the file, and may be killed at any host call. */
    method Execute(c: Command) returns (done: set<(Vm, Holder)>, admitted: bool)
      requires Valid()
      modifies this
      ensures Stepped()
      ensures forall e <- done :: !Invalidated(old(disk).faults, e.0, e.1)
      ensures old(Harmless(c)) && (old(Sound()) || (calm && admitted)) ==> Sound()
    {
      hide BootSafe, SnapshotSafe, LeaseSafe, Kept, Traced, Invalidated, Promised, Adopted, SameOthers, Spare,
        Anchored, Foreseen;
      state, leeway := disk, NO_LEEWAY;
      done, admitted := {}, false;
      match c {
        case LeaseCommand(v, h, seconds, purpose) =>
          var _ := GrantLease(v, h, seconds, Some(purpose));
        case ReleaseCommand(v, h) =>
          var _ := Release(v, h);
        case StartCommand(v, h, memoryMib) =>
          var r := Start(v, h, memoryMib);
          done, admitted := Done(r, v, h), r == Ok(true);
        case ResizeCommand(v, h, memoryMib) =>
          var r := Resize(v, h, memoryMib);
          done, admitted := Done(r, v, h), r == Ok(true);
        case StopCommand(v, h) =>
          done := StopLeased(v, h);
        case DeferCommand(v, h, seconds, memoryMib, purpose) =>
          var _ := DeferStart(v, h, seconds, memoryMib, purpose);
        case SnapshotCommand(v, h, name, preserve) =>
          var r := TakeSnapshot(v, h, name, preserve);
          done := Done(r, v, h);
        case RollbackCommand(v, h, name) =>
          var r := Rollback(v, h, name);
          done := Done(r, v, h);
        case DiscardCommand(v, h, name) =>
          var r := DiscardSnapshot(v, h, name);
          done := Done(r, v, h);
        case DeferredCommand =>
          var _, started := ProcessDeferred();
          done := started;
        case GuardCommand =>
          var _ := Guard();
        case ReapCommand =>
          var _ := Reap();
      }
    }

    /** Only a resize can cost headroom: one that the host does not fit, and whose balloon it does not leave alone. */
    ghost predicate Harmless(c: Command)
      reads this
    {
      still || FitsNow(config, disk, host, c)
    }

    method StopLeased(v: Vm, holder: Holder) returns (done: set<(Vm, Holder)>)
      requires Loaded()
      modifies this
      ensures Stepped()
      ensures forall e <- done :: !Invalidated(old(disk).faults, e.0, e.1)
      ensures old(Sound()) ==> Sound()
    {
      hide BootSafe, SnapshotSafe, LeaseSafe, Kept, Traced, QuietKept, Evolves, Invalidated, Promised, Adopted;
      done := {};
      var leased := RequireLease(v, holder, false);
      if leased.Ok? {
        var r := Stop(v);
        done := Done(r, v, holder);
      }
    }

    /** Any sequence of commands, each possibly killed at any host call, on any host: the lab is safe at every
        recorded moment, generations keep their purpose, and an invalidated holder never achieves anything again: no
        command succeeds for it, and none that was killed midway has started anything for it. */
    method Operate(commands: seq<Command>) returns (log: seq<Entry>)
      requires Valid()
      modifies this
      ensures Stepped() && |log| == |commands|
      ensures forall i <- trace :: InstantSafe(i)
      ensures forall k <- disk.snapshots :: disk.snapshots[k].state == Ready ==> (k, disk.snapshots[k].owner) in listed
      ensures forall l, l' | l in leaseLog && l' in leaseLog && l.generation == l'.generation ::
                l.holder == l'.holder && l.Effective() == l'.Effective()
      ensures forall i, j, e | 0 <= i < j < |log| && e in log[j].done :: !Invalidated(log[i].faults, e.0, e.1)
      ensures forall i, j, v, b | 0 <= i < j < |trace| && CarriesAt(trace[j].guests, v, b)
                && Invalidated(trace[i].faults, v, b.holder) :: CarriesAt(trace[i].guests, v, b)
    {
      hide Valid, Invalidated, CarriesAt, InstantSafe;
      log := [];
      for n := 0 to |commands|
        invariant Stepped() && |log| == n
        invariant forall i | 0 <= i < n :: log[i].faults <= disk.faults
        invariant forall i, j, e | 0 <= i < j < n && e in log[j].done :: !Invalidated(log[i].faults, e.0, e.1)
      {
        ghost var before := disk.faults;
        var done, _ := Execute(commands[n]);
        forall i | 0 <= i < n
          ensures forall e <- done :: !Invalidated(log[i].faults, e.0, e.1)
        {
          InvalidatedGrows(log[i].faults, before);
        }
        log := log + [Entry(done, disk.faults)];
      }
      Lasting();
    }

    /** What the invariant says about the whole past. */
    lemma Lasting()
      requires Valid()
      ensures forall i <- trace :: InstantSafe(i)
      ensures forall k <- disk.snapshots :: disk.snapshots[k].state == Ready ==> (k, disk.snapshots[k].owner) in listed
      ensures forall l, l' | l in leaseLog && l' in leaseLog && l.generation == l'.generation ::
                l.holder == l'.holder && l.Effective() == l'.Effective()
      ensures forall i, j, v, b | 0 <= i < j < |trace| && CarriesAt(trace[j].guests, v, b)
                && Invalidated(trace[i].faults, v, b.holder) :: CarriesAt(trace[i].guests, v, b)
    {
      hide Traced, BootSafe, SnapshotSafe, AllMeasured, CarriesAt, Invalidated, InstantSafe;
      AllSticky(trace, disk, host);
    }

    /** On a calm host no sequence of commands, killed anywhere, gives up the headroom: once a start or a growth was
        admitted, or if it held to begin with, it holds from then on, as long as every resize met a host that fitted its
        target or left its balloon alone. As long as no guest is down although it is recorded as running, that is the
        retention the guard asks for. `turns` says what each command met. */
    method OperateCalmly(commands: seq<Command>) returns (turns: seq<Turn>)
      requires Valid() && calm
      modifies this
      ensures Stepped() && |turns| == |commands|
      ensures forall t <- turns :: Shown(trace, t.disk, t.host)
      ensures KeptAfter(config, still, old(Sound()), commands, turns) ==>
                Kept(config, PromisesOf(disk), host.guests, host.available)
      ensures KeptAfter(config, still, old(Sound()), commands, turns)
              && (forall v <- config.slots :: !Lost(PromisesOf(disk), host.guests, v)) ==>
                Retained(config, PromisesOf(disk), host.guests, host.available)
    {
      hide Valid, Sound, Kept, Retained, Lost, FitsNow, Shown;
      turns := [];
      for n := 0 to |commands|
        invariant Stepped() && |turns| == n
        invariant forall t <- turns :: Shown(trace, t.disk, t.host)
        invariant KeptAfter(config, still, old(Sound()), commands[..n], turns) ==> Sound()
      {
        ghost var before := trace;
        var turn := TakeTurn(commands[n]);
        forall t | t in turns
          ensures Shown(trace, t.disk, t.host)
        {
          ShownLater(before, trace, t.disk, t.host);
        }
        assert commands[..n + 1][..n] == commands[..n];
        turns := turns + [turn];
      }
      assert commands[..|commands|] == commands;
      SoundIsKept();
      RetainedIffLostAreCovered(config, PromisesOf(disk), host.guests, host.available);
    }

    lemma SoundIsKept()
      ensures Sound() ==> Kept(config, PromisesOf(disk), host.guests, host.available)
    {
    }

    /** One command, after the host had time to move. */
    method TakeTurn(c: Command) returns (t: Turn)
      requires Valid()
      modifies this
      ensures Stepped() && Shown(trace, t.disk, t.host)
      ensures (still || FitsNow(config, t.disk, t.host, c)) && (old(Sound()) || (calm && t.admitted)) ==> Sound()
    {
      hide BootSafe, SnapshotSafe, LeaseSafe, Kept, Traced, AllMeasured, Adopted, FitsNow, Evolves, QuietKept, Shown;
      leeway := NO_LEEWAY;
      var _ := Drift();
      var met, at := disk, host;
      LastIsShown(trace, met, at);
      ghost var before := trace;
      var _, admitted := Execute(c);
      ShownLater(before, trace, met, at);
      t := Turn(met, at, admitted);
    }
  }
}
