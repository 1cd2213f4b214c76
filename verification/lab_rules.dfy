/** What the host may do between two moments, what a command may read meanwhile, and what stays true throughout. */
module LabRules {
  import opened Wrappers
  import opened Shared
  import opened LabState
  import opened LabBoot
  import opened LabMemory
  import opened LabSnapshots
  import opened LabCapacity
  import opened LabLimits

  /** What can be seen from outside at one moment. */
  datatype Instant = Instant(
    leases: map<Vm, Lease>, runs: map<Vm, Run>, guests: map<Vm, Guest>, snapshots: map<Key, Snapshot>, snaps: Snaps,
    listed: set<(Key, Owner)>, faults: seq<Fault>)

  /** No preserved snapshot is on its way out, or was removed by one of our deletions. */
  predicate PreservedKept(records: map<Key, Snapshot>, s: Snaps) {
    forall k <- records :: records[k].preserve ==>
      records[k].state != Deleting && k !in s.deletes && records[k].owner !in s.deleted
  }

  /** A record is ready only after its own owner was listed on the external snapshot of its name. */
  predicate Adopted(records: map<Key, Snapshot>, listed: set<(Key, Owner)>) {
    forall k <- records :: records[k].state == Ready ==> (k, records[k].owner) in listed
  }

  predicate InstantSafe(i: Instant) {
    BootSafe(i.leases, i.runs, i.guests) && PreservedKept(i.snapshots, i.snaps) && Adopted(i.snapshots, i.listed)
  }

  function InstantOf(d: State, h: Host, listed: set<(Key, Owner)>): Instant {
    Instant(d.leases, d.runs, h.guests, d.snapshots, h.snaps, listed, d.faults)
  }

  predicate Invalidated(faults: seq<Fault>, v: Vm, holder: Holder) {
    exists f <- faults :: f.vmid == v && f.lease.Some? && f.lease.value.holder == holder
  }

  lemma InvalidatedGrows(faults: seq<Fault>, faults': seq<Fault>)
    requires faults <= faults'
    ensures forall v, h :: Invalidated(faults, v, h) ==> Invalidated(faults', v, h)
  {
  }

  /** A start that is accepted for the guest, or that it came up from. */
  predicate Carries(g: Guest, b: Boot) {
    b in g.pending || g.boot == Some(b)
  }

  predicate CarriesAt(gs: map<Vm, Guest>, v: Vm, b: Boot) {
    v in gs && Carries(gs[v], b)
  }

  /** Faults stay on file, and no start appears for a slot and holder that are invalidated. */
  ghost predicate NoneRevived(i: Instant, i': Instant) {
    && i.faults <= i'.faults
    && forall v, b | CarriesAt(i'.guests, v, b) && !CarriesAt(i.guests, v, b) :: !Invalidated(i.faults, v, b.holder)
  }

  /** The recorded moments are safe, nothing is revived between them, and the last one shows the file and the host. */
  ghost predicate Traced(trace: seq<Instant>, d: State, h: Host) {
    && trace != [] && trace[|trace| - 1] == InstantOf(d, h, trace[|trace| - 1].listed)
    && (forall i <- trace :: InstantSafe(i))
    && forall k | 0 < k < |trace| :: NoneRevived(trace[k - 1], trace[k])
  }

  lemma TracedGrows(trace: seq<Instant>, d: State, h: Host, d': State, h': Host, listed: set<(Key, Owner)>)
    requires Traced(trace, d, h) && InstantSafe(InstantOf(d', h', listed))
    requires NoneRevived(InstantOf(d, h, listed), InstantOf(d', h', listed))
    ensures Traced(trace + [InstantOf(d', h', listed)], d', h')
  {
    hide InstantSafe;
    var more := trace + [InstantOf(d', h', listed)];
    forall k | 0 < k < |more|
      ensures NoneRevived(more[k - 1], more[k])
    {
      if k < |trace| {
        assert NoneRevived(trace[k - 1], trace[k]);
      }
    }
  }

  /** The host starts nothing by itself. */
  lemma RelyRevivesNone(gs: map<Vm, Guest>, gs': map<Vm, Guest>, v: Vm, b: Boot)
    requires GuestsRely(gs, gs') && CarriesAt(gs', v, b)
    ensures CarriesAt(gs, v, b)
  {
    assert GuestRely(gs[v], gs'[v]);
  }

  lemma TracedOn(trace: seq<Instant>, d: State, h: Host, d': State, h': Host, listed: set<(Key, Owner)>)
    requires Traced(trace, d, h) && InstantSafe(InstantOf(d', h', listed))
    requires GuestsRely(h.guests, h'.guests) && d.faults <= d'.faults
    ensures Traced(trace + [InstantOf(d', h', listed)], d', h')
  {
    hide Traced, InstantSafe, Invalidated, CarriesAt, GuestsRely;
    forall v, b | CarriesAt(h'.guests, v, b)
      ensures CarriesAt(h.guests, v, b)
    {
      RelyRevivesNone(h.guests, h'.guests, v, b);
    }
    TracedGrows(trace, d, h, d', h', listed);
  }

  /** A start is accepted for a holder that is not invalidated. */
  lemma TracedStart(trace: seq<Instant>, d: State, h: Host, listed: set<(Key, Owner)>, v: Vm, b: Boot)
    requires Traced(trace, d, h) && v in h.guests && !Invalidated(d.faults, v, b.holder)
    requires var h' := h.(guests := h.guests[v := h.guests[v].(pending := multiset{b})]);
             InstantSafe(InstantOf(d, h', listed))
    ensures var h' := h.(guests := h.guests[v := h.guests[v].(pending := multiset{b})]);
            Traced(trace + [InstantOf(d, h', listed)], d, h')
  {
    hide Traced, InstantSafe, Invalidated;
    TracedGrows(trace, d, h, d, h.(guests := h.guests[v := h.guests[v].(pending := multiset{b})]), listed);
  }

  /** Once a fault is on file, every later start of its slot and holder that shows was there already. */
  lemma {:induction false} FaultsAreSticky(trace: seq<Instant>, i: nat, j: nat, v: Vm, b: Boot)
    requires i <= j < |trace| && forall k | 0 < k < |trace| :: NoneRevived(trace[k - 1], trace[k])
    requires CarriesAt(trace[j].guests, v, b) && Invalidated(trace[i].faults, v, b.holder)
    ensures CarriesAt(trace[i].guests, v, b)
  {
    hide CarriesAt, Invalidated;
    if i < j {
      FaultsGrow(trace, i, j - 1);
      InvalidatedGrows(trace[i].faults, trace[j - 1].faults);
      assert NoneRevived(trace[j - 1], trace[j]);
      FaultsAreSticky(trace, i, j - 1, v, b);
    }
  }

  lemma AllSticky(trace: seq<Instant>, d: State, h: Host)
    requires Traced(trace, d, h)
    ensures forall i <- trace :: InstantSafe(i)
    ensures forall i, j, v, b | 0 <= i < j < |trace| && CarriesAt(trace[j].guests, v, b)
              && Invalidated(trace[i].faults, v, b.holder) :: CarriesAt(trace[i].guests, v, b)
  {
    hide CarriesAt, Invalidated, InstantSafe;
    forall i, j, v, b | 0 <= i < j < |trace| && CarriesAt(trace[j].guests, v, b)
      && Invalidated(trace[i].faults, v, b.holder)
      ensures CarriesAt(trace[i].guests, v, b)
    {
      FaultsAreSticky(trace, i, j, v, b);
    }
  }

  lemma {:induction false} FaultsGrow(trace: seq<Instant>, i: nat, j: nat)
    requires i <= j < |trace| && forall k | 0 < k < |trace| :: NoneRevived(trace[k - 1], trace[k])
    ensures trace[i].faults <= trace[j].faults
  {
    hide CarriesAt, Invalidated;
    if i < j {
      FaultsGrow(trace, i, j - 1);
      assert NoneRevived(trace[j - 1], trace[j]);
    }
  }

  /** The file and the host at some recorded moment. */
  predicate Shown(trace: seq<Instant>, d: State, h: Host) {
    exists i <- trace :: i == InstantOf(d, h, i.listed)
  }

  lemma LastIsShown(trace: seq<Instant>, d: State, h: Host)
    requires Traced(trace, d, h)
    ensures Shown(trace, d, h)
  {
    assert trace[|trace| - 1] in trace;
  }

  lemma ShownLater(trace: seq<Instant>, trace': seq<Instant>, d: State, h: Host)
    requires Shown(trace, d, h) && trace <= trace'
    ensures Shown(trace', d, h)
  {
    assert forall i <- trace :: i in trace';
  }

  lemma AdoptedMore(records: map<Key, Snapshot>, listed: set<(Key, Owner)>, more: (Key, Owner))
    requires Adopted(records, listed)
    ensures Adopted(records, listed + {more})
  {
  }

  lemma AdoptedReady(records: map<Key, Snapshot>, listed: set<(Key, Owner)>, k: Key, r: Snapshot)
    requires Adopted(records, listed) && (k, r.owner) in listed
    ensures Adopted(records[k := r], listed)
  {
  }

  lemma AdoptedWithout(records: map<Key, Snapshot>, listed: set<(Key, Owner)>, k: Key, r: Snapshot)
    requires Adopted(records, listed)
    ensures Adopted(records - {k}, listed) && (r.state != Ready ==> Adopted(records[k := r], listed))
  {
  }

  lemma InstantNow(d: State, h: Host, minted: nat, listed: set<(Key, Owner)>)
    requires BootSafe(d.leases, d.runs, h.guests) && SnapshotSafe(d.snapshots, h.snaps, minted)
    requires Adopted(d.snapshots, listed)
    ensures InstantSafe(InstantOf(d, h, listed))
  {
  }

  /** Every lease record ever written under one generation has the same holder and effective purpose. */
  predicate LeaseSafe(leases: map<Vm, Lease>, log: set<Lease>, minted: nat) {
    && leases.Values <= log
    && (forall l <- log :: l.generation < minted)
    && (forall l, l' | l in log && l' in log && l.generation == l'.generation ::
          l.holder == l'.holder && l.Effective() == l'.Effective())
  }

  predicate Distinct(slots: seq<Vm>) {
    forall i, j | 0 <= i < j < |slots| :: slots[i] != slots[j]
  }

  predicate AllMeasured(slots: seq<Vm>, gs: map<Vm, Guest>) {
    forall v <- slots :: v in gs && gs[v].boot.Some? ==> Measured(gs[v].telemetry)
  }

  /** How the host may have changed between two moments, for the records `d` on disk. */
  predicate Evolves(c: Config, d: Promises, calm: bool, w: Leeway, h: Host, h': Host) {
    && GuestsRely(h.guests, h'.guests) && SnapsRely(h.snaps, h'.snaps) && h.now <= h'.now
    && (calm ==> Calm(d, w, c.slots, h.guests, h.available, h'.guests, h'.available))
  }

  lemma EvolvesTransitive(c: Config, d: Promises, calm: bool, w: Leeway, h: Host, h': Host, h'': Host)
    requires Evolves(c, d, calm, w, h, h') && Evolves(c, d, calm, w, h', h'')
    ensures Evolves(c, d, calm, w, h, h'') && QuietKept(h, h'')
  {
    hide Eased, Owed;
    forall v | calm && v in c.slots && v in h.guests
      ensures Moves(d, w, v, h.guests[v], h''.guests[v])
    {
      MovesOn(d, w, v, h.guests[v], h'.guests[v], h''.guests[v]);
    }
  }

  ghost predicate QuietKept(h: Host, h': Host) {
    && h'.guests.Keys == h.guests.Keys
    && (forall v :: v in h.guests && h.guests[v].Quiet() ==> h'.guests[v].Quiet())
  }

  lemma StaysQuiet(h: Host, h': Host, v: Option<Vm>)
    requires QuietKept(h, h')
    requires v.Some? && v.value in h.guests ==> h.guests[v.value].Quiet()
    ensures v.Some? && v.value in h'.guests ==> h'.guests[v.value].Quiet()
    ensures h'.guests.Keys == h.guests.Keys
  {
    if v.Some? {
      var u := v.value;
      assert u in h'.guests ==> u in h.guests && h'.guests[u].Quiet();
    }
  }

  lemma SameGuests(c: Config, d: Promises, calm: bool, w: Leeway, h: Host, h': Host)
    requires Evolves(c, d, calm, w, h, h')
    ensures h'.guests.Keys == h.guests.Keys
  {
  }

  lemma EvolvesReflexive(c: Config, d: Promises, calm: bool, w: Leeway, h: Host)
    requires calm ==> AllMeasured(c.slots, h.guests)
    ensures Evolves(c, d, calm, w, h, h) && QuietKept(h, h)
  {
  }

  /** What the host does on its own keeps any records safe that were safe before, and a calm host keeps the headroom. */
  lemma EvolvesKeeps(
    c: Config, p: Promises, calm: bool, w: Leeway, h: Host, h': Host, d: State, minted: nat, listed: set<(Key, Owner)>)
    requires Evolves(c, p, calm, w, h, h') && (calm ==> AllMeasured(c.slots, h.guests))
    requires BootSafe(d.leases, d.runs, h.guests) && SnapshotSafe(d.snapshots, h.snaps, minted)
    requires Adopted(d.snapshots, listed)
    ensures BootSafe(d.leases, d.runs, h'.guests) && SnapshotSafe(d.snapshots, h'.snaps, minted)
    ensures InstantSafe(InstantOf(d, h', listed))
    ensures QuietKept(h, h') && GuestsRely(h.guests, h'.guests) && h.now <= h'.now
    ensures calm ==> AllMeasured(c.slots, h'.guests)
    ensures calm && p == PromisesOf(d) && Distinct(c.slots) && Kept(c, p, h.guests, h.available) ==>
              Kept(c, p, h'.guests, h'.available)
  {
    BootSafeRely(d.leases, d.runs, h.guests, h'.guests);
    SnapshotSafeRely(d.snapshots, h.snaps, h'.snaps, minted);
    if calm && Distinct(c.slots) && p == PromisesOf(d) {
      AffordsLater(c, d.leases, p, h.guests, h.available, h'.guests, h'.available, 0);
    }
  }

  /** With nothing on its way at `h`, or the guest up, nothing is on its way afterwards. */
  lemma LandedLater(c: Config, d: State, calm: bool, w: Leeway, h: Host, h': Host, v: Vm)
    requires Evolves(c, PromisesOf(d), calm, w, h, h') && BootSafe(d.leases, d.runs, h.guests)
    requires v in h.guests && (h.guests[v].Up() || h.guests[v].pending == multiset{})
    ensures v in h'.guests && h'.guests[v].pending == multiset{}
  {
  }

  lemma LeaseRenewed(leases: map<Vm, Lease>, log: set<Lease>, minted: nat, v: Vm, lease: Lease)
    requires LeaseSafe(leases, log, minted)
    requires v in leases && leases[v].(expires := lease.expires) == lease
    ensures lease.generation < minted
    ensures LeaseSafe(leases[v := lease], log + leases[v := lease].Values, minted)
  {
  }

  lemma LeaseMinted(leases: map<Vm, Lease>, log: set<Lease>, minted: nat, v: Vm, lease: Lease)
    requires LeaseSafe(leases, log, minted) && lease.generation == minted
    ensures LeaseSafe(leases, log, minted + 1)
    ensures LeaseSafe(leases[v := lease], log + leases[v := lease].Values, minted + 1)
  {
  }

  lemma LeaseSafeMinted(leases: map<Vm, Lease>, log: set<Lease>, minted: nat)
    requires LeaseSafe(leases, log, minted)
    ensures LeaseSafe(leases, log, minted + 1)
  {
  }

  lemma LeaseSame(leases: map<Vm, Lease>, log: set<Lease>, minted: nat)
    requires LeaseSafe(leases, log, minted)
    ensures LeaseSafe(leases, log + leases.Values, minted)
  {
  }

  /** A lease that keeps its holder and generation does not disturb the guest it covers. */
  lemma BootSafeRenewed(leases: map<Vm, Lease>, runs: map<Vm, Run>, guests: map<Vm, Guest>, v: Vm, lease: Lease)
    requires BootSafe(leases, runs, guests)
    requires v in leases && leases[v].(expires := lease.expires) == lease
    ensures BootSafe(leases[v := lease], runs, guests)
  {
  }

  predicate Alnum(c: char) {
    'A' <= c <= 'Z' || 'a' <= c <= 'z' || '0' <= c <= '9'
  }

  predicate ValidHolder(h: Holder) {
    1 <= |h| <= 80 && Alnum(h[0]) && forall c <- h :: Alnum(c) || c in "_.-"
  }

  /** One slot as `owned_activity` found it. */
  datatype Activity = Activity(guest: Guest, up: bool, phase: Option<Phase>, promise: bool)

  function PhaseOf(runs: map<Vm, Run>, v: Vm): Option<Phase> {
    if v in runs then Some(runs[v].phase) else None
  }

  function ActivityOf(d: Promises, v: Vm, g: Guest): Activity {
    Activity(g, g.Up(), PhaseOf(d.runs, v), Promised(d, v))
  }

  /** A reading taken somewhere between `h` and `h'`. */
  predicate ReadBetween(c: Config, d: Promises, calm: bool, w: Leeway, h: Host, h': Host, v: Vm, a: Activity) {
    && v in c.slots && v in h.guests && v in h'.guests
    && a == ActivityOf(d, v, a.guest)
    && (h.guests[v].Quiet() ==> a.guest.Quiet())
    && (calm ==> Moves(d, w, v, h.guests[v], a.guest) && Moves(d, w, v, a.guest, h'.guests[v]))
  }

  predicate AllRead(
    c: Config, d: Promises, calm: bool, w: Leeway, h: Host, h': Host, activity: map<Vm, Activity>)
  {
    forall v <- activity :: ReadBetween(c, d, calm, w, h, h', v, activity[v])
  }

  lemma AllReadLater(
    c: Config, d: Promises, calm: bool, w: Leeway, h: Host, h': Host, h'': Host, activity: map<Vm, Activity>)
    requires AllRead(c, d, calm, w, h, h', activity) && Evolves(c, d, calm, w, h', h'')
    ensures AllRead(c, d, calm, w, h, h'', activity)
  {
    hide Moves;
    forall v | v in activity && calm
      ensures Moves(d, w, v, activity[v].guest, h''.guests[v])
    {
      MovesOn(d, w, v, activity[v].guest, h'.guests[v], h''.guests[v]);
    }
  }

  lemma AllReadEarlier(
    c: Config, d: Promises, calm: bool, w: Leeway, h: Host, h': Host, h'': Host, activity: map<Vm, Activity>)
    requires Evolves(c, d, calm, w, h, h') && QuietKept(h, h') && AllRead(c, d, calm, w, h', h'', activity)
    ensures AllRead(c, d, calm, w, h, h'', activity)
  {
    hide Moves;
    forall v | v in activity && calm
      ensures Moves(d, w, v, h.guests[v], activity[v].guest)
    {
      MovesOn(d, w, v, h.guests[v], h'.guests[v], activity[v].guest);
    }
  }

  lemma ReadNow(c: Config, d: Promises, calm: bool, w: Leeway, h: Host, h': Host, v: Vm)
    requires Evolves(c, d, calm, w, h, h') && QuietKept(h, h')
    requires v in c.slots && v in h'.guests
    ensures ReadBetween(c, d, calm, w, h, h', v, ActivityOf(d, v, h'.guests[v]))
  {
  }

  datatype Commitments = Commitments(active: nat, headroomMib: nat)

  /** What one slot adds to the count of active guests and to the memory still owed: the reading `a`
      supplies the commitment, the guest as it is now supplies the process size. */
  function Measure(d: Promises, v: Vm, a: Activity, gs: map<Vm, Guest>, starting: Option<Vm>): Result<Commitments> {
    if !a.up then
      Ok(if a.promise && starting != Some(v) then Commitments(1, Max(Requested(d, v), Startup(d, v)))
         else Commitments(0, 0))
    else
      var t := a.guest.telemetry;
      if Actual(t).None? || t.memhost.None? || Actual(t).value <= 0 || t.memhost.value < 0 then
        Err(CapacityUnavailable)
      else if v !in gs || !gs[v].Up() || gs[v].telemetry.rss.None? then
        Err(CapacityUnavailable)
      else
        var resident := Min(t.memhost.value, gs[v].telemetry.rss.value);
        Ok(Commitments(1, CeilMib(Committed(d, v, t) - resident)))
  }

  /** Although its parts are read at different times, a measurement is never below what the slot owes by the time it is
      complete. */
  lemma MeasureCovers(
    c: Config, leases: map<Vm, Lease>, d: Promises, w: Leeway, h: Host, h': Host, v: Vm, a: Activity,
    starting: Option<Vm>)
    requires ReadBetween(c, d, true, w, h, h', v, a) && BootSafe(leases, d.runs, h'.guests) && w.falling == {}
    requires SkipIsOff(h.guests, starting) && SkipIsOff(h'.guests, starting)
    requires Measure(d, v, a, h'.guests, starting).Ok?
    ensures var k := Measure(d, v, a, h'.guests, starting).value;
            && OutstandingAt(d, h'.guests, starting, v) <= k.headroomMib
            && k.active == ActiveAt(d, h'.guests, starting, v)
  {
    assert BootSafeAt(Get(leases, v), Get(d.runs, v), h'.guests[v]);
  }

  /** Of a held slot it is never above what the guard would have counted before. */
  lemma MeasureAtMost(c: Config, d: Promises, w: Leeway, h: Host, h': Host, v: Vm, a: Activity)
    requires ReadBetween(c, d, true, w, h, h', v, a) && v in w.held
    requires Measure(d, v, a, h'.guests, None).Ok?
    ensures Measure(d, v, a, h'.guests, None).value.headroomMib <= CountedAt(d, h.guests, v)
  {
  }

  /** Of any slot it is never above the worst count before. */
  lemma MeasureAtWorst(d: Promises, w: Leeway, v: Vm, gs: map<Vm, Guest>, a: Activity, gs': map<Vm, Guest>)
    requires v in gs && v in gs' && a == ActivityOf(d, v, a.guest) && w.falling == {}
    requires Moves(d, w, v, gs[v], a.guest) && Moves(d, w, v, a.guest, gs'[v])
    requires Measure(d, v, a, gs', None).Ok?
    ensures Measure(d, v, a, gs', None).value.headroomMib <= WorstAt(d, gs, v)
  {
    CeilMibWhole(Max(Requested(d, v), Startup(d, v)));
    if gs[v].boot.Some? && a.up {
      ReadingAtWorst(d, w, v, gs[v], a.guest, gs'[v]);
    }
  }

  lemma ReadingAtWorst(d: Promises, w: Leeway, v: Vm, g: Guest, g': Guest, g'': Guest)
    requires g.boot.Some? && g'.boot.Some? && g''.boot.Some?
    requires Moves(d, w, v, g, g') && Moves(d, w, v, g', g'')
    ensures Measured(g.telemetry)
    ensures CeilMib(Committed(d, v, g'.telemetry) - Min(g'.telemetry.memhost.value, g''.telemetry.rss.value))
            <= WorstReading(d, v, g)
  {
    var c, c', c'' := ClaimOf(d, v, g), ClaimOf(d, v, g'), ClaimOf(d, v, g'');
    assert FloorBytes(d, v) <= c''.bytes;
    assert c''.rss >= Max(0, c.rss - (c.bytes - FloorBytes(d, v)));
  }

  /** A sampled total that covers what is owed now, with the exact count of active slots. */
  predicate Bounded(d: Promises, slots: seq<Vm>, h: Host, starting: Option<Vm>, k: Commitments) {
    Owed(d, slots, h.guests, starting) <= k.headroomMib && k.active == Active(d, slots, h.guests, starting)
  }

  lemma SampledNone(d: Promises, w: Leeway, from: Host, h: Host, starting: Option<Vm>)
    ensures Sampled(d, w, [], from, h, starting, Commitments(0, 0))
  {
  }

  /** A sampled total between what is owed now and what was counted, or could be counted, when the sample began. */
  predicate Sampled(
    d: Promises, w: Leeway, slots: seq<Vm>, from: Host, h: Host, starting: Option<Vm>, k: Commitments)
  {
    && Bounded(d, slots, h, starting, k)
    && (starting.None? ==> k.headroomMib <= WorstTotal(d, slots, from.guests))
    && (starting.None? && (forall v <- slots :: v in w.held) ==> k.headroomMib <= Counted(d, slots, from.guests))
  }

  /** What the sample notes for one slot: its measured commitment, or nothing for a slot without activity. */
  predicate Noted(
    d: Promises, v: Vm, gs: map<Vm, Guest>, activity: map<Vm, Activity>, starting: Option<Vm>, k: Commitments)
  {
    if v in activity then Measure(d, v, activity[v], gs, starting) == Ok(k) else k == Commitments(0, 0)
  }

  lemma NotedBounds(
    c: Config, leases: map<Vm, Lease>, d: Promises, w: Leeway, from: Host, h: Host, activity: map<Vm, Activity>,
    starting: Option<Vm>, v: Vm, k: Commitments)
    requires AllRead(c, d, true, w, from, h, activity) && BootSafe(leases, d.runs, h.guests) && w.falling == {}
    requires SkipIsOff(from.guests, starting) && SkipIsOff(h.guests, starting)
    requires v in c.slots && (Promised(d, v) ==> v in activity) && Noted(d, v, h.guests, activity, starting, k)
    ensures OutstandingAt(d, h.guests, starting, v) <= k.headroomMib
    ensures k.active == ActiveAt(d, h.guests, starting, v)
    ensures v in w.held && starting.None? ==> k.headroomMib <= CountedAt(d, from.guests, v)
    ensures starting.None? ==> k.headroomMib <= WorstAt(d, from.guests, v)
  {
    hide Measure, Moves, BootSafeAt, WorstAt;
    if v in activity {
      if starting.None? {
        MeasureAtWorst(d, w, v, from.guests, activity[v], h.guests);
      }
      MeasureCovers(c, leases, d, w, from, h, v, activity[v], starting);
      if v in w.held && starting.None? {
        MeasureAtMost(c, d, w, from, h, v, activity[v]);
      }
    } else {
      UnpromisedOwesNothing(leases, d, h, starting, v);
    }
  }

  lemma UnpromisedOwesNothing(leases: map<Vm, Lease>, d: Promises, h: Host, starting: Option<Vm>, v: Vm)
    requires BootSafe(leases, d.runs, h.guests) && !Promised(d, v)
    ensures OutstandingAt(d, h.guests, starting, v) == 0 && ActiveAt(d, h.guests, starting, v) == 0
  {
    if v in h.guests {
      assert BootSafeAt(Get(leases, v), Get(d.runs, v), h.guests[v]);
    }
  }

  /** One more slot measured, while the slots before it moved on. */
  lemma SampledMore(
    c: Config, leases: map<Vm, Lease>, d: Promises, w: Leeway, from: Host, h: Host, h': Host,
    activity: map<Vm, Activity>, starting: Option<Vm>, i: nat, k: Commitments, k': Commitments)
    requires i < |c.slots| && Evolves(c, d, true, w, h, h') && AllRead(c, d, true, w, from, h', activity)
    requires BootSafe(leases, d.runs, h.guests) && BootSafe(leases, d.runs, h'.guests) && w.falling == {}
    requires SkipIsOff(from.guests, starting) && SkipIsOff(h.guests, starting) && SkipIsOff(h'.guests, starting)
    requires Promised(d, c.slots[i]) ==> c.slots[i] in activity
    requires Sampled(d, w, c.slots[..i], from, h, starting, k)
    requires Noted(d, c.slots[i], h'.guests, activity, starting, k')
    ensures Sampled(d, w, c.slots[..i + 1], from, h', starting,
                    Commitments(k.active + k'.active, k.headroomMib + k'.headroomMib))
  {
    hide AllRead, Noted, OutstandingAt, ActiveAt, CountedAt, BootSafe, Measure, WorstAt;
    var slots := c.slots[..i + 1];
    assert slots[..i] == c.slots[..i] && c.slots[i] in slots && forall v <- c.slots[..i] :: v in slots;
    OwedFalls(d, w, c.slots[..i], h.guests, h'.guests, starting);
    ActiveSame(leases, d, c.slots[..i], h.guests, h'.guests, starting);
    NotedBounds(c, leases, d, w, from, h', activity, starting, c.slots[i], k');
  }

  lemma ActiveWithin(c: Config, d: Promises, w: Leeway, from: Host, h: Host, k: Commitments)
    requires Sampled(d, w, c.slots, from, h, None, k) && Kept(c, d, h.guests, h.available)
    ensures k.active <= c.maxActive
  {
  }

  lemma SampleStillHolds(
    c: Config, leases: map<Vm, Lease>, d: Promises, w: Leeway, h: Host, h': Host, starting: Option<Vm>, k: Commitments)
    requires Evolves(c, d, true, w, h, h') && Bounded(d, c.slots, h, starting, k) && w.falling == {}
    requires BootSafe(leases, d.runs, h.guests) && BootSafe(leases, d.runs, h'.guests)
    requires SkipIsOff(h.guests, starting) && SkipIsOff(h'.guests, starting)
    ensures Bounded(d, c.slots, h', starting, k)
  {
    OwedFalls(d, w, c.slots, h.guests, h'.guests, starting);
    ActiveSame(leases, d, c.slots, h.guests, h'.guests, starting);
  }

  /** An admission decided for a quiet slot is still good after the host moved on. */
  lemma AdmissionKeeps(c: Config, d: State, w: Leeway, h: Host, h': Host, v: Vm)
    requires Distinct(c.slots) && Evolves(c, PromisesOf(d), true, w, h, h')
    requires BootSafe(d.leases, d.runs, h.guests) && v in h.guests && h.guests[v].Quiet()
    ensures h'.available - Owed(PromisesOf(d), c.slots, h'.guests, Some(v))
            >= h.available - Owed(PromisesOf(d), c.slots, h.guests, Some(v))
    ensures Active(PromisesOf(d), c.slots, h'.guests, Some(v)) == Active(PromisesOf(d), c.slots, h.guests, Some(v))
    ensures v in h'.guests && h'.guests[v].Quiet()
  {
    BootSafeRely(d.leases, d.runs, h.guests, h'.guests);
    HeadroomHolds(PromisesOf(d), c.slots, h.guests, h.available, h'.guests, h'.available, Some(v));
    ActiveSame(d.leases, PromisesOf(d), c.slots, h.guests, h'.guests, Some(v));
  }

  /** The growth that covers a new target when it is saved: the worst cost for the guest `g` before the call, or what
      a reading of a held slot leaves. */
  predicate Covers(d: Promises, w: Leeway, v: Vm, g: Guest, t: Telemetry, memoryMib: nat, growth: nat) {
    || growth >= WorstGrowth(d, v, g, memoryMib)
    || (v in w.held && t.balloon.Some? && growth >= memoryMib - CurrentTarget(d, v, t))
  }

  /** A target decided at `h1` against the reading at `h`, in a call that began at `from`, is still covered when it is
      saved at `h'`. */
  lemma ResizeKeeps(
    c: Config, d: State, w: Leeway, from: Host, h: Host, h1: Host, h': Host, v: Vm, memoryMib: nat, growth: nat)
    requires Distinct(c.slots) && v in h.guests && h.guests[v].Up() && w.falling == {} && v in from.guests
    requires v in c.slots ==> Measured(h.guests[v].telemetry)
    requires Evolves(c, PromisesOf(d), true, w, from, h') && Evolves(c, PromisesOf(d), true, w, h, h')
    requires Evolves(c, PromisesOf(d), true, w, h1, h')
    requires BootSafe(d.leases, d.runs, h1.guests) && BootSafe(d.leases, d.runs, h'.guests)
    requires v in c.slots ==>
               Covers(PromisesOf(d), w, v, from.guests[v], h.guests[v].telemetry, memoryMib, growth)
    requires Affords(c, PromisesOf(d), h1.guests, h1.available, growth)
    ensures Kept(c, Promises(d.runs, d.requests[v := memoryMib]), h'.guests, h'.available)
  {
    hide SnapsRely, BootSafeAt, CostsAtMost, Affords, WorstGrowth, Covers;
    var p, g, g' := PromisesOf(d), h.guests[v], h'.guests[v];
    AffordsLater(c, d.leases, p, h1.guests, h1.available, h'.guests, h'.available, growth);
    if v in c.slots {
      assert Moves(p, w, v, g, g') && Moves(p, w, v, from.guests[v], g');
      if g'.boot.Some? {
        CoveredCost(p, w, v, from.guests[v], g, g', memoryMib, growth);
      }
      AffordedTargetKeeps(c, p, h'.guests, h'.available, v, memoryMib, growth);
    } else {
      AffordsLess(c, p, h'.guests, h'.available, growth);
      OffSlotTarget(c, p, h'.guests, h'.available, v, memoryMib);
    }
  }

  /** A decision that found room for `growth` more. */
  lemma DecisionAffords(c: Config, d: Promises, h: Host, decision: Decision, growth: nat)
    requires decision.availableMib <= h.available && decision.active == Active(d, c.slots, h.guests, None)
    requires decision.reservedGrowthMib >= MARGIN_MIB + Owed(d, c.slots, h.guests, None)
    requires decision.availableMib - growth - decision.reservedGrowthMib >= c.reserveMib + GUARD_MIB
    requires decision.active <= c.maxActive
    ensures Affords(c, d, h.guests, h.available, growth)
  {
  }

  lemma AffordsLess(c: Config, d: Promises, gs: map<Vm, Guest>, a: int, growth: nat)
    requires Affords(c, d, gs, a, growth)
    ensures Kept(c, d, gs, a)
  {
  }

  lemma CoveredCost(d: Promises, w: Leeway, v: Vm, first: Guest, g: Guest, g': Guest, memoryMib: nat, growth: nat)
    requires g.boot.Some? && g'.boot.Some? && Measured(g.telemetry)
    requires Moves(d, w, v, first, g') && Moves(d, w, v, g, g')
    requires Covers(d, w, v, first, g.telemetry, memoryMib, growth)
    ensures CostsAtMost(d, v, g', memoryMib, growth)
  {
    hide WorstGrowth;
    if growth >= WorstGrowth(d, v, first, memoryMib) {
      WorstCovers(d, w, v, first, g', memoryMib);
      CostsMore(d, v, g', memoryMib, WorstGrowth(d, v, first, memoryMib), growth);
    } else {
      GrowthCost(d, v, g', memoryMib, growth);
    }
  }

  predicate ValidSnapshotName(name: string) {
    4 <= |name| <= 43 && name[..3] == "ci-" && forall c <- name[3..] :: 'a' <= c <= 'z' || '0' <= c <= '9' || c == '-'
  }

  datatype Watch = Watch(
    hard: seq<Reason>, growth: seq<Reason>, added: seq<Reason>, available: int,
    activity: map<Vm, Activity>, sample: Option<Sample>)

  function HolderOf(lease: Option<Lease>): Option<Holder> {
    if lease.Some? then Some(lease.value.holder) else None
  }

  function PurposeOf(leases: map<Vm, Lease>, v: Vm): Purpose {
    if v in leases then leases[v].Effective() else Measurement
  }

  function HolderAt(leases: map<Vm, Lease>, v: Vm): Holder {
    if v in leases then leases[v].holder else ""
  }

  /** Why the guard acts on one slot: the hard reasons, growth for a measurement lease, and a guest that stopped by
      itself. */
  function ReasonsFor(leases: map<Vm, Lease>, v: Vm, a: Activity, hard: seq<Reason>, growth: seq<Reason>): seq<Reason> {
    hard + (if PurposeOf(leases, v) != Functional then growth else [])
    + (if a.phase == Some(Running) && !a.up then [UnexpectedlyStopped] else [])
  }

  /** A leased slot that is active, with a reason to stop it. */
  predicate Condemned(leases: map<Vm, Lease>, v: Vm, a: Activity, hard: seq<Reason>, growth: seq<Reason>) {
    v in leases && (a.up || a.promise) && ReasonsFor(leases, v, a, hard, growth) != []
  }

  /** `guard`'s test for a slot that was already invalidated under its current lease holder. */
  predicate KnownFault(faults: seq<Fault>, v: Vm, lease: Option<Lease>) {
    exists f <- faults :: f.vmid == v && HolderOf(f.lease) == HolderOf(lease)
  }

  /** While the balloons are held, what the guard reads leaves it headroom if there was some to spare when it began. */
  lemma SpareIsEnough(c: Config, d: State, h: Host, h': Host, h1: Host, k: Commitments)
    requires Evolves(c, PromisesOf(d), true, AllHeld(c.slots), h, h')
    requires Sampled(PromisesOf(d), AllHeld(c.slots), c.slots, h, h1, None, k)
    requires Spare(c, PromisesOf(d), h.guests, h.available)
    ensures h'.available - k.headroomMib - MARGIN_MIB >= c.reserveMib + GUARD_MIB
  {
    FluidBounds(PromisesOf(d), AllHeld(c.slots), c.slots, h.guests, h'.guests);
  }

  /** On any calm host it finds headroom if there was ample headroom when it began. */
  lemma AmpleIsEnough(c: Config, d: State, w: Leeway, h: Host, h': Host, h1: Host, k: Commitments)
    requires Evolves(c, PromisesOf(d), true, w, h, h')
    requires Sampled(PromisesOf(d), w, c.slots, h, h1, None, k)
    requires Ample(c, PromisesOf(d), h.guests, h.available)
    ensures h'.available - k.headroomMib - MARGIN_MIB >= c.reserveMib + GUARD_MIB
  {
    FluidBounds(PromisesOf(d), w, c.slots, h.guests, h'.guests);
  }

  /**
   * The pending requests outside `todo` were attempted: nothing but their state may have changed, and it is `Started`
   * exactly for those that started. All others are as they were.
   */
  ghost predicate Processed(
    before: map<Vm, Request>, now: map<Vm, Request>, todo: set<Vm>, started: set<(Vm, Holder)>)
  {
    && now.Keys == before.Keys
    && (forall v <- before ::
          if v in todo || before[v].state != Pending then now[v] == before[v] else Attempted(before[v], now[v]))
    && (forall e <- started ::
          e.0 in before && e.0 !in todo && before[e.0].state == Pending && before[e.0].holder == e.1)
    && forall v <- before :: before[v].state == Pending ==>
         (now[v].state == Started <==> (v, before[v].holder) in started)
  }

  predicate Attempted(before: Request, now: Request) {
    now == before.(state := now.state)
  }

  lemma ProcessedNone(deferred: map<Vm, Request>)
    ensures Processed(deferred, deferred, deferred.Keys, {})
  {
  }

  /** An attempt at one request, whatever came of it. */
  lemma ProcessedMore(
    before: map<Vm, Request>, now: map<Vm, Request>, todo: set<Vm>, started: set<(Vm, Holder)>, v: Vm)
    requires Processed(before, now, todo, started) && v in todo && v in now
    ensures Processed(before, now, todo - {v}, started)
    ensures v in before && now[v] == before[v]
    ensures before[v].state == Pending ==>
              && Processed(before, now[v := before[v].(state := Started)], todo - {v},
                           started + {(v, before[v].holder)})
              && forall st | st != Started :: Processed(before, now[v := before[v].(state := st)], todo - {v}, started)
  {
  }

  datatype Command =
    | LeaseCommand(vmid: Vm, holder: Holder, seconds: int, purpose: Purpose)
    | ReleaseCommand(vmid: Vm, holder: Holder)
    | StartCommand(vmid: Vm, holder: Holder, memoryMib: int)
    | ResizeCommand(vmid: Vm, holder: Holder, memoryMib: int)
    | StopCommand(vmid: Vm, holder: Holder)
    | DeferCommand(vmid: Vm, holder: Holder, seconds: int, memoryMib: int, purpose: Purpose)
    | SnapshotCommand(vmid: Vm, holder: Holder, name: string, preserve: bool)
    | RollbackCommand(vmid: Vm, holder: Holder, name: string)
    | DiscardCommand(vmid: Vm, holder: Holder, name: string)
    | DeferredCommand
    | GuardCommand
    | ReapCommand

  /** A resize whose target the host fits; every other command does. */
  predicate FitsNow(c: Config, d: State, h: Host, command: Command) {
    command.ResizeCommand? ==>
      ResizeFits(c, PromisesOf(d), h.guests, h.available, command.vmid, Max(0, command.memoryMib))
  }

  /** The file and the host that a command met, and whether it was an admitted start or growth. */
  datatype Turn = Turn(disk: State, host: Host, admitted: bool)

  /** Headroom after the commands: the last one was harmless, and there was headroom before it or it was admitted. */
  predicate KeptAfter(c: Config, still: bool, kept: bool, commands: seq<Command>, turns: seq<Turn>)
    requires |turns| == |commands|
  {
    if turns == [] then kept
    else
      var n := |turns| - 1;
      && (still || FitsNow(c, turns[n].disk, turns[n].host, commands[n]))
      && (turns[n].admitted || KeptAfter(c, still, kept, commands[..n], turns[..n]))
  }

  /** If every command was harmless, headroom once kept or admitted is never lost. */
  lemma {:induction false} KeptOnceAdmitted(
    c: Config, still: bool, kept: bool, commands: seq<Command>, turns: seq<Turn>)
    requires |turns| == |commands| && forall i | 0 <= i < |turns| ::
               still || FitsNow(c, turns[i].disk, turns[i].host, commands[i])
    ensures KeptAfter(c, still, kept, commands, turns) <==> kept || exists t <- turns :: t.admitted
  {
    hide FitsNow;
    if turns != [] {
      var n := |turns| - 1;
      KeptOnceAdmitted(c, still, kept, commands[..n], turns[..n]);
      if t :| t in turns && t.admitted {
        assert t == turns[n] || t in turns[..n];
      }
      assert turns[n] in turns && forall t <- turns[..n] :: t in turns;
    }
  }

  /** What one command achieved on behalf of which slot and holder, and the faults on file after it. */
  datatype Entry = Entry(done: set<(Vm, Holder)>, faults: seq<Fault>)

  function Done<T>(r: Result<T>, v: Vm, holder: Holder): set<(Vm, Holder)> {
    if r.Ok? then {(v, holder)} else {}
  }

  /** Only the record under `k` may differ. */
  predicate SameExcept(a: map<Key, Snapshot>, b: map<Key, Snapshot>, k: Key) {
    a - {k} == b - {k}
  }

  lemma OneRecord(records: map<Key, Snapshot>, k: Key, r: Snapshot)
    ensures SameExcept(records[k := r], records, k) && SameExcept(records - {k}, records, k)
  {
  }

  lemma OtherRecord(a: map<Key, Snapshot>, b: map<Key, Snapshot>, k: Key, x: Key)
    requires SameExcept(a, b, k) && x != k
    ensures (x in a <==> x in b) && (x in a ==> a[x] == b[x])
  {
    assert x in a <==> x in a - {k};
    assert x in b <==> x in b - {k};
    assert x in a ==> (a - {k})[x] == a[x];
    assert x in b ==> (b - {k})[x] == b[x];
  }

  /** A record that reaping leaves alone: preserved, not expired, or of a slot under a live lease. */
  predicate Spared(r: Snapshot, v: Vm, leases: map<Vm, Lease>, now: int) {
    r.preserve || r.expires > now || Live(leases, v, now)
  }

  function QuiescedRuns(runs: map<Vm, Run>, v: Vm): map<Vm, Run> {
    if v in runs then runs[v := runs[v].(phase := Quiesced)] else runs
  }

  /** The runs and targets of all other slots are the same. */
  predicate SameOthers(d: State, d': State, v: Vm) {
    d'.runs - {v} == d.runs - {v} && d'.requests - {v} == d.requests - {v}
  }

  lemma QuiescedOthers(d: State, d': State, v: Vm)
    requires d'.runs == QuiescedRuns(d.runs, v) && d'.requests == d.requests - {v}
    ensures SameOthers(d, d', v)
    ensures forall u | u != v :: Get(d'.runs, u) == Get(d.runs, u)
    ensures !Promised(PromisesOf(d'), v)
  {
    assert QuiescedRuns(d.runs, v) - {v} == d.runs - {v};
  }

  lemma OthersKeep(d: State, d': State, v: Vm)
    requires SameOthers(d, d', v)
    ensures forall u | u != v :: Get(d'.runs, u) == Get(d.runs, u)
    ensures forall u | u != v :: Promised(PromisesOf(d'), u) == Promised(PromisesOf(d), u)
  {
    forall u | u != v
      ensures Get(d'.runs, u) == Get(d.runs, u) && Promised(PromisesOf(d'), u) == Promised(PromisesOf(d), u)
    {
      OtherPromises(PromisesOf(d), PromisesOf(d'), v, u);
    }
  }

  lemma RunsReapedMore(d: State, d': State, d'': State, v: Vm, now: int)
    requires RunsReaped(d, d', now) && SameOthers(d', d'', v) && !Live(d.leases, v, now)
    ensures RunsReaped(d, d'', now)
  {
    OthersKeep(d', d'', v);
    forall u | u in d.runs && Live(d.leases, u, now)
      ensures u in d''.runs && d''.runs[u] == d.runs[u]
    {
      assert Get(d''.runs, u) == Get(d'.runs, u);
    }
  }

  /** The records of a granted lease: the same generation and holder renewed, or a fresh generation with the run and the
      target of the slot forgotten; no other slot is touched. */
  predicate Granted(
    d: State, d': State, v: Vm, holder: Holder, purpose: Option<Purpose>, lease: Lease, minted: nat)
  {
    && d'.leases == d.leases[v := lease] && lease.holder == holder
    && if lease.generation < minted then
         && v in d.leases && d.leases[v].(expires := lease.expires) == lease
         && d'.runs == d.runs && d'.requests == d.requests
       else
         lease.purpose == purpose && d'.runs == d.runs - {v} && d'.requests == d.requests - {v}
  }

  /** The records of a successful start: the slot runs for its current lease and nothing else moved; a cold start
      charges the launch memory and sets the target, a reconnect leaves both. */
  predicate StartedFor(d: State, d': State, v: Vm, holder: Holder, memoryMib: int, cold: bool) {
    && v in d'.leases && d'.leases[v].holder == holder && v in d'.runs && d'.runs == d.runs[v := d'.runs[v]]
    && d'.runs[v].phase == Running && d'.runs[v].holder == holder && d'.runs[v].generation == d'.leases[v].generation
    && if cold then
         && 2048 <= memoryMib <= BOOT_MEMORY_MIB && d'.requests == d.requests[v := memoryMib]
         && d'.runs[v].startupMib == BOOT_MEMORY_MIB
       else
         v in d.runs && d'.runs[v] == d.runs[v].(phase := Running) && d'.requests == d.requests
  }

  datatype Reaping = Reaping(now: int, activity: map<Vm, Activity>, pending: set<Vm>)

  lemma ReapableIsFree(r: Snapshot, v: Vm, leases: map<Vm, Lease>, now: int)
    requires !Spared(r, v, leases, now)
    ensures !r.preserve
  {
  }

  predicate Live(leases: map<Vm, Lease>, v: Vm, now: int) {
    v in leases && leases[v].expires > now
  }

  /** A slot that should be stopped: no live lease, still active, and not used for a while. */
  predicate Idle(
    c: Config, leases: map<Vm, Lease>, lastUsed: map<Vm, int>, activity: map<Vm, Activity>, v: Vm, now: int)
  {
    && !Live(leases, v, now) && v in activity && (activity[v].up || activity[v].promise)
    && now - (if v in lastUsed then lastUsed[v] else now) >= c.idleSeconds
  }

  /** Runs under a live lease are left alone. */
  predicate RunsReaped(d: State, d': State, now: int) {
    forall v <- d.runs :: Live(d.leases, v, now) ==> v in d'.runs && d'.runs[v] == d.runs[v]
  }

  /** Exactly the spared records remain, unchanged. */
  predicate SnapshotsReaped(d: State, d': State, now: int) {
    && (forall k <- d'.snapshots :: k in d.snapshots && d'.snapshots[k] == d.snapshots[k])
    && (forall k <- d.snapshots :: k in d'.snapshots <==> Spared(d.snapshots[k], k.0, d.leases, now))
  }

  predicate Reaped(d: State, d': State, now: int) {
    RunsReaped(d, d', now) && SnapshotsReaped(d, d', now)
  }

  lemma ReapedParts(d: State, d': State, d'': State, now: int)
    requires RunsReaped(d, d', now) && SnapshotsReaped(d', d'', now)
    requires d'.leases == d.leases && d'.snapshots == d.snapshots && d''.runs == d'.runs
    ensures Reaped(d, d'', now)
  {
  }

  datatype GuestConfig = GuestConfig(lock: bool, template: bool, vmgenid: int)
}
