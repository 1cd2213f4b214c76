/** The lab controller's durable state, its host, and what the host may do on its own. */
module LabState {
  import opened Wrappers

  /** The ways a controller call ends early: killed, or one of the source's exception classes. */
  datatype Error = Killed | CapacityUnavailable | RuntimeError | ValueError | TransportError

  type Result<+T> = Fallible<T, Error>

  type Vm = int
  type Holder = string

  datatype Purpose = Functional | Measurement

  datatype Lease = Lease(holder: Holder, expires: int, generation: nat, purpose: Option<Purpose>) {
    /** A lease without a stored purpose is a strict measurement lease. */
    function Effective(): Purpose {
      if purpose == Some(Functional) then Functional else Measurement
    }
  }

  datatype Phase = Starting | Running | Quiesced

  datatype Run = Run(holder: Holder, generation: nat, vmgenid: int, phase: Phase, startupMib: nat)

  datatype RequestState = Pending | Started | Expired | Blocked

  datatype Request =
    Request(holder: Holder, memoryMib: int, expires: int, state: RequestState, purpose: Option<Purpose>)

  /** A snapshot description: the token this controller minted for one effect, or any other text. */
  datatype Owner = Effect(token: nat) | Text(text: string)

  datatype SnapshotState = Creating | Ready | Deleting

  datatype Snapshot = Snapshot(expires: int, preserve: bool, owner: Owner, state: SnapshotState)

  type Key = (Vm, string)

  datatype Fault = Fault(vmid: Vm, lease: Option<Lease>)

  datatype Managed = Builder | Agent

  datatype Process = Process(vmid: Vm, pid: int, startTicks: int, rssBytes: int)

  datatype Sample =
    Sample(timestamp: int, availableMib: int, psiSome: real, psiFull: real, builder: Process, agent: Process)

  datatype State = State(
    leases: map<Vm, Lease>,
    runs: map<Vm, Run>,
    requests: map<Vm, nat>,
    deferred: map<Vm, Request>,
    snapshots: map<Key, Snapshot>,
    faults: seq<Fault>,
    lastUsed: map<Vm, int>,
    holdUntil: int,
    sample: Option<Sample>,
    baseline: Option<Sample>)

  /** The part of the state that effects and promises depend on. */
  predicate SameCore(a: State, b: State) {
    && a.leases == b.leases && a.runs == b.runs && a.requests == b.requests
    && a.snapshots == b.snapshots && a.faults == b.faults
  }

  datatype Config =
    Config(slots: seq<Vm>, template: Vm, reserveMib: int, maxActive: int, networkCheck: bool, idleSeconds: int)

  // ----- The host -----

  /** A `qm start` that the host accepted, with the lease it was issued for. */
  datatype Boot = Boot(generation: nat, holder: Holder)

  datatype Telemetry =
    Telemetry(balloon: Option<int>, maxmem: Option<int>, balloonMin: int, memhost: Option<int>, rss: Option<int>)

  /** `pending` holds accepted starts that have not finished; `boot` is the one a powered-on guest came from. */
  datatype Guest = Guest(pending: multiset<Boot>, boot: Option<Boot>, telemetry: Telemetry) {
    predicate Up() {
      boot.Some?
    }

    predicate Quiet() {
      pending == multiset{} && boot.None?
    }
  }

  /** External snapshots, the snapshot effects still in flight, and the owners our deletions removed. */
  datatype Snaps = Snaps(
    present: map<Key, Owner>,
    creates: set<(Key, Owner)>,
    deletes: set<Key>,
    deleted: set<Owner>)

  /** An unfinished start may finish or fail at any time; nothing else powers a guest on. */
  predicate GuestRely(g: Guest, g': Guest) {
    && g'.pending <= g.pending
    && (g'.boot.Some? && g'.boot != g.boot ==> g'.boot.value in g.pending - g'.pending)
  }

  predicate GuestsRely(gs: map<Vm, Guest>, gs': map<Vm, Guest>) {
    gs'.Keys == gs.Keys && forall v <- gs :: GuestRely(gs[v], gs'[v])
  }

  /** Snapshot effects land late; other actors may add or remove snapshots, but never forge a minted owner. */
  predicate SnapsRely(s: Snaps, s': Snaps) {
    && s'.creates <= s.creates
    && s'.deletes <= s.deletes
    && (forall k <- s'.present :: s'.present[k].Effect? ==>
          (k in s.present && s.present[k] == s'.present[k]) || (k, s'.present[k]) in s.creates)
    && s.deleted <= s'.deleted
    && (forall o <- s'.deleted - s.deleted :: o.Effect? ==>
          exists k <- s.deletes :: (k in s.present && s.present[k] == o) || (k, o) in s.creates)
  }

  datatype Host = Host(guests: map<Vm, Guest>, snaps: Snaps, now: int, available: int)

  /** What one host call meets: the host it finds, and how the call itself turns out. */
  datatype Moment = Moment(
    host: Host,
    killed: bool,
    fails: bool,
    refused: bool,
    lock: bool,
    busy: bool,
    template: bool,
    vmgenid: int,
    hints: set<Vm>,
    sample: Sample)
}
