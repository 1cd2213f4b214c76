/** Admission and the telemetry checks in front of it. */
module LabCapacity {
  import opened Wrappers
  import opened Shared
  import opened LabState
  import opened LabMemory

  datatype Reason =
    | UnsafeWindow
    | StaleSample
    | BaselineChanged(guest: Managed)
    | GrowthExceeded(guest: Managed)
    | MemoryPressure
    | ReservePressure
    | RetentionHeadroom
    | ActiveLimit
    | MeasurementUnavailable
    | CommitmentsUnavailable
    | UnexpectedlyStopped

  datatype Safety = Safety(reasons: seq<Reason>, growth: seq<Reason>)

  datatype Decision = Decision(
    allowed: bool, active: nat, availableMib: int, targetMib: int, reservedGrowthMib: int, projectedMib: int,
    safety: seq<Reason>, sample: Sample)

  function AllowanceMib(guest: Managed): int {
    if guest == Builder then 1024 else 512
  }

  function ManagedProcess(s: Sample, guest: Managed): Process {
    if guest == Builder then s.builder else s.agent
  }

  function BaselineReasons(baseline: Option<Sample>, sample: Sample, guest: Managed): seq<Reason> {
    if baseline.None? then [BaselineChanged(guest)]
    else
      var before, after := ManagedProcess(baseline.value, guest), ManagedProcess(sample, guest);
      if before.(rssBytes := after.rssBytes) != after then [BaselineChanged(guest)] else []
  }

  function GrowthReasons(baseline: Option<Sample>, sample: Sample, guest: Managed): seq<Reason> {
    if BaselineReasons(baseline, sample, guest) != [] then []
    else
      var delta := Max(0, ManagedProcess(sample, guest).rssBytes - ManagedProcess(baseline.value, guest).rssBytes);
      if delta > AllowanceMib(guest) * MIB then [GrowthExceeded(guest)] else []
  }

  function CapacitySafety(c: Config, s: State, sample: Sample, includeHold: bool, purpose: Purpose): Safety {
    var baseline := if s.baseline.Some? then s.baseline else s.sample;
    var growth := GrowthReasons(baseline, sample, Builder) + GrowthReasons(baseline, sample, Agent);
    var reasons :=
      (if includeHold && sample.timestamp < s.holdUntil then [UnsafeWindow] else [])
      + (if s.sample.None? || !(0 <= sample.timestamp - s.sample.value.timestamp <= 45) then [StaleSample] else [])
      + BaselineReasons(baseline, sample, Builder) + BaselineReasons(baseline, sample, Agent)
      + (if sample.psiSome >= 1.0 || sample.psiFull >= 0.1 then [MemoryPressure] else [])
      + (if sample.availableMib < c.reserveMib + GUARD_MIB then [ReservePressure] else []);
    Safety(reasons + (if purpose == Functional then [] else growth), growth)
  }

  function Remaining(availableMib: int, targetMib: int, growthMib: int): int {
    availableMib - targetMib - growthMib
  }

  /** Reserves the complete requested target on top of the promised growth, or refuses. */
  function Admission(
    c: Config, availableMib: int, active: nat, targetMib: int, growthMib: int, sample: Sample): (r: Result<Decision>)
    ensures r.Ok? <==> 2048 <= targetMib <= BOOT_MEMORY_MIB && growthMib >= 0
    ensures r.Ok? ==>
              (r.value.allowed <==> active < c.maxActive && availableMib >= c.reserveMib + targetMib + growthMib)
  {
    if !(2048 <= targetMib <= BOOT_MEMORY_MIB) || growthMib < 0 then Err(ValueError)
    else
      var remaining := Remaining(availableMib, targetMib, growthMib);
      Ok(Decision(active < c.maxActive && remaining >= c.reserveMib,
                  active, availableMib, targetMib, growthMib, remaining, [], sample))
  }

  /** An admission also needs a safe sample and the guard's distance from the reserve. */
  function Confirmed(c: Config, d: Decision, safety: seq<Reason>): Decision {
    d.(allowed := d.allowed && safety == [] && d.projectedMib >= c.reserveMib + GUARD_MIB, safety := safety)
  }
}
