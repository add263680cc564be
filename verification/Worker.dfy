/** One registered contemplant, as the registry sees it. */
module Worker {
  import opened Network

  // Monotonic instants and wall-clock times, both in nanoseconds.
  type Instant = nat
  type WallTime = int
  type Channel = nat
  type Addr = string

  const SECOND: nat := 1_000_000_000
  const MINUTE: nat := 60 * SECOND

  datatype Config = Config(
    maxStrikes: nat,
    heartbeatInterval: nat,      // nanoseconds
    proofTimeoutMins: nat,
    progressIntervalMins: nat,   // 0 switches the progress check off
    executionReportMins: nat,
    startupGraceSecs: nat)

  datatype Capabilities = Capabilities(vms: seq<VmKind>, risc0Groth16: bool, openVmEvm: bool)

  datatype WorkerStatus =
    | Idle
    | Busy(id: Id, vm: VmKind, modeName: string, start: Instant,
           progress: Option<Progress>, lastUpdate: WallTime)

  datatype WorkerState = WorkerState(
    name: string,
    status: WorkerStatus,
    lastVm: Option<VmKind>,
    capabilities: Capabilities,
    strikes: nat,
    lastHeartbeat: Instant,
    channel: Channel,
    dropEndpoint: Option<string>,
    nonce: nat)
  {
    predicate CanServe(r: Request) {
      && r.Vm() in capabilities.vms
      && (r.NeedsGroth16() ==> capabilities.risc0Groth16)
      && (r.NeedsOpenVmEvm() ==> capabilities.openVmEvm)
    }

    predicate BusyWith(id: Id) {
      status.Busy? && status.id == id
    }

    predicate HotFor(r: Request) {
      lastVm == Some(r.Vm())
    }

    function Assigned(r: Request, now: Instant, wall: WallTime): WorkerState {
      this.(status := Busy(r.id, r.Vm(), r.ModeName(), now, None, wall),
            lastVm := Some(r.Vm()),
            strikes := 0)
    }

    function CompletedProof(): WorkerState {
      this.(status := Idle, strikes := 0)
    }

    function FailedProof(): WorkerState {
      this.(status := Idle)
    }

    function Struck(): WorkerState {
      this.(strikes := strikes + 1)
    }

    // The eviction test, branch for branch.  The last branch is entered only when the
    // wall clock reads earlier than the last update.
    predicate ShouldDrop(cfg: Config, now: Instant, wall: WallTime) {
      if strikes >= cfg.maxStrikes then true
      else if Elapsed(lastHeartbeat, now) >= cfg.heartbeatInterval then true
      else if status.Idle? then false
      else
        var mins := Elapsed(status.start, now) / MINUTE;
        if mins > cfg.proofTimeoutMins then true
        else if wall >= status.lastUpdate then
          cfg.progressIntervalMins > 0
          && (wall - status.lastUpdate) / MINUTE > cfg.progressIntervalMins
        else
          status.progress.None? && mins > cfg.executionReportMins
    }

    // A progress report: a higher rank replaces, an absent one only refreshes the time.
    function Reported(update: Option<Progress>, wall: WallTime): WorkerState
      requires status.Busy?
    {
      if update.None? then
        this.(status := status.(lastUpdate := wall))
      else if OptionRank(update) > OptionRank(status.progress) then
        this.(status := status.(lastUpdate := wall, progress := update))
      else
        this
    }
  }

  // `Instant::elapsed` saturates at zero.
  function Elapsed(since: Instant, now: Instant): nat {
    if now >= since then now - since else 0
  }

  /** Whether some two values of the execution-report limit treat this worker differently. */
  ghost predicate ExecutionReportLimitMatters(w: WorkerState, cfg: Config, now: Instant, wall: WallTime) {
    exists m: nat, n: nat ::
      w.ShouldDrop(cfg.(executionReportMins := m), now, wall) != w.ShouldDrop(cfg.(executionReportMins := n), now, wall)
  }

  /** The documented limit on execution-report time decides only for a busy worker that nothing
      else evicts, that has reported no progress for some minutes, and whose last update lies
      in the future: that is, only after the wall clock ran backwards. */
  lemma ExecutionReportLimitMattersIff(w: WorkerState, cfg: Config, now: Instant, wall: WallTime)
    ensures ExecutionReportLimitMatters(w, cfg, now, wall)
       <==> && w.strikes < cfg.maxStrikes && Elapsed(w.lastHeartbeat, now) < cfg.heartbeatInterval
            && w.status.Busy? && w.status.progress.None? && wall < w.status.lastUpdate
            && 0 < Elapsed(w.status.start, now) / MINUTE <= cfg.proofTimeoutMins
  {
    if w.status.Busy? {
      var mins := Elapsed(w.status.start, now) / MINUTE;
      var strict, lax := cfg.(executionReportMins := 0), cfg.(executionReportMins := mins);
      if && w.strikes < cfg.maxStrikes && Elapsed(w.lastHeartbeat, now) < cfg.heartbeatInterval
         && w.status.progress.None? && wall < w.status.lastUpdate && 0 < mins <= cfg.proofTimeoutMins {
        assert w.ShouldDrop(strict, now, wall) && !w.ShouldDrop(lax, now, wall);
      }
    }
  }
}
