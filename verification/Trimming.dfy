/** Which workers are evicted and which stay, in numbers: strikes, nanoseconds and minutes. */
module Trimming {
  import opened Network
  import opened Worker
  import opened RegistryModel
  import opened Ledger
  import opened RegistryInvariant
  import opened RegistryFrames
  import opened Reconnect

  /** Heard from within the heartbeat window. */
  predicate Heard(cfg: Config, w: WorkerState, now: Instant) {
    cfg.heartbeatInterval > 0 && now - w.lastHeartbeat < cfg.heartbeatInterval
  }

  /** Idle, or at work for less than one minute more than the proof timeout. */
  predicate InTime(cfg: Config, w: WorkerState, now: Instant) {
    w.status.Busy? ==> now - w.status.start < (cfg.proofTimeoutMins + 1) * 60_000_000_000
  }

  /** Idle, or reporting: with the last update in the past, less than one minute more than the
      progress interval ago, if there is one; with the last update in the future, some progress
      was reported or the work is younger than one minute more than the execution-report limit. */
  predicate Reporting(cfg: Config, w: WorkerState, now: Instant, wall: WallTime) {
    w.status.Busy? ==>
      if w.status.lastUpdate <= wall then
        cfg.progressIntervalMins == 0 || wall - w.status.lastUpdate < (cfg.progressIntervalMins + 1) * 60_000_000_000
      else
        w.status.progress.Some? || now - w.status.start < (cfg.executionReportMins + 1) * 60_000_000_000
  }

  predicate Healthy(cfg: Config, w: WorkerState, now: Instant, wall: WallTime) {
    w.strikes < cfg.maxStrikes && Heard(cfg, w, now) && InTime(cfg, w, now) && Reporting(cfg, w, now, wall)
  }

  lemma WholeMinutes(nanos: nat, limit: nat)
    ensures nanos / MINUTE > limit <==> nanos >= (limit + 1) * 60_000_000_000
  {
  }

  lemma DroppedIff(cfg: Config, w: WorkerState, now: Instant, wall: WallTime)
    ensures w.ShouldDrop(cfg, now, wall) <==> !Healthy(cfg, w, now, wall)
  {
    if w.status.Busy? {
      WholeMinutes(Elapsed(w.status.start, now), cfg.proofTimeoutMins);
      WholeMinutes(Elapsed(w.status.start, now), cfg.executionReportMins);
      if w.status.lastUpdate <= wall {
        WholeMinutes(wall - w.status.lastUpdate, cfg.progressIntervalMins);
      }
    }
  }

  /** A trim keeps exactly the healthy workers, untouched. */
  lemma TrimKeepsExactlyTheHealthy(cfg: Config, s: State, s': State, a: Addr)
    requires Trimmed(cfg, s, s')
    ensures a in s'.workers <==> a in s.workers && Healthy(cfg, s.workers[a], s.now, s.wall)
    ensures a in s'.workers ==> s'.workers[a] == s.workers[a]
  {
    TrimFrame(cfg, s, s');
    if a in s.workers {
      DroppedIff(cfg, s.workers[a], s.now, s.wall);
    }
  }

  // The end of the request an evicted worker was busy with.
  predicate Ended(fates: seq<Fate>, w: WorkerState) {
    w.status.Busy? ==> Fate(w.status.id, Evicted) in fates
  }

  lemma {:induction false} EvictionsAreRecorded(s: State, order: seq<Addr>, a: Addr)
    requires a in order && a in s.workers
    ensures var s', w := EvictAll(s, order), s.workers[a];
            && Dead(a, w) in s'.dead && Ended(s'.fates, w) && (w.dropEndpoint.Some? ==> w.dropEndpoint.value in s'.drops)
  {
    var init, last := order[..|order| - 1], order[|order| - 1];
    EvictAllFrame(s, init);
    assert order == init + [last];
    if a in init {
      EvictionsAreRecorded(s, init, a);
    }
  }

  lemma {:induction false} DeadWereEvicted(s: State, order: seq<Addr>, k: nat)
    requires |s.dead| <= k < |EvictAll(s, order).dead|
    ensures var d := EvictAll(s, order).dead[k]; d.addr in order && d.addr in s.workers && d.worker == s.workers[d.addr]
  {
    var init := order[..|order| - 1];
    EvictAllFrame(s, init);
    assert order == init + [order[|order| - 1]];
    if k < |EvictAll(s, init).dead| {
      DeadWereEvicted(s, init, k);
    }
  }

  /** Every evicted worker goes to the dead list as it was, its endpoint is dropped and its request
      ended; and nobody else goes to the dead list. */
  lemma TrimRecordsTheDead(cfg: Config, s: State, s': State, a: Addr, k: nat)
    requires Trimmed(cfg, s, s')
    ensures a in s.workers && !Healthy(cfg, s.workers[a], s.now, s.wall) ==>
              var w := s.workers[a];
              Dead(a, w) in s'.dead && Ended(s'.fates, w) && (w.dropEndpoint.Some? ==> w.dropEndpoint.value in s'.drops)
    ensures |s.dead| <= k < |s'.dead| ==>
              var d := s'.dead[k];
              d.addr in s.workers && d.worker == s.workers[d.addr] && !Healthy(cfg, d.worker, s.now, s.wall)
  {
    var order :| DropOrder(cfg, s, order) && s' == EvictAll(s, order);
    if a in s.workers {
      DroppedIff(cfg, s.workers[a], s.now, s.wall);
      if a in order {
        EvictionsAreRecorded(s, order, a);
      }
    }
    if |s.dead| <= k < |s'.dead| {
      DeadWereEvicted(s, order, k);
      DroppedIff(cfg, s'.dead[k].worker, s.now, s.wall);
    }
  }

  /** After any assignment or poll, in any run, every live worker was heard from, is in time and is
      reporting; and every worker that was healthy before is still there. */
  lemma OnlyTheHealthyStay(cfg: Config, states: seq<State>, events: seq<Event>, i: nat, a: Addr)
    requires Run(cfg, states, events) && i < |events| && (events[i].Assign? || events[i].Poll?)
    ensures a in states[i + 1].workers <==>
              a in states[i].workers && Healthy(cfg, states[i].workers[a], states[i].now, states[i].wall)
    ensures a in states[i + 1].workers ==>
              var w, now, wall := states[i + 1].workers[a], states[i + 1].now, states[i + 1].wall;
              Heard(cfg, w, now) && InTime(cfg, w, now) && Reporting(cfg, w, now, wall)
  {
    var s, s' := states[i], states[i + 1];
    if events[i].Assign? {
      AssignTrims(cfg, s, events[i].req, s', a);
    } else {
      PollTrims(cfg, s, events[i].id, events[i].to, s', a);
    }
  }

  lemma AssignTrims(cfg: Config, s: State, r: Request, s': State, a: Addr)
    requires AssignProof(cfg, s, r, s')
    ensures a in s'.workers <==> a in s.workers && Healthy(cfg, s.workers[a], s.now, s.wall)
    ensures a in s'.workers ==>
              var w := s'.workers[a];
              Heard(cfg, w, s'.now) && InTime(cfg, w, s'.now) && Reporting(cfg, w, s'.now, s'.wall)
  {
    var s0 := s.(submitted := s.submitted + [r.id]);
    var s1 :| Trimmed(cfg, s0, s1) && AssignNow(s1, r, s');
    TrimFrame(cfg, s0, s1);
    TrimKeepsExactlyTheHealthy(cfg, s0, s1, a);
    var ws, out :| AssignTried(s1, r, ws, out, s');
    SettledFrame(s1, r, ws, out);
    if a in s1.workers {
      AttemptKeepsTimes(s1.workers, s1.closed, s1.now, s1.wall, r, ws, out, a);
    }
  }

  // A try leaves heartbeats alone, and work is either old or begins now.
  lemma AttemptKeepsTimes(ws: Workers, closed: set<Channel>, now: Instant, wall: WallTime,
                          r: Request, ws': Workers, out: Outcome, a: Addr)
    requires Attempt(ws, closed, now, wall, r, ws', out) && a in ws
    ensures a in ws' && ws'[a].lastHeartbeat == ws[a].lastHeartbeat
    ensures ws'[a].status == ws[a].status
            || (ws'[a].status.Busy? && ws'[a].status.start == now && ws'[a].status.lastUpdate == wall)
  {
  }

  lemma PollTrims(cfg: Config, s: State, id: Id, to: Responder, s': State, a: Addr)
    requires StatusRequest(cfg, s, id, to, s')
    ensures a in s'.workers <==> a in s.workers && Healthy(cfg, s.workers[a], s.now, s.wall)
    ensures a in s'.workers ==>
              var w := s'.workers[a];
              Heard(cfg, w, s'.now) && InTime(cfg, w, s'.now) && Reporting(cfg, w, s'.now, s'.wall)
  {
    var s0 := s.(asked := s.asked + [to]);
    var s1 :| Trimmed(cfg, s0, s1) && StatusLookup(cfg, s1, id, to, s');
    TrimFrame(cfg, s0, s1);
    TrimKeepsExactlyTheHealthy(cfg, s0, s1, a);
    LookupFrame(cfg, s1, id, to, s');
  }

  /** The worker of a request that is struck counts one strike more, and goes or stays by its
      health with that strike; every other worker goes or stays by its health. */
  lemma StrikeCountsOne(cfg: Config, s: State, id: Id, s': State, a: Addr)
    requires BusyUnique(s.workers) && Step(cfg, s, Strike(id), s') && Served(s.workers, id) && a in s.workers
    ensures var w := if s.workers[a].BusyWith(id) then s.workers[a].(strikes := s.workers[a].strikes + 1) else s.workers[a];
            && (a in s'.workers <==> Healthy(cfg, w, s.now, s.wall))
            && (a in s'.workers ==> s'.workers[a] == w)
  {
    var b :| b in s.workers && s.workers[b].BusyWith(id)
             && Trimmed(cfg, WithStrikes(s, b, s.workers[b].strikes + 1), s');
    TrimKeepsExactlyTheHealthy(cfg, WithStrikes(s, b, s.workers[b].strikes + 1), s', a);
  }

  /** Dropping the worker of a request leaves nobody at work on it, and evicts nobody else that
      is healthy. */
  lemma DropLeavesNobody(cfg: Config, s: State, id: Id, s': State, a: Addr)
    requires BusyUnique(s.workers) && Step(cfg, s, DropOf(id), s') && Served(s.workers, id)
    ensures !Served(s'.workers, id)
    ensures a in s'.workers <==> a in s.workers && !s.workers[a].BusyWith(id) && Healthy(cfg, s.workers[a], s.now, s.wall)
    ensures a in s'.workers ==> s'.workers[a] == s.workers[a]
  {
    var b :| b in s.workers && s.workers[b].BusyWith(id) && Trimmed(cfg, WithStrikes(s, b, cfg.maxStrikes), s');
    var s1 := WithStrikes(s, b, cfg.maxStrikes);
    forall c ensures c in s'.workers <==> c in s1.workers && Healthy(cfg, s1.workers[c], s.now, s.wall) {
      TrimKeepsExactlyTheHealthy(cfg, s1, s', c);
    }
    TrimKeepsExactlyTheHealthy(cfg, s1, s', a);
    TrimFrame(cfg, s1, s');
  }

  /** A report for a running request: nothing new refreshes the time, a progress of higher rank
      than the one known replaces it and refreshes the time, any other changes nothing. */
  lemma ReportsRaiseProgress(cfg: Config, s: State, id: Id, update: Option<Progress>, s': State, a: Addr)
    requires BusyUnique(s.workers) && Step(cfg, s, Report(id, update), s') && a in s.workers
    ensures a in s'.workers
    ensures !s.workers[a].BusyWith(id) ==> s'.workers[a] == s.workers[a]
    ensures s.workers[a].BusyWith(id) ==>
              var old', new' := s.workers[a].status, s'.workers[a].status;
              && s'.workers[a] == s.workers[a].(status := new')
              && new' == old'.(progress := new'.progress, lastUpdate := new'.lastUpdate)
              && (update.None? ==> new'.progress == old'.progress && new'.lastUpdate == s.wall)
              && (update.Some? && (old'.progress.None? || Rank(update.value) > Rank(old'.progress.value)) ==>
                    new'.progress == update && new'.lastUpdate == s.wall)
              && (update.Some? && old'.progress.Some? && Rank(update.value) <= Rank(old'.progress.value) ==> new' == old')
  {
    if Served(s.workers, id) {
      var b :| b in s.workers && s.workers[b].BusyWith(id)
               && s' == s.(workers := s.workers[b := s.workers[b].Reported(update, s.wall)]);
    }
  }

  /** Estimating lies below proving, and proving below done, whatever they carry. */
  lemma ProgressIsOrdered(e: EstimateReason, cycles: nat, secs: nat)
    ensures Rank(Estimating(e)) < Rank(Proving(cycles, secs)) < Rank(Done)
    ensures Rank(Estimating(Executing)) < Rank(Estimating(NoHistory))
  {
  }
}
