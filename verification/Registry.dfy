/** The registry actor: one object, one command at a time.  Every handler is proved
    against its relation in RegistryModel. */
module Registry {
  import opened Network
  import opened Worker
  import opened RegistryModel
  import opened RegistryFrames

  /** Clock steps never go back. */
  predicate Timely(now: Instant, events: seq<Event>) {
    && (forall i :: 0 <= i < |events| && events[i].Tick? ==> now <= events[i].now)
    && (forall i, j :: 0 <= i < j < |events| && events[i].Tick? && events[j].Tick? ==> events[i].now <= events[j].now)
  }

  class WorkerRegistry {
    const cfg: Config
    var workers: Workers
    var pending: seq<Pending>
    var awaiting: map<Id, seq<Responder>>
    var history: seq<Completed>
    var dead: seq<Dead>
    // the surroundings the handlers read or write through
    var now: Instant
    var wall: WallTime
    var closed: set<Channel>
    var drops: seq<string>
    var answers: seq<Answer>
    // observations no handler reads
    ghost var sends: seq<Send>
    ghost var submitted: seq<Id>
    ghost var fates: seq<Fate>
    ghost var asked: seq<Responder>

    ghost function Now(): State
      reads this
    {
      State(workers, pending, awaiting, history, dead, now, wall, closed, sends, drops, answers,
            submitted, fates, asked)
    }

    constructor (config: Config, start: Instant, wallStart: WallTime)
      ensures cfg == config && Now() == Initial(start, wallStart)
    {
      cfg := config;
      workers, pending, awaiting, history, dead := map[], [], map[], [], [];
      now, wall, closed := start, wallStart, {};
      sends, drops, answers := [], [], [];
      submitted, fates, asked := [], [], [];
    }

    method FindDead() returns (newDead: seq<Addr>)
      ensures DropOrder(cfg, Now(), newDead)
    {
      newDead := [];
      var rest := workers.Keys;
      while rest != {}
        invariant rest <= workers.Keys
        invariant forall a :: a in newDead <==> a in workers && a !in rest && workers[a].ShouldDrop(cfg, now, wall)
        invariant forall i, j :: 0 <= i < j < |newDead| ==> newDead[i] != newDead[j]
        decreases |rest|
      {
        var a :| a in rest;
        rest := rest - {a};
        if workers[a].ShouldDrop(cfg, now, wall) {
          newDead := newDead + [a];
        }
      }
    }

    method RemoveDead(a: Addr)
      requires a in workers
      modifies this
      ensures Now() == Evict(old(Now()), a)
    {
      var w := workers[a];
      workers := workers - {a};
      if w.status.Busy? {
        fates := fates + [Fate(w.status.id, Evicted)];
      }
      if w.dropEndpoint.Some? {
        drops := drops + [w.dropEndpoint.value];
      }
      dead := dead + [Dead(a, w)];
    }

    method TrimWorkers()
      modifies this
      ensures Trimmed(cfg, old(Now()), Now())
    {
      ghost var s0 := Now();
      var newDead := FindDead();
      for i := 0 to |newDead|
        invariant Now() == EvictAll(s0, newDead[..i])
      {
        assert newDead[..i + 1][..|newDead[..i + 1]| - 1] == newDead[..i];
        if newDead[i] in workers {
          RemoveDead(newDead[i]);
        }
      }
      assert newDead[..|newDead|] == newDead;
    }

    // A worker busy with the request, if any; which one is up to the map's iteration order.
    method FindBusy(id: Id) returns (found: Option<Addr>)
      ensures found.Some? ==> found.value in workers && workers[found.value].BusyWith(id)
      ensures found.None? <==> !Served(workers, id)
    {
      var rest := workers.Keys;
      while rest != {}
        invariant rest <= workers.Keys
        invariant forall a :: a in workers && a !in rest ==> !workers[a].BusyWith(id)
        decreases |rest|
      {
        var a :| a in rest;
        if workers[a].BusyWith(id) {
          return Some(a);
        }
        rest := rest - {a};
      }
      return None;
    }

    // The idle capable workers, hot ones first.
    method Candidates(r: Request) returns (hot: seq<Addr>, cold: seq<Addr>)
      ensures forall a :: a in hot <==> Candidate(workers, r, a) && workers[a].HotFor(r)
      ensures forall a :: a in cold <==> Candidate(workers, r, a) && !workers[a].HotFor(r)
      ensures forall i, j :: 0 <= i < j < |hot + cold| ==> (hot + cold)[i] != (hot + cold)[j]
    {
      hot, cold := [], [];
      var rest := workers.Keys;
      while rest != {}
        invariant rest <= workers.Keys
        invariant forall a :: a in hot <==> Candidate(workers, r, a) && workers[a].HotFor(r) && a !in rest
        invariant forall a :: a in cold <==> Candidate(workers, r, a) && !workers[a].HotFor(r) && a !in rest
        invariant forall i, j :: 0 <= i < j < |hot| ==> hot[i] != hot[j]
        invariant forall i, j :: 0 <= i < j < |cold| ==> cold[i] != cold[j]
        decreases |rest|
      {
        var a :| a in rest;
        rest := rest - {a};
        if workers[a].CanServe(r) && workers[a].status.Idle? {
          if workers[a].HotFor(r) {
            hot := hot + [a];
          } else {
            cold := cold + [a];
          }
        }
      }
      forall i, j | 0 <= i < j < |hot + cold| ensures (hot + cold)[i] != (hot + cold)[j] {
        if i < |hot| <= j {
          assert (hot + cold)[i] in hot && (hot + cold)[j] in cold;
        }
      }
    }

    /** One assignment attempt; `ahead` are the queued requests older than this one. */
    method TryAssign(r: Request, ghost ahead: seq<Pending>) returns (ok: bool, ghost out: Outcome)
      modifies this`workers, this`sends
      ensures Attempt(old(workers), closed, now, wall, r, workers, out)
      ensures ok == !out.NoWorker?
      ensures sends == match out
                       case SentTo(a, _) => old(sends) + [Send(a, old(workers)[a], r, ahead)]
                       case _ => old(sends)
    {
      var busy := FindBusy(r.id);
      if busy.Some? {
        return true, AlreadyBusy;
      }
      var hot, cold := Candidates(r);
      var candidates := hot + cold;
      ghost var failed: set<Addr> := {};
      for i := 0 to |candidates|
        invariant workers.Keys == old(workers).Keys && sends == old(sends)
        invariant forall b :: b in failed <==> b in candidates[..i]
        invariant forall b :: b in failed ==> b in workers && old(workers)[b].channel in closed
        invariant forall b :: b in workers ==>
          workers[b] == if b in failed then old(workers)[b].Struck() else old(workers)[b]
      {
        var a := candidates[i];
        assert a in candidates && a !in candidates[..i];
        assert a in hot || a in cold;
        if workers[a].channel in closed {
          failed := failed + {a};
          workers := workers[a := workers[a].Struck()];
          assert forall b :: b in candidates[..i + 1] <==> b in candidates[..i] || b == a;
        } else {
          sends := sends + [Send(a, workers[a], r, ahead)];
          workers := workers[a := workers[a].Assigned(r, now, wall)];
          HotFirst(hot, cold, i);
          return true, SentTo(a, failed);
        }
      }
      assert candidates[..|candidates|] == candidates;
      return false, NoWorker;
    }

    // In `hot + cold`, everything before a cold entry includes all hot ones, and nothing
    // before a hot entry is cold.
    static lemma HotFirst(hot: seq<Addr>, cold: seq<Addr>, i: nat)
      requires i < |hot + cold|
      requires forall i, j :: 0 <= i < j < |hot + cold| ==> (hot + cold)[i] != (hot + cold)[j]
      ensures forall b :: b in (hot + cold)[..i] ==> b in hot || b in cold
      ensures i >= |hot| ==> (hot + cold)[i] !in hot && forall b :: b in hot ==> b in (hot + cold)[..i]
      ensures i < |hot| ==> (hot + cold)[i] in hot && forall b :: b in cold ==> b !in (hot + cold)[..i]
    {
      var all := hot + cold;
      if i >= |hot| {
        forall b | b in hot ensures b in all[..i] {
          var k :| 0 <= k < |hot| && hot[k] == b;
          assert all[..i][k] == b;
        }
      } else {
        forall b | b in cold ensures b !in all[..i] {
          var k :| 0 <= k < |cold| && cold[k] == b;
          assert all[|hot| + k] == b;
        }
      }
    }

    // Tries one entry taken off the queue, with `ahead` already tried and kept.
    method RetryPending(p: Pending, ghost ahead: seq<Pending>) returns (ok: bool, ghost c: Cursor)
      modifies this`workers, this`sends, this`fates
      ensures Retry(Cursor(old(Now()).(pending := ahead + [p] + pending), |ahead|), c)
      ensures c == if ok then Cursor(Now().(pending := ahead + pending), |ahead|)
                   else Cursor(Now().(pending := ahead + [p] + pending), |ahead| + 1)
    {
      ghost var c0 := Cursor(Now().(pending := ahead + [p] + pending), |ahead|);
      assert c0.s.pending[|ahead|] == p;
      assert c0.s.pending[..|ahead|] == ahead;
      assert c0.s.pending[|ahead| + 1..] == pending;
      ghost var out;
      ok, out := TryAssign(p.req, ahead);
      if out.AlreadyBusy? {
        fates := fates + [Fate(p.req.id, Duplicate)];
      }
      c := Retried(c0, workers, out);
      assert RetryWith(c0, workers, out, c);
    }

    method DrainPending()
      modifies this
      ensures Drained(old(Now()), Now())
    {
      ghost var s0 := Now();
      Purge();
      var stillPending: seq<Pending> := [];
      ghost var c := Cursor(Now(), 0);
      ghost var tr := [c];
      assert stillPending + pending == pending;
      while pending != []
        invariant c == Cursor(Now().(pending := stillPending + pending), |stillPending|)
        invariant RetryChain(tr) && tr[0] == Cursor(Purged(s0), 0) && tr[|tr| - 1] == c
        decreases |pending|
      {
        var p := pending[0];
        assert stillPending + pending == stillPending + [p] + pending[1..];
        pending := pending[1..];
        var placed;
        placed, c := RetryPending(p, stillPending);
        RetryOnceMore(tr, c);
        tr := tr + [c];
        if !placed {
          stillPending := stillPending + [p];
        }
      }
      pending := stillPending;
      assert stillPending + [] == stillPending;
      assert DrainTrace(s0, tr, Now());
    }

    method Purge()
      modifies this
      ensures Now() == Purged(old(Now()))
    {
      var kept: seq<Pending> := [];
      ghost var expired: seq<Fate> := [];
      for i := 0 to |pending|
        invariant Now() == old(Now())
        invariant kept == Unexpired(pending[..i], now) && expired == ExpiryFates(pending[..i], now)
      {
        assert pending[..i + 1][..|pending[..i + 1]| - 1] == pending[..i];
        if Outlived(pending[i], now) {
          expired := expired + [Fate(pending[i].req.id, Expired)];
        } else {
          kept := kept + [pending[i]];
        }
      }
      assert pending[..|pending|] == pending;
      pending := kept;
      fates := fates + expired;
    }

    method HandleAssignProof(r: Request)
      modifies this
      ensures AssignProof(cfg, old(Now()), r, Now())
    {
      submitted := submitted + [r.id];
      TrimWorkers();
      ghost var s1 := Now();
      var ok;
      ghost var out;
      ok, out := TryAssign(r, pending);
      assert s1.pending[..|s1.pending|] == s1.pending;
      if ok {
        if out.AlreadyBusy? {
          fates := fates + [Fate(r.id, Duplicate)];
        }
        assert Now() == Settled(s1, r, workers, out);
      } else {
        assert Now() == s1.(workers := workers);
        SettledAfterAttempt(s1, r, workers);
        Enqueue(r);
      }
      assert AssignTried(s1, r, workers, out, Now());
    }

    static lemma SettledAfterAttempt(s: State, r: Request, ws: Workers)
      ensures Settled(s.(workers := ws), r, ws, NoWorker) == Settled(s, r, ws, NoWorker)
    {
    }

    // Queues a request no worker could take, unless it already waits or the queue is full.
    method Enqueue(r: Request)
      modifies this`pending, this`fates
      ensures Now() == Settled(old(Now()), r, old(workers), NoWorker)
    {
      if InQueue(pending, r.id) {
        fates := fates + [Fate(r.id, Duplicate)];
      } else if |pending| >= QUEUE_CAP {
        fates := fates + [Fate(r.id, Rejected)];
      } else {
        pending := pending + [Pending(r, now)];
      }
    }

    method FindStale(addr: Addr, reg: Registration) returns (stale: StaleEntry)
      ensures StaleChoice(Now(), addr, reg, stale)
    {
      var rest := workers.Keys;
      while rest != {}
        invariant rest <= workers.Keys
        invariant forall a :: a in workers && a !in rest ==> !Supersedes(reg, addr, a, workers[a])
        decreases |rest|
      {
        var a :| a in rest;
        if Supersedes(reg, addr, a, workers[a]) {
          return StaleAt(a);
        }
        rest := rest - {a};
      }
      return NoStale;
    }

    method HandleWorkerReady(addr: Addr, reg: Registration)
      modifies this
      ensures WorkerReady(old(Now()), addr, reg, Now())
    {
      ghost var s0 := Now();
      var stale := FindStale(addr, reg);
      var status := Idle;
      if stale.StaleAt? {
        var previous := workers[stale.addr];
        workers := workers - {stale.addr};
        if previous.nonce == reg.nonce && previous.status.Busy? {
          status := previous.status;
        } else {
          fates := fates + (if previous.nonce == reg.nonce then [] else OrphanFates(previous, Superseded));
        }
      }
      if addr in workers {
        fates := fates + OrphanFates(workers[addr], Overwritten);
      }
      workers := workers[addr := Enrolled(reg, status, now)];
      assert Now() == Enlisted(s0, addr, reg, stale);
      DrainPending();
    }

    method HandleProofComplete(id: Id)
      modifies this
      ensures ProofComplete(old(Now()), id, Now())
    {
      var found := FindBusy(id);
      if found.Some? {
        var a := found.value;
        var w := workers[a];
        workers := workers[a := w.CompletedProof()];
        history := history
          + [Completed(id, w.status.vm, w.status.modeName, Elapsed(w.status.start, now), a, w.name)];
        assert Now() == Finish(old(Now()), id, a);
        DrainPending();
      }
    }

    method HandleProgress(id: Id, update: Option<Progress>)
      modifies this
      ensures ProgressReport(old(Now()), id, update, Now())
    {
      var found := FindBusy(id);
      if found.Some? {
        workers := workers[found.value := workers[found.value].Reported(update, wall)];
      }
    }

    method BridgeStartupRace(id: Id, value: Option<Status>) returns (bridged: Option<Status>)
      ensures Bridged(cfg, Now(), id, value, bridged)
    {
      if value.Some? {
        return value;
      }
      var found := FindBusy(id);
      if found.Some? && Elapsed(workers[found.value].status.start, now) < cfg.startupGraceSecs * SECOND {
        return Some(Unexecuted);
      }
      return None;
    }

    method FreeWorkerOfFailedProof(id: Id, value: Option<Status>)
      modifies this
      ensures FailureHandled(old(Now()), id, value, Now())
    {
      if value.Some? && value.value.execution == UNEXECUTABLE {
        var found := FindBusy(id);
        if found.Some? {
          workers := workers[found.value := workers[found.value].FailedProof()];
          fates := fates + [Fate(id, Failed)];
          assert Now() == Abandon(old(Now()), id, found.value);
          DrainPending();
        }
      }
    }

    method HandleStatusResponse(id: Id, value: Option<Status>)
      modifies this
      ensures StatusResponse(cfg, old(Now()), id, value, Now())
    {
      var bridged := BridgeStartupRace(id, value);
      FreeWorkerOfFailedProof(id, bridged);
      ghost var s1 := Now();
      if id in awaiting {
        var tasks := awaiting[id];
        awaiting := awaiting - {id};
        var before := answers;
        for i := 0 to |tasks|
          invariant Now() == s1.(awaiting := s1.awaiting - {id}, answers := before + Answers(tasks[..i], bridged))
        {
          answers := answers + [Answer(tasks[i], bridged)];
          assert Answers(tasks[..i + 1], bridged) == Answers(tasks[..i], bridged) + [Answer(tasks[i], bridged)];
        }
        assert tasks[..|tasks|] == tasks;
      }
      assert Now() == Notified(s1, id, bridged);
    }

    method HandleStatusRequest(id: Id, to: Responder)
      modifies this
      ensures StatusRequest(cfg, old(Now()), id, to, Now())
    {
      asked := asked + [to];
      TrimWorkers();
      ghost var s1 := Now();
      var found := FindBusy(id);
      if found.None? {
        if InQueue(pending, id) {
          answers := answers + [Answer(to, Some(Unexecuted))];
        } else {
          answers := answers + [Answer(to, None)];
        }
      } else {
        var a := found.value;
        if workers[a].channel in closed {
          workers := workers[a := workers[a].(strikes := cfg.maxStrikes)];
          answers := answers + [Answer(to, None)];
        } else {
          awaiting := awaiting[id := (if id in awaiting then awaiting[id] else []) + [to]];
        }
      }
      assert StatusLookup(cfg, s1, id, to, Now());
    }

    // Answers true when the contemplant is no longer registered and must hang up.
    method HandleHeartbeat(addr: Addr) returns (shouldDrop: bool)
      modifies this
      ensures Now() == Beat(old(Now()), addr)
      ensures shouldDrop <==> addr !in old(workers)
    {
      if addr in workers {
        workers := workers[addr := workers[addr].(lastHeartbeat := now)];
        return false;
      }
      return true;
    }

    method HandleStrikeWorker(id: Id)
      modifies this
      ensures StrikeWorker(cfg, old(Now()), id, Now())
    {
      var found := FindBusy(id);
      if found.Some? {
        workers := workers[found.value := workers[found.value].Struck()];
        assert Now() == WithStrikes(old(Now()), found.value, old(workers)[found.value].strikes + 1);
        TrimWorkers();
      }
    }

    method HandleDropWorker(id: Id)
      modifies this
      ensures DropWorker(cfg, old(Now()), id, Now())
    {
      var found := FindBusy(id);
      if found.Some? {
        workers := workers[found.value := workers[found.value].(strikes := cfg.maxStrikes)];
        assert Now() == WithStrikes(old(Now()), found.value, cfg.maxStrikes);
        TrimWorkers();
      }
    }

    /** The clocks move on, or a worker's channel closes. */
    method Elapse(e: Event)
      requires e.Close? || (e.Tick? && e.now >= now)
      modifies this
      ensures Step(cfg, old(Now()), e, Now())
    {
      if e.Tick? {
        now, wall := e.now, e.wall;
      } else {
        closed := closed + {e.channel};
      }
    }

    /** One turn of the event loop. */
    method Handle(e: Event)
      requires !e.Tick? && !e.Close?
      modifies this
      ensures Step(cfg, old(Now()), e, Now())
    {
      match e {
        case Assign(r) => HandleAssignProof(r);
        case Ready(addr, reg) => HandleWorkerReady(addr, reg);
        case Complete(id) => HandleProofComplete(id);
        case Report(id, update) => HandleProgress(id, update);
        case Respond(id, value) => HandleStatusResponse(id, value);
        case Poll(id, to) => HandleStatusRequest(id, to);
        case Heartbeat(addr) => var _ := HandleHeartbeat(addr);
        case Strike(id) => HandleStrikeWorker(id);
        case DropOf(id) => HandleDropWorker(id);
      }
    }

    /** The event loop over any commands, with the surroundings moving in between: a run of the
        model, whatever orders the maps are iterated in. */
    method EventLoop(events: seq<Event>) returns (ghost states: seq<State>)
      requires Timely(now, events)
      modifies this
      ensures |states| == |events| + 1 && states[0] == old(Now()) && states[|events|] == Now()
      ensures forall i :: 0 <= i < |events| ==> Step(cfg, states[i], events[i], states[i + 1])
    {
      states := [Now()];
      for i := 0 to |events|
        invariant |states| == i + 1 && states[0] == old(Now()) && states[i] == Now()
        invariant forall j :: 0 <= j < i ==> Step(cfg, states[j], events[j], states[j + 1])
        invariant forall j :: i <= j < |events| && events[j].Tick? ==> now <= events[j].now
      {
        ghost var s := Now();
        if events[i].Tick? || events[i].Close? {
          Elapse(events[i]);
        } else {
          Handle(events[i]);
        }
        StepKeepsTime(cfg, s, events[i], Now());
        states := states + [Now()];
      }
    }
  }
}
