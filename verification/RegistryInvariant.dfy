/** The invariant of the registry, kept by every command and every step of the
    surroundings, hence true in every state of every run. */
module RegistryInvariant {
  import opened Network
  import opened Worker
  import opened RegistryModel
  import opened Ledger

  /** The queue is bounded, free of duplicates and in order of arrival. */
  ghost predicate QueueOk(s: State) {
    && |s.pending| <= QUEUE_CAP
    && Ordered(s.pending)
    && (forall i :: 0 <= i < |s.pending| ==> s.pending[i].queuedAt <= s.now)
  }

  ghost predicate Ordered(q: seq<Pending>) {
    forall i, j :: 0 <= i < j < |q| ==> q[i].req.id != q[j].req.id && q[i].queuedAt <= q[j].queuedAt
  }

  predicate Available(s: State, a: Addr, r: Request) {
    Candidate(s.workers, r, a) && s.workers[a].channel !in s.closed
  }

  /** None of the first `k` queued requests has a worker that could take it now. */
  ghost predicate NoIdleWorkerFor(s: State, k: nat) {
    forall i, a :: 0 <= i < k && i < |s.pending| ==> !Available(s, a, s.pending[i].req)
  }

  /** Work conservation: no capable worker sits idle while a request waits for it. */
  ghost predicate WorkConserved(s: State) {
    NoIdleWorkerFor(s, |s.pending|)
  }

  /** Every request was sent to an idle worker able to serve it, and overtook no older
      queued request that this worker could have served. */
  ghost predicate SendsOk(s: State) {
    forall i :: 0 <= i < |s.sends| ==> FairSend(s.sends[i])
  }

  ghost predicate FairSend(x: Send) {
    && x.worker.status.Idle? && x.worker.CanServe(x.req)
    && forall p :: p in x.ahead ==> !x.worker.CanServe(p.req)
  }

  ghost predicate Inv(s: State) {
    Conserved(s) && QueueOk(s) && WorkConserved(s) && SendsOk(s)
  }

  // ---------- draining ----------

  ghost predicate CursorInv(c: Cursor) {
    && c.k <= |c.s.pending|
    && Conserved(c.s) && QueueOk(c.s) && SendsOk(c.s) && NoIdleWorkerFor(c.s, c.k)
  }

  // An attempt makes nobody idle, gives nobody new capabilities and reopens no channel.
  lemma AttemptAddsNoCapacity(ws: Workers, closed: set<Channel>, now: Instant, wall: WallTime,
                              r: Request, ws': Workers, out: Outcome)
    requires Attempt(ws, closed, now, wall, r, ws', out)
    ensures forall a, q :: Candidate(ws', q, a) ==> Candidate(ws, q, a) && ws'[a].channel == ws[a].channel
  {
  }

  lemma RetryKeeps(c: Cursor, ws: Workers, out: Outcome, c': Cursor)
    requires CursorInv(c) && RetryWith(c, ws, out, c')
    ensures CursorInv(c')
  {
    var p := c.s.pending[c.k];
    RetryConserves(c, ws, out, c');
    AttemptAddsNoCapacity(c.s.workers, c.s.closed, c.s.now, c.s.wall, p.req, ws, out);
    RetryKeepsIdle(c, ws, out, c');
    if out.SentTo? {
      var x := c'.s.sends[|c.s.sends|];
      forall q | q in x.ahead ensures !x.worker.CanServe(q.req) {
        var i :| 0 <= i < |x.ahead| && x.ahead[i] == q;
        assert !Available(c.s, out.addr, c.s.pending[i].req);
      }
      assert FairSend(x);
    }
  }

  lemma RetryKeepsIdle(c: Cursor, ws: Workers, out: Outcome, c': Cursor)
    requires CursorInv(c) && RetryWith(c, ws, out, c')
    ensures NoIdleWorkerFor(c'.s, c'.k)
  {
    AttemptAddsNoCapacity(c.s.workers, c.s.closed, c.s.now, c.s.wall, c.s.pending[c.k].req, ws, out);
    forall i, a | 0 <= i < c'.k && i < |c'.s.pending| ensures !Available(c'.s, a, c'.s.pending[i].req) {
      if i < c.k {
        assert c'.s.pending[i] == c.s.pending[i];
        assert !Available(c.s, a, c.s.pending[i].req);
      } else {
        assert out.NoWorker?;
      }
    }
  }

  lemma {:induction false} ChainKeeps(tr: seq<Cursor>)
    requires RetryChain(tr) && CursorInv(tr[0])
    ensures CursorInv(tr[|tr| - 1])
    decreases |tr|
  {
    if |tr| > 1 {
      assert Retry(tr[0], tr[1]);
      var ws, out :| RetryWith(tr[0], ws, out, tr[1]);
      RetryKeeps(tr[0], ws, out, tr[1]);
      ChainKeeps(tr[1..]);
    }
  }

  lemma {:induction false} UnexpiredMembers(q: seq<Pending>, now: Instant)
    ensures |Unexpired(q, now)| <= |q|
    ensures forall p :: p in Unexpired(q, now) <==> p in q && !Outlived(p, now)
  {
    if q != [] {
      UnexpiredMembers(q[..|q| - 1], now);
      assert q == q[..|q| - 1] + [q[|q| - 1]];
    }
  }

  lemma {:induction false} UnexpiredKeepsOrder(q: seq<Pending>, now: Instant)
    requires Ordered(q)
    ensures Ordered(Unexpired(q, now))
  {
    if q != [] {
      var q0, p := q[..|q| - 1], q[|q| - 1];
      var u0 := Unexpired(q0, now);
      UnexpiredKeepsOrder(q0, now);
      UnexpiredMembers(q0, now);
      forall i | 0 <= i < |u0| ensures u0[i].req.id != p.req.id && u0[i].queuedAt <= p.queuedAt {
        assert u0[i] in q0;
        var j :| 0 <= j < |q0| && q0[j] == u0[i];
      }
      assert Unexpired(q, now) == u0 || Unexpired(q, now) == u0 + [p];
    }
  }

  /** A drain needs no work conservation beforehand: it establishes it. */
  lemma DrainKeeps(s: State, s': State)
    requires Conserved(s) && QueueOk(s) && SendsOk(s) && Drained(s, s')
    ensures Inv(s')
  {
    var tr :| DrainTrace(s, tr, s');
    UnexpiredMembers(s.pending, s.now);
    UnexpiredKeepsOrder(s.pending, s.now);
    PurgeConserves(s);
    var u := Unexpired(s.pending, s.now);
    assert forall i :: 0 <= i < |u| ==> u[i] in s.pending;
    assert CursorInv(tr[0]);
    ChainKeeps(tr);
  }

  // ---------- trimming ----------

  lemma {:induction false} EvictAllFrame(s: State, order: seq<Addr>)
    ensures var s' := EvictAll(s, order);
            && s' == s.(workers := s'.workers, dead := s'.dead, drops := s'.drops, fates := s'.fates)
            && s'.workers.Keys == s.workers.Keys - (set a | a in order)
            && (forall a :: a in s'.workers ==> s'.workers[a] == s.workers[a])
  {
    if order != [] {
      EvictAllFrame(s, order[..|order| - 1]);
      assert order == order[..|order| - 1] + [order[|order| - 1]];
    }
  }

  lemma TrimKeeps(cfg: Config, s: State, s': State)
    requires QueueOk(s) && WorkConserved(s) && SendsOk(s) && Trimmed(cfg, s, s')
    ensures QueueOk(s') && WorkConserved(s') && SendsOk(s')
    ensures Conserved(s) ==> Conserved(s')
  {
    var order :| DropOrder(cfg, s, order) && s' == EvictAll(s, order);
    EvictAllFrame(s, order);
    if Conserved(s) {
      EvictAllConserves(s, order);
    }
    forall i, a | 0 <= i < |s'.pending| ensures !Available(s', a, s'.pending[i].req) {
      assert !Available(s, a, s.pending[i].req);
    }
  }

  // A submission just put on the books but placed nowhere yet, across the trim that follows.
  lemma TrimOwes(cfg: Config, s: State, id: Id, s1: State)
    requires Conserved(s) && Trimmed(cfg, s.(submitted := s.submitted + [id]), s1)
    ensures Owing(s1, id)
  {
    var s0 := s.(submitted := s.submitted + [id]);
    var order :| DropOrder(cfg, s0, order) && s1 == EvictAll(s0, order);
    var t := EvictAll(s, order);
    SubmittedIsInert(s, s0.submitted, order);
    EvictAllConserves(s, order);
    EvictAllFrame(s, order);
    forall i ensures multiset(s1.submitted)[i] == Places(s1, i) + (if i == id then 1 else 0) {
      assert multiset(t.submitted)[i] == Places(t, i);
      assert Places(s1, i) == Places(t, i);
    }
  }

  lemma {:induction false} SubmittedIsInert(s: State, submitted: seq<Id>, order: seq<Addr>)
    ensures EvictAll(s.(submitted := submitted), order) == EvictAll(s, order).(submitted := submitted)
  {
    if order != [] {
      SubmittedIsInert(s, submitted, order[..|order| - 1]);
    }
  }

  // ---------- the handlers ----------

  lemma SubmittingKeeps(s: State, id: Id)
    requires QueueOk(s) && WorkConserved(s) && SendsOk(s)
    ensures var s0 := s.(submitted := s.submitted + [id]); QueueOk(s0) && WorkConserved(s0) && SendsOk(s0)
  {
    var s0 := s.(submitted := s.submitted + [id]);
    forall i, a | 0 <= i < |s0.pending| ensures !Available(s0, a, s0.pending[i].req) {
      assert !Available(s, a, s.pending[i].req);
    }
  }

  lemma AssignNowKeeps(s: State, r: Request, s': State)
    requires Owing(s, r.id) && QueueOk(s) && WorkConserved(s) && SendsOk(s) && AssignNow(s, r, s')
    ensures Inv(s')
  {
    var ws, out :| AssignTried(s, r, ws, out, s');
    AssignConserves(s, r, ws, out, s');
    AssignTriedKeeps(s, r, ws, out, s');
  }

  lemma AssignKeeps(cfg: Config, s: State, r: Request, s': State)
    requires Inv(s) && AssignProof(cfg, s, r, s')
    ensures Inv(s')
  {
    var s0 := s.(submitted := s.submitted + [r.id]);
    var s1 :| Trimmed(cfg, s0, s1) && AssignNow(s1, r, s');
    TrimOwes(cfg, s, r.id, s1);
    SubmittingKeeps(s, r.id);
    TrimKeeps(cfg, s0, s1);
    AssignNowKeeps(s1, r, s');
  }

  lemma AssignTriedKeeps(s: State, r: Request, ws: Workers, out: Outcome, s': State)
    requires QueueOk(s) && WorkConserved(s) && SendsOk(s) && AssignTried(s, r, ws, out, s')
    ensures QueueOk(s') && WorkConserved(s') && SendsOk(s')
  {
    SettledFrame(s, r, ws, out);
    AssignTriedKeepsWork(s, r, ws, out, s');
    SettledKeepsQueue(s, r, ws, out);
    if out.SentTo? {
      AssignTriedKeepsSends(s, r, ws, out, s');
    }
  }

  lemma SettledKeepsQueue(s: State, r: Request, ws: Workers, out: Outcome)
    requires QueueOk(s) && (out.SentTo? ==> out.addr in s.workers)
    ensures QueueOk(Settled(s, r, ws, out))
    ensures !out.SentTo? ==> Settled(s, r, ws, out).sends == s.sends
  {
  }

  lemma AssignTriedKeepsWork(s: State, r: Request, ws: Workers, out: Outcome, s': State)
    requires WorkConserved(s) && AssignTried(s, r, ws, out, s')
    ensures WorkConserved(s')
  {
    SettledFrame(s, r, ws, out);
    AttemptAddsNoCapacity(s.workers, s.closed, s.now, s.wall, r, ws, out);
    forall i, a | 0 <= i < |s'.pending| ensures !Available(s', a, s'.pending[i].req) {
      if i < |s.pending| {
        assert !Available(s, a, s.pending[i].req);
      }
    }
  }

  lemma AssignTriedKeepsSends(s: State, r: Request, ws: Workers, out: Outcome, s': State)
    requires WorkConserved(s) && SendsOk(s) && AssignTried(s, r, ws, out, s') && out.SentTo?
    ensures SendsOk(s')
  {
    var a := out.addr;
    var x := Send(a, s.workers[a], r, s.pending[..|s.pending|]);
    assert s'.sends == s.sends + [x];
    forall q | q in x.ahead ensures !x.worker.CanServe(q.req) {
      var i :| 0 <= i < |x.ahead| && x.ahead[i] == q;
      assert !Available(s, a, s.pending[i].req);
    }
    assert FairSend(x);
  }

  lemma ReadyKeeps(s: State, addr: Addr, reg: Registration, s': State)
    requires Inv(s) && WorkerReady(s, addr, reg, s')
    ensures Inv(s')
  {
    var stale :| StaleChoice(s, addr, reg, stale) && Drained(Enlisted(s, addr, reg, stale), s');
    EnlistConserves(s, addr, reg, stale);
    DrainKeeps(Enlisted(s, addr, reg, stale), s');
  }

  lemma CompleteKeeps(s: State, id: Id, s': State)
    requires Inv(s) && ProofComplete(s, id, s')
    ensures Inv(s')
  {
    if Served(s.workers, id) {
      var a :| a in s.workers && s.workers[a].BusyWith(id) && Drained(Finish(s, id, a), s');
      FinishConserves(s, id, a);
      DrainKeeps(Finish(s, id, a), s');
    }
  }

  lemma FailureKeeps(s: State, id: Id, value: Option<Status>, s': State)
    requires Inv(s) && FailureHandled(s, id, value, s')
    ensures Inv(s')
  {
    if s' != s {
      var a :| a in s.workers && s.workers[a].BusyWith(id) && Drained(Abandon(s, id, a), s');
      AbandonConserves(s, id, a);
      DrainKeeps(Abandon(s, id, a), s');
    }
  }

  // Changing an entry's bookkeeping, not its status, capabilities or channel.
  lemma TouchKeeps(s: State, a: Addr, w: WorkerState)
    requires Inv(s) && a in s.workers
    requires w.status.Idle? == s.workers[a].status.Idle?
    requires w.status.Busy? ==> w.status.id == s.workers[a].status.id
    requires w.capabilities == s.workers[a].capabilities && w.channel == s.workers[a].channel
    ensures Inv(s.(workers := s.workers[a := w]))
  {
    var s' := s.(workers := s.workers[a := w]);
    SameLoadConserves(s, s');
    forall i, b | 0 <= i < |s'.pending| ensures !Available(s', b, s'.pending[i].req) {
      assert !Available(s, b, s.pending[i].req);
    }
  }

  lemma SurroundingsKeep(s: State, s': State)
    requires Inv(s)
    requires s'.workers == s.workers && s'.pending == s.pending && s'.sends == s.sends && s.closed <= s'.closed
    requires s'.history == s.history && s'.fates == s.fates && s'.submitted == s.submitted && s.now <= s'.now
    ensures Inv(s')
  {
    SameLoadConserves(s, s');
    forall i, b | 0 <= i < |s'.pending| ensures !Available(s', b, s'.pending[i].req) {
      assert !Available(s, b, s.pending[i].req);
    }
  }

  lemma PollKeeps(cfg: Config, s: State, id: Id, to: Responder, s': State)
    requires Inv(s) && StatusRequest(cfg, s, id, to, s')
    ensures Inv(s')
  {
    var s0 := s.(asked := s.asked + [to]);
    var s1 :| Trimmed(cfg, s0, s1) && StatusLookup(cfg, s1, id, to, s');
    SurroundingsKeep(s, s0);
    TrimKeeps(cfg, s0, s1);
    if Served(s1.workers, id) {
      var a :| a in s1.workers && s1.workers[a].BusyWith(id)
        && s' == if s1.workers[a].channel in s1.closed
                 then Replied(s1.(workers := s1.workers[a := s1.workers[a].(strikes := cfg.maxStrikes)]), to, None)
                 else Waiting(s1, id, to);
      TouchKeeps(s1, a, s1.workers[a].(strikes := cfg.maxStrikes));
      SurroundingsKeep(if s1.workers[a].channel in s1.closed then WithStrikes(s1, a, cfg.maxStrikes) else s1, s');
    } else {
      SurroundingsKeep(s1, s');
    }
  }

  lemma PunishKeeps(cfg: Config, s: State, a: Addr, strikes: nat, s': State)
    requires Inv(s) && a in s.workers && Trimmed(cfg, WithStrikes(s, a, strikes), s')
    ensures Inv(s')
  {
    TouchKeeps(s, a, s.workers[a].(strikes := strikes));
    TrimKeeps(cfg, WithStrikes(s, a, strikes), s');
  }

  lemma ReportKeeps(s: State, id: Id, update: Option<Progress>, s': State)
    requires Inv(s) && ProgressReport(s, id, update, s')
    ensures Inv(s')
  {
    if Served(s.workers, id) {
      var a :| a in s.workers && s.workers[a].BusyWith(id)
               && s' == s.(workers := s.workers[a := s.workers[a].Reported(update, s.wall)]);
      TouchKeeps(s, a, s.workers[a].Reported(update, s.wall));
    }
  }

  lemma RespondKeeps(cfg: Config, s: State, id: Id, value: Option<Status>, s': State)
    requires Inv(s) && StatusResponse(cfg, s, id, value, s')
    ensures Inv(s')
  {
    var bridged, s1 :|
      Bridged(cfg, s, id, value, bridged) && FailureHandled(s, id, bridged, s1) && s' == Notified(s1, id, bridged);
    FailureKeeps(s, id, bridged, s1);
    SurroundingsKeep(s1, s');
  }

  lemma StrikeKeeps(cfg: Config, s: State, id: Id, s': State)
    requires Inv(s) && (StrikeWorker(cfg, s, id, s') || DropWorker(cfg, s, id, s'))
    ensures Inv(s')
  {
    if Served(s.workers, id) {
      var a, strikes :| a in s.workers && Trimmed(cfg, WithStrikes(s, a, strikes), s');
      PunishKeeps(cfg, s, a, strikes, s');
    }
  }

  /** The invariant survives every command, whatever its arguments, and every step of the
      clocks and channels. */
  lemma StepKeeps(cfg: Config, s: State, e: Event, s': State)
    requires Inv(s) && Step(cfg, s, e, s')
    ensures Inv(s')
  {
    match e {
      case Assign(r) => AssignKeeps(cfg, s, r, s');
      case Ready(addr, reg) => ReadyKeeps(s, addr, reg, s');
      case Complete(id) => CompleteKeeps(s, id, s');
      case Report(id, update) => ReportKeeps(s, id, update, s');
      case Respond(id, value) => RespondKeeps(cfg, s, id, value, s');
      case Poll(id, to) => PollKeeps(cfg, s, id, to, s');
      case Heartbeat(addr) =>
        if addr in s.workers {
          TouchKeeps(s, addr, s.workers[addr].(lastHeartbeat := s.now));
        }
      case Strike(id) => StrikeKeeps(cfg, s, id, s');
      case DropOf(id) => StrikeKeeps(cfg, s, id, s');
      case Tick(_, _) => SurroundingsKeep(s, s');
      case Close(_) => SurroundingsKeep(s, s');
    }
  }

  lemma InitialInv(s: State)
    requires s == Initial(s.now, s.wall)
    ensures Inv(s)
  {
    assert forall id :: Places(s, id) == 0;
  }

  /** Every state of every run satisfies the invariant. */
  lemma {:induction false} RunInv(cfg: Config, states: seq<State>, events: seq<Event>, i: nat)
    requires Run(cfg, states, events) && i < |states|
    ensures Inv(states[i])
  {
    if i == 0 {
      InitialInv(states[0]);
    } else {
      RunInv(cfg, states, events, i - 1);
      StepKeeps(cfg, states[i - 1], events[i - 1], states[i]);
    }
  }
}
