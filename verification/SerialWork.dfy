/** What becomes of the requests sent to one contemplant process, across its reconnects. */
module SerialWork {
  import opened Network
  import opened Worker
  import opened RegistryModel
  import opened RegistryInvariant
  import opened RegistryFrames
  import opened Reconnect

  predicate EndsWork(end: End) {
    end.Failed? || end.Evicted? || end.Superseded? || end.Overwritten?
  }

  /** The request completed, failed, or lost its worker. */
  ghost predicate Over(s: State, id: Id) {
    || (exists i :: 0 <= i < |s.history| && s.history[i].id == id)
    || (exists i :: 0 <= i < |s.fates| && s.fates[i].id == id && EndsWork(s.fates[i].end))
  }

  /** A live entry of process `nonce` works on `id`. */
  ghost predicate WorkingOn(ws: Workers, nonce: nat, id: Id) {
    exists a :: a in ws && ws[a].nonce == nonce && ws[a].BusyWith(id)
  }

  /** A fleet whose process nonces belong to one instance each. */
  ghost predicate Owned(ws: Workers, owner: nat -> string) {
    Fleet(ws) && forall a :: a in ws ==> ws[a].dropEndpoint == Some(owner(ws[a].nonce))
  }

  /** Every request sent out is over or still being worked on by the process it went to, and
      all but the latest sent to one process are over. */
  ghost predicate Serial(s: State) {
    && (forall i :: 0 <= i < |s.sends| ==>
          Over(s, s.sends[i].req.id) || WorkingOn(s.workers, s.sends[i].worker.nonce, s.sends[i].req.id))
    && (forall i, j :: 0 <= i < j < |s.sends| && s.sends[i].worker.nonce == s.sends[j].worker.nonce ==>
          Over(s, s.sends[i].req.id))
  }

  lemma LogsGrow(s: State, s': State, id: Id)
    requires s.history <= s'.history && s.fates <= s'.fates && Over(s, id)
    ensures Over(s', id)
  {
    if i :| 0 <= i < |s.history| && s.history[i].id == id {
      assert s'.history[i].id == id;
    } else {
      var i :| 0 <= i < |s.fates| && s.fates[i].id == id && EndsWork(s.fates[i].end);
      assert s'.fates[i].id == id;
    }
  }

  // No new send, logs only grow, and whoever stopped working on something has it on the books.
  lemma QuietKeepsSerial(s: State, s': State)
    requires Serial(s) && s'.sends == s.sends && s.history <= s'.history && s.fates <= s'.fates
    requires forall n, id :: WorkingOn(s.workers, n, id) ==> WorkingOn(s'.workers, n, id) || Over(s', id)
    ensures Serial(s')
  {
    forall i | 0 <= i < |s.sends| && Over(s, s.sends[i].req.id) ensures Over(s', s.sends[i].req.id) {
      LogsGrow(s, s', s.sends[i].req.id);
    }
  }

  lemma SameLoadKeepsSerial(s: State, s': State)
    requires Serial(s) && s'.sends == s.sends && s.history <= s'.history && s.fates <= s'.fates
    requires forall a :: a in s.workers && s.workers[a].status.Busy? ==>
               a in s'.workers && s'.workers[a].nonce == s.workers[a].nonce
               && s'.workers[a].BusyWith(s.workers[a].status.id)
    ensures Serial(s')
  {
    forall n, id | WorkingOn(s.workers, n, id) ensures WorkingOn(s'.workers, n, id) {
      var a :| a in s.workers && s.workers[a].nonce == n && s.workers[a].BusyWith(id);
      assert s'.workers[a].BusyWith(id);
    }
    QuietKeepsSerial(s, s');
  }

  lemma SameWorkersKeepSerial(s: State, s': State)
    requires Serial(s) && s'.workers == s.workers && s'.sends == s.sends
    requires s'.history == s.history && s.fates <= s'.fates
    ensures Serial(s')
  {
    SameLoadKeepsSerial(s, s');
  }

  lemma EvolvedKeepsOwned(ws: Workers, ws': Workers, owner: nat -> string)
    requires Owned(ws, owner) && Evolved(ws, ws')
    ensures Owned(ws', owner)
  {
  }

  /** The heart of the matter: a send goes to an idle entry, so nothing sent earlier to that
      process can still be running. */
  lemma PlacedKeepsSerial(s: State, k: nat, r: Request, ws: Workers, out: Outcome, owner: nat -> string)
    requires Serial(s) && Owned(s.workers, owner) && k <= |s.pending|
    requires Attempt(s.workers, s.closed, s.now, s.wall, r, ws, out)
    ensures Serial(Placed(s, k, r, ws, out))
  {
    AttemptEvolves(s.workers, s.closed, s.now, s.wall, r, ws, out);
    var s' := Placed(s, k, r, ws, out);
    var t := s'.(sends := s.sends);
    SameLoadKeepsSerial(s, t);
    if out.SentTo? {
      var a := out.addr;
      var x := Send(a, s.workers[a], r, s.pending[..k]);
      assert s'.sends == s.sends + [x];
      assert WorkingOn(ws, x.worker.nonce, r.id) by {
        assert ws[a].BusyWith(r.id);
      }
      assert forall id :: Over(s', id) <==> Over(t, id);
      forall i | 0 <= i < |s.sends| && s.sends[i].worker.nonce == x.worker.nonce
        ensures Over(s', s.sends[i].req.id)
      {
        LogsGrow(s, s', s.sends[i].req.id);
      }
      NewSend(s', |s.sends|);
    }
  }

  // Serial, put together from all sends but the last and facts about the last.
  lemma NewSend(s: State, n: nat)
    requires |s.sends| == n + 1 && Serial(s.(sends := s.sends[..n]))
    requires WorkingOn(s.workers, s.sends[n].worker.nonce, s.sends[n].req.id)
    requires forall i :: 0 <= i < n && s.sends[i].worker.nonce == s.sends[n].worker.nonce ==> Over(s, s.sends[i].req.id)
    ensures Serial(s)
  {
    var t := s.(sends := s.sends[..n]);
    assert forall id :: Over(t, id) <==> Over(s, id);
    assert forall i :: 0 <= i < n ==> t.sends[i] == s.sends[i];
  }

  lemma {:induction false} ChainKeepsSerial(tr: seq<Cursor>, i: nat, owner: nat -> string)
    requires RetryChain(tr) && i < |tr| && Serial(tr[0].s) && Owned(tr[0].s.workers, owner)
    ensures Serial(tr[i].s) && Owned(tr[i].s.workers, owner)
  {
    if i > 0 {
      ChainKeepsSerial(tr, i - 1, owner);
      ChainEvolves(tr, i);
      var c, c' := tr[i - 1], tr[i];
      assert Retry(c, c');
      var ws, out :| RetryWith(c, ws, out, c');
      PlacedKeepsSerial(c.s, c.k, c.s.pending[c.k].req, ws, out, owner);
      SameWorkersKeepSerial(Placed(c.s, c.k, c.s.pending[c.k].req, ws, out), c'.s);
    }
  }

  lemma DrainKeepsSerial(s: State, s': State, owner: nat -> string)
    requires Drained(s, s') && Serial(s) && Owned(s.workers, owner)
    ensures Serial(s') && Owned(s'.workers, owner)
  {
    var tr: seq<Cursor> :| DrainTrace(s, tr, s');
    SameLoadKeepsSerial(s, Purged(s));
    ChainKeepsSerial(tr, |tr| - 1, owner);
  }

  lemma FateEnds(s: State, w: WorkerState, end: End, s': State)
    requires EndsWork(end) && s.fates + OrphanFates(w, end) <= s'.fates && w.status.Busy?
    ensures Over(s', w.status.id)
  {
    assert s'.fates[|s.fates|] == (s.fates + OrphanFates(w, end))[|s.fates|];
  }

  lemma EvictKeepsSerial(s: State, a: Addr)
    requires Serial(s) && a in s.workers
    ensures Serial(Evict(s, a))
  {
    var s' := Evict(s, a);
    forall n, id | WorkingOn(s.workers, n, id) ensures WorkingOn(s'.workers, n, id) || Over(s', id) {
      var b :| b in s.workers && s.workers[b].nonce == n && s.workers[b].BusyWith(id);
      if b == a {
        FateEnds(s, s.workers[a], Evicted, s');
      } else {
        assert s'.workers[b].BusyWith(id);
      }
    }
    QuietKeepsSerial(s, s');
  }

  lemma {:induction false} EvictAllKeepsSerial(s: State, order: seq<Addr>)
    requires Serial(s)
    ensures Serial(EvictAll(s, order))
  {
    if order != [] {
      EvictAllKeepsSerial(s, order[..|order| - 1]);
      var s1 := EvictAll(s, order[..|order| - 1]);
      if order[|order| - 1] in s1.workers {
        EvictKeepsSerial(s1, order[|order| - 1]);
      }
    }
  }

  lemma TrimKeepsSerial(cfg: Config, s: State, s': State, owner: nat -> string)
    requires Serial(s) && Owned(s.workers, owner) && Trimmed(cfg, s, s')
    ensures Serial(s') && Owned(s'.workers, owner)
  {
    var order :| DropOrder(cfg, s, order) && s' == EvictAll(s, order);
    EvictAllKeepsSerial(s, order);
    EvictAllFrame(s, order);
  }

  /** A reconnecting process keeps its request; a restarted or overwritten one has it ended. */
  lemma EnlistKeepsSerial(s: State, addr: Addr, reg: Registration, stale: StaleEntry, owner: nat -> string)
    requires Serial(s) && Owned(s.workers, owner) && StaleChoice(s, addr, reg, stale)
    requires reg.dropEndpoint == Some(owner(reg.nonce))
    ensures Serial(Enlisted(s, addr, reg, stale)) && Owned(Enlisted(s, addr, reg, stale).workers, owner)
  {
    var s1 := WithoutStale(s, reg, stale);
    var s' := Enlisted(s, addr, reg, stale);
    EnlistKeepsFleet(s, addr, reg, stale);
    forall n, id | WorkingOn(s.workers, n, id) ensures WorkingOn(s'.workers, n, id) || Over(s', id) {
      var b :| b in s.workers && s.workers[b].nonce == n && s.workers[b].BusyWith(id);
      if b == addr {
        assert s1.workers[addr] == s.workers[addr];
        FateEnds(s1, s.workers[addr], Overwritten, s');
      } else if stale == StaleAt(b) {
        if s.workers[b].nonce == reg.nonce {
          assert s'.workers[addr].BusyWith(id);
        } else {
          FateEnds(s, s.workers[b], Superseded, s');
        }
      } else {
        assert s'.workers[b].BusyWith(id);
      }
    }
    QuietKeepsSerial(s, s');
  }

  lemma FinishKeepsSerial(s: State, id: Id, a: Addr, s': State)
    requires Serial(s) && a in s.workers && s.workers[a].BusyWith(id)
    requires s' == Finish(s, id, a) || s' == Abandon(s, id, a)
    ensures Serial(s')
  {
    assert Over(s', id) by {
      if s' == Finish(s, id, a) {
        assert s'.history[|s.history|].id == id;
      } else {
        assert s'.fates[|s.fates|] == Fate(id, Failed);
      }
    }
    forall n, i | WorkingOn(s.workers, n, i) ensures WorkingOn(s'.workers, n, i) || Over(s', i) {
      var b :| b in s.workers && s.workers[b].nonce == n && s.workers[b].BusyWith(i);
      if b != a {
        assert s'.workers[b].BusyWith(i);
      }
    }
    QuietKeepsSerial(s, s');
  }

  lemma AssignKeepsSerial(cfg: Config, s: State, r: Request, s': State, owner: nat -> string)
    requires Serial(s) && Owned(s.workers, owner) && AssignProof(cfg, s, r, s')
    ensures Serial(s') && Owned(s'.workers, owner)
  {
    var s0 := s.(submitted := s.submitted + [r.id]);
    var s1 :| Trimmed(cfg, s0, s1) && AssignNow(s1, r, s');
    SameLoadKeepsSerial(s, s0);
    TrimKeepsSerial(cfg, s0, s1, owner);
    AssignNowKeepsSerial(s1, r, s', owner);
  }

  lemma AssignNowKeepsSerial(s: State, r: Request, s': State, owner: nat -> string)
    requires Serial(s) && Owned(s.workers, owner) && AssignNow(s, r, s')
    ensures Serial(s') && Owned(s'.workers, owner)
  {
    var ws, out :| AssignTried(s, r, ws, out, s');
    PlacedKeepsSerial(s, |s.pending|, r, ws, out, owner);
    SettledExtendsPlaced(s, r, ws, out);
    SameWorkersKeepSerial(Placed(s, |s.pending|, r, ws, out), s');
    AttemptEvolves(s.workers, s.closed, s.now, s.wall, r, ws, out);
    EvolvedKeepsOwned(s.workers, ws, owner);
  }

  lemma SettledExtendsPlaced(s: State, r: Request, ws: Workers, out: Outcome)
    requires out.SentTo? ==> out.addr in s.workers
    ensures var p, s' := Placed(s, |s.pending|, r, ws, out), Settled(s, r, ws, out);
            s'.workers == p.workers && s'.sends == p.sends && s'.history == p.history && p.fates <= s'.fates
  {
  }

  lemma PollKeepsSerial(cfg: Config, s: State, id: Id, to: Responder, s': State, owner: nat -> string)
    requires Serial(s) && Owned(s.workers, owner) && StatusRequest(cfg, s, id, to, s')
    ensures Serial(s') && Owned(s'.workers, owner)
  {
    var s0 := s.(asked := s.asked + [to]);
    var s1 :| Trimmed(cfg, s0, s1) && StatusLookup(cfg, s1, id, to, s');
    SameLoadKeepsSerial(s, s0);
    TrimKeepsSerial(cfg, s0, s1, owner);
    LookupFrame(cfg, s1, id, to, s');
    SameLoadKeepsSerial(s1, s');
  }

  lemma FailureKeepsSerial(s: State, id: Id, value: Option<Status>, s': State, owner: nat -> string)
    requires Serial(s) && Owned(s.workers, owner) && FailureHandled(s, id, value, s')
    ensures Serial(s') && Owned(s'.workers, owner)
  {
    if s' != s {
      var a :| a in s.workers && s.workers[a].BusyWith(id) && Drained(Abandon(s, id, a), s');
      FinishKeepsSerial(s, id, a, Abandon(s, id, a));
      DrainKeepsSerial(Abandon(s, id, a), s', owner);
    }
  }

  lemma RespondKeepsSerial(cfg: Config, s: State, id: Id, value: Option<Status>, s': State, owner: nat -> string)
    requires Serial(s) && Owned(s.workers, owner) && StatusResponse(cfg, s, id, value, s')
    ensures Serial(s') && Owned(s'.workers, owner)
  {
    var bridged, s1 :|
      Bridged(cfg, s, id, value, bridged) && FailureHandled(s, id, bridged, s1) && s' == Notified(s1, id, bridged);
    FailureKeepsSerial(s, id, bridged, s1, owner);
    SameLoadKeepsSerial(s1, s');
  }

  lemma CompleteKeepsSerial(s: State, id: Id, s': State, owner: nat -> string)
    requires Serial(s) && Owned(s.workers, owner) && ProofComplete(s, id, s')
    ensures Serial(s') && Owned(s'.workers, owner)
  {
    if Served(s.workers, id) {
      var a :| a in s.workers && s.workers[a].BusyWith(id) && Drained(Finish(s, id, a), s');
      FinishKeepsSerial(s, id, a, Finish(s, id, a));
      DrainKeepsSerial(Finish(s, id, a), s', owner);
    }
  }

  lemma ReadyKeepsSerial(s: State, addr: Addr, reg: Registration, s': State, owner: nat -> string)
    requires Serial(s) && Owned(s.workers, owner) && WorkerReady(s, addr, reg, s')
    requires reg.dropEndpoint == Some(owner(reg.nonce))
    ensures Serial(s') && Owned(s'.workers, owner)
  {
    var stale :| StaleChoice(s, addr, reg, stale) && Drained(Enlisted(s, addr, reg, stale), s');
    EnlistKeepsSerial(s, addr, reg, stale, owner);
    DrainKeepsSerial(Enlisted(s, addr, reg, stale), s', owner);
  }

  lemma PunishKeepsSerial(cfg: Config, s: State, id: Id, s': State, owner: nat -> string)
    requires Serial(s) && Owned(s.workers, owner) && (StrikeWorker(cfg, s, id, s') || DropWorker(cfg, s, id, s'))
    ensures Serial(s') && Owned(s'.workers, owner)
  {
    if Served(s.workers, id) {
      var a, strikes :| a in s.workers && Trimmed(cfg, WithStrikes(s, a, strikes), s');
      SameLoadKeepsSerial(s, WithStrikes(s, a, strikes));
      TrimKeepsSerial(cfg, WithStrikes(s, a, strikes), s', owner);
    }
  }

  lemma StepKeepsSerial(cfg: Config, s: State, e: Event, s': State, owner: nat -> string)
    requires Serial(s) && Owned(s.workers, owner) && Step(cfg, s, e, s')
    requires e.Ready? ==> e.reg.dropEndpoint == Some(owner(e.reg.nonce))
    ensures Serial(s') && Owned(s'.workers, owner)
  {
    match e
    case Assign(r) => AssignKeepsSerial(cfg, s, r, s', owner);
    case Ready(addr, reg) => ReadyKeepsSerial(s, addr, reg, s', owner);
    case Complete(id) => CompleteKeepsSerial(s, id, s', owner);
    case Respond(id, value) => RespondKeepsSerial(cfg, s, id, value, s', owner);
    case Poll(id, to) => PollKeepsSerial(cfg, s, id, to, s', owner);
    case Strike(id) => PunishKeepsSerial(cfg, s, id, s', owner);
    case DropOf(id) => PunishKeepsSerial(cfg, s, id, s', owner);
    case _ => QuietStepKeepsSerial(cfg, s, e, s', owner);
  }

  lemma QuietStepKeepsSerial(cfg: Config, s: State, e: Event, s': State, owner: nat -> string)
    requires Serial(s) && Owned(s.workers, owner) && Step(cfg, s, e, s')
    requires e.Report? || e.Heartbeat? || e.Tick? || e.Close?
    ensures Serial(s') && Owned(s'.workers, owner)
  {
    if e.Report? && Served(s.workers, e.id) {
      var a :| a in s.workers && s.workers[a].BusyWith(e.id)
               && s' == s.(workers := s.workers[a := s.workers[a].Reported(e.update, s.wall)]);
      TouchKeepsSerial(s, a, s.workers[a].Reported(e.update, s.wall), owner);
    } else if e.Heartbeat? && e.addr in s.workers {
      TouchKeepsSerial(s, e.addr, s.workers[e.addr].(lastHeartbeat := s.now), owner);
    } else {
      SameWorkersKeepSerial(s, s');
    }
  }

  lemma TouchKeepsSerial(s: State, a: Addr, w: WorkerState, owner: nat -> string)
    requires Serial(s) && Owned(s.workers, owner) && a in s.workers
    requires w.nonce == s.workers[a].nonce && w.dropEndpoint == s.workers[a].dropEndpoint
    requires s.workers[a].status.Busy? ==> w.BusyWith(s.workers[a].status.id)
    ensures Serial(s.(workers := s.workers[a := w])) && Owned(s.workers[a := w], owner)
  {
    SameLoadKeepsSerial(s, s.(workers := s.workers[a := w]));
  }

  /** In a run where each process nonce registers under its own endpoint, every request sent out
      is over or still with the process it went to, and of any two sent to one process the
      earlier is over: it completed or failed, its worker was evicted, or a registration took
      the worker's entry away. */
  lemma {:induction false} RunSerial(
      cfg: Config, states: seq<State>, events: seq<Event>, i: nat, owner: nat -> string)
    requires Run(cfg, states, events) && i < |states| && OwnEndpoints(events, owner)
    ensures Serial(states[i]) && Owned(states[i].workers, owner)
  {
    if i > 0 {
      RunSerial(cfg, states, events, i - 1, owner);
      StepKeepsSerial(cfg, states[i - 1], events[i - 1], states[i], owner);
    }
  }

  /** Each process registers under the endpoint of its own instance. */
  ghost predicate OwnEndpoints(events: seq<Event>, owner: nat -> string) {
    forall j :: 0 <= j < |events| && events[j].Ready? ==> events[j].reg.dropEndpoint == Some(owner(events[j].reg.nonce))
  }
}
