/** What the invariant means for requests and for the clients polling them, over whole runs. */
module RegistryTheorems {
  import opened Network
  import opened Worker
  import opened RegistryModel
  import opened Ledger
  import opened RegistryInvariant
  import opened RegistryFrames

  // ---------- the books ----------

  ghost function AssignIds(events: seq<Event>): seq<Id> {
    if events == [] then []
    else
      AssignIds(events[..|events| - 1])
      + (if events[|events| - 1].Assign? then [events[|events| - 1].req.id] else [])
  }

  lemma StepSubmits(cfg: Config, s: State, e: Event, s': State)
    requires Step(cfg, s, e, s')
    ensures s'.submitted == s.submitted + (if e.Assign? then [e.req.id] else [])
  {
    match e
    case Assign(r) => AssignFrame(cfg, s, r, s');
    case Ready(addr, reg) => ReadyFrame(s, addr, reg, s');
    case Complete(id) => CompleteFrame(s, id, s');
    case Respond(id, value) => RespondFrame(cfg, s, id, value, s');
    case Poll(id, to) => PollFrame(cfg, s, id, to, s');
    case Strike(id) => PunishFrame(cfg, s, id, s');
    case DropOf(id) => PunishFrame(cfg, s, id, s');
    case _ =>
  }

  lemma {:induction false} SubmittedAreAssigned(cfg: Config, states: seq<State>, events: seq<Event>, i: nat)
    requires Run(cfg, states, events) && i < |states|
    ensures states[i].submitted == AssignIds(events[..i])
  {
    if i > 0 {
      SubmittedAreAssigned(cfg, states, events, i - 1);
      StepSubmits(cfg, states[i - 1], events[i - 1], states[i]);
      assert events[..i][..i - 1] == events[..i - 1];
    }
  }

  /** Ledger conservation, with no hypothesis on ids: in every state of every run, each id
      was submitted exactly as often as it is now queued, on a worker, completed or ended;
      and no id is ever on two workers or queued twice. */
  lemma ConservationOfRequests(cfg: Config, states: seq<State>, events: seq<Event>, i: nat, id: Id)
    requires Run(cfg, states, events) && i < |states|
    ensures multiset(AssignIds(events[..i]))[id]
         == multiset(QueueIds(states[i].pending))[id] + OnWorkers(states[i].workers, id)
            + multiset(HistoryIds(states[i].history))[id] + multiset(FateIds(states[i].fates))[id]
    ensures forall a, b | a in states[i].workers && b in states[i].workers ::
              states[i].workers[a].BusyWith(id) && states[i].workers[b].BusyWith(id) ==> a == b
    ensures forall j, k :: 0 <= j < k < |states[i].pending| ==>
              states[i].pending[j].req.id != states[i].pending[k].req.id
  {
    RunInv(cfg, states, events, i);
    SubmittedAreAssigned(cfg, states, events, i);
    assert Places(states[i], id) == multiset(states[i].submitted)[id];
  }

  // ---------- work and waiting ----------

  /** Work conservation: at no point of any run does an idle worker that could serve a queued
      request have an open channel. */
  lemma NoWorkerIdlesWhileWorkWaits(
      cfg: Config, states: seq<State>, events: seq<Event>, i: nat, k: nat, a: Addr)
    requires Run(cfg, states, events) && i < |states| && k < |states[i].pending| && a in states[i].workers
    requires states[i].workers[a].status.Idle? && states[i].workers[a].CanServe(states[i].pending[k].req)
    ensures states[i].workers[a].channel in states[i].closed
  {
    RunInv(cfg, states, events, i);
    assert !Available(states[i], a, states[i].pending[k].req);
  }

  /** No overtaking: every request ever sent went to an idle worker able to serve it, past no
      older queued request that this worker could have served; and the queue is never longer
      than its cap nor out of order of arrival. */
  lemma NobodyIsOvertaken(cfg: Config, states: seq<State>, events: seq<Event>, i: nat, n: nat, p: Pending)
    requires Run(cfg, states, events) && i < |states| && n < |states[i].sends|
    ensures states[i].sends[n].worker.status.Idle? && states[i].sends[n].worker.CanServe(states[i].sends[n].req)
    ensures p in states[i].sends[n].ahead ==> !states[i].sends[n].worker.CanServe(p.req)
    ensures |states[i].pending| <= QUEUE_CAP && Ordered(states[i].pending)
  {
    RunInv(cfg, states, events, i);
    assert FairSend(states[i].sends[n]);
  }

  // ---------- fresh ids ----------

  ghost predicate FreshIds(events: seq<Event>) {
    forall i, j :: 0 <= i < j < |events| && events[i].Assign? && events[j].Assign? ==> events[i].req.id != events[j].req.id
  }

  lemma {:induction false} FreshMeansOnce(events: seq<Event>, id: Id)
    requires FreshIds(events)
    ensures multiset(AssignIds(events))[id]
         == if exists i :: 0 <= i < |events| && events[i].Assign? && events[i].req.id == id then 1 else 0
  {
    if events != [] {
      var es, e := events[..|events| - 1], events[|events| - 1];
      assert FreshIds(es);
      FreshMeansOnce(es, id);
      assert multiset(AssignIds(events))[id]
          == multiset(AssignIds(es))[id] + (if e.Assign? && e.req.id == id then 1 else 0);
      if i :| 0 <= i < |events| && events[i].Assign? && events[i].req.id == id {
        assert i < |es| ==> es[i].Assign? && es[i].req.id == id;
      }
    }
  }

  datatype Whereabouts = Queued | Running | Finished | Ended(end: End)

  ghost predicate IsAt(s: State, id: Id, at: Whereabouts) {
    match at
    case Queued => InQueue(s.pending, id)
    case Running => Served(s.workers, id)
    case Finished => exists i :: 0 <= i < |s.history| && s.history[i].id == id
    case Ended(end) => Fate(id, end) in s.fates
  }

  lemma CountsLocate(s: State, id: Id)
    ensures multiset(QueueIds(s.pending))[id] > 0 <==> IsAt(s, id, Queued)
    ensures OnWorkers(s.workers, id) > 0 <==> IsAt(s, id, Running)
    ensures multiset(HistoryIds(s.history))[id] > 0 <==> IsAt(s, id, Finished)
    ensures multiset(FateIds(s.fates))[id] > 0 <==> exists end :: IsAt(s, id, Ended(end))
  {
    assert multiset(QueueIds(s.pending))[id] > 0 <==> id in QueueIds(s.pending);
    assert multiset(HistoryIds(s.history))[id] > 0 <==> id in HistoryIds(s.history);
    assert multiset(FateIds(s.fates))[id] > 0 <==> id in FateIds(s.fates);
    if IsAt(s, id, Queued) {
      var i :| 0 <= i < |s.pending| && s.pending[i].req.id == id;
      assert QueueIds(s.pending)[i] == id;
    }
    if IsAt(s, id, Finished) {
      var i :| 0 <= i < |s.history| && s.history[i].id == id;
      assert HistoryIds(s.history)[i] == id;
    }
    if id in FateIds(s.fates) {
      var i :| 0 <= i < |s.fates| && FateIds(s.fates)[i] == id;
      assert IsAt(s, id, Ended(s.fates[i].end));
    }
    if end :| IsAt(s, id, Ended(end)) {
      var i :| 0 <= i < |s.fates| && s.fates[i] == Fate(id, end);
      assert FateIds(s.fates)[i] == id;
    }
  }

  lemma FateOnce(fates: seq<Fate>, id: Id, e: End, f: End)
    requires multiset(FateIds(fates))[id] <= 1 && Fate(id, e) in fates && Fate(id, f) in fates
    ensures e == f
  {
    var i :| 0 <= i < |fates| && fates[i] == Fate(id, e);
    var j :| 0 <= j < |fates| && fates[j] == Fate(id, f);
    if i < j {
      TwiceCounts(fates, i, j);
    } else if j < i {
      TwiceCounts(fates, j, i);
    }
  }

  lemma TwiceCounts(fates: seq<Fate>, i: nat, j: nat)
    requires i < j < |fates| && fates[i].id == fates[j].id
    ensures multiset(FateIds(fates))[fates[i].id] >= 2
  {
    var ids := FateIds(fates);
    assert ids == ids[..i] + [ids[i]] + ids[i + 1..j] + [ids[j]] + ids[j + 1..];
    calc {
      multiset(ids);
      multiset(ids[..i] + [ids[i]] + ids[i + 1..j] + [ids[j]] + ids[j + 1..]);
      multiset(ids[..i]) + multiset([ids[i]]) + multiset(ids[i + 1..j]) + multiset([ids[j]]) + multiset(ids[j + 1..]);
    }
  }

  /** With fresh ids, as the callers draw them, every submitted request is in exactly one
      place at all times, and one never submitted is in none. */
  lemma ExactlyOnePlace(cfg: Config, states: seq<State>, events: seq<Event>, i: nat, id: Id)
    requires Run(cfg, states, events) && i < |states| && FreshIds(events)
    ensures forall at, at' :: IsAt(states[i], id, at) && IsAt(states[i], id, at') ==> at == at'
    ensures (exists at :: IsAt(states[i], id, at))
       <==> exists j :: 0 <= j < i && events[j].Assign? && events[j].req.id == id
    ensures multiset(HistoryIds(states[i].history))[id] <= 1
  {
    ConservationOfRequests(cfg, states, events, i, id);
    var es := events[..i];
    assert FreshIds(es);
    FreshMeansOnce(es, id);
    CountsLocate(states[i], id);
    if j :| 0 <= j < i && events[j].Assign? && events[j].req.id == id {
      assert es[j].Assign? && es[j].req.id == id;
    }
    forall at, at' | IsAt(states[i], id, at) && IsAt(states[i], id, at') ensures at == at' {
      if at.Ended? && at'.Ended? {
        FateOnce(states[i].fates, id, at.end, at'.end);
      }
    }
  }

  // ---------- repeated ids ----------

  /** No queued request is also on a worker. */
  ghost predicate Apart(s: State) {
    forall i :: 0 <= i < |s.pending| ==> !Served(s.workers, s.pending[i].req.id)
  }

  /** Queued requests are the ones their ids name. */
  ghost predicate Named(s: State, name: Id -> Request) {
    forall i :: 0 <= i < |s.pending| ==> s.pending[i].req == name(s.pending[i].req.id)
  }

  lemma RetryKeepsApart(c: Cursor, c': Cursor, name: Id -> Request)
    requires Apart(c.s) && Named(c.s, name) && Ordered(c.s.pending) && BusyUnique(c.s.workers) && Retry(c, c')
    ensures Apart(c'.s) && Named(c'.s, name) && Ordered(c'.s.pending) && BusyUnique(c'.s.workers)
  {
    var ws, out :| RetryWith(c, ws, out, c');
    AttemptLoad(c.s, c.s.pending[c.k].req, ws, out);
    RetriedQueue(c, ws, out);
    var q' := c'.s.pending;
    forall i | 0 <= i < |q'| ensures !Served(ws, q'[i].req.id) && q'[i].req == name(q'[i].req.id) {
      var j := if out.NoWorker? || i < c.k then i else i + 1;
      assert q'[i] == c.s.pending[j];
      assert OnWorkers(c.s.workers, q'[i].req.id) == 0;
      assert OnWorkers(ws, q'[i].req.id) == 0;
    }
  }

  // What stays queued keeps its order, and an entry taken off is not among the rest.
  lemma RetriedQueue(c: Cursor, ws: Workers, out: Outcome)
    requires c.k < |c.s.pending| && Ordered(c.s.pending) && (out.SentTo? ==> out.addr in c.s.workers)
    ensures var q' := Retried(c, ws, out).s.pending;
            && Ordered(q') && |q'| == |c.s.pending| - (if out.NoWorker? then 0 else 1)
            && (forall i :: 0 <= i < |q'| ==> q'[i] == c.s.pending[if out.NoWorker? || i < c.k then i else i + 1])
            && (!out.NoWorker? ==> forall i :: 0 <= i < |q'| ==> q'[i].req.id != c.s.pending[c.k].req.id)
  {
  }

  lemma {:induction false} ChainKeepsApart(tr: seq<Cursor>, name: Id -> Request, i: nat)
    requires RetryChain(tr) && i < |tr|
    requires Apart(tr[0].s) && Named(tr[0].s, name) && Ordered(tr[0].s.pending) && BusyUnique(tr[0].s.workers)
    ensures Apart(tr[i].s) && Named(tr[i].s, name) && Ordered(tr[i].s.pending) && BusyUnique(tr[i].s.workers)
  {
    if i > 0 {
      ChainKeepsApart(tr, name, i - 1);
      assert Retry(tr[i - 1], tr[i]);
      RetryKeepsApart(tr[i - 1], tr[i], name);
    }
  }

  lemma DrainKeepsApart(s: State, s': State, name: Id -> Request)
    requires Apart(s) && Named(s, name) && QueueOk(s) && BusyUnique(s.workers) && Drained(s, s')
    ensures Apart(s') && Named(s', name)
  {
    var tr :| DrainTrace(s, tr, s');
    UnexpiredMembers(s.pending, s.now);
    UnexpiredKeepsOrder(s.pending, s.now);
    var u := Unexpired(s.pending, s.now);
    forall i | 0 <= i < |u| ensures !Served(s.workers, u[i].req.id) && u[i].req == name(u[i].req.id) {
      assert u[i] in s.pending;
    }
    ChainKeepsApart(tr, name, |tr| - 1);
  }

  // Fewer loaded workers, same queue.
  lemma UnloadKeepsApart(s: State, s': State, name: Id -> Request)
    requires Apart(s) && Named(s, name) && s'.pending == s.pending
    requires forall id :: Served(s'.workers, id) ==> Served(s.workers, id)
    ensures Apart(s') && Named(s', name)
  {
  }

  /** The queue blocks retries: a request already queued has no available worker, so a
      repeated assignment of the same request cannot start it a second time. */
  lemma AssignKeepsApart(cfg: Config, s: State, r: Request, s': State, name: Id -> Request)
    requires Inv(s) && Apart(s) && Named(s, name) && name(r.id) == r && AssignProof(cfg, s, r, s')
    ensures Apart(s') && Named(s', name)
  {
    var s0 := s.(submitted := s.submitted + [r.id]);
    var s1 :| Trimmed(cfg, s0, s1) && AssignNow(s1, r, s');
    SubmittingKeeps(s, r.id);
    TrimKeeps(cfg, s0, s1);
    TrimFrame(cfg, s0, s1);
    TrimOwes(cfg, s, r.id, s1);
    UnloadKeepsApart(s, s1, name);
    AssignNowKeepsApart(s1, r, s', name);
  }

  lemma AssignNowKeepsApart(s: State, r: Request, s': State, name: Id -> Request)
    requires BusyUnique(s.workers) && WorkConserved(s) && Apart(s) && Named(s, name) && name(r.id) == r
    requires AssignNow(s, r, s')
    ensures Apart(s') && Named(s', name)
  {
    var ws, out :| AssignTried(s, r, ws, out, s');
    SettledFrame(s, r, ws, out);
    forall i | 0 <= i < |s'.pending|
      ensures !Served(s'.workers, s'.pending[i].req.id) && s'.pending[i].req == name(s'.pending[i].req.id)
    {
      if i < |s.pending| {
        QueuedStaysApart(s, r, ws, out, name, i);
      } else {
        AttemptLoad(s, r, ws, out);
        assert OnWorkers(ws, r.id) == 0;
      }
    }
  }

  lemma QueuedStaysApart(s: State, r: Request, ws: Workers, out: Outcome, name: Id -> Request, i: nat)
    requires BusyUnique(s.workers) && WorkConserved(s) && Apart(s) && Named(s, name) && name(r.id) == r
    requires Attempt(s.workers, s.closed, s.now, s.wall, r, ws, out) && i < |s.pending|
    ensures !Served(ws, s.pending[i].req.id)
  {
    AttemptLoad(s, r, ws, out);
    assert OnWorkers(s.workers, s.pending[i].req.id) == 0;
    if out.SentTo? && s.pending[i].req.id == r.id {
      assert s.pending[i].req == r;
      assert Available(s, out.addr, s.pending[i].req);
    }
    assert OnWorkers(ws, s.pending[i].req.id) == 0;
  }

  lemma EnlistKeepsApart(s: State, addr: Addr, reg: Registration, stale: StaleEntry, name: Id -> Request)
    requires Apart(s) && Named(s, name) && StaleChoice(s, addr, reg, stale)
    ensures Apart(Enlisted(s, addr, reg, stale)) && Named(Enlisted(s, addr, reg, stale), name)
  {
    var s' := Enlisted(s, addr, reg, stale);
    forall a, id | a in s'.workers && s'.workers[a].BusyWith(id) ensures Served(s.workers, id) {
      if a == addr {
        assert s.workers[stale.addr].BusyWith(id);
      } else {
        assert s.workers[a].BusyWith(id);
      }
    }
    UnloadKeepsApart(s, s', name);
  }

  lemma PollKeepsApart(cfg: Config, s: State, id: Id, to: Responder, s': State, name: Id -> Request)
    requires Apart(s) && Named(s, name) && StatusRequest(cfg, s, id, to, s')
    ensures Apart(s') && Named(s', name)
  {
    PollFrame(cfg, s, id, to, s');
    UnloadKeepsApart(s, s', name);
  }

  lemma PunishKeepsApart(cfg: Config, s: State, a: Addr, strikes: nat, s': State, name: Id -> Request)
    requires Apart(s) && Named(s, name) && a in s.workers && Trimmed(cfg, WithStrikes(s, a, strikes), s')
    ensures Apart(s') && Named(s', name)
  {
    TrimFrame(cfg, WithStrikes(s, a, strikes), s');
    forall b, i | b in s'.workers && s'.workers[b].BusyWith(i) ensures Served(s.workers, i) {
      assert s.workers[b].BusyWith(i);
    }
    UnloadKeepsApart(s, s', name);
  }

  lemma RespondKeepsApart(cfg: Config, s: State, id: Id, value: Option<Status>, s': State, name: Id -> Request)
    requires Inv(s) && Apart(s) && Named(s, name) && StatusResponse(cfg, s, id, value, s')
    ensures Apart(s') && Named(s', name)
  {
    var bridged, s1 :|
      Bridged(cfg, s, id, value, bridged) && FailureHandled(s, id, bridged, s1) && s' == Notified(s1, id, bridged);
    if s1 != s {
      var a :| a in s.workers && s.workers[a].BusyWith(id) && Drained(Abandon(s, id, a), s1);
      AbandonConserves(s, id, a);
      forall b, i | b in Abandon(s, id, a).workers && Abandon(s, id, a).workers[b].BusyWith(i)
        ensures Served(s.workers, i)
      {
        assert s.workers[b].BusyWith(i);
      }
      UnloadKeepsApart(s, Abandon(s, id, a), name);
      DrainKeepsApart(Abandon(s, id, a), s1, name);
    }
  }

  lemma CompleteKeepsApart(s: State, id: Id, s': State, name: Id -> Request)
    requires Inv(s) && Apart(s) && Named(s, name) && ProofComplete(s, id, s')
    ensures Apart(s') && Named(s', name)
  {
    if Served(s.workers, id) {
      var a :| a in s.workers && s.workers[a].BusyWith(id) && Drained(Finish(s, id, a), s');
      FinishConserves(s, id, a);
      forall b, i | b in Finish(s, id, a).workers && Finish(s, id, a).workers[b].BusyWith(i)
        ensures Served(s.workers, i)
      {
        assert s.workers[b].BusyWith(i);
      }
      UnloadKeepsApart(s, Finish(s, id, a), name);
      DrainKeepsApart(Finish(s, id, a), s', name);
    }
  }

  lemma StepKeepsApart(cfg: Config, s: State, e: Event, s': State, name: Id -> Request)
    requires Inv(s) && Apart(s) && Named(s, name) && Step(cfg, s, e, s')
    requires e.Assign? ==> name(e.req.id) == e.req
    ensures Apart(s') && Named(s', name)
  {
    match e
    case Assign(r) => AssignKeepsApart(cfg, s, r, s', name);
    case Ready(addr, reg) =>
      var stale :| StaleChoice(s, addr, reg, stale) && Drained(Enlisted(s, addr, reg, stale), s');
      EnlistKeepsApart(s, addr, reg, stale, name);
      EnlistConserves(s, addr, reg, stale);
      DrainKeepsApart(Enlisted(s, addr, reg, stale), s', name);
    case Complete(id) => CompleteKeepsApart(s, id, s', name);
    case Report(id, update) =>
      forall b, i | b in s'.workers && s'.workers[b].BusyWith(i) ensures Served(s.workers, i) {
        assert s.workers[b].BusyWith(i);
      }
      UnloadKeepsApart(s, s', name);
    case Respond(id, value) => RespondKeepsApart(cfg, s, id, value, s', name);
    case Poll(id, to) => PollKeepsApart(cfg, s, id, to, s', name);
    case Heartbeat(addr) =>
      forall b, i | b in s'.workers && s'.workers[b].BusyWith(i) ensures Served(s.workers, i) {
        assert s.workers[b].BusyWith(i);
      }
      UnloadKeepsApart(s, s', name);
    case Strike(id) =>
      if Served(s.workers, id) {
        var a, strikes :| a in s.workers && Trimmed(cfg, WithStrikes(s, a, strikes), s');
        PunishKeepsApart(cfg, s, a, strikes, s', name);
      }
    case DropOf(id) =>
      if Served(s.workers, id) {
        var a, strikes :| a in s.workers && Trimmed(cfg, WithStrikes(s, a, strikes), s');
        PunishKeepsApart(cfg, s, a, strikes, s', name);
      }
    case Tick(_, _) =>
    case Close(_) =>
  }

  ghost predicate NamesAgree(events: seq<Event>, name: Id -> Request) {
    forall i :: 0 <= i < |events| && events[i].Assign? ==> name(events[i].req.id) == events[i].req
  }

  /** Retries are harmless: when an id always names the same request, however often it is
      submitted, it is never queued and running at once. */
  lemma {:induction false} RetriesNeverDouble(
      cfg: Config, states: seq<State>, events: seq<Event>, i: nat, name: Id -> Request)
    requires Run(cfg, states, events) && i < |states| && NamesAgree(events, name)
    ensures Apart(states[i]) && Named(states[i], name)
  {
    if i > 0 {
      RetriesNeverDouble(cfg, states, events, i - 1, name);
      RunInv(cfg, states, events, i - 1);
      StepKeepsApart(cfg, states[i - 1], events[i - 1], states[i], name);
    }
  }
}
