/** Status polls: who is answered, how often, and with what. */
module Responders {
  import opened Network
  import opened Worker
  import opened RegistryModel
  import opened Ledger
  import opened RegistryInvariant
  import opened RegistryFrames
  import opened RegistryTheorems
  import opened ProofStatus

  ghost predicate Answered(s: State, r: Responder) {
    exists i :: 0 <= i < |s.answers| && s.answers[i].to == r
  }

  ghost predicate WaitsOn(s: State, id: Id, r: Responder) {
    id in s.awaiting && r in s.awaiting[id]
  }

  /** Every responder handed in was answered once or waits in one place, never both. */
  ghost predicate RespondersOk(s: State) {
    && (forall i, j :: 0 <= i < j < |s.answers| ==> s.answers[i].to != s.answers[j].to)
    && (forall id, i, j :: id in s.awaiting && 0 <= i < j < |s.awaiting[id]| ==> s.awaiting[id][i] != s.awaiting[id][j])
    && (forall id, id', r :: WaitsOn(s, id, r) && WaitsOn(s, id', r) ==> id == id')
    && (forall id, r :: WaitsOn(s, id, r) ==> !Answered(s, r))
    && (forall r :: r in s.asked <==> Answered(s, r) || exists id :: WaitsOn(s, id, r))
  }

  lemma RepliedKeeps(s: State, to: Responder, value: Option<Status>)
    requires RespondersOk(s) && to !in s.asked
    ensures RespondersOk(Replied(s, to, value).(asked := s.asked + [to]))
  {
    var s' := Replied(s, to, value).(asked := s.asked + [to]);
    assert forall r :: Answered(s', r) <==> Answered(s, r) || r == to by {
      assert s'.answers[|s.answers|].to == to;
      forall r | Answered(s, r) ensures Answered(s', r) {
        var i :| 0 <= i < |s.answers| && s.answers[i].to == r;
        assert s'.answers[i].to == r;
      }
    }
    assert forall id, r :: WaitsOn(s', id, r) <==> WaitsOn(s, id, r);
    assert !Answered(s, to);
  }

  lemma WaitingKeeps(s: State, id: Id, to: Responder)
    requires RespondersOk(s) && to !in s.asked
    ensures RespondersOk(Waiting(s, id, to).(asked := s.asked + [to]))
  {
    var s' := Waiting(s, id, to).(asked := s.asked + [to]);
    assert forall r :: Answered(s', r) <==> Answered(s, r);
    assert forall i, r :: WaitsOn(s', i, r) <==> WaitsOn(s, i, r) || (i == id && r == to);
    assert !Answered(s, to) && forall i :: !WaitsOn(s, i, to);
    forall i, j | 0 <= i < j < |s'.awaiting[id]| ensures s'.awaiting[id][i] != s'.awaiting[id][j] {
      if j == |s'.awaiting[id]| - 1 {
        assert WaitsOn(s, id, s'.awaiting[id][i]);
      }
    }
    forall r ensures r in s'.asked <==> Answered(s', r) || exists i :: WaitsOn(s', i, r) {
      if r == to {
        assert WaitsOn(s', id, r);
      } else if i :| WaitsOn(s, i, r) {
        assert WaitsOn(s', i, r);
      }
    }
  }

  lemma NotifiedKeeps(s: State, id: Id, value: Option<Status>)
    requires RespondersOk(s)
    ensures RespondersOk(Notified(s, id, value))
  {
    if id in s.awaiting {
      var s' := Notified(s, id, value);
      var to := s.awaiting[id];
      assert forall i, r :: WaitsOn(s', i, r) <==> WaitsOn(s, i, r) && i != id;
      forall r ensures Answered(s', r) <==> Answered(s, r) || WaitsOn(s, id, r) {
        if Answered(s, r) {
          var i :| 0 <= i < |s.answers| && s.answers[i].to == r;
          assert s'.answers[i].to == r;
        }
        if WaitsOn(s, id, r) {
          var i :| 0 <= i < |to| && to[i] == r;
          assert s'.answers[|s.answers| + i].to == r;
        }
      }
      forall i, j | 0 <= i < j < |s'.answers| ensures s'.answers[i].to != s'.answers[j].to {
        if i < |s.answers| <= j {
          assert WaitsOn(s, id, to[j - |s.answers|]);
          assert Answered(s, s.answers[i].to);
        }
      }
    }
  }

  lemma SameLogsKeep(s: State, s': State)
    requires RespondersOk(s)
    requires s'.awaiting == s.awaiting && s'.answers == s.answers && s'.asked == s.asked
    ensures RespondersOk(s')
  {
    assert forall r :: Answered(s', r) <==> Answered(s, r);
    assert forall id, r :: WaitsOn(s', id, r) <==> WaitsOn(s, id, r);
  }

  lemma PollShape(cfg: Config, s: State, id: Id, to: Responder, s': State)
    requires StatusRequest(cfg, s, id, to, s')
    ensures s'.asked == s.asked + [to]
    ensures || (s'.awaiting == s.awaiting && exists value :: s'.answers == s.answers + [Answer(to, value)])
            || (s'.answers == s.answers && s'.awaiting == Waiting(s, id, to).awaiting)
  {
    var s1 :| Trimmed(cfg, s.(asked := s.asked + [to]), s1) && StatusLookup(cfg, s1, id, to, s');
    TrimFrame(cfg, s.(asked := s.asked + [to]), s1);
    LookupFrame(cfg, s1, id, to, s');
  }

  lemma PollKeepsResponders(cfg: Config, s: State, id: Id, to: Responder, s': State)
    requires RespondersOk(s) && to !in s.asked && StatusRequest(cfg, s, id, to, s')
    ensures RespondersOk(s')
  {
    PollShape(cfg, s, id, to, s');
    if value :| s'.answers == s.answers + [Answer(to, value)] {
      RepliedKeeps(s, to, value);
      SameLogsKeep(Replied(s, to, value).(asked := s.asked + [to]), s');
    } else {
      WaitingKeeps(s, id, to);
      SameLogsKeep(Waiting(s, id, to).(asked := s.asked + [to]), s');
    }
  }

  lemma StepKeepsResponders(cfg: Config, s: State, e: Event, s': State)
    requires RespondersOk(s) && Step(cfg, s, e, s') && (e.Poll? ==> e.to !in s.asked)
    ensures RespondersOk(s')
  {
    match e
    case Poll(id, to) => PollKeepsResponders(cfg, s, id, to, s');
    case Respond(id, value) =>
      var bridged, s1 :|
        Bridged(cfg, s, id, value, bridged) && FailureHandled(s, id, bridged, s1) && s' == Notified(s1, id, bridged);
      FailureFrame(s, id, bridged, s1);
      SameLogsKeep(s, s1);
      NotifiedKeeps(s1, id, bridged);
    case _ =>
      OtherLogsUnchanged(cfg, s, e, s');
      SameLogsKeep(s, s');
  }

  lemma OtherLogsUnchanged(cfg: Config, s: State, e: Event, s': State)
    requires Step(cfg, s, e, s') && !e.Poll? && !e.Respond?
    ensures s'.awaiting == s.awaiting && s'.answers == s.answers && s'.asked == s.asked
  {
    match e
    case Assign(r) => AssignFrame(cfg, s, r, s');
    case Ready(addr, reg) => ReadyFrame(s, addr, reg, s');
    case Complete(id) => CompleteFrame(s, id, s');
    case Strike(id) => PunishFrame(cfg, s, id, s');
    case DropOf(id) => PunishFrame(cfg, s, id, s');
    case _ =>
  }

  lemma StepAsks(cfg: Config, s: State, e: Event, s': State)
    requires Step(cfg, s, e, s')
    ensures s'.asked == s.asked + (if e.Poll? then [e.to] else [])
  {
    if e.Poll? {
      PollFrame(cfg, s, e.id, e.to, s');
    } else if e.Respond? {
      RespondFrame(cfg, s, e.id, e.value, s');
    } else {
      OtherLogsUnchanged(cfg, s, e, s');
    }
  }

  lemma StepFinishes(cfg: Config, s: State, e: Event, s': State)
    requires Step(cfg, s, e, s')
    ensures s.history <= s'.history
    ensures forall i :: |s.history| <= i < |s'.history| ==> e.Complete? && s'.history[i].id == e.id
  {
    match e
    case Assign(r) => AssignFrame(cfg, s, r, s');
    case Ready(addr, reg) => ReadyFrame(s, addr, reg, s');
    case Complete(id) =>
      if Served(s.workers, id) {
        var a :| a in s.workers && s.workers[a].BusyWith(id) && Drained(Finish(s, id, a), s');
        DrainFrame(Finish(s, id, a), s');
      }
    case Respond(id, value) => RespondFrame(cfg, s, id, value, s');
    case Poll(id, to) => PollFrame(cfg, s, id, to, s');
    case Strike(id) => PunishFrame(cfg, s, id, s');
    case DropOf(id) => PunishFrame(cfg, s, id, s');
    case _ =>
  }

  /** Responder conservation: in every run where each one-shot responder is handed in once,
      every one was answered exactly once or is still waiting, in exactly one place. */
  lemma {:induction false} EveryPollAnsweredOnce(cfg: Config, states: seq<State>, events: seq<Event>, i: nat)
    requires Run(cfg, states, events) && i < |states|
    requires forall j :: 0 <= j < |events| && events[j].Poll? ==> events[j].to !in states[j].asked
    ensures RespondersOk(states[i])
  {
    if i == 0 {
      assert forall r :: !Answered(states[0], r);
    } else {
      EveryPollAnsweredOnce(cfg, states, events, i - 1);
      StepKeepsResponders(cfg, states[i - 1], events[i - 1], states[i]);
    }
  }

  // ---------- what a worker's answer becomes ----------

  /** Whether a live worker took up `id` less than the grace time ago. */
  predicate JustAssigned(cfg: Config, s: State, id: Id) {
    exists a :: a in s.workers && s.workers[a].BusyWith(id)
                && Elapsed(s.workers[a].status.start, s.now) < cfg.startupGraceSecs * SECOND
  }

  function RelayedValue(cfg: Config, s: State, id: Id, value: Option<Status>): Option<Status> {
    if value.None? && JustAssigned(cfg, s, id) then Some(Unexecuted) else value
  }

  lemma BridgeIsDetermined(cfg: Config, s: State, id: Id, value: Option<Status>, bridged: Option<Status>)
    requires BusyUnique(s.workers) && Bridged(cfg, s, id, value, bridged)
    ensures bridged == RelayedValue(cfg, s, id, value)
  {
  }

  /** All waiters on an id get one and the same value, nobody else is told anything, and an
      "unknown request" is relayed as a loss exactly when no live worker took the request up
      within the grace time; inside it the client sees "assigned". */
  lemma OneValueForAllWaiters(cfg: Config, s: State, id: Id, value: Option<Status>, s': State)
    requires Inv(s) && Step(cfg, s, Respond(id, value), s')
    ensures s'.answers == s.answers + (if id in s.awaiting then Answers(s.awaiting[id], RelayedValue(cfg, s, id, value)) else [])
    ensures id !in s'.awaiting && s'.awaiting == s.awaiting - {id}
    ensures ClientView(Relayed(RelayedValue(cfg, s, id, value)))
         == if value.Some? then Convert(value.value)
            else if JustAssigned(cfg, s, id) then Converted(Assigned) else Converted(Lost)
  {
    var bridged, s1 :|
      Bridged(cfg, s, id, value, bridged) && FailureHandled(s, id, bridged, s1) && s' == Notified(s1, id, bridged);
    BridgeIsDetermined(cfg, s, id, value, bridged);
    FailureFrame(s, id, bridged, s1);
    assert s.answers + [] == s.answers;
  }

  /** A reported failure frees the worker, ends the request and drains the queue first; only
      then is any waiter told. */
  lemma FreedBeforeTold(cfg: Config, s: State, id: Id, st: Status, s': State)
    requires Inv(s) && Apart(s) && Served(s.workers, id) && st.execution == UNEXECUTABLE
    requires Step(cfg, s, Respond(id, Some(st)), s')
    ensures exists s1: State ::
              && s1.answers == s.answers && s1.awaiting == s.awaiting
              && !Served(s1.workers, id) && Fate(id, Failed) in s1.fates && WorkConserved(s1)
              && s' == Notified(s1, id, Some(st))
  {
    var bridged, s1 :|
      Bridged(cfg, s, id, Some(st), bridged) && FailureHandled(s, id, bridged, s1) && s' == Notified(s1, id, bridged);
    var a :| a in s.workers && s.workers[a].BusyWith(id) && Drained(Abandon(s, id, a), s1);
    FailureFrame(s, id, bridged, s1);
    FailureKeeps(s, id, bridged, s1);
    var t := Abandon(s, id, a);
    Unload(s.workers, a, t.workers);
    AbandonConserves(s, id, a);
    assert OnWorkers(t.workers, id) == 0;
    NotQueuedWhileServed(s, id);
    DrainStartsOnlyQueued(t, s1, id);
    assert Fate(id, Failed) in t.fates;
    assert !Served(s1.workers, id) && Fate(id, Failed) in s1.fates;
  }

  lemma NotQueuedWhileServed(s: State, id: Id)
    requires Apart(s) && Served(s.workers, id)
    ensures !InQueue(s.pending, id)
  {
  }

  // A drain starts nothing that was not queued, and forgets no fate.
  lemma DrainStartsOnlyQueued(s: State, s': State, id: Id)
    requires BusyUnique(s.workers) && Drained(s, s')
    ensures Served(s'.workers, id) ==> Served(s.workers, id) || InQueue(s.pending, id)
    ensures forall f :: f in s.fates ==> f in s'.fates
  {
    var tr: seq<Cursor> :| DrainTrace(s, tr, s');
    UnexpiredMembers(s.pending, s.now);
    ChainStartsOnlyQueued(tr, id, |tr| - 1);
    if InQueue(tr[0].s.pending, id) {
      var i :| 0 <= i < |tr[0].s.pending| && tr[0].s.pending[i].req.id == id;
      assert tr[0].s.pending[i] in s.pending;
    }
  }

  lemma {:induction false} ChainStartsOnlyQueued(tr: seq<Cursor>, id: Id, i: nat)
    requires RetryChain(tr) && i < |tr| && BusyUnique(tr[0].s.workers)
    ensures BusyUnique(tr[i].s.workers)
    ensures Served(tr[i].s.workers, id) || InQueue(tr[i].s.pending, id)
        ==> Served(tr[0].s.workers, id) || InQueue(tr[0].s.pending, id)
    ensures forall f :: f in tr[0].s.fates ==> f in tr[i].s.fates
  {
    if i > 0 {
      ChainStartsOnlyQueued(tr, id, i - 1);
      assert Retry(tr[i - 1], tr[i]);
      RetryStartsOnlyQueued(tr[i - 1], tr[i], id);
    }
  }

  lemma RetryStartsOnlyQueued(c: Cursor, c': Cursor, id: Id)
    requires Retry(c, c') && BusyUnique(c.s.workers)
    ensures BusyUnique(c'.s.workers) && c.s.fates <= c'.s.fates
    ensures Served(c'.s.workers, id) || InQueue(c'.s.pending, id) ==> Served(c.s.workers, id) || InQueue(c.s.pending, id)
  {
    var ws, out :| RetryWith(c, ws, out, c');
    AttemptLoad(c.s, c.s.pending[c.k].req, ws, out);
    assert OnWorkers(ws, id) == OnWorkers(c.s.workers, id)
                                + (if out.SentTo? && id == c.s.pending[c.k].req.id then 1 else 0);
    RetriedOnlyRemoves(c, ws, out, id);
  }

  lemma RetriedOnlyRemoves(c: Cursor, ws: Workers, out: Outcome, id: Id)
    requires c.k < |c.s.pending| && (out.SentTo? ==> out.addr in c.s.workers)
    ensures var c' := Retried(c, ws, out);
            && c'.s.workers == ws && c.s.fates <= c'.s.fates
            && (InQueue(c'.s.pending, id) ==> InQueue(c.s.pending, id))
  {
    var q' := Retried(c, ws, out).s.pending;
    if InQueue(q', id) {
      var j :| 0 <= j < |q'| && q'[j].req.id == id;
      assert q'[j] == c.s.pending[if out.NoWorker? || j < c.k then j else j + 1];
    }
  }

  // ---------- when a poll finds nothing ----------

  /** The registry no longer holds the request, or its worker has hung up. */
  predicate OutOfReach(s: State, id: Id) {
    if Served(s.workers, id)
    then forall a :: a in s.workers && s.workers[a].BusyWith(id) ==> s.workers[a].channel in s.closed
    else !InQueue(s.pending, id)
  }

  lemma LookupFindsLiveRequests(cfg: Config, s: State, id: Id, to: Responder, s': State)
    requires BusyUnique(s.workers) && StatusLookup(cfg, s, id, to, s')
    ensures s'.answers == s.answers + [Answer(to, None)] <==> OutOfReach(s, id)
  {
    if Served(s.workers, id) {
      assert |Waiting(s, id, to).answers| == |s.answers|;
    } else {
      assert s'.answers[|s.answers|].value == None <==> !InQueue(s.pending, id);
    }
  }

  lemma LookupKeepsReach(cfg: Config, s: State, id: Id, to: Responder, s': State)
    requires StatusLookup(cfg, s, id, to, s')
    ensures OutOfReach(s, id) <==> OutOfReach(s', id)
  {
    LookupFrame(cfg, s, id, to, s');
    forall a | a in s.workers ensures s.workers[a].BusyWith(id) <==> s'.workers[a].BusyWith(id) {
      assert s'.workers[a] == s.workers[a].(strikes := s'.workers[a].strikes);
    }
  }

  /** A poll is answered "none" on the spot exactly when the request, as the registry stands
      after trimming, is neither queued nor on a live worker, or its worker's channel is
      closed; otherwise it is answered "unexecuted" or forwarded to the worker. */
  lemma PollFindsLiveRequests(cfg: Config, s: State, id: Id, to: Responder, s': State)
    requires Inv(s) && Step(cfg, s, Poll(id, to), s')
    ensures s'.answers == s.answers + [Answer(to, None)] <==> OutOfReach(s', id)
  {
    var s0 := s.(asked := s.asked + [to]);
    var s1 :| Trimmed(cfg, s0, s1) && StatusLookup(cfg, s1, id, to, s');
    SurroundingsKeep(s, s0);
    TrimKeeps(cfg, s0, s1);
    TrimFrame(cfg, s0, s1);
    LookupFindsLiveRequests(cfg, s1, id, to, s');
    LookupKeepsReach(cfg, s1, id, to, s');
  }
}
