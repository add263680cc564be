/** What each command leaves alone. */
module RegistryFrames {
  import opened Network
  import opened Worker
  import opened RegistryModel
  import opened RegistryInvariant

  lemma ChainFrame(tr: seq<Cursor>, i: nat)
    requires RetryChain(tr) && i < |tr|
    ensures var s, s' := tr[0].s, tr[i].s;
            s' == s.(workers := s'.workers, pending := s'.pending, sends := s'.sends, fates := s'.fates)
  {
    if i > 0 {
      ChainFrame(tr, i - 1);
      assert Retry(tr[i - 1], tr[i]);
    }
  }

  /** A drain touches workers, queue, sends and fates only. */
  lemma DrainFrame(s: State, s': State)
    requires Drained(s, s')
    ensures s' == s.(workers := s'.workers, pending := s'.pending, sends := s'.sends, fates := s'.fates)
  {
    var tr :| DrainTrace(s, tr, s');
    ChainFrame(tr, |tr| - 1);
  }

  lemma TrimFrame(cfg: Config, s: State, s': State)
    requires Trimmed(cfg, s, s')
    ensures s' == s.(workers := s'.workers, dead := s'.dead, drops := s'.drops, fates := s'.fates)
    ensures forall a :: a in s'.workers <==> a in s.workers && !s.workers[a].ShouldDrop(cfg, s.now, s.wall)
    ensures forall a :: a in s'.workers ==> s'.workers[a] == s.workers[a]
  {
    var order :| DropOrder(cfg, s, order) && s' == EvictAll(s, order);
    EvictAllFrame(s, order);
  }

  lemma FailureFrame(s: State, id: Id, value: Option<Status>, s': State)
    requires FailureHandled(s, id, value, s')
    ensures s' == s.(workers := s'.workers, pending := s'.pending, sends := s'.sends, fates := s'.fates)
  {
    if s' != s {
      var a :| a in s.workers && s.workers[a].BusyWith(id) && Drained(Abandon(s, id, a), s');
      DrainFrame(Abandon(s, id, a), s');
    }
  }

  lemma AssignFrame(cfg: Config, s: State, r: Request, s': State)
    requires AssignProof(cfg, s, r, s')
    ensures s' == s.(workers := s'.workers, pending := s'.pending, dead := s'.dead, drops := s'.drops,
                     sends := s'.sends, fates := s'.fates, submitted := s.submitted + [r.id])
  {
    var s0 := s.(submitted := s.submitted + [r.id]);
    var s1 :| Trimmed(cfg, s0, s1) && AssignNow(s1, r, s');
    TrimFrame(cfg, s0, s1);
    var ws, out :| AssignTried(s1, r, ws, out, s');
    SettledFrame(s1, r, ws, out);
  }

  lemma ReadyFrame(s: State, addr: Addr, reg: Registration, s': State)
    requires WorkerReady(s, addr, reg, s')
    ensures s' == s.(workers := s'.workers, pending := s'.pending, sends := s'.sends, fates := s'.fates)
  {
    var stale :| StaleChoice(s, addr, reg, stale) && Drained(Enlisted(s, addr, reg, stale), s');
    DrainFrame(Enlisted(s, addr, reg, stale), s');
  }

  lemma CompleteFrame(s: State, id: Id, s': State)
    requires ProofComplete(s, id, s')
    ensures s' == s.(workers := s'.workers, pending := s'.pending, sends := s'.sends, fates := s'.fates,
                     history := s'.history)
  {
    if Served(s.workers, id) {
      var a :| a in s.workers && s.workers[a].BusyWith(id) && Drained(Finish(s, id, a), s');
      DrainFrame(Finish(s, id, a), s');
    }
  }

  lemma RespondFrame(cfg: Config, s: State, id: Id, value: Option<Status>, s': State)
    requires StatusResponse(cfg, s, id, value, s')
    ensures s' == s.(workers := s'.workers, pending := s'.pending, sends := s'.sends, fates := s'.fates,
                     awaiting := s'.awaiting, answers := s'.answers)
  {
    var bridged, s1 :|
      Bridged(cfg, s, id, value, bridged) && FailureHandled(s, id, bridged, s1) && s' == Notified(s1, id, bridged);
    FailureFrame(s, id, bridged, s1);
  }

  lemma LookupFrame(cfg: Config, s: State, id: Id, to: Responder, s': State)
    requires StatusLookup(cfg, s, id, to, s')
    ensures s' == s.(workers := s'.workers, awaiting := s'.awaiting, answers := s'.answers)
    ensures s'.workers.Keys == s.workers.Keys
    ensures forall a :: a in s.workers ==> s'.workers[a] == s.workers[a].(strikes := s'.workers[a].strikes)
  {
  }

  lemma PollFrame(cfg: Config, s: State, id: Id, to: Responder, s': State)
    requires StatusRequest(cfg, s, id, to, s')
    ensures s' == s.(workers := s'.workers, dead := s'.dead, drops := s'.drops, fates := s'.fates,
                     asked := s.asked + [to], awaiting := s'.awaiting, answers := s'.answers)
    ensures forall i :: Served(s'.workers, i) ==> Served(s.workers, i)
  {
    var s0 := s.(asked := s.asked + [to]);
    var s1 :| Trimmed(cfg, s0, s1) && StatusLookup(cfg, s1, id, to, s');
    TrimFrame(cfg, s0, s1);
    LookupFrame(cfg, s1, id, to, s');
    forall i | Served(s'.workers, i) ensures Served(s.workers, i) {
      var a :| a in s'.workers && s'.workers[a].BusyWith(i);
      assert s.workers[a].BusyWith(i);
    }
  }

  /** Commands take no time; only the clock's own steps move it. */
  lemma StepKeepsTime(cfg: Config, s: State, e: Event, s': State)
    requires Step(cfg, s, e, s')
    ensures s'.now == if e.Tick? then e.now else s.now
  {
    match e
    case Assign(r) => AssignFrame(cfg, s, r, s');
    case Ready(addr, reg) => ReadyFrame(s, addr, reg, s');
    case Complete(id) => CompleteFrame(s, id, s');
    case Respond(id, value) => RespondFrame(cfg, s, id, value, s');
    case Poll(id, to) => PollFrame(cfg, s, id, to, s');
    case Strike(id) => PunishFrame(cfg, s, id, s');
    case DropOf(id) => PunishFrame(cfg, s, id, s');
    case _ =>
  }

  lemma PunishFrame(cfg: Config, s: State, id: Id, s': State)
    requires StrikeWorker(cfg, s, id, s') || DropWorker(cfg, s, id, s')
    ensures s' == s.(workers := s'.workers, dead := s'.dead, drops := s'.drops, fates := s'.fates)
  {
    if Served(s.workers, id) {
      var a, strikes :| a in s.workers && Trimmed(cfg, WithStrikes(s, a, strikes), s');
      TrimFrame(cfg, WithStrikes(s, a, strikes), s');
    }
  }

  // ---------- steps with nothing to do ----------

  lemma NothingToTrim(cfg: Config, s: State)
    requires forall a :: a in s.workers ==> !s.workers[a].ShouldDrop(cfg, s.now, s.wall)
    ensures Trimmed(cfg, s, s)
  {
    assert DropOrder(cfg, s, []) && s == EvictAll(s, []);
  }

  lemma NothingToDrain(s: State)
    requires s.pending == []
    ensures Drained(s, s)
  {
    assert s.fates + [] == s.fates;
    assert RetryChain([Cursor(s, 0)]) && DrainTrace(s, [Cursor(s, 0)], s);
  }

  lemma LoneWorkerIsChosen(ws: Workers, closed: set<Channel>, now: Instant, wall: WallTime, r: Request, a: Addr, w: WorkerState)
    requires ws == map[a := w] && w.status.Idle? && w.CanServe(r) && w.channel !in closed
    ensures Attempt(ws, closed, now, wall, r, map[a := w.Assigned(r, now, wall)], SentTo(a, {}))
  {
    assert Candidate(ws, r, a);
  }

  /** With one worker, idle, able and connected, and nothing queued, a request is sent to it. */
  lemma LoneWorkerTakes(cfg: Config, s: State, a: Addr, w: WorkerState, r: Request, s': State)
    requires s.workers == map[a := w] && s.pending == [] && w.status.Idle? && w.CanServe(r) && w.channel !in s.closed
    requires !w.ShouldDrop(cfg, s.now, s.wall)
    requires s' == s.(workers := map[a := w.Assigned(r, s.now, s.wall)], submitted := s.submitted + [r.id],
                      sends := s.sends + [Send(a, w, r, [])])
    ensures Step(cfg, s, Assign(r), s')
  {
    var s0 := s.(submitted := s.submitted + [r.id]);
    var ws := map[a := w.Assigned(r, s.now, s.wall)];
    NothingToTrim(cfg, s0);
    LoneWorkerIsChosen(s.workers, s.closed, s.now, s.wall, r, a, w);
    assert s0.pending[..0] == [];
    assert AssignTried(s0, r, ws, SentTo(a, {}), s');
  }

  /** A run from an empty registry at time zero to the state `s`. */
  ghost predicate RunTo(cfg: Config, states: seq<State>, events: seq<Event>, s: State) {
    Run(cfg, states, events) && states[0] == Initial(0, 0) && states[|events|] == s
  }

  lemma RunStarts(cfg: Config) returns (states: seq<State>, events: seq<Event>)
    ensures RunTo(cfg, states, events, Initial(0, 0)) && events == []
  {
    states, events := [Initial(0, 0)], [];
  }

  /** A run goes on with any step open to it. */
  lemma RunGoesOn(cfg: Config, states: seq<State>, events: seq<Event>, s: State, e: Event, s': State)
    returns (states': seq<State>, events': seq<Event>)
    requires RunTo(cfg, states, events, s) && Step(cfg, s, e, s')
    ensures RunTo(cfg, states', events', s') && states' == states + [s'] && events' == events + [e]
  {
    states', events' := states + [s'], events + [e];
  }
}
