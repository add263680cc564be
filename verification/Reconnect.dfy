/** Reconnecting contemplants: a registration must neither destroy a live instance nor
    lose or double the proof it is working on. */
module Reconnect {
  import opened Network
  import opened Worker
  import opened RegistryModel
  import opened RegistryInvariant
  import opened RegistryFrames

  // ---------- what draining leaves alone ----------

  predicate SameIdentity(w: WorkerState, w': WorkerState) {
    && w'.dropEndpoint == w.dropEndpoint && w'.nonce == w.nonce && w'.name == w.name
    && w'.capabilities == w.capabilities && w'.channel == w.channel
  }

  /** Entries keep who they are, and busy ones keep everything. */
  ghost predicate Evolved(ws: Workers, ws': Workers) {
    && ws'.Keys == ws.Keys
    && forall a :: a in ws ==> SameIdentity(ws[a], ws'[a]) && (ws[a].status.Busy? ==> ws'[a] == ws[a])
  }

  lemma AttemptEvolves(ws: Workers, closed: set<Channel>, now: Instant, wall: WallTime,
                       r: Request, ws': Workers, out: Outcome)
    requires Attempt(ws, closed, now, wall, r, ws', out)
    ensures Evolved(ws, ws')
  {
  }

  lemma {:induction false} ChainEvolves(tr: seq<Cursor>, i: nat)
    requires RetryChain(tr) && i < |tr|
    ensures Evolved(tr[0].s.workers, tr[i].s.workers)
  {
    if i > 0 {
      ChainEvolves(tr, i - 1);
      assert Retry(tr[i - 1], tr[i]);
      var ws, out :| RetryWith(tr[i - 1], ws, out, tr[i]);
      var s := tr[i - 1].s;
      AttemptEvolves(s.workers, s.closed, s.now, s.wall, s.pending[tr[i - 1].k].req, ws, out);
    }
  }

  lemma DrainEvolves(s: State, s': State)
    requires Drained(s, s')
    ensures Evolved(s.workers, s'.workers)
  {
    var tr: seq<Cursor> :| DrainTrace(s, tr, s');
    ChainEvolves(tr, |tr| - 1);
  }

  // ---------- drop endpoints ----------

  ghost predicate DistinctEndpoints(ws: Workers) {
    forall a, b :: a in ws && b in ws && a != b && ws[a].dropEndpoint.Some? ==> ws[a].dropEndpoint != ws[b].dropEndpoint
  }

  /** A fleet run by Magisters: every entry has an endpoint, and no two share one. */
  ghost predicate Fleet(ws: Workers) {
    DistinctEndpoints(ws) && forall a :: a in ws ==> ws[a].dropEndpoint.Some?
  }

  lemma EnlistKeepsFleet(s: State, addr: Addr, reg: Registration, stale: StaleEntry)
    requires Fleet(s.workers) && reg.dropEndpoint.Some? && StaleChoice(s, addr, reg, stale)
    ensures Fleet(Enlisted(s, addr, reg, stale).workers)
  {
  }

  /** No entry is new, and all that are left keep who they are. */
  ghost predicate Kept(ws: Workers, ws': Workers) {
    forall a :: a in ws' ==> a in ws && SameIdentity(ws[a], ws'[a])
  }

  lemma AssignKeepsEndpoints(cfg: Config, s: State, r: Request, s': State)
    requires AssignProof(cfg, s, r, s')
    ensures Kept(s.workers, s'.workers)
  {
    var s0 := s.(submitted := s.submitted + [r.id]);
    var s1 :| Trimmed(cfg, s0, s1) && AssignNow(s1, r, s');
    TrimFrame(cfg, s0, s1);
    AssignNowEvolves(s1, r, s');
  }

  lemma AssignNowEvolves(s: State, r: Request, s': State)
    requires AssignNow(s, r, s')
    ensures Evolved(s.workers, s'.workers) && s'.drops == s.drops
  {
    var ws, out :| AssignTried(s, r, ws, out, s');
    AttemptEvolves(s.workers, s.closed, s.now, s.wall, r, ws, out);
    SettledFrame(s, r, ws, out);
  }

  lemma CompleteKeepsEndpoints(s: State, id: Id, s': State)
    requires ProofComplete(s, id, s')
    ensures Kept(s.workers, s'.workers)
  {
    if Served(s.workers, id) {
      var a :| a in s.workers && s.workers[a].BusyWith(id) && Drained(Finish(s, id, a), s');
      DrainEvolves(Finish(s, id, a), s');
    }
  }

  lemma PollKeepsEndpoints(cfg: Config, s: State, id: Id, to: Responder, s': State)
    requires StatusRequest(cfg, s, id, to, s')
    ensures Kept(s.workers, s'.workers)
  {
    var s0 := s.(asked := s.asked + [to]);
    var s1 :| Trimmed(cfg, s0, s1) && StatusLookup(cfg, s1, id, to, s');
    TrimFrame(cfg, s0, s1);
    LookupFrame(cfg, s1, id, to, s');
  }

  lemma FailureKeepsEndpoints(s: State, id: Id, value: Option<Status>, s': State)
    requires FailureHandled(s, id, value, s')
    ensures Kept(s.workers, s'.workers)
  {
    if s' != s {
      var a :| a in s.workers && s.workers[a].BusyWith(id) && Drained(Abandon(s, id, a), s');
      DrainEvolves(Abandon(s, id, a), s');
    }
  }

  lemma RespondKeepsEndpoints(cfg: Config, s: State, id: Id, value: Option<Status>, s': State)
    requires StatusResponse(cfg, s, id, value, s')
    ensures Kept(s.workers, s'.workers)
  {
    var bridged, s1 :|
      Bridged(cfg, s, id, value, bridged) && FailureHandled(s, id, bridged, s1) && s' == Notified(s1, id, bridged);
    FailureKeepsEndpoints(s, id, bridged, s1);
  }

  lemma PunishKeepsEndpoints(cfg: Config, s: State, id: Id, s': State)
    requires StrikeWorker(cfg, s, id, s') || DropWorker(cfg, s, id, s')
    ensures Kept(s.workers, s'.workers)
  {
    if Served(s.workers, id) {
      var a, strikes :| a in s.workers && Trimmed(cfg, WithStrikes(s, a, strikes), s');
      TrimFrame(cfg, WithStrikes(s, a, strikes), s');
    }
  }

  /** Only registrations bring entries in or change who they are. */
  lemma StepKeepsEndpoints(cfg: Config, s: State, e: Event, s': State)
    requires Step(cfg, s, e, s') && !e.Ready?
    ensures Kept(s.workers, s'.workers)
  {
    match e
    case Assign(r) => AssignKeepsEndpoints(cfg, s, r, s');
    case Complete(id) => CompleteKeepsEndpoints(s, id, s');
    case Respond(id, value) => RespondKeepsEndpoints(cfg, s, id, value, s');
    case Poll(id, to) => PollKeepsEndpoints(cfg, s, id, to, s');
    case Strike(id) => PunishKeepsEndpoints(cfg, s, id, s');
    case DropOf(id) => PunishKeepsEndpoints(cfg, s, id, s');
    case _ =>
  }

  lemma StepKeepsFleet(cfg: Config, s: State, e: Event, s': State)
    requires Fleet(s.workers) && Step(cfg, s, e, s') && (e.Ready? ==> e.reg.dropEndpoint.Some?)
    ensures Fleet(s'.workers)
  {
    if e.Ready? {
      var stale :| StaleChoice(s, e.addr, e.reg, stale) && Drained(Enlisted(s, e.addr, e.reg, stale), s');
      EnlistKeepsFleet(s, e.addr, e.reg, stale);
      DrainEvolves(Enlisted(s, e.addr, e.reg, stale), s');
    } else {
      StepKeepsEndpoints(cfg, s, e, s');
    }
  }

  ghost predicate EndpointAmong(s: State, order: seq<Addr>, endpoint: string) {
    exists a :: a in order && a in s.workers && s.workers[a].dropEndpoint == Some(endpoint)
  }

  // Every drop a trim issues is for an entry it removed.
  lemma {:induction false} EvictAllDrops(s: State, order: seq<Addr>)
    ensures var s' := EvictAll(s, order);
            && |s.drops| <= |s'.drops| && s'.drops[..|s.drops|] == s.drops
            && forall i :: |s.drops| <= i < |s'.drops| ==> EndpointAmong(s, order, s'.drops[i])
  {
    if order != [] {
      var init, a := order[..|order| - 1], order[|order| - 1];
      EvictAllDrops(s, init);
      EvictAllFrame(s, init);
      assert order == init + [a];
      var s1, s' := EvictAll(s, init), EvictAll(s, order);
      forall i | |s.drops| <= i < |s'.drops| ensures EndpointAmong(s, order, s'.drops[i]) {
        if i < |s1.drops| {
          assert s'.drops[i] == s1.drops[i];
          assert EndpointAmong(s, init, s1.drops[i]);
          var b :| b in init && b in s.workers && s.workers[b].dropEndpoint == Some(s1.drops[i]);
          assert b in order;
        } else {
          assert a in order && s.workers[a].dropEndpoint == Some(s'.drops[i]);
        }
      }
    }
  }

  /** A drop issued in this step names no entry that is still live after it. */
  ghost predicate DropsAreDead(s: State, s': State) {
    && |s.drops| <= |s'.drops| && s'.drops[..|s.drops|] == s.drops
    && forall i, a :: |s.drops| <= i < |s'.drops| && a in s'.workers ==> s'.workers[a].dropEndpoint != Some(s'.drops[i])
  }

  lemma TrimDropsTheDead(cfg: Config, s: State, s': State)
    requires DistinctEndpoints(s.workers) && Trimmed(cfg, s, s')
    ensures DropsAreDead(s, s')
  {
    var order :| DropOrder(cfg, s, order) && s' == EvictAll(s, order);
    EvictAllDrops(s, order);
    EvictAllFrame(s, order);
    forall i, a | |s.drops| <= i < |s'.drops| && a in s'.workers ensures s'.workers[a].dropEndpoint != Some(s'.drops[i]) {
      assert EndpointAmong(s, order, s'.drops[i]);
      var b :| b in order && b in s.workers && s.workers[b].dropEndpoint == Some(s'.drops[i]);
      assert a != b;
    }
  }

  // Same drops, and entries that keep their endpoints.
  lemma LaterDropsStayDead(s: State, s1: State, s': State)
    requires DropsAreDead(s, s1) && s'.drops == s1.drops && s'.workers.Keys == s1.workers.Keys
    requires forall a :: a in s1.workers ==> s'.workers[a].dropEndpoint == s1.workers[a].dropEndpoint
    ensures DropsAreDead(s, s')
  {
  }

  lemma StepDropsTheDead(cfg: Config, s: State, e: Event, s': State)
    requires DistinctEndpoints(s.workers) && Step(cfg, s, e, s')
    ensures DropsAreDead(s, s')
    ensures e.Ready? ==> s'.drops == s.drops
  {
    match e
    case Assign(r) =>
      var s0 := s.(submitted := s.submitted + [r.id]);
      var s1 :| Trimmed(cfg, s0, s1) && AssignNow(s1, r, s');
      TrimDropsTheDead(cfg, s0, s1);
      AssignNowEvolves(s1, r, s');
      LaterDropsStayDead(s, s1, s');
    case Ready(addr, reg) => ReadyFrame(s, addr, reg, s');
    case Complete(id) => CompleteFrame(s, id, s');
    case Respond(id, value) => RespondFrame(cfg, s, id, value, s');
    case Poll(id, to) =>
      var s0 := s.(asked := s.asked + [to]);
      var s1 :| Trimmed(cfg, s0, s1) && StatusLookup(cfg, s1, id, to, s');
      TrimDropsTheDead(cfg, s0, s1);
      LookupFrame(cfg, s1, id, to, s');
      LaterDropsStayDead(s, s1, s');
    case Strike(id) => PunishDropsTheDead(cfg, s, id, s');
    case DropOf(id) => PunishDropsTheDead(cfg, s, id, s');
    case _ =>
  }

  lemma PunishDropsTheDead(cfg: Config, s: State, id: Id, s': State)
    requires DistinctEndpoints(s.workers) && (StrikeWorker(cfg, s, id, s') || DropWorker(cfg, s, id, s'))
    ensures DropsAreDead(s, s')
  {
    if Served(s.workers, id) {
      var a, strikes :| a in s.workers && Trimmed(cfg, WithStrikes(s, a, strikes), s');
      TrimDropsTheDead(cfg, WithStrikes(s, a, strikes), s');
    }
  }

  ghost predicate FleetEvents(events: seq<Event>) {
    forall i :: 0 <= i < |events| && events[i].Ready? ==> events[i].reg.dropEndpoint.Some?
  }

  lemma {:induction false} RunFleet(cfg: Config, states: seq<State>, events: seq<Event>, i: nat)
    requires Run(cfg, states, events) && i < |states| && FleetEvents(events)
    ensures Fleet(states[i].workers)
  {
    if i > 0 {
      RunFleet(cfg, states, events, i - 1);
      StepKeepsFleet(cfg, states[i - 1], events[i - 1], states[i]);
    }
  }

  /** In a fleet where every worker registers a drop endpoint, live entries never share one,
      a Magister drop never names an instance that is still live, and a registration, which
      may silently supersede an entry, issues no drop at all. */
  lemma ReconnectNeverDestroysLiveInstance(cfg: Config, states: seq<State>, events: seq<Event>, i: nat)
    requires Run(cfg, states, events) && i < |events| && FleetEvents(events)
    ensures DistinctEndpoints(states[i].workers)
    ensures DropsAreDead(states[i], states[i + 1])
    ensures events[i].Ready? ==> states[i + 1].drops == states[i].drops
  {
    RunFleet(cfg, states, events, i);
    StepDropsTheDead(cfg, states[i], events[i], states[i + 1]);
  }

  // ---------- entries and their registrations ----------

  predicate IsFrom(w: WorkerState, reg: Registration) {
    && w.name == reg.name && w.capabilities == reg.capabilities && w.dropEndpoint == reg.dropEndpoint
    && w.nonce == reg.nonce && w.channel == reg.channel
  }

  /** The `j`-th event is the last registration from address `a` before state `i`. */
  predicate LastReady(events: seq<Event>, j: nat, i: nat, a: Addr) {
    && j < i <= |events| && events[j].Ready? && events[j].addr == a
    && forall m :: j < m < i ==> !(events[m].Ready? && events[m].addr == a)
  }

  /** Every live entry is what the last registration from its address said: name, capabilities,
      endpoint, process and channel. */
  lemma {:induction false} EntryIsAsRegistered(cfg: Config, states: seq<State>, events: seq<Event>, i: nat, a: Addr)
    returns (j: nat)
    requires Run(cfg, states, events) && i < |states| && a in states[i].workers
    ensures LastReady(events, j, i, a) && IsFrom(states[i].workers[a], events[j].reg)
  {
    assert i > 0;
    var s, e, s' := states[i - 1], events[i - 1], states[i];
    if e.Ready? && e.addr == a {
      j := i - 1;
      ReadyIdentity(s, e.addr, e.reg, s', a);
    } else {
      if e.Ready? {
        ReadyIdentity(s, e.addr, e.reg, s', a);
      } else {
        StepKeepsEndpoints(cfg, s, e, s');
      }
      j := EntryIsAsRegistered(cfg, states, events, i - 1, a);
    }
  }

  lemma ReadyIdentity(s: State, addr: Addr, reg: Registration, s': State, a: Addr)
    requires WorkerReady(s, addr, reg, s') && a in s'.workers
    ensures if a == addr then IsFrom(s'.workers[a], reg) else a in s.workers && SameIdentity(s.workers[a], s'.workers[a])
  {
    var stale :| StaleChoice(s, addr, reg, stale) && Drained(Enlisted(s, addr, reg, stale), s');
    DrainEvolves(Enlisted(s, addr, reg, stale), s');
  }

  // ---------- fleets with and without endpoints ----------

  /** The registration has two candidates to supersede: its own earlier entry, by endpoint,
      and a different worker of the same name that has no endpoint. */
  predicate Hazard(s: State, addr: Addr, reg: Registration) {
    exists k, j ::
      && k in s.workers && j in s.workers && k != addr && j != addr
      && reg.dropEndpoint.Some? && s.workers[k].dropEndpoint == reg.dropEndpoint
      && s.workers[j].dropEndpoint.None? && s.workers[j].name == reg.name
  }

  /** In a mixed fleet the guarantee holds for exactly the registrations without that
      ambiguity: then, and only then, does every iteration order keep endpoints distinct. */
  lemma RegistrationIsSafeIff(s: State, addr: Addr, reg: Registration)
    requires DistinctEndpoints(s.workers)
    ensures (forall stale :: StaleChoice(s, addr, reg, stale) ==> DistinctEndpoints(Enlisted(s, addr, reg, stale).workers))
       <==> !Hazard(s, addr, reg)
  {
    if Hazard(s, addr, reg) {
      var k, j :|
        && k in s.workers && j in s.workers && k != addr && j != addr
        && reg.dropEndpoint.Some? && s.workers[k].dropEndpoint == reg.dropEndpoint
        && s.workers[j].dropEndpoint.None? && s.workers[j].name == reg.name;
      assert StaleChoice(s, addr, reg, StaleAt(j));
      var ws := Enlisted(s, addr, reg, StaleAt(j)).workers;
      assert ws[k].dropEndpoint == ws[addr].dropEndpoint && k != addr;
      assert !DistinctEndpoints(ws);
    } else {
      forall stale | StaleChoice(s, addr, reg, stale)
        ensures DistinctEndpoints(Enlisted(s, addr, reg, stale).workers)
      {
      }
    }
  }

  /** No registration of the run met the hazard. */
  ghost predicate Unambiguous(states: seq<State>, events: seq<Event>)
    requires |states| == |events| + 1
  {
    forall i :: 0 <= i < |events| && events[i].Ready? ==> !Hazard(states[i], events[i].addr, events[i].reg)
  }

  lemma StepKeepsDistinct(cfg: Config, s: State, e: Event, s': State)
    requires DistinctEndpoints(s.workers) && Step(cfg, s, e, s') && (e.Ready? ==> !Hazard(s, e.addr, e.reg))
    ensures DistinctEndpoints(s'.workers)
  {
    if e.Ready? {
      var stale :| StaleChoice(s, e.addr, e.reg, stale) && Drained(Enlisted(s, e.addr, e.reg, stale), s');
      RegistrationIsSafeIff(s, e.addr, e.reg);
      DrainEvolves(Enlisted(s, e.addr, e.reg, stale), s');
    } else {
      StepKeepsEndpoints(cfg, s, e, s');
    }
  }

  lemma {:induction false} RunDistinct(cfg: Config, states: seq<State>, events: seq<Event>, i: nat)
    requires Run(cfg, states, events) && i < |states| && Unambiguous(states, events)
    ensures DistinctEndpoints(states[i].workers)
  {
    if i > 0 {
      RunDistinct(cfg, states, events, i - 1);
      StepKeepsDistinct(cfg, states[i - 1], events[i - 1], states[i]);
    }
  }

  /** A mixed fleet is safe too, as long as no registration meets the hazard: live entries never
      share an endpoint, and no drop names an instance that is still live. */
  lemma MixedFleetIsSafe(cfg: Config, states: seq<State>, events: seq<Event>, i: nat)
    requires Run(cfg, states, events) && i < |events| && Unambiguous(states, events)
    ensures DistinctEndpoints(states[i].workers) && DistinctEndpoints(states[i + 1].workers)
    ensures DropsAreDead(states[i], states[i + 1])
    ensures events[i].Ready? ==> states[i + 1].drops == states[i].drops
  {
    RunDistinct(cfg, states, events, i);
    RunDistinct(cfg, states, events, i + 1);
    StepDropsTheDead(cfg, states[i], events[i], states[i + 1]);
  }

  // ---------- carry-over ----------

  /** A reconnect of a busy process from a new address keeps its assignment whole: the same
      request, start time, progress and last update, and one entry only. */
  lemma ReconnectCarriesOver(s: State, addr: Addr, reg: Registration, k: Addr, s': State)
    requires Fleet(s.workers) && WorkerReady(s, addr, reg, s')
    requires k in s.workers && k != addr && s.workers[k].status.Busy?
    requires reg.dropEndpoint == s.workers[k].dropEndpoint && reg.nonce == s.workers[k].nonce
    ensures k !in s'.workers && addr in s'.workers && s'.workers[addr].status == s.workers[k].status
  {
    var stale :| StaleChoice(s, addr, reg, stale) && Drained(Enlisted(s, addr, reg, stale), s');
    assert Supersedes(reg, addr, k, s.workers[k]);
    assert stale == StaleAt(k);
    DrainEvolves(Enlisted(s, addr, reg, stale), s');
  }
}
