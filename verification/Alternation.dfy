/** One process, one proof at a time: exactly when a contemplant process is sent a new request
    only after the previous one completed, failed or lost its worker to eviction. */
module Alternation {
  import opened Network
  import opened Worker
  import opened RegistryModel
  import opened Ledger
  import opened RegistryInvariant
  import opened RegistryFrames
  import opened RegistryTheorems
  import opened Reconnect
  import opened Duplicates
  import opened BoundedWaiting
  import opened SerialWork
  import opened Sending

  /** The request completed, failed, or its worker was evicted. */
  ghost predicate Concluded(s: State, id: Id) {
    IsAt(s, id, Finished) || IsAt(s, id, Ended(Failed)) || IsAt(s, id, Ended(Evicted))
  }

  /** A registration took the entry away that was working on the request. */
  ghost predicate CutShort(s: State, id: Id) {
    exists end :: IsCut(end) && IsAt(s, id, Ended(end))
  }

  /** Of any two requests sent to one process, the earlier is concluded. */
  ghost predicate Alternates(s: State) {
    forall i, j :: 0 <= i < j < |s.sends| && s.sends[i].worker.nonce == s.sends[j].worker.nonce ==>
      Concluded(s, s.sends[i].req.id)
  }

  /** The registration `e` arrives at the address of process `nonce`, busy with `id`, or under
      its endpoint but from another process. */
  predicate Interrupts(s: State, e: Event, nonce: nat, id: Id) {
    && e.Ready?
    && exists a :: a in s.workers && s.workers[a].nonce == nonce && s.workers[a].BusyWith(id)
                   && (a == e.addr || (Supersedes(e.reg, e.addr, a, s.workers[a]) && nonce != e.reg.nonce))
  }

  lemma OverMeans(s: State, id: Id)
    requires Over(s, id)
    ensures Concluded(s, id) || CutShort(s, id)
  {
    if i :| 0 <= i < |s.fates| && s.fates[i].id == id && EndsWork(s.fates[i].end) {
      assert IsAt(s, id, Ended(s.fates[i].end));
    } else {
      assert IsAt(s, id, Finished);
    }
  }

  // ---------- where cuts come from ----------

  lemma HonestCuts(s: State, s': State, id: Id)
    requires HonestFates(s, s', false)
    ensures CutShort(s', id) <==> CutShort(s, id)
  {
    if end :| IsCut(end) && IsAt(s', id, Ended(end)) {
      var i :| 0 <= i < |s'.fates| && s'.fates[i] == Fate(id, end);
      assert s.fates[i] == Fate(id, end);
      assert IsAt(s, id, Ended(end));
    }
    if end :| IsCut(end) && IsAt(s, id, Ended(end)) {
      var i :| 0 <= i < |s.fates| && s.fates[i] == Fate(id, end);
      assert s'.fates[i] == Fate(id, end);
      assert IsAt(s', id, Ended(end));
    }
  }

  lemma EnlistCuts(s: State, addr: Addr, reg: Registration, stale: StaleEntry, id: Id)
    requires Fleet(s.workers) && reg.dropEndpoint.Some? && StaleChoice(s, addr, reg, stale)
    ensures CutShort(Enlisted(s, addr, reg, stale), id) <==>
              CutShort(s, id) || exists n :: Interrupts(s, Ready(addr, reg), n, id)
  {
    var s' := Enlisted(s, addr, reg, stale);
    var superseded := if stale.StaleAt? && s.workers[stale.addr].nonce != reg.nonce
                      then OrphanFates(s.workers[stale.addr], Superseded) else [];
    var overwritten := if addr in s.workers then OrphanFates(s.workers[addr], Overwritten) else [];
    assert s'.fates == s.fates + superseded + overwritten;
    forall end ensures Fate(id, end) in s'.fates
                  <==> Fate(id, end) in s.fates || Fate(id, end) in superseded || Fate(id, end) in overwritten {
    }
    if end :| IsCut(end) && IsAt(s', id, Ended(end)) && !CutShort(s, id) {
      var a := if Fate(id, end) in overwritten then addr else stale.addr;
      assert a in s.workers && s.workers[a].BusyWith(id);
      assert Interrupts(s, Ready(addr, reg), s.workers[a].nonce, id);
    }
    if n :| Interrupts(s, Ready(addr, reg), n, id) {
      InterruptIsCut(s, addr, reg, stale, n, id);
    }
    if end :| IsCut(end) && IsAt(s, id, Ended(end)) {
      assert IsAt(s', id, Ended(end));
    }
  }

  lemma InterruptIsCut(s: State, addr: Addr, reg: Registration, stale: StaleEntry, n: nat, id: Id)
    requires Fleet(s.workers) && reg.dropEndpoint.Some? && StaleChoice(s, addr, reg, stale)
    requires Interrupts(s, Ready(addr, reg), n, id)
    ensures CutShort(Enlisted(s, addr, reg, stale), id)
  {
    var s' := Enlisted(s, addr, reg, stale);
    var a :| a in s.workers && s.workers[a].nonce == n && s.workers[a].BusyWith(id)
             && (a == addr || (Supersedes(reg, addr, a, s.workers[a]) && n != reg.nonce));
    if a == addr {
      assert s'.fates[|s'.fates| - 1] == Fate(id, Overwritten);
      assert IsAt(s', id, Ended(Overwritten));
    } else {
      assert stale == StaleAt(a);
      assert s'.fates[|s.fates|] == Fate(id, Superseded);
      assert IsAt(s', id, Ended(Superseded));
    }
  }

  /** One step cuts a request short exactly when it is an interrupting registration. */
  lemma StepCuts(cfg: Config, s: State, e: Event, s': State, id: Id)
    requires Inv(s) && Fleet(s.workers) && Step(cfg, s, e, s') && (e.Ready? ==> e.reg.dropEndpoint.Some?)
    ensures CutShort(s', id) <==> CutShort(s, id) || exists n :: Interrupts(s, e, n, id)
  {
    if e.Ready? {
      var stale :| StaleChoice(s, e.addr, e.reg, stale) && Drained(Enlisted(s, e.addr, e.reg, stale), s');
      EnlistCuts(s, e.addr, e.reg, stale, id);
      EnlistConserves(s, e.addr, e.reg, stale);
      DrainIsHonest(Enlisted(s, e.addr, e.reg, stale), s');
      HonestCuts(Enlisted(s, e.addr, e.reg, stale), s', id);
    } else {
      StepIsHonest(cfg, s, e, s');
      HonestCuts(s, s', id);
    }
  }

  // ---------- sends and what they start ----------

  ghost predicate SentFrom(s: State, from: nat, nonce: nat, id: Id) {
    exists j :: from <= j < |s.sends| && s.sends[j].worker.nonce == nonce && s.sends[j].req.id == id
  }

  // What was sent in a step is being worked on after it.
  lemma NewSendWorks(cfg: Config, s: State, e: Event, s': State, j: nat)
    requires Step(cfg, s, e, s') && |s.sends| <= j < |s'.sends|
    ensures WorkingOn(s'.workers, s'.sends[j].worker.nonce, s'.sends[j].req.id)
  {
    StepStarts(cfg, s, e, s');
    var x := s'.sends[j];
    assert Landed(s', x);
    assert s'.workers[x.addr].nonce == x.worker.nonce && s'.workers[x.addr].BusyWith(x.req.id);
  }

  lemma WorkCameFrom(cfg: Config, s: State, e: Event, s': State, n: nat, id: Id)
    requires Step(cfg, s, e, s') && WorkingOn(s'.workers, n, id)
    ensures s.sends <= s'.sends && (WorkingOn(s.workers, n, id) || SentFrom(s', |s.sends|, n, id))
  {
    StepStarts(cfg, s, e, s');
    var a :| a in s'.workers && s'.workers[a].nonce == n && s'.workers[a].BusyWith(id);
    if SentNew(s, s', a) {
      var j :| |s.sends| <= j < |s'.sends| && s'.sends[j].addr == a;
      assert Landed(s', s'.sends[j]);
    } else {
      assert GoesOn(s.workers, s'.workers[a], a, Anew(e));
      var b :| b in s.workers && SameWork(s.workers[b], s'.workers[a]);
      assert s.workers[b].BusyWith(id);
    }
  }

  /** Whoever works on a request was sent it. */
  lemma {:induction false} WorkWasSent(cfg: Config, states: seq<State>, events: seq<Event>, i: nat, n: nat, id: Id)
    requires Run(cfg, states, events) && i < |states| && WorkingOn(states[i].workers, n, id)
    ensures SentFrom(states[i], 0, n, id)
  {
    assert i > 0;
    var s, s' := states[i - 1], states[i];
    WorkCameFrom(cfg, s, events[i - 1], s', n, id);
    if !SentFrom(s', |s.sends|, n, id) {
      WorkWasSent(cfg, states, events, i - 1, n, id);
      var j :| 0 <= j < |s.sends| && s.sends[j].worker.nonce == n && s.sends[j].req.id == id;
      assert s'.sends[j] == s.sends[j];
    }
  }

  // ---------- over whole runs ----------

  // With fresh ids a request is in one place, so these exclude each other.
  lemma OneFate(cfg: Config, states: seq<State>, events: seq<Event>, i: nat, id: Id)
    requires Run(cfg, states, events) && i < |states| && FreshIds(events)
    ensures !(CutShort(states[i], id) && Concluded(states[i], id))
    ensures Served(states[i].workers, id) ==> !CutShort(states[i], id) && !Over(states[i], id)
  {
    ExactlyOnePlace(cfg, states, events, i, id);
    if Served(states[i].workers, id) {
      assert IsAt(states[i], id, Running);
      if Over(states[i], id) {
        OverMeans(states[i], id);
      }
    }
  }

  lemma FleetAt(cfg: Config, states: seq<State>, events: seq<Event>, i: nat, owner: nat -> string)
    requires Run(cfg, states, events) && i < |states| && OwnEndpoints(events, owner)
    ensures Inv(states[i]) && Fleet(states[i].workers)
  {
    RunInv(cfg, states, events, i);
    RunFleet(cfg, states, events, i);
  }

  /** A request is cut short in a run exactly when some registration interrupted it. */
  lemma {:induction false} CutShortIff(
      cfg: Config, states: seq<State>, events: seq<Event>, i: nat, id: Id, owner: nat -> string)
    requires Run(cfg, states, events) && i < |states| && OwnEndpoints(events, owner)
    ensures CutShort(states[i], id) <==> exists t, n :: 0 <= t < i && Interrupts(states[t], events[t], n, id)
  {
    if i > 0 {
      var j := i - 1;
      CutShortIff(cfg, states, events, j, id, owner);
      FleetAt(cfg, states, events, j, owner);
      StepCuts(cfg, states[j], events[j], states[j + 1], id);
    }
  }

  // The step in which a send was made.
  lemma {:induction false} SentInStep(cfg: Config, states: seq<State>, events: seq<Event>, i: nat, a: nat) returns (u: nat)
    requires Run(cfg, states, events) && i < |states| && a < |states[i].sends|
    ensures u < i && |states[u].sends| <= a < |states[u + 1].sends|
  {
    assert i > 0;
    u := i - 1;
    if a < |states[i - 1].sends| {
      u := SentInStep(cfg, states, events, i - 1, a);
    }
  }

  // What is sent in a step is not cut short by then.
  lemma SentIsNotCut(cfg: Config, states: seq<State>, events: seq<Event>, u: nat, a: nat)
    requires Run(cfg, states, events) && u < |events| && FreshIds(events)
    requires |states[u].sends| <= a < |states[u + 1].sends|
    ensures !CutShort(states[u + 1], states[u + 1].sends[a].req.id)
  {
    var x := states[u + 1].sends[a];
    NewSendWorks(cfg, states[u], events[u], states[u + 1], a);
    OneFate(cfg, states, events, u + 1, x.req.id);
  }

  // An interrupted request had been sent before the interruption.
  lemma SentBeforeCut(cfg: Config, states: seq<State>, events: seq<Event>, i: nat, t: nat, n: nat, a: nat, owner: nat -> string)
    requires Run(cfg, states, events) && t < i < |states| && FreshIds(events) && OwnEndpoints(events, owner)
    requires a < |states[i].sends| && Interrupts(states[t], events[t], n, states[i].sends[a].req.id)
    ensures a < |states[t].sends| && states[t].sends[a] == states[i].sends[a]
  {
    var u := SentInStep(cfg, states, events, i, a);
    SameSend(cfg, states, events, u + 1, i, a);
    SentIsNotCut(cfg, states, events, u, a);
    UncutIsEarlier(cfg, states, events, u + 1, t, n, states[i].sends[a].req.id, owner);
    SameSend(cfg, states, events, u + 1, t, a);
  }

  lemma SameSend(cfg: Config, states: seq<State>, events: seq<Event>, i: nat, j: nat, a: nat)
    requires Run(cfg, states, events) && i <= j < |states| && a < |states[i].sends|
    ensures a < |states[j].sends| && states[j].sends[a] == states[i].sends[a]
  {
    SendsGrow(cfg, states, events, i, j);
  }

  lemma UncutIsEarlier(cfg: Config, states: seq<State>, events: seq<Event>, k: nat, t: nat, n: nat, id: Id, owner: nat -> string)
    requires Run(cfg, states, events) && k < |states| && t < |events| && OwnEndpoints(events, owner)
    requires Interrupts(states[t], events[t], n, id) && !CutShort(states[k], id)
    ensures k <= t
  {
    CutShortIff(cfg, states, events, k, id, owner);
  }

  /** Process `n` was interrupted in the `t`-th step while busy with `id`, and sent another
      request in that step or later. */
  ghost predicate SentAgain(states: seq<State>, events: seq<Event>, i: nat, t: nat, n: nat, id: Id) {
    && t < i < |states| && t < |events| && Interrupts(states[t], events[t], n, id)
    && exists b :: |states[t].sends| <= b < |states[i].sends| && states[i].sends[b].worker.nonce == n
  }

  // Two requests sent to one process, the earlier not concluded: it was interrupted in between.
  lemma UnconcludedWasInterrupted(cfg: Config, states: seq<State>, events: seq<Event>, i: nat, a: nat, b: nat, owner: nat -> string)
    returns (t: nat)
    requires Run(cfg, states, events) && i < |states| && FreshIds(events) && OwnEndpoints(events, owner)
    requires a < b < |states[i].sends| && states[i].sends[a].worker.nonce == states[i].sends[b].worker.nonce
    requires !Concluded(states[i], states[i].sends[a].req.id)
    ensures SentAgain(states, events, i, t, states[i].sends[a].worker.nonce, states[i].sends[a].req.id)
  {
    var x := states[i].sends[a];
    var id, n := x.req.id, x.worker.nonce;
    RunSerial(cfg, states, events, i, owner);
    OverMeans(states[i], id);
    CutShortIff(cfg, states, events, i, id, owner);
    var t', n' :| 0 <= t' < i && Interrupts(states[t'], events[t'], n', id);
    t := t';
    SentBeforeCut(cfg, states, events, i, t, n', a, owner);
    OneFate(cfg, states, events, t, id);
    RunSerial(cfg, states, events, t, owner);
    RunInv(cfg, states, events, t);
    assert WorkingOn(states[t].workers, n, id);
    SendsGrow(cfg, states, events, t, i);
    assert b >= |states[t].sends|;
  }

  /** Exactly when a process is served strictly one request after the other.  With fresh ids and
      every process under its own endpoint: the earlier of any two requests sent to a process
      completed, failed or was evicted, if and only if no process that was interrupted by a
      registration was sent anything from then on. */
  lemma AlternatesIff(cfg: Config, states: seq<State>, events: seq<Event>, i: nat, owner: nat -> string)
    requires Run(cfg, states, events) && i < |states| && FreshIds(events) && OwnEndpoints(events, owner)
    ensures Alternates(states[i]) <==> forall t: nat, n: nat, id: Id :: !SentAgain(states, events, i, t, n, id)
  {
    if a: nat, b: nat :| a < b < |states[i].sends| && states[i].sends[a].worker.nonce == states[i].sends[b].worker.nonce
                         && !Concluded(states[i], states[i].sends[a].req.id) {
      var t := UnconcludedWasInterrupted(cfg, states, events, i, a, b, owner);
    }
    forall t: nat, n: nat, id: Id | SentAgain(states, events, i, t, n, id) ensures !Alternates(states[i]) {
      InterruptedAndSentAgain(cfg, states, events, i, t, n, id, owner);
    }
  }

  lemma InterruptedAndSentAgain(
      cfg: Config, states: seq<State>, events: seq<Event>, i: nat, t: nat, n: nat, id: Id, owner: nat -> string)
    requires Run(cfg, states, events) && FreshIds(events) && OwnEndpoints(events, owner)
    requires SentAgain(states, events, i, t, n, id)
    ensures !Alternates(states[i])
  {
    assert WorkingOn(states[t].workers, n, id);
    WorkWasSent(cfg, states, events, t, n, id);
    var a :| 0 <= a < |states[t].sends| && states[t].sends[a].worker.nonce == n && states[t].sends[a].req.id == id;
    SendsGrow(cfg, states, events, t, i);
    assert states[i].sends[a] == states[t].sends[a];
    CutShortIff(cfg, states, events, i, id, owner);
    OneFate(cfg, states, events, i, id);
  }

  /** One proof per process: when no registration arrives at a busy worker's address or replaces
      a busy process by another, every earlier request sent to a process completed, failed or
      was evicted before the next was sent, across any reconnects. */
  lemma OneProofPerProcess(cfg: Config, states: seq<State>, events: seq<Event>, i: nat, owner: nat -> string)
    requires Run(cfg, states, events) && i < |states| && FreshIds(events) && OwnEndpoints(events, owner)
    requires forall t, n, id :: 0 <= t < i ==> !Interrupts(states[t], events[t], n, id)
    ensures Alternates(states[i])
  {
    AlternatesIff(cfg, states, events, i, owner);
  }

  // ---------- a run that breaks it ----------

  const Earlier := Sp1Request(1, Core, [])
  const Later := Sp1Request(2, Core, [])
  const Process := Registration("w", Capabilities([Sp1], false, false), Some("http://magister"), 1, 0)
  const Fresh := Enrolled(Process, Idle, 0)

  function Registered(): State {
    Initial(0, 0).(workers := map["addr" := Fresh])
  }

  function FirstSent(): State {
    Registered().(workers := map["addr" := Fresh.Assigned(Earlier, 0, 0)], submitted := [1],
                  sends := [Send("addr", Fresh, Earlier, [])])
  }

  function Again(): State {
    FirstSent().(workers := map["addr" := Fresh], fates := [Fate(1, Overwritten)])
  }

  function BothSent(): State {
    Again().(workers := map["addr" := Fresh.Assigned(Later, 0, 0)], submitted := [1, 2],
             sends := [Send("addr", Fresh, Earlier, []), Send("addr", Fresh, Later, [])])
  }

  lemma Registers(cfg: Config)
    ensures Step(cfg, Initial(0, 0), Ready("addr", Process), Registered())
  {
    var s := Initial(0, 0);
    assert StaleChoice(s, "addr", Process, NoStale);
    assert Enlisted(s, "addr", Process, NoStale) == Registered() by {
      assert s.fates + [] == s.fates;
    }
    NothingToDrain(Registered());
  }

  lemma RegistersAgain(cfg: Config)
    ensures Step(cfg, FirstSent(), Ready("addr", Process), Again())
  {
    var s := FirstSent();
    assert StaleChoice(s, "addr", Process, NoStale);
    assert Enlisted(s, "addr", Process, NoStale) == Again();
    NothingToDrain(Again());
  }

  const Story := [Ready("addr", Process), Assign(Earlier), Ready("addr", Process), Assign(Later)]

  lemma StoryBegins(cfg: Config)
    requires cfg.maxStrikes > 0 && cfg.heartbeatInterval > 0
    ensures Step(cfg, Initial(0, 0), Ready("addr", Process), Registered())
    ensures Step(cfg, Registered(), Assign(Earlier), FirstSent())
  {
    Registers(cfg);
    LoneWorkerTakes(cfg, Registered(), "addr", Fresh, Earlier, FirstSent());
  }

  lemma StoryGoesOn(cfg: Config)
    requires cfg.maxStrikes > 0 && cfg.heartbeatInterval > 0
    ensures Step(cfg, FirstSent(), Ready("addr", Process), Again())
    ensures Step(cfg, Again(), Assign(Later), BothSent())
  {
    RegistersAgain(cfg);
    LoneWorkerTakes(cfg, Again(), "addr", Fresh, Later, BothSent());
  }

  function StoryStates(): seq<State> {
    [Initial(0, 0), Registered(), FirstSent(), Again(), BothSent()]
  }

  lemma StoryRuns(cfg: Config)
    requires cfg.maxStrikes > 0 && cfg.heartbeatInterval > 0
    ensures Run(cfg, StoryStates(), Story)
  {
    StoryBegins(cfg);
    StoryGoesOn(cfg);
    FourSteps(cfg, Initial(0, 0), Ready("addr", Process), Registered(), Assign(Earlier), FirstSent(),
              Ready("addr", Process), Again(), Assign(Later), BothSent());
  }

  lemma StoryIsOrderly()
    ensures FreshIds(Story) && OwnEndpoints(Story, _ => "http://magister")
  {
  }

  /** A process that registers a second time from its own address while it works is taken for
      idle and sent a second request: nothing completed, failed or was evicted. */
  lemma TwoProofsAtOnce(cfg: Config)
    requires cfg.maxStrikes > 0 && cfg.heartbeatInterval > 0
    ensures Run(cfg, StoryStates(), Story)
    ensures FreshIds(Story) && OwnEndpoints(Story, _ => "http://magister")
    ensures var s := StoryStates()[4];
            s.history == [] && s.dead == [] && s.fates == [Fate(1, Overwritten)] && !Alternates(s)
  {
    StoryRuns(cfg);
    StoryIsOrderly();
    NotConcluded();
  }

  lemma FourSteps(cfg: Config, s0: State, e1: Event, s1: State, e2: Event, s2: State, e3: Event, s3: State, e4: Event, s4: State)
    requires s0 == Initial(s0.now, s0.wall) && Step(cfg, s0, e1, s1) && Step(cfg, s1, e2, s2)
    requires Step(cfg, s2, e3, s3) && Step(cfg, s3, e4, s4)
    ensures Run(cfg, [s0, s1, s2, s3, s4], [e1, e2, e3, e4])
  {
  }

  lemma NotConcluded()
    ensures !Alternates(BothSent())
  {
    var s := BothSent();
    assert s.sends[0].worker.nonce == s.sends[1].worker.nonce && s.sends[0].req.id == 1;
    assert !Concluded(s, 1);
  }
}
