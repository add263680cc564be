/** What the registry's decisions about a request come to, on the fields of requests and workers:
    who may be sent what, what becomes of an assignment, and what the records say later. */
module Dispatch {
  import opened Network
  import opened Worker
  import opened RegistryModel
  import opened Ledger
  import opened RegistryInvariant
  import opened RegistryFrames
  import opened RegistryTheorems
  import opened Reconnect
  import opened BoundedWaiting
  import opened Sending
  import opened Alternation

  /** What a worker needs for a request: its virtual machine, and for a wrapped RISC Zero proof
      or an OpenVM proof for the EVM the support for that. */
  predicate Able(c: Capabilities, r: Request) {
    match r
    case Sp1Request(_, _, _) => Sp1 in c.vms
    case Risc0Request(_, mode, wrapOf, _) => Risc0 in c.vms && (mode == Groth16 || wrapOf.Some? ==> c.risc0Groth16)
    case OpenVmRequest(_, mode, _) => OpenVm in c.vms && (mode == Evm ==> c.openVmEvm)
  }

  lemma ServesIffAble(w: WorkerState, r: Request)
    ensures w.CanServe(r) <==> Able(w.capabilities, r)
  {
  }

  // ---------- who is sent what ----------

  /** Every request ever sent went to an idle worker whose last registration, from that address,
      had what the request needs, and past no older queued request that worker was able to serve. */
  lemma SentToAbleWorkers(cfg: Config, states: seq<State>, events: seq<Event>, i: nat, n: nat) returns (u: nat, j: nat)
    requires Run(cfg, states, events) && i < |states| && n < |states[i].sends|
    ensures var x := states[i].sends[n];
            && x.worker.status.Idle? && Able(x.worker.capabilities, x.req)
            && (forall p :: p in x.ahead ==> !Able(x.worker.capabilities, p.req))
            && u < i && |states[u].sends| <= n < |states[u + 1].sends|
            && LastReady(events, j, u + 1, x.addr) && IsFrom(x.worker, events[j].reg)
  {
    SentFairly(cfg, states, events, i, n);
    u := SentInStep(cfg, states, events, i, n);
    SameSend(cfg, states, events, u + 1, i, n);
    j := SentToRegistered(cfg, states, events, u, n);
  }

  lemma SentFairly(cfg: Config, states: seq<State>, events: seq<Event>, i: nat, n: nat)
    requires Run(cfg, states, events) && i < |states| && n < |states[i].sends|
    ensures var x := states[i].sends[n];
            && x.worker.status.Idle? && Able(x.worker.capabilities, x.req)
            && forall p :: p in x.ahead ==> !Able(x.worker.capabilities, p.req)
  {
    var x := states[i].sends[n];
    RunInv(cfg, states, events, i);
    assert FairSend(x);
    ServesIffAble(x.worker, x.req);
    forall p | p in x.ahead ensures !Able(x.worker.capabilities, p.req) {
      ServesIffAble(x.worker, p.req);
    }
  }

  lemma SentToRegistered(cfg: Config, states: seq<State>, events: seq<Event>, u: nat, n: nat) returns (j: nat)
    requires Run(cfg, states, events) && u < |events| && |states[u].sends| <= n < |states[u + 1].sends|
    ensures LastReady(events, j, u + 1, states[u + 1].sends[n].addr)
    ensures IsFrom(states[u + 1].sends[n].worker, events[j].reg)
  {
    StepStarts(cfg, states[u], events[u], states[u + 1]);
    assert Landed(states[u + 1], states[u + 1].sends[n]);
    j := EntryIsAsRegistered(cfg, states, events, u + 1, states[u + 1].sends[n].addr);
  }

  /** In no state of any run does a queued request stand beside an idle connected worker that has
      what it needs; at most 64 wait, in order of arrival. */
  lemma WaitingMeansNobodyAble(cfg: Config, states: seq<State>, events: seq<Event>, i: nat, k: nat, a: Addr)
    requires Run(cfg, states, events) && i < |states| && k < |states[i].pending| && a in states[i].workers
    requires states[i].workers[a].status.Idle? && states[i].workers[a].channel !in states[i].closed
    ensures !Able(states[i].workers[a].capabilities, states[i].pending[k].req)
    ensures |states[i].pending| <= 64
    ensures forall m :: k < m < |states[i].pending| ==> states[i].pending[k].queuedAt <= states[i].pending[m].queuedAt
  {
    RunInv(cfg, states, events, i);
    assert !Available(states[i], a, states[i].pending[k].req);
    ServesIffAble(states[i].workers[a], states[i].pending[k].req);
  }

  // ---------- what becomes of an assignment ----------

  predicate Free(s: State, a: Addr, r: Request) {
    a in s.workers && s.workers[a].status.Idle? && Able(s.workers[a].capabilities, r)
  }

  predicate Reachable(s: State, a: Addr, r: Request) {
    Free(s, a, r) && s.workers[a].channel !in s.closed
  }

  predicate Held(s: State, id: Id) {
    exists a :: a in s.workers && s.workers[a].status.Busy? && s.workers[a].status.id == id
  }

  predicate Queued(s: State, id: Id) {
    exists i :: 0 <= i < |s.pending| && s.pending[i].req.id == id
  }

  // One strike more, and nothing else.
  predicate OneStrikeMore(w: WorkerState, w': WorkerState) {
    w' == w.(strikes := w.strikes + 1)
  }

  /** Nobody could be reached: everybody free was tried and has one strike more. */
  ghost predicate AllTriedInVain(s: State, r: Request, s': State) {
    && s'.workers.Keys == s.workers.Keys
    && forall a :: a in s.workers ==>
         if Free(s, a, r) then OneStrikeMore(s.workers[a], s'.workers[a]) else s'.workers[a] == s.workers[a]
  }

  /** It was sent to `a`: everybody else is as before or was tried in vain, and `a` last ran the
      request's virtual machine, or everybody free that did was tried in vain. */
  ghost predicate SentToOne(s: State, r: Request, s': State, a: Addr) {
    && Reachable(s, a, r) && s'.workers.Keys == s.workers.Keys
    && s'.sends == s.sends + [Send(a, s.workers[a], r, s.pending)]
    && (forall b :: b in s.workers && b != a ==>
          || s'.workers[b] == s.workers[b]
          || (Free(s, b, r) && s.workers[b].channel in s.closed && OneStrikeMore(s.workers[b], s'.workers[b])))
    && (s.workers[a].lastVm == Some(r.Vm())
        || forall b :: Free(s, b, r) && s.workers[b].lastVm == Some(r.Vm()) ==>
             b != a && s.workers[b].channel in s.closed && OneStrikeMore(s.workers[b], s'.workers[b]))
  }

  /** The five endings of an assignment, by what the registry finds after trimming. */
  ghost predicate AssignmentEnds(s: State, r: Request, s': State) {
    if Held(s, r.id) then
      s' == s.(fates := s.fates + [Fate(r.id, Duplicate)])
    else if exists a :: Reachable(s, a, r) then
      (exists a :: SentToOne(s, r, s', a)) && s'.pending == s.pending && s'.fates == s.fates
    else
      && AllTriedInVain(s, r, s') && s'.sends == s.sends
      && if Queued(s, r.id) then s'.pending == s.pending && s'.fates == s.fates + [Fate(r.id, Duplicate)]
         else if |s.pending| >= 64 then s'.pending == s.pending && s'.fates == s.fates + [Fate(r.id, Rejected)]
         else s'.pending == s.pending + [Pending(r, s.now)] && s'.fates == s.fates
  }

  /** Every assignment first evicts the unhealthy and then ends in exactly one of five ways. */
  lemma AssignmentEndsExactly(cfg: Config, s: State, r: Request, s': State)
    requires Step(cfg, s, Assign(r), s')
    ensures exists s1 :: Trimmed(cfg, s.(submitted := s.submitted + [r.id]), s1) && AssignmentEnds(s1, r, s')
  {
    var s1 :| Trimmed(cfg, s.(submitted := s.submitted + [r.id]), s1) && AssignNow(s1, r, s');
    var ws, out :| AssignTried(s1, r, ws, out, s');
    AttemptEnds(s1, r, ws, out, s');
  }

  lemma AttemptEnds(s: State, r: Request, ws: Workers, out: Outcome, s': State)
    requires AssignTried(s, r, ws, out, s')
    ensures AssignmentEnds(s, r, s')
  {
    forall a | a in s.workers ensures Free(s, a, r) <==> Candidate(s.workers, r, a) {
      ServesIffAble(s.workers[a], r);
    }
    HeldIffServed(s, r.id);
    if out.SentTo? {
      AttemptSends(s, r, ws, out, s');
    } else if out.NoWorker? {
      AttemptFails(s, r, ws, out, s');
    }
  }

  lemma HeldIffServed(s: State, id: Id)
    ensures Held(s, id) <==> Served(s.workers, id)
  {
    if Served(s.workers, id) {
      var a :| a in s.workers && s.workers[a].BusyWith(id);
    }
    if a :| a in s.workers && s.workers[a].status.Busy? && s.workers[a].status.id == id {
      assert s.workers[a].BusyWith(id);
    }
  }

  lemma AttemptSends(s: State, r: Request, ws: Workers, out: Outcome, s': State)
    requires AssignTried(s, r, ws, out, s') && out.SentTo? && !Held(s, r.id)
    requires forall a :: a in s.workers ==> (Free(s, a, r) <==> Candidate(s.workers, r, a))
    ensures AssignmentEnds(s, r, s')
  {
    assert s.pending[..|s.pending|] == s.pending;
    assert Reachable(s, out.addr, r);
    assert SentToOne(s, r, s', out.addr);
  }

  lemma AttemptFails(s: State, r: Request, ws: Workers, out: Outcome, s': State)
    requires AssignTried(s, r, ws, out, s') && out.NoWorker? && !Held(s, r.id)
    requires forall a :: a in s.workers ==> (Free(s, a, r) <==> Candidate(s.workers, r, a))
    ensures AssignmentEnds(s, r, s')
  {
    SettledFrame(s, r, ws, out);
    assert AllTriedInVain(s, r, s');
    assert Queued(s, r.id) <==> InQueue(s.pending, r.id);
  }

  // ---------- what becomes of an entry ----------

  lemma RetryLeavesOpen(c: Cursor, c': Cursor, a: Addr)
    requires Retry(c, c') && a in c.s.workers && c.s.workers[a].channel !in c.s.closed && !SentNew(c.s, c'.s, a)
    ensures a in c'.s.workers && c'.s.workers[a] == c.s.workers[a] && c'.s.closed == c.s.closed
  {
    var ws, out :| RetryWith(c, ws, out, c');
    if out.SentTo? {
      assert c'.s.sends[|c.s.sends|].addr == out.addr;
    }
  }

  lemma RetrySendsGrow(c: Cursor, c': Cursor)
    requires Retry(c, c')
    ensures c.s.sends <= c'.s.sends
  {
  }

  lemma {:induction false} ChainSendsUpTo(tr: seq<Cursor>, i: nat)
    requires RetryChain(tr) && i < |tr|
    ensures tr[0].s.sends <= tr[i].s.sends
  {
    if i > 0 {
      ChainSendsUpTo(tr, i - 1);
      assert Retry(tr[i - 1], tr[i]);
      RetrySendsGrow(tr[i - 1], tr[i]);
    }
  }

  lemma {:induction false} ChainLeavesOpen(tr: seq<Cursor>, i: nat, a: Addr)
    requires RetryChain(tr) && i < |tr| && a in tr[0].s.workers && tr[0].s.workers[a].channel !in tr[0].s.closed
    requires !SentNew(tr[0].s, tr[i].s, a)
    ensures a in tr[i].s.workers && tr[i].s.workers[a] == tr[0].s.workers[a] && tr[i].s.closed == tr[0].s.closed
  {
    if i > 0 {
      ChainSendsUpTo(tr, i - 1);
      assert Retry(tr[i - 1], tr[i]);
      RetrySendsGrow(tr[i - 1], tr[i]);
      NotSentEarlier(tr[0].s, tr[i - 1].s, tr[i].s, a);
      ChainLeavesOpen(tr, i - 1, a);
      RetryLeavesOpen(tr[i - 1], tr[i], a);
    }
  }

  /** Draining the queue leaves every connected worker alone that it sends nothing to. */
  lemma DrainLeavesOpen(s: State, s': State, a: Addr)
    requires Drained(s, s') && a in s.workers && s.workers[a].channel !in s.closed && !SentNew(s, s', a)
    ensures a in s'.workers && s'.workers[a] == s.workers[a]
  {
    var tr: seq<Cursor> :| DrainTrace(s, tr, s');
    ChainLeavesOpen(tr, |tr| - 1, a);
  }

  /** A completion frees a connected worker with a clean record, or it already has new work. */
  lemma CompletionFrees(cfg: Config, s: State, id: Id, s': State, a: Addr)
    requires BusyUnique(s.workers) && Step(cfg, s, Complete(id), s')
    requires a in s.workers && s.workers[a].BusyWith(id) && s.workers[a].channel !in s.closed
    ensures SentNew(s, s', a) || (a in s'.workers && s'.workers[a] == s.workers[a].(status := Idle, strikes := 0))
  {
    var b :| b in s.workers && s.workers[b].BusyWith(id) && Drained(Finish(s, id, b), s');
    assert b == a;
    if !SentNew(s, s', a) {
      DrainLeavesOpen(Finish(s, id, a), s', a);
    }
  }

  /** A reported failure frees it with the strikes it had. */
  lemma FailureFrees(cfg: Config, s: State, id: Id, st: Status, s': State, a: Addr)
    requires BusyUnique(s.workers) && Step(cfg, s, Respond(id, Some(st)), s') && st.execution == 3
    requires a in s.workers && s.workers[a].BusyWith(id) && s.workers[a].channel !in s.closed
    ensures SentNew(s, s', a) || (a in s'.workers && s'.workers[a] == s.workers[a].(status := Idle))
  {
    var bridged, s1 :|
      Bridged(cfg, s, id, Some(st), bridged) && FailureHandled(s, id, bridged, s1) && s' == Notified(s1, id, bridged);
    var b :| b in s.workers && s.workers[b].BusyWith(id) && Drained(Abandon(s, id, b), s1);
    assert b == a;
    if !SentNew(s, s', a) {
      assert !SentNew(Abandon(s, id, a), s1, a);
      DrainLeavesOpen(Abandon(s, id, a), s1, a);
    }
  }

  /** A registration makes an entry heard from now; a connected one it is sent nothing at once has
      a clean record, runs hot for nothing, and works on what its process had, if anything. */
  lemma RegistrationStartsClean(cfg: Config, s: State, addr: Addr, reg: Registration, s': State)
    requires Step(cfg, s, Ready(addr, reg), s') && reg.channel !in s.closed
    ensures addr in s'.workers && s'.workers[addr].lastHeartbeat == s.now
    ensures SentNew(s, s', addr) || (s'.workers[addr].strikes == 0 && s'.workers[addr].lastVm == None)
  {
    var stale :| StaleChoice(s, addr, reg, stale) && Drained(Enlisted(s, addr, reg, stale), s');
    var s1 := Enlisted(s, addr, reg, stale);
    DrainKeepsHeartbeats(s1, s', addr);
    if !SentNew(s, s', addr) {
      assert !SentNew(s1, s', addr);
      DrainLeavesOpen(s1, s', addr);
    }
  }

  lemma {:induction false} ChainKeepsHeartbeats(tr: seq<Cursor>, i: nat, a: Addr)
    requires RetryChain(tr) && i < |tr| && a in tr[0].s.workers
    ensures a in tr[i].s.workers && tr[i].s.workers[a].lastHeartbeat == tr[0].s.workers[a].lastHeartbeat
  {
    if i > 0 {
      ChainKeepsHeartbeats(tr, i - 1, a);
      assert Retry(tr[i - 1], tr[i]);
      var ws, out :| RetryWith(tr[i - 1], ws, out, tr[i]);
    }
  }

  lemma DrainKeepsHeartbeats(s: State, s': State, a: Addr)
    requires Drained(s, s') && a in s.workers
    ensures a in s'.workers && s'.workers[a].lastHeartbeat == s.workers[a].lastHeartbeat
  {
    var tr: seq<Cursor> :| DrainTrace(s, tr, s');
    ChainKeepsHeartbeats(tr, |tr| - 1, a);
  }

  /** A heartbeat refreshes the time its sender was heard from, and nothing else. */
  lemma HeartbeatRefreshes(cfg: Config, s: State, addr: Addr, s': State)
    requires Step(cfg, s, Heartbeat(addr), s')
    ensures s' == s.(workers := s'.workers) && s'.workers.Keys == s.workers.Keys
    ensures forall a :: a in s.workers ==>
              s'.workers[a] == if a == addr then s.workers[a].(lastHeartbeat := s.now) else s.workers[a]
  {
  }

  /** A poll that finds the worker of its request hung up strikes it out: the next trim evicts it. */
  lemma HungUpWorkerIsStruckOut(cfg: Config, s: State, id: Id, to: Responder, s': State, a: Addr)
    requires BusyUnique(s.workers) && Step(cfg, s, Poll(id, to), s')
    requires a in s'.workers && s'.workers[a].BusyWith(id) && s'.workers[a].channel in s'.closed
    ensures s'.workers[a].strikes >= cfg.maxStrikes
  {
    var s0 := s.(asked := s.asked + [to]);
    var s1 :| Trimmed(cfg, s0, s1) && StatusLookup(cfg, s1, id, to, s');
    TrimFrame(cfg, s0, s1);
    LookupFrame(cfg, s1, id, to, s');
    assert s1.workers[a].BusyWith(id);
  }

  // ---------- what the entries remember ----------

  /** The virtual machine of the last request sent to `a` from the `from`-th send on. */
  ghost function LastVmSent(sends: seq<Send>, from: nat, a: Addr): Option<VmKind> {
    if |sends| <= from then None
    else
      var x := sends[|sends| - 1];
      if x.addr == a then Some(x.req.Vm()) else LastVmSent(sends[..|sends| - 1], from, a)
  }

  lemma {:induction false} LastVmGrows(sends: seq<Send>, more: seq<Send>, from: nat, a: Addr)
    requires sends <= more && from <= |sends|
    ensures (forall k :: |sends| <= k < |more| ==> more[k].addr != a) ==> LastVmSent(more, from, a) == LastVmSent(sends, from, a)
    decreases |more|
  {
    if |sends| < |more| {
      LastVmGrows(sends, more[..|more| - 1], from, a);
    } else {
      assert more == sends;
    }
  }

  lemma {:induction false} LastVmIsLast(more: seq<Send>, from: nat, a: Addr, vm: VmKind, k: nat)
    requires from <= k < |more| && more[k].addr == a
    requires forall m :: k <= m < |more| && more[m].addr == a ==> more[m].req.Vm() == vm
    ensures LastVmSent(more, from, a) == Some(vm)
    decreases |more|
  {
    if more[|more| - 1].addr != a {
      LastVmIsLast(more[..|more| - 1], from, a, vm, k);
    }
  }

  /** A live entry is hot for exactly the virtual machine of the last request sent to it since it
      registered, and for none before the first. */
  lemma {:induction false} HotForLastSent(cfg: Config, states: seq<State>, events: seq<Event>, i: nat, a: Addr)
    returns (j: nat)
    requires Run(cfg, states, events) && i < |states| && a in states[i].workers
    ensures LastReady(events, j, i, a) && |states[j].sends| <= |states[i].sends|
    ensures states[i].workers[a].lastVm == LastVmSent(states[i].sends, |states[j].sends|, a)
  {
    assert i > 0;
    var s, e, s' := states[i - 1], events[i - 1], states[i];
    if e.Ready? && e.addr == a {
      j := i - 1;
      ReadyMemory(s, e.addr, e.reg, s');
    } else {
      if a !in s.workers {
        NewcomerWasRegistered(cfg, s, e, s', a);
      }
      j := HotForLastSent(cfg, states, events, i - 1, a);
      StepMemory(cfg, s, e, s', a, |states[j].sends|);
    }
  }

  lemma StepMemory(cfg: Config, s: State, e: Event, s': State, a: Addr, from: nat)
    requires Step(cfg, s, e, s') && a in s'.workers && a in s.workers && !(e.Ready? && e.addr == a) && from <= |s.sends|
    requires s.workers[a].lastVm == LastVmSent(s.sends, from, a)
    ensures |s.sends| <= |s'.sends| && s'.workers[a].lastVm == LastVmSent(s'.sends, from, a)
  {
    StepStarts(cfg, s, e, s');
    if SentNew(s, s', a) {
      MemorySent(s, s', a, from);
    } else {
      assert GoesOn(s.workers, s'.workers[a], a, Anew(e));
      LastVmGrows(s.sends, s'.sends, from, a);
    }
  }

  lemma NewcomerWasRegistered(cfg: Config, s: State, e: Event, s': State, a: Addr)
    requires Step(cfg, s, e, s') && a in s'.workers && a !in s.workers
    ensures e.Ready? && e.addr == a
  {
    if e.Ready? {
      ReadyIdentity(s, e.addr, e.reg, s', a);
    } else {
      StepKeepsEndpoints(cfg, s, e, s');
    }
  }

  lemma ReadyMemory(s: State, addr: Addr, reg: Registration, s': State)
    requires WorkerReady(s, addr, reg, s') && addr in s'.workers
    ensures s.sends <= s'.sends && s'.workers[addr].lastVm == LastVmSent(s'.sends, |s.sends|, addr)
  {
    var stale :| StaleChoice(s, addr, reg, stale) && Drained(Enlisted(s, addr, reg, stale), s');
    var s1 := Enlisted(s, addr, reg, stale);
    DrainStarts(s1, s');
    assert s1.workers[addr].lastVm == None && LastVmSent(s1.sends, |s.sends|, addr) == None;
    MemoryDrain(s1, s', addr, |s.sends|);
  }

  lemma MemoryDrain(s: State, s': State, a: Addr, from: nat)
    requires Starts(s, s', {}) && a in s.workers && a in s'.workers && from <= |s.sends|
    requires s.workers[a].lastVm == LastVmSent(s.sends, from, a)
    ensures s'.workers[a].lastVm == LastVmSent(s'.sends, from, a)
  {
    if SentNew(s, s', a) {
      MemorySent(s, s', a, from);
    } else {
      LastVmGrows(s.sends, s'.sends, from, a);
    }
  }

  lemma MemorySent(s: State, s': State, a: Addr, from: nat)
    requires s.sends <= s'.sends && from <= |s.sends| && SentNew(s, s', a)
    requires forall k :: |s.sends| <= k < |s'.sends| ==> Landed(s', s'.sends[k])
    ensures a in s'.workers && s'.workers[a].lastVm == LastVmSent(s'.sends, from, a)
  {
    var k :| |s.sends| <= k < |s'.sends| && s'.sends[k].addr == a;
    assert Landed(s', s'.sends[k]);
    LastVmIsLast(s'.sends, from, a, s'.sends[k].req.Vm(), k);
  }

  // ---------- what the history tells ----------

  /** A busy entry tells what was sent to its process, and when. */
  lemma {:induction false} JobWasSent(cfg: Config, states: seq<State>, events: seq<Event>, i: nat, a: Addr)
    returns (u: nat, n: nat)
    requires Run(cfg, states, events) && i < |states| && a in states[i].workers && states[i].workers[a].status.Busy?
    ensures u < i && |states[u].sends| <= n < |states[u + 1].sends| && n < |states[i].sends|
    ensures var x, w := states[i].sends[n], states[i].workers[a];
            && x.req.id == w.status.id && w.status.vm == x.req.Vm() && w.status.modeName == x.req.ModeName()
            && w.status.start == states[u].now && x.worker.nonce == w.nonce
  {
    assert i > 0;
    var s, e, s' := states[i - 1], events[i - 1], states[i];
    var b := WorkCame(cfg, s, e, s', a);
    if b.Some? {
      u, n := JobWasSent(cfg, states, events, i - 1, b.value);
      assert s'.sends[n] == s.sends[n];
    } else {
      u := i - 1;
      n :| |s.sends| <= n < |s'.sends| && s'.sends[n].addr == a && Landed(s', s'.sends[n]);
      StepKeepsTime(cfg, s, e, s');
      TicksSendNothing(cfg, s, e, s');
    }
  }

  lemma WorkCame(cfg: Config, s: State, e: Event, s': State, a: Addr) returns (b: Option<Addr>)
    requires Step(cfg, s, e, s') && a in s'.workers && s'.workers[a].status.Busy?
    ensures s.sends <= s'.sends
    ensures b.Some? ==> b.value in s.workers && SameWork(s.workers[b.value], s'.workers[a])
    ensures b.None? ==> exists n :: |s.sends| <= n < |s'.sends| && s'.sends[n].addr == a && Landed(s', s'.sends[n])
  {
    StepStarts(cfg, s, e, s');
    if SentNew(s, s', a) {
      var n :| |s.sends| <= n < |s'.sends| && s'.sends[n].addr == a;
      assert Landed(s', s'.sends[n]);
      b := None;
    } else {
      assert GoesOn(s.workers, s'.workers[a], a, Anew(e));
      var c :| c in s.workers && SameWork(s.workers[c], s'.workers[a]);
      b := Some(c);
    }
  }

  lemma TicksSendNothing(cfg: Config, s: State, e: Event, s': State)
    requires Step(cfg, s, e, s') && |s.sends| < |s'.sends|
    ensures !e.Tick?
  {
  }

  lemma {:induction false} TimePasses(cfg: Config, states: seq<State>, events: seq<Event>, i: nat, j: nat)
    requires Run(cfg, states, events) && i <= j < |states|
    ensures states[i].now <= states[j].now
  {
    if i < j {
      TimePasses(cfg, states, events, i, j - 1);
      StepKeepsTime(cfg, states[j - 1], events[j - 1], states[j]);
    }
  }

  // The entry a completion adds to the history.
  lemma CompletionRecorded(cfg: Config, s: State, e: Event, s': State, k: nat) returns (a: Addr)
    requires Step(cfg, s, e, s') && |s.history| <= k < |s'.history|
    ensures s.history <= s'.history && e == Complete(s'.history[k].id)
    ensures var h := s'.history[k];
            && a in s.workers && s.workers[a].BusyWith(h.id) && h.addr == a && h.name == s.workers[a].name
            && h.vm == s.workers[a].status.vm && h.modeName == s.workers[a].status.modeName
            && h.duration == Elapsed(s.workers[a].status.start, s.now)
  {
    HistoryOnlyByCompletion(cfg, s, e, s');
    var id := e.id;
    var b :| b in s.workers && s.workers[b].BusyWith(id) && Drained(Finish(s, id, b), s');
    DrainFrame(Finish(s, id, b), s');
    a := b;
  }

  lemma HistoryOnlyByCompletion(cfg: Config, s: State, e: Event, s': State)
    requires Step(cfg, s, e, s')
    ensures |s.history| < |s'.history| ==> e.Complete? && Served(s.workers, e.id)
    ensures !e.Complete? ==> s'.history == s.history
  {
    match e
    case Assign(r) => AssignFrame(cfg, s, r, s');
    case Ready(addr, reg) => ReadyFrame(s, addr, reg, s');
    case Respond(id, value) => RespondFrame(cfg, s, id, value, s');
    case Poll(id, to) => PollFrame(cfg, s, id, to, s');
    case Strike(id) => PunishFrame(cfg, s, id, s');
    case DropOf(id) => PunishFrame(cfg, s, id, s');
    case _ =>
  }

  /** The line `h` is true of request `x.req`, sent at `sent`, and of the registry at its completion. */
  predicate TrueLine(h: Completed, x: Send, sent: Instant, s: State) {
    && x.req.id == h.id && h.vm == x.req.Vm() && h.modeName == x.req.ModeName() && h.duration == s.now - sent
    && h.addr in s.workers && s.workers[h.addr].BusyWith(h.id)
    && h.name == s.workers[h.addr].name && s.workers[h.addr].nonce == x.worker.nonce
  }

  /** Every line of the completion history is true: it names a request that was sent, its virtual
      machine and mode, the worker that had it when it completed, and the time from the sending to
      the completion. */
  lemma {:induction false} HistoryIsTrue(cfg: Config, states: seq<State>, events: seq<Event>, i: nat, k: nat)
    returns (t: nat, u: nat, n: nat)
    requires Run(cfg, states, events) && i < |states| && k < |states[i].history|
    ensures u < t < i && |states[u].sends| <= n < |states[u + 1].sends| && n < |states[i].sends|
    ensures events[t] == Complete(states[i].history[k].id)
    ensures TrueLine(states[i].history[k], states[i].sends[n], states[u].now, states[t])
  {
    assert i > 0;
    StepLogsGrow(cfg, states[i - 1], events[i - 1], states[i]);
    if k < |states[i - 1].history| {
      t, u, n := HistoryIsTrue(cfg, states, events, i - 1, k);
    } else {
      t := i - 1;
      u, n := NewLineIsTrue(cfg, states, events, t, k);
    }
  }

  lemma NewLineIsTrue(cfg: Config, states: seq<State>, events: seq<Event>, t: nat, k: nat) returns (u: nat, n: nat)
    requires Run(cfg, states, events) && t < |events| && |states[t].history| <= k < |states[t + 1].history|
    ensures u < t && |states[u].sends| <= n < |states[u + 1].sends| && n < |states[t].sends|
    ensures events[t] == Complete(states[t + 1].history[k].id)
    ensures TrueLine(states[t + 1].history[k], states[t].sends[n], states[u].now, states[t])
  {
    var a := CompletionRecorded(cfg, states[t], events[t], states[t + 1], k);
    u, n := JobWasSent(cfg, states, events, t, a);
    TimePasses(cfg, states, events, u, t);
  }

  lemma StepLogsGrow(cfg: Config, s: State, e: Event, s': State)
    requires Step(cfg, s, e, s')
    ensures s.history <= s'.history && s.sends <= s'.sends
  {
    StepStarts(cfg, s, e, s');
    HistoryOnlyByCompletion(cfg, s, e, s');
    if e.Complete? && Served(s.workers, e.id) {
      var b :| b in s.workers && s.workers[b].BusyWith(e.id) && Drained(Finish(s, e.id, b), s');
      DrainFrame(Finish(s, e.id, b), s');
    }
  }
}
