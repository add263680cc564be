/** How long a queued request waits: its place in the queue never gets worse, and each worker
    that is freed, connected and able to serve it brings it one place forward. */
module BoundedWaiting {
  import opened Network
  import opened Worker
  import opened RegistryModel
  import opened Ledger
  import opened RegistryInvariant
  import opened RegistryFrames
  import opened RegistryTheorems

  ghost predicate SentSince(s: State, s': State, r: Request) {
    exists m :: |s.sends| <= m < |s'.sends| && s'.sends[m].req == r
  }

  /** The entry at place `k` was sent out, or now stands at least `d` places further forward. */
  ghost predicate Advanced(s: State, k: nat, s': State, d: nat)
    requires k < |s.pending|
  {
    || SentSince(s, s', s.pending[k].req)
    || exists j :: 0 <= j < |s'.pending| && j + d <= k && s'.pending[j] == s.pending[k]
  }

  // ---------- one drain ----------

  lemma RetryAdvances(c: Cursor, c': Cursor, k: nat)
    requires Apart(c.s) && Retry(c, c') && k < |c.s.pending|
    ensures c.s.sends <= c'.s.sends && Advanced(c.s, k, c'.s, 0)
  {
    var ws, out :| RetryWith(c, ws, out, c');
    assert !out.AlreadyBusy?;
    if out.NoWorker? || k < c.k {
      assert c'.s.pending[k] == c.s.pending[k];
    } else if k > c.k {
      assert c'.s.pending[k - 1] == c.s.pending[k];
    } else {
      assert c'.s.sends[|c.s.sends|].req == c.s.pending[k].req;
    }
  }

  lemma AdvancedTrans(s: State, k: nat, s1: State, s': State, d: nat, j: nat, e: nat)
    requires k < |s.pending| && j < |s1.pending| && j + d <= k && s1.pending[j] == s.pending[k]
    requires s.sends <= s1.sends && Advanced(s1, j, s', e)
    ensures Advanced(s, k, s', d + e)
  {
    if SentSince(s1, s', s1.pending[j].req) {
      var m :| |s1.sends| <= m < |s'.sends| && s'.sends[m].req == s1.pending[j].req;
      assert SentSince(s, s', s.pending[k].req);
    }
  }

  lemma SentStays(s: State, s1: State, s': State, r: Request)
    requires SentSince(s, s1, r) && s1.sends <= s'.sends
    ensures SentSince(s, s', r)
  {
    var m :| |s.sends| <= m < |s1.sends| && s1.sends[m].req == r;
    assert s'.sends[m].req == r;
  }

  lemma TailChain(tr: seq<Cursor>)
    requires RetryChain(tr) && |tr| > 1
    ensures Retry(tr[0], tr[1]) && RetryChain(tr[1..])
    ensures tr[1..][0] == tr[1] && tr[1..][|tr[1..]| - 1] == tr[|tr| - 1]
  {
  }

  lemma {:induction false} ChainAdvances(tr: seq<Cursor>, k: nat, name: Id -> Request)
    requires RetryChain(tr) && k < |tr[0].s.pending|
    requires Apart(tr[0].s) && Named(tr[0].s, name) && Ordered(tr[0].s.pending) && BusyUnique(tr[0].s.workers)
    ensures tr[0].s.sends <= tr[|tr| - 1].s.sends && Advanced(tr[0].s, k, tr[|tr| - 1].s, 0)
    decreases |tr|
  {
    if |tr| > 1 {
      var c, c', last := tr[0], tr[1], tr[|tr| - 1];
      TailChain(tr);
      RetryAdvances(c, c', k);
      RetryKeepsApart(c, c', name);
      ChainSendsGrow(tr[1..]);
      if SentSince(c.s, c'.s, c.s.pending[k].req) {
        SentStays(c.s, c'.s, last.s, c.s.pending[k].req);
      } else {
        var j :| 0 <= j < |c'.s.pending| && j <= k && c'.s.pending[j] == c.s.pending[k];
        ChainAdvances(tr[1..], j, name);
        AdvancedTrans(c.s, k, c'.s, last.s, 0, j, 0);
      }
    } else {
      assert tr[0].s.pending[k] == tr[0].s.pending[k];
    }
  }

  lemma {:induction false} ChainSendsGrow(tr: seq<Cursor>)
    requires RetryChain(tr)
    ensures tr[0].s.sends <= tr[|tr| - 1].s.sends
    decreases |tr|
  {
    if |tr| > 1 {
      TailChain(tr);
      ChainSendsGrow(tr[1..]);
    }
  }

  lemma DrainSendsGrow(s: State, s': State)
    requires Drained(s, s')
    ensures s.sends <= s'.sends
  {
    var tr: seq<Cursor> :| DrainTrace(s, tr, s');
    ChainSendsGrow(tr);
  }

  // Purging only moves the rest forward.
  lemma {:induction false} UnexpiredMovesForward(q: seq<Pending>, now: Instant, k: nat) returns (j: nat)
    requires k < |q| && !Outlived(q[k], now)
    ensures j <= k && j < |Unexpired(q, now)| && Unexpired(q, now)[j] == q[k]
  {
    var q0 := q[..|q| - 1];
    if k < |q0| {
      j := UnexpiredMovesForward(q0, now, k);
      assert Unexpired(q0, now) <= Unexpired(q, now);
    } else {
      UnexpiredMembers(q0, now);
      j := |Unexpired(q0, now)|;
    }
  }

  lemma PurgedApart(s: State, name: Id -> Request)
    requires Apart(s) && Named(s, name) && QueueOk(s)
    ensures Apart(Purged(s)) && Named(Purged(s), name) && Ordered(Purged(s).pending)
  {
    UnexpiredMembers(s.pending, s.now);
    UnexpiredKeepsOrder(s.pending, s.now);
    var u := Unexpired(s.pending, s.now);
    forall i | 0 <= i < |u| ensures !Served(s.workers, u[i].req.id) && u[i].req == name(u[i].req.id) {
      assert u[i] in s.pending;
    }
  }

  lemma DrainAdvances(s: State, s': State, k: nat, name: Id -> Request)
    requires Drained(s, s') && Apart(s) && Named(s, name) && QueueOk(s) && BusyUnique(s.workers)
    requires k < |s.pending| && !Outlived(s.pending[k], s.now)
    ensures s.sends <= s'.sends && Advanced(s, k, s', 0)
  {
    var tr: seq<Cursor> :| DrainTrace(s, tr, s');
    PurgedApart(s, name);
    var j := UnexpiredMovesForward(s.pending, s.now, k);
    ChainAdvances(tr, j, name);
    AdvancedTrans(s, k, Purged(s), s', 0, j, 0);
  }

  // While a worker for the entry at `k` is available, trying an entry up to it either leaves that
  // worker alone, takes somebody ahead out of the queue, or sends the entry itself.
  lemma RetryWithCapacity(c: Cursor, c': Cursor, a: Addr, k: nat)
    requires Retry(c, c') && c.k <= k < |c.s.pending| && Apart(c.s) && Available(c.s, a, c.s.pending[k].req)
    ensures c.s.sends <= c'.s.sends
    ensures || SentSince(c.s, c'.s, c.s.pending[k].req)
            || (k > 0 && k - 1 < |c'.s.pending| && c'.s.pending[k - 1] == c.s.pending[k])
            || (c'.k <= k < |c'.s.pending| && c'.s.pending[k] == c.s.pending[k] && Available(c'.s, a, c.s.pending[k].req))
  {
    var ws, out :| RetryWith(c, ws, out, c');
    assert !out.AlreadyBusy?;
    if c.k == k {
      assert out.SentTo?;
      assert c'.s.sends[|c.s.sends|].req == c.s.pending[k].req;
    } else if out.SentTo? {
      assert c'.s.pending[k - 1] == c.s.pending[k];
    } else {
      assert ws[a] == c.s.workers[a];
    }
  }

  lemma {:induction false} ChainWithCapacity(tr: seq<Cursor>, a: Addr, k: nat, name: Id -> Request)
    requires RetryChain(tr) && tr[0].k <= k < |tr[0].s.pending| && tr[|tr| - 1].k == |tr[|tr| - 1].s.pending|
    requires Apart(tr[0].s) && Named(tr[0].s, name) && Ordered(tr[0].s.pending) && BusyUnique(tr[0].s.workers)
    requires Available(tr[0].s, a, tr[0].s.pending[k].req)
    ensures Advanced(tr[0].s, k, tr[|tr| - 1].s, 1)
    decreases |tr|
  {
    var c, c', last, rest := tr[0], tr[1], tr[|tr| - 1], tr[1..];
    TailChain(tr);
    RetryWithCapacity(c, c', a, k);
    RetryKeepsApart(c, c', name);
    ChainSendsGrow(rest);
    if SentSince(c.s, c'.s, c.s.pending[k].req) {
      SentStays(c.s, c'.s, last.s, c.s.pending[k].req);
    } else if k > 0 && k - 1 < |c'.s.pending| && c'.s.pending[k - 1] == c.s.pending[k] {
      ChainAdvances(rest, k - 1, name);
      AdvancedTrans(c.s, k, c'.s, last.s, 1, k - 1, 0);
    } else {
      ChainWithCapacity(rest, a, k, name);
      AdvancedTrans(c.s, k, c'.s, last.s, 0, k, 1);
    }
  }

  /** When some worker is available for the entry at `k`, draining the queue moves it forward. */
  lemma DrainWithCapacityAdvances(s: State, s': State, a: Addr, k: nat, name: Id -> Request)
    requires Drained(s, s') && Apart(s) && Named(s, name) && QueueOk(s) && BusyUnique(s.workers)
    requires k < |s.pending| && !Outlived(s.pending[k], s.now) && Available(s, a, s.pending[k].req)
    ensures Advanced(s, k, s', 1)
  {
    var tr: seq<Cursor> :| DrainTrace(s, tr, s');
    PurgedApart(s, name);
    var j := UnexpiredMovesForward(s.pending, s.now, k);
    assert Available(Purged(s), a, s.pending[k].req);
    ChainWithCapacity(tr, a, j, name);
    AdvancedTrans(s, k, Purged(s), s', 0, j, 1);
  }

  // ---------- one step ----------

  predicate IsFailure(value: Option<Status>) {
    value.Some? && value.value.execution == UNEXECUTABLE
  }

  /** The command takes a proof off a worker, by completion or by failure. */
  predicate Frees(s: State, e: Event) {
    || (e.Complete? && Served(s.workers, e.id))
    || (e.Respond? && IsFailure(e.value) && Served(s.workers, e.id))
  }

  /** The worker of `id` is connected and able to serve `r`. */
  ghost predicate CouldTake(s: State, id: Id, r: Request) {
    forall a :: a in s.workers && s.workers[a].BusyWith(id) ==>
      s.workers[a].channel !in s.closed && s.workers[a].CanServe(r)
  }

  /** One if the command frees a connected worker able to serve `r`. */
  ghost function Gain(s: State, e: Event, r: Request): nat {
    if Frees(s, e) && CouldTake(s, e.id, r) then 1 else 0
  }

  lemma UnloadedApart(s: State, s1: State, a: Addr, w: WorkerState, name: Id -> Request)
    requires Apart(s) && Named(s, name) && BusyUnique(s.workers) && a in s.workers
    requires s1.workers == s.workers[a := w] && w.status.Idle? && s1.pending == s.pending
    ensures Apart(s1) && Named(s1, name) && BusyUnique(s1.workers)
  {
    Unload(s.workers, a, s1.workers);
    forall i | 0 <= i < |s1.pending| ensures !Served(s1.workers, s1.pending[i].req.id) {
      assert OnWorkers(s.workers, s.pending[i].req.id) == 0;
      assert OnWorkers(s1.workers, s1.pending[i].req.id) <= OnWorkers(s.workers, s1.pending[i].req.id);
    }
  }

  // From `s1`, which is `s` with the worker at `a` freed.
  lemma FreedAdvances(s: State, s1: State, id: Id, a: Addr, w: WorkerState, s': State, k: nat, name: Id -> Request)
    requires Inv(s) && Apart(s) && Named(s, name) && a in s.workers && s.workers[a].BusyWith(id) && Drained(s1, s')
    requires w.status.Idle? && w.capabilities == s.workers[a].capabilities && w.channel == s.workers[a].channel
    requires s1 == s.(workers := s.workers[a := w], history := s1.history, fates := s1.fates)
    requires k < |s.pending| && !Outlived(s.pending[k], s.now)
    ensures s.sends <= s'.sends && Advanced(s, k, s', if CouldTake(s, id, s.pending[k].req) then 1 else 0)
  {
    UnloadedApart(s, s1, a, w, name);
    if CouldTake(s, id, s.pending[k].req) {
      DrainSendsGrow(s1, s');
      DrainWithCapacityAdvances(s1, s', a, k, name);
      AdvancedTrans(s, k, s1, s', 0, k, 1);
    } else {
      DrainAdvances(s1, s', k, name);
      AdvancedTrans(s, k, s1, s', 0, k, 0);
    }
  }

  lemma CompleteAdvances(s: State, id: Id, s': State, k: nat, name: Id -> Request)
    requires Inv(s) && Apart(s) && Named(s, name) && ProofComplete(s, id, s')
    requires k < |s.pending| && !Outlived(s.pending[k], s.now)
    ensures s.sends <= s'.sends && Advanced(s, k, s', Gain(s, Complete(id), s.pending[k].req))
  {
    if Served(s.workers, id) {
      var a :| a in s.workers && s.workers[a].BusyWith(id) && Drained(Finish(s, id, a), s');
      FreedAdvances(s, Finish(s, id, a), id, a, s.workers[a].CompletedProof(), s', k, name);
    }
  }

  lemma RespondAdvances(cfg: Config, s: State, id: Id, value: Option<Status>, s': State, k: nat, name: Id -> Request)
    requires Inv(s) && Apart(s) && Named(s, name) && StatusResponse(cfg, s, id, value, s')
    requires k < |s.pending| && !Outlived(s.pending[k], s.now)
    ensures s.sends <= s'.sends && Advanced(s, k, s', Gain(s, Respond(id, value), s.pending[k].req))
  {
    var bridged, s1 :|
      Bridged(cfg, s, id, value, bridged) && FailureHandled(s, id, bridged, s1) && s' == Notified(s1, id, bridged);
    if IsFailure(bridged) && Served(s.workers, id) {
      assert value == bridged;
      var a :| a in s.workers && s.workers[a].BusyWith(id) && Drained(Abandon(s, id, a), s1);
      FreedAdvances(s, Abandon(s, id, a), id, a, s.workers[a].FailedProof(), s1, k, name);
    } else {
      assert s1 == s && !Frees(s, Respond(id, value));
    }
    assert s'.pending == s1.pending && s'.sends == s1.sends;
  }

  lemma ReadyAdvances(s: State, addr: Addr, reg: Registration, s': State, k: nat, name: Id -> Request)
    requires Inv(s) && Apart(s) && Named(s, name) && WorkerReady(s, addr, reg, s')
    requires k < |s.pending| && !Outlived(s.pending[k], s.now)
    ensures s.sends <= s'.sends && Advanced(s, k, s', 0)
  {
    var stale :| StaleChoice(s, addr, reg, stale) && Drained(Enlisted(s, addr, reg, stale), s');
    var s1 := Enlisted(s, addr, reg, stale);
    EnlistKeepsApart(s, addr, reg, stale, name);
    EnlistConserves(s, addr, reg, stale);
    DrainAdvances(s1, s', k, name);
    AdvancedTrans(s, k, s1, s', 0, k, 0);
  }

  lemma AssignAdvances(cfg: Config, s: State, r: Request, s': State, k: nat)
    requires AssignProof(cfg, s, r, s') && k < |s.pending|
    ensures s.sends <= s'.sends && Advanced(s, k, s', 0)
  {
    var s0 := s.(submitted := s.submitted + [r.id]);
    var s1 :| Trimmed(cfg, s0, s1) && AssignNow(s1, r, s');
    TrimFrame(cfg, s0, s1);
    var ws, out :| AssignTried(s1, r, ws, out, s');
    SettledFrame(s1, r, ws, out);
    SettledSends(s1, r, ws, out);
    assert s'.pending[k] == s.pending[k];
  }

  lemma SettledSends(s: State, r: Request, ws: Workers, out: Outcome)
    requires out.SentTo? ==> out.addr in s.workers
    ensures s.sends <= Settled(s, r, ws, out).sends
  {
  }

  /** No step moves a live entry back, and freeing a connected worker able to serve it moves it
      forward. */
  lemma StepAdvances(cfg: Config, s: State, e: Event, s': State, k: nat, name: Id -> Request)
    requires Inv(s) && Apart(s) && Named(s, name) && Step(cfg, s, e, s')
    requires k < |s.pending| && !Outlived(s.pending[k], s.now)
    ensures s.sends <= s'.sends && Advanced(s, k, s', Gain(s, e, s.pending[k].req))
  {
    match e
    case Assign(r) => AssignAdvances(cfg, s, r, s', k);
    case Ready(addr, reg) => ReadyAdvances(s, addr, reg, s', k, name);
    case Complete(id) => CompleteAdvances(s, id, s', k, name);
    case Respond(id, value) => RespondAdvances(cfg, s, id, value, s', k, name);
    case Poll(id, to) => PollFrame(cfg, s, id, to, s');
    case Strike(id) => PunishFrame(cfg, s, id, s');
    case DropOf(id) => PunishFrame(cfg, s, id, s');
    case _ =>
  }

  // ---------- whole runs ----------

  /** How many of the steps from `i` to `j` free a connected worker able to serve `r`. */
  ghost function FreeingSteps(states: seq<State>, events: seq<Event>, r: Request, i: nat, j: nat): nat
    requires i <= j <= |events| && |states| == |events| + 1
    decreases j - i
  {
    if i == j then 0 else Gain(states[i], events[i], r) + FreeingSteps(states, events, r, i + 1, j)
  }

  lemma {:induction false} SendsGrow(
      cfg: Config, states: seq<State>, events: seq<Event>, i: nat, j: nat)
    requires Run(cfg, states, events) && i <= j < |states|
    ensures states[i].sends <= states[j].sends
    decreases j - i
  {
    if i < j {
      StepSendsGrow(cfg, states[i], events[i], states[i + 1]);
      SendsGrow(cfg, states, events, i + 1, j);
    }
  }

  lemma FailureSendsGrow(s: State, id: Id, value: Option<Status>, s': State)
    requires FailureHandled(s, id, value, s')
    ensures s.sends <= s'.sends
  {
    if s' != s {
      var a :| a in s.workers && s.workers[a].BusyWith(id) && Drained(Abandon(s, id, a), s');
      DrainSendsGrow(Abandon(s, id, a), s');
    }
  }

  lemma RespondSendsGrow(cfg: Config, s: State, id: Id, value: Option<Status>, s': State)
    requires StatusResponse(cfg, s, id, value, s')
    ensures s.sends <= s'.sends
  {
    var bridged, s1 :|
      Bridged(cfg, s, id, value, bridged) && FailureHandled(s, id, bridged, s1) && s' == Notified(s1, id, bridged);
    FailureSendsGrow(s, id, bridged, s1);
  }

  lemma ReadySendsGrow(s: State, addr: Addr, reg: Registration, s': State)
    requires WorkerReady(s, addr, reg, s')
    ensures s.sends <= s'.sends
  {
    var stale :| StaleChoice(s, addr, reg, stale) && Drained(Enlisted(s, addr, reg, stale), s');
    DrainSendsGrow(Enlisted(s, addr, reg, stale), s');
  }

  lemma AssignSendsGrow(cfg: Config, s: State, r: Request, s': State)
    requires AssignProof(cfg, s, r, s')
    ensures s.sends <= s'.sends
  {
    var s0 := s.(submitted := s.submitted + [r.id]);
    var s1 :| Trimmed(cfg, s0, s1) && AssignNow(s1, r, s');
    TrimFrame(cfg, s0, s1);
    var ws, out :| AssignTried(s1, r, ws, out, s');
    SettledSends(s1, r, ws, out);
  }

  lemma StepSendsGrow(cfg: Config, s: State, e: Event, s': State)
    requires Step(cfg, s, e, s')
    ensures s.sends <= s'.sends
  {
    match e
    case Assign(r) => AssignSendsGrow(cfg, s, r, s');
    case Ready(addr, reg) => ReadySendsGrow(s, addr, reg, s');
    case Complete(id) =>
      if Served(s.workers, id) {
        var a :| a in s.workers && s.workers[a].BusyWith(id) && Drained(Finish(s, id, a), s');
        DrainSendsGrow(Finish(s, id, a), s');
      }
    case Respond(id, value) => RespondSendsGrow(cfg, s, id, value, s');
    case Poll(id, to) => PollFrame(cfg, s, id, to, s');
    case Strike(id) => PunishFrame(cfg, s, id, s');
    case DropOf(id) => PunishFrame(cfg, s, id, s');
    case _ =>
  }

  /** Bounded waiting: a request queued with `k` others ahead of it, which does not outlive the
      queue's time limit, has been sent to a worker once `k + 1` proofs have completed or
      failed on connected workers able to serve it, whatever else is queued or running. */
  lemma {:induction false} PlacedWithinBound(
      cfg: Config, states: seq<State>, events: seq<Event>, i: nat, j: nat, k: nat, name: Id -> Request)
    requires Run(cfg, states, events) && i <= j < |states| && NamesAgree(events, name)
    requires k < |states[i].pending| && FreeingSteps(states, events, states[i].pending[k].req, i, j) > k
    requires forall m :: i <= m < j ==> !Outlived(states[i].pending[k], states[m].now)
    ensures SentSince(states[i], states[j], states[i].pending[k].req)
    decreases j - i
  {
    var s, s' := states[i], states[i + 1];
    RunInv(cfg, states, events, i);
    RetriesNeverDouble(cfg, states, events, i, name);
    StepAdvances(cfg, s, events[i], s', k, name);
    SendsGrow(cfg, states, events, i + 1, j);
    if SentSince(s, s', s.pending[k].req) {
      SentStays(s, s', states[j], s.pending[k].req);
    } else {
      var n :| 0 <= n < |s'.pending| && n + Gain(s, events[i], s.pending[k].req) <= k && s'.pending[n] == s.pending[k];
      PlacedWithinBound(cfg, states, events, i + 1, j, n, name);
      SentEarlier(s, s', states[j], s.pending[k].req);
    }
  }

  lemma SentEarlier(s: State, s1: State, s': State, r: Request)
    requires s.sends <= s1.sends && SentSince(s1, s', r)
    ensures SentSince(s, s', r)
  {
    var m :| |s1.sends| <= m < |s'.sends| && s'.sends[m].req == r;
  }
}
