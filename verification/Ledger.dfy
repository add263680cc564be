/** Conservation of submissions: what each primitive change of the registry does to the
    places a request can be in. */
module Ledger {
  import opened Network
  import opened Worker
  import opened RegistryModel

  ghost function QueueIds(q: seq<Pending>): seq<Id> {
    seq(|q|, i requires 0 <= i < |q| => q[i].req.id)
  }

  ghost function HistoryIds(h: seq<Completed>): seq<Id> {
    seq(|h|, i requires 0 <= i < |h| => h[i].id)
  }

  ghost function FateIds(fs: seq<Fate>): seq<Id> {
    seq(|fs|, i requires 0 <= i < |fs| => fs[i].id)
  }

  ghost function OnWorkers(ws: Workers, id: Id): nat {
    if Served(ws, id) then 1 else 0
  }

  /** In how many places a submission of `id` now is: queued, on a worker, completed, ended. */
  ghost function Places(s: State, id: Id): nat {
    multiset(QueueIds(s.pending))[id] + OnWorkers(s.workers, id)
    + multiset(HistoryIds(s.history))[id] + multiset(FateIds(s.fates))[id]
  }

  /** No request is on two workers. */
  ghost predicate BusyUnique(ws: Workers) {
    forall a, b, id :: a in ws && b in ws && ws[a].BusyWith(id) && ws[b].BusyWith(id) ==> a == b
  }

  /** Every submission is accounted for exactly once. */
  ghost predicate Conserved(s: State) {
    && BusyUnique(s.workers)
    && forall id :: multiset(s.submitted)[id] == Places(s, id)
  }

  /** The latest submission, of `id`, is on the books but nowhere yet. */
  ghost predicate Owing(s: State, id: Id) {
    && BusyUnique(s.workers)
    && forall i :: multiset(s.submitted)[i] == Places(s, i) + (if i == id then 1 else 0)
  }

  lemma QueueIdsSplit(q: seq<Pending>, r: seq<Pending>)
    ensures QueueIds(q + r) == QueueIds(q) + QueueIds(r)
  {
  }

  lemma QueueIdsRemove(q: seq<Pending>, k: nat)
    requires k < |q|
    ensures multiset(QueueIds(q)) == multiset(QueueIds(q[..k] + q[k + 1..])) + multiset{q[k].req.id}
  {
    assert q == q[..k] + ([q[k]] + q[k + 1..]);
    QueueIdsSplit(q[..k], [q[k]] + q[k + 1..]);
    QueueIdsSplit([q[k]], q[k + 1..]);
    QueueIdsSplit(q[..k], q[k + 1..]);
    assert QueueIds([q[k]]) == [q[k].req.id];
  }

  lemma FateIdsSplit(f: seq<Fate>, g: seq<Fate>)
    ensures FateIds(f + g) == FateIds(f) + FateIds(g)
  {
  }

  lemma FateIdsOne(f: seq<Fate>, x: Fate)
    ensures FateIds(f + [x]) == FateIds(f) + [x.id]
  {
  }

  lemma FateCount(f: seq<Fate>, x: Fate, i: Id)
    ensures multiset(FateIds(f + [x]))[i] == multiset(FateIds(f))[i] + (if i == x.id then 1 else 0)
  {
    FateIdsOne(f, x);
  }

  lemma QueueCount(q: seq<Pending>, p: Pending, i: Id)
    ensures multiset(QueueIds(q + [p]))[i] == multiset(QueueIds(q))[i] + (if i == p.req.id then 1 else 0)
  {
    assert QueueIds(q + [p]) == QueueIds(q) + [p.req.id];
  }

  /** Same entries, same assignments: nothing moved. */
  ghost predicate SameLoad(ws: Workers, ws': Workers) {
    && ws.Keys == ws'.Keys
    && forall a, id :: a in ws ==> (ws[a].BusyWith(id) <==> ws'[a].BusyWith(id))
  }

  lemma SameLoadConserves(s: State, s': State)
    requires Conserved(s) && SameLoad(s.workers, s'.workers)
    requires s'.pending == s.pending && s'.history == s.history && s'.fates == s.fates && s'.submitted == s.submitted
    ensures Conserved(s')
  {
    forall id ensures Served(s.workers, id) <==> Served(s'.workers, id) {
      if Served(s.workers, id) {
        var a :| a in s.workers && s.workers[a].BusyWith(id);
        assert s'.workers[a].BusyWith(id);
      }
      if Served(s'.workers, id) {
        var a :| a in s'.workers && s'.workers[a].BusyWith(id);
        assert s.workers[a].BusyWith(id);
      }
    }
    forall id ensures multiset(s'.submitted)[id] == Places(s', id) {
      assert multiset(s.submitted)[id] == Places(s, id);
    }
  }

  // Taking the load off one entry takes exactly its request off the workers.
  lemma Unload(ws: Workers, a: Addr, ws': Workers)
    requires BusyUnique(ws) && a in ws
    requires forall b :: b in ws' && b != a ==> b in ws && ws'[b] == ws[b]
    requires forall b :: b in ws && b != a ==> b in ws'
    requires a in ws' ==> ws'[a].status.Idle?
    ensures BusyUnique(ws')
    ensures forall id :: OnWorkers(ws', id) == OnWorkers(ws, id) - (if ws[a].BusyWith(id) then 1 else 0)
  {
    forall id
      ensures OnWorkers(ws', id) == OnWorkers(ws, id) - (if ws[a].BusyWith(id) then 1 else 0)
    {
      if Served(ws, id) && !ws[a].BusyWith(id) {
        var b :| b in ws && ws[b].BusyWith(id);
        assert b in ws' && ws'[b].BusyWith(id);
      }
      if Served(ws', id) {
        var b :| b in ws' && ws'[b].BusyWith(id);
        assert ws[b].BusyWith(id) && b != a;
      }
    }
  }

  // Putting a request no worker has on one idle (or absent) entry.
  lemma Load(ws: Workers, a: Addr, id: Id, ws': Workers)
    requires BusyUnique(ws) && !Served(ws, id)
    requires ws'.Keys == ws.Keys + {a} && ws'[a].BusyWith(id)
    requires a in ws ==> ws[a].status.Idle?
    requires forall b, i :: b in ws && b != a ==> (ws'[b].BusyWith(i) <==> ws[b].BusyWith(i))
    ensures BusyUnique(ws')
    ensures forall i :: OnWorkers(ws', i) == OnWorkers(ws, i) + (if i == id then 1 else 0)
  {
    forall i
      ensures OnWorkers(ws', i) == OnWorkers(ws, i) + (if i == id then 1 else 0)
    {
      if Served(ws, i) {
        var b :| b in ws && ws[b].BusyWith(i);
        assert b != a && ws'[b].BusyWith(i);
      }
      if Served(ws', i) && i != id {
        var b :| b in ws' && ws'[b].BusyWith(i);
        assert b != a && ws[b].BusyWith(i);
      }
    }
  }

  lemma EvictConserves(s: State, a: Addr)
    requires Conserved(s) && a in s.workers
    ensures Conserved(Evict(s, a))
  {
    var s' := Evict(s, a);
    Unload(s.workers, a, s'.workers);
    FateIdsSplit(s.fates, OrphanFates(s.workers[a], Evicted));
    forall id ensures multiset(s'.submitted)[id] == Places(s', id) {
      assert multiset(s.submitted)[id] == Places(s, id);
    }
  }

  lemma {:induction false} EvictAllConserves(s: State, order: seq<Addr>)
    requires Conserved(s)
    ensures Conserved(EvictAll(s, order))
  {
    if order != [] {
      EvictAllConserves(s, order[..|order| - 1]);
      var s1 := EvictAll(s, order[..|order| - 1]);
      if order[|order| - 1] in s1.workers {
        EvictConserves(s1, order[|order| - 1]);
      }
    }
  }

  lemma AttemptLoad(s: State, r: Request, ws: Workers, out: Outcome)
    requires BusyUnique(s.workers) && Attempt(s.workers, s.closed, s.now, s.wall, r, ws, out)
    ensures BusyUnique(ws)
    ensures forall i :: OnWorkers(ws, i) == OnWorkers(s.workers, i) + (if out.SentTo? && i == r.id then 1 else 0)
  {
    match out
    case AlreadyBusy =>
    case SentTo(a, _) => Load(s.workers, a, r.id, ws);
    case NoWorker =>
      assert SameLoad(s.workers, ws);
      forall i ensures OnWorkers(ws, i) == OnWorkers(s.workers, i) {
        if Served(s.workers, i) {
          var b :| b in s.workers && s.workers[b].BusyWith(i);
          assert ws[b].BusyWith(i);
        }
      }
  }

  lemma RetryConserves(c: Cursor, ws: Workers, out: Outcome, c': Cursor)
    requires Conserved(c.s) && RetryWith(c, ws, out, c')
    ensures Conserved(c'.s)
  {
    var r := c.s.pending[c.k].req;
    AttemptLoad(c.s, r, ws, out);
    forall id ensures multiset(c'.s.submitted)[id] == Places(c'.s, id) {
      assert multiset(c.s.submitted)[id] == Places(c.s, id);
      RetriedBalance(c, ws, out, id);
    }
  }

  lemma RetriedBalance(c: Cursor, ws: Workers, out: Outcome, i: Id)
    requires c.k < |c.s.pending| && (out.SentTo? ==> out.addr in c.s.workers)
    requires OnWorkers(ws, i)
          == OnWorkers(c.s.workers, i) + (if out.SentTo? && i == c.s.pending[c.k].req.id then 1 else 0)
    ensures Places(Retried(c, ws, out).s, i) == Places(c.s, i)
  {
    if !out.NoWorker? {
      QueueIdsRemove(c.s.pending, c.k);
      if out.AlreadyBusy? {
        FateCount(c.s.fates, Fate(c.s.pending[c.k].req.id, Duplicate), i);
      }
    }
  }

  // Wherever the attempt leaves the request, it is in one more place than before.
  lemma SettledBalance(s: State, r: Request, ws: Workers, out: Outcome, i: Id)
    requires out.SentTo? ==> out.addr in s.workers
    requires OnWorkers(ws, i) == OnWorkers(s.workers, i) + (if out.SentTo? && i == r.id then 1 else 0)
    ensures Places(Settled(s, r, ws, out), i) == Places(s, i) + (if i == r.id then 1 else 0)
  {
    if out.SentTo? {
    } else if out.AlreadyBusy? || InQueue(s.pending, r.id) {
      FateCount(s.fates, Fate(r.id, Duplicate), i);
    } else if |s.pending| >= QUEUE_CAP {
      FateCount(s.fates, Fate(r.id, Rejected), i);
    } else {
      QueueCount(s.pending, Pending(r, s.now), i);
    }
  }

  lemma AssignConserves(s: State, r: Request, ws: Workers, out: Outcome, s': State)
    requires Owing(s, r.id) && AssignTried(s, r, ws, out, s')
    ensures Conserved(s')
  {
    AttemptLoad(s, r, ws, out);
    SettledFrame(s, r, ws, out);
    forall i ensures multiset(s'.submitted)[i] == Places(s', i) {
      SettledBalance(s, r, ws, out, i);
      assert multiset(s.submitted)[i] == Places(s, i) + (if i == r.id then 1 else 0);
    }
  }

  lemma {:induction false} ExpiryBalance(q: seq<Pending>, now: Instant)
    ensures multiset(QueueIds(q)) == multiset(QueueIds(Unexpired(q, now))) + multiset(FateIds(ExpiryFates(q, now)))
  {
    if q != [] {
      var q0, p := q[..|q| - 1], q[|q| - 1];
      ExpiryBalance(q0, now);
      assert q == q0 + [p];
      QueueIdsSplit(q0, [p]);
      QueueIdsSplit(Unexpired(q0, now), [p]);
      FateIdsOne(ExpiryFates(q0, now), Fate(p.req.id, Expired));
      assert QueueIds([p]) == [p.req.id];
      assert Unexpired(q0, now) + [] == Unexpired(q0, now);
      assert ExpiryFates(q0, now) + [] == ExpiryFates(q0, now);
    }
  }

  lemma PurgeConserves(s: State)
    requires Conserved(s)
    ensures Conserved(Purged(s))
  {
    var s' := Purged(s);
    ExpiryBalance(s.pending, s.now);
    FateIdsSplit(s.fates, ExpiryFates(s.pending, s.now));
    forall id ensures multiset(s'.submitted)[id] == Places(s', id) {
      assert multiset(s.submitted)[id] == Places(s, id);
    }
  }

  lemma FinishConserves(s: State, id: Id, a: Addr)
    requires Conserved(s) && a in s.workers && s.workers[a].BusyWith(id)
    ensures Conserved(Finish(s, id, a))
  {
    var s' := Finish(s, id, a);
    Unload(s.workers, a, s'.workers);
    var h := s'.history[|s.history|];
    assert s'.history == s.history + [h];
    assert HistoryIds(s'.history) == HistoryIds(s.history) + [id];
    forall i ensures multiset(s'.submitted)[i] == Places(s', i) {
      assert multiset(s.submitted)[i] == Places(s, i);
    }
  }

  lemma AbandonConserves(s: State, id: Id, a: Addr)
    requires Conserved(s) && a in s.workers && s.workers[a].BusyWith(id)
    ensures Conserved(Abandon(s, id, a))
  {
    var s' := Abandon(s, id, a);
    Unload(s.workers, a, s'.workers);
    FateIdsOne(s.fates, Fate(id, Failed));
    forall i ensures multiset(s'.submitted)[i] == Places(s', i) {
      assert multiset(s.submitted)[i] == Places(s, i);
    }
  }

  ghost function Held(status: WorkerStatus, id: Id): nat {
    if status.Busy? && status.id == id then 1 else 0
  }

  lemma OrphanBalance(f: seq<Fate>, w: WorkerState, end: End)
    ensures forall id :: multiset(FateIds(f + OrphanFates(w, end)))[id] == multiset(FateIds(f))[id] + Held(w.status, id)
  {
    FateIdsSplit(f, OrphanFates(w, end));
    if w.status.Busy? {
      assert FateIds(OrphanFates(w, end)) == [w.status.id];
    }
  }

  // The superseded entry's request is either ended or about to be carried over.
  lemma WithoutStaleBalance(s: State, addr: Addr, reg: Registration, stale: StaleEntry)
    requires Conserved(s) && StaleChoice(s, addr, reg, stale)
    ensures var s1, carried := WithoutStale(s, reg, stale), CarriedStatus(s, reg, stale);
            && BusyUnique(s1.workers)
            && (carried.Busy? ==> !Served(s1.workers, carried.id))
            && forall id :: multiset(s1.submitted)[id] == Places(s1, id) + Held(carried, id)
  {
    var s1, carried := WithoutStale(s, reg, stale), CarriedStatus(s, reg, stale);
    if stale.StaleAt? {
      Unload(s.workers, stale.addr, s1.workers);
      OrphanBalance(s.fates, s.workers[stale.addr], Superseded);
      assert s.fates + [] == s.fates;
      if carried.Busy? {
        assert s.workers[stale.addr].BusyWith(carried.id);
        assert OnWorkers(s1.workers, carried.id) == 0;
      }
    }
    forall id ensures multiset(s1.submitted)[id] == Places(s1, id) + Held(carried, id) {
      assert multiset(s.submitted)[id] == Places(s, id);
    }
  }

  lemma ReplaceLoad(ws: Workers, addr: Addr, w: WorkerState)
    requires BusyUnique(ws) && (w.status.Busy? ==> !Served(ws, w.status.id))
    ensures BusyUnique(ws[addr := w])
    ensures forall i :: OnWorkers(ws[addr := w], i)
                        == OnWorkers(ws, i) + Held(w.status, i) - (if addr in ws then Held(ws[addr].status, i) else 0)
  {
    var ws1 := ws[addr := w.(status := Idle)];
    var ws2 := ws[addr := w];
    if addr in ws {
      Unload(ws, addr, ws1);
    } else {
      forall i ensures Served(ws1, i) <==> Served(ws, i) {
        if Served(ws, i) {
          var b :| b in ws && ws[b].BusyWith(i);
          assert ws1[b].BusyWith(i);
        }
      }
    }
    if w.status.Busy? {
      assert OnWorkers(ws1, w.status.id) == 0;
      Load(ws1, addr, w.status.id, ws2);
    } else {
      assert ws1 == ws2;
    }
  }

  /** Registration: the superseded entry's request is carried over or ended, and so is the
      request of an entry overwritten at the same address. */
  lemma EnlistConserves(s: State, addr: Addr, reg: Registration, stale: StaleEntry)
    requires Conserved(s) && StaleChoice(s, addr, reg, stale)
    ensures Conserved(Enlisted(s, addr, reg, stale))
  {
    var s' := Enlisted(s, addr, reg, stale);
    var s1, carried := WithoutStale(s, reg, stale), CarriedStatus(s, reg, stale);
    WithoutStaleBalance(s, addr, reg, stale);
    ReplaceLoad(s1.workers, addr, Enrolled(reg, carried, s.now));
    if addr in s1.workers {
      OrphanBalance(s1.fates, s1.workers[addr], Overwritten);
    } else {
      assert s1.fates + [] == s1.fates;
    }
    forall i ensures multiset(s'.submitted)[i] == Places(s', i) {
      assert multiset(s1.submitted)[i] == Places(s1, i) + Held(carried, i);
    }
  }
}
