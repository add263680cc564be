/** Requests on their way to workers: who is sent what, what that makes of the worker's entry,
    and what the entry and the completion history say about it afterwards. */
module Sending {
  import opened Network
  import opened Worker
  import opened RegistryModel
  import opened RegistryInvariant
  import opened RegistryFrames
  import opened Reconnect
  import opened SerialWork
  import opened BoundedWaiting

  // ---------- one step ----------

  /** The request just sent is what its worker is now busy with, from this moment on, with no
      progress reported and a clean record. */
  ghost predicate Landed(s: State, x: Send) {
    && x.addr in s.workers && SameIdentity(x.worker, s.workers[x.addr])
    && s.workers[x.addr].status == Busy(x.req.id, x.req.Vm(), x.req.ModeName(), s.now, None, s.wall)
    && s.workers[x.addr].lastVm == Some(x.req.Vm()) && s.workers[x.addr].strikes == 0
  }

  ghost predicate SentNew(s: State, s': State, a: Addr) {
    exists j :: |s.sends| <= j < |s'.sends| && s'.sends[j].addr == a
  }

  /** Two entries of one process at work on the same request, taken up at the same time. */
  predicate SameWork(w: WorkerState, w': WorkerState) {
    && w.nonce == w'.nonce && w.status.Busy? && w'.status.Busy? && w.status.id == w'.status.id
    && w.status.vm == w'.status.vm && w.status.modeName == w'.status.modeName && w.status.start == w'.status.start
  }

  ghost predicate Continues(ws: Workers, w: WorkerState) {
    exists b :: b in ws && SameWork(ws[b], w)
  }

  /** Where entry `a` comes from, unless it was sent something: its work was going on already, and
      except for a fresh entry so was its memory of the last virtual machine. */
  ghost predicate GoesOn(ws: Workers, w: WorkerState, a: Addr, anew: set<Addr>) {
    && (w.status.Busy? ==> Continues(ws, w))
    && (a !in anew ==> a in ws && w.lastVm == ws[a].lastVm)
  }

  ghost predicate Starts(s: State, s': State, anew: set<Addr>) {
    && s.sends <= s'.sends
    && (forall j :: |s.sends| <= j < |s'.sends| ==> Landed(s', s'.sends[j]))
    && (forall a :: a in s'.workers ==> SentNew(s, s', a) || GoesOn(s.workers, s'.workers[a], a, anew))
  }

  // No send, and nobody works on anything new.
  ghost predicate StartsNothing(s: State, s': State, anew: set<Addr>) {
    s'.sends == s.sends && forall a :: a in s'.workers ==> GoesOn(s.workers, s'.workers[a], a, anew)
  }

  lemma ContinuesOn(ws: Workers, ws1: Workers, w: WorkerState)
    requires Continues(ws1, w) && forall b :: b in ws1 && ws1[b].status.Busy? ==> Continues(ws, ws1[b])
    ensures Continues(ws, w)
  {
    var b :| b in ws1 && SameWork(ws1[b], w);
    var c :| c in ws && SameWork(ws[c], ws1[b]);
    assert SameWork(ws[c], w);
  }

  lemma ThenStarts(s: State, s1: State, s': State, anew: set<Addr>)
    requires StartsNothing(s, s1, anew) && Starts(s1, s', {})
    ensures Starts(s, s', anew)
  {
    forall a | a in s'.workers && !SentNew(s, s', a) ensures GoesOn(s.workers, s'.workers[a], a, anew) {
      assert !SentNew(s1, s', a);
      if s'.workers[a].status.Busy? {
        ContinuesOn(s.workers, s1.workers, s'.workers[a]);
      }
    }
  }

  lemma ThenNothing(s: State, s1: State, s': State, anew: set<Addr>)
    requires StartsNothing(s, s1, anew) && StartsNothing(s1, s', {})
    ensures StartsNothing(s, s', anew)
  {
    forall a | a in s'.workers ensures GoesOn(s.workers, s'.workers[a], a, anew) {
      if s'.workers[a].status.Busy? {
        ContinuesOn(s.workers, s1.workers, s'.workers[a]);
      }
    }
  }

  lemma QuietStarts(s: State, s': State, anew: set<Addr>)
    requires StartsNothing(s, s', anew)
    ensures Starts(s, s', anew)
  {
  }

  lemma PlacedStarts(s: State, k: nat, r: Request, ws: Workers, out: Outcome)
    requires k <= |s.pending| && Attempt(s.workers, s.closed, s.now, s.wall, r, ws, out)
    ensures Starts(s, Placed(s, k, r, ws, out), {}) && OnlySentBegin(s, Placed(s, k, r, ws, out))
  {
    var s' := Placed(s, k, r, ws, out);
    forall a | a in ws ensures SentNew(s, s', a) || GoesOn(s.workers, ws[a], a, {}) {
      if out.SentTo? && a == out.addr {
        assert s'.sends[|s.sends|].addr == a;
      } else if ws[a].status.Busy? {
        assert SameWork(s.workers[a], ws[a]);
      }
    }
  }

  // Later tries leave busy entries alone, so what has landed stays.
  lemma StartsTrans(s: State, s1: State, s': State)
    requires Starts(s, s1, {}) && Starts(s1, s', {}) && Evolved(s1.workers, s'.workers)
    requires s'.now == s1.now && s'.wall == s1.wall && OnlySentBegin(s1, s')
    ensures Starts(s, s', {})
  {
    forall j | |s.sends| <= j < |s'.sends| ensures Landed(s', s'.sends[j]) {
      if j < |s1.sends| {
        assert s'.sends[j] == s1.sends[j] && Landed(s1, s1.sends[j]);
      }
    }
    forall a | a in s'.workers && !SentNew(s, s', a) ensures GoesOn(s.workers, s'.workers[a], a, {}) {
      NotSentEarlier(s, s1, s', a);
    }
  }

  lemma NotSentEarlier(s: State, s1: State, s': State, a: Addr)
    requires s.sends <= s1.sends <= s'.sends && !SentNew(s, s', a)
    ensures !SentNew(s, s1, a) && !SentNew(s1, s', a)
  {
    assert forall j :: |s.sends| <= j < |s1.sends| ==> s'.sends[j] == s1.sends[j];
  }

  // An entry that was sent nothing is busy only if it was.
  ghost predicate OnlySentBegin(s: State, s': State) {
    forall a :: a in s'.workers && s'.workers[a].status.Busy? && !SentNew(s, s', a) ==>
      a in s.workers && s.workers[a].status.Busy?
  }

  lemma {:induction false} ChainStarts(tr: seq<Cursor>, i: nat)
    requires RetryChain(tr) && i < |tr|
    ensures Starts(tr[0].s, tr[i].s, {})
  {
    if i > 0 {
      ChainStarts(tr, i - 1);
      assert Retry(tr[i - 1], tr[i]);
      RetryStarts(tr[i - 1], tr[i]);
      StartsTrans(tr[0].s, tr[i - 1].s, tr[i].s);
    }
  }

  lemma RetryStarts(c: Cursor, c': Cursor)
    requires Retry(c, c')
    ensures Starts(c.s, c'.s, {}) && Evolved(c.s.workers, c'.s.workers)
    ensures c'.s.now == c.s.now && c'.s.wall == c.s.wall && OnlySentBegin(c.s, c'.s)
  {
    var ws, out :| RetryWith(c, ws, out, c');
    var r := c.s.pending[c.k].req;
    PlacedStarts(c.s, c.k, r, ws, out);
    AttemptEvolves(c.s.workers, c.s.closed, c.s.now, c.s.wall, r, ws, out);
    SameStarts(c.s, Placed(c.s, c.k, r, ws, out), c'.s, {});
    assert forall a :: SentNew(c.s, Placed(c.s, c.k, r, ws, out), a) <==> SentNew(c.s, c'.s, a);
  }

  lemma SameStarts(s: State, s1: State, s': State, anew: set<Addr>)
    requires Starts(s, s1, anew) && s'.workers == s1.workers && s'.sends == s1.sends
    requires s'.now == s1.now && s'.wall == s1.wall
    ensures Starts(s, s', anew)
  {
    forall j | |s.sends| <= j < |s'.sends| ensures Landed(s', s'.sends[j]) {
      assert Landed(s1, s1.sends[j]);
    }
    forall a | a in s'.workers ensures SentNew(s, s', a) || GoesOn(s.workers, s'.workers[a], a, anew) {
      assert SentNew(s, s1, a) <==> SentNew(s, s', a);
    }
  }

  // Entries kept as they are start nothing.
  lemma SubsetStartsNothing(s: State, s': State)
    requires s'.sends == s.sends
    requires forall a :: a in s'.workers ==> a in s.workers && s'.workers[a].nonce == s.workers[a].nonce
                                             && s'.workers[a].status == s.workers[a].status
                                             && s'.workers[a].lastVm == s.workers[a].lastVm
    ensures StartsNothing(s, s', {})
  {
    forall a | a in s'.workers ensures GoesOn(s.workers, s'.workers[a], a, {}) {
      if s'.workers[a].status.Busy? {
        assert SameWork(s.workers[a], s'.workers[a]);
      }
    }
  }

  lemma DrainStarts(s: State, s': State)
    requires Drained(s, s')
    ensures Starts(s, s', {})
  {
    var tr: seq<Cursor> :| DrainTrace(s, tr, s');
    ChainStarts(tr, |tr| - 1);
    SubsetStartsNothing(s, Purged(s));
    ThenStarts(s, Purged(s), s', {});
  }

  lemma TrimStartsNothing(cfg: Config, s: State, s': State)
    requires Trimmed(cfg, s, s')
    ensures StartsNothing(s, s', {})
  {
    TrimFrame(cfg, s, s');
    SubsetStartsNothing(s, s');
  }

  lemma EnlistStartsNothing(s: State, addr: Addr, reg: Registration, stale: StaleEntry)
    requires StaleChoice(s, addr, reg, stale)
    ensures StartsNothing(s, Enlisted(s, addr, reg, stale), {addr})
  {
    var s' := Enlisted(s, addr, reg, stale);
    forall a | a in s'.workers ensures GoesOn(s.workers, s'.workers[a], a, {addr}) {
      if s'.workers[a].status.Busy? {
        var b := if a == addr then stale.addr else a;
        assert SameWork(s.workers[b], s'.workers[a]);
      }
    }
  }

  // One entry changes, to one that works on nothing new.
  lemma TouchStartsNothing(s: State, a: Addr, w: WorkerState, s': State)
    requires a in s.workers && s'.workers == s.workers[a := w] && s'.sends == s.sends && w.lastVm == s.workers[a].lastVm
    requires w.status.Busy? ==> SameWork(s.workers[a], w)
    ensures StartsNothing(s, s', {})
  {
    forall b | b in s'.workers ensures GoesOn(s.workers, s'.workers[b], b, {}) {
      if b != a && s'.workers[b].status.Busy? {
        assert SameWork(s.workers[b], s'.workers[b]);
      }
    }
  }

  lemma AssignStarts(cfg: Config, s: State, r: Request, s': State)
    requires AssignProof(cfg, s, r, s')
    ensures Starts(s, s', {})
  {
    var s0 := s.(submitted := s.submitted + [r.id]);
    var s1 :| Trimmed(cfg, s0, s1) && AssignNow(s1, r, s');
    TrimStartsNothing(cfg, s0, s1);
    TrimFrame(cfg, s0, s1);
    AssignNowStarts(s1, r, s');
    ThenStarts(s, s1, s', {});
  }

  lemma AssignNowStarts(s: State, r: Request, s': State)
    requires AssignNow(s, r, s')
    ensures Starts(s, s', {})
  {
    var ws, out :| AssignTried(s, r, ws, out, s');
    PlacedStarts(s, |s.pending|, r, ws, out);
    SettledExtendsPlaced(s, r, ws, out);
    SettledFrame(s, r, ws, out);
    SameStarts(s, Placed(s, |s.pending|, r, ws, out), s', {});
  }

  lemma FailureStarts(s: State, id: Id, value: Option<Status>, s': State)
    requires FailureHandled(s, id, value, s')
    ensures Starts(s, s', {})
  {
    if s' != s {
      var a :| a in s.workers && s.workers[a].BusyWith(id) && Drained(Abandon(s, id, a), s');
      TouchStartsNothing(s, a, s.workers[a].FailedProof(), Abandon(s, id, a));
      DrainStarts(Abandon(s, id, a), s');
      ThenStarts(s, Abandon(s, id, a), s', {});
    } else {
      SubsetStartsNothing(s, s');
    }
  }

  lemma RespondStarts(cfg: Config, s: State, id: Id, value: Option<Status>, s': State)
    requires StatusResponse(cfg, s, id, value, s')
    ensures Starts(s, s', {})
  {
    var bridged, s1 :|
      Bridged(cfg, s, id, value, bridged) && FailureHandled(s, id, bridged, s1) && s' == Notified(s1, id, bridged);
    FailureStarts(s, id, bridged, s1);
    SameStarts(s, s1, s', {});
  }

  lemma CompleteStarts(s: State, id: Id, s': State)
    requires ProofComplete(s, id, s')
    ensures Starts(s, s', {})
  {
    if Served(s.workers, id) {
      var a :| a in s.workers && s.workers[a].BusyWith(id) && Drained(Finish(s, id, a), s');
      TouchStartsNothing(s, a, s.workers[a].CompletedProof(), Finish(s, id, a));
      DrainStarts(Finish(s, id, a), s');
      ThenStarts(s, Finish(s, id, a), s', {});
    } else {
      SubsetStartsNothing(s, s');
    }
  }

  lemma PollStarts(cfg: Config, s: State, id: Id, to: Responder, s': State)
    requires StatusRequest(cfg, s, id, to, s')
    ensures Starts(s, s', {})
  {
    var s0 := s.(asked := s.asked + [to]);
    var s1 :| Trimmed(cfg, s0, s1) && StatusLookup(cfg, s1, id, to, s');
    TrimFrame(cfg, s0, s1);
    LookupFrame(cfg, s1, id, to, s');
    SubsetStartsNothing(s, s');
    QuietStarts(s, s', {});
  }

  lemma PunishStarts(cfg: Config, s: State, id: Id, s': State)
    requires StrikeWorker(cfg, s, id, s') || DropWorker(cfg, s, id, s')
    ensures Starts(s, s', {})
  {
    if Served(s.workers, id) {
      var a, strikes :| a in s.workers && Trimmed(cfg, WithStrikes(s, a, strikes), s');
      TrimFrame(cfg, WithStrikes(s, a, strikes), s');
    }
    SubsetStartsNothing(s, s');
    QuietStarts(s, s', {});
  }

  lemma SmallStepStarts(cfg: Config, s: State, e: Event, s': State)
    requires Step(cfg, s, e, s') && (e.Report? || e.Heartbeat? || e.Tick? || e.Close?)
    ensures Starts(s, s', {})
  {
    if e.Report? && Served(s.workers, e.id) {
      var a :| a in s.workers && s.workers[a].BusyWith(e.id)
               && s' == s.(workers := s.workers[a := s.workers[a].Reported(e.update, s.wall)]);
      TouchStartsNothing(s, a, s.workers[a].Reported(e.update, s.wall), s');
    } else {
      SubsetStartsNothing(s, s');
    }
    QuietStarts(s, s', {});
  }

  ghost function Anew(e: Event): set<Addr> {
    if e.Ready? then {e.addr} else {}
  }

  /** In every step: what is sent lands, and whoever is sent nothing goes on as before. */
  lemma StepStarts(cfg: Config, s: State, e: Event, s': State)
    requires Step(cfg, s, e, s')
    ensures Starts(s, s', Anew(e))
  {
    match e
    case Assign(r) => AssignStarts(cfg, s, r, s');
    case Ready(addr, reg) =>
      var stale :| StaleChoice(s, addr, reg, stale) && Drained(Enlisted(s, addr, reg, stale), s');
      EnlistStartsNothing(s, addr, reg, stale);
      DrainStarts(Enlisted(s, addr, reg, stale), s');
      ThenStarts(s, Enlisted(s, addr, reg, stale), s', {addr});
    case Complete(id) => CompleteStarts(s, id, s');
    case Respond(id, value) => RespondStarts(cfg, s, id, value, s');
    case Poll(id, to) => PollStarts(cfg, s, id, to, s');
    case Strike(id) => PunishStarts(cfg, s, id, s');
    case DropOf(id) => PunishStarts(cfg, s, id, s');
    case _ => SmallStepStarts(cfg, s, e, s');
  }
}
