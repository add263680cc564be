/** A submission is dropped as a duplicate only if its id was submitted before. */
module Duplicates {
  import opened Network
  import opened Worker
  import opened RegistryModel
  import opened Ledger
  import opened RegistryInvariant
  import opened RegistryFrames
  import opened RegistryTheorems

  ghost predicate DuplicatesRepeat(s: State) {
    forall i :: 0 <= i < |s.fates| && s.fates[i].end.Duplicate? ==> multiset(s.submitted)[s.fates[i].id] >= 2
  }

  /** A registration took the worker's entry away. */
  predicate IsCut(end: End) {
    end.Superseded? || end.Overwritten?
  }

  /** Fates added since `s` call nothing a duplicate that was submitted only once, and unless
      `cuts`, none comes from a registration. */
  ghost predicate HonestFates(s: State, s': State, cuts: bool) {
    && s.fates <= s'.fates
    && forall i :: |s.fates| <= i < |s'.fates| ==>
         && (s'.fates[i].end.Duplicate? ==> multiset(s'.submitted)[s'.fates[i].id] >= 2)
         && (IsCut(s'.fates[i].end) ==> cuts)
  }

  lemma HonestKeeps(s: State, s': State, cuts: bool)
    requires DuplicatesRepeat(s) && HonestFates(s, s', cuts) && s.submitted <= s'.submitted
    ensures DuplicatesRepeat(s')
  {
    assert s'.submitted == s.submitted + s'.submitted[|s.submitted|..];
  }

  lemma HonestTrans(s: State, s1: State, s': State, cuts: bool)
    requires HonestFates(s, s1, cuts) && HonestFates(s1, s', false) && s1.submitted == s'.submitted
    ensures HonestFates(s, s', cuts)
  {
  }

  lemma {:induction false} ChainIsHonest(tr: seq<Cursor>, i: nat)
    requires RetryChain(tr) && i < |tr| && Conserved(tr[0].s)
    ensures Conserved(tr[i].s) && HonestFates(tr[0].s, tr[i].s, false) && tr[i].s.submitted == tr[0].s.submitted
  {
    if i > 0 {
      ChainIsHonest(tr, i - 1);
      assert Retry(tr[i - 1], tr[i]);
      RetryIsHonest(tr[i - 1], tr[i]);
      HonestTrans(tr[0].s, tr[i - 1].s, tr[i].s, false);
    }
  }

  lemma RetryIsHonest(c: Cursor, c': Cursor)
    requires Retry(c, c') && Conserved(c.s)
    ensures Conserved(c'.s) && HonestFates(c.s, c'.s, false) && c'.s.submitted == c.s.submitted
  {
    var ws, out :| RetryWith(c, ws, out, c');
    RetryConserves(c, ws, out, c');
    if out.AlreadyBusy? {
      QueuedAndServedRepeats(c.s, c.k);
    }
  }

  lemma QueuedAndServedRepeats(s: State, k: nat)
    requires Conserved(s) && k < |s.pending| && Served(s.workers, s.pending[k].req.id)
    ensures multiset(s.submitted)[s.pending[k].req.id] >= 2
  {
    var id := s.pending[k].req.id;
    assert multiset(s.submitted)[id] == Places(s, id);
    assert QueueIds(s.pending)[k] == id;
  }

  lemma {:induction false} ExpiryIsHonest(q: seq<Pending>, now: Instant, i: nat)
    requires i < |ExpiryFates(q, now)|
    ensures ExpiryFates(q, now)[i].end.Expired?
  {
    if i < |ExpiryFates(q[..|q| - 1], now)| {
      ExpiryIsHonest(q[..|q| - 1], now, i);
    }
  }

  lemma DrainIsHonest(s: State, s': State)
    requires Conserved(s) && Drained(s, s')
    ensures HonestFates(s, s', false) && s'.submitted == s.submitted
  {
    var tr: seq<Cursor> :| DrainTrace(s, tr, s');
    PurgeConserves(s);
    forall i | 0 <= i < |ExpiryFates(s.pending, s.now)| ensures ExpiryFates(s.pending, s.now)[i].end.Expired? {
      ExpiryIsHonest(s.pending, s.now, i);
    }
    assert HonestFates(s, Purged(s), false);
    ChainIsHonest(tr, |tr| - 1);
    HonestTrans(s, Purged(s), s', false);
  }

  lemma {:induction false} EvictAllIsHonest(s: State, order: seq<Addr>)
    ensures s.fates <= EvictAll(s, order).fates
    ensures forall i :: |s.fates| <= i < |EvictAll(s, order).fates| ==> EvictAll(s, order).fates[i].end.Evicted?
  {
    if order != [] {
      EvictAllIsHonest(s, order[..|order| - 1]);
    }
  }

  lemma TrimIsHonest(cfg: Config, s: State, s': State)
    requires Trimmed(cfg, s, s')
    ensures HonestFates(s, s', false) && s'.submitted == s.submitted
  {
    var order :| DropOrder(cfg, s, order) && s' == EvictAll(s, order);
    EvictAllIsHonest(s, order);
    EvictAllFrame(s, order);
  }

  lemma AssignIsHonest(cfg: Config, s: State, r: Request, s': State)
    requires Inv(s) && AssignProof(cfg, s, r, s')
    ensures HonestFates(s, s', false) && s'.submitted == s.submitted + [r.id]
  {
    var s0 := s.(submitted := s.submitted + [r.id]);
    var s1 :| Trimmed(cfg, s0, s1) && AssignNow(s1, r, s');
    TrimIsHonest(cfg, s0, s1);
    TrimOwes(cfg, s, r.id, s1);
    var ws, out :| AssignTried(s1, r, ws, out, s');
    SettledFrame(s1, r, ws, out);
    if out.AlreadyBusy? || InQueue(s1.pending, r.id) {
      HeldTwice(s1, r.id);
    }
    SettledIsHonest(s1, r, ws, out);
    HonestTrans(s, s1, s', false);
  }

  lemma HeldTwice(s: State, id: Id)
    requires Owing(s, id) && (Served(s.workers, id) || InQueue(s.pending, id))
    ensures multiset(s.submitted)[id] >= 2
  {
    assert multiset(s.submitted)[id] == Places(s, id) + 1;
    CountsLocate(s, id);
  }

  lemma SettledIsHonest(s: State, r: Request, ws: Workers, out: Outcome)
    requires out.SentTo? ==> out.addr in s.workers
    requires out.AlreadyBusy? || InQueue(s.pending, r.id) ==> multiset(s.submitted)[r.id] >= 2
    ensures HonestFates(s, Settled(s, r, ws, out), false) && Settled(s, r, ws, out).submitted == s.submitted
  {
  }

  lemma StepIsHonest(cfg: Config, s: State, e: Event, s': State)
    requires Inv(s) && Step(cfg, s, e, s')
    ensures HonestFates(s, s', e.Ready?)
  {
    match e
    case Assign(r) => AssignIsHonest(cfg, s, r, s');
    case Ready(addr, reg) =>
      var stale :| StaleChoice(s, addr, reg, stale) && Drained(Enlisted(s, addr, reg, stale), s');
      EnlistConserves(s, addr, reg, stale);
      EnlistIsHonest(s, addr, reg, stale);
      DrainIsHonest(Enlisted(s, addr, reg, stale), s');
      HonestTrans(s, Enlisted(s, addr, reg, stale), s', true);
    case Complete(id) =>
      if Served(s.workers, id) {
        var a :| a in s.workers && s.workers[a].BusyWith(id) && Drained(Finish(s, id, a), s');
        FinishConserves(s, id, a);
        DrainIsHonest(Finish(s, id, a), s');
      }
    case Respond(id, value) => RespondIsHonest(cfg, s, id, value, s');
    case Poll(id, to) =>
      var s1 :| Trimmed(cfg, s.(asked := s.asked + [to]), s1) && StatusLookup(cfg, s1, id, to, s');
      TrimIsHonest(cfg, s.(asked := s.asked + [to]), s1);
      LookupFrame(cfg, s1, id, to, s');
    case Strike(id) => PunishIsHonest(cfg, s, id, s');
    case DropOf(id) => PunishIsHonest(cfg, s, id, s');
    case _ =>
  }

  lemma EnlistIsHonest(s: State, addr: Addr, reg: Registration, stale: StaleEntry)
    requires StaleChoice(s, addr, reg, stale)
    ensures HonestFates(s, Enlisted(s, addr, reg, stale), true)
  {
  }

  lemma FailureIsHonest(s: State, id: Id, value: Option<Status>, s': State)
    requires Inv(s) && FailureHandled(s, id, value, s')
    ensures HonestFates(s, s', false) && s'.submitted == s.submitted
  {
    if s' != s {
      var a :| a in s.workers && s.workers[a].BusyWith(id) && Drained(Abandon(s, id, a), s');
      AbandonConserves(s, id, a);
      DrainIsHonest(Abandon(s, id, a), s');
      HonestTrans(s, Abandon(s, id, a), s', false);
    }
  }

  lemma RespondIsHonest(cfg: Config, s: State, id: Id, value: Option<Status>, s': State)
    requires Inv(s) && StatusResponse(cfg, s, id, value, s')
    ensures HonestFates(s, s', false)
  {
    var bridged, s1 :|
      Bridged(cfg, s, id, value, bridged) && FailureHandled(s, id, bridged, s1) && s' == Notified(s1, id, bridged);
    FailureIsHonest(s, id, bridged, s1);
  }

  lemma PunishIsHonest(cfg: Config, s: State, id: Id, s': State)
    requires StrikeWorker(cfg, s, id, s') || DropWorker(cfg, s, id, s')
    ensures HonestFates(s, s', false)
  {
    if Served(s.workers, id) {
      var a, strikes :| a in s.workers && Trimmed(cfg, WithStrikes(s, a, strikes), s');
      TrimIsHonest(cfg, WithStrikes(s, a, strikes), s');
    }
  }

  lemma StepKeepsDuplicates(cfg: Config, s: State, e: Event, s': State)
    requires Inv(s) && DuplicatesRepeat(s) && Step(cfg, s, e, s')
    ensures DuplicatesRepeat(s')
  {
    StepIsHonest(cfg, s, e, s');
    StepSubmits(cfg, s, e, s');
    HonestKeeps(s, s', e.Ready?);
  }

  /** Over every run: whatever is on the books as a duplicate was submitted at least twice. */
  lemma {:induction false} DuplicatesWereRepeated(cfg: Config, states: seq<State>, events: seq<Event>, i: nat)
    requires Run(cfg, states, events) && i < |states|
    ensures DuplicatesRepeat(states[i])
  {
    if i > 0 {
      DuplicatesWereRepeated(cfg, states, events, i - 1);
      RunInv(cfg, states, events, i - 1);
      StepKeepsDuplicates(cfg, states[i - 1], events[i - 1], states[i]);
    }
  }
}
