/** How long requests are queued, in numbers: two hours, counted from their assignment. */
module Expiry {
  import opened Network
  import opened Worker
  import opened RegistryModel
  import opened RegistryInvariant
  import opened RegistryFrames
  import opened RegistryTheorems
  import opened BoundedWaiting

  /** Queued for at most two hours. */
  predicate Young(p: Pending, now: Instant) {
    now - p.queuedAt <= 7_200_000_000_000
  }

  lemma YoungIff(p: Pending, now: Instant)
    ensures Young(p, now) <==> !Outlived(p, now)
  {
  }

  lemma {:induction false} ChainOnlyRemoves(tr: seq<Cursor>, i: nat, p: Pending)
    requires RetryChain(tr) && i < |tr| && p in tr[i].s.pending
    ensures p in tr[0].s.pending
  {
    if i > 0 {
      assert Retry(tr[i - 1], tr[i]);
      var ws, out :| RetryWith(tr[i - 1], ws, out, tr[i]);
      var q, k := tr[i - 1].s.pending, tr[i - 1].k;
      assert tr[i].s.pending == q || tr[i].s.pending == q[..k] + q[k + 1..];
      ChainOnlyRemoves(tr, i - 1, p);
    }
  }

  lemma DrainLeavesYoung(s: State, s': State, p: Pending)
    requires Drained(s, s') && p in s'.pending
    ensures p in s.pending && Young(p, s.now) && s'.now == s.now
  {
    DrainFrame(s, s');
    var tr: seq<Cursor> :| DrainTrace(s, tr, s');
    ChainOnlyRemoves(tr, |tr| - 1, p);
    UnexpiredMembers(s.pending, s.now);
    YoungIff(p, s.now);
  }

  /** After every registration, and after every command that frees a worker, whatever is still
      queued was queued before and for at most two hours. */
  lemma OnlyTheYoungWait(cfg: Config, s: State, e: Event, s': State, p: Pending)
    requires Step(cfg, s, e, s') && (e.Ready? || Frees(s, e)) && p in s'.pending
    ensures p in s.pending && Young(p, s'.now)
  {
    match e
    case Ready(addr, reg) =>
      var stale :| StaleChoice(s, addr, reg, stale) && Drained(Enlisted(s, addr, reg, stale), s');
      DrainLeavesYoung(Enlisted(s, addr, reg, stale), s', p);
    case Complete(id) =>
      var a :| a in s.workers && s.workers[a].BusyWith(id) && Drained(Finish(s, id, a), s');
      DrainLeavesYoung(Finish(s, id, a), s', p);
    case Respond(id, value) => FailureLeavesYoung(cfg, s, id, value, s', p);
  }

  lemma FailureLeavesYoung(cfg: Config, s: State, id: Id, value: Option<Status>, s': State, p: Pending)
    requires StatusResponse(cfg, s, id, value, s') && Frees(s, Respond(id, value)) && p in s'.pending
    ensures p in s.pending && Young(p, s'.now)
  {
    var bridged, s1 :|
      Bridged(cfg, s, id, value, bridged) && FailureHandled(s, id, bridged, s1) && s' == Notified(s1, id, bridged);
    var a :| a in s.workers && s.workers[a].BusyWith(id) && Drained(Abandon(s, id, a), s1);
    DrainLeavesYoung(Abandon(s, id, a), s1, p);
  }

  /** And nobody younger than that ever leaves the queue but by being sent out, nor moves back. */
  lemma TheYoungAreKept(cfg: Config, states: seq<State>, events: seq<Event>, i: nat, k: nat, name: Id -> Request)
    requires Run(cfg, states, events) && i < |events| && NamesAgree(events, name)
    requires k < |states[i].pending| && Young(states[i].pending[k], states[i].now)
    ensures Advanced(states[i], k, states[i + 1], 0)
  {
    RunInv(cfg, states, events, i);
    RetriesNeverDouble(cfg, states, events, i, name);
    YoungIff(states[i].pending[k], states[i].now);
    StepAdvances(cfg, states[i], events[i], states[i + 1], k, name);
  }

  /** Every queued request was assigned, and is queued since then. */
  lemma {:induction false} QueuedSinceAssigned(cfg: Config, states: seq<State>, events: seq<Event>, i: nat, p: Pending)
    returns (j: nat)
    requires Run(cfg, states, events) && i < |states| && p in states[i].pending
    ensures j < i && events[j] == Assign(p.req) && p.queuedAt == states[j].now
  {
    assert i > 0;
    QueuedBefore(cfg, states[i - 1], events[i - 1], states[i], p);
    if p in states[i - 1].pending {
      j := QueuedSinceAssigned(cfg, states, events, i - 1, p);
    } else {
      j := i - 1;
    }
  }

  lemma QueuedBefore(cfg: Config, s: State, e: Event, s': State, p: Pending)
    requires Step(cfg, s, e, s') && p in s'.pending
    ensures p in s.pending || (e == Assign(p.req) && p.queuedAt == s.now)
  {
    match e
    case Assign(r) => AssignQueues(cfg, s, r, s', p);
    case Ready(addr, reg) => OnlyTheYoungWait(cfg, s, e, s', p);
    case Complete(id) =>
      if Served(s.workers, id) {
        OnlyTheYoungWait(cfg, s, e, s', p);
      }
    case Respond(id, value) =>
      if Frees(s, e) {
        OnlyTheYoungWait(cfg, s, e, s', p);
      } else {
        NoFailureNoDrain(cfg, s, id, value, s');
      }
    case Poll(id, to) => PollFrame(cfg, s, id, to, s');
    case Strike(id) => PunishFrame(cfg, s, id, s');
    case DropOf(id) => PunishFrame(cfg, s, id, s');
    case _ =>
  }

  lemma NoFailureNoDrain(cfg: Config, s: State, id: Id, value: Option<Status>, s': State)
    requires StatusResponse(cfg, s, id, value, s') && !Frees(s, Respond(id, value))
    ensures s'.pending == s.pending
  {
    var bridged, s1 :|
      Bridged(cfg, s, id, value, bridged) && FailureHandled(s, id, bridged, s1) && s' == Notified(s1, id, bridged);
  }

  lemma AssignQueues(cfg: Config, s: State, r: Request, s': State, p: Pending)
    requires AssignProof(cfg, s, r, s') && p in s'.pending
    ensures p in s.pending || (p.req == r && p.queuedAt == s.now)
  {
    var s0 := s.(submitted := s.submitted + [r.id]);
    var s1 :| Trimmed(cfg, s0, s1) && AssignNow(s1, r, s');
    TrimFrame(cfg, s0, s1);
    var ws, out :| AssignTried(s1, r, ws, out, s');
    SettledFrame(s1, r, ws, out);
  }
}
