/** The OpenVM jobs together with the worker registry.  What the handlers send travels through
    the registry's command channel, and what a poll hears is what the registry answered. */
module OpenVmSystem {
  import opened Network
  import opened Worker
  import opened RegistryModel
  import opened Ledger
  import opened RegistryInvariant
  import opened RegistryFrames
  import opened RegistryTheorems
  import opened Responders
  import opened Duplicates
  import opened ProofStatus
  import J = OpenVmJobs

  /** `orders` are the commands the handlers have sent, oldest first, of which the registry has
      taken up the first `served`.  `troubled` logs the requests whose worker was found hung up
      by a poll, reported them unexecutable, or did not know them after the grace time. */
  datatype System = System(desk: J.Desk, orders: seq<Event>, served: nat, registry: State, troubled: set<Id>)

  datatype Move =
    | Handler(act: J.Action)
    | Serve
    | Other(event: Event) // other clients, workers, clocks, channels

  function Start(now: Instant, wall: WallTime): System {
    System(J.Opening, [], 0, Initial(now, wall), {})
  }

  // The command a step of a handler sends to the registry.
  function OrderOf(d: J.Desk, act: J.Action): seq<Event> {
    match act
    case CreateJob(_, request, program, _, _, mode, routed) =>
      if routed && program in d.programs then [Assign(OpenVmRequest(request, mode, d.programs[program]))] else []
    case Advance(p, step) =>
      if p in d.polls then
        match (d.polls[p], step)
        case (Asking(_, seen), AskRegistry) => [Event.Poll(seen.request, p)]
        case (Accepted(_, seen, _, _), TellRegistry) => [Complete(seen.request)]
        case (Refused(_, seen), DropWorker) => [DropOf(seen.request)]
        case _ => []
      else []
    case _ => []
  }

  /** Poll `p` may hear `status`: the registry answered it so, or the wait timed out. */
  predicate Hears(s: State, p: Responder, status: ClientStatus) {
    || status == Assigned
    || exists i :: 0 <= i < |s.answers| && s.answers[i].to == p
                   && ClientView(Relayed(s.answers[i].value)) == Converted(status)
  }

  predicate HungUp(s: State, id: Id) {
    exists a :: a in s.workers && s.workers[a].BusyWith(id) && s.workers[a].channel in s.closed
  }

  predicate Unfulfilled(value: Option<Status>) {
    value.None? || value.value.execution == UNEXECUTABLE
  }

  // An "unknown" that is bridged during the grace time is no trouble.
  function TroubleOf(cfg: Config, s: State, e: Event, s': State): set<Id> {
    if e.Poll? && HungUp(s', e.id) then {e.id}
    else if e.Respond? && Unfulfilled(RelayedValue(cfg, s, e.id, e.value)) then {e.id}
    else {}
  }

  // Ids are drawn fresh, whoever draws them; only its own handlers complete an OpenVM request.
  ghost predicate Moves(cfg: Config, v: J.Verifier, y: System, move: Move, y': System) {
    match move
    case Handler(act) =>
      && J.Act(v, y.desk, act, y'.desk)
      && y' == y.(desk := y'.desk, orders := y.orders + OrderOf(y.desk, act))
      && (act.LoadJob? ==> act.poll !in y.registry.asked)
      && (act.CreateJob? ==> act.request !in y.registry.submitted)
      && (act.Advance? && act.step.RegistryAnswers? ==> Hears(y.registry, act.poll, act.step.status))
    case Serve =>
      && y.served < |y.orders| && Step(cfg, y.registry, y.orders[y.served], y'.registry)
      && y' == y.(registry := y'.registry, served := y.served + 1,
                  troubled := y.troubled + TroubleOf(cfg, y.registry, y.orders[y.served], y'.registry))
    case Other(e) =>
      && Step(cfg, y.registry, e, y'.registry)
      && y' == y.(registry := y'.registry, troubled := y.troubled + TroubleOf(cfg, y.registry, e, y'.registry))
      && (e.Poll? ==> e.to !in y.registry.asked && e.to !in y.desk.used)
      && (e.Assign? ==> e.req.id !in y.registry.submitted && !J.Requested(y.desk, e.req.id))
      && (e.Complete? ==> !J.Requested(y.desk, e.id))
  }

  ghost predicate SystemRun(cfg: Config, v: J.Verifier, ys: seq<System>, moves: seq<Move>) {
    && |ys| == |moves| + 1 && ys[0] == Start(ys[0].registry.now, ys[0].registry.wall)
    && forall i :: 0 <= i < |moves| ==> Moves(cfg, v, ys[i], moves[i], ys[i + 1])
  }

  // ---------- what the channel keeps ----------

  predicate HasAsked(poll: J.Poll, id: Id) {
    !poll.Loaded? && !poll.Asking? && poll.seen.request == id
  }

  ghost predicate OrderOk(y: System, k: nat)
    requires k < |y.orders|
  {
    match y.orders[k]
    case Assign(r) => J.Requested(y.desk, r.id) && (r.id in y.registry.submitted <==> k < y.served)
    case Poll(id, p) =>
      && J.Requested(y.desk, id) && p in y.desk.used && (k >= y.served ==> p !in y.registry.asked)
      && (p in y.desk.polls ==> HasAsked(y.desk.polls[p], id))
    case Complete(id) => J.Requested(y.desk, id)
    case DropOf(id) => J.Requested(y.desk, id)
    case _ => false
  }

  // Requests are assigned once and polled after that; a poll asks once.
  predicate Compatible(e: Event, f: Event) {
    && (e.Assign? && f.Assign? ==> e.req.id != f.req.id)
    && (e.Poll? && f.Poll? ==> e.to != f.to)
    && (e.Poll? && f.Assign? ==> e.id != f.req.id)
  }

  ghost predicate OrdersOk(y: System) {
    && y.served <= |y.orders|
    && (forall k :: 0 <= k < |y.orders| ==> OrderOk(y, k))
    && (forall k, m :: 0 <= k < m < |y.orders| ==> Compatible(y.orders[k], y.orders[m]))
  }

  /** The registry has taken up this very command. */
  ghost predicate Took(y: System, e: Event) {
    exists k :: 0 <= k < y.served && k < |y.orders| && y.orders[k] == e
  }

  ghost predicate RegistryOk(y: System) {
    && Inv(y.registry) && RespondersOk(y.registry)
    && (forall id :: multiset(y.registry.submitted)[id] <= 1)
    && (forall p :: p in y.desk.used && p in y.registry.asked ==> exists id :: Took(y, Event.Poll(id, p)))
    && (forall id, p :: p in y.desk.used && WaitsOn(y.registry, id, p) ==> Took(y, Event.Poll(id, p)))
    && (forall i :: 0 <= i < |y.registry.history| && J.Requested(y.desk, y.registry.history[i].id) ==>
          Took(y, Complete(y.registry.history[i].id)))
  }

  ghost predicate DeskOk(v: J.Verifier, y: System) {
    && J.Sound(v, y.desk)
    && (forall x, x' :: x in y.desk.jobs && x' in y.desk.jobs && y.desk.jobs[x].request == y.desk.jobs[x'].request ==> x == x')
    && (forall p :: p in y.desk.polls ==> p in y.desk.used)
  }

  // ---------- why a poll may hear that its request is lost ----------

  lemma UnfulfilledIff(value: Option<Status>, status: ClientStatus)
    requires ClientView(Relayed(value)) == Converted(status)
    ensures status.fulfillment == UNFULFILLABLE <==> Unfulfilled(value)
  {
  }

  ghost predicate HasFate(s: State, id: Id) {
    exists end :: IsAt(s, id, Ended(end))
  }

  /** The registry was told that the request is complete, recorded another end for it, or had
      trouble with its worker. */
  ghost predicate Explained(y: System, id: Id) {
    Took(y, Complete(id)) || HasFate(y.registry, id) || id in y.troubled
  }

  ghost predicate Routed(y: System, id: Id) {
    exists k :: 0 <= k < |y.orders| && y.orders[k].Assign? && y.orders[k].req.id == id
  }

  ghost predicate AnswerOk(y: System, i: nat)
    requires i < |y.registry.answers|
  {
    var a := y.registry.answers[i];
    forall id :: a.to in y.desk.used && Took(y, Event.Poll(id, a.to)) && Routed(y, id) && Unfulfilled(a.value) ==>
      Explained(y, id)
  }

  ghost predicate AnswersOk(y: System) {
    forall i :: 0 <= i < |y.registry.answers| ==> AnswerOk(y, i)
  }

  ghost predicate SysInv(v: J.Verifier, y: System) {
    DeskOk(v, y) && OrdersOk(y) && RegistryOk(y) && AnswersOk(y)
  }

  // ---------- handlers ----------

  lemma HandlerKeepsDesk(v: J.Verifier, y: System, act: J.Action, y': System)
    requires DeskOk(v, y) && J.Act(v, y.desk, act, y'.desk)
    ensures DeskOk(v, y')
  {
    J.ActKeepsSound(v, y.desk, act, y'.desk);
    HandlerFrame(v, y.desk, act, y'.desk);
    J.ActPersists(v, y.desk, act, y'.desk);
    forall x, x' | x in y'.desk.jobs && x' in y'.desk.jobs && y'.desk.jobs[x].request == y'.desk.jobs[x'].request
      ensures x == x'
    {
      if x in y.desk.jobs && x' in y.desk.jobs {
        assert J.SameJob(y.desk.jobs[x], y'.desk.jobs[x]) && J.SameJob(y.desk.jobs[x'], y'.desk.jobs[x']);
      }
    }
  }

  lemma HandlerFrame(v: J.Verifier, d: J.Desk, act: J.Action, d': J.Desk)
    requires J.Act(v, d, act, d')
    ensures d'.used == if act.LoadJob? then d.used + {act.poll} else d.used
    ensures forall x :: x in d'.jobs && x !in d.jobs ==>
              act.CreateJob? && x == act.job && d'.jobs[x].request == act.request
    ensures forall p :: p in d'.polls && p !in d.polls ==> act.LoadJob? && p == act.poll
  {
    if act.Advance? {
      EffectFrame(d, d.polls[act.poll], act.step);
      LandFrame(J.Effect(d, d.polls[act.poll], act.step), act.poll, d.polls[act.poll].job,
                J.NextOf(v, d, d.polls[act.poll], act.step));
    } else if act.LoadJob? {
      LandFrame(d.(used := d.used + {act.poll}), act.poll, act.job, J.LoadNext(d, act.job));
    }
  }

  lemma EffectFrame(d: J.Desk, poll: J.Poll, step: J.PollStep)
    ensures var e := J.Effect(d, poll, step); e.used == d.used && e.polls == d.polls && e.jobs.Keys == d.jobs.Keys
  {
  }

  lemma LandFrame(d: J.Desk, p: J.PollId, job: J.JobId, next: J.Next)
    ensures var e := J.Land(d, p, job, next);
            e.used == d.used && e.jobs == d.jobs && forall q :: q in e.polls ==> q in d.polls || q == p
  {
  }

  lemma RequestedStays(d: J.Desk, d': J.Desk, id: Id)
    requires J.Persists(d, d') && J.Requested(d, id)
    ensures J.Requested(d', id)
  {
    var x :| x in d.jobs && d.jobs[x].request == id;
    assert x in d'.jobs && d'.jobs[x].request == id;
  }

  lemma NextHasAsked(v: J.Verifier, d: J.Desk, poll: J.Poll, step: J.PollStep, id: Id)
    requires J.NextOf(v, d, poll, step).Go? && HasAsked(poll, id)
    ensures HasAsked(J.NextOf(v, d, poll, step).poll, id)
  {
  }

  lemma StaysAsked(v: J.Verifier, d: J.Desk, act: J.Action, d': J.Desk, p: J.PollId, id: Id)
    requires J.Act(v, d, act, d') && p in d'.polls && p in d.used && (p in d.polls ==> HasAsked(d.polls[p], id))
    ensures HasAsked(d'.polls[p], id)
  {
    if !J.ActsFor(act, p) {
      J.OthersLeavePoll(v, d, act, p);
    } else {
      J.EffectLeavesPolls(d, d.polls[p], act.step);
      NextHasAsked(v, d, d.polls[p], act.step, id);
    }
  }

  lemma HandlerKeepsOldOrders(v: J.Verifier, y: System, act: J.Action, y': System, k: nat)
    requires DeskOk(v, y) && OrdersOk(y) && J.Act(v, y.desk, act, y'.desk) && k < |y.orders|
    requires y'.registry == y.registry && y'.served == y.served && k < |y'.orders| && y'.orders[k] == y.orders[k]
    ensures OrderOk(y', k)
  {
    J.ActPersists(v, y.desk, act, y'.desk);
    HandlerFrame(v, y.desk, act, y'.desk);
    assert OrderOk(y, k);
    match y.orders[k]
    case Assign(r) => RequestedStays(y.desk, y'.desk, r.id);
    case Poll(id, p) =>
      RequestedStays(y.desk, y'.desk, id);
      if p in y'.desk.polls {
        StaysAsked(v, y.desk, act, y'.desk, p, id);
      }
    case Complete(id) => RequestedStays(y.desk, y'.desk, id);
    case DropOf(id) => RequestedStays(y.desk, y'.desk, id);
  }

  // The command a handler sends fits in behind those sent before.
  lemma NewOrderOk(cfg: Config, v: J.Verifier, y: System, act: J.Action, y': System)
    requires SysInv(v, y) && Moves(cfg, v, y, Handler(act), y') && OrderOf(y.desk, act) != []
    ensures OrderOk(y', |y.orders|)
    ensures forall k :: 0 <= k < |y.orders| ==> Compatible(y.orders[k], OrderOf(y.desk, act)[0])
  {
    J.ActPersists(v, y.desk, act, y'.desk);
    HandlerFrame(v, y.desk, act, y'.desk);
    assert y'.orders[|y.orders|] == OrderOf(y.desk, act)[0];
    if act.CreateJob? {
      NewAssignOk(v, y, act, y');
    } else {
      var poll := y.desk.polls[act.poll];
      assert J.PollOk(v, y.desk, poll);
      assert J.Requested(y.desk, poll.seen.request) by {
        assert poll.job in y.desk.jobs && y.desk.jobs[poll.job].request == poll.seen.request;
      }
      RequestedStays(y.desk, y'.desk, poll.seen.request);
      if act.step.AskRegistry? {
        NewPollOk(v, y, act.poll, y');
      }
    }
  }

  lemma NewAssignOk(v: J.Verifier, y: System, act: J.Action, y': System)
    requires OrdersOk(y) && act.CreateJob? && J.Act(v, y.desk, act, y'.desk) && OrderOf(y.desk, act) != []
    ensures J.Requested(y'.desk, act.request)
    ensures forall k :: 0 <= k < |y.orders| ==> Compatible(y.orders[k], OrderOf(y.desk, act)[0])
  {
    assert y'.desk.jobs[act.job].request == act.request;
    forall k | 0 <= k < |y.orders| ensures Compatible(y.orders[k], OrderOf(y.desk, act)[0]) {
      assert OrderOk(y, k);
    }
  }

  lemma NewPollOk(v: J.Verifier, y: System, p: J.PollId, y': System)
    requires DeskOk(v, y) && OrdersOk(y) && RegistryOk(y) && J.Act(v, y.desk, J.Advance(p, J.AskRegistry), y'.desk)
    ensures p in y.desk.polls && y.desk.polls[p].Asking? && p in y.desk.used && p !in y.registry.asked
    ensures p in y'.desk.polls && HasAsked(y'.desk.polls[p], y.desk.polls[p].seen.request)
    ensures forall k :: 0 <= k < |y.orders| && y.orders[k].Poll? ==> y.orders[k].to != p
  {
    J.EffectLeavesPolls(y.desk, y.desk.polls[p], J.AskRegistry);
    forall k | 0 <= k < |y.orders| && y.orders[k].Poll? ensures y.orders[k].to != p {
      assert OrderOk(y, k);
    }
    assert forall id :: !Took(y, Event.Poll(id, p));
  }

  lemma HandlerKeepsOrders(cfg: Config, v: J.Verifier, y: System, act: J.Action, y': System)
    requires SysInv(v, y) && Moves(cfg, v, y, Handler(act), y')
    ensures OrdersOk(y')
  {
    forall k | 0 <= k < |y.orders| ensures OrderOk(y', k) {
      HandlerKeepsOldOrders(v, y, act, y', k);
    }
    if OrderOf(y.desk, act) != [] {
      NewOrderOk(cfg, v, y, act, y');
    }
  }

  lemma TookStays(y: System, y': System, e: Event)
    requires y.orders <= y'.orders && y.served <= y'.served && Took(y, e)
    ensures Took(y', e)
  {
    var k :| 0 <= k < y.served && k < |y.orders| && y.orders[k] == e;
    assert y'.orders[k] == e;
  }

  lemma TookSame(y: System, y': System, e: Event)
    requires y.orders <= y'.orders && y'.served == y.served <= |y.orders| && Took(y', e)
    ensures Took(y, e)
  {
    var k :| 0 <= k < y'.served && k < |y'.orders| && y'.orders[k] == e;
    assert y.orders[k] == e;
  }

  lemma HandlerKeepsRegistry(cfg: Config, v: J.Verifier, y: System, act: J.Action, y': System)
    requires SysInv(v, y) && Moves(cfg, v, y, Handler(act), y')
    ensures RegistryOk(y')
  {
    HandlerFrame(v, y.desk, act, y'.desk);
    forall p | p in y'.desk.used && p in y.registry.asked ensures exists id :: Took(y', Event.Poll(id, p)) {
      var id :| Took(y, Event.Poll(id, p));
      TookStays(y, y', Event.Poll(id, p));
    }
    forall id, p | p in y'.desk.used && WaitsOn(y.registry, id, p) ensures Took(y', Event.Poll(id, p)) {
      assert p in y.registry.asked;
      TookStays(y, y', Event.Poll(id, p));
    }
    forall i | 0 <= i < |y.registry.history| && J.Requested(y'.desk, y.registry.history[i].id)
      ensures Took(y', Complete(y.registry.history[i].id))
    {
      var id := y.registry.history[i].id;
      FinishedWasSubmitted(y.registry, id, i);
      OldRequest(v, y.desk, act, y'.desk, id);
      TookStays(y, y', Complete(id));
    }
  }

  lemma OldRequest(v: J.Verifier, d: J.Desk, act: J.Action, d': J.Desk, id: Id)
    requires J.Act(v, d, act, d') && J.Requested(d', id) && (act.CreateJob? ==> act.request != id)
    ensures J.Requested(d, id)
  {
    J.ActPersists(v, d, act, d');
    HandlerFrame(v, d, act, d');
    var x :| x in d'.jobs && d'.jobs[x].request == id;
    assert x in d.jobs && J.SameJob(d.jobs[x], d'.jobs[x]);
  }

  lemma FinishedWasSubmitted(s: State, id: Id, i: nat)
    requires Inv(s) && i < |s.history| && s.history[i].id == id
    ensures id in s.submitted
  {
    CountsLocate(s, id);
    assert IsAt(s, id, Finished);
    assert multiset(s.submitted)[id] == Places(s, id);
  }

  // An answer already given stays explained.
  lemma AnswerStays(y: System, y': System, i: nat)
    requires AnswersOk(y) && OrdersOk(y') && y.orders <= y'.orders
    requires i < |y.registry.answers| && y.registry.answers <= y'.registry.answers
    requires forall id :: Explained(y, id) ==> Explained(y', id)
    requires var p := y.registry.answers[i].to;
             && (p in y'.desk.used ==> p in y.desk.used)
             && (forall id :: Took(y', Event.Poll(id, p)) ==> Took(y, Event.Poll(id, p)))
    ensures AnswerOk(y', i)
  {
    var a := y.registry.answers[i];
    assert AnswerOk(y, i) && y'.registry.answers[i] == a;
    forall id | a.to in y'.desk.used && Took(y', Event.Poll(id, a.to)) && Routed(y', id) && Unfulfilled(a.value)
      ensures Explained(y', id)
    {
      RoutedBefore(y, y', id, a.to);
    }
  }

  lemma HandlerKeepsAnswers(cfg: Config, v: J.Verifier, y: System, act: J.Action, y': System)
    requires SysInv(v, y) && Moves(cfg, v, y, Handler(act), y') && OrdersOk(y')
    ensures AnswersOk(y')
  {
    HandlerFrame(v, y.desk, act, y'.desk);
    forall id | Explained(y, id) ensures Explained(y', id) {
      if Took(y, Complete(id)) {
        TookStays(y, y', Complete(id));
      }
    }
    forall i | 0 <= i < |y'.registry.answers| ensures AnswerOk(y', i) {
      var p := y.registry.answers[i].to;
      assert Answered(y.registry, p) && p in y.registry.asked;
      forall id | Took(y', Event.Poll(id, p)) ensures Took(y, Event.Poll(id, p)) {
        TookSame(y, y', Event.Poll(id, p));
      }
      AnswerStays(y, y', i);
    }
  }

  // A request that was polled for is not assigned afterwards.
  lemma RoutedBefore(y: System, y': System, id: Id, p: Responder)
    requires OrdersOk(y') && y.orders <= y'.orders && Took(y, Event.Poll(id, p)) && Routed(y', id)
    ensures Routed(y, id)
  {
    var k :| 0 <= k < y.served && k < |y.orders| && y.orders[k] == Event.Poll(id, p);
    var m :| 0 <= m < |y'.orders| && y'.orders[m].Assign? && y'.orders[m].req.id == id;
    assert y'.orders[k] == Event.Poll(id, p);
    assert m < k ==> y.orders[m] == y'.orders[m];
  }

  lemma HandlerKeepsInv(cfg: Config, v: J.Verifier, y: System, act: J.Action, y': System)
    requires SysInv(v, y) && Moves(cfg, v, y, Handler(act), y')
    ensures SysInv(v, y')
  {
    HandlerKeepsDesk(v, y, act, y');
    HandlerKeepsOrders(cfg, v, y, act, y');
    HandlerKeepsRegistry(cfg, v, y, act, y');
    HandlerKeepsAnswers(cfg, v, y, act, y');
  }

  // ---------- the registry's moves ----------

  // The command or surrounding step the registry takes in this move.
  predicate Takes(y: System, move: Move, e: Event) {
    match move
    case Handler(_) => false
    case Serve => y.served < |y.orders| && e == y.orders[y.served]
    case Other(f) => e == f
  }

  lemma TakenKeepsOrders(cfg: Config, v: J.Verifier, y: System, move: Move, e: Event, y': System)
    requires SysInv(v, y) && Moves(cfg, v, y, move, y') && Takes(y, move, e)
    ensures OrdersOk(y')
  {
    StepSubmits(cfg, y.registry, e, y'.registry);
    StepAsks(cfg, y.registry, e, y'.registry);
    forall k | 0 <= k < |y.orders| ensures OrderOk(y', k) {
      assert OrderOk(y, k);
      if move.Serve? {
        assert k < y.served ==> Compatible(y.orders[k], e);
        assert k > y.served ==> Compatible(e, y.orders[k]);
      }
    }
  }

  // A responder that waits after a step waited before it, or the step is its poll.
  lemma StepWaits(cfg: Config, s: State, e: Event, s': State, id: Id, p: Responder)
    requires Step(cfg, s, e, s') && WaitsOn(s', id, p)
    ensures WaitsOn(s, id, p) || e == Event.Poll(id, p)
  {
    if e.Poll? {
      PollShape(cfg, s, e.id, e.to, s');
    } else if e.Respond? {
      var bridged, s1 :|
        Bridged(cfg, s, e.id, e.value, bridged) && FailureHandled(s, e.id, bridged, s1) && s' == Notified(s1, e.id, bridged);
      FailureFrame(s, e.id, bridged, s1);
    } else {
      OtherLogsUnchanged(cfg, s, e, s');
    }
  }

  lemma ServedIsTaken(y: System, move: Move, e: Event, y': System)
    requires move.Serve? && Takes(y, move, e) && y'.orders == y.orders && y'.served == y.served + 1
    ensures Took(y', e)
  {
    assert y'.orders[y.served] == e;
  }

  lemma TakenKeepsRegistry(cfg: Config, v: J.Verifier, y: System, move: Move, e: Event, y': System)
    requires SysInv(v, y) && Moves(cfg, v, y, move, y') && Takes(y, move, e)
    ensures RegistryOk(y')
  {
    var s, s' := y.registry, y'.registry;
    if move.Serve? {
      assert OrderOk(y, y.served);
      ServedIsTaken(y, move, e, y');
    }
    StepKeeps(cfg, s, e, s');
    StepKeepsResponders(cfg, s, e, s');
    StepSubmits(cfg, s, e, s');
    StepAsks(cfg, s, e, s');
    forall p | p in y'.desk.used && p in s'.asked ensures exists id :: Took(y', Event.Poll(id, p)) {
      if p in s.asked {
        var id :| Took(y, Event.Poll(id, p));
        TookStays(y, y', Event.Poll(id, p));
      } else {
        assert e == Event.Poll(e.id, p);
      }
    }
    forall id, p | p in y'.desk.used && WaitsOn(s', id, p) ensures Took(y', Event.Poll(id, p)) {
      StepWaits(cfg, s, e, s', id, p);
      if WaitsOn(s, id, p) {
        TookStays(y, y', Event.Poll(id, p));
      }
    }
    TakenKeepsHistory(cfg, v, y, move, e, y');
  }

  lemma TakenKeepsHistory(cfg: Config, v: J.Verifier, y: System, move: Move, e: Event, y': System)
    requires SysInv(v, y) && Moves(cfg, v, y, move, y') && Takes(y, move, e)
    ensures forall i :: 0 <= i < |y'.registry.history| && J.Requested(y'.desk, y'.registry.history[i].id) ==>
              Took(y', Complete(y'.registry.history[i].id))
  {
    StepFinishes(cfg, y.registry, e, y'.registry);
    if move.Serve? {
      ServedIsTaken(y, move, e, y');
    }
    forall i | 0 <= i < |y'.registry.history| && J.Requested(y'.desk, y'.registry.history[i].id)
      ensures Took(y', Complete(y'.registry.history[i].id))
    {
      if i < |y.registry.history| {
        assert y'.registry.history[i] == y.registry.history[i];
        TookStays(y, y', Complete(y.registry.history[i].id));
      }
    }
  }

  // ---------- new answers ----------

  lemma PollAnswers(cfg: Config, s: State, id: Id, to: Responder, s': State)
    requires Inv(s) && Step(cfg, s, Event.Poll(id, to), s')
    ensures || s'.answers == s.answers
            || s'.answers == s.answers + [Answer(to, Some(Unexecuted))]
            || (s'.answers == s.answers + [Answer(to, None)] && OutOfReach(s', id))
  {
    PollFindsLiveRequests(cfg, s, id, to, s');
    var s1 :| Trimmed(cfg, s.(asked := s.asked + [to]), s1) && StatusLookup(cfg, s1, id, to, s');
    TrimFrame(cfg, s.(asked := s.asked + [to]), s1);
    LookupAnswers(cfg, s1, id, to, s');
  }

  lemma LookupAnswers(cfg: Config, s: State, id: Id, to: Responder, s': State)
    requires StatusLookup(cfg, s, id, to, s')
    ensures || s'.answers == s.answers
            || s'.answers == s.answers + [Answer(to, Some(Unexecuted))]
            || s'.answers == s.answers + [Answer(to, None)]
  {
  }

  /** A new answer that reads as a loss has its reason: the worker's bad news, a worker that hung
      up, or a request that the registry does not hold. */
  lemma NewAnswers(cfg: Config, s: State, e: Event, s': State, i: nat)
    requires Inv(s) && Step(cfg, s, e, s') && |s.answers| <= i < |s'.answers|
    ensures s.answers <= s'.answers
    ensures (e.Poll? && s'.answers[i].to == e.to) || (e.Respond? && WaitsOn(s, e.id, s'.answers[i].to))
    ensures Unfulfilled(s'.answers[i].value) ==>
              || e.id in TroubleOf(cfg, s, e, s')
              || (!Served(s'.workers, e.id) && !InQueue(s'.pending, e.id))
  {
    if e.Poll? {
      PollAnswers(cfg, s, e.id, e.to, s');
    } else if e.Respond? {
      OneValueForAllWaiters(cfg, s, e.id, e.value, s');
      if e.id in s.awaiting {
        assert s'.answers[i].to == s.awaiting[e.id][i - |s.answers|];
      }
    } else {
      OtherLogsUnchanged(cfg, s, e, s');
      assert false;
    }
  }

  lemma AnswersGrow(cfg: Config, s: State, e: Event, s': State)
    requires Inv(s) && Step(cfg, s, e, s')
    ensures s.answers <= s'.answers
  {
    if e.Poll? {
      PollAnswers(cfg, s, e.id, e.to, s');
    } else if e.Respond? {
      OneValueForAllWaiters(cfg, s, e.id, e.value, s');
    } else {
      OtherLogsUnchanged(cfg, s, e, s');
    }
  }

  lemma FatesStay(cfg: Config, s: State, e: Event, s': State, id: Id)
    requires Inv(s) && Step(cfg, s, e, s') && HasFate(s, id)
    ensures HasFate(s', id)
  {
    StepIsHonest(cfg, s, e, s');
    var end :| IsAt(s, id, Ended(end));
    assert IsAt(s', id, Ended(end));
  }

  // What the registry was given and does not hold any more is completed or has another end.
  lemma NotHeldIsOver(v: J.Verifier, y: System, id: Id)
    requires OrdersOk(y) && RegistryOk(y) && J.Requested(y.desk, id) && id in y.registry.submitted
    requires !Served(y.registry.workers, id) && !InQueue(y.registry.pending, id)
    ensures Explained(y, id)
  {
    var s := y.registry;
    CountsLocate(s, id);
    assert multiset(s.submitted)[id] == Places(s, id);
    if IsAt(s, id, Finished) {
      var i :| 0 <= i < |s.history| && s.history[i].id == id;
      assert Took(y, Complete(s.history[i].id));
    }
  }

  // An answered poll was taken up before.
  lemma TookEarlier(y: System, y': System, id: Id, p: Responder)
    requires OrdersOk(y) && y'.orders == y.orders && y'.served <= y.served + 1
    requires p in y.registry.asked && Took(y', Event.Poll(id, p))
    ensures Took(y, Event.Poll(id, p))
  {
    var k :| 0 <= k < y'.served && k < |y'.orders| && y'.orders[k] == Event.Poll(id, p);
    assert OrderOk(y, k);
  }

  lemma OldAnswerStays(cfg: Config, v: J.Verifier, y: System, move: Move, e: Event, y': System, i: nat)
    requires SysInv(v, y) && Moves(cfg, v, y, move, y') && Takes(y, move, e)
    requires i < |y.registry.answers| && y.registry.answers <= y'.registry.answers && OrdersOk(y')
    ensures AnswerOk(y', i)
  {
    var p := y.registry.answers[i].to;
    assert Answered(y.registry, p) && p in y.registry.asked;
    forall id | Explained(y, id) ensures Explained(y', id) {
      if Took(y, Complete(id)) {
        TookStays(y, y', Complete(id));
      } else if HasFate(y.registry, id) {
        FatesStay(cfg, y.registry, e, y'.registry, id);
      }
    }
    forall id | Took(y', Event.Poll(id, p)) ensures Took(y, Event.Poll(id, p)) {
      TookEarlier(y, y', id, p);
    }
    AnswerStays(y, y', i);
  }

  lemma NewAnswerIsOk(cfg: Config, v: J.Verifier, y: System, move: Move, e: Event, y': System, i: nat)
    requires SysInv(v, y) && Moves(cfg, v, y, move, y') && Takes(y, move, e) && OrdersOk(y') && RegistryOk(y')
    requires |y.registry.answers| <= i < |y'.registry.answers|
    ensures AnswerOk(y', i)
  {
    var a := y'.registry.answers[i];
    NewAnswers(cfg, y.registry, e, y'.registry, i);
    forall id | a.to in y'.desk.used && Took(y', Event.Poll(id, a.to)) && Routed(y', id) && Unfulfilled(a.value)
      ensures Explained(y', id)
    {
      AnsweredForItsOwn(y, move, e, y', id, a.to);
      TookMeansSubmitted(y', id, a.to);
      if e.id !in TroubleOf(cfg, y.registry, e, y'.registry) {
        NotHeldIsOver(v, y', id);
      }
    }
  }

  // A poll is answered for the request it asked about.
  lemma AnsweredForItsOwn(y: System, move: Move, e: Event, y': System, id: Id, p: Responder)
    requires OrdersOk(y) && RegistryOk(y) && OrdersOk(y') && Takes(y, move, e) && y'.orders == y.orders && y'.desk == y.desk
    requires move.Other? && e.Poll? ==> e.to !in y.desk.used
    requires move.Serve? ==> y'.served == y.served + 1
    requires move.Other? ==> y'.served == y.served
    requires p in y.desk.used && Took(y', Event.Poll(id, p))
    requires (e.Poll? && p == e.to) || (e.Respond? && WaitsOn(y.registry, e.id, p))
    ensures e.id == id
  {
    var k :| 0 <= k < y'.served && k < |y'.orders| && y'.orders[k] == Event.Poll(id, p);
    if e.Poll? {
      assert y'.orders[y.served] == e;
      assert k == y.served;
    } else {
      assert Took(y, Event.Poll(e.id, p));
      var m :| 0 <= m < y.served && m < |y.orders| && y.orders[m] == Event.Poll(e.id, p);
      assert k == m;
    }
  }

  lemma TookMeansSubmitted(y: System, id: Id, p: Responder)
    requires OrdersOk(y) && Took(y, Event.Poll(id, p)) && Routed(y, id)
    ensures id in y.registry.submitted && J.Requested(y.desk, id)
  {
    var k :| 0 <= k < y.served && k < |y.orders| && y.orders[k] == Event.Poll(id, p);
    var m :| 0 <= m < |y.orders| && y.orders[m].Assign? && y.orders[m].req.id == id;
    assert k < m ==> Compatible(y.orders[k], y.orders[m]);
    assert OrderOk(y, m);
  }

  lemma TakenKeepsInv(cfg: Config, v: J.Verifier, y: System, move: Move, e: Event, y': System)
    requires SysInv(v, y) && Moves(cfg, v, y, move, y') && Takes(y, move, e)
    ensures SysInv(v, y')
  {
    TakenKeepsOrders(cfg, v, y, move, e, y');
    TakenKeepsRegistry(cfg, v, y, move, e, y');
    AnswersGrow(cfg, y.registry, e, y'.registry);
    forall i | 0 <= i < |y'.registry.answers| ensures AnswerOk(y', i) {
      if i < |y.registry.answers| {
        OldAnswerStays(cfg, v, y, move, e, y', i);
      } else {
        NewAnswerIsOk(cfg, v, y, move, e, y', i);
      }
    }
  }

  lemma {:induction false} SystemRunInv(cfg: Config, v: J.Verifier, ys: seq<System>, moves: seq<Move>, i: nat)
    requires SystemRun(cfg, v, ys, moves) && i < |ys|
    ensures SysInv(v, ys[i])
  {
    if i == 0 {
      InitialInv(ys[0].registry);
      assert forall r :: !Answered(ys[0].registry, r);
    } else {
      var j := i - 1;
      SystemRunInv(cfg, v, ys, moves, j);
      assert Moves(cfg, v, ys[j], moves[j], ys[j + 1]);
      match moves[j]
      case Handler(act) => HandlerKeepsInv(cfg, v, ys[j], act, ys[j + 1]);
      case Serve => TakenKeepsInv(cfg, v, ys[j], moves[j], ys[j].orders[ys[j].served], ys[j + 1]);
      case Other(e) => TakenKeepsInv(cfg, v, ys[j], moves[j], e, ys[j + 1]);
    }
  }

  // ---------- lost, and why ----------

  /** Some poll of job `x` took `step` in the `t`-th move. */
  predicate PollMoves(ys: seq<System>, moves: seq<Move>, t: nat, x: J.JobId, step: J.PollStep) {
    && t < |moves| && t < |ys| && moves[t].Handler? && moves[t].act.Advance? && moves[t].act.step == step
    && J.Polling(ys[t].desk, moves[t].act.poll, x)
  }

  lemma CompletionSentBy(v: J.Verifier, d: J.Desk, act: J.Action, x: J.JobId)
    requires J.Sound(v, d) && x in d.jobs && J.Enabled(v, d, act) && OrderOf(d, act) == [Complete(d.jobs[x].request)]
    requires forall x' :: x' in d.jobs && d.jobs[x'].request == d.jobs[x].request ==> x' == x
    ensures act.Advance? && act.step.TellRegistry? && J.Polling(d, act.poll, x)
  {
    assert J.PollOk(v, d, d.polls[act.poll]);
  }

  // A completion in the channel was sent by a poll of that job, with an accepted proof in hand.
  lemma {:induction false} CompletedBy(cfg: Config, v: J.Verifier, ys: seq<System>, moves: seq<Move>, i: nat, x: J.JobId, k: nat)
    returns (t: nat)
    requires SystemRun(cfg, v, ys, moves) && i < |ys| && x in ys[i].desk.jobs
    requires k < |ys[i].orders| && ys[i].orders[k] == Complete(ys[i].desk.jobs[x].request)
    ensures t < i && PollMoves(ys, moves, t, x, J.TellRegistry)
  {
    assert i > 0;
    var j := i - 1;
    SystemRunInv(cfg, v, ys, moves, j);
    CompletionCameFrom(cfg, v, ys[j], moves[j], ys[j + 1], x, k);
    if k < |ys[j].orders| {
      t := CompletedBy(cfg, v, ys, moves, j, x, k);
    } else {
      t := j;
    }
  }

  lemma CompletionCameFrom(cfg: Config, v: J.Verifier, y: System, move: Move, y': System, x: J.JobId, k: nat)
    requires SysInv(v, y) && Moves(cfg, v, y, move, y') && x in y'.desk.jobs
    requires k < |y'.orders| && y'.orders[k] == Complete(y'.desk.jobs[x].request)
    ensures if k < |y.orders| then x in y.desk.jobs && y.orders[k] == Complete(y.desk.jobs[x].request)
            else move.Handler? && move.act.Advance? && move.act.step == J.TellRegistry && J.Polling(y.desk, move.act.poll, x)
  {
    if k < |y.orders| {
      OldCompletion(cfg, v, y, move, y', x, k);
    } else {
      NewCompletion(cfg, v, y, move, y', x);
    }
  }

  lemma OldCompletion(cfg: Config, v: J.Verifier, y: System, move: Move, y': System, x: J.JobId, k: nat)
    requires SysInv(v, y) && Moves(cfg, v, y, move, y') && x in y'.desk.jobs && k < |y.orders|
    requires y'.orders[k] == Complete(y'.desk.jobs[x].request)
    ensures x in y.desk.jobs && y.orders[k] == Complete(y.desk.jobs[x].request)
  {
    assert OrderOk(y, k);
    SameRequest(cfg, v, y, move, y', x);
  }

  lemma NewCompletion(cfg: Config, v: J.Verifier, y: System, move: Move, y': System, x: J.JobId)
    requires SysInv(v, y) && Moves(cfg, v, y, move, y') && x in y'.desk.jobs && |y.orders| < |y'.orders|
    requires y'.orders[|y.orders|] == Complete(y'.desk.jobs[x].request)
    ensures move.Handler? && move.act.Advance? && move.act.step.TellRegistry? && J.Polling(y.desk, move.act.poll, x)
  {
    var id := y'.desk.jobs[x].request;
    assert OrderOf(y.desk, move.act) == [Complete(id)];
    CompletedRequest(v, y.desk, move.act, id);
    SameRequest(cfg, v, y, move, y', x);
    CompletionSentBy(v, y.desk, move.act, x);
  }

  lemma CompletedRequest(v: J.Verifier, d: J.Desk, act: J.Action, id: Id)
    requires J.Sound(v, d) && J.Enabled(v, d, act) && OrderOf(d, act) == [Complete(id)]
    ensures J.Requested(d, id)
  {
    var poll := d.polls[act.poll];
    assert J.PollOk(v, d, poll);
    assert poll.job in d.jobs && d.jobs[poll.job].request == id;
  }

  // A request known before the move belongs to the same job before and after it.
  lemma SameRequest(cfg: Config, v: J.Verifier, y: System, move: Move, y': System, x: J.JobId)
    requires SysInv(v, y) && Moves(cfg, v, y, move, y') && x in y'.desk.jobs
    requires J.Requested(y.desk, y'.desk.jobs[x].request)
    ensures x in y.desk.jobs && y.desk.jobs[x].request == y'.desk.jobs[x].request
  {
    if move.Handler? {
      J.ActPersists(v, y.desk, move.act, y'.desk);
      HandlerFrame(v, y.desk, move.act, y'.desk);
    }
  }

  /** A poll hears that its request is lost or failed only with a reason.  Either the registry
      recorded an end for it that is no completion, or had trouble with its worker; or a poll of
      the same job had already told the registry that the request is complete. */
  lemma LostOnlyWithReason(cfg: Config, v: J.Verifier, ys: seq<System>, moves: seq<Move>, i: nat, p: J.PollId, x: J.JobId,
                           status: ClientStatus)
    requires SystemRun(cfg, v, ys, moves) && i < |moves| && J.Polling(ys[i].desk, p, x)
    requires moves[i] == Handler(J.Advance(p, J.RegistryAnswers(status))) && status.fulfillment == UNFULFILLABLE
    ensures x in ys[i].desk.jobs
    ensures var id := ys[i].desk.jobs[x].request;
            Routed(ys[i], id) && !HasFate(ys[i].registry, id) && id !in ys[i].troubled ==>
              exists t :: 0 <= t < i && PollMoves(ys, moves, t, x, J.TellRegistry)
  {
    var y := ys[i];
    SystemRunInv(cfg, v, ys, moves, i);
    assert Moves(cfg, v, y, moves[i], ys[i + 1]);
    assert J.PollOk(v, y.desk, y.desk.polls[p]);
    var id := y.desk.jobs[x].request;
    if Routed(y, id) && !HasFate(y.registry, id) && id !in y.troubled {
      LossIsExplained(v, y, p, id, status);
      var k :| 0 <= k < y.served && k < |y.orders| && y.orders[k] == Complete(id);
      var t := CompletedBy(cfg, v, ys, moves, i, x, k);
    }
  }

  lemma LossIsExplained(v: J.Verifier, y: System, p: J.PollId, id: Id, status: ClientStatus)
    requires SysInv(v, y) && p in y.desk.polls && y.desk.polls[p].seen.request == id && Routed(y, id)
    requires Hears(y.registry, p, status) && status.fulfillment == UNFULFILLABLE
    ensures Explained(y, id)
  {
    var i :| 0 <= i < |y.registry.answers| && y.registry.answers[i].to == p
             && ClientView(Relayed(y.registry.answers[i].value)) == Converted(status);
    UnfulfilledIff(y.registry.answers[i].value, status);
    assert AnswerOk(y, i) && Answered(y.registry, p);
    var id' :| Took(y, Event.Poll(id', p));
    var k :| 0 <= k < y.served && k < |y.orders| && y.orders[k] == Event.Poll(id', p);
    assert OrderOk(y, k);
  }

  // ---------- what the registry is told ----------

  predicate Sent(y: System, e: Event) {
    exists k :: 0 <= k < |y.orders| && y.orders[k] == e
  }

  ghost predicate PollTold(y: System, poll: J.Poll) {
    && (poll.Storing? ==> Sent(y, Complete(poll.seen.request)))
    && (poll.Failing? && poll.message == J.INVALID ==> Sent(y, DropOf(poll.seen.request)))
  }

  ghost predicate JobTold(y: System, x: J.JobId)
    requires x in y.desk.jobs
  {
    && (x in y.desk.proofs ==> Sent(y, Complete(y.desk.jobs[x].request)))
    && (y.desk.jobs[x].error == Some(J.INVALID) ==> Sent(y, DropOf(y.desk.jobs[x].request)))
  }

  ghost predicate ToldOk(y: System) {
    && (forall p :: p in y.desk.polls ==> PollTold(y, y.desk.polls[p]))
    && (forall x :: x in y.desk.jobs ==> JobTold(y, x))
  }

  lemma SentStays(y: System, y': System, e: Event)
    requires y.orders <= y'.orders && Sent(y, e)
    ensures Sent(y', e)
  {
    var k :| 0 <= k < |y.orders| && y.orders[k] == e;
    assert y'.orders[k] == e;
  }

  lemma NextTells(v: J.Verifier, d: J.Desk, p: J.PollId, step: J.PollStep)
    requires p in d.polls && J.NextOf(v, d, d.polls[p], step).Go?
    ensures var n := J.NextOf(v, d, d.polls[p], step).poll;
            && (n.Storing? ==> OrderOf(d, J.Advance(p, step)) == [Complete(n.seen.request)])
            && (n.Failing? && n.message == J.INVALID ==> OrderOf(d, J.Advance(p, step)) == [DropOf(n.seen.request)])
  {
    assert |J.INVALID| != |J.UNFULFILLED|;
  }

  lemma PollsStayTold(cfg: Config, v: J.Verifier, y: System, act: J.Action, y': System, p: J.PollId)
    requires ToldOk(y) && Moves(cfg, v, y, Handler(act), y') && p in y'.desk.polls
    ensures PollTold(y', y'.desk.polls[p])
  {
    if !J.ActsFor(act, p) {
      J.OthersLeavePoll(v, y.desk, act, p);
      PollKeepsTold(y, y', y'.desk.polls[p]);
    } else if act.Advance? {
      J.EffectLeavesPolls(y.desk, y.desk.polls[p], act.step);
      NextTells(v, y.desk, p, act.step);
      if OrderOf(y.desk, act) != [] {
        assert y'.orders[|y.orders|] == OrderOf(y.desk, act)[0];
      }
    }
  }

  lemma PollKeepsTold(y: System, y': System, poll: J.Poll)
    requires PollTold(y, poll) && y.orders <= y'.orders
    ensures PollTold(y', poll)
  {
    if poll.Storing? {
      SentStays(y, y', Complete(poll.seen.request));
    }
    if poll.Failing? && poll.message == J.INVALID {
      SentStays(y, y', DropOf(poll.seen.request));
    }
  }

  lemma JobsStayTold(cfg: Config, v: J.Verifier, y: System, act: J.Action, y': System, x: J.JobId)
    requires J.Sound(v, y.desk) && ToldOk(y) && Moves(cfg, v, y, Handler(act), y') && x in y'.desk.jobs
    ensures JobTold(y', x)
  {
    J.ActPersists(v, y.desk, act, y'.desk);
    if x in y'.desk.proofs {
      J.ProofCameFrom(v, y.desk, act, y'.desk, x);
      if x in y.desk.proofs {
        assert J.ProofOk(v, y.desk, x) && JobTold(y, x);
        SentStays(y, y', Complete(y.desk.jobs[x].request));
      } else {
        assert J.PollOk(v, y.desk, y.desk.polls[act.poll]) && PollTold(y, y.desk.polls[act.poll]);
        SentStays(y, y', Complete(y.desk.jobs[x].request));
      }
    }
    if y'.desk.jobs[x].error == Some(J.INVALID) {
      J.FailureCameFrom(v, y.desk, act, y'.desk, x);
      if x in y.desk.jobs && y.desk.jobs[x].error == y'.desk.jobs[x].error {
        assert JobTold(y, x);
        SentStays(y, y', DropOf(y.desk.jobs[x].request));
      } else {
        assert J.PollOk(v, y.desk, y.desk.polls[act.poll]) && PollTold(y, y.desk.polls[act.poll]);
        SentStays(y, y', DropOf(y.desk.jobs[x].request));
      }
    }
  }

  lemma {:induction false} RunTells(cfg: Config, v: J.Verifier, ys: seq<System>, moves: seq<Move>, i: nat)
    requires SystemRun(cfg, v, ys, moves) && i < |ys|
    ensures ToldOk(ys[i])
  {
    if i > 0 {
      var j := i - 1;
      RunTells(cfg, v, ys, moves, j);
      SystemRunInv(cfg, v, ys, moves, j);
      assert Moves(cfg, v, ys[j], moves[j], ys[j + 1]);
      MoveTells(cfg, v, ys[j], moves[j], ys[j + 1]);
    }
  }

  lemma MoveTells(cfg: Config, v: J.Verifier, y: System, move: Move, y': System)
    requires J.Sound(v, y.desk) && ToldOk(y) && Moves(cfg, v, y, move, y')
    ensures ToldOk(y')
  {
    if move.Handler? {
      forall p | p in y'.desk.polls ensures PollTold(y', y'.desk.polls[p]) {
        PollsStayTold(cfg, v, y, move.act, y', p);
      }
      forall x | x in y'.desk.jobs ensures JobTold(y', x) {
        JobsStayTold(cfg, v, y, move.act, y', x);
      }
    } else {
      assert forall e :: Sent(y, e) <==> Sent(y', e);
    }
  }

  /** The registry is told: a request whose proof can be downloaded was reported complete, and when
      a job failed because the proof was invalid, the registry was told to drop the worker. */
  lemma RegistryIsTold(cfg: Config, v: J.Verifier, ys: seq<System>, moves: seq<Move>, i: nat, x: J.JobId)
    requires SystemRun(cfg, v, ys, moves) && i < |ys| && x in ys[i].desk.jobs
    ensures x in ys[i].desk.proofs ==> Sent(ys[i], Complete(ys[i].desk.jobs[x].request))
    ensures ys[i].desk.jobs[x].error == Some("worker returned invalid proof") ==> Sent(ys[i], DropOf(ys[i].desk.jobs[x].request))
  {
    RunTells(cfg, v, ys, moves, i);
    assert JobTold(ys[i], x);
  }

  /** What the handlers do in a run of the system is a run of the jobs, so every theorem about
      those runs holds here. */
  lemma {:induction false} HandlersRun(cfg: Config, v: J.Verifier, ys: seq<System>, moves: seq<Move>, i: nat)
    returns (desks: seq<J.Desk>, acts: seq<J.Action>)
    requires SystemRun(cfg, v, ys, moves) && i < |ys|
    ensures J.JobRun(v, desks, acts) && desks[|acts|] == ys[i].desk
  {
    if i == 0 {
      desks, acts := [J.Opening], [];
    } else {
      var j := i - 1;
      desks, acts := HandlersRun(cfg, v, ys, moves, j);
      assert Moves(cfg, v, ys[j], moves[j], ys[j + 1]);
      if moves[j].Handler? {
        desks, acts := desks + [ys[i].desk], acts + [moves[j].act];
      }
    }
  }
}
