/** The worker registry's state and, per command handler, the relation between the
    states before and after it.  Hash-map iteration is an arbitrary order, so the
    relations admit every order; the executable handlers are in Registry. */
module RegistryModel {
  import opened Network
  import opened Worker

  const QUEUE_CAP: nat := 64
  const PENDING_TTL: nat := 7200 * SECOND

  type Workers = map<Addr, WorkerState>
  type Responder = nat

  datatype Pending = Pending(req: Request, queuedAt: Instant)
  datatype Completed = Completed(id: Id, vm: VmKind, modeName: string, duration: nat, addr: Addr, name: string)
  datatype Dead = Dead(addr: Addr, worker: WorkerState)
  datatype Registration = Registration(
    name: string, capabilities: Capabilities, dropEndpoint: Option<string>, nonce: nat, channel: Channel)

  // How a submission stops being the registry's concern without completing.
  datatype End =
    | Failed      // the contemplant reported it unexecutable
    | Rejected    // the queue was full
    | Expired     // it outlived the queue's time limit
    | Duplicate   // the same id was already queued or on a worker
    | Evicted     // its worker was trimmed
    | Superseded  // its worker's entry was replaced by another process of the same instance
    | Overwritten // its worker re-registered from the same address

  datatype Fate = Fate(id: Id, end: End)
  // `worker` is the entry as it was just before the send; `ahead` the older requests still queued.
  datatype Send = Send(addr: Addr, worker: WorkerState, req: Request, ahead: seq<Pending>)
  datatype Answer = Answer(to: Responder, value: Option<Status>)

  /** The first five fields are the registry's own.  The rest records its surroundings:
      the clocks, the closed worker channels, and logs of everything sent out. */
  datatype State = State(
    workers: Workers,
    pending: seq<Pending>,
    awaiting: map<Id, seq<Responder>>,
    history: seq<Completed>,
    dead: seq<Dead>,
    now: Instant,
    wall: WallTime,
    closed: set<Channel>,
    sends: seq<Send>,
    drops: seq<string>,
    answers: seq<Answer>,
    submitted: seq<Id>,
    fates: seq<Fate>,
    asked: seq<Responder>)

  function Initial(now: Instant, wall: WallTime): State {
    State(map[], [], map[], [], [], now, wall, {}, [], [], [], [], [], [])
  }

  // ---------- one assignment attempt ----------

  // `failed` are the workers tried in vain before.
  datatype Outcome = AlreadyBusy | SentTo(addr: Addr, failed: set<Addr>) | NoWorker

  predicate Served(ws: Workers, id: Id) {
    exists a :: a in ws && ws[a].BusyWith(id)
  }

  predicate Candidate(ws: Workers, r: Request, a: Addr) {
    a in ws && ws[a].status.Idle? && ws[a].CanServe(r)
  }

  /** What an attempt may do to the workers, over every iteration order: the request goes
      to one idle capable worker with an open channel; a cold worker gets it only when all
      hot ones were tried and found closed, and before a hot one no cold one is tried; each
      failed try costs exactly one strike, and nothing else changes. */
  ghost predicate Attempt(ws: Workers, closed: set<Channel>, now: Instant, wall: WallTime,
                          r: Request, ws': Workers, out: Outcome) {
    && ws'.Keys == ws.Keys
    && match out
       case AlreadyBusy => Served(ws, r.id) && ws' == ws
       case SentTo(a, failed) =>
         && !Served(ws, r.id)
         && Candidate(ws, r, a) && ws[a].channel !in closed && a !in failed
         && ws'[a] == ws[a].Assigned(r, now, wall)
         && (forall b :: b in failed ==> Candidate(ws, r, b) && ws[b].channel in closed)
         && (forall b :: b in ws && b != a ==> ws'[b] == if b in failed then ws[b].Struck() else ws[b])
         && (forall b :: Candidate(ws, r, b) && ws[b].HotFor(r) && !ws[a].HotFor(r) ==> b in failed)
         && (forall b :: b in failed && ws[a].HotFor(r) ==> ws[b].HotFor(r))
       case NoWorker =>
         && !Served(ws, r.id)
         && (forall b :: b in ws ==>
               if Candidate(ws, r, b) then ws[b].channel in closed && ws'[b] == ws[b].Struck()
               else ws'[b] == ws[b])
  }

  // The logs after an attempt at a request with the first `k` queue entries ahead of it.
  function Placed(s: State, k: nat, r: Request, ws: Workers, out: Outcome): State
    requires k <= |s.pending|
    requires out.SentTo? ==> out.addr in s.workers
  {
    match out
    case AlreadyBusy => s.(workers := ws, fates := s.fates + [Fate(r.id, Duplicate)])
    case SentTo(a, _) => s.(workers := ws, sends := s.sends + [Send(a, s.workers[a], r, s.pending[..k])])
    case NoWorker => s.(workers := ws)
  }

  // ---------- draining the queue ----------

  predicate Outlived(p: Pending, now: Instant) {
    Elapsed(p.queuedAt, now) > PENDING_TTL
  }

  function Unexpired(q: seq<Pending>, now: Instant): seq<Pending> {
    if q == [] then []
    else Unexpired(q[..|q| - 1], now) + (if Outlived(q[|q| - 1], now) then [] else [q[|q| - 1]])
  }

  function ExpiryFates(q: seq<Pending>, now: Instant): seq<Fate> {
    if q == [] then []
    else ExpiryFates(q[..|q| - 1], now)
         + (if Outlived(q[|q| - 1], now) then [Fate(q[|q| - 1].req.id, Expired)] else [])
  }

  function Purged(s: State): State {
    s.(pending := Unexpired(s.pending, s.now), fates := s.fates + ExpiryFates(s.pending, s.now))
  }

  // A drain in progress: entries before `k` have been tried and stay queued.
  datatype Cursor = Cursor(s: State, k: nat)

  function Retried(c: Cursor, ws: Workers, out: Outcome): Cursor
    requires c.k < |c.s.pending|
    requires out.SentTo? ==> out.addr in c.s.workers
  {
    var s1 := Placed(c.s, c.k, c.s.pending[c.k].req, ws, out);
    if out.NoWorker? then Cursor(s1, c.k + 1)
    else Cursor(s1.(pending := c.s.pending[..c.k] + c.s.pending[c.k + 1..]), c.k)
  }

  ghost predicate RetryWith(c: Cursor, ws: Workers, out: Outcome, c': Cursor) {
    && c.k < |c.s.pending|
    && Attempt(c.s.workers, c.s.closed, c.s.now, c.s.wall, c.s.pending[c.k].req, ws, out)
    && c' == Retried(c, ws, out)
  }

  ghost predicate Retry(c: Cursor, c': Cursor) {
    exists ws, out :: RetryWith(c, ws, out, c')
  }

  ghost predicate RetryChain(tr: seq<Cursor>) {
    |tr| > 0 && forall i :: 0 <= i < |tr| - 1 ==> Retry(tr[i], tr[i + 1])
  }

  lemma RetryOnceMore(tr: seq<Cursor>, c: Cursor)
    requires RetryChain(tr) && Retry(tr[|tr| - 1], c)
    ensures RetryChain(tr + [c]) && (tr + [c])[0] == tr[0]
  {
  }

  ghost predicate DrainTrace(s: State, tr: seq<Cursor>, s': State) {
    && RetryChain(tr)
    && tr[0] == Cursor(Purged(s), 0)
    && tr[|tr| - 1] == Cursor(s', |s'.pending|)
  }

  ghost predicate Drained(s: State, s': State) {
    exists tr :: DrainTrace(s, tr, s')
  }

  // ---------- trimming ----------

  function OrphanFates(w: WorkerState, end: End): seq<Fate> {
    if w.status.Busy? then [Fate(w.status.id, end)] else []
  }

  function Evict(s: State, a: Addr): State
    requires a in s.workers
  {
    var w := s.workers[a];
    s.(workers := s.workers - {a},
       dead := s.dead + [Dead(a, w)],
       drops := s.drops + (if w.dropEndpoint.Some? then [w.dropEndpoint.value] else []),
       fates := s.fates + OrphanFates(w, Evicted))
  }

  function EvictAll(s: State, order: seq<Addr>): State {
    if order == [] then s
    else
      var s1 := EvictAll(s, order[..|order| - 1]);
      var a := order[|order| - 1];
      if a in s1.workers then Evict(s1, a) else s1
  }

  ghost predicate DropOrder(cfg: Config, s: State, order: seq<Addr>) {
    && (forall a :: a in order <==> a in s.workers && s.workers[a].ShouldDrop(cfg, s.now, s.wall))
    && (forall i, j :: 0 <= i < j < |order| ==> order[i] != order[j])
  }

  ghost predicate Trimmed(cfg: Config, s: State, s': State) {
    exists order :: DropOrder(cfg, s, order) && s' == EvictAll(s, order)
  }

  // ---------- the command handlers ----------

  predicate InQueue(q: seq<Pending>, id: Id) {
    exists i :: 0 <= i < |q| && q[i].req.id == id
  }

  // A request that found no worker waits, unless it already does or the queue is full.
  function Settled(s: State, r: Request, ws: Workers, out: Outcome): State
    requires out.SentTo? ==> out.addr in s.workers
  {
    var s1 := Placed(s, |s.pending|, r, ws, out);
    if !out.NoWorker? then s1
    else if InQueue(s.pending, r.id) then s1.(fates := s1.fates + [Fate(r.id, Duplicate)])
    else if |s.pending| >= QUEUE_CAP then s1.(fates := s1.fates + [Fate(r.id, Rejected)])
    else s1.(pending := s1.pending + [Pending(r, s.now)])
  }

  lemma SettledFrame(s: State, r: Request, ws: Workers, out: Outcome)
    requires out.SentTo? ==> out.addr in s.workers
    ensures var s' := Settled(s, r, ws, out);
            && s' == s.(workers := ws, pending := s'.pending, sends := s'.sends, fates := s'.fates)
            && (s'.pending == s.pending || (out.NoWorker? && s'.pending == s.pending + [Pending(r, s.now)]))
  {
  }

  ghost predicate AssignTried(s: State, r: Request, ws: Workers, out: Outcome, s': State) {
    && Attempt(s.workers, s.closed, s.now, s.wall, r, ws, out)
    && s' == Settled(s, r, ws, out)
  }

  ghost predicate AssignNow(s: State, r: Request, s': State) {
    exists ws, out :: AssignTried(s, r, ws, out, s')
  }

  ghost predicate AssignProof(cfg: Config, s: State, r: Request, s': State) {
    exists s1 :: Trimmed(cfg, s.(submitted := s.submitted + [r.id]), s1) && AssignNow(s1, r, s')
  }

  // The entry an incoming registration supersedes: same drop endpoint, or same name when
  // either side has none; never the entry of the same address.
  predicate Supersedes(reg: Registration, addr: Addr, key: Addr, w: WorkerState) {
    && key != addr
    && if reg.dropEndpoint.Some? && w.dropEndpoint.Some? then reg.dropEndpoint == w.dropEndpoint
       else w.name == reg.name
  }

  function Enrolled(reg: Registration, status: WorkerStatus, now: Instant): WorkerState {
    WorkerState(reg.name, status, None, reg.capabilities, 0, now, reg.channel, reg.dropEndpoint, reg.nonce)
  }

  datatype StaleEntry = NoStale | StaleAt(addr: Addr)

  ghost predicate StaleChoice(s: State, addr: Addr, reg: Registration, stale: StaleEntry) {
    match stale
    case StaleAt(k) => k in s.workers && Supersedes(reg, addr, k, s.workers[k])
    case NoStale => forall k :: k in s.workers ==> !Supersedes(reg, addr, k, s.workers[k])
  }

  // The worker map without the superseded entry, and the fate of its unfinished request.
  function WithoutStale(s: State, reg: Registration, stale: StaleEntry): State
    requires stale.StaleAt? ==> stale.addr in s.workers
  {
    match stale
    case NoStale => s
    case StaleAt(k) =>
      s.(workers := s.workers - {k},
         fates := s.fates + (if s.workers[k].nonce == reg.nonce then [] else OrphanFates(s.workers[k], Superseded)))
  }

  function CarriedStatus(s: State, reg: Registration, stale: StaleEntry): WorkerStatus
    requires stale.StaleAt? ==> stale.addr in s.workers
  {
    match stale
    case NoStale => Idle
    case StaleAt(k) => if s.workers[k].nonce == reg.nonce then s.workers[k].status else Idle
  }

  function Enlisted(s: State, addr: Addr, reg: Registration, stale: StaleEntry): State
    requires stale.StaleAt? ==> stale.addr in s.workers
  {
    var s1 := WithoutStale(s, reg, stale);
    s1.(workers := s1.workers[addr := Enrolled(reg, CarriedStatus(s, reg, stale), s.now)],
        fates := s1.fates + (if addr in s1.workers then OrphanFates(s1.workers[addr], Overwritten) else []))
  }

  ghost predicate WorkerReady(s: State, addr: Addr, reg: Registration, s': State) {
    exists stale :: StaleChoice(s, addr, reg, stale) && Drained(Enlisted(s, addr, reg, stale), s')
  }

  function Finish(s: State, id: Id, a: Addr): State
    requires a in s.workers && s.workers[a].BusyWith(id)
  {
    var w := s.workers[a];
    s.(workers := s.workers[a := w.CompletedProof()],
       history := s.history + [Completed(id, w.status.vm, w.status.modeName, Elapsed(w.status.start, s.now), a, w.name)])
  }

  ghost predicate ProofComplete(s: State, id: Id, s': State) {
    if Served(s.workers, id) then
      exists a :: a in s.workers && s.workers[a].BusyWith(id) && Drained(Finish(s, id, a), s')
    else s' == s
  }

  ghost predicate ProgressReport(s: State, id: Id, update: Option<Progress>, s': State) {
    if Served(s.workers, id) then
      exists a :: a in s.workers && s.workers[a].BusyWith(id)
                  && s' == s.(workers := s.workers[a := s.workers[a].Reported(update, s.wall)])
    else s' == s
  }

  // An "unknown request" answer is bridged while the assignment is younger than the grace time.
  ghost predicate Bridged(cfg: Config, s: State, id: Id, value: Option<Status>, bridged: Option<Status>) {
    if value.Some? || !Served(s.workers, id) then bridged == value
    else exists a :: a in s.workers && s.workers[a].BusyWith(id)
                     && bridged == if Elapsed(s.workers[a].status.start, s.now) < cfg.startupGraceSecs * SECOND
                                   then Some(Unexecuted) else None
  }

  function Abandon(s: State, id: Id, a: Addr): State
    requires a in s.workers
  {
    s.(workers := s.workers[a := s.workers[a].FailedProof()], fates := s.fates + [Fate(id, Failed)])
  }

  ghost predicate FailureHandled(s: State, id: Id, value: Option<Status>, s': State) {
    if value.Some? && value.value.execution == UNEXECUTABLE && Served(s.workers, id) then
      exists a :: a in s.workers && s.workers[a].BusyWith(id) && Drained(Abandon(s, id, a), s')
    else s' == s
  }

  function Answers(to: seq<Responder>, value: Option<Status>): seq<Answer> {
    seq(|to|, i requires 0 <= i < |to| => Answer(to[i], value))
  }

  function Notified(s: State, id: Id, value: Option<Status>): State {
    if id in s.awaiting then
      s.(awaiting := s.awaiting - {id}, answers := s.answers + Answers(s.awaiting[id], value))
    else s
  }

  ghost predicate StatusResponse(cfg: Config, s: State, id: Id, value: Option<Status>, s': State) {
    exists bridged, s1 ::
      Bridged(cfg, s, id, value, bridged) && FailureHandled(s, id, bridged, s1) && s' == Notified(s1, id, bridged)
  }

  function Replied(s: State, to: Responder, value: Option<Status>): State {
    s.(answers := s.answers + [Answer(to, value)])
  }

  function Waiting(s: State, id: Id, to: Responder): State {
    s.(awaiting := s.awaiting[id := (if id in s.awaiting then s.awaiting[id] else []) + [to]])
  }

  ghost predicate StatusLookup(cfg: Config, s: State, id: Id, to: Responder, s': State) {
    if Served(s.workers, id) then
      exists a :: a in s.workers && s.workers[a].BusyWith(id)
        && s' == if s.workers[a].channel in s.closed
                 then Replied(s.(workers := s.workers[a := s.workers[a].(strikes := cfg.maxStrikes)]), to, None)
                 else Waiting(s, id, to)
    else
      s' == Replied(s, to, if InQueue(s.pending, id) then Some(Unexecuted) else None)
  }

  ghost predicate StatusRequest(cfg: Config, s: State, id: Id, to: Responder, s': State) {
    exists s1 :: Trimmed(cfg, s.(asked := s.asked + [to]), s1) && StatusLookup(cfg, s1, id, to, s')
  }

  function Beat(s: State, addr: Addr): State {
    if addr in s.workers then
      s.(workers := s.workers[addr := s.workers[addr].(lastHeartbeat := s.now)])
    else s
  }

  function WithStrikes(s: State, a: Addr, strikes: nat): State
    requires a in s.workers
  {
    s.(workers := s.workers[a := s.workers[a].(strikes := strikes)])
  }

  ghost predicate StrikeWorker(cfg: Config, s: State, id: Id, s': State) {
    if Served(s.workers, id) then
      exists a :: a in s.workers && s.workers[a].BusyWith(id)
                  && Trimmed(cfg, WithStrikes(s, a, s.workers[a].strikes + 1), s')
    else s' == s
  }

  ghost predicate DropWorker(cfg: Config, s: State, id: Id, s': State) {
    if Served(s.workers, id) then
      exists a :: a in s.workers && s.workers[a].BusyWith(id)
                  && Trimmed(cfg, WithStrikes(s, a, cfg.maxStrikes), s')
    else s' == s
  }

  // ---------- commands, surroundings, runs ----------

  datatype Event =
    | Assign(req: Request)
    | Ready(addr: Addr, reg: Registration)
    | Complete(id: Id)
    | Report(id: Id, update: Option<Progress>)
    | Respond(id: Id, value: Option<Status>)
    | Poll(id: Id, to: Responder)
    | Heartbeat(addr: Addr)
    | Strike(id: Id)
    | DropOf(id: Id)
    | Tick(now: Instant, wall: WallTime) // the monotonic clock advances, the wall clock may jump
    | Close(channel: Channel)            // a worker's websocket goes away for good

  ghost predicate Step(cfg: Config, s: State, e: Event, s': State) {
    match e
    case Assign(r) => AssignProof(cfg, s, r, s')
    case Ready(addr, reg) => WorkerReady(s, addr, reg, s')
    case Complete(id) => ProofComplete(s, id, s')
    case Report(id, update) => ProgressReport(s, id, update, s')
    case Respond(id, value) => StatusResponse(cfg, s, id, value, s')
    case Poll(id, to) => StatusRequest(cfg, s, id, to, s')
    case Heartbeat(addr) => s' == Beat(s, addr)
    case Strike(id) => StrikeWorker(cfg, s, id, s')
    case DropOf(id) => DropWorker(cfg, s, id, s')
    case Tick(now, wall) => now >= s.now && s' == s.(now := now, wall := wall)
    case Close(c) => s' == s.(closed := s.closed + {c})
  }

  /** A run: `states[i]` becomes `states[i + 1]` by `events[i]`, from an empty registry. */
  ghost predicate Run(cfg: Config, states: seq<State>, events: seq<Event>) {
    && |states| == |events| + 1
    && states[0] == Initial(states[0].now, states[0].wall)
    && forall i :: 0 <= i < |events| ==> Step(cfg, states[i], events[i], states[i + 1])
  }
}
