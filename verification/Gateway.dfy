/** The client-facing side of the registry: requests that wait for circuit artifacts under a
    marker, the FIFO command channel, and status polls that interleave with both.  Each
    action below is what one task does between two awaits. */
module Gateway {
  import opened Network
  import opened Worker
  import opened RegistryModel
  import opened Ledger
  import opened RegistryInvariant
  import opened RegistryTheorems
  import opened Responders
  import opened Duplicates

  datatype Phase =
    | Drawn       // the id exists, nothing else happened
    | Downloading // the marker is set and the download task runs
    | Downloaded  // the task is about to route, still under the marker
    | Routed      // the assignment is in the registry's channel
    | RouteFailed // download or routing failed

  datatype PollState =
    | KnownSeen(id: Id)    // the request was found in the table of requests
    | MarkerAbsent(id: Id) // and no marker was set
    | ProofAbsent(id: Id)  // and no proof was found in the artifact store
    | Asked(id: Id)        // and the registry has been asked
    | Holding(id: Id)      // it answered with a proof, which was accepted
    | Reported(id: Id)     // completion was sent, the proof is not saved yet
    | Told                 // the client has its answer

  datatype Gate = Gate(
    registry: State,
    channel: seq<Event>,          // commands sent, oldest first
    phase: map<Id, Phase>,
    marker: set<Id>,              // requests waiting for circuit artifacts
    answering: set<Id>,           // request handlers past routing that have not answered yet
    known: set<Id>,               // the table of requests
    polls: map<Responder, PollState>,
    others: set<Responder>,       // responders of polls made by other routes
    foreign: set<Id>,             // requests of other routes
    saved: set<Id>,               // requests whose proof is in the artifact store
    releasing: set<Id>,           // download tasks that have yet to remove their marker
    fulfilled: map<Responder, Id>) // polls told that the proof of their request is there

  function Opened(now: Instant, wall: WallTime): Gate {
    Gate(Initial(now, wall), [], map[], {}, {}, {}, map[], {}, {}, {}, {}, map[])
  }

  datatype Action =
    | Draw(id: Id)
    | RouteNow(req: Request)
    | RouteNowFails(id: Id)
    | HoldForArtifacts(id: Id)
    | DownloadFails(id: Id)
    | DownloadDone(id: Id)
    | RouteHeld(req: Request)
    | RouteHeldFails(id: Id)
    | ReleaseMarker(id: Id)
    | Publish(id: Id)
    | GiveUp(id: Id)
    | StartPoll(to: Responder, id: Id)
    | CheckMarker(to: Responder)
    | FindProof(to: Responder)
    | MissProof(to: Responder, readFails: bool)
    | AskRegistry(to: Responder)
    | AnswerClient(to: Responder)
    | AcceptProof(to: Responder)
    | RefuseProof(to: Responder)
    | ReportDone(to: Responder)
    | SaveProof(to: Responder)
    | SaveFails(to: Responder)
    | EvictProof(id: Id)
    | OtherCommand(cmd: Event)
    | Surroundings(change: Event)
    | Serve

  predicate InPhase(g: Gate, id: Id, p: Phase) {
    id in g.phase && g.phase[id] == p
  }

  /** Routing is decided: the assignment was sent, or never will be. */
  predicate Decided(g: Gate, id: Id) {
    InPhase(g, id, Routed) || InPhase(g, id, RouteFailed)
  }

  // The registry answered `to` with proof bytes.
  predicate HasProof(s: State, to: Responder) {
    exists i :: 0 <= i < |s.answers| && s.answers[i].to == to
                && s.answers[i].value.Some? && s.answers[i].value.value.proof.Some?
                && s.answers[i].value.value.proof.value != []
  }

  predicate PollIs(g: Gate, to: Responder, st: PollState) {
    to in g.polls && g.polls[to] == st
  }

  ghost predicate Act(cfg: Config, g: Gate, act: Action, g': Gate) {
    match act
    case Draw(id) => id !in g.phase && id !in g.foreign && g' == g.(phase := g.phase[id := Drawn])
    // artifacts are ready: route in the request handler itself
    case RouteNow(r) =>
      InPhase(g, r.id, Drawn)
      && g' == g.(phase := g.phase[r.id := Routed], channel := g.channel + [Assign(r)], answering := g.answering + {r.id})
    case RouteNowFails(id) => InPhase(g, id, Drawn) && g' == g.(phase := g.phase[id := RouteFailed])
    // artifacts are missing: set the marker, spawn the download task
    case HoldForArtifacts(id) =>
      InPhase(g, id, Drawn)
      && g' == g.(phase := g.phase[id := Downloading], marker := g.marker + {id}, answering := g.answering + {id})
    case DownloadFails(id) =>
      InPhase(g, id, Downloading) && g' == g.(phase := g.phase[id := RouteFailed], marker := g.marker - {id})
    case DownloadDone(id) => InPhase(g, id, Downloading) && g' == g.(phase := g.phase[id := Downloaded])
    // route first, remove the marker afterwards
    case RouteHeld(r) =>
      InPhase(g, r.id, Downloaded)
      && g' == g.(phase := g.phase[r.id := Routed], channel := g.channel + [Assign(r)], releasing := g.releasing + {r.id})
    case RouteHeldFails(id) =>
      InPhase(g, id, Downloaded) && g' == g.(phase := g.phase[id := RouteFailed], releasing := g.releasing + {id})
    case ReleaseMarker(id) =>
      id in g.releasing && g' == g.(marker := g.marker - {id}, releasing := g.releasing - {id})
    // the request handler enters the request in the table and answers the client, or fails
    case Publish(id) =>
      id in g.answering && g' == g.(known := g.known + {id}, answering := g.answering - {id})
    case GiveUp(id) => id in g.answering && g' == g.(answering := g.answering - {id})
    case StartPoll(to, id) =>
      to !in g.polls && to !in g.others
      && g' == g.(polls := g.polls[to := if id in g.known then KnownSeen(id) else Told])
    case CheckMarker(to) =>
      to in g.polls && g.polls[to].KnownSeen?
      && g' == g.(polls := g.polls[to := if g.polls[to].id in g.marker then Told else MarkerAbsent(g.polls[to].id)])
    case FindProof(to) =>
      to in g.polls && g.polls[to].MarkerAbsent? && g.polls[to].id in g.saved
      && g' == g.(polls := g.polls[to := Told], fulfilled := g.fulfilled[to := g.polls[to].id])
    // an artifact store that fails to read counts as one without the proof
    case MissProof(to, readFails) =>
      to in g.polls && g.polls[to].MarkerAbsent? && (g.polls[to].id !in g.saved || readFails)
      && g' == g.(polls := g.polls[to := ProofAbsent(g.polls[to].id)])
    case AskRegistry(to) =>
      to in g.polls && g.polls[to].ProofAbsent?
      && g' == g.(polls := g.polls[to := Asked(g.polls[to].id)], channel := g.channel + [Poll(g.polls[to].id, to)])
    // no proof yet, a timeout, or an error on the way
    case AnswerClient(to) =>
      to in g.polls && (g.polls[to].Asked? || g.polls[to].Holding?) && g' == g.(polls := g.polls[to := Told])
    case AcceptProof(to) =>
      to in g.polls && g.polls[to].Asked? && HasProof(g.registry, to)
      && g' == g.(polls := g.polls[to := Holding(g.polls[to].id)])
    case RefuseProof(to) =>
      to in g.polls && g.polls[to].Asked? && HasProof(g.registry, to)
      && g' == g.(polls := g.polls[to := Told], channel := g.channel + [DropOf(g.polls[to].id)])
    // completion is reported first, the proof saved afterwards
    case ReportDone(to) =>
      to in g.polls && g.polls[to].Holding?
      && g' == g.(polls := g.polls[to := Reported(g.polls[to].id)], channel := g.channel + [Complete(g.polls[to].id)])
    case SaveProof(to) =>
      to in g.polls && g.polls[to].Reported?
      && g' == g.(polls := g.polls[to := Told], saved := g.saved + {g.polls[to].id},
                  fulfilled := g.fulfilled[to := g.polls[to].id])
    case SaveFails(to) => to in g.polls && g.polls[to].Reported? && g' == g.(polls := g.polls[to := Told])
    case EvictProof(id) => g' == g.(saved := g.saved - {id})
    // workers and other routes, which assign and complete requests of their own
    case OtherCommand(e) =>
      !e.Tick? && !e.Close? && (e.Poll? ==> e.to !in g.polls && e.to !in g.others)
      && (e.Assign? ==> e.req.id !in g.phase && e.req.id !in g.foreign) && (e.Complete? ==> e.id in g.foreign)
      && g' == g.(channel := g.channel + [e], others := g.others + (if e.Poll? then {e.to} else {}),
                  foreign := g.foreign + (if e.Assign? then {e.req.id} else {}))
    case Surroundings(e) =>
      (e.Tick? || e.Close?) && Step(cfg, g.registry, e, g'.registry) && g' == g.(registry := g'.registry)
    // the registry takes the oldest command off its channel
    case Serve =>
      |g.channel| > 0 && Step(cfg, g.registry, g.channel[0], g'.registry)
      && g' == g.(registry := g'.registry, channel := g.channel[1..])
  }

  /** The assignment of `id` has reached the registry, or will before `channel[j]` does. */
  ghost predicate AssignedBefore(g: Gate, id: Id, j: nat) {
    id in g.registry.submitted
    || exists i :: 0 <= i < j && i < |g.channel| && g.channel[i].Assign? && g.channel[i].req.id == id
  }

  /** A marker is set exactly while its download task is under way. */
  ghost predicate MarkersOk(g: Gate) {
    && (forall id :: id in g.marker <==> InPhase(g, id, Downloading) || InPhase(g, id, Downloaded) || id in g.releasing)
    && (forall id :: id in g.releasing ==> Decided(g, id))
  }

  ghost predicate GateInv(g: Gate) {
    && MarkersOk(g)
    && Inv(g.registry) && DuplicatesRepeat(g.registry) && AssignedOnce(g) && g.phase.Keys !! g.foreign
    && (forall id :: InPhase(g, id, Routed) ==> AssignedBefore(g, id, |g.channel|))
    && PollsOk(g)
    && OrderOk(g)
  }

  predicate Assigned(g: Gate, id: Id) {
    InPhase(g, id, Routed) || id in g.foreign
  }

  /** An id is assigned at most once, and only after it was routed, here or elsewhere. */
  ghost predicate AssignedOnce(g: Gate) {
    forall id :: multiset(g.registry.submitted)[id] + Assigns(g.channel, id) <= if Assigned(g, id) then 1 else 0
  }

  // How many assignments of `id` are among the commands.
  ghost function Assigns(events: seq<Event>, id: Id): nat {
    if events == [] then 0
    else
      Assigns(events[..|events| - 1], id)
      + (if events[|events| - 1].Assign? && events[|events| - 1].req.id == id then 1 else 0)
  }

  predicate PastMarker(st: PollState) {
    !st.KnownSeen? && !st.Told?
  }

  ghost predicate PollsOk(g: Gate) {
    && (forall id :: id in g.known || id in g.answering ==> id in g.marker || Decided(g, id))
    && (forall p :: p in g.polls && g.polls[p].KnownSeen? ==> g.polls[p].id in g.known)
    && (forall p :: p in g.polls && PastMarker(g.polls[p]) ==> Decided(g, g.polls[p].id))
    && (forall p :: p in g.polls ==> p !in g.others)
  }

  /** Every poll of ours in the channel stands behind the assignment it asks about. */
  ghost predicate OrderOk(g: Gate) {
    forall j :: 0 <= j < |g.channel| && g.channel[j].Poll? ==>
      if g.channel[j].to in g.polls
      then InPhase(g, g.channel[j].id, RouteFailed) || AssignedBefore(g, g.channel[j].id, j)
      else g.channel[j].to in g.others
  }

  // Appending a command keeps every earlier order.
  lemma AppendKeepsOrder(g: Gate, e: Event, g': Gate)
    requires g'.registry == g.registry && g'.channel == g.channel + [e]
    ensures forall id, j :: 0 <= j <= |g.channel| && AssignedBefore(g, id, j) ==> AssignedBefore(g', id, j)
    ensures forall id :: AssignedBefore(g, id, |g.channel|) ==> AssignedBefore(g', id, |g'.channel|)
    ensures e.Assign? ==> AssignedBefore(g', e.req.id, |g'.channel|)
  {
    forall id, j | 0 <= j <= |g.channel| && AssignedBefore(g, id, j) ensures AssignedBefore(g', id, j) {
      if id !in g.registry.submitted {
        var i :| 0 <= i < j && i < |g.channel| && g.channel[i].Assign? && g.channel[i].req.id == id;
        assert g'.channel[i] == g.channel[i];
      }
    }
    forall id | AssignedBefore(g, id, |g.channel|) ensures AssignedBefore(g', id, |g'.channel|) {
      assert AssignedBefore(g', id, |g.channel|);
    }
    if e.Assign? {
      assert g'.channel[|g.channel|] == e;
    }
  }

  // Serving the head keeps every order among the rest.
  lemma ServeKeepsOrder(cfg: Config, g: Gate, g': Gate, id: Id, j: nat)
    requires Act(cfg, g, Serve, g') && 0 < j <= |g.channel| && AssignedBefore(g, id, j)
    ensures AssignedBefore(g', id, j - 1)
  {
    StepSubmits(cfg, g.registry, g.channel[0], g'.registry);
    if id !in g.registry.submitted {
      var i :| 0 <= i < j && i < |g.channel| && g.channel[i].Assign? && g.channel[i].req.id == id;
      if i > 0 {
        assert g'.channel[i - 1] == g.channel[i];
      }
    }
  }

  lemma {:induction false} AssignsHead(events: seq<Event>, id: Id)
    requires events != []
    ensures Assigns(events, id)
         == Assigns(events[1..], id) + (if events[0].Assign? && events[0].req.id == id then 1 else 0)
  {
    var init := events[..|events| - 1];
    if init == [] {
      assert events[1..] == [];
    } else {
      AssignsHead(init, id);
      assert events[1..][..|events[1..]| - 1] == init[1..];
    }
  }

  lemma AssignsSnoc(events: seq<Event>, e: Event, id: Id)
    ensures Assigns(events + [e], id) == Assigns(events, id) + (if e.Assign? && e.req.id == id then 1 else 0)
  {
    assert (events + [e])[..|events|] == events;
  }

  lemma ServeKeepsAssignedOnce(cfg: Config, g: Gate, g': Gate)
    requires AssignedOnce(g) && Act(cfg, g, Serve, g')
    ensures AssignedOnce(g')
  {
    StepSubmits(cfg, g.registry, g.channel[0], g'.registry);
    forall id ensures multiset(g'.registry.submitted)[id] + Assigns(g'.channel, id)
                      == multiset(g.registry.submitted)[id] + Assigns(g.channel, id) {
      AssignsHead(g.channel, id);
    }
    assert forall id :: Assigned(g', id) <==> Assigned(g, id);
  }

  /** What a task may do to channel and phases: send one command, or none; and set one
      undecided phase, to routed only when it sends the assignment.  Assignments are new. */
  ghost predicate QuietShape(g: Gate, g': Gate, sent: seq<Event>, id: Id, p: Phase) {
    && g'.registry == g.registry && g'.channel == g.channel + sent && |sent| <= 1
    && (g'.phase == g.phase || (!Decided(g, id) && g'.phase == g.phase[id := p]))
    && g.foreign <= g'.foreign
    && (forall i :: 0 <= i < |sent| && sent[i].Assign? ==> !Assigned(g, sent[i].req.id) && Assigned(g', sent[i].req.id))
    && (g'.phase != g.phase && p == Routed ==> |sent| == 1 && sent[0].Assign? && sent[0].req.id == id)
  }

  predicate IsRouting(act: Action) {
    || act.Draw? || act.RouteNow? || act.RouteNowFails? || act.HoldForArtifacts? || act.DownloadFails? || act.DownloadDone?
    || act.RouteHeld? || act.RouteHeldFails? || act.ReleaseMarker? || act.Publish? || act.GiveUp?
  }

  predicate IsPolling(act: Action) {
    !IsRouting(act) && !act.OtherCommand? && !act.Serve? && !act.Surroundings?
  }

  lemma RoutingHasShape(cfg: Config, g: Gate, act: Action, g': Gate)
      returns (sent: seq<Event>, id: Id, p: Phase)
    requires Act(cfg, g, act, g') && IsRouting(act) && g.phase.Keys !! g.foreign
    ensures QuietShape(g, g', sent, id, p) && g'.phase.Keys !! g'.foreign
  {
    sent, id, p := [], 0, Drawn;
    assert g.channel + [] == g.channel;
    match act
    case Draw(i) => id := i;
    case RouteNow(r) => sent, id, p := [Assign(r)], r.id, Routed;
    case RouteNowFails(i) => id, p := i, RouteFailed;
    case HoldForArtifacts(i) => id, p := i, Downloading;
    case DownloadFails(i) => id, p := i, RouteFailed;
    case DownloadDone(i) => id, p := i, Downloaded;
    case RouteHeld(r) => sent, id, p := [Assign(r)], r.id, Routed;
    case RouteHeldFails(i) => id, p := i, RouteFailed;
    case _ =>
  }

  // Polls leave routing alone and may send one command, which assigns nothing.
  lemma PollingFrame(cfg: Config, g: Gate, act: Action, g': Gate)
    requires Act(cfg, g, act, g') && IsPolling(act)
    ensures g' == g.(polls := g'.polls, channel := g'.channel, saved := g'.saved, fulfilled := g'.fulfilled)
    ensures g'.channel == g.channel + (match act
                                       case AskRegistry(to) => [Poll(g.polls[to].id, to)]
                                       case RefuseProof(to) => [DropOf(g.polls[to].id)]
                                       case ReportDone(to) => [Complete(g.polls[to].id)]
                                       case _ => [])
  {
    assert g.channel + [] == g.channel;
  }

  lemma QuietHasShape(cfg: Config, g: Gate, act: Action, g': Gate)
      returns (sent: seq<Event>, id: Id, p: Phase)
    requires Act(cfg, g, act, g') && !act.Serve? && !act.Surroundings? && g.phase.Keys !! g.foreign
    ensures QuietShape(g, g', sent, id, p) && g'.phase.Keys !! g'.foreign
  {
    if IsRouting(act) {
      sent, id, p := RoutingHasShape(cfg, g, act, g');
    } else {
      id, p := 0, Drawn;
      sent := match act
              case OtherCommand(e) => [e]
              case AskRegistry(to) => [Poll(g.polls[to].id, to)]
              case RefuseProof(to) => [DropOf(g.polls[to].id)]
              case ReportDone(to) => [Complete(g.polls[to].id)]
              case _ => [];
      if IsPolling(act) {
        PollingFrame(cfg, g, act, g');
      }
    }
  }

  lemma QuietKeepsAssignedOnce(g: Gate, g': Gate, sent: seq<Event>, id: Id, p: Phase)
    requires AssignedOnce(g) && QuietShape(g, g', sent, id, p)
    ensures AssignedOnce(g')
  {
    forall i
      ensures multiset(g'.registry.submitted)[i] + Assigns(g'.channel, i) <= if Assigned(g', i) then 1 else 0
    {
      assert multiset(g.registry.submitted)[i] + Assigns(g.channel, i) <= if Assigned(g, i) then 1 else 0;
      if |sent| == 1 {
        assert sent == [sent[0]];
        AssignsSnoc(g.channel, sent[0], i);
      } else {
        assert g'.channel == g.channel;
      }
    }
  }

  lemma ServeKeepsInv(cfg: Config, g: Gate, g': Gate)
    requires GateInv(g) && Act(cfg, g, Serve, g')
    ensures GateInv(g')
  {
    StepKeeps(cfg, g.registry, g.channel[0], g'.registry);
    StepKeepsDuplicates(cfg, g.registry, g.channel[0], g'.registry);
    ServeKeepsAssignedOnce(cfg, g, g');
    forall id | InPhase(g', id, Routed) ensures AssignedBefore(g', id, |g'.channel|) {
      assert InPhase(g, id, Routed);
      ServeKeepsOrder(cfg, g, g', id, |g.channel|);
    }
    forall j | 0 <= j < |g'.channel| && g'.channel[j].Poll? && g'.channel[j].to in g'.polls
      ensures InPhase(g', g'.channel[j].id, RouteFailed) || AssignedBefore(g', g'.channel[j].id, j)
    {
      assert g'.channel[j] == g.channel[j + 1];
      if AssignedBefore(g, g.channel[j + 1].id, j + 1) {
        ServeKeepsOrder(cfg, g, g', g.channel[j + 1].id, j + 1);
      }
    }
    assert OrderOk(g') by {
      forall j | 0 <= j < |g'.channel| && g'.channel[j].Poll? && g'.channel[j].to !in g'.polls
        ensures g'.channel[j].to in g'.others
      {
        assert g'.channel[j] == g.channel[j + 1];
      }
    }
  }

  // What is decided stays decided, and what was ordered stays ordered.
  ghost predicate Grows(g: Gate, g': Gate) {
    && g'.registry == g.registry && g.channel <= g'.channel && |g'.channel| <= |g.channel| + 1
    && (forall id :: InPhase(g, id, Routed) ==> InPhase(g', id, Routed))
    && (forall id :: InPhase(g, id, RouteFailed) ==> InPhase(g', id, RouteFailed))
    && (forall id, j :: 0 <= j <= |g.channel| && AssignedBefore(g, id, j) ==> AssignedBefore(g', id, j))
    && (forall id :: AssignedBefore(g, id, |g.channel|) ==> AssignedBefore(g', id, |g'.channel|))
  }

  lemma ShapeGrows(g: Gate, g': Gate, sent: seq<Event>, id: Id, p: Phase)
    requires QuietShape(g, g', sent, id, p)
    ensures Grows(g, g')
  {
    if |sent| == 1 {
      assert sent == [sent[0]];
      AppendKeepsOrder(g, sent[0], g');
    } else {
      assert g'.channel == g.channel;
      assert forall i, j :: AssignedBefore(g, i, j) <==> AssignedBefore(g', i, j);
    }
  }

  lemma OldOrderStays(g: Gate, g': Gate)
    requires Grows(g, g') && OrderOk(g) && g.others <= g'.others
    requires g.polls.Keys <= g'.polls.Keys && (g'.polls.Keys - g.polls.Keys) !! g.others
    ensures forall j :: 0 <= j < |g.channel| && g'.channel[j].Poll? ==>
              if g'.channel[j].to in g'.polls
              then InPhase(g', g'.channel[j].id, RouteFailed) || AssignedBefore(g', g'.channel[j].id, j)
              else g'.channel[j].to in g'.others
  {
    forall j | 0 <= j < |g.channel| && g'.channel[j].Poll?
      ensures if g'.channel[j].to in g'.polls
              then InPhase(g', g'.channel[j].id, RouteFailed) || AssignedBefore(g', g'.channel[j].id, j)
              else g'.channel[j].to in g'.others
    {
      assert g'.channel[j] == g.channel[j];
    }
  }

  lemma QuietKeepsOrder(cfg: Config, g: Gate, act: Action, g': Gate)
    requires GateInv(g) && Act(cfg, g, act, g') && !act.Serve? && !act.Surroundings? && Grows(g, g')
    ensures OrderOk(g')
  {
    OldOrderStays(g, g');
    if act.AskRegistry? {
      assert Decided(g, g.polls[act.to].id);
      if InPhase(g, g.polls[act.to].id, Routed) {
        assert AssignedBefore(g', g.polls[act.to].id, |g.channel|);
      }
    }
  }

  lemma QuietKeepsRouted(g: Gate, g': Gate, sent: seq<Event>, id: Id, p: Phase)
    requires GateInv(g) && QuietShape(g, g', sent, id, p) && Grows(g, g')
    ensures forall i :: InPhase(g', i, Routed) ==> AssignedBefore(g', i, |g'.channel|)
  {
    forall i | InPhase(g', i, Routed) ensures AssignedBefore(g', i, |g'.channel|) {
      if !InPhase(g, i, Routed) {
        assert sent == [sent[0]];
        AppendKeepsOrder(g, sent[0], g');
      }
    }
  }

  lemma QuietKeepsMarkers(cfg: Config, g: Gate, act: Action, g': Gate)
    requires MarkersOk(g) && Act(cfg, g, act, g') && !act.Serve? && !act.Surroundings?
    ensures MarkersOk(g')
  {
    if IsRouting(act) {
      RoutingKeepsMarkers(cfg, g, act, g');
    } else {
      assert g'.marker == g.marker && g'.phase == g.phase && g'.releasing == g.releasing;
      assert forall id, p :: InPhase(g', id, p) <==> InPhase(g, id, p);
    }
  }

  lemma RoutingKeepsMarkers(cfg: Config, g: Gate, act: Action, g': Gate)
    requires MarkersOk(g) && Act(cfg, g, act, g') && IsRouting(act)
    ensures MarkersOk(g')
  {
  }

  lemma QuietKeepsPolls(cfg: Config, g: Gate, act: Action, g': Gate)
    requires PollsOk(g) && MarkersOk(g) && Act(cfg, g, act, g') && !act.Serve? && !act.Surroundings? && Grows(g, g')
    ensures PollsOk(g')
  {
    if IsPolling(act) {
      PollingKeepsPolls(cfg, g, act, g');
    } else {
      RoutingKeepsPolls(cfg, g, act, g');
    }
  }

  lemma RoutingKeepsPolls(cfg: Config, g: Gate, act: Action, g': Gate)
    requires PollsOk(g) && MarkersOk(g) && Act(cfg, g, act, g') && (IsRouting(act) || act.OtherCommand?) && Grows(g, g')
    ensures PollsOk(g')
  {
    assert forall id :: Decided(g, id) ==> Decided(g', id);
    RoutingMarks(cfg, g, act, g');
    forall id | id in g'.known || id in g'.answering ensures id in g'.marker || Decided(g', id) {
      assert MarkedOrDecided(g, act, g', id);
    }
  }

  // A request that is known or being answered was so, or has just been marked or decided.
  ghost predicate MarkedOrDecided(g: Gate, act: Action, g': Gate, id: Id) {
    id in g'.known || id in g'.answering ==>
      || id in g'.marker || Decided(g', id)
      || ((id in g.known || id in g.answering) && (id in g.marker ==> Decided(g, id)))
  }

  lemma RoutingMarks(cfg: Config, g: Gate, act: Action, g': Gate)
    requires MarkersOk(g) && Act(cfg, g, act, g') && (IsRouting(act) || act.OtherCommand?)
    ensures g'.polls == g.polls && g.known <= g'.known
    ensures forall p :: p in g.polls && p !in g.others ==> p !in g'.others
    ensures forall id :: MarkedOrDecided(g, act, g', id)
  {
  }

  lemma PollingKeepsPolls(cfg: Config, g: Gate, act: Action, g': Gate)
    requires PollsOk(g) && Act(cfg, g, act, g') && IsPolling(act)
    ensures PollsOk(g')
  {
    PollingFrame(cfg, g, act, g');
    assert forall id :: Decided(g, id) <==> Decided(g', id);
  }

  lemma QuietKeepsInv(cfg: Config, g: Gate, act: Action, g': Gate)
    requires GateInv(g) && Act(cfg, g, act, g') && !act.Serve? && !act.Surroundings?
    ensures GateInv(g')
  {
    var sent, id, p := QuietHasShape(cfg, g, act, g');
    ShapeGrows(g, g', sent, id, p);
    QuietKeepsMarkers(cfg, g, act, g');
    QuietKeepsPolls(cfg, g, act, g');
    QuietKeepsOrder(cfg, g, act, g');
    QuietKeepsRouted(g, g', sent, id, p);
    QuietKeepsAssignedOnce(g, g', sent, id, p);
  }

  lemma SurroundingsKeepInv(cfg: Config, g: Gate, e: Event, g': Gate)
    requires GateInv(g) && Act(cfg, g, Surroundings(e), g')
    ensures GateInv(g')
  {
    StepKeeps(cfg, g.registry, e, g'.registry);
    StepKeepsDuplicates(cfg, g.registry, e, g'.registry);
    assert g'.registry.submitted == g.registry.submitted;
    assert forall id, j :: AssignedBefore(g, id, j) <==> AssignedBefore(g', id, j);
    assert forall id, p :: InPhase(g, id, p) <==> InPhase(g', id, p);
    assert forall id :: Decided(g, id) <==> Decided(g', id);
    assert AssignedOnce(g') by {
      forall id
        ensures multiset(g'.registry.submitted)[id] + Assigns(g'.channel, id) <= if Assigned(g', id) then 1 else 0
      {
        assert multiset(g.registry.submitted)[id] + Assigns(g.channel, id) <= if Assigned(g, id) then 1 else 0;
      }
    }
  }

  lemma ActKeepsInv(cfg: Config, g: Gate, act: Action, g': Gate)
    requires GateInv(g) && Act(cfg, g, act, g')
    ensures GateInv(g')
  {
    if act.Serve? {
      ServeKeepsInv(cfg, g, g');
    } else if act.Surroundings? {
      SurroundingsKeepInv(cfg, g, act.change, g');
    } else {
      QuietKeepsInv(cfg, g, act, g');
    }
  }

  ghost predicate GateRun(cfg: Config, gates: seq<Gate>, acts: seq<Action>) {
    && |gates| == |acts| + 1
    && gates[0] == Opened(gates[0].registry.now, gates[0].registry.wall)
    && forall i :: 0 <= i < |acts| ==> Act(cfg, gates[i], acts[i], gates[i + 1])
  }

  lemma {:induction false} GateRunInv(cfg: Config, gates: seq<Gate>, acts: seq<Action>, i: nat)
    requires GateRun(cfg, gates, acts) && i < |gates|
    ensures GateInv(gates[i])
  {
    if i == 0 {
      InitialInv(gates[0].registry);
    } else {
      GateRunInv(cfg, gates, acts, i - 1);
      ActKeepsInv(cfg, gates[i - 1], acts[i - 1], gates[i]);
    }
  }

  /** The books show how the request ended, and nothing else about it. */
  ghost predicate Gone(s: State, id: Id) {
    && !InQueue(s.pending, id) && !Served(s.workers, id)
    && exists at :: IsAt(s, id, at) && at != Ended(Duplicate) && forall at' :: IsAt(s, id, at') ==> at' == at
  }

  lemma OnlyOneEnd(s: State, id: Id)
    requires Inv(s) && DuplicatesRepeat(s) && multiset(s.submitted)[id] == 1
    requires !InQueue(s.pending, id) && !Served(s.workers, id)
    ensures Gone(s, id)
  {
    assert Places(s, id) == 1;
    CountsLocate(s, id);
    var at :| IsAt(s, id, at);
    forall at' | IsAt(s, id, at') ensures at' == at {
      if at.Ended? && at'.Ended? {
        FateOnce(s.fates, id, at.end, at'.end);
      }
    }
  }

  /** No spurious loss: in every interleaving, when the registry serves a poll of ours and
      answers "none", then routing or downloading failed for the request, or its worker has
      hung up, or the request is truly gone: completed, failed, rejected, expired, or bereft
      of its worker, and nowhere else. */
  lemma NoSpuriousLoss(cfg: Config, gates: seq<Gate>, acts: seq<Action>, i: nat, id: Id, to: Responder)
    requires GateRun(cfg, gates, acts) && i < |acts| && acts[i].Serve?
    requires |gates[i].channel| > 0 && gates[i].channel[0] == Poll(id, to) && to in gates[i].polls
    requires gates[i + 1].registry.answers == gates[i].registry.answers + [Answer(to, None)]
    ensures var s := gates[i + 1].registry;
            || InPhase(gates[i], id, RouteFailed)
            || (Served(s.workers, id)
                && forall a :: a in s.workers && s.workers[a].BusyWith(id) ==> s.workers[a].channel in s.closed)
            || Gone(s, id)
  {
    var g, g' := gates[i], gates[i + 1];
    var s, s' := g.registry, g'.registry;
    GateRunInv(cfg, gates, acts, i);
    GateRunInv(cfg, gates, acts, i + 1);
    assert InPhase(g, id, RouteFailed) || AssignedBefore(g, id, 0);
    PollFindsLiveRequests(cfg, s, id, to, s');
    StepSubmits(cfg, s, Poll(id, to), s');
    if id in s'.submitted && !Served(s'.workers, id) {
      assert multiset(s'.submitted)[id] > 0;
      assert multiset(s'.submitted)[id] <= 1 by {
        assert multiset(s'.submitted)[id] + Assigns(g'.channel, id) <= if Assigned(g', id) then 1 else 0;
      }
      OnlyOneEnd(s', id);
    }
  }
}
