/** One run of the request service in which nothing goes wrong, and yet a poll is told that a
    finished request is lost: completion is reported before the proof is saved. */
module GatewayRace {
  import opened Network
  import opened Worker
  import opened RegistryModel
  import opened RegistryTheorems
  import opened Gateway
  import L = LoneWorker

  const Asked7 := Sp1Request(7, Core, [])
  const Recruit := Registration("w", Capabilities([Sp1], false, false), Some("http://magister"), 1, 0)
  const Proved := Status(EXECUTED, Some([2]), Some(Done))

  // The request routed and published; the registry, the channel and the polls as given.
  function At(s: State, channel: seq<Event>, polls: map<Responder, PollState>): Gate {
    Gate(s, channel, map[7 := Routed], {}, {}, {7}, polls, {}, {}, {}, {}, map[])
  }

  // Both polls of the request under way.
  function Two(a: PollState, b: PollState): map<Responder, PollState> {
    map[0 := a, 1 := b]
  }

  ghost predicate Reaches(cfg: Config, gates: seq<Gate>, acts: seq<Action>, g: Gate) {
    GateRun(cfg, gates, acts) && gates[0] == Opened(0, 0) && gates[|acts|] == g
  }

  lemma Then(cfg: Config, gates: seq<Gate>, acts: seq<Action>, g: Gate, act: Action, g': Gate)
    returns (gates': seq<Gate>, acts': seq<Action>)
    requires Reaches(cfg, gates, acts, g) && Act(cfg, g, act, g')
    ensures Reaches(cfg, gates', acts', g') && gates' == gates + [g'] && acts' == acts + [act]
  {
    gates', acts' := gates + [g'], acts + [act];
  }

  // The registry takes the one command in its channel.
  lemma ThenServes(cfg: Config, gates: seq<Gate>, acts: seq<Action>, g: Gate, e: Event, s: State)
    returns (gates': seq<Gate>, acts': seq<Action>)
    requires Reaches(cfg, gates, acts, g) && g.channel == [e] && Step(cfg, g.registry, e, s)
    ensures var g' := g.(registry := s, channel := []);
            Reaches(cfg, gates', acts', g') && gates' == gates + [g'] && acts' == acts + [Serve]
  {
    var g' := g.(registry := s, channel := []);
    gates', acts' := Then(cfg, gates, acts, g, Serve, g');
  }

  lemma RunToWorker(cfg: Config) returns (gates: seq<Gate>, acts: seq<Action>)
    ensures Reaches(cfg, gates, acts, Opened(0, 0).(registry := L.WithWorker(Recruit)))
  {
    var g, e := Opened(0, 0), Ready("w", Recruit);
    gates, acts := [g], [];
    gates, acts := Then(cfg, gates, acts, g, OtherCommand(e), g.(channel := [e]));
    L.WorkerRegisters(cfg, Recruit);
    gates, acts := ThenServes(cfg, gates, acts, g.(channel := [e]), e, L.WithWorker(Recruit));
  }

  lemma RunToWorking(cfg: Config) returns (gates: seq<Gate>, acts: seq<Action>)
    requires cfg.maxStrikes > 0 && cfg.heartbeatInterval > 0
    ensures Reaches(cfg, gates, acts, At(L.Working(Recruit, Asked7), [], map[]))
  {
    gates, acts := RunToWorker(cfg);
    var s, e := L.WithWorker(Recruit), Assign(Asked7);
    var g := Opened(0, 0).(registry := s);
    var g1 := g.(phase := map[7 := Drawn]);
    gates, acts := Then(cfg, gates, acts, g, Draw(7), g1);
    var g2 := At(s, [e], map[]).(answering := {7}, known := {});
    assert g1.phase[7 := Routed] == map[7 := Routed];
    gates, acts := Then(cfg, gates, acts, g1, RouteNow(Asked7), g2);
    gates, acts := Then(cfg, gates, acts, g2, Publish(7), At(s, [e], map[]));
    L.RequestStarts(cfg, Recruit, Asked7);
    gates, acts := ThenServes(cfg, gates, acts, At(s, [e], map[]), e, L.Working(Recruit, Asked7));
  }

  lemma RunToPolls(cfg: Config) returns (gates: seq<Gate>, acts: seq<Action>)
    requires cfg.maxStrikes > 0 && cfg.heartbeatInterval > 0
    ensures Reaches(cfg, gates, acts, At(L.Working(Recruit, Asked7), [], Two(KnownSeen(7), KnownSeen(7))))
  {
    gates, acts := RunToWorking(cfg);
    var s := L.Working(Recruit, Asked7);
    var one := map[0 := KnownSeen(7)];
    gates, acts := Then(cfg, gates, acts, At(s, [], map[]), StartPoll(0, 7), At(s, [], one));
    assert one[1 := KnownSeen(7)] == Two(KnownSeen(7), KnownSeen(7));
    gates, acts := Then(cfg, gates, acts, At(s, [], one), StartPoll(1, 7), At(s, [], Two(KnownSeen(7), KnownSeen(7))));
  }

  lemma TwoUpdates(a: PollState, b: PollState, c: PollState)
    ensures Two(a, b)[0 := c] == Two(c, b) && Two(a, b)[1 := c] == Two(a, c)
  {
  }

  // Both polls find no marker, then no proof.
  lemma RunToLooked(cfg: Config) returns (gates: seq<Gate>, acts: seq<Action>)
    requires cfg.maxStrikes > 0 && cfg.heartbeatInterval > 0
    ensures Reaches(cfg, gates, acts, At(L.Working(Recruit, Asked7), [], Two(ProofAbsent(7), ProofAbsent(7))))
  {
    gates, acts := RunToPolls(cfg);
    var s := L.Working(Recruit, Asked7);
    var k, m, n := KnownSeen(7), MarkerAbsent(7), ProofAbsent(7);
    TwoUpdates(k, k, m);
    TwoUpdates(m, k, m);
    TwoUpdates(m, m, n);
    TwoUpdates(n, m, n);
    gates, acts := Then(cfg, gates, acts, At(s, [], Two(k, k)), CheckMarker(0), At(s, [], Two(m, k)));
    gates, acts := Then(cfg, gates, acts, At(s, [], Two(m, k)), CheckMarker(1), At(s, [], Two(m, m)));
    gates, acts := Then(cfg, gates, acts, At(s, [], Two(m, m)), MissProof(0, false), At(s, [], Two(n, m)));
    gates, acts := Then(cfg, gates, acts, At(s, [], Two(n, m)), MissProof(1, false), At(s, [], Two(n, n)));
  }

  lemma RunToProved(cfg: Config) returns (gates: seq<Gate>, acts: seq<Action>)
    requires cfg.maxStrikes > 0 && cfg.heartbeatInterval > 0
    ensures Reaches(cfg, gates, acts, At(L.Reported(Recruit, Asked7, Proved), [], Two(Asked(7), ProofAbsent(7))))
  {
    gates, acts := RunToLooked(cfg);
    var s, e := L.Working(Recruit, Asked7), Poll(7, 0);
    var n := ProofAbsent(7);
    TwoUpdates(n, n, Asked(7));
    gates, acts := Then(cfg, gates, acts, At(s, [], Two(n, n)), AskRegistry(0), At(s, [e], Two(Asked(7), n)));
    L.FirstPollWaits(cfg, Recruit, Asked7);
    gates, acts := ThenServes(cfg, gates, acts, At(s, [e], Two(Asked(7), n)), e, L.Polled(Recruit, Asked7));
    var g, f := At(L.Polled(Recruit, Asked7), [], Two(Asked(7), n)), Respond(7, Some(Proved));
    gates, acts := Then(cfg, gates, acts, g, OtherCommand(f), g.(channel := [f]));
    L.WorkerReports(cfg, Recruit, Asked7, Proved);
    gates, acts := ThenServes(cfg, gates, acts, g.(channel := [f]), f, L.Reported(Recruit, Asked7, Proved));
  }

  lemma RunToCompleted(cfg: Config) returns (gates: seq<Gate>, acts: seq<Action>)
    requires cfg.maxStrikes > 0 && cfg.heartbeatInterval > 0
    ensures Reaches(cfg, gates, acts, At(L.Completed(Recruit, Asked7, Proved), [], Two(Reported(7), ProofAbsent(7))))
  {
    gates, acts := RunToProved(cfg);
    var s, e, n := L.Reported(Recruit, Asked7, Proved), Complete(7), ProofAbsent(7);
    TwoUpdates(Asked(7), n, Holding(7));
    TwoUpdates(Holding(7), n, Reported(7));
    assert HasProof(s, 0) by {
      assert s.answers[0].to == 0;
    }
    gates, acts := Then(cfg, gates, acts, At(s, [], Two(Asked(7), n)), AcceptProof(0), At(s, [], Two(Holding(7), n)));
    gates, acts := Then(cfg, gates, acts, At(s, [], Two(Holding(7), n)), ReportDone(0), At(s, [e], Two(Reported(7), n)));
    L.RequestCompletes(cfg, Recruit, Asked7, Proved);
    gates, acts := ThenServes(cfg, gates, acts, At(s, [e], Two(Reported(7), n)), e, L.Completed(Recruit, Asked7, Proved));
  }

  /** A run from the start in which a poll is answered "none" about a request that has finished
      and whose proof is in good hands: its worker stays connected, nobody is evicted, nothing
      ends but by completion, and the poll that holds the accepted proof is about to save it. */
  lemma FinishedRequestIsLost(cfg: Config) returns (gates: seq<Gate>, acts: seq<Action>)
    requires cfg.maxStrikes > 0 && cfg.heartbeatInterval > 0
    ensures GateRun(cfg, gates, acts)
    ensures var g := gates[|acts|]; var s := g.registry;
            && Answer(1, None) in s.answers && PollIs(g, 1, Asked(7)) && PollIs(g, 0, Reported(7))
            && IsAt(s, 7, Finished) && s.fates == [] && s.dead == [] && s.closed == {} && "w" in s.workers
  {
    gates, acts := RunToCompleted(cfg);
    var s, e := L.Completed(Recruit, Asked7, Proved), Poll(7, 1);
    TwoUpdates(Reported(7), ProofAbsent(7), Asked(7));
    gates, acts := Then(cfg, gates, acts, At(s, [], Two(Reported(7), ProofAbsent(7))), AskRegistry(1),
                        At(s, [e], Two(Reported(7), Asked(7))));
    L.SecondPollFindsNothing(cfg, Recruit, Asked7, Proved);
    gates, acts := ThenServes(cfg, gates, acts, At(s, [e], Two(Reported(7), Asked(7))), e, L.PolledAgain(Recruit, Asked7, Proved));
    var t := L.PolledAgain(Recruit, Asked7, Proved);
    assert t.answers[1] == Answer(1, None) && t.history[0].id == 7;
  }
}
