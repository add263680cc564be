/** One run of the OpenVM jobs and the registry in which nothing goes wrong, and yet a job is
    told failed and succeeded: completion is reported before the proof is stored. */
module OpenVmRace {
  import opened Network
  import opened Worker
  import opened RegistryModel
  import opened ProofStatus
  import opened OpenVmSystem
  import L = LoneWorker
  import J = OpenVmJobs

  const Elf: Bytes := [1]
  const Sent: Bytes := [2]
  const Request := OpenVmRequest(7, App, Elf)
  const Recruit := Registration("w", Capabilities([OpenVm], false, false), Some("http://magister"), 1, 0)
  const Proved := Status(EXECUTED, Some(Sent), Some(Done))
  const Fulfilled := ClientStatus(FULFILLED, EXECUTED, Sent)
  const TheJob := J.Job(7, "p", None, App, None)

  // ---------- the registry's side ----------

  function WithWorker(): State {
    L.WithWorker(Recruit)
  }

  function Working(): State {
    L.Working(Recruit, Request)
  }

  function Polled(): State {
    L.Polled(Recruit, Request)
  }

  function Reported(): State {
    L.Reported(Recruit, Request, Proved)
  }

  function Completed(): State {
    L.Completed(Recruit, Request, Proved)
  }

  function PolledAgain(): State {
    L.PolledAgain(Recruit, Request, Proved)
  }

  // ---------- the handlers' side ----------

  function Uploaded(): J.Desk {
    J.Opening.(programs := map["p" := Elf], inputs := map["i" := []], stored := {("p", Elf)})
  }

  function Created(): J.Desk {
    Uploaded().(jobs := map["j" := TheJob])
  }

  // The job created, and its two polls as given.
  function At(a: J.Poll, b: J.Poll): J.Desk {
    Created().(polls := map[0 := a, 1 := b], used := {0, 1})
  }

  function Loaded(): J.Poll {
    J.Loaded("j", TheJob)
  }

  lemma FirstAdvances(v: J.Verifier, a: J.Poll, b: J.Poll, step: J.PollStep, a': J.Poll)
    requires J.NextOf(v, At(a, b), a, step) == J.Go(a')
    ensures J.Act(v, At(a, b), J.Advance(0, step), At(a', b))
  {
    assert At(a, b).polls[0 := a'] == At(a', b).polls;
  }

  lemma SecondAdvances(v: J.Verifier, a: J.Poll, b: J.Poll, step: J.PollStep, b': J.Poll)
    requires J.NextOf(v, At(a, b), b, step) == J.Go(b')
    ensures J.Act(v, At(a, b), J.Advance(1, step), At(a, b'))
  {
    assert At(a, b).polls[1 := b'] == At(a, b').polls;
  }

  lemma JobIsCreated(v: J.Verifier)
    ensures J.Act(v, J.Opening, J.PutProgram("p", Elf), J.Opening.(programs := map["p" := Elf], stored := {("p", Elf)}))
    ensures J.Act(v, J.Opening.(programs := map["p" := Elf], stored := {("p", Elf)}), J.PutInput("i", []), Uploaded())
    ensures J.Act(v, Uploaded(), J.CreateJob("j", 7, "p", "i", None, App, true), Created())
  {
  }

  lemma PollsLoad(v: J.Verifier)
    ensures J.Act(v, Created(), J.LoadJob(0, "j"), Created().(polls := map[0 := Loaded()], used := {0}))
    ensures J.Act(v, Created().(polls := map[0 := Loaded()], used := {0}), J.LoadJob(1, "j"), At(Loaded(), Loaded()))
  {
    assert map[0 := Loaded()][1 := Loaded()] == At(Loaded(), Loaded()).polls;
    assert {0} + {1} == {0, 1};
  }

  function Storing(): J.Poll {
    J.Storing("j", TheJob, Elf, Sent)
  }

  function OneFailed(): J.Desk {
    At(Storing(), Storing()).(polls := map[0 := Storing()], jobs := map["j" := TheJob.(error := Some(J.UNFULFILLED))],
                              replies := [J.Answered("j", J.Failed)])
  }

  function BothVerdicts(): J.Desk {
    OneFailed().(polls := map[], proofs := map["j" := Sent],
                 replies := [J.Answered("j", J.Failed), J.Answered("j", J.Succeeded)])
  }

  lemma VerdictsFall(v: J.Verifier)
    ensures J.Act(v, At(Storing(), J.Failing("j", TheJob, J.UNFULFILLED)), J.Advance(1, J.RecordFailure), OneFailed())
    ensures J.Act(v, OneFailed(), J.Advance(0, J.StoreProof), BothVerdicts())
  {
    var d := At(Storing(), J.Failing("j", TheJob, J.UNFULFILLED));
    assert d.polls - {1} == OneFailed().polls;
    assert d.jobs["j" := TheJob.(error := Some(J.UNFULFILLED))] == OneFailed().jobs;
    assert OneFailed().polls - {0} == map[];
  }

  // ---------- the run ----------

  ghost predicate Reaches(cfg: Config, v: J.Verifier, ys: seq<System>, moves: seq<Move>, y: System) {
    SystemRun(cfg, v, ys, moves) && ys[|moves|] == y && ys[0] == Start(0, 0)
  }

  lemma Then(cfg: Config, v: J.Verifier, ys: seq<System>, moves: seq<Move>, y: System, move: Move, y': System)
    requires Reaches(cfg, v, ys, moves, y) && Moves(cfg, v, y, move, y')
    ensures Reaches(cfg, v, ys + [y'], moves + [move], y')
  {
  }

  // A handler acts; the command it sends, if any, is at the end of the channel.
  lemma ThenActs(cfg: Config, v: J.Verifier, ys: seq<System>, moves: seq<Move>, y: System, act: J.Action, d: J.Desk, sent: seq<Event>)
    returns (ys': seq<System>, moves': seq<Move>)
    requires Reaches(cfg, v, ys, moves, y) && J.Act(v, y.desk, act, d) && OrderOf(y.desk, act) == sent
    requires act.LoadJob? ==> act.poll !in y.registry.asked
    requires act.CreateJob? ==> act.request !in y.registry.submitted
    requires act.Advance? && act.step.RegistryAnswers? ==> Hears(y.registry, act.poll, act.step.status)
    ensures Reaches(cfg, v, ys', moves', y.(desk := d, orders := y.orders + sent))
  {
    var y' := y.(desk := d, orders := y.orders + sent);
    Then(cfg, v, ys, moves, y, Handler(act), y');
    ys', moves' := ys + [y'], moves + [Handler(act)];
  }

  // The registry takes up the one command that is left in the channel.
  lemma ThenServes(cfg: Config, v: J.Verifier, ys: seq<System>, moves: seq<Move>, y: System, s: State)
    returns (ys': seq<System>, moves': seq<Move>)
    requires Reaches(cfg, v, ys, moves, y) && |y.orders| == y.served + 1 && y.troubled == {}
    requires Step(cfg, y.registry, y.orders[y.served], s) && TroubleOf(cfg, y.registry, y.orders[y.served], s) == {}
    ensures Reaches(cfg, v, ys', moves', y.(registry := s, served := y.served + 1))
  {
    var y' := y.(registry := s, served := y.served + 1);
    Then(cfg, v, ys, moves, y, Serve, y');
    ys', moves' := ys + [y'], moves + [Serve];
  }

  const First := [Assign(Request)]
  const Second := [Assign(Request), Event.Poll(7, 0)]
  const Third := [Assign(Request), Event.Poll(7, 0), Complete(7)]
  const Fourth := [Assign(Request), Event.Poll(7, 0), Complete(7), Event.Poll(7, 1)]

  lemma RunToWorking(cfg: Config, v: J.Verifier) returns (ys: seq<System>, moves: seq<Move>)
    requires cfg.maxStrikes > 0 && cfg.heartbeatInterval > 0
    ensures Reaches(cfg, v, ys, moves, System(Created(), First, 1, Working(), {}))
  {
    L.WorkerRegisters(cfg, Recruit);
    var y := System(J.Opening, [], 0, WithWorker(), {});
    Then(cfg, v, [Start(0, 0)], [], Start(0, 0), Other(Ready("w", Recruit)), y);
    ys, moves := [Start(0, 0)] + [y], [Other(Ready("w", Recruit))];
    assert [] + moves == moves;
    JobIsCreated(v);
    var d := J.Opening.(programs := map["p" := Elf], stored := {("p", Elf)});
    ys, moves := ThenActs(cfg, v, ys, moves, y, J.PutProgram("p", Elf), d, []);
    ys, moves := ThenActs(cfg, v, ys, moves, y.(desk := d), J.PutInput("i", []), Uploaded(), []);
    ys, moves := ThenActs(cfg, v, ys, moves, y.(desk := Uploaded()),
                          J.CreateJob("j", 7, "p", "i", None, App, true), Created(), First);
    L.RequestStarts(cfg, Recruit, Request);
    ys, moves := ThenServes(cfg, v, ys, moves, System(Created(), First, 0, WithWorker(), {}), Working());
  }

  lemma RunToAsking(cfg: Config, v: J.Verifier) returns (ys: seq<System>, moves: seq<Move>)
    requires cfg.maxStrikes > 0 && cfg.heartbeatInterval > 0
    ensures Reaches(cfg, v, ys, moves, System(At(J.Asking("j", TheJob), Loaded()), First, 1, Working(), {}))
  {
    ys, moves := RunToWorking(cfg, v);
    var y := System(Created(), First, 1, Working(), {});
    PollsLoad(v);
    var d := Created().(polls := map[0 := Loaded()], used := {0});
    ys, moves := ThenActs(cfg, v, ys, moves, y, J.LoadJob(0, "j"), d, []);
    ys, moves := ThenActs(cfg, v, ys, moves, y.(desk := d), J.LoadJob(1, "j"), At(Loaded(), Loaded()), []);
    var asking := J.Asking("j", TheJob);
    FirstAdvances(v, Loaded(), Loaded(), J.CheckProof, asking);
    ys, moves := ThenActs(cfg, v, ys, moves, y.(desk := At(Loaded(), Loaded())),
                          J.Advance(0, J.CheckProof), At(asking, Loaded()), []);
  }

  lemma RunToReported(cfg: Config, v: J.Verifier) returns (ys: seq<System>, moves: seq<Move>)
    requires cfg.maxStrikes > 0 && cfg.heartbeatInterval > 0
    ensures Reaches(cfg, v, ys, moves, System(At(J.Awaiting("j", TheJob), Loaded()), Second, 2, Reported(), {}))
  {
    ys, moves := RunToAsking(cfg, v);
    var asking, awaiting := J.Asking("j", TheJob), J.Awaiting("j", TheJob);
    var y := System(At(asking, Loaded()), First, 1, Working(), {});
    FirstAdvances(v, asking, Loaded(), J.AskRegistry, awaiting);
    ys, moves := ThenActs(cfg, v, ys, moves, y, J.Advance(0, J.AskRegistry), At(awaiting, Loaded()), [Event.Poll(7, 0)]);
    L.FirstPollWaits(cfg, Recruit, Request);
    y := System(At(awaiting, Loaded()), Second, 1, Working(), {});
    ys, moves := ThenServes(cfg, v, ys, moves, y, Polled());
    L.WorkerReports(cfg, Recruit, Request, Proved);
    y := y.(served := 2, registry := Polled());
    var e := Respond(7, Some(Proved));
    Then(cfg, v, ys, moves, y, Other(e), y.(registry := Reported()));
    ys, moves := ys + [y.(registry := Reported())], moves + [Other(e)];
  }

  lemma RunToVerifying(cfg: Config, v: J.Verifier) returns (ys: seq<System>, moves: seq<Move>)
    requires cfg.maxStrikes > 0 && cfg.heartbeatInterval > 0
    ensures Reaches(cfg, v, ys, moves, System(At(J.Verifying("j", TheJob, Elf, Sent), Loaded()), Second, 2, Reported(), {}))
  {
    ys, moves := RunToReported(cfg, v);
    var awaiting, fetched := J.Awaiting("j", TheJob), J.Fetched("j", TheJob, Sent);
    var y := System(At(awaiting, Loaded()), Second, 2, Reported(), {});
    FirstAdvances(v, awaiting, Loaded(), J.RegistryAnswers(Fulfilled), fetched);
    assert Hears(Reported(), 0, Fulfilled) by {
      assert Reported().answers[0].to == 0;
    }
    ys, moves := ThenActs(cfg, v, ys, moves, y, J.Advance(0, J.RegistryAnswers(Fulfilled)), At(fetched, Loaded()), []);
    var verifying := J.Verifying("j", TheJob, Elf, Sent);
    FirstAdvances(v, fetched, Loaded(), J.FetchProgram, verifying);
    ys, moves := ThenActs(cfg, v, ys, moves, y.(desk := At(fetched, Loaded())),
                          J.Advance(0, J.FetchProgram), At(verifying, Loaded()), []);
  }

  // The first poll's proof is accepted; the second poll has seen that no proof is stored.
  lemma RunToAccepted(cfg: Config, v: J.Verifier) returns (ys: seq<System>, moves: seq<Move>)
    requires cfg.maxStrikes > 0 && cfg.heartbeatInterval > 0 && v(Elf, None, App, Sent)
    ensures Reaches(cfg, v, ys, moves,
                    System(At(J.Accepted("j", TheJob, Elf, Sent), J.Asking("j", TheJob)), Second, 2, Reported(), {}))
  {
    ys, moves := RunToVerifying(cfg, v);
    var verifying, accepted := J.Verifying("j", TheJob, Elf, Sent), J.Accepted("j", TheJob, Elf, Sent);
    var y := System(At(verifying, Loaded()), Second, 2, Reported(), {});
    FirstAdvances(v, verifying, Loaded(), J.Verify, accepted);
    ys, moves := ThenActs(cfg, v, ys, moves, y, J.Advance(0, J.Verify), At(accepted, Loaded()), []);
    SecondAdvances(v, accepted, Loaded(), J.CheckProof, J.Asking("j", TheJob));
    ys, moves := ThenActs(cfg, v, ys, moves, y.(desk := At(accepted, Loaded())),
                          J.Advance(1, J.CheckProof), At(accepted, J.Asking("j", TheJob)), []);
  }

  // The first poll reports completion.
  lemma RunToCompleted(cfg: Config, v: J.Verifier) returns (ys: seq<System>, moves: seq<Move>)
    requires cfg.maxStrikes > 0 && cfg.heartbeatInterval > 0 && v(Elf, None, App, Sent)
    ensures Reaches(cfg, v, ys, moves, System(At(Storing(), J.Asking("j", TheJob)), Third, 3, Completed(), {}))
  {
    ys, moves := RunToAccepted(cfg, v);
    var accepted, asking := J.Accepted("j", TheJob, Elf, Sent), J.Asking("j", TheJob);
    var y := System(At(accepted, asking), Second, 2, Reported(), {});
    FirstAdvances(v, accepted, asking, J.TellRegistry, Storing());
    ys, moves := ThenActs(cfg, v, ys, moves, y, J.Advance(0, J.TellRegistry), At(Storing(), asking), [Complete(7)]);
    L.RequestCompletes(cfg, Recruit, Request, Proved);
    ys, moves := ThenServes(cfg, v, ys, moves, System(At(Storing(), asking), Third, 2, Reported(), {}), Completed());
  }

  // The second poll asks before the proof is stored, and hears that the request is lost.
  lemma RunToLost(cfg: Config, v: J.Verifier) returns (ys: seq<System>, moves: seq<Move>)
    requires cfg.maxStrikes > 0 && cfg.heartbeatInterval > 0 && v(Elf, None, App, Sent)
    ensures Reaches(cfg, v, ys, moves,
                    System(At(Storing(), J.Failing("j", TheJob, J.UNFULFILLED)), Fourth, 4, PolledAgain(), {}))
  {
    ys, moves := RunToCompleted(cfg, v);
    var asking, awaiting := J.Asking("j", TheJob), J.Awaiting("j", TheJob);
    var failing := J.Failing("j", TheJob, J.UNFULFILLED);
    var y := System(At(Storing(), asking), Third, 3, Completed(), {});
    SecondAdvances(v, Storing(), asking, J.AskRegistry, awaiting);
    ys, moves := ThenActs(cfg, v, ys, moves, y, J.Advance(1, J.AskRegistry), At(Storing(), awaiting), [Event.Poll(7, 1)]);
    L.SecondPollFindsNothing(cfg, Recruit, Request, Proved);
    ys, moves := ThenServes(cfg, v, ys, moves, System(At(Storing(), awaiting), Fourth, 3, Completed(), {}), PolledAgain());
    y := System(At(Storing(), awaiting), Fourth, 4, PolledAgain(), {});
    SecondAdvances(v, Storing(), awaiting, J.RegistryAnswers(Lost), failing);
    assert Hears(PolledAgain(), 1, Lost) by {
      assert PolledAgain().answers[1].to == 1;
    }
    ys, moves := ThenActs(cfg, v, ys, moves, y, J.Advance(1, J.RegistryAnswers(Lost)), At(Storing(), failing), []);
  }

  /** For every verifier that accepts the proof there is a run, from the start, in which job "j"
      gets both verdicts although its worker stays connected and proves it, nobody is evicted,
      nothing ends but by completion and no worker reports trouble. */
  lemma OverlapGivesBothVerdicts(cfg: Config, v: J.Verifier) returns (ys: seq<System>, moves: seq<Move>)
    requires cfg.maxStrikes > 0 && cfg.heartbeatInterval > 0 && v(Elf, None, App, Sent)
    ensures SystemRun(cfg, v, ys, moves)
    ensures var y := ys[|moves|];
            && J.BothAt(y.desk, "j") && y.desk.replies == [J.Answered("j", J.Failed), J.Answered("j", J.Succeeded)]
            && y.registry.fates == [] && y.registry.dead == [] && y.registry.closed == {} && y.troubled == {}
            && "w" in y.registry.workers && |y.registry.history| == 1
  {
    ys, moves := RunToLost(cfg, v);
    var failing := J.Failing("j", TheJob, J.UNFULFILLED);
    var y := System(At(Storing(), failing), Fourth, 4, PolledAgain(), {});
    VerdictsFall(v);
    ys, moves := ThenActs(cfg, v, ys, moves, y, J.Advance(1, J.RecordFailure), OneFailed(), []);
    ys, moves := ThenActs(cfg, v, ys, moves, y.(desk := OneFailed()), J.Advance(0, J.StoreProof), BothVerdicts(), []);
  }
}
