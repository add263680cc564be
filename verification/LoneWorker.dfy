/** The registry's side of a proof without incident: one worker registers, is sent one request,
    answers a poll with the proof, and the request completes. */
module LoneWorker {
  import opened Network
  import opened Worker
  import opened RegistryModel
  import opened RegistryFrames

  function Rested(reg: Registration): WorkerState {
    Enrolled(reg, Idle, 0)
  }

  function WithWorker(reg: Registration): State {
    Initial(0, 0).(workers := map["w" := Rested(reg)])
  }

  function Working(reg: Registration, r: Request): State {
    WithWorker(reg).(workers := map["w" := Rested(reg).Assigned(r, 0, 0)], submitted := [r.id],
                     sends := [Send("w", Rested(reg), r, [])])
  }

  function Polled(reg: Registration, r: Request): State {
    Working(reg, r).(awaiting := map[r.id := [0]], asked := [0])
  }

  function Reported(reg: Registration, r: Request, st: Status): State {
    Working(reg, r).(asked := [0], answers := [Answer(0, Some(st))])
  }

  function Completed(reg: Registration, r: Request, st: Status): State {
    Reported(reg, r, st).(
      workers := map["w" := Rested(reg).Assigned(r, 0, 0).CompletedProof()],
      history := [RegistryModel.Completed(r.id, r.Vm(), r.ModeName(), 0, "w", reg.name)])
  }

  function PolledAgain(reg: Registration, r: Request, st: Status): State {
    Completed(reg, r, st).(asked := [0, 1], answers := [Answer(0, Some(st)), Answer(1, None)])
  }

  lemma WorkerRegisters(cfg: Config, reg: Registration)
    ensures Step(cfg, Initial(0, 0), Ready("w", reg), WithWorker(reg))
  {
    var s := Initial(0, 0);
    assert StaleChoice(s, "w", reg, NoStale);
    assert Enlisted(s, "w", reg, NoStale) == WithWorker(reg) by {
      assert s.fates + [] == s.fates;
    }
    NothingToDrain(WithWorker(reg));
  }

  lemma RequestStarts(cfg: Config, reg: Registration, r: Request)
    requires cfg.maxStrikes > 0 && cfg.heartbeatInterval > 0 && Rested(reg).CanServe(r)
    ensures Step(cfg, WithWorker(reg), Assign(r), Working(reg, r))
  {
    LoneWorkerTakes(cfg, WithWorker(reg), "w", Rested(reg), r, Working(reg, r));
  }

  lemma FirstPollWaits(cfg: Config, reg: Registration, r: Request)
    requires cfg.maxStrikes > 0 && cfg.heartbeatInterval > 0
    ensures Step(cfg, Working(reg, r), Poll(r.id, 0), Polled(reg, r))
  {
    var s := Working(reg, r).(asked := [0]);
    assert Working(reg, r).asked + [0] == [0];
    NothingToTrim(cfg, s);
    assert s.workers["w"].BusyWith(r.id);
    assert Waiting(s, r.id, 0) == Polled(reg, r);
  }

  lemma WorkerReports(cfg: Config, reg: Registration, r: Request, st: Status)
    requires st.execution != UNEXECUTABLE
    ensures Step(cfg, Polled(reg, r), Respond(r.id, Some(st)), Reported(reg, r, st))
  {
    var s := Polled(reg, r);
    assert Answers([0], Some(st)) == [Answer(0, Some(st))];
    assert s.awaiting - {r.id} == map[];
    assert Notified(s, r.id, Some(st)) == Reported(reg, r, st);
    assert Bridged(cfg, s, r.id, Some(st), Some(st)) && FailureHandled(s, r.id, Some(st), s);
  }

  lemma RequestCompletes(cfg: Config, reg: Registration, r: Request, st: Status)
    ensures Step(cfg, Reported(reg, r, st), Complete(r.id), Completed(reg, r, st))
  {
    var s := Reported(reg, r, st);
    assert s.workers["w"].BusyWith(r.id);
    assert Finish(s, r.id, "w") == Completed(reg, r, st);
    NothingToDrain(Completed(reg, r, st));
  }

  lemma SecondPollFindsNothing(cfg: Config, reg: Registration, r: Request, st: Status)
    requires cfg.maxStrikes > 0 && cfg.heartbeatInterval > 0
    ensures Step(cfg, Completed(reg, r, st), Poll(r.id, 1), PolledAgain(reg, r, st))
  {
    var s := Completed(reg, r, st).(asked := [0, 1]);
    assert Completed(reg, r, st).asked + [1] == [0, 1];
    NothingToTrim(cfg, s);
    assert StatusLookup(cfg, s, r.id, 1, PolledAgain(reg, r, st));
  }
}
