/** A run in which a reconnect is followed by the destruction of the instance that has just
    reconnected: three workers of one name, one of them without an endpoint. */
module LostInstance {
  import opened Network
  import opened Worker
  import opened RegistryModel
  import opened RegistryFrames
  import opened Reconnect

  const ALL := Capabilities([Sp1], false, false)
  const One := Registration("w", ALL, Some("e1"), 1, 1)
  const Two := Registration("w", ALL, Some("e2"), 2, 2)
  const Bare := Registration("w", ALL, None, 3, 3)
  const TwoAgain := Registration("w", ALL, Some("e2"), 2, 4)

  function Entry(reg: Registration): WorkerState {
    Enrolled(reg, Idle, 0)
  }

  function With(ws: Workers): State {
    Initial(0, 0).(workers := ws)
  }

  function S1(): State {
    With(map["a1" := Entry(One)])
  }

  function S2(): State {
    With(map["a1" := Entry(One), "a2" := Entry(Two)])
  }

  function S3(): State {
    With(map["a2" := Entry(Two), "a3" := Entry(Bare)])
  }

  function S4(): State {
    With(map["a2" := Entry(Two), "a4" := Entry(TwoAgain)])
  }

  // The clock moves on by one heartbeat window, and only the new entry is heard from.
  function S5(cfg: Config): State {
    S4().(now := cfg.heartbeatInterval)
  }

  function S6(cfg: Config): State {
    S5(cfg).(workers := map["a2" := Entry(Two), "a4" := Entry(TwoAgain).(lastHeartbeat := cfg.heartbeatInterval)])
  }

  function S7(cfg: Config): State {
    S6(cfg).(workers := map["a4" := Entry(TwoAgain).(lastHeartbeat := cfg.heartbeatInterval)],
             dead := [Dead("a2", Entry(Two))], drops := ["e2"], asked := [0], answers := [Answer(0, None)])
  }

  // With an idle fleet and an empty queue, a registration just exchanges entries.
  lemma Joins(cfg: Config, s: State, addr: Addr, reg: Registration, stale: StaleEntry, ws: Workers)
    requires s.pending == [] && s.now == 0 && addr !in s.workers && StaleChoice(s, addr, reg, stale)
    requires stale.StaleAt? ==> s.workers[stale.addr].status.Idle?
    requires ws == WithoutStale(s, reg, stale).workers[addr := Entry(reg)]
    ensures Step(cfg, s, Ready(addr, reg), s.(workers := ws))
  {
    assert Enlisted(s, addr, reg, stale) == s.(workers := ws) by {
      assert s.fates + [] == s.fates;
    }
    NothingToDrain(s.(workers := ws));
  }

  lemma FirstTwoJoin(cfg: Config)
    ensures Step(cfg, Initial(0, 0), Ready("a1", One), S1())
    ensures Step(cfg, S1(), Ready("a2", Two), S2())
  {
    Joins(cfg, Initial(0, 0), "a1", One, NoStale, S1().workers);
    Joins(cfg, S1(), "a2", Two, NoStale, S2().workers);
  }

  lemma BareJoins(cfg: Config)
    ensures Step(cfg, S2(), Ready("a3", Bare), S3())
  {
    assert WithoutStale(S2(), Bare, StaleAt("a1")).workers["a3" := Entry(Bare)] == S3().workers;
    Joins(cfg, S2(), "a3", Bare, StaleAt("a1"), S3().workers);
  }

  // Both the old entry and the one without endpoint match; the search finds the wrong one.
  lemma TwoReconnects(cfg: Config)
    ensures Hazard(S3(), "a4", TwoAgain)
    ensures Step(cfg, S3(), Ready("a4", TwoAgain), S4())
  {
    assert S3().workers["a2"].dropEndpoint == TwoAgain.dropEndpoint && S3().workers["a3"].dropEndpoint.None?;
    assert WithoutStale(S3(), TwoAgain, StaleAt("a3")).workers["a4" := Entry(TwoAgain)] == S4().workers;
    Joins(cfg, S3(), "a4", TwoAgain, StaleAt("a3"), S4().workers);
  }

  lemma TimePasses(cfg: Config)
    ensures Step(cfg, S4(), Tick(cfg.heartbeatInterval, 0), S5(cfg))
    ensures Step(cfg, S5(cfg), Heartbeat("a4"), S6(cfg))
  {
    assert S5(cfg).workers["a4" := Entry(TwoAgain).(lastHeartbeat := cfg.heartbeatInterval)] == S6(cfg).workers;
  }

  lemma OldEntryIsTrimmed(cfg: Config)
    requires cfg.maxStrikes > 0 && cfg.heartbeatInterval > 0
    ensures Step(cfg, S6(cfg), Poll(9, 0), S7(cfg))
  {
    var s := S6(cfg).(asked := [0]);
    assert S6(cfg).asked + [0] == [0];
    var s1 := S7(cfg).(answers := []);
    assert s.workers["a2"].ShouldDrop(cfg, s.now, s.wall) && !s.workers["a4"].ShouldDrop(cfg, s.now, s.wall);
    assert DropOrder(cfg, s, ["a2"]);
    assert EvictAll(s, ["a2"]) == s1 by {
      assert ["a2"][..0] == [];
      assert EvictAll(s, ["a2"][..0]) == s;
      assert s.workers - {"a2"} == s1.workers;
    }
    assert Trimmed(cfg, s, s1);
    assert StatusLookup(cfg, s1, 9, 0, S7(cfg));
  }

  lemma RunToTwo(cfg: Config) returns (states: seq<State>, events: seq<Event>)
    ensures RunTo(cfg, states, events, S2()) && events == [Ready("a1", One), Ready("a2", Two)]
  {
    FirstTwoJoin(cfg);
    states, events := RunStarts(cfg);
    states, events := RunGoesOn(cfg, states, events, Initial(0, 0), Ready("a1", One), S1());
    states, events := RunGoesOn(cfg, states, events, S1(), Ready("a2", Two), S2());
  }

  lemma RunToBare(cfg: Config) returns (states: seq<State>, events: seq<Event>)
    ensures RunTo(cfg, states, events, S3()) && events == [Ready("a1", One), Ready("a2", Two), Ready("a3", Bare)]
  {
    states, events := RunToTwo(cfg);
    BareJoins(cfg);
    states, events := RunGoesOn(cfg, states, events, S2(), Ready("a3", Bare), S3());
  }

  lemma RunToReconnect(cfg: Config) returns (states: seq<State>, events: seq<Event>)
    ensures RunTo(cfg, states, events, S4())
    ensures events == [Ready("a1", One), Ready("a2", Two), Ready("a3", Bare), Ready("a4", TwoAgain)]
  {
    states, events := RunToBare(cfg);
    TwoReconnects(cfg);
    states, events := RunGoesOn(cfg, states, events, S3(), Ready("a4", TwoAgain), S4());
  }

  lemma LiveInstanceIsDropped(cfg: Config)
    ensures !DropsAreDead(S6(cfg), S7(cfg))
  {
    assert "a4" in S7(cfg).workers && S7(cfg).workers["a4"].dropEndpoint == Some(S7(cfg).drops[0]);
  }

  lemma RunToSilence(cfg: Config) returns (states: seq<State>, events: seq<Event>)
    ensures RunTo(cfg, states, events, S6(cfg))
    ensures events == [Ready("a1", One), Ready("a2", Two), Ready("a3", Bare), Ready("a4", TwoAgain),
                       Tick(cfg.heartbeatInterval, 0), Heartbeat("a4")]
  {
    states, events := RunToReconnect(cfg);
    TimePasses(cfg);
    states, events := RunGoesOn(cfg, states, events, S4(), Tick(cfg.heartbeatInterval, 0), S5(cfg));
    states, events := RunGoesOn(cfg, states, events, S5(cfg), Heartbeat("a4"), S6(cfg));
  }

  /** From an empty registry: two workers of one name register with endpoints, a third without
      one supersedes the first, and the second reconnects while the third is live.  The search
      takes the third for its stale entry; the forgotten one goes silent, and trimming it drops
      the endpoint of the instance that is live and well under its new address. */
  lemma HazardDropsLiveInstance(cfg: Config) returns (states: seq<State>, events: seq<Event>)
    requires cfg.maxStrikes > 0 && cfg.heartbeatInterval > 0
    ensures Run(cfg, states, events)
    ensures events == [Ready("a1", One), Ready("a2", Two), Ready("a3", Bare), Ready("a4", TwoAgain),
                       Tick(cfg.heartbeatInterval, 0), Heartbeat("a4"), Poll(9, 0)]
    ensures states[7].drops == ["e2"] && "a4" in states[7].workers && states[7].workers["a4"].dropEndpoint == Some("e2")
    ensures !DropsAreDead(states[6], states[7])
  {
    states, events := RunToSilence(cfg);
    OldEntryIsTrimmed(cfg);
    states, events := RunGoesOn(cfg, states, events, S6(cfg), Poll(9, 0), S7(cfg));
    LiveInstanceIsDropped(cfg);
  }
}
