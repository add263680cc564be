/** When one id names two different requests, the idempotence checks do not protect it. */
module RepeatedIds {
  import opened Network
  import opened Worker
  import opened RegistryModel
  import opened Ledger
  import opened RegistryInvariant
  import opened RegistryFrames
  import opened RegistryTheorems

  /** Some worker that survives trimming could take the request at once. */
  predicate Startable(cfg: Config, s: State, r: Request) {
    exists a :: a in s.workers && Available(s, a, r) && !s.workers[a].ShouldDrop(cfg, s.now, s.wall)
  }

  lemma AttemptStartsIff(s: State, r: Request, ws: Workers, out: Outcome)
    requires Attempt(s.workers, s.closed, s.now, s.wall, r, ws, out) && !Served(s.workers, r.id)
    ensures out.SentTo? <==> exists a :: Available(s, a, r)
  {
    if out.SentTo? {
      assert Available(s, out.addr, r);
    }
  }

  /** Submitting an id that is queued puts it on a worker as well exactly when, unlike the
      queued request, the new one can be started now. */
  lemma AssignDoublesIff(cfg: Config, s: State, r: Request, s': State)
    requires Inv(s) && Apart(s) && AssignProof(cfg, s, r, s')
    ensures !Apart(s') <==> InQueue(s.pending, r.id) && Startable(cfg, s, r)
  {
    var s0 := s.(submitted := s.submitted + [r.id]);
    var s1 :| Trimmed(cfg, s0, s1) && AssignNow(s1, r, s');
    TrimFrame(cfg, s0, s1);
    TrimOwes(cfg, s, r.id, s1);
    assert Apart(s1) by {
      forall i | 0 <= i < |s1.pending| ensures !Served(s1.workers, s1.pending[i].req.id) {
        assert !Served(s.workers, s.pending[i].req.id);
      }
    }
    assert (exists a :: Available(s1, a, r)) <==> Startable(cfg, s, r) by {
      if a :| Available(s1, a, r) {
        assert Available(s, a, r);
      }
      if a :| a in s.workers && Available(s, a, r) && !s.workers[a].ShouldDrop(cfg, s.now, s.wall) {
        assert Available(s1, a, r);
      }
    }
    AssignNowDoublesIff(s1, r, s');
  }

  lemma AssignNowDoublesIff(s: State, r: Request, s': State)
    requires BusyUnique(s.workers) && Apart(s) && AssignNow(s, r, s')
    ensures !Apart(s') <==> InQueue(s.pending, r.id) && exists a :: Available(s, a, r)
  {
    var ws, out :| AssignTried(s, r, ws, out, s');
    SettledFrame(s, r, ws, out);
    AttemptLoad(s, r, ws, out);
    if InQueue(s.pending, r.id) {
      var i :| 0 <= i < |s.pending| && s.pending[i].req.id == r.id;
      assert !Served(s.workers, r.id);
      AttemptStartsIff(s, r, ws, out);
      if out.SentTo? {
        assert OnWorkers(ws, r.id) == 1;
        assert s'.pending[i].req.id == r.id;
      } else {
        SettledStaysApart(s, r, ws, out);
      }
    } else {
      SettledStaysApart(s, r, ws, out);
    }
  }

  // Nothing queued is started, and what is queued now was not running.
  lemma SettledStaysApart(s: State, r: Request, ws: Workers, out: Outcome)
    requires Apart(s) && (out.SentTo? ==> out.addr in s.workers && !InQueue(s.pending, r.id))
    requires forall i :: OnWorkers(ws, i) == OnWorkers(s.workers, i) + (if out.SentTo? && i == r.id then 1 else 0)
    requires out.NoWorker? ==> !Served(s.workers, r.id)
    ensures Apart(Settled(s, r, ws, out))
  {
    SettledFrame(s, r, ws, out);
    var s' := Settled(s, r, ws, out);
    forall j | 0 <= j < |s'.pending| ensures !Served(ws, s'.pending[j].req.id) {
      if j < |s.pending| {
        assert OnWorkers(ws, s.pending[j].req.id) == OnWorkers(s.workers, s.pending[j].req.id) == 0;
      } else {
        assert OnWorkers(ws, r.id) == 0;
      }
    }
  }

  // ---------- a run that does it ----------

  const QUEUED := Sp1Request(7, Core, [])
  const STARTED := Risc0Request(7, Composite, None, [])
  const REG := Registration("w", Capabilities([Risc0], true, true), Some("http://magister"), 1, 0)

  function After1(): State {
    Initial(0, 0).(submitted := [7], pending := [Pending(QUEUED, 0)])
  }

  function After2(): State {
    After1().(workers := map["addr" := Enrolled(REG, Idle, 0)])
  }

  function After3(): State {
    After2().(submitted := [7, 7],
              workers := map["addr" := Enrolled(REG, Idle, 0).Assigned(STARTED, 0, 0)],
              sends := [Send("addr", Enrolled(REG, Idle, 0), STARTED, [Pending(QUEUED, 0)])])
  }

  lemma FirstQueued(cfg: Config)
    ensures Step(cfg, Initial(0, 0), Assign(QUEUED), After1())
  {
    var s := Initial(0, 0).(submitted := [7]);
    assert Initial(0, 0).submitted + [7] == [7];
    NothingToTrim(cfg, s);
    assert AssignTried(s, QUEUED, map[], NoWorker, After1());
  }

  lemma OneStaysQueued(s: State, p: Pending)
    requires s.pending == [p] && !Outlived(p, s.now) && !Served(s.workers, p.req.id)
    requires forall a :: !Candidate(s.workers, p.req, a)
    ensures Drained(s, s)
  {
    assert Purged(s) == s by {
      assert s.pending[..0] == [];
      assert Unexpired(s.pending[..0], s.now) == [] && ExpiryFates(s.pending[..0], s.now) == [];
      assert ExpiryFates(s.pending, s.now) == [] && Unexpired(s.pending, s.now) == [p];
      assert s.fates + [] == s.fates;
    }
    var c, c' := Cursor(s, 0), Cursor(s, 1);
    assert RetryWith(c, s.workers, NoWorker, c');
    assert Retry(c, c');
    assert RetryChain([c, c']);
    assert DrainTrace(s, [c, c'], s);
  }

  lemma ThenRegistered(cfg: Config)
    ensures Step(cfg, After1(), Ready("addr", REG), After2())
  {
    assert StaleChoice(After1(), "addr", REG, NoStale);
    assert Enlisted(After1(), "addr", REG, NoStale) == After2() by {
      assert After1().fates + [] == After1().fates;
    }
    assert !After2().workers["addr"].CanServe(QUEUED);
    OneStaysQueued(After2(), Pending(QUEUED, 0));
  }

  lemma ThenStarted(cfg: Config)
    requires cfg.maxStrikes > 0 && cfg.heartbeatInterval > 0
    ensures Step(cfg, After2(), Assign(STARTED), After3())
  {
    var s := After2().(submitted := [7, 7]);
    assert After2().submitted + [7] == [7, 7];
    NothingToTrim(cfg, s);
    var ws := After3().workers;
    assert Candidate(s.workers, STARTED, "addr");
    assert s.pending[..1] == s.pending;
    assert AssignTried(s, STARTED, ws, SentTo("addr", {}), After3());
  }

  lemma ThreeSteps(cfg: Config, s: seq<State>, e: seq<Event>)
    requires |s| == 4 && |e| == 3 && s[0] == Initial(s[0].now, s[0].wall)
    requires Step(cfg, s[0], e[0], s[1]) && Step(cfg, s[1], e[1], s[2]) && Step(cfg, s[2], e[2], s[3])
    ensures Run(cfg, s, e)
  {
  }

  /** The hypothesis on names is needed: here one id ends up queued and running at once. */
  lemma OneIdTwoRequests(cfg: Config)
    requires cfg.maxStrikes > 0 && cfg.heartbeatInterval > 0
    ensures Run(cfg, [Initial(0, 0), After1(), After2(), After3()],
                [Assign(QUEUED), Ready("addr", REG), Assign(STARTED)])
    ensures InQueue(After3().pending, 7) && Served(After3().workers, 7)
  {
    FirstQueued(cfg);
    ThenRegistered(cfg);
    ThenStarted(cfg);
    ThreeSteps(cfg, [Initial(0, 0), After1(), After2(), After3()],
               [Assign(QUEUED), Ready("addr", REG), Assign(STARTED)]);
    BothPlaces();
  }

  lemma BothPlaces()
    ensures InQueue(After3().pending, 7) && Served(After3().workers, 7)
  {
    assert After3().pending[0].req.id == 7;
    assert After3().workers["addr"].BusyWith(7);
  }
}
