/** Why a poll of the request service may hear "none" about a request that has finished. */
module SavedProofs {
  import opened Network
  import opened Worker
  import opened RegistryModel
  import opened Ledger
  import opened RegistryInvariant
  import opened RegistryTheorems
  import opened Responders
  import opened Gateway

  // ---------- who has heard from the registry ----------

  predicate Early(st: PollState) {
    st.KnownSeen? || st.MarkerAbsent? || st.ProofAbsent?
  }

  predicate InChannel(g: Gate, to: Responder) {
    exists j :: 0 <= j < |g.channel| && g.channel[j].Poll? && g.channel[j].to == to
  }

  ghost predicate ChannelOk(g: Gate) {
    && (forall j :: 0 <= j < |g.channel| && g.channel[j].Poll? ==> g.channel[j].to !in g.registry.asked)
    && (forall j, k :: 0 <= j < k < |g.channel| && g.channel[j].Poll? && g.channel[k].Poll? ==>
          g.channel[j].to != g.channel[k].to)
    && (forall j :: 0 <= j < |g.channel| && g.channel[j].Complete? ==>
          g.channel[j].id in g.phase || g.channel[j].id in g.foreign)
  }

  ghost predicate RespondersKnown(g: Gate) {
    && RespondersOk(g.registry) && g.polls.Keys !! g.others
    && (forall p :: p in g.registry.asked || InChannel(g, p) ==> p in g.polls || p in g.others)
    && (forall p :: p in g.polls && Early(g.polls[p]) ==> p !in g.registry.asked && !InChannel(g, p))
    && (forall p :: p in g.polls && (g.polls[p].Holding? || g.polls[p].Reported?) ==> p in g.registry.asked)
  }

  ghost predicate HeardInv(g: Gate) {
    GateInv(g) && ChannelOk(g) && RespondersKnown(g)
  }

  lemma ServeKeepsHeard(cfg: Config, g: Gate, g': Gate)
    requires HeardInv(g) && Act(cfg, g, Serve, g')
    ensures ChannelOk(g') && RespondersKnown(g')
  {
    var e := g.channel[0];
    StepAsks(cfg, g.registry, e, g'.registry);
    StepKeepsResponders(cfg, g.registry, e, g'.registry);
    assert forall j :: 0 <= j < |g'.channel| ==> g'.channel[j] == g.channel[j + 1];
    forall p | InChannel(g', p) ensures InChannel(g, p) {
      var j :| 0 <= j < |g'.channel| && g'.channel[j].Poll? && g'.channel[j].to == p;
      assert g.channel[j + 1].to == p;
    }
    assert e.Poll? ==> InChannel(g, e.to);
  }

  lemma SurroundingsKeepHeard(cfg: Config, g: Gate, e: Event, g': Gate)
    requires HeardInv(g) && Act(cfg, g, Surroundings(e), g')
    ensures ChannelOk(g') && RespondersKnown(g')
  {
    StepKeepsResponders(cfg, g.registry, e, g'.registry);
    assert forall p :: InChannel(g', p) <==> InChannel(g, p);
  }

  // Who is in the channel after a command was appended.
  lemma AppendedChannel(g: Gate, g': Gate, sent: seq<Event>, p: Responder)
    requires g'.channel == g.channel + sent && |sent| <= 1
    ensures InChannel(g', p) <==> InChannel(g, p) || (|sent| == 1 && sent[0].Poll? && sent[0].to == p)
  {
    if InChannel(g, p) {
      var j :| 0 <= j < |g.channel| && g.channel[j].Poll? && g.channel[j].to == p;
      assert g'.channel[j].to == p;
    }
    if |sent| == 1 {
      assert g'.channel[|g.channel|] == sent[0];
    }
  }

  lemma RoutingKeepsHeard(cfg: Config, g: Gate, act: Action, g': Gate)
    requires HeardInv(g) && Act(cfg, g, act, g') && IsRouting(act)
    ensures ChannelOk(g') && RespondersKnown(g')
  {
    var sent, id, p := RoutingHasShape(cfg, g, act, g');
    RoutingFrame(cfg, g, act, g', sent);
    AssignmentKeepsHeard(g, g', sent);
  }

  lemma AssignmentKeepsHeard(g: Gate, g': Gate, sent: seq<Event>)
    requires HeardInv(g) && g'.channel == g.channel + sent && |sent| <= 1 && (|sent| == 1 ==> sent[0].Assign?)
    requires g'.registry == g.registry && g'.polls == g.polls && g'.others == g.others && g.foreign == g'.foreign
    requires g.phase.Keys <= g'.phase.Keys
    ensures ChannelOk(g') && RespondersKnown(g')
  {
    forall q ensures InChannel(g', q) <==> InChannel(g, q) {
      AppendedChannel(g, g', sent, q);
    }
  }

  lemma RoutingFrame(cfg: Config, g: Gate, act: Action, g': Gate, sent: seq<Event>)
    requires Act(cfg, g, act, g') && IsRouting(act) && g'.channel == g.channel + sent && |sent| <= 1
    ensures g'.registry == g.registry && g'.polls == g.polls && g'.others == g.others && g.foreign == g'.foreign
    ensures g.phase.Keys <= g'.phase.Keys && (|sent| == 1 ==> sent[0].Assign?)
  {
    if |sent| == 1 {
      assert g'.channel[|g.channel|] == sent[0];
    }
  }

  lemma AskKeepsHeard(cfg: Config, g: Gate, to: Responder, g': Gate)
    requires HeardInv(g) && Act(cfg, g, AskRegistry(to), g')
    ensures ChannelOk(g') && RespondersKnown(g')
  {
    var e := Poll(g.polls[to].id, to);
    forall j | 0 <= j < |g.channel| && g.channel[j].Poll? ensures g.channel[j].to != to {
      assert InChannel(g, g.channel[j].to);
    }
    forall q ensures InChannel(g', q) <==> InChannel(g, q) || q == to {
      AppendedChannel(g, g', [e], q);
    }
  }

  lemma OtherKeepsHeard(cfg: Config, g: Gate, e: Event, g': Gate)
    requires HeardInv(g) && Act(cfg, g, OtherCommand(e), g')
    ensures ChannelOk(g') && RespondersKnown(g')
  {
    if e.Poll? {
      forall j | 0 <= j < |g.channel| && g.channel[j].Poll? ensures g.channel[j].to != e.to {
        assert InChannel(g, g.channel[j].to);
      }
    }
    forall q ensures InChannel(g', q) <==> InChannel(g, q) || (e.Poll? && q == e.to) {
      AppendedChannel(g, g', [e], q);
    }
  }

  lemma ProofWasAsked(s: State, to: Responder)
    requires RespondersOk(s) && HasProof(s, to)
    ensures to in s.asked
  {
    assert Answered(s, to);
  }

  // One poll moves on, and nothing else changes for responders.
  lemma PollMovesOn(g: Gate, g': Gate, to: Responder, st: PollState)
    requires RespondersKnown(g) && g'.registry == g.registry && g'.others == g.others && g'.polls == g.polls[to := st]
    requires forall q :: InChannel(g', q) <==> InChannel(g, q)
    requires to in g.polls || to !in g.others
    requires Early(st) && to in g.polls ==> Early(g.polls[to])
    requires st.Holding? || st.Reported? ==> to in g.registry.asked
    ensures RespondersKnown(g')
  {
  }

  lemma PollingKeepsChannel(cfg: Config, g: Gate, act: Action, g': Gate)
    requires HeardInv(g) && Act(cfg, g, act, g') && IsPolling(act) && !act.AskRegistry?
    ensures ChannelOk(g') && forall q :: InChannel(g', q) <==> InChannel(g, q)
  {
    PollingFrame(cfg, g, act, g');
    var sent := match act
                case RefuseProof(to) => [DropOf(g.polls[to].id)]
                case ReportDone(to) => [Complete(g.polls[to].id)]
                case _ => [];
    if act.ReportDone? {
      assert PastMarker(g.polls[act.to]) && Decided(g, g.polls[act.to].id);
    }
    forall q ensures InChannel(g', q) <==> InChannel(g, q) {
      AppendedChannel(g, g', sent, q);
    }
  }

  lemma PollingKeepsHeard(cfg: Config, g: Gate, act: Action, g': Gate)
    requires HeardInv(g) && Act(cfg, g, act, g') && IsPolling(act) && !act.AskRegistry?
    ensures ChannelOk(g') && RespondersKnown(g')
  {
    PollingKeepsChannel(cfg, g, act, g');
    if act.EvictProof? {
      assert g'.registry == g.registry && g'.polls == g.polls;
    } else {
      if act.AcceptProof? {
        ProofWasAsked(g.registry, act.to);
      }
      PollMovesOn(g, g', act.to, g'.polls[act.to]);
    }
  }

  lemma ActKeepsHeard(cfg: Config, g: Gate, act: Action, g': Gate)
    requires HeardInv(g) && Act(cfg, g, act, g')
    ensures HeardInv(g')
  {
    ActKeepsInv(cfg, g, act, g');
    if act.Serve? {
      ServeKeepsHeard(cfg, g, g');
    } else if act.Surroundings? {
      SurroundingsKeepHeard(cfg, g, act.change, g');
    } else if act.OtherCommand? {
      OtherKeepsHeard(cfg, g, act.cmd, g');
    } else if act.AskRegistry? {
      AskKeepsHeard(cfg, g, act.to, g');
    } else if IsRouting(act) {
      RoutingKeepsHeard(cfg, g, act, g');
    } else {
      PollingKeepsHeard(cfg, g, act, g');
    }
  }

  lemma {:induction false} RunHeard(cfg: Config, gates: seq<Gate>, acts: seq<Action>, i: nat)
    requires GateRun(cfg, gates, acts) && i < |gates|
    ensures HeardInv(gates[i])
  {
    if i == 0 {
      InitialInv(gates[0].registry);
      assert forall r :: !Answered(gates[0].registry, r);
    } else {
      RunHeard(cfg, gates, acts, i - 1);
      ActKeepsHeard(cfg, gates[i - 1], acts[i - 1], gates[i]);
    }
  }

  // ---------- one step back ----------

  predicate HasCommand(g: Gate, e: Event) {
    exists j :: 0 <= j < |g.channel| && g.channel[j] == e
  }

  /** What grows through every action. */
  ghost predicate GrowsTo(g: Gate, g': Gate) {
    && g.phase.Keys <= g'.phase.Keys && g.foreign <= g'.foreign && g.others <= g'.others
    && forall p :: p in g.registry.asked ==> p in g'.registry.asked
  }

  lemma ActGrows(cfg: Config, g: Gate, act: Action, g': Gate)
    requires HeardInv(g) && Act(cfg, g, act, g')
    ensures GrowsTo(g, g')
  {
    if act.Serve? {
      StepAsks(cfg, g.registry, g.channel[0], g'.registry);
    } else if act.Surroundings? {
      StepAsks(cfg, g.registry, act.change, g'.registry);
    } else if IsPolling(act) {
      PollingFrame(cfg, g, act, g');
    } else {
      QuietGrows(cfg, g, act, g');
    }
  }

  lemma QuietGrows(cfg: Config, g: Gate, act: Action, g': Gate)
    requires HeardInv(g) && Act(cfg, g, act, g') && (IsRouting(act) || act.OtherCommand?)
    ensures GrowsTo(g, g')
  {
  }

  // A command in the channel was there before, or its task has just sent it.
  lemma CommandCameFrom(cfg: Config, g: Gate, act: Action, g': Gate, e: Event)
    requires HeardInv(g) && Act(cfg, g, act, g') && HasCommand(g', e)
    ensures || HasCommand(g, e)
            || act == OtherCommand(e) || e.Assign? || e.DropOf?
            || (e.Poll? && act == AskRegistry(e.to) && PollIs(g, e.to, ProofAbsent(e.id)))
            || (e.Complete? && act.ReportDone? && PollIs(g, act.to, Holding(e.id)))
  {
    if act.Serve? || act.Surroundings? {
      RegistrySendsNothing(cfg, g, act, g', e);
    } else if IsPolling(act) {
      PollingCommandCameFrom(cfg, g, act, g', e);
    } else if IsRouting(act) {
      RoutingSendsAssignments(cfg, g, act, g', e);
    } else {
      AppendedCommand(g, g', [act.cmd], e);
    }
  }

  lemma RegistrySendsNothing(cfg: Config, g: Gate, act: Action, g': Gate, e: Event)
    requires Act(cfg, g, act, g') && HasCommand(g', e) && (act.Serve? || act.Surroundings?)
    ensures HasCommand(g, e)
  {
    var j :| 0 <= j < |g'.channel| && g'.channel[j] == e;
    assert g.channel[if act.Serve? then j + 1 else j] == e;
  }

  lemma RoutingSendsAssignments(cfg: Config, g: Gate, act: Action, g': Gate, e: Event)
    requires HeardInv(g) && Act(cfg, g, act, g') && HasCommand(g', e) && IsRouting(act)
    ensures HasCommand(g, e) || e.Assign?
  {
    var sent, id, p := RoutingHasShape(cfg, g, act, g');
    AppendedCommand(g, g', sent, e);
    RoutingFrame(cfg, g, act, g', sent);
  }

  lemma PollingCommandCameFrom(cfg: Config, g: Gate, act: Action, g': Gate, e: Event)
    requires Act(cfg, g, act, g') && HasCommand(g', e) && IsPolling(act)
    ensures || HasCommand(g, e) || e.DropOf?
            || (e.Poll? && act == AskRegistry(e.to) && PollIs(g, e.to, ProofAbsent(e.id)))
            || (e.Complete? && act.ReportDone? && PollIs(g, act.to, Holding(e.id)))
  {
    PollingFrame(cfg, g, act, g');
    AppendedCommand(g, g', g'.channel[|g.channel|..], e);
  }

  lemma AppendedCommand(g: Gate, g': Gate, sent: seq<Event>, e: Event)
    requires g'.channel == g.channel + sent && HasCommand(g', e)
    ensures HasCommand(g, e) || e in sent
  {
    var j :| 0 <= j < |g'.channel| && g'.channel[j] == e;
    if j < |g.channel| {
      assert g.channel[j] == e;
    } else {
      assert sent[j - |g.channel|] == e;
    }
  }

  /** The completion of `id`, a request of ours, is on its way or done. */
  ghost predicate Due(g: Gate, id: Id) {
    id in g.phase && (HasCommand(g, Complete(id)) || IsAt(g.registry, id, Finished))
  }

  lemma FinishedIsOurs(g: Gate, id: Id)
    requires GateInv(g) && IsAt(g.registry, id, Finished)
    ensures id in g.phase || id in g.foreign
  {
    CountsLocate(g.registry, id);
    assert multiset(g.registry.submitted)[id] == Places(g.registry, id);
    assert multiset(g.registry.submitted)[id] + Assigns(g.channel, id) <= if Assigned(g, id) then 1 else 0;
  }

  lemma FinishedCameFrom(cfg: Config, s: State, e: Event, s': State, id: Id)
    requires Step(cfg, s, e, s') && IsAt(s', id, Finished)
    ensures IsAt(s, id, Finished) || e == Complete(id)
  {
    StepFinishes(cfg, s, e, s');
    var i :| 0 <= i < |s'.history| && s'.history[i].id == id;
    assert i < |s.history| ==> s.history[i].id == id;
  }

  lemma DueCameFrom(cfg: Config, g: Gate, act: Action, g': Gate, id: Id)
    requires HeardInv(g) && HeardInv(g') && Act(cfg, g, act, g') && Due(g', id)
    ensures Due(g, id) || (act.ReportDone? && PollIs(g, act.to, Holding(id)))
  {
    ActGrows(cfg, g, act, g');
    if HasCommand(g', Complete(id)) {
      CommandCameFrom(cfg, g, act, g', Complete(id));
      if HasCommand(g, Complete(id)) {
        var j :| 0 <= j < |g.channel| && g.channel[j] == Complete(id);
        assert id in g.phase || id in g.foreign;
      }
    } else if act.Serve? {
      FinishedCameFrom(cfg, g.registry, g.channel[0], g'.registry, id);
      if g.channel[0] == Complete(id) {
        assert HasCommand(g, Complete(id));
      }
    } else {
      assert IsAt(g.registry, id, Finished) by {
        if act.Surroundings? {
          FinishedCameFrom(cfg, g.registry, act.change, g'.registry, id);
        } else {
          var sent, x, p := QuietHasShape(cfg, g, act, g');
        }
      }
      FinishedIsOurs(g, id);
    }
  }

  /** How one poll can move. */
  ghost predicate PollMoved(g: Gate, act: Action, g': Gate, q: Responder)
    requires q in g'.polls
  {
    && (q in g.polls && g.polls[q].Told? ==> g'.polls[q].Told?)
    && (q in g.polls && g.polls[q].Holding? ==> g'.polls[q] in {g.polls[q], Reported(g.polls[q].id), Told})
    && (q in g.polls && g.polls[q].Reported? ==> g'.polls[q] in {g.polls[q], Told})
    && (g'.polls[q].ProofAbsent? ==>
          || PollIs(g, q, g'.polls[q])
          || (act.MissProof? && act.to == q && PollIs(g, q, MarkerAbsent(g'.polls[q].id))))
  }

  lemma PollCameFrom(cfg: Config, g: Gate, act: Action, g': Gate, q: Responder)
    requires Act(cfg, g, act, g') && q in g'.polls
    ensures PollMoved(g, act, g', q)
  {
    if !IsPolling(act) {
      OthersLeavePolls(cfg, g, act, g');
    }
  }

  lemma PollsStay(cfg: Config, g: Gate, act: Action, g': Gate)
    requires HeardInv(g) && Act(cfg, g, act, g')
    ensures g.polls.Keys <= g'.polls.Keys
  {
    if IsPolling(act) {
      OnePollMoves(cfg, g, act, g');
    } else {
      OthersLeavePolls(cfg, g, act, g');
    }
  }

  lemma OnePollMoves(cfg: Config, g: Gate, act: Action, g': Gate)
    requires Act(cfg, g, act, g') && IsPolling(act)
    ensures g'.polls == g.polls || (!act.EvictProof? && act.to in g'.polls && g'.polls == g.polls[act.to := g'.polls[act.to]])
  {
  }

  lemma OthersLeavePolls(cfg: Config, g: Gate, act: Action, g': Gate)
    requires Act(cfg, g, act, g') && !IsPolling(act)
    ensures g'.polls == g.polls && g'.fulfilled == g.fulfilled
  {
  }

  /** What the following needs to know about one action. */
  ghost predicate Tracked(g: Gate, act: Action, g': Gate) {
    && HeardInv(g) && GrowsTo(g, g') && g.polls.Keys <= g'.polls.Keys
    && (forall id :: Due(g', id) ==> Due(g, id) || (act.ReportDone? && PollIs(g, act.to, Holding(id))))
    && (forall id, to :: HasCommand(g', Poll(id, to)) && to !in g'.others ==>
          HasCommand(g, Poll(id, to)) || PollIs(g, to, ProofAbsent(id)))
    && (forall q :: q in g'.polls ==> PollMoved(g, act, g', q))
    && (forall id :: id in g.saved && act != EvictProof(id) ==> id in g'.saved)
    && (act.SaveProof? ==> act.to in g.polls && g.polls[act.to].Reported? && g.polls[act.to].id in g'.saved)
    && (act.MissProof? && !act.readFails ==> act.to in g.polls && g.polls[act.to].MarkerAbsent? && g.polls[act.to].id !in g.saved)
  }

  lemma ActIsTracked(cfg: Config, g: Gate, act: Action, g': Gate)
    requires HeardInv(g) && HeardInv(g') && Act(cfg, g, act, g')
    ensures Tracked(g, act, g')
  {
    ActGrows(cfg, g, act, g');
    PollsStay(cfg, g, act, g');
    forall id | Due(g', id) ensures Due(g, id) || (act.ReportDone? && PollIs(g, act.to, Holding(id))) {
      DueCameFrom(cfg, g, act, g', id);
    }
    forall id, to | HasCommand(g', Poll(id, to)) && to !in g'.others
      ensures HasCommand(g, Poll(id, to)) || PollIs(g, to, ProofAbsent(id))
    {
      CommandCameFrom(cfg, g, act, g', Poll(id, to));
    }
    forall q | q in g'.polls ensures PollMoved(g, act, g', q) {
      PollCameFrom(cfg, g, act, g', q);
    }
    SavingFrame(cfg, g, act, g');
  }

  lemma SavingFrame(cfg: Config, g: Gate, act: Action, g': Gate)
    requires Act(cfg, g, act, g')
    ensures forall id :: id in g.saved && act != EvictProof(id) ==> id in g'.saved
    ensures act.SaveProof? ==> act.to in g.polls && g.polls[act.to].Reported? && g.polls[act.to].id in g'.saved
    ensures act.MissProof? && !act.readFails ==>
              act.to in g.polls && g.polls[act.to].MarkerAbsent? && g.polls[act.to].id !in g.saved
  {
  }

  // ---------- over whole runs ----------

  ghost predicate TrackedRun(gates: seq<Gate>, acts: seq<Action>) {
    && |gates| == |acts| + 1 && gates[0] == Opened(gates[0].registry.now, gates[0].registry.wall)
    && forall i :: 0 <= i < |acts| ==> Tracked(gates[i], acts[i], gates[i + 1])
  }

  lemma RunIsTracked(cfg: Config, gates: seq<Gate>, acts: seq<Action>)
    requires GateRun(cfg, gates, acts)
    ensures TrackedRun(gates, acts)
  {
    forall i | 0 <= i < |acts| ensures Tracked(gates[i], acts[i], gates[i + 1]) {
      StepIsTracked(cfg, gates, acts, i);
    }
  }

  lemma StepIsTracked(cfg: Config, gates: seq<Gate>, acts: seq<Action>, i: nat)
    requires GateRun(cfg, gates, acts) && i < |acts|
    ensures Tracked(gates[i], acts[i], gates[i + 1])
  {
    RunHeard(cfg, gates, acts, i);
    RunHeard(cfg, gates, acts, i + 1);
    ActIsTracked(cfg, gates[i], acts[i], gates[i + 1]);
  }

  ghost predicate Reports(gates: seq<Gate>, acts: seq<Action>, r: nat, q: Responder, id: Id) {
    r < |acts| && r < |gates| && acts[r] == ReportDone(q) && PollIs(gates[r], q, Holding(id))
  }

  ghost predicate Looks(gates: seq<Gate>, acts: seq<Action>, l: nat, to: Responder, id: Id) {
    l < |acts| && l < |gates| && acts[l].MissProof? && acts[l].to == to && PollIs(gates[l], to, MarkerAbsent(id))
  }

  lemma {:induction false} CompletionWasReported(gates: seq<Gate>, acts: seq<Action>, i: nat, id: Id)
    returns (r: nat, q: Responder)
    requires TrackedRun(gates, acts) && i < |gates| && Due(gates[i], id)
    ensures r < i && Reports(gates, acts, r, q, id)
  {
    assert i > 0;
    var j := i - 1;
    assert Tracked(gates[j], acts[j], gates[j + 1]);
    if Due(gates[j], id) {
      r, q := CompletionWasReported(gates, acts, j, id);
    } else {
      r, q := j, acts[j].to;
    }
  }

  lemma {:induction false} WasAsked(gates: seq<Gate>, acts: seq<Action>, i: nat, to: Responder, id: Id) returns (t: nat)
    requires TrackedRun(gates, acts) && i < |gates| && HasCommand(gates[i], Poll(id, to)) && to !in gates[i].others
    ensures t < i && PollIs(gates[t], to, ProofAbsent(id))
  {
    assert i > 0;
    var j := i - 1;
    assert Tracked(gates[j], acts[j], gates[j + 1]);
    if HasCommand(gates[j], Poll(id, to)) {
      t := WasAsked(gates, acts, j, to, id);
    } else {
      t := j;
    }
  }

  lemma {:induction false} HadLooked(gates: seq<Gate>, acts: seq<Action>, t: nat, to: Responder, id: Id) returns (l: nat)
    requires TrackedRun(gates, acts) && t < |gates| && PollIs(gates[t], to, ProofAbsent(id))
    ensures l < t && Looks(gates, acts, l, to, id)
  {
    assert t > 0;
    var j := t - 1;
    assert Tracked(gates[j], acts[j], gates[j + 1]);
    assert PollMoved(gates[j], acts[j], gates[j + 1], to);
    if PollIs(gates[j], to, ProofAbsent(id)) {
      l := HadLooked(gates, acts, j, to, id);
    } else {
      l := j;
    }
  }

  lemma {:induction false} AfterHolding(gates: seq<Gate>, acts: seq<Action>, r: nat, t: nat, q: Responder, id: Id)
    requires TrackedRun(gates, acts) && r <= t < |gates| && PollIs(gates[r], q, Holding(id))
    ensures q in gates[t].polls && gates[t].polls[q] in {Holding(id), Reported(id), Told}
  {
    if r < t {
      var j := t - 1;
      AfterHolding(gates, acts, r, j, q, id);
      assert Tracked(gates[j], acts[j], gates[j + 1]);
      assert PollMoved(gates[j], acts[j], gates[j + 1], q);
    }
  }

  lemma {:induction false} RunGrows(gates: seq<Gate>, acts: seq<Action>, i: nat, j: nat)
    requires TrackedRun(gates, acts) && i <= j < |gates|
    ensures GrowsTo(gates[i], gates[j])
  {
    if i < j {
      RunGrows(gates, acts, i, j - 1);
      assert Tracked(gates[j - 1], acts[j - 1], gates[j - 1 + 1]);
    }
  }

  lemma {:induction false} StaysSaved(gates: seq<Gate>, acts: seq<Action>, m: nat, l: nat, id: Id)
    requires TrackedRun(gates, acts) && m < l < |gates| && id in gates[m + 1].saved
    requires forall n :: m < n < l ==> acts[n] != EvictProof(id)
    ensures id in gates[l].saved
  {
    if m + 1 < l {
      var k := l - 1;
      StaysSaved(gates, acts, m, k, id);
      assert Tracked(gates[k], acts[k], gates[k + 1]);
    }
  }

  /** Up to step `l`, the poll `q` that reported completion in step `r` has not saved the proof,
      or it was evicted again. */
  ghost predicate NotSavedBy(acts: seq<Action>, r: nat, q: Responder, l: nat, id: Id)
    requires l <= |acts|
  {
    forall m :: r < m < l && acts[m] == SaveProof(q) ==> exists n :: m < n < l && acts[n] == EvictProof(id)
  }

  lemma SavedThenEvicted(gates: seq<Gate>, acts: seq<Action>, r: nat, q: Responder, m: nat, l: nat, id: Id)
    requires TrackedRun(gates, acts) && Reports(gates, acts, r, q, id) && r < m < l < |gates|
    requires acts[m] == SaveProof(q) && id !in gates[l].saved
    ensures exists n :: m < n < l && acts[n] == EvictProof(id)
  {
    AfterHolding(gates, acts, r, m, q, id);
    assert Tracked(gates[m], acts[m], gates[m + 1]);
    if forall n :: m < n < l ==> acts[n] != EvictProof(id) {
      StaysSaved(gates, acts, m, l, id);
    }
  }

  lemma MissMeansNotSaved(gates: seq<Gate>, acts: seq<Action>, r: nat, q: Responder, l: nat, to: Responder, id: Id)
    requires TrackedRun(gates, acts) && Reports(gates, acts, r, q, id) && Looks(gates, acts, l, to, id)
    requires !acts[l].readFails
    ensures NotSavedBy(acts, r, q, l, id)
  {
    assert Tracked(gates[l], acts[l], gates[l + 1]);
    forall m | r < m < l && acts[m] == SaveProof(q) ensures exists n :: m < n < l && acts[n] == EvictProof(id) {
      SavedThenEvicted(gates, acts, r, q, m, l, id);
    }
  }

  lemma WhenLooked(gates: seq<Gate>, acts: seq<Action>, i: nat, id: Id, to: Responder) returns (l: nat)
    requires TrackedRun(gates, acts) && i < |acts| && HasCommand(gates[i], Poll(id, to)) && to in gates[i].polls
    ensures l < i && Looks(gates, acts, l, to, id) && id in gates[i].phase
  {
    assert Tracked(gates[i], acts[i], gates[i + 1]);
    var t := WasAsked(gates, acts, i, to, id);
    l := HadLooked(gates, acts, t, to, id);
    assert Tracked(gates[t], acts[t], gates[t + 1]);
    assert PastMarker(gates[t].polls[to]) && Decided(gates[t], id);
    RunGrows(gates, acts, t, i);
  }

  lemma WhoReported(gates: seq<Gate>, acts: seq<Action>, i: nat, id: Id, to: Responder) returns (r: nat, q: Responder)
    requires TrackedRun(gates, acts) && i < |acts| && acts[i].Serve? && id in gates[i].phase
    requires InChannel(gates[i], to) && IsAt(gates[i + 1].registry, id, Finished)
    ensures r < i && q != to && Reports(gates, acts, r, q, id)
  {
    RunGrows(gates, acts, i, i + 1);
    r, q := CompletionWasReported(gates, acts, i + 1, id);
    RunGrows(gates, acts, r, i);
    assert Tracked(gates[r], acts[r], gates[r + 1]) && Tracked(gates[i], acts[i], gates[i + 1]);
    assert q in gates[r].registry.asked;
  }

  /** Another poll had reported completion, and when this one looked for the proof, that poll had
      not saved it yet, or it was evicted again, or could not be read. */
  ghost predicate NotThereYet(gates: seq<Gate>, acts: seq<Action>, i: nat, to: Responder, id: Id)
    requires i <= |acts|
  {
    exists r: nat, q, l: nat ::
      && r < i && q != to && Reports(gates, acts, r, q, id)
      && l < i && Looks(gates, acts, l, to, id) && (acts[l].readFails || NotSavedBy(acts, r, q, l, id))
  }

  lemma LookedTooEarly(gates: seq<Gate>, acts: seq<Action>, i: nat, id: Id, to: Responder)
    requires TrackedRun(gates, acts) && i < |acts| && acts[i].Serve? && HasCommand(gates[i], Poll(id, to))
    requires InChannel(gates[i], to) && to in gates[i].polls && IsAt(gates[i + 1].registry, id, Finished)
    ensures NotThereYet(gates, acts, i, to, id)
  {
    var l := WhenLooked(gates, acts, i, id, to);
    var r, q := WhoReported(gates, acts, i, id, to);
    if !acts[l].readFails {
      MissMeansNotSaved(gates, acts, r, q, l, to, id);
    }
  }

  /** When the registry serves a poll of ours for a request that has finished, and so answers
      "none", the proof was not there yet when the poll looked for it. */
  lemma FinishedButLost(cfg: Config, gates: seq<Gate>, acts: seq<Action>, i: nat, id: Id, to: Responder)
    requires GateRun(cfg, gates, acts) && i < |acts| && acts[i].Serve? && |gates[i].channel| > 0
    requires gates[i].channel[0] == Poll(id, to) && to in gates[i].polls && IsAt(gates[i + 1].registry, id, Finished)
    ensures NotThereYet(gates, acts, i, to, id)
  {
    RunIsTracked(cfg, gates, acts);
    assert HasCommand(gates[i], Poll(id, to)) && InChannel(gates[i], to);
    LookedTooEarly(gates, acts, i, id, to);
  }

  // ---------- what "fulfilled" means ----------

  lemma SavedCameFrom(cfg: Config, g: Gate, act: Action, g': Gate, id: Id)
    requires Act(cfg, g, act, g') && id in g'.saved
    ensures id in g.saved || (act.SaveProof? && PollIs(g, act.to, Reported(id)))
  {
  }

  lemma FulfilledCameFrom(cfg: Config, g: Gate, act: Action, g': Gate, to: Responder)
    requires Act(cfg, g, act, g') && to in g'.fulfilled
    ensures || (to in g.fulfilled && g.fulfilled[to] == g'.fulfilled[to])
            || (act == FindProof(to) && g'.fulfilled[to] in g.saved)
            || (act == SaveProof(to) && PollIs(g, to, Reported(g'.fulfilled[to])))
  {
    if !IsPolling(act) {
      OthersLeavePolls(cfg, g, act, g');
    }
  }

  lemma HandsCameFrom(cfg: Config, g: Gate, act: Action, g': Gate, q: Responder)
    requires Act(cfg, g, act, g') && q in g'.polls && (g'.polls[q].Holding? || g'.polls[q].Reported?)
    ensures q in g.polls
    ensures || ((g.polls[q].Holding? || g.polls[q].Reported?) && g.polls[q].id == g'.polls[q].id)
            || (act == AcceptProof(q) && PollIs(g, q, Asked(g'.polls[q].id)) && HasProof(g.registry, q))
  {
    if !IsPolling(act) {
      OthersLeavePolls(cfg, g, act, g');
    }
  }

  /** In step `t` poll `q` of `id` accepted the proof that the registry had answered it with. */
  ghost predicate Accepts(gates: seq<Gate>, acts: seq<Action>, t: nat, q: Responder, id: Id) {
    t < |acts| && t < |gates| && acts[t] == AcceptProof(q) && PollIs(gates[t], q, Asked(id)) && HasProof(gates[t].registry, q)
  }

  lemma {:induction false} HandsWereFilled(cfg: Config, gates: seq<Gate>, acts: seq<Action>, i: nat, q: Responder) returns (t: nat)
    requires GateRun(cfg, gates, acts) && i < |gates| && q in gates[i].polls
    requires gates[i].polls[q].Holding? || gates[i].polls[q].Reported?
    ensures t < i && Accepts(gates, acts, t, q, gates[i].polls[q].id)
  {
    assert i > 0;
    var j := i - 1;
    HandsCameFrom(cfg, gates[j], acts[j], gates[j + 1], q);
    if gates[j].polls[q].Holding? || gates[j].polls[q].Reported? {
      t := HandsWereFilled(cfg, gates, acts, j, q);
    } else {
      t := j;
    }
  }

  lemma {:induction false} SavedWasAccepted(cfg: Config, gates: seq<Gate>, acts: seq<Action>, i: nat, id: Id)
    returns (t: nat, q: Responder)
    requires GateRun(cfg, gates, acts) && i < |gates| && id in gates[i].saved
    ensures t < i && Accepts(gates, acts, t, q, id)
  {
    assert i > 0;
    var j := i - 1;
    SavedCameFrom(cfg, gates[j], acts[j], gates[j + 1], id);
    if id in gates[j].saved {
      t, q := SavedWasAccepted(cfg, gates, acts, j, id);
    } else {
      q := acts[j].to;
      t := HandsWereFilled(cfg, gates, acts, j, q);
    }
  }

  /** A client is told that its proof is there only after some poll of that request was answered
      with a proof by the registry, and accepted it. */
  lemma {:induction false} FulfilledWasAccepted(cfg: Config, gates: seq<Gate>, acts: seq<Action>, i: nat, to: Responder)
    returns (t: nat, q: Responder)
    requires GateRun(cfg, gates, acts) && i < |gates| && to in gates[i].fulfilled
    ensures t < i && Accepts(gates, acts, t, q, gates[i].fulfilled[to])
  {
    assert i > 0;
    var j := i - 1;
    FulfilledCameFrom(cfg, gates[j], acts[j], gates[j + 1], to);
    var id := gates[i].fulfilled[to];
    if to in gates[j].fulfilled && gates[j].fulfilled[to] == id {
      t, q := FulfilledWasAccepted(cfg, gates, acts, j, to);
    } else if acts[j] == FindProof(to) {
      t, q := SavedWasAccepted(cfg, gates, acts, j, id);
    } else {
      q := to;
      t := HandsWereFilled(cfg, gates, acts, j, to);
    }
  }
}
