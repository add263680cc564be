/** OpenVM jobs: creation, status polls and downloads, interleaved at every lock and await.
    The worker registry's answers and the proof verifier are arbitrary. */
module OpenVmJobs {
  import opened Network
  import opened ProofStatus

  type JobId = string
  type PollId = nat

  datatype Job = Job(request: Id, program: string, config: Option<string>, mode: OpenVmMode, error: Option<string>)

  datatype Reply = Failed | Succeeded | Running | NotFound | ServerError

  // Where a status poll of `job` stands between two awaits; `seen` is the job as first read.
  datatype Poll =
    | Loaded(job: JobId, seen: Job)                           // no failure was recorded
    | Asking(job: JobId, seen: Job)                           // and no proof was stored
    | Awaiting(job: JobId, seen: Job)                         // the registry has been asked
    | Failing(job: JobId, seen: Job, message: string)         // about to record a failure
    | Fetched(job: JobId, seen: Job, bytes: Bytes)            // proof bytes in hand
    | Verifying(job: JobId, seen: Job, elf: Bytes, bytes: Bytes)
    | Refused(job: JobId, seen: Job)                          // not accepted: the worker has to go
    | Accepted(job: JobId, seen: Job, elf: Bytes, bytes: Bytes)
    | Storing(job: JobId, seen: Job, elf: Bytes, bytes: Bytes) // the registry was told first

  datatype Answered = Answered(job: JobId, reply: Reply)

  datatype Desk = Desk(
    programs: map<string, Bytes>,
    inputs: map<string, seq<Bytes>>,
    jobs: map<JobId, Job>,
    proofs: map<JobId, Bytes>,
    polls: map<PollId, Poll>,
    used: set<PollId>,             // every poll ever begun
    stored: set<(string, Bytes)>,  // every program ever uploaded, with its id
    replies: seq<Answered>)

  const Opening := Desk(map[], map[], map[], map[], map[], {}, {}, [])

  type Verifier = (Bytes, Option<string>, OpenVmMode, Bytes) -> bool

  // The steps a poll can take next, with what the outside world contributes.
  datatype PollStep =
    | CheckProof
    | AskRegistry
    | RegistryAnswers(status: ClientStatus)
    | RegistryErrs
    | FetchProgram
    | Verify
    | VerifierDies
    | DropWorker
    | RecordFailure
    | TellRegistry
    | StoreProof

  datatype Next = Stuck | Go(poll: Poll) | Say(reply: Reply)

  const UNFULFILLED := "proof reported unfulfillable by worker registry"
  const INVALID := "worker returned invalid proof"

  /** What a poll does next.  The registry's answer decides: lost or unexecutable fails the job,
      a fulfilled status with bytes goes on to verification, anything else is still running. */
  function NextOf(v: Verifier, d: Desk, poll: Poll, step: PollStep): Next {
    match (poll, step)
    case (Loaded(job, seen), CheckProof) => if job in d.proofs then Say(Succeeded) else Go(Asking(job, seen))
    case (Asking(job, seen), AskRegistry) => Go(Awaiting(job, seen))
    case (Awaiting(job, seen), RegistryAnswers(status)) =>
      if status.fulfillment == UNFULFILLABLE then Go(Failing(job, seen, UNFULFILLED))
      else if status.fulfillment != FULFILLED || status.proof == [] then Say(Running)
      else Go(Fetched(job, seen, status.proof))
    case (Awaiting(_, _), RegistryErrs) => Say(ServerError)
    case (Fetched(job, seen, bytes), FetchProgram) =>
      if seen.program in d.programs then Go(Verifying(job, seen, d.programs[seen.program], bytes)) else Say(ServerError)
    case (Verifying(job, seen, elf, bytes), Verify) =>
      if v(elf, seen.config, seen.mode, bytes) then Go(Accepted(job, seen, elf, bytes)) else Go(Refused(job, seen))
    case (Verifying(_, _, _, _), VerifierDies) => Say(ServerError)
    case (Refused(job, seen), DropWorker) => Go(Failing(job, seen, INVALID))
    case (Failing(_, _, _), RecordFailure) => Say(Failed)
    case (Accepted(job, seen, elf, bytes), TellRegistry) => Go(Storing(job, seen, elf, bytes))
    case (Storing(_, _, _, _), StoreProof) => Say(Succeeded)
    case _ => Stuck
  }

  // The two steps that change the tables.
  function Effect(d: Desk, poll: Poll, step: PollStep): Desk {
    match (poll, step)
    case (Failing(job, _, message), RecordFailure) =>
      if job in d.jobs then d.(jobs := d.jobs[job := d.jobs[job].(error := Some(message))]) else d
    case (Storing(job, _, _, bytes), StoreProof) => d.(proofs := d.proofs[job := bytes])
    case _ => d
  }

  function Land(d: Desk, p: PollId, job: JobId, next: Next): Desk {
    match next
    case Stuck => d
    case Go(poll) => d.(polls := d.polls[p := poll])
    case Say(reply) => d.(polls := d.polls - {p}, replies := d.replies + [Answered(job, reply)])
  }

  datatype Action =
    | PutProgram(id: string, elf: Bytes)
    | PutInput(id: string, streams: seq<Bytes>)
    | CreateJob(job: JobId, request: Id, program: string, input: string, config: Option<string>, mode: OpenVmMode, routed: bool)
    | LoadJob(poll: PollId, job: JobId)
    | Advance(poll: PollId, step: PollStep)

  // A poll of an unknown or failed job is answered at once.
  function LoadNext(d: Desk, job: JobId): Next {
    if job !in d.jobs then Say(NotFound)
    else if d.jobs[job].error.Some? then Say(Failed)
    else Go(Loaded(job, d.jobs[job]))
  }

  predicate Requested(d: Desk, request: Id) {
    exists x :: x in d.jobs && d.jobs[x].request == request
  }

  function After(v: Verifier, d: Desk, act: Action): Desk {
    match act
    case PutProgram(id, elf) => d.(programs := d.programs[id := elf], stored := d.stored + {(id, elf)})
    case PutInput(id, streams) => d.(inputs := d.inputs[id := streams])
    case CreateJob(job, request, program, _, config, mode, _) =>
      d.(jobs := d.jobs[job := Job(request, program, config, mode, None)])
    case LoadJob(p, job) => Land(d.(used := d.used + {p}), p, job, LoadNext(d, job))
    case Advance(p, step) =>
      if p in d.polls then Land(Effect(d, d.polls[p], step), p, d.polls[p].job, NextOf(v, d, d.polls[p], step)) else d
  }

  // Job, request and poll ids are fresh, jobs are created for known programs and inputs, and a
  // poll takes only steps open to it.  The entry of a job outlives a failure to route it.
  predicate Enabled(v: Verifier, d: Desk, act: Action) {
    match act
    case CreateJob(job, request, program, input, _, _, _) =>
      job !in d.jobs && program in d.programs && input in d.inputs && !Requested(d, request)
    case LoadJob(p, _) => p !in d.used && p !in d.polls
    case Advance(p, step) => p in d.polls && !NextOf(v, d, d.polls[p], step).Stuck?
    case _ => true
  }

  ghost predicate Act(v: Verifier, d: Desk, act: Action, d': Desk) {
    Enabled(v, d, act) && d' == After(v, d, act)
  }

  // ---------- what is downloadable ----------

  /** `bytes` was accepted for the job's mode and config with a program stored under its id. */
  ghost predicate Vouched(v: Verifier, d: Desk, j: Job, elf: Bytes, bytes: Bytes) {
    (j.program, elf) in d.stored && v(elf, j.config, j.mode, bytes)
  }

  predicate SameJob(j: Job, k: Job) {
    k == j.(error := k.error)
  }

  ghost predicate PollOk(v: Verifier, d: Desk, poll: Poll) {
    && poll.job in d.jobs && SameJob(poll.seen, d.jobs[poll.job])
    && (poll.Verifying? ==> (poll.seen.program, poll.elf) in d.stored)
    && (poll.Accepted? || poll.Storing? ==> Vouched(v, d, poll.seen, poll.elf, poll.bytes))
  }

  ghost predicate PollsOk(v: Verifier, d: Desk) {
    && (forall k :: k in d.programs ==> (k, d.programs[k]) in d.stored)
    && (forall p :: p in d.polls ==> PollOk(v, d, d.polls[p]))
  }

  ghost predicate Sound(v: Verifier, d: Desk) {
    && PollsOk(v, d)
    && (forall x :: x in d.proofs ==> ProofOk(v, d, x))
    && RepliesOk(d)
  }

  /** A success was told only with a proof stored, a failure only with one recorded. */
  ghost predicate ReplyOk(d: Desk, a: Answered) {
    && (a.reply.Succeeded? ==> a.job in d.proofs)
    && (a.reply.Failed? ==> a.job in d.jobs && d.jobs[a.job].error.Some?)
  }

  ghost predicate RepliesOk(d: Desk) {
    forall i :: 0 <= i < |d.replies| ==> ReplyOk(d, d.replies[i])
  }

  /** Jobs keep their data, recorded failures stay recorded, stored proofs stay stored. */
  ghost predicate Persists(d: Desk, d': Desk) {
    && d.stored <= d'.stored && d.replies <= d'.replies
    && (forall x :: x in d.jobs ==> x in d'.jobs && SameJob(d.jobs[x], d'.jobs[x]))
    && (forall x :: x in d.jobs && d.jobs[x].error.Some? ==> d'.jobs[x].error.Some?)
    && (forall x :: x in d.proofs ==> x in d'.proofs)
  }

  lemma PersistsTrans(d: Desk, e: Desk, f: Desk)
    requires Persists(d, e) && Persists(e, f)
    ensures Persists(d, f)
  {
  }

  lemma EffectPersists(d: Desk, poll: Poll, step: PollStep)
    ensures Persists(d, Effect(d, poll, step))
  {
  }

  lemma LandPersists(d: Desk, p: PollId, job: JobId, next: Next)
    ensures Persists(d, Land(d, p, job, next))
  {
  }

  lemma ActPersists(v: Verifier, d: Desk, act: Action, d': Desk)
    requires Act(v, d, act, d')
    ensures Persists(d, d')
  {
    if act.Advance? {
      var poll := d.polls[act.poll];
      var e := Effect(d, poll, act.step);
      EffectPersists(d, poll, act.step);
      LandPersists(e, act.poll, poll.job, NextOf(v, d, poll, act.step));
      PersistsTrans(d, e, d');
    } else if act.LoadJob? {
      LandPersists(d.(used := d.used + {act.poll}), act.poll, act.job, LoadNext(d, act.job));
    }
  }

  lemma PollOkStays(v: Verifier, d: Desk, d': Desk, poll: Poll)
    requires Persists(d, d') && PollOk(v, d, poll)
    ensures PollOk(v, d', poll)
  {
  }

  lemma NextIsOk(v: Verifier, d: Desk, poll: Poll, step: PollStep)
    requires PollOk(v, d, poll) && forall k :: k in d.programs ==> (k, d.programs[k]) in d.stored
    ensures NextOf(v, d, poll, step).Go? ==>
              PollOk(v, d, NextOf(v, d, poll, step).poll) && NextOf(v, d, poll, step).poll.job == poll.job
  {
  }

  lemma ActKeepsPolls(v: Verifier, d: Desk, act: Action, d': Desk)
    requires PollsOk(v, d) && Act(v, d, act, d')
    ensures PollsOk(v, d')
  {
    ActPersists(v, d, act, d');
    forall p | p in d'.polls ensures PollOk(v, d', d'.polls[p]) {
      NewPollOk(v, d, act, d', p);
      PollOkStays(v, d, d', d'.polls[p]);
    }
  }

  // The action is one of poll `p`.
  predicate ActsFor(act: Action, p: PollId) {
    (act.LoadJob? || act.Advance?) && act.poll == p
  }

  lemma EffectLeavesPolls(d: Desk, poll: Poll, step: PollStep)
    ensures Effect(d, poll, step).polls == d.polls
  {
  }

  lemma OthersLeavePoll(v: Verifier, d: Desk, act: Action, p: PollId)
    requires Enabled(v, d, act) && !ActsFor(act, p)
    ensures var d' := After(v, d, act);
            (p in d'.polls <==> p in d.polls) && (p in d.polls ==> d'.polls[p] == d.polls[p])
  {
    match act
    case Advance(q, step) =>
      EffectLeavesPolls(d, d.polls[q], step);
      LandLeavesOthers(Effect(d, d.polls[q], step), q, d.polls[q].job, NextOf(v, d, d.polls[q], step), p);
    case LoadJob(q, job) => LandLeavesOthers(d.(used := d.used + {q}), q, job, LoadNext(d, job), p);
    case _ =>
  }

  lemma LandLeavesOthers(d: Desk, q: PollId, job: JobId, next: Next, p: PollId)
    requires p != q
    ensures var d' := Land(d, q, job, next);
            (p in d'.polls <==> p in d.polls) && (p in d.polls ==> d'.polls[p] == d.polls[p])
  {
  }

  // Every poll of the new state is one that the old tables already justify.
  lemma NewPollOk(v: Verifier, d: Desk, act: Action, d': Desk, p: PollId)
    requires PollsOk(v, d) && Act(v, d, act, d') && p in d'.polls
    ensures PollOk(v, d, d'.polls[p])
  {
    if !ActsFor(act, p) {
      OthersLeavePoll(v, d, act, p);
    } else if act.Advance? {
      var poll := d.polls[p];
      EffectLeavesPolls(d, poll, act.step);
      assert PollOk(v, d, poll);
      NextIsOk(v, d, poll, act.step);
    }
  }

  ghost predicate ProofOk(v: Verifier, d: Desk, x: JobId)
    requires x in d.proofs
  {
    x in d.jobs && exists elf :: Vouched(v, d, d.jobs[x], elf, d.proofs[x])
  }

  lemma ProofOkStays(v: Verifier, d: Desk, d': Desk, x: JobId)
    requires Persists(d, d') && x in d.proofs && x in d'.proofs && ProofOk(v, d, x) && d'.proofs[x] == d.proofs[x]
    ensures ProofOk(v, d', x)
  {
    var elf :| Vouched(v, d, d.jobs[x], elf, d.proofs[x]);
    assert Vouched(v, d', d'.jobs[x], elf, d'.proofs[x]);
  }

  lemma ActKeepsProofs(v: Verifier, d: Desk, act: Action, d': Desk)
    requires Sound(v, d) && Act(v, d, act, d')
    ensures forall x :: x in d'.proofs ==> ProofOk(v, d', x)
  {
    ActPersists(v, d, act, d');
    if act.Advance? && act.step.StoreProof? {
      StoredIsOk(v, d, act.poll, d');
    } else {
      OnlyStoringStores(v, d, act, d');
      forall x | x in d'.proofs ensures ProofOk(v, d', x) {
        ProofOkStays(v, d, d', x);
      }
    }
  }

  lemma OnlyStoringStores(v: Verifier, d: Desk, act: Action, d': Desk)
    requires Act(v, d, act, d') && !(act.Advance? && act.step.StoreProof?)
    ensures d'.proofs == d.proofs
  {
  }

  lemma StoredIsOk(v: Verifier, d: Desk, p: PollId, d': Desk)
    requires Sound(v, d) && Act(v, d, Advance(p, StoreProof), d') && Persists(d, d')
    ensures forall x :: x in d'.proofs ==> ProofOk(v, d', x)
  {
    var poll := d.polls[p];
    assert PollOk(v, d, poll);
    forall x | x in d'.proofs ensures ProofOk(v, d', x) {
      if x == poll.job {
        assert Vouched(v, d', d'.jobs[x], poll.elf, d'.proofs[x]);
      } else {
        ProofOkStays(v, d, d', x);
      }
    }
  }

  lemma SayIsOk(v: Verifier, d: Desk, poll: Poll, step: PollStep)
    requires PollOk(v, d, poll)
    ensures NextOf(v, d, poll, step).Say? ==>
              ReplyOk(Effect(d, poll, step), Answered(poll.job, NextOf(v, d, poll, step).reply))
  {
  }

  lemma LandKeepsReplies(d: Desk, e: Desk, p: PollId, job: JobId, next: Next)
    requires RepliesOk(d) && Persists(d, e) && e.replies == d.replies
    requires next.Say? ==> ReplyOk(e, Answered(job, next.reply))
    ensures RepliesOk(Land(e, p, job, next))
  {
    var d' := Land(e, p, job, next);
    forall i | 0 <= i < |d'.replies| ensures ReplyOk(d', d'.replies[i]) {
      if i < |d.replies| {
        assert ReplyOk(d, d.replies[i]) && d'.replies[i] == d.replies[i];
      }
    }
  }

  lemma ActKeepsReplies(v: Verifier, d: Desk, act: Action, d': Desk)
    requires Sound(v, d) && Act(v, d, act, d')
    ensures RepliesOk(d')
  {
    if act.Advance? {
      var poll := d.polls[act.poll];
      SayIsOk(v, d, poll, act.step);
      EffectPersists(d, poll, act.step);
      LandKeepsReplies(d, Effect(d, poll, act.step), act.poll, poll.job, NextOf(v, d, poll, act.step));
    } else if act.LoadJob? {
      LandKeepsReplies(d, d.(used := d.used + {act.poll}), act.poll, act.job, LoadNext(d, act.job));
    } else {
      ActPersists(v, d, act, d');
      LandKeepsReplies(d, d', 0, "", Stuck);
    }
  }

  lemma ActKeepsSound(v: Verifier, d: Desk, act: Action, d': Desk)
    requires Sound(v, d) && Act(v, d, act, d')
    ensures Sound(v, d')
  {
    ActKeepsPolls(v, d, act, d');
    ActKeepsProofs(v, d, act, d');
    ActKeepsReplies(v, d, act, d');
  }

  ghost predicate JobRun(v: Verifier, desks: seq<Desk>, acts: seq<Action>) {
    && |desks| == |acts| + 1 && desks[0] == Opening
    && forall i :: 0 <= i < |acts| ==> Act(v, desks[i], acts[i], desks[i + 1])
  }

  lemma {:induction false} RunSound(v: Verifier, desks: seq<Desk>, acts: seq<Action>, i: nat)
    requires JobRun(v, desks, acts) && i < |desks|
    ensures Sound(v, desks[i])
  {
    if i > 0 {
      RunSound(v, desks, acts, i - 1);
      ActKeepsSound(v, desks[i - 1], acts[i - 1], desks[i]);
    }
  }

  /** Under any interleaving, every downloadable proof was accepted by the verifier for the mode
      and configuration of its job and a program stored under the job's program id. */
  lemma DownloadsAreVerified(v: Verifier, desks: seq<Desk>, acts: seq<Action>, i: nat, x: JobId)
    requires JobRun(v, desks, acts) && i < |desks| && x in desks[i].proofs
    ensures x in desks[i].jobs
    ensures exists elf :: (desks[i].jobs[x].program, elf) in desks[i].stored
                          && v(elf, desks[i].jobs[x].config, desks[i].jobs[x].mode, desks[i].proofs[x])
  {
    RunSound(v, desks, acts, i);
    assert ProofOk(v, desks[i], x);
    var elf :| Vouched(v, desks[i], desks[i].jobs[x], elf, desks[i].proofs[x]);
  }

  lemma {:induction false} RunPersists(v: Verifier, desks: seq<Desk>, acts: seq<Action>, i: nat, j: nat)
    requires JobRun(v, desks, acts) && i <= j < |desks|
    ensures Persists(desks[i], desks[j])
    decreases j - i
  {
    if i < j {
      ActPersists(v, desks[i], acts[i], desks[i + 1]);
      RunPersists(v, desks, acts, i + 1, j);
    }
  }

  // ---------- success and failure ----------

  /** Poll `p` of job `x` is under way. */
  predicate Polling(d: Desk, p: PollId, x: JobId) {
    p in d.polls && d.polls[p].job == x
  }

  /** No two polls of job `x` are under way at once. */
  ghost predicate NoOverlapOf(d: Desk, x: JobId) {
    forall p, q :: Polling(d, p, x) && Polling(d, q, x) ==> p == q
  }

  /** Job `x` has a recorded failure and a stored proof. */
  predicate BothAt(d: Desk, x: JobId) {
    x in d.jobs && x in d.proofs && d.jobs[x].error.Some?
  }

  /** The `m`-th action is the `step` of a poll of `x`. */
  predicate Takes(desks: seq<Desk>, acts: seq<Action>, m: nat, x: JobId, step: PollStep) {
    m < |acts| && m < |desks| && acts[m].Advance? && acts[m].step == step && Polling(desks[m], acts[m].poll, x)
  }

  // Where a poll of the new state comes from.
  lemma PollCameFrom(v: Verifier, d: Desk, act: Action, d': Desk, p: PollId, x: JobId)
    requires Act(v, d, act, d') && Polling(d', p, x)
    ensures x in d.proofs && !d'.polls[p].Loaded? ==> Polling(d, p, x) && !d.polls[p].Loaded?
    ensures x in d.jobs && d.jobs[x].error.Some? ==> Polling(d, p, x)
    ensures act.Advance? && (act.step.StoreProof? || act.step.RecordFailure?) ==> Polling(d, p, x) && p != act.poll
  {
    if !ActsFor(act, p) {
      OthersLeavePoll(v, d, act, p);
    } else if act.Advance? {
      EffectLeavesPolls(d, d.polls[p], act.step);
      NextStays(v, d, d.polls[p], act.step);
    }
  }

  lemma NextStays(v: Verifier, d: Desk, poll: Poll, step: PollStep)
    ensures NextOf(v, d, poll, step).Go? ==>
              var n := NextOf(v, d, poll, step).poll;
              && n.job == poll.job && !n.Loaded? && (poll.Loaded? ==> poll.job !in d.proofs)
              && !step.StoreProof? && !step.RecordFailure?
  {
  }

  // A stored proof was stored by a poll, a recorded failure was recorded by one.
  lemma {:induction false} StoredBy(v: Verifier, desks: seq<Desk>, acts: seq<Action>, i: nat, x: JobId) returns (m: nat)
    requires JobRun(v, desks, acts) && i < |desks| && x in desks[i].proofs
    ensures m < i && Takes(desks, acts, m, x, StoreProof)
  {
    assert i > 0;
    if x in desks[i - 1].proofs {
      m := StoredBy(v, desks, acts, i - 1, x);
    } else {
      m := i - 1;
      OnlyOwnJobChanges(v, desks[m], acts[m], desks[i], x);
    }
  }

  lemma {:induction false} FailedBy(v: Verifier, desks: seq<Desk>, acts: seq<Action>, i: nat, x: JobId) returns (n: nat)
    requires JobRun(v, desks, acts) && i < |desks| && x in desks[i].jobs && desks[i].jobs[x].error.Some?
    ensures n < i && Takes(desks, acts, n, x, RecordFailure)
  {
    assert i > 0;
    if x in desks[i - 1].jobs && desks[i - 1].jobs[x].error.Some? {
      n := FailedBy(v, desks, acts, i - 1, x);
    } else {
      n := i - 1;
      OnlyOwnJobChanges(v, desks[n], acts[n], desks[i], x);
    }
  }

  lemma OnlyOwnJobChanges(v: Verifier, d: Desk, act: Action, d': Desk, x: JobId)
    requires Act(v, d, act, d')
    ensures x in d'.proofs && x !in d.proofs ==>
              act.Advance? && act.step.StoreProof? && Polling(d, act.poll, x)
    ensures x in d'.jobs && d'.jobs[x].error.Some? && (x in d.jobs ==> d.jobs[x].error.None?) ==>
              act.Advance? && act.step.RecordFailure? && Polling(d, act.poll, x)
  {
    if act.Advance? {
      EffectOnlyOwnJob(d, d.polls[act.poll], act.step, x);
    }
  }

  lemma EffectOnlyOwnJob(d: Desk, poll: Poll, step: PollStep, x: JobId)
    ensures var e := Effect(d, poll, step);
            && (x in e.proofs && x !in d.proofs ==> step.StoreProof? && poll.job == x)
            && (x in e.jobs ==> x in d.jobs)
            && (x in e.jobs && e.jobs[x] != d.jobs[x] ==> step.RecordFailure? && poll.job == x)
  {
  }

  // What storing and recording take, and what they leave behind.
  lemma TakenHasEffect(v: Verifier, desks: seq<Desk>, acts: seq<Action>, m: nat, t: nat, x: JobId)
    requires JobRun(v, desks, acts) && m < t < |desks|
    ensures Takes(desks, acts, m, x, StoreProof) ==> x in desks[t].proofs
    ensures Takes(desks, acts, m, x, RecordFailure) ==>
              desks[m].polls[acts[m].poll].Failing? && x in desks[t].jobs && desks[t].jobs[x].error.Some?
  {
    RunSound(v, desks, acts, m);
    RunPersists(v, desks, acts, m + 1, t);
    if acts[m].Advance? {
      StepHasEffect(v, desks[m], acts[m], desks[m + 1]);
    }
  }

  lemma StepHasEffect(v: Verifier, d: Desk, act: Action, d': Desk)
    requires Sound(v, d) && Act(v, d, act, d') && act.Advance?
    ensures act.step.StoreProof? ==> d.polls[act.poll].job in d'.proofs
    ensures act.step.RecordFailure? ==>
              var x := d.polls[act.poll].job;
              d.polls[act.poll].Failing? && x in d'.jobs && d'.jobs[x].error.Some?
  {
    assert PollOk(v, d, d.polls[act.poll]);
  }

  /** After a proof was stored, a poll of that job past its first check was under way already
      when it was stored. */
  lemma {:induction false} PastTheCheck(v: Verifier, desks: seq<Desk>, acts: seq<Action>, m: nat, t: nat, x: JobId, q: PollId)
    requires JobRun(v, desks, acts) && m < t < |desks| && Takes(desks, acts, m, x, StoreProof)
    requires Polling(desks[t], q, x) && !desks[t].polls[q].Loaded?
    ensures Polling(desks[m], q, x) && q != acts[m].poll
  {
    var j := t - 1;
    PollCameFrom(v, desks[j], acts[j], desks[j + 1], q, x);
    if t > m + 1 {
      TakenHasEffect(v, desks, acts, m, j, x);
      PastTheCheck(v, desks, acts, m, j, x, q);
    }
  }

  /** After a failure was recorded, every poll of that job was under way already then. */
  lemma {:induction false} PastTheLoad(v: Verifier, desks: seq<Desk>, acts: seq<Action>, n: nat, t: nat, x: JobId, p: PollId)
    requires JobRun(v, desks, acts) && n < t < |desks| && Takes(desks, acts, n, x, RecordFailure)
    requires Polling(desks[t], p, x)
    ensures Polling(desks[n], p, x) && p != acts[n].poll
  {
    var j := t - 1;
    PollCameFrom(v, desks[j], acts[j], desks[j + 1], p, x);
    if t > n + 1 {
      TakenHasEffect(v, desks, acts, n, j, x);
      PastTheLoad(v, desks, acts, n, j, x, p);
    }
  }

  /** Two polls of `x`, both under way when the first of them ended: one ended by storing a
      proof, the other by recording a failure. */
  ghost predicate Collision(desks: seq<Desk>, acts: seq<Action>, i: nat, x: JobId, m: nat, n: nat) {
    && m < i && n < i && Takes(desks, acts, m, x, StoreProof) && Takes(desks, acts, n, x, RecordFailure)
    && acts[m].poll != acts[n].poll
    && var first := desks[if m < n then m else n];
       Polling(first, acts[m].poll, x) && Polling(first, acts[n].poll, x)
  }

  /** Exactly when a job gets both verdicts, under any interleaving: two of its polls overlapped,
      and one stored a proof while the other recorded a failure. */
  lemma BothVerdictsIff(v: Verifier, desks: seq<Desk>, acts: seq<Action>, i: nat, x: JobId)
    requires JobRun(v, desks, acts) && i < |desks|
    ensures BothAt(desks[i], x) <==> exists m: nat, n: nat :: Collision(desks, acts, i, x, m, n)
  {
    if BothAt(desks[i], x) {
      var m := StoredBy(v, desks, acts, i, x);
      var n := FailedBy(v, desks, acts, i, x);
      TakenHasEffect(v, desks, acts, n, i, x);
      if m < n {
        PastTheCheck(v, desks, acts, m, n, x, acts[n].poll);
      } else {
        assert m != n;
        PastTheLoad(v, desks, acts, n, m, x, acts[m].poll);
      }
      assert Collision(desks, acts, i, x, m, n);
    }
    if m: nat, n: nat :| Collision(desks, acts, i, x, m, n) {
      TakenHasEffect(v, desks, acts, m, i, x);
      TakenHasEffect(v, desks, acts, n, i, x);
    }
  }

  /** When polls of one job do not overlap, whatever polls of other jobs do, success and failure
      are exclusive and permanent: after a poll was told one, none is ever told the other. */
  lemma VerdictIsFinal(v: Verifier, desks: seq<Desk>, acts: seq<Action>, i: nat, m: nat, n: nat)
    requires JobRun(v, desks, acts) && i < |desks| && m < |desks[i].replies| && n < |desks[i].replies|
    requires desks[i].replies[m].job == desks[i].replies[n].job
    requires forall j :: 0 <= j < i ==> NoOverlapOf(desks[j], desks[i].replies[m].job)
    ensures !(desks[i].replies[m].reply.Succeeded? && desks[i].replies[n].reply.Failed?)
  {
    RunSound(v, desks, acts, i);
    assert ReplyOk(desks[i], desks[i].replies[m]) && ReplyOk(desks[i], desks[i].replies[n]);
    BothVerdictsIff(v, desks, acts, i, desks[i].replies[m].job);
  }

  /** And once a proof is stored, every later answer about the job is a success. */
  lemma SuccessIsPermanent(v: Verifier, desks: seq<Desk>, acts: seq<Action>, i: nat, n: nat)
    requires JobRun(v, desks, acts) && i < |acts| && |desks[i].replies| <= n < |desks[i + 1].replies|
    requires forall j :: 0 <= j <= i ==> NoOverlapOf(desks[j], desks[i + 1].replies[n].job)
    requires desks[i + 1].replies[n].job in desks[i].proofs
    ensures desks[i + 1].replies[n].reply == Succeeded
  {
    var d, x := desks[i], desks[i + 1].replies[n].job;
    RunSound(v, desks, acts, i);
    assert ProofOk(v, d, x);
    BothVerdictsIff(v, desks, acts, i, x);
    assert d.jobs[x].error.None?;
    assert Act(v, d, acts[i], desks[i + 1]);
    if acts[i].Advance? {
      var p := acts[i].poll;
      assert Polling(d, p, x);
      if !d.polls[p].Loaded? {
        var m := StoredBy(v, desks, acts, i, x);
        PastTheCheck(v, desks, acts, m, i, x, p);
        assert false;
      }
    }
  }

  // ---------- where verdicts and proofs come from ----------

  predicate HasBytes(poll: Poll) {
    poll.Fetched? || poll.Verifying? || poll.Accepted? || poll.Storing?
  }

  /** In step `t` poll `p` of `x` heard `status` from the registry. */
  predicate Hears(desks: seq<Desk>, acts: seq<Action>, t: nat, p: PollId, x: JobId, status: ClientStatus) {
    t < |acts| && t < |desks| && acts[t] == Advance(p, RegistryAnswers(status)) && Polling(desks[t], p, x)
  }

  lemma BytesCameFrom(v: Verifier, d: Desk, act: Action, d': Desk, p: PollId)
    requires Act(v, d, act, d') && p in d'.polls && HasBytes(d'.polls[p])
    ensures p in d.polls && d.polls[p].job == d'.polls[p].job
    ensures || (HasBytes(d.polls[p]) && d.polls[p].bytes == d'.polls[p].bytes)
            || (act.Advance? && act.poll == p && act.step.RegistryAnswers? && act.step.status.fulfillment == 3
                && act.step.status.proof == d'.polls[p].bytes != [])
  {
    if !ActsFor(act, p) {
      OthersLeavePoll(v, d, act, p);
    } else if act.Advance? {
      EffectLeavesPolls(d, d.polls[p], act.step);
    }
  }

  lemma {:induction false} BytesWereHeard(v: Verifier, desks: seq<Desk>, acts: seq<Action>, i: nat, p: PollId)
    returns (t: nat, status: ClientStatus)
    requires JobRun(v, desks, acts) && i < |desks| && p in desks[i].polls && HasBytes(desks[i].polls[p])
    ensures t < i && Hears(desks, acts, t, p, desks[i].polls[p].job, status)
    ensures status.fulfillment == 3 && status.proof == desks[i].polls[p].bytes != []
  {
    assert i > 0;
    var j := i - 1;
    BytesCameFrom(v, desks[j], acts[j], desks[j + 1], p);
    if HasBytes(desks[j].polls[p]) && desks[j].polls[p].bytes == desks[i].polls[p].bytes {
      t, status := BytesWereHeard(v, desks, acts, j, p);
    } else {
      t, status := j, acts[j].step.status;
    }
  }

  lemma ProofCameFrom(v: Verifier, d: Desk, act: Action, d': Desk, x: JobId)
    requires Act(v, d, act, d') && x in d'.proofs
    ensures || (x in d.proofs && d.proofs[x] == d'.proofs[x])
            || (act.Advance? && act.step.StoreProof? && Polling(d, act.poll, x)
                && d.polls[act.poll].Storing? && d.polls[act.poll].bytes == d'.proofs[x])
  {
  }

  /** A downloadable proof is what the registry answered a poll of that job with, byte for byte,
      as fulfilled (3). */
  lemma {:induction false} ProofIsTheAnswer(v: Verifier, desks: seq<Desk>, acts: seq<Action>, i: nat, x: JobId)
    returns (t: nat, p: PollId, status: ClientStatus)
    requires JobRun(v, desks, acts) && i < |desks| && x in desks[i].proofs
    ensures t < i && Hears(desks, acts, t, p, x, status) && status.fulfillment == 3 && status.proof == desks[i].proofs[x]
  {
    assert i > 0;
    var j := i - 1;
    ProofCameFrom(v, desks[j], acts[j], desks[j + 1], x);
    if x in desks[j].proofs && desks[j].proofs[x] == desks[i].proofs[x] {
      t, p, status := ProofIsTheAnswer(v, desks, acts, j, x);
    } else {
      p := acts[j].poll;
      t, status := BytesWereHeard(v, desks, acts, j, p);
    }
  }

  predicate Doomed(poll: Poll) {
    poll.Failing? || poll.Refused?
  }

  function Message(poll: Poll): string {
    if poll.Failing? then poll.message else "worker returned invalid proof"
  }

  /** In step `t` the verifier refused what poll `p` of `x` brought. */
  predicate Refuses(v: Verifier, desks: seq<Desk>, acts: seq<Action>, t: nat, p: PollId, x: JobId) {
    && t < |acts| && t < |desks| && acts[t] == Advance(p, Verify) && Polling(desks[t], p, x)
    && var poll := desks[t].polls[p];
       poll.Verifying? && !v(poll.elf, poll.seen.config, poll.seen.mode, poll.bytes)
  }

  /** Why a poll of `x` fails the job with `message`. */
  predicate Cause(v: Verifier, desks: seq<Desk>, acts: seq<Action>, t: nat, p: PollId, x: JobId, message: string) {
    || (t < |acts| && acts[t].Advance? && acts[t].step.RegistryAnswers? && acts[t].step.status.fulfillment == 4
        && Hears(desks, acts, t, p, x, acts[t].step.status) && message == "proof reported unfulfillable by worker registry")
    || (Refuses(v, desks, acts, t, p, x) && message == "worker returned invalid proof")
  }

  lemma DoomCameFrom(v: Verifier, d: Desk, act: Action, d': Desk, p: PollId)
    requires Act(v, d, act, d') && p in d'.polls && Doomed(d'.polls[p])
    ensures p in d.polls && d.polls[p].job == d'.polls[p].job
    ensures || (Doomed(d.polls[p]) && Message(d.polls[p]) == Message(d'.polls[p]))
            || (act.Advance? && act.poll == p && act.step.RegistryAnswers? && act.step.status.fulfillment == 4
                && Message(d'.polls[p]) == "proof reported unfulfillable by worker registry")
            || (act == Advance(p, Verify) && d.polls[p].Verifying? && d'.polls[p].Refused?
                && !v(d.polls[p].elf, d.polls[p].seen.config, d.polls[p].seen.mode, d.polls[p].bytes))
  {
    if !ActsFor(act, p) {
      OthersLeavePoll(v, d, act, p);
    } else if act.Advance? {
      EffectLeavesPolls(d, d.polls[p], act.step);
    }
  }

  lemma {:induction false} DoomHasCause(v: Verifier, desks: seq<Desk>, acts: seq<Action>, i: nat, p: PollId) returns (t: nat)
    requires JobRun(v, desks, acts) && i < |desks| && p in desks[i].polls && Doomed(desks[i].polls[p])
    ensures t < i && Cause(v, desks, acts, t, p, desks[i].polls[p].job, Message(desks[i].polls[p]))
  {
    assert i > 0;
    var j := i - 1;
    DoomCameFrom(v, desks[j], acts[j], desks[j + 1], p);
    if Doomed(desks[j].polls[p]) && Message(desks[j].polls[p]) == Message(desks[i].polls[p]) {
      t := DoomHasCause(v, desks, acts, j, p);
    } else {
      t := j;
    }
  }

  lemma FailureCameFrom(v: Verifier, d: Desk, act: Action, d': Desk, x: JobId)
    requires Act(v, d, act, d') && x in d'.jobs && d'.jobs[x].error.Some?
    ensures || (x in d.jobs && d.jobs[x].error == d'.jobs[x].error)
            || (act.Advance? && act.step.RecordFailure? && Polling(d, act.poll, x)
                && d.polls[act.poll].Failing? && d.polls[act.poll].message == d'.jobs[x].error.value)
  {
  }

  /** A recorded failure has its cause: the registry answered a poll of the job "unfulfillable"
      (4), or the verifier refused the bytes it had answered with; and the message says which. */
  lemma {:induction false} FailureHasCause(v: Verifier, desks: seq<Desk>, acts: seq<Action>, i: nat, x: JobId)
    returns (t: nat, p: PollId)
    requires JobRun(v, desks, acts) && i < |desks| && x in desks[i].jobs && desks[i].jobs[x].error.Some?
    ensures t < i && Cause(v, desks, acts, t, p, x, desks[i].jobs[x].error.value)
  {
    assert i > 0;
    var j := i - 1;
    FailureCameFrom(v, desks[j], acts[j], desks[j + 1], x);
    if x in desks[j].jobs && desks[j].jobs[x].error == desks[i].jobs[x].error {
      t, p := FailureHasCause(v, desks, acts, j, x);
    } else {
      p := acts[j].poll;
      t := DoomHasCause(v, desks, acts, j, p);
    }
  }

  /** A poll is told "running" exactly when the registry's answer is neither unfulfillable nor
      fulfilled with a proof. */
  lemma RunningIff(v: Verifier, d: Desk, p: PollId, status: ClientStatus, d': Desk)
    requires Act(v, d, Advance(p, RegistryAnswers(status)), d')
    ensures p in d.polls
    ensures d'.replies == d.replies + [Answered(d.polls[p].job, Running)] <==>
              status.fulfillment != 4 && (status.fulfillment != 3 || status.proof == [])
    ensures p in d'.polls ==> d'.replies == d.replies
  {
    assert |d.replies + [Answered(d.polls[p].job, Running)]| == |d.replies| + 1;
  }

  // ---------- where jobs and programs come from ----------

  lemma JobCameFrom(v: Verifier, d: Desk, act: Action, d': Desk, x: JobId)
    requires Act(v, d, act, d') && x in d'.jobs
    ensures || (x in d.jobs && SameJob(d.jobs[x], d'.jobs[x]))
            || (act.CreateJob? && act.job == x && act.program in d.programs && act.input in d.inputs
                && d'.jobs[x] == Job(act.request, act.program, act.config, act.mode, None))
  {
    ActPersists(v, d, act, d');
  }

  /** In step `t` the client created job `x` with this program, configuration and mode. */
  predicate Creates(acts: seq<Action>, t: nat, x: JobId, j: Job) {
    && t < |acts| && acts[t].CreateJob? && acts[t].job == x && acts[t].request == j.request
    && acts[t].program == j.program && acts[t].config == j.config && acts[t].mode == j.mode
  }

  /** Every job is what its client asked for, and stays so. */
  lemma {:induction false} JobsAreAsCreated(v: Verifier, desks: seq<Desk>, acts: seq<Action>, i: nat, x: JobId) returns (t: nat)
    requires JobRun(v, desks, acts) && i < |desks| && x in desks[i].jobs
    ensures t < i && Creates(acts, t, x, desks[i].jobs[x]) && acts[t].program in desks[t].programs && acts[t].input in desks[t].inputs
  {
    assert i > 0;
    var j := i - 1;
    JobCameFrom(v, desks[j], acts[j], desks[j + 1], x);
    if x in desks[j].jobs && SameJob(desks[j].jobs[x], desks[i].jobs[x]) {
      t := JobsAreAsCreated(v, desks, acts, j, x);
    } else {
      t := j;
    }
  }

  lemma StoredCameFrom(v: Verifier, d: Desk, act: Action, d': Desk, program: string, elf: Bytes)
    requires Act(v, d, act, d') && (program, elf) in d'.stored
    ensures (program, elf) in d.stored || act == PutProgram(program, elf)
  {
  }

  lemma {:induction false} StoredWasUploaded(v: Verifier, desks: seq<Desk>, acts: seq<Action>, i: nat, program: string, elf: Bytes)
    returns (t: nat)
    requires JobRun(v, desks, acts) && i < |desks| && (program, elf) in desks[i].stored
    ensures t < i && acts[t] == PutProgram(program, elf)
  {
    assert i > 0;
    var j := i - 1;
    StoredCameFrom(v, desks[j], acts[j], desks[j + 1], program, elf);
    if (program, elf) in desks[j].stored {
      t := StoredWasUploaded(v, desks, acts, j, program, elf);
    } else {
      t := j;
    }
  }

  /** From the client's side: a downloadable proof was accepted by the verifier for the mode and
      configuration the job was created with and a program uploaded under the id it named. */
  lemma DownloadIsWhatWasAskedFor(v: Verifier, desks: seq<Desk>, acts: seq<Action>, i: nat, x: JobId)
    returns (t: nat, u: nat, elf: Bytes)
    requires JobRun(v, desks, acts) && i < |desks| && x in desks[i].proofs
    ensures t < i && u < i && acts[t].CreateJob? && acts[t].job == x && acts[u] == PutProgram(acts[t].program, elf)
    ensures v(elf, acts[t].config, acts[t].mode, desks[i].proofs[x])
  {
    DownloadsAreVerified(v, desks, acts, i, x);
    t := JobsAreAsCreated(v, desks, acts, i, x);
    elf :| (desks[i].jobs[x].program, elf) in desks[i].stored
           && v(elf, desks[i].jobs[x].config, desks[i].jobs[x].mode, desks[i].proofs[x]);
    u := StoredWasUploaded(v, desks, acts, i, desks[i].jobs[x].program, elf);
  }
}
