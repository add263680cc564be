/** The OpenVM handlers themselves.  Each runs on its own task, and at every await the other
    tasks take arbitrary steps.  The history of a router is a run of the job model. */
module OpenVmRouter {
  import opened Network
  import opened ProofStatus
  import opened OpenVmJobs

  datatype Creation = BadRequest | RoutingFailed | Created(job: JobId)

  // A missing mode means the application proof; names are read regardless of case.
  function ParseMode(raw: Option<string>): Option<OpenVmMode> {
    match raw
    case None => Some(App)
    case Some(s) =>
      if LowerAll(s) == "app" then Some(App)
      else if LowerAll(s) == "stark" then Some(Stark)
      else if LowerAll(s) == "evm" then Some(Evm)
      else None
  }

  /** The name of every proof mode parses to that mode, in capitals or not, and nothing but those
      three names parses. */
  lemma ModeNamesParse(raw: string, id: Id, mode: OpenVmMode, payload: Bytes)
    ensures ParseMode(None) == Some(App)
    ensures ParseMode(Some(OpenVmRequest(id, mode, payload).ModeName())) == Some(mode)
    ensures ParseMode(Some(raw)) == Some(mode) <==> LowerAll(raw) == LowerAll(OpenVmRequest(id, mode, payload).ModeName())
  {
    LowerNames();
  }

  lemma LowerNames()
    ensures LowerAll("APP") == "app" && LowerAll("STARK") == "stark" && LowerAll("EVM") == "evm"
  {
  }

  class Router {
    const v: Verifier
    var programs: map<string, Bytes>
    var inputs: map<string, seq<Bytes>>
    var jobs: map<JobId, Job>
    var proofs: map<JobId, Bytes>
    var polls: map<PollId, Poll> // the status polls under way, with their local variables
    // logs of what was begun, uploaded and answered
    var used: set<PollId>
    var stored: set<(string, Bytes)>
    var replies: seq<Answered>
    ghost var desks: seq<Desk>
    ghost var acts: seq<Action>

    function Now(): Desk
      reads this
    {
      Desk(programs, inputs, jobs, proofs, polls, used, stored, replies)
    }

    ghost predicate Valid()
      reads this
    {
      JobRun(v, desks, acts) && desks[|acts|] == Now()
    }

    constructor (v: Verifier)
      ensures Valid() && Now() == Opening && this.v == v && acts == []
    {
      this.v := v;
      programs, inputs, jobs, proofs, polls := map[], map[], map[], map[], map[];
      used, stored, replies, desks, acts := {}, {}, [], [Opening], [];
    }

    // Enters the action just taken in the history.
    ghost method Note(act: Action)
      requires JobRun(v, desks, acts) && Act(v, desks[|acts|], act, Now())
      modifies this`desks, this`acts
      ensures Valid() && acts == old(acts) + [act]
    {
      desks, acts := desks + [Now()], acts + [act];
    }

    method Become(d: Desk, ghost act: Action)
      requires Valid() && Act(v, Now(), act, d)
      modifies this
      ensures Valid() && Now() == d && acts == old(acts) + [act]
    {
      programs, inputs, jobs, proofs, polls, used, stored, replies :=
        d.programs, d.inputs, d.jobs, d.proofs, d.polls, d.used, d.stored, d.replies;
      Note(act);
    }

    /** Other tasks run while poll `p` waits: any steps that are open to them, in any order. */
    method Await(p: PollId, others: seq<Action>)
      requires Valid()
      modifies this
      ensures Valid() && old(acts) <= acts
      ensures (p in polls <==> p in old(polls)) && (p in polls ==> polls[p] == old(polls)[p])
    {
      for i := 0 to |others|
        invariant Valid() && old(acts) <= acts
        invariant (p in polls <==> p in old(polls)) && (p in polls ==> polls[p] == old(polls)[p])
      {
        if Enabled(v, Now(), others[i]) && !ActsFor(others[i], p) {
          OthersLeavePoll(v, Now(), others[i], p);
          Become(After(v, Now(), others[i]), others[i]);
        }
      }
    }

    method HandleProgramPut(id: string, elf: Bytes)
      requires Valid()
      modifies this
      ensures Valid() && acts == old(acts) + [PutProgram(id, elf)]
    {
      programs, stored := programs[id := elf], stored + {(id, elf)};
      Note(PutProgram(id, elf));
    }

    method HandleInputPut(id: string, streams: seq<Bytes>)
      requires Valid()
      modifies this
      ensures Valid() && acts == old(acts) + [PutInput(id, streams)]
    {
      inputs := inputs[id := streams];
      Note(PutInput(id, streams));
    }

    /** A job is created exactly for a known program, a known input and a known proof mode; when
        routing fails the client is told so, and the job's entry stays. */
    method HandleProofCreate(job: JobId, request: Id, program: string, input: string, config: Option<string>,
                             rawMode: Option<string>, routed: bool)
      returns (reply: Creation)
      requires Valid() && job !in jobs && !Requested(Now(), request)
      modifies this
      ensures Valid()
      ensures program !in old(programs) || input !in old(inputs) || ParseMode(rawMode).None?
         <==> reply.BadRequest?
      ensures reply.BadRequest? ==> Now() == old(Now()) && acts == old(acts)
      ensures !reply.BadRequest? ==>
                && acts == old(acts) + [CreateJob(job, request, program, input, config, ParseMode(rawMode).value, routed)]
                && reply == if routed then Created(job) else RoutingFailed
    {
      if program !in programs || input !in inputs {
        return BadRequest;
      }
      var mode := ParseMode(rawMode);
      if mode.None? {
        return BadRequest;
      }
      jobs := jobs[job := Job(request, program, config, mode.value, None)];
      Note(CreateJob(job, request, program, input, config, mode.value, routed));
      return if routed then Created(job) else RoutingFailed;
    }

    // A poll of an unknown or failed job is answered at once.
    method Refuse(p: PollId, job: JobId, reply: Reply)
      requires Valid() && p !in used && p !in polls && LoadNext(Now(), job) == Say(reply)
      modifies this
      ensures Valid() && old(acts) <= acts && Over(p, job, reply)
    {
      replies, used := replies + [Answered(job, reply)], used + {p};
      assert polls - {p} == polls;
      Note(LoadJob(p, job));
    }

    method Begin(p: PollId, job: JobId)
      requires Valid() && p !in used && p !in polls && job in jobs && jobs[job].error.None?
      modifies this
      ensures Valid() && old(acts) <= acts && p in polls && polls[p] == Loaded(job, old(jobs)[job])
    {
      polls, used := polls[p := Loaded(job, jobs[job])], used + {p};
      Note(LoadJob(p, job));
    }

    // Poll `p` moves on to its next await.
    method Continue(p: PollId, ghost step: PollStep, next: Poll)
      requires Valid() && p in polls && NextOf(v, Now(), polls[p], step) == Go(next)
      modifies this
      ensures Valid() && old(acts) <= acts && p in polls && polls[p] == next
    {
      polls := polls[p := next];
      Note(Advance(p, step));
    }

    /** Poll `p` is over: the client is told `reply`. */
    ghost predicate Over(p: PollId, job: JobId, reply: Reply)
      reads this
    {
      p !in polls && replies != [] && replies[|replies| - 1] == Answered(job, reply)
    }

    // Poll `p` answers and leaves all tables alone.
    method Answer(p: PollId, ghost step: PollStep, reply: Reply)
      requires Valid() && p in polls && NextOf(v, Now(), polls[p], step) == Say(reply)
      requires !step.RecordFailure? && !step.StoreProof?
      modifies this
      ensures Valid() && old(acts) <= acts && Over(p, old(polls)[p].job, reply)
      ensures jobs == old(jobs) && proofs == old(proofs)
    {
      polls, replies := polls - {p}, replies + [Answered(polls[p].job, reply)];
      Note(Advance(p, step));
    }

    method Fail(p: PollId, job: JobId, ghost seen: Job, message: string)
      requires Valid() && p in polls && polls[p] == Failing(job, seen, message)
      modifies this
      ensures Valid() && old(acts) <= acts && Over(p, job, Failed)
    {
      if job in jobs {
        jobs := jobs[job := jobs[job].(error := Some(message))];
      }
      polls, replies := polls - {p}, replies + [Answered(job, Failed)];
      Note(Advance(p, RecordFailure));
    }

    method Store(p: PollId, job: JobId, ghost seen: Job, ghost elf: Bytes, bytes: Bytes)
      requires Valid() && p in polls && polls[p] == Storing(job, seen, elf, bytes)
      modifies this
      ensures Valid() && old(acts) <= acts && Over(p, job, Succeeded)
    {
      proofs, polls, replies := proofs[job := bytes], polls - {p}, replies + [Answered(job, Succeeded)];
      Note(Advance(p, StoreProof));
    }

    // An accepted proof: the registry is told first, then the proof is stored.
    method CompleteAndStore(p: PollId, job: JobId, seen: Job, elf: Bytes, bytes: Bytes, others: nat -> seq<Action>)
      requires Valid() && p in polls && polls[p] == Accepted(job, seen, elf, bytes)
      modifies this
      ensures Valid() && old(acts) <= acts && Over(p, job, Succeeded)
    {
      Await(p, others(2));
      Continue(p, TellRegistry, Storing(job, seen, elf, bytes));
      Await(p, others(3));
      Store(p, job, seen, elf, bytes);
    }

    // A proof that was not accepted: its worker is dropped first, then the job fails.
    method DropAndFail(p: PollId, job: JobId, seen: Job, others: nat -> seq<Action>)
      requires Valid() && p in polls && polls[p] == Refused(job, seen)
      modifies this
      ensures Valid() && old(acts) <= acts && Over(p, job, Failed)
    {
      Await(p, others(2));
      Continue(p, DropWorker, Failing(job, seen, INVALID));
      Await(p, others(3));
      Fail(p, job, seen, INVALID);
    }

    method VerifyProof(p: PollId, job: JobId, seen: Job, elf: Bytes, bytes: Bytes, verifierDies: bool, others: nat -> seq<Action>)
      returns (reply: Reply)
      requires Valid() && p in polls && polls[p] == Verifying(job, seen, elf, bytes)
      modifies this
      ensures Valid() && old(acts) <= acts && Over(p, job, reply) && !reply.NotFound?
    {
      if verifierDies {
        reply := ServerError;
        Answer(p, VerifierDies, reply);
      } else if !v(elf, seen.config, seen.mode, bytes) {
        Continue(p, Verify, Refused(job, seen));
        DropAndFail(p, job, seen, others);
        reply := Failed;
      } else {
        Continue(p, Verify, Accepted(job, seen, elf, bytes));
        CompleteAndStore(p, job, seen, elf, bytes, others);
        reply := Succeeded;
      }
    }

    // From proof bytes in hand to the verdict on them.
    method VerifyAndStore(p: PollId, job: JobId, seen: Job, bytes: Bytes, verifierDies: bool, others: nat -> seq<Action>)
      returns (reply: Reply)
      requires Valid() && p in polls && polls[p] == Fetched(job, seen, bytes)
      modifies this
      ensures Valid() && old(acts) <= acts && Over(p, job, reply) && !reply.NotFound?
    {
      Await(p, others(0));
      if seen.program !in programs {
        reply := ServerError;
        Answer(p, FetchProgram, reply);
      } else {
        var elf := programs[seen.program];
        Continue(p, FetchProgram, Verifying(job, seen, elf, bytes));
        Await(p, others(1));
        reply := VerifyProof(p, job, seen, elf, bytes, verifierDies, others);
      }
    }

    method HearRegistry(p: PollId, job: JobId, seen: Job, answer: Option<ClientStatus>, verifierDies: bool, others: nat -> seq<Action>)
      returns (reply: Reply)
      requires Valid() && p in polls && polls[p] == Awaiting(job, seen)
      modifies this
      ensures Valid() && old(acts) <= acts && Over(p, job, reply) && !reply.NotFound?
    {
      match answer {
        case None =>
          reply := ServerError;
          Answer(p, RegistryErrs, reply);
        case Some(status) =>
          if status.fulfillment == UNFULFILLABLE {
            Continue(p, RegistryAnswers(status), Failing(job, seen, UNFULFILLED));
            Await(p, others(0));
            Fail(p, job, seen, UNFULFILLED);
            reply := Failed;
          } else if status.fulfillment != FULFILLED || status.proof == [] {
            reply := Running;
            Answer(p, RegistryAnswers(status), reply);
          } else {
            Continue(p, RegistryAnswers(status), Fetched(job, seen, status.proof));
            reply := VerifyAndStore(p, job, seen, status.proof, verifierDies, others);
          }
      }
    }

    method AskAndHear(p: PollId, job: JobId, seen: Job, answer: Option<ClientStatus>, verifierDies: bool,
                      asking: seq<Action>, waiting: seq<Action>, others: nat -> seq<Action>)
      returns (reply: Reply)
      requires Valid() && p in polls && polls[p] == Asking(job, seen)
      modifies this
      ensures Valid() && old(acts) <= acts && Over(p, job, reply) && !reply.NotFound?
    {
      Await(p, asking);
      Continue(p, AskRegistry, Awaiting(job, seen));
      Await(p, waiting);
      reply := HearRegistry(p, job, seen, answer, verifierDies, others);
    }

    /** A status poll, whatever the registry answers and whatever other tasks do at its awaits:
        its steps extend the run, and the client is told a success only when a proof vouched for
        by the verifier is stored, and a failure only when one is recorded for good. */
    method HandleProofStatus(p: PollId, job: JobId, answer: Option<ClientStatus>, verifierDies: bool,
                             before: seq<Action>, asking: seq<Action>, waiting: seq<Action>, others: nat -> seq<Action>)
      returns (reply: Reply)
      requires Valid() && p !in used && p !in polls
      modifies this
      ensures Valid() && old(acts) <= acts && Over(p, job, reply)
      ensures reply.NotFound? <==> job !in old(jobs)
      ensures reply.Succeeded? ==> job in proofs && ProofOk(v, Now(), job)
      ensures reply.Failed? ==> job in jobs && jobs[job].error.Some?
      ensures job in old(jobs) && old(jobs)[job].error.Some? ==> reply == Failed
    {
      if job !in jobs || jobs[job].error.Some? {
        reply := if job !in jobs then NotFound else Failed;
        Refuse(p, job, reply);
      } else {
        var seen := jobs[job];
        Begin(p, job);
        Await(p, before);
        if job in proofs {
          reply := Succeeded;
          Answer(p, CheckProof, reply);
        } else {
          Continue(p, CheckProof, Asking(job, seen));
          reply := AskAndHear(p, job, seen, answer, verifierDies, asking, waiting, others);
        }
      }
      ReplyIsTrue(p, job, reply);
    }

    lemma ReplyIsTrue(p: PollId, job: JobId, reply: Reply)
      requires Valid() && Over(p, job, reply)
      ensures reply.Succeeded? ==> job in proofs && ProofOk(v, Now(), job)
      ensures reply.Failed? ==> job in jobs && jobs[job].error.Some?
    {
      RunSound(v, desks, acts, |acts|);
      assert ReplyOk(Now(), replies[|replies| - 1]);
    }

    /** A download serves the stored proof, which the verifier accepted for its job. */
    method HandleProofDownload(job: JobId) returns (bytes: Option<Bytes>)
      requires Valid()
      ensures bytes == if job in proofs then Some(proofs[job]) else None
      ensures bytes.Some? ==> job in jobs && exists elf :: Vouched(v, Now(), jobs[job], elf, bytes.value)
    {
      bytes := if job in proofs then Some(proofs[job]) else None;
      RunSound(v, desks, acts, |acts|);
      assert job in proofs ==> ProofOk(v, Now(), job);
    }
  }
}
