/** Length-prefixed frames between the parents and the OpenVM worker process, and the exchange
    of one request for at most one size report and one terminal answer. */
module Framing {
  import opened Network

  const MAX_FRAME_BYTES: nat := 0x4000_0000
  const U32_MAX: nat := 0xFFFF_FFFF

  /** The serialisation library: an encoder and a decoder that undoes it. */
  datatype Codec<!T> = Codec(encode: T -> Bytes, decode: Bytes -> Option<T>)

  ghost predicate Sound<T(!new)>(c: Codec<T>) {
    forall m :: c.decode(c.encode(m)) == Some(m)
  }

  // `Panicked` stands for a connection's thread that does not return.
  datatype ErrorKind = InvalidData | UnexpectedEof | ConnectionRefused | Panicked
  datatype Io<+T> = Ok(value: T) | Fail(kind: ErrorKind)

  // ---------- four little-endian length bytes ----------

  function LittleEndian(n: nat): Bytes
    requires n <= U32_MAX
  {
    [n % 256, n / 256 % 256, n / 65536 % 256, n / 16777216]
  }

  function FromLittleEndian(b: Bytes): nat
    requires |b| == 4
  {
    b[0] as int + 256 * (b[1] as int) + 65536 * (b[2] as int) + 16777216 * (b[3] as int)
  }

  lemma LengthRoundTrip(n: nat)
    requires n <= U32_MAX
    ensures FromLittleEndian(LittleEndian(n)) == n
    ensures var b := LittleEndian(n);
            |b| == 4 && b[0] as int + 256 * b[1] as int + 65536 * b[2] as int + 16777216 * b[3] as int == n
  {
    var q1, q2, q3 := n / 256, n / 65536, n / 16777216;
    assert n == n % 256 + 256 * q1;
    assert q1 == q1 % 256 + 256 * q2;
    assert q2 == q2 % 256 + 256 * q3;
  }

  // ---------- frames ----------

  function Frame(payload: Bytes): Bytes
    requires |payload| <= U32_MAX
  {
    LittleEndian(|payload|) + payload
  }

  /** Too large a message is refused before anything is written. */
  function Write<T>(c: Codec<T>, stream: Bytes, m: T): (Bytes, Io<()>) {
    var payload := c.encode(m);
    if |payload| > U32_MAX || |payload| > MAX_FRAME_BYTES then (stream, Fail(InvalidData))
    else (stream + Frame(payload), Ok(()))
  }

  // Reading past the end consumes what there is.
  function Read<T>(c: Codec<T>, stream: Bytes): (Bytes, Io<T>) {
    if |stream| < 4 then ([], Fail(UnexpectedEof))
    else
      var len := FromLittleEndian(stream[..4]);
      var rest := stream[4..];
      if len > MAX_FRAME_BYTES then (rest, Fail(InvalidData))
      else if |rest| < len then ([], Fail(UnexpectedEof))
      else
        match c.decode(rest[..len])
        case Some(m) => (rest[len..], Ok(m))
        case None => (rest[len..], Fail(InvalidData))
  }

  predicate Fits<T>(c: Codec<T>, m: T) {
    |c.encode(m)| <= MAX_FRAME_BYTES
  }

  lemma FrameRoundTrip<T(!new)>(c: Codec<T>, m: T, tail: Bytes)
    requires Sound(c) && Fits(c, m)
    ensures Read(c, Frame(c.encode(m)) + tail) == (tail, Ok(m))
  {
    var payload := c.encode(m);
    var stream := Frame(payload) + tail;
    LengthRoundTrip(|payload|);
    assert stream[..4] == LittleEndian(|payload|);
    assert stream[4..] == payload + tail;
    assert stream[4..][..|payload|] == payload && stream[4..][|payload|..] == tail;
  }

  function WriteAll<T>(c: Codec<T>, stream: Bytes, ms: seq<T>): Bytes
    decreases |ms|
  {
    if ms == [] then stream else WriteAll(c, Write(c, stream, ms[0]).0, ms[1..])
  }

  function ReadMany<T>(c: Codec<T>, stream: Bytes, n: nat): (Bytes, Io<seq<T>>) {
    if n == 0 then (stream, Ok([]))
    else
      var (rest, first) := Read(c, stream);
      match first
      case Fail(k) => (rest, Fail(k))
      case Ok(m) =>
        var (rest', others) := ReadMany(c, rest, n - 1);
        (rest', match others case Ok(ms) => Ok([m] + ms) case Fail(k) => Fail(k))
  }

  lemma {:induction false} WriteAllAppends<T>(c: Codec<T>, stream: Bytes, ms: seq<T>)
    requires forall i :: 0 <= i < |ms| ==> Fits(c, ms[i])
    ensures WriteAll(c, stream, ms) == stream + WriteAll(c, [], ms)
    decreases |ms|
  {
    if ms != [] {
      var f := Frame(c.encode(ms[0]));
      WriteAllAppends(c, stream + f, ms[1..]);
      WriteAllAppends(c, [] + f, ms[1..]);
      assert [] + f == f;
      assert stream + f + WriteAll(c, [], ms[1..]) == stream + (f + WriteAll(c, [], ms[1..]));
    } else {
      assert stream + [] == stream;
    }
  }

  /** Any list of messages within the size bound is read back exactly, and whatever follows the
      frames is left untouched. */
  lemma {:induction false} FramesRoundTrip<T(!new)>(c: Codec<T>, ms: seq<T>, tail: Bytes)
    requires Sound(c) && forall i :: 0 <= i < |ms| ==> Fits(c, ms[i])
    ensures ReadMany(c, WriteAll(c, [], ms) + tail, |ms|) == (tail, Ok(ms))
    decreases |ms|
  {
    if ms == [] {
      assert [] + tail == tail;
    } else {
      var f, rest := Frame(c.encode(ms[0])), WriteAll(c, [], ms[1..]);
      assert [] + f == f;
      WriteAllAppends(c, f, ms[1..]);
      assert f + rest + tail == f + (rest + tail);
      FrameRoundTrip(c, ms[0], rest + tail);
      FramesRoundTrip(c, ms[1..], tail);
      assert [ms[0]] + ms[1..] == ms;
    }
  }

  // ---------- one request ----------

  datatype Response =
    | ProofBytes(bytes: Bytes) | VerifyOk | Version(version: string) | Err(message: string) | Size(segments: nat)

  predicate IsTerminal(r: Response) {
    !r.Size?
  }

  datatype Outcome<+T> = Good(value: T) | Bad(message: string)

  // What the proving thread sends over its channel.
  datatype WorkerEvent = SizeEvent(segments: nat) | DoneEvent(result: Outcome<Bytes>)

  /** A request together with what the proving and verifying libraries make of it: the segment
      count, if it is taken and succeeds, and the verdict or result, unless the thread dies. */
  datatype Job =
    | VersionJob(version: string)
    | VerifyJob(verdict: Option<Outcome<()>>)
    | ProveJob(size: Option<nat>, result: Option<Outcome<Bytes>>)

  function Events(size: Option<nat>, result: Option<Outcome<Bytes>>): seq<WorkerEvent> {
    (if size.Some? then [SizeEvent(size.value)] else [])
    + (if result.Some? then [DoneEvent(result.value)] else [])
  }

  function Terminal(result: Outcome<Bytes>): Response {
    match result case Good(bytes) => ProofBytes(bytes) case Bad(message) => Err(message)
  }

  /** The answer the job calls for, if its thread lives to give one. */
  function FinalAnswer(job: Job): Option<Response> {
    match job
    case VersionJob(v) => Some(Version(v))
    case VerifyJob(Some(Good(_))) => Some(VerifyOk)
    case VerifyJob(Some(Bad(message))) => Some(Err(message))
    case VerifyJob(None) => None
    case ProveJob(_, Some(result)) => Some(Terminal(result))
    case ProveJob(_, None) => None
  }

  // Verifying runs on the connection's own thread, which takes the connection with it.
  predicate Panics(job: Job) {
    job.VerifyJob? && job.verdict.None?
  }

  function Sizes(job: Job): seq<nat> {
    if job.ProveJob? && job.size.Some? then [job.size.value] else []
  }

  // The event loop: size reports are passed on, the result ends it, a refused write ends it too.
  function Pump(c: Codec<Response>, stream: Bytes, events: seq<WorkerEvent>): (Bytes, Io<()>)
    decreases |events|
  {
    if events == [] then (stream, Ok(()))
    else
      match events[0]
      case SizeEvent(n) =>
        var (stream', res) := Write(c, stream, Size(n));
        if res.Fail? then (stream', res) else Pump(c, stream', events[1..])
      case DoneEvent(result) => Write(c, stream, Terminal(result))
  }

  function Answer(c: Codec<Response>, stream: Bytes, job: Job): (Bytes, Io<()>) {
    match job
    case VersionJob(v) => Write(c, stream, Version(v))
    case VerifyJob(Some(Good(_))) => Write(c, stream, VerifyOk)
    case VerifyJob(Some(Bad(message))) => Write(c, stream, Err(message))
    case VerifyJob(None) => (stream, Fail(Panicked))
    case ProveJob(size, result) => Pump(c, stream, Events(size, result))
  }

  datatype CallResult = CallResult(sizes: seq<nat>, answer: Io<Response>, rest: Bytes)

  /** The caller's side: forward size reports until a terminal frame arrives. */
  function Call(c: Codec<Response>, stream: Bytes): CallResult
    decreases |stream|
  {
    var (rest, first) := Read(c, stream);
    match first
    case Fail(k) => CallResult([], Fail(k), rest)
    case Ok(m) =>
      if IsTerminal(m) then CallResult([], Ok(m), rest)
      else
        var more := Call(c, rest);
        more.(sizes := [m.segments] + more.sizes)
  }

  /** Every frame of the exchange is within the size bound. */
  predicate AllFit(c: Codec<Response>, job: Job) {
    && (FinalAnswer(job).Some? ==> Fits(c, FinalAnswer(job).value))
    && SizeFits(c, job)
  }

  predicate SizeFits(c: Codec<Response>, job: Job) {
    job.ProveJob? && job.size.Some? ==> Fits(c, Size(job.size.value))
  }

  function SizeFrame(c: Codec<Response>, job: Job): Bytes
    requires SizeFits(c, job)
  {
    if job.ProveJob? && job.size.Some? then Frame(c.encode(Size(job.size.value))) else []
  }

  function LastFrame(c: Codec<Response>, job: Job): Bytes
    requires AllFit(c, job)
  {
    if FinalAnswer(job).Some? then Frame(c.encode(FinalAnswer(job).value)) else []
  }

  // The worker writes at most one size frame and at most one terminal frame, in that order.
  lemma AnswerFrames(c: Codec<Response>, stream: Bytes, job: Job)
    requires AllFit(c, job)
    ensures Answer(c, stream, job)
         == (stream + SizeFrame(c, job) + LastFrame(c, job), if Panics(job) then Fail(Panicked) else Ok(()))
  {
    assert stream + [] == stream;
    if job.ProveJob? {
      var done := if job.result.Some? then [DoneEvent(job.result.value)] else [];
      var events := Events(job.size, job.result);
      var stream1 := stream + SizeFrame(c, job);
      assert Pump(c, stream1, done) == (stream1 + LastFrame(c, job), Ok(())) by {
        assert stream1 + [] == stream1;
      }
      if job.size.Some? {
        assert events[0] == SizeEvent(job.size.value) && events[1..] == done;
      } else {
        assert events == done;
      }
    }
  }

  lemma LastDelivers(c: Codec<Response>, job: Job, tail: Bytes)
    requires Sound(c) && AllFit(c, job)
    ensures Call(c, LastFrame(c, job) + tail)
         == if FinalAnswer(job).Some? then CallResult([], Ok(FinalAnswer(job).value), tail) else Call(c, tail)
  {
    if FinalAnswer(job).Some? {
      FrameRoundTrip(c, FinalAnswer(job).value, tail);
    } else {
      assert [] + tail == tail;
    }
  }

  lemma SizeDelivers(c: Codec<Response>, job: Job, rest: Bytes)
    requires Sound(c) && SizeFits(c, job)
    ensures Call(c, SizeFrame(c, job) + rest) == var more := Call(c, rest); more.(sizes := Sizes(job) + more.sizes)
  {
    if job.ProveJob? && job.size.Some? {
      FrameRoundTrip(c, Size(job.size.value), rest);
    } else {
      assert [] + rest == rest;
      assert [] + Call(c, rest).sizes == Call(c, rest).sizes;
    }
  }

  /** A whole exchange: when every frame fits and the proving thread returns, the caller gets
      the size report, if there is one, and exactly the terminal answer of the job, and stops
      reading there.  When the thread dies, the caller never sees a terminal frame of this job
      and takes whatever comes next for it. */
  lemma ExchangeDelivers(c: Codec<Response>, job: Job, tail: Bytes)
    requires Sound(c) && AllFit(c, job)
    ensures var (stream, res) := Answer(c, [], job);
            && res == (if Panics(job) then Fail(Panicked) else Ok(()))
            && Call(c, stream + tail)
               == if FinalAnswer(job).Some? then CallResult(Sizes(job), Ok(FinalAnswer(job).value), tail)
                  else var more := Call(c, tail); more.(sizes := Sizes(job) + more.sizes)
  {
    AnswerFrames(c, [], job);
    var first, last := SizeFrame(c, job), LastFrame(c, job);
    assert [] + first + last + tail == first + (last + tail);
    LastDelivers(c, job, tail);
    SizeDelivers(c, job, last + tail);
    assert Sizes(job) + [] == Sizes(job);
  }

  // ---------- the connection ----------

  // An answer over the size bound is refused whole: the size report, if any, is all that is
  // written, and the worker's write fails.
  lemma RefusedAnswer(c: Codec<Response>, stream: Bytes, job: Job)
    requires SizeFits(c, job) && FinalAnswer(job).Some? && !Fits(c, FinalAnswer(job).value)
    ensures Answer(c, stream, job) == (stream + SizeFrame(c, job), Fail(InvalidData))
  {
    assert stream + [] == stream;
    if job.ProveJob? {
      var done := [DoneEvent(job.result.value)];
      var events := Events(job.size, job.result);
      var stream1 := stream + SizeFrame(c, job);
      assert Pump(c, stream1, done) == (stream1, Fail(InvalidData));
      if job.size.Some? {
        assert events[0] == SizeEvent(job.size.value) && events[1..] == done;
      } else {
        assert events == done;
      }
    }
  }

  lemma RefusedSize(c: Codec<Response>, stream: Bytes, job: Job)
    requires !SizeFits(c, job)
    ensures Answer(c, stream, job) == (stream, Fail(InvalidData))
  {
    assert Events(job.size, job.result)[0] == SizeEvent(job.size.value);
  }

  /** What a caller ends up with: an answer, an error, or nothing, for as long as the worker's
      side stays open. */
  datatype Observed =
    | Told(sizes: seq<nat>, answer: Response)
    | Blocked(sizes: seq<nat>)
    | Broken(sizes: seq<nat>, kind: ErrorKind)

  // Running out of bytes is the end of the file on a closed connection, and waiting on an open one.
  function Observe(r: CallResult, open: bool): Observed {
    match r.answer
    case Ok(m) => Told(r.sizes, m)
    case Fail(kind) => if kind.UnexpectedEof? && open then Blocked(r.sizes) else Broken(r.sizes, kind)
  }

  /** One call on a connection of its own.  The worker reads the request, answers it, and goes
      back to reading if all was written; after a failed read or write it hangs up.  `work` is
      what the proving and verifying libraries make of a request. */
  function Conversation<R>(requests: Codec<R>, c: Codec<Response>, connects: bool, req: R, work: R -> Job): Observed {
    if !connects then Broken([], ConnectionRefused)
    else
      var (sent, written) := Write(requests, [], req);
      if written.Fail? then Broken([], written.kind)
      else
        match Read(requests, sent).1
        case Fail(_) => Broken([], UnexpectedEof)
        case Ok(got) =>
          var (stream, res) := Answer(c, [], work(got));
          Observe(Call(c, stream), res.Ok?)
  }

  lemma NothingToRead(c: Codec<Response>)
    ensures Call(c, []) == CallResult([], Fail(UnexpectedEof), [])
  {
  }

  // The caller's view of what the worker wrote, by how the writing went.
  lemma WorkerOutcomes(c: Codec<Response>, job: Job)
    requires Sound(c)
    ensures var (stream, res) := Answer(c, [], job);
            Observe(Call(c, stream), res.Ok?)
            == if !SizeFits(c, job) then Broken([], UnexpectedEof)
               else match FinalAnswer(job)
                    case None => if Panics(job) then Broken([], UnexpectedEof) else Blocked(Sizes(job))
                    case Some(answer) =>
                      if Fits(c, answer) then Told(Sizes(job), answer) else Broken(Sizes(job), UnexpectedEof)
  {
    var stream := Answer(c, [], job).0;
    NothingToRead(c);
    assert stream + [] == stream;
    if !SizeFits(c, job) {
      RefusedSize(c, [], job);
    } else if FinalAnswer(job).Some? && !Fits(c, FinalAnswer(job).value) {
      RefusedAnswer(c, [], job);
      var first := SizeFrame(c, job);
      assert [] + first == first && first + [] == first;
      SizeDelivers(c, job, []);
      assert Sizes(job) + [] == Sizes(job);
    } else {
      ExchangeDelivers(c, job, []);
      assert Sizes(job) + [] == Sizes(job);
    }
  }

  /** Exactly how a call ends.  The caller is told the job's terminal answer, after its size
      report, when the proving thread returned and every frame fits.  When the thread died it
      waits on an open connection for ever.  When a frame does not fit it gets an error: its
      own for the request, the end of the file for an answer; the latter also when verifying
      panics. */
  lemma CallEndsExactly<R(!new)>(requests: Codec<R>, c: Codec<Response>, connects: bool, req: R, work: R -> Job)
    requires Sound(requests) && Sound(c)
    ensures var job := work(req);
            Conversation(requests, c, connects, req, work)
            == if !connects then Broken([], ConnectionRefused)
               else if !Fits(requests, req) then Broken([], InvalidData)
               else if !SizeFits(c, job) then Broken([], UnexpectedEof)
               else match FinalAnswer(job)
                    case None => if Panics(job) then Broken([], UnexpectedEof) else Blocked(Sizes(job))
                    case Some(answer) =>
                      if Fits(c, answer) then Told(Sizes(job), answer) else Broken(Sizes(job), UnexpectedEof)
  {
    if connects && Fits(requests, req) {
      var f := Frame(requests.encode(req));
      FrameRoundTrip(requests, req, []);
      assert [] + f == f && f + [] == f;
      WorkerOutcomes(c, work(req));
    }
  }

  /** In particular a caller waits for ever exactly when the proving thread died after the
      request and any size report got through. */
  lemma BlockedIff<R(!new)>(requests: Codec<R>, c: Codec<Response>, connects: bool, req: R, work: R -> Job)
    requires Sound(requests) && Sound(c)
    ensures Conversation(requests, c, connects, req, work).Blocked?
       <==> connects && Fits(requests, req) && SizeFits(c, work(req)) && work(req).ProveJob? && work(req).result.None?
  {
    CallEndsExactly(requests, c, connects, req, work);
  }

  predicate InBound<T>(c: Codec<T>, m: T) {
    |c.encode(m)| <= 1_073_741_824
  }

  // The size report comes first and the answer follows, if both are within the bound.
  ghost predicate Learns(c: Codec<Response>, seen: Observed, size: Option<nat>, answer: Response) {
    var sizes := if size.Some? then [size.value] else [];
    (size.Some? ==> InBound(c, Size(size.value))) ==>
      seen == if InBound(c, answer) then Told(sizes, answer) else Broken(sizes, UnexpectedEof)
  }

  /** What a caller learns, job by job: the version; the verdict of the verifier; the bytes of the
      proof or the prover's message, after the size report if there is one; each when it fits
      into a gigabyte.  A verifier that panics hangs up, a prover that dies says nothing. */
  lemma CallerLearnsTheOutcome<R(!new)>(requests: Codec<R>, c: Codec<Response>, req: R, work: R -> Job)
    requires Sound(requests) && Sound(c) && InBound(requests, req)
    ensures var seen := Conversation(requests, c, true, req, work);
            match work(req)
            case VersionJob(version) => Learns(c, seen, None, Version(version))
            case VerifyJob(Some(Good(_))) => Learns(c, seen, None, VerifyOk)
            case VerifyJob(Some(Bad(message))) => Learns(c, seen, None, Err(message))
            case VerifyJob(None) => seen == Broken([], UnexpectedEof)
            case ProveJob(size, Some(Good(bytes))) => Learns(c, seen, size, ProofBytes(bytes))
            case ProveJob(size, Some(Bad(message))) => Learns(c, seen, size, Err(message))
            case ProveJob(size, None) =>
              (size.Some? ==> InBound(c, Size(size.value))) ==>
                seen == Blocked(if size.Some? then [size.value] else [])
  {
    CallEndsExactly(requests, c, true, req, work);
  }

  // ---------- over a stream ----------

  class Stream {
    var data: Bytes

    constructor ()
      ensures data == []
    {
      data := [];
    }

    method WriteFrame<T>(c: Codec<T>, m: T) returns (res: Io<()>)
      modifies this
      ensures (data, res) == Write(c, old(data), m)
    {
      var payload := c.encode(m);
      if |payload| > U32_MAX {
        return Fail(InvalidData);
      }
      if |payload| > MAX_FRAME_BYTES {
        return Fail(InvalidData);
      }
      data := data + LittleEndian(|payload|);
      data := data + payload;
      assert data == old(data) + Frame(payload);
      return Ok(());
    }

    // `read_exact`: all `n` bytes, or an end-of-file error that uses up the rest.
    method ReadExact(n: nat) returns (res: Io<Bytes>)
      modifies this
      ensures if n <= |old(data)| then res == Ok(old(data)[..n]) && data == old(data)[n..]
              else res == Fail(UnexpectedEof) && data == []
    {
      if n > |data| {
        data := [];
        return Fail(UnexpectedEof);
      }
      res := Ok(data[..n]);
      data := data[n..];
    }

    method ReadFrame<T>(c: Codec<T>) returns (res: Io<T>)
      modifies this
      ensures (data, res) == Read(c, old(data))
    {
      var head := ReadExact(4);
      if head.Fail? {
        return Fail(head.kind);
      }
      var len := FromLittleEndian(head.value);
      if len > MAX_FRAME_BYTES {
        return Fail(InvalidData);
      }
      var body := ReadExact(len);
      if body.Fail? {
        return Fail(body.kind);
      }
      var m := c.decode(body.value);
      return if m.Some? then Ok(m.value) else Fail(InvalidData);
    }

    method HandleRequest(c: Codec<Response>, job: Job) returns (res: Io<()>)
      modifies this
      ensures (data, res) == Answer(c, old(data), job)
    {
      match job {
        case VersionJob(v) => res := WriteFrame(c, Version(v));
        case VerifyJob(verdict) =>
          if verdict.None? {
            return Fail(Panicked);
          }
          var resp := match verdict.value case Good(_) => VerifyOk case Bad(message) => Err(message);
          res := WriteFrame(c, resp);
        case ProveJob(size, result) =>
          var events := Events(size, result);
          res := Ok(());
          var i := 0;
          while i < |events|
            invariant 0 <= i <= |events|
            invariant res == Ok(())
            invariant Pump(c, data, events[i..]) == Pump(c, old(data), events)
          {
            assert events[i..][0] == events[i] && events[i..][1..] == events[i + 1..];
            match events[i] {
              case SizeEvent(n) =>
                res := WriteFrame(c, Size(n));
                if res.Fail? {
                  return;
                }
              case DoneEvent(r) =>
                res := WriteFrame(c, Terminal(r));
                return;
            }
            i := i + 1;
          }
      }
    }

    method ReceiveAnswer(c: Codec<Response>) returns (sizes: seq<nat>, answer: Io<Response>)
      modifies this
      ensures CallResult(sizes, answer, data) == Call(c, old(data))
    {
      sizes := [];
      while true
        invariant Call(c, old(data)) == var more := Call(c, data); more.(sizes := sizes + more.sizes)
        decreases |data|
      {
        var frame := ReadFrame(c);
        if frame.Fail? {
          assert sizes + [] == sizes;
          return sizes, Fail(frame.kind);
        }
        if IsTerminal(frame.value) {
          assert sizes + [] == sizes;
          return sizes, Ok(frame.value);
        }
        ghost var more := Call(c, data);
        assert sizes + ([frame.value.segments] + more.sizes) == sizes + [frame.value.segments] + more.sizes;
        sizes := sizes + [frame.value.segments];
      }
    }
  }
}
