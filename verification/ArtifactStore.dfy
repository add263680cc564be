/** The Hierophant's artifact store: files on disk, trimmed by two rings of URIs. */
module ArtifactStore {
  import opened Network
  import opened Rings
  import opened ArtifactUri

  datatype Class = ProofClass | StdinClass | Unlimited

  // Private inputs share the budget of ordinary ones.
  function ClassOf(u: Uri): Class {
    match u.kind
    case Proof => ProofClass
    case Stdin => StdinClass
    case PrivateStdin => StdinClass
    case _ => Unlimited
  }

  // Files are keyed by URI; different URIs have different paths (ArtifactUri.PrintInjective).
  type Disk = map<Uri, Bytes>

  datatype Shelves = Shelves(uploads: set<Uri>, proofs: Ring<Uri>, stdins: Ring<Uri>, disk: Disk)

  // What the file system does: deleting an existing file may fail, and a failing write may
  // leave a file behind.
  datatype Write = Written | WriteFailed(leftover: Option<Bytes>)
  datatype Weather = Weather(deletes: bool, write: Write)

  datatype ReadResult = Missing | Loaded(bytes: Bytes) | Unreadable
  datatype SaveResult = Saved | AlreadyThere | NotRegistered | WriteError

  predicate WellFormedShelves(s: Shelves) {
    WellFormed(s.proofs) && WellFormed(s.stdins)
  }

  function RingFor(s: Shelves, c: Class): Ring<Uri>
    requires !c.Unlimited?
  {
    if c.ProofClass? then s.proofs else s.stdins
  }

  // ---------- the operations ----------

  function Registered(s: Shelves, u: Uri): Shelves {
    s.(uploads := s.uploads + {u})
  }

  function Removed(disk: Disk, victim: Uri, deletes: bool): Disk {
    if victim != DEFAULT && deletes then disk - {victim} else disk
  }

  // Makes room: the slot at the cursor gives up its file and takes the new URI.
  function Shelved(s: Shelves, u: Uri, deletes: bool): Shelves
    requires WellFormedShelves(s)
  {
    match ClassOf(u)
    case ProofClass =>
      s.(disk := Removed(s.disk, s.proofs.slots[s.proofs.cursor], deletes), proofs := Push(s.proofs, u))
    case StdinClass =>
      s.(disk := Removed(s.disk, s.stdins.slots[s.stdins.cursor], deletes), stdins := Push(s.stdins, u))
    case Unlimited => s
  }

  function WrittenTo(disk: Disk, u: Uri, bytes: Bytes, w: Write): Disk {
    match w
    case Written => disk[u := bytes]
    case WriteFailed(None) => disk
    case WriteFailed(Some(part)) => disk[u := part]
  }

  function Save(s: Shelves, u: Uri, bytes: Bytes, w: Weather): (Shelves, SaveResult)
    requires WellFormedShelves(s)
  {
    if u !in s.uploads then (s, NotRegistered)
    else if u in s.disk then (s, AlreadyThere)
    else
      var s1 := Shelved(s, u, w.deletes);
      (s1.(disk := WrittenTo(s1.disk, u, bytes, w.write)), if w.write.Written? then Saved else WriteError)
  }

  // ---------- rings and disk agree ----------

  /** A ring holds URIs of its class, besides the blanks it started with. */
  ghost predicate Typed(s: Shelves) {
    && WellFormedShelves(s)
    && (forall u :: u in s.proofs.slots ==> u == DEFAULT || ClassOf(u) == ProofClass)
    && (forall u :: u in s.stdins.slots ==> u == DEFAULT || ClassOf(u) == StdinClass)
  }

  /** Every file of the limited class `c` is in its ring. */
  ghost predicate Contained(s: Shelves, c: Class)
    requires !c.Unlimited?
  {
    forall u :: u in s.disk && ClassOf(u) == c ==> u in RingFor(s, c).slots
  }

  lemma PushMembers(r: Ring<Uri>, x: Uri, y: Uri)
    requires WellFormed(r)
    ensures y in Push(r, x).slots ==> y in r.slots || y == x
    ensures x in Push(r, x).slots
    ensures y in r.slots && y != r.slots[r.cursor] ==> y in Push(r, x).slots
  {
    assert Push(r, x).slots[r.cursor] == x;
    if y in r.slots && y != r.slots[r.cursor] {
      var i :| 0 <= i < |r.slots| && r.slots[i] == y;
      assert Push(r, x).slots[i] == y;
    }
  }

  lemma SaveKeepsTyped(s: Shelves, u: Uri, bytes: Bytes, w: Weather)
    requires Typed(s)
    ensures Typed(Save(s, u, bytes, w).0)
  {
    var s' := Save(s, u, bytes, w).0;
    forall y | y in s'.proofs.slots ensures y == DEFAULT || ClassOf(y) == ProofClass {
      PushMembers(s.proofs, u, y);
    }
    forall y | y in s'.stdins.slots ensures y == DEFAULT || ClassOf(y) == StdinClass {
      PushMembers(s.stdins, u, y);
    }
  }

  /** The URI whose file a new save of `u` gives up. */
  function Victim(s: Shelves, u: Uri): Uri
    requires WellFormedShelves(s) && !ClassOf(u).Unlimited?
  {
    var r := RingFor(s, ClassOf(u));
    r.slots[r.cursor]
  }

  /** A save of a new file that fails to delete its victim's file loses track of it. */
  predicate LeaksVictim(s: Shelves, u: Uri, w: Weather)
    requires WellFormedShelves(s)
  {
    && u in s.uploads && u !in s.disk && !ClassOf(u).Unlimited? && !w.deletes
    && Victim(s, u) != DEFAULT && Victim(s, u) in s.disk
    && Victim(s, u) !in Push(RingFor(s, ClassOf(u)), u).slots
  }

  /** Whatever happens to the write, a save keeps every file of a limited class in its ring
      exactly when it does not fail to delete a file of that class it stops tracking. */
  lemma SaveKeepsContainedIff(s: Shelves, u: Uri, bytes: Bytes, w: Weather, c: Class)
    requires !c.Unlimited? && Typed(s) && Contained(s, c)
    ensures Contained(Save(s, u, bytes, w).0, c) <==> !(ClassOf(u) == c && LeaksVictim(s, u, w))
  {
    var s' := Save(s, u, bytes, w).0;
    if u in s.uploads && u !in s.disk && ClassOf(u) == c {
      var r, v := RingFor(s, c), Victim(s, u);
      assert v in r.slots;
      PushMembers(r, u, u);
      if LeaksVictim(s, u, w) {
        assert v in s'.disk && ClassOf(v) == c;
      } else {
        forall y | y in s'.disk && ClassOf(y) == c ensures y in RingFor(s', c).slots {
          if y != u {
            PushMembers(r, u, y);
          }
        }
      }
    }
  }

  ghost function FilesOf(s: Shelves, c: Class): set<Uri> {
    set u | u in s.disk && ClassOf(u) == c
  }

  lemma {:induction false} SlotsBound(slots: seq<Uri>, files: set<Uri>)
    requires forall u :: u in files ==> u in slots
    ensures |files| <= |slots|
    decreases |slots|
  {
    if slots == [] {
      assert files == {};
    } else {
      var last := slots[|slots| - 1];
      assert slots == slots[..|slots| - 1] + [last];
      SlotsBound(slots[..|slots| - 1], files - {last});
    }
  }

  /** Containment is what bounds the disk: at most as many files as the limit. */
  lemma WithinLimits(s: Shelves, c: Class)
    requires !c.Unlimited? && Contained(s, c)
    ensures |FilesOf(s, c)| <= |RingFor(s, c).slots|
  {
    SlotsBound(RingFor(s, c).slots, FilesOf(s, c));
  }

  // ---------- what a save leaves alone ----------

  /** No class evicts another, nothing unlimited is ever deleted, at most one file goes, and the
      bytes of a file never change while it stays. */
  lemma SaveDisturbsLittle(s: Shelves, u: Uri, bytes: Bytes, w: Weather, v: Uri)
    requires Typed(s) && v in s.disk
    ensures var s' := Save(s, u, bytes, w).0;
            && (v in s'.disk ==> s'.disk[v] == s.disk[v])
            && (v !in s'.disk ==> !ClassOf(u).Unlimited? && ClassOf(v) == ClassOf(u) && v == Victim(s, u))
  {
    if !ClassOf(u).Unlimited? {
      assert Victim(s, u) in RingFor(s, ClassOf(u)).slots;
    }
  }

  /** Saving reports success for bytes it did not store exactly when a different file of that
      name is already there. */
  lemma OkMeansStoredIff(s: Shelves, u: Uri, bytes: Bytes, w: Weather)
    requires WellFormedShelves(s) && (Save(s, u, bytes, w).1.Saved? || Save(s, u, bytes, w).1.AlreadyThere?)
    ensures var disk' := Save(s, u, bytes, w).0.disk;
            u in disk' && (disk'[u] == bytes <==> u !in s.disk || s.disk[u] == bytes)
  {
  }

  /** So a write that failed half way is not repaired by uploading again: the retry reports
      success and the fragment stays. */
  lemma RetryKeepsFragment(s: Shelves, u: Uri, bytes: Bytes, part: Bytes, deletes: bool, w: Weather)
    requires WellFormedShelves(s) && u in s.uploads && u !in s.disk && part != bytes
    ensures var s1 := Save(s, u, bytes, Weather(deletes, WriteFailed(Some(part)))).0;
            WellFormedShelves(s1)
            && Save(s1, u, bytes, w) == (s1, AlreadyThere) && u in s1.disk && s1.disk[u] == part
  {
  }

  // ---------- exactly the last ones ----------

  /** The ring of class `c` and its files are the last ones of the log of new saves. */
  ghost predicate Tracks(s: Shelves, c: Class, log: seq<Uri>)
    requires !c.Unlimited?
  {
    var r := RingFor(s, c);
    && WellFormed(r)
    && (forall i :: 0 <= i < |log| ==> ClassOf(log[i]) == c)
    && Unrolled(r) == Layout(|r.slots|, DEFAULT, LastOf(|r.slots|, log))
    && NoRepeats(LastOf(|r.slots|, log))
    && (forall u :: u in FilesOf(s, c) <==> u in LastOf(|r.slots|, log))
  }

  ghost predicate NoRepeats(q: seq<Uri>) {
    forall i, j :: 0 <= i < j < |q| ==> q[i] != q[j]
  }

  lemma BoundedMembers(n: nat, q: seq<Uri>, x: Uri)
    requires n > 0 && |q| <= n && NoRepeats(q) && x !in q
    ensures NoRepeats(Bounded(n, q, x))
    ensures forall u :: u in Bounded(n, q, x) <==> u == x || (u in q && (|q| == n ==> u != q[0]))
  {
    var b := Bounded(n, q, x);
    if |q| == n {
      assert q == [q[0]] + q[1..];
      assert b == q[1..] + [x];
    }
  }

  lemma VictimIsOldest(s: Shelves, c: Class, log: seq<Uri>)
    requires !c.Unlimited? && Tracks(s, c, log)
    ensures var r, q := RingFor(s, c), LastOf(|RingFor(s, c).slots|, log);
            && |q| <= |r.slots|
            && r.slots[r.cursor] == if |q| == |r.slots| then q[0] else DEFAULT
  {
  }

  lemma NewSaveTracks(s: Shelves, c: Class, log: seq<Uri>, u: Uri, bytes: Bytes)
    requires !c.Unlimited? && WellFormedShelves(s) && Tracks(s, c, log)
    requires u in s.uploads && u !in s.disk && ClassOf(u) == c
    ensures Tracks(Save(s, u, bytes, Weather(true, Written)).0, c, log + [u])
  {
    var s' := Save(s, u, bytes, Weather(true, Written)).0;
    var r := RingFor(s, c);
    var n, q := |r.slots|, LastOf(|r.slots|, log);
    VictimIsOldest(s, c, log);
    assert u !in q;
    LastIsBounded(n, log, u);
    BoundedMembers(n, q, u);
    PushIsBoundedQueue(r, DEFAULT, q, u);
    assert RingFor(s', c) == Push(r, u);
    forall y ensures y in FilesOf(s', c) <==> y in LastOf(n, log + [u]) {
      assert y in FilesOf(s, c) <==> y in q;
    }
  }

  // Whatever the weather, refused uploads and those of another class leave class `c` alone.
  lemma OtherSaveTracks(s: Shelves, c: Class, log: seq<Uri>, u: Uri, bytes: Bytes, w: Weather)
    requires !c.Unlimited? && Typed(s) && Tracks(s, c, log)
    requires u !in s.uploads || u in s.disk || ClassOf(u) != c
    ensures Tracks(Save(s, u, bytes, w).0, c, log)
  {
    var s' := Save(s, u, bytes, w).0;
    assert RingFor(s', c) == RingFor(s, c);
    forall y ensures y in FilesOf(s', c) <==> y in FilesOf(s, c) {
      if y in s.disk {
        SaveDisturbsLittle(s, u, bytes, w, y);
      }
    }
  }

  // ---------- runs ----------

  datatype Op = Create(uri: Uri) | Upload(uri: Uri, bytes: Bytes, weather: Weather)

  function Perform(s: Shelves, op: Op): Shelves
    requires WellFormedShelves(s)
    ensures WellFormedShelves(Perform(s, op))
  {
    match op
    case Create(u) => Registered(s, u)
    case Upload(u, bytes, w) => Save(s, u, bytes, w).0
  }

  function Empty(stdins: nat, proofs: nat): Shelves {
    Shelves({}, Ring(seq(proofs, _ => DEFAULT), 0), Ring(seq(stdins, _ => DEFAULT), 0), map[])
  }

  function RunOps(s: Shelves, ops: seq<Op>): Shelves
    requires WellFormedShelves(s)
    ensures WellFormedShelves(RunOps(s, ops))
  {
    if ops == [] then s else Perform(RunOps(s, ops[..|ops| - 1]), ops[|ops| - 1])
  }

  ghost predicate DeletesWorkFor(ops: seq<Op>, c: Class) {
    forall i :: 0 <= i < |ops| && ops[i].Upload? && ClassOf(ops[i].uri) == c ==> ops[i].weather.deletes
  }

  /** While deletions for a limited class work, its files stay within its limit through any
      operations, any failing writes and any failing deletions for the other classes. */
  lemma {:induction false} DiskStaysWithinLimits(stdins: nat, proofs: nat, ops: seq<Op>, c: Class)
    requires stdins >= 1 && proofs >= 1 && !c.Unlimited? && DeletesWorkFor(ops, c)
    ensures var s := RunOps(Empty(stdins, proofs), ops);
            Contained(s, c) && |FilesOf(s, c)| <= if c.ProofClass? then proofs else stdins
  {
    var s := RunOps(Empty(stdins, proofs), ops);
    if ops != [] {
      var init, op := ops[..|ops| - 1], ops[|ops| - 1];
      DiskStaysWithinLimits(stdins, proofs, init, c);
      RunKeepsTyped(Empty(stdins, proofs), init);
      if op.Upload? {
        SaveKeepsContainedIff(RunOps(Empty(stdins, proofs), init), op.uri, op.bytes, op.weather, c);
      }
    }
    RingSizes(stdins, proofs, ops);
    WithinLimits(s, c);
  }

  lemma {:induction false} RunKeepsTyped(s: Shelves, ops: seq<Op>)
    requires Typed(s)
    ensures Typed(RunOps(s, ops))
  {
    if ops != [] {
      RunKeepsTyped(s, ops[..|ops| - 1]);
      var s0, op := RunOps(s, ops[..|ops| - 1]), ops[|ops| - 1];
      if op.Upload? {
        SaveKeepsTyped(s0, op.uri, op.bytes, op.weather);
      }
    }
  }

  ghost predicate StaysOnDisk(s: Shelves, ops: seq<Op>, u: Uri)
    requires WellFormedShelves(s)
  {
    forall i :: 0 <= i <= |ops| ==> u in RunOps(s, ops[..i]).disk
  }

  /** Bytes never change while a file stays, through any operations and any weather. */
  lemma {:induction false} BytesNeverChange(s: Shelves, ops: seq<Op>, u: Uri)
    requires Typed(s) && StaysOnDisk(s, ops, u)
    ensures u in s.disk && u in RunOps(s, ops).disk && RunOps(s, ops).disk[u] == s.disk[u]
  {
    assert ops[..0] == [] && ops[..|ops|] == ops;
    if ops != [] {
      var init, op := ops[..|ops| - 1], ops[|ops| - 1];
      assert forall i :: 0 <= i <= |init| ==> init[..i] == ops[..i];
      assert StaysOnDisk(s, init, u);
      BytesNeverChange(s, init, u);
      RunKeepsTyped(s, init);
      if op.Upload? {
        SaveDisturbsLittle(RunOps(s, init), op.uri, op.bytes, op.weather, u);
      }
    }
  }

  /** So nothing repairs a fragment: after a write that failed half way, no sequence of further
      uploads changes the file until it is evicted. */
  lemma FragmentStays(s: Shelves, u: Uri, bytes: Bytes, part: Bytes, deletes: bool, ops: seq<Op>)
    requires Typed(s) && u in s.uploads && u !in s.disk
    ensures var s1 := Save(s, u, bytes, Weather(deletes, WriteFailed(Some(part)))).0;
            Typed(s1) && (StaysOnDisk(s1, ops, u) ==> u in RunOps(s1, ops).disk && RunOps(s1, ops).disk[u] == part)
  {
    var w := Weather(deletes, WriteFailed(Some(part)));
    SaveKeepsTyped(s, u, bytes, w);
    var s1 := Save(s, u, bytes, w).0;
    if StaysOnDisk(s1, ops, u) {
      BytesNeverChange(s1, ops, u);
    }
  }

  // ---------- where files come from ----------

  // Operation `k` uploaded `u`, and this is what that left on disk.
  predicate Left(op: Op, u: Uri, bytes: Bytes) {
    && op.Upload? && op.uri == u
    && match op.weather.write
       case Written => bytes == op.bytes
       case WriteFailed(leftover) => leftover == Some(bytes)
  }

  lemma {:induction false} UploadsWereCreated(stdins: nat, proofs: nat, ops: seq<Op>, u: Uri) returns (j: nat)
    requires stdins >= 1 && proofs >= 1 && u in RunOps(Empty(stdins, proofs), ops).uploads
    ensures j < |ops| && ops[j] == Create(u)
  {
    var last := |ops| - 1;
    assert ops != [];
    if ops[last] == Create(u) {
      j := last;
    } else {
      j := UploadsWereCreated(stdins, proofs, ops[..last], u);
    }
  }

  /** Every file was uploaded under a name created before, and holds the bytes uploaded then, or
      what a failing write left of them. */
  lemma {:induction false} FilesWereUploaded(stdins: nat, proofs: nat, ops: seq<Op>, u: Uri) returns (j: nat, k: nat)
    requires stdins >= 1 && proofs >= 1 && u in RunOps(Empty(stdins, proofs), ops).disk
    ensures j < k < |ops| && ops[j] == Create(u) && Left(ops[k], u, RunOps(Empty(stdins, proofs), ops).disk[u])
  {
    assert ops != [];
    var last := |ops| - 1;
    var s := RunOps(Empty(stdins, proofs), ops[..last]);
    RunKeepsTyped(Empty(stdins, proofs), ops[..last]);
    if u in s.disk {
      j, k := FilesWereUploaded(stdins, proofs, ops[..last], u);
      if ops[last].Upload? {
        SaveDisturbsLittle(s, ops[last].uri, ops[last].bytes, ops[last].weather, u);
      }
    } else {
      k := last;
      j := UploadsWereCreated(stdins, proofs, ops[..last], u);
    }
  }

  // ---------- by the type of the artifact ----------

  predicate IsInput(u: Uri) {
    u.kind.Stdin? || u.kind.PrivateStdin?
  }

  /** Saving a proof deletes at most a proof, saving an input, private or not, at most an input,
      and saving anything else nothing. */
  lemma SaveDeletesItsOwnKind(s: Shelves, u: Uri, bytes: Bytes, w: Weather, v: Uri)
    requires Typed(s) && v in s.disk && v !in Save(s, u, bytes, w).0.disk
    ensures (u.kind.Proof? && v.kind.Proof?) || (IsInput(u) && IsInput(v))
  {
    SaveDisturbsLittle(s, u, bytes, w, v);
  }

  /** A program, or any other file that is neither proof nor input, is never deleted, through any
      operations and any weather. */
  lemma {:induction false} OthersAreNeverDeleted(s: Shelves, ops: seq<Op>, v: Uri)
    requires Typed(s) && v in s.disk && !v.kind.Proof? && !IsInput(v)
    ensures v in RunOps(s, ops).disk && RunOps(s, ops).disk[v] == s.disk[v]
  {
    if ops != [] {
      var init, op := ops[..|ops| - 1], ops[|ops| - 1];
      OthersAreNeverDeleted(s, init, v);
      RunKeepsTyped(s, init);
      if op.Upload? {
        SaveDisturbsLittle(RunOps(s, init), op.uri, op.bytes, op.weather, v);
      }
    }
  }

  ghost predicate InputDeletesWork(ops: seq<Op>) {
    forall i :: 0 <= i < |ops| && ops[i].Upload? && IsInput(ops[i].uri) ==> ops[i].weather.deletes
  }

  ghost predicate ProofDeletesWork(ops: seq<Op>) {
    forall i :: 0 <= i < |ops| && ops[i].Upload? && ops[i].uri.kind.Proof? ==> ops[i].weather.deletes
  }

  /** Inputs and private inputs together stay within the limit for inputs, and proofs within
      theirs, each while its own deletions work. */
  lemma InputsAndProofsStayWithinLimits(stdins: nat, proofs: nat, ops: seq<Op>)
    requires stdins >= 1 && proofs >= 1
    ensures var disk := RunOps(Empty(stdins, proofs), ops).disk;
            && (InputDeletesWork(ops) ==> |set u | u in disk && IsInput(u)| <= stdins)
            && (ProofDeletesWork(ops) ==> |set u | u in disk && u.kind.Proof?| <= proofs)
  {
    var s := RunOps(Empty(stdins, proofs), ops);
    if InputDeletesWork(ops) {
      DiskStaysWithinLimits(stdins, proofs, ops, StdinClass);
      assert (set u | u in s.disk && IsInput(u)) == FilesOf(s, StdinClass);
    }
    if ProofDeletesWork(ops) {
      DiskStaysWithinLimits(stdins, proofs, ops, ProofClass);
      assert (set u | u in s.disk && u.kind.Proof?) == FilesOf(s, ProofClass);
    }
  }

  // ---------- deletions that fail ----------

  // Each URI is created and uploaded, and no file is ever deleted.
  function StormyUploads(us: seq<Uri>, bytes: Bytes): seq<Op> {
    if us == [] then []
    else StormyUploads(us[..|us| - 1], bytes)
         + [Create(us[|us| - 1]), Upload(us[|us| - 1], bytes, Weather(false, Written))]
  }

  /** When deletions fail, files that no ring tracks pile up beyond any limit: all of any number
      of different artifacts stay. */
  lemma {:induction false} FailedDeletionsPileUp(stdins: nat, proofs: nat, us: seq<Uri>, bytes: Bytes)
    requires stdins >= 1 && proofs >= 1 && NoRepeats(us)
    ensures var s := RunOps(Empty(stdins, proofs), StormyUploads(us, bytes));
            forall u :: u in s.disk <==> u in us
  {
    if us != [] {
      var init, u := us[..|us| - 1], us[|us| - 1];
      FailedDeletionsPileUp(stdins, proofs, init, bytes);
      assert us == init + [u];
      var ops := StormyUploads(us, bytes);
      var before := StormyUploads(init, bytes);
      assert ops[..|ops| - 1][..|ops| - 2] == before && ops[..|ops| - 1] == before + [Create(u)];
      var s0 := RunOps(Empty(stdins, proofs), before);
      assert RunOps(Empty(stdins, proofs), ops[..|ops| - 1]) == Registered(s0, u);
      assert u !in init;
    }
  }

  /** The smallest such run: room for one proof, two on disk, and the ring knows only the second. */
  lemma OneUntrackedFile(first: Uri, second: Uri, bytes: Bytes)
    requires first != second && first.kind.Proof? && second.kind.Proof?
    ensures var s := RunOps(Empty(1, 1), StormyUploads([first, second], bytes));
            first in s.disk && second in s.disk && !Contained(s, ProofClass)
  {
    var us := [first, second];
    FailedDeletionsPileUp(1, 1, us, bytes);
    assert us[0] in us && us[1] in us;
    var s := RunOps(Empty(1, 1), StormyUploads(us, bytes));
    RingSizes(1, 1, StormyUploads(us, bytes));
    assert |{first, second}| == 2;
    if Contained(s, ProofClass) {
      assert first in RingFor(s, ProofClass).slots && second in RingFor(s, ProofClass).slots;
      SlotsBound(s.proofs.slots, {first, second});
    }
  }

  lemma {:induction false} RingSizes(stdins: nat, proofs: nat, ops: seq<Op>)
    requires stdins >= 1 && proofs >= 1
    ensures var s := RunOps(Empty(stdins, proofs), ops); |s.proofs.slots| == proofs && |s.stdins.slots| == stdins
  {
    if ops != [] {
      RingSizes(stdins, proofs, ops[..|ops| - 1]);
    }
  }

  /** The new saves of class `c`, in order. */
  ghost function NewSaves(s: Shelves, ops: seq<Op>, c: Class): seq<Uri>
    requires WellFormedShelves(s)
  {
    if ops == [] then []
    else
      var s0, op := RunOps(s, ops[..|ops| - 1]), ops[|ops| - 1];
      NewSaves(s, ops[..|ops| - 1], c)
      + (if op.Upload? && ClassOf(op.uri) == c && op.uri in s0.uploads && op.uri !in s0.disk then [op.uri] else [])
  }

  /** No upload of class `c` meets a failing write or deletion. */
  ghost predicate GoesWellFor(ops: seq<Op>, c: Class) {
    forall i :: 0 <= i < |ops| && ops[i].Upload? && ClassOf(ops[i].uri) == c ==> ops[i].weather == Weather(true, Written)
  }

  lemma EmptyTracks(stdins: nat, proofs: nat, c: Class)
    requires stdins >= 1 && proofs >= 1 && !c.Unlimited?
    ensures Tracks(Empty(stdins, proofs), c, [])
  {
    var r := RingFor(Empty(stdins, proofs), c);
    assert Unrolled(r) == Layout(|r.slots|, DEFAULT, []);
  }

  lemma {:induction false} RunTracks(stdins: nat, proofs: nat, ops: seq<Op>, c: Class)
    requires stdins >= 1 && proofs >= 1 && GoesWellFor(ops, c) && !c.Unlimited?
    ensures Tracks(RunOps(Empty(stdins, proofs), ops), c, NewSaves(Empty(stdins, proofs), ops, c))
  {
    var s0 := Empty(stdins, proofs);
    if ops == [] {
      EmptyTracks(stdins, proofs, c);
    } else {
      var init, op := ops[..|ops| - 1], ops[|ops| - 1];
      RunTracks(stdins, proofs, init, c);
      RunKeepsTyped(s0, init);
      LastStepTracks(RunOps(s0, init), op, NewSaves(s0, init, c), c);
    }
  }

  /** When writes and deletions of a limited class work, its files are exactly the last newly
      saved ones, as many as its limit allows, whatever fails for the other classes. */
  lemma DiskHoldsExactlyTheLast(stdins: nat, proofs: nat, ops: seq<Op>, c: Class, u: Uri)
    requires stdins >= 1 && proofs >= 1 && GoesWellFor(ops, c) && ClassOf(u) == c && !c.Unlimited?
    ensures var limit := if c.ProofClass? then proofs else stdins;
            u in RunOps(Empty(stdins, proofs), ops).disk
            <==> u in LastOf(limit, NewSaves(Empty(stdins, proofs), ops, c))
  {
    RunTracks(stdins, proofs, ops, c);
    RingSizes(stdins, proofs, ops);
    var s := RunOps(Empty(stdins, proofs), ops);
    assert u in FilesOf(s, c) <==> u in LastOf(|RingFor(s, c).slots|, NewSaves(Empty(stdins, proofs), ops, c));
  }

  lemma LastStepTracks(s: Shelves, op: Op, log: seq<Uri>, c: Class)
    requires !c.Unlimited? && Typed(s) && Tracks(s, c, log)
    requires op.Upload? && ClassOf(op.uri) == c ==> op.weather == Weather(true, Written)
    ensures Tracks(Perform(s, op), c,
                   log + (if op.Upload? && ClassOf(op.uri) == c && op.uri in s.uploads && op.uri !in s.disk
                          then [op.uri] else []))
  {
    assert log + [] == log;
    if op.Create? {
      assert FilesOf(Perform(s, op), c) == FilesOf(s, c);
    } else if ClassOf(op.uri) == c && op.uri in s.uploads && op.uri !in s.disk {
      NewSaveTracks(s, c, log, op.uri, op.bytes);
    } else {
      OtherSaveTracks(s, c, log, op.uri, op.bytes, op.weather);
    }
  }

  // ---------- the store itself ----------

  class Store {
    var uploads: set<Uri>
    const proofSlots: array<Uri>
    var proofCursor: nat
    const stdinSlots: array<Uri>
    var stdinCursor: nat
    var disk: Disk

    ghost predicate Valid()
      reads this
    {
      proofSlots != stdinSlots && proofCursor < proofSlots.Length && stdinCursor < stdinSlots.Length
    }

    ghost function Contents(): (s: Shelves)
      reads this, proofSlots, stdinSlots
      requires Valid()
      ensures WellFormedShelves(s)
    {
      Shelves(uploads, Ring(proofSlots[..], proofCursor), Ring(stdinSlots[..], stdinCursor), disk)
    }

    // Any earlier directory is deleted first.  A limit of zero would panic on the first save.
    constructor (maxStdins: nat, maxProofs: nat)
      requires maxStdins >= 1 && maxProofs >= 1
      ensures Valid() && Contents() == Empty(maxStdins, maxProofs)
    {
      uploads, disk := {}, map[];
      proofSlots := new Uri[maxProofs](_ => DEFAULT);
      stdinSlots := new Uri[maxStdins](_ => DEFAULT);
      proofCursor, stdinCursor := 0, 0;
      new;
      assert proofSlots[..] == seq(maxProofs, _ => DEFAULT);
      assert stdinSlots[..] == seq(maxStdins, _ => DEFAULT);
    }

    // `id` is the UUID drawn for the new artifact.
    method CreateArtifact(kind: ArtifactType, id: Uuid) returns (u: Uri)
      requires Valid()
      modifies this
      ensures Valid() && u == Uri(kind, id) && Contents() == Registered(old(Contents()), u)
    {
      u := Uri(kind, id);
      uploads := uploads + {u};
    }

    method DeleteArtifact(u: Uri, deletes: bool)
      requires Valid()
      modifies this
      ensures Valid() && disk == (if deletes then old(disk) - {u} else old(disk))
      ensures uploads == old(uploads) && proofCursor == old(proofCursor) && stdinCursor == old(stdinCursor)
    {
      if deletes {
        disk := disk - {u};
      }
    }

    method SaveArtifact(u: Uri, bytes: Bytes, w: Weather) returns (res: SaveResult)
      requires Valid()
      modifies this, proofSlots, stdinSlots
      ensures Valid() && (Contents(), res) == Save(old(Contents()), u, bytes, w)
    {
      if u !in uploads {
        return NotRegistered;
      }
      if u in disk {
        return AlreadyThere;
      }
      MakeRoom(u, w.deletes);
      match w.write {
        case Written =>
          disk := disk[u := bytes];
          return Saved;
        case WriteFailed(leftover) =>
          if leftover.Some? {
            disk := disk[u := leftover.value];
          }
          return WriteError;
      }
    }

    method MakeRoom(u: Uri, deletes: bool)
      requires Valid()
      modifies this, proofSlots, stdinSlots
      ensures Valid() && Contents() == Shelved(old(Contents()), u, deletes)
    {
      match u.kind {
        case Proof =>
          var previous := proofSlots[proofCursor];
          if previous != DEFAULT {
            DeleteArtifact(previous, deletes);
          }
          proofSlots[proofCursor] := u;
          proofCursor := (proofCursor + 1) % proofSlots.Length;
        case Stdin | PrivateStdin =>
          var previous := stdinSlots[stdinCursor];
          if previous != DEFAULT {
            DeleteArtifact(previous, deletes);
          }
          stdinSlots[stdinCursor] := u;
          stdinCursor := (stdinCursor + 1) % stdinSlots.Length;
        case _ =>
      }
    }

    // `readable` is whether the file system lets the file be read.
    method GetArtifactBytes(u: Uri, readable: bool) returns (res: ReadResult)
      requires Valid()
      ensures res.Missing? <==> u !in disk
      ensures res.Loaded? ==> u in disk && res.bytes == disk[u]
      ensures res.Unreadable? <==> u in disk && !readable
    {
      if u !in disk {
        return Missing;
      }
      if !readable {
        return Unreadable;
      }
      return Loaded(disk[u]);
    }
  }
}
