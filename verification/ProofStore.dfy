/** The contemplant's proof store: a fixed ring of slots overwritten in turn, against a plain
    bounded first-in-first-out list. */
module ProofStore {
  import opened Network
  import opened Rings
  import PS = ProofStatus

  datatype Slot = Slot(id: Id, status: Status)

  // Empty slots carry the all-zero id.
  const BLANK := Slot(0, DefaultStatus)

  // ---------- the ring, as the store operates on it ----------

  /** The first slot with this id, or the number of slots. */
  function Find(slots: seq<Slot>, id: Id): (i: nat)
    ensures i <= |slots|
    ensures i < |slots| ==> slots[i].id == id
    ensures forall j :: 0 <= j < i ==> slots[j].id != id
  {
    if slots == [] then 0
    else if slots[0].id == id then 0
    else
      var i := Find(slots[1..], id);
      assert forall j :: 1 <= j < i + 1 ==> slots[j] == slots[1..][j - 1];
      i + 1
  }

  datatype Command =
    | Progressed(id: Id, update: Progress)
    | Updated(id: Id, execution: int, proof: Option<Bytes>)
    | Inserted(id: Id, status: Status)

  function Read(r: Ring<Slot>, id: Id): Option<Status> {
    var i := Find(r.slots, id);
    if i < |r.slots| then Some(r.slots[i].status) else None
  }

  // What a command does to the status it finds.
  function Amended(st: Status, c: Command): Status {
    match c
    case Progressed(_, update) => ProgressUpdated(st, Some(update))
    case Updated(_, execution, proof) =>
      Status(execution, proof, if proof.Some? then Some(Done) else st.progress)
    case Inserted(_, status) => status
  }

  function Apply(r: Ring<Slot>, c: Command): Ring<Slot>
    requires WellFormed(r)
  {
    var i := Find(r.slots, c.id);
    if i < |r.slots| then r.(slots := r.slots[i := Slot(c.id, Amended(r.slots[i].status, c))])
    else if c.Inserted? then
      Push(r, Slot(c.id, c.status))
    else r
  }

  // ---------- the reference: a bounded queue of entries, oldest first ----------

  function Has(q: seq<Slot>, id: Id): bool {
    Find(q, id) < |q|
  }

  function ReadQueue(q: seq<Slot>, id: Id): Option<Status> {
    if Has(q, id) then Some(q[Find(q, id)].status) else None
  }

  // Whether the command pushes a new entry.
  predicate Admits(q: seq<Slot>, c: Command) {
    c.Inserted? && !Has(q, c.id)
  }

  function ApplyQueue(capacity: nat, q: seq<Slot>, c: Command): seq<Slot>
    requires capacity > 0
  {
    if Has(q, c.id) then
      var i := Find(q, c.id);
      q[i := Slot(c.id, Amended(q[i].status, c))]
    else if c.Inserted? then
      Bounded(capacity, q, Slot(c.id, c.status))
    else q
  }

  ghost predicate Distinct(q: seq<Slot>) {
    forall i, j :: 0 <= i < j < |q| ==> q[i].id != q[j].id
  }

  // ---------- the refinement ----------

  /** The ring holds exactly the queue, behind the slots not used yet. */
  ghost predicate Represents(r: Ring<Slot>, q: seq<Slot>) {
    && WellFormed(r) && |q| <= |r.slots| && Distinct(q)
    && (forall i :: 0 <= i < |q| ==> q[i].id != 0)
    && Unrolled(r) == Layout(|r.slots|, BLANK, q)
  }

  // Where slot `i` stands in the unrolled ring.
  function Place(r: Ring<Slot>, i: nat): nat
    requires WellFormed(r) && i < |r.slots|
  {
    if i >= r.cursor then i - r.cursor else i + |r.slots| - r.cursor
  }

  lemma PlaceIsRight(r: Ring<Slot>, i: nat)
    requires WellFormed(r) && i < |r.slots|
    ensures Place(r, i) < |r.slots| && Unrolled(r)[Place(r, i)] == r.slots[i]
  {
  }

  lemma PlaceUpdates(r: Ring<Slot>, i: nat, x: Slot)
    requires WellFormed(r) && i < |r.slots|
    ensures Unrolled(r.(slots := r.slots[i := x])) == Unrolled(r)[Place(r, i) := x]
  {
  }

  // A used slot stands in the queue.
  lemma SlotInQueue(r: Ring<Slot>, q: seq<Slot>, i: nat)
    requires Represents(r, q) && i < |r.slots| && r.slots[i].id != 0
    ensures |r.slots| - |q| <= Place(r, i) < |r.slots| && q[Place(r, i) - (|r.slots| - |q|)] == r.slots[i]
  {
    PlaceIsRight(r, i);
    assert Layout(|r.slots|, BLANK, q)[Place(r, i)] == r.slots[i];
  }

  // An entry of the queue stands in a slot.
  lemma EntryInSlot(r: Ring<Slot>, q: seq<Slot>, j: nat) returns (k: nat)
    requires Represents(r, q) && j < |q|
    ensures k < |r.slots| && r.slots[k] == q[j]
  {
    var at := |r.slots| - |q| + j;
    assert Unrolled(r)[at] == q[j];
    k := if at < |r.slots| - r.cursor then at + r.cursor else at + r.cursor - |r.slots|;
  }

  /** A non-zero id is found in the ring exactly when it is in the queue, in matching places. */
  lemma FindMatches(r: Ring<Slot>, q: seq<Slot>, id: Id)
    requires Represents(r, q) && id != 0
    ensures Find(r.slots, id) < |r.slots| <==> Has(q, id)
    ensures Has(q, id) ==> Place(r, Find(r.slots, id)) == |r.slots| - |q| + Find(q, id)
  {
    if Has(q, id) {
      var k := EntryInSlot(r, q, Find(q, id));
    }
    var i := Find(r.slots, id);
    if i < |r.slots| {
      SlotInQueue(r, q, i);
      FindUnique(q, Place(r, i) - (|r.slots| - |q|));
    }
  }

  lemma AmendRefines(r: Ring<Slot>, q: seq<Slot>, c: Command)
    requires Represents(r, q) && c.id != 0 && Has(q, c.id)
    ensures Represents(Apply(r, c), ApplyQueue(|r.slots|, q, c))
  {
    FindMatches(r, q, c.id);
    var i, j, blanks := Find(r.slots, c.id), Find(q, c.id), |r.slots| - |q|;
    var x := Slot(c.id, Amended(r.slots[i].status, c));
    PlaceIsRight(r, i);
    PlaceUpdates(r, i, x);
    assert r.slots[i] == q[j];
    assert Layout(|r.slots|, BLANK, q)[blanks + j := x] == Layout(|r.slots|, BLANK, q[j := x]);
  }

  lemma PushRefines(r: Ring<Slot>, q: seq<Slot>, x: Slot)
    requires Represents(r, q) && x.id != 0 && !Has(q, x.id)
    ensures Represents(Push(r, x), Bounded(|r.slots|, q, x))
  {
    PushIsBoundedQueue(r, BLANK, q, x);
    assert forall j :: 0 <= j < |q| ==> q[j].id != x.id;
  }

  /** Every command keeps ring and queue in step. */
  lemma ApplyRefines(r: Ring<Slot>, q: seq<Slot>, c: Command)
    requires Represents(r, q) && c.id != 0
    ensures Represents(Apply(r, c), ApplyQueue(|r.slots|, q, c))
  {
    FindMatches(r, q, c.id);
    if Has(q, c.id) {
      AmendRefines(r, q, c);
    } else if c.Inserted? {
      PushRefines(r, q, Slot(c.id, c.status));
    }
  }

  lemma ReadRefines(r: Ring<Slot>, q: seq<Slot>, id: Id)
    requires Represents(r, q) && id != 0
    ensures Read(r, id) == ReadQueue(q, id)
  {
    FindMatches(r, q, id);
    if Has(q, id) {
      PlaceIsRight(r, Find(r.slots, id));
    }
  }

  function Fresh(capacity: nat): Ring<Slot> {
    Ring(seq(capacity, _ => BLANK), 0)
  }

  function RunRing(r: Ring<Slot>, cs: seq<Command>): Ring<Slot>
    requires WellFormed(r)
    ensures WellFormed(RunRing(r, cs)) && |RunRing(r, cs).slots| == |r.slots|
  {
    if cs == [] then r else Apply(RunRing(r, cs[..|cs| - 1]), cs[|cs| - 1])
  }

  function RunQueue(capacity: nat, q: seq<Slot>, cs: seq<Command>): seq<Slot>
    requires capacity > 0
  {
    if cs == [] then q else ApplyQueue(capacity, RunQueue(capacity, q, cs[..|cs| - 1]), cs[|cs| - 1])
  }

  ghost predicate NonZeroIds(cs: seq<Command>) {
    forall i :: 0 <= i < |cs| ==> cs[i].id != 0
  }

  /** The ring refines the bounded queue: after any commands with non-zero ids, every read of
      a non-zero id gives what the queue gives. */
  lemma {:induction false} StoreRefinesQueue(capacity: nat, cs: seq<Command>, id: Id)
    requires capacity > 0 && id != 0
    requires NonZeroIds(cs)
    ensures Represents(RunRing(Fresh(capacity), cs), RunQueue(capacity, [], cs))
    ensures Read(RunRing(Fresh(capacity), cs), id) == ReadQueue(RunQueue(capacity, [], cs), id)
  {
    if cs == [] {
      assert Unrolled(Fresh(capacity)) == Layout(capacity, BLANK, []);
    } else {
      StoreRefinesQueue(capacity, cs[..|cs| - 1], id);
      ApplyRefines(RunRing(Fresh(capacity), cs[..|cs| - 1]), RunQueue(capacity, [], cs[..|cs| - 1]), cs[|cs| - 1]);
    }
    ReadRefines(RunRing(Fresh(capacity), cs), RunQueue(capacity, [], cs), id);
  }

  // ---------- how long an entry stays ----------

  ghost function Evictions(capacity: nat, q: seq<Slot>, cs: seq<Command>): nat
    requires capacity > 0
  {
    if cs == [] then 0
    else
      var q' := RunQueue(capacity, q, cs[..|cs| - 1]);
      Evictions(capacity, q, cs[..|cs| - 1])
      + (if Admits(q', cs[|cs| - 1]) && |q'| >= capacity then 1 else 0)
  }

  lemma FindUnique(q: seq<Slot>, i: nat)
    requires Distinct(q) && i < |q|
    ensures Find(q, q[i].id) == i
  {
  }

  lemma FindAbsent(q: seq<Slot>, id: Id)
    requires forall i :: 0 <= i < |q| ==> q[i].id != id
    ensures !Has(q, id)
  {
  }

  lemma ApplyQueueDistinct(capacity: nat, q: seq<Slot>, c: Command)
    requires Distinct(q) && |q| <= capacity && capacity > 0
    ensures Distinct(ApplyQueue(capacity, q, c)) && |ApplyQueue(capacity, q, c)| <= capacity
  {
  }

  /** Some command inserted `id` when it was not in the queue. */
  ghost predicate Readmitted(capacity: nat, q: seq<Slot>, cs: seq<Command>, id: Id)
    requires capacity > 0
  {
    exists i :: 0 <= i < |cs| && cs[i].id == id && Admits(RunQueue(capacity, q, cs[..i]), cs[i])
  }

  /** Eviction is strictly first in, first out: after any commands, an entry that had `p` older
      ones ahead of it has been there all along if and only if at most `p` entries were evicted,
      and then it has moved up by as many places.  Overwriting entries in place, this one
      included, changes nothing about that. */
  lemma {:induction false} ResidentIff(capacity: nat, q: seq<Slot>, cs: seq<Command>, id: Id)
    requires capacity > 0 && Distinct(q) && |q| <= capacity && Has(q, id)
    ensures var q', e := RunQueue(capacity, q, cs), Evictions(capacity, q, cs);
            && Distinct(q') && |q'| <= capacity
            && (e <= Find(q, id) <==> Has(q', id) && !Readmitted(capacity, q, cs, id))
            && (e <= Find(q, id) ==> Find(q', id) == Find(q, id) - e)
  {
    if cs != [] {
      var init, c := cs[..|cs| - 1], cs[|cs| - 1];
      ResidentIff(capacity, q, init, id);
      var q1 := RunQueue(capacity, q, init);
      ApplyQueueDistinct(capacity, q1, c);
      EntryMoves(capacity, q1, c, id);
      ReadmittedLast(capacity, q, cs, id);
    }
  }

  lemma ReadmittedLast(capacity: nat, q: seq<Slot>, cs: seq<Command>, id: Id)
    requires capacity > 0 && cs != []
    ensures var init, c := cs[..|cs| - 1], cs[|cs| - 1];
            Readmitted(capacity, q, cs, id)
            <==> Readmitted(capacity, q, init, id) || (c.id == id && Admits(RunQueue(capacity, q, init), c))
  {
    var init, c := cs[..|cs| - 1], cs[|cs| - 1];
    assert forall i :: 0 <= i < |init| ==> init[..i] == cs[..i] && init[i] == cs[i];
    if i :| 0 <= i < |init| && init[i].id == id && Admits(RunQueue(capacity, q, init[..i]), init[i]) {
      assert Admits(RunQueue(capacity, q, cs[..i]), cs[i]);
    }
  }

  lemma EntryMoves(capacity: nat, q: seq<Slot>, c: Command, id: Id)
    requires capacity > 0 && Distinct(q) && |q| <= capacity
    ensures var q', e := ApplyQueue(capacity, q, c), if Admits(q, c) && |q| >= capacity then 1 else 0;
            && (!Has(q, id) ==> (Has(q', id) <==> c.id == id && Admits(q, c)))
            && (Has(q, id) ==> (Has(q', id) <==> e <= Find(q, id)))
            && (Has(q, id) && Has(q', id) ==> Find(q', id) == Find(q, id) - e)
  {
    var q' := ApplyQueue(capacity, q, c);
    ApplyQueueDistinct(capacity, q, c);
    var e := if Admits(q, c) && |q| >= capacity then 1 else 0;
    if Has(q, id) {
      var p := Find(q, id);
      if e <= p {
        assert q'[p - e].id == id;
        FindUnique(q', p - e);
      } else {
        assert forall i :: 0 <= i < |q'| ==> q'[i].id != id;
        FindAbsent(q', id);
      }
    } else if c.id == id && Admits(q, c) {
      assert q'[|q'| - 1].id == id;
      FindUnique(q', |q'| - 1);
    } else {
      assert forall i :: 0 <= i < |q'| ==> q'[i].id != id;
      FindAbsent(q', id);
    }
  }

  // ---------- exactly the last insertions ----------

  /** The insertions that were new: of an id that is not among the last `capacity` new ones. */
  ghost function Admissions(capacity: nat, cs: seq<Command>): seq<Id> {
    if cs == [] then []
    else
      var log, c := Admissions(capacity, cs[..|cs| - 1]), cs[|cs| - 1];
      log + (if c.Inserted? && c.id !in LastOf(capacity, log) then [c.id] else [])
  }

  /** What all commands for `id` amount to, without any eviction. */
  ghost function Latest(cs: seq<Command>, id: Id): Option<Status> {
    if cs == [] then None
    else
      var st, c := Latest(cs[..|cs| - 1], id), cs[|cs| - 1];
      if c.id != id then st
      else if st.Some? then Some(Amended(st.value, c))
      else if c.Inserted? then Some(c.status)
      else None
  }

  function Ids(q: seq<Slot>): seq<Id> {
    seq(|q|, i requires 0 <= i < |q| => q[i].id)
  }

  lemma HasIff(q: seq<Slot>, id: Id)
    ensures Has(q, id) <==> id in Ids(q)
  {
    if Has(q, id) {
      assert Ids(q)[Find(q, id)] == id;
    } else {
      assert forall i :: 0 <= i < |q| ==> q[i].id != id;
    }
  }

  /** The queue holds the ids of the last new insertions, in their order. */
  lemma {:induction false} QueueIsLast(capacity: nat, cs: seq<Command>)
    requires capacity > 0
    ensures Ids(RunQueue(capacity, [], cs)) == LastOf(capacity, Admissions(capacity, cs))
  {
    if cs != [] {
      var init, c := cs[..|cs| - 1], cs[|cs| - 1];
      var q, log := RunQueue(capacity, [], init), Admissions(capacity, init);
      QueueIsLast(capacity, init);
      HasIff(q, c.id);
      assert log + [] == log;
      LastIsBounded(capacity, log, c.id);
      if Admits(q, c) {
        BoundedIds(capacity, q, Slot(c.id, c.status));
      }
    }
  }

  lemma BoundedIds(n: nat, q: seq<Slot>, x: Slot)
    requires n > 0
    ensures Ids(Bounded(n, q, x)) == Bounded(n, Ids(q), x.id)
  {
  }

  /** And for each of them the latest status. */
  lemma {:induction false} QueueHasLatest(capacity: nat, cs: seq<Command>, id: Id)
    requires capacity > 0 && Has(RunQueue(capacity, [], cs), id)
    ensures Distinct(RunQueue(capacity, [], cs)) && |RunQueue(capacity, [], cs)| <= capacity
    ensures ReadQueue(RunQueue(capacity, [], cs), id) == Latest(cs, id)
  {
    var init, c := cs[..|cs| - 1], cs[|cs| - 1];
    var q := RunQueue(capacity, [], init);
    RunDistinct(capacity, init);
    ApplyQueueDistinct(capacity, q, c);
    EntryMoves(capacity, q, c, id);
    if Has(q, id) {
      QueueHasLatest(capacity, init, id);
    } else {
      FindUnique(RunQueue(capacity, [], cs), |RunQueue(capacity, [], cs)| - 1);
    }
  }

  lemma {:induction false} RunDistinct(capacity: nat, cs: seq<Command>)
    requires capacity > 0
    ensures Distinct(RunQueue(capacity, [], cs)) && |RunQueue(capacity, [], cs)| <= capacity
  {
    if cs != [] {
      RunDistinct(capacity, cs[..|cs| - 1]);
      ApplyQueueDistinct(capacity, RunQueue(capacity, [], cs[..|cs| - 1]), cs[|cs| - 1]);
    }
  }

  /** A read returns the latest status of exactly the last `capacity` new insertions. */
  lemma ReadsExactlyTheLast(capacity: nat, cs: seq<Command>, id: Id)
    requires capacity > 0 && id != 0 && NonZeroIds(cs)
    ensures Read(RunRing(Fresh(capacity), cs), id)
         == if id in LastOf(capacity, Admissions(capacity, cs)) then Latest(cs, id) else None
  {
    StoreRefinesQueue(capacity, cs, id);
    QueueIsLast(capacity, cs);
    HasIff(RunQueue(capacity, [], cs), id);
    if Has(RunQueue(capacity, [], cs), id) {
      QueueHasLatest(capacity, cs, id);
    }
  }

  /** For the zero id the ring and the queue agree exactly when the ring is full: until then a
      slot not used yet claims to know it, as failed. */
  lemma ZeroIdReadsBlankIff(capacity: nat, cs: seq<Command>)
    requires capacity > 0 && NonZeroIds(cs)
    ensures ReadQueue(RunQueue(capacity, [], cs), 0) == None
    ensures Read(RunRing(Fresh(capacity), cs), 0)
         == if |Admissions(capacity, cs)| < capacity then Some(DefaultStatus) else None
  {
    var r, q := RunRing(Fresh(capacity), cs), RunQueue(capacity, [], cs);
    StoreRefinesQueue(capacity, cs, 1);
    QueueIsLast(capacity, cs);
    assert |q| == |Ids(q)|;
    var i := Find(r.slots, 0);
    if i < |r.slots| {
      PlaceIsRight(r, i);
      assert Place(r, i) < |r.slots| - |q|;
      assert r.slots[i] == BLANK;
    }
    if |q| < capacity {
      assert Unrolled(r)[0] == BLANK;
    }
  }

  // ---------- what the executors store ----------

  /** Executed means proof, and proof means done. */
  predicate StatusOk(st: Status) {
    && (st.execution == EXECUTED <==> st.proof.Some?)
    && (st.proof.Some? ==> st.progress == Some(Done))
  }

  /** The commands the three executors issue. */
  predicate FromExecutor(c: Command) {
    match c
    case Progressed(_, _) => true
    case Updated(_, execution, proof) => if proof.Some? then execution == EXECUTED else execution == UNEXECUTABLE
    case Inserted(_, status) => status == Unexecuted
  }

  ghost predicate FromExecutors(cs: seq<Command>) {
    forall i :: 0 <= i < |cs| ==> FromExecutor(cs[i])
  }

  lemma AmendedOk(st: Status, c: Command)
    requires StatusOk(st) && FromExecutor(c)
    ensures StatusOk(Amended(st, c))
    ensures !c.Inserted? ==> OptionRank(Amended(st, c).progress) >= OptionRank(st.progress)
  {
  }

  ghost predicate AllOk(r: Ring<Slot>) {
    forall i :: 0 <= i < |r.slots| ==> StatusOk(r.slots[i].status)
  }

  lemma {:induction false} StoredStatusesOk(capacity: nat, cs: seq<Command>)
    requires capacity > 0 && FromExecutors(cs)
    ensures AllOk(RunRing(Fresh(capacity), cs))
  {
    if cs != [] {
      StoredStatusesOk(capacity, cs[..|cs| - 1]);
      var r, c := RunRing(Fresh(capacity), cs[..|cs| - 1]), cs[|cs| - 1];
      var i := Find(r.slots, c.id);
      if i < |r.slots| {
        AmendedOk(r.slots[i].status, c);
      }
    }
  }

  /** Whatever is read from the store, for any id, converts without a panic: the client is told
      "fulfilled" (3) with the stored bytes exactly when there are any, "unfulfillable" (4) for a
      failure and "assigned" (2) for a proof under way. */
  lemma RelayedStatusNeverPanics(capacity: nat, cs: seq<Command>, id: Id)
    requires capacity > 0 && FromExecutors(cs)
    ensures var st := Read(RunRing(Fresh(capacity), cs), id);
            st.Some? ==>
              && PS.Convert(st.value).Converted?
              && var view := PS.Convert(st.value).status;
                 && (view.fulfillment == 3 <==> st.value.proof.Some?)
                 && (st.value.proof.Some? ==> view == PS.ClientStatus(3, 2, st.value.proof.value))
                 && (st.value.execution == 3 ==> view == PS.ClientStatus(4, 3, []))
                 && (st.value.execution == 1 ==> view == PS.ClientStatus(2, 1, []))
  {
    StoredStatusesOk(capacity, cs);
  }

  predicate LeavesOut(c: Command, id: Id) {
    c.Inserted? ==> c.id != id
  }

  /** Between inserts of an id the rank of its reported progress never falls: whatever the
      executors do from position `k` on, other than inserting it again, an id that is readable in
      the end was readable then, and its rank has not fallen since. */
  lemma {:induction false} ProgressNeverFalls(capacity: nat, cs: seq<Command>, k: nat, id: Id)
    requires capacity > 0 && id != 0 && k <= |cs|
    requires FromExecutors(cs) && NonZeroIds(cs)
    requires forall i :: k <= i < |cs| ==> LeavesOut(cs[i], id)
    requires Read(RunRing(Fresh(capacity), cs), id).Some?
    ensures var now, before := Read(RunRing(Fresh(capacity), cs), id), Read(RunRing(Fresh(capacity), cs[..k]), id);
            before.Some? && OptionRank(now.value.progress) >= OptionRank(before.value.progress)
    decreases |cs|
  {
    if k == |cs| {
      assert cs[..k] == cs;
    } else {
      var init := cs[..|cs| - 1];
      LastCommandKeepsRank(capacity, cs, id);
      ProgressNeverFalls(capacity, init, k, id);
      assert init[..k] == cs[..k];
    }
  }

  lemma {:induction false} LastCommandKeepsRank(capacity: nat, cs: seq<Command>, id: Id)
    requires capacity > 0 && id != 0 && cs != []
    requires FromExecutors(cs) && NonZeroIds(cs)
    requires LeavesOut(cs[|cs| - 1], id)
    requires Read(RunRing(Fresh(capacity), cs), id).Some?
    ensures var now, before := Read(RunRing(Fresh(capacity), cs), id), Read(RunRing(Fresh(capacity), cs[..|cs| - 1]), id);
            before.Some? && OptionRank(now.value.progress) >= OptionRank(before.value.progress)
  {
    var init := cs[..|cs| - 1];
    WasReadable(capacity, init, cs[|cs| - 1], id);
    ReadsExactlyTheLast(capacity, cs, id);
    ReadsExactlyTheLast(capacity, init, id);
    ReadIsOk(capacity, init, id);
    LatestKeepsRank(cs, id);
  }

  // A command that does not insert an id does not make it readable.
  lemma {:induction false} WasReadable(capacity: nat, cs: seq<Command>, c: Command, id: Id)
    requires capacity > 0 && id != 0 && NonZeroIds(cs) && c.id != 0 && LeavesOut(c, id)
    requires Read(Apply(RunRing(Fresh(capacity), cs), c), id).Some?
    ensures Read(RunRing(Fresh(capacity), cs), id).Some?
  {
    var r, q := RunRing(Fresh(capacity), cs), RunQueue(capacity, [], cs);
    StoreRefinesQueue(capacity, cs, id);
    ApplyRefines(r, q, c);
    ReadRefines(Apply(r, c), ApplyQueue(capacity, q, c), id);
    RunDistinct(capacity, cs);
    EntryMoves(capacity, q, c, id);
  }

  lemma ReadIsOk(capacity: nat, cs: seq<Command>, id: Id)
    requires capacity > 0 && FromExecutors(cs)
    ensures var st := Read(RunRing(Fresh(capacity), cs), id); st.Some? ==> StatusOk(st.value)
  {
    StoredStatusesOk(capacity, cs);
  }

  lemma {:induction false} LatestKeepsRank(cs: seq<Command>, id: Id)
    requires cs != [] && FromExecutor(cs[|cs| - 1]) && LeavesOut(cs[|cs| - 1], id)
    requires Latest(cs[..|cs| - 1], id).Some? && StatusOk(Latest(cs[..|cs| - 1], id).value)
    ensures Latest(cs, id).Some?
    ensures OptionRank(Latest(cs, id).value.progress) >= OptionRank(Latest(cs[..|cs| - 1], id).value.progress)
  {
    AmendedOk(Latest(cs[..|cs| - 1], id).value, cs[|cs| - 1]);
  }

  // ---------- what was stored is what is read ----------

  predicate Concerns(c: Command, id: Id) {
    c.id == id
  }

  // The command sets execution status and proof of `id`.
  predicate Rewrites(c: Command, id: Id) {
    !c.Progressed? && c.id == id
  }

  predicate Reports(c: Command, id: Id) {
    c.Progressed? && c.id == id
  }

  lemma {:induction false} LatestUpdate(cs: seq<Command>, k: nat, id: Id, execution: int, proof: Option<Bytes>)
    requires k < |cs| && cs[k] == Updated(id, execution, proof) && Latest(cs, id).Some?
    requires forall j :: k < j < |cs| ==> !Rewrites(cs[j], id)
    ensures Latest(cs, id).value.execution == execution && Latest(cs, id).value.proof == proof
    decreases |cs|
  {
    if k < |cs| - 1 {
      LatestUpdate(cs[..|cs| - 1], k, id, execution, proof);
    }
  }

  /** A result stored for an id is what a reader gets, code and bytes, until it is updated or
      inserted again, for as long as the id can be read at all. */
  lemma {:induction false} UpdateReadsBack(capacity: nat, cs: seq<Command>, k: nat, id: Id, execution: int, proof: Option<Bytes>)
    requires capacity > 0 && id != 0 && NonZeroIds(cs) && k < |cs| && cs[k] == Updated(id, execution, proof)
    requires forall j :: k < j < |cs| ==> !Rewrites(cs[j], id)
    ensures var st := Read(RunRing(Fresh(capacity), cs), id);
            st.Some? ==> st.value.execution == execution && st.value.proof == proof
  {
    ReadsExactlyTheLast(capacity, cs, id);
    if Read(RunRing(Fresh(capacity), cs), id).Some? {
      LatestUpdate(cs, k, id, execution, proof);
    }
  }

  lemma {:induction false} LatestInsert(cs: seq<Command>, k: nat, id: Id, st: Status)
    requires k < |cs| && cs[k] == Inserted(id, st) && forall j :: k < j < |cs| ==> !Concerns(cs[j], id)
    ensures Latest(cs, id) == Some(st)
    decreases |cs|
  {
    if k < |cs| - 1 {
      LatestInsert(cs[..|cs| - 1], k, id, st);
    }
  }

  /** An inserted status can be read at once, and until another command concerns that id it is
      what a reader gets, if anything. */
  lemma {:induction false} InsertReadsBack(capacity: nat, cs: seq<Command>, k: nat, id: Id, st: Status)
    requires capacity > 0 && id != 0 && NonZeroIds(cs) && k < |cs| && cs[k] == Inserted(id, st)
    requires forall j :: k < j < |cs| ==> !Concerns(cs[j], id)
    ensures Read(RunRing(Fresh(capacity), cs[..k + 1]), id) == Some(st)
    ensures Read(RunRing(Fresh(capacity), cs), id) in {None, Some(st)}
  {
    ReadsExactlyTheLast(capacity, cs, id);
    LatestInsert(cs, k, id, st);
    var upto := cs[..k + 1];
    assert NonZeroIds(upto) && upto[k] == cs[k] && upto[..k] == cs[..k];
    ReadsExactlyTheLast(capacity, upto, id);
    LatestInsert(upto, k, id, st);
    AdmittedIsAmongLast(capacity, upto);
  }

  // What has just been inserted is among the last new insertions.
  lemma {:induction false} AdmittedIsAmongLast(capacity: nat, cs: seq<Command>)
    requires capacity > 0 && cs != [] && cs[|cs| - 1].Inserted?
    ensures cs[|cs| - 1].id in LastOf(capacity, Admissions(capacity, cs))
  {
    var log, id := Admissions(capacity, cs[..|cs| - 1]), cs[|cs| - 1].id;
    if id !in LastOf(capacity, log) {
      LastIsBounded(capacity, log, id);
      var q := Bounded(capacity, LastOf(capacity, log), id);
      assert q[|q| - 1] == id;
    } else {
      assert log + [] == log;
    }
  }

  /** The progress `shown` is the initial one or was reported by command `j`; every later report
      ranks lower, and no earlier one higher. */
  ghost predicate ShownSince(cs: seq<Command>, k: nat, j: nat, id: Id, initial: Option<Progress>, shown: Option<Progress>)
    requires k <= j < |cs|
  {
    && (if j == k then shown == initial else Reports(cs[j], id) && shown == Some(cs[j].update))
    && (forall m :: k < m < |cs| && Reports(cs[m], id) ==> OptionRank(shown) >= OptionRank(Some(cs[m].update)))
    && (forall m :: j < m < |cs| && Reports(cs[m], id) ==> OptionRank(shown) > OptionRank(Some(cs[m].update)))
    && OptionRank(shown) >= OptionRank(initial)
  }

  lemma {:induction false} LatestProgress(cs: seq<Command>, k: nat, id: Id, st: Status) returns (j: nat)
    requires k < |cs| && cs[k] == Inserted(id, st) && forall m :: k < m < |cs| ==> !Rewrites(cs[m], id)
    ensures Latest(cs, id).Some? && k <= j < |cs| && ShownSince(cs, k, j, id, st.progress, Latest(cs, id).value.progress)
    decreases |cs|
  {
    var last := |cs| - 1;
    if k == last {
      j := k;
    } else {
      var init := cs[..last];
      j := LatestProgress(init, k, id, st);
      var before := Latest(init, id).value.progress;
      assert forall m :: 0 <= m < last ==> init[m] == cs[m];
      if Reports(cs[last], id) && OptionRank(Some(cs[last].update)) >= OptionRank(before) {
        j := last;
      }
    }
  }

  /** Between an insert and the result, a reader sees the highest progress reported, and among
      several of the same rank the newest; so nothing once proving reads as estimating. */
  lemma {:induction false} HighestProgressIsShown(capacity: nat, cs: seq<Command>, k: nat, id: Id, st: Status) returns (j: nat)
    requires capacity > 0 && id != 0 && NonZeroIds(cs) && k < |cs| && cs[k] == Inserted(id, st)
    requires forall m :: k < m < |cs| ==> !Rewrites(cs[m], id)
    requires Read(RunRing(Fresh(capacity), cs), id).Some?
    ensures k <= j < |cs| && ShownSince(cs, k, j, id, st.progress, Read(RunRing(Fresh(capacity), cs), id).value.progress)
  {
    ReadsExactlyTheLast(capacity, cs, id);
    j := LatestProgress(cs, k, id, st);
  }

  lemma {:induction false} LatestIsDone(cs: seq<Command>, k: nat, id: Id)
    requires k < |cs| && cs[k].Updated? && cs[k].id == id && cs[k].proof.Some? && Latest(cs, id).Some?
    requires forall m :: k < m < |cs| ==> !Rewrites(cs[m], id)
    ensures Latest(cs, id).value.progress == Some(Done)
    decreases |cs|
  {
    if k < |cs| - 1 {
      LatestIsDone(cs[..|cs| - 1], k, id);
    }
  }

  /** With a proof the progress reads done, whatever is reported afterwards. */
  lemma {:induction false} ProofReadsDone(capacity: nat, cs: seq<Command>, k: nat, id: Id)
    requires capacity > 0 && id != 0 && NonZeroIds(cs) && k < |cs| && cs[k].Updated? && cs[k].id == id && cs[k].proof.Some?
    requires forall m :: k < m < |cs| ==> !Rewrites(cs[m], id)
    ensures var st := Read(RunRing(Fresh(capacity), cs), id); st.Some? ==> st.value.progress == Some(Done)
  {
    ReadsExactlyTheLast(capacity, cs, id);
    if Read(RunRing(Fresh(capacity), cs), id).Some? {
      LatestIsDone(cs, k, id);
    }
  }

  // ---------- the store itself ----------

  class Store {
    const slots: array<Slot>
    var cursor: nat

    ghost predicate Valid()
      reads this
    {
      cursor < slots.Length
    }

    ghost function Contents(): (r: Ring<Slot>)
      reads this, slots
      requires Valid()
      ensures WellFormed(r) && |r.slots| == slots.Length
    {
      Ring(slots[..], cursor)
    }

    // The client refuses to start a store without room for one proof.
    constructor (capacity: nat)
      requires capacity >= 1
      ensures Valid() && Contents() == Fresh(capacity)
    {
      slots := new Slot[capacity](_ => BLANK);
      cursor := 0;
      new;
      assert slots[..] == seq(capacity, _ => BLANK);
    }

    method IndexOf(id: Id) returns (i: nat)
      requires Valid()
      ensures i == Find(slots[..], id)
    {
      i := 0;
      while i < slots.Length && slots[i].id != id
        invariant i <= slots.Length
        invariant forall j :: 0 <= j < i ==> slots[j].id != id
      {
        i := i + 1;
      }
    }

    method Get(id: Id) returns (st: Option<Status>)
      requires Valid()
      ensures st == Read(Contents(), id)
    {
      var i := IndexOf(id);
      return if i < slots.Length then Some(slots[i].status) else None;
    }

    method ProgressUpdate(id: Id, update: Progress)
      requires Valid()
      modifies this, slots
      ensures Valid() && Contents() == Apply(old(Contents()), Progressed(id, update))
    {
      var i := IndexOf(id);
      if i < slots.Length {
        slots[i] := Slot(slots[i].id, ProgressUpdated(slots[i].status, Some(update)));
      }
    }

    method StatusUpdate(id: Id, execution: int, proof: Option<Bytes>)
      requires Valid()
      modifies this, slots
      ensures Valid() && Contents() == Apply(old(Contents()), Updated(id, execution, proof))
    {
      var i := IndexOf(id);
      if i < slots.Length {
        var st := slots[i].status;
        if proof.Some? {
          st := st.(progress := Some(Done));
        }
        st := st.(execution := execution);
        st := st.(proof := proof);
        slots[i] := Slot(slots[i].id, st);
      }
    }

    method Insert(id: Id, status: Status)
      requires Valid()
      modifies this, slots
      ensures Valid() && Contents() == Apply(old(Contents()), Inserted(id, status))
    {
      var i := IndexOf(id);
      if i < slots.Length {
        slots[i] := Slot(id, status);
      } else {
        slots[cursor] := Slot(id, status);
        cursor := (cursor + 1) % slots.Length;
      }
    }
  }
}
