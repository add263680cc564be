/** A fixed vector overwritten in turn, as both bounded stores use it. */
module Rings {

  datatype Ring<T> = Ring(slots: seq<T>, cursor: nat)

  predicate WellFormed<T>(r: Ring<T>) {
    r.cursor < |r.slots|
  }

  function Push<T>(r: Ring<T>, x: T): (r': Ring<T>)
    requires WellFormed(r)
    ensures WellFormed(r') && |r'.slots| == |r.slots|
  {
    Ring(r.slots[r.cursor := x], (r.cursor + 1) % |r.slots|)
  }

  /** The slots in order of overwriting, next victim first. */
  ghost function Unrolled<T>(r: Ring<T>): (q: seq<T>)
    requires WellFormed(r)
    ensures |q| == |r.slots| && q[0] == r.slots[r.cursor]
  {
    r.slots[r.cursor..] + r.slots[..r.cursor]
  }

  lemma NextCursor(k: nat, n: nat)
    requires k < n
    ensures (k + 1) % n == if k + 1 < n then k + 1 else 0
  {
  }

  lemma PushUnrollsAt<T>(r: Ring<T>, x: T, next: nat)
    requires WellFormed(r) && next == if r.cursor + 1 < |r.slots| then r.cursor + 1 else 0
    ensures Unrolled(Ring(r.slots[r.cursor := x], next)) == Unrolled(r)[1..] + [x]
  {
  }

  /** Pushing drops the oldest slot and appends the new one. */
  lemma PushUnrolls<T>(r: Ring<T>, x: T)
    requires WellFormed(r)
    ensures Unrolled(Push(r, x)) == Unrolled(r)[1..] + [x]
  {
    NextCursor(r.cursor, |r.slots|);
    PushUnrollsAt(r, x, (r.cursor + 1) % |r.slots|);
  }

  // Unused slots first, then the entries, oldest first.
  ghost function Layout<T>(n: nat, blank: T, q: seq<T>): seq<T>
    requires |q| <= n
  {
    seq(n - |q|, _ => blank) + q
  }

  function Bounded<T>(n: nat, q: seq<T>, x: T): seq<T>
    requires n > 0
  {
    (if |q| < n then q else q[|q| - n + 1..]) + [x]
  }

  /** A ring laid out as a bounded queue stays one, with the entry appended to the queue and
      its oldest entry dropped if it was full. */
  lemma PushIsBoundedQueue<T>(r: Ring<T>, blank: T, q: seq<T>, x: T)
    requires WellFormed(r) && |q| <= |r.slots| && Unrolled(r) == Layout(|r.slots|, blank, q)
    ensures |Bounded(|r.slots|, q, x)| <= |r.slots|
    ensures Unrolled(Push(r, x)) == Layout(|r.slots|, blank, Bounded(|r.slots|, q, x))
  {
    PushUnrolls(r, x);
    LayoutPush(|r.slots|, blank, q, x);
  }

  lemma LayoutPush<T>(n: nat, blank: T, q: seq<T>, x: T)
    requires |q| <= n && n > 0
    ensures |Bounded(n, q, x)| <= n
    ensures Layout(n, blank, q)[1..] + [x] == Layout(n, blank, Bounded(n, q, x))
  {
  }

  // The last `n` entries of a log, or all of it.
  function LastOf<T>(n: nat, log: seq<T>): seq<T> {
    if |log| <= n then log else log[|log| - n..]
  }

  lemma LastIsBounded<T>(n: nat, log: seq<T>, x: T)
    requires n > 0
    ensures LastOf(n, log + [x]) == Bounded(n, LastOf(n, log), x)
  {
  }
}
