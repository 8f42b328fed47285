/** The FIFO behind each event channel (abcipp/mempool_event.go): a slice over a backing array that is appended at the
    back, consumed at the front in place, and compacted when the unused end of the array outweighs what is queued. The
    consumed front of the array is never counted. How much room Go's `append` allocates beyond what it needs is an
    argument. */
module EventQueues {
  import opened MempoolTypes

  /** `eventQueueCompactThreshold`. */
  const COMPACT_THRESHOLD := 64

  /** The zero `AppMempoolEvent`, written over a consumed slot so that it keeps no transaction alive. */
  const NO_EVENT := Event(TxInserted, [])

  class EventQueue {
    var backing: array<Event>
    var lo: nat
    var hi: nat

    ghost predicate Valid()
      reads this, backing
    {
      && lo <= hi <= backing.Length
      && (forall i :: 0 <= i < lo ==> backing[i] == NO_EVENT)
    }

    ghost function Contents(): seq<Event>
      requires Valid()
      reads this, backing
    {
      backing[lo..hi]
    }

    /** `len` and `cap` of the slice. */
    function Len(): int
      reads this
    {
      hi - lo
    }

    function Cap(): int
      reads this
    {
      backing.Length - lo
    }

    constructor ()
      ensures Valid() && fresh(backing) && backing.Length == 0 && Contents() == []
    {
      backing := new Event[0];
      lo, hi := 0, 0;
    }

    /** `append`: in place while the array has room, otherwise into a larger array. */
    method Append(ev: Event, extra: nat)
      requires Valid()
      modifies this, backing
      ensures Valid() && Contents() == old(Contents()) + [ev]
      ensures if old(hi < backing.Length) then backing == old(backing) && lo == old(lo)
              else fresh(backing) && lo == 0 && backing.Length == old(Len()) + 1 + extra
    {
      if hi == backing.Length {
        var n := hi - lo;
        var bigger := new Event[n + 1 + extra](_ => NO_EVENT);
        forall i | 0 <= i < n {
          bigger[i] := backing[lo + i];
        }
        assert bigger[..n] == backing[lo..hi];
        backing, lo, hi := bigger, 0, n;
      }
      backing[hi] := ev;
      hi := hi + 1;
    }

    /** Takes the front event, clears its slot, and compacts. Compaction looks at the slice's own capacity, so it
        happens exactly when the unused end of the array is longer than the queue; the queue uses half of its array
        afterwards if and only if it already would have, or a compaction happens and allocates no more than twice the
        queue. */
    method Pop(extra: nat) returns (ev: Event)
      requires Valid() && Contents() != []
      modifies this, backing
      ensures Valid() && old(Contents()) == [ev] + Contents()
      ensures Len() >= COMPACT_THRESHOLD && extra <= Len() ==> Cap() <= 2 * Len()
      ensures var compacts := Len() >= COMPACT_THRESHOLD && old(backing.Length - hi) > Len();
              && (if compacts then fresh(backing) && lo == 0 && backing.Length == Len() + extra
                  else backing == old(backing) && lo == old(lo) + 1)
              && (backing.Length <= 2 * Len() <==>
                  if compacts then extra <= Len() else old(backing.Length) <= 2 * Len())
    {
      ghost var before := Contents();
      ev := backing[lo];
      backing[lo] := NO_EVENT;
      lo := lo + 1;
      assert Valid() && Contents() == before[1..];
      if Len() >= COMPACT_THRESHOLD && Cap() > 2 * Len() {
        Compact(extra);
      }
    }

    /** Copies the queue to an array of its own. */
    method Compact(extra: nat)
      requires Valid()
      modifies this
      ensures Valid() && Contents() == old(Contents()) && Len() == old(Len())
      ensures fresh(backing) && lo == 0 && backing.Length == Len() + extra
    {
      var n := hi - lo;
      var copy := new Event[n + extra](_ => NO_EVENT);
      forall i | 0 <= i < n {
        copy[i] := backing[lo + i];
      }
      assert copy[..n] == backing[lo..hi];
      backing, lo, hi := copy, 0, n;
    }

    /** Lets go of the backing array of an empty queue. */
    method Release()
      requires Valid() && Contents() == []
      modifies this
      ensures Valid() && fresh(backing) && backing.Length == 0 && Contents() == []
    {
      backing := new Event[0];
      lo, hi := 0, 0;
    }
  }

  /** A full array that is only consumed is never compacted: 256 events are appended, each time doubling an array that
      is full, 192 are taken, and the 64 left, at the threshold, still keep all 256 slots. */
  method ConsumedFrontIsKept(ev: Event) returns (q: EventQueue)
    ensures fresh(q) && fresh(q.backing) && q.Valid()
    ensures q.Len() == COMPACT_THRESHOLD && q.backing.Length == 256 == 4 * q.Len()
  {
    q := new EventQueue();
    q.Append(ev, 0);
    var full: nat := 1;
    while full < 256
      invariant full in {1, 2, 4, 8, 16, 32, 64, 128, 256}
      invariant fresh(q) && fresh(q.backing) && q.Valid() && q.lo == 0 && q.hi == full == q.backing.Length
    {
      q.Append(ev, full - 1);
      for i := full + 1 to 2 * full
        invariant fresh(q) && fresh(q.backing) && q.Valid() && q.lo == 0 && q.hi == i && q.backing.Length == 2 * full
      {
        q.Append(ev, 0);
      }
      full := 2 * full;
    }
    for i := 0 to 192
      invariant fresh(q) && fresh(q.backing) && q.Valid() && q.backing.Length == 256 && q.lo == i && q.hi == 256
    {
      var taken := q.Pop(0);
    }
  }
}
