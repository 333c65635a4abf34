/** The device ring queue: a bounded first-in first-out queue over a circular buffer. */
module RingQueue {

  /** The number of entries from `h` up to `t`, going round. */
  function RingDepth(h: int, t: int, capacity: int): int { if t >= h then t - h else t - h + capacity }

  function Wrap(i: int, capacity: int): int { if i >= capacity then i - capacity else i }

  function RingContents(entries: seq<int>, h: int, t: int): (q: seq<int>)
    requires 0 <= h < |entries| && 0 <= t < |entries|
    ensures |q| == RingDepth(h, t, |entries|)
    ensures forall i :: 0 <= i < |q| ==> q[i] == entries[Wrap(h + i, |entries|)]
  {
    seq(RingDepth(h, t, |entries|), i requires 0 <= i < RingDepth(h, t, |entries|) => entries[Wrap(h + i, |entries|)])
  }

  lemma ModIsWrap(i: int, capacity: int)
    requires 0 <= i < 2 * capacity
    ensures i % capacity == Wrap(i, capacity)
  {}

  /** The depth formula of the replay kernel is the abstract length. */
  lemma DepthFormula(entries: seq<int>, h: int, t: int)
    requires 0 <= h < |entries| && 0 <= t < |entries|
    ensures (t - h + |entries|) % |entries| == |RingContents(entries, h, t)|
  {
    ModIsWrap(t - h + |entries|, |entries|);
  }

  lemma PopContents(entries: seq<int>, h: int, t: int)
    requires 0 <= h < |entries| && 0 <= t < |entries| && h != t
    ensures var q, g := RingContents(entries, h, t), Wrap(h + 1, |entries|);
      |q| > 0 && q[0] == entries[h] && RingContents(entries, g, t) == q[1..]
  {
    var q, rest := RingContents(entries, h, t), RingContents(entries, Wrap(h + 1, |entries|), t);
    assert |rest| == |q| - 1;
    forall i | 0 <= i < |rest| ensures rest[i] == q[i + 1] {
      assert q[i + 1] == entries[Wrap(h + (i + 1), |entries|)];
    }
  }

  lemma PushContents(entries: seq<int>, h: int, t: int, value: int)
    requires 0 <= h < |entries| && 0 <= t < |entries|
    ensures var q, u := RingContents(entries, h, t), Wrap(t + 1, |entries|);
      && (u == h <==> |q| == |entries| - 1)
      && (u != h ==> RingContents(entries[t := value], h, u) == q + [value])
  {
    var u := Wrap(t + 1, |entries|);
    var q, longer := RingContents(entries, h, t), RingContents(entries[t := value], h, u);
    if u != h {
      assert |longer| == |q| + 1;
      forall i | 0 <= i < |longer| ensures longer[i] == (q + [value])[i] {}
    }
  }

  class DeviceQueue {
    const entries: array<int>
    const capacity: int
    var head: int
    var tail: int

    ghost predicate Valid()
      reads this
    {
      entries.Length == capacity && 0 <= head < capacity && 0 <= tail < capacity
    }

    ghost function Contents(): seq<int>
      reads this, entries
      requires Valid()
    {
      RingContents(entries[..], head, tail)
    }

    constructor (capacity: int)
      requires capacity >= 1
      ensures Valid() && this.capacity == capacity && Contents() == [] && fresh(entries)
    {
      this.capacity, entries, head, tail := capacity, new int[capacity], 0, 0;
    }

    /** `queue_try_pop`: the oldest value, unless the queue is empty. */
    method TryPop() returns (ok: bool, value: int)
      requires Valid()
      modifies this`head
      ensures Valid() && ok == (old(Contents()) != [])
      ensures if ok then [value] + Contents() == old(Contents()) else Contents() == old(Contents())
    {
      if head == tail {
        return false, 0;
      }
      PopContents(entries[..], head, tail);
      ModIsWrap(head + 1, capacity);
      value := entries[head];
      head := (head + 1) % capacity;
      ok := true;
    }

    /** `queue_try_push`: refused exactly when `capacity - 1` values are waiting. */
    method TryPush(value: int) returns (ok: bool)
      requires Valid()
      modifies this`tail, entries
      ensures Valid() && ok == (|old(Contents())| < capacity - 1)
      ensures Contents() == if ok then old(Contents()) + [value] else old(Contents())
    {
      PushContents(entries[..], head, tail, value);
      ModIsWrap(tail + 1, capacity);
      var next := (tail + 1) % capacity;
      if next == head {
        return false;
      }
      entries[tail] := value;
      tail := next;
      ok := true;
    }

    /** `(tail - head + capacity) % capacity`. */
    method Depth() returns (depth: int)
      requires Valid()
      ensures depth == |Contents()| <= capacity - 1
    {
      DepthFormula(entries[..], head, tail);
      depth := (tail - head + capacity) % capacity;
    }
  }
}
