/**
 * The notification queue as a value: a FIFO of order snapshots in which
 * `None` is the boundary marker that separates one step from the next.
 */
module Notifications {
  import opened Wrappers
  import opened Orders

  type Notification = Option<Order>

  /**
   * One `get_notification`: the oldest entry and the rest of the queue, or
   * `None` and the queue as it is when the queue is empty. A boundary marker
   * is returned as `None` too.
   */
  function Pop(q: seq<Notification>): (r: (Notification, seq<Notification>))
    ensures q == [] ==> r.0 == None && r.1 == []
    ensures q != [] ==> r.0 == q[0] && [r.0] + r.1 == q
  {
    if q == [] then (None, []) else (q[0], q[1..])
  }

  /** `n` consecutive `get_notification` calls: what they return, in order, and
      the queue left behind. */
  function Drain(q: seq<Notification>, n: nat): (r: (seq<Notification>, seq<Notification>))
    ensures |r.0| == n
  {
    if n == 0 then ([], q)
    else
      var first := Pop(q);
      var rest := Drain(first.1, n - 1);
      ([first.0] + rest.0, rest.1)
  }

  /** FIFO: whatever is queued behind them, the first |q| pops return exactly
      the entries of q in the order they were queued, and leave the rest. */
  lemma {:induction false} DrainFifo(q: seq<Notification>, later: seq<Notification>)
    ensures Drain(q + later, |q|) == (q, later)
  {
    if q != [] {
      assert (q + later)[1..] == q[1..] + later;
      assert Pop(q + later) == (q[0], q[1..] + later);
      DrainFifo(q[1..], later);
      assert Drain(q[1..] + later, |q| - 1) == (q[1..], later);
      assert Drain(q + later, |q|) == ([q[0]] + q[1..], later);
      assert [q[0]] + q[1..] == q;
    } else {
      assert q + later == later;
    }
  }

  /** Popping an empty queue never fails: every call returns `None` and the
      queue stays empty. */
  lemma {:induction false} DrainEmpty(n: nat)
    ensures Drain([], n).1 == []
    ensures forall i :: 0 <= i < n ==> Drain([], n).0[i] == None
  {
    if n > 0 {
      DrainEmpty(n - 1);
    }
  }
}
