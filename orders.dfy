/**
 * Orders as values. The broker keeps one live order per reference; every
 * notification carries a copy of it, so the snapshot semantics of
 * `order.clone()` come for free from the value semantics of datatypes.
 */
module Orders {
  import opened Wrappers

  /** An order reference, drawn from a counter that never repeats itself. */
  type Ref = nat
  /** Identifies a data feed, i.e. an instrument. */
  type DataId = nat

  datatype Status =
    | Created | Submitted | Accepted | Partial
    | Completed | Cancelled | Rejected | Expired

  datatype Side = Buy | Sell

  datatype ExecType = Market | Close | Limit | Stop | StopLimit

  /**
   * The position held in one instrument. How a fill changes it belongs to
   * the trading library and is a parameter of the fill callback.
   */
  datatype Position = Position(size: int, price: real)

  /** What a position lookup creates for an instrument never seen before. */
  const FreshPosition := Position(0, 0.0)

  /** What updating a position with a fill reports back. */
  datatype PositionUpdate = PositionUpdate(position: Position, openedSize: int, closedSize: int)

  /** One execution as handed to the order: time, size and price, plus the
      closed/opened split with its values and commissions, margin, P&L and
      the resulting position size and price. */
  datatype Execution = Execution(
    dt: real, size: int, price: real,
    closedSize: int, closedValue: real, closedComm: real,
    openedSize: int, openedValue: real, openedComm: real,
    margin: real, pnl: real,
    psize: int, pprice: real)

  datatype Order = Order(
    ref: Ref, side: Side, owner: nat, data: DataId,
    size: int,                       // the requested size, fixed at creation
    price: Option<real>, plimit: Option<real>,
    exectype: Option<ExecType>, valid: Option<real>, tradeid: int,
    info: map<string, string>,       // the keyword arguments given to addinfo
    status: Status,
    execs: seq<Execution>)           // every execution, oldest first

  /** Sum of the sizes of a sequence of executions. */
  function TotalSize(es: seq<Execution>): int
  {
    if es == [] then 0 else es[0].size + TotalSize(es[1..])
  }

  lemma {:induction false} TotalSizeAppend(es: seq<Execution>, e: Execution)
    ensures TotalSize(es + [e]) == TotalSize(es) + e.size
  {
    if es != [] {
      assert (es + [e])[1..] == es[1..] + [e];
      TotalSizeAppend(es[1..], e);
    } else {
      assert [e][1..] == [];
    }
  }

  /** The size executed so far: the sum of the recorded executions. */
  function Executed(o: Order): int
  {
    TotalSize(o.execs)
  }

  /** The size still to execute. */
  function Remaining(o: Order): int
  {
    o.size - Executed(o)
  }

  /** A new order as built by the buy/sell order classes. */
  function NewOrder(
    ref: Ref, side: Side, owner: nat, data: DataId, size: int,
    price: Option<real>, plimit: Option<real>, exectype: Option<ExecType>,
    valid: Option<real>, tradeid: int, info: map<string, string>): (r: Order)
    ensures r.ref == ref && r.side == side && r.owner == owner && r.data == data && r.size == size
    ensures r.price == price && r.plimit == plimit && r.exectype == exectype
    ensures r.valid == valid && r.tradeid == tradeid && r.info == info && r.execs == []
    ensures r.status == Created && Executed(r) == 0 && Remaining(r) == size
  {
    Order(ref, side, owner, data, size, price, plimit, exectype, valid, tradeid, info,
          Created, [])
  }

  /** Everything that identifies the order and its request is the same. */
  predicate SameRequest(a: Order, b: Order)
  {
    && a.ref == b.ref && a.side == b.side && a.owner == b.owner && a.data == b.data
    && a.size == b.size && a.price == b.price && a.plimit == b.plimit
    && a.exectype == b.exectype && a.valid == b.valid && a.tradeid == b.tradeid
    && a.info == b.info
  }

  /**
   * Record one execution and then mark the order Partial while any size
   * remains, Completed otherwise. The status follows the remaining size,
   * not the old status.
   */
  function RecordFill(o: Order, e: Execution): (r: Order)
    ensures SameRequest(o, r)
    ensures r.execs == o.execs + [e]
    ensures Executed(r) == Executed(o) + e.size
    ensures r.status == Completed <==> Executed(r) == o.size
    ensures r.status == Partial <==> Executed(r) != o.size
  {
    TotalSizeAppend(o.execs, e);
    var filled := o.(execs := o.execs + [e]);
    filled.(status := if Remaining(filled) != 0 then Partial else Completed)
  }

  /** A run of fill callbacks on one order, oldest first. */
  function ApplyFills(o: Order, es: seq<Execution>): (r: Order)
    decreases |es|
  {
    if es == [] then o else ApplyFills(RecordFill(o, es[0]), es[1..])
  }

  /**
   * After any run of fills the order still accounts for every execution: the
   * executed size is the old one plus the sum of the fills, the execution
   * history grows by exactly those fills, and once at least one fill happened
   * the order is Completed exactly when the executed size equals the
   * requested size.
   */
  lemma {:induction false} ApplyFillsAccounting(o: Order, es: seq<Execution>)
    ensures SameRequest(o, ApplyFills(o, es))
    ensures Executed(ApplyFills(o, es)) == Executed(o) + TotalSize(es)
    ensures ApplyFills(o, es).execs == o.execs + es
    ensures es != [] ==> (ApplyFills(o, es).status == Completed <==> Executed(ApplyFills(o, es)) == o.size)
    ensures es == [] ==> ApplyFills(o, es).status == o.status
    decreases |es|
  {
    if es != [] {
      var o' := RecordFill(o, es[0]);
      ApplyFillsAccounting(o', es[1..]);
      assert o.execs + [es[0]] + es[1..] == o.execs + es;
      if es[1..] == [] {
        assert ApplyFills(o', es[1..]) == o';
      }
    }
  }

  /**
   * When every fill is non-negative and at most what still remains when it
   * arrives, the executed size never decreases and never passes the
   * requested size.
   */
  lemma {:induction false} ApplyFillsBounded(o: Order, es: seq<Execution>)
    requires 0 <= Executed(o) <= o.size
    requires forall i :: 0 <= i < |es| ==> 0 <= es[i].size <= o.size - Executed(o) - TotalSize(es[..i])
    ensures Executed(o) <= Executed(ApplyFills(o, es)) <= o.size
    decreases |es|
  {
    if es != [] {
      var o' := RecordFill(o, es[0]);
      assert es[..0] == [];
      forall i | 0 <= i < |es[1..]|
        ensures 0 <= es[1..][i].size <= o'.size - Executed(o') - TotalSize(es[1..][..i])
      {
        assert es[..i + 1][1..] == es[1..][..i];
        assert es[1..][i] == es[i + 1];
      }
      ApplyFillsBounded(o', es[1..]);
    }
  }
}
