/**
 * The bookkeeping of the SharpPoint broker adapter: an order registry keyed
 * by order reference, per-order status callbacks, the notification queue
 * and the cash fields. Order routing is delegated to an external store; the
 * model records each delegation in `storeCalls`.
 */
module SpBroker {
  import opened Wrappers
  import opened Orders
  import opened Notifications

  /** What a call into this file can raise. */
  datatype Error =
    | UnknownOrder(ref: Ref)                            // KeyError on the registry
    | MissingAttribute(name: string)                    // AttributeError
    | UnexpectedKeyword(callee: string, arg: string)  // TypeError

  /** A request passed on to the external order store. */
  datatype StoreCall = OrderCreate(order: Order) | OrderCancel(order: Order)

  datatype CancelOutcome = AlreadyCancelled | Delegated

  datatype Params = Params(cash: real, checksubmit: bool)

  class SharpPointBroker {
    var p: Params
    var startingcash: real
    var cash: real
    var orders: map<Ref, Order>          // the registry, by order reference
    var pending: seq<Ref>                // accepted without a submit check
    var submitted: seq<Ref>              // submitted, awaiting acceptance
    var positions: map<DataId, Position>
    var notifs: seq<Notification>        // front is the oldest
    var storeCalls: seq<StoreCall>       // every request given to the store
    var nextRef: Ref                     // the next reference the order counter hands out

    /** Every registered order is filed under its own reference and was
        drawn from the counter; the two cash fields and the cash parameter
        agree. */
    ghost predicate Valid()
      reads this
    {
      && startingcash == cash == p.cash
      && forall r :: r in orders ==> orders[r].ref == r && r < nextRef
    }

    constructor(cash: real := 10000.0, checksubmit: bool := true)
      ensures Valid()
      ensures p == Params(cash, checksubmit)
      ensures startingcash == cash && this.cash == cash
      ensures orders == map[] && positions == map[] && notifs == []
      ensures pending == [] && submitted == [] && storeCalls == []
      ensures nextRef == 1
    {
      p := Params(cash, checksubmit);
      startingcash, this.cash := cash, cash;
      orders, positions, notifs := map[], map[], [];
      pending, submitted, storeCalls := [], [], [];
      nextRef := 1;
    }

    method GetNotification() returns (n: Notification)
      requires Valid()
      modifies this`notifs
      ensures Valid()
      ensures (n, notifs) == Pop(old(notifs))
      ensures old(notifs) == [] ==> n == None && notifs == []
      ensures old(notifs) != [] ==> n == old(notifs)[0] && notifs == old(notifs)[1..]
    {
      if notifs == [] {
        return None;
      }
      n := notifs[0];
      notifs := notifs[1..];
    }

    method GetCash() returns (c: real)
      requires Valid()
      ensures c == cash && c == startingcash
    {
      c := cash;
    }

    method SetCash(c: real)
      requires Valid()
      modifies this`startingcash, this`cash, this`p
      ensures Valid()
      ensures startingcash == c && cash == c && p == old(p).(cash := c)
    {
      startingcash, cash := c, c;
      p := p.(cash := c);
    }

    /** The position in `data`, created empty on first lookup. */
    method GetPosition(data: DataId) returns (pos: Position)
      requires Valid()
      modifies this`positions
      ensures Valid()
      ensures data in old(positions) ==> positions == old(positions) && pos == positions[data]
      ensures data !in old(positions) ==> positions == old(positions)[data := FreshPosition] && pos == FreshPosition
    {
      if data !in positions {
        positions := positions[data := FreshPosition];
      }
      pos := positions[data];
    }

    method OrderStatus(ref: Ref) returns (r: Result<Status, Error>)
      requires Valid()
      ensures r.Success? <==> ref in orders
      ensures r.Success? ==> r.value == orders[ref].status
      ensures r.Failure? ==> r.error == UnknownOrder(ref)
    {
      if ref !in orders {
        return Failure(UnknownOrder(ref));
      }
      r := Success(orders[ref].status);
    }

    /**
     * Registers a caller-built order in the one keyed store. With the submit
     * check on, the order is marked Submitted and queued for acceptance;
     * otherwise it is submitted and accepted at once and queued as pending.
     * Either way exactly one notification is emitted.
     */
    method Submit(order: Order) returns (r: Order)
      requires Valid() && order.ref < nextRef
      modifies this`orders, this`notifs, this`submitted, this`pending
      ensures Valid()
      ensures r == order.(status := if p.checksubmit then Submitted else Accepted)
      ensures orders == old(orders)[order.ref := r]
      ensures notifs == old(notifs) + [Some(r)]
      ensures p.checksubmit ==> submitted == old(submitted) + [order.ref] && pending == old(pending)
      ensures !p.checksubmit ==> pending == old(pending) + [order.ref] && submitted == old(submitted)
    {
      if p.checksubmit {
        r := order.(status := Submitted);
        submitted := submitted + [r.ref];
      } else {
        r := order.(status := Accepted);
        pending := pending + [r.ref];
      }
      orders := orders[r.ref := r];
      Notify(r);
    }

    /**
     * `submit` exactly as the file has it: the submit-check branch marks the
     * order and queues it, then calls `append` on the keyed registry, which
     * has no such method; the other branch calls `submit_accept`, which the
     * class does not define. Neither branch registers or notifies.
     */
    method SubmitAsWritten(order: Order) returns (r: Result<Order, Error>)
      requires Valid()
      modifies this`submitted
      ensures Valid()
      ensures p.checksubmit ==> r == Failure(MissingAttribute("append")) && submitted == old(submitted) + [order.ref]
      ensures !p.checksubmit ==> r == Failure(MissingAttribute("submit_accept")) && submitted == old(submitted)
    {
      if p.checksubmit {
        submitted := submitted + [order.ref];
        return Failure(MissingAttribute("append"));
      }
      return Failure(MissingAttribute("submit_accept"));
    }

    /** The effect every status callback has: an unknown reference fails and
        changes nothing; a known one gets status `s` and one notification
        carrying its new value, and no other order changes. */
    twostate predicate Transitioned(oref: Ref, s: Status, new r: Outcome<Error>)
      reads this
    {
      && (oref !in old(orders) ==>
            r == Fail(UnknownOrder(oref)) && orders == old(orders) && notifs == old(notifs))
      && (oref in old(orders) ==>
            && r == Pass
            && orders == old(orders)[oref := old(orders)[oref].(status := s)]
            && notifs == old(notifs) + [Some(orders[oref])])
    }

    method Transition(oref: Ref, s: Status) returns (r: Outcome<Error>)
      requires Valid()
      modifies this`orders, this`notifs
      ensures Valid() && Transitioned(oref, s, r)
    {
      if oref !in orders {
        return Fail(UnknownOrder(oref));
      }
      var order := orders[oref].(status := s);
      orders := orders[oref := order];
      Notify(order);
      r := Pass;
    }

    method OnSubmit(oref: Ref) returns (r: Outcome<Error>)
      requires Valid()
      modifies this`orders, this`notifs
      ensures Valid() && Transitioned(oref, Submitted, r)
    {
      r := Transition(oref, Submitted);
    }

    method OnReject(oref: Ref) returns (r: Outcome<Error>)
      requires Valid()
      modifies this`orders, this`notifs
      ensures Valid() && Transitioned(oref, Rejected, r)
    {
      r := Transition(oref, Rejected);
    }

    method OnAccept(oref: Ref) returns (r: Outcome<Error>)
      requires Valid()
      modifies this`orders, this`notifs
      ensures Valid() && Transitioned(oref, Accepted, r)
    {
      r := Transition(oref, Accepted);
    }

    method OnCancel(oref: Ref) returns (r: Outcome<Error>)
      requires Valid()
      modifies this`orders, this`notifs
      ensures Valid() && Transitioned(oref, Cancelled, r)
    {
      r := Transition(oref, Cancelled);
    }

    method OnExpire(oref: Ref) returns (r: Outcome<Error>)
      requires Valid()
      modifies this`orders, this`notifs
      ensures Valid() && Transitioned(oref, Expired, r)
    {
      r := Transition(oref, Expired);
    }

    /**
     * A fill reported by the store for order `oref`: the order's position is
     * looked up (created if new) and updated by `update`, which stands for the
     * trading library's position arithmetic; the execution is recorded on the
     * order with zero commission, value, margin and P&L; the order becomes
     * Partial or Completed; one notification is emitted. Cash is not touched.
     */
    method OnFill(oref: Ref, size: int, price: real, dt: real,
                  update: (Position, int, real) -> PositionUpdate) returns (r: Outcome<Error>)
      requires Valid()
      modifies this`orders, this`notifs, this`positions
      ensures Valid()
      ensures oref !in old(orders) ==>
        r == Fail(UnknownOrder(oref)) && orders == old(orders) && notifs == old(notifs) && positions == old(positions)
      ensures oref in old(orders) ==>
        var o := old(orders)[oref];
        var u := update(if o.data in old(positions) then old(positions)[o.data] else FreshPosition, size, price);
        && r == Pass
        && positions == old(positions)[o.data := u.position]
        && orders == old(orders)[oref := RecordFill(o, Execution(dt, size, price,
                                                                  u.closedSize, 0.0, 0.0,
                                                                  u.openedSize, 0.0, 0.0,
                                                                  0.0, 0.0,
                                                                  u.position.size, u.position.price))]
        && Executed(orders[oref]) == Executed(o) + size
        && (orders[oref].status == Completed <==> Executed(orders[oref]) == o.size)
        && (orders[oref].status == Partial <==> Executed(orders[oref]) != o.size)
        && notifs == old(notifs) + [Some(orders[oref])]
    {
      if oref !in orders {
        return Fail(UnknownOrder(oref));
      }
      var order := orders[oref];
      var pos := GetPosition(order.data);
      var u := update(pos, size, price);
      positions := positions[order.data := u.position];
      var e := Execution(dt, size, price,
                         u.closedSize, 0.0, 0.0,
                         u.openedSize, 0.0, 0.0,
                         0.0, 0.0,
                         u.position.size, u.position.price);
      order := RecordFill(order, e);
      orders := orders[oref := order];
      Notify(order);
      r := Pass;
    }

    /** `_fill` exactly as the file has it: after the registry lookup it calls
        the local `getposition` with a `clone` keyword that it does not accept,
        so it raises before anything changes. */
    method OnFillAsWritten(oref: Ref, size: int, price: real, dt: real,
                           update: (Position, int, real) -> PositionUpdate) returns (r: Outcome<Error>)
      requires Valid()
      ensures oref !in orders ==> r == Fail(UnknownOrder(oref))
      ensures oref in orders ==> r == Fail(UnexpectedKeyword("getposition", "clone"))
    {
      if oref !in orders {
        return Fail(UnknownOrder(oref));
      }
      r := Fail(UnexpectedKeyword("getposition", "clone"));
    }

    /** Builds a new order with the next reference, registers it under that
        reference and hands it to the store. */
    method Place(side: Side, owner: nat, data: DataId, size: int,
                 price: Option<real>, plimit: Option<real>, exectype: Option<ExecType>,
                 valid: Option<real>, tradeid: int, info: map<string, string>) returns (r: Order)
      requires Valid()
      modifies this`orders, this`nextRef, this`storeCalls
      ensures Valid()
      ensures r == NewOrder(old(nextRef), side, owner, data, size, price, plimit, exectype, valid, tradeid, info)
      ensures r.ref !in old(orders) && nextRef == old(nextRef) + 1
      ensures orders == old(orders)[r.ref := r]
      ensures storeCalls == old(storeCalls) + [OrderCreate(r)]
    {
      r := NewOrder(nextRef, side, owner, data, size, price, plimit, exectype, valid, tradeid, info);
      nextRef := nextRef + 1;
      orders := orders[r.ref := r];
      storeCalls := storeCalls + [OrderCreate(r)];
    }

    method Buy(owner: nat, data: DataId, size: int,
               price: Option<real> := None, plimit: Option<real> := None,
               exectype: Option<ExecType> := None, valid: Option<real> := None,
               tradeid: int := 0, info: map<string, string> := map[]) returns (r: Order)
      requires Valid()
      modifies this`orders, this`nextRef, this`storeCalls
      ensures Valid()
      ensures r == NewOrder(old(nextRef), Side.Buy, owner, data, size, price, plimit, exectype, valid, tradeid, info)
      ensures r.ref !in old(orders) && orders == old(orders)[r.ref := r]
      ensures storeCalls == old(storeCalls) + [OrderCreate(r)]
    {
      r := Place(Side.Buy, owner, data, size, price, plimit, exectype, valid, tradeid, info);
    }

    method Sell(owner: nat, data: DataId, size: int,
                price: Option<real> := None, plimit: Option<real> := None,
                exectype: Option<ExecType> := None, valid: Option<real> := None,
                tradeid: int := 0, info: map<string, string> := map[]) returns (r: Order)
      requires Valid()
      modifies this`orders, this`nextRef, this`storeCalls
      ensures Valid()
      ensures r == NewOrder(old(nextRef), Side.Sell, owner, data, size, price, plimit, exectype, valid, tradeid, info)
      ensures r.ref !in old(orders) && orders == old(orders)[r.ref := r]
      ensures storeCalls == old(storeCalls) + [OrderCreate(r)]
    {
      r := Place(Side.Sell, owner, data, size, price, plimit, exectype, valid, tradeid, info);
    }

    /**
     * Fails when the order's reference is not registered. Otherwise the
     * status tested is the one carried by the argument, which may be a
     * snapshot older than the registry entry: an argument already Cancelled
     * returns at once; any other is handed to the store, which later reports
     * back through `OnCancel`.
     */
    method Cancel(order: Order) returns (r: Result<CancelOutcome, Error>)
      requires Valid()
      modifies this`storeCalls
      ensures Valid()
      ensures order.ref !in orders ==> r == Failure(UnknownOrder(order.ref)) && storeCalls == old(storeCalls)
      ensures order.ref in orders && order.status == Cancelled ==>
        r == Success(AlreadyCancelled) && storeCalls == old(storeCalls)
      ensures order.ref in orders && order.status != Cancelled ==>
        r == Success(Delegated) && storeCalls == old(storeCalls) + [OrderCancel(order)]
    {
      if order.ref !in orders {
        return Failure(UnknownOrder(order.ref));
      }
      if order.status == Cancelled {
        return Success(AlreadyCancelled);
      }
      storeCalls := storeCalls + [OrderCancel(order)];
      r := Success(Delegated);
    }

    /** Queues a snapshot of `order`. */
    method Notify(order: Order)
      requires Valid()
      modifies this`notifs
      ensures Valid()
      ensures notifs == old(notifs) + [Some(order)]
    {
      notifs := notifs + [Some(order)];
    }

    /** Marks the end of a step with a boundary entry. */
    method Next()
      requires Valid()
      modifies this`notifs
      ensures Valid()
      ensures notifs == old(notifs) + [None]
    {
      notifs := notifs + [None];
    }
  }

  /**
   * A client of the broker: a snapshot queued before a fill still shows the
   * order as it was, the boundary marker separates the steps, and the queue
   * hands entries back oldest first.
   */
  method SnapshotScenario()
  {
    var b := new SharpPointBroker(10000.0, false);
    var o := b.Buy(1, 7, 10);
    assert |b.notifs| == 0;
    var s := b.OnAccept(o.ref);
    var f := b.OnFill(o.ref, 4, 100.0, 1.0, MoveTo);
    b.Next();
    var n1 := b.GetNotification();
    var n2 := b.GetNotification();
    var n3 := b.GetNotification();
    var n4 := b.GetNotification();
    assert n1.Some? && n1.value.status == Accepted && Executed(n1.value) == 0;
    assert n2.Some? && n2.value.status == Partial && Remaining(n2.value) == 6;
    assert n3 == None && n4 == None;
    assert b.cash == 10000.0;
  }

  /** A stand-in position rule for the scenario: add the size, take the price. */
  function MoveTo(pos: Position, n: int, px: real): PositionUpdate
  {
    PositionUpdate(Position(pos.size + n, px), n, 0)
  }
}
