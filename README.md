# SharpPoint broker bookkeeping, modelled in Dafny

This project models the bookkeeping core of `SharpPointBroker`
(`sptrader/spbroker.py`), a backtrader broker adapter that routes orders to
the SharpPoint trading store. The adapter keeps four pieces of state, and the
model keeps the same four as fields of one Dafny class:

- the order registry `orders`, a map from order reference to the live order,
  filled by `buy`/`sell` (and, once corrected, `submit`) and read by every
  store callback (`_submit`, `_reject`, `_accept`, `_cancel`, `_expire`,
  `_fill`), by `orderstatus` and by `cancel`;
- the notification queue `notifs`, a FIFO of order snapshots in which `None`
  marks the end of a step (`notify`, `next`, `get_notification`);
- the cash fields `startingcash` and `cash`, set together by the constructor
  and by `set_cash` and changed by nothing else;
- the per-instrument positions, created empty on first lookup.

Files:

- `wrappers.dfy` — `Option`, `Result`, `Outcome`.
- `orders.dfy` (module `Orders`) — an order as a value: reference, side,
  owner, data feed, requested size, the request's price/limit/type/validity/
  trade id, the `addinfo` keywords, the status and the list of executions
  handed to the order. The executed size is the sum of the executions and the
  remaining size is the requested size minus the executed size. `RecordFill`
  is what `_fill` does to the order.
- `notifications.dfy` (module `Notifications`) — the queue as a sequence;
  `Pop` is one `get_notification`, `Drain` is several.
- `spbroker.dfy` (module `SpBroker`) — class `SharpPointBroker` with the
  registry, queue, cash, positions, the `submitted` and `pending` queues, the
  order counter and a log of requests handed to the store. Every method names
  the fields it may change (`modifies this`orders, this`notifs`, …), so
  "nothing else changes" is part of each contract; for example the fill
  callback cannot change `cash`. `SnapshotScenario` is a client that shows a
  queued snapshot keeping the status it had when it was queued.

Orders are datatype values, so the `clone()` in `notify` (line 331) is
exact: a queued snapshot cannot change when the live order changes later.

The code does less than a full broker would, and the model follows the
code:

- the code has no illegal-transition check: each callback sets its status
  whatever the current one is;
- `buy`/`sell` do not validate the size or the price fields;
- `_fill` never touches cash and passes zero commission, value, margin and
  P&L into the order (lines 280-288);
- `_fill` sets `Partial` whenever the remaining size is non-zero, so an
  over-fill (remaining below zero) is `Partial` too (lines 290-293);
- `cancel` short-circuits only on `Cancelled`, not on the other final states
  (line 325).

`get_notification` is defined twice (lines 187-193 and 333-336). The later
definition replaces the earlier one when the class body runs. Both return the
front of the queue, or `None` when it is empty. The model has one
`GetNotification`.

For the two defects in `submit` and the one in `_fill`, the project has a
member that models the code as written and a corrected member. The rest of
the model uses the corrected one (see "## Findings").

## Model

| member | source | states |
|---|---|---|
| Orders.NewOrder | sptrader/spbroker.py:302-304 | a new order carries the given reference, side, feed and size, is Created, has nothing executed and has its whole size remaining |
| Orders.TotalSizeAppend | sptrader/spbroker.py:284-288 | recording one more execution raises the executed size by exactly that execution's size |
| Orders.RecordFill | sptrader/spbroker.py:284-293 | a fill keeps the order's request, appends the execution, raises the executed size by the fill size, and leaves the order Completed exactly when the executed size equals the requested size and Partial otherwise |
| Orders.ApplyFillsBounded | sptrader/spbroker.py:271-293 | when each fill is non-negative and at most the size still remaining when it arrives, the executed size never decreases and stays within 0 and the requested size |
| Orders.ApplyFillsAccounting | sptrader/spbroker.py:271-295 | after any run of fills the executed size is the old one plus the sum of the fills, the history grows by exactly those fills, and (after at least one fill) the order is Completed iff executed equals requested |
| Notifications.Pop | sptrader/spbroker.py:333-336 | on an empty queue returns None and leaves the queue empty; otherwise returns the oldest entry and removes exactly that one |
| Notifications.DrainFifo | sptrader/spbroker.py:330-336 | whatever is queued behind them, the first k pops return the k oldest entries in the order they were queued and leave the rest untouched |
| Notifications.DrainEmpty | sptrader/spbroker.py:333-335 | popping an empty queue any number of times returns None every time and never fails |
| SpBroker.SharpPointBroker.constructor | sptrader/spbroker.py:157-168 | starting cash and cash both equal the cash parameter (default 10000.0); registry, positions, queues and store log are empty |
| SpBroker.SharpPointBroker.GetNotification | sptrader/spbroker.py:333-336 | the result and the new queue are Pop of the old queue: None on empty with the queue unchanged, else the front entry, removed |
| SpBroker.SharpPointBroker.GetCash | sptrader/spbroker.py:209-211 | returns the current cash, which equals the starting cash |
| SpBroker.SharpPointBroker.SetCash | sptrader/spbroker.py:215-217 | starting cash, cash and the cash parameter all become c; nothing else changes |
| SpBroker.SharpPointBroker.GetPosition | sptrader/spbroker.py:229-230 | returns the feed's position, creating an empty one on first lookup; no other position changes |
| SpBroker.SharpPointBroker.OrderStatus | sptrader/spbroker.py:232-234 | succeeds iff the reference is registered, then returns that order's status; otherwise fails with UnknownOrder |
| SpBroker.SharpPointBroker.Submit | sptrader/spbroker.py:236-244 | corrected submit: the order is filed under its reference in the one registry, marked Submitted and queued on `submitted` (check on) or Submitted-and-Accepted and queued on `pending` (check off), with exactly one notification |
| SpBroker.SharpPointBroker.SubmitAsWritten | sptrader/spbroker.py:236-244 | submit as written always fails: with the check on it queues the reference and then fails on `append`; with it off it fails on `submit_accept`; no order is filed under a new reference and nothing is notified (the Submitted mark `order.submit()` leaves on an already registered order is not modelled, see below) |
| SpBroker.SharpPointBroker.Transition | sptrader/spbroker.py:246-269 | shared body of the status callbacks: unknown reference fails and changes nothing; known one gets the status and one notification with its new value; no other order changes |
| SpBroker.SharpPointBroker.OnSubmit | sptrader/spbroker.py:246-249 | `_submit`: fails on an unknown reference; otherwise sets Submitted, leaves every other order alone and queues exactly one snapshot of the new value |
| SpBroker.SharpPointBroker.OnReject | sptrader/spbroker.py:251-254 | `_reject`: the same, with Rejected |
| SpBroker.SharpPointBroker.OnAccept | sptrader/spbroker.py:256-259 | `_accept`: the same, with Accepted |
| SpBroker.SharpPointBroker.OnCancel | sptrader/spbroker.py:261-264 | `_cancel`: the same, with Cancelled |
| SpBroker.SharpPointBroker.OnExpire | sptrader/spbroker.py:266-269 | `_expire`: the same, with Expired |
| SpBroker.SharpPointBroker.OnFill | sptrader/spbroker.py:271-295 | corrected `_fill`: fails on an unknown reference; otherwise updates the feed's position (created if new), records the execution with zero commissions, values, margin and P&L, raises the executed size by the fill size, sets Completed iff executed equals requested (else Partial), queues one snapshot; cash unchanged |
| SpBroker.SharpPointBroker.OnFillAsWritten | sptrader/spbroker.py:271-275 | `_fill` as written: unknown reference fails with UnknownOrder; a known one fails at the `getposition(data, clone=False)` call; nothing changes |
| SpBroker.SharpPointBroker.Place | sptrader/spbroker.py:302-308 | shared body of buy/sell: the new order gets the next reference, which was not registered before; it is filed under it, older entries are kept, and it is handed to the store |
| SpBroker.SharpPointBroker.Buy | sptrader/spbroker.py:297-308 | a new Buy order with a fresh reference is registered under it, every earlier reference keeps its order, and one create request goes to the store |
| SpBroker.SharpPointBroker.Sell | sptrader/spbroker.py:310-321 | the same for a Sell order |
| SpBroker.SharpPointBroker.Cancel | sptrader/spbroker.py:323-328 | fails when the argument's reference is unregistered; an argument whose own status is Cancelled returns at once with no store request, otherwise exactly one cancel request for it goes to the store; registry and queue never change |
| SpBroker.SharpPointBroker.Notify | sptrader/spbroker.py:330-331 | appends exactly one snapshot at the back of the queue; earlier entries unchanged |
| SpBroker.SharpPointBroker.Next | sptrader/spbroker.py:338-339 | appends exactly one boundary marker; registry, orders and cash unchanged |

## Left out

- The SharpPoint store (`order_create`, `order_cancel`, `start`, `stop`; lines 159, 178, 182, 308, 328) is external order routing. The model logs each create and cancel request in `storeCalls`. `start`/`stop` are not modelled.
- SpBroker.SharpPointBroker.Buy: returns the order itself; the source returns whatever the store's `order_create` returns, which this file does not define (the same holds for `Sell`).
- The metaclass that registers the broker class with the store (lines 39-44) is a global side effect with no behaviour to state.
- The log file `self.f` (lines 169-174, 183-185) is I/O.
- Position arithmetic (`Position.update`) belongs to backtrader and is not shown. `OnFill` takes it as a parameter `update`, and a new position is `Position(0, 0.0)`. The commission info looked up at line 278 is never used in this file and is not modelled. What `Order.execute` does beyond recording the execution is not modelled either, for example the average price.
- The bar time `data.datetime[0]` is the parameter `dt`. The extra keyword arguments of `_fill` are ignored, as the source ignores them.
- `get_value` (line 225) returns the constant 0.0 and is not modelled.
- The `set_filler`, `set_checksubmit` and `set_eosbar` setters (lines 195-207) and the `eosbar`, `filler` and `dataname` parameters only assign or configure. The filler is never called in this file.
- The `__main__` block (lines 344-346).
- Prices and cash are Dafny `real` (exact), not floating point.
- Sizes (requested, fill and position sizes) are unbounded integers taken as given. Fractional sizes and the float rounding that can leave `remsize` non-zero after fractional fills (line 290) are not modelled. How backtrader's `Order` treats the sign of a Sell order's size is not shown, so the model compares each fill with the requested size exactly as passed to `sell`: a Sell order can only reach Completed when its fills have the same sign as its requested size.
- Order references come from backtrader's process-wide order counter. The model keeps that counter per broker, as `nextRef`, starting at 1.
- SpBroker.SharpPointBroker.Submit: requires the order's reference to be below `nextRef`, i.e. drawn from the counter. The source accepts any order object, but every order object gets its reference from that counter.
- `OrderedDict` insertion order is not modelled, because nothing in the file iterates over the registry.
- Aliasing: orders are values, not shared objects. `submitted` and `pending` hold references instead of order objects. The order `Buy`/`Sell` return is a copy fixed at creation and does not follow later callbacks; a caller that holds the live order passes `orders[order.ref]` to `Cancel`.
- SpBroker.SharpPointBroker.SubmitAsWritten: does not model that `order.submit()` (line 238) marks the argument Submitted before the failure. When the argument is the object `buy` filed (line 307), that object is the registry entry, so in the source the entry is left Submitted and a later `orderstatus` returns Submitted; in the model the entry and its status are unchanged.

## Findings

| source | as written | input that shows it | evidently intended | confidence | as-written member | corrected member |
|---|---|---|---|---|---|---|
| sptrader/spbroker.py:240 | `self.orders.append(order)` on an `OrderedDict`, which has no `append`: AttributeError after the order was already queued on `submitted` | any `submit` with `checksubmit` true (the default) | file the order under its reference, `self.orders[order.ref] = order`, then notify | high, not executed | SpBroker.SharpPointBroker.SubmitAsWritten | SpBroker.SharpPointBroker.Submit |
| sptrader/spbroker.py:243 | calls `self.submit_accept(order)`, which the class does not define: AttributeError | any `submit` with `checksubmit` false | submit and accept the order at once, queue it as pending, register it in the same keyed store, notify once | high, not executed | SpBroker.SharpPointBroker.SubmitAsWritten | SpBroker.SharpPointBroker.Submit |
| sptrader/spbroker.py:275 | calls `self.getposition(data, clone=False)`, but the local `getposition` (line 229) takes no `clone`: TypeError, so no fill is ever recorded | any `_fill` on a registered reference | `self.getposition(data)`, then record the fill and set Partial/Completed | high, not executed | SpBroker.SharpPointBroker.OnFillAsWritten | SpBroker.SharpPointBroker.OnFill |
