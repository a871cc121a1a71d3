/**
 Orders: numbers are unique, a new order supersedes the pending one it replaces, and a settled order never changes.
 */
module OrderBook {
  import opened Common
  import opened Billing
  import opened Tables
  import opened Engine
  import opened Shapes

  predicate Supersedable(t: OrderType) {
    t == Renewal || t == Upgrade || t == QuotaAddon
  }

  ghost predicate NumbersUnique(orders: seq<Order>) {
    forall i, j :: 0 <= i < j < |orders| ==> orders[i].no != orders[j].no && orders[i].tradeNo != orders[j].tradeNo
  }

  ghost predicate OnePending(orders: seq<Order>) {
    forall i, j :: 0 <= i < j < |orders| && Supersedable(orders[j].orderType) && orders[j].status == Pending ==>
      !SamePending(orders[i], orders[j].user, orders[j].sub, orders[j].orderType)
  }

  /** Only a purchase is for no subscription. */
  ghost predicate SubsNamed(orders: seq<Order>) {
    forall i :: 0 <= i < |orders| ==> orders[i].orderType != Unrecognised && (orders[i].sub.None? <==> orders[i].orderType == Purchase)
  }

  ghost predicate OrdersOk(orders: seq<Order>) {
    NumbersUnique(orders) && OnePending(orders) && SubsNamed(orders)
  }

  /** What one step can do to an existing order: nothing, cancel it, or complete it. */
  predicate Evolves(before: Order, after: Order) {
    || after == before
    || (before.status == Pending && after == before.(status := Cancelled))
    || (before.status == Pending && after.paidAt.Some? && after == Complete(before, after.paidAt.value))
  }

  ghost predicate BookEvolves(orders: seq<Order>, orders': seq<Order>) {
    |orders| <= |orders'| && forall i :: 0 <= i < |orders| ==> Evolves(orders[i], orders'[i])
  }

  lemma PlaceOrderShape(db: DB, user: nat, req: OrderRequest, now: Time, millis: int)
    requires PlaceOrder(db, user, req, now, millis).Success?
    ensures var d := PlaceOrder(db, user, req, now, millis).value;
            var n := |db.orders|;
            && d == db.(orders := d.orders)
            && |d.orders| == n + 1
            && d.orders[..n] == (if req.orderType == Purchase then db.orders
                                 else CancelPending(db.orders, user, d.orders[n].sub, req.orderType))
            && !NumberTaken(d.orders[..n], d.orders[n].no, d.orders[n].tradeNo)
            && d.orders[n].status == Pending && d.orders[n].user == user && d.orders[n].orderType == req.orderType
            && d.orders[n].product == req.product && req.product in db.products
            && req.orderType != Unrecognised
            && (d.orders[n].sub.None? <==> req.orderType == Purchase)
            && (d.orders[n].sub.Some? ==> ActiveOwn(db, user, d.orders[n].sub.value))
  {
  }

  lemma NewOrderKeepsBook(orders: seq<Order>, order: Order)
    requires OrdersOk(orders)
    requires !NumberTaken(orders, order.no, order.tradeNo)
    requires order.orderType != Unrecognised && (order.sub.None? <==> order.orderType == Purchase)
    requires order.status == Pending && Supersedable(order.orderType) ==>
               forall i :: 0 <= i < |orders| ==> !SamePending(orders[i], order.user, order.sub, order.orderType)
    ensures OrdersOk(orders + [order])
  {
  }

  lemma CancelKeepsBook(orders: seq<Order>, user: nat, sub: Option<nat>, orderType: OrderType)
    requires OrdersOk(orders)
    ensures var r := CancelPending(orders, user, sub, orderType);
            OrdersOk(r) && BookEvolves(orders, r)
            && forall i :: 0 <= i < |r| ==> !SamePending(r[i], user, sub, orderType)
  {
  }

  lemma PlaceOrderKeepsBook(db: DB, user: nat, req: OrderRequest, now: Time, millis: int)
    requires OrdersOk(db.orders)
    requires PlaceOrder(db, user, req, now, millis).Success?
    ensures var d := PlaceOrder(db, user, req, now, millis).value;
            OrdersOk(d.orders) && BookEvolves(db.orders, d.orders)
  {
    PlaceOrderShape(db, user, req, now, millis);
    var orders := PlaceOrder(db, user, req, now, millis).value.orders;
    var n := |db.orders|;
    var kept, order := orders[..n], orders[n];
    if req.orderType != Purchase {
      CancelKeepsBook(db.orders, user, order.sub, req.orderType);
    }
    NewOrderKeepsBook(kept, order);
    assert kept + [order] == orders;
    assert forall i :: 0 <= i < n ==> orders[i] == kept[i];
  }

  lemma CompleteKeepsBook(orders: seq<Order>, o: nat, now: Time)
    requires OrdersOk(orders) && o < |orders| && orders[o].status == Pending
    ensures var orders' := orders[o := Complete(orders[o], now)];
            OrdersOk(orders') && BookEvolves(orders, orders')
  {
  }

  lemma PaymentKeepsBook(db: DB, n: Notice, now: Time)
    requires OrdersOk(db.orders)
    ensures var d := Step(db, DoPayment(n, now));
            OrdersOk(d.orders) && BookEvolves(db.orders, d.orders)
  {
    PaymentShape(db, n, now);
    var o := FindByTradeNo(db.orders, n.tradeNo);
    if o.Some? && Fulfils(db, n, now, o.value) {
      FulfilPaidShape(db, o.value, n.channel, now);
      CompleteKeepsBook(db.orders, o.value, now);
    }
  }

  lemma AutoRenewKeepsBook(db: DB, s: nat, now: Time, millis: int)
    requires OrdersOk(db.orders)
    ensures var d := Step(db, DoAutoRenew(s, now, millis));
            OrdersOk(d.orders) && BookEvolves(db.orders, d.orders)
  {
    if Renews(db, s, now, millis) {
      RenewsShape(db, s, now, millis);
      NewOrderKeepsBook(db.orders, BotOrder(db, s, now, millis));
    } else {
      NoRenewalNoChange(db, s, now, millis);
    }
  }

  lemma StepKeepsBook(db: DB, a: Action)
    requires OrdersOk(db.orders)
    ensures OrdersOk(Step(db, a).orders)
    ensures BookEvolves(db.orders, Step(db, a).orders)
  {
    match a
    case DoPlaceOrder(user, req, now, millis) =>
      if Attempt(db, a).Success? {
        PlaceOrderKeepsBook(db, user, req, now, millis);
      }
    case DoPayment(n, now) => PaymentKeepsBook(db, n, now);
    case DoAutoRenew(s, now, millis) => AutoRenewKeepsBook(db, s, now, millis);
    case _ => StepFrame(db, a);
  }

  lemma {:induction false} RunKeepsBook(db: DB, actions: seq<Action>)
    requires OrdersOk(db.orders)
    ensures OrdersOk(Run(db, actions).orders)
    decreases |actions|
  {
    if actions != [] {
      StepKeepsBook(db, actions[0]);
      RunKeepsBook(Step(db, actions[0]), actions[1..]);
    }
  }

  /**
   In every reachable state no two orders share a number, and a user has at most one pending renewal, one
   pending upgrade and one pending quota add-on for a subscription.
   */
  lemma AtMostOnePendingInEveryReachableState(db: DB, actions: seq<Action>)
    requires Initial(db)
    ensures NumbersUnique(Run(db, actions).orders) && OnePending(Run(db, actions).orders)
  {
    RunKeepsBook(db, actions);
  }

  /** Completed and cancelled are final, and an order's terms never change whatever happens to it. */
  lemma {:induction false} SettledIsFinal(db: DB, actions: seq<Action>, i: nat)
    requires OrdersOk(db.orders) && i < |db.orders|
    ensures var orders := Run(db, actions).orders;
            && i < |orders|
            && (db.orders[i].status != Pending ==> orders[i] == db.orders[i])
            && orders[i].(status := Pending, paidAt := None) == db.orders[i].(status := Pending, paidAt := None)
    decreases |actions|
  {
    if actions != [] {
      StepKeepsBook(db, actions[0]);
      assert Evolves(db.orders[i], Step(db, actions[0]).orders[i]);
      SettledIsFinal(Step(db, actions[0]), actions[1..], i);
    }
  }

  /** Numbers being unique, the payment number finds the order it belongs to. */
  lemma TradeNoFindsItsOrder(orders: seq<Order>, i: nat)
    requires NumbersUnique(orders) && i < |orders|
    ensures FindByTradeNo(orders, orders[i].tradeNo) == Some(i)
  {
  }

  /**
   Once a newer order for the same subscription and of the same type is placed, the superseded one stays
   cancelled for ever, and a payment that arrives for it is refused, whatever happens in between.
   */
  lemma SupersededIsNeverFulfilled(db: DB, user: nat, req: OrderRequest, now: Time, millis: int, i: nat,
                                   actions: seq<Action>, notice: Notice, later: Time)
    requires OrdersOk(db.orders) && i < |db.orders|
    requires PlaceOrder(db, user, req, now, millis).Success? && Supersedable(req.orderType)
    requires var placed := PlaceOrder(db, user, req, now, millis).value.orders[|db.orders|];
             SamePending(db.orders[i], user, placed.sub, req.orderType)
    requires notice.tradeNo == db.orders[i].tradeNo
    ensures var d := Run(Step(db, DoPlaceOrder(user, req, now, millis)), actions);
            && i < |d.orders| && d.orders[i] == db.orders[i].(status := Cancelled)
            && (HasCallback(d.callbacks, notice.channel, notice.key) || ApplyPayment(d, notice, later) == Failure(NotPayable))
  {
    var a := DoPlaceOrder(user, req, now, millis);
    var d1 := Step(db, a);
    PlaceOrderShape(db, user, req, now, millis);
    assert d1.orders[i] == d1.orders[..|db.orders|][i];
    StepKeepsBook(db, a);
    SettledIsFinal(d1, actions, i);
    RunKeepsBook(d1, actions);
    TradeNoFindsItsOrder(Run(d1, actions).orders, i);
  }
}
