/**
 Coupons go one way, and a used one names the completed order that used it.  What the services do not check is
 that an order priced with a coupon is the one that uses it.
 */
module Coupons {
  import opened Common
  import opened Billing
  import opened Tables
  import opened Engine
  import opened Shapes
  import opened OrderBook

  /** A used coupon names the completed order of its holder that was placed with it; no other coupon names an order. */
  predicate UsedBy(orders: seq<Order>, coupons: seq<Coupon>, c: nat)
    requires c < |coupons|
  {
    match coupons[c].order
    case None => coupons[c].status != Used
    case Some(o) =>
      && coupons[c].status == Used
      && o < |orders| && orders[o].status == Completed
      && orders[o].coupon == Some(c) && orders[o].user == coupons[c].user
  }

  ghost predicate CouponsMatch(orders: seq<Order>, coupons: seq<Coupon>) {
    forall c :: 0 <= c < |coupons| ==> UsedBy(orders, coupons, c)
  }

  /** A coupon stays as it is, or leaves `Available` for good. */
  predicate CouponEvolves(before: Coupon, after: Coupon) {
    || after == before
    || (before.status == Available && after.order.Some? && after == before.(status := Used, order := after.order))
    || (before.status == Available && after == before.(status := CouponExpired))
  }

  ghost predicate CouponsEvolve(coupons: seq<Coupon>, coupons': seq<Coupon>) {
    |coupons| <= |coupons'| && forall c :: 0 <= c < |coupons| ==> CouponEvolves(coupons[c], coupons'[c])
  }

  /** Payment uses up the order's coupon exactly when its holder is the buyer and it is still available. */
  lemma PaymentUsesCouponExactlyWhen(db: DB, o: nat, channel: Channel, now: Time)
    requires o < |db.orders| && db.orders[o].product in db.products
    requires FulfilPaid(db, o, channel, now).Success?
    ensures var d := FulfilPaid(db, o, channel, now).value;
            && |d.coupons| == |db.coupons|
            && forall c :: 0 <= c < |db.coupons| ==>
                 var before := db.coupons[c];
                 d.coupons[c] ==
                 if db.orders[o].coupon == Some(c) && before.user == db.orders[o].user && before.status == Available
                 then before.(status := Used, order := Some(o)) else before
  {
    var d0 := db.(orders := db.orders[o := Complete(db.orders[o], now)]);
    var d := Deliver(d0, o, db.products[db.orders[o].product], now).value;
    FulfilPaidStages(db, o, channel, now);
    DeductShape(d, o, channel);
    SettleUsesCoupon(Deduct(d, o, channel).value, o);
  }

  lemma SettleUsesCoupon(db: DB, o: nat)
    requires o < |db.orders| && Settle(db, o).Success?
    ensures var d := Settle(db, o).value;
            && |d.coupons| == |db.coupons|
            && forall c :: 0 <= c < |db.coupons| ==>
                 var before := db.coupons[c];
                 d.coupons[c] ==
                 if db.orders[o].coupon == Some(c) && before.user == db.orders[o].user && before.status == Available
                 then before.(status := Used, order := Some(o)) else before
  {
    AccrueShape(MarkCouponUsed(db, o), o);
  }

  lemma PaymentKeepsCoupons(db: DB, n: Notice, now: Time)
    requires CouponsMatch(db.orders, db.coupons)
    ensures var d := Step(db, DoPayment(n, now));
            CouponsMatch(d.orders, d.coupons) && CouponsEvolve(db.coupons, d.coupons)
  {
    PaymentShape(db, n, now);
    var found := FindByTradeNo(db.orders, n.tradeNo);
    if found.Some? && Fulfils(db, n, now, found.value) {
      var o := found.value;
      FulfilPaidShape(db, o, n.channel, now);
      PaymentUsesCouponExactlyWhen(db, o, n.channel, now);
      UseKeepsCoupons(db, Step(db, DoPayment(n, now)), o, now);
    }
  }

  lemma UseKeepsCoupons(db: DB, d: DB, o: nat, now: Time)
    requires CouponsMatch(db.orders, db.coupons)
    requires o < |db.orders| && db.orders[o].status == Pending
    requires d.orders == db.orders[o := Complete(db.orders[o], now)] && |d.coupons| == |db.coupons|
    requires forall c :: 0 <= c < |db.coupons| ==>
               d.coupons[c] ==
               if db.orders[o].coupon == Some(c) && db.coupons[c].user == db.orders[o].user && db.coupons[c].status == Available
               then db.coupons[c].(status := Used, order := Some(o)) else db.coupons[c]
    ensures CouponsMatch(d.orders, d.coupons) && CouponsEvolve(db.coupons, d.coupons)
  {
    forall c | 0 <= c < |d.coupons|
      ensures UsedBy(d.orders, d.coupons, c) && CouponEvolves(db.coupons[c], d.coupons[c])
    {
      assert UsedBy(db.orders, db.coupons, c);
    }
  }

  /** Orders that are completed stay, so used coupons stay matched. */
  lemma BookKeepsCoupons(orders: seq<Order>, orders': seq<Order>, coupons: seq<Coupon>)
    requires CouponsMatch(orders, coupons) && BookEvolves(orders, orders')
    ensures CouponsMatch(orders', coupons)
  {
    forall c | 0 <= c < |coupons| ensures UsedBy(orders', coupons, c) {
      assert UsedBy(orders, coupons, c);
      if coupons[c].order.Some? {
        assert Evolves(orders[coupons[c].order.value], orders'[coupons[c].order.value]);
      }
    }
  }

  lemma OtherStepsKeepCoupons(db: DB, a: Action)
    requires !a.DoPayment? && !a.DoExpireCoupons? && !a.DoGrantCoupon?
    ensures Step(db, a).coupons == db.coupons
  {
    match a
    case DoPlaceOrder(user, req, now, millis) => PlaceOrderFrame(db, user, req, now, millis);
    case DoAutoRenew(s, now, millis) => AutoRenewKeepsCoupons(db, s, now, millis);
    case DoPeriodReset(_, _) => BotFrame(db, a);
    case DoExpire(_, _) => BotFrame(db, a);
    case DoCreateSubKey(_, _, _, _) => TeamFrame(db, a);
    case DoUpdateSubKeyLimit(_, _, _) => TeamFrame(db, a);
    case DoMeter(_, _) => TeamFrame(db, a);
    case DoWithdraw(_, _, _) => CommissionFrame(db, a);
    case DoTransfer(_, _, _) => CommissionFrame(db, a);
    case _ =>
  }

  lemma AutoRenewKeepsCoupons(db: DB, s: nat, now: Time, millis: int)
    ensures Step(db, DoAutoRenew(s, now, millis)).coupons == db.coupons
  {
    if Renews(db, s, now, millis) {
      var d0 := CreateOrderRow(db, BotOrder(db, s, now, millis)).value;
      DeductShape(d0, |db.orders|, Balance);
    }
  }

  lemma StepKeepsCoupons(db: DB, a: Action)
    requires OrdersOk(db.orders) && CouponsMatch(db.orders, db.coupons)
    ensures CouponsMatch(Step(db, a).orders, Step(db, a).coupons)
    ensures CouponsEvolve(db.coupons, Step(db, a).coupons)
  {
    if a.DoPayment? {
      PaymentKeepsCoupons(db, a.notice, a.now);
    } else {
      var d := Step(db, a);
      StepKeepsBook(db, a);
      BookKeepsCoupons(db.orders, d.orders, db.coupons);
      if !a.DoExpireCoupons? && !a.DoGrantCoupon? {
        OtherStepsKeepCoupons(db, a);
      } else {
        forall c | 0 <= c < |d.coupons| ensures UsedBy(d.orders, d.coupons, c) {
          assert c < |db.coupons| ==> UsedBy(d.orders, db.coupons, c);
        }
      }
    }
  }

  lemma {:induction false} RunKeepsCoupons(db: DB, actions: seq<Action>)
    requires OrdersOk(db.orders) && CouponsMatch(db.orders, db.coupons)
    ensures CouponsMatch(Run(db, actions).orders, Run(db, actions).coupons)
    decreases |actions|
  {
    if actions != [] {
      StepKeepsCoupons(db, actions[0]);
      StepKeepsBook(db, actions[0]);
      RunKeepsCoupons(Step(db, actions[0]), actions[1..]);
    }
  }

  /** In every reachable state a coupon is used by exactly the order it names, and an order uses at most one coupon. */
  lemma UsedCouponsHaveOneOrder(db: DB, actions: seq<Action>)
    requires Initial(db)
    ensures var d := Run(db, actions);
            && CouponsMatch(d.orders, d.coupons)
            && forall c, k :: 0 <= c < k < |d.coupons| && d.coupons[c].order.Some? ==>
                 d.coupons[k].order != d.coupons[c].order
  {
    RunKeepsCoupons(db, actions);
    var d := Run(db, actions);
    forall c, k | 0 <= c < k < |d.coupons| && d.coupons[c].order.Some?
      ensures d.coupons[k].order != d.coupons[c].order
    {
      assert UsedBy(d.orders, d.coupons, c) && UsedBy(d.orders, d.coupons, k);
    }
  }

  /** Used and expired are final. */
  lemma {:induction false} SpentCouponIsFinal(db: DB, actions: seq<Action>, c: nat)
    requires OrdersOk(db.orders) && CouponsMatch(db.orders, db.coupons)
    requires c < |db.coupons| && db.coupons[c].status != Available
    ensures c < |Run(db, actions).coupons| && Run(db, actions).coupons[c] == db.coupons[c]
    decreases |actions|
  {
    if actions != [] {
      StepKeepsCoupons(db, actions[0]);
      StepKeepsBook(db, actions[0]);
      assert CouponEvolves(db.coupons[c], Step(db, actions[0]).coupons[c]);
      SpentCouponIsFinal(Step(db, actions[0]), actions[1..], c);
    }
  }

  /**
   Paying an order never looks at whether its coupon is still there: with any other coupon table the payment
   succeeds as well, with the same effect on every other table.  Two orders priced with one coupon can both be paid.
   */
  lemma CouponsDoNotDecidePayment(db: DB, coupons: seq<Coupon>, o: nat, channel: Channel, now: Time)
    requires o < |db.orders| && db.orders[o].product in db.products
    ensures var r, r' := FulfilPaid(db, o, channel, now), FulfilPaid(db.(coupons := coupons), o, channel, now);
            && (r.Success? <==> r'.Success?)
            && (r.Failure? ==> r' == r)
            && (r.Success? ==> r'.value == r.value.(coupons := r'.value.coupons))
  {
    var d0 := db.(orders := db.orders[o := Complete(db.orders[o], now)]);
    var e0 := db.(coupons := coupons, orders := d0.orders);
    var p := db.products[db.orders[o].product];
    FulfilByTypeIgnoresCoupons(d0, e0, o, p, channel, now);
    var d, e := FulfilByType(d0, o, p, channel, now), FulfilByType(e0, o, p, channel, now);
    if d.Success? {
      SettleIgnoresCoupons(d.value, e.value, o);
    }
  }

  lemma SettleIgnoresCoupons(d: DB, e: DB, o: nat)
    requires o < |d.orders| && e == d.(coupons := e.coupons)
    ensures var r, r' := Settle(d, o), Settle(e, o);
            && (r.Failure? ==> r' == r)
            && (r.Success? ==> r'.Success? && r'.value == r.value.(coupons := r'.value.coupons))
  {
    MarkIgnoresCoupons(d, e, o);
    AccrueIgnoresCoupons(MarkCouponUsed(d, o), MarkCouponUsed(e, o), o);
  }

  lemma MarkIgnoresCoupons(d: DB, e: DB, o: nat)
    requires o < |d.orders| && e == d.(coupons := e.coupons)
    ensures MarkCouponUsed(e, o) == MarkCouponUsed(d, o).(coupons := MarkCouponUsed(e, o).coupons)
  {
  }

  lemma FulfilByTypeIgnoresCoupons(d: DB, e: DB, o: nat, p: Product, channel: Channel, now: Time)
    requires o < |d.orders| && e == d.(coupons := e.coupons)
    ensures var r, r' := FulfilByType(d, o, p, channel, now), FulfilByType(e, o, p, channel, now);
            && (r.Failure? ==> r' == r)
            && (r.Success? ==> r'.Success? && r'.value == r.value.(coupons := e.coupons) && |r.value.orders| == |d.orders|)
  {
    DeliverIgnoresCoupons(d, e, o, p, now);
    var x, y := Deliver(d, o, p, now), Deliver(e, o, p, now);
    if x.Success? {
      DeductIgnoresCoupons(x.value, y.value, o, channel);
    }
  }

  lemma DeliverIgnoresCoupons(d: DB, e: DB, o: nat, p: Product, now: Time)
    requires o < |d.orders| && e == d.(coupons := e.coupons)
    ensures var r, r' := Deliver(d, o, p, now), Deliver(e, o, p, now);
            && (r.Failure? ==> r' == r)
            && (r.Success? ==> r'.Success? && r'.value == r.value.(coupons := e.coupons))
  {
  }

  lemma DeductIgnoresCoupons(d: DB, e: DB, o: nat, channel: Channel)
    requires o < |d.orders| && e == d.(coupons := e.coupons)
    ensures var r, r' := Deduct(d, o, channel), Deduct(e, o, channel);
            && (r.Failure? ==> r' == r)
            && (r.Success? ==> r'.Success? && r'.value == r.value.(coupons := e.coupons))
  {
  }

  lemma AccrueIgnoresCoupons(d: DB, e: DB, o: nat)
    requires o < |d.orders| && e == d.(coupons := e.coupons)
    ensures var r, r' := Accrue(d, o), Accrue(e, o);
            && (r.Failure? ==> r' == r)
            && (r.Success? ==> r'.Success? && r'.value == r.value.(coupons := e.coupons))
  {
  }
}
