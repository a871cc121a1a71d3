/**
 Placing an order: which requests are accepted, and what the order that is stored says and costs, told by the
 request and the rows it refers to.
 */
module Placing {
  import opened Common
  import opened Billing
  import opened Money
  import opened Tables
  import opened Engine
  import opened OrderBook

  /** `r` is the fraction `n / d` rounded to the nearest whole number, a half upwards. */
  predicate Rounds(n: int, d: int, r: int) {
    2 * (r * d) - d <= 2 * n < 2 * (r * d) + d
  }

  lemma RoundsIs(n: int, d: int, r: int)
    requires d > 0
    ensures n >= 0 ==> (Rounds(n, d, r) <==> RoundDiv(n, d) == r)
    ensures n <= 0 && r > 0 ==> !Rounds(n, d, r)
  {
    if n >= 0 {
      AtLeastExactly(2 * n + d, 2 * d, r);
      AtLeastExactly(2 * n + d, 2 * d, r + 1);
      assert r * (2 * d) == 2 * (r * d) && (r + 1) * (2 * d) == 2 * (r * d) + 2 * d;
    } else {
      MulKeepsOrder(1, r, d);
    }
  }

  /** What a coupon takes off an order: something, when the order reaches its minimum. */
  ghost predicate TakesOff(coupon: Coupon, subtotal: Cents, off: Cents) {
    && 0 < off <= subtotal && subtotal >= coupon.minOrder
    && match coupon.discount
       case Amount(c) => off == Min(c, subtotal)
       case Percent(h) => if off == subtotal then 2 * (subtotal * h) >= 20000 * subtotal - 10000 else Rounds(subtotal * h, 10000, off)
  }

  /** With an invoice six percent are added and the total rounded to the cent. */
  predicate Charged(total: Cents, amount: Cents, invoice: bool) {
    if invoice then Rounds(106 * amount, 100, total) else total == amount
  }

  /** The total of `qty` units at a price, with at most one coupon. */
  ghost predicate Costs(total: Cents, price: Cents, qty: int, coupon: Option<Coupon>, invoice: bool) {
    var subtotal := price * Max(qty, 0);
    match coupon
    case None => Charged(total, Max(subtotal, 0), invoice)
    case Some(k) => exists off :: TakesOff(k, subtotal, off) && Charged(total, subtotal - off, invoice)
  }

  lemma DiscountIsTaken(coupon: Coupon, subtotal: Cents, off: Cents)
    ensures TakesOff(coupon, subtotal, off) <==> off > 0 && off == DiscountAmount(coupon.discount, coupon.minOrder, subtotal)
  {
    match coupon.discount
    case Amount(_) =>
    case Percent(h) =>
      var n := subtotal * h;
      RoundsIs(n, 10000, off);
      if n >= 0 {
        AtLeastExactly(2 * n + 10000, 20000, subtotal);
      }
  }

  lemma QuotedCosts(price: Cents, qty: int, coupon: Option<Coupon>, invoice: bool)
    ensures var offer := match coupon case None => None case Some(k) => Some((k.discount, k.minOrder));
            var quote := Checkout(price, qty, offer, invoice);
            && (quote.Success? <==> coupon.None? || exists off :: TakesOff(coupon.value, price * Max(qty, 0), off))
            && (quote.Success? ==> Costs(quote.value.total, price, qty, coupon, invoice))
  {
    var subtotal := price * Max(qty, 0);
    assert subtotal == MulQty(price, qty);
    match coupon
    case None =>
      RoundsIs(106 * Max(subtotal, 0), 100, AddInvoiceSurcharge(Max(subtotal, 0), 6));
    case Some(k) =>
      var off := DiscountAmount(k.discount, k.minOrder, subtotal);
      DiscountIsTaken(k, subtotal, off);
      if off > 0 {
        RoundsIs(106 * (subtotal - off), 100, AddInvoiceSurcharge(subtotal - off, 6));
      } else {
        forall other ensures !TakesOff(k, subtotal, other) {
          DiscountIsTaken(k, subtotal, other);
        }
      }
  }

  /** A live subscription of the user. */
  predicate OwnLive(db: DB, user: nat, sub: Option<nat>) {
    && sub.Some? && sub.value < |db.subs|
    && db.subs[sub.value].user == user && db.subs[sub.value].status == Live
  }

  /** Renewals and add-ons are for the product subscribed to, upgrades for a larger one of the same category. */
  predicate MayOrder(db: DB, user: nat, req: OrderRequest) {
    && req.product in db.products && db.products[req.product].onSale
    && match req.orderType
       case Purchase => true
       case Renewal => OwnLive(db, user, req.sub) && db.subs[req.sub.value].product == req.product
       case QuotaAddon => OwnLive(db, user, req.sub) && db.subs[req.sub.value].product == req.product
       case Upgrade =>
         && OwnLive(db, user, req.sub)
         && var p, sub := db.products[req.product], db.subs[req.sub.value];
            && sub.product != req.product && p.limitTokens > sub.limit
            && (p.category == "" || sub.category == "" || p.category == sub.category)
       case Unrecognised => false
  }

  /** The quantity an order is for: an upgrade's is the number of its billing cycles. */
  function QuantityFor(db: DB, user: nat, req: OrderRequest): int
    requires MayOrder(db, user, req)
  {
    if req.orderType == Upgrade
    then UpgradeCycles(db.subs[req.sub.value].periodEnd, db.subs[req.sub.value].expiresAt, Span(db.products[req.product].Days()))
    else req.quantity
  }

  /** An available coupon of the user within its dates. */
  predicate HoldsCoupon(db: DB, user: nat, c: nat, now: Time) {
    && c < |db.coupons|
    && db.coupons[c].user == user && db.coupons[c].status == Available
    && db.coupons[c].validFrom <= now && now <= db.coupons[c].validUntil
  }

  ghost predicate CouponFits(db: DB, user: nat, req: OrderRequest, now: Time)
    requires MayOrder(db, user, req)
  {
    req.coupon.Some? ==>
      && HoldsCoupon(db, user, req.coupon.value, now)
      && exists off :: TakesOff(db.coupons[req.coupon.value], db.products[req.product].price * Max(QuantityFor(db, user, req), 0), off)
  }

  /** Another order has the number, or the payment number, of an order placed now. */
  ghost predicate NumberGone(orders: seq<Order>, user: nat, now: Time, millis: int) {
    exists i :: 0 <= i < |orders|
                && (orders[i].no == OrderNo(false, now, user % 10000) || orders[i].tradeNo == PayNo(1000 * now + millis, user))
  }

  lemma CancelKeepsNumbers(orders: seq<Order>, order: Order)
    ensures NumberTaken(CancelPending(orders, order.user, order.sub, order.orderType), order.no, order.tradeNo)
       <==> NumberTaken(orders, order.no, order.tradeNo)
  {
    var r := CancelPending(orders, order.user, order.sub, order.orderType);
    assert forall i :: 0 <= i < |orders| ==> r[i].no == orders[i].no && r[i].tradeNo == orders[i].tradeNo;
    if NumberTaken(orders, order.no, order.tradeNo) {
      var i :| 0 <= i < |orders| && (orders[i].no == order.no || orders[i].tradeNo == order.tradeNo);
      assert r[i].no == order.no || r[i].tradeNo == order.tradeNo;
    }
  }

  function CouponOf(db: DB, req: OrderRequest): Option<Coupon>
    requires req.coupon.Some? ==> req.coupon.value < |db.coupons|
  {
    match req.coupon case None => None case Some(c) => Some(db.coupons[c])
  }

  /** The order that a request becomes, but for its total. */
  function OrderFor(db: DB, user: nat, req: OrderRequest, now: Time, millis: int, total: Cents): Order
    requires MayOrder(db, user, req) && req.channel.Some?
  {
    Order(OrderNo(false, now, user % 10000), user, req.product, req.orderType,
          if req.orderType == Purchase then None else req.sub, QuantityFor(db, user, req), total, Pending, req.invoice,
          req.channel.value, PayNo(1000 * now + millis, user), req.coupon, None)
  }

  lemma ResolvedExactlyWhen(db: DB, user: nat, req: OrderRequest)
    requires req.product in db.products && db.products[req.product].onSale
    ensures var r := ResolveSubscription(db, user, req, db.products[req.product]);
            && (r.Success? <==> MayOrder(db, user, req))
            && (r.Success? ==> r.value == if req.orderType == Purchase then None else req.sub)
  {
  }

  lemma OfferedExactlyWhen(db: DB, user: nat, coupon: Option<nat>, now: Time)
    ensures var r := CouponOffer(db, user, coupon, now);
            && (r.Success? <==> coupon.None? || HoldsCoupon(db, user, coupon.value, now))
            && (r.Success? ==> r.value == match coupon
                                          case None => None
                                          case Some(c) => Some((db.coupons[c].discount, db.coupons[c].minOrder)))
  {
  }

  /** The order once the request has been found in order, in the terms of the pricing functions. */
  lemma PlacedIs(db: DB, user: nat, req: OrderRequest, now: Time, millis: int)
    requires req.channel.Some? && req.channel != Some(Balance) && MayOrder(db, user, req)
    requires req.coupon.Some? ==> HoldsCoupon(db, user, req.coupon.value, now)
    ensures var offer := CouponOffer(db, user, req.coupon, now);
            var quote := Checkout(db.products[req.product].price, QuantityFor(db, user, req), offer.value, req.invoice);
            && offer.Success?
            && (quote.Failure? ==> PlaceOrder(db, user, req, now, millis).Failure?)
            && (quote.Success? ==>
                  var order := OrderFor(db, user, req, now, millis, quote.value.total);
                  PlaceOrder(db, user, req, now, millis) ==
                  if req.orderType == Purchase then CreateOrderRow(db, order) else CreateOrderReplacingPending(db, order))
  {
    ResolvedExactlyWhen(db, user, req);
    OfferedExactlyWhen(db, user, req.coupon, now);
  }

  /**
   A request is accepted exactly when it names an outside channel, the product and the subscription allow it, the
   coupon, if any, is the user's, in date and takes something off, and the order's numbers are free.
   */
  lemma PlacedExactlyWhen(db: DB, user: nat, req: OrderRequest, now: Time, millis: int)
    ensures PlaceOrder(db, user, req, now, millis).Success? <==>
            && req.channel.Some? && req.channel != Some(Balance)
            && MayOrder(db, user, req) && CouponFits(db, user, req, now)
            && !NumberGone(db.orders, user, now, millis)
  {
    if req.product in db.products && db.products[req.product].onSale {
      ResolvedExactlyWhen(db, user, req);
      OfferedExactlyWhen(db, user, req.coupon, now);
    }
    if req.channel.Some? && req.channel != Some(Balance) && MayOrder(db, user, req)
       && (req.coupon.Some? ==> HoldsCoupon(db, user, req.coupon.value, now))
    {
      var qty := QuantityFor(db, user, req);
      PlacedIs(db, user, req, now, millis);
      QuotedCosts(db.products[req.product].price, qty, CouponOf(db, req), req.invoice);
      var offer := CouponOffer(db, user, req.coupon, now).value;
      var quote := Checkout(db.products[req.product].price, qty, offer, req.invoice);
      if quote.Success? {
        CancelKeepsNumbers(db.orders, OrderFor(db, user, req, now, millis, quote.value.total));
      }
    }
  }

  /** What an accepted request changes: one order is added, and the pending ones of its kind are cancelled. */
  ghost predicate PlacedAsRequested(db: DB, d: DB, user: nat, req: OrderRequest, now: Time, millis: int) {
    var n := |db.orders|;
    && MayOrder(db, user, req) && req.channel.Some?
    && (req.coupon.Some? ==> HoldsCoupon(db, user, req.coupon.value, now))
    && d == db.(orders := d.orders) && |d.orders| == n + 1
    && d.orders[n] == OrderFor(db, user, req, now, millis, d.orders[n].total)
    && Costs(d.orders[n].total, db.products[req.product].price, QuantityFor(db, user, req), CouponOf(db, req), req.invoice)
    && forall i :: 0 <= i < n ==>
         var o := db.orders[i];
         d.orders[i] ==
         if req.orderType != Purchase && o.status == Pending && o.user == user && o.sub == req.sub && o.orderType == req.orderType
         then o.(status := Cancelled) else o
  }

  lemma PlacedOrderIsAsRequested(db: DB, user: nat, req: OrderRequest, now: Time, millis: int)
    requires PlaceOrder(db, user, req, now, millis).Success?
    ensures PlacedAsRequested(db, PlaceOrder(db, user, req, now, millis).value, user, req, now, millis)
  {
    PlacedExactlyWhen(db, user, req, now, millis);
    PlacedIs(db, user, req, now, millis);
    OfferedExactlyWhen(db, user, req.coupon, now);
    QuotedCosts(db.products[req.product].price, QuantityFor(db, user, req), CouponOf(db, req), req.invoice);
  }

  /** An invoice always costs extra on anything that costs more than eight cents. */
  lemma InvoiceCostsExtra(total: Cents, price: Cents, qty: int)
    requires Costs(total, price, qty, None, true) && price > 8 && qty >= 1
    ensures total > price * qty
  {
    MulKeepsOrder(1, qty, price);
    assert price * Max(qty, 0) == qty * price;
  }
}
