/**
 The bot's three handlers: when each acts, and what it does to the rows, told by the rows before and after.
 */
module Handlers {
  import opened Common
  import opened Billing
  import opened Tables
  import opened Engine
  import opened Shapes
  import opened ExactlyOnce
  import opened Ledger
  import opened AutoRenewPhase

  const WEEK: int := 604800

  /** The number the bot would give an order of this second, or its payment number, is in use. */
  ghost predicate RenewalNumberGone(orders: seq<Order>, user: nat, s: nat, now: Time, millis: int) {
    exists i :: 0 <= i < |orders|
                && (orders[i].no == OrderNo(true, now, user % 10000) || orders[i].tradeNo == RenewNo(1000 * now + millis, s))
  }

  /**
   The bot renews a live subscription exactly in the week before expiry, in its last paid period, when the
   owner's wallet covers the price of its product and the order's numbers are free.
   */
  lemma RenewedExactlyWhen(db: DB, s: nat, now: Time, millis: int)
    requires Reconciled(db) && Agrees(db.users, db.flows)
    ensures Renews(db, s, now, millis) <==>
            && s < |db.subs|
            && var sub := db.subs[s];
               && sub.status == Live && sub.expiresAt - WEEK <= now && now < sub.expiresAt && sub.periodEnd == sub.expiresAt
               && sub.product in db.products && sub.user < |db.users|
               && db.products[sub.product].price <= db.users[sub.user].wallet
               && !RenewalNumberGone(db.orders, sub.user, s, now, millis)
  {
    RenewsExactlyWhen(db, s, now, millis);
  }

  /** One period for its price: a completed order of one, expiry one period on, the wallet down by the price. */
  ghost predicate BoughtOnePeriod(db: DB, d: DB, s: nat, now: Time) {
    && s < |db.subs| && db.subs[s].product in db.products && db.subs[s].user < |db.users|
    && var n, sub, p := |db.orders|, db.subs[s], db.products[db.subs[s].product];
       && |d.orders| == n + 1 && d.orders[..n] == db.orders
       && OneForThePrice(d.orders[n], sub, s, p.price, now)
       && d.subs == db.subs[s := sub.(orders := sub.orders + [n], expiresAt := sub.expiresAt + 86400 * p.Days())]
       && |d.keys| == |db.keys|
       && (forall i :: 0 <= i < |db.keys| ==>
             d.keys[i] == if db.keys[i].sub == s && db.keys[i].status != KeyRotated then db.keys[i].(status := KeyActive) else db.keys[i])
       && |d.users| == |db.users|
       && forall u :: 0 <= u < |db.users| ==> d.users[u].wallet == db.users[u].wallet - if u == sub.user then p.price else 0
  }

  predicate OneForThePrice(order: Order, sub: Subscription, s: nat, price: int, now: Time) {
    && order.orderType == Renewal && order.quantity == 1 && order.total == price
    && order.user == sub.user && order.product == sub.product && order.sub == Some(s)
    && order.status == Completed && order.paidAt == Some(now) && order.channel == Balance
    && order.coupon.None? && !order.invoice
    && order.no == OrderNo(true, now, sub.user % 10000)
  }

  /** A renewal by the bot buys one period at the catalogue price; a handler that does not renew changes nothing. */
  lemma RenewalBuysOnePeriod(db: DB, s: nat, now: Time, millis: int)
    ensures var d := Step(db, DoAutoRenew(s, now, millis));
            if Renews(db, s, now, millis) then BoughtOnePeriod(db, d, s, now) else d == db
  {
    if Renews(db, s, now, millis) {
      RenewsShape(db, s, now, millis);
    } else {
      NoRenewalNoChange(db, s, now, millis);
    }
  }

  // Period reset

  /** Past the end of a period, with paid time left after it. */
  predicate NewPeriodBegun(db: DB, s: nat, now: Time) {
    && s < |db.subs| && db.subs[s].status == Live
    && db.subs[s].periodEnd < now && db.subs[s].periodEnd < db.subs[s].expiresAt
    && db.subs[s].product in db.products
  }

  /** The next period follows the last without a gap; quota and usage start afresh, sub keys keep their limits. */
  ghost predicate PeriodTurned(db: DB, d: DB, s: nat) {
    && s < |db.subs| && db.subs[s].product in db.products
    && var sub := db.subs[s];
       && d == db.(subs := d.subs, keys := d.keys)
       && d.subs == db.subs[s := sub.(periodStart := sub.periodEnd,
                                      periodEnd := sub.periodEnd + 86400 * db.products[sub.product].Days(),
                                      limit := sub.base, used := 0)]
       && |d.keys| == |db.keys|
       && forall i :: 0 <= i < |db.keys| ==>
            var k := db.keys[i];
            d.keys[i] ==
            if k.sub != s || k.status == KeyRotated then k
            else if k.keyType == Main then k.(limit := sub.base, used := 0)
            else k.(used := 0)
  }

  lemma ResetTurnsPeriod(db: DB, s: nat, now: Time)
    ensures var d := Step(db, DoPeriodReset(s, now));
            if NewPeriodBegun(db, s, now) then PeriodTurned(db, d, s) else d == db
  {
  }

  // Expiry

  ghost predicate Ended(db: DB, d: DB, s: nat) {
    && s < |db.subs|
    && d == db.(subs := d.subs, keys := d.keys)
    && d.subs == db.subs[s := db.subs[s].(status := Lapsed)]
    && |d.keys| == |db.keys|
    && forall i :: 0 <= i < |db.keys| ==>
         d.keys[i] == if db.keys[i].sub == s && db.keys[i].status != KeyRotated then db.keys[i].(status := KeyExpired) else db.keys[i]
  }

  /** A live subscription ends, with its keys, at the first handler after expiry. */
  lemma ExpiryEnds(db: DB, s: nat, now: Time)
    ensures var d := Step(db, DoExpire(s, now));
            if s < |db.subs| && db.subs[s].status == Live && db.subs[s].expiresAt < now then Ended(db, d, s) else d == db
  {
  }
}
