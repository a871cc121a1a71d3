/**
 How a step changes the tables, in the form the invariants use: which rows are appended and which one is rewritten.
 */
module Shapes {
  import opened Common
  import opened Tables
  import opened Engine

  /** The notification that pays order `o` finds it pending and succeeds. */
  predicate Fulfils(db: DB, n: Notice, now: int, o: nat) {
    && !HasCallback(db.callbacks, n.channel, n.key)
    && FindByTradeNo(db.orders, n.tradeNo) == Some(o)
    && o < |db.orders| && db.orders[o].status == Pending
    && db.orders[o].product in db.products
    && FulfilPaid(db, o, n.channel, now).Success?
  }

  /** The bot's renewal goes through, rather than finding nothing to do or failing. */
  predicate Renews(db: DB, s: nat, now: int, millis: int) {
    && s < |db.subs| && RenewalDue(db.subs[s], now)
    && db.subs[s].product in db.products
    && db.subs[s].user < |db.users| && db.users[db.subs[s].user].wallet >= db.products[db.subs[s].product].price
    && AutoRenew(db, s, now, millis).Success?
  }

  predicate Resets(db: DB, s: nat, now: int) {
    s < |db.subs| && ResetDue(db.subs[s], now) && db.subs[s].product in db.products
  }

  predicate Expires(db: DB, s: nat, now: int) {
    s < |db.subs| && ExpiryDue(db.subs[s], now)
  }

  /** The bot's order for subscription `s`. */
  function BotOrder(db: DB, s: nat, now: int, millis: int): Order
    requires s < |db.subs| && db.subs[s].product in db.products
  {
    RenewalOrder(s, db.subs[s], db.products[db.subs[s].product].price, now, millis)
  }

  /** The state in which a paid order's goods are delivered. */
  function Delivered(db: DB, o: nat, now: int): DB
    requires o < |db.orders| && db.orders[o].product in db.products
  {
    var d0 := db.(orders := db.orders[o := Complete(db.orders[o], now)]);
    var r := Deliver(d0, o, db.products[db.orders[o].product], now);
    if r.Success? then r.value else d0
  }

  predicate PayFlow(f: Flow, o: nat, order: Order) {
    f.flowType == Pay && f.ref == OrderRef(o) && f.user == order.user && f.amount == -order.total
  }

  predicate RecordOf(users: seq<User>, r: Record, o: nat, order: Order) {
    && r.order == o && r.orderAmount == order.total && r.invitee == order.user
    && InviterOf(users, order.user) == Some(r.inviter)
    && r.rate > 0 && r.rebate == Rebate(r.orderAmount, r.rate) > 0
  }

  predicate SameFamily(users: seq<User>, users': seq<User>) {
    |users| <= |users'| && forall u :: 0 <= u < |users| ==> users'[u].parent == users[u].parent
  }

  /** One payment flow is appended and, when the buyer has an inviter to reward, one record with its flow. */
  ghost predicate PaysOnce(db: DB, d: DB, o: nat, order: Order) {
    && |d.flows| > |db.flows| && d.flows[..|db.flows|] == db.flows
    && PayFlow(d.flows[|db.flows|], o, order)
    && d.withdrawals == db.withdrawals
    && |d.users| == |db.users| && SameFamily(db.users, d.users)
    && (|| (|d.flows| == |db.flows| + 1 && d.records == db.records)
        || (&& |d.flows| == |db.flows| + 2
            && |d.records| == |db.records| + 1 && d.records[..|db.records|] == db.records
            && !HasRecord(db.records, o)
            && var r := d.records[|db.records|];
               var f := d.flows[|db.flows| + 1];
               && RecordOf(db.users, r, o, order)
               && f.flowType == Commission && f.ref == RecordRef(|db.records|) && f.user == r.inviter && f.amount == r.rebate
               && d.users[r.inviter].commission == db.users[r.inviter].commission + r.rebate))
    && forall u :: 0 <= u < |db.users| && (|d.records| == |db.records| || u != d.records[|db.records|].inviter) ==>
         d.users[u].commission == db.users[u].commission
  }

  lemma DeductShape(db: DB, o: nat, channel: Channel)
    requires o < |db.orders| && Deduct(db, o, channel).Success?
    ensures var d := Deduct(db, o, channel).value;
            && d == db.(users := d.users, flows := d.flows)
            && |d.flows| == |db.flows| + 1 && d.flows[..|db.flows|] == db.flows
            && PayFlow(d.flows[|db.flows|], o, db.orders[o])
            && !HasFlow(db.flows, Pay, OrderRef(o))
            && |d.users| == |db.users|
            && forall u :: 0 <= u < |db.users| ==>
                 d.users[u] == if u == db.orders[o].user && channel == Balance
                               then db.users[u].(wallet := db.users[u].wallet - db.orders[o].total) else db.users[u]
  {
  }

  lemma AccrueShape(db: DB, o: nat)
    requires o < |db.orders| && Accrue(db, o).Success?
    ensures var d := Accrue(db, o).value;
            && d == db.(users := d.users, flows := d.flows, records := d.records)
            && (d != db ==>
                  && |d.flows| == |db.flows| + 1 && d.flows[..|db.flows|] == db.flows
                  && |d.records| == |db.records| + 1 && d.records[..|db.records|] == db.records
                  && !HasRecord(db.records, o)
                  && var r := d.records[|db.records|];
                     var f := d.flows[|db.flows|];
                     && RecordOf(db.users, r, o, db.orders[o])
                     && f.flowType == Commission && f.ref == RecordRef(|db.records|) && f.user == r.inviter && f.amount == r.rebate
                     && d.users == db.users[r.inviter := db.users[r.inviter].(commission := db.users[r.inviter].commission + r.rebate)])
  {
  }

  /** Taking the payment and then crediting the inviter, with other tables changed in between. */
  lemma ChargeShape(db: DB, mid: DB, o: nat, channel: Channel)
    requires o < |db.orders| && Deduct(db, o, channel).Success?
    requires var x := Deduct(db, o, channel).value;
             mid.users == x.users && mid.flows == x.flows && mid.records == x.records
             && mid.withdrawals == x.withdrawals && mid.orders == x.orders
    requires Accrue(mid, o).Success?
    ensures PaysOnce(db, Accrue(mid, o).value, o, db.orders[o])
    ensures forall u :: 0 <= u < |db.users| ==>
              Accrue(mid, o).value.users[u].wallet ==
              db.users[u].wallet - if u == db.orders[o].user && channel == Balance then db.orders[o].total else 0
  {
    DeductShape(db, o, channel);
    AccrueShape(mid, o);
    SameInviter(db.users, mid.users, db.orders[o].user);
  }

  /** A payment that goes through is delivery, charge, coupon, rebate and invoice, one after the other. */
  lemma FulfilPaidStages(db: DB, o: nat, channel: Channel, now: int)
    requires o < |db.orders| && db.orders[o].product in db.products
    requires FulfilPaid(db, o, channel, now).Success?
    ensures var d0 := db.(orders := db.orders[o := Complete(db.orders[o], now)]);
            var delivered := Deliver(d0, o, db.products[db.orders[o].product], now);
            && delivered.Success? && delivered.value.orders == d0.orders && delivered.value == d0.(subs := delivered.value.subs, keys := delivered.value.keys)
            && Deduct(delivered.value, o, channel).Success?
            && FulfilPaid(db, o, channel, now) == Settle(Deduct(delivered.value, o, channel).value, o)
            && var marked := MarkCouponUsed(Deduct(delivered.value, o, channel).value, o);
               && |marked.orders| == |db.orders| && Accrue(marked, o).Success?
               && Accrue(marked, o).value.orders == d0.orders
               && FulfilPaid(db, o, channel, now) == Success(CreateInvoice(Accrue(marked, o).value, o))
  {
  }

  lemma FulfilPaidShape(db: DB, o: nat, channel: Channel, now: int)
    requires o < |db.orders| && db.orders[o].product in db.products
    requires FulfilPaid(db, o, channel, now).Success?
    ensures var d := FulfilPaid(db, o, channel, now).value;
            && d.orders == db.orders[o := Complete(db.orders[o], now)]
            && d.subs == Delivered(db, o, now).subs && d.keys == Delivered(db, o, now).keys
            && d.products == db.products && d.members == db.members && d.callbacks == db.callbacks
            && Deliver(db.(orders := d.orders), o, db.products[db.orders[o].product], now).Success?
            && PaysOnce(db, d, o, d.orders[o])
  {
    var d0 := db.(orders := db.orders[o := Complete(db.orders[o], now)]);
    var d1 := Deliver(d0, o, db.products[db.orders[o].product], now).value;
    FulfilPaidStages(db, o, channel, now);
    DeductShape(d1, o, channel);
    var marked := MarkCouponUsed(Deduct(d1, o, channel).value, o);
    AccrueShape(marked, o);
    ChargeShape(d1, marked, o, channel);
    PaysOnceFrame(d1, Accrue(marked, o).value, db, FulfilPaid(db, o, channel, now).value, o, d0.orders[o]);
  }

  lemma PaysOnceFrame(db: DB, d: DB, db': DB, d': DB, o: nat, order: Order)
    requires PaysOnce(db, d, o, order)
    requires db'.users == db.users && db'.flows == db.flows && db'.records == db.records && db'.withdrawals == db.withdrawals
    requires d'.users == d.users && d'.flows == d.flows && d'.records == d.records && d'.withdrawals == d.withdrawals
    ensures PaysOnce(db', d', o, order)
  {
  }

  lemma SameInviter(users: seq<User>, users': seq<User>, buyer: nat)
    requires |users'| == |users| && SameFamily(users, users')
    ensures InviterOf(users', buyer) == InviterOf(users, buyer)
  {
  }

  lemma RenewsShape(db: DB, s: nat, now: int, millis: int)
    requires Renews(db, s, now, millis)
    ensures var d := AutoRenew(db, s, now, millis).value;
            var o := |db.orders|;
            var order := BotOrder(db, s, now, millis);
            && d.orders == db.orders + [order]
            && d.subs == db.subs[s := RenewedSub(db.subs[s], order, o, db.products[db.subs[s].product], now)]
            && d.keys == UpdateWhere(db.keys, s, Reactivate)
            && d.products == db.products && d.members == db.members && d.callbacks == db.callbacks
            && !NumberTaken(db.orders, order.no, order.tradeNo)
            && PaysOnce(db, d, o, order)
            && forall u :: 0 <= u < |db.users| ==>
                 d.users[u].wallet == db.users[u].wallet - if u == order.user then order.total else 0
  {
    var order := BotOrder(db, s, now, millis);
    var p := db.products[db.subs[s].product];
    var d0 := CreateOrderRow(db, order).value;
    var o := |db.orders|;
    var d2 := DeliverRenewal(Deduct(d0, o, Balance).value, o, p, now).value;
    ChargeShape(d0, d2, o, Balance);
    var d := Accrue(d2, o).value;
    assert d == AutoRenew(db, s, now, millis).value;
    PaysOnceFrame(d0, d, db, d, o, order);
  }

  /** Whatever does not renew leaves the database alone. */
  lemma NoRenewalNoChange(db: DB, s: nat, now: int, millis: int)
    requires !Renews(db, s, now, millis)
    ensures Step(db, DoAutoRenew(s, now, millis)) == db
  {
  }

  /** A payment step either fulfils one order, or at most notes the notification. */
  lemma PaymentShape(db: DB, n: Notice, now: int)
    ensures var d := Step(db, DoPayment(n, now));
            var o := FindByTradeNo(db.orders, n.tradeNo);
            if o.Some? && Fulfils(db, n, now, o.value) then
              d == FulfilPaid(db, o.value, n.channel, now).value.(callbacks := d.callbacks)
            else d == db.(callbacks := d.callbacks)
  {
  }

  // Which steps can touch which tables

  lemma PlaceOrderFrame(db: DB, user: nat, req: OrderRequest, now: int, millis: int)
    ensures var d := Step(db, DoPlaceOrder(user, req, now, millis)); d == db.(orders := d.orders)
  {
  }

  lemma BotFrame(db: DB, a: Action)
    requires a.DoPeriodReset? || a.DoExpire?
    ensures var d := Step(db, a); d == db.(subs := d.subs, keys := d.keys)
  {
  }

  lemma TeamFrame(db: DB, a: Action)
    requires a.DoCreateSubKey? || a.DoUpdateSubKeyLimit? || a.DoMeter?
    ensures var d := Step(db, a); d == db.(keys := d.keys)
  {
  }

  lemma CommissionFrame(db: DB, a: Action)
    requires a.DoWithdraw? || a.DoTransfer?
    ensures var d := Step(db, a);
            && d == db.(users := d.users, flows := d.flows, withdrawals := d.withdrawals)
            && (a.DoTransfer? ==> d.withdrawals == db.withdrawals)
  {
  }

  predicate FromOutside(a: Action) {
    a.DoExpireCoupons? || a.DoAddTeamMember? || a.DoRegister? || a.DoSetVip? || a.DoSettings? || a.DoGrantCoupon?
  }

  lemma OutsideFrame(db: DB, a: Action)
    requires FromOutside(a)
    ensures var d := Step(db, a);
            && d == db.(users := d.users, members := d.members, coupons := d.coupons, products := d.products,
                        tiers := d.tiers, defaultTier := d.defaultTier)
            && (!a.DoSettings? ==> d.products == db.products)
  {
  }

  lemma StepFrame(db: DB, a: Action)
    ensures var d := Step(db, a);
            && (!a.DoPlaceOrder? && !a.DoPayment? && !a.DoAutoRenew? ==> d.orders == db.orders)
            && (!a.DoPayment? && !a.DoAutoRenew? && !a.DoPeriodReset? && !a.DoExpire? ==> d.subs == db.subs)
            && (!a.DoPayment? && !a.DoAutoRenew? ==> d.records == db.records)
            && (!a.DoPayment? && !a.DoAutoRenew? && !a.DoWithdraw? && !a.DoTransfer? ==> d.flows == db.flows)
            && (!a.DoWithdraw? ==> d.withdrawals == db.withdrawals || a.DoPayment? || a.DoAutoRenew?)
            && (!a.DoPayment? && !a.DoAutoRenew? ==> d.callbacks == db.callbacks)
            && (!a.DoSettings? && !a.DoPayment? && !a.DoAutoRenew? ==> d.products == db.products)
  {
    match a
    case DoPlaceOrder(user, req, now, millis) => PlaceOrderFrame(db, user, req, now, millis);
    case DoPayment(_, _) =>
    case DoAutoRenew(_, _, _) =>
    case DoPeriodReset(_, _) => BotFrame(db, a);
    case DoExpire(_, _) => BotFrame(db, a);
    case DoCreateSubKey(_, _, _, _) => TeamFrame(db, a);
    case DoUpdateSubKeyLimit(_, _, _) => TeamFrame(db, a);
    case DoMeter(_, _) => TeamFrame(db, a);
    case DoWithdraw(_, _, _) => CommissionFrame(db, a);
    case DoTransfer(_, _, _) => CommissionFrame(db, a);
    case _ => OutsideFrame(db, a);
  }

  lemma KeyFrame(db: DB, a: Action)
    requires a.DoPlaceOrder? || a.DoWithdraw? || a.DoTransfer? || FromOutside(a)
    ensures Step(db, a).keys == db.keys
  {
    match a
    case DoPlaceOrder(user, req, now, millis) => PlaceOrderFrame(db, user, req, now, millis);
    case DoWithdraw(_, _, _) => CommissionFrame(db, a);
    case DoTransfer(_, _, _) => CommissionFrame(db, a);
    case _ => OutsideFrame(db, a);
  }
}
