/**
 Paying for an order: which notifications are accepted, what the buyer gets for the money, and what the inviter
 earns, told by the order and the rows it refers to.
 */
module Payments {
  import opened Common
  import opened Billing
  import opened Money
  import opened Tables
  import opened Engine
  import opened Shapes
  import opened OrderBook
  import opened ExactlyOnce
  import opened Ledger
  import opened AutoRenewPhase
  import opened Placing

  // Which payments go through

  /** The subscription an order is for, owned by the buyer. */
  predicate ForOwn(db: DB, order: Order) {
    order.sub.Some? && order.sub.value < |db.subs| && db.subs[order.sub.value].user == order.user
  }

  /** What each type of order needs to find when it is paid: an upgrade may be for a lapsed subscription. */
  predicate Deliverable(db: DB, order: Order) {
    match order.orderType
    case Purchase => true
    case Renewal => ForOwn(db, order) && db.subs[order.sub.value].product == order.product && db.subs[order.sub.value].status == Live
    case Upgrade => ForOwn(db, order)
    case QuotaAddon => ForOwn(db, order) && db.subs[order.sub.value].status == Live
    case Unrecognised => false
  }

  predicate Affordable(db: DB, order: Order, channel: Channel) {
    channel == Balance ==> order.user < |db.users| && order.total <= db.users[order.user].wallet
  }

  lemma DeliveredExactlyWhen(db: DB, o: nat, p: Product, now: Time)
    requires o < |db.orders|
    ensures Deliver(db, o, p, now).Success? <==> Deliverable(db, db.orders[o])
  {
  }

  lemma ChargedExactlyWhen(db: DB, o: nat, channel: Channel)
    requires o < |db.orders| && !HasFlow(db.flows, Pay, OrderRef(o))
    ensures Deduct(db, o, channel).Success? <==> Affordable(db, db.orders[o], channel)
  {
  }

  /** A pending order is fulfilled exactly when it can be delivered and paid for. */
  lemma FulfilledExactlyWhen(db: DB, o: nat, channel: Channel, now: Time)
    requires Reconciled(db) && Agrees(db.users, db.flows)
    requires o < |db.orders| && db.orders[o].status == Pending && db.orders[o].product in db.products
    ensures FulfilPaid(db, o, channel, now).Success? <==>
            Deliverable(db, db.orders[o]) && Affordable(db, db.orders[o], channel)
  {
    var d0 := db.(orders := db.orders[o := Complete(db.orders[o], now)]);
    var p := db.products[db.orders[o].product];
    DeliveredExactlyWhen(d0, o, p, now);
    var delivered := Deliver(d0, o, p, now);
    if delivered.Success? {
      UnpaidHasNoFlow(db, o);
      ChargedExactlyWhen(delivered.value, o, channel);
      if Deduct(delivered.value, o, channel).Success? {
        DeductShape(delivered.value, o, channel);
        DeductKeepsAgreement(delivered.value, o, channel);
        AccrueSucceeds(db, MarkCouponUsed(Deduct(delivered.value, o, channel).value, o), o);
      }
    }
  }

  lemma UnpaidHasNoFlow(db: DB, o: nat)
    requires Reconciled(db) && o < |db.orders| && db.orders[o].status == Pending
    ensures !HasFlow(db.flows, Pay, OrderRef(o)) && !HasRecord(db.records, o)
  {
  }

  /** The order a payment number belongs to. */
  predicate Bears(db: DB, o: nat, tradeNo: TradeNo) {
    o < |db.orders| && db.orders[o].tradeNo == tradeNo
  }

  /** A notification with this key came through this channel before. */
  ghost predicate Noted(db: DB, channel: Channel, key: IdemKey) {
    exists i :: 0 <= i < |db.callbacks| && db.callbacks[i].channel == channel && db.callbacks[i].key == key
  }

  /** Completed already, or pending and able to be delivered and paid for through the channel. */
  predicate Settleable(db: DB, order: Order, channel: Channel) {
    || order.status == Completed
    || (&& order.status == Pending && order.product in db.products
        && Deliverable(db, order) && Affordable(db, order, channel))
  }

  /** A payment notification is accepted exactly when it was noted before or its order can be settled. */
  lemma PaymentAcceptedExactlyWhen(db: DB, n: Notice, now: Time)
    requires Reconciled(db) && Agrees(db.users, db.flows)
    ensures ApplyPayment(db, n, now).Success? <==>
            || Noted(db, n.channel, n.key)
            || exists o: nat :: Bears(db, o, n.tradeNo) && Settleable(db, db.orders[o], n.channel)
  {
    var found := FindByTradeNo(db.orders, n.tradeNo);
    forall o: nat | Bears(db, o, n.tradeNo) ensures found == Some(o) {
      TradeNoFindsItsOrder(db.orders, o);
    }
    if found.Some? {
      var o := found.value;
      assert Bears(db, o, n.tradeNo);
      if db.orders[o].status == Pending && db.orders[o].product in db.products {
        FulfilledExactlyWhen(db, o, n.channel, now);
      }
    }
  }

  /** A notification that does not report success is refused, whatever it names. */
  lemma OnlySuccessIsHandled(db: DB, channel: Option<Channel>, tradeNo: TradeNo, now: Time)
    ensures HandlePaymentNotify(db, channel, tradeNo, false, now) == Failure(ParamsError)
  {
  }

  /**
   The service accepts a notification exactly when it reports success through an outside channel, names by its
   payment number an order placed for that channel, and either came before or finds the order settled or able to be.
   */
  lemma NotificationAcceptedExactlyWhen(db: DB, channel: Option<Channel>, tradeNo: TradeNo, succeeded: bool, now: Time)
    requires Reconciled(db) && Agrees(db.users, db.flows)
    ensures HandlePaymentNotify(db, channel, tradeNo, succeeded, now).Success? <==>
            && succeeded && channel.Some? && channel != Some(Balance)
            && exists o: nat ::
                 && Bears(db, o, tradeNo) && db.orders[o].channel == channel.value
                 && (Noted(db, channel.value, IdemKey(channel.value, tradeNo)) || Settleable(db, db.orders[o], channel.value))
  {
    var found := FindByTradeNo(db.orders, tradeNo);
    forall o: nat | Bears(db, o, tradeNo) ensures found == Some(o) {
      TradeNoFindsItsOrder(db.orders, o);
    }
    if found.Some? {
      assert Bears(db, found.value, tradeNo);
    }
    if channel.Some? {
      PaymentAcceptedExactlyWhen(db, Notice(channel.value, tradeNo, IdemKey(channel.value, tradeNo)), now);
    }
  }

  // What the buyer gets

  /** When `qty` periods of a product that begin at an instant end; at least one period is given. */
  function EndOf(start: Time, p: Product, qty: int): Time {
    start + 86400 * p.Days() * (if qty < 1 then 1 else qty)
  }

  lemma EndOfPeriods(start: Time, p: Product, qty: int)
    ensures PeriodsAfter(start, p.Days(), Max(qty, 1)) == EndOf(start, p, qty)
  {
    assert Span(p.Days()) == 86400 * p.Days();
  }

  /** The rows of one subscription's keys, but for those rotated away, are rewritten and no others. */
  ghost predicate KeysBecome(keys: seq<Key>, keys': seq<Key>, s: nat, f: Key -> Key) {
    && |keys'| == |keys|
    && forall i :: 0 <= i < |keys| ==>
         keys'[i] == if keys[i].sub == s && keys[i].status != KeyRotated then f(keys[i]) else keys[i]
  }

  /** A purchase opens a subscription of one long period and gives it a main key. */
  ghost predicate Opened(db: DB, d: DB, o: nat, order: Order, p: Product, now: Time) {
    var n, k := |db.subs|, |db.keys|;
    && |d.subs| == n + 1 && d.subs[..n] == db.subs && |d.keys| == k + 1 && d.keys[..k] == db.keys
    && var s := d.subs[n];
       && s.user == order.user && s.product == order.product && s.category == p.category && s.orders == [o]
       && s.base == s.limit == p.limitTokens * order.quantity && s.used == 0 && s.status == Live
       && s.startedAt == s.periodStart == now && s.periodEnd == s.expiresAt == EndOf(now, p, order.quantity)
       && var key := d.keys[k];
          && key.user == order.user && key.owner == (if order.user in db.members then db.members[order.user] else order.user)
          && key.sub == n && key.keyType == Main && key.category == p.category
          && key.limit == s.limit && key.used == 0 && key.status == KeyActive
  }

  /** A renewal moves expiry only: on from expiry, or from now when that has passed. */
  ghost predicate Extended(db: DB, d: DB, o: nat, order: Order, p: Product, now: Time) {
    && ForOwn(db, order)
    && var s := order.sub.value;
       && d.subs == db.subs[s := db.subs[s].(orders := db.subs[s].orders + [o],
                                             expiresAt := EndOf(Max(now, db.subs[s].expiresAt), p, order.quantity))]
       && KeysBecome(db.keys, d.keys, s, (k: Key) => k.(status := KeyActive))
  }

  /** An upgrade replaces the product and quotas; a lapsed subscription also starts again, its usage forgotten. */
  ghost predicate Regraded(db: DB, d: DB, o: nat, order: Order, p: Product, now: Time) {
    && ForOwn(db, order)
    && var s := order.sub.value;
       var lapsed := db.subs[s].status == Lapsed;
       && |d.subs| == |db.subs| && (forall i :: 0 <= i < |db.subs| && i != s ==> d.subs[i] == db.subs[i])
       && SubRegraded(db.subs[s], d.subs[s], o, order, p, now)
       && KeysBecome(db.keys, d.keys, s, (k: Key) =>
            k.(status := KeyActive, limit := p.limitTokens, category := p.category, used := if lapsed then 0 else k.used))
  }

  predicate SubRegraded(sub: Subscription, r: Subscription, o: nat, order: Order, p: Product, now: Time) {
    && r.user == sub.user && r.product == order.product && r.category == p.category && r.orders == sub.orders + [o]
    && r.base == r.limit == p.limitTokens && r.status == Live
    && (sub.status == Lapsed ==>
          r.used == 0 && r.startedAt == r.periodStart == now && r.periodEnd == r.expiresAt == EndOf(now, p, order.quantity))
    && (sub.status == Live ==>
          && r.used == sub.used && r.startedAt == sub.startedAt && r.expiresAt == sub.expiresAt
          && r.periodStart == sub.periodStart && r.periodEnd == sub.periodEnd)
  }

  /** An add-on raises the quota of the subscription and of each of its keys, and leaves the base quota. */
  ghost predicate ToppedUp(db: DB, d: DB, order: Order, p: Product) {
    && ForOwn(db, order)
    && var s := order.sub.value;
       && d.subs == db.subs[s := db.subs[s].(limit := db.subs[s].limit + p.limitTokens)]
       && KeysBecome(db.keys, d.keys, s, (k: Key) => k.(limit := k.limit + p.limitTokens))
  }

  ghost predicate Receives(db: DB, d: DB, o: nat, order: Order, p: Product, now: Time) {
    match order.orderType
    case Purchase => Opened(db, d, o, order, p, now)
    case Renewal => Extended(db, d, o, order, p, now)
    case Upgrade => Regraded(db, d, o, order, p, now)
    case QuotaAddon => ToppedUp(db, d, order, p)
    case Unrecognised => false
  }

  lemma DeliveredIsReceived(db: DB, o: nat, p: Product, now: Time)
    requires o < |db.orders| && Deliver(db, o, p, now).Success?
    ensures Receives(db, Deliver(db, o, p, now).value, o, db.orders[o], p, now)
  {
    var order := db.orders[o];
    EndOfPeriods(now, p, order.quantity);
    if order.orderType == Renewal {
      EndOfPeriods(Max(now, db.subs[order.sub.value].expiresAt), p, order.quantity);
    }
  }

  /** The order is completed, and one flow notes the payment; only the balance channel touches the wallet. */
  ghost predicate PaidFor(db: DB, d: DB, o: nat, channel: Channel, now: Time) {
    && o < |db.orders|
    && var order := db.orders[o];
       && d.orders == db.orders[o := order.(status := Completed, paidAt := Some(now))]
       && |d.flows| > |db.flows| && d.flows[..|db.flows|] == db.flows
       && |d.users| == |db.users|
       && (forall u :: 0 <= u < |db.users| ==>
             d.users[u].wallet == db.users[u].wallet - if channel == Balance && u == order.user then order.total else 0)
       && (channel == Balance ==> order.user < |db.users|)
       && d.flows[|db.flows|] == Flow(order.user, Pay, -order.total,
                                      if channel == Balance then Some(d.users[order.user].wallet) else None, OrderRef(o))
       && d.invoices == db.invoices + if order.invoice then [Invoice(o, order.user, order.total)] else []
  }

  lemma ChargeIs(db: DB, o: nat, channel: Channel)
    requires o < |db.orders| && Deduct(db, o, channel).Success?
    ensures channel == Balance ==> db.orders[o].user < |db.users|
    ensures var d := Deduct(db, o, channel).value;
            var order := db.orders[o];
            d.flows == db.flows + [Flow(order.user, Pay, -order.total,
                                        if channel == Balance then Some(db.users[order.user].wallet - order.total) else None, OrderRef(o))]
  {
  }

  lemma FulfilmentIsPaidFor(db: DB, o: nat, channel: Channel, now: Time)
    requires o < |db.orders| && db.orders[o].product in db.products && FulfilPaid(db, o, channel, now).Success?
    ensures PaidFor(db, FulfilPaid(db, o, channel, now).value, o, channel, now)
  {
    var order := Complete(db.orders[o], now);
    var d0 := db.(orders := db.orders[o := order]);
    FulfilPaidStages(db, o, channel, now);
    var d1 := Deliver(d0, o, db.products[order.product], now).value;
    ChargeIs(d1, o, channel);
    DeductShape(d1, o, channel);
    SettlingIs(Deduct(d1, o, channel).value, o);
  }

  /** After delivery and payment the wallets, orders, subscriptions and keys stay, flows only grow. */
  lemma SettlingIs(db: DB, o: nat)
    requires o < |db.orders| && Settle(db, o).Success?
    ensures var d := Settle(db, o).value;
            && d.orders == db.orders && d.subs == db.subs && d.keys == db.keys
            && |d.flows| >= |db.flows| && d.flows[..|db.flows|] == db.flows
            && |d.users| == |db.users| && (forall u :: 0 <= u < |db.users| ==> d.users[u].wallet == db.users[u].wallet)
            && d.invoices == db.invoices + if db.orders[o].invoice then [Invoice(o, db.orders[o].user, db.orders[o].total)] else []
  {
    AccrueShape(MarkCouponUsed(db, o), o);
  }

  /** A fulfilled order: the buyer receives what was ordered and has paid for it. */
  lemma FulfilmentIs(db: DB, o: nat, channel: Channel, now: Time)
    requires o < |db.orders| && db.orders[o].product in db.products && FulfilPaid(db, o, channel, now).Success?
    ensures var d := FulfilPaid(db, o, channel, now).value;
            PaidFor(db, d, o, channel, now) && Receives(db, d, o, db.orders[o], db.products[db.orders[o].product], now)
  {
    FulfilmentIsPaidFor(db, o, channel, now);
    var order := Complete(db.orders[o], now);
    var d0 := db.(orders := db.orders[o := order]);
    var p := db.products[order.product];
    FulfilPaidShape(db, o, channel, now);
    DeliveredIsReceived(d0, o, p, now);
    TermsSurvive(db, d0, FulfilPaid(db, o, channel, now).value, Deliver(d0, o, p, now).value, o, order, p, now);
  }

  /** What is received depends on the subscriptions, keys and members, and on the terms of the order. */
  lemma TermsSurvive(db: DB, d0: DB, d: DB, d1: DB, o: nat, order: Order, p: Product, now: Time)
    requires o < |db.orders| && order == Complete(db.orders[o], now)
    requires d0 == db.(orders := d0.orders) && d.subs == d1.subs && d.keys == d1.keys
    requires Receives(d0, d1, o, order, p, now)
    ensures Receives(db, d, o, db.orders[o], p, now)
  {
  }

  /** A payment step that fulfils an order: the outcome, and the notification noted under its channel and key. */
  lemma PaymentDelivers(db: DB, n: Notice, now: Time, o: nat)
    requires Fulfils(db, n, now, o)
    ensures var d := Step(db, DoPayment(n, now));
            && PaidFor(db, d, o, n.channel, now)
            && Receives(db, d, o, db.orders[o], db.products[db.orders[o].product], now)
            && d.callbacks == db.callbacks + [Callback(n.channel, n.key, false)]
  {
    FulfilmentIs(db, o, n.channel, now);
    FulfilPaidShape(db, o, n.channel, now);
    PaymentShape(db, n, now);
    var d := Step(db, DoPayment(n, now));
    var f := FulfilPaid(db, o, n.channel, now).value;
    assert d == f.(callbacks := d.callbacks);
    SameReceipt(db, f, d, o, db.orders[o], db.products[db.orders[o].product], now);
  }

  lemma SameReceipt(db: DB, f: DB, d: DB, o: nat, order: Order, p: Product, now: Time)
    requires d == f.(callbacks := d.callbacks) && Receives(db, f, o, order, p, now)
    ensures Receives(db, d, o, order, p, now)
  {
  }

  // What the inviter earns

  /** The rate of an inviter's tier if that exists and is enabled, and otherwise of the default tier, or nothing. */
  ghost predicate RateIs(db: DB, i: nat, rate: int)
    requires i < |db.users|
  {
    var vip := db.users[i].vip;
    var fallback := if db.defaultTier == 0 then 1 else db.defaultTier;
    && (vip in db.tiers && db.tiers[vip].enabled ==> rate == db.tiers[vip].rate)
    && (!(vip in db.tiers && db.tiers[vip].enabled) ==> rate == if fallback in db.tiers then db.tiers[fallback].rate else 0)
  }

  /** The buyer's inviter, their rate, and the rebate it comes to, when there is anything to earn. */
  ghost predicate Earns(db: DB, order: Order, i: nat, rate: int, rebate: Cents) {
    && order.user < |db.users| && db.users[order.user].parent == Some(i) && i != order.user && i < |db.users|
    && RateIs(db, i, rate) && rate > 0
    && Rounds(order.total * rate, 10000, rebate) && rebate > 0
  }

  /** One record and one credit when something is earned, and neither otherwise. */
  ghost predicate Rewarded(db: DB, d: DB, o: nat, order: Order) {
    && |d.users| == |db.users|
    && (forall i: nat, rate, rebate :: Earns(db, order, i, rate, rebate) ==>
          && d.records == db.records + [Record(i, order.user, o, order.total, rate, rebate)]
          && forall u :: 0 <= u < |db.users| ==>
               d.users[u].commission == db.users[u].commission + if u == i then rebate else 0)
    && ((forall i: nat, rate, rebate :: !Earns(db, order, i, rate, rebate)) ==>
          && d.records == db.records
          && forall u :: 0 <= u < |db.users| ==> d.users[u].commission == db.users[u].commission)
  }

  lemma EarnedIs(db: DB, order: Order, i: nat, rate: int, rebate: Cents)
    ensures Earns(db, order, i, rate, rebate) <==>
            && InviterOf(db.users, order.user) == Some(i)
            && rate == RebateRate(db, db.users[i]) > 0 && rebate == Rebate(order.total, rate) > 0
  {
    RoundsIs(order.total * rate, 10000, rebate);
    if order.total * rate < 0 {
      RoundDivNearest(order.total * rate, 10000);
    }
  }

  lemma AccrualRewards(db: DB, o: nat)
    requires o < |db.orders| && Accrue(db, o).Success? && !HasRecord(db.records, o)
    ensures Rewarded(db, Accrue(db, o).value, o, db.orders[o])
  {
    var order := db.orders[o];
    var d := Accrue(db, o).value;
    var inviter := InviterOf(db.users, order.user);
    if inviter.Some? {
      var rate := RebateRate(db, db.users[inviter.value]);
      EarnedIs(db, order, inviter.value, rate, Rebate(order.total, rate));
    }
    forall i: nat, rate, rebate | Earns(db, order, i, rate, rebate)
      ensures inviter == Some(i) && rate == RebateRate(db, db.users[i]) > 0 && rebate == Rebate(order.total, rate) > 0
    {
      EarnedIs(db, order, i, rate, rebate);
    }
  }

  /** Tiers, family, records and commission are all that a reward depends on. */
  lemma RewardFrame(db: DB, mid: DB, d: DB, e: DB, o: nat, order: Order, order': Order)
    requires Rewarded(mid, d, o, order)
    requires order'.user == order.user && order'.total == order.total
    requires mid.tiers == db.tiers && mid.defaultTier == db.defaultTier && mid.records == db.records
    requires |mid.users| == |db.users|
    requires forall u :: 0 <= u < |db.users| ==>
               mid.users[u].parent == db.users[u].parent && mid.users[u].vip == db.users[u].vip
               && mid.users[u].commission == db.users[u].commission
    requires e.users == d.users && e.records == d.records
    ensures Rewarded(db, e, o, order')
  {
    forall i: nat, rate, rebate ensures Earns(db, order', i, rate, rebate) <==> Earns(mid, order, i, rate, rebate) {
    }
  }

  /** A payment rewards the inviter by the tiers of the time. */
  lemma PaymentRewards(db: DB, n: Notice, now: Time, o: nat)
    requires Reconciled(db) && Fulfils(db, n, now, o)
    ensures Rewarded(db, Step(db, DoPayment(n, now)), o, db.orders[o])
  {
    var order := Complete(db.orders[o], now);
    var d0 := db.(orders := db.orders[o := order]);
    var d1 := Deliver(d0, o, db.products[order.product], now).value;
    FulfilPaidStages(db, o, n.channel, now);
    DeductShape(d1, o, n.channel);
    var marked := MarkCouponUsed(Deduct(d1, o, n.channel).value, o);
    UnpaidHasNoFlow(db, o);
    AccrualRewards(marked, o);
    PaymentShape(db, n, now);
    RewardFrame(db, marked, Accrue(marked, o).value, Step(db, DoPayment(n, now)), o, order, db.orders[o]);
  }

  /** The bot's renewal just before the inviter is credited. */
  function BeforeCredit(db: DB, s: nat, now: Time, millis: int): DB
    requires Renews(db, s, now, millis)
  {
    var o := |db.orders|;
    var d0 := CreateOrderRow(db, BotOrder(db, s, now, millis)).value;
    DeliverRenewal(Deduct(d0, o, Balance).value, o, db.products[db.subs[s].product], now).value
  }

  lemma BeforeCreditIs(db: DB, s: nat, now: Time, millis: int)
    requires Renews(db, s, now, millis)
    ensures var mid := BeforeCredit(db, s, now, millis);
            && mid.orders == db.orders + [BotOrder(db, s, now, millis)]
            && mid.tiers == db.tiers && mid.defaultTier == db.defaultTier && mid.records == db.records
            && |mid.users| == |db.users|
            && (forall u :: 0 <= u < |db.users| ==>
                  mid.users[u].parent == db.users[u].parent && mid.users[u].vip == db.users[u].vip
                  && mid.users[u].commission == db.users[u].commission)
            && AutoRenew(db, s, now, millis) == Accrue(mid, |db.orders|)
  {
    DeductShape(CreateOrderRow(db, BotOrder(db, s, now, millis)).value, |db.orders|, Balance);
  }

  /** The bot's renewal rewards the inviter just as a payment does. */
  lemma RenewalRewards(db: DB, s: nat, now: Time, millis: int)
    requires Reconciled(db) && Renews(db, s, now, millis)
    ensures var d := Step(db, DoAutoRenew(s, now, millis));
            |d.orders| == |db.orders| + 1 && Rewarded(db, d, |db.orders|, d.orders[|db.orders|])
  {
    var o := |db.orders|;
    var order := BotOrder(db, s, now, millis);
    var mid := BeforeCredit(db, s, now, millis);
    BeforeCreditIs(db, s, now, millis);
    NoRecordYet(db, o);
    AccrualRewards(mid, o);
    AccrueShape(mid, o);
    RewardFrame(db, mid, Accrue(mid, o).value, Step(db, DoAutoRenew(s, now, millis)), o, order, order);
  }

  lemma NoRecordYet(db: DB, o: nat)
    requires Reconciled(db) && |db.orders| <= o
    ensures !HasRecord(db.records, o)
  {
  }
}
