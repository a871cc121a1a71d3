/**
 The services and the bot as they run: methods that change the tables step by step.  Each is proved to do what
 the corresponding function of Engine says, and a transaction that fails part-way to leave every table as it was.
 */
module Store {
  import opened Common
  import opened Billing
  import opened Money
  import opened Tables
  import opened Engine
  import opened Batches
  import opened AutoRenewPhase
  import opened Placing
  import opened Payments
  import opened Handlers
  import opened Shapes
  import opened Ledger
  import opened ExactlyOnce
  import opened Keys

  class Database {
    var users: seq<User>
    var products: map<nat, Product>
    var tiers: map<nat, Tier>
    var defaultTier: nat
    var members: map<nat, nat>
    var coupons: seq<Coupon>
    var orders: seq<Order>
    var subs: seq<Subscription>
    var keys: seq<Key>
    var flows: seq<Flow>
    var records: seq<Record>
    var withdrawals: seq<Withdrawal>
    var callbacks: seq<Callback>
    var invoices: seq<Invoice>

    function View(): DB
      reads this
    {
      DB(users, products, tiers, defaultTier, members, coupons, orders, subs, keys, flows, records, withdrawals,
         callbacks, invoices)
    }

    constructor (d: DB)
      ensures View() == d
    {
      users, products, tiers, defaultTier, members := d.users, d.products, d.tiers, d.defaultTier, d.members;
      coupons, orders, subs, keys, flows := d.coupons, d.orders, d.subs, d.keys, d.flows;
      records, withdrawals, callbacks, invoices := d.records, d.withdrawals, d.callbacks, d.invoices;
    }

    /** Rolling back a transaction puts every table back. */
    method Rollback(d: DB)
      modifies this
      ensures View() == d
    {
      RestoreCatalogue(d);
      RestoreOrders(d);
      RestoreLedger(d);
    }

    method RestoreCatalogue(d: DB)
      modifies this`users, this`products, this`tiers, this`defaultTier, this`members
      ensures users == d.users && products == d.products && tiers == d.tiers && defaultTier == d.defaultTier
      ensures members == d.members
    {
      users, products, tiers, defaultTier, members := d.users, d.products, d.tiers, d.defaultTier, d.members;
    }

    method RestoreOrders(d: DB)
      modifies this`coupons, this`orders, this`subs, this`keys
      ensures coupons == d.coupons && orders == d.orders && subs == d.subs && keys == d.keys
    {
      coupons, orders, subs, keys := d.coupons, d.orders, d.subs, d.keys;
    }

    method RestoreLedger(d: DB)
      modifies this`flows, this`records, this`withdrawals, this`callbacks, this`invoices
      ensures flows == d.flows && records == d.records && withdrawals == d.withdrawals
      ensures callbacks == d.callbacks && invoices == d.invoices
    {
      flows, records, withdrawals, callbacks, invoices := d.flows, d.records, d.withdrawals, d.callbacks, d.invoices;
    }

    /** The method ended as the function says: with its state, or with its error. */
    ghost predicate Does(f: Result<DB>, err: Option<Error>)
      reads this
    {
      match f
      case Success(d) => err.None? && View() == d
      case Failure(e) => err == Some(e)
    }

    /** As a transaction, it also leaves no trace when it fails. */
    ghost predicate Commits(f: Result<DB>, before: DB, err: Option<Error>)
      reads this
    {
      Does(f, err) && (err.Some? ==> View() == before)
    }

    // Balances

    method ApplyWalletDelta(user: nat, delta: Cents) returns (balance: Cents, err: Option<Error>)
      modifies this`users
      ensures Commits(Engine.ApplyWalletDelta(old(View()), user, delta), old(View()), err)
      ensures err.None? ==> user < |users| && balance == users[user].wallet
    {
      if user >= |users| {
        return 0, Some(UserNotFound);
      }
      balance := users[user].wallet + delta;
      if balance < 0 {
        return 0, Some(InsufficientWallet);
      }
      users := users[user := users[user].(wallet := balance)];
      err := None;
    }

    method ApplyCommissionDelta(user: nat, delta: Cents) returns (balance: Cents, err: Option<Error>)
      modifies this`users
      ensures Commits(Engine.ApplyCommissionDelta(old(View()), user, delta), old(View()), err)
      ensures err.None? ==> user < |users| && balance == users[user].commission
    {
      if user >= |users| {
        return 0, Some(UserNotFound);
      }
      balance := users[user].commission + delta;
      if balance < 0 {
        return 0, Some(InsufficientCommission);
      }
      users := users[user := users[user].(commission := balance)];
      err := None;
    }

    method TransferCommissionToWallet(user: nat, amount: Cents) returns (commission: Cents, wallet: Cents, err: Option<Error>)
      modifies this`users
      ensures Commits(Engine.TransferCommissionToWallet(old(View()), user, amount), old(View()), err)
      ensures err.None? ==> user < |users| && commission == users[user].commission && wallet == users[user].wallet
    {
      if user >= |users| {
        return 0, 0, Some(UserNotFound);
      }
      if amount <= 0 {
        return 0, 0, Some(ParamsError);
      }
      commission := users[user].commission - amount;
      if commission < 0 {
        return 0, 0, Some(InsufficientCommission);
      }
      wallet := users[user].wallet + amount;
      users := users[user := users[user].(commission := commission, wallet := wallet)];
      err := None;
    }

    // Inserting rows under their unique keys

    method CreateFlow(f: Flow) returns (err: Option<Error>)
      modifies this`flows
      ensures Commits(Engine.CreateFlow(old(View()), f), old(View()), err)
    {
      if HasFlow(flows, f.flowType, f.ref) {
        return Some(DuplicateKey);
      }
      flows := flows + [f];
      err := None;
    }

    method CreateOrderRow(order: Order) returns (err: Option<Error>)
      modifies this`orders
      ensures Commits(Engine.CreateOrderRow(old(View()), order), old(View()), err)
    {
      if NumberTaken(orders, order.no, order.tradeNo) {
        return Some(DuplicateKey);
      }
      orders := orders + [order];
      err := None;
    }

    method CreateOrderReplacingPending(order: Order) returns (err: Option<Error>)
      modifies this
      ensures Commits(Engine.CreateOrderReplacingPending(old(View()), order), old(View()), err)
    {
      var before := View();
      var i := 0;
      while i < |orders|
        invariant 0 <= i <= |orders| == |before.orders|
        invariant View() == before.(orders := orders)
        invariant orders[..i] == CancelPending(before.orders, order.user, order.sub, order.orderType)[..i]
        invariant orders[i..] == before.orders[i..]
      {
        assert orders[i] == orders[i..][0] == before.orders[i];
        if SamePending(orders[i], order.user, order.sub, order.orderType) {
          orders := orders[i := orders[i].(status := Cancelled)];
        }
        assert orders[i + 1..] == before.orders[i + 1..];
        i := i + 1;
      }
      assert orders == CancelPending(before.orders, order.user, order.sub, order.orderType);
      err := CreateOrderRow(order);
      if err.Some? {
        Rollback(before);
      }
    }

    method UpdateKeysWhere(sub: nat, u: KeyUpdate)
      modifies this`keys
      ensures keys == UpdateWhere(old(keys), sub, u)
    {
      keys := UpdateWhere(keys, sub, u);
    }

    // Fulfilment

    method DeductBalanceAndRecordFlow(o: nat, channel: Channel) returns (err: Option<Error>)
      requires o < |orders|
      modifies this`users, this`flows
      ensures Does(Deduct(old(View()), o, channel), err)
    {
      var order := orders[o];
      var balanceAfter: Option<Cents> := None;
      if channel == Balance {
        var balance;
        balance, err := ApplyWalletDelta(order.user, -order.total);
        if err.Some? {
          return;
        }
        balanceAfter := Some(balance);
      }
      err := CreateFlow(Flow(order.user, Pay, -order.total, balanceAfter, OrderRef(o)));
    }

    method CreateSubscriptionForPurchase(o: nat, p: Product, now: Time) returns (s: nat)
      requires o < |orders|
      modifies this`subs
      ensures s == |old(subs)| && subs == old(subs) + [NewSubscription(orders[o], o, p, now)]
    {
      var order := orders[o];
      var tokenGrant := p.limitTokens * order.quantity;
      var qty := order.quantity;
      if qty < 1 {
        qty := 1;
      }
      var periodEnd := AddPeriods(now, p.Days(), qty);
      s := |subs|;
      subs := subs + [Subscription(order.user, order.product, [o], p.category, tokenGrant, tokenGrant, 0,
                                   now, periodEnd, now, periodEnd, Live)];
    }

    method FulfillPurchaseOrderPaid(o: nat, p: Product, channel: Channel, now: Time) returns (err: Option<Error>)
      requires o < |orders| && orders[o].orderType == Purchase
      modifies this
      ensures Does(FulfilByType(old(View()), o, p, channel, now), err)
    {
      var order := orders[o];
      var s := CreateSubscriptionForPurchase(o, p, now);
      var owner := order.user;
      if order.user in members {
        owner := members[order.user];
      }
      keys := keys + [Key(order.user, owner, s, Main, p.category, subs[s].limit, 0, KeyActive)];
      err := DeductBalanceAndRecordFlow(o, channel);
    }

    method RenewSubscriptionForOrder(o: nat, p: Product, now: Time) returns (s: nat, err: Option<Error>)
      requires o < |orders|
      modifies this`subs
      ensures match DeliverRenewal(old(View()), o, p, now)
              case Success(d) => err.None? && orders[o].sub == Some(s) && View() == d.(keys := keys)
              case Failure(e) => err == Some(e)
    {
      var order := orders[o];
      s := 0;
      if order.sub.None? {
        return 0, Some(MissingSubscription);
      }
      s := order.sub.value;
      if s >= |subs| || subs[s].user != order.user {
        return 0, Some(SubscriptionNotFound);
      }
      if subs[s].product != order.product {
        return 0, Some(ProductMismatch);
      }
      if subs[s].status != Live {
        return 0, Some(SubscriptionNotActive);
      }
      var anchor := now;
      if subs[s].expiresAt > now {
        anchor := subs[s].expiresAt;
      }
      var qty := order.quantity;
      if qty < 1 {
        qty := 1;
      }
      var newExpires := AddPeriods(anchor, p.Days(), qty);
      subs := subs[s := subs[s].(orders := subs[s].orders + [o], expiresAt := newExpires)];
      err := None;
    }

    method FulfillRenewalOrderPaid(o: nat, p: Product, channel: Channel, now: Time) returns (err: Option<Error>)
      requires o < |orders| && orders[o].orderType == Renewal
      modifies this
      ensures Does(FulfilByType(old(View()), o, p, channel, now), err)
    {
      var s;
      s, err := RenewSubscriptionForOrder(o, p, now);
      if err.Some? {
        return;
      }
      UpdateKeysWhere(s, Reactivate);
      err := DeductBalanceAndRecordFlow(o, channel);
    }

    method UpgradeSubscriptionForOrder(o: nat, p: Product, now: Time) returns (s: nat, wasActive: bool, err: Option<Error>)
      requires o < |orders|
      modifies this`subs
      ensures match FindOwnSubscription(old(View()), orders[o])
              case Success(r) =>
                && err.None? && s == r && wasActive == (old(subs)[s].status == Live)
                && subs == old(subs)[s := UpgradedSub(old(subs)[s], orders[o], o, p, now)]
              case Failure(e) => err == Some(e)
    {
      var order := orders[o];
      s, wasActive := 0, false;
      if order.sub.None? {
        return 0, false, Some(MissingSubscription);
      }
      s := order.sub.value;
      if s >= |subs| || subs[s].user != order.user {
        return 0, false, Some(SubscriptionNotFound);
      }
      wasActive := subs[s].status == Live;
      var sub := subs[s].(product := order.product, orders := subs[s].orders + [o], category := p.category,
                          base := p.limitTokens, limit := p.limitTokens);
      if !wasActive {
        var qty := order.quantity;
        if qty < 1 {
          qty := 1;
        }
        var periodEnd := AddPeriods(now, p.Days(), qty);
        sub := sub.(used := 0, startedAt := now, expiresAt := periodEnd, periodStart := now, periodEnd := periodEnd,
                    status := Live);
      }
      subs := subs[s := sub];
      err := None;
    }

    method FulfillUpgradeOrderPaid(o: nat, p: Product, channel: Channel, now: Time) returns (err: Option<Error>)
      requires o < |orders| && orders[o].orderType == Upgrade
      modifies this
      ensures Does(FulfilByType(old(View()), o, p, channel, now), err)
    {
      err := UpgradeSubscriptionAndKeys(o, p, now);
      if err.Some? {
        return;
      }
      err := DeductBalanceAndRecordFlow(o, channel);
    }

    method UpgradeSubscriptionAndKeys(o: nat, p: Product, now: Time) returns (err: Option<Error>)
      requires o < |orders|
      modifies this`subs, this`keys
      ensures Does(DeliverUpgrade(old(View()), o, p, now), err)
    {
      var s, wasActive;
      s, wasActive, err := UpgradeSubscriptionForOrder(o, p, now);
      if err.Some? {
        return;
      }
      UpdateKeysWhere(s, Reactivate);
      UpdateKeysWhere(s, SyncAfterUpgrade(subs[s].limit, p.category, !wasActive));
    }

    method FulfillQuotaAddonOrderPaid(o: nat, p: Product, channel: Channel, now: Time) returns (err: Option<Error>)
      requires o < |orders| && orders[o].orderType == QuotaAddon
      modifies this
      ensures Does(FulfilByType(old(View()), o, p, channel, now), err)
    {
      err := AddQuotaForOrder(o, p, now);
      if err.Some? {
        return;
      }
      err := DeductBalanceAndRecordFlow(o, channel);
    }

    method AddQuotaForOrder(o: nat, p: Product, now: Time) returns (err: Option<Error>)
      requires o < |orders|
      modifies this`subs, this`keys
      ensures Does(DeliverAddon(old(View()), o, p, now), err)
    {
      var order := orders[o];
      if order.sub.None? {
        return Some(MissingSubscription);
      }
      var s := order.sub.value;
      if s >= |subs| || subs[s].user != order.user {
        return Some(SubscriptionNotFound);
      }
      if subs[s].status != Live {
        return Some(SubscriptionNotActive);
      }
      subs := subs[s := subs[s].(limit := subs[s].limit + p.limitTokens)];
      UpdateKeysWhere(s, RaiseLimit(p.limitTokens));
      err := None;
    }

    method FulfillPaidOrderByType(o: nat, p: Product, channel: Channel, now: Time) returns (err: Option<Error>)
      requires o < |orders|
      modifies this
      ensures Does(FulfilByType(old(View()), o, p, channel, now), err)
    {
      match orders[o].orderType
      case Renewal => err := FulfillRenewalOrderPaid(o, p, channel, now);
      case Upgrade => err := FulfillUpgradeOrderPaid(o, p, channel, now);
      case QuotaAddon => err := FulfillQuotaAddonOrderPaid(o, p, channel, now);
      case Purchase => err := FulfillPurchaseOrderPaid(o, p, channel, now);
      case Unrecognised => err := Some(UnknownOrderType);
    }

    method MarkUsedFromOrder(o: nat)
      requires o < |orders|
      modifies this`coupons
      ensures View() == MarkCouponUsed(old(View()), o)
    {
      var c := orders[o].coupon;
      if c.None? || c.value >= |coupons| || coupons[c.value].user != orders[o].user {
        return;
      }
      if coupons[c.value].status != Available {
        return;
      }
      coupons := coupons[c.value := coupons[c.value].(status := Used, order := Some(o))];
    }

    method AccrueInviteRebateForPaidOrder(o: nat) returns (err: Option<Error>)
      requires o < |orders|
      modifies this
      ensures Does(Accrue(old(View()), o), err)
      ensures err.None? && !HasRecord(old(records), o) ==> Rewarded(old(View()), View(), o, orders[o])
    {
      ghost var accrued := Accrue(View(), o);
      if !HasRecord(records, o) && accrued.Success? {
        AccrualRewards(View(), o);
      }
      var order := orders[o];
      if HasRecord(records, o) {
        return None;
      }
      if order.user >= |users| || users[order.user].parent.None? {
        return None;
      }
      var inviter := users[order.user].parent.value;
      if inviter == order.user || inviter >= |users| {
        return None;
      }
      var rate := RebateRate(View(), users[inviter]);
      if rate <= 0 {
        return None;
      }
      var rebate := RoundDiv(order.total * rate, 10000);
      if rebate <= 0 {
        return None;
      }
      var record := |records|;
      records := records + [Record(inviter, order.user, o, order.total, rate, rebate)];
      var balance;
      balance, err := ApplyCommissionDelta(inviter, rebate);
      if err.Some? {
        return;
      }
      err := CreateFlow(Flow(inviter, Commission, rebate, Some(balance), RecordRef(record)));
    }

    method ApplyPaymentNotifySuccess(n: Notice, now: Time) returns (err: Option<Error>)
      modifies this
      ensures Commits(ApplyPayment(old(View()), n, now), old(View()), err)
    {
      var before := View();
      if HasCallback(callbacks, n.channel, n.key) {
        return None;
      }
      var found := FindByTradeNo(orders, n.tradeNo);
      if found.None? {
        return Some(RecordNotFound);
      }
      var o := found.value;
      if orders[o].status == Completed {
        callbacks := callbacks + [Callback(n.channel, n.key, true)];
        return None;
      }
      if orders[o].status != Pending {
        return Some(NotPayable);
      }
      if orders[o].product !in products {
        return Some(RecordNotFound);
      }
      err := FulfilOrder(o, n.channel, now);
      if err.Some? {
        Rollback(before);
        return;
      }
      callbacks := callbacks + [Callback(n.channel, n.key, false)];
    }

    method FulfilOrder(o: nat, channel: Channel, now: Time) returns (err: Option<Error>)
      requires o < |orders| && orders[o].product in products
      modifies this
      ensures Does(FulfilPaid(old(View()), o, channel, now), err)
    {
      var p := products[orders[o].product];
      orders := orders[o := orders[o].(status := Completed, paidAt := Some(now))];
      err := FulfillPaidOrderByType(o, p, channel, now);
      if err.Some? {
        return;
      }
      err := SettleOrder(o);
    }

    method SettleOrder(o: nat) returns (err: Option<Error>)
      requires o < |orders|
      modifies this
      ensures Does(Settle(old(View()), o), err)
    {
      MarkUsedFromOrder(o);
      err := AccrueInviteRebateForPaidOrder(o);
      if err.Some? {
        return;
      }
      if orders[o].invoice {
        invoices := invoices + [Invoice(o, orders[o].user, orders[o].total)];
      }
    }

    method HandlePaymentNotify(channel: Option<Channel>, tradeNo: TradeNo, succeeded: bool, now: Time) returns (err: Option<Error>)
      modifies this
      ensures Commits(Engine.HandlePaymentNotify(old(View()), channel, tradeNo, succeeded, now), old(View()), err)
      ensures !succeeded ==> err == Some(ParamsError) && View() == old(View())
    {
      if channel.None? || channel == Some(Balance) || !succeeded {
        return Some(ParamsError);
      }
      var found := FindByTradeNo(orders, tradeNo);
      if found.None? {
        return Some(PaymentNotFound);
      }
      if orders[found.value].channel != channel.value {
        return Some(ParamsError);
      }
      err := ApplyPaymentNotifySuccess(Notice(channel.value, tradeNo, IdemKey(channel.value, tradeNo)), now);
    }

    // Placing an order

    method CreateMockOrder(user: nat, req: OrderRequest, now: Time, millis: int) returns (err: Option<Error>)
      modifies this
      ensures Commits(PlaceOrder(old(View()), user, req, now, millis), old(View()), err)
      ensures err.None? ==> PlacedAsRequested(old(View()), View(), user, req, now, millis)
    {
      ghost var placed := PlaceOrder(View(), user, req, now, millis);
      if placed.Success? {
        PlacedOrderIsAsRequested(View(), user, req, now, millis);
      }
      if req.channel.None? || req.channel == Some(Balance) || req.orderType == Unrecognised {
        return Some(ParamsError);
      }
      if req.product !in products || !products[req.product].onSale {
        return Some(ProductNotFound);
      }
      var p := products[req.product];
      var resolved := ResolveSubscription(View(), user, req, p);
      if resolved.Failure? {
        return Some(resolved.error);
      }
      var sub := resolved.value;
      var qty := req.quantity;
      if req.orderType == Upgrade {
        qty := CountUpgradeBillingCycles(subs[sub.value].periodEnd, subs[sub.value].expiresAt, p.Days());
      }
      var offer := CouponOffer(View(), user, req.coupon, now);
      if offer.Failure? {
        return Some(offer.error);
      }
      var quote := Checkout(p.price, qty, offer.value, req.invoice);
      if quote.Failure? {
        return Some(quote.error);
      }
      var order := Order(OrderNo(false, now, user % 10000), user, req.product, req.orderType, sub, qty, quote.value.total,
                         Pending, req.invoice, req.channel.value, PayNo(1000 * now + millis, user), req.coupon, None);
      if req.orderType == Purchase {
        err := CreateOrderRow(order);
      } else {
        err := CreateOrderReplacingPending(order);
      }
    }

    // The lifecycle bot

    method FulfillBalanceRenewalInTx(o: nat, p: Product, now: Time) returns (err: Option<Error>)
      requires o < |orders|
      modifies this
      ensures Does(FulfilBalanceRenewal(old(View()), o, p, now), err)
    {
      err := DeductBalanceAndRecordFlow(o, Balance);
      if err.Some? {
        return;
      }
      var s;
      s, err := RenewSubscriptionForOrder(o, p, now);
      if err.Some? {
        return;
      }
      UpdateKeysWhere(s, Reactivate);
      err := AccrueInviteRebateForPaidOrder(o);
    }

    method AutoRenewSubscription(s: nat, now: Time, millis: int) returns (err: Option<Error>)
      modifies this
      ensures Commits(AutoRenew(old(View()), s, now, millis), old(View()), err)
      ensures View() == old(View()) || BoughtOnePeriod(old(View()), View(), s, now)
    {
      var before := View();
      RenewalBuysOnePeriod(before, s, now, millis);
      if s >= |subs| || subs[s].status != Live {
        return None;
      }
      var sub := subs[s];
      if now >= sub.expiresAt {
        return None;
      }
      var lead := sub.expiresAt - AUTO_RENEW_LEAD;
      if now < lead {
        return None;
      }
      if sub.periodEnd != sub.expiresAt {
        return None;
      }
      if sub.product !in products || sub.user >= |users| {
        return Some(RecordNotFound);
      }
      var p := products[sub.product];
      if users[sub.user].wallet < p.price {
        return None;
      }
      var o := |orders|;
      err := CreateOrderRow(RenewalOrder(s, sub, p.price, now, millis));
      if err.None? {
        err := FulfillBalanceRenewalInTx(o, p, now);
      }
      if err.Some? {
        Rollback(before);
      }
    }

    method PeriodResetSubscription(s: nat, now: Time) returns (err: Option<Error>)
      modifies this
      ensures Commits(PeriodReset(old(View()), s, now), old(View()), err)
    {
      if s >= |subs| || subs[s].status != Live {
        return None;
      }
      var sub := subs[s];
      if now <= sub.periodEnd || sub.expiresAt <= sub.periodEnd {
        return None;
      }
      if sub.product !in products {
        return Some(RecordNotFound);
      }
      var newStart := sub.periodEnd;
      var newEnd := AddPeriod(newStart, products[sub.product].Days());
      subs := subs[s := sub.(periodStart := newStart, periodEnd := newEnd, limit := sub.base, used := 0)];
      UpdateKeysWhere(s, ResetMain(sub.base));
      UpdateKeysWhere(s, ResetSub);
      err := None;
    }

    method ExpireSubscription(s: nat, now: Time) returns (err: Option<Error>)
      modifies this
      ensures Commits(Expire(old(View()), s, now), old(View()), err)
    {
      if s >= |subs| || subs[s].status != Live || now <= subs[s].expiresAt {
        return None;
      }
      subs := subs[s := subs[s].(status := Lapsed)];
      UpdateKeysWhere(s, ExpireKey);
      err := None;
    }

    method ListActiveIds() returns (ids: seq<nat>)
      ensures ids == ActiveIds(subs)
    {
      ids := [];
      var i := 0;
      while i < |subs|
        invariant 0 <= i <= |subs|
        invariant ids == ActiveIds(subs[..i])
      {
        assert subs[..i + 1][..i] == subs[..i];
        if subs[i].status == Live {
          ids := ids + [i];
        }
        i := i + 1;
      }
      assert subs[..i] == subs;
    }

    /** The handlers of one batch, in an order nobody fixes. */
    method RunBatch(phase: Phase, batch: seq<nat>, now: Time) returns (ghost done: seq<nat>)
      modifies this
      ensures multiset(done) == multiset(batch)
      ensures View() == HandleAll(old(View()), phase, done, now)
    {
      var pending := batch;
      done := [];
      while pending != []
        invariant multiset(done) + multiset(pending) == multiset(batch)
        invariant View() == HandleAll(old(View()), phase, done, now)
        decreases |pending|
      {
        var k :| 0 <= k < |pending|;
        WithoutOne(pending, k);
        HandleAllAppend(old(View()), phase, done, [pending[k]], now);
        RunHandler(phase, pending[k], now);
        done := done + [pending[k]];
        pending := pending[..k] + pending[k + 1..];
      }
    }

    method RunHandler(phase: Phase, s: nat, now: Time)
      modifies this
      ensures View() == HandleAll(old(View()), phase, [s], now)
    {
      assert [s][1..] == [];
      var err;
      if phase == ResetPhase {
        err := PeriodResetSubscription(s, now);
      } else {
        err := ExpireSubscription(s, now);
      }
    }

    /** Resets or expiries: whichever order the handlers of each batch run in, the outcome is one pass in id order. */
    method RunActiveByBatch(phase: Phase, now: Time)
      modifies this
      ensures View() == HandleAll(old(View()), phase, ActiveIds(old(subs)), now)
    {
      var ids := ListActiveIds();
      ghost var done: seq<nat> := [];
      var start := 0;
      while start < |ids|
        invariant 0 <= start
        invariant multiset(done) == multiset(ids[..Min(start, |ids|)])
        invariant View() == HandleAll(old(View()), phase, done, now)
        decreases |ids| - start
      {
        var end := Min(start + BATCH_SIZE, |ids|);
        ghost var more := RunBatch(phase, ids[start..end], now);
        HandleAllAppend(old(View()), phase, done, more, now);
        OneBatchMore(ids, start, end, done, more);
        done := done + more;
        start := start + BATCH_SIZE;
      }
      assert ids[..|ids|] == ids;
      AnyOrderIsSequential(old(View()), phase, ids, done, now);
    }

    method RunRenewalBatch(batch: seq<nat>, now: Time, millis: int) returns (ghost done: seq<nat>)
      modifies this
      ensures multiset(done) == multiset(batch)
      ensures View() == RenewAll(old(View()), done, now, millis)
    {
      var pending := batch;
      done := [];
      while pending != []
        invariant multiset(done) + multiset(pending) == multiset(batch)
        invariant View() == RenewAll(old(View()), done, now, millis)
        decreases |pending|
      {
        var k :| 0 <= k < |pending|;
        WithoutOne(pending, k);
        RenewAllAppend(old(View()), done, [pending[k]], now, millis);
        RunRenewalHandler(pending[k], now, millis);
        done := done + [pending[k]];
        pending := pending[..k] + pending[k + 1..];
      }
    }

    method RunRenewalHandler(s: nat, now: Time, millis: int)
      modifies this
      ensures View() == RenewAll(old(View()), [s], now, millis)
    {
      assert [s][1..] == [];
      var err := AutoRenewSubscription(s, now, millis);
    }

    /** Auto-renewals: some order of the handlers, each subscription once. */
    method RunAutoRenewPhase(now: Time, millis: int) returns (ghost done: seq<nat>)
      modifies this
      ensures multiset(done) == multiset(ActiveIds(old(subs)))
      ensures View() == RenewAll(old(View()), done, now, millis)
    {
      var ids := ListActiveIds();
      done := [];
      var start := 0;
      while start < |ids|
        invariant 0 <= start
        invariant multiset(done) == multiset(ids[..Min(start, |ids|)])
        invariant View() == RenewAll(old(View()), done, now, millis)
        decreases |ids| - start
      {
        var end := Min(start + BATCH_SIZE, |ids|);
        ghost var more := RunRenewalBatch(ids[start..end], now, millis);
        RenewAllAppend(old(View()), done, more, now, millis);
        OneBatchMore(ids, start, end, done, more);
        done := done + more;
        start := start + BATCH_SIZE;
      }
      assert ids[..|ids|] == ids;
    }

    /** One run of the bot: renewals, then resets, then expiries, each over the subscriptions active by then. */
    method Run(now: Time, millis: int) returns (ghost done: seq<nat>)
      modifies this
      ensures multiset(done) == multiset(ActiveIds(old(subs)))
      ensures View() == BotPass(old(View()), done, now, millis)
    {
      done := RunAutoRenewPhase(now, millis);
      RunActiveByBatch(ResetPhase, now);
      RunActiveByBatch(ExpiryPhase, now);
    }

    // Team keys

    method SumActiveSubKeyLimits(s: nat, except: Option<nat>) returns (total: Tokens)
      ensures total == SubKeySum(keys, s, except)
    {
      total := 0;
      var i := 0;
      while i < |keys|
        invariant 0 <= i <= |keys|
        invariant total == SubKeySum(keys[..i], s, except)
      {
        assert keys[..i + 1][..i] == keys[..i];
        if keys[i].sub == s && keys[i].keyType == Sub && keys[i].status != KeyRotated && except != Some(i) {
          total := total + keys[i].limit;
        }
        i := i + 1;
      }
      assert keys[..i] == keys;
    }

    method CreateSubKey(owner: nat, s: nat, member: nat, limit: Tokens) returns (err: Option<Error>)
      modifies this`keys
      ensures Commits(Engine.CreateSubKey(old(View()), owner, s, member, limit), old(View()), err)
    {
      if s >= |subs| || subs[s].user != owner || subs[s].status != Live {
        return Some(NoSubscription);
      }
      if member !in members || members[member] != owner {
        return Some(Forbidden);
      }
      if HasActiveSubKey(keys, s, member) {
        return Some(SubKeyDuplicate);
      }
      var total := SumActiveSubKeyLimits(s, None);
      if total + limit > subs[s].limit {
        return Some(SubKeyLimitExceeded);
      }
      keys := keys + [Key(member, OwnerOf(members, owner), s, Sub, subs[s].category, limit, 0, KeyActive)];
      err := None;
    }

    method UpdateSubKeyLimit(owner: nat, k: nat, limit: Tokens) returns (err: Option<Error>)
      modifies this`keys
      ensures Commits(Engine.UpdateSubKeyLimit(old(View()), owner, k, limit), old(View()), err)
    {
      if k >= |keys| {
        return Some(KeyNotFound);
      }
      var key := keys[k];
      if key.owner != owner || key.keyType != Sub {
        return Some(Forbidden);
      }
      if limit < key.used {
        return Some(ParamsError);
      }
      if key.sub >= |subs| {
        return Some(NoSubscription);
      }
      var total := SumActiveSubKeyLimits(key.sub, Some(k));
      if total + limit > subs[key.sub].limit {
        return Some(SubKeyLimitExceeded);
      }
      keys := keys[k := key.(limit := limit)];
      err := None;
    }

    // Commission out

    method CreateCommissionWithdrawal(user: nat, typed: Option<Decimal>, channelReady: bool) returns (err: Option<Error>)
      modifies this
      ensures Commits(CreateWithdrawal(old(View()), user, typed, channelReady), old(View()), err)
    {
      var before := View();
      var parsed := ParseCommissionAmount(typed);
      if parsed.Failure? {
        return Some(parsed.error);
      }
      if !channelReady {
        return Some(ParamsError);
      }
      var amount := parsed.value;
      var commission;
      commission, err := ApplyCommissionDelta(user, -amount);
      if err.Some? {
        return;
      }
      var w := |withdrawals|;
      withdrawals := withdrawals + [Withdrawal(user, amount)];
      err := CreateFlow(Flow(user, Withdraw, -amount, Some(commission), WithdrawalRef(w)));
      if err.Some? {
        Rollback(before);
      }
    }

    method TransferCommissionToBalance(user: nat, typed: Option<Decimal>, ref: nat) returns (err: Option<Error>)
      modifies this
      ensures Commits(TransferCommission(old(View()), user, typed, ref), old(View()), err)
    {
      var before := View();
      var parsed := ParseCommissionAmount(typed);
      if parsed.Failure? {
        return Some(parsed.error);
      }
      var amount := parsed.value;
      var commission, wallet;
      commission, wallet, err := TransferCommissionToWallet(user, amount);
      if err.Some? {
        return;
      }
      err := CreateFlow(Flow(user, Commission, -amount, Some(commission), TransferRef(ref)));
      if err.None? {
        err := CreateFlow(Flow(user, Recharge, amount, Some(wallet), TransferRef(ref)));
      }
      if err.Some? {
        Rollback(before);
      }
    }
  }

  lemma OneBatchMore(ids: seq<nat>, start: int, end: int, done: seq<nat>, more: seq<nat>)
    requires 0 <= start <= end <= |ids|
    requires multiset(done) == multiset(ids[..start]) && multiset(more) == multiset(ids[start..end])
    ensures multiset(done + more) == multiset(ids[..end])
  {
    assert ids[..end] == ids[..start] + ids[start..end];
  }

  lemma {:induction false} HandleAllAppend(db: DB, phase: Phase, first: seq<nat>, rest: seq<nat>, now: Time)
    ensures HandleAll(db, phase, first + rest, now) == HandleAll(HandleAll(db, phase, first, now), phase, rest, now)
    decreases |first|
  {
    if first == [] {
      assert first + rest == rest;
    } else {
      assert (first + rest)[1..] == first[1..] + rest;
      HandleAllAppend(Handle(db, phase, first[0], now), phase, first[1..], rest, now);
    }
  }

  lemma {:induction false} RenewAllAppend(db: DB, first: seq<nat>, rest: seq<nat>, now: Time, millis: int)
    ensures RenewAll(db, first + rest, now, millis) == RenewAll(RenewAll(db, first, now, millis), rest, now, millis)
    decreases |first|
  {
    if first == [] {
      assert first + rest == rest;
    } else {
      assert (first + rest)[1..] == first[1..] + rest;
      RenewAllAppend(Step(db, DoAutoRenew(first[0], now, millis)), first[1..], rest, now, millis);
    }
  }

  // A run of the bot among the steps of the shop

  /** One run of the bot: renewals in the given order, then resets, then expiries, over what is active by then. */
  function BotPass(db: DB, order: seq<nat>, now: Time, millis: int): DB {
    var renewed := RenewAll(db, order, now, millis);
    var reset := HandleAll(renewed, ResetPhase, ActiveIds(renewed.subs), now);
    HandleAll(reset, ExpiryPhase, ActiveIds(reset.subs), now)
  }

  function PhaseActions(phase: Phase, ids: seq<nat>, now: Time): seq<Action> {
    seq(|ids|, i requires 0 <= i < |ids| =>
      match phase case ResetPhase => DoPeriodReset(ids[i], now) case ExpiryPhase => DoExpire(ids[i], now))
  }

  function RenewalActions(ids: seq<nat>, now: Time, millis: int): seq<Action> {
    seq(|ids|, i requires 0 <= i < |ids| => DoAutoRenew(ids[i], now, millis))
  }

  lemma {:induction false} PhaseIsARun(db: DB, phase: Phase, ids: seq<nat>, now: Time)
    ensures HandleAll(db, phase, ids, now) == Engine.Run(db, PhaseActions(phase, ids, now))
    decreases |ids|
  {
    if ids != [] {
      var actions := PhaseActions(phase, ids, now);
      assert actions[1..] == PhaseActions(phase, ids[1..], now);
      assert Step(db, actions[0]) == Handle(db, phase, ids[0], now);
      PhaseIsARun(Step(db, actions[0]), phase, ids[1..], now);
    }
  }

  lemma {:induction false} RenewalsAreARun(db: DB, ids: seq<nat>, now: Time, millis: int)
    ensures RenewAll(db, ids, now, millis) == Engine.Run(db, RenewalActions(ids, now, millis))
    decreases |ids|
  {
    if ids != [] {
      var actions := RenewalActions(ids, now, millis);
      assert actions[1..] == RenewalActions(ids[1..], now, millis);
      RenewalsAreARun(Step(db, actions[0]), ids[1..], now, millis);
    }
  }

  /** A run of the bot, whichever order its handlers take, leaves the books, the balances and the keys in order. */
  lemma BotPassKeepsInvariants(db: DB, order: seq<nat>, now: Time, millis: int)
    requires Reconciled(db) && Agrees(db.users, db.flows) && Mirror(db.subs, db.keys)
    ensures var d := BotPass(db, order, now, millis);
            Reconciled(d) && Agrees(d.users, d.flows) && Mirror(d.subs, d.keys)
  {
    var renewed := RenewAll(db, order, now, millis);
    RenewalsAreARun(db, order, now, millis);
    RunKeepsInvariants(db, RenewalActions(order, now, millis));
    var ids := ActiveIds(renewed.subs);
    var reset := HandleAll(renewed, ResetPhase, ids, now);
    PhaseIsARun(renewed, ResetPhase, ids, now);
    RunKeepsInvariants(renewed, PhaseActions(ResetPhase, ids, now));
    var left := ActiveIds(reset.subs);
    PhaseIsARun(reset, ExpiryPhase, left, now);
    RunKeepsInvariants(reset, PhaseActions(ExpiryPhase, left, now));
  }

  lemma RunKeepsInvariants(db: DB, actions: seq<Action>)
    requires Reconciled(db) && Agrees(db.users, db.flows) && Mirror(db.subs, db.keys)
    ensures var d := Engine.Run(db, actions);
            Reconciled(d) && Agrees(d.users, d.flows) && Mirror(d.subs, d.keys)
  {
    RunKeepsReconciled(db, actions);
    RunKeepsAgreement(db, actions);
    RunKeepsMirror(db, actions);
  }

  // One subscription in one run of the bot

  lemma {:induction false} NotInLastPeriodStays(db: DB, order: seq<nat>, now: Time, millis: int, s: nat)
    requires s < |db.subs| && db.subs[s].periodEnd != db.subs[s].expiresAt
    ensures var d := RenewAll(db, order, now, millis);
            |d.subs| == |db.subs| && d.subs[s] == db.subs[s] && d.products == db.products
    decreases |order|
  {
    if order != [] {
      OneRenewal(db, order[0], now, millis);
      NotInLastPeriodStays(Step(db, DoAutoRenew(order[0], now, millis)), order[1..], now, millis, s);
    }
  }

  /** A phase over what is active handles the subscription by its own row. */
  lemma PhaseHandles(db: DB, phase: Phase, now: Time, s: nat)
    requires s < |db.subs|
    ensures var d := HandleAll(db, phase, ActiveIds(db.subs), now);
            |d.subs| == |db.subs| && d.products == db.products && d.subs[s] == HandledSub(db.products, phase, db.subs[s], now)
  {
    ActiveIdsAre(db.subs);
    HandleAllRows(db, phase, ActiveIds(db.subs), now, s);
  }

  /**
   In one run of the bot a subscription whose next period has begun is not renewed, even if that period is the
   last: it is reset, and then expires if its time is up.
   */
  lemma PassResetsAfterRenewing(db: DB, order: seq<nat>, now: Time, millis: int, s: nat)
    requires NewPeriodBegun(db, s, now)
    ensures var d := BotPass(db, order, now, millis);
            && |d.subs| == |db.subs|
            && var sub, after := db.subs[s], d.subs[s];
               && after.expiresAt == sub.expiresAt && after.orders == sub.orders
               && after.periodStart == sub.periodEnd && after.periodEnd == sub.periodEnd + 86400 * db.products[sub.product].Days()
               && after.limit == sub.base && after.used == 0
               && (after.status == Lapsed <==> sub.expiresAt < now)
  {
    NotInLastPeriodStays(db, order, now, millis, s);
    var renewed := RenewAll(db, order, now, millis);
    PhaseHandles(renewed, ResetPhase, now, s);
    PhaseHandles(HandleAll(renewed, ResetPhase, ActiveIds(renewed.subs), now), ExpiryPhase, now, s);
  }
}
