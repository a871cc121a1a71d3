/**
 States the shop can reach in which the guarantees that fail do fail: one small shop and what happens in it.
 User 0 owns a team and invited users 1 and 2.
 */
module Witnesses {
  import opened Common
  import opened Billing
  import opened Money
  import opened Tables
  import opened Engine
  import opened Shapes
  import opened Moves
  import opened OrderBook
  import opened ExactlyOnce
  import opened Ledger
  import opened Keys
  import opened Clock
  import opened UpgradeCharge
  import opened AutoRenewPhase
  import Vip

  ghost predicate Reachable(d: DB) {
    exists db, actions :: Initial(db) && Run(db, actions) == d
  }

  lemma StepReaches(db: DB, a: Action, d: DB)
    requires Reachable(db) && Step(db, a) == d
    ensures Reachable(d)
  {
    var db0, actions :| Initial(db0) && Run(db0, actions) == db;
    RunLast(db0, actions + [a]);
    assert (actions + [a])[..|actions|] == actions;
    assert Run(db0, actions + [a]) == d;
  }

  lemma ReachableMeans(d: DB)
    requires Reachable(d)
    ensures Reconciled(d) && Agrees(d.users, d.flows) && Mirror(d.subs, d.keys)
  {
    var db, actions :| Initial(db) && Run(db, actions) == d;
    FulfilmentIsExactlyOnce(db, actions);
    LedgerAgreesInEveryReachableState(db, actions);
    KeysMirrorSubscriptions(db, actions);
  }

  // The shop

  const MONTHLY := Product(100, Month, 30, 100, "", true)
  const YEARLY := Product(100, Year, 365, 1000, "", true)
  const LARGE := Product(200, Month, 30, 300, "", true)

  const END: Time := 2592010

  function Shop(): DB {
    DB([User(None, 0, 0, 0), User(Some(0), 0, 0, 0), User(Some(0), 0, 0, 0)],
       map[1 := MONTHLY, 2 := YEARLY, 3 := LARGE], map[1 := Tier(1, 0, 0, 5000, 0, true)], 1, map[],
       [], [], [], [], [], [], [], [], [])
  }

  function Request(product: nat, orderType: OrderType, sub: Option<nat>): OrderRequest {
    OrderRequest(product, orderType, sub, 1, Some(Alipay), false, None)
  }

  /** The order row of such a request, made in second `at`. */
  function Row(user: nat, product: nat, orderType: OrderType, sub: Option<nat>, total: Cents, at: Time): Order {
    Order(OrderNo(false, at, user), user, product, orderType, sub, 1, total, Pending, false, Alipay,
          PayNo(1000 * at, user), None, None)
  }

  function NoticeFor(order: Order): Notice {
    Notice(order.channel, order.tradeNo, IdemKey(order.channel, order.tradeNo))
  }

  /** Paying order `o` of a buyer without an inviter, from outside the shop. */
  function AfterPayment(db: DB, o: nat, delivered: DB): DB
    requires o < |db.orders|
  {
    var order := db.orders[o];
    delivered.(flows := db.flows + [Flow(order.user, Pay, -order.total, None, OrderRef(o))],
               coupons := MarkCouponUsed(db, o).coupons,
               callbacks := db.callbacks + [Callback(order.channel, IdemKey(order.channel, order.tradeNo), false)])
  }

  lemma PaymentGoesThrough(db: DB, o: nat, p: Product, now: Time, d: DB)
    requires Reachable(db) && o < |db.orders| && db.orders[o].status == Pending
    requires db.orders[o].product in db.products && db.products[db.orders[o].product] == p
    requires db.orders[o].channel != Balance && !db.orders[o].invoice
    requires InviterOf(db.users, db.orders[o].user).None?
    requires forall i :: 0 <= i < |db.callbacks| ==> db.callbacks[i].key.tradeNo != db.orders[o].tradeNo
    requires Deliver(db.(orders := db.orders[o := Complete(db.orders[o], now)]), o, p, now) == Success(d)
    ensures Step(db, DoPayment(NoticeFor(db.orders[o]), now)) == AfterPayment(db, o, d)
    ensures Reachable(AfterPayment(db, o, d))
  {
    var n := NoticeFor(db.orders[o]);
    ReachableMeans(db);
    TradeNoFindsItsOrder(db.orders, o);
    assert !HasCallback(db.callbacks, n.channel, n.key);
    NotPaidYet(db, o);
    Settles(db.(orders := db.orders[o := Complete(db.orders[o], now)]), d, o, n.channel);
    StepReaches(db, DoPayment(n, now), AfterPayment(db, o, d));
  }

  lemma NotPaidYet(db: DB, o: nat)
    requires Reconciled(db) && o < |db.orders| && db.orders[o].status == Pending
    ensures !HasFlow(db.flows, Pay, OrderRef(o)) && !HasRecord(db.records, o)
  {
  }

  lemma Settles(db: DB, d: DB, o: nat, channel: Channel)
    requires o < |db.orders| && d == db.(subs := d.subs, keys := d.keys)
    requires channel != Balance && InviterOf(db.users, db.orders[o].user).None?
    requires !HasFlow(db.flows, Pay, OrderRef(o))
    ensures var order := db.orders[o];
            var paid := d.(flows := d.flows + [Flow(order.user, Pay, -order.total, None, OrderRef(o))]);
            && Deduct(d, o, channel) == Success(paid)
            && MarkCouponUsed(paid, o) == paid.(coupons := MarkCouponUsed(db, o).coupons)
            && Accrue(MarkCouponUsed(paid, o), o) == Success(MarkCouponUsed(paid, o))
  {
  }

  // User 0 buys a monthly plan

  function Ordered(): DB {
    Shop().(orders := [Row(0, 1, Purchase, None, 100, 3)])
  }

  const PLAN: Subscription := Subscription(0, 1, [0], "", 100, 100, 0, 10, END, 10, END, Live)

  function Subscribed(): DB {
    Ordered().(orders := [Complete(Row(0, 1, Purchase, None, 100, 3), 10)],
               subs := [PLAN],
               keys := [Key(0, 0, 0, Main, "", 100, 0, KeyActive)],
               flows := [Flow(0, Pay, -100, None, OrderRef(0))],
               callbacks := [Callback(Alipay, IdemKey(Alipay, PayNo(3000, 0)), false)])
  }

  lemma ShopIsReachable()
    ensures Reachable(Shop())
  {
    assert Initial(Shop()) && Run(Shop(), []) == Shop();
  }

  lemma OrderedIsReachable()
    ensures Reachable(Ordered())
  {
    ShopIsReachable();
    StepReaches(Shop(), DoPlaceOrder(0, Request(1, Purchase, None), 3, 0), Ordered());
  }

  lemma SubscribedIsReachable()
    ensures Reachable(Subscribed())
  {
    OrderedIsReachable();
    var db := Ordered();
    assert db.orders[0 := Complete(db.orders[0], 10)] == Subscribed().orders;
    var d := DeliverPurchase(db.(orders := Subscribed().orders), 0, MONTHLY, 10);
    PaymentGoesThrough(db, 0, MONTHLY, 10, d);
    assert AfterPayment(db, 0, d) == Subscribed();
  }

  /** A further order of user 0 for the subscription, placed and then paid; an upgrade is for the cycles it is charged. */
  lemma OrderAndPay(db: DB, product: nat, orderType: OrderType, qty: int, at: Time, total: Cents, now: Time, d: DB)
    requires Reachable(db) && product in db.products && db.products[product].onSale
    requires ResolveSubscription(db, 0, Request(product, orderType, Some(0)), db.products[product]) == Success(Some(0))
    requires orderType == Renewal || orderType == QuotaAddon || orderType == Upgrade
    requires orderType == Upgrade ==>
               qty == UpgradeCycles(db.subs[0].periodEnd, db.subs[0].expiresAt, Span(db.products[product].Days()))
    requires total == db.products[product].price * qty > 0 && qty > 0
    requires forall i :: 0 <= i < |db.orders| ==> db.orders[i].status == Completed
    requires forall i :: 0 <= i < |db.orders| ==> db.orders[i].no.second < at && db.orders[i].tradeNo.millis < 1000 * at
    requires forall i :: 0 <= i < |db.callbacks| ==> db.callbacks[i].key.tradeNo.millis < 1000 * at
    requires InviterOf(db.users, 0).None?
    requires var orders := db.orders + [Complete(Row(0, product, orderType, Some(0), total, at).(quantity := qty), now)];
             Deliver(db.(orders := orders), |db.orders|, db.products[product], now) == Success(d)
    ensures var placed := db.(orders := db.orders + [Row(0, product, orderType, Some(0), total, at).(quantity := qty)]);
            Reachable(AfterPayment(placed, |db.orders|, d))
  {
    var order := Row(0, product, orderType, Some(0), total, at).(quantity := qty);
    var placed := db.(orders := db.orders + [order]);
    PlacedWithoutPending(db, product, orderType, qty, at, total);
    StepReaches(db, DoPlaceOrder(0, Request(product, orderType, Some(0)).(quantity := qty), at, 0), placed);
    var o := |db.orders|;
    assert placed.orders[o := Complete(order, now)] == db.orders + [Complete(order, now)];
    PaymentGoesThrough(placed, o, db.products[product], now, d);
  }

  lemma PlacedWithoutPending(db: DB, product: nat, orderType: OrderType, qty: int, at: Time, total: Cents)
    requires product in db.products && db.products[product].onSale
    requires ResolveSubscription(db, 0, Request(product, orderType, Some(0)), db.products[product]) == Success(Some(0))
    requires orderType == Renewal || orderType == QuotaAddon || orderType == Upgrade
    requires orderType == Upgrade ==>
               qty == UpgradeCycles(db.subs[0].periodEnd, db.subs[0].expiresAt, Span(db.products[product].Days()))
    requires total == db.products[product].price * qty > 0 && qty > 0
    requires forall i :: 0 <= i < |db.orders| ==> db.orders[i].status == Completed
    requires forall i :: 0 <= i < |db.orders| ==> db.orders[i].no.second < at && db.orders[i].tradeNo.millis < 1000 * at
    ensures Step(db, DoPlaceOrder(0, Request(product, orderType, Some(0)).(quantity := qty), at, 0))
         == db.(orders := db.orders + [Row(0, product, orderType, Some(0), total, at).(quantity := qty)])
  {
    var order := Row(0, product, orderType, Some(0), total, at).(quantity := qty);
    var req := Request(product, orderType, Some(0)).(quantity := qty);
    assert ResolveSubscription(db, 0, req, db.products[product]) == Success(Some(0));
    assert CancelPending(db.orders, 0, Some(0), orderType) == db.orders;
    assert !NumberTaken(db.orders, order.no, order.tradeNo);
    assert Checkout(db.products[product].price, qty, None, false) == Success(Quote(total, 0, total, total));
    assert PlaceOrder(db, 0, req, at, 0) == CreateOrderReplacingPending(db, order);
  }

  // A renewal paid an hour late

  function Renewed(now: Time): DB {
    var order := Row(0, 1, Renewal, Some(0), 100, 20);
    Subscribed().(orders := Subscribed().orders + [Complete(order, now)],
                  subs := [PLAN.(orders := [0, 1], expiresAt := Max(now, END) + 2592000)],
                  flows := Subscribed().flows + [Flow(0, Pay, -100, None, OrderRef(1))],
                  callbacks := Subscribed().callbacks + [Callback(Alipay, IdemKey(Alipay, PayNo(20000, 0)), false)])
  }

  lemma RenewedIsReachable(now: Time)
    ensures Reachable(Renewed(now))
  {
    SubscribedIsReachable();
    var db := Subscribed();
    var order := Complete(Row(0, 1, Renewal, Some(0), 100, 20), now);
    var d := db.(orders := db.orders + [order], subs := Renewed(now).subs);
    assert UpdateWhere(db.keys, 0, Reactivate) == db.keys;
    assert PLAN.orders + [1] == [0, 1];
    assert Deliver(db.(orders := db.orders + [order]), 1, MONTHLY, now).value == d;
    OrderAndPay(db, 1, Renewal, 1, 20, 100, now, d);
    var placed := db.(orders := db.orders + [Row(0, 1, Renewal, Some(0), 100, 20)]);
    assert AfterPayment(placed, 1, d) == Renewed(now);
  }

  /**
   A renewal paid an hour after expiry: the period clock is out of step with expiry, and the front end shows two
   billing cycles for an upgrade the back end charges three for.
   */
  lemma LateRenewalMisaligns()
    ensures Reachable(Subscribed()) && Aligned(Subscribed().subs[0], 30)
    ensures var d := Renewed(END + 3600);
            var sub := d.subs[0];
            && Reachable(d) && !Aligned(sub, 30)
            && UpgradeCycles(sub.periodEnd, sub.expiresAt, Span(30)) == 3
            && UpgradeCycles(BeijingNoon(BeijingDay(sub.periodEnd)), BeijingNoon(BeijingDay(sub.expiresAt)), Span(30)) == 2
  {
    SubscribedIsReachable();
    RenewedIsReachable(END + 3600);
  }

  // A team that outgrows its quota

  /** The owner has added user 1 and given them a key of 50 tokens. */
  function OneMember(): DB {
    Subscribed().(members := map[1 := 0],
                  keys := Subscribed().keys + [Key(1, 0, 0, Sub, "", 50, 0, KeyActive)])
  }

  function TwoMembers(): DB {
    OneMember().(members := map[1 := 0, 2 := 0],
                 keys := OneMember().keys + [Key(2, 0, 0, Sub, "", 50, 0, KeyActive)])
  }

  lemma SumOf(keys: seq<Key>, k: Key)
    ensures SubKeySum(keys + [k], 0, None)
         == SubKeySum(keys, 0, None) + if k.sub == 0 && k.keyType == Sub && k.status != KeyRotated then k.limit else 0
  {
    assert (keys + [k])[..|keys|] == keys;
  }

  /** The sum over a main key and one or two sub keys. */
  lemma SumOfTeam(main: Key, k: Key, l: Key)
    requires main.keyType == Main && k.keyType == Sub && l.keyType == Sub && k.sub == 0 && l.sub == 0
    requires k.status == KeyActive && l.status == KeyActive
    ensures SubKeySum([main], 0, None) == 0
    ensures SubKeySum([main, k], 0, None) == k.limit
    ensures SubKeySum([main, k, l], 0, None) == k.limit + l.limit
  {
    SumOf([], main);
    SumOf([main], k);
    SumOf([main, k], l);
    assert [] + [main] == [main] && [main] + [k] == [main, k] && [main, k] + [l] == [main, k, l];
  }

  lemma OneMemberIsReachable()
    ensures Reachable(OneMember())
  {
    SubscribedIsReachable();
    var main := Subscribed().keys[0];
    SumOfTeam(main, OneMember().keys[1], OneMember().keys[1]);
    assert Subscribed().keys == [main];
    var d := Subscribed().(members := map[1 := 0]);
    StepReaches(Subscribed(), DoAddTeamMember(0, 1), d);
    StepReaches(d, DoCreateSubKey(0, 0, 1, 50), OneMember());
  }

  lemma TwoMembersAreReachable()
    ensures Reachable(TwoMembers())
  {
    OneMemberIsReachable();
    var main, k := OneMember().keys[0], OneMember().keys[1];
    SumOfTeam(main, k, k);
    assert OneMember().keys == [main, k];
    var d := OneMember().(members := map[1 := 0, 2 := 0]);
    StepReaches(OneMember(), DoAddTeamMember(0, 2), d);
    StepReaches(d, DoCreateSubKey(0, 0, 2, 50), TwoMembers());
  }

  /** The team after an add-on of the same plan, or an upgrade to the large one, paid in second 21. */
  function Regranted(db: DB, product: nat, orderType: OrderType, total: Cents, sub: Subscription, keys: seq<Key>): DB {
    db.(orders := db.orders + [Complete(Row(0, product, orderType, Some(0), total, 20), 21)],
        subs := [sub], keys := keys,
        flows := db.flows + [Flow(0, Pay, -total, None, OrderRef(1))],
        callbacks := db.callbacks + [Callback(Alipay, IdemKey(Alipay, PayNo(20000, 0)), false)])
  }

  function WithAddon(db: DB): DB {
    Regranted(db, 1, QuotaAddon, 100, PLAN.(limit := 200), UpdateWhere(db.keys, 0, RaiseLimit(100)))
  }

  function WithUpgrade(db: DB): DB {
    Regranted(db, 3, Upgrade, 300, PLAN.(product := 3, orders := [0, 1], base := 200, limit := 200),
              UpdateWhere(UpdateWhere(db.keys, 0, Reactivate), 0, SyncAfterUpgrade(200, "", false)))
  }

  /** The database a paid add-on is delivered into, and what it is after delivery. */
  lemma AddonDelivers(db: DB)
    requires db == OneMember() || db == TwoMembers()
    ensures var orders := db.orders + [Complete(Row(0, 1, QuotaAddon, Some(0), 100, 20), 21)];
            Deliver(db.(orders := orders), 1, MONTHLY, 21)
            == Success(db.(orders := orders, subs := WithAddon(db).subs, keys := WithAddon(db).keys))
  {
    var s := PLAN.(limit := 200);
    assert db.subs[0 := s] == [s];
  }

  lemma AddonIsReachable(db: DB)
    requires Reachable(db) && (db == OneMember() || db == TwoMembers())
    ensures Reachable(WithAddon(db))
  {
    var orders := db.orders + [Complete(Row(0, 1, QuotaAddon, Some(0), 100, 20), 21)];
    AddonDelivers(db);
    OrderAndPay(db, 1, QuotaAddon, 1, 20, 100, 21, db.(orders := orders, subs := WithAddon(db).subs, keys := WithAddon(db).keys));
  }

  lemma UpgradeIsReachable(db: DB)
    requires Reachable(db) && db == TwoMembers()
    ensures Reachable(WithUpgrade(db))
  {
    var orders := db.orders + [Complete(Row(0, 3, Upgrade, Some(0), 300, 20), 21)];
    var d := db.(orders := orders, subs := WithUpgrade(db).subs, keys := WithUpgrade(db).keys);
    assert PLAN.orders + [1] == [0, 1];
    assert Deliver(db.(orders := orders), 1, LARGE, 21).value == d;
    OrderAndPay(db, 3, Upgrade, 1, 20, 300, 21, d);
    assert AfterPayment(db.(orders := db.orders + [Row(0, 3, Upgrade, Some(0), 300, 20)]), 1, d) == WithUpgrade(db);
  }

  lemma TeamIsAllocated()
    ensures Allocated(OneMember().subs, OneMember().keys, 0) && Allocated(TwoMembers().subs, TwoMembers().keys, 0)
  {
    var keys := TwoMembers().keys;
    SumOfTeam(keys[0], keys[1], keys[2]);
    assert OneMember().keys == [keys[0], keys[1]] && keys == [keys[0], keys[1], keys[2]];
  }

  /** Two members with 50 of 100 tokens each: one add-on of 100 leaves them with 300 of 200. */
  lemma AddonOverallocates()
    ensures Reachable(TwoMembers()) && Allocated(TwoMembers().subs, TwoMembers().keys, 0)
    ensures var d := WithAddon(TwoMembers());
            Reachable(d) && SubKeySum(d.keys, 0, None) == 300 && d.subs[0].limit == 200 && !Allocated(d.subs, d.keys, 0)
  {
    TwoMembersAreReachable();
    TeamIsAllocated();
    AddonIsReachable(TwoMembers());
    var keys := WithAddon(TwoMembers()).keys;
    SumOfTeam(keys[0], keys[1], keys[2]);
    assert keys == [keys[0], keys[1], keys[2]];
  }

  /** The same two members after an upgrade to a quota of 200: 400 of 200. */
  lemma UpgradeOverallocates()
    ensures Reachable(TwoMembers()) && Allocated(TwoMembers().subs, TwoMembers().keys, 0)
    ensures var d := WithUpgrade(TwoMembers());
            Reachable(d) && SubKeySum(d.keys, 0, None) == 400 && d.subs[0].limit == 200 && !Allocated(d.subs, d.keys, 0)
  {
    TwoMembersAreReachable();
    TeamIsAllocated();
    UpgradeIsReachable(TwoMembers());
    var keys := WithUpgrade(TwoMembers()).keys;
    SumOfTeam(keys[0], keys[1], keys[2]);
    assert keys == [keys[0], keys[1], keys[2]];
  }

  /** One member, an add-on and a renewal: 150 of 200 tokens allocated, and two periods paid. */
  function BeforeReset(): DB {
    var db := WithAddon(OneMember());
    db.(orders := db.orders + [Complete(Row(0, 1, Renewal, Some(0), 100, 22), 23)],
        subs := [PLAN.(limit := 200, orders := [0, 2], expiresAt := END + 2592000)],
        flows := db.flows + [Flow(0, Pay, -100, None, OrderRef(2))],
        callbacks := db.callbacks + [Callback(Alipay, IdemKey(Alipay, PayNo(22000, 0)), false)])
  }

  lemma SecondPeriodDelivers()
    ensures var db := WithAddon(OneMember());
            var orders := db.orders + [Complete(Row(0, 1, Renewal, Some(0), 100, 22), 23)];
            Deliver(db.(orders := orders), 2, MONTHLY, 23) == Success(db.(orders := orders, subs := BeforeReset().subs))
  {
    var db := WithAddon(OneMember());
    assert UpdateWhere(db.keys, 0, Reactivate) == db.keys;
    assert db.subs[0].orders + [2] == [0, 2];
    assert db.subs[0 := BeforeReset().subs[0]] == BeforeReset().subs;
  }

  lemma BeforeResetIsReachable()
    ensures Reachable(BeforeReset())
  {
    OneMemberIsReachable();
    AddonIsReachable(OneMember());
    SecondPeriod(WithAddon(OneMember()));
  }

  lemma SecondPeriod(db: DB)
    requires db == WithAddon(OneMember()) && Reachable(db)
    ensures Reachable(BeforeReset())
  {
    SecondPeriodDelivers();
    var orders := db.orders + [Complete(Row(0, 1, Renewal, Some(0), 100, 22), 23)];
    OrderAndPay(db, 1, Renewal, 1, 22, 100, 23, db.(orders := orders, subs := BeforeReset().subs));
  }

  /** The next period reset takes the quota back to 100 and leaves the member 150. */
  lemma ResetOverallocates()
    ensures var db := BeforeReset();
            var d := Step(db, DoPeriodReset(0, END + 1));
            && Reachable(db) && Allocated(db.subs, db.keys, 0)
            && Reachable(d) && |d.subs| == 1 && d.subs[0].limit == 100 && !Allocated(d.subs, d.keys, 0)
  {
    var db := BeforeReset();
    BeforeResetIsReachable();
    StepReaches(db, DoPeriodReset(0, END + 1), Step(db, DoPeriodReset(0, END + 1)));
    SumOfTeam(db.keys[0], db.keys[1], db.keys[1]);
    assert db.keys == [db.keys[0], db.keys[1]];
    ResetKeepsBoundExactlyWhen(db, 0, END + 1);
  }

  // One user, two plans, money for both

  /** User 1, invited by user 0, has ordered a yearly plan. */
  function Invited(): DB {
    Subscribed().(orders := Subscribed().orders + [Row(1, 2, Purchase, None, 1000, 4)])
  }

  /** User 1 has paid, and half of it is user 0's commission. */
  function Rewarded(): DB {
    Invited().(users := [User(None, 0, 0, 500), User(Some(0), 0, 0, 0), User(Some(0), 0, 0, 0)],
               orders := Subscribed().orders + [Complete(Row(1, 2, Purchase, None, 1000, 4), 12)],
               subs := [PLAN, Subscription(1, 2, [1], "", 100, 100, 0, 12, 31536012, 12, 31536012, Live)],
               keys := Subscribed().keys + [Key(1, 1, 1, Main, "", 100, 0, KeyActive)],
               flows := Subscribed().flows + [Flow(1, Pay, -1000, None, OrderRef(1)), Flow(0, Commission, 500, Some(500), RecordRef(0))],
               records := [Record(0, 1, 1, 1000, 5000, 500)],
               callbacks := Subscribed().callbacks + [Callback(Alipay, IdemKey(Alipay, PayNo(4000, 1)), false)])
  }

  /** User 0 has moved the commission to the wallet. */
  function Wealthy(): DB {
    Rewarded().(users := [User(None, 0, 500, 0), User(Some(0), 0, 0, 0), User(Some(0), 0, 0, 0)],
                flows := Rewarded().flows + [Flow(0, Commission, -500, Some(0), TransferRef(0)), Flow(0, Recharge, 500, Some(500), TransferRef(0))])
  }

  function Reordered(): DB {
    Wealthy().(orders := Wealthy().orders + [Row(0, 1, Purchase, None, 100, 5)])
  }

  /** User 0 has bought the monthly plan a second time, three seconds after the first. */
  function TwoPlans(): DB {
    Reordered().(orders := Wealthy().orders + [Complete(Row(0, 1, Purchase, None, 100, 5), 13)],
                 subs := Wealthy().subs + [Subscription(0, 1, [2], "", 100, 100, 0, 13, END + 3, 13, END + 3, Live)],
                 keys := Wealthy().keys + [Key(0, 0, 2, Main, "", 100, 0, KeyActive)],
                 flows := Wealthy().flows + [Flow(0, Pay, -100, None, OrderRef(2))],
                 callbacks := Wealthy().callbacks + [Callback(Alipay, IdemKey(Alipay, PayNo(5000, 0)), false)])
  }

  lemma InvitedIsReachable()
    ensures Reachable(Invited())
  {
    SubscribedIsReachable();
    StepReaches(Subscribed(), DoPlaceOrder(1, Request(2, Purchase, None), 4, 0), Invited());
  }

  /** Delivery of the yearly plan, and the payment for it. */
  lemma YearlyPlanDelivers()
    ensures var d0 := Invited().(orders := Rewarded().orders);
            FulfilByType(d0, 1, YEARLY, Alipay, 12) == Success(BeforeReward())
  {
    var d0 := Invited().(orders := Rewarded().orders);
    var d1 := d0.(subs := Rewarded().subs, keys := Rewarded().keys);
    assert d0.subs + [Rewarded().subs[1]] == d1.subs && d0.keys + [Rewarded().keys[1]] == d1.keys;
    assert Deliver(d0, 1, YEARLY, 12).value == d1;
    assert !HasFlow(d1.flows, Pay, OrderRef(1));
  }

  function BeforeReward(): DB {
    Invited().(orders := Rewarded().orders, subs := Rewarded().subs, keys := Rewarded().keys,
               flows := Subscribed().flows + [Flow(1, Pay, -1000, None, OrderRef(1))])
  }

  lemma RewardedIsReachable()
    ensures Reachable(Rewarded())
  {
    InvitedIsReachable();
    ReachableMeans(Invited());
    TradeNoFindsItsOrder(Invited().orders, 1);
    YearlyPlanDelivers();
    RewardIsHalf(BeforeReward());
    RewardIsPaid();
    StepReaches(Invited(), DoPayment(NoticeFor(Invited().orders[1]), 12), Rewarded());
  }

  lemma RewardIsPaid()
    requires FindByTradeNo(Invited().orders, PayNo(4000, 1)) == Some(1)
    requires FulfilByType(Invited().(orders := Rewarded().orders), 1, YEARLY, Alipay, 12) == Success(BeforeReward())
    requires Accrue(BeforeReward(), 1) == Success(Rewarded().(callbacks := Invited().callbacks))
    ensures Step(Invited(), DoPayment(NoticeFor(Invited().orders[1]), 12)) == Rewarded()
  {
    var db := Invited();
    assert db.orders[1 := Complete(db.orders[1], 12)] == Rewarded().orders;
    assert FulfilPaid(db, 1, Alipay, 12) == Settle(BeforeReward(), 1);
  }

  lemma RewardIsHalf(d: DB)
    requires d == Rewarded().(users := Shop().users, records := [], callbacks := d.callbacks, flows := d.flows)
    requires d.flows == Subscribed().flows + [Flow(1, Pay, -1000, None, OrderRef(1))]
    ensures Accrue(d, 1) == Success(Rewarded().(callbacks := d.callbacks))
  {
    assert d.users[0 := d.users[0].(commission := 500)] == Rewarded().users;
    assert [] + Rewarded().records == Rewarded().records;
    assert Rewarded().flows == d.flows + [Flow(0, Commission, 500, Some(500), RecordRef(0))];
  }

  lemma CommissionIsMoved()
    ensures TransferCommission(Rewarded(), 0, Some(Decimal(5, 0)), 0) == Success(Wealthy())
  {
    var db := Rewarded();
    assert Pow10(0) == 1;
    assert ParseCommissionAmount(Some(Decimal(5, 0))) == Success(500);
    assert db.users[0 := db.users[0].(commission := 0, wallet := 500)] == Wealthy().users;
    assert db.flows + [Wealthy().flows[3]] + [Wealthy().flows[4]] == Wealthy().flows;
  }

  lemma WealthyIsReachable()
    ensures Reachable(Wealthy())
  {
    RewardedIsReachable();
    CommissionIsMoved();
    StepReaches(Rewarded(), DoTransfer(0, Some(Decimal(5, 0)), 0), Wealthy());
  }

  lemma ReorderedIsReachable()
    ensures Reachable(Reordered())
  {
    WealthyIsReachable();
    StepReaches(Wealthy(), DoPlaceOrder(0, Request(1, Purchase, None), 5, 0), Reordered());
  }

  lemma TwoPlansIsReachable()
    ensures Reachable(TwoPlans())
  {
    ReorderedIsReachable();
    var db := Reordered();
    assert db.orders[2 := Complete(db.orders[2], 13)] == TwoPlans().orders;
    PaymentGoesThrough(db, 2, MONTHLY, 13, DeliverPurchase(db.(orders := TwoPlans().orders), 2, MONTHLY, 13));
  }

  const BOT_TIME: Time := END - 100

  lemma WhatIsDue(millis: int)
    ensures var db := TwoPlans();
            && Due(db, 0, BOT_TIME) && !Due(db, 1, BOT_TIME) && Due(db, 2, BOT_TIME)
            && !Taken(db, 0, BOT_TIME, millis) && !Taken(db, 2, BOT_TIME, millis)
            && Price(db, 0) == 100 && Price(db, 2) == 100
  {
  }

  /** What subscription `s` adds to the sum due from `u`. */
  function DuePart(db: DB, s: nat, now: Time, u: nat): Cents {
    if DueOf(db, s, now, u) then Price(db, s) else 0
  }

  lemma DueSumOfThree(db: DB, ids: seq<nat>, now: Time, u: nat)
    requires |ids| == 3
    ensures DueSum(db, ids, now, u) == DuePart(db, ids[0], now, u) + DuePart(db, ids[1], now, u) + DuePart(db, ids[2], now, u)
  {
    var two, one := ids[1..], ids[2..];
    assert two[1..] == one && one[1..] == [];
    assert DueSum(db, one, now, u) == DueSum(db, [], now, u) + DuePart(db, ids[2], now, u);
    assert DueSum(db, two, now, u) == DueSum(db, one, now, u) + DuePart(db, ids[1], now, u);
  }

  lemma PartsOfTwoPlans(u: nat)
    ensures DuePart(TwoPlans(), 0, BOT_TIME, u) == DuePart(TwoPlans(), 2, BOT_TIME, u) == if u == 0 then 100 else 0
    ensures DuePart(TwoPlans(), 1, BOT_TIME, u) == 0
  {
    WhatIsDue(0);
  }

  /** The plans of user 0 come to 200, and the wallet holds 500. */
  lemma TwoPlansAreFunded(ids: seq<nat>)
    requires ids == [0, 1, 2] || ids == [2, 1, 0]
    ensures Funded(TwoPlans(), ids, BOT_TIME) && Distinct(ids) && DueSum(TwoPlans(), ids, BOT_TIME, 0) == 200
  {
    forall u ensures DueSum(TwoPlans(), ids, BOT_TIME, u) == if u == 0 then 200 else 0 {
      DueSumOfThree(TwoPlans(), ids, BOT_TIME, u);
      PartsOfTwoPlans(u);
    }
    WhatIsDue(0);
  }

  /**
   In this state, which the shop reaches, every wallet covers what is due from it, and still no order of the
   handlers renews both plans of user 0: the one whose handler runs first is renewed, the other has to wait.
   */
  lemma OrderOfHandlersMatters(millis: int)
    ensures var db := TwoPlans();
            && Reachable(db) && Funded(db, [0, 1, 2], BOT_TIME) && DueSum(db, [0, 1, 2], BOT_TIME, 0) == 200 <= db.users[0].wallet
            && !NumbersFree(db, [0, 1, 2], BOT_TIME, millis)
            && (var d := RenewAll(db, [0, 1, 2], BOT_TIME, millis); WasRenewed(db, d, 0) && !WasRenewed(db, d, 2))
            && (var d := RenewAll(db, [2, 1, 0], BOT_TIME, millis); WasRenewed(db, d, 2) && !WasRenewed(db, d, 0))
            && !AllRenewed(db, RenewAll(db, [0, 1, 2], BOT_TIME, millis), [0, 1, 2], BOT_TIME)
  {
    var db := TwoPlans();
    TwoPlansIsReachable();
    ReachableMeans(db);
    WhatIsDue(millis);
    TwoPlansAreFunded([0, 1, 2]);
    TwoPlansAreFunded([2, 1, 0]);
    OnlyFirstOfTwo(db, [0, 1, 2], BOT_TIME, millis, 0, 2);
    OnlyFirstOfTwo(db, [2, 1, 0], BOT_TIME, millis, 2, 0);
    assert 0 in [0, 1, 2] && 2 in [0, 1, 2];
    PhaseRenewsAllExactlyWhen(db, [0, 1, 2], BOT_TIME, millis);
  }

  // An upgrade with more than 99 periods ahead

  /** The monthly plan renewed for a hundred periods at once. */
  function Hundred(): DB {
    Subscribed().(orders := Subscribed().orders + [Complete(Row(0, 1, Renewal, Some(0), 10000, 20).(quantity := 100), 21)],
                  subs := [PLAN.(orders := [0, 1], expiresAt := END + 259200000)],
                  flows := Subscribed().flows + [Flow(0, Pay, -10000, None, OrderRef(1))],
                  callbacks := Subscribed().callbacks + [Callback(Alipay, IdemKey(Alipay, PayNo(20000, 0)), false)])
  }

  lemma HundredIsReachable()
    ensures Reachable(Hundred())
  {
    SubscribedIsReachable();
    var db := Subscribed();
    var order := Complete(Row(0, 1, Renewal, Some(0), 10000, 20).(quantity := 100), 21);
    var d := db.(orders := db.orders + [order], subs := Hundred().subs);
    assert UpdateWhere(db.keys, 0, Reactivate) == db.keys;
    assert PLAN.orders + [1] == [0, 1];
    assert Deliver(db.(orders := db.orders + [order]), 1, MONTHLY, 21).value == d;
    OrderAndPay(db, 1, Renewal, 100, 20, 10000, 21, d);
  }

  /** The order for an upgrade to the large plan, with 100 periods to come. */
  const CAPPED: Order := Row(0, 3, Upgrade, Some(0), 29700, 22).(quantity := 99)

  function Capped(): DB {
    Hundred().(orders := Hundred().orders + [Complete(CAPPED, 23)],
               subs := [Hundred().subs[0].(product := 3, orders := [0, 1, 2], base := 200, limit := 200)],
               keys := UpdateWhere(UpdateWhere(Hundred().keys, 0, Reactivate), 0, SyncAfterUpgrade(200, "", false)),
               flows := Hundred().flows + [Flow(0, Pay, -29700, None, OrderRef(2))],
               callbacks := Hundred().callbacks + [Callback(Alipay, IdemKey(Alipay, PayNo(22000, 0)), false)])
  }

  lemma CappedDelivers()
    ensures var orders := Hundred().orders + [Complete(CAPPED, 23)];
            Deliver(Hundred().(orders := orders), 2, LARGE, 23)
            == Success(Hundred().(orders := orders, subs := Capped().subs, keys := Capped().keys))
  {
    assert [0, 1] + [2] == [0, 1, 2];
    assert Hundred().subs[0 := Capped().subs[0]] == Capped().subs;
  }

  lemma CappedIsReachable()
    ensures Reachable(Capped())
  {
    HundredIsReachable();
    CappedDelivers();
    var orders := Hundred().orders + [Complete(CAPPED, 23)];
    OrderAndPay(Hundred(), 3, Upgrade, 99, 22, 29700, 23,
                Hundred().(orders := orders, subs := Capped().subs, keys := Capped().keys));
  }

  /**
   An upgrade charged for 99 cycles with 100 periods still to come after the running one.  Whatever happens next,
   if the subscription is not renewed or upgraded again and every period sees the bot, all 100 are delivered.
   */
  lemma CappedUpgradeIsUndercharged(after: seq<Action>, times: seq<Time>)
    ensures Reachable(Capped()) && Capped().orders[2].status == Completed && Capped().orders[2].quantity == 99
    ensures Remaining(Capped().subs[0].periodEnd, Capped().subs[0].expiresAt, Span(30)) == 100
    ensures Undisturbed(Capped(), after, 0, Span(30)) && TicksOf(after, 0) == BotTicks(times) && Sorted(times)
            && SeesEveryPeriod(times, Capped().subs[0].periodEnd, Capped().subs[0].expiresAt, Span(30)) ==>
              ResetsOf(Capped(), after, 0) == 100
  {
    CappedIsReachable();
    if Undisturbed(Capped(), after, 0, Span(30)) && TicksOf(after, 0) == BotTicks(times) && Sorted(times)
       && SeesEveryPeriod(times, Capped().subs[0].periodEnd, Capped().subs[0].expiresAt, Span(30))
    {
      BotDeliversRemainingPeriods(Capped(), after, 0, Span(30), times);
    }
  }

  // Two orders priced with one coupon

  /** User 0 holds a coupon of ten cents. */
  function Holding(): DB {
    Shop().(coupons := [Coupon(0, Amount(10), 0, Available, 0, 100, None)])
  }

  /** An order for the monthly plan with the coupon, made in second `at`. */
  function Discounted(at: Time): Order {
    Row(0, 1, Purchase, None, 90, at).(coupon := Some(0))
  }

  function TwoOrders(): DB {
    Holding().(orders := [Discounted(3), Discounted(4)])
  }

  /** Paying order `o` for a monthly plan. */
  function PlanPaid(db: DB, o: nat, now: Time): DB
    requires o < |db.orders|
  {
    AfterPayment(db, o, DeliverPurchase(db.(orders := db.orders[o := Complete(db.orders[o], now)]), o, MONTHLY, now))
  }

  function OneOrder(): DB {
    Holding().(orders := [Discounted(3)])
  }

  lemma OneOrderIsReachable()
    ensures Reachable(OneOrder())
  {
    ShopIsReachable();
    StepReaches(Shop(), DoGrantCoupon(0, Amount(10), 0, 0, 100), Holding());
    StepReaches(Holding(), DoPlaceOrder(0, Request(1, Purchase, None).(coupon := Some(0)), 3, 0), OneOrder());
  }

  lemma TwoOrdersAreReachable()
    ensures Reachable(TwoOrders())
  {
    OneOrderIsReachable();
    StepReaches(OneOrder(), DoPlaceOrder(0, Request(1, Purchase, None).(coupon := Some(0)), 4, 0), TwoOrders());
  }

  /** Paying one of the discounted orders goes through, whether or not the coupon is still there. */
  lemma DiscountedIsPaid(db: DB, o: nat, at: Time, now: Time)
    requires Reachable(db) && db.products == Shop().products && db.users == Shop().users
    requires o < |db.orders| && db.orders[o] == Discounted(at)
    requires forall i :: 0 <= i < |db.callbacks| ==> db.callbacks[i].key.tradeNo != PayNo(1000 * at, 0)
    ensures Reachable(PlanPaid(db, o, now))
  {
    PaymentGoesThrough(db, o, MONTHLY, now, DeliverPurchase(db.(orders := db.orders[o := Complete(db.orders[o], now)]), o, MONTHLY, now));
  }

  /** One coupon, two pending orders priced with it: both are paid at the discount, and the coupon names the first. */
  lemma OneCouponTwoDiscounts()
    ensures Reachable(TwoOrders()) && TwoOrders().orders == [Discounted(3), Discounted(4)]
    ensures var d := PlanPaid(PlanPaid(TwoOrders(), 0, 10), 1, 11);
            && Reachable(d) && d.coupons == [Holding().coupons[0].(status := Used, order := Some(0))]
            && d.orders == [Complete(Discounted(3), 10), Complete(Discounted(4), 11)]
            && Discounted(3).total == Discounted(4).total == MONTHLY.price - 10
            && |d.subs| == 2
  {
    TwoOrdersAreReachable();
    DiscountedIsPaid(TwoOrders(), 0, 3, 10);
    DiscountedIsPaid(PlanPaid(TwoOrders(), 0, 10), 1, 4, 11);
  }

  // A product with a negative quota

  /** The monthly plan has been given a quota of -150. */
  function Requoted(): DB {
    Subscribed().(products := Subscribed().products[1 := MONTHLY.(limitTokens := -150)])
  }

  function Undercut(): DB {
    Requoted().(orders := Subscribed().orders + [Complete(Row(0, 1, QuotaAddon, Some(0), 100, 20), 21)],
                subs := [PLAN.(limit := -50)],
                keys := UpdateWhere(Subscribed().keys, 0, RaiseLimit(-150)),
                flows := Subscribed().flows + [Flow(0, Pay, -100, None, OrderRef(1))],
                callbacks := Subscribed().callbacks + [Callback(Alipay, IdemKey(Alipay, PayNo(20000, 0)), false)])
  }

  /** An add-on of it leaves the subscription with a quota of -50 under a base quota of 100. */
  lemma NegativeAddonUndercuts()
    ensures Reachable(Requoted()) && BaseCovered(Requoted().subs[0])
    ensures Reachable(Undercut()) && !BaseCovered(Undercut().subs[0])
    ensures Undercut().subs[0].base == 100 && Undercut().subs[0].limit == -50
  {
    SubscribedIsReachable();
    var db := Requoted();
    StepReaches(Subscribed(), DoSettings(db.products, db.tiers, db.defaultTier), db);
    var orders := db.orders + [Complete(Row(0, 1, QuotaAddon, Some(0), 100, 20), 21)];
    var d := db.(orders := orders, subs := Undercut().subs, keys := Undercut().keys);
    assert db.subs[0 := PLAN.(limit := -50)] == Undercut().subs;
    assert Deliver(db.(orders := orders), 1, db.products[1], 21).value == d;
    OrderAndPay(db, 1, QuotaAddon, 1, 20, 100, 21, d);
  }

  // A renewal at a negative price

  /** The yearly plan of user 1 now costs less than nothing. */
  function Repriced(): DB {
    Rewarded().(products := Rewarded().products[2 := YEARLY.(price := -1000)])
  }

  const YEAR_END: Time := 31536012

  lemma RepricedIsReachable()
    ensures Reachable(Repriced())
  {
    RewardedIsReachable();
    StepReaches(Rewarded(), DoSettings(Repriced().products, Repriced().tiers, Repriced().defaultTier), Repriced());
  }

  lemma RepricedIsPayable(millis: int)
    ensures Payable(Repriced(), 1, YEAR_END - 100, millis)
  {
  }

  lemma RepricedRenews(millis: int)
    ensures Reachable(Repriced()) && Renews(Repriced(), 1, YEAR_END - 100, millis)
  {
    RepricedIsReachable();
    ReachableMeans(Repriced());
    RepricedIsPayable(millis);
    RenewsExactlyWhen(Repriced(), 1, YEAR_END - 100, millis);
  }

  lemma PaidByInvitees()
    ensures Vip.PaidTotal(Repriced().users, Repriced().orders, 0) == 1000
  {
    var db := Repriced();
    assert db.orders[..1][..0] == [] && db.orders[..2] == db.orders && db.orders[..2][..1] == db.orders[..1];
    assert Vip.PaidTotal(db.users, db.orders[..1], 0) == Vip.PaidTotal(db.users, [], 0) == 0;
  }

  /** A tier for invitees who have paid ten yuan. */
  const SILVER: Tier := Tier(2, 0, 1000, 6000, 1, true)

  /** The bot's renewal for user 1 takes back what user 0's invitees have paid, and user 0 no longer qualifies. */
  lemma NegativeRenewalLowersTier(millis: int)
    ensures var db := Repriced();
            var d := Step(db, DoAutoRenew(1, YEAR_END - 100, millis));
            && Reachable(db) && Reachable(d) && Vip.PaysBack(db, DoAutoRenew(1, YEAR_END - 100, millis), 0)
            && Vip.BestOf([SILVER], Vip.InviteCount(db.users, 0), Vip.PaidTotal(db.users, db.orders, 0)) == Some(SILVER)
            && Vip.BestOf([SILVER], Vip.InviteCount(d.users, 0), Vip.PaidTotal(d.users, d.orders, 0)) == None
  {
    var db := Repriced();
    RepricedRenews(millis);
    StepReaches(db, DoAutoRenew(1, YEAR_END - 100, millis), Step(db, DoAutoRenew(1, YEAR_END - 100, millis)));
    PaidByInvitees();
    Vip.RenewalAddsPrice(db, 1, YEAR_END - 100, millis, 0);
    assert [SILVER][..0] == [];
  }
}
