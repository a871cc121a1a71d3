/**
 What each transaction does to the database, as a function from the state before to the state committed.
 A Failure is a rolled-back transaction.  Each call of a service and each bot handler is one atomic step.
 */
module Engine {
  import opened Common
  import opened Billing
  import opened Money
  import opened Tables

  const AUTO_RENEW_LEAD: int := 7 * DAY

  // Users and their two balances

  function ApplyWalletDelta(db: DB, user: nat, delta: Cents): (r: Result<DB>)
    ensures r.Success? ==> user < |db.users| && |r.value.users| == |db.users|
  {
    if user >= |db.users| then Failure(UserNotFound)
    else
      var u := db.users[user];
      if u.wallet + delta < 0 then Failure(InsufficientWallet)
      else Success(db.(users := db.users[user := u.(wallet := u.wallet + delta)]))
  }

  function ApplyCommissionDelta(db: DB, user: nat, delta: Cents): (r: Result<DB>)
    ensures r.Success? ==> user < |db.users| && |r.value.users| == |db.users|
  {
    if user >= |db.users| then Failure(UserNotFound)
    else
      var u := db.users[user];
      if u.commission + delta < 0 then Failure(InsufficientCommission)
      else Success(db.(users := db.users[user := u.(commission := u.commission + delta)]))
  }

  function TransferCommissionToWallet(db: DB, user: nat, amount: Cents): (r: Result<DB>)
    ensures r.Success? ==> user < |db.users| && |r.value.users| == |db.users|
  {
    if user >= |db.users| then Failure(UserNotFound)
    else if amount <= 0 then Failure(ParamsError)
    else
      var u := db.users[user];
      if u.commission - amount < 0 then Failure(InsufficientCommission)
      else Success(db.(users := db.users[user := u.(commission := u.commission - amount, wallet := u.wallet + amount)]))
  }

  // Flows, unique by type and reference

  predicate HasFlow(flows: seq<Flow>, flowType: FlowType, ref: FlowRef) {
    exists i :: 0 <= i < |flows| && flows[i].flowType == flowType && flows[i].ref == ref
  }

  function CreateFlow(db: DB, f: Flow): Result<DB> {
    if HasFlow(db.flows, f.flowType, f.ref) then Failure(DuplicateKey)
    else Success(db.(flows := db.flows + [f]))
  }

  // Orders, unique by order number and by payment number

  predicate NumberTaken(orders: seq<Order>, no: OrderNo, tradeNo: TradeNo) {
    exists i :: 0 <= i < |orders| && (orders[i].no == no || orders[i].tradeNo == tradeNo)
  }

  function CreateOrderRow(db: DB, order: Order): Result<DB> {
    if NumberTaken(db.orders, order.no, order.tradeNo) then Failure(DuplicateKey)
    else Success(db.(orders := db.orders + [order]))
  }

  function FindByTradeNo(orders: seq<Order>, tradeNo: TradeNo): (r: Option<nat>)
    ensures r.Some? ==> r.value < |orders| && orders[r.value].tradeNo == tradeNo
    ensures r.None? ==> forall i :: 0 <= i < |orders| ==> orders[i].tradeNo != tradeNo
  {
    if orders == [] then None
    else
      var n := |orders| - 1;
      var earlier := FindByTradeNo(orders[..n], tradeNo);
      if earlier.Some? then earlier else if orders[n].tradeNo == tradeNo then Some(n) else None
  }

  predicate SamePending(order: Order, user: nat, sub: Option<nat>, orderType: OrderType) {
    order.user == user && order.sub == sub && order.orderType == orderType && order.status == Pending
  }

  /** Every pending order of the same user, subscription and type is cancelled. */
  function CancelPending(orders: seq<Order>, user: nat, sub: Option<nat>, orderType: OrderType): (r: seq<Order>)
    ensures |r| == |orders|
  {
    seq(|orders|, i requires 0 <= i < |orders| =>
      if SamePending(orders[i], user, sub, orderType) then orders[i].(status := Cancelled) else orders[i])
  }

  function CreateOrderReplacingPending(db: DB, order: Order): Result<DB> {
    CreateOrderRow(db.(orders := CancelPending(db.orders, order.user, order.sub, order.orderType)), order)
  }

  // Keys

  /** The column updates the services apply to keys in bulk. */
  datatype KeyUpdate =
    | Reactivate
    | SyncAfterUpgrade(limit: Tokens, category: string, clearUsed: bool)
    | RaiseLimit(tokens: Tokens)
    | ExpireKey
    | ResetMain(limit: Tokens)
    | ResetSub

  /** Which rows besides those of the subscription that are not rotated: a reset names one key type. */
  predicate Selects(u: KeyUpdate, k: Key) {
    match u
    case ResetMain(_) => k.keyType == Main
    case ResetSub => k.keyType == Sub
    case _ => true
  }

  function UpdateKey(u: KeyUpdate, k: Key): Key {
    match u
    case Reactivate => k.(status := KeyActive)
    case SyncAfterUpgrade(limit, category, clearUsed) =>
      k.(limit := limit, category := category, used := if clearUsed then 0 else k.used)
    case RaiseLimit(tokens) => k.(limit := k.limit + tokens)
    case ExpireKey => k.(status := KeyExpired)
    case ResetMain(limit) => k.(limit := limit, used := 0)
    case ResetSub => k.(used := 0)
  }

  function UpdateWhere(keys: seq<Key>, sub: nat, u: KeyUpdate): (r: seq<Key>)
    ensures |r| == |keys|
  {
    seq(|keys|, i requires 0 <= i < |keys| =>
      if keys[i].sub == sub && keys[i].status != KeyRotated && Selects(u, keys[i]) then UpdateKey(u, keys[i]) else keys[i])
  }

  // Payment of an order from the wallet or through a channel

  function Deduct(db: DB, o: nat, channel: Channel): Result<DB>
    requires o < |db.orders|
  {
    var order := db.orders[o];
    if channel == Balance then
      var d :- ApplyWalletDelta(db, order.user, -order.total);
      CreateFlow(d, Flow(order.user, Pay, -order.total, Some(d.users[order.user].wallet), OrderRef(o)))
    else
      CreateFlow(db, Flow(order.user, Pay, -order.total, None, OrderRef(o)))
  }

  // The four kinds of fulfilment

  function OwnerOf(members: map<nat, nat>, user: nat): nat {
    if user in members then members[user] else user
  }

  function NewSubscription(order: Order, o: nat, p: Product, now: Time): Subscription {
    var grant := p.limitTokens * order.quantity;
    var end := PeriodsAfter(now, p.Days(), Max(order.quantity, 1));
    Subscription(order.user, order.product, [o], p.category, grant, grant, 0, now, end, now, end, Live)
  }

  function DeliverPurchase(db: DB, o: nat, p: Product, now: Time): DB
    requires o < |db.orders|
  {
    var order := db.orders[o];
    var sub := NewSubscription(order, o, p, now);
    var key := Key(order.user, OwnerOf(db.members, order.user), |db.subs|, Main, p.category, sub.limit, 0, KeyActive);
    db.(subs := db.subs + [sub], keys := db.keys + [key])
  }

  /** The subscription an order refers to, looked up together with its owner. */
  function FindOwnSubscription(db: DB, order: Order): (r: Result<nat>)
    ensures r.Success? ==> r.value < |db.subs| && order.sub == Some(r.value) && db.subs[r.value].user == order.user
  {
    match order.sub
    case None => Failure(MissingSubscription)
    case Some(s) =>
      if s < |db.subs| && db.subs[s].user == order.user then Success(s) else Failure(SubscriptionNotFound)
  }

  function RenewedSub(sub: Subscription, order: Order, o: nat, p: Product, now: Time): Subscription {
    sub.(orders := sub.orders + [o],
         expiresAt := PeriodsAfter(Max(now, sub.expiresAt), p.Days(), Max(order.quantity, 1)))
  }

  function DeliverRenewal(db: DB, o: nat, p: Product, now: Time): Result<DB>
    requires o < |db.orders|
  {
    var order := db.orders[o];
    var s :- FindOwnSubscription(db, order);
    var sub := db.subs[s];
    if sub.product != order.product then Failure(ProductMismatch)
    else if sub.status != Live then Failure(SubscriptionNotActive)
    else Success(db.(subs := db.subs[s := RenewedSub(sub, order, o, p, now)],
                     keys := UpdateWhere(db.keys, s, Reactivate)))
  }

  function UpgradedSub(sub: Subscription, order: Order, o: nat, p: Product, now: Time): Subscription {
    var s := sub.(product := order.product, orders := sub.orders + [o], category := p.category,
                  base := p.limitTokens, limit := p.limitTokens);
    if sub.status == Live then s
    else
      var end := PeriodsAfter(now, p.Days(), Max(order.quantity, 1));
      s.(used := 0, startedAt := now, expiresAt := end, periodStart := now, periodEnd := end, status := Live)
  }

  function DeliverUpgrade(db: DB, o: nat, p: Product, now: Time): Result<DB>
    requires o < |db.orders|
  {
    var order := db.orders[o];
    var s :- FindOwnSubscription(db, order);
    var sub := UpgradedSub(db.subs[s], order, o, p, now);
    var sync := SyncAfterUpgrade(sub.limit, p.category, db.subs[s].status != Live);
    Success(db.(subs := db.subs[s := sub], keys := UpdateWhere(UpdateWhere(db.keys, s, Reactivate), s, sync)))
  }

  function DeliverAddon(db: DB, o: nat, p: Product, now: Time): Result<DB>
    requires o < |db.orders|
  {
    var s :- FindOwnSubscription(db, db.orders[o]);
    var sub := db.subs[s];
    if sub.status != Live then Failure(SubscriptionNotActive)
    else Success(db.(subs := db.subs[s := sub.(limit := sub.limit + p.limitTokens)],
                     keys := UpdateWhere(db.keys, s, RaiseLimit(p.limitTokens))))
  }

  /** What the buyer receives; only subscriptions and keys change. */
  function Deliver(db: DB, o: nat, p: Product, now: Time): (r: Result<DB>)
    requires o < |db.orders|
    ensures r.Success? ==> r.value == db.(subs := r.value.subs, keys := r.value.keys)
  {
    match db.orders[o].orderType
    case Purchase => Success(DeliverPurchase(db, o, p, now))
    case Renewal => DeliverRenewal(db, o, p, now)
    case Upgrade => DeliverUpgrade(db, o, p, now)
    case QuotaAddon => DeliverAddon(db, o, p, now)
    case Unrecognised => Failure(UnknownOrderType)
  }

  /** Every kind of fulfilment ends with the payment. */
  function FulfilByType(db: DB, o: nat, p: Product, channel: Channel, now: Time): Result<DB>
    requires o < |db.orders|
  {
    var d :- Deliver(db, o, p, now);
    Deduct(d, o, channel)
  }

  // Coupon, rebate and invoice of a paid order

  function MarkCouponUsed(db: DB, o: nat): DB
    requires o < |db.orders|
  {
    match db.orders[o].coupon
    case None => db
    case Some(c) =>
      if c < |db.coupons| && db.coupons[c].user == db.orders[o].user && db.coupons[c].status == Available
      then db.(coupons := db.coupons[c := db.coupons[c].(status := Used, order := Some(o))])
      else db
  }

  function RebateRate(db: DB, inviter: User): int {
    if inviter.vip in db.tiers && db.tiers[inviter.vip].enabled then db.tiers[inviter.vip].rate
    else
      var fallback := if db.defaultTier == 0 then 1 else db.defaultTier;
      if fallback in db.tiers then db.tiers[fallback].rate else 0
  }

  predicate HasRecord(records: seq<Record>, o: nat) {
    exists i :: 0 <= i < |records| && records[i].order == o
  }

  /** The inviter credited for a user's orders, if any. */
  function InviterOf(users: seq<User>, buyer: nat): (r: Option<nat>)
    ensures r.Some? ==> r.value < |users| && buyer < |users| && r.value != buyer && users[buyer].parent == r
  {
    if buyer >= |users| then None
    else match users[buyer].parent
         case None => None
         case Some(i) => if i == buyer || i >= |users| then None else Some(i)
  }

  function Rebate(total: Cents, rate: int): Cents {
    RoundDiv(total * rate, 10000)
  }

  function Accrue(db: DB, o: nat): Result<DB>
    requires o < |db.orders|
  {
    var order := db.orders[o];
    if HasRecord(db.records, o) then Success(db)
    else match InviterOf(db.users, order.user)
         case None => Success(db)
         case Some(inviter) =>
           var rate := RebateRate(db, db.users[inviter]);
           var rebate := Rebate(order.total, rate);
           if rate <= 0 || rebate <= 0 then Success(db)
           else
             var record := Record(inviter, order.user, o, order.total, rate, rebate);
             var d :- ApplyCommissionDelta(db.(records := db.records + [record]), inviter, rebate);
             CreateFlow(d, Flow(inviter, Commission, rebate, Some(d.users[inviter].commission), RecordRef(|db.records|)))
  }

  function CreateInvoice(db: DB, o: nat): DB
    requires o < |db.orders|
  {
    var order := db.orders[o];
    if order.invoice then db.(invoices := db.invoices + [Invoice(o, order.user, order.total)]) else db
  }

  /** What follows delivery and payment. */
  function Settle(db: DB, o: nat): Result<DB>
    requires o < |db.orders|
  {
    var d :- Accrue(MarkCouponUsed(db, o), o);
    Success(CreateInvoice(d, o))
  }

  // Payment notifications

  datatype Notice = Notice(channel: Channel, tradeNo: TradeNo, key: IdemKey)

  predicate HasCallback(callbacks: seq<Callback>, channel: Channel, key: IdemKey) {
    exists i :: 0 <= i < |callbacks| && callbacks[i].channel == channel && callbacks[i].key == key
  }

  function Complete(order: Order, now: Time): Order {
    order.(status := Completed, paidAt := Some(now))
  }

  function ApplyPayment(db: DB, n: Notice, now: Time): Result<DB> {
    if HasCallback(db.callbacks, n.channel, n.key) then Success(db)
    else match FindByTradeNo(db.orders, n.tradeNo)
         case None => Failure(RecordNotFound)
         case Some(o) =>
           var order := db.orders[o];
           if order.status == Completed then
             Success(db.(callbacks := db.callbacks + [Callback(n.channel, n.key, true)]))
           else if order.status != Pending then Failure(NotPayable)
           else if order.product !in db.products then Failure(RecordNotFound)
           else
             var d := FulfilPaid(db, o, n.channel, now);
             if d.Failure? then d
             else Success(d.value.(callbacks := d.value.callbacks + [Callback(n.channel, n.key, false)]))
  }

  /** All that paying a pending order does, short of recording the notification. */
  function FulfilPaid(db: DB, o: nat, channel: Channel, now: Time): Result<DB>
    requires o < |db.orders| && db.orders[o].product in db.products
  {
    var d0 := db.(orders := db.orders[o := Complete(db.orders[o], now)]);
    var d1 :- FulfilByType(d0, o, db.products[db.orders[o].product], channel, now);
    Settle(d1, o)
  }

  /** The service call: a notification names the channel it came through and the order's payment number. */
  function HandlePaymentNotify(db: DB, channel: Option<Channel>, tradeNo: TradeNo, succeeded: bool, now: Time): Result<DB> {
    if channel.None? || channel == Some(Balance) || !succeeded then Failure(ParamsError)
    else match FindByTradeNo(db.orders, tradeNo)
         case None => Failure(PaymentNotFound)
         case Some(o) =>
           if db.orders[o].channel != channel.value then Failure(ParamsError)
           else ApplyPayment(db, Notice(channel.value, tradeNo, IdemKey(channel.value, tradeNo)), now)
  }

  // Placing an order

  datatype OrderRequest = OrderRequest(product: nat, orderType: OrderType, sub: Option<nat>, quantity: int,
                                       channel: Option<Channel>, invoice: bool, coupon: Option<nat>)

  predicate ActiveOwn(db: DB, user: nat, s: nat) {
    s < |db.subs| && db.subs[s].user == user && db.subs[s].status == Live
  }

  /** Which subscription the order is for; only a purchase is for none. */
  function ResolveSubscription(db: DB, user: nat, req: OrderRequest, p: Product): (r: Result<Option<nat>>)
    ensures r.Success? && r.value.Some? ==> ActiveOwn(db, user, r.value.value)
    ensures r.Success? ==> (r.value.None? <==> req.orderType == Purchase)
  {
    if req.orderType == Purchase then Success(None)
    else if req.orderType == Unrecognised || req.sub.None? then Failure(ParamsError)
    else
      var s := req.sub.value;
      if !ActiveOwn(db, user, s) then Failure(NoSubscription)
      else
        var sub := db.subs[s];
        match req.orderType
        case Upgrade =>
          if sub.product == req.product || p.limitTokens <= sub.limit then Failure(ParamsError)
          else if p.category != "" && sub.category != "" && p.category != sub.category then Failure(ParamsError)
          else Success(Some(s))
        case _ => if sub.product != req.product then Failure(ParamsError) else Success(Some(s))
  }

  predicate CouponUsable(db: DB, user: nat, c: nat, now: Time) {
    && c < |db.coupons| && db.coupons[c].user == user && db.coupons[c].status == Available
    && db.coupons[c].validFrom <= now <= db.coupons[c].validUntil
  }

  function CouponOffer(db: DB, user: nat, coupon: Option<nat>, now: Time): Result<Option<(Discount, Cents)>> {
    match coupon
    case None => Success(None)
    case Some(c) =>
      if CouponUsable(db, user, c, now) then Success(Some((db.coupons[c].discount, db.coupons[c].minOrder)))
      else Failure(CouponUnavailable)
  }

  function PlaceOrder(db: DB, user: nat, req: OrderRequest, now: Time, millis: int): Result<DB> {
    if req.channel.None? || req.channel == Some(Balance) then Failure(ParamsError)
    else if req.orderType == Unrecognised then Failure(ParamsError)
    else if req.product !in db.products || !db.products[req.product].onSale then Failure(ProductNotFound)
    else
      var p := db.products[req.product];
      var sub :- ResolveSubscription(db, user, req, p);
      var qty := if sub.Some? && req.orderType == Upgrade
                 then UpgradeCycles(db.subs[sub.value].periodEnd, db.subs[sub.value].expiresAt, Span(p.Days()))
                 else req.quantity;
      var offer :- CouponOffer(db, user, req.coupon, now);
      var quote :- Checkout(p.price, qty, offer, req.invoice);
      var order := Order(OrderNo(false, now, user % 10000), user, req.product, req.orderType, sub, qty, quote.total,
                         Pending, req.invoice, req.channel.value, PayNo(1000 * now + millis, user), req.coupon, None);
      if req.orderType == Purchase then CreateOrderRow(db, order) else CreateOrderReplacingPending(db, order)
  }

  // The lifecycle bot's three handlers

  /** Ready for auto-renewal: within the lead of expiry and in the last paid period. */
  predicate RenewalDue(sub: Subscription, now: Time) {
    && sub.status == Live
    && sub.expiresAt - AUTO_RENEW_LEAD <= now < sub.expiresAt
    && sub.periodEnd == sub.expiresAt
  }

  function RenewalOrder(s: nat, sub: Subscription, price: Cents, now: Time, millis: int): Order {
    Order(OrderNo(true, now, sub.user % 10000), sub.user, sub.product, Renewal, Some(s), 1, price, Completed, false,
          Balance, RenewNo(1000 * now + millis, s), None, Some(now))
  }

  function FulfilBalanceRenewal(db: DB, o: nat, p: Product, now: Time): Result<DB>
    requires o < |db.orders|
  {
    var d1 :- Deduct(db, o, Balance);
    var d2 :- DeliverRenewal(d1, o, p, now);
    Accrue(d2, o)
  }

  function AutoRenew(db: DB, s: nat, now: Time, millis: int): Result<DB> {
    if s >= |db.subs| || !RenewalDue(db.subs[s], now) then Success(db)
    else
      var sub := db.subs[s];
      if sub.product !in db.products then Failure(RecordNotFound)
      else if sub.user >= |db.users| then Failure(RecordNotFound)
      else
        var p := db.products[sub.product];
        if db.users[sub.user].wallet < p.price then Success(db)
        else
          var d :- CreateOrderRow(db, RenewalOrder(s, sub, p.price, now, millis));
          FulfilBalanceRenewal(d, |db.orders|, p, now)
  }

  predicate ResetDue(sub: Subscription, now: Time) {
    sub.status == Live && sub.periodEnd < now && sub.periodEnd < sub.expiresAt
  }

  function ResetSubscription(sub: Subscription, days: int): Subscription {
    sub.(periodStart := sub.periodEnd, periodEnd := AddPeriod(sub.periodEnd, days), limit := sub.base, used := 0)
  }

  function PeriodReset(db: DB, s: nat, now: Time): Result<DB> {
    if s >= |db.subs| || !ResetDue(db.subs[s], now) then Success(db)
    else
      var sub := db.subs[s];
      if sub.product !in db.products then Failure(RecordNotFound)
      else Success(db.(subs := db.subs[s := ResetSubscription(sub, db.products[sub.product].Days())],
                       keys := UpdateWhere(UpdateWhere(db.keys, s, ResetMain(sub.base)), s, ResetSub)))
  }

  predicate ExpiryDue(sub: Subscription, now: Time) {
    sub.status == Live && sub.expiresAt < now
  }

  function Expire(db: DB, s: nat, now: Time): Result<DB> {
    if s >= |db.subs| || !ExpiryDue(db.subs[s], now) then Success(db)
    else Success(db.(subs := db.subs[s := db.subs[s].(status := Lapsed)], keys := UpdateWhere(db.keys, s, ExpireKey)))
  }

  // Team keys

  /** Tokens promised to the sub keys of a subscription, one row left out if named. */
  function SubKeySum(keys: seq<Key>, s: nat, except: Option<nat>): Tokens {
    if keys == [] then 0
    else
      var n := |keys| - 1;
      var k := keys[n];
      SubKeySum(keys[..n], s, except)
        + if k.sub == s && k.keyType == Sub && k.status != KeyRotated && except != Some(n) then k.limit else 0
  }

  predicate HasActiveSubKey(keys: seq<Key>, s: nat, member: nat) {
    exists i :: 0 <= i < |keys| && keys[i].sub == s && keys[i].user == member && keys[i].keyType == Sub
                && keys[i].status == KeyActive
  }

  function CreateSubKey(db: DB, owner: nat, s: nat, member: nat, limit: Tokens): Result<DB> {
    if !ActiveOwn(db, owner, s) then Failure(NoSubscription)
    else if member !in db.members || db.members[member] != owner then Failure(Forbidden)
    else if HasActiveSubKey(db.keys, s, member) then Failure(SubKeyDuplicate)
    else if SubKeySum(db.keys, s, None) + limit > db.subs[s].limit then Failure(SubKeyLimitExceeded)
    else Success(db.(keys := db.keys + [Key(member, OwnerOf(db.members, owner), s, Sub, db.subs[s].category, limit, 0, KeyActive)]))
  }

  function UpdateSubKeyLimit(db: DB, owner: nat, k: nat, limit: Tokens): Result<DB> {
    if k >= |db.keys| then Failure(KeyNotFound)
    else
      var key := db.keys[k];
      if key.owner != owner || key.keyType != Sub then Failure(Forbidden)
      else if limit < key.used then Failure(ParamsError)
      else if key.sub >= |db.subs| then Failure(NoSubscription)
      else if SubKeySum(db.keys, key.sub, Some(k)) + limit > db.subs[key.sub].limit then Failure(SubKeyLimitExceeded)
      else Success(db.(keys := db.keys[k := key.(limit := limit)]))
  }

  function AddTeamMember(db: DB, owner: nat, user: nat): Result<DB> {
    if user >= |db.users| then Failure(UserNotFound)
    else if db.users[user].parent != Some(owner) then Failure(MemberNotInvited)
    else if user in db.members then Failure(MemberExists)
    else Success(db.(members := db.members[user := owner]))
  }

  // Commission leaves by withdrawal or by transfer to the wallet

  function CreateWithdrawal(db: DB, user: nat, typed: Option<Decimal>, channelReady: bool): Result<DB> {
    var amount :- ParseCommissionAmount(typed);
    if !channelReady then Failure(ParamsError)
    else
      var d :- ApplyCommissionDelta(db, user, -amount);
      CreateFlow(d.(withdrawals := d.withdrawals + [Withdrawal(user, amount)]),
                 Flow(user, Withdraw, -amount, Some(d.users[user].commission), WithdrawalRef(|db.withdrawals|)))
  }

  function TransferCommission(db: DB, user: nat, typed: Option<Decimal>, ref: nat): Result<DB> {
    var amount :- ParseCommissionAmount(typed);
    var d1 :- TransferCommissionToWallet(db, user, amount);
    var d2 :- CreateFlow(d1, Flow(user, Commission, -amount, Some(d1.users[user].commission), TransferRef(ref)));
    CreateFlow(d2, Flow(user, Recharge, amount, Some(d1.users[user].wallet), TransferRef(ref)))
  }

  function ExpireCoupons(coupons: seq<Coupon>, before: Time): (r: seq<Coupon>)
    ensures |r| == |coupons|
  {
    seq(|coupons|, i requires 0 <= i < |coupons| =>
      if coupons[i].status == Available && coupons[i].validUntil < before then coupons[i].(status := CouponExpired)
      else coupons[i])
  }

  // Runs of the whole system

  /**
   One atomic step.  The last six are the surroundings: registrations, the team register, the catalogue and
   promotion settings an administrator edits, and the gateway that meters usage.
   */
  datatype Action =
    | DoPlaceOrder(user: nat, req: OrderRequest, now: Time, millis: int)
    | DoPayment(notice: Notice, now: Time)
    | DoAutoRenew(sub: nat, now: Time, millis: int)
    | DoPeriodReset(sub: nat, now: Time)
    | DoExpire(sub: nat, now: Time)
    | DoCreateSubKey(owner: nat, sub: nat, user: nat, limit: Tokens)
    | DoUpdateSubKeyLimit(owner: nat, key: nat, limit: Tokens)
    | DoWithdraw(user: nat, typed: Option<Decimal>, channelReady: bool)
    | DoTransfer(user: nat, typed: Option<Decimal>, ref: nat)
    | DoExpireCoupons(now: Time)
    | DoAddTeamMember(owner: nat, user: nat)
    | DoRegister(parent: Option<nat>, vip: nat)
    | DoSetVip(user: nat, vip: nat)
    | DoSettings(products: map<nat, Product>, tiers: map<nat, Tier>, defaultTier: nat)
    | DoGrantCoupon(user: nat, discount: Discount, minOrder: Cents, validFrom: Time, validUntil: Time)
    | DoMeter(key: nat, tokens: Tokens)

  function Attempt(db: DB, a: Action): Result<DB> {
    match a
    case DoPlaceOrder(user, req, now, millis) => PlaceOrder(db, user, req, now, millis)
    case DoPayment(notice, now) => ApplyPayment(db, notice, now)
    case DoAutoRenew(s, now, millis) => AutoRenew(db, s, now, millis)
    case DoPeriodReset(s, now) => PeriodReset(db, s, now)
    case DoExpire(s, now) => Expire(db, s, now)
    case DoCreateSubKey(owner, s, user, limit) => CreateSubKey(db, owner, s, user, limit)
    case DoUpdateSubKeyLimit(owner, k, limit) => UpdateSubKeyLimit(db, owner, k, limit)
    case DoWithdraw(user, typed, channelReady) => CreateWithdrawal(db, user, typed, channelReady)
    case DoTransfer(user, typed, ref) => TransferCommission(db, user, typed, ref)
    case DoExpireCoupons(now) => Success(db.(coupons := ExpireCoupons(db.coupons, now)))
    case DoAddTeamMember(owner, user) => AddTeamMember(db, owner, user)
    case DoRegister(parent, vip) => Success(db.(users := db.users + [User(parent, vip, 0, 0)]))
    case DoSetVip(user, vip) =>
      if user < |db.users| then Success(db.(users := db.users[user := db.users[user].(vip := vip)])) else Failure(UserNotFound)
    case DoSettings(products, tiers, defaultTier) =>
      Success(db.(products := products, tiers := tiers, defaultTier := defaultTier))
    case DoGrantCoupon(user, discount, minOrder, validFrom, validUntil) =>
      Success(db.(coupons := db.coupons + [Coupon(user, discount, minOrder, Available, validFrom, validUntil, None)]))
    case DoMeter(k, tokens) =>
      if k < |db.keys| then Success(db.(keys := db.keys[k := db.keys[k].(used := db.keys[k].used + tokens)]))
      else Failure(KeyNotFound)
  }

  /** A failed attempt is rolled back. */
  function Step(db: DB, a: Action): DB {
    var r := Attempt(db, a);
    if r.Success? then r.value else db
  }

  function Run(db: DB, actions: seq<Action>): DB
    decreases |actions|
  {
    if actions == [] then db else Run(Step(db, actions[0]), actions[1..])
  }

  /** A shop before its first order: users have nothing yet. */
  ghost predicate Initial(db: DB) {
    && db.orders == [] && db.subs == [] && db.keys == [] && db.flows == [] && db.records == []
    && db.withdrawals == [] && db.callbacks == [] && db.invoices == []
    && (forall u :: 0 <= u < |db.users| ==> db.users[u].wallet == 0 && db.users[u].commission == 0)
    && (forall c :: 0 <= c < |db.coupons| ==> db.coupons[c].status == Available && db.coupons[c].order == None)
  }
}
