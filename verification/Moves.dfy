/**
 How a step of the shop moves one subscription: at most one of six moves, each legal only in certain states.
 */
module Moves {
  import opened Common
  import opened Billing
  import opened Tables
  import opened Engine
  import opened Shapes

  datatype Move =
    | Stay
    | Extend(order: Order, o: nat, product: Product, now: Time)
    | Regrade(order: Order, o: nat, product: Product, now: Time)
    | TopUp(o: nat, tokens: Tokens)
    | Roll(days: int)
    | Lapse

  /** What fulfilling an order does to the subscription it is for. */
  function MoveFor(order: Order, o: nat, p: Product, now: Time): Move {
    match order.orderType
    case Renewal => Extend(order, o, p, now)
    case Upgrade => Regrade(order, o, p, now)
    case QuotaAddon => TopUp(o, p.limitTokens)
    case _ => Stay
  }

  function MoveOf(db: DB, a: Action, s: nat): Move
    requires s < |db.subs|
  {
    match a
    case DoPayment(n, now) =>
      var found := FindByTradeNo(db.orders, n.tradeNo);
      if found.None? || !Fulfils(db, n, now, found.value) || db.orders[found.value].sub != Some(s) then Stay
      else
        var o := found.value;
        MoveFor(Complete(db.orders[o], now), o, db.products[db.orders[o].product], now)
    case DoAutoRenew(r, now, millis) =>
      if r == s && Renews(db, s, now, millis)
      then Extend(BotOrder(db, s, now, millis), |db.orders|, db.products[db.subs[s].product], now) else Stay
    case DoPeriodReset(r, now) =>
      if r == s && Resets(db, s, now) then Roll(db.products[db.subs[s].product].Days()) else Stay
    case DoExpire(r, now) => if r == s && Expires(db, s, now) then Lapse else Stay
    case _ => Stay
  }

  function Moved(sub: Subscription, m: Move): Subscription {
    match m
    case Stay => sub
    case Extend(order, o, p, now) => RenewedSub(sub, order, o, p, now)
    case Regrade(order, o, p, now) => UpgradedSub(sub, order, o, p, now)
    case TopUp(_, tokens) => sub.(limit := sub.limit + tokens)
    case Roll(days) => ResetSubscription(sub, days)
    case Lapse => sub.(status := Lapsed)
  }

  /** In which states of the subscription a move can happen at all. */
  predicate Legal(sub: Subscription, m: Move) {
    match m
    case Extend(order, _, p, _) => sub.status == Live && order.product == sub.product
    case TopUp(_, _) => sub.status == Live
    case Roll(days) => sub.status == Live && sub.periodEnd < sub.expiresAt && days > 0
    case Lapse => sub.status == Live
    case _ => true
  }

  lemma DeliverMoves(db: DB, o: nat, p: Product, now: Time, s: nat)
    requires s < |db.subs| && o < |db.orders| && Deliver(db, o, p, now).Success?
    ensures var subs := Deliver(db, o, p, now).value.subs;
            var m := if db.orders[o].sub == Some(s) then MoveFor(db.orders[o], o, p, now) else Stay;
            s < |subs| && subs[s] == Moved(db.subs[s], m) && Legal(db.subs[s], m)
  {
  }

  lemma PaymentMoves(db: DB, n: Notice, now: Time, s: nat)
    requires s < |db.subs|
    ensures var d := Step(db, DoPayment(n, now));
            var m := MoveOf(db, DoPayment(n, now), s);
            s < |d.subs| && d.subs[s] == Moved(db.subs[s], m) && Legal(db.subs[s], m)
  {
    PaymentShape(db, n, now);
    var found := FindByTradeNo(db.orders, n.tradeNo);
    if found.Some? && Fulfils(db, n, now, found.value) {
      var o := found.value;
      FulfilPaidShape(db, o, n.channel, now);
      DeliverMoves(db.(orders := db.orders[o := Complete(db.orders[o], now)]), o, db.products[db.orders[o].product], now, s);
    }
  }

  lemma BotMoves(db: DB, a: Action, s: nat)
    requires s < |db.subs|
    requires a.DoAutoRenew? || a.DoPeriodReset? || a.DoExpire?
    ensures var d := Step(db, a);
            var m := MoveOf(db, a, s);
            s < |d.subs| && d.subs[s] == Moved(db.subs[s], m) && Legal(db.subs[s], m)
  {
    if a.DoAutoRenew? {
      if Renews(db, a.sub, a.now, a.millis) {
        RenewsShape(db, a.sub, a.now, a.millis);
      } else {
        NoRenewalNoChange(db, a.sub, a.now, a.millis);
      }
    }
  }

  /** Every step moves every existing subscription by one legal move. */
  lemma StepMoves(db: DB, a: Action, s: nat)
    requires s < |db.subs|
    ensures var d := Step(db, a);
            var m := MoveOf(db, a, s);
            s < |d.subs| && d.subs[s] == Moved(db.subs[s], m) && Legal(db.subs[s], m)
  {
    match a
    case DoPayment(n, now) => PaymentMoves(db, n, now, s);
    case DoAutoRenew(_, _, _) => BotMoves(db, a, s);
    case DoPeriodReset(_, _) => BotMoves(db, a, s);
    case DoExpire(_, _) => BotMoves(db, a, s);
    case _ => StepFrame(db, a);
  }

  /** The step opens a subscription: a purchase is fulfilled. */
  predicate Opens(db: DB, a: Action) {
    a.DoPayment? &&
    var found := FindByTradeNo(db.orders, a.notice.tradeNo);
    found.Some? && Fulfils(db, a.notice, a.now, found.value) && db.orders[found.value].orderType == Purchase
  }

  function OpenedBy(db: DB, a: Action): (o: nat)
    requires Opens(db, a)
    ensures o < |db.orders| && db.orders[o].product in db.products && db.orders[o].status == Pending
  {
    FindByTradeNo(db.orders, a.notice.tradeNo).value
  }

  function OpenedSub(db: DB, a: Action): Subscription
    requires Opens(db, a)
  {
    var o := OpenedBy(db, a);
    NewSubscription(Complete(db.orders[o], a.now), o, db.products[db.orders[o].product], a.now)
  }

  lemma PaymentOpens(db: DB, a: Action)
    requires a.DoPayment?
    ensures var d := Step(db, a);
            && (Opens(db, a) ==> |d.subs| == |db.subs| + 1 && d.subs[|db.subs|] == OpenedSub(db, a))
            && (!Opens(db, a) ==> |d.subs| == |db.subs|)
  {
    PaymentShape(db, a.notice, a.now);
    var found := FindByTradeNo(db.orders, a.notice.tradeNo);
    if found.Some? && Fulfils(db, a.notice, a.now, found.value) {
      var o := found.value;
      FulfilPaidShape(db, o, a.notice.channel, a.now);
      DeliverOpens(db.(orders := db.orders[o := Complete(db.orders[o], a.now)]), o, db.products[db.orders[o].product], a.now);
    }
  }

  lemma DeliverOpens(db: DB, o: nat, p: Product, now: Time)
    requires o < |db.orders| && Deliver(db, o, p, now).Success?
    ensures var d := Deliver(db, o, p, now).value;
            if db.orders[o].orderType == Purchase then d.subs == db.subs + [NewSubscription(db.orders[o], o, p, now)]
            else |d.subs| == |db.subs|
  {
  }

  lemma BotOpensNone(db: DB, a: Action)
    requires a.DoAutoRenew? || a.DoPeriodReset? || a.DoExpire?
    ensures |Step(db, a).subs| == |db.subs|
  {
    if a.DoAutoRenew? {
      if Renews(db, a.sub, a.now, a.millis) {
        RenewsShape(db, a.sub, a.now, a.millis);
      } else {
        NoRenewalNoChange(db, a.sub, a.now, a.millis);
      }
    }
  }

  lemma StepOpens(db: DB, a: Action)
    ensures var d := Step(db, a);
            && (Opens(db, a) ==> |d.subs| == |db.subs| + 1 && d.subs[|db.subs|] == OpenedSub(db, a))
            && (!Opens(db, a) ==> |d.subs| == |db.subs|)
  {
    match a
    case DoPayment(_, _) => PaymentOpens(db, a);
    case DoAutoRenew(_, _, _) => BotOpensNone(db, a);
    case DoPeriodReset(_, _) => BotOpensNone(db, a);
    case DoExpire(_, _) => BotOpensNone(db, a);
    case _ => StepFrame(db, a);
  }

  /** A row that was not there before is the opened subscription. */
  lemma NewRowIsOpened(db: DB, a: Action, s: nat)
    requires |db.subs| <= s < |Step(db, a).subs|
    ensures Opens(db, a) && s == |db.subs| && Step(db, a).subs[s] == OpenedSub(db, a)
  {
    StepOpens(db, a);
  }

  lemma {:induction false} RunLast(db: DB, actions: seq<Action>)
    requires actions != []
    ensures Run(db, actions) == Step(Run(db, actions[..|actions| - 1]), actions[|actions| - 1])
    decreases |actions|
  {
    if |actions| > 1 {
      var rest := actions[1..];
      RunLast(Step(db, actions[0]), rest);
      assert rest[..|rest| - 1] == actions[..|actions| - 1][1..];
    }
  }
}
