/**
 An upgrade is charged for exactly the quota periods it will deliver: the running one and one for each reset
 the bot later performs at the new tier.
 */
module UpgradeCharge {
  import opened Common
  import opened Billing
  import opened Tables
  import opened Engine
  import opened Shapes
  import opened Moves
  import opened OrderBook

  // One subscription under the bot

  /** The part of a subscription the bot acts on. */
  datatype Dial = Dial(periodEnd: Time, expiresAt: Time, live: bool)

  datatype Tick = ResetTick(at: Time) | ExpiryTick(at: Time)

  function DialOf(sub: Subscription): Dial {
    Dial(sub.periodEnd, sub.expiresAt, sub.status == Live)
  }

  predicate TickResets(d: Dial, t: Tick) {
    t.ResetTick? && d.live && d.periodEnd < t.at && d.periodEnd < d.expiresAt
  }

  function AfterTick(d: Dial, t: Tick, span: int): Dial {
    if TickResets(d, t) then d.(periodEnd := d.periodEnd + span)
    else if t.ExpiryTick? && d.live && d.expiresAt < t.at then d.(live := false)
    else d
  }

  function AfterTicks(d: Dial, ticks: seq<Tick>, span: int): Dial
    decreases |ticks|
  {
    if ticks == [] then d else AfterTicks(AfterTick(d, ticks[0], span), ticks[1..], span)
  }

  function ResetsIn(d: Dial, ticks: seq<Tick>, span: int): nat
    decreases |ticks|
  {
    if ticks == [] then 0
    else (if TickResets(d, ticks[0]) then 1 else 0) + ResetsIn(AfterTick(d, ticks[0], span), ticks[1..], span)
  }

  /** The bot's runs at the given times: in each, the reset handler comes before the expiry handler. */
  function BotTicks(times: seq<Time>): seq<Tick> {
    if times == [] then [] else [ResetTick(times[0]), ExpiryTick(times[0])] + BotTicks(times[1..])
  }

  /** The end of the `k`th period after the one that ends at `periodEnd`. */
  function Boundary(periodEnd: Time, k: nat, span: int): Time {
    periodEnd + k * span
  }

  ghost predicate RunInPeriod(times: seq<Time>, periodEnd: Time, k: nat, span: int) {
    exists i :: 0 <= i < |times| && Boundary(periodEnd, k, span) < times[i] <= Boundary(periodEnd, k + 1, span)
  }

  /** Every period that begins before expiry sees a run of the bot before it ends. */
  ghost predicate SeesEveryPeriod(times: seq<Time>, periodEnd: Time, expiresAt: Time, span: int) {
    forall k: nat :: Boundary(periodEnd, k, span) < expiresAt ==> RunInPeriod(times, periodEnd, k, span)
  }

  predicate Sorted(times: seq<Time>) {
    forall i, j :: 0 <= i < j < |times| ==> times[i] <= times[j]
  }

  ghost predicate RunAfter(times: seq<Time>, t: Time) {
    exists i :: 0 <= i < |times| && t < times[i]
  }

  /** Periods that still begin before expiry. */
  function Remaining(periodEnd: Time, expiresAt: Time, span: int): int
    requires span > 0
  {
    if expiresAt <= periodEnd then 0 else CeilDiv(expiresAt - periodEnd, span)
  }

  lemma {:induction false} DeadStaysDead(d: Dial, ticks: seq<Tick>, span: int)
    requires !d.live
    ensures ResetsIn(d, ticks, span) == 0 && AfterTicks(d, ticks, span) == d
    decreases |ticks|
  {
    if ticks != [] {
      DeadStaysDead(d, ticks[1..], span);
    }
  }

  lemma BoundaryGrows(periodEnd: Time, k: nat, span: int)
    requires span > 0
    ensures Boundary(periodEnd, k, span) >= periodEnd
    ensures Boundary(periodEnd, k + 1, span) == Boundary(periodEnd + span, k, span)
    ensures Boundary(periodEnd, 0, span) == periodEnd && Boundary(periodEnd, 1, span) == periodEnd + span
  {
    MulKeepsOrder(0, k, span);
    assert (k + 1) * span == k * span + span;
  }

  /** A run before the first boundary is no period's witness. */
  lemma LaterRunsSeeEveryPeriod(times: seq<Time>, periodEnd: Time, expiresAt: Time, span: int)
    requires span > 0 && times != [] && times[0] <= periodEnd
    requires SeesEveryPeriod(times, periodEnd, expiresAt, span)
    ensures SeesEveryPeriod(times[1..], periodEnd, expiresAt, span)
  {
    forall k: nat | Boundary(periodEnd, k, span) < expiresAt
      ensures RunInPeriod(times[1..], periodEnd, k, span)
    {
      BoundaryGrows(periodEnd, k, span);
      assert RunInPeriod(times, periodEnd, k, span);
      var i :| 0 <= i < |times| && Boundary(periodEnd, k, span) < times[i] <= Boundary(periodEnd, k + 1, span);
      assert times[1..][i - 1] == times[i];
    }
  }

  /** The first run after the end of a period comes before the end of the next one. */
  lemma FirstRunIsInTime(times: seq<Time>, periodEnd: Time, expiresAt: Time, span: int)
    requires span > 0 && times != [] && Sorted(times) && periodEnd < expiresAt
    requires SeesEveryPeriod(times, periodEnd, expiresAt, span)
    ensures times[0] <= periodEnd + span
  {
    BoundaryGrows(periodEnd, 0, span);
    assert RunInPeriod(times, periodEnd, 0, span);
  }

  lemma ShiftedSeesEveryPeriod(times: seq<Time>, periodEnd: Time, expiresAt: Time, span: int)
    requires span > 0 && SeesEveryPeriod(times, periodEnd, expiresAt, span)
    ensures SeesEveryPeriod(times, periodEnd + span, expiresAt, span)
  {
    var next := periodEnd + span;
    forall k: nat | Boundary(next, k, span) < expiresAt
      ensures RunInPeriod(times, next, k, span)
    {
      BoundaryGrows(periodEnd, k, span);
      BoundaryGrows(periodEnd, k + 1, span);
      assert RunInPeriod(times, periodEnd, k + 1, span);
    }
  }

  lemma RemainingStep(periodEnd: Time, expiresAt: Time, span: int)
    requires span > 0
    ensures periodEnd < expiresAt ==> Remaining(periodEnd, expiresAt, span) == 1 + Remaining(periodEnd + span, expiresAt, span)
  {
    CeilDivStep(expiresAt - periodEnd, span);
  }

  lemma RunAfterTail(times: seq<Time>, t: Time)
    requires times != []
    ensures RunAfter(times, t) <==> t < times[0] || RunAfter(times[1..], t)
  {
    if RunAfter(times, t) && !(t < times[0]) {
      var i :| 0 <= i < |times| && t < times[i];
      assert times[1..][i - 1] == times[i];
    }
  }

  /**
   However the bot's runs are spaced, if every period sees one, the resets performed are exactly the periods that
   still begin before expiry; and the subscription has lapsed in the end exactly when some run came after expiry.
   */
  lemma {:induction false} ScheduleDeliversRemaining(d: Dial, times: seq<Time>, span: int)
    requires span > 0 && d.live && Sorted(times)
    requires SeesEveryPeriod(times, d.periodEnd, d.expiresAt, span)
    ensures ResetsIn(d, BotTicks(times), span) == Remaining(d.periodEnd, d.expiresAt, span)
    ensures AfterTicks(d, BotTicks(times), span).live <==> !RunAfter(times, d.expiresAt)
    decreases |times|
  {
    if times == [] {
      BoundaryGrows(d.periodEnd, 0, span);
      assert !RunInPeriod(times, d.periodEnd, 0, span);
    } else {
      var n, rest := times[0], times[1..];
      var d1 := AfterTick(d, ResetTick(n), span);
      var d2 := AfterTick(d1, ExpiryTick(n), span);
      OneRun(d, n, rest, span);
      RunAfterTail(times, d.expiresAt);
      RemainingStep(d.periodEnd, d.expiresAt, span);
      assert [n] + rest == times;
      if d.periodEnd < d.expiresAt {
        FirstRunIsInTime(times, d.periodEnd, d.expiresAt, span);
      }
      if d2.live {
        if d.periodEnd < n {
          ShiftedSeesEveryPeriod(times, d.periodEnd, d.expiresAt, span);
        }
        LaterRunsSeeEveryPeriod(times, d1.periodEnd, d.expiresAt, span);
        ScheduleDeliversRemaining(d2, rest, span);
      } else {
        DeadStaysDead(d2, BotTicks(rest), span);
      }
    }
  }

  lemma OneRun(d: Dial, n: Time, times: seq<Time>, span: int)
    ensures var d1 := AfterTick(d, ResetTick(n), span);
            var d2 := AfterTick(d1, ExpiryTick(n), span);
            && AfterTicks(d, BotTicks([n] + times), span) == AfterTicks(d2, BotTicks(times), span)
            && ResetsIn(d, BotTicks([n] + times), span) ==
               (if TickResets(d, ResetTick(n)) then 1 else 0) + ResetsIn(d2, BotTicks(times), span)
  {
    var ticks := BotTicks([n] + times);
    assert ([n] + times)[1..] == times;
    assert ticks == [ResetTick(n), ExpiryTick(n)] + BotTicks(times);
    assert ticks[1..][1..] == BotTicks(times);
  }

  // The same subscription inside a run of the whole shop

  function TickOf(a: Action, s: nat): seq<Tick> {
    match a
    case DoPeriodReset(r, now) => if r == s then [ResetTick(now)] else []
    case DoExpire(r, now) => if r == s then [ExpiryTick(now)] else []
    case _ => []
  }

  function TicksOf(actions: seq<Action>, s: nat): seq<Tick> {
    if actions == [] then [] else TickOf(actions[0], s) + TicksOf(actions[1..], s)
  }

  /** How many steps of the run reset the quota period of `s`. */
  function ResetsOf(db: DB, actions: seq<Action>, s: nat): nat
    decreases |actions|
  {
    if actions == [] then 0
    else (if s < |db.subs| && MoveOf(db, actions[0], s).Roll? then 1 else 0) + ResetsOf(Step(db, actions[0]), actions[1..], s)
  }

  /** No renewal or further upgrade of `s` is fulfilled, and its product stays on record with the same period. */
  ghost predicate Undisturbed(db: DB, actions: seq<Action>, s: nat, span: int)
    decreases |actions|
  {
    && s < |db.subs| && db.subs[s].product in db.products && Span(db.products[db.subs[s].product].Days()) == span
    && (actions != [] ==>
          && !MoveOf(db, actions[0], s).Extend? && !MoveOf(db, actions[0], s).Regrade?
          && Undisturbed(Step(db, actions[0]), actions[1..], s, span))
  }

  lemma StepTurnsDial(db: DB, a: Action, s: nat, span: int)
    requires s < |db.subs| && db.subs[s].product in db.products && Span(db.products[db.subs[s].product].Days()) == span
    requires !MoveOf(db, a, s).Extend? && !MoveOf(db, a, s).Regrade?
    ensures s < |Step(db, a).subs|
    ensures var d := DialOf(db.subs[s]);
            DialOf(Step(db, a).subs[s]) == AfterTicks(d, TickOf(a, s), span)
            && (MoveOf(db, a, s).Roll? <==> ResetsIn(d, TickOf(a, s), span) == 1)
            && ResetsIn(d, TickOf(a, s), span) <= 1
            && Step(db, a).subs[s].base == db.subs[s].base
            && (MoveOf(db, a, s).Roll? ==> Step(db, a).subs[s].limit == db.subs[s].base && Step(db, a).subs[s].used == 0)
  {
    StepMoves(db, a, s);
    var t := TickOf(a, s);
    if t != [] {
      assert t[1..] == [];
    }
  }

  lemma {:induction false} TicksCompose(d: Dial, ticks: seq<Tick>, more: seq<Tick>, span: int)
    ensures AfterTicks(d, ticks + more, span) == AfterTicks(AfterTicks(d, ticks, span), more, span)
    ensures ResetsIn(d, ticks + more, span) == ResetsIn(d, ticks, span) + ResetsIn(AfterTicks(d, ticks, span), more, span)
    decreases |ticks|
  {
    if ticks == [] {
      assert ticks + more == more;
    } else {
      assert (ticks + more)[1..] == ticks[1..] + more;
      TicksCompose(AfterTick(d, ticks[0], span), ticks[1..], more, span);
    }
  }

  /** In an undisturbed run only the bot's handlers turn the clock of `s`, in the order they come, at one tier. */
  lemma {:induction false} RunTurnsDial(db: DB, actions: seq<Action>, s: nat, span: int)
    requires Undisturbed(db, actions, s, span)
    ensures var d := Run(db, actions);
            && s < |d.subs| && d.subs[s].base == db.subs[s].base
            && DialOf(d.subs[s]) == AfterTicks(DialOf(db.subs[s]), TicksOf(actions, s), span)
            && ResetsOf(db, actions, s) == ResetsIn(DialOf(db.subs[s]), TicksOf(actions, s), span)
    decreases |actions|
  {
    if actions != [] {
      var a := actions[0];
      StepTurnsDial(db, a, s, span);
      RunTurnsDial(Step(db, a), actions[1..], s, span);
      TicksCompose(DialOf(db.subs[s]), TickOf(a, s), TicksOf(actions[1..], s), span);
    }
  }

  /** The same inside a run of the whole shop. */
  lemma BotDeliversRemainingPeriods(db: DB, actions: seq<Action>, s: nat, span: int, times: seq<Time>)
    requires Undisturbed(db, actions, s, span) && span > 0 && db.subs[s].status == Live
    requires TicksOf(actions, s) == BotTicks(times) && Sorted(times)
    requires SeesEveryPeriod(times, db.subs[s].periodEnd, db.subs[s].expiresAt, span)
    ensures ResetsOf(db, actions, s) == Remaining(db.subs[s].periodEnd, db.subs[s].expiresAt, span)
    ensures s < |Run(db, actions).subs|
    ensures Run(db, actions).subs[s].status == Lapsed <==> RunAfter(times, db.subs[s].expiresAt)
    ensures Run(db, actions).subs[s].base == db.subs[s].base
  {
    RunTurnsDial(db, actions, s, span);
    ScheduleDeliversRemaining(DialOf(db.subs[s]), times, span);
  }

  /** The quantity an upgrade order is priced at. */
  lemma UpgradeOrderQuantity(db: DB, user: nat, req: OrderRequest, s: nat, now: Time, millis: int)
    requires PlaceOrder(db, user, req, now, millis).Success? && req.orderType == Upgrade && req.sub == Some(s)
    ensures ActiveOwn(db, user, s) && req.product in db.products
    ensures var orders := PlaceOrder(db, user, req, now, millis).value.orders;
            var o := |db.orders|;
            && o < |orders| && orders[o].sub == Some(s) && orders[o].product == req.product && orders[o].orderType == Upgrade
            && orders[o].quantity == UpgradeCycles(db.subs[s].periodEnd, db.subs[s].expiresAt,
                                                   Span(db.products[req.product].Days()))
  {
  }

  /** Its terms are still those when it is paid. */
  lemma QuantityIsKept(db: DB, user: nat, req: OrderRequest, s: nat, now: Time, millis: int, placed: DB, before: seq<Action>,
                       db1: DB)
    requires OrdersOk(db.orders)
    requires PlaceOrder(db, user, req, now, millis) == Success(placed) && req.orderType == Upgrade && req.sub == Some(s)
    requires db1 == Run(placed, before)
    ensures ActiveOwn(db, user, s) && req.product in db.products && |db.orders| < |db1.orders|
    ensures IsUpgradeOrder(db1.orders[|db.orders|], s, req.product)
    ensures db1.orders[|db.orders|].quantity ==
            UpgradeCycles(db.subs[s].periodEnd, db.subs[s].expiresAt, Span(db.products[req.product].Days()))
  {
    UpgradeOrderQuantity(db, user, req, s, now, millis);
    PlaceOrderKeepsBook(db, user, req, now, millis);
    SettledIsFinal(placed, before, |db.orders|);
  }

  /** What an upgrade order is charged for, at any later time. */
  lemma ChargedQuantity(db: DB, user: nat, req: OrderRequest, s: nat, now: Time, millis: int, placed: DB, before: seq<Action>,
                        db1: DB, d: Dial, span: int)
    requires OrdersOk(db.orders)
    requires PlaceOrder(db, user, req, now, millis) == Success(placed) && req.orderType == Upgrade && req.sub == Some(s)
    requires db1 == Run(placed, before)
    requires req.product in db.products ==> span == Span(db.products[req.product].Days())
    requires s < |db.subs| && d == DialOf(db.subs[s])
    ensures ActiveOwn(db, user, s) && d.live && |db.orders| < |db1.orders| && span > 0
    ensures IsUpgradeOrder(db1.orders[|db.orders|], s, req.product)
    ensures ChargesFor(db1.orders[|db.orders|].quantity, Remaining(d.periodEnd, d.expiresAt, span))
  {
    QuantityIsKept(db, user, req, s, now, millis, placed, before, db1);
    CyclesAreRemaining(db.subs[s].periodEnd, db.subs[s].expiresAt, span);
  }

  /** The charge for a number of later periods: one more than they are, up to the cap. */
  predicate ChargesFor(charged: int, later: int) {
    charged == Min(MAX_QTY, 1 + later) && (charged == 1 + later <==> later < MAX_QTY)
  }

  predicate IsUpgradeOrder(order: Order, s: nat, product: nat) {
    order.orderType == Upgrade && order.sub == Some(s) && order.product == product
  }

  lemma PaymentUpgrades(db: DB, notice: Notice, paidAt: Time, o: nat, s: nat)
    requires Fulfils(db, notice, paidAt, o) && s < |db.subs|
    requires db.orders[o].orderType == Upgrade && db.orders[o].sub == Some(s) && db.subs[s].status == Live
    ensures var d := Step(db, DoPayment(notice, paidAt));
            && s < |d.subs| && DialOf(d.subs[s]) == DialOf(db.subs[s]) && d.subs[s].product == db.orders[o].product
            && d.subs[s].base == db.products[db.orders[o].product].limitTokens
  {
    StepMoves(db, DoPayment(notice, paidAt), s);
  }

  lemma CyclesAreRemaining(periodEnd: Time, expiresAt: Time, span: int)
    requires span > 0
    ensures Remaining(periodEnd, expiresAt, span) >= 0
    ensures UpgradeCycles(periodEnd, expiresAt, span) == Min(MAX_QTY, 1 + Remaining(periodEnd, expiresAt, span))
  {
    CeilDivStep(expiresAt - periodEnd, span);
  }

  /**
   An upgrade order for a live subscription is placed in `db0`; after anything else in the shop it is paid in
   `db1`, the subscription still being live in the same period with the same expiry; then, with no renewal or
   further upgrade, every period that begins before expiry sees a run of the bot.  The resets performed in that
   time are exactly the periods charged after the first, precisely when the charge was not cut off at 99, and the base
   quota they restore is the new tier's throughout.
   */
  lemma UpgradeIsChargedForWhatItDelivers(
      db0: DB, user: nat, req: OrderRequest, s: nat, now: Time, millis: int, placed: DB, before: seq<Action>, db1: DB,
      notice: Notice, paidAt: Time, db2: DB, after: seq<Action>, d: Dial, span: int, times: seq<Time>)
    requires OrdersOk(db0.orders) && s < |db0.subs| && d == DialOf(db0.subs[s])
    requires PlaceOrder(db0, user, req, now, millis) == Success(placed) && req.orderType == Upgrade && req.sub == Some(s)
    requires req.product in db0.products && span == Span(db0.products[req.product].Days())
    requires db1 == Run(placed, before)
    requires Fulfils(db1, notice, paidAt, |db0.orders|)
    requires s < |db1.subs| && DialOf(db1.subs[s]) == d
    requires db2 == Step(db1, DoPayment(notice, paidAt))
    requires Undisturbed(db2, after, s, span)
    requires TicksOf(after, s) == BotTicks(times) && Sorted(times)
    requires SeesEveryPeriod(times, d.periodEnd, d.expiresAt, span)
    ensures var delivered := ResetsOf(db2, after, s);
            && db2.subs[s].product == req.product && req.product in db1.products
            && db2.subs[s].base == db1.products[req.product].limitTokens
            && delivered == Remaining(d.periodEnd, d.expiresAt, span)
            && ChargesFor(db1.orders[|db0.orders|].quantity, delivered)
    ensures var sold := Run(db2, after);
            && s < |sold.subs| && sold.subs[s].base == db2.subs[s].base
            && (sold.subs[s].status == Lapsed <==> RunAfter(times, d.expiresAt))
  {
    ChargedQuantity(db0, user, req, s, now, millis, placed, before, db1, d, span);
    PaidUpgradeDelivers(db1, notice, paidAt, |db0.orders|, s, req.product, d, db2, after, span, times);
  }

  /** From the payment on. */
  lemma PaidUpgradeDelivers(db1: DB, notice: Notice, paidAt: Time, o: nat, s: nat, product: nat, d: Dial, db2: DB,
                            after: seq<Action>, span: int, times: seq<Time>)
    requires Fulfils(db1, notice, paidAt, o) && s < |db1.subs| && span > 0
    requires IsUpgradeOrder(db1.orders[o], s, product) && DialOf(db1.subs[s]) == d && d.live
    requires db2 == Step(db1, DoPayment(notice, paidAt))
    requires Undisturbed(db2, after, s, span) && TicksOf(after, s) == BotTicks(times) && Sorted(times)
    requires SeesEveryPeriod(times, d.periodEnd, d.expiresAt, span)
    ensures product in db1.products && db2.subs[s].product == product
    ensures db2.subs[s].base == db1.products[product].limitTokens
    ensures ResetsOf(db2, after, s) == Remaining(d.periodEnd, d.expiresAt, span)
    ensures var sold := Run(db2, after);
            && s < |sold.subs| && sold.subs[s].base == db2.subs[s].base
            && (sold.subs[s].status == Lapsed <==> RunAfter(times, d.expiresAt))
  {
    PaymentUpgrades(db1, notice, paidAt, o, s);
    BotDeliversRemainingPeriods(db2, after, s, span, times);
  }
}
