/**
 The two clocks of a subscription and its quota, over whole runs: order of the four instants, alignment of
 periods with expiry, conservation of paid time, and one automatic renewal per period.
 */
module Clock {
  import opened Common
  import opened Billing
  import opened Tables
  import opened Engine
  import opened Shapes
  import opened Moves

  // Order of the instants

  predicate Ticking(sub: Subscription) {
    && sub.startedAt <= sub.periodStart < sub.periodEnd
    && sub.periodStart < sub.expiresAt
  }

  lemma SpanGrows(from: Time, days: int, count: int)
    requires count >= 1
    ensures PeriodsAfter(from, days, count) >= from + Span(days)
  {
    MulKeepsOrder(1, count, Span(days));
    assert count * Span(days) == Span(days) * count;
  }

  lemma MoveKeepsTicking(sub: Subscription, m: Move)
    requires Ticking(sub) && Legal(sub, m)
    ensures Ticking(Moved(sub, m))
  {
    match m
    case Extend(order, _, p, now) => SpanGrows(Max(now, sub.expiresAt), p.Days(), Max(order.quantity, 1));
    case Regrade(order, _, p, now) => SpanGrows(now, p.Days(), Max(order.quantity, 1));
    case _ =>
  }

  lemma MovedTicks(db: DB, a: Action, s: nat)
    requires s < |db.subs| && Ticking(db.subs[s])
    ensures s < |Step(db, a).subs| && Ticking(Step(db, a).subs[s])
  {
    StepMoves(db, a, s);
    MoveKeepsTicking(db.subs[s], MoveOf(db, a, s));
  }

  lemma OpenedTicks(db: DB, a: Action)
    requires Opens(db, a)
    ensures Ticking(OpenedSub(db, a))
  {
    var o := OpenedBy(db, a);
    SpanGrows(a.now, db.products[db.orders[o].product].Days(), Max(db.orders[o].quantity, 1));
  }

  lemma RowTicks(db: DB, a: Action, s: nat)
    requires s < |db.subs| ==> Ticking(db.subs[s])
    ensures s < |Step(db, a).subs| ==> Ticking(Step(db, a).subs[s])
  {
    if s < |db.subs| {
      MovedTicks(db, a, s);
    } else if s < |Step(db, a).subs| {
      NewRowIsOpened(db, a, s);
      OpenedTicks(db, a);
    }
  }

  /** In every reachable state: started_at <= period_start < period_end and period_start < expires_at. */
  lemma {:induction false} ClocksAreOrdered(db: DB, actions: seq<Action>)
    requires forall s :: 0 <= s < |db.subs| ==> Ticking(db.subs[s])
    ensures forall s :: 0 <= s < |Run(db, actions).subs| ==> Ticking(Run(db, actions).subs[s])
    decreases |actions|
  {
    if actions != [] {
      var d := Step(db, actions[0]);
      forall s: nat | s < |d.subs| ensures Ticking(d.subs[s]) {
        RowTicks(db, actions[0], s);
      }
      ClocksAreOrdered(d, actions[1..]);
    }
  }

  // Alignment of the period clock with expiry

  /** Whole periods of `days` days remain between the end of the running period and expiry. */
  predicate Aligned(sub: Subscription, days: int)
    requires days > 0
  {
    sub.periodEnd <= sub.expiresAt && (sub.expiresAt - sub.periodEnd) % Span(days) == 0
  }

  predicate UsesDays(m: Move, days: int) {
    match m
    case Extend(_, _, p, _) => p.Days() == days
    case Regrade(_, _, p, _) => p.Days() == days
    case Roll(d) => d == days
    case _ => true
  }

  predicate LateRenewal(sub: Subscription, m: Move) {
    m.Extend? && sub.expiresAt < m.now
  }

  lemma ModPlus(n: int, k: int, d: int)
    requires d > 0
    ensures (n + d * k) % d == n % d
  {
    var q, q' := n / d, (n + d * k) / d;
    assert n == d * q + n % d && n + d * k == d * q' + (n + d * k) % d;
    assert d * (q' - q - k) == n % d - (n + d * k) % d;
    assert d * (q' - q - k) == d * q' - d * q - d * k;
    MulKeepsOrder(1, q' - q - k, d);
    MulKeepsOrder(q' - q - k, -1, d);
  }

  /**
   A move with the same period length keeps an aligned subscription aligned, except that a renewal paid after
   expiry does so exactly when whole periods have gone by since expiry.
   */
  lemma MoveKeepsAlignmentExactlyWhen(sub: Subscription, m: Move, days: int)
    requires days > 0 && Aligned(sub, days)
    requires Legal(sub, m) && UsesDays(m, days)
    ensures Aligned(Moved(sub, m), days) <==> !LateRenewal(sub, m) || (m.now - sub.expiresAt) % Span(days) == 0
  {
    match m
    case Extend(order, o, p, now) => RenewalAlignment(sub, order, o, p, now);
    case Regrade(order, o, p, now) => RegradeAlignment(sub, order, o, p, now, days);
    case Roll(_) => RollAlignment(sub.expiresAt - sub.periodEnd, Span(days));
    case _ =>
  }

  lemma RenewalAlignment(sub: Subscription, order: Order, o: nat, p: Product, now: Time)
    requires Aligned(sub, p.Days())
    ensures Aligned(RenewedSub(sub, order, o, p, now), p.Days())
       <==> now <= sub.expiresAt || (now - sub.expiresAt) % Span(p.Days()) == 0
  {
    var d := Span(p.Days());
    var qty := Max(order.quantity, 1);
    var gap := Max(now - sub.expiresAt, 0);
    ExtendAlignment(sub.expiresAt - sub.periodEnd, gap, d, qty);
    assert RenewedSub(sub, order, o, p, now).expiresAt == sub.expiresAt + gap + d * qty;
    assert 0 % d == 0;
  }

  lemma RegradeAlignment(sub: Subscription, order: Order, o: nat, p: Product, now: Time, days: int)
    requires days > 0 && Aligned(sub, days)
    ensures Aligned(UpgradedSub(sub, order, o, p, now), days)
  {
    assert 0 % Span(days) == 0;
  }

  lemma ExtendAlignment(left: int, gap: int, d: int, qty: int)
    requires d > 0 && qty >= 1 && left >= 0 && left % d == 0 && gap >= 0
    ensures left + gap + d * qty >= 0
    ensures (left + gap + d * qty) % d == gap % d
  {
    assert left == d * (left / d);
    assert d * (left / d + qty) == left + d * qty;
    ModPlus(gap, left / d + qty, d);
    MulKeepsOrder(0, qty, d);
  }

  lemma RollAlignment(left: int, d: int)
    requires d > 0 && left > 0 && left % d == 0
    ensures left - d >= 0 && (left - d) % d == 0
  {
    ModPlus(left, -1, d);
    assert left == d * (left / d);
    MulKeepsOrder(left / d, 0, d);
    MulKeepsOrder(1, left / d, d);
  }

  /** The step is no late renewal of the subscription, and goes by periods of `days` days. */
  predicate Steady(sub: Subscription, m: Move, days: int) {
    UsesDays(m, days) && !LateRenewal(sub, m)
  }

  /** Along the run every step that moves `s` goes by periods of `days` days, and no renewal of it is paid late. */
  ghost predicate SteadyRun(db: DB, actions: seq<Action>, s: nat, days: int)
    decreases |actions|
  {
    actions != [] ==>
      && (s < |db.subs| ==> Steady(db.subs[s], MoveOf(db, actions[0], s), days))
      && SteadyRun(Step(db, actions[0]), actions[1..], s, days)
  }

  lemma MoveStaysAligned(db: DB, a: Action, s: nat, days: int)
    requires days > 0 && s < |db.subs|
    requires Aligned(db.subs[s], days) && Steady(db.subs[s], MoveOf(db, a, s), days)
    ensures s < |Step(db, a).subs| && Aligned(Step(db, a).subs[s], days)
  {
    StepMoves(db, a, s);
    MoveKeepsAlignmentExactlyWhen(db.subs[s], MoveOf(db, a, s), days);
  }

  lemma OpenedIsAligned(db: DB, a: Action, s: nat, days: int)
    requires days > 0 && |db.subs| <= s < |Step(db, a).subs|
    ensures Aligned(Step(db, a).subs[s], days)
  {
    NewRowIsOpened(db, a, s);
    NewIsAligned(db, a, days);
  }

  lemma NewIsAligned(db: DB, a: Action, days: int)
    requires days > 0 && Opens(db, a)
    ensures Aligned(OpenedSub(db, a), days)
  {
    assert 0 % Span(days) == 0;
  }

  /** With one period length and no late renewal, period_end never passes expires_at and stays whole periods before it. */
  lemma {:induction false} PeriodsStayAligned(db: DB, actions: seq<Action>, s: nat, days: int)
    requires days > 0 && SteadyRun(db, actions, s, days)
    requires s < |db.subs| ==> Aligned(db.subs[s], days)
    ensures s < |Run(db, actions).subs| ==> Aligned(Run(db, actions).subs[s], days)
    decreases |actions|
  {
    if actions != [] {
      if s < |db.subs| {
        MoveStaysAligned(db, actions[0], s, days);
      } else if s < |Step(db, actions[0]).subs| {
        OpenedIsAligned(db, actions[0], s, days);
      }
      PeriodsStayAligned(Step(db, actions[0]), actions[1..], s, days);
    }
  }

  // One automatic renewal per period

  /** The step moves the period clock of `s`: a reset, or an upgrade that brings the subscription back to life. */
  predicate MovesPeriod(db: DB, a: Action, s: nat)
    requires s < |db.subs|
  {
    var m := MoveOf(db, a, s);
    m.Roll? || (m.Regrade? && db.subs[s].status == Lapsed)
  }

  ghost predicate PeriodStands(db: DB, actions: seq<Action>, s: nat)
    decreases |actions|
  {
    actions != [] ==>
      && (s < |db.subs| ==> !MovesPeriod(db, actions[0], s))
      && PeriodStands(Step(db, actions[0]), actions[1..], s)
  }

  lemma {:induction false} ExpiryOnlyGrows(db: DB, actions: seq<Action>, s: nat)
    requires s < |db.subs| && PeriodStands(db, actions, s)
    ensures var d := Run(db, actions);
            s < |d.subs| && d.subs[s].periodEnd == db.subs[s].periodEnd && d.subs[s].expiresAt >= db.subs[s].expiresAt
    decreases |actions|
  {
    if actions != [] {
      var a := actions[0];
      var m := MoveOf(db, a, s);
      StepMoves(db, a, s);
      if m.Extend? {
        SpanGrows(Max(m.now, db.subs[s].expiresAt), m.product.Days(), Max(m.order.quantity, 1));
      }
      ExpiryOnlyGrows(Step(db, a), actions[1..], s);
    }
  }

  /**
   After an automatic renewal of a subscription, however long the shop goes on, it is not renewed
   automatically again before a period reset or a reactivation by upgrade.
   */
  lemma OneAutoRenewalPerPeriod(db: DB, s: nat, now: Time, millis: int, actions: seq<Action>, later: Time, millis': int)
    requires Renews(db, s, now, millis)
    requires PeriodStands(Step(db, DoAutoRenew(s, now, millis)), actions, s)
    ensures var d := Run(Step(db, DoAutoRenew(s, now, millis)), actions);
            !Renews(d, s, later, millis') && Step(d, DoAutoRenew(s, later, millis')) == d
  {
    var d1 := Step(db, DoAutoRenew(s, now, millis));
    RenewsShape(db, s, now, millis);
    SpanGrows(db.subs[s].expiresAt, db.products[db.subs[s].product].Days(), 1);
    ExpiryOnlyGrows(d1, actions, s);
    NoRenewalNoChange(Run(d1, actions), s, later, millis');
  }

  // Paid time and quota are conserved

  /** What a step records on the statement of a subscription. */
  datatype Entry =
    | Opened(o: nat, at: Time, seconds: int, grant: Tokens)
    | Extended(o: nat, at: Time, seconds: int)
    | Swapped(o: nat, grant: Tokens)
    | Added(o: nat, tokens: Tokens)
    | Rolled

  /** Seconds an order pays for: its quantity, at least one, of its product's periods. */
  function PaidSeconds(order: Order, p: Product): int {
    p.Days() * DAY * (if order.quantity < 1 then 1 else order.quantity)
  }

  function EntryFor(sub: Subscription, m: Move): seq<Entry> {
    match m
    case Extend(order, o, p, now) => [Extended(o, now, PaidSeconds(order, p))]
    case Regrade(order, o, p, now) =>
      if sub.status == Live then [Swapped(o, p.limitTokens)] else [Opened(o, now, PaidSeconds(order, p), p.limitTokens)]
    case TopUp(o, tokens) => [Added(o, tokens)]
    case Roll(_) => [Rolled]
    case _ => []
  }

  function EntryOf(db: DB, a: Action, s: nat): seq<Entry> {
    if s < |db.subs| then EntryFor(db.subs[s], MoveOf(db, a, s))
    else if s == |db.subs| && Opens(db, a) then
      var o := OpenedBy(db, a);
      var p := db.products[db.orders[o].product];
      [Opened(o, a.now, PaidSeconds(db.orders[o], p), p.limitTokens * db.orders[o].quantity)]
    else []
  }

  /** The statement of subscription `s` over a run. */
  function Statement(db: DB, actions: seq<Action>, s: nat): seq<Entry>
    decreases |actions|
  {
    if actions == [] then []
    else
      var n := |actions| - 1;
      Statement(db, actions[..n], s) + EntryOf(Run(db, actions[..n]), actions[n], s)
  }

  function StartOf(h: seq<Entry>): Time {
    if h == [] then 0
    else match h[|h| - 1] case Opened(_, at, _, _) => at case _ => StartOf(h[..|h| - 1])
  }

  /** Seconds paid for since the subscription last started. */
  function PaidSince(h: seq<Entry>): int {
    if h == [] then 0
    else match h[|h| - 1]
         case Opened(_, _, seconds, _) => seconds
         case Extended(_, _, seconds) => PaidSince(h[..|h| - 1]) + seconds
         case _ => PaidSince(h[..|h| - 1])
  }

  /** Seconds between an expiry and the renewal that came after it, since the subscription last started. */
  function LateSince(h: seq<Entry>): int {
    if h == [] then 0
    else match h[|h| - 1]
         case Opened(_, _, _, _) => 0
         case Extended(_, at, _) =>
           var before := h[..|h| - 1];
           LateSince(before) + Max(0, at - (StartOf(before) + PaidSince(before) + LateSince(before)))
         case _ => LateSince(h[..|h| - 1])
  }

  function BaseOf(h: seq<Entry>): Tokens {
    if h == [] then 0
    else match h[|h| - 1]
         case Opened(_, _, _, grant) => grant
         case Swapped(_, grant) => grant
         case _ => BaseOf(h[..|h| - 1])
  }

  /** Tokens added in the running period. */
  function AddedSince(h: seq<Entry>): Tokens {
    if h == [] then 0
    else match h[|h| - 1]
         case Added(_, tokens) => AddedSince(h[..|h| - 1]) + tokens
         case Extended(_, _, _) => AddedSince(h[..|h| - 1])
         case _ => 0
  }

  function OrdersOf(h: seq<Entry>): seq<nat> {
    if h == [] then []
    else
      var before := OrdersOf(h[..|h| - 1]);
      match h[|h| - 1]
      case Opened(o, _, _, _) => before + [o]
      case Extended(o, _, _) => before + [o]
      case Swapped(o, _) => before + [o]
      case _ => before
  }

  predicate Balances(sub: Subscription, h: seq<Entry>) {
    && sub.startedAt == StartOf(h)
    && sub.expiresAt - sub.startedAt == PaidSince(h) + LateSince(h)
    && sub.base == BaseOf(h)
    && sub.limit == sub.base + AddedSince(h)
    && sub.orders == OrdersOf(h)
  }

  lemma MoveBalances(sub: Subscription, h: seq<Entry>, db: DB, a: Action, s: nat)
    requires s < |db.subs| && sub == db.subs[s] && Balances(sub, h)
    requires Legal(sub, MoveOf(db, a, s))
    ensures Balances(Moved(sub, MoveOf(db, a, s)), h + EntryOf(db, a, s))
  {
    EntryBalances(sub, h, MoveOf(db, a, s));
  }

  lemma EntryBalances(sub: Subscription, h: seq<Entry>, m: Move)
    requires Balances(sub, h) && Legal(sub, m)
    ensures Balances(Moved(sub, m), h + EntryFor(sub, m))
  {
    var e := EntryFor(sub, m);
    match m
    case Extend(_, _, _, _) => ExtensionBalances(sub, h, m);
    case Regrade(_, _, _, _) => RegradeBalances(sub, h, m);
    case TopUp(_, _) => assert (h + e)[..|h|] == h && (h + e)[|h|] == e[0];
    case Roll(_) => assert (h + e)[..|h|] == h && (h + e)[|h|] == e[0];
    case _ => assert h + e == h;
  }

  lemma ExtensionBalances(sub: Subscription, h: seq<Entry>, m: Move)
    requires Balances(sub, h) && m.Extend?
    ensures Balances(Moved(sub, m), h + EntryFor(sub, m))
  {
    AppendExtended(h, m.o, m.now, PaidSeconds(m.order, m.product));
    ExtendedTo(sub, m.order, m.o, m.product, m.now);
  }

  lemma AppendExtended(h: seq<Entry>, o: nat, at: Time, seconds: int)
    ensures var h' := h + [Extended(o, at, seconds)];
            && StartOf(h') == StartOf(h) && PaidSince(h') == PaidSince(h) + seconds
            && LateSince(h') == LateSince(h) + Max(0, at - (StartOf(h) + PaidSince(h) + LateSince(h)))
            && BaseOf(h') == BaseOf(h) && AddedSince(h') == AddedSince(h) && OrdersOf(h') == OrdersOf(h) + [o]
  {
    var h' := h + [Extended(o, at, seconds)];
    assert h'[..|h|] == h && h'[|h|] == Extended(o, at, seconds);
  }

  lemma ExtendedTo(sub: Subscription, order: Order, o: nat, p: Product, now: Time)
    ensures RenewedSub(sub, order, o, p, now)
         == sub.(orders := sub.orders + [o], expiresAt := Max(now, sub.expiresAt) + PaidSeconds(order, p))
  {
    PaidSecondsArePeriods(order, p);
    assert PeriodsAfter(Max(now, sub.expiresAt), p.Days(), Max(order.quantity, 1)) == Max(now, sub.expiresAt) + PaidSeconds(order, p);
  }

  lemma RegradeBalances(sub: Subscription, h: seq<Entry>, m: Move)
    requires Balances(sub, h) && m.Regrade?
    ensures Balances(Moved(sub, m), h + EntryFor(sub, m))
  {
    var e := EntryFor(sub, m);
    assert (h + e)[..|h|] == h && (h + e)[|h|] == e[0];
    PaidSecondsArePeriods(m.order, m.product);
  }

  lemma PaidSecondsArePeriods(order: Order, p: Product)
    ensures forall from :: PeriodsAfter(from, p.Days(), Max(order.quantity, 1)) == from + PaidSeconds(order, p)
  {
    assert Span(p.Days()) == p.Days() * DAY;
  }

  /**
   Every subscription in a reachable state is accounted for by its statement: the time from started_at to
   expires_at is exactly the time paid for since it started plus the gaps before late renewals; the quota is
   the grant of the last purchase or upgrade plus the add-ons of the running period; its order list is the
   statement's.
   */
  lemma {:induction false} PaidTimeIsConserved(db: DB, actions: seq<Action>, s: nat)
    requires Initial(db)
    requires s < |Run(db, actions).subs|
    ensures Balances(Run(db, actions).subs[s], Statement(db, actions, s))
    decreases |actions|
  {
    if actions != [] {
      var n := |actions| - 1;
      var before, a := Run(db, actions[..n]), actions[n];
      RunLast(db, actions);
      if s < |before.subs| {
        PaidTimeIsConserved(db, actions[..n], s);
        StepMoves(before, a, s);
        MoveBalances(before.subs[s], Statement(db, actions[..n], s), before, a, s);
      } else {
        NotOpenedYet(db, actions[..n], s);
        NewRowIsOpened(before, a, s);
        OpenedBalances(before, a);
        assert Statement(db, actions, s) == EntryOf(before, a, s);
      }
    }
  }

  lemma OpenedBalances(db: DB, a: Action)
    requires Opens(db, a)
    ensures Balances(OpenedSub(db, a), EntryOf(db, a, |db.subs|))
  {
    var o := OpenedBy(db, a);
    PaidSecondsArePeriods(db.orders[o], db.products[db.orders[o].product]);
    var h := EntryOf(db, a, |db.subs|);
    assert h[..0] == [];
  }

  lemma {:induction false} NotOpenedYet(db: DB, actions: seq<Action>, s: nat)
    requires |Run(db, actions).subs| <= s
    ensures Statement(db, actions, s) == []
    decreases |actions|
  {
    if actions != [] {
      var n := |actions| - 1;
      RunLast(db, actions);
      StepOpens(Run(db, actions[..n]), actions[n]);
      if |Run(db, actions[..n]).subs| > 0 {
        StepMoves(Run(db, actions[..n]), actions[n], 0);
      }
      NotOpenedYet(db, actions[..n], s);
    }
  }

  /** No renewal since the last start came after the expiry paid for by then. */
  predicate NoneLate(h: seq<Entry>) {
    h == [] ||
    var before := h[..|h| - 1];
    match h[|h| - 1]
    case Opened(_, _, _, _) => true
    case Extended(_, at, _) => NoneLate(before) && at <= StartOf(before) + PaidSince(before)
    case _ => NoneLate(before)
  }

  /** No paid second is ever lost, and none is added exactly when no renewal was late. */
  lemma {:induction false} GapsAreLateRenewals(h: seq<Entry>)
    ensures LateSince(h) >= 0
    ensures LateSince(h) == 0 <==> NoneLate(h)
  {
    if h != [] {
      GapsAreLateRenewals(h[..|h| - 1]);
    }
  }

  // Base quota

  predicate BaseCovered(sub: Subscription) {
    sub.base <= sub.limit
  }

  /** The step fulfils an add-on whose tokens, which must then be negative, outweigh the slack over the base quota. */
  predicate Undercuts(db: DB, a: Action, s: nat) {
    s < |db.subs| &&
    var m := MoveOf(db, a, s);
    m.TopUp? && m.tokens < db.subs[s].base - db.subs[s].limit
  }

  lemma MoveCoversExactlyWhen(sub: Subscription, m: Move)
    requires BaseCovered(sub)
    ensures BaseCovered(Moved(sub, m)) <==> !(m.TopUp? && m.tokens < sub.base - sub.limit)
  {
  }

  /** Exactly such an add-on takes the quota of a subscription below its base quota; a new one is never below. */
  lemma BaseFallsShortExactlyWhen(db: DB, a: Action, s: nat)
    requires s < |Step(db, a).subs|
    requires s < |db.subs| ==> BaseCovered(db.subs[s])
    ensures !BaseCovered(Step(db, a).subs[s]) <==> Undercuts(db, a, s)
  {
    if s < |db.subs| {
      StepMoves(db, a, s);
      MoveCoversExactlyWhen(db.subs[s], MoveOf(db, a, s));
    } else {
      NewRowIsOpened(db, a, s);
      OpenedIsCovered(db, a);
    }
  }

  lemma OpenedIsCovered(db: DB, a: Action)
    requires Opens(db, a)
    ensures BaseCovered(OpenedSub(db, a))
  {
  }

  ghost predicate NeverUndercuts(db: DB, actions: seq<Action>, s: nat)
    decreases |actions|
  {
    actions != [] ==> !Undercuts(db, actions[0], s) && NeverUndercuts(Step(db, actions[0]), actions[1..], s)
  }

  /** In every state along the run, once the subscription is there, its quota covers its base quota. */
  ghost predicate StaysCovered(db: DB, actions: seq<Action>, s: nat)
    decreases |actions|
  {
    && (s < |db.subs| ==> BaseCovered(db.subs[s]))
    && (actions != [] ==> StaysCovered(Step(db, actions[0]), actions[1..], s))
  }

  /** Over a run base_limit_tokens <= limit_tokens always holds if and only if no step of it is such an add-on. */
  lemma {:induction false} BaseStaysCoveredExactlyWhen(db: DB, actions: seq<Action>, s: nat)
    requires s < |db.subs| ==> BaseCovered(db.subs[s])
    ensures StaysCovered(db, actions, s) <==> NeverUndercuts(db, actions, s)
    decreases |actions|
  {
    if actions != [] {
      var d := Step(db, actions[0]);
      SubscriptionStays(db, actions[0], s);
      if s < |d.subs| {
        BaseFallsShortExactlyWhen(db, actions[0], s);
      }
      if s < |d.subs| && !BaseCovered(d.subs[s]) {
        assert !StaysCovered(d, actions[1..], s);
      } else {
        BaseStaysCoveredExactlyWhen(d, actions[1..], s);
      }
    }
  }

  lemma SubscriptionStays(db: DB, a: Action, s: nat)
    ensures s < |db.subs| ==> s < |Step(db, a).subs|
  {
    if s < |db.subs| {
      StepMoves(db, a, s);
    }
  }
}
