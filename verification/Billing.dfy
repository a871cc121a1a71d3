/**
 Billing periods: how long a product's period is, how instants advance by whole periods, and how many
 periods an upgrade is charged for.  Instants are seconds since the epoch; the business zone
 (Asia/Shanghai) has no daylight saving, so adding a calendar day adds 86400 seconds.
 */
module Billing {
  import opened Common

  type Time = int

  const DAY: int := 86400
  const DEFAULT_PERIOD_DAYS: int := 30
  const MAX_QTY: int := 99

  datatype BillingPeriod = Month | Year | Once | OtherPeriod

  function PeriodDays(periodDays: int, billingPeriod: BillingPeriod): (days: int)
    ensures days > 0
    ensures periodDays > 0 ==> days == periodDays
  {
    if periodDays > 0 then periodDays
    else match billingPeriod
      case Year => 365
      case Once => 30
      case _ => DEFAULT_PERIOD_DAYS
  }

  /** Seconds in one period; a non-positive day count falls back to the default. */
  function Span(periodDays: int): (span: int)
    ensures span > 0
  {
    DAY * (if periodDays <= 0 then DEFAULT_PERIOD_DAYS else periodDays)
  }

  function AddPeriod(from: Time, periodDays: int): Time {
    from + Span(periodDays)
  }

  /** The instant `count` whole periods after `from`; a count below one advances nothing. */
  function PeriodsAfter(from: Time, periodDays: int, count: int): Time {
    from + Span(periodDays) * Max(count, 0)
  }

  method AddPeriods(from: Time, periodDays: int, count: int) returns (t: Time)
    ensures t == PeriodsAfter(from, periodDays, count)
  {
    t := from;
    var i := 0;
    while i < count
      invariant 0 <= i <= Max(count, 0)
      invariant t == from + Span(periodDays) * i
    {
      t := AddPeriod(t, periodDays);
      i := i + 1;
    }
  }

  /** `n / d` rounded up. */
  function CeilDiv(n: int, d: int): int
    requires d > 0
  {
    (n + d - 1) / d
  }

  /** The rounded-up quotient is the only whole number of steps that just reaches `n`. */
  lemma CeilDivIs(n: int, d: int, k: int)
    requires d > 0
    ensures (k - 1) * d < n <= k * d <==> CeilDiv(n, d) == k
  {
    var q := CeilDiv(n, d);
    assert q * d <= n + d - 1 < q * d + d;
    assert (q - 1) * d == q * d - d && (k - 1) * d == k * d - d;
    MulKeepsOrder(k, q - 1, d);
    MulKeepsOrder(q, k - 1, d);
  }

  /** The closed form of the charge: one for the running period and one for each later period that has begun before expiry. */
  function UpgradeCycles(periodEnd: Time, expiresAt: Time, span: int): int
    requires span > 0
  {
    if expiresAt <= periodEnd then 1
    else Min(MAX_QTY, 1 + CeilDiv(expiresAt - periodEnd, span))
  }

  method CountUpgradeBillingCycles(periodEnd: Time, expiresAt: Time, periodDays: int) returns (qty: int)
    ensures qty == UpgradeCycles(periodEnd, expiresAt, Span(periodDays))
    ensures 1 <= qty <= MAX_QTY
  {
    qty := 1;
    if expiresAt <= periodEnd {
      return;
    }
    var cursor := periodEnd;
    ghost var span := Span(periodDays);
    while cursor < expiresAt && qty < MAX_QTY
      invariant 1 <= qty <= MAX_QTY
      invariant cursor == periodEnd + (qty - 1) * span
      invariant cursor - span < expiresAt
      decreases MAX_QTY - qty
    {
      cursor := AddPeriod(cursor, periodDays);
      qty := qty + 1;
    }
    CycleLoopExit(expiresAt - periodEnd, span, qty);
  }

  /** What the counting loop has computed once its guard fails. */
  lemma CycleLoopExit(n: int, span: int, qty: int)
    requires span > 0 && n > 0
    requires 1 <= qty <= MAX_QTY
    requires (qty - 2) * span < n
    requires (qty - 1) * span >= n || qty == MAX_QTY
    ensures qty == Min(MAX_QTY, 1 + CeilDiv(n, span))
  {
    var k := CeilDiv(n, span);
    CeilDivIs(n, span, k);
    CeilDivIs(n, span, qty - 1);
    MulKeepsOrder(k, qty - 2, span);
  }

  /** One period reset pays off exactly one charged period, unless the charge was cut off by the cap. */
  lemma ResetLowersCycles(periodEnd: Time, expiresAt: Time, span: int)
    requires span > 0
    requires periodEnd < expiresAt
    ensures UpgradeCycles(periodEnd + span, expiresAt, span) == UpgradeCycles(periodEnd, expiresAt, span) - 1
       <==> CeilDiv(expiresAt - periodEnd, span) <= MAX_QTY - 1
  {
    CeilDivStep(expiresAt - periodEnd, span);
  }

  lemma CeilDivStep(n: int, d: int)
    requires d > 0
    ensures CeilDiv(n - d, d) == CeilDiv(n, d) - 1
    ensures n > 0 ==> CeilDiv(n, d) >= 1
    ensures n <= d <==> CeilDiv(n, d) <= 1
  {
    CeilDivOneLess(n, d);
    CeilDivAtMost(n, d, 0);
    CeilDivAtMost(n, d, 1);
  }

  lemma CeilDivOneLess(n: int, d: int)
    requires d > 0
    ensures CeilDiv(n - d, d) == CeilDiv(n, d) - 1
  {
    var k := CeilDiv(n, d);
    CeilDivIs(n, d, k);
    assert (k - 2) * d == (k - 1) * d - d && (k - 1) * d == k * d - d;
    CeilDivIs(n - d, d, k - 1);
  }

  lemma CeilDivAtMost(n: int, d: int, m: int)
    requires d > 0
    ensures n <= m * d <==> CeilDiv(n, d) <= m
  {
    var k := CeilDiv(n, d);
    CeilDivIs(n, d, k);
    MulKeepsOrder(k, m, d);
    MulKeepsOrder(m, k - 1, d);
  }

  // The front end shows the same charge, computed from calendar dates.

  /** The front end's period length; a product may have none. */
  function ResolvePeriodDays(periodDays: Option<int>, billingPeriod: BillingPeriod): int {
    if periodDays.Some? && periodDays.value > 0 then periodDays.value
    else if billingPeriod == Year then 365
    else if billingPeriod == Once then 30
    else 30
  }

  /** Both sides take the same period for every product, given or not. */
  lemma PeriodLengthsAgree(periodDays: Option<int>, billingPeriod: BillingPeriod)
    ensures ResolvePeriodDays(periodDays, billingPeriod)
         == PeriodDays(match periodDays case None => 0 case Some(d) => d, billingPeriod)
  {
  }

  /** The Beijing calendar day an instant falls on. */
  function BeijingDay(t: Time): int {
    (t + 8 * 3600) / DAY
  }

  function TimeOfDay(t: Time): (s: int)
    ensures 0 <= s < DAY
  {
    (t + 8 * 3600) % DAY
  }

  /** Twelve o'clock Beijing time on a calendar day. */
  function BeijingNoon(day: int): Time {
    day * DAY + 4 * 3600
  }

  lemma NoonIsOnItsDay(day: int)
    ensures BeijingDay(BeijingNoon(day)) == day
  {
  }

  function AddPeriodDays(from: Time, periodDays: int): Time {
    BeijingNoon(BeijingDay(from) + periodDays)
  }

  /** The front end's loop; a date that does not parse is None. */
  method CountCyclesShown(periodEnd: Option<int>, expiresAt: Option<int>, periodDays: int) returns (qty: int)
    ensures periodEnd.None? || expiresAt.None? ==> qty == 1
    ensures periodEnd.Some? && expiresAt.Some? && periodDays > 0 ==>
              qty == UpgradeCycles(BeijingNoon(periodEnd.value), BeijingNoon(expiresAt.value), Span(periodDays))
    ensures periodEnd.Some? && expiresAt.Some? && periodDays <= 0 ==>
              qty == if expiresAt.value <= periodEnd.value then 1 else MAX_QTY
  {
    qty := 1;
    if periodEnd.None? || expiresAt.None? || BeijingNoon(expiresAt.value) <= BeijingNoon(periodEnd.value) {
      return;
    }
    var cursor := BeijingNoon(periodEnd.value);
    ghost var k := 0;
    while cursor < BeijingNoon(expiresAt.value) && qty < MAX_QTY
      invariant 1 <= qty <= MAX_QTY && k == qty - 1
      invariant cursor == BeijingNoon(periodEnd.value + k * periodDays)
      invariant k > 0 ==> BeijingNoon(periodEnd.value + (k - 1) * periodDays) < BeijingNoon(expiresAt.value)
      decreases MAX_QTY - qty
    {
      NoonIsOnItsDay(periodEnd.value + k * periodDays);
      assert periodEnd.value + k * periodDays + periodDays == periodEnd.value + (k + 1) * periodDays;
      cursor := AddPeriodDays(cursor, periodDays);
      qty := qty + 1;
      k := k + 1;
    }
    ShownLoopExit(periodEnd.value, expiresAt.value, periodDays, qty);
  }

  /** What the front end's loop has computed once its guard fails. */
  lemma ShownLoopExit(from: int, to: int, periodDays: int, qty: int)
    requires from < to
    requires 1 <= qty <= MAX_QTY
    requires qty > 1 ==> from + (qty - 2) * periodDays < to
    requires from + (qty - 1) * periodDays >= to || qty == MAX_QTY
    ensures periodDays > 0 ==> qty == UpgradeCycles(BeijingNoon(from), BeijingNoon(to), Span(periodDays))
    ensures periodDays <= 0 ==> qty == MAX_QTY
  {
    if periodDays > 0 {
      var span := Span(periodDays);
      assert BeijingNoon(to) - BeijingNoon(from) == (to - from) * DAY;
      assert (qty - 1) * span == DAY * ((qty - 1) * periodDays);
      assert (qty - 2) * span == DAY * ((qty - 2) * periodDays);
      CycleLoopExit((to - from) * DAY, span, qty);
    } else {
      MulKeepsOrder(periodDays, 0, qty);
      assert (qty - 1) * periodDays == qty * periodDays - periodDays;
    }
  }

  /** Number of calendar days between two instants, and whether the later one is later in its day. */
  lemma SplitInstant(t: Time)
    ensures t == DAY * BeijingDay(t) + TimeOfDay(t) - 8 * 3600
  {
  }

  /**
   The front end and the back end charge the same, except in exactly one situation: whole periods of
   calendar days lie between the two dates, expiry is at a later time of day than the period's end, and the
   cap is not reached.  The front end then shows one period fewer than is charged.
   */
  lemma FrontEndAgreesExactlyWhen(periodEnd: Time, expiresAt: Time, periodDays: int)
    requires periodDays > 0
    ensures var shown := UpgradeCycles(BeijingNoon(BeijingDay(periodEnd)), BeijingNoon(BeijingDay(expiresAt)), Span(periodDays));
            var charged := UpgradeCycles(periodEnd, expiresAt, Span(periodDays));
            var days := BeijingDay(expiresAt) - BeijingDay(periodEnd);
            var off := && TimeOfDay(periodEnd) < TimeOfDay(expiresAt)
                       && days >= 0 && days % periodDays == 0
                       && days / periodDays < MAX_QTY - 1;
            && (shown == charged <==> !off)
            && (off ==> charged == shown + 1)
  {
    SplitInstant(periodEnd);
    SplitInstant(expiresAt);
    var days := BeijingDay(expiresAt) - BeijingDay(periodEnd);
    var shift := TimeOfDay(expiresAt) - TimeOfDay(periodEnd);
    var span := Span(periodDays);
    assert expiresAt - periodEnd == DAY * days + shift;
    assert BeijingNoon(BeijingDay(expiresAt)) - BeijingNoon(BeijingDay(periodEnd)) == DAY * days;
    if days >= 0 {
      CyclesAcrossDays(days, shift, periodDays);
    } else {
      assert DAY * days + shift < 0;
    }
  }

  /** Rounding up to whole periods sees a part of a day only when the days alone are whole periods. */
  lemma CyclesAcrossDays(days: int, shift: int, periodDays: int)
    requires days >= 0 && periodDays > 0 && -DAY < shift < DAY
    ensures CeilDiv(DAY * days, Span(periodDays)) == days / periodDays + if days % periodDays == 0 then 0 else 1
    ensures days > 0 || shift > 0 ==>
              CeilDiv(DAY * days + shift, Span(periodDays)) ==
              if days % periodDays == 0 && shift <= 0 then days / periodDays else days / periodDays + 1
  {
    var q, r := days / periodDays, days % periodDays;
    var span := Span(periodDays);
    var whole := DAY * (q * periodDays);
    assert q * span == whole;
    assert (q + 1) * span == whole + span && (q - 1) * span == whole - span;
    assert days == q * periodDays + r;
    assert DAY * days == whole + DAY * r;
    CeilDivIs(DAY * days, span, q);
    CeilDivIs(DAY * days, span, q + 1);
    CeilDivIs(DAY * days + shift, span, q);
    CeilDivIs(DAY * days + shift, span, q + 1);
  }
}
