/**
 Money in whole cents.  Percentages are whole hundredths of a percent.  Every quotient the services round
 is an exact decimal before rounding, so rounding a fraction `n / d` half away from zero is all that is needed.
 */
module Money {
  import opened Common

  type Cents = int

  const INVOICE_PERCENT: int := 6
  const MAX_COMMISSION_CENTS: Cents := 100_000_000

  /** `n / d` rounded to the nearest whole number, halves away from zero. */
  function RoundDiv(n: int, d: int): int
    requires d > 0
  {
    if n >= 0 then (2 * n + d) / (2 * d) else -((-2 * n + d) / (2 * d))
  }

  lemma RoundDivNearest(n: int, d: int)
    requires d > 0
    ensures -d <= 2 * n - 2 * (RoundDiv(n, d) * d) <= d
    ensures n >= 0 ==> RoundDiv(n, d) >= 0
    ensures n <= 0 ==> RoundDiv(n, d) <= 0
  {
    if n >= 0 {
      HalfUp(n, d);
    } else {
      HalfUp(-n, d);
      var q := (-2 * n + d) / (2 * d);
      assert (-q) * d == -(q * d);
    }
  }

  lemma HalfUp(m: nat, d: int)
    requires d > 0
    ensures var q := (2 * m + d) / (2 * d);
            q >= 0 && -d <= 2 * m - 2 * (q * d) <= d
  {
    var q := (2 * m + d) / (2 * d);
    DivMod(2 * m + d, 2 * d);
    assert q * (2 * d) == 2 * (q * d);
    MulKeepsOrder(0, q + 1, 2 * d);
  }

  lemma DivMod(n: int, d: int)
    requires d > 0
    ensures n / d * d <= n < n / d * d + d
  {
    assert n == n / d * d + n % d;
  }

  lemma RoundDivMonotone(n1: int, n2: int, d: int)
    requires d > 0 && n1 <= n2
    ensures RoundDiv(n1, d) <= RoundDiv(n2, d)
  {
    if n1 >= 0 {
      DivMonotone(2 * n1 + d, 2 * n2 + d, 2 * d);
    } else if n2 < 0 {
      DivMonotone(-2 * n2 + d, -2 * n1 + d, 2 * d);
    } else {
      RoundDivNearest(n1, d);
      RoundDivNearest(n2, d);
    }
  }

  lemma DivMonotone(a: int, b: int, d: int)
    requires d > 0 && a <= b
    ensures a / d <= b / d
  {
    var p, q := a / d, b / d;
    assert a == p * d + a % d && b == q * d + b % d;
    MulKeepsOrder(q + 1, p, d);
  }

  /** A fraction of at most a whole number rounds to at most that number. */
  lemma RoundDivAtMost(n: int, d: int, m: int)
    requires d > 0 && n <= m * d
    ensures RoundDiv(n, d) <= m
  {
    RoundDivMonotone(n, m * d, d);
    RoundDivWhole(m, d);
  }

  lemma RoundDivWhole(m: int, d: int)
    requires d > 0
    ensures RoundDiv(m * d, d) == m
  {
    RoundDivNearest(m * d, d);
    var r := RoundDiv(m * d, d);
    assert (r + 1) * d == r * d + d && (m + 1) * d == m * d + d;
    MulKeepsOrder(r + 1, m, d);
    MulKeepsOrder(m + 1, r, d);
  }

  function MulQty(unit: Cents, qty: int): Cents {
    if qty <= 0 then 0 else unit * qty
  }

  function AddInvoiceSurcharge(subtotal: Cents, percent: int): Cents {
    if percent <= 0 then subtotal else RoundDiv(subtotal * (100 + percent), 100)
  }

  datatype Discount =
    | Percent(hundredths: int)
    | Amount(cents: Cents)

  function DiscountAmount(discount: Discount, minOrder: Cents, subtotal: Cents): Cents {
    if subtotal <= 0 || subtotal < minOrder then 0
    else
      var off := match discount
        case Percent(h) => RoundDiv(subtotal * h, 10000)
        case Amount(c) => c;
      if off > subtotal then subtotal else if off < 0 then 0 else off
  }

  /** What an order costs: `total` is what the buyer pays. */
  datatype Quote = Quote(subtotal: Cents, discount: Cents, afterCoupon: Cents, total: Cents)

  /** Pricing of an order once its coupon, if any, has been found usable. */
  function Checkout(price: Cents, qty: int, coupon: Option<(Discount, Cents)>, invoice: bool): Result<Quote> {
    var subtotal := MulQty(price, qty);
    var off := match coupon case None => 0 case Some((d, minOrder)) => DiscountAmount(d, minOrder, subtotal);
    if coupon.Some? && off <= 0 then Failure(CouponUnavailable)
    else
      var after := Max(subtotal - off, 0);
      Success(Quote(subtotal, off, after, if invoice then AddInvoiceSurcharge(after, INVOICE_PERCENT) else after))
  }

  /**
   Whatever the coupon, the buyer is quoted the subtotal split exactly into what is taken off and what is left;
   nobody is ever quoted less than nothing, and a negative price is quoted as nothing.
   */
  lemma CheckoutBalances(price: Cents, qty: int, coupon: Option<(Discount, Cents)>, invoice: bool)
    requires Checkout(price, qty, coupon, invoice).Success?
    ensures var q := Checkout(price, qty, coupon, invoice).value;
            && q.subtotal == price * Max(qty, 0)
            && (q.subtotal == q.discount + q.afterCoupon <==> q.subtotal >= 0)
            && 0 <= q.discount <= Max(q.subtotal, 0)
            && 0 <= q.afterCoupon <= Max(q.subtotal, 0)
            && (coupon.Some? <==> q.discount > 0)
            && (!invoice ==> q.total == q.afterCoupon)
            && (invoice ==> -50 <= 100 * q.total - 106 * q.afterCoupon <= 50 && q.afterCoupon <= q.total)
  {
    var q := Checkout(price, qty, coupon, invoice).value;
    if invoice {
      RoundDivNearest(q.afterCoupon * 106, 100);
    }
  }

  /** A coupon is refused at checkout exactly when it would take nothing off. */
  lemma CouponRefusedExactlyWhen(price: Cents, qty: int, discount: Discount, minOrder: Cents, invoice: bool)
    ensures Checkout(price, qty, Some((discount, minOrder)), invoice).Failure? <==>
            var subtotal := MulQty(price, qty);
            || subtotal <= 0
            || subtotal < minOrder
            || match discount
               case Amount(c) => c <= 0
               case Percent(h) => 2 * (subtotal * h) < 10000
  {
    var subtotal := MulQty(price, qty);
    if discount.Percent? {
      var n := subtotal * discount.hundredths;
      RoundDivNearest(n, 10000);
    }
  }

  lemma PercentDiscountMonotone(hundredths: int, minOrder: Cents, s1: Cents, s2: Cents)
    requires s1 <= s2
    ensures DiscountAmount(Percent(hundredths), minOrder, s1) <= DiscountAmount(Percent(hundredths), minOrder, s2)
  {
    if s1 > 0 && s1 >= minOrder {
      if hundredths >= 0 {
        assert s1 * hundredths <= s2 * hundredths;
        RoundDivMonotone(s1 * hundredths, s2 * hundredths, 10000);
      } else {
        RoundDivNearest(s1 * hundredths, 10000);
        RoundDivNearest(s2 * hundredths, 10000);
      }
    }
  }

  lemma InvoicedTotalMonotone(a1: Cents, a2: Cents)
    requires a1 <= a2
    ensures AddInvoiceSurcharge(a1, INVOICE_PERCENT) <= AddInvoiceSurcharge(a2, INVOICE_PERCENT)
  {
    RoundDivMonotone(a1 * 106, a2 * 106, 100);
  }

  // Amounts typed by a user arrive as decimals of any scale.

  datatype Decimal = Decimal(coefficient: int, scale: nat)

  function Pow10(k: nat): (p: int)
    ensures p > 0
  {
    if k == 0 then 1 else 10 * Pow10(k - 1)
  }

  /** The typed amount in cents; None stands for text that is blank or no number. */
  function ParseCommissionAmount(typed: Option<Decimal>): Result<Cents> {
    match typed
    case None => Failure(ParamsError)
    case Some(x) =>
      var amount := RoundDiv(100 * x.coefficient, Pow10(x.scale));
      if 0 < amount <= MAX_COMMISSION_CENTS then Success(amount) else Failure(ParamsError)
  }

  /** An amount is accepted exactly when it is at least half a cent and below a million yuan and half a cent. */
  lemma ParseAcceptsExactly(x: Decimal)
    ensures var r := ParseCommissionAmount(Some(x));
            && (r.Success? <==> && Pow10(x.scale) <= 200 * x.coefficient
                                && 200 * x.coefficient < (2 * MAX_COMMISSION_CENTS + 1) * Pow10(x.scale))
            && (r.Success? ==> && 0 < r.value <= MAX_COMMISSION_CENTS
                               && -Pow10(x.scale) <= 2 * (r.value * Pow10(x.scale)) - 200 * x.coefficient <= Pow10(x.scale))
  {
    var n, d := 100 * x.coefficient, Pow10(x.scale);
    RoundDivNearest(n, d);
    if n >= 0 {
      var a := RoundDiv(n, d);
      assert 2 * n + d == a * (2 * d) + (2 * n + d) % (2 * d);
      AtLeastExactly(2 * n + d, 2 * d, 1);
      AtLeastExactly(2 * n + d, 2 * d, MAX_COMMISSION_CENTS + 1);
      assert (MAX_COMMISSION_CENTS + 1) * (2 * d) == (2 * MAX_COMMISSION_CENTS + 1) * d + d;
    }
  }

  lemma AtLeastExactly(n: int, d: int, m: int)
    requires d > 0
    ensures n / d >= m <==> n >= m * d
  {
    var q := n / d;
    assert n == q * d + n % d;
    MulKeepsOrder(m, q, d);
    MulKeepsOrder(q + 1, m, d);
  }
}
