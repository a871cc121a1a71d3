/**
 The rows of the shop's tables.  An auto-increment id is modelled as the row's index in its table, so ids are
 fresh by construction; a reference column whose value 0 means "none" is an Option.
 */
module Tables {
  import opened Common
  import opened Billing
  import opened Money

  type Tokens = int

  datatype Product = Product(limitTokens: Tokens, billingPeriod: BillingPeriod, periodDays: int,
                             price: Cents, category: string, onSale: bool)
  {
    function Days(): (days: int)
      ensures days > 0
    {
      Billing.PeriodDays(periodDays, billingPeriod)
    }
  }

  datatype User = User(parent: Option<nat>, vip: nat, wallet: Cents, commission: Cents)

  datatype Tier = Tier(id: nat, minInvites: nat, minPaid: Cents, rate: int, sortOrder: int, enabled: bool)

  datatype Channel = Balance | Alipay | Wechat | PayPal

  /** Purchase covers the blank order type too; Unrecognised is any other text. */
  datatype OrderType = Purchase | Renewal | Upgrade | QuotaAddon | Unrecognised

  datatype OrderStatus = Pending | Completed | Cancelled

  /** The unique business number of an order: a prefix, the second it was made in, and the user id modulo 10000. */
  datatype OrderNo = OrderNo(autoRenewal: bool, second: Time, suffix: nat)

  /** The unique payment number: a millisecond and a user, or a millisecond and a subscription. */
  datatype TradeNo = PayNo(millis: int, user: nat) | RenewNo(millis: int, sub: nat)

  datatype Order = Order(no: OrderNo, user: nat, product: nat, orderType: OrderType, sub: Option<nat>,
                         quantity: int, total: Cents, status: OrderStatus, invoice: bool,
                         channel: Channel, tradeNo: TradeNo, coupon: Option<nat>, paidAt: Option<Time>)

  datatype SubStatus = Live | Lapsed

  datatype Subscription = Subscription(user: nat, product: nat, orders: seq<nat>, category: string,
                                       base: Tokens, limit: Tokens, used: Tokens,
                                       startedAt: Time, expiresAt: Time, periodStart: Time, periodEnd: Time,
                                       status: SubStatus)

  datatype KeyType = Main | Sub

  datatype KeyStatus = KeyActive | KeyExpired | KeyRotated

  datatype Key = Key(user: nat, owner: nat, sub: nat, keyType: KeyType, category: string,
                     limit: Tokens, used: Tokens, status: KeyStatus)

  datatype FlowType = Pay | Commission | Withdraw | Recharge

  datatype FlowRef = OrderRef(id: nat) | RecordRef(id: nat) | WithdrawalRef(id: nat) | TransferRef(id: nat)

  datatype Flow = Flow(user: nat, flowType: FlowType, amount: Cents, balanceAfter: Option<Cents>, ref: FlowRef)

  datatype Record = Record(inviter: nat, invitee: nat, order: nat, orderAmount: Cents, rate: int, rebate: Cents)

  datatype Withdrawal = Withdrawal(user: nat, amount: Cents)

  /** A notification's identity: the channel and the payment number it was built from. */
  datatype IdemKey = IdemKey(channel: Channel, tradeNo: TradeNo)

  datatype Callback = Callback(channel: Channel, key: IdemKey, ignored: bool)

  datatype CouponStatus = Available | Used | CouponExpired

  datatype Coupon = Coupon(user: nat, discount: Discount, minOrder: Cents, status: CouponStatus,
                           validFrom: Time, validUntil: Time, order: Option<nat>)

  datatype Invoice = Invoice(order: nat, user: nat, amount: Cents)

  /** The whole database.  `members` maps an active team member to the team's owner. */
  datatype DB = DB(users: seq<User>, products: map<nat, Product>, tiers: map<nat, Tier>, defaultTier: nat,
                   members: map<nat, nat>, coupons: seq<Coupon>, orders: seq<Order>, subs: seq<Subscription>,
                   keys: seq<Key>, flows: seq<Flow>, records: seq<Record>, withdrawals: seq<Withdrawal>,
                   callbacks: seq<Callback>, invoices: seq<Invoice>)
}
