# A verified model of the paid-subscription engine

The mall sells token subscriptions. A payment notification completes an order and, in the same transaction,
delivers what was bought (a subscription, an extension, a better tier, or extra tokens), rewrites the
subscription's API keys, records the payment, uses up the coupon, credits the buyer's inviter and requests the
invoice. A bot renews subscriptions from wallets, resets quota periods and expires what has run out, in
concurrent batches. Users move commission to their wallets or withdraw it; team owners divide a quota among
member keys; two further bot jobs raise VIP tiers and keep the bot's own schedule.

The project models this as one transactional state machine over the tables and proves properties of whole runs
from an empty shop: what is true after any sequence of orders, notifications, replays, failures, bot handlers,
team and commission operations and catalogue changes.

## How it is organised

- `Tables`, `Engine`: the rows, and each transaction as a function from the database before to the database
  committed, or to an error that leaves no trace. `Engine.Step` and `Engine.Run` are single steps and runs.
- `Store`: the services and bot handlers in the form they have in the program, as methods of a class that update
  tables one after another. Each is proved to do what its `Engine` function says, including that a transaction
  that fails part-way restores every table.
- `Billing`, `Money`: period arithmetic with its loops and closed forms, cents and rounding.
- `Shapes`, `Moves`: what a step can do to each table, and to one subscription.
- `Placing`, `Payments`, `Handlers`, `Services`: when each call is accepted, as an if-and-only-if over its inputs, and
  what it then does, told by the rows before and after.
- `OrderBook`, `ExactlyOnce`, `Ledger`, `Keys`, `Clock`, `UpgradeCharge`, `Rebates`, `Coupons`: invariants and
  results over runs.
- `Batches`, `AutoRenewPhase`: the bot's concurrent phases.
- `KeepAlive`: which runs of the bot keep a subscription alive, and when it can no longer be renewed by the bot.
- `Witnesses`: states the shop reaches, step by step from an empty one, in which the guarantees that fail do fail.
- `Vip`, `Scheduler`: the tier sync job and the bot's job reconciler.

Money is whole cents, rates are whole hundredths of a percent, rounding is half away from zero, instants are
seconds. A row's id is its index in its table. Every transaction and every bot handler is one atomic step;
the reads the program makes without a lock (for example the subscription read at
`application/core-service/order/order_fulfill_service.go:354-357`) are sound only under that assumption.

## What turned out false, and exactly when

- Auto-renewal does not always renew every funded subscription. The order number is made of the second and the
  user id modulo 10000 (`application/bot/scripts/subscription_lifecycle/auto_renew.go:53`), all handlers of a run
  share one instant, and order numbers are unique (`docs/ai-platform-schema.sql:192`). So two due subscriptions
  whose owners' ids agree modulo 10000, two of one user in particular, are never both renewed in one phase, and
  the order of the handlers decides which one is. For any user, every order of the handlers renews all their due
  subscriptions if and only if each of these is affordable, has free numbers, and shares its number with no other
  due subscription whose owner can pay for it; what the other customers can pay does not matter otherwise (`AutoRenewPhase.UserRenewsAllExactlyWhen`). A wallet that covers the sum of the user's due
  prices takes the first of these conditions out, and then is debited exactly that sum in every order
  (`AutoRenewPhase.FundedUserRenewsAllExactlyWhen`).
  `Witnesses.OrderOfHandlersMatters` is a reachable shop in which one user has two due plans and the money for both.
- The front end shows one billing cycle fewer than the back end charges when the two dates are whole periods
  apart, expiry is at a later time of day than the period's end, and the cap is not reached; in every other case
  the two agree (`Billing.FrontEndAgreesExactlyWhen`). A renewal paid an hour late is enough to get there.
- An upgrade is charged for the periods it delivers if and only if fewer than 99 resets follow
  (`UpgradeCharge.UpgradeIsChargedForWhatItDelivers`); beyond that the later periods are free, as in
  `Witnesses.CappedUpgradeIsUndercharged`.
- A renewal paid after expiry leaves the period clock out of step with expiry unless whole periods have gone by
  (`Clock.MoveKeepsAlignmentExactlyWhen`), and then the bot never renews that subscription again until it is
  reactivated or renewed late once more (`KeepAlive.LateRenewalEndsAutoRenewal`). `Witnesses.LateRenewalMisaligns`
  reaches such a state.
- A bot run in the lead window before expiry does not by itself renew a funded subscription: a run renews before
  it resets, so the first run of the last period finds that period not begun
  (`KeepAlive.OneRunInTheWindowIsNotEnough`). Two runs, one earlier in the period, are enough
  (`KeepAlive.TendedSubscriptionNeverLapses`).
- A quota add-on, an upgrade or a period reset can leave the sub keys with more tokens than the subscription;
  `Keys.RegrantKeepsBoundExactlyWhen` and `Keys.ResetKeepsBoundExactlyWhen` say in which cases they do not, and
  `Witnesses.AddonOverallocates`, `Witnesses.UpgradeOverallocates` and `Witnesses.ResetOverallocates` reach one each.
- The limit of a subscription falls below its base quota exactly when an add-on is fulfilled whose negative tokens
  outweigh the slack between the two (`Clock.BaseFallsShortExactlyWhen`, `Witnesses.NegativeAddonUndercuts`), and what
  a user's invitees have paid falls exactly when the bot renews an invitee's subscription at a negative price
  (`Vip.PaidFallsExactlyWhen`, `Witnesses.NegativeRenewalLowersTier`).
- A coupon does not limit how many orders are discounted: payment never looks at it again
  (`Coupons.CouponsDoNotDecidePayment`); in `Witnesses.OneCouponTwoDiscounts` two orders are paid with one.

Where comments in the database schema and the code differ the model follows the code: a quota add-on is not
entered in a subscription's list of orders; a purchase makes one long period with the whole quantity's tokens; an
upgrade paid after expiry starts the subscription anew; upgrades and add-ons change the limits of sub keys too.

## Model

| member | source | states |
|---|---|---|
| Billing.AddPeriods | common/billing/period.go:32-38 | The loop advances by exactly `count` periods, and by none for a count below one. |
| Billing.CountUpgradeBillingCycles | common/billing/period.go:41-53 | The loop ends with min(99, 1 + ceil((expires_at - period_end)/D)), or 1 when nothing remains; always between 1 and 99. |
| Billing.CeilDivIs | common/billing/period.go:45-52 | The closed form's quotient is the one number k with (k-1)*d < n <= k*d, so the closed form is pinned down independently of division. |
| Billing.ResetLowersCycles | common/billing/period.go:41-53 | One period reset lowers the charge by exactly one if and only if the charge before it was not cut off by the cap. |
| Billing.CountCyclesShown | front/apps/shared/src/utils/billing-period.ts:41-59 | The front end's date loop gives the same closed form taken at noon of the two Beijing dates; 1 for dates that do not parse, 99 for a non-positive period of a later date. |
| Billing.FrontEndAgreesExactlyWhen | front/apps/shared/src/utils/billing-period.ts:34-59 | For all instants and periods, the count shown equals the count charged except in exactly one situation, and then it is one less. |
| Billing.PeriodLengthsAgree | front/apps/shared/src/utils/billing-period.ts:29-34 | The front end and the back end take the same period length for every product, given or not. |
| Money.CheckoutBalances | application/core-service/order/order_service.go:125-144 | For every price, quantity and coupon that is not refused, subtotal = discount + after-coupon, both within [0, subtotal], unless the subtotal is negative, which is quoted as nothing; the invoiced total is within half a cent of 1.06 times the after-coupon amount and not below it. |
| Money.CouponRefusedExactlyWhen | application/core-service/coupon/checkout.go:15-60 | A usable coupon is refused at checkout if and only if the order is below its minimum or the discount rounds to nothing. |
| Money.PercentDiscountMonotone | application/core-service/coupon/checkout.go:15-37 | A percentage discount never falls as the subtotal grows, minimum and cap included. |
| Money.InvoicedTotalMonotone | common/money/money.go:28-34 | The total with invoice surcharge is monotone in the amount. |
| Money.ParseAcceptsExactly | application/core-service/invite_rebate/commission_withdraw.go:118-136 | Which typed amounts are accepted, at every scale, and that the cents taken are within half a cent of what was typed. |
| Placing.PlacedExactlyWhen | application/core-service/order/order_service.go:94-194 | A request is accepted if and only if it names an outside channel and a product on sale, the subscription allows that type of order (a renewal or add-on of its own product, an upgrade to a larger one of the same category), the coupon is the user's, available, in date and takes something off, and the order's numbers are free. |
| Placing.PlacedOrderIsAsRequested | application/core-service/order/order_service.go:117-194 | The stored order has the request's product, type, subscription, invoice flag, channel and coupon and its quantity, for an upgrade the billing cycles; its total is the catalogue price times the quantity less the coupon's discount, plus six percent rounded to the cent with an invoice; exactly the pending orders of the same user, subscription and type are cancelled. |
| OrderBook.StepKeepsBook | infrastructure/mysql/user_orders.go:51-110 | No step breaks unique numbers or the one-pending rule, and an existing order can only be cancelled or completed, from pending. |
| OrderBook.AtMostOnePendingInEveryReachableState | infrastructure/mysql/user_orders.go:55-110 | In every reachable state at most one pending order per user, subscription and type for renewal, upgrade and quota add-on. |
| OrderBook.SettledIsFinal | application/core-service/order/order_fulfill_service.go:84-113 | Completed and cancelled orders never change again in any run, and an order's price, quantity, product and subscription never change at all. |
| OrderBook.SupersededIsNeverFulfilled | application/core-service/order/order_service.go:181-191 | After a newer order of the same kind, whatever happens next, a payment for the older one is refused as not payable. |
| OrderBook.TradeNoFindsItsOrder | infrastructure/mysql/user_orders.go:186-199 | Looking an order up by its payment number finds that order. |
| ExactlyOnce.StepKeepsReconciled | application/core-service/order/order_fulfill_service.go:67-154 | Every step of the shop keeps orders, payment flows, subscription lists, commission records and invoices matched one to one. |
| ExactlyOnce.FulfilmentIsExactlyOnce | application/core-service/order/order_fulfill_service.go:67-154 | In every reachable state completed orders and payment flows are in bijection, a completed purchase heads exactly one subscription, a completed purchase, renewal or upgrade stands in exactly one place of all lists, a quota add-on in none, and invoices match the orders that asked for one. |
| ExactlyOnce.ReplayChangesNothing | application/core-service/order/order_fulfill_service.go:68-75 | A notification that succeeded once can be repeated after any further run with no effect on any table. |
| ExactlyOnce.SecondKeyIsIgnored | application/core-service/order/order_fulfill_service.go:84-87 | Under another key a notification for a completed order is at most noted as ignored, after any run. |
| ExactlyOnce.HandledNotificationIsAPayment | application/core-service/order/order_service.go:230-265 | The service call is a payment step under the key made of channel and payment number; a second accepted call for that number changes nothing. |
| Payments.OnlySuccessIsHandled | application/core-service/order/order_service.go:235-238 | A notification that does not report success is refused, whatever the database and whatever it names. |
| Payments.NotificationAcceptedExactlyWhen | application/core-service/order/order_service.go:230-288 | A notification is accepted if and only if it reports success through an outside channel, names by its payment number an order placed for that channel, and was noted before, or the order is completed, or it is pending with product and subscription in a state to be delivered. |
| Payments.PaymentAcceptedExactlyWhen | application/core-service/order/order_fulfill_service.go:67-154 | The same for the payment transaction, the wallet having to cover the total only through the balance channel. |
| Payments.PaymentDelivers | application/core-service/order/order_fulfill_service.go:196-497 | What each type of paid order does to subscription, keys, wallets, payment flow, invoice and callback, row by row: one long period for a purchase, expiry moved on for a renewal, quotas replaced for an upgrade with clocks and usage started anew only after a lapse, limits raised for an add-on. |
| Payments.PaymentRewards | application/core-service/invite_rebate/order_rebate.go:24-147 | One record and one credit at the rate of the inviter's tier if that exists and is enabled, else of the default tier, if and only if there is an inviter, that rate is positive and the rounded rebate is; otherwise neither. |
| Payments.RenewalRewards | application/core-service/order/order_fulfill_service.go:157-178 | The same for a renewal by the bot. |
| Ledger.PostingKeepsAgreement | infrastructure/mysql/users.go:201-270 | Changing one balance together with one flow of the same amount noting the new balance keeps every balance equal to its flows. |
| Ledger.TransferKeepsAgreement | application/core-service/invite_rebate/commission_transfer.go:23-84 | A transfer, two balances and two flows, keeps both accounts equal to their flows. |
| Ledger.WithdrawalKeepsAgreement | application/core-service/invite_rebate/commission_withdraw.go:38-101 | A withdrawal keeps the commission balance equal to its flows. |
| Services.WithdrawnExactlyWhen | application/core-service/invite_rebate/commission_withdraw.go:17-101 | A withdrawal is accepted if and only if the typed amount, rounded to the cent, is positive, at most a million yuan and covered, with the channel set up; balance, withdrawal and flow change by that amount. |
| Services.MovedExactlyWhen | application/core-service/invite_rebate/commission_transfer.go:16-84 | A transfer is accepted if and only if the typed amount can be read and is covered and the reference is new; exactly that amount goes from commission to wallet, with its two flows. |
| Ledger.LedgerAgreesInEveryReachableState | infrastructure/mysql/users.go:201-270 | In every reachable state each balance is the sum of its flows, is non-negative, and equals the balance noted on the newest flow of its kind. |
| Rebates.CommissionIsConserved | application/core-service/invite_rebate/order_rebate.go:24-114 | Over any run a user's commission is their rebates minus withdrawals minus transfers to the wallet. |
| Rebates.RoundingAddsUp | application/core-service/invite_rebate/order_rebate.go:45-60 | Over n records the rebates differ from the exact percentages by at most n/2 cents. |
| Rebates.RebatesAreBounded | application/core-service/invite_rebate/order_rebate.go:24-91 | In every reachable state an order has at most one record, credited to the buyer's parent; the rounding bound holds; a rebate at a rate up to 100 percent is at most the amount paid. |
| Coupons.PaymentUsesCouponExactlyWhen | application/core-service/coupon/checkout.go:79-101 | Paying an order marks its coupon used if and only if the coupon is the buyer's and still available, and touches no other coupon. |
| Coupons.UsedCouponsHaveOneOrder | infrastructure/mysql/user_coupons.go:59-75 | In every reachable state a used coupon names one completed order of its holder that was placed with it, and no order uses two coupons. |
| Coupons.SpentCouponIsFinal | infrastructure/mysql/user_coupons.go:59-84 | Used and expired coupons never change again in any run. |
| Services.CouponsLapse | infrastructure/mysql/user_coupons.go:77-84 | The expiry job marks exactly the available coupons whose dates have passed. |
| Coupons.CouponsDoNotDecidePayment | application/core-service/coupon/checkout.go:97-100 | With any other coupon table a payment succeeds or fails just the same, with the same effect on all other tables. |
| Keys.StepKeepsMirror | application/core-service/order/order_fulfill_service.go:446-524 | Every step keeps keys and subscriptions in agreement. |
| Keys.KeysMirrorSubscriptions | application/core-service/order/order_fulfill_service.go:266-293 | In every reachable state a key is active exactly when its subscription is, a subscription has exactly one main key with its whole quota, and a member has at most one sub key of it, across expiry and reactivation. |
| Keys.AllocationNeverExceedsQuota | application/core-service/user_api_key/service.go:114-147 | Over any run in which the subscription is given no new quota, its sub keys' limits sum to at most its limit. |
| Keys.PurchaseStartsAllocated | application/core-service/order/order_fulfill_service.go:233-293 | A new subscription starts within that bound, exactly when its grant is not negative. |
| Keys.RegrantKeepsBoundExactlyWhen | application/core-service/order/order_fulfill_service.go:446-492 | An add-on keeps the bound if and only if the sub keys, each raised by it, fit the limit raised by it once; an upgrade if and only if the number of sub keys times the new quota fits the new quota, which for a positive quota means at most one sub key. |
| Keys.ResetKeepsBoundExactlyWhen | application/bot/scripts/subscription_lifecycle/api_keys_lifecycle.go:28-54 | A period reset keeps the bound if and only if the sub keys already fit the base quota. |
| Services.SubKeyCreatedExactlyWhen | application/core-service/user_api_key/service.go:80-149 | Exactly when a sub key is created, and the key that is. |
| Services.LimitChangedExactlyWhen | application/core-service/user_api_key/service.go:163-197 | A sub key's limit is changed if and only if by its noted owner, to no less than was used and no more than the other sub keys leave. |
| Services.MemberAddedExactlyWhen | application/core-service/user_api_key/service.go:263-313 | A team takes in exactly those its owner invited who are in no team. |
| Moves.StepMoves | application/core-service/order/order_fulfill_service.go:196-216 | Any step of the shop does to an existing subscription one of six moves, each with its guard, and nothing else. |
| Moves.StepOpens | application/core-service/order/order_fulfill_service.go:233-264 | Subscriptions appear only by the payment of a purchase, one at a time, with the terms of that order. |
| Clock.ClocksAreOrdered | application/core-service/order/order_fulfill_service.go:329-345 | In every run started_at <= period_start < period_end and period_start < expires_at. |
| Clock.BaseFallsShortExactlyWhen | application/core-service/order/order_fulfill_service.go:473-478 | From base_limit_tokens <= limit_tokens one step of the shop breaks it if and only if the step fulfils an add-on whose tokens are below base minus limit; a new subscription never starts below. |
| Clock.BaseStaysCoveredExactlyWhen | application/core-service/order/order_fulfill_service.go:473-478 | Over any run base_limit_tokens <= limit_tokens holds in every state if and only if no step of the run is such an add-on. |
| Clock.MoveKeepsAlignmentExactlyWhen | application/core-service/order/order_fulfill_service.go:329-345 | With one period length every move keeps period_end whole periods before expires_at, except a late renewal, which does so exactly when the gap is whole periods. |
| Clock.PeriodsStayAligned | application/bot/scripts/subscription_lifecycle/period_reset.go:21-45 | Over any run that moves the subscription by one period length and never renews it late, whatever else the catalogue holds, period_end <= expires_at and the difference is whole periods. |
| Clock.OneAutoRenewalPerPeriod | application/bot/scripts/subscription_lifecycle/auto_renew.go:23-32 | Between two automatic renewals of a subscription there is always a period reset or a reactivation by upgrade. |
| Clock.PaidTimeIsConserved | application/core-service/order/order_fulfill_service.go:233-434 | In every reachable state expires_at minus started_at is the time paid for since the start plus the gaps of late renewals; the quota is the last grant plus the add-ons of the running period; the order list is that of the statement. |
| Clock.GapsAreLateRenewals | application/core-service/order/order_fulfill_service.go:329-345 | The gaps are never negative and sum to nothing if and only if no renewal came after the expiry paid for by then. |
| UpgradeCharge.ScheduleDeliversRemaining | application/bot/scripts/subscription_lifecycle/period_reset.go:21-49 | For all non-decreasing run times with at least one run in every period that begins before expiry, the resets performed are exactly those periods, and the subscription has lapsed in the end if and only if some run came after expiry. |
| UpgradeCharge.BotDeliversRemainingPeriods | application/bot/scripts/subscription_lifecycle/period_reset.go:21-49 | The same inside any run of the whole shop in which no renewal or further upgrade of that subscription is fulfilled. |
| UpgradeCharge.UpgradeIsChargedForWhatItDelivers | application/core-service/order/order_subscription.go:39-53 | An upgrade placed, paid later in the same period, and left to a bot that runs at least once in every remaining period: the quantity charged is min(99, 1 + resets later performed), equal to 1 + resets if and only if these are fewer than 99, and the base quota they restore is the new tier's throughout. |
| Batches.HandlersCommute | application/bot/scripts/subscription_lifecycle/period_reset.go:11-51 | Any two handlers of the reset phase, or of the expiry phase, can be swapped without effect. |
| Batches.AnyOrderIsSequential | application/bot/scripts/subscription_lifecycle/entry.go:78-108 | Every execution order of the same handlers gives the same database. |
| Batches.BatchesPartition | application/bot/scripts/subscription_lifecycle/entry.go:78-108 | The batches concatenate to the id list, and each has 1 to 100 ids. |
| Batches.ConcurrentPhaseRefinesSequential | application/bot/scripts/subscription_lifecycle/entry.go:78-120 | Whatever order the handlers of each batch take, the reset or expiry phase does what one pass over the list does. |
| Batches.PhaseHandlesEveryActive | application/bot/scripts/subscription_lifecycle/entry.go:78-120 | Such a phase leaves each subscription of the table as its own row alone determines. |
| AutoRenewPhase.RenewsExactlyWhen | application/bot/scripts/subscription_lifecycle/auto_renew.go:13-81 | A handler renews if and only if the subscription is due, the wallet covers the price and the order's numbers are free. |
| Handlers.RenewedExactlyWhen | application/bot/scripts/subscription_lifecycle/auto_renew.go:13-54 | On consistent tables the bot renews if and only if the subscription is live, within the week before expiry, in its last period, its product and user on record, the wallet covers the price, and no order has the renewal's numbers. |
| Handlers.RenewalBuysOnePeriod | application/bot/scripts/subscription_lifecycle/auto_renew.go:53-80 | A renewal moves expiry on by exactly one period, for one completed order of quantity one at the catalogue price, and takes that price from the owner's wallet and no other; a handler that does not renew changes nothing. |
| Handlers.ResetTurnsPeriod | application/bot/scripts/subscription_lifecycle/period_reset.go:11-51 | A reset acts exactly after the end of a period with paid time left; the next period follows without a gap, quota and usage of subscription and main key start afresh, sub keys keep their limits. |
| Handlers.ExpiryEnds | application/bot/scripts/subscription_lifecycle/expire.go:11-38 | A live subscription lapses with its keys exactly when its expiry has passed; nothing else changes. |
| AutoRenewPhase.PhaseDebitsExactly | application/core-service/order/order_fulfill_service.go:157-178 | Whatever happens in a phase, each wallet drops by exactly the prices of its renewed subscriptions and stays non-negative. |
| AutoRenewPhase.UserRenewsAllExactlyWhen | application/bot/scripts/subscription_lifecycle/auto_renew.go:13-81 | For any user and any funds in the shop: every order of the handlers renews all the user's due subscriptions if and only if each is affordable with free numbers, and no other due, affordable subscription with free numbers has an owner congruent to the user modulo 10000. |
| AutoRenewPhase.FundedUserRenewsAllExactlyWhen | application/bot/scripts/subscription_lifecycle/auto_renew.go:13-81 | If one user's wallet covers the sum of their due prices, every order renews all of them if and only if their numbers are free and nobody else who can pay needs the same; and then every order debits that user exactly the sum and renews nothing else of theirs. |
| AutoRenewPhase.PhaseRenewsAllExactlyWhen | application/bot/scripts/subscription_lifecycle/auto_renew.go:13-81 | The same for the whole phase when every wallet covers its sum: all that is due is renewed if and only if all numbers needed are free and the owners differ modulo 10000. |
| AutoRenewPhase.NeverBothRenewed | docs/ai-platform-schema.sql:192 | Of two subscriptions whose owners agree modulo 10000, a phase never renews both, whatever the funds and the order. |
| AutoRenewPhase.FundedPhaseIsOrderIndependent | application/bot/scripts/subscription_lifecycle/auto_renew.go:13-81 | In that case any order of the handlers renews exactly what is due and debits each user exactly the sum of those prices. |
| AutoRenewPhase.OnlyFirstOfTwo | application/bot/scripts/subscription_lifecycle/auto_renew.go:13-81 | Of two subscriptions whose owners agree modulo 10000, a phase that handles the due and funded one first renews it and not the other. |
| KeepAlive.MisalignedIsNeverRenewed | application/bot/scripts/subscription_lifecycle/auto_renew.go:23-32 | A subscription whose expiry is not whole periods after period_end is never renewed by the bot, over any run that moves it by that period length only, with no late renewal and no reactivation of it. |
| KeepAlive.LateRenewalEndsAutoRenewal | application/core-service/order/order_fulfill_service.go:329-345 | A late renewal of an aligned subscription: after a gap of whole periods it is aligned as before, after any other gap the bot never renews it again over any such run. |
| KeepAlive.TendedSubscriptionNeverLapses | application/bot/scripts/subscription_lifecycle/entry.go:57-72 | Over any run of the shop that moves an aligned subscription by one period length and never renews it late, it is live after every step, if the running period, unless already extended, sees a run of the bot in its lead window and every later period a run and then one in the lead window, and every due renewal finds product, user, funds and free numbers. |
| KeepAlive.OneRunInTheWindowIsNotEnough | application/bot/scripts/subscription_lifecycle/entry.go:57-72 | If the only run in the last period is one in its lead window, the subscription lapses at the next run and no wallet is debited, whatever the funds. |
| Witnesses.OrderOfHandlersMatters | application/bot/scripts/subscription_lifecycle/auto_renew.go:53-54 | In a state reached from an empty shop, with funds for all that is due, each order of the handlers renews a different plan of one user and only that one; not all is renewed because the numbers clash. |
| Witnesses.LateRenewalMisaligns | common/billing/period.go:41-53 | In a reachable state after a renewal paid an hour late the clocks are out of step, and an upgrade is charged for three cycles where the front end shows two. |
| Witnesses.AddonOverallocates | application/core-service/order/order_fulfill_service.go:473-492 | A reachable team within its quota of 100 is after one add-on left with sub keys of 300 tokens under a quota of 200. |
| Witnesses.UpgradeOverallocates | application/core-service/order/order_fulfill_service.go:446-459 | The same team after one upgrade to 200 has sub keys of 400 tokens. |
| Witnesses.ResetOverallocates | application/bot/scripts/subscription_lifecycle/api_keys_lifecycle.go:28-54 | A reachable team within its quota of 200 is over it after a period reset takes the quota back to 100. |
| Witnesses.CappedUpgradeIsUndercharged | common/billing/period.go:45-52 | In a reachable state an upgrade with 100 periods to come is charged for 99, and any dense enough schedule of the bot delivers all 100. |
| Witnesses.OneCouponTwoDiscounts | application/core-service/coupon/checkout.go:97-100 | In a reachable shop two pending orders are priced with one coupon and both are paid at the discount; the coupon names the first. |
| Witnesses.NegativeAddonUndercuts | application/core-service/order/order_fulfill_service.go:473-478 | In a reachable state an add-on with a quota of -150 leaves a subscription at -50 under a base quota of 100. |
| Witnesses.NegativeRenewalLowersTier | infrastructure/mysql/users.go:147-177 | In a reachable state the bot's renewal of an invitee at a negative price takes the inviter below a tier they qualified for. |
| Store.Database.ApplyWalletDelta | infrastructure/mysql/users.go:252-270 | Adds to one wallet, never below zero; the balance returned is the new one; a failure changes nothing. |
| Store.Database.ApplyCommissionDelta | infrastructure/mysql/users.go:201-221 | The same for the commission balance. |
| Store.Database.TransferCommissionToWallet | infrastructure/mysql/users.go:223-250 | Moves a positive amount from commission to wallet and returns both new balances, or changes nothing. |
| Store.Database.CreateOrderReplacingPending | infrastructure/mysql/user_orders.go:55-110 | Cancels every pending order of the same user, subscription and type and adds the new one, or, on a taken number, changes nothing. |
| Store.Database.DeductBalanceAndRecordFlow | application/core-service/order/order_fulfill_service.go:546-571 | Debits the wallet only for the balance channel and records one payment flow, with the balance only then. |
| Store.Database.CreateSubscriptionForPurchase | application/core-service/order/order_fulfill_service.go:233-264 | Appends the subscription that the paid purchase calls for. |
| Store.Database.FulfillPurchaseOrderPaid | application/core-service/order/order_fulfill_service.go:218-231 | Subscription, main key and payment, as the purchase transition says. |
| Store.Database.RenewSubscriptionForOrder | application/core-service/order/order_fulfill_service.go:312-348 | Extends from the later of now and expiry, with each of the four refusals. |
| Store.Database.UpgradeSubscriptionForOrder | application/core-service/order/order_fulfill_service.go:387-444 | Rewrites product and quotas, and the clocks only when the subscription had lapsed. |
| Store.Database.FulfillUpgradeOrderPaid | application/core-service/order/order_fulfill_service.go:367-385 | The upgrade with its two key updates and payment, as the upgrade transition says. |
| Store.Database.FulfillQuotaAddonOrderPaid | application/core-service/order/order_fulfill_service.go:461-497 | The add-on for a live subscription and all its keys, and its payment. |
| Store.Database.AccrueInviteRebateForPaidOrder | application/core-service/invite_rebate/order_rebate.go:14-125 | One record, one credit and one flow for the inviter, or nothing in each of the cases without a rebate. Who earns, at which rate and how much is told by users and tiers. |
| Store.Database.ApplyPaymentNotifySuccess | application/core-service/order/order_fulfill_service.go:67-154 | The whole payment transaction does what the transition says, and on any failure every table is as before. |
| Store.Database.HandlePaymentNotify | application/core-service/order/order_service.go:230-288 | Which notifications reach the payment transaction and under which idempotency key. A notification without success always fails and leaves every table. |
| Store.Database.CreateMockOrder | application/core-service/order/order_service.go:94-197 | Resolves, prices and creates an order, superseding pending ones of its kind; on any error no table changes. A created order says and costs what was requested. |
| Store.Database.AutoRenewSubscription | application/bot/scripts/subscription_lifecycle/auto_renew.go:13-81 | The automatic renewal, with every case in which it does nothing and every failure rolled back. Either nothing changes or one period is bought for its price. |
| Store.Database.PeriodResetSubscription | application/bot/scripts/subscription_lifecycle/period_reset.go:11-51 | Advances one period and restores the base quota of subscription and keys, when due. |
| Store.Database.ExpireSubscription | application/bot/scripts/subscription_lifecycle/expire.go:11-38 | Expires the subscription and its keys, when due. |
| Store.Database.RunBatch | application/bot/scripts/subscription_lifecycle/entry.go:90-106 | One batch runs each of its handlers once, in an order left open. |
| Store.Database.RunActiveByBatch | application/bot/scripts/subscription_lifecycle/entry.go:78-108 | The batch loop with handlers in any order ends in the state of one pass over the active subscriptions in id order. |
| Store.Database.RunAutoRenewPhase | application/bot/scripts/subscription_lifecycle/entry.go:78-112 | The renewal phase handles each active subscription once, in an order left open. |
| Store.Database.Run | application/bot/scripts/subscription_lifecycle/entry.go:57-72 | A bot run is renewals, then resets, then expiries, each over what is active by then. |
| Store.BotPassKeepsInvariants | application/bot/scripts/subscription_lifecycle/entry.go:57-120 | A whole bot run, in any handler order, keeps fulfilment, balances and keys consistent. |
| Store.PassResetsAfterRenewing | application/bot/scripts/subscription_lifecycle/entry.go:57-72 | In one run of the bot a subscription whose next period has begun is reset and not renewed, even when that period is its last, and it lapses if and only if its expiry has passed. |
| Store.Database.SumActiveSubKeyLimits | infrastructure/mysql/user_api_keys.go:70-79 | The sum over a subscription's sub keys with one row left out. |
| Store.Database.CreateSubKey | application/core-service/user_api_key/service.go:80-162 | Creates a sub key only for an active subscription, an own member without one, within the quota left. |
| Store.Database.UpdateSubKeyLimit | application/core-service/user_api_key/service.go:163-197 | Changes one sub key's limit, not below what is used and within the quota left by the others. |
| Store.Database.CreateCommissionWithdrawal | application/core-service/invite_rebate/commission_withdraw.go:17-116 | Debits commission, adds the withdrawal and its flow, or changes nothing. |
| Store.Database.TransferCommissionToBalance | application/core-service/invite_rebate/commission_transfer.go:16-94 | Moves commission to the wallet with its two flows, or changes nothing. |
| Vip.BestQualifyingVipTier | application/core-service/invite_rebate/vip_tier.go:9-28 | The loop returns a qualifying tier that no qualifying tier is above by (sort_order, id), or none when none qualifies. |
| Vip.BestIgnoresListing | application/core-service/invite_rebate/vip_tier.go:9-28 | The result is the same for every order in which the tiers are listed. |
| Vip.BestIsMonotone | application/core-service/invite_rebate/vip_tier.go:9-28 | More invites and more paid never lead to a lower tier. |
| Vip.BuildSyncPlan | application/bot/scripts/vip_level_sync/entry.go:76-114 | There is a plan if and only if some tier is enabled; it holds the enabled tiers, the rank of every tier, and for every user the invites and paid total that counting for that user alone gives. |
| Vip.GroupedInvitesAreInvites | infrastructure/mysql/users.go:102-128 | Counting invitees grouped by inviter agrees with counting them for one inviter, for every user with or without a group. |
| Vip.GroupedPaidIsPaid | infrastructure/mysql/users.go:147-177 | Summing completed invitee orders grouped by inviter agrees with summing them for one inviter, for every user. |
| Vip.ListAllUsersForSync | application/bot/scripts/vip_level_sync/entry.go:116-134 | Paging visits every user exactly once, in order. |
| Vip.VipLevelSyncJob.SyncOneUser | application/bot/scripts/vip_level_sync/entry.go:172-197 | The user is raised to the best qualifying tier if and only if that ranks above the tier held, a tier not on record ranking below zero; otherwise nothing changes. |
| Vip.VipLevelSyncJob.RunUsersByBatch | application/bot/scripts/vip_level_sync/entry.go:136-170 | With the users of each batch handled in any order, every user ends with the tier their own row calls for and no one else changes. |
| Vip.VipLevelSyncJob.Run | application/bot/scripts/vip_level_sync/entry.go:50-74 | One run of the job, listing and batches together, leaves every user with exactly the tier the plan gives them, each listed once. Each is kept or raised to a best tier, and afterwards nobody qualifies for an enabled tier that ranks above theirs. |
| Vip.VipLevelSyncJob.RunAll | application/bot/scripts/vip_level_sync/entry.go:50-74 | Runs one after another, each with its own plan, end in the table that the two results below are about. |
| Vip.SyncLeavesNobodyBelow | application/bot/scripts/vip_level_sync/entry.go:172-197 | After a sync no user qualifies for an enabled tier that ranks above the one they have. |
| Vip.RepeatedSyncIsNoOp | application/bot/scripts/vip_level_sync/entry.go:172-197 | A second sync with the same plan changes nothing. |
| Vip.RankNeverFalls | application/bot/scripts/vip_level_sync/entry.go:172-197 | Over any sequence of syncs with a fixed tier table no user's rank falls. |
| Vip.PaidFallsExactlyWhen | infrastructure/mysql/users.go:147-177 | In a shop whose unsettled totals are not negative, which every reachable one is, one step lowers what a user's invitees have paid if and only if the bot renews an invitee's subscription at a negative price. |
| Vip.BestTierNeverFalls | infrastructure/mysql/users.go:109-177 | From any reachable state, over any run without such a renewal, the tier a user qualifies for never falls: invites and completed invitee orders only add up. |
| Scheduler.KnownNamesAreTheirOwn | application/bot/scheduler.go:218-243 | No other configuration row has the job name of a task with a handler. |
| Scheduler.Scheduler.Reconcile | application/bot/scheduler.go:113-198 | One row leaves the three tables in step, whether or not the job is created. |
| Scheduler.Scheduler.Handle | application/bot/scheduler.go:57-202 | After every round, even with failed creations, jobs, remembered intervals and registered tags name the same jobs; if all are accepted they are exactly the known tasks at their intervals; a settled configuration changes nothing. Each row ends running at its interval if its job was accepted or already ran so, and not otherwise. |
| Scheduler.RowsEndAs | application/bot/scheduler.go:113-198 | Row by row, for unique rows and any pattern of refused jobs: an accepted row's job runs at its interval, a refused one only if it did already. |
| Scheduler.NanosecondsRun | application/bot/scheduler.go:147-150 | A job runs every whole nanosecond count of its interval, never under a millisecond. |
| Scheduler.Scheduler.Stop | application/bot/scheduler.go:205-216 | Afterwards all three tables are empty. |
| Scheduler.WantedIsSettled | application/bot/scheduler.go:92-198 | After an accepted round, a second round on the same configuration has nothing to do. |

## Left out

- HTTP handlers, dependency wiring, configuration files, Redis, logging, tracking, notification rows, product and tutorial content, the views: input and output only.
- SQL, GORM and row locks: a transaction or bot handler is one atomic step, and the reads made without a lock rely on that.
- The gateway that meters tokens is not in the repository: usage of a key is a step of the surroundings, a subscription's own used_tokens is only ever reset, and nothing is claimed about used against limit.
- Key generation and hashes, the text of order and payment numbers (kept as their parts), text normalisation of channels, order types and payment statuses, and a blank payment number.
- Ids are row indexes: gaps that rolled-back inserts leave in auto-increment columns are not modelled.
- Integers are unbounded: 64-bit overflow of token sums and of nanosecond times is not modelled.
- enterprise_inquiry ids on keys and members, and card titles and remarks: copied, never decided on.
- The payout QR code of a withdrawal channel, and the clock-made reference of a transfer, are parameters.
- The front end's fallback for text that is no date, and its time-zone library: such text is a date that does not parse.
- The gocron library: jobs are held by tag, and whether it accepts a job is a parameter; running a job is not modelled.
- The upgrade counters, logging and failed handlers of the VIP sync; coupon campaigns and claims, except that coupons appear.
- Withdrawal payout, refunds and closing of unpaid orders: no code in the repository drives them.
- Keys.AllocationNeverExceedsQuota: does not cover add-ons, upgrades and resets of the same subscription, because the code does not keep the bound there; the exact cases are proved separately.
