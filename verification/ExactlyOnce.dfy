/**
 Every order is fulfilled exactly once: completed orders, payment flows, the order lists of subscriptions,
 commission records and invoices match one to one in every reachable state.
 */
module ExactlyOnce {
  import opened Common
  import opened Billing
  import opened Tables
  import opened Engine
  import opened Shapes
  import opened OrderBook

  // Completed orders and payments

  predicate IsPaid(orders: seq<Order>, o: nat) {
    o < |orders| && orders[o].status == Completed
  }

  ghost predicate FlowsUnique(flows: seq<Flow>) {
    forall i, j :: 0 <= i < j < |flows| ==> flows[i].flowType != flows[j].flowType || flows[i].ref != flows[j].ref
  }

  /** Every payment flow is that of a completed order, and every completed order has one. */
  ghost predicate PaymentsMatch(orders: seq<Order>, flows: seq<Flow>) {
    && FlowsUnique(flows)
    && (forall i :: 0 <= i < |flows| && flows[i].flowType == Pay ==>
          && flows[i].ref.OrderRef? && IsPaid(orders, flows[i].ref.id)
          && PayFlow(flows[i], flows[i].ref.id, orders[flows[i].ref.id]))
    && (forall o: nat :: IsPaid(orders, o) ==> HasFlow(flows, Pay, OrderRef(o)))
  }

  /** References to records and withdrawals are to rows that exist. */
  ghost predicate RefsExist(flows: seq<Flow>, records: seq<Record>, withdrawals: seq<Withdrawal>) {
    forall i :: 0 <= i < |flows| ==>
      && (flows[i].ref.RecordRef? ==> flows[i].ref.id < |records|)
      && (flows[i].ref.WithdrawalRef? ==> flows[i].ref.id < |withdrawals|)
  }

  /** At most one record an order, for a completed order, credited to the buyer's parent at the rate recorded. */
  ghost predicate RecordsMatch(users: seq<User>, orders: seq<Order>, records: seq<Record>) {
    && (forall i, j :: 0 <= i < j < |records| ==> records[i].order != records[j].order)
    && (forall i :: 0 <= i < |records| ==>
          IsPaid(orders, records[i].order) && RecordOf(users, records[i], records[i].order, orders[records[i].order]))
  }

  // Completed orders and subscriptions

  predicate Listable(t: OrderType) {
    t == Purchase || t == Renewal || t == Upgrade
  }

  predicate ListedAt(subs: seq<Subscription>, s: nat, k: nat, o: nat) {
    s < |subs| && k < |subs[s].orders| && subs[s].orders[k] == o
  }

  /** What the order at a place of a subscription's list must be: a purchase heads it, renewals and upgrades follow. */
  predicate FitsAt(orders: seq<Order>, user: nat, s: nat, k: nat, o: nat) {
    && IsPaid(orders, o) && orders[o].user == user
    && (k == 0 ==> orders[o].orderType == Purchase)
    && (k > 0 ==> (orders[o].orderType == Renewal || orders[o].orderType == Upgrade) && orders[o].sub == Some(s))
  }

  ghost predicate IsListed(subs: seq<Subscription>, o: nat) {
    exists s: nat, k: nat :: ListedAt(subs, s, k, o)
  }

  /** The lists hold only fitting orders, no order twice, and every completed order that belongs on a list. */
  ghost predicate ListsMatch(orders: seq<Order>, subs: seq<Subscription>) {
    && (forall s :: 0 <= s < |subs| ==> subs[s].orders != [])
    && (forall s: nat, k: nat, o: nat :: ListedAt(subs, s, k, o) ==> FitsAt(orders, subs[s].user, s, k, o))
    && (forall s: nat, k: nat, s': nat, k': nat, o: nat :: ListedAt(subs, s, k, o) && ListedAt(subs, s', k', o) ==> s == s' && k == k')
    && (forall o: nat :: IsPaid(orders, o) && Listable(orders[o].orderType) ==> IsListed(subs, o))
  }

  // Invoices

  ghost predicate HasInvoice(invoices: seq<Invoice>, o: nat) {
    exists i :: 0 <= i < |invoices| && invoices[i].order == o
  }

  ghost predicate InvoicesMatch(orders: seq<Order>, invoices: seq<Invoice>) {
    && (forall i, j :: 0 <= i < j < |invoices| ==> invoices[i].order != invoices[j].order)
    && (forall i :: 0 <= i < |invoices| ==>
          && IsPaid(orders, invoices[i].order) && orders[invoices[i].order].invoice
          && invoices[i].user == orders[invoices[i].order].user && invoices[i].amount == orders[invoices[i].order].total)
    && (forall o: nat :: IsPaid(orders, o) && orders[o].invoice ==> HasInvoice(invoices, o))
  }

  ghost predicate Reconciled(db: DB) {
    && OrdersOk(db.orders)
    && PaymentsMatch(db.orders, db.flows)
    && RefsExist(db.flows, db.records, db.withdrawals)
    && RecordsMatch(db.users, db.orders, db.records)
    && ListsMatch(db.orders, db.subs)
    && InvoicesMatch(db.orders, db.invoices)
  }

  /** The same orders are completed, with the same terms. */
  ghost predicate SameCompleted(orders: seq<Order>, orders': seq<Order>) {
    && |orders| <= |orders'|
    && forall o :: 0 <= o < |orders'| ==>
         if o < |orders| && orders[o].status == Completed then orders'[o] == orders[o] else orders'[o].status != Completed
  }

  /** Exactly one more order, `o`, is completed. */
  ghost predicate Completes(orders: seq<Order>, orders': seq<Order>, o: nat) {
    && |orders| <= |orders'| && o < |orders'|
    && orders'[o].status == Completed && !IsPaid(orders, o)
    && forall i :: 0 <= i < |orders'| && i != o ==>
         if i < |orders| && orders[i].status == Completed then orders'[i] == orders[i] else orders'[i].status != Completed
  }

  lemma SameCompletedKeeps(db: DB, d: DB)
    requires Reconciled(db) && OrdersOk(d.orders)
    requires SameCompleted(db.orders, d.orders)
    requires d == db.(orders := d.orders)
    ensures Reconciled(d)
  {
    forall o: nat | IsPaid(d.orders, o)
      ensures IsPaid(db.orders, o) && d.orders[o] == db.orders[o]
    {
    }
    PaymentsFrame(db.orders, d.orders, db.flows);
    RecordsFrame(db.users, db.users, db.orders, d.orders, db.records);
    ListsFrame(db.orders, d.orders, db.subs);
  }

  lemma PaymentsFrame(orders: seq<Order>, orders': seq<Order>, flows: seq<Flow>)
    requires PaymentsMatch(orders, flows) && SameCompleted(orders, orders')
    ensures PaymentsMatch(orders', flows)
  {
    forall o: nat | IsPaid(orders', o) ensures HasFlow(flows, Pay, OrderRef(o)) {
      assert IsPaid(orders, o);
    }
  }

  lemma RecordsFrame(users: seq<User>, users': seq<User>, orders: seq<Order>, orders': seq<Order>, records: seq<Record>)
    requires RecordsMatch(users, orders, records)
    requires SameFamily(users, users')
    requires forall o: nat :: IsPaid(orders, o) ==> IsPaid(orders', o) && orders'[o] == orders[o]
    ensures RecordsMatch(users', orders', records)
  {
    forall i | 0 <= i < |records|
      ensures IsPaid(orders', records[i].order) && RecordOf(users', records[i], records[i].order, orders'[records[i].order])
    {
      assert IsPaid(orders, records[i].order);
    }
  }

  lemma ListsFrame(orders: seq<Order>, orders': seq<Order>, subs: seq<Subscription>)
    requires ListsMatch(orders, subs) && SameCompleted(orders, orders')
    ensures ListsMatch(orders', subs)
  {
    forall s: nat, k: nat, o: nat | ListedAt(subs, s, k, o) ensures FitsAt(orders', subs[s].user, s, k, o) {
      assert FitsAt(orders, subs[s].user, s, k, o);
    }
    forall o: nat | IsPaid(orders', o) && Listable(orders'[o].orderType) ensures IsListed(subs, o) {
      assert IsPaid(orders, o);
    }
  }

  // One more order completed

  lemma PaymentsGrow(orders: seq<Order>, orders': seq<Order>, o: nat, flows: seq<Flow>, f: Flow)
    requires PaymentsMatch(orders, flows) && Completes(orders, orders', o)
    requires PayFlow(f, o, orders'[o])
    ensures PaymentsMatch(orders', flows + [f])
  {
    var flows' := flows + [f];
    forall i | 0 <= i < |flows| && flows[i].flowType == Pay
      ensures flows[i].ref != f.ref
    {
      assert IsPaid(orders, flows[i].ref.id);
    }
    forall p: nat | IsPaid(orders', p) ensures HasFlow(flows', Pay, OrderRef(p)) {
      if p == o {
        assert flows'[|flows|] == f;
      } else {
        assert IsPaid(orders, p);
        var i :| 0 <= i < |flows| && flows[i].flowType == Pay && flows[i].ref == OrderRef(p);
        assert flows'[i] == flows[i];
      }
    }
    assert IsPaid(orders', o);
  }

  /** A flow that is no payment and whose reference is new leaves the payments matched. */
  lemma OtherFlowKeepsPayments(orders: seq<Order>, flows: seq<Flow>, f: Flow)
    requires PaymentsMatch(orders, flows)
    requires f.flowType != Pay && !HasFlow(flows, f.flowType, f.ref)
    ensures PaymentsMatch(orders, flows + [f])
  {
    var flows' := flows + [f];
    forall p: nat | IsPaid(orders, p) ensures HasFlow(flows', Pay, OrderRef(p)) {
      var i :| 0 <= i < |flows| && flows[i].flowType == Pay && flows[i].ref == OrderRef(p);
      assert flows'[i] == flows[i];
    }
  }

  lemma PaysOnceKeeps(db: DB, d: DB, o: nat)
    requires PaymentsMatch(db.orders, db.flows)
    requires RefsExist(db.flows, db.records, db.withdrawals)
    requires RecordsMatch(db.users, db.orders, db.records)
    requires Completes(db.orders, d.orders, o)
    requires PaysOnce(db, d, o, d.orders[o])
    ensures PaymentsMatch(d.orders, d.flows)
    ensures RefsExist(d.flows, d.records, d.withdrawals)
    ensures RecordsMatch(d.users, d.orders, d.records)
  {
    var n := |db.flows|;
    var f := d.flows[n];
    PaymentsGrow(db.orders, d.orders, o, db.flows, f);
    forall p: nat | IsPaid(db.orders, p) ensures IsPaid(d.orders, p) && d.orders[p] == db.orders[p] {
    }
    RecordsFrame(db.users, d.users, db.orders, d.orders, db.records);
    if |d.flows| == n + 1 {
      assert d.flows == db.flows + [f];
    } else {
      var g := d.flows[n + 1];
      assert d.flows == db.flows + [f] + [g];
      OtherFlowKeepsPayments(d.orders, db.flows + [f], g);
      assert d.records == db.records + [d.records[|db.records|]];
      assert IsPaid(d.orders, o);
    }
  }

  lemma InvoicesGrow(orders: seq<Order>, orders': seq<Order>, o: nat, invoices: seq<Invoice>, invoices': seq<Invoice>)
    requires InvoicesMatch(orders, invoices) && Completes(orders, orders', o)
    requires invoices' == if orders'[o].invoice then invoices + [Invoice(o, orders'[o].user, orders'[o].total)] else invoices
    ensures InvoicesMatch(orders', invoices')
  {
    forall i | 0 <= i < |invoices| ensures invoices[i].order != o && IsPaid(orders', invoices[i].order) {
      assert IsPaid(orders, invoices[i].order);
    }
    forall p: nat | IsPaid(orders', p) && orders'[p].invoice ensures HasInvoice(invoices', p) {
      if p == o {
        assert invoices'[|invoices|].order == o;
      } else {
        assert IsPaid(orders, p);
        var i :| 0 <= i < |invoices| && invoices[i].order == p;
        assert invoices'[i].order == p;
      }
    }
  }

  /** Appending the completed order `o` to one list. */
  lemma ListExtended(orders: seq<Order>, orders': seq<Order>, o: nat, subs: seq<Subscription>, s: nat, sub: Subscription)
    requires ListsMatch(orders, subs) && Completes(orders, orders', o)
    requires s < |subs| && sub.orders == subs[s].orders + [o] && sub.user == subs[s].user == orders'[o].user
    requires orders'[o].sub == Some(s) && (orders'[o].orderType == Renewal || orders'[o].orderType == Upgrade)
    ensures ListsMatch(orders', subs[s := sub])
  {
    var subs' := subs[s := sub];
    var n := |subs[s].orders|;
    forall r: nat, k: nat, p: nat | ListedAt(subs', r, k, p)
      ensures FitsAt(orders', subs'[r].user, r, k, p)
      ensures if r == s && k == n then p == o else ListedAt(subs, r, k, p) && p != o
    {
      if r != s || k != n {
        assert ListedAt(subs, r, k, p);
        assert FitsAt(orders, subs[r].user, r, k, p);
      }
    }
    forall p: nat | IsPaid(orders', p) && Listable(orders'[p].orderType) ensures IsListed(subs', p) {
      if p == o {
        assert ListedAt(subs', s, n, o);
      } else {
        assert IsPaid(orders, p);
        var r: nat, k: nat :| ListedAt(subs, r, k, p);
        assert ListedAt(subs', r, k, p);
      }
    }
  }

  /** A new subscription headed by the completed purchase `o`. */
  lemma ListStarted(orders: seq<Order>, orders': seq<Order>, o: nat, subs: seq<Subscription>, sub: Subscription)
    requires ListsMatch(orders, subs) && Completes(orders, orders', o)
    requires sub.orders == [o] && sub.user == orders'[o].user && orders'[o].orderType == Purchase
    ensures ListsMatch(orders', subs + [sub])
  {
    var subs' := subs + [sub];
    forall r: nat, k: nat, p: nat | ListedAt(subs', r, k, p)
      ensures FitsAt(orders', subs'[r].user, r, k, p)
      ensures if r == |subs| then k == 0 && p == o else ListedAt(subs, r, k, p) && p != o
    {
      if r < |subs| {
        assert ListedAt(subs, r, k, p);
        assert FitsAt(orders, subs[r].user, r, k, p);
      }
    }
    forall p: nat | IsPaid(orders', p) && Listable(orders'[p].orderType) ensures IsListed(subs', p) {
      if p == o {
        assert ListedAt(subs', |subs|, 0, o);
      } else {
        assert IsPaid(orders, p);
        var r: nat, k: nat :| ListedAt(subs, r, k, p);
        assert ListedAt(subs', r, k, p);
      }
    }
  }

  /** The lists are as before, but for a column that is not the list. */
  lemma ListsUntouched(orders: seq<Order>, orders': seq<Order>, subs: seq<Subscription>, subs': seq<Subscription>)
    requires ListsMatch(orders, subs)
    requires |subs'| == |subs| && forall s :: 0 <= s < |subs| ==> subs'[s].orders == subs[s].orders && subs'[s].user == subs[s].user
    requires forall o: nat :: IsPaid(orders, o) ==> IsPaid(orders', o) && orders'[o] == orders[o]
    requires forall o: nat :: IsPaid(orders', o) && Listable(orders'[o].orderType) ==> IsPaid(orders, o)
    ensures ListsMatch(orders', subs')
  {
    forall s: nat, k: nat, o: nat | ListedAt(subs', s, k, o)
      ensures ListedAt(subs, s, k, o) && FitsAt(orders', subs'[s].user, s, k, o)
    {
      assert ListedAt(subs, s, k, o);
      assert FitsAt(orders, subs[s].user, s, k, o);
    }
    forall o: nat | IsPaid(orders', o) && Listable(orders'[o].orderType) ensures IsListed(subs', o) {
      var s: nat, k: nat :| ListedAt(subs, s, k, o);
      assert ListedAt(subs', s, k, o);
    }
  }

  lemma DeliverKeepsLists(orders: seq<Order>, db: DB, o: nat, p: Product, now: Time)
    requires ListsMatch(orders, db.subs) && Completes(orders, db.orders, o)
    requires Deliver(db, o, p, now).Success?
    ensures ListsMatch(db.orders, Deliver(db, o, p, now).value.subs)
  {
    var order := db.orders[o];
    var subs' := Deliver(db, o, p, now).value.subs;
    match order.orderType
    case Purchase => ListStarted(orders, db.orders, o, db.subs, NewSubscription(order, o, p, now));
    case Renewal => ListExtended(orders, db.orders, o, db.subs, order.sub.value, subs'[order.sub.value]);
    case Upgrade => ListExtended(orders, db.orders, o, db.subs, order.sub.value, subs'[order.sub.value]);
    case QuotaAddon =>
      forall i: nat | IsPaid(orders, i) ensures IsPaid(db.orders, i) && db.orders[i] == orders[i] {
      }
      forall i: nat | IsPaid(db.orders, i) && Listable(db.orders[i].orderType) ensures IsPaid(orders, i) {
        assert i != o;
      }
      ListsUntouched(orders, db.orders, db.subs, subs');
  }

  lemma FulfilKeepsReconciled(db: DB, o: nat, channel: Channel, now: Time)
    requires Reconciled(db) && o < |db.orders| && db.orders[o].status == Pending && db.orders[o].product in db.products
    requires FulfilPaid(db, o, channel, now).Success?
    ensures Reconciled(FulfilPaid(db, o, channel, now).value)
  {
    FulfilPaidShape(db, o, channel, now);
    var paid := FulfilPaid(db, o, channel, now).value;
    CompleteKeepsBook(db.orders, o, now);
    PaysOnceKeeps(db, paid, o);
    DeliverKeepsLists(db.orders, db.(orders := paid.orders), o, db.products[db.orders[o].product], now);
    FulfilPaidInvoices(db, o, channel, now);
    InvoicesGrow(db.orders, paid.orders, o, db.invoices, paid.invoices);
  }

  lemma CallbacksKeepReconciled(db: DB, d: DB)
    requires Reconciled(db) && d == db.(callbacks := d.callbacks)
    ensures Reconciled(d)
  {
  }

  lemma PaymentKeepsReconciled(db: DB, n: Notice, now: Time)
    requires Reconciled(db)
    ensures Reconciled(Step(db, DoPayment(n, now)))
  {
    PaymentShape(db, n, now);
    var found := FindByTradeNo(db.orders, n.tradeNo);
    var d := Step(db, DoPayment(n, now));
    if found.Some? && Fulfils(db, n, now, found.value) {
      FulfilKeepsReconciled(db, found.value, n.channel, now);
      CallbacksKeepReconciled(FulfilPaid(db, found.value, n.channel, now).value, d);
    } else {
      CallbacksKeepReconciled(db, d);
    }
  }

  lemma FulfilPaidInvoices(db: DB, o: nat, channel: Channel, now: Time)
    requires o < |db.orders| && db.orders[o].product in db.products
    requires FulfilPaid(db, o, channel, now).Success?
    ensures FulfilPaid(db, o, channel, now).value.invoices ==
            if db.orders[o].invoice then db.invoices + [Invoice(o, db.orders[o].user, db.orders[o].total)] else db.invoices
  {
    FulfilPaidStages(db, o, channel, now);
    var d0 := db.(orders := db.orders[o := Complete(db.orders[o], now)]);
    var d1 := Deliver(d0, o, db.products[db.orders[o].product], now).value;
    DeductShape(d1, o, channel);
    AccrueShape(MarkCouponUsed(Deduct(d1, o, channel).value, o), o);
  }

  lemma AutoRenewKeepsReconciled(db: DB, s: nat, now: Time, millis: int)
    requires Reconciled(db)
    ensures Reconciled(Step(db, DoAutoRenew(s, now, millis)))
  {
    if Renews(db, s, now, millis) {
      AutoRenewKeepsBook(db, s, now, millis);
      RenewsShape(db, s, now, millis);
      var o := |db.orders|;
      var d := AutoRenew(db, s, now, millis).value;
      PaysOnceKeeps(db, d, o);
      ListExtended(db.orders, d.orders, o, db.subs, s, d.subs[s]);
      AutoRenewInvoices(db, s, now, millis);
      InvoicesGrow(db.orders, d.orders, o, db.invoices, d.invoices);
    } else {
      NoRenewalNoChange(db, s, now, millis);
    }
  }

  lemma AutoRenewInvoices(db: DB, s: nat, now: Time, millis: int)
    ensures Step(db, DoAutoRenew(s, now, millis)).invoices == db.invoices
  {
  }

  lemma PlaceOrderKeepsReconciled(db: DB, user: nat, req: OrderRequest, now: Time, millis: int)
    requires Reconciled(db) && PlaceOrder(db, user, req, now, millis).Success?
    ensures Reconciled(PlaceOrder(db, user, req, now, millis).value)
  {
    var d := PlaceOrder(db, user, req, now, millis).value;
    PlaceOrderKeepsBook(db, user, req, now, millis);
    PlaceOrderShape(db, user, req, now, millis);
    forall o | 0 <= o < |d.orders|
      ensures if o < |db.orders| && db.orders[o].status == Completed then d.orders[o] == db.orders[o] else d.orders[o].status != Completed
    {
      if o < |db.orders| {
        assert d.orders[o] == d.orders[..|db.orders|][o];
      }
    }
    SameCompletedKeeps(db, d);
  }

  lemma WithdrawalKeepsReconciled(db: DB, user: nat, typed: Option<Money.Decimal>, channelReady: bool)
    requires Reconciled(db) && CreateWithdrawal(db, user, typed, channelReady).Success?
    ensures Reconciled(CreateWithdrawal(db, user, typed, channelReady).value)
  {
    var d := CreateWithdrawal(db, user, typed, channelReady).value;
    OtherFlowKeepsPayments(db.orders, db.flows, d.flows[|db.flows|]);
    RecordsFrame(db.users, d.users, db.orders, db.orders, db.records);
  }

  lemma TransferKeepsReconciled(db: DB, user: nat, typed: Option<Money.Decimal>, ref: nat)
    requires Reconciled(db) && TransferCommission(db, user, typed, ref).Success?
    ensures Reconciled(TransferCommission(db, user, typed, ref).value)
  {
    var d := TransferCommission(db, user, typed, ref).value;
    var n := |db.flows|;
    OtherFlowKeepsPayments(db.orders, db.flows, d.flows[n]);
    OtherFlowKeepsPayments(db.orders, db.flows + [d.flows[n]], d.flows[n + 1]);
    RecordsFrame(db.users, d.users, db.orders, db.orders, db.records);
  }

  /** Steps that change neither orders, flows, records, invoices nor any subscription's list. */
  lemma QuietStepKeepsReconciled(db: DB, d: DB)
    requires Reconciled(db)
    requires d.orders == db.orders && d.flows == db.flows && d.records == db.records && d.withdrawals == db.withdrawals
    requires d.invoices == db.invoices && SameFamily(db.users, d.users)
    requires |d.subs| == |db.subs| && forall s :: 0 <= s < |db.subs| ==> d.subs[s].orders == db.subs[s].orders && d.subs[s].user == db.subs[s].user
    ensures Reconciled(d)
  {
    RecordsFrame(db.users, d.users, db.orders, db.orders, db.records);
    ListsUntouched(db.orders, db.orders, db.subs, d.subs);
  }

  lemma QuietActions(db: DB, a: Action)
    requires !a.DoPlaceOrder? && !a.DoPayment? && !a.DoAutoRenew? && !a.DoWithdraw? && !a.DoTransfer?
    ensures var d := Step(db, a);
            && d.orders == db.orders && d.flows == db.flows && d.records == db.records && d.withdrawals == db.withdrawals
            && d.invoices == db.invoices && SameFamily(db.users, d.users)
            && |d.subs| == |db.subs|
            && forall s :: 0 <= s < |db.subs| ==> d.subs[s].orders == db.subs[s].orders && d.subs[s].user == db.subs[s].user
  {
  }

  lemma StepKeepsReconciled(db: DB, a: Action)
    requires Reconciled(db)
    ensures Reconciled(Step(db, a))
  {
    match a
    case DoPayment(n, now) => PaymentKeepsReconciled(db, n, now);
    case DoAutoRenew(s, now, millis) => AutoRenewKeepsReconciled(db, s, now, millis);
    case DoPlaceOrder(user, req, now, millis) => PlaceStepKeepsReconciled(db, user, req, now, millis);
    case DoWithdraw(_, _, _) => CommissionStepKeepsReconciled(db, a);
    case DoTransfer(_, _, _) => CommissionStepKeepsReconciled(db, a);
    case _ => QuietActionKeepsReconciled(db, a);
  }

  lemma PlaceStepKeepsReconciled(db: DB, user: nat, req: OrderRequest, now: Time, millis: int)
    requires Reconciled(db)
    ensures Reconciled(Step(db, DoPlaceOrder(user, req, now, millis)))
  {
    if PlaceOrder(db, user, req, now, millis).Success? {
      PlaceOrderKeepsReconciled(db, user, req, now, millis);
    }
  }

  lemma CommissionStepKeepsReconciled(db: DB, a: Action)
    requires Reconciled(db) && (a.DoWithdraw? || a.DoTransfer?)
    ensures Reconciled(Step(db, a))
  {
    if Attempt(db, a).Success? {
      if a.DoWithdraw? {
        WithdrawalKeepsReconciled(db, a.user, a.typed, a.channelReady);
      } else {
        TransferKeepsReconciled(db, a.user, a.typed, a.ref);
      }
    }
  }

  lemma QuietActionKeepsReconciled(db: DB, a: Action)
    requires Reconciled(db)
    requires !a.DoPlaceOrder? && !a.DoPayment? && !a.DoAutoRenew? && !a.DoWithdraw? && !a.DoTransfer?
    ensures Reconciled(Step(db, a))
  {
    QuietActions(db, a);
    QuietStepKeepsReconciled(db, Step(db, a));
  }

  lemma {:induction false} RunKeepsReconciled(db: DB, actions: seq<Action>)
    requires Reconciled(db)
    ensures Reconciled(Run(db, actions))
    decreases |actions|
  {
    if actions != [] {
      StepKeepsReconciled(db, actions[0]);
      RunKeepsReconciled(Step(db, actions[0]), actions[1..]);
    }
  }

  lemma InitialIsReconciled(db: DB)
    requires Initial(db)
    ensures Reconciled(db)
  {
  }

  predicate PaymentAt(db: DB, i: nat, o: nat) {
    i < |db.flows| && o < |db.orders| && PayFlow(db.flows[i], o, db.orders[o])
  }

  /** The purchase `o` opened subscription `s`. */
  predicate Heads(db: DB, s: nat, o: nat) {
    s < |db.subs| && db.subs[s].orders != [] && db.subs[s].orders[0] == o
  }

  /**
   In every reachable state: an order is completed exactly when it has a payment flow, and it has only one; a
   completed purchase heads exactly one subscription; a completed purchase, renewal or upgrade occurs at exactly
   one place of all the lists, a quota add-on at none.
   */
  lemma FulfilmentIsExactlyOnce(db: DB, actions: seq<Action>)
    requires Initial(db)
    ensures var d := Run(db, actions);
            && Reconciled(d)
            && (forall o: nat :: IsPaid(d.orders, o) <==> exists i: nat :: PaymentAt(d, i, o))
            && (forall i: nat, j: nat, o: nat :: PaymentAt(d, i, o) && PaymentAt(d, j, o) ==> i == j)
            && (forall o: nat :: IsPaid(d.orders, o) && d.orders[o].orderType == Purchase ==> exists s: nat :: Heads(d, s, o))
            && (forall o: nat, s: nat, r: nat :: Heads(d, s, o) && Heads(d, r, o) ==> s == r)
            && (forall o: nat :: o < |d.orders| && !Listable(d.orders[o].orderType) ==> !IsListed(d.subs, o))
  {
    InitialIsReconciled(db);
    RunKeepsReconciled(db, actions);
    ReconciledMeans(Run(db, actions));
  }

  lemma ReconciledMeans(d: DB)
    requires Reconciled(d)
    ensures forall o: nat :: IsPaid(d.orders, o) <==> exists i: nat :: PaymentAt(d, i, o)
    ensures forall i: nat, j: nat, o: nat :: PaymentAt(d, i, o) && PaymentAt(d, j, o) ==> i == j
    ensures forall o: nat :: IsPaid(d.orders, o) && d.orders[o].orderType == Purchase ==> exists s: nat :: Heads(d, s, o)
    ensures forall o: nat, s: nat, r: nat :: Heads(d, s, o) && Heads(d, r, o) ==> s == r
    ensures forall o: nat :: o < |d.orders| && !Listable(d.orders[o].orderType) ==> !IsListed(d.subs, o)
  {
    forall o: nat | IsPaid(d.orders, o) ensures exists i: nat :: PaymentAt(d, i, o) {
      var i :| 0 <= i < |d.flows| && d.flows[i].flowType == Pay && d.flows[i].ref == OrderRef(o);
      assert PaymentAt(d, i, o);
    }
    forall o: nat | IsPaid(d.orders, o) && d.orders[o].orderType == Purchase ensures exists s: nat :: Heads(d, s, o) {
      var s: nat, k: nat :| ListedAt(d.subs, s, k, o);
      assert FitsAt(d.orders, d.subs[s].user, s, k, o);
      assert Heads(d, s, o);
    }
    forall o: nat, s: nat, r: nat | Heads(d, s, o) && Heads(d, r, o) ensures s == r {
      assert ListedAt(d.subs, s, 0, o) && ListedAt(d.subs, r, 0, o);
    }
    forall s: nat, k: nat, o: nat | ListedAt(d.subs, s, k, o) ensures o < |d.orders| && Listable(d.orders[o].orderType) {
      assert FitsAt(d.orders, d.subs[s].user, s, k, o);
    }
  }

  // Replays

  lemma {:induction false} CallbacksStay(db: DB, actions: seq<Action>, channel: Channel, key: IdemKey)
    requires HasCallback(db.callbacks, channel, key)
    ensures HasCallback(Run(db, actions).callbacks, channel, key)
    decreases |actions|
  {
    if actions != [] {
      StepKeepsCallbacks(db, actions[0], channel, key);
      CallbacksStay(Step(db, actions[0]), actions[1..], channel, key);
    }
  }

  lemma StepKeepsCallbacks(db: DB, a: Action, channel: Channel, key: IdemKey)
    requires HasCallback(db.callbacks, channel, key)
    ensures HasCallback(Step(db, a).callbacks, channel, key)
  {
    match a
    case DoPayment(n, now) => PaymentCallbacks(db, n, now);
    case DoAutoRenew(s, now, millis) =>
      if Renews(db, s, now, millis) {
        RenewsShape(db, s, now, millis);
      } else {
        NoRenewalNoChange(db, s, now, millis);
      }
    case _ => StepFrame(db, a);
  }

  lemma PaymentCallbacks(db: DB, n: Notice, now: Time)
    ensures var d := Step(db, DoPayment(n, now));
            && |db.callbacks| <= |d.callbacks| && d.callbacks[..|db.callbacks|] == db.callbacks
            && (Attempt(db, DoPayment(n, now)).Success? ==> HasCallback(d.callbacks, n.channel, n.key))
    ensures forall channel, key :: HasCallback(db.callbacks, channel, key) ==>
              HasCallback(Step(db, DoPayment(n, now)).callbacks, channel, key)
  {
    var d := Step(db, DoPayment(n, now));
    PaymentShape(db, n, now);
    var o := FindByTradeNo(db.orders, n.tradeNo);
    if o.Some? && Fulfils(db, n, now, o.value) {
      FulfilPaidShape(db, o.value, n.channel, now);
      assert d.callbacks == db.callbacks + [Callback(n.channel, n.key, false)];
      assert d.callbacks[|db.callbacks|] == Callback(n.channel, n.key, false);
    } else if d.callbacks != db.callbacks {
      assert d.callbacks == db.callbacks + [Callback(n.channel, n.key, true)];
      assert d.callbacks[|db.callbacks|] == Callback(n.channel, n.key, true);
    }
    forall channel, key | HasCallback(db.callbacks, channel, key) ensures HasCallback(d.callbacks, channel, key) {
      var i :| 0 <= i < |db.callbacks| && db.callbacks[i].channel == channel && db.callbacks[i].key == key;
      assert d.callbacks[..|db.callbacks|][i] == db.callbacks[i];
    }
  }

  /** A notification that was accepted once can be repeated at any later time without any effect. */
  lemma ReplayChangesNothing(db: DB, n: Notice, now: Time, actions: seq<Action>, later: Time)
    requires ApplyPayment(db, n, now).Success?
    ensures var d := Run(Step(db, DoPayment(n, now)), actions);
            Step(d, DoPayment(n, later)) == d
  {
    PaymentCallbacks(db, n, now);
    CallbacksStay(Step(db, DoPayment(n, now)), actions, n.channel, n.key);
  }

  /** Under another key, a notification for an order completed earlier is only noted; nothing is fulfilled again. */
  lemma SecondKeyIsIgnored(db: DB, n: Notice, o: nat, actions: seq<Action>, later: Time)
    requires Reconciled(db) && IsPaid(db.orders, o) && n.tradeNo == db.orders[o].tradeNo
    ensures var d := Run(db, actions);
            Step(d, DoPayment(n, later)) ==
            if HasCallback(d.callbacks, n.channel, n.key) then d
            else d.(callbacks := d.callbacks + [Callback(n.channel, n.key, true)])
  {
    SettledIsFinal(db, actions, o);
    RunKeepsReconciled(db, actions);
    TradeNoFindsItsOrder(Run(db, actions).orders, o);
  }

  /** The service call is a payment step; through it, a paid order can never be paid again, not even noted again. */
  lemma HandledNotificationIsAPayment(db: DB, channel: Option<Channel>, tradeNo: TradeNo, succeeded: bool, now: Time,
                                      actions: seq<Action>, later: Time)
    requires HandlePaymentNotify(db, channel, tradeNo, succeeded, now).Success?
    ensures channel.Some?
    ensures var a := DoPayment(Notice(channel.value, tradeNo, IdemKey(channel.value, tradeNo)), now);
            && HandlePaymentNotify(db, channel, tradeNo, succeeded, now) == Attempt(db, a)
            && var d := Run(Step(db, a), actions);
               HandlePaymentNotify(d, channel, tradeNo, true, later).Success? ==>
                 HandlePaymentNotify(d, channel, tradeNo, true, later).value == d
  {
    var n := Notice(channel.value, tradeNo, IdemKey(channel.value, tradeNo));
    ReplayChangesNothing(db, n, now, actions, later);
  }
}
