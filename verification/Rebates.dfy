/**
 Invitation rebates: where commission comes from and goes, and how far rounding can take the total.
 */
module Rebates {
  import opened Common
  import opened Money
  import opened Tables
  import opened Engine
  import opened Shapes
  import opened ExactlyOnce

  function RebateSum(records: seq<Record>, u: nat): Cents {
    if records == [] then 0
    else
      var n := |records| - 1;
      RebateSum(records[..n], u) + if records[n].inviter == u then records[n].rebate else 0
  }

  function WithdrawnSum(withdrawals: seq<Withdrawal>, u: nat): Cents {
    if withdrawals == [] then 0
    else
      var n := |withdrawals| - 1;
      WithdrawnSum(withdrawals[..n], u) + if withdrawals[n].user == u then withdrawals[n].amount else 0
  }

  predicate IsTransferOut(f: Flow, u: nat) {
    f.user == u && f.flowType == Commission && f.ref.TransferRef?
  }

  /** Commission moved to the wallet; such a flow's amount is what leaves, as a negative number. */
  function TransferredSum(flows: seq<Flow>, u: nat): Cents {
    if flows == [] then 0
    else
      var n := |flows| - 1;
      TransferredSum(flows[..n], u) - if IsTransferOut(flows[n], u) then flows[n].amount else 0
  }

  ghost predicate Conserved(db: DB) {
    && (forall u :: 0 <= u < |db.users| ==>
          db.users[u].commission == RebateSum(db.records, u) - WithdrawnSum(db.withdrawals, u) - TransferredSum(db.flows, u))
    && (forall i :: 0 <= i < |db.records| ==> db.records[i].inviter < |db.users|)
    && (forall i :: 0 <= i < |db.withdrawals| ==> db.withdrawals[i].user < |db.users|)
    && (forall i :: 0 <= i < |db.flows| && db.flows[i].flowType == Commission ==> db.flows[i].user < |db.users|)
  }

  lemma AppendRecord(records: seq<Record>, r: Record, u: nat)
    ensures RebateSum(records + [r], u) == RebateSum(records, u) + if r.inviter == u then r.rebate else 0
  {
    assert (records + [r])[..|records|] == records;
  }

  lemma AppendFlow(flows: seq<Flow>, f: Flow, u: nat)
    ensures TransferredSum(flows + [f], u) == TransferredSum(flows, u) - if IsTransferOut(f, u) then f.amount else 0
  {
    assert (flows + [f])[..|flows|] == flows;
  }

  lemma AppendWithdrawal(withdrawals: seq<Withdrawal>, w: Withdrawal, u: nat)
    ensures WithdrawnSum(withdrawals + [w], u) == WithdrawnSum(withdrawals, u) + if w.user == u then w.amount else 0
  {
    assert (withdrawals + [w])[..|withdrawals|] == withdrawals;
  }

  lemma {:induction false} NothingForNewcomer(records: seq<Record>, withdrawals: seq<Withdrawal>, flows: seq<Flow>, n: nat)
    requires forall i :: 0 <= i < |records| ==> records[i].inviter < n
    requires forall i :: 0 <= i < |withdrawals| ==> withdrawals[i].user < n
    requires forall i :: 0 <= i < |flows| && flows[i].flowType == Commission ==> flows[i].user < n
    ensures RebateSum(records, n) == 0 && WithdrawnSum(withdrawals, n) == 0 && TransferredSum(flows, n) == 0
    decreases |records| + |withdrawals| + |flows|
  {
    if records != [] {
      NothingForNewcomer(records[..|records| - 1], withdrawals, flows, n);
    } else if withdrawals != [] {
      NothingForNewcomer(records, withdrawals[..|withdrawals| - 1], flows, n);
    } else if flows != [] {
      NothingForNewcomer(records, withdrawals, flows[..|flows| - 1], n);
    }
  }

  lemma PaysOnceConserves(db: DB, d: DB, o: nat, order: Order)
    requires Conserved(db) && PaysOnce(db, d, o, order)
    ensures Conserved(d)
  {
    var n := |db.flows|;
    var f := d.flows[n];
    var rewarded := |d.flows| == n + 2;
    if rewarded {
      assert d.flows == db.flows + [f] + [d.flows[n + 1]];
      assert d.records == db.records + [d.records[|db.records|]];
    } else {
      assert d.flows == db.flows + [f];
    }
    forall u | 0 <= u < |d.users|
      ensures d.users[u].commission == RebateSum(d.records, u) - WithdrawnSum(d.withdrawals, u) - TransferredSum(d.flows, u)
    {
      AppendFlow(db.flows, f, u);
      if rewarded {
        AppendFlow(db.flows + [f], d.flows[n + 1], u);
        AppendRecord(db.records, d.records[|db.records|], u);
      }
    }
  }

  lemma WithdrawalConserves(db: DB, user: nat, typed: Option<Decimal>, channelReady: bool)
    requires Conserved(db) && CreateWithdrawal(db, user, typed, channelReady).Success?
    ensures Conserved(CreateWithdrawal(db, user, typed, channelReady).value)
  {
    var d := CreateWithdrawal(db, user, typed, channelReady).value;
    forall u | 0 <= u < |d.users|
      ensures d.users[u].commission == RebateSum(d.records, u) - WithdrawnSum(d.withdrawals, u) - TransferredSum(d.flows, u)
    {
      AppendFlow(db.flows, d.flows[|db.flows|], u);
      AppendWithdrawal(db.withdrawals, d.withdrawals[|db.withdrawals|], u);
    }
  }

  lemma TransferConserves(db: DB, user: nat, typed: Option<Decimal>, ref: nat)
    requires Conserved(db) && TransferCommission(db, user, typed, ref).Success?
    ensures Conserved(TransferCommission(db, user, typed, ref).value)
  {
    var d := TransferCommission(db, user, typed, ref).value;
    var n := |db.flows|;
    forall u | 0 <= u < |d.users|
      ensures d.users[u].commission == RebateSum(d.records, u) - WithdrawnSum(d.withdrawals, u) - TransferredSum(d.flows, u)
    {
      AppendFlow(db.flows, d.flows[n], u);
      AppendFlow(db.flows + [d.flows[n]], d.flows[n + 1], u);
    }
  }

  lemma PaymentConserves(db: DB, n: Notice, now: int)
    requires Conserved(db)
    ensures Conserved(Step(db, DoPayment(n, now)))
  {
    PaymentShape(db, n, now);
    var found := FindByTradeNo(db.orders, n.tradeNo);
    if found.Some? && Fulfils(db, n, now, found.value) {
      var o := found.value;
      FulfilPaidShape(db, o, n.channel, now);
      var d := FulfilPaid(db, o, n.channel, now).value;
      PaysOnceConserves(db, d, o, d.orders[o]);
    }
  }

  lemma AutoRenewConserves(db: DB, s: nat, now: int, millis: int)
    requires Conserved(db)
    ensures Conserved(Step(db, DoAutoRenew(s, now, millis)))
  {
    if Renews(db, s, now, millis) {
      RenewsShape(db, s, now, millis);
      PaysOnceConserves(db, AutoRenew(db, s, now, millis).value, |db.orders|, BotOrder(db, s, now, millis));
    } else {
      NoRenewalNoChange(db, s, now, millis);
    }
  }

  /** The commission of every user is as it was, and that of new users nothing. */
  predicate SameCommissions(users: seq<User>, users': seq<User>) {
    |users| <= |users'| <= |users| + 1 && forall u :: 0 <= u < |users'| ==>
      users'[u].commission == if u < |users| then users[u].commission else 0
  }

  lemma QuietStepConserves(db: DB, d: DB)
    requires Conserved(db) && SameCommissions(db.users, d.users)
    requires d.records == db.records && d.withdrawals == db.withdrawals && d.flows == db.flows
    ensures Conserved(d)
  {
    NothingForNewcomer(db.records, db.withdrawals, db.flows, |db.users|);
  }

  lemma SameUsersConserve(db: DB, d: DB)
    requires Conserved(db) && d.users == db.users
    requires d.records == db.records && d.withdrawals == db.withdrawals && d.flows == db.flows
    ensures Conserved(d)
  {
  }

  lemma OutsideCommissions(db: DB, a: Action)
    requires FromOutside(a)
    ensures SameCommissions(db.users, Step(db, a).users)
  {
  }

  lemma OtherStepsConserve(db: DB, a: Action)
    requires Conserved(db)
    requires !a.DoPayment? && !a.DoAutoRenew? && !a.DoWithdraw? && !a.DoTransfer?
    ensures Conserved(Step(db, a))
  {
    if FromOutside(a) {
      OutsideStepConserves(db, a);
    } else {
      match a
      case DoPlaceOrder(user, req, now, millis) => PlaceOrderFrame(db, user, req, now, millis);
      case DoCreateSubKey(_, _, _, _) => TeamFrame(db, a);
      case DoUpdateSubKeyLimit(_, _, _) => TeamFrame(db, a);
      case DoMeter(_, _) => TeamFrame(db, a);
      case _ => BotFrame(db, a);
      SameUsersConserve(db, Step(db, a));
    }
  }

  lemma OutsideStepConserves(db: DB, a: Action)
    requires Conserved(db) && FromOutside(a)
    ensures Conserved(Step(db, a))
  {
    OutsideFrame(db, a);
    OutsideCommissions(db, a);
    QuietStepConserves(db, Step(db, a));
  }

  lemma StepConserves(db: DB, a: Action)
    requires Conserved(db)
    ensures Conserved(Step(db, a))
  {
    match a
    case DoPayment(n, now) => PaymentConserves(db, n, now);
    case DoAutoRenew(s, now, millis) => AutoRenewConserves(db, s, now, millis);
    case DoWithdraw(user, typed, channelReady) =>
      if CreateWithdrawal(db, user, typed, channelReady).Success? {
        WithdrawalConserves(db, user, typed, channelReady);
      }
    case DoTransfer(user, typed, ref) =>
      if TransferCommission(db, user, typed, ref).Success? {
        TransferConserves(db, user, typed, ref);
      }
    case _ => OtherStepsConserve(db, a);
  }

  lemma {:induction false} RunConserves(db: DB, actions: seq<Action>)
    requires Conserved(db)
    ensures Conserved(Run(db, actions))
    decreases |actions|
  {
    if actions != [] {
      StepConserves(db, actions[0]);
      RunConserves(Step(db, actions[0]), actions[1..]);
    }
  }

  /** A shop before its first order has credited, paid out and transferred nothing. */
  lemma InitialConserves(db: DB)
    requires Initial(db)
    ensures Conserved(db)
  {
  }

  /** In every reachable state a user's commission is the rebates credited less withdrawals and transfers. */
  lemma CommissionIsConserved(db: DB, actions: seq<Action>)
    requires Initial(db)
    ensures var d := Run(db, actions);
            forall u :: 0 <= u < |d.users| ==>
              d.users[u].commission == RebateSum(d.records, u) - WithdrawnSum(d.withdrawals, u) - TransferredSum(d.flows, u)
  {
    InitialConserves(db);
    RunConserves(db, actions);
  }

  // Rounding

  function RecordCount(records: seq<Record>, u: nat): nat {
    if records == [] then 0
    else RecordCount(records[..|records| - 1], u) + if records[|records| - 1].inviter == u then 1 else 0
  }

  /** The exact rebates, in ten-thousandths of a cent. */
  function ExactSum(records: seq<Record>, u: nat): int {
    if records == [] then 0
    else
      var r := records[|records| - 1];
      ExactSum(records[..|records| - 1], u) + if r.inviter == u then r.orderAmount * r.rate else 0
  }

  lemma {:induction false} RoundingAddsUp(records: seq<Record>, u: nat)
    requires forall i :: 0 <= i < |records| ==> records[i].rebate == Rebate(records[i].orderAmount, records[i].rate)
    ensures -10000 * RecordCount(records, u)
         <= 2 * (10000 * RebateSum(records, u) - ExactSum(records, u))
         <= 10000 * RecordCount(records, u)
  {
    if records != [] {
      var r := records[|records| - 1];
      RoundingAddsUp(records[..|records| - 1], u);
      RoundDivNearest(r.orderAmount * r.rate, 10000);
    }
  }

  /**
   In every reachable state: an order has at most one record, for the buyer's parent; a user's rebates differ
   from the exact percentages by at most half a cent a record; and a rebate at a rate of at most 100 percent is
   at most the amount paid.
   */
  lemma RebatesAreBounded(db: DB, actions: seq<Action>, u: nat)
    requires Initial(db)
    ensures var d := Run(db, actions);
            && RecordsMatch(d.users, d.orders, d.records)
            && -10000 * RecordCount(d.records, u)
               <= 2 * (10000 * RebateSum(d.records, u) - ExactSum(d.records, u))
               <= 10000 * RecordCount(d.records, u)
            && forall i :: 0 <= i < |d.records| && d.records[i].rate <= 10000 && d.records[i].orderAmount >= 0 ==>
                 d.records[i].rebate <= d.records[i].orderAmount
  {
    InitialIsReconciled(db);
    RunKeepsReconciled(db, actions);
    var d := Run(db, actions);
    MatchedAreBounded(d.users, d.orders, d.records);
    RoundingAddsUp(d.records, u);
  }

  lemma MatchedAreBounded(users: seq<User>, orders: seq<Order>, records: seq<Record>)
    requires RecordsMatch(users, orders, records)
    ensures forall i :: 0 <= i < |records| ==> records[i].rebate == Rebate(records[i].orderAmount, records[i].rate)
    ensures forall i :: 0 <= i < |records| && records[i].rate <= 10000 && records[i].orderAmount >= 0 ==>
              records[i].rebate <= records[i].orderAmount
  {
    forall i | 0 <= i < |records|
      ensures records[i].rebate == Rebate(records[i].orderAmount, records[i].rate)
      ensures records[i].rate <= 10000 && records[i].orderAmount >= 0 ==> records[i].rebate <= records[i].orderAmount
    {
      assert IsPaid(orders, records[i].order);
      if records[i].rate <= 10000 && records[i].orderAmount >= 0 {
        RebateAtMost(records[i].orderAmount, records[i].rate);
      }
    }
  }

  lemma RebateAtMost(total: Cents, rate: int)
    requires total >= 0 && rate <= 10000
    ensures Rebate(total, rate) <= total
  {
    assert total * rate <= total * 10000;
    RoundDivAtMost(total * rate, 10000, total);
  }
}
