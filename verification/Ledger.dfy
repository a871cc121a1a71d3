/**
 The two balances of every user agree with the append-only table of flows, in every reachable state.
 */
module Ledger {
  import opened Common
  import opened Money
  import opened Tables
  import opened Engine
  import opened Shapes

  datatype Account = WalletAccount | CommissionAccount

  /** The account a flow belongs to; a payment that went through an outside channel touches neither. */
  function AccountOf(f: Flow): Option<Account> {
    match f.flowType
    case Commission => Some(CommissionAccount)
    case Withdraw => Some(CommissionAccount)
    case Recharge => Some(WalletAccount)
    case Pay => if f.balanceAfter.Some? then Some(WalletAccount) else None
  }

  predicate Counts(f: Flow, u: nat, acct: Account) {
    f.user == u && AccountOf(f) == Some(acct)
  }

  function Total(flows: seq<Flow>, u: nat, acct: Account): Cents {
    if flows == [] then 0
    else
      var n := |flows| - 1;
      Total(flows[..n], u, acct) + if Counts(flows[n], u, acct) then flows[n].amount else 0
  }

  /** The balance noted on the newest flow of an account. */
  function Latest(flows: seq<Flow>, u: nat, acct: Account): Option<Cents> {
    if flows == [] then None
    else
      var n := |flows| - 1;
      if Counts(flows[n], u, acct) then flows[n].balanceAfter else Latest(flows[..n], u, acct)
  }

  function BalanceOf(user: User, acct: Account): Cents {
    match acct
    case WalletAccount => user.wallet
    case CommissionAccount => user.commission
  }

  ghost predicate AccountAgrees(users: seq<User>, flows: seq<Flow>, u: nat, acct: Account)
    requires u < |users|
  {
    var balance := BalanceOf(users[u], acct);
    && balance == Total(flows, u, acct)
    && balance >= 0
    && match Latest(flows, u, acct) case None => balance == 0 case Some(b) => b == balance
  }

  ghost predicate Agrees(users: seq<User>, flows: seq<Flow>) {
    && (forall u, acct :: 0 <= u < |users| ==> AccountAgrees(users, flows, u, acct))
    && (forall i :: 0 <= i < |flows| && AccountOf(flows[i]).Some? ==>
          flows[i].user < |users| && flows[i].balanceAfter.Some?)
  }

  lemma AppendToTotals(flows: seq<Flow>, f: Flow, u: nat, acct: Account)
    ensures Total(flows + [f], u, acct) == Total(flows, u, acct) + if Counts(f, u, acct) then f.amount else 0
    ensures Latest(flows + [f], u, acct) == if Counts(f, u, acct) then f.balanceAfter else Latest(flows, u, acct)
  {
    assert (flows + [f])[..|flows|] == flows;
  }

  lemma {:induction false} NothingForStranger(flows: seq<Flow>, n: nat, u: nat, acct: Account)
    requires n <= u
    requires forall i :: 0 <= i < |flows| && AccountOf(flows[i]).Some? ==> flows[i].user < n
    ensures Total(flows, u, acct) == 0 && Latest(flows, u, acct) == None
  {
    if flows != [] {
      NothingForStranger(flows[..|flows| - 1], n, u, acct);
    }
  }

  /** A flow with no account leaves the agreement alone. */
  lemma OutsideFlowKeepsAgreement(users: seq<User>, flows: seq<Flow>, f: Flow)
    requires Agrees(users, flows) && AccountOf(f).None?
    ensures Agrees(users, flows + [f])
  {
    forall u, acct | 0 <= u < |users|
      ensures AccountAgrees(users, flows + [f], u, acct)
    {
      assert AccountAgrees(users, flows, u, acct);
      AppendToTotals(flows, f, u, acct);
    }
  }

  /** Changing one balance and appending the flow that says so keeps the agreement. */
  lemma PostingKeepsAgreement(users: seq<User>, users': seq<User>, flows: seq<Flow>, f: Flow, acct: Account)
    requires Agrees(users, flows)
    requires AccountOf(f) == Some(acct) && f.user < |users|
    requires |users'| == |users|
    requires forall u :: 0 <= u < |users| && u != f.user ==> users'[u] == users[u]
    requires forall a :: a != acct ==> BalanceOf(users'[f.user], a) == BalanceOf(users[f.user], a)
    requires BalanceOf(users'[f.user], acct) == BalanceOf(users[f.user], acct) + f.amount >= 0
    requires f.balanceAfter == Some(BalanceOf(users'[f.user], acct))
    ensures Agrees(users', flows + [f])
  {
    forall u, a | 0 <= u < |users'|
      ensures AccountAgrees(users', flows + [f], u, a)
    {
      assert AccountAgrees(users, flows, u, a);
      AppendToTotals(flows, f, u, a);
    }
  }

  lemma SameBalancesAgree(users: seq<User>, users': seq<User>, flows: seq<Flow>)
    requires Agrees(users, flows) && |users'| == |users|
    requires forall u, a :: 0 <= u < |users| ==> BalanceOf(users'[u], a) == BalanceOf(users[u], a)
    ensures Agrees(users', flows)
  {
    forall u, a | 0 <= u < |users'|
      ensures AccountAgrees(users', flows, u, a)
    {
      assert AccountAgrees(users, flows, u, a);
    }
  }

  lemma RegisterKeepsAgreement(users: seq<User>, flows: seq<Flow>, parent: Option<nat>, vip: nat)
    requires Agrees(users, flows)
    ensures Agrees(users + [User(parent, vip, 0, 0)], flows)
  {
    var users' := users + [User(parent, vip, 0, 0)];
    forall u, a | 0 <= u < |users'|
      ensures AccountAgrees(users', flows, u, a)
    {
      if u < |users| {
        assert AccountAgrees(users, flows, u, a);
      } else {
        NothingForStranger(flows, |users|, u, a);
      }
    }
  }

  lemma DeductKeepsAgreement(db: DB, o: nat, channel: Channel)
    requires Agrees(db.users, db.flows) && o < |db.orders|
    requires Deduct(db, o, channel).Success?
    ensures var d := Deduct(db, o, channel).value; Agrees(d.users, d.flows)
  {
    var order := db.orders[o];
    var d := Deduct(db, o, channel).value;
    var f := d.flows[|db.flows|];
    if channel == Balance {
      PostingKeepsAgreement(db.users, d.users, db.flows, f, WalletAccount);
    } else {
      OutsideFlowKeepsAgreement(db.users, db.flows, f);
    }
  }

  lemma AccrueKeepsAgreement(db: DB, o: nat)
    requires Agrees(db.users, db.flows) && o < |db.orders|
    requires Accrue(db, o).Success?
    ensures var d := Accrue(db, o).value; Agrees(d.users, d.flows)
  {
    var d := Accrue(db, o).value;
    if d != db {
      var f := d.flows[|db.flows|];
      PostingKeepsAgreement(db.users, d.users, db.flows, f, CommissionAccount);
    }
  }

  lemma FulfilPaidKeepsAgreement(db: DB, o: nat, channel: Channel, now: int)
    requires Agrees(db.users, db.flows)
    requires o < |db.orders| && db.orders[o].product in db.products
    requires FulfilPaid(db, o, channel, now).Success?
    ensures var d := FulfilPaid(db, o, channel, now).value; Agrees(d.users, d.flows)
  {
    var d0 := db.(orders := db.orders[o := Complete(db.orders[o], now)]);
    var d := Deliver(d0, o, db.products[db.orders[o].product], now).value;
    DeductKeepsAgreement(d, o, channel);
    AccrueKeepsAgreement(MarkCouponUsed(Deduct(d, o, channel).value, o), o);
  }

  lemma AutoRenewKeepsAgreement(db: DB, s: nat, now: int, millis: int)
    requires Agrees(db.users, db.flows)
    requires AutoRenew(db, s, now, millis).Success?
    ensures var d := AutoRenew(db, s, now, millis).value; Agrees(d.users, d.flows)
  {
    var d := AutoRenew(db, s, now, millis).value;
    if d != db {
      var sub := db.subs[s];
      var p := db.products[sub.product];
      var d0 := CreateOrderRow(db, RenewalOrder(s, sub, p.price, now, millis)).value;
      var o := |db.orders|;
      DeductKeepsAgreement(d0, o, Balance);
      AccrueKeepsAgreement(DeliverRenewal(Deduct(d0, o, Balance).value, o, p, now).value, o);
    }
  }

  lemma WithdrawalKeepsAgreement(db: DB, user: nat, typed: Option<Decimal>, channelReady: bool)
    requires Agrees(db.users, db.flows)
    requires CreateWithdrawal(db, user, typed, channelReady).Success?
    ensures var d := CreateWithdrawal(db, user, typed, channelReady).value; Agrees(d.users, d.flows)
  {
    var d := CreateWithdrawal(db, user, typed, channelReady).value;
    PostingKeepsAgreement(db.users, d.users, db.flows, d.flows[|db.flows|], CommissionAccount);
  }

  lemma TransferKeepsAgreement(db: DB, user: nat, typed: Option<Decimal>, ref: nat)
    requires Agrees(db.users, db.flows)
    requires TransferCommission(db, user, typed, ref).Success?
    ensures var d := TransferCommission(db, user, typed, ref).value; Agrees(d.users, d.flows)
  {
    var amount := ParseCommissionAmount(typed).value;
    var d := TransferCommission(db, user, typed, ref).value;
    var out, into := d.flows[|db.flows|], d.flows[|db.flows| + 1];
    var u := db.users[user];
    var midway := db.users[user := u.(commission := u.commission - amount)];
    assert AccountAgrees(db.users, db.flows, user, WalletAccount);
    PostingKeepsAgreement(db.users, midway, db.flows, out, CommissionAccount);
    PostingKeepsAgreement(midway, d.users, db.flows + [out], into, WalletAccount);
    assert db.flows + [out] + [into] == d.flows;
  }

  lemma PaymentKeepsAgreement(db: DB, n: Notice, now: int)
    requires Agrees(db.users, db.flows)
    ensures var d := Step(db, DoPayment(n, now)); Agrees(d.users, d.flows)
  {
    PaymentShape(db, n, now);
    var o := FindByTradeNo(db.orders, n.tradeNo);
    if o.Some? && Fulfils(db, n, now, o.value) {
      FulfilPaidKeepsAgreement(db, o.value, n.channel, now);
    }
  }

  lemma CommissionStepKeepsAgreement(db: DB, a: Action)
    requires Agrees(db.users, db.flows) && (a.DoWithdraw? || a.DoTransfer?)
    ensures Agrees(Step(db, a).users, Step(db, a).flows)
  {
    if Attempt(db, a).Success? {
      if a.DoWithdraw? {
        WithdrawalKeepsAgreement(db, a.user, a.typed, a.channelReady);
      } else {
        TransferKeepsAgreement(db, a.user, a.typed, a.ref);
      }
    }
  }

  lemma OutsideStepKeepsAgreement(db: DB, a: Action)
    requires Agrees(db.users, db.flows) && FromOutside(a)
    ensures Agrees(Step(db, a).users, Step(db, a).flows)
  {
    match a
    case DoRegister(parent, vip) => RegisterKeepsAgreement(db.users, db.flows, parent, vip);
    case DoSetVip(_, _) => SameBalancesAgree(db.users, Step(db, a).users, db.flows);
    case _ =>
  }

  lemma StepKeepsAgreement(db: DB, a: Action)
    requires Agrees(db.users, db.flows)
    ensures Agrees(Step(db, a).users, Step(db, a).flows)
  {
    match a
    case DoPlaceOrder(user, req, now, millis) => PlaceOrderFrame(db, user, req, now, millis);
    case DoPayment(n, now) => PaymentKeepsAgreement(db, n, now);
    case DoAutoRenew(s, now, millis) =>
      if AutoRenew(db, s, now, millis).Success? {
        AutoRenewKeepsAgreement(db, s, now, millis);
      }
    case DoPeriodReset(_, _) => BotFrame(db, a);
    case DoExpire(_, _) => BotFrame(db, a);
    case DoCreateSubKey(_, _, _, _) => TeamFrame(db, a);
    case DoUpdateSubKeyLimit(_, _, _) => TeamFrame(db, a);
    case DoMeter(_, _) => TeamFrame(db, a);
    case DoWithdraw(_, _, _) => CommissionStepKeepsAgreement(db, a);
    case DoTransfer(_, _, _) => CommissionStepKeepsAgreement(db, a);
    case _ => OutsideStepKeepsAgreement(db, a);
  }

  lemma {:induction false} RunKeepsAgreement(db: DB, actions: seq<Action>)
    requires Agrees(db.users, db.flows)
    ensures Agrees(Run(db, actions).users, Run(db, actions).flows)
    decreases |actions|
  {
    if actions != [] {
      StepKeepsAgreement(db, actions[0]);
      RunKeepsAgreement(Step(db, actions[0]), actions[1..]);
    }
  }

  /**
   In every state the shop can reach, each user's wallet is the sum of the recharges and of the payments made
   from the wallet, the commission balance is the sum of the commission and withdrawal flows, neither is
   negative, and the balance noted on the newest flow of an account is that account's balance.
   */
  lemma LedgerAgreesInEveryReachableState(db: DB, actions: seq<Action>)
    requires Initial(db)
    ensures var d := Run(db, actions);
            && Agrees(d.users, d.flows)
            && forall u :: 0 <= u < |d.users| ==>
                 && d.users[u].wallet == Total(d.flows, u, WalletAccount) >= 0
                 && d.users[u].commission == Total(d.flows, u, CommissionAccount) >= 0
  {
    RunKeepsAgreement(db, actions);
    var d := Run(db, actions);
    forall u | 0 <= u < |d.users|
      ensures d.users[u].wallet == Total(d.flows, u, WalletAccount) >= 0
      ensures d.users[u].commission == Total(d.flows, u, CommissionAccount) >= 0
    {
      assert AccountAgrees(d.users, d.flows, u, WalletAccount);
      assert AccountAgrees(d.users, d.flows, u, CommissionAccount);
    }
  }
}
