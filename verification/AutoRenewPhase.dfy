/**
 The auto-renewal phase: every handler of a phase uses the same second.  Since order numbers are unique and
 made of that second and the user id modulo 10000, two subscriptions of one user cannot both be renewed in one
 phase.  This module proves exactly when a phase renews everything it could, and what it debits in every case.
 */
module AutoRenewPhase {
  import opened Common
  import opened Billing
  import opened Money
  import opened Tables
  import opened Engine
  import opened Shapes
  import opened Ledger
  import opened ExactlyOnce
  import opened Batches

  function RenewAll(db: DB, ids: seq<nat>, now: Time, millis: int): DB
    decreases |ids|
  {
    if ids == [] then db else RenewAll(Step(db, DoAutoRenew(ids[0], now, millis)), ids[1..], now, millis)
  }

  ghost predicate Distinct(ids: seq<nat>) {
    forall i, j :: 0 <= i < j < |ids| ==> ids[i] != ids[j]
  }

  /** Due for renewal, with its product and its user on record. */
  predicate Due(db: DB, s: nat, now: Time) {
    && s < |db.subs| && RenewalDue(db.subs[s], now)
    && db.subs[s].product in db.products && db.subs[s].user < |db.users|
  }

  function Price(db: DB, s: nat): Cents
    requires s < |db.subs| && db.subs[s].product in db.products
  {
    db.products[db.subs[s].product].price
  }

  predicate Taken(db: DB, s: nat, now: Time, millis: int)
    requires Due(db, s, now)
  {
    var order := BotOrder(db, s, now, millis);
    NumberTaken(db.orders, order.no, order.tradeNo)
  }

  /** On a consistent database one renewal goes through exactly when it is due, funded and its numbers are free. */
  lemma RenewsExactlyWhen(db: DB, s: nat, now: Time, millis: int)
    requires Reconciled(db) && Agrees(db.users, db.flows)
    ensures Renews(db, s, now, millis) <==>
            Due(db, s, now) && db.users[db.subs[s].user].wallet >= Price(db, s) && !Taken(db, s, now, millis)
  {
    if Due(db, s, now) && db.users[db.subs[s].user].wallet >= Price(db, s) && !Taken(db, s, now, millis) {
      var order := BotOrder(db, s, now, millis);
      var p := db.products[db.subs[s].product];
      var o := |db.orders|;
      var d0 := CreateOrderRow(db, order).value;
      NoPaymentYet(db, o);
      assert Deduct(d0, o, Balance).Success?;
      var d1 := Deduct(d0, o, Balance).value;
      DeductShape(d0, o, Balance);
      DeductKeepsAgreement(d0, o, Balance);
      assert DeliverRenewal(d1, o, p, now).Success?;
      AccrueSucceeds(db, DeliverRenewal(d1, o, p, now).value, o);
    }
  }

  lemma NoPaymentYet(db: DB, o: nat)
    requires Reconciled(db) && |db.orders| <= o
    ensures !HasFlow(db.flows, Pay, OrderRef(o))
  {
  }

  lemma AccrueSucceeds(db: DB, d: DB, o: nat)
    requires RefsExist(db.flows, db.records, db.withdrawals)
    requires o < |d.orders| && d.records == db.records
    requires |d.flows| == |db.flows| + 1 && d.flows[..|db.flows|] == db.flows && d.flows[|db.flows|].ref == OrderRef(o)
    requires Agrees(d.users, d.flows)
    ensures Accrue(d, o).Success?
  {
    var inviter := InviterOf(d.users, d.orders[o].user);
    if inviter.Some? {
      assert AccountAgrees(d.users, d.flows, inviter.value, CommissionAccount);
    }
    forall i | 0 <= i < |d.flows| ensures d.flows[i].ref != RecordRef(|db.records|) {
      if i < |db.flows| {
        assert d.flows[..|db.flows|][i] == d.flows[i];
      }
    }
  }

  /** Among distinct ids the handlers after the first leave the first one's subscription alone. */
  lemma {:induction false} RenewAllFrame(db: DB, ids: seq<nat>, now: Time, millis: int, s: nat)
    requires s < |db.subs| && s !in ids
    ensures var d := RenewAll(db, ids, now, millis);
            |d.subs| == |db.subs| && d.subs[s] == db.subs[s] && d.products == db.products && |d.users| == |db.users|
    decreases |ids|
  {
    if ids != [] {
      OneRenewal(db, ids[0], now, millis);
      RenewAllFrame(Step(db, DoAutoRenew(ids[0], now, millis)), ids[1..], now, millis, s);
    }
  }

  /** One handler of the phase. */
  lemma OneRenewal(db: DB, s: nat, now: Time, millis: int)
    ensures var d := Step(db, DoAutoRenew(s, now, millis));
            && |d.subs| == |db.subs| && d.products == db.products && |d.users| == |db.users|
            && (forall r :: 0 <= r < |db.subs| && r != s ==> d.subs[r] == db.subs[r])
            && (!Renews(db, s, now, millis) ==> d == db)
            && (Renews(db, s, now, millis) ==>
                  && d.subs[s].expiresAt > db.subs[s].expiresAt
                  && d.subs[s].periodEnd == db.subs[s].periodEnd
                  && d.orders == db.orders + [BotOrder(db, s, now, millis)]
                  && !Taken(db, s, now, millis)
                  && forall u :: 0 <= u < |db.users| ==>
                       d.users[u].wallet == db.users[u].wallet - if u == db.subs[s].user then Price(db, s) else 0)
  {
    if Renews(db, s, now, millis) {
      RenewsShape(db, s, now, millis);
      ExpiryGrows(db.subs[s], BotOrder(db, s, now, millis), |db.orders|, db.products[db.subs[s].product], now);
    } else {
      NoRenewalNoChange(db, s, now, millis);
    }
  }

  lemma ExpiryGrows(sub: Subscription, order: Order, o: nat, p: Product, now: Time)
    ensures RenewedSub(sub, order, o, p, now).expiresAt > sub.expiresAt
  {
    MulKeepsOrder(1, Max(order.quantity, 1), Span(p.Days()));
    assert Span(p.Days()) * Max(order.quantity, 1) == Max(order.quantity, 1) * Span(p.Days());
  }

  /** In a phase of distinct handlers, what the first renews stays renewed. */
  lemma FirstIsRenewed(db: DB, ids: seq<nat>, now: Time, millis: int)
    requires Distinct(ids) && ids != [] && Renews(db, ids[0], now, millis)
    ensures WasRenewed(db, RenewAll(db, ids, now, millis), ids[0])
  {
    OneRenewal(db, ids[0], now, millis);
    DistinctTail(ids);
    RenewAllFrame(Step(db, DoAutoRenew(ids[0], now, millis)), ids[1..], now, millis, ids[0]);
  }

  // What a phase debits

  predicate WasRenewed(db: DB, d: DB, s: nat) {
    s < |db.subs| && s < |d.subs| && d.subs[s].expiresAt != db.subs[s].expiresAt
  }

  /** The prices of the user's subscriptions that were renewed. */
  function RenewedSum(db: DB, d: DB, ids: seq<nat>, u: nat): Cents {
    if ids == [] then 0
    else
      var s := ids[0];
      RenewedSum(db, d, ids[1..], u)
        + if WasRenewed(db, d, s) && db.subs[s].user == u && db.subs[s].product in db.products then Price(db, s) else 0
  }

  lemma {:induction false} RenewedSumFrame(db: DB, e: DB, d: DB, ids: seq<nat>, u: nat)
    requires e.products == db.products && |e.subs| == |db.subs|
    requires forall i :: 0 <= i < |ids| && ids[i] < |db.subs| ==> e.subs[ids[i]] == db.subs[ids[i]]
    ensures RenewedSum(e, d, ids, u) == RenewedSum(db, d, ids, u)
  {
    if ids != [] {
      RenewedSumFrame(db, e, d, ids[1..], u);
    }
  }

  /** In every case each wallet drops by exactly the prices of its renewed subscriptions and stays non-negative. */
  lemma {:induction false} PhaseDebitsExactly(db: DB, ids: seq<nat>, now: Time, millis: int, u: nat)
    requires Distinct(ids) && u < |db.users| && db.users[u].wallet >= 0
    ensures var d := RenewAll(db, ids, now, millis);
            && |d.subs| == |db.subs| && |d.users| == |db.users|
            && d.users[u].wallet == db.users[u].wallet - RenewedSum(db, d, ids, u) >= 0
    decreases |ids|
  {
    if ids != [] {
      var s, rest := ids[0], ids[1..];
      var d1 := Step(db, DoAutoRenew(s, now, millis));
      var d := RenewAll(d1, rest, now, millis);
      OneRenewal(db, s, now, millis);
      PhaseDebitsExactly(d1, rest, now, millis, u);
      RenewedSumFrame(db, d1, d, rest, u);
      if s < |db.subs| {
        RenewAllFrame(d1, rest, now, millis, s);
      }
    }
  }

  // When a phase renews everything that is due

  function DueSum(db: DB, ids: seq<nat>, now: Time, u: nat): Cents {
    if ids == [] then 0
    else DueSum(db, ids[1..], now, u) + if Due(db, ids[0], now) && db.subs[ids[0]].user == u then Price(db, ids[0]) else 0
  }

  /** What a renewal needs: to be due, money for its price, and free numbers. */
  predicate Payable(db: DB, s: nat, now: Time, millis: int) {
    Due(db, s, now) && db.users[db.subs[s].user].wallet >= Price(db, s) && !Taken(db, s, now, millis)
  }

  /** A due subscription of user `u`. */
  predicate DueOf(db: DB, s: nat, now: Time, u: nat) {
    Due(db, s, now) && db.subs[s].user == u
  }

  /**
   Nothing stands in the way of user `u`: each of their due subscriptions is payable, and no other payable one,
   theirs or anybody's, needs the same order number.
   */
  ghost predicate Clear(db: DB, ids: seq<nat>, now: Time, millis: int, u: nat) {
    forall s :: s in ids && DueOf(db, s, now, u) ==>
      && Payable(db, s, now, millis)
      && forall t :: t in ids && t != s && Payable(db, t, now, millis) ==> db.subs[t].user % 10000 != u % 10000
  }

  /** The same without looking at the money of `u`. */
  ghost predicate NumbersClear(db: DB, ids: seq<nat>, now: Time, millis: int, u: nat) {
    forall s :: s in ids && DueOf(db, s, now, u) ==>
      && !Taken(db, s, now, millis)
      && forall t :: t in ids && t != s && Payable(db, t, now, millis) ==> db.subs[t].user % 10000 != u % 10000
  }

  ghost predicate UserRenewed(db: DB, d: DB, ids: seq<nat>, now: Time, u: nat) {
    forall s :: s in ids && DueOf(db, s, now, u) ==> WasRenewed(db, d, s)
  }

  /** An order in which the handlers of a phase may run. */
  ghost predicate Reorders(order: seq<nat>, ids: seq<nat>) {
    multiset(order) == multiset(ids)
  }

  /** The wallet of `u` covers the prices, none negative, of all that is due from it. */
  ghost predicate FundedFor(db: DB, ids: seq<nat>, now: Time, u: nat) {
    && u < |db.users|
    && (forall s :: s in ids && DueOf(db, s, now, u) ==> Price(db, s) >= 0)
    && DueSum(db, ids, now, u) <= db.users[u].wallet
  }

  ghost predicate Funded(db: DB, ids: seq<nat>, now: Time) {
    forall u :: 0 <= u < |db.users| ==> FundedFor(db, ids, now, u)
  }

  /** The phase's order numbers: all free, and no two users with due subscriptions agree modulo 10000. */
  ghost predicate NumbersFree(db: DB, ids: seq<nat>, now: Time, millis: int) {
    && (forall s :: s in ids && Due(db, s, now) ==> !Taken(db, s, now, millis))
    && (forall s, t :: s in ids && t in ids && s != t && Due(db, s, now) && Due(db, t, now) ==>
          db.subs[s].user % 10000 != db.subs[t].user % 10000)
  }

  ghost predicate AllRenewed(db: DB, d: DB, ids: seq<nat>, now: Time) {
    forall s :: s in ids && Due(db, s, now) ==> WasRenewed(db, d, s)
  }

  /** Each due price of a funded user is within the sum, and so within the wallet. */
  lemma {:induction false} DueSumCovers(db: DB, ids: seq<nat>, now: Time, u: nat, s: nat)
    requires forall t :: t in ids && DueOf(db, t, now, u) ==> Price(db, t) >= 0
    ensures DueSum(db, ids, now, u) >= 0
    ensures s in ids && DueOf(db, s, now, u) ==> DueSum(db, ids, now, u) >= Price(db, s)
  {
    if ids != [] {
      DueSumCovers(db, ids[1..], now, u, s);
    }
  }

  lemma DistinctTail(ids: seq<nat>)
    requires Distinct(ids) && ids != []
    ensures Distinct(ids[1..]) && ids[0] !in ids[1..]
    ensures forall s :: s in ids <==> s == ids[0] || s in ids[1..]
  {
    assert ids == [ids[0]] + ids[1..];
  }

  /** After the first renewal a later one is blocked exactly by a number taken before or by the first's. */
  lemma TakenAfterOne(db: DB, s: nat, t: nat, now: Time, millis: int)
    requires s != t && Renews(db, s, now, millis) && Due(db, t, now)
    ensures var d1 := Step(db, DoAutoRenew(s, now, millis));
            && Due(d1, t, now)
            && (Taken(d1, t, now, millis) <==>
                Taken(db, t, now, millis) || db.subs[s].user % 10000 == db.subs[t].user % 10000)
  {
    OneRenewal(db, s, now, millis);
    var d1 := Step(db, DoAutoRenew(s, now, millis));
    var first, order := BotOrder(db, s, now, millis), BotOrder(db, t, now, millis);
    assert d1.orders[|db.orders|] == first;
    if Taken(db, t, now, millis) {
      var i :| 0 <= i < |db.orders| && (db.orders[i].no == order.no || db.orders[i].tradeNo == order.tradeNo);
      assert d1.orders[i] == db.orders[i];
    }
    if Taken(d1, t, now, millis) {
      var i :| 0 <= i < |d1.orders| && (d1.orders[i].no == order.no || d1.orders[i].tradeNo == order.tradeNo);
      assert i < |db.orders| ==> d1.orders[i] == db.orders[i];
    }
  }

  /** Whatever the funds, of two subscriptions whose owners' ids agree modulo 10000 a phase renews at most one. */
  lemma {:induction false} NeverBothRenewed(db: DB, ids: seq<nat>, now: Time, millis: int, s: nat, t: nat)
    requires Distinct(ids) && s in ids && t in ids && s != t && s < |db.subs| && t < |db.subs|
    requires db.subs[s].user % 10000 == db.subs[t].user % 10000
    ensures var d := RenewAll(db, ids, now, millis);
            !WasRenewed(db, d, s) || !WasRenewed(db, d, t)
    decreases |ids|
  {
    var x, rest := ids[0], ids[1..];
    var d1 := Step(db, DoAutoRenew(x, now, millis));
    DistinctTail(ids);
    OneRenewal(db, x, now, millis);
    if x == s || x == t {
      var y := if x == s then t else s;
      RenewAllFrame(d1, rest, now, millis, x);
      if Renews(db, x, now, millis) {
        var no := OrderNo(true, now, db.subs[y].user % 10000);
        assert d1.orders[|db.orders|].no == no;
        BlockedByNumber(d1, rest, now, millis, y, |db.orders|);
      }
    } else {
      NeverBothRenewed(d1, rest, now, millis, s, t);
    }
  }

  /** Of two due subscriptions that clash, the one whose handler runs first is renewed, and only that one. */
  lemma OnlyFirstOfTwo(db: DB, ids: seq<nat>, now: Time, millis: int, s: nat, t: nat)
    requires Reconciled(db) && Agrees(db.users, db.flows)
    requires Distinct(ids) && ids != [] && ids[0] == s && t in ids && s != t && t < |db.subs|
    requires Due(db, s, now) && db.users[db.subs[s].user].wallet >= Price(db, s) && !Taken(db, s, now, millis)
    requires db.subs[s].user % 10000 == db.subs[t].user % 10000
    ensures var d := RenewAll(db, ids, now, millis); WasRenewed(db, d, s) && !WasRenewed(db, d, t)
  {
    RenewsExactlyWhen(db, s, now, millis);
    FirstIsRenewed(db, ids, now, millis);
    NeverBothRenewed(db, ids, now, millis, s, t);
  }

  lemma {:induction false} BlockedByNumber(db: DB, ids: seq<nat>, now: Time, millis: int, y: nat, i: nat)
    requires Distinct(ids) && y < |db.subs| && i < |db.orders|
    requires db.orders[i].no == OrderNo(true, now, db.subs[y].user % 10000) || db.orders[i].tradeNo == RenewNo(1000 * now + millis, y)
    ensures !WasRenewed(db, RenewAll(db, ids, now, millis), y)
    decreases |ids|
  {
    if ids != [] {
      var x := ids[0];
      var d1 := Step(db, DoAutoRenew(x, now, millis));
      OneRenewal(db, x, now, millis);
      DistinctTail(ids);
      if x == y {
        RenewAllFrame(d1, ids[1..], now, millis, y);
      } else {
        BlockedByNumber(d1, ids[1..], now, millis, y, i);
      }
    }
  }

  // Order independence once the condition holds

  lemma {:induction false} DueSumAnyOrder(db: DB, ids: seq<nat>, order: seq<nat>, now: Time, u: nat)
    requires multiset(order) == multiset(ids)
    ensures DueSum(db, order, now, u) == DueSum(db, ids, now, u)
    decreases |ids|
  {
    if ids == [] {
      assert |multiset(order)| == 0;
    } else {
      var s := ids[0];
      assert s in multiset(order);
      var k :| 0 <= k < |order| && order[k] == s;
      var others := order[..k] + order[k + 1..];
      SameOthers(ids, order, k);
      DueSumFirst(db, order[..k], s, order[k + 1..], now, u);
      assert ([s] + others)[1..] == others;
      DueSumAnyOrder(db, ids[1..], others, now, u);
    }
  }

  lemma {:induction false} DueSumFirst(db: DB, before: seq<nat>, s: nat, after: seq<nat>, now: Time, u: nat)
    ensures DueSum(db, before + [s] + after, now, u) == DueSum(db, [s] + (before + after), now, u)
  {
    assert ([s] + (before + after))[1..] == before + after;
    if before == [] {
      assert before + [s] + after == [s] + (before + after);
    } else {
      DueSumFirst(db, before[1..], s, after, now, u);
      assert (before + [s] + after)[1..] == before[1..] + [s] + after;
      assert (before + after)[1..] == before[1..] + after;
      assert ([s] + (before[1..] + after))[1..] == before[1..] + after;
    }
  }

  lemma {:induction false} OnlyDueAreRenewed(db: DB, ids: seq<nat>, now: Time, millis: int, s: nat)
    requires Distinct(ids) && s < |db.subs| && WasRenewed(db, RenewAll(db, ids, now, millis), s)
    ensures Due(db, s, now) && s in ids
    decreases |ids|
  {
    if ids != [] {
      var x, rest := ids[0], ids[1..];
      var d1 := Step(db, DoAutoRenew(x, now, millis));
      OneRenewal(db, x, now, millis);
      DistinctTail(ids);
      if x == s {
        RenewAllFrame(d1, rest, now, millis, s);
      } else {
        OnlyDueAreRenewed(d1, rest, now, millis, s);
      }
    }
  }

  lemma {:induction false} UserRenewedSum(db: DB, d: DB, ids: seq<nat>, now: Time, u: nat)
    requires forall s: nat :: s in ids && s < |db.subs| && db.subs[s].user == u ==> (WasRenewed(db, d, s) <==> Due(db, s, now))
    ensures RenewedSum(db, d, ids, u) == DueSum(db, ids, now, u)
  {
    if ids != [] {
      UserRenewedSum(db, d, ids[1..], now, u);
    }
  }

  lemma SameMembers(ids: seq<nat>, order: seq<nat>)
    requires multiset(order) == multiset(ids) && Distinct(ids)
    ensures Distinct(order) && forall s :: s in order <==> s in ids
  {
    forall s ensures s in order <==> s in ids {
      assert s in order <==> s in multiset(order);
      assert s in ids <==> s in multiset(ids);
    }
    forall i, j | 0 <= i < j < |order| ensures order[i] != order[j] {
      assert order == order[..j] + order[j..];
      assert order[i] in multiset(order[..j]) && order[j] in multiset(order[j..]);
      if order[i] == order[j] {
        assert multiset(order) == multiset(order[..j]) + multiset(order[j..]);
        assert multiset(ids)[order[i]] >= 2;
        AtMostOnce(ids, order[i]);
      }
    }
  }

  lemma {:induction false} AtMostOnce(ids: seq<nat>, s: nat)
    requires Distinct(ids)
    ensures multiset(ids)[s] <= 1
  {
    if ids != [] {
      DistinctTail(ids);
      AtMostOnce(ids[1..], s);
      assert ids == [ids[0]] + ids[1..];
      assert s !in ids[1..] ==> s !in multiset(ids[1..]);
    }
  }

  // What one user can count on

  /** A renewal under another number changes nothing for a subscription whose owner has the number of `u`. */
  lemma PayableAfterOther(db: DB, x: nat, t: nat, now: Time, millis: int, u: nat)
    requires Renews(db, x, now, millis) && db.subs[x].user % 10000 != u % 10000 && t != x
    ensures var d1 := Step(db, DoAutoRenew(x, now, millis));
            && (DueOf(d1, t, now, u) <==> DueOf(db, t, now, u))
            && (Payable(d1, t, now, millis) && d1.subs[t].user % 10000 == u % 10000 ==>
                  Payable(db, t, now, millis) && db.subs[t].user == d1.subs[t].user)
            && (DueOf(db, t, now, u) && Payable(db, t, now, millis) ==> Payable(d1, t, now, millis))
  {
    OneRenewal(db, x, now, millis);
    if Due(db, t, now) {
      TakenAfterOne(db, x, t, now, millis);
    }
  }

  /** A handler that renews another user's subscription leaves what is clear clear. */
  lemma ClearAfterOther(db: DB, ids: seq<nat>, now: Time, millis: int, u: nat)
    requires Distinct(ids) && ids != [] && Clear(db, ids, now, millis, u)
    requires Renews(db, ids[0], now, millis) && db.subs[ids[0]].user % 10000 != u % 10000
    ensures Clear(Step(db, DoAutoRenew(ids[0], now, millis)), ids[1..], now, millis, u)
  {
    var x, rest := ids[0], ids[1..];
    var d1 := Step(db, DoAutoRenew(x, now, millis));
    DistinctTail(ids);
    forall s | s in rest && DueOf(d1, s, now, u)
      ensures Payable(d1, s, now, millis)
      ensures forall t :: t in rest && t != s && Payable(d1, t, now, millis) ==> d1.subs[t].user % 10000 != u % 10000
    {
      PayableAfterOther(db, x, s, now, millis, u);
      forall t | t in rest && t != s && Payable(d1, t, now, millis) ensures d1.subs[t].user % 10000 != u % 10000 {
        PayableAfterOther(db, x, t, now, millis, u);
      }
    }
  }

  /** One handler: if it is for a due subscription of `u` it goes through, and the rest stays clear. */
  lemma ClearStep(db: DB, ids: seq<nat>, now: Time, millis: int, u: nat)
    requires Reconciled(db) && Agrees(db.users, db.flows)
    requires Distinct(ids) && ids != [] && Clear(db, ids, now, millis, u)
    ensures DueOf(db, ids[0], now, u) ==> Renews(db, ids[0], now, millis)
    ensures Clear(Step(db, DoAutoRenew(ids[0], now, millis)), ids[1..], now, millis, u)
  {
    var x, rest := ids[0], ids[1..];
    DistinctTail(ids);
    RenewsExactlyWhen(db, x, now, millis);
    if !Renews(db, x, now, millis) {
      NoRenewalNoChange(db, x, now, millis);
    } else if db.subs[x].user % 10000 != u % 10000 {
      ClearAfterOther(db, ids, now, millis, u);
    } else {
      NothingElseDue(db, ids, now, millis, u);
    }
  }

  /** When a subscription with the number of `u` is renewed, `u` has nothing else due. */
  lemma NothingElseDue(db: DB, ids: seq<nat>, now: Time, millis: int, u: nat)
    requires Distinct(ids) && ids != [] && Clear(db, ids, now, millis, u)
    requires Payable(db, ids[0], now, millis) && Renews(db, ids[0], now, millis)
    requires db.subs[ids[0]].user % 10000 == u % 10000
    ensures Clear(Step(db, DoAutoRenew(ids[0], now, millis)), ids[1..], now, millis, u)
  {
    OneRenewal(db, ids[0], now, millis);
    DistinctTail(ids);
    forall s | s in ids[1..] ensures !DueOf(Step(db, DoAutoRenew(ids[0], now, millis)), s, now, u) {
      assert DueOf(db, s, now, u) ==> Payable(db, s, now, millis);
    }
  }

  lemma {:induction false} ClearIsRenewed(db: DB, ids: seq<nat>, now: Time, millis: int, u: nat)
    requires Reconciled(db) && Agrees(db.users, db.flows)
    requires Distinct(ids) && Clear(db, ids, now, millis, u)
    ensures UserRenewed(db, RenewAll(db, ids, now, millis), ids, now, u)
    decreases |ids|
  {
    if ids != [] {
      var x, rest := ids[0], ids[1..];
      var d1 := Step(db, DoAutoRenew(x, now, millis));
      DistinctTail(ids);
      ClearStep(db, ids, now, millis, u);
      AutoRenewKeepsReconciled(db, x, now, millis);
      StepKeepsAgreement(db, DoAutoRenew(x, now, millis));
      ClearIsRenewed(d1, rest, now, millis, u);
      OneRenewal(db, x, now, millis);
      if DueOf(db, x, now, u) {
        FirstIsRenewed(db, ids, now, millis);
      }
      RestOfUser(db, d1, RenewAll(d1, rest, now, millis), rest, now, x, u);
    }
  }

  lemma RestOfUser(db: DB, d1: DB, d: DB, rest: seq<nat>, now: Time, x: nat, u: nat)
    requires d1.products == db.products && |d1.subs| == |db.subs| && |d1.users| == |db.users| && x !in rest
    requires forall r :: 0 <= r < |db.subs| && r != x ==> d1.subs[r] == db.subs[r]
    requires UserRenewed(d1, d, rest, now, u)
    ensures UserRenewed(db, d, rest, now, u)
  {
    forall t | t in rest && DueOf(db, t, now, u) ensures WasRenewed(db, d, t) {
      assert DueOf(d1, t, now, u);
    }
  }

  lemma ClearInAnyOrder(db: DB, ids: seq<nat>, order: seq<nat>, now: Time, millis: int, u: nat)
    requires Distinct(ids) && Reorders(order, ids) && Clear(db, ids, now, millis, u)
    ensures Distinct(order) && Clear(db, order, now, millis, u)
  {
    SameMembers(ids, order);
  }

  function IndexOf(ids: seq<nat>, s: nat): (k: nat)
    requires s in ids
    ensures k < |ids| && ids[k] == s
  {
    if ids[0] == s then 0 else 1 + IndexOf(ids[1..], s)
  }

  /** The order of the phase with one handler brought to the front. */
  function WithFirst(ids: seq<nat>, s: nat): (order: seq<nat>)
    requires s in ids
    ensures order != [] && order[0] == s
  {
    var k := IndexOf(ids, s);
    [s] + (ids[..k] + ids[k + 1..])
  }

  lemma WithFirstReorders(ids: seq<nat>, s: nat)
    requires s in ids
    ensures Reorders(WithFirst(ids, s), ids)
  {
    WithoutOne(ids, IndexOf(ids, s));
  }

  /** When `u` is not clear, some order of the handlers leaves a due subscription of theirs behind. */
  lemma NotClearFails(db: DB, ids: seq<nat>, now: Time, millis: int, u: nat) returns (order: seq<nat>)
    requires Reconciled(db) && Agrees(db.users, db.flows)
    requires Distinct(ids) && !Clear(db, ids, now, millis, u)
    ensures Reorders(order, ids) && !UserRenewed(db, RenewAll(db, order, now, millis), ids, now, u)
  {
    var s :| s in ids && DueOf(db, s, now, u)
             && !(&& Payable(db, s, now, millis)
                  && forall t :: t in ids && t != s && Payable(db, t, now, millis) ==> db.subs[t].user % 10000 != u % 10000);
    if !Payable(db, s, now, millis) {
      order := WithFirst(ids, s);
      WithFirstReorders(ids, s);
      SameMembers(ids, order);
      RenewsExactlyWhen(db, s, now, millis);
      FirstIsSkipped(db, order, now, millis);
    } else {
      var t :| t in ids && t != s && Payable(db, t, now, millis) && db.subs[t].user % 10000 == u % 10000;
      order := WithFirst(ids, t);
      WithFirstReorders(ids, t);
      SameMembers(ids, order);
      OnlyFirstOfTwo(db, order, now, millis, t, s);
    }
  }

  /** What its handler, running first, does not renew is not renewed. */
  lemma FirstIsSkipped(db: DB, ids: seq<nat>, now: Time, millis: int)
    requires Distinct(ids) && ids != [] && !Renews(db, ids[0], now, millis)
    ensures !WasRenewed(db, RenewAll(db, ids, now, millis), ids[0])
  {
    NoRenewalNoChange(db, ids[0], now, millis);
    DistinctTail(ids);
    if ids[0] < |db.subs| {
      RenewAllFrame(db, ids[1..], now, millis, ids[0]);
    }
  }

  /**
   Whatever the rest of the shop can or cannot pay: every order of the handlers renews all that is due of user
   `u`, if and only if `u` is clear before the phase.
   */
  lemma UserRenewsAllExactlyWhen(db: DB, ids: seq<nat>, now: Time, millis: int, u: nat)
    requires Reconciled(db) && Agrees(db.users, db.flows) && Distinct(ids)
    ensures (forall order :: Reorders(order, ids) ==> UserRenewed(db, RenewAll(db, order, now, millis), ids, now, u))
       <==> Clear(db, ids, now, millis, u)
  {
    if Clear(db, ids, now, millis, u) {
      forall order | Reorders(order, ids) ensures UserRenewed(db, RenewAll(db, order, now, millis), ids, now, u) {
        ClearInAnyOrder(db, ids, order, now, millis, u);
        ClearIsRenewed(db, order, now, millis, u);
        SameMembers(ids, order);
      }
    } else {
      var order := NotClearFails(db, ids, now, millis, u);
    }
  }

  lemma FundedIsClearExactlyWhen(db: DB, ids: seq<nat>, now: Time, millis: int, u: nat)
    requires FundedFor(db, ids, now, u)
    ensures Clear(db, ids, now, millis, u) <==> NumbersClear(db, ids, now, millis, u)
  {
    forall s | s in ids && DueOf(db, s, now, u) ensures db.users[u].wallet >= Price(db, s) {
      DueSumCovers(db, ids, now, u, s);
    }
  }

  /**
   If the wallet of a user covers the prices of all their due subscriptions, every order of the handlers renews
   all of them, if and only if their numbers are free and nobody else who can pay needs the same; and then every
   order debits the user exactly that sum.
   */
  lemma FundedUserRenewsAllExactlyWhen(db: DB, ids: seq<nat>, now: Time, millis: int, u: nat)
    requires Reconciled(db) && Agrees(db.users, db.flows) && Distinct(ids)
    requires FundedFor(db, ids, now, u)
    ensures (forall order :: Reorders(order, ids) ==> UserRenewed(db, RenewAll(db, order, now, millis), ids, now, u))
       <==> NumbersClear(db, ids, now, millis, u)
    ensures NumbersClear(db, ids, now, millis, u) ==>
              forall order :: Reorders(order, ids) ==> DebitedFor(db, RenewAll(db, order, now, millis), ids, now, u)
  {
    UserRenewsAllExactlyWhen(db, ids, now, millis, u);
    FundedIsClearExactlyWhen(db, ids, now, millis, u);
    if Clear(db, ids, now, millis, u) {
      forall order | Reorders(order, ids) ensures DebitedFor(db, RenewAll(db, order, now, millis), ids, now, u) {
        ClearIsDebited(db, ids, order, now, millis, u);
      }
    }
  }

  /** The wallet of `u` has dropped by exactly the sum of what was due, and of theirs nothing else was renewed. */
  ghost predicate DebitedFor(db: DB, d: DB, ids: seq<nat>, now: Time, u: nat) {
    && |d.users| == |db.users| && u < |db.users|
    && d.users[u].wallet == db.users[u].wallet - DueSum(db, ids, now, u)
    && forall s: nat :: s < |db.subs| && db.subs[s].user == u && WasRenewed(db, d, s) ==> s in ids && Due(db, s, now)
  }

  lemma ClearIsDebited(db: DB, ids: seq<nat>, order: seq<nat>, now: Time, millis: int, u: nat)
    requires Reconciled(db) && Agrees(db.users, db.flows)
    requires Distinct(ids) && Reorders(order, ids) && u < |db.users| && Clear(db, ids, now, millis, u)
    ensures DebitedFor(db, RenewAll(db, order, now, millis), ids, now, u)
  {
    var d := RenewAll(db, order, now, millis);
    SameMembers(ids, order);
    ClearInAnyOrder(db, ids, order, now, millis, u);
    ClearIsRenewed(db, order, now, millis, u);
    forall s: nat | s < |db.subs| && WasRenewed(db, d, s) ensures s in order && Due(db, s, now) {
      OnlyDueAreRenewed(db, order, now, millis, s);
    }
    forall s: nat | s in order && s < |db.subs| && db.subs[s].user == u
      ensures WasRenewed(db, d, s) <==> Due(db, s, now)
    {
      assert Due(db, s, now) ==> DueOf(db, s, now, u);
    }
    assert AccountAgrees(db.users, db.flows, u, WalletAccount);
    PhaseDebitsExactly(db, order, now, millis, u);
    UserRenewedSum(db, d, order, now, u);
    DueSumAnyOrder(db, ids, order, now, u);
  }

  // The whole phase, when everybody can pay

  lemma FreeIsClear(db: DB, ids: seq<nat>, now: Time, millis: int, u: nat)
    requires Funded(db, ids, now) && NumbersFree(db, ids, now, millis) && u < |db.users|
    ensures Clear(db, ids, now, millis, u)
  {
    assert FundedFor(db, ids, now, u);
    FundedIsClearExactlyWhen(db, ids, now, millis, u);
  }

  /** In no order of the handlers is a subscription renewed whose number is taken. */
  lemma TakenIsNotRenewed(db: DB, ids: seq<nat>, now: Time, millis: int, s: nat)
    requires Distinct(ids) && Due(db, s, now) && Taken(db, s, now, millis)
    ensures !WasRenewed(db, RenewAll(db, ids, now, millis), s)
  {
    var order := BotOrder(db, s, now, millis);
    var i :| 0 <= i < |db.orders| && (db.orders[i].no == order.no || db.orders[i].tradeNo == order.tradeNo);
    BlockedByNumber(db, ids, now, millis, s, i);
  }

  /**
   With every wallet covering what is due from it, a phase renews every due subscription exactly when the
   order numbers it needs are free and pairwise different.  The condition does not mention the order in which
   the handlers run.
   */
  lemma PhaseRenewsAllExactlyWhen(db: DB, ids: seq<nat>, now: Time, millis: int)
    requires Reconciled(db) && Agrees(db.users, db.flows)
    requires Distinct(ids) && Funded(db, ids, now)
    ensures AllRenewed(db, RenewAll(db, ids, now, millis), ids, now) <==> NumbersFree(db, ids, now, millis)
  {
    var d := RenewAll(db, ids, now, millis);
    if NumbersFree(db, ids, now, millis) {
      forall s | s in ids && Due(db, s, now) ensures WasRenewed(db, d, s) {
        FreeIsClear(db, ids, now, millis, db.subs[s].user);
        ClearIsRenewed(db, ids, now, millis, db.subs[s].user);
        assert DueOf(db, s, now, db.subs[s].user);
      }
    }
    if AllRenewed(db, d, ids, now) {
      RenewedHadFreeNumbers(db, ids, now, millis);
    }
  }

  lemma RenewedHadFreeNumbers(db: DB, ids: seq<nat>, now: Time, millis: int)
    requires Distinct(ids) && AllRenewed(db, RenewAll(db, ids, now, millis), ids, now)
    ensures NumbersFree(db, ids, now, millis)
  {
    forall s | s in ids && Due(db, s, now) ensures !Taken(db, s, now, millis) {
      if Taken(db, s, now, millis) {
        TakenIsNotRenewed(db, ids, now, millis, s);
      }
    }
    forall s, t | s in ids && t in ids && s != t && Due(db, s, now) && Due(db, t, now)
      ensures db.subs[s].user % 10000 != db.subs[t].user % 10000
    {
      if db.subs[s].user % 10000 == db.subs[t].user % 10000 {
        NeverBothRenewed(db, ids, now, millis, s, t);
      }
    }
  }

  /**
   When the numbers are free and the funds suffice, every execution order of the handlers renews every due
   subscription and no other, and debits each user exactly the prices of what was due.
   */
  lemma FundedPhaseIsOrderIndependent(db: DB, ids: seq<nat>, order: seq<nat>, now: Time, millis: int)
    requires Reconciled(db) && Agrees(db.users, db.flows)
    requires Distinct(ids) && Funded(db, ids, now) && NumbersFree(db, ids, now, millis)
    requires multiset(order) == multiset(ids)
    ensures var d := RenewAll(db, order, now, millis);
            && (forall s :: s in ids ==> (WasRenewed(db, d, s) <==> Due(db, s, now)))
            && |d.users| == |db.users|
            && forall u :: 0 <= u < |db.users| ==> d.users[u].wallet == db.users[u].wallet - DueSum(db, ids, now, u)
  {
    var d := RenewAll(db, order, now, millis);
    RenewAllLength(db, order, now, millis);
    SameMembers(ids, order);
    forall s | s in ids ensures WasRenewed(db, d, s) <==> Due(db, s, now) {
      if Due(db, s, now) {
        var u := db.subs[s].user;
        FreeIsClear(db, ids, now, millis, u);
        ClearInAnyOrder(db, ids, order, now, millis, u);
        ClearIsRenewed(db, order, now, millis, u);
        assert DueOf(db, s, now, u);
      } else if WasRenewed(db, d, s) {
        OnlyDueAreRenewed(db, order, now, millis, s);
      }
    }
    forall u | 0 <= u < |db.users|
      ensures d.users[u].wallet == db.users[u].wallet - DueSum(db, ids, now, u)
    {
      FreeIsClear(db, ids, now, millis, u);
      ClearIsDebited(db, ids, order, now, millis, u);
    }
  }

  lemma {:induction false} RenewAllLength(db: DB, ids: seq<nat>, now: Time, millis: int)
    ensures |RenewAll(db, ids, now, millis).users| == |db.users|
    decreases |ids|
  {
    if ids != [] {
      OneRenewal(db, ids[0], now, millis);
      RenewAllLength(Step(db, DoAutoRenew(ids[0], now, millis)), ids[1..], now, millis);
    }
  }
}
