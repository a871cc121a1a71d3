/**
 API keys mirror their subscription in every reachable state, and the team's sub keys stay within its quota as
 long as nothing but renewals, expiries and the allocation itself touches the subscription.
 */
module Keys {
  import opened Common
  import opened Billing
  import opened Tables
  import opened Engine
  import opened Shapes

  predicate MirrorsAt(subs: seq<Subscription>, k: Key) {
    && k.sub < |subs|
    && (k.status == KeyActive <==> subs[k.sub].status == Live)
    && (k.status == KeyExpired <==> subs[k.sub].status == Lapsed)
    && (k.keyType == Main ==> k.limit == subs[k.sub].limit && k.user == subs[k.sub].user)
  }

  predicate IsMainOf(keys: seq<Key>, i: nat, s: nat) {
    i < |keys| && keys[i].keyType == Main && keys[i].sub == s
  }

  ghost predicate HasMain(keys: seq<Key>, s: nat) {
    exists i: nat :: IsMainOf(keys, i, s)
  }

  /** Two keys that may not both exist: two main keys of a subscription, or two sub keys of a member in it. */
  predicate Clash(k: Key, l: Key) {
    k.sub == l.sub && k.keyType == l.keyType && (k.keyType == Main || k.user == l.user)
  }

  predicate ClashAt(keys: seq<Key>, i: nat, j: nat) {
    i < j < |keys| && Clash(keys[i], keys[j])
  }

  ghost predicate Mirror(subs: seq<Subscription>, keys: seq<Key>) {
    && (forall i :: 0 <= i < |keys| ==> MirrorsAt(subs, keys[i]))
    && (forall s: nat :: s < |subs| ==> HasMain(keys, s))
    && (forall i, j :: 0 <= i < j < |keys| ==> !Clash(keys[i], keys[j]))
  }

  /** Keys that keep their identity, whatever else of them changes. */
  predicate SameKeys(keys: seq<Key>, keys': seq<Key>) {
    |keys'| == |keys| && forall i :: 0 <= i < |keys| ==>
      keys'[i].sub == keys[i].sub && keys'[i].keyType == keys[i].keyType && keys'[i].user == keys[i].user
  }

  lemma SameKeysMirror(subs: seq<Subscription>, subs': seq<Subscription>, keys: seq<Key>, keys': seq<Key>)
    requires Mirror(subs, keys) && SameKeys(keys, keys') && |subs'| == |subs|
    requires forall i :: 0 <= i < |keys| ==> MirrorsAt(subs', keys'[i])
    ensures Mirror(subs', keys')
  {
    forall s: nat | s < |subs'| ensures HasMain(keys', s) {
      assert HasMain(keys, s);
      var i: nat :| IsMainOf(keys, i, s);
      assert IsMainOf(keys', i, s);
    }
    forall i, j | 0 <= i < j < |keys'| ensures !Clash(keys'[i], keys'[j]) {
      assert !Clash(keys[i], keys[j]);
    }
  }

  /** One subscription changes and its keys change with it. */
  lemma RewriteKeepsMirror(subs: seq<Subscription>, s: nat, sub: Subscription, keys: seq<Key>, keys': seq<Key>)
    requires Mirror(subs, keys) && s < |subs| && SameKeys(keys, keys') && sub.user == subs[s].user
    requires forall i :: 0 <= i < |keys| && keys[i].sub != s ==> keys'[i] == keys[i]
    requires forall i :: 0 <= i < |keys| && keys[i].sub == s ==> MirrorsAt(subs[s := sub], keys'[i])
    ensures Mirror(subs[s := sub], keys')
  {
    SameKeysMirror(subs, subs[s := sub], keys, keys');
  }

  /** A key nobody clashes with, matching its subscription, joins. */
  lemma NewKeyKeepsMirror(subs: seq<Subscription>, keys: seq<Key>, k: Key)
    requires Mirror(subs, keys) && MirrorsAt(subs, k)
    requires forall i :: 0 <= i < |keys| ==> !Clash(keys[i], k)
    ensures Mirror(subs, keys + [k])
  {
    forall s: nat | s < |subs| ensures HasMain(keys + [k], s) {
      assert HasMain(keys, s);
      var i: nat :| IsMainOf(keys, i, s);
      assert IsMainOf(keys + [k], i, s);
    }
  }

  lemma PurchaseKeepsMirror(db: DB, o: nat, p: Product, now: Time)
    requires Mirror(db.subs, db.keys) && o < |db.orders|
    ensures var d := DeliverPurchase(db, o, p, now); Mirror(d.subs, d.keys)
  {
    var d := DeliverPurchase(db, o, p, now);
    var n := |db.subs|;
    forall s: nat | s < |d.subs| ensures HasMain(d.keys, s) {
      if s == n {
        assert IsMainOf(d.keys, |db.keys|, n);
      } else {
        assert HasMain(db.keys, s);
        var i: nat :| IsMainOf(db.keys, i, s);
        assert IsMainOf(d.keys, i, s);
      }
    }
    forall i | 0 <= i < |d.keys| ensures MirrorsAt(d.subs, d.keys[i]) {
      assert i < |db.keys| ==> MirrorsAt(db.subs, db.keys[i]);
    }
  }

  lemma DeliveredKeyMirrors(db: DB, o: nat, p: Product, now: Time, i: nat)
    requires o < |db.orders| && db.orders[o].orderType != Purchase
    requires Deliver(db, o, p, now).Success?
    requires i < |db.keys| && MirrorsAt(db.subs, db.keys[i])
    ensures var d := Deliver(db, o, p, now).value;
            var s := db.orders[o].sub.value;
            && |d.keys| == |db.keys| && s < |db.subs|
            && |d.subs| == |db.subs| && d.subs == db.subs[s := d.subs[s]] && d.subs[s].user == db.subs[s].user
            && d.keys[i].sub == db.keys[i].sub && d.keys[i].keyType == db.keys[i].keyType && d.keys[i].user == db.keys[i].user
            && MirrorsAt(d.subs, d.keys[i])
            && (db.keys[i].sub != s ==> d.keys[i] == db.keys[i])
  {
  }

  lemma DeliverKeepsMirror(db: DB, o: nat, p: Product, now: Time)
    requires Mirror(db.subs, db.keys) && o < |db.orders|
    requires Deliver(db, o, p, now).Success?
    ensures var d := Deliver(db, o, p, now).value; Mirror(d.subs, d.keys)
  {
    var order := db.orders[o];
    var d := Deliver(db, o, p, now).value;
    if order.orderType == Purchase {
      PurchaseKeepsMirror(db, o, p, now);
    } else {
      var s := order.sub.value;
      assert HasMain(db.keys, s);
      forall i: nat | i < |db.keys|
        ensures |d.keys| == |db.keys| && d.keys[i].sub == db.keys[i].sub && d.keys[i].keyType == db.keys[i].keyType
        ensures d.keys[i].user == db.keys[i].user && MirrorsAt(d.subs, d.keys[i])
        ensures |d.subs| == |db.subs|
      {
        DeliveredKeyMirrors(db, o, p, now, i);
      }
      SameKeysMirror(db.subs, d.subs, db.keys, d.keys);
    }
  }

  lemma PaymentKeepsMirror(db: DB, n: Notice, now: Time)
    requires Mirror(db.subs, db.keys)
    ensures var d := Step(db, DoPayment(n, now)); Mirror(d.subs, d.keys)
  {
    PaymentShape(db, n, now);
    var found := FindByTradeNo(db.orders, n.tradeNo);
    if found.Some? && Fulfils(db, n, now, found.value) {
      var o := found.value;
      FulfilPaidShape(db, o, n.channel, now);
      DeliverKeepsMirror(db.(orders := db.orders[o := Complete(db.orders[o], now)]), o, db.products[db.orders[o].product], now);
    }
  }

  lemma AutoRenewKeepsMirror(db: DB, s: nat, now: Time, millis: int)
    requires Mirror(db.subs, db.keys)
    ensures var d := Step(db, DoAutoRenew(s, now, millis)); Mirror(d.subs, d.keys)
  {
    if Renews(db, s, now, millis) {
      RenewsShape(db, s, now, millis);
      var d := AutoRenew(db, s, now, millis).value;
      forall i | 0 <= i < |db.keys| && db.keys[i].sub == s ensures MirrorsAt(d.subs, d.keys[i]) {
        assert MirrorsAt(db.subs, db.keys[i]);
      }
      RewriteKeepsMirror(db.subs, s, d.subs[s], db.keys, d.keys);
    } else {
      NoRenewalNoChange(db, s, now, millis);
    }
  }

  lemma ResetKeepsMirror(db: DB, s: nat, now: Time)
    requires Mirror(db.subs, db.keys)
    ensures var d := Step(db, DoPeriodReset(s, now)); Mirror(d.subs, d.keys)
  {
    var d := Step(db, DoPeriodReset(s, now));
    if Resets(db, s, now) {
      ResetIs(db, s, now);
      var sub := ResetSubscription(db.subs[s], db.products[db.subs[s].product].Days());
      forall i | 0 <= i < |db.keys| && db.keys[i].sub == s ensures MirrorsAt(db.subs[s := sub], d.keys[i]) {
        assert MirrorsAt(db.subs, db.keys[i]);
      }
      RewriteKeepsMirror(db.subs, s, sub, db.keys, d.keys);
    }
  }

  lemma ResetIs(db: DB, s: nat, now: Time)
    requires Resets(db, s, now)
    ensures var d := Step(db, DoPeriodReset(s, now));
            var sub := ResetSubscription(db.subs[s], db.products[db.subs[s].product].Days());
            && d.subs == db.subs[s := sub] && |d.keys| == |db.keys|
            && forall i :: 0 <= i < |db.keys| ==>
                 var k := db.keys[i];
                 d.keys[i] == if k.sub != s || k.status == KeyRotated then k
                              else if k.keyType == Main then k.(limit := sub.base, used := 0) else k.(used := 0)
  {
  }

  lemma ExpiryKeepsMirror(db: DB, s: nat, now: Time)
    requires Mirror(db.subs, db.keys)
    ensures var d := Step(db, DoExpire(s, now)); Mirror(d.subs, d.keys)
  {
    var d := Step(db, DoExpire(s, now));
    if Expires(db, s, now) {
      forall i | 0 <= i < |db.keys| && db.keys[i].sub == s ensures MirrorsAt(d.subs, d.keys[i]) {
        assert MirrorsAt(db.subs, db.keys[i]);
      }
      RewriteKeepsMirror(db.subs, s, d.subs[s], db.keys, d.keys);
    }
  }

  lemma CreateSubKeyKeepsMirror(db: DB, owner: nat, s: nat, member: nat, limit: Tokens)
    requires Mirror(db.subs, db.keys)
    ensures var d := Step(db, DoCreateSubKey(owner, s, member, limit)); Mirror(d.subs, d.keys)
  {
    var d := Step(db, DoCreateSubKey(owner, s, member, limit));
    if d.keys != db.keys {
      var k := d.keys[|db.keys|];
      forall i | 0 <= i < |db.keys| ensures !Clash(db.keys[i], k) {
        assert MirrorsAt(db.subs, db.keys[i]);
      }
      NewKeyKeepsMirror(db.subs, db.keys, k);
    }
  }

  /** A sub key's limit, or a key's usage, changes. */
  lemma OneKeyKeepsMirror(subs: seq<Subscription>, keys: seq<Key>, k: nat, key: Key)
    requires Mirror(subs, keys) && k < |keys|
    requires key == keys[k].(limit := key.limit, used := key.used) && (key.keyType == Sub || key.limit == keys[k].limit)
    ensures Mirror(subs, keys[k := key])
  {
    var keys' := keys[k := key];
    forall i | 0 <= i < |keys| ensures MirrorsAt(subs, keys'[i]) {
      assert MirrorsAt(subs, keys[i]);
    }
    SameKeysMirror(subs, subs, keys, keys');
  }

  lemma TeamKeepsMirror(db: DB, a: Action)
    requires Mirror(db.subs, db.keys)
    requires a.DoUpdateSubKeyLimit? || a.DoMeter?
    ensures var d := Step(db, a); Mirror(d.subs, d.keys)
  {
    var d := Step(db, a);
    if d.keys != db.keys {
      OneKeyKeepsMirror(db.subs, db.keys, a.key, d.keys[a.key]);
    }
  }

  lemma StepKeepsMirror(db: DB, a: Action)
    requires Mirror(db.subs, db.keys)
    ensures Mirror(Step(db, a).subs, Step(db, a).keys)
  {
    match a
    case DoPayment(n, now) => PaymentKeepsMirror(db, n, now);
    case DoAutoRenew(s, now, millis) => AutoRenewKeepsMirror(db, s, now, millis);
    case DoPeriodReset(s, now) => ResetKeepsMirror(db, s, now);
    case DoExpire(s, now) => ExpiryKeepsMirror(db, s, now);
    case DoCreateSubKey(owner, s, member, limit) => CreateSubKeyKeepsMirror(db, owner, s, member, limit);
    case DoUpdateSubKeyLimit(_, _, _) => TeamKeepsMirror(db, a);
    case DoMeter(_, _) => TeamKeepsMirror(db, a);
    case _ =>
      StepFrame(db, a);
      KeyFrame(db, a);
  }

  lemma {:induction false} RunKeepsMirror(db: DB, actions: seq<Action>)
    requires Mirror(db.subs, db.keys)
    ensures Mirror(Run(db, actions).subs, Run(db, actions).keys)
    decreases |actions|
  {
    if actions != [] {
      StepKeepsMirror(db, actions[0]);
      RunKeepsMirror(Step(db, actions[0]), actions[1..]);
    }
  }

  /**
   In every reachable state a key is active or expired as its subscription is, each subscription has exactly one
   main key, which has the subscription's whole quota, and a member has at most one sub key of a subscription,
   active or expired.
   */
  lemma KeysMirrorSubscriptions(db: DB, actions: seq<Action>)
    requires Initial(db)
    ensures var d := Run(db, actions);
            && Mirror(d.subs, d.keys)
            && (forall i: nat, j: nat, s: nat :: IsMainOf(d.keys, i, s) && IsMainOf(d.keys, j, s) ==> i == j)
            && (forall i :: 0 <= i < |d.keys| ==> d.keys[i].status != KeyRotated)
  {
    RunKeepsMirror(db, actions);
    var d := Run(db, actions);
    forall i: nat, j: nat, s: nat | IsMainOf(d.keys, i, s) && IsMainOf(d.keys, j, s) ensures i == j {
      assert !ClashAt(d.keys, i, j) && !ClashAt(d.keys, j, i);
    }
    forall i | 0 <= i < |d.keys| ensures d.keys[i].status != KeyRotated {
      assert MirrorsAt(d.subs, d.keys[i]);
    }
  }

  // Allocation to sub keys

  ghost predicate Allocated(subs: seq<Subscription>, keys: seq<Key>, s: nat) {
    s < |subs| && SubKeySum(keys, s, None) <= subs[s].limit
  }

  predicate CountsFor(k: Key, s: nat) {
    k.sub == s && k.keyType == Sub && k.status != KeyRotated
  }

  function SubKeyCount(keys: seq<Key>, s: nat): nat {
    if keys == [] then 0
    else SubKeyCount(keys[..|keys| - 1], s) + if CountsFor(keys[|keys| - 1], s) then 1 else 0
  }

  lemma {:induction false} SumLeavesOneOut(keys: seq<Key>, s: nat, i: nat)
    requires i < |keys|
    ensures SubKeySum(keys, s, None) == SubKeySum(keys, s, Some(i)) + if CountsFor(keys[i], s) then keys[i].limit else 0
  {
    var n := |keys| - 1;
    if i < n {
      SumLeavesOneOut(keys[..n], s, i);
    } else {
      SumWithoutLater(keys[..n], s, i);
    }
  }

  lemma {:induction false} SumWithoutLater(keys: seq<Key>, s: nat, i: nat)
    requires |keys| <= i
    ensures SubKeySum(keys, s, Some(i)) == SubKeySum(keys, s, None)
  {
    if keys != [] {
      SumWithoutLater(keys[..|keys| - 1], s, i);
    }
  }

  /** Rows that count for nothing or are the same in both tables give the same sum. */
  lemma {:induction false} SumDependsOn(keys: seq<Key>, keys': seq<Key>, s: nat, except: Option<nat>)
    requires |keys'| == |keys|
    requires forall i :: 0 <= i < |keys| && except != Some(i) ==>
               CountsFor(keys'[i], s) == CountsFor(keys[i], s) && (CountsFor(keys[i], s) ==> keys'[i].limit == keys[i].limit)
    ensures SubKeySum(keys', s, except) == SubKeySum(keys, s, except)
  {
    if keys != [] {
      var n := |keys| - 1;
      SumDependsOn(keys[..n], keys'[..n], s, except);
    }
  }

  /** Setting every sub key of the subscription to one limit, or raising each by the same amount. */
  lemma {:induction false} SumAfterBulk(keys: seq<Key>, keys': seq<Key>, s: nat, flat: Option<Tokens>, rise: Tokens)
    requires |keys'| == |keys|
    requires forall i :: 0 <= i < |keys| ==>
               CountsFor(keys'[i], s) == CountsFor(keys[i], s)
               && (CountsFor(keys[i], s) ==> keys'[i].limit == if flat.Some? then flat.value else keys[i].limit + rise)
    ensures SubKeySum(keys', s, None) ==
            if flat.Some? then SubKeyCount(keys, s) * flat.value else SubKeySum(keys, s, None) + SubKeyCount(keys, s) * rise
  {
    if keys != [] {
      var n := |keys| - 1;
      SumAfterBulk(keys[..n], keys'[..n], s, flat, rise);
      var count: int := SubKeyCount(keys[..n], s);
      var each := if flat.Some? then flat.value else rise;
      assert (count + 1) * each == count * each + each;
      assert SubKeyCount(keys, s) == count + if CountsFor(keys[n], s) then 1 else 0;
    }
  }

  /** The steps that change a subscription's quota, or give a quota anew: they are outside the guarantee below. */
  predicate Regrants(db: DB, a: Action, s: nat) {
    match a
    case DoPayment(n, now) =>
      var o := FindByTradeNo(db.orders, n.tradeNo);
      o.Some? && Fulfils(db, n, now, o.value) && db.orders[o.value].sub == Some(s)
      && (db.orders[o.value].orderType == Upgrade || db.orders[o.value].orderType == QuotaAddon)
    case DoPeriodReset(r, now) => r == s && Resets(db, r, now)
    case _ => false
  }

  lemma DeliverKeepsAllocation(db: DB, o: nat, p: Product, now: Time, s: nat)
    requires Mirror(db.subs, db.keys) && Allocated(db.subs, db.keys, s)
    requires o < |db.orders| && Deliver(db, o, p, now).Success?
    requires db.orders[o].sub == Some(s) ==> db.orders[o].orderType == Purchase || db.orders[o].orderType == Renewal
    ensures var d := Deliver(db, o, p, now).value; Allocated(d.subs, d.keys, s)
  {
    var d := Deliver(db, o, p, now).value;
    if db.orders[o].orderType == Purchase {
      assert d.keys[..|db.keys|] == db.keys;
    } else {
      DeliverLeavesSubKeys(db, o, p, now, s);
      SumDependsOn(db.keys, d.keys, s, None);
    }
  }

  lemma DeliverLeavesSubKeys(db: DB, o: nat, p: Product, now: Time, s: nat)
    requires o < |db.orders| && db.orders[o].orderType != Purchase && Deliver(db, o, p, now).Success?
    requires db.orders[o].sub == Some(s) ==> db.orders[o].orderType == Renewal
    requires s < |db.subs| && forall i :: 0 <= i < |db.keys| ==> db.keys[i].status != KeyRotated
    ensures var d := Deliver(db, o, p, now).value;
            && |d.keys| == |db.keys| && s < |d.subs| && d.subs[s].limit == db.subs[s].limit
            && forall i :: 0 <= i < |db.keys| ==>
                 CountsFor(d.keys[i], s) == CountsFor(db.keys[i], s) && (CountsFor(db.keys[i], s) ==> d.keys[i].limit == db.keys[i].limit)
  {
  }

  lemma {:induction false} NoKeysYet(subs: seq<Subscription>, keys: seq<Key>, s: nat)
    requires forall i :: 0 <= i < |keys| ==> MirrorsAt(subs, keys[i])
    requires |subs| <= s
    ensures SubKeySum(keys, s, None) == 0
  {
    if keys != [] {
      NoKeysYet(subs, keys[..|keys| - 1], s);
    }
  }

  lemma PaymentKeepsAllocation(db: DB, n: Notice, now: Time, s: nat)
    requires Mirror(db.subs, db.keys) && Allocated(db.subs, db.keys, s)
    requires !Regrants(db, DoPayment(n, now), s)
    ensures var d := Step(db, DoPayment(n, now)); Allocated(d.subs, d.keys, s)
  {
    PaymentShape(db, n, now);
    var found := FindByTradeNo(db.orders, n.tradeNo);
    if found.Some? && Fulfils(db, n, now, found.value) {
      var o := found.value;
      FulfilPaidShape(db, o, n.channel, now);
      DeliverKeepsAllocation(db.(orders := db.orders[o := Complete(db.orders[o], now)]), o,
                             db.products[db.orders[o].product], now, s);
    }
  }

  lemma CreateSubKeyKeepsAllocation(db: DB, owner: nat, r: nat, member: nat, limit: Tokens, s: nat)
    requires Allocated(db.subs, db.keys, s)
    ensures var d := Step(db, DoCreateSubKey(owner, r, member, limit)); Allocated(d.subs, d.keys, s)
  {
    var d := Step(db, DoCreateSubKey(owner, r, member, limit));
    if d.keys != db.keys {
      assert d.keys[..|db.keys|] == db.keys;
    }
  }

  lemma UpdateKeepsAllocation(db: DB, owner: nat, k: nat, limit: Tokens, s: nat)
    requires Allocated(db.subs, db.keys, s)
    ensures var d := Step(db, DoUpdateSubKeyLimit(owner, k, limit)); Allocated(d.subs, d.keys, s)
  {
    var d := Step(db, DoUpdateSubKeyLimit(owner, k, limit));
    if d.keys != db.keys {
      if s == db.keys[k].sub {
        SumLeavesOneOut(db.keys, s, k);
        SumLeavesOneOut(d.keys, s, k);
        SumDependsOn(db.keys, d.keys, s, Some(k));
      } else {
        SumDependsOn(db.keys, d.keys, s, None);
      }
    }
  }

  lemma MeterKeepsAllocation(db: DB, k: nat, tokens: Tokens, s: nat)
    requires Allocated(db.subs, db.keys, s)
    ensures var d := Step(db, DoMeter(k, tokens)); Allocated(d.subs, d.keys, s)
  {
    SumDependsOn(db.keys, Step(db, DoMeter(k, tokens)).keys, s, None);
  }

  lemma AutoRenewKeepsAllocation(db: DB, r: nat, now: Time, millis: int, s: nat)
    requires Mirror(db.subs, db.keys) && Allocated(db.subs, db.keys, s)
    ensures var d := Step(db, DoAutoRenew(r, now, millis)); Allocated(d.subs, d.keys, s)
  {
    if Renews(db, r, now, millis) {
      RenewsShape(db, r, now, millis);
      SumDependsOn(db.keys, Step(db, DoAutoRenew(r, now, millis)).keys, s, None);
    } else {
      NoRenewalNoChange(db, r, now, millis);
    }
  }

  lemma ResetKeepsAllocation(db: DB, r: nat, now: Time, s: nat)
    requires Allocated(db.subs, db.keys, s) && !Regrants(db, DoPeriodReset(r, now), s)
    ensures var d := Step(db, DoPeriodReset(r, now)); Allocated(d.subs, d.keys, s)
  {
    SumDependsOn(db.keys, Step(db, DoPeriodReset(r, now)).keys, s, None);
  }

  lemma ExpiryKeepsAllocation(db: DB, r: nat, now: Time, s: nat)
    requires Mirror(db.subs, db.keys) && Allocated(db.subs, db.keys, s)
    ensures var d := Step(db, DoExpire(r, now)); Allocated(d.subs, d.keys, s)
  {
    SumDependsOn(db.keys, Step(db, DoExpire(r, now)).keys, s, None);
  }

  lemma StepKeepsAllocation(db: DB, a: Action, s: nat)
    requires Mirror(db.subs, db.keys) && Allocated(db.subs, db.keys, s)
    requires !Regrants(db, a, s)
    ensures Allocated(Step(db, a).subs, Step(db, a).keys, s)
  {
    match a
    case DoPayment(n, now) => PaymentKeepsAllocation(db, n, now, s);
    case DoAutoRenew(r, now, millis) => AutoRenewKeepsAllocation(db, r, now, millis, s);
    case DoPeriodReset(r, now) => ResetKeepsAllocation(db, r, now, s);
    case DoExpire(r, now) => ExpiryKeepsAllocation(db, r, now, s);
    case DoCreateSubKey(owner, r, member, limit) => CreateSubKeyKeepsAllocation(db, owner, r, member, limit, s);
    case DoUpdateSubKeyLimit(owner, k, limit) => UpdateKeepsAllocation(db, owner, k, limit, s);
    case DoMeter(k, tokens) => MeterKeepsAllocation(db, k, tokens, s);
    case _ =>
      StepFrame(db, a);
      KeyFrame(db, a);
  }

  /** Along the run no step gives subscription `s` a new quota. */
  ghost predicate NeverRegrants(db: DB, actions: seq<Action>, s: nat)
    decreases |actions|
  {
    actions != [] ==> !Regrants(db, actions[0], s) && NeverRegrants(Step(db, actions[0]), actions[1..], s)
  }

  /**
   Over any run of sub-key creations and limit changes, interleaved with renewals, expiries and everything else
   that happens in the shop, the sub keys' limits add up to at most the subscription's quota.
   */
  lemma {:induction false} AllocationNeverExceedsQuota(db: DB, actions: seq<Action>, s: nat)
    requires Mirror(db.subs, db.keys) && Allocated(db.subs, db.keys, s)
    requires NeverRegrants(db, actions, s)
    ensures Allocated(Run(db, actions).subs, Run(db, actions).keys, s)
    decreases |actions|
  {
    if actions != [] {
      StepKeepsAllocation(db, actions[0], s);
      StepKeepsMirror(db, actions[0]);
      AllocationNeverExceedsQuota(Step(db, actions[0]), actions[1..], s);
    }
  }

  /** A purchase that grants at least nothing starts within the bound. */
  lemma PurchaseStartsAllocated(db: DB, o: nat, p: Product, now: Time)
    requires Mirror(db.subs, db.keys) && o < |db.orders|
    ensures var d := DeliverPurchase(db, o, p, now);
            Allocated(d.subs, d.keys, |db.subs|) <==> p.limitTokens * db.orders[o].quantity >= 0
  {
    var d := DeliverPurchase(db, o, p, now);
    assert d.keys[..|db.keys|] == db.keys;
    NoKeysYet(db.subs, db.keys, |db.subs|);
  }

  /**
   The three steps left out keep the bound in exactly these cases: an add-on of `t` tokens, given to the
   subscription once and to each of its sub keys, an upgrade, which sets every key to the new quota, and a
   period reset, which takes the quota back to the base and leaves the sub keys alone.
   */
  lemma RegrantKeepsBoundExactlyWhen(db: DB, o: nat, p: Product, now: Time, s: nat)
    requires Mirror(db.subs, db.keys) && o < |db.orders| && s < |db.subs|
    requires db.orders[o].sub == Some(s) && Deliver(db, o, p, now).Success?
    ensures var d := Deliver(db, o, p, now).value;
            var count := SubKeyCount(db.keys, s);
            && (db.orders[o].orderType == QuotaAddon ==>
                  (Allocated(d.subs, d.keys, s) <==>
                   SubKeySum(db.keys, s, None) + count * p.limitTokens <= db.subs[s].limit + p.limitTokens))
            && (db.orders[o].orderType == Upgrade ==>
                  && (Allocated(d.subs, d.keys, s) <==> count * p.limitTokens <= p.limitTokens)
                  && (p.limitTokens > 0 ==> (Allocated(d.subs, d.keys, s) <==> count <= 1)))
  {
    var d := Deliver(db, o, p, now).value;
    if db.orders[o].orderType == QuotaAddon {
      SumAfterBulk(db.keys, d.keys, s, None, p.limitTokens);
    } else if db.orders[o].orderType == Upgrade {
      SumAfterBulk(db.keys, d.keys, s, Some(p.limitTokens), 0);
      if p.limitTokens > 0 {
        MulKeepsOrder(SubKeyCount(db.keys, s), 1, p.limitTokens);
      }
    }
  }

  lemma ResetKeepsBoundExactlyWhen(db: DB, s: nat, now: Time)
    requires Resets(db, s, now)
    ensures var d := Step(db, DoPeriodReset(s, now));
            Allocated(d.subs, d.keys, s) <==> SubKeySum(db.keys, s, None) <= db.subs[s].base
  {
    SumDependsOn(db.keys, Step(db, DoPeriodReset(s, now)).keys, s, None);
  }
}
