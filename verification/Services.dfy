/**
 Team keys, commission and coupon expiry: when each call is accepted, and what it does to the rows.
 */
module Services {
  import opened Common
  import opened Billing
  import opened Money
  import opened Tables
  import opened Engine
  import opened ExactlyOnce
  import opened Placing

  // Team keys

  /** The member has a key of the subscription that works. */
  ghost predicate HasWorkingKey(db: DB, s: nat, member: nat) {
    exists i :: 0 <= i < |db.keys| && db.keys[i].sub == s && db.keys[i].user == member
                && db.keys[i].keyType == Sub && db.keys[i].status == KeyActive
  }

  /**
   A team owner creates a key exactly for a live subscription of theirs, a member of their team without a working
   one, and a limit within what the other sub keys leave of the quota.
   */
  lemma SubKeyCreatedExactlyWhen(db: DB, owner: nat, s: nat, member: nat, limit: Tokens)
    ensures var r := CreateSubKey(db, owner, s, member, limit);
            && (r.Success? <==>
                  && s < |db.subs| && db.subs[s].user == owner && db.subs[s].status == Live
                  && member in db.members && db.members[member] == owner && !HasWorkingKey(db, s, member)
                  && SubKeySum(db.keys, s, None) + limit <= db.subs[s].limit)
            && (r.Success? ==>
                  var d := r.value;
                  && d == db.(keys := d.keys) && |d.keys| == |db.keys| + 1 && d.keys[..|db.keys|] == db.keys
                  && var k := d.keys[|db.keys|];
                     && k.user == member && k.sub == s && k.keyType == Sub && k.status == KeyActive
                     && k.limit == limit && k.used == 0 && k.category == db.subs[s].category
                     && k.owner == if owner in db.members then db.members[owner] else owner)
  {
  }

  /**
   A sub key's limit is changed exactly by the owner noted on it, to no less than was used and no more than the
   other sub keys leave of the quota; nothing else changes.
   */
  lemma LimitChangedExactlyWhen(db: DB, owner: nat, k: nat, limit: Tokens)
    ensures var r := UpdateSubKeyLimit(db, owner, k, limit);
            && (r.Success? <==>
                  && k < |db.keys| && db.keys[k].owner == owner && db.keys[k].keyType == Sub
                  && db.keys[k].used <= limit && db.keys[k].sub < |db.subs|
                  && SubKeySum(db.keys, db.keys[k].sub, Some(k)) + limit <= db.subs[db.keys[k].sub].limit)
            && (r.Success? ==> r.value == db.(keys := db.keys[k := db.keys[k].(limit := limit)]))
  {
  }

  /** A team takes in exactly those whom its owner invited and who are in no team. */
  lemma MemberAddedExactlyWhen(db: DB, owner: nat, user: nat)
    ensures var r := AddTeamMember(db, owner, user);
            && (r.Success? <==> user < |db.users| && db.users[user].parent == Some(owner) && user !in db.members)
            && (r.Success? ==> r.value == db.(members := r.value.members) && r.value.members.Keys == db.members.Keys + {user}
                               && r.value.members[user] == owner
                               && forall m :: m in db.members ==> r.value.members[m] == db.members[m])
  {
  }

  // Commission

  /** The amount typed, to the cent: positive and at most a million yuan. */
  ghost predicate Types(typed: Option<Decimal>, amount: Cents) {
    && typed.Some? && 0 < amount <= 100_000_000
    && Rounds(100 * typed.value.coefficient, Pow10(typed.value.scale), amount)
  }

  lemma TypedIs(typed: Option<Decimal>, amount: Cents)
    ensures Types(typed, amount) <==> ParseCommissionAmount(typed) == Success(amount)
  {
    if typed.Some? {
      var n, d := 100 * typed.value.coefficient, Pow10(typed.value.scale);
      RoundsIs(n, d, amount);
      RoundDivNearest(n, d);
    }
  }

  ghost predicate FlowExists(db: DB, t: FlowType, ref: FlowRef) {
    exists i :: 0 <= i < |db.flows| && db.flows[i].flowType == t && db.flows[i].ref == ref
  }

  /** What leaves the commission balance is the amount typed, noted by one withdrawal and one flow. */
  ghost predicate Withdrawn(db: DB, d: DB, user: nat, amount: Cents) {
    && user < |db.users|
    && d == db.(users := d.users, withdrawals := d.withdrawals, flows := d.flows)
    && d.users == db.users[user := db.users[user].(commission := db.users[user].commission - amount)]
    && d.withdrawals == db.withdrawals + [Withdrawal(user, amount)]
    && d.flows == db.flows + [Flow(user, Withdraw, -amount, Some(db.users[user].commission - amount), WithdrawalRef(|db.withdrawals|))]
  }

  /** A withdrawal is accepted exactly for an amount that can be read and is there, with the channel set up. */
  lemma WithdrawnExactlyWhen(db: DB, user: nat, typed: Option<Decimal>, channelReady: bool)
    requires Reconciled(db)
    ensures var r := CreateWithdrawal(db, user, typed, channelReady);
            && (r.Success? <==>
                  channelReady && user < |db.users| && exists a :: Types(typed, a) && a <= db.users[user].commission)
            && (r.Success? ==> exists a :: Types(typed, a) && Withdrawn(db, r.value, user, a))
  {
    var parsed := ParseCommissionAmount(typed);
    forall a ensures Types(typed, a) <==> parsed == Success(a) {
      TypedIs(typed, a);
    }
    assert !HasFlow(db.flows, Withdraw, WithdrawalRef(|db.withdrawals|));
    if parsed.Success? {
      assert Types(typed, parsed.value);
      var r := CreateWithdrawal(db, user, typed, channelReady);
      if r.Success? {
        assert Withdrawn(db, r.value, user, parsed.value);
      }
    }
  }

  ghost predicate Moved(db: DB, d: DB, user: nat, amount: Cents, ref: nat) {
    && user < |db.users|
    && d == db.(users := d.users, flows := d.flows)
    && var u := db.users[user];
       && d.users == db.users[user := u.(commission := u.commission - amount, wallet := u.wallet + amount)]
       && d.flows == db.flows + [Flow(user, Commission, -amount, Some(u.commission - amount), TransferRef(ref)),
                                 Flow(user, Recharge, amount, Some(u.wallet + amount), TransferRef(ref))]
  }

  /** A transfer is accepted exactly for an amount that can be read and is there, under a reference not used before. */
  lemma MovedExactlyWhen(db: DB, user: nat, typed: Option<Decimal>, ref: nat)
    ensures var r := TransferCommission(db, user, typed, ref);
            && (r.Success? <==>
                  && user < |db.users| && (exists a :: Types(typed, a) && a <= db.users[user].commission)
                  && !FlowExists(db, Commission, TransferRef(ref)) && !FlowExists(db, Recharge, TransferRef(ref)))
            && (r.Success? ==> exists a :: Types(typed, a) && Moved(db, r.value, user, a, ref))
  {
    var parsed := ParseCommissionAmount(typed);
    forall a ensures Types(typed, a) <==> parsed == Success(a) {
      TypedIs(typed, a);
    }
    if parsed.Success? {
      assert Types(typed, parsed.value);
      TransferIs(db, user, typed, ref, parsed.value);
    }
  }

  lemma TransferIs(db: DB, user: nat, typed: Option<Decimal>, ref: nat, amount: Cents)
    requires ParseCommissionAmount(typed) == Success(amount)
    ensures var r := TransferCommission(db, user, typed, ref);
            && (r.Success? <==>
                  && user < |db.users| && amount <= db.users[user].commission
                  && !FlowExists(db, Commission, TransferRef(ref)) && !FlowExists(db, Recharge, TransferRef(ref)))
            && (r.Success? ==> Moved(db, r.value, user, amount, ref))
  {
    if user < |db.users| && amount <= db.users[user].commission {
      var d1 := TransferCommissionToWallet(db, user, amount).value;
      var f := Flow(user, Commission, -amount, Some(d1.users[user].commission), TransferRef(ref));
      RechargeIsNew(db.flows, f, ref);
      var r := TransferCommission(db, user, typed, ref);
      if r.Success? {
        assert db.flows + [f] + [Flow(user, Recharge, amount, Some(d1.users[user].wallet), TransferRef(ref))]
            == db.flows + [f, Flow(user, Recharge, amount, Some(d1.users[user].wallet), TransferRef(ref))];
      }
    }
  }

  lemma RechargeIsNew(flows: seq<Flow>, f: Flow, ref: nat)
    requires f.flowType == Commission
    ensures HasFlow(flows + [f], Recharge, TransferRef(ref)) <==> HasFlow(flows, Recharge, TransferRef(ref))
  {
    if HasFlow(flows, Recharge, TransferRef(ref)) {
      var i :| 0 <= i < |flows| && flows[i].flowType == Recharge && flows[i].ref == TransferRef(ref);
      assert (flows + [f])[i] == flows[i];
    }
  }

  // Coupons

  /** The expiry job marks exactly the available coupons whose dates have passed. */
  lemma CouponsLapse(db: DB, now: Time)
    ensures var d := Step(db, DoExpireCoupons(now));
            && d == db.(coupons := d.coupons) && |d.coupons| == |db.coupons|
            && forall c :: 0 <= c < |db.coupons| ==>
                 d.coupons[c] == if db.coupons[c].status == Available && db.coupons[c].validUntil < now
                                 then db.coupons[c].(status := CouponExpired) else db.coupons[c]
  {
  }
}
