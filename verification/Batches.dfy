/**
 The bot runs a phase over all active subscriptions in batches of at most 100 handlers at a time, in no
 particular order within a batch.  For period resets and expiries the outcome is that of one pass in id order.
 */
module Batches {
  import opened Billing
  import opened Tables
  import opened Engine

  const BATCH_SIZE: nat := 100

  datatype Phase = ResetPhase | ExpiryPhase

  function Handle(db: DB, phase: Phase, s: nat, now: Time): DB {
    match phase
    case ResetPhase => Step(db, DoPeriodReset(s, now))
    case ExpiryPhase => Step(db, DoExpire(s, now))
  }

  function HandleAll(db: DB, phase: Phase, ids: seq<nat>, now: Time): DB
    decreases |ids|
  {
    if ids == [] then db else HandleAll(Handle(db, phase, ids[0], now), phase, ids[1..], now)
  }

  function ActiveIds(subs: seq<Subscription>): seq<nat> {
    if subs == [] then []
    else
      var n := |subs| - 1;
      ActiveIds(subs[..n]) + if subs[n].status == Live then [n] else []
  }

  /** A handler rewrites its own subscription and the keys of that subscription, by what that subscription says. */
  lemma HandleShape(db: DB, phase: Phase, s: nat, now: Time)
    ensures var d := Handle(db, phase, s, now);
            && d == db.(subs := d.subs, keys := d.keys)
            && |d.subs| == |db.subs| && |d.keys| == |db.keys|
            && (forall i :: 0 <= i < |db.subs| && i != s ==> d.subs[i] == db.subs[i])
            && (forall i :: 0 <= i < |db.keys| && db.keys[i].sub != s ==> d.keys[i] == db.keys[i])
            && (forall i :: 0 <= i < |db.keys| ==> d.keys[i].sub == db.keys[i].sub)
  {
  }

  /** What a handler does to its subscription and keys depends on nothing else but the catalogue. */
  lemma HandleIsLocal(db: DB, e: DB, phase: Phase, s: nat, now: Time)
    requires e == db.(subs := e.subs, keys := e.keys)
    requires |e.subs| == |db.subs| && |e.keys| == |db.keys|
    requires s < |db.subs| ==> e.subs[s] == db.subs[s]
    ensures var d, f := Handle(db, phase, s, now), Handle(e, phase, s, now);
            && (s < |db.subs| ==> s < |f.subs| && s < |d.subs| && f.subs[s] == d.subs[s])
            && |f.keys| == |e.keys| && |d.keys| == |db.keys|
            && forall i :: 0 <= i < |db.keys| && db.keys[i] == e.keys[i] ==> f.keys[i] == d.keys[i]
  {
  }

  /** Two handlers of a phase can be run in either order. */
  lemma HandlersCommute(db: DB, phase: Phase, s: nat, r: nat, now: Time)
    ensures Handle(Handle(db, phase, s, now), phase, r, now) == Handle(Handle(db, phase, r, now), phase, s, now)
  {
    if s != r {
      var ds, dr := Handle(db, phase, s, now), Handle(db, phase, r, now);
      HandleShape(db, phase, s, now);
      HandleShape(db, phase, r, now);
      HandleShape(ds, phase, r, now);
      HandleShape(dr, phase, s, now);
      HandleIsLocal(db, ds, phase, r, now);
      HandleIsLocal(db, dr, phase, s, now);
      var x, y := Handle(ds, phase, r, now), Handle(dr, phase, s, now);
      assert x.subs == y.subs;
      assert x.keys == y.keys;
    }
  }

  lemma HandleOne(db: DB, phase: Phase, s: nat, ids: seq<nat>, now: Time)
    ensures HandleAll(db, phase, [s] + ids, now) == HandleAll(Handle(db, phase, s, now), phase, ids, now)
  {
    assert ([s] + ids)[1..] == ids;
  }

  /** A handler can be brought forward past any others. */
  lemma {:induction false} HandleFirst(db: DB, phase: Phase, before: seq<nat>, s: nat, after: seq<nat>, now: Time)
    ensures HandleAll(db, phase, before + [s] + after, now) == HandleAll(db, phase, [s] + before + after, now)
    decreases |before|
  {
    if before == [] {
      assert before + [s] + after == [s] + before + after;
    } else {
      var r, rest := before[0], before[1..];
      var others := rest + after;
      assert before + [s] + after == [r] + (rest + [s] + after);
      assert [s] + rest + after == [s] + others;
      assert [s] + before + after == [s] + ([r] + others);
      HandleOne(db, phase, r, rest + [s] + after, now);
      HandleFirst(Handle(db, phase, r, now), phase, rest, s, after, now);
      HandleSwapped(db, phase, r, s, others, now);
    }
  }

  lemma HandleSwapped(db: DB, phase: Phase, r: nat, s: nat, ids: seq<nat>, now: Time)
    ensures HandleAll(Handle(db, phase, r, now), phase, [s] + ids, now) == HandleAll(db, phase, [s] + ([r] + ids), now)
  {
    HandleOne(Handle(db, phase, r, now), phase, s, ids, now);
    HandleOne(db, phase, s, [r] + ids, now);
    HandleOne(Handle(db, phase, s, now), phase, r, ids, now);
    HandlersCommute(db, phase, r, s, now);
  }

  lemma WithoutOne(order: seq<nat>, k: nat)
    requires k < |order|
    ensures order == order[..k] + [order[k]] + order[k + 1..]
    ensures multiset(order[..k] + order[k + 1..]) == multiset(order) - multiset{order[k]}
  {
    assert order == order[..k] + [order[k]] + order[k + 1..];
    assert multiset(order) == multiset(order[..k] + [order[k]] + order[k + 1..]);
  }

  lemma SameOthers(ids: seq<nat>, order: seq<nat>, k: nat)
    requires multiset(order) == multiset(ids) && ids != [] && k < |order| && order[k] == ids[0]
    ensures order == order[..k] + [ids[0]] + order[k + 1..]
    ensures multiset(order[..k] + order[k + 1..]) == multiset(ids[1..])
  {
    WithoutOne(order, k);
    WithoutOne(ids, 0);
    assert ids[..0] + ids[1..] == ids[1..];
  }

  /** Every order of the same handlers gives the same database. */
  lemma {:induction false} AnyOrderIsSequential(db: DB, phase: Phase, ids: seq<nat>, order: seq<nat>, now: Time)
    requires multiset(order) == multiset(ids)
    ensures HandleAll(db, phase, order, now) == HandleAll(db, phase, ids, now)
    decreases |ids|
  {
    if ids == [] {
      assert |multiset(order)| == 0;
    } else {
      var s := ids[0];
      assert s in multiset(order);
      var k :| 0 <= k < |order| && order[k] == s;
      var before, after := order[..k], order[k + 1..];
      SameOthers(ids, order, k);
      HandleFirst(db, phase, before, s, after, now);
      assert ([s] + before + after)[1..] == before + after;
      AnyOrderIsSequential(Handle(db, phase, s, now), phase, ids[1..], before + after, now);
    }
  }

  // Batches

  function BatchesOf(ids: seq<nat>): seq<seq<nat>>
    decreases |ids|
  {
    if ids == [] then []
    else if |ids| <= BATCH_SIZE then [ids]
    else [ids[..BATCH_SIZE]] + BatchesOf(ids[BATCH_SIZE..])
  }

  function Flatten(batches: seq<seq<nat>>): seq<nat> {
    if batches == [] then [] else batches[0] + Flatten(batches[1..])
  }

  /** The batches cut the list into pieces: nothing is lost, repeated or reordered, and none is too long. */
  lemma {:induction false} BatchesPartition(ids: seq<nat>)
    ensures Flatten(BatchesOf(ids)) == ids
    ensures forall b :: b in BatchesOf(ids) ==> 0 < |b| <= 100
    decreases |ids|
  {
    if |ids| > BATCH_SIZE {
      BatchesPartition(ids[BATCH_SIZE..]);
      var rest := BatchesOf(ids[BATCH_SIZE..]);
      assert BatchesOf(ids)[1..] == rest;
    } else if ids != [] {
      assert Flatten([ids]) == ids + Flatten([]);
    }
  }

  /** Each batch runs the handlers of its subscriptions in some order. */
  ghost predicate Schedules(batches: seq<seq<nat>>, orders: seq<seq<nat>>) {
    |orders| == |batches| && forall i :: 0 <= i < |batches| ==> multiset(orders[i]) == multiset(batches[i])
  }

  lemma {:induction false} ScheduleKeepsIds(batches: seq<seq<nat>>, orders: seq<seq<nat>>)
    requires Schedules(batches, orders)
    ensures multiset(Flatten(orders)) == multiset(Flatten(batches))
  {
    if batches != [] {
      assert batches == [batches[0]] + batches[1..] && orders == [orders[0]] + orders[1..];
      forall i | 0 <= i < |batches[1..]| ensures multiset(orders[1..][i]) == multiset(batches[1..][i]) {
        assert orders[1..][i] == orders[i + 1] && batches[1..][i] == batches[i + 1];
      }
      ScheduleKeepsIds(batches[1..], orders[1..]);
    }
  }

  /** Whatever order the handlers of each batch run in, the phase does what one pass over the list does. */
  lemma ConcurrentPhaseRefinesSequential(db: DB, phase: Phase, ids: seq<nat>, orders: seq<seq<nat>>, now: Time)
    requires Schedules(BatchesOf(ids), orders)
    ensures HandleAll(db, phase, Flatten(orders), now) == HandleAll(db, phase, ids, now)
  {
    BatchesPartition(ids);
    ScheduleKeepsIds(BatchesOf(ids), orders);
    AnyOrderIsSequential(db, phase, ids, Flatten(orders), now);
  }

  /** What the phase does to each subscription, read off its row alone. */
  function HandledSub(products: map<nat, Product>, phase: Phase, sub: Subscription, now: Time): Subscription {
    match phase
    case ResetPhase =>
      if ResetDue(sub, now) && sub.product in products then ResetSubscription(sub, products[sub.product].Days()) else sub
    case ExpiryPhase => if ExpiryDue(sub, now) then sub.(status := Lapsed) else sub
  }

  lemma {:induction false} ActiveIdsAre(subs: seq<Subscription>)
    ensures forall i, j :: 0 <= i < j < |ActiveIds(subs)| ==> ActiveIds(subs)[i] < ActiveIds(subs)[j]
    ensures forall s: nat :: s in ActiveIds(subs) <==> s < |subs| && subs[s].status == Live
  {
    if subs != [] {
      var earlier := ActiveIds(subs[..|subs| - 1]);
      ActiveIdsAre(subs[..|subs| - 1]);
      assert forall i :: 0 <= i < |earlier| ==> earlier[i] in earlier;
    }
  }

  lemma {:induction false} HandleAllRows(db: DB, phase: Phase, ids: seq<nat>, now: Time, s: nat)
    requires forall i, j :: 0 <= i < j < |ids| ==> ids[i] != ids[j]
    requires s < |db.subs|
    ensures var d := HandleAll(db, phase, ids, now);
            && d.products == db.products && |d.subs| == |db.subs|
            && d.subs[s] == if s in ids then HandledSub(db.products, phase, db.subs[s], now) else db.subs[s]
    decreases |ids|
  {
    if ids != [] {
      HandleShape(db, phase, ids[0], now);
      HandleAllRows(Handle(db, phase, ids[0], now), phase, ids[1..], now, s);
      assert s in ids <==> s == ids[0] || s in ids[1..];
      assert forall j :: 0 <= j < |ids[1..]| ==> ids[1..][j] == ids[j + 1];
    }
  }

  /** A phase over the active subscriptions handles every subscription of the table exactly once. */
  lemma PhaseHandlesEveryActive(db: DB, phase: Phase, now: Time, orders: seq<seq<nat>>)
    requires Schedules(BatchesOf(ActiveIds(db.subs)), orders)
    ensures var d := HandleAll(db, phase, Flatten(orders), now);
            && |d.subs| == |db.subs|
            && forall s :: 0 <= s < |db.subs| ==> d.subs[s] == HandledSub(db.products, phase, db.subs[s], now)
  {
    var ids := ActiveIds(db.subs);
    ActiveIdsAre(db.subs);
    ConcurrentPhaseRefinesSequential(db, phase, ids, orders, now);
    HandleAllLength(db, phase, ids, now);
    forall s: nat | s < |db.subs|
      ensures HandleAll(db, phase, ids, now).subs[s] == HandledSub(db.products, phase, db.subs[s], now)
    {
      HandleAllRows(db, phase, ids, now, s);
    }
  }

  lemma {:induction false} HandleAllLength(db: DB, phase: Phase, ids: seq<nat>, now: Time)
    ensures |HandleAll(db, phase, ids, now).subs| == |db.subs|
    decreases |ids|
  {
    if ids != [] {
      HandleShape(db, phase, ids[0], now);
      HandleAllLength(Handle(db, phase, ids[0], now), phase, ids[1..], now);
    }
  }
}
