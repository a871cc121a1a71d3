/**
 VIP tiers: the best tier an inviter qualifies for, and the job that moves every user up to it.
 */
module Vip {
  import opened Common
  import opened Billing
  import opened Money
  import opened Tables
  import opened Engine
  import opened Shapes
  import opened OrderBook

  predicate Qualifies(t: Tier, invites: int, paid: Cents) {
    t.enabled && t.minInvites <= invites && t.minPaid <= paid
  }

  predicate Above(a: Tier, b: Tier) {
    a.sortOrder > b.sortOrder || (a.sortOrder == b.sortOrder && a.id > b.id)
  }

  /** The result of scanning the tiers in the order listed. */
  function BestOf(tiers: seq<Tier>, invites: int, paid: Cents): Option<Tier> {
    if tiers == [] then None
    else
      var n := |tiers| - 1;
      var best := BestOf(tiers[..n], invites, paid);
      if Qualifies(tiers[n], invites, paid) && (best.None? || Above(tiers[n], best.value)) then Some(tiers[n]) else best
  }

  method BestQualifyingVipTier(tiers: seq<Tier>, invites: int, paid: Cents) returns (best: Option<Tier>)
    ensures best == BestOf(tiers, invites, paid)
    ensures IsBest(tiers, invites, paid, best)
    ensures best.Some? ==> best.value.enabled && best.value.minInvites <= invites && best.value.minPaid <= paid
    ensures forall t :: t in tiers && t.enabled && t.minInvites <= invites && t.minPaid <= paid ==>
              && best.Some?
              && (t.sortOrder < best.value.sortOrder || (t.sortOrder == best.value.sortOrder && t.id <= best.value.id))
  {
    best := None;
    var i := 0;
    while i < |tiers|
      invariant 0 <= i <= |tiers|
      invariant best == BestOf(tiers[..i], invites, paid)
    {
      var t := tiers[i];
      assert tiers[..i + 1][..i] == tiers[..i];
      i := i + 1;
      if !t.enabled || invites < t.minInvites || paid < t.minPaid {
        continue;
      }
      if best.None? || t.sortOrder > best.value.sortOrder
         || (t.sortOrder == best.value.sortOrder && t.id > best.value.id)
      {
        best := Some(t);
      }
    }
    assert tiers[..i] == tiers;
    BestIsArgmax(tiers, invites, paid);
  }

  /** A qualifying tier that no qualifying tier is above, or none when none qualifies. */
  ghost predicate IsBest(tiers: seq<Tier>, invites: int, paid: Cents, best: Option<Tier>) {
    match best
    case None => forall t :: t in tiers ==> !Qualifies(t, invites, paid)
    case Some(b) =>
      && b in tiers && Qualifies(b, invites, paid)
      && forall t :: t in tiers && Qualifies(t, invites, paid) ==> !Above(t, b)
  }

  lemma {:induction false} BestIsArgmax(tiers: seq<Tier>, invites: int, paid: Cents)
    ensures IsBest(tiers, invites, paid, BestOf(tiers, invites, paid))
  {
    if tiers != [] {
      var n := |tiers| - 1;
      BestIsArgmax(tiers[..n], invites, paid);
      assert forall t :: t in tiers <==> t in tiers[..n] || t == tiers[n] by {
        assert tiers == tiers[..n] + [tiers[n]];
      }
    }
  }

  ghost predicate UniqueIds(tiers: seq<Tier>) {
    forall t, r :: t in tiers && r in tiers && t.id == r.id ==> t == r
  }

  /** The order in which the tiers are listed does not matter, nor does repetition. */
  lemma BestIgnoresListing(tiers: seq<Tier>, listing: seq<Tier>, invites: int, paid: Cents)
    requires UniqueIds(tiers)
    requires forall t :: t in listing <==> t in tiers
    ensures BestOf(listing, invites, paid) == BestOf(tiers, invites, paid)
  {
    BestIsArgmax(tiers, invites, paid);
    BestIsArgmax(listing, invites, paid);
  }

  /** Inviting more, or invitees paying more, never leads to a lower tier. */
  lemma BestIsMonotone(tiers: seq<Tier>, invites: int, paid: Cents, invites': int, paid': Cents)
    requires invites <= invites' && paid <= paid'
    ensures var b, b' := BestOf(tiers, invites, paid), BestOf(tiers, invites', paid');
            b.Some? ==> b'.Some? && !Above(b.value, b'.value)
  {
    BestIsArgmax(tiers, invites, paid);
    BestIsArgmax(tiers, invites', paid');
  }

  // The sync job

  datatype Row = Row(id: nat, vip: nat)

  datatype Plan = Plan(enabled: seq<Tier>, rankById: map<nat, int>, invites: map<nat, nat>, paid: map<nat, Cents>)

  function Rank(rankById: map<nat, int>, vip: nat): int {
    if vip in rankById then rankById[vip] else -1
  }

  function InvitesIn(plan: Plan, u: nat): nat {
    if u in plan.invites then plan.invites[u] else 0
  }

  function PaidIn(plan: Plan, u: nat): Cents {
    if u in plan.paid then plan.paid[u] else 0
  }

  /** The plan reads the tier table: the enabled rows, and the rank of every row. */
  ghost predicate PlanFor(plan: Plan, table: seq<Tier>) {
    && (forall t :: t in plan.enabled <==> t in table && t.enabled)
    && (forall t :: t in table ==> t.id in plan.rankById && plan.rankById[t.id] == t.sortOrder)
    && (forall id :: id in plan.rankById ==> exists t :: t in table && t.id == id)
  }

  /** The tier ranks above the one held; a tier that is not on record ranks below zero. */
  predicate Outranks(plan: Plan, b: Tier, vip: nat) {
    if vip in plan.rankById then b.sortOrder > plan.rankById[vip] else b.sortOrder > -1
  }

  /** Best tiers agree in rank and id. */
  lemma BestIsUnique(tiers: seq<Tier>, invites: int, paid: Cents)
    ensures forall b, c :: IsBest(tiers, invites, paid, Some(b)) && IsBest(tiers, invites, paid, Some(c)) ==>
              b.sortOrder == c.sortOrder && b.id == c.id
  {
  }

  function SyncedVip(plan: Plan, row: Row): nat {
    var best := BestOf(plan.enabled, InvitesIn(plan, row.id), PaidIn(plan, row.id));
    if best.None? || best.value.sortOrder <= Rank(plan.rankById, row.vip) then row.vip else best.value.id
  }

  /** The rows at an offset, at most `limit` of them, as the repository lists users by id. */
  function Page(rows: seq<Row>, offset: nat, limit: nat): seq<Row> {
    if offset >= |rows| then [] else if offset + limit <= |rows| then rows[offset..offset + limit] else rows[offset..]
  }

  const LIST_PAGE_SIZE: nat := 500
  const SYNC_BATCH_SIZE: nat := 100

  /** Paging visits every user once, in order. */
  method ListAllUsersForSync(rows: seq<Row>) returns (all: seq<Row>)
    ensures all == rows
  {
    all := [];
    var offset := 0;
    var more := true;
    while more
      invariant offset <= |rows| && all == rows[..offset]
      invariant !more ==> offset == |rows|
      decreases |rows| - offset, more
    {
      var page := Page(rows, offset, LIST_PAGE_SIZE);
      if |page| == 0 {
        more := false;
      } else {
        assert rows[..offset] + page == rows[..offset + |page|];
        all := all + page;
        offset := offset + |page|;
        if |page| < LIST_PAGE_SIZE {
          more := false;
        }
      }
    }
    assert rows[..offset] == rows;
  }

  ghost predicate UniqueRows(rows: seq<Row>) {
    forall i, j :: 0 <= i < j < |rows| ==> rows[i].id != rows[j].id
  }

  /** The indices of a batch. */
  function Interval(lo: int, hi: int): (s: set<int>)
    requires lo <= hi
    ensures forall i :: i in s <==> lo <= i < hi
    ensures |s| == hi - lo
    decreases hi - lo
  {
    if lo == hi then {} else Interval(lo + 1, hi) + {lo}
  }

  /** Of the rows, those before `upto` and not pending hold their synced tier; nobody else has been touched. */
  ghost predicate Synced(vips: map<nat, nat>, was: map<nat, nat>, plan: Plan, rows: seq<Row>, upto: int, pending: set<int>) {
    && vips.Keys == was.Keys
    && (forall i :: 0 <= i < |rows| ==>
          && rows[i].id in vips
          && vips[rows[i].id] == if i < upto && i !in pending then SyncedVip(plan, rows[i]) else rows[i].vip)
    && forall u :: u in vips && (forall i :: 0 <= i < |rows| ==> rows[i].id != u) ==> vips[u] == was[u]
  }

  lemma SyncedOneMore(vips: map<nat, nat>, vips': map<nat, nat>, was: map<nat, nat>, plan: Plan, rows: seq<Row>,
                      upto: int, pending: set<int>, i: int)
    requires UniqueRows(rows) && Synced(vips, was, plan, rows, upto, pending)
    requires i in pending && 0 <= i < upto <= |rows|
    requires vips' == vips[rows[i].id := SyncedVip(plan, rows[i])] || (vips' == vips && SyncedVip(plan, rows[i]) == rows[i].vip)
    ensures Synced(vips', was, plan, rows, upto, pending - {i})
  {
    forall j | 0 <= j < |rows|
      ensures rows[j].id in vips'
      ensures vips'[rows[j].id] == if j < upto && j !in pending - {i} then SyncedVip(plan, rows[j]) else rows[j].vip
    {
      assert j != i ==> rows[j].id != rows[i].id;
    }
  }

  class VipLevelSyncJob {
    /** The users table's vip_config_id column. */
    var vips: map<nat, nat>

    constructor (vips: map<nat, nat>)
      ensures this.vips == vips
    {
      this.vips := vips;
    }

    method SyncOneUser(plan: Plan, row: Row) returns (upgraded: bool)
      modifies this
      ensures vips == if upgraded then old(vips)[row.id := SyncedVip(plan, row)] else old(vips)
      ensures !upgraded ==> SyncedVip(plan, row) == row.vip
      ensures upgraded ==> exists best ::
                && IsBest(plan.enabled, InvitesIn(plan, row.id), PaidIn(plan, row.id), Some(best))
                && best.sortOrder > Rank(plan.rankById, row.vip) && vips[row.id] == best.id
      ensures forall b :: IsBest(plan.enabled, InvitesIn(plan, row.id), PaidIn(plan, row.id), Some(b)) ==>
                if Outranks(plan, b, row.vip) then upgraded && vips == old(vips)[row.id := b.id]
                else !upgraded && vips == old(vips)
    {
      BestIsUnique(plan.enabled, InvitesIn(plan, row.id), PaidIn(plan, row.id));
      var best := BestQualifyingVipTier(plan.enabled, InvitesIn(plan, row.id), PaidIn(plan, row.id));
      if best.None? {
        return false;
      }
      var currentRank := if row.vip in plan.rankById then plan.rankById[row.vip] else -1;
      if best.value.sortOrder <= currentRank {
        return false;
      }
      vips := vips[row.id := best.value.id];
      return true;
    }

    /** The handlers of one batch, in an order nobody fixes. */
    method SyncBatch(plan: Plan, rows: seq<Row>, start: int, end: int, ghost was: map<nat, nat>) returns (scanned: nat)
      requires UniqueRows(rows) && 0 <= start <= end <= |rows|
      requires Synced(vips, was, plan, rows, start, {})
      modifies this
      ensures scanned == end - start
      ensures Synced(vips, was, plan, rows, end, {})
    {
      scanned := 0;
      var pending := Interval(start, end);
      while pending != {}
        invariant forall i :: i in pending ==> start <= i < end
        invariant scanned == end - start - |pending|
        invariant Synced(vips, was, plan, rows, end, pending)
        decreases pending
      {
        var i :| i in pending;
        ghost var before := vips;
        var upgraded := SyncOneUser(plan, rows[i]);
        SyncedOneMore(before, vips, was, plan, rows, end, pending, i);
        scanned := scanned + 1;
        pending := pending - {i};
      }
    }

    /** The handlers of a batch run in any order; the outcome is each row's synced tier all the same. */
    method RunUsersByBatch(plan: Plan, rows: seq<Row>) returns (scanned: nat)
      requires UniqueRows(rows)
      requires forall i :: 0 <= i < |rows| ==> rows[i].id in vips && vips[rows[i].id] == rows[i].vip
      modifies this
      ensures scanned == |rows|
      ensures vips.Keys == old(vips).Keys
      ensures forall i :: 0 <= i < |rows| ==> vips[rows[i].id] == SyncedVip(plan, rows[i])
      ensures forall u :: u in vips && (forall i :: 0 <= i < |rows| ==> rows[i].id != u) ==> vips[u] == old(vips)[u]
    {
      scanned := 0;
      var start: nat := 0;
      while start < |rows|
        invariant scanned == Min(start, |rows|)
        invariant Synced(vips, old(vips), plan, rows, scanned, {})
        decreases |rows| - start
      {
        var end := Min(start + SYNC_BATCH_SIZE, |rows|);
        var n := SyncBatch(plan, rows, start, end, old(vips));
        scanned := scanned + n;
        start := start + SYNC_BATCH_SIZE;
      }
    }

    /** One run of the job over the users table, listed by id: every user gets the tier the plan gives them. */
    method Run(plan: Plan, table: seq<Row>) returns (scanned: nat)
      requires Lists(table, vips)
      modifies this
      ensures scanned == |table|
      ensures vips == SyncAll(plan, old(vips))
      ensures vips.Keys == old(vips).Keys && forall u :: u in vips ==> KeptOrRaised(plan, u, old(vips)[u], vips[u])
      ensures forall tiers :: PlanFor(plan, tiers) && UniqueIds(tiers) ==> NobodyBelow(plan, vips)
    {
      ghost var was := vips;
      forall tiers | PlanFor(plan, tiers) && UniqueIds(tiers) ensures NobodyBelow(plan, SyncAll(plan, was)) {
        SyncLeavesNobodyBelow(plan, tiers, was);
      }
      SyncKeepsOrRaises(plan, was);
      var rows := ListAllUsersForSync(table);
      scanned := RunUsersByBatch(plan, rows);
      SyncedIsSyncAll(plan, rows, was, vips);
    }

    /** Runs of the job one after another, each with the plan of its time. */
    method RunAll(plans: seq<Plan>)
      modifies this
      ensures vips == SyncRuns(plans, old(vips))
    {
      var i := 0;
      while i < |plans|
        invariant 0 <= i <= |plans|
        invariant SyncRuns(plans[i..], vips) == SyncRuns(plans, old(vips))
      {
        assert plans[i..][1..] == plans[i + 1..];
        var table := TableOf(vips);
        var scanned := Run(plans[i], table);
        i := i + 1;
      }
    }

    /** The rows of the users table. */
    method TableOf(vips: map<nat, nat>) returns (table: seq<Row>)
      ensures Lists(table, vips)
    {
      table := [];
      var left := vips.Keys;
      while left != {}
        invariant left <= vips.Keys
        invariant UniqueRows(table)
        invariant forall u :: u in vips && u !in left <==> Listed(table, u)
        invariant forall i :: 0 <= i < |table| ==> table[i].id in vips && vips[table[i].id] == table[i].vip
        decreases left
      {
        var u :| u in left;
        ghost var before := table;
        table := table + [Row(u, vips[u])];
        left := left - {u};
        ListedOneMore(before, Row(u, vips[u]));
      }
    }
  }

  // Over sync runs

  /** One run over the whole users table. */
  function SyncAll(plan: Plan, vips: map<nat, nat>): map<nat, nat> {
    map u | u in vips :: SyncedVip(plan, Row(u, vips[u]))
  }

  function SyncRuns(plans: seq<Plan>, vips: map<nat, nat>): map<nat, nat> {
    if plans == [] then vips else SyncRuns(plans[1..], SyncAll(plans[0], vips))
  }

  lemma SyncRaisesRank(plan: Plan, table: seq<Tier>, row: Row)
    requires PlanFor(plan, table) && UniqueIds(table)
    ensures Rank(plan.rankById, SyncedVip(plan, row)) >= Rank(plan.rankById, row.vip)
    ensures SyncedVip(plan, Row(row.id, SyncedVip(plan, row))) == SyncedVip(plan, row)
  {
    BestIsArgmax(plan.enabled, InvitesIn(plan, row.id), PaidIn(plan, row.id));
  }

  /** A repeated sync with nothing new does nothing. */
  lemma RepeatedSyncIsNoOp(plan: Plan, table: seq<Tier>, vips: map<nat, nat>)
    requires PlanFor(plan, table) && UniqueIds(table)
    ensures SyncAll(plan, SyncAll(plan, vips)) == SyncAll(plan, vips)
  {
    var once := SyncAll(plan, vips);
    forall u | u in once ensures SyncedVip(plan, Row(u, once[u])) == once[u] {
      SyncRaisesRank(plan, table, Row(u, vips[u]));
    }
  }

  /** With a fixed tier table, no sequence of sync runs ever lowers anyone's rank. */
  lemma {:induction false} RankNeverFalls(plans: seq<Plan>, table: seq<Tier>, ranks: map<nat, int>, vips: map<nat, nat>, u: nat)
    requires UniqueIds(table) && u in vips
    requires forall i :: 0 <= i < |plans| ==> PlanFor(plans[i], table) && plans[i].rankById == ranks
    ensures u in SyncRuns(plans, vips) && Rank(ranks, SyncRuns(plans, vips)[u]) >= Rank(ranks, vips[u])
  {
    if plans != [] {
      SyncRaisesRank(plans[0], table, Row(u, vips[u]));
      RankNeverFalls(plans[1..], table, ranks, SyncAll(plans[0], vips), u);
    }
  }

  predicate Listed(table: seq<Row>, u: nat) {
    exists i :: 0 <= i < |table| && table[i].id == u
  }

  lemma ListedOneMore(table: seq<Row>, row: Row)
    ensures forall u :: Listed(table + [row], u) <==> Listed(table, u) || u == row.id
  {
    forall u ensures Listed(table + [row], u) <==> Listed(table, u) || u == row.id {
      var more := table + [row];
      if Listed(table, u) {
        var i :| 0 <= i < |table| && table[i].id == u;
        assert more[i].id == u;
      }
      assert more[|table|] == row;
    }
  }

  /** The table lists every user once, with the tier they have. */
  ghost predicate Lists(table: seq<Row>, vips: map<nat, nat>) {
    && UniqueRows(table)
    && (forall i :: 0 <= i < |table| ==> table[i].id in vips && vips[table[i].id] == table[i].vip)
    && (forall u :: u in vips ==> Listed(table, u))
  }

  predicate MeetsTerms(t: Tier, invites: int, paid: Cents) {
    t.enabled && t.minInvites <= invites && t.minPaid <= paid
  }

  /** No user qualifies for an enabled tier that ranks above the one they have. */
  ghost predicate NobodyBelow(plan: Plan, vips: map<nat, nat>) {
    forall u, t :: u in vips && t in plan.enabled && MeetsTerms(t, InvitesIn(plan, u), PaidIn(plan, u)) ==>
      !Outranks(plan, t, vips[u])
  }

  lemma SyncLeavesNobodyBelow(plan: Plan, table: seq<Tier>, was: map<nat, nat>)
    requires PlanFor(plan, table) && UniqueIds(table)
    ensures NobodyBelow(plan, SyncAll(plan, was))
  {
    forall u, t | u in was && t in plan.enabled && MeetsTerms(t, InvitesIn(plan, u), PaidIn(plan, u))
      ensures !Outranks(plan, t, SyncAll(plan, was)[u])
    {
      assert Qualifies(t, InvitesIn(plan, u), PaidIn(plan, u));
      BestIsArgmax(plan.enabled, InvitesIn(plan, u), PaidIn(plan, u));
    }
  }

  /** A user keeps their tier when no best tier ranks above it, and otherwise has that one. */
  ghost predicate KeptOrRaised(plan: Plan, u: nat, before: nat, after: nat) {
    forall b :: IsBest(plan.enabled, InvitesIn(plan, u), PaidIn(plan, u), b) ==>
      after == if b.Some? && Outranks(plan, b.value, before) then b.value.id else before
  }

  lemma SyncKeepsOrRaises(plan: Plan, was: map<nat, nat>)
    ensures forall u :: u in was ==> KeptOrRaised(plan, u, was[u], SyncAll(plan, was)[u])
  {
    forall u | u in was ensures KeptOrRaised(plan, u, was[u], SyncAll(plan, was)[u]) {
      BestIsArgmax(plan.enabled, InvitesIn(plan, u), PaidIn(plan, u));
      BestIsUnique(plan.enabled, InvitesIn(plan, u), PaidIn(plan, u));
    }
  }

  /** What the batches leave behind is the synced table. */
  lemma SyncedIsSyncAll(plan: Plan, rows: seq<Row>, was: map<nat, nat>, vips: map<nat, nat>)
    requires Lists(rows, was) && vips.Keys == was.Keys
    requires forall i :: 0 <= i < |rows| ==> rows[i].id in vips && vips[rows[i].id] == SyncedVip(plan, rows[i])
    ensures vips == SyncAll(plan, was)
  {
    forall u | u in was ensures vips[u] == SyncedVip(plan, Row(u, was[u])) {
      assert Listed(rows, u);
      var i :| 0 <= i < |rows| && rows[i].id == u;
      assert rows[i] == Row(u, was[u]);
    }
  }

  // What the plan counts, over runs of the shop

  /** Users invited by `u`. */
  function InviteCount(users: seq<User>, u: nat): nat {
    if users == [] then 0
    else InviteCount(users[..|users| - 1], u) + if users[|users| - 1].parent == Some(u) then 1 else 0
  }

  predicate CountsTowards(users: seq<User>, order: Order, u: nat) {
    order.status == Completed && order.user < |users| && users[order.user].parent == Some(u)
  }

  /** Completed orders of the users invited by `u`. */
  function PaidTotal(users: seq<User>, orders: seq<Order>, u: nat): Cents {
    if orders == [] then 0
    else
      var n := |orders| - 1;
      PaidTotal(users, orders[..n], u) + if CountsTowards(users, orders[n], u) then orders[n].total else 0
  }

  // The grouped queries the plan is built from

  function Get(m: map<nat, int>, u: nat): int {
    if u in m then m[u] else 0
  }

  /** Users by inviter: one pass over the users table. */
  function CountInviteesGroupByInviter(users: seq<User>): (counts: map<nat, nat>) {
    if users == [] then map[]
    else
      var earlier := CountInviteesGroupByInviter(users[..|users| - 1]);
      match users[|users| - 1].parent
      case None => earlier
      case Some(p) => earlier[p := 1 + if p in earlier then earlier[p] else 0]
  }

  /** Completed orders of existing users by inviter: one pass over the orders table. */
  function SumInviteePaidGroupByInviter(users: seq<User>, orders: seq<Order>): (sums: map<nat, Cents>) {
    if orders == [] then map[]
    else
      var earlier := SumInviteePaidGroupByInviter(users, orders[..|orders| - 1]);
      var order := orders[|orders| - 1];
      if order.status != Completed || order.user >= |users| then earlier
      else match users[order.user].parent
           case None => earlier
           case Some(p) => earlier[p := order.total + if p in earlier then earlier[p] else 0]
  }

  /** Each group has what counting for its inviter alone gives, and an inviter without a group has nothing. */
  lemma {:induction false} GroupedInvitesAreInvites(users: seq<User>, u: nat)
    ensures Get(CountInviteesGroupByInviter(users), u) == InviteCount(users, u)
  {
    if users != [] {
      GroupedInvitesAreInvites(users[..|users| - 1], u);
    }
  }

  lemma {:induction false} GroupedPaidIsPaid(users: seq<User>, orders: seq<Order>, u: nat)
    ensures Get(SumInviteePaidGroupByInviter(users, orders), u) == PaidTotal(users, orders, u)
  {
    if orders != [] {
      GroupedPaidIsPaid(users, orders[..|orders| - 1], u);
    }
  }

  /** The enabled rows of the tier table. */
  function EnabledTiers(table: seq<Tier>): (enabled: seq<Tier>)
    ensures forall t :: t in enabled <==> t in table && t.enabled
  {
    if table == [] then []
    else
      var n := |table| - 1;
      assert table == table[..n] + [table[n]];
      EnabledTiers(table[..n]) + if table[n].enabled then [table[n]] else []
  }

  /** The plan of a run, read off the tables; there is none when no tier is enabled. */
  method BuildSyncPlan(table: seq<Tier>, users: seq<User>, orders: seq<Order>) returns (plan: Option<Plan>)
    requires UniqueIds(table)
    ensures plan.None? <==> forall t :: t in table ==> !t.enabled
    ensures plan.Some? ==> PlanFor(plan.value, table)
    ensures plan.Some? ==> forall u: nat ::
              InvitesIn(plan.value, u) == InviteCount(users, u) && PaidIn(plan.value, u) == PaidTotal(users, orders, u)
  {
    var enabled := EnabledTiers(table);
    if |enabled| == 0 {
      return None;
    }
    assert enabled[0] in table;
    var rankById: map<nat, int> := map[];
    var i := 0;
    while i < |table|
      invariant 0 <= i <= |table|
      invariant forall k :: 0 <= k < i ==> table[k].id in rankById && rankById[table[k].id] == table[k].sortOrder
      invariant forall id :: id in rankById ==> exists t :: t in table && t.id == id
    {
      assert table[i] in table;
      assert forall k :: 0 <= k < i && table[k].id == table[i].id ==> table[k] in table && table[k] == table[i];
      rankById := rankById[table[i].id := table[i].sortOrder];
      i := i + 1;
    }
    var invites := CountInviteesGroupByInviter(users);
    var paid := SumInviteePaidGroupByInviter(users, orders);
    forall u: nat
      ensures (if u in invites then invites[u] else 0) == InviteCount(users, u)
      ensures (if u in paid then paid[u] else 0) == PaidTotal(users, orders, u)
    {
      GroupedInvitesAreInvites(users, u);
      GroupedPaidIsPaid(users, orders, u);
    }
    plan := Some(Plan(enabled, rankById, invites, paid));
  }

  // Over runs of the shop

  lemma {:induction false} InvitesGrow(users: seq<User>, users': seq<User>, u: nat)
    requires SameFamily(users, users')
    ensures InviteCount(users, u) <= InviteCount(users', u)
    decreases |users'|
  {
    if users' != [] {
      var n := |users'| - 1;
      if |users| == |users'| {
        InvitesGrow(users[..n], users'[..n], u);
      } else {
        InvitesGrow(users, users'[..n], u);
      }
    }
  }

  lemma StepKeepsFamily(db: DB, a: Action)
    ensures SameFamily(db.users, Step(db, a).users)
  {
    match a
    case DoPayment(n, now) => PaymentKeepsFamily(db, n, now);
    case DoAutoRenew(s, now, millis) => AutoRenewKeepsFamily(db, s, now, millis);
    case DoPlaceOrder(user, req, now, millis) => PlaceOrderFrame(db, user, req, now, millis);
    case DoPeriodReset(_, _) => BotFrame(db, a);
    case DoExpire(_, _) => BotFrame(db, a);
    case DoCreateSubKey(_, _, _, _) => TeamFrame(db, a);
    case DoUpdateSubKeyLimit(_, _, _) => TeamFrame(db, a);
    case DoMeter(_, _) => TeamFrame(db, a);
    case DoWithdraw(_, _, _) => CommissionKeepsFamily(db, a);
    case DoTransfer(_, _, _) => CommissionKeepsFamily(db, a);
    case _ => OutsideKeepsFamily(db, a);
  }

  lemma CommissionKeepsFamily(db: DB, a: Action)
    requires a.DoWithdraw? || a.DoTransfer?
    ensures SameFamily(db.users, Step(db, a).users)
  {
  }

  lemma OutsideKeepsFamily(db: DB, a: Action)
    requires FromOutside(a)
    ensures SameFamily(db.users, Step(db, a).users)
  {
  }

  lemma PaymentKeepsFamily(db: DB, n: Notice, now: int)
    ensures SameFamily(db.users, Step(db, DoPayment(n, now)).users)
  {
    PaymentShape(db, n, now);
    var o := FindByTradeNo(db.orders, n.tradeNo);
    if o.Some? && Fulfils(db, n, now, o.value) {
      FulfilPaidShape(db, o.value, n.channel, now);
    }
  }

  lemma AutoRenewKeepsFamily(db: DB, s: nat, now: int, millis: int)
    ensures SameFamily(db.users, Step(db, DoAutoRenew(s, now, millis)).users)
  {
    if Renews(db, s, now, millis) {
      RenewsShape(db, s, now, millis);
    } else {
      NoRenewalNoChange(db, s, now, millis);
    }
  }

  lemma {:induction false} RunKeepsFamily(db: DB, actions: seq<Action>)
    ensures SameFamily(db.users, Run(db, actions).users)
    decreases |actions|
  {
    if actions != [] {
      StepKeepsFamily(db, actions[0]);
      RunKeepsFamily(Step(db, actions[0]), actions[1..]);
    }
  }

  /** Only a completed order of a registered user can have a negative total. */
  ghost predicate TotalsOk(db: DB) {
    forall i :: 0 <= i < |db.orders| && db.orders[i].total < 0 ==>
      db.orders[i].status == Completed && db.orders[i].user < |db.users|
  }

  lemma PlacedTotal(db: DB, user: nat, req: OrderRequest, now: Time, millis: int)
    requires PlaceOrder(db, user, req, now, millis).Success?
    ensures var orders := PlaceOrder(db, user, req, now, millis).value.orders;
            |orders| == |db.orders| + 1 && orders[|db.orders|].total >= 0
  {
    var p := db.products[req.product];
    var offer := CouponOffer(db, user, req.coupon, now).value;
    var sub := ResolveSubscription(db, user, req, p).value;
    var qty := if sub.Some? && req.orderType == Upgrade
               then UpgradeCycles(db.subs[sub.value].periodEnd, db.subs[sub.value].expiresAt, Span(p.Days()))
               else req.quantity;
    CheckoutBalances(p.price, qty, offer, req.invoice);
  }

  lemma PlaceOrderKeepsTotals(db: DB, user: nat, req: OrderRequest, now: Time, millis: int)
    requires OrdersOk(db.orders) && TotalsOk(db) && PlaceOrder(db, user, req, now, millis).Success?
    ensures TotalsOk(PlaceOrder(db, user, req, now, millis).value)
  {
    var d := PlaceOrder(db, user, req, now, millis).value;
    PlacedTotal(db, user, req, now, millis);
    PlaceOrderShape(db, user, req, now, millis);
    PlaceOrderKeepsBook(db, user, req, now, millis);
    forall i | 0 <= i < |d.orders| && d.orders[i].total < 0
      ensures d.orders[i].status == Completed && d.orders[i].user < |d.users|
    {
      assert Evolves(db.orders[i], d.orders[i]);
    }
  }

  lemma AutoRenewKeepsTotals(db: DB, s: nat, now: Time, millis: int)
    requires TotalsOk(db)
    ensures TotalsOk(Step(db, DoAutoRenew(s, now, millis)))
  {
    if Renews(db, s, now, millis) {
      RenewsShape(db, s, now, millis);
    } else {
      NoRenewalNoChange(db, s, now, millis);
    }
  }

  lemma EvolvedTotals(db: DB, d: DB)
    requires TotalsOk(db) && BookEvolves(db.orders, d.orders) && |d.orders| == |db.orders| && |db.users| <= |d.users|
    ensures TotalsOk(d)
  {
    forall i | 0 <= i < |d.orders| && d.orders[i].total < 0
      ensures d.orders[i].status == Completed && d.orders[i].user < |d.users|
    {
      assert Evolves(db.orders[i], d.orders[i]);
    }
  }

  lemma PaymentKeepsLength(db: DB, n: Notice, now: Time)
    ensures |Step(db, DoPayment(n, now)).orders| == |db.orders|
  {
    PaymentShape(db, n, now);
    var o := FindByTradeNo(db.orders, n.tradeNo);
    if o.Some? && Fulfils(db, n, now, o.value) {
      FulfilPaidShape(db, o.value, n.channel, now);
    }
  }

  lemma StepKeepsTotals(db: DB, a: Action)
    requires OrdersOk(db.orders) && TotalsOk(db)
    ensures TotalsOk(Step(db, a))
  {
    match a
    case DoPlaceOrder(user, req, now, millis) =>
      if PlaceOrder(db, user, req, now, millis).Success? {
        PlaceOrderKeepsTotals(db, user, req, now, millis);
      }
    case DoAutoRenew(s, now, millis) => AutoRenewKeepsTotals(db, s, now, millis);
    case DoPayment(n, now) =>
      PaymentKeepsLength(db, n, now);
      StepKeepsBook(db, a);
      StepKeepsFamily(db, a);
      EvolvedTotals(db, Step(db, a));
    case _ =>
      StepFrame(db, a);
      StepKeepsFamily(db, a);
  }

  /** The bot renews, at a negative price, a subscription of a user invited by `u`. */
  predicate PaysBack(db: DB, a: Action, u: nat) {
    && a.DoAutoRenew? && Renews(db, a.sub, a.now, a.millis)
    && db.users[db.subs[a.sub].user].parent == Some(u) && db.products[db.subs[a.sub].product].price < 0
  }

  lemma RenewalAddsPrice(db: DB, s: nat, now: Time, millis: int, u: nat)
    requires Renews(db, s, now, millis)
    ensures var d := Step(db, DoAutoRenew(s, now, millis));
            PaidTotal(d.users, d.orders, u) == PaidTotal(db.users, db.orders, u)
              + if db.users[db.subs[s].user].parent == Some(u) then db.products[db.subs[s].product].price else 0
  {
    var d := Step(db, DoAutoRenew(s, now, millis));
    RenewsShape(db, s, now, millis);
    assert d.orders[..|db.orders|] == db.orders;
    PaidFrame(db.users, d.users, db.orders, u);
  }

  lemma {:induction false} PaidFrame(users: seq<User>, users': seq<User>, orders: seq<Order>, u: nat)
    requires SameFamily(users, users') && |users'| == |users|
    ensures PaidTotal(users', orders, u) == PaidTotal(users, orders, u)
  {
    if orders != [] {
      PaidFrame(users, users', orders[..|orders| - 1], u);
    }
  }

  lemma {:induction false} PaidGrows(users: seq<User>, users': seq<User>, orders: seq<Order>, orders': seq<Order>, u: nat)
    requires SameFamily(users, users') && |orders| <= |orders'|
    requires forall i :: 0 <= i < |orders| && orders[i].status == Completed ==> orders'[i] == orders[i]
    requires forall i :: 0 <= i < |orders'| && orders'[i].total < 0 ==>
               i < |orders| && orders[i].status == Completed && orders[i].user < |users|
    ensures PaidTotal(users, orders, u) <= PaidTotal(users', orders', u)
    decreases |orders'|
  {
    if orders' != [] {
      var n := |orders'| - 1;
      if |orders| == |orders'| {
        PaidGrows(users, users', orders[..n], orders'[..n], u);
      } else {
        PaidGrows(users, users', orders, orders'[..n], u);
      }
    }
  }

  /** One step lowers what a user's invitees have paid in exactly one case. */
  lemma PaidFallsExactlyWhen(db: DB, a: Action, u: nat)
    requires OrdersOk(db.orders) && TotalsOk(db)
    ensures var d := Step(db, a);
            PaidTotal(d.users, d.orders, u) < PaidTotal(db.users, db.orders, u) <==> PaysBack(db, a, u)
  {
    if a.DoAutoRenew? {
      if Renews(db, a.sub, a.now, a.millis) {
        RenewalAddsPrice(db, a.sub, a.now, a.millis, u);
      } else {
        NoRenewalNoChange(db, a.sub, a.now, a.millis);
      }
    } else {
      OtherStepsOnlyAdd(db, a, u);
    }
  }

  lemma OtherStepsOnlyAdd(db: DB, a: Action, u: nat)
    requires OrdersOk(db.orders) && TotalsOk(db) && !a.DoAutoRenew?
    ensures var d := Step(db, a); PaidTotal(db.users, db.orders, u) <= PaidTotal(d.users, d.orders, u)
  {
    var d := Step(db, a);
    StepKeepsFamily(db, a);
    StepKeepsBook(db, a);
    NoNewNegative(db, a);
    NegativesAreOld(db, d.orders);
    CompletedStay(db.orders, d.orders);
    PaidGrows(db.users, d.users, db.orders, d.orders, u);
  }

  lemma CompletedStay(orders: seq<Order>, orders': seq<Order>)
    requires BookEvolves(orders, orders')
    ensures forall i :: 0 <= i < |orders| && orders[i].status == Completed ==> orders'[i] == orders[i]
  {
    forall i | 0 <= i < |orders| && orders[i].status == Completed ensures orders'[i] == orders[i] {
      assert Evolves(orders[i], orders'[i]);
    }
  }

  lemma NegativesAreOld(db: DB, orders': seq<Order>)
    requires TotalsOk(db) && BookEvolves(db.orders, orders')
    requires forall i :: |db.orders| <= i < |orders'| ==> orders'[i].total >= 0
    ensures forall i :: 0 <= i < |orders'| && orders'[i].total < 0 ==>
              i < |db.orders| && db.orders[i].status == Completed && db.orders[i].user < |db.users|
  {
    forall i | 0 <= i < |db.orders| ensures orders'[i].total == db.orders[i].total {
      assert Evolves(db.orders[i], orders'[i]);
    }
  }

  lemma NoNewNegative(db: DB, a: Action)
    requires OrdersOk(db.orders) && TotalsOk(db) && !a.DoAutoRenew?
    ensures forall i :: |db.orders| <= i < |Step(db, a).orders| ==> Step(db, a).orders[i].total >= 0
  {
    match a
    case DoPlaceOrder(user, req, now, millis) =>
      if PlaceOrder(db, user, req, now, millis).Success? {
        PlacedTotal(db, user, req, now, millis);
      }
    case DoPayment(n, now) => PaymentKeepsLength(db, n, now);
    case DoAutoRenew(_, _, _) =>
    case _ => StepFrame(db, a);
  }

  ghost predicate NeverPaysBack(db: DB, actions: seq<Action>, u: nat)
    decreases |actions|
  {
    actions != [] ==> !PaysBack(db, actions[0], u) && NeverPaysBack(Step(db, actions[0]), actions[1..], u)
  }

  lemma {:induction false} PaidNeverFalls(db: DB, actions: seq<Action>, u: nat)
    requires OrdersOk(db.orders) && TotalsOk(db) && NeverPaysBack(db, actions, u)
    ensures var d := Run(db, actions); PaidTotal(db.users, db.orders, u) <= PaidTotal(d.users, d.orders, u)
    decreases |actions|
  {
    if actions != [] {
      PaidFallsExactlyWhen(db, actions[0], u);
      StepKeepsTotals(db, actions[0]);
      StepKeepsBook(db, actions[0]);
      PaidNeverFalls(Step(db, actions[0]), actions[1..], u);
    }
  }

  lemma {:induction false} RunKeepsTotals(db: DB, actions: seq<Action>)
    requires OrdersOk(db.orders) && TotalsOk(db)
    ensures OrdersOk(Run(db, actions).orders) && TotalsOk(Run(db, actions))
    decreases |actions|
  {
    if actions != [] {
      StepKeepsTotals(db, actions[0]);
      StepKeepsBook(db, actions[0]);
      RunKeepsTotals(Step(db, actions[0]), actions[1..]);
    }
  }

  /**
   From any state the shop can reach, whatever happens next, the tier a user qualifies for never falls while the
   tiers stay the same, unless the bot renews a subscription of an invitee at a negative price.
   */
  lemma BestTierNeverFalls(shop: DB, before: seq<Action>, actions: seq<Action>, tiers: seq<Tier>, u: nat)
    requires Initial(shop) && NeverPaysBack(Run(shop, before), actions, u)
    ensures var db := Run(shop, before);
            var d := Run(db, actions);
            var b := BestOf(tiers, InviteCount(db.users, u), PaidTotal(db.users, db.orders, u));
            var b' := BestOf(tiers, InviteCount(d.users, u), PaidTotal(d.users, d.orders, u));
            b.Some? ==> b'.Some? && !Above(b.value, b'.value)
  {
    var db := Run(shop, before);
    var d := Run(db, actions);
    RunKeepsTotals(shop, before);
    RunKeepsFamily(db, actions);
    InvitesGrow(db.users, d.users, u);
    PaidNeverFalls(db, actions, u);
    BestIsMonotone(tiers, InviteCount(db.users, u), PaidTotal(db.users, db.orders, u),
                   InviteCount(d.users, u), PaidTotal(d.users, d.orders, u));
  }
}
