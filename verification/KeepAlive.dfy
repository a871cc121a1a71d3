/**
 What keeps a subscription alive: when automatic renewal can still reach it, and which runs of the bot it needs.
 */
module KeepAlive {
  import opened Common
  import opened Billing
  import opened Tables
  import opened Engine
  import opened Shapes
  import opened Moves
  import opened Ledger
  import opened ExactlyOnce
  import opened AutoRenewPhase
  import opened Clock
  import opened UpgradeCharge

  // Out of step for good

  /** How far expiry is from being whole periods after the end of the running period. */
  function Offset(sub: Subscription, days: int): int
    requires days > 0
  {
    (sub.expiresAt - sub.periodEnd) % Span(days)
  }

  predicate Reactivates(sub: Subscription, m: Move) {
    m.Regrade? && sub.status == Lapsed
  }

  /** The time by which a renewal missed expiry. */
  function LateGap(sub: Subscription, m: Move): int {
    if LateRenewal(sub, m) then m.now - sub.expiresAt else 0
  }

  /** Nothing but a late renewal or a reactivation moves the offset, and a late renewal moves it by its gap. */
  lemma MoveShiftsOffset(sub: Subscription, m: Move, days: int)
    requires days > 0 && UsesDays(m, days) && !Reactivates(sub, m)
    ensures Offset(Moved(sub, m), days) == (sub.expiresAt - sub.periodEnd + LateGap(sub, m)) % Span(days)
  {
    var left := sub.expiresAt - sub.periodEnd;
    match m
    case Extend(order, o, p, now) =>
      ModPlus(left + LateGap(sub, m), Max(order.quantity, 1), Span(days));
      ExtendedBy(sub, order, o, p, now);
    case Roll(_) => ModPlus(left, -1, Span(days));
    case _ =>
  }

  lemma ExtendedBy(sub: Subscription, order: Order, o: nat, p: Product, now: Time)
    ensures RenewedSub(sub, order, o, p, now).expiresAt
         == sub.expiresAt + Max(now - sub.expiresAt, 0) + Span(p.Days()) * Max(order.quantity, 1)
  {
  }

  ghost predicate NeverReactivated(db: DB, actions: seq<Action>, s: nat)
    requires s < |db.subs|
    decreases |actions|
  {
    actions != [] ==>
      && !Reactivates(db.subs[s], MoveOf(db, actions[0], s))
      && s < |Step(db, actions[0]).subs| && NeverReactivated(Step(db, actions[0]), actions[1..], s)
  }

  lemma {:induction false} OffsetStays(db: DB, actions: seq<Action>, s: nat, days: int)
    requires days > 0 && s < |db.subs|
    requires SteadyRun(db, actions, s, days) && NeverReactivated(db, actions, s)
    ensures s < |Run(db, actions).subs|
    ensures Offset(Run(db, actions).subs[s], days) == Offset(db.subs[s], days)
    decreases |actions|
  {
    if actions != [] {
      StepKeepsOffset(db, actions[0], s, days);
      OffsetStays(Step(db, actions[0]), actions[1..], s, days);
    }
  }

  lemma StepKeepsOffset(db: DB, a: Action, s: nat, days: int)
    requires days > 0 && s < |db.subs|
    requires Steady(db.subs[s], MoveOf(db, a, s), days) && !Reactivates(db.subs[s], MoveOf(db, a, s))
    ensures s < |Step(db, a).subs| && Offset(Step(db, a).subs[s], days) == Offset(db.subs[s], days)
  {
    StepMoves(db, a, s);
    OnTimeMoveKeepsOffset(db.subs[s], MoveOf(db, a, s), days);
  }

  lemma OnTimeMoveKeepsOffset(sub: Subscription, m: Move, days: int)
    requires days > 0 && UsesDays(m, days) && !Reactivates(sub, m) && !LateRenewal(sub, m)
    ensures Offset(Moved(sub, m), days) == Offset(sub, days)
  {
    MoveShiftsOffset(sub, m, days);
  }

  lemma OffsetBlocksRenewal(db: DB, s: nat, days: int, now: Time, millis: int)
    requires days > 0 && s < |db.subs| && Offset(db.subs[s], days) != 0
    ensures !Renews(db, s, now, millis) && Step(db, DoAutoRenew(s, now, millis)) == db
  {
    assert 0 % Span(days) == 0;
    NoRenewalNoChange(db, s, now, millis);
  }

  /**
   With one period length for the subscription, once a renewal of an aligned subscription is paid late by a gap that is not whole
   periods, the bot never renews that subscription again, through any run without a further late renewal and
   without a reactivation.  After a gap of whole periods the subscription is aligned as before.
   */
  lemma LateRenewalEndsAutoRenewal(db: DB, a: Action, s: nat, days: int, actions: seq<Action>, now: Time, millis: int)
    requires days > 0 && s < |db.subs| && Aligned(db.subs[s], days)
    requires UsesDays(MoveOf(db, a, s), days) && LateRenewal(db.subs[s], MoveOf(db, a, s))
    ensures s < |Step(db, a).subs|
    ensures var d1 := Step(db, a);
            var gap := LateGap(db.subs[s], MoveOf(db, a, s));
            && (gap % Span(days) == 0 ==> Aligned(d1.subs[s], days))
            && (gap % Span(days) != 0 && SteadyRun(d1, actions, s, days) && NeverReactivated(d1, actions, s) ==>
                  !Renews(Run(d1, actions), s, now, millis))
  {
    var d1 := Step(db, a);
    LateStepShifts(db, a, s, days);
    if Offset(d1.subs[s], days) != 0 && SteadyRun(d1, actions, s, days) && NeverReactivated(d1, actions, s) {
      MisalignedIsNeverRenewed(d1, actions, s, days, now, millis);
    }
  }

  lemma LateStepShifts(db: DB, a: Action, s: nat, days: int)
    requires days > 0 && s < |db.subs| && Aligned(db.subs[s], days)
    requires UsesDays(MoveOf(db, a, s), days) && LateRenewal(db.subs[s], MoveOf(db, a, s))
    ensures s < |Step(db, a).subs|
    ensures var gap := LateGap(db.subs[s], MoveOf(db, a, s));
            && Offset(Step(db, a).subs[s], days) == gap % Span(days)
            && (Aligned(Step(db, a).subs[s], days) <==> gap % Span(days) == 0)
  {
    StepMoves(db, a, s);
    LateRenewalShifts(db.subs[s], MoveOf(db, a, s), days);
  }

  lemma LateRenewalShifts(sub: Subscription, m: Move, days: int)
    requires days > 0 && Aligned(sub, days) && Legal(sub, m) && UsesDays(m, days) && LateRenewal(sub, m)
    ensures Offset(Moved(sub, m), days) == LateGap(sub, m) % Span(days)
    ensures Aligned(Moved(sub, m), days) <==> LateGap(sub, m) % Span(days) == 0
  {
    MoveKeepsAlignmentExactlyWhen(sub, m, days);
    MoveShiftsOffset(sub, m, days);
    GapShows(sub.expiresAt - sub.periodEnd, LateGap(sub, m), Span(days));
  }

  /** A subscription that is out of step stays so, and is never renewed by the bot. */
  lemma MisalignedIsNeverRenewed(db: DB, actions: seq<Action>, s: nat, days: int, now: Time, millis: int)
    requires days > 0 && s < |db.subs| && Offset(db.subs[s], days) != 0
    requires SteadyRun(db, actions, s, days) && NeverReactivated(db, actions, s)
    ensures var d := Run(db, actions);
            !Renews(d, s, now, millis) && Step(d, DoAutoRenew(s, now, millis)) == d
  {
    OffsetStays(db, actions, s, days);
    OffsetBlocksRenewal(Run(db, actions), s, days, now, millis);
  }

  lemma GapShows(left: int, gap: int, d: int)
    requires d > 0 && left % d == 0
    ensures (left + gap) % d == gap % d
  {
    ModPlus(gap, left / d, d);
    assert left == d * (left / d);
  }

  // The runs a subscription needs

  datatype BotStep = RenewStep(at: Time) | ResetStep(at: Time) | ExpiryStep(at: Time)

  datatype Stage = BeforeRenewal | BeforeReset | BeforeExpiry

  function BotStepOf(a: Action, s: nat): Option<BotStep> {
    match a
    case DoAutoRenew(r, now, _) => if r == s then Some(RenewStep(now)) else None
    case DoPeriodReset(r, now) => if r == s then Some(ResetStep(now)) else None
    case DoExpire(r, now) => if r == s then Some(ExpiryStep(now)) else None
    case _ => None
  }

  /** The bot's handlers of `s` in a run, in the order they come. */
  function BotStepsOf(actions: seq<Action>, s: nat): seq<BotStep> {
    if actions == [] then []
    else
      var rest := BotStepsOf(actions[1..], s);
      match BotStepOf(actions[0], s) case None => rest case Some(b) => [b] + rest
  }

  /** The handlers still to come: what is left of the run at `times[0]`, and all of the later runs. */
  function Ahead(stage: Stage, times: seq<Time>): seq<BotStep>
    requires stage.BeforeRenewal? || times != []
    decreases |times|
  {
    if times == [] then []
    else
      var n, later := times[0], Ahead(BeforeRenewal, times[1..]);
      match stage
      case BeforeRenewal => [RenewStep(n), ResetStep(n), ExpiryStep(n)] + later
      case BeforeReset => [ResetStep(n), ExpiryStep(n)] + later
      case BeforeExpiry => [ExpiryStep(n)] + later
  }

  ghost predicate RunInWindow(times: seq<Time>, b: Time) {
    exists j :: 0 <= j < |times| && b - AUTO_RENEW_LEAD <= times[j] < b
  }

  /** A run after the period has begun and a later one in the lead window before it ends. */
  ghost predicate TwoRunsIn(times: seq<Time>, periodEnd: Time, k: nat, span: int) {
    exists i, j :: 0 <= i < j < |times|
                   && Boundary(periodEnd, k, span) < times[i]
                   && Boundary(periodEnd, k + 1, span) - AUTO_RENEW_LEAD <= times[j] < Boundary(periodEnd, k + 1, span)
  }

  /** Up to the last run, the running period sees a run in its lead window if it needs one, and each later period two. */
  ghost predicate Tended(periodEnd: Time, extended: bool, times: seq<Time>, span: int) {
    && Sorted(times)
    && (times != [] ==>
          var last := times[|times| - 1];
          && (!extended && periodEnd <= last ==> RunInWindow(times, periodEnd))
          && forall k: nat :: Boundary(periodEnd, k + 1, span) <= last ==> TwoRunsIn(times, periodEnd, k, span))
  }

  lemma TailIsSorted(times: seq<Time>)
    requires Sorted(times) && times != []
    ensures Sorted(times[1..])
    ensures forall i :: 0 <= i < |times| ==> times[0] <= times[i]
  {
  }

  lemma TwoRunsInTail(times: seq<Time>, periodEnd: Time, k: nat, span: int)
    requires times != [] && TwoRunsIn(times, periodEnd, k, span) && times[0] <= Boundary(periodEnd, k, span)
    ensures TwoRunsIn(times[1..], periodEnd, k, span)
  {
    var i, j :| 0 <= i < j < |times|
                && Boundary(periodEnd, k, span) < times[i]
                && Boundary(periodEnd, k + 1, span) - AUTO_RENEW_LEAD <= times[j] < Boundary(periodEnd, k + 1, span);
    assert times[1..][i - 1] == times[i] && times[1..][j - 1] == times[j];
  }

  /** A run before the period ends: it may be the one in the lead window. */
  lemma TendedAfterEarlyRun(periodEnd: Time, extended: bool, times: seq<Time>, span: int)
    requires span > 0 && times != [] && Tended(periodEnd, extended, times, span) && times[0] <= periodEnd
    ensures Tended(periodEnd, extended || periodEnd - AUTO_RENEW_LEAD <= times[0] < periodEnd, times[1..], span)
  {
    var rest := times[1..];
    TailIsSorted(times);
    if rest != [] {
      var last := rest[|rest| - 1];
      if !extended && !(periodEnd - AUTO_RENEW_LEAD <= times[0] < periodEnd) && periodEnd <= last {
        var j :| 0 <= j < |times| && periodEnd - AUTO_RENEW_LEAD <= times[j] < periodEnd;
        assert rest[j - 1] == times[j];
      }
      forall k: nat | Boundary(periodEnd, k + 1, span) <= last ensures TwoRunsIn(rest, periodEnd, k, span) {
        BoundaryGrows(periodEnd, k, span);
        TwoRunsInTail(times, periodEnd, k, span);
      }
    }
  }

  /** The first run after the period ends: expiry lies ahead, the run is in the next period, and that one is tended. */
  lemma TendedAfterLateRun(periodEnd: Time, extended: bool, times: seq<Time>, span: int)
    requires span > 0 && times != [] && Tended(periodEnd, extended, times, span) && periodEnd < times[0]
    ensures extended && times[0] < periodEnd + span
    ensures Tended(periodEnd + span, false, times[1..], span)
  {
    var rest := times[1..];
    var next := periodEnd + span;
    TailIsSorted(times);
    BoundaryGrows(periodEnd, 0, span);
    assert times[0] <= times[|times| - 1];
    if next <= times[|times| - 1] {
      assert Boundary(periodEnd, 0 + 1, span) == next;
      assert TwoRunsIn(times, periodEnd, 0, span);
      var i, j :| 0 <= i < j < |times| && periodEnd < times[i] && next - AUTO_RENEW_LEAD <= times[j] < next;
      assert rest[j - 1] == times[j];
    }
    if rest != [] {
      var last := rest[|rest| - 1];
      forall k: nat | Boundary(next, k + 1, span) <= last ensures TwoRunsIn(rest, next, k, span) {
        BoundaryGrows(periodEnd, k, span);
        BoundaryGrows(periodEnd, k + 1, span);
        BoundaryGrows(next, k, span);
        assert TwoRunsIn(times, periodEnd, k + 1, span);
        TwoRunsInTail(times, periodEnd, k + 1, span);
        BoundaryGrows(periodEnd, k + 2, span);
        ShiftTwoRuns(rest, periodEnd, k, span);
      }
    }
  }

  lemma ShiftTwoRuns(times: seq<Time>, periodEnd: Time, k: nat, span: int)
    requires span > 0 && TwoRunsIn(times, periodEnd, k + 1, span)
    ensures TwoRunsIn(times, periodEnd + span, k, span)
  {
    BoundaryGrows(periodEnd, k, span);
    BoundaryGrows(periodEnd, k + 1, span);
  }

  lemma ExtendedIsTended(periodEnd: Time, extended: bool, extended': bool, times: seq<Time>, span: int)
    requires Tended(periodEnd, extended, times, span) && (extended ==> extended')
    ensures Tended(periodEnd, extended', times, span)
  {
  }

  /** A live, aligned subscription for which the runs to come are enough. */
  ghost predicate OnTrack(sub: Subscription, stage: Stage, times: seq<Time>, days: int)
    requires days > 0
  {
    var span := Span(days);
    && sub.status == Live && Aligned(sub, days)
    && match stage
       case BeforeRenewal => Tended(sub.periodEnd, sub.periodEnd < sub.expiresAt, times, span)
       case BeforeReset =>
         && times != []
         && if sub.periodEnd < times[0]
            then sub.periodEnd < sub.expiresAt && times[0] < sub.periodEnd + span && Tended(sub.periodEnd + span, false, times[1..], span)
            else Tended(sub.periodEnd, sub.periodEnd < sub.expiresAt, times[1..], span)
       case BeforeExpiry =>
         times != [] && times[0] <= sub.periodEnd && Tended(sub.periodEnd, sub.periodEnd < sub.expiresAt, times[1..], span)
  }

  /** What the bot needs to find: the product on record, and for a renewal that is due its user, funds and free numbers. */
  predicate Provided(db: DB, a: Action, s: nat)
    requires s < |db.subs|
  {
    && db.subs[s].product in db.products
    && match a
       case DoAutoRenew(r, now, millis) =>
         r == s && RenewalDue(db.subs[s], now) ==>
           Due(db, s, now) && db.users[db.subs[s].user].wallet >= Price(db, s) && !Taken(db, s, now, millis)
       case _ => true
  }

  ghost predicate ProvidedRun(db: DB, actions: seq<Action>, s: nat)
    decreases |actions|
  {
    actions != [] ==> s < |db.subs| && Provided(db, actions[0], s) && ProvidedRun(Step(db, actions[0]), actions[1..], s)
  }

  /** Live now and after every step of the run. */
  ghost predicate StaysLive(db: DB, actions: seq<Action>, s: nat)
    decreases |actions|
  {
    && s < |db.subs| && db.subs[s].status == Live
    && (actions != [] ==> StaysLive(Step(db, actions[0]), actions[1..], s))
  }

  /** The paid renewals, live upgrades and add-ons between the bot's handlers. */
  lemma OtherMoveStaysOnTrack(sub: Subscription, m: Move, stage: Stage, times: seq<Time>, days: int)
    requires days > 0 && OnTrack(sub, stage, times, days)
    requires Legal(sub, m) && UsesDays(m, days) && !LateRenewal(sub, m) && !m.Roll? && !m.Lapse?
    ensures OnTrack(Moved(sub, m), stage, times, days)
  {
    MoveKeepsAlignmentExactlyWhen(sub, m, days);
    var sub' := Moved(sub, m);
    if m.Extend? {
      SpanGrows(Max(m.now, sub.expiresAt), m.product.Days(), Max(m.order.quantity, 1));
    }
    assert sub'.periodEnd == sub.periodEnd && sub'.expiresAt >= sub.expiresAt && sub'.status == Live;
  }

  lemma RenewalStaysOnTrack(sub: Subscription, sub': Subscription, times: seq<Time>, days: int)
    requires days > 0 && times != [] && OnTrack(sub, BeforeRenewal, times, days)
    requires sub'.status == Live && Aligned(sub', days) && sub'.periodEnd == sub.periodEnd
    requires sub'.expiresAt >= sub.expiresAt
    requires RenewalDue(sub, times[0]) ==> sub'.expiresAt > sub.expiresAt
    ensures OnTrack(sub', BeforeReset, times, days)
  {
    var extended := sub.periodEnd < sub.expiresAt;
    if sub.periodEnd < times[0] {
      TendedAfterLateRun(sub.periodEnd, extended, times, Span(days));
    } else {
      TendedAfterEarlyRun(sub.periodEnd, extended, times, Span(days));
    }
  }

  lemma ResetStaysOnTrack(sub: Subscription, times: seq<Time>, days: int)
    requires days > 0 && times != [] && OnTrack(sub, BeforeReset, times, days)
    ensures var sub' := if ResetDue(sub, times[0]) then ResetSubscription(sub, days) else sub;
            OnTrack(sub', BeforeExpiry, times, days)
  {
    if ResetDue(sub, times[0]) {
      RollAlignment(sub.expiresAt - sub.periodEnd, Span(days));
      ExtendedIsTended(sub.periodEnd + Span(days), false, sub.periodEnd + Span(days) < sub.expiresAt, times[1..], Span(days));
    }
  }

  function NextStage(stage: Stage): Stage {
    match stage case BeforeRenewal => BeforeReset case BeforeReset => BeforeExpiry case BeforeExpiry => BeforeRenewal
  }

  lemma OtherStepStaysOnTrack(db: DB, a: Action, s: nat, stage: Stage, times: seq<Time>, days: int)
    requires days > 0 && s < |db.subs| && BotStepOf(a, s).None?
    requires Steady(db.subs[s], MoveOf(db, a, s), days) && OnTrack(db.subs[s], stage, times, days)
    ensures s < |Step(db, a).subs| && OnTrack(Step(db, a).subs[s], stage, times, days)
  {
    StepMoves(db, a, s);
    OtherMoveStaysOnTrack(db.subs[s], MoveOf(db, a, s), stage, times, days);
  }

  lemma RenewStepStaysOnTrack(db: DB, s: nat, millis: int, times: seq<Time>, days: int)
    requires Reconciled(db) && Agrees(db.users, db.flows)
    requires days > 0 && s < |db.subs| && times != []
    requires UsesDays(MoveOf(db, DoAutoRenew(s, times[0], millis), s), days)
    requires Provided(db, DoAutoRenew(s, times[0], millis), s)
    requires OnTrack(db.subs[s], BeforeRenewal, times, days)
    ensures var d := Step(db, DoAutoRenew(s, times[0], millis));
            s < |d.subs| && OnTrack(d.subs[s], BeforeReset, times, days)
  {
    var a := DoAutoRenew(s, times[0], millis);
    var sub, m := db.subs[s], MoveOf(db, a, s);
    StepMoves(db, a, s);
    RenewsExactlyWhen(db, s, times[0], millis);
    MoveKeepsAlignmentExactlyWhen(sub, m, days);
    if m.Extend? {
      SpanGrows(Max(m.now, sub.expiresAt), m.product.Days(), Max(m.order.quantity, 1));
    }
    RenewalStaysOnTrack(sub, Moved(sub, m), times, days);
  }

  lemma ResetStepStaysOnTrack(db: DB, s: nat, times: seq<Time>, days: int)
    requires days > 0 && s < |db.subs| && times != []
    requires UsesDays(MoveOf(db, DoPeriodReset(s, times[0]), s), days)
    requires Provided(db, DoPeriodReset(s, times[0]), s) && OnTrack(db.subs[s], BeforeReset, times, days)
    ensures var d := Step(db, DoPeriodReset(s, times[0]));
            s < |d.subs| && OnTrack(d.subs[s], BeforeExpiry, times, days)
  {
    ResetStaysOnTrack(db.subs[s], times, days);
  }

  lemma ExpiryStepStaysOnTrack(db: DB, s: nat, times: seq<Time>, days: int)
    requires days > 0 && s < |db.subs| && times != [] && OnTrack(db.subs[s], BeforeExpiry, times, days)
    ensures var d := Step(db, DoExpire(s, times[0]));
            s < |d.subs| && OnTrack(d.subs[s], BeforeRenewal, times[1..], days)
  {
  }

  /** One step of the shop, whether a handler of `s` or anything else. */
  lemma StepStaysOnTrack(db: DB, a: Action, s: nat, stage: Stage, times: seq<Time>, days: int)
    requires Reconciled(db) && Agrees(db.users, db.flows)
    requires days > 0 && s < |db.subs|
    requires Steady(db.subs[s], MoveOf(db, a, s), days) && Provided(db, a, s)
    requires OnTrack(db.subs[s], stage, times, days)
    requires stage.BeforeRenewal? || times != []
    requires BotStepOf(a, s).Some? ==> times != [] && BotStepOf(a, s).value == Ahead(stage, times)[0]
    ensures s < |Step(db, a).subs|
    ensures var sub' := Step(db, a).subs[s];
            if BotStepOf(a, s).None? then OnTrack(sub', stage, times, days)
            else OnTrack(sub', NextStage(stage), LeftAfter(stage, times), days)
  {
    if BotStepOf(a, s).None? {
      OtherStepStaysOnTrack(db, a, s, stage, times, days);
    } else {
      match stage
      case BeforeRenewal => RenewStepStaysOnTrack(db, s, a.millis, times, days);
      case BeforeReset => ResetStepStaysOnTrack(db, s, times, days);
      case BeforeExpiry => ExpiryStepStaysOnTrack(db, s, times, days);
    }
  }

  lemma {:induction false} RunStaysOnTrack(db: DB, actions: seq<Action>, s: nat, stage: Stage, times: seq<Time>, days: int)
    requires Reconciled(db) && Agrees(db.users, db.flows)
    requires days > 0 && s < |db.subs| && OnTrack(db.subs[s], stage, times, days)
    requires stage.BeforeRenewal? || times != []
    requires BotStepsOf(actions, s) == Ahead(stage, times)
    requires SteadyRun(db, actions, s, days) && ProvidedRun(db, actions, s)
    ensures StaysLive(db, actions, s)
    decreases |actions|
  {
    if actions != [] {
      var a, rest := actions[0], actions[1..];
      HandlerIsNext(actions, s, stage, times);
      StepStaysOnTrack(db, a, s, stage, times, days);
      StepKeepsReconciled(db, a);
      StepKeepsAgreement(db, a);
      if BotStepOf(a, s).None? {
        RunStaysOnTrack(Step(db, a), rest, s, stage, times, days);
      } else {
        RunStaysOnTrack(Step(db, a), rest, s, NextStage(stage), LeftAfter(stage, times), days);
      }
    }
  }

  function LeftAfter(stage: Stage, times: seq<Time>): seq<Time> {
    if stage.BeforeExpiry? && times != [] then times[1..] else times
  }

  /** Either the first step is something else, or it is the handler that comes next. */
  lemma HandlerIsNext(actions: seq<Action>, s: nat, stage: Stage, times: seq<Time>)
    requires actions != [] && (stage.BeforeRenewal? || times != [])
    requires BotStepsOf(actions, s) == Ahead(stage, times)
    ensures var b := BotStepOf(actions[0], s);
            if b.None? then BotStepsOf(actions[1..], s) == Ahead(stage, times)
            else times != [] && b.value == Ahead(stage, times)[0]
                 && BotStepsOf(actions[1..], s) == Ahead(NextStage(stage), LeftAfter(stage, times))
  {
    var b := BotStepOf(actions[0], s);
    if b.Some? {
      assert BotStepsOf(actions, s)[0] == b.value;
      assert BotStepsOf(actions[1..], s) == BotStepsOf(actions, s)[1..];
    }
  }

  /**
   An aligned subscription never lapses, whatever else goes on in the shop, as long as: it is renewed
   and reset by one period length and no renewal is paid late; the running period, unless expiry is later, sees a run of the bot in its
   lead window, and each period after it a run and then another in the lead window; and whenever a renewal is
   due the bot finds the product, the user, the funds and free numbers.
   */
  lemma TendedSubscriptionNeverLapses(db: DB, actions: seq<Action>, s: nat, days: int, times: seq<Time>)
    requires Reconciled(db) && Agrees(db.users, db.flows)
    requires days > 0 && s < |db.subs| && db.subs[s].status == Live && Aligned(db.subs[s], days)
    requires Tended(db.subs[s].periodEnd, db.subs[s].periodEnd < db.subs[s].expiresAt, times, Span(days))
    requires BotStepsOf(actions, s) == Ahead(BeforeRenewal, times)
    requires SteadyRun(db, actions, s, days) && ProvidedRun(db, actions, s)
    ensures StaysLive(db, actions, s)
  {
    RunStaysOnTrack(db, actions, s, BeforeRenewal, times, days);
  }

  function BotRun(s: nat, now: Time, millis: int): seq<Action> {
    [DoAutoRenew(s, now, millis), DoPeriodReset(s, now), DoExpire(s, now)]
  }

  /** Handlers of one subscription in turn. */
  lemma BotRunIs(db: DB, s: nat, now: Time, millis: int)
    ensures Run(db, BotRun(s, now, millis))
         == Step(Step(Step(db, DoAutoRenew(s, now, millis)), DoPeriodReset(s, now)), DoExpire(s, now))
  {
    RunOne(db, DoAutoRenew(s, now, millis), [DoPeriodReset(s, now), DoExpire(s, now)]);
    var d1 := Step(db, DoAutoRenew(s, now, millis));
    RunOne(d1, DoPeriodReset(s, now), [DoExpire(s, now)]);
    RunOne(Step(d1, DoPeriodReset(s, now)), DoExpire(s, now), []);
    assert BotRun(s, now, millis) == [DoAutoRenew(s, now, millis)] + [DoPeriodReset(s, now), DoExpire(s, now)];
    assert [DoPeriodReset(s, now), DoExpire(s, now)] == [DoPeriodReset(s, now)] + [DoExpire(s, now)];
    assert [DoExpire(s, now)] == [DoExpire(s, now)] + [];
  }

  lemma RunOne(db: DB, a: Action, rest: seq<Action>)
    ensures Run(db, [a] + rest) == Run(Step(db, a), rest)
  {
    assert ([a] + rest)[1..] == rest;
  }

  /** The first of the two runs finds the last period not begun, and begins it. */
  lemma FirstRunResets(db: DB, s: nat, days: int, now: Time, millis: int)
    requires s < |db.subs| && db.subs[s].status == Live && days > 0
    requires db.subs[s].product in db.products && db.products[db.subs[s].product].Days() == days
    requires db.subs[s].expiresAt == db.subs[s].periodEnd + Span(days)
    requires db.subs[s].periodEnd < now < db.subs[s].expiresAt
    ensures var d := Run(db, BotRun(s, now, millis));
            s < |d.subs| && d.subs[s] == ResetSubscription(db.subs[s], days) && d.users == db.users
  {
    BotRunIs(db, s, now, millis);
    NoRenewalNoChange(db, s, now, millis);
    var d := Step(db, DoPeriodReset(s, now));
    BotFrame(db, DoPeriodReset(s, now));
    assert d.subs[s] == ResetSubscription(db.subs[s], days);
    assert Step(d, DoExpire(s, now)) == d;
  }

  /** A run after expiry ends the last period. */
  lemma SecondRunExpires(db: DB, s: nat, now: Time, millis: int)
    requires s < |db.subs| && db.subs[s].status == Live
    requires db.subs[s].expiresAt <= db.subs[s].periodEnd && db.subs[s].expiresAt < now
    ensures var d := Run(db, BotRun(s, now, millis));
            s < |d.subs| && d.subs[s].status == Lapsed && d.users == db.users
  {
    BotRunIs(db, s, now, millis);
    NoRenewalNoChange(db, s, now, millis);
    assert Step(db, DoPeriodReset(s, now)) == db;
    BotFrame(db, DoExpire(s, now));
  }

  lemma OnePeriodIsAligned(sub: Subscription, days: int)
    requires days > 0 && sub.expiresAt == sub.periodEnd + Span(days)
    ensures Aligned(sub, days)
  {
    ModPlus(0, 1, Span(days));
  }

  /**
   A run in the lead window is not enough when it is the first of the last period, whatever the funds: the bot
   renews before it resets, finds that the last period has not begun, and the next run comes too late.
   */
  lemma OneRunInTheWindowIsNotEnough(db: DB, s: nat, days: int, first: Time, second: Time, millis: int, millis': int)
    requires s < |db.subs| && db.subs[s].status == Live && days > 0
    requires db.subs[s].product in db.products && db.products[db.subs[s].product].Days() == days
    requires db.subs[s].expiresAt == db.subs[s].periodEnd + Span(days)
    requires db.subs[s].expiresAt - AUTO_RENEW_LEAD <= first < db.subs[s].expiresAt < second
    requires db.subs[s].periodEnd < first
    ensures Aligned(db.subs[s], days) && RunInWindow([first, second], db.subs[s].expiresAt)
    ensures var d := Run(Run(db, BotRun(s, first, millis)), BotRun(s, second, millis'));
            s < |d.subs| && d.subs[s].status == Lapsed && d.users == db.users
  {
    OnePeriodIsAligned(db.subs[s], days);
    assert [first, second][0] == first;
    var d1 := Run(db, BotRun(s, first, millis));
    FirstRunResets(db, s, days, first, millis);
    SecondRunExpires(d1, s, second, millis');
  }
}
