/** The plan of an organisation: a fold over Stripe webhook deliveries with dedup, and the grace-period worker. */
module Billing {
  import opened Wrappers

  datatype Plan = Free | Pro | PastDue | CancelledPlan

  /** The billing columns of one organisation. Times are seconds. */
  datatype Org = Org(
    customer: string, plan: Plan, subscription: Option<string>,
    expiresAt: Option<int>, lapsedAt: Option<int>, noticeAt: Option<int>)

  datatype SubscriptionStatus = Active | Trialing | Overdue | Unpaid | Canceled | OtherStatus

  datatype Kind =
    | CheckoutCompleted(session: Option<string>)
    | SubscriptionCreated(created: string)
    | SubscriptionDeleted
    | SubscriptionUpdated(status: SubscriptionStatus)
    | SubscriptionPaused | SubscriptionResumed
    | PaymentSucceeded | PaymentFailed | InvoicePaid | ActionRequired | MarkedUncollectible
    | Unhandled

  /** One delivery of a Stripe event, at the time it arrives. Redeliveries share the event id. */
  datatype Delivery = Delivery(id: string, customer: Option<string>, kind: Kind, now: int)

  /** The organisation and the ids of the events processed so far. */
  datatype State = State(org: Org, seen: set<string>)

  const DAY := 24 * 3600
  const CANCEL_GRACE := 7 * DAY
  const PAYMENT_GRACE := 14 * DAY

  /** The columns a paid organisation has cleared. */
  function Paid(o: Org): Org {
    o.(plan := Pro, expiresAt := None, lapsedAt := None, noticeAt := None)
  }

  /** What one event makes of the organisation it names. */
  function Effect(o: Org, kind: Kind, now: int): Org {
    match kind
    case CheckoutCompleted(Some(sub)) => Paid(o).(subscription := Some(sub))
    case SubscriptionCreated(sub) => Paid(o).(subscription := Some(sub))
    case SubscriptionDeleted => o.(plan := CancelledPlan, expiresAt := Some(now + CANCEL_GRACE), subscription := None)
    case SubscriptionUpdated(Active) => Paid(o)
    case SubscriptionUpdated(Trialing) => Paid(o)
    case SubscriptionUpdated(Overdue) => o.(plan := PastDue)
    case SubscriptionUpdated(Unpaid) => o.(plan := CancelledPlan)
    case SubscriptionUpdated(Canceled) => o.(plan := CancelledPlan)
    case SubscriptionPaused => o.(plan := PastDue)
    case SubscriptionResumed => Paid(o)
    case PaymentSucceeded => Paid(o)
    case InvoicePaid => Paid(o)
    case PaymentFailed => o.(plan := PastDue, expiresAt := Some(now + PAYMENT_GRACE))
    case ActionRequired =>
      if o.plan == PastDue then o
      else o.(plan := PastDue, expiresAt := if o.expiresAt.Some? then o.expiresAt else Some(now + PAYMENT_GRACE))
    case MarkedUncollectible => o.(plan := CancelledPlan, expiresAt := Some(now + CANCEL_GRACE))
    case _ => o
  }

  function Handled(o: Org, d: Delivery): Org {
    if d.customer == Some(o.customer) then Effect(o, d.kind, d.now) else o
  }

  function Webhook(s: State, d: Delivery): State {
    if d.id in s.seen then s else State(Handled(s.org, d), s.seen + {d.id})
  }

  function Process(s: State, ds: seq<Delivery>): State
    decreases ds
  {
    if ds == [] then s else Process(Webhook(s, ds[0]), ds[1..])
  }

  // --- the webhook is a fold over first deliveries ---

  /** Every event handled once, with no dedup. */
  function Fold(o: Org, ds: seq<Delivery>): Org
    decreases ds
  {
    if ds == [] then o else Fold(Handled(o, ds[0]), ds[1..])
  }

  /** The deliveries whose id neither was seen before nor came earlier. */
  function Firsts(ds: seq<Delivery>, seen: set<string>): seq<Delivery> {
    if ds == [] then []
    else if ds[0].id in seen then Firsts(ds[1..], seen)
    else [ds[0]] + Firsts(ds[1..], seen + {ds[0].id})
  }

  /** Processing deliveries with repeats is handling each event once, at its first delivery. */
  lemma {:induction false} ProcessIsFoldOfFirsts(s: State, ds: seq<Delivery>)
    ensures Process(s, ds).org == Fold(s.org, Firsts(ds, s.seen))
    decreases ds
  {
    if ds != [] {
      ProcessIsFoldOfFirsts(Webhook(s, ds[0]), ds[1..]);
      if ds[0].id !in s.seen {
        var firsts := Firsts(ds, s.seen);
        assert firsts[0] == ds[0] && firsts[1..] == Firsts(ds[1..], s.seen + {ds[0].id});
      }
    }
  }

  /** A redelivery anywhere later in the stream changes nothing: neither the organisation nor what later events
      do. */
  lemma {:induction false} RedeliveryChangesNothing(s: State, ds: seq<Delivery>, again: Delivery, rest: seq<Delivery>)
    requires again.id in s.seen || exists i :: 0 <= i < |ds| && ds[i].id == again.id
    ensures Process(s, ds + [again] + rest) == Process(s, ds + rest)
    decreases ds
  {
    if ds == [] {
      assert [] + [again] + rest == [again] + rest && [] + rest == rest;
      assert ([again] + rest)[1..] == rest;
    } else {
      assert (ds + [again] + rest)[1..] == ds[1..] + [again] + rest;
      assert (ds + rest)[1..] == ds[1..] + rest;
      if again.id !in Webhook(s, ds[0]).seen {
        var i :| 0 <= i < |ds| && ds[i].id == again.id;
        assert i > 0 && ds[1..][i - 1].id == again.id;
      }
      RedeliveryChangesNothing(Webhook(s, ds[0]), ds[1..], again, rest);
    }
  }

  // --- the final plan ---

  /** The plan an event carries, if it carries one. */
  function PlanIn(kind: Kind): Option<Plan> {
    match kind
    case CheckoutCompleted(session) => if session.Some? then Some(Pro) else None
    case SubscriptionCreated(_) => Some(Pro)
    case SubscriptionDeleted => Some(CancelledPlan)
    case SubscriptionUpdated(status) =>
      (match status
       case Active => Some(Pro)
       case Trialing => Some(Pro)
       case Overdue => Some(PastDue)
       case OtherStatus => None
       case _ => Some(CancelledPlan))
    case SubscriptionPaused => Some(PastDue)
    case SubscriptionResumed => Some(Pro)
    case PaymentSucceeded => Some(Pro)
    case InvoicePaid => Some(Pro)
    case PaymentFailed => Some(PastDue)
    case ActionRequired => Some(PastDue)
    case MarkedUncollectible => Some(CancelledPlan)
    case Unhandled => None
  }

  predicate Bears(d: Delivery, customer: string) {
    d.customer == Some(customer) && PlanIn(d.kind).Some?
  }

  /** The index of the last delivery that carries a plan for the customer, or -1. */
  function LastBearing(ds: seq<Delivery>, customer: string): (k: int)
    ensures -1 <= k < |ds|
    ensures k >= 0 ==> Bears(ds[k], customer)
    ensures forall i :: k < i < |ds| ==> !Bears(ds[i], customer)
  {
    if ds == [] then -1
    else if Bears(ds[|ds| - 1], customer) then |ds| - 1
    else LastBearing(ds[..|ds| - 1], customer)
  }

  lemma {:induction false} FoldLast(o: Org, ds: seq<Delivery>)
    requires ds != []
    ensures Fold(o, ds) == Handled(Fold(o, ds[..|ds| - 1]), ds[|ds| - 1])
    decreases ds
  {
    if |ds| == 1 {
      assert ds[1..] == [];
    } else {
      FoldLast(Handled(o, ds[0]), ds[1..]);
      assert ds[..|ds| - 1][1..] == ds[1..][..|ds| - 2];
    }
  }

  lemma {:induction false} FoldPlan(o: Org, ds: seq<Delivery>)
    ensures Fold(o, ds).customer == o.customer
    ensures var k := LastBearing(ds, o.customer);
      Fold(o, ds).plan == if k < 0 then o.plan else PlanIn(ds[k].kind).value
    decreases |ds|
  {
    if ds != [] {
      FoldLast(o, ds);
      FoldPlan(o, ds[..|ds| - 1]);
    }
  }

  /** The final plan is the one carried by the last plan-bearing event, among first deliveries. */
  lemma LastPlanWins(s: State, ds: seq<Delivery>)
    ensures var firsts := Firsts(ds, s.seen); var k := LastBearing(firsts, s.org.customer);
      Process(s, ds).org.plan == if k < 0 then s.org.plan else PlanIn(firsts[k].kind).value
  {
    ProcessIsFoldOfFirsts(s, ds);
    FoldPlan(s.org, Firsts(ds, s.seen));
  }

  /** A payment that needs authentication sets a deadline only where there is none and the plan is not past due
      already; it never moves one. */
  lemma ActionRequiredKeepsDeadlineIff(o: Org, now: int)
    ensures Effect(o, ActionRequired, now).expiresAt == o.expiresAt <==> o.expiresAt.Some? || o.plan == PastDue
    ensures Effect(o, ActionRequired, now).plan == PastDue
  {
  }

  // --- the grace-period worker, and reads ---

  predicate InGrace(o: Org) {
    o.plan == CancelledPlan || o.plan == PastDue
  }

  /** The worker moves an organisation whose grace period is over to the free plan. */
  function GraceCheck(o: Org, now: int): Org {
    if InGrace(o) && o.expiresAt.Some? && o.expiresAt.value < now
    then o.(plan := Free, expiresAt := None, lapsedAt := Some(now)) else o
  }

  const NOTICE_LEAD := 3 * DAY

  predicate NeedsNotice(o: Org, now: int) {
    InGrace(o) && o.expiresAt.Some? && now < o.expiresAt.value < now + NOTICE_LEAD && o.noticeAt.None?
  }

  /** The worker's notice pass, with its query and its update at one moment. The notice is recorded when the mail
      call succeeds, so that a later pass tries again otherwise. */
  function Notice(o: Org, now: int, mailed: bool): Org {
    if NeedsNotice(o, now) && mailed then MarkNoticed(o, now) else o
  }

  /** The update of the notice pass, which checks nothing. */
  function MarkNoticed(o: Org, now: int): Org {
    o.(noticeAt := Some(now))
  }

  function EffectivePlan(o: Org, now: int): Plan {
    if InGrace(o) && o.expiresAt.Some? && o.expiresAt.value < now then Free else o.plan
  }

  predicate ReadOnly(o: Org, now: int) {
    EffectivePlan(o, now) == Free && (o.lapsedAt.Some? || o.plan != Free)
  }

  /** Whether the send worker still sends for the organisation. */
  predicate MaySend(o: Org, now: int) {
    || o.plan == Pro || o.plan == PastDue
    || (o.plan == CancelledPlan && o.expiresAt.Some? && o.expiresAt.value > now)
  }

  datatype Step = Deliver(delivery: Delivery) | Check(now: int) | SendNotice(now: int, mailed: bool)

  function Advance(s: State, step: Step): State {
    match step
    case Deliver(d) => Webhook(s, d)
    case Check(now) => s.(org := GraceCheck(s.org, now))
    case SendNotice(now, mailed) => s.(org := Notice(s.org, now, mailed))
  }

  function Run(s: State, steps: seq<Step>): State
    decreases steps
  {
    if steps == [] then s else Run(Advance(s, steps[0]), steps[1..])
  }

  predicate PaidIsClear(o: Org) {
    o.plan == Pro ==> o.expiresAt.None? && o.lapsedAt.None? && o.noticeAt.None?
  }

  /** Paid means clear: in every state reachable by events and worker passes, plan pro has no deadline, no lapse
      and no notice, and is never reported read-only. */
  lemma {:induction false} PaidMeansClear(s: State, steps: seq<Step>, now: int)
    requires PaidIsClear(s.org)
    ensures PaidIsClear(Run(s, steps).org)
    ensures Run(s, steps).org.plan == Pro ==> !ReadOnly(Run(s, steps).org, now)
    decreases steps
  {
    if steps != [] { PaidMeansClear(Advance(s, steps[0]), steps[1..], now); }
  }

  /** The notice pass queries first and updates later. An update that arrives after the plan was paid stamps a
      paid organisation, and the next grace period then goes without its notice. */
  lemma LateNoticeKeepsClearIff(o: Org, now: int, later: int)
    requires PaidIsClear(o)
    ensures PaidIsClear(MarkNoticed(o, now)) <==> o.plan != Pro
    ensures !NeedsNotice(MarkNoticed(o, now), later)
  {
  }

  /** A notice goes out at this step. */
  predicate Notifies(s: State, step: Step) {
    step.SendNotice? && step.mailed && NeedsNotice(s.org, step.now)
  }

  /** The step is the first delivery of a payment, which makes the organisation clear again. */
  predicate Clears(s: State, step: Step) {
    && step.Deliver? && step.delivery.id !in s.seen && step.delivery.customer == Some(s.org.customer)
    && PlanIn(step.delivery.kind) == Some(Pro)
  }

  function Notices(s: State, steps: seq<Step>): nat
    decreases steps
  {
    if steps == [] then 0
    else (if Notifies(s, steps[0]) then 1 else 0) + Notices(Advance(s, steps[0]), steps[1..])
  }

  function Payments(s: State, steps: seq<Step>): nat
    decreases steps
  {
    if steps == [] then 0
    else (if Clears(s, steps[0]) then 1 else 0) + Payments(Advance(s, steps[0]), steps[1..])
  }

  /** One notice per grace period: over every run of events and worker passes, however often they repeat, at most
      one more notice goes out than payments arrive; none goes out before a payment once one is recorded. */
  lemma {:induction false} NoticesAreBounded(s: State, steps: seq<Step>)
    ensures Notices(s, steps) <= Payments(s, steps) + if s.org.noticeAt.None? then 1 else 0
    decreases steps
  {
    if steps != [] {
      NoticesAreBounded(Advance(s, steps[0]), steps[1..]);
      NoticeStays(s, steps[0]);
    }
  }

  lemma NoticeStays(s: State, step: Step)
    ensures s.org.noticeAt.Some? ==> !Notifies(s, step) && (Advance(s, step).org.noticeAt.Some? || Clears(s, step))
    ensures Notifies(s, step) ==> Advance(s, step).org.noticeAt.Some?
  {
  }

  /** One pass of the worker: its time, and whether the mail calls of the pass succeed. */
  datatype Pass = Pass(now: int, mailed: bool)

  function AfterPass(o: Org, pass: Pass): Org {
    GraceCheck(Notice(o, pass.now, pass.mailed), pass.now)
  }

  /** How long access lasts. With no later event, a cancelled subscription is reported read-only after exactly
      7 days, and a failed payment after exactly 14, whether or not the worker has passed by then. */
  lemma GraceLasts(o: Org, now: int, passes: seq<Pass>, later: int)
    requires Ascending(now, passes, later)
    ensures ReadOnly(RunWorker(Effect(o, SubscriptionDeleted, now), passes), later) <==> later > now + 7 * DAY
    ensures ReadOnly(RunWorker(Effect(o, PaymentFailed, now), passes), later) <==> later > now + 14 * DAY
  {
    GraceRun(Effect(o, SubscriptionDeleted, now), now, passes, later);
    GraceRun(Effect(o, PaymentFailed, now), now, passes, later);
  }

  lemma {:induction false} GraceRun(o: Org, from: int, passes: seq<Pass>, later: int)
    requires InGrace(o) && o.expiresAt.Some? && Ascending(from, passes, later)
    ensures ReadOnly(RunWorker(o, passes), later) <==> later > o.expiresAt.value
    decreases passes
  {
    if passes != [] {
      var next := AfterPass(o, passes[0]);
      if next.plan == Free {
        AscendingEnds(passes[0].now, passes[1..], later);
        ReadOnlyStays(next, passes[0].now, passes[1..], later);
      } else {
        GraceRun(next, passes[0].now, passes[1..], later);
      }
    }
  }

  lemma {:induction false} AscendingEnds(from: int, passes: seq<Pass>, to: int)
    requires Ascending(from, passes, to)
    ensures from <= to
    decreases passes
  {
    if passes != [] { AscendingEnds(passes[0].now, passes[1..], to); }
  }

  /** The worker alone, at ever later times. */
  function RunWorker(o: Org, passes: seq<Pass>): Org
    decreases passes
  {
    if passes == [] then o else RunWorker(AfterPass(o, passes[0]), passes[1..])
  }

  predicate Ascending(from: int, passes: seq<Pass>, to: int)
    decreases passes
  {
    if passes == [] then from <= to else from <= passes[0].now && Ascending(passes[0].now, passes[1..], to)
  }

  /** With no new event, read-only once reported stays reported as time advances, whether or not the worker has
      moved the organisation to the free plan in between. */
  lemma {:induction false} ReadOnlyStays(o: Org, now: int, passes: seq<Pass>, later: int)
    requires ReadOnly(o, now) && Ascending(now, passes, later)
    ensures ReadOnly(RunWorker(o, passes), later)
    decreases passes
  {
    if passes != [] { ReadOnlyStays(AfterPass(o, passes[0]), passes[0].now, passes[1..], later); }
  }

  /** When the lapse comes. Whatever the worker does from here on, an organisation in its grace period is reported
      read-only at some time exactly when it has a deadline. */
  lemma LapsesIff(o: Org, from: int, passes: seq<Pass>, to: int)
    requires InGrace(o) && Ascending(from, passes, to)
    ensures (exists later :: later >= to && ReadOnly(RunWorker(o, passes), later)) <==> o.expiresAt.Some?
  {
    if o.expiresAt.Some? {
      var later := if to > o.expiresAt.value then to else o.expiresAt.value + 1;
      AscendingOn(from, passes, to, later);
      GraceRun(o, from, passes, later);
    } else {
      NoDeadlineNoLapse(o, passes);
    }
  }

  lemma {:induction false} AscendingOn(from: int, passes: seq<Pass>, to: int, later: int)
    requires Ascending(from, passes, to) && to <= later
    ensures Ascending(from, passes, later)
    decreases passes
  {
    if passes != [] { AscendingOn(passes[0].now, passes[1..], to, later); }
  }

  lemma {:induction false} NoDeadlineNoLapse(o: Org, passes: seq<Pass>)
    requires InGrace(o) && o.expiresAt.None?
    ensures RunWorker(o, passes) == o && forall t :: !ReadOnly(o, t)
    decreases passes
  {
    if passes != [] { NoDeadlineNoLapse(o, passes[1..]); }
  }

  /** The events that start a grace period without a deadline. */
  predicate SetsNoDeadline(kind: Kind) {
    kind.SubscriptionPaused? || (kind.SubscriptionUpdated? && kind.status in {Overdue, Unpaid, Canceled})
  }

  /** An event that takes a paid organisation out of the paid plan sets a deadline unless it is one of those; and then
      the organisation is never reported read-only, whatever the worker does. */
  lemma PaidLapsesIff(o: Org, kind: Kind, now: int, passes: seq<Pass>, to: int)
    requires o.plan == Pro && PaidIsClear(o) && InGrace(Effect(o, kind, now)) && Ascending(now, passes, to)
    ensures (exists later :: later >= to && ReadOnly(RunWorker(Effect(o, kind, now), passes), later))
            <==> !SetsNoDeadline(kind)
  {
    LapsesIff(Effect(o, kind, now), now, passes, to);
  }

  /** The other way round: an organisation that is not reported read-only and still cannot send is on the free plan and
      never lapsed, or cancelled with no deadline, or cancelled at its very deadline. */
  lemma SilentlyBlockedIff(o: Org, now: int)
    ensures !ReadOnly(o, now) && !MaySend(o, now) <==>
      || (o.plan == Free && o.lapsedAt.None?)
      || (o.plan == CancelledPlan && (o.expiresAt.None? || o.expiresAt.value == now))
  {
  }

  /** Reading and sending disagree: an organisation reported read-only can still send exactly while it is past
      due with its deadline behind it and the worker has not passed yet. */
  lemma ReadOnlyMaySendIff(o: Org, now: int)
    ensures ReadOnly(o, now) && MaySend(o, now)
            <==> o.plan == PastDue && o.expiresAt.Some? && o.expiresAt.value < now
    ensures !MaySend(GraceCheck(o, now), now) || !ReadOnly(GraceCheck(o, now), now)
  {
  }
}
