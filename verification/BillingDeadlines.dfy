/** The clock of a grace period: which events set it, stop it or leave it running, and what over a whole run decides
    whether an organisation is reported read-only. */
module BillingDeadlines {
  import opened Wrappers
  import opened Billing

  // --- what each event does to the clock ---

  /** The days of grace an event grants, if it starts the clock anew. */
  function GraceDays(kind: Kind): Option<int> {
    match kind
    case SubscriptionDeleted => Some(7)
    case MarkedUncollectible => Some(7)
    case PaymentFailed => Some(14)
    case _ => None
  }

  /** For every organisation: a paid plan stops the clock and clears lapse and notice; the events above start it anew
      and leave lapse and notice as they were; every other event leaves all three as they were, except that a payment
      that needs authentication starts a clock of 14 days where none runs and the plan is not past due yet. */
  lemma ClockAfter(o: Org, kind: Kind, now: int)
    ensures var r := Effect(o, kind, now);
      if PlanIn(kind) == Some(Pro) then r.expiresAt.None? && r.lapsedAt.None? && r.noticeAt.None?
      else
        && r.lapsedAt == o.lapsedAt && r.noticeAt == o.noticeAt
        && r.expiresAt ==
             if GraceDays(kind).Some? then Some(now + GraceDays(kind).value * 24 * 3600)
             else if kind.ActionRequired? && o.expiresAt.None? && o.plan != PastDue then Some(now + 14 * 24 * 3600)
             else o.expiresAt
  {
  }

  /** So a status update that takes the plan away, and an event that bears no plan, leave the clock alone. */
  lemma StatusLeavesClock(o: Org, kind: Kind, now: int)
    requires SetsNoDeadline(kind) || PlanIn(kind).None?
    ensures Effect(o, kind, now) == o.(plan := if PlanIn(kind).Some? then PlanIn(kind).value else o.plan)
  {
  }

  /** The subscription an event links, or unlinks. */
  function Links(kind: Kind): Option<Option<string>> {
    match kind
    case CheckoutCompleted(session) => if session.Some? then Some(session) else None
    case SubscriptionCreated(created) => Some(Some(created))
    case SubscriptionDeleted => Some(None)
    case _ => None
  }

  /** The index of the last delivery that links or unlinks a subscription of the customer, or -1. */
  function LastLink(ds: seq<Delivery>, customer: string): (k: int)
    ensures -1 <= k < |ds|
    ensures k >= 0 ==> Links(ds[k].kind).Some?
  {
    if ds == [] then -1
    else
      var last := ds[|ds| - 1];
      if last.customer == Some(customer) && Links(last.kind).Some? then |ds| - 1
      else LastLink(ds[..|ds| - 1], customer)
  }

  lemma {:induction false} FoldLinks(o: Org, ds: seq<Delivery>)
    ensures var k := LastLink(ds, o.customer);
      Fold(o, ds).subscription == if k < 0 then o.subscription else Links(ds[k].kind).value
    decreases |ds|
  {
    if ds != [] {
      FoldLast(o, ds);
      FoldPlan(o, ds[..|ds| - 1]);
      FoldLinks(o, ds[..|ds| - 1]);
    }
  }

  /** The subscription on file is the one linked last, among first deliveries. */
  lemma LastLinkWins(s: State, ds: seq<Delivery>)
    ensures var firsts := Firsts(ds, s.seen); var k := LastLink(firsts, s.org.customer);
      Process(s, ds).org.subscription == if k < 0 then s.org.subscription else Links(firsts[k].kind).value
  {
    ProcessIsFoldOfFirsts(s, ds);
    FoldLinks(s.org, Firsts(ds, s.seen));
  }

  // --- over a run ---

  function TimeOf(step: Step): int {
    match step
    case Deliver(d) => d.now
    case Check(now) => now
    case SendNotice(now, _) => now
  }

  predicate InOrder(from: int, steps: seq<Step>, to: int)
    decreases steps
  {
    if steps == [] then from <= to else from <= TimeOf(steps[0]) && InOrder(TimeOf(steps[0]), steps[1..], to)
  }

  /** A delivery that reaches the organisation: the first with its id, and of its customer. */
  predicate Arrives(s: State, step: Step) {
    step.Deliver? && step.delivery.id !in s.seen && step.delivery.customer == Some(s.org.customer)
  }

  /** The step neither stops the clock nor starts it anew. */
  predicate LeavesClock(s: State, step: Step) {
    Arrives(s, step) ==>
      var kind := step.delivery.kind;
      && PlanIn(kind) != Some(Pro) && GraceDays(kind).None?
      && (kind.ActionRequired? ==> s.org.plan == PastDue || s.org.expiresAt.Some?)
  }

  predicate AllLeaveClock(s: State, steps: seq<Step>)
    decreases steps
  {
    steps != [] ==> LeavesClock(s, steps[0]) && AllLeaveClock(Advance(s, steps[0]), steps[1..])
  }

  /** A status update, or a pause, of an organisation that has already been moved to the free plan. */
  predicate Revives(s: State, step: Step) {
    Arrives(s, step) && SetsNoDeadline(step.delivery.kind) && s.org.plan == Free
  }

  predicate IsRevived(s: State, steps: seq<Step>)
    decreases steps
  {
    steps != [] && (Revives(s, steps[0]) || IsRevived(Advance(s, steps[0]), steps[1..]))
  }

  /** In its grace period with no clock: no step that leaves the clock alone makes it read-only again. */
  lemma {:induction false} NoClockNoLapse(s: State, steps: seq<Step>, later: int)
    requires InGrace(s.org) && s.org.expiresAt.None? && AllLeaveClock(s, steps)
    ensures !ReadOnly(Run(s, steps).org, later) && !IsRevived(s, steps)
    decreases steps
  {
    if steps != [] { NoClockNoLapse(Advance(s, steps[0]), steps[1..], later); }
  }

  /** On the free plan after a lapse: read-only until a status update comes. */
  lemma {:induction false} LapsedStaysIff(s: State, steps: seq<Step>, later: int)
    requires s.org.plan == Free && s.org.lapsedAt.Some? && s.org.expiresAt.None? && AllLeaveClock(s, steps)
    ensures ReadOnly(Run(s, steps).org, later) <==> !IsRevived(s, steps)
    decreases steps
  {
    if steps != [] {
      if Revives(s, steps[0]) {
        NoClockNoLapse(Advance(s, steps[0]), steps[1..], later);
      } else {
        LapsedStaysIff(Advance(s, steps[0]), steps[1..], later);
      }
    }
  }

  /** A clock that nothing touches runs out when it says: over every run of deliveries and worker passes that leaves it
      alone, the organisation is reported read-only exactly at the times after the deadline, unless a status update
      reaches it when the worker has already moved it to the free plan. */
  lemma {:induction false} ClockRunsOutIff(s: State, from: int, steps: seq<Step>, later: int)
    requires InGrace(s.org) && s.org.expiresAt.Some? && InOrder(from, steps, later) && AllLeaveClock(s, steps)
    ensures ReadOnly(Run(s, steps).org, later) <==> later > s.org.expiresAt.value && !IsRevived(s, steps)
    decreases steps
  {
    if steps != [] {
      var next := Advance(s, steps[0]);
      assert !Revives(s, steps[0]);
      if next.org.plan == Free {
        InOrderEnds(TimeOf(steps[0]), steps[1..], later);
        LapsedStaysIff(next, steps[1..], later);
      } else {
        ClockRunsOutIff(next, TimeOf(steps[0]), steps[1..], later);
      }
    }
  }

  lemma {:induction false} InOrderEnds(from: int, steps: seq<Step>, to: int)
    requires InOrder(from, steps, to)
    ensures from <= to
    decreases steps
  {
    if steps != [] { InOrderEnds(TimeOf(steps[0]), steps[1..], to); }
  }

  /** After a failed payment 14 days, after a cancellation or an uncollectible invoice 7: whatever else is delivered and
      whenever the worker passes, as long as no payment arrives and nothing starts the clock anew, exactly then, and but
      for that one exception, the organisation is reported read-only. */
  lemma GraceEndsIff(s: State, d: Delivery, steps: seq<Step>, later: int)
    requires Arrives(s, Deliver(d)) && GraceDays(d.kind).Some?
    requires InOrder(d.now, steps, later) && AllLeaveClock(Advance(s, Deliver(d)), steps)
    ensures ReadOnly(Run(Advance(s, Deliver(d)), steps).org, later) <==>
      && later > d.now + (if d.kind.PaymentFailed? then 14 else 7) * 24 * 3600
      && !IsRevived(Advance(s, Deliver(d)), steps)
  {
    ClockAfter(s.org, d.kind, d.now);
    ClockRunsOutIff(Advance(s, Deliver(d)), d.now, steps, later);
  }

  /** The exception: an update to past due gives a lapsed organisation its sending back, with no deadline. */
  lemma StatusUpdateRevives(o: Org, now: int, at: int)
    requires o.plan == PastDue && o.expiresAt.Some? && now > o.expiresAt.value
    ensures var lapsed := GraceCheck(o, now);
      var revived := Effect(lapsed, SubscriptionUpdated(Overdue), at);
      && ReadOnly(lapsed, at) && !MaySend(lapsed, at)
      && !ReadOnly(revived, at) && MaySend(revived, at) && revived.expiresAt.None?
  {
  }

  /** When a notice goes out: in the last three days of a grace period, once. */
  lemma NoticeGoesIff(o: Org, now: int)
    requires o.noticeAt != Some(now)
    ensures Notice(o, now, true).noticeAt == Some(now) <==>
      && (o.plan == PastDue || o.plan == CancelledPlan) && o.noticeAt.None?
      && o.expiresAt.Some? && now < o.expiresAt.value < now + 3 * 24 * 3600
    ensures Notice(o, now, false) == o && Notice(o, now, true) == o.(noticeAt := Notice(o, now, true).noticeAt)
  {
  }

  /** The worker moves exactly the organisations that are reported read-only already, and stamps their lapse; it leaves
      the subscription and the notice alone. */
  lemma WorkerMovesIff(o: Org, now: int)
    ensures var g := GraceCheck(o, now);
      && (g != o <==> ReadOnly(o, now) && o.plan != Free)
      && (g != o ==> g == o.(plan := Free, expiresAt := None, lapsedAt := Some(now)))
  {
  }

  /** What the billing page shows, and who may send, by plan. */
  lemma AccessByPlan(o: Org, now: int)
    ensures EffectivePlan(o, now) == Free <==>
      o.plan == Free || (o.plan != Pro && o.expiresAt.Some? && o.expiresAt.value < now)
    ensures EffectivePlan(o, now) != Free ==> EffectivePlan(o, now) == o.plan
    ensures ReadOnly(o, now) <==> EffectivePlan(o, now) == Free && (o.plan == Free ==> o.lapsedAt.Some?)
    ensures ReadOnly(GraceCheck(o, now), now) <==> ReadOnly(o, now)
  {
  }
}
