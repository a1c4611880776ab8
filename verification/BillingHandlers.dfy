/** The billing endpoints as the server runs them, on the columns of one organisation. */
module BillingHandlers {
  import opened Wrappers
  import opened Billing

  class BillingHandler {
    var customer: string
    var plan: Plan
    var subscription: Option<string>
    var expiresAt: Option<int>
    var lapsedAt: Option<int>
    var noticeAt: Option<int>
    var seen: set<string>

    ghost function Value(): State
      reads this
    {
      State(Org(customer, plan, subscription, expiresAt, lapsedAt, noticeAt), seen)
    }

    /** A paid organisation has no deadline, no lapse and no notice. Every method keeps it so. */
    ghost predicate Valid()
      reads this
    {
      PaidIsClear(Value().org)
    }

    constructor (customer: string)
      ensures Valid() && Value() == State(Org(customer, Free, None, None, None, None), {})
    {
      this.customer := customer;
      plan, subscription := Free, None;
      expiresAt, lapsedAt, noticeAt := None, None, None;
      seen := {};
    }

    /** Stores a plan and its subscription and drops the deadline; a paid plan is never read-only again. */
    method UpdateOrgByCustomer(id: string, newPlan: Plan, sub: string)
      requires Valid()
      modifies this
      ensures Valid()
      ensures id != old(customer) ==> Value() == old(Value())
      ensures id == old(customer) && newPlan == Pro ==>
        Value() == old(Value()).(org := Paid(old(Value()).org).(subscription := Some(sub)))
      ensures id == old(customer) && newPlan != Pro ==>
        Value() == old(Value()).(org := old(Value()).org.(plan := newPlan, subscription := Some(sub),
                                                          expiresAt := None))
      ensures id == old(customer) && newPlan == Pro ==> forall t :: !ReadOnly(Value().org, t)
    {
      if id != customer { return; }
      subscription, plan, expiresAt := Some(sub), newPlan, None;
      if newPlan == Pro { lapsedAt, noticeAt := None, None; }
    }

    /** Cancels the subscription: access is reported read-only from the deadline on, and not before. */
    method UpdateOrgByCustomerCancelled(id: string, expiry: int)
      requires Valid()
      modifies this
      ensures Valid()
      ensures id != old(customer) ==> Value() == old(Value())
      ensures id == old(customer) ==>
        Value() == old(Value()).(org := old(Value()).org.(plan := CancelledPlan, expiresAt := Some(expiry),
                                                          subscription := None))
      ensures id == old(customer) ==> forall t :: ReadOnly(Value().org, t) <==> t > expiry
    {
      if id != customer { return; }
      plan, expiresAt, subscription := CancelledPlan, Some(expiry), None;
    }

    /** Sets the plan alone. */
    method SetPlan(id: string, newPlan: Plan)
      requires Valid() && newPlan != Pro
      modifies this
      ensures Valid()
      ensures Value() ==
        if id == old(customer) then old(Value()).(org := old(Value()).org.(plan := newPlan)) else old(Value())
    {
      if id == customer { plan := newPlan; }
    }

    /** Restores the paid plan. */
    method RestorePro(id: string)
      requires Valid()
      modifies this
      ensures Valid()
      ensures Value() == if id == old(customer) then old(Value()).(org := Paid(old(Value()).org)) else old(Value())
    {
      if id == customer {
        plan, expiresAt, lapsedAt, noticeAt := Pro, None, None, None;
      }
    }

    method SetPlanUntil(id: string, newPlan: Plan, expiry: int)
      requires Valid() && newPlan != Pro
      modifies this
      ensures Valid()
      ensures Value() ==
        if id == old(customer)
        then old(Value()).(org := old(Value()).org.(plan := newPlan, expiresAt := Some(expiry))) else old(Value())
    {
      if id == customer { plan, expiresAt := newPlan, Some(expiry); }
    }

    /** A payment needs authentication: the plan becomes past due, and a deadline that is set stays where it is. */
    method RequireAction(id: string, now: int)
      requires Valid()
      modifies this
      ensures Valid()
      ensures Value() ==
        if id == old(customer) then old(Value()).(org := Effect(old(Value()).org, ActionRequired, now))
        else old(Value())
      ensures old(expiresAt).Some? ==> expiresAt == old(expiresAt)
      ensures id == old(customer) && old(expiresAt).None? && old(plan) != PastDue ==>
        forall t :: ReadOnly(Value().org, t) <==> t > now + PAYMENT_GRACE
    {
      if id == customer && plan != PastDue {
        plan := PastDue;
        if expiresAt.None? { expiresAt := Some(now + PAYMENT_GRACE); }
      }
    }

    /** One event of a known customer. */
    method Dispatch(id: string, kind: Kind, now: int)
      requires Valid()
      modifies this
      ensures Valid()
      ensures Value() ==
        if id == old(customer) then old(Value()).(org := Effect(old(Value()).org, kind, now)) else old(Value())
    {
      match kind
      case CheckoutCompleted(sub) => if sub.Some? { UpdateOrgByCustomer(id, Pro, sub.value); }
      case SubscriptionCreated(sub) => UpdateOrgByCustomer(id, Pro, sub);
      case SubscriptionDeleted => UpdateOrgByCustomerCancelled(id, now + CANCEL_GRACE);
      case SubscriptionUpdated(status) =>
        var updated := None;
        match status {
          case Active => updated := Some(Pro);
          case Trialing => updated := Some(Pro);
          case Overdue => updated := Some(PastDue);
          case Unpaid => updated := Some(CancelledPlan);
          case Canceled => updated := Some(CancelledPlan);
          case OtherStatus =>
        }
        if updated.Some? {
          if updated.value == Pro { RestorePro(id); } else { SetPlan(id, updated.value); }
        }
      case SubscriptionPaused => SetPlan(id, PastDue);
      case SubscriptionResumed => RestorePro(id);
      case PaymentSucceeded => RestorePro(id);
      case PaymentFailed => SetPlanUntil(id, PastDue, now + PAYMENT_GRACE);
      case InvoicePaid => RestorePro(id);
      case ActionRequired => RequireAction(id, now);
      case MarkedUncollectible => SetPlanUntil(id, CancelledPlan, now + CANCEL_GRACE);
      case Unhandled =>
    }

    /** The webhook: record the event id, stop at a duplicate, then handle the event. A delivery that was processed
        before, or that names another customer, leaves the organisation as it was. */
    method HandleStripeWebhook(d: Delivery)
      requires Valid()
      modifies this
      ensures Valid()
      ensures Value() == Webhook(old(Value()), d)
      ensures d.id in old(seen) ==> Value() == old(Value())
      ensures d.customer != Some(old(customer)) ==> Value().org == old(Value()).org
      ensures seen == old(seen) + {d.id}
    {
      var inserted := d.id !in seen;
      seen := seen + {d.id};
      if !inserted {
        assert seen == old(seen);
        return;
      }
      if d.customer.Some? { Dispatch(d.customer.value, d.kind, d.now); }
    }

    /** What the billing page shows. */
    method GetBilling(now: int) returns (effective: Plan, readOnly: bool)
      requires Valid()
      ensures effective == EffectivePlan(Value().org, now)
      ensures readOnly == ReadOnly(Value().org, now)
      ensures plan == Pro ==> effective == Pro && !readOnly
    {
      effective := plan;
      if (plan == CancelledPlan || plan == PastDue) && expiresAt.Some? && expiresAt.value < now { effective := Free; }
      readOnly := effective == Free && (lapsedAt.Some? || plan != Free);
    }

    /** One pass of the grace-period worker. Whether the mail call of the notice succeeds is given. The pass never
        changes what the billing page shows at its time. */
    method CheckGrace(now: int, mailed: bool)
      requires Valid()
      modifies this
      ensures Valid()
      ensures Value() == old(Value()).(org := AfterPass(old(Value()).org, Pass(now, mailed)))
      ensures EffectivePlan(Value().org, now) == old(EffectivePlan(Value().org, now))
      ensures ReadOnly(Value().org, now) == old(ReadOnly(Value().org, now))
    {
      if (plan == CancelledPlan || plan == PastDue) && expiresAt.Some? && now < expiresAt.value
         && expiresAt.value < now + NOTICE_LEAD && noticeAt.None? && mailed
      {
        noticeAt := Some(now);
      }
      if (plan == CancelledPlan || plan == PastDue) && expiresAt.Some? && expiresAt.value < now {
        plan, expiresAt, lapsedAt := Free, None, Some(now);
      }
    }
  }
}
