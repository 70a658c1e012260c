/**
 The subscription row as the services handle it: an object whose fields they assign and save
 (apps/subscriptions/services/user_subscription.py). Every method is tied to the row transitions of
 `SubscriptionRow`, about which the histories are proved.
 */
module UserSubscriptions {
  import opened Options
  import opened StripePeriods
  import opened SubscriptionRow

  class UserSubscription {
    const userId: nat
    var customerId: Option<string>
    var status: Status
    var subscriptionId: Option<string>
    var startedAt: Option<Time>
    var periodStart: Option<Time>
    var periodEnd: Option<Time>
    var cancelAtPeriodEnd: bool
    var canceledAt: Option<Time>
    var endedAt: Option<Time>

    function Row(): Row
      reads this
    {
      SubscriptionRow.Row(userId, status, subscriptionId, startedAt, periodStart, periodEnd,
                          cancelAtPeriodEnd, canceledAt, endedAt)
    }

    constructor (userId: nat)
      ensures this.userId == userId && Row() == Fresh(userId) && customerId == None
    {
      this.userId := userId;
      customerId, status, subscriptionId := None, INACTIVE, None;
      startedAt, periodStart, periodEnd := None, None, None;
      cancelAtPeriodEnd, canceledAt, endedAt := false, None, None;
    }

    /** Keeps the stored period end when the event could not supply one. */
    function ResolveCurrentPeriodEnd(reported: Option<Time>): (end: Option<Time>)
      reads this
      ensures reported.Some? ==> end == reported
      ensures reported.None? ==> end == periodEnd
    {
      if reported.Some? then reported else periodEnd
    }

    /** Adopts the subscription when none is recorded; false for a superseded one. */
    method BindSubscriptionEvent(sub: StripeId) returns (bound: bool)
      modifies `subscriptionId
      ensures bound <==> old(Unlinked(Row())) || old(subscriptionId) == Some(sub)
      ensures subscriptionId == if bound then Some(sub) else old(subscriptionId)
    {
      if subscriptionId == None || subscriptionId == Some("") {
        subscriptionId := Some(sub);
        return true;
      }
      if subscriptionId != Some(sub) {
        return false;
      }
      return true;
    }

    method SyncFromCheckout(customer: string, sub: StripeId, snap: Snapshot)
      modifies this
      ensures Row() == Apply(old(Row()), Checkout(customer, sub, snap)) && customerId == old(customerId)
    {
      subscriptionId := Some(sub);
      status := MapStatus(snap.stripeStatus);
      startedAt := snap.startedAt;
      periodStart := snap.periodStart;
      periodEnd := snap.periodEnd;
      cancelAtPeriodEnd := snap.cancelAtPeriodEnd;
      canceledAt := snap.canceledAt;
      endedAt := snap.endedAt;
    }

    method MarkPaid(customer: string, sub: StripeId, snap: Snapshot, ghost invoice: string, ghost url: Option<string>)
      returns (accepted: bool)
      modifies this
      ensures accepted == Accepts(old(Row()), Paid(customer, sub, snap, invoice, url))
      ensures Row() == Apply(old(Row()), Paid(customer, sub, snap, invoice, url)) && customerId == old(customerId)
    {
      accepted := BindSubscriptionEvent(sub);
      if !accepted {
        return;
      }
      status := MapStatus(snap.stripeStatus);
      periodStart := snap.periodStart;
      periodEnd := ResolveCurrentPeriodEnd(snap.periodEnd);
      cancelAtPeriodEnd := snap.cancelAtPeriodEnd;
      canceledAt := snap.canceledAt;
      endedAt := snap.endedAt;
      if startedAt.None? {
        startedAt := snap.startedAt;
      }
    }

    method MarkPaymentFailed(customer: string, sub: StripeId, stripeStatus: string, ghost invoice: string, ghost url: Option<string>)
      returns (accepted: bool)
      modifies this
      ensures accepted == Accepts(old(Row()), Failed(customer, sub, stripeStatus, invoice, url))
      ensures Row() == Apply(old(Row()), Failed(customer, sub, stripeStatus, invoice, url))
      ensures customerId == old(customerId)
    {
      accepted := BindSubscriptionEvent(sub);
      if !accepted {
        return;
      }
      status := MapStatus(stripeStatus);
    }

    method SyncFromStripe(customer: string, sub: StripeId, snap: Snapshot) returns (accepted: bool)
      modifies this
      ensures accepted == Accepts(old(Row()), Updated(customer, sub, snap))
      ensures Row() == Apply(old(Row()), Updated(customer, sub, snap)) && customerId == old(customerId)
    {
      if subscriptionId != Some(sub) {
        return false;
      }
      if startedAt.None? {
        startedAt := snap.startedAt;
      }
      periodStart := snap.periodStart;
      periodEnd := ResolveCurrentPeriodEnd(snap.periodEnd);
      cancelAtPeriodEnd := snap.cancelAtPeriodEnd;
      canceledAt := snap.canceledAt;
      endedAt := snap.endedAt;
      status := MapStatus(snap.stripeStatus);
      return true;
    }

    method MarkDeleted(customer: string, sub: StripeId, snap: Snapshot, now: Time) returns (accepted: bool)
      modifies this
      ensures accepted == Accepts(old(Row()), Deleted(customer, sub, snap, now))
      ensures Row() == Apply(old(Row()), Deleted(customer, sub, snap, now)) && customerId == old(customerId)
      ensures accepted ==> endedAt.Some?
    {
      if subscriptionId != Some(sub) {
        return false;
      }
      status := CANCELED;
      periodStart := snap.periodStart;
      periodEnd := snap.periodEnd;
      cancelAtPeriodEnd := snap.cancelAtPeriodEnd;
      canceledAt := snap.canceledAt;
      if snap.endedAt.Some? {
        endedAt := snap.endedAt;
      } else if snap.canceledAt.Some? {
        endedAt := snap.canceledAt;
      } else {
        endedAt := Some(now);
      }
      return true;
    }

    /**
     Schedules the cancellation at Stripe, then marks the row. The request read the row, without a lock, as
     `seen`; the row may have changed since. `stripe` is Stripe's reply to the one request made, `None` for a
     Stripe error; the call is made only when the guards on what was read have passed.
     */
    method CancelAtPeriodEnd(seen: Row, stripe: Option<seq<Item>>, proPrice: string) returns (error: Option<CancelError>, called: bool)
      modifies `cancelAtPeriodEnd, `periodEnd
      ensures var reply := if stripe.None? then None else Some(PeriodBoundary(stripe.value, proPrice, PeriodEnd));
        match Cancel(seen, reply)
        case Scheduled(end) => error == None && Row() == SaveCancel(old(Row()), end)
        case Refused(e) => error == Some(e) && Row() == old(Row())
      ensures called <==> error.None? || error == Some(PROVIDER_ERROR)
      ensures var linked := seen.subscriptionId != None && seen.subscriptionId != Some("");
        var paid := seen.status == ACTIVE || seen.status == PAST_DUE;
        && (error == Some(MISSING_STRIPE_ID) <==> !linked)
        && (error == Some(ALREADY_CANCELLING) <==> linked && seen.cancelAtPeriodEnd)
        && (error == Some(CANNOT_BE_CANCELLED) <==> linked && !seen.cancelAtPeriodEnd && !paid)
        && (error == Some(PROVIDER_ERROR) <==> linked && !seen.cancelAtPeriodEnd && paid && stripe.None?)
      ensures error.Some? ==> cancelAtPeriodEnd == old(cancelAtPeriodEnd) && periodEnd == old(periodEnd)
      ensures error.None? ==>
        && cancelAtPeriodEnd
        && exists reported :: IsReportedBoundary(stripe.value, proPrice, PeriodEnd, reported)
             && periodEnd == if reported.Some? then reported else seen.periodEnd
    {
      called := false;
      if seen.subscriptionId == None || seen.subscriptionId == Some("") {
        return Some(MISSING_STRIPE_ID), called;
      }
      if seen.cancelAtPeriodEnd {
        return Some(ALREADY_CANCELLING), called;
      }
      if seen.status != ACTIVE && seen.status != PAST_DUE {
        return Some(CANNOT_BE_CANCELLED), called;
      }
      called := true;
      if stripe.None? {
        return Some(PROVIDER_ERROR), called;
      }
      var end := PeriodBoundary(stripe.value, proPrice, PeriodEnd);
      BoundaryIsReported(stripe.value, proPrice, PeriodEnd);
      if end.None? {
        end := seen.periodEnd;
      }
      // Only these two fields are saved.
      cancelAtPeriodEnd := true;
      periodEnd := end;
      return None, called;
    }
  }
}
