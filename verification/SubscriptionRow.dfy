/**
 The local subscription row as a value, the webhook events that touch it, and the transition each
 accepted event makes (apps/subscriptions/services/user_subscription.py).
 */
module SubscriptionRow {
  import opened Options
  import opened StripePeriods

  datatype Status = INACTIVE | ACTIVE | PAST_DUE | CANCELED | EXPIRED

  datatype Row = Row(
    userId: nat,
    status: Status,
    subscriptionId: Option<string>,
    startedAt: Option<Time>,
    periodStart: Option<Time>,
    periodEnd: Option<Time>,
    cancelAtPeriodEnd: bool,
    canceledAt: Option<Time>,
    endedAt: Option<Time>)

  /** The row as it is created, before Stripe has said anything. */
  function Fresh(userId: nat): Row {
    Row(userId, INACTIVE, None, None, None, None, false, None, None)
  }

  /** What a paid, updated or checkout event reports about its subscription. */
  datatype Snapshot = Snapshot(
    stripeStatus: string,
    startedAt: Option<Time>,
    periodStart: Option<Time>,
    periodEnd: Option<Time>,
    cancelAtPeriodEnd: bool,
    canceledAt: Option<Time>,
    endedAt: Option<Time>)

  datatype Event =
    | Checkout(customer: string, sub: StripeId, snap: Snapshot)
    | Paid(customer: string, sub: StripeId, snap: Snapshot, invoice: string, url: Option<string>)
    | Failed(customer: string, sub: StripeId, stripeStatus: string, invoice: string, url: Option<string>)
    | Updated(customer: string, sub: StripeId, snap: Snapshot)
    | Deleted(customer: string, sub: StripeId, snap: Snapshot, now: Time)
  {
    /** Invoice events may adopt a row that has no subscription yet. */
    predicate IsInvoice() { Paid? || Failed? }
  }

  function MapStatus(stripeStatus: string): Status {
    if stripeStatus == "active" || stripeStatus == "trialing" then ACTIVE
    else if stripeStatus == "past_due" then PAST_DUE
    else if stripeStatus in {"canceled", "unpaid", "incomplete_expired"} then CANCELED
    else INACTIVE
  }

  /** What Stripe's statuses mean here. */
  lemma StripeStatusMeans(stripeStatus: string)
    ensures MapStatus(stripeStatus) == ACTIVE <==> stripeStatus in {"active", "trialing"}
    ensures MapStatus(stripeStatus) == PAST_DUE <==> stripeStatus in {"past_due"}
    ensures MapStatus(stripeStatus) == CANCELED <==> stripeStatus in {"canceled", "unpaid", "incomplete_expired"}
    ensures MapStatus(stripeStatus) in {ACTIVE, PAST_DUE, CANCELED, INACTIVE}
  {
  }

  /** Both a null and an empty subscription id mean that Checkout has not been recorded. */
  predicate Unlinked(row: Row) {
    row.subscriptionId == None || row.subscriptionId == Some("")
  }

  /** False exactly when the event belongs to a superseded (or not yet known) subscription. */
  predicate Accepts(row: Row, e: Event) {
    match e
    case Checkout(_, _, _) => true
    case Paid(_, sub, _, _, _) => Unlinked(row) || row.subscriptionId == Some(sub)
    case Failed(_, sub, _, _, _) => Unlinked(row) || row.subscriptionId == Some(sub)
    case Updated(_, sub, _) => row.subscriptionId == Some(sub)
    case Deleted(_, sub, _, _) => row.subscriptionId == Some(sub)
  }

  /** The first date that is present. */
  function FirstOf(a: Option<Time>, b: Option<Time>): Option<Time> {
    if a.Some? then a else b
  }

  /** Checkout writes the whole snapshot verbatim. */
  function Installed(userId: nat, sub: string, snap: Snapshot): Row {
    Row(userId, MapStatus(snap.stripeStatus), Some(sub), snap.startedAt, snap.periodStart, snap.periodEnd,
        snap.cancelAtPeriodEnd, snap.canceledAt, snap.endedAt)
  }

  /** A paid or updated event keeps a stored start, and a stored end that Stripe could not supply again. */
  function Refreshed(row: Row, sub: string, snap: Snapshot): Row {
    Installed(row.userId, sub, snap).(
      startedAt := FirstOf(row.startedAt, snap.startedAt),
      periodEnd := FirstOf(snap.periodEnd, row.periodEnd))
  }

  function Apply(row: Row, e: Event): Row {
    if !Accepts(row, e) then row
    else
      match e
      case Checkout(_, sub, snap) => Installed(row.userId, sub, snap)
      case Paid(_, sub, snap, _, _) => Refreshed(row, sub, snap)
      case Failed(_, sub, stripeStatus, _, _) => row.(subscriptionId := Some(sub), status := MapStatus(stripeStatus))
      case Updated(_, sub, snap) => Refreshed(row, sub, snap)
      case Deleted(_, _, snap, now) =>
        row.(status := CANCELED, periodStart := snap.periodStart, periodEnd := snap.periodEnd,
             cancelAtPeriodEnd := snap.cancelAtPeriodEnd, canceledAt := snap.canceledAt,
             endedAt := FirstOf(FirstOf(snap.endedAt, snap.canceledAt), Some(now)))
  }

  /** The row after a whole history of events, the oldest first. */
  function Run(row: Row, history: seq<Event>): Row {
    if history == [] then row
    else Apply(Run(row, history[..|history| - 1]), history[|history| - 1])
  }

  datatype CancelError = MISSING_STRIPE_ID | ALREADY_CANCELLING | CANNOT_BE_CANCELLED | PROVIDER_ERROR

  datatype CancelResult = Scheduled(end: Option<Time>) | Refused(error: CancelError)

  /**
   A cancellation request that read the row as `seen`, with the period end Stripe's reply carries. `reply` is
   `None` when Stripe fails, and is only looked at once the local guards have passed. A scheduled cancellation
   saves `end`.
   */
  function Cancel(seen: Row, reply: Option<Option<Time>>): CancelResult {
    if Unlinked(seen) then Refused(MISSING_STRIPE_ID)
    else if seen.cancelAtPeriodEnd then Refused(ALREADY_CANCELLING)
    else if seen.status !in {ACTIVE, PAST_DUE} then Refused(CANNOT_BE_CANCELLED)
    else
      match reply
      case None => Refused(PROVIDER_ERROR)
      case Some(end) => Scheduled(FirstOf(end, seen.periodEnd))
  }

  /** A cancellation saves two fields and no more, whatever the row has become since it was read. */
  function SaveCancel(row: Row, end: Option<Time>): Row {
    row.(cancelAtPeriodEnd := true, periodEnd := end)
  }

  /** Whatever writes the row: a webhook event, or the save of a scheduled cancellation. */
  datatype Change = Hook(event: Event) | CancelSaved(user: string, end: Option<Time>)
  {
    predicate IsCheckout() { Hook? && event.Checkout? }

    predicate IsInvoice() { Hook? && event.IsInvoice() }

    /** The customer whose row is written. */
    function Customer(): string { if Hook? then event.customer else user }
  }

  function ApplyChange(row: Row, c: Change): Row {
    match c
    case Hook(e) => Apply(row, e)
    case CancelSaved(_, end) => SaveCancel(row, end)
  }

  function RunChanges(row: Row, history: seq<Change>): Row {
    if history == [] then row
    else ApplyChange(RunChanges(row, history[..|history| - 1]), history[|history| - 1])
  }

  function Hooks(history: seq<Event>): seq<Change> {
    seq(|history|, i requires 0 <= i < |history| => Hook(history[i]))
  }

  /** A history of webhooks alone is one of the histories of changes. */
  lemma {:induction false} HooksRun(row: Row, history: seq<Event>)
    ensures RunChanges(row, Hooks(history)) == Run(row, history)
  {
    if history != [] {
      HooksRun(row, history[..|history| - 1]);
      assert Hooks(history)[..|history| - 1] == Hooks(history[..|history| - 1]);
    }
  }

  /** Pro is a paid status backed by a period end that is still in the future. */
  predicate Pro(row: Row, now: Time) {
    row.status in {ACTIVE, PAST_DUE} && row.periodEnd.Some? && row.periodEnd.value > now
  }
}
