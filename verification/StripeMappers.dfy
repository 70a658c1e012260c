/**
 From the Stripe objects a webhook delivers to the event the services act on
 (apps/subscriptions/webhook_handlers/mappers.py). The subscription a handler retrieves from Stripe
 comes with the delivery.
 */
module StripeMappers {
  import opened Options
  import opened StripePeriods
  import opened SubscriptionRow

  datatype Invoice = Invoice(id: string, customer: string, subscription: string, url: Option<string>)

  datatype Delivery =
    | CheckoutCompleted(sub: Subscription)
    | InvoicePaid(invoice: Invoice, sub: Subscription)
    | InvoicePaymentFailed(invoice: Invoice, sub: Subscription)
    | SubscriptionUpdated(sub: Subscription)
    | SubscriptionDeleted(sub: Subscription, now: Time)

  datatype MapperError = MISSING_CUSTOMER | MISSING_SUBSCRIPTION

  datatype Mapped = Built(event: Event) | Malformed(error: MapperError)

  function SnapshotOf(sub: Subscription, proPrice: string): Snapshot {
    Snapshot(
      sub.status,
      FromStripeTimestamp(sub.startDate),
      PeriodBoundary(sub.items, proPrice, PeriodStart),
      PeriodBoundary(sub.items, proPrice, PeriodEnd),
      sub.cancelAtPeriodEnd,
      FromStripeTimestamp(sub.canceledAt),
      FromStripeTimestamp(sub.endedAt))
  }

  function BuildEvent(d: Delivery, proPrice: string): Mapped {
    match d
    case CheckoutCompleted(sub) =>
      if sub.customer == "" then Malformed(MISSING_CUSTOMER)
      else Built(Checkout(sub.customer, sub.id, SnapshotOf(sub, proPrice)))
    case InvoicePaid(invoice, sub) =>
      if invoice.customer == "" then Malformed(MISSING_CUSTOMER)
      else if invoice.subscription == "" then Malformed(MISSING_SUBSCRIPTION)
      else Built(Paid(invoice.customer, sub.id, SnapshotOf(sub, proPrice), invoice.id, invoice.url))
    case InvoicePaymentFailed(invoice, sub) =>
      if invoice.customer == "" then Malformed(MISSING_CUSTOMER)
      else if invoice.subscription == "" then Malformed(MISSING_SUBSCRIPTION)
      else Built(Failed(invoice.customer, invoice.subscription, sub.status, invoice.id, invoice.url))
    case SubscriptionUpdated(sub) =>
      if sub.customer == "" then Malformed(MISSING_CUSTOMER)
      else Built(Updated(sub.customer, sub.id, SnapshotOf(sub, proPrice)))
    case SubscriptionDeleted(sub, now) =>
      if sub.customer == "" then Malformed(MISSING_CUSTOMER)
      else Built(Deleted(sub.customer, sub.id, SnapshotOf(sub, proPrice), now))
  }

  /** What a snapshot says, field by field of the Stripe object; `t` is any moment. */
  lemma SnapshotReads(sub: Subscription, proPrice: string, t: Time)
    ensures var snap := SnapshotOf(sub, proPrice);
      && snap.stripeStatus == sub.status && snap.cancelAtPeriodEnd == sub.cancelAtPeriodEnd
      && (snap.startedAt == Some(t) <==> sub.startDate == Some(t) && t != 0)
      && (snap.canceledAt == Some(t) <==> sub.canceledAt == Some(t) && t != 0)
      && (snap.endedAt == Some(t) <==> sub.endedAt == Some(t) && t != 0)
      && IsReportedBoundary(sub.items, proPrice, PeriodStart, snap.periodStart)
      && IsReportedBoundary(sub.items, proPrice, PeriodEnd, snap.periodEnd)
  {
    BoundaryIsReported(sub.items, proPrice, PeriodStart);
    BoundaryIsReported(sub.items, proPrice, PeriodEnd);
  }

  /** The customer that the delivered object names. */
  function NamedCustomer(d: Delivery): string {
    match d
    case InvoicePaid(invoice, _) => invoice.customer
    case InvoicePaymentFailed(invoice, _) => invoice.customer
    case _ => d.sub.customer
  }

  /** A delivery is refused exactly when it names no customer, or is an invoice without a subscription. */
  lemma RefusedIff(d: Delivery, proPrice: string)
    ensures BuildEvent(d, proPrice) == Malformed(MISSING_CUSTOMER) <==> NamedCustomer(d) == ""
    ensures BuildEvent(d, proPrice) == Malformed(MISSING_SUBSCRIPTION) <==>
      NamedCustomer(d) != "" && (d.InvoicePaid? || d.InvoicePaymentFailed?) && d.invoice.subscription == ""
  {
  }

  /** Otherwise it becomes the event of its own kind, about the subscription Stripe holds or the invoice names. */
  lemma EventSays(d: Delivery, proPrice: string)
    requires BuildEvent(d, proPrice).Built?
    ensures var e := BuildEvent(d, proPrice).event;
      && e.customer == NamedCustomer(d)
      && (e.Checkout? <==> d.CheckoutCompleted?) && (e.Paid? <==> d.InvoicePaid?)
      && (e.Failed? <==> d.InvoicePaymentFailed?) && (e.Updated? <==> d.SubscriptionUpdated?)
      && e.sub == (if d.InvoicePaymentFailed? then d.invoice.subscription else d.sub.id)
      && (e.Failed? ==> e.stripeStatus == d.sub.status)
      && (!e.Failed? ==> e.snap == SnapshotOf(d.sub, proPrice))
      && (e.IsInvoice() ==> e.invoice == d.invoice.id && e.url == d.invoice.url)
      && (e.Deleted? ==> e.now == d.now)
  {
  }
}
