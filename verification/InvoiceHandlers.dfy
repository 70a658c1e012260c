/**
 The webhook handlers over one customer's row, the notification table and the task queue
 (apps/subscriptions/webhook_handlers/, apps/subscriptions/services/invoice_notifications.py).
 */
module InvoiceHandlers {
  import opened Options
  import opened StripePeriods
  import opened StripeMappers
  import opened BillingLedger
  import opened UserSubscriptions
  import EmailTasks

  class BillingDesk {
    const subscription: UserSubscription
    var notes: map<NoteKey, NoteStatus>
    var onCommit: seq<Task>  // tasks that wait for the open transaction to commit
    var tasks: seq<Task>

    function Ledger(): Ledger
      reads this, subscription
    {
      BillingLedger.Ledger(subscription.Row(), notes, tasks)
    }

    constructor (subscription: UserSubscription)
      ensures this.subscription == subscription && notes == map[] && onCommit == [] && tasks == []
    {
      this.subscription := subscription;
      notes, onCommit, tasks := map[], [], [];
    }

    /** Records the notification and defers its email to the commit of the surrounding transaction. */
    method QueueInvoiceEmailNotification(key: NoteKey, url: Option<string>) returns (queued: bool)
      modifies `notes, `onCommit
      ensures queued == Queues(old(notes), key)
      ensures notes == EnsureNote(old(notes), key)
      ensures onCommit == old(onCommit) + if queued then [InvoiceEmail(key, subscription.userId, url)] else []
    {
      if key.invoice == "" {
        return false;
      }
      var created := key !in notes;
      if created {
        notes := notes[key := PENDING];
      }
      if !created && notes[key] !in {PENDING, FAILED} {
        return false;
      }
      onCommit := onCommit + [InvoiceEmail(key, subscription.userId, url)];
      return true;
    }

    method Commit()
      modifies `onCommit, `tasks
      ensures tasks == old(tasks) + old(onCommit) && onCommit == []
    {
      tasks, onCommit := tasks + onCommit, [];
    }

    /** An invoice was paid: the row update and the queued receipt commit together, or nothing happens. */
    method HandleInvoicePaid(invoice: Invoice, sub: Subscription, proPrice: string) returns (error: Option<MapperError>)
      requires onCommit == []
      modifies this, subscription
      ensures onCommit == []
      ensures match BuildEvent(InvoicePaid(invoice, sub), proPrice)
        case Built(e) => error == None && Ledger() == Handle(old(Ledger()), e)
        case Malformed(m) => error == Some(m) && Ledger() == old(Ledger())
      ensures error == if invoice.customer == "" then Some(MISSING_CUSTOMER)
                       else if invoice.subscription == "" then Some(MISSING_SUBSCRIPTION) else None
      ensures var key := NoteKey(invoice.id, PAYMENT_SUCCEEDED);
        var bound := old(subscription.subscriptionId) in {None, Some(""), Some(sub.id)};
        if error.None? && bound then
          && subscription.subscriptionId == Some(sub.id)
          && notes == (if invoice.id == "" || key in old(notes) then old(notes) else old(notes)[key := PENDING])
          && tasks == old(tasks) + (if invoice.id != "" && (key in old(notes) ==> old(notes)[key] in {PENDING, FAILED})
                                    then [InvoiceEmail(key, subscription.userId, invoice.url)] else [])
        else Ledger() == old(Ledger())
    {
      if invoice.customer == "" {
        return Some(MISSING_CUSTOMER);
      }
      if invoice.subscription == "" {
        return Some(MISSING_SUBSCRIPTION);
      }
      var accepted := subscription.MarkPaid(invoice.customer, sub.id, SnapshotOf(sub, proPrice), invoice.id, invoice.url);
      if accepted {
        var _ := QueueInvoiceEmailNotification(NoteKey(invoice.id, PAYMENT_SUCCEEDED), invoice.url);
      }
      Commit();
      return None;
    }

    method HandleInvoicePaymentFailed(invoice: Invoice, sub: Subscription, ghost proPrice: string) returns (error: Option<MapperError>)
      requires onCommit == []
      modifies this, subscription
      ensures onCommit == []
      ensures match BuildEvent(InvoicePaymentFailed(invoice, sub), proPrice)
        case Built(e) => error == None && Ledger() == Handle(old(Ledger()), e)
        case Malformed(m) => error == Some(m) && Ledger() == old(Ledger())
      ensures error == if invoice.customer == "" then Some(MISSING_CUSTOMER)
                       else if invoice.subscription == "" then Some(MISSING_SUBSCRIPTION) else None
      ensures var key := NoteKey(invoice.id, BillingLedger.PAYMENT_FAILED);
        var bound := old(subscription.subscriptionId) in {None, Some(""), Some(invoice.subscription)};
        if error.None? && bound then
          && subscription.subscriptionId == Some(invoice.subscription)
          && notes == (if invoice.id == "" || key in old(notes) then old(notes) else old(notes)[key := PENDING])
          && tasks == old(tasks) + (if invoice.id != "" && (key in old(notes) ==> old(notes)[key] in {PENDING, FAILED})
                                    then [InvoiceEmail(key, subscription.userId, invoice.url)] else [])
        else Ledger() == old(Ledger())
    {
      if invoice.customer == "" {
        return Some(MISSING_CUSTOMER);
      }
      if invoice.subscription == "" {
        return Some(MISSING_SUBSCRIPTION);
      }
      var accepted := subscription.MarkPaymentFailed(invoice.customer, invoice.subscription, sub.status, invoice.id, invoice.url);
      if accepted {
        var _ := QueueInvoiceEmailNotification(NoteKey(invoice.id, BillingLedger.PAYMENT_FAILED), invoice.url);
      }
      Commit();
      return None;
    }

    method HandleCheckoutSessionCompleted(sub: Subscription, proPrice: string) returns (error: Option<MapperError>)
      modifies this, subscription
      ensures onCommit == old(onCommit)
      ensures match BuildEvent(CheckoutCompleted(sub), proPrice)
        case Built(e) => error == None && Ledger() == Handle(old(Ledger()), e)
        case Malformed(m) => error == Some(m) && Ledger() == old(Ledger())
      ensures notes == old(notes) && tasks == old(tasks)
      ensures error == if sub.customer == "" then Some(MISSING_CUSTOMER) else None
    {
      if sub.customer == "" {
        return Some(MISSING_CUSTOMER);
      }
      subscription.SyncFromCheckout(sub.customer, sub.id, SnapshotOf(sub, proPrice));
      return None;
    }

    method HandleSubscriptionUpdated(sub: Subscription, proPrice: string) returns (error: Option<MapperError>)
      modifies this, subscription
      ensures onCommit == old(onCommit)
      ensures match BuildEvent(SubscriptionUpdated(sub), proPrice)
        case Built(e) => error == None && Ledger() == Handle(old(Ledger()), e)
        case Malformed(m) => error == Some(m) && Ledger() == old(Ledger())
      ensures notes == old(notes) && tasks == old(tasks)
      ensures error == if sub.customer == "" then Some(MISSING_CUSTOMER) else None
    {
      if sub.customer == "" {
        return Some(MISSING_CUSTOMER);
      }
      var _ := subscription.SyncFromStripe(sub.customer, sub.id, SnapshotOf(sub, proPrice));
      return None;
    }

    method HandleSubscriptionDeleted(sub: Subscription, proPrice: string, now: Time) returns (error: Option<MapperError>)
      modifies this, subscription
      ensures onCommit == old(onCommit)
      ensures match BuildEvent(SubscriptionDeleted(sub, now), proPrice)
        case Built(e) => error == None && Ledger() == Handle(old(Ledger()), e)
        case Malformed(m) => error == Some(m) && Ledger() == old(Ledger())
      ensures notes == old(notes)
      ensures tasks == old(tasks) +
        if error.None? && old(subscription.subscriptionId) == Some(sub.id)
        then [CanceledEmail(subscription.userId, subscription.endedAt)] else []
      ensures error == if sub.customer == "" then Some(MISSING_CUSTOMER) else None
    {
      if sub.customer == "" {
        return Some(MISSING_CUSTOMER);
      }
      var accepted := subscription.MarkDeleted(sub.customer, sub.id, SnapshotOf(sub, proPrice), now);
      if accepted {
        tasks := tasks + [CanceledEmail(subscription.userId, subscription.endedAt)];
      }
      return None;
    }
  }

  /**
   What the user table, the mail server and the notification table answer to one run of an email task. `markError`
   is what saving SENT, or SKIPPED, raises; `failedLost` when not even FAILED can be saved.
   */
  datatype World = World(userExists: bool, sendError: Option<string>, markError: Option<string>, failedLost: bool)
  {
    /** What the run raises inside its `try`, if anything. */
    function TriedError(emailType: EmailType): Option<string> {
      if emailType.OTHER? then markError else sendError
    }

    function End(emailType: EmailType): EmailTasks.TaskEnd {
      if !userExists then EmailTasks.RAISES
      else if TriedError(emailType).Some? then if failedLost then EmailTasks.RAISES else EmailTasks.FAILS
      else if markError.Some? then EmailTasks.SENDS_UNRECORDED
      else EmailTasks.SENDS
    }
  }

  /** A stored notification row; a save that raises leaves it as it was. */
  class InvoiceNotification {
    const key: NoteKey
    var status: NoteStatus
    var sentAt: Option<Time>
    var failedAt: Option<Time>
    var errorMessage: Option<string>

    constructor (key: NoteKey)
      ensures this.key == key && status == PENDING && sentAt == None && failedAt == None && errorMessage == None
    {
      this.key, status := key, PENDING;
      sentAt, failedAt, errorMessage := None, None, None;
    }

    /**
     One run of the email task. It leaves the status, sends the email and raises as the step system says of
     its ending; an email leaves at most once, and never when the notification is already SENT.
     */
    method SendEmail(world: World, now: Time) returns (emailed: bool, raised: bool)
      modifies this
      ensures var end := world.End(key.emailType); var found := old(status) == SENT;
        && status == EmailTasks.StatusAfter(old(status), key, end)
        && (emailed <==> !found && EmailTasks.Emails(key, end))
        && (raised <==> !found && EmailTasks.Raises(end))
        && sentAt == (if !found && status == SENT then Some(now) else old(sentAt))
        && failedAt == (if !found && end.FAILS? then Some(now) else old(failedAt))
        && errorMessage == (if found || end.RAISES? || end.SENDS_UNRECORDED? then old(errorMessage)
                            else if end.FAILS? then world.TriedError(key.emailType)
                            else if status == SENT then None
                            else Some("Unknown email_type=" + key.emailType.name))
      ensures var idle := old(status) == SENT || !world.userExists;
        var unknown := key.emailType.OTHER?;
        var sendFails := !unknown && world.sendError.Some?;
        && (emailed <==> !idle && !unknown && world.sendError.None?)
        && (raised <==> old(status) != SENT && (!world.userExists || sendFails || world.markError.Some?))
        && status == (if idle then old(status)
                      else if sendFails || (unknown && world.markError.Some?) then if world.failedLost then old(status) else FAILED
                      else if world.markError.Some? then old(status)
                      else if unknown then SKIPPED else SENT)
        && (status == FAILED && failedAt != old(failedAt) ==>
              errorMessage == if unknown then world.markError else world.sendError)
        && (!idle && sendFails && !world.failedLost ==> failedAt == Some(now) && errorMessage == world.sendError)
        && (emailed && world.markError.None? ==> sentAt == Some(now) && errorMessage == None)
        && (idle ==> sentAt == old(sentAt) && failedAt == old(failedAt) && errorMessage == old(errorMessage))
    {
      emailed, raised := false, false;
      if status == SENT {
        return;
      }
      if !world.userExists {
        raised := true;
        return;
      }
      if key.emailType.OTHER? && world.markError.None? {
        status := SKIPPED;
        errorMessage := Some("Unknown email_type=" + key.emailType.name);
        return;
      }
      if key.emailType.OTHER? || world.sendError.Some? {
        raised := true;
        if !world.failedLost {
          status := FAILED;
          failedAt := Some(now);
          errorMessage := if key.emailType.OTHER? then world.markError else world.sendError;
        }
        return;
      }
      emailed := true;
      if world.markError.Some? {
        raised := true;
        return;
      }
      status := SENT;
      sentAt := Some(now);
      errorMessage := None;
    }
  }
}
