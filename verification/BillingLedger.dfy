/**
 One subscription row together with the invoice notifications and the email tasks its webhooks queue
 (apps/subscriptions/webhook_handlers/invoices.py, apps/subscriptions/services/invoice_notifications.py),
 and what does not depend on the order in which events arrive.
 */
module BillingLedger {
  import opened Options
  import opened StripePeriods
  import opened SubscriptionRow

  datatype EmailType = PAYMENT_SUCCEEDED | PAYMENT_FAILED | OTHER(name: string)

  datatype NoteStatus = PENDING | SENT | FAILED | SKIPPED

  /** A notification row is unique per invoice and email type. */
  datatype NoteKey = NoteKey(invoice: string, emailType: EmailType)

  datatype Task =
    | InvoiceEmail(key: NoteKey, userId: nat, url: Option<string>)
    | CanceledEmail(recipient: nat, endedAt: Option<Time>)

  datatype Ledger = Ledger(row: Row, notes: map<NoteKey, NoteStatus>, tasks: seq<Task>)

  /** An email is queued unless its notification has already been sent or skipped. */
  predicate Queues(notes: map<NoteKey, NoteStatus>, key: NoteKey) {
    key.invoice != "" && (key in notes ==> notes[key] in {PENDING, FAILED})
  }

  function EnsureNote(notes: map<NoteKey, NoteStatus>, key: NoteKey): map<NoteKey, NoteStatus> {
    if key.invoice == "" || key in notes then notes else notes[key := PENDING]
  }

  function QueueEmail(l: Ledger, key: NoteKey, url: Option<string>): Ledger {
    Ledger(l.row, EnsureNote(l.notes, key),
           l.tasks + if Queues(l.notes, key) then [InvoiceEmail(key, l.row.userId, url)] else [])
  }

  function KeyOf(e: Event): NoteKey
    requires e.IsInvoice()
  {
    NoteKey(e.invoice, if e.Paid? then PAYMENT_SUCCEEDED else PAYMENT_FAILED)
  }

  /** A webhook handler: nothing for a stale event, otherwise the row update and the email it calls for. */
  function Handle(l: Ledger, e: Event): Ledger {
    if !Accepts(l.row, e) then l
    else
      var updated := l.(row := Apply(l.row, e));
      if e.IsInvoice() then QueueEmail(updated, KeyOf(e), e.url)
      else if e.Deleted? then updated.(tasks := l.tasks + [CanceledEmail(l.row.userId, updated.row.endedAt)])
      else updated
  }

  lemma HandleRow(l: Ledger, e: Event)
    ensures Handle(l, e).row == Apply(l.row, e)
  {
  }

  function Process(l: Ledger, h: seq<Event>): Ledger {
    if h == [] then l else Handle(Process(l, h[..|h| - 1]), h[|h| - 1])
  }

  lemma {:induction false} ProcessRow(l: Ledger, h: seq<Event>)
    ensures Process(l, h).row == Run(l.row, h)
  {
    if h != [] {
      ProcessRow(l, h[..|h| - 1]);
    }
  }

  // ---------- Where emails come from ----------

  /** The event calls for this very email: a receipt for a paid invoice, a warning for a failed one. */
  predicate Warrants(e: Event, t: Task) {
    match t
    case InvoiceEmail(key, _, url) =>
      && (key.emailType == PAYMENT_SUCCEEDED <==> e.Paid?) && (key.emailType == PAYMENT_FAILED <==> e.Failed?)
      && (e.Paid? || e.Failed?) && e.invoice == key.invoice && e.url == url
    case CanceledEmail(_, _) => e.Deleted?
  }

  function Recipient(t: Task): nat {
    if t.InvoiceEmail? then t.userId else t.recipient
  }

  /**
   Over every history, each receipt comes from a paid event of its invoice and each warning from a failed one,
   with that event's url, each cancellation email from a deletion, and all go to the user of the row.
   */
  lemma {:induction false} EmailsComeFromEvents(l: Ledger, h: seq<Event>, i: nat)
    requires |l.tasks| <= i < |Process(l, h).tasks|
    ensures var t := Process(l, h).tasks[i];
      Recipient(t) == l.row.userId && exists k :: 0 <= k < |h| && Warrants(h[k], t)
  {
    var n := |h| - 1;
    var before := Process(l, h[..n]);
    HandleAppends(before, h[n]);
    ProcessRow(l, h[..n]);
    RunKeepsUser(l.row, h[..n]);
    if i < |before.tasks| {
      EmailsComeFromEvents(l, h[..n], i);
      var k :| 0 <= k < n && Warrants(h[..n][k], before.tasks[i]);
      assert Warrants(h[k], Process(l, h).tasks[i]);
    }
  }

  /** One event appends at most one task, which it warrants, to the user of the row. */
  lemma HandleAppends(l: Ledger, e: Event)
    ensures var l' := Handle(l, e);
      && |l.tasks| <= |l'.tasks| <= |l.tasks| + 1 && l'.tasks[..|l.tasks|] == l.tasks
      && (|l'.tasks| > |l.tasks| ==> Warrants(e, l'.tasks[|l.tasks|]) && Recipient(l'.tasks[|l.tasks|]) == l.row.userId)
  {
  }

  // ---------- Superseded subscriptions ----------

  predicate Stale(l: Ledger, h: seq<Event>, i: nat)
    requires i < |h|
  {
    !Accepts(Process(l, h[..i]).row, h[i])
  }

  /** The history without the events at the given positions. */
  function Erase(h: seq<Event>, dropped: set<nat>): seq<Event> {
    if h == [] then []
    else Erase(h[..|h| - 1], dropped) + if |h| - 1 in dropped then [] else [h[|h| - 1]]
  }

  /** Events of a superseded subscription leave no trace in the row, the notifications or the tasks. */
  lemma {:induction false} StaleEventsLeaveNoTrace(l: Ledger, h: seq<Event>, dropped: set<nat>)
    requires forall i :: i in dropped && i < |h| ==> Stale(l, h, i)
    ensures Process(l, Erase(h, dropped)) == Process(l, h)
  {
    if h != [] {
      var n := |h| - 1;
      assert forall i :: 0 <= i < n ==> h[..n][..i] == h[..i];
      assert forall i :: i in dropped && i < n ==> Stale(l, h, i) == Stale(l, h[..n], i);
      StaleEventsLeaveNoTrace(l, h[..n], dropped);
      if n in dropped {
        assert Erase(h, dropped) == Erase(h[..n], dropped);
      } else {
        assert Erase(h, dropped)[..|Erase(h, dropped)| - 1] == Erase(h[..n], dropped);
      }
    }
  }

  // ---------- Arrival order ----------

  /** Every event reports the same Stripe state of the same subscription, and none is its deletion. */
  predicate SameReport(h: seq<Event>, sub: StripeId, snap: Snapshot) {
    forall e :: e in h ==>
      && e.sub == sub
      && !e.Deleted?
      && if e.Failed? then e.stripeStatus == snap.stripeStatus else e.snap == snap
  }

  predicate HasCheckout(h: seq<Event>) {
    exists e :: e in h && e.Checkout?
  }

  lemma {:induction false} SameReportInstallsSnapshot(row: Row, h: seq<Event>, sub: StripeId, snap: Snapshot)
    requires SameReport(h, sub, snap) && HasCheckout(h)
    ensures Run(row, h) == Installed(row.userId, sub, snap)
  {
    var n := |h| - 1;
    assert h == h[..n] + [h[n]];
    assert h[n] in h;
    if HasCheckout(h[..n]) {
      SameReportInstallsSnapshot(row, h[..n], sub, snap);
    } else {
      assert h[n].Checkout?;
      RunKeepsUser(row, h[..n]);
    }
  }

  lemma {:induction false} RunKeepsUser(row: Row, h: seq<Event>)
    ensures Run(row, h).userId == row.userId
  {
    if h != [] {
      RunKeepsUser(row, h[..|h| - 1]);
    }
  }

  function QueuedKeys(tasks: seq<Task>): set<NoteKey> {
    set t | t in tasks && t.InvoiceEmail? :: t.key
  }

  /** The notifications that the invoice events of `h` call for. */
  function CalledFor(notes: map<NoteKey, NoteStatus>, h: seq<Event>): set<NoteKey> {
    set e | e in h && e.IsInvoice() && Queues(notes, KeyOf(e)) :: KeyOf(e)
  }

  /** The row waits for this subscription: it has none, or this very one. */
  predicate Awaits(row: Row, sub: string) {
    Unlinked(row) || row.subscriptionId == Some(sub)
  }

  lemma {:induction false} AwaitedInvoicesAllQueue(row: Row, notes: map<NoteKey, NoteStatus>, h: seq<Event>, sub: StripeId, snap: Snapshot)
    requires SameReport(h, sub, snap) && Awaits(row, sub)
    ensures var l := Process(Ledger(row, notes, []), h);
      && Awaits(l.row, sub)
      && QueuedKeys(l.tasks) == CalledFor(notes, h)
      && forall key :: Queues(l.notes, key) <==> Queues(notes, key)
  {
    if h != [] {
      var n := |h| - 1;
      assert h == h[..n] + [h[n]];
      assert h[n] in h;
      AwaitedInvoicesAllQueue(row, notes, h[..n], sub, snap);
      if Accepts(Process(Ledger(row, notes, []), h[..n]).row, h[n]) {
        AcceptedQueues(Process(Ledger(row, notes, []), h[..n]), h[n]);
      }
      CalledForSnoc(notes, h[..n], h[n]);
    }
  }

  /** The notification that one event calls for, if any. */
  function Calls(notes: map<NoteKey, NoteStatus>, e: Event): set<NoteKey> {
    if e.IsInvoice() && Queues(notes, KeyOf(e)) then {KeyOf(e)} else {}
  }

  lemma CalledForSnoc(notes: map<NoteKey, NoteStatus>, h: seq<Event>, e: Event)
    ensures CalledFor(notes, h + [e]) == CalledFor(notes, h) + Calls(notes, e)
  {
    assert (h + [e])[|h|] == e;
    assert forall x :: x in h + [e] <==> x in h || x == e;
  }

  lemma QueuedSnoc(tasks: seq<Task>, t: Task)
    ensures QueuedKeys(tasks + [t]) == QueuedKeys(tasks) + if t.InvoiceEmail? then {t.key} else {}
  {
    assert (tasks + [t])[|tasks|] == t;
    assert forall x :: x in tasks + [t] <==> x in tasks || x == t;
  }

  /** An accepted event queues exactly what it calls for, and settles nothing. */
  lemma AcceptedQueues(l: Ledger, e: Event)
    requires Accepts(l.row, e)
    ensures var l' := Handle(l, e);
      && QueuedKeys(l'.tasks) == QueuedKeys(l.tasks) + Calls(l.notes, e)
      && forall key :: Queues(l'.notes, key) <==> Queues(l.notes, key)
  {
    var l' := Handle(l, e);
    if |l'.tasks| > |l.tasks| {
      QueuedSnoc(l.tasks, l'.tasks[|l.tasks|]);
      assert l'.tasks == l.tasks + [l'.tasks[|l.tasks|]];
    } else {
      assert l'.tasks == l.tasks;
    }
  }

  /**
   However Stripe orders the events that report one state of one subscription, the row ends the same;
   and when the row had no subscription, or this one, the same notifications are queued.
   */
  lemma ArrivalOrderIsIrrelevant(row: Row, notes: map<NoteKey, NoteStatus>, h: seq<Event>, h': seq<Event>, sub: StripeId, snap: Snapshot)
    requires multiset(h) == multiset(h') && SameReport(h, sub, snap) && HasCheckout(h)
    ensures Run(row, h) == Run(row, h')
    ensures Awaits(row, sub) ==>
      QueuedKeys(Process(Ledger(row, notes, []), h).tasks) == QueuedKeys(Process(Ledger(row, notes, []), h').tasks)
  {
    assert forall e :: e in h <==> e in multiset(h);
    assert forall e :: e in h' <==> e in multiset(h');
    SameReportInstallsSnapshot(row, h, sub, snap);
    SameReportInstallsSnapshot(row, h', sub, snap);
    if Awaits(row, sub) {
      AwaitedInvoicesAllQueue(row, notes, h, sub, snap);
      AwaitedInvoicesAllQueue(row, notes, h', sub, snap);
    }
  }

  // ---------- Exactly when the order matters to the emails ----------

  lemma {:induction false} ProcessConcat(l: Ledger, a: seq<Event>, b: seq<Event>)
    ensures Process(l, a + b) == Process(Process(l, a), b)
    decreases |b|
  {
    if b == [] {
      assert a + b == a;
    } else {
      ProcessConcat(l, a, b[..|b| - 1]);
      assert (a + b)[..|a + b| - 1] == a + b[..|b| - 1];
    }
  }

  /** Whatever the order, only notifications that are called for are queued. */
  lemma {:induction false} OnlyCalledForQueue(row: Row, notes: map<NoteKey, NoteStatus>, h: seq<Event>)
    ensures var l := Process(Ledger(row, notes, []), h);
      && QueuedKeys(l.tasks) <= CalledFor(notes, h)
      && forall key :: Queues(l.notes, key) <==> Queues(notes, key)
  {
    if h != [] {
      var n := |h| - 1;
      OnlyCalledForQueue(row, notes, h[..n]);
      assert h == h[..n] + [h[n]];
      CalledForSnoc(notes, h[..n], h[n]);
      var before := Process(Ledger(row, notes, []), h[..n]);
      if Accepts(before.row, h[n]) {
        AcceptedQueues(before, h[n]);
      }
    }
  }

  /** Events that belong to the checkout's subscription are stale until the checkout supersedes another one. */
  lemma {:induction false} AllStaleBefore(l: Ledger, h: seq<Event>, sub: StripeId, snap: Snapshot)
    requires SameReport(h, sub, snap) && !Awaits(l.row, sub) && !HasCheckout(h)
    ensures Process(l, h) == l
  {
    if h != [] {
      var n := |h| - 1;
      assert h == h[..n] + [h[n]];
      assert h[n] in h;
      AllStaleBefore(l, h[..n], sub, snap);
    }
  }

  lemma {:induction false} CheckoutsQueueNothing(l: Ledger, h: seq<Event>)
    requires forall e :: e in h ==> e.Checkout?
    ensures Process(l, h).tasks == l.tasks
  {
    if h != [] {
      assert h[|h| - 1] in h;
      CheckoutsQueueNothing(l, h[..|h| - 1]);
    }
  }

  /** The checkouts of a history, or everything else in it. */
  function Part(h: seq<Event>, checkouts: bool): (part: seq<Event>)
    ensures forall e :: e in part ==> e.Checkout? == checkouts
  {
    if h == [] then []
    else Part(h[..|h| - 1], checkouts) + if h[|h| - 1].Checkout? == checkouts then [h[|h| - 1]] else []
  }

  /** The two parts together are the whole history. */
  ghost predicate Whole(h: seq<Event>) {
    multiset(Part(h, true)) + multiset(Part(h, false)) == multiset(h)
  }

  lemma {:induction false} PartsMakeWhole(h: seq<Event>)
    ensures Whole(h)
  {
    if h != [] {
      PartsMakeWhole(h[..|h| - 1]);
      PartsStep(h);
    }
  }

  lemma PartsStep(h: seq<Event>)
    requires h != [] && Whole(h[..|h| - 1])
    ensures Whole(h)
  {
    var init, last := h[..|h| - 1], h[|h| - 1];
    PartStep(h, true);
    PartStep(h, false);
    LastCounts(h);
    AddToEither(multiset(Part(init, true)), multiset(Part(init, false)), multiset(init),
                multiset(Part(h, true)), multiset(Part(h, false)), multiset(h), last, last.Checkout?);
  }

  lemma LastCounts(h: seq<Event>)
    requires h != []
    ensures multiset(h) == multiset(h[..|h| - 1]) + multiset{h[|h| - 1]}
  {
    assert h == h[..|h| - 1] + [h[|h| - 1]];
  }

  /** Two bags still make up the third when one element is added to it and to one of them. */
  lemma AddToEither<T>(a: multiset<T>, b: multiset<T>, m: multiset<T>,
                       a': multiset<T>, b': multiset<T>, m': multiset<T>, x: T, left: bool)
    requires a + b == m && m' == m + multiset{x}
    requires if left then a' == a + multiset{x} && b' == b else a' == a && b' == b + multiset{x}
    ensures a' + b' == m'
  {
  }

  lemma PartStep(h: seq<Event>, checkouts: bool)
    requires h != []
    ensures var init, last := h[..|h| - 1], h[|h| - 1];
      multiset(Part(h, checkouts)) ==
      if last.Checkout? == checkouts then multiset(Part(init, checkouts)) + multiset{last} else multiset(Part(init, checkouts))
  {
  }

  /** With a checkout first, everything called for is queued. */
  lemma CheckoutFirstQueuesAll(row: Row, notes: map<NoteKey, NoteStatus>, h: seq<Event>, sub: StripeId, snap: Snapshot)
    requires SameReport(h, sub, snap) && h != [] && h[0].Checkout?
    ensures QueuedKeys(Process(Ledger(row, notes, []), h).tasks) == CalledFor(notes, h)
  {
    var start := Ledger(row, notes, []);
    assert h == [h[0]] + h[1..] && h[0] in h;
    ProcessConcat(start, [h[0]], h[1..]);
    ProcessOne(start, h[0]);
    AwaitedInvoicesAllQueue(Apply(row, h[0]), notes, h[1..], sub, snap);
    assert CalledFor(notes, h) == CalledFor(notes, h[1..]);
  }

  lemma ProcessOne(l: Ledger, e: Event)
    ensures Process(l, [e]) == Handle(l, e)
  {
    assert [e][..0] == [];
  }

  /** With the checkouts last, a superseding subscription queues nothing. */
  lemma CheckoutLastQueuesNone(row: Row, notes: map<NoteKey, NoteStatus>, others: seq<Event>, checkouts: seq<Event>, sub: StripeId, snap: Snapshot)
    requires SameReport(others, sub, snap) && !HasCheckout(others) && !Awaits(row, sub)
    requires forall e :: e in checkouts ==> e.Checkout?
    ensures Process(Ledger(row, notes, []), others + checkouts).tasks == []
  {
    ProcessConcat(Ledger(row, notes, []), others, checkouts);
    AllStaleBefore(Ledger(row, notes, []), others, sub, snap);
    CheckoutsQueueNothing(Ledger(row, notes, []), checkouts);
  }

  /** Every order of the history queues the same notifications. */
  ghost predicate QueuesAlike(row: Row, notes: map<NoteKey, NoteStatus>, h: seq<Event>) {
    forall h' :: multiset(h') == multiset(h) ==>
      QueuedKeys(Process(Ledger(row, notes, []), h').tasks) == QueuedKeys(Process(Ledger(row, notes, []), h).tasks)
  }

  lemma QueuesAlikeAt(row: Row, notes: map<NoteKey, NoteStatus>, h: seq<Event>, h': seq<Event>)
    requires QueuesAlike(row, notes, h) && multiset(h') == multiset(h)
    ensures QueuedKeys(Process(Ledger(row, notes, []), h').tasks) == QueuedKeys(Process(Ledger(row, notes, []), h).tasks)
  {
  }

  lemma SameElements(h: seq<Event>, h': seq<Event>)
    requires multiset(h') == multiset(h)
    ensures forall e :: e in h' <==> e in h
  {
    assert forall e :: e in h <==> e in multiset(h);
    assert forall e :: e in h' <==> e in multiset(h');
  }

  lemma UncalledQueuesAlike(row: Row, notes: map<NoteKey, NoteStatus>, h: seq<Event>)
    requires CalledFor(notes, h) == {}
    ensures QueuesAlike(row, notes, h)
  {
    forall h' | multiset(h') == multiset(h)
      ensures QueuedKeys(Process(Ledger(row, notes, []), h').tasks) == QueuedKeys(Process(Ledger(row, notes, []), h).tasks)
    {
      SameElements(h, h');
      OnlyCalledForQueue(row, notes, h);
      OnlyCalledForQueue(row, notes, h');
      assert CalledFor(notes, h') == CalledFor(notes, h);
    }
  }

  /** When another subscription is superseded, putting the checkouts first or last makes all the difference. */
  lemma HasCheckoutFirst(h: seq<Event>, first: seq<Event>, checkouts: seq<Event>)
    requires HasCheckout(h) && checkouts == Part(h, true) && first == checkouts + Part(h, false)
    requires forall e :: e in first <==> e in h
    ensures first != [] && first[0].Checkout?
  {
    var e :| e in h && e.Checkout?;
    assert e in first && e in checkouts;
    assert checkouts[0] in checkouts;
  }

  lemma TwoOrders(row: Row, notes: map<NoteKey, NoteStatus>, h: seq<Event>, sub: StripeId, snap: Snapshot)
    returns (first: seq<Event>, last: seq<Event>)
    requires SameReport(h, sub, snap) && HasCheckout(h) && !Awaits(row, sub)
    ensures multiset(first) == multiset(h) && multiset(last) == multiset(h)
    ensures QueuedKeys(Process(Ledger(row, notes, []), first).tasks) == CalledFor(notes, h)
    ensures Process(Ledger(row, notes, []), last).tasks == []
  {
    var checkouts, others := Part(h, true), Part(h, false);
    PartsMakeWhole(h);
    first, last := checkouts + others, others + checkouts;
    assert multiset(first) == multiset(h) && multiset(last) == multiset(h);
    SameElements(h, first);
    SameElements(h, last);
    HasCheckoutFirst(h, first, checkouts);
    CheckoutFirstQueuesAll(row, notes, first, sub, snap);
    CheckoutLastQueuesNone(row, notes, others, checkouts, sub, snap);
    assert CalledFor(notes, first) == CalledFor(notes, h);
  }

  lemma SupersedingOrderMatters(row: Row, notes: map<NoteKey, NoteStatus>, h: seq<Event>, sub: StripeId, snap: Snapshot)
    requires SameReport(h, sub, snap) && HasCheckout(h) && !Awaits(row, sub) && CalledFor(notes, h) != {}
    ensures !QueuesAlike(row, notes, h)
  {
    var first, last := TwoOrders(row, notes, h, sub, snap);
    assert QueuedKeys([]) == {};
    if QueuesAlike(row, notes, h) {
      QueuesAlikeAt(row, notes, h, first);
      QueuesAlikeAt(row, notes, h, last);
    }
  }

  /**
   Every order of the events that report one state of one subscription, its checkout among them, queues the
   same notifications exactly when the row had no other subscription, or none of its invoices calls for one.
   */
  lemma EmailsIgnoreOrderIff(row: Row, notes: map<NoteKey, NoteStatus>, h: seq<Event>, sub: StripeId, snap: Snapshot)
    requires SameReport(h, sub, snap) && HasCheckout(h)
    ensures QueuesAlike(row, notes, h) <==> Awaits(row, sub) || CalledFor(notes, h) == {}
  {
    if Awaits(row, sub) {
      forall h' | multiset(h') == multiset(h)
        ensures QueuedKeys(Process(Ledger(row, notes, []), h').tasks) == QueuedKeys(Process(Ledger(row, notes, []), h).tasks)
      {
        ArrivalOrderIsIrrelevant(row, notes, h, h', sub, snap);
      }
    } else if CalledFor(notes, h) == {} {
      UncalledQueuesAlike(row, notes, h);
    } else {
      SupersedingOrderMatters(row, notes, h, sub, snap);
    }
  }

  lemma ProcessTwo(l: Ledger, a: Event, b: Event)
    ensures Process(l, [a, b]) == Handle(Handle(l, a), b)
  {
    assert [a, b] == [a] + [b];
    ProcessConcat(l, [a], [b]);
    ProcessOne(l, a);
    ProcessOne(Handle(l, a), b);
  }

  /**
   The smallest case, with no assumption on what the two events report: an invoice event and the checkout that
   supersedes another subscription queue the same email in either order exactly when no other subscription was recorded, or
   when that invoice calls for no email at all.
   */
  lemma OrderMattersWhenSuperseding(row: Row, notes: map<NoteKey, NoteStatus>, checkout: Event, invoice: Event)
    requires checkout.Checkout? && invoice.IsInvoice() && invoice.sub == checkout.sub
    ensures
      QueuedKeys(Process(Ledger(row, notes, []), [invoice, checkout]).tasks) ==
      QueuedKeys(Process(Ledger(row, notes, []), [checkout, invoice]).tasks)
      <==> Awaits(row, checkout.sub) || !Queues(notes, KeyOf(invoice))
  {
    InvoiceAroundCheckout(row, notes, checkout, invoice);
    OneEmail(InvoiceEmail(KeyOf(invoice), row.userId, invoice.url));
  }

  lemma InvoiceAroundCheckout(row: Row, notes: map<NoteKey, NoteStatus>, checkout: Event, invoice: Event)
    requires checkout.Checkout? && invoice.IsInvoice() && invoice.sub == checkout.sub
    ensures var email := [InvoiceEmail(KeyOf(invoice), row.userId, invoice.url)];
      && Process(Ledger(row, notes, []), [invoice, checkout]).tasks ==
           (if Awaits(row, checkout.sub) && Queues(notes, KeyOf(invoice)) then email else [])
      && Process(Ledger(row, notes, []), [checkout, invoice]).tasks ==
           (if Queues(notes, KeyOf(invoice)) then email else [])
  {
    ProcessTwo(Ledger(row, notes, []), invoice, checkout);
    ProcessTwo(Ledger(row, notes, []), checkout, invoice);
  }

  lemma OneEmail(t: Task)
    requires t.InvoiceEmail?
    ensures QueuedKeys([t]) == {t.key} && QueuedKeys([]) == {}
  {
    assert [t][0] in [t];
  }
}
