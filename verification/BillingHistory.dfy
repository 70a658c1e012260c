/**
 What a history of changes leaves in a subscription row, said without running them: each field is the value
 carried by one change of the history, picked out by its position alone.
 */
module BillingHistory {
  import opened Options
  import opened StripePeriods
  import opened SubscriptionRow

  // ---------- Which subscription is current ----------

  function LastCheckout(h: seq<Change>): (last: Option<nat>)
    ensures last.Some? ==> last.value < |h| && h[last.value].IsCheckout()
    ensures forall k :: (if last.Some? then last.value + 1 else 0) <= k < |h| ==> !h[k].IsCheckout()
  {
    if h == [] then None
    else if h[|h| - 1].IsCheckout() then Some(|h| - 1)
    else LastCheckout(h[..|h| - 1])
  }

  function FirstInvoice(h: seq<Change>): (first: Option<nat>)
    ensures first.Some? ==> first.value < |h| && h[first.value].IsInvoice()
    ensures forall k :: 0 <= k < (if first.Some? then first.value else |h|) ==> !h[k].IsInvoice()
  {
    if h == [] then None
    else
      var first := FirstInvoice(h[..|h| - 1]);
      if first.Some? then first
      else if h[|h| - 1].IsInvoice() then Some(|h| - 1)
      else None
  }

  /** The last checkout's subscription, and before any checkout the first invoice's. */
  function CurrentSub(h: seq<Change>): Option<string> {
    match LastCheckout(h)
    case Some(c) => Some(h[c].event.sub)
    case None =>
      match FirstInvoice(h)
      case Some(i) => Some(h[i].event.sub)
      case None => None
  }

  /** Event `e`, after history `h`, is not rejected as stale. */
  predicate AcceptedAfter(h: seq<Change>, e: Event) {
    e.Checkout? || CurrentSub(h) == Some(e.sub) || (e.IsInvoice() && CurrentSub(h) == None)
  }

  /** Change `i` of the history is a cancellation, or an event that is not rejected as stale. */
  predicate Accepted(h: seq<Change>, i: nat)
    requires i < |h|
  {
    h[i].Hook? ==> AcceptedAfter(h[..i], h[i].event)
  }

  // ---------- Which change last wrote each field ----------

  datatype Field = STATUS | PERIOD | CANCEL_FLAG | PERIOD_END

  /** PERIOD stands for the period start and the cancellation dates, always written together. */
  predicate Carries(c: Change, field: Field) {
    match field
    case STATUS => c.Hook?
    case PERIOD => c.Hook? && !c.event.Failed?
    case CANCEL_FLAG => c.CancelSaved? || !c.event.Failed?
    case PERIOD_END =>
      || c.CancelSaved? || c.event.Checkout? || c.event.Deleted?
      || (!c.event.Failed? && c.event.snap.periodEnd.Some?)
  }

  predicate Writes(h: seq<Change>, i: nat, field: Field)
    requires i < |h|
  {
    Accepted(h, i) && Carries(h[i], field)
  }

  function LastWriter(h: seq<Change>, field: Field): (last: Option<nat>)
    ensures last.Some? ==> last.value < |h| && Writes(h, last.value, field)
    ensures forall k :: (if last.Some? then last.value + 1 else 0) <= k < |h| ==> !Writes(h, k, field)
  {
    if h == [] then None
    else
      assert forall k :: 0 <= k < |h| - 1 ==> h[..|h| - 1][..k] == h[..k];
      assert forall k :: 0 <= k < |h| - 1 ==> Writes(h[..|h| - 1], k, field) == Writes(h, k, field);
      if Writes(h, |h| - 1, field) then Some(|h| - 1) else LastWriter(h[..|h| - 1], field)
  }

  /** Change `i` carries a start date that a row without one would take. */
  predicate OffersStart(h: seq<Change>, i: nat)
    requires i < |h|
  {
    && h[i].Hook? && Accepted(h, i)
    && (h[i].event.Checkout? || h[i].event.Paid? || h[i].event.Updated?)
    && h[i].event.snap.startedAt.Some?
  }

  /** The first change since the last checkout that offered a start date. */
  function StartWriter(h: seq<Change>): (first: Option<nat>)
    ensures var since := if LastCheckout(h).Some? then LastCheckout(h).value else 0;
      && (first.Some? ==> since <= first.value < |h| && OffersStart(h, first.value))
      && forall k :: since <= k < (if first.Some? then first.value else |h|) ==> !OffersStart(h, k)
  {
    if h == [] then None
    else
      assert forall k :: 0 <= k < |h| - 1 ==> h[..|h| - 1][..k] == h[..k];
      assert forall k :: 0 <= k < |h| - 1 ==> OffersStart(h[..|h| - 1], k) == OffersStart(h, k);
      var earlier := if h[|h| - 1].IsCheckout() then None else StartWriter(h[..|h| - 1]);
      if earlier.Some? then earlier
      else if OffersStart(h, |h| - 1) then Some(|h| - 1)
      else None
  }

  function StatusOf(e: Event): Status {
    match e
    case Failed(_, _, stripeStatus, _, _) => MapStatus(stripeStatus)
    case Deleted(_, _, _, _) => CANCELED
    case _ => MapStatus(e.snap.stripeStatus)
  }

  function EndedAtOf(e: Event): Option<Time>
    requires !e.Failed?
  {
    if e.Deleted? && e.snap.endedAt.None? then FirstOf(e.snap.canceledAt, Some(e.now)) else e.snap.endedAt
  }

  function FlagOf(c: Change): bool
    requires Carries(c, CANCEL_FLAG)
  {
    c.CancelSaved? || c.event.snap.cancelAtPeriodEnd
  }

  function PeriodEndOf(c: Change): Option<Time>
    requires Carries(c, PERIOD_END)
  {
    if c.CancelSaved? then c.end else c.event.snap.periodEnd
  }

  /** The change of the history that last wrote the field. */
  function LastReport(h: seq<Change>, field: Field): (c: Option<Change>)
    ensures c.Some? ==> Carries(c.value, field)
  {
    match LastWriter(h, field)
    case None => None
    case Some(i) => Some(h[i])
  }

  function CurrentStart(h: seq<Change>): Option<Time> {
    match StartWriter(h)
    case None => None
    case Some(i) => h[i].event.snap.startedAt
  }

  /** The row with the given writers of its fields. */
  function RowOf(userId: nat, sub: Option<string>, start: Option<Time>,
                 status: Option<Change>, period: Option<Change>, flag: Option<Change>, end: Option<Change>): Row
    requires status.Some? ==> Carries(status.value, STATUS)
    requires period.Some? ==> Carries(period.value, PERIOD)
    requires flag.Some? ==> Carries(flag.value, CANCEL_FLAG)
    requires end.Some? ==> Carries(end.value, PERIOD_END)
  {
    Row(
      userId,
      if status.Some? then StatusOf(status.value.event) else INACTIVE,
      sub,
      start,
      if period.Some? then period.value.event.snap.periodStart else None,
      if end.Some? then PeriodEndOf(end.value) else None,
      flag.Some? && FlagOf(flag.value),
      if period.Some? then period.value.event.snap.canceledAt else None,
      if period.Some? then EndedAtOf(period.value.event) else None)
  }

  /** The row a history leaves, read off the history. */
  function Declared(userId: nat, h: seq<Change>): Row {
    RowOf(userId, CurrentSub(h), CurrentStart(h),
          LastReport(h, STATUS), LastReport(h, PERIOD), LastReport(h, CANCEL_FLAG), LastReport(h, PERIOD_END))
  }

  // One more change alters the declared row exactly as it alters the stored one.

  lemma CurrentSubStep(h: seq<Change>)
    requires h != []
    ensures var before := CurrentSub(h[..|h| - 1]); var c := h[|h| - 1];
      CurrentSub(h) == if c.IsCheckout() || (before.None? && c.IsInvoice()) then Some(c.event.sub) else before
  {
  }

  lemma LastReportStep(h: seq<Change>, field: Field)
    requires h != []
    ensures LastReport(h, field) ==
      if Writes(h, |h| - 1, field) then Some(h[|h| - 1]) else LastReport(h[..|h| - 1], field)
  {
  }

  lemma CurrentStartStep(h: seq<Change>)
    requires h != []
    ensures var c := h[|h| - 1];
      var before := if c.IsCheckout() then None else CurrentStart(h[..|h| - 1]);
      CurrentStart(h) == if before.None? && OffersStart(h, |h| - 1) then c.event.snap.startedAt else before
  {
  }

  lemma AcceptedStep(userId: nat, h: seq<Change>)
    requires h != [] && h[|h| - 1].Hook?
    ensures Accepts(Declared(userId, h[..|h| - 1]), h[|h| - 1].event) <==> Accepted(h, |h| - 1)
  {
  }

  /** What one accepted event does to a row with the given writers. */
  lemma RowOfEvent(userId: nat, sub: Option<string>, start: Option<Time>,
                   status: Option<Change>, period: Option<Change>, flag: Option<Change>, end: Option<Change>, e: Event)
    requires status.Some? ==> Carries(status.value, STATUS)
    requires period.Some? ==> Carries(period.value, PERIOD)
    requires flag.Some? ==> Carries(flag.value, CANCEL_FLAG)
    requires end.Some? ==> Carries(end.value, PERIOD_END)
    requires Accepts(RowOf(userId, sub, start, status, period, flag, end), e)
    ensures Apply(RowOf(userId, sub, start, status, period, flag, end), e) ==
      RowOf(userId, Some(e.sub), StartAfter(start, e), Some(Hook(e)), Newest(period, Hook(e), PERIOD),
            Newest(flag, Hook(e), CANCEL_FLAG), Newest(end, Hook(e), PERIOD_END))
  {
  }

  function Newest(before: Option<Change>, c: Change, field: Field): Option<Change> {
    if Carries(c, field) then Some(c) else before
  }

  function StartAfter(start: Option<Time>, e: Event): Option<Time> {
    if e.Checkout? then e.snap.startedAt
    else if e.Failed? || e.Deleted? then start
    else FirstOf(start, e.snap.startedAt)
  }

  lemma DeclaredStep(userId: nat, h: seq<Change>)
    requires h != []
    ensures Declared(userId, h) == ApplyChange(Declared(userId, h[..|h| - 1]), h[|h| - 1])
  {
    var before, c := h[..|h| - 1], h[|h| - 1];
    if c.Hook? {
      AcceptedStep(userId, h);
      if Accepted(h, |h| - 1) {
        RowOfEvent(userId, CurrentSub(before), CurrentStart(before), LastReport(before, STATUS), LastReport(before, PERIOD),
                   LastReport(before, CANCEL_FLAG), LastReport(before, PERIOD_END), c.event);
      }
    }
    CurrentSubStep(h);
    LastReportStep(h, STATUS);
    LastReportStep(h, PERIOD);
    LastReportStep(h, CANCEL_FLAG);
    LastReportStep(h, PERIOD_END);
    CurrentStartStep(h);
  }

  /** For every history, the handlers and the cancellations leave exactly the declared row. */
  lemma {:induction false} HandlersLeaveDeclaredRow(userId: nat, h: seq<Change>)
    ensures RunChanges(Fresh(userId), h) == Declared(userId, h)
  {
    if h != [] {
      HandlersLeaveDeclaredRow(userId, h[..|h| - 1]);
      DeclaredStep(userId, h);
    }
  }

  /** Acceptance along a run is the positional notion. */
  lemma AcceptedIsAccepts(userId: nat, h: seq<Change>, i: nat)
    requires i < |h| && h[i].Hook?
    ensures Accepts(RunChanges(Fresh(userId), h[..i]), h[i].event) == Accepted(h, i)
  {
    HandlersLeaveDeclaredRow(userId, h[..i]);
  }

  /** A recorded subscription id is replaced by the last checkout, and by nothing else. */
  lemma {:induction false} RecordedIdReplacedOnlyByCheckout(row: Row, h: seq<Change>)
    requires !Unlinked(row)
    ensures var last := LastCheckout(h);
      RunChanges(row, h).subscriptionId == if last.Some? then Some(h[last.value].event.sub) else row.subscriptionId
  {
    if h != [] {
      RecordedIdReplacedOnlyByCheckout(row, h[..|h| - 1]);
    }
  }

  /** The Stripe status that an event reports. */
  function ReportedStatus(e: Event): string {
    if e.Failed? then e.stripeStatus else e.snap.stripeStatus
  }

  /**
   Over every history, Pro is granted at a moment exactly when the last accepted event was no deletion and reported
   an active, trialing or overdue subscription, and the last change of the period end set one after that moment.
   */
  lemma ProByHistory(userId: nat, h: seq<Change>, now: Time)
    ensures var status, end := LastReport(h, STATUS), LastReport(h, PERIOD_END);
      Pro(RunChanges(Fresh(userId), h), now) <==>
        && status.Some? && !status.value.event.Deleted?
        && ReportedStatus(status.value.event) in {"active", "trialing", "past_due"}
        && end.Some?
        && match end.value
           case Hook(e) => e.snap.periodEnd.Some? && e.snap.periodEnd.value > now
           case CancelSaved(_, saved) => saved.Some? && saved.value > now
  {
    HandlersLeaveDeclaredRow(userId, h);
    var status := LastReport(h, STATUS);
    if status.Some? {
      StripeStatusMeans(ReportedStatus(status.value.event));
    }
  }

  /** An accepted deletion ends the subscription: at the reported end, else the cancellation, else at once. */
  lemma DeletionEnds(row: Row, e: Event)
    requires e.Deleted? && Accepts(row, e)
    ensures var ended := Apply(row, e).endedAt;
      ended == if e.snap.endedAt.Some? then e.snap.endedAt else if e.snap.canceledAt.Some? then e.snap.canceledAt else Some(e.now)
  {
  }

  // ---------- Exactly when a stored period end is kept ----------

  /** The change leaves a row that has a period end with one. */
  predicate LeavesEnd(row: Row, c: Change) {
    match c
    case Hook(e) => Accepts(row, e) && (e.Checkout? || e.Deleted?) ==> e.snap.periodEnd.Some?
    case CancelSaved(_, end) => end.Some?
  }

  /** The row has a period end at the start and after every change. */
  predicate AlwaysHasEnd(row: Row, h: seq<Change>) {
    RunChanges(row, h).periodEnd.Some? && (h != [] ==> AlwaysHasEnd(row, h[..|h| - 1]))
  }

  predicate EveryChangeLeavesEnd(row: Row, h: seq<Change>) {
    h != [] ==>
      var init := h[..|h| - 1];
      LeavesEnd(RunChanges(row, init), h[|h| - 1]) && EveryChangeLeavesEnd(row, init)
  }

  lemma LeavesEndIff(row: Row, c: Change)
    requires row.periodEnd.Some?
    ensures ApplyChange(row, c).periodEnd.Some? <==> LeavesEnd(row, c)
  {
  }

  /**
   Over every history of events and saved cancellations, a row that has a period end keeps one throughout exactly
   when every checkout and every accepted deletion carries one and every cancellation saves one; paid, failed and
   updated events never take it away, whatever they leave unread.
   */
  lemma {:induction false} PeriodEndIsKeptIff(row: Row, h: seq<Change>)
    requires row.periodEnd.Some?
    ensures AlwaysHasEnd(row, h) <==> EveryChangeLeavesEnd(row, h)
  {
    if h != [] {
      var init := h[..|h| - 1];
      PeriodEndIsKeptIff(row, init);
      if AlwaysHasEnd(row, init) {
        LeavesEndIff(RunChanges(row, init), h[|h| - 1]);
      }
    }
  }
}
