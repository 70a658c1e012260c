/**
 Where the entitlement comes from: over every history of webhooks and cancellation requests, a stored
 period end was reported by Stripe for the subscription the row currently records, as long as no checkout
 supersedes a subscription between the read and the save of its cancellation.
 */
module Provenance {
  import opened Options
  import opened StripePeriods
  import opened SubscriptionRow
  import opened StripeMappers

  /**
   A webhook, or the end of a cancellation request, with the items of the subscription Stripe returned for it.
   The request read the row, without a lock, after the first `read` actions.
   */
  datatype Action = Webhook(delivery: Delivery) | CancelRequest(read: nat, reply: Option<seq<Item>>)

  function CancelReply(reply: Option<seq<Item>>, proPrice: string): Option<Option<Time>> {
    if reply.None? then None else Some(PeriodBoundary(reply.value, proPrice, PeriodEnd))
  }

  function Act(row: Row, seen: Row, a: Action, proPrice: string): Row {
    match a
    case Webhook(d) =>
      (match BuildEvent(d, proPrice)
       case Built(e) => Apply(row, e)
       case Malformed(_) => row)
    case CancelRequest(_, reply) =>
      match Cancel(seen, CancelReply(reply, proPrice))
      case Scheduled(end) => SaveCancel(row, end)
      case Refused(_) => row
  }

  /** How many actions lay behind the row that action `i` read; a webhook reads it under the lock. */
  function ReadPoint(acts: seq<Action>, i: nat): (k: nat)
    requires i < |acts|
    ensures k <= i
  {
    if acts[i].CancelRequest? && acts[i].read < i then acts[i].read else i
  }

  function RunActions(row: Row, acts: seq<Action>, proPrice: string): Row {
    if acts == [] then row
    else
      var n := |acts| - 1;
      Act(RunActions(row, acts[..n], proPrice), RunActions(row, acts[..ReadPoint(acts, n)], proPrice), acts[n], proPrice)
  }

  /** The row after the first `i` actions. */
  function RowAt(userId: nat, acts: seq<Action>, proPrice: string, i: nat): Row
    requires i <= |acts|
  {
    RunActions(Fresh(userId), acts[..i], proPrice)
  }

  /** The row that action `i` read. */
  function Seen(userId: nat, acts: seq<Action>, proPrice: string, i: nat): Row
    requires i < |acts|
  {
    RowAt(userId, acts, proPrice, ReadPoint(acts, i))
  }

  lemma RowAtPrefix(userId: nat, acts: seq<Action>, proPrice: string, n: nat, i: nat)
    requires i <= n <= |acts|
    ensures RowAt(userId, acts[..n], proPrice, i) == RowAt(userId, acts, proPrice, i)
  {
    assert acts[..n][..i] == acts[..i];
  }

  lemma RowAtStep(userId: nat, acts: seq<Action>, proPrice: string, i: nat)
    requires i < |acts|
    ensures RowAt(userId, acts, proPrice, i + 1)
         == Act(RowAt(userId, acts, proPrice, i), Seen(userId, acts, proPrice, i), acts[i], proPrice)
  {
    var init := acts[..i + 1];
    assert init[..i] == acts[..i] && init[i] == acts[i];
    assert init[..ReadPoint(init, i)] == acts[..ReadPoint(acts, i)];
  }

  /**
   Action `i` carried a Stripe report about subscription `id` whose period ends at `end`. A cancellation
   reply is about the subscription recorded when the request read the row.
   */
  ghost predicate Reports(userId: nat, acts: seq<Action>, proPrice: string, i: nat, id: Option<string>, end: Time)
    requires i < |acts|
  {
    match acts[i]
    case Webhook(d) =>
      && id == Some(d.sub.id)
      && IsReportedBoundary(d.sub.items, proPrice, PeriodEnd, Some(end))
    case CancelRequest(_, reply) =>
      && reply.Some?
      && id == Seen(userId, acts, proPrice, i).subscriptionId
      && IsReportedBoundary(reply.value, proPrice, PeriodEnd, Some(end))
  }

  lemma ReportsPrefix(userId: nat, acts: seq<Action>, proPrice: string, n: nat, i: nat, id: Option<string>, end: Time)
    requires i < n <= |acts|
    ensures Reports(userId, acts[..n], proPrice, i, id, end) == Reports(userId, acts, proPrice, i, id, end)
  {
    RowAtPrefix(userId, acts, proPrice, n, ReadPoint(acts, i));
  }

  // ---------- Unlinked rows ----------

  /** A row with a subscription id never loses it. */
  lemma {:induction false} LinkedStays(userId: nat, acts: seq<Action>, proPrice: string, k: nat, n: nat)
    requires k <= n <= |acts| && !Unlinked(RowAt(userId, acts, proPrice, k))
    ensures !Unlinked(RowAt(userId, acts, proPrice, n))
  {
    if k < n {
      LinkedStays(userId, acts, proPrice, k, n - 1);
      RowAtStep(userId, acts, proPrice, n - 1);
    }
  }

  /** A row that no event has been accepted for is as it was created. */
  lemma {:induction false} UnlinkedIsPristine(userId: nat, acts: seq<Action>, proPrice: string, n: nat)
    requires n <= |acts|
    ensures var row := RowAt(userId, acts, proPrice, n); Unlinked(row) ==> row == Fresh(userId)
  {
    if n > 0 {
      var i := n - 1;
      UnlinkedIsPristine(userId, acts, proPrice, i);
      RowAtStep(userId, acts, proPrice, i);
      if !Unlinked(Seen(userId, acts, proPrice, i)) {
        LinkedStays(userId, acts, proPrice, ReadPoint(acts, i), i);
      }
    }
  }

  // ---------- Reported period ends ----------

  /** The stored period end was reported, by one of the first `n` actions, for the given subscription. */
  ghost predicate EndReportedFor(userId: nat, acts: seq<Action>, proPrice: string, n: nat, id: Option<string>)
    requires n <= |acts|
  {
    var row := RowAt(userId, acts, proPrice, n);
    row.periodEnd.Some? ==>
      exists i :: 0 <= i < n && Reports(userId, acts, proPrice, i, id, row.periodEnd.value)
  }

  /** ... for the recorded one. */
  ghost predicate EndReported(userId: nat, acts: seq<Action>, proPrice: string, n: nat)
    requires n <= |acts|
  {
    EndReportedFor(userId, acts, proPrice, n, RowAt(userId, acts, proPrice, n).subscriptionId)
  }

  /** Event `e` carries a period end, or the news that there is none. */
  predicate WritesEnd(e: Event) {
    e.Checkout? || e.Deleted? || (!e.Failed? && e.snap.periodEnd.Some?)
  }

  /** The subscription from whose report the stored period end comes, after the first `n` actions. */
  function EndSource(userId: nat, acts: seq<Action>, proPrice: string, n: nat): Option<string>
    requires n <= |acts|
  {
    if n == 0 then None
    else
      var i := n - 1;
      match acts[i]
      case Webhook(d) =>
        if HookWritesEnd(userId, acts, proPrice, i) then Some(d.sub.id) else EndSource(userId, acts, proPrice, i)
      case CancelRequest(_, reply) =>
        var seen := Seen(userId, acts, proPrice, i);
        match EffectOf(seen, reply, proPrice)
        case NOTHING => EndSource(userId, acts, proPrice, i)
        case REPLIED => seen.subscriptionId
        case AS_READ => EndSource(userId, acts, proPrice, ReadPoint(acts, i))
  }

  lemma SameEndReported(userId: nat, acts: seq<Action>, proPrice: string, k: nat, n: nat, id: Option<string>)
    requires k <= n <= |acts| && EndReportedFor(userId, acts, proPrice, k, id)
    requires RowAt(userId, acts, proPrice, n).periodEnd == RowAt(userId, acts, proPrice, k).periodEnd
    ensures EndReportedFor(userId, acts, proPrice, n, id)
  {
    var row := RowAt(userId, acts, proPrice, k);
    if row.periodEnd.Some? {
      var i :| 0 <= i < k && Reports(userId, acts, proPrice, i, id, row.periodEnd.value);
      assert 0 <= i < n;
    }
  }

  /** The action reports the very period end that it leaves. */
  lemma OwnReport(userId: nat, acts: seq<Action>, proPrice: string, i: nat, id: Option<string>)
    requires i < |acts|
    requires var end := RowAt(userId, acts, proPrice, i + 1).periodEnd; end.Some? ==> Reports(userId, acts, proPrice, i, id, end.value)
    ensures EndReportedFor(userId, acts, proPrice, i + 1, id)
  {
  }

  /** The webhook writes the period end. */
  predicate HookWritesEnd(userId: nat, acts: seq<Action>, proPrice: string, i: nat)
    requires i < |acts| && acts[i].Webhook?
  {
    var built := BuildEvent(acts[i].delivery, proPrice);
    built.Built? && Accepts(RowAt(userId, acts, proPrice, i), built.event) && WritesEnd(built.event)
  }

  lemma HookEnd(userId: nat, acts: seq<Action>, proPrice: string, i: nat)
    requires i < |acts| && acts[i].Webhook?
    ensures var end := RowAt(userId, acts, proPrice, i + 1).periodEnd;
      end == if HookWritesEnd(userId, acts, proPrice, i) then PeriodBoundary(acts[i].delivery.sub.items, proPrice, PeriodEnd)
             else RowAt(userId, acts, proPrice, i).periodEnd
  {
    RowAtStep(userId, acts, proPrice, i);
  }

  lemma HookSource(userId: nat, acts: seq<Action>, proPrice: string, i: nat)
    requires i < |acts| && acts[i].Webhook?
    ensures EndSource(userId, acts, proPrice, i + 1) ==
      if HookWritesEnd(userId, acts, proPrice, i) then Some(acts[i].delivery.sub.id) else EndSource(userId, acts, proPrice, i)
  {
  }

  lemma WebhookReports(userId: nat, acts: seq<Action>, proPrice: string, i: nat)
    requires i < |acts| && acts[i].Webhook?
    requires EndReportedFor(userId, acts, proPrice, i, EndSource(userId, acts, proPrice, i))
    ensures EndReportedFor(userId, acts, proPrice, i + 1, EndSource(userId, acts, proPrice, i + 1))
  {
    HookEnd(userId, acts, proPrice, i);
    HookSource(userId, acts, proPrice, i);
    if HookWritesEnd(userId, acts, proPrice, i) {
      BoundaryIsReported(acts[i].delivery.sub.items, proPrice, PeriodEnd);
      OwnReport(userId, acts, proPrice, i, EndSource(userId, acts, proPrice, i + 1));
    } else {
      SameEndReported(userId, acts, proPrice, i, i + 1, EndSource(userId, acts, proPrice, i));
    }
  }

  /** What a cancellation does to the period end: nothing, the reply's, or the one it had read. */
  datatype CancelEffect = NOTHING | REPLIED | AS_READ

  function EffectOf(seen: Row, reply: Option<seq<Item>>, proPrice: string): CancelEffect {
    if Cancel(seen, CancelReply(reply, proPrice)).Refused? then NOTHING
    else if PeriodBoundary(reply.value, proPrice, PeriodEnd).Some? then REPLIED
    else AS_READ
  }

  lemma CancelEnd(userId: nat, acts: seq<Action>, proPrice: string, i: nat)
    requires i < |acts| && acts[i].CancelRequest?
    ensures var seen, end := Seen(userId, acts, proPrice, i), RowAt(userId, acts, proPrice, i + 1).periodEnd;
      match EffectOf(seen, acts[i].reply, proPrice)
      case NOTHING => end == RowAt(userId, acts, proPrice, i).periodEnd
      case REPLIED => end.Some? && end == PeriodBoundary(acts[i].reply.value, proPrice, PeriodEnd)
      case AS_READ => end == seen.periodEnd
  {
    RowAtStep(userId, acts, proPrice, i);
  }

  lemma CancelSource(userId: nat, acts: seq<Action>, proPrice: string, i: nat)
    requires i < |acts| && acts[i].CancelRequest?
    ensures var seen, source := Seen(userId, acts, proPrice, i), EndSource(userId, acts, proPrice, i + 1);
      match EffectOf(seen, acts[i].reply, proPrice)
      case NOTHING => source == EndSource(userId, acts, proPrice, i)
      case REPLIED => source == seen.subscriptionId
      case AS_READ => source == EndSource(userId, acts, proPrice, ReadPoint(acts, i))
  {
  }

  lemma CancelReports(userId: nat, acts: seq<Action>, proPrice: string, i: nat)
    requires i < |acts| && acts[i].CancelRequest?
    requires EndReportedFor(userId, acts, proPrice, i, EndSource(userId, acts, proPrice, i))
    requires var k := ReadPoint(acts, i); EndReportedFor(userId, acts, proPrice, k, EndSource(userId, acts, proPrice, k))
    ensures EndReportedFor(userId, acts, proPrice, i + 1, EndSource(userId, acts, proPrice, i + 1))
  {
    CancelEnd(userId, acts, proPrice, i);
    CancelSource(userId, acts, proPrice, i);
    match EffectOf(Seen(userId, acts, proPrice, i), acts[i].reply, proPrice)
    case NOTHING => SameEndReported(userId, acts, proPrice, i, i + 1, EndSource(userId, acts, proPrice, i));
    case REPLIED => RepliedReports(userId, acts, proPrice, i);
    case AS_READ =>
      var k := ReadPoint(acts, i);
      SameEndReported(userId, acts, proPrice, k, i + 1, EndSource(userId, acts, proPrice, k));
  }

  lemma RepliedReports(userId: nat, acts: seq<Action>, proPrice: string, i: nat)
    requires i < |acts| && acts[i].CancelRequest?
    requires EffectOf(Seen(userId, acts, proPrice, i), acts[i].reply, proPrice).REPLIED?
    ensures EndReportedFor(userId, acts, proPrice, i + 1, Seen(userId, acts, proPrice, i).subscriptionId)
  {
    CancelEnd(userId, acts, proPrice, i);
    BoundaryIsReported(acts[i].reply.value, proPrice, PeriodEnd);
    OwnReport(userId, acts, proPrice, i, Seen(userId, acts, proPrice, i).subscriptionId);
  }

  /** Over every history a stored period end was reported by Stripe, for the subscription it stems from. */
  lemma {:induction false} PeriodEndIsReported(userId: nat, acts: seq<Action>, proPrice: string, n: nat)
    requires n <= |acts|
    ensures EndReportedFor(userId, acts, proPrice, n, EndSource(userId, acts, proPrice, n))
  {
    if n > 0 {
      var i := n - 1;
      PeriodEndIsReported(userId, acts, proPrice, i);
      if acts[i].Webhook? {
        WebhookReports(userId, acts, proPrice, i);
      } else {
        PeriodEndIsReported(userId, acts, proPrice, ReadPoint(acts, i));
        CancelReports(userId, acts, proPrice, i);
      }
    }
  }

  // ---------- Exactly when it stems from the recorded subscription ----------

  /** The stored period end, if there is one, stems from the recorded subscription. */
  predicate Stems(userId: nat, acts: seq<Action>, proPrice: string, n: nat)
    requires n <= |acts|
  {
    var row := RowAt(userId, acts, proPrice, n);
    row.periodEnd.Some? ==> EndSource(userId, acts, proPrice, n) == row.subscriptionId
  }

  /** A cancellation that saves a period end saves it to the row of the very subscription it read. */
  predicate SavesWhatItRead(userId: nat, acts: seq<Action>, proPrice: string, i: nat)
    requires i < |acts|
  {
    acts[i].CancelRequest? ==>
      var seen := Seen(userId, acts, proPrice, i);
      match Cancel(seen, CancelReply(acts[i].reply, proPrice))
      case Refused(_) => true
      case Scheduled(end) => end.Some? ==> seen.subscriptionId == RowAt(userId, acts, proPrice, i).subscriptionId
  }

  lemma WebhookStems(userId: nat, acts: seq<Action>, proPrice: string, i: nat)
    requires i < |acts| && acts[i].Webhook? && Stems(userId, acts, proPrice, i)
    ensures Stems(userId, acts, proPrice, i + 1)
  {
    RowAtStep(userId, acts, proPrice, i);
    UnlinkedIsPristine(userId, acts, proPrice, i);
  }

  lemma CancelStemsIff(userId: nat, acts: seq<Action>, proPrice: string, i: nat)
    requires i < |acts| && acts[i].CancelRequest?
    requires Stems(userId, acts, proPrice, i) && Stems(userId, acts, proPrice, ReadPoint(acts, i))
    ensures Stems(userId, acts, proPrice, i + 1) <==> SavesWhatItRead(userId, acts, proPrice, i)
  {
    RowAtStep(userId, acts, proPrice, i);
  }

  ghost predicate AlwaysStems(userId: nat, acts: seq<Action>, proPrice: string, n: nat)
    requires n <= |acts|
  {
    forall k :: 0 <= k <= n ==> Stems(userId, acts, proPrice, k)
  }

  ghost predicate AllSaveWhatTheyRead(userId: nat, acts: seq<Action>, proPrice: string, n: nat)
    requires n <= |acts|
  {
    forall i :: 0 <= i < n ==> SavesWhatItRead(userId, acts, proPrice, i)
  }

  /**
   Over every history, the stored period end stems throughout from the recorded subscription exactly when every
   cancellation that saved one saved it to the row of the subscription it had read.
   */
  lemma {:induction false} EndStemsIff(userId: nat, acts: seq<Action>, proPrice: string, n: nat)
    requires n <= |acts|
    ensures AlwaysStems(userId, acts, proPrice, n) <==> AllSaveWhatTheyRead(userId, acts, proPrice, n)
  {
    if n == 0 {
      assert acts[..0] == [];
    } else {
      var i := n - 1;
      EndStemsIff(userId, acts, proPrice, i);
      if AlwaysStems(userId, acts, proPrice, i) {
        StepStemsIff(userId, acts, proPrice, i);
      }
    }
  }

  lemma StepStemsIff(userId: nat, acts: seq<Action>, proPrice: string, i: nat)
    requires i < |acts| && AlwaysStems(userId, acts, proPrice, i)
    ensures Stems(userId, acts, proPrice, i + 1) <==> SavesWhatItRead(userId, acts, proPrice, i)
  {
    assert Stems(userId, acts, proPrice, i);
    if acts[i].Webhook? {
      WebhookStems(userId, acts, proPrice, i);
    } else {
      assert Stems(userId, acts, proPrice, ReadPoint(acts, i));
      CancelStemsIff(userId, acts, proPrice, i);
    }
  }

  /** As long as they do, a stored period end was reported for the recorded subscription. */
  lemma TimelySavesReport(userId: nat, acts: seq<Action>, proPrice: string, n: nat)
    requires n <= |acts| && AllSaveWhatTheyRead(userId, acts, proPrice, n)
    ensures EndReported(userId, acts, proPrice, n)
  {
    EndStemsIff(userId, acts, proPrice, n);
    PeriodEndIsReported(userId, acts, proPrice, n);
    assert Stems(userId, acts, proPrice, n);
  }

  // ---------- Exactly when it is kept ----------

  /**
   Action `i` leaves a row that has a period end with one: a webhook that writes the period end has a date to
   write, and a cancellation that goes through has one in Stripe's reply or in the row it read.
   */
  predicate KeepsEnd(userId: nat, acts: seq<Action>, proPrice: string, i: nat)
    requires i < |acts|
  {
    match acts[i]
    case Webhook(d) => HookWritesEnd(userId, acts, proPrice, i) ==> PeriodBoundary(d.sub.items, proPrice, PeriodEnd).Some?
    case CancelRequest(_, reply) =>
      var seen := Seen(userId, acts, proPrice, i);
      EffectOf(seen, reply, proPrice).AS_READ? ==> seen.periodEnd.Some?
  }

  lemma KeepsEndIff(userId: nat, acts: seq<Action>, proPrice: string, i: nat)
    requires i < |acts| && RowAt(userId, acts, proPrice, i).periodEnd.Some?
    ensures RowAt(userId, acts, proPrice, i + 1).periodEnd.Some? <==> KeepsEnd(userId, acts, proPrice, i)
  {
    if acts[i].Webhook? {
      HookEnd(userId, acts, proPrice, i);
    } else {
      CancelEnd(userId, acts, proPrice, i);
    }
  }

  predicate HasEnd(userId: nat, acts: seq<Action>, proPrice: string, n: nat)
    requires n <= |acts|
  {
    RowAt(userId, acts, proPrice, n).periodEnd.Some?
  }

  /** The row has a period end after `k` actions and ever since. */
  predicate HasEndSince(userId: nat, acts: seq<Action>, proPrice: string, k: nat, n: nat)
    requires k <= n <= |acts|
  {
    forall j :: k <= j <= n ==> HasEnd(userId, acts, proPrice, j)
  }

  predicate AllKeepEnd(userId: nat, acts: seq<Action>, proPrice: string, k: nat, n: nat)
    requires k <= n <= |acts|
  {
    forall i :: k <= i < n ==> KeepsEnd(userId, acts, proPrice, i)
  }

  /**
   Over every history, a period end stored after `k` actions is kept throughout exactly when no checkout or
   deletion since came without one, and no cancellation since paired a reply without a readable one with a row
   read without one.
   */
  lemma {:induction false} EndIsKeptIff(userId: nat, acts: seq<Action>, proPrice: string, k: nat, n: nat)
    requires k <= n <= |acts| && HasEnd(userId, acts, proPrice, k)
    ensures HasEndSince(userId, acts, proPrice, k, n) <==> AllKeepEnd(userId, acts, proPrice, k, n)
  {
    if k < n {
      var i := n - 1;
      EndIsKeptIff(userId, acts, proPrice, k, i);
      if HasEndSince(userId, acts, proPrice, k, i) {
        assert HasEnd(userId, acts, proPrice, i);
        KeepsEndIff(userId, acts, proPrice, i);
        assert HasEnd(userId, acts, proPrice, n) <==> KeepsEnd(userId, acts, proPrice, i);
      }
    }
  }

  // ---------- Exactly when a late save is harmless ----------

  function ItemsOf(a: Action): seq<Item> {
    match a
    case Webhook(d) => d.sub.items
    case CancelRequest(_, reply) => if reply.Some? then reply.value else []
  }

  /** A moment after every period end that the actions report. */
  function AfterAll(acts: seq<Action>, proPrice: string): (t: Time)
    ensures t > 0
    ensures forall i :: 0 <= i < |acts| ==>
      var end := PeriodBoundary(ItemsOf(acts[i]), proPrice, PeriodEnd); end.Some? ==> end.value < t
  {
    if acts == [] then 1
    else
      var rest, end := AfterAll(acts[1..], proPrice), PeriodBoundary(ItemsOf(acts[0]), proPrice, PeriodEnd);
      assert forall i :: 1 <= i < |acts| ==> acts[i] == acts[1..][i - 1];
      if end.Some? && end.value >= rest then end.value + 1 else rest
  }

  /** The reply of a subscription with one item, whose period ends at `t`. */
  function OneItem(t: Time): seq<Item> {
    [Item("", None, Some(t))]
  }

  lemma OneItemEndsThen(t: Time, proPrice: string)
    requires t > 0
    ensures PeriodBoundary(OneItem(t), proPrice, PeriodEnd) == Some(t)
  {
    assert OneItem(t)[1..] == [];
  }

  lemma NeverReported(userId: nat, acts: seq<Action>, proPrice: string, i: nat, id: Option<string>)
    requires i < |acts|
    ensures !Reports(userId, acts, proPrice, i, id, AfterAll(acts, proPrice))
  {
    if Reports(userId, acts, proPrice, i, id, AfterAll(acts, proPrice)) {
      BoundaryIsUnique(ItemsOf(acts[i]), proPrice, PeriodEnd, Some(AfterAll(acts, proPrice)));
    }
  }

  /** A cancellation that saves the row of another subscription than it read can store a foreign period end. */
  lemma {:induction false} LateSaveStoresForeignEnd(userId: nat, acts: seq<Action>, proPrice: string, read: nat)
    requires read <= |acts|
    requires Cancel(RowAt(userId, acts, proPrice, read), Some(None)).Scheduled?
    requires RowAt(userId, acts, proPrice, read).subscriptionId != RowAt(userId, acts, proPrice, |acts|).subscriptionId
    ensures var acts' := acts + [CancelRequest(read, Some(OneItem(AfterAll(acts, proPrice))))];
      !EndReported(userId, acts', proPrice, |acts'|)
  {
    var n, t := |acts|, AfterAll(acts, proPrice);
    var acts' := acts + [CancelRequest(read, Some(OneItem(t)))];
    assert acts'[..n] == acts;
    LateSaveRow(userId, acts, proPrice, read, t);
    NobodyReports(userId, acts', proPrice, n, t);
  }

  /** A period end after all others, from a reply about another subscription than the recorded one, is a foreign one. */
  lemma NobodyReports(userId: nat, acts: seq<Action>, proPrice: string, n: nat, t: Time)
    requires |acts| == n + 1 && acts[n].CancelRequest? && t == AfterAll(acts[..n], proPrice)
    requires var row := RowAt(userId, acts, proPrice, n + 1);
      row.periodEnd == Some(t) && row.subscriptionId != Seen(userId, acts, proPrice, n).subscriptionId
    ensures !EndReported(userId, acts, proPrice, n + 1)
  {
    var id := RowAt(userId, acts, proPrice, n + 1).subscriptionId;
    forall i | 0 <= i <= n ensures !Reports(userId, acts, proPrice, i, id, t) {
      if i < n {
        NotReportedBefore(userId, acts, proPrice, n, i, id);
      }
    }
  }

  /** What a save with a readable reply does to the row, and what it had read. */
  lemma LateSaveRow(userId: nat, acts: seq<Action>, proPrice: string, read: nat, t: Time)
    requires read <= |acts| && t > 0
    requires Cancel(RowAt(userId, acts, proPrice, read), Some(None)).Scheduled?
    ensures var acts' := acts + [CancelRequest(read, Some(OneItem(t)))];
      var row := RowAt(userId, acts', proPrice, |acts| + 1);
      && row.periodEnd == Some(t) && row.subscriptionId == RowAt(userId, acts, proPrice, |acts|).subscriptionId
      && Seen(userId, acts', proPrice, |acts|) == RowAt(userId, acts, proPrice, read)
  {
    var n, acts' := |acts|, acts + [CancelRequest(read, Some(OneItem(t)))];
    OneItemEndsThen(t, proPrice);
    RowAtStep(userId, acts', proPrice, n);
    assert acts'[..n] == acts;
    RowAtPrefix(userId, acts', proPrice, n, ReadPoint(acts', n));
    RowAtPrefix(userId, acts', proPrice, n, n);
  }

  lemma NotReportedBefore(userId: nat, acts: seq<Action>, proPrice: string, n: nat, i: nat, id: Option<string>)
    requires i < n <= |acts|
    ensures !Reports(userId, acts, proPrice, i, id, AfterAll(acts[..n], proPrice))
  {
    ReportsPrefix(userId, acts, proPrice, n, i, id, AfterAll(acts[..n], proPrice));
    NeverReported(userId, acts[..n], proPrice, i, id);
  }

  /** Whatever items Stripe replies with, the save leaves a period end reported for the recorded subscription. */
  ghost predicate SaveIsHarmless(userId: nat, acts: seq<Action>, proPrice: string, read: nat) {
    forall items :: EndReported(userId, acts + [CancelRequest(read, Some(items))], proPrice, |acts| + 1)
  }

  /**
   After any such history, a cancellation that passes its guards is harmless, whatever Stripe replies, exactly
   when the row still records the subscription that the request read.
   */
  lemma {:induction false} SaveIsHarmlessIff(userId: nat, acts: seq<Action>, proPrice: string, read: nat)
    requires AllSaveWhatTheyRead(userId, acts, proPrice, |acts|)
    requires read <= |acts|
    requires Cancel(RowAt(userId, acts, proPrice, read), Some(None)).Scheduled?
    ensures SaveIsHarmless(userId, acts, proPrice, read) <==>
      RowAt(userId, acts, proPrice, read).subscriptionId == RowAt(userId, acts, proPrice, |acts|).subscriptionId
  {
    if RowAt(userId, acts, proPrice, read).subscriptionId == RowAt(userId, acts, proPrice, |acts|).subscriptionId {
      forall items ensures EndReported(userId, acts + [CancelRequest(read, Some(items))], proPrice, |acts| + 1) {
        TimelySaveReports(userId, acts, proPrice, CancelRequest(read, Some(items)));
      }
    } else {
      LateSaveStoresForeignEnd(userId, acts, proPrice, read);
    }
  }

  lemma TimelySaveReports(userId: nat, acts: seq<Action>, proPrice: string, a: Action)
    requires AllSaveWhatTheyRead(userId, acts, proPrice, |acts|)
    requires a.CancelRequest? && a.read <= |acts|
    requires RowAt(userId, acts, proPrice, a.read).subscriptionId == RowAt(userId, acts, proPrice, |acts|).subscriptionId
    ensures EndReported(userId, acts + [a], proPrice, |acts| + 1)
  {
    var n, acts' := |acts|, acts + [a];
    assert acts'[..n] == acts;
    forall i | 0 <= i <= n ensures SavesWhatItRead(userId, acts', proPrice, i) {
      RowAtPrefix(userId, acts', proPrice, n, ReadPoint(acts', i));
      RowAtPrefix(userId, acts', proPrice, n, i);
      if i < n {
        assert SavesWhatItRead(userId, acts, proPrice, i);
      }
    }
    TimelySavesReport(userId, acts', proPrice, n + 1);
  }

  // ---------- The entitlement ----------

  /** Without further events, Pro lasts exactly until `end`. */
  ghost predicate ProUntil(row: Row, end: Time) {
    forall t :: Pro(row, t) <==> t < end
  }

  /**
   Without further events a row either never grants Pro, or grants it exactly until a period end that Stripe
   reported for the subscription it stems from; and that is the subscription the row records, as long as every
   cancellation saved what it read.
   */
  lemma ProRestsOnCurrentSubscription(userId: nat, acts: seq<Action>, proPrice: string, n: nat)
    requires n <= |acts|
    ensures var row := RowAt(userId, acts, proPrice, n); NeverPro(row) || (row.periodEnd.Some? && ProUntil(row, row.periodEnd.value))
    ensures EndReportedFor(userId, acts, proPrice, n, EndSource(userId, acts, proPrice, n))
    ensures AllSaveWhatTheyRead(userId, acts, proPrice, n) ==> Stems(userId, acts, proPrice, n)
  {
    ProLasts(RowAt(userId, acts, proPrice, n));
    PeriodEndIsReported(userId, acts, proPrice, n);
    EndStemsIff(userId, acts, proPrice, n);
  }

  ghost predicate NeverPro(row: Row) {
    forall t :: !Pro(row, t)
  }

  lemma ProLasts(row: Row)
    ensures NeverPro(row) || (row.periodEnd.Some? && ProUntil(row, row.periodEnd.value))
  {
    if t :| Pro(row, t) {
      assert ProUntil(row, row.periodEnd.value);
    }
  }

  // ---------- An instance ----------

  /** An active subscription whose period runs until `end`. */
  function ActiveUntil(id: StripeId, end: int): Subscription {
    Subscription(id, "cus", "active", Some(1), [Item("price", Some(1), Some(end))], false, None, None)
  }

  /**
   A user cancels "sub_a"; before the save, a checkout records "sub_b", whose period ends at 20; Stripe's reply
   about "sub_a" says 30, and that is what the row of "sub_b" then holds.
   */
  lemma LateSaveInstance()
    ensures var acts := [Webhook(CheckoutCompleted(ActiveUntil("sub_a", 10))), Webhook(CheckoutCompleted(ActiveUntil("sub_b", 20))),
                         CancelRequest(1, Some(ActiveUntil("sub_a", 30).items))];
      var row := RowAt(7, acts, "price", 3);
      && row.subscriptionId == Some("sub_b") && row.periodEnd == Some(30)
      && EndSource(7, acts, "price", 3) == Some("sub_a")
      && !SavesWhatItRead(7, acts, "price", 2)
      && Pro(row, 25)
  {
    var acts := [Webhook(CheckoutCompleted(ActiveUntil("sub_a", 10))), Webhook(CheckoutCompleted(ActiveUntil("sub_b", 20))),
                 CancelRequest(1, Some(ActiveUntil("sub_a", 30).items))];
    RowAtStep(7, acts, "price", 0);
    RowAtStep(7, acts, "price", 1);
    RowAtStep(7, acts, "price", 2);
    assert ReadPoint(acts, 2) == 1;
    assert acts[..0] == [];
    assert RowAt(7, acts, "price", 1) == Installed(7, "sub_a", SnapshotOf(ActiveUntil("sub_a", 10), "price"));
    assert RowAt(7, acts, "price", 2) == Installed(7, "sub_b", SnapshotOf(ActiveUntil("sub_b", 20), "price"));
    assert "sub_a"[4] != "sub_b"[4];
  }

  /**
   A failed payment leaves the row of "sub_a" without a period end; a user cancels; before the save, a paid invoice
   stores the end 20. Stripe's reply has no readable end, so the save puts back the missing one that was read, and
   Pro is gone, although neither a checkout nor a deletion came.
   */
  lemma CancelDropsEndInstance()
    ensures var owing := ActiveUntil("sub_a", 20).(status := "past_due");
      var acts := [Webhook(InvoicePaymentFailed(Invoice("in_1", "cus", "sub_a", None), owing)),
                   Webhook(InvoicePaid(Invoice("in_1", "cus", "sub_a", None), ActiveUntil("sub_a", 20))),
                   CancelRequest(1, Some([Item("price", None, None)]))];
      && RowAt(7, acts, "price", 2).periodEnd == Some(20) && Pro(RowAt(7, acts, "price", 2), 15)
      && RowAt(7, acts, "price", 3).periodEnd == None && !Pro(RowAt(7, acts, "price", 3), 15)
      && SavesWhatItRead(7, acts, "price", 2) && !KeepsEnd(7, acts, "price", 2)
  {
    var owing := ActiveUntil("sub_a", 20).(status := "past_due");
    var acts := [Webhook(InvoicePaymentFailed(Invoice("in_1", "cus", "sub_a", None), owing)),
                 Webhook(InvoicePaid(Invoice("in_1", "cus", "sub_a", None), ActiveUntil("sub_a", 20))),
                 CancelRequest(1, Some([Item("price", None, None)]))];
    RowAtStep(7, acts, "price", 0);
    RowAtStep(7, acts, "price", 1);
    RowAtStep(7, acts, "price", 2);
    assert ReadPoint(acts, 2) == 1;
    assert acts[..0] == [];
    assert RowAt(7, acts, "price", 1) == Fresh(7).(subscriptionId := Some("sub_a"), status := PAST_DUE);
    assert RowAt(7, acts, "price", 2)
        == Refreshed(RowAt(7, acts, "price", 1), "sub_a", SnapshotOf(ActiveUntil("sub_a", 20), "price"));
  }
}
