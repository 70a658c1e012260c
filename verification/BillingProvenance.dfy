/**
 The provenance of period ends in the whole billing pipeline: each customer's committed writes, with the Stripe
 objects they carried, are one of the histories of `Provenance`, so what is proved of those holds of every
 reachable row.
 */
module BillingProvenance {
  import opened Options
  import opened SubscriptionRow
  import opened BillingSystem
  import opened StripePeriods
  import opened StripeMappers
  import opened Provenance
  import WebhookClaims
  import BillingLedger

  /** The writes of one customer's row, in the order they were committed. */
  function ActionsOf(log: seq<Commit>, customer: string): seq<Action> {
    if log == [] then []
    else
      var last := log[|log| - 1];
      ActionsOf(log[..|log| - 1], customer) + if last.Change().Customer() == customer then [last.Action()] else []
  }

  lemma ActionsSnoc(log: seq<Commit>, c: Commit, customer: string)
    ensures ActionsOf(log + [c], customer) ==
      if c.Change().Customer() == customer then ActionsOf(log, customer) + [c.Action()] else ActionsOf(log, customer)
  {
    assert (log + [c])[..|log|] == log;
    assert ActionsOf(log, customer) + [] == ActionsOf(log, customer);
  }

  lemma {:induction false} AsManyActions(log: seq<Commit>, customer: string)
    ensures |ActionsOf(log, customer)| == |ChangesOf(log, customer)|
  {
    if log != [] {
      AsManyActions(log[..|log| - 1], customer);
    }
  }

  lemma {:induction false} NoActionsOf(log: seq<Commit>, customer: string)
    requires forall i :: 0 <= i < |log| ==> log[i].Change().Customer() != customer
    ensures ActionsOf(log, customer) == []
  {
    if log != [] {
      NoActionsOf(log[..|log| - 1], customer);
    }
  }

  /** The row is what the actions make of a fresh one. */
  ghost predicate RowActed(row: Row, acts: seq<Action>, proPrice: string) {
    row == RunActions(Fresh(row.userId), acts, proPrice)
  }

  ghost predicate RowsActed(s: State) {
    forall c :: c in s.rows ==> RowActed(s.rows[c], ActionsOf(s.log, c), s.proPrice)
  }

  /** A request has seen the row as it was after the actions it counted. */
  ghost predicate SawRow(rows: map<string, Row>, log: seq<Commit>, proPrice: string, r: Request) {
    && r.customer in rows && r.read <= |ActionsOf(log, r.customer)|
    && r.seen == RunActions(Fresh(rows[r.customer].userId), ActionsOf(log, r.customer)[..r.read], proPrice)
  }

  ghost predicate RequestsSaw(s: State) {
    forall q :: q in s.requests ==> SawRow(s.rows, s.log, s.proPrice, s.requests[q])
  }

  ghost predicate ActedInv(s: State) {
    RowsActed(s) && RequestsSaw(s)
  }

  /** One more action on a row. */
  lemma OneMoreAction(userId: nat, acts: seq<Action>, a: Action, proPrice: string)
    ensures var acts' := acts + [a];
      RunActions(Fresh(userId), acts', proPrice) ==
        Act(RunActions(Fresh(userId), acts, proPrice),
            RunActions(Fresh(userId), acts[..ReadPoint(acts', |acts|)], proPrice), a, proPrice)
  {
    RowAtStep(userId, acts + [a], proPrice, |acts|);
    assert (acts + [a])[..|acts| + 1] == acts + [a];
    assert (acts + [a])[..|acts|] == acts;
    assert (acts + [a])[..ReadPoint(acts + [a], |acts|)] == acts[..ReadPoint(acts + [a], |acts|)];
  }

  /** A webhook's write is the action of its delivery. */
  lemma HookActs(row: Row, acts: seq<Action>, proPrice: string, d: Delivery)
    requires RowActed(row, acts, proPrice) && BuildEvent(d, proPrice).Built?
    ensures RowActed(Apply(row, BuildEvent(d, proPrice).event), acts + [Webhook(d)], proPrice)
  {
    OneMoreAction(row.userId, acts, Webhook(d), proPrice);
    ChangeKeepsUser(row, SubscriptionRow.Hook(BuildEvent(d, proPrice).event));
  }

  /** A cancellation's save is the action of its reply. */
  lemma CancelActs(row: Row, acts: seq<Action>, proPrice: string, read: nat, items: seq<Item>, seen: Row)
    requires RowActed(row, acts, proPrice) && read <= |acts|
    requires seen == RunActions(Fresh(row.userId), acts[..read], proPrice)
    requires Cancel(seen, CancelReply(Some(items), proPrice)).Scheduled?
    ensures var end := Cancel(seen, CancelReply(Some(items), proPrice)).end;
      RowActed(SaveCancel(row, end), acts + [CancelRequest(read, Some(items))], proPrice)
  {
    var a := CancelRequest(read, Some(items));
    OneMoreAction(row.userId, acts, a, proPrice);
    assert ReadPoint(acts + [a], |acts|) == read;
  }

  lemma SawRowLater(rows: map<string, Row>, log: seq<Commit>, proPrice: string, r: Request, c: Commit, rows': map<string, Row>)
    requires SawRow(rows, log, proPrice, r) && r.customer in rows'
    requires rows'[r.customer].userId == rows[r.customer].userId
    ensures SawRow(rows', log + [c], proPrice, r)
  {
    ActionsSnoc(log, c, r.customer);
    assert ActionsOf(log + [c], r.customer)[..r.read] == ActionsOf(log, r.customer)[..r.read];
  }

  /** A committed write of one row, which is its action, keeps all rows and requests in order. */
  lemma WriteKeeps(s: State, c: Commit, row: Row, requests: map<nat, Request>)
    requires ActedInv(s) && c.Change().Customer() in s.rows && requests.Items <= s.requests.Items
    requires var customer := c.Change().Customer();
      && row.userId == s.rows[customer].userId
      && RowActed(row, ActionsOf(s.log, customer) + [c.Action()], s.proPrice)
    ensures ActedInv(s.(rows := s.rows[c.Change().Customer() := row], log := s.log + [c], requests := requests))
  {
    var s' := s.(rows := s.rows[c.Change().Customer() := row], log := s.log + [c], requests := requests);
    forall x | x in s'.rows ensures RowActed(s'.rows[x], ActionsOf(s'.log, x), s.proPrice) {
      ActionsSnoc(s.log, c, x);
    }
    forall q | q in requests ensures SawRow(s'.rows, s'.log, s.proPrice, requests[q]) {
      assert (q, requests[q]) in requests.Items;
      SawRowLater(s.rows, s.log, s.proPrice, requests[q], c, s'.rows);
    }
  }

  /** Rows, log and requests are all that matters here. */
  lemma SameRowsKeep(s: State, s': State)
    requires ActedInv(s)
    requires s'.rows == s.rows && s'.log == s.log && s'.requests == s.requests && s'.proPrice == s.proPrice
    ensures ActedInv(s')
  {
  }

  lemma CommitKeeps(s: State, w: nat, d: Delivery, end: WebhookClaims.HandlerEnd)
    requires ActedInv(s) && CanCommit(s, w, d, end)
    ensures ActedInv(CommitHandler(s, w, d, end))
  {
    var e := Meaning(s, d).event;
    var c := CommitOf(s, w, d, end);
    BillingLedger.HandleRow(BillingLedger.Ledger(s.rows[e.customer], s.mail.notes, []), e);
    HookActs(s.rows[e.customer], ActionsOf(s.log, e.customer), s.proPrice, d);
    ChangeKeepsUser(s.rows[e.customer], SubscriptionRow.Hook(e));
    var s' := s.(rows := s.rows[e.customer := Apply(s.rows[e.customer], e)], log := s.log + [c], requests := s.requests);
    WriteKeeps(s, c, Apply(s.rows[e.customer], e), s.requests);
    SameRowsKeep(s', CommitHandler(s, w, d, end));
  }

  lemma CancelKeeps(s: State, request: nat, reply: Option<seq<Item>>)
    requires ActedInv(s) && request in s.requests
    ensures ActedInv(EndCancel(s, request, reply))
  {
    var r := s.requests[request];
    var requests := s.requests - {request};
    assert requests.Items <= s.requests.Items;
    assert SawRow(s.rows, s.log, s.proPrice, r);
    match CancelOf(s, r, reply)
    case Refused(_) =>
    case Scheduled(end) =>
      var c := CancelCommit(r.customer, r.read, reply.value, end);
      CancelActs(s.rows[r.customer], ActionsOf(s.log, r.customer), s.proPrice, r.read, reply.value, r.seen);
      WriteKeeps(s, c, SaveCancel(s.rows[r.customer], end), requests);
  }

  lemma ReadKeeps(s: State, request: nat, user: string)
    requires ActedInv(s)
    ensures ActedInv(Do(s, CancelReads(request, user)))
  {
    if request !in s.requests && user in s.rows {
      AsManyActions(s.log, user);
      var acts := ActionsOf(s.log, user);
      assert acts[..|acts|] == acts;
      assert RowActed(s.rows[user], acts, s.proPrice);
    }
  }

  lemma AddKeeps(s: State, customer: string, userId: nat)
    requires ActedInv(s) && LogKnown(s.rows, s.log)
    ensures ActedInv(Do(s, AddCustomer(customer, userId)))
  {
    if customer !in s.rows {
      NoActionsOf(s.log, customer);
    }
  }

  lemma {:induction false} StepKeeps(s: State, step: Step)
    requires ActedInv(s) && LogKnown(s.rows, s.log)
    ensures ActedInv(Do(s, step)) && Do(s, step).proPrice == s.proPrice
  {
    match step
    case AddCustomer(customer, userId) => AddKeeps(s, customer, userId);
    case HandlerCommits(w, d, end) => if CanCommit(s, w, d, end) { CommitKeeps(s, w, d, end); }
    case CancelReads(request, user) => ReadKeeps(s, request, user);
    case CancelSaves(request, reply) => if request in s.requests { CancelKeeps(s, request, reply); }
    case _ => SameRowsKeep(s, Do(s, step));
  }

  lemma {:induction false} ActedHolds(proPrice: string, steps: seq<Step>)
    ensures ActedInv(After(proPrice, steps)) && After(proPrice, steps).proPrice == proPrice
  {
    if steps != [] {
      var before := steps[..|steps| - 1];
      ActedHolds(proPrice, before);
      InvHolds(proPrice, before);
      StepKeeps(After(proPrice, before), steps[|steps| - 1]);
    }
  }

  /** Every reachable row is what the customer's committed deliveries and replies make of a fresh one. */
  lemma {:induction false} RowsAreActed(proPrice: string, steps: seq<Step>, customer: string)
    requires customer in After(proPrice, steps).rows
    ensures var s := After(proPrice, steps); var acts := ActionsOf(s.log, customer);
      s.rows[customer] == RowAt(s.rows[customer].userId, acts, proPrice, |acts|)
  {
    ActedHolds(proPrice, steps);
    var s := After(proPrice, steps);
    var acts := ActionsOf(s.log, customer);
    assert RowActed(s.rows[customer], acts, proPrice);
    assert acts[..|acts|] == acts;
  }

  /** What holds of a row whose writes are the actions. */
  ghost predicate WellFounded(row: Row, acts: seq<Action>, proPrice: string) {
    var source := EndSource(row.userId, acts, proPrice, |acts|);
    && (row.periodEnd.Some? ==>
          exists i :: 0 <= i < |acts| && Reports(row.userId, acts, proPrice, i, source, row.periodEnd.value))
    && (NeverPro(row) || (row.periodEnd.Some? && ProUntil(row, row.periodEnd.value)))
    && (AllSaveWhatTheyRead(row.userId, acts, proPrice, |acts|) && row.periodEnd.Some? ==> source == row.subscriptionId)
    && (Unlinked(row) ==> row == Fresh(row.userId))
  }

  /**
   In every reachable state, whatever interleaves, a stored period end was reported by a committed delivery or
   reply for the subscription it stems from; that is the recorded one as long as the customer's cancellations saved
   what they had read; and without further events Pro lasts exactly until that period end, or never is.
   */
  lemma {:induction false} PeriodEndsAreReported(proPrice: string, steps: seq<Step>, customer: string)
    requires customer in After(proPrice, steps).rows
    ensures var s := After(proPrice, steps); WellFounded(s.rows[customer], ActionsOf(s.log, customer), proPrice)
  {
    RowsAreActed(proPrice, steps, customer);
    var s := After(proPrice, steps);
    var acts := ActionsOf(s.log, customer);
    ActedIsWellFounded(s.rows[customer], acts, proPrice);
  }

  lemma ActedIsWellFounded(row: Row, acts: seq<Action>, proPrice: string)
    requires row == RowAt(row.userId, acts, proPrice, |acts|)
    ensures WellFounded(row, acts, proPrice)
  {
    ProRestsOnCurrentSubscription(row.userId, acts, proPrice, |acts|);
    UnlinkedIsPristine(row.userId, acts, proPrice, |acts|);
    if AllSaveWhatTheyRead(row.userId, acts, proPrice, |acts|) {
      assert Stems(row.userId, acts, proPrice, |acts|);
    }
  }
}
