/**
 The whole billing pipeline: webhook workers, cancellation requests, subscription rows, notifications and
 email tasks, any of them interleaved, failing or dying between two steps. A handler's database transaction is
 one step, because the row it touches stays locked to its end; a cancellation reads the row without a lock and
 saves it later, in two steps. A step that is not enabled changes nothing, so `After` over every sequence of
 steps ranges over every reachable state.
 */
module BillingSystem {
  import opened Options
  import opened SubscriptionRow
  import opened BillingLedger
  import StripePeriods
  import StripeMappers
  import Provenance
  import BillingHistory
  import WebhookClaims
  import EmailTasks

  /**
   A write of a row that committed. For a handler's transaction, `event` is what the delivery means, `returned`
   when the handler then came back without an error, and `job` the number of the invoice email task it enqueued.
   For a cancellation, `read` is how many writes of the row there had been when it was read, `items` Stripe's
   reply, and `end` the period end it saved.
   */
  datatype Commit =
    | Commit(id: WebhookClaims.EventId, delivery: StripeMappers.Delivery, event: Event, accepted: bool, returned: bool,
             job: Option<nat>)
    | CancelCommit(customer: string, read: nat, items: seq<StripePeriods.Item>, end: Option<StripePeriods.Time>)
  {
    function Action(): Provenance.Action {
      if Commit? then Provenance.Webhook(delivery) else Provenance.CancelRequest(read, Some(items))
    }

    function Change(): Change {
      if Commit? then SubscriptionRow.Hook(event) else CancelSaved(customer, end)
    }
  }

  /** A cancellation request that has read the row and is waiting for Stripe. */
  datatype Request = Request(customer: string, seen: Row, read: nat)

  /** `proPrice` is the configured Pro price. */
  datatype State = State(
    proPrice: string,
    claims: WebhookClaims.Claims,
    rows: map<string, Row>,
    requests: map<nat, Request>,
    mail: EmailTasks.Mail,
    log: seq<Commit>)

  function Init(proPrice: string): State {
    State(proPrice, WebhookClaims.Claims(map[], map[], multiset{}), map[], map[], EmailTasks.NoMail(), [])
  }

  /**
   `HandlerCommits` ends in any way: the handler returns and its on-commit task is enqueued; or the broker
   refuses the task and the handler raises; or the worker dies before it can enqueue. Every other step of a
   webhook worker, a handler that rolls back included, is a `Hook`. `CancelSaves` brings Stripe's reply.
   */
  datatype Step =
    | AddCustomer(customer: string, userId: nat)
    | Hook(step: WebhookClaims.Step)
    | HandlerCommits(worker: nat, delivery: StripeMappers.Delivery, end: WebhookClaims.HandlerEnd)
    | CancelReads(request: nat, user: string)
    | CancelSaves(pending: nat, reply: Option<seq<StripePeriods.Item>>)
    | Email(mailStep: EmailTasks.Step)

  function Outcome(s: State, e: Event): Ledger
    requires e.customer in s.rows
  {
    Handle(Ledger(s.rows[e.customer], s.mail.notes, []), e)
  }

  function Meaning(s: State, d: StripeMappers.Delivery): StripeMappers.Mapped {
    StripeMappers.BuildEvent(d, s.proPrice)
  }

  predicate CanCommit(s: State, w: nat, d: StripeMappers.Delivery, end: WebhookClaims.HandlerEnd) {
    Meaning(s, d).Built? && MayCommit(s, w, Meaning(s, d).event, end)
  }

  predicate MayCommit(s: State, w: nat, e: Event, end: WebhookClaims.HandlerEnd) {
    && WebhookClaims.IsRunning(s.claims, w)
    && e.customer in s.rows
    && (end.RAISES? ==> Outcome(s, e).tasks != [])
  }

  /** The tasks that reach the broker. */
  function Sent(l: Ledger, end: WebhookClaims.HandlerEnd): seq<Task> {
    if end.RETURNS? then l.tasks else []
  }

  function CommitOf(s: State, w: nat, d: StripeMappers.Delivery, end: WebhookClaims.HandlerEnd): Commit
    requires CanCommit(s, w, d, end)
  {
    var e := Meaning(s, d).event;
    var l := Outcome(s, e);
    Commit(s.claims.workers[w].id, d, e, Accepts(s.rows[e.customer], e), end.RETURNS?,
           if e.IsInvoice() && Sent(l, end) != [] then Some(|s.mail.jobs|) else None)
  }

  function CommitHandler(s: State, w: nat, d: StripeMappers.Delivery, end: WebhookClaims.HandlerEnd): State
    requires CanCommit(s, w, d, end)
  {
    var e := Meaning(s, d).event;
    var l := Outcome(s, e);
    s.(claims := WebhookClaims.EndHandler(s.claims, w, end),
       rows := s.rows[e.customer := l.row],
       mail := EmailTasks.Enqueue(s.mail, l.notes, Sent(l, end)),
       log := s.log + [CommitOf(s, w, d, end)])
  }

  /** The request ends; if it was in order when it read the row and Stripe agreed, it saves its two fields. */
  function EndCancel(s: State, request: nat, reply: Option<seq<StripePeriods.Item>>): State
    requires request in s.requests
  {
    var r := s.requests[request];
    var s' := s.(requests := s.requests - {request});
    match CancelOf(s, r, reply)
    case Refused(_) => s'
    case Scheduled(end) =>
      if r.customer in s.rows then SaveCancelOf(s', CancelCommit(r.customer, r.read, reply.value, end)) else s'
  }

  function CancelOf(s: State, r: Request, reply: Option<seq<StripePeriods.Item>>): CancelResult {
    Cancel(r.seen, Provenance.CancelReply(reply, s.proPrice))
  }

  function SaveCancelOf(s: State, c: Commit): State
    requires c.CancelCommit? && c.customer in s.rows
  {
    s.(rows := s.rows[c.customer := SaveCancel(s.rows[c.customer], c.end)], log := s.log + [c])
  }

  function Do(s: State, step: Step): State {
    match step
    case AddCustomer(customer, userId) =>
      if customer in s.rows then s else s.(rows := s.rows[customer := Fresh(userId)])
    case Hook(hook) =>
      // A handler returns only by committing.
      if hook.HandlerEnding? && hook.end.RETURNS? then s else s.(claims := WebhookClaims.Do(s.claims, hook))
    case HandlerCommits(w, d, end) => if CanCommit(s, w, d, end) then CommitHandler(s, w, d, end) else s
    case CancelReads(request, user) =>
      if request in s.requests || user !in s.rows then s
      else s.(requests := s.requests[request := Request(user, s.rows[user], |ChangesOf(s.log, user)|)])
    case CancelSaves(request, reply) => if request in s.requests then EndCancel(s, request, reply) else s
    case Email(mailStep) => s.(mail := EmailTasks.Do(s.mail, mailStep))
  }

  function After(proPrice: string, steps: seq<Step>): State {
    if steps == [] then Init(proPrice) else Do(After(proPrice, steps[..|steps| - 1]), steps[|steps| - 1])
  }

  // ---------- What the steps do ----------

  /** A committed handler writes its event to the customer's row, logs it, and hands its tasks to the broker. */
  lemma CommitMeans(s: State, w: nat, d: StripeMappers.Delivery, end: WebhookClaims.HandlerEnd)
    requires CanCommit(s, w, d, end)
    ensures var s', e := Do(s, HandlerCommits(w, d, end)), Meaning(s, d).event;
      var l := Handle(Ledger(s.rows[e.customer], s.mail.notes, []), e);
      && s'.rows == s.rows[e.customer := Apply(s.rows[e.customer], e)]
      && s'.claims == WebhookClaims.Do(s.claims, WebhookClaims.HandlerEnding(w, end))
      && s'.mail == EmailTasks.Enqueue(s.mail, l.notes, if end.RETURNS? then l.tasks else [])
      && |s'.log| == |s.log| + 1 && s'.log[..|s.log|] == s.log
      && s'.log[|s.log|].Commit? && s'.log[|s.log|].event == e && s'.log[|s.log|].returned == end.RETURNS?
      && s'.log[|s.log|].accepted == Accepts(s.rows[e.customer], e)
      && s'.requests == s.requests
  {
    var e := Meaning(s, d).event;
    HandleRow(Ledger(s.rows[e.customer], s.mail.notes, []), e);
  }

  /** A cancellation that nothing interrupts does to the row what the service does, and to nothing else. */
  lemma CancelMeans(s: State, request: nat, user: string, reply: Option<seq<StripePeriods.Item>>)
    requires request !in s.requests && user in s.rows
    ensures var s' := Do(Do(s, CancelReads(request, user)), CancelSaves(request, reply));
      && (match Cancel(s.rows[user], Provenance.CancelReply(reply, s.proPrice))
          case Refused(_) => s'.rows == s.rows && s'.log == s.log
          case Scheduled(end) =>
            && s'.rows == s.rows[user := SaveCancel(s.rows[user], end)]
            && |s'.log| == |s.log| + 1 && s'.log[..|s.log|] == s.log)
      && s'.requests == s.requests && s'.mail == s.mail && s'.claims == s.claims
  {
    var asked := Do(s, CancelReads(request, user));
    assert asked.requests - {request} == s.requests;
  }

  /** The other steps are those of their own systems. */
  lemma PartsStep(s: State, hook: WebhookClaims.Step, mailStep: EmailTasks.Step, customer: string, userId: nat)
    ensures Do(s, Email(mailStep)) == s.(mail := EmailTasks.Do(s.mail, mailStep))
    ensures !(hook.HandlerEnding? && hook.end.RETURNS?) ==> Do(s, Step.Hook(hook)) == s.(claims := WebhookClaims.Do(s.claims, hook))
    ensures customer !in s.rows ==> Do(s, AddCustomer(customer, userId)) == s.(rows := s.rows[customer := Fresh(userId)])
  {
  }

  // ---------- Rows ----------

  /** The changes of one customer's row, in the order they were committed. */
  function ChangesOf(log: seq<Commit>, customer: string): seq<Change> {
    if log == [] then []
    else
      var last := log[|log| - 1].Change();
      ChangesOf(log[..|log| - 1], customer) + if last.Customer() == customer then [last] else []
  }

  /** Each row is what its committed changes make of a fresh one. */
  ghost predicate RowsRun(rows: map<string, Row>, log: seq<Commit>) {
    forall c :: c in rows ==> rows[c] == RunChanges(Fresh(rows[c].userId), ChangesOf(log, c))
  }

  ghost predicate LogKnown(rows: map<string, Row>, log: seq<Commit>) {
    forall i :: 0 <= i < |log| ==> log[i].Change().Customer() in rows
  }

  ghost predicate RowsInv(s: State) {
    RowsRun(s.rows, s.log) && LogKnown(s.rows, s.log)
  }

  lemma {:induction false} NoChangesOf(log: seq<Commit>, customer: string)
    requires forall i :: 0 <= i < |log| ==> log[i].Change().Customer() != customer
    ensures ChangesOf(log, customer) == []
  {
    if log != [] {
      NoChangesOf(log[..|log| - 1], customer);
    }
  }

  lemma ChangesSnoc(log: seq<Commit>, c: Commit, customer: string)
    ensures ChangesOf(log + [c], customer) ==
      ChangesOf(log, customer) + if c.Change().Customer() == customer then [c.Change()] else []
  {
    assert (log + [c])[..|log|] == log;
  }

  lemma RunSnoc(row: Row, h: seq<Change>, c: Change)
    ensures RunChanges(row, h + [c]) == ApplyChange(RunChanges(row, h), c)
  {
    assert (h + [c])[..|h|] == h;
  }

  /** A committed change of one row leaves the others alone. */
  lemma ChangeKeepsRows(rows: map<string, Row>, log: seq<Commit>, c: Commit)
    requires RowsRun(rows, log) && LogKnown(rows, log) && c.Change().Customer() in rows
    ensures var customer := c.Change().Customer();
      var rows' := rows[customer := ApplyChange(rows[customer], c.Change())];
      RowsRun(rows', log + [c]) && LogKnown(rows', log + [c])
  {
    var customer := c.Change().Customer();
    var rows' := rows[customer := ApplyChange(rows[customer], c.Change())];
    forall x | x in rows ensures rows'[x] == RunChanges(Fresh(rows'[x].userId), ChangesOf(log + [c], x)) {
      ChangeOneRow(rows[x], log, c, x);
    }
  }

  lemma ChangeOneRow(row: Row, log: seq<Commit>, c: Commit, customer: string)
    requires row == RunChanges(Fresh(row.userId), ChangesOf(log, customer))
    ensures var row' := if c.Change().Customer() == customer then ApplyChange(row, c.Change()) else row;
      row' == RunChanges(Fresh(row'.userId), ChangesOf(log + [c], customer))
  {
    ChangesSnoc(log, c, customer);
    if c.Change().Customer() == customer {
      RunSnoc(Fresh(row.userId), ChangesOf(log, customer), c.Change());
      ChangeKeepsUser(row, c.Change());
    } else {
      assert ChangesOf(log, customer) + [] == ChangesOf(log, customer);
    }
  }

  lemma ChangeKeepsUser(row: Row, c: Change)
    ensures ApplyChange(row, c).userId == row.userId
  {
  }

  lemma CommitKeepsRows(s: State, w: nat, d: StripeMappers.Delivery, end: WebhookClaims.HandlerEnd)
    requires RowsInv(s) && CanCommit(s, w, d, end)
    ensures RowsInv(CommitHandler(s, w, d, end))
  {
    var e := Meaning(s, d).event;
    HandleRow(Ledger(s.rows[e.customer], s.mail.notes, []), e);
    ChangeKeepsRows(s.rows, s.log, CommitOf(s, w, d, end));
  }

  lemma EndCancelKeepsRows(s: State, request: nat, reply: Option<seq<StripePeriods.Item>>)
    requires RowsInv(s) && request in s.requests
    ensures RowsInv(EndCancel(s, request, reply))
  {
    var r := s.requests[request];
    match CancelOf(s, r, reply)
    case Refused(_) =>
    case Scheduled(end) => if r.customer in s.rows { ChangeKeepsRows(s.rows, s.log, CancelCommit(r.customer, r.read, reply.value, end)); }
  }

  lemma AddCustomerKeepsRows(s: State, customer: string, userId: nat)
    requires RowsInv(s) && customer !in s.rows
    ensures RowsInv(s.(rows := s.rows[customer := Fresh(userId)]))
  {
    NoChangesOf(s.log, customer);
  }

  lemma RowsStep(s: State, step: Step)
    requires RowsInv(s)
    ensures RowsInv(Do(s, step))
  {
    match step
    case AddCustomer(customer, userId) => if customer !in s.rows { AddCustomerKeepsRows(s, customer, userId); }
    case HandlerCommits(w, d, end) => if CanCommit(s, w, d, end) { CommitKeepsRows(s, w, d, end); }
    case CancelSaves(request, reply) => if request in s.requests { EndCancelKeepsRows(s, request, reply); }
    case _ =>
  }

  // ---------- Email tasks and the commits they come from ----------

  /** The commit accepted an invoice and its handler returned. */
  predicate AcceptsInvoice(c: Commit, key: NoteKey) {
    c.Commit? && c.accepted && c.returned && c.event.IsInvoice() && KeyOf(c.event) == key
  }

  /** The commit enqueued task `i`. */
  predicate Enqueued(c: Commit, i: nat) {
    c.Commit? && c.job == Some(i)
  }

  /** What a commit enqueued exists, and is the task of the very invoice it accepted. */
  ghost predicate JobOfCommit(jobs: seq<EmailTasks.Job>, c: Commit) {
    c.Commit? && c.job.Some? ==>
      && c.job.value < |jobs|
      && jobs[c.job.value].task.InvoiceEmail?
      && AcceptsInvoice(c, jobs[c.job.value].task.key)
  }

  /** A commit of an accepted invoice, whose handler returned, calls for an email. */
  predicate CallsForEmail(c: Commit) {
    c.Commit? && c.accepted && c.returned && c.event.IsInvoice() && c.event.invoice != ""
  }

  /** Such a commit enqueued a task, or its notification was SENT by then. */
  ghost predicate Answered(m: EmailTasks.Mail, c: Commit) {
    CallsForEmail(c) ==>
      c.job.Some? || (KeyOf(c.event) in m.notes && m.notes[KeyOf(c.event)] == SENT)
  }

  ghost predicate LogOk(m: EmailTasks.Mail, log: seq<Commit>) {
    forall i :: 0 <= i < |log| ==> JobOfCommit(m.jobs, log[i]) && Answered(m, log[i])
  }

  /** No two commits enqueued the same task. */
  ghost predicate OwnJobs(log: seq<Commit>) {
    forall i, j, job :: 0 <= i < j < |log| && Enqueued(log[i], job) ==> !Enqueued(log[j], job)
  }

  ghost predicate HasCommit(log: seq<Commit>, job: nat) {
    exists i :: 0 <= i < |log| && Enqueued(log[i], job)
  }

  ghost predicate JobsBacked(jobs: seq<EmailTasks.Job>, log: seq<Commit>) {
    forall job :: 0 <= job < |jobs| && jobs[job].task.InvoiceEmail? ==> HasCommit(log, job)
  }

  /** Only notifications of an unknown type are ever SKIPPED. */
  ghost predicate KnownUnskipped(notes: map<NoteKey, NoteStatus>) {
    forall key :: key in notes && notes[key] == SKIPPED ==> key.emailType.OTHER?
  }

  ghost predicate MailInv(s: State) {
    && EmailTasks.Inv(s.mail) && KnownUnskipped(s.mail.notes)
    && LogOk(s.mail, s.log) && OwnJobs(s.log) && JobsBacked(s.mail.jobs, s.log)
  }

  /**
   At its commit, an accepted invoice whose handler returns leaves its notification SENT, or a task of its own
   in the queue.
   */
  lemma CommitQueues(m: EmailTasks.Mail, row: Row, e: Event)
    requires EmailTasks.Inv(m) && KnownUnskipped(m.notes)
    requires e.IsInvoice() && Accepts(row, e) && e.invoice != ""
    ensures var l := Handle(Ledger(row, m.notes, []), e);
      var m' := EmailTasks.Enqueue(m, l.notes, l.tasks);
      && KeyOf(e) in m'.notes
      && m'.jobs == m.jobs + (if KeyOf(e) in m.notes && m.notes[KeyOf(e)] == SENT then []
                              else [EmailTasks.Job(InvoiceEmail(KeyOf(e), row.userId, e.url), EmailTasks.QUEUED(0))])
  {
  }

  /** What a handler adds to the notifications and the tasks. */
  lemma HandlerAdds(row: Row, notes: map<NoteKey, NoteStatus>, e: Event)
    ensures var l := Handle(Ledger(row, notes, []), e);
      && (forall k :: k in notes ==> k in l.notes && l.notes[k] == notes[k])
      && (forall k :: k in l.notes && k !in notes ==> l.notes[k] == PENDING)
      && |l.tasks| <= 1
      && (l.tasks != [] && l.tasks[0].InvoiceEmail? ==>
            e.IsInvoice() && Accepts(row, e) && l.tasks[0].key == KeyOf(e) && KeyOf(e) in l.notes)
      && (l.tasks != [] && e.IsInvoice() ==> l.tasks[0].InvoiceEmail?)
      && (e.IsInvoice() && Accepts(row, e) && e.invoice != "" && l.tasks == [] ==>
            KeyOf(e) in notes && notes[KeyOf(e)] !in {PENDING, FAILED})
  {
  }

  lemma CommitKeepsMail(s: State, w: nat, d: StripeMappers.Delivery, end: WebhookClaims.HandlerEnd)
    requires MailInv(s) && CanCommit(s, w, d, end)
    ensures var m' := CommitHandler(s, w, d, end).mail;
      EmailTasks.Inv(m') && KnownUnskipped(m'.notes) && EmailTasks.Kept(s.mail, m')
  {
    var e := Meaning(s, d).event;
    HandlerAdds(s.rows[e.customer], s.mail.notes, e);
    EmailTasks.EnqueueKeeps(s.mail, Outcome(s, e).notes, Sent(Outcome(s, e), end));
  }

  /** The commit is the one behind the task it enqueued, and behind no other. */
  lemma CommitOwnsJob(s: State, w: nat, d: StripeMappers.Delivery, end: WebhookClaims.HandlerEnd)
    requires MailInv(s) && CanCommit(s, w, d, end)
    ensures var m' := CommitHandler(s, w, d, end).mail; var c := CommitOf(s, w, d, end);
      && JobOfCommit(m'.jobs, c)
      && (forall job :: |s.mail.jobs| <= job < |m'.jobs| && m'.jobs[job].task.InvoiceEmail? ==> Enqueued(c, job))
  {
    var e := Meaning(s, d).event;
    HandlerAdds(s.rows[e.customer], s.mail.notes, e);
  }

  lemma CommitIsAnswered(s: State, w: nat, d: StripeMappers.Delivery, end: WebhookClaims.HandlerEnd)
    requires MailInv(s) && CanCommit(s, w, d, end)
    ensures Answered(CommitHandler(s, w, d, end).mail, CommitOf(s, w, d, end))
  {
    var e := Meaning(s, d).event;
    HandlerAdds(s.rows[e.customer], s.mail.notes, e);
  }

  lemma LogStaysOk(m: EmailTasks.Mail, m': EmailTasks.Mail, log: seq<Commit>)
    requires LogOk(m, log) && EmailTasks.Kept(m, m')
    ensures LogOk(m', log)
  {
    forall i | 0 <= i < |log| ensures JobOfCommit(m'.jobs, log[i]) && Answered(m', log[i]) {
      assert JobOfCommit(m.jobs, log[i]) && Answered(m, log[i]);
    }
  }

  lemma OneMoreCommit(m: EmailTasks.Mail, m': EmailTasks.Mail, log: seq<Commit>, c: Commit)
    requires LogOk(m, log) && OwnJobs(log) && JobsBacked(m.jobs, log) && EmailTasks.Kept(m, m')
    requires JobOfCommit(m'.jobs, c) && Answered(m', c)
    requires c.Commit? && c.job.Some? ==> c.job.value >= |m.jobs|
    requires forall job :: |m.jobs| <= job < |m'.jobs| && m'.jobs[job].task.InvoiceEmail? ==> Enqueued(c, job)
    ensures LogOk(m', log + [c]) && OwnJobs(log + [c]) && JobsBacked(m'.jobs, log + [c])
  {
    LogStaysOk(m, m', log);
    forall i, job | 0 <= i < |log| && Enqueued(log[i], job) ensures !Enqueued(c, job) {
      assert JobOfCommit(m.jobs, log[i]);
    }
    assert (log + [c])[|log|] == c;
    forall job | 0 <= job < |m'.jobs| && m'.jobs[job].task.InvoiceEmail? ensures HasCommit(log + [c], job) {
      if job < |m.jobs| {
        assert HasCommit(log, job);
        var i :| 0 <= i < |log| && Enqueued(log[i], job);
        assert Enqueued((log + [c])[i], job);
      }
    }
  }

  lemma CommitKeepsMailInv(s: State, w: nat, d: StripeMappers.Delivery, end: WebhookClaims.HandlerEnd)
    requires MailInv(s) && CanCommit(s, w, d, end)
    ensures MailInv(CommitHandler(s, w, d, end)) && EmailTasks.Kept(s.mail, CommitHandler(s, w, d, end).mail)
  {
    CommitKeepsMail(s, w, d, end);
    CommitOwnsJob(s, w, d, end);
    CommitIsAnswered(s, w, d, end);
    OneMoreCommit(s.mail, CommitHandler(s, w, d, end).mail, s.log, CommitOf(s, w, d, end));
  }

  lemma CancelKeepsMailInv(s: State, request: nat, reply: Option<seq<StripePeriods.Item>>)
    requires MailInv(s) && request in s.requests
    ensures MailInv(EndCancel(s, request, reply)) && EndCancel(s, request, reply).mail == s.mail
  {
    var r := s.requests[request];
    match CancelOf(s, r, reply)
    case Refused(_) =>
    case Scheduled(end) => OneMoreCommit(s.mail, s.mail, s.log, CancelCommit(r.customer, r.read, reply.value, end));
  }

  lemma MailStepKeeps(m: EmailTasks.Mail, step: EmailTasks.Step, log: seq<Commit>)
    requires EmailTasks.Inv(m) && KnownUnskipped(m.notes) && LogOk(m, log) && JobsBacked(m.jobs, log)
    ensures var m' := EmailTasks.Do(m, step);
      && EmailTasks.Inv(m') && KnownUnskipped(m'.notes) && LogOk(m', log) && JobsBacked(m'.jobs, log)
      && EmailTasks.Kept(m, m')
  {
    EmailTasks.StepKeeps(m, step);
    LogStaysOk(m, EmailTasks.Do(m, step), log);
  }

  lemma MailStep(s: State, step: Step)
    requires MailInv(s)
    ensures MailInv(Do(s, step)) && EmailTasks.Kept(s.mail, Do(s, step).mail)
  {
    match step
    case Email(mailStep) => MailStepKeeps(s.mail, mailStep, s.log);
    case HandlerCommits(w, d, end) => if CanCommit(s, w, d, end) { CommitKeepsMailInv(s, w, d, end); }
    case CancelSaves(request, reply) => if request in s.requests { CancelKeepsMailInv(s, request, reply); }
    case _ =>
  }

  // ---------- Claims ----------

  /** How many handler runs for the event committed and returned. */
  function NumReturned(log: seq<Commit>, id: WebhookClaims.EventId): nat {
    if log == [] then 0
    else
      var c := log[|log| - 1];
      NumReturned(log[..|log| - 1], id) + if c.Commit? && c.returned && c.id == id then 1 else 0
  }

  lemma ReturnedSnoc(log: seq<Commit>, c: Commit, id: WebhookClaims.EventId)
    ensures NumReturned(log + [c], id) ==
      NumReturned(log, id) + if c.Commit? && c.returned && c.id == id then 1 else 0
  {
    assert (log + [c])[..|log|] == log;
  }

  ghost predicate Returns(returned: multiset<WebhookClaims.EventId>, log: seq<Commit>) {
    forall id :: returned[id] == NumReturned(log, id)
  }

  ghost predicate HooksInv(s: State) {
    WebhookClaims.Inv(s.claims) && Returns(s.claims.returned, s.log)
  }

  lemma CommitKeepsHooks(s: State, w: nat, d: StripeMappers.Delivery, end: WebhookClaims.HandlerEnd)
    requires HooksInv(s) && CanCommit(s, w, d, end)
    ensures var s' := CommitHandler(s, w, d, end); HooksInv(s') && WebhookClaims.FinalKept(s.claims, s'.claims)
  {
    WebhookClaims.EndHandlerKeeps(s.claims, w, end);
    forall id {
      ReturnedSnoc(s.log, CommitOf(s, w, d, end), id);
    }
  }

  lemma CancelKeepsHooks(s: State, request: nat, reply: Option<seq<StripePeriods.Item>>)
    requires HooksInv(s) && request in s.requests
    ensures HooksInv(EndCancel(s, request, reply)) && EndCancel(s, request, reply).claims == s.claims
  {
    var r := s.requests[request];
    match CancelOf(s, r, reply)
    case Refused(_) =>
    case Scheduled(end) => CancelReturnsNothing(s.claims.returned, s.log, CancelCommit(r.customer, r.read, reply.value, end));
  }

  lemma CancelReturnsNothing(returned: multiset<WebhookClaims.EventId>, log: seq<Commit>, c: Commit)
    requires Returns(returned, log) && c.CancelCommit?
    ensures Returns(returned, log + [c])
  {
    forall id {
      ReturnedSnoc(log, c, id);
    }
  }

  lemma HooksStep(s: State, step: Step)
    requires HooksInv(s)
    ensures HooksInv(Do(s, step)) && WebhookClaims.FinalKept(s.claims, Do(s, step).claims)
  {
    match step
    case Hook(hook) =>
      WebhookClaims.StepKeeps(s.claims, hook);
      if !(hook.HandlerEnding? && hook.end.RETURNS?) {
        ReturnsOnlyByCommitting(s.claims, hook);
      }
    case HandlerCommits(w, d, end) => if CanCommit(s, w, d, end) { CommitKeepsHooks(s, w, d, end); }
    case CancelSaves(request, reply) => if request in s.requests { CancelKeepsHooks(s, request, reply); }
    case _ =>
  }

  lemma ReturnsOnlyByCommitting(c: WebhookClaims.Claims, hook: WebhookClaims.Step)
    requires !(hook.HandlerEnding? && hook.end.RETURNS?)
    ensures WebhookClaims.Do(c, hook).returned == c.returned
  {
  }

  // ---------- Every reachable state ----------

  ghost predicate Inv(s: State) {
    RowsInv(s) && MailInv(s) && HooksInv(s)
  }

  lemma {:induction false} InvHolds(proPrice: string, steps: seq<Step>)
    ensures Inv(After(proPrice, steps))
  {
    if steps != [] {
      var before := steps[..|steps| - 1];
      InvHolds(proPrice, before);
      RowsStep(After(proPrice, before), steps[|steps| - 1]);
      MailStep(After(proPrice, before), steps[|steps| - 1]);
      HooksStep(After(proPrice, before), steps[|steps| - 1]);
    }
  }

  /**
   Whatever the interleaving, of webhooks and cancellations alike, a customer's row is the declared row of its
   committed changes, in commit order.
   */
  lemma {:induction false} RowsAreSerial(proPrice: string, steps: seq<Step>, customer: string)
    requires customer in After(proPrice, steps).rows
    ensures var s := After(proPrice, steps);
      s.rows[customer] == BillingHistory.Declared(s.rows[customer].userId, ChangesOf(s.log, customer))
  {
    InvHolds(proPrice, steps);
    var s := After(proPrice, steps);
    BillingHistory.HandlersLeaveDeclaredRow(s.rows[customer].userId, ChangesOf(s.log, customer));
  }

  /** The task is still to run, running, or given up, by its worker's death or after its last retry. */
  predicate Unfinished(j: EmailTasks.Job) {
    j.progress.QUEUED? || j.progress.RUNNING?
    || (j.progress.GIVEN_UP? && (j.progress.died || j.progress.retries == EmailTasks.MAX_RETRIES))
  }

  /** Behind the commit stands a SENT notification, or a task of its own that has yet to finish. */
  ghost predicate Conserved(m: EmailTasks.Mail, c: Commit)
    requires CallsForEmail(c)
  {
    && KeyOf(c.event) in m.notes
    && (|| m.notes[KeyOf(c.event)] == SENT
        || (c.job.Some? && c.job.value < |m.jobs|
            && EmailTasks.IsFor(m.jobs[c.job.value], KeyOf(c.event)) && Unfinished(m.jobs[c.job.value])))
  }

  lemma CommitIsConserved(m: EmailTasks.Mail, c: Commit)
    requires EmailTasks.Inv(m) && JobOfCommit(m.jobs, c) && Answered(m, c)
    requires CallsForEmail(c)
    ensures Conserved(m, c)
  {
    if c.job.Some? {
      assert EmailTasks.JobOk(m.notes, m.jobs[c.job.value]);
    }
  }

  /**
   Every email task was enqueued by one committed transaction that accepted its invoice, and by no other. A
   PROCESSED event has exactly one handler run that committed and returned. And each commit of an accepted
   invoice whose handler returned has its notification SENT, or its own task queued, running or given up:
   another event's task never stands in for it.
   */
  lemma {:induction false} OutboxIsConserved(proPrice: string, steps: seq<Step>)
    ensures var s := After(proPrice, steps);
      && JobsBacked(s.mail.jobs, s.log) && OwnJobs(s.log)
      && (forall i :: 0 <= i < |s.log| ==> JobOfCommit(s.mail.jobs, s.log[i]))
      && (forall id :: id in s.claims.events && s.claims.events[id] == WebhookClaims.PROCESSED ==> NumReturned(s.log, id) == 1)
      && (forall i :: 0 <= i < |s.log| && CallsForEmail(s.log[i]) ==> Conserved(s.mail, s.log[i]))
  {
    InvHolds(proPrice, steps);
    var s := After(proPrice, steps);
    forall i | 0 <= i < |s.log| && CallsForEmail(s.log[i]) ensures Conserved(s.mail, s.log[i]) {
      CommitIsConserved(s.mail, s.log[i]);
    }
    ProcessedReturnedOnce(s);
  }

  lemma ProcessedReturnedOnce(s: State)
    requires HooksInv(s)
    ensures forall id :: id in s.claims.events && s.claims.events[id] == WebhookClaims.PROCESSED ==> NumReturned(s.log, id) == 1
  {
    forall id | id in s.claims.events && s.claims.events[id] == WebhookClaims.PROCESSED ensures NumReturned(s.log, id) == 1 {
      assert id in s.claims.returned && s.claims.returned[id] <= 1;
    }
  }

  /**
   Over any number of events for the invoice, failed sends, retries and deaths, the emails delivered per invoice and
   email type are those whose SENT mark could not be saved, and one more when the notification is SENT. So it is at
   most one exactly when no mark was lost, or a single one was and the notification has not been SENT since.
   */
  lemma {:induction false} AtMostOneEmail(proPrice: string, steps: seq<Step>, key: NoteKey)
    ensures var m := After(proPrice, steps).mail;
      && m.delivered[key] == m.unrecorded[key] + EmailTasks.RecordedSends(m.notes, key)
      && (m.delivered[key] <= 1 <==>
            m.unrecorded[key] == 0 || (m.unrecorded[key] == 1 && !(key in m.notes && m.notes[key] == SENT)))
  {
    InvHolds(proPrice, steps);
  }

  ghost predicate Absorbed(s: State, s': State) {
    EmailTasks.Kept(s.mail, s'.mail) && WebhookClaims.FinalKept(s.claims, s'.claims)
  }

  lemma AbsorbStep(s: State, s1: State, step: Step)
    requires Inv(s1) && Absorbed(s, s1)
    ensures Absorbed(s, Do(s1, step))
  {
    var s2 := Do(s1, step);
    MailStep(s1, step);
    HooksStep(s1, step);
    EmailTasks.KeptTransitive(s.mail, s1.mail, s2.mail);
    WebhookClaims.FinalKeptTransitive(s.claims, s1.claims, s2.claims);
  }

  lemma AbsorbSnoc(proPrice: string, s: State, steps: seq<Step>, step: Step)
    requires Absorbed(s, After(proPrice, steps))
    ensures Absorbed(s, After(proPrice, steps + [step]))
  {
    InvHolds(proPrice, steps);
    AbsorbStep(s, After(proPrice, steps), step);
    AfterSnoc(proPrice, steps, step);
  }

  lemma AfterSnoc(proPrice: string, steps: seq<Step>, step: Step)
    ensures After(proPrice, steps + [step]) == Do(After(proPrice, steps), step)
  {
    assert (steps + [step])[..|steps|] == steps;
  }

  /** SENT notifications, finished tasks and PROCESSED or IGNORED events stay as they are, whatever happens later. */
  lemma {:induction false} FinalStatusesAbsorb(proPrice: string, steps: seq<Step>, later: seq<Step>)
    ensures Absorbed(After(proPrice, steps), After(proPrice, steps + later))
  {
    if later == [] {
      assert steps + later == steps;
      assert Absorbed(After(proPrice, steps), After(proPrice, steps));
    } else {
      var init, last := later[..|later| - 1], later[|later| - 1];
      FinalStatusesAbsorb(proPrice, steps, init);
      AbsorbSnoc(proPrice, After(proPrice, steps), steps + init, last);
      assert steps + later == (steps + init) + [last];
    }
  }
}
