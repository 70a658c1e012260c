/**
 Invoice notifications and the email tasks that act on them
 (apps/subscriptions/tasks/invoice_notifications.py). A webhook enqueues a task; the task begins, and then
 sends, fails, or dies, and is queued again a bounded number of times when it raised. Runs of tasks of one
 notification do not overlap. Every task keeps its number, so what became of it can be told.
 */
module EmailTasks {
  import opened BillingLedger

  const MAX_RETRIES := 3

  datatype Progress =
    | QUEUED(retries: nat)
    | RUNNING(retries: nat)
    | FINISHED
    | GIVEN_UP(retries: nat, died: bool)

  datatype Job = Job(task: Task, progress: Progress)

  datatype Mail = Mail(
    notes: map<NoteKey, NoteStatus>,
    jobs: seq<Job>,
    delivered: multiset<NoteKey>,   // emails handed to the mail server
    unrecorded: multiset<NoteKey>)  // of those, the ones whose SENT mark could not be saved

  function NoMail(): Mail {
    Mail(map[], [], multiset{}, multiset{})
  }

  /**
   How a run of a task ends. A notification of unknown type sends nothing: `SENDS` marks it SKIPPED, and
   when that mark cannot be saved the run ends like a failed send.
   */
  datatype TaskEnd =
    | SENDS
    | SENDS_UNRECORDED    // the email leaves, but saving its SENT mark raises
    | FAILS               // the send raises, and FAILED is saved
    | RAISES              // it raises and saves nothing: the user is gone, or FAILED cannot be saved
    | DIES
    | DIES_AFTER_SENDING  // the email leaves, and the worker dies before its SENT mark is saved

  predicate IsFor(j: Job, key: NoteKey) {
    j.task.InvoiceEmail? && j.task.key == key
  }

  predicate Busy(m: Mail, key: NoteKey) {
    exists j :: j in m.jobs && IsFor(j, key) && j.progress.RUNNING?
  }

  function Queued(tasks: seq<Task>): seq<Job> {
    seq(|tasks|, i requires 0 <= i < |tasks| => Job(tasks[i], QUEUED(0)))
  }

  function Enqueue(m: Mail, notes: map<NoteKey, NoteStatus>, tasks: seq<Task>): Mail {
    m.(notes := notes, jobs := m.jobs + Queued(tasks))
  }

  function Move(jobs: seq<Job>, i: nat, progress: Progress): seq<Job>
    requires i < |jobs|
  {
    jobs[i := Job(jobs[i].task, progress)]
  }

  predicate CanBegin(m: Mail, i: nat) {
    && i < |m.jobs| && m.jobs[i].progress.QUEUED?
    && m.jobs[i].task.InvoiceEmail? && m.jobs[i].task.key in m.notes && !Busy(m, m.jobs[i].task.key)
  }

  /** A task whose notification is SENT has nothing left to do. */
  function Begin(m: Mail, i: nat): Mail {
    if CanBegin(m, i) then
      m.(jobs := Move(m.jobs, i, if m.notes[m.jobs[i].task.key] == SENT then FINISHED
                                 else RUNNING(m.jobs[i].progress.retries)))
    else m
  }

  /** An email leaves. */
  predicate Emails(key: NoteKey, end: TaskEnd) {
    !key.emailType.OTHER? && (end.SENDS? || end.SENDS_UNRECORDED? || end.DIES_AFTER_SENDING?)
  }

  /** The run raises, and is retried while retries are left. */
  predicate Raises(end: TaskEnd) {
    end.FAILS? || end.RAISES? || end.SENDS_UNRECORDED?
  }

  /** The status a run leaves on its notification. */
  function StatusAfter(status: NoteStatus, key: NoteKey, end: TaskEnd): NoteStatus {
    if status == SENT then SENT
    else if end.SENDS? then if key.emailType.OTHER? then SKIPPED else SENT
    else if end.FAILS? then FAILED
    else status
  }

  function ProgressAfter(retries: nat, end: TaskEnd): Progress {
    if end.SENDS? then FINISHED
    else if !Raises(end) then GIVEN_UP(retries, true)
    else if retries < MAX_RETRIES then QUEUED(retries + 1)
    else GIVEN_UP(retries, false)
  }

  function Once(key: NoteKey, b: bool): multiset<NoteKey> {
    if b then multiset{key} else multiset{}
  }

  predicate CanEnd(m: Mail, i: nat) {
    && i < |m.jobs| && m.jobs[i].progress.RUNNING?
    && m.jobs[i].task.InvoiceEmail? && m.jobs[i].task.key in m.notes
  }

  function End(m: Mail, i: nat, end: TaskEnd): Mail {
    if CanEnd(m, i) then
      var key := m.jobs[i].task.key;
      Mail(
        m.notes[key := StatusAfter(m.notes[key], key, end)],
        Move(m.jobs, i, ProgressAfter(m.jobs[i].progress.retries, end)),
        m.delivered + Once(key, Emails(key, end)),
        m.unrecorded + Once(key, Emails(key, end) && !end.SENDS?))
    else m
  }

  /** A cancellation email has no notification row. */
  function MailCancellation(m: Mail, i: nat): Mail {
    if i < |m.jobs| && m.jobs[i].task.CanceledEmail? then m.(jobs := Move(m.jobs, i, FINISHED)) else m
  }

  datatype Step = Beginning(job: nat) | Ending(job: nat, end: TaskEnd) | Cancellation(job: nat)

  function Do(m: Mail, step: Step): Mail {
    match step
    case Beginning(i) => Begin(m, i)
    case Ending(i, end) => End(m, i, end)
    case Cancellation(i) => MailCancellation(m, i)
  }

  // ---------- What every step keeps ----------

  function RecordedSends(notes: map<NoteKey, NoteStatus>, key: NoteKey): nat {
    if key in notes && notes[key] == SENT then 1 else 0
  }

  /** A task runs only while its notification is not SENT, and finishes only when it is. */
  ghost predicate JobOk(notes: map<NoteKey, NoteStatus>, j: Job) {
    j.task.InvoiceEmail? ==>
      && j.task.key in notes
      && (j.progress.RUNNING? ==> notes[j.task.key] != SENT && j.progress.retries <= MAX_RETRIES)
      && (j.progress.QUEUED? ==> j.progress.retries <= MAX_RETRIES)
      && (j.progress.FINISHED? && !j.task.key.emailType.OTHER? ==> notes[j.task.key] == SENT)
      && (j.progress.GIVEN_UP? && !j.progress.died ==> j.progress.retries == MAX_RETRIES)
  }

  ghost predicate JobsOk(m: Mail) {
    forall i :: 0 <= i < |m.jobs| ==> JobOk(m.notes, m.jobs[i])
  }

  predicate RunsFor(j: Job, key: NoteKey) {
    IsFor(j, key) && j.progress.RUNNING?
  }

  /** Runs of tasks of one notification do not overlap. */
  ghost predicate Exclusive(jobs: seq<Job>) {
    forall i, j, key :: 0 <= i < j < |jobs| && RunsFor(jobs[i], key) ==> !RunsFor(jobs[j], key)
  }

  ghost predicate Counted(m: Mail) {
    forall key :: m.delivered[key] == m.unrecorded[key] + RecordedSends(m.notes, key)
  }

  ghost predicate Inv(m: Mail) {
    JobsOk(m) && Exclusive(m.jobs) && Counted(m)
  }

  /** No step takes a notification out of SENT or forgets it. */
  ghost predicate NotesKept(m: Mail, m': Mail) {
    forall key :: key in m.notes ==> key in m'.notes && (m.notes[key] == SENT ==> m'.notes[key] == SENT)
  }

  /** No step loses a task, turns it into another, or revives it. */
  ghost predicate JobsKept(jobs: seq<Job>, jobs': seq<Job>) {
    && |jobs| <= |jobs'|
    && forall i :: 0 <= i < |jobs| ==>
         && jobs'[i].task == jobs[i].task
         && (jobs[i].progress.FINISHED? || jobs[i].progress.GIVEN_UP? ==>
               jobs'[i].progress == jobs[i].progress || jobs[i].task.CanceledEmail?)
  }

  ghost predicate Kept(m: Mail, m': Mail) {
    NotesKept(m, m') && JobsKept(m.jobs, m'.jobs)
  }

  lemma KeptTransitive(a: Mail, b: Mail, c: Mail)
    requires Kept(a, b) && Kept(b, c)
    ensures Kept(a, c)
  {
  }

  /** A webhook transaction adds notifications as PENDING, and tasks of recorded notifications only. */
  lemma EnqueueKeeps(m: Mail, notes: map<NoteKey, NoteStatus>, tasks: seq<Task>)
    requires Inv(m)
    requires forall k :: k in m.notes ==> k in notes && notes[k] == m.notes[k]
    requires forall k :: k in notes && k !in m.notes ==> notes[k] == PENDING
    requires forall i :: 0 <= i < |tasks| && tasks[i].InvoiceEmail? ==> tasks[i].key in notes
    ensures var m' := Enqueue(m, notes, tasks);
      Inv(m') && Kept(m, m') && |m'.jobs| == |m.jobs| + |tasks|
    ensures forall i :: 0 <= i < |tasks| ==> Enqueue(m, notes, tasks).jobs[|m.jobs| + i] == Job(tasks[i], QUEUED(0))
  {
  }

  lemma MoveKeepsExclusive(jobs: seq<Job>, i: nat, progress: Progress)
    requires i < |jobs| && Exclusive(jobs)
    requires progress.RUNNING? && jobs[i].task.InvoiceEmail? ==>
      forall j :: 0 <= j < |jobs| && j != i ==> !RunsFor(jobs[j], jobs[i].task.key)
    ensures Exclusive(Move(jobs, i, progress))
  {
  }

  lemma BeginKeeps(m: Mail, i: nat)
    requires Inv(m)
    ensures Inv(Begin(m, i)) && Kept(m, Begin(m, i))
  {
    if CanBegin(m, i) {
      var key := m.jobs[i].task.key;
      forall j | 0 <= j < |m.jobs| ensures !RunsFor(m.jobs[j], key) {
        assert m.jobs[j] in m.jobs;
      }
      MoveKeepsExclusive(m.jobs, i, Begin(m, i).jobs[i].progress);
    }
  }

  /** While a task runs for the notification, no other task's standing depends on its status. */
  lemma OthersStayOk(notes: map<NoteKey, NoteStatus>, key: NoteKey, status: NoteStatus, j: Job)
    requires JobOk(notes, j) && !RunsFor(j, key) && key in notes && notes[key] != SENT
    ensures JobOk(notes[key := status], j)
  {
  }

  lemma EndKeepsJobs(m: Mail, i: nat, end: TaskEnd)
    requires JobsOk(m) && Exclusive(m.jobs) && CanEnd(m, i)
    ensures JobsOk(End(m, i, end)) && Exclusive(End(m, i, end).jobs)
  {
    var key := m.jobs[i].task.key;
    assert JobOk(m.notes, m.jobs[i]);
    forall j | 0 <= j < |m.jobs| && j != i ensures JobOk(End(m, i, end).notes, m.jobs[j]) {
      assert RunsFor(m.jobs[i], key) && !RunsFor(m.jobs[j], key);
      OthersStayOk(m.notes, key, StatusAfter(m.notes[key], key, end), m.jobs[j]);
    }
    MoveKeepsExclusive(m.jobs, i, ProgressAfter(m.jobs[i].progress.retries, end));
  }

  lemma EndKeepsCount(m: Mail, i: nat, end: TaskEnd)
    requires JobsOk(m) && Counted(m) && CanEnd(m, i)
    ensures Counted(End(m, i, end)) && NotesKept(m, End(m, i, end))
  {
    assert JobOk(m.notes, m.jobs[i]);
  }

  lemma EndKeeps(m: Mail, i: nat, end: TaskEnd)
    requires Inv(m)
    ensures Inv(End(m, i, end)) && Kept(m, End(m, i, end))
  {
    if CanEnd(m, i) {
      EndKeepsJobs(m, i, end);
      EndKeepsCount(m, i, end);
    }
  }

  lemma CancellationKeeps(m: Mail, i: nat)
    requires Inv(m)
    ensures Inv(MailCancellation(m, i)) && Kept(m, MailCancellation(m, i))
  {
    if i < |m.jobs| {
      MoveKeepsExclusive(m.jobs, i, FINISHED);
    }
  }

  lemma {:induction false} StepKeeps(m: Mail, step: Step)
    requires Inv(m)
    ensures Inv(Do(m, step)) && Kept(m, Do(m, step))
  {
    match step
    case Beginning(i) => BeginKeeps(m, i);
    case Ending(i, end) => EndKeeps(m, i, end);
    case Cancellation(i) => CancellationKeeps(m, i);
  }

  // ---------- One whole run of a task ----------

  function RunJob(m: Mail, i: nat, end: TaskEnd): Mail {
    Do(Do(m, Beginning(i)), Ending(i, end))
  }

  /** A run moves its own notification as one execution of the task does, and touches no other. */
  lemma EndMovesStatus(m: Mail, i: nat, end: TaskEnd)
    requires Inv(m) && CanBegin(m, i)
    ensures var key := m.jobs[i].task.key;
      RunJob(m, i, end).notes == m.notes[key := StatusAfter(m.notes[key], key, end)]
  {
    var key := m.jobs[i].task.key;
    BeginRuns(m, i);
    if m.notes[key] == SENT {
      assert m.notes[key := SENT] == m.notes;
    }
  }

  lemma BeginRuns(m: Mail, i: nat)
    requires CanBegin(m, i)
    ensures var b := Begin(m, i); b.notes == m.notes && |b.jobs| == |m.jobs| && b.jobs[i].task == m.jobs[i].task
    ensures CanEnd(Begin(m, i), i) <==> m.notes[m.jobs[i].task.key] != SENT
  {
  }

  /** After a run, the task is queued again exactly when it found work, raised, and had retries left. */
  lemma EndRequeues(m: Mail, i: nat, end: TaskEnd)
    requires Inv(m) && CanBegin(m, i)
    ensures var j, j' := m.jobs[i], RunJob(m, i, end).jobs[i];
      j'.progress.QUEUED? <==> m.notes[j.task.key] != SENT && Raises(end) && j.progress.retries < 3
    ensures var j, j' := m.jobs[i], RunJob(m, i, end).jobs[i];
      j'.progress.QUEUED? ==> j'.progress.retries == j.progress.retries + 1
    ensures forall k :: 0 <= k < |m.jobs| && k != i ==> RunJob(m, i, end).jobs[k] == m.jobs[k]
  {
  }

  /** A cancellation email's task is done with once it has run, and no other task moves. */
  lemma CancellationFinishes(m: Mail, i: nat)
    requires i < |m.jobs| && m.jobs[i].task.CanceledEmail?
    ensures var m' := Do(m, Cancellation(i));
      && m'.jobs == m.jobs[i := Job(m.jobs[i].task, FINISHED)]
      && m'.notes == m.notes && m'.delivered == m.delivered
  {
  }

  /** Whenever a mark is lost and retries are left, the retry sends the email a second time. */
  lemma LostMarkSendsTwice(m: Mail, i: nat)
    requires Inv(m) && CanBegin(m, i) && m.jobs[i].progress.retries < MAX_RETRIES
    requires var key := m.jobs[i].task.key; m.notes[key] != SENT && !key.emailType.OTHER?
    ensures var key := m.jobs[i].task.key;
      RunJob(RunJob(m, i, SENDS_UNRECORDED), i, SENDS).delivered[key] == m.delivered[key] + 2
  {
    var key := m.jobs[i].task.key;
    var once := RunJob(m, i, SENDS_UNRECORDED);
    BeginRuns(m, i);
    BeginKeeps(m, i);
    assert once.delivered == m.delivered + multiset{key} && once.notes == m.notes;
    NobodyElse(m, i);
    BeginRuns(once, i);
  }

  /** After the run, the task can begin again: no other task runs for its notification. */
  lemma NobodyElse(m: Mail, i: nat)
    requires Inv(m) && CanBegin(m, i) && m.jobs[i].progress.retries < MAX_RETRIES
    requires var key := m.jobs[i].task.key; m.notes[key] != SENT && !key.emailType.OTHER?
    ensures CanBegin(RunJob(m, i, SENDS_UNRECORDED), i)
  {
    var key := m.jobs[i].task.key;
    var once := RunJob(m, i, SENDS_UNRECORDED);
    assert once.jobs[i] == Job(m.jobs[i].task, QUEUED(m.jobs[i].progress.retries + 1));
    forall j | j in once.jobs ensures !(IsFor(j, key) && j.progress.RUNNING?) {
      var k :| 0 <= k < |once.jobs| && once.jobs[k] == j;
      if k != i {
        assert once.jobs[k] == m.jobs[k] && m.jobs[k] in m.jobs;
      }
    }
  }
}
