/** The tables behind outgoing mail (threads, emails, send jobs, drafts) and what each request and each step of
    the send worker does to them. The handlers of module `OutboxHandlers` are proved against these functions. */
module Outbox {
  import opened Wrappers
  import opened Labels

  datatype EmailStatus = Received | Queued | Scheduled | Delivered | EmailFailed | Bounced

  datatype EmailRow = EmailRow(thread: string, user: string, outbound: bool, status: EmailStatus, content: string)

  datatype JobStatus = Pending | Running | Completed | JobFailed | Cancelled

  /** A row of `email_jobs` of type send. `created` numbers the rows in the order of their creation. */
  datatype JobRow = JobRow(
    status: JobStatus, email: Option<string>, thread: Option<string>, draft: Option<string>,
    runAfter: Option<int>, retryCount: nat, created: nat)

  datatype DraftRow = DraftRow(user: string, thread: Option<string>, scheduledAt: Option<int>, content: string)

  /** A job that a worker has claimed and is sending: the columns it read. */
  datatype Flight = Flight(
    job: string, email: Option<string>, thread: Option<string>, draft: Option<string>, retryCount: nat)

  /** The tables; a thread is its label set. `flights` are the claims not finished yet. */
  datatype Tables = Tables(
    threads: map<string, set<Label>>,
    emails: map<string, EmailRow>,
    jobs: map<string, JobRow>,
    drafts: map<string, DraftRow>,
    flights: map<string, Flight>)

  datatype Reply = Accepted | BadRequest | NotFound | Forbidden | Conflict

  const MAX_RETRIES := 5
  const MINUTE := 60
  const DAY := 24 * 3600

  /** The ids the database generates for one send. */
  datatype NewIds = NewIds(thread: string, email: string, job: string)

  /** How a worker's send ends. A panic is caught and fails the job, and leaves the email alone. */
  datatype Outcome = Sent(alias: Option<string>) | Failed(permanent: bool, newDraft: string) | Panicked

  datatype Action =
    | SendDirect(user: string, replyTo: Option<string>, content: string, ids: NewIds)
    | SendDraft(user: string, draft: string, scheduledAt: Option<int>, now: int, ids: NewIds)
    | Retry(user: string, admin: bool, email: string)
    | CancelSend(user: string, email: string, newDraft: string)
    | CancelSchedule(user: string, draft: string)
    | Claim(job: string, flight: string)
    | Refuse(job: string)
    | Finish(flight: string, outcome: Outcome)
    | RecoverStale(job: string)
    | Release(job: string)
    | Reconcile(email: string, newDraft: string)
    | Bounce(email: string)
    | Inbound(found: Option<string>, content: string, ids: NewIds)
    | SaveDraft(id: string, user: string, thread: Option<string>, content: string)
    | DropDraft(id: string, user: string)

  // --- rows ---

  predicate HasEmail(t: Tables, thread: string) {
    exists e :: e in t.emails && t.emails[e].thread == thread
  }

  /** A foreign key keeps a thread that a draft or a job names. */
  predicate Referenced(t: Tables, thread: string) {
    || (exists d :: d in t.drafts && t.drafts[d].thread == Some(thread))
    || (exists j :: j in t.jobs && t.jobs[j].thread == Some(thread))
  }

  function JobsOfEmail(t: Tables, email: string): set<string> {
    set j | j in t.jobs && t.jobs[j].email == Some(email)
  }

  function ScheduledJobsOf(t: Tables, draft: string): set<string> {
    set j | j in t.jobs && t.jobs[j].draft == Some(draft) && t.jobs[j].status == Pending && t.jobs[j].runAfter.Some?
  }

  /** The newest of some jobs. */
  ghost predicate IsNewest(t: Tables, js: set<string>, j: string) {
    j in js && forall k :: k in js ==> k in t.jobs && j in t.jobs && t.jobs[k].created <= t.jobs[j].created
  }

  ghost function Newest(t: Tables, js: set<string>): Option<string> {
    if j :| IsNewest(t, js, j) then Some(j) else None
  }

  predicate SendingDraft(t: Tables, draft: string) {
    exists j :: j in t.jobs && t.jobs[j].draft == Some(draft) && t.jobs[j].status in {Pending, Running}
  }

  function WithJobStatus(t: Tables, j: string, status: JobStatus): Tables
    requires j in t.jobs
  {
    t.(jobs := t.jobs[j := t.jobs[j].(status := status)])
  }

  function WithEmailStatus(t: Tables, e: Option<string>, status: EmailStatus): Tables {
    if e.Some? && e.value in t.emails
    then t.(emails := t.emails[e.value := t.emails[e.value].(status := status)]) else t
  }

  // --- send ---

  /** A send inserts a thread unless it replies into one, the email and its job. */
  function Insert(t: Tables, user: string, thread: Option<string>, content: string, status: EmailStatus,
                  draft: Option<string>, runAfter: Option<int>, ids: NewIds): Tables
  {
    var th := if thread.Some? then thread.value else ids.thread;
    Tables(
      if thread.Some? then t.threads else t.threads[th := {Label.Sent}],
      t.emails[ids.email := EmailRow(th, user, true, status, content)],
      t.jobs[ids.job := JobRow(Pending, Some(ids.email), Some(th), draft, runAfter, 0, |t.jobs|)],
      t.drafts,
      t.flights)
  }

  function SendDirectReply(t: Tables, replyTo: Option<string>): Reply {
    if replyTo.Some? && replyTo.value !in t.threads then NotFound else Accepted
  }

  function SendDraftReply(t: Tables, user: string, draft: string, scheduledAt: Option<int>, now: int): Reply {
    if scheduledAt.Some? && !(now + MINUTE <= scheduledAt.value <= now + 30 * DAY) then BadRequest
    else if SendingDraft(t, draft) then Conflict
    else if draft !in t.drafts || t.drafts[draft].user != user then NotFound
    else if t.drafts[draft].thread.Some? && t.drafts[draft].thread.value !in t.threads then NotFound
    else Accepted
  }

  function AfterSendDraft(t: Tables, user: string, draft: string, scheduledAt: Option<int>, ids: NewIds): Tables
    requires draft in t.drafts
  {
    var d := t.drafts[draft];
    var status := if scheduledAt.Some? then EmailStatus.Scheduled else Queued;
    var sent := Insert(t, user, d.thread, d.content, status, Some(draft), scheduledAt, ids);
    if scheduledAt.Some? then sent.(drafts := t.drafts[draft := d.(scheduledAt := scheduledAt)]) else sent
  }

  // --- retry ---

  ghost function RetryReply(t: Tables, user: string, admin: bool, email: string): Reply {
    if email !in t.emails then NotFound
    else if !t.emails[email].outbound then BadRequest
    else if t.emails[email].user != user && !admin then Forbidden
    else if t.emails[email].status !in {EmailFailed, Bounced, Queued} then Conflict
    else if Newest(t, JobsOfEmail(t, email)).None? then Conflict
    else Accepted
  }

  function Requeued(t: Tables, email: string, j: string): Tables
    requires j in t.jobs
  {
    WithEmailStatus(t.(jobs := t.jobs[j := t.jobs[j].(status := Pending, retryCount := 0)]), Some(email), Queued)
  }

  // --- undo ---

  ghost function CancelSendReply(t: Tables, user: string, email: string): Reply {
    if email !in t.emails || !t.emails[email].outbound || t.emails[email].status !in {Queued, EmailStatus.Scheduled}
    then Conflict
    else if t.emails[email].user != user then Forbidden
    else
      var j := Newest(t, JobsOfEmail(t, email));
      if j.None? || j.value !in t.jobs || t.jobs[j.value].status != Pending then Conflict else Accepted
  }

  /** Clears the references of an email's jobs and deletes the email. */
  function WithoutEmail(t: Tables, email: string): Tables {
    t.(jobs := map j | j in t.jobs ::
         if t.jobs[j].email == Some(email) then t.jobs[j].(email := None, thread := None) else t.jobs[j],
       emails := t.emails - {email})
  }

  /** Drops a thread with no email left: its labels first, then the row if no foreign key holds it. */
  function WithoutEmptyThread(t: Tables, thread: string): Tables {
    if HasEmail(t, thread) then t
    else
      var cleared := if thread in t.threads then t.(threads := t.threads[thread := {}]) else t;
      if Referenced(cleared, thread) then cleared else cleared.(threads := cleared.threads - {thread})
  }

  /** The draft an undo gives back when the send had none. */
  function RecoveryDraft(e: EmailRow): DraftRow {
    DraftRow(e.user, Some(e.thread), None, e.content)
  }

  function Undone(t: Tables, email: string, j: string, newDraft: string): Tables
    requires email in t.emails && j in t.jobs
  {
    var gated := WithJobStatus(t, j, Cancelled);
    var kept :=
      if t.jobs[j].draft.Some? then gated
      else gated.(drafts := gated.drafts[newDraft := RecoveryDraft(t.emails[email])]);
    WithoutEmptyThread(WithoutEmail(kept, email), t.emails[email].thread)
  }

  ghost function CancelScheduleReply(t: Tables, user: string, draft: string): Reply {
    if draft !in t.drafts || t.drafts[draft].user != user then NotFound
    else if Newest(t, ScheduledJobsOf(t, draft)).None? then Conflict
    else Accepted
  }

  function Unscheduled(t: Tables, draft: string, j: string): Tables
    requires draft in t.drafts && j in t.jobs
  {
    var gated := WithJobStatus(t, j, Cancelled);
    var email := t.jobs[j].email;
    var removed :=
      if email.None? then gated
      else if email.value !in t.emails then WithoutEmail(gated, email.value)
      else WithoutEmptyThread(WithoutEmail(gated, email.value), t.emails[email.value].thread);
    removed.(drafts := removed.drafts[draft := t.drafts[draft].(scheduledAt := None)])
  }

  // --- the worker ---

  predicate ShouldSkip(j: JobRow) {
    j.status == Completed || j.status == Cancelled || (j.status == JobFailed && j.retryCount >= MAX_RETRIES)
  }

  function FlightOf(t: Tables, j: string): Flight
    requires j in t.jobs
  {
    var row := t.jobs[j];
    Flight(j, row.email, row.thread, row.draft, row.retryCount)
  }

  function Claimed(t: Tables, j: string, flight: string): Tables
    requires j in t.jobs
  {
    WithJobStatus(t, j, Running).(flights := t.flights[flight := FlightOf(t, j)])
  }

  /** A worker's send has succeeded: it writes with the columns it read when it claimed the job. */
  function SentOut(t: Tables, f: Flight, alias: Option<string>): Tables
    requires f.job in t.jobs
  {
    var done := WithEmailStatus(WithJobStatus(t, f.job, Completed), f.email, Delivered);
    var stamped := {Label.Sent} + if alias.Some? then {Alias(alias.value)} else {};
    var labelled :=
      if f.thread.Some? && f.thread.value in t.threads
      then done.(threads := t.threads[f.thread.value := t.threads[f.thread.value] + stamped]) else done;
    if f.draft.Some? then labelled.(drafts := t.drafts - {f.draft.value}) else labelled
  }

  predicate GivesUp(f: Flight, permanent: bool) {
    permanent || f.retryCount + 1 >= MAX_RETRIES
  }

  /** A worker's send has failed: back to pending, or failed for good with a recovery draft. */
  function FailedOut(t: Tables, f: Flight, permanent: bool, newDraft: string): Tables
    requires f.job in t.jobs
  {
    var row := t.jobs[f.job];
    if !GivesUp(f, permanent)
    then t.(jobs := t.jobs[f.job := row.(status := Pending, retryCount := f.retryCount + 1)])
    else
      var failed := WithEmailStatus(
        t.(jobs := t.jobs[f.job := row.(status := JobFailed, retryCount := f.retryCount + 1)]), row.email, EmailFailed);
      if row.email.Some? && row.email.value in t.emails && row.draft.None?
      then failed.(drafts := t.drafts[newDraft := RecoveryDraft(t.emails[row.email.value])]) else failed
  }

  function Recovered(t: Tables, j: string): Tables
    requires j in t.jobs
  {
    var row := t.jobs[j];
    if row.retryCount >= MAX_RETRIES then WithJobStatus(t, j, JobFailed)
    else t.(jobs := t.jobs[j := row.(status := Pending, retryCount := row.retryCount + 1)])
  }

  function Released(t: Tables, j: string): Tables
    requires j in t.jobs
  {
    var e := t.jobs[j].email;
    var due := t.(jobs := t.jobs[j := t.jobs[j].(runAfter := None)]);
    if e.Some? && e.value in t.emails && t.emails[e.value].status == EmailStatus.Scheduled
    then WithEmailStatus(due, e, Queued) else due
  }

  /** A queued email that no pending or running job will send. */
  predicate Stuck(t: Tables, email: string) {
    && email in t.emails && t.emails[email].outbound && t.emails[email].status == Queued
    && forall j :: j in JobsOfEmail(t, email) ==> t.jobs[j].status !in {Pending, Running}
  }

  /** The reconciler fails a stuck email, and gives back a draft unless its job came from one. */
  ghost function Reconciled(t: Tables, email: string, newDraft: string): Tables
    requires email in t.emails
  {
    var failed := WithEmailStatus(t, Some(email), EmailFailed);
    var j := Newest(t, JobsOfEmail(t, email));
    if j.Some? && j.value in t.jobs && t.jobs[j.value].draft.Some? then failed
    else failed.(drafts := t.drafts[newDraft := RecoveryDraft(t.emails[email])])
  }

  // --- one step ---

  ghost function Next(t: Tables, a: Action): Tables {
    match a
    case SendDirect(user, replyTo, content, ids) =>
      if SendDirectReply(t, replyTo) == Accepted then Insert(t, user, replyTo, content, Queued, None, None, ids) else t
    case SendDraft(user, draft, scheduledAt, now, ids) =>
      if SendDraftReply(t, user, draft, scheduledAt, now) == Accepted
      then AfterSendDraft(t, user, draft, scheduledAt, ids) else t
    case Retry(user, admin, email) =>
      if RetryReply(t, user, admin, email) == Accepted
      then Requeued(t, email, Newest(t, JobsOfEmail(t, email)).value) else t
    case CancelSend(user, email, newDraft) =>
      if CancelSendReply(t, user, email) == Accepted
      then Undone(t, email, Newest(t, JobsOfEmail(t, email)).value, newDraft) else t
    case CancelSchedule(user, draft) =>
      if CancelScheduleReply(t, user, draft) == Accepted
      then Unscheduled(t, draft, Newest(t, ScheduledJobsOf(t, draft)).value) else t
    case Claim(j, flight) => if j in t.jobs && !ShouldSkip(t.jobs[j]) then Claimed(t, j, flight) else t
    case Refuse(j) =>
      if j in t.jobs && !ShouldSkip(t.jobs[j])
      then WithEmailStatus(WithJobStatus(t, j, JobFailed), t.jobs[j].email, EmailFailed) else t
    case Finish(flight, outcome) =>
      if flight !in t.flights || t.flights[flight].job !in t.jobs then t
      else
        var landed := t.(flights := t.flights - {flight});
        (match outcome
         case Sent(alias) => SentOut(landed, t.flights[flight], alias)
         case Failed(permanent, newDraft) => FailedOut(landed, t.flights[flight], permanent, newDraft)
         case Panicked => WithJobStatus(landed, t.flights[flight].job, JobFailed))
    case RecoverStale(j) => if j in t.jobs && t.jobs[j].status == Running then Recovered(t, j) else t
    case Release(j) =>
      if j in t.jobs && t.jobs[j].status == Pending && t.jobs[j].runAfter.Some? then Released(t, j) else t
    case Reconcile(e, newDraft) => if Stuck(t, e) then Reconciled(t, e, newDraft) else t
    case Bounce(e) =>
      if e in t.emails && t.emails[e].status == Delivered then WithEmailStatus(t, Some(e), Bounced) else t
    case Inbound(found, content, ids) =>
      if found.Some? && found.value !in t.threads then t
      else
        var th := if found.Some? then found.value else ids.thread;
        t.(threads := if found.Some? then t.threads else t.threads[th := {Inbox}],
           emails := t.emails[ids.email := EmailRow(th, "", false, Received, content)])
    case SaveDraft(id, user, thread, content) =>
      if thread.Some? && thread.value !in t.threads then t
      else t.(drafts := t.drafts[id := DraftRow(user, thread, None, content)])
    case DropDraft(id, user) =>
      if id in t.drafts && t.drafts[id].user == user then t.(drafts := t.drafts - {id}) else t
  }

  /** The ids the database generates are new. */
  predicate Fresh(t: Tables, a: Action) {
    match a
    case SendDirect(_, _, _, ids) => FreshIds(t, ids)
    case SendDraft(_, _, _, _, ids) => FreshIds(t, ids)
    case Inbound(_, _, ids) => FreshIds(t, ids)
    case CancelSend(_, _, newDraft) => newDraft !in t.drafts
    case Claim(_, flight) => flight !in t.flights
    case Reconcile(_, newDraft) => newDraft !in t.drafts
    case Finish(_, Failed(_, newDraft)) => newDraft !in t.drafts
    case SaveDraft(id, _, _, _) => id !in t.drafts
    case _ => true
  }

  predicate FreshIds(t: Tables, ids: NewIds) {
    ids.thread !in t.threads && ids.email !in t.emails && ids.job !in t.jobs
  }
}
