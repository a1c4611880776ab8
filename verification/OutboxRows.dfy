/** The outbox one row at a time: who may do what, and what each step makes of each job, email, draft and thread. */
module OutboxRows {
  import opened Wrappers
  import opened Labels
  import opened Outbox
  import opened OutboxRefs
  import opened OutboxRuns
  import opened OutboxUndo

  // --- who may do what ---

  /** Undoing a send: one's own outgoing email, not sent yet, whose job is still pending. */
  predicate MayUndo(t: Tables, user: string, e: string, j: string) {
    && e in t.emails && t.emails[e].outbound && t.emails[e].user == user
    && t.emails[e].status in {Queued, EmailStatus.Scheduled}
    && j in t.jobs && t.jobs[j].email == Some(e) && t.jobs[j].status == Pending
  }

  /** Trying again: one's own outgoing email, or anybody's for an admin, that failed, bounced or is queued. */
  predicate MayRetry(t: Tables, user: string, admin: bool, e: string, j: string) {
    && e in t.emails && t.emails[e].outbound && (t.emails[e].user == user || admin)
    && t.emails[e].status in {EmailFailed, Bounced, Queued}
    && j in t.jobs && t.jobs[j].email == Some(e)
  }

  predicate IsScheduledFor(t: Tables, d: string, j: string) {
    j in t.jobs && t.jobs[j].draft == Some(d) && t.jobs[j].status == Pending && t.jobs[j].runAfter.Some?
  }

  /** Cancelling a schedule: of one's own draft, the newest job that still waits for its time. */
  ghost predicate MayUnschedule(t: Tables, user: string, d: string, j: string) {
    && d in t.drafts && t.drafts[d].user == user && IsScheduledFor(t, d, j)
    && forall k :: IsScheduledFor(t, d, k) ==> k in t.jobs && t.jobs[k].created <= t.jobs[j].created
  }

  /** The jobs of a draft that are not over yet. */
  function LiveJobsOf(t: Tables, d: string): set<string> {
    set j | j in t.jobs && t.jobs[j].draft == Some(d) && (t.jobs[j].status == Pending || t.jobs[j].status == Running)
  }

  /** Sending a draft: one's own, with no live job, into a thread that exists; for a time between one minute and 30 days
      from now, if for a time. */
  predicate MaySendDraft(t: Tables, user: string, d: string, at: Option<int>, now: int) {
    && d in t.drafts && t.drafts[d].user == user && LiveJobsOf(t, d) == {}
    && (t.drafts[d].thread.Some? ==> t.drafts[d].thread.value in t.threads)
    && (at.Some? ==> now + 60 <= at.value <= now + 30 * 24 * 3600)
  }

  /** Taking a job up: anything but a job that is done, cancelled, or has failed five times. */
  predicate MayTake(t: Tables, j: string) {
    j in t.jobs && match t.jobs[j].status
      case Pending => true
      case Running => true
      case Completed => false
      case Cancelled => false
      case JobFailed => t.jobs[j].retryCount < 5
  }

  lemma UndoIff(t: Tables, user: string, e: string, j: string)
    requires RefsOk(t)
    ensures CancelSendReply(t, user, e) == Accepted && Newest(t, JobsOfEmail(t, e)) == Some(j)
            <==> MayUndo(t, user, e, j)
  {
    NewestIsOneOf(t, JobsOfEmail(t, e));
    if j in t.jobs && t.jobs[j].email == Some(e) { JobOfEmail(t, e, j); }
  }

  lemma RetryIff(t: Tables, user: string, admin: bool, e: string, j: string)
    requires RefsOk(t)
    ensures RetryReply(t, user, admin, e) == Accepted && Newest(t, JobsOfEmail(t, e)) == Some(j)
            <==> MayRetry(t, user, admin, e, j)
  {
    NewestIsOneOf(t, JobsOfEmail(t, e));
    if j in t.jobs && t.jobs[j].email == Some(e) { JobOfEmail(t, e, j); }
  }

  lemma UnscheduleIff(t: Tables, user: string, d: string, j: string)
    requires RefsOk(t)
    ensures CancelScheduleReply(t, user, d) == Accepted && Newest(t, ScheduledJobsOf(t, d)) == Some(j)
            <==> MayUnschedule(t, user, d, j)
  {
    assert forall k :: k in ScheduledJobsOf(t, d) <==> IsScheduledFor(t, d, k);
    if Newest(t, ScheduledJobsOf(t, d)) == Some(j) { assert IsNewest(t, ScheduledJobsOf(t, d), j); }
    if MayUnschedule(t, user, d, j) {
      assert IsNewest(t, ScheduledJobsOf(t, d), j);
      NewestIs(t, ScheduledJobsOf(t, d), j);
    }
  }

  lemma SendDraftIff(t: Tables, user: string, d: string, at: Option<int>, now: int)
    ensures SendDraftReply(t, user, d, at, now) == Accepted <==> MaySendDraft(t, user, d, at, now)
  {
    LiveIff(t, d);
  }

  lemma LiveIff(t: Tables, d: string)
    ensures SendingDraft(t, d) <==> LiveJobsOf(t, d) != {}
  {
    if SendingDraft(t, d) {
      var j :| j in t.jobs && t.jobs[j].draft == Some(d) && t.jobs[j].status in {Pending, Running};
      assert j in LiveJobsOf(t, d);
    }
    if LiveJobsOf(t, d) != {} {
      var j :| j in LiveJobsOf(t, d);
      assert t.jobs[j].status in {Pending, Running};
    }
  }

  /** What a refused request is told: of another's unsent mail that it is not his, and of a draft's send that its time
      is wrong before anything else. */
  lemma RefusedIff(t: Tables, user: string, admin: bool, e: string, d: string, at: Option<int>, now: int)
    ensures CancelSendReply(t, user, e) == Forbidden <==>
      && e in t.emails && t.emails[e].outbound && t.emails[e].status in {Queued, EmailStatus.Scheduled}
      && t.emails[e].user != user
    ensures CancelSendReply(t, user, e) in {Accepted, Forbidden, Conflict}
    ensures RetryReply(t, user, admin, e) == NotFound <==> e !in t.emails
    ensures RetryReply(t, user, admin, e) == BadRequest <==> e in t.emails && !t.emails[e].outbound
    ensures RetryReply(t, user, admin, e) == Forbidden <==>
      e in t.emails && t.emails[e].outbound && t.emails[e].user != user && !admin
    ensures SendDraftReply(t, user, d, at, now) == BadRequest
            <==> at.Some? && !(now + 60 <= at.value <= now + 30 * 24 * 3600)
    ensures SendDraftReply(t, user, d, at, now) == Conflict
            <==> (at.Some? ==> now + 60 <= at.value <= now + 30 * 24 * 3600) && LiveJobsOf(t, d) != {}
    ensures SendDraftReply(t, user, d, at, now) in {Accepted, BadRequest, Conflict, NotFound}
    ensures CancelScheduleReply(t, user, d) == NotFound <==> d !in t.drafts || t.drafts[d].user != user
    ensures CancelScheduleReply(t, user, d) in {Accepted, NotFound, Conflict}
  {
    LiveIff(t, d);
  }

  // --- jobs ---

  /** A job that a step has not created: what the step makes of it. */
  ghost function JobAfter(t: Tables, a: Action, j: string): JobRow
    requires j in t.jobs
  {
    var row := t.jobs[j];
    var cancelled := row.(status := Cancelled, email := None, thread := None);
    match a
    case Retry(user, admin, e) =>
      if MayRetry(t, user, admin, e, j) then row.(status := Pending, retryCount := 0) else row
    case CancelSend(user, e, _) => if MayUndo(t, user, e, j) then cancelled else row
    case CancelSchedule(user, d) => if MayUnschedule(t, user, d, j) then cancelled else row
    case Claim(k, _) => if k == j && MayTake(t, j) then row.(status := Running) else row
    case Refuse(k) => if k == j && MayTake(t, j) then row.(status := JobFailed) else row
    case Finish(f, outcome) =>
      if f !in t.flights || t.flights[f].job != j then row
      else
        var tries := t.flights[f].retryCount + 1;
        (match outcome
         case Sent(_) => row.(status := Completed)
         case Failed(permanent, _) =>
           row.(status := if permanent || tries >= 5 then JobFailed else Pending, retryCount := tries)
         case Panicked => row.(status := JobFailed))
    case RecoverStale(k) =>
      if k != j || row.status != Running then row
      else if row.retryCount >= 5 then row.(status := JobFailed)
      else row.(status := Pending, retryCount := row.retryCount + 1)
    case Release(k) => if k == j && row.status == Pending then row.(runAfter := None) else row
    case _ => row
  }

  /** Every job stays, and is made what `JobAfter` says. */
  lemma JobRows(t: Tables, a: Action, j: string)
    requires RefsOk(t) && Fresh(t, a) && j in t.jobs
    ensures j in Next(t, a).jobs && Next(t, a).jobs[j] == JobAfter(t, a, j)
  {
    match a
    case Retry(_, _, _) => RetryRows(t, a, j);
    case CancelSend(_, _, _) => CancelRows(t, a, j);
    case CancelSchedule(_, _) => CancelRows(t, a, j);
    case Finish(_, _) => FinishRows(t, a, j);
    case _ => WorkerRows(t, a, j);
  }

  lemma RetryRows(t: Tables, a: Action, j: string)
    requires RefsOk(t) && j in t.jobs && a.Retry?
    ensures j in Next(t, a).jobs && Next(t, a).jobs[j] == JobAfter(t, a, j)
  {
    NewestIsOneOf(t, JobsOfEmail(t, a.email));
    RetryIff(t, a.user, a.admin, a.email, j);
  }

  lemma CancelRows(t: Tables, a: Action, j: string)
    requires RefsOk(t) && Fresh(t, a) && j in t.jobs && (a.CancelSend? || a.CancelSchedule?)
    ensures j in Next(t, a).jobs && Next(t, a).jobs[j] == JobAfter(t, a, j)
  {
    if a.CancelSend? { UndoIff(t, a.user, a.email, j); } else { UnscheduleIff(t, a.user, a.draft, j); }
    if Cancels(t, a, j) { CancelledRow(t, a, j); } else { CancelTouchesOne(t, a, j); }
  }

  lemma FinishRows(t: Tables, a: Action, j: string)
    requires j in t.jobs && a.Finish?
    ensures j in Next(t, a).jobs && Next(t, a).jobs[j] == JobAfter(t, a, j)
  {
    if !Touches(t, a, j) {
      FinishTouchesOne(t, a, j);
    } else {
      var f, landed := t.flights[a.flight], t.(flights := t.flights - {a.flight});
      match a.outcome
      case Sent(alias) => assert SentOut(landed, f, alias).jobs[j] == t.jobs[j].(status := Completed);
      case Failed(permanent, newDraft) => FailedRow(landed, f, permanent, newDraft);
      case Panicked =>
    }
  }

  lemma FailedRow(t: Tables, f: Flight, permanent: bool, newDraft: string)
    requires f.job in t.jobs
    ensures f.job in FailedOut(t, f, permanent, newDraft).jobs
    ensures FailedOut(t, f, permanent, newDraft).jobs[f.job] == t.jobs[f.job].(
      status := if permanent || f.retryCount + 1 >= 5 then JobFailed else Pending, retryCount := f.retryCount + 1)
  {
  }

  lemma WorkerRows(t: Tables, a: Action, j: string)
    requires RefsOk(t) && Fresh(t, a) && j in t.jobs
    requires !a.Retry? && !a.CancelSend? && !a.CancelSchedule? && !a.Finish?
    ensures j in Next(t, a).jobs && Next(t, a).jobs[j] == JobAfter(t, a, j)
  {
    if !Touches(t, a, j) {
      Untouched(t, a, j);
    } else {
      match a
      case Claim(_, _) => TakenRow(t, a, j);
      case Refuse(_) => TakenRow(t, a, j);
      case _ => PutBackRow(t, a, j);
    }
  }

  lemma TakenRow(t: Tables, a: Action, j: string)
    requires j in t.jobs && (a.Claim? || a.Refuse?) && a.job == j
    ensures j in Next(t, a).jobs && Next(t, a).jobs[j] == JobAfter(t, a, j)
  {
  }

  lemma PutBackRow(t: Tables, a: Action, j: string)
    requires j in t.jobs && (a.RecoverStale? || a.Release?) && a.job == j
    ensures j in Next(t, a).jobs && Next(t, a).jobs[j] == JobAfter(t, a, j)
  {
  }

  // --- what a send makes ---

  /** What an accepted send hands to the worker: an email with the message, from its user, and a pending job for it with
      no attempts behind it. It replies into its thread or starts a new one under "sent". */
  predicate Hands(
    t: Tables, r: Tables, user: string, thread: Option<string>, content: string, draft: Option<string>,
    at: Option<int>, ids: NewIds)
  {
    var th := if thread.Some? then thread.value else ids.thread;
    && r.emails == t.emails[ids.email :=
         EmailRow(th, user, true, if at.Some? then EmailStatus.Scheduled else Queued, content)]
    && ids.job in r.jobs && r.jobs == t.jobs[ids.job := r.jobs[ids.job]]
    && r.jobs[ids.job] == JobRow(Pending, Some(ids.email), Some(th), draft, at, 0, r.jobs[ids.job].created)
    && r.threads == (if thread.Some? then t.threads else t.threads[ids.thread := {Label.Sent}])
    && r.flights == t.flights
  }

  /** A direct send needs a thread that exists to reply into. */
  lemma DirectHands(t: Tables, user: string, replyTo: Option<string>, content: string, ids: NewIds)
    ensures var r := Next(t, SendDirect(user, replyTo, content, ids));
      if replyTo.Some? && replyTo.value !in t.threads then r == t
      else Hands(t, r, user, replyTo, content, None, None, ids) && r.drafts == t.drafts
  {
  }

  /** A send of a draft hands over what the draft says. The draft itself stays, with its time if it has one. */
  lemma DraftHands(t: Tables, user: string, d: string, at: Option<int>, now: int, ids: NewIds)
    ensures var r := Next(t, SendDraft(user, d, at, now, ids));
      if !MaySendDraft(t, user, d, at, now) then r == t
      else
        && Hands(t, r, user, t.drafts[d].thread, t.drafts[d].content, Some(d), at, ids)
        && r.drafts == (if at.Some? then t.drafts[d := t.drafts[d].(scheduledAt := at)] else t.drafts)
  {
    SendDraftIff(t, user, d, at, now);
  }

  // --- emails ---

  /** An email that a step has not created: what the step makes of it, if it leaves it. */
  ghost function EmailAfter(t: Tables, a: Action, e: string): Option<EmailRow>
    requires e in t.emails
  {
    var row := t.emails[e];
    match a
    case Retry(user, admin, k) =>
      Some(if k == e && (exists j :: MayRetry(t, user, admin, e, j)) then row.(status := Queued) else row)
    case CancelSend(user, k, _) => if k == e && (exists j :: MayUndo(t, user, e, j)) then None else Some(row)
    case CancelSchedule(user, d) =>
      if exists j :: MayUnschedule(t, user, d, j) && t.jobs[j].email == Some(e) then None else Some(row)
    case Refuse(j) => Some(if MayTake(t, j) && t.jobs[j].email == Some(e) then row.(status := EmailFailed) else row)
    case Finish(f, outcome) =>
      if f !in t.flights || t.flights[f].job !in t.jobs then Some(row)
      else
        var tries := t.flights[f].retryCount + 1;
        (match outcome
         case Sent(_) => Some(if t.flights[f].email == Some(e) then row.(status := Delivered) else row)
         case Failed(permanent, _) =>
           Some(if (permanent || tries >= 5) && t.jobs[t.flights[f].job].email == Some(e)
                then row.(status := EmailFailed) else row)
         case Panicked => Some(row))
    case Release(j) =>
      Some(if && j in t.jobs && t.jobs[j].status == Pending && t.jobs[j].runAfter.Some? && t.jobs[j].email == Some(e)
              && row.status == EmailStatus.Scheduled
           then row.(status := Queued) else row)
    case Reconcile(k, _) => Some(if k == e && Stuck(t, e) then row.(status := EmailFailed) else row)
    case Bounce(k) => Some(if k == e && row.status == Delivered then row.(status := Bounced) else row)
    case _ => Some(row)
  }

  ghost predicate EmailIs(t: Tables, e: string, row: Option<EmailRow>) {
    if row.Some? then e in t.emails && t.emails[e] == row.value else e !in t.emails
  }

  /** Every email is made what `EmailAfter` says. */
  lemma EmailRows(t: Tables, a: Action, e: string)
    requires RefsOk(t) && Fresh(t, a) && e in t.emails
    ensures EmailIs(Next(t, a), e, EmailAfter(t, a, e))
  {
    match a
    case SendDirect(user, replyTo, content, ids) => DirectHands(t, user, replyTo, content, ids);
    case SendDraft(user, d, at, now, ids) => DraftHands(t, user, d, at, now, ids);
    case Retry(_, _, _) => RetryEmails(t, a, e);
    case CancelSend(_, _, _) => UndoEmails(t, a, e);
    case CancelSchedule(_, _) => UnscheduleEmails(t, a, e);
    case Finish(_, _) => FinishEmails(t, a, e);
    case _ => WorkerEmails(t, a, e);
  }

  lemma RetryEmails(t: Tables, a: Action, e: string)
    requires RefsOk(t) && e in t.emails && a.Retry?
    ensures EmailIs(Next(t, a), e, EmailAfter(t, a, e))
  {
    var j := Newest(t, JobsOfEmail(t, a.email));
    NewestIsOneOf(t, JobsOfEmail(t, a.email));
    if j.Some? { RetryIff(t, a.user, a.admin, a.email, j.value); }
    if k :| MayRetry(t, a.user, a.admin, a.email, k) { RetryIff(t, a.user, a.admin, a.email, k); }
  }

  lemma UndoEmails(t: Tables, a: Action, e: string)
    requires RefsOk(t) && Fresh(t, a) && e in t.emails && a.CancelSend?
    ensures EmailIs(Next(t, a), e, EmailAfter(t, a, e))
  {
    var j := Newest(t, JobsOfEmail(t, a.email));
    NewestIsOneOf(t, JobsOfEmail(t, a.email));
    if j.Some? { UndoIff(t, a.user, a.email, j.value); }
    if k :| MayUndo(t, a.user, a.email, k) { UndoIff(t, a.user, a.email, k); }
    if CancelSendReply(t, a.user, a.email) == Accepted { UndoneKeepsRefs(t, a.email, j.value, a.newDraft); }
  }

  lemma UnscheduleEmails(t: Tables, a: Action, e: string)
    requires RefsOk(t) && e in t.emails && a.CancelSchedule?
    ensures EmailIs(Next(t, a), e, EmailAfter(t, a, e))
  {
    var j := Newest(t, ScheduledJobsOf(t, a.draft));
    NewestIsOneOf(t, ScheduledJobsOf(t, a.draft));
    forall k
      ensures MayUnschedule(t, a.user, a.draft, k)
              <==> CancelScheduleReply(t, a.user, a.draft) == Accepted && j == Some(k)
    {
      UnscheduleIff(t, a.user, a.draft, k);
    }
    if CancelScheduleReply(t, a.user, a.draft) == Accepted { UnscheduledEmails(t, a.draft, j.value); }
  }

  lemma UnscheduledEmails(t: Tables, draft: string, j: string)
    requires RefsOk(t) && draft in t.drafts && j in t.jobs
    ensures Unscheduled(t, draft, j).emails
         == if t.jobs[j].email.Some? then t.emails - {t.jobs[j].email.value} else t.emails
  {
    assert JobOk(t, t.jobs[j]);
  }

  lemma FinishEmails(t: Tables, a: Action, e: string)
    requires e in t.emails && a.Finish?
    ensures EmailIs(Next(t, a), e, EmailAfter(t, a, e))
  {
    if a.flight in t.flights && t.flights[a.flight].job in t.jobs {
      var f, landed := t.flights[a.flight], t.(flights := t.flights - {a.flight});
      match a.outcome
      case Sent(alias) => SentEmails(landed, f, alias, e);
      case Failed(permanent, newDraft) => FailedEmails(landed, f, permanent, newDraft, e);
      case Panicked =>
    }
  }

  lemma SentEmails(t: Tables, f: Flight, alias: Option<string>, e: string)
    requires f.job in t.jobs && e in t.emails
    ensures var r := SentOut(t, f, alias);
      e in r.emails && r.emails[e] == if f.email == Some(e) then t.emails[e].(status := Delivered) else t.emails[e]
  {
  }

  lemma FailedEmails(t: Tables, f: Flight, permanent: bool, newDraft: string, e: string)
    requires f.job in t.jobs && e in t.emails
    ensures var r := FailedOut(t, f, permanent, newDraft);
      && e in r.emails
      && r.emails[e] == if (permanent || f.retryCount + 1 >= 5) && t.jobs[f.job].email == Some(e)
                        then t.emails[e].(status := EmailFailed) else t.emails[e]
  {
  }

  lemma WorkerEmails(t: Tables, a: Action, e: string)
    requires Fresh(t, a) && e in t.emails
    requires !a.SendDirect? && !a.SendDraft? && !a.Retry? && !a.CancelSend? && !a.CancelSchedule? && !a.Finish?
    ensures EmailIs(Next(t, a), e, EmailAfter(t, a, e))
  {
    match a
    case Claim(_, _) =>
    case Refuse(_) =>
    case RecoverStale(_) =>
    case Release(_) =>
    case Inbound(_, _, _) =>
    case _ => OthersKeepEmails(t, a, e);
  }

  lemma OthersKeepEmails(t: Tables, a: Action, e: string)
    requires e in t.emails && (a.Reconcile? || a.Bounce? || a.SaveDraft? || a.DropDraft?)
    ensures EmailIs(Next(t, a), e, EmailAfter(t, a, e))
  {
  }

  // --- drafts ---

  /** The draft that gives a message back. */
  function GivenBack(e: EmailRow): DraftRow {
    DraftRow(e.user, Some(e.thread), None, e.content)
  }

  /** The worker gives a job up at this step. */
  predicate GivesUpAt(t: Tables, a: Action) {
    && a.Finish? && a.outcome.Failed? && a.flight in t.flights && t.flights[a.flight].job in t.jobs
    && (a.outcome.permanent || t.flights[a.flight].retryCount + 1 >= 5)
  }

  /** A draft that a step finds: what the step makes of it, if it leaves it. Only its owner, or a mail that went out
      from it, deletes a draft. */
  ghost function DraftAfter(t: Tables, a: Action, d: string): Option<DraftRow>
    requires d in t.drafts
  {
    var row := t.drafts[d];
    match a
    case SendDraft(user, k, at, now, _) =>
      Some(if k == d && at.Some? && MaySendDraft(t, user, d, at, now) then row.(scheduledAt := at) else row)
    case CancelSchedule(user, k) =>
      Some(if k == d && (exists j :: MayUnschedule(t, user, d, j)) then row.(scheduledAt := None) else row)
    case Finish(f, Sent(_)) =>
      if f in t.flights && t.flights[f].job in t.jobs && t.flights[f].draft == Some(d) then None else Some(row)
    case DropDraft(k, user) => if k == d && row.user == user then None else Some(row)
    case _ => Some(row)
  }

  /** The draft a step creates under an id. A message is given back as a draft when its send is undone, given up, or
      found stuck, unless the send came from a draft. */
  ghost function DraftMade(t: Tables, a: Action, d: string): Option<DraftRow> {
    match a
    case CancelSend(user, e, k) =>
      if k == d && (exists j :: MayUndo(t, user, e, j) && t.jobs[j].draft.None?) then Some(GivenBack(t.emails[e]))
      else None
    case Finish(f, Failed(_, k)) =>
      if k != d || !GivesUpAt(t, a) then None
      else
        var job := t.jobs[t.flights[f].job];
        if job.draft.None? && job.email.Some? && job.email.value in t.emails
        then Some(GivenBack(t.emails[job.email.value])) else None
    case Reconcile(e, k) =>
      if k == d && Stuck(t, e) && (forall j :: j in t.jobs && t.jobs[j].email == Some(e) ==> t.jobs[j].draft.None?)
      then Some(GivenBack(t.emails[e])) else None
    case SaveDraft(k, user, thread, content) =>
      if k == d && (thread.Some? ==> thread.value in t.threads) then Some(DraftRow(user, thread, None, content))
      else None
    case _ => None
  }

  ghost predicate DraftIs(t: Tables, d: string, row: Option<DraftRow>) {
    if row.Some? then d in t.drafts && t.drafts[d] == row.value else d !in t.drafts
  }

  /** Every draft is made, or created as, what these two say. */
  lemma DraftRows(t: Tables, a: Action, d: string)
    requires RefsOk(t) && Fresh(t, a)
    ensures DraftIs(Next(t, a), d, if d in t.drafts then DraftAfter(t, a, d) else DraftMade(t, a, d))
  {
    match a
    case SendDirect(user, replyTo, content, ids) => DirectHands(t, user, replyTo, content, ids);
    case SendDraft(user, k, at, now, ids) => DraftHands(t, user, k, at, now, ids);
    case CancelSend(_, _, _) => UndoDrafts(t, a, d);
    case CancelSchedule(_, _) => UnscheduleDrafts(t, a, d);
    case Finish(_, _) => FinishDrafts(t, a, d);
    case Reconcile(_, _) => ReconcileDrafts(t, a, d);
    case Retry(_, _, _) => RetryKeepsDrafts(t, a);
    case SaveDraft(_, _, _, _) => OwnerDrafts(t, a, d);
    case DropDraft(_, _) => OwnerDrafts(t, a, d);
    case _ => WorkerKeepsDrafts(t, a);
  }

  lemma RetryKeepsDrafts(t: Tables, a: Action)
    requires a.Retry?
    ensures Next(t, a).drafts == t.drafts
  {
    NewestIsOneOf(t, JobsOfEmail(t, a.email));
  }

  lemma UndoDrafts(t: Tables, a: Action, d: string)
    requires RefsOk(t) && Fresh(t, a) && a.CancelSend?
    ensures DraftIs(Next(t, a), d, if d in t.drafts then DraftAfter(t, a, d) else DraftMade(t, a, d))
  {
    var j := Newest(t, JobsOfEmail(t, a.email));
    NewestIsOneOf(t, JobsOfEmail(t, a.email));
    forall k
      ensures MayUndo(t, a.user, a.email, k) <==> CancelSendReply(t, a.user, a.email) == Accepted && j == Some(k)
    {
      UndoIff(t, a.user, a.email, k);
    }
    if CancelSendReply(t, a.user, a.email) == Accepted { UndoneGivesBack(t, a.email, j.value, a.newDraft); }
  }

  lemma UndoneGivesBack(t: Tables, e: string, j: string, newDraft: string)
    requires e in t.emails && j in t.jobs
    ensures Undone(t, e, j, newDraft).drafts
         == if t.jobs[j].draft.Some? then t.drafts else t.drafts[newDraft := GivenBack(t.emails[e])]
  {
    UndoneDrafts(t, e, j, newDraft);
  }

  lemma UnscheduleDrafts(t: Tables, a: Action, d: string)
    requires RefsOk(t) && a.CancelSchedule?
    ensures DraftIs(Next(t, a), d, if d in t.drafts then DraftAfter(t, a, d) else DraftMade(t, a, d))
  {
    var j := Newest(t, ScheduledJobsOf(t, a.draft));
    NewestIsOneOf(t, ScheduledJobsOf(t, a.draft));
    forall k
      ensures MayUnschedule(t, a.user, a.draft, k)
              <==> CancelScheduleReply(t, a.user, a.draft) == Accepted && j == Some(k)
    {
      UnscheduleIff(t, a.user, a.draft, k);
    }
    if CancelScheduleReply(t, a.user, a.draft) == Accepted { UnscheduledDrafts(t, a.draft, j.value); }
  }

  lemma UnscheduledDrafts(t: Tables, draft: string, j: string)
    requires draft in t.drafts && j in t.jobs
    ensures Unscheduled(t, draft, j).drafts == t.drafts[draft := t.drafts[draft].(scheduledAt := None)]
  {
  }

  lemma FinishDrafts(t: Tables, a: Action, d: string)
    requires Fresh(t, a) && a.Finish?
    ensures DraftIs(Next(t, a), d, if d in t.drafts then DraftAfter(t, a, d) else DraftMade(t, a, d))
  {
    if a.flight in t.flights && t.flights[a.flight].job in t.jobs {
      var f, landed := t.flights[a.flight], t.(flights := t.flights - {a.flight});
      match a.outcome
      case Sent(alias) => SentDrafts(landed, f, alias);
      case Failed(permanent, newDraft) => FailedDrafts(landed, f, permanent, newDraft);
      case Panicked =>
    }
  }

  lemma SentDrafts(t: Tables, f: Flight, alias: Option<string>)
    requires f.job in t.jobs
    ensures SentOut(t, f, alias).drafts == if f.draft.Some? then t.drafts - {f.draft.value} else t.drafts
  {
  }

  lemma FailedDrafts(t: Tables, f: Flight, permanent: bool, newDraft: string)
    requires f.job in t.jobs
    ensures var job := t.jobs[f.job];
      FailedOut(t, f, permanent, newDraft).drafts ==
        if && (permanent || f.retryCount + 1 >= 5)
           && job.draft.None? && job.email.Some? && job.email.value in t.emails
        then t.drafts[newDraft := GivenBack(t.emails[job.email.value])] else t.drafts
  {
  }

  lemma ReconcileDrafts(t: Tables, a: Action, d: string)
    requires RefsOk(t) && Fresh(t, a) && a.Reconcile?
    ensures DraftIs(Next(t, a), d, if d in t.drafts then DraftAfter(t, a, d) else DraftMade(t, a, d))
  {
    var js := JobsOfEmail(t, a.email);
    NewestIsOneOf(t, js);
    forall j | j in t.jobs && t.jobs[j].email == Some(a.email)
      ensures Newest(t, js) == Some(j)
    {
      JobOfEmail(t, a.email, j);
    }
  }

  lemma OwnerDrafts(t: Tables, a: Action, d: string)
    requires Fresh(t, a) && (a.SaveDraft? || a.DropDraft?)
    ensures DraftIs(Next(t, a), d, if d in t.drafts then DraftAfter(t, a, d) else DraftMade(t, a, d))
  {
  }

  lemma WorkerKeepsDrafts(t: Tables, a: Action)
    requires a.Claim? || a.Refuse? || a.RecoverStale? || a.Release? || a.Inbound? || a.Bounce?
    ensures Next(t, a).drafts == t.drafts
  {
    match a
    case Claim(_, _) =>
    case Refuse(_) =>
    case RecoverStale(_) =>
    case Release(_) =>
    case _ =>
  }

  // --- threads ---

  /** A step takes an email out. */
  ghost predicate TakesOut(t: Tables, a: Action, e: string) {
    e in t.emails && EmailAfter(t, a, e).None?
  }

  /** The labels a mail that went out puts on its thread. */
  function Stamps(t: Tables, a: Action, th: string): set<Label> {
    if && a.Finish? && a.outcome.Sent? && a.flight in t.flights && t.flights[a.flight].job in t.jobs
       && t.flights[a.flight].thread == Some(th)
    then {Label.Sent} + (if a.outcome.alias.Some? then {Alias(a.outcome.alias.value)} else {})
    else {}
  }

  /** The step takes the last email of a thread out. */
  ghost predicate Empties(t: Tables, a: Action, th: string) {
    !HasEmail(Next(t, a), th) && exists e :: TakesOut(t, a, e) && t.emails[e].thread == th
  }

  ghost predicate NamedByDraft(t: Tables, th: string) {
    exists d :: d in t.drafts && t.drafts[d].thread == Some(th)
  }

  ghost predicate ThreadIs(t: Tables, a: Action, th: string)
    requires th in t.threads
  {
    var r := Next(t, a);
    if !Empties(t, a, th) then th in r.threads && r.threads[th] == t.threads[th] + Stamps(t, a, th)
    else if NamedByDraft(r, th) then th in r.threads && r.threads[th] == {}
    else th !in r.threads
  }

  /** What a step makes of a thread: a mail that went out marks it as sent and stamps it with its alias; a step that
      takes its last email out clears its labels, and it goes unless a draft names it. Nothing else touches it. */
  lemma ThreadRows(t: Tables, a: Action, th: string)
    requires RefsOk(t) && Fresh(t, a) && th in t.threads
    ensures ThreadIs(t, a, th)
  {
    match a
    case SendDirect(_, _, _, _) => DirectThreads(t, a, th);
    case SendDraft(_, _, _, _, _) => DraftThreads(t, a, th);
    case CancelSend(_, _, _) => UndoThreads(t, a, th);
    case CancelSchedule(_, _) => UnscheduleThreads(t, a, th);
    case Finish(_, _) => FinishThreads(t, a, th);
    case Retry(_, _, _) => RetryThreads(t, a, th);
    case _ => OthersKeepThreads(t, a, th);
  }

  lemma TakesNoneOut(t: Tables, a: Action, th: string)
    requires !a.CancelSend? && !a.CancelSchedule?
    ensures !Empties(t, a, th)
  {
    forall e | e in t.emails
      ensures !TakesOut(t, a, e)
    {
    }
  }

  /** A step that takes no email out and leaves a thread's labels. */
  lemma KeptThread(t: Tables, a: Action, th: string)
    requires th in t.threads && !a.Finish? && !a.CancelSend? && !a.CancelSchedule?
    requires th in Next(t, a).threads && Next(t, a).threads[th] == t.threads[th]
    ensures ThreadIs(t, a, th)
  {
    TakesNoneOut(t, a, th);
  }

  lemma DirectThreads(t: Tables, a: Action, th: string)
    requires Fresh(t, a) && th in t.threads && a.SendDirect?
    ensures ThreadIs(t, a, th)
  {
    DirectHands(t, a.user, a.replyTo, a.content, a.ids);
    KeptThread(t, a, th);
  }

  lemma DraftThreads(t: Tables, a: Action, th: string)
    requires Fresh(t, a) && th in t.threads && a.SendDraft?
    ensures ThreadIs(t, a, th)
  {
    DraftHands(t, a.user, a.draft, a.scheduledAt, a.now, a.ids);
    KeptThread(t, a, th);
  }

  lemma LabelsStay(t: Tables, a: Action, th: string)
    requires Fresh(t, a) && th in t.threads
    requires a.Claim? || a.Refuse? || a.RecoverStale? || a.Release? || a.Reconcile?
          || a.Inbound? || a.Bounce? || a.SaveDraft? || a.DropDraft?
    ensures th in Next(t, a).threads && Next(t, a).threads[th] == t.threads[th]
  {
    match a
    case Claim(_, _) =>
    case Refuse(_) =>
    case RecoverStale(_) =>
    case Release(_) =>
    case _ =>
  }

  lemma OthersKeepThreads(t: Tables, a: Action, th: string)
    requires Fresh(t, a) && th in t.threads
    requires a.Claim? || a.Refuse? || a.RecoverStale? || a.Release? || a.Reconcile?
          || a.Inbound? || a.Bounce? || a.SaveDraft? || a.DropDraft?
    ensures ThreadIs(t, a, th)
  {
    LabelsStay(t, a, th);
    KeptThread(t, a, th);
  }

  lemma RetryThreads(t: Tables, a: Action, th: string)
    requires th in t.threads && a.Retry?
    ensures ThreadIs(t, a, th)
  {
    NewestIsOneOf(t, JobsOfEmail(t, a.email));
    KeptThread(t, a, th);
  }

  lemma FinishThreads(t: Tables, a: Action, th: string)
    requires th in t.threads && a.Finish?
    ensures ThreadIs(t, a, th)
  {
    TakesNoneOut(t, a, th);
    if a.flight in t.flights && t.flights[a.flight].job in t.jobs {
      var f, landed := t.flights[a.flight], t.(flights := t.flights - {a.flight});
      match a.outcome
      case Sent(alias) => SentThreads(landed, f, alias, th);
      case Failed(permanent, newDraft) => FailedThreads(landed, f, permanent, newDraft);
      case Panicked =>
    }
  }

  lemma SentThreads(t: Tables, f: Flight, alias: Option<string>, th: string)
    requires f.job in t.jobs && th in t.threads
    ensures var r := SentOut(t, f, alias);
      && th in r.threads
      && r.threads[th] == t.threads[th]
           + if f.thread == Some(th) then {Label.Sent} + (if alias.Some? then {Alias(alias.value)} else {}) else {}
  {
  }

  lemma FailedThreads(t: Tables, f: Flight, permanent: bool, newDraft: string)
    requires f.job in t.jobs
    ensures FailedOut(t, f, permanent, newDraft).threads == t.threads
  {
  }

  /** An emptied thread: no email is left in it, so no job names it either. */
  lemma EmptyThreadIs(t: Tables, th: string)
    requires RefsOk(t) && th in t.threads
    ensures var r := WithoutEmptyThread(t, th);
      && r == t.(threads := r.threads)
      && r.threads == if HasEmail(t, th) then t.threads
                      else if NamedByDraft(t, th) then t.threads[th := {}] else t.threads - {th}
  {
    if !HasEmail(t, th) {
      forall j | j in t.jobs
        ensures t.jobs[j].thread != Some(th)
      {
        assert JobOk(t, t.jobs[j]);
      }
      assert t.threads[th := {}] - {th} == t.threads - {th};
    }
  }

  /** A thread after one email was taken out of thread `cleared`. */
  ghost predicate Cleared(t: Tables, r: Tables, th: string, cleared: string)
    requires th in t.threads
  {
    if th != cleared || HasEmail(r, th) then th in r.threads && r.threads[th] == t.threads[th]
    else if NamedByDraft(r, th) then th in r.threads && r.threads[th] == {}
    else th !in r.threads
  }

  lemma RemovalLeaves(t: Tables, r: Tables, th: string, cleared: string, left: Tables)
    requires th in t.threads && cleared in t.threads && RefsOk(left) && left.threads == t.threads
    requires r.threads == WithoutEmptyThread(left, cleared).threads && r.emails == left.emails
    requires NamedByDraft(r, th) <==> NamedByDraft(left, th)
    ensures Cleared(t, r, th, cleared)
  {
    EmptyThreadIs(left, cleared);
    assert HasEmail(r, th) <==> HasEmail(left, th);
  }

  /** A step that takes one email out, and clears its thread if that was the last. */
  lemma RemovalClears(t: Tables, a: Action, th: string, e: string)
    requires th in t.threads && e in t.emails && !a.Finish?
    requires Cleared(t, Next(t, a), th, t.emails[e].thread)
    requires forall k :: TakesOut(t, a, k) <==> k == e
    ensures ThreadIs(t, a, th)
  {
    EmptiesIff(t, a, th, e);
    assert t.threads[th] + Stamps(t, a, th) == t.threads[th];
  }

  lemma EmptiesIff(t: Tables, a: Action, th: string, e: string)
    requires e in t.emails && forall k :: TakesOut(t, a, k) <==> k == e
    ensures Empties(t, a, th) <==> t.emails[e].thread == th && !HasEmail(Next(t, a), th)
  {
    assert TakesOut(t, a, e);
  }

  lemma UndoThreads(t: Tables, a: Action, th: string)
    requires RefsOk(t) && Fresh(t, a) && th in t.threads && a.CancelSend?
    ensures ThreadIs(t, a, th)
  {
    var j := Newest(t, JobsOfEmail(t, a.email));
    NewestIsOneOf(t, JobsOfEmail(t, a.email));
    forall k
      ensures MayUndo(t, a.user, a.email, k) <==> CancelSendReply(t, a.user, a.email) == Accepted && j == Some(k)
    {
      UndoIff(t, a.user, a.email, k);
    }
    if CancelSendReply(t, a.user, a.email) == Accepted {
      var left := UndoLeaves(t, a.email, j.value, a.newDraft);
      EmptyThreadIs(left, t.emails[a.email].thread);
      RemovalLeaves(t, Next(t, a), th, t.emails[a.email].thread, left);
      RemovalClears(t, a, th, a.email);
    }
  }

  lemma UnscheduleThreads(t: Tables, a: Action, th: string)
    requires RefsOk(t) && th in t.threads && a.CancelSchedule?
    ensures ThreadIs(t, a, th)
  {
    var j := Newest(t, ScheduledJobsOf(t, a.draft));
    NewestIsOneOf(t, ScheduledJobsOf(t, a.draft));
    forall k
      ensures MayUnschedule(t, a.user, a.draft, k)
              <==> CancelScheduleReply(t, a.user, a.draft) == Accepted && j == Some(k)
    {
      UnscheduleIff(t, a.user, a.draft, k);
    }
    if CancelScheduleReply(t, a.user, a.draft) == Accepted {
      assert JobOk(t, t.jobs[j.value]);
      match t.jobs[j.value].email
      case None => assert Next(t, a).threads == t.threads;
      case Some(e) => UnscheduleClears(t, a, th, e, j.value);
    }
  }

  lemma UnscheduleClears(t: Tables, a: Action, th: string, e: string, j: string)
    requires RefsOk(t) && th in t.threads && a.CancelSchedule? && a.draft in t.drafts
    requires j in t.jobs && t.jobs[j].email == Some(e) && e in t.emails && Next(t, a) == Unscheduled(t, a.draft, j)
    requires forall k :: TakesOut(t, a, k) <==> k == e
    ensures ThreadIs(t, a, th)
  {
    var left := WithoutEmail(WithJobStatus(t, j, Cancelled), e);
    WithoutEmailIs(t, j, e);
    WithoutEmailKeepsRefs(t, j, e);
    EmptyThreadIs(left, t.emails[e].thread);
    forall k
      ensures NamedByDraft(Next(t, a), k) <==> NamedByDraft(left, k)
    {
      assert Next(t, a).drafts == t.drafts[a.draft := t.drafts[a.draft].(scheduledAt := None)];
      if d :| d in t.drafts && t.drafts[d].thread == Some(k) { assert Next(t, a).drafts[d].thread == Some(k); }
    }
    RemovalLeaves(t, Next(t, a), th, t.emails[e].thread, left);
    RemovalClears(t, a, th, e);
  }

  // --- mail ---

  /** An incoming mail joins the thread it was found to belong to, or starts one in the inbox; for a thread that is gone
      it changes nothing. */
  lemma MailArrives(t: Tables, found: Option<string>, content: string, ids: NewIds)
    ensures var r := Next(t, Inbound(found, content, ids));
      if found.Some? && found.value !in t.threads then r == t
      else
        var th := if found.Some? then found.value else ids.thread;
        r == t.(threads := if found.Some? then t.threads else t.threads[th := {Inbox}],
                emails := t.emails[ids.email := EmailRow(th, "", false, Received, content)])
  {
  }
}
