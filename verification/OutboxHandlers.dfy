/** The send, retry and undo handlers as the server runs them: one statement on the tables after another. Each
    is proved against the functions of `Outbox`, and keeps the reference invariant. */
module OutboxHandlers {
  import opened Wrappers
  import opened Labels
  import opened Outbox
  import opened OutboxRefs

  /** The query for the newest of some jobs. */
  method LatestJob(t: Tables, js: set<string>) returns (latest: Option<string>)
    requires RefsOk(t) && js <= t.jobs.Keys
    ensures latest == Newest(t, js)
  {
    latest := None;
    var rest := js;
    while rest != {}
      invariant rest <= js
      invariant latest.None? ==> rest == js
      invariant latest.Some? ==> latest.value in js - rest
      invariant forall k :: latest.Some? && k in js - rest ==> t.jobs[k].created <= t.jobs[latest.value].created
      decreases |rest|
    {
      var k :| k in rest;
      if latest.None? || t.jobs[latest.value].created <= t.jobs[k].created { latest := Some(k); }
      rest := rest - {k};
    }
    if latest.Some? {
      assert IsNewest(t, js, latest.value);
      NewestIs(t, js, latest.value);
    } else {
      NewestOfNone(t);
    }
  }

  class OutboxHandler {
    var threads: map<string, set<Label>>
    var emails: map<string, EmailRow>
    var jobs: map<string, JobRow>
    var drafts: map<string, DraftRow>
    var flights: map<string, Flight>

    function Value(): Tables
      reads this
    {
      Tables(threads, emails, jobs, drafts, flights)
    }

    ghost predicate Valid()
      reads this
    {
      RefsOk(Value())
    }

    constructor ()
      ensures Valid() && Value() == Tables(map[], map[], map[], map[], map[])
    {
      threads, emails, jobs, drafts, flights := map[], map[], map[], map[], map[];
    }

    // --- send ---

    /** The transaction of a send: the thread, unless it replies into one, then the email and its job. */
    method InsertSend(user: string, thread: Option<string>, content: string, status: EmailStatus,
                      draft: Option<string>, ids: NewIds)
      modifies this
      ensures Value() == Insert(old(Value()), user, thread, content, status, draft, None, ids)
    {
      var threadID;
      if thread.Some? {
        threadID := thread.value;
      } else {
        threadID := ids.thread;
        threads := threads[threadID := {}];
        assert threads[threadID] + {Label.Sent} == {Label.Sent};
        threads := threads[threadID := threads[threadID] + {Label.Sent}];
        assert threads == old(threads)[threadID := {Label.Sent}];
      }
      emails := emails[ids.email := EmailRow(threadID, user, true, status, content)];
      jobs := jobs[ids.job := JobRow(Pending, Some(ids.email), Some(threadID), draft, None, 0, |jobs|)];
    }

    method SendEmail(user: string, replyTo: Option<string>, content: string, ids: NewIds) returns (reply: Reply)
      requires Valid() && FreshIds(Value(), ids)
      modifies this
      ensures Valid()
      ensures reply == SendDirectReply(old(Value()), replyTo)
      ensures Value() == Next(old(Value()), SendDirect(user, replyTo, content, ids))
    {
      StepKeepsRefs(Value(), SendDirect(user, replyTo, content, ids));
      if replyTo.Some? && replyTo.value !in threads { return NotFound; }
      InsertSend(user, replyTo, content, Queued, None, ids);
      return Accepted;
    }

    /** The transaction of a draft's send. The draft stays until the worker has sent it. */
    method InsertDraftSend(user: string, draft: string, scheduledAt: Option<int>, ids: NewIds)
      requires draft in drafts
      modifies this
      ensures Value() == AfterSendDraft(old(Value()), user, draft, scheduledAt, ids)
    {
      var d := drafts[draft];
      var status := Queued;
      if scheduledAt.Some? { status := EmailStatus.Scheduled; }
      InsertSend(user, d.thread, d.content, status, Some(draft), ids);
      if scheduledAt.Some? {
        jobs := jobs[ids.job := jobs[ids.job].(runAfter := scheduledAt)];
        drafts := drafts[draft := d.(scheduledAt := scheduledAt)];
        assert jobs == old(jobs)[ids.job := jobs[ids.job]];
      }
    }

    method SendDraftNow(user: string, draft: string, scheduledAt: Option<int>, now: int, ids: NewIds)
      returns (reply: Reply)
      requires Valid() && FreshIds(Value(), ids)
      modifies this
      ensures Valid()
      ensures reply == SendDraftReply(old(Value()), user, draft, scheduledAt, now)
      ensures Value() == Next(old(Value()), SendDraft(user, draft, scheduledAt, now, ids))
    {
      StepKeepsRefs(Value(), SendDraft(user, draft, scheduledAt, now, ids));
      if scheduledAt.Some? {
        if scheduledAt.value < now + MINUTE { return BadRequest; }
        if scheduledAt.value > now + 30 * DAY { return BadRequest; }
      }
      if SendingDraft(Value(), draft) { return Conflict; }
      if draft !in drafts || drafts[draft].user != user { return NotFound; }
      if drafts[draft].thread.Some? && drafts[draft].thread.value !in threads { return NotFound; }
      InsertDraftSend(user, draft, scheduledAt, ids);
      return Accepted;
    }

    // --- retry ---

    method RetryEmail(user: string, admin: bool, email: string) returns (reply: Reply)
      requires Valid()
      modifies this
      ensures Valid()
      ensures reply == RetryReply(old(Value()), user, admin, email)
      ensures Value() == Next(old(Value()), Retry(user, admin, email))
    {
      StepKeepsRefs(Value(), Retry(user, admin, email));
      if email !in emails { return NotFound; }
      var row := emails[email];
      if !row.outbound { return BadRequest; }
      if row.user != user && !admin { return Forbidden; }
      if row.status != EmailFailed && row.status != Bounced && row.status != Queued { return Conflict; }
      var job := LatestJob(Value(), JobsOfEmail(Value(), email));
      if job.None? { return Conflict; }
      NewestIsOneOf(Value(), JobsOfEmail(Value(), email));
      jobs := jobs[job.value := jobs[job.value].(status := Pending, retryCount := 0)];
      emails := emails[email := row.(status := Queued)];
      return Accepted;
    }

    // --- undo ---

    /** Rebuilds a draft from a queued email: one more draft, in a thread that exists, which sends the same content
        for the same user into the same thread. No other draft changes. */
    method CreateDraftFromEmail(email: string, newDraft: string)
      requires email in emails && newDraft !in drafts && EmailsOk(Value()) && DraftsOk(Value())
      modifies `drafts
      ensures EmailsOk(Value()) && DraftsOk(Value())
      ensures drafts.Keys == old(drafts.Keys) + {newDraft}
      ensures forall d :: d in old(drafts) ==> drafts[d] == old(drafts)[d]
      ensures drafts[newDraft] == RecoveryDraft(emails[email]) && drafts[newDraft].thread.value in threads
    {
      var e := emails[email];
      drafts := drafts[newDraft := DraftRow(e.user, Some(e.thread), None, e.content)];
    }

    /** Clears the references of the email's jobs, so that the delete passes the foreign keys, and deletes it. */
    method RemoveEmail(email: string)
      modifies `jobs, `emails
      ensures Value() == WithoutEmail(old(Value()), email)
    {
      jobs := map j | j in jobs ::
        if jobs[j].email == Some(email) then jobs[j].(email := None, thread := None) else jobs[j];
      emails := emails - {email};
    }

    /** Drops a thread with no email left. The labels go first; a foreign key can still hold the row. */
    method DropEmptyThread(thread: string)
      modifies `threads
      ensures Value() == WithoutEmptyThread(old(Value()), thread)
    {
      if HasEmail(Value(), thread) { return; }
      if thread in threads { threads := threads[thread := {}]; }
      if Referenced(Value(), thread) { return; }
      threads := threads - {thread};
    }

    /** What happens behind the undo gate: cancel the job, give a draft back, remove the email and its thread. */
    method UndoSend(email: string, job: string, draftID: Option<string>, threadID: string, newDraft: string)
      requires email in emails && job in jobs && draftID == jobs[job].draft && threadID == emails[email].thread
      requires newDraft !in drafts && EmailsOk(Value()) && DraftsOk(Value())
      modifies this
      ensures Value() == Undone(old(Value()), email, job, newDraft)
    {
      jobs := jobs[job := jobs[job].(status := Cancelled)];
      if draftID.None? {
        CreateDraftFromEmail(email, newDraft);
        assert drafts == old(drafts)[newDraft := RecoveryDraft(emails[email])];
      }
      RemoveEmail(email);
      DropEmptyThread(threadID);
    }

    method CancelSendOf(user: string, email: string, newDraft: string) returns (reply: Reply)
      requires Valid() && newDraft !in drafts
      modifies this
      ensures Valid()
      ensures reply == CancelSendReply(old(Value()), user, email)
      ensures Value() == Next(old(Value()), CancelSend(user, email, newDraft))
    {
      StepKeepsRefs(Value(), CancelSend(user, email, newDraft));
      if email !in emails || !emails[email].outbound { return Conflict; }
      if emails[email].status != Queued && emails[email].status != EmailStatus.Scheduled { return Conflict; }
      if emails[email].user != user { return Forbidden; }
      var threadID := emails[email].thread;
      var job := LatestJob(Value(), JobsOfEmail(Value(), email));
      if job.None? { return Conflict; }
      NewestIsOneOf(Value(), JobsOfEmail(Value(), email));
      var draftID := jobs[job.value].draft;
      if jobs[job.value].status != Pending { return Conflict; }
      UndoSend(email, job.value, draftID, threadID, newDraft);
      return Accepted;
    }

    method CancelScheduleOf(user: string, draft: string) returns (reply: Reply)
      requires Valid()
      modifies this
      ensures Valid()
      ensures reply == CancelScheduleReply(old(Value()), user, draft)
      ensures Value() == Next(old(Value()), CancelSchedule(user, draft))
    {
      StepKeepsRefs(Value(), CancelSchedule(user, draft));
      if draft !in drafts || drafts[draft].user != user { return NotFound; }
      var job := LatestJob(Value(), ScheduledJobsOf(Value(), draft));
      if job.None? { return Conflict; }
      NewestIsOneOf(Value(), ScheduledJobsOf(Value(), draft));
      var emailID := jobs[job.value].email;
      jobs := jobs[job.value := jobs[job.value].(status := Cancelled)];
      if emailID.Some? {
        var threadID := None;
        if emailID.value in emails { threadID := Some(emails[emailID.value].thread); }
        RemoveEmail(emailID.value);
        if threadID.Some? { DropEmptyThread(threadID.value); }
      }
      drafts := drafts[draft := drafts[draft].(scheduledAt := None)];
      return Accepted;
    }
  }
}
