/** What every step of the outbox keeps: no row names a row that is gone, and a cancelled job is out of reach. */
module OutboxRefs {
  import opened Wrappers
  import opened Labels
  import opened Outbox

  ghost predicate EmailsOk(t: Tables) {
    forall e :: e in t.emails ==> t.emails[e].thread in t.threads
  }

  /** A job names its email and that email's thread, or neither. */
  ghost predicate JobsOk(t: Tables) {
    forall j :: j in t.jobs ==> JobOk(t, t.jobs[j])
  }

  predicate JobOk(t: Tables, j: JobRow) {
    match j.email
    case Some(e) => e in t.emails && j.thread == Some(t.emails[e].thread) && j.status != Cancelled
    case None => j.thread == None
  }

  ghost predicate DraftsOk(t: Tables) {
    forall d :: d in t.drafts && t.drafts[d].thread.Some? ==> t.drafts[d].thread.value in t.threads
  }

  predicate Clash(a: JobRow, b: JobRow) {
    (a.email.Some? && a.email == b.email) || a.created == b.created
  }

  /** No two jobs send one email, and jobs are numbered in the order of their creation. */
  ghost predicate JobsDistinct(t: Tables) {
    && (forall j, k {:trigger Clash(t.jobs[j], t.jobs[k])} ::
          j in t.jobs && k in t.jobs && Clash(t.jobs[j], t.jobs[k]) ==> j == k)
    && (forall j :: j in t.jobs ==> t.jobs[j].created < |t.jobs|)
  }

  ghost predicate RefsOk(t: Tables) {
    EmailsOk(t) && JobsOk(t) && DraftsOk(t) && JobsDistinct(t)
  }

  // --- the newest job ---

  lemma NewestOfOne(t: Tables, js: set<string>, j: string)
    requires js == {j} && j in t.jobs
    ensures Newest(t, js) == Some(j)
  {
    assert IsNewest(t, js, j);
  }

  lemma NewestIs(t: Tables, js: set<string>, j: string)
    requires JobsDistinct(t) && IsNewest(t, js, j)
    ensures Newest(t, js) == Some(j)
  {
    var k := Newest(t, js).value;
    assert IsNewest(t, js, k);
    assert Clash(t.jobs[j], t.jobs[k]);
  }

  lemma NewestOfNone(t: Tables)
    ensures Newest(t, {}) == None
  {
  }

  lemma NewestIsOneOf(t: Tables, js: set<string>)
    ensures Newest(t, js).Some? ==> Newest(t, js).value in js && Newest(t, js).value in t.jobs
  {
    if Newest(t, js).Some? { assert IsNewest(t, js, Newest(t, js).value); }
  }

  /** The one job of an email. */
  lemma JobOfEmail(t: Tables, e: string, j: string)
    requires RefsOk(t) && j in t.jobs && t.jobs[j].email == Some(e)
    ensures Newest(t, JobsOfEmail(t, e)) == Some(j)
  {
    forall k | k in JobsOfEmail(t, e)
      ensures k == j
    {
      assert Clash(t.jobs[j], t.jobs[k]);
    }
    assert JobsOfEmail(t, e) == {j};
    NewestOfOne(t, JobsOfEmail(t, e), j);
  }

  // --- steps that change no reference ---

  ghost predicate SameRefs(a: Tables, b: Tables) {
    && a.threads.Keys == b.threads.Keys
    && a.emails.Keys == b.emails.Keys
    && a.jobs.Keys == b.jobs.Keys
    && (forall e :: e in a.emails ==> a.emails[e].thread == b.emails[e].thread)
    && (forall j :: j in a.jobs ==>
          && a.jobs[j].email == b.jobs[j].email && a.jobs[j].thread == b.jobs[j].thread
          && a.jobs[j].created == b.jobs[j].created
          && (b.jobs[j].status == Cancelled ==> a.jobs[j].status == Cancelled))
  }

  lemma SameRefsKeepRefs(a: Tables, b: Tables)
    requires RefsOk(a) && SameRefs(a, b) && DraftsOk(b)
    ensures RefsOk(b)
  {
    RowsStayDistinct(a, b);
    forall j | j in b.jobs
      ensures JobOk(b, b.jobs[j])
    {
      assert JobOk(a, a.jobs[j]);
    }
  }

  // --- insert, undo ---

  lemma InsertKeepsRefs(t: Tables, user: string, thread: Option<string>, content: string, status: EmailStatus,
                        draft: Option<string>, runAfter: Option<int>, ids: NewIds)
    requires RefsOk(t) && FreshIds(t, ids) && (thread.Some? ==> thread.value in t.threads)
    ensures RefsOk(Insert(t, user, thread, content, status, draft, runAfter, ids))
  {
    var r := Insert(t, user, thread, content, status, draft, runAfter, ids);
    assert |r.jobs| == |t.jobs| + 1;
    forall j | j in r.jobs
      ensures JobOk(r, r.jobs[j])
    {
      if j != ids.job { assert JobOk(t, t.jobs[j]); }
    }
    forall j, k | j in r.jobs && k in r.jobs && Clash(r.jobs[j], r.jobs[k])
      ensures j == k
    {
      if j != ids.job { assert JobOk(t, t.jobs[j]); }
      if k != ids.job { assert JobOk(t, t.jobs[k]); }
      if j != ids.job && k != ids.job { assert Clash(t.jobs[j], t.jobs[k]); }
    }
  }

  function Detached(row: JobRow): JobRow {
    row.(status := Cancelled, email := None, thread := None)
  }

  /** Cancelling a job and removing its email touches that job and that email only. */
  lemma WithoutEmailIs(t: Tables, j: string, e: string)
    requires RefsOk(t) && j in t.jobs && t.jobs[j].email == Some(e)
    ensures WithoutEmail(WithJobStatus(t, j, Cancelled), e)
         == t.(jobs := t.jobs[j := Detached(t.jobs[j])], emails := t.emails - {e})
  {
    forall k | k in t.jobs && k != j
      ensures t.jobs[k].email != Some(e)
    {
      assert !Clash(t.jobs[j], t.jobs[k]);
    }
    assert WithoutEmail(WithJobStatus(t, j, Cancelled), e).jobs == t.jobs[j := Detached(t.jobs[j])];
  }

  lemma DetachKeepsJobs(t: Tables, r: Tables, j: string, e: string)
    requires JobsOk(t) && JobsDistinct(t) && j in t.jobs && t.jobs[j].email == Some(e)
    requires r == t.(jobs := t.jobs[j := Detached(t.jobs[j])], emails := t.emails - {e})
    ensures JobsOk(r)
  {
    forall k | k in r.jobs
      ensures JobOk(r, r.jobs[k])
    {
      assert JobOk(t, t.jobs[k]);
      if k != j { assert !Clash(t.jobs[j], t.jobs[k]); }
    }
  }

  /** Rewriting rows with no new email and the old numbers keeps jobs distinct. */
  lemma RowsStayDistinct(t: Tables, r: Tables)
    requires JobsDistinct(t) && r.jobs.Keys == t.jobs.Keys
    requires forall j :: j in t.jobs ==>
      r.jobs[j].created == t.jobs[j].created && (r.jobs[j].email.Some? ==> r.jobs[j].email == t.jobs[j].email)
    ensures JobsDistinct(r)
  {
    assert |r.jobs| == |r.jobs.Keys| == |t.jobs|;
    forall j, k | j in r.jobs && k in r.jobs && Clash(r.jobs[j], r.jobs[k])
      ensures j == k
    {
      assert Clash(t.jobs[j], t.jobs[k]);
    }
  }

  lemma WithoutEmailKeepsRefs(t: Tables, j: string, e: string)
    requires RefsOk(t) && j in t.jobs && t.jobs[j].email == Some(e)
    ensures RefsOk(WithoutEmail(WithJobStatus(t, j, Cancelled), e))
  {
    var r := WithoutEmail(WithJobStatus(t, j, Cancelled), e);
    WithoutEmailIs(t, j, e);
    DetachKeepsJobs(t, r, j, e);
    RowsStayDistinct(t, r);
  }

  lemma WithoutEmptyThreadIs(t: Tables, th: string)
    ensures var r := WithoutEmptyThread(t, th);
      && r == t.(threads := r.threads)
      && (forall k :: k != th ==> (k in r.threads <==> k in t.threads))
      && (th in t.threads && th !in r.threads ==> !HasEmail(t, th) && !Referenced(t, th))
  {
  }

  lemma WithoutEmptyThreadKeepsRefs(t: Tables, th: string)
    requires RefsOk(t)
    ensures RefsOk(WithoutEmptyThread(t, th))
  {
    WithoutEmptyThreadIs(t, th);
    ThreadsKeepRefs(t, WithoutEmptyThread(t, th).threads, th);
  }

  lemma ThreadsKeepRefs(t: Tables, threads: map<string, set<Label>>, th: string)
    requires RefsOk(t) && forall k :: k != th ==> (k in threads <==> k in t.threads)
    requires th in t.threads && th !in threads ==> !HasEmail(t, th) && !Referenced(t, th)
    ensures RefsOk(t.(threads := threads))
  {
    var r := t.(threads := threads);
    forall j | j in r.jobs
      ensures JobOk(r, r.jobs[j])
    {
      assert JobOk(t, t.jobs[j]);
    }
  }

  lemma AddDraftKeepsRefs(t: Tables, d: string, row: DraftRow)
    requires RefsOk(t) && (row.thread.Some? ==> row.thread.value in t.threads)
    ensures RefsOk(t.(drafts := t.drafts[d := row]))
  {
    var r := t.(drafts := t.drafts[d := row]);
    assert forall j :: j in t.jobs ==> JobOk(t, t.jobs[j]) && JobOk(r, r.jobs[j]);
  }

  /** An undo, step by step: the draft it gives back, the job and the email, then the thread. */
  lemma UndoneSteps(t: Tables, e: string, j: string, newDraft: string)
    requires RefsOk(t) && e in t.emails && j in t.jobs && t.jobs[j].email == Some(e)
    ensures var th := t.emails[e].thread;
      var kept := if t.jobs[j].draft.Some? then t
                  else t.(drafts := t.drafts[newDraft := RecoveryDraft(t.emails[e])]);
      && RefsOk(kept)
      && Undone(t, e, j, newDraft) == WithoutEmptyThread(WithoutEmail(WithJobStatus(kept, j, Cancelled), e), th)
  {
    AddDraftKeepsRefs(t, newDraft, RecoveryDraft(t.emails[e]));
  }

  lemma UndoneKeepsRefs(t: Tables, e: string, j: string, newDraft: string)
    requires RefsOk(t) && e in t.emails && j in t.jobs && t.jobs[j].email == Some(e)
    ensures RefsOk(Undone(t, e, j, newDraft))
    ensures Undone(t, e, j, newDraft).emails == t.emails - {e}
    ensures Undone(t, e, j, newDraft).jobs == t.jobs[j := Detached(t.jobs[j])]
  {
    UndoneSteps(t, e, j, newDraft);
    var kept := if t.jobs[j].draft.Some? then t else t.(drafts := t.drafts[newDraft := RecoveryDraft(t.emails[e])]);
    WithoutEmailIs(kept, j, e);
    WithoutEmailKeepsRefs(kept, j, e);
    WithoutEmptyThreadIs(WithoutEmail(WithJobStatus(kept, j, Cancelled), e), t.emails[e].thread);
    WithoutEmptyThreadKeepsRefs(WithoutEmail(WithJobStatus(kept, j, Cancelled), e), t.emails[e].thread);
  }

  lemma UnscheduledKeepsRefs(t: Tables, draft: string, j: string)
    requires RefsOk(t) && draft in t.drafts && j in t.jobs
    ensures RefsOk(Unscheduled(t, draft, j))
    ensures Unscheduled(t, draft, j).jobs == t.jobs[j := Detached(t.jobs[j])]
  {
    assert JobOk(t, t.jobs[j]);
    match t.jobs[j].email
    case None => CancelOrphanKeepsRefs(t, draft, j);
    case Some(e) => UnscheduledWithEmail(t, draft, j, e);
  }

  lemma UnscheduledWithEmail(t: Tables, draft: string, j: string, e: string)
    requires RefsOk(t) && draft in t.drafts && j in t.jobs && t.jobs[j].email == Some(e) && e in t.emails
    ensures RefsOk(Unscheduled(t, draft, j))
    ensures Unscheduled(t, draft, j).jobs == t.jobs[j := Detached(t.jobs[j])]
  {
    var removed := WithoutEmail(WithJobStatus(t, j, Cancelled), e);
    var th := t.emails[e].thread;
    WithoutEmailIs(t, j, e);
    WithoutEmailKeepsRefs(t, j, e);
    WithoutEmptyThreadIs(removed, th);
    WithoutEmptyThreadKeepsRefs(removed, th);
    AddDraftKeepsRefs(WithoutEmptyThread(removed, th), draft, t.drafts[draft].(scheduledAt := None));
  }

  /** A pending job whose email is gone: only an undo overtaken by the worker leaves one. */
  lemma CancelOrphanKeepsRefs(t: Tables, draft: string, j: string)
    requires RefsOk(t) && draft in t.drafts && j in t.jobs && t.jobs[j].email == None && t.jobs[j].thread == None
    ensures RefsOk(Unscheduled(t, draft, j))
    ensures Unscheduled(t, draft, j).jobs == t.jobs[j := Detached(t.jobs[j])]
  {
    var gated := WithJobStatus(t, j, Cancelled);
    RowsStayDistinct(t, gated);
    forall k | k in t.jobs
      ensures JobOk(gated, gated.jobs[k])
    {
      assert JobOk(t, t.jobs[k]);
    }
    AddDraftKeepsRefs(gated, draft, t.drafts[draft].(scheduledAt := None));
  }

  // --- every step ---

  lemma SendDirectKeepsRefs(t: Tables, a: Action)
    requires RefsOk(t) && Fresh(t, a) && a.SendDirect?
    ensures RefsOk(Next(t, a))
  {
    if SendDirectReply(t, a.replyTo) == Accepted {
      InsertKeepsRefs(t, a.user, a.replyTo, a.content, Queued, None, None, a.ids);
    }
  }

  lemma SendDraftKeepsRefs(t: Tables, a: Action)
    requires RefsOk(t) && Fresh(t, a) && a.SendDraft?
    ensures RefsOk(Next(t, a))
  {
    if SendDraftReply(t, a.user, a.draft, a.scheduledAt, a.now) == Accepted {
      var d := t.drafts[a.draft];
      var status := if a.scheduledAt.Some? then EmailStatus.Scheduled else Queued;
      InsertKeepsRefs(t, a.user, d.thread, d.content, status, Some(a.draft), a.scheduledAt, a.ids);
      AddDraftKeepsRefs(Insert(t, a.user, d.thread, d.content, status, Some(a.draft), a.scheduledAt, a.ids),
                        a.draft, d.(scheduledAt := a.scheduledAt));
    }
  }

  lemma InboundKeepsRefs(t: Tables, a: Action)
    requires RefsOk(t) && Fresh(t, a) && a.Inbound?
    ensures RefsOk(Next(t, a))
  {
    assert forall j :: j in t.jobs ==> JobOk(t, t.jobs[j]) && JobOk(Next(t, a), t.jobs[j]);
  }

  lemma CancelKeepsRefs(t: Tables, a: Action)
    requires RefsOk(t) && Fresh(t, a) && (a.CancelSend? || a.CancelSchedule?)
    ensures RefsOk(Next(t, a))
  {
    match a
    case CancelSend(user, e, newDraft) =>
      NewestIsOneOf(t, JobsOfEmail(t, e));
      if CancelSendReply(t, user, e) == Accepted {
        UndoneKeepsRefs(t, e, Newest(t, JobsOfEmail(t, e)).value, newDraft);
      }
    case CancelSchedule(user, draft) =>
      NewestIsOneOf(t, ScheduledJobsOf(t, draft));
      if CancelScheduleReply(t, user, draft) == Accepted {
        UnscheduledKeepsRefs(t, draft, Newest(t, ScheduledJobsOf(t, draft)).value);
      }
  }

  lemma SaveDraftKeepsRefs(t: Tables, a: Action)
    requires RefsOk(t) && a.SaveDraft?
    ensures RefsOk(Next(t, a))
  {
    if a.thread.Some? ==> a.thread.value in t.threads {
      AddDraftKeepsRefs(t, a.id, DraftRow(a.user, a.thread, None, a.content));
    }
  }

  lemma DropDraftKeepsRefs(t: Tables, a: Action)
    requires RefsOk(t) && a.DropDraft?
    ensures RefsOk(Next(t, a))
  {
    ThreadsAndFewerDrafts(t, t.threads, t.drafts - {a.id});
  }

  lemma JobRowKeepsRefs(t: Tables, j: string, row: JobRow)
    requires RefsOk(t) && j in t.jobs && row.email == t.jobs[j].email && row.thread == t.jobs[j].thread
    requires row.created == t.jobs[j].created && (row.status == Cancelled ==> t.jobs[j].status == Cancelled)
    ensures RefsOk(t.(jobs := t.jobs[j := row]))
  {
    var r := t.(jobs := t.jobs[j := row]);
    assert r.jobs.Keys == t.jobs.Keys;
    SameRefsKeepRefs(t, r);
  }

  lemma EmailStatusKeepsRefs(t: Tables, e: Option<string>, status: EmailStatus)
    requires RefsOk(t)
    ensures RefsOk(WithEmailStatus(t, e, status))
  {
    SameRefsKeepRefs(t, WithEmailStatus(t, e, status));
  }

  lemma WorkerKeepsRefs(t: Tables, a: Action)
    requires RefsOk(t) && (a.Claim? || a.Refuse? || a.RecoverStale? || a.Release?)
    ensures RefsOk(Next(t, a))
  {
    if a.job in t.jobs {
      if a.Claim? || a.RecoverStale? {
        PutBackOrClaimed(t, a);
      } else {
        RefusedOrReleased(t, a);
      }
    }
  }

  lemma PutBackOrClaimed(t: Tables, a: Action)
    requires RefsOk(t) && (a.Claim? || a.RecoverStale?) && a.job in t.jobs
    ensures RefsOk(Next(t, a))
  {
    var row := t.jobs[a.job];
    JobRowKeepsRefs(t, a.job, row.(status := Running));
    JobRowKeepsRefs(t, a.job, row.(status := JobFailed));
    JobRowKeepsRefs(t, a.job, row.(status := Pending, retryCount := row.retryCount + 1));
    if a.Claim? && !ShouldSkip(row) {
      FlightsKeepRefs(WithJobStatus(t, a.job, Running), Claimed(t, a.job, a.flight).flights);
    }
  }

  lemma FlightsKeepRefs(t: Tables, flights: map<string, Flight>)
    requires RefsOk(t)
    ensures RefsOk(t.(flights := flights))
  {
    SameRefsKeepRefs(t, t.(flights := flights));
  }

  lemma RefusedOrReleased(t: Tables, a: Action)
    requires RefsOk(t) && (a.Refuse? || a.Release?) && a.job in t.jobs
    ensures RefsOk(Next(t, a))
  {
    var row := t.jobs[a.job];
    if a.Refuse? {
      JobRowKeepsRefs(t, a.job, row.(status := JobFailed));
      EmailStatusKeepsRefs(WithJobStatus(t, a.job, JobFailed), row.email, EmailFailed);
    } else {
      JobRowKeepsRefs(t, a.job, row.(runAfter := None));
      EmailStatusKeepsRefs(t.(jobs := t.jobs[a.job := row.(runAfter := None)]), row.email, Queued);
    }
  }

  lemma RetryKeepsRefs(t: Tables, a: Action)
    requires RefsOk(t) && a.Retry?
    ensures RefsOk(Next(t, a))
  {
    NewestIsOneOf(t, JobsOfEmail(t, a.email));
    if RetryReply(t, a.user, a.admin, a.email) == Accepted {
      var j := Newest(t, JobsOfEmail(t, a.email)).value;
      var row := t.jobs[j].(status := Pending, retryCount := 0);
      JobRowKeepsRefs(t, j, row);
      EmailStatusKeepsRefs(t.(jobs := t.jobs[j := row]), Some(a.email), Queued);
    }
  }

  lemma SentOutKeepsRefs(t: Tables, f: Flight, alias: Option<string>)
    requires RefsOk(t) && f.job in t.jobs
    ensures RefsOk(SentOut(t, f, alias))
  {
    var done := WithJobStatus(t, f.job, Completed);
    JobRowKeepsRefs(t, f.job, t.jobs[f.job].(status := Completed));
    EmailStatusKeepsRefs(done, f.email, Delivered);
    SentOutTail(t, f, alias, WithEmailStatus(done, f.email, Delivered));
  }

  lemma SentOutTail(t: Tables, f: Flight, alias: Option<string>, done: Tables)
    requires RefsOk(done) && f.job in t.jobs
    requires done == WithEmailStatus(WithJobStatus(t, f.job, Completed), f.email, Delivered)
    ensures RefsOk(SentOut(t, f, alias))
  {
    var r := SentOut(t, f, alias);
    assert r == done.(threads := r.threads, drafts := r.drafts);
    assert r.threads.Keys == t.threads.Keys;
    ThreadsAndFewerDrafts(done, r.threads, r.drafts);
  }

  lemma ThreadsAndFewerDrafts(t: Tables, threads: map<string, set<Label>>, drafts: map<string, DraftRow>)
    requires RefsOk(t) && threads.Keys == t.threads.Keys
    requires forall d :: d in drafts ==> d in t.drafts && drafts[d] == t.drafts[d]
    ensures RefsOk(t.(threads := threads, drafts := drafts))
  {
    SameRefsKeepRefs(t, t.(threads := threads, drafts := drafts));
  }

  lemma FailedOutKeepsRefs(t: Tables, f: Flight, permanent: bool, newDraft: string)
    requires RefsOk(t) && f.job in t.jobs
    ensures RefsOk(FailedOut(t, f, permanent, newDraft))
  {
    var row := t.jobs[f.job];
    JobRowKeepsRefs(t, f.job, row.(status := Pending, retryCount := f.retryCount + 1));
    JobRowKeepsRefs(t, f.job, row.(status := JobFailed, retryCount := f.retryCount + 1));
    var failed := t.(jobs := t.jobs[f.job := row.(status := JobFailed, retryCount := f.retryCount + 1)]);
    EmailStatusKeepsRefs(failed, row.email, EmailFailed);
    if row.email.Some? && row.email.value in t.emails {
      AddDraftKeepsRefs(WithEmailStatus(failed, row.email, EmailFailed), newDraft,
                        RecoveryDraft(t.emails[row.email.value]));
    }
  }

  lemma FinishKeepsRefs(t: Tables, a: Action)
    requires RefsOk(t) && a.Finish?
    ensures RefsOk(Next(t, a))
  {
    if a.flight in t.flights && t.flights[a.flight].job in t.jobs {
      var landed := t.(flights := t.flights - {a.flight});
      SameRefsKeepRefs(t, landed);
      match a.outcome
      case Sent(alias) => SentOutKeepsRefs(landed, t.flights[a.flight], alias);
      case Failed(permanent, newDraft) => FailedOutKeepsRefs(landed, t.flights[a.flight], permanent, newDraft);
      case Panicked =>
        var j := t.flights[a.flight].job;
        JobRowKeepsRefs(landed, j, landed.jobs[j].(status := JobFailed));
    }
  }

  lemma ReconcileKeepsRefs(t: Tables, a: Action)
    requires RefsOk(t) && a.Reconcile?
    ensures RefsOk(Next(t, a))
  {
    if Stuck(t, a.email) {
      EmailStatusKeepsRefs(t, Some(a.email), EmailFailed);
      AddDraftKeepsRefs(WithEmailStatus(t, Some(a.email), EmailFailed), a.newDraft, RecoveryDraft(t.emails[a.email]));
    }
  }

  /** Over every step, no email names a missing thread, no send job a missing email or the wrong thread, no
      draft a missing thread, and a cancelled job names no email. */
  lemma StepKeepsRefs(t: Tables, a: Action)
    requires RefsOk(t) && Fresh(t, a)
    ensures RefsOk(Next(t, a))
  {
    match a
    case SendDirect(_, _, _, _) => SendDirectKeepsRefs(t, a);
    case SendDraft(_, _, _, _, _) => SendDraftKeepsRefs(t, a);
    case Inbound(_, _, _) => InboundKeepsRefs(t, a);
    case CancelSend(_, _, _) => CancelKeepsRefs(t, a);
    case CancelSchedule(_, _) => CancelKeepsRefs(t, a);
    case Retry(_, _, _) => RetryKeepsRefs(t, a);
    case Finish(_, _) => FinishKeepsRefs(t, a);
    case Reconcile(_, _) => ReconcileKeepsRefs(t, a);
    case Bounce(e) => EmailStatusKeepsRefs(t, Some(e), Bounced);
    case SaveDraft(_, _, _, _) => SaveDraftKeepsRefs(t, a);
    case DropDraft(_, _) => DropDraftKeepsRefs(t, a);
    case _ => WorkerKeepsRefs(t, a);
  }
}
