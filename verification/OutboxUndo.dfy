/** Undo against send: what a cancelled send leaves behind, exactly. */
module OutboxUndo {
  import opened Wrappers
  import opened Labels
  import opened Outbox
  import opened OutboxRefs
  import opened OutboxRuns

  /** The threads left when a send into a thread is undone. A thread with no other email loses its labels, and
      its row too unless a draft holds it. */
  function ThreadsAfterUndo(t: Tables, thread: Option<string>, made: string, held: bool): map<string, set<Label>> {
    if thread.Some? then (if HasEmail(t, thread.value) then t.threads else t.threads[thread.value := {}])
    else if held then t.threads[made := {}]
    else t.threads
  }

  function CancelledJob(t: Tables, draft: Option<string>, runAfter: Option<int>): JobRow {
    JobRow(Cancelled, None, None, draft, runAfter, 0, |t.jobs|)
  }

  /** The tables once the new job is cancelled and its email removed. */
  lemma InsertThenDetach(t: Tables, user: string, thread: Option<string>, content: string, status: EmailStatus,
                         draft: Option<string>, runAfter: Option<int>, ids: NewIds, drafts: map<string, DraftRow>)
    requires RefsOk(t) && FreshIds(t, ids) && (thread.Some? ==> thread.value in t.threads)
    ensures var sent := Insert(t, user, thread, content, status, draft, runAfter, ids).(drafts := drafts);
      WithoutEmail(WithJobStatus(sent, ids.job, Cancelled), ids.email)
        == t.(threads := sent.threads, drafts := drafts, jobs := t.jobs[ids.job := CancelledJob(t, draft, runAfter)])
  {
    var sent := Insert(t, user, thread, content, status, draft, runAfter, ids).(drafts := drafts);
    assert sent.emails - {ids.email} == t.emails;
    DetachedJobs(t, WithJobStatus(sent, ids.job, Cancelled), ids.email, ids.job);
  }

  /** The new job is the only one that names the new email. */
  lemma DetachedJobs(t: Tables, sent: Tables, email: string, job: string)
    requires RefsOk(t) && email !in t.emails && job in sent.jobs && sent.jobs[job].email == Some(email)
    requires sent.jobs == t.jobs[job := sent.jobs[job]]
    ensures WithoutEmail(sent, email).jobs == t.jobs[job := sent.jobs[job].(email := None, thread := None)]
  {
    forall j | j in t.jobs
      ensures t.jobs[j].email != Some(email)
    {
      assert JobOk(t, t.jobs[j]);
    }
  }

  lemma NobodyNamesFresh(t: Tables, th: string)
    requires RefsOk(t) && th !in t.threads
    ensures !HasEmail(t, th) && !Referenced(t, th)
  {
    forall j | j in t.jobs
      ensures t.jobs[j].thread != Some(th)
    {
      assert JobOk(t, t.jobs[j]);
    }
  }

  lemma NoJobNamesFresh(t: Tables, made: string, job: string, row: JobRow, jobs: map<string, JobRow>)
    requires RefsOk(t) && made !in t.threads && row.thread == None && jobs == t.jobs[job := row]
    ensures forall j :: j in jobs ==> jobs[j].thread != Some(made)
  {
    forall j | j in jobs
      ensures jobs[j].thread != Some(made)
    {
      if j != job { assert JobOk(t, t.jobs[j]); }
    }
  }

  /** Dropping the thread of the removed email. `sent` differs from `t` in the labels of one thread, in drafts
      and in a job that names no thread. */
  lemma DropThread(
    t: Tables, thread: Option<string>, made: string, drafts: map<string, DraftRow>, job: string, row: JobRow)
    requires RefsOk(t) && made !in t.threads && (thread.Some? ==> thread.value in t.threads)
    requires row.thread == None && job !in t.jobs
    requires var th := if thread.Some? then thread.value else made;
      (thread.Some? ==> exists d :: d in drafts && drafts[d].thread == thread)
      && (thread.None? ==> forall d :: d in drafts && drafts[d].thread == Some(made) ==> d !in t.drafts)
    ensures var th := if thread.Some? then thread.value else made;
      var threads := if thread.Some? then t.threads else t.threads[made := {Label.Sent}];
      var left := t.(threads := threads, drafts := drafts, jobs := t.jobs[job := row]);
      WithoutEmptyThread(left, th) == left.(threads := ThreadsAfterUndo(t, thread, made,
        exists d :: d in drafts && drafts[d].thread == Some(made)))
  {
    var th := if thread.Some? then thread.value else made;
    var threads := if thread.Some? then t.threads else t.threads[made := {Label.Sent}];
    var left := t.(threads := threads, drafts := drafts, jobs := t.jobs[job := row]);
    assert HasEmail(left, th) <==> HasEmail(t, th);
    if thread.None? {
      NobodyNamesFresh(t, made);
      NoJobNamesFresh(t, made, job, row, left.jobs);
      MadeAndDropped(t.threads, made);
    }
  }

  lemma MadeAndDropped(threads: map<string, set<Label>>, made: string)
    requires made !in threads
    ensures threads[made := {Label.Sent}][made := {}] == threads[made := {}]
    ensures threads[made := {}] - {made} == threads
  {
  }

  /** Right after a send, the undo gate is open to its sender. */
  lemma GateOpen(t: Tables, user: string, thread: Option<string>, content: string, status: EmailStatus,
                 draft: Option<string>, runAfter: Option<int>, ids: NewIds, sent: Tables)
    requires RefsOk(t) && FreshIds(t, ids) && (thread.Some? ==> thread.value in t.threads)
    requires status == Queued || status == EmailStatus.Scheduled
    requires sent == Insert(t, user, thread, content, status, draft, runAfter, ids)
    ensures Newest(sent, JobsOfEmail(sent, ids.email)) == Some(ids.job)
    ensures CancelSendReply(sent, user, ids.email) == Accepted
  {
    InsertKeepsRefs(t, user, thread, content, status, draft, runAfter, ids);
    JobOfEmail(sent, ids.email, ids.job);
  }

  lemma UndoneWithDraft(t: Tables, e: string, j: string, newDraft: string)
    requires e in t.emails && j in t.jobs && t.jobs[j].draft.None?
    ensures var drafts := t.drafts[newDraft := RecoveryDraft(t.emails[e])];
      Undone(t, e, j, newDraft) == WithoutEmptyThread(
        WithoutEmail(WithJobStatus(t.(drafts := drafts), j, Cancelled), e), t.emails[e].thread)
  {
    var drafts := t.drafts[newDraft := RecoveryDraft(t.emails[e])];
    assert WithJobStatus(t, j, Cancelled).(drafts := drafts) == WithJobStatus(t.(drafts := drafts), j, Cancelled);
  }

  lemma DirectUndone(t: Tables, user: string, replyTo: Option<string>, content: string, ids: NewIds, newDraft: string)
    requires RefsOk(t) && FreshIds(t, ids) && newDraft !in t.drafts && (replyTo.Some? ==> replyTo.value in t.threads)
    ensures var sent := Insert(t, user, replyTo, content, Queued, None, None, ids);
      var th := if replyTo.Some? then replyTo.value else ids.thread;
      Undone(sent, ids.email, ids.job, newDraft) == Tables(
        ThreadsAfterUndo(t, replyTo, ids.thread, true),
        t.emails,
        t.jobs[ids.job := CancelledJob(t, None, None)],
        t.drafts[newDraft := DraftRow(user, Some(th), None, content)],
        t.flights)
  {
    var sent := Insert(t, user, replyTo, content, Queued, None, None, ids);
    var th := if replyTo.Some? then replyTo.value else ids.thread;
    var drafts := t.drafts[newDraft := DraftRow(user, Some(th), None, content)];
    UndoneWithDraft(sent, ids.email, ids.job, newDraft);
    InsertThenDetach(t, user, replyTo, content, Queued, None, None, ids, drafts);
    assert drafts[newDraft].thread == Some(th);
    DraftsNameOld(t, ids.thread);
    DropThread(t, replyTo, ids.thread, drafts, ids.job, CancelledJob(t, None, None));
  }

  /** A direct send and its undo. Emails are as before, the job is cancelled with no references, and the user
      holds a draft with the message. The threads are as before exactly when the send was a reply into a thread
      with another email (or with no labels to lose): the draft of an undone compose keeps the thread row that
      the send made, without its labels. */
  lemma DirectSendThenUndo(
    t: Tables, user: string, replyTo: Option<string>, content: string, ids: NewIds, newDraft: string)
    requires RefsOk(t) && FreshIds(t, ids) && newDraft !in t.drafts && SendDirectReply(t, replyTo) == Accepted
    ensures var sent := Next(t, SendDirect(user, replyTo, content, ids));
      var undone := Next(sent, CancelSend(user, ids.email, newDraft));
      var th := if replyTo.Some? then replyTo.value else ids.thread;
      && CancelSendReply(sent, user, ids.email) == Accepted
      && undone.emails == t.emails
      && undone.jobs == t.jobs[ids.job := CancelledJob(t, None, None)]
      && undone.drafts == t.drafts[newDraft := DraftRow(user, Some(th), None, content)]
      && undone.threads == ThreadsAfterUndo(t, replyTo, ids.thread, true)
      && (undone.threads == t.threads <==>
            replyTo.Some? && (HasEmail(t, replyTo.value) || t.threads[replyTo.value] == {}))
  {
    var sent := Insert(t, user, replyTo, content, Queued, None, None, ids);
    GateOpen(t, user, replyTo, content, Queued, None, None, ids, sent);
    DirectUndone(t, user, replyTo, content, ids, newDraft);
    assert replyTo.None? ==> ids.thread in ThreadsAfterUndo(t, replyTo, ids.thread, true);
    LabelsLost(t, replyTo);
  }

  lemma DraftsNameOld(t: Tables, made: string)
    requires RefsOk(t) && made !in t.threads
    ensures forall d :: d in t.drafts ==> t.drafts[d].thread != Some(made)
  {
  }

  lemma ScheduleUndone(t: Tables, user: string, draft: string, at: int, ids: NewIds)
    requires RefsOk(t) && FreshIds(t, ids) && draft in t.drafts
    ensures var d := t.drafts[draft];
      Unscheduled(AfterSendDraft(t, user, draft, Some(at), ids), draft, ids.job) == Tables(
        ThreadsAfterUndo(t, d.thread, ids.thread, false),
        t.emails,
        t.jobs[ids.job := CancelledJob(t, Some(draft), Some(at))],
        t.drafts[draft := d.(scheduledAt := None)],
        t.flights)
  {
    var d := t.drafts[draft];
    var drafts := t.drafts[draft := d.(scheduledAt := Some(at))];
    InsertThenDetach(t, user, d.thread, d.content, EmailStatus.Scheduled, Some(draft), Some(at), ids, drafts);
    DraftsNameOld(t, ids.thread);
    assert drafts[draft].thread == d.thread;
    DropThread(t, d.thread, ids.thread, drafts, ids.job, CancelledJob(t, Some(draft), Some(at)));
    assert drafts[draft := d.(scheduledAt := None)] == t.drafts[draft := d.(scheduledAt := None)];
  }

  /** The job of a send just scheduled is the newest one of its draft. */
  lemma ScheduleGateOpen(t: Tables, user: string, draft: string, at: int, ids: NewIds)
    requires RefsOk(t) && FreshIds(t, ids) && draft in t.drafts && t.drafts[draft].user == user
    ensures var sent := AfterSendDraft(t, user, draft, Some(at), ids);
      && Newest(sent, ScheduledJobsOf(sent, draft)) == Some(ids.job)
      && CancelScheduleReply(sent, user, draft) == Accepted
  {
    var d := t.drafts[draft];
    var inserted := Insert(t, user, d.thread, d.content, EmailStatus.Scheduled, Some(draft), Some(at), ids);
    var sent := AfterSendDraft(t, user, draft, Some(at), ids);
    InsertKeepsRefs(t, user, d.thread, d.content, EmailStatus.Scheduled, Some(draft), Some(at), ids);
    AddDraftKeepsRefs(inserted, draft, d.(scheduledAt := Some(at)));
    assert IsNewest(sent, ScheduledJobsOf(sent, draft), ids.job);
    NewestIs(sent, ScheduledJobsOf(sent, draft), ids.job);
  }

  /** A scheduled send and its cancellation. Emails, drafts (apart from the cleared schedule) and jobs (apart
      from the cancelled one) are as before; so are the threads, exactly when the draft started a new
      conversation, or its thread has another email (or no labels to lose). */
  lemma ScheduleThenCancel(t: Tables, user: string, draft: string, at: int, now: int, ids: NewIds)
    requires RefsOk(t) && FreshIds(t, ids) && SendDraftReply(t, user, draft, Some(at), now) == Accepted
    ensures var sent := Next(t, SendDraft(user, draft, Some(at), now, ids));
      var undone := Next(sent, CancelSchedule(user, draft));
      var thread := t.drafts[draft].thread;
      && CancelScheduleReply(sent, user, draft) == Accepted
      && undone.emails == t.emails
      && undone.jobs == t.jobs[ids.job := CancelledJob(t, Some(draft), Some(at))]
      && undone.drafts == t.drafts[draft := t.drafts[draft].(scheduledAt := None)]
      && undone.threads == ThreadsAfterUndo(t, thread, ids.thread, false)
      && (undone.threads == t.threads <==>
            thread.None? || HasEmail(t, thread.value) || t.threads[thread.value] == {})
  {
    ScheduleGateOpen(t, user, draft, at, ids);
    ScheduleUndone(t, user, draft, at, ids);
    LabelsLost(t, t.drafts[draft].thread);
  }

  lemma LabelsLost(t: Tables, thread: Option<string>)
    requires thread.Some? ==> thread.value in t.threads
    ensures thread.Some? ==> (t.threads[thread.value := {}] == t.threads <==> t.threads[thread.value] == {})
  {
    if thread.Some? { assert t.threads[thread.value := {}][thread.value] == {}; }
  }

  /** An accepted undo leaves its user the message as a draft, unless the send came from a draft that has been
      deleted since: nothing checks that it still exists. */
  lemma UndoGivesDraftBackIff(t: Tables, user: string, e: string, newDraft: string)
    requires RefsOk(t) && CancelSendReply(t, user, e) == Accepted && newDraft !in t.drafts
    ensures var undone := Next(t, CancelSend(user, e, newDraft));
      var job := t.jobs[Newest(t, JobsOfEmail(t, e)).value];
      var given := if job.draft.Some? then job.draft.value else newDraft;
      && (given in undone.drafts <==> job.draft.None? || job.draft.value in t.drafts)
      && (job.draft.None? ==> undone.drafts[given] == RecoveryDraft(t.emails[e]))
      && forall d :: d in t.drafts ==> d in undone.drafts && undone.drafts[d] == t.drafts[d]
  {
    NewestIsOneOf(t, JobsOfEmail(t, e));
    UndoneDrafts(t, e, Newest(t, JobsOfEmail(t, e)).value, newDraft);
  }

  lemma UndoneDrafts(t: Tables, e: string, j: string, newDraft: string)
    requires e in t.emails && j in t.jobs
    ensures Undone(t, e, j, newDraft).drafts
         == if t.jobs[j].draft.Some? then t.drafts else t.drafts[newDraft := RecoveryDraft(t.emails[e])]
  {
  }

  /** Undo drops the row of a thread exactly when no email is left in it and no draft names it. */
  lemma UndoDropsThreadIff(t: Tables, user: string, e: string, newDraft: string)
    requires RefsOk(t) && CancelSendReply(t, user, e) == Accepted && newDraft !in t.drafts
    ensures var undone := Next(t, CancelSend(user, e, newDraft));
      var th := t.emails[e].thread;
      && (th !in undone.threads <==>
            (forall k :: k in t.emails && t.emails[k].thread == th ==> k == e)
            && (forall d :: d in undone.drafts ==> undone.drafts[d].thread != Some(th)))
      && (forall k :: k != th ==> (k in undone.threads <==> k in t.threads))
  {
    NewestIsOneOf(t, JobsOfEmail(t, e));
    var j := Newest(t, JobsOfEmail(t, e)).value;
    var left := UndoLeaves(t, e, j, newDraft);
    DroppedIff(left, t.emails[e].thread);
    EmailLeftIff(t, left, e);
  }

  /** The tables of an undo just before it looks at the thread. */
  lemma UndoLeaves(t: Tables, e: string, j: string, newDraft: string) returns (left: Tables)
    requires RefsOk(t) && e in t.emails && j in t.jobs && t.jobs[j].email == Some(e)
    ensures RefsOk(left) && Undone(t, e, j, newDraft) == WithoutEmptyThread(left, t.emails[e].thread)
    ensures left.emails == t.emails - {e} && left.threads == t.threads
  {
    UndoneSteps(t, e, j, newDraft);
    var kept := if t.jobs[j].draft.Some? then t else t.(drafts := t.drafts[newDraft := RecoveryDraft(t.emails[e])]);
    WithoutEmailIs(kept, j, e);
    WithoutEmailKeepsRefs(kept, j, e);
    left := WithoutEmail(WithJobStatus(kept, j, Cancelled), e);
  }

  lemma EmailLeftIff(t: Tables, left: Tables, e: string)
    requires e in t.emails && left.emails == t.emails - {e}
    ensures var th := t.emails[e].thread;
      !HasEmail(left, th) <==> forall k :: k in t.emails && t.emails[k].thread == th ==> k == e
  {
    assert forall k :: k in t.emails && k != e ==> k in left.emails && left.emails[k] == t.emails[k];
  }

  lemma DroppedIff(t: Tables, th: string)
    requires RefsOk(t) && th in t.threads
    ensures var r := WithoutEmptyThread(t, th);
      && (th !in r.threads <==> !HasEmail(t, th) && forall d :: d in t.drafts ==> t.drafts[d].thread != Some(th))
      && (forall k :: k != th ==> (k in r.threads <==> k in t.threads))
      && r.drafts == t.drafts
  {
    if !HasEmail(t, th) {
      forall j | j in t.jobs
        ensures t.jobs[j].thread != Some(th)
      {
        assert JobOk(t, t.jobs[j]);
      }
    }
  }

  // --- a race ---

  /** The email is queued, its job has the given status, and the claim is open or not. */
  ghost predicate InRace(t: Tables, user: string, ids: NewIds, status: JobStatus) {
    && RefsOk(t)
    && ids.email in t.emails && t.emails[ids.email].user == user
    && t.emails[ids.email].outbound && t.emails[ids.email].status == Queued
    && ids.job in t.jobs && t.jobs[ids.job].email == Some(ids.email) && t.jobs[ids.job].status == status
  }

  predicate Flying(t: Tables, ids: NewIds, flight: string) {
    flight in t.flights && t.flights[flight].job == ids.job && t.flights[flight].email == Some(ids.email)
  }

  lemma RaceClaim(t: Tables, user: string, ids: NewIds, flight: string)
    requires InRace(t, user, ids, Pending)
    ensures InRace(Next(t, Claim(ids.job, flight)), user, ids, Running)
    ensures Flying(Next(t, Claim(ids.job, flight)), ids, flight)
  {
    WorkerKeepsRefs(t, Claim(ids.job, flight));
  }

  lemma RaceRetry(t: Tables, user: string, ids: NewIds, flight: string)
    requires InRace(t, user, ids, Running) && Flying(t, ids, flight)
    ensures RetryReply(t, user, false, ids.email) == Accepted
    ensures InRace(Next(t, Retry(user, false, ids.email)), user, ids, Pending)
    ensures Flying(Next(t, Retry(user, false, ids.email)), ids, flight)
    ensures Next(t, Retry(user, false, ids.email)).drafts == t.drafts
  {
    JobOfEmail(t, ids.email, ids.job);
    RetryKeepsRefs(t, Retry(user, false, ids.email));
  }

  lemma RaceCancel(t: Tables, user: string, ids: NewIds, flight: string, newDraft: string)
    requires InRace(t, user, ids, Pending) && Flying(t, ids, flight)
    ensures CancelSendReply(t, user, ids.email) == Accepted
    ensures var r := Next(t, CancelSend(user, ids.email, newDraft));
      && ids.email !in r.emails && Flying(r, ids, flight)
      && ids.job in r.jobs && r.jobs[ids.job].status == Cancelled
  {
    JobOfEmail(t, ids.email, ids.job);
    UndoneKeepsRefs(t, ids.email, ids.job, newDraft);
    FlightsAfter(t, CancelSend(user, ids.email, newDraft));
  }

  lemma RaceFinish(t: Tables, ids: NewIds, flight: string)
    requires ids.email !in t.emails && Flying(t, ids, flight) && ids.job in t.jobs
    ensures var r := Next(t, Finish(flight, Outcome.Sent(None)));
      ids.email !in r.emails && ids.job in r.jobs && r.jobs[ids.job].status == Completed
  {
  }

  /** Why the run must be gentle. From every state, a compose can go out although its undo was accepted: a
      retry is accepted while a worker is still sending the email and puts the job back, the undo cancels it,
      and the worker's success then overwrites the cancellation. */
  lemma RetryInFlightOvertakesUndo(
    t: Tables, user: string, content: string, ids: NewIds, flight: string, newDraft: string)
    requires RefsOk(t) && FreshIds(t, ids) && flight !in t.flights && newDraft !in t.drafts
    ensures var t1 := Next(t, SendDirect(user, None, content, ids));
      var t2 := Next(t1, Claim(ids.job, flight));
      var t3 := Next(t2, Retry(user, false, ids.email));
      var t4 := Next(t3, CancelSend(user, ids.email, newDraft));
      var t5 := Next(t4, Finish(flight, Outcome.Sent(None)));
      && RetryReply(t2, user, false, ids.email) == Accepted
      && CancelSendReply(t3, user, ids.email) == Accepted
      && ids.job in t4.jobs && t4.jobs[ids.job].status == Cancelled
      && ids.job in t5.jobs && t5.jobs[ids.job].status == Completed && ids.email !in t5.emails
  {
    var t1 := Next(t, SendDirect(user, None, content, ids));
    InsertKeepsRefs(t, user, None, content, Queued, None, None, ids);
    RaceClaim(t1, user, ids, flight);
    var t2 := Next(t1, Claim(ids.job, flight));
    RaceRetry(t2, user, ids, flight);
    var t3 := Next(t2, Retry(user, false, ids.email));
    RaceCancel(t3, user, ids, flight, newDraft);
    RaceFinish(Next(t3, CancelSend(user, ids.email, newDraft)), ids, flight);
  }
}
