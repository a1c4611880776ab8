/** Queued emails that no job will send: which steps strand one, and the reconciler that gives it back. */
module OutboxStuck {
  import opened Wrappers
  import opened Labels
  import opened Outbox
  import opened OutboxRefs
  import opened OutboxRuns
  import opened OutboxUndo

  /** The reconciler fails the email it is called for and no other; so no email is stuck after a pass over all. */
  lemma ReconcileUnsticksIff(t: Tables, e: string, newDraft: string, k: string)
    ensures Stuck(Next(t, Reconcile(e, newDraft)), k) <==> Stuck(t, k) && k != e
  {
    OthersLeaveJobs(t, Reconcile(e, newDraft));
    SameJobs(t, Next(t, Reconcile(e, newDraft)), k);
  }

  lemma SameJobs(t: Tables, r: Tables, e: string)
    requires r.jobs == t.jobs
    ensures JobsOfEmail(r, e) == JobsOfEmail(t, e)
  {
  }

  /** Its user has the message as a draft, unless the draft it came from is gone; and can retry if the email ever had
      a job. */
  lemma ReconcileGivesBack(t: Tables, e: string, newDraft: string)
    requires RefsOk(t) && Stuck(t, e) && newDraft !in t.drafts
    ensures var r := Next(t, Reconcile(e, newDraft));
      var j := Newest(t, JobsOfEmail(t, e));
      var given := if j.Some? && t.jobs[j.value].draft.Some? then t.jobs[j.value].draft.value else newDraft;
      && (j.Some? ==> j.value in t.jobs)
      && e in r.emails && r.emails[e] == t.emails[e].(status := EmailFailed)
      && (given in r.drafts <==> j.None? || t.jobs[j.value].draft.None? || given in t.drafts)
      && (j.None? || t.jobs[j.value].draft.None? ==> r.drafts[given] == RecoveryDraft(t.emails[e]))
      && (forall d :: d in t.drafts ==> d in r.drafts && r.drafts[d] == t.drafts[d])
      && (RetryReply(r, t.emails[e].user, false, e) == Accepted <==> j.Some?)
  {
    NewestIsOneOf(t, JobsOfEmail(t, e));
    var r := Next(t, Reconcile(e, newDraft));
    assert JobsOfEmail(r, e) == JobsOfEmail(t, e);
    SameNewest(t, r, JobsOfEmail(t, e));
  }

  lemma SameNewest(t: Tables, r: Tables, js: set<string>)
    requires r.jobs == t.jobs && JobsDistinct(t) && js <= t.jobs.Keys
    ensures Newest(r, js) == Newest(t, js)
  {
    assert forall j :: IsNewest(r, js, j) <==> IsNewest(t, js, j);
    if j :| IsNewest(t, js, j) {
      NewestIs(t, js, j);
      NewestIs(r, js, j);
    }
  }

  /** A live job of an email: pending or running. */
  predicate Alive(t: Tables, e: string, j: string) {
    j in t.jobs && t.jobs[j].email == Some(e) && t.jobs[j].status in {Pending, Running}
  }

  /** The steps that leave the job's email queued and the job dead: a panic, a success that was claimed for another
      email, and the recovery of a stale job that has used up its retries. */
  predicate Strands(t: Tables, a: Action, e: string, j: string) {
    match a
    case Finish(f, outcome) =>
      && f in t.flights && t.flights[f].job == j
      && (outcome.Panicked? || (outcome.Sent? && t.flights[f].email != Some(e)))
    case RecoverStale(job) =>
      job == j && j in t.jobs && t.jobs[j].status == Running && t.jobs[j].retryCount >= MAX_RETRIES
    case _ => false
  }

  /** Which steps strand a queued email: exactly those. */
  lemma StrandsIff(t: Tables, a: Action, e: string, j: string)
    requires RefsOk(t) && Fresh(t, a) && Alive(t, e, j)
    requires e in t.emails && t.emails[e].outbound && t.emails[e].status == Queued
    ensures Stuck(Next(t, a), e) <==> Strands(t, a, e, j)
  {
    if !Touches(t, a, j) {
      Untouched(t, a, j);
      assert j in JobsOfEmail(Next(t, a), e);
    } else if Cancels(t, a, j) {
      CancelDropsEmail(t, a, e, j);
    } else if a.Finish? {
      FinishStrandsIff(t, a, e, j);
    } else {
      WorkerStrandsIff(t, a, e, j);
    }
  }

  lemma CancelDropsEmail(t: Tables, a: Action, e: string, j: string)
    requires RefsOk(t) && Cancels(t, a, j) && Alive(t, e, j)
    ensures e !in Next(t, a).emails
  {
    match a
    case CancelSend(user, email, newDraft) =>
      NewestIsOneOf(t, JobsOfEmail(t, email));
      UndoneKeepsRefs(t, email, j, newDraft);
    case CancelSchedule(user, d) =>
      NewestIsOneOf(t, ScheduledJobsOf(t, d));
      assert JobOk(t, t.jobs[j]);
      WithoutEmptyThreadIs(WithoutEmail(WithJobStatus(t, j, Cancelled), e), t.emails[e].thread);
  }

  /** The only job of an email decides. */
  lemma OnlyJob(t: Tables, r: Tables, e: string, j: string)
    requires RefsOk(t) && j in t.jobs && t.jobs[j].email == Some(e) && j in r.jobs && r.jobs[j].email == Some(e)
    requires r.jobs.Keys == t.jobs.Keys && forall k :: k in t.jobs && k != j ==> r.jobs[k].email == t.jobs[k].email
    ensures JobsOfEmail(r, e) == {j}
  {
    forall k | k in JobsOfEmail(r, e)
      ensures k == j
    {
      assert k != j ==> t.jobs[k].email == Some(e);
      assert Clash(t.jobs[j], t.jobs[k]);
    }
  }

  lemma FinishStrandsIff(t: Tables, a: Action, e: string, j: string)
    requires RefsOk(t) && Alive(t, e, j) && a.Finish? && a.flight in t.flights && t.flights[a.flight].job == j
    requires e in t.emails && t.emails[e].outbound && t.emails[e].status == Queued
    ensures Stuck(Next(t, a), e) <==> Strands(t, a, e, j)
  {
    var f, landed := t.flights[a.flight], t.(flights := t.flights - {a.flight});
    match a.outcome {
      case Sent(alias) => SentJobs(landed, f, alias);
      case Failed(permanent, newDraft) => FailedJobs(landed, f, permanent, newDraft, e);
      case Panicked =>
    }
    OnlyJob(t, Next(t, a), e, j);
  }

  lemma SentJobs(t: Tables, f: Flight, alias: Option<string>)
    requires f.job in t.jobs
    ensures var r := SentOut(t, f, alias);
      && r.jobs == t.jobs[f.job := t.jobs[f.job].(status := Completed)]
      && r.emails == WithEmailStatus(t, f.email, Delivered).emails
  {
    var r, done := SentOut(t, f, alias), WithEmailStatus(WithJobStatus(t, f.job, Completed), f.email, Delivered);
    assert r == done.(threads := r.threads, drafts := r.drafts);
  }

  lemma FailedJobs(t: Tables, f: Flight, permanent: bool, newDraft: string, e: string)
    requires f.job in t.jobs && t.jobs[f.job].email == Some(e) && e in t.emails
    ensures var r := FailedOut(t, f, permanent, newDraft);
      && r.jobs == t.jobs[f.job := r.jobs[f.job]] && r.jobs[f.job].email == Some(e)
      && (r.jobs[f.job].status == Pending || r.emails[e].status == EmailFailed)
  {
  }

  lemma WorkerStrandsIff(t: Tables, a: Action, e: string, j: string)
    requires RefsOk(t) && Alive(t, e, j) && Touches(t, a, j) && !Cancels(t, a, j) && !a.Finish?
    requires e in t.emails && t.emails[e].outbound && t.emails[e].status == Queued
    ensures Stuck(Next(t, a), e) <==> Strands(t, a, e, j)
  {
    match a
    case Retry(_, _, _) => RetryRevives(t, a, e, j);
    case RecoverStale(_) => StaleStrandsIff(t, a, e, j);
    case _ => WorkerLeavesAlive(t, a, e, j);
  }

  lemma RetryRevives(t: Tables, a: Action, e: string, j: string)
    requires RefsOk(t) && Alive(t, e, j) && Touches(t, a, j) && a.Retry?
    ensures !Stuck(Next(t, a), e)
  {
    NewestIsOneOf(t, JobsOfEmail(t, a.email));
    assert j in JobsOfEmail(Next(t, a), e);
  }

  lemma StaleStrandsIff(t: Tables, a: Action, e: string, j: string)
    requires RefsOk(t) && Alive(t, e, j) && a == RecoverStale(j)
    requires e in t.emails && t.emails[e].outbound && t.emails[e].status == Queued
    ensures Stuck(Next(t, a), e) <==> Strands(t, a, e, j)
  {
    OnlyJob(t, Next(t, a), e, j);
  }

  /** Taken up, refused or released, the job stays alive or the email fails. */
  lemma WorkerLeavesAlive(t: Tables, a: Action, e: string, j: string)
    requires Alive(t, e, j) && e in t.emails && (a == Refuse(j) || a == Release(j) || (a.Claim? && a.job == j))
    ensures !Stuck(Next(t, a), e)
  {
    if a == Refuse(j) {
      assert Next(t, a).emails[e].status == EmailFailed;
    } else {
      assert j in JobsOfEmail(Next(t, a), e);
    }
  }
}
