/** What becomes of a message over a run of the outbox: that it goes out as it was written, once, and after how many
    failures the worker gives it up. */
module OutboxDeliveries {
  import opened Wrappers
  import opened Labels
  import opened Outbox
  import opened OutboxRefs
  import opened OutboxRuns
  import opened OutboxRows

  // --- sending twice ---

  function JobsOfDraft(t: Tables, d: string): set<string> {
    set j | j in t.jobs && t.jobs[j].draft == Some(d)
  }

  /** While a job of a draft is pending or running, no send of that draft, scheduled or not, changes anything. */
  lemma LiveJobBlocks(t: Tables, j: string, user: string, d: string, at: Option<int>, now: int, ids: NewIds)
    requires j in t.jobs && t.jobs[j].draft == Some(d) && (t.jobs[j].status == Pending || t.jobs[j].status == Running)
    ensures Next(t, SendDraft(user, d, at, now, ids)) == t
  {
    assert j in LiveJobsOf(t, d);
    DraftHands(t, user, d, at, now, ids);
  }

  /** The job is pending or running at every moment of a run. */
  ghost predicate LiveThroughout(t: Tables, acts: seq<Action>, j: string)
    decreases acts
  {
    && j in t.jobs && (t.jobs[j].status == Pending || t.jobs[j].status == Running)
    && (acts != [] ==> LiveThroughout(Next(t, acts[0]), acts[1..], j))
  }

  /** No send of the draft in the run changes anything. */
  ghost predicate NeverSentAgain(t: Tables, acts: seq<Action>, d: string)
    decreases acts
  {
    acts != [] ==>
      && (acts[0].SendDraft? && acts[0].draft == d ==> Next(t, acts[0]) == t)
      && NeverSentAgain(Next(t, acts[0]), acts[1..], d)
  }

  /** No step but a send of a draft makes a job for it. */
  lemma OnlySendsMakeJobs(t: Tables, a: Action, d: string)
    requires RefsOk(t) && Fresh(t, a) && !(a.SendDraft? && a.draft == d)
    ensures JobsOfDraft(Next(t, a), d) == JobsOfDraft(t, d)
  {
    forall j
      ensures j in JobsOfDraft(Next(t, a), d) <==> j in JobsOfDraft(t, d)
    {
      if j in t.jobs {
        JobRows(t, a, j);
      } else if a.SendDirect? {
        DirectHands(t, a.user, a.replyTo, a.content, a.ids);
      } else if a.SendDraft? {
        DraftHands(t, a.user, a.draft, a.scheduledAt, a.now, a.ids);
      } else {
        NoNewJob(t, a, j);
      }
    }
  }

  lemma NoNewJob(t: Tables, a: Action, j: string)
    requires RefsOk(t) && Fresh(t, a) && j !in t.jobs && !a.SendDirect? && !a.SendDraft?
    ensures j !in Next(t, a).jobs
  {
    match a
    case Retry(_, _, _) => RetryCreatesNone(t, a, j);
    case CancelSend(_, _, _) => CancelCreatesNone(t, a, j);
    case CancelSchedule(_, _) => CancelCreatesNone(t, a, j);
    case Finish(_, _) => FinishCreatesNone(t, a, j);
    case Claim(_, _) => ClaimTouchesOne(t, a, j);
    case Refuse(_) => ClaimTouchesOne(t, a, j);
    case RecoverStale(_) => SchedulerTouchesOne(t, a, j);
    case Release(_) => SchedulerTouchesOne(t, a, j);
    case _ => OthersLeaveJobs(t, a);
  }

  lemma {:induction false} StaysSingle(t: Tables, acts: seq<Action>, d: string, j: string)
    requires RefsOk(t) && AllFresh(t, acts) && LiveThroughout(t, acts, j) && t.jobs[j].draft == Some(d)
    ensures NeverSentAgain(t, acts, d) && JobsOfDraft(Run(t, acts), d) == JobsOfDraft(t, d)
    decreases acts
  {
    if acts != [] {
      var a := acts[0];
      StepKeepsRefs(t, a);
      JobRows(t, a, j);
      if a.SendDraft? && a.draft == d {
        LiveJobBlocks(t, j, a.user, d, a.scheduledAt, a.now, a.ids);
      } else {
        OnlySendsMakeJobs(t, a, d);
      }
      StaysSingle(Next(t, a), acts[1..], d, j);
    }
  }

  /** No message goes out twice by a second click: over every run after an accepted send of a draft, as long as its job
      stays pending or running, every further send of the draft, by anybody and for any time, is refused, and no other
      job is made from it. */
  lemma NoSecondSend(t: Tables, send: Action, acts: seq<Action>)
    requires RefsOk(t) && Fresh(t, send) && send.SendDraft?
    requires MaySendDraft(t, send.user, send.draft, send.scheduledAt, send.now)
    requires AllFresh(Next(t, send), acts) && LiveThroughout(Next(t, send), acts, send.ids.job)
    ensures NeverSentAgain(Next(t, send), acts, send.draft)
    ensures JobsOfDraft(Run(Next(t, send), acts), send.draft) == JobsOfDraft(t, send.draft) + {send.ids.job}
  {
    var d, j := send.draft, send.ids.job;
    DraftHands(t, send.user, d, send.scheduledAt, send.now, send.ids);
    StepKeepsRefs(t, send);
    StaysSingle(Next(t, send), acts, d, j);
    assert JobsOfDraft(Next(t, send), d) == JobsOfDraft(t, d) + {j};
  }

  // --- going out ---

  /** A send that names its draft, or is direct. */
  predicate IsSend(a: Action) {
    a.SendDirect? || a.SendDraft?
  }

  predicate MaySend(t: Tables, a: Action)
    requires IsSend(a)
  {
    if a.SendDirect? then a.replyTo.Some? ==> a.replyTo.value in t.threads
    else MaySendDraft(t, a.user, a.draft, a.scheduledAt, a.now)
  }

  /** The message of a send, and the thread it goes into. */
  function MessageOf(t: Tables, a: Action): (string, string)
    requires IsSend(a) && MaySend(t, a)
  {
    var thread := if a.SendDirect? then a.replyTo else t.drafts[a.draft].thread;
    (if a.SendDirect? then a.content else t.drafts[a.draft].content,
     if thread.Some? then thread.value else a.ids.thread)
  }

  lemma SendMakes(t: Tables, a: Action)
    requires RefsOk(t) && Fresh(t, a) && IsSend(a) && MaySend(t, a)
    ensures var r, m := Next(t, a), MessageOf(t, a);
      && RefsOk(r) && m.1 in r.threads
      && a.ids.email in r.emails && r.emails[a.ids.email].content == m.0 && r.emails[a.ids.email].thread == m.1
      && r.emails[a.ids.email].user == a.user && r.emails[a.ids.email].outbound
      && MayTake(r, a.ids.job)
      && r.jobs[a.ids.job].email == Some(a.ids.email) && r.jobs[a.ids.job].thread == Some(m.1)
      && r.jobs[a.ids.job].draft == if a.SendDraft? then Some(a.draft) else None
  {
    StepKeepsRefs(t, a);
    if a.SendDirect? {
      DirectHands(t, a.user, a.replyTo, a.content, a.ids);
    } else {
      DraftHands(t, a.user, a.draft, a.scheduledAt, a.now, a.ids);
    }
  }

  /** A claim reads the columns of its job, and writes with them later. */
  lemma ClaimReads(t: Tables, j: string, f: string)
    requires MayTake(t, j)
    ensures var r, row := Next(t, Claim(j, f)), t.jobs[j];
      && r.flights == t.flights[f := Flight(j, row.email, row.thread, row.draft, row.retryCount)]
      && r.emails == t.emails && r.threads == t.threads && r.drafts == t.drafts
      && r.jobs == t.jobs[j := row.(status := Running)]
  {
  }

  /** From the send to the mailbox. Every accepted send, direct, of a draft or for later, that a worker takes up and
      gets through ends with the message delivered as it was written, from its user, in its thread, which now carries
      "sent" and the alias it went out from; the job is done and the draft it came from is gone. */
  lemma MailGoesOut(t: Tables, send: Action, f: string, alias: Option<string>)
    requires RefsOk(t) && Fresh(t, send) && IsSend(send) && MaySend(t, send) && f !in t.flights
    ensures var e, j, m := send.ids.email, send.ids.job, MessageOf(t, send);
      var end := Run(t, [send, Claim(j, f), Finish(f, Outcome.Sent(alias))]);
      && e in end.emails && end.emails[e] == EmailRow(m.1, send.user, true, Delivered, m.0)
      && m.1 in end.threads && Label.Sent in end.threads[m.1]
      && (alias.Some? ==> Alias(alias.value) in end.threads[m.1])
      && j in end.jobs && end.jobs[j].status == Completed
      && (send.SendDraft? ==> send.draft !in end.drafts)
      && f !in end.flights
  {
    var e, j, m := send.ids.email, send.ids.job, MessageOf(t, send);
    var t1 := Next(t, send);
    var t2 := Next(t1, Claim(j, f));
    SendMakes(t, send);
    FlightsAfter(t, send);
    ClaimReads(t1, j, f);
    StepKeepsRefs(t1, Claim(j, f));
    Delivers(t2, e, j, f, alias, m.1);
    ThreeSteps(t, send, Claim(j, f), Finish(f, Outcome.Sent(alias)), t1, t2);
  }

  lemma Delivers(t: Tables, e: string, j: string, f: string, alias: Option<string>, th: string)
    requires RefsOk(t) && e in t.emails && j in t.jobs && th in t.threads && f in t.flights
    requires t.flights[f].job == j && t.flights[f].email == Some(e) && t.flights[f].thread == Some(th)
    ensures var r := Next(t, Finish(f, Outcome.Sent(alias)));
      && e in r.emails && r.emails[e] == t.emails[e].(status := Delivered)
      && th in r.threads && Label.Sent in r.threads[th] && (alias.Some? ==> Alias(alias.value) in r.threads[th])
      && j in r.jobs && r.jobs[j].status == Completed
      && (forall d :: t.flights[f].draft == Some(d) ==> d !in r.drafts)
      && f !in r.flights
  {
    var a := Finish(f, Outcome.Sent(alias));
    EmailRows(t, a, e);
    JobRows(t, a, j);
    SentThreads(t.(flights := t.flights - {f}), t.flights[f], alias, th);
    SentDrafts(t.(flights := t.flights - {f}), t.flights[f], alias);
    FlightsAfter(t, a);
  }

  lemma ThreeSteps(t: Tables, a: Action, b: Action, c: Action, t1: Tables, t2: Tables)
    requires t1 == Next(t, a) && t2 == Next(t1, b)
    ensures Run(t, [a, b, c]) == Next(t2, c)
  {
    assert [a, b, c][1..] == [b, c] && [b, c][1..] == [c] && [c][1..] == [];
    assert Run(t2, [c]) == Next(t2, c);
    assert Run(t1, [b, c]) == Run(t2, [c]);
  }

  // --- as written ---

  /** The email is there at every moment of a run. */
  ghost predicate ThereThroughout(t: Tables, acts: seq<Action>, e: string)
    decreases acts
  {
    e in t.emails && (acts != [] ==> ThereThroughout(Next(t, acts[0]), acts[1..], e))
  }

  /** Nothing rewrites a message: over every run, as long as it is there, an email keeps its content, its user, its
      thread and its direction. */
  lemma {:induction false} MailStaysAsWritten(t: Tables, acts: seq<Action>, e: string)
    requires RefsOk(t) && AllFresh(t, acts) && ThereThroughout(t, acts, e)
    ensures e in Run(t, acts).emails && Run(t, acts).emails[e] == t.emails[e].(status := Run(t, acts).emails[e].status)
    decreases acts
  {
    if acts != [] {
      StepKeepsRefs(t, acts[0]);
      EmailRows(t, acts[0], e);
      MailStaysAsWritten(Next(t, acts[0]), acts[1..], e);
    }
  }

  // --- giving up ---

  /** One attempt after the other, each of them failing for the moment. */
  function Failures(j: string, flights: seq<string>, newDraft: string): seq<Action> {
    if flights == [] then []
    else
      [Claim(j, flights[0]), Finish(flights[0], Outcome.Failed(false, newDraft))] + Failures(j, flights[1..], newDraft)
  }

  /** A job after some failures in a row: the count, and whether the worker goes on. */
  predicate HasFailed(t: Tables, j: string, row: JobRow, times: nat) {
    && j in t.jobs
    && t.jobs[j] == row.(status := if row.retryCount + times >= 5 then JobFailed else Pending,
                         retryCount := row.retryCount + times)
  }

  /** Claimed, and failed for the moment: `mid` is the state in between. */
  lemma OneFailure(t: Tables, mid: Tables, r: Tables, j: string, f: string, newDraft: string)
    requires RefsOk(t) && MayTake(t, j) && t.jobs[j].status == Pending && f !in t.flights && newDraft !in t.drafts
    requires mid == Next(t, Claim(j, f)) && r == Next(mid, Finish(f, Outcome.Failed(false, newDraft)))
    ensures newDraft !in mid.drafts && RefsOk(r) && HasFailed(r, j, t.jobs[j], 1)
    ensures forall g :: g in r.flights ==> g in t.flights
    ensures t.jobs[j].retryCount + 1 < 5 ==> r.drafts == t.drafts && r.emails == t.emails
    ensures t.jobs[j].retryCount + 1 >= 5 ==> forall e :: t.jobs[j].email == Some(e) ==>
      e in r.emails && r.emails[e].status == EmailFailed
  {
    ClaimReads(t, j, f);
    StepKeepsRefs(t, Claim(j, f));
    FlightFails(mid, r, f, j, newDraft);
    SameButStatus(r, j, mid.jobs[j], t.jobs[j]);
  }

  /** A flight fails for the moment. */
  lemma FlightFails(t: Tables, r: Tables, f: string, j: string, newDraft: string)
    requires RefsOk(t) && j in t.jobs && f in t.flights && newDraft !in t.drafts
    requires t.flights[f].job == j && t.flights[f].retryCount == t.jobs[j].retryCount
    requires r == Next(t, Finish(f, Outcome.Failed(false, newDraft)))
    ensures RefsOk(r) && r.flights == t.flights - {f} && HasFailed(r, j, t.jobs[j], 1)
    ensures t.jobs[j].retryCount + 1 < 5 ==> r.drafts == t.drafts && r.emails == t.emails
    ensures t.jobs[j].retryCount + 1 >= 5 ==> forall e :: t.jobs[j].email == Some(e) ==>
      e in r.emails && r.emails[e].status == EmailFailed
  {
    var fail := Finish(f, Outcome.Failed(false, newDraft));
    StepKeepsRefs(t, fail);
    JobRows(t, fail, j);
    FlightsAfter(t, fail);
    FailureLeaves(t, f, newDraft);
    assert JobOk(t, t.jobs[j]);
    if t.jobs[j].email.Some? { EmailRows(t, fail, t.jobs[j].email.value); }
  }

  lemma SameButStatus(r: Tables, j: string, a: JobRow, b: JobRow)
    requires a.(status := b.status) == b
    ensures HasFailed(r, j, a, 1) <==> HasFailed(r, j, b, 1)
  {
  }

  lemma FailureLeaves(t: Tables, f: string, newDraft: string)
    requires f in t.flights && t.flights[f].job in t.jobs
    ensures t.flights[f].retryCount + 1 < 5 ==>
      var r := Next(t, Finish(f, Outcome.Failed(false, newDraft))); r.drafts == t.drafts && r.emails == t.emails
  {
  }

  lemma StepTwo(t: Tables, a: Action, b: Action, rest: seq<Action>)
    requires Fresh(t, a) && Fresh(Next(t, a), b) && AllFresh(Next(Next(t, a), b), rest)
    ensures AllFresh(t, [a, b] + rest) && Run(t, [a, b] + rest) == Run(Next(Next(t, a), b), rest)
  {
    assert ([a, b] + rest)[1..] == [b] + rest && ([b] + rest)[1..] == rest;
  }

  lemma {:induction false} FailuresCount(t: Tables, j: string, flights: seq<string>, newDraft: string, e: string)
    requires RefsOk(t) && j in t.jobs && t.jobs[j].status == Pending && t.jobs[j].retryCount + |flights| <= 5
    requires t.jobs[j].retryCount < 5 && t.jobs[j].email == Some(e) && e in t.emails
    requires NewFlights(t, flights) && newDraft !in t.drafts
    ensures AllFresh(t, Failures(j, flights, newDraft))
    ensures var r := Run(t, Failures(j, flights, newDraft));
      && HasFailed(r, j, t.jobs[j], |flights|) && e in r.emails
      && r.emails[e].status == if t.jobs[j].retryCount + |flights| == 5 then EmailFailed else t.emails[e].status
    decreases flights
  {
    if flights != [] {
      var claim, fail := Claim(j, flights[0]), Finish(flights[0], Outcome.Failed(false, newDraft));
      var mid := Next(t, claim);
      var r := Next(mid, fail);
      OneFailure(t, mid, r, j, flights[0], newDraft);
      if |flights| == 1 {
        assert Failures(j, flights[1..], newDraft) == [];
      } else {
        assert forall f :: f in flights[1..] ==> f in flights;
        FailuresCount(r, j, flights[1..], newDraft, e);
      }
      StepTwo(t, claim, fail, Failures(j, flights[1..], newDraft));
    }
  }

  /** Five attempts. Of every accepted send the worker makes up to five attempts that fail for the moment, and no more:
      until the fifth the job goes back to pending and the email stays as it was, with the fifth both have failed. */
  lemma FiveAttempts(t: Tables, send: Action, flights: seq<string>, newDraft: string)
    requires RefsOk(t) && Fresh(t, send) && IsSend(send) && MaySend(t, send) && |flights| <= 5
    requires NewFlights(Next(t, send), flights) && newDraft !in Next(t, send).drafts
    ensures var e, j := send.ids.email, send.ids.job;
      var sent := Next(t, send);
      var r := Run(sent, Failures(j, flights, newDraft));
      && j in r.jobs && r.jobs[j].retryCount == |flights|
      && (MayTake(r, j) <==> |flights| < 5)
      && e in r.emails && e in sent.emails
      && r.emails[e].status == if |flights| == 5 then EmailFailed else sent.emails[e].status
  {
    SendMakes(t, send);
    SendIsPending(t, send);
    FailuresCount(Next(t, send), send.ids.job, flights, newDraft, send.ids.email);
  }

  lemma SendIsPending(t: Tables, send: Action)
    requires IsSend(send) && MaySend(t, send)
    ensures var r := Next(t, send);
      send.ids.job in r.jobs && r.jobs[send.ids.job].status == Pending && r.jobs[send.ids.job].retryCount == 0
  {
    if send.SendDirect? {
      DirectHands(t, send.user, send.replyTo, send.content, send.ids);
    } else {
      DraftHands(t, send.user, send.draft, send.scheduledAt, send.now, send.ids);
    }
  }
}
