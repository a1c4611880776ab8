/** Scheduled sends: when one can leave before its time, and what the undo of one leaves behind. */
module OutboxSchedules {
  import opened Wrappers
  import opened Labels
  import opened Outbox
  import opened OutboxRefs
  import opened OutboxRuns
  import opened OutboxUndo

  // --- leaving early ---

  /** A job with a time set, which no worker holds. The scheduler takes the time off once it is due. */
  predicate Waits(t: Tables, j: string) {
    j in t.jobs && t.jobs[j].runAfter.Some? && Held(t, j) == {}
  }

  /** The jobs a worker takes along when it takes up a job: every other pending one, whatever its time. */
  function BatchOf(t: Tables, lead: string): set<string> {
    set j | j in t.jobs && j != lead && t.jobs[j].status == Pending
  }

  predicate IsDelivered(t: Tables, e: string) {
    e in t.emails && t.emails[e].status == Delivered
  }

  /** A scheduled send leaves early with any other job. From every state, a worker that takes up another job takes the
      scheduled one along, and the mail is delivered and its draft deleted with the time still set. */
  lemma ScheduledLeavesEarly(t: Tables, j: string, lead: string, f: string, g: string)
    requires IsPending(t, j) && Waits(t, j) && Taken(t, lead) && lead != j
    requires f !in t.flights && g !in t.flights && f != g
    ensures var acts := [Claim(lead, f), Claim(j, g), Finish(g, Outcome.Sent(None))];
      var end := Run(t, acts);
      && j in BatchOf(Next(t, Claim(lead, f)), lead)
      && AllFresh(t, acts) && LedgerOf(t, acts, j).sends == 1
      && j in end.jobs && end.jobs[j] == t.jobs[j].(status := Completed)
      && (t.jobs[j].email.Some? && t.jobs[j].email.value in t.emails ==> IsDelivered(end, t.jobs[j].email.value))
      && (forall d :: t.jobs[j].draft == Some(d) ==> d !in end.drafts)
  {
    var t1 := Next(t, Claim(lead, f));
    var t2 := Next(t1, Claim(j, g));
    var t3 := Next(t2, Finish(g, Outcome.Sent(None)));
    LeadTaken(t, j, lead, f);
    OneMoreClaim(t1, j, g);
    assert t2 == Claimed(t1, j, g) && FlightOf(t1, j) == FlightOf(t, j);
    DeliversEarly(t2, j, g);
    TwoSteps(t1, Claim(j, g), Finish(g, Outcome.Sent(None)), j, t2, t3);
    OneThenTwo(t, Claim(lead, f), Claim(j, g), Finish(g, Outcome.Sent(None)), j, t1, t3);
  }

  lemma OneThenTwo(t: Tables, a: Action, b: Action, c: Action, j: string, t1: Tables, r: Tables)
    requires Leads(t, a, j, NOTHING, t1) && RunLeads(t1, [b] + [c], j, Ledger(0, 1, 0, 0, 0, 1), r)
    ensures RunLeads(t, [a, b, c], j, Ledger(0, 1, 0, 0, 0, 1), r)
  {
    FirstStep(t, a, [b] + [c], j, NOTHING, Ledger(0, 1, 0, 0, 0, 1), t1, r);
    InARow(a, b, c);
  }

  lemma TwoSteps(t: Tables, a: Action, b: Action, j: string, t1: Tables, t2: Tables)
    requires Leads(t, a, j, Ledger(0, 1, 0, 0, 0, 0), t1) && Leads(t1, b, j, Ledger(0, 0, 0, 0, 0, 1), t2)
    ensures RunLeads(t, [a] + [b], j, Ledger(0, 1, 0, 0, 0, 1), t2)
  {
    LastStep(t1, b, j, Ledger(0, 0, 0, 0, 0, 1), t2);
    FirstStep(t, a, [b], j, Ledger(0, 1, 0, 0, 0, 0), Ledger(0, 0, 0, 0, 0, 1), t1, t2);
  }

  lemma LastStep(t: Tables, a: Action, j: string, x: Ledger, r: Tables)
    requires Leads(t, a, j, x, r)
    ensures RunLeads(t, [a], j, x, r)
  {
    NoStep(r, j);
    FirstStep(t, a, [], j, x, NOTHING, r, r);
    OneThenNothing(a, x);
  }

  lemma OneThenNothing(a: Action, x: Ledger)
    ensures [a] + [] == [a] && Plus(x, NOTHING) == x
  {
  }

  lemma InARow(a: Action, b: Action, c: Action)
    ensures [a] + ([b] + [c]) == [a, b, c]
  {
  }

  lemma LeadTaken(t: Tables, j: string, lead: string, f: string)
    requires IsPending(t, j) && Taken(t, lead) && lead != j && f !in t.flights
    ensures var t1 := Next(t, Claim(lead, f));
      && j in t1.jobs && t1.jobs[j] == t.jobs[j] && t1.emails == t.emails && t1.drafts == t.drafts
      && t1.flights == t.flights[f := FlightOf(t, lead)]
      && Entry(t, Claim(lead, f), j) == NOTHING
  {
  }

  lemma DeliversEarly(t: Tables, j: string, g: string)
    requires j in t.jobs && g in t.flights && t.flights[g] == FlightOf(t, j)
    ensures var end := Next(t, Finish(g, Outcome.Sent(None)));
      && end.jobs == t.jobs[j := t.jobs[j].(status := Completed)]
      && (t.jobs[j].email.Some? && t.jobs[j].email.value in t.emails ==> IsDelivered(end, t.jobs[j].email.value))
      && (forall d :: t.jobs[j].draft == Some(d) ==> d !in end.drafts)
      && Entry(t, Finish(g, Outcome.Sent(None)), j) == Ledger(0, 0, 0, 0, 0, 1)
  {
  }

  const NOTHING := Ledger(0, 0, 0, 0, 0, 0)

  /** One step, from a state to the next. */
  ghost predicate Leads(t: Tables, a: Action, j: string, entry: Ledger, r: Tables) {
    Fresh(t, a) && Next(t, a) == r && Entry(t, a, j) == entry
  }

  ghost predicate RunLeads(t: Tables, acts: seq<Action>, j: string, ledger: Ledger, r: Tables) {
    AllFresh(t, acts) && Run(t, acts) == r && LedgerOf(t, acts, j) == ledger
  }

  lemma NoStep(t: Tables, j: string)
    ensures RunLeads(t, [], j, NOTHING, t)
  {
  }

  lemma FirstStep(t: Tables, a: Action, rest: seq<Action>, j: string, x: Ledger, y: Ledger, t1: Tables, r: Tables)
    requires Leads(t, a, j, x, t1) && RunLeads(t1, rest, j, y, r)
    ensures RunLeads(t, [a] + rest, j, Plus(x, y), r)
  {
    StepFirst(t, a, rest, j, x, y);
  }

  /** A worker takes the job up although its time is still set. */
  predicate JumpsQueue(t: Tables, a: Action, j: string) {
    a.Claim? && a.job == j && Taken(t, j) && t.jobs[j].runAfter.Some?
  }

  ghost predicate NoneJumps(t: Tables, acts: seq<Action>, j: string)
    decreases acts
  {
    acts != [] ==> !JumpsQueue(t, acts[0], j) && NoneJumps(Next(t, acts[0]), acts[1..], j)
  }

  lemma StepWaits(t: Tables, a: Action, j: string)
    requires RefsOk(t) && Fresh(t, a) && Waits(t, j) && a != Release(j) && !JumpsQueue(t, a, j)
    ensures Waits(Next(t, a), j)
    ensures Entry(t, a, j).claims == 0 && Entry(t, a, j).sends == 0
  {
    if a.Finish? && a.flight in t.flights { assert a.flight !in Held(t, j); }
    StillUnheld(t, a, j);
    if !Touches(t, a, j) {
      Untouched(t, a, j);
    } else if Cancels(t, a, j) {
      CancelledRow(t, a, j);
    } else {
      TouchedWaits(t, a, j);
    }
  }

  lemma StillUnheld(t: Tables, a: Action, j: string)
    requires Held(t, j) == {} && !(a.Claim? && a.job == j && Taken(t, j))
    ensures Held(Next(t, a), j) == {}
  {
    FlightsAfter(t, a);
    forall f | f in Next(t, a).flights
      ensures Next(t, a).flights[f].job != j
    {
      if f in t.flights { assert f !in Held(t, j); }
    }
  }

  lemma TouchedWaits(t: Tables, a: Action, j: string)
    requires Waits(t, j) && Touches(t, a, j) && !Cancels(t, a, j) && a != Release(j) && !a.Finish?
    ensures j in Next(t, a).jobs && Next(t, a).jobs[j].runAfter == t.jobs[j].runAfter
  {
    if a.Retry? { NewestIsOneOf(t, JobsOfEmail(t, a.email)); }
  }

  /** When it cannot happen. Over every run in which the scheduler does not release a waiting job, no worker takes it up
      exactly when none jumps the queue; and then it is not sent and goes on waiting. */
  lemma {:induction false} WaitsForItsTimeIff(t: Tables, acts: seq<Action>, j: string)
    requires RefsOk(t) && AllFresh(t, acts) && Waits(t, j) && Release(j) !in acts
    ensures LedgerOf(t, acts, j).claims == 0 <==> NoneJumps(t, acts, j)
    ensures NoneJumps(t, acts, j) ==> LedgerOf(t, acts, j).sends == 0 && Waits(Run(t, acts), j)
    decreases acts
  {
    if acts != [] {
      assert acts[0] in acts;
      if !JumpsQueue(t, acts[0], j) {
        StepWaits(t, acts[0], j);
        StepKeepsRefs(t, acts[0]);
        WaitsForItsTimeIff(Next(t, acts[0]), acts[1..], j);
      }
    }
  }

  // --- undoing a scheduled send as if it were a plain one ---

  /** An undo and a cancelled schedule differ in the draft only. */
  lemma UndoOfScheduled(t: Tables, draft: string, e: string, j: string, newDraft: string)
    requires draft in t.drafts && e in t.emails && j in t.jobs
    requires t.jobs[j].email == Some(e) && t.jobs[j].draft == Some(draft)
    ensures var undone, cancelled := Undone(t, e, j, newDraft), Unscheduled(t, draft, j);
      undone.drafts == t.drafts && undone == cancelled.(drafts := t.drafts)
  {
    UndoneDrafts(t, e, j, newDraft);
  }

  /** The same tables, except that one draft is marked for a time in one and not in the other. */
  predicate DifferInMark(marked: Tables, unmarked: Tables, draft: string, at: int) {
    && draft in unmarked.drafts && unmarked.drafts[draft].scheduledAt == None
    && marked == unmarked.(drafts := unmarked.drafts[draft := unmarked.drafts[draft].(scheduledAt := Some(at))])
  }

  /** The undo also accepts a scheduled email, and leaves all as a cancelled schedule would, but for the draft: that
      stays marked as scheduled, with no job behind the mark, and cancelling the schedule is refused from then on. */
  lemma ScheduleThenUndo(
    t: Tables, user: string, draft: string, at: int, now: int, ids: NewIds, newDraft: string)
    requires RefsOk(t) && FreshIds(t, ids) && SendDraftReply(t, user, draft, Some(at), now) == Accepted
    ensures var sent := Next(t, SendDraft(user, draft, Some(at), now, ids));
      var undone := Next(sent, CancelSend(user, ids.email, newDraft));
      var cancelled := Next(sent, CancelSchedule(user, draft));
      && CancelSendReply(sent, user, ids.email) == Accepted
      && DifferInMark(undone, cancelled, draft, at)
      && CancelScheduleReply(undone, user, draft) == Conflict
  {
    var sent := AfterSendDraft(t, user, draft, Some(at), ids);
    UndoGateOpen(t, user, draft, at, ids, sent);
    ScheduleGateOpen(t, user, draft, at, ids);
    UndoLeavesMark(t, user, draft, at, ids, newDraft, sent);
    StepsTaken(t, user, draft, at, now, ids, newDraft, sent);
  }

  lemma StepsTaken(
    t: Tables, user: string, draft: string, at: int, now: int, ids: NewIds, newDraft: string, sent: Tables)
    requires SendDraftReply(t, user, draft, Some(at), now) == Accepted
    requires sent == AfterSendDraft(t, user, draft, Some(at), ids) && CancelSendReply(sent, user, ids.email) == Accepted
    requires Newest(sent, JobsOfEmail(sent, ids.email)) == Some(ids.job)
    requires CancelScheduleReply(sent, user, draft) == Accepted
    requires Newest(sent, ScheduledJobsOf(sent, draft)) == Some(ids.job) && ids.job in sent.jobs
    ensures Next(t, SendDraft(user, draft, Some(at), now, ids)) == sent
    ensures Next(sent, CancelSend(user, ids.email, newDraft)) == Undone(sent, ids.email, ids.job, newDraft)
    ensures Next(sent, CancelSchedule(user, draft)) == Unscheduled(sent, draft, ids.job)
  {
    UndoTaken(sent, user, ids.email, ids.job, newDraft);
    CancelTaken(sent, user, draft, ids.job);
  }

  lemma UndoTaken(t: Tables, user: string, e: string, j: string, newDraft: string)
    requires CancelSendReply(t, user, e) == Accepted && Newest(t, JobsOfEmail(t, e)) == Some(j)
    ensures Next(t, CancelSend(user, e, newDraft)) == Undone(t, e, j, newDraft)
  {
  }

  lemma CancelTaken(t: Tables, user: string, draft: string, j: string)
    requires CancelScheduleReply(t, user, draft) == Accepted && Newest(t, ScheduledJobsOf(t, draft)) == Some(j)
    requires j in t.jobs
    ensures Next(t, CancelSchedule(user, draft)) == Unscheduled(t, draft, j)
  {
  }

  lemma UndoLeavesMark(
    t: Tables, user: string, draft: string, at: int, ids: NewIds, newDraft: string, sent: Tables)
    requires RefsOk(t) && FreshIds(t, ids) && draft in t.drafts && t.drafts[draft].user == user
    requires !SendingDraft(t, draft)
    requires sent == AfterSendDraft(t, user, draft, Some(at), ids)
    requires ids.email in sent.emails && ids.job in sent.jobs && draft in sent.drafts
    requires sent.jobs[ids.job].email == Some(ids.email) && sent.jobs[ids.job].draft == Some(draft)
    requires sent.drafts == t.drafts[draft := t.drafts[draft].(scheduledAt := Some(at))]
    ensures var undone := Undone(sent, ids.email, ids.job, newDraft);
      var cancelled := Unscheduled(sent, draft, ids.job);
      DifferInMark(undone, cancelled, draft, at) && CancelScheduleReply(undone, user, draft) == Conflict
  {
    ScheduleUndone(t, user, draft, at, ids);
    UndoOfScheduled(sent, draft, ids.email, ids.job, newDraft);
    NothingScheduled(t, user, draft, at, ids, Undone(sent, ids.email, ids.job, newDraft));
    Unmarked(Unscheduled(sent, draft, ids.job), sent, t, draft, at);
  }

  lemma UndoGateOpen(t: Tables, user: string, draft: string, at: int, ids: NewIds, sent: Tables)
    requires RefsOk(t) && FreshIds(t, ids) && draft in t.drafts && t.drafts[draft].user == user
    requires sent == AfterSendDraft(t, user, draft, Some(at), ids)
    ensures RefsOk(sent) && CancelSendReply(sent, user, ids.email) == Accepted
    ensures Newest(sent, JobsOfEmail(sent, ids.email)) == Some(ids.job)
    ensures ids.email in sent.emails && ids.job in sent.jobs && draft in sent.drafts
    ensures sent.jobs[ids.job].email == Some(ids.email) && sent.jobs[ids.job].draft == Some(draft)
    ensures sent.drafts == t.drafts[draft := t.drafts[draft].(scheduledAt := Some(at))]
  {
    ScheduledRefs(t, user, draft, at, ids);
    JobOfEmail(sent, ids.email, ids.job);
  }

  /** The two drafts tables differ in the mark. */
  lemma Unmarked(cancelled: Tables, sent: Tables, t: Tables, draft: string, at: int)
    requires draft in t.drafts && sent.drafts == t.drafts[draft := t.drafts[draft].(scheduledAt := Some(at))]
    requires cancelled.drafts == t.drafts[draft := t.drafts[draft].(scheduledAt := None)]
    ensures sent.drafts == cancelled.drafts[draft := t.drafts[draft].(scheduledAt := Some(at))]
  {
  }

  lemma ScheduledRefs(t: Tables, user: string, draft: string, at: int, ids: NewIds)
    requires RefsOk(t) && FreshIds(t, ids) && draft in t.drafts
    ensures RefsOk(AfterSendDraft(t, user, draft, Some(at), ids))
  {
    var d := t.drafts[draft];
    InsertKeepsRefs(t, user, d.thread, d.content, EmailStatus.Scheduled, Some(draft), Some(at), ids);
    AddDraftKeepsRefs(Insert(t, user, d.thread, d.content, EmailStatus.Scheduled, Some(draft), Some(at), ids),
                      draft, d.(scheduledAt := Some(at)));
  }

  lemma NothingScheduled(t: Tables, user: string, draft: string, at: int, ids: NewIds, undone: Tables)
    requires !SendingDraft(t, draft) && undone.jobs == t.jobs[ids.job := CancelledJob(t, Some(draft), Some(at))]
    requires draft in undone.drafts && undone.drafts[draft].user == user
    ensures CancelScheduleReply(undone, user, draft) == Conflict
  {
    assert ScheduledJobsOf(undone, draft) == {};
    NewestOfNone(undone);
  }
}
