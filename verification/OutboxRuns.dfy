/** Runs of the outbox: what all interleavings of requests and worker steps keep and conserve. */
module OutboxRuns {
  import opened Wrappers
  import opened Labels
  import opened Outbox
  import opened OutboxRefs

  ghost function Run(t: Tables, acts: seq<Action>): Tables
    decreases acts
  {
    if acts == [] then t else Run(Next(t, acts[0]), acts[1..])
  }

  ghost predicate AllFresh(t: Tables, acts: seq<Action>)
    decreases acts
  {
    acts != [] ==> Fresh(t, acts[0]) && AllFresh(Next(t, acts[0]), acts[1..])
  }

  lemma {:induction false} RunKeepsRefs(t: Tables, acts: seq<Action>)
    requires RefsOk(t) && AllFresh(t, acts)
    ensures RefsOk(Run(t, acts))
    decreases acts
  {
    if acts != [] {
      StepKeepsRefs(t, acts[0]);
      RunKeepsRefs(Next(t, acts[0]), acts[1..]);
    }
  }

  // --- the ledger of one job ---

  /** What happens to one job: how often it is created, claimed, cancelled, refused, put back, and sent. */
  datatype Ledger = Ledger(created: nat, claims: nat, cancels: nat, refusals: nat, requeues: nat, sends: nat)

  function Plus(a: Ledger, b: Ledger): Ledger {
    Ledger(a.created + b.created, a.claims + b.claims, a.cancels + b.cancels,
           a.refusals + b.refusals, a.requeues + b.requeues, a.sends + b.sends)
  }

  function One(b: bool): nat {
    if b then 1 else 0
  }

  predicate Taken(t: Tables, j: string) {
    j in t.jobs && !ShouldSkip(t.jobs[j])
  }

  ghost predicate Cancels(t: Tables, a: Action, j: string) {
    match a
    case CancelSend(user, e, _) =>
      CancelSendReply(t, user, e) == Accepted && Newest(t, JobsOfEmail(t, e)) == Some(j)
    case CancelSchedule(user, d) =>
      CancelScheduleReply(t, user, d) == Accepted && Newest(t, ScheduledJobsOf(t, d)) == Some(j)
    case _ => false
  }

  ghost predicate Requeues(t: Tables, a: Action, j: string) {
    match a
    case Retry(user, admin, e) =>
      RetryReply(t, user, admin, e) == Accepted && Newest(t, JobsOfEmail(t, e)) == Some(j)
    case Finish(flight, Failed(permanent, _)) =>
      flight in t.flights && t.flights[flight].job == j && !GivesUp(t.flights[flight], permanent)
    case RecoverStale(job) =>
      job == j && j in t.jobs && t.jobs[j].status == Running && t.jobs[j].retryCount < MAX_RETRIES
    case _ => false
  }

  ghost function Entry(t: Tables, a: Action, j: string): Ledger {
    Ledger(
      One(j !in t.jobs && j in Next(t, a).jobs),
      One(a.Claim? && a.job == j && Taken(t, j)),
      One(Cancels(t, a, j)),
      One(a.Refuse? && a.job == j && Taken(t, j)),
      One(Requeues(t, a, j)),
      One(a.Finish? && a.outcome.Sent? && a.flight in t.flights && t.flights[a.flight].job == j))
  }

  ghost function LedgerOf(t: Tables, acts: seq<Action>, j: string): Ledger
    decreases acts
  {
    if acts == [] then Ledger(0, 0, 0, 0, 0, 0)
    else Plus(Entry(t, acts[0], j), LedgerOf(Next(t, acts[0]), acts[1..], j))
  }

  predicate IsPending(t: Tables, j: string) {
    j in t.jobs && t.jobs[j].status == Pending
  }

  /** The claims of a job that are not finished. */
  function Held(t: Tables, j: string): set<string> {
    HeldIn(t.flights, j)
  }

  function HeldIn(flights: map<string, Flight>, j: string): set<string> {
    set f | f in flights && flights[f].job == j
  }

  /** The worker finds the job it takes up pending. The code does not check: it skips only completed,
      cancelled and used-up jobs. */
  predicate Proper(t: Tables, a: Action) {
    match a
    case Claim(j, _) => Taken(t, j) ==> IsPending(t, j)
    case Refuse(j) => Taken(t, j) ==> IsPending(t, j)
    case _ => true
  }

  ghost predicate AllProper(t: Tables, acts: seq<Action>)
    decreases acts
  {
    acts != [] ==> Proper(t, acts[0]) && AllProper(Next(t, acts[0]), acts[1..])
  }

  /** The job a request or a worker step writes to, apart from the one it creates. */
  ghost predicate Touches(t: Tables, a: Action, j: string) {
    match a
    case Retry(_, _, e) => Newest(t, JobsOfEmail(t, e)) == Some(j)
    case CancelSend(_, _, _) => Cancels(t, a, j)
    case CancelSchedule(_, _) => Cancels(t, a, j)
    case Claim(job, _) => job == j
    case Refuse(job) => job == j
    case Finish(flight, _) => flight in t.flights && t.flights[flight].job == j
    case RecoverStale(job) => job == j
    case Release(job) => job == j
    case _ => false
  }

  lemma Untouched(t: Tables, a: Action, j: string)
    requires RefsOk(t) && Fresh(t, a) && j in t.jobs && !Touches(t, a, j)
    ensures j in Next(t, a).jobs && Next(t, a).jobs[j] == t.jobs[j]
  {
    match a
    case CancelSend(_, _, _) => CancelTouchesOne(t, a, j);
    case CancelSchedule(_, _) => CancelTouchesOne(t, a, j);
    case Finish(_, _) => FinishTouchesOne(t, a, j);
    case Retry(_, _, e) => NewestIsOneOf(t, JobsOfEmail(t, e));
    case _ => OthersTouchOne(t, a, j);
  }

  lemma CancelTouchesOne(t: Tables, a: Action, j: string)
    requires RefsOk(t) && Fresh(t, a) && j in t.jobs && !Cancels(t, a, j) && (a.CancelSend? || a.CancelSchedule?)
    ensures j in Next(t, a).jobs && Next(t, a).jobs[j] == t.jobs[j]
  {
    match a
    case CancelSend(user, e, newDraft) =>
      NewestIsOneOf(t, JobsOfEmail(t, e));
      if CancelSendReply(t, user, e) == Accepted {
        UndoneKeepsRefs(t, e, Newest(t, JobsOfEmail(t, e)).value, newDraft);
      }
    case CancelSchedule(user, d) =>
      NewestIsOneOf(t, ScheduledJobsOf(t, d));
      if CancelScheduleReply(t, user, d) == Accepted {
        UnscheduledKeepsRefs(t, d, Newest(t, ScheduledJobsOf(t, d)).value);
      }
  }

  lemma FinishTouchesOne(t: Tables, a: Action, j: string)
    requires j in t.jobs && !Touches(t, a, j) && a.Finish?
    ensures j in Next(t, a).jobs && Next(t, a).jobs[j] == t.jobs[j]
  {
    if a.flight in t.flights && t.flights[a.flight].job in t.jobs {
      var landed := t.(flights := t.flights - {a.flight});
      match a.outcome
      case Sent(alias) => assert SentOut(landed, t.flights[a.flight], alias).jobs[j] == t.jobs[j];
      case Failed(p, d) => assert FailedOut(landed, t.flights[a.flight], p, d).jobs[j] == t.jobs[j];
      case Panicked =>
    }
  }

  lemma OthersTouchOne(t: Tables, a: Action, j: string)
    requires Fresh(t, a) && j in t.jobs && !Touches(t, a, j)
    requires !a.CancelSend? && !a.CancelSchedule? && !a.Finish? && !a.Retry?
    ensures j in Next(t, a).jobs && Next(t, a).jobs[j] == t.jobs[j]
  {
    match a
    case SendDirect(_, _, _, _) => SendLeavesJobs(t, a, j);
    case SendDraft(_, _, _, _, _) => SendLeavesJobs(t, a, j);
    case Claim(_, _) => ClaimTouchesOne(t, a, j);
    case Refuse(_) => ClaimTouchesOne(t, a, j);
    case RecoverStale(_) => SchedulerTouchesOne(t, a, j);
    case Release(_) => SchedulerTouchesOne(t, a, j);
    case _ => OthersLeaveJobs(t, a);
  }

  lemma SendLeavesJobs(t: Tables, a: Action, j: string)
    requires Fresh(t, a) && j in t.jobs && (a.SendDirect? || a.SendDraft?)
    ensures j in Next(t, a).jobs && Next(t, a).jobs[j] == t.jobs[j]
  {
  }

  lemma ClaimTouchesOne(t: Tables, a: Action, j: string)
    requires j !in t.jobs || !Touches(t, a, j)
    requires a.Claim? || a.Refuse?
    ensures j in Next(t, a).jobs <==> j in t.jobs
    ensures j in t.jobs ==> Next(t, a).jobs[j] == t.jobs[j]
  {
  }

  lemma SchedulerTouchesOne(t: Tables, a: Action, j: string)
    requires j !in t.jobs || !Touches(t, a, j)
    requires a.RecoverStale? || a.Release?
    ensures j in Next(t, a).jobs <==> j in t.jobs
    ensures j in t.jobs ==> Next(t, a).jobs[j] == t.jobs[j]
  {
  }

  /** These steps write to no job and no flight. */
  lemma OthersLeaveJobs(t: Tables, a: Action)
    requires a.Reconcile? || a.Bounce? || a.SaveDraft? || a.DropDraft? || a.Inbound?
    ensures Next(t, a).jobs == t.jobs && Next(t, a).flights == t.flights
  {
  }

  /** Only the worker opens and closes flights. */
  lemma FlightsAfter(t: Tables, a: Action)
    ensures a.Claim? ==>
      Next(t, a).flights == if Taken(t, a.job) then t.flights[a.flight := FlightOf(t, a.job)] else t.flights
    ensures a.Finish? ==>
      Next(t, a).flights ==
        if a.flight in t.flights && t.flights[a.flight].job in t.jobs then t.flights - {a.flight} else t.flights
    ensures !a.Claim? && !a.Finish? ==> Next(t, a).flights == t.flights
  {
    match a
    case CancelSend(_, _, _) => CancelKeepsFlights(t, a);
    case CancelSchedule(_, _) => CancelKeepsFlights(t, a);
    case Finish(flight, outcome) => FinishCloses(t, flight, outcome);
    case Claim(_, _) =>
    case Retry(_, _, _) =>
    case _ => OthersKeepFlights(t, a);
  }

  lemma OthersKeepFlights(t: Tables, a: Action)
    requires !a.Claim? && !a.Finish? && !a.CancelSend? && !a.CancelSchedule? && !a.Retry?
    ensures Next(t, a).flights == t.flights
  {
    match a
    case SendDirect(_, _, _, _) => SendKeepsFlights(t, a);
    case SendDraft(_, _, _, _, _) => SendKeepsFlights(t, a);
    case Refuse(_) => SchedulerKeepsFlights(t, a);
    case RecoverStale(_) => SchedulerKeepsFlights(t, a);
    case Release(_) => SchedulerKeepsFlights(t, a);
    case _ => OthersLeaveJobs(t, a);
  }

  lemma SchedulerKeepsFlights(t: Tables, a: Action)
    requires a.Refuse? || a.RecoverStale? || a.Release?
    ensures Next(t, a).flights == t.flights
  {
  }

  lemma SendKeepsFlights(t: Tables, a: Action)
    requires a.SendDirect? || a.SendDraft?
    ensures Next(t, a).flights == t.flights
  {
  }

  lemma FinishCloses(t: Tables, flight: string, outcome: Outcome)
    ensures Next(t, Finish(flight, outcome)).flights ==
      if flight in t.flights && t.flights[flight].job in t.jobs then t.flights - {flight} else t.flights
  {
    if flight in t.flights && t.flights[flight].job in t.jobs {
      var f, landed := t.flights[flight], t.(flights := t.flights - {flight});
      match outcome
      case Sent(alias) => assert SentOut(landed, f, alias).flights == landed.flights;
      case Failed(permanent, newDraft) => assert FailedOut(landed, f, permanent, newDraft).flights == landed.flights;
      case Panicked =>
    }
  }

  lemma CancelKeepsFlights(t: Tables, a: Action)
    requires a.CancelSend? || a.CancelSchedule?
    ensures Next(t, a).flights == t.flights
  {
    if a.CancelSend? {
      var j := Newest(t, JobsOfEmail(t, a.email));
      NewestIsOneOf(t, JobsOfEmail(t, a.email));
      if CancelSendReply(t, a.user, a.email) == Accepted { UndoneKeepsFlights(t, a.email, j.value, a.newDraft); }
    } else {
      var j := Newest(t, ScheduledJobsOf(t, a.draft));
      NewestIsOneOf(t, ScheduledJobsOf(t, a.draft));
      if CancelScheduleReply(t, a.user, a.draft) == Accepted { UnscheduledKeepsFlights(t, a.draft, j.value); }
    }
  }

  lemma UndoneKeepsFlights(t: Tables, e: string, j: string, newDraft: string)
    requires e in t.emails && j in t.jobs
    ensures Undone(t, e, j, newDraft).flights == t.flights
  {
    var gated := WithJobStatus(t, j, Cancelled);
    var kept := if t.jobs[j].draft.Some? then gated
                else gated.(drafts := gated.drafts[newDraft := RecoveryDraft(t.emails[e])]);
    EmptyThreadKeepsFlights(WithoutEmail(kept, e), t.emails[e].thread);
  }

  lemma EmptyThreadKeepsFlights(t: Tables, th: string)
    ensures WithoutEmptyThread(t, th).flights == t.flights
  {
  }

  lemma UnscheduledKeepsFlights(t: Tables, draft: string, j: string)
    requires draft in t.drafts && j in t.jobs
    ensures Unscheduled(t, draft, j).flights == t.flights
  {
  }

  /** Jobs are never deleted. */
  lemma JobsStay(t: Tables, a: Action)
    requires RefsOk(t) && Fresh(t, a)
    ensures forall j :: j in t.jobs ==> j in Next(t, a).jobs
  {
    forall j | j in t.jobs
      ensures j in Next(t, a).jobs
    {
      if !Touches(t, a, j) {
        Untouched(t, a, j);
      } else if Cancels(t, a, j) {
        CancelledRow(t, a, j);
      } else {
        TouchedStays(t, a, j);
      }
    }
  }

  lemma TouchedStays(t: Tables, a: Action, j: string)
    requires j in t.jobs && Touches(t, a, j) && !Cancels(t, a, j)
    ensures j in Next(t, a).jobs
  {
    match a
    case Finish(flight, outcome) => FinishBalances(t, flight, outcome, j);
    case Retry(_, _, e) => NewestIsOneOf(t, JobsOfEmail(t, e));
    case _ =>
  }

  /** A cancelled job keeps its row. */
  lemma CancelledRow(t: Tables, a: Action, j: string)
    requires RefsOk(t) && Fresh(t, a) && Cancels(t, a, j)
    ensures j in t.jobs && IsPending(t, j) && j in Next(t, a).jobs && Next(t, a).jobs[j] == Detached(t.jobs[j])
  {
    match a
    case CancelSend(user, e, newDraft) =>
      NewestIsOneOf(t, JobsOfEmail(t, e));
      UndoneKeepsRefs(t, e, j, newDraft);
    case CancelSchedule(user, d) =>
      NewestIsOneOf(t, ScheduledJobsOf(t, d));
      UnscheduledKeepsRefs(t, d, j);
  }

  lemma CreatedPending(t: Tables, a: Action, j: string)
    requires RefsOk(t) && Fresh(t, a) && j !in t.jobs
    ensures j in Next(t, a).jobs ==> IsPending(Next(t, a), j)
    ensures !Cancels(t, a, j) && !(a.Claim? && a.job == j && Taken(t, j))
  {
    match a
    case CancelSend(_, _, _) => CancelCreatesNone(t, a, j);
    case CancelSchedule(_, _) => CancelCreatesNone(t, a, j);
    case Retry(_, _, e) => RetryCreatesNone(t, a, j);
    case SendDirect(_, _, _, _) => SendCreatesPending(t, a, j);
    case SendDraft(_, _, _, _, _) => SendCreatesPending(t, a, j);
    case Finish(_, _) => FinishCreatesNone(t, a, j);
    case Claim(_, _) => ClaimTouchesOne(t, a, j);
    case Refuse(_) => ClaimTouchesOne(t, a, j);
    case RecoverStale(_) => SchedulerTouchesOne(t, a, j);
    case Release(_) => SchedulerTouchesOne(t, a, j);
    case _ => OthersLeaveJobs(t, a);
  }

  lemma SendCreatesPending(t: Tables, a: Action, j: string)
    requires j !in t.jobs && (a.SendDirect? || a.SendDraft?)
    ensures j in Next(t, a).jobs ==> IsPending(Next(t, a), j)
  {
  }

  lemma FinishCreatesNone(t: Tables, a: Action, j: string)
    requires j !in t.jobs && a.Finish?
    ensures j !in Next(t, a).jobs
  {
  }

  lemma RetryCreatesNone(t: Tables, a: Action, j: string)
    requires j !in t.jobs && a.Retry?
    ensures j !in Next(t, a).jobs
  {
    NewestIsOneOf(t, JobsOfEmail(t, a.email));
  }

  lemma CancelCreatesNone(t: Tables, a: Action, j: string)
    requires RefsOk(t) && Fresh(t, a) && j !in t.jobs && (a.CancelSend? || a.CancelSchedule?)
    ensures j !in Next(t, a).jobs && !Cancels(t, a, j)
  {
    match a
    case CancelSend(user, e, newDraft) =>
      NewestIsOneOf(t, JobsOfEmail(t, e));
      if CancelSendReply(t, user, e) == Accepted {
        UndoneKeepsRefs(t, e, Newest(t, JobsOfEmail(t, e)).value, newDraft);
      }
    case CancelSchedule(user, d) =>
      NewestIsOneOf(t, ScheduledJobsOf(t, d));
      if CancelScheduleReply(t, user, d) == Accepted {
        UnscheduledKeepsRefs(t, d, Newest(t, ScheduledJobsOf(t, d)).value);
      }
  }

  /** One step spends no more than the job had pending, was created, or was put back. */
  ghost predicate Balances(t: Tables, a: Action, j: string) {
    var e := Entry(t, a, j);
    e.claims + e.cancels + e.refusals + One(IsPending(Next(t, a), j)) <= One(IsPending(t, j)) + e.created + e.requeues
  }

  /** One step: what leaves the pending state was there, and what enters it was put there. */
  lemma EntryBalances(t: Tables, a: Action, j: string)
    requires RefsOk(t) && Fresh(t, a) && Proper(t, a)
    ensures Balances(t, a, j)
    ensures j in t.jobs ==> j in Next(t, a).jobs
  {
    if j !in t.jobs {
      CreatedPending(t, a, j);
    } else if !Touches(t, a, j) {
      Untouched(t, a, j);
    } else if Cancels(t, a, j) {
      CancelledRow(t, a, j);
    } else {
      WorkerBalances(t, a, j);
    }
  }

  /** The steps of the worker, and a retry, on the job they write to. */
  lemma WorkerBalances(t: Tables, a: Action, j: string)
    requires Proper(t, a) && j in t.jobs && Touches(t, a, j) && !Cancels(t, a, j)
    ensures j in Next(t, a).jobs
    ensures IsPending(Next(t, a), j) ==> IsPending(t, j) || Requeues(t, a, j)
    ensures (a.Claim? || a.Refuse?) && Taken(t, j) ==> IsPending(t, j) && !IsPending(Next(t, a), j)
  {
    match a
    case Finish(flight, outcome) => FinishBalances(t, flight, outcome, j);
    case Retry(_, _, e) => NewestIsOneOf(t, JobsOfEmail(t, e));
    case _ =>
  }

  lemma FinishBalances(t: Tables, flight: string, outcome: Outcome, j: string)
    requires j in t.jobs && flight in t.flights && t.flights[flight].job == j
    ensures j in Next(t, Finish(flight, outcome)).jobs
    ensures IsPending(Next(t, Finish(flight, outcome)), j) ==> Requeues(t, Finish(flight, outcome), j)
  {
    var f, landed := t.flights[flight], t.(flights := t.flights - {flight});
    match outcome
    case Sent(alias) => assert SentOut(landed, f, alias).jobs[j].status == Completed;
    case Failed(permanent, newDraft) =>
      assert FailedOut(landed, f, permanent, newDraft).jobs[j].status
        == if GivesUp(f, permanent) then JobFailed else Pending;
    case Panicked =>
  }

  lemma HeldOpened(flights: map<string, Flight>, f: string, row: Flight, j: string)
    requires f !in flights
    ensures |HeldIn(flights[f := row], j)| == |HeldIn(flights, j)| + One(row.job == j)
  {
    assert HeldIn(flights[f := row], j) == if row.job == j then HeldIn(flights, j) + {f} else HeldIn(flights, j);
  }

  lemma HeldClosed(flights: map<string, Flight>, f: string, j: string)
    requires f in flights
    ensures |HeldIn(flights - {f}, j)| == |HeldIn(flights, j)| - One(flights[f].job == j)
  {
    HeldOpened(flights - {f}, f, flights[f], j);
    assert (flights - {f})[f := flights[f]] == flights;
  }

  /** Claims and unfinished claims: every send belongs to a claim. */
  lemma EntryHolds(t: Tables, a: Action, j: string)
    requires Fresh(t, a) && FlightsOk(t)
    ensures var e := Entry(t, a, j); e.sends + |Held(Next(t, a), j)| <= e.claims + |Held(t, j)|
  {
    FlightsAfter(t, a);
    if a.Claim? {
      if Taken(t, a.job) { HeldOpened(t.flights, a.flight, FlightOf(t, a.job), j); }
    } else if a.Finish? {
      if a.flight in t.flights { HeldClosed(t.flights, a.flight, j); }
    }
  }

  lemma FlightsStayOk(t: Tables, a: Action)
    requires RefsOk(t) && Fresh(t, a) && FlightsOk(t)
    ensures FlightsOk(Next(t, a))
  {
    FlightsAfter(t, a);
    JobsStay(t, a);
  }

  ghost predicate FlightsOk(t: Tables) {
    forall f :: f in t.flights ==> t.flights[f].job in t.jobs
  }

  lemma {:induction false} LedgerBalances(t: Tables, acts: seq<Action>, j: string)
    requires RefsOk(t) && AllFresh(t, acts) && AllProper(t, acts)
    ensures var l := LedgerOf(t, acts, j);
      && l.claims + l.cancels + l.refusals + One(IsPending(Run(t, acts), j))
         <= One(IsPending(t, j)) + l.created + l.requeues
      && l.created <= One(j !in t.jobs)
    decreases acts
  {
    if acts != [] {
      EntryBalances(t, acts[0], j);
      StepKeepsRefs(t, acts[0]);
      LedgerBalances(Next(t, acts[0]), acts[1..], j);
    }
  }

  lemma {:induction false} SendsAreClaims(t: Tables, acts: seq<Action>, j: string)
    requires RefsOk(t) && AllFresh(t, acts) && FlightsOk(t)
    ensures var l := LedgerOf(t, acts, j); l.sends + |Held(Run(t, acts), j)| <= l.claims + |Held(t, j)|
    decreases acts
  {
    if acts != [] {
      EntryHolds(t, acts[0], j);
      FlightsStayOk(t, acts[0]);
      StepKeepsRefs(t, acts[0]);
      SendsAreClaims(Next(t, acts[0]), acts[1..], j);
    }
  }

  /** Send-count conservation. For every job that a run creates, over every interleaving of requests and of a
      worker that takes up pending jobs only: claims, cancellations and refusals, and one more if the job is
      still pending, are at most one more than the times it was put back. No send happens without a claim.
      `BalancesIff` and `SendsAreUnbounded` say what becomes of other runs. */
  lemma SendsAreConserved(t: Tables, acts: seq<Action>, j: string)
    requires RefsOk(t) && FlightsOk(t) && AllFresh(t, acts) && AllProper(t, acts) && j !in t.jobs
    ensures var l := LedgerOf(t, acts, j);
      && l.claims + l.cancels + l.refusals + One(IsPending(Run(t, acts), j)) <= 1 + l.requeues
      && l.sends <= l.claims
  {
    LedgerBalances(t, acts, j);
    SendsAreClaims(t, acts, j);
    assert Held(t, j) == {};
  }

  // --- cancelled for good ---

  ghost predicate IsCancelled(t: Tables, j: string) {
    j in t.jobs && t.jobs[j].status == Cancelled && Held(t, j) == {}
  }

  lemma StepKeepsCancelled(t: Tables, a: Action, j: string)
    requires RefsOk(t) && Fresh(t, a) && IsCancelled(t, j)
    ensures IsCancelled(Next(t, a), j)
    ensures var e := Entry(t, a, j); e.claims == 0 && e.sends == 0 && e.requeues == 0 && e.cancels == 0
  {
    assert JobOk(t, t.jobs[j]);
    if a.Retry? { NewestIsOneOf(t, JobsOfEmail(t, a.email)); }
    if a.CancelSend? { NewestIsOneOf(t, JobsOfEmail(t, a.email)); }
    if a.CancelSchedule? { NewestIsOneOf(t, ScheduledJobsOf(t, a.draft)); }
    if a.Finish? && a.flight in t.flights { assert a.flight !in Held(t, j); }
    if !Touches(t, a, j) { Untouched(t, a, j); }
    HeldStaysEmpty(t, a, j);
  }

  lemma HeldStaysEmpty(t: Tables, a: Action, j: string)
    requires Held(t, j) == {} && !Taken(t, j)
    ensures Held(Next(t, a), j) == {}
  {
    FlightsAfter(t, a);
    forall f | f in Next(t, a).flights
      ensures Next(t, a).flights[f].job != j
    {
      if f in t.flights { assert f !in Held(t, j); }
    }
  }

  /** A cancelled job that no worker holds is never claimed, put back or sent again, whatever happens: its
      email is gone, so a retry cannot reach it. */
  lemma {:induction false} CancelledForGood(t: Tables, acts: seq<Action>, j: string)
    requires RefsOk(t) && AllFresh(t, acts) && IsCancelled(t, j)
    ensures IsCancelled(Run(t, acts), j)
    ensures var l := LedgerOf(t, acts, j); l.claims == 0 && l.sends == 0 && l.requeues == 0
    decreases acts
  {
    if acts != [] {
      StepKeepsCancelled(t, acts[0], j);
      StepKeepsRefs(t, acts[0]);
      CancelledForGood(Next(t, acts[0]), acts[1..], j);
    }
  }

  // --- calm runs ---

  /** A held job is running, and held once. */
  ghost predicate Calm(t: Tables) {
    && (forall f :: f in t.flights ==> t.flights[f].job in t.jobs && t.jobs[t.flights[f].job].status == Running)
    && (forall f, g :: f in t.flights && g in t.flights && t.flights[f].job == t.flights[g].job ==> f == g)
  }

  /** Nothing puts back a job that a worker holds. */
  ghost predicate Gentle(t: Tables, a: Action) {
    Proper(t, a) && ((a.Retry? || a.RecoverStale?) ==> forall j :: Touches(t, a, j) ==> Held(t, j) == {})
  }

  ghost predicate AllGentle(t: Tables, acts: seq<Action>)
    decreases acts
  {
    acts != [] ==> Gentle(t, acts[0]) && AllGentle(Next(t, acts[0]), acts[1..])
  }

  lemma HeldIsRunning(t: Tables, a: Action, f: string)
    requires RefsOk(t) && Fresh(t, a) && Gentle(t, a) && Calm(t) && f in Next(t, a).flights
    ensures var j := Next(t, a).flights[f].job;
      j in Next(t, a).jobs && Next(t, a).jobs[j].status == Running
      && (f in t.flights ==> t.flights[f].job == j)
      && (f !in t.flights ==> a.Claim? && a.job == j && IsPending(t, j))
  {
    FlightsAfter(t, a);
    if f in t.flights {
      var j := t.flights[f].job;
      assert f in Held(t, j);
      if Touches(t, a, j) {
        if Cancels(t, a, j) { CancelledRow(t, a, j); }
      } else {
        Untouched(t, a, j);
      }
    }
  }

  lemma StepKeepsCalm(t: Tables, a: Action)
    requires RefsOk(t) && Fresh(t, a) && Gentle(t, a) && Calm(t)
    ensures Calm(Next(t, a))
  {
    var r := Next(t, a);
    forall f | f in r.flights
      ensures r.flights[f].job in r.jobs && r.jobs[r.flights[f].job].status == Running
    {
      HeldIsRunning(t, a, f);
    }
    forall f, g | f in r.flights && g in r.flights && r.flights[f].job == r.flights[g].job
      ensures f == g
    {
      HeldIsRunning(t, a, f);
      HeldIsRunning(t, a, g);
    }
  }

  /** Over every run in which nothing puts back a job that a worker holds, a held job is running and held once. */
  lemma {:induction false} RunKeepsCalm(t: Tables, acts: seq<Action>)
    requires RefsOk(t) && Calm(t) && AllFresh(t, acts) && AllGentle(t, acts)
    ensures RefsOk(Run(t, acts)) && Calm(Run(t, acts))
    decreases acts
  {
    if acts != [] {
      StepKeepsRefs(t, acts[0]);
      StepKeepsCalm(t, acts[0]);
      RunKeepsCalm(Next(t, acts[0]), acts[1..]);
    }
  }

  // --- when an undo is final ---

  /** However the run goes on, the job is not sent again. */
  ghost predicate NeverSent(t: Tables, j: string) {
    forall acts :: AllFresh(t, acts) ==> LedgerOf(t, acts, j).sends == 0
  }

  /** An accepted undo, or cancelled schedule, is final exactly when no worker holds the job at that moment. */
  lemma UndoIsFinalIff(t: Tables, a: Action, j: string)
    requires RefsOk(t) && Fresh(t, a) && Cancels(t, a, j)
    ensures NeverSent(Next(t, a), j) <==> Held(t, j) == {}
  {
    var undone := Next(t, a);
    CancelledRow(t, a, j);
    CancelKeepsFlights(t, a);
    StepKeepsRefs(t, a);
    if Held(t, j) == {} {
      assert IsCancelled(undone, j);
      forall acts | AllFresh(undone, acts)
        ensures LedgerOf(undone, acts, j).sends == 0
      {
        CancelledForGood(undone, acts, j);
      }
    } else {
      var f :| f in Held(t, j);
      HeldCanBeSent(undone, f, j);
    }
  }

  lemma HeldCanBeSent(t: Tables, f: string, j: string)
    requires f in Held(t, j) && j in t.jobs
    ensures !NeverSent(t, j)
  {
    HeldAreAllSent(t, j, [f]);
    SomeRunSends(t, j, Sends([f]));
  }

  lemma SomeRunSends(t: Tables, j: string, acts: seq<Action>)
    requires AllFresh(t, acts) && LedgerOf(t, acts, j).sends > 0
    ensures !NeverSent(t, j)
  {
  }

  /** So an undo after a run that puts back no held job is final. */
  lemma GentleRunUndoIsFinal(t: Tables, acts: seq<Action>, a: Action, j: string)
    requires RefsOk(t) && Calm(t)
    ensures AllFresh(t, acts) && AllGentle(t, acts) && Fresh(Run(t, acts), a) && Cancels(Run(t, acts), a, j) ==>
      NeverSent(Next(Run(t, acts), a), j)
  {
    if AllFresh(t, acts) && AllGentle(t, acts) && Fresh(Run(t, acts), a) && Cancels(Run(t, acts), a, j) {
      RunKeepsCalm(t, acts);
      CancelledRow(Run(t, acts), a, j);
      UndoIsFinalIff(Run(t, acts), a, j);
    }
  }

  // --- what the skip test lets through ---

  /** A step keeps the balance of every job exactly when the worker's claim, or refusal, finds its job pending. */
  lemma BalancesIff(t: Tables, a: Action)
    requires RefsOk(t) && Fresh(t, a)
    ensures (forall j :: Balances(t, a, j)) <==> Proper(t, a)
  {
    if Proper(t, a) {
      forall j: string ensures Balances(t, a, j) { EntryBalances(t, a, j); }
    } else {
      ImproperUnbalances(t, a);
    }
  }

  lemma ImproperUnbalances(t: Tables, a: Action)
    requires !Proper(t, a)
    ensures !Balances(t, a, a.job)
  {
  }

  /** Claims of one job, and then sends of all of them. */
  function Claims(j: string, flights: seq<string>): seq<Action> {
    if flights == [] then [] else [Claim(j, flights[0])] + Claims(j, flights[1..])
  }

  function Sends(flights: seq<string>): seq<Action> {
    if flights == [] then [] else [Finish(flights[0], Outcome.Sent(None))] + Sends(flights[1..])
  }

  ghost predicate NewFlights(t: Tables, flights: seq<string>) {
    && (forall i :: 0 <= i < |flights| ==> flights[i] !in t.flights)
    && (forall i, k :: 0 <= i < k < |flights| ==> flights[i] != flights[k])
  }

  ghost predicate HoldsAll(t: Tables, j: string, flights: seq<string>) {
    && (forall i :: 0 <= i < |flights| ==> flights[i] in Held(t, j))
    && (forall i, k :: 0 <= i < k < |flights| ==> flights[i] != flights[k])
  }

  lemma LedgerOfMore(t: Tables, a: Action, rest: seq<Action>, j: string)
    ensures LedgerOf(t, [a] + rest, j) == Plus(Entry(t, a, j), LedgerOf(Next(t, a), rest, j))
    ensures AllFresh(t, [a] + rest) <==> Fresh(t, a) && AllFresh(Next(t, a), rest)
    ensures Run(t, [a] + rest) == Run(Next(t, a), rest)
  {
    assert ([a] + rest)[1..] == rest;
  }

  lemma PlusAssociates(a: Ledger, b: Ledger, c: Ledger)
    ensures Plus(Plus(a, b), c) == Plus(a, Plus(b, c))
    ensures Plus(Ledger(0, 0, 0, 0, 0, 0), c) == c
  {
  }

  lemma {:induction false} FreshBoth(t: Tables, a: seq<Action>, b: seq<Action>)
    ensures AllFresh(t, a + b) <==> AllFresh(t, a) && AllFresh(Run(t, a), b)
    decreases a
  {
    if a == [] {
      assert a + b == b;
    } else {
      assert (a + b)[1..] == a[1..] + b;
      FreshBoth(Next(t, a[0]), a[1..], b);
    }
  }

  lemma {:induction false} LedgerOfBoth(t: Tables, a: seq<Action>, b: seq<Action>, j: string)
    ensures LedgerOf(t, a + b, j) == Plus(LedgerOf(t, a, j), LedgerOf(Run(t, a), b, j))
    decreases a
  {
    if a == [] {
      assert a + b == b;
      PlusAssociates(LedgerOf(t, a, j), LedgerOf(t, a, j), LedgerOf(t, b, j));
    } else {
      assert (a + b)[1..] == a[1..] + b;
      LedgerOfBoth(Next(t, a[0]), a[1..], b, j);
      PlusAssociates(Entry(t, a[0], j), LedgerOf(Next(t, a[0]), a[1..], j), LedgerOf(Run(t, a), b, j));
    }
  }

  lemma OneMoreClaim(t: Tables, j: string, f: string)
    requires Taken(t, j) && f !in t.flights
    ensures var r := Next(t, Claim(j, f));
      && Taken(r, j) && r.flights == t.flights[f := FlightOf(t, j)]
      && Entry(t, Claim(j, f), j) == Ledger(0, 1, 0, 0, 0, 0)
  {
  }

  lemma OneMoreSend(t: Tables, j: string, f: string)
    requires f in Held(t, j) && j in t.jobs
    ensures var r := Next(t, Finish(f, Outcome.Sent(None)));
      && j in r.jobs && r.flights == t.flights - {f}
      && Entry(t, Finish(f, Outcome.Sent(None)), j) == Ledger(0, 0, 0, 0, 0, 1)
  {
    FinishCloses(t, f, Outcome.Sent(None));
  }

  lemma OneMoreHeld(t: Tables, j: string, f: string, held: seq<string>)
    requires Taken(t, j) && f !in t.flights && HoldsAll(t, j, held)
    ensures HoldsAll(Next(t, Claim(j, f)), j, held + [f])
  {
    var r := Next(t, Claim(j, f));
    OneMoreClaim(t, j, f);
    assert f in Held(r, j);
    forall i | 0 <= i < |held|
      ensures held[i] in Held(r, j) && held[i] != f
    {
      assert held[i] in Held(t, j);
    }
  }

  lemma OneLessHeld(t: Tables, j: string, flights: seq<string>)
    requires j in t.jobs && flights != [] && HoldsAll(t, j, flights)
    ensures HoldsAll(Next(t, Finish(flights[0], Outcome.Sent(None))), j, flights[1..])
    ensures j in Next(t, Finish(flights[0], Outcome.Sent(None))).jobs
  {
    var r, rest := Next(t, Finish(flights[0], Outcome.Sent(None))), flights[1..];
    OneMoreSend(t, j, flights[0]);
    forall i | 0 <= i < |rest|
      ensures rest[i] in Held(r, j)
    {
      assert rest[i] == flights[i + 1] && flights[i + 1] in Held(t, j);
    }
  }

  lemma {:induction false} ClaimsAreLetThrough(t: Tables, j: string, flights: seq<string>, held: seq<string>)
    requires Taken(t, j) && NewFlights(t, flights) && HoldsAll(t, j, held)
    ensures var r := Run(t, Claims(j, flights));
      j in r.jobs && AllFresh(t, Claims(j, flights)) && HoldsAll(r, j, held + flights)
    ensures LedgerOf(t, Claims(j, flights), j) == Ledger(0, |flights|, 0, 0, 0, 0)
    decreases flights
  {
    if flights == [] {
      assert held + flights == held;
    } else {
      var f, rest := flights[0], flights[1..];
      OneMoreClaim(t, j, f);
      LedgerOfMore(t, Claim(j, f), Claims(j, rest), j);
      OneMoreHeld(t, j, f, held);
      ClaimsAreLetThrough(Next(t, Claim(j, f)), j, rest, held + [f]);
      assert held + [f] + rest == held + flights;
    }
  }

  lemma {:induction false} HeldAreAllSent(t: Tables, j: string, flights: seq<string>)
    requires j in t.jobs && HoldsAll(t, j, flights)
    ensures AllFresh(t, Sends(flights)) && LedgerOf(t, Sends(flights), j) == Ledger(0, 0, 0, 0, 0, |flights|)
    decreases flights
  {
    if flights != [] {
      assert flights[0] in Held(t, j);
      OneLessHeld(t, j, flights);
      HeldAreAllSent(Next(t, Finish(flights[0], Outcome.Sent(None))), j, flights[1..]);
      OneMoreSend(t, j, flights[0]);
      StepFirst(t, Finish(flights[0], Outcome.Sent(None)), Sends(flights[1..]), j,
                Ledger(0, 0, 0, 0, 0, 1), Ledger(0, 0, 0, 0, 0, |flights| - 1));
    }
  }

  lemma StepFirst(t: Tables, a: Action, rest: seq<Action>, j: string, first: Ledger, others: Ledger)
    requires Fresh(t, a) && AllFresh(Next(t, a), rest)
    requires Entry(t, a, j) == first && LedgerOf(Next(t, a), rest, j) == others
    ensures AllFresh(t, [a] + rest) && LedgerOf(t, [a] + rest, j) == Plus(first, others)
    ensures Run(t, [a] + rest) == Run(Next(t, a), rest)
  {
    LedgerOfMore(t, a, rest, j);
  }

  /** Nothing bounds the claims: from every state with a job the skip test lets through, a pending one say, and
      for every number, some run claims and sends the job that many times with nothing put back. */
  lemma SendsAreUnbounded(t: Tables, j: string, flights: seq<string>)
    requires Taken(t, j) && NewFlights(t, flights)
    ensures var acts := Claims(j, flights) + Sends(flights);
      AllFresh(t, acts) && LedgerOf(t, acts, j) == Ledger(0, |flights|, 0, 0, 0, |flights|)
  {
    var claims := Claims(j, flights);
    ClaimsFromNone(t, j, flights, claims);
    HeldAreAllSent(Run(t, claims), j, flights);
    OneThenOther(t, claims, Sends(flights), j, Ledger(0, |flights|, 0, 0, 0, 0), Ledger(0, 0, 0, 0, 0, |flights|));
  }

  lemma ClaimsFromNone(t: Tables, j: string, flights: seq<string>, claims: seq<Action>)
    requires Taken(t, j) && NewFlights(t, flights) && claims == Claims(j, flights)
    ensures var r := Run(t, claims); j in r.jobs && AllFresh(t, claims) && HoldsAll(r, j, flights)
    ensures LedgerOf(t, claims, j) == Ledger(0, |flights|, 0, 0, 0, 0)
  {
    ClaimsAreLetThrough(t, j, flights, []);
    assert [] + flights == flights;
  }

  lemma OneThenOther(t: Tables, a: seq<Action>, b: seq<Action>, j: string, x: Ledger, y: Ledger)
    requires AllFresh(t, a) && LedgerOf(t, a, j) == x
    requires AllFresh(Run(t, a), b) && LedgerOf(Run(t, a), b, j) == y
    ensures AllFresh(t, a + b)
    ensures LedgerOf(t, a + b, j) == Plus(x, y)
  {
    var all := a + b;
    assert AllFresh(t, all) by { FreshBoth(t, a, b); }
    assert LedgerOf(t, all, j) == Plus(x, y) by { LedgerOfBoth(t, a, b, j); }
  }
}
