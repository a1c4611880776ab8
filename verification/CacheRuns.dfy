/** Runs: any interleaving of delivered events and optimistic edits. */
module CacheRuns {
  import opened Wrappers
  import opened Labels
  import opened ThreadLists
  import opened ThreadCache
  import opened CacheInvariants
  import opened CacheSteps
  import opened UnreadBadge
  import opened ListOrder
  import opened ListViews
  import opened Optimistic

  /** One change of the cache: an event from the socket, or an edit the user just made. */
  datatype Move = Deliver(event: Event) | Edited(edit: Edit)

  function Next(c: Cache, m: Move): Cache {
    match m
    case Deliver(e) => Step(c, e)
    case Edited(o) => Apply(c, o)
  }

  function RunMoves(c: Cache, ms: seq<Move>): Cache
    decreases ms
  {
    if ms == [] then c else RunMoves(Next(c, ms[0]), ms[1..])
  }

  /** What each move relies on, in the state it meets. An edit relies on nothing. */
  ghost predicate MoveOk(c: Cache, m: Move, d: string) {
    match m
    case Deliver(e) => WellFormed(c.lists, e, d) && KeepsContribution(c.lists, e)
    case Edited(_) => true
  }

  ghost predicate RunOk(c: Cache, ms: seq<Move>, d: string)
    decreases ms
  {
    ms != [] ==> MoveOk(c, ms[0], d) && RunOk(Next(c, ms[0]), ms[1..], d)
  }

  /** The changes a run asks of the badge, added up with no clamp. */
  function TotalDelta(c: Cache, ms: seq<Move>, d: string): int
    decreases ms
  {
    if ms == [] then 0
    else
      (match ms[0]
       case Deliver(e) => BadgeDelta(c, e, d)
       case Edited(o) => EditBadgeDelta(c, o, d))
      + TotalDelta(Next(c, ms[0]), ms[1..], d)
  }

  /** The badge invariant. After every run of events and optimistic edits, the badge is the sum of the unread
      counts in the inbox list; and it is the starting badge plus every change asked for, so no clamp at zero
      ever fired. */
  lemma {:induction false} RunKeepsBadge(c: Cache, ms: seq<Move>, d: string)
    requires CacheOk(c.lists, d) && BadgeOk(c, d) && HasInbox(c.lists) && RunOk(c, ms, d)
    ensures CacheOk(RunMoves(c, ms).lists, d) && BadgeOk(RunMoves(c, ms), d) && HasInbox(RunMoves(c, ms).lists)
    ensures Badge(RunMoves(c, ms).counts, d) == Badge(c.counts, d) + TotalDelta(c, ms, d)
    decreases ms
  {
    if ms != [] {
      MoveKeepsBadge(c, ms[0], d);
      RunKeepsBadge(Next(c, ms[0]), ms[1..], d);
    }
  }

  lemma MoveKeepsBadge(c: Cache, m: Move, d: string)
    requires CacheOk(c.lists, d) && BadgeOk(c, d) && HasInbox(c.lists) && MoveOk(c, m, d)
    ensures CacheOk(Next(c, m).lists, d) && BadgeOk(Next(c, m), d) && HasInbox(Next(c, m).lists)
    ensures Badge(Next(c, m).counts, d) == Badge(c.counts, d)
              + match m case Deliver(e) => BadgeDelta(c, e, d) case Edited(o) => EditBadgeDelta(c, o, d)
  {
    match m
    case Edited(o) => EditKeepsBadge(c, o, d);
    case Deliver(e) =>
      var i :| 0 <= i < |c.lists| && c.lists[i].view == Inbox;
      StepKeepsCache(c, e, d);
      StepKeepsBadge(c, e, d);
      StepBadge(c, e, d);
      assert Step(c, e).lists[i].view == Inbox;
  }

  /** The list invariant over a run of events: lists stay distinct and in one domain, copies agree, an inbox shows
      exactly the eligible threads, and each list's `total - length` never changes. */
  lemma {:induction false} EventsKeepLists(c: Cache, es: seq<Event>, d: string)
    requires CacheOk(c.lists, d) && EventsOk(c, es, d)
    requires forall i :: 0 <= i < |c.lists| ==> c.lists[i].total >= |c.lists[i].threads|
    ensures CacheOk(RunEvents(c, es).lists, d) && |RunEvents(c, es).lists| == |c.lists|
    ensures forall i :: 0 <= i < |c.lists| ==> Slack(RunEvents(c, es).lists[i]) == Slack(c.lists[i])
    decreases es
  {
    if es != [] {
      StepKeepsCache(c, es[0], d);
      assert forall i :: 0 <= i < |c.lists| ==>
        Mirrors(c.lists, es[0], c.lists[i], Step(c, es[0]).lists[i], d);
      EventsKeepLists(Step(c, es[0]), es[1..], d);
    }
  }

  /** How many threads of a list are not cached. */
  function Slack(l: ThreadList): int {
    l.total - |l.threads|
  }

  function RunEvents(c: Cache, es: seq<Event>): Cache
    decreases es
  {
    if es == [] then c else RunEvents(Step(c, es[0]), es[1..])
  }

  ghost predicate EventsOk(c: Cache, es: seq<Event>, d: string)
    decreases es
  {
    es != [] ==> WellFormed(c.lists, es[0], d) && EventsOk(Step(c, es[0]), es[1..], d)
  }

  /** The payload of a star event has the event's id. */
  predicate OwnId(e: Event) {
    e.StarEvent? && e.thread.Some? ==> e.thread.value.id == e.threadId
  }

  /** Each event of a run keeps list `i` in view, as far as one can tell before the event. */
  ghost predicate ViewKept(c: Cache, es: seq<Event>, i: nat)
    requires i < |c.lists|
    decreases es
  {
    es != [] ==> KeepsView(c.lists[i], es[0]) && ViewKept(Step(c, es[0]), es[1..], i)
  }

  /** List `i` shows only what belongs there, at every moment of a run. */
  ghost predicate InViewThroughout(c: Cache, es: seq<Event>, i: nat)
    requires i < |c.lists|
    decreases es
  {
    InView(c.lists[i]) && (es != [] ==> InViewThroughout(Step(c, es[0]), es[1..], i))
  }

  /** Over every run of events, of any payloads, a list shows only what belongs there exactly as long as no star or
      mute event relabels an entry so that it does not. */
  lemma {:induction false} EventsKeepViewIff(c: Cache, es: seq<Event>, i: nat)
    requires i < |c.lists| && InView(c.lists[i]) && forall e :: e in es ==> OwnId(e)
    ensures InViewThroughout(c, es, i) <==> ViewKept(c, es, i)
    decreases es
  {
    if es != [] {
      assert es[0] in es;
      StepKeepsViewIff(c.lists, es[0], c.lists[i]);
      if KeepsView(c.lists[i], es[0]) { EventsKeepViewIff(Step(c, es[0]), es[1..], i); }
    }
  }

  /** No moved payload of the run changes the time of a copy in list `i`. */
  ghost predicate TimeKept(c: Cache, es: seq<Event>, i: nat)
    requires i < |c.lists|
    decreases es
  {
    es != [] ==> KeepsTime(c.lists[i], es[0]) && TimeKept(Step(c, es[0]), es[1..], i)
  }

  /** And as long as that is so, the list stays newest first. */
  lemma {:induction false} EventsKeepOrder(c: Cache, es: seq<Event>, i: nat)
    requires i < |c.lists| && InViewThroughout(c, es, i) && TimeKept(c, es, i) && NewestFirst(c.lists[i].threads)
    ensures |RunEvents(c, es).lists| == |c.lists| && NewestFirst(RunEvents(c, es).lists[i].threads)
    decreases es
  {
    if es != [] {
      StepKeepsOrder(c.lists, es[0], c.lists[i]);
      EventsKeepOrder(Step(c, es[0]), es[1..], i);
    }
  }
}
