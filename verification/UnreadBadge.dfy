/** The unread badge is an index of the inbox list: every event changes both by the same amount. */
module UnreadBadge {
  import opened Wrappers
  import opened Labels
  import opened ThreadLists
  import opened ThreadCache
  import opened CacheInvariants
  import opened CacheSteps

  /** The badge of the domain is the sum of the unread counts in its inbox list. */
  ghost predicate BadgeOk(c: Cache, d: string) {
    forall i :: 0 <= i < |c.lists| && c.lists[i].view == Inbox
      ==> Badge(c.counts, d) == SumUnread(c.lists[i].threads)
  }

  ghost predicate HasInbox(lists: seq<ThreadList>) {
    exists i :: 0 <= i < |lists| && lists[i].view == Inbox
  }

  /** What an event changes in total: new contribution less old, over the threads it names. */
  function NetChange(lists: seq<ThreadList>, e: Event, ids: seq<string>): int {
    if ids == [] then 0
    else
      var last := |ids| - 1;
      NetChange(lists, e, ids[..last])
      + Contribution(NewCopy(lists, e, ids[last])) - Contribution(FindCached(lists, ids[last]))
  }

  /** A sent event leaves the badge alone; the reducer relies on its payload contributing what the cached
      copy did. */
  predicate KeepsContribution(lists: seq<ThreadList>, e: Event) {
    e.EmailEvent? && !e.received && e.thread.Some? ==>
      Contribution(e.thread) == Contribution(FindCached(lists, e.threadId))
  }

  // --- the sum of the inbox list ---

  lemma ListedContribution(lists: seq<ThreadList>, i: nat, d: string, id: string)
    requires CacheOk(lists, d) && i < |lists| && lists[i].view == Inbox
    ensures UnreadOf(lists[i].threads, id) == Contribution(FindCached(lists, id))
  {
    ListedIsFound(lists, i);
    if WasEligible(lists, id) { InboxHolds(lists, i, d, id); }
  }

  lemma MirroredContribution(lists: seq<ThreadList>, e: Event, l: ThreadList, r: ThreadList, d: string, id: string)
    requires Mirrors(lists, e, l, r, d) && l.view == Inbox
    ensures UnreadOf(r.threads, id) == Contribution(NewCopy(lists, e, id))
  {
    var listed := FindIn(r.threads, id);
    assert Shown(lists, e, id) ==> Holds(r, id);
    if listed.Some? { assert IsCopy(NewCopy(lists, e, id), listed.value); }
  }

  lemma {:induction false} NetChangeIsSumOver(
    lists: seq<ThreadList>, e: Event, before: seq<Thread>, after: seq<Thread>, ids: seq<string>)
    requires forall id :: id in ids ==> UnreadOf(before, id) == Contribution(FindCached(lists, id))
    requires forall id :: id in ids ==> UnreadOf(after, id) == Contribution(NewCopy(lists, e, id))
    ensures NetChange(lists, e, ids) == SumOver(ids, after) - SumOver(ids, before)
  {
    if ids != [] {
      var last := |ids| - 1;
      NetChangeIsSumOver(lists, e, before, after, ids[..last]);
      assert ids == ids[..last] + [ids[last]];
      SumOverAppend(ids[..last], [ids[last]], before);
      SumOverAppend(ids[..last], [ids[last]], after);
    }
  }

  /** An inbox list's sum changes by exactly the net change of the named threads. */
  lemma InboxSumChange(c: Cache, e: Event, d: string, i: nat)
    requires CacheOk(c.lists, d) && WellFormed(c.lists, e, d) && i < |c.lists| && c.lists[i].view == Inbox
    ensures SumUnread(Step(c, e).lists[i].threads) - SumUnread(c.lists[i].threads)
         == NetChange(c.lists, e, Once(Named(e)))
  {
    var before, after := c.lists[i].threads, Step(c, e).lists[i].threads;
    StepKeepsCache(c, e, d);
    assert Mirrors(c.lists, e, c.lists[i], Step(c, e).lists[i], d);
    forall id: string
      ensures UnreadOf(before, id) == Contribution(FindCached(c.lists, id))
      ensures UnreadOf(after, id) == Contribution(NewCopy(c.lists, e, id))
    {
      ListedContribution(c.lists, i, d, id);
      MirroredContribution(c.lists, e, c.lists[i], Step(c, e).lists[i], d, id);
    }
    SumDifference(before, after, Once(Named(e)));
    NetChangeIsSumOver(c.lists, e, before, after, Once(Named(e)));
  }

  // --- the badge ---

  /** What an event asks the badge of the domain to change by, before the clamp at zero. */
  function BadgeDelta(c: Cache, e: Event, d: string): int {
    match e
    case BulkEvent(action, ids) => Badge(DeltaByDomain(c.lists, ids, action), d)
    case EmailEvent(true, id, Some(t)) => Contribution(Some(t)) - Contribution(FindCached(c.lists, id))
    case ReadEvent(read, id, _) => ReadDelta(FindCached(c.lists, id), read)
    case MoveEvent(id, _, thread) => Contribution(thread) - Contribution(FindCached(c.lists, id))
    case DeleteEvent(id, _) => 0 - Contribution(FindCached(c.lists, id))
    case _ => 0
  }

  lemma NetChangeOfOne(lists: seq<ThreadList>, e: Event, id: string)
    ensures NetChange(lists, e, [id]) == Contribution(NewCopy(lists, e, id)) - Contribution(FindCached(lists, id))
  {
    assert [id][..0] == [];
    assert NetChange(lists, e, [id][..0]) == 0;
  }

  lemma StepBadge(c: Cache, e: Event, d: string)
    requires CacheOk(c.lists, d) && WellFormed(c.lists, e, d) && Badge(c.counts, d) >= 0
    ensures Badge(Step(c, e).counts, d) == Max(0, Badge(c.counts, d) + BadgeDelta(c, e, d))
  {
    match e
    case BulkEvent(action, ids) => AllAdjusted(c.counts, DeltaByDomain(c.lists, ids, action), d);
    case EmailEvent(_, _, _) =>
    case StarEvent(_, _, _) =>
    case MuteEvent(_, _) =>
    case _ => StepBadgeOfOne(c, e, d);
  }

  lemma StepBadgeOfOne(c: Cache, e: Event, d: string)
    requires CacheOk(c.lists, d) && WellFormed(c.lists, e, d) && Badge(c.counts, d) >= 0
    requires e.ReadEvent? || e.MoveEvent? || e.DeleteEvent?
    ensures Badge(StepCounts(c, e), d) == Max(0, Badge(c.counts, d) + BadgeDelta(c, e, d))
  {
    var cached := FindCached(c.lists, e.threadId);
    if cached.Some? { CachedHasDomain(c.lists, d, e.threadId); }
    OneAdjusted(c.counts, d, BadgeDelta(c, e, d));
  }

  lemma OneAdjusted(counts: map<string, int>, d: string, delta: int)
    requires Badge(counts, d) >= 0
    ensures Badge(AdjustUnreadCount(counts, Some(d), delta), d) == Max(0, Badge(counts, d) + delta)
  {
  }

  lemma AllAdjusted(counts: map<string, int>, deltas: map<string, int>, d: string)
    requires Badge(counts, d) >= 0
    ensures Badge(AdjustAll(counts, deltas), d) == Max(0, Badge(counts, d) + Badge(deltas, d))
  {
  }

  /** A bulk event's badge change is the net change of the threads it names, each counted once however often it
      is named. */
  lemma {:induction false} BulkDeltaIsNetChange(lists: seq<ThreadList>, e: Event, ids: seq<string>, d: string)
    requires CacheOk(lists, d) && e.BulkEvent?
    requires forall id :: id in ids ==> id in e.threadIds
    ensures Badge(DeltaByDomain(lists, ids, e.action), d) == NetChange(lists, e, Once(ids))
  {
    if ids != [] {
      var last := |ids| - 1;
      BulkDeltaIsNetChange(lists, e, ids[..last], d);
      DeltaOfMore(lists, e, ids, d);
      if ids[last] !in ids[..last] { NetChangeOfMore(lists, e, Once(ids[..last]), ids[last]); }
    }
  }

  lemma DeltaOfMore(lists: seq<ThreadList>, e: Event, ids: seq<string>, d: string)
    requires CacheOk(lists, d) && e.BulkEvent? && ids != []
    requires ids[|ids| - 1] in e.threadIds
    ensures var front, id := ids[..|ids| - 1], ids[|ids| - 1];
      Badge(DeltaByDomain(lists, ids, e.action), d) == Badge(DeltaByDomain(lists, front, e.action), d)
        + if id in front then 0 else Contribution(NewCopy(lists, e, id)) - Contribution(FindCached(lists, id))
  {
    var id := ids[|ids| - 1];
    if FindCached(lists, id).Some? { CachedHasDomain(lists, d, id); }
  }

  lemma NetChangeOfMore(lists: seq<ThreadList>, e: Event, ids: seq<string>, id: string)
    ensures NetChange(lists, e, ids + [id])
         == NetChange(lists, e, ids) + Contribution(NewCopy(lists, e, id)) - Contribution(FindCached(lists, id))
  {
    assert (ids + [id])[..|ids|] == ids;
  }

  lemma OnceOfOne(id: string)
    ensures Once([id]) == [id]
  {
    assert [id][..0] == [];
  }

  lemma BadgeDeltaIsNetChange(c: Cache, e: Event, d: string)
    requires CacheOk(c.lists, d) && HasInbox(c.lists) && WellFormed(c.lists, e, d)
    ensures BadgeDelta(c, e, d) == NetChange(c.lists, e, Once(Named(e))) <==> KeepsContribution(c.lists, e)
  {
    if e.BulkEvent? {
      BulkDeltaIsNetChange(c.lists, e, e.threadIds, d);
    } else {
      OneDeltaIsNetChange(c, e, d);
    }
  }

  lemma OneDeltaIsNetChange(c: Cache, e: Event, d: string)
    requires CacheOk(c.lists, d) && HasInbox(c.lists) && WellFormed(c.lists, e, d) && !e.BulkEvent?
    ensures BadgeDelta(c, e, d) == NetChange(c.lists, e, Once(Named(e))) <==> KeepsContribution(c.lists, e)
  {
    NetChangeOfNamed(c.lists, e);
    NamedChange(c, e, d);
  }

  lemma NetChangeOfNamed(lists: seq<ThreadList>, e: Event)
    requires !e.BulkEvent?
    ensures NetChange(lists, e, Once(Named(e)))
         == Contribution(NewCopy(lists, e, e.threadId)) - Contribution(FindCached(lists, e.threadId))
  {
    OnceOfOne(e.threadId);
    assert Named(e) == [e.threadId];
    NetChangeOfOne(lists, e, e.threadId);
  }

  /** An event about one thread asks for that thread's change, except a sent one, which asks for none. */
  lemma NamedChange(c: Cache, e: Event, d: string)
    requires CacheOk(c.lists, d) && HasInbox(c.lists) && WellFormed(c.lists, e, d) && !e.BulkEvent?
    ensures var change := Contribution(NewCopy(c.lists, e, e.threadId)) - Contribution(FindCached(c.lists, e.threadId));
      BadgeDelta(c, e, d) == change <==> KeepsContribution(c.lists, e)
  {
    if e.StarEvent? && e.thread.Some? { StarKeepsContribution(c.lists, e, d); }
  }

  /** A star event moves no unread messages into the inbox or out of it. */
  lemma StarKeepsContribution(lists: seq<ThreadList>, e: Event, d: string)
    requires CacheOk(lists, d) && HasInbox(lists) && WellFormed(lists, e, d) && e.StarEvent? && e.thread.Some?
    ensures Contribution(NewCopy(lists, e, e.threadId)) == Contribution(FindCached(lists, e.threadId))
    ensures WasEligible(lists, e.threadId) ==> HeldAfterStar(lists, e.thread.value, e.starred)
  {
    if WasEligible(lists, e.threadId) {
      var i :| 0 <= i < |lists| && lists[i].view == Inbox;
      InboxHolds(lists, i, d, e.threadId);
      assert HoldsAfterStar(lists[i], e.thread.value, e.starred);
    }
  }

  lemma StepKeepsInboxSum(c: Cache, e: Event, d: string, i: nat)
    requires CacheOk(c.lists, d) && WellFormed(c.lists, e, d) && BadgeOk(c, d) && KeepsContribution(c.lists, e)
    requires i < |c.lists| && c.lists[i].view == Inbox
    ensures Badge(c.counts, d) + BadgeDelta(c, e, d) == SumUnread(Step(c, e).lists[i].threads)
    ensures Badge(Step(c, e).counts, d) == SumUnread(Step(c, e).lists[i].threads)
  {
    InboxSumChange(c, e, d, i);
    BadgeDeltaIsNetChange(c, e, d);
    StepBadge(c, e, d);
  }

  /** One event keeps the badge equal to the inbox sum, and the clamp at zero does not fire. */
  lemma StepKeepsBadge(c: Cache, e: Event, d: string)
    requires CacheOk(c.lists, d) && WellFormed(c.lists, e, d) && BadgeOk(c, d) && KeepsContribution(c.lists, e)
    ensures BadgeOk(Step(c, e), d)
    ensures HasInbox(c.lists) ==> Badge(c.counts, d) + BadgeDelta(c, e, d) >= 0
  {
    forall i | 0 <= i < |c.lists| && c.lists[i].view == Inbox
      ensures Badge(c.counts, d) + BadgeDelta(c, e, d) == SumUnread(Step(c, e).lists[i].threads)
      ensures Badge(Step(c, e).counts, d) == SumUnread(Step(c, e).lists[i].threads)
    {
      StepKeepsInboxSum(c, e, d, i);
    }
  }

  /** A sent event keeps the badge right exactly when its payload contributes what the cached copy did:
      the reducer never adjusts the badge for it. */
  lemma SentKeepsBadgeIff(c: Cache, e: Event, d: string)
    requires CacheOk(c.lists, d) && WellFormed(c.lists, e, d) && BadgeOk(c, d) && HasInbox(c.lists)
    requires e.EmailEvent? && !e.received
    ensures BadgeOk(Step(c, e), d) <==> KeepsContribution(c.lists, e)
  {
    if KeepsContribution(c.lists, e) {
      StepKeepsBadge(c, e, d);
    } else {
      var i :| 0 <= i < |c.lists| && c.lists[i].view == Inbox;
      SentMovesSum(c, e, d, i);
      assert Step(c, e).lists[i].view == Inbox && Step(c, e).counts == c.counts;
    }
  }

  lemma SentMovesSum(c: Cache, e: Event, d: string, i: nat)
    requires CacheOk(c.lists, d) && WellFormed(c.lists, e, d) && i < |c.lists| && c.lists[i].view == Inbox
    requires e.EmailEvent? && !e.received && !KeepsContribution(c.lists, e)
    ensures SumUnread(Step(c, e).lists[i].threads) != SumUnread(c.lists[i].threads)
  {
    InboxSumChange(c, e, d, i);
    BadgeDeltaIsNetChange(c, e, d);
  }

  /** A thread whose cached copy is unread, and which a sent mail reports as read: the list sums to nothing, and the
      badge keeps the old count. */
  lemma SentLeavesBadge(t: Thread, d: string)
    requires t.domainId == d && InboxEligible(t.labels) && t.unread > 0
    ensures var c := Cache([ThreadList(d, Inbox, [t], 1)], map[d := t.unread]);
      var r := Step(c, EmailEvent(false, t.id, Some(t.(unread := 0))));
      CacheOk(c.lists, d) && BadgeOk(c, d) && !BadgeOk(r, d) && Badge(r.counts, d) == t.unread
  {
    var c := Cache([ThreadList(d, Inbox, [t], 1)], map[d := t.unread]);
    assert t in c.lists[0].threads;
    CachedIsFound(c.lists, t);
    assert SumUnread([t]) == t.unread + SumUnread([t][1..]);
    assert c.lists[0].view == Inbox;
    SentKeepsBadgeIff(c, EmailEvent(false, t.id, Some(t.(unread := 0))), d);
  }

  // --- an example cache ---

  /** A domain with an empty inbox list and one thread in the archive. */
  function OneArchived(t: Thread, d: string): Cache {
    Cache([ThreadList(d, Inbox, [], 0), ThreadList(d, Archive, [t], 1)], map[d := 0])
  }

  lemma ArchivedIsFound(t: Thread, d: string)
    ensures FindCached(OneArchived(t, d).lists, t.id) == Some(t)
  {
    var lists := OneArchived(t, d).lists;
    assert lists[1..][0] == lists[1];
    assert FindIn([t], t.id) == Some(t);
  }

  lemma ArchivedIsOk(t: Thread, d: string)
    requires t.domainId == d && t.labels == {}
    ensures CacheOk(OneArchived(t, d).lists, d) && BadgeOk(OneArchived(t, d), d)
  {
  }
}
