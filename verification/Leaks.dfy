/** Events outside the world of one domain and distinct ids: which of them go into lists where they do not belong,
    and which list or badge goes wrong, exactly when. */
module Leaks {
  import opened Wrappers
  import opened Labels
  import opened ThreadLists
  import opened ThreadCache
  import opened CacheInvariants
  import opened CacheSteps
  import opened UnreadBadge

  // --- lists of other domains ---

  /** The moved branch never compares domains. A list of another domain stays a list of its domain exactly
      when the moved thread does not belong in its view. */
  lemma MoveLeaksIff(lists: seq<ThreadList>, l: ThreadList, t: Thread, domainId: Option<string>)
    requires ListOk(l, l.domainId) && l.domainId != t.domainId && !Holds(l, t.id)
    ensures ListOk(StepList(lists, MoveEvent(t.id, domainId, Some(t)), l), l.domainId)
            <==> !BelongsInView(t.labels, l.view)
  {
    if BelongsInView(t.labels, l.view) { ForeignAdded(l, t); }
  }

  lemma ForeignAdded(l: ThreadList, t: Thread)
    requires DistinctIds(l.threads) && !Holds(l, t.id) && l.domainId != t.domainId
    ensures !ListOk(Add(l, t), l.domainId)
  {
    AddFacts(l, t);
    assert t in Add(l, t).threads;
  }

  /** Nor does the starred branch. A list of another domain goes wrong exactly when it is a starred list, and the
      thread was starred and belongs there. */
  lemma StarLeaksIff(lists: seq<ThreadList>, l: ThreadList, t: Thread, starred: bool)
    requires ListOk(l, l.domainId) && l.domainId != t.domainId && !Holds(l, t.id)
    ensures ListOk(StepList(lists, StarEvent(starred, t.id, Some(t)), l), l.domainId)
            <==> !(l.view == Starred && starred && BelongsInView(t.labels, Starred))
  {
    if l.view == Starred && starred && BelongsInView(t.labels, Starred) {
      ForeignAdded(l, t);
    } else {
      PatchOfAbsent(l, t.id, Relabel(t.labels));
    }
  }

  lemma PatchOfAbsent(l: ThreadList, id: string, p: Patch)
    requires !Holds(l, id)
    ensures PatchList(l, {id}, p) == l
  {
    assert forall i :: 0 <= i < |l.threads| ==> l.threads[i].id in Ids(l.threads);
    assert PatchAll(l.threads, {id}, p) == l.threads;
  }

  /** The lists of other domains hold threads of their domain that belong there, once each. */
  ghost predicate OthersOk(lists: seq<ThreadList>, d: string) {
    forall i :: 0 <= i < |lists| && lists[i].domainId != d ==> ListOk(lists[i], lists[i].domainId)
  }

  /** The views of other domains that an event about one thread puts the thread into. */
  predicate LeaksInto(e: Event, view: Label) {
    match e
    case MoveEvent(_, _, Some(t)) => BelongsInView(t.labels, view)
    case StarEvent(starred, _, Some(t)) => view == Starred && starred && BelongsInView(t.labels, Starred)
    case _ => false
  }

  /** An event about one thread of domain `d`, which no other domain's list holds. */
  ghost predicate About(lists: seq<ThreadList>, e: Event, d: string) {
    && !e.BulkEvent?
    && (forall i :: 0 <= i < |lists| && lists[i].domainId != d ==> !Holds(lists[i], e.threadId))
    && match e
       case EmailEvent(_, id, Some(t)) => t.id == id && t.domainId == d
       case StarEvent(_, id, Some(t)) => t.id == id && t.domainId == d
       case MuteEvent(id, Some(t)) => t.id == id && t.domainId == d
       case MoveEvent(id, _, Some(t)) => t.id == id && t.domainId == d
       case _ => true
  }

  lemma OtherListIff(lists: seq<ThreadList>, e: Event, d: string, i: nat)
    requires About(lists, e, d) && i < |lists| && lists[i].domainId != d && ListOk(lists[i], lists[i].domainId)
    ensures ListOk(StepList(lists, e, lists[i]), lists[i].domainId) <==> !LeaksInto(e, lists[i].view)
  {
    var l := lists[i];
    match e
    case MoveEvent(_, domainId, Some(t)) => MoveLeaksIff(lists, l, t, domainId);
    case StarEvent(starred, _, Some(t)) => StarLeaksIff(lists, l, t, starred);
    case MuteEvent(id, Some(t)) => PatchOfAbsent(l, id, Relabel(t.labels));
    case ReadEvent(read, id, _) => PatchOfAbsent(l, id, Unread(if read then 0 else 1));
    case _ =>
  }

  /** Of all events about one thread, the moved and the starred one are those that leak: the lists of every other
      domain stay in order exactly when the event leaks into none of their views. */
  lemma OthersStayOkIff(c: Cache, e: Event, d: string)
    requires About(c.lists, e, d) && OthersOk(c.lists, d)
    ensures OthersOk(Step(c, e).lists, d)
            <==> forall i :: 0 <= i < |c.lists| && c.lists[i].domainId != d ==> !LeaksInto(e, c.lists[i].view)
  {
    var r := Step(c, e).lists;
    forall i | 0 <= i < |c.lists| && c.lists[i].domainId != d
      ensures r[i].domainId == c.lists[i].domainId
      ensures ListOk(r[i], r[i].domainId) <==> !LeaksInto(e, c.lists[i].view)
    {
      OtherListIff(c.lists, e, d, i);
    }
  }

  /** A thread moved to the inbox of one domain turns up in the inbox of another; so does a starred one. */
  lemma ForeignThreadIsListed(t: Thread, l: ThreadList)
    requires t.domainId != l.domainId && l.threads == []
    requires t.labels == {Inbox, Starred} && (l.view == Inbox || l.view == Starred)
    ensures var moved, starred := MoveEvent(t.id, Some(t.domainId), Some(t)), StarEvent(true, t.id, Some(t));
      var r := Step(Cache([l], map[]), if l.view == Inbox then moved else starred).lists;
      t in r[0].threads && !OthersOk(r, t.domainId)
  {
    AddFacts(l, t);
    assert t in Add(l, t).threads;
  }

  // --- repeated ids ---

  lemma {:induction false} DistinctIffCount(ts: seq<Thread>)
    ensures DistinctIds(ts) <==> |Ids(ts)| == |ts|
    ensures |Ids(ts)| <= |ts|
  {
    if ts != [] {
      var last := |ts| - 1;
      var front := ts[..last];
      assert ts == front + [ts[last]];
      DistinctIffCount(front);
      OneMoreDistinctIff(front, ts[last]);
      assert Ids(ts) == Ids(front) + {ts[last].id};
    }
  }

  lemma SortedDistinctIff(ts: seq<Thread>)
    ensures DistinctIds(SortNewestFirst(ts)) <==> DistinctIds(ts)
  {
    SortFacts(ts);
    DistinctIffCount(ts);
    DistinctIffCount(SortNewestFirst(ts));
    assert Ids(SortNewestFirst(ts)) == Ids(ts);
  }

  function KeptOf(l: ThreadList, ids: seq<string>, action: BulkAction): seq<Thread> {
    Keep(PatchAll(l.threads, IdSet(ids), Bulk(action)), IdSet(ids), Some(l.view))
  }

  lemma KeptAreHeld(l: ThreadList, ids: seq<string>, action: BulkAction)
    requires DistinctIds(l.threads)
    ensures DistinctIds(KeptOf(l, ids, action))
    ensures forall t :: t in KeptOf(l, ids, action) ==> Holds(l, t.id)
  {
    var patched := PatchAll(l.threads, IdSet(ids), Bulk(action));
    PatchedAreHeld(l, patched, IdSet(ids), action);
    KeepDistinct(patched, IdSet(ids), Some(l.view));
    KeepMembers(patched, IdSet(ids), Some(l.view));
  }

  lemma PatchedAreHeld(l: ThreadList, patched: seq<Thread>, ids: set<string>, action: BulkAction)
    requires DistinctIds(l.threads) && patched == PatchAll(l.threads, ids, Bulk(action))
    ensures DistinctIds(patched) && forall t :: t in patched ==> Holds(l, t.id)
  {
    assert forall j :: 0 <= j < |patched| ==> patched[j].id == l.threads[j].id;
    forall t | t in patched
      ensures Holds(l, t.id)
    {
      var j :| 0 <= j < |patched| && patched[j] == t;
      assert l.threads[j] in l.threads;
    }
  }

  lemma AppendDistinctIff(a: seq<Thread>, b: seq<Thread>)
    requires DistinctIds(a) && forall t, u :: t in a && u in b ==> t.id != u.id
    ensures DistinctIds(a + b) <==> DistinctIds(b)
  {
    var all := a + b;
    assert forall j :: 0 <= j < |b| ==> all[|a| + j] == b[j];
    if DistinctIds(all) {
      forall i, j | 0 <= i < j < |b|
        ensures b[i].id != b[j].id
      {
        assert all[|a| + i].id != all[|a| + j].id;
      }
    }
  }

  lemma ResultDistinctIff(lists: seq<ThreadList>, l: ThreadList, ids: seq<string>, action: BulkAction)
    requires DistinctIds(l.threads)
    ensures DistinctIds(KeptOf(l, ids, action) + Joining(lists, l, ids, action))
            <==> RepeatsStayOut(lists, l, ids, action)
  {
    var kept, joining := KeptOf(l, ids, action), Joining(lists, l, ids, action);
    KeptAreHeld(l, ids, action);
    JoiningMembers(lists, l, ids, action);
    JoiningDistinctIff(lists, l, ids, action);
    forall t, u | t in kept && u in joining
      ensures t.id != u.id
    {
      assert JoinsAs(lists, l, u.id, action).Some?;
    }
    AppendDistinctIff(kept, joining);
  }

  /** A bulk event that changes labels keeps the ids of a list distinct exactly when it repeats no id that comes
      into the list. */
  lemma RepeatsKeepDistinctIff(lists: seq<ThreadList>, l: ThreadList, ids: seq<string>, action: BulkAction)
    requires DistinctIds(l.threads) && ChangesLabels(action)
    ensures DistinctIds(StepList(lists, BulkEvent(action, ids), l).threads) <==> RepeatsStayOut(lists, l, ids, action)
  {
    ResultDistinctIff(lists, l, ids, action);
    SortedResultDistinctIff(lists, l, ids, action);
  }

  lemma SortedResultDistinctIff(lists: seq<ThreadList>, l: ThreadList, ids: seq<string>, action: BulkAction)
    ensures DistinctIds(BulkLabelList(lists, l, ids, action).threads)
            <==> DistinctIds(KeptOf(l, ids, action) + Joining(lists, l, ids, action))
  {
    var all := KeptOf(l, ids, action) + Joining(lists, l, ids, action);
    BulkListIs(lists, l, ids, action, all);
    SortedDistinctIff(all);
  }

  /** The badges count a repeated id once. */
  lemma {:induction false} RepeatsCountOnce(lists: seq<ThreadList>, ids: seq<string>, action: BulkAction)
    ensures DeltaByDomain(lists, ids, action) == DeltaByDomain(lists, Once(ids), action)
  {
    if ids != [] {
      var last := |ids| - 1;
      RepeatsCountOnce(lists, ids[..last], action);
      if ids[last] !in ids[..last] {
        assert Once(ids)[..|Once(ids)| - 1] == Once(ids[..last]);
      }
    }
  }

  /** What the repeats of a selection add to the unread sum of a list they come into. */
  function Surplus(lists: seq<ThreadList>, l: ThreadList, ids: seq<string>, action: BulkAction): nat {
    if ids == [] then 0
    else
      var last := |ids| - 1;
      var t := JoinsAs(lists, l, ids[last], action);
      Surplus(lists, l, ids[..last], action) + if ids[last] in ids[..last] && t.Some? then t.value.unread else 0
  }

  lemma {:induction false} SumAppend(a: seq<Thread>, b: seq<Thread>)
    ensures SumUnread(a + b) == SumUnread(a) + SumUnread(b)
  {
    if a == [] {
      assert a + b == b;
    } else {
      assert (a + b)[1..] == a[1..] + b;
      SumAppend(a[1..], b);
    }
  }

  lemma {:induction false} SumSorted(ts: seq<Thread>)
    ensures SumUnread(SortNewestFirst(ts)) == SumUnread(ts)
  {
    if ts != [] {
      var rest := SortNewestFirst(ts[1..]);
      var k := InsertPosition(ts[0], rest);
      SumSorted(ts[1..]);
      assert rest == rest[..k] + rest[k..];
      SumAppend(rest[..k], rest[k..]);
      SumAppend(rest[..k] + [ts[0]], rest[k..]);
      SumAppend(rest[..k], [ts[0]]);
    }
  }

  lemma {:induction false} JoiningSurplus(lists: seq<ThreadList>, l: ThreadList, ids: seq<string>, action: BulkAction)
    ensures SumUnread(Joining(lists, l, ids, action))
         == SumUnread(Joining(lists, l, Once(ids), action)) + Surplus(lists, l, ids, action)
  {
    if ids != [] {
      var last := |ids| - 1;
      var t := JoinsAs(lists, l, ids[last], action);
      var one := if t.Some? then [t.value] else [];
      JoiningSurplus(lists, l, ids[..last], action);
      SumAppend(Joining(lists, l, ids[..last], action), one);
      if ids[last] !in ids[..last] {
        var firsts := Once(ids);
        assert firsts[..|firsts| - 1] == Once(ids[..last]);
        SumAppend(Joining(lists, l, Once(ids[..last]), action), one);
      }
    }
  }

  lemma ListSum(lists: seq<ThreadList>, l: ThreadList, ids: seq<string>, action: BulkAction)
    ensures SumUnread(BulkLabelList(lists, l, ids, action).threads)
         == SumUnread(KeptOf(l, ids, action)) + SumUnread(Joining(lists, l, ids, action))
  {
    var kept, joining := KeptOf(l, ids, action), Joining(lists, l, ids, action);
    BulkListIs(lists, l, ids, action, kept + joining);
    SumSorted(kept + joining);
    SumAppend(kept, joining);
  }

  /** What repeats do to the badge. After a bulk event that changes labels, repeats or not, the inbox list sums to
      the badge and the surplus of the repeated ids that came in. */
  lemma RepeatsDriftBadge(c: Cache, ids: seq<string>, action: BulkAction, d: string, i: nat)
    requires CacheOk(c.lists, d) && BadgeOk(c, d) && ChangesLabels(action)
    requires i < |c.lists| && c.lists[i].view == Inbox
    ensures var r := Step(c, BulkEvent(action, ids));
      SumUnread(r.lists[i].threads) == Badge(r.counts, d) + Surplus(c.lists, c.lists[i], ids, action)
  {
    var l, once := c.lists[i], BulkEvent(action, Once(ids));
    StepKeepsBadge(c, once, d);
    assert Step(c, once).lists[i].view == Inbox;
    assert Badge(Step(c, once).counts, d) == SumUnread(Step(c, once).lists[i].threads);
    RepeatsCountOnce(c.lists, ids, action);
    ListSum(c.lists, l, ids, action);
    ListSum(c.lists, l, Once(ids), action);
    JoiningSurplus(c.lists, l, ids, action);
    assert IdSet(Once(ids)) == IdSet(ids);
  }

  predicate AddsNothing(lists: seq<ThreadList>, l: ThreadList, id: string, action: BulkAction) {
    var t := JoinsAs(lists, l, id, action);
    t.None? || t.value.unread == 0
  }

  /** No repeated id brings an unread thread into the list. */
  ghost predicate RepeatsAddNothing(lists: seq<ThreadList>, l: ThreadList, ids: seq<string>, action: BulkAction) {
    forall i, j :: 0 <= i < j < |ids| && ids[i] == ids[j] ==> AddsNothing(lists, l, ids[i], action)
  }

  /** The badge stays right exactly when no repeated id brings an unread thread into an inbox list. */
  lemma RepeatsKeepBadgeIff(c: Cache, ids: seq<string>, action: BulkAction, d: string)
    requires CacheOk(c.lists, d) && BadgeOk(c, d) && ChangesLabels(action)
    ensures BadgeOk(Step(c, BulkEvent(action, ids)), d)
            <==> forall i :: 0 <= i < |c.lists| && c.lists[i].view == Inbox
                   ==> RepeatsAddNothing(c.lists, c.lists[i], ids, action)
  {
    var r := Step(c, BulkEvent(action, ids));
    forall i | 0 <= i < |c.lists| && c.lists[i].view == Inbox
      ensures r.lists[i].view == Inbox
      ensures Badge(r.counts, d) == SumUnread(r.lists[i].threads)
              <==> RepeatsAddNothing(c.lists, c.lists[i], ids, action)
    {
      RepeatsDriftBadge(c, ids, action, d, i);
      NoSurplusIff(c.lists, c.lists[i], ids, action);
    }
  }


  lemma {:induction false} NoSurplusIff(lists: seq<ThreadList>, l: ThreadList, ids: seq<string>, action: BulkAction)
    ensures Surplus(lists, l, ids, action) == 0
            <==> RepeatsAddNothing(lists, l, ids, action)
  {
    if ids != [] {
      NoSurplusIff(lists, l, ids[..|ids| - 1], action);
      LastAddsNothingIff(lists, l, ids, action);
    }
  }

  lemma LastAddsNothingIff(lists: seq<ThreadList>, l: ThreadList, ids: seq<string>, action: BulkAction)
    requires ids != []
    ensures var last := |ids| - 1;
      RepeatsAddNothing(lists, l, ids, action) <==>
        && RepeatsAddNothing(lists, l, ids[..last], action)
        && (ids[last] in ids[..last] ==> AddsNothing(lists, l, ids[last], action))
  {
    var last := |ids| - 1;
    if RepeatsAddNothing(lists, l, ids, action) && ids[last] in ids[..last] {
      var i :| 0 <= i < last && ids[..last][i] == ids[last];
      assert ids[i] == ids[last];
    }
  }

  /** An archived unread thread that is moved to the inbox under an id given twice is listed twice there, and its
      unread messages are in the badge once. */
  lemma RepeatIsListedTwice(t: Thread, d: string)
    requires t.domainId == d && t.labels == {} && t.unread > 0
    ensures var r := Step(OneArchived(t, d), BulkEvent(BulkMove(Inbox), [t.id, t.id]));
      && CacheOk(OneArchived(t, d).lists, d) && BadgeOk(OneArchived(t, d), d)
      && !DistinctIds(r.lists[0].threads) && !BadgeOk(r, d)
  {
    var c := OneArchived(t, d);
    ArchivedIsOk(t, d);
    JoinsInbox(t, d);
    RepeatsBreak(c, [t.id, t.id], BulkMove(Inbox), d);
  }

  lemma JoinsInbox(t: Thread, d: string)
    requires t.domainId == d && t.labels == {}
    ensures var lists := OneArchived(t, d).lists;
      JoinsAs(lists, lists[0], t.id, BulkMove(Inbox)) == Some(ApplyPatch(Bulk(BulkMove(Inbox)), t))
  {
    var lists := OneArchived(t, d).lists;
    ArchivedIsFound(t, d);
    assert ApplyBulkLabels({}, BulkMove(Inbox)) == {Inbox};
  }

  lemma RepeatsBreak(c: Cache, ids: seq<string>, action: BulkAction, d: string)
    requires CacheOk(c.lists, d) && BadgeOk(c, d) && ChangesLabels(action)
    requires c.lists != [] && c.lists[0].view == Inbox && |ids| > 1 && ids[0] == ids[1]
    requires !AddsNothing(c.lists, c.lists[0], ids[0], action)
    ensures var r := Step(c, BulkEvent(action, ids)); !DistinctIds(r.lists[0].threads) && !BadgeOk(r, d)
  {
    RepeatsKeepDistinctIff(c.lists, c.lists[0], ids, action);
    RepeatsKeepBadgeIff(c, ids, action, d);
  }
}
