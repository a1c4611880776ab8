/** One event keeps the cache invariant, list by list and then for the whole cache. */
module CacheSteps {
  import opened Wrappers
  import opened Labels
  import opened ThreadLists
  import opened ThreadCache
  import opened CacheInvariants

  lemma EmailMirrors(lists: seq<ThreadList>, e: Event, i: nat, d: string)
    requires CacheOk(lists, d) && i < |lists| && WellFormed(lists, e, d) && e.EmailEvent?
    ensures Mirrors(lists, e, lists[i], StepList(lists, e, lists[i]), d)
  {
    var l := lists[i];
    ListedIsFound(lists, i);
    if e.thread.None? {
      UnchangedMirrors(lists, e, i, d);
    } else {
      var t := e.thread.value;
      if !BelongsInView(t.labels, l.view) {
        DropMirrors(lists, e, i, d, t.id);
      } else if Holds(l, t.id) {
        PatchMirrors(lists, e, i, d, {t.id}, Whole(t));
        SortMirrors(lists, e, l, PatchList(l, {t.id}, Whole(t)), d);
      } else {
        AddMirrors(lists, e, i, d, t);
      }
    }
  }

  lemma UnchangedMirrors(lists: seq<ThreadList>, e: Event, i: nat, d: string)
    requires CacheOk(lists, d) && i < |lists|
    requires forall id :: NewCopy(lists, e, id) == FindCached(lists, id)
    ensures Mirrors(lists, e, lists[i], lists[i], d)
  {
    ListedIsFound(lists, i);
    forall id | lists[i].view == Inbox && Shown(lists, e, id)
      ensures Holds(lists[i], id)
    {
      InboxHolds(lists, i, d, id);
    }
  }

  lemma MoveMirrors(lists: seq<ThreadList>, e: Event, i: nat, d: string)
    requires CacheOk(lists, d) && i < |lists| && WellFormed(lists, e, d) && (e.MoveEvent? || e.DeleteEvent?)
    ensures Mirrors(lists, e, lists[i], StepList(lists, e, lists[i]), d)
  {
    var l := lists[i];
    ListedIsFound(lists, i);
    if e.MoveEvent? && e.thread.Some? && BelongsInView(e.thread.value.labels, l.view) {
      var t := e.thread.value;
      if Holds(l, t.id) {
        PatchMirrors(lists, e, i, d, {t.id}, Whole(t));
      } else {
        AddMirrors(lists, e, i, d, t);
      }
    } else {
      DropMirrors(lists, e, i, d, e.threadId);
    }
  }

  lemma StarMirrors(lists: seq<ThreadList>, e: Event, i: nat, d: string)
    requires CacheOk(lists, d) && i < |lists| && WellFormed(lists, e, d) && e.StarEvent?
    ensures Mirrors(lists, e, lists[i], StepList(lists, e, lists[i]), d)
  {
    var l := lists[i];
    ListedIsFound(lists, i);
    if e.thread.None? {
      UnchangedMirrors(lists, e, i, d);
    } else {
      var t := e.thread.value;
      if l.view == Starred && !e.starred && Holds(l, t.id) {
        DropMirrors(lists, e, i, d, t.id);
      } else if TakesStar(l, t, e.starred) {
        TakenIsCopy(lists, e, i, d, t);
        AddMirrors(lists, e, i, d, t);
      } else {
        RelabelMirrors(lists, e, i, d, t);
      }
    }
  }

  lemma TakenIsCopy(lists: seq<ThreadList>, e: Event, i: nat, d: string, t: Thread)
    requires CacheOk(lists, d) && i < |lists| && WellFormed(lists, e, d) && e.StarEvent? && e.thread == Some(t)
    requires TakesStar(lists[i], t, e.starred)
    ensures IsCopy(NewCopy(lists, e, t.id), t)
  {
    assert HoldsAfterStar(lists[i], t, e.starred);
    if FindCached(lists, t.id).Some? { CachedHasDomain(lists, d, t.id); }
  }

  /** New labels in place. An inbox list shows the thread before and after, or neither. */
  lemma RelabelMirrors(lists: seq<ThreadList>, e: Event, i: nat, d: string, t: Thread)
    requires CacheOk(lists, d) && i < |lists| && WellFormed(lists, e, d)
    requires (e.StarEvent? || e.MuteEvent?) && e.thread == Some(t)
    requires e.StarEvent? && lists[i].view == Starred && !e.starred ==> !Holds(lists[i], t.id)
    ensures Mirrors(lists, e, lists[i], PatchList(lists[i], {t.id}, Relabel(t.labels)), d)
  {
    RelabelPlaces(lists, e, i, d, t);
    if lists[i].view == Inbox && Shown(lists, e, t.id) { InboxHolds(lists, i, d, t.id); }
    PatchMirrors(lists, e, i, d, {t.id}, Relabel(t.labels));
  }

  lemma RelabelPlaces(lists: seq<ThreadList>, e: Event, i: nat, d: string, t: Thread)
    requires CacheOk(lists, d) && i < |lists| && WellFormed(lists, e, d)
    requires (e.StarEvent? || e.MuteEvent?) && e.thread == Some(t)
    requires e.StarEvent? && lists[i].view == Starred && !e.starred ==> !Holds(lists[i], t.id)
    ensures PatchPlaces(lists, e, lists[i], d, {t.id}, Relabel(t.labels))
  {
    forall u | u in lists[i].threads && u.id in {t.id}
      ensures Placed(lists, e, lists[i].view, ApplyPatch(Relabel(t.labels), u)) && u.domainId == d
    {
      InListIsHeld(lists[i], u);
      if e.StarEvent? { assert HoldsAfterStar(lists[i], t, e.starred); }
      RelabelledIsPlaced(lists, e, i, d, t, u);
    }
  }

  lemma RelabelledIsPlaced(lists: seq<ThreadList>, e: Event, i: nat, d: string, t: Thread, u: Thread)
    requires CacheOk(lists, d) && i < |lists| && WellFormed(lists, e, d)
    requires (e.StarEvent? || e.MuteEvent?) && e.thread == Some(t)
    requires e.StarEvent? ==> HeldAfterStar(lists, t, e.starred)
    requires u in lists[i].threads && u.id == t.id
    ensures Placed(lists, e, lists[i].view, u.(labels := t.labels))
  {
    ListedIsFound(lists, i);
  }

  lemma MuteMirrors(lists: seq<ThreadList>, e: Event, i: nat, d: string)
    requires CacheOk(lists, d) && i < |lists| && WellFormed(lists, e, d) && e.MuteEvent?
    ensures Mirrors(lists, e, lists[i], StepList(lists, e, lists[i]), d)
  {
    if e.thread.None? {
      UnchangedMirrors(lists, e, i, d);
    } else {
      RelabelMirrors(lists, e, i, d, e.thread.value);
    }
  }

  lemma ReadMirrors(lists: seq<ThreadList>, e: Event, i: nat, d: string)
    requires CacheOk(lists, d) && i < |lists| && e.ReadEvent?
    ensures Mirrors(lists, e, lists[i], StepList(lists, e, lists[i]), d)
  {
    if lists[i].view == Inbox && Shown(lists, e, e.threadId) { InboxHolds(lists, i, d, e.threadId); }
    ReadPlaces(lists, e, i, d);
    PatchMirrors(lists, e, i, d, {e.threadId}, Unread(if e.read then 0 else 1));
  }

  lemma ReadPlaces(lists: seq<ThreadList>, e: Event, i: nat, d: string)
    requires CacheOk(lists, d) && i < |lists| && e.ReadEvent?
    ensures PatchPlaces(lists, e, lists[i], d, {e.threadId}, Unread(if e.read then 0 else 1))
  {
    ListedIsFound(lists, i);
  }

  // --- bulk ---

  lemma BulkDeleteMirrors(lists: seq<ThreadList>, e: Event, i: nat, d: string)
    requires CacheOk(lists, d) && i < |lists| && e.BulkEvent? && e.action.BulkDelete?
    ensures Mirrors(lists, e, lists[i], StepList(lists, e, lists[i]), d)
  {
    var l, r := lists[i], BulkDeleteList(lists[i], e.threadIds);
    BulkDeleteFacts(l, e.threadIds);
    ListedIsPlaced(lists, e, i, d);
    forall id | l.view == Inbox && (id in Named(e) || Holds(l, id)) && Shown(lists, e, id)
      ensures Holds(r, id)
    {
      InListIsHeld(r, FindIn(l.threads, id).value);
    }
    MirrorsWhenPlaced(lists, e, i, d, r);
  }

  lemma BulkDeleteFacts(l: ThreadList, ids: seq<string>)
    requires DistinctIds(l.threads)
    ensures var r := BulkDeleteList(l, ids);
      && r.view == l.view && r.domainId == l.domainId && DistinctIds(r.threads)
      && (forall t :: t in r.threads <==> t in l.threads && t.id !in ids)
      && (l.total >= |l.threads| ==> r.total - |r.threads| == l.total - |l.threads|)
  {
    KeepMembers(l.threads, IdSet(ids), None);
    KeepDistinct(l.threads, IdSet(ids), None);
  }

  lemma {:induction false} JoiningMembers(lists: seq<ThreadList>, l: ThreadList, ids: seq<string>, action: BulkAction)
    ensures forall u :: u in Joining(lists, l, ids, action) <==>
      u.id in ids && JoinsAs(lists, l, u.id, action) == Some(u)
  {
    if ids != [] {
      var last := |ids| - 1;
      JoiningMembers(lists, l, ids[..last], action);
      assert ids == ids[..last] + [ids[last]];
      assert forall id :: id in ids <==> id in ids[..last] || id == ids[last];
    }
  }

  /** The threads that join a list have distinct ids exactly when no repeated id joins. */
  lemma {:induction false} JoiningDistinctIff(
    lists: seq<ThreadList>, l: ThreadList, ids: seq<string>, action: BulkAction)
    ensures DistinctIds(Joining(lists, l, ids, action)) <==> RepeatsStayOut(lists, l, ids, action)
  {
    if ids != [] {
      var last := |ids| - 1;
      var front, t := Joining(lists, l, ids[..last], action), JoinsAs(lists, l, ids[last], action);
      JoiningDistinctIff(lists, l, ids[..last], action);
      JoiningMembers(lists, l, ids[..last], action);
      LastStaysOutIff(lists, l, ids, action);
      if t.Some? {
        OneMoreDistinctIff(front, t.value);
        assert t.value in front <==> ids[last] in ids[..last];
        assert forall u :: u in front && u.id == t.value.id ==> u == t.value;
      } else {
        assert front + [] == front;
      }
    }
  }

  lemma LastStaysOutIff(lists: seq<ThreadList>, l: ThreadList, ids: seq<string>, action: BulkAction)
    requires ids != []
    ensures var last := |ids| - 1;
      RepeatsStayOut(lists, l, ids, action) <==>
        && RepeatsStayOut(lists, l, ids[..last], action)
        && (ids[last] in ids[..last] ==> JoinsAs(lists, l, ids[last], action).None?)
  {
    var last := |ids| - 1;
    if RepeatsStayOut(lists, l, ids, action) && ids[last] in ids[..last] {
      var i :| 0 <= i < last && ids[..last][i] == ids[last];
      assert ids[i] == ids[last];
    }
  }

  lemma OneMoreDistinctIff(ts: seq<Thread>, t: Thread)
    ensures DistinctIds(ts + [t]) <==> DistinctIds(ts) && t.id !in Ids(ts)
  {
    var all := ts + [t];
    assert forall i :: 0 <= i < |ts| ==> all[i] == ts[i];
    if t.id in Ids(ts) {
      var u :| u in ts && u.id == t.id;
      var k :| 0 <= k < |ts| && ts[k] == u;
      assert all[k].id == all[|ts|].id;
    }
    if DistinctIds(all) {
      forall i, j | 0 <= i < j < |ts|
        ensures ts[i].id != ts[j].id
      {
        assert all[i].id != all[j].id;
      }
    } else if t.id !in Ids(ts) {
      assert forall i :: 0 <= i < |ts| ==> ts[i].id in Ids(ts);
    }
  }

  lemma BulkReadMirrors(lists: seq<ThreadList>, e: Event, i: nat, d: string)
    requires CacheOk(lists, d) && i < |lists| && e.BulkEvent? && (e.action.BulkRead? || e.action.BulkUnread?)
    ensures Mirrors(lists, e, lists[i], StepList(lists, e, lists[i]), d)
  {
    BulkReadPlaces(lists, e, i, d);
    forall id | lists[i].view == Inbox && id in e.threadIds && Shown(lists, e, id)
      ensures Holds(lists[i], id)
    {
      InboxHolds(lists, i, d, id);
    }
    PatchMirrors(lists, e, i, d, IdSet(e.threadIds), BulkPatch(e.action));
  }

  lemma BulkReadPlaces(lists: seq<ThreadList>, e: Event, i: nat, d: string)
    requires CacheOk(lists, d) && i < |lists| && e.BulkEvent? && (e.action.BulkRead? || e.action.BulkUnread?)
    ensures PatchPlaces(lists, e, lists[i], d, IdSet(e.threadIds), BulkPatch(e.action))
  {
    forall t | t in lists[i].threads && t.id in IdSet(e.threadIds)
      ensures var u := ApplyPatch(BulkPatch(e.action), t);
        u.id == t.id && u.domainId == d && Placed(lists, e, lists[i].view, u)
    {
      MarkedIsPlaced(lists, e, i, d, t);
    }
  }

  lemma MarkedIsPlaced(lists: seq<ThreadList>, e: Event, i: nat, d: string, t: Thread)
    requires CacheOk(lists, d) && i < |lists| && e.BulkEvent? && (e.action.BulkRead? || e.action.BulkUnread?)
    requires t in lists[i].threads && t.id in e.threadIds
    ensures var u := ApplyPatch(BulkPatch(e.action), t);
      u.id == t.id && u.domainId == d && Placed(lists, e, lists[i].view, u)
  {
    ListedIsFound(lists, i);
  }

  /** What a bulk action makes of a thread exists and belongs in the view. */
  predicate BelongsAfter(lists: seq<ThreadList>, e: Event, view: Label, id: string) {
    var copy := NewCopy(lists, e, id);
    copy.Some? && BelongsInView(copy.value.labels, view)
  }

  /** The threads that stay in a list under a label-changing bulk action. */
  lemma KeptMembers(lists: seq<ThreadList>, e: Event, i: nat, d: string, kept: seq<Thread>)
    requires CacheOk(lists, d) && i < |lists| && e.BulkEvent? && ChangesLabels(e.action)
    requires kept == Keep(PatchAll(lists[i].threads, IdSet(e.threadIds), Bulk(e.action)),
                          IdSet(e.threadIds), Some(lists[i].view))
    ensures DistinctIds(kept)
    ensures forall t :: t in kept ==> Placed(lists, e, lists[i].view, t) && t.domainId == d && Holds(lists[i], t.id)
    ensures forall id | Holds(lists[i], id) && (id in e.threadIds ==> BelongsAfter(lists, e, lists[i].view, id)) ::
              id in Ids(kept)
  {
    var patched := PatchAll(lists[i].threads, IdSet(e.threadIds), Bulk(e.action));
    PatchedMembers(lists, e, i, d);
    KeepDistinct(patched, IdSet(e.threadIds), Some(lists[i].view));
    KeptArePlaced(lists, e, lists[i], d, patched);
    forall id | Holds(lists[i], id) && (id in e.threadIds ==> BelongsAfter(lists, e, lists[i].view, id))
      ensures id in Ids(kept)
    {
      IsKept(lists, e, lists[i].view, patched, id);
    }
  }

  /** The copies in a list, patched by a bulk action. */
  ghost predicate PatchedCopies(lists: seq<ThreadList>, e: Event, l: ThreadList, d: string, patched: seq<Thread>)
    requires e.BulkEvent?
  {
    forall t :: t in patched ==>
      && IsCopy(NewCopy(lists, e, t.id), t) && t.domainId == d && Holds(l, t.id)
      && (t.id !in e.threadIds ==> t in l.threads)
  }

  lemma KeptArePlaced(lists: seq<ThreadList>, e: Event, l: ThreadList, d: string, patched: seq<Thread>)
    requires e.BulkEvent? && PatchedCopies(lists, e, l, d, patched) && ListOk(l, d)
    ensures forall t :: t in Keep(patched, IdSet(e.threadIds), Some(l.view)) ==>
      Placed(lists, e, l.view, t) && t.domainId == d && Holds(l, t.id)
  {
    KeepMembers(patched, IdSet(e.threadIds), Some(l.view));
  }

  lemma IsKept(lists: seq<ThreadList>, e: Event, view: Label, patched: seq<Thread>, id: string)
    requires e.BulkEvent? && id in Ids(patched) && (id in e.threadIds ==> BelongsAfter(lists, e, view, id))
    requires forall t :: t in patched ==> IsCopy(NewCopy(lists, e, t.id), t)
    ensures id in Ids(Keep(patched, IdSet(e.threadIds), Some(view)))
  {
    KeepMembers(patched, IdSet(e.threadIds), Some(view));
    var u :| u in patched && u.id == id;
    KeptWhenBelongs(lists, e, view, u);
  }

  lemma KeptWhenBelongs(lists: seq<ThreadList>, e: Event, view: Label, u: Thread)
    requires e.BulkEvent? && IsCopy(NewCopy(lists, e, u.id), u)
    requires u.id in e.threadIds ==> BelongsAfter(lists, e, view, u.id)
    ensures KeepsThread(u, IdSet(e.threadIds), Some(view))
  {
  }

  /** The threads that come into a list under a label-changing bulk action. */
  lemma JoinedMembers(lists: seq<ThreadList>, e: Event, i: nat, d: string, joining: seq<Thread>)
    requires CacheOk(lists, d) && i < |lists| && WellFormed(lists, e, d)
    requires e.BulkEvent? && ChangesLabels(e.action)
    requires joining == Joining(lists, lists[i], e.threadIds, e.action)
    ensures DistinctIds(joining)
    ensures forall t :: t in joining ==> Placed(lists, e, lists[i].view, t) && t.domainId == d && !Holds(lists[i], t.id)
    ensures forall id | BelongsAfter(lists, e, lists[i].view, id) && !Holds(lists[i], id) && id in e.threadIds ::
              id in Ids(joining)
  {
    JoiningMembers(lists, lists[i], e.threadIds, e.action);
    JoiningDistinctIff(lists, lists[i], e.threadIds, e.action);
    forall t | t in joining
      ensures Placed(lists, e, lists[i].view, t) && t.domainId == d && !Holds(lists[i], t.id)
    {
      JoinsWhenBelongs(lists, e, i, d, t.id);
    }
    forall id | BelongsAfter(lists, e, lists[i].view, id) && !Holds(lists[i], id) && id in e.threadIds
      ensures id in Ids(joining)
    {
      JoinsWhenBelongs(lists, e, i, d, id);
      assert JoinsAs(lists, lists[i], id, e.action).value in joining;
    }
  }

  lemma JoinsWhenBelongs(lists: seq<ThreadList>, e: Event, i: nat, d: string, id: string)
    requires CacheOk(lists, d) && i < |lists| && e.BulkEvent? && ChangesLabels(e.action) && id in e.threadIds
    ensures var t := JoinsAs(lists, lists[i], id, e.action);
      && (t.Some? <==> BelongsAfter(lists, e, lists[i].view, id) && !Holds(lists[i], id))
      && (t.Some? ==> t == NewCopy(lists, e, id) && t.value.domainId == d)
  {
    if FindCached(lists, id).Some? { CachedHasDomain(lists, d, id); }
  }

  /** The threads of a list after a label-changing bulk action. */
  lemma BulkResult(lists: seq<ThreadList>, e: Event, i: nat, d: string, kept: seq<Thread>, joining: seq<Thread>)
    requires CacheOk(lists, d) && i < |lists| && WellFormed(lists, e, d)
    requires e.BulkEvent? && ChangesLabels(e.action)
    requires kept == Keep(PatchAll(lists[i].threads, IdSet(e.threadIds), Bulk(e.action)),
                          IdSet(e.threadIds), Some(lists[i].view))
    requires joining == Joining(lists, lists[i], e.threadIds, e.action)
    ensures DistinctIds(kept + joining)
    ensures forall t :: t in kept + joining ==> Placed(lists, e, lists[i].view, t) && t.domainId == d
    ensures forall id | id in e.threadIds && BelongsAfter(lists, e, lists[i].view, id) :: id in Ids(kept + joining)
    ensures forall id | id !in e.threadIds && Holds(lists[i], id) :: id in Ids(kept + joining)
  {
    KeptMembers(lists, e, i, d, kept);
    JoinedMembers(lists, e, i, d, joining);
    assert Ids(kept + joining) == Ids(kept) + Ids(joining);
  }

  lemma NewCopyKeepsId(lists: seq<ThreadList>, e: Event, id: string, d: string)
    requires WellFormed(lists, e, d) && NewCopy(lists, e, id).Some?
    ensures NewCopy(lists, e, id).value.id == id
  {
  }

  lemma CachedHasDomain(lists: seq<ThreadList>, d: string, id: string)
    requires CacheOk(lists, d) && FindCached(lists, id).Some?
    ensures FindCached(lists, id).value.domainId == d
  {
    assert Cached(lists, FindCached(lists, id).value);
  }

  lemma PatchedMembers(lists: seq<ThreadList>, e: Event, i: nat, d: string)
    requires CacheOk(lists, d) && i < |lists| && e.BulkEvent? && ChangesLabels(e.action)
    ensures var patched := PatchAll(lists[i].threads, IdSet(e.threadIds), Bulk(e.action));
      && DistinctIds(patched) && PatchedCopies(lists, e, lists[i], d, patched)
      && (forall id :: Holds(lists[i], id) ==> id in Ids(patched))
  {
    var l := lists[i];
    var patched := PatchAll(l.threads, IdSet(e.threadIds), Bulk(e.action));
    forall j | 0 <= j < |l.threads|
      ensures patched[j].id == l.threads[j].id && patched[j].domainId == d
      ensures IsCopy(NewCopy(lists, e, patched[j].id), patched[j]) && Holds(l, patched[j].id)
      ensures patched[j].id !in e.threadIds ==> patched[j] in l.threads
    {
      PatchedMember(lists, e, i, d, j);
    }
    forall id | Holds(l, id)
      ensures id in Ids(patched)
    {
      var j :| 0 <= j < |l.threads| && l.threads[j] == FindIn(l.threads, id).value;
      assert patched[j] in patched;
    }
  }

  lemma PatchedMember(lists: seq<ThreadList>, e: Event, i: nat, d: string, j: nat)
    requires CacheOk(lists, d) && i < |lists| && e.BulkEvent? && ChangesLabels(e.action) && j < |lists[i].threads|
    ensures var t := lists[i].threads[j];
      var u := PatchAll(lists[i].threads, IdSet(e.threadIds), Bulk(e.action))[j];
      && u.id == t.id && u.domainId == d && IsCopy(NewCopy(lists, e, t.id), u) && Holds(lists[i], t.id)
      && (t.id !in e.threadIds ==> u == t)
  {
    assert lists[i].threads[j] in lists[i].threads;
    ListedIsFound(lists, i);
    InListIsHeld(lists[i], lists[i].threads[j]);
  }

  /** A label-changing bulk action leaves a list with the threads kept and joined, sorted or not. */
  lemma BulkListIs(lists: seq<ThreadList>, l: ThreadList, ids: seq<string>, action: BulkAction, all: seq<Thread>)
    requires all == Keep(PatchAll(l.threads, IdSet(ids), Bulk(action)), IdSet(ids), Some(l.view))
                    + Joining(lists, l, ids, action)
    ensures var r := BulkLabelList(lists, l, ids, action);
      && r.view == l.view && r.domainId == l.domainId
      && (r.threads == all || r.threads == SortNewestFirst(all))
      && r.total == if r == l then l.total else Max(0, l.total + |all| - |l.threads|)
  {
    if Joining(lists, l, ids, action) == [] && forall t :: t in l.threads ==> t.id !in ids {
      BulkUntouched(l, ids, action);
    }
  }

  lemma BulkTotals(lists: seq<ThreadList>, l: ThreadList, ids: seq<string>, action: BulkAction, all: seq<Thread>)
    requires all == Keep(PatchAll(l.threads, IdSet(ids), Bulk(action)), IdSet(ids), Some(l.view))
                    + Joining(lists, l, ids, action)
    requires l.total >= |l.threads|
    ensures var r := BulkLabelList(lists, l, ids, action); r.total - |r.threads| == l.total - |l.threads|
  {
    BulkLabelTotal(lists, l, ids, action);
  }

  /** The same, as sets of threads. */
  lemma BulkMembers(lists: seq<ThreadList>, l: ThreadList, ids: seq<string>, action: BulkAction, all: seq<Thread>)
    requires all == Keep(PatchAll(l.threads, IdSet(ids), Bulk(action)), IdSet(ids), Some(l.view))
                    + Joining(lists, l, ids, action)
    ensures var r := BulkLabelList(lists, l, ids, action);
      && (forall t :: t in r.threads <==> t in all)
      && (DistinctIds(all) ==> DistinctIds(r.threads))
  {
    BulkListIs(lists, l, ids, action, all);
    SortFacts(all);
  }

  lemma BulkLabelMirrors(lists: seq<ThreadList>, e: Event, i: nat, d: string)
    requires CacheOk(lists, d) && i < |lists| && WellFormed(lists, e, d)
    requires e.BulkEvent? && ChangesLabels(e.action)
    ensures Mirrors(lists, e, lists[i], StepList(lists, e, lists[i]), d)
  {
    var l := lists[i];
    var kept := Keep(PatchAll(l.threads, IdSet(e.threadIds), Bulk(e.action)), IdSet(e.threadIds), Some(l.view));
    var joining := Joining(lists, l, e.threadIds, e.action);
    var r := BulkLabelList(lists, l, e.threadIds, e.action);
    BulkResult(lists, e, i, d, kept, joining);
    BulkListIs(lists, l, e.threadIds, e.action, kept + joining);
    if l.total >= |l.threads| { BulkTotals(lists, l, e.threadIds, e.action, kept + joining); }
    BulkMembers(lists, l, e.threadIds, e.action, kept + joining);
    if l.view == Inbox { BulkInboxShows(lists, e, l, r, kept + joining); }
    MirrorsWhenPlaced(lists, e, i, d, r);
  }

  lemma BulkInboxShows(lists: seq<ThreadList>, e: Event, l: ThreadList, r: ThreadList, all: seq<Thread>)
    requires l.view == Inbox && e.BulkEvent? && forall t :: t in r.threads <==> t in all
    requires forall id | id in e.threadIds && BelongsAfter(lists, e, Inbox, id) :: id in Ids(all)
    requires forall id | id !in e.threadIds && Holds(l, id) :: id in Ids(all)
    ensures InboxShows(lists, e, l, r)
  {
    forall id | (id in Named(e) || Holds(l, id)) && Shown(lists, e, id)
      ensures Holds(r, id)
    {
      assert id in e.threadIds ==> BelongsAfter(lists, e, Inbox, id);
      var t: Thread :| t in all && t.id == id;
      InListIsHeld(r, t);
    }
  }

  lemma BulkUntouched(l: ThreadList, ids: seq<string>, action: BulkAction)
    requires forall t :: t in l.threads ==> t.id !in ids
    ensures Keep(PatchAll(l.threads, IdSet(ids), Bulk(action)), IdSet(ids), Some(l.view)) == l.threads
  {
    assert PatchAll(l.threads, IdSet(ids), Bulk(action)) == l.threads;
    KeepMembers(l.threads, IdSet(ids), Some(l.view));
  }

  // --- the whole cache ---

  lemma StepMirrors(lists: seq<ThreadList>, e: Event, i: nat, d: string)
    requires CacheOk(lists, d) && i < |lists| && WellFormed(lists, e, d)
    ensures Mirrors(lists, e, lists[i], StepList(lists, e, lists[i]), d)
  {
    match e
    case EmailEvent(_, _, _) => EmailMirrors(lists, e, i, d);
    case StarEvent(_, _, _) => StarMirrors(lists, e, i, d);
    case MuteEvent(_, _) => MuteMirrors(lists, e, i, d);
    case ReadEvent(_, _, _) => ReadMirrors(lists, e, i, d);
    case MoveEvent(_, _, _) => MoveMirrors(lists, e, i, d);
    case DeleteEvent(_, _) => MoveMirrors(lists, e, i, d);
    case BulkEvent(action, _) =>
      if action.BulkDelete? {
        BulkDeleteMirrors(lists, e, i, d);
      } else if action.BulkRead? || action.BulkUnread? {
        BulkReadMirrors(lists, e, i, d);
      } else {
        BulkLabelMirrors(lists, e, i, d);
      }
  }

  /** The total moved with the length, down to zero. */
  predicate TotalFollows(l: ThreadList, r: ThreadList) {
    r.total == Max(0, l.total + |r.threads| - |l.threads|)
  }

  lemma DropTotal(l: ThreadList, id: string)
    requires DistinctIds(l.threads) && l.total >= 0
    ensures TotalFollows(l, Drop(l, id))
  {
    KeepLength(l.threads, id);
    if Holds(l, id) { assert FindIn(l.threads, id).value in l.threads; }
  }

  lemma SortLength(ts: seq<Thread>)
    ensures |SortNewestFirst(ts)| == |ts|
  {
    SortFacts(ts);
  }

  lemma AddTotal(l: ThreadList, t: Thread)
    requires l.total >= 0
    ensures TotalFollows(l, Add(l, t))
  {
    SortLength([t] + l.threads);
  }

  lemma PatchTotal(l: ThreadList, ids: set<string>, p: Patch)
    requires l.total >= 0
    ensures TotalFollows(l, PatchList(l, ids, p))
    ensures TotalFollows(l, l.(threads := SortNewestFirst(PatchAll(l.threads, ids, p))))
  {
    SortLength(PatchAll(l.threads, ids, p));
  }

  lemma BulkTotal(lists: seq<ThreadList>, l: ThreadList, e: Event)
    requires l.total >= 0 && e.BulkEvent?
    ensures TotalFollows(l, StepList(lists, e, l))
  {
    if ChangesLabels(e.action) {
      BulkLabelTotal(lists, l, e.threadIds, e.action);
    } else if e.action.BulkDelete? {
      KeepMembers(l.threads, IdSet(e.threadIds), None);
    } else {
      PatchTotal(l, IdSet(e.threadIds), BulkPatch(e.action));
    }
  }

  lemma BulkLabelTotal(lists: seq<ThreadList>, l: ThreadList, ids: seq<string>, action: BulkAction)
    requires l.total >= 0
    ensures TotalFollows(l, BulkLabelList(lists, l, ids, action))
  {
    var all := Keep(PatchAll(l.threads, IdSet(ids), Bulk(action)), IdSet(ids), Some(l.view))
               + Joining(lists, l, ids, action);
    BulkListIs(lists, l, ids, action, all);
    SortLength(all);
  }

  lemma ThreadTotal(lists: seq<ThreadList>, l: ThreadList, e: Event, t: Thread)
    requires DistinctIds(l.threads) && l.total >= 0
    requires (e.EmailEvent? || e.StarEvent? || e.MuteEvent? || e.MoveEvent?) && e.thread == Some(t)
    ensures TotalFollows(l, StepList(lists, e, l))
  {
    DropTotal(l, e.threadId);
    AddTotal(l, t);
    if e.StarEvent? || e.MuteEvent? {
      PatchTotal(l, {e.threadId}, Relabel(t.labels));
    } else {
      PatchTotal(l, {e.threadId}, Whole(t));
      SortLength(PatchAll(l.threads, {e.threadId}, Whole(t)));
    }
  }

  /** The total of every list follows its length through every event, down to zero: `total - length` is constant
      exactly when the list does not shrink by more than its total. */
  lemma StepTotal(lists: seq<ThreadList>, e: Event, l: ThreadList)
    requires DistinctIds(l.threads) && l.total >= 0
    ensures var r := StepList(lists, e, l);
      && TotalFollows(l, r)
      && (r.total - |r.threads| == l.total - |l.threads| <==> |l.threads| - |r.threads| <= l.total)
  {
    match e
    case BulkEvent(_, _) => BulkTotal(lists, l, e);
    case DeleteEvent(id, _) => DropTotal(l, id);
    case ReadEvent(read, id, _) => PatchTotal(l, {id}, Unread(if read then 0 else 1));
    case MoveEvent(id, _, None) => DropTotal(l, id);
    case _ => if e.thread.Some? { ThreadTotal(lists, l, e, e.thread.value); }
  }

  /** The list invariant survives every event: distinct ids, one domain, agreeing copies, an inbox that shows the
      eligible threads and no others; and `total - length` of every list is constant. */
  lemma StepKeepsCache(c: Cache, e: Event, d: string)
    requires CacheOk(c.lists, d) && WellFormed(c.lists, e, d)
    ensures CacheOk(Step(c, e).lists, d)
    ensures forall i :: 0 <= i < |c.lists| ==> Mirrors(c.lists, e, c.lists[i], Step(c, e).lists[i], d)
  {
    var r := Step(c, e).lists;
    forall i | 0 <= i < |c.lists|
      ensures Mirrors(c.lists, e, c.lists[i], r[i], d)
    {
      StepMirrors(c.lists, e, i, d);
    }
    forall t | Cached(r, t)
      ensures IsCopy(NewCopy(c.lists, e, t.id), t)
    {
      var i :| 0 <= i < |r| && t in r[i].threads;
      assert Mirrors(c.lists, e, c.lists[i], r[i], d);
    }
    forall i, t | 0 <= i < |r| && r[i].view == Inbox && Cached(r, t) && InboxEligible(t.labels)
      ensures Holds(r[i], t.id)
    {
      assert Mirrors(c.lists, e, c.lists[i], r[i], d);
    }
  }
}
