/** What every event keeps about the cached lists: their domain, distinct ids, agreeing copies, and an inbox list
    that shows the eligible threads and no others. Whether the other lists show what belongs there is the subject
    of module `ListViews`. */
module CacheInvariants {
  import opened Wrappers
  import opened Labels
  import opened ThreadLists
  import opened ThreadCache

  predicate FitsInbox(view: Label, t: Thread) {
    view == Inbox ==> InboxEligible(t.labels)
  }

  /** One cached list holds threads of its domain, once each; an inbox list holds eligible ones only. */
  ghost predicate ListOk(l: ThreadList, d: string) {
    && l.domainId == d
    && DistinctIds(l.threads)
    && forall t :: t in l.threads ==> t.domainId == d && FitsInbox(l.view, t)
  }

  /** Two copies of one thread that agree on labels and unread count. They may differ in what is displayed. */
  predicate Alike(t: Thread, u: Thread) {
    t.id == u.id && t.domainId == u.domainId && t.labels == u.labels && t.unread == u.unread
  }

  predicate IsCopy(found: Option<Thread>, t: Thread) {
    found.Some? && Alike(found.value, t)
  }

  /** All cached copies of one thread agree. */
  ghost predicate Coherent(lists: seq<ThreadList>) {
    forall t, u :: Cached(lists, t) && Cached(lists, u) && t.id == u.id ==> Alike(t, u)
  }

  /** Every inbox list is cached in full: it holds each eligible thread that is cached anywhere. */
  ghost predicate InboxInFull(lists: seq<ThreadList>) {
    forall i, t :: 0 <= i < |lists| && lists[i].view == Inbox && Cached(lists, t) && InboxEligible(t.labels)
      ==> Holds(lists[i], t.id)
  }

  /** The invariant of the cached lists of one domain. */
  ghost predicate CacheOk(lists: seq<ThreadList>, d: string) {
    && (forall i :: 0 <= i < |lists| ==> ListOk(lists[i], d))
    && Coherent(lists)
    && InboxInFull(lists)
  }

  // --- what an event relies on ---

  /** A starred list takes the thread of a star event in. */
  predicate TakesStar(l: ThreadList, t: Thread, starred: bool) {
    l.view == Starred && starred && !Holds(l, t.id) && BelongsInView(t.labels, Starred)
  }

  predicate StarTaken(lists: seq<ThreadList>, t: Thread, starred: bool) {
    exists i :: 0 <= i < |lists| && TakesStar(lists[i], t, starred)
  }

  /** A list holds the thread after a star event: it keeps its copy, or takes the thread in. */
  predicate HoldsAfterStar(l: ThreadList, t: Thread, starred: bool) {
    if Holds(l, t.id) then !(l.view == Starred && !starred) else TakesStar(l, t, starred)
  }

  predicate HeldAfterStar(lists: seq<ThreadList>, t: Thread, starred: bool) {
    exists i :: 0 <= i < |lists| && HoldsAfterStar(lists[i], t, starred)
  }

  predicate WasEligible(lists: seq<ThreadList>, id: string) {
    var cached := FindCached(lists, id);
    cached.Some? && InboxEligible(cached.value.labels)
  }

  /** Whatever its other labels, the payload of a star event that leaves a copy leaves the thread in the inbox or out
      of it; and a starred list takes it in with the unread count of the cached copies. */
  predicate StarFits(lists: seq<ThreadList>, t: Thread, starred: bool) {
    var cached := FindCached(lists, t.id);
    && (HeldAfterStar(lists, t, starred) ==> (InboxEligible(t.labels) <==> WasEligible(lists, t.id)))
    && (cached.Some? && StarTaken(lists, t, starred) ==> t.unread == cached.value.unread)
  }

  predicate MuteFits(lists: seq<ThreadList>, t: Thread) {
    FindCached(lists, t.id).Some? ==> (InboxEligible(t.labels) <==> WasEligible(lists, t.id))
  }

  predicate ChangesLabels(action: BulkAction) {
    !action.BulkDelete? && !action.BulkRead? && !action.BulkUnread?
  }

  /** No repeated id of a selection brings a thread into the list. */
  ghost predicate RepeatsStayOut(lists: seq<ThreadList>, l: ThreadList, ids: seq<string>, action: BulkAction) {
    forall i, j :: 0 <= i < j < |ids| && ids[i] == ids[j] ==> JoinsAs(lists, l, ids[i], action).None?
  }

  /** An event of domain `d`: its payload has the id and the domain of its thread. A bulk event may repeat an id,
      as long as no list takes the thread in. */
  ghost predicate Addressed(lists: seq<ThreadList>, e: Event, d: string) {
    match e
    case EmailEvent(_, id, Some(t)) => t.id == id && t.domainId == d
    case StarEvent(_, id, Some(t)) => t.id == id && t.domainId == d
    case MuteEvent(id, Some(t)) => t.id == id && t.domainId == d
    case ReadEvent(_, _, domainId) => domainId.Some? ==> domainId.value == d
    case MoveEvent(id, domainId, thread) =>
      && (domainId.Some? ==> domainId.value == d)
      && (thread.Some? ==> thread.value.id == id && thread.value.domainId == d)
    case DeleteEvent(_, domainId) => domainId.Some? ==> domainId.value == d
    case BulkEvent(action, ids) =>
      ChangesLabels(action) ==> forall i :: 0 <= i < |lists| ==> RepeatsStayOut(lists, lists[i], ids, action)
    case _ => true
  }

  /** The events that keep the invariant. Star and mute events write labels and adjust no inbox list; lemma
      `StarsAndMutes.StepKeepsCacheIff` shows that what they are asked here is necessary. */
  ghost predicate WellFormed(lists: seq<ThreadList>, e: Event, d: string) {
    && Addressed(lists, e, d)
    && match e
       case StarEvent(starred, _, Some(t)) => StarFits(lists, t, starred)
       case MuteEvent(_, Some(t)) => MuteFits(lists, t)
       case _ => true
  }

  /** What each cached copy of a thread is after an event, when one is left. */
  function NewCopy(lists: seq<ThreadList>, e: Event, id: string): Option<Thread> {
    var cached := FindCached(lists, id);
    match e
    case EmailEvent(_, named, Some(t)) => if id == named then Some(t) else cached
    case StarEvent(starred, named, Some(t)) =>
      if id != named then cached
      else if !HeldAfterStar(lists, t, starred) then None
      else if cached.Some? then Some(cached.value.(labels := t.labels))
      else Some(t)
    case MuteEvent(named, Some(t)) =>
      if id == named && cached.Some? then Some(cached.value.(labels := t.labels)) else cached
    case ReadEvent(read, named, _) =>
      if id == named && cached.Some? then Some(cached.value.(unread := if read then 0 else 1)) else cached
    case MoveEvent(named, _, thread) => if id == named then thread else cached
    case DeleteEvent(named, _) => if id == named then None else cached
    case BulkEvent(action, ids) => if id in ids && cached.Some? then BulkCopy(action, cached.value) else cached
    case _ => cached
  }

  /** The ids an event names. */
  function Named(e: Event): seq<string> {
    match e
    case EmailEvent(_, id, _) => [id]
    case StarEvent(_, id, _) => [id]
    case MuteEvent(id, _) => [id]
    case ReadEvent(_, id, _) => [id]
    case MoveEvent(id, _, _) => [id]
    case DeleteEvent(id, _) => [id]
    case BulkEvent(_, ids) => ids
  }

  // --- facts about the old lists ---

  lemma CachedIsFound(lists: seq<ThreadList>, t: Thread)
    requires Coherent(lists) && Cached(lists, t)
    ensures IsCopy(FindCached(lists, t.id), t)
  {
    var i :| 0 <= i < |lists| && t in lists[i].threads;
    assert t.id in Ids(lists[i].threads);
  }

  lemma ListedIsFound(lists: seq<ThreadList>, i: nat)
    requires Coherent(lists) && i < |lists|
    ensures forall t :: t in lists[i].threads ==> IsCopy(FindCached(lists, t.id), t)
  {
    forall t | t in lists[i].threads
      ensures IsCopy(FindCached(lists, t.id), t)
    {
      assert Cached(lists, t);
      CachedIsFound(lists, t);
    }
  }

  lemma InListIsHeld(l: ThreadList, t: Thread)
    requires t in l.threads
    ensures Holds(l, t.id)
  {
    assert t.id in Ids(l.threads);
  }

  // --- one list, one event ---

  /** What a list should hold after an event: new copies; and an inbox list each eligible one. */
  ghost predicate Mirrors(lists: seq<ThreadList>, e: Event, l: ThreadList, r: ThreadList, d: string) {
    && r.view == l.view
    && ListOk(r, d)
    && (forall t :: t in r.threads ==> IsCopy(NewCopy(lists, e, t.id), t))
    && (l.view == Inbox ==> forall id :: Shown(lists, e, id) ==> Holds(r, id))
    && (l.total >= |l.threads| ==> r.total - |r.threads| == l.total - |l.threads|)
  }

  /** The thread is a new copy of its id, and eligible if the view is the inbox. */
  ghost predicate Placed(lists: seq<ThreadList>, e: Event, view: Label, t: Thread) {
    IsCopy(NewCopy(lists, e, t.id), t) && FitsInbox(view, t)
  }

  /** The inbox should show what an event makes of a thread. */
  predicate Shown(lists: seq<ThreadList>, e: Event, id: string) {
    NewCopy(lists, e, id).Some? && InboxEligible(NewCopy(lists, e, id).value.labels)
  }

  /** The inbox list has the named threads it should show, and the ones it held. */
  ghost predicate InboxShows(lists: seq<ThreadList>, e: Event, l: ThreadList, r: ThreadList) {
    forall id :: (id in Named(e) || Holds(l, id)) && Shown(lists, e, id) ==> Holds(r, id)
  }

  lemma InboxHolds(lists: seq<ThreadList>, i: nat, d: string, id: string)
    requires CacheOk(lists, d) && i < |lists| && lists[i].view == Inbox
    requires WasEligible(lists, id)
    ensures Holds(lists[i], id)
  {
    assert Cached(lists, FindCached(lists, id).value);
  }

  /** A list of placed threads mirrors the event, if the inbox list has the named threads it should show and
      keeps the ones it held. */
  lemma MirrorsWhenPlaced(lists: seq<ThreadList>, e: Event, i: nat, d: string, r: ThreadList)
    requires CacheOk(lists, d) && i < |lists| && r.view == lists[i].view && r.domainId == d
    requires lists[i].total >= |lists[i].threads| ==> r.total - |r.threads| == lists[i].total - |lists[i].threads|
    requires DistinctIds(r.threads)
    requires forall t :: t in r.threads ==> Placed(lists, e, lists[i].view, t) && t.domainId == d
    requires lists[i].view == Inbox ==> InboxShows(lists, e, lists[i], r)
    ensures Mirrors(lists, e, lists[i], r, d)
  {
    forall id | lists[i].view == Inbox && Shown(lists, e, id)
      ensures Holds(r, id)
    {
      if id !in Named(e) { InboxHolds(lists, i, d, id); }
    }
  }

  lemma DropFacts(l: ThreadList, id: string)
    requires DistinctIds(l.threads)
    ensures var r := Drop(l, id);
      && r.view == l.view && r.domainId == l.domainId && DistinctIds(r.threads)
      && (forall t :: t in r.threads <==> t in l.threads && t.id != id)
      && (l.total >= |l.threads| ==> r.total - |r.threads| == l.total - |l.threads|)
  {
    KeepMembers(l.threads, {id}, None);
    KeepDistinct(l.threads, {id}, None);
    KeepLength(l.threads, id);
  }

  lemma ListedIsPlaced(lists: seq<ThreadList>, e: Event, i: nat, d: string)
    requires CacheOk(lists, d) && i < |lists|
    ensures forall t | t in lists[i].threads && t.id !in Named(e) ::
              Placed(lists, e, lists[i].view, t) && t.domainId == d
  {
    ListedIsFound(lists, i);
  }

  lemma DropMirrors(lists: seq<ThreadList>, e: Event, i: nat, d: string, id: string)
    requires CacheOk(lists, d) && i < |lists| && Named(e) == [id]
    requires lists[i].view == Inbox ==> !Shown(lists, e, id)
    ensures Mirrors(lists, e, lists[i], Drop(lists[i], id), d)
  {
    var r := Drop(lists[i], id);
    DropFacts(lists[i], id);
    ListedIsPlaced(lists, e, i, d);
    forall other | lists[i].view == Inbox && (other == id || Holds(lists[i], other)) && Shown(lists, e, other)
      ensures Holds(r, other)
    {
      InListIsHeld(r, FindIn(lists[i].threads, other).value);
    }
    MirrorsWhenPlaced(lists, e, i, d, r);
  }

  lemma {:induction false} KeepLength(ts: seq<Thread>, id: string)
    requires DistinctIds(ts)
    ensures |Keep(ts, {id}, None)| == |ts| - if id in Ids(ts) then 1 else 0
  {
    if ts != [] {
      KeepLength(ts[1..], id);
      assert forall t :: t in ts[1..] ==> t.id != ts[0].id;
      assert ts == [ts[0]] + ts[1..];
      assert forall t :: t in ts <==> t == ts[0] || t in ts[1..];
    }
  }

  lemma AddFacts(l: ThreadList, t: Thread)
    requires DistinctIds(l.threads) && !Holds(l, t.id)
    ensures DistinctIds(Add(l, t).threads) && |Add(l, t).threads| == |l.threads| + 1
    ensures forall u :: u in Add(l, t).threads <==> u == t || u in l.threads
  {
    SortFacts([t] + l.threads);
    assert forall i :: 0 <= i < |l.threads| ==> l.threads[i].id in Ids(l.threads);
    assert DistinctIds([t] + l.threads);
  }

  lemma AddMirrors(lists: seq<ThreadList>, e: Event, i: nat, d: string, t: Thread)
    requires CacheOk(lists, d) && i < |lists| && Named(e) == [t.id]
    requires IsCopy(NewCopy(lists, e, t.id), t) && t.domainId == d && FitsInbox(lists[i].view, t)
    requires !Holds(lists[i], t.id)
    ensures Mirrors(lists, e, lists[i], Add(lists[i], t), d)
  {
    AddFacts(lists[i], t);
    AddedMirrors(lists, e, i, d, t, Add(lists[i], t));
  }

  lemma AddedMirrors(lists: seq<ThreadList>, e: Event, i: nat, d: string, t: Thread, r: ThreadList)
    requires CacheOk(lists, d) && i < |lists| && Named(e) == [t.id] && r.view == lists[i].view && r.domainId == d
    requires Placed(lists, e, lists[i].view, t) && t.domainId == d && !Holds(lists[i], t.id)
    requires r.total - |r.threads| == lists[i].total - |lists[i].threads| && DistinctIds(r.threads)
    requires forall u :: u in r.threads <==> u == t || u in lists[i].threads
    ensures Mirrors(lists, e, lists[i], r, d)
  {
    ListedIsPlaced(lists, e, i, d);
    assert forall u :: u in lists[i].threads ==> u.id in Ids(lists[i].threads);
    forall id | lists[i].view == Inbox && (id in Named(e) || Holds(lists[i], id)) && Shown(lists, e, id)
      ensures Holds(r, id)
    {
      InListIsHeld(r, if id == t.id then t else FindIn(lists[i].threads, id).value);
    }
    MirrorsWhenPlaced(lists, e, i, d, r);
  }

  /** A patch turns each named thread of a list into a new copy, which an inbox list may show. */
  ghost predicate PatchPlaces(lists: seq<ThreadList>, e: Event, l: ThreadList, d: string, ids: set<string>, p: Patch) {
    forall t :: t in l.threads && t.id in ids ==>
      && ApplyPatch(p, t).id == t.id && ApplyPatch(p, t).domainId == d
      && Placed(lists, e, l.view, ApplyPatch(p, t))
  }

  lemma PatchedArePlaced(lists: seq<ThreadList>, e: Event, i: nat, d: string, ids: set<string>, p: Patch)
    requires CacheOk(lists, d) && i < |lists| && ids == IdSet(Named(e)) && PatchPlaces(lists, e, lists[i], d, ids, p)
    ensures var r := PatchAll(lists[i].threads, ids, p);
      forall j :: 0 <= j < |r| ==>
        && r[j].id == lists[i].threads[j].id && r[j].domainId == d && Placed(lists, e, lists[i].view, r[j])
  {
    var ts := lists[i].threads;
    ListedIsPlaced(lists, e, i, d);
    assert forall j :: 0 <= j < |ts| ==> ts[j] in ts;
  }

  /** An update in place mirrors the event when it turns each named copy into the new copy. */
  lemma PatchMirrors(lists: seq<ThreadList>, e: Event, i: nat, d: string, ids: set<string>, p: Patch)
    requires CacheOk(lists, d) && i < |lists| && ids == IdSet(Named(e)) && PatchPlaces(lists, e, lists[i], d, ids, p)
    requires lists[i].view == Inbox ==> forall id :: id in ids && Shown(lists, e, id) ==> Holds(lists[i], id)
    ensures Mirrors(lists, e, lists[i], PatchList(lists[i], ids, p), d)
  {
    var l, r := lists[i], PatchList(lists[i], ids, p);
    PatchedArePlaced(lists, e, i, d, ids, p);
    forall id | l.view == Inbox && (id in Named(e) || Holds(l, id)) && Shown(lists, e, id)
      ensures Holds(r, id)
    {
      SameIdsHeld(l, r, id);
    }
    MirrorsWhenPlaced(lists, e, i, d, r);
  }

  lemma SameIdsHeld(l: ThreadList, r: ThreadList, id: string)
    requires Holds(l, id) && |r.threads| == |l.threads|
    requires forall j :: 0 <= j < |l.threads| ==> r.threads[j].id == l.threads[j].id
    ensures Holds(r, id)
  {
    var t := FindIn(l.threads, id).value;
    var j :| 0 <= j < |l.threads| && l.threads[j] == t;
    InListIsHeld(r, r.threads[j]);
  }

  /** Sorting a list changes nothing that `Mirrors` looks at. */
  lemma SortMirrors(lists: seq<ThreadList>, e: Event, l: ThreadList, r: ThreadList, d: string)
    requires Mirrors(lists, e, l, r, d)
    ensures Mirrors(lists, e, l, r.(threads := SortNewestFirst(r.threads)), d)
  {
    var sorted := r.(threads := SortNewestFirst(r.threads));
    SortFacts(r.threads);
    forall id | Holds(r, id)
      ensures Holds(sorted, id)
    {
      InListIsHeld(sorted, FindIn(r.threads, id).value);
    }
  }
}
