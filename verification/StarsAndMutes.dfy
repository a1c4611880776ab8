/** Star and mute events of any payload: exactly when they keep the cache invariant, and the agreement of copies. */
module StarsAndMutes {
  import opened Wrappers
  import opened Labels
  import opened ThreadLists
  import opened ThreadCache
  import opened CacheInvariants
  import opened CacheSteps
  import opened UnreadBadge
  import opened ListViews

  // --- the cache invariant ---

  lemma StarredCopy(lists: seq<ThreadList>, e: Event, j: nat, t: Thread) returns (u: Thread)
    requires e.StarEvent? && e.thread == Some(t) && t.id == e.threadId && j < |lists|
    requires HoldsAfterStar(lists[j], t, e.starred)
    ensures u in StepList(lists, e, lists[j]).threads && u.id == t.id && u.labels == t.labels
    ensures Holds(lists[j], t.id) ==> u == FindIn(lists[j].threads, t.id).value.(labels := t.labels)
    ensures !Holds(lists[j], t.id) ==> u == t
  {
    var l := lists[j];
    if Holds(l, t.id) {
      u := RelabelledCopy(l, t.id, t.labels);
    } else {
      SortFacts([t] + l.threads);
      u := t;
    }
  }

  lemma RelabelledCopy(l: ThreadList, id: string, labels: set<Label>) returns (u: Thread)
    requires Holds(l, id)
    ensures u in PatchList(l, {id}, Relabel(labels)).threads && u == FindIn(l.threads, id).value.(labels := labels)
  {
    var k :| 0 <= k < |l.threads| && l.threads[k] == FindIn(l.threads, id).value;
    u := PatchList(l, {id}, Relabel(labels)).threads[k];
  }

  /** In a cache with the invariant, an inbox list holds a thread exactly when it is eligible. */
  lemma InboxHoldsIff(lists: seq<ThreadList>, i: nat, d: string, id: string)
    requires CacheOk(lists, d) && i < |lists| && lists[i].view == Inbox
    ensures Holds(lists[i], id) <==> WasEligible(lists, id)
  {
    if Holds(lists[i], id) { ListedIsFound(lists, i); }
    if WasEligible(lists, id) { InboxHolds(lists, i, d, id); }
  }

  /** If the relabelled copy of list `j` is in a cache with the invariant, its labels are as eligible as before. */
  lemma CopyFitsInbox(c: Cache, e: Event, d: string, i: nat, j: nat, t: Thread, u: Thread)
    requires CacheOk(c.lists, d) && CacheOk(Step(c, e).lists, d) && i < |c.lists| && c.lists[i].view == Inbox
    requires (e.StarEvent? || e.MuteEvent?) && e.thread == Some(t) && t.id == e.threadId && j < |c.lists|
    requires u in Step(c, e).lists[j].threads && u.id == t.id && u.labels == t.labels
    ensures InboxEligible(t.labels) <==> WasEligible(c.lists, t.id)
  {
    var r := Step(c, e).lists;
    InboxHoldsIff(c.lists, i, d, t.id);
    InboxHoldsIff(r, i, d, t.id);
    RelabelKeepsIds(c.lists[i], t.id, t.labels);
    assert Cached(r, u);
    CachedIsFound(r, u);
  }

  lemma RelabelKeepsIds(l: ThreadList, id: string, labels: set<Label>)
    ensures Holds(PatchList(l, {id}, Relabel(labels)), id) <==> Holds(l, id)
  {
    var r := PatchList(l, {id}, Relabel(labels));
    if Holds(l, id) { SameIdsHeld(l, r, id); }
    if Holds(r, id) { SameIdsHeld(r, l, id); }
  }

  /** A star event keeps the copies in agreement exactly when a starred list takes the thread in with the unread
      count of the cached copies. */
  lemma StarKeepsAgreementIff(c: Cache, e: Event, d: string)
    requires CacheOk(c.lists, d) && Addressed(c.lists, e, d) && e.StarEvent? && e.thread.Some?
    ensures var t, cached := e.thread.value, FindCached(c.lists, e.threadId);
      Coherent(Step(c, e).lists)
      <==> (cached.Some? && StarTaken(c.lists, t, e.starred) ==> t.unread == cached.value.unread)
  {
    var t, cached := e.thread.value, FindCached(c.lists, e.threadId);
    if cached.Some? && StarTaken(c.lists, t, e.starred) && t.unread != cached.value.unread {
      StarDisagrees(c, e, d, t);
    } else {
      forall u | Cached(Step(c, e).lists, u)
        ensures IsCopy(NewCopy(c.lists, e, u.id), u)
      {
        StarredIsNewCopy(c, e, d, t, u);
      }
    }
  }

  lemma StarDisagrees(c: Cache, e: Event, d: string, t: Thread)
    requires CacheOk(c.lists, d) && Addressed(c.lists, e, d) && e.StarEvent? && e.thread == Some(t)
    requires FindCached(c.lists, t.id).Some? && StarTaken(c.lists, t, e.starred)
    requires t.unread != FindCached(c.lists, t.id).value.unread
    ensures !Coherent(Step(c, e).lists)
  {
    var r, cached := Step(c, e).lists, FindCached(c.lists, t.id).value;
    var j :| 0 <= j < |c.lists| && TakesStar(c.lists[j], t, e.starred);
    var k :| 0 <= k < |c.lists| && cached in c.lists[k].threads;
    InListIsHeld(c.lists[k], cached);
    ListedIsFound(c.lists, k);
    var u := StarredCopy(c.lists, e, j, t);
    var v := StarredCopy(c.lists, e, k, t);
    assert u in r[j].threads && v in r[k].threads;
    assert Cached(r, u) && Cached(r, v) && !Alike(u, v);
  }

  lemma StarredIsNewCopy(c: Cache, e: Event, d: string, t: Thread, u: Thread)
    requires CacheOk(c.lists, d) && Addressed(c.lists, e, d) && e.StarEvent? && e.thread == Some(t)
    requires FindCached(c.lists, t.id).Some? && StarTaken(c.lists, t, e.starred)
      ==> t.unread == FindCached(c.lists, t.id).value.unread
    requires Cached(Step(c, e).lists, u)
    ensures IsCopy(NewCopy(c.lists, e, u.id), u)
  {
    var r := Step(c, e).lists;
    var i :| 0 <= i < |r| && u in r[i].threads;
    StarredListed(c.lists, e, i, d, t, u);
  }

  lemma StarredListed(lists: seq<ThreadList>, e: Event, i: nat, d: string, t: Thread, u: Thread)
    requires CacheOk(lists, d) && Addressed(lists, e, d) && e.StarEvent? && e.thread == Some(t) && i < |lists|
    requires FindCached(lists, t.id).Some? && StarTaken(lists, t, e.starred)
      ==> t.unread == FindCached(lists, t.id).value.unread
    requires u in StepList(lists, e, lists[i]).threads
    ensures IsCopy(NewCopy(lists, e, u.id), u)
  {
    var l := lists[i];
    DropFacts(l, t.id);
    if TakesStar(l, t, e.starred) {
      AddFacts(l, t);
      if u == t { TakenAgrees(lists, e, i, d, t); } else { UntouchedAgrees(lists, e, i, d, t, u); }
    } else if l.view == Starred && !e.starred && Holds(l, t.id) {
      UntouchedAgrees(lists, e, i, d, t, u);
    } else {
      var j :| 0 <= j < |l.threads| && PatchAll(l.threads, {t.id}, Relabel(t.labels))[j] == u;
      if u.id == t.id { RelabelledAgrees(lists, e, i, d, t, j); } else { UntouchedAgrees(lists, e, i, d, t, u); }
    }
  }

  lemma TakenAgrees(lists: seq<ThreadList>, e: Event, i: nat, d: string, t: Thread)
    requires CacheOk(lists, d) && Addressed(lists, e, d) && e.StarEvent? && e.thread == Some(t) && i < |lists|
    requires TakesStar(lists[i], t, e.starred)
    requires FindCached(lists, t.id).Some? ==> t.unread == FindCached(lists, t.id).value.unread
    ensures IsCopy(NewCopy(lists, e, t.id), t)
  {
    assert HoldsAfterStar(lists[i], t, e.starred);
    if FindCached(lists, t.id).Some? { CachedHasDomain(lists, d, t.id); }
  }

  lemma UntouchedAgrees(lists: seq<ThreadList>, e: Event, i: nat, d: string, t: Thread, u: Thread)
    requires CacheOk(lists, d) && e.StarEvent? && e.thread == Some(t) && t.id == e.threadId && i < |lists|
    requires u in lists[i].threads && u.id != t.id
    ensures IsCopy(NewCopy(lists, e, u.id), u)
  {
    ListedIsFound(lists, i);
  }

  lemma RelabelledAgrees(lists: seq<ThreadList>, e: Event, i: nat, d: string, t: Thread, j: nat)
    requires CacheOk(lists, d) && e.StarEvent? && e.thread == Some(t) && t.id == e.threadId && i < |lists|
    requires j < |lists[i].threads| && lists[i].threads[j].id == t.id && !(lists[i].view == Starred && !e.starred)
    ensures IsCopy(NewCopy(lists, e, t.id), lists[i].threads[j].(labels := t.labels))
  {
    ListedIsFound(lists, i);
    assert lists[i].threads[j] in lists[i].threads;
    InListIsHeld(lists[i], lists[i].threads[j]);
    assert HoldsAfterStar(lists[i], t, e.starred);
  }

  /** What star and mute events are asked is necessary: with an inbox in the cache, one of any payload keeps the
      invariant exactly when it is well formed. */
  lemma StepKeepsCacheIff(c: Cache, e: Event, d: string)
    requires CacheOk(c.lists, d) && HasInbox(c.lists) && Addressed(c.lists, e, d) && (e.StarEvent? || e.MuteEvent?)
    ensures CacheOk(Step(c, e).lists, d) <==> WellFormed(c.lists, e, d)
  {
    if WellFormed(c.lists, e, d) {
      StepKeepsCache(c, e, d);
    } else if e.thread.Some? && CacheOk(Step(c, e).lists, d) {
      var i :| 0 <= i < |c.lists| && c.lists[i].view == Inbox;
      if e.StarEvent? { StarMustFit(c, e, d, i, e.thread.value); } else { MuteMustFit(c, e, d, i, e.thread.value); }
    }
  }

  lemma StarMustFit(c: Cache, e: Event, d: string, i: nat, t: Thread)
    requires CacheOk(c.lists, d) && CacheOk(Step(c, e).lists, d) && i < |c.lists| && c.lists[i].view == Inbox
    requires Addressed(c.lists, e, d) && e.StarEvent? && e.thread == Some(t)
    ensures StarFits(c.lists, t, e.starred)
  {
    StarKeepsAgreementIff(c, e, d);
    if HeldAfterStar(c.lists, t, e.starred) {
      var j :| 0 <= j < |c.lists| && HoldsAfterStar(c.lists[j], t, e.starred);
      var u := StarredCopy(c.lists, e, j, t);
      CopyFitsInbox(c, e, d, i, j, t, u);
    }
  }

  lemma MuteMustFit(c: Cache, e: Event, d: string, i: nat, t: Thread)
    requires CacheOk(c.lists, d) && CacheOk(Step(c, e).lists, d) && i < |c.lists| && c.lists[i].view == Inbox
    requires Addressed(c.lists, e, d) && e.MuteEvent? && e.thread == Some(t)
    ensures MuteFits(c.lists, t)
  {
    var cached := FindCached(c.lists, t.id);
    if cached.Some? {
      var j :| 0 <= j < |c.lists| && cached.value in c.lists[j].threads;
      InListIsHeld(c.lists[j], cached.value);
      var u := RelabelledCopy(c.lists[j], t.id, t.labels);
      CopyFitsInbox(c, e, d, i, j, t, u);
    }
  }

  // --- copies that agree in everything ---

  /** All cached copies of one thread are the same, down to what is displayed. */
  ghost predicate Identical(lists: seq<ThreadList>) {
    forall t, u :: Cached(lists, t) && Cached(lists, u) && t.id == u.id ==> t == u
  }

  lemma {:induction false} IdenticalIsFound(lists: seq<ThreadList>, i: nat, t: Thread)
    requires Identical(lists) && i < |lists| && t in lists[i].threads
    ensures FindCached(lists, t.id) == Some(t)
  {
    assert t.id in Ids(lists[i].threads);
    assert Cached(lists, t);
  }

  /** A starred list takes in what the other lists have. */
  predicate TakesSame(lists: seq<ThreadList>, e: Event) {
    match e
    case StarEvent(starred, id, Some(t)) =>
      var cached := FindCached(lists, id);
      StarTaken(lists, t, starred) && cached.Some? ==> t == cached.value.(labels := t.labels)
    case _ => true
  }

  lemma PayloadIsExact(lists: seq<ThreadList>, e: Event, i: nat, d: string, t: Thread)
    requires CacheOk(lists, d) && Identical(lists) && Addressed(lists, e, d) && i < |lists|
    requires (e.EmailEvent? || e.MoveEvent?) && e.thread.Some? && t in StepList(lists, e, lists[i]).threads
    ensures NewCopy(lists, e, t.id) == Some(t)
  {
    var l, p := lists[i], e.thread.value;
    DropFacts(l, p.id);
    if !BelongsInView(p.labels, l.view) {
      IdenticalIsFound(lists, i, t);
    } else if !Holds(l, p.id) {
      AddFacts(l, p);
      if t != p {
        InListIsHeld(l, t);
        IdenticalIsFound(lists, i, t);
      }
    } else {
      SortFacts(PatchAll(l.threads, {p.id}, Whole(p)));
      var u := FromPatch(l.threads, {p.id}, Whole(p), t);
      IdenticalIsFound(lists, i, u);
    }
  }

  lemma StarredIsExact(lists: seq<ThreadList>, e: Event, i: nat, d: string, t: Thread)
    requires CacheOk(lists, d) && Identical(lists) && Addressed(lists, e, d) && TakesSame(lists, e) && i < |lists|
    requires e.StarEvent? && e.thread.Some? && t in StepList(lists, e, lists[i]).threads
    ensures NewCopy(lists, e, t.id) == Some(t)
  {
    var l, p := lists[i], e.thread.value;
    if l.view == Starred && !e.starred && Holds(l, p.id) {
      DropFacts(l, p.id);
      IdenticalIsFound(lists, i, t);
    } else if TakesStar(l, p, e.starred) {
      TakenIsExact(lists, e, i, t);
    } else {
      LabelledIsExact(lists, e, i, t);
    }
  }

  lemma TakenIsExact(lists: seq<ThreadList>, e: Event, i: nat, t: Thread)
    requires Identical(lists) && TakesSame(lists, e) && i < |lists| && DistinctIds(lists[i].threads)
    requires e.StarEvent? && e.thread.Some? && e.thread.value.id == e.threadId
    requires TakesStar(lists[i], e.thread.value, e.starred) && t in Add(lists[i], e.thread.value).threads
    ensures NewCopy(lists, e, t.id) == Some(t)
  {
    var l, p := lists[i], e.thread.value;
    AddFacts(l, p);
    assert HoldsAfterStar(l, p, e.starred);
    if t != p {
      InListIsHeld(l, t);
      IdenticalIsFound(lists, i, t);
    }
  }

  lemma LabelledIsExact(lists: seq<ThreadList>, e: Event, i: nat, t: Thread)
    requires Identical(lists) && i < |lists| && e.StarEvent? && e.thread.Some? && e.thread.value.id == e.threadId
    requires !(lists[i].view == Starred && !e.starred && Holds(lists[i], e.threadId))
    requires t in PatchAll(lists[i].threads, {e.threadId}, Relabel(e.thread.value.labels))
    ensures NewCopy(lists, e, t.id) == Some(t)
  {
    var l, p := lists[i], e.thread.value;
    var u := FromPatch(l.threads, {p.id}, Relabel(p.labels), t);
    IdenticalIsFound(lists, i, u);
    InListIsHeld(l, u);
    assert u.id == p.id ==> HoldsAfterStar(l, p, e.starred);
  }

  lemma BulkIsExact(lists: seq<ThreadList>, e: Event, i: nat, d: string, t: Thread)
    requires CacheOk(lists, d) && Identical(lists) && i < |lists|
    requires e.BulkEvent? && t in StepList(lists, e, lists[i]).threads
    ensures NewCopy(lists, e, t.id) == Some(t)
  {
    var l, ids := lists[i], IdSet(e.threadIds);
    if e.action.BulkDelete? {
      KeepMembers(l.threads, ids, None);
      IdenticalIsFound(lists, i, t);
    } else if ChangesLabels(e.action) {
      BulkLabelIsExact(lists, e, i, d, t);
    } else {
      var u := FromPatch(l.threads, ids, BulkPatch(e.action), t);
      IdenticalIsFound(lists, i, u);
      MarkedIsNew(lists, e, u, t);
    }
  }

  lemma MarkedIsNew(lists: seq<ThreadList>, e: Event, u: Thread, t: Thread)
    requires e.BulkEvent? && (e.action.BulkRead? || e.action.BulkUnread?) && FindCached(lists, u.id) == Some(u)
    requires t == if u.id in e.threadIds then ApplyPatch(BulkPatch(e.action), u) else u
    ensures t.id == u.id && NewCopy(lists, e, t.id) == Some(t)
  {
  }

  lemma BulkLabelIsExact(lists: seq<ThreadList>, e: Event, i: nat, d: string, t: Thread)
    requires CacheOk(lists, d) && Identical(lists) && i < |lists| && e.BulkEvent? && ChangesLabels(e.action)
    requires t in BulkLabelList(lists, lists[i], e.threadIds, e.action).threads
    ensures NewCopy(lists, e, t.id) == Some(t)
  {
    var l, ids := lists[i], IdSet(e.threadIds);
    var kept := Keep(PatchAll(l.threads, ids, Bulk(e.action)), ids, Some(l.view));
    var joining := Joining(lists, l, e.threadIds, e.action);
    BulkMembers(lists, l, e.threadIds, e.action, kept + joining);
    if t in joining { JoinedIsExact(lists, e, i, d, t); } else { KeptIsExact(lists, e, i, t); }
  }

  lemma KeptIsExact(lists: seq<ThreadList>, e: Event, i: nat, t: Thread)
    requires Identical(lists) && i < |lists| && e.BulkEvent? && ChangesLabels(e.action)
    requires var ids := IdSet(e.threadIds);
      t in Keep(PatchAll(lists[i].threads, ids, Bulk(e.action)), ids, Some(lists[i].view))
    ensures NewCopy(lists, e, t.id) == Some(t)
  {
    var l, ids := lists[i], IdSet(e.threadIds);
    KeepMembers(PatchAll(l.threads, ids, Bulk(e.action)), ids, Some(l.view));
    var u := FromPatch(l.threads, ids, Bulk(e.action), t);
    IdenticalIsFound(lists, i, u);
    RelabelledIsNew(lists, e, u, t);
  }

  lemma RelabelledIsNew(lists: seq<ThreadList>, e: Event, u: Thread, t: Thread)
    requires e.BulkEvent? && ChangesLabels(e.action) && FindCached(lists, u.id) == Some(u)
    requires t == if u.id in e.threadIds then ApplyPatch(Bulk(e.action), u) else u
    ensures t.id == u.id && NewCopy(lists, e, t.id) == Some(t)
  {
  }

  lemma JoinedIsExact(lists: seq<ThreadList>, e: Event, i: nat, d: string, t: Thread)
    requires CacheOk(lists, d) && i < |lists| && e.BulkEvent? && ChangesLabels(e.action)
    requires t in Joining(lists, lists[i], e.threadIds, e.action)
    ensures NewCopy(lists, e, t.id) == Some(t)
  {
    JoiningMembers(lists, lists[i], e.threadIds, e.action);
    JoinsWhenBelongs(lists, e, i, d, t.id);
  }

  lemma StepIsExact(lists: seq<ThreadList>, e: Event, i: nat, d: string, t: Thread)
    requires CacheOk(lists, d) && Identical(lists) && Addressed(lists, e, d) && TakesSame(lists, e) && i < |lists|
    requires t in StepList(lists, e, lists[i]).threads
    ensures NewCopy(lists, e, t.id) == Some(t)
  {
    var l := lists[i];
    match e
    case EmailEvent(_, _, Some(_)) => PayloadIsExact(lists, e, i, d, t);
    case MoveEvent(_, _, Some(_)) => PayloadIsExact(lists, e, i, d, t);
    case StarEvent(_, _, Some(_)) => StarredIsExact(lists, e, i, d, t);
    case BulkEvent(_, _) => BulkIsExact(lists, e, i, d, t);
    case MuteEvent(id, Some(p)) => PatchedIsExact(lists, e, i, id, Relabel(p.labels), t);
    case ReadEvent(read, id, _) => PatchedIsExact(lists, e, i, id, Unread(if read then 0 else 1), t);
    case MoveEvent(id, _, None) => DroppedIsExact(lists, i, id, t);
    case DeleteEvent(id, _) => DroppedIsExact(lists, i, id, t);
    case _ => IdenticalIsFound(lists, i, t);
  }

  lemma PatchedIsExact(lists: seq<ThreadList>, e: Event, i: nat, id: string, p: Patch, t: Thread)
    requires Identical(lists) && i < |lists| && t in PatchAll(lists[i].threads, {id}, p)
    requires match e
      case MuteEvent(named, Some(payload)) => named == id && p == Relabel(payload.labels)
      case ReadEvent(read, named, _) => named == id && p == Unread(if read then 0 else 1)
      case _ => false
    ensures NewCopy(lists, e, t.id) == Some(t)
  {
    var u := FromPatch(lists[i].threads, {id}, p, t);
    IdenticalIsFound(lists, i, u);
  }

  lemma DroppedIsExact(lists: seq<ThreadList>, i: nat, id: string, t: Thread)
    requires Identical(lists) && i < |lists| && DistinctIds(lists[i].threads) && t in Drop(lists[i], id).threads
    ensures t.id != id && FindCached(lists, t.id) == Some(t)
  {
    DropFacts(lists[i], id);
    IdenticalIsFound(lists, i, t);
  }

  /** Copies that are the same stay the same under every event, exactly as long as a starred list takes in what the
      other lists have. */
  lemma StepKeepsIdenticalIff(c: Cache, e: Event, d: string)
    requires CacheOk(c.lists, d) && Identical(c.lists) && Addressed(c.lists, e, d)
    ensures Identical(Step(c, e).lists) <==> TakesSame(c.lists, e)
  {
    var r := Step(c, e).lists;
    if TakesSame(c.lists, e) {
      forall t | Cached(r, t)
        ensures NewCopy(c.lists, e, t.id) == Some(t)
      {
        var i :| 0 <= i < |r| && t in r[i].threads;
        StepIsExact(c.lists, e, i, d, t);
      }
    } else {
      StarDiffers(c, e, d, e.thread.value);
    }
  }

  lemma StarDiffers(c: Cache, e: Event, d: string, t: Thread)
    requires Identical(c.lists) && Addressed(c.lists, e, d) && e.StarEvent? && e.thread == Some(t)
    requires !TakesSame(c.lists, e)
    ensures !Identical(Step(c, e).lists)
  {
    var r, cached := Step(c, e).lists, FindCached(c.lists, t.id).value;
    var j :| 0 <= j < |c.lists| && TakesStar(c.lists[j], t, e.starred);
    var k :| 0 <= k < |c.lists| && cached in c.lists[k].threads;
    InListIsHeld(c.lists[k], cached);
    IdenticalIsFound(c.lists, k, FindIn(c.lists[k].threads, t.id).value);
    var u := StarredCopy(c.lists, e, j, t);
    var v := StarredCopy(c.lists, e, k, t);
    assert u in r[j].threads && v in r[k].threads;
    assert Cached(r, u) && Cached(r, v);
  }

  // --- what is excluded ---

  /** A read thread in the archive that a star event puts into the inbox: nothing goes wrong at once, since nothing is
      unread. But the inbox list has missed the thread, and marking it unread moves the badge and not the list. */
  lemma StarIntoInboxDrifts(t: Thread, d: string)
    requires t.domainId == d && t.labels == {} && t.unread == 0
    ensures var starred := Step(OneArchived(t, d), StarEvent(true, t.id, Some(t.(labels := {Inbox, Starred}))));
      && CacheOk(OneArchived(t, d).lists, d) && BadgeOk(OneArchived(t, d), d)
      && BadgeOk(starred, d) && !CacheOk(starred.lists, d)
      && !BadgeOk(Step(starred, ReadEvent(false, t.id, Some(d))), d)
  {
    var u := t.(labels := {Inbox, Starred});
    ArchivedIsOk(t, d);
    StarredArchived(t, d, u);
    ArchivedMarkedUnread(u, d);
  }

  lemma StarredArchived(t: Thread, d: string, u: Thread)
    requires t.domainId == d && t.labels == {} && u == t.(labels := {Inbox, Starred})
    ensures Step(OneArchived(t, d), StarEvent(true, t.id, Some(u))) == OneArchived(u, d)
  {
    var c, e := OneArchived(t, d), StarEvent(true, t.id, Some(u));
    RelabelOne(t, u);
    assert StepList(c.lists, e, c.lists[0]) == c.lists[0];
    assert StepList(c.lists, e, c.lists[1]) == c.lists[1].(threads := [u]);
    assert Step(c, e).lists == OneArchived(u, d).lists;
  }

  lemma RelabelOne(t: Thread, u: Thread)
    requires u == t.(labels := u.labels)
    ensures PatchAll([], {t.id}, Relabel(u.labels)) == [] && PatchAll([t], {t.id}, Relabel(u.labels)) == [u]
  {
  }

  lemma ArchivedMarkedUnread(u: Thread, d: string)
    requires u.domainId == d && InboxEligible(u.labels) && u.unread == 0
    ensures BadgeOk(OneArchived(u, d), d) && !CacheOk(OneArchived(u, d).lists, d)
    ensures !BadgeOk(Step(OneArchived(u, d), ReadEvent(false, u.id, Some(d))), d)
  {
    var c := OneArchived(u, d);
    var r := Step(c, ReadEvent(false, u.id, Some(d)));
    ArchivedIsFound(u, d);
    assert c.lists[0].view == Inbox && u in c.lists[1].threads && Cached(c.lists, u) && !Holds(c.lists[0], u.id);
    assert r.lists[0].view == Inbox && r.lists[0].threads == [] && Badge(r.counts, d) == 1;
  }
}
