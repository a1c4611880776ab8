/** Applying an event twice in a row gives the cache that applying it once gives. */
module Redelivery {
  import opened Wrappers
  import opened Labels
  import opened ThreadLists
  import opened ThreadCache
  import opened CacheInvariants
  import opened CacheSteps
  import opened UnreadBadge
  import opened ListViews

  lemma PatchFixed(ts: seq<Thread>, ids: set<string>, p: Patch)
    requires forall t :: t in ts && t.id in ids ==> ApplyPatch(p, t) == t
    ensures PatchAll(ts, ids, p) == ts
  {
    assert forall i :: 0 <= i < |ts| ==> ts[i] in ts;
  }

  /** The copies left after an event are the new copies. */
  lemma FoundAfter(c: Cache, e: Event, d: string, id: string)
    requires CacheOk(c.lists, d) && WellFormed(c.lists, e, d)
    ensures var found := FindCached(Step(c, e).lists, id); found.Some? ==> IsCopy(NewCopy(c.lists, e, id), found.value)
    ensures HasInbox(c.lists) ==>
      Contribution(FindCached(Step(c, e).lists, id)) == Contribution(NewCopy(c.lists, e, id))
  {
    var r := Step(c, e).lists;
    StepKeepsCache(c, e, d);
    var found := FindCached(r, id);
    if found.Some? {
      var i :| 0 <= i < |r| && found.value in r[i].threads;
      assert Mirrors(c.lists, e, c.lists[i], r[i], d);
    }
    if HasInbox(c.lists) {
      var i :| 0 <= i < |c.lists| && c.lists[i].view == Inbox;
      assert Mirrors(c.lists, e, c.lists[i], r[i], d);
      ListedContribution(r, i, d, id);
      MirroredContribution(c.lists, e, c.lists[i], r[i], d, id);
    }
  }

  // --- the lists ---

  /** Every cached list is as the event leaves it. */
  lemma ListRedelivered(c: Cache, e: Event, d: string, i: nat)
    requires CacheOk(c.lists, d) && WellFormed(c.lists, e, d) && i < |c.lists|
    ensures var r := Step(c, e).lists; StepList(r, e, r[i]) == r[i]
  {
    var l, r := c.lists[i], Step(c, e).lists;
    StepMirrors(c.lists, e, i, d);
    match e
    case EmailEvent(_, _, _) => EmailRedelivered(c.lists, e, l, d, r);
    case MoveEvent(_, _, _) => MoveRedelivered(c.lists, e, l, d, r);
    case StarEvent(_, _, _) => StarRedelivered(c.lists, e, l, d, r);
    case DeleteEvent(id, _) => NotHeld(l, id);
    case BulkEvent(action, _) =>
      if ChangesLabels(action) { BulkRedelivered(c, e, i, d); } else { InPlaceRedelivered(c.lists, e, l, d, r); }
    case _ => InPlaceRedelivered(c.lists, e, l, d, r);
  }

  /** A list already marked, muted or emptied as the event asks. */
  lemma InPlaceRedelivered(lists: seq<ThreadList>, e: Event, l: ThreadList, d: string, all: seq<ThreadList>)
    requires Mirrors(lists, e, l, StepList(lists, e, l), d)
    requires e.MuteEvent? || e.ReadEvent? || (e.BulkEvent? && !ChangesLabels(e.action))
    ensures StepList(all, e, StepList(lists, e, l)) == StepList(lists, e, l)
  {
    var r := StepList(lists, e, l);
    match e
    case MuteEvent(id, thread) => if thread.Some? { PatchFixed(r.threads, {id}, Relabel(thread.value.labels)); }
    case ReadEvent(read, id, _) => PatchFixed(r.threads, {id}, Unread(if read then 0 else 1));
    case BulkEvent(action, ids) =>
      if action.BulkDelete? {
        assert forall t :: t in r.threads ==> t.id !in ids;
        KeepMembers(r.threads, IdSet(ids), None);
      } else {
        PatchFixed(r.threads, IdSet(ids), BulkPatch(action));
      }
  }

  /** A list that an event dropped the thread from does not hold it. */
  lemma NotHeld(l: ThreadList, id: string)
    requires DistinctIds(l.threads)
    ensures !Holds(Drop(l, id), id)
    ensures Drop(Drop(l, id), id) == Drop(l, id)
  {
    DropFacts(l, id);
  }

  /** An email leaves alone a list that already holds its payload in order. */
  lemma EmailFixpoint(lists: seq<ThreadList>, e: Event, l: ThreadList, t: Thread)
    requires e.EmailEvent? && e.thread == Some(t) && e.threadId == t.id
    requires BelongsInView(t.labels, l.view) && Holds(l, t.id) && NewestFirst(l.threads)
    requires forall u :: u in l.threads && u.id == t.id ==> u == t
    ensures StepList(lists, e, l) == l
  {
    PatchFixed(l.threads, {t.id}, Whole(t));
    SortOfSorted(l.threads);
  }

  lemma EmailRedelivered(lists: seq<ThreadList>, e: Event, l: ThreadList, d: string, all: seq<ThreadList>)
    requires ListOk(l, d) && WellFormed(lists, e, d) && e.EmailEvent?
    requires Mirrors(lists, e, l, StepList(lists, e, l), d)
    ensures StepList(all, e, StepList(lists, e, l)) == StepList(lists, e, l)
  {
    if e.thread.Some? {
      var t := e.thread.value;
      if BelongsInView(t.labels, l.view) {
        EmailPlaced(lists, e, l, d, t);
        EmailFixpoint(all, e, StepList(lists, e, l), t);
      } else {
        NotHeld(l, t.id);
      }
    }
  }

  lemma EmailPlaced(lists: seq<ThreadList>, e: Event, l: ThreadList, d: string, t: Thread)
    requires ListOk(l, d) && e.EmailEvent? && e.thread == Some(t) && t.id == e.threadId && t.domainId == d
    requires BelongsInView(t.labels, l.view)
    ensures var r := StepList(lists, e, l);
      Holds(r, t.id) && NewestFirst(r.threads) && forall u :: u in r.threads && u.id == t.id ==> u == t
  {
    PlacedInList(l, t);
    if Holds(l, t.id) { SortedInPlace(l, t); } else { SortFacts([t] + l.threads); }
  }

  lemma SortedInPlace(l: ThreadList, t: Thread)
    ensures var r := SortNewestFirst(PatchAll(l.threads, {t.id}, Whole(t)));
      NewestFirst(r) && forall u :: u in r && u.id == t.id ==> u == t
  {
    SortFacts(PatchAll(l.threads, {t.id}, Whole(t)));
  }

  /** A payload that belongs in a list is in it afterwards. */
  lemma PlacedInList(l: ThreadList, t: Thread)
    ensures Holds(l, t.id) ==> Holds(PatchList(l, {t.id}, Whole(t)), t.id)
    ensures Holds(l, t.id) ==>
      Holds(l.(threads := SortNewestFirst(PatchAll(l.threads, {t.id}, Whole(t)))), t.id)
    ensures Holds(Add(l, t), t.id)
  {
    SortFacts([t] + l.threads);
    SortFacts(PatchAll(l.threads, {t.id}, Whole(t)));
    if Holds(l, t.id) {
      var u := FindIn(l.threads, t.id).value;
      var i :| 0 <= i < |l.threads| && l.threads[i] == u;
      assert PatchAll(l.threads, {t.id}, Whole(t))[i] == t;
    }
  }

  lemma NamedIsPayload(l: ThreadList, r: ThreadList, t: Thread)
    requires r == (if Holds(l, t.id) then PatchList(l, {t.id}, Whole(t)) else Add(l, t))
    requires !Holds(l, t.id) ==> forall u :: u in r.threads <==> u == t || u in l.threads
    ensures forall u :: u in r.threads && u.id == t.id ==> u == t
  {
    if !Holds(l, t.id) {
      assert forall u :: u in l.threads ==> u.id in Ids(l.threads);
    }
  }

  lemma MoveRedelivered(lists: seq<ThreadList>, e: Event, l: ThreadList, d: string, all: seq<ThreadList>)
    requires ListOk(l, d) && WellFormed(lists, e, d) && e.MoveEvent?
    requires Mirrors(lists, e, l, StepList(lists, e, l), d)
    ensures StepList(all, e, StepList(lists, e, l)) == StepList(lists, e, l)
  {
    var r := StepList(lists, e, l);
    if e.thread.Some? && BelongsInView(e.thread.value.labels, l.view) {
      if !Holds(l, e.threadId) { AddFacts(l, e.thread.value); }
      NamedIsPayload(l, r, e.thread.value);
      PatchFixed(r.threads, {e.threadId}, Whole(e.thread.value));
      PlacedInList(l, e.thread.value);
    } else {
      NotHeld(l, e.threadId);
    }
  }

  lemma StarRedelivered(lists: seq<ThreadList>, e: Event, l: ThreadList, d: string, all: seq<ThreadList>)
    requires ListOk(l, d) && WellFormed(lists, e, d) && e.StarEvent?
    requires Mirrors(lists, e, l, StepList(lists, e, l), d)
    ensures StepList(all, e, StepList(lists, e, l)) == StepList(lists, e, l)
  {
    var r := StepList(lists, e, l);
    if e.thread.Some? {
      var t := e.thread.value;
      PatchFixed(r.threads, {t.id}, Relabel(t.labels));
      PlacedInList(l, t);
      if l.view == Starred && !e.starred { NotHeld(l, t.id); }
      if Holds(l, t.id) { RelabelledStaysHeld(l, t.id, t.labels); }
    }
  }

  lemma RelabelledStaysHeld(l: ThreadList, id: string, labels: set<Label>)
    requires Holds(l, id)
    ensures Holds(PatchList(l, {id}, Relabel(labels)), id)
  {
    var u := FindIn(l.threads, id).value;
    var i :| 0 <= i < |l.threads| && l.threads[i] == u;
    var r := PatchList(l, {id}, Relabel(labels));
    assert r.threads[i].id in Ids(r.threads);
  }

  lemma BulkRedelivered(c: Cache, e: Event, i: nat, d: string)
    requires CacheOk(c.lists, d) && WellFormed(c.lists, e, d) && i < |c.lists|
    requires e.BulkEvent? && ChangesLabels(e.action)
    ensures var r := Step(c, e).lists; StepList(r, e, r[i]) == r[i]
  {
    var l, r := c.lists[i], Step(c, e).lists;
    StepKeepsCache(c, e, d);
    assert Mirrors(c.lists, e, l, r[i], d);
    forall t | t in r[i].threads && t.id in e.threadIds
      ensures ApplyPatch(Bulk(e.action), t) == t
    {
      ListedIsFixed(c.lists, e, t);
    }
    NamedBelong(c.lists, l, e.threadIds, e.action);
    NoneJoinsAgain(c, e, i, d);
    BulkTotal(c.lists, l, e.threadIds, e.action);
    BulkFixpoint(r, r[i], e.threadIds, e.action);
  }

  lemma ListedIsFixed(lists: seq<ThreadList>, e: Event, t: Thread)
    requires e.BulkEvent? && ChangesLabels(e.action) && t.id in e.threadIds && IsCopy(NewCopy(lists, e, t.id), t)
    ensures ApplyPatch(Bulk(e.action), t) == t
  {
    FixedLabels(lists, e, t.id);
  }

  /** The named threads of a list belong in its view after a bulk action. */
  lemma NamedBelong(lists: seq<ThreadList>, l: ThreadList, ids: seq<string>, action: BulkAction)
    ensures forall t :: t in BulkLabelList(lists, l, ids, action).threads && t.id in ids
              ==> BelongsInView(t.labels, l.view)
  {
    var patched := PatchAll(l.threads, IdSet(ids), Bulk(action));
    var kept, joining := Keep(patched, IdSet(ids), Some(l.view)), Joining(lists, l, ids, action);
    KeepMembers(patched, IdSet(ids), Some(l.view));
    JoiningInView(lists, l, ids, action);
    BulkMembers(lists, l, ids, action, kept + joining);
  }

  /** A list whose named threads have the new labels and belong there, and that no thread joins, stays as it is. */
  lemma BulkFixpoint(lists: seq<ThreadList>, l: ThreadList, ids: seq<string>, action: BulkAction)
    requires forall t :: t in l.threads && t.id in ids ==>
      ApplyPatch(Bulk(action), t) == t && BelongsInView(t.labels, l.view)
    requires Joining(lists, l, ids, action) == []
    requires l.total >= 0 || forall t :: t in l.threads ==> t.id !in ids
    ensures BulkLabelList(lists, l, ids, action) == l
  {
    PatchFixed(l.threads, IdSet(ids), Bulk(action));
    KeepMembers(l.threads, IdSet(ids), Some(l.view));
    assert l.threads + [] == l.threads;
  }

  lemma BulkTotal(lists: seq<ThreadList>, l: ThreadList, ids: seq<string>, action: BulkAction)
    ensures var r := BulkLabelList(lists, l, ids, action);
      r.total >= 0 || (r == l && forall t :: t in l.threads ==> t.id !in ids)
  {
  }

  lemma CopyIsFixed(lists: seq<ThreadList>, e: Event, id: string)
    requires e.BulkEvent? && id in e.threadIds && NewCopy(lists, e, id).Some?
    ensures BulkCopy(e.action, NewCopy(lists, e, id).value) == NewCopy(lists, e, id)
  {
    ApplyBulkLabelsIdempotent(FindCached(lists, id).value.labels, e.action);
  }

  lemma NoneJoinsAgain(c: Cache, e: Event, i: nat, d: string)
    requires CacheOk(c.lists, d) && WellFormed(c.lists, e, d) && i < |c.lists|
    requires e.BulkEvent? && ChangesLabels(e.action)
    ensures var r := Step(c, e).lists; Joining(r, r[i], e.threadIds, e.action) == []
  {
    var r := Step(c, e).lists;
    forall id | id in e.threadIds
      ensures JoinsAs(r, r[i], id, e.action).None?
    {
      NotJoiningAgain(c, e, i, d, id);
    }
    NoneJoins(r, r[i], e.threadIds, e.action);
  }

  lemma NotJoiningAgain(c: Cache, e: Event, i: nat, d: string, id: string)
    requires CacheOk(c.lists, d) && WellFormed(c.lists, e, d) && i < |c.lists|
    requires e.BulkEvent? && ChangesLabels(e.action) && id in e.threadIds
    ensures var r := Step(c, e).lists; JoinsAs(r, r[i], id, e.action).None?
  {
    var r := Step(c, e).lists;
    JoinerIsInList(c, e, i, d, id);
    assert r[i].view == c.lists[i].view;
    HeldDoesNotJoin(r, r[i], id, e.action);
  }

  predicate WouldBelong(lists: seq<ThreadList>, id: string, action: BulkAction, view: Label) {
    var found := FindCached(lists, id);
    found.Some? && BelongsInView(ApplyBulkLabels(found.value.labels, action), view)
  }

  lemma HeldDoesNotJoin(lists: seq<ThreadList>, l: ThreadList, id: string, action: BulkAction)
    requires WouldBelong(lists, id, action, l.view) ==> Holds(l, id)
    ensures JoinsAs(lists, l, id, action).None?
  {
  }

  lemma {:induction false} NoneJoins(lists: seq<ThreadList>, l: ThreadList, ids: seq<string>, action: BulkAction)
    requires forall id :: id in ids ==> JoinsAs(lists, l, id, action).None?
    ensures Joining(lists, l, ids, action) == []
  {
    if ids != [] { NoneJoins(lists, l, ids[..|ids| - 1], action); }
  }

  /** A named thread that would join a list after the event is in it already. */
  lemma JoinerIsInList(c: Cache, e: Event, i: nat, d: string, id: string)
    requires CacheOk(c.lists, d) && WellFormed(c.lists, e, d) && i < |c.lists|
    requires e.BulkEvent? && ChangesLabels(e.action) && id in e.threadIds
    ensures WouldBelong(Step(c, e).lists, id, e.action, c.lists[i].view) ==> Holds(Step(c, e).lists[i], id)
  {
    if WouldBelong(Step(c, e).lists, id, e.action, c.lists[i].view) {
      FoundAfter(c, e, d, id);
      FixedLabels(c.lists, e, id);
      StaysInList(c.lists, e, i, d, id);
    }
  }

  lemma FixedLabels(lists: seq<ThreadList>, e: Event, id: string)
    requires e.BulkEvent? && ChangesLabels(e.action) && id in e.threadIds && NewCopy(lists, e, id).Some?
    ensures var labels := NewCopy(lists, e, id).value.labels; ApplyBulkLabels(labels, e.action) == labels
  {
    CopyIsFixed(lists, e, id);
  }

  /** A named thread that is cached somewhere and belongs in a view is in that view's lists afterwards. */
  lemma StaysInList(lists: seq<ThreadList>, e: Event, i: nat, d: string, id: string)
    requires CacheOk(lists, d) && WellFormed(lists, e, d) && i < |lists|
    requires e.BulkEvent? && ChangesLabels(e.action) && id in e.threadIds && BelongsAfter(lists, e, lists[i].view, id)
    ensures Holds(StepList(lists, e, lists[i]), id)
  {
    var l := lists[i];
    var kept := Keep(PatchAll(l.threads, IdSet(e.threadIds), Bulk(e.action)), IdSet(e.threadIds), Some(l.view));
    var joining := Joining(lists, l, e.threadIds, e.action);
    BulkResult(lists, e, i, d, kept, joining);
    BulkMembers(lists, l, e.threadIds, e.action, kept + joining);
    var t: Thread :| t in kept + joining && t.id == id;
    InListIsHeld(StepList(lists, e, l), t);
  }

  // --- the badges ---

  lemma {:induction false} NoDeltaAgain(c: Cache, e: Event, d: string, ids: seq<string>)
    requires CacheOk(c.lists, d) && WellFormed(c.lists, e, d) && e.BulkEvent?
    requires forall id :: id in ids ==> id in e.threadIds
    ensures DeltaByDomain(Step(c, e).lists, ids, e.action) == map[]
  {
    if ids != [] {
      NoDeltaAgain(c, e, d, ids[..|ids| - 1]);
      NoChangeAgain(c, e, d, ids[|ids| - 1]);
    }
  }

  lemma NoChangeAgain(c: Cache, e: Event, d: string, id: string)
    requires CacheOk(c.lists, d) && WellFormed(c.lists, e, d) && e.BulkEvent? && id in e.threadIds
    ensures var found := FindCached(Step(c, e).lists, id); found.Some? ==> BulkDelta(e.action, found.value) == 0
  {
    FoundAfter(c, e, d, id);
    var found := FindCached(Step(c, e).lists, id);
    if found.Some? {
      CopyIsFixed(c.lists, e, id);
      AlikeDelta(e.action, NewCopy(c.lists, e, id).value, found.value);
    }
  }

  lemma AlikeDelta(action: BulkAction, t: Thread, u: Thread)
    requires Alike(t, u) && BulkCopy(action, t) == Some(t)
    ensures BulkDelta(action, u) == 0
  {
  }

  lemma CountsRedelivered(c: Cache, e: Event, d: string)
    requires CacheOk(c.lists, d) && WellFormed(c.lists, e, d) && HasInbox(c.lists)
    ensures StepCounts(Step(c, e), e) == Step(c, e).counts
  {
    var once := Step(c, e);
    if e.BulkEvent? {
      NoDeltaAgain(c, e, d, e.threadIds);
      NothingAdjusted(once.counts);
    } else {
      var found := FindCached(once.lists, e.threadId);
      FoundAfter(c, e, d, e.threadId);
      SecondDeltaIsZero(c.lists, e, d, found);
      ZeroDeltaKeepsCounts(once, e);
    }
  }

  lemma NothingAdjusted(counts: map<string, int>)
    ensures AdjustAll(counts, map[]) == counts
  {
  }

  lemma ZeroDeltaKeepsCounts(c: Cache, e: Event)
    requires !e.BulkEvent?
    requires var found := FindCached(c.lists, e.threadId);
      && (e.EmailEvent? && e.thread.Some? ==> Contribution(e.thread) == Contribution(found))
      && (e.ReadEvent? ==> ReadDelta(found, e.read) == 0)
      && (e.MoveEvent? ==> Contribution(e.thread) == Contribution(found))
      && (e.DeleteEvent? ==> Contribution(found) == 0)
    ensures StepCounts(c, e) == c.counts
  {
  }

  /** With the copy an event leaves, the event asks for no further badge change. */
  lemma SecondDeltaIsZero(lists: seq<ThreadList>, e: Event, d: string, found: Option<Thread>)
    requires WellFormed(lists, e, d) && !e.BulkEvent?
    requires found.Some? ==> IsCopy(NewCopy(lists, e, e.threadId), found.value)
    requires Contribution(found) == Contribution(NewCopy(lists, e, e.threadId))
    ensures e.EmailEvent? && e.thread.Some? ==> Contribution(e.thread) == Contribution(found)
    ensures e.ReadEvent? ==> ReadDelta(found, e.read) == 0
    ensures e.MoveEvent? ==> Contribution(e.thread) == Contribution(found)
    ensures e.DeleteEvent? ==> Contribution(found) == 0
  {
  }

  /** Redelivery is harmless: the second delivery changes no list, no order, no total and no badge. */
  lemma RedeliveryIsHarmless(c: Cache, e: Event, d: string)
    requires CacheOk(c.lists, d) && WellFormed(c.lists, e, d) && HasInbox(c.lists)
    ensures Step(Step(c, e), e) == Step(c, e)
  {
    var once, twice := Step(c, e), Step(Step(c, e), e);
    forall i | 0 <= i < |c.lists|
      ensures twice.lists[i] == once.lists[i]
    {
      ListRedelivered(c, e, d, i);
    }
    CountsRedelivered(c, e, d);
  }
}
