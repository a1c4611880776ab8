/** An action on one thread reaches the browser twice: as the optimistic edit, and as the event that echoes it.
    Together they count once. */
module ExactlyOnce {
  import opened Wrappers
  import opened Labels
  import opened ThreadLists
  import opened ThreadCache
  import opened CacheInvariants
  import opened CacheSteps
  import opened UnreadBadge
  import opened Optimistic
  import opened ThreadServer

  predicate IsMove(a: Action) {
    a.DoArchive? || a.DoTrash? || a.DoSpam? || a.DoMove?
  }

  predicate IsMark(a: Action) {
    a.DoRead? || a.DoUnread?
  }

  /** The edit the browser makes when the user takes the action. */
  function EditOf(a: Action, id: string): Edit
    requires IsMove(a) || IsMark(a)
  {
    if IsMove(a) then OneMove(id) else OneRead(id, a.DoRead?)
  }

  /** The event the server publishes once it has taken an action on one thread. All but a delete carry the thread
      as it now is. */
  function EventOf(a: Action, t: Thread): Event {
    match a
    case DoRead => ReadEvent(true, t.id, Some(t.domainId))
    case DoUnread => ReadEvent(false, t.id, Some(t.domainId))
    case DoStar(_) => StarEvent(Starred in t.labels, t.id, Some(t))
    case DoMute => MuteEvent(t.id, Some(t))
    case DoDelete => DeleteEvent(t.id, Some(t.domainId))
    case _ => MoveEvent(t.id, Some(t.domainId), Some(t))
  }

  /** The browser's copy of a thread shows what the server's row says. */
  predicate Shows(t: Thread, r: Row) {
    t.labels == r.labels && t.unread == r.unread && t.domainId == r.domainId
  }

  /** Every list holds a thread as given if it belongs there, and does not hold its id otherwise. */
  ghost predicate HeldWhereItBelongs(lists: seq<ThreadList>, t: Thread) {
    forall i :: 0 <= i < |lists| ==>
      FindIn(lists[i].threads, t.id) == if BelongsInView(t.labels, lists[i].view) then Some(t) else None
  }

  /** For every cached thread and every accepted read, unread, archive, trash, spam or move, the edit followed
      by its echo changes the badge by exactly what the server's change is worth, and so does the echo alone
      in a tab that made no edit. After a move each list holds the thread as the server has it, if and only if
      it belongs there. */
  lemma EditThenEcho(c: Cache, row: Row, a: Action, now: int, t: Thread, after: Thread)
    requires CacheOk(c.lists, t.domainId) && BadgeOk(c, t.domainId) && HasInbox(c.lists)
    requires IsMove(a) || IsMark(a)
    requires FindCached(c.lists, t.id) == Some(t) && Shows(t, row)
    requires after.id == t.id && Shows(after, After(row, a, now))
    ensures var r := Step(Apply(c, EditOf(a, t.id)), EventOf(a, after));
      && Badge(r.counts, t.domainId) == Badge(c.counts, t.domainId) + Contribution(Some(after)) - Contribution(Some(t))
      && Badge(r.counts, t.domainId) == Badge(Step(c, EventOf(a, after)).counts, t.domainId)
      && (IsMove(a) ==> HeldWhereItBelongs(r.lists, after))
  {
    if IsMove(a) { MoveThenEcho(c, t, after); } else { MarkThenEcho(c, a.DoRead?, t, after); }
  }

  lemma MoveThenEcho(c: Cache, t: Thread, after: Thread)
    requires CacheOk(c.lists, t.domainId) && BadgeOk(c, t.domainId) && HasInbox(c.lists)
    requires FindCached(c.lists, t.id) == Some(t) && after.id == t.id && after.domainId == t.domainId
    ensures var e := MoveEvent(after.id, Some(after.domainId), Some(after));
      var r := Step(Apply(c, OneMove(t.id)), e);
      && Badge(r.counts, t.domainId) == Badge(c.counts, t.domainId) + Contribution(Some(after)) - Contribution(Some(t))
      && Badge(r.counts, t.domainId) == Badge(Step(c, e).counts, t.domainId)
      && HeldWhereItBelongs(r.lists, after)
  {
    var d, o, e := t.domainId, OneMove(t.id), MoveEvent(after.id, Some(after.domainId), Some(after));
    EditAndEchoBadge(c, o, e, d);
    NoneLeft(c, t.id);
    EchoPlacesEverywhere(c, o, e, d, after);
  }

  lemma EditAndEchoBadge(c: Cache, o: Edit, e: Event, d: string)
    requires CacheOk(c.lists, d) && BadgeOk(c, d) && HasInbox(c.lists) && (o.OneMove? || o.OneRead?)
    requires (e.MoveEvent? || e.ReadEvent?) && WellFormed(c.lists, e, d)
    ensures Badge(Step(Apply(c, o), e).counts, d)
         == Badge(c.counts, d) + EditBadgeDelta(c, o, d) + BadgeDelta(Apply(c, o), e, d)
    ensures Badge(Step(c, e).counts, d) == Badge(c.counts, d) + BadgeDelta(c, e, d)
  {
    EditKeepsBadge(c, o, d);
    EchoKeepsBadge(Apply(c, o), e, d);
    EchoKeepsBadge(c, e, d);
  }

  lemma EchoPlacesEverywhere(c: Cache, o: Edit, e: Event, d: string, after: Thread)
    requires CacheOk(c.lists, d) && BadgeOk(c, d) && HasInbox(c.lists) && o == OneMove(after.id) && after.domainId == d
    requires e == MoveEvent(after.id, Some(after.domainId), Some(after))
    ensures HeldWhereItBelongs(Step(Apply(c, o), e).lists, after)
  {
    EditKeepsBadge(c, o, d);
    NoneLeft(c, after.id);
    var mid := Apply(c, o);
    forall i | 0 <= i < |mid.lists|
      ensures FindIn(StepList(mid.lists, e, mid.lists[i]).threads, after.id)
           == if BelongsInView(after.labels, mid.lists[i].view) then Some(after) else None
    {
      EchoPlaces(mid, e, d, i, after);
    }
  }

  lemma MarkThenEcho(c: Cache, read: bool, t: Thread, after: Thread)
    requires CacheOk(c.lists, t.domainId) && BadgeOk(c, t.domainId) && HasInbox(c.lists)
    requires FindCached(c.lists, t.id) == Some(t) && after.id == t.id && after.domainId == t.domainId
    requires after.labels == t.labels && after.unread == if read then 0 else 1
    ensures var e := ReadEvent(read, after.id, Some(after.domainId));
      var r := Step(Apply(c, OneRead(t.id, read)), e);
      && Badge(r.counts, t.domainId) == Badge(c.counts, t.domainId) + Contribution(Some(after)) - Contribution(Some(t))
      && Badge(r.counts, t.domainId) == Badge(Step(c, e).counts, t.domainId)
  {
    var d, o, e := t.domainId, OneRead(t.id, read), ReadEvent(read, after.id, Some(after.domainId));
    EditAndEchoBadge(c, o, e, d);
    MarkedCopy(c, o, d, t);
    MarkDeltas(Apply(c, o), c, e, d, t, after);
  }

  /** The edit asks for the whole change, and its echo for nothing more. */
  lemma MarkDeltas(mid: Cache, c: Cache, e: Event, d: string, t: Thread, after: Thread)
    requires e.ReadEvent? && FindCached(c.lists, e.threadId) == Some(t) && e.threadId == t.id
    requires IsCopy(FindCached(mid.lists, e.threadId), t.(unread := if e.read then 0 else 1))
    requires after.labels == t.labels && after.unread == if e.read then 0 else 1
    ensures BadgeDelta(mid, e, d) == 0
    ensures BadgeDelta(c, e, d) == EditBadgeDelta(c, OneRead(t.id, e.read), d)
      == Contribution(Some(after)) - Contribution(Some(t))
  {
  }

  lemma EchoKeepsBadge(c: Cache, e: Event, d: string)
    requires CacheOk(c.lists, d) && BadgeOk(c, d) && HasInbox(c.lists) && WellFormed(c.lists, e, d)
    requires e.MoveEvent? || e.ReadEvent?
    ensures Badge(Step(c, e).counts, d) == Badge(c.counts, d) + BadgeDelta(c, e, d)
  {
    var i :| 0 <= i < |c.lists| && c.lists[i].view == Inbox;
    StepKeepsBadge(c, e, d);
    StepBadge(c, e, d);
  }

  /** The optimistic move leaves no copy of the thread anywhere. */
  lemma NoneLeft(c: Cache, id: string)
    ensures FindCached(Apply(c, OneMove(id)).lists, id) == None
  {
    var r := Apply(c, OneMove(id)).lists;
    forall i, t | 0 <= i < |r| && t in r[i].threads
      ensures t.id != id
    {
      KeepMembers(c.lists[i].threads, {id}, None);
    }
  }

  lemma EchoPlaces(c: Cache, e: Event, d: string, i: nat, after: Thread)
    requires CacheOk(c.lists, d) && WellFormed(c.lists, e, d) && i < |c.lists|
    requires e == MoveEvent(after.id, Some(after.domainId), Some(after)) && FindCached(c.lists, after.id) == None
    ensures FindIn(Step(c, e).lists[i].threads, after.id)
         == if BelongsInView(after.labels, c.lists[i].view) then Some(after) else None
  {
    var l := c.lists[i];
    assert after.id !in Ids(l.threads);
    if BelongsInView(after.labels, l.view) {
      AddFacts(l, after);
      FindInDistinct(Add(l, after).threads, after);
    }
  }

  /** After an optimistic mark the copies carry the new count already. */
  lemma MarkedCopy(c: Cache, o: Edit, d: string, t: Thread)
    requires CacheOk(c.lists, d) && BadgeOk(c, d) && HasInbox(c.lists) && o.OneRead? && t.id == o.id
    requires FindCached(c.lists, t.id) == Some(t)
    ensures IsCopy(FindCached(Apply(c, o).lists, t.id), t.(unread := if o.read then 0 else 1))
  {
    var r := Apply(c, o).lists;
    var u := t.(unread := if o.read then 0 else 1);
    EditKeepsBadge(c, o, d);
    MarkedIsCached(c.lists, r, o, t);
    CachedIsFound(r, u);
  }

  lemma MarkedIsCached(lists: seq<ThreadList>, r: seq<ThreadList>, o: Edit, t: Thread)
    requires o.OneRead? && t.id == o.id && Cached(lists, t)
    requires |r| == |lists| && forall i :: 0 <= i < |lists| ==> r[i] == EditList(o, lists[i])
    ensures Cached(r, t.(unread := if o.read then 0 else 1))
  {
    var i :| 0 <= i < |lists| && t in lists[i].threads;
    var j :| 0 <= j < |lists[i].threads| && lists[i].threads[j] == t;
    assert r[i].threads[j] == t.(unread := if o.read then 0 else 1);
  }
}
