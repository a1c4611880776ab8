/** What the cached lists show of each single thread. The list operations (find, map, filter, prepend, push, sort) come
    down to one simple question a thread at a time: what does this list show of it now? */
module Placement {
  import opened Wrappers
  import opened Labels
  import opened ThreadLists
  import opened ThreadCache
  import opened CacheInvariants
  import opened CacheSteps
  import opened UnreadBadge
  import opened Optimistic
  import opened CacheRuns
  import opened ThreadServer
  import opened ExactlyOnce

  /** A list holds no two different copies of one thread. It may hold one twice. */
  ghost predicate OneCopyEach(ts: seq<Thread>) {
    forall t, u :: t in ts && u in ts && t.id == u.id ==> t == u
  }

  function Where(belongs: bool, t: Thread): Option<Thread> {
    if belongs then Some(t) else None
  }

  /** The first copy of a thread in a list, or else in any list of its domain. */
  function CopyFor(lists: seq<ThreadList>, l: ThreadList, id: string): (copy: Option<Thread>)
    ensures copy.Some? ==> copy.value.id == id
  {
    var here, cached := FindIn(l.threads, id), FindCached(lists, id);
    if here.Some? then here
    else if cached.Some? && cached.value.domainId == l.domainId then cached
    else None
  }

  /** What a list shows of thread `x` after an event, told from what was shown before. */
  function ShownAfter(lists: seq<ThreadList>, e: Event, l: ThreadList, x: string): (shown: Option<Thread>)
    requires PayloadIs(e)
    ensures shown.Some? ==> shown.value.id == x
  {
    var here := FindIn(l.threads, x);
    match e
    case EmailEvent(_, id, Some(t)) =>
      if id == x && t.domainId == l.domainId then Where(BelongsInView(t.labels, l.view), t) else here
    case MoveEvent(id, _, payload) =>
      if id != x then here
      else if payload.Some? then Where(BelongsInView(payload.value.labels, l.view), payload.value)
      else None
    case DeleteEvent(id, _) => if id == x then None else here
    case StarEvent(starred, id, Some(t)) =>
      if id != x then here
      else if here.None? then Where(starred && l.view == Starred && BelongsInView(t.labels, l.view), t)
      else Where(starred || l.view != Starred, here.value.(labels := t.labels))
    case MuteEvent(id, Some(t)) => if id == x && here.Some? then Some(here.value.(labels := t.labels)) else here
    case ReadEvent(read, id, _) =>
      if id == x && here.Some? then Some(here.value.(unread := if read then 0 else 1)) else here
    case BulkEvent(action, ids) => if x in ids then ShownAfterBulk(lists, action, l, x) else here
    case _ => here
  }

  /** The same for a thread that a bulk event names. */
  function ShownAfterBulk(lists: seq<ThreadList>, action: BulkAction, l: ThreadList, x: string): (shown: Option<Thread>)
    ensures shown.Some? ==> shown.value.id == x
  {
    var here := FindIn(l.threads, x);
    match action
    case BulkDelete => None
    case BulkRead => if here.Some? then Some(here.value.(unread := 0)) else None
    case BulkUnread => if here.Some? then Some(here.value.(unread := 1)) else None
    case _ => if CopyFor(lists, l, x).Some? then ShownRelabelled(CopyFor(lists, l, x).value, action, l) else None
  }

  function ShownRelabelled(t: Thread, action: BulkAction, l: ThreadList): (shown: Option<Thread>)
    ensures shown.Some? ==> shown.value.id == t.id
  {
    var labels := ApplyBulkLabels(t.labels, action);
    Where(BelongsInView(labels, l.view), t.(labels := labels))
  }

  /** The payload of an event carries the id the event names. */
  predicate PayloadIs(e: Event) {
    (e.EmailEvent? || e.StarEvent? || e.MuteEvent? || e.MoveEvent?) && e.thread.Some? ==>
      e.thread.value.id == e.threadId
  }

  // --- lists of one copy each ---

  /** Such a list is known by what it shows. */
  lemma ShowsMembers(ts: seq<Thread>, x: string, shown: Option<Thread>)
    requires forall t :: t in ts && t.id == x ==> shown == Some(t)
    requires shown.Some? ==> shown.value in ts && shown.value.id == x
    ensures FindIn(ts, x) == shown
  {
    if shown.Some? { assert shown.value.id in Ids(ts); }
  }

  lemma FindMember(ts: seq<Thread>, t: Thread)
    requires OneCopyEach(ts) && t in ts
    ensures FindIn(ts, t.id) == Some(t)
  {
    ShowsMembers(ts, t.id, Some(t));
  }

  /** A patch that leaves ids alone. */
  ghost predicate KeepsIds(ts: seq<Thread>, ids: set<string>, p: Patch) {
    forall t :: t in ts && t.id in ids ==> ApplyPatch(p, t).id == t.id
  }

  lemma InPlaceKeepsIds(ts: seq<Thread>, ids: set<string>, p: Patch)
    requires !p.Whole?
    ensures KeepsIds(ts, ids, p)
  {
  }

  lemma WholeKeepsIds(ts: seq<Thread>, t: Thread)
    ensures KeepsIds(ts, {t.id}, Whole(t))
  {
  }

  function Patched(t: Thread, ids: set<string>, p: Patch): Thread {
    if t.id in ids then ApplyPatch(p, t) else t
  }

  lemma PatchedFrom(ts: seq<Thread>, ids: set<string>, p: Patch, t: Thread) returns (u: Thread)
    requires KeepsIds(ts, ids, p) && t in PatchAll(ts, ids, p)
    ensures u in ts && t == Patched(u, ids, p) && t.id == u.id
  {
    var j :| 0 <= j < |ts| && PatchAll(ts, ids, p)[j] == t;
    u := ts[j];
    assert u in ts;
  }

  lemma PatchKeepsCopies(ts: seq<Thread>, ids: set<string>, p: Patch)
    requires OneCopyEach(ts) && KeepsIds(ts, ids, p)
    ensures OneCopyEach(PatchAll(ts, ids, p))
  {
    var r := PatchAll(ts, ids, p);
    forall t, u | t in r && u in r && t.id == u.id
      ensures t == u
    {
      var v := PatchedFrom(ts, ids, p, t);
      var w := PatchedFrom(ts, ids, p, u);
      assert v == w;
    }
  }

  lemma PatchShows(ts: seq<Thread>, ids: set<string>, p: Patch, x: string)
    requires OneCopyEach(ts) && KeepsIds(ts, ids, p)
    ensures OneCopyEach(PatchAll(ts, ids, p))
    ensures var here := FindIn(ts, x);
      FindIn(PatchAll(ts, ids, p), x) == if here.Some? then Some(Patched(here.value, ids, p)) else None
  {
    var r, here := PatchAll(ts, ids, p), FindIn(ts, x);
    PatchKeepsCopies(ts, ids, p);
    forall t | t in r
      ensures t.id in Ids(ts)
    {
      var u := PatchedFrom(ts, ids, p, t);
    }
    if here.Some? {
      var j :| 0 <= j < |ts| && ts[j] == here.value;
      assert r[j] == Patched(here.value, ids, p);
      FindMember(r, r[j]);
    }
  }

  lemma KeepShows(ts: seq<Thread>, ids: set<string>, view: Option<Label>, x: string)
    requires OneCopyEach(ts)
    ensures OneCopyEach(Keep(ts, ids, view))
    ensures var here := FindIn(ts, x);
      FindIn(Keep(ts, ids, view), x) == if here.Some? && KeepsThread(here.value, ids, view) then here else None
  {
    var here := FindIn(ts, x);
    KeepMembers(ts, ids, view);
    ShowsMembers(Keep(ts, ids, view), x, if here.Some? && KeepsThread(here.value, ids, view) then here else None);
  }

  lemma SortShows(ts: seq<Thread>, x: string)
    requires OneCopyEach(ts)
    ensures OneCopyEach(SortNewestFirst(ts))
    ensures FindIn(SortNewestFirst(ts), x) == FindIn(ts, x)
  {
    SortFacts(ts);
    ShowsMembers(SortNewestFirst(ts), x, FindIn(ts, x));
  }

  lemma AddShows(l: ThreadList, t: Thread, x: string)
    requires OneCopyEach(l.threads) && !Holds(l, t.id)
    ensures OneCopyEach(Add(l, t).threads)
    ensures FindIn(Add(l, t).threads, x) == if x == t.id then Some(t) else FindIn(l.threads, x)
  {
    assert t.id !in Ids(l.threads);
    assert ([t] + l.threads)[1..] == l.threads;
    SortShows([t] + l.threads, x);
  }

  lemma DropShows(l: ThreadList, id: string, x: string)
    requires OneCopyEach(l.threads)
    ensures OneCopyEach(Drop(l, id).threads)
    ensures FindIn(Drop(l, id).threads, x) == if x == id then None else FindIn(l.threads, x)
  {
    KeepShows(l.threads, {id}, None, x);
  }

  lemma WholeShows(l: ThreadList, t: Thread, x: string)
    requires OneCopyEach(l.threads) && Holds(l, t.id)
    ensures var r := PatchAll(l.threads, {t.id}, Whole(t));
      && OneCopyEach(r) && OneCopyEach(SortNewestFirst(r))
      && FindIn(r, x) == FindIn(SortNewestFirst(r), x) == if x == t.id then Some(t) else FindIn(l.threads, x)
  {
    WholeKeepsIds(l.threads, t);
    PatchShows(l.threads, {t.id}, Whole(t), x);
    SortShows(PatchAll(l.threads, {t.id}, Whole(t)), x);
  }

  // --- one event ---

  lemma EmailShows(lists: seq<ThreadList>, e: Event, l: ThreadList, x: string)
    requires OneCopyEach(l.threads) && PayloadIs(e) && e.EmailEvent?
    ensures OneCopyEach(StepList(lists, e, l).threads)
    ensures FindIn(StepList(lists, e, l).threads, x) == ShownAfter(lists, e, l, x)
  {
    if e.thread.Some? && l.domainId == e.thread.value.domainId {
      var t := e.thread.value;
      if !BelongsInView(t.labels, l.view) { DropShows(l, t.id, x); }
      else if Holds(l, t.id) { WholeShows(l, t, x); }
      else { AddShows(l, t, x); }
    }
  }

  lemma MoveShows(lists: seq<ThreadList>, e: Event, l: ThreadList, x: string)
    requires OneCopyEach(l.threads) && PayloadIs(e) && (e.MoveEvent? || e.DeleteEvent?)
    ensures OneCopyEach(StepList(lists, e, l).threads)
    ensures FindIn(StepList(lists, e, l).threads, x) == ShownAfter(lists, e, l, x)
  {
    if e.MoveEvent? && e.thread.Some? && BelongsInView(e.thread.value.labels, l.view) {
      var t := e.thread.value;
      if Holds(l, t.id) { WholeShows(l, t, x); } else { AddShows(l, t, x); }
    } else {
      DropShows(l, e.threadId, x);
    }
  }

  lemma StarShows(lists: seq<ThreadList>, e: Event, l: ThreadList, x: string)
    requires OneCopyEach(l.threads) && PayloadIs(e) && e.StarEvent?
    ensures OneCopyEach(StepList(lists, e, l).threads)
    ensures FindIn(StepList(lists, e, l).threads, x) == ShownAfter(lists, e, l, x)
  {
    if e.thread.Some? {
      var t := e.thread.value;
      var taken := l.view == Starred && e.starred && !Holds(l, t.id) && BelongsInView(t.labels, Starred);
      if l.view == Starred && !e.starred && Holds(l, t.id) { DropShows(l, t.id, x); }
      else if taken { AddShows(l, t, x); }
      else { PatchShows(l.threads, {t.id}, Relabel(t.labels), x); }
    }
  }

  lemma MarkShows(lists: seq<ThreadList>, e: Event, l: ThreadList, x: string)
    requires OneCopyEach(l.threads) && PayloadIs(e) && (e.MuteEvent? || e.ReadEvent?)
    ensures OneCopyEach(StepList(lists, e, l).threads)
    ensures FindIn(StepList(lists, e, l).threads, x) == ShownAfter(lists, e, l, x)
  {
    if e.ReadEvent? {
      PatchShows(l.threads, {e.threadId}, Unread(if e.read then 0 else 1), x);
    } else if e.thread.Some? {
      PatchShows(l.threads, {e.threadId}, Relabel(e.thread.value.labels), x);
    }
  }

  // --- bulk events ---

  lemma KeptShows(l: ThreadList, ids: set<string>, action: BulkAction, x: string)
    requires OneCopyEach(l.threads)
    ensures var kept := Keep(PatchAll(l.threads, ids, Bulk(action)), ids, Some(l.view));
      var here := FindIn(l.threads, x);
      && OneCopyEach(kept)
      && FindIn(kept, x) == if here.None? || x !in ids then here else ShownRelabelled(here.value, action, l)
  {
    InPlaceKeepsIds(l.threads, ids, Bulk(action));
    PatchShows(l.threads, ids, Bulk(action), x);
    KeepShows(PatchAll(l.threads, ids, Bulk(action)), ids, Some(l.view), x);
  }

  lemma JoiningShows(lists: seq<ThreadList>, l: ThreadList, ids: seq<string>, action: BulkAction, x: string)
    ensures var joining := Joining(lists, l, ids, action);
      && OneCopyEach(joining)
      && FindIn(joining, x) == if x in ids then JoinsAs(lists, l, x, action) else None
  {
    var joining := Joining(lists, l, ids, action);
    JoiningMembers(lists, l, ids, action);
    ShowsMembers(joining, x, if x in ids then JoinsAs(lists, l, x, action) else None);
  }

  lemma JoinedShows(kept: seq<Thread>, joining: seq<Thread>, x: string)
    requires OneCopyEach(kept) && OneCopyEach(joining)
    requires forall t, u :: t in kept && u in joining ==> t.id != u.id
    ensures OneCopyEach(kept + joining)
    ensures FindIn(kept + joining, x) == if FindIn(kept, x).Some? then FindIn(kept, x) else FindIn(joining, x)
  {
    FindInConcat(kept, joining, x);
  }

  lemma BulkLabelShows(lists: seq<ThreadList>, action: BulkAction, ids: seq<string>, l: ThreadList, x: string)
    requires OneCopyEach(l.threads)
    ensures OneCopyEach(BulkLabelList(lists, l, ids, action).threads)
    ensures FindIn(BulkLabelList(lists, l, ids, action).threads, x) ==
      var kept := Keep(PatchAll(l.threads, IdSet(ids), Bulk(action)), IdSet(ids), Some(l.view));
      if FindIn(kept, x).Some? then FindIn(kept, x)
      else if x in ids then JoinsAs(lists, l, x, action) else None
  {
    var kept := Keep(PatchAll(l.threads, IdSet(ids), Bulk(action)), IdSet(ids), Some(l.view));
    var joining := Joining(lists, l, ids, action);
    KeptShows(l, IdSet(ids), action, x);
    JoiningShows(lists, l, ids, action, x);
    forall t, u | t in kept && u in joining
      ensures t.id != u.id
    {
      KeptShows(l, IdSet(ids), action, t.id);
      FindMember(kept, t);
      JoiningMembers(lists, l, ids, action);
    }
    JoinedShows(kept, joining, x);
    BulkShowsAll(lists, l, ids, action, kept + joining, x);
  }

  lemma BulkShowsAll(
    lists: seq<ThreadList>, l: ThreadList, ids: seq<string>, action: BulkAction, all: seq<Thread>, x: string)
    requires OneCopyEach(all)
    requires all == Keep(PatchAll(l.threads, IdSet(ids), Bulk(action)), IdSet(ids), Some(l.view))
                    + Joining(lists, l, ids, action)
    ensures OneCopyEach(BulkLabelList(lists, l, ids, action).threads)
    ensures FindIn(BulkLabelList(lists, l, ids, action).threads, x) == FindIn(all, x)
  {
    BulkListIs(lists, l, ids, action, all);
    SortShows(all, x);
  }

  lemma CopyJoins(lists: seq<ThreadList>, l: ThreadList, x: string, action: BulkAction)
    requires !Holds(l, x)
    ensures JoinsAs(lists, l, x, action)
         == if CopyFor(lists, l, x).Some? then ShownRelabelled(CopyFor(lists, l, x).value, action, l) else None
  {
  }

  lemma RelabelShows(lists: seq<ThreadList>, l: ThreadList, x: string, action: BulkAction)
    requires ChangesLabels(action)
    ensures ShownAfterBulk(lists, action, l, x)
         == if CopyFor(lists, l, x).Some? then ShownRelabelled(CopyFor(lists, l, x).value, action, l) else None
  {
  }

  lemma BulkRelabelShows(lists: seq<ThreadList>, action: BulkAction, ids: seq<string>, l: ThreadList, x: string)
    requires OneCopyEach(l.threads) && ChangesLabels(action)
    ensures OneCopyEach(BulkLabelList(lists, l, ids, action).threads)
    ensures FindIn(BulkLabelList(lists, l, ids, action).threads, x)
         == if x in ids then ShownAfterBulk(lists, action, l, x) else FindIn(l.threads, x)
  {
    KeptShows(l, IdSet(ids), action, x);
    BulkLabelShows(lists, action, ids, l, x);
    RelabelShows(lists, l, x, action);
    if Holds(l, x) { HeldNeverJoins(lists, l, x, action); } else { CopyJoins(lists, l, x, action); }
  }

  lemma HeldNeverJoins(lists: seq<ThreadList>, l: ThreadList, x: string, action: BulkAction)
    requires Holds(l, x)
    ensures JoinsAs(lists, l, x, action) == None && CopyFor(lists, l, x) == FindIn(l.threads, x)
  {
  }

  lemma BulkDeleteShows(ids: seq<string>, l: ThreadList, x: string)
    requires OneCopyEach(l.threads)
    ensures OneCopyEach(BulkDeleteList(l, ids).threads)
    ensures FindIn(BulkDeleteList(l, ids).threads, x) == if x in ids then None else FindIn(l.threads, x)
  {
    KeepShows(l.threads, IdSet(ids), None, x);
    KeepMembers(l.threads, IdSet(ids), None);
  }

  lemma UnreadShows(l: ThreadList, ids: set<string>, count: nat, x: string)
    requires OneCopyEach(l.threads)
    ensures OneCopyEach(PatchList(l, ids, Unread(count)).threads)
    ensures var here := FindIn(l.threads, x);
      FindIn(PatchList(l, ids, Unread(count)).threads, x)
        == if here.Some? && x in ids then Some(here.value.(unread := count)) else here
  {
    InPlaceKeepsIds(l.threads, ids, Unread(count));
    PatchShows(l.threads, ids, Unread(count), x);
  }

  lemma BulkStepIs(lists: seq<ThreadList>, e: Event, l: ThreadList)
    requires e.BulkEvent?
    ensures StepList(lists, e, l) ==
      if ChangesLabels(e.action) then BulkLabelList(lists, l, e.threadIds, e.action)
      else if e.action.BulkDelete? then BulkDeleteList(l, e.threadIds)
      else PatchList(l, IdSet(e.threadIds), Unread(if e.action.BulkRead? then 0 else 1))
  {
  }

  lemma MarkedShows(lists: seq<ThreadList>, e: Event, l: ThreadList, x: string)
    requires e.BulkEvent? && !ChangesLabels(e.action) && x in e.threadIds
    ensures ShownAfterBulk(lists, e.action, l, x) ==
      var here := FindIn(l.threads, x);
      if e.action.BulkDelete? || here.None? then None
      else Some(here.value.(unread := if e.action.BulkRead? then 0 else 1))
  {
  }

  lemma BulkShows(lists: seq<ThreadList>, e: Event, l: ThreadList, x: string)
    requires OneCopyEach(l.threads) && e.BulkEvent?
    ensures OneCopyEach(StepList(lists, e, l).threads)
    ensures FindIn(StepList(lists, e, l).threads, x)
         == if x in e.threadIds then ShownAfterBulk(lists, e.action, l, x) else FindIn(l.threads, x)
  {
    BulkStepIs(lists, e, l);
    if ChangesLabels(e.action) {
      BulkRelabelShows(lists, e.action, e.threadIds, l, x);
    } else {
      if x in e.threadIds { MarkedShows(lists, e, l, x); }
      if e.action.BulkDelete? {
        BulkDeleteShows(e.threadIds, l, x);
      } else {
        UnreadShows(l, IdSet(e.threadIds), if e.action.BulkRead? then 0 else 1, x);
      }
    }
  }

  // --- every event ---

  /** The reducer, one thread at a time: after every event, each list shows of each thread exactly what `ShownAfter`
      says, and still has one copy of each. */
  lemma StepShows(lists: seq<ThreadList>, e: Event, l: ThreadList, x: string)
    requires OneCopyEach(l.threads) && PayloadIs(e)
    ensures OneCopyEach(StepList(lists, e, l).threads)
    ensures FindIn(StepList(lists, e, l).threads, x) == ShownAfter(lists, e, l, x)
  {
    match e
    case EmailEvent(_, _, _) => EmailShows(lists, e, l, x);
    case StarEvent(_, _, _) => StarShows(lists, e, l, x);
    case MuteEvent(_, _) => MarkShows(lists, e, l, x);
    case ReadEvent(_, _, _) => MarkShows(lists, e, l, x);
    case MoveEvent(_, _, _) => MoveShows(lists, e, l, x);
    case DeleteEvent(_, _) => MoveShows(lists, e, l, x);
    case BulkEvent(_, _) => BulkShows(lists, e, l, x);
  }

  // --- every optimistic edit ---

  function NamedBy(o: Edit): set<string> {
    match o
    case ManyRead(ids, _) => IdSet(ids)
    case ManyMove(ids) => IdSet(ids)
    case ManyMute(ids, _) => IdSet(ids)
    case _ => {o.id}
  }

  /** What a list shows of thread `x` after an optimistic edit. */
  function ShownAfterEdit(o: Edit, l: ThreadList, x: string): Option<Thread> {
    var here := FindIn(l.threads, x);
    if x !in NamedBy(o) || here.None? then here
    else
      var t := here.value;
      match o
      case OneMove(_) => None
      case ManyMove(_) => None
      case OneRead(_, read) => Some(t.(unread := if read then 0 else 1))
      case ManyRead(_, read) => Some(t.(unread := if read then 0 else 1))
      case OneMute(_) => Some(t.(labels := if Muted in t.labels then t.labels - {Muted} else t.labels + {Muted}))
      case ManyMute(_, muted) => Some(t.(labels := if muted then t.labels + {Muted} else t.labels - {Muted}))
      case OneStar(_, starred) =>
        if starred then Some(t.(labels := t.labels + {Starred}))
        else Where(l.view != Starred, t.(labels := t.labels - {Starred}))
  }

  lemma UnstarShows(l: ThreadList, id: string, x: string)
    requires OneCopyEach(l.threads) && l.view == Starred
    ensures OneCopyEach(EditList(OneStar(id, false), l).threads)
    ensures FindIn(EditList(OneStar(id, false), l).threads, x) == if x == id then None else FindIn(l.threads, x)
  {
    PatchShows(l.threads, {id}, DropLabel(Starred), x);
    KeepShows(PatchAll(l.threads, {id}, DropLabel(Starred)), {id}, None, x);
  }

  lemma MoveEditShows(o: Edit, l: ThreadList, x: string)
    requires OneCopyEach(l.threads) && (o.OneMove? || o.ManyMove?)
    ensures OneCopyEach(EditList(o, l).threads)
    ensures FindIn(EditList(o, l).threads, x) == if x in NamedBy(o) then None else FindIn(l.threads, x)
  {
    KeepShows(l.threads, NamedBy(o), None, x);
  }

  /** The patch an edit makes where a list keeps the thread. */
  function PatchOf(o: Edit): Patch
    requires !o.OneMove? && !o.ManyMove?
  {
    match o
    case OneRead(_, read) => Unread(if read then 0 else 1)
    case ManyRead(_, read) => Unread(if read then 0 else 1)
    case OneMute(_) => ToggleMuted
    case ManyMute(_, muted) => if muted then AddLabel(Muted) else DropLabel(Muted)
    case OneStar(_, starred) => StarPatch(starred)
  }

  lemma EditIsPatch(o: Edit, l: ThreadList)
    requires !o.OneMove? && !o.ManyMove? && (o.OneStar? ==> o.starred || l.view != Starred)
    ensures EditList(o, l).threads == PatchAll(l.threads, NamedBy(o), PatchOf(o))
  {
  }

  lemma PatchEditShows(o: Edit, l: ThreadList, x: string)
    requires OneCopyEach(l.threads) && !o.OneMove? && !o.ManyMove?
    requires o.OneStar? ==> o.starred || l.view != Starred
    ensures OneCopyEach(EditList(o, l).threads)
    ensures var here := FindIn(l.threads, x);
      FindIn(EditList(o, l).threads, x)
        == if here.Some? then Some(Patched(here.value, NamedBy(o), PatchOf(o))) else None
  {
    InPlaceKeepsIds(l.threads, NamedBy(o), PatchOf(o));
    PatchShows(l.threads, NamedBy(o), PatchOf(o), x);
    EditIsPatch(o, l);
  }

  lemma EditPatches(o: Edit, l: ThreadList, x: string)
    requires !o.OneMove? && !o.ManyMove? && (o.OneStar? ==> o.starred || l.view != Starred)
    ensures var here := FindIn(l.threads, x);
      ShownAfterEdit(o, l, x) == if here.Some? then Some(Patched(here.value, NamedBy(o), PatchOf(o))) else None
  {
  }

  /** The optimistic edits, one thread at a time. */
  lemma EditShows(o: Edit, l: ThreadList, x: string)
    requires OneCopyEach(l.threads)
    ensures OneCopyEach(EditList(o, l).threads)
    ensures FindIn(EditList(o, l).threads, x) == ShownAfterEdit(o, l, x)
  {
    if o.OneMove? || o.ManyMove? { MoveEditShows(o, l, x); }
    else if o.OneStar? && !o.starred && l.view == Starred { UnstarShows(l, o.id, x); }
    else {
      PatchEditShows(o, l, x);
      EditPatches(o, l, x);
    }
  }

  // --- runs ---

  ghost predicate AllOneCopyEach(lists: seq<ThreadList>) {
    forall i :: 0 <= i < |lists| ==> OneCopyEach(lists[i].threads)
  }

  /** A change that is not about thread `x`. */
  predicate LeavesAlone(m: Move, x: string) {
    if m.Deliver? then PayloadIs(m.event) && x !in Named(m.event) else x !in NamedBy(m.edit)
  }

  lemma MoveLeavesAlone(c: Cache, m: Move, x: string)
    requires AllOneCopyEach(c.lists) && LeavesAlone(m, x)
    ensures AllOneCopyEach(Next(c, m).lists) && |Next(c, m).lists| == |c.lists|
    ensures forall i :: 0 <= i < |c.lists| ==>
      FindIn(Next(c, m).lists[i].threads, x) == FindIn(c.lists[i].threads, x)
  {
    forall i | 0 <= i < |c.lists|
      ensures OneCopyEach(Next(c, m).lists[i].threads)
      ensures FindIn(Next(c, m).lists[i].threads, x) == FindIn(c.lists[i].threads, x)
    {
      match m
      case Deliver(e) => StepShows(c.lists, e, c.lists[i], x);
      case Edited(o) => EditShows(o, c.lists[i], x);
    }
  }

  lemma {:induction false} RunLeavesAlone(c: Cache, ms: seq<Move>, x: string)
    requires AllOneCopyEach(c.lists) && forall m :: m in ms ==> LeavesAlone(m, x)
    ensures AllOneCopyEach(RunMoves(c, ms).lists) && |RunMoves(c, ms).lists| == |c.lists|
    ensures forall i :: 0 <= i < |c.lists| ==>
      FindIn(RunMoves(c, ms).lists[i].threads, x) == FindIn(c.lists[i].threads, x)
    decreases ms
  {
    if ms != [] {
      assert ms[0] in ms && forall m :: m in ms[1..] ==> m in ms;
      MoveLeavesAlone(c, ms[0], x);
      RunLeavesAlone(Next(c, ms[0]), ms[1..], x);
    }
  }

  /** The last word on a thread stands. Once an email or a move has brought a thread, and through every run of events
      and edits about other threads, each cached list shows it as it came if it belongs there, and not at all if not: a
      sent mail is in the list of sent mail, received spam under spam, an archived thread in the archive. An email event
      speaks to the lists of its domain, a move to all. */
  lemma LastWordStands(c: Cache, e: Event, t: Thread, ms: seq<Move>, i: nat)
    requires AllOneCopyEach(c.lists) && i < |c.lists|
    requires (e.EmailEvent? || e.MoveEvent?) && e.thread == Some(t) && e.threadId == t.id
    requires e.EmailEvent? ==> c.lists[i].domainId == t.domainId
    requires forall m :: m in ms ==> LeavesAlone(m, t.id)
    ensures |RunMoves(Step(c, e), ms).lists| == |c.lists|
    ensures FindIn(RunMoves(Step(c, e), ms).lists[i].threads, t.id)
         == if BelongsInView(t.labels, c.lists[i].view) then Some(t) else None
  {
    forall k | 0 <= k < |c.lists|
      ensures OneCopyEach(Step(c, e).lists[k].threads)
    {
      StepShows(c.lists, e, c.lists[k], t.id);
    }
    StepShows(c.lists, e, c.lists[i], t.id);
    RunLeavesAlone(Step(c, e), ms, t.id);
  }

  /** A change that takes thread `x` out of every list. */
  predicate TakesAway(m: Move, x: string) {
    if m.Edited? then (m.edit.OneMove? && m.edit.id == x) || (m.edit.ManyMove? && x in m.edit.ids)
    else
      || (m.event.DeleteEvent? && m.event.threadId == x)
      || (m.event.MoveEvent? && m.event.threadId == x && m.event.thread.None?)
      || (m.event.BulkEvent? && m.event.action.BulkDelete? && x in m.event.threadIds)
  }

  /** And once an event or an optimistic edit has taken a thread away, no list shows it until it is brought back. */
  lemma GoneStaysGone(c: Cache, m: Move, x: string, ms: seq<Move>, i: nat)
    requires AllOneCopyEach(c.lists) && i < |c.lists|
    requires TakesAway(m, x) && forall n :: n in ms ==> LeavesAlone(n, x)
    ensures |RunMoves(Next(c, m), ms).lists| == |c.lists|
    ensures FindIn(RunMoves(Next(c, m), ms).lists[i].threads, x) == None
  {
    forall k | 0 <= k < |c.lists|
      ensures OneCopyEach(Next(c, m).lists[k].threads) && FindIn(Next(c, m).lists[k].threads, x) == None
    {
      match m
      case Deliver(e) => StepShows(c.lists, e, c.lists[k], x);
      case Edited(o) => EditShows(o, c.lists[k], x);
    }
    RunLeavesAlone(Next(c, m), ms, x);
  }

  // --- the echo of an action ---

  /** What the echo of an accepted action tells the browser. Whatever copies it had, those it has afterwards carry the
      labels of the server's row, or its unread count if that is what the action marked; and none is left of a thread
      that was deleted. */
  lemma EchoTellsTheRow(lists: seq<ThreadList>, l: ThreadList, a: Action, row: Row, now: int, after: Thread)
    requires OneCopyEach(l.threads) && (a.DoDelete? || Shows(after, After(row, a, now)))
    ensures var shown := FindIn(StepList(lists, EventOf(a, after), l).threads, after.id);
      if a.DoDelete? then shown == None
      else if a.DoRead? || a.DoUnread? then shown.Some? ==> shown.value.unread == After(row, a, now).unread
      else shown.Some? ==> shown.value.labels == After(row, a, now).labels
  {
    StepShows(lists, EventOf(a, after), l, after.id);
  }
}
