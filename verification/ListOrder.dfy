/** Cached lists stay newest first, although the bulk branch sorts only when a list's length changes. */
module ListOrder {
  import opened Wrappers
  import opened Labels
  import opened ThreadLists
  import opened ThreadCache
  import opened CacheInvariants
  import opened CacheSteps
  import opened ListViews

  /** Only an email moves a thread in time: a moved payload keeps the `last_message_at` of the copy in the list. */
  ghost predicate KeepsTime(l: ThreadList, e: Event) {
    e.MoveEvent? && e.thread.Some? ==>
      forall t :: t in l.threads && t.id == e.threadId ==> t.lastMessageAt == e.thread.value.lastMessageAt
  }

  lemma PatchInOrder(ts: seq<Thread>, ids: set<string>, p: Patch)
    requires NewestFirst(ts)
    requires forall t :: t in ts && t.id in ids ==> ApplyPatch(p, t).lastMessageAt == t.lastMessageAt
    ensures NewestFirst(PatchAll(ts, ids, p))
  {
    assert forall i :: 0 <= i < |ts| ==> ts[i] in ts;
  }

  lemma SomeThreadLeft(l: ThreadList, ids: set<string>, action: BulkAction) returns (leaver: Thread)
    requires |Keep(PatchAll(l.threads, ids, Bulk(action)), ids, Some(l.view))| < |l.threads|
    ensures leaver in l.threads && !BelongsInView(ApplyBulkLabels(leaver.labels, action), l.view)
  {
    var patched := PatchAll(l.threads, ids, Bulk(action));
    KeepMembers(patched, ids, Some(l.view));
    var i :| 0 <= i < |patched| && !KeepsThread(patched[i], ids, Some(l.view));
    leaver := l.threads[i];
  }

  /** When a bulk action leaves a list's length as it was, no thread has joined it and none has left. */
  lemma SameLengthSameThreads(lists: seq<ThreadList>, l: ThreadList, ids: seq<string>, action: BulkAction)
    requires InView(l)
    requires |Keep(PatchAll(l.threads, IdSet(ids), Bulk(action)), IdSet(ids), Some(l.view))|
             + |Joining(lists, l, ids, action)| == |l.threads|
    ensures Joining(lists, l, ids, action) == []
    ensures Keep(PatchAll(l.threads, IdSet(ids), Bulk(action)), IdSet(ids), Some(l.view))
         == PatchAll(l.threads, IdSet(ids), Bulk(action))
  {
    var joining := Joining(lists, l, ids, action);
    if joining != [] {
      var leaver := SomeThreadLeft(l, IdSet(ids), action);
      JoiningMembers(lists, l, ids, action);
      var joiner := FindCached(lists, joining[0].id).value;
      assert JoinsAs(lists, l, joining[0].id, action) == Some(joining[0]) by { assert joining[0] in joining; }
      NeverLeaveAndJoin(action, l.view, leaver.labels, joiner.labels);
      assert false;
    }
    KeepMembers(PatchAll(l.threads, IdSet(ids), Bulk(action)), IdSet(ids), Some(l.view));
  }

  lemma BulkInOrder(lists: seq<ThreadList>, l: ThreadList, ids: seq<string>, action: BulkAction)
    requires InView(l) && NewestFirst(l.threads)
    ensures NewestFirst(BulkLabelList(lists, l, ids, action).threads)
  {
    var all := Keep(PatchAll(l.threads, IdSet(ids), Bulk(action)), IdSet(ids), Some(l.view))
               + Joining(lists, l, ids, action);
    BulkThreadsAre(lists, l, ids, action, all);
    if |all| == |l.threads| {
      UnsortedInOrder(lists, l, ids, action, all);
    } else {
      SortFacts(all);
    }
  }

  /** The result that the bulk branch does not sort is the old list patched in place. */
  lemma UnsortedInOrder(
    lists: seq<ThreadList>, l: ThreadList, ids: seq<string>, action: BulkAction, all: seq<Thread>)
    requires InView(l) && NewestFirst(l.threads) && |all| == |l.threads|
    requires all == Keep(PatchAll(l.threads, IdSet(ids), Bulk(action)), IdSet(ids), Some(l.view))
                    + Joining(lists, l, ids, action)
    ensures NewestFirst(all)
  {
    SameLengthSameThreads(lists, l, ids, action);
    assert all == PatchAll(l.threads, IdSet(ids), Bulk(action));
    PatchInOrder(l.threads, IdSet(ids), Bulk(action));
  }

  /** What the bulk branch stores: the list as it was, the result as built, or the result sorted. */
  lemma BulkThreadsAre(lists: seq<ThreadList>, l: ThreadList, ids: seq<string>, action: BulkAction, all: seq<Thread>)
    requires all == Keep(PatchAll(l.threads, IdSet(ids), Bulk(action)), IdSet(ids), Some(l.view))
                    + Joining(lists, l, ids, action)
    ensures var r := BulkLabelList(lists, l, ids, action).threads;
      r == l.threads || r == if |all| != |l.threads| then SortNewestFirst(all) else all
  {
  }

  lemma AddInOrder(l: ThreadList, t: Thread)
    ensures NewestFirst(Add(l, t).threads)
  {
    SortFacts([t] + l.threads);
  }

  lemma DropInOrder(l: ThreadList, id: string)
    requires NewestFirst(l.threads)
    ensures NewestFirst(Drop(l, id).threads)
  {
    KeepInOrder(l.threads, {id}, None);
  }

  lemma MovedInOrder(lists: seq<ThreadList>, e: Event, l: ThreadList)
    requires KeepsTime(l, e) && NewestFirst(l.threads) && e.MoveEvent?
    ensures NewestFirst(StepList(lists, e, l).threads)
  {
    DropInOrder(l, e.threadId);
    if e.thread.Some? {
      AddInOrder(l, e.thread.value);
      PatchInOrder(l.threads, {e.threadId}, Whole(e.thread.value));
    }
  }

  lemma StarredInOrder(lists: seq<ThreadList>, e: Event, l: ThreadList)
    requires NewestFirst(l.threads) && e.StarEvent?
    ensures NewestFirst(StepList(lists, e, l).threads)
  {
    DropInOrder(l, e.threadId);
    if e.thread.Some? {
      AddInOrder(l, e.thread.value);
      PatchInOrder(l.threads, {e.threadId}, Relabel(e.thread.value.labels));
    }
  }

  lemma EmailInOrder(lists: seq<ThreadList>, e: Event, l: ThreadList)
    requires NewestFirst(l.threads) && e.EmailEvent?
    ensures NewestFirst(StepList(lists, e, l).threads)
  {
    DropInOrder(l, e.threadId);
    if e.thread.Some? {
      AddInOrder(l, e.thread.value);
      SortFacts(PatchAll(l.threads, {e.threadId}, Whole(e.thread.value)));
    }
  }

  /** Every event keeps a list newest first whose threads belong in its view. Only a bulk change of labels relies on
      the view. */
  lemma StepKeepsOrder(lists: seq<ThreadList>, e: Event, l: ThreadList)
    requires NewestFirst(l.threads) && KeepsTime(l, e) && (e.BulkEvent? && ChangesLabels(e.action) ==> InView(l))
    ensures NewestFirst(StepList(lists, e, l).threads)
  {
    match e
    case EmailEvent(_, _, _) => EmailInOrder(lists, e, l);
    case MoveEvent(_, _, _) => MovedInOrder(lists, e, l);
    case StarEvent(_, _, _) => StarredInOrder(lists, e, l);
    case MuteEvent(id, thread) => if thread.Some? { PatchInOrder(l.threads, {id}, Relabel(thread.value.labels)); }
    case ReadEvent(read, id, _) => PatchInOrder(l.threads, {id}, Unread(if read then 0 else 1));
    case DeleteEvent(id, _) => DropInOrder(l, id);
    case BulkEvent(action, ids) =>
      if action.BulkRead? || action.BulkUnread? {
        PatchInOrder(l.threads, IdSet(ids), BulkPatch(action));
      } else if action.BulkDelete? {
        KeepInOrder(l.threads, IdSet(ids), None);
      } else {
        BulkInOrder(lists, l, ids, action);
      }
  }

  // --- a list out of view ---

  /** Why the view matters. A trash list holds a thread that does not belong there. Muting it with a thread that is in
      trash and spam drops the one and takes the other in: the length stays, nothing is sorted, and the newer thread
      stands last. */
  lemma OutOfViewBreaksOrder(a: Thread, b: Thread, c: Thread, d: string)
    requires a.id != b.id && b.id != c.id && a.id != c.id && c.domainId == d
    requires a.labels == {Starred} && b.labels == {Trash} && c.labels == {Trash, Spam}
    requires a.lastMessageAt >= b.lastMessageAt && c.lastMessageAt > b.lastMessageAt
    ensures var l := ThreadList(d, Trash, [a, b], 2);
      var lists := [l, ThreadList(d, Spam, [c], 1)];
      NewestFirst(l.threads) && !InView(l)
      && !NewestFirst(StepList(lists, BulkEvent(BulkMute, [a.id, c.id]), l).threads)
  {
    var l := ThreadList(d, Trash, [a, b], 2);
    var lists := [l, ThreadList(d, Spam, [c], 1)];
    var ids := [a.id, c.id];
    var muted := ApplyPatch(Bulk(BulkMute), c);
    assert a in l.threads;
    MutedKept(a, b, c);
    MutedJoins(lists, l, a, b, c);
    var r := BulkLabelList(lists, l, ids, BulkMute).threads;
    SwappedUnsorted(lists, l, ids, BulkMute, b, muted);
    assert r[0].lastMessageAt < r[1].lastMessageAt;
    assert !BelongsInView(a.labels, l.view);
  }

  lemma SwappedUnsorted(
    lists: seq<ThreadList>, l: ThreadList, ids: seq<string>, action: BulkAction, kept: Thread, joined: Thread)
    requires Keep(PatchAll(l.threads, IdSet(ids), Bulk(action)), IdSet(ids), Some(l.view)) == [kept]
    requires Joining(lists, l, ids, action) == [joined] && |l.threads| == 2
    ensures BulkLabelList(lists, l, ids, action).threads == [kept] + [joined]
  {
  }

  lemma MutedKept(a: Thread, b: Thread, c: Thread)
    requires a.id != b.id && b.id != c.id && a.labels == {Starred}
    ensures Keep(PatchAll([a, b], IdSet([a.id, c.id]), Bulk(BulkMute)), IdSet([a.id, c.id]), Some(Trash)) == [b]
  {
    var ids := IdSet([a.id, c.id]);
    var u := ApplyPatch(Bulk(BulkMute), a);
    assert PatchAll([a, b], ids, Bulk(BulkMute)) == [u, b];
    assert Trash !in u.labels;
    assert [u, b][1..] == [b] && [b][1..] == [];
    assert Keep([b], ids, Some(Trash)) == [b];
  }

  lemma MutedJoins(lists: seq<ThreadList>, l: ThreadList, a: Thread, b: Thread, c: Thread)
    requires a.id != b.id && b.id != c.id && a.id != c.id && c.domainId == l.domainId && l.view == Trash
    requires c.labels == {Trash, Spam} && l.threads == [a, b]
    requires |lists| == 2 && lists[0] == l && lists[1].threads == [c]
    ensures Joining(lists, l, [a.id, c.id], BulkMute) == [ApplyPatch(Bulk(BulkMute), c)]
  {
    var ids := [a.id, c.id];
    assert [a, b][1..] == [b] && [b][1..] == [] && lists[1..] == [lists[1]];
    assert FindIn([a, b], a.id) == Some(a) && FindIn([a, b], c.id) == None && FindIn([c], c.id) == Some(c);
    assert FindCached(lists, c.id) == Some(c);
    assert JoinsAs(lists, l, a.id, BulkMute) == None;
    assert ids[..1] == [a.id] && [a.id][..0] == [];
    assert Joining(lists, l, [a.id], BulkMute) == [];
  }
}
