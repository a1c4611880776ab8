/** Which events leave a list with threads that do not belong in its view. Star and mute events write the payload's
    labels over the cached copies and leave the entries where they are; no other event does. */
module ListViews {
  import opened Wrappers
  import opened Labels
  import opened ThreadLists
  import opened ThreadCache
  import opened CacheInvariants
  import opened CacheSteps

  /** Every thread of a list belongs in its view. */
  ghost predicate InView(l: ThreadList) {
    forall t :: t in l.threads ==> BelongsInView(t.labels, l.view)
  }

  ghost predicate AllInView(lists: seq<ThreadList>) {
    forall i :: 0 <= i < |lists| ==> InView(lists[i])
  }

  /** A list that goes on holding the thread of a star or mute event is one where the payload belongs. */
  predicate KeepsView(l: ThreadList, e: Event) {
    match e
    case StarEvent(starred, id, Some(t)) =>
      Holds(l, id) && !(l.view == Starred && !starred) ==> BelongsInView(t.labels, l.view)
    case MuteEvent(id, Some(t)) => Holds(l, id) ==> BelongsInView(t.labels, l.view)
    case _ => true
  }

  lemma PatchInView(l: ThreadList, ids: set<string>, p: Patch)
    requires InView(l)
    requires forall t :: t in l.threads && t.id in ids ==> BelongsInView(ApplyPatch(p, t).labels, l.view)
    ensures InView(PatchList(l, ids, p))
  {
    assert forall i :: 0 <= i < |l.threads| ==> l.threads[i] in l.threads;
  }

  lemma DropInView(l: ThreadList, ids: set<string>)
    requires InView(l)
    ensures forall t :: t in Keep(l.threads, ids, None) ==> BelongsInView(t.labels, l.view)
  {
    KeepMembers(l.threads, ids, None);
  }

  lemma AddInView(l: ThreadList, t: Thread)
    requires InView(l) && BelongsInView(t.labels, l.view)
    ensures InView(Add(l, t))
  {
    SortFacts([t] + l.threads);
  }

  /** The list of one thread after a star or mute event shows the payload's labels. */
  lemma RelabelInViewIff(l: ThreadList, id: string, labels: set<Label>)
    requires InView(l)
    ensures InView(PatchList(l, {id}, Relabel(labels))) <==> (Holds(l, id) ==> BelongsInView(labels, l.view))
  {
    if Holds(l, id) {
      var j :| 0 <= j < |l.threads| && l.threads[j] == FindIn(l.threads, id).value;
      assert PatchList(l, {id}, Relabel(labels)).threads[j] in PatchList(l, {id}, Relabel(labels)).threads;
      if BelongsInView(labels, l.view) { PatchInView(l, {id}, Relabel(labels)); }
    } else {
      assert forall j :: 0 <= j < |l.threads| ==> l.threads[j].id in Ids(l.threads);
      assert PatchAll(l.threads, {id}, Relabel(labels)) == l.threads;
    }
  }

  lemma FromPatch(ts: seq<Thread>, ids: set<string>, p: Patch, t: Thread) returns (u: Thread)
    requires t in PatchAll(ts, ids, p)
    ensures u in ts && t == if u.id in ids then ApplyPatch(p, u) else u
  {
    var j :| 0 <= j < |ts| && PatchAll(ts, ids, p)[j] == t;
    u := ts[j];
  }

  lemma KeptInView(l: ThreadList, ids: set<string>, action: BulkAction)
    requires InView(l)
    ensures forall t :: t in Keep(PatchAll(l.threads, ids, Bulk(action)), ids, Some(l.view))
              ==> BelongsInView(t.labels, l.view)
  {
    var patched := PatchAll(l.threads, ids, Bulk(action));
    KeepMembers(patched, ids, Some(l.view));
    forall t | t in patched && KeepsThread(t, ids, Some(l.view))
      ensures BelongsInView(t.labels, l.view)
    {
      OneInView(l, ids, action, t);
    }
  }

  lemma OneInView(l: ThreadList, ids: set<string>, action: BulkAction, t: Thread)
    requires InView(l) && t in PatchAll(l.threads, ids, Bulk(action)) && KeepsThread(t, ids, Some(l.view))
    ensures BelongsInView(t.labels, l.view)
  {
    var u := FromPatch(l.threads, ids, Bulk(action), t);
  }

  lemma JoiningInView(lists: seq<ThreadList>, l: ThreadList, ids: seq<string>, action: BulkAction)
    ensures forall t :: t in Joining(lists, l, ids, action) ==> BelongsInView(t.labels, l.view)
  {
    JoiningMembers(lists, l, ids, action);
    forall t | t in Joining(lists, l, ids, action)
      ensures BelongsInView(t.labels, l.view)
    {
      assert JoinsAs(lists, l, t.id, action) == Some(t);
    }
  }

  lemma BulkInView(lists: seq<ThreadList>, l: ThreadList, ids: seq<string>, action: BulkAction)
    requires InView(l)
    ensures InView(BulkLabelList(lists, l, ids, action))
  {
    var kept := Keep(PatchAll(l.threads, IdSet(ids), Bulk(action)), IdSet(ids), Some(l.view));
    KeptInView(l, IdSet(ids), action);
    JoiningInView(lists, l, ids, action);
    BulkMembers(lists, l, ids, action, kept + Joining(lists, l, ids, action));
  }

  lemma WholeInView(l: ThreadList, id: string, t: Thread)
    requires InView(l) && BelongsInView(t.labels, l.view)
    ensures InView(PatchList(l, {id}, Whole(t)))
    ensures InView(l.(threads := SortNewestFirst(PatchAll(l.threads, {id}, Whole(t)))))
  {
    PatchInView(l, {id}, Whole(t));
    SortFacts(PatchAll(l.threads, {id}, Whole(t)));
  }

  lemma ThreadInView(lists: seq<ThreadList>, e: Event, l: ThreadList, t: Thread)
    requires InView(l) && (e.EmailEvent? || e.MoveEvent?) && e.thread == Some(t)
    ensures InView(StepList(lists, e, l))
  {
    if BelongsInView(t.labels, l.view) {
      WholeInView(l, e.threadId, t);
      AddInView(l, t);
    } else {
      DropInView(l, {e.threadId});
    }
  }

  lemma StarInViewIff(lists: seq<ThreadList>, e: Event, l: ThreadList, t: Thread)
    requires InView(l) && e.StarEvent? && e.thread == Some(t) && t.id == e.threadId
    ensures InView(StepList(lists, e, l)) <==> KeepsView(l, e)
  {
    RelabelInViewIff(l, t.id, t.labels);
    DropInView(l, {t.id});
    if l.view == Starred && BelongsInView(t.labels, Starred) { AddInView(l, t); }
  }

  /** Every event, whatever its payload, leaves a list in view exactly when it is no star or mute event of a thread
      that the list goes on holding and that does not belong there. */
  lemma StepKeepsViewIff(lists: seq<ThreadList>, e: Event, l: ThreadList)
    requires InView(l) && (e.StarEvent? && e.thread.Some? ==> e.thread.value.id == e.threadId)
    ensures InView(StepList(lists, e, l)) <==> KeepsView(l, e)
  {
    match e
    case StarEvent(_, _, Some(t)) => StarInViewIff(lists, e, l, t);
    case MuteEvent(id, Some(t)) => RelabelInViewIff(l, id, t.labels);
    case EmailEvent(_, _, Some(t)) => ThreadInView(lists, e, l, t);
    case MoveEvent(_, _, Some(t)) => ThreadInView(lists, e, l, t);
    case MoveEvent(id, _, None) => DropInView(l, {id});
    case DeleteEvent(id, _) => DropInView(l, {id});
    case ReadEvent(read, id, _) => PatchInView(l, {id}, Unread(if read then 0 else 1));
    case BulkEvent(action, ids) =>
      if ChangesLabels(action) {
        BulkInView(lists, l, ids, action);
      } else if action.BulkDelete? {
        DropInView(l, IdSet(ids));
      } else {
        PatchInView(l, IdSet(ids), BulkPatch(action));
      }
    case _ =>
  }

  /** A payload that differs from the listed copy in no label but the one the event is about keeps every list in
      view, except that a mute event does not take an entry out of the muted view. */
  predicate DiffersOnlyIn(l: ThreadList, t: Thread, changed: Label) {
    Holds(l, t.id) ==> t.labels - {changed} == FindIn(l.threads, t.id).value.labels - {changed}
  }

  lemma OneLabelKeepsView(l: ThreadList, e: Event)
    requires InView(l)
    requires match e
      case StarEvent(starred, id, Some(t)) =>
        t.id == id && DiffersOnlyIn(l, t, Starred) && (starred ==> Starred in t.labels)
      case MuteEvent(id, Some(t)) => t.id == id && DiffersOnlyIn(l, t, Muted) && l.view != Muted
      case _ => true
    ensures KeepsView(l, e)
  {
    if (e.MuteEvent? || (e.StarEvent? && (l.view == Starred ==> e.starred))) && e.thread.Some? && Holds(l, e.threadId) {
      var changed := if e.StarEvent? then Starred else Muted;
      SameButOne(e.thread.value.labels, FindIn(l.threads, e.threadId).value.labels, changed, l.view);
    }
  }

  lemma SameButOne(a: set<Label>, b: set<Label>, changed: Label, view: Label)
    requires a - {changed} == b - {changed} && changed !in {Inbox, Trash, Spam} && BelongsInView(b, view)
    requires view == changed ==> changed in a
    ensures BelongsInView(a, view)
  {
    forall l: Label | l != changed
      ensures l in a <==> l in b
    {
      assert l in a - {changed} <==> l in b - {changed};
    }
  }
}
