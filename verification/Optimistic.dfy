/** The optimistic edits a mutation makes before the server answers. They change the lists and the badge as
    the event that will echo them does, or in place. */
module Optimistic {
  import opened Wrappers
  import opened Labels
  import opened ThreadLists
  import opened ThreadCache
  import opened CacheInvariants
  import opened CacheSteps
  import opened UnreadBadge
  import opened ListViews

  /** The optimistic edits. `OneMove` is archive, trash, spam, delete or a move of one thread; `ManyMove`
      is any of them on a selection. */
  datatype Edit =
    | OneRead(id: string, read: bool)
    | OneMove(id: string)
    | OneMute(id: string)
    | OneStar(id: string, starred: bool)
    | ManyRead(ids: seq<string>, read: bool)
    | ManyMove(ids: seq<string>)
    | ManyMute(ids: seq<string>, muted: bool)

  function StarPatch(starred: bool): Patch {
    if starred then AddLabel(Starred) else DropLabel(Starred)
  }

  function EditList(o: Edit, l: ThreadList): (r: ThreadList)
    ensures r.view == l.view && r.domainId == l.domainId
  {
    match o
    case OneRead(id, read) => PatchList(l, {id}, Unread(if read then 0 else 1))
    case OneMove(id) => l.(threads := Keep(l.threads, {id}, None), total := l.total - 1)
    case OneMute(id) => PatchList(l, {id}, ToggleMuted)
    case OneStar(id, starred) =>
      var patched := PatchAll(l.threads, {id}, StarPatch(starred));
      if l.view == Starred && !starred
      then l.(threads := Keep(patched, {id}, None), total := if Holds(l, id) then l.total - 1 else l.total)
      else l.(threads := patched)
    case ManyRead(ids, read) => PatchList(l, IdSet(ids), Unread(if read then 0 else 1))
    case ManyMove(ids) =>
      var filtered := Keep(l.threads, IdSet(ids), None);
      l.(threads := filtered, total := l.total - (|l.threads| - |filtered|))
    case ManyMute(ids, muted) => PatchList(l, IdSet(ids), if muted then AddLabel(Muted) else DropLabel(Muted))
  }

  /** All cached threads, list after list. */
  function Flatten(lists: seq<ThreadList>): seq<Thread> {
    if lists == [] then [] else lists[0].threads + Flatten(lists[1..])
  }

  /** The badge change the edit asks for on behalf of one eligible thread. */
  function EditDelta(o: Edit, t: Thread): int {
    if !InboxEligible(t.labels) then 0
    else match o
      case OneRead(_, read) => (if read then 0 else 1) - t.unread
      case ManyRead(_, read) => (if read then 0 else 1) - t.unread
      case OneMove(_) => 0 - t.unread
      case ManyMove(_) => 0 - t.unread
      case _ => 0
  }

  /** The badge changes of a selection: the first copy of each selected thread counts. */
  function SeenDeltas(ts: seq<Thread>, o: Edit, ids: seq<string>): map<string, int> {
    if ts == [] then map[]
    else
      var last := |ts| - 1;
      var deltas := SeenDeltas(ts[..last], o, ids);
      var t := ts[last];
      if t.id in Ids(ts[..last]) || t.id !in ids then deltas
      else Credit(deltas, t.domainId, EditDelta(o, t))
  }

  function ApplyDeltas(counts: map<string, int>, deltas: map<string, int>): map<string, int> {
    map d | d in counts.Keys + deltas.Keys ::
      if d in deltas then Max(0, Badge(counts, d) + deltas[d]) else counts[d]
  }

  function EditCounts(c: Cache, o: Edit): map<string, int> {
    match o
    case ManyRead(ids, _) => ApplyDeltas(c.counts, SeenDeltas(Flatten(c.lists), o, ids))
    case ManyMove(ids) => ApplyDeltas(c.counts, SeenDeltas(Flatten(c.lists), o, ids))
    case ManyMute(_, _) => c.counts
    case _ =>
      var t := FindCached(c.lists, o.id);
      if t.None? then c.counts else AdjustUnreadCount(c.counts, DomainOf(t), EditDelta(o, t.value))
  }

  /** The cache after an optimistic edit. */
  function Apply(c: Cache, o: Edit): (r: Cache)
    ensures |r.lists| == |c.lists|
    ensures forall i :: 0 <= i < |c.lists| ==> r.lists[i] == EditList(o, c.lists[i])
  {
    Cache(seq(|c.lists|, i requires 0 <= i < |c.lists| => EditList(o, c.lists[i])), EditCounts(c, o))
  }

  // --- edits that remove or mark: the same as an event ---

  ghost predicate SameThreads(a: seq<ThreadList>, b: seq<ThreadList>) {
    |a| == |b| && forall i :: 0 <= i < |a| ==>
      a[i].threads == b[i].threads && a[i].view == b[i].view && a[i].domainId == b[i].domainId
  }

  lemma SameThreadsSameCache(a: seq<ThreadList>, b: seq<ThreadList>, d: string)
    requires SameThreads(a, b) && CacheOk(a, d)
    ensures CacheOk(b, d)
  {
    forall t
      ensures Cached(a, t) <==> Cached(b, t)
    {
    }
  }

  /** The event whose effect on threads and badge an edit has. */
  function AsEvent(o: Edit): Event
    requires o.OneRead? || o.OneMove? || o.ManyRead? || o.ManyMove?
  {
    match o
    case OneRead(id, read) => ReadEvent(read, id, None)
    case OneMove(id) => DeleteEvent(id, None)
    case ManyRead(ids, read) => BulkEvent(if read then BulkRead else BulkUnread, ids)
    case ManyMove(ids) => BulkEvent(BulkDelete, ids)
  }

  lemma EditThreadsAreEventThreads(c: Cache, o: Edit)
    requires o.OneRead? || o.OneMove? || o.ManyRead? || o.ManyMove?
    ensures SameThreads(Step(c, AsEvent(o)).lists, Apply(c, o).lists)
  {
    forall i | 0 <= i < |c.lists|
      ensures StepList(c.lists, AsEvent(o), c.lists[i]).threads == EditList(o, c.lists[i]).threads
    {
      EditListIsEventList(c.lists, o, c.lists[i]);
    }
  }

  lemma EditListIsEventList(lists: seq<ThreadList>, o: Edit, l: ThreadList)
    requires o.OneRead? || o.OneMove? || o.ManyRead? || o.ManyMove?
    ensures StepList(lists, AsEvent(o), l).threads == EditList(o, l).threads
  {
    match o
    case OneMove(id) => KeepMembers(l.threads, {id}, None);
    case ManyMove(ids) => KeepMembers(l.threads, IdSet(ids), None);
    case _ =>
  }

  lemma {:induction false} FindInFlatten(lists: seq<ThreadList>, id: string)
    ensures FindIn(Flatten(lists), id) == FindCached(lists, id)
  {
    if lists != [] {
      FindInFlatten(lists[1..], id);
      FindInConcat(lists[0].threads, Flatten(lists[1..]), id);
    }
  }

  lemma {:induction false} FindInConcat(a: seq<Thread>, b: seq<Thread>, id: string)
    ensures FindIn(a + b, id) == if FindIn(a, id).Some? then FindIn(a, id) else FindIn(b, id)
  {
    if a == [] {
      assert a + b == b;
    } else {
      assert (a + b)[1..] == a[1..] + b;
      FindInConcat(a[1..], b, id);
    }
  }

  function DeltaOf(o: Edit, t: Option<Thread>): int {
    if t.None? then 0 else EditDelta(o, t.value)
  }

  /** The sum of the changes of the selected threads, by id. */
  function SelectedDelta(ts: seq<Thread>, o: Edit, ids: seq<string>): int {
    if ids == [] then 0
    else SelectedDelta(ts, o, ids[..|ids| - 1]) + DeltaOf(o, FindIn(ts, ids[|ids| - 1]))
  }

  lemma {:induction false} SelectedDeltaAppend(ts: seq<Thread>, t: Thread, o: Edit, ids: seq<string>)
    requires Distinct(ids)
    ensures SelectedDelta(ts + [t], o, ids) ==
            SelectedDelta(ts, o, ids) + if t.id in ids && t.id !in Ids(ts) then EditDelta(o, t) else 0
  {
    if ids != [] {
      var last := |ids| - 1;
      SelectedDeltaAppend(ts, t, o, ids[..last]);
      FindInAppend(ts, t, ids[last]);
      assert ids == ids[..last] + [ids[last]];
      assert ids[last] !in ids[..last];
    }
  }

  lemma {:induction false} SelectedDeltaOfNone(o: Edit, ids: seq<string>)
    ensures SelectedDelta([], o, ids) == 0
  {
    if ids != [] { SelectedDeltaOfNone(o, ids[..|ids| - 1]); }
  }

  /** Walking the lists once, counting first copies, adds up the same changes as walking the selection. */
  lemma {:induction false} SeenDeltasAddUp(ts: seq<Thread>, o: Edit, ids: seq<string>, d: string)
    requires forall t :: t in ts ==> t.domainId == d
    ensures Badge(SeenDeltas(ts, o, ids), d) == SelectedDelta(ts, o, Once(ids))
  {
    if ts == [] {
      SelectedDeltaOfNone(o, Once(ids));
    } else {
      var last := |ts| - 1;
      SeenDeltasAddUp(ts[..last], o, ids, d);
      SelectedDeltaAppend(ts[..last], ts[last], o, Once(ids));
      assert ts == ts[..last] + [ts[last]];
    }
  }

  lemma {:induction false} SelectedIsNetChange(lists: seq<ThreadList>, o: Edit, ids: seq<string>, e: Event)
    requires (o.ManyRead? || o.ManyMove?) && e == AsEvent(o) && forall id :: id in ids ==> id in o.ids
    ensures SelectedDelta(Flatten(lists), o, ids) == NetChange(lists, e, ids)
  {
    if ids != [] {
      var last := |ids| - 1;
      SelectedIsNetChange(lists, o, ids[..last], e);
      FindInFlatten(lists, ids[last]);
      SelectedIsContribution(lists, o, ids[last], e);
    }
  }

  lemma SelectedIsContribution(lists: seq<ThreadList>, o: Edit, id: string, e: Event)
    requires (o.ManyRead? || o.ManyMove?) && e == AsEvent(o) && id in o.ids
    ensures DeltaOf(o, FindCached(lists, id))
         == Contribution(NewCopy(lists, e, id)) - Contribution(FindCached(lists, id))
  {
  }

  lemma {:induction false} FlattenDomain(lists: seq<ThreadList>, d: string)
    requires forall i :: 0 <= i < |lists| ==> forall t :: t in lists[i].threads ==> t.domainId == d
    ensures forall t :: t in Flatten(lists) ==> t.domainId == d
  {
    if lists != [] { FlattenDomain(lists[1..], d); }
  }

  /** What an edit asks the badge of the domain to change by, before the clamp at zero. */
  function EditBadgeDelta(c: Cache, o: Edit, d: string): int {
    match o
    case ManyRead(ids, _) => Badge(SeenDeltas(Flatten(c.lists), o, ids), d)
    case ManyMove(ids) => Badge(SeenDeltas(Flatten(c.lists), o, ids), d)
    case ManyMute(_, _) => 0
    case _ => DeltaOf(o, FindCached(c.lists, o.id))
  }

  /** The optimistic walk over the cached lists and the reducer's walk over the event's ids change the badge
      by the same amount. */
  lemma EditBadgeIsEventBadge(c: Cache, o: Edit, d: string)
    requires CacheOk(c.lists, d) && Badge(c.counts, d) >= 0
    requires o.OneRead? || o.OneMove? || o.ManyRead? || o.ManyMove?
    ensures EditBadgeDelta(c, o, d) == BadgeDelta(c, AsEvent(o), d)
    ensures Badge(Apply(c, o).counts, d) == Badge(Step(c, AsEvent(o)).counts, d)
  {
    if o.ManyRead? || o.ManyMove? {
      WalksAgree(c, o, d);
      StepBadge(c, AsEvent(o), d);
      DeltasApplied(c.counts, SeenDeltas(Flatten(c.lists), o, o.ids), d);
    }
  }

  lemma WalksAgree(c: Cache, o: Edit, d: string)
    requires CacheOk(c.lists, d) && (o.ManyRead? || o.ManyMove?)
    ensures EditBadgeDelta(c, o, d) == BadgeDelta(c, AsEvent(o), d)
  {
    WalksEqual(c.lists, o, o.ids, AsEvent(o), d);
  }

  lemma WalksEqual(lists: seq<ThreadList>, o: Edit, ids: seq<string>, e: Event, d: string)
    requires CacheOk(lists, d) && (o.ManyRead? || o.ManyMove?) && ids == o.ids
    requires e == AsEvent(o)
    ensures Badge(SeenDeltas(Flatten(lists), o, ids), d) == Badge(DeltaByDomain(lists, ids, e.action), d)
  {
    WalkIsNetChange(lists, o, ids, Once(ids), e, d);
    BulkDeltaIsNetChange(lists, e, ids, d);
  }

  lemma WalkIsNetChange(
    lists: seq<ThreadList>, o: Edit, ids: seq<string>, once: seq<string>, e: Event, d: string)
    requires (o.ManyRead? || o.ManyMove?) && e == AsEvent(o) && ids == o.ids && once == Once(ids)
    requires forall i :: 0 <= i < |lists| ==> ListOk(lists[i], d)
    ensures Badge(SeenDeltas(Flatten(lists), o, ids), d) == NetChange(lists, e, once)
  {
    FlattenDomain(lists, d);
    SeenDeltasAddUp(Flatten(lists), o, ids, d);
    SelectedIsNetChange(lists, o, once, e);
  }

  lemma DeltasApplied(counts: map<string, int>, deltas: map<string, int>, d: string)
    requires Badge(counts, d) >= 0
    ensures Badge(ApplyDeltas(counts, deltas), d) == Max(0, Badge(counts, d) + Badge(deltas, d))
  {
  }

  // --- edits in place: star and mute ---

  lemma {:induction false} PatchKeepsSum(ts: seq<Thread>, ids: set<string>, p: Patch)
    requires p.AddLabel? || p.DropLabel? || p.ToggleMuted?
    ensures SumUnread(PatchAll(ts, ids, p)) == SumUnread(ts)
  {
    if ts != [] {
      PatchKeepsSum(ts[1..], ids, p);
      assert PatchAll(ts, ids, p)[1..] == PatchAll(ts[1..], ids, p);
    }
  }

  /** A patch of one label that the inbox test does not look at. */
  predicate Harmless(p: Patch) {
    match p
    case AddLabel(l) => l == Starred || l == Muted
    case DropLabel(l) => l == Starred || l == Muted
    case ToggleMuted => true
    case _ => false
  }

  lemma InPlaceKeepsList(lists: seq<ThreadList>, i: nat, ids: set<string>, p: Patch, d: string)
    requires i < |lists| && ListOk(lists[i], d) && Harmless(p)
    ensures ListOk(PatchList(lists[i], ids, p), d)
  {
    var ts := lists[i].threads;
    forall j | 0 <= j < |ts|
      ensures var t := PatchAll(ts, ids, p)[j];
        t.id == ts[j].id && t.domainId == d && FitsInbox(lists[i].view, t)
    {
      assert ts[j] in ts;
    }
  }

  function Patched(ids: set<string>, p: Patch, t: Thread): Thread {
    if t.id in ids then ApplyPatch(p, t) else t
  }

  ghost predicate PatchedLists(lists: seq<ThreadList>, r: seq<ThreadList>, ids: set<string>, p: Patch) {
    |r| == |lists| && forall i :: 0 <= i < |lists| ==> r[i] == PatchList(lists[i], ids, p)
  }

  lemma InPlaceKeepsCache(lists: seq<ThreadList>, r: seq<ThreadList>, ids: set<string>, p: Patch, d: string)
    requires CacheOk(lists, d) && Harmless(p) && PatchedLists(lists, r, ids, p)
    ensures CacheOk(r, d)
  {
    forall i | 0 <= i < |r|
      ensures ListOk(r[i], d)
    {
      InPlaceKeepsList(lists, i, ids, p, d);
    }
    InPlaceKeepsAgreement(lists, r, ids, p);
    forall i, t | 0 <= i < |r| && r[i].view == Inbox && Cached(r, t) && InboxEligible(t.labels)
      ensures Holds(r[i], t.id)
    {
      InPlaceKeepsInbox(lists, r, ids, p, i, t);
    }
  }

  lemma InPlaceKeepsAgreement(lists: seq<ThreadList>, r: seq<ThreadList>, ids: set<string>, p: Patch)
    requires Coherent(lists) && Harmless(p) && PatchedLists(lists, r, ids, p)
    ensures Coherent(r)
  {
    forall t, u | Cached(r, t) && Cached(r, u) && t.id == u.id
      ensures Alike(t, u)
    {
      var t0 := Original(lists, r, ids, p, t);
      var u0 := Original(lists, r, ids, p, u);
    }
  }

  lemma InPlaceKeepsInbox(lists: seq<ThreadList>, r: seq<ThreadList>, ids: set<string>, p: Patch, i: nat, t: Thread)
    requires InboxInFull(lists) && Harmless(p) && PatchedLists(lists, r, ids, p)
    requires i < |r| && r[i].view == Inbox && Cached(r, t) && InboxEligible(t.labels)
    ensures Holds(r[i], t.id)
  {
    var u := Original(lists, r, ids, p, t);
    SameIdsHeld(lists[i], r[i], t.id);
  }

  lemma Original(lists: seq<ThreadList>, r: seq<ThreadList>, ids: set<string>, p: Patch, t: Thread)
    returns (u: Thread)
    requires Harmless(p) && Cached(r, t) && PatchedLists(lists, r, ids, p)
    ensures Cached(lists, u) && t == Patched(ids, p, u) && t.id == u.id
    ensures InboxEligible(t.labels) <==> InboxEligible(u.labels)
  {
    var i :| 0 <= i < |r| && t in r[i].threads;
    var j :| 0 <= j < |r[i].threads| && r[i].threads[j] == t;
    u := lists[i].threads[j];
    assert u in lists[i].threads;
  }

  /** Every optimistic edit keeps the cache invariant and the badge equal to the inbox sum, and its clamp at
      zero does not fire. */
  lemma EditKeepsBadge(c: Cache, o: Edit, d: string)
    requires CacheOk(c.lists, d) && BadgeOk(c, d) && HasInbox(c.lists)
    ensures CacheOk(Apply(c, o).lists, d) && BadgeOk(Apply(c, o), d) && HasInbox(Apply(c, o).lists)
    ensures Badge(Apply(c, o).counts, d) == Badge(c.counts, d) + EditBadgeDelta(c, o, d)
  {
    EditKeepsInbox(c, o);
    if o.OneMute? || o.ManyMute? { MuteEditKeepsBadge(c, o, d); }
    else if o.OneStar? && o.starred { StarEditKeepsBadge(c, o, d); }
    else if o.OneStar? { UnstarKeepsBadge(c, o, d); }
    else { EventLikeEditKeepsBadge(c, o, d); }
  }

  lemma EditKeepsInbox(c: Cache, o: Edit)
    requires HasInbox(c.lists)
    ensures HasInbox(Apply(c, o).lists)
  {
    var inbox :| 0 <= inbox < |c.lists| && c.lists[inbox].view == Inbox;
    assert Apply(c, o).lists[inbox].view == Inbox;
  }

  lemma MuteEditKeepsBadge(c: Cache, o: Edit, d: string)
    requires CacheOk(c.lists, d) && BadgeOk(c, d) && (o.OneMute? || o.ManyMute?)
    ensures CacheOk(Apply(c, o).lists, d) && BadgeOk(Apply(c, o), d)
    ensures Badge(Apply(c, o).counts, d) == Badge(c.counts, d) + EditBadgeDelta(c, o, d)
  {
    if o.OneMute? {
      InPlaceKeepsBadge(c, o, {o.id}, ToggleMuted, d);
    } else {
      InPlaceKeepsBadge(c, o, IdSet(o.ids), if o.muted then AddLabel(Muted) else DropLabel(Muted), d);
    }
  }

  lemma StarEditKeepsBadge(c: Cache, o: Edit, d: string)
    requires CacheOk(c.lists, d) && BadgeOk(c, d) && o.OneStar? && o.starred
    ensures CacheOk(Apply(c, o).lists, d) && BadgeOk(Apply(c, o), d)
    ensures Badge(Apply(c, o).counts, d) == Badge(c.counts, d) + EditBadgeDelta(c, o, d)
  {
    InPlaceKeepsBadge(c, o, {o.id}, AddLabel(Starred), d);
  }

  lemma EventLikeEditKeepsBadge(c: Cache, o: Edit, d: string)
    requires CacheOk(c.lists, d) && BadgeOk(c, d) && HasInbox(c.lists)
    requires o.OneRead? || o.OneMove? || o.ManyRead? || o.ManyMove?
    ensures CacheOk(Apply(c, o).lists, d) && BadgeOk(Apply(c, o), d)
    ensures Badge(Apply(c, o).counts, d) == Badge(c.counts, d) + EditBadgeDelta(c, o, d)
  {
    var e := AsEvent(o);
    assert WellFormed(c.lists, e, d) && KeepsContribution(c.lists, e);
    var inbox :| 0 <= inbox < |c.lists| && c.lists[inbox].view == Inbox;
    EditThreadsAreEventThreads(c, o);
    EditBadgeIsEventBadge(c, o, d);
    StepKeepsCache(c, e, d);
    StepKeepsBadge(c, e, d);
    StepBadge(c, e, d);
    SameThreadsSameCache(Step(c, e).lists, Apply(c, o).lists, d);
    SameThreadsSameBadge(Step(c, e), Apply(c, o), d);
  }

  lemma SameThreadsSameBadge(a: Cache, b: Cache, d: string)
    requires SameThreads(a.lists, b.lists) && Badge(a.counts, d) == Badge(b.counts, d) && BadgeOk(a, d)
    ensures BadgeOk(b, d)
  {
    forall i | 0 <= i < |b.lists| && b.lists[i].view == Inbox
      ensures Badge(b.counts, d) == SumUnread(b.lists[i].threads)
    {
      assert a.lists[i].view == Inbox;
    }
  }

  lemma InPlaceKeepsBadge(c: Cache, o: Edit, ids: set<string>, p: Patch, d: string)
    requires CacheOk(c.lists, d) && BadgeOk(c, d) && Harmless(p)
    requires forall i :: 0 <= i < |c.lists| ==> EditList(o, c.lists[i]) == PatchList(c.lists[i], ids, p)
    requires EditCounts(c, o) == c.counts
    ensures CacheOk(Apply(c, o).lists, d) && BadgeOk(Apply(c, o), d)
  {
    InPlaceKeepsCache(c.lists, Apply(c, o).lists, ids, p, d);
    forall i | 0 <= i < |c.lists|
      ensures SumUnread(Apply(c, o).lists[i].threads) == SumUnread(c.lists[i].threads)
    {
      PatchKeepsSum(c.lists[i].threads, ids, p);
    }
  }

  lemma UnstarOfNone(c: Cache, o: Edit)
    requires o.OneStar? && !o.starred && FindCached(c.lists, o.id).None?
    ensures SameThreads(c.lists, Apply(c, o).lists)
  {
    forall i | 0 <= i < |c.lists|
      ensures Apply(c, o).lists[i].threads == c.lists[i].threads
    {
      var ts := c.lists[i].threads;
      PatchOfOthers(ts, o.id, StarPatch(false));
      NothingDropped(ts, o.id);
    }
  }

  /** Taking a star off is, thread by thread, what the unstarred event does. */
  lemma UnstarKeepsBadge(c: Cache, o: Edit, d: string)
    requires CacheOk(c.lists, d) && BadgeOk(c, d) && o.OneStar? && !o.starred
    ensures CacheOk(Apply(c, o).lists, d) && BadgeOk(Apply(c, o), d)
  {
    var cached := FindCached(c.lists, o.id);
    if cached.None? {
      UnstarOfNone(c, o);
      SameThreadsSameCache(c.lists, Apply(c, o).lists, d);
    } else {
      var t := cached.value.(labels := cached.value.labels - {Starred});
      var e := StarEvent(false, o.id, Some(t));
      CachedHasDomain(c.lists, d, o.id);
      StepKeepsCache(c, e, d);
      StepKeepsBadge(c, e, d);
      forall i | 0 <= i < |c.lists|
        ensures Apply(c, o).lists[i].threads == Step(c, e).lists[i].threads
      {
        UnstarIsEvent(c.lists, o, t, i);
      }
      SameThreadsSameCache(Step(c, e).lists, Apply(c, o).lists, d);
    }
  }

  lemma UnstarIsEvent(lists: seq<ThreadList>, o: Edit, t: Thread, i: nat)
    requires Coherent(lists) && i < |lists| && o.OneStar? && !o.starred && FindCached(lists, o.id).Some?
    requires var cached := FindCached(lists, o.id).value; t == cached.(labels := cached.labels - {Starred})
    ensures EditList(o, lists[i]).threads == StepList(lists, StarEvent(false, o.id, Some(t)), lists[i]).threads
  {
    var l := lists[i];
    UnstarPatches(lists, o.id, t, i);
    DropThenPatch(l.threads, o.id);
    if !Holds(l, o.id) {
      PatchOfOthers(l.threads, o.id, Relabel(t.labels));
      NothingDropped(l.threads, o.id);
    }
    UnstarredList(lists, o, t, l);
  }

  lemma UnstarredList(lists: seq<ThreadList>, o: Edit, t: Thread, l: ThreadList)
    requires o.OneStar? && !o.starred
    ensures EditList(o, l).threads ==
      if l.view == Starred then Keep(PatchAll(l.threads, {o.id}, StarPatch(false)), {o.id}, None)
      else PatchAll(l.threads, {o.id}, StarPatch(false))
    ensures StepList(lists, StarEvent(false, o.id, Some(t)), l).threads ==
      if l.view == Starred && Holds(l, o.id) then Keep(l.threads, {o.id}, None)
      else PatchAll(l.threads, {o.id}, Relabel(t.labels))
  {
  }

  /** Dropping the star from the cached copies writes the labels the event carries. */
  lemma UnstarPatches(lists: seq<ThreadList>, id: string, t: Thread, i: nat)
    requires Coherent(lists) && i < |lists| && FindCached(lists, id).Some?
    requires var cached := FindCached(lists, id).value; t == cached.(labels := cached.labels - {Starred})
    ensures PatchAll(lists[i].threads, {id}, StarPatch(false)) == PatchAll(lists[i].threads, {id}, Relabel(t.labels))
  {
    var ts := lists[i].threads;
    ListedIsFound(lists, i);
    forall j | 0 <= j < |ts| && ts[j].id == id
      ensures ApplyPatch(StarPatch(false), ts[j]) == ApplyPatch(Relabel(t.labels), ts[j])
    {
      assert ts[j] in ts;
    }
  }

  lemma NothingDropped(ts: seq<Thread>, id: string)
    requires id !in Ids(ts)
    ensures Keep(ts, {id}, None) == ts
  {
    assert forall u :: u in ts ==> u.id in Ids(ts);
    KeepMembers(ts, {id}, None);
  }

  lemma PatchOfOthers(ts: seq<Thread>, id: string, p: Patch)
    requires id !in Ids(ts)
    ensures PatchAll(ts, {id}, p) == ts
  {
    assert forall j :: 0 <= j < |ts| ==> ts[j].id in Ids(ts);
  }

  lemma {:induction false} DropThenPatch(ts: seq<Thread>, id: string)
    ensures Keep(PatchAll(ts, {id}, StarPatch(false)), {id}, None) == Keep(ts, {id}, None)
  {
    if ts != [] {
      DropThenPatch(ts[1..], id);
      assert PatchAll(ts, {id}, StarPatch(false))[1..] == PatchAll(ts[1..], {id}, StarPatch(false));
    }
  }

  /** The edit takes the muted label off a thread of the muted view, which stays where it is. */
  ghost predicate Unmutes(l: ThreadList, o: Edit) {
    l.view == Muted &&
    match o
    case OneMute(id) => Holds(l, id)
    case ManyMute(ids, muted) => !muted && Lists(l, IdSet(ids))
    case _ => false
  }

  /** An edit leaves a list showing only what belongs there, unless it unmutes a thread of the muted view. */
  lemma EditKeepsViewIff(l: ThreadList, o: Edit)
    requires InView(l)
    ensures InView(EditList(o, l)) <==> !Unmutes(l, o)
  {
    match o
    case OneRead(id, read) => PatchInView(l, {id}, Unread(if read then 0 else 1));
    case ManyRead(ids, read) => PatchInView(l, IdSet(ids), Unread(if read then 0 else 1));
    case OneMove(id) => DropInView(l, {id});
    case ManyMove(ids) => DropInView(l, IdSet(ids));
    case OneStar(id, starred) => StarEditInView(l, id, starred);
    case OneMute(id) =>
      ListsOneIff(l, id);
      MuteEditInViewIff(l, {id}, ToggleMuted);
    case ManyMute(ids, muted) => MuteEditInViewIff(l, IdSet(ids), if muted then AddLabel(Muted) else DropLabel(Muted));
  }

  lemma StarEditInView(l: ThreadList, id: string, starred: bool)
    requires InView(l)
    ensures InView(EditList(OneStar(id, starred), l))
  {
    DropThenPatch(l.threads, id);
    DropInView(l, {id});
    if l.view != Starred || starred { PatchInView(l, {id}, StarPatch(starred)); }
  }

  ghost predicate Lists(l: ThreadList, ids: set<string>) {
    exists t :: t in l.threads && t.id in ids
  }

  lemma ListsOneIff(l: ThreadList, id: string)
    ensures Lists(l, {id}) <==> Holds(l, id)
  {
    if Holds(l, id) { assert FindIn(l.threads, id).value in l.threads; }
    if t :| t in l.threads && t.id in {id} { InListIsHeld(l, t); }
  }

  lemma MuteEditInViewIff(l: ThreadList, ids: set<string>, p: Patch)
    requires InView(l) && p in {ToggleMuted, AddLabel(Muted), DropLabel(Muted)}
    ensures InView(PatchList(l, ids, p)) <==> !(l.view == Muted && p != AddLabel(Muted) && Lists(l, ids))
  {
    if l.view == Muted && p != AddLabel(Muted) && Lists(l, ids) {
      Unmuted(l, ids, p);
    } else {
      PatchInView(l, ids, p);
    }
  }

  lemma Unmuted(l: ThreadList, ids: set<string>, p: Patch)
    requires InView(l) && l.view == Muted && (p == ToggleMuted || p == DropLabel(Muted)) && Lists(l, ids)
    ensures !InView(PatchList(l, ids, p))
  {
    var t :| t in l.threads && t.id in ids;
    var j :| 0 <= j < |l.threads| && l.threads[j] == t;
    assert PatchList(l, ids, p).threads[j] in PatchList(l, ids, p).threads;
  }

  /** The single-thread edit lowers the total of every list. So `total - length` stays what it was exactly in
      the lists that held the thread. */
  lemma OneMoveKeepsTotalIff(l: ThreadList, id: string)
    requires DistinctIds(l.threads)
    ensures EditList(OneMove(id), l).total - |EditList(OneMove(id), l).threads| == l.total - |l.threads|
            <==> Holds(l, id)
  {
    KeepLength(l.threads, id);
  }

  lemma UnstarKeepsTotal(l: ThreadList, id: string)
    requires DistinctIds(l.threads) && l.view == Starred
    ensures var r := EditList(OneStar(id, false), l); r.total - |r.threads| == l.total - |l.threads|
  {
    var patched := PatchAll(l.threads, {id}, DropLabel(Starred));
    forall i | 0 <= i < |patched|
      ensures patched[i].id == l.threads[i].id
    {
    }
    assert id in Ids(patched) <==> id in Ids(l.threads) by {
      if id in Ids(patched) {
        var i :| 0 <= i < |patched| && patched[i].id == id;
        assert l.threads[i] in l.threads;
      }
      if id in Ids(l.threads) {
        var i :| 0 <= i < |l.threads| && l.threads[i].id == id;
        assert patched[i] in patched;
      }
    }
    KeepLength(patched, id);
  }

  /** So it is with no other edit: each keeps `total - length` of every list, except the single-thread move in a list
      that did not hold the thread. */
  lemma EditKeepsTotalIff(l: ThreadList, o: Edit)
    requires DistinctIds(l.threads)
    ensures EditList(o, l).total - |EditList(o, l).threads| == l.total - |l.threads|
            <==> !(o.OneMove? && !Holds(l, o.id))
  {
    match o
    case OneMove(id) => OneMoveKeepsTotalIff(l, id);
    case OneStar(id, starred) => if !starred && l.view == Starred { UnstarKeepsTotal(l, id); }
    case _ =>
  }
}
