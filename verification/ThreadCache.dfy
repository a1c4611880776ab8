/** The browser's cached thread lists and unread badges, and what one WebSocket event does to them.
    This is the specification that the reducer of module `QueryCaches` implements. */
module ThreadCache {
  import opened Wrappers
  import opened Labels
  import opened ThreadLists

  /** One cached list: the domain and view of its query key, and the response it holds. */
  datatype ThreadList = ThreadList(domainId: string, view: Label, threads: seq<Thread>, total: int)

  /** Every cached list, in query-cache order, and the unread badge of each domain. */
  datatype Cache = Cache(lists: seq<ThreadList>, counts: map<string, int>)

  /** The events the reducer handles by editing the cache. `thread` is the thread in the payload. */
  datatype Event =
    | EmailEvent(received: bool, threadId: string, thread: Option<Thread>)
    | StarEvent(starred: bool, threadId: string, thread: Option<Thread>)
    | MuteEvent(threadId: string, thread: Option<Thread>)
    | ReadEvent(read: bool, threadId: string, domainId: Option<string>)
    | MoveEvent(threadId: string, domainId: Option<string>, thread: Option<Thread>)
    | DeleteEvent(threadId: string, domainId: Option<string>)
    | BulkEvent(action: BulkAction, threadIds: seq<string>)

  function Max(a: int, b: int): int {
    if a >= b then a else b
  }

  // --- lookups ---

  ghost predicate Cached(lists: seq<ThreadList>, t: Thread) {
    exists i :: 0 <= i < |lists| && t in lists[i].threads
  }

  /** The first cached copy of a thread. */
  function FindCached(lists: seq<ThreadList>, id: string): (found: Option<Thread>)
    ensures found.Some? ==> Cached(lists, found.value) && found.value.id == id
    ensures found.None? ==> forall i :: 0 <= i < |lists| ==> id !in Ids(lists[i].threads)
  {
    if lists == [] then None
    else
      var found := FindIn(lists[0].threads, id);
      if found.Some? then assert found.value in lists[0].threads; found
      else
        var later := FindCached(lists[1..], id);
        assert later.Some? ==> Cached(lists, later.value) by {
          if later.Some? {
            var i :| 0 <= i < |lists[1..]| && later.value in lists[1..][i].threads;
            assert lists[1 + i] == lists[1..][i];
          }
        }
        later
  }

  predicate Holds(l: ThreadList, id: string) {
    FindIn(l.threads, id).Some?
  }

  // --- badges ---

  function Badge(counts: map<string, int>, domainId: string): int {
    if domainId in counts then counts[domainId] else 0
  }

  function AdjustUnreadCount(counts: map<string, int>, domainId: Option<string>, delta: int): map<string, int> {
    if domainId.None? || delta == 0 then counts
    else counts[domainId.value := Max(0, Badge(counts, domainId.value) + delta)]
  }

  /** One adjustment per domain. */
  function AdjustAll(counts: map<string, int>, deltas: map<string, int>): map<string, int> {
    map d | d in counts.Keys + deltas.Keys && (d in counts || deltas[d] != 0) ::
      if d in deltas && deltas[d] != 0 then Max(0, Badge(counts, d) + deltas[d]) else Badge(counts, d)
  }

  /** What a bulk action makes of a cached thread. */
  function BulkCopy(action: BulkAction, t: Thread): Option<Thread> {
    if action.BulkDelete? then None else Some(ApplyPatch(BulkPatch(action), t))
  }

  function BulkPatch(action: BulkAction): Patch {
    match action
    case BulkRead => Unread(0)
    case BulkUnread => Unread(1)
    case _ => Bulk(action)
  }

  function BulkDelta(action: BulkAction, t: Thread): int {
    Contribution(BulkCopy(action, t)) - Contribution(Some(t))
  }

  /** Adds a change to one domain's entry; a change of nothing makes no entry. */
  function Credit(deltas: map<string, int>, domainId: string, delta: int): map<string, int> {
    if delta == 0 then deltas else deltas[domainId := Badge(deltas, domainId) + delta]
  }

  /** The change of every domain's badge: one term for each cached thread the action names, whatever the
      number of times it names it. */
  function DeltaByDomain(lists: seq<ThreadList>, ids: seq<string>, action: BulkAction): map<string, int> {
    if ids == [] then map[]
    else
      var last := |ids| - 1;
      var deltas := DeltaByDomain(lists, ids[..last], action);
      var t := FindCached(lists, ids[last]);
      if ids[last] in ids[..last] || t.None? then deltas
      else Credit(deltas, t.value.domainId, BulkDelta(action, t.value))
  }

  function Or<T>(first: Option<T>, second: Option<T>): Option<T> {
    if first.Some? then first else second
  }

  function DomainOf(t: Option<Thread>): Option<string> {
    if t.Some? then Some(t.value.domainId) else None
  }

  /** The badge change of marking a thread read, or unread. */
  function ReadDelta(cached: Option<Thread>, read: bool): int {
    if read then 0 - Contribution(cached)
    else if cached.Some? && InboxEligible(cached.value.labels) then 1 - cached.value.unread
    else 0
  }

  function StepCounts(c: Cache, e: Event): map<string, int> {
    match e
    case EmailEvent(true, id, Some(t)) =>
      AdjustUnreadCount(c.counts, Some(t.domainId), Contribution(Some(t)) - Contribution(FindCached(c.lists, id)))
    case ReadEvent(read, id, domainId) =>
      var cached := FindCached(c.lists, id);
      AdjustUnreadCount(c.counts, Or(domainId, DomainOf(cached)), ReadDelta(cached, read))
    case MoveEvent(id, domainId, thread) =>
      var cached := FindCached(c.lists, id);
      AdjustUnreadCount(c.counts, Or(domainId, Or(DomainOf(thread), DomainOf(cached))),
                        Contribution(thread) - Contribution(cached))
    case DeleteEvent(id, domainId) =>
      var cached := FindCached(c.lists, id);
      AdjustUnreadCount(c.counts, Or(domainId, DomainOf(cached)), 0 - Contribution(cached))
    case BulkEvent(action, ids) => AdjustAll(c.counts, DeltaByDomain(c.lists, ids, action))
    case _ => c.counts
  }

  // --- lists ---

  function IdSet(ids: seq<string>): set<string> {
    set id | id in ids
  }

  function Drop(l: ThreadList, id: string): ThreadList {
    if Holds(l, id) then l.(total := Max(0, l.total - 1), threads := Keep(l.threads, {id}, None)) else l
  }

  function Add(l: ThreadList, t: Thread): ThreadList {
    l.(total := l.total + 1, threads := SortNewestFirst([t] + l.threads))
  }

  function PatchList(l: ThreadList, ids: set<string>, p: Patch): ThreadList {
    l.(threads := PatchAll(l.threads, ids, p))
  }

  /** The copy of one thread that a bulk action brings into a list from another cached list, if any. */
  function JoinsAs(lists: seq<ThreadList>, l: ThreadList, id: string, action: BulkAction): (r: Option<Thread>)
    ensures r.Some? ==> r.value.id == id
  {
    var t := FindCached(lists, id);
    if !Holds(l, id) && t.Some? && t.value.domainId == l.domainId
       && BelongsInView(ApplyBulkLabels(t.value.labels, action), l.view)
    then Some(ApplyPatch(Bulk(action), t.value)) else None
  }

  function Joining(lists: seq<ThreadList>, l: ThreadList, ids: seq<string>, action: BulkAction): seq<Thread> {
    if ids == [] then []
    else
      var last := |ids| - 1;
      var t := JoinsAs(lists, l, ids[last], action);
      Joining(lists, l, ids[..last], action) + if t.Some? then [t.value] else []
  }

  function BulkLabelList(lists: seq<ThreadList>, l: ThreadList, ids: seq<string>, action: BulkAction): ThreadList {
    var kept := Keep(PatchAll(l.threads, IdSet(ids), Bulk(action)), IdSet(ids), Some(l.view));
    var joining := Joining(lists, l, ids, action);
    var result := kept + joining;
    var totalDiff := |result| - |l.threads|;
    if joining == [] && forall t :: t in l.threads ==> t.id !in ids then l
    else l.(total := Max(0, l.total + totalDiff),
            threads := if totalDiff != 0 then SortNewestFirst(result) else result)
  }

  function BulkDeleteList(l: ThreadList, ids: seq<string>): ThreadList {
    var filtered := Keep(l.threads, IdSet(ids), None);
    if |filtered| == |l.threads| then l
    else l.(total := Max(0, l.total - (|l.threads| - |filtered|)), threads := filtered)
  }

  function StepList(lists: seq<ThreadList>, e: Event, l: ThreadList): (r: ThreadList)
    ensures r.view == l.view && r.domainId == l.domainId
  {
    match e
    case EmailEvent(_, id, Some(t)) =>
      if l.domainId != t.domainId then l
      else if BelongsInView(t.labels, l.view) then
        if Holds(l, id) then l.(threads := SortNewestFirst(PatchAll(l.threads, {id}, Whole(t)))) else Add(l, t)
      else Drop(l, id)
    case StarEvent(starred, id, Some(t)) =>
      if l.view == Starred && !starred && Holds(l, id) then Drop(l, id)
      else if l.view == Starred && starred && !Holds(l, id) && BelongsInView(t.labels, Starred) then Add(l, t)
      else PatchList(l, {id}, Relabel(t.labels))
    case MuteEvent(id, Some(t)) => PatchList(l, {id}, Relabel(t.labels))
    case ReadEvent(read, id, _) => PatchList(l, {id}, Unread(if read then 0 else 1))
    case MoveEvent(id, _, Some(t)) =>
      if BelongsInView(t.labels, l.view) then
        if Holds(l, id) then PatchList(l, {id}, Whole(t)) else Add(l, t)
      else Drop(l, id)
    case MoveEvent(id, _, None) => Drop(l, id)
    case DeleteEvent(id, _) => Drop(l, id)
    case BulkEvent(BulkDelete, ids) => BulkDeleteList(l, ids)
    case BulkEvent(action, ids) =>
      if action.BulkRead? || action.BulkUnread? then PatchList(l, IdSet(ids), BulkPatch(action))
      else BulkLabelList(lists, l, ids, action)
    case _ => l
  }

  /** The cache after one event. */
  function Step(c: Cache, e: Event): (r: Cache)
    ensures |r.lists| == |c.lists|
    ensures forall i :: 0 <= i < |c.lists| ==> r.lists[i] == StepList(c.lists, e, c.lists[i])
  {
    Cache(seq(|c.lists|, i requires 0 <= i < |c.lists| => StepList(c.lists, e, c.lists[i])), StepCounts(c, e))
  }
}
