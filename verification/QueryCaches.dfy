/** The browser's query cache as the code updates it: lists and counts overwritten in place, loops over the
    cached lists, and maps filled on the way. Each method is proved against the step functions of
    `ThreadCache` and `Optimistic`. */
module QueryCaches {
  import opened Wrappers
  import opened Labels
  import opened ThreadLists
  import opened ThreadCache
  import opened Optimistic
  import opened MoveUndo

  /** The entries of a JavaScript map, with its keys in insertion order. */
  datatype Collected = Collected(order: seq<string>, threads: map<string, Thread>)

  /** The named ids with a cached copy, each once, in the order of their first mention. */
  function CachedOrder(lists: seq<ThreadList>, ids: seq<string>): seq<string> {
    if ids == [] then []
    else
      var last := |ids| - 1;
      var order := CachedOrder(lists, ids[..last]);
      if FindCached(lists, ids[last]).Some? && ids[last] !in order then order + [ids[last]] else order
  }

  /** Every named id is collected with its first cached copy. */
  ghost predicate Collects(c: Collected, lists: seq<ThreadList>, ids: seq<string>) {
    && c.order == CachedOrder(lists, ids)
    && (forall id :: id in c.threads <==> id in ids && FindCached(lists, id).Some?)
    && (forall id :: id in c.threads ==> FindCached(lists, id) == Some(c.threads[id]))
  }

  lemma {:induction false} CachedOrderMembers(lists: seq<ThreadList>, ids: seq<string>)
    ensures forall id :: id in CachedOrder(lists, ids) <==> id in ids && FindCached(lists, id).Some?
  {
    if ids != [] {
      var last := |ids| - 1;
      CachedOrderMembers(lists, ids[..last]);
      assert ids == ids[..last] + [ids[last]];
    }
  }

  lemma OneMoreCached(lists: seq<ThreadList>, ids: seq<string>, id: string, action: BulkAction)
    ensures DeltaByDomain(lists, ids + [id], action) ==
      var deltas := DeltaByDomain(lists, ids, action);
      var t := FindCached(lists, id);
      if id in ids || t.None? then deltas else Credit(deltas, t.value.domainId, BulkDelta(action, t.value))
  {
    assert (ids + [id])[..|ids|] == ids;
  }

  /** Adding up over the collected threads is adding up over the ids of the event. */
  lemma {:induction false} CollectedDeltas(lists: seq<ThreadList>, ids: seq<string>, action: BulkAction)
    ensures DeltaByDomain(lists, CachedOrder(lists, ids), action) == DeltaByDomain(lists, ids, action)
  {
    if ids != [] {
      var last := |ids| - 1;
      CollectedDeltas(lists, ids[..last], action);
      CachedOrderMembers(lists, ids[..last]);
      OneMoreCached(lists, CachedOrder(lists, ids[..last]), ids[last], action);
      OneMoreCached(lists, ids[..last], ids[last], action);
      assert ids == ids[..last] + [ids[last]];
    }
  }

  lemma {:induction false} CachedOrderDistinct(lists: seq<ThreadList>, ids: seq<string>)
    ensures Distinct(CachedOrder(lists, ids))
  {
    if ids != [] { CachedOrderDistinct(lists, ids[..|ids| - 1]); }
  }

  lemma DeltaStep(lists: seq<ThreadList>, order: seq<string>, i: nat, action: BulkAction)
    requires Distinct(order) && i < |order| && FindCached(lists, order[i]).Some?
    ensures var t := FindCached(lists, order[i]).value;
      DeltaByDomain(lists, order[..i + 1], action)
        == Credit(DeltaByDomain(lists, order[..i], action), t.domainId, BulkDelta(action, t))
  {
    assert order[..i + 1][..i] == order[..i];
    assert order[i] !in order[..i];
  }

  lemma SeenStep(ts: seq<Thread>, t: Thread, o: Edit, ids: seq<string>)
    ensures SeenDeltas(ts + [t], o, ids) ==
      var deltas := SeenDeltas(ts, o, ids);
      if t.id in Ids(ts) || t.id !in ids then deltas else Credit(deltas, t.domainId, EditDelta(o, t))
  {
    assert (ts + [t])[..|ts|] == ts;
  }

  lemma IdsStep(ts: seq<Thread>, t: Thread)
    ensures Ids(ts + [t]) == Ids(ts) + {t.id}
  {
    assert forall u :: u in ts + [t] <==> u in ts || u == t;
    assert t in ts + [t];
  }

  /** The deltas of some of the domains. */
  function Restrict(deltas: map<string, int>, domains: set<string>): map<string, int> {
    map d | d in deltas && d in domains :: deltas[d]
  }

  /** The counts once the domains outside `rest` have had their adjustment. */
  function Adjusted(counts: map<string, int>, deltas: map<string, int>, rest: set<string>): map<string, int> {
    AdjustAll(counts, Restrict(deltas, deltas.Keys - rest))
  }

  lemma AdjustNone(counts: map<string, int>, deltas: map<string, int>)
    ensures Adjusted(counts, deltas, deltas.Keys) == counts
  {
    assert Restrict(deltas, deltas.Keys - deltas.Keys) == map[];
  }

  lemma AdjustEvery(counts: map<string, int>, deltas: map<string, int>)
    ensures Adjusted(counts, deltas, {}) == AdjustAll(counts, deltas)
  {
    assert Restrict(deltas, deltas.Keys - {}) == deltas;
  }

  lemma AdjustOneMore(counts: map<string, int>, deltas: map<string, int>, rest: set<string>, d: string)
    requires d in rest && rest <= deltas.Keys
    ensures Adjusted(counts, deltas, rest - {d})
         == ThreadCache.AdjustUnreadCount(Adjusted(counts, deltas, rest), Some(d), deltas[d])
  {
    assert Restrict(deltas, deltas.Keys - (rest - {d})) == Restrict(deltas, deltas.Keys - rest)[d := deltas[d]];
    OneMoreDelta(counts, Restrict(deltas, deltas.Keys - rest), d, deltas[d]);
  }

  lemma OneMoreDelta(counts: map<string, int>, deltas: map<string, int>, d: string, delta: int)
    requires d !in deltas
    ensures AdjustAll(counts, deltas[d := delta])
         == ThreadCache.AdjustUnreadCount(AdjustAll(counts, deltas), Some(d), delta)
  {
  }

  lemma FindInRest(ts: seq<Thread>, k: nat, id: string)
    requires k < |ts| && ts[k].id != id
    ensures FindIn(ts[k..], id) == FindIn(ts[k + 1..], id)
  {
    assert ts[k..][1..] == ts[k + 1..];
  }

  lemma {:induction false} FlattenFrom(lists: seq<ThreadList>, i: nat)
    requires i < |lists|
    ensures Flatten(lists[..i + 1]) == Flatten(lists[..i]) + lists[i].threads
  {
    if i == 0 {
      assert lists[..1][1..] == [];
      assert lists[0].threads + [] == lists[0].threads;
    } else {
      FlattenFrom(lists[1..], i - 1);
      assert lists[..i + 1][1..] == lists[1..][..i];
      assert lists[..i][1..] == lists[1..][..i - 1];
      assert Flatten(lists[..i + 1]) == lists[0].threads + (Flatten(lists[1..][..i - 1]) + lists[i].threads);
    }
  }

  lemma EmptySelection(c: Cache, action: BulkAction)
    ensures Step(c, BulkEvent(action, [])) == c
  {
    assert AdjustAll(c.counts, map[]) == c.counts;
    forall i | 0 <= i < |c.lists|
      ensures StepList(c.lists, BulkEvent(action, []), c.lists[i]) == c.lists[i]
    {
      EmptySelectionList(c.lists, c.lists[i], action);
    }
  }

  lemma EmptySelectionList(lists: seq<ThreadList>, l: ThreadList, action: BulkAction)
    ensures StepList(lists, BulkEvent(action, []), l) == l
  {
    if action.BulkDelete? {
      KeepMembers(l.threads, IdSet([]), None);
    } else if action.BulkRead? || action.BulkUnread? {
      assert PatchAll(l.threads, IdSet([]), BulkPatch(action)) == l.threads;
    }
  }

  lemma {:induction false} KeepOneMore(ts: seq<Thread>, t: Thread, ids: set<string>, view: Option<Label>)
    ensures Keep(ts + [t], ids, view) == Keep(ts, ids, view) + if KeepsThread(t, ids, view) then [t] else []
  {
    if ts == [] {
      assert ts + [t] == [t] && [t][1..] == [];
    } else {
      assert (ts + [t])[1..] == ts[1..] + [t];
      KeepOneMore(ts[1..], t, ids, view);
    }
  }

  /** No thread of a list is selected. */
  ghost predicate NoneSelected(ts: seq<Thread>, ids: seq<string>) {
    forall t :: t in ts ==> t.id !in ids
  }

  lemma NoneSelectedStep(ts: seq<Thread>, t: Thread, ids: seq<string>)
    ensures NoneSelected(ts + [t], ids) <==> NoneSelected(ts, ids) && t.id !in ids
  {
    assert t in ts + [t];
    assert forall u :: u in ts + [t] <==> u in ts || u == t;
  }

  /** The first `i` lists are as the event leaves them, the others as they were. */
  ghost predicate UpdatedUpTo(before: seq<ThreadList>, lists: seq<ThreadList>, e: Event, i: nat) {
    && |lists| == |before|
    && (forall j :: 0 <= j < i && j < |before| ==> lists[j] == StepList(before, e, before[j]))
    && (forall j :: i <= j < |before| ==> lists[j] == before[j])
  }

  lemma UpdatedAll(c: Cache, lists: seq<ThreadList>, e: Event)
    requires UpdatedUpTo(c.lists, lists, e, |c.lists|)
    ensures Step(c, e) == Cache(lists, StepCounts(c, e))
  {
  }

  // --- loops over values ---

  /** The change of one cached thread's contribution. */
  method DeltaFor(action: BulkAction, cached: Thread) returns (d: int)
    ensures d == BulkDelta(action, cached)
  {
    if action.BulkDelete? { return 0 - Contribution(Some(cached)); }
    var newUnread, newLabels := cached.unread, cached.labels;
    if action.BulkRead? { newUnread := 0; } else if action.BulkUnread? { newUnread := 1; }
    if !action.BulkRead? && !action.BulkUnread? { newLabels := ApplyBulkLabels(cached.labels, action); }
    d := Contribution(Some(cached.(labels := newLabels, unread := newUnread))) - Contribution(Some(cached));
  }

  method AddDelta(deltas: map<string, int>, domainId: string, d: int) returns (r: map<string, int>)
    ensures r == Credit(deltas, domainId, d)
  {
    if d == 0 { return deltas; }
    var sum := if domainId in deltas then deltas[domainId] else 0;
    return deltas[domainId := sum + d];
  }

  /** The changes of every domain, over the collected threads. */
  method SumDeltas(lists: seq<ThreadList>, c: Collected, action: BulkAction) returns (deltas: map<string, int>)
    requires Distinct(c.order)
    requires forall i :: 0 <= i < |c.order| ==> Found(lists, c, i)
    ensures deltas == DeltaByDomain(lists, c.order, action)
  {
    deltas := map[];
    for i := 0 to |c.order|
      invariant deltas == DeltaByDomain(lists, c.order[..i], action)
    {
      assert Found(lists, c, i);
      var cached := c.threads[c.order[i]];
      DeltaStep(lists, c.order, i, action);
      var d := DeltaFor(action, cached);
      deltas := AddDelta(deltas, cached.domainId, d);
    }
    assert c.order[..|c.order|] == c.order;
  }

  predicate Found(lists: seq<ThreadList>, c: Collected, i: nat)
    requires i < |c.order|
  {
    c.order[i] in c.threads && FindCached(lists, c.order[i]) == Some(c.threads[c.order[i]])
  }

  method BulkDeltas(lists: seq<ThreadList>, c: Collected, ids: seq<string>, action: BulkAction)
    returns (deltas: map<string, int>)
    requires Collects(c, lists, ids)
    ensures deltas == DeltaByDomain(lists, ids, action)
  {
    CachedOrderMembers(lists, ids);
    CachedOrderDistinct(lists, ids);
    forall i | 0 <= i < |c.order|
      ensures Found(lists, c, i)
    {
      assert c.order[i] in c.order;
    }
    deltas := SumDeltas(lists, c, action);
    CollectedDeltas(lists, ids, action);
  }

  /** What the push loop makes of one thread: kept as it is, kept as a new object, or left out. */
  method KeptThread(ids: seq<string>, action: BulkAction, view: Label, t: Thread)
    returns (kept: seq<Thread>, changed: bool)
    ensures var u := if t.id in ids then ApplyPatch(Bulk(action), t) else t;
      kept == if KeepsThread(u, IdSet(ids), Some(view)) then [u] else []
    ensures changed <==> t.id in ids && kept != []
    ensures t.id !in ids ==> kept == [t]
  {
    if t.id !in ids { return [t], false; }
    var updated := t.(labels := ApplyBulkLabels(t.labels, action));
    if BelongsInView(updated.labels, view) { return [updated], true; }
    return [], false;
  }

  /** The threads of a list that stay in it. `changed` says whether any of them is a new object. */
  method KeptThreads(ids: seq<string>, action: BulkAction, l: ThreadList) returns (result: seq<Thread>, changed: bool)
    ensures result == Keep(PatchAll(l.threads, IdSet(ids), Bulk(action)), IdSet(ids), Some(l.view))
    ensures |result| <= |l.threads|
    ensures |result| == |l.threads| && !changed <==> NoneSelected(l.threads, ids)
  {
    result, changed := [], false;
    ghost var patched := PatchAll(l.threads, IdSet(ids), Bulk(action));
    for i := 0 to |l.threads|
      invariant result == Keep(patched[..i], IdSet(ids), Some(l.view)) && |result| <= i
      invariant |result| == i && !changed <==> NoneSelected(l.threads[..i], ids)
    {
      var kept, isNew := KeptThread(ids, action, l.view, l.threads[i]);
      result, changed := result + kept, changed || isNew;
      assert patched[..i + 1] == patched[..i] + [patched[i]];
      assert l.threads[..i + 1] == l.threads[..i] + [l.threads[i]];
      KeepOneMore(patched[..i], patched[i], IdSet(ids), Some(l.view));
      NoneSelectedStep(l.threads[..i], l.threads[i], ids);
    }
    assert patched[..|patched|] == patched && l.threads[..|l.threads|] == l.threads;
  }

  /** The threads that come into a list from other cached lists. */
  method JoiningThreads(
    c: Collected, ids: seq<string>, action: BulkAction, ghost before: seq<ThreadList>, l: ThreadList)
    returns (joining: seq<Thread>)
    requires Collects(c, before, ids)
    ensures joining == Joining(before, l, ids, action)
  {
    joining := [];
    for i := 0 to |ids|
      invariant joining == Joining(before, l, ids[..i], action)
    {
      JoiningStep(before, l, ids, i, action);
      JoinsCollected(c, before, ids, l, ids[i], action);
      if !Holds(l, ids[i]) && ids[i] in c.threads && c.threads[ids[i]].domainId == l.domainId {
        var cached := c.threads[ids[i]];
        var updated := cached.(labels := ApplyBulkLabels(cached.labels, action));
        if BelongsInView(updated.labels, l.view) { joining := joining + [updated]; }
      }
    }
    assert ids[..|ids|] == ids;
  }

  /** The join test on the collected map is the one on the cached lists. */
  lemma JoinsCollected(
    c: Collected, lists: seq<ThreadList>, ids: seq<string>, l: ThreadList, id: string, action: BulkAction)
    requires Collects(c, lists, ids) && id in ids
    ensures JoinsAs(lists, l, id, action) ==
      if !Holds(l, id) && id in c.threads && c.threads[id].domainId == l.domainId
         && BelongsInView(ApplyBulkLabels(c.threads[id].labels, action), l.view)
      then Some(c.threads[id].(labels := ApplyBulkLabels(c.threads[id].labels, action))) else None
  {
  }

  lemma JoiningStep(lists: seq<ThreadList>, l: ThreadList, ids: seq<string>, i: nat, action: BulkAction)
    requires i < |ids|
    ensures var t := JoinsAs(lists, l, ids[i], action);
      Joining(lists, l, ids[..i + 1], action)
        == Joining(lists, l, ids[..i], action) + if t.Some? then [t.value] else []
  {
    assert ids[..i + 1][..i] == ids[..i];
  }

  /** The new content of one list: its own threads that stay, then the ones that come in. */
  method BulkResult(c: Collected, ids: seq<string>, action: BulkAction, ghost before: seq<ThreadList>, l: ThreadList)
    returns (result: seq<Thread>, changed: bool)
    requires Collects(c, before, ids)
    ensures result == Keep(PatchAll(l.threads, IdSet(ids), Bulk(action)), IdSet(ids), Some(l.view))
                      + Joining(before, l, ids, action)
    ensures |result| == |l.threads| && !changed
            <==> Joining(before, l, ids, action) == [] && forall t :: t in l.threads ==> t.id !in ids
  {
    result, changed := KeptThreads(ids, action, l);
    var joining := JoiningThreads(c, ids, action, before, l);
    result, changed := result + joining, changed || joining != [];
  }

  /** One selected thread of the walk below. */
  method EditDeltaFor(o: Edit, t: Thread) returns (delta: int)
    requires o.ManyRead? || o.ManyMove? || o.OneRead? || o.OneMove?
    ensures delta == EditDelta(o, t)
  {
    if !InboxEligible(t.labels) { return 0; }
    if (o.ManyRead? || o.OneRead?) && !o.read { return 1 - t.unread; }
    return 0 - t.unread;
  }

  /** One thread of the walk: counted if it is selected and not seen before. */
  method WalkOne(o: Edit, ids: seq<string>, t: Thread, ghost walked: seq<Thread>,
                 seen0: set<string>, deltas0: map<string, int>)
    returns (seen: set<string>, deltas: map<string, int>)
    requires o.ManyRead? || o.ManyMove?
    requires deltas0 == SeenDeltas(walked, o, ids) && seen0 == IdSet(ids) * Ids(walked)
    ensures deltas == SeenDeltas(walked + [t], o, ids) && seen == IdSet(ids) * Ids(walked + [t])
  {
    seen, deltas := seen0, deltas0;
    SeenStep(walked, t, o, ids);
    IdsStep(walked, t);
    if t.id !in seen && t.id in ids {
      seen := seen + {t.id};
      var delta := EditDeltaFor(o, t);
      deltas := AddDelta(deltas, t.domainId, delta);
    }
  }

  /** Walks one list, counting the selected threads not seen before. */
  method WalkList(o: Edit, ids: seq<string>, ts: seq<Thread>, ghost walked: seq<Thread>,
                  seen0: set<string>, deltas0: map<string, int>)
    returns (seen: set<string>, deltas: map<string, int>)
    requires o.ManyRead? || o.ManyMove?
    requires deltas0 == SeenDeltas(walked, o, ids) && seen0 == IdSet(ids) * Ids(walked)
    ensures deltas == SeenDeltas(walked + ts, o, ids) && seen == IdSet(ids) * Ids(walked + ts)
  {
    seen, deltas := seen0, deltas0;
    ghost var sofar := walked;
    assert walked + ts[..0] == walked;
    for k := 0 to |ts|
      invariant sofar == walked + ts[..k]
      invariant deltas == SeenDeltas(sofar, o, ids) && seen == IdSet(ids) * Ids(sofar)
    {
      seen, deltas := WalkOne(o, ids, ts[k], sofar, seen, deltas);
      sofar := sofar + [ts[k]];
      assert ts[..k + 1] == ts[..k] + [ts[k]];
    }
    assert ts[..|ts|] == ts;
  }

  predicate InInboxOrUncached(lists: seq<ThreadList>, id: string) {
    var cached := FindCached(lists, id);
    cached.None? || InboxEligible(cached.value.labels)
  }

  class QueryCache {
    var lists: seq<ThreadList>
    var counts: map<string, int>

    ghost function Value(): Cache
      reads this
    {
      Cache(lists, counts)
    }

    constructor (lists: seq<ThreadList>, counts: map<string, int>)
      ensures Value() == Cache(lists, counts)
    {
      this.lists, this.counts := lists, counts;
    }

    /** Walks the cached lists and returns the first copy. */
    method FindCachedThread(id: string) returns (found: Option<Thread>)
      ensures found == FindCached(lists, id)
    {
      for i := 0 to |lists|
        invariant FindCached(lists, id) == FindCached(lists[i..], id)
      {
        var ts := lists[i].threads;
        assert lists[i..][1..] == lists[i + 1..];
        for k := 0 to |ts|
          invariant FindIn(ts, id) == FindIn(ts[k..], id)
        {
          if ts[k].id == id { return Some(ts[k]); }
          FindInRest(ts, k, id);
        }
      }
      return None;
    }

    /** Moves one badge, never below zero, and no other. */
    method AdjustUnreadCount(domainId: Option<string>, delta: int)
      modifies this`counts
      ensures counts == ThreadCache.AdjustUnreadCount(old(counts), domainId, delta)
      ensures forall d | Some(d) != domainId ::
                (d in counts <==> d in old(counts)) && Badge(counts, d) == Badge(old(counts), d)
      ensures forall d :: Badge(old(counts), d) >= 0 ==> Badge(counts, d) >= 0
      ensures domainId.Some? && Badge(old(counts), domainId.value) + delta >= 0 ==>
        Badge(counts, domainId.value) == Badge(old(counts), domainId.value) + delta
    {
      if domainId.None? || delta == 0 { return; }
      var current := if domainId.value in counts then counts[domainId.value] else 0;
      counts := counts[domainId.value := Max(0, current + delta)];
    }

    // --- bulk events ---

    method CollectThreads(ids: seq<string>) returns (c: Collected)
      ensures Collects(c, lists, ids)
    {
      c := Collected([], map[]);
      for i := 0 to |ids|
        invariant Collects(c, lists, ids[..i])
      {
        var cached := FindCachedThread(ids[i]);
        CachedOrderMembers(lists, ids[..i]);
        assert ids[..i + 1][..i] == ids[..i];
        if cached.Some? {
          var order := if ids[i] in c.threads then c.order else c.order + [ids[i]];
          c := Collected(order, c.threads[ids[i] := cached.value]);
        }
      }
      assert ids[..|ids|] == ids;
    }

    method ApplyDeltasByDomain(deltas: map<string, int>)
      modifies this`counts
      ensures counts == AdjustAll(old(counts), deltas)
    {
      var rest := deltas.Keys;
      AdjustNone(counts, deltas);
      while rest != {}
        invariant rest <= deltas.Keys
        invariant counts == Adjusted(old(counts), deltas, rest)
        decreases |rest|
      {
        var d :| d in rest;
        AdjustOneMore(old(counts), deltas, rest, d);
        AdjustUnreadCount(Some(d), deltas[d]);
        rest := rest - {d};
      }
      AdjustEvery(old(counts), deltas);
    }

    method BulkUpdate(c: Collected, ids: seq<string>, action: BulkAction, ghost before: seq<ThreadList>, l: ThreadList)
      returns (r: ThreadList)
      requires Collects(c, before, ids)
      ensures r == StepList(before, BulkEvent(action, ids), l)
    {
      if action.BulkDelete? {
        var filtered := Keep(l.threads, IdSet(ids), None);
        if |filtered| == |l.threads| { return l; }
        return l.(total := Max(0, l.total - (|l.threads| - |filtered|)), threads := filtered);
      }
      if action.BulkRead? || action.BulkUnread? {
        return l.(threads := PatchAll(l.threads, IdSet(ids), Unread(if action.BulkRead? then 0 else 1)));
      }
      var result, changed := BulkResult(c, ids, action, before, l);
      var totalDiff := |result| - |l.threads|;
      if totalDiff == 0 && !changed { return l; }
      r := l.(total := Max(0, l.total + totalDiff),
              threads := if totalDiff != 0 then SortNewestFirst(result) else result);
    }

    /** The bulk branch of the reducer. */
    method OnBulk(action: BulkAction, ids: seq<string>)
      modifies this
      ensures Value() == Step(old(Value()), BulkEvent(action, ids))
    {
      if |ids| == 0 {
        EmptySelection(Value(), action);
        return;
      }
      var before := lists;
      var collected := CollectThreads(ids);
      var deltas := BulkDeltas(lists, collected, ids, action);
      ApplyDeltasByDomain(deltas);
      for i := 0 to |before|
        invariant counts == AdjustAll(old(counts), deltas)
        invariant UpdatedUpTo(before, lists, BulkEvent(action, ids), i)
      {
        var updated := BulkUpdate(collected, ids, action, before, lists[i]);
        lists := lists[i := updated];
      }
      UpdatedAll(old(Value()), lists, BulkEvent(action, ids));
    }

    // --- events about one thread ---

    /** What one cached list becomes under an event about one thread. */
    method UpdateList(e: Event, ghost before: seq<ThreadList>, l: ThreadList) returns (r: ThreadList)
      requires !e.BulkEvent?
      ensures r == StepList(before, e, l)
    {
      var hadThread := Holds(l, e.threadId);
      match e
      case EmailEvent(_, id, thread) =>
        if thread.None? || l.domainId != thread.value.domainId { return l; }
        if BelongsInView(thread.value.labels, l.view) {
          if hadThread {
            return l.(threads := SortNewestFirst(PatchAll(l.threads, {id}, Whole(thread.value))));
          }
          return l.(total := l.total + 1, threads := SortNewestFirst([thread.value] + l.threads));
        }
        r := Removed(l, id, hadThread);
      case StarEvent(starred, id, thread) =>
        if thread.None? { return l; }
        if l.view == Starred && !starred && hadThread {
          r := Removed(l, id, hadThread);
          return;
        }
        if l.view == Starred && starred && !hadThread && BelongsInView(thread.value.labels, Starred) {
          return l.(total := l.total + 1, threads := SortNewestFirst([thread.value] + l.threads));
        }
        return l.(threads := PatchAll(l.threads, {id}, Relabel(thread.value.labels)));
      case MuteEvent(id, thread) =>
        if thread.None? { return l; }
        return l.(threads := PatchAll(l.threads, {id}, Relabel(thread.value.labels)));
      case ReadEvent(read, id, _) =>
        return l.(threads := PatchAll(l.threads, {id}, Unread(if read then 0 else 1)));
      case MoveEvent(id, _, thread) =>
        if thread.Some? && BelongsInView(thread.value.labels, l.view) {
          if hadThread { return l.(threads := PatchAll(l.threads, {id}, Whole(thread.value))); }
          return l.(total := l.total + 1, threads := SortNewestFirst([thread.value] + l.threads));
        }
        r := Removed(l, id, hadThread);
      case DeleteEvent(id, _) =>
        r := Removed(l, id, hadThread);
    }

    method Removed(l: ThreadList, id: string, hadThread: bool) returns (r: ThreadList)
      requires hadThread == Holds(l, id)
      ensures r == Drop(l, id)
    {
      if !hadThread { return l; }
      return l.(total := Max(0, l.total - 1), threads := Keep(l.threads, {id}, None));
    }

    /** The badge change of an event about one thread, made before the lists change. */
    method AdjustFor(e: Event, cached: Option<Thread>)
      requires !e.BulkEvent? && cached == FindCached(lists, e.threadId)
      modifies this`counts
      ensures counts == StepCounts(old(Value()), e)
    {
      match e
      case EmailEvent(received, _, thread) =>
        if received && thread.Some? {
          AdjustUnreadCount(Some(thread.value.domainId), Contribution(thread) - Contribution(cached));
        }
      case ReadEvent(read, _, domainId) =>
        var target := Or(domainId, DomainOf(cached));
        if read {
          AdjustUnreadCount(target, 0 - Contribution(cached));
        } else {
          var delta := if cached.Some? && InboxEligible(cached.value.labels) then 1 - cached.value.unread else 0;
          AdjustUnreadCount(target, delta);
        }
      case MoveEvent(_, domainId, thread) =>
        AdjustUnreadCount(Or(domainId, Or(DomainOf(thread), DomainOf(cached))),
                          Contribution(thread) - Contribution(cached));
      case DeleteEvent(_, domainId) =>
        AdjustUnreadCount(Or(domainId, DomainOf(cached)), 0 - Contribution(cached));
      case _ =>
    }

    method OnThread(e: Event)
      requires !e.BulkEvent?
      modifies this
      ensures Value() == Step(old(Value()), e)
    {
      var before := lists;
      var cached := FindCachedThread(e.threadId);
      AdjustFor(e, cached);
      for i := 0 to |before|
        invariant counts == StepCounts(old(Value()), e)
        invariant UpdatedUpTo(before, lists, e, i)
      {
        var updated := UpdateList(e, before, lists[i]);
        lists := lists[i := updated];
      }
      UpdatedAll(old(Value()), lists, e);
    }

    /** The reducer: one event from the socket. */
    method Handle(e: Event)
      modifies this
      ensures Value() == Step(old(Value()), e)
    {
      match e
      case BulkEvent(action, ids) => OnBulk(action, ids);
      case _ => OnThread(e);
    }

    // --- optimistic edits ---

    /** Walks every cached list once and adds up the changes of the selected threads, counting the first copy
        of each. */
    method SelectionDeltas(o: Edit, ids: seq<string>) returns (deltas: map<string, int>)
      requires o.ManyRead? || o.ManyMove?
      ensures deltas == SeenDeltas(Flatten(lists), o, ids)
    {
      deltas := map[];
      var seen: set<string> := {};
      for i := 0 to |lists|
        invariant deltas == SeenDeltas(Flatten(lists[..i]), o, ids)
        invariant seen == IdSet(ids) * Ids(Flatten(lists[..i]))
      {
        FlattenFrom(lists, i);
        seen, deltas := WalkList(o, ids, lists[i].threads, Flatten(lists[..i]), seen, deltas);
      }
      assert lists[..|lists|] == lists;
    }

    /** The badge part of an optimistic edit. */
    method MutateCounts(o: Edit)
      modifies this`counts
      ensures counts == EditCounts(old(Value()), o)
    {
      if o.ManyRead? || o.ManyMove? {
        var deltas := SelectionDeltas(o, o.ids);
        counts := map d | d in counts.Keys + deltas.Keys ::
          if d in deltas then Max(0, (if d in counts then counts[d] else 0) + deltas[d]) else counts[d];
      } else if o.OneRead? || o.OneMove? {
        var thread := FindCachedThread(o.id);
        if thread.Some? {
          var delta := EditDeltaFor(o, thread.value);
          AdjustUnreadCount(Some(thread.value.domainId), delta);
        }
      }
    }

    /** What one cached list becomes under an optimistic edit. */
    method MutateList(o: Edit, l: ThreadList) returns (r: ThreadList)
      ensures r == EditList(o, l)
    {
      match o
      case OneMove(id) =>
        return l.(threads := Keep(l.threads, {id}, None), total := l.total - 1);
      case OneRead(id, read) =>
        return l.(threads := PatchAll(l.threads, {id}, Unread(if read then 0 else 1)));
      case OneMute(id) =>
        return l.(threads := PatchAll(l.threads, {id}, ToggleMuted));
      case OneStar(id, starred) =>
        var patched := PatchAll(l.threads, {id}, StarPatch(starred));
        if l.view != Starred || starred { return l.(threads := patched); }
        var total := l.total;
        if Holds(l, id) { total := total - 1; }
        return l.(threads := Keep(patched, {id}, None), total := total);
      case ManyMove(ids) =>
        var filtered := Keep(l.threads, IdSet(ids), None);
        return l.(threads := filtered, total := l.total - (|l.threads| - |filtered|));
      case ManyRead(ids, read) =>
        return l.(threads := PatchAll(l.threads, IdSet(ids), Unread(if read then 0 else 1)));
      case ManyMute(ids, muted) =>
        return l.(threads := PatchAll(l.threads, IdSet(ids), if muted then AddLabel(Muted) else DropLabel(Muted)));
    }

    /** Where an undo of a bulk action will send the selection back to. */
    method UndoTarget(ids: seq<string>) returns (target: Label)
      ensures target == BulkUndoOrigin(lists, ids)
      ensures target == Inbox || target == Archive
      ensures target == Inbox <==> ids == [] || exists id :: id in ids && InInboxOrUncached(lists, id)
    {
      target := Archive;
      for i := 0 to |ids|
        invariant target == Archive
        invariant forall j :: 0 <= j < i ==> UndoOrigin(FindCached(lists, ids[j])) != Inbox
      {
        var cached := FindCachedThread(ids[i]);
        if cached.None? || InboxEligible(cached.value.labels) { return Inbox; }
      }
      if |ids| == 0 { target := Inbox; }
    }

    /** The optimistic edit of a mutation: the badge first, then every cached list. */
    method Mutate(o: Edit)
      modifies this
      ensures Value() == Apply(old(Value()), o)
    {
      var before := lists;
      MutateCounts(o);
      for i := 0 to |before|
        invariant |lists| == |before| && counts == EditCounts(old(Value()), o)
        invariant forall j :: 0 <= j < i ==> lists[j] == EditList(o, before[j])
        invariant forall j :: i <= j < |before| ==> lists[j] == before[j]
      {
        var edited := MutateList(o, lists[i]);
        lists := lists[i := edited];
      }
    }
  }
}
