/** Sequences of cached threads: the array operations the browser applies to one cached list
    (find, map, filter, sort) and what each of them keeps. */
module ThreadLists {
  import opened Wrappers
  import opened Labels

  /** A thread as the browser caches it. Label arrays are sets: no code reads their order. The display
      fields (subject, snippet, participants and so on) are one opaque value. */
  datatype Thread = Thread(
    id: string, domainId: string, labels: set<Label>, unread: nat, lastMessageAt: int, display: string)

  function Ids(ts: seq<Thread>): set<string> {
    set t | t in ts :: t.id
  }

  ghost predicate DistinctIds(ts: seq<Thread>) {
    forall i, j :: 0 <= i < j < |ts| ==> ts[i].id != ts[j].id
  }

  ghost predicate Distinct(ids: seq<string>) {
    forall i, j :: 0 <= i < j < |ids| ==> ids[i] != ids[j]
  }

  /** Newest message first. */
  ghost predicate NewestFirst(ts: seq<Thread>) {
    forall i, j :: 0 <= i < j < |ts| ==> ts[i].lastMessageAt >= ts[j].lastMessageAt
  }

  // --- find ---

  /** The first thread with the id. */
  function FindIn(ts: seq<Thread>, id: string): (found: Option<Thread>)
    ensures found.Some? ==> found.value in ts && found.value.id == id
    ensures found.None? ==> id !in Ids(ts)
  {
    if ts == [] then None
    else if ts[0].id == id then Some(ts[0])
    else FindIn(ts[1..], id)
  }

  lemma FindInDistinct(ts: seq<Thread>, t: Thread)
    requires DistinctIds(ts) && t in ts
    ensures FindIn(ts, t.id) == Some(t)
  {
    var u := FindIn(ts, t.id).value;
    assert u.id == t.id && u in ts;
  }

  lemma {:induction false} FindInAppend(ts: seq<Thread>, t: Thread, id: string)
    ensures FindIn(ts + [t], id) ==
            if FindIn(ts, id).Some? then FindIn(ts, id) else if t.id == id then Some(t) else None
  {
    if ts == [] {
      assert ts + [t] == [t];
    } else {
      assert (ts + [t])[1..] == ts[1..] + [t];
      FindInAppend(ts[1..], t, id);
    }
  }

  // --- filter ---

  /** What one pass of a list keeps: every thread the action does not name, and a named one when a view is
      given and it still belongs there. */
  function Keep(ts: seq<Thread>, ids: set<string>, view: Option<Label>): seq<Thread> {
    if ts == [] then []
    else
      var rest := Keep(ts[1..], ids, view);
      if KeepsThread(ts[0], ids, view) then [ts[0]] + rest else rest
  }

  predicate KeepsThread(t: Thread, ids: set<string>, view: Option<Label>) {
    t.id in ids ==> view.Some? && BelongsInView(t.labels, view.value)
  }

  lemma {:induction false} KeepMembers(ts: seq<Thread>, ids: set<string>, view: Option<Label>)
    ensures forall t :: t in Keep(ts, ids, view) <==> t in ts && KeepsThread(t, ids, view)
    ensures |Keep(ts, ids, view)| <= |ts|
    ensures (forall t :: t in ts ==> KeepsThread(t, ids, view)) <==> Keep(ts, ids, view) == ts
    ensures |Keep(ts, ids, view)| == |ts| ==> Keep(ts, ids, view) == ts
  {
    if ts != [] {
      KeepMembers(ts[1..], ids, view);
      assert ts == [ts[0]] + ts[1..];
      assert forall t :: t in ts <==> t == ts[0] || t in ts[1..];
    }
  }

  lemma {:induction false} KeepDistinct(ts: seq<Thread>, ids: set<string>, view: Option<Label>)
    requires DistinctIds(ts)
    ensures DistinctIds(Keep(ts, ids, view))
  {
    if ts != [] {
      KeepDistinct(ts[1..], ids, view);
      KeepMembers(ts[1..], ids, view);
      assert forall t :: t in ts[1..] ==> t.id != ts[0].id;
    }
  }

  lemma {:induction false} KeepInOrder(ts: seq<Thread>, ids: set<string>, view: Option<Label>)
    requires NewestFirst(ts)
    ensures NewestFirst(Keep(ts, ids, view))
  {
    if ts != [] {
      KeepInOrder(ts[1..], ids, view);
      KeepMembers(ts[1..], ids, view);
      assert forall t :: t in ts[1..] ==> ts[0].lastMessageAt >= t.lastMessageAt;
    }
  }

  // --- map ---

  /** An update of one cached thread. */
  datatype Patch =
    | Whole(thread: Thread)
    | Relabel(labels: set<Label>)
    | Unread(count: nat)
    | Bulk(action: BulkAction)
    | AddLabel(added: Label)
    | DropLabel(dropped: Label)
    | ToggleMuted

  function ApplyPatch(p: Patch, t: Thread): Thread {
    match p
    case Whole(thread) => thread
    case Relabel(labels) => t.(labels := labels)
    case Unread(count) => t.(unread := count)
    case Bulk(action) => t.(labels := ApplyBulkLabels(t.labels, action))
    case AddLabel(l) => t.(labels := t.labels + {l})
    case DropLabel(l) => t.(labels := t.labels - {l})
    case ToggleMuted => t.(labels := if Muted in t.labels then t.labels - {Muted} else t.labels + {Muted})
  }

  /** Update every named thread where it stands. */
  function PatchAll(ts: seq<Thread>, ids: set<string>, p: Patch): (r: seq<Thread>)
    ensures |r| == |ts|
    ensures forall i :: 0 <= i < |ts| ==> r[i] == if ts[i].id in ids then ApplyPatch(p, ts[i]) else ts[i]
  {
    seq(|ts|, i requires 0 <= i < |ts| => if ts[i].id in ids then ApplyPatch(p, ts[i]) else ts[i])
  }

  // --- sort ---

  /** Where the stable sort puts a thread that came before all of `ts`: ahead of the first thread that is
      not newer. */
  function InsertPosition(t: Thread, ts: seq<Thread>): (k: nat)
    ensures k <= |ts|
    ensures forall i :: 0 <= i < k ==> ts[i].lastMessageAt > t.lastMessageAt
    ensures k < |ts| ==> ts[k].lastMessageAt <= t.lastMessageAt
  {
    if ts == [] || ts[0].lastMessageAt <= t.lastMessageAt then 0
    else 1 + InsertPosition(t, ts[1..])
  }

  function Insert(t: Thread, ts: seq<Thread>): seq<Thread> {
    var k := InsertPosition(t, ts);
    ts[..k] + [t] + ts[k..]
  }

  /** Array.prototype.sort with the newest-first comparator, which is stable. */
  function SortNewestFirst(ts: seq<Thread>): seq<Thread> {
    if ts == [] then [] else Insert(ts[0], SortNewestFirst(ts[1..]))
  }

  lemma InsertMembers(t: Thread, ts: seq<Thread>)
    ensures |Insert(t, ts)| == |ts| + 1
    ensures multiset(Insert(t, ts)) == multiset(ts) + multiset{t}
    ensures forall u :: u in Insert(t, ts) <==> u == t || u in ts
  {
    var k := InsertPosition(t, ts);
    assert ts == ts[..k] + ts[k..];
    assert forall u :: u in Insert(t, ts) <==> u in multiset(Insert(t, ts));
  }

  lemma InsertAt(t: Thread, ts: seq<Thread>)
    ensures var k, r := InsertPosition(t, ts), Insert(t, ts);
      |r| == |ts| + 1 && forall i :: 0 <= i < |r| ==> r[i] == if i < k then ts[i] else if i == k then t else ts[i - 1]
  {
  }

  lemma InsertDistinct(t: Thread, ts: seq<Thread>)
    requires DistinctIds(ts) && t.id !in Ids(ts)
    ensures DistinctIds(Insert(t, ts))
  {
    InsertAt(t, ts);
    forall i | 0 <= i < |ts|
      ensures ts[i].id != t.id
    {
      assert ts[i] in ts;
    }
  }

  lemma InsertInOrder(t: Thread, ts: seq<Thread>)
    requires NewestFirst(ts)
    ensures NewestFirst(Insert(t, ts))
  {
    InsertAt(t, ts);
  }

  lemma {:induction false} SortPermutes(ts: seq<Thread>)
    ensures multiset(SortNewestFirst(ts)) == multiset(ts)
    ensures |SortNewestFirst(ts)| == |ts|
    ensures forall u :: u in SortNewestFirst(ts) <==> u in ts
  {
    if ts != [] {
      SortPermutes(ts[1..]);
      InsertMembers(ts[0], SortNewestFirst(ts[1..]));
      assert ts == [ts[0]] + ts[1..];
    }
  }

  lemma {:induction false} SortDistinct(ts: seq<Thread>)
    requires DistinctIds(ts)
    ensures DistinctIds(SortNewestFirst(ts))
  {
    if ts != [] {
      SortDistinct(ts[1..]);
      SortPermutes(ts[1..]);
      assert forall u :: u in ts[1..] ==> u.id != ts[0].id;
      InsertDistinct(ts[0], SortNewestFirst(ts[1..]));
    }
  }

  lemma {:induction false} SortInOrder(ts: seq<Thread>)
    ensures NewestFirst(SortNewestFirst(ts))
  {
    if ts != [] {
      SortInOrder(ts[1..]);
      InsertInOrder(ts[0], SortNewestFirst(ts[1..]));
    }
  }

  /** The sort permutes its list and leaves it newest first. */
  lemma SortFacts(ts: seq<Thread>)
    ensures multiset(SortNewestFirst(ts)) == multiset(ts)
    ensures |SortNewestFirst(ts)| == |ts|
    ensures forall u :: u in SortNewestFirst(ts) <==> u in ts
    ensures DistinctIds(ts) ==> DistinctIds(SortNewestFirst(ts))
    ensures NewestFirst(SortNewestFirst(ts))
  {
    SortPermutes(ts);
    SortInOrder(ts);
    if DistinctIds(ts) { SortDistinct(ts); }
  }

  /** Sorting a list that is in order leaves it as it is: the sort is stable. */
  lemma {:induction false} SortOfSorted(ts: seq<Thread>)
    requires NewestFirst(ts)
    ensures SortNewestFirst(ts) == ts
  {
    if ts != [] {
      SortOfSorted(ts[1..]);
      assert InsertPosition(ts[0], ts[1..]) == 0;
    }
  }

  // --- selections ---

  /** A selection with its repeats dropped. */
  function Once(ids: seq<string>): (r: seq<string>)
    ensures Distinct(r)
    ensures forall id :: id in r <==> id in ids
  {
    if ids == [] then []
    else
      var last := |ids| - 1;
      assert forall id :: id in ids <==> id in ids[..last] || id == ids[last];
      if ids[last] in ids[..last] then Once(ids[..last]) else Once(ids[..last]) + [ids[last]]
  }

  // --- unread sums ---

  /** What one thread adds to its domain's badge (0 when the browser has no copy of it). */
  function Contribution(t: Option<Thread>): nat {
    if t.Some? && InboxEligible(t.value.labels) then t.value.unread else 0
  }

  function SumUnread(ts: seq<Thread>): nat {
    if ts == [] then 0 else ts[0].unread + SumUnread(ts[1..])
  }

  /** The unread count listed for an id. */
  function UnreadOf(ts: seq<Thread>, id: string): nat {
    var t := FindIn(ts, id);
    if t.Some? then t.value.unread else 0
  }

  function SumOver(ids: seq<string>, ts: seq<Thread>): nat {
    if ids == [] then 0 else UnreadOf(ts, ids[0]) + SumOver(ids[1..], ts)
  }

  lemma {:induction false} SumOverHead(ids: seq<string>, ts: seq<Thread>)
    requires ts != [] && DistinctIds(ts) && Distinct(ids)
    ensures SumOver(ids, ts) == SumOver(ids, ts[1..]) + if ts[0].id in ids then ts[0].unread else 0
  {
    if ids != [] {
      SumOverHead(ids[1..], ts);
      assert forall u :: u in ts[1..] ==> u.id != ts[0].id;
      assert ids == [ids[0]] + ids[1..];
    }
  }

  /** A list's sum is the sum over any ids that cover it. */
  lemma {:induction false} SumByIds(ts: seq<Thread>, ids: seq<string>)
    requires DistinctIds(ts) && Distinct(ids)
    requires forall t :: t in ts ==> t.id in ids
    ensures SumUnread(ts) == SumOver(ids, ts)
  {
    if ts == [] {
      SumOverEmpty(ids);
    } else {
      SumByIds(ts[1..], ids);
      SumOverHead(ids, ts);
    }
  }

  lemma {:induction false} SumOverEmpty(ids: seq<string>)
    ensures SumOver(ids, []) == 0
  {
    if ids != [] { SumOverEmpty(ids[1..]); }
  }

  lemma {:induction false} SumOverAppend(a: seq<string>, b: seq<string>, ts: seq<Thread>)
    ensures SumOver(a + b, ts) == SumOver(a, ts) + SumOver(b, ts)
  {
    if a == [] {
      assert a + b == b;
    } else {
      assert (a + b)[1..] == a[1..] + b;
      SumOverAppend(a[1..], b, ts);
    }
  }

  lemma {:induction false} SumOverAgree(ids: seq<string>, before: seq<Thread>, after: seq<Thread>)
    requires forall id :: id in ids ==> UnreadOf(before, id) == UnreadOf(after, id)
    ensures SumOver(ids, before) == SumOver(ids, after)
  {
    if ids != [] { SumOverAgree(ids[1..], before, after); }
  }

  lemma {:induction false} EnumerateIds(s: set<string>) returns (ids: seq<string>)
    ensures Distinct(ids) && forall id :: id in ids <==> id in s
    decreases |s|
  {
    if s == {} {
      ids := [];
    } else {
      var id :| id in s;
      var rest := EnumerateIds(s - {id});
      ids := [id] + rest;
    }
  }

  /** Two lists that list the same unread count for every id outside `changed` differ in their sums by
      what changed for the ids inside it. */
  lemma SumDifference(before: seq<Thread>, after: seq<Thread>, changed: seq<string>)
    requires DistinctIds(before) && DistinctIds(after) && Distinct(changed)
    requires forall id :: id !in changed ==> UnreadOf(before, id) == UnreadOf(after, id)
    ensures SumUnread(after) - SumUnread(before) == SumOver(changed, after) - SumOver(changed, before)
  {
    var others := EnumerateIds(Ids(before) + Ids(after) - set id | id in changed);
    var all := changed + others;
    assert forall id :: id in others ==> id !in changed;
    assert forall i :: |changed| <= i < |all| ==> all[i] in others;
    SumByIds(before, all);
    SumByIds(after, all);
    SumOverAppend(changed, others, before);
    SumOverAppend(changed, others, after);
    SumOverAgree(others, before, after);
  }
}
