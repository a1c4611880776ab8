/** Server and browser together. Requests change the server's rows and publish one event each; the browser only
    sees the events. Its badge is nevertheless what the server would answer if asked for the unread count. */
module BadgeTruth {
  import opened Wrappers
  import opened Labels
  import opened ThreadLists
  import opened ThreadCache
  import opened CacheInvariants
  import opened CacheSteps
  import opened UnreadBadge
  import opened Redelivery
  import opened ThreadServer
  import opened ThreadHandlers
  import opened LabelSync
  import opened ExactlyOnce

  /** What happens at the server. `shown` is the thread summary it puts into the event. `Expire` is the part of a
      pass of the trash collector that concerns one thread: each thread has its own event. */
  datatype Happening =
    | Act(claims: Claims, id: string, action: Action, now: int, shown: Thread)
    | ActMany(claims: Claims, ids: seq<string>, bulk: BulkAction, now: int)
    | MailIn(id: string, isSpam: bool, isBounce: bool, aliases: set<string>, shown: Thread)
    | Expire(id: string, now: int)

  function ServerAfter(rows: Rows, h: Happening): Rows {
    match h
    case Act(claims, id, a, now, _) => Handle(claims, rows, id, a, now)
    case ActMany(claims, ids, bulk, now) => BulkHandle(claims, rows, ids, bulk, now)
    case MailIn(id, isSpam, isBounce, aliases, shown) =>
      rows[id := if id in rows then InboundReply(rows[id], isSpam, isBounce, aliases)
                 else InboundNew(shown.domainId, isSpam, isBounce, aliases)]
    case Expire(id, now) =>
      if Expires(rows, id, now) then rows[id := rows[id].(labels := {}, deleted := true)] else rows
  }

  predicate Expires(rows: Rows, id: string, now: int) {
    id in rows && Expired(rows[id], now)
  }

  function Published(rows: Rows, h: Happening): Option<Event> {
    match h
    case Act(claims, id, a, _, shown) =>
      if ReplyTo(claims, rows, id, a).Done? then Some(EventOf(a, shown)) else None
    case ActMany(claims, ids, bulk, _) =>
      var notified := Notified(claims, rows, ids, bulk);
      if notified == [] then None else Some(BulkEvent(bulk, notified))
    case MailIn(id, _, _, _, shown) => Some(EmailEvent(true, id, Some(shown)))
    case Expire(id, now) =>
      if Expires(rows, id, now) then Some(DeleteEvent(id, Some(rows[id].domainId))) else None
  }

  function BrowserAfter(c: Cache, rows: Rows, h: Happening): Cache {
    match Published(rows, h)
    case Some(e) => Step(c, e)
    case None => c
  }

  predicate Live(rows: Rows, id: string) {
    id in rows && !rows[id].deleted
  }

  /** What the badge relies on. Any accepted request on a live thread will do, with the summary the server sends.
      No handler checks that a thread is live, and no bulk event carries threads or
      says which ones were deleted. So what carries a thread must not carry a deleted one, and what a bulk action
      leaves eligible must have a copy afterwards. */
  ghost predicate HappeningOk(c: Cache, rows: Rows, h: Happening, d: string) {
    && (forall e :: Published(rows, h) == Some(e) ==> Addressed(c.lists, e, d))
    && match h
       case Act(_, id, a, _, shown) =>
         && id in rows && (Live(rows, id) || CarriesNoThread(a))
         && shown.id == id && (a.DoDelete? || Shows(shown, ServerAfter(rows, h)[id]))
       case ActMany(claims, ids, bulk, _) =>
         forall id :: id in Notified(claims, rows, ids, bulk) && LeftWithoutCopy(c, bulk, id)
           ==> !Counted(ServerAfter(rows, h), id)
       case MailIn(id, _, _, _, shown) =>
         (id in rows ==> Live(rows, id)) && shown.id == id && Shows(shown, ServerAfter(rows, h)[id])
       case Expire(_, _) => true
  }

  /** The actions whose event puts no thread into a list. */
  predicate CarriesNoThread(a: Action) {
    a.DoRead? || a.DoUnread? || a.DoMute? || a.DoDelete?
  }

  /** After a bulk event the browser has no copy of a named thread: it had none, or the event was a delete. */
  predicate LeftWithoutCopy(c: Cache, bulk: BulkAction, id: string) {
    bulk.BulkDelete? || FindCached(c.lists, id).None?
  }

  /** The server counts the thread in the unread count of the inbox. */
  predicate Counted(rows: Rows, id: string) {
    Live(rows, id) && InboxEligible(rows[id].labels)
  }

  /** The browser's copy of one thread follows the server's row: a copy agrees with a live row on inbox
      membership, eligibility and unread count, and no eligible live row is without a copy. */
  predicate Follows(copy: Option<Thread>, rows: Rows, id: string) {
    && (copy.Some? ==>
          Live(rows, id) && Agrees(copy.value.labels, rows[id].labels) && copy.value.unread == rows[id].unread)
    && (Counted(rows, id) ==> copy.Some?)
  }

  ghost predicate Tracks(lists: seq<ThreadList>, rows: Rows) {
    forall id: string :: Follows(FindCached(lists, id), rows, id)
  }

  // --- one happening ---

  /** The summary of a live thread fits the copies the browser has, whatever labels it brings. */
  lemma SummaryFits(c: Cache, rows: Rows, h: Happening, d: string)
    requires h.Act? && HappeningOk(c, rows, h, d) && Published(rows, h).Some?
    requires Follows(FindCached(c.lists, h.id), rows, h.id)
    ensures WellFormed(c.lists, Published(rows, h).value, d)
  {
  }

  lemma PublishedIsWellFormed(c: Cache, rows: Rows, h: Happening, e: Event, d: string)
    requires HappeningOk(c, rows, h, d) && Tracks(c.lists, rows) && Published(rows, h) == Some(e)
    ensures WellFormed(c.lists, e, d)
  {
    if h.Act? {
      assert Follows(FindCached(c.lists, h.id), rows, h.id);
      SummaryFits(c, rows, h, d);
    }
  }

  lemma ActFollows(c: Cache, rows: Rows, h: Happening, d: string, id: string)
    requires CacheOk(c.lists, d) && HasInbox(c.lists)
    requires h.Act? && HappeningOk(c, rows, h, d) && Published(rows, h).Some?
    requires Follows(FindCached(c.lists, id), rows, id)
    ensures Follows(NewCopy(c.lists, Published(rows, h).value, id), ServerAfter(rows, h), id)
  {
    if id == h.id { ActedFollows(c, rows, h, d); } else { OthersFollow(c, rows, h, d, id); }
  }

  lemma OthersFollow(c: Cache, rows: Rows, h: Happening, d: string, id: string)
    requires h.Act? && HappeningOk(c, rows, h, d) && Published(rows, h).Some? && id != h.id
    requires Follows(FindCached(c.lists, id), rows, id)
    ensures Follows(NewCopy(c.lists, Published(rows, h).value, id), ServerAfter(rows, h), id)
  {
    OthersUntouched(c.lists, h.action, h.shown, id);
  }

  lemma OthersUntouched(lists: seq<ThreadList>, a: Action, t: Thread, id: string)
    requires id != t.id
    ensures NewCopy(lists, EventOf(a, t), id) == FindCached(lists, id)
  {
  }

  lemma ActedFollows(c: Cache, rows: Rows, h: Happening, d: string)
    requires CacheOk(c.lists, d) && HasInbox(c.lists)
    requires h.Act? && HappeningOk(c, rows, h, d) && Published(rows, h).Some?
    requires Follows(FindCached(c.lists, h.id), rows, h.id)
    ensures Follows(NewCopy(c.lists, Published(rows, h).value, h.id), ServerAfter(rows, h), h.id)
  {
    match h.action
    case DoStar(_) => StarredFollows(c, rows, h, d);
    case DoMute => MutedFollows(c, rows, h, d);
    case DoRead => MarkedFollows(c, rows, h, d);
    case DoUnread => MarkedFollows(c, rows, h, d);
    case DoDelete => DeletedFollows(c, rows, h, d);
    case _ => MovedFollows(c, rows, h, d);
  }

  /** An accepted request of the run, on a thread the browser follows, and its event. */
  ghost predicate Acted(c: Cache, rows: Rows, h: Happening, d: string) {
    && h.Act? && HappeningOk(c, rows, h, d) && Published(rows, h) == Some(EventOf(h.action, h.shown))
    && Follows(FindCached(c.lists, h.id), rows, h.id)
    && ServerAfter(rows, h) == rows[h.id := After(rows[h.id], h.action, h.now)]
  }

  lemma StarredFollows(c: Cache, rows: Rows, h: Happening, d: string)
    requires CacheOk(c.lists, d) && HasInbox(c.lists) && Acted(c, rows, h, d) && h.action.DoStar?
    ensures Follows(NewCopy(c.lists, EventOf(h.action, h.shown), h.id), ServerAfter(rows, h), h.id)
  {
    SummaryFits(c, rows, h, d);
    StarKeepsContribution(c.lists, EventOf(h.action, h.shown), d);
    if HeldAfterStar(c.lists, h.shown, Starred in h.shown.labels) {
      StarredCopyFollows(c, rows, h, d);
    } else {
      StarredIsUncounted(c, rows, h, d);
    }
  }

  lemma StarredCopyFollows(c: Cache, rows: Rows, h: Happening, d: string)
    requires Acted(c, rows, h, d) && h.action.DoStar? && WellFormed(c.lists, EventOf(h.action, h.shown), d)
    requires HeldAfterStar(c.lists, h.shown, Starred in h.shown.labels)
    ensures Follows(NewCopy(c.lists, EventOf(h.action, h.shown), h.id), ServerAfter(rows, h), h.id)
  {
  }

  /** A thread that a star event leaves no copy of is none that the server counts. */
  lemma StarredIsUncounted(c: Cache, rows: Rows, h: Happening, d: string)
    requires Acted(c, rows, h, d) && h.action.DoStar? && !WasEligible(c.lists, h.id)
    ensures !Counted(ServerAfter(rows, h), h.id)
  {
  }

  lemma MutedFollows(c: Cache, rows: Rows, h: Happening, d: string)
    requires Acted(c, rows, h, d) && h.action.DoMute?
    ensures Follows(NewCopy(c.lists, EventOf(h.action, h.shown), h.id), ServerAfter(rows, h), h.id)
  {
  }

  lemma MarkedFollows(c: Cache, rows: Rows, h: Happening, d: string)
    requires Acted(c, rows, h, d) && (h.action.DoRead? || h.action.DoUnread?)
    ensures Follows(NewCopy(c.lists, EventOf(h.action, h.shown), h.id), ServerAfter(rows, h), h.id)
  {
  }

  lemma DeletedFollows(c: Cache, rows: Rows, h: Happening, d: string)
    requires Acted(c, rows, h, d) && h.action.DoDelete?
    ensures Follows(NewCopy(c.lists, EventOf(h.action, h.shown), h.id), ServerAfter(rows, h), h.id)
  {
  }

  lemma MovedFollows(c: Cache, rows: Rows, h: Happening, d: string)
    requires Acted(c, rows, h, d) && EventOf(h.action, h.shown).MoveEvent?
    ensures Follows(NewCopy(c.lists, EventOf(h.action, h.shown), h.id), ServerAfter(rows, h), h.id)
  {
  }

  lemma MailFollows(c: Cache, rows: Rows, h: Happening, d: string, id: string)
    requires h.MailIn? && HappeningOk(c, rows, h, d)
    requires Follows(FindCached(c.lists, id), rows, id)
    ensures Follows(NewCopy(c.lists, Published(rows, h).value, id), ServerAfter(rows, h), id)
  {
  }

  lemma ExpireFollows(c: Cache, rows: Rows, h: Happening, id: string)
    requires h.Expire? && Published(rows, h).Some? && Follows(FindCached(c.lists, id), rows, id)
    ensures Follows(NewCopy(c.lists, Published(rows, h).value, id), ServerAfter(rows, h), id)
  {
  }

  lemma BulkFollows(c: Cache, rows: Rows, h: Happening, d: string, id: string)
    requires h.ActMany? && HappeningOk(c, rows, h, d) && Published(rows, h).Some?
    requires Follows(FindCached(c.lists, id), rows, id)
    ensures Follows(NewCopy(c.lists, Published(rows, h).value, id), ServerAfter(rows, h), id)
  {
    AllowedMembers(h.claims, rows, h.ids);
    var copy := FindCached(c.lists, id);
    if id in Notified(h.claims, rows, h.ids, h.bulk) && copy.Some? && !h.bulk.BulkDelete? {
      CopyFollows(copy.value, rows[id], h.bulk, h.now);
    }
  }

  lemma CopyFollows(t: Thread, r: Row, action: BulkAction, now: int)
    requires Agrees(t.labels, r.labels) && t.unread == r.unread && AcceptsLabel(action) && !action.BulkDelete?
    ensures var copy := BulkCopy(action, t);
      && copy.Some? && !BulkAfter(r, action, now).deleted == !r.deleted
      && Agrees(copy.value.labels, BulkAfter(r, action, now).labels)
      && copy.value.unread == BulkAfter(r, action, now).unread
  {
    StepAgrees(t.labels, r, action, now);
  }

  /** The lists hold what the new copies say, so they follow too. */
  lemma ListsFollow(c: Cache, e: Event, rows: Rows, d: string, id: string)
    requires CacheOk(c.lists, d) && HasInbox(c.lists) && WellFormed(c.lists, e, d)
    requires Follows(NewCopy(c.lists, e, id), rows, id)
    ensures Follows(FindCached(Step(c, e).lists, id), rows, id)
  {
    FoundAfter(c, e, d, id);
    var i :| 0 <= i < |c.lists| && c.lists[i].view == Inbox;
    StepMirrors(c.lists, e, i, d);
    if Shown(c.lists, e, id) { assert Holds(Step(c, e).lists[i], id); }
  }

  lemma FollowsAfter(c: Cache, rows: Rows, h: Happening, e: Event, d: string, id: string)
    requires CacheOk(c.lists, d) && HasInbox(c.lists) && HappeningOk(c, rows, h, d) && Published(rows, h) == Some(e)
    requires WellFormed(c.lists, e, d) && Follows(FindCached(c.lists, id), rows, id)
    ensures Follows(FindCached(Step(c, e).lists, id), ServerAfter(rows, h), id)
  {
    match h {
      case Act(_, _, _, _, _) => ActFollows(c, rows, h, d, id);
      case ActMany(_, _, _, _) => BulkFollows(c, rows, h, d, id);
      case MailIn(_, _, _, _, _) => MailFollows(c, rows, h, d, id);
      case Expire(_, _) => ExpireFollows(c, rows, h, id);
    }
    ListsFollow(c, e, ServerAfter(rows, h), d, id);
  }

  lemma EventKeepsTracks(c: Cache, rows: Rows, h: Happening, e: Event, d: string)
    requires CacheOk(c.lists, d) && HasInbox(c.lists) && HappeningOk(c, rows, h, d) && Published(rows, h) == Some(e)
    requires WellFormed(c.lists, e, d) && Tracks(c.lists, rows)
    ensures Tracks(Step(c, e).lists, ServerAfter(rows, h))
  {
    var after, rows' := Step(c, e).lists, ServerAfter(rows, h);
    forall id: string
      ensures Follows(FindCached(after, id), rows', id)
    {
      assert Follows(FindCached(c.lists, id), rows, id);
      FollowsAfter(c, rows, h, e, d, id);
    }
  }

  lemma EventKeepsBadge(c: Cache, e: Event, d: string)
    requires CacheOk(c.lists, d) && BadgeOk(c, d) && HasInbox(c.lists) && WellFormed(c.lists, e, d)
    requires KeepsContribution(c.lists, e)
    ensures CacheOk(Step(c, e).lists, d) && BadgeOk(Step(c, e), d) && HasInbox(Step(c, e).lists)
  {
    StepKeepsCache(c, e, d);
    StepKeepsBadge(c, e, d);
    var i :| 0 <= i < |c.lists| && c.lists[i].view == Inbox;
    assert Step(c, e).lists[i].view == Inbox;
  }

  lemma HappeningKeepsTracks(c: Cache, rows: Rows, h: Happening, d: string)
    requires CacheOk(c.lists, d) && BadgeOk(c, d) && HasInbox(c.lists)
    requires Tracks(c.lists, rows) && HappeningOk(c, rows, h, d)
    ensures Tracks(BrowserAfter(c, rows, h).lists, ServerAfter(rows, h))
    ensures CacheOk(BrowserAfter(c, rows, h).lists, d) && BadgeOk(BrowserAfter(c, rows, h), d)
    ensures HasInbox(BrowserAfter(c, rows, h).lists)
  {
    var published := Published(rows, h);
    BrowserFollows(c, rows, h);
    if published.None? {
      NothingPublished(rows, h);
    } else {
      PublishedIsWellFormed(c, rows, h, published.value, d);
      EventKeepsTracks(c, rows, h, published.value, d);
      EventKeepsBadge(c, published.value, d);
    }
  }

  lemma BrowserFollows(c: Cache, rows: Rows, h: Happening)
    ensures Published(rows, h).None? ==> BrowserAfter(c, rows, h) == c
    ensures Published(rows, h).Some? ==> BrowserAfter(c, rows, h) == Step(c, Published(rows, h).value)
    ensures Published(rows, h).Some? && !h.ActMany? ==> KeepsContribution(c.lists, Published(rows, h).value)
    ensures h.ActMany? && Published(rows, h).Some? ==> Published(rows, h).value.BulkEvent?
  {
  }

  /** A request that publishes nothing changes nothing. */
  lemma NothingPublished(rows: Rows, h: Happening)
    requires Published(rows, h).None?
    ensures ServerAfter(rows, h) == rows
  {
    if h.ActMany? {
      AllowedMembers(h.claims, rows, h.ids);
      assert forall id :: id in rows && AcceptsLabel(h.bulk) ==> !Reaches(h.claims, rows, h.ids, id);
    }
  }

  // --- the unread count ---

  /** What the server's unread-count query adds up for one thread. */
  function ServerShare(rows: Rows, id: string): nat {
    if Counted(rows, id) then rows[id].unread else 0
  }

  /** The server's unread count of the domain, over an enumeration of its rows. */
  function ServerUnread(rows: Rows, ids: seq<string>): nat {
    if ids == [] then 0 else ServerShare(rows, ids[0]) + ServerUnread(rows, ids[1..])
  }

  ghost predicate Enumerates(ids: seq<string>, rows: Rows) {
    Distinct(ids) && forall id :: id in ids <==> id in rows
  }

  lemma {:induction false} SameSums(rows: Rows, ts: seq<Thread>, ids: seq<string>)
    requires forall id :: id in ids ==> UnreadOf(ts, id) == ServerShare(rows, id)
    ensures SumOver(ids, ts) == ServerUnread(rows, ids)
  {
    if ids != [] { SameSums(rows, ts, ids[1..]); }
  }

  lemma BadgeIsServerUnread(c: Cache, rows: Rows, d: string, ids: seq<string>)
    requires CacheOk(c.lists, d) && BadgeOk(c, d) && HasInbox(c.lists) && Tracks(c.lists, rows)
    requires Enumerates(ids, rows)
    ensures Badge(c.counts, d) == ServerUnread(rows, ids)
  {
    var i :| 0 <= i < |c.lists| && c.lists[i].view == Inbox;
    var ts := c.lists[i].threads;
    forall id: string
      ensures UnreadOf(ts, id) == ServerShare(rows, id)
    {
      ListedContribution(c.lists, i, d, id);
      assert Follows(FindCached(c.lists, id), rows, id);
    }
    forall t | t in ts
      ensures t.id in ids
    {
      ListedIsFound(c.lists, i);
      assert Follows(FindCached(c.lists, t.id), rows, t.id);
    }
    SumByIds(ts, ids);
    SameSums(rows, ts, ids);
  }

  // --- runs ---

  function ServerRunOf(rows: Rows, hs: seq<Happening>): Rows
    decreases hs
  {
    if hs == [] then rows else ServerRunOf(ServerAfter(rows, hs[0]), hs[1..])
  }

  function BrowserRunOf(c: Cache, rows: Rows, hs: seq<Happening>): Cache
    decreases hs
  {
    if hs == [] then c else BrowserRunOf(BrowserAfter(c, rows, hs[0]), ServerAfter(rows, hs[0]), hs[1..])
  }

  ghost predicate HappeningsOk(c: Cache, rows: Rows, hs: seq<Happening>, d: string)
    decreases hs
  {
    hs != [] ==>
      && HappeningOk(c, rows, hs[0], d)
      && HappeningsOk(BrowserAfter(c, rows, hs[0]), ServerAfter(rows, hs[0]), hs[1..], d)
  }

  /** After every run of requests and incoming mail, with each event delivered once and nothing refetched, the
      browser's badge is the unread count the server holds. */
  lemma {:induction false} BadgeIsTrueAfterRun(c: Cache, rows: Rows, hs: seq<Happening>, d: string, ids: seq<string>)
    requires CacheOk(c.lists, d) && BadgeOk(c, d) && HasInbox(c.lists)
    requires Tracks(c.lists, rows) && HappeningsOk(c, rows, hs, d)
    ensures Enumerates(ids, ServerRunOf(rows, hs)) ==>
      Badge(BrowserRunOf(c, rows, hs).counts, d) == ServerUnread(ServerRunOf(rows, hs), ids)
    decreases hs
  {
    if hs == [] {
      if Enumerates(ids, rows) { BadgeIsServerUnread(c, rows, d, ids); }
    } else {
      HappeningKeepsTracks(c, rows, hs[0], d);
      BadgeIsTrueAfterRun(BrowserAfter(c, rows, hs[0]), ServerAfter(rows, hs[0]), hs[1..], d, ids);
    }
  }

  /** A pass of the trash collector is the expiry of one thread after another, at one time. */
  function Expiries(ids: seq<string>, now: int): seq<Happening> {
    if ids == [] then [] else [Expire(ids[0], now)] + Expiries(ids[1..], now)
  }

  lemma PassIsExpiries(rows: Rows, ids: seq<string>, now: int)
    requires Enumerates(ids, rows)
    ensures ServerRunOf(rows, Expiries(ids, now)) == Collect(rows, now)
  {
    ExpiriesDelete(rows, ids, now);
  }

  lemma {:induction false} ExpiriesDelete(rows: Rows, ids: seq<string>, now: int)
    ensures ServerRunOf(rows, Expiries(ids, now))
         == map id | id in rows ::
              if id in ids && Expired(rows[id], now) then rows[id].(labels := {}, deleted := true) else rows[id]
    decreases ids
  {
    if ids != [] {
      ExpiriesDelete(ServerAfter(rows, Expire(ids[0], now)), ids[1..], now);
      assert ids == [ids[0]] + ids[1..];
      assert Expiries(ids, now)[1..] == Expiries(ids[1..], now);
    }
  }
}
