/** Where the browser's badge leaves the server's unread count: exactly when, and by how much. */
module BadgeDrift {
  import opened Wrappers
  import opened Labels
  import opened ThreadLists
  import opened ThreadCache
  import opened CacheInvariants
  import opened CacheSteps
  import opened UnreadBadge
  import opened ThreadServer
  import opened ThreadHandlers
  import opened LabelSync
  import opened ExactlyOnce
  import opened Redelivery
  import opened ListViews
  import opened BadgeTruth

  /** The browser is in step with the server. */
  ghost predicate InStep(c: Cache, rows: Rows, d: string) {
    CacheOk(c.lists, d) && BadgeOk(c, d) && HasInbox(c.lists) && Tracks(c.lists, rows)
  }

  /** The badge is the server's unread count. */
  ghost predicate BadgeTrue(c: Cache, rows: Rows, d: string, ids: seq<string>) {
    Badge(c.counts, d) == ServerUnread(rows, ids)
  }

  lemma {:induction false} SameShares(a: Rows, b: Rows, ids: seq<string>)
    requires forall id :: id in ids ==> ServerShare(a, id) == ServerShare(b, id)
    ensures ServerUnread(a, ids) == ServerUnread(b, ids)
  {
    if ids != [] { SameShares(a, b, ids[1..]); }
  }

  // --- deleted threads ---

  /** What the event of a request on a deleted thread adds to the badge. */
  function Raised(h: Happening): nat {
    match h
    case Act(_, _, a, _, shown) => if IsMove(a) || a.DoNotSpam? then Contribution(Some(shown)) else 0
    case MailIn(_, _, _, _, shown) => Contribution(Some(shown))
    case _ => 0
  }

  /** A request on, or a mail into, a deleted thread of the domain, with the summary the server sends. */
  ghost predicate OnDeleted(rows: Rows, h: Happening, d: string) {
    && (h.Act? || h.MailIn?)
    && h.id in rows && rows[h.id].deleted && rows[h.id].domainId == d
    && h.shown.id == h.id && Shows(h.shown, ServerAfter(rows, h)[h.id])
    && (h.Act? ==> ReplyTo(h.claims, rows, h.id, h.action) == Done)
  }

  lemma DeletedRaises(c: Cache, rows: Rows, h: Happening, d: string)
    requires InStep(c, rows, d) && OnDeleted(rows, h, d)
    ensures Badge(BrowserAfter(c, rows, h).counts, d) == Badge(c.counts, d) + Raised(h)
  {
    assert Follows(FindCached(c.lists, h.id), rows, h.id);
    DeletedPublishes(rows, h, d);
    NotNegative(c, rows, d);
    if h.Act? { UncachedActRaises(c, h.action, h.shown, d); } else { UncachedMailRaises(c, h.shown, d); }
  }

  lemma DeletedPublishes(rows: Rows, h: Happening, d: string)
    requires OnDeleted(rows, h, d)
    ensures Published(rows, h)
         == Some(if h.Act? then EventOf(h.action, h.shown) else EmailEvent(true, h.id, Some(h.shown)))
    ensures h.shown.domainId == d && h.shown.id == h.id
  {
  }

  lemma NotNegative(c: Cache, rows: Rows, d: string)
    requires InStep(c, rows, d)
    ensures Badge(c.counts, d) >= 0
  {
    var i :| 0 <= i < |c.lists| && c.lists[i].view == Inbox;
  }

  /** The event of an action on a thread without a copy raises the badge only if it moves the thread. */
  lemma UncachedActRaises(c: Cache, a: Action, t: Thread, d: string)
    requires FindCached(c.lists, t.id).None? && t.domainId == d && Badge(c.counts, d) >= 0
    ensures Badge(StepCounts(c, EventOf(a, t)), d)
         == Badge(c.counts, d) + if IsMove(a) || a.DoNotSpam? then Contribution(Some(t)) else 0
  {
    OneAdjusted(c.counts, d, Contribution(Some(t)));
  }

  lemma UncachedMailRaises(c: Cache, t: Thread, d: string)
    requires FindCached(c.lists, t.id).None? && t.domainId == d && Badge(c.counts, d) >= 0
    ensures Badge(StepCounts(c, EmailEvent(true, t.id, Some(t))), d) == Badge(c.counts, d) + Contribution(Some(t))
  {
    OneAdjusted(c.counts, d, Contribution(Some(t)));
  }

  lemma DeletedStays(rows: Rows, h: Happening, d: string, ids: seq<string>)
    requires OnDeleted(rows, h, d)
    ensures ServerUnread(ServerAfter(rows, h), ids) == ServerUnread(rows, ids)
  {
    assert ServerAfter(rows, h)[h.id].deleted;
    SameShares(ServerAfter(rows, h), rows, ids);
  }

  /** A request accepted on a deleted thread keeps the badge true exactly when it is no move, or leaves the thread
      out of the inbox, or the thread had nothing unread. */
  lemma DeletedActKeepsBadgeIff(c: Cache, rows: Rows, h: Happening, d: string, ids: seq<string>)
    requires InStep(c, rows, d) && Enumerates(ids, rows) && h.Act? && OnDeleted(rows, h, d)
    ensures BadgeTrue(BrowserAfter(c, rows, h), ServerAfter(rows, h), d, ids) <==>
      || !(IsMove(h.action) || h.action.DoNotSpam?)
      || !InboxEligible(ServerAfter(rows, h)[h.id].labels)
      || rows[h.id].unread == 0
  {
    BadgeIsServerUnread(c, rows, d, ids);
    DeletedRaises(c, rows, h, d);
    DeletedStays(rows, h, d, ids);
  }

  /** A mail into a deleted thread keeps the badge true exactly when it leaves the thread out of the inbox. */
  lemma DeletedMailKeepsBadgeIff(c: Cache, rows: Rows, h: Happening, d: string, ids: seq<string>)
    requires InStep(c, rows, d) && Enumerates(ids, rows) && h.MailIn? && OnDeleted(rows, h, d)
    ensures BadgeTrue(BrowserAfter(c, rows, h), ServerAfter(rows, h), d, ids)
            <==> !InboxEligible(ServerAfter(rows, h)[h.id].labels)
  {
    BadgeIsServerUnread(c, rows, d, ids);
    DeletedRaises(c, rows, h, d);
    DeletedStays(rows, h, d, ids);
  }

  // --- bulk actions ---

  /** What the server still counts of a named thread the browser has no copy of afterwards. */
  function Missed(c: Cache, rows: Rows, h: Happening, id: string): nat
    requires h.ActMany?
  {
    if id in Notified(h.claims, rows, h.ids, h.bulk) && LeftWithoutCopy(c, h.bulk, id)
    then ServerShare(ServerAfter(rows, h), id) else 0
  }

  function MissedSum(c: Cache, rows: Rows, h: Happening, ids: seq<string>): nat
    requires h.ActMany?
  {
    if ids == [] then 0 else Missed(c, rows, h, ids[0]) + MissedSum(c, rows, h, ids[1..])
  }

  /** A bulk request in a state in step, with a well-formed event. */
  ghost predicate BulkInStep(c: Cache, rows: Rows, h: Happening, d: string) {
    && InStep(c, rows, d) && h.ActMany?
    && forall e :: Published(rows, h) == Some(e) ==> WellFormed(c.lists, e, d)
  }

  lemma ShareAfterBulk(c: Cache, rows: Rows, h: Happening, d: string, id: string)
    requires BulkInStep(c, rows, h, d) && Published(rows, h).Some?
    ensures ServerShare(ServerAfter(rows, h), id)
         == Contribution(NewCopy(c.lists, Published(rows, h).value, id)) + Missed(c, rows, h, id)
  {
    AllowedMembers(h.claims, rows, h.ids);
    var copy := FindCached(c.lists, id);
    assert Follows(copy, rows, id);
    if id in Notified(h.claims, rows, h.ids, h.bulk) && copy.Some? && !h.bulk.BulkDelete? {
      CopyFollows(copy.value, rows[id], h.bulk, h.now);
    }
  }

  lemma {:induction false} SharesAfterBulk(
    c: Cache, rows: Rows, h: Happening, d: string, ts: seq<Thread>, ids: seq<string>)
    requires BulkInStep(c, rows, h, d)
    requires forall id :: id in ids ==>
      ServerShare(ServerAfter(rows, h), id) == UnreadOf(ts, id) + Missed(c, rows, h, id)
    ensures ServerUnread(ServerAfter(rows, h), ids) == SumOver(ids, ts) + MissedSum(c, rows, h, ids)
  {
    if ids != [] { SharesAfterBulk(c, rows, h, d, ts, ids[1..]); }
  }

  /** After any bulk request the server's unread count is the badge and what the browser missed: the threads made
      eligible without a copy, and the eligible ones it dropped although the server did not delete them. */
  lemma BulkBadgeMisses(c: Cache, rows: Rows, h: Happening, d: string, ids: seq<string>)
    requires BulkInStep(c, rows, h, d) && Enumerates(ids, rows)
    ensures ServerUnread(ServerAfter(rows, h), ids)
         == Badge(BrowserAfter(c, rows, h).counts, d) + MissedSum(c, rows, h, ids)
  {
    if Published(rows, h).None? {
      NothingPublished(rows, h);
      BadgeIsServerUnread(c, rows, d, ids);
      NothingMissed(c, rows, h, ids);
    } else {
      BulkEventMisses(c, rows, h, Published(rows, h).value, d, ids);
    }
  }

  lemma {:induction false} NothingMissed(c: Cache, rows: Rows, h: Happening, ids: seq<string>)
    requires h.ActMany?
    requires forall id :: id in ids ==> Missed(c, rows, h, id) == 0
    ensures MissedSum(c, rows, h, ids) == 0
  {
    if ids != [] { NothingMissed(c, rows, h, ids[1..]); }
  }

  lemma {:induction false} SomethingMissed(c: Cache, rows: Rows, h: Happening, ids: seq<string>, id: string)
    requires h.ActMany? && id in ids
    ensures MissedSum(c, rows, h, ids) >= Missed(c, rows, h, id)
  {
    if id != ids[0] { SomethingMissed(c, rows, h, ids[1..], id); }
  }

  lemma BulkEventMisses(c: Cache, rows: Rows, h: Happening, e: Event, d: string, ids: seq<string>)
    requires BulkInStep(c, rows, h, d) && Enumerates(ids, rows) && Published(rows, h) == Some(e)
    ensures ServerUnread(ServerAfter(rows, h), ids) == Badge(Step(c, e).counts, d) + MissedSum(c, rows, h, ids)
  {
    var i :| 0 <= i < |c.lists| && c.lists[i].view == Inbox;
    var ts := StepList(c.lists, e, c.lists[i]).threads;
    StepMirrors(c.lists, e, i, d);
    StepKeepsBadge(c, e, d);
    assert Step(c, e).lists[i].threads == ts && Step(c, e).lists[i].view == Inbox;
    forall id: string
      ensures ServerShare(ServerAfter(rows, h), id) == UnreadOf(ts, id) + Missed(c, rows, h, id)
    {
      MirroredContribution(c.lists, e, c.lists[i], StepList(c.lists, e, c.lists[i]), d, id);
      ShareAfterBulk(c, rows, h, d, id);
    }
    ListedAreRows(c, rows, e, d, i, ids);
    SumByIds(ts, ids);
    SharesAfterBulk(c, rows, h, d, ts, ids);
  }

  lemma ListedAreRows(c: Cache, rows: Rows, e: Event, d: string, i: nat, ids: seq<string>)
    requires InStep(c, rows, d) && e.BulkEvent? && WellFormed(c.lists, e, d) && i < |c.lists| && Enumerates(ids, rows)
    ensures forall t :: t in StepList(c.lists, e, c.lists[i]).threads ==> t.id in ids
  {
    StepMirrors(c.lists, e, i, d);
    forall t | t in StepList(c.lists, e, c.lists[i]).threads
      ensures t.id in ids
    {
      assert IsCopy(NewCopy(c.lists, e, t.id), t);
      assert Follows(FindCached(c.lists, t.id), rows, t.id);
    }
  }

  /** A bulk request keeps the badge true exactly when the server counts nothing unread in the named threads the
      browser is left without: the ones it had no copy of and, for a delete, all of them. */
  lemma BulkKeepsBadgeIff(c: Cache, rows: Rows, h: Happening, d: string, ids: seq<string>)
    requires BulkInStep(c, rows, h, d) && Enumerates(ids, rows)
    ensures BadgeTrue(BrowserAfter(c, rows, h), ServerAfter(rows, h), d, ids) <==>
      forall id :: id in Notified(h.claims, rows, h.ids, h.bulk) && LeftWithoutCopy(c, h.bulk, id)
        ==> ServerShare(ServerAfter(rows, h), id) == 0
  {
    BulkBadgeMisses(c, rows, h, d, ids);
    if forall id :: id in ids ==> Missed(c, rows, h, id) == 0 {
      NothingMissed(c, rows, h, ids);
      forall id | id in Notified(h.claims, rows, h.ids, h.bulk) && LeftWithoutCopy(c, h.bulk, id)
        ensures ServerShare(ServerAfter(rows, h), id) == 0
      {
        assert id in rows ==> Missed(c, rows, h, id) == 0;
      }
    } else {
      var id :| id in ids && Missed(c, rows, h, id) != 0;
      SomethingMissed(c, rows, h, ids, id);
    }
  }

  // --- witnesses ---

  const DOMAIN := "d"

  function Admin(): Claims {
    Claims(true, {})
  }

  /** One domain with an inbox list and nothing in it. */
  function EmptyBrowser(): Cache {
    Cache([ThreadList(DOMAIN, Inbox, [], 0)], map[DOMAIN := 0])
  }

  /** The same, with one unread thread. */
  function OneThread(): Thread {
    Thread("t", DOMAIN, {Inbox}, 3, 0, "")
  }

  function OneThreadBrowser(): Cache {
    Cache([ThreadList(DOMAIN, Inbox, [OneThread()], 1)], map[DOMAIN := 3])
  }

  /** A server with one thread. */
  function OneRow(labels: set<Label>, deleted: bool): Rows {
    map["t" := Row(DOMAIN, labels, 3, None, deleted)]
  }

  lemma EmptyInStep(rows: Rows)
    requires forall id :: id in rows ==> !Counted(rows, id)
    ensures InStep(EmptyBrowser(), rows, DOMAIN)
  {
    var c := EmptyBrowser();
    assert c.lists[0].view == Inbox;
    forall id: string
      ensures FindCached(c.lists, id) == None
    {
      assert c.lists[1..] == [];
    }
    assert BadgeOk(c, DOMAIN);
  }

  lemma OneThreadInStep()
    ensures InStep(OneThreadBrowser(), OneRow({Inbox}, false), DOMAIN)
  {
    var c, t := OneThreadBrowser(), OneThread();
    assert c.lists[0].view == Inbox && t in c.lists[0].threads;
    assert Cached(c.lists, t);
    CachedIsFound(c.lists, t);
    assert SumUnread([t]) == 3 by { assert [t][1..] == []; }
    assert BadgeOk(c, DOMAIN);
    assert c.lists[1..] == [];
    forall id: string | id != "t"
      ensures FindCached(c.lists, id) == None
    {
    }
  }

  /** An administrator moves a deleted thread to the inbox: the badge counts its three unread mails, the server
      counts none. */
  lemma DeletedMoveRaisesBadge() returns (c: Cache, rows: Rows, h: Happening)
    ensures InStep(c, rows, DOMAIN) && h.Act? && OnDeleted(rows, h, DOMAIN)
    ensures !BadgeTrue(BrowserAfter(c, rows, h), ServerAfter(rows, h), DOMAIN, ["t"])
  {
    c, rows := EmptyBrowser(), OneRow({}, true);
    h := Act(Admin(), "t", DoMove(Inbox), 0, OneThread());
    EmptyInStep(rows);
    assert Moved(rows["t"], Inbox, 0).labels == {Inbox};
    DeletedActKeepsBadgeIff(c, rows, h, DOMAIN, ["t"]);
  }

  /** One named thread that the server counts and the browser lost is enough. */
  lemma LostThreadBreaksBadge(c: Cache, rows: Rows, h: Happening, d: string, ids: seq<string>, id: string)
    requires BulkInStep(c, rows, h, d) && Enumerates(ids, rows) && id in ids
    requires id in Notified(h.claims, rows, h.ids, h.bulk) && LeftWithoutCopy(c, h.bulk, id)
    requires ServerShare(ServerAfter(rows, h), id) > 0
    ensures !BadgeTrue(BrowserAfter(c, rows, h), ServerAfter(rows, h), d, ids)
  {
    BulkKeepsBadgeIff(c, rows, h, d, ids);
  }

  /** The bulk request of an administrator that names the one thread. */
  lemma OneBulkInStep(c: Cache, rows: Rows, action: BulkAction)
    requires InStep(c, rows, DOMAIN) && AcceptsLabel(action)
    ensures BulkInStep(c, rows, ActMany(Admin(), ["t"], action, 0), DOMAIN)
    ensures Notified(Admin(), rows, ["t"], action) == ["t"]
  {
    OneIsNotified(rows, action);
    OneIsWellFormed(c.lists, action, "t", DOMAIN);
  }

  lemma OneIsNotified(rows: Rows, action: BulkAction)
    requires AcceptsLabel(action)
    ensures Notified(Admin(), rows, ["t"], action) == ["t"]
  {
    AdminIsAllowedAll(Admin(), rows, ["t"]);
  }

  lemma OneIsWellFormed(lists: seq<ThreadList>, action: BulkAction, id: string, d: string)
    ensures WellFormed(lists, BulkEvent(action, [id]), d)
  {
  }

  lemma OneRowIsAll(labels: set<Label>)
    ensures Enumerates(["t"], OneRow(labels, false))
  {
    assert ["t"][0] == "t";
  }

  /** A bulk move to the inbox of a thread the browser has no copy of: the badge misses its three unread mails. */
  lemma UncachedBulkMoveIsMissed() returns (c: Cache, rows: Rows, h: Happening)
    ensures BulkInStep(c, rows, h, DOMAIN) && h.bulk == BulkMove(Inbox) && Live(rows, "t")
    ensures !BadgeTrue(BrowserAfter(c, rows, h), ServerAfter(rows, h), DOMAIN, ["t"])
  {
    c, rows := EmptyBrowser(), OneRow({}, false);
    h := ActMany(Admin(), ["t"], BulkMove(Inbox), 0);
    EmptyInStep(rows);
    OneBulkInStep(c, rows, h.bulk);
    OneRowIsAll({});
    LostMoveBreaksBadge(c, rows, h);
  }

  lemma LostMoveBreaksBadge(c: Cache, rows: Rows, h: Happening)
    requires BulkInStep(c, rows, h, DOMAIN) && Enumerates(["t"], rows)
    requires h == ActMany(Admin(), ["t"], BulkMove(Inbox), 0)
    requires "t" in rows && !rows["t"].deleted && rows["t"].unread > 0 && FindCached(c.lists, "t").None?
    requires Notified(Admin(), rows, ["t"], BulkMove(Inbox)) == ["t"]
    ensures !BadgeTrue(BrowserAfter(c, rows, h), ServerAfter(rows, h), DOMAIN, ["t"])
  {
    MovedIn(rows, h);
    LostThreadBreaksBadge(c, rows, h, DOMAIN, ["t"], "t");
  }

  lemma MovedIn(rows: Rows, h: Happening)
    requires h == ActMany(Admin(), ["t"], BulkMove(Inbox), 0) && "t" in rows && !rows["t"].deleted
    ensures ServerShare(ServerAfter(rows, h), "t") == rows["t"].unread
  {
    assert h.ids[0] == "t";
  }

  /** A bulk delete of a thread in the inbox: the server deletes nothing, the browser drops the thread. */
  lemma BulkDeleteFromInboxDrops() returns (c: Cache, rows: Rows, h: Happening)
    ensures BulkInStep(c, rows, h, DOMAIN) && h.bulk == BulkDelete && ServerAfter(rows, h) == rows
    ensures !BadgeTrue(BrowserAfter(c, rows, h), ServerAfter(rows, h), DOMAIN, ["t"])
  {
    c, rows := OneThreadBrowser(), OneRow({Inbox}, false);
    h := ActMany(Admin(), ["t"], BulkDelete, 0);
    OneThreadInStep();
    OneBulkInStep(c, rows, h.bulk);
    OneRowIsAll({Inbox});
    KeptByDelete(rows, h);
    LostThreadBreaksBadge(c, rows, h, DOMAIN, ["t"], "t");
  }

  lemma KeptByDelete(rows: Rows, h: Happening)
    requires h.ActMany? && h.bulk.BulkDelete?
    requires forall id :: id in rows ==> Trash !in rows[id].labels && Spam !in rows[id].labels
    ensures ServerAfter(rows, h) == rows
  {
  }

  // --- lists that show what does not belong there ---

  function TrashedThread(): Thread {
    Thread("t", DOMAIN, {Trash}, 3, 0, "")
  }

  function TrashBrowser(): Cache {
    Cache([ThreadList(DOMAIN, Inbox, [], 0), ThreadList(DOMAIN, Trash, [TrashedThread()], 1)], map[DOMAIN := 0])
  }

  /** An administrator archives a trashed thread in bulk and then stars it. The server takes it out of the trash at
      once. The browser does not, until the star event brings the labels and leaves the entry in the trash list: the
      list shows a thread that carries no trash. The badge is right all the while. */
  lemma StarredInTrashList() returns (c: Cache, rows: Rows, hs: seq<Happening>)
    ensures InStep(c, rows, DOMAIN) && AllInView(c.lists) && HappeningsOk(c, rows, hs, DOMAIN)
    ensures |hs| == 2 && hs[0].ActMany? && hs[1].Act? && hs[1].action == DoStar(Some(true))
    ensures Live(ServerRunOf(rows, hs), "t")
    ensures !AllInView(BrowserRunOf(c, rows, hs).lists)
    ensures BadgeTrue(BrowserRunOf(c, rows, hs), ServerRunOf(rows, hs), DOMAIN, ["t"])
  {
    c, rows := TrashBrowser(), OneRow({Trash}, false);
    var archive := ActMany(Admin(), ["t"], BulkMove(Archive), 0);
    var star := Act(Admin(), "t", DoStar(Some(true)), 0, TrashedThread().(labels := {Starred}));
    hs := [archive, star];
    TrashInStep();
    ArchiveIsUnseen();
    StarIsShown();
    RunOfTwo(c, rows, archive, star);
    OneRowIsAll({Starred});
    BadgeIsTrueAfterRun(c, rows, hs, DOMAIN, ["t"]);
  }

  lemma RunOfTwo(c: Cache, rows: Rows, a: Happening, b: Happening)
    ensures HappeningsOk(c, rows, [a, b], DOMAIN) <==>
      HappeningOk(c, rows, a, DOMAIN) && HappeningOk(BrowserAfter(c, rows, a), ServerAfter(rows, a), b, DOMAIN)
    ensures BrowserRunOf(c, rows, [a, b]) == BrowserAfter(BrowserAfter(c, rows, a), ServerAfter(rows, a), b)
    ensures ServerRunOf(rows, [a, b]) == ServerAfter(ServerAfter(rows, a), b)
  {
    assert [a, b][1..] == [b];
    RunOfOne(BrowserAfter(c, rows, a), ServerAfter(rows, a), b);
  }

  lemma RunOfOne(c: Cache, rows: Rows, h: Happening)
    ensures HappeningsOk(c, rows, [h], DOMAIN) <==> HappeningOk(c, rows, h, DOMAIN)
    ensures BrowserRunOf(c, rows, [h]) == BrowserAfter(c, rows, h) && ServerRunOf(rows, [h]) == ServerAfter(rows, h)
  {
    assert [h][1..] == [];
  }

  lemma TrashIsFound()
    ensures FindCached(TrashBrowser().lists, "t") == Some(TrashedThread())
    ensures forall id | id != "t" :: FindCached(TrashBrowser().lists, id) == None
  {
    var lists, t := TrashBrowser().lists, TrashedThread();
    assert lists[1..] == [lists[1]] && lists[1..][1..] == [];
    assert FindIn([t], "t") == Some(t);
    forall id: string | id != "t"
      ensures FindCached(lists, id) == None
    {
      assert [t][1..] == [] && FindIn([t], id) == None;
    }
  }

  lemma TrashInStep()
    ensures InStep(TrashBrowser(), OneRow({Trash}, false), DOMAIN) && AllInView(TrashBrowser().lists)
  {
    var c := TrashBrowser();
    TrashIsFound();
    TrashIsOk();
    forall id: string
      ensures Follows(FindCached(c.lists, id), OneRow({Trash}, false), id)
    {
    }
  }

  lemma TrashIsOk()
    ensures var c := TrashBrowser();
      CacheOk(c.lists, DOMAIN) && BadgeOk(c, DOMAIN) && HasInbox(c.lists) && AllInView(c.lists)
  {
    var c := TrashBrowser();
    assert c.lists[0].view == Inbox;
    forall t | Cached(c.lists, t)
      ensures t == TrashedThread()
    {
    }
  }

  /** The browser's labels, and so its lists and badges, stay as they are. */
  lemma ArchiveIsUnseen()
    ensures var c, rows, h := TrashBrowser(), OneRow({Trash}, false), ActMany(Admin(), ["t"], BulkMove(Archive), 0);
      HappeningOk(c, rows, h, DOMAIN) && BrowserAfter(c, rows, h) == c && ServerAfter(rows, h) == OneRow({}, false)
  {
    var c, rows, h := TrashBrowser(), OneRow({Trash}, false), ActMany(Admin(), ["t"], BulkMove(Archive), 0);
    TrashIsFound();
    OneIsNotified(rows, h.bulk);
    OneIsWellFormed(c.lists, h.bulk, "t", DOMAIN);
    ArchivedRow();
    ArchivedLists();
  }

  lemma ArchivedRow()
    ensures BulkHandle(Admin(), OneRow({Trash}, false), ["t"], BulkMove(Archive), 0) == OneRow({}, false)
  {
    assert ["t"][0] == "t";
    assert {Trash} - {Inbox} - {Trash} - {Spam} == {};
  }

  lemma ArchivedLists()
    ensures Step(TrashBrowser(), BulkEvent(BulkMove(Archive), ["t"])) == TrashBrowser()
  {
    var c, ids, action := TrashBrowser(), ["t"], BulkMove(Archive);
    ArchivedList(c.lists[0]);
    ArchivedList(c.lists[1]);
    ArchivedCounts();
    ArchivedStep(c.lists, ids);
    SameCache(c, BulkEvent(action, ids));
  }

  lemma ArchivedStep(lists: seq<ThreadList>, ids: seq<string>)
    ensures forall l :: StepList(lists, BulkEvent(BulkMove(Archive), ids), l)
                     == BulkLabelList(lists, l, ids, BulkMove(Archive))
  {
  }

  lemma ArchivedCounts()
    ensures StepCounts(TrashBrowser(), BulkEvent(BulkMove(Archive), ["t"])) == TrashBrowser().counts
  {
    TrashIsFound();
    TrashedStays();
    NoDelta(TrashBrowser().lists, "t", BulkMove(Archive));
    NothingAdjusted(TrashBrowser().counts);
  }

  lemma SameCache(c: Cache, e: Event)
    requires forall i :: 0 <= i < |c.lists| ==> StepList(c.lists, e, c.lists[i]) == c.lists[i]
    requires StepCounts(c, e) == c.counts
    ensures Step(c, e) == c
  {
  }

  lemma TrashedStays()
    ensures ApplyPatch(Bulk(BulkMove(Archive)), TrashedThread()) == TrashedThread()
  {
    assert {Trash} - {Inbox} == {Trash};
  }

  lemma ArchivedList(l: ThreadList)
    requires l in TrashBrowser().lists
    ensures BulkLabelList(TrashBrowser().lists, l, ["t"], BulkMove(Archive)) == l
  {
    TrashIsFound();
    TrashedStays();
    assert forall t :: t in l.threads ==> t == TrashedThread();
    assert l.view == Trash ==> TrashedThread() in l.threads;
    if l.view == Trash { InListIsHeld(l, TrashedThread()); }
    NoneJoins(TrashBrowser().lists, l, ["t"], BulkMove(Archive));
    BulkFixpoint(TrashBrowser().lists, l, ["t"], BulkMove(Archive));
  }

  lemma NoDelta(lists: seq<ThreadList>, id: string, action: BulkAction)
    requires FindCached(lists, id).Some? ==> BulkDelta(action, FindCached(lists, id).value) == 0
    ensures DeltaByDomain(lists, [id], action) == map[]
  {
    assert [id][..0] == [];
    assert DeltaByDomain(lists, [id][..0], action) == map[];
  }

  lemma StarIsShown()
    ensures var c, rows := TrashBrowser(), OneRow({}, false);
      var h := Act(Admin(), "t", DoStar(Some(true)), 0, TrashedThread().(labels := {Starred}));
      && HappeningOk(c, rows, h, DOMAIN) && ServerAfter(rows, h) == OneRow({Starred}, false)
      && !AllInView(BrowserAfter(c, rows, h).lists)
  {
    var c, rows := TrashBrowser(), OneRow({}, false);
    var h := Act(Admin(), "t", DoStar(Some(true)), 0, TrashedThread().(labels := {Starred}));
    assert {} + {Starred} == {Starred};
    assert ServerAfter(rows, h) == OneRow({Starred}, false);
    StepKeepsViewIff(c.lists, Published(rows, h).value, c.lists[1]);
    assert Holds(c.lists[1], "t");
    assert InView(c.lists[1]) by { TrashInStep(); }
  }
}
