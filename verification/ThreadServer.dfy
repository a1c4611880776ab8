/** The server's thread rows and what each request does to them: the specification the handlers of
    module `ThreadHandlers` are proved against. */
module ThreadServer {
  import opened Wrappers
  import opened Labels

  /** A row of `threads` with its `thread_labels`. Times are seconds. */
  datatype Row = Row(
    domainId: string, labels: set<Label>, unread: nat, trashExpiresAt: Option<int>, deleted: bool)

  /** The threads of one organisation. */
  type Rows = map<string, Row>

  /** The caller: an admin, or a member with alias addresses. */
  datatype Claims = Claims(admin: bool, aliases: set<string>)

  datatype Reply = Done | BadRequest | NotFound

  /** The single-thread requests. `want` is the optional request body of a star. */
  datatype Action =
    | DoArchive | DoTrash | DoSpam | DoNotSpam
    | DoMove(target: Label)
    | DoRead | DoUnread
    | DoStar(want: Option<bool>) | DoMute
    | DoDelete

  const TRASH_SECONDS := 30 * 24 * 3600

  const MOVE_TARGETS := {Inbox, Archive, Trash, Spam}

  function AliasLabels(labels: set<Label>): set<Label> {
    set l | l in labels && l.Alias?
  }

  /** Whether the caller may act on a thread: any admin, and a member with one of its alias labels. */
  predicate Visible(claims: Claims, rows: Rows, id: string) {
    claims.admin || (id in rows && exists l :: l in rows[id].labels && l.Alias? && l.address in claims.aliases)
  }

  // --- one thread ---

  /** A move to a system folder or a custom label. */
  function Moved(r: Row, target: Label, now: int): Row {
    match target
    case Inbox => r.(labels := r.labels + {Inbox} - {Trash} - {Spam}, trashExpiresAt := None)
    case Trash => r.(labels := r.labels + {Trash}, trashExpiresAt := Some(now + TRASH_SECONDS))
    case Spam => r.(labels := r.labels + {Spam} - {Trash}, trashExpiresAt := None)
    case Archive => r.(labels := r.labels - {Inbox} - {Trash} - {Spam}, trashExpiresAt := None)
    case _ => r.(labels := r.labels + {target})
  }

  /** The row after an accepted single-thread request. */
  function After(r: Row, a: Action, now: int): Row {
    match a
    case DoArchive => r.(labels := r.labels - {Inbox})
    case DoTrash => r.(labels := r.labels + {Trash}, trashExpiresAt := Some(now + TRASH_SECONDS))
    case DoSpam => r.(labels := r.labels + {Spam})
    case DoNotSpam => r.(labels := r.labels - {Spam} + {Inbox})
    case DoMove(target) => Moved(r, target, now)
    case DoRead => r.(unread := 0)
    case DoUnread => r.(unread := 1)
    case DoStar(want) =>
      if (if want.Some? then want.value else Starred !in r.labels)
      then r.(labels := r.labels + {Starred}) else r.(labels := r.labels - {Starred})
    case DoMute => if Muted in r.labels then r.(labels := r.labels - {Muted}) else r.(labels := r.labels + {Muted})
    case DoDelete => r.(labels := {}, deleted := true)
  }

  function ReplyTo(claims: Claims, rows: Rows, id: string, a: Action): Reply {
    match a
    case DoMove(target) =>
      if target == Custom("") then BadRequest
      else if !Visible(claims, rows, id) then NotFound
      else if target !in MOVE_TARGETS && IsReserved(target) then BadRequest
      else if id !in rows then NotFound
      else Done
    case DoDelete =>
      if id !in rows || !Visible(claims, rows, id) || Trash !in rows[id].labels then NotFound else Done
    case _ => if id !in rows || !Visible(claims, rows, id) then NotFound else Done
  }

  function Handle(claims: Claims, rows: Rows, id: string, a: Action, now: int): Rows {
    if ReplyTo(claims, rows, id, a).Done? && id in rows then rows[id := After(rows[id], a, now)] else rows
  }

  // --- many threads ---

  /** The row after an accepted bulk request that names it. */
  function BulkAfter(r: Row, action: BulkAction, now: int): Row {
    match action
    case BulkArchive => r.(labels := r.labels - {Inbox})
    case BulkTrash => r.(labels := r.labels + {Trash}, trashExpiresAt := Some(now + TRASH_SECONDS))
    case BulkSpam => r.(labels := r.labels + {Spam})
    case BulkRead => r.(unread := 0)
    case BulkUnread => r.(unread := 1)
    case BulkMove(target) => Moved(r, target, now)
    case BulkLabel(target) => r.(labels := r.labels + {target})
    case BulkUnlabel(target) => r.(labels := r.labels - {target})
    case BulkMute => r.(labels := r.labels + {Muted})
    case BulkUnmute => r.(labels := r.labels - {Muted})
    case BulkDismiss => r
    case BulkDelete => if Trash in r.labels || Spam in r.labels then r.(labels := {}, deleted := true) else r
  }

  /** The label rules of the bulk endpoint. */
  predicate AcceptsLabel(action: BulkAction) {
    match action
    case BulkMove(target) => target != Custom("") && (target in MOVE_TARGETS || !IsReserved(target))
    case BulkLabel(target) => target != Custom("") && !IsReserved(target)
    case BulkUnlabel(target) => target != Custom("") && !IsReserved(target)
    case _ => true
  }

  /** Whether a bulk request names a thread its caller may act on. */
  predicate Reaches(claims: Claims, rows: Rows, ids: seq<string>, id: string) {
    id in ids && Visible(claims, rows, id)
  }

  function BulkReplyTo(claims: Claims, rows: Rows, ids: seq<string>, action: BulkAction): Reply {
    if AcceptsLabel(action) || forall id :: id in ids ==> !Visible(claims, rows, id) then Done else BadRequest
  }

  function BulkHandle(claims: Claims, rows: Rows, ids: seq<string>, action: BulkAction, now: int): Rows {
    if !AcceptsLabel(action) then rows
    else map id | id in rows :: if Reaches(claims, rows, ids, id) then BulkAfter(rows[id], action, now) else rows[id]
  }

  // --- the trash collector and inbound mail ---

  /** Deletes every live thread that carries trash and whose expiry has passed. */
  function Collect(rows: Rows, now: int): Rows {
    map id | id in rows :: if Expired(rows[id], now) then rows[id].(labels := {}, deleted := true) else rows[id]
  }

  predicate Expired(r: Row, now: int) {
    !r.deleted && Trash in r.labels && r.trashExpiresAt.Some? && r.trashExpiresAt.value < now
  }

  /** The row of the first email of a new thread. `aliases` are the addresses it is stamped with. */
  function InboundNew(domainId: string, isSpam: bool, isBounce: bool, aliases: set<string>): Row {
    var folder := if isSpam then Spam else if isBounce then Trash else Inbox;
    Row(domainId, {folder} + set a | a in aliases :: Alias(a), 1, None, false)
  }

  /** The row after one more email in an existing thread. */
  function InboundReply(r: Row, isSpam: bool, isBounce: bool, aliases: set<string>): Row {
    var resurfaced :=
      if isSpam || isBounce then r.labels
      else (if Muted in r.labels then r.labels else r.labels + {Inbox}) - {Trash};
    r.(labels := resurfaced + (set a | a in aliases :: Alias(a)), unread := r.unread + 1)
  }

  // --- runs ---

  /** One request, or one pass of the trash collector. */
  datatype Request =
    | One(claims: Claims, id: string, action: Action, now: int)
    | Many(claims: Claims, ids: seq<string>, bulk: BulkAction, now: int)
    | CollectTrash(now: int)

  function Serve(rows: Rows, q: Request): Rows {
    match q
    case One(claims, id, a, now) => Handle(claims, rows, id, a, now)
    case Many(claims, ids, bulk, now) => BulkHandle(claims, rows, ids, bulk, now)
    case CollectTrash(now) => Collect(rows, now)
  }

  function Run(rows: Rows, qs: seq<Request>): Rows {
    if qs == [] then rows else Run(Serve(rows, qs[0]), qs[1..])
  }

  // --- the trash invariant ---

  /** The trash label and the expiry go together. */
  predicate TrashOk(r: Row) {
    Trash in r.labels <==> r.trashExpiresAt.Some?
  }

  ghost predicate TrashInvariant(rows: Rows) {
    forall id :: id in rows && !rows[id].deleted ==> TrashOk(rows[id])
  }

  lemma AfterKeepsTrashOk(r: Row, a: Action, now: int)
    requires TrashOk(r)
    ensures After(r, a, now).deleted || TrashOk(After(r, a, now))
  {
    match a
    case DoMove(target) => MovedIsTrashOk(r, target, now);
    case _ =>
  }

  lemma MovedIsTrashOk(r: Row, target: Label, now: int)
    requires TrashOk(r)
    ensures TrashOk(Moved(r, target, now))
  {
  }

  lemma BulkAfterKeepsTrashOk(r: Row, action: BulkAction, now: int)
    requires TrashOk(r) && AcceptsLabel(action)
    ensures BulkAfter(r, action, now).deleted || TrashOk(BulkAfter(r, action, now))
  {
    match action
    case BulkMove(target) => MovedIsTrashOk(r, target, now);
    case _ =>
  }

  /** No request and no update brings a deleted thread back. */
  lemma StaysDeleted(r: Row, a: Action, bulk: BulkAction, now: int)
    requires r.deleted
    ensures After(r, a, now).deleted && BulkAfter(r, bulk, now).deleted
  {
  }

  lemma ServeKeepsTrashInvariant(rows: Rows, q: Request)
    requires TrashInvariant(rows)
    ensures TrashInvariant(Serve(rows, q))
  {
    forall id | id in Serve(rows, q) && !Serve(rows, q)[id].deleted
      ensures TrashOk(Serve(rows, q)[id])
    {
      match q
      case One(claims, named, a, now) =>
        if rows[id].deleted { StaysDeleted(rows[id], a, BulkRead, now); } else { AfterKeepsTrashOk(rows[id], a, now); }
      case Many(claims, ids, bulk, now) =>
        if rows[id].deleted { StaysDeleted(rows[id], DoRead, bulk, now); }
        else if AcceptsLabel(bulk) { BulkAfterKeepsTrashOk(rows[id], bulk, now); }
      case CollectTrash(now) =>
    }
  }

  /** For every live thread in every reachable state, the trash label is present iff the expiry is set. */
  lemma {:induction false} RunKeepsTrashInvariant(rows: Rows, qs: seq<Request>)
    requires TrashInvariant(rows)
    ensures TrashInvariant(Run(rows, qs))
  {
    if qs != [] {
      ServeKeepsTrashInvariant(rows, qs[0]);
      RunKeepsTrashInvariant(Serve(rows, qs[0]), qs[1..]);
    }
  }

  /** A reply keeps the invariant exactly when it does not pull the thread out of the trash: that branch
      removes the label and leaves the expiry. */
  lemma InboundReplyKeepsTrashIff(r: Row, isSpam: bool, isBounce: bool, aliases: set<string>)
    requires TrashOk(r)
    ensures TrashOk(InboundReply(r, isSpam, isBounce, aliases)) <==> isSpam || isBounce || Trash !in r.labels
  {
  }

  /** A new thread keeps the invariant unless it is a bounce: that one gets the label and no expiry, so the
      collector never reaches it. */
  lemma InboundNewKeepsTrashIff(domainId: string, isSpam: bool, isBounce: bool, aliases: set<string>, now: int)
    ensures TrashOk(InboundNew(domainId, isSpam, isBounce, aliases)) <==> isSpam || !isBounce
    ensures !Expired(InboundNew(domainId, isSpam, isBounce, aliases), now)
  {
    assert isBounce && !isSpam ==> Trash in InboundNew(domainId, isSpam, isBounce, aliases).labels;
  }

  /** A mute, and a star with no body, are toggles: twice is nothing. A star with a body sets its value, however
      often it is repeated. */
  lemma StarAndMuteLaws(r: Row, want: bool, now: int, later: int)
    ensures After(After(r, DoMute, now), DoMute, later) == r
    ensures After(After(r, DoStar(None), now), DoStar(None), later) == r
    ensures Starred in After(r, DoStar(Some(want)), now).labels <==> want
    ensures After(After(r, DoStar(Some(want)), now), DoStar(Some(want)), later) == After(r, DoStar(Some(want)), now)
  {
    forall l: Label
      ensures l in r.labels ==> r.labels - {l} + {l} == r.labels
      ensures l !in r.labels ==> r.labels + {l} - {l} == r.labels
    {
    }
  }

  // --- visibility ---

  /** A row stays as it is deleted, or stays live with the same alias labels. */
  predicate KeepsAliases(a: Row, b: Row) {
    !b.deleted ==> !a.deleted && AliasLabels(b.labels) == AliasLabels(a.labels)
  }

  lemma ActionKeepsAliases(r: Row, a: Action, now: int)
    requires a.DoMove? ==> !a.target.Alias?
    ensures KeepsAliases(r, After(r, a, now))
  {
  }

  lemma BulkActionKeepsAliases(r: Row, bulk: BulkAction, now: int)
    requires AcceptsLabel(bulk)
    ensures KeepsAliases(r, BulkAfter(r, bulk, now))
  {
  }

  lemma ServeKeepsVisibility(rows: Rows, q: Request)
    ensures Serve(rows, q).Keys == rows.Keys
    ensures forall id :: id in rows ==> KeepsAliases(rows[id], Serve(rows, q)[id])
  {
    forall id | id in rows
      ensures KeepsAliases(rows[id], Serve(rows, q)[id])
    {
      match q
      case One(_, _, a, now) => if Serve(rows, q)[id] != rows[id] { ActionKeepsAliases(rows[id], a, now); }
      case Many(_, _, bulk, now) => if Serve(rows, q)[id] != rows[id] { BulkActionKeepsAliases(rows[id], bulk, now); }
      case CollectTrash(_) =>
    }
  }

  /** Over every run of the thread handlers a live thread keeps its alias labels, so the same callers can
      see it; and no deleted thread comes back. */
  lemma {:induction false} RunKeepsVisibility(rows: Rows, qs: seq<Request>)
    ensures Run(rows, qs).Keys == rows.Keys
    ensures forall id :: id in rows && !Run(rows, qs)[id].deleted ==>
      !rows[id].deleted && AliasLabels(Run(rows, qs)[id].labels) == AliasLabels(rows[id].labels)
    ensures forall id, claims :: id in rows && !Run(rows, qs)[id].deleted ==>
      (Visible(claims, Run(rows, qs), id) <==> Visible(claims, rows, id))
  {
    if qs != [] {
      ServeKeepsVisibility(rows, qs[0]);
      RunKeepsVisibility(Serve(rows, qs[0]), qs[1..]);
      assert forall id :: id in rows ==> KeepsAliases(rows[id], Serve(rows, qs[0])[id]);
    }
    forall id, claims: Claims | id in rows && !Run(rows, qs)[id].deleted
      ensures Visible(claims, Run(rows, qs), id) <==> Visible(claims, rows, id)
    {
      SameAliasesSameVisibility(claims, rows, Run(rows, qs), id);
    }
  }

  lemma SameAliasesSameVisibility(claims: Claims, a: Rows, b: Rows, id: string)
    requires id in a && id in b && AliasLabels(a[id].labels) == AliasLabels(b[id].labels)
    ensures Visible(claims, a, id) <==> Visible(claims, b, id)
  {
    forall l: Label | l.Alias?
      ensures l in a[id].labels <==> l in b[id].labels
    {
      assert l in a[id].labels <==> l in AliasLabels(a[id].labels);
      assert l in b[id].labels <==> l in AliasLabels(b[id].labels);
    }
  }

  /** What takes a live thread out of the live set: a visible delete from the trash, a visible bulk delete from
      the trash or from spam, or the collector once the thread has expired; and nothing else. */
  lemma LeavesLiveSetIff(rows: Rows, q: Request, id: string)
    requires id in rows && !rows[id].deleted
    ensures Serve(rows, q)[id].deleted <==>
      match q
      case One(claims, named, a, _) =>
        a.DoDelete? && named == id && Visible(claims, rows, id) && Trash in rows[id].labels
      case Many(claims, ids, bulk, _) =>
        bulk.BulkDelete? && Reaches(claims, rows, ids, id) && (Trash in rows[id].labels || Spam in rows[id].labels)
      case CollectTrash(now) => Expired(rows[id], now)
  {
    match q
    case One(claims, named, a, now) => OnlyDeleteDeletes(rows[id], a, BulkRead, now);
    case Many(claims, ids, bulk, now) => OnlyDeleteDeletes(rows[id], DoRead, bulk, now);
    case CollectTrash(now) =>
  }

  lemma OnlyDeleteDeletes(r: Row, a: Action, bulk: BulkAction, now: int)
    requires !r.deleted
    ensures After(r, a, now).deleted <==> a.DoDelete?
    ensures BulkAfter(r, bulk, now).deleted <==> bulk.BulkDelete? && (Trash in r.labels || Spam in r.labels)
  {
  }

  /** A move to a system folder is a move: of the four folders the thread is then listed in that one only,
      except that a thread moved from spam to the trash is still listed under spam. */
  lemma MoveLandsIff(r: Row, target: Label, folder: Label, now: int)
    requires target in MOVE_TARGETS && folder in MOVE_TARGETS
    ensures BelongsInView(Moved(r, target, now).labels, folder)
            <==> folder == target || (target == Trash && folder == Spam && Spam in r.labels)
  {
  }

  /** The bulk delete does remove a thread that carries no trash label: one marked as spam. */
  lemma BulkDeleteFromSpam() returns (rows: Rows, q: Request)
    ensures "t" in rows && !rows["t"].deleted && Trash !in rows["t"].labels
    ensures "t" in Serve(rows, q) && Serve(rows, q)["t"].deleted
  {
    rows := map["t" := Row("d", {Spam}, 0, None, false)];
    q := Many(Claims(true, {}), ["t"], BulkDelete, 0);
    assert q.ids[0] == "t";
  }

  // --- bulk refines single ---

  predicate HasBulkForm(a: Action) {
    a.DoArchive? || a.DoTrash? || a.DoSpam? || a.DoMove? || a.DoRead? || a.DoUnread?
  }

  /** The bulk form of a single-thread request. */
  function BulkForm(a: Action): BulkAction
    requires HasBulkForm(a)
  {
    match a
    case DoRead => BulkRead
    case DoUnread => BulkUnread
    case DoArchive => BulkArchive
    case DoTrash => BulkTrash
    case DoSpam => BulkSpam
    case DoMove(target) => BulkMove(target)
  }

  /** The single-thread handler called for each id in turn. */
  function Fold(claims: Claims, rows: Rows, ids: seq<string>, a: Action, now: int): Rows {
    if ids == [] then rows else Handle(claims, Fold(claims, rows, ids[..|ids| - 1], a, now), ids[|ids| - 1], a, now)
  }

  /** Bulk archive, trash, spam, move, read or unread over any ids, in any order, repeated, visible or not, leaves the
      same rows as the single-thread handler called for each id at one clock value. */
  lemma {:induction false} BulkRefinesSingle(claims: Claims, rows: Rows, ids: seq<string>, a: Action, now: int)
    requires HasBulkForm(a)
    ensures Fold(claims, rows, ids, a, now) == BulkHandle(claims, rows, ids, BulkForm(a), now)
  {
    if ids != [] {
      BulkRefinesSingle(claims, rows, ids[..|ids| - 1], a, now);
      OneMoreId(claims, rows, ids[..|ids| - 1], ids[|ids| - 1], a, now);
      assert ids == ids[..|ids| - 1] + [ids[|ids| - 1]];
    }
  }

  /** One more id in a bulk request is one more single-thread request after it. */
  lemma OneMoreId(claims: Claims, rows: Rows, front: seq<string>, last: string, a: Action, now: int)
    requires HasBulkForm(a)
    ensures Handle(claims, BulkHandle(claims, rows, front, BulkForm(a), now), last, a, now)
         == BulkHandle(claims, rows, front + [last], BulkForm(a), now)
  {
    var before := BulkHandle(claims, rows, front, BulkForm(a), now);
    BulkKeepsAliases(claims, rows, front, a, now);
    if last in rows {
      SameAliasesSameVisibility(claims, rows, before, last);
      AfterTwice(rows[last], a, now);
    }
    assert forall id :: Reaches(claims, rows, front + [last], id) <==>
      Reaches(claims, rows, front, id) || (id == last && Visible(claims, rows, id));
    assert Handle(claims, before, last, a, now).Keys == rows.Keys;
  }

  lemma BulkKeepsAliases(claims: Claims, rows: Rows, ids: seq<string>, a: Action, now: int)
    requires HasBulkForm(a)
    ensures BulkHandle(claims, rows, ids, BulkForm(a), now).Keys == rows.Keys
    ensures forall id :: id in rows ==>
      AliasLabels(BulkHandle(claims, rows, ids, BulkForm(a), now)[id].labels) == AliasLabels(rows[id].labels)
  {
  }

  lemma AfterTwice(r: Row, a: Action, now: int)
    requires HasBulkForm(a)
    ensures After(After(r, a, now), a, now) == After(r, a, now) == BulkAfter(r, BulkForm(a), now)
  {
  }
}
