/** The thread endpoints as the server runs them: one statement on the tables after another. Each handler is
    proved against the functions of `ThreadServer`. */
module ThreadHandlers {
  import opened Wrappers
  import opened Labels
  import opened ThreadServer

  /** The ids of a bulk request that its caller may act on, in the order of the request. */
  function Allowed(claims: Claims, rows: Rows, ids: seq<string>): seq<string> {
    if ids == [] then []
    else
      var last := |ids| - 1;
      Allowed(claims, rows, ids[..last]) + if Visible(claims, rows, ids[last]) then [ids[last]] else []
  }

  lemma {:induction false} AllowedMembers(claims: Claims, rows: Rows, ids: seq<string>)
    ensures forall id :: id in Allowed(claims, rows, ids) <==> Reaches(claims, rows, ids, id)
  {
    if ids != [] {
      AllowedMembers(claims, rows, ids[..|ids| - 1]);
      assert ids == ids[..|ids| - 1] + [ids[|ids| - 1]];
    }
  }

  lemma {:induction false} AdminIsAllowedAll(claims: Claims, rows: Rows, ids: seq<string>)
    requires claims.admin
    ensures Allowed(claims, rows, ids) == ids
  {
    if ids != [] { AdminIsAllowedAll(claims, rows, ids[..|ids| - 1]); }
  }

  /** The ids the event of a bulk request names; none when no event is published. */
  function Notified(claims: Claims, rows: Rows, ids: seq<string>, action: BulkAction): seq<string> {
    if AcceptsLabel(action) then Allowed(claims, rows, ids) else []
  }

  /** The rows with one update made to the named ones. */
  function Updated(rows: Rows, ids: seq<string>, f: Row -> Row): Rows {
    map id | id in rows :: if id in ids then f(rows[id]) else rows[id]
  }

  lemma BulkHandleIsUpdate(claims: Claims, rows: Rows, ids: seq<string>, action: BulkAction, now: int)
    requires AcceptsLabel(action)
    ensures BulkHandle(claims, rows, ids, action, now)
         == Updated(rows, Allowed(claims, rows, ids), (r: Row) => BulkAfter(r, action, now))
  {
    AllowedMembers(claims, rows, ids);
  }

  class ThreadHandler {
    var rows: Rows

    constructor (rows: Rows)
      ensures this.rows == rows
    {
      this.rows := rows;
    }

    // --- the store ---

    method AddLabel(id: string, l: Label)
      modifies this
      ensures rows == Updated(old(rows), [id], (r: Row) => r.(labels := r.labels + {l}))
    {
      BulkAddLabel([id], l);
    }

    method RemoveLabel(id: string, l: Label)
      modifies this
      ensures rows == Updated(old(rows), [id], (r: Row) => r.(labels := r.labels - {l}))
    {
      BulkRemoveLabel([id], l);
    }

    method BulkAddLabel(ids: seq<string>, l: Label)
      modifies this
      ensures rows == Updated(old(rows), ids, (r: Row) => r.(labels := r.labels + {l}))
    {
      rows := map id | id in rows :: if id in ids then rows[id].(labels := rows[id].labels + {l}) else rows[id];
    }

    method BulkRemoveLabel(ids: seq<string>, l: Label)
      modifies this
      ensures rows == Updated(old(rows), ids, (r: Row) => r.(labels := r.labels - {l}))
    {
      rows := map id | id in rows :: if id in ids then rows[id].(labels := rows[id].labels - {l}) else rows[id];
    }

    method RemoveAllLabels(id: string)
      modifies this
      ensures rows == Updated(old(rows), [id], (r: Row) => r.(labels := {}))
    {
      if id in rows { rows := rows[id := rows[id].(labels := {})]; }
    }

    method SetTrashExpiry(ids: seq<string>, now: int)
      modifies this
      ensures rows == Updated(old(rows), ids, (r: Row) => r.(trashExpiresAt := Some(now + TRASH_SECONDS)))
    {
      rows := map id | id in rows ::
        if id in ids then rows[id].(trashExpiresAt := Some(now + TRASH_SECONDS)) else rows[id];
    }

    method ClearTrashExpiry(ids: seq<string>)
      modifies this
      ensures rows == Updated(old(rows), ids, (r: Row) => r.(trashExpiresAt := None))
    {
      rows := map id | id in rows :: if id in ids then rows[id].(trashExpiresAt := None) else rows[id];
    }

    method BulkUpdateUnread(ids: seq<string>, count: nat)
      modifies this
      ensures rows == Updated(old(rows), ids, (r: Row) => r.(unread := count))
    {
      rows := map id | id in rows :: if id in ids then rows[id].(unread := count) else rows[id];
    }

    method BulkSoftDelete(ids: seq<string>)
      modifies this
      ensures rows == Updated(old(rows), ids, (r: Row) => r.(deleted := true))
    {
      rows := map id | id in rows :: if id in ids then rows[id].(deleted := true) else rows[id];
    }

    /** The named threads that carry trash or spam, each once. */
    method FilterTrashThreadIDs(ids: seq<string>) returns (trashIDs: seq<string>)
      ensures forall id :: id in trashIDs <==>
        id in ids && id in rows && (Trash in rows[id].labels || Spam in rows[id].labels)
    {
      trashIDs := [];
      for i := 0 to |ids|
        invariant forall id :: id in trashIDs <==>
          id in ids[..i] && id in rows && (Trash in rows[id].labels || Spam in rows[id].labels)
      {
        if ids[i] in rows && ids[i] !in trashIDs && (Trash in rows[ids[i]].labels || Spam in rows[ids[i]].labels) {
          trashIDs := trashIDs + [ids[i]];
        }
      }
    }

    // --- one thread ---

    /** A move to the inbox restores from trash and spam. */
    method MoveToInbox(ids: seq<string>, ghost now: int)
      modifies this
      ensures rows == Updated(old(rows), ids, (r: Row) => Moved(r, Inbox, now))
    {
      BulkAddLabel(ids, Inbox);
      BulkRemoveLabel(ids, Trash);
      BulkRemoveLabel(ids, Spam);
      ClearTrashExpiry(ids);
    }

    method MoveToTrash(ids: seq<string>, now: int)
      modifies this
      ensures rows == Updated(old(rows), ids, (r: Row) => Moved(r, Trash, now))
    {
      BulkAddLabel(ids, Trash);
      SetTrashExpiry(ids, now);
    }

    /** A move to spam restores from trash. */
    method MoveToSpam(ids: seq<string>, ghost now: int)
      modifies this
      ensures rows == Updated(old(rows), ids, (r: Row) => Moved(r, Spam, now))
    {
      BulkAddLabel(ids, Spam);
      BulkRemoveLabel(ids, Trash);
      ClearTrashExpiry(ids);
    }

    /** A move to the archive restores from trash and spam. */
    method MoveToArchive(ids: seq<string>, ghost now: int)
      modifies this
      ensures rows == Updated(old(rows), ids, (r: Row) => Moved(r, Archive, now))
    {
      BulkRemoveLabel(ids, Inbox);
      BulkRemoveLabel(ids, Trash);
      BulkRemoveLabel(ids, Spam);
      ClearTrashExpiry(ids);
    }

    /** The destination rules shared by the single and the bulk move. */
    method MoveThreads(ids: seq<string>, target: Label, now: int)
      modifies this
      ensures rows == Updated(old(rows), ids, (r: Row) => Moved(r, target, now))
    {
      match target
      case Inbox => MoveToInbox(ids, now);
      case Trash => MoveToTrash(ids, now);
      case Spam => MoveToSpam(ids, now);
      case Archive => MoveToArchive(ids, now);
      case _ => BulkAddLabel(ids, target);
    }

    method Move(claims: Claims, id: string, target: Label, now: int) returns (reply: Reply)
      modifies this
      ensures reply == ReplyTo(claims, old(rows), id, DoMove(target))
      ensures rows == Handle(claims, old(rows), id, DoMove(target), now)
    {
      if target == Custom("") { return BadRequest; }
      if !Visible(claims, rows, id) { return NotFound; }
      if target !in MOVE_TARGETS && IsReserved(target) { return BadRequest; }
      if id !in rows { return NotFound; }
      MoveThreads([id], target, now);
      return Done;
    }

    method MarkRead(claims: Claims, id: string, now: int) returns (reply: Reply)
      modifies this
      ensures reply == ReplyTo(claims, old(rows), id, DoRead)
      ensures rows == Handle(claims, old(rows), id, DoRead, now)
    {
      if id !in rows || !Visible(claims, rows, id) { return NotFound; }
      BulkUpdateUnread([id], 0);
      return Done;
    }

    method MarkUnread(claims: Claims, id: string, now: int) returns (reply: Reply)
      modifies this
      ensures reply == ReplyTo(claims, old(rows), id, DoUnread)
      ensures rows == Handle(claims, old(rows), id, DoUnread, now)
    {
      if id !in rows || !Visible(claims, rows, id) { return NotFound; }
      BulkUpdateUnread([id], 1);
      return Done;
    }

    method Star(claims: Claims, id: string, want: Option<bool>, now: int) returns (reply: Reply)
      modifies this
      ensures reply == ReplyTo(claims, old(rows), id, DoStar(want))
      ensures rows == Handle(claims, old(rows), id, DoStar(want), now)
    {
      if id !in rows || !Visible(claims, rows, id) { return NotFound; }
      var wantStarred := if want.Some? then want.value else Starred !in rows[id].labels;
      if wantStarred { AddLabel(id, Starred); } else { RemoveLabel(id, Starred); }
      return Done;
    }

    method Mute(claims: Claims, id: string, now: int) returns (reply: Reply)
      modifies this
      ensures reply == ReplyTo(claims, old(rows), id, DoMute)
      ensures rows == Handle(claims, old(rows), id, DoMute, now)
    {
      if id !in rows || !Visible(claims, rows, id) { return NotFound; }
      if Muted in rows[id].labels { RemoveLabel(id, Muted); } else { AddLabel(id, Muted); }
      return Done;
    }

    method ArchiveThread(claims: Claims, id: string, now: int) returns (reply: Reply)
      modifies this
      ensures reply == ReplyTo(claims, old(rows), id, DoArchive)
      ensures rows == Handle(claims, old(rows), id, DoArchive, now)
    {
      if id !in rows || !Visible(claims, rows, id) { return NotFound; }
      RemoveLabel(id, Inbox);
      return Done;
    }

    method TrashThread(claims: Claims, id: string, now: int) returns (reply: Reply)
      modifies this
      ensures reply == ReplyTo(claims, old(rows), id, DoTrash)
      ensures rows == Handle(claims, old(rows), id, DoTrash, now)
    {
      if id !in rows || !Visible(claims, rows, id) { return NotFound; }
      AddLabel(id, Trash);
      SetTrashExpiry([id], now);
      return Done;
    }

    method SpamThread(claims: Claims, id: string, notSpam: bool, now: int) returns (reply: Reply)
      modifies this
      ensures reply == ReplyTo(claims, old(rows), id, if notSpam then DoNotSpam else DoSpam)
      ensures rows == Handle(claims, old(rows), id, if notSpam then DoNotSpam else DoSpam, now)
    {
      if id !in rows || !Visible(claims, rows, id) { return NotFound; }
      if notSpam {
        RemoveLabel(id, Spam);
        AddLabel(id, Inbox);
      } else {
        AddLabel(id, Spam);
      }
      return Done;
    }

    method DeleteThread(claims: Claims, id: string, now: int) returns (reply: Reply)
      modifies this
      ensures reply == ReplyTo(claims, old(rows), id, DoDelete)
      ensures rows == Handle(claims, old(rows), id, DoDelete, now)
    {
      if id !in rows || !Visible(claims, rows, id) { return NotFound; }
      if Trash !in rows[id].labels { return NotFound; }
      RemoveAllLabels(id);
      BulkSoftDelete([id]);
      return Done;
    }

    // --- many threads ---

    /** The ids of a request that the caller may act on: a member's are filtered one by one. */
    method FilterAllowed(claims: Claims, ids: seq<string>) returns (allowed: seq<string>)
      ensures allowed == Allowed(claims, rows, ids)
    {
      if claims.admin {
        AdminIsAllowedAll(claims, rows, ids);
        return ids;
      }
      allowed := [];
      for i := 0 to |ids|
        invariant allowed == Allowed(claims, rows, ids[..i])
      {
        assert ids[..i + 1][..i] == ids[..i];
        if Visible(claims, rows, ids[i]) { allowed := allowed + [ids[i]]; }
      }
      assert ids[..|ids|] == ids;
    }

    /** Deletes those of the named threads that carry trash or spam. */
    method BulkDeleteThreads(ids: seq<string>, now: int)
      modifies this
      ensures rows == Updated(old(rows), ids, (r: Row) => BulkAfter(r, BulkDelete, now))
    {
      var trashIDs := FilterTrashThreadIDs(ids);
      ghost var before := rows;
      for i := 0 to |trashIDs|
        invariant rows == Updated(before, trashIDs[..i], (r: Row) => r.(labels := {}))
      {
        RemoveAllLabels(trashIDs[i]);
      }
      assert trashIDs[..|trashIDs|] == trashIDs;
      BulkSoftDelete(trashIDs);
    }

    /** The store updates of one accepted bulk action. */
    method BulkApply(ids: seq<string>, action: BulkAction, now: int)
      requires AcceptsLabel(action)
      modifies this
      ensures rows == Updated(old(rows), ids, (r: Row) => BulkAfter(r, action, now))
    {
      match action
      case BulkArchive => BulkRemoveLabel(ids, Inbox);
      case BulkTrash =>
        BulkAddLabel(ids, Trash);
        SetTrashExpiry(ids, now);
      case BulkSpam => BulkAddLabel(ids, Spam);
      case BulkRead => BulkUpdateUnread(ids, 0);
      case BulkUnread => BulkUpdateUnread(ids, 1);
      case BulkMove(target) => MoveThreads(ids, target, now);
      case BulkLabel(target) => BulkAddLabel(ids, target);
      case BulkUnlabel(target) => BulkRemoveLabel(ids, target);
      case BulkMute => BulkAddLabel(ids, Muted);
      case BulkUnmute => BulkRemoveLabel(ids, Muted);
      case BulkDelete => BulkDeleteThreads(ids, now);
      case BulkDismiss => assert rows == Updated(rows, ids, (r: Row) => BulkAfter(r, BulkDismiss, now));
    }

    /** The bulk endpoint: filter, check the label, update, publish. `notified` is what the event names. */
    method BulkRequest(claims: Claims, ids: seq<string>, action: BulkAction, now: int)
      returns (reply: Reply, notified: seq<string>)
      modifies this
      ensures reply == BulkReplyTo(claims, old(rows), ids, action)
      ensures rows == BulkHandle(claims, old(rows), ids, action, now)
      ensures notified == Notified(claims, old(rows), ids, action)
    {
      var allowed := FilterAllowed(claims, ids);
      AllowedMembers(claims, rows, ids);
      if AcceptsLabel(action) { BulkHandleIsUpdate(claims, rows, ids, action, now); }
      if |allowed| == 0 {
        assert Updated(rows, [], (r: Row) => BulkAfter(r, action, now)) == rows;
        assert forall id :: id in ids ==> !Reaches(claims, rows, ids, id);
        return Done, [];
      }
      assert Reaches(claims, rows, ids, allowed[0]);
      var bad :=
        match action
        case BulkMove(target) => target == Custom("") || (target !in MOVE_TARGETS && IsReserved(target))
        case BulkLabel(target) => target == Custom("") || IsReserved(target)
        case BulkUnlabel(target) => target == Custom("") || IsReserved(target)
        case _ => false;
      if bad { return BadRequest, []; }
      BulkApply(allowed, action, now);
      return Done, allowed;
    }

    /** One pass of the trash collector: find the expired threads, delete them, drop their labels. */
    method CollectExpired(now: int)
      modifies this
      ensures rows == Collect(old(rows), now)
    {
      var expired := set id | id in rows && Expired(rows[id], now);
      rows := map id | id in rows :: if id in expired then rows[id].(deleted := true) else rows[id];
      rows := map id | id in rows :: if id in expired then rows[id].(labels := {}) else rows[id];
    }
  }
}
