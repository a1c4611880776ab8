/** The undo button of a move: where it sends a thread back to, and when that is where the thread was. */
module MoveUndo {
  import opened Wrappers
  import opened Labels
  import opened ThreadLists
  import opened ThreadCache
  import opened ThreadServer
  import opened ExactlyOnce

  const DELETED_FOREVER := Custom("deleted_forever")

  /** Where an undo puts a thread back: the inbox when it was there (or is not cached), the archive otherwise. */
  function UndoOrigin(t: Option<Thread>): Label {
    if t.None? || InboxEligible(t.value.labels) then Inbox else Archive
  }

  /** The one destination of a selection: the inbox when any selected thread was there. */
  function BulkUndoOrigin(lists: seq<ThreadList>, ids: seq<string>): Label {
    if ids == [] || exists id :: id in ids && UndoOrigin(FindCached(lists, id)) == Inbox then Inbox else Archive
  }

  /** The row after the undo request: a move back, or the custom label taken off again. */
  function UndoneRow(r: Row, a: Action, origin: Label, now: int): Row
    requires IsMove(a)
  {
    if a.DoMove? && a.target !in MOVE_TARGETS then BulkAfter(r, BulkUnlabel(a.target), now) else Moved(r, origin, now)
  }

  predicate OutOfTrashAndSpam(r: Row) {
    Trash !in r.labels && Spam !in r.labels
  }

  /** What an accepted move and its undo leave. A move to a system folder is undone exactly when the thread was
      in neither trash nor spam, and cached or in the inbox: from trash and spam the undo sends it to the archive,
      and a thread without a copy to the inbox. A move to a custom label is undone exactly when the thread did not
      have the label already. */
  lemma UndoRestoresIff(r: Row, a: Action, t: Option<Thread>, now: int, later: int)
    requires IsMove(a) && TrashOk(r) && (t.Some? ==> Shows(t.value, r))
    requires a.DoMove? ==> a.target in MOVE_TARGETS || (a.target != DELETED_FOREVER && !IsReserved(a.target))
    ensures UndoneRow(After(r, a, now), a, UndoOrigin(t), later) == r <==>
      if a.DoMove? && a.target !in MOVE_TARGETS then a.target !in r.labels
      else OutOfTrashAndSpam(r) && (t.None? ==> Inbox in r.labels)
  {
    var moved := After(r, a, now);
    var undone := UndoneRow(moved, a, UndoOrigin(t), later);
    if a.DoMove? && a.target !in MOVE_TARGETS {
      assert moved.labels == r.labels + {a.target} && undone.labels == r.labels + {a.target} - {a.target};
      if a.target !in r.labels { assert undone.labels == r.labels; }
    } else {
      MovedBack(r, moved, UndoOrigin(t), later);
    }
  }

  /** A row that only the folder labels and the expiry of another one were changed in. */
  predicate Refoldered(a: Row, b: Row) {
    b == a.(labels := b.labels, trashExpiresAt := b.trashExpiresAt)
    && b.labels - {Inbox, Trash, Spam} == a.labels - {Inbox, Trash, Spam}
  }

  /** A move back restores a row exactly when it was in neither trash nor spam, and in the inbox if and only if
      the move goes there. */
  lemma MovedBack(r: Row, moved: Row, origin: Label, later: int)
    requires Refoldered(r, moved) && (origin == Inbox || origin == Archive) && TrashOk(r)
    ensures Moved(moved, origin, later) == r
            <==> OutOfTrashAndSpam(r) && (Inbox in r.labels <==> origin == Inbox)
  {
    var back := Moved(moved, origin, later);
    assert back.labels == moved.labels - {Inbox, Trash, Spam} + (if origin == Inbox then {Inbox} else {});
    if OutOfTrashAndSpam(r) && (Inbox in r.labels <==> origin == Inbox) {
      assert back.labels == r.labels;
    }
  }

  predicate IsFolderAction(action: BulkAction) {
    action.BulkArchive? || action.BulkTrash? || action.BulkSpam? || (action.BulkMove? && action.target in MOVE_TARGETS)
  }

  /** The bulk request behind the undo button of a bulk move. */
  function BulkUndo(lists: seq<ThreadList>, ids: seq<string>, action: BulkAction): BulkAction {
    if action.BulkMove? && action.target !in MOVE_TARGETS then BulkUnlabel(action.target)
    else BulkMove(BulkUndoOrigin(lists, ids))
  }

  lemma BulkUndoOneIff(r: Row, action: BulkAction, origin: Label, now: int, later: int)
    requires IsFolderAction(action) && TrashOk(r) && (origin == Inbox || origin == Archive)
    ensures BulkAfter(BulkAfter(r, action, now), BulkMove(origin), later) == r
            <==> OutOfTrashAndSpam(r) && (Inbox in r.labels <==> origin == Inbox)
  {
    MovedBack(r, BulkAfter(r, action, now), origin, later);
  }

  lemma UnlabelOneIff(r: Row, target: Label, now: int, later: int)
    requires !IsReserved(target)
    ensures BulkAfter(BulkAfter(r, BulkMove(target), now), BulkUnlabel(target), later) == r <==> target !in r.labels
  {
    var back := BulkAfter(BulkAfter(r, BulkMove(target), now), BulkUnlabel(target), later);
    assert back.labels == r.labels + {target} - {target};
    if target !in r.labels { assert back.labels == r.labels; }
  }

  /** The selection a user undoes: threads he can see, in rows where trash label and expiry go together, each with a
      right copy or none in the browser. */
  ghost predicate Undoable(claims: Claims, lists: seq<ThreadList>, rows: Rows, ids: seq<string>) {
    && ids != []
    && (forall id :: id in ids ==> Visible(claims, rows, id) && id in rows && TrashOk(rows[id]))
    && forall id :: id in ids && FindCached(lists, id).Some? ==> Shows(FindCached(lists, id).value, rows[id])
  }

  /** The selected threads are either all in the inbox, or all outside it and cached. */
  predicate OneOrigin(lists: seq<ThreadList>, rows: Rows, ids: seq<string>)
    requires forall id :: id in ids ==> id in rows
  {
    || (forall id :: id in ids ==> Inbox in rows[id].labels)
    || (forall id :: id in ids ==> Inbox !in rows[id].labels && FindCached(lists, id).Some?)
  }

  /** What the undo of a bulk move has to meet. */
  predicate Reversible(lists: seq<ThreadList>, rows: Rows, ids: seq<string>, action: BulkAction)
    requires forall id :: id in ids ==> id in rows
  {
    if action.BulkMove? && action.target !in MOVE_TARGETS
    then forall id :: id in ids ==> action.target !in rows[id].labels
    else (forall id :: id in ids ==> OutOfTrashAndSpam(rows[id])) && OneOrigin(lists, rows, ids)
  }

  /** The moves that come with an undo button. A move to "deleted_forever" has none. */
  predicate OffersUndo(action: BulkAction) {
    IsFolderAction(action)
    || (action.BulkMove? && action.target !in {Custom(""), DELETED_FOREVER} && !IsReserved(action.target))
  }

  /** The rows after a bulk request and the request behind its undo button. */
  function AfterUndo(
    claims: Claims, lists: seq<ThreadList>, rows: Rows, ids: seq<string>, action: BulkAction, now: int, later: int)
    : Rows
  {
    BulkHandle(claims, BulkHandle(claims, rows, ids, action, now), ids, BulkUndo(lists, ids, action), later)
  }

  lemma OutsideStays(
    claims: Claims, lists: seq<ThreadList>, rows: Rows, ids: seq<string>, action: BulkAction, now: int, later: int)
    ensures AfterUndo(claims, lists, rows, ids, action, now, later).Keys == rows.Keys
    ensures forall id :: id in rows && id !in ids ==>
      AfterUndo(claims, lists, rows, ids, action, now, later)[id] == rows[id]
  {
  }

  lemma UndoReaches(
    claims: Claims, lists: seq<ThreadList>, rows: Rows, ids: seq<string>, action: BulkAction, now: int, later: int,
    id: string)
    requires Undoable(claims, lists, rows, ids) && OffersUndo(action) && id in ids
    ensures id in AfterUndo(claims, lists, rows, ids, action, now, later)
    ensures AfterUndo(claims, lists, rows, ids, action, now, later)[id]
         == BulkAfter(BulkAfter(rows[id], action, now), BulkUndo(lists, ids, action), later)
  {
    var mid := BulkHandle(claims, rows, ids, action, now);
    assert mid[id] == BulkAfter(rows[id], action, now);
    SameAliasesAfter(rows[id], action, now);
    SameAliasesSameVisibility(claims, rows, mid, id);
  }

  lemma SameAliasesAfter(r: Row, action: BulkAction, now: int)
    requires OffersUndo(action)
    ensures AliasLabels(BulkAfter(r, action, now).labels) == AliasLabels(r.labels)
  {
  }

  lemma OneRestoredIff(
    lists: seq<ThreadList>, rows: Rows, ids: seq<string>, action: BulkAction, now: int, later: int, id: string)
    requires OffersUndo(action) && id in ids && id in rows && TrashOk(rows[id])
    ensures BulkAfter(BulkAfter(rows[id], action, now), BulkUndo(lists, ids, action), later) == rows[id] <==>
      if action.BulkMove? && action.target !in MOVE_TARGETS then action.target !in rows[id].labels
      else OutOfTrashAndSpam(rows[id]) && (Inbox in rows[id].labels <==> BulkUndoOrigin(lists, ids) == Inbox)
  {
    if action.BulkMove? && action.target !in MOVE_TARGETS {
      UnlabelOneIff(rows[id], action.target, now, later);
    } else {
      BulkUndoOneIff(rows[id], action, BulkUndoOrigin(lists, ids), now, later);
    }
  }

  /** Outside trash and spam, one destination is every thread's own exactly when all have one origin. */
  lemma OneOriginIff(claims: Claims, lists: seq<ThreadList>, rows: Rows, ids: seq<string>)
    requires Undoable(claims, lists, rows, ids) && forall id :: id in ids ==> OutOfTrashAndSpam(rows[id])
    ensures (forall id :: id in ids ==> (Inbox in rows[id].labels <==> BulkUndoOrigin(lists, ids) == Inbox))
            <==> OneOrigin(lists, rows, ids)
  {
    forall id | id in ids
      ensures UndoOrigin(FindCached(lists, id)) == Inbox <==> FindCached(lists, id).None? || Inbox in rows[id].labels
    {
    }
    assert ids[0] in ids;
  }

  /** One undo for a whole selection. It takes every row of the server back to what it was exactly when, for a move
      to a folder, no selected thread was in trash or spam, and all of them were in the inbox or all were outside it
      and cached (a thread without a copy is sent to the inbox); for a move to a custom label, when no selected
      thread had the label. */
  lemma BulkUndoRestoresAllIff(
    claims: Claims, lists: seq<ThreadList>, rows: Rows, ids: seq<string>, action: BulkAction, now: int, later: int)
    requires Undoable(claims, lists, rows, ids) && OffersUndo(action)
    ensures AfterUndo(claims, lists, rows, ids, action, now, later) == rows <==> Reversible(lists, rows, ids, action)
  {
    var back := AfterUndo(claims, lists, rows, ids, action, now, later);
    OutsideStays(claims, lists, rows, ids, action, now, later);
    forall id | id in ids
      ensures id in back
      ensures back[id] == rows[id] <==>
        if action.BulkMove? && action.target !in MOVE_TARGETS then action.target !in rows[id].labels
        else OutOfTrashAndSpam(rows[id]) && (Inbox in rows[id].labels <==> BulkUndoOrigin(lists, ids) == Inbox)
    {
      UndoReaches(claims, lists, rows, ids, action, now, later, id);
      OneRestoredIff(lists, rows, ids, action, now, later, id);
    }
    assert back == rows <==> forall id :: id in ids ==> back[id] == rows[id];
    if forall id :: id in ids ==> OutOfTrashAndSpam(rows[id]) { OneOriginIff(claims, lists, rows, ids); }
  }

  /** An archived thread without a copy in the browser comes back from the trash into the inbox. */
  lemma UncachedUndoGoesToInbox(r: Row, now: int, later: int)
    requires r.labels == {} && r.trashExpiresAt.None?
    ensures var undone := UndoneRow(After(r, DoTrash, now), DoTrash, UndoOrigin(None), later);
      undone.labels == {Inbox} && undone != r
  {
    assert {Trash} + {Inbox} - {Trash} - {Spam} == {Inbox};
  }
}
