/** Where the requests put a thread: the views that list it afterwards, what is left alone, what undoes what, and how
    long the trash keeps it. */
module ThreadFolders {
  import opened Wrappers
  import opened Labels
  import opened ThreadServer

  // --- views ---

  /** No thread is ever out of sight: whatever its labels, it is listed in the inbox, the archive, the trash or under
      spam; and in one of the first two, or else in one of the last two, but not in both. */
  lemma EveryThreadIsListed(labels: set<Label>)
    ensures var inbox, archive := BelongsInView(labels, Inbox), BelongsInView(labels, Archive);
      var away := BelongsInView(labels, Trash) || BelongsInView(labels, Spam);
      && (inbox || archive || away) && !(inbox && archive) && !(away && (inbox || archive))
      && (forall view :: view !in {Inbox, Archive, Trash, Spam} ==>
            (BelongsInView(labels, view) <==> view in labels && !away))
  {
  }

  /** The requests that put a thread into a folder. */
  predicate IsFiling(a: Action) {
    a.DoArchive? || a.DoTrash? || a.DoSpam? || a.DoNotSpam? || (a.DoMove? && a.target in MOVE_TARGETS)
  }

  /** What a filing writes: folder labels and the trash expiry. Stars, aliases, custom labels and the unread count of a
      thread go with it wherever it is put, and a move to a label of one's own only adds that label. */
  lemma FilingKeepsTheRest(r: Row, a: Action, now: int)
    requires IsFiling(a)
    ensures After(r, a, now).labels - {Inbox, Trash, Spam} == r.labels - {Inbox, Trash, Spam}
    ensures var f := After(r, a, now); f == r.(labels := f.labels, trashExpiresAt := f.trashExpiresAt)
    ensures forall l :: l !in MOVE_TARGETS ==> After(r, DoMove(l), now) == r.(labels := r.labels + {l})
  {
  }

  /** Which views list a thread after it was filed. An archived or spam thread that is in the trash stays there; taking
      a thread out of spam brings it into the inbox unless it is in the trash. */
  lemma ListedAfterIff(r: Row, a: Action, view: Label, now: int)
    requires IsFiling(a)
    ensures BelongsInView(After(r, a, now).labels, view) <==>
      match a
      case DoArchive => view != Inbox && (BelongsInView(r.labels, view) || (view == Archive && IsAtHome(r)))
      case DoTrash => view == Trash || (view == Spam && Spam in r.labels)
      case DoSpam => view == Spam || (view == Trash && Trash in r.labels)
      case DoNotSpam => if Trash in r.labels then view == Trash else view == Inbox || IsMark(r, view)
      case DoMove(target) =>
        || view == target || (target == Trash && view == Spam && Spam in r.labels)
        || ((target == Inbox || target == Archive) && IsMark(r, view))
  {
    match a
    case DoMove(target) => MovedIsListedIff(r, target, view, now);
    case _ =>
  }

  lemma MovedIsListedIff(r: Row, target: Label, view: Label, now: int)
    requires target in MOVE_TARGETS
    ensures BelongsInView(Moved(r, target, now).labels, view) <==>
      || view == target || (target == Trash && view == Spam && Spam in r.labels)
      || ((target == Inbox || target == Archive) && IsMark(r, view))
  {
    if view in MOVE_TARGETS { MoveLandsIff(r, target, view, now); }
  }

  predicate IsAtHome(r: Row) {
    Trash !in r.labels && Spam !in r.labels
  }

  /** A label of the thread that is no folder. */
  predicate IsMark(r: Row, view: Label) {
    view in r.labels && view !in MOVE_TARGETS
  }

  // --- what undoes what ---

  /** A report of spam and its withdrawal restore a row exactly when it was in the inbox and not under spam. */
  lemma SpamAndBackIff(r: Row, now: int, later: int)
    ensures After(After(r, DoSpam, now), DoNotSpam, later) == r <==> Inbox in r.labels && Spam !in r.labels
  {
    var back := After(After(r, DoSpam, now), DoNotSpam, later);
    assert back.labels == r.labels - {Spam} + {Inbox};
    if Inbox in r.labels && Spam !in r.labels { assert back.labels == r.labels; }
  }

  /** Marking unread counts one message, whatever there was, and marking read none: each is undone by the other exactly
      where that was the count. Neither changes anything else. */
  lemma MarkAndBackIff(r: Row, now: int, later: int)
    ensures After(After(r, DoUnread, now), DoRead, later) == r <==> r.unread == 0
    ensures After(After(r, DoRead, now), DoUnread, later) == r <==> r.unread == 1
    ensures After(r, DoRead, now).unread == 0 && After(r, DoUnread, now).unread == 1
  {
  }

  /** A star and a mute write one label each; so do the bulk forms of labelling and muting, which are undone exactly
      where they changed something. */
  lemma LabelAndBackIff(r: Row, l: Label, now: int, later: int)
    ensures BulkAfter(BulkAfter(r, BulkLabel(l), now), BulkUnlabel(l), later) == r <==> l !in r.labels
    ensures BulkAfter(BulkAfter(r, BulkUnlabel(l), now), BulkLabel(l), later) == r <==> l in r.labels
    ensures BulkAfter(BulkAfter(r, BulkMute, now), BulkUnmute, later) == r <==> Muted !in r.labels
    ensures BulkAfter(BulkAfter(r, BulkUnmute, now), BulkMute, later) == r <==> Muted in r.labels
    ensures After(r, DoStar(None), now) == r.(labels := After(r, DoStar(None), now).labels)
    ensures After(r, DoStar(None), now).labels - {Starred} == r.labels - {Starred}
    ensures After(r, DoMute, now) == BulkAfter(r, if Muted in r.labels then BulkUnmute else BulkMute, now)
    ensures BulkAfter(r, BulkDismiss, now) == r
  {
    LabelTwice(r.labels, l);
    LabelTwice(r.labels, Muted);
  }

  lemma LabelTwice(labels: set<Label>, l: Label)
    ensures labels + {l} - {l} == labels <==> l !in labels
    ensures labels - {l} + {l} == labels <==> l in labels
  {
    if l !in labels { assert labels + {l} - {l} == labels; }
    if l in labels { assert labels - {l} + {l} == labels; }
  }

  // --- thirty days ---

  /** The requests that put a thread into the trash, one by one or in bulk. */
  function Trashings(r: Row, now: int): set<Row> {
    {After(r, DoTrash, now), After(r, DoMove(Trash), now), BulkAfter(r, BulkTrash, now),
     BulkAfter(r, BulkMove(Trash), now)}
  }

  /** The request passes a thread by. */
  predicate PassesBy(q: Request, id: string) {
    q.CollectTrash? || (q.One? && q.id != id) || (q.Many? && id !in q.ids)
  }

  predicate IsLatePass(q: Request, at: int) {
    q.CollectTrash? && q.now > at
  }

  /** How long the trash keeps a thread: over every run that passes it by, a thread trashed at `now` is deleted exactly
      when the collector makes a pass more than 30 days later. Until then it stays as it is. */
  lemma {:induction false} TrashKeepsThirtyDays(rows: Rows, qs: seq<Request>, id: string, r: Row, now: int)
    requires !r.deleted && id in rows && rows[id] in Trashings(r, now)
    requires forall q :: q in qs ==> PassesBy(q, id)
    ensures id in Run(rows, qs)
    ensures Run(rows, qs)[id].deleted <==> exists q :: q in qs && IsLatePass(q, now + 30 * 24 * 3600)
    ensures !Run(rows, qs)[id].deleted ==> Run(rows, qs)[id] == rows[id]
  {
    if qs != [] {
      assert qs[0] in qs && forall q :: q in qs <==> q == qs[0] || q in qs[1..];
      if IsLatePass(qs[0], now + 30 * 24 * 3600) {
        DeletedForGood(Serve(rows, qs[0]), qs[1..], id);
      } else {
        assert Serve(rows, qs[0])[id] == rows[id];
        TrashKeepsThirtyDays(Serve(rows, qs[0]), qs[1..], id, r, now);
      }
    }
  }

  /** Whatever deletes a live thread strips it of its labels, so that no view lists it, and leaves the rest alone. */
  lemma DeletionStripsLabels(rows: Rows, q: Request, id: string)
    requires id in rows && !rows[id].deleted && Serve(rows, q)[id].deleted
    ensures Serve(rows, q)[id] == rows[id].(labels := {}, deleted := true)
  {
    LeavesLiveSetIff(rows, q, id);
  }

  lemma DeletedForGood(rows: Rows, qs: seq<Request>, id: string)
    requires id in rows && rows[id].deleted
    ensures id in Run(rows, qs) && Run(rows, qs)[id].deleted
  {
    RunKeepsVisibility(rows, qs);
  }

  // --- mail ---

  /** A mail adds one unread message and brings its thread into the inbox, out of the trash, unless it is spam, bounces,
      or the thread is muted or under spam. */
  lemma ReplyResurfacesIff(r: Row, isSpam: bool, isBounce: bool, aliases: set<string>)
    ensures var after := InboundReply(r, isSpam, isBounce, aliases);
      && after.unread == r.unread + 1
      && (InboxEligible(after.labels) <==>
            if isSpam || isBounce then InboxEligible(r.labels)
            else Spam !in r.labels && (Muted !in r.labels || Inbox in r.labels))
      && (Trash in after.labels <==> (isSpam || isBounce) && Trash in r.labels)
      && AwayFromFolders(after.labels) == AwayFromFolders(r.labels)
      && after == r.(labels := after.labels, unread := after.unread)
  {
    var after := InboundReply(r, isSpam, isBounce, aliases);
    forall l: Label | !l.Alias? && l !in {Inbox, Trash}
      ensures l in after.labels <==> l in r.labels
    {
    }
  }

  function AwayFromFolders(labels: set<Label>): set<Label> {
    set l | l in labels && !l.Alias? && l !in {Inbox, Trash}
  }

  /** The first mail of a thread is listed in exactly one view, with one unread message. */
  lemma NewThreadLandsIff(domainId: string, isSpam: bool, isBounce: bool, aliases: set<string>, view: Label)
    requires !view.Alias?
    ensures var r := InboundNew(domainId, isSpam, isBounce, aliases);
      && (BelongsInView(r.labels, view) <==> view == if isSpam then Spam else if isBounce then Trash else Inbox)
      && r.unread == 1 && !r.deleted && r.domainId == domainId
  {
    var r := InboundNew(domainId, isSpam, isBounce, aliases);
    var folder := if isSpam then Spam else if isBounce then Trash else Inbox;
    forall l: Label | !l.Alias?
      ensures l in r.labels <==> l == folder
    {
    }
  }
}
