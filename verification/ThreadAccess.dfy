/** Who reaches which thread, told from the alias labels of the thread and the addresses of the caller alone. */
module ThreadAccess {
  import opened Wrappers
  import opened Labels
  import opened ThreadServer
  import opened ThreadHandlers

  /** The thread is stamped with one of the caller's own addresses. */
  ghost predicate IsAddressee(claims: Claims, r: Row) {
    exists a :: a in claims.aliases && Alias(a) in r.labels
  }

  ghost predicate MayAct(claims: Claims, r: Row) {
    claims.admin || IsAddressee(claims, r)
  }

  lemma VisibleIff(claims: Claims, rows: Rows, id: string)
    ensures Visible(claims, rows, id) <==> claims.admin || (id in rows && IsAddressee(claims, rows[id]))
  {
    if id in rows && IsAddressee(claims, rows[id]) {
      var a :| a in claims.aliases && Alias(a) in rows[id].labels;
      assert Alias(a).address in claims.aliases;
    }
    if !claims.admin && Visible(claims, rows, id) {
      var l :| l in rows[id].labels && l.Alias? && l.address in claims.aliases;
      assert Alias(l.address) == l;
    }
  }

  /** A member who is no addressee of a thread, and an id that is no thread. */
  ghost predicate IsStranger(claims: Claims, rows: Rows, id: string) {
    !claims.admin && (id in rows ==> !IsAddressee(claims, rows[id]))
  }

  /** Whatever a stranger asks, of one thread or of many, the thread stays as it is, the reply is that there is no such
      thread (or that its label is missing), and no event names it. */
  lemma StrangerIsTurnedAway(rows: Rows, q: Request, id: string)
    requires !q.CollectTrash? && IsStranger(q.claims, rows, id)
    ensures id in Serve(rows, q) <==> id in rows
    ensures id in rows ==> Serve(rows, q)[id] == rows[id]
    ensures q.One? && q.id == id ==>
      ReplyTo(q.claims, rows, id, q.action) == if q.action == DoMove(Custom("")) then BadRequest else NotFound
    ensures q.Many? ==> id !in Notified(q.claims, rows, q.ids, q.bulk)
  {
    VisibleIff(q.claims, rows, id);
    if q.Many? { AllowedMembers(q.claims, rows, q.ids); }
  }

  /** So it goes over every run: as long as only strangers ask, a thread stays as it is. */
  lemma {:induction false} StrangersNeverReach(rows: Rows, qs: seq<Request>, id: string)
    requires id in rows && forall q :: q in qs ==> !q.CollectTrash? && IsStranger(q.claims, rows, id)
    ensures id in Run(rows, qs) && Run(rows, qs)[id] == rows[id]
  {
    if qs != [] {
      assert qs[0] in qs && forall q :: q in qs[1..] ==> q in qs;
      StrangerIsTurnedAway(rows, qs[0], id);
      StrangersNeverReach(Serve(rows, qs[0]), qs[1..], id);
    }
  }

  /** A label a user may move threads to: one of the four folders, "muted", or a label of his own. */
  predicate IsDestination(l: Label) {
    l in {Inbox, Archive, Trash, Spam, Muted} || (l.Custom? && l.name != "")
  }

  /** Which single-thread requests are accepted: the thread exists, the caller is an admin or an addressee, a move goes
      to a label that can be moved to, and a delete is made from the trash. Of the others, only a move to another label
      by somebody who could move the thread, or to none, is told what is wrong. */
  lemma AcceptedIff(claims: Claims, rows: Rows, id: string, a: Action)
    ensures ReplyTo(claims, rows, id, a).Done? <==>
      && id in rows && MayAct(claims, rows[id])
      && (a.DoMove? ==> IsDestination(a.target))
      && (a.DoDelete? ==> Trash in rows[id].labels)
    ensures ReplyTo(claims, rows, id, a).BadRequest? <==>
      && a.DoMove? && !IsDestination(a.target)
      && (a.target == Custom("") || claims.admin || (id in rows && IsAddressee(claims, rows[id])))
  {
    VisibleIff(claims, rows, id);
  }

  /** An accepted archive takes the thread out of the inbox; nobody else's does. */
  lemma ArchivesIff(claims: Claims, rows: Rows, id: string, now: int)
    requires id in rows && Inbox in rows[id].labels
    ensures Inbox !in Handle(claims, rows, id, DoArchive, now)[id].labels <==> MayAct(claims, rows[id])
  {
    AcceptedIff(claims, rows, id, DoArchive);
  }

  /** Which threads a bulk request changes and announces: those it names and the caller may act on. An admin's event
      also names ids that are no threads. */
  lemma BulkReachesIff(claims: Claims, rows: Rows, ids: seq<string>, bulk: BulkAction, id: string, now: int)
    requires AcceptsLabel(bulk)
    ensures id in Notified(claims, rows, ids, bulk)
            <==> id in ids && (claims.admin || (id in rows && IsAddressee(claims, rows[id])))
    ensures id in rows ==> Serve(rows, Many(claims, ids, bulk, now)).Keys == rows.Keys
    ensures id in rows ==>
      Serve(rows, Many(claims, ids, bulk, now))[id]
        == if id in ids && MayAct(claims, rows[id]) then BulkAfter(rows[id], bulk, now) else rows[id]
  {
    VisibleIff(claims, rows, id);
    AllowedMembers(claims, rows, ids);
  }

  /** A bulk request is refused for its label alone, and only if it names a thread within its caller's reach. */
  lemma BulkRefusedIff(claims: Claims, rows: Rows, ids: seq<string>, bulk: BulkAction)
    ensures BulkReplyTo(claims, rows, ids, bulk).BadRequest? <==>
      !AcceptsLabel(bulk) && exists id :: id in ids && (claims.admin || (id in rows && IsAddressee(claims, rows[id])))
    ensures !BulkReplyTo(claims, rows, ids, bulk).NotFound?
  {
    forall id | id in ids
      ensures Visible(claims, rows, id) <==> claims.admin || (id in rows && IsAddressee(claims, rows[id]))
    {
      VisibleIff(claims, rows, id);
    }
  }

  /** Which labels a bulk request may move threads to, put on, and take off. */
  lemma BulkLabelsIff(target: Label)
    ensures AcceptsLabel(BulkMove(target)) <==> IsDestination(target)
    ensures AcceptsLabel(BulkLabel(target)) <==> target == Muted || (target.Custom? && target.name != "")
    ensures AcceptsLabel(BulkUnlabel(target)) <==> AcceptsLabel(BulkLabel(target))
  {
  }

  // --- mail ---

  /** A mail opens its thread to the members at whose addresses it arrived, and closes it to nobody. */
  lemma MailReachesIff(r: Row, claims: Claims, isSpam: bool, isBounce: bool, aliases: set<string>)
    ensures IsAddressee(claims, InboundReply(r, isSpam, isBounce, aliases))
            <==> IsAddressee(claims, r) || claims.aliases * aliases != {}
    ensures IsAddressee(claims, InboundNew(r.domainId, isSpam, isBounce, aliases)) <==> claims.aliases * aliases != {}
  {
    var after, first := InboundReply(r, isSpam, isBounce, aliases), InboundNew(r.domainId, isSpam, isBounce, aliases);
    forall a: string
      ensures Alias(a) in after.labels <==> Alias(a) in r.labels || a in aliases
      ensures Alias(a) in first.labels <==> a in aliases
    {
    }
    AddressedIff(claims, after, r, aliases);
    AddressedIff(claims, first, r.(labels := {}), aliases);
  }

  lemma AddressedIff(claims: Claims, after: Row, r: Row, aliases: set<string>)
    requires forall a :: Alias(a) in after.labels <==> Alias(a) in r.labels || a in aliases
    ensures IsAddressee(claims, after) <==> IsAddressee(claims, r) || claims.aliases * aliases != {}
  {
    if IsAddressee(claims, after) && claims.aliases * aliases == {} {
      var a :| a in claims.aliases && Alias(a) in after.labels;
      assert a !in claims.aliases * aliases;
    }
    if claims.aliases * aliases != {} {
      var a :| a in claims.aliases * aliases;
      assert Alias(a) in after.labels;
    }
  }

  lemma SameAddressees(claims: Claims, a: Row, b: Row)
    requires AliasLabels(a.labels) == AliasLabels(b.labels)
    ensures IsAddressee(claims, a) <==> IsAddressee(claims, b)
  {
    forall x: string
      ensures Alias(x) in a.labels <==> Alias(x) in b.labels
    {
      assert Alias(x) in a.labels <==> Alias(x) in AliasLabels(a.labels);
      assert Alias(x) in b.labels <==> Alias(x) in AliasLabels(b.labels);
    }
  }

  /** Whoever a thread's first mail was addressed to can archive it after every run of requests that leaves it live;
      and no other member can, over every run. */
  lemma AddresseesKeepReaching(
    rows: Rows, qs: seq<Request>, id: string, claims: Claims, isSpam: bool, isBounce: bool, aliases: set<string>)
    requires id in rows && rows[id] == InboundNew(rows[id].domainId, isSpam, isBounce, aliases)
    requires !claims.admin && id in Run(rows, qs) && !Run(rows, qs)[id].deleted
    ensures ReplyTo(claims, Run(rows, qs), id, DoArchive).Done? <==> claims.aliases * aliases != {}
  {
    var end := Run(rows, qs);
    RunKeepsVisibility(rows, qs);
    SameAddressees(claims, rows[id], end[id]);
    MailReachesIff(rows[id], claims, isSpam, isBounce, aliases);
    AcceptedIff(claims, end, id, DoArchive);
  }
}
