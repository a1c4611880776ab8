# Verification of inboxes

Inboxes is a shared mail client. A Go server keeps threads, outgoing mail, agent credentials and billing in
PostgreSQL tables; a React client keeps cached thread lists and unread badges and updates them without refetching,
from optimistic edits and from WebSocket events. This project models that logic in Dafny and proves what the two
sides promise, separately and together.

The project has five parts.

**Thread labels and the client cache.** `Labels` and `ThreadLists` hold label sets, the view predicate and the list
operations (find, map, filter, stable sort); `LabelArrays` relates the sets to the arrays of names. `ThreadServer`
says what each thread request does to a row and `ThreadHandlers` is the handler as the server runs it, statement by
statement; `ThreadAccess` says who reaches which thread, and `ThreadFolders` where a request puts it, what undoes
what and how long the trash keeps it. `ThreadCache` says what one event does to the cached lists and badges and
`Optimistic` what one optimistic edit does; `QueryCaches` is the reducer and the mutations as the client runs them,
with their loops, maps and overwritten fields. `Placement` says what each list shows of each thread after every
event, edit and run of them. Around them: the list invariant (`CacheInvariants`, `CacheSteps`), star and mute events
of any payload (`StarsAndMutes`), which lists show only what belongs in their view (`ListViews`), the badge as an
index of the inbox list (`UnreadBadge`), the order that an unsorted branch keeps (`ListOrder`), redelivery
(`Redelivery`), runs of events and edits (`CacheRuns`), an action and its echo (`ExactlyOnce`), events outside one
domain or with repeated ids (`Leaks`), the undo button (`MoveUndo`), client labels against server labels
(`LabelSync`), server and browser in one state machine (`BadgeTruth`), and by how much the badge leaves the server's
count where it does (`BadgeDrift`).

**Outgoing mail.** `Outbox` is the tables of threads, emails, send jobs and drafts under send, retry, undo, schedule
and the send worker. `OutboxRefs` proves referential integrity, `OutboxRuns` the conservation of sends and the
finality of an undo over all interleavings, `OutboxUndo` what an undo restores, `OutboxSchedules` when a scheduled
send can leave early, `OutboxStuck` which steps strand an email and what the reconciler gives back, `OutboxRows` who
may do what and what each step makes of each row, and `OutboxDeliveries` what becomes of a message over a run;
`OutboxHandlers` is the handlers.

**Agent credentials.** `Credentials` is authorization codes, rotating refresh tokens and exchanged keys;
`CredentialRuns` the lifetime bound, single use, revocation and the key cap; `ConsentBound` a run that reaches the
bound; `CodeGrants` which token request gets a credential for an approval, over every run in between; `TokenLives`
how long each credential lives and what ends it; `CredentialHandlers` the endpoints.

**Billing.** `Billing` is the fold of webhook deliveries with dedup and the grace-period worker, `BillingDeadlines`
what starts, stops and leaves alone the clock of a grace period, `BillingHandlers` the endpoints.

**Search text.** `LikePattern` is the three-pass escaper against a matcher for LIKE patterns.

## What is assumed

- Each handler and each worker step is one atomic step, and store writes succeed. Redis queues are not state: a
  worker may take up any job its own skip test lets through, at any time.
- New ids, codes and tokens are fresh, and hashes are injective, so a token stands for its hash.
- Label arrays are sets, which `LabelArrays` justifies. Every cached list has a domain and a view in its key, and
  one page; the inbox is cached in full. Times are whole seconds.
- An event is addressed when its payload has the id and domain of its thread. A star or mute event may bring any
  labels that leave the thread in the inbox or out of it, and a star event the unread count of the cached copies;
  that this much is necessary is `StepKeepsCacheIff`, and that the server's own payloads do is part of
  `HappeningKeepsTracks`. A bulk event may repeat ids that no list takes in; `Leaks` treats the others.
- Cached copies of one thread agree on labels and unread count. What they display may differ
  (`StepKeepsIdenticalIff`).
- ILIKE folds case character by character. Whether a mail call succeeds, and what a redirect URI parses to, is
  given.
- The effect of store methods is taken from their SQL, and foreign keys from the migrations.

## Where code and expectation part

The member that states each of these is named with it.

- A sent email never adjusts the badge, so its payload must contribute what the cached copy did
  (`SentKeepsBadgeIff`, `SentLeavesBadge`).
- The moved and the starred branch of the reducer never compare domains and put a thread into another domain's list
  whenever it belongs in that view (`MoveLeaksIff`, `StarLeaksIff`, `ForeignThreadIsListed`); no other event about
  one thread does (`OthersStayOkIff`). A bulk event that repeats an id lists a joining thread twice
  (`RepeatsKeepDistinctIff`), while the badge counts it once (`RepeatsDriftBadge`). The single-thread move lowers
  every list's total (`OneMoveKeepsTotalIff`).
- After a bulk move to the archive from trash or spam, or to spam from trash, client and server labels differ
  (`StepEqualIff`, `TrashStaysInBrowser`).
- An undo from trash or spam does not put the thread back, an undo of a mixed selection moves all of it to the
  inbox, and so does the undo of an archived thread without a cached copy (`UndoRestoresIff`,
  `BulkUndoRestoresAllIff`, `UncachedUndoGoesToInbox`).
- After such a bulk move a star or mute event brings the server's labels and leaves the entry where it is, so that
  the trash list shows a thread that carries no trash (`StepKeepsViewIff`, `StarredInTrashList`); a list like that
  can also fall out of order (`OutOfViewBreaksOrder`). The badge stays right.
- A star event that took a thread into the inbox would leave badge and list right only until the thread is next
  marked unread (`StarIntoInboxDrifts`).
- The bulk delete also deletes spam, where the single delete needs trash (`LeavesLiveSetIff`, `BulkDeleteFromSpam`).
- A reply that pulls a thread out of the trash leaves its expiry, and a bounce enters the trash without one, so the
  collector never reaches it (`InboundReplyKeepsTrashIff`, `InboundNewKeepsTrashIff`).
- Thread handlers act on deleted threads too and publish them: a move, or an incoming mail, then raises the badge by
  messages the server no longer counts (`DeletedActKeepsBadgeIff`, `DeletedMailKeepsBadgeIff`,
  `DeletedMoveRaisesBadge`).
- A bulk event carries no threads, and a bulk delete names threads it does not delete: the badge then misses exactly
  the unread messages of the named threads that stay eligible without a copy (`BulkBadgeMisses`,
  `BulkKeepsBadgeIff`, `UncachedBulkMoveIsMissed`, `BulkDeleteFromInboxDrops`). `BadgeIsTrueAfterRun` asks for runs
  without these.
- The draft that undoing a direct send leaves names the thread the send made, and its foreign key then keeps that
  thread, without labels (`DirectSendThenUndo`). Undoing a send whose draft was deleted leaves no draft
  (`UndoGivesDraftBackIff`).
- The worker's skip test lets running jobs through, so that one job can be sent any number of times
  (`SendsAreUnbounded`); a step keeps the balance of claims exactly when it takes up a pending job or none
  (`BalancesIff`, `SendsAreConserved`). A retry is accepted while a worker is sending, and then a mail can go out
  although its undo was accepted (`RetryInFlightOvertakesUndo`): an undo is final exactly when no worker holds its
  job (`UndoIsFinalIff`).
- A worker that takes up one job takes every other pending one along, so a scheduled send can leave before its time
  (`ScheduledLeavesEarly`), unless no worker jumps the queue (`WaitsForItsTimeIff`). The undo of a scheduled send
  leaves its draft marked as scheduled, and the schedule can then not be cancelled (`ScheduleThenUndo`).
- A worker's panic leaves its email queued with no job to send it, until the reconciler finds it (`StrandsIff`,
  `ReconcileUnsticksIff`).
- The code grant ignores the key cap (`CodeGrantIgnoresCap`).
- The notice pass of the grace-period worker can stamp an organisation that has just paid
  (`LateNoticeKeepsClearIff`), and an organisation past due and past its deadline is reported read-only while the
  worker still sends for it (`ReadOnlyMaySendIff`). A pause and three of the subscription updates set no deadline;
  such an organisation is never reported read-only (`PaidLapsesIff`), and a cancelled one cannot send all the same
  (`SilentlyBlockedIff`). A status update that reaches an organisation after its lapse takes it off read-only again,
  with no deadline, and one to past due gives it its sending back (`GraceEndsIff`, `StatusUpdateRevives`).
- The list of refused redirect schemes decides nothing: none of them has the dot the policy asks for
  (`RedirectPolicyIff`).

## Model

| member | source | states |
|---|---|---|
| `Labels.ReservedNames` | backend/internal/handler/labels.go:20-28 | the reservation test on modelled labels is the program's test on names: the seven system names and the alias prefix |
| `LabelArrays.NamesRefineLabels` | frontend/hooks/use-ws-sync.ts:60-101 | the array of names the browser computes lists exactly the labels of the modelled set, for every action and label name; no two names are one label |
| `LabelArrays.NamesStayDistinct` | frontend/hooks/use-ws-sync.ts:67-96 | an array without repeats stays without repeats |
| `LabelArrays.ViewsAgree` | frontend/lib/types.ts:66-71 | the view test on names is the view test on label sets |
| `Labels.NeverLeaveAndJoin` | frontend/hooks/use-ws-sync.ts:619-656 | no bulk action makes one thread leave a view and another join it |
| `Labels.ApplyBulkLabelsIdempotent` | frontend/hooks/use-ws-sync.ts:60-101 | repeating a bulk label change changes nothing more |
| `ThreadLists.SortFacts` | frontend/hooks/use-ws-sync.ts:182-191 | the newest-first sort permutes the list, keeps ids distinct and leaves it newest first |
| `ThreadLists.SortOfSorted` | frontend/hooks/use-ws-sync.ts:171-180 | the sort is stable: a list in order stays as it is |
| `CacheSteps.StepKeepsCache` | frontend/hooks/use-ws-sync.ts:123-676 | every event keeps distinct ids, one domain, copies that agree on labels and unread count, and an inbox that shows every eligible cached thread and no other |
| `StarsAndMutes.StepKeepsCacheIff` | frontend/hooks/use-ws-sync.ts:252-349 | a star or mute event of any payload keeps that invariant iff it leaves the thread in the inbox or out of it and, if a starred list takes the thread in, has the unread count of the copies |
| `StarsAndMutes.StarKeepsAgreementIff` | frontend/hooks/use-ws-sync.ts:283-312 | a star event keeps the copies in agreement iff a starred list takes the thread in with their unread count |
| `StarsAndMutes.StepKeepsIdenticalIff` | frontend/hooks/use-ws-sync.ts:123-676 | copies that are the same in everything stay so under every event iff a starred list takes in what the other lists have |
| `StarsAndMutes.StarIntoInboxDrifts` | frontend/hooks/use-ws-sync.ts:302-312 | an input that is excluded: a read archived thread starred into the inbox, whose badge and list part when it is marked unread |
| `ListViews.StepKeepsViewIff` | frontend/hooks/use-ws-sync.ts:252-349 | every event of any payload leaves a list showing only what belongs there iff it is no star or mute event of a thread the list goes on holding and that does not belong |
| `ListViews.OneLabelKeepsView` | frontend/hooks/use-ws-sync.ts:300-312 | which is so when the payload differs from the listed copy in the starred, or muted, label alone, outside the muted view |
| `Placement.StepShows` | frontend/hooks/use-ws-sync.ts:123-676 | one thread at a time: what each list shows of each thread after each event, told from what was shown before, whatever finds, filters, maps and sorts it takes |
| `Placement.EditShows` | frontend/hooks/use-threads.ts:71-308 | the same for each optimistic edit |
| `Placement.LastWordStands` | frontend/hooks/use-ws-sync.ts:162-206 | once an email or a move has brought a thread, over every run of events and edits about others, each list shows it as it came iff it belongs there |
| `Placement.GoneStaysGone` | frontend/hooks/use-ws-sync.ts:399-501 | once an event or an edit has taken a thread away, no list shows it over every run about others |
| `Placement.EchoTellsTheRow` | frontend/hooks/use-ws-sync.ts:252-501 | after the echo of an accepted action, the copies the browser has carry the labels of the server's row, or its unread count if that was marked, and none is left of a deleted thread |
| `CacheSteps.StepTotal` | frontend/hooks/use-ws-sync.ts:162-676 | through every event a list's total follows its length down to zero; `total - length` is constant iff the list does not shrink by more than its total |
| `UnreadBadge.InboxSumChange` | frontend/hooks/use-ws-sync.ts:40-44 | the inbox sum changes by new contribution less old over the threads an event names |
| `UnreadBadge.BulkDeltaIsNetChange` | frontend/hooks/use-ws-sync.ts:510-563 | the per-domain deltas of a bulk event add up to the net change of contributions, each thread counted once however often it is named |
| `UnreadBadge.StepKeepsBadge` | frontend/hooks/use-ws-sync.ts:46-57 | one event keeps the badge equal to the inbox sum, and the clamp at zero does not fire |
| `UnreadBadge.SentKeepsBadgeIff` | frontend/hooks/use-ws-sync.ts:213-221 | a sent event keeps the badge right iff its payload contributes what the cached copy did |
| `UnreadBadge.SentLeavesBadge` | frontend/hooks/use-ws-sync.ts:213-221 | an input where it does not: a sent mail that reports an unread thread as read |
| `ListOrder.SameLengthSameThreads` | frontend/hooks/use-ws-sync.ts:656-672 | when a bulk action leaves a list's length, no thread joined and none left, so skipping the sort is sound |
| `ListOrder.StepKeepsOrder` | frontend/hooks/use-ws-sync.ts:131-206 | every event keeps a list newest first; a bulk change of labels does if the list shows only what belongs there |
| `ListOrder.OutOfViewBreaksOrder` | frontend/hooks/use-ws-sync.ts:656-672 | an input where a list that shows more falls out of order |
| `Redelivery.RedeliveryIsHarmless` | frontend/hooks/use-ws-sync.ts:122-676 | an event applied twice in a row gives the lists, order, totals and badges of applying it once |
| `Optimistic.EditBadgeIsEventBadge` | frontend/hooks/use-threads.ts:487-515 | the optimistic walk over the cached lists and the reducer's walk over the ids ask for the same badge change |
| `Optimistic.EditKeepsBadge` | frontend/hooks/use-threads.ts:221-308 | every optimistic edit keeps the cache invariant and the badge, with no clamp firing |
| `Optimistic.EditKeepsViewIff` | frontend/hooks/use-threads.ts:71-113 | an edit leaves a list showing only what belongs there iff it unmutes no thread of the muted view |
| `Optimistic.UnstarKeepsBadge` | frontend/hooks/use-threads.ts:71-113 | taking a star off optimistically keeps the cache invariant and the badge |
| `Optimistic.OneMoveKeepsTotalIff` | frontend/hooks/use-threads.ts:275-281 | the single-thread move keeps `total - length` exactly in the lists that held the thread |
| `Optimistic.EditKeepsTotalIff` | frontend/hooks/use-threads.ts:455-570 | and every other edit keeps it in every list |
| `CacheRuns.RunKeepsBadge` | frontend/hooks/use-ws-sync.ts:111-676 | after every run of events and optimistic edits the badge is the inbox sum, and equals the start plus all changes asked for, unclamped |
| `CacheRuns.EventsKeepLists` | frontend/hooks/use-ws-sync.ts:123-676 | over every run of events lists stay distinct, in one domain and in agreement, the inbox exact, and `total - length` constant |
| `CacheRuns.EventsKeepViewIff` | frontend/hooks/use-ws-sync.ts:252-349 | over every run of events of any payloads a list shows only what belongs there iff no star or mute event relabels an entry out of its view |
| `CacheRuns.EventsKeepOrder` | frontend/hooks/use-ws-sync.ts:656-672 | and so long it stays newest first |
| `ExactlyOnce.EditThenEcho` | frontend/hooks/use-threads.ts:230-251 | an optimistic read, unread, archive, trash, spam or move and its echo change the badge by contribution after less before, as the echo alone does in another tab; after a move each list holds the server's thread iff it belongs |
| `Leaks.MoveLeaksIff` | frontend/hooks/use-ws-sync.ts:416-454 | a moved thread enters another domain's list iff it belongs in that view |
| `Leaks.StarLeaksIff` | frontend/hooks/use-ws-sync.ts:256-317 | a starred event puts another domain's list wrong iff that is a starred list and the thread belongs there |
| `Leaks.OthersStayOkIff` | frontend/hooks/use-ws-sync.ts:123-501 | every event about one thread leaves all lists of other domains in order, except a moved or starred one that belongs in one of their views |
| `Leaks.ForeignThreadIsListed` | frontend/hooks/use-ws-sync.ts:434-446 | an input where it does not |
| `Leaks.RepeatsKeepDistinctIff` | frontend/hooks/use-ws-sync.ts:619-672 | a bulk event keeps the ids of a list distinct iff it repeats no id that comes into the list |
| `Leaks.RepeatsDriftBadge` | frontend/hooks/use-ws-sync.ts:510-563 | after a bulk event, repeats or not, the inbox list sums to the badge plus the unread messages of the repeated ids that came in |
| `Leaks.RepeatsKeepBadgeIff` | frontend/hooks/use-ws-sync.ts:636-654 | the badge stays right iff no repeated id brings an unread thread into an inbox list |
| `Leaks.RepeatIsListedTwice` | frontend/hooks/use-ws-sync.ts:636-654 | an input with both failures |
| `QueryCaches.CollectedDeltas` | frontend/hooks/use-ws-sync.ts:510-519 | summing over the collected map of threads is summing over the event's ids, repeats counted once |
| `QueryCaches.SumDeltas` | frontend/hooks/use-ws-sync.ts:517-558 | the loop over collected threads fills the per-domain map with every change, whatever the action |
| `QueryCaches.BulkDeltas` | frontend/hooks/use-ws-sync.ts:510-558 | the per-domain map of a bulk event is the specified one |
| `QueryCaches.KeptThreads` | frontend/hooks/use-ws-sync.ts:619-634 | the first push loop keeps what stays in the list, in order, and detects an untouched list |
| `QueryCaches.JoiningThreads` | frontend/hooks/use-ws-sync.ts:636-654 | the second push loop adds the threads of other lists that come in |
| `QueryCaches.BulkResult` | frontend/hooks/use-ws-sync.ts:619-659 | the result array is kept then joining, and the identity test for an unchanged list is exact |
| `QueryCaches.WalkList` | frontend/hooks/use-threads.ts:494-503 | one list of the optimistic walk counts the first copy of each selected thread |
| `QueryCaches.QueryCache.FindCachedThread` | frontend/hooks/use-ws-sync.ts:14-29 | the nested loops return the first cached copy |
| `QueryCaches.QueryCache.AdjustUnreadCount` | frontend/hooks/use-ws-sync.ts:46-57 | one badge moves by the change if it stays at or above zero, none drops below zero, and no other domain's badge changes |
| `QueryCaches.QueryCache.CollectThreads` | frontend/hooks/use-ws-sync.ts:510-515 | the map holds the first cached copy of every named thread, in order of first mention |
| `QueryCaches.QueryCache.ApplyDeltasByDomain` | frontend/hooks/use-ws-sync.ts:560-563 | one adjustment per domain, in any order |
| `QueryCaches.QueryCache.OnBulk` | frontend/hooks/use-ws-sync.ts:503-676 | the bulk branch takes the cache to the specified one |
| `QueryCaches.QueryCache.OnThread` | frontend/hooks/use-ws-sync.ts:351-501 | an event about one thread takes the cache to the specified one |
| `QueryCaches.QueryCache.Handle` | frontend/hooks/use-ws-sync.ts:116-676 | the reducer takes the cache to the specified one |
| `QueryCaches.QueryCache.SelectionDeltas` | frontend/hooks/use-threads.ts:488-504 | the walk over all lists with its `seen` set computes the specified changes |
| `QueryCaches.QueryCache.Mutate` | frontend/hooks/use-threads.ts:455-570 | the optimistic edit takes the cache to the specified one |
| `QueryCaches.QueryCache.UndoTarget` | frontend/hooks/use-threads.ts:476-485 | the loop finds the inbox iff some selected thread was there or is not cached, or none is selected |
| `MoveUndo.UndoRestoresIff` | frontend/hooks/use-threads.ts:379-410 | a single move and its undo restore the row iff it was in neither trash nor spam, and cached or in the inbox; for a custom label, iff it lacked the label |
| `MoveUndo.BulkUndoRestoresAllIff` | frontend/hooks/use-threads.ts:648-691 | a bulk move and the one undo behind its button restore all rows of the server iff no selected thread was in trash or spam and all were in the inbox, or all outside it and cached; for a custom label, iff none had it |
| `MoveUndo.UncachedUndoGoesToInbox` | frontend/hooks/use-threads.ts:379-383 | an input where an undo does not restore: an archived thread without a copy |
| `LabelSync.RunAgrees` | frontend/hooks/use-ws-sync.ts:60-101 | over every run of accepted bulk actions client and server agree on inbox membership and eligibility |
| `LabelSync.StepEqualIff` | backend/internal/handler/threads.go:251-301 | from equal labels an accepted action gives equal labels except for moves to archive from trash or spam, and to spam from trash |
| `LabelSync.TrashStaysInBrowser` | frontend/hooks/use-ws-sync.ts:75-89 | both exceptions at an input |
| `ThreadServer.RunKeepsTrashInvariant` | backend/internal/handler/threads.go:200-219 | in every reachable state a live thread carries trash iff its expiry is set |
| `ThreadServer.InboundReplyKeepsTrashIff` | backend/internal/queue/process_fetch.go:412-421 | a reply keeps that invariant iff it does not pull the thread out of the trash |
| `ThreadServer.InboundNewKeepsTrashIff` | backend/internal/queue/process_fetch.go:367-374 | a new thread keeps it iff it is no bounce; a bounce never expires |
| `ThreadServer.StarAndMuteLaws` | backend/internal/handler/threads.go:611-668 | toggles undo themselves, and a star with a body sets its value idempotently |
| `ThreadServer.RunKeepsVisibility` | backend/internal/handler/threads.go:64-81 | over every run a live thread keeps its alias labels and the same callers see it; deleted threads stay deleted |
| `ThreadServer.LeavesLiveSetIff` | backend/internal/handler/threads.go:880-897 | exactly which requests, and which pass of the collector, delete a live thread |
| `ThreadServer.MoveLandsIff` | backend/internal/handler/threads.go:460-509 | a move lands in its folder and no other, except that trash keeps a thread listed under spam |
| `ThreadServer.BulkDeleteFromSpam` | backend/internal/store/pg_threads.go:479-498 | the bulk delete removes a spam thread that carries no trash |
| `ThreadServer.BulkRefinesSingle` | backend/internal/handler/threads.go:191-307 | bulk archive, trash, spam, move, read or unread equals folding the single handler over the ids, repeats and invisible ids included |
| `ThreadAccess.StrangerIsTurnedAway` | backend/internal/handler/threads.go:67-81 | whatever a member asks, of one thread or in bulk, a thread stamped with none of his addresses stays as it is, the reply is that it does not exist, and no event names it |
| `ThreadAccess.StrangersNeverReach` | backend/internal/handler/threads.go:165-187 | the same over every run of such requests |
| `ThreadAccess.AcceptedIff` | backend/internal/handler/threads.go:419-458 | a request is accepted iff the thread exists, the caller is an admin or holds an address it is stamped with, a move names a label one can move to, and a delete is made from the trash |
| `ThreadAccess.ArchivesIff` | backend/internal/handler/threads.go:685-714 | an archive takes a thread out of the inbox iff its caller is such |
| `ThreadAccess.BulkReachesIff` | backend/internal/handler/threads.go:165-187 | a bulk request changes and announces the named threads its caller may act on, and no other |
| `ThreadAccess.BulkRefusedIff` | backend/internal/handler/threads.go:165-247 | a bulk request is refused iff its label is not allowed and it names a thread within its caller's reach |
| `ThreadAccess.BulkLabelsIff` | backend/internal/handler/threads.go:238-335 | the labels a bulk request may move to, put on and take off |
| `ThreadAccess.MailReachesIff` | backend/internal/queue/process_fetch.go:450-481 | a mail opens its thread to the members at whose addresses it arrived, and closes it to nobody |
| `ThreadAccess.AddresseesKeepReaching` | backend/internal/handler/threads.go:64-81 | after every run that leaves a thread live, the members its first mail was addressed to, and no others, can archive it |
| `ThreadFolders.EveryThreadIsListed` | frontend/lib/types.ts:66-71 | whatever its labels, a thread is listed in the inbox, in the archive, or else in the trash or under spam |
| `ThreadFolders.FilingKeepsTheRest` | backend/internal/handler/threads.go:251-301 | stars, aliases, own labels and the unread count go with a thread wherever it is put |
| `ThreadFolders.ListedAfterIff` | backend/internal/handler/threads.go:460-509 | which views list a thread after it was archived, trashed, reported, taken out of spam or moved |
| `ThreadFolders.SpamAndBackIff` | backend/internal/handler/threads.go:815-867 | a report of spam and its withdrawal restore a row iff it was in the inbox and not under spam |
| `ThreadFolders.MarkAndBackIff` | backend/internal/handler/threads.go:530-598 | mark-unread and mark-read undo each other iff the count was none, or one |
| `ThreadFolders.LabelAndBackIff` | backend/internal/handler/threads.go:308-365 | bulk labels and mutes are undone iff they changed something; a dismiss changes nothing |
| `ThreadFolders.TrashKeepsThirtyDays` | backend/internal/worker/trash_collector.go:47-103 | over every run that passes it by, a trashed thread is deleted iff the collector makes a pass more than 30 days later, and stays as it is until then |
| `ThreadFolders.DeletionStripsLabels` | backend/internal/handler/threads.go:880-897 | whatever deletes a live thread leaves it in no view |
| `ThreadFolders.ReplyResurfacesIff` | backend/internal/queue/process_fetch.go:412-421 | a mail adds one unread message, and brings its thread into the inbox iff neither is spam, it does not bounce and the thread is not muted |
| `ThreadFolders.NewThreadLandsIff` | backend/internal/queue/process_fetch.go:367-374 | a first mail is listed in exactly one view, with one unread message |
| `ThreadHandlers.AllowedMembers` | backend/internal/handler/threads.go:165-187 | the ids acted on are the requested ones the caller can see |
| `ThreadHandlers.ThreadHandler.FilterTrashThreadIDs` | backend/internal/store/pg_threads.go:479-498 | the requested threads that carry trash or spam |
| `ThreadHandlers.ThreadHandler.MoveThreads` | backend/internal/handler/threads.go:251-301 | the statements of each destination compose to the specified row update |
| `ThreadHandlers.ThreadHandler.Move` | backend/internal/handler/threads.go:419-528 | reply and new rows of a move, with its rejections in order |
| `ThreadHandlers.ThreadHandler.MarkRead` | backend/internal/handler/threads.go:530-563 | reply and new rows of mark-read |
| `ThreadHandlers.ThreadHandler.MarkUnread` | backend/internal/handler/threads.go:565-598 | reply and new rows of mark-unread |
| `ThreadHandlers.ThreadHandler.Star` | backend/internal/handler/threads.go:600-647 | reply and new rows of a star, set or toggled |
| `ThreadHandlers.ThreadHandler.Mute` | backend/internal/handler/threads.go:649-683 | reply and new rows of a mute |
| `ThreadHandlers.ThreadHandler.ArchiveThread` | backend/internal/handler/threads.go:685-714 | reply and new rows of an archive |
| `ThreadHandlers.ThreadHandler.TrashThread` | backend/internal/handler/threads.go:716-750 | reply and new rows of a trash, expiry included |
| `ThreadHandlers.ThreadHandler.SpamThread` | backend/internal/handler/threads.go:815-867 | reply and new rows of spam and not-spam |
| `ThreadHandlers.ThreadHandler.DeleteThread` | backend/internal/handler/threads.go:869-916 | reply and new rows of a delete, refused outside the trash |
| `ThreadHandlers.ThreadHandler.FilterAllowed` | backend/internal/handler/threads.go:165-187 | the loop keeps a member's visible ids in request order; an admin keeps all |
| `ThreadHandlers.ThreadHandler.BulkDeleteThreads` | backend/internal/handler/threads.go:369-395 | filter, drop labels one by one, soft-delete |
| `ThreadHandlers.ThreadHandler.BulkRequest` | backend/internal/handler/threads.go:112-417 | reply, new rows and the ids the published event names |
| `ThreadHandlers.ThreadHandler.CollectExpired` | backend/internal/worker/trash_collector.go:47-103 | one pass deletes exactly the live, trashed threads past their expiry |
| `BadgeTruth.HappeningKeepsTracks` | backend/internal/handler/threads.go:402-411 | any accepted request on a live thread, star and mute with whatever labels the row has, or an incoming mail, and its event keep every cached copy in agreement with the server's row, and every eligible row cached |
| `BadgeTruth.BadgeIsTrueAfterRun` | backend/internal/store/pg_domains.go:64-103 | after every run, with nothing refetched, the browser's badge is the unread count the server would answer |
| `BadgeTruth.PassIsExpiries` | backend/internal/worker/trash_collector.go:47-103 | a pass of the collector is the fold of one deletion and its event per expired thread, as the happenings have it |
| `BadgeDrift.DeletedActKeepsBadgeIff` | backend/internal/store/pg_threads.go:374-395 | a request accepted on a deleted thread keeps the badge true iff it is no move, or leaves the thread out of the inbox, or nothing was unread |
| `BadgeDrift.DeletedMailKeepsBadgeIff` | backend/internal/queue/process_fetch.go:304-421 | a mail into a deleted thread keeps the badge true iff it leaves the thread out of the inbox |
| `BadgeDrift.DeletedMoveRaisesBadge` | backend/internal/store/pg_threads.go:374-395 | an input: a deleted unread thread moved to the inbox |
| `BadgeDrift.BulkBadgeMisses` | backend/internal/handler/threads.go:402-411 | after every bulk request, deletes, deleted threads and repeats included, the server counts the badge plus the unread messages of the named threads that stay eligible without a copy |
| `BadgeDrift.BulkKeepsBadgeIff` | backend/internal/handler/threads.go:402-411 | the badge stays true iff no named thread is left so with anything unread |
| `BadgeDrift.UncachedBulkMoveIsMissed` | backend/internal/handler/threads.go:402-411 | an input: an uncached thread moved to the inbox in bulk |
| `BadgeDrift.BulkDeleteFromInboxDrops` | backend/internal/handler/threads.go:369-411 | an input: a bulk delete that names a thread in the inbox |
| `BadgeDrift.StarredInTrashList` | frontend/hooks/use-ws-sync.ts:300-312 | a run of two accepted requests on a live thread, a bulk archive and a star, after which the trash list shows a thread with no trash label, with the badge right |
| `OutboxRefs.StepKeepsRefs` | backend/internal/handler/emails.go:555-573 | every step keeps references: no email, job or draft names a missing row, one job per email, a cancelled job names none |
| `OutboxRuns.RunKeepsRefs` | backend/internal/handler/drafts.go:412-477 | the same over every interleaving |
| `OutboxRuns.SendsAreConserved` | backend/internal/handler/emails.go:379-408 | for every job: claims + cancellations + refusals + (1 if pending) <= 1 + times put back, and sends <= claims, when the worker takes up pending jobs only |
| `OutboxRuns.BalancesIff` | backend/internal/queue/email_worker.go:461-466 | a step keeps that balance for every job iff the job it takes up, if it takes one up, is pending |
| `OutboxRuns.SendsAreUnbounded` | backend/internal/queue/email_worker.go:435-466 | from any pending job a run the skip test lets through claims and sends it as often as one likes, with nothing put back |
| `OutboxRuns.CancelledForGood` | backend/internal/queue/email_worker.go:461-466 | a cancelled job no worker holds is never claimed, put back or sent again |
| `OutboxRuns.RunKeepsCalm` | backend/internal/queue/email_worker.go:393-431 | over every run in which nothing puts back a job a worker holds, held jobs are running and held once |
| `OutboxRuns.UndoIsFinalIff` | backend/internal/handler/emails.go:528-538 | from every consistent state, an accepted undo or cancelled schedule is final over every run iff no worker holds the job |
| `OutboxRuns.GentleRunUndoIsFinal` | backend/internal/queue/email_worker.go:393-431 | from a state with held jobs running and held once, after a run in which nothing puts back a job a worker holds, every accepted undo is final |
| `OutboxUndo.DirectSendThenUndo` | backend/internal/handler/emails.go:540-573 | emails, jobs, drafts and threads after a send and its undo, and exactly when the threads are as before |
| `OutboxUndo.ScheduleThenCancel` | backend/internal/handler/drafts.go:540-568 | the same for a scheduled draft and its cancellation |
| `OutboxSchedules.ScheduleThenUndo` | backend/internal/handler/emails.go:508-512 | undoing a scheduled send leaves all as cancelling it would, but for the draft, which stays marked as scheduled with nothing left to cancel |
| `OutboxSchedules.ScheduledLeavesEarly` | backend/internal/queue/process_send.go:69-98 | from every state a worker that takes up another job takes a scheduled one along and delivers it with its time still set |
| `OutboxSchedules.WaitsForItsTimeIff` | backend/internal/worker/scheduler.go:56-90 | over every run in which the scheduler has not released it, a waiting job is taken up iff a worker jumps the queue; otherwise it is not sent |
| `OutboxStuck.StrandsIff` | backend/internal/queue/email_worker.go:114-127 | a step leaves a queued email with no live job iff it is a panic, a success claimed for another email, or a stale job's recovery with no retries left |
| `OutboxStuck.ReconcileUnsticksIff` | backend/internal/queue/send_reconciler.go:43-78 | the reconciler fails the stuck email it is called for and touches no other |
| `OutboxStuck.ReconcileGivesBack` | backend/internal/queue/send_reconciler.go:80-108 | its user has the message as a draft unless its own draft is gone, and can retry iff it had a job |
| `OutboxRows.UndoIff` | backend/internal/handler/emails.go:494-538 | an undo is accepted, and takes this job, iff the email is the caller's own, outgoing, not sent yet, and its job pending |
| `OutboxRows.RetryIff` | backend/internal/handler/emails.go:351-408 | a retry is accepted, and takes this job, iff the email is outgoing, the caller's or he is an admin, and it failed, bounced or is queued |
| `OutboxRows.UnscheduleIff` | backend/internal/handler/drafts.go:513-540 | a schedule is cancelled, with this job, iff the draft is the caller's and it is the newest of its jobs that still wait |
| `OutboxRows.SendDraftIff` | backend/internal/handler/drafts.go:235-290 | a draft is sent iff it is the caller's, none of its jobs is pending or running, its thread exists, and its time, if any, is one minute to 30 days away |
| `OutboxRows.RefusedIff` | backend/internal/handler/emails.go:494-516 | what a refused undo, retry, send or cancellation is told |
| `OutboxRows.JobRows` | backend/internal/queue/email_worker.go:393-466 | what each step makes of each job: its status and its count of attempts |
| `OutboxRows.EmailRows` | backend/internal/queue/process_send.go:69-238 | what each step makes of each email, and which remove it |
| `OutboxRows.DraftRows` | backend/internal/handler/drafts.go:218-233 | what each step makes of each draft: only its owner or a mail that went out from it deletes it, and which steps give a message back as one |
| `OutboxRows.ThreadRows` | backend/internal/handler/emails.go:555-573 | what each step makes of each thread: a mail that went out stamps it; it is cleared with its last email, and goes unless a draft names it |
| `OutboxDeliveries.NoSecondSend` | backend/internal/handler/drafts.go:261-269 | over every run after a draft was sent, as long as its job is pending or running, every further send of it is refused and no other job is made from it |
| `OutboxDeliveries.MailGoesOut` | backend/internal/queue/process_send.go:69-238 | every accepted send that a worker takes up and gets through ends delivered as written, from its user, in its thread, with the draft gone |
| `OutboxDeliveries.MailStaysAsWritten` | backend/internal/handler/emails.go:228-273 | over every run, as long as it is there, an email keeps its content, user, thread and direction |
| `OutboxDeliveries.FiveAttempts` | backend/internal/queue/email_worker.go:242-260 | of every accepted send the worker makes up to five attempts that fail for the moment; with the fifth, and not before, job and email have failed |
| `OutboxUndo.UndoGivesDraftBackIff` | backend/internal/handler/emails.go:544-553 | an undo leaves the message as a draft unless the send's draft was deleted; it touches no other draft |
| `OutboxUndo.UndoDropsThreadIff` | backend/internal/handler/emails.go:565-573 | the thread row goes iff no email is left in it and no draft names it |
| `OutboxUndo.RetryInFlightOvertakesUndo` | backend/internal/queue/email_worker.go:178-221 | from every state a retry during a send lets the mail out after an accepted undo |
| `OutboxHandlers.LatestJob` | backend/internal/handler/emails.go:518-522 | the search finds the newest of the candidate jobs |
| `OutboxHandlers.OutboxHandler.SendEmail` | backend/internal/handler/emails.go:228-273 | reply and new tables of a direct send |
| `OutboxHandlers.OutboxHandler.SendDraftNow` | backend/internal/handler/drafts.go:235-510 | reply and new tables of a draft's send, now or scheduled |
| `OutboxHandlers.OutboxHandler.RetryEmail` | backend/internal/handler/emails.go:351-430 | reply and new tables of a retry |
| `OutboxHandlers.OutboxHandler.CreateDraftFromEmail` | backend/internal/handler/emails.go:595-633 | one more draft, in a thread that exists, with the sender, thread and content of the email; every other draft and all references stay |
| `OutboxHandlers.OutboxHandler.CancelSendOf` | backend/internal/handler/emails.go:494-593 | reply and new tables of an undo |
| `OutboxHandlers.OutboxHandler.CancelScheduleOf` | backend/internal/handler/drafts.go:513-572 | reply and new tables of a cancelled schedule |
| `CredentialRuns.StepKeepsSecrets` | backend/internal/handler/oauth.go:412-415 | no secret is in two rows, and no current refresh token is another row's superseded one |
| `CredentialRuns.StepKeepsConsent` | backend/internal/handler/agentkeys.go:165-170 | every row that goes back to an approval keeps its creation and expiry within the consent |
| `CredentialRuns.ConsentLifetime` | backend/internal/handler/oauth.go:29-33 | nothing that goes back to an approval at time a resolves after a + 10 minutes + 210 days, over every run |
| `ConsentBound.ConsentBoundIsReached` | backend/internal/handler/agentkeys.go:22-24 | a run from any consistent state reaches that bound to the second |
| `CredentialRuns.CodeIsSingleUse` | backend/internal/handler/oauth.go:286-297 | each code yields at most one token row over every run, and none once spent |
| `CredentialRuns.AttemptSpendsCode` | backend/internal/handler/oauth.go:289-319 | an attempt spends a stored code even when it is refused |
| `CredentialRuns.RefreshIsSingleUse` | backend/internal/handler/oauth.go:380-398 | each refresh token is accepted at most once over every run |
| `CredentialRuns.ReplayRevokes` | backend/internal/handler/oauth.go:367-378 | replaying the token a row was last rotated away from is refused and revokes the row, however much later |
| `CredentialRuns.TwoRotationsForget` | backend/internal/handler/oauth.go:407-420 | once a row is rotated twice, with any run between, no row knows the first refresh token as current or superseded |
| `CredentialRuns.ForgottenIsRejected` | backend/internal/handler/oauth.go:367-390 | a token no row knows stays unknown over every run, is refused as unknown and changes nothing |
| `CredentialRuns.OlderIsRejected` | backend/internal/handler/oauth.go:357-390 | over every run, replaying a token its row was rotated away from twice is refused as unknown and changes and revokes nothing |
| `CredentialRuns.RevokedForGood` | backend/internal/mcp/auth.go:66-68 | a revoked row never changes, mints or resolves again |
| `CredentialRuns.KeyCap` | backend/internal/handler/agentkeys.go:82-104 | a user never has more than 25 unrevoked keys |
| `CredentialRuns.CodeGrantIgnoresCap` | backend/internal/handler/oauth.go:338-343 | the code grant adds a credential whatever their number, so the total can pass 25 |
| `CodeGrants.ApprovalIff` | backend/internal/handler/oauth.go:182-245 | an approval leaves a code iff it has every field, the S256 method and a redirect URI registered for its client |
| `CodeGrants.RedirectPolicyIff` | backend/internal/handler/oauth.go:55-80 | the redirect policy in short: loopback for http and https, a dotted scheme otherwise |
| `CodeGrants.CodeGrantIff` | backend/internal/handler/oauth.go:279-355 | after an approval and every run of calls, a token request for its code adds a credential, the approving user's, iff nobody tried the code before, its verifier digests to the approved challenge, client and redirect URI are the approved ones, and it comes within 10 minutes; otherwise no row changes |
| `CodeGrants.CodeRefusedIff` | backend/internal/handler/oauth.go:289-319 | what such a request is told: the code is unknown iff somebody tried it before; otherwise the first thing wrong of time, client, redirect URI and verifier |
| `TokenLives.ResolvesIff` | backend/internal/mcp/auth.go:43-84 | a bearer token resolves to a row iff the row holds it, is unrevoked and not past its expiry, and its user is an active member of its organisation |
| `TokenLives.RefreshIff` | backend/internal/handler/oauth.go:380-427 | a refresh gives the row that holds the token a new pair and 30 more days iff it is unrevoked and at most 90 days old, and changes no other row |
| `TokenLives.RefreshRefusedIff` | backend/internal/handler/oauth.go:380-398 | what the refresh of a current token is told: revoked, or else too old |
| `TokenLives.SessionLasts90Days` | backend/internal/handler/oauth.go:380-398 | over every run after a code was redeemed, however often refreshed, the current refresh token is accepted iff the row is unrevoked and the redemption at most 90 days back |
| `TokenLives.AccessLivesIff` | backend/internal/handler/oauth.go:332-355 | over every run an access token resolves iff its row still holds it unrevoked, the user is an active member, and at most 30 days have passed |
| `TokenLives.KeyIssuedIff` | backend/internal/handler/agentkeys.go:82-104 | a key is made iff the user has fewer than 25 unrevoked credentials |
| `TokenLives.ExchangedIff` | backend/internal/handler/agentkeys.go:120-180 | a token is exchanged iff it is a live access token of a user below the cap; the key is his and lasts 90 days |
| `TokenLives.KeyLivesIff` | backend/internal/mcp/auth.go:66-75 | over every run a key resolves iff nobody has revoked it for its owner, he is an active member and, if exchanged, at most 90 days have passed |
| `TokenLives.RevokesIff` | backend/internal/handler/agentkeys.go:183-197 | a revocation reaches the caller's own credential in his organisation and no other |
| `TokenLives.DeactivatedResolvesNothing` | backend/internal/mcp/auth.go:52-65 | a deactivated member is locked out of the organisation over every run until he is activated, whatever credentials he holds or gets |
| `TokenLives.ActivationGivesBack` | backend/internal/mcp/auth.go:52-84 | an activation makes his unrevoked, unexpired tokens resolve again |
| `CredentialHandlers.CredentialHandler.ApproveClient` | backend/internal/handler/oauth.go:170-245 | reply and new tables of an approval, the redirect policy included |
| `CredentialHandlers.CredentialHandler.TokenFromCode` | backend/internal/handler/oauth.go:279-355 | reply and new tables of the code grant, the code deleted first |
| `CredentialHandlers.CredentialHandler.TokenFromRefresh` | backend/internal/handler/oauth.go:357-427 | reply and new tables of the refresh grant, the replay check first |
| `CredentialHandlers.CredentialHandler.LookupToken` | backend/internal/mcp/auth.go:43-84 | a bearer token resolves to its unrevoked, unexpired row of an active user, or to nothing |
| `CredentialHandlers.CredentialHandler.CreateKeyFor` | backend/internal/handler/agentkeys.go:64-114 | reply and new tables of a new key, refused for a long name or at the cap |
| `CredentialHandlers.CredentialHandler.ExchangeToken` | backend/internal/handler/agentkeys.go:120-180 | reply and new tables of an exchange, with its rejections in order |
| `CredentialHandlers.CredentialHandler.RevokeKey` | backend/internal/handler/agentkeys.go:183-197 | reply and new tables of a revocation |
| `Billing.ProcessIsFoldOfFirsts` | backend/internal/handler/billing.go:256-265 | deliveries with repeats equal each event handled once, at its first delivery |
| `Billing.RedeliveryChangesNothing` | backend/internal/store/pg_billing.go:75-84 | a redelivery anywhere in the stream changes neither the state nor what later events do |
| `Billing.LastPlanWins` | backend/internal/handler/billing.go:267-510 | the final plan is that of the last plan-bearing event |
| `Billing.ActionRequiredKeepsDeadlineIff` | backend/internal/handler/billing.go:451-485 | a payment needing authentication changes the deadline iff there is none and the plan is not past due |
| `Billing.PaidMeansClear` | backend/internal/handler/billing.go:569-577 | in every state reachable by events and worker passes, pro has no deadline, lapse or notice and is never read-only |
| `Billing.LateNoticeKeepsClearIff` | backend/internal/worker/grace_period.go:140-148 | the late update of the notice pass keeps that iff the plan is not pro |
| `Billing.NoticesAreBounded` | backend/internal/worker/grace_period.go:104-148 | over every run, failed mail calls included, at most one more notice goes out than payments arrive, and none after a recorded one until the next payment |
| `Billing.GraceLasts` | backend/internal/handler/billing.go:194-201 | with no later event a cancellation is read-only after exactly 7 days and a failed payment after exactly 14 |
| `Billing.LapsesIff` | backend/internal/handler/billing.go:194-201 | whatever the worker does, an organisation in its grace period is read-only at some later time iff it has a deadline |
| `Billing.PaidLapsesIff` | backend/internal/handler/billing.go:325-365 | an event that ends a paid plan leads to read-only iff it is no pause and no update to past due, unpaid or canceled |
| `Billing.ReadOnlyStays` | backend/internal/worker/grace_period.go:65-102 | read-only once reported stays reported as time advances, whatever the worker does |
| `Billing.ReadOnlyMaySendIff` | backend/internal/queue/email_worker.go:546-563 | an organisation reported read-only can still send iff it is past due with its deadline behind it |
| `Billing.SilentlyBlockedIff` | backend/internal/queue/email_worker.go:546-563 | neither read-only nor able to send: iff free and never lapsed, or cancelled with no deadline or at it |
| `BillingDeadlines.ClockAfter` | backend/internal/handler/billing.go:267-510 | for every organisation and event: what stops the clock of a grace period, what starts it anew and for how long, and that everything else leaves deadline, lapse and notice as they were |
| `BillingDeadlines.StatusLeavesClock` | backend/internal/handler/billing.go:299-356 | a pause, a status update that takes the plan away, and an event without a plan change the plan alone |
| `BillingDeadlines.LastLinkWins` | backend/internal/handler/billing.go:268-297 | the subscription on file is the one linked last, among first deliveries |
| `BillingDeadlines.GraceEndsIff` | backend/internal/handler/billing.go:402-425 | over every run of deliveries and worker passes after a failed payment, a cancellation or an uncollectible invoice, with no payment and no new deadline, the organisation is read-only iff more than 14, or 7, days have passed and no status update came after the worker had moved it to free |
| `BillingDeadlines.StatusUpdateRevives` | backend/internal/handler/billing.go:312-333 | an input of that exception: an update to past due after the lapse |
| `BillingDeadlines.NoticeGoesIff` | backend/internal/worker/grace_period.go:104-148 | a notice goes out iff a grace period is in its last three days and none was recorded |
| `BillingDeadlines.WorkerMovesIff` | backend/internal/worker/grace_period.go:65-102 | the worker moves to free exactly the organisations already reported read-only, and leaves subscription and notice alone |
| `BillingHandlers.BillingHandler.UpdateOrgByCustomer` | backend/internal/handler/billing.go:569-588 | the new state for every plan; a paid plan is never reported read-only, at any time |
| `BillingHandlers.BillingHandler.UpdateOrgByCustomerCancelled` | backend/internal/handler/billing.go:590-607 | a cancelled organisation is reported read-only at exactly the times after its deadline; another customer's stays |
| `BillingHandlers.BillingHandler.RequireAction` | backend/internal/handler/billing.go:451-485 | a payment that needs authentication never moves a set deadline, and otherwise leaves 14 days |
| `BillingHandlers.BillingHandler.HandleStripeWebhook` | backend/internal/handler/billing.go:233-567 | the webhook takes the organisation to the specified state and keeps a paid one clear; a delivery seen before, or of another customer, leaves it as it was |
| `BillingHandlers.BillingHandler.GetBilling` | backend/internal/handler/billing.go:178-209 | the effective plan and read-only flag |
| `BillingHandlers.BillingHandler.CheckGrace` | backend/internal/worker/grace_period.go:65-148 | one worker pass: the notice, recorded if the mail call succeeds, then the move to free; neither changes what the billing page shows |
| `LikePattern.EscapeIsPerChar` | backend/internal/handler/helpers.go:167-173 | the three ordered passes are one escape per character |
| `LikePattern.EscapedMatchesExactly` | backend/internal/handler/helpers.go:167-173 | as a pattern an escaped text matches t iff t is that text |
| `LikePattern.WrappedMatchesSubstrings` | backend/internal/store/pg_emails.go:247-252 | wrapped in percent signs it matches exactly the texts that contain it |
| `LikePattern.FoldedMatchesSubstrings` | backend/internal/store/pg_emails.go:247-252 | under ILIKE, for every fold that respects the metacharacters, it matches exactly the texts that contain it up to case |
| `LikePattern.EscapedIsWellFormed` | backend/internal/handler/helpers.go:168-172 | an escaped text never ends inside an escape |
| `LikePattern.BackslashLastIsWrong` | backend/internal/handler/helpers.go:169-171 | with the backslash pass last, an escaped percent sign matches what starts with a backslash instead of itself |
| `LikePattern.EscapeLIKE` | backend/internal/handler/helpers.go:168-173 | the helper's result matches its input and nothing else |

## Left out

- CacheSteps.StepKeepsCache: speaks of the lists of one domain; other domains under events about one thread are in
  `Leaks`.
- BadgeTruth.BadgeIsTrueAfterRun: has no email.sent event, and compares with the count of an admin, which no alias
  filters.
- OutboxRuns.SendsAreConserved: counts a worker that takes up pending jobs only, because the claim is false without
  it.
- OutboxUndo.DirectSendThenUndo: does not model message counts and other thread statistics, which an undo does not
  take back.
- OutboxHandlers.OutboxHandler.SendEmail: omits the checks that precede any table change: recipients, bounce list,
  sender authorization, domain status, visibility of the thread replied into, attachments.
- OutboxHandlers.OutboxHandler.SendDraftNow: omits the same checks.
- ThreadHandlers.ThreadHandler.BulkRequest: is given resolved ids and a known action; select-all, `affected` counts
  and the emails that a dismiss marks are not modelled.
- CredentialHandlers.CredentialHandler.ApproveClient: is given the parsed redirect URI; URL parsing is not modelled.
- BillingHandlers.BillingHandler.HandleStripeWebhook: store writes succeed, and one organisation has the Stripe
  customer.
- LikePattern.WrappedMatchesSubstrings: compares characters exactly; `FoldedMatchesSubstrings` has ILIKE.
- An unread-counts cache that is still undefined, lists with no label or domain in their key, and pages beyond the
  first.
- The snoozed, failed and drafts views, and every branch that only invalidates queries.
- Search and detail caches, toasts, and the step that marks a thread read when it is opened.
- An optimistic bulk move followed by its echo as exactly-once: the edit drops the cached copies and relies on a
  refetch.
- Editing a stored draft.
- Snoozing, read flags of single emails, the rule forwarding of inbound mail, and label administration.
- Cancelling the jobs of a deleted organisation, Redis queues and the delay set, heartbeats, and job types other
  than send.
- Two requests interleaved inside one handler, and failed store writes.
- OAuth client registration, HTTP, JSON and token formats.
- Pruning of old webhook event ids, checkout and portal sessions.
- The rate limiter, attachments, HTML and link sanitising, cryptography, settings, onboarding and the user
  interface.
