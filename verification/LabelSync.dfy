/** The browser recomputes labels after a bulk action instead of refetching them. This module relates its
    labels to the server's, over runs of accepted bulk actions. */
module LabelSync {
  import opened Wrappers
  import opened Labels
  import opened ThreadServer

  /** Agreement on inbox membership, and on inbox eligibility whenever inbox is present. */
  predicate Agrees(client: set<Label>, server: set<Label>) {
    && (Inbox in client <==> Inbox in server)
    && (Inbox in client ==> (InboxEligible(client) <==> InboxEligible(server)))
  }

  /** A run of bulk actions on one thread, as the server applies it. The clock of each is its own. */
  function ServerRun(r: Row, actions: seq<BulkAction>, times: seq<int>): Row
    requires |times| == |actions|
    decreases actions
  {
    if actions == [] then r
    else ServerRun(BulkAfter(r, actions[0], times[0]), actions[1..], times[1..])
  }

  /** The same run, as the browser computes its labels. */
  function ClientRun(labels: set<Label>, actions: seq<BulkAction>): set<Label>
    decreases actions
  {
    if actions == [] then labels else ClientRun(ApplyBulkLabels(labels, actions[0]), actions[1..])
  }

  lemma StepAgrees(client: set<Label>, r: Row, action: BulkAction, now: int)
    requires Agrees(client, r.labels) && AcceptsLabel(action) && !action.BulkDelete?
    ensures Agrees(ApplyBulkLabels(client, action), BulkAfter(r, action, now).labels)
  {
    match action
    case BulkMove(target) =>
    case BulkLabel(target) =>
    case BulkUnlabel(target) =>
    case _ =>
  }

  /** Over every run of bulk actions the server accepts, client and server agree on inbox membership and on
      eligibility, so a thread contributes to the unread badge on one side exactly when it does on the other. */
  lemma {:induction false} RunAgrees(client: set<Label>, r: Row, actions: seq<BulkAction>, times: seq<int>)
    requires |times| == |actions| && Agrees(client, r.labels)
    requires forall a :: a in actions ==> AcceptsLabel(a) && !a.BulkDelete?
    ensures Agrees(ClientRun(client, actions), ServerRun(r, actions, times).labels)
    ensures InboxEligible(ClientRun(client, actions)) <==> InboxEligible(ServerRun(r, actions, times).labels)
    decreases actions
  {
    if actions != [] {
      assert actions[0] in actions;
      StepAgrees(client, r, actions[0], times[0]);
      RunAgrees(ApplyBulkLabels(client, actions[0]), BulkAfter(r, actions[0], times[0]), actions[1..], times[1..]);
    }
  }

  /** The two moves that restore a thread on the server and not in the browser. */
  predicate RestoresOnServerOnly(labels: set<Label>, action: BulkAction) {
    || (action == BulkMove(Archive) && (Trash in labels || Spam in labels))
    || (action == BulkMove(Spam) && Trash in labels)
  }

  /** From equal label sets, an accepted action leaves equal label sets except in exactly those two cases. */
  lemma StepEqualIff(r: Row, action: BulkAction, now: int)
    requires AcceptsLabel(action) && !action.BulkDelete?
    ensures ApplyBulkLabels(r.labels, action) == BulkAfter(r, action, now).labels
            <==> !RestoresOnServerOnly(r.labels, action)
  {
    var client, server := ApplyBulkLabels(r.labels, action), BulkAfter(r, action, now).labels;
    match action
    case BulkMove(target) =>
      if RestoresOnServerOnly(r.labels, action) {
        assert (Trash in client && Trash !in server) || (Spam in client && Spam !in server);
      }
    case _ =>
  }

  /** Both exceptions: archiving a trashed thread, or marking it as spam, leaves it in the trash in the browser and
      takes it out on the server. */
  lemma TrashStaysInBrowser(r: Row, now: int)
    requires r.labels == {Trash}
    ensures ApplyBulkLabels(r.labels, BulkMove(Archive)) == {Trash} && BulkAfter(r, BulkMove(Archive), now).labels == {}
    ensures ApplyBulkLabels(r.labels, BulkMove(Spam)) == {Trash, Spam}
    ensures BulkAfter(r, BulkMove(Spam), now).labels == {Spam}
  {
    assert {Trash} - {Inbox} == {Trash} && {Trash} - {Inbox} - {Trash} - {Spam} == {};
    assert {Trash} + {Spam} - {Trash} == {Spam};
  }
}
