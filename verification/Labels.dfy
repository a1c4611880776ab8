/** Thread labels, the views they select, and the actions that change them.
    Shared by the server model and by the browser cache model. */
module Labels {

  /** A label name, split by the tests the program applies to it: the seven system names, the internal
      "alias:" prefix, "muted" (which no test reserves), and every other name. */
  datatype Label =
    | Inbox | Sent | Trash | Spam | Starred | Archive | Drafts
    | Muted
    | Alias(address: string)
    | Custom(name: string)

  const ALIAS_PREFIX := "alias:"

  const SYSTEM_LABELS := {"inbox", "sent", "trash", "spam", "starred", "archive", "drafts"}

  /** The label a name denotes. */
  function LabelOf(name: string): Label {
    if name == "inbox" then Inbox
    else if name == "sent" then Sent
    else if name == "trash" then Trash
    else if name == "spam" then Spam
    else if name == "starred" then Starred
    else if name == "archive" then Archive
    else if name == "drafts" then Drafts
    else if name == "muted" then Muted
    else if ALIAS_PREFIX <= name then Alias(name[|ALIAS_PREFIX|..])
    else Custom(name)
  }

  /** The name of a label. */
  function Text(l: Label): string {
    match l
    case Inbox => "inbox"
    case Sent => "sent"
    case Trash => "trash"
    case Spam => "spam"
    case Starred => "starred"
    case Archive => "archive"
    case Drafts => "drafts"
    case Muted => "muted"
    case Alias(address) => ALIAS_PREFIX + address
    case Custom(name) => name
  }

  /** Names a user may not add, remove or move to. */
  predicate IsReserved(l: Label) {
    l in {Inbox, Sent, Trash, Spam, Starred, Archive, Drafts} || l.Alias?
  }

  /** No name is lost: two names denote the same label only when they are the same name. */
  lemma LabelOfIsInjective(a: string, b: string)
    ensures Text(LabelOf(a)) == a
    ensures LabelOf(a) == LabelOf(b) <==> a == b
  {
    forall name: string
      ensures Text(LabelOf(name)) == name
    {
      if ALIAS_PREFIX <= name {
        assert name == ALIAS_PREFIX + name[|ALIAS_PREFIX|..];
      }
    }
  }

  /** The reservation test on labels is the one the program makes on names. */
  lemma ReservedNames(name: string)
    ensures IsReserved(LabelOf(name)) <==> name in SYSTEM_LABELS || ALIAS_PREFIX <= name
  {
  }

  /** Whether a thread with these labels counts towards the inbox unread badge. */
  predicate InboxEligible(labels: set<Label>) {
    Inbox in labels && Trash !in labels && Spam !in labels
  }

  /** Whether a thread with these labels is listed under a view. */
  predicate BelongsInView(labels: set<Label>, view: Label) {
    if view == Trash || view == Spam then view in labels
    else if view == Archive then Inbox !in labels && Trash !in labels && Spam !in labels
    else view in labels && Trash !in labels && Spam !in labels
  }

  /** The actions of the bulk endpoint. */
  datatype BulkAction =
    | BulkArchive | BulkTrash | BulkSpam
    | BulkRead | BulkUnread
    | BulkMove(target: Label) | BulkLabel(target: Label) | BulkUnlabel(target: Label)
    | BulkMute | BulkUnmute
    | BulkDismiss | BulkDelete

  /** The labels the browser computes for one thread of a bulk action. */
  function ApplyBulkLabels(labels: set<Label>, action: BulkAction): set<Label> {
    match action
    case BulkArchive => labels - {Inbox}
    case BulkTrash => labels + {Trash}
    case BulkSpam => labels + {Spam}
    case BulkMove(Inbox) => labels - {Inbox, Trash, Spam} + {Inbox}
    case BulkMove(Trash) => labels + {Trash}
    case BulkMove(Spam) => labels + {Spam}
    case BulkMove(Archive) => labels - {Inbox}
    case BulkMove(target) => labels + {target}
    case BulkMute => labels + {Muted}
    case BulkUnmute => labels - {Muted}
    case BulkLabel(target) => labels + {target}
    case BulkUnlabel(target) => labels - {target}
    case _ => labels
  }

  /** One action never makes threads both leave a view and join it: if some thread of a view leaves it,
      then the action puts no thread into that view. */
  lemma NeverLeaveAndJoin(action: BulkAction, view: Label, leaver: set<Label>, other: set<Label>)
    requires BelongsInView(leaver, view) && !BelongsInView(ApplyBulkLabels(leaver, action), view)
    ensures !BelongsInView(ApplyBulkLabels(other, action), view)
  {
    match action
    case BulkMove(target) =>
    case BulkLabel(target) =>
    case BulkUnlabel(target) =>
    case _ =>
  }

  /** Repeating an action changes nothing more. */
  lemma ApplyBulkLabelsIdempotent(labels: set<Label>, action: BulkAction)
    ensures ApplyBulkLabels(ApplyBulkLabels(labels, action), action) == ApplyBulkLabels(labels, action)
  {
  }
}
