/** Label arrays as the browser computes them, name by name. The label sets of the other modules lose nothing: two
    names are one label only when they are the same name. */
module LabelArrays {
  import opened Wrappers
  import opened Labels
  import opened ThreadLists

  // --- the array operations ---

  /** Array.prototype.filter with the test `l !== name`. */
  function Without(names: seq<string>, name: string): (r: seq<string>)
    ensures forall n :: n in r <==> n in names && n != name
  {
    if names == [] then []
    else
      var last := |names| - 1;
      var rest := Without(names[..last], name);
      assert forall n :: n in names <==> n in names[..last] || n == names[last];
      if names[last] == name then rest else rest + [names[last]]
  }

  function Including(names: seq<string>, name: string): seq<string> {
    if name in names then names else names + [name]
  }

  function Last(names: seq<string>, name: string): seq<string> {
    Without(names, name) + [name]
  }

  /** The action of a bulk event, before its label is read. */
  datatype ActionName =
    | ArchiveAction | TrashAction | SpamAction | MoveAction
    | MuteAction | UnmuteAction | LabelAction | UnlabelAction
    | OtherAction

  function MoveNames(names: seq<string>, name: string): seq<string> {
    if name == "inbox" then Without(Without(Without(names, "inbox"), "trash"), "spam") + ["inbox"]
    else if name == "trash" then Last(names, "trash")
    else if name == "spam" then Last(names, "spam")
    else if name == "archive" then Without(names, "inbox")
    else Including(names, name)
  }

  /** The label names of a thread after a bulk action with a label. */
  function ApplyNames(names: seq<string>, action: ActionName, name: string): seq<string> {
    match action
    case ArchiveAction => Without(names, "inbox")
    case TrashAction => Last(names, "trash")
    case SpamAction => Last(names, "spam")
    case MoveAction => MoveNames(names, name)
    case MuteAction => Including(names, "muted")
    case UnmuteAction => Without(names, "muted")
    case LabelAction => Including(names, name)
    case UnlabelAction => Without(names, name)
    case OtherAction => names
  }

  /** Whether a thread with these label names is listed under a view. */
  predicate NamesBelong(names: seq<string>, view: string) {
    if view == "trash" || view == "spam" then view in names
    else if view == "archive" then "inbox" !in names && "trash" !in names && "spam" !in names
    else view in names && "trash" !in names && "spam" !in names
  }

  // --- the label sets ---

  function LabelSet(names: seq<string>): set<Label> {
    set n | n in names :: LabelOf(n)
  }

  /** What an action with a label makes of the label set. Every other action leaves labels alone. */
  function Relabelled(labels: set<Label>, action: ActionName, l: Label): set<Label> {
    match action
    case ArchiveAction => ApplyBulkLabels(labels, BulkArchive)
    case TrashAction => ApplyBulkLabels(labels, BulkTrash)
    case SpamAction => ApplyBulkLabels(labels, BulkSpam)
    case MoveAction => ApplyBulkLabels(labels, BulkMove(l))
    case MuteAction => ApplyBulkLabels(labels, BulkMute)
    case UnmuteAction => ApplyBulkLabels(labels, BulkUnmute)
    case LabelAction => ApplyBulkLabels(labels, BulkLabel(l))
    case UnlabelAction => ApplyBulkLabels(labels, BulkUnlabel(l))
    case OtherAction => labels
  }

  /** A name is in the array exactly when its label is in the set. */
  lemma InLabelSet(names: seq<string>, name: string)
    ensures LabelOf(name) in LabelSet(names) <==> name in names
  {
    if LabelOf(name) in LabelSet(names) {
      var n :| n in names && LabelOf(n) == LabelOf(name);
      LabelOfIsInjective(n, name);
    }
  }

  lemma WithoutLabel(names: seq<string>, name: string)
    ensures LabelSet(Without(names, name)) == LabelSet(names) - {LabelOf(name)}
  {
    forall l: Label
      ensures l in LabelSet(Without(names, name)) <==> l in LabelSet(names) && l != LabelOf(name)
    {
      if l in LabelSet(names) {
        var n :| n in names && LabelOf(n) == l;
        LabelOfIsInjective(n, name);
        assert n != name ==> n in Without(names, name);
      }
      if l in LabelSet(Without(names, name)) {
        var n :| n in Without(names, name) && LabelOf(n) == l;
        LabelOfIsInjective(n, name);
      }
    }
  }

  lemma WithLabel(names: seq<string>, name: string)
    ensures LabelSet(names + [name]) == LabelSet(names) + {LabelOf(name)}
    ensures LabelSet(Including(names, name)) == LabelSet(names) + {LabelOf(name)}
    ensures LabelSet(Last(names, name)) == LabelSet(names) + {LabelOf(name)}
  {
    assert forall n :: n in names + [name] <==> n in names || n == name;
    WithoutLabel(names, name);
    assert forall n :: n in Last(names, name) <==> n in names || n == name;
  }

  lemma ClearedLabels(names: seq<string>)
    ensures LabelSet(Without(Without(Without(names, "inbox"), "trash"), "spam") + ["inbox"])
         == LabelSet(names) - {Inbox, Trash, Spam} + {Inbox}
  {
    WithoutLabel(names, "inbox");
    WithoutLabel(Without(names, "inbox"), "trash");
    WithoutLabel(Without(Without(names, "inbox"), "trash"), "spam");
    WithLabel(Without(Without(Without(names, "inbox"), "trash"), "spam"), "inbox");
  }

  /** The folder test of a move on a name is the one on its label. */
  lemma MoveNamesIs(names: seq<string>, name: string)
    ensures MoveNames(names, name) ==
      match LabelOf(name)
      case Inbox => Without(Without(Without(names, "inbox"), "trash"), "spam") + ["inbox"]
      case Trash => Last(names, "trash")
      case Spam => Last(names, "spam")
      case Archive => Without(names, "inbox")
      case _ => Including(names, name)
  {
  }

  lemma MoveOnNames(names: seq<string>, name: string)
    ensures LabelSet(MoveNames(names, name)) == ApplyBulkLabels(LabelSet(names), BulkMove(LabelOf(name)))
  {
    MoveNamesIs(names, name);
    match LabelOf(name)
    case Inbox => ClearedLabels(names);
    case Trash => WithLabel(names, "trash");
    case Spam => WithLabel(names, "spam");
    case Archive => WithoutLabel(names, "inbox");
    case _ => WithLabel(names, name);
  }

  /** The array lists what the action makes of the label set. */
  ghost predicate Refines(names: seq<string>, action: ActionName, name: string, l: Label) {
    LabelSet(ApplyNames(names, action, name)) == Relabelled(LabelSet(names), action, l)
  }

  lemma ArchiveRefines(names: seq<string>, name: string, l: Label)
    ensures Refines(names, ArchiveAction, name, l)
  {
    WithoutLabel(names, "inbox");
  }

  lemma TrashRefines(names: seq<string>, name: string, l: Label)
    ensures Refines(names, TrashAction, name, l)
  {
    WithLabel(names, "trash");
  }

  lemma SpamRefines(names: seq<string>, name: string, l: Label)
    ensures Refines(names, SpamAction, name, l)
  {
    WithLabel(names, "spam");
  }

  lemma MuteRefines(names: seq<string>, name: string, l: Label)
    ensures Refines(names, MuteAction, name, l)
    ensures Refines(names, UnmuteAction, name, l)
  {
    WithLabel(names, "muted");
    WithoutLabel(names, "muted");
  }

  lemma LabelRefines(names: seq<string>, name: string)
    ensures Refines(names, LabelAction, name, LabelOf(name))
    ensures Refines(names, UnlabelAction, name, LabelOf(name))
  {
    WithLabel(names, name);
    WithoutLabel(names, name);
  }

  lemma MoveRefines(names: seq<string>, name: string)
    ensures Refines(names, MoveAction, name, LabelOf(name))
  {
    MoveOnNames(names, name);
  }

  /** The array the browser computes lists exactly the labels of the set, for every action and label name. */
  lemma NamesRefineLabels(names: seq<string>, action: ActionName, name: string)
    ensures Refines(names, action, name, LabelOf(name))
  {
    var l := LabelOf(name);
    match action
    case MoveAction => MoveRefines(names, name);
    case LabelAction => LabelRefines(names, name);
    case UnlabelAction => LabelRefines(names, name);
    case MuteAction => MuteRefines(names, name, l);
    case UnmuteAction => MuteRefines(names, name, l);
    case ArchiveAction => ArchiveRefines(names, name, l);
    case TrashAction => TrashRefines(names, name, l);
    case SpamAction => SpamRefines(names, name, l);
    case OtherAction =>
  }

  lemma AppendDistinct(names: seq<string>, name: string)
    requires Distinct(names) && name !in names
    ensures Distinct(names + [name])
  {
    var all := names + [name];
    assert forall i :: 0 <= i < |names| ==> all[i] in names;
  }

  lemma {:induction false} WithoutDistinct(names: seq<string>, name: string)
    requires Distinct(names)
    ensures Distinct(Without(names, name))
  {
    if names != [] {
      var last := |names| - 1;
      forall i, j | 0 <= i < j < last
        ensures names[..last][i] != names[..last][j]
      {
        assert names[i] != names[j];
      }
      WithoutDistinct(names[..last], name);
      if names[last] != name {
        forall i | 0 <= i < last
          ensures names[..last][i] != names[last]
        {
        }
        AppendDistinct(Without(names[..last], name), names[last]);
      }
    }
  }

  /** An array without repeats stays without repeats. */
  lemma NamesStayDistinct(names: seq<string>, action: ActionName, name: string)
    requires Distinct(names)
    ensures Distinct(ApplyNames(names, action, name))
  {
    match action
    case ArchiveAction => WithoutDistinct(names, "inbox");
    case TrashAction => LastDistinct(names, "trash");
    case SpamAction => LastDistinct(names, "spam");
    case MoveAction => MoveStaysDistinct(names, name);
    case MuteAction => IncludingDistinct(names, "muted");
    case UnmuteAction => WithoutDistinct(names, "muted");
    case LabelAction => IncludingDistinct(names, name);
    case UnlabelAction => WithoutDistinct(names, name);
    case OtherAction =>
  }

  lemma LastDistinct(names: seq<string>, name: string)
    requires Distinct(names)
    ensures Distinct(Last(names, name))
  {
    WithoutDistinct(names, name);
    AppendDistinct(Without(names, name), name);
  }

  lemma IncludingDistinct(names: seq<string>, name: string)
    requires Distinct(names)
    ensures Distinct(Including(names, name))
  {
    if name !in names { AppendDistinct(names, name); }
  }

  lemma MoveStaysDistinct(names: seq<string>, name: string)
    requires Distinct(names)
    ensures Distinct(MoveNames(names, name))
  {
    if name == "inbox" {
      WithoutDistinct(names, "inbox");
      WithoutDistinct(Without(names, "inbox"), "trash");
      WithoutDistinct(Without(Without(names, "inbox"), "trash"), "spam");
      AppendDistinct(Without(Without(Without(names, "inbox"), "trash"), "spam"), "inbox");
    } else if name == "trash" || name == "spam" {
      LastDistinct(names, name);
    } else if name == "archive" {
      WithoutDistinct(names, "inbox");
    } else {
      IncludingDistinct(names, name);
    }
  }

  /** The view test on names is the one on label sets. */
  lemma ViewsAgree(names: seq<string>, view: string)
    ensures NamesBelong(names, view) <==> BelongsInView(LabelSet(names), LabelOf(view))
  {
    InLabelSet(names, view);
    InLabelSet(names, "inbox");
    InLabelSet(names, "trash");
    InLabelSet(names, "spam");
    LabelOfIsInjective(view, "trash");
    LabelOfIsInjective(view, "spam");
    LabelOfIsInjective(view, "archive");
  }
}
