/**
 * The action registry: the three action classes under their names, looked
 * up by name when a task is executed.
 */
module Registry {
  import opened Python
  import UpdateTitle
  import ProductSnapshot
  import AdsCenter

  /** The registered action classes. */
  datatype ActionClass = FetchAdsSummaryAction | UpdateTitleAction | FetchProductSnapshotAction

  /** The `action_name` class attribute of each. */
  function ActionName(c: ActionClass): (name: string)
    ensures c.FetchAdsSummaryAction? ==> name == AdsCenter.ActionName
    ensures c.UpdateTitleAction? ==> name == UpdateTitle.ActionName
    ensures c.FetchProductSnapshotAction? ==> name == ProductSnapshot.ActionName
  {
    match c
    case FetchAdsSummaryAction => AdsCenter.ActionName
    case UpdateTitleAction => UpdateTitle.ActionName
    case FetchProductSnapshotAction => ProductSnapshot.ActionName
  }

  /** `ACTION_REGISTRY`, in insertion order. */
  const ActionRegistry: seq<(string, ActionClass)> := [
    ("fetch_ads_summary", FetchAdsSummaryAction),
    ("update_title", UpdateTitleAction),
    ("fetch_product_snapshot", FetchProductSnapshotAction)
  ]

  /** The keys of a registry, in order. */
  function Keys(reg: seq<(string, ActionClass)>): (ks: seq<string>)
    ensures |ks| == |reg| && forall i :: 0 <= i < |reg| ==> ks[i] == reg[i].0
  {
    if reg == [] then [] else [reg[0].0] + Keys(reg[1..])
  }

  /** `registry[name]` when the name is a key. */
  function Lookup(reg: seq<(string, ActionClass)>, name: string): (r: Option<ActionClass>)
    ensures r.Some? <==> name in Keys(reg)
    ensures r.Some? ==> exists i :: 0 <= i < |reg| && reg[i] == (name, r.value)
  {
    if reg == [] then None
    else if reg[0].0 == name then Some(reg[0].1)
    else
      var r := Lookup(reg[1..], name);
      assert Keys(reg) == [reg[0].0] + Keys(reg[1..]);
      if r.Some? then
        var i :| 0 <= i < |reg[1..]| && reg[1..][i] == (name, r.value);
        assert reg[i + 1] == (name, r.value);
        r
      else r
  }

  /** `list_available_actions()` */
  function ListAvailableActions(): (names: seq<string>)
    ensures names == ["fetch_ads_summary", "update_title", "fetch_product_snapshot"]
    ensures forall i, j :: 0 <= i < j < |names| ==> names[i] != names[j]
  {
    Keys(ActionRegistry)
  }

  /** The ValueError's message for an unknown name: the name and the list
      of the available ones. */
  function UnknownAction(name: string): string
  {
    "未知的 Action: " + name + "，可用: "
      + Repr(VList(seq(|ListAvailableActions()|, i requires 0 <= i < |ListAvailableActions()| =>
                         VStr(ListAvailableActions()[i]))))
  }

  /** `get_action_class(name)`: the class registered under the name, whose
      own `action_name` is that name; a ValueError for any other name. */
  function GetActionClass(name: string): (r: Except<ActionClass>)
    ensures r.Normal? <==> name in ListAvailableActions()
    ensures r.Normal? ==> ActionName(r.value) == name
    ensures r.Thrown? ==> r.msg == UnknownAction(name)
  {
    match Lookup(ActionRegistry, name)
    case Some(c) => Normal(c)
    case None => Thrown(UnknownAction(name))
  }

  /** Each name maps to a different class, so dispatch by name is
      one-to-one. */
  lemma RegistryOneToOne(a: string, b: string)
    requires GetActionClass(a).Normal? && GetActionClass(b).Normal?
    requires GetActionClass(a).value == GetActionClass(b).value
    ensures a == b
  {
  }
}
