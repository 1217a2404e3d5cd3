/**
 * The bulk-operations provider wrapped around a list view: the set of
 * selected ids, the registry of bulk actions, and running an action on the
 * selected items.
 *
 * The action's own effect, the browser confirmation dialog and the outcome
 * of the (awaited) action are parameters; the toast is returned.
 */
module BulkOperations {
  import opened Wrappers
  import opened Seqs

  /** Ids are numbers or strings; `1` and `"1"` are different set members. */
  datatype ItemId = NumId(n: int) | StrId(s: string)

  datatype Item<T> = Item(id: ItemId, data: T)

  /** `confirm?: boolean | ((selected) => boolean)`. */
  datatype Confirm<!T> = NoConfirm | Flag(b: bool) | Decide(f: seq<Item<T>> -> bool)

  /** A registered action; `title` is its label. */
  datatype Action<!T> = Action(key: string, title: string, confirm: Confirm<T>)

  /** The toast pushed after running an action. */
  datatype Toast = Applied(title: string, count: nat) | Failed(message: string)

  /** What `execute` did. */
  datatype Outcome<T> = NoSuchAction | NothingSelected | Declined | Ran(selected: seq<Item<T>>, toast: Toast)

  function IdOf<T>(x: Item<T>): ItemId { x.id }

  function KeyOf<T>(a: Action<T>): string { a.key }

  /** The ids of the items, built from the back. */
  function ItemIds<T>(items: seq<Item<T>>): (r: set<ItemId>)
    ensures forall id :: id in r <==> exists i :: 0 <= i < |items| && items[i].id == id
  {
    if items == [] then {}
    else ItemIds(items[..|items| - 1]) + {items[|items| - 1].id}
  }

  /** With distinct ids there are as many ids as items. */
  lemma {:induction false} ItemIdsCount<T>(items: seq<Item<T>>)
    requires DistinctBy(items, IdOf)
    ensures |ItemIds(items)| == |items|
  {
    if items != [] {
      var init := items[..|items| - 1];
      assert DistinctBy(init, IdOf) by {
        forall i, j | 0 <= i < j < |init| ensures IdOf(init[i]) != IdOf(init[j]) {
          assert init[i] == items[i] && init[j] == items[j];
        }
      }
      ItemIdsCount(init);
      assert items[|items| - 1].id !in ItemIds(init);
    }
  }

  /** `toggle(id)`: adds an absent id, removes a present one. */
  function Toggle(selected: set<ItemId>, id: ItemId): (r: set<ItemId>)
    ensures id in r <==> id !in selected
    ensures forall other :: other != id ==> (other in r <==> other in selected)
  {
    if id in selected then selected - {id} else selected + {id}
  }

  lemma ToggleTwice(selected: set<ItemId>, id: ItemId)
    ensures Toggle(Toggle(selected, id), id) == selected
  {
  }

  /** `toggleAll`: clear when as many ids are selected as there are items, else select every item. */
  function ToggleAll<T>(selected: set<ItemId>, items: seq<Item<T>>): (r: set<ItemId>)
    ensures |selected| == |items| ==> r == {}
    ensures |selected| != |items| ==> forall i :: 0 <= i < |items| ==> items[i].id in r
    ensures forall id :: id in r ==> exists i :: 0 <= i < |items| && items[i].id == id
  {
    if |selected| == |items| then {} else ItemIds(items)
  }

  /** `count > 0 && count === items.length`. */
  predicate AllSelected<T>(selected: set<ItemId>, items: seq<Item<T>>)
  {
    |selected| > 0 && |selected| == |items|
  }

  /**
   * With distinct item ids and only item ids selected, "all selected" means
   * exactly that every item is selected in a non-empty list.
   */
  lemma AllSelectedMeansEveryItem<T>(selected: set<ItemId>, items: seq<Item<T>>)
    requires DistinctBy(items, IdOf) && selected <= ItemIds(items)
    ensures AllSelected(selected, items) <==> |items| > 0 && ItemIds(items) <= selected
  {
    ItemIdsCount(items);
    var all := ItemIds(items);
    if AllSelected(selected, items) {
      if !(all <= selected) {
        var missing :| missing in all && missing !in selected;
        assert selected <= all - {missing};
        assert |all - {missing}| == |all| - 1;
        SubsetCard(selected, all - {missing});
      }
    }
    if |items| > 0 && all <= selected {
      assert selected == all;
      assert items[0].id in all;
    }
  }

  lemma SubsetCard(a: set<ItemId>, b: set<ItemId>)
    requires a <= b
    ensures |a| <= |b|
  {
    assert b == a + (b - a);
    assert a * (b - a) == {};
  }

  /** With distinct ids, `toggleAll` from a partial selection selects all, and again clears. */
  lemma ToggleAllTwice<T>(selected: set<ItemId>, items: seq<Item<T>>)
    requires DistinctBy(items, IdOf) && |selected| != |items|
    ensures AllSelected(ToggleAll(selected, items), items) || items == []
    ensures ToggleAll(ToggleAll(selected, items), items) == {}
  {
    ItemIdsCount(items);
  }

  /** `actions.find(a => a.key === key)`: the first action with that key. */
  function FindAction<T>(actions: seq<Action<T>>, key: string): (r: Option<nat>)
    ensures r.None? <==> forall i :: 0 <= i < |actions| ==> actions[i].key != key
    ensures r.Some? ==> r.value < |actions| && actions[r.value].key == key
                        && forall i :: 0 <= i < r.value ==> actions[i].key != key
  {
    if actions == [] then None
    else if actions[0].key == key then Some(0)
    else match FindAction(actions[1..], key)
      case None => None
      case Some(i) => Some(i + 1)
  }

  /** `registerAction`: appended unless an action with that key already exists. */
  function Register<T>(actions: seq<Action<T>>, a: Action<T>): (r: seq<Action<T>>)
  {
    if FindAction(actions, a.key).Some? then actions else actions + [a]
  }

  /** Registering never creates a second action with a key, and is idempotent. */
  lemma RegisterKeepsKeysDistinct<T>(actions: seq<Action<T>>, a: Action<T>)
    requires DistinctBy(actions, KeyOf)
    ensures DistinctBy(Register(actions, a), KeyOf)
    ensures Register(Register(actions, a), a) == Register(actions, a)
    ensures exists i :: 0 <= i < |Register(actions, a)| && Register(actions, a)[i].key == a.key
  {
    var r := Register(actions, a);
    if FindAction(actions, a.key).None? {
      assert r[|actions|] == a;
      assert FindAction(r, a.key).Some?;
    } else {
      var i := FindAction(actions, a.key).value;
      assert r[i].key == a.key;
    }
  }

  /** `unregisterAction`: every action with that key dropped, the rest kept in order. */
  function Unregister<T>(actions: seq<Action<T>>, key: string): (r: seq<Action<T>>)
    ensures forall i :: 0 <= i < |r| ==> r[i].key != key
    ensures FindAction(actions, key).None? ==> r == actions
  {
    if actions == [] then []
    else (if actions[0].key == key then [] else [actions[0]]) + Unregister(actions[1..], key)
  }

  /** Unregistering keeps every action with another key. */
  lemma {:induction false} UnregisterKeepsOthers<T>(actions: seq<Action<T>>, key: string, i: nat)
    requires i < |actions| && actions[i].key != key
    ensures exists j :: 0 <= j < |Unregister(actions, key)| && Unregister(actions, key)[j] == actions[i]
  {
    var head := if actions[0].key == key then [] else [actions[0]];
    var r := Unregister(actions, key);
    if i == 0 {
      assert r[0] == actions[0];
    } else {
      UnregisterKeepsOthers(actions[1..], key, i - 1);
      var j :| 0 <= j < |Unregister(actions[1..], key)| && Unregister(actions[1..], key)[j] == actions[1..][i - 1];
      assert r[|head| + j] == actions[i];
    }
  }

  /** The test `selected.has(item.id)`. */
  function InSelection<T>(selected: set<ItemId>): Item<T> -> bool
  {
    (x: Item<T>) => x.id in selected
  }

  /** The items handed to an action: the selected ones, in list order. */
  function SelectedItems<T>(items: seq<Item<T>>, selected: set<ItemId>): (r: seq<Item<T>>)
    ensures |r| <= |items|
    ensures forall i :: 0 <= i < |r| ==> r[i].id in selected && r[i] in items
    ensures r == Filter(items, InSelection(selected))
  {
    if items == [] then []
    else SelectedItems(items[..|items| - 1], selected)
         + (if items[|items| - 1].id in selected then [items[|items| - 1]] else [])
  }

  /** Every selected item of the list is handed to the action. */
  lemma {:induction false} SelectedItemsComplete<T>(items: seq<Item<T>>, selected: set<ItemId>, i: nat)
    requires i < |items| && items[i].id in selected
    ensures exists j :: 0 <= j < |SelectedItems(items, selected)| && SelectedItems(items, selected)[j] == items[i]
  {
    var init := items[..|items| - 1];
    var r := SelectedItems(items, selected);
    if i == |items| - 1 {
      assert r[|r| - 1] == items[i];
    } else {
      SelectedItemsComplete(init, selected, i);
      var j :| 0 <= j < |SelectedItems(init, selected)| && SelectedItems(init, selected)[j] == init[i];
      assert r[j] == items[i];
    }
  }

  /** No item of the list is selected exactly when nothing is handed to an action. */
  lemma {:induction false} SelectedItemsEmpty<T>(items: seq<Item<T>>, selected: set<ItemId>)
    ensures SelectedItems(items, selected) == [] <==> forall i :: 0 <= i < |items| ==> items[i].id !in selected
  {
    if items != [] {
      SelectedItemsEmpty(items[..|items| - 1], selected);
      var init := items[..|items| - 1];
      assert forall i :: 0 <= i < |init| ==> init[i] == items[i];
    }
  }

  function NeedsConfirm<T>(c: Confirm<T>, selected: seq<Item<T>>): bool
  {
    match c
    case NoConfirm => false
    case Flag(b) => b
    case Decide(f) => f(selected)
  }

  /** The failure toast: the error's message, or a stock text when it has none. */
  function FailureMessage(errorMessage: string): (m: string)
    ensures m != ""
  {
    if errorMessage != "" then errorMessage else "Bulk action failed"
  }

  class Provider<T> {
    var items: seq<Item<T>>
    var selected: set<ItemId>
    var actions: seq<Action<T>>
    var executingKey: Option<string>

    constructor(items: seq<Item<T>>, initialSelected: set<ItemId>, initialActions: seq<Action<T>>)
      ensures this.items == items && selected == initialSelected && actions == initialActions
      ensures executingKey == None
    {
      this.items := items;
      selected := initialSelected;
      actions := initialActions;
      executingKey := None;
    }

    method ToggleId(id: ItemId)
      modifies this
      ensures selected == Toggle(old(selected), id)
      ensures items == old(items) && actions == old(actions) && executingKey == old(executingKey)
    {
      selected := Toggle(selected, id);
    }

    method ToggleEvery()
      modifies this
      ensures selected == ToggleAll(old(selected), items)
      ensures items == old(items) && actions == old(actions) && executingKey == old(executingKey)
    {
      selected := ToggleAll(selected, items);
    }

    method Clear()
      modifies this
      ensures selected == {}
      ensures items == old(items) && actions == old(actions) && executingKey == old(executingKey)
    {
      selected := {};
    }

    method RegisterAction(a: Action<T>)
      modifies this
      ensures actions == Register(old(actions), a)
      ensures items == old(items) && selected == old(selected) && executingKey == old(executingKey)
    {
      actions := Register(actions, a);
    }

    method UnregisterAction(key: string)
      modifies this
      ensures actions == Unregister(old(actions), key)
      ensures items == old(items) && selected == old(selected) && executingKey == old(executingKey)
    {
      actions := Unregister(actions, key);
    }

    /**
     * `execute(key)`: nothing for an unknown key or an empty selection, or
     * when the user declines a required confirmation; otherwise the action
     * runs on the selected items in list order, a success or failure toast
     * follows, and `executingKey` is cleared either way.
     */
    method Execute(key: string, userConfirms: bool, failure: Option<string>) returns (outcome: Outcome<T>)
      modifies this
      ensures items == old(items) && selected == old(selected) && actions == old(actions)
      ensures FindAction(actions, key).None? ==> outcome == NoSuchAction && executingKey == old(executingKey)
      ensures FindAction(actions, key).Some? && SelectedItems(items, selected) == [] ==>
                outcome == NothingSelected && executingKey == old(executingKey)
      ensures FindAction(actions, key).Some? && SelectedItems(items, selected) != [] ==>
                var a := actions[FindAction(actions, key).value];
                var chosen := SelectedItems(items, selected);
                if NeedsConfirm(a.confirm, chosen) && !userConfirms then
                  outcome == Declined && executingKey == old(executingKey)
                else
                  executingKey == None
                  && outcome == Ran(chosen, if failure.None? then Applied(a.title, |chosen|) else Failed(FailureMessage(failure.value)))
    {
      var found := FindAction(actions, key);
      if found.None? {
        return NoSuchAction;
      }
      var a := actions[found.value];
      var chosen := SelectedItems(items, selected);
      if chosen == [] {
        return NothingSelected;
      }
      if NeedsConfirm(a.confirm, chosen) && !userConfirms {
        return Declined;
      }
      executingKey := Some(key);
      var toast := if failure.None? then Applied(a.title, |chosen|) else Failed(FailureMessage(failure.value));
      executingKey := None;
      outcome := Ran(chosen, toast);
    }
  }
}
