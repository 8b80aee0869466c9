// The collection grid: one card per item, and the edit session, a single
// `editingItem` slot that the card's edit button fills and the edit form's
// save and cancel empty.

module Grid {
  import opened Types
  import opened Catalog
  import Card

  /** A call the grid makes to the page's handlers. */
  datatype Call = UpdateCall(id: string, patch: Patch) | DeleteCall(id: string)

  /** The cards of `items`, one per item and in the same order. */
  function Cards(catalog: CatalogData, items: seq<Item>): (r: seq<Card.CardView>)
    ensures |r| == |items|
    ensures forall i :: 0 <= i < |items| ==> r[i] == Card.View(catalog, items[i]) && r[i].id == items[i].id
  {
    if items == [] then [] else [Card.View(catalog, items[0])] + Cards(catalog, items[1..])
  }

  class CollectionGrid {
    var editing: Option<Item>

    constructor()
      ensures editing == None
    {
      editing := None;
    }

    /** handleEdit: the chosen item becomes the one being edited. */
    method HandleEdit(it: Item)
      modifies this
      ensures editing == Some(it)
    {
      editing := Some(it);
    }

    /** handleSaveEdit: with an item being edited, one update of that item's id, then the session ends; otherwise nothing. */
    method HandleSaveEdit(p: Patch) returns (calls: seq<Call>)
      modifies this
      ensures old(editing).Some? ==> calls == [UpdateCall(old(editing).value.id, p)] && editing == None
      ensures old(editing).None? ==> calls == [] && editing == None
    {
      calls := [];
      if editing.Some? {
        calls := [UpdateCall(editing.value.id, p)];
        editing := None;
      }
    }

    /** The form's cancel: the session ends and no update is made. */
    method Cancel() returns (calls: seq<Call>)
      modifies this
      ensures calls == [] && editing == None
    {
      calls := [];
      editing := None;
    }

    /** A card's delete button: one delete of that card's item id; the edit session is left as it is. */
    method HandleDelete(it: Item) returns (calls: seq<Call>)
      ensures calls == [DeleteCall(it.id)]
    {
      calls := [DeleteCall(it.id)];
    }
  }
}
