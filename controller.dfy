// The collection page: it holds the item list and applies the outcome of
// each awaited gateway call to it (load, add, update, delete), only after
// the call has succeeded; and it derives the list shown under a status
// filter.

module Controller {
  import opened Types
  import opened Seqs

  /** The new value of a required text property: the patch's when present. */
  function RequiredText(p: Patch, f: Field, current: string): string
    requires IsPartialItem(p) && IsRequired(f) && f !in {PurchasePriceField, StatusField}
  {
    if f in p then p[f].value.text else current
  }

  /** The new value of an optional text property: the patch's when present, even an explicit undefined. */
  function OptionalTextField(p: Patch, f: Field, current: Option<string>): Option<string>
    requires IsPartialItem(p) && f !in {PurchasePriceField, SellPriceField, StatusField}
  {
    if f !in p then current
    else if p[f].None? then None
    else Some(p[f].value.text)
  }

  /** `{ ...item, ...patch }`: every property the patch has overrides the item's. */
  function Merge(it: Item, p: Patch): Item
    requires IsPartialItem(p)
  {
    Item(
      RequiredText(p, IdField, it.id),
      OptionalTextField(p, UserIdField, it.userId),
      RequiredText(p, CharacterField, it.character),
      RequiredText(p, SeriesField, it.series),
      RequiredText(p, ItemField, it.item),
      if PurchasePriceField in p then p[PurchasePriceField].value.cents else it.purchasePrice,
      if SellPriceField !in p then it.sellPrice
      else if p[SellPriceField].None? then None
      else Some(p[SellPriceField].value.cents),
      OptionalTextField(p, ImageField, it.image),
      if StatusField in p then p[StatusField].value.status else it.status,
      OptionalTextField(p, NotesField, it.notes),
      RequiredText(p, DateAddedField, it.dateAdded),
      OptionalTextField(p, CreatedAtField, it.createdAt),
      OptionalTextField(p, UpdatedAtField, it.updatedAt))
  }

  /** Each property of the merged item is the patch's when the patch has the key, and the item's otherwise. */
  lemma MergeOverrides(it: Item, p: Patch, f: Field)
    requires IsPartialItem(p)
    ensures Get(Merge(it, p), f) == if f in p then p[f] else Get(it, f)
  {
    if f in p && p[f].Some? {
      assert Fits(f, p[f].value);
    }
  }

  /** Merging the empty patch changes nothing. */
  lemma MergeEmpty(it: Item)
    ensures Merge(it, map[]) == it
  {
  }

  /** Merging two patches in turn is merging their union, the later one winning. */
  lemma MergeTwice(it: Item, p: Patch, q: Patch)
    requires IsPartialItem(p) && IsPartialItem(q)
    ensures IsPartialItem(p + q)
    ensures Merge(Merge(it, p), q) == Merge(it, p + q)
  {
    var a, b := Merge(Merge(it, p), q), Merge(it, p + q);
    forall f ensures Get(a, f) == Get(b, f) {
      MergeOverrides(Merge(it, p), q, f);
      MergeOverrides(it, p, f);
      MergeOverrides(it, p + q, f);
    }
    ItemExtensionality(a, b);
  }

  /** `items.map(item => item.id === id ? { ...item, ...patch } : item)`. */
  function UpdateById(items: seq<Item>, id: string, p: Patch): (r: seq<Item>)
    requires IsPartialItem(p)
    ensures |r| == |items|
    ensures forall i :: 0 <= i < |items| ==> r[i] == if items[i].id == id then Merge(items[i], p) else items[i]
  {
    if items == [] then []
    else [if items[0].id == id then Merge(items[0], p) else items[0]] + UpdateById(items[1..], id, p)
  }

  /** An update touches only the entries with the id, and there only the properties in the patch. */
  lemma UpdateChangesOnlyMatching(items: seq<Item>, id: string, p: Patch, i: nat, f: Field)
    requires IsPartialItem(p) && i < |items|
    ensures Get(UpdateById(items, id, p)[i], f) ==
              if items[i].id == id && f in p then p[f] else Get(items[i], f)
  {
    MergeOverrides(items[i], p, f);
  }

  /** Updating an id no entry has leaves the list as it was. */
  lemma {:induction false} UpdateAbsentId(items: seq<Item>, id: string, p: Patch)
    requires IsPartialItem(p)
    requires forall i :: 0 <= i < |items| ==> items[i].id != id
    ensures UpdateById(items, id, p) == items
  {
    if items != [] {
      UpdateAbsentId(items[1..], id, p);
    }
  }

  function NotId(id: string): Item -> bool {
    (x: Item) => x.id != id
  }

  /** `items.filter(item => item.id !== id)`. */
  function RemoveById(items: seq<Item>, id: string): (r: seq<Item>)
    ensures forall i :: 0 <= i < |r| ==> r[i].id != id && r[i] in items
    ensures forall i :: 0 <= i < |items| && items[i].id != id ==> items[i] in r
  {
    Filter(items, NotId(id))
  }

  /** Removing splits over a concatenation, so the remaining entries keep their order. */
  lemma RemoveKeepsOrder(a: seq<Item>, b: seq<Item>, id: string)
    ensures RemoveById(a + b, id) == RemoveById(a, id) + RemoveById(b, id)
  {
    FilterAppend(a, b, NotId(id));
  }

  /** Removing an id no entry has leaves the list as it was. */
  lemma RemoveAbsentId(items: seq<Item>, id: string)
    requires forall i :: 0 <= i < |items| ==> items[i].id != id
    ensures RemoveById(items, id) == items
  {
    FilterKeepsAll(items, NotId(id));
  }

  /** Removing drops exactly the entries with the id. */
  lemma {:induction false} RemoveCount(items: seq<Item>, id: string)
    ensures |RemoveById(items, id)| + |Filter(items, (x: Item) => x.id == id)| == |items|
  {
    if items != [] {
      RemoveCount(items[1..], id);
    }
  }

  const AllFilter := "All"

  function ShownUnder(filter: string): Item -> bool {
    (x: Item) => filter == AllFilter || StatusName(x.status) == filter
  }

  /** `items.filter(item => filter === "All" || item.status === filter)`. */
  function Filtered(items: seq<Item>, filter: string): (r: seq<Item>)
    ensures |r| <= |items|
    ensures forall i :: 0 <= i < |r| ==>
              r[i] in items && (filter == AllFilter || StatusName(r[i].status) == filter)
    ensures forall i :: 0 <= i < |items| && (filter == AllFilter || StatusName(items[i].status) == filter) ==>
              items[i] in r
  {
    Filter(items, ShownUnder(filter))
  }

  /** The "All" filter shows every item. */
  lemma FilteredAll(items: seq<Item>)
    ensures Filtered(items, AllFilter) == items
  {
    FilterKeepsAll(items, ShownUnder(AllFilter));
  }

  /** A status filter shows, in order, exactly the items with that status. */
  lemma {:induction false} FilteredByStatus(items: seq<Item>, s: Status)
    ensures Filtered(items, StatusName(s)) == Filter(items, (x: Item) => x.status == s)
  {
    if items != [] {
      FilteredByStatus(items[1..], s);
      StatusNameRoundTrip(s);
    }
  }

  /** A filter that is neither "All" nor a status literal shows nothing. */
  lemma FilteredUnknown(items: seq<Item>, filter: string)
    requires filter != AllFilter && ParseStatus(filter).None?
    ensures Filtered(items, filter) == []
  {
    forall i | 0 <= i < |items| ensures !ShownUnder(filter)(items[i]) {
      assert ParseStatus(StatusName(items[i].status)).Some?;
    }
    FilterKeepsNone(items, ShownUnder(filter));
  }

  const LoadFailure := "Failed to load collection. Please try again."

  /** The page state the four handlers change. */
  class CollectionPage {
    var items: seq<Item>
    var loading: bool
    var error: Option<string>
    var showAddForm: bool

    constructor()
      ensures items == [] && loading && error == None && !showAddForm
    {
      items := [];
      loading := true;
      error := None;
      showAddForm := false;
    }

    /** loadCollection: replaces the list on success, records the error otherwise; loading ends either way. */
    method LoadCollection(fetched: Outcome<seq<Item>>)
      modifies this
      ensures fetched.Ok? ==> items == fetched.value && error == None
      ensures fetched.Failed? ==> items == old(items) && error == Some(LoadFailure)
      ensures !loading && showAddForm == old(showAddForm)
    {
      loading := true;
      error := None;
      match fetched {
        case Ok(collection) =>
          items := collection;
        case Failed(_) =>
          error := Some(LoadFailure);
      }
      loading := false;
    }

    /** addItem: the returned item goes in front of the list and the add form closes; a failure changes nothing. */
    method AddItem(added: Outcome<Item>)
      modifies this
      ensures added.Ok? ==> items == [added.value] + old(items) && !showAddForm
      ensures added.Failed? ==> items == old(items) && showAddForm == old(showAddForm)
      ensures loading == old(loading) && error == old(error)
    {
      if added.Ok? {
        items := [added.value] + items;
        showAddForm := false;
      }
    }

    /** updateItem: the patch is merged into the entries with the id once the gateway call has succeeded. */
    method UpdateItem(id: string, p: Patch, stored: Outcome<()>)
      requires IsPartialItem(p)
      modifies this
      ensures stored.Ok? ==> items == UpdateById(old(items), id, p)
      ensures stored.Failed? ==> items == old(items)
      ensures loading == old(loading) && error == old(error) && showAddForm == old(showAddForm)
    {
      if stored.Ok? {
        items := UpdateById(items, id, p);
      }
    }

    /** deleteItem: the entries with the id leave the list once the gateway call has succeeded. */
    method DeleteItem(id: string, deleted: Outcome<()>)
      modifies this
      ensures deleted.Ok? ==> items == RemoveById(old(items), id)
      ensures deleted.Failed? ==> items == old(items)
      ensures loading == old(loading) && error == old(error) && showAddForm == old(showAddForm)
    {
      if deleted.Ok? {
        items := RemoveById(items, id);
      }
    }

    /** filteredItems: the entries shown under `filter`; "All" shows the whole list. */
    function FilteredItems(filter: string): (r: seq<Item>)
      reads this
      ensures |r| <= |items|
      ensures filter == AllFilter ==> r == items
    {
      FilteredAll(items);
      Filtered(items, filter)
    }
  }
}
