// The collection's record types: PopMartItem, its closed status
// enumeration, UserProfile, and Partial<PopMartItem> as a field patch.
// Prices are whole cents throughout the model.

module Types {

  datatype Option<T> = None | Some(value: T) {
    function GetOr(default: T): T {
      match this
      case Some(v) => v
      case None => default
    }
  }

  /** The outcome of an awaited backend call: it resolves with a value or throws. */
  datatype Outcome<T> = Ok(value: T) | Failed(reason: string)

  /** The four statuses an item can have, and no others. */
  datatype Status = Owned | Wishlist | ForSale | Sold

  /** The literal the source uses for each status. */
  function StatusName(s: Status): string {
    match s
    case Owned => "Owned"
    case Wishlist => "Wishlist"
    case ForSale => "For Sale"
    case Sold => "Sold"
  }

  /** The status whose literal is `name`, if there is one. */
  function ParseStatus(name: string): (r: Option<Status>)
    ensures r.Some? <==> name in {"Owned", "Wishlist", "For Sale", "Sold"}
    ensures r.Some? ==> StatusName(r.value) == name
  {
    if name == "Owned" then Some(Owned)
    else if name == "Wishlist" then Some(Wishlist)
    else if name == "For Sale" then Some(ForSale)
    else if name == "Sold" then Some(Sold)
    else None
  }

  /** Every status is named by a distinct literal, and parsing the literal gives it back. */
  lemma StatusNameRoundTrip(s: Status)
    ensures ParseStatus(StatusName(s)) == Some(s)
    ensures forall t: Status :: StatusName(t) == StatusName(s) ==> t == s
  {
  }

  /** A PopMartItem. Optional properties are Options; prices are cents. */
  datatype Item = Item(
    id: string,
    userId: Option<string>,
    character: string,
    series: string,
    item: string,
    purchasePrice: int,
    sellPrice: Option<int>,
    image: Option<string>,
    status: Status,
    notes: Option<string>,
    dateAdded: string,
    createdAt: Option<string>,
    updatedAt: Option<string>)

  /** JavaScript truthiness of `item.sellPrice`: defined and not zero. */
  predicate HasSellPrice(it: Item) {
    it.sellPrice.Some? && it.sellPrice.value != 0
  }

  datatype UserProfile = UserProfile(
    id: string,
    username: Option<string>,
    avatarUrl: Option<string>,
    createdAt: string,
    updatedAt: string)

  /** The properties of a PopMartItem, by name. */
  datatype Field =
    | IdField | UserIdField | CharacterField | SeriesField | ItemField
    | PurchasePriceField | SellPriceField | ImageField | StatusField
    | NotesField | DateAddedField | CreatedAtField | UpdatedAtField

  /** A property value: a string, a price in cents, or a status. */
  datatype Value = Text(text: string) | Amount(cents: int) | StatusValue(status: Status)

  /**
   * Partial<PopMartItem>: a key that is present is a property the object
   * has; `None` is a property that is present but explicitly undefined.
   */
  type Patch = map<Field, Option<Value>>

  /** The properties the PopMartItem interface does not mark optional. */
  predicate IsRequired(f: Field) {
    f in {IdField, CharacterField, SeriesField, ItemField, PurchasePriceField, StatusField, DateAddedField}
  }

  /** Whether `v` has the type the interface gives property `f`. */
  predicate Fits(f: Field, v: Value) {
    match f
    case PurchasePriceField => v.Amount?
    case SellPriceField => v.Amount?
    case StatusField => v.StatusValue?
    case _ => v.Text?
  }

  /** A patch whose values have their properties' types and that leaves no required property undefined. */
  predicate IsPartialItem(p: Patch) {
    forall f :: f in p ==> (p[f].Some? ==> Fits(f, p[f].value)) && (IsRequired(f) ==> p[f].Some?)
  }

  function TextOf(s: string): Option<Value> { Some(Text(s)) }

  function OptionalText(s: Option<string>): Option<Value> {
    match s
    case Some(t) => Some(Text(t))
    case None => None
  }

  /** Reads property `f` of an item; `None` for an optional property that is absent. */
  function Get(it: Item, f: Field): (r: Option<Value>)
    ensures IsRequired(f) ==> r.Some?
    ensures r.Some? ==> Fits(f, r.value)
  {
    match f
    case IdField => TextOf(it.id)
    case UserIdField => OptionalText(it.userId)
    case CharacterField => TextOf(it.character)
    case SeriesField => TextOf(it.series)
    case ItemField => TextOf(it.item)
    case PurchasePriceField => Some(Amount(it.purchasePrice))
    case SellPriceField => if it.sellPrice.Some? then Some(Amount(it.sellPrice.value)) else None
    case ImageField => OptionalText(it.image)
    case StatusField => Some(StatusValue(it.status))
    case NotesField => OptionalText(it.notes)
    case DateAddedField => TextOf(it.dateAdded)
    case CreatedAtField => OptionalText(it.createdAt)
    case UpdatedAtField => OptionalText(it.updatedAt)
  }

  /** Two items with the same properties are the same item. */
  lemma ItemExtensionality(a: Item, b: Item)
    requires forall f :: Get(a, f) == Get(b, f)
    ensures a == b
  {
    assert Get(a, IdField) == Get(b, IdField);
    assert Get(a, UserIdField) == Get(b, UserIdField);
    assert Get(a, CharacterField) == Get(b, CharacterField);
    assert Get(a, SeriesField) == Get(b, SeriesField);
    assert Get(a, ItemField) == Get(b, ItemField);
    assert Get(a, PurchasePriceField) == Get(b, PurchasePriceField);
    assert Get(a, SellPriceField) == Get(b, SellPriceField);
    assert Get(a, ImageField) == Get(b, ImageField);
    assert Get(a, StatusField) == Get(b, StatusField);
    assert Get(a, NotesField) == Get(b, NotesField);
    assert Get(a, DateAddedField) == Get(b, DateAddedField);
    assert Get(a, CreatedAtField) == Get(b, CreatedAtField);
    assert Get(a, UpdatedAtField) == Get(b, UpdatedAtField);
  }
}

/** Order-preserving selection over sequences, as Array.prototype.filter does it. */
module Seqs {

  function Filter<T>(s: seq<T>, keep: T -> bool): (r: seq<T>)
    ensures |r| <= |s|
    ensures forall i :: 0 <= i < |r| ==> r[i] in s && keep(r[i])
    ensures forall i :: 0 <= i < |s| && keep(s[i]) ==> s[i] in r
  {
    if s == [] then [] else (if keep(s[0]) then [s[0]] else []) + Filter(s[1..], keep)
  }

  /** Filtering a concatenation filters each part and keeps their order. */
  lemma {:induction false} FilterAppend<T>(a: seq<T>, b: seq<T>, keep: T -> bool)
    ensures Filter(a + b, keep) == Filter(a, keep) + Filter(b, keep)
  {
    if a != [] {
      assert (a + b)[1..] == a[1..] + b;
      FilterAppend(a[1..], b, keep);
    } else {
      assert a + b == b;
    }
  }

  /** Nothing is dropped when everything is kept. */
  lemma {:induction false} FilterKeepsAll<T>(s: seq<T>, keep: T -> bool)
    requires forall i :: 0 <= i < |s| ==> keep(s[i])
    ensures Filter(s, keep) == s
  {
    if s != [] {
      FilterKeepsAll(s[1..], keep);
    }
  }

  /** Filtering with a predicate that holds of no element gives the empty sequence. */
  lemma {:induction false} FilterKeepsNone<T>(s: seq<T>, keep: T -> bool)
    requires forall i :: 0 <= i < |s| ==> !keep(s[i])
    ensures Filter(s, keep) == []
  {
    if s != [] {
      FilterKeepsNone(s[1..], keep);
    }
  }
}
