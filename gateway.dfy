// The backend gateway's translation layer: rows of the collection_items
// table to items, the row an add inserts (behind the sign-in guard), the
// sparse column set an update sends, and errors passed through unchanged.
// The backend calls themselves are parameters: the row or rows they
// return, or the error they report.

module Gateway {
  import opened Types

  /** A row of the collection_items table; members are named after its columns. */
  datatype Row = Row(
    id: string,
    user_id: Option<string>,
    character: string,
    series: string,
    item: string,
    purchase_price: int,
    sell_price: Option<int>,
    image: Option<string>,
    status: Status,
    notes: Option<string>,
    date_added: string,
    created_at: Option<string>,
    updated_at: Option<string>)

  /** The column each item property is stored in. */
  function ColumnName(f: Field): string {
    match f
    case IdField => "id"
    case UserIdField => "user_id"
    case CharacterField => "character"
    case SeriesField => "series"
    case ItemField => "item"
    case PurchasePriceField => "purchase_price"
    case SellPriceField => "sell_price"
    case ImageField => "image"
    case StatusField => "status"
    case NotesField => "notes"
    case DateAddedField => "date_added"
    case CreatedAtField => "created_at"
    case UpdatedAtField => "updated_at"
  }

  /** No two properties share a column. */
  lemma ColumnNameInjective(f: Field, g: Field)
    ensures ColumnName(f) == ColumnName(g) ==> f == g
  {
  }

  function OptionalAmount(c: Option<int>): Option<Value> {
    match c
    case Some(v) => Some(Amount(v))
    case None => None
  }

  /** Reads a row by column name; `None` for a null column or a name the table does not have. */
  function Column(r: Row, name: string): Option<Value> {
    if name == "id" then TextOf(r.id)
    else if name == "user_id" then OptionalText(r.user_id)
    else if name == "character" then TextOf(r.character)
    else if name == "series" then TextOf(r.series)
    else if name == "item" then TextOf(r.item)
    else if name == "purchase_price" then Some(Amount(r.purchase_price))
    else if name == "sell_price" then OptionalAmount(r.sell_price)
    else if name == "image" then OptionalText(r.image)
    else if name == "status" then Some(StatusValue(r.status))
    else if name == "notes" then OptionalText(r.notes)
    else if name == "date_added" then TextOf(r.date_added)
    else if name == "created_at" then OptionalText(r.created_at)
    else if name == "updated_at" then OptionalText(r.updated_at)
    else None
  }

  /** The row-to-item mapping. */
  function RowToItem(r: Row): Item {
    Item(r.id, r.user_id, r.character, r.series, r.item, r.purchase_price, r.sell_price,
         r.image, r.status, r.notes, r.date_added, r.created_at, r.updated_at)
  }

  /** Each property of a mapped row is read from its snake_case column. */
  lemma RowToItemColumns(r: Row, f: Field)
    ensures Get(RowToItem(r), f) == Column(r, ColumnName(f))
  {
    match f
    case IdField =>
    case UserIdField =>
    case CharacterField =>
    case SeriesField =>
    case ItemField =>
    case PurchasePriceField =>
    case SellPriceField =>
    case ImageField =>
    case StatusField =>
    case NotesField =>
    case DateAddedField =>
    case CreatedAtField =>
    case UpdatedAtField =>
  }

  /** The items of a list of rows, one per row and in the same order. */
  function RowsToItems(rows: seq<Row>): (items: seq<Item>)
    ensures |items| == |rows|
    ensures forall i :: 0 <= i < |rows| ==> items[i] == RowToItem(rows[i])
  {
    if rows == [] then [] else [RowToItem(rows[0])] + RowsToItems(rows[1..])
  }

  /** `if (error) throw error; return value`: a reported error is rethrown as it is. */
  function Settle<T>(error: Option<string>, value: T): (r: Outcome<T>)
    ensures r.Failed? <==> error.Some?
    ensures r.Failed? ==> r.reason == error.value
    ensures r.Ok? ==> r.value == value
  {
    match error
    case Some(e) => Failed(e)
    case None => Ok(value)
  }

  /** getCollection: the rows the query returns, as items, or its error. */
  function GetCollection(rows: Outcome<seq<Row>>): (r: Outcome<seq<Item>>)
    ensures rows.Failed? ==> r == Failed(rows.reason)
    ensures rows.Ok? ==> r.Ok? && |r.value| == |rows.value|
    ensures rows.Ok? ==> forall i :: 0 <= i < |rows.value| ==> r.value[i] == RowToItem(rows.value[i])
  {
    match rows
    case Failed(e) => Failed(e)
    case Ok(rs) => Ok(RowsToItems(rs))
  }

  /** What addItem accepts: an item without id, owner, date added and timestamps. */
  datatype NewItem = NewItem(
    character: string,
    series: string,
    item: string,
    purchasePrice: int,
    sellPrice: Option<int>,
    image: Option<string>,
    status: Status,
    notes: Option<string>)

  /** An object sent to the table: a column is present with a value, or present and undefined. */
  type Columns = map<string, Option<Value>>

  /** The columns an insert sets: the owner and the eight domain properties. */
  const InsertedColumns: set<string> :=
    {"user_id", "character", "series", "item", "purchase_price", "sell_price", "image", "status", "notes"}

  /** The object addItem inserts for user `userId`. */
  function InsertColumns(userId: string, n: NewItem): (c: Columns)
    ensures c.Keys == InsertedColumns
    ensures "id" !in c && "date_added" !in c && "created_at" !in c && "updated_at" !in c
    ensures c["user_id"] == Some(Text(userId))
  {
    map[
      "user_id" := TextOf(userId),
      "character" := TextOf(n.character),
      "series" := TextOf(n.series),
      "item" := TextOf(n.item),
      "purchase_price" := Some(Amount(n.purchasePrice)),
      "sell_price" := OptionalAmount(n.sellPrice),
      "image" := OptionalText(n.image),
      "status" := Some(StatusValue(n.status)),
      "notes" := OptionalText(n.notes)]
  }

  /** Whether a row holds what an object set: each column it names has the value it gave, undefined read as null. */
  predicate Stores(r: Row, c: Columns) {
    forall name :: name in c ==> Column(r, name) == c[name]
  }

  /** The inserted row read back as an item carries the user and the eight properties that were sent. */
  lemma AddRoundTrip(userId: string, n: NewItem, r: Row)
    requires Stores(r, InsertColumns(userId, n))
    ensures var it := RowToItem(r);
            && it.userId == Some(userId)
            && it.character == n.character && it.series == n.series && it.item == n.item
            && it.purchasePrice == n.purchasePrice && it.sellPrice == n.sellPrice
            && it.image == n.image && it.status == n.status && it.notes == n.notes
  {
    var c := InsertColumns(userId, n);
    assert Column(r, "user_id") == c["user_id"];
    assert Column(r, "character") == c["character"];
    assert Column(r, "series") == c["series"];
    assert Column(r, "item") == c["item"];
    assert Column(r, "purchase_price") == c["purchase_price"];
    assert Column(r, "sell_price") == c["sell_price"];
    assert Column(r, "image") == c["image"];
    assert Column(r, "status") == c["status"];
    assert Column(r, "notes") == c["notes"];
  }

  const NotAuthenticated := "User not authenticated"

  /** What a gateway call sent to the table, if anything, and what it returned or threw. */
  datatype Exchange<T> = Exchange(sent: Option<Columns>, result: Outcome<T>)

  /**
   * addItem: `user` is the signed-in user's id, if any, and `inserted` is
   * the row the insert returns or the error it reports.
   */
  function AddItem(user: Option<string>, n: NewItem, inserted: Outcome<Row>): (x: Exchange<Item>)
    ensures user.None? ==> x.sent.None? && x.result == Failed(NotAuthenticated)
    ensures user.Some? ==> x.sent == Some(InsertColumns(user.value, n))
    ensures user.Some? && inserted.Failed? ==> x.result == Failed(inserted.reason)
    ensures user.Some? && inserted.Ok? ==> x.result == Ok(RowToItem(inserted.value))
  {
    match user
    case None => Exchange(None, Failed(NotAuthenticated))
    case Some(uid) =>
      var sent := InsertColumns(uid, n);
      match inserted
      case Failed(e) => Exchange(Some(sent), Failed(e))
      case Ok(r) => Exchange(Some(sent), Ok(RowToItem(r)))
  }

  /** The properties updateItem forwards; id, owner, date added and timestamps are never sent. */
  const UpdatableFields: set<Field> :=
    {CharacterField, SeriesField, ItemField, PurchasePriceField, SellPriceField, ImageField, StatusField, NotesField}

  const UpdatableColumns: set<string> :=
    {"character", "series", "item", "purchase_price", "sell_price", "image", "status", "notes"}

  /** updateData: column name to value. */
  type UpdateData = map<string, Value>

  /**
   * `d` is the update data of `p` as far as the properties in `done` go:
   * a column exactly for each of them the patch gives a defined value, and
   * that value; no column yet for the forwarded properties not done.
   */
  predicate Covers(d: UpdateData, p: Patch, done: set<Field>) {
    && (forall f :: f in done ==> (ColumnName(f) in d <==> f in p && p[f].Some?))
    && (forall f :: f in done && f in p && p[f].Some? && ColumnName(f) in d ==> d[ColumnName(f)] == p[f].value)
    && (forall f :: f in UpdatableFields && f !in done ==> ColumnName(f) !in d)
    && d.Keys <= UpdatableColumns
  }

  /** `d` is the update data of `p`. */
  predicate IsUpdateDataFor(d: UpdateData, p: Patch) {
    Covers(d, p, UpdatableFields)
  }

  /** `if (updates.x !== undefined) updateData.x_column = updates.x`, for the property `f`. */
  method SetIfDefined(d: UpdateData, p: Patch, f: Field, ghost done: set<Field>) returns (e: UpdateData)
    requires f in UpdatableFields && f !in done && Covers(d, p, done)
    ensures Covers(e, p, done + {f})
  {
    e := d;
    if f in p && p[f].Some? {
      e := d[ColumnName(f) := p[f].value];
    }
    forall g | g != f
      ensures ColumnName(g) != ColumnName(f)
    {
      ColumnNameInjective(g, f);
    }
  }

  /** updateData, one property at a time in the order the source writes them. */
  method BuildUpdateData(p: Patch) returns (d: UpdateData)
    ensures IsUpdateDataFor(d, p)
  {
    d := map[];
    ghost var done: set<Field> := {};
    d := SetIfDefined(d, p, CharacterField, done);
    done := done + {CharacterField};
    d := SetIfDefined(d, p, SeriesField, done);
    done := done + {SeriesField};
    d := SetIfDefined(d, p, ItemField, done);
    done := done + {ItemField};
    d := SetIfDefined(d, p, PurchasePriceField, done);
    done := done + {PurchasePriceField};
    d := SetIfDefined(d, p, SellPriceField, done);
    done := done + {SellPriceField};
    d := SetIfDefined(d, p, ImageField, done);
    done := done + {ImageField};
    d := SetIfDefined(d, p, StatusField, done);
    done := done + {StatusField};
    d := SetIfDefined(d, p, NotesField, done);
    done := done + {NotesField};
    assert done == UpdatableFields;
  }

  /** Every forwarded column belongs to a forwarded property. */
  lemma UpdatableColumnOf(c: string) returns (f: Field)
    requires c in UpdatableColumns
    ensures f in UpdatableFields && ColumnName(f) == c
  {
    if c == "character" { f := CharacterField; }
    else if c == "series" { f := SeriesField; }
    else if c == "item" { f := ItemField; }
    else if c == "purchase_price" { f := PurchasePriceField; }
    else if c == "sell_price" { f := SellPriceField; }
    else if c == "image" { f := ImageField; }
    else if c == "status" { f := StatusField; }
    else { f := NotesField; }
  }

  /** The patch determines its update data. */
  lemma UpdateDataUnique(d1: UpdateData, d2: UpdateData, p: Patch)
    requires IsUpdateDataFor(d1, p) && IsUpdateDataFor(d2, p)
    ensures d1 == d2
  {
    forall c | c in d1 || c in d2 ensures c in d1 && c in d2 && d1[c] == d2[c] {
      var f := UpdatableColumnOf(c);
    }
  }

  /** No update sends the id, the owner, the date added or a timestamp; an empty patch sends nothing. */
  lemma UpdateDataOmits(d: UpdateData, p: Patch)
    requires IsUpdateDataFor(d, p)
    ensures "id" !in d && "user_id" !in d && "date_added" !in d && "created_at" !in d && "updated_at" !in d
    ensures p == map[] ==> d == map[]
  {
    if p == map[] {
      forall c | c in d ensures false {
        var f := UpdatableColumnOf(c);
      }
    }
  }

  /** updateItem: the update data sent, and the reported error rethrown. */
  method UpdateItem(p: Patch, error: Option<string>) returns (sent: UpdateData, result: Outcome<()>)
    ensures IsUpdateDataFor(sent, p)
    ensures result.Failed? <==> error.Some?
    ensures result.Failed? ==> result.reason == error.value
  {
    sent := BuildUpdateData(p);
    result := Settle(error, ());
  }

  /** deleteItem: the reported error rethrown. */
  function DeleteItem(error: Option<string>): (r: Outcome<()>)
    ensures r.Failed? <==> error.Some?
    ensures r.Failed? ==> r.reason == error.value
  {
    Settle(error, ())
  }

  function TextColumn(d: UpdateData, name: string, current: string): string {
    if name in d && d[name].Text? then d[name].text else current
  }

  function OptionalTextColumn(d: UpdateData, name: string, current: Option<string>): Option<string> {
    if name in d && d[name].Text? then Some(d[name].text) else current
  }

  /** The row after the table applies update data to it: each column sent is overwritten, the rest kept. */
  function ApplyUpdate(r: Row, d: UpdateData): Row {
    r.(
      character := TextColumn(d, "character", r.character),
      series := TextColumn(d, "series", r.series),
      item := TextColumn(d, "item", r.item),
      purchase_price := if "purchase_price" in d && d["purchase_price"].Amount? then d["purchase_price"].cents else r.purchase_price,
      sell_price := if "sell_price" in d && d["sell_price"].Amount? then Some(d["sell_price"].cents) else r.sell_price,
      image := OptionalTextColumn(d, "image", r.image),
      status := if "status" in d && d["status"].StatusValue? then d["status"].status else r.status,
      notes := OptionalTextColumn(d, "notes", r.notes))
  }

  /** `.update(updateData).eq('id', id)`: the table applies the update to the rows with that id. */
  function UpdateRows(rows: seq<Row>, id: string, d: UpdateData): (r: seq<Row>)
    ensures |r| == |rows|
    ensures forall i :: 0 <= i < |rows| ==> r[i] == if rows[i].id == id then ApplyUpdate(rows[i], d) else rows[i]
  {
    if rows == [] then []
    else [if rows[0].id == id then ApplyUpdate(rows[0], d) else rows[0]] + UpdateRows(rows[1..], id, d)
  }

  /** Whether each value of `d` has the type of its column's property. */
  predicate UpdateFits(d: UpdateData) {
    forall f :: f in UpdatableFields && ColumnName(f) in d ==> Fits(f, d[ColumnName(f)])
  }

  /** Each property of the updated row is the value sent for its column, or the old one when none was sent. */
  lemma ApplyUpdateColumn(r: Row, d: UpdateData, f: Field)
    requires UpdateFits(d)
    ensures Get(RowToItem(ApplyUpdate(r, d)), f) ==
              if f in UpdatableFields && ColumnName(f) in d then Some(d[ColumnName(f)]) else Get(RowToItem(r), f)
  {
    if f in UpdatableFields && ColumnName(f) in d {
      assert Fits(f, d[ColumnName(f)]);
    }
    match f
    case CharacterField =>
    case SeriesField =>
    case ItemField =>
    case PurchasePriceField =>
    case SellPriceField =>
    case ImageField =>
    case StatusField =>
    case NotesField =>
    case _ =>
  }
}
