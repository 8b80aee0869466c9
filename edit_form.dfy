// The edit form: a record of field texts seeded from the item, the
// cascading character -> series -> item choice over the catalog, and the
// patch it submits.

module EditForm {
  import opened Types
  import opened Catalog
  import opened Prices
  import Links
  import Controller

  /** formData: every field as the text the inputs hold, and the status. */
  datatype FormData = FormData(
    character: string,
    series: string,
    item: string,
    purchasePrice: string,
    sellPrice: string,
    status: Status,
    notes: string,
    image: string)

  /** The form seeded from an item: absent sell price, notes and image become "", prices their text. */
  function InitialForm(it: Item): (f: FormData)
    ensures f.character == it.character && f.series == it.series && f.item == it.item
    ensures f.status == it.status
    ensures f.notes == it.notes.GetOr("") && f.image == it.image.GetOr("")
    ensures ParsePrice(f.purchasePrice) == Some(it.purchasePrice)
    ensures f.sellPrice == "" <==> it.sellPrice.None?
    ensures it.sellPrice.Some? ==> ParsePrice(f.sellPrice) == Some(it.sellPrice.value)
  {
    PriceRoundTrip(it.purchasePrice);
    if it.sellPrice.Some? then PriceRoundTrip(it.sellPrice.value); Seed(it)
    else Seed(it)
  }

  function Seed(it: Item): FormData {
    FormData(
      it.character,
      it.series,
      it.item,
      PriceText(it.purchasePrice),
      if it.sellPrice.Some? then PriceText(it.sellPrice.value) else "",
      it.status,
      it.notes.GetOr(""),
      it.image.GetOr(""))
  }

  /** availableSeries: the catalog's series of the chosen character, or none. */
  function AvailableSeries(c: CatalogData, character: string): (r: seq<string>)
    ensures character == "" || character !in c.seriesByCharacter ==> r == []
    ensures character != "" && character in c.seriesByCharacter ==> r == c.seriesByCharacter[character]
  {
    if character != "" && character in c.seriesByCharacter then c.seriesByCharacter[character] else []
  }

  /** availableItems: the catalog's entries of the chosen series, or none. */
  function AvailableItems(c: CatalogData, series: string): (r: seq<CatalogItem>)
    ensures series == "" || series !in c.itemsBySeries ==> r == []
    ensures series != "" && series in c.itemsBySeries ==> r == c.itemsBySeries[series]
  {
    if series != "" && series in c.itemsBySeries then c.itemsBySeries[series] else []
  }

  /** With a catalog built from `src`, a character's choices are its series in source order, and none for "". */
  lemma AvailableSeriesOfSource(src: SourceData, c: CatalogData, ch: string)
    requires forall x :: x in c.seriesByCharacter <==> SeriesNamesOf(src.series, x) != []
    requires forall x :: x in c.seriesByCharacter ==> c.seriesByCharacter[x] == SeriesNamesOf(src.series, x)
    ensures ch != "" ==> AvailableSeries(c, ch) == SeriesNamesOf(src.series, ch)
    ensures ch == "" ==> AvailableSeries(c, ch) == []
  {
  }

  /** With a catalog built from `src`, a series' choices are its items in source order, and none for "". */
  lemma AvailableItemsOfSource(src: SourceData, c: CatalogData, s: string)
    requires forall x :: x in c.itemsBySeries <==> ItemsOf(src.items, x) != []
    requires forall x :: x in c.itemsBySeries ==> c.itemsBySeries[x] == ItemsOf(src.items, x)
    ensures s != "" ==> AvailableItems(c, s) == ItemsOf(src.items, s)
    ensures s == "" ==> AvailableItems(c, s) == []
  {
  }

  /**
   * `found.image || ""` for a catalog entry: entries carry `imageId`, not
   * `image`, so the property read is always undefined.
   */
  function EntryImage(e: CatalogItem): Option<string> {
    None
  }

  /** The image handleItemChange picks for item `name` of `series`: always "", whatever the catalog holds. */
  function AutoImage(c: CatalogData, series: string, name: string): (image: string)
    ensures image == ""
  {
    if series != "" && series in c.itemsBySeries then
      match Links.FindNamed(c.itemsBySeries[series], name)
      case Some(k) => EntryImage(c.itemsBySeries[series][k]).GetOr("")
      case None => ""
    else ""
  }

  /** The properties handleSubmit always sends. */
  const SubmittedFields: set<Field> :=
    {CharacterField, SeriesField, ItemField, PurchasePriceField, SellPriceField, StatusField, NotesField, ImageField}

  /** `parseFloat(purchasePrice) || 0`. */
  function PurchaseAmount(text: string): (c: int)
    ensures ParsePrice(text).None? ==> c == 0
    ensures ParsePrice(text).Some? ==> c == ParsePrice(text).value
  {
    match ParsePrice(text)
    case Some(v) => v
    case None => 0
  }

  /** `sellPrice ? parseFloat(sellPrice) : undefined`. */
  function SellAmount(text: string): (r: Option<Value>)
    ensures text == "" ==> r == None
    ensures r.Some? ==> r.value.Amount? && ParsePrice(text) == Some(r.value.cents)
    ensures text != "" && ParsePrice(text).Some? ==> r == Some(Amount(ParsePrice(text).value))
  {
    if text == "" then None
    else match ParsePrice(text)
      case Some(v) => Some(Amount(v))
      case None => None
  }

  /** The value handleSubmit gives property `f`. */
  function SubmittedValue(form: FormData, f: Field): (v: Option<Value>)
    requires f in SubmittedFields
    ensures v.Some? ==> Fits(f, v.value)
    ensures f != SellPriceField ==> v.Some?
  {
    match f
    case PurchasePriceField => Some(Amount(PurchaseAmount(form.purchasePrice)))
    case SellPriceField => SellAmount(form.sellPrice)
    case StatusField => Some(StatusValue(form.status))
    case CharacterField => TextOf(form.character)
    case SeriesField => TextOf(form.series)
    case ItemField => TextOf(form.item)
    case NotesField => TextOf(form.notes)
    case ImageField => TextOf(form.image)
  }

  /** handleSubmit: the form's fields as a patch, prices parsed. */
  function SubmitPatch(form: FormData): (p: Patch)
    ensures IsPartialItem(p)
    ensures p.Keys == SubmittedFields
    ensures p[CharacterField] == TextOf(form.character) && p[SeriesField] == TextOf(form.series)
    ensures p[ItemField] == TextOf(form.item) && p[NotesField] == TextOf(form.notes)
    ensures p[ImageField] == TextOf(form.image) && p[StatusField] == Some(StatusValue(form.status))
    ensures p[PurchasePriceField] == Some(Amount(PurchaseAmount(form.purchasePrice)))
    ensures p[SellPriceField] == SellAmount(form.sellPrice)
    ensures form.sellPrice == "" ==> p[SellPriceField] == None
    ensures ParsePrice(form.purchasePrice).None? ==> p[PurchasePriceField] == Some(Amount(0))
  {
    map f | f in SubmittedFields :: SubmittedValue(form, f)
  }

  /**
   * Submitting the form untouched and merging the patch gives back the
   * item, except that absent notes and image come back as "".
   */
  lemma SubmitUnchanged(it: Item)
    ensures Controller.Merge(it, SubmitPatch(InitialForm(it))) ==
              it.(notes := Some(it.notes.GetOr("")), image := Some(it.image.GetOr("")))
  {
    var p := SubmitPatch(InitialForm(it));
    var m := Controller.Merge(it, p);
    var t := it.(notes := Some(it.notes.GetOr("")), image := Some(it.image.GetOr("")));
    forall f ensures Get(m, f) == Get(t, f) {
      Controller.MergeOverrides(it, p, f);
      SubmittedValueUnchanged(it, f);
    }
    ItemExtensionality(m, t);
  }

  /** What the untouched form submits for each property is the item's own value, notes and image defaulted to "". */
  lemma SubmittedValueUnchanged(it: Item, f: Field)
    ensures var p := SubmitPatch(InitialForm(it));
            var t := it.(notes := Some(it.notes.GetOr("")), image := Some(it.image.GetOr("")));
            (if f in p then p[f] else Get(it, f)) == Get(t, f)
  {
    match f
    case PurchasePriceField =>
      SubmittedPricesUnchanged(it);
    case SellPriceField =>
      SubmittedPricesUnchanged(it);
    case CharacterField =>
    case SeriesField =>
    case ItemField =>
    case StatusField =>
    case NotesField =>
    case ImageField =>
    case _ =>
      assert f !in SubmittedFields;
  }

  /** The untouched form submits the item's own purchase and sell prices. */
  lemma SubmittedPricesUnchanged(it: Item)
    ensures SubmitPatch(InitialForm(it))[PurchasePriceField] == Some(Amount(it.purchasePrice))
    ensures SubmitPatch(InitialForm(it))[SellPriceField] ==
              if it.sellPrice.Some? then Some(Amount(it.sellPrice.value)) else None
  {
    var form := InitialForm(it);
    assert PurchaseAmount(form.purchasePrice) == it.purchasePrice;
    if it.sellPrice.Some? {
      assert SellAmount(form.sellPrice) == Some(Amount(it.sellPrice.value));
    }
  }

  class EditItemForm {
    var form: FormData
    var catalog: CatalogData
    var loading: bool

    constructor(it: Item)
      ensures form == InitialForm(it) && catalog == EmptyCatalog && loading
    {
      form := InitialForm(it);
      catalog := EmptyCatalog;
      loading := true;
    }

    /** loadCatalogData: the catalog is replaced on success and kept on failure; loading ends either way. */
    method LoadCatalog(fetched: Outcome<CatalogData>)
      modifies this
      ensures fetched.Ok? ==> catalog == fetched.value
      ensures fetched.Failed? ==> catalog == old(catalog)
      ensures form == old(form) && !loading
    {
      loading := true;
      if fetched.Ok? {
        catalog := fetched.value;
      }
      loading := false;
    }

    /** handleCharacterChange: a new character clears the series, item and image below it. */
    method CharacterChange(character: string)
      modifies this
      ensures form == old(form).(character := character, series := "", item := "", image := "")
      ensures catalog == old(catalog) && loading == old(loading)
    {
      form := form.(character := character, series := "", item := "", image := "");
    }

    /** handleSeriesChange: a new series clears the item and image below it. */
    method SeriesChange(series: string)
      modifies this
      ensures form == old(form).(series := series, item := "", image := "")
      ensures catalog == old(catalog) && loading == old(loading)
    {
      form := form.(series := series, item := "", image := "");
    }

    /** handleItemChange: the item is set and the image becomes the catalog's pick, which is always "". */
    method ItemChange(name: string)
      modifies this
      ensures form == old(form).(item := name, image := "")
      ensures catalog == old(catalog) && loading == old(loading)
    {
      var autoImage := AutoImage(catalog, form.series, name);
      form := form.(item := name, image := autoImage);
    }

    method SetPurchasePrice(text: string)
      modifies this
      ensures form == old(form).(purchasePrice := text)
      ensures catalog == old(catalog) && loading == old(loading)
    {
      form := form.(purchasePrice := text);
    }

    method SetSellPrice(text: string)
      modifies this
      ensures form == old(form).(sellPrice := text)
      ensures catalog == old(catalog) && loading == old(loading)
    {
      form := form.(sellPrice := text);
    }

    method SetStatus(s: Status)
      modifies this
      ensures form == old(form).(status := s)
      ensures catalog == old(catalog) && loading == old(loading)
    {
      form := form.(status := s);
    }

    method SetNotes(text: string)
      modifies this
      ensures form == old(form).(notes := text)
      ensures catalog == old(catalog) && loading == old(loading)
    {
      form := form.(notes := text);
    }
  }
}
