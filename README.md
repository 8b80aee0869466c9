# popmart-collection, modelled in Dafny

A model of the logic under the PopMart collection tracker's React pages:
the collection page's item list and its four gateway-driven transitions,
the grid's edit session, the cascading edit form and the patch it submits,
the statistics panel's sums and counts, the item card's profit display,
the gateway's row/column translation, the catalog index builder, the
marketplace link builders and the profile panel's validation ladders.

Conventions of the model:

- Prices are whole cents (`int`), so sums and differences are exact;
  `Number.prototype.toString` and `parseFloat` on prices are a concrete
  decimal printer and parser over cents (`Prices.PriceText`,
  `Prices.ParsePrice`) that read back what they print.
- `Partial<PopMartItem>` is `Types.Patch`, a map from property to optional
  value: a key that is present is a property the object has, and `None` is a
  property present but explicitly `undefined`. `Types.Get` reads an item's
  property by name, which lets merges and row mappings be stated property by
  property.
- Awaited backend calls are parameters: an `Outcome` (a value, or the error
  it threw), or the row(s) the table returns. The catalog data file is a
  `Catalog.SourceData` parameter, and the link builders take the built
  catalog as a parameter (the source rebuilds it from the bundled data on
  each call).
- State that a component updates in place is a class with `modifies`
  clauses: `Controller.CollectionPage`, `Grid.CollectionGrid`,
  `EditForm.EditItemForm`, `Profile.ProfileSettings`. The catalog grouping is
  a method with loops, and the update-data builder is a method of guarded
  assignments (`Gateway.SetIfDefined`, `Gateway.BuildUpdateData`,
  `Gateway.UpdateItem`); the rest is functions and lemmas.

Files, one module per source file: `types.dfy` (`Types`, the record types,
and `Seqs`, an order-preserving filter), `prices.dfy`, `catalog.dfy`,
`links.dfy`, `item_card.dfy`, `stats.dfy`, `controller.dfy` (the collection
page), `grid.dfy`, `edit_form.dfy`, `gateway.dfy`, `profile.dfy`, and
`consistency.dfy`, which relates the page's local list to the stored rows.
`UserProfile` is modelled as the datatype `Types.UserProfile`
(src/types/collection.ts:17-23); nothing in the core operates on it.

## Model

| member | source | states |
|---|---|---|
| Types.ParseStatus | src/types/collection.ts:10 | a status literal is accepted exactly when it is one of "Owned", "Wishlist", "For Sale", "Sold", and names the status returned |
| Types.StatusNameRoundTrip | src/types/collection.ts:10 | the four statuses have four distinct literals, and each literal parses back to its status |
| Types.Get | src/types/collection.ts:1-15 | id, character, series, item, purchasePrice, status and dateAdded always have a value; every value has its property's type |
| Types.ItemExtensionality | src/types/collection.ts:1-15 | an item is determined by its thirteen properties |
| Prices.ParseNatural | src/components/EditItemForm.tsx:100 | a digit string is parsed exactly when it is non-empty and all digits |
| Prices.NaturalRoundTrip | src/components/EditItemForm.tsx:23 | the digits printed for a whole number parse back to it |
| Prices.PriceRoundTrip | src/components/EditItemForm.tsx:23-24 | a price printed as the form shows it and parsed as the form reads it gives back the same amount, negative amounts included |
| Prices.PriceText | src/components/EditItemForm.tsx:23-24 | the text shown for a price is never empty; Prices.PriceRoundTrip reads it back |
| Prices.ParsePrice | src/components/EditItemForm.tsx:100-101 | empty text parses to nothing; Prices.PriceRoundTrip states that it reads back every printed price |
| Prices.LeadingPointParses | src/components/EditItemForm.tsx:100-101 | ".5" reads as 50 cents and "-.05" as -5, "7." as 700, and a lone point as nothing, as `parseFloat` reads them |
| Prices.DotIndex | src/components/EditItemForm.tsx:100 | the position found is the first '.', or the end when there is none |
| Catalog.CharacterNames | src/services/catalogService.ts:20 | one name per character record, in source order |
| Catalog.GetCatalog | src/services/catalogService.ts:10-50 | characters lists the source names in order; a character is a key of seriesByCharacter exactly when it owns a series, and holds its series names in source order; seriesData[n] is the last series record named n with a missing url read as ""; a series is a key of itemsBySeries exactly when it has items, holding their entries in source order with imageUrl copied to imageId |
| Catalog.SeriesNamesOfNonEmpty | src/services/catalogService.ts:23-27 | a character has a series list exactly when some series record names it |
| Catalog.SeriesListedUnderCharacter | src/services/catalogService.ts:23-28 | every series record's name is listed under its own character |
| Catalog.GroupedItemCount | src/services/catalogService.ts:38-46 | the item groups hold as many entries in all as there are item records |
| Links.SeriesId | src/utils/linkUtils.ts:12-34 | a series in the fixed table gets its table id, any other series "195"; the id is always one of the table's |
| Links.PopMartUrl | src/utils/linkUtils.ts:3-35 | the catalog's url when the series has a non-empty one; otherwise the set prefix followed by the series' own table id, "195" for a series not in the table |
| Links.PopMartUrlIgnoresCharacter | src/utils/linkUtils.ts:3-35 | the PopMart link does not depend on the character |
| Links.UnknownSeriesLinksToDefaultSet | src/utils/linkUtils.ts:34-35 | a series with no catalog url and no table entry links to set 195 |
| Links.FindNamed | src/utils/linkUtils.ts:43 | the index found holds the name and no earlier entry does; no index means no entry holds it |
| Links.Lower | src/utils/linkUtils.ts:51 | an upper-case ASCII letter becomes its lower-case partner (32 code points on); every other character is kept; whitespace stays whitespace |
| Links.SkipSpaces | src/utils/linkUtils.ts:51 | the text left starts with no whitespace |
| Links.Slug | src/utils/linkUtils.ts:51 | a slug has no whitespace and no upper-case letter, and is no longer than its text |
| Links.SlugOfSlug | src/utils/linkUtils.ts:51 | text with no whitespace and no upper-case letter is its own slug |
| Links.SlugIdempotent | src/utils/linkUtils.ts:51 | formatting a slug again changes nothing |
| Links.SlugOfWord | src/utils/linkUtils.ts:51 | a word with no whitespace slugs to its characters lower-cased one by one, same length |
| Links.SlugJoinsWords | src/utils/linkUtils.ts:51 | a word followed by a run of whitespace slugs to the word's own slug, one '-', then the slug of the rest, so lower-casing and the run-to-'-' rule hold together for any words |
| Links.FallbackStockXUrl | src/utils/linkUtils.ts:49-58 | the template url starts with the StockX pop-mart prefix and contains no whitespace |
| Links.Truthy | src/utils/linkUtils.ts:44 | a url counts exactly when it is present and not "" |
| Links.CatalogStockXUrl | src/utils/linkUtils.ts:40-46 | nothing when the series does not list the item; otherwise the url of the first entry with the item's name, when that url is present and not "" |
| Links.StockXUrl | src/utils/linkUtils.ts:38-59 | the catalog's url for the item when there is one, the slug template otherwise; its properties are the three lemmas below |
| Links.StockXFirstFound | src/utils/linkUtils.ts:40-46 | when the first entry with the item's name has a non-empty url, that url is the link |
| Links.StockXFirstWithoutUrl | src/utils/linkUtils.ts:40-58 | when the first entry with the item's name has no url or "", the slug template is the link, whatever later entries hold |
| Links.StockXNotListed | src/utils/linkUtils.ts:40-58 | an item the series does not list, or a series the catalog does not have, gets the slug template |
| Links.ImageUrl | src/utils/linkUtils.ts:61-74 | an id starting with "photo-" is wrapped in the Unsplash url with the crop query; anything else comes back unchanged |
| Links.ImageUrlIdempotent | src/utils/linkUtils.ts:61-74 | normalising an image url twice is normalising it once |
| Card.StatusColor | src/components/ItemCard.tsx:14-19 | the badge classes of each status; Card.StatusColorsDistinct states they differ |
| Card.StatusColorsDistinct | src/components/ItemCard.tsx:14-19 | each status has its own badge colour |
| Card.Profit | src/components/ItemCard.tsx:21-27 | a profit exists exactly for a Sold item with a non-zero sell price, and it plus the purchase price is the sell price |
| Card.ProfitDisplayFaithful | src/components/ItemCard.tsx:130-132 | the sign is "", "+" or "-"; sign and amount give back the profit, so "+" above zero and "-" below; no sign is shown exactly at zero |
| Card.SignPrefix | src/components/ItemCard.tsx:130-131 | the sign is at most one character; Card.ProfitDisplayFaithful pins which one for each profit |
| Card.Magnitude | src/components/ItemCard.tsx:132 | the amount shown is the profit or its negation, never negative |
| Card.ProfitColour | src/components/ItemCard.tsx:127-129 | green exactly when the profit is not negative |
| Types.HasSellPrice | src/components/ItemCard.tsx:115 | JavaScript truthiness of the sell price, which decides the "Sold:" line; Card.SoldLineIgnoresStatus states it |
| Card.SoldLineIgnoresStatus | src/components/ItemCard.tsx:115 | the "Sold:" line shows exactly for a non-zero sell price, whatever the status |
| Card.View | src/components/ItemCard.tsx:13-31 | the card is keyed by the item's id, and shows a profit only for a Sold item whose "Sold:" line shows |
| Stats.TotalSpent | src/components/StatsCard.tsx:10 | the purchase prices of all items summed; split by Stats.SumPurchaseAppend and Stats.SpentSplitsByStatus |
| Stats.TotalEarned | src/components/StatsCard.tsx:11-13 | the sell prices of the Sold items with a truthy sell price summed; Stats.EarnedSumsSoldSellPrices drops the truthiness test |
| Stats.TotalProfit | src/components/StatsCard.tsx:14-16 | the earnings less the purchase prices of all Sold items; Stats.ProfitIsSumOfContributions relates it to the card profits |
| Stats.Count | src/components/StatsCard.tsx:18-21 | the number of items with a status, never more than the items; Stats.CountsPartition sums the four |
| Stats.SumPurchaseAppend | src/components/StatsCard.tsx:10 | the amount spent on two lists together is the sum of the two |
| Stats.SpentSplitsByStatus | src/components/StatsCard.tsx:10 | the amount spent is the sum of what was spent on the items of each status |
| Stats.EarnedSumsSoldSellPrices | src/components/StatsCard.tsx:11-13 | the earnings equal the sell prices summed over all Sold items |
| Stats.ProfitIsSumOfContributions | src/components/StatsCard.tsx:14-16 | the net profit is the sum of the card profits less the purchase price of every Sold item without a sell price |
| Stats.BreakEvenMeansZeroProfit | src/components/StatsCard.tsx:11-16 | when every Sold item sold for what it cost, the net profit is zero |
| Stats.OnlySoldItemsCount | src/components/StatsCard.tsx:11-16 | removing the items that are not Sold changes neither the earnings nor the net profit |
| Stats.CountsPartition | src/components/StatsCard.tsx:18-21 | the four status counts add up to the number of items |
| Stats.Summarize | src/components/StatsCard.tsx:9-52 | the panel's counts add up to its item total, its trend is up exactly when the net profit is not negative, and an empty list shows zero amounts |
| Controller.Merge | src/pages/Index.tsx:76 | `{ ...item, ...patch }`; its property-by-property meaning is Controller.MergeOverrides |
| Controller.MergeOverrides | src/pages/Index.tsx:76 | each property of the merged item is the patch's when the patch has that key, explicit undefined included, and the item's otherwise |
| Controller.MergeEmpty | src/pages/Index.tsx:76 | merging an empty patch changes nothing |
| Controller.MergeTwice | src/pages/Index.tsx:76 | merging two patches in turn is merging their union, the later one winning |
| Controller.UpdateById | src/pages/Index.tsx:75-77 | the list keeps its length, and exactly the entries with the id are merged |
| Controller.UpdateChangesOnlyMatching | src/pages/Index.tsx:75-77 | after an update, a property of an entry differs from before only when the entry has the id and the patch has the property |
| Controller.UpdateAbsentId | src/pages/Index.tsx:75-77 | updating an id no entry has leaves the list as it was |
| Controller.RemoveById | src/pages/Index.tsx:95 | no entry left has the id, and every entry with another id is kept |
| Controller.RemoveKeepsOrder | src/pages/Index.tsx:95 | removal splits over concatenation, so the kept entries stay in order |
| Controller.RemoveAbsentId | src/pages/Index.tsx:95 | removing an id no entry has leaves the list as it was |
| Controller.RemoveCount | src/pages/Index.tsx:95 | the entries removed and the entries kept make up the list |
| Controller.Filtered | src/pages/Index.tsx:123-125 | every item shown is in the list and passes the filter, and every item of the list that passes it is shown |
| Controller.FilteredAll | src/pages/Index.tsx:123-125 | the "All" filter shows every item |
| Controller.FilteredByStatus | src/pages/Index.tsx:123-125 | a status filter shows, in order, exactly the items with that status |
| Controller.FilteredUnknown | src/pages/Index.tsx:123-125 | a filter that is neither "All" nor a status literal shows nothing |
| Controller.CollectionPage.constructor | src/pages/Index.tsx:17-20 | the page starts with no items, loading, no error and the add form closed |
| Controller.CollectionPage.LoadCollection | src/pages/Index.tsx:39-51 | a successful load replaces the list and clears the error; a failed one keeps the list and sets the error message; loading ends either way |
| Controller.CollectionPage.AddItem | src/pages/Index.tsx:53-70 | a successful add puts the returned item in front of the unchanged list and closes the add form; a failed one changes nothing |
| Controller.CollectionPage.UpdateItem | src/pages/Index.tsx:72-90 | a successful update merges the patch into the entries with the id; a failed one changes nothing |
| Controller.CollectionPage.DeleteItem | src/pages/Index.tsx:92-108 | a successful delete removes the entries with the id; a failed one changes nothing |
| Controller.CollectionPage.FilteredItems | src/pages/Index.tsx:123-125 | the page's shown list is no longer than its items, and is all of them under "All" |
| Grid.Cards | src/components/CollectionGrid.tsx:30-37 | one card per item, in the items' order: the i-th card is the view of the i-th item, keyed by its id |
| Grid.CollectionGrid.constructor | src/components/CollectionGrid.tsx:14 | no item is being edited at first |
| Grid.CollectionGrid.HandleEdit | src/components/CollectionGrid.tsx:16-18 | the chosen item becomes the one being edited |
| Grid.CollectionGrid.HandleSaveEdit | src/components/CollectionGrid.tsx:20-25 | with an item being edited, exactly one update with its id and the patch, then the session ends; with none, no call |
| Grid.CollectionGrid.Cancel | src/components/CollectionGrid.tsx:47 | the session ends with no update |
| Grid.CollectionGrid.HandleDelete | src/components/CollectionGrid.tsx:35 | exactly one delete with the card's item id, and the edit session untouched |
| EditForm.InitialForm | src/components/EditItemForm.tsx:19-28 | the form copies character, series, item and status; absent notes and image become ""; the price texts parse back to the item's prices, and the sell price text is empty exactly when there is no sell price |
| EditForm.AvailableSeries | src/components/EditItemForm.tsx:56 | no choices for "" or a character the catalog lacks; otherwise the catalog's list for the character |
| EditForm.AvailableItems | src/components/EditItemForm.tsx:57 | no choices for "" or a series the catalog lacks; otherwise the catalog's entries for the series |
| EditForm.AvailableSeriesOfSource | src/components/EditItemForm.tsx:56 | with a catalog built from the data, a character's choices are its series in source order, and there are none for "" |
| EditForm.AvailableItemsOfSource | src/components/EditItemForm.tsx:57 | with a catalog built from the data, a series' choices are its items in source order, and there are none for "" |
| EditForm.AutoImage | src/components/EditItemForm.tsx:78-92 | the image picked for a chosen item is always "", because catalog entries carry imageId and not image |
| EditForm.PurchaseAmount | src/components/EditItemForm.tsx:100 | the parsed purchase price, or 0 when the text does not parse |
| EditForm.SellAmount | src/components/EditItemForm.tsx:101 | an empty sell price text gives undefined; a non-empty text that parses gives its amount; a defined result is always what the text parses to |
| EditForm.SubmitPatch | src/components/EditItemForm.tsx:95-103 | the patch has exactly the eight form properties, character, series, item, notes and image as strings and the status as chosen; the purchase price is the parsed amount or 0, and the sell price entry is present even when undefined, holding the parsed amount of a non-empty text |
| EditForm.SubmittedValue | src/components/EditItemForm.tsx:98-102 | each submitted value has its property's type, and only the sell price can be undefined |
| EditForm.SubmittedPricesUnchanged | src/components/EditItemForm.tsx:23-24 | the untouched form submits the item's own purchase price, and its sell price or undefined when it has none |
| EditForm.SubmittedValueUnchanged | src/components/EditItemForm.tsx:19-102 | for each property, what the untouched form submits equals the item's value, with absent notes and image as "" |
| EditForm.SubmitUnchanged | src/components/EditItemForm.tsx:19-102 | submitting the untouched form and merging the patch gives back the item, except that absent notes and image come back as "" |
| EditForm.EditItemForm.constructor | src/components/EditItemForm.tsx:19-37 | the form starts seeded from the item, with an empty catalog and loading |
| EditForm.EditItemForm.LoadCatalog | src/components/EditItemForm.tsx:44-54 | the catalog is replaced on success and kept on failure; the form is untouched and loading ends |
| EditForm.EditItemForm.CharacterChange | src/components/EditItemForm.tsx:59-67 | the character is set and series, item and image cleared; prices, status and notes are untouched |
| EditForm.EditItemForm.SeriesChange | src/components/EditItemForm.tsx:69-76 | the series is set and item and image cleared; the character is untouched |
| EditForm.EditItemForm.ItemChange | src/components/EditItemForm.tsx:78-93 | the item is set and the image becomes "", the rest untouched |
| EditForm.EditItemForm.SetPurchasePrice | src/components/EditItemForm.tsx:192 | only the purchase price text changes |
| EditForm.EditItemForm.SetSellPrice | src/components/EditItemForm.tsx:205 | only the sell price text changes |
| EditForm.EditItemForm.SetStatus | src/components/EditItemForm.tsx:214 | only the status changes |
| EditForm.EditItemForm.SetNotes | src/components/EditItemForm.tsx:232 | only the notes change |
| Gateway.ColumnNameInjective | src/services/supabaseApi.ts:14-28 | no two properties share a column |
| Gateway.RowToItem | src/services/supabaseApi.ts:14-28 | the row-to-item mapping; Gateway.RowToItemColumns states it column by column |
| Gateway.RowToItemColumns | src/services/supabaseApi.ts:14-28 | each property of a mapped row is read from its snake_case column |
| Gateway.RowsToItems | src/services/supabaseApi.ts:14-28 | one item per row, in the rows' order |
| Gateway.Settle | src/services/supabaseApi.ts:12 | a reported error is rethrown unchanged; otherwise the value is returned |
| Gateway.GetCollection | src/services/supabaseApi.ts:6-29 | a failed query's error is rethrown; otherwise one item per returned row, in order |
| Gateway.InsertColumns | src/services/supabaseApi.ts:37-47 | the insert sets exactly user_id and the eight domain columns, never id, date_added or a timestamp, with user_id the signed-in user's id |
| Gateway.AddRoundTrip | src/services/supabaseApi.ts:37-67 | a row storing the inserted columns reads back with the user's id and the eight properties that were sent |
| Gateway.AddItem | src/services/supabaseApi.ts:31-68 | without a signed-in user nothing is inserted and "User not authenticated" is thrown; otherwise the insert columns are sent and the returned row is mapped or its error rethrown |
| Gateway.SetIfDefined | src/services/supabaseApi.ts:73-80 | one guarded assignment extends the update data to one more property: its column is set exactly when the patch value is defined |
| Gateway.BuildUpdateData | src/services/supabaseApi.ts:70-80 | the update data has a column exactly for each of the eight forwarded properties with a defined patch value, holding that value, and no other column |
| Gateway.UpdateDataUnique | src/services/supabaseApi.ts:71-80 | the patch determines its update data |
| Gateway.UpdateDataOmits | src/services/supabaseApi.ts:71-80 | id, user_id, date_added and the timestamps are never sent, and an empty patch sends nothing |
| Gateway.UpdateItem | src/services/supabaseApi.ts:70-88 | the update data of the patch is sent, and a reported error is rethrown unchanged |
| Gateway.DeleteItem | src/services/supabaseApi.ts:90-97 | a reported error is rethrown unchanged |
| Gateway.UpdateRows | src/services/supabaseApi.ts:82-85 | the table keeps its length and applies the update to exactly the rows with the id |
| Gateway.ApplyUpdate | src/services/supabaseApi.ts:82-85 | the stored row after an update, standing in for the table; Gateway.ApplyUpdateColumn states it column by column |
| Gateway.ApplyUpdateColumn | src/services/supabaseApi.ts:82-85 | each property of an updated row is the value sent for its column, or the old one when none was sent |
| Consistency.UpdateDataFits | src/services/supabaseApi.ts:71-80 | update data built from a well-typed patch holds well-typed values |
| Consistency.StoredMatchesLocal | src/pages/Index.tsx:74-77 | for a patch of forwarded properties with defined values, the stored row reads back as the item the page merges |
| Consistency.StoredListMatchesLocal | src/pages/Index.tsx:74-77 | for such a patch, the page's list after an update is the updated rows read back |
| Consistency.ClearedSellPriceDiverges | src/services/supabaseApi.ts:77 | clearing the sell price in the form removes it from the page's copy but leaves the stored sell price as it was |
| Profile.Utf16Length | src/components/ProfileSettings.tsx:151 | `.length` counts one unit per character of the Basic Multilingual Plane and two beyond it, so between the number of characters and twice that, and exactly 1 or 2 for a single character |
| Profile.Utf16LengthAppend | src/components/ProfileSettings.tsx:151 | the units of a text are the units of its parts added, so the count is the per-character count summed |
| Profile.CheckPassword | src/components/ProfileSettings.tsx:132-158 | rejects first for an empty field, next for different new passwords, next for a new password shorter than 6 UTF-16 units; accepts exactly a filled form with equal new passwords of at least 6 units |
| Profile.ThreeEmojiAccepted | src/components/ProfileSettings.tsx:151 | a new password of three emoji is six units long and is accepted |
| Profile.CurrentPasswordNotVerified | src/components/ProfileSettings.tsx:133-165 | any two non-empty current passwords get the same verdict |
| Profile.CheckEmail | src/components/ProfileSettings.tsx:75-82 | accepts exactly when the new email and the current password are both filled |
| Profile.ProfileSettings.constructor | src/components/ProfileSettings.tsx:26-33 | every form field and the username start empty |
| Profile.ProfileSettings.UpdatePassword | src/components/ProfileSettings.tsx:132-191 | updateUser is called exactly when the checks pass; the three password fields are cleared only when it succeeds and kept otherwise; other fields untouched |
| Profile.ProfileSettings.UpdateEmail | src/components/ProfileSettings.tsx:74-130 | the sign-in re-check is tried exactly when the check passes, updateUser exactly when the re-check succeeds; the two email fields are cleared only on success |
| Profile.SignedIn | src/components/ProfileSettings.tsx:39 | `!user?.id` fails exactly for a user with a non-empty id; used by FetchProfile and UpdateUsername |
| Profile.ProfileSettings.FetchProfile | src/components/ProfileSettings.tsx:38-48 | no query without a user or with an empty id; a row found sets the username, a null one to "" |
| Profile.ProfileSettings.UpdateUsername | src/components/ProfileSettings.tsx:52-58 | nothing is sent without a user or with an empty id; otherwise the username for that id |

## Left out

- JSX markup, CSS classes other than the status badge colours, toasts,
  `console.error`, router navigation and sign-out: view and side-effect
  plumbing.
- The backend and auth calls themselves: each is a parameter holding what
  it returned or the error it reported. The order the collection query
  returns is the backend's.
- Loading flags of the profile panel and the username update's own loading
  flag: they are set and reset around each call and never read by the logic.
- Float behaviour: prices are whole cents, so `Math.round(x * 100) / 100`
  in the card profit is exact and left out; `toFixed` and the
  `Number.isInteger` display choices are display only.
- Prices.ParsePrice: reads an optional '-', then digits with an optional
  point and at most two fraction digits, where either the digits before the
  point or the point and what follows may be missing (".5", "7."). The rest
  of `parseFloat`'s leniency (a leading '+', leading whitespace, trailing
  text, exponents, more than two fraction digits) is not modelled, because
  a price is a whole number of cents; such text reads as nothing.
- EditForm.SellAmount: a non-empty sell price text that does not parse gives
  `NaN` in the source; the model gives undefined, because a price is a whole
  number of cents.
- Controller.Merge: requires the patch to be well typed and to leave no
  required property explicitly undefined (`Types.IsPartialItem`), because an
  item whose required property is undefined has no counterpart in the model.
  Every patch the edit form submits meets this.
- Gateway.RowToItem: the status column is read as a status without check,
  as the source's cast does; a row holding another text is not modelled.
- Gateway.UpdateItem and Gateway.DeleteItem: the `.eq('id', id)` filter is
  not part of what they return; which rows an update reaches is
  `Gateway.UpdateRows`, and the delete's effect on the table is not modelled.
- Object-prototype keys (a series named "constructor", say) are treated as
  absent in every lookup; the source's plain objects would find the
  inherited property.
- `toLowerCase` and the regular expression `\s` are modelled on ASCII
  letters and ASCII whitespace only.
- Concurrency: overlapping handlers reading a stale `items` list are not
  modelled; each handler runs to completion before the next.
- The account deletion handler, the password-reset page and the filter
  bar's markup are not part of this model.
