// How the page's local copy of the collection and the table's rows relate
// after an update: the page merges the whole patch into its items, while
// the gateway sends only the properties whose value is defined.

module Consistency {
  import opened Types
  import opened Gateway
  import Controller
  import EditForm

  /** Update data built from a well-typed patch holds well-typed values. */
  lemma UpdateDataFits(d: UpdateData, p: Patch)
    requires IsPartialItem(p) && IsUpdateDataFor(d, p)
    ensures UpdateFits(d)
  {
    forall f | f in UpdatableFields && ColumnName(f) in d
      ensures Fits(f, d[ColumnName(f)])
    {
      assert f in p && p[f].Some?;
    }
  }

  /**
   * For a patch of forwarded properties with defined values, the row the
   * table stores reads back as the item the page computes by merging.
   */
  lemma StoredMatchesLocal(r: Row, p: Patch, d: UpdateData)
    requires IsPartialItem(p) && IsUpdateDataFor(d, p)
    requires forall f :: f in p ==> f in UpdatableFields && p[f].Some?
    ensures RowToItem(ApplyUpdate(r, d)) == Controller.Merge(RowToItem(r), p)
  {
    var stored, local := RowToItem(ApplyUpdate(r, d)), Controller.Merge(RowToItem(r), p);
    UpdateDataFits(d, p);
    forall f ensures Get(stored, f) == Get(local, f) {
      ApplyUpdateColumn(r, d, f);
      Controller.MergeOverrides(RowToItem(r), p, f);
    }
    ItemExtensionality(stored, local);
  }

  /** The same holds for the whole list: the page's items after the update are the stored rows read back. */
  lemma {:induction false} StoredListMatchesLocal(rows: seq<Row>, id: string, p: Patch, d: UpdateData)
    requires IsPartialItem(p) && IsUpdateDataFor(d, p)
    requires forall f :: f in p ==> f in UpdatableFields && p[f].Some?
    ensures RowsToItems(UpdateRows(rows, id, d)) == Controller.UpdateById(RowsToItems(rows), id, p)
  {
    if rows != [] {
      StoredListMatchesLocal(rows[1..], id, p, d);
      if rows[0].id == id {
        StoredMatchesLocal(rows[0], p, d);
      }
      assert UpdateRows(rows, id, d)[1..] == UpdateRows(rows[1..], id, d);
      assert RowsToItems(rows)[1..] == RowsToItems(rows[1..]);
    }
  }

  /**
   * Clearing the sell price in the edit form sends an explicitly undefined
   * sell price: the page's copy loses it, the stored row keeps its old one.
   */
  lemma ClearedSellPriceDiverges(r: Row, form: EditForm.FormData, d: UpdateData)
    requires form.sellPrice == ""
    requires IsUpdateDataFor(d, EditForm.SubmitPatch(form))
    ensures Controller.Merge(RowToItem(r), EditForm.SubmitPatch(form)).sellPrice == None
    ensures RowToItem(ApplyUpdate(r, d)).sellPrice == r.sell_price
  {
    var p := EditForm.SubmitPatch(form);
    UpdateDataFits(d, p);
    ApplyUpdateColumn(r, d, SellPriceField);
    Controller.MergeOverrides(RowToItem(r), p, SellPriceField);
  }
}
