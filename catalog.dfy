// The catalog index: the bundled characters/series/items data grouped into
// the lookup maps the edit form and the link builders use.

module Catalog {
  import opened Types

  datatype CharacterRecord = CharacterRecord(name: string)
  datatype SeriesRecord = SeriesRecord(name: string, character: string, popmartUrl: Option<string>)
  datatype ItemRecord = ItemRecord(name: string, series: string, imageUrl: string, stockXUrl: Option<string>)

  /** The bundled catalog data file. */
  datatype SourceData = SourceData(
    characters: seq<CharacterRecord>,
    series: seq<SeriesRecord>,
    items: seq<ItemRecord>)

  datatype SeriesInfo = SeriesInfo(name: string, character: string, popmartUrl: string)
  datatype CatalogItem = CatalogItem(name: string, imageId: string, stockXUrl: Option<string>)

  /** CatalogData: the grouped view of the source data. */
  datatype CatalogData = CatalogData(
    characters: seq<string>,
    seriesByCharacter: map<string, seq<string>>,
    itemsBySeries: map<string, seq<CatalogItem>>,
    seriesData: map<string, SeriesInfo>)

  /** The catalog the edit form holds before its catalog has loaded. */
  const EmptyCatalog := CatalogData([], map[], map[], map[])

  /** The series entry stored for a series record; a missing url becomes "". */
  function Info(r: SeriesRecord): SeriesInfo {
    SeriesInfo(r.name, r.character, if r.popmartUrl.Some? then r.popmartUrl.value else "")
  }

  /** The grouped entry stored for an item record: `imageUrl` becomes `imageId`. */
  function Entry(r: ItemRecord): CatalogItem {
    CatalogItem(r.name, r.imageUrl, r.stockXUrl)
  }

  function CharacterNames(cs: seq<CharacterRecord>): (r: seq<string>)
    ensures |r| == |cs|
    ensures forall i :: 0 <= i < |cs| ==> r[i] == cs[i].name
  {
    if cs == [] then [] else CharacterNames(cs[..|cs| - 1]) + [cs[|cs| - 1].name]
  }

  /** The names of the series owned by `ch`, in source order. */
  function SeriesNamesOf(ss: seq<SeriesRecord>, ch: string): seq<string> {
    if ss == [] then []
    else
      var last := ss[|ss| - 1];
      SeriesNamesOf(ss[..|ss| - 1], ch) + (if last.character == ch then [last.name] else [])
  }

  /** The entries of the items of series `s`, in source order. */
  function ItemsOf(rs: seq<ItemRecord>, s: string): seq<CatalogItem> {
    if rs == [] then []
    else
      var last := rs[|rs| - 1];
      ItemsOf(rs[..|rs| - 1], s) + (if last.series == s then [Entry(last)] else [])
  }

  /** The entry of the last series record named `name`: later duplicates overwrite earlier ones. */
  function SeriesEntry(ss: seq<SeriesRecord>, name: string): Option<SeriesInfo> {
    if ss == [] then None
    else if ss[|ss| - 1].name == name then Some(Info(ss[|ss| - 1]))
    else SeriesEntry(ss[..|ss| - 1], name)
  }

  function Lookup<K, V>(m: map<K, V>, k: K): Option<V> {
    if k in m then Some(m[k]) else None
  }

  /** Groups the source data into the catalog's lookup maps. */
  method GetCatalog(src: SourceData) returns (c: CatalogData)
    ensures c.characters == CharacterNames(src.characters)
    ensures forall ch :: ch in c.seriesByCharacter <==> SeriesNamesOf(src.series, ch) != []
    ensures forall ch :: ch in c.seriesByCharacter ==> c.seriesByCharacter[ch] == SeriesNamesOf(src.series, ch)
    ensures forall n :: Lookup(c.seriesData, n) == SeriesEntry(src.series, n)
    ensures forall s :: s in c.itemsBySeries <==> ItemsOf(src.items, s) != []
    ensures forall s :: s in c.itemsBySeries ==> c.itemsBySeries[s] == ItemsOf(src.items, s)
  {
    var byCharacter: map<string, seq<string>> := map[];
    var seriesData: map<string, SeriesInfo> := map[];
    var i := 0;
    while i < |src.series|
      invariant 0 <= i <= |src.series|
      invariant forall ch :: ch in byCharacter <==> SeriesNamesOf(src.series[..i], ch) != []
      invariant forall ch :: ch in byCharacter ==> byCharacter[ch] == SeriesNamesOf(src.series[..i], ch)
      invariant forall n :: Lookup(seriesData, n) == SeriesEntry(src.series[..i], n)
    {
      var r := src.series[i];
      assert src.series[..i + 1][..i] == src.series[..i];
      if r.character !in byCharacter {
        byCharacter := byCharacter[r.character := []];
      }
      byCharacter := byCharacter[r.character := byCharacter[r.character] + [r.name]];
      seriesData := seriesData[r.name := Info(r)];
      i := i + 1;
    }
    assert src.series[..i] == src.series;

    var bySeries: map<string, seq<CatalogItem>> := map[];
    var j := 0;
    while j < |src.items|
      invariant 0 <= j <= |src.items|
      invariant forall s :: s in bySeries <==> ItemsOf(src.items[..j], s) != []
      invariant forall s :: s in bySeries ==> bySeries[s] == ItemsOf(src.items[..j], s)
    {
      var r := src.items[j];
      assert src.items[..j + 1][..j] == src.items[..j];
      if r.series !in bySeries {
        bySeries := bySeries[r.series := []];
      }
      bySeries := bySeries[r.series := bySeries[r.series] + [Entry(r)]];
      j := j + 1;
    }
    assert src.items[..j] == src.items;

    c := CatalogData(CharacterNames(src.characters), byCharacter, bySeries, seriesData);
  }

  /** A character has a series list exactly when some series record names it. */
  lemma {:induction false} SeriesNamesOfNonEmpty(ss: seq<SeriesRecord>, ch: string)
    ensures SeriesNamesOf(ss, ch) != [] <==> exists i :: 0 <= i < |ss| && ss[i].character == ch
  {
    if ss != [] {
      var p := ss[..|ss| - 1];
      SeriesNamesOfNonEmpty(p, ch);
      if exists i :: 0 <= i < |p| && p[i].character == ch {
        var i :| 0 <= i < |p| && p[i].character == ch;
        assert ss[i].character == ch;
      }
    }
  }

  /** Every series record's name is listed under its character. */
  lemma {:induction false} SeriesListedUnderCharacter(ss: seq<SeriesRecord>, i: nat)
    requires i < |ss|
    ensures ss[i].name in SeriesNamesOf(ss, ss[i].character)
  {
    if i < |ss| - 1 {
      SeriesListedUnderCharacter(ss[..|ss| - 1], i);
    }
  }

  /** The sum of the lengths of the lists stored under `keys`. */
  ghost function GroupTotal(m: map<string, seq<CatalogItem>>, keys: set<string>): nat
    requires keys <= m.Keys
    decreases keys
  {
    if keys == {} then 0
    else
      var k :| k in keys;
      |m[k]| + GroupTotal(m, keys - {k})
  }

  lemma {:induction false} GroupTotalRemove(m: map<string, seq<CatalogItem>>, keys: set<string>, k: string)
    requires keys <= m.Keys && k in keys
    ensures GroupTotal(m, keys) == |m[k]| + GroupTotal(m, keys - {k})
    decreases keys
  {
    var j :| j in keys && GroupTotal(m, keys) == |m[j]| + GroupTotal(m, keys - {j});
    if j != k {
      GroupTotalRemove(m, keys - {j}, k);
      GroupTotalRemove(m, keys - {k}, j);
      assert keys - {j} - {k} == keys - {k} - {j};
    }
  }

  lemma {:induction false} GroupTotalAgree(m1: map<string, seq<CatalogItem>>, m2: map<string, seq<CatalogItem>>, keys: set<string>)
    requires keys <= m1.Keys && keys <= m2.Keys
    requires forall k :: k in keys ==> |m1[k]| == |m2[k]|
    ensures GroupTotal(m1, keys) == GroupTotal(m2, keys)
    decreases keys
  {
    if keys != {} {
      var k :| k in keys;
      GroupTotalRemove(m1, keys, k);
      GroupTotalRemove(m2, keys, k);
      GroupTotalAgree(m1, m2, keys - {k});
    }
  }

  /** A map holding exactly the non-empty item groups of `rs`, as GetCatalog builds it. */
  ghost predicate GroupsItems(m: map<string, seq<CatalogItem>>, rs: seq<ItemRecord>) {
    && (forall s :: s in m <==> ItemsOf(rs, s) != [])
    && (forall s :: s in m ==> m[s] == ItemsOf(rs, s))
  }

  /** Adding a record to the end lengthens its own series' group by one and leaves the others alone. */
  lemma ItemsOfSnoc(rs: seq<ItemRecord>, s: string)
    requires rs != []
    ensures var p, last := rs[..|rs| - 1], rs[|rs| - 1];
            |ItemsOf(rs, s)| == |ItemsOf(p, s)| + (if last.series == s then 1 else 0)
  {
  }

  /** The groups of all records but the last, as a map of the same shape. */
  lemma PrefixGroups(m: map<string, seq<CatalogItem>>, rs: seq<ItemRecord>) returns (mp: map<string, seq<CatalogItem>>)
    requires rs != [] && GroupsItems(m, rs)
    ensures GroupsItems(mp, rs[..|rs| - 1])
    ensures mp.Keys <= m.Keys
    ensures forall s :: s in mp ==> |m[s]| == |mp[s]| + (if s == rs[|rs| - 1].series then 1 else 0)
  {
    var p := rs[..|rs| - 1];
    mp := map s | s in m && ItemsOf(p, s) != [] :: ItemsOf(p, s);
    forall s ensures s in mp <==> ItemsOf(p, s) != [] {
      if ItemsOf(p, s) != [] {
        ItemsOfSnoc(rs, s);
      }
    }
    forall s | s in mp ensures |m[s]| == |mp[s]| + (if s == rs[|rs| - 1].series then 1 else 0) {
      ItemsOfSnoc(rs, s);
    }
  }

  /** The groups hold as many entries in all as there are item records. */
  lemma {:induction false} GroupedItemCount(m: map<string, seq<CatalogItem>>, rs: seq<ItemRecord>)
    requires GroupsItems(m, rs)
    ensures GroupTotal(m, m.Keys) == |rs|
  {
    if rs == [] {
      assert forall s :: ItemsOf(rs, s) == [];
      assert m.Keys == {};
    } else {
      var k := rs[|rs| - 1].series;
      var mp := PrefixGroups(m, rs);
      GroupedItemCount(mp, rs[..|rs| - 1]);
      ItemsOfSnoc(rs, k);
      assert k in m;
      GroupTotalRemove(m, m.Keys, k);
      assert m.Keys - {k} == mp.Keys - {k} by {
        forall s | s in m && s != k ensures s in mp {
          ItemsOfSnoc(rs, s);
        }
      }
      GroupTotalAgree(m, mp, m.Keys - {k});
      if k in mp {
        GroupTotalRemove(mp, mp.Keys, k);
      } else {
        assert mp.Keys - {k} == mp.Keys;
      }
    }
  }
}
