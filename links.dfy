// Marketplace links for an item: the PopMart set page and the StockX
// product page, each taken from the catalog when it has one and built
// from a fixed pattern otherwise; and the image-url normaliser.

module Links {
  import opened Types
  import opened Catalog

  const PopMartSetPrefix := "https://www.popmart.com/us/pop-now/set/"

  /** The hard-coded set ids used when the catalog has no url for a series. */
  const SeriesIds: map<string, string> := map[
    "Big Into Energy" := "195", "Have A Seat" := "196", "Exciting Macaron" := "197",
    "Baby Series" := "198", "Everyday" := "199", "Music Series" := "200",
    "Career Series" := "201", "Zodiac Series" := "202", "Sweet Dreams" := "203",
    "Forest Fairies" := "204", "Space Babies" := "205", "Milk Bottle" := "206"]

  const DefaultSeriesId := "195"

  /** `seriesMap[series] || "195"`. */
  function SeriesId(series: string): (id: string)
    ensures id in SeriesIds.Values
    ensures series in SeriesIds ==> id == SeriesIds[series]
    ensures series !in SeriesIds ==> id == DefaultSeriesId
  {
    if series in SeriesIds && SeriesIds[series] != "" then SeriesIds[series]
    else
      assert SeriesIds["Big Into Energy"] == DefaultSeriesId;
      DefaultSeriesId
  }

  /** Whether the catalog holds a non-empty PopMart url for `series`. */
  predicate HasCatalogUrl(catalog: CatalogData, series: string) {
    series in catalog.seriesData && catalog.seriesData[series].popmartUrl != ""
  }

  /** generatePopMartURL: `character` is accepted but not used. */
  function PopMartUrl(catalog: CatalogData, character: string, series: string): (url: string)
    ensures HasCatalogUrl(catalog, series) ==> url == catalog.seriesData[series].popmartUrl
    ensures !HasCatalogUrl(catalog, series) ==> url == PopMartSetPrefix + SeriesId(series)
  {
    if HasCatalogUrl(catalog, series) then catalog.seriesData[series].popmartUrl
    else PopMartSetPrefix + SeriesId(series)
  }

  /** The PopMart link depends on the series alone. */
  lemma PopMartUrlIgnoresCharacter(catalog: CatalogData, a: string, b: string, series: string)
    ensures PopMartUrl(catalog, a, series) == PopMartUrl(catalog, b, series)
  {
  }

  /** A series the catalog has no url for and the table does not know links to set 195. */
  lemma UnknownSeriesLinksToDefaultSet(catalog: CatalogData, character: string, series: string)
    requires !HasCatalogUrl(catalog, series) && series !in SeriesIds
    ensures PopMartUrl(catalog, character, series) == "https://www.popmart.com/us/pop-now/set/195"
  {
  }

  /** The position of the first entry named `name`, as Array.prototype.find scans. */
  function FindNamed(entries: seq<CatalogItem>, name: string): (r: Option<nat>)
    ensures r.Some? ==> r.value < |entries| && entries[r.value].name == name
    ensures r.Some? ==> forall j :: 0 <= j < r.value ==> entries[j].name != name
    ensures r.None? ==> forall j :: 0 <= j < |entries| ==> entries[j].name != name
  {
    if entries == [] then None
    else if entries[0].name == name then Some(0)
    else
      match FindNamed(entries[1..], name)
      case None => None
      case Some(k) => Some(k + 1)
  }

  predicate IsSpace(c: char) {
    c == ' ' || c == '\t' || c == '\n' || c == '\r' || c == '\U{000B}' || c == '\U{000C}'
  }

  predicate IsUpper(c: char) {
    'A' <= c <= 'Z'
  }

  /** toLowerCase on ASCII letters. */
  function Lower(c: char): (d: char)
    ensures IsSpace(d) <==> IsSpace(c)
    ensures !IsUpper(d)
    ensures IsUpper(c) ==> d as int == c as int + 32
    ensures !IsUpper(c) ==> d == c
  {
    if 'A' <= c <= 'Z' then ((c as int) + 32) as char else c
  }

  /** Drops a leading run of whitespace. */
  function SkipSpaces(s: string): (r: string)
    ensures |r| <= |s|
    ensures r == [] || !IsSpace(r[0])
  {
    if s != [] && IsSpace(s[0]) then SkipSpaces(s[1..]) else s
  }

  predicate NoSpace(s: string) {
    forall i :: 0 <= i < |s| ==> !IsSpace(s[i])
  }

  /** A string a slug is made of: no whitespace, no upper-case ASCII letter. */
  predicate IsSlug(s: string) {
    NoSpace(s) && forall i :: 0 <= i < |s| ==> !IsUpper(s[i])
  }

  /** formatForURL: lower-case, and each maximal run of whitespace becomes one '-'. */
  function Slug(s: string): (r: string)
    ensures IsSlug(r)
    ensures |r| <= |s|
    decreases |s|
  {
    if s == [] then []
    else if IsSpace(s[0]) then "-" + Slug(SkipSpaces(s[1..]))
    else [Lower(s[0])] + Slug(s[1..])
  }

  lemma {:induction false} SlugOfSlug(t: string)
    requires IsSlug(t)
    ensures Slug(t) == t
  {
    if t != [] {
      SlugOfSlug(t[1..]);
    }
  }

  /** Formatting a slug again changes nothing. */
  lemma SlugIdempotent(s: string)
    ensures Slug(Slug(s)) == Slug(s)
  {
    SlugOfSlug(Slug(s));
  }

  /** A run of whitespace after a word becomes exactly one '-', the word itself lower-cased. */
  lemma {:induction false} SlugJoinsWords(a: string, gap: string, b: string)
    requires NoSpace(a) && |gap| > 0
    requires forall i :: 0 <= i < |gap| ==> IsSpace(gap[i])
    requires b == [] || !IsSpace(b[0])
    ensures Slug(a + gap + b) == Slug(a) + "-" + Slug(b)
    decreases |a|
  {
    if a == [] {
      assert a + gap + b == gap + b;
      assert (gap + b)[1..] == gap[1..] + b;
      SkipGap(gap[1..], b);
    } else {
      assert (a + gap + b)[1..] == a[1..] + gap + b;
      SlugJoinsWords(a[1..], gap, b);
    }
  }

  /** A word with no whitespace slugs to its letters lower-cased one by one. */
  lemma {:induction false} SlugOfWord(w: string)
    requires NoSpace(w)
    ensures |Slug(w)| == |w|
    ensures forall i :: 0 <= i < |w| ==> Slug(w)[i] == Lower(w[i])
  {
    if w != [] {
      SlugOfWord(w[1..]);
      assert Slug(w) == [Lower(w[0])] + Slug(w[1..]);
    }
  }

  lemma {:induction false} SkipGap(gap: string, b: string)
    requires forall i :: 0 <= i < |gap| ==> IsSpace(gap[i])
    requires b == [] || !IsSpace(b[0])
    ensures SkipSpaces(gap + b) == b
  {
    if gap != [] {
      assert (gap + b)[1..] == gap[1..] + b;
      SkipGap(gap[1..], b);
    } else {
      assert gap + b == b;
    }
  }

  /** The StockX product page built from three slugs when the catalog has no url. */
  function FallbackStockXUrl(character: string, series: string, item: string): (url: string)
    ensures StartsWith(url, StockXPrefix)
    ensures NoSpace(url)
  {
    var t1 := Slug(character) + "-the-monsters-";
    var t2 := t1 + Slug(series);
    var t3 := t2 + "-series-";
    var t4 := t3 + Slug(item);
    var tail := t4 + "-vinyl-plush-pendant";
    NoSpaceConcat(Slug(character), "-the-monsters-");
    NoSpaceConcat(t1, Slug(series));
    NoSpaceConcat(t2, "-series-");
    NoSpaceConcat(t3, Slug(item));
    NoSpaceConcat(t4, "-vinyl-plush-pendant");
    NoSpaceConcat(StockXPrefix, tail);
    assert (StockXPrefix + tail)[..|StockXPrefix|] == StockXPrefix;
    StockXPrefix + tail
  }

  const StockXPrefix := "https://stockx.com/pop-mart-"

  lemma NoSpaceConcat(a: string, b: string)
    requires NoSpace(a) && NoSpace(b)
    ensures NoSpace(a + b)
  {
    forall i | 0 <= i < |a + b| ensures !IsSpace((a + b)[i]) {
      if i >= |a| {
        assert (a + b)[i] == b[i - |a|];
      }
    }
  }

  /** Whether `j` is the first entry named `name`, the one Array.prototype.find returns. */
  predicate IsFirstNamed(entries: seq<CatalogItem>, name: string, j: int) {
    0 <= j < |entries| && entries[j].name == name && forall i :: 0 <= i < j ==> entries[i].name != name
  }

  /** Whether some entry of `series` is named `name`. */
  predicate Listed(catalog: CatalogData, series: string, name: string) {
    series in catalog.itemsBySeries &&
    exists j :: 0 <= j < |catalog.itemsBySeries[series]| && catalog.itemsBySeries[series][j].name == name
  }

  /** A url that is neither missing nor "", as `foundItem.stockXUrl` tests it. */
  function Truthy(u: Option<string>): (r: Option<string>)
    ensures r.Some? <==> u.Some? && u.value != ""
    ensures r.Some? ==> r == u
  {
    if u.Some? && u.value != "" then u else None
  }

  /** The non-empty StockX url of the first catalog entry named `item` in `series`, if any. */
  function CatalogStockXUrl(catalog: CatalogData, series: string, item: string): (r: Option<string>)
    ensures !Listed(catalog, series, item) ==> r.None?
    ensures series in catalog.itemsBySeries ==>
              forall j :: IsFirstNamed(catalog.itemsBySeries[series], item, j) ==>
                r == Truthy(catalog.itemsBySeries[series][j].stockXUrl)
  {
    if series !in catalog.itemsBySeries then None
    else
      var entries := catalog.itemsBySeries[series];
      match FindNamed(entries, item)
      case None => None
      case Some(k) =>
        assert forall j :: IsFirstNamed(entries, item, j) ==> j == k;
        Truthy(entries[k].stockXUrl)
  }

  /** generateStockXURL. */
  function StockXUrl(catalog: CatalogData, character: string, series: string, item: string): string {
    match CatalogStockXUrl(catalog, series, item)
    case Some(u) => u
    case None => FallbackStockXUrl(character, series, item)
  }

  /** The first entry of the series with the item's name supplies the url when it has a non-empty one. */
  lemma StockXFirstFound(catalog: CatalogData, character: string, series: string, item: string, j: int)
    requires series in catalog.itemsBySeries && IsFirstNamed(catalog.itemsBySeries[series], item, j)
    requires catalog.itemsBySeries[series][j].stockXUrl.Some?
    requires catalog.itemsBySeries[series][j].stockXUrl.value != ""
    ensures StockXUrl(catalog, character, series, item) == catalog.itemsBySeries[series][j].stockXUrl.value
  {
  }

  /** When that first entry has no url, or "", the slug template is used, even if a later entry has one. */
  lemma StockXFirstWithoutUrl(catalog: CatalogData, character: string, series: string, item: string, j: int)
    requires series in catalog.itemsBySeries && IsFirstNamed(catalog.itemsBySeries[series], item, j)
    requires catalog.itemsBySeries[series][j].stockXUrl.None? || catalog.itemsBySeries[series][j].stockXUrl.value == ""
    ensures StockXUrl(catalog, character, series, item) == FallbackStockXUrl(character, series, item)
  {
  }

  /** An item the catalog does not list under the series gets the slug template. */
  lemma StockXNotListed(catalog: CatalogData, character: string, series: string, item: string)
    requires !Listed(catalog, series, item)
    ensures StockXUrl(catalog, character, series, item) == FallbackStockXUrl(character, series, item)
  {
  }

  predicate StartsWith(s: string, prefix: string) {
    |prefix| <= |s| && s[..|prefix|] == prefix
  }

  const UnsplashPrefix := "https://images.unsplash.com/"
  const UnsplashSuffix := "?w=400&h=400&fit=crop"

  /** getImageUrl: full urls and other text pass through; an Unsplash photo id is expanded. */
  function ImageUrl(imageId: string): (url: string)
    ensures StartsWith(imageId, "photo-") ==> url == UnsplashPrefix + imageId + UnsplashSuffix
    ensures !StartsWith(imageId, "photo-") ==> url == imageId
  {
    if StartsWith(imageId, "http") then
      assert imageId[0] == imageId[..4][0] == 'h';
      imageId
    else if StartsWith(imageId, "photo-") then UnsplashPrefix + imageId + UnsplashSuffix
    else imageId
  }

  /** An expanded url is left alone by a second pass. */
  lemma ImageUrlIdempotent(imageId: string)
    ensures ImageUrl(ImageUrl(imageId)) == ImageUrl(imageId)
  {
    var u := ImageUrl(imageId);
    if StartsWith(imageId, "photo-") {
      assert u[..4] == "http";
      assert StartsWith(u, "http");
    }
  }
}
