/**
 * The in-memory catalogue the recommender falls back to when the primary
 * query returns no row: seven buckets of entries, the synonym map from a
 * requested category to a bucket, and the filter that keeps an entry.
 */
module Fallback {
  import opened Optional
  import opened Text
  import opened Rows

  /** A catalogue entry: a name, its skin tags, and a price no entry actually has. */
  datatype Entry = Entry(name: string, skin: seq<string>, price: Option<int>)

  /** The price assumed for an entry that has none. */
  const DefaultPrice: int := 9999

  /** The buckets in the order `products.keys()` yields them. */
  const BucketOrder: seq<string> :=
    ["cleansers", "serums", "moisturizers", "sunscreens", "acne_treatments", "exfoliants", "toners"]

  /** The static catalogue, bucket by bucket. */
  const Products: map<string, seq<Entry>> := map[
    "cleansers" := [
      Entry("Cetaphil Gentle Skin Cleanser", ["dry", "sensitive"], None),
      Entry("CeraVe Hydrating Cleanser", ["dry", "normal"], None),
      Entry("Neutrogena Hydro Boost Cleanser", ["oily", "normal"], None),
      Entry("Simple Refreshing Face Wash", ["oily", "sensitive"], None),
      Entry("The Face Shop Rice Water Bright Cleanser", ["normal", "dry"], None)],
    "serums" := [
      Entry("The Ordinary Niacinamide 10% + Zinc 1%", ["oily", "acne"], None),
      Entry("Minimalist Vitamin C 10%", ["dull", "pigmentation"], None),
      Entry("Deconstruct Brightening Serum", ["pigmentation"], None),
      Entry("Plum 2% Alpha Arbutin Serum", ["pigmentation"], None),
      Entry("L\U{2019}Oreal Revitalift Hyaluronic Acid Serum", ["dry", "normal"], None)],
    "moisturizers" := [
      Entry("CeraVe Moisturizing Cream", ["dry", "sensitive"], None),
      Entry("Neutrogena Hydro Boost Water Gel", ["oily", "normal"], None),
      Entry("Ponds Super Light Gel", ["oily", "normal"], None),
      Entry("Cetaphil Moisturizing Lotion", ["dry"], None),
      Entry("Minimalist Sepicalm 03% Moisturizer", ["sensitive", "acne"], None)],
    "sunscreens" := [
      Entry("La Shield SPF 50", ["oily", "normal"], None),
      Entry("Re\U{2019}equil Oxybenzone & OMC Free Sunscreen", ["sensitive", "normal"], None),
      Entry("Dermaco Ultra Matte Sunscreen", ["oily"], None),
      Entry("Aqualogica Radiance+ Dewy Sunscreen", ["dry"], None),
      Entry("Dr. Sheth\U{2019}s Ceramide & Vitamin C Sunscreen", ["sensitive", "dry"], None)],
    "acne_treatments" := [
      Entry("Benzoyl Peroxide 2.5% Gel", ["acne"], None),
      Entry("Salicylic Acid 2% Solution", ["acne", "oily"], None),
      Entry("Cosrx Pimple Patches", ["acne"], None),
      Entry("Adapalene Gel (Differin)", ["acne"], None),
      Entry("Deconstruct Breakout Control Serum", ["acne"], None)],
    "exfoliants" := [
      Entry("The Ordinary AHA + BHA Peeling Solution", ["dull", "textured"], None),
      Entry("Minimalist Lactic Acid 10%", ["dry", "dull"], None),
      Entry("Cosrx BHA Blackhead Power Liquid", ["oily", "acne"], None),
      Entry("Paula\U{2019}s Choice 2% BHA Liquid", ["oily", "blackheads"], None)],
    "toners" := [
      Entry("Klairs Supple Preparation Toner", ["dry", "sensitive"], None),
      Entry("Cosrx Snail Mucin Power Essence", ["dry", "damaged"], None),
      Entry("Plum Green Tea Toner", ["oily", "acne"], None),
      Entry("I\U{2019}m From Rice Toner", ["dull", "dry"], None)]
  ]

  /** The category selections understood by the fallback, each mapped to its bucket. */
  const Synonyms: map<string, string> := map[
    "cleanser" := "cleansers", "cleanser(s)" := "cleansers", "cleansers" := "cleansers",
    "serum" := "serums", "serums" := "serums",
    "moisturizer" := "moisturizers", "moisturizers" := "moisturizers",
    "sunscreen" := "sunscreens", "sunscreens" := "sunscreens",
    "toner" := "toners", "toners" := "toners",
    "exfoliant" := "exfoliants", "exfoliants" := "exfoliants",
    "acne_treatment" := "acne_treatments", "acne_treatments" := "acne_treatments"
  ]

  /** The bucket order lists every bucket of the catalogue exactly once. */
  lemma BucketOrderIsCatalogue()
    ensures forall k :: k in BucketOrder <==> k in Products
    ensures forall i, j :: 0 <= i < j < |BucketOrder| ==> BucketOrder[i] != BucketOrder[j]
  {
  }

  /** Every synonym names a bucket, each bucket's own key is a synonym for it, and "all" is none. */
  lemma SynonymsNameBuckets()
    ensures forall s :: s in Synonyms ==> Synonyms[s] in Products
    ensures forall k :: k in BucketOrder ==> k in Synonyms && Synonyms[k] == k
    ensures "all" !in Synonyms
  {
  }

  /**
   * The buckets scanned for a requested category: "all" (any case) and any
   * category the synonym map does not know select every bucket in order; a
   * known synonym selects its one bucket.
   */
  function SelectKeys(category: string): (keys: seq<string>)
    ensures forall k :: k in keys ==> k in Products
    ensures Lower(category) == "all" ==> keys == BucketOrder
    ensures Lower(category) in Synonyms ==> keys == [Synonyms[Lower(category)]]
    ensures Lower(category) !in Synonyms ==> keys == BucketOrder
  {
    BucketOrderIsCatalogue();
    SynonymsNameBuckets();
    var catKey := Lower(category);
    if catKey == "all" then BucketOrder
    else if catKey in Synonyms then [Synonyms[catKey]]
    else BucketOrder
  }

  /** The price the filter compares with the budget. */
  function FilterPrice(e: Entry): int
  {
    match e.price
    case Some(p) => p
    case None => DefaultPrice
  }

  /** Skin check: "all", or an exact (lower-cased) tag, or an entry tagged "all". */
  predicate SkinMatches(skin: string, e: Entry)
  {
    var tags := LowerAll(e.skin);
    Lower(skin) == "all" || Lower(skin) in tags || "all" in tags
  }

  /** Concern check: "all", or a substring of the lower-cased name or of the space-joined tags. */
  predicate ConcernMatches(concern: string, e: Entry)
  {
    var c := Lower(concern);
    c == "all" || IsSubstring(c, Lower(e.name)) || IsSubstring(c, Join(" ", LowerAll(e.skin)))
  }

  /** The fallback keeps an entry when its price, skin and concern checks all pass. */
  predicate Keeps(skin: string, concern: string, budget: int, e: Entry)
  {
    FilterPrice(e) <= budget && SkinMatches(skin, e) && ConcernMatches(concern, e)
  }

  /** The output row for entry `e` of bucket `k`: `(name, k[:-1].capitalize(), price or 'N/A', skin)`. */
  function FallbackRow(k: string, e: Entry): (r: Row)
    ensures r.Fallback? && r.name == e.name && r.listedPrice == e.price && r.tags == e.skin
  {
    Row.Fallback(e.name, Capitalize(DropLast(k)), e.price, e.skin)
  }

  /** What `render` gives for each element `keep` accepts, in order. */
  function Filtered<T, R>(xs: seq<T>, keep: T -> bool, render: T -> R): (ys: seq<R>)
    ensures |ys| <= |xs|
  {
    if xs == [] then []
    else
      var x := xs[|xs| - 1];
      Filtered(xs[..|xs| - 1], keep, render) + (if keep(x) then [render(x)] else [])
  }

  /** An element of the filtered list is the rendering of an accepted element, and every such rendering is in it. */
  lemma {:induction false} FilteredMembers<T, R>(xs: seq<T>, keep: T -> bool, render: T -> R, y: R)
    ensures y in Filtered(xs, keep, render) <==> exists i :: 0 <= i < |xs| && keep(xs[i]) && y == render(xs[i])
  {
    if xs != [] {
      var init := xs[..|xs| - 1];
      FilteredMembers(init, keep, render, y);
      if y in Filtered(init, keep, render) {
        var i :| 0 <= i < |init| && keep(init[i]) && y == render(init[i]);
        assert xs[i] == init[i];
      }
      if exists i :: 0 <= i < |xs| && keep(xs[i]) && y == render(xs[i]) {
        var i :| 0 <= i < |xs| && keep(xs[i]) && y == render(xs[i]);
        if i < |init| {
          assert init[i] == xs[i];
        }
      }
    }
  }

  /** The rows kept from `entries` of bucket `k`, in entry order. */
  function KeptRows(k: string, entries: seq<Entry>, skin: string, concern: string, budget: int): (rows: seq<Row>)
    ensures |rows| <= |entries|
  {
    Filtered(entries, e => Keeps(skin, concern, budget, e), e => FallbackRow(k, e))
  }

  /** The lists `f` gives for the elements of `xs`, one after the other. */
  function Flattened<T, R>(xs: seq<T>, f: T --> seq<R>): seq<R>
    requires forall x :: x in xs ==> f.requires(x)
  {
    if xs == [] then []
    else Flattened(xs[..|xs| - 1], f) + f(xs[|xs| - 1])
  }

  /** An element of the flattened list is an element of the list of one of the `xs`, and every such element is in it. */
  lemma {:induction false} FlattenedMembers<T, R>(xs: seq<T>, f: T --> seq<R>, y: R)
    requires forall x :: x in xs ==> f.requires(x)
    ensures y in Flattened(xs, f) <==> exists j :: 0 <= j < |xs| && y in f(xs[j])
  {
    if xs != [] {
      var init := xs[..|xs| - 1];
      FlattenedMembers(init, f, y);
      if y in Flattened(init, f) {
        var j :| 0 <= j < |init| && y in f(init[j]);
        assert xs[j] == init[j];
      }
      if exists j :: 0 <= j < |xs| && y in f(xs[j]) {
        var j :| 0 <= j < |xs| && y in f(xs[j]);
        if j < |init| {
          assert init[j] == xs[j];
        }
      }
    }
  }

  /** The rows kept from the buckets `keys` of catalogue `cat`, bucket after bucket. */
  function ScanRows(cat: map<string, seq<Entry>>, keys: seq<string>, skin: string, concern: string, budget: int): seq<Row>
    requires forall k :: k in keys ==> k in cat
  {
    Flattened(keys, k requires k in cat => KeptRows(k, cat[k], skin, concern, budget))
  }

  /** The fallback scan's result for a request. */
  function FallbackRows(skin: string, concern: string, budget: int, category: string): seq<Row>
  {
    ScanRows(Products, SelectKeys(category), skin, concern, budget)
  }

  /** A row is kept from a bucket exactly when some entry of it passes the filter and renders as that row. */
  lemma KeptRowsMembers(k: string, entries: seq<Entry>, skin: string, concern: string, budget: int, r: Row)
    ensures r in KeptRows(k, entries, skin, concern, budget) <==>
      exists i :: 0 <= i < |entries| && Keeps(skin, concern, budget, entries[i]) && r == FallbackRow(k, entries[i])
  {
    FilteredMembers(entries, e => Keeps(skin, concern, budget, e), e => FallbackRow(k, e), r);
  }

  /** A row is in a scan exactly when it is kept from one of the scanned buckets. */
  lemma ScanRowsMembers(cat: map<string, seq<Entry>>, keys: seq<string>, skin: string, concern: string, budget: int, r: Row)
    requires forall k :: k in keys ==> k in cat
    ensures r in ScanRows(cat, keys, skin, concern, budget) <==>
      exists j :: 0 <= j < |keys| && r in KeptRows(keys[j], cat[keys[j]], skin, concern, budget)
  {
    FlattenedMembers(keys, k requires k in cat => KeptRows(k, cat[k], skin, concern, budget), r);
  }

  /** Every row of a scan is an entry of a selected bucket that passes the filter, and every such entry's row is in it. */
  lemma ScanRowsExactly(cat: map<string, seq<Entry>>, keys: seq<string>, skin: string, concern: string, budget: int, r: Row)
    requires forall k :: k in keys ==> k in cat
    ensures r in ScanRows(cat, keys, skin, concern, budget) <==>
      exists j, i :: 0 <= j < |keys| && 0 <= i < |cat[keys[j]]| &&
        Keeps(skin, concern, budget, cat[keys[j]][i]) && r == FallbackRow(keys[j], cat[keys[j]][i])
  {
    ScanRowsMembers(cat, keys, skin, concern, budget, r);
    forall j | 0 <= j < |keys| {
      KeptRowsMembers(keys[j], cat[keys[j]], skin, concern, budget, r);
    }
  }

  /** A concern that names one of an entry's skin tags (ignoring case) passes the concern check. */
  lemma ConcernNamingTag(concern: string, e: Entry, k: nat)
    requires k < |e.skin| && Lower(concern) == Lower(e.skin[k])
    ensures ConcernMatches(concern, e)
  {
    var tags := LowerAll(e.skin);
    JoinContainsPart(" ", tags, k);
    assert tags[k] == Lower(concern);
  }

  /** No entry of the static catalogue has a price. */
  lemma CatalogueIsUnpriced()
    ensures forall k, i :: k in Products && 0 <= i < |Products[k]| ==> Products[k][i].price == None
  {
  }

  /** Below the default price, no unpriced entry passes the price check, so the scan finds nothing. */
  lemma ScanBelowDefaultPrice(cat: map<string, seq<Entry>>, keys: seq<string>, skin: string, concern: string, budget: int)
    requires forall k :: k in keys ==> k in cat
    requires forall k, i :: k in cat && 0 <= i < |cat[k]| ==> cat[k][i].price == None
    requires budget < DefaultPrice
    ensures ScanRows(cat, keys, skin, concern, budget) == []
  {
    var rows := ScanRows(cat, keys, skin, concern, budget);
    if rows != [] {
      ScanRowsExactly(cat, keys, skin, concern, budget, rows[0]);
    }
  }

  /** With a budget below 9999 the fallback scan returns nothing, whatever else is requested. */
  lemma FallbackNeedsDefaultPrice(skin: string, concern: string, budget: int, category: string)
    requires budget < DefaultPrice
    ensures FallbackRows(skin, concern, budget, category) == []
  {
    CatalogueIsUnpriced();
    ScanBelowDefaultPrice(Products, SelectKeys(category), skin, concern, budget);
  }

  /** Every fallback row shows the price as 'N/A'. */
  lemma FallbackRowsUnpriced(skin: string, concern: string, budget: int, category: string)
    ensures forall r :: r in FallbackRows(skin, concern, budget, category) ==> r.Fallback? && r.listedPrice == None
  {
    CatalogueIsUnpriced();
    forall r | r in FallbackRows(skin, concern, budget, category) ensures r.Fallback? && r.listedPrice == None {
      ScanRowsExactly(Products, SelectKeys(category), skin, concern, budget, r);
    }
  }

  /** The label of a bucket key written in lower case: its first letter upper-cased, its last letter dropped. */
  lemma {:induction false} LabelOfKey(k: string)
    requires |k| >= 2
    requires forall i :: 0 <= i < |k| ==> !('A' <= k[i] <= 'Z')
    ensures Capitalize(DropLast(k)) == [UpperChar(k[0])] + k[1..|k| - 1]
  {
    var d := DropLast(k);
    assert d[1..] == k[1..|k| - 1];
    LowerOfLowercase(d[1..]);
  }

  /** The shown category keeps the singular of the key, an underscore included. */
  lemma BucketLabels()
    ensures Capitalize(DropLast("cleansers")) == "Cleanser"
    ensures Capitalize(DropLast("acne_treatments")) == "Acne_treatment"
  {
    LabelOfKey("cleansers");
    LabelOfKey("acne_treatments");
  }

  /** The inner loop of the fallback scan: appends the row of every entry of bucket `k` the filter keeps. */
  method ScanBucket(before: seq<Row>, k: string, entries: seq<Entry>, skin: string, concern: string, budget: int)
    returns (matches: seq<Row>)
    ensures matches == before + KeptRows(k, entries, skin, concern, budget)
  {
    matches := before;
    for m := 0 to |entries|
      invariant matches == before + KeptRows(k, entries[..m], skin, concern, budget)
    {
      var p := entries[m];
      assert entries[..m + 1][..m] == entries[..m];
      if FilterPrice(p) <= budget && SkinMatches(skin, p) {
        if ConcernMatches(concern, p) {
          matches := matches + [FallbackRow(k, p)];
        }
      }
    }
    assert entries[..|entries|] == entries;
  }

  /**
   * The outer loop of the fallback scan: over the buckets `keys` of
   * catalogue `cat` in order, each scanned by the inner loop.
   */
  method ScanBuckets(cat: map<string, seq<Entry>>, keys: seq<string>, skin: string, concern: string, budget: int)
    returns (matches: seq<Row>)
    requires forall k :: k in keys ==> k in cat
    ensures matches == ScanRows(cat, keys, skin, concern, budget)
  {
    matches := [];
    for n := 0 to |keys|
      invariant matches == ScanRows(cat, keys[..n], skin, concern, budget)
    {
      assert keys[..n + 1][..n] == keys[..n];
      matches := ScanBucket(matches, keys[n], cat[keys[n]], skin, concern, budget);
    }
    assert keys[..|keys|] == keys;
  }

  /** The fallback scan for a request: the selected buckets of the static catalogue. */
  method ScanFallback(skin: string, concern: string, budget: int, category: string) returns (matches: seq<Row>)
    ensures matches == FallbackRows(skin, concern, budget, category)
  {
    matches := ScanBuckets(Products, SelectKeys(category), skin, concern, budget);
  }
}
