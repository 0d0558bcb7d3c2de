/**
 * The marketplace page's derived lists (src/pages/Marketplace.tsx): the
 * category list and the product list after the search, category, distance
 * and tag filters.
 */
module Marketplace {
  import opened SeqUtil
  import opened AppContext

  /** `haystack.includes(needle)`: `needle` occurs at some position of `haystack`. */
  predicate Includes(haystack: string, needle: string)
    decreases |haystack|
  {
    |needle| <= |haystack| && (haystack[..|needle|] == needle || Includes(haystack[1..], needle))
  }

  /**
   * The search test: the lowered term occurs in the lowered name, description
   * or seller. `lower` stands for `toLowerCase`, which the model does not interpret.
   */
  predicate MatchesSearch(p: Product, term: string, lower: string -> string)
    ensures lower(term) == "" ==> MatchesSearch(p, term, lower)
  {
    Includes(lower(p.name), lower(term)) ||
    Includes(lower(p.description), lower(term)) ||
    Includes(lower(p.seller), lower(term))
  }

  /** `selectedTags.some(tag => product.tags.includes(tag))`. */
  predicate SharesTag(p: Product, selectedTags: seq<string>) {
    exists k :: 0 <= k < |selectedTags| && selectedTags[k] in p.tags
  }

  /** What a product must satisfy to be shown; an empty search term, category or tag list imposes nothing. */
  predicate Shown(p: Product, searchTerm: string, selectedCategory: string, maxDistance: real,
                  selectedTags: seq<string>, lower: string -> string)
    ensures searchTerm == "" && selectedCategory == "" && |selectedTags| == 0 ==>
              (Shown(p, searchTerm, selectedCategory, maxDistance, selectedTags, lower) <==> p.distance <= maxDistance)
    ensures Shown(p, searchTerm, selectedCategory, maxDistance, selectedTags, lower) ==> p.distance <= maxDistance
  {
    && (searchTerm != "" ==> MatchesSearch(p, searchTerm, lower))
    && (selectedCategory != "" ==> p.category == selectedCategory)
    && p.distance <= maxDistance
    && (|selectedTags| > 0 ==> SharesTag(p, selectedTags))
  }

  /** One filter step: when `active`, the products `keep` accepts, in order; otherwise all of them. */
  function FilterStep(s: seq<Product>, active: bool, keep: Product -> bool): (r: seq<Product>)
    ensures IsSubsequence(r, s)
    ensures forall p :: p in r ==> p in s && (active ==> keep(p))
    ensures forall p :: p in s && (active ==> keep(p)) ==> p in r
  {
    if active then Filter(s, keep)
    else SubsequenceReflexive(s); s
  }

  /** A filter step drops copies only of the products it rejects. */
  lemma FilterStepCounts(s: seq<Product>, active: bool, keep: Product -> bool)
    ensures multiset(FilterStep(s, active, keep)) <= multiset(s)
    ensures forall p :: (active ==> keep(p)) ==> multiset(FilterStep(s, active, keep))[p] == multiset(s)[p]
  {
    if active {
      FilterCounts(s, keep);
    }
  }

  /** The four stages of the pipeline, as the products each one keeps. */
  function BySearch(searchTerm: string, lower: string -> string): Product -> bool {
    (p: Product) => MatchesSearch(p, searchTerm, lower)
  }

  function ByCategory(selectedCategory: string): Product -> bool {
    (p: Product) => p.category == selectedCategory
  }

  function ByDistance(maxDistance: real): Product -> bool {
    (p: Product) => p.distance <= maxDistance
  }

  function ByTags(selectedTags: seq<string>): Product -> bool {
    (p: Product) => SharesTag(p, selectedTags)
  }

  /** The stages of the pipeline, applied in order to the catalog. */
  ghost predicate IsPipeline(products: seq<Product>, searchTerm: string, selectedCategory: string,
                             maxDistance: real, selectedTags: seq<string>, lower: string -> string,
                             bySearch: seq<Product>, byCategory: seq<Product>,
                             byDistance: seq<Product>, byTags: seq<Product>)
  {
    && bySearch == FilterStep(products, searchTerm != "", BySearch(searchTerm, lower))
    && byCategory == FilterStep(bySearch, selectedCategory != "", ByCategory(selectedCategory))
    && byDistance == FilterStep(byCategory, true, ByDistance(maxDistance))
    && byTags == FilterStep(byDistance, |selectedTags| > 0, ByTags(selectedTags))
  }

  /** Whatever comes out of the last stage passes every active test. */
  lemma PipelineShowsOnlyShown(products: seq<Product>, searchTerm: string, selectedCategory: string,
                               maxDistance: real, selectedTags: seq<string>, lower: string -> string,
                               bySearch: seq<Product>, byCategory: seq<Product>,
                               byDistance: seq<Product>, byTags: seq<Product>)
    requires IsPipeline(products, searchTerm, selectedCategory, maxDistance, selectedTags, lower,
                        bySearch, byCategory, byDistance, byTags)
    ensures forall k :: 0 <= k < |byTags| ==>
              Shown(byTags[k], searchTerm, selectedCategory, maxDistance, selectedTags, lower)
  {
    forall k | 0 <= k < |byTags|
      ensures Shown(byTags[k], searchTerm, selectedCategory, maxDistance, selectedTags, lower)
    {
      var p := byTags[k];
      assert p in byTags;
      assert p in byDistance;
      assert p in byCategory;
      assert p in bySearch;
    }
  }

  /** A product that passes every active test keeps all its copies through the four stages. */
  lemma PipelineKeepsShownCopies(products: seq<Product>, searchTerm: string, selectedCategory: string,
                                 maxDistance: real, selectedTags: seq<string>, lower: string -> string,
                                 bySearch: seq<Product>, byCategory: seq<Product>,
                                 byDistance: seq<Product>, byTags: seq<Product>)
    requires IsPipeline(products, searchTerm, selectedCategory, maxDistance, selectedTags, lower,
                        bySearch, byCategory, byDistance, byTags)
    ensures multiset(byTags) <= multiset(products)
    ensures forall p :: Shown(p, searchTerm, selectedCategory, maxDistance, selectedTags, lower) ==>
              multiset(byTags)[p] == multiset(products)[p]
    ensures forall k ::
              (0 <= k < |products| &&
               Shown(products[k], searchTerm, selectedCategory, maxDistance, selectedTags, lower)) ==>
              products[k] in byTags
  {
    FilterStepCounts(products, searchTerm != "", BySearch(searchTerm, lower));
    FilterStepCounts(bySearch, selectedCategory != "", ByCategory(selectedCategory));
    FilterStepCounts(byCategory, true, ByDistance(maxDistance));
    FilterStepCounts(byDistance, |selectedTags| > 0, ByTags(selectedTags));
    forall p | Shown(p, searchTerm, selectedCategory, maxDistance, selectedTags, lower)
      ensures multiset(byTags)[p] == multiset(products)[p]
    {
      assert multiset(byTags)[p] == multiset(byDistance)[p];
      assert multiset(byDistance)[p] == multiset(byCategory)[p];
      assert multiset(byCategory)[p] == multiset(bySearch)[p];
    }
    forall k | 0 <= k < |products| && Shown(products[k], searchTerm, selectedCategory, maxDistance, selectedTags, lower)
      ensures products[k] in byTags
    {
      assert products[k] in multiset(products);
    }
  }

  /**
   * The filter effect: the successive filters applied to the catalog. The
   * result keeps the catalog order and holds exactly the products that pass
   * every active test, each as often as the catalog holds it.
   */
  function FilterProducts(products: seq<Product>, searchTerm: string, selectedCategory: string,
                          maxDistance: real, selectedTags: seq<string>, lower: string -> string)
    : (filtered: seq<Product>)
    ensures IsSubsequence(filtered, products)
    ensures forall k :: 0 <= k < |filtered| ==>
              Shown(filtered[k], searchTerm, selectedCategory, maxDistance, selectedTags, lower)
    ensures forall k ::
              (0 <= k < |products| &&
               Shown(products[k], searchTerm, selectedCategory, maxDistance, selectedTags, lower)) ==>
              products[k] in filtered
    ensures multiset(filtered) <= multiset(products)
    ensures forall p :: Shown(p, searchTerm, selectedCategory, maxDistance, selectedTags, lower) ==>
              multiset(filtered)[p] == multiset(products)[p]
  {
    var bySearch := FilterStep(products, searchTerm != "", BySearch(searchTerm, lower));
    var byCategory := FilterStep(bySearch, selectedCategory != "", ByCategory(selectedCategory));
    var byDistance := FilterStep(byCategory, true, ByDistance(maxDistance));
    var byTags := FilterStep(byDistance, |selectedTags| > 0, ByTags(selectedTags));
    SubsequenceTransitive(byCategory, bySearch, products);
    SubsequenceTransitive(byDistance, byCategory, products);
    SubsequenceTransitive(byTags, byDistance, products);
    PipelineShowsOnlyShown(products, searchTerm, selectedCategory, maxDistance, selectedTags, lower,
                           bySearch, byCategory, byDistance, byTags);
    PipelineKeepsShownCopies(products, searchTerm, selectedCategory, maxDistance, selectedTags, lower,
                             bySearch, byCategory, byDistance, byTags);
    byTags
  }

  function CategoryOf(p: Product): string { p.category }

  /** The category list: every product's category, each once. */
  function Categories(products: seq<Product>): (categories: seq<string>)
    ensures forall k :: 0 <= k < |products| ==> products[k].category in categories
    ensures forall k :: 0 <= k < |categories| ==> exists i :: 0 <= i < |products| && products[i].category == categories[k]
    ensures forall i, j :: 0 <= i < j < |categories| ==> categories[i] != categories[j]
  {
    var all := Map(products, CategoryOf);
    var categories := Distinct(all);
    assert forall k :: 0 <= k < |categories| ==> categories[k] in all;
    categories
  }

  /** Categories appear in the order in which the catalog first mentions them. */
  lemma CategoriesInFirstOccurrenceOrder(products: seq<Product>, i: nat, j: nat)
    requires i < j < |Categories(products)|
    ensures Categories(products)[i] in Map(products, CategoryOf)
    ensures Categories(products)[j] in Map(products, CategoryOf)
    ensures FirstIndexOf(Map(products, CategoryOf), Categories(products)[i]) <
            FirstIndexOf(Map(products, CategoryOf), Categories(products)[j])
  {
    DistinctFirstOccurrenceOrder(Map(products, CategoryOf), i, j);
  }
}
