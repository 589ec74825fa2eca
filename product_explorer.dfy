/** `ProductExplorer`: the catalogue query built from the skin-type and
    concern selections, and the local search / sustainability / sort
    pipeline over the fetched products. */
module ProductExplorer {
  import opened Common
  import opened Text
  import opened Types
  import opened Sorting

  /** The query handed to `getProducts`; an absent field is not sent. */
  datatype Params = Params(skinType: Option<string>, concerns: Option<seq<string>>)

  /** The `params` object of `fetchProducts`, filled field by field. */
  method BuildParams(selectedSkinType: string, selectedConcerns: seq<string>) returns (params: Params)
    ensures params.skinType.Some? <==> selectedSkinType != ""
    ensures params.skinType.Some? ==> params.skinType.value == selectedSkinType
    ensures params.concerns.Some? <==> |selectedConcerns| > 0
    ensures params.concerns.Some? ==> params.concerns.value == selectedConcerns
  {
    params := Params(None, None);
    if selectedSkinType != "" {
      params := params.(skinType := Some(selectedSkinType));
    }
    if |selectedConcerns| > 0 {
      params := params.(concerns := Some(selectedConcerns));
    }
  }

  /** The search stage: name, brand or description contains the term, ignoring case. */
  predicate SearchMatches(p: Product, term: string) {
    Includes(p.name, term) || Includes(p.brand, term) || Includes(p.description, term)
  }

  /** What survives both filter stages: the search (skipped for an empty
      term) and the sustainability floor (skipped when it is 0 or less). */
  predicate Shown(p: Product, term: string, minSustainability: int) {
    (term == "" || SearchMatches(p, term)) && (minSustainability <= 0 || p.sustainabilityScore >= minSustainability)
  }

  function SearchTest(term: string): Product -> bool {
    (p: Product) => SearchMatches(p, term)
  }

  function SearchKeep(term: string): Product -> bool {
    (p: Product) => term == "" || SearchMatches(p, term)
  }

  function FloorTest(minSustainability: int): Product -> bool {
    (p: Product) => p.sustainabilityScore >= minSustainability
  }

  function FloorKeep(minSustainability: int): Product -> bool {
    (p: Product) => minSustainability <= 0 || p.sustainabilityScore >= minSustainability
  }

  function ShownKeep(term: string, minSustainability: int): Product -> bool {
    (p: Product) => Shown(p, term, minSustainability)
  }

  /** The reference result of the two filter stages, in catalogue order. */
  function Filtered(products: seq<Product>, term: string, minSustainability: int): (r: seq<Product>)
    ensures forall p :: p in r <==> p in products && Shown(p, term, minSustainability)
    ensures IsSubsequence(r, products)
  {
    Filter(products, ShownKeep(term, minSustainability))
  }

  /** With an empty term and no floor every product is shown, in order. */
  lemma NoFilterShowsAll(products: seq<Product>, minSustainability: int)
    requires minSustainability <= 0
    ensures Filtered(products, "", minSustainability) == products
  {
    FilterKeepsAll(products, ShownKeep("", minSustainability));
  }

  /** `a.price || 0`. */
  function PriceOrZero(p: Product): int {
    p.price.GetOr(0)
  }

  function Score(p: Product): int {
    p.sustainabilityScore
  }

  /** The comparator chosen by `sortBy`; any other value leaves the order alone. */
  function SortOrder(sortBy: string): Option<(Product, Product) -> bool> {
    if sortBy == "price-low" then Some(Ascending(PriceOrZero))
    else if sortBy == "price-high" then Some(Descending(PriceOrZero))
    else if sortBy == "sustainability" then Some(Descending(Score))
    else None
  }

  /** Every comparator the page can choose is a total preorder. */
  lemma SortOrderTotal(sortBy: string)
    requires SortOrder(sortBy).Some?
    ensures TotalPreorder(SortOrder(sortBy).value)
  {
    AscendingTotal(PriceOrZero);
    DescendingTotal(PriceOrZero);
    DescendingTotal(Score);
  }

  /** The search stage: skipped for an empty term. */
  function SearchStage(ps: seq<Product>, term: string): seq<Product> {
    if term != "" then Filter(ps, SearchTest(term)) else ps
  }

  /** The sustainability stage: skipped unless the floor is positive. */
  function FloorStage(ps: seq<Product>, minSustainability: int): seq<Product> {
    if minSustainability > 0 then Filter(ps, FloorTest(minSustainability)) else ps
  }

  lemma SearchStageFilters(ps: seq<Product>, term: string)
    ensures SearchStage(ps, term) == Filter(ps, SearchKeep(term))
  {
    if term != "" {
      FilterSameKeep(ps, SearchTest(term), SearchKeep(term));
    } else {
      FilterKeepsAll(ps, SearchKeep(term));
    }
  }

  lemma FloorStageFilters(ps: seq<Product>, minSustainability: int)
    ensures FloorStage(ps, minSustainability) == Filter(ps, FloorKeep(minSustainability))
  {
    if minSustainability > 0 {
      FilterSameKeep(ps, FloorTest(minSustainability), FloorKeep(minSustainability));
    } else {
      FilterKeepsAll(ps, FloorKeep(minSustainability));
    }
  }

  /** The stages one after the other amount to the single combined filter. */
  lemma StagesAreFiltered(products: seq<Product>, term: string, minSustainability: int)
    ensures FloorStage(SearchStage(products, term), minSustainability) == Filtered(products, term, minSustainability)
  {
    var sk, fk := SearchKeep(term), FloorKeep(minSustainability);
    var a := SearchStage(products, term);
    SearchStageFilters(products, term);
    assert a == Filter(products, sk);
    FloorStageFilters(a, minSustainability);
    FilterFilter(products, sk, fk, ShownKeep(term, minSustainability));
  }

  /** The two filter stages of the effect, reassigning `result`. */
  method FilterStages(products: seq<Product>, searchTerm: string, minSustainability: int)
    returns (result: seq<Product>)
    ensures result == Filtered(products, searchTerm, minSustainability)
  {
    result := products;
    if searchTerm != "" {
      result := Filter(result, SearchTest(searchTerm));
    }
    if minSustainability > 0 {
      result := Filter(result, FloorTest(minSustainability));
    }
    StagesAreFiltered(products, searchTerm, minSustainability);
  }

  lemma SameElements<T>(a: seq<T>, b: seq<T>)
    requires multiset(a) == multiset(b)
    ensures forall x :: x in a <==> x in b
  {
    assert forall x :: x in a <==> x in multiset(a);
    assert forall x :: x in b <==> x in multiset(b);
  }

  /** The filter-and-sort effect: the filter stages, then the sort `sortBy` picks. */
  method FilterAndSort(products: seq<Product>, searchTerm: string, minSustainability: int, sortBy: string)
    returns (result: seq<Product>)
    ensures multiset(result) == multiset(Filtered(products, searchTerm, minSustainability))
    ensures forall p :: p in result <==> p in products && Shown(p, searchTerm, minSustainability)
    ensures SortOrder(sortBy).None? ==> result == Filtered(products, searchTerm, minSustainability)
    ensures SortOrder(sortBy).None? ==> IsSubsequence(result, products)
    ensures SortOrder(sortBy).Some? ==> result == SortBy(Filtered(products, searchTerm, minSustainability), SortOrder(sortBy).value)
    ensures SortOrder(sortBy).Some? ==> Sorted(result, SortOrder(sortBy).value)
  {
    result := FilterStages(products, searchTerm, minSustainability);
    ghost var filtered := result;
    if sortBy == "price-low" {
      result := SortBy(result, Ascending(PriceOrZero));
    } else if sortBy == "price-high" {
      result := SortBy(result, Descending(PriceOrZero));
    } else if sortBy == "sustainability" {
      result := SortBy(result, Descending(Score));
    }
    if SortOrder(sortBy).Some? {
      SortOrderTotal(sortBy);
      SortBySorted(filtered, SortOrder(sortBy).value);
    }
    SameElements(result, filtered);
  }

  /** The concern chips: remove the concern when selected, append it otherwise. */
  function ToggleConcern(selected: seq<string>, c: string): (r: seq<string>)
    ensures (c in r) <==> (c !in selected)
    ensures forall y :: y != c ==> (y in r <==> y in selected)
    ensures c !in selected ==> r == selected + [c]
    ensures c !in selected ==> Toggle(r, c) == selected
  {
    if c in selected then Toggle(selected, c)
    else
      ToggleTwiceRestores(selected, c);
      Toggle(selected, c)
  }

  class Page {
    var products: seq<Product>
    var searchTerm: string
    var selectedSkinType: string
    var selectedConcerns: seq<string>
    var minSustainability: int
    var sortBy: string
    var filteredProducts: seq<Product>
    var isLocalLoading: bool
    /** The queries sent to `getProducts`, in order. */
    var queries: seq<Params>

    constructor()
      ensures products == [] && searchTerm == "" && selectedSkinType == "" && selectedConcerns == []
      ensures minSustainability == 0 && sortBy == "relevance" && filteredProducts == [] && !isLocalLoading
      ensures queries == []
    {
      products := [];
      searchTerm := "";
      selectedSkinType := "";
      selectedConcerns := [];
      minSustainability := 0;
      sortBy := "relevance";
      filteredProducts := [];
      isLocalLoading := false;
      queries := [];
    }

    /** The active-filter bar is shown. */
    predicate ShowsActiveFilters()
      reads this
    {
      selectedSkinType != "" || |selectedConcerns| > 0 || minSustainability > 0
    }

    /** `fetchProducts`: `outcome` is the awaited `getProducts(params)`. */
    method Fetch(outcome: Result<seq<Product>>)
      modifies this
      ensures |queries| == |old(queries)| + 1 && queries[..|old(queries)|] == old(queries)
      ensures queries[|old(queries)|].skinType.Some? <==> selectedSkinType != ""
      ensures queries[|old(queries)|].concerns.Some? <==> |selectedConcerns| > 0
      ensures queries[|old(queries)|].skinType.Some? ==> queries[|old(queries)|].skinType.value == selectedSkinType
      ensures queries[|old(queries)|].concerns.Some? ==> queries[|old(queries)|].concerns.value == selectedConcerns
      ensures outcome.Ok? ==> products == outcome.value && filteredProducts == outcome.value
      ensures outcome.Err? ==> products == old(products) && filteredProducts == old(filteredProducts)
      ensures !isLocalLoading
      ensures searchTerm == old(searchTerm) && selectedSkinType == old(selectedSkinType)
      ensures selectedConcerns == old(selectedConcerns) && minSustainability == old(minSustainability)
      ensures sortBy == old(sortBy)
    {
      isLocalLoading := true;
      var params := BuildParams(selectedSkinType, selectedConcerns);
      queries := queries + [params];
      if outcome.Ok? {
        products := outcome.value;
        filteredProducts := outcome.value;
      }
      isLocalLoading := false;
    }

    /** The filter-and-sort effect, run after any of its inputs changes. */
    method Refilter()
      modifies this
      ensures forall p :: p in filteredProducts <==> p in products && Shown(p, searchTerm, minSustainability)
      ensures multiset(filteredProducts) == multiset(Filtered(products, searchTerm, minSustainability))
      ensures SortOrder(sortBy).Some? ==> Sorted(filteredProducts, SortOrder(sortBy).value)
      ensures SortOrder(sortBy).None? ==> filteredProducts == Filtered(products, searchTerm, minSustainability)
      ensures SortOrder(sortBy).Some? ==> filteredProducts == SortBy(Filtered(products, searchTerm, minSustainability), SortOrder(sortBy).value)
      ensures products == old(products) && searchTerm == old(searchTerm) && selectedSkinType == old(selectedSkinType)
      ensures selectedConcerns == old(selectedConcerns) && minSustainability == old(minSustainability)
      ensures sortBy == old(sortBy) && queries == old(queries) && isLocalLoading == old(isLocalLoading)
    {
      filteredProducts := FilterAndSort(products, searchTerm, minSustainability, sortBy);
    }

    /** A concern chip or its badge's "×". */
    method ToggleConcernSelection(c: string)
      modifies this
      ensures selectedConcerns == ToggleConcern(old(selectedConcerns), c)
      ensures products == old(products) && searchTerm == old(searchTerm) && selectedSkinType == old(selectedSkinType)
      ensures minSustainability == old(minSustainability) && sortBy == old(sortBy) && queries == old(queries)
      ensures filteredProducts == old(filteredProducts) && isLocalLoading == old(isLocalLoading)
    {
      selectedConcerns := ToggleConcern(selectedConcerns, c);
    }

    /** "Clear All": drop the skin type, the concerns and the floor. */
    method ClearAll()
      modifies this
      ensures !ShowsActiveFilters()
      ensures selectedSkinType == "" && selectedConcerns == [] && minSustainability == 0
      ensures products == old(products) && searchTerm == old(searchTerm) && sortBy == old(sortBy)
      ensures queries == old(queries) && filteredProducts == old(filteredProducts) && isLocalLoading == old(isLocalLoading)
    {
      selectedSkinType := "";
      selectedConcerns := [];
      minSustainability := 0;
    }
  }
}
