/** The product agent (src/agents/productAgent.js): normalises the listing filters,
    asks the catalogue for either a filtered search or the full list, and shapes a
    `product_list` reply. */
module ProductAgent {
  import opened Wrappers
  import opened Js
  import opened Replies

  /** `{ query, category, maxPrice, minPrice }` after normalisation; `None` is `undefined`. */
  datatype Filters = Filters(query: Option<string>, category: Option<string>,
                             maxPrice: Option<int>, minPrice: Option<int>)

  /** The catalogue operations the agent calls. `searchWithFilters` is `None` when the
      products service has no such function. */
  datatype Catalog = Catalog(getProducts: Result<seq<Value>>,
                             searchWithFilters: Option<Filters -> Result<seq<Value>>>)

  /** The nine fields copied into each listed product. */
  const ProductFields: seq<string> :=
    ["_id", "name", "slug", "price", "discountPrice", "images", "stock", "outOfStock", "category"]

  const ListSuggestions: seq<string> := ["Add to cart", "View details"]
  const NoneFound := "No products found matching your criteria."

  /** `p && String(p).trim() ? String(p).trim() : undefined`: kept, trimmed, exactly
      when it is not blank; what is kept has no white space at either end. */
  function TextFilter(v: Value): (r: Option<string>)
    ensures r.Some? <==> !IsBlank(v)
    ensures r.Some? ==> r.value == Trim(ToStr(v)) && r.value != []
                        && !IsSpace(r.value[0]) && !IsSpace(r.value[|r.value| - 1])
  {
    TrimIsSlice(ToStr(v));
    if IsBlank(v) then None else Some(Trim(ToStr(v)))
  }

  /** `typeof p === 'number' && p >= 0 ? p : undefined` */
  function PriceFilter(v: Value): (r: Option<int>)
    ensures r.Some? <==> v.Num? && v.n >= 0
    ensures r.Some? ==> r.value == v.n && r.value >= 0
  {
    if v.Num? && v.n >= 0 then Some(v.n) else None
  }

  /** Lines 16-21. */
  function NormalizeFilters(params: map<string, Value>): (f: Filters)
    ensures f.query.Some? <==> !IsBlank(Lookup(params, "query"))
    ensures f.category.Some? <==> !IsBlank(Lookup(params, "category"))
    ensures f.query.Some? ==> f.query.value == Trim(ToStr(Lookup(params, "query")))
    ensures f.category.Some? ==> f.category.value == Trim(ToStr(Lookup(params, "category")))
    ensures f.maxPrice.Some? <==> Lookup(params, "maxPrice").Num? && Lookup(params, "maxPrice").n >= 0
    ensures f.minPrice.Some? <==> Lookup(params, "minPrice").Num? && Lookup(params, "minPrice").n >= 0
    ensures f.maxPrice.Some? ==> f.maxPrice.value == Lookup(params, "maxPrice").n
    ensures f.minPrice.Some? ==> f.minPrice.value == Lookup(params, "minPrice").n
  {
    Filters(TextFilter(Lookup(params, "query")), TextFilter(Lookup(params, "category")),
            PriceFilter(Lookup(params, "maxPrice")), PriceFilter(Lookup(params, "minPrice")))
  }

  /** `filters.query || filters.category || filters.maxPrice != null || filters.minPrice != null`:
      a kept text filter is never empty, so presence alone decides. */
  predicate HasFilters(f: Filters)
  {
    f.query.Some? || f.category.Some? || f.maxPrice.Some? || f.minPrice.Some?
  }

  /** Calling `productsService.searchWithFilters(filters)`. */
  function Search(cat: Catalog, f: Filters): (r: Result<seq<Value>>)
    ensures cat.searchWithFilters.None? ==> r == Err(Plain("productsService.searchWithFilters is not a function"))
    ensures cat.searchWithFilters.Some? ==> r == cat.searchWithFilters.value(f)
  {
    match cat.searchWithFilters
    case None => Err(Plain("productsService.searchWithFilters is not a function"))
    case Some(search) => search(f)
  }

  /** Lines 28-33. */
  function ListingMessage(count: nat, filtered: bool): (m: string)
    ensures m == NoneFound <==> count == 0
    ensures count > 0 && filtered ==> m == "Here are " + NatToStr(count) + " product(s) matching your search."
    ensures count > 0 && !filtered ==> m == "Here are our products (" + NatToStr(count) + " total)."
  {
    if count == 0 then NoneFound
    else if filtered then
      var m := "Here are " + NatToStr(count) + " product(s) matching your search.";
      assert m[0] != NoneFound[0];
      m
    else
      var m := "Here are our products (" + NatToStr(count) + " total).";
      assert m[0] != NoneFound[0];
      m
  }

  /** Lines 35-48: each product reduced to the nine listed fields. */
  function Listed(products: seq<Value>): (data: seq<Value>)
    ensures |data| == |products|
    ensures forall i :: 0 <= i < |data| ==>
      data[i].Obj? && data[i].fields.Keys == (set k | k in ProductFields)
      && forall k :: k in data[i].fields ==> data[i].fields[k] == Get(products[i], k)
  {
    seq(|products|, i requires 0 <= i < |products| => Pick(products[i], ProductFields))
  }

  /** `handle({ userId, intent, params })` */
  function Handle(params: map<string, Value>, cat: Catalog): (r: Result<Reply>)
    ensures var f := NormalizeFilters(params);
      var fetched := if HasFilters(f) then Search(cat, f) else cat.getProducts;
      && (fetched.Err? ==> r == Err(fetched.error))
      && (fetched.Ok? ==>
            r.Ok? && r.value.kind == "product_list"
            && r.value.suggestions == ListSuggestions
            && r.value.data == Arr(Listed(fetched.value))
            && r.value.message == ListingMessage(|fetched.value|, HasFilters(f)))
  {
    var f := NormalizeFilters(params);
    var fetched := if HasFilters(f) then Search(cat, f) else cat.getProducts;
    match fetched
    case Err(e) => Err(e)
    case Ok(products) =>
      Ok(Reply("product_list", ListingMessage(|products|, HasFilters(f)), Arr(Listed(products)), ListSuggestions))
  }

  /** Without filters only `getProducts` is consulted: the search, whatever it is
      (or whether it exists), cannot change the reply. */
  lemma UnfilteredIgnoresSearch(params: map<string, Value>, products: Result<seq<Value>>,
                                s1: Option<Filters -> Result<seq<Value>>>, s2: Option<Filters -> Result<seq<Value>>>)
    requires !HasFilters(NormalizeFilters(params))
    ensures Handle(params, Catalog(products, s1)) == Handle(params, Catalog(products, s2))
  {
  }

  /** With a filter, only the search is consulted. */
  lemma FilteredIgnoresFullList(params: map<string, Value>, p1: Result<seq<Value>>, p2: Result<seq<Value>>,
                                search: Option<Filters -> Result<seq<Value>>>)
    requires HasFilters(NormalizeFilters(params))
    ensures Handle(params, Catalog(p1, search)) == Handle(params, Catalog(p2, search))
  {
  }

  /** A price bound of 0 is a filter (`!= null`, not truthiness). */
  lemma ZeroPriceIsAFilter(params: map<string, Value>)
    requires Lookup(params, "maxPrice") == Num(0) || Lookup(params, "minPrice") == Num(0)
    ensures HasFilters(NormalizeFilters(params))
  {
  }

  /** A white-space-only query is no filter at all. */
  lemma BlankQueryIsNoFilter()
    ensures !HasFilters(NormalizeFilters(map["query" := Str("   ")]))
  {
    assert Trim("   ") == "";
  }

  // ---------------------------------------------------------------------------
  // The products service as it exists and as the agent expects it.

  /** The exported products service: `getProducts` and no `searchWithFilters`. */
  function ServiceAsWritten(getProducts: Result<seq<Value>>): (c: Catalog)
    ensures c.searchWithFilters.None? && c.getProducts == getProducts
  {
    Catalog(getProducts, None)
  }

  /** Every filtered listing request against the service as written fails with a
      TypeError, whatever the catalogue holds. */
  lemma FilteredListingFailsAsWritten(params: map<string, Value>, getProducts: Result<seq<Value>>)
    requires HasFilters(NormalizeFilters(params))
    ensures Handle(params, ServiceAsWritten(getProducts))
         == Err(Plain("productsService.searchWithFilters is not a function"))
  {
  }

  /** With the search the agent expects, a filtered request lists exactly what the
      search returns for the normalised filters. */
  lemma FilteredListingUsesSearch(params: map<string, Value>, getProducts: Result<seq<Value>>,
                                  search: Filters -> Result<seq<Value>>, found: seq<Value>)
    requires HasFilters(NormalizeFilters(params))
    requires search(NormalizeFilters(params)) == Ok(found)
    ensures var r := Handle(params, Catalog(getProducts, Some(search)));
      r.Ok? && r.value.data == Arr(Listed(found))
      && (r.value.message == NoneFound <==> found == [])
  {
  }

  // ---------------------------------------------------------------------------
  // The cases of tests/agents/productAgent.test.js.

  /** A product-name query goes to the search and the one hit is listed with its fields. */
  lemma QueryByName(getProducts: Result<seq<Value>>, search: Filters -> Result<seq<Value>>, hp: Value)
    requires search(Filters(Some("Wireless Bluetooth Headphones"), None, None, None)) == Ok([hp])
    ensures var r := Handle(map["query" := Str("Wireless Bluetooth Headphones")], Catalog(getProducts, Some(search)));
      r.Ok? && r.value.kind == "product_list"
      && r.value.message == "Here are " + "1" + " product(s) matching your search."
      && r.value.data.Arr? && |r.value.data.elems| == 1
      && Get(r.value.data.elems[0], "name") == Get(hp, "name")
      && Get(r.value.data.elems[0], "price") == Get(hp, "price")
      && r.value.suggestions == ["Add to cart", "View details"]
  {
    var params := map["query" := Str("Wireless Bluetooth Headphones")];
    QueryByNameFilters();
    ListedFrom(params, Catalog(getProducts, Some(search)), [hp]);
    OneMatch();
    ListedOne(hp);
  }

  lemma OneMatch()
    ensures ListingMessage(1, true) == "Here are " + "1" + " product(s) matching your search."
  {
    assert NatToStr(1) == "1";
  }

  lemma ListedOne(p: Value)
    ensures var d := Listed([p]);
      |d| == 1 && Get(d[0], "name") == Get(p, "name") && Get(d[0], "price") == Get(p, "price")
      && Get(d[0], "_id") == Get(p, "_id")
  {
    var d := Listed([p]);
    assert "name" in d[0].fields && "price" in d[0].fields && "_id" in d[0].fields by {
      assert ProductFields[0] == "_id" && ProductFields[1] == "name" && ProductFields[3] == "price";
    }
  }

  /** The reply once the catalogue has answered with `found`. */
  lemma ListedFrom(params: map<string, Value>, cat: Catalog, found: seq<Value>)
    requires (if HasFilters(NormalizeFilters(params)) then Search(cat, NormalizeFilters(params))
              else cat.getProducts) == Ok(found)
    ensures Handle(params, cat)
         == Ok(Reply("product_list", ListingMessage(|found|, HasFilters(NormalizeFilters(params))),
                     Arr(Listed(found)), ListSuggestions))
  {
  }

  lemma QueryByNameFilters()
    ensures NormalizeFilters(map["query" := Str("Wireless Bluetooth Headphones")])
         == Filters(Some("Wireless Bluetooth Headphones"), None, None, None)
  {
    QueryOnly("Wireless Bluetooth Headphones");
  }

  lemma QueryOnly(q: string)
    requires q != [] && !IsSpace(q[0]) && !IsSpace(q[|q| - 1])
    ensures NormalizeFilters(map["query" := Str(q)]) == Filters(Some(q), None, None, None)
  {
    TrimUnpadded(q);
  }

  /** No parameters: the full list, counted as a total. */
  lemma NoFiltersListsAll(search: Option<Filters -> Result<seq<Value>>>, laptop: Value)
    ensures var r := Handle(map[], Catalog(Ok([laptop]), search));
      r.Ok? && r.value.message == "Here are our products (1 total)."
      && r.value.data.Arr? && |r.value.data.elems| == 1
      && Get(r.value.data.elems[0], "_id") == Get(laptop, "_id")
  {
    ListedFrom(map[], Catalog(Ok([laptop]), search), [laptop]);
    assert NatToStr(1) == "1";
    ListedOne(laptop);
  }

  /** A category filter that finds nothing says so. */
  lemma EmptyCategory(getProducts: Result<seq<Value>>, search: Filters -> Result<seq<Value>>)
    requires forall f :: search(f) == Ok([])
    ensures var r := Handle(map["category" := Str("laptop")], Catalog(getProducts, Some(search)));
      r.Ok? && r.value.data == Arr([]) && r.value.message == NoneFound
  {
    var params := map["category" := Str("laptop")];
    CategoryOnly("laptop");
    ListedFrom(params, Catalog(getProducts, Some(search)), []);
  }

  /** A price bound goes to the search with that bound, and its hit is listed. */
  lemma MaxPriceSearch(getProducts: Result<seq<Value>>, search: Filters -> Result<seq<Value>>, phone: Value)
    requires search(Filters(None, None, Some(25000), None)) == Ok([phone])
    ensures var r := Handle(map["maxPrice" := Num(25000)], Catalog(getProducts, Some(search)));
      r.Ok? && r.value.kind == "product_list"
      && r.value.data.Arr? && |r.value.data.elems| == 1
      && Get(r.value.data.elems[0], "name") == Get(phone, "name")
  {
    var params := map["maxPrice" := Num(25000)];
    assert NormalizeFilters(params) == Filters(None, None, Some(25000), None);
    ListedFrom(params, Catalog(getProducts, Some(search)), [phone]);
    ListedOne(phone);
  }

  lemma CategoryOnly(c: string)
    requires c != [] && !IsSpace(c[0]) && !IsSpace(c[|c| - 1])
    ensures NormalizeFilters(map["category" := Str(c)]) == Filters(None, Some(c), None, None)
  {
    TrimUnpadded(c);
  }
}
