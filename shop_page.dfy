/** The storefront listing, app/shop/page.tsx: loading the city's products,
    turning each product record into a dish, the fish-kind filter, and the
    Russian plural of the item count. */
module ShopPage {
  import opened Common
  import opened Seqs
  import opened Types
  import opened Store

  /** `m.type.toLowerCase()`. */
  function ClientMediaType(kind: MediaKind): (t: MediaType)
    ensures t == Image <==> kind == IMAGE
  {
    match kind
    case IMAGE => Image
    case VIDEO => Video
  }

  /** The dish built from a product record: a missing fish becomes '', media
      keep url and order with the type lower-cased, and the availability
      mirrors the stock flag with no stores. */
  function ToDish(p: Product): (d: Dish)
    ensures d.id == p.id && d.name == p.name && d.description == p.description
    ensures d.weight == p.weight && d.inStock == p.inStock
    ensures d.fishId == OrElse(p.fishId, "")
    ensures |d.media| == |p.media|
    ensures forall i :: 0 <= i < |p.media| ==>
      d.media[i] == Media(None, p.media[i].url, ClientMediaType(p.media[i].kind), None)
    ensures d.availability == DishAvailability(p.inStock, [])
  {
    Dish(p.id, p.name, p.description, p.weight,
         seq(|p.media|, i requires 0 <= i < |p.media| =>
           Media(None, p.media[i].url, ClientMediaType(p.media[i].kind), None)),
         OrElse(p.fishId, ""), p.inStock, DishAvailability(p.inStock, []))
  }

  function ToDishes(products: seq<Product>): (r: seq<Dish>)
    ensures |r| == |products|
    ensures forall i :: 0 <= i < |products| ==> r[i] == ToDish(products[i])
  {
    seq(|products|, i requires 0 <= i < |products| => ToDish(products[i]))
  }

  /** The state the loading effect leaves: the dishes shown, whether the
      spinner is still on, and the products request sent, if any. */
  datatype Loaded = Loaded(dishes: seq<Dish>, isLoading: bool, request: Option<string>)

  /** The loading effect for the `city` query parameter. `response` is the
      product list the request returned, `None` when it failed; a failure
      keeps the dishes already shown. */
  function LoadProducts(selectedCity: Option<string>, response: Option<seq<Product>>, shown: seq<Dish>)
    : (r: Loaded)
    ensures !r.isLoading
    ensures !Present(selectedCity) ==> r == Loaded(shown, false, None)
    ensures Present(selectedCity) ==> r.request == Some("/api/products?cityId=" + selectedCity.value)
    ensures Present(selectedCity) && response.Some? ==> r.dishes == ToDishes(response.value)
    ensures response.None? ==> r.dishes == shown
  {
    if !Present(selectedCity) then Loaded(shown, false, None)
    else
      var request := Some("/api/products?cityId=" + selectedCity.value);
      match response
      case None => Loaded(shown, false, request)
      case Some(products) => Loaded(ToDishes(products), false, request)
  }

  predicate PassesCategory(filter: Option<string>, d: Dish) {
    !(Present(filter) && d.fishId != filter.value)
  }

  /** `dishes.filter(...)` on the category filter. */
  function FilterByCategory(dishes: seq<Dish>, filter: Option<string>): seq<Dish> {
    Filter(dishes, (d: Dish) => PassesCategory(filter, d))
  }

  /** With no filter, or an empty one, every dish is kept, in order; with a
      filter, exactly the dishes of that fish kind are, in their original
      relative order. */
  lemma CategoryFilterMeaning(dishes: seq<Dish>, filter: Option<string>)
    ensures !Present(filter) ==> FilterByCategory(dishes, filter) == dishes
    ensures Present(filter) ==>
      && (forall i :: 0 <= i < |FilterByCategory(dishes, filter)| ==>
            FilterByCategory(dishes, filter)[i].fishId == filter.value)
      && (forall i :: 0 <= i < |dishes| && dishes[i].fishId == filter.value ==>
            dishes[i] in FilterByCategory(dishes, filter))
    ensures Subsequence(FilterByCategory(dishes, filter), dishes)
  {
    if !Present(filter) {
      FilterAll(dishes, (d: Dish) => PassesCategory(filter, d));
    }
    FilterIsSubsequence(dishes, (d: Dish) => PassesCategory(filter, d));
  }

  /** The word after the item count. */
  function CountWord(n: nat): (w: string)
    ensures w == "товар" <==> n == 1
    ensures w == "товара" <==> 2 <= n <= 4
    ensures w == "товаров" <==> (n == 0 || n >= 5)
  {
    if n == 1 then "товар"
    else if n > 1 && n < 5 then "товара"
    else "товаров"
  }

  /** The rule only looks at the count, not its last digit: 21 reads
      "товаров", where Russian grammar wants "товар". */
  lemma CountWordTwentyOne()
    ensures CountWord(21) == "товаров"
    ensures CountWord(22) == "товаров"
  {
  }
}
