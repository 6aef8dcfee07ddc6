/** The availability check behind the cart's "check availability" dialog,
    app/components/ui/ProductAvailabilityResult.tsx: for every cart line whose
    dish is among the city's products, one result listing every store of the
    city with the product's stock flags. Closing the dialog empties the cart. */
module AvailabilityResult {
  import opened Common
  import opened Seqs
  import opened Types
  import opened Cart
  import opened StockStatus

  /** A product of the city, as the listing returns it. */
  datatype CityProduct = CityProduct(id: string, name: string, inStock: bool)

  /** A store of the city; the contact fields may be null. */
  datatype StoreData = StoreData(
    id: string,
    name: string,
    address: Option<string>,
    phone: Option<string>,
    workingHours: Option<string>)

  datatype StoreAvailability = StoreAvailability(
    storeId: string,
    storeName: string,
    storeAddress: string,
    storePhone: string,
    storeWorkingHours: string,
    inStock: bool,
    preOrderOnly: bool)

  datatype ProductAvailability = ProductAvailability(
    productId: string,
    productName: string,
    stores: seq<StoreAvailability>)

  const DefaultHours := "10:00 - 20:00"

  /** One store's entry for a product. */
  function StoreEntry(store: StoreData, product: CityProduct): (e: StoreAvailability)
    ensures e.storeId == store.id && e.storeName == store.name
    ensures e.storeAddress == OrElse(store.address, "") && e.storePhone == OrElse(store.phone, "")
    ensures e.storeWorkingHours == OrElse(store.workingHours, DefaultHours)
    ensures e.inStock == product.inStock && e.preOrderOnly == !product.inStock
  {
    StoreAvailability(store.id, store.name, OrElse(store.address, ""), OrElse(store.phone, ""),
                      OrElse(store.workingHours, DefaultHours), product.inStock, !product.inStock)
  }

  /** Every store of the city, in store order. */
  function StoreEntries(stores: seq<StoreData>, product: CityProduct): (r: seq<StoreAvailability>)
    ensures |r| == |stores|
    ensures forall j :: 0 <= j < |stores| ==> r[j] == StoreEntry(stores[j], product)
  {
    seq(|stores|, j requires 0 <= j < |stores| => StoreEntry(stores[j], product))
  }

  /** `products.find(p => p.id === id)`. */
  function ProductFor(products: seq<CityProduct>, id: string): (r: Option<CityProduct>)
    ensures r.Some? ==> r.value in products && r.value.id == id
    ensures r.None? ==> forall i :: 0 <= i < |products| ==> products[i].id != id
  {
    FindFirst(products, (p: CityProduct) => p.id == id)
  }

  /** The `map` step for one cart line: `null` when the dish is not among the
      city's products. */
  function ResultFor(item: CartItem, products: seq<CityProduct>, stores: seq<StoreData>): Option<ProductAvailability> {
    match ProductFor(products, item.id)
    case None => None
    case Some(p) => Some(ProductAvailability(p.id, p.name, StoreEntries(stores, p)))
  }

  /** `items.map(...).filter(r => r !== null)`. */
  function Availability(items: seq<CartItem>, products: seq<CityProduct>, stores: seq<StoreData>)
    : (r: seq<ProductAvailability>)
    ensures |r| <= |items|
  {
    if items == [] then []
    else
      var rest := Availability(items[1..], products, stores);
      match ResultFor(items[0], products, stores)
      case None => rest
      case Some(x) => [x] + rest
  }

  predicate Offered(products: seq<CityProduct>, item: CartItem) {
    ProductFor(products, item.id).Some?
  }

  /** The results are, in cart order, one per cart line whose dish the city
      offers, each the result built for that line. */
  lemma {:induction false} AvailabilityPerKeptLine(items: seq<CartItem>, products: seq<CityProduct>, stores: seq<StoreData>)
    ensures var kept := Filter(items, (it: CartItem) => Offered(products, it));
      var r := Availability(items, products, stores);
      && |r| == |kept|
      && forall k :: 0 <= k < |r| ==> ResultFor(kept[k], products, stores) == Some(r[k])
  {
    if items != [] {
      AvailabilityPerKeptLine(items[1..], products, stores);
      var kept := Filter(items, (it: CartItem) => Offered(products, it));
      var kept' := Filter(items[1..], (it: CartItem) => Offered(products, it));
      var r := Availability(items, products, stores);
      var rest := Availability(items[1..], products, stores);
      if Offered(products, items[0]) {
        var x := ResultFor(items[0], products, stores);
        assert x.Some?;
        assert kept == [items[0]] + kept';
        assert r == [x.value] + rest;
        assert |r| == |kept|;
        forall k | 0 <= k < |r| ensures ResultFor(kept[k], products, stores) == Some(r[k]) {
          if k > 0 {
            assert r[k] == rest[k - 1] && kept[k] == kept'[k - 1];
          }
        }
      } else {
        assert kept == kept';
        assert r == rest;
      }
    }
  }

  /** Each result carries the product's id and name and one entry per store of
      the city, in store order, with the product's stock flags. */
  lemma ResultFields(items: seq<CartItem>, products: seq<CityProduct>, stores: seq<StoreData>, k: nat)
    requires k < |Availability(items, products, stores)|
    ensures var kept := Filter(items, (it: CartItem) => Offered(products, it));
      var x := Availability(items, products, stores)[k];
      && k < |kept|
      && ProductFor(products, kept[k].id).Some?
      && var p := ProductFor(products, kept[k].id).value;
      && p in products && p.id == kept[k].id
      && x.productId == p.id && x.productName == p.name
      && |x.stores| == |stores|
      && (forall j :: 0 <= j < |stores| ==>
            x.stores[j].storeId == stores[j].id
            && x.stores[j].inStock == p.inStock && x.stores[j].preOrderOnly == !p.inStock)
  {
    AvailabilityPerKeptLine(items, products, stores);
  }

  /** A line whose dish the city does not offer has no result. */
  lemma {:induction false} UnofferedLineDropped(items: seq<CartItem>, products: seq<CityProduct>,
                                                 stores: seq<StoreData>, id: string)
    requires forall i :: 0 <= i < |products| ==> products[i].id != id
    ensures forall k :: 0 <= k < |Availability(items, products, stores)| ==>
      Availability(items, products, stores)[k].productId != id
  {
    if items != [] {
      UnofferedLineDropped(items[1..], products, stores, id);
      var x := ResultFor(items[0], products, stores);
      if x.Some? {
        var p := ProductFor(products, items[0].id).value;
        assert p in products;
      }
    }
  }

  /** Every store entry shows either "in stock" or "on order", never "not
      available": the two flags are each other's negation. */
  lemma EntriesNeverUnavailable(items: seq<CartItem>, products: seq<CityProduct>, stores: seq<StoreData>,
                                k: nat, j: nat)
    requires k < |Availability(items, products, stores)|
    requires j < |Availability(items, products, stores)[k].stores|
    ensures var e := Availability(items, products, stores)[k].stores[j];
      && (e.inStock <==> !e.preOrderOnly)
      && StatusBadge(e.inStock, e.preOrderOnly) != Unavailable
  {
    ResultFields(items, products, stores, k);
  }

  /** `handleClose`: the cart is emptied. */
  method HandleClose(cart: CartStore)
    modifies cart
    ensures cart.items == [] && cart.Valid()
  {
    cart.ClearCart();
  }
}
