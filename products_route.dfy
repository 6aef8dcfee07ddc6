/** The product catalogue endpoint, app/api/products/route.ts: `GET` lists the
    products matching the optional city and seller filters, newest first;
    `POST` creates a product for a seller or, on an admin's behalf, for the
    seller and city the admin names. */
module ProductsRoute {
  import opened Common
  import opened Seqs
  import opened Sorting
  import opened Store
  import opened Audit

  const Unauthorized := "Unauthorized access"
  const FieldsRequired := "Name, description and weight are required"
  const SellerNotFound := "Seller information not found"
  const PlacementRequired := "Seller ID and City ID are required for admin"

  /** The `where` object of the listing; a `None` field puts no condition. */
  datatype ProductFilter = ProductFilter(cityId: Option<string>, sellerId: Option<string>)

  predicate Matches(f: ProductFilter, p: Product) {
    (f.cityId.Some? ==> p.cityId == f.cityId.value)
    && (f.sellerId.Some? ==> p.sellerId == f.sellerId.value)
  }

  /** `orderBy: { createdAt: 'desc' }`. */
  predicate NewestFirst(a: Product, b: Product) {
    a.createdAt >= b.createdAt
  }

  lemma NewestFirstPreorder()
    ensures Total(NewestFirst) && Transitive(NewestFirst)
  {
  }

  /** A product meets the query parameters that are given and non-empty. */
  predicate Listed(cityId: Option<string>, sellerId: Option<string>, p: Product) {
    (Present(cityId) ==> p.cityId == cityId.value)
    && (Present(sellerId) ==> p.sellerId == sellerId.value)
  }

  /** `GET /api/products`. A query parameter that is missing or empty sets no
      condition. The result holds exactly the products matching every given
      condition, each as often as in the table, newest first. */
  method ListProducts(db: Db, cityId: Option<string>, sellerId: Option<string>) returns (r: seq<Product>)
    ensures forall p :: p in r <==>
      (p in db.products
       && (Present(cityId) ==> p.cityId == cityId.value)
       && (Present(sellerId) ==> p.sellerId == sellerId.value))
    ensures multiset(r) == multiset(Filter(db.products, p => Listed(cityId, sellerId, p)))
    ensures SortedBy(r, NewestFirst)
    ensures !Present(cityId) && !Present(sellerId) ==> multiset(r) == multiset(db.products)
  {
    var condition := ProductFilter(None, None);
    if Present(cityId) {
      condition := condition.(cityId := cityId);
    }
    if Present(sellerId) {
      condition := condition.(sellerId := sellerId);
    }
    var matching := Filter(db.products, p => Matches(condition, p));
    FilterAgree(db.products, p => Matches(condition, p), p => Listed(cityId, sellerId, p));
    r := SortBy(matching, NewestFirst);
    forall p ensures p in r <==> p in matching {
      SortByMembers(matching, NewestFirst, p);
    }
    NewestFirstPreorder();
    SortBySorted(matching, NewestFirst);
    if !Present(cityId) && !Present(sellerId) {
      FilterAll(db.products, p => Matches(condition, p));
    }
  }

  /** The `POST` body. `weight` is `None` when missing; `media` is `None` when
      missing. */
  datatype ProductBody = ProductBody(
    name: Option<string>,
    description: Option<string>,
    weight: Option<int>,
    inStock: Option<bool>,
    fishId: Option<string>,
    media: Option<seq<MediaRow>>,
    sellerId: Option<string>,
    cityId: Option<string>)

  /** JavaScript truthiness of a number: missing and 0 are falsy, a negative
      weight is not. */
  predicate WeightGiven(w: Option<int>) {
    w.Some? && w.value != 0
  }

  predicate CanPost(actor: Actor) {
    actor.Some? && actor.value.role in {Role.SELLER, Role.ADMIN}
  }

  /** The guards of `POST` in handler order. A seller needs a seller row; an
      admin must name both the seller and the city. */
  function ProductRefusal(sellers: seq<Seller>, actor: Actor, body: ProductBody): (r: Option<Reply<Product>>)
    ensures !CanPost(actor) ==> r == Some(Fail(401, Unauthorized))
    ensures CanPost(actor) && !(Present(body.name) && Present(body.description) && WeightGiven(body.weight)) ==>
      r == Some(Fail(400, FieldsRequired))
    ensures (CanPost(actor) && Present(body.name) && Present(body.description) && WeightGiven(body.weight)
             && actor.value.role == Role.SELLER && SellerOf(sellers, actor.value.userId).None?) ==>
      r == Some(Fail(404, SellerNotFound))
    ensures (CanPost(actor) && Present(body.name) && Present(body.description) && WeightGiven(body.weight)
             && actor.value.role == Role.ADMIN && (!Present(body.sellerId) || !Present(body.cityId))) ==>
      r == Some(Fail(400, PlacementRequired))
    ensures r.None? <==>
      (CanPost(actor) && Present(body.name) && Present(body.description) && WeightGiven(body.weight)
       && (actor.value.role == Role.SELLER ==> SellerOf(sellers, actor.value.userId).Some?)
       && (actor.value.role == Role.ADMIN ==> Present(body.sellerId) && Present(body.cityId)))
  {
    if !CanPost(actor) then Some(Fail(401, Unauthorized))
    else if !Present(body.name) || !Present(body.description) || !WeightGiven(body.weight) then
      Some(Fail(400, FieldsRequired))
    else if actor.value.role == Role.SELLER then
      if SellerOf(sellers, actor.value.userId).None? then Some(Fail(404, SellerNotFound)) else None
    else if !Present(body.sellerId) || !Present(body.cityId) then Some(Fail(400, PlacementRequired))
    else None
  }

  /** The seller and city the product is filed under: a seller's own row,
      whatever the body says; the body's values for an admin. */
  function Placement(sellers: seq<Seller>, actor: Actor, body: ProductBody): (r: (string, string))
    requires ProductRefusal(sellers, actor, body).None?
    ensures actor.value.role == Role.SELLER ==>
      var s := SellerOf(sellers, actor.value.userId).value;
      s in sellers && s.userId == actor.value.userId && r == (s.id, s.cityId)
    ensures actor.value.role == Role.ADMIN ==> r == (body.sellerId.value, body.cityId.value)
  {
    if actor.value.role == Role.SELLER then
      var s := SellerOf(sellers, actor.value.userId).value;
      (s.id, s.cityId)
    else (body.sellerId.value, body.cityId.value)
  }

  /** The product row created, with the handler's defaults. */
  function NewProduct(id: string, body: ProductBody, sellerId: string, cityId: string, now: int): (p: Product)
    requires Present(body.name) && Present(body.description) && body.weight.Some?
    ensures p.id == id && p.name == body.name.value && p.description == body.description.value
    ensures p.weight == body.weight.value && p.sellerId == sellerId && p.cityId == cityId
    ensures p.inStock == (body.inStock.None? || body.inStock.value)
    ensures p.fishId.Some? <==> Present(body.fishId)
    ensures p.fishId.Some? ==> p.fishId == body.fishId
    ensures body.media.None? ==> p.media == []
    ensures body.media.Some? ==> p.media == body.media.value
  {
    Product(id, body.name.value, body.description.value, body.weight.value,
            if body.inStock.Some? then body.inStock.value else true,
            if Present(body.fishId) then body.fishId else None,
            sellerId, cityId,
            if body.media.Some? then body.media.value else [],
            now)
  }

  /** `POST /api/products`. `newId` is the id the store assigns and `now` the
      creation time, used both as the product's `createdAt` and the audit
      timestamp. */
  method CreateProduct(db: Db, actor: Actor, body: ProductBody, newId: string, now: int)
    returns (r: Reply<Product>)
    modifies db`products, db`audits
    ensures ProductRefusal(db.sellers, actor, body).Some? ==>
      && r == ProductRefusal(db.sellers, actor, body).value
      && db.products == old(db.products) && db.audits == old(db.audits)
    ensures ProductRefusal(db.sellers, actor, body).None? ==>
      var place := Placement(db.sellers, actor, body);
      var p := NewProduct(newId, body, place.0, place.1, now);
      && r == Ok(p)
      && db.products == old(db.products) + [p]
      && db.audits == old(db.audits) +
           (if db.auditWritable
            then [EntryFor(CREATE, Some(newId), EntityType.PRODUCT,
                           "Создан товар \"" + body.name.value + "\"", actor.value.userId, now)]
            else [])
  {
    if actor.None? || (actor.value.role != Role.SELLER && actor.value.role != Role.ADMIN) {
      return Fail(401, Unauthorized);
    }
    if !Present(body.name) || !Present(body.description) || !WeightGiven(body.weight) {
      return Fail(400, FieldsRequired);
    }
    var sellerId: string;
    var cityId: string;
    if actor.value.role == Role.SELLER {
      var seller := SellerOf(db.sellers, actor.value.userId);
      if seller.None? {
        return Fail(404, SellerNotFound);
      }
      sellerId := seller.value.id;
      cityId := seller.value.cityId;
    } else {
      if !Present(body.sellerId) || !Present(body.cityId) {
        return Fail(400, PlacementRequired);
      }
      sellerId := body.sellerId.value;
      cityId := body.cityId.value;
    }
    var product := NewProduct(newId, body, sellerId, cityId, now);
    db.products := db.products + [product];
    LogAuditAction(db, CREATE, Some(product.id), EntityType.PRODUCT,
                   "Создан товар \"" + body.name.value + "\"", actor.value.userId, now);
    return Ok(product);
  }

  /** A seller cannot file a product under another seller or city: two bodies
      that differ only in `sellerId` and `cityId` are placed the same. */
  lemma SellerPlacementIgnoresBody(sellers: seq<Seller>, actor: Actor, b1: ProductBody, b2: ProductBody)
    requires actor.Some? && actor.value.role == Role.SELLER
    requires ProductRefusal(sellers, actor, b1).None?
    requires b2 == b1.(sellerId := b2.sellerId, cityId := b2.cityId)
    ensures ProductRefusal(sellers, actor, b2).None?
    ensures Placement(sellers, actor, b1) == Placement(sellers, actor, b2)
  {
  }

  /** The weight guard is truthiness only: 0 is refused, a negative weight
      is stored. */
  lemma WeightGuardIsTruthiness(sellers: seq<Seller>, userId: string, name: string, description: string)
    requires name != [] && description != []
    ensures var body := ProductBody(Some(name), Some(description), Some(0), None, None, None, Some("s1"), Some("c1"));
      ProductRefusal(sellers, Some(Session(Role.ADMIN, userId)), body) == Some(Fail(400, FieldsRequired))
    ensures var body := ProductBody(Some(name), Some(description), Some(-5), None, None, None, Some("s1"), Some("c1"));
      && ProductRefusal(sellers, Some(Session(Role.ADMIN, userId)), body).None?
      && NewProduct("p1", body, "s1", "c1", 0).weight == -5
  {
  }
}
