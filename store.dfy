/** The relational store behind the route handlers, reduced to what the handlers
    read and write. Each table is a sequence of rows in insertion order, so that
    `findFirst` is the first matching row; ids are whatever the store's id
    generator hands out and are passed in by the callers of each insert. */
module Store {
  import opened Common
  import opened Seqs

  datatype AuditAction = CREATE | UPDATE | DELETE

  datatype EntityType = USER | SELLER | CITY | FISH | PRODUCT | MEDIA | ORDER

  datatype User = User(id: string, email: string, name: Option<string>, password: string, role: Role)

  datatype Seller = Seller(
    id: string,
    userId: string,
    cityId: string,
    address: Option<string>,
    phone: Option<string>,
    workingHours: Option<string>)

  datatype City = City(id: string, name: string)

  datatype Fish = Fish(id: string, name: string)

  /** Media type as the store keeps it: the upper-case enum. */
  datatype MediaKind = IMAGE | VIDEO

  datatype MediaRow = MediaRow(url: string, kind: MediaKind)

  /** A product with its media rows; `createdAt` is only ever compared. */
  datatype Product = Product(
    id: string,
    name: string,
    description: string,
    weight: int,
    inStock: bool,
    fishId: Option<string>,
    sellerId: string,
    cityId: string,
    media: seq<MediaRow>,
    createdAt: int)

  datatype AuditEntry = AuditEntry(
    action: AuditAction,
    entityId: string,
    entityType: EntityType,
    description: string,
    userId: string,
    createdAt: int)

  /** `findUnique({ where: { id } })` on users. */
  function UserById(users: seq<User>, id: string): (r: Option<User>)
    ensures r.Some? ==> r.value in users && r.value.id == id
    ensures r.None? ==> forall i :: 0 <= i < |users| ==> users[i].id != id
  {
    FindFirst(users, (u: User) => u.id == id)
  }

  /** `findUnique({ where: { email } })` on users. */
  function UserByEmail(users: seq<User>, email: string): (r: Option<User>)
    ensures r.Some? ==> r.value in users && r.value.email == email
    ensures r.None? ==> forall i :: 0 <= i < |users| ==> users[i].email != email
  {
    FindFirst(users, (u: User) => u.email == email)
  }

  /** `findUnique({ where: { id } })` on cities. */
  function CityById(cities: seq<City>, id: string): (r: Option<City>)
    ensures r.Some? ==> r.value in cities && r.value.id == id
    ensures r.None? ==> forall i :: 0 <= i < |cities| ==> cities[i].id != id
  {
    FindFirst(cities, (c: City) => c.id == id)
  }

  /** `findUnique({ where: { name } })` on cities. */
  function CityByName(cities: seq<City>, name: string): (r: Option<City>)
    ensures r.Some? ==> r.value in cities && r.value.name == name
    ensures r.None? ==> forall i :: 0 <= i < |cities| ==> cities[i].name != name
  {
    FindFirst(cities, (c: City) => c.name == name)
  }

  /** `findUnique({ where: { name } })` on fish. */
  function FishByName(fish: seq<Fish>, name: string): (r: Option<Fish>)
    ensures r.Some? ==> r.value in fish && r.value.name == name
    ensures r.None? ==> forall i :: 0 <= i < |fish| ==> fish[i].name != name
  {
    FindFirst(fish, (f: Fish) => f.name == name)
  }

  /** `findFirst({ where: { userId } })` on sellers, as an index into the table. */
  function SellerIndexOf(sellers: seq<Seller>, userId: string): (r: Option<nat>)
    ensures r.Some? ==> r.value < |sellers| && sellers[r.value].userId == userId
    ensures r.Some? ==> forall j :: 0 <= j < r.value ==> sellers[j].userId != userId
    ensures r.None? ==> forall i :: 0 <= i < |sellers| ==> sellers[i].userId != userId
  {
    FirstIndex(sellers, (s: Seller) => s.userId == userId)
  }

  /** `findFirst({ where: { userId } })` on sellers. */
  function SellerOf(sellers: seq<Seller>, userId: string): (r: Option<Seller>)
    ensures r.Some? ==> r.value in sellers && r.value.userId == userId
    ensures r.None? ==> forall i :: 0 <= i < |sellers| ==> sellers[i].userId != userId
  {
    match SellerIndexOf(sellers, userId)
    case None => None
    case Some(i) => Some(sellers[i])
  }

  /** The user table after `user.update({ where: { id }, data: { role } })`. */
  function WithRole(users: seq<User>, id: string, role: Role): (r: seq<User>)
    ensures |r| == |users|
    ensures forall i :: 0 <= i < |users| ==>
      r[i] == if users[i].id == id then users[i].(role := role) else users[i]
  {
    seq(|users|, i requires 0 <= i < |users| =>
      if users[i].id == id then users[i].(role := role) else users[i])
  }

  /** At most one seller row per user. */
  ghost predicate OneSellerPerUser(sellers: seq<Seller>) {
    forall i, j :: 0 <= i < j < |sellers| ==> sellers[i].userId != sellers[j].userId
  }

  /** No two users share an email. */
  ghost predicate UniqueEmails(users: seq<User>) {
    forall i, j :: 0 <= i < j < |users| ==> users[i].email != users[j].email
  }

  /** No two cities share a name. */
  ghost predicate UniqueCityNames(cities: seq<City>) {
    forall i, j :: 0 <= i < j < |cities| ==> cities[i].name != cities[j].name
  }

  /** No two fish share a name. */
  ghost predicate UniqueFishNames(fish: seq<Fish>) {
    forall i, j :: 0 <= i < j < |fish| ==> fish[i].name != fish[j].name
  }

  /** The store. `auditWritable` is false while the audit table rejects writes. */
  class Db {
    var users: seq<User>
    var sellers: seq<Seller>
    var cities: seq<City>
    var fish: seq<Fish>
    var products: seq<Product>
    var audits: seq<AuditEntry>
    var auditWritable: bool

    constructor ()
      ensures users == [] && sellers == [] && cities == [] && fish == []
      ensures products == [] && audits == [] && auditWritable
    {
      users, sellers, cities, fish := [], [], [], [];
      products, audits, auditWritable := [], [], true;
    }
  }
}
