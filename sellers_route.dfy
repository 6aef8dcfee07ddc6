/** Seller administration, app/api/sellers/route.ts: the admin-only list of
    sellers, and provisioning, which turns an existing user into a seller of an
    existing city after a fixed chain of guards. The role update and the seller
    insert are two separate writes: when the insert fails the role has already
    changed. */
module SellersRoute {
  import opened Common
  import opened Store
  import opened Audit

  const Unauthorized := "Unauthorized access"
  const IdsRequired := "User ID and City ID are required"
  const UserNotFound := "User not found"
  const CityNotFound := "City not found"
  const AlreadySeller := "This user is already a seller"
  const CreateFailed := "Failed to create seller"

  /** `GET /api/sellers`: every seller row, for an admin only. */
  method ListSellers(db: Db, actor: Actor) returns (r: Reply<seq<Seller>>)
    ensures IsAdmin(actor) ==> r == Ok(db.sellers)
    ensures !IsAdmin(actor) ==> r == Fail(401, Unauthorized)
  {
    if !IsAdmin(actor) {
      return Fail(401, Unauthorized);
    }
    return Ok(db.sellers);
  }

  datatype ProvisionBody = ProvisionBody(userId: Option<string>, cityId: Option<string>)

  /** The guards of `POST /api/sellers` in the order the handler runs them:
      the reply of the first that fails, or `None` when all pass. */
  function ProvisionRefusal(users: seq<User>, cities: seq<City>, sellers: seq<Seller>,
                            actor: Actor, body: ProvisionBody): (r: Option<Reply<Seller>>)
    ensures r.Some? ==> r.value.Fail?
    ensures r.None? <==>
      (IsAdmin(actor) && Present(body.userId) && Present(body.cityId)
       && UserById(users, body.userId.value).Some?
       && CityById(cities, body.cityId.value).Some?
       && SellerOf(sellers, body.userId.value).None?)
  {
    if !IsAdmin(actor) then Some(Fail(401, Unauthorized))
    else if !Present(body.userId) || !Present(body.cityId) then Some(Fail(400, IdsRequired))
    else if UserById(users, body.userId.value).None? then Some(Fail(404, UserNotFound))
    else if CityById(cities, body.cityId.value).None? then Some(Fail(404, CityNotFound))
    else if SellerOf(sellers, body.userId.value).Some? then Some(Fail(400, AlreadySeller))
    else None
  }

  /** The guards fire in order: a non-admin gets 401 whatever the body; then
      missing ids give 400, an unknown user 404, an unknown city 404, and an
      existing seller row for the user 400. */
  lemma ProvisionGuardOrder(users: seq<User>, cities: seq<City>, sellers: seq<Seller>,
                            actor: Actor, body: ProvisionBody)
    ensures !IsAdmin(actor) ==> ProvisionRefusal(users, cities, sellers, actor, body) == Some(Fail(401, Unauthorized))
    ensures IsAdmin(actor) && !(Present(body.userId) && Present(body.cityId)) ==>
      ProvisionRefusal(users, cities, sellers, actor, body) == Some(Fail(400, IdsRequired))
    ensures IsAdmin(actor) && Present(body.userId) && Present(body.cityId) ==>
      var userId, cityId := body.userId.value, body.cityId.value;
      && (UserById(users, userId).None? ==>
            ProvisionRefusal(users, cities, sellers, actor, body) == Some(Fail(404, UserNotFound)))
      && (UserById(users, userId).Some? && CityById(cities, cityId).None? ==>
            ProvisionRefusal(users, cities, sellers, actor, body) == Some(Fail(404, CityNotFound)))
      && (UserById(users, userId).Some? && CityById(cities, cityId).Some? && SellerOf(sellers, userId).Some? ==>
            ProvisionRefusal(users, cities, sellers, actor, body) == Some(Fail(400, AlreadySeller)))
  {
  }

  /** The seller row a successful provisioning inserts. */
  function NewSeller(id: string, userId: string, cityId: string): Seller {
    Seller(id, userId, cityId, None, None, None)
  }

  function ProvisionDescription(email: string): string {
    "Пользователь \"" + email + "\" добавлен как продавец"
  }

  /** `POST /api/sellers`. `newId` is the id the store gives the new seller row,
      `insertFails` says the seller insert throws, `now` is the audit timestamp. */
  method CreateSeller(db: Db, actor: Actor, body: ProvisionBody, newId: string, insertFails: bool, now: int)
    returns (r: Reply<Seller>)
    modifies db`users, db`sellers, db`audits
    ensures var refusal := ProvisionRefusal(old(db.users), db.cities, old(db.sellers), actor, body);
      refusal.Some? ==>
        && r == refusal.value
        && db.users == old(db.users) && db.sellers == old(db.sellers) && db.audits == old(db.audits)
    ensures ProvisionRefusal(old(db.users), db.cities, old(db.sellers), actor, body).None? ==>
      var userId, cityId := body.userId.value, body.cityId.value;
      && db.users == WithRole(old(db.users), userId, Role.SELLER)
      && (insertFails ==>
            && r == Fail(500, CreateFailed)
            && db.sellers == old(db.sellers) && db.audits == old(db.audits))
      && (!insertFails ==>
            && r == Ok(NewSeller(newId, userId, cityId))
            && db.sellers == old(db.sellers) + [NewSeller(newId, userId, cityId)]
            && db.audits == old(db.audits) +
                 (if db.auditWritable
                  then [EntryFor(CREATE, Some(newId), EntityType.SELLER,
                                 ProvisionDescription(UserById(old(db.users), userId).value.email),
                                 actor.value.userId, now)]
                  else []))
  {
    if !IsAdmin(actor) {
      return Fail(401, Unauthorized);
    }
    if !Present(body.userId) || !Present(body.cityId) {
      return Fail(400, IdsRequired);
    }
    var userId, cityId := body.userId.value, body.cityId.value;
    var user := UserById(db.users, userId);
    if user.None? {
      return Fail(404, UserNotFound);
    }
    var city := CityById(db.cities, cityId);
    if city.None? {
      return Fail(404, CityNotFound);
    }
    var existing := SellerOf(db.sellers, userId);
    if existing.Some? {
      return Fail(400, AlreadySeller);
    }
    db.users := WithRole(db.users, userId, Role.SELLER);
    if insertFails {
      return Fail(500, CreateFailed);
    }
    var seller := NewSeller(newId, userId, cityId);
    db.sellers := db.sellers + [seller];
    LogAuditAction(db, CREATE, Some(seller.id), EntityType.SELLER,
                   ProvisionDescription(user.value.email), actor.value.userId, now);
    return Ok(seller);
  }

  /** Provisioning the same user a second time is refused with 400, so a user
      never gets two seller rows through this route. */
  lemma SecondProvisionRefused(users: seq<User>, cities: seq<City>, sellers: seq<Seller>,
                               actor: Actor, body: ProvisionBody, newId: string)
    requires ProvisionRefusal(users, cities, sellers, actor, body).None?
    ensures var userId, cityId := body.userId.value, body.cityId.value;
      ProvisionRefusal(WithRole(users, userId, Role.SELLER), cities,
                       sellers + [NewSeller(newId, userId, cityId)], actor, body)
        == Some(Fail(400, AlreadySeller))
  {
    var userId, cityId := body.userId.value, body.cityId.value;
    var users' := WithRole(users, userId, Role.SELLER);
    var sellers' := sellers + [NewSeller(newId, userId, cityId)];
    var u := UserById(users, userId).value;
    var k :| 0 <= k < |users| && users[k] == u;
    assert users'[k].id == userId;
    assert sellers'[|sellers|].userId == userId;
  }

  /** A successful provisioning keeps "at most one seller row per user". */
  lemma ProvisionKeepsOneSellerPerUser(users: seq<User>, cities: seq<City>, sellers: seq<Seller>,
                                       actor: Actor, body: ProvisionBody, newId: string)
    requires OneSellerPerUser(sellers)
    requires ProvisionRefusal(users, cities, sellers, actor, body).None?
    ensures OneSellerPerUser(sellers + [NewSeller(newId, body.userId.value, body.cityId.value)])
  {
    var s' := sellers + [NewSeller(newId, body.userId.value, body.cityId.value)];
    forall i, j | 0 <= i < j < |s'| ensures s'[i].userId != s'[j].userId {
      if j == |sellers| {
        assert s'[i] == sellers[i];
      }
    }
  }

  /** When the insert fails after the role update, the user is left with role
      SELLER and no seller row: the two writes are not atomic. */
  lemma FailedInsertLeavesRoleWithoutRow(users: seq<User>, cities: seq<City>, sellers: seq<Seller>,
                                         actor: Actor, body: ProvisionBody)
    requires ProvisionRefusal(users, cities, sellers, actor, body).None?
    ensures var userId := body.userId.value;
      && (exists i :: 0 <= i < |WithRole(users, userId, Role.SELLER)|
            && WithRole(users, userId, Role.SELLER)[i].id == userId
            && WithRole(users, userId, Role.SELLER)[i].role == Role.SELLER)
      && SellerOf(sellers, userId).None?
  {
    var userId := body.userId.value;
    var u := UserById(users, userId).value;
    var k :| 0 <= k < |users| && users[k] == u;
    assert WithRole(users, userId, Role.SELLER)[k].role == Role.SELLER;
  }
}
