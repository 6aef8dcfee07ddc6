/** The caller's own seller profile, app/api/sellers/me/route.ts: `GET` reads
    the caller's seller row, `PATCH` merges address, phone and working hours
    into it with nullish coalescing. Both run the same three guards, and an
    admin without a seller row is refused like anyone else without one. */
module SellersMeRoute {
  import opened Common
  import opened Store

  const AuthRequired := "Требуется авторизация"
  const SellersOnly := "Доступно только для продавцов"
  const ProfileNotFound := "Информация о продавце не найдена"
  const UpdateFailed := "Ошибка при обновлении данных"

  /** The guards shared by `GET` and `PATCH`, in handler order. */
  function MeRefusal(sellers: seq<Seller>, actor: Actor): (r: Option<Reply<Seller>>)
    ensures r.Some? ==> r.value.Fail? && r.value.status in {401, 403, 404}
    ensures actor.None? ==> r == Some(Fail(401, AuthRequired))
    ensures actor.Some? && actor.value.role !in {Role.SELLER, Role.ADMIN} ==> r == Some(Fail(403, SellersOnly))
    ensures (actor.Some? && actor.value.role in {Role.SELLER, Role.ADMIN}
             && SellerOf(sellers, actor.value.userId).None?) ==> r == Some(Fail(404, ProfileNotFound))
    ensures r.None? <==>
      (actor.Some? && actor.value.role in {Role.SELLER, Role.ADMIN}
       && SellerOf(sellers, actor.value.userId).Some?)
  {
    if actor.None? then Some(Fail(401, AuthRequired))
    else if actor.value.role != Role.SELLER && actor.value.role != Role.ADMIN then Some(Fail(403, SellersOnly))
    else if SellerOf(sellers, actor.value.userId).None? then Some(Fail(404, ProfileNotFound))
    else None
  }

  /** An admin has no profile of their own unless a seller row names them. */
  lemma AdminWithoutRowRefused(sellers: seq<Seller>, userId: string)
    requires forall i :: 0 <= i < |sellers| ==> sellers[i].userId != userId
    ensures MeRefusal(sellers, Some(Session(Role.ADMIN, userId))) == Some(Fail(404, ProfileNotFound))
  {
  }

  /** `GET /api/sellers/me`: the first seller row whose user is the caller. */
  method GetProfile(db: Db, actor: Actor) returns (r: Reply<Seller>)
    ensures MeRefusal(db.sellers, actor).Some? ==> r == MeRefusal(db.sellers, actor).value
    ensures MeRefusal(db.sellers, actor).None? ==>
      && r.Ok?
      && r.body in db.sellers
      && r.body.userId == actor.value.userId
  {
    if actor.None? {
      return Fail(401, AuthRequired);
    }
    if actor.value.role != Role.SELLER && actor.value.role != Role.ADMIN {
      return Fail(403, SellersOnly);
    }
    var seller := SellerOf(db.sellers, actor.value.userId);
    if seller.None? {
      return Fail(404, ProfileNotFound);
    }
    return Ok(seller.value);
  }

  /** The `PATCH` body; `None` stands for a field that is `null` or missing. */
  datatype ProfilePatch = ProfilePatch(address: Option<string>, phone: Option<string>, workingHours: Option<string>)

  /** `field ?? seller.field` for the three profile fields. */
  function MergeProfile(s: Seller, p: ProfilePatch): (r: Seller)
    ensures r.id == s.id && r.userId == s.userId && r.cityId == s.cityId
    ensures p.address.Some? ==> r.address == p.address
    ensures p.address.None? ==> r.address == s.address
    ensures p.phone.Some? ==> r.phone == p.phone
    ensures p.phone.None? ==> r.phone == s.phone
    ensures p.workingHours.Some? ==> r.workingHours == p.workingHours
    ensures p.workingHours.None? ==> r.workingHours == s.workingHours
  {
    s.(address := if p.address.Some? then p.address else s.address,
       phone := if p.phone.Some? then p.phone else s.phone,
       workingHours := if p.workingHours.Some? then p.workingHours else s.workingHours)
  }

  /** Sending the same body twice leaves the row as the first time. */
  lemma MergeIdempotent(s: Seller, p: ProfilePatch)
    ensures MergeProfile(MergeProfile(s, p), p) == MergeProfile(s, p)
  {
  }

  /** An empty body leaves the row as it was. */
  lemma EmptyPatchKeepsRow(s: Seller)
    ensures MergeProfile(s, ProfilePatch(None, None, None)) == s
  {
  }

  /** An empty string is not nullish: it replaces the stored value. */
  lemma EmptyStringOverwrites(s: Seller)
    requires s.address == Some("Невский проспект, 1")
    ensures MergeProfile(s, ProfilePatch(Some(""), None, None)).address == Some("")
    ensures MergeProfile(s, ProfilePatch(Some(""), None, None)).address != s.address
  {
  }

  /** Merging into one row keeps "one seller row per user", since the user id
      of a row never changes. */
  lemma MergeKeepsOneSellerPerUser(sellers: seq<Seller>, k: nat, p: ProfilePatch)
    requires OneSellerPerUser(sellers) && k < |sellers|
    ensures OneSellerPerUser(sellers[k := MergeProfile(sellers[k], p)])
  {
    var s' := sellers[k := MergeProfile(sellers[k], p)];
    forall i, j | 0 <= i < j < |s'| ensures s'[i].userId != s'[j].userId {
      assert s'[i].userId == sellers[i].userId;
      assert s'[j].userId == sellers[j].userId;
    }
  }

  /** `PATCH /api/sellers/me`. `body` is `None` when the request body is not
      JSON, which the handler only reads after the guards. The caller's seller
      row is replaced by its merge with the body; nothing else changes. */
  method PatchProfile(db: Db, actor: Actor, body: Option<ProfilePatch>) returns (r: Reply<Seller>)
    modifies db`sellers
    ensures MeRefusal(old(db.sellers), actor).Some? ==>
      r == MeRefusal(old(db.sellers), actor).value && db.sellers == old(db.sellers)
    ensures MeRefusal(old(db.sellers), actor).None? && body.None? ==>
      r == Fail(500, UpdateFailed) && db.sellers == old(db.sellers)
    ensures MeRefusal(old(db.sellers), actor).None? && body.Some? ==>
      var k := SellerIndexOf(old(db.sellers), actor.value.userId).value;
      && db.sellers == old(db.sellers)[k := MergeProfile(old(db.sellers)[k], body.value)]
      && r == Ok(db.sellers[k])
  {
    if actor.None? {
      return Fail(401, AuthRequired);
    }
    if actor.value.role != Role.SELLER && actor.value.role != Role.ADMIN {
      return Fail(403, SellersOnly);
    }
    var index := SellerIndexOf(db.sellers, actor.value.userId);
    if index.None? {
      return Fail(404, ProfileNotFound);
    }
    if body.None? {
      return Fail(500, UpdateFailed);
    }
    var k := index.value;
    var updated := MergeProfile(db.sellers[k], body.value);
    db.sellers := db.sellers[k := updated];
    return Ok(updated);
  }
}
