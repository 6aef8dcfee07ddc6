/** The city list, app/api/cities/route.ts: anyone may read it; only an admin
    may add a city, and only under a name no city has yet. Adding a city writes
    no audit entry. */
module CitiesRoute {
  import opened Common
  import opened Store

  const Unauthorized := "Unauthorized access"
  const NameRequired := "City name is required"
  const NameTaken := "City with this name already exists"

  /** `GET /api/cities`: every city, in table order, with no session check. */
  method ListCities(db: Db) returns (r: seq<City>)
    ensures r == db.cities
  {
    r := db.cities;
  }

  /** The guards of `POST`, in handler order. */
  function CityRefusal(cities: seq<City>, actor: Actor, name: Option<string>): (r: Option<Reply<City>>)
    ensures !IsAdmin(actor) ==> r == Some(Fail(401, Unauthorized))
    ensures IsAdmin(actor) && !Present(name) ==> r == Some(Fail(400, NameRequired))
    ensures IsAdmin(actor) && Present(name) && CityByName(cities, name.value).Some? ==>
      r == Some(Fail(400, NameTaken))
    ensures r.None? <==> IsAdmin(actor) && Present(name) && CityByName(cities, name.value).None?
    ensures r.Some? ==> r.value.Fail?
  {
    if !IsAdmin(actor) then Some(Fail(401, Unauthorized))
    else if !Present(name) then Some(Fail(400, NameRequired))
    else if CityByName(cities, name.value).Some? then Some(Fail(400, NameTaken))
    else None
  }

  /** `POST /api/cities`; `newId` is the id the store assigns. */
  method CreateCity(db: Db, actor: Actor, name: Option<string>, newId: string) returns (r: Reply<City>)
    modifies db`cities
    ensures CityRefusal(old(db.cities), actor, name).Some? ==>
      r == CityRefusal(old(db.cities), actor, name).value && db.cities == old(db.cities)
    ensures CityRefusal(old(db.cities), actor, name).None? ==>
      r == Ok(City(newId, name.value)) && db.cities == old(db.cities) + [City(newId, name.value)]
    ensures db.audits == old(db.audits)
  {
    if !IsAdmin(actor) {
      return Fail(401, Unauthorized);
    }
    if !Present(name) {
      return Fail(400, NameRequired);
    }
    var existing := CityByName(db.cities, name.value);
    if existing.Some? {
      return Fail(400, NameTaken);
    }
    var city := City(newId, name.value);
    db.cities := db.cities + [city];
    return Ok(city);
  }

  /** An insert that passed the guards keeps city names unique. */
  lemma CreateKeepsNamesUnique(cities: seq<City>, actor: Actor, name: Option<string>, newId: string)
    requires UniqueCityNames(cities)
    requires CityRefusal(cities, actor, name).None?
    ensures UniqueCityNames(cities + [City(newId, name.value)])
  {
    var c' := cities + [City(newId, name.value)];
    forall i, j | 0 <= i < j < |c'| ensures c'[i].name != c'[j].name {
      if j == |cities| {
        assert c'[i] == cities[i];
      }
    }
  }

  /** A name already in the table is refused with 400. */
  lemma TakenNameRefused(cities: seq<City>, actor: Actor, k: nat)
    requires IsAdmin(actor) && k < |cities| && cities[k].name != []
    ensures CityRefusal(cities, actor, Some(cities[k].name)) == Some(Fail(400, NameTaken))
  {
  }
}
