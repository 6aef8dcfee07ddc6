/** The fish kinds, app/api/fish/route.ts: anyone may read them, sorted by
    name; only an admin may add one, under a name not yet taken, and the
    addition is audited. */
module FishRoute {
  import opened Common
  import opened Sorting
  import opened Store
  import opened Audit

  const Unauthorized := "Unauthorized access"
  const NameRequired := "Fish name is required"
  const NameTaken := "Fish with this name already exists"

  /** `orderBy: { name: 'asc' }`, by code point. */
  predicate ByName(a: Fish, b: Fish) {
    LexLe(a.name, b.name)
  }

  lemma ByNamePreorder()
    ensures Total(ByName) && Transitive(ByName)
  {
    forall a: Fish, b: Fish ensures ByName(a, b) || ByName(b, a) {
      LexLeTotal(a.name, b.name);
    }
    forall a: Fish, b: Fish, c: Fish | ByName(a, b) && ByName(b, c) ensures ByName(a, c) {
      LexLeTransitive(a.name, b.name, c.name);
    }
  }

  /** `GET /api/fish`: every fish kind, in ascending name order. */
  method ListFish(db: Db) returns (r: seq<Fish>)
    ensures multiset(r) == multiset(db.fish)
    ensures forall i, j :: 0 <= i < j < |r| ==> LexLe(r[i].name, r[j].name)
  {
    r := SortBy(db.fish, ByName);
    ByNamePreorder();
    SortBySorted(db.fish, ByName);
  }

  /** The guards of `POST`, in handler order. */
  function FishRefusal(fish: seq<Fish>, actor: Actor, name: Option<string>): (r: Option<Reply<Fish>>)
    ensures !IsAdmin(actor) ==> r == Some(Fail(401, Unauthorized))
    ensures IsAdmin(actor) && !Present(name) ==> r == Some(Fail(400, NameRequired))
    ensures IsAdmin(actor) && Present(name) && FishByName(fish, name.value).Some? ==>
      r == Some(Fail(400, NameTaken))
    ensures r.None? <==> IsAdmin(actor) && Present(name) && FishByName(fish, name.value).None?
    ensures r.Some? ==> r.value.Fail?
  {
    if !IsAdmin(actor) then Some(Fail(401, Unauthorized))
    else if !Present(name) then Some(Fail(400, NameRequired))
    else if FishByName(fish, name.value).Some? then Some(Fail(400, NameTaken))
    else None
  }

  function CreatedDescription(name: string): string {
    "Создан новый вид рыбы \"" + name + "\""
  }

  /** `POST /api/fish`; `newId` is the id the store assigns, `now` the audit
      timestamp. */
  method CreateFish(db: Db, actor: Actor, name: Option<string>, newId: string, now: int) returns (r: Reply<Fish>)
    modifies db`fish, db`audits
    ensures FishRefusal(old(db.fish), actor, name).Some? ==>
      && r == FishRefusal(old(db.fish), actor, name).value
      && db.fish == old(db.fish) && db.audits == old(db.audits)
    ensures FishRefusal(old(db.fish), actor, name).None? ==>
      && r == Ok(Fish(newId, name.value))
      && db.fish == old(db.fish) + [Fish(newId, name.value)]
      && db.audits == old(db.audits) +
           (if db.auditWritable
            then [EntryFor(CREATE, Some(newId), EntityType.FISH, CreatedDescription(name.value),
                           actor.value.userId, now)]
            else [])
  {
    if !IsAdmin(actor) {
      return Fail(401, Unauthorized);
    }
    if !Present(name) {
      return Fail(400, NameRequired);
    }
    var existing := FishByName(db.fish, name.value);
    if existing.Some? {
      return Fail(400, NameTaken);
    }
    var created := Fish(newId, name.value);
    db.fish := db.fish + [created];
    LogAuditAction(db, CREATE, Some(created.id), EntityType.FISH, CreatedDescription(created.name),
                   actor.value.userId, now);
    return Ok(created);
  }

  /** An insert that passed the guards keeps fish names unique. */
  lemma CreateKeepsNamesUnique(fish: seq<Fish>, actor: Actor, name: Option<string>, newId: string)
    requires UniqueFishNames(fish)
    requires FishRefusal(fish, actor, name).None?
    ensures UniqueFishNames(fish + [Fish(newId, name.value)])
  {
    var f' := fish + [Fish(newId, name.value)];
    forall i, j | 0 <= i < j < |f'| ensures f'[i].name != f'[j].name {
      if j == |fish| {
        assert f'[i] == fish[i];
      }
    }
  }

  /** A name already in the table is refused with 400. */
  lemma TakenNameRefused(fish: seq<Fish>, actor: Actor, k: nat)
    requires IsAdmin(actor) && k < |fish| && fish[k].name != []
    ensures FishRefusal(fish, actor, Some(fish[k].name)) == Some(Fail(400, NameTaken))
  {
  }
}
