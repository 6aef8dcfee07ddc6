/** Account creation by an admin, `POST` of app/api/auth/register/route.ts:
    guards, the user insert with its defaults, and, for a SELLER account, a
    seller row attached to the first city when there is one. The reply never
    carries the password. */
module RegisterRoute {
  import opened Common
  import opened Store
  import opened Audit

  const Unauthorized := "Unauthorized access"
  const CredentialsRequired := "Email and password are required"
  const EmailTaken := "User with this email already exists"

  /** The JSON body; `role` is `None` when missing or empty. */
  datatype RegisterBody = RegisterBody(
    email: Option<string>,
    name: Option<string>,
    password: Option<string>,
    role: Option<Role>)

  /** The reply body: the user without the password. */
  datatype UserView = UserView(id: string, email: string, name: Option<string>, role: Role)

  function RoleName(role: Role): string {
    match role
    case USER => "USER"
    case SELLER => "SELLER"
    case ADMIN => "ADMIN"
  }

  /** The guards in handler order: the reply of the first that fails. */
  function RegisterRefusal(users: seq<User>, actor: Actor, body: RegisterBody): (r: Option<Reply<UserView>>)
    ensures r.Some? ==> r.value.Fail? && r.value.status in {400, 401}
    ensures !IsAdmin(actor) ==> r == Some(Fail(401, Unauthorized))
    ensures IsAdmin(actor) && (!Present(body.email) || !Present(body.password)) ==>
      r == Some(Fail(400, CredentialsRequired))
    ensures (IsAdmin(actor) && Present(body.email) && Present(body.password)
             && UserByEmail(users, body.email.value).Some?) ==> r == Some(Fail(400, EmailTaken))
    ensures r.None? <==>
      (IsAdmin(actor) && Present(body.email) && Present(body.password)
       && UserByEmail(users, body.email.value).None?)
  {
    if !IsAdmin(actor) then Some(Fail(401, Unauthorized))
    else if !Present(body.email) || !Present(body.password) then Some(Fail(400, CredentialsRequired))
    else if UserByEmail(users, body.email.value).Some? then Some(Fail(400, EmailTaken))
    else None
  }

  /** The user row created: name defaults to null, role to USER, and the
      password is stored as the hash handed in. */
  function NewUser(id: string, body: RegisterBody, hashedPassword: string): (u: User)
    requires Present(body.email)
    ensures u.id == id && u.email == body.email.value && u.password == hashedPassword
    ensures u.name == (if Present(body.name) then Some(body.name.value) else None)
    ensures u.role == (if body.role.Some? then body.role.value else Role.USER)
  {
    User(id, body.email.value,
         if Present(body.name) then Some(body.name.value) else None,
         hashedPassword,
         if body.role.Some? then body.role.value else Role.USER)
  }

  /** The reply body: every field of the user but the password. */
  function ViewOf(u: User): (v: UserView)
    ensures v.id == u.id && v.email == u.email && v.name == u.name && v.role == u.role
  {
    UserView(u.id, u.email, u.name, u.role)
  }

  /** The seller row a SELLER registration creates: attached to the first city,
      and only when a city exists. */
  function RegisteredSeller(u: User, cities: seq<City>, sellerId: string): (r: Option<Seller>)
    ensures r.Some? <==> u.role == Role.SELLER && |cities| > 0
    ensures r.Some? ==> r.value == Seller(sellerId, u.id, cities[0].id, None, None, None)
  {
    if u.role == Role.SELLER && |cities| > 0
    then Some(Seller(sellerId, u.id, cities[0].id, None, None, None))
    else None
  }

  /** The audit descriptions of a registration. */
  function UserCreatedText(u: User): string {
    "Создан пользователь \"" + u.email + "\" с ролью " + RoleName(u.role)
  }

  function SellerAddedText(u: User, city: City): string {
    "Пользователь \"" + u.email + "\" добавлен как продавец в городе \"" + city.name + "\""
  }

  function SellerWithoutCityText(u: User): string {
    "Пользователь \"" + u.email + "\" установлен как продавец без назначения города (нет доступных городов)"
  }

  /** The audit entries the handler tries to write, in order. */
  function RegistrationAudits(u: User, cities: seq<City>, sellerId: string, actorId: string, now: int)
    : (r: seq<AuditEntry>)
    ensures |r| == if u.role == Role.SELLER then 2 else 1
    ensures r[0].entityType == EntityType.USER && r[0].entityId == u.id
    ensures u.role == Role.SELLER ==> r[1].entityType == EntityType.SELLER
    ensures u.role == Role.SELLER && |cities| > 0 ==> r[1].entityId == sellerId
    ensures u.role == Role.SELLER && |cities| == 0 ==> r[1].entityId == u.id
  {
    var first := EntryFor(CREATE, Some(u.id), EntityType.USER,
                          UserCreatedText(u), actorId, now);
    if u.role != Role.SELLER then [first]
    else if |cities| > 0 then
      [first, EntryFor(CREATE, Some(sellerId), EntityType.SELLER,
                       SellerAddedText(u, cities[0]),
                       actorId, now)]
    else
      [first, EntryFor(CREATE, Some(u.id), EntityType.SELLER,
                       SellerWithoutCityText(u),
                       actorId, now)]
  }

  /** `POST /api/auth/register`. `hashedPassword` is the bcrypt hash of the
      body's password; `userId` and `sellerId` are the ids the store assigns;
      `now` is the audit timestamp. */
  method Register(db: Db, actor: Actor, body: RegisterBody, hashedPassword: string,
                  userId: string, sellerId: string, now: int)
    returns (r: Reply<UserView>)
    modifies db`users, db`sellers, db`audits
    ensures var refusal := RegisterRefusal(old(db.users), actor, body);
      refusal.Some? ==>
        && r == refusal.value
        && db.users == old(db.users) && db.sellers == old(db.sellers) && db.audits == old(db.audits)
    ensures RegisterRefusal(old(db.users), actor, body).None? ==>
      var u := NewUser(userId, body, hashedPassword);
      && r == Ok(ViewOf(u))
      && db.users == old(db.users) + [u]
      && db.sellers == old(db.sellers) +
           (match RegisteredSeller(u, db.cities, sellerId) case Some(s) => [s] case None => [])
      && db.audits == old(db.audits) +
           (if db.auditWritable then RegistrationAudits(u, db.cities, sellerId, actor.value.userId, now) else [])
  {
    if !IsAdmin(actor) {
      return Fail(401, Unauthorized);
    }
    if !Present(body.email) || !Present(body.password) {
      return Fail(400, CredentialsRequired);
    }
    var existing := UserByEmail(db.users, body.email.value);
    if existing.Some? {
      return Fail(400, EmailTaken);
    }
    var user := NewUser(userId, body, hashedPassword);
    CreateAccount(db, user, sellerId, actor.value.userId, now);
    return Ok(ViewOf(user));
  }

  /** The writes of a registration that passed the guards: the user row, the
      seller row for a SELLER when a city exists, and the audit entries. */
  method CreateAccount(db: Db, user: User, sellerId: string, actorId: string, now: int)
    modifies db`users, db`sellers, db`audits
    ensures db.users == old(db.users) + [user]
    ensures db.sellers == old(db.sellers) +
      (match RegisteredSeller(user, db.cities, sellerId) case Some(s) => [s] case None => [])
    ensures db.audits == old(db.audits) +
      (if db.auditWritable then RegistrationAudits(user, db.cities, sellerId, actorId, now) else [])
  {
    db.users := db.users + [user];
    LogAuditAction(db, CREATE, Some(user.id), EntityType.USER,
                   UserCreatedText(user), actorId, now);
    if user.role == Role.SELLER {
      if |db.cities| > 0 {
        var firstCity := db.cities[0];
        var seller := Seller(sellerId, user.id, firstCity.id, None, None, None);
        db.sellers := db.sellers + [seller];
        LogAuditAction(db, CREATE, Some(seller.id), EntityType.SELLER,
                       SellerAddedText(user, firstCity),
                       actorId, now);
      } else {
        LogAuditAction(db, CREATE, Some(user.id), EntityType.SELLER,
                       SellerWithoutCityText(user),
                       actorId, now);
      }
    }
  }

  /** An already registered email is refused, and a successful registration
      keeps emails unique. */
  lemma RegisterKeepsEmailsUnique(users: seq<User>, actor: Actor, body: RegisterBody,
                                  userId: string, hashedPassword: string)
    requires UniqueEmails(users)
    requires RegisterRefusal(users, actor, body).None?
    ensures UniqueEmails(users + [NewUser(userId, body, hashedPassword)])
  {
    var u := NewUser(userId, body, hashedPassword);
    var users' := users + [u];
    forall i, j | 0 <= i < j < |users'| ensures users'[i].email != users'[j].email {
      if j == |users| {
        assert users'[i] == users[i];
      }
    }
  }

  /** An email already in the table is refused with 400. */
  lemma DuplicateEmailRefused(users: seq<User>, actor: Actor, body: RegisterBody, k: nat)
    requires IsAdmin(actor) && Present(body.email) && Present(body.password)
    requires k < |users| && users[k].email == body.email.value
    ensures RegisterRefusal(users, actor, body) == Some(Fail(400, EmailTaken))
  {
  }

  /** A SELLER account registered while no city exists gets no seller row,
      yet the audit log records a SELLER creation whose entity id is the
      user's id. */
  lemma SellerWithoutCity(actor: Actor, body: RegisterBody, userId: string, sellerId: string,
                          hashedPassword: string, now: int)
    requires Present(body.email) && body.role == Some(Role.SELLER) && actor.Some?
    ensures var u := NewUser(userId, body, hashedPassword);
      && u.role == Role.SELLER
      && RegisteredSeller(u, [], sellerId).None?
      && RegistrationAudits(u, [], sellerId, actor.value.userId, now)[1].entityType == EntityType.SELLER
      && RegistrationAudits(u, [], sellerId, actor.value.userId, now)[1].entityId == userId
  {
  }
}
