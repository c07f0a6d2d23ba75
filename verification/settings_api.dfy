/** `GET`/`PUT /api/settings` and `PUT /api/settings/lang`: reading and
    changing a restaurant's own settings.

    `PUT` writes through a whitelist: the restaurant name, logo, colour,
    currency and admin language. A field the request leaves out is left as
    it is (Prisma skips `undefined`), except `logo`, which is always
    written and becomes null when missing or empty. The slug, the email and
    the password hash are never touched. An update of a user that has no
    record throws inside the route; the framework then answers 500, which
    is modelled as `Error(500, "")`. */
module SettingsApi {
  import opened Common
  import opened Store

  /** The `select` of `GET`: every column but the password. */
  datatype SettingsView = SettingsView(
    id: Id, email: string, restaurantName: string, slug: string, logo: Option<string>,
    primaryColor: string, currency: string, adminLang: string)

  /** The `select` of `PUT`: every column but the email and the password. */
  datatype UpdatedView = UpdatedView(
    id: Id, restaurantName: string, slug: string, logo: Option<string>,
    primaryColor: string, currency: string, adminLang: string)

  function ViewOf(u: User): (v: SettingsView)
    ensures v.id == u.id && v.email == u.email && v.slug == u.slug && v.logo == u.logo
    ensures v.restaurantName == u.restaurantName && v.primaryColor == u.primaryColor
    ensures v.currency == u.currency && v.adminLang == u.adminLang
  {
    SettingsView(u.id, u.email, u.restaurantName, u.slug, u.logo, u.primaryColor, u.currency, u.adminLang)
  }

  function UpdatedViewOf(u: User): (v: UpdatedView)
    ensures v.id == u.id && v.slug == u.slug && v.logo == u.logo
    ensures v.restaurantName == u.restaurantName && v.primaryColor == u.primaryColor
    ensures v.currency == u.currency && v.adminLang == u.adminLang
  {
    UpdatedView(u.id, u.restaurantName, u.slug, u.logo, u.primaryColor, u.currency, u.adminLang)
  }

  /** Two users that differ at most in their password hash look the same
      through either projection: neither answer can reveal the hash. */
  lemma {:induction false} ViewsHidePassword(u: User, hash: string)
    ensures ViewOf(u.(password := hash)) == ViewOf(u)
    ensures UpdatedViewOf(u.(password := hash)) == UpdatedViewOf(u)
    ensures forall e :: UpdatedViewOf(u.(email := e)) == UpdatedViewOf(u)
  {
  }

  /** The `GET` route: 401 without a session user; otherwise 200 with the
      session user's settings, or with `null` when the user has no record. */
  function GetSettings(db: Db, session: Option<Id>): (r: Response<Option<SettingsView>>)
    ensures session.None? ==> r == Error(401, "Unauthorized")
    ensures session.Some? ==> r.Ok? && r.status == 200
    ensures r.Ok? && r.body.Some? ==>
      exists i :: 0 <= i < |db.users| && db.users[i].id == session.value && r.body.value == ViewOf(db.users[i])
    ensures r.Ok? ==> (r.body.None? <==> forall i :: 0 <= i < |db.users| ==> db.users[i].id != session.value)
  {
    if session.None? then Unauthorized()
    else
      match FindUser(db.users, session.value)
      case None => Ok(200, None)
      case Some(u) => Ok(200, Some(ViewOf(u)))
  }

  /** The JSON body of `PUT /api/settings`. */
  datatype SettingsRequest = SettingsRequest(
    restaurantName: Option<string>, logo: Option<string>, primaryColor: Option<string>,
    currency: Option<string>, adminLang: Option<string>)

  /** A field Prisma writes only when the request carries it. */
  function Keep(o: Option<string>, current: string): (r: string)
    ensures o.Some? ==> r == o.value
    ensures o.None? ==> r == current
  {
    match o
    case None => current
    case Some(v) => v
  }

  /** The session user after the whitelisted update. */
  function Patched(u: User, req: SettingsRequest): (r: User)
    ensures r.(restaurantName := u.restaurantName, logo := u.logo, primaryColor := u.primaryColor,
               currency := u.currency, adminLang := u.adminLang) == u
    ensures r.restaurantName == Keep(req.restaurantName, u.restaurantName)
    ensures r.logo == OrNull(req.logo)
    ensures r.primaryColor == Keep(req.primaryColor, u.primaryColor)
    ensures r.currency == Keep(req.currency, u.currency)
    ensures r.adminLang == Keep(req.adminLang, u.adminLang)
  {
    u.(restaurantName := Keep(req.restaurantName, u.restaurantName), logo := OrNull(req.logo),
       primaryColor := Keep(req.primaryColor, u.primaryColor), currency := Keep(req.currency, u.currency),
       adminLang := Keep(req.adminLang, u.adminLang))
  }

  /** `update({ where: { id } })`: the user records with that id patched,
      every other record as it was. */
  function PatchUsers(users: seq<User>, id: Id, req: SettingsRequest): (r: seq<User>)
    ensures |r| == |users|
    ensures forall i :: 0 <= i < |users| ==> r[i] == if users[i].id == id then Patched(users[i], req) else users[i]
  {
    if |users| == 0 then [] else
      [if users[0].id == id then Patched(users[0], req) else users[0]] + PatchUsers(users[1..], id, req)
  }

  /** The `PUT` route: 401 without a session user, 500 when the user has no
      record, otherwise 200 with the patched settings; only the users table
      changes. */
  function PutSettings(db: Db, session: Option<Id>, req: SettingsRequest): (h: Handled<UpdatedView>)
    ensures session.None? ==> h == Handled(Error(401, "Unauthorized"), db)
    ensures session.Some? && FindUser(db.users, session.value).None? ==> h == Handled(Error(500, ""), db)
    ensures h.response.Ok? ==>
      && session.Some? && FindUser(db.users, session.value).Some?
      && h.response == Ok(200, UpdatedViewOf(Patched(FindUser(db.users, session.value).value, req)))
      && h.db == db.(users := PatchUsers(db.users, session.value, req))
  {
    if session.None? then Handled(Unauthorized(), db)
    else
      match FindUser(db.users, session.value)
      case None => Handled(Error(500, ""), db)
      case Some(u) => Handled(Ok(200, UpdatedViewOf(Patched(u, req))), db.(users := PatchUsers(db.users, session.value, req)))
  }

  /** Whatever the request, `PUT` keeps every user's id, email, slug and
      password hash, and leaves other restaurants' records and every other
      table of the store as they were. */
  lemma {:induction false} PutKeepsIdentity(db: Db, session: Option<Id>, req: SettingsRequest)
    ensures var after := PutSettings(db, session, req).db;
      && |after.users| == |db.users|
      && (forall i :: 0 <= i < |db.users| ==>
            && after.users[i].id == db.users[i].id
            && after.users[i].email == db.users[i].email
            && after.users[i].slug == db.users[i].slug
            && after.users[i].password == db.users[i].password)
      && (forall i :: 0 <= i < |db.users| && (session.None? || db.users[i].id != session.value) ==>
            after.users[i] == db.users[i])
      && after.(users := db.users) == db
  {
  }

  /** Sending back what `GET` returned changes nothing but clears an empty
      logo to null: the settings page can save an unchanged form safely. */
  lemma {:induction false} PutOfReadBackIsIdentity(u: User)
    requires u.logo != Some("")
    ensures var v := ViewOf(u);
      Patched(u, SettingsRequest(Some(v.restaurantName), v.logo, Some(v.primaryColor), Some(v.currency), Some(v.adminLang))) == u
  {
  }

  // ---------------------------------------------------------------------
  // PUT /api/settings/lang
  // ---------------------------------------------------------------------

  const InvalidLanguage: string := "Invalid language"

  /** The admin interface languages. */
  predicate AdminLanguage(s: string)
  {
    s == "EN" || s == "TH"
  }

  /** `update({ where: { id }, data: { adminLang } })`. */
  function SetAdminLang(users: seq<User>, id: Id, lang: string): (r: seq<User>)
    ensures |r| == |users|
    ensures forall i :: 0 <= i < |users| ==> r[i] == if users[i].id == id then users[i].(adminLang := lang) else users[i]
  {
    if |users| == 0 then [] else
      [if users[0].id == id then users[0].(adminLang := lang) else users[0]] + SetAdminLang(users[1..], id, lang)
  }

  /** The route: 401 without a session user (before the body is read), 400
      unless `adminLang` is `EN` or `TH`, 500 when the user has no record,
      otherwise 200 echoing the language, which is stored on the session
      user alone. */
  function PutAdminLang(db: Db, session: Option<Id>, adminLang: Option<string>): (h: Handled<string>)
    ensures session.None? ==> h == Handled(Error(401, "Unauthorized"), db)
    ensures session.Some? && !(adminLang.Some? && AdminLanguage(adminLang.value)) ==>
      h == Handled(Error(400, InvalidLanguage), db)
    ensures session.Some? && adminLang.Some? && AdminLanguage(adminLang.value) && FindUser(db.users, session.value).None? ==>
      h == Handled(Error(500, ""), db)
    ensures h.response.Ok? <==>
      session.Some? && adminLang.Some? && AdminLanguage(adminLang.value) && FindUser(db.users, session.value).Some?
    ensures h.response.Ok? ==>
      && h.response == Ok(200, adminLang.value)
      && h.db == db.(users := SetAdminLang(db.users, session.value, adminLang.value))
    ensures h.response.Error? ==> h.db == db
  {
    if session.None? then Handled(Unauthorized(), db)
    else if !Truthy(adminLang) || !AdminLanguage(adminLang.value) then Handled(Error(400, InvalidLanguage), db)
    else if FindUser(db.users, session.value).None? then Handled(Error(500, ""), db)
    else Handled(Ok(200, adminLang.value), db.(users := SetAdminLang(db.users, session.value, adminLang.value)))
  }

  /** Whatever the request, the stored admin language of every user is
      always `EN`, `TH`, or what it was; only the session user's can change,
      and nothing else about any user does. */
  lemma {:induction false} AdminLangStaysValid(db: Db, session: Option<Id>, adminLang: Option<string>)
    ensures var after := PutAdminLang(db, session, adminLang).db;
      && |after.users| == |db.users|
      && (forall i :: 0 <= i < |db.users| ==>
            && after.users[i].(adminLang := db.users[i].adminLang) == db.users[i]
            && (after.users[i].adminLang == db.users[i].adminLang || AdminLanguage(after.users[i].adminLang))
            && (after.users[i].adminLang != db.users[i].adminLang ==> session == Some(db.users[i].id)))
      && after.(users := db.users) == db
  {
  }
}
